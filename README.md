# Session arbitration of the transfer relay

The relay pairs two HTTP requests that present the same token: an
upstream `PUT /up/<token>`, whose body is the data, and a downstream
`GET /down/<token>`, whose response receives it. A global map files one
session per token. Each session has two slots (reader and writer), the
request contexts recorded with them, a timeout timer and a `done`
channel. Its `serve` goroutine runs a `for { select { ... } }` loop over
five cases:
- `done` closed;
- the timer fired;
- the upstream context is done;
- the downstream context is done;
- a new connection.

When a new connection completes the pair, `serve` leaves the loop and
copies the upstream body to the downstream writer. It then removes the
session and closes `done`. Both handlers block on `done`.

This project models that core in Dafny.

- `wrappers.dfy` (`Wrappers`) holds `Option`. It stands for Go's
  nil-or-present fields.
- `arbitration.dfy` (`Arbitration`) models one session as a value.
  - `State` holds the struct's fields. `upstream` and `downstream` are
    `Option<Bytes>`. `connPending` means a connect call is blocked on the
    `newConn` send while holding the session mutex. `phase` says whether
    `serve` is in its loop, past it, or returned.
  - There is one function per `select` case and one per connect call, each
    guarded by the predicate that says when it can happen.
  - `Event`, `Enabled` and `Step` let any enabled event come next. This
    models Go's `select`, which takes any ready case, and the handlers,
    which call in at any time.
  - `Inv` is what holds of every reachable session.
- `runs.dfy` (`Runs`) holds runs (sequences of events) and what holds
  along all of them:
  - the invariant;
  - the copy runs at most once;
  - `done` is closed at most once and stays closed;
  - the first producer wins and is what the consumer receives;
  - a side's cancellation comes only after that side connected.

  It also holds the as-written form of the cancel cases (see Findings).
- `relay.dfy` (`Relay`) holds the classes.
  - `Session` has the same fields. One method per `select` case, the two
    connect methods and the copy each ensure
    `Snapshot() == <the Arbitration function>(old(Snapshot()))`, so
    everything `Runs` proves applies to the objects.
  - `Session.RunSchedule` performs a whole schedule of events (`select`
    cases and connect calls alike) and ends where `Runs.Run` says.
  - `Registry` is the token map with `NewSession`, `RemoveSession` and
    `Lookup`.
  - `UpHandler` and `DownHandler` are the handlers' lookup-then-connect.
- `scenarios.dfy` (`Scenarios`) drives whole sessions through those
  classes: a pair that copies, a timeout, an abort, two competing
  producers and an unknown token.

Time is abstract. The timer case and the new-connection case take the
current time `now` as a parameter. The timer case can fire once
`deadline <= now`. A new connection that leaves a slot empty sets
`deadline := now + 300`, the fixed timeout of transfer.go:181.

Where the code does not do what its status names and comments suggest,
the model follows the code:
- Only `statusTimedOut` and `statusAborted` are ever assigned. A session
  that pairs and copies stays `Waiting`, and the model proves this.
- The deadline is reset to now + 300 on every new connection that leaves
  the pair incomplete. Pairing does not stop the timer; it leaves the loop.
- A timed-out or aborted session stays in the registry until `serve`
  takes the `done` case. Until then a lookup still finds it.
- `newSession` overwrites an entry that already has the same token.

## Model

| member | source | states |
|---|---|---|
| `Arbitration.ConnectUp` | transfer.go:107-124 | upstreamConnect aborts the caller exactly when the upstream slot is filled, and then changes nothing. Otherwise it fills the slot with the body, records the context and leaves a new connection pending. The downstream slot and every other field are untouched. |
| `Arbitration.ConnectDown` | transfer.go:127-144 | The same for downstreamConnect: abort exactly when the downstream slot is filled. Otherwise it installs an empty writer, records its context and leaves a new connection pending. |
| `Arbitration.Initial` | transfer.go:56-61 | A fresh session is Waiting with both slots and both contexts nil, no pending connection, the timer at its creation time plus 60 seconds, `done` open and `serve` in its loop. It satisfies the invariant. |
| `Arbitration.HasUpstreamDone` | transfer.go:82-88 | A read of the upstream context: its Done channel can fire exactly when the context is set. A nil context gives a nil channel, which never fires. |
| `Arbitration.HasDownstreamDone` | transfer.go:91-97 | The same read of the downstream context. |
| `Arbitration.BothConnected` | transfer.go:100-104 | A read of the slots: true exactly when both the reader and the writer are set. |
| `Arbitration.OnDoneClosed` | transfer.go:152-155 | The done case: `serve` returns, and nothing else changes. The status, both slots and a pending `newConn` send are as they were. Keeps the invariant. |
| `Arbitration.OnTimerFired` | transfer.go:156-160 | The timer case: status TimedOut and `done` closed. Slots and contexts are kept and `serve` stays in its loop. Keeps the invariant. |
| `Arbitration.OnUpCtxDone` | transfer.go:161-166 | The upstream cancel case: status Aborted, the reader cleared, `done` closed. The upstream context stays recorded, the writer is unchanged and `serve` stays in its loop. Keeps the invariant. |
| `Arbitration.OnDownCtxDone` | transfer.go:167-172 | The downstream cancel case: status Aborted, the writer cleared, `done` closed. The downstream context stays recorded and the reader is unchanged. Keeps the invariant. |
| `Arbitration.OnConnReceived` | transfer.go:173-183 | The new-connection case releases the sender and keeps the status and slots. With both slots filled it leaves the loop and keeps the deadline; otherwise it stays in the loop with deadline now + 300. Keeps the invariant. |
| `Arbitration.RunCopy` | transfer.go:186-190 | The code after the loop: the writer receives the reader's bytes appended to what it held, the reader is drained, `done` is closed and `serve` returns with the status unchanged. Keeps the invariant. |
| `Arbitration.StepPreservesInv` | transfer.go:148-191 | Every connect call and every `select` case keeps the invariant. The invariant says: only three statuses occur; the status leaves Waiting only together with `done`; a filled slot has its context; past the loop both slots are filled and `done` is open; nothing is written before the copy. |
| `Arbitration.CancelNeedsContext` | transfer.go:82-97 | A cancel case is ready only when that side's context is set, because a nil context gives a nil channel. In a reachable state this means that side's slot is filled. |
| `Arbitration.ConnWithOneSide` | transfer.go:173-183 | A new connection that leaves a slot empty keeps the session Waiting in its loop, releases the sender and sets the deadline to now + 300. The timer cannot fire before then. |
| `Arbitration.ConnWithBothSides` | transfer.go:100-104 | A new connection with both slots filled leaves the loop, and the copy is then ready. |
| `Arbitration.PairedCopiesNext` | transfer.go:176-190 | Past the loop the copy is enabled. Every other event leaves the session unchanged, so the copy is what happens next. |
| `Arbitration.CopyDelivers` | transfer.go:186-190 | The copy hands the writer exactly the upstream's bytes, closes `done` and returns. The status stays Waiting. |
| `Runs.RunPreservesInv` | transfer.go:148-191 | The invariant holds after any run that starts in a state satisfying it. |
| `Runs.ReachableStatuses` | transfer.go:18-26 | Every session reached from newSession has status Waiting, TimedOut or Aborted. Ready, Transferring, Completed and Error are never reached. |
| `Runs.CopyRunsAtMostOnce` | transfer.go:176-190 | Any run copies at most once. It never copies after `serve` has returned, and a run that copies ends with `serve` returned. |
| `Runs.DoneClosedAtMostOnce` | transfer.go:156-172 | With the cancel cases guarded by `done`, a run closes `done` exactly once if it starts with `done` open and ends with it closed, and never otherwise. Once closed it stays closed. |
| `Runs.DoneIsStable` | transfer.go:152-172 | With the post-`done` cases guarded, the status no longer changes after `done` is closed. A returned `serve` stays returned. |
| `Runs.HistoryHolds` | transfer.go:107-191 | Along every run from newSession: the invariant holds; while `done` is open the upstream slot holds the first producer's body; the copy has run exactly when `done` is closed with status Waiting; a context is recorded only by a connect call of that side. |
| `Runs.ConsumerGetsFirstProducer` | transfer.go:107-124 | While `done` is open, the upstream slot holds the body of the first upstream connect call. In a run that copies, the consumer receives exactly that body, `done` is closed, `serve` has returned and the status is Waiting. |
| `Runs.CancelOnlyAfterConnect` | transfer.go:161-172 | In any run, a side's cancel case fires only after an earlier connect call of that side. |
| `Runs.ReturnedWithPendingIsStuck` | transfer.go:113-116 | Once `serve` has returned, a connect call still blocked on its `newConn` send is stuck for good: no event is enabled, so the only run from there is the empty one. |
| `Runs.LateConnectAfterAbort` | transfer.go:161-166 | After an upstream abort and before the done case, a second producer fills the cleared slot and blocks on `newConn`. After the done case its send is still pending, `serve` has returned and the status is Aborted. |
| `Runs.LateConnectAfterTimeout` | transfer.go:156-160 | The same after a timeout: a consumer arriving before the done case fills the empty writer and is left with its send pending once `serve` has returned. |
| `Runs.CancelStaysReadyAsWritten` | transfer.go:161-172 | In every state, after either abort case the done case and the same cancel case, read as written, are both ready. The guarded cancel case is not. |
| `Runs.AbortLeavesCancelReadyAsWritten` | transfer.go:161-172 | Both abort cases are reachable from newSession. After a connect and an abort of the same side, `done` is closed, the done case is ready, and the cancel case as written is ready too. |
| `Relay.Session.constructor` | transfer.go:56-61 | A new session has the token, status Waiting, both slots nil, no contexts, deadline now + 60, `done` open and `serve` in its loop. |
| `Relay.Session.UpstreamConnect` | transfer.go:107-124 | The session changes as `ConnectUp` says, including the abort result exactly for a filled slot. The downstream side is unchanged. |
| `Relay.Session.DownstreamConnect` | transfer.go:127-144 | The session changes as `ConnectDown` says. The upstream side is unchanged. |
| `Relay.Session.DoneArm` | transfer.go:152-155 | The done case removes exactly this token from the registry, so a later lookup finds nothing. `serve` returns. |
| `Relay.Session.TimeoutArm` | transfer.go:156-160 | The timer case sets status TimedOut and closes `done`. Both slots are unchanged. |
| `Relay.Session.UpstreamCancelArm` | transfer.go:161-166 | The upstream cancel case sets status Aborted, clears the upstream slot and closes `done`. The downstream slot is unchanged. |
| `Relay.Session.DownstreamCancelArm` | transfer.go:167-172 | The downstream cancel case sets status Aborted, clears the downstream slot and closes `done`. The upstream slot is unchanged. |
| `Relay.Session.NewConnArm` | transfer.go:173-183 | The new-connection case releases the sender and keeps the status. With both slots filled it leaves the loop and keeps the deadline; otherwise it stays in the loop with deadline now + 300. |
| `Relay.Session.Copy` | transfer.go:186-190 | After the loop, the writer receives the reader's bytes. The session is removed from the registry, `done` is closed and `serve` returns with the status unchanged. |
| `Relay.Session.RunSchedule` | transfer.go:107-191 | Performing a schedule of events ends in the state `Runs.Run` gives. The token leaves the registry exactly when `serve` returned during the schedule. |
| `Relay.Registry.constructor` | transfer.go:246 | The registry starts empty. |
| `Relay.Registry.NewSession` | transfer.go:53-64 | newSession files a fresh session under the token: Waiting, both slots empty, deadline now + 60. Every other entry stays as it was. |
| `Relay.Registry.RemoveSession` | transfer.go:68-72 | removeSession deletes the session's token and no other. A token already gone leaves the map unchanged. |
| `Relay.Registry.Lookup` | transfer.go:217-219 | The lookup finds a session exactly when the token is filed, and that session carries the token. |
| `Relay.UpHandler` | transfer.go:212-226 | An unfiled token drops the connection and touches no session. A filed one goes through upstreamConnect on that session. |
| `Relay.DownHandler` | transfer.go:228-242 | The same for the downstream side. |
| `Scenarios.PairAndCopy` | transfer.go:173-190 | A producer, then a consumer: both wait for `done`, the consumer receives exactly the producer's body, the status stays Waiting and the token is gone. |
| `Scenarios.ProducerTimesOut` | transfer.go:156-160 | A lone producer: the timer is not ready before the refreshed deadline. When it fires the status is TimedOut, and once `serve` returned a consumer with the token is dropped. |
| `Scenarios.ProducerAborts` | transfer.go:161-166 | A producer whose client goes away: the status is Aborted and the slot is cleared. A later consumer is dropped. |
| `Scenarios.ProducerRetriesAfterAbort` | transfer.go:161-166 | A producer aborts and a second producer arrives before the done case. Both wait for `done`; the slot holds the second body. After the done case the second producer's send is still pending and `serve` has returned. |
| `Scenarios.TwoProducers` | transfer.go:107-124 | Two producers for one token: the first waits for `done` and keeps the slot. The second is aborted. |
| `Scenarios.UnknownToken` | transfer.go:217-224 | A token never issued is dropped on both sides. |

## Findings

| source | as written | input that shows it | evidently intended | confidence | as-written member | corrected member |
|---|---|---|---|---|---|---|
| transfer.go:161-172 | Each cancel case waits on its context's Done channel whether or not `done` is already closed. The abort case clears the slot but keeps the context. | An upstream connects and its client disconnects. `serve` takes the upstream case and closes `done`. On the next loop iteration both the done case and the upstream case are ready, because a cancelled context's Done channel stays closed. If `select` takes the upstream case, `close(s.done)` runs a second time and panics in the `serve` goroutine. The downstream case behaves the same. | `done` is closed once, after which the done case removes the session and returns | medium, not executed | `Runs.CancelStaysReadyAsWritten` | `Runs.DoneClosedAtMostOnce` |

`Runs.AbortLeavesCancelReadyAsWritten` shows both abort cases reached
from newSession. The model's cancel cases (`UpCancelArmReady`,
`DownCancelArmReady`) are ready only while `done` is open. The same guard is on the timer case and
the new-connection case.

## Left out

- The HTTP side of the handlers, routing, `main`, the index page and
  `util.DropConnection`: network plumbing. A dropped connection is the
  `SessionNotFound` result.
- All logging.
- Token generation (`GenerateRandomString`, `GenerateRandomBytes`): a
  token is an opaque string parameter. A generation error is an HTTP-side
  outcome before `newSession` is called.
- The `time.Timer` channel mechanics inside `RefreshTimer`: only
  "deadline := now + d, no stale expiry pending" is modelled.
  - The caller supplies `now`. The model does not require it to grow.
- `io.Copy` internals and its error, which the code never inspects. The
  reader is a finite byte sequence that the copy drains completely.
- Goroutines, channels, mutexes and blocking. A handler blocked on `done`
  is a `WaitForDone` result. It is released when `done` is closed, but
  only once its `newConn` send has been received (`connPending` false).
  A connect call blocked on the mutex is not enabled while `connPending`
  holds.
- Go's `select` can take a case other than the done case after `done` is
  closed. This is not modelled: those cases are guarded by `!done`.
  - Read as written, a timer or new-connection case can then also fire
    after `done`. After a timeout, `RefreshTimer` would then block on an
    already drained timer channel.
  - The cancel-case instance is exhibited under Findings.
- The window between serve's receive on `newConn` and `bothConnected`
  taking the session mutex: the new-connection case is one atomic step.
  As written, another connect call can take the mutex in that window.
  It then blocks sending on `newConn` while `serve` waits for the mutex.
- A connect call after `done` is closed. The session stays filed until
  `serve` takes the done case, so after an abort or a timeout a handler
  still finds it (the same holds after `serve` has returned, for a caller
  that looked the session up before). The model does not model the hang
  itself, only the state it leaves:
  - A slot cleared by an abort, or one never filled, is filled a second
    time. So "the slot holds the first producer's body" holds only while
    `done` is open (`Runs.LateConnectAfterAbort`).
  - That caller gets `WaitForDone` with `connPending` set. Nothing
    receives its `newConn` send any more, so it is never released and
    holds the session mutex for good. Every later connect call on the
    session blocks too (`Runs.ReturnedWithPendingIsStuck`).
  - The same happens after a timeout (`Runs.LateConnectAfterTimeout`).
