/**
 * The per-token session of the relay as a state machine on values.
 *
 * A session holds two connection slots (the upstream reader and the
 * downstream writer), the request contexts recorded with them, the
 * deadline of its timeout timer, the `newConn` hand-off and the `done`
 * channel.  Its `serve` goroutine runs a `for { select { ... } }` loop;
 * each case of that `select` is one function below, guarded by a
 * predicate saying when the case is ready.  The two connect calls the
 * handlers make are functions too.  Go's `select` picks any ready case, so
 * any enabled event may come next.
 */
module Arbitration {
  import opened Wrappers

  /** One byte of a request or response body. */
  newtype byte = x: int | 0 <= x < 256

  type Bytes = seq<byte>

  /** Seconds until a fresh session times out. */
  const FirstConnTimeout: int := 60

  /** Seconds the timer is reset to after a connection that leaves the pair incomplete. */
  const SecondConnTimeout: int := 300

  /**
   * The seven declared statuses, in declaration order.  Only Waiting,
   * TimedOut and Aborted are ever reached (see Inv).
   */
  datatype Status = Waiting | TimedOut | Aborted | Ready | Transferring | Completed | Error

  /**
   * Where the serve goroutine is: in its select loop, past `break loop`
   * (running the copy), or returned.
   */
  datatype Phase = Selecting | Copying | Returned

  /**
   * What a connect call does to its caller: the handler is aborted
   * (`panic(http.ErrAbortHandler)`), or it waits on `done`.
   */
  datatype ConnectResult = ErrAbortHandler | WaitForDone

  /**
   * The fields of one session.
   * upstream: None for a nil reader, else the bytes it has still to yield.
   * downstream: None for a nil writer, else the bytes written to it so far.
   * hasUpstreamCtx, hasDownstreamCtx: the recorded context is non-nil.
   * deadline: when the timeout timer fires, in abstract seconds.
   * connPending: a connect call is blocked sending on `newConn` while
   *   holding the session mutex.
   * done: the `done` channel has been closed.
   */
  datatype State = State(
    status: Status,
    upstream: Option<Bytes>,
    downstream: Option<Bytes>,
    hasUpstreamCtx: bool,
    hasDownstreamCtx: bool,
    deadline: int,
    connPending: bool,
    done: bool,
    phase: Phase)

  /**
   * A session as newSession creates it at time `now`: Waiting, both slots
   * and both contexts nil, the timer set to now + 60, `done` open and
   * serve in its loop.  It satisfies Inv.
   */
  function Initial(now: int): (r: State)
    ensures r.status == Waiting && r.upstream == None && r.downstream == None
    ensures !r.hasUpstreamCtx && !r.hasDownstreamCtx && !r.connPending
    ensures r.deadline == now + FirstConnTimeout && !r.done && r.phase == Selecting
    ensures Inv(r)
  {
    State(Waiting, None, None, false, false, now + FirstConnTimeout, false, false, Selecting)
  }

  /** upstreamDone returns a channel that can fire (a nil channel never does). */
  predicate HasUpstreamDone(s: State) {
    s.hasUpstreamCtx
  }

  /** downstreamDone returns a channel that can fire. */
  predicate HasDownstreamDone(s: State) {
    s.hasDownstreamCtx
  }

  /** Both slots are filled. */
  predicate BothConnected(s: State) {
    s.upstream.Some? && s.downstream.Some?
  }

  // ----- The two connect calls.  Each one first takes the session mutex,
  // ----- which a connect call blocked on `newConn` still holds.

  /** upstreamConnect with request body `body`. */
  function ConnectUp(s: State, body: Bytes): (r: (State, ConnectResult))
    requires !s.connPending
    ensures Inv(s) ==> Inv(r.0)
    ensures r.1 == ErrAbortHandler <==> s.upstream.Some?
    ensures r.1 == ErrAbortHandler ==> r.0 == s
    ensures r.1 == WaitForDone ==>
      && r.0.upstream == Some(body) && r.0.hasUpstreamCtx && r.0.connPending
      && r.0.downstream == s.downstream && r.0.hasDownstreamCtx == s.hasDownstreamCtx
      && r.0.status == s.status && r.0.deadline == s.deadline
      && r.0.done == s.done && r.0.phase == s.phase
  {
    if s.upstream.None? then
      (s.(hasUpstreamCtx := true, upstream := Some(body), connPending := true), WaitForDone)
    else
      (s, ErrAbortHandler)
  }

  /** downstreamConnect with a fresh response writer. */
  function ConnectDown(s: State): (r: (State, ConnectResult))
    requires !s.connPending
    ensures Inv(s) ==> Inv(r.0)
    ensures r.1 == ErrAbortHandler <==> s.downstream.Some?
    ensures r.1 == ErrAbortHandler ==> r.0 == s
    ensures r.1 == WaitForDone ==>
      && r.0.downstream == Some([]) && r.0.hasDownstreamCtx && r.0.connPending
      && r.0.upstream == s.upstream && r.0.hasUpstreamCtx == s.hasUpstreamCtx
      && r.0.status == s.status && r.0.deadline == s.deadline
      && r.0.done == s.done && r.0.phase == s.phase
  {
    if s.downstream.None? then
      (s.(hasDownstreamCtx := true, downstream := Some([]), connPending := true), WaitForDone)
    else
      (s, ErrAbortHandler)
  }

  // ----- The cases of serve's select.  Every case other than `<-s.done`
  // ----- is taken only while `done` is still open.

  predicate DoneArmReady(s: State) {
    s.phase == Selecting && s.done
  }

  /**
   * `case <-s.done`: the session is removed and serve returns.  Nothing
   * else changes; in particular a connect call still blocked on `newConn`
   * stays blocked, since nothing will receive from it any more.
   */
  function OnDoneClosed(s: State): (r: State)
    requires DoneArmReady(s)
    ensures r.phase == Returned && r.done
    ensures r.status == s.status && r.upstream == s.upstream && r.downstream == s.downstream
    ensures r.connPending == s.connPending
    ensures Inv(s) ==> Inv(r)
  {
    s.(phase := Returned)
  }

  predicate TimerArmReady(s: State, now: int) {
    s.phase == Selecting && !s.done && s.deadline <= now
  }

  /**
   * `case <-s.timeoutTimer.C`: status TimedOut and `done` closed; the
   * slots and contexts are kept and serve stays in its loop.
   */
  function OnTimerFired(s: State, now: int): (r: State)
    requires TimerArmReady(s, now)
    ensures r.status == TimedOut && r.done && r.phase == Selecting
    ensures r.upstream == s.upstream && r.downstream == s.downstream
    ensures r.hasUpstreamCtx == s.hasUpstreamCtx && r.hasDownstreamCtx == s.hasDownstreamCtx
    ensures Inv(s) ==> Inv(r)
  {
    s.(status := TimedOut, done := true)
  }

  predicate UpCancelArmReady(s: State) {
    s.phase == Selecting && !s.done && HasUpstreamDone(s)
  }

  /**
   * `case <-s.upstreamDone()`: the upstream client went away.  Status
   * Aborted, the reader cleared and `done` closed; the context is kept,
   * and serve stays in its loop.
   */
  function OnUpCtxDone(s: State): (r: State)
    requires UpCancelArmReady(s)
    ensures r.status == Aborted && r.upstream == None && r.done && r.phase == Selecting
    ensures r.hasUpstreamCtx && r.downstream == s.downstream
    ensures Inv(s) ==> Inv(r)
  {
    s.(status := Aborted, upstream := None, done := true)
  }

  predicate DownCancelArmReady(s: State) {
    s.phase == Selecting && !s.done && HasDownstreamDone(s)
  }

  /** `case <-s.downstreamDone()`: the mirror of OnUpCtxDone for the writer. */
  function OnDownCtxDone(s: State): (r: State)
    requires DownCancelArmReady(s)
    ensures r.status == Aborted && r.downstream == None && r.done && r.phase == Selecting
    ensures r.hasDownstreamCtx && r.upstream == s.upstream
    ensures Inv(s) ==> Inv(r)
  {
    s.(status := Aborted, downstream := None, done := true)
  }

  predicate ConnArmReady(s: State) {
    s.phase == Selecting && !s.done && s.connPending
  }

  /**
   * `case <-s.newConn` at time `now`: the blocked connect call gets its
   * send through; with both slots filled serve breaks out of the loop,
   * otherwise the timer is refreshed.
   */
  function OnConnReceived(s: State, now: int): (r: State)
    requires ConnArmReady(s)
    ensures !r.connPending && r.status == s.status && !r.done
    ensures r.upstream == s.upstream && r.downstream == s.downstream
    ensures BothConnected(s) ==> r.phase == Copying && r.deadline == s.deadline
    ensures !BothConnected(s) ==> r.phase == Selecting && r.deadline == now + SecondConnTimeout
    ensures Inv(s) ==> Inv(r)
  {
    if BothConnected(s) then
      s.(connPending := false, phase := Copying)
    else
      s.(connPending := false, deadline := now + SecondConnTimeout)
  }

  predicate CopyReady(s: State) {
    s.phase == Copying && BothConnected(s)
  }

  /**
   * The code after the loop: io.Copy drains the reader into the writer,
   * then the session is removed and `done` is closed.
   */
  function RunCopy(s: State): (r: State)
    requires CopyReady(s)
    ensures r.downstream == Some(s.downstream.value + s.upstream.value) && r.upstream == Some([])
    ensures r.done && r.phase == Returned && r.status == s.status
    ensures Inv(s) ==> Inv(r)
  {
    s.(downstream := Some(s.downstream.value + s.upstream.value),
       upstream := Some([]),
       done := true,
       phase := Returned)
  }

  // ----- Events: one per connect call and per select case.

  datatype Event =
    | UpConnect(body: Bytes)
    | DownConnect
    | DoneClosed
    | TimerFired(now: int)
    | UpCtxDone
    | DownCtxDone
    | ConnReceived(now: int)
    | CopyRun

  /** The event can happen next. */
  predicate Enabled(s: State, e: Event) {
    match e
    case UpConnect(_) => !s.connPending
    case DownConnect => !s.connPending
    case DoneClosed => DoneArmReady(s)
    case TimerFired(now) => TimerArmReady(s, now)
    case UpCtxDone => UpCancelArmReady(s)
    case DownCtxDone => DownCancelArmReady(s)
    case ConnReceived(now) => ConnArmReady(s)
    case CopyRun => CopyReady(s)
  }

  /** The state after the event. */
  function Step(s: State, e: Event): State
    requires Enabled(s, e)
  {
    match e
    case UpConnect(body) => ConnectUp(s, body).0
    case DownConnect => ConnectDown(s).0
    case DoneClosed => OnDoneClosed(s)
    case TimerFired(now) => OnTimerFired(s, now)
    case UpCtxDone => OnUpCtxDone(s)
    case DownCtxDone => OnDownCtxDone(s)
    case ConnReceived(now) => OnConnReceived(s, now)
    case CopyRun => RunCopy(s)
  }

  /** Event `e` closes the `done` channel. */
  predicate ClosesDone(e: Event) {
    e.TimerFired? || e.UpCtxDone? || e.DownCtxDone? || e.CopyRun?
  }

  /**
   * What holds of every session reachable from newSession.
   */
  ghost predicate Inv(s: State) {
    // only three of the seven statuses are ever assigned
    && (s.status == Waiting || s.status == TimedOut || s.status == Aborted)
    // the status leaves Waiting only together with closing done
    && (s.status != Waiting ==> s.done)
    // a filled slot has its context recorded
    && (s.upstream.Some? ==> s.hasUpstreamCtx)
    && (s.downstream.Some? ==> s.hasDownstreamCtx)
    // while done is open a recorded context belongs to a filled slot
    && (!s.done ==> (s.hasUpstreamCtx ==> s.upstream.Some?) && (s.hasDownstreamCtx ==> s.downstream.Some?))
    // nothing reaches the writer before the copy
    && (!s.done && s.downstream.Some? ==> s.downstream.value == [])
    // past the loop both slots are filled and done is still open
    && (s.phase == Copying ==> BothConnected(s) && !s.done && !s.connPending)
    && (s.phase == Returned ==> s.done)
    // done closed with status Waiting only by the copy
    && (s.done && s.status == Waiting ==> s.phase == Returned && BothConnected(s))
  }

  /** Every event keeps the invariant. */
  lemma StepPreservesInv(s: State, e: Event)
    requires Inv(s)
    requires Enabled(s, e)
    ensures Inv(Step(s, e))
  {
  }

  /**
   * A cancellation case is ready only for a side that has its context
   * recorded, that is, only for a side that has connected.
   */
  lemma CancelNeedsContext(s: State)
    ensures UpCancelArmReady(s) ==> s.hasUpstreamCtx
    ensures DownCancelArmReady(s) ==> s.hasDownstreamCtx
    ensures Inv(s) ==> (UpCancelArmReady(s) ==> s.upstream.Some?) && (DownCancelArmReady(s) ==> s.downstream.Some?)
  {
  }

  /**
   * A new connection that leaves a slot empty keeps the session
   * Waiting in its loop and moves the deadline to now + 300, so the timer
   * cannot fire before then.
   */
  lemma ConnWithOneSide(s: State, now: int)
    requires Inv(s)
    requires ConnArmReady(s)
    requires !BothConnected(s)
    ensures OnConnReceived(s, now).status == Waiting
    ensures OnConnReceived(s, now).phase == Selecting
    ensures OnConnReceived(s, now).deadline == now + SecondConnTimeout
    ensures !OnConnReceived(s, now).connPending
    ensures forall t :: TimerArmReady(OnConnReceived(s, now), t) ==> t >= now + SecondConnTimeout
  {
  }

  /**
   * A new connection that completes the pair leaves the loop; from then
   * on the copy is ready, and every other event is a no-op or cannot
   * happen, so the copy is what happens next.
   */
  lemma ConnWithBothSides(s: State, now: int)
    requires Inv(s)
    requires ConnArmReady(s)
    requires BothConnected(s)
    ensures OnConnReceived(s, now).phase == Copying
    ensures CopyReady(OnConnReceived(s, now))
  {
  }

  /** Past the loop, the copy is enabled and nothing else changes the session. */
  lemma PairedCopiesNext(s: State)
    requires Inv(s)
    requires s.phase == Copying
    ensures Enabled(s, CopyRun)
    ensures forall e :: Enabled(s, e) && !e.CopyRun? ==> Step(s, e) == s
  {
  }

  /**
   * The copy hands the upstream's bytes to the writer, closes done and
   * returns, leaving the status Waiting.
   */
  lemma CopyDelivers(s: State)
    requires Inv(s)
    requires s.phase == Copying
    ensures CopyReady(s)
    ensures RunCopy(s).downstream == s.upstream
    ensures RunCopy(s).done && RunCopy(s).phase == Returned && RunCopy(s).status == Waiting
  {
    assert s.downstream.value == [];
    assert s.downstream.value + s.upstream.value == s.upstream.value;
  }
}
