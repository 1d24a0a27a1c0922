/**
 * Runs of a session: sequences of events, each enabled in the state the
 * events before it produce, and what holds along all of them.
 */
module Runs {
  import opened Wrappers
  import opened Arbitration

  /** The state after `es` from `s`, or None if some event was not enabled when it came. */
  function Run(s: State, es: seq<Event>): Option<State>
    decreases |es|
  {
    if es == [] then Some(s)
    else
      var before := Run(s, es[..|es| - 1]);
      var e := es[|es| - 1];
      if before.Some? && Enabled(before.value, e) then Some(Step(before.value, e)) else None
  }

  /** How many times `es` runs the copy. */
  function Copies(es: seq<Event>): nat
    decreases |es|
  {
    if es == [] then 0
    else Copies(es[..|es| - 1]) + (if es[|es| - 1].CopyRun? then 1 else 0)
  }

  /** How many events of `es` close the `done` channel. */
  function Closes(es: seq<Event>): nat
    decreases |es|
  {
    if es == [] then 0
    else Closes(es[..|es| - 1]) + (if ClosesDone(es[|es| - 1]) then 1 else 0)
  }

  /** The body of the first upstream connect call in `es`. */
  function FirstUpBody(es: seq<Event>): Option<Bytes>
    decreases |es|
  {
    if es == [] then None
    else if FirstUpBody(es[..|es| - 1]).Some? then FirstUpBody(es[..|es| - 1])
    else if es[|es| - 1].UpConnect? then Some(es[|es| - 1].body)
    else None
  }

  ghost predicate SomeUpConnect(es: seq<Event>, n: int) {
    exists j :: 0 <= j < n && j < |es| && es[j].UpConnect?
  }

  ghost predicate SomeDownConnect(es: seq<Event>, n: int) {
    exists j :: 0 <= j < n && j < |es| && es[j].DownConnect?
  }

  /** A run is defined on each of its prefixes, and each next event is enabled there. */
  lemma {:induction false} RunPrefix(s: State, es: seq<Event>, i: nat)
    requires Run(s, es).Some?
    requires i < |es|
    ensures Run(s, es[..i]).Some?
    ensures Enabled(Run(s, es[..i]).value, es[i])
    decreases |es|
  {
    var prefix := es[..|es| - 1];
    if i < |es| - 1 {
      RunPrefix(s, prefix, i);
      assert prefix[..i] == es[..i];
    }
  }

  /** Every run from a state satisfying Inv ends in a state satisfying Inv. */
  lemma {:induction false} RunPreservesInv(s: State, es: seq<Event>)
    requires Inv(s)
    requires Run(s, es).Some?
    ensures Inv(Run(s, es).value)
    decreases |es|
  {
    if es != [] {
      var prefix := es[..|es| - 1];
      RunPreservesInv(s, prefix);
      StepPreservesInv(Run(s, prefix).value, es[|es| - 1]);
    }
  }

  /** Every session reached from newSession satisfies Inv; in particular its status is Waiting, TimedOut or Aborted. */
  lemma {:induction false} ReachableStatuses(now: int, es: seq<Event>)
    requires Run(Initial(now), es).Some?
    ensures Inv(Run(Initial(now), es).value)
    ensures Run(Initial(now), es).value.status in {Waiting, TimedOut, Aborted}
  {
    RunPreservesInv(Initial(now), es);
  }

  /**
   * The copy runs at most once, never after serve has returned, and a run
   * that copies ends with serve returned.
   */
  lemma {:induction false} CopyRunsAtMostOnce(s: State, es: seq<Event>)
    requires Run(s, es).Some?
    ensures Copies(es) + (if Run(s, es).value.phase == Returned then 0 else 1) <= (if s.phase == Returned then 0 else 1)
    ensures Copies(es) <= 1
    ensures s.phase == Returned ==> Copies(es) == 0
    ensures Copies(es) == 1 ==> Run(s, es).value.phase == Returned
    decreases |es|
  {
    if es != [] {
      CopyRunsAtMostOnce(s, es[..|es| - 1]);
    }
  }

  /**
   * `done` is closed at most once: exactly once if the run starts with it
   * open and ends with it closed, and never if it starts closed.  Once
   * closed it stays closed.
   */
  lemma {:induction false} DoneClosedAtMostOnce(s: State, es: seq<Event>)
    requires Inv(s)
    requires Run(s, es).Some?
    ensures Closes(es) == if !s.done && Run(s, es).value.done then 1 else 0
    ensures s.done ==> Run(s, es).value.done
    decreases |es|
  {
    if es != [] {
      DoneClosedAtMostOnce(s, es[..|es| - 1]);
      RunPreservesInv(s, es[..|es| - 1]);
    }
  }

  /**
   * Once `done` is closed the outcome is final: the status, and whether
   * serve has returned, no longer change.
   */
  lemma {:induction false} DoneIsStable(s: State, es: seq<Event>)
    requires Run(s, es).Some?
    requires s.done
    ensures Run(s, es).value.done
    ensures Run(s, es).value.status == s.status
    ensures s.phase == Returned ==> Run(s, es).value.phase == Returned
    decreases |es|
  {
    if es != [] {
      DoneIsStable(s, es[..|es| - 1]);
    }
  }

  /** What a run from newSession has done, read off its final state. */
  ghost predicate History(es: seq<Event>, st: State) {
    && Inv(st)
    // while done is open, the upstream slot holds the first upstream body, if any
    && (!st.done ==> st.upstream == FirstUpBody(es))
    // a copied session's writer holds the first upstream body
    && (st.done && st.status == Waiting ==> st.downstream == FirstUpBody(es))
    // the copy has run exactly when done is closed with status Waiting
    && Copies(es) == (if st.done && st.status == Waiting then 1 else 0)
    // a context is recorded only by a connect call of that side
    && (st.hasUpstreamCtx ==> SomeUpConnect(es, |es|))
    && (st.hasDownstreamCtx ==> SomeDownConnect(es, |es|))
  }

  lemma HistoryStep(es: seq<Event>, st: State)
    requires es != []
    requires History(es[..|es| - 1], st)
    requires Enabled(st, es[|es| - 1])
    ensures History(es, Step(st, es[|es| - 1]))
  {
    var prefix := es[..|es| - 1];
    var e := es[|es| - 1];
    StepPreservesInv(st, e);
    if st.hasUpstreamCtx {
      var j :| 0 <= j < |prefix| && prefix[j].UpConnect?;
      assert es[j].UpConnect?;
    }
    if st.hasDownstreamCtx {
      var j :| 0 <= j < |prefix| && prefix[j].DownConnect?;
      assert es[j].DownConnect?;
    }
    match e
    case UpConnect(body) =>
      assert es[|es| - 1].UpConnect?;
    case DownConnect =>
      assert es[|es| - 1].DownConnect?;
    case DoneClosed =>
    case TimerFired(now) =>
    case UpCtxDone =>
    case DownCtxDone =>
    case ConnReceived(now) =>
    case CopyRun =>
      assert st.downstream.value + st.upstream.value == st.upstream.value;
  }

  lemma {:induction false} HistoryHolds(now: int, es: seq<Event>)
    requires Run(Initial(now), es).Some?
    ensures History(es, Run(Initial(now), es).value)
    decreases |es|
  {
    if es != [] {
      var prefix := es[..|es| - 1];
      HistoryHolds(now, prefix);
      HistoryStep(es, Run(Initial(now), prefix).value);
    }
  }

  /**
   * The first producer wins: while done is open the upstream slot holds
   * the body of the first upstream connect call, and later calls never
   * displace it.  When the copy has run, the consumer has received
   * exactly that body, done is closed, serve has returned and the status
   * is still Waiting.
   */
  lemma ConsumerGetsFirstProducer(now: int, es: seq<Event>)
    requires Run(Initial(now), es).Some?
    ensures !Run(Initial(now), es).value.done ==> Run(Initial(now), es).value.upstream == FirstUpBody(es)
    ensures Copies(es) == 1 ==>
      && FirstUpBody(es).Some?
      && Run(Initial(now), es).value.downstream == FirstUpBody(es)
      && Run(Initial(now), es).value.done
      && Run(Initial(now), es).value.phase == Returned
      && Run(Initial(now), es).value.status == Waiting
  {
    HistoryHolds(now, es);
  }

  /**
   * A side's cancellation is observed only after that side has connected:
   * before that its context is nil and so is its Done channel.
   */
  lemma CancelOnlyAfterConnect(now: int, es: seq<Event>, i: nat)
    requires Run(Initial(now), es).Some?
    requires i < |es|
    ensures es[i].UpCtxDone? ==> SomeUpConnect(es, i)
    ensures es[i].DownCtxDone? ==> SomeDownConnect(es, i)
  {
    RunPrefix(Initial(now), es, i);
    HistoryHolds(now, es[..i]);
    var st := Run(Initial(now), es[..i]).value;
    if es[i].UpCtxDone? {
      assert st.hasUpstreamCtx;
      var j :| 0 <= j < i && es[..i][j].UpConnect?;
      assert es[j].UpConnect?;
    }
    if es[i].DownCtxDone? {
      assert st.hasDownstreamCtx;
      var j :| 0 <= j < i && es[..i][j].DownConnect?;
      assert es[j].DownConnect?;
    }
  }

  // ----- Connect calls after `done` is closed.

  /**
   * Once serve has returned, a connect call still blocked on `newConn`
   * is never released: no event is enabled any more, so the only run
   * from such a session is the empty one.
   */
  lemma {:induction false} ReturnedWithPendingIsStuck(s: State, es: seq<Event>)
    requires s.phase == Returned && s.connPending
    ensures Run(s, es) == if es == [] then Some(s) else None
    decreases |es|
  {
    if es != [] {
      ReturnedWithPendingIsStuck(s, es[..|es| - 1]);
      var e := es[|es| - 1];
      assert !Enabled(s, e) by {
        match e
        case UpConnect(_) =>
        case DownConnect =>
        case DoneClosed =>
        case TimerFired(_) =>
        case UpCtxDone =>
        case DownCtxDone =>
        case ConnReceived(_) =>
        case CopyRun =>
      }
    }
  }

  /**
   * After an abort and before the done case, the session is still filed
   * and its upstream slot is empty again, so a second producer fills it
   * and blocks on `newConn`; after the done case that send is pending for
   * good.  The first producer's body is gone from the slot.
   */
  lemma LateConnectAfterAbort()
    ensures Run(Initial(0), [UpConnect([7]), ConnReceived(1), UpCtxDone, UpConnect([2]), DoneClosed]).Some?
    ensures var s := Run(Initial(0), [UpConnect([7]), ConnReceived(1), UpCtxDone, UpConnect([2]), DoneClosed]).value;
      s.upstream == Some([2]) && s.connPending && s.done && s.phase == Returned && s.status == Aborted
  {
    var es: seq<Event> := [UpConnect([7]), ConnReceived(1), UpCtxDone, UpConnect([2]), DoneClosed];
    var s1 := Step(Initial(0), es[0]);
    var s2 := Step(s1, es[1]);
    var s3 := Step(s2, es[2]);
    var s4 := Step(s3, es[3]);
    assert [UpConnect([7])][..0] == [];
    assert es[..1] == [UpConnect([7])];
    assert Run(Initial(0), es[..1]) == Some(s1);
    assert es[..2][..1] == es[..1];
    assert Run(Initial(0), es[..2]) == Some(s2);
    assert es[..3][..2] == es[..2];
    assert Run(Initial(0), es[..3]) == Some(s3);
    assert es[..4][..3] == es[..3];
    assert Run(Initial(0), es[..4]) == Some(s4);
    assert es[..4] == es[..|es| - 1];
  }

  /**
   * The same after a timeout: a consumer that comes between the timer
   * case and the done case fills the empty writer slot and is never
   * released.
   */
  lemma LateConnectAfterTimeout()
    ensures Run(Initial(0), [UpConnect([7]), ConnReceived(1), TimerFired(301), DownConnect, DoneClosed]).Some?
    ensures var s := Run(Initial(0), [UpConnect([7]), ConnReceived(1), TimerFired(301), DownConnect, DoneClosed]).value;
      s.downstream == Some([]) && s.connPending && s.done && s.phase == Returned && s.status == TimedOut
  {
    var es: seq<Event> := [UpConnect([7]), ConnReceived(1), TimerFired(301), DownConnect, DoneClosed];
    var s1 := Step(Initial(0), es[0]);
    var s2 := Step(s1, es[1]);
    var s3 := Step(s2, es[2]);
    var s4 := Step(s3, es[3]);
    assert [UpConnect([7])][..0] == [];
    assert es[..1] == [UpConnect([7])];
    assert Run(Initial(0), es[..1]) == Some(s1);
    assert es[..2][..1] == es[..1];
    assert Run(Initial(0), es[..2]) == Some(s2);
    assert es[..3][..2] == es[..2];
    assert Run(Initial(0), es[..3]) == Some(s3);
    assert es[..4][..3] == es[..3];
    assert Run(Initial(0), es[..4]) == Some(s4);
    assert es[..4] == es[..|es| - 1];
  }

  // ----- The cancel cases as written, without the guard on `done`.

  /**
   * transfer.go's `case <-s.upstreamDone()` is ready whenever the upstream
   * context is set and cancelled, whether or not `done` is already closed:
   * a cancelled context's Done channel stays closed, and the abort case
   * does not clear upstreamCtx.
   */
  predicate UpCancelReadyAsWritten(s: State) {
    s.phase == Selecting && HasUpstreamDone(s)
  }

  /** The same for `case <-s.downstreamDone()`. */
  predicate DownCancelReadyAsWritten(s: State) {
    s.phase == Selecting && HasDownstreamDone(s)
  }

  /**
   * In every state, after either abort case serve's next select finds
   * both `<-s.done` and the same cancel case ready as written (though not
   * as guarded); taking the cancel case closes `done` a second time.
   */
  lemma CancelStaysReadyAsWritten(s: State)
    ensures UpCancelArmReady(s) ==>
      var r := OnUpCtxDone(s);
      DoneArmReady(r) && UpCancelReadyAsWritten(r) && !UpCancelArmReady(r)
    ensures DownCancelArmReady(s) ==>
      var r := OnDownCtxDone(s);
      DoneArmReady(r) && DownCancelReadyAsWritten(r) && !DownCancelArmReady(r)
  {
  }

  /**
   * Both abort cases are reached from newSession: after an upstream (or
   * downstream) connect and its abort, the done case and the cancel case
   * as written are both ready.
   */
  lemma AbortLeavesCancelReadyAsWritten()
    ensures Run(Initial(0), [UpConnect([7]), ConnReceived(1), UpCtxDone]).Some?
    ensures var s := Run(Initial(0), [UpConnect([7]), ConnReceived(1), UpCtxDone]).value;
      s.done && DoneArmReady(s) && UpCancelReadyAsWritten(s) && !UpCancelArmReady(s)
    ensures Run(Initial(0), [DownConnect, ConnReceived(1), DownCtxDone]).Some?
    ensures var s := Run(Initial(0), [DownConnect, ConnReceived(1), DownCtxDone]).value;
      s.done && DoneArmReady(s) && DownCancelReadyAsWritten(s) && !DownCancelArmReady(s)
  {
    var es: seq<Event> := [UpConnect([7]), ConnReceived(1), UpCtxDone];
    assert es[..2][..1] == [UpConnect([7])];
    assert es[..2] == [UpConnect([7]), ConnReceived(1)];
    assert [UpConnect([7])][..0] == [];
    var ds: seq<Event> := [DownConnect, ConnReceived(1), DownCtxDone];
    assert ds[..2][..1] == [DownConnect];
    assert ds[..2] == [DownConnect, ConnReceived(1)];
    assert [DownConnect][..0] == [];
  }
}
