/**
 * The session objects, the global registry that maps tokens to them, and
 * the registry lookup the two handlers do before connecting.  Every
 * method that changes a session is proved against the matching function
 * of Arbitration, so what Runs proves of event sequences holds of the
 * objects.
 */
module Relay {
  import opened Wrappers
  import opened Arbitration
  import opened Runs

  /** One pairing negotiation, changed in place by the handlers and by serve. */
  class Session {
    const token: string
    var status: Status
    /** The upstream reader (the bytes it has still to yield), nil as None. */
    var upstream: Option<Bytes>
    /** The downstream writer (the bytes written to it), nil as None. */
    var downstream: Option<Bytes>
    var hasUpstreamCtx: bool
    var hasDownstreamCtx: bool
    /** When the timeout timer fires. */
    var deadline: int
    /** A connect call is blocked on the `newConn` send, holding the session mutex. */
    var connPending: bool
    /** The `done` channel is closed. */
    var done: bool
    /** Where the serve goroutine is. */
    var phase: Phase

    /** The session's fields as a value. */
    function Snapshot(): State
      reads this
    {
      State(status, upstream, downstream, hasUpstreamCtx, hasDownstreamCtx, deadline, connPending, done, phase)
    }

    /** The session newSession builds at time `now`. */
    constructor (token: string, now: int)
      ensures this.token == token
      ensures Snapshot() == Initial(now)
      ensures status == Waiting && upstream == None && downstream == None
      ensures deadline == now + FirstConnTimeout && !done && phase == Selecting
    {
      this.token := token;
      status := Waiting;
      upstream := None;
      downstream := None;
      hasUpstreamCtx := false;
      hasDownstreamCtx := false;
      deadline := now + FirstConnTimeout;
      connPending := false;
      done := false;
      phase := Selecting;
    }

    /**
     * upstreamConnect: fills an empty upstream slot with the request body
     * and records the context, then hands a new connection to serve; on a
     * filled slot it changes nothing and aborts the caller.
     */
    method UpstreamConnect(body: Bytes) returns (r: ConnectResult)
      requires !connPending
      modifies this
      ensures (Snapshot(), r) == ConnectUp(old(Snapshot()), body)
      ensures r == ErrAbortHandler <==> old(upstream).Some?
      ensures r == WaitForDone ==> upstream == Some(body) && hasUpstreamCtx && connPending
      ensures downstream == old(downstream) && hasDownstreamCtx == old(hasDownstreamCtx)
    {
      if upstream.None? {
        hasUpstreamCtx := true;
        upstream := Some(body);
        connPending := true;
        r := WaitForDone;
      } else {
        r := ErrAbortHandler;
      }
    }

    /** downstreamConnect: the same for the downstream slot and a fresh writer. */
    method DownstreamConnect() returns (r: ConnectResult)
      requires !connPending
      modifies this
      ensures (Snapshot(), r) == ConnectDown(old(Snapshot()))
      ensures r == ErrAbortHandler <==> old(downstream).Some?
      ensures r == WaitForDone ==> downstream == Some([]) && hasDownstreamCtx && connPending
      ensures upstream == old(upstream) && hasUpstreamCtx == old(hasUpstreamCtx)
    {
      if downstream.None? {
        hasDownstreamCtx := true;
        downstream := Some([]);
        connPending := true;
        r := WaitForDone;
      } else {
        r := ErrAbortHandler;
      }
    }

    /** `case <-s.done`: removes the session from the registry and returns. */
    method DoneArm(reg: Registry)
      requires reg.Valid()
      requires DoneArmReady(Snapshot())
      modifies this, reg
      ensures reg.Valid()
      ensures Snapshot() == OnDoneClosed(old(Snapshot()))
      ensures phase == Returned
      ensures reg.sessions == old(reg.sessions) - {token}
      ensures reg.Lookup(token) == None
    {
      reg.RemoveSession(this);
      phase := Returned;
    }

    /** `case <-s.timeoutTimer.C`: status TimedOut, done closed. */
    method TimeoutArm(now: int)
      requires TimerArmReady(Snapshot(), now)
      modifies this
      ensures Snapshot() == OnTimerFired(old(Snapshot()), now)
      ensures status == TimedOut && done
      ensures upstream == old(upstream) && downstream == old(downstream)
    {
      status := TimedOut;
      done := true;
    }

    /** `case <-s.upstreamDone()`: status Aborted, upstream cleared, done closed. */
    method UpstreamCancelArm()
      requires UpCancelArmReady(Snapshot())
      modifies this
      ensures Snapshot() == OnUpCtxDone(old(Snapshot()))
      ensures status == Aborted && upstream == None && done
      ensures downstream == old(downstream)
    {
      status := Aborted;
      upstream := None;
      done := true;
    }

    /** `case <-s.downstreamDone()`: status Aborted, downstream cleared, done closed. */
    method DownstreamCancelArm()
      requires DownCancelArmReady(Snapshot())
      modifies this
      ensures Snapshot() == OnDownCtxDone(old(Snapshot()))
      ensures status == Aborted && downstream == None && done
      ensures upstream == old(upstream)
    {
      status := Aborted;
      downstream := None;
      done := true;
    }

    /**
     * `case <-s.newConn` at time `now`: leaves the loop when both slots are
     * filled, otherwise refreshes the timer to now + 300.
     */
    method NewConnArm(now: int)
      requires ConnArmReady(Snapshot())
      modifies this
      ensures Snapshot() == OnConnReceived(old(Snapshot()), now)
      ensures !connPending && status == old(status)
      ensures BothConnected(old(Snapshot())) ==> phase == Copying && deadline == old(deadline)
      ensures !BothConnected(old(Snapshot())) ==> phase == Selecting && deadline == now + SecondConnTimeout
    {
      connPending := false;
      if upstream.Some? && downstream.Some? {
        phase := Copying;
      } else {
        deadline := now + SecondConnTimeout;
      }
    }

    /**
     * The code after the loop: the writer receives the reader's bytes,
     * the session is removed from the registry and done is closed.
     */
    method Copy(reg: Registry)
      requires reg.Valid()
      requires CopyReady(Snapshot())
      modifies this, reg
      ensures reg.Valid()
      ensures Snapshot() == RunCopy(old(Snapshot()))
      ensures downstream == Some(old(downstream).value + old(upstream).value)
      ensures done && phase == Returned && status == old(status)
      ensures reg.sessions == old(reg.sessions) - {token}
    {
      downstream := Some(downstream.value + upstream.value);
      upstream := Some([]);
      reg.RemoveSession(this);
      done := true;
      phase := Returned;
    }

    /**
     * serve's loop together with the connect calls that interleave with
     * it: performs `schedule`, one event at a time.  The session ends as
     * Run says, and it has been removed from the registry exactly when
     * serve returned during the schedule.
     */
    method RunSchedule(reg: Registry, schedule: seq<Event>)
      requires reg.Valid()
      requires Run(Snapshot(), schedule).Some?
      modifies this, reg
      ensures reg.Valid()
      ensures Snapshot() == Run(old(Snapshot()), schedule).value
      ensures reg.sessions == if old(phase) != Returned && phase == Returned then old(reg.sessions) - {token} else old(reg.sessions)
    {
      var i := 0;
      while i < |schedule|
        invariant 0 <= i <= |schedule|
        invariant reg.Valid()
        invariant Run(old(Snapshot()), schedule[..i]).Some?
        invariant Snapshot() == Run(old(Snapshot()), schedule[..i]).value
        invariant old(phase) == Returned ==> phase == Returned
        invariant reg.sessions == if old(phase) != Returned && phase == Returned then old(reg.sessions) - {token} else old(reg.sessions)
      {
        RunPrefix(old(Snapshot()), schedule, i);
        assert schedule[..i + 1][..i] == schedule[..i];
        match schedule[i] {
          case UpConnect(body) =>
            var r := UpstreamConnect(body);
          case DownConnect =>
            var r := DownstreamConnect();
          case DoneClosed =>
            DoneArm(reg);
          case TimerFired(now) =>
            TimeoutArm(now);
          case UpCtxDone =>
            UpstreamCancelArm();
          case DownCtxDone =>
            DownstreamCancelArm();
          case ConnReceived(now) =>
            NewConnArm(now);
          case CopyRun =>
            Copy(reg);
        }
        i := i + 1;
      }
      assert schedule[..|schedule|] == schedule;
    }
  }

  /** The global token-to-session map. */
  class Registry {
    var sessions: map<string, Session>

    /** Every session is filed under its own token. */
    ghost predicate Valid()
      reads this
    {
      forall t :: t in sessions ==> sessions[t].token == t
    }

    /** The empty map main makes at start-up. */
    constructor ()
      ensures Valid() && sessions == map[]
    {
      sessions := map[];
    }

    /**
     * newSession: files a fresh Waiting session with both slots empty and
     * a 60-second deadline under `token`; every other entry stays.  A
     * session already filed under the same token is replaced.
     */
    method NewSession(token: string, now: int)
      requires Valid()
      modifies this
      ensures Valid()
      ensures token in sessions && fresh(sessions[token])
      ensures sessions[token].Snapshot() == Initial(now)
      ensures sessions == old(sessions)[token := sessions[token]]
    {
      var s := new Session(token, now);
      sessions := sessions[token := s];
    }

    /**
     * removeSession: deletes the entry under the session's token and no
     * other; a token already gone leaves the map as it was.
     */
    method RemoveSession(s: Session)
      requires Valid()
      modifies this
      ensures Valid()
      ensures sessions == old(sessions) - {s.token}
      ensures s.token !in old(sessions) ==> sessions == old(sessions)
    {
      sessions := sessions - {s.token};
      assert s.token !in old(sessions) ==> sessions == old(sessions);
    }

    /** The handlers' read of the map: the session filed under `token`, if any. */
    function Lookup(token: string): (r: Option<Session>)
      reads this
      requires Valid()
      ensures r.Some? <==> token in sessions
      ensures r.Some? ==> r.value == sessions[token] && r.value.token == token
    {
      if token in sessions then Some(sessions[token]) else None
    }
  }

  /** What a handler does with its connection. */
  datatype HandlerResult =
    | SessionNotFound              // util.DropConnection and return
    | Connected(result: ConnectResult)

  /**
   * upHandler: looks the token up; an unknown token drops the connection
   * without touching any session, a known one goes to upstreamConnect.
   */
  method UpHandler(reg: Registry, token: string, body: Bytes) returns (r: HandlerResult)
    requires reg.Valid()
    requires token in reg.sessions ==> !reg.sessions[token].connPending
    modifies if token in reg.sessions then {reg.sessions[token]} else {}
    ensures token !in reg.sessions ==> r == SessionNotFound
    ensures token in reg.sessions ==>
      && r.Connected?
      && (reg.sessions[token].Snapshot(), r.result) == ConnectUp(old(reg.sessions[token].Snapshot()), body)
  {
    var found := reg.Lookup(token);
    if found.None? {
      return SessionNotFound;
    }
    var c := found.value.UpstreamConnect(body);
    r := Connected(c);
  }

  /** downHandler: the same for the downstream side. */
  method DownHandler(reg: Registry, token: string) returns (r: HandlerResult)
    requires reg.Valid()
    requires token in reg.sessions ==> !reg.sessions[token].connPending
    modifies if token in reg.sessions then {reg.sessions[token]} else {}
    ensures token !in reg.sessions ==> r == SessionNotFound
    ensures token in reg.sessions ==>
      && r.Connected?
      && (reg.sessions[token].Snapshot(), r.result) == ConnectDown(old(reg.sessions[token].Snapshot()))
  {
    var found := reg.Lookup(token);
    if found.None? {
      return SessionNotFound;
    }
    var c := found.value.DownstreamConnect();
    r := Connected(c);
  }
}
