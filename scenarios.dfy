/**
 * Whole sessions driven through the registry, the handlers and the serve
 * cases, one step at a time as serve and the two handler goroutines would
 * take them.  What each client can conclude follows from the contracts
 * of Relay alone.
 */
module Scenarios {
  import opened Wrappers
  import opened Arbitration
  import opened Relay

  /**
   * A producer, then a consumer: both wait for done, the consumer receives
   * exactly the producer's body, the status is still Waiting and the token
   * is gone from the registry.
   */
  method PairAndCopy(token: string, t0: int, body: Bytes)
    returns (up: HandlerResult, down: HandlerResult, received: Option<Bytes>, status: Status, after: Option<Session>)
    ensures up == Connected(WaitForDone) && down == Connected(WaitForDone)
    ensures received == Some(body)
    ensures status == Waiting
    ensures after == None
  {
    var reg := new Registry();
    reg.NewSession(token, t0);
    var s := reg.sessions[token];
    up := UpHandler(reg, token, body);
    s.NewConnArm(t0 + 1);
    down := DownHandler(reg, token);
    s.NewConnArm(t0 + 2);
    s.Copy(reg);
    assert [] + body == body;
    received := s.downstream;
    status := s.status;
    after := reg.Lookup(token);
  }

  /**
   * A producer alone: the timer cannot fire before the refreshed deadline,
   * fires at it, the session reaches TimedOut, and once serve has returned
   * a consumer with the same token is dropped.
   */
  method ProducerTimesOut(token: string, t0: int, body: Bytes)
    returns (up: HandlerResult, earlyTimeout: bool, status: Status, late: HandlerResult)
    ensures up == Connected(WaitForDone)
    ensures !earlyTimeout
    ensures status == TimedOut
    ensures late == SessionNotFound
  {
    var reg := new Registry();
    reg.NewSession(token, t0);
    var s := reg.sessions[token];
    up := UpHandler(reg, token, body);
    s.NewConnArm(t0 + 1);
    earlyTimeout := TimerArmReady(s.Snapshot(), t0 + SecondConnTimeout);
    s.TimeoutArm(t0 + 1 + SecondConnTimeout);
    status := s.status;
    s.DoneArm(reg);
    late := DownHandler(reg, token);
  }

  /**
   * A producer whose client goes away before any consumer: the session
   * reaches Aborted with the upstream slot cleared, and a consumer that
   * comes after serve returned is dropped.
   */
  method ProducerAborts(token: string, t0: int, body: Bytes)
    returns (up: HandlerResult, status: Status, slot: Option<Bytes>, late: HandlerResult)
    ensures up == Connected(WaitForDone)
    ensures status == Aborted && slot == None
    ensures late == SessionNotFound
  {
    var reg := new Registry();
    reg.NewSession(token, t0);
    var s := reg.sessions[token];
    up := UpHandler(reg, token, body);
    s.NewConnArm(t0 + 1);
    s.UpstreamCancelArm();
    status := s.status;
    slot := s.upstream;
    s.DoneArm(reg);
    late := DownHandler(reg, token);
  }

  /**
   * A producer aborts, and a second producer arrives before serve takes
   * the done case: the session is still filed and its slot is empty, so
   * the second producer fills it and waits for done with its `newConn`
   * send pending.  After the done case the send is still pending and no
   * case of serve is left to receive it.
   */
  method ProducerRetriesAfterAbort(token: string, t0: int, first: Bytes, second: Bytes)
    returns (r1: HandlerResult, r2: HandlerResult, slot: Option<Bytes>, pending: bool, returned: bool)
    ensures r1 == Connected(WaitForDone) && r2 == Connected(WaitForDone)
    ensures slot == Some(second)
    ensures pending && returned
  {
    var reg := new Registry();
    reg.NewSession(token, t0);
    var s := reg.sessions[token];
    r1 := UpHandler(reg, token, first);
    s.NewConnArm(t0 + 1);
    s.UpstreamCancelArm();
    r2 := UpHandler(reg, token, second);
    s.DoneArm(reg);
    slot := s.upstream;
    pending := s.connPending;
    returned := s.phase == Returned;
  }

  /**
   * Two producers for one token: whichever is served first waits for
   * done and keeps the slot; the second is aborted.
   */
  method TwoProducers(token: string, t0: int, first: Bytes, second: Bytes)
    returns (r1: HandlerResult, r2: HandlerResult, occupant: Option<Bytes>)
    ensures r1 == Connected(WaitForDone)
    ensures r2 == Connected(ErrAbortHandler)
    ensures occupant == Some(first)
  {
    var reg := new Registry();
    reg.NewSession(token, t0);
    var s := reg.sessions[token];
    r1 := UpHandler(reg, token, first);
    s.NewConnArm(t0 + 1);
    r2 := UpHandler(reg, token, second);
    occupant := s.upstream;
  }

  /** A token that was never issued is dropped without creating anything. */
  method UnknownToken(token: string, body: Bytes) returns (up: HandlerResult, down: HandlerResult)
    ensures up == SessionNotFound && down == SessionNotFound
  {
    var reg := new Registry();
    up := UpHandler(reg, token, body);
    down := DownHandler(reg, token);
  }
}
