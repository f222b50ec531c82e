/** When a run without failures can come to a stop. */
module RdmaLiveness {
  import opened Params
  import opened Nic
  import opened RdmaRun
  import opened RdmaInvariant
  import opened RdmaSteps
  import opened RdmaBounds

  /** Neither queue pair is in the error state, and no post was refused. */
  predicate Healthy(s: State) { !s.cl.broken && !s.sv.broken && !s.cFail && !s.sFail }

  lemma HealthySides(c: Config, s: State)
    requires Lists(c) && SidesOk(c, s) && Healthy(s)
    ensures ClientOk(c, s.cl, s.cpc, s.log) && ServerOk(c, s.sv, s.spc)
    ensures Listed(c, s.log, s.cl.posted) && ClientSinks(c, s.cl.rq)
  {}

  // ----- When the adapter can move -----

  lemma ClientMoves(c: Config, x: Endpoint, log: seq<nat>)
    requires Lists(c) && SlicesOk(c.cAddr, c.length, |x.mem|) && CursorsOk(x) && !x.broken
    requires Listed(c, log, x.posted)
    ensures |x.wire| < |x.posted| ==> CanTransmit(x)
  {
    if |x.wire| < |x.posted| { assert x.posted[|x.wire|] == WrAt(c, log, |x.wire|); }
  }

  lemma ClientAcks(c: Config, x: Endpoint, log: seq<nat>)
    requires Lists(c) && SlicesOk(c.cAddr, c.length, |x.mem|) && SlicesOk(c.sAddr, c.length, |c.sMem|) && CursorsOk(x)
    requires !x.broken && Listed(c, log, x.posted) && RepliesOk(c, log, x.reply)
    ensures x.acked < |x.reply| ==> CanAck(x)
  {
    if x.acked < |x.reply| { assert x.posted[x.acked] == WrAt(c, log, x.acked); }
  }

  lemma ClientLands(c: Config, x: Endpoint, y: Endpoint, log: seq<nat>)
    requires Shaped(c) && CursorsOk(x) && x.placed < |x.reply|
    requires SlicesOk(c.cAddr, c.length, |c.cMem|) && SlicesOk(c.sAddr, c.length, |y.mem|)
    requires Listed(c, log, x.posted) && ClientWireOk(c, log, x.wire)
    ensures CanLand(x, y)
  {
    var k := x.placed;
    assert x.posted[k] == WrAt(c, log, k);
    assert x.wire[k] == ClientPayload(c, log, k);
  }

  /** Nothing but a missing receive can hold back the client's next request. */
  lemma ClientAccepted(c: Config, x: Endpoint, y: Endpoint, log: seq<nat>)
    requires WellFormed(c) && CursorsOk(x) && DeliveryOk(x, y) && !x.broken && !y.broken
    requires Listed(c, log, x.posted) && |log| <= Total(c)
    requires c.verb != Send || |x.posted| == |log| || |log| == Total(c)
    requires ClientWireOk(c, log, x.wire) && ServerSinks(c, y.rq)
    requires y.regions == c.sRegions && |y.mem| == |c.sMem|
    requires x.placed == |x.reply| < |x.wire|
    requires y.filled < |y.rq| || x.posted[|x.reply|].op != Send
    ensures CanAccept(x, y)
  {
    var k := |x.reply|;
    assert x.posted[k] == WrAt(c, log, k);
    assert x.wire[k] == ClientPayload(c, log, k);
    if k < |log| && c.verb != Send {
      var n := log[k];
      assert Permits(c.sRegions, c.verb, c.sAddr[n], c.sKey[n], c.length);
    } else {
      ClientSends(c, log, x.posted, k);
      assert y.rq[y.filled] == ServerSink(c, y.filled);
    }
  }

  lemma ServerMoves(c: Config, x: Endpoint, y: Endpoint)
    requires Lists(c) && CursorsOk(y) && DeliveryOk(y, x) && !x.broken && !y.broken
    requires ServerList(c, y.posted) && ServerWireOk(c, y.wire) && ClientSinks(c, x.rq)
    ensures |y.wire| < |y.posted| ==> CanTransmit(y)
    ensures y.acked < |y.reply| ==> CanAck(y)
    ensures y.placed == |y.reply| == x.filled
    ensures |y.reply| < |y.wire| && x.filled < |x.rq| ==> CanAccept(y, x)
  {
    if |y.wire| < |y.posted| { assert y.posted[|y.wire|] == ServerWr(c, |y.wire|); }
    if y.acked < |y.reply| { assert y.posted[y.acked] == ServerWr(c, y.acked); }
    assert y.placed < |y.posted| ==> y.posted[y.placed] == ServerWr(c, y.placed);
    var k := |y.reply|;
    ServerSends(c, y.posted, k);
    if k < |y.wire| && x.filled < |x.rq| {
      assert y.posted[k] == ServerWr(c, k);
      assert y.wire[k] == ServerPayload(c, k);
      assert x.rq[k] == ClientSink(c, k);
    }
  }

  lemma RetiredIsAcked(x: Endpoint)
    requires CompletionsOk(x) && !SawError(x)
    ensures x.retired <= x.acked
  {}

  /** A drained queue leaves no completion owing, so a waiting program can poll. */
  lemma DrainedCanPoll(x: Endpoint)
    requires CompletionsOk(x) && x.acked == |x.posted|
    requires |SignaledIds(x.posted, |x.posted|)| == x.polled + 1
    ensures CanPoll(x)
  {}

  // ----- No deadlock -----

  lemma QuietFacts(c: Config, s: State)
    requires Quiet(c, s)
    ensures !ClientCan(c, s) && !ServerCan(c, s)
    ensures !CanTransmit(s.cl) && !CanAccept(s.cl, s.sv) && !CanLand(s.cl, s.sv) && !CanAck(s.cl)
    ensures !CanTransmit(s.sv) && !CanAccept(s.sv, s.cl) && !CanAck(s.sv)
  {
    assert !Enabled(c, s, ClientProgram) && !Enabled(c, s, ServerProgram);
    assert !Enabled(c, s, ClientTransmit) && !Enabled(c, s, ClientAccept);
    assert !Enabled(c, s, ClientLand) && !Enabled(c, s, ClientAck);
    assert !Enabled(c, s, ServerTransmit) && !Enabled(c, s, ServerAccept) && !Enabled(c, s, ServerAck);
  }

  lemma HealthyLog(c: Config, s: State)
    requires WellFormed(c) && SidesOk(c, s) && Healthy(s)
    ensures |s.log| <= Total(c) && (|s.cl.posted| == |s.log| || |s.log| == Total(c))
    ensures s.cpc == ClientDone ==> |s.cl.posted| == Total(c) + 1
  {
    if s.cpc.Post? || s.cpc.Poll? { IndexFacts(c, s.cpc.r, s.cpc.n); }
    TotalCoversAll(c);
  }

  /** In a quiet state the client's requests are all done, unless a message waits for a receive. */
  lemma QuietClient(c: Config, s: State)
    requires WellFormed(c) && Inv(c, s) && Healthy(s) && Quiet(c, s)
    ensures s.cl.acked == |s.cl.reply| && |s.cl.wire| == |s.cl.posted|
    ensures |s.cl.reply| < |s.cl.posted| ==> s.sv.filled == |s.sv.rq|
    ensures |s.cl.reply| == |s.cl.posted| && !TooDeep(c) ==> !ClientWaits(s.cpc)
  {
    QuietFacts(c, s);
    HealthySides(c, s);
    HealthyLog(c, s);
    ClientMoves(c, s.cl, s.log);
    ClientAcks(c, s.cl, s.log);
    if s.cl.placed < |s.cl.reply| { ClientLands(c, s.cl, s.sv, s.log); }
    if |s.cl.reply| < |s.cl.posted| && s.sv.filled < |s.sv.rq| { ClientAccepted(c, s.cl, s.sv, s.log); }
    if |s.cl.reply| == |s.cl.posted| && ClientWaits(s.cpc) && !TooDeep(c) { DrainedCanPoll(s.cl); }
  }

  lemma QuietServer(c: Config, s: State)
    requires WellFormed(c) && Inv(c, s) && Healthy(s) && Quiet(c, s)
    ensures s.sv.acked == |s.sv.reply| && |s.sv.wire| == |s.sv.posted|
    ensures |s.sv.reply| < |s.sv.posted| ==> s.cl.filled == |s.cl.rq|
    ensures |s.sv.reply| == |s.sv.posted| ==> !ServerWaits(s.spc)
    ensures s.cl.filled == |s.sv.reply|
  {
    QuietFacts(c, s);
    HealthySides(c, s);
    ServerMoves(c, s.cl, s.sv);
    if |s.sv.reply| == |s.sv.posted| && ServerWaits(s.spc) { DrainedCanPoll(s.sv); }
  }

  /** The server is not left inside the exchange, and the client neither. */
  lemma ExchangeNotStuck(c: Config, s: State)
    requires WellFormed(c) && Inv(c, s) && Healthy(s) && Quiet(c, s)
    ensures !ServerExchanging(s.spc) && !Exchanging(s.cpc)
  {
    QuietFacts(c, s);
    QuietServer(c, s);
    HealthySides(c, s);
    RetiredIsAcked(s.sv);
  }

  /** What a client that cannot go on is waiting for. */
  lemma ClientHeld(c: Config, s: State)
    requires WellFormed(c) && !TooDeep(c) && Inv(c, s) && Healthy(s) && Quiet(c, s)
    ensures s.cpc == ClientDone || (ClientWaits(s.cpc) && |s.cl.reply| < |s.cl.posted|)
  {
    QuietFacts(c, s);
    QuietClient(c, s);
    ExchangeNotStuck(c, s);
    HealthySides(c, s);
  }

  lemma ServerFinishes(c: Config, s: State)
    requires WellFormed(c) && !TooDeep(c) && Inv(c, s) && Healthy(s) && Quiet(c, s)
    ensures s.spc == ServerDone
  {
    QuietFacts(c, s);
    QuietClient(c, s);
    ExchangeNotStuck(c, s);
    HealthySides(c, s);
    HealthyLog(c, s);
    ClientHeld(c, s);
    ClientSends(c, s.log, s.cl.posted, |s.cl.reply|);
    if s.spc.WaitSlice? || s.spc.RecvSlice? { IndexFacts(c, s.spc.r, s.spc.n); }
    var waiting := s.spc.WaitSlice? || s.spc.WaitEnd?;
    assert waiting ==> s.sv.filled < |s.sv.rq|;
    assert waiting ==> s.cpc == ClientDone;
  }

  lemma ClientFinishes(c: Config, s: State)
    requires WellFormed(c) && !TooDeep(c) && Inv(c, s) && Healthy(s) && Quiet(c, s)
    ensures s.cpc == ClientDone
  {
    ServerFinishes(c, s);
    ClientHeld(c, s);
    DoneHasEnd(c, s.cl, s.sv, s.cpc, s.spc, s.log, s.sFail);
  }

  /** As long as a healthy run is not over, some step that is not a failure is possible. */
  lemma NoDeadlock(c: Config, s: State)
    requires WellFormed(c) && !TooDeep(c) && Inv(c, s) && Healthy(s) && !Final(s)
    ensures exists step :: Enabled(c, s, step) && !IsFault(step)
  {
    if Quiet(c, s) {
      ClientFinishes(c, s);
      ServerFinishes(c, s);
    }
  }

  /** A queue that is too small: the run comes to a stop with the client polling for the last
      request of its first round, which was never posted. */
  lemma FullSpins(c: Config, s: State)
    requires WellFormed(c) && TooDeep(c) && Inv(c, s) && Healthy(s) && Quiet(c, s)
    ensures s.cpc == Poll(0, c.count - 1) && |s.cl.posted| == c.cDepth && s.cl.cq == []
  {
    QuietFacts(c, s);
    ExchangeNotStuck(c, s);
    HealthySides(c, s);
    FullWaits(c, s.cl, s.cpc, s.log);
  }

  lemma FullWaits(c: Config, x: Endpoint, pc: ClientPc, log: seq<nat>)
    requires Lists(c) && TooDeep(c) && ClientOk(c, x, pc, log) && CompletionsOk(x) && !Exchanging(pc) && !pc.Post?
    ensures pc == Poll(0, c.count - 1) && |x.posted| == c.cDepth && x.cq == []
  {
    SignaledGrow(x.posted, x.acked, |x.posted|);
  }

  // ----- After a failure -----

  /** A program whose queue pair has failed runs to its end, unless it waits for something it could
      not post. */
  lemma FailureEnds(c: Config, s: State)
    requires Lists(c) && !TooDeep(c) && ClientSide(c, s.cl, s.cpc, s.log, s.cFail) && Tracked(c, s) && Quiet(c, s)
    ensures s.cl.broken && !s.cFail ==> s.cpc.ClientDone? || s.cpc.ClientAborted?
    ensures s.sv.broken && !s.sFail ==> s.spc.ServerDone? || s.spc.ServerAborted?
  {
    if s.sv.broken && !s.sFail { BrokenServerEnds(c, s); }
    if s.cl.broken && !s.cFail {
      if !SawError(s.cl) && ClientWaits(s.cpc) { NewestIsSignaled(c, s.cl, s.cpc, s.log); }
      BrokenClientEnds(c, s);
    }
  }

  lemma NewestIsSignaled(c: Config, x: Endpoint, pc: ClientPc, log: seq<nat>)
    requires Lists(c) && !TooDeep(c) && ClientOk(c, x, pc, log) && LogOk(c, log, x.posted, pc) && ClientWaits(pc)
    ensures |x.posted| > 0 && x.posted[|x.posted| - 1].signaled
  {
    if pc.Poll? { IndexFacts(c, pc.r, pc.n); }
    var last := |x.posted| - 1;
    assert x.posted[last] == WrAt(c, log, last);
  }
}
