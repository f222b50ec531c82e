/** The other half of "workable": what happens on a configuration that is not. A queue that is
    too small leaves the client polling; a misread count makes the server refuse its requests. */
module RdmaStuck {
  import opened Params
  import opened Memory
  import opened Exchange
  import opened Nic
  import opened RdmaRun
  import opened RdmaInvariant
  import opened RdmaSteps
  import opened RdmaBounds
  import opened RdmaLiveness
  import opened RdmaTheorems

  // ----- A count that the other byte order misreads -----

  /** Until the first error the client posts requests without a remote address. */
  ghost predicate Unaddressed(c: Config, posted: seq<SendWr>) {
    forall i :: 0 <= i < |posted| ==>
      && posted[i].op == c.verb && posted[i].raddr == 0
      && posted[i].src.Block? && posted[i].src.addr + posted[i].src.len <= |c.cMem|
  }

  ghost predicate MisreadClient(c: Config, x: Endpoint, pc: ClientPc, fail: bool) {
    && x.reply == [] && x.mem == c.cMem
    && pc != RecvInfo && pc != WaitInfo && pc != ClientDone
    && (!SawError(x) ==>
          && Unaddressed(c, x.posted)
          && (Exchanging(pc) || ((pc.Post? || pc.Poll?) && pc.r == 0) || (fail && pc.ClientAborted?)))
    && |x.rq| <= 1 && (forall i :: 0 <= i < |x.rq| ==> x.rq[i] == Scratch(ADDR_BYTES))
    && (pc.RecvCount? ==> x.rq == []) && (pc.WaitCount? ==> x.taken == 0)
    && (x.filled > 0 ==> x.scratch == CountBytes(c))
  }

  ghost predicate MisreadServer(c: Config, y: Endpoint, pc: ServerPc, fail: bool) {
    && y.regions == c.sRegions && y.depth > 0 && pc != ServerDone
    && (pc == SendCount ==> y.posted == []) && (y.posted == [] ==> pc == SendCount || (fail && pc == ServerAborted))
    && (forall i :: 0 <= i < |y.posted| ==> y.posted[i].op == Send)
    && (|y.posted| > 0 ==> y.posted[0] == Message(CountBytes(c)))
    && (|y.wire| > 0 ==> y.wire[0] == CountBytes(c))
  }

  /** The client goes on with remote addresses of zero, which no region of the server covers, and
      neither side ever gets to a digest. */
  ghost predicate MisreadInv(c: Config, s: State) {
    && MisreadClient(c, s.cl, s.cpc, s.cFail) && MisreadServer(c, s.sv, s.spc, s.sFail)
    && s.remote == Zeros(c.count) && s.cDigest == None && s.sDigest == None
  }

  lemma MisreadAtStart(c: Config)
    requires WellFormed(c) && Misread(c)
    ensures MisreadInv(c, Start(c))
  {}

  /** Nothing of the client's is acknowledged, so no good completion ever reaches it. */
  lemma NothingAcknowledged(x: Endpoint, y: Endpoint)
    requires AdapterOk(x, y) && x.reply == []
    ensures x.acked == 0 && !CanPoll(x) && y.filled == 0 && !CanTake(y)
    ensures !SawError(x) ==> x.retired == 0
  {}

  lemma MisreadExchange(c: Config, s: State)
    requires WellFormed(c) && Misread(c) && MisreadInv(c, s) && ClientCan(c, s) && Exchanging(s.cpc)
    requires CursorsOk(s.cl)
    ensures MisreadInv(c, ClientStep(c, s))
  {
    if s.cpc.WaitCount? { RawWordAgrees(c.sOrder, c.cOrder, c.count, ADDR_BYTES); }
  }

  lemma MisreadRounds(c: Config, s: State)
    requires WellFormed(c) && MisreadInv(c, s) && ClientCan(c, s) && !Exchanging(s.cpc)
    requires ClientInRange(c, s.cpc) && !CanPoll(s.cl)
    ensures MisreadInv(c, ClientStep(c, s))
  {}

  lemma MisreadServerStep(c: Config, s: State)
    requires MisreadInv(c, s) && ServerCan(c, s) && !CanTake(s.sv)
    ensures MisreadInv(c, ServerStep(c, s))
  {
    MisreadServerMoves(c, s);
  }

  lemma MisreadServerMoves(c: Config, s: State)
    requires MisreadServer(c, s.sv, s.spc, s.sFail) && ServerCan(c, s) && !CanTake(s.sv)
    ensures MisreadServer(c, ServerQueues(c, s), ServerNext(c, s), s.sFail)
  {}

  /** A request without a remote address is never accepted; it is refused, with an answer. */
  lemma NullIsRefused(c: Config, x: Endpoint, y: Endpoint, pc: ClientPc, fail: bool)
    requires WellFormed(c) && Misread(c) && MisreadClient(c, x, pc, fail) && y.regions == c.sRegions
    requires AdapterOk(x, y)
    ensures !CanAccept(x, y)
    ensures !x.broken && !y.broken && |x.wire| > 0 ==> CanRefuse(x, y)
  {
    if |x.posted| > 0 {
      assert forall len :: !Permits(c.sRegions, c.verb, 0, x.posted[0].rkey, len);
    }
  }

  lemma {:induction false} AllSends(posted: seq<SendWr>, k: nat)
    requires k <= |posted| && forall i :: 0 <= i < |posted| ==> posted[i].op == Send
    ensures SendsAmong(posted, k) == k
  {
    if k > 0 { AllSends(posted, k - 1); }
  }

  lemma CountArrives(c: Config, s: State)
    requires AdapterOk(s.sv, s.cl) && MisreadInv(c, s) && CanAccept(s.sv, s.cl)
    ensures MisreadInv(c, s.(sv := AcceptAtSender(s.sv, s.cl), cl := AcceptAtPeer(s.sv, s.cl)))
  {
    AllSends(s.sv.posted, |s.sv.reply|);
  }

  lemma MisreadTransmit(c: Config, s: State)
    requires MisreadInv(c, s)
    ensures CanTransmit(s.cl) ==> MisreadInv(c, s.(cl := Transmit(s.cl)))
    ensures CanTransmit(s.sv) ==> MisreadInv(c, s.(sv := Transmit(s.sv)))
  {}

  lemma MisreadAdapter(c: Config, s: State, step: Step)
    requires WellFormed(c) && Misread(c) && AdapterOk(s.cl, s.sv) && MisreadInv(c, s) && Enabled(c, s, step)
    requires step !in {ClientProgram, ServerProgram, ClientNoPost, ServerNoPost}
    ensures MisreadInv(c, Next(c, s, step))
  {
    NullIsRefused(c, s.cl, s.sv, s.cpc, s.cFail);
    AdapterOkSymmetric(s.cl, s.sv);
    if step == ServerAccept { CountArrives(c, s); }
    else if step == ClientTransmit || step == ServerTransmit { MisreadTransmit(c, s); }
    else if step in {ClientFlush, ServerFlush, ClientFault, ServerFault, ClientRefuse, ServerRefuse} {
      MisreadErrors(c, s, step);
    } else {
      MisreadLater(c, s, step);
    }
  }

  lemma MisreadErrors(c: Config, s: State, step: Step)
    requires MisreadInv(c, s) && Enabled(c, s, step)
    requires step in {ClientFlush, ServerFlush, ClientFault, ServerFault, ClientRefuse, ServerRefuse}
    ensures MisreadInv(c, Next(c, s, step))
  {}

  /** Of the later steps of a request only those of the server's messages ever happen. */
  lemma MisreadLater(c: Config, s: State, step: Step)
    requires MisreadInv(c, s) && CursorsOk(s.sv) && Enabled(c, s, step) && !CanAccept(s.cl, s.sv)
    requires step in {ClientAccept, ClientLand, ClientAck, ServerLand, ServerAck}
    ensures MisreadInv(c, Next(c, s, step))
  {}

  lemma MisreadNoPost(c: Config, s: State)
    requires MisreadInv(c, s)
    ensures ClientPosts(c, s) && ClientInRange(c, s.cpc) ==> MisreadInv(c, ClientPostFails(c, s))
    ensures ServerPosts(c, s) ==> MisreadInv(c, ServerPostFails(c, s))
  {}

  lemma MisreadStep(c: Config, s: State, step: Step)
    requires WellFormed(c) && Misread(c) && Tracked(c, s) && MisreadInv(c, s) && Enabled(c, s, step)
    ensures MisreadInv(c, Next(c, s, step))
  {
    NothingAcknowledged(s.cl, s.sv);
    if step == ClientProgram {
      if Exchanging(s.cpc) { MisreadExchange(c, s); } else { MisreadRounds(c, s); }
    } else if step == ServerProgram { MisreadServerStep(c, s); }
    else if step == ClientNoPost || step == ServerNoPost { MisreadNoPost(c, s); }
    else { MisreadAdapter(c, s, step); }
  }

  lemma {:induction false} RunMisread(c: Config, states: seq<State>, steps: seq<Step>, i: nat)
    requires WellFormed(c) && Misread(c) && IsRun(c, states, steps) && i < |states|
    ensures MisreadInv(c, states[i])
  {
    if i == 0 {
      MisreadAtStart(c);
    } else {
      RunMisread(c, states, steps, i - 1);
      RunTracked(c, states, steps, i - 1);
      MisreadStep(c, states[i - 1], steps[i - 1]);
    }
  }

  // ----- How misread runs end -----

  /** As long as nothing is broken, either the count is on its way or a request is about to be
      refused. */
  lemma MisreadMoves(c: Config, s: State)
    requires WellFormed(c) && Misread(c) && Tracked(c, s) && MisreadInv(c, s) && Healthy(s)
    ensures !Quiet(c, s)
  {
    if s.cpc.WaitCount? {
      CountOnItsWay(c, s);
    } else if s.cpc.Poll? {
      RefusalOnItsWay(c, s);
    } else {
      assert Enabled(c, s, ClientProgram);
    }
  }

  lemma CountOnItsWay(c: Config, s: State)
    requires Tracked(c, s) && MisreadInv(c, s) && Healthy(s) && s.cpc.WaitCount?
    ensures exists step :: Enabled(c, s, step) && !IsFault(step)
  {
    AllSends(s.sv.posted, |s.sv.reply|);
    if s.cl.filled > 0 {
      assert Enabled(c, s, ClientProgram);
    } else if s.spc == SendCount {
      assert Enabled(c, s, ServerProgram);
    } else if |s.sv.wire| == 0 {
      assert Enabled(c, s, ServerTransmit);
    } else {
      assert Enabled(c, s, ServerAccept);
    }
  }

  lemma RefusalOnItsWay(c: Config, s: State)
    requires WellFormed(c) && Misread(c) && Tracked(c, s) && MisreadInv(c, s) && Healthy(s) && s.cpc.Poll?
    ensures exists step :: Enabled(c, s, step) && !IsFault(step)
  {
    if |s.cl.wire| == 0 {
      assert Enabled(c, s, ClientTransmit);
    } else {
      NullIsRefused(c, s.cl, s.sv, s.cpc, s.cFail);
      assert Enabled(c, s, ClientRefuse);
    }
  }

  lemma {:induction false} BrokenTogether(c: Config, states: seq<State>, steps: seq<Step>, i: nat)
    requires IsRun(c, states, steps) && i < |states| && FaultFree(steps)
    ensures states[i].cl.broken == states[i].sv.broken && !states[i].cFail && !states[i].sFail
  {
    if i > 0 {
      BrokenTogether(c, states, steps, i - 1);
      var s, step := states[i - 1], steps[i - 1];
      if step != ClientRefuse && step != ServerRefuse { HealthFrame(c, s, step); }
    }
  }

  /** A misread run that has come to a stop has ended with an error on both sides: the refusal
      reaches the client as an error completion, it goes through its remaining rounds, and both
      sides fail on the terminating message or before. */
  lemma MisreadEnds(c: Config, states: seq<State>, steps: seq<Step>)
    requires WellFormed(c) && Misread(c) && IsRun(c, states, steps) && FaultFree(steps)
    requires Quiet(c, states[|steps|])
    ensures var s := states[|steps|]; s.cpc == ClientAborted && s.spc == ServerAborted
  {
    var s := states[|steps|];
    RunMisread(c, states, steps, |steps|);
    RunTracked(c, states, steps, |steps|);
    BrokenTogether(c, states, steps, |steps|);
    if Healthy(s) { MisreadMoves(c, s); }
    MisreadAborts(c, s);
  }

  lemma MisreadAborts(c: Config, s: State)
    requires Lists(c) && Tracked(c, s) && MisreadInv(c, s) && Quiet(c, s)
    requires s.cl.broken && s.sv.broken && !s.cFail && !s.sFail
    ensures s.cpc == ClientAborted && s.spc == ServerAborted
  {
    NothingAcknowledged(s.cl, s.sv);
    BrokenServerEnds(c, s);
    BrokenClientEnds(c, s);
  }

  // ----- A queue that is too small -----

  /** Without a failure the client never gets past its first round: no completion ever comes. */
  lemma NeverPastFirstRound(c: Config, states: seq<State>, steps: seq<Step>, i: nat)
    requires WellFormed(c) && TooDeep(c) && !Misread(c) && IsRun(c, states, steps) && i < |states|
    requires FaultFree(steps[..i])
    ensures var s := states[i];
            && (Exchanging(s.cpc) || ((s.cpc.Post? || s.cpc.Poll?) && s.cpc.r == 0))
            && |s.cl.posted| <= c.cDepth && s.cl.cq == []
  {
    RunInv(c, states, steps, i);
    RunHealthy(c, states, steps, i);
    var s := states[i];
    HealthySides(c, s);
    FullFirstRound(c, s.cl, s.cpc, s.log);
  }

  lemma FullFirstRound(c: Config, x: Endpoint, pc: ClientPc, log: seq<nat>)
    requires Lists(c) && TooDeep(c) && ClientOk(c, x, pc, log) && CompletionsOk(x)
    ensures Exchanging(pc) || ((pc.Post? || pc.Poll?) && pc.r == 0)
    ensures |x.posted| <= c.cDepth && x.cq == []
  {
    SignaledGrow(x.posted, x.acked, |x.posted|);
  }

  // ----- Both -----

  /** No run of an unworkable configuration ends properly on either side, and none prints a digest,
      whichever queue pair fails. With a queue that is too small that takes that no post of the
      client's was refused for another reason, which would leave a slot for the last one. */
  lemma UnworkableNeverFinishes(c: Config, states: seq<State>, steps: seq<Step>, i: nat)
    requires WellFormed(c) && !Workable(c) && IsRun(c, states, steps) && i < |states|
    requires Misread(c) || !states[i].cFail
    ensures var s := states[i];
            s.cpc != ClientDone && s.spc != ServerDone && s.cDigest == None && s.sDigest == None
  {
    if Misread(c) {
      RunMisread(c, states, steps, i);
    } else {
      RunInv(c, states, steps, i);
      EndNeverSent(c, states[i]);
    }
  }

  lemma EndNeverSent(c: Config, s: State)
    requires WellFormed(c) && TooDeep(c) && SidesOk(c, s) && !s.cFail
    ensures s.cpc != ClientDone && s.spc != ServerDone
  {
    if s.spc == ServerDone { DoneHasEnd(c, s.cl, s.sv, s.cpc, s.spc, s.log, s.sFail); }
  }

  /** The default count in throughput mode, with any warm-up, is unworkable on an adapter that
      grants exactly the requested depth. */
  lemma DefaultCountWithWarmup(c: Config, warmup: nat)
    requires c.mode == Throughput && c.cDepth == 1000 && 0 < warmup && 1000 + warmup < SIZE_MAX_PLUS_1
    requires var parsed := Validate(Options(c.verb, Throughput, 1000, 2, 1, warmup, 1));
             parsed.Accepted? && c.count == parsed.params.count
    ensures !Workable(c)
  {}

  /** A round of up to 1000 requests always fits: that is the depth both queue pairs ask for. */
  lemma ThousandFit(c: Config)
    requires WellFormed(c) && c.count <= 1000 && !Misread(c)
    ensures Workable(c)
  {}
}
