/** What a refused post can do. In throughput mode a Read or Write that the library refuses is only
    counted: the run goes on and prints its digests although a slice was never transferred. */
module RdmaRefused {
  import opened Params
  import opened Memory
  import opened Nic
  import opened RdmaRun
  import opened RdmaInvariant
  import opened RdmaClient
  import opened RdmaSteps
  import opened RdmaAdapterSteps
  import opened RdmaBounds
  import opened RdmaLiveness
  import opened RdmaTheorems

  /** A request other than the last of its round, which is neither waited for nor missed. */
  predicate Skippable(c: Config, m: nat) {
    c.verb != Send && c.mode == Throughput && m + 1 < c.count && Workable(c)
  }

  /** The client's queue in a run that passes over request `m` of every round. */
  ghost predicate SkimQueue(c: Config, x: Endpoint, pc: ClientPc) {
    && !pc.ClientAborted? && (pc.Poll? ==> pc.n == c.count - 1)
    && |SignaledIds(x.posted, |x.posted|)| == x.polled + (if ClientWaits(pc) then 1 else 0)
    && (pc.Post? ==> Occupied(x) <= pc.n) && (pc.PostEnd? ==> Occupied(x) == 0)
    && (!Exchanging(pc) ==> |x.rq| == 2)
  }

  ghost predicate Skim(c: Config, s: State, m: nat)
    requires Lists(c)
  {
    && Inv(c, s) && !s.cl.broken && !s.sv.broken && !s.sFail && m !in s.log
    && SkimQueue(c, s.cl, s.cpc)
  }

  /** Every step but a failure, except that request `m` is always refused. */
  predicate Skims(s: State, step: Step, m: nat) {
    if s.cpc.Post? && s.cpc.n == m then step == ClientNoPost || (!IsFault(step) && step != ClientProgram)
    else !IsFault(step)
  }

  lemma SkimStart(c: Config, m: nat)
    requires WellFormed(c) && Skippable(c, m)
    ensures Skim(c, Start(c), m)
  {
    StartInv(c);
  }

  // ----- Steps -----

  lemma SkimPost(c: Config, x: Endpoint, r: nat, n: nat, wr: SendWr)
    requires SkimQueue(c, x, Post(r, n)) && n < c.count <= x.depth && wr.signaled == (n == c.count - 1)
    requires c.mode == Throughput
    ensures HasRoom(x) && SkimQueue(c, PostSend(x, wr), AfterPost(c, r, n))
    ensures n < c.count - 1 ==> SkimQueue(c, x, AfterPost(c, r, n))
  {
    PostedSignals(x.posted, wr);
  }

  lemma SkimPostEnd(c: Config, x: Endpoint)
    requires SkimQueue(c, x, PostEnd) && x.depth > 0
    ensures HasRoom(x) && SkimQueue(c, PostSend(x, Message(END)), PollEnd)
  {
    PostedSignals(x.posted, Message(END));
  }

  lemma SkimPoll(c: Config, x: Endpoint, pc: ClientPc)
    requires SkimQueue(c, x, pc) && ClientWaits(pc) && CanPoll(x) && Booked(x, pc) && CursorsOk(x) && CompletionsOk(x)
    ensures SkimQueue(c, PollSend(x), AfterWait(c, pc, true))
  {
    ClientDrained(c, x, pc);
  }

  /** The exchange of such a run is like any other. */
  lemma SkimExchange(c: Config, s: State)
    requires WellFormed(c) && !Misread(c) && c.verb != Send && Exchanging(s.cpc) && ClientCan(c, s) && !s.cl.broken
    requires SkimQueue(c, s.cl, s.cpc) && s.cl.posted == [] && s.cl.retired == 0 && s.cl.depth >= MAX_WR
    requires |s.cl.rq| == ClientRecvs(c, s.cpc) && s.cl.taken == ClientTaken(c, s.cpc)
    requires CursorsOk(s.cl) && ScratchOk(c, s.cl, s.sv)
    ensures SkimQueue(c, ClientQueues(c, s), ClientNext(c, s))
  {
    if s.cpc.WaitCount? { CountIsRight(c, s); }
  }

  lemma ExchangeIsEmpty(c: Config, x: Endpoint, pc: ClientPc, log: seq<nat>, fail: bool)
    requires Lists(c) && ClientFair(c, x, pc, log, fail) && Exchanging(pc) && CompletionsOk(x)
    ensures x.posted == [] && x.retired == 0
  {}

  lemma SkimProgram(c: Config, s: State, m: nat)
    requires WellFormed(c) && Skippable(c, m) && Skim(c, s, m) && ClientCan(c, s) && !(s.cpc.Post? && s.cpc.n == m)
    ensures SkimQueue(c, ClientQueues(c, s), ClientNext(c, s))
  {
    if s.cpc.Post? {
      SkimPost(c, s.cl, s.cpc.r, s.cpc.n, DataWr(c, s.remote, s.cpc.n));
    } else if s.cpc.PostEnd? {
      SkimPostEnd(c, s.cl);
    } else if ClientWaits(s.cpc) {
      SkimPoll(c, s.cl, s.cpc);
    } else {
      ExchangeIsEmpty(c, s.cl, s.cpc, s.log, s.cFail);
      SkimExchange(c, s);
    }
  }

  lemma SkimNoPost(c: Config, s: State, m: nat)
    requires WellFormed(c) && Skippable(c, m) && Skim(c, s, m) && s.cpc.Post? && s.cpc.n == m && ClientPosts(c, s)
    ensures Skim(c, ClientPostFails(c, s), m)
  {
    ClientNoPostInv(c, s);
    SkimPost(c, s.cl, s.cpc.r, m, DataWr(c, s.remote, m));
  }

  lemma SkimClient(c: Config, s: State, m: nat)
    requires WellFormed(c) && Skippable(c, m) && Skim(c, s, m) && ClientCan(c, s) && !(s.cpc.Post? && s.cpc.n == m)
    ensures Skim(c, ClientStep(c, s), m)
  {
    ClientKeeps(c, s);
    SkimProgram(c, s, m);
    SkimLog(c, s, m);
  }

  lemma SkimLog(c: Config, s: State, m: nat)
    requires ClientCan(c, s) && m !in s.log && !(s.cpc.Post? && s.cpc.n == m)
    ensures m !in ClientStep(c, s).log && SameFailures(s, ClientStep(c, s))
  {
    ClientBreaksNothing(c, s);
  }

  lemma SkimOther(c: Config, s: State, m: nat, step: Step)
    requires WellFormed(c) && Skippable(c, m) && Skim(c, s, m) && Enabled(c, s, step) && !IsFault(step)
    requires step != ClientProgram
    ensures Skim(c, Next(c, s, step), m)
  {
    StepKeeps(c, s, step);
    SkimUnbroken(c, s, step);
    SkimFrame(c, s, step);
  }

  lemma SkimUnbroken(c: Config, s: State, step: Step)
    requires WellFormed(c) && c.verb != Send && Inv(c, s) && Enabled(c, s, step) && !IsFault(step)
    ensures SameFailures(s, Next(c, s, step))
  {
    NothingRefused(c, s);
    HealthFrame(c, s, step);
  }

  lemma SkimFrame(c: Config, s: State, step: Step)
    requires Enabled(c, s, step) && !IsFault(step) && step != ClientProgram && SkimQueue(c, s.cl, s.cpc)
    ensures Next(c, s, step).log == s.log && SkimQueue(c, Next(c, s, step).cl, Next(c, s, step).cpc)
  {
    if step != ServerProgram {
      AdapterStepFrame(c, s, step);
      PolledFrame(c, s, step);
    }
  }

  lemma PolledFrame(c: Config, s: State, step: Step)
    requires Enabled(c, s, step) && step !in {ClientProgram, ServerProgram, ClientNoPost, ServerNoPost}
    ensures Next(c, s, step).cl.polled == s.cl.polled
  {}

  lemma SkimStep(c: Config, s: State, m: nat, step: Step)
    requires WellFormed(c) && Skippable(c, m) && Skim(c, s, m) && Enabled(c, s, step) && Skims(s, step, m)
    ensures Skim(c, Next(c, s, step), m)
  {
    if step == ClientNoPost { SkimNoPost(c, s, m); }
    else if step == ClientProgram { SkimClient(c, s, m); }
    else { SkimOther(c, s, m, step); }
  }

  // ----- Such a run can always go on -----

  ghost predicate CanSkim(c: Config, s: State, m: nat) { exists step :: Enabled(c, s, step) && Skims(s, step, m) }

  lemma ClientSkims(c: Config, s: State, m: nat)
    requires Lists(c) && |s.remote| == c.count && InLoops(c, s.cpc)
    requires s.cpc.RecvCount? || s.cpc.RecvInfo? || s.cpc.Post? || s.cpc.PostEnd? || ClientCan(c, s)
    ensures CanSkim(c, s, m)
  {
    if s.cpc.Post? && s.cpc.n == m {
      assert Enabled(c, s, ClientNoPost) && Skims(s, ClientNoPost, m);
    } else {
      assert Enabled(c, s, ClientProgram) && Skims(s, ClientProgram, m);
    }
  }

  /** Without an allowed step, no adapter and not the server can move. */
  lemma SkimQuiet(c: Config, s: State, m: nat)
    requires !CanSkim(c, s, m)
    ensures !ServerCan(c, s)
    ensures !CanTransmit(s.cl) && !CanAccept(s.cl, s.sv) && !CanLand(s.cl, s.sv) && !CanAck(s.cl)
    ensures !CanTransmit(s.sv) && !CanAccept(s.sv, s.cl) && !CanAck(s.sv)
  {
    assert Skims(s, ServerProgram, m) && Skims(s, ClientTransmit, m) && Skims(s, ClientAccept, m);
    assert Skims(s, ClientLand, m) && Skims(s, ClientAck, m);
    assert Skims(s, ServerTransmit, m) && Skims(s, ServerAccept, m) && Skims(s, ServerAck, m);
    assert !Enabled(c, s, ServerProgram) && !Enabled(c, s, ClientTransmit) && !Enabled(c, s, ClientAccept);
    assert !Enabled(c, s, ClientLand) && !Enabled(c, s, ClientAck);
    assert !Enabled(c, s, ServerTransmit) && !Enabled(c, s, ServerAccept) && !Enabled(c, s, ServerAck);
  }

  /** The exchange comes to its end: there the run is an ordinary one. */
  lemma ExchangeSkims(c: Config, s: State, m: nat)
    requires WellFormed(c) && Skippable(c, m) && Skim(c, s, m) && Exchanging(s.cpc)
    ensures CanSkim(c, s, m)
  {
    NoDeadlock(c, s);
    var step :| Enabled(c, s, step) && !IsFault(step);
    assert Skims(s, step, m);
  }

  /** The server's side when it cannot move: it waits for "End". */
  lemma ServerHeld(c: Config, s: State, m: nat)
    requires WellFormed(c) && Skippable(c, m) && Skim(c, s, m) && !Exchanging(s.cpc) && !CanSkim(c, s, m)
    ensures s.spc == ServerDone || (s.spc == WaitEnd && s.sv.filled == 0 && |s.sv.rq| == 1)
  {
    SkimQuiet(c, s, m);
    var x, y := s.cl, s.sv;
    assert ServerOk(c, y, s.spc);
    ServerMoves(c, x, y);
    if |y.reply| == |y.posted| && ServerWaits(s.spc) { DrainedCanPoll(y); }
    RetiredIsAcked(y);
  }

  lemma ClientAdapterHeld(c: Config, s: State, m: nat)
    requires WellFormed(c) && Skippable(c, m) && Skim(c, s, m) && !CanSkim(c, s, m)
    ensures s.cl.acked == |s.cl.reply| && |s.cl.wire| == |s.cl.posted|
    ensures |s.cl.reply| < |s.cl.posted| ==> s.sv.filled == |s.sv.rq| && s.cl.posted[|s.cl.reply|].op == Send
  {
    SkimQuiet(c, s, m);
    var x, y := s.cl, s.sv;
    LogBounded(c, s.log, x.posted, s.cpc);
    HealthySinks(c, y, s.spc, s.sFail);
    ClientMoves(c, x, s.log);
    ClientAcks(c, x, s.log);
    if x.placed < |x.reply| { ClientLands(c, x, y, s.log); }
    if |x.reply| < |x.posted| && (y.filled < |y.rq| || x.posted[|x.reply|].op != Send) {
      ClientAccepted(c, x, y, s.log);
    }
  }

  lemma SkimGoesOn(c: Config, s: State, m: nat)
    requires WellFormed(c) && Skippable(c, m) && Skim(c, s, m) && |s.remote| == c.count && !Final(s)
    ensures CanSkim(c, s, m)
  {
    if Exchanging(s.cpc) {
      ExchangeSkims(c, s, m);
    } else if s.cpc.Post? || s.cpc.PostEnd? {
      ClientSkims(c, s, m);
    } else if !CanSkim(c, s, m) {
      SkimStops(c, s, m);
    }
  }

  lemma SkimStops(c: Config, s: State, m: nat)
    requires WellFormed(c) && Skippable(c, m) && Skim(c, s, m) && |s.remote| == c.count && !CanSkim(c, s, m)
    requires !Exchanging(s.cpc) && !s.cpc.Post? && !s.cpc.PostEnd?
    ensures Final(s)
  {
    ServerHeld(c, s, m);
    ClientAdapterHeld(c, s, m);
    EndReceived(c, s);
    if ClientWaits(s.cpc) && s.cl.acked == |s.cl.posted| {
      DrainedCanPoll(s.cl);
      ClientSkims(c, s, m);
    }
  }

  /** A server that waits has not been sent "End"; one that is done has received everything. */
  lemma EndReceived(c: Config, s: State)
    requires WellFormed(c) && c.verb != Send && SidesOk(c, s) && !s.sv.broken && !s.sFail
    ensures s.spc == ServerDone ==> |s.cl.reply| == |s.cl.posted|
    ensures s.sv.filled == 0 && |s.cl.reply| == |s.cl.posted| ==> |s.cl.posted| == |s.log|
  {
    if s.spc == ServerDone { DoneHasEnd(c, s.cl, s.sv, s.cpc, s.spc, s.log, s.sFail); }
    ClientSends(c, s.log, s.cl.posted, |s.cl.reply|);
  }

  ghost predicate SkimRun(c: Config, states: seq<State>, steps: seq<Step>, m: nat)
    requires Lists(c)
  {
    IsRun(c, states, steps) && Skim(c, states[|steps|], m)
  }

  lemma SkimMove(c: Config, s: State, m: nat) returns (step: Step)
    requires WellFormed(c) && Skippable(c, m) && Skim(c, s, m) && |s.remote| == c.count && !Final(s)
    ensures Enabled(c, s, step) && Skim(c, Next(c, s, step), m)
  {
    SkimGoesOn(c, s, m);
    step :| Enabled(c, s, step) && Skims(s, step, m);
    SkimStep(c, s, m, step);
  }

  lemma SkimFurther(c: Config, states: seq<State>, steps: seq<Step>, m: nat)
    returns (more: seq<State>, next: seq<Step>)
    requires WellFormed(c) && Skippable(c, m) && SkimRun(c, states, steps, m) && !Final(states[|steps|])
    ensures SkimRun(c, more, next, m) && |next| == |steps| + 1 && |steps| <= StepBound(c)
  {
    var s := states[|steps|];
    RunTracked(c, states, steps, |steps|);
    RunBounded(c, states, steps);
    var step := SkimMove(c, s, m);
    ExtendRun(c, states, steps, step);
    more, next := states + [Next(c, s, step)], steps + [step];
  }

  lemma {:induction false} SkimToTheEnd(c: Config, states: seq<State>, steps: seq<Step>, m: nat)
    returns (all: seq<State>, rest: seq<Step>)
    requires WellFormed(c) && Skippable(c, m) && SkimRun(c, states, steps, m)
    ensures SkimRun(c, all, rest, m) && Final(all[|rest|])
    decreases StepBound(c) + 1 - |steps|
  {
    if Final(states[|steps|]) {
      return states, steps;
    }
    var more, next := SkimFurther(c, states, steps, m);
    all, rest := SkimToTheEnd(c, more, next, m);
  }

  /** On every workable configuration in throughput mode with a Read or Write verb, and for every
      request but the last of its round: there is a run that ends properly, with both digests
      printed and both queue pairs in order, in which that slice was never transferred. If the two
      sides' slices differed at first, they hash different bytes. */
  lemma PassedOver(c: Config, m: nat) returns (states: seq<State>, steps: seq<Step>)
    requires WellFormed(c) && Skippable(c, m)
    ensures IsRun(c, states, steps)
    ensures var s := states[|steps|];
            && Final(s) && s.cDigest.Some? && s.sDigest.Some? && !s.cl.broken && !s.sv.broken
            && !Covered(c, s.log)
            && (Peek(c.cMem, c.cAddr[m], c.length) != Peek(c.sMem, c.sAddr[m], c.length) ==>
                  ClientInput(c, s.log) != ServerInput(c, s.log))
  {
    SkimStart(c, m);
    states, steps := SkimToTheEnd(c, [Start(c)], [], m);
    FinalMemory(c, states, steps, |steps|);
    EndToEndAgreement(c, states, steps, |steps|);
    assert m !in states[|steps|].log;
  }
}
