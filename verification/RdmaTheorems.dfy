/** Theorems about whole runs of the two-role benchmark. */
module RdmaTheorems {
  import opened Params
  import opened Memory
  import opened Nic
  import opened RdmaRun
  import opened RdmaInvariant
  import opened RdmaClient
  import opened RdmaSteps
  import opened RdmaAdapterSteps
  import opened RdmaBounds
  import opened RdmaLiveness

  lemma ClientAdapterStepKeeps(c: Config, s: State, step: Step)
    requires WellFormed(c) && Inv(c, s) && Enabled(c, s, step)
    requires step in {ClientTransmit, ClientAccept, ClientLand, ClientAck}
    ensures Inv(c, Next(c, s, step))
  {
    if step == ClientTransmit { ClientTransmitKeeps(c, s); }
    else if step == ClientAccept { ClientAcceptKeeps(c, s); }
    else if step == ClientLand { ClientLandKeeps(c, s); }
    else { ClientAckKeeps(c, s); }
  }

  lemma ServerAdapterStepKeeps(c: Config, s: State, step: Step)
    requires WellFormed(c) && Inv(c, s) && Enabled(c, s, step)
    requires step in {ServerTransmit, ServerAccept, ServerLand, ServerAck}
    ensures Inv(c, Next(c, s, step))
  {
    ServerNeverLands(c, s);
    if step == ServerTransmit { ServerTransmitKeeps(c, s); }
    else if step == ServerAccept { ServerAcceptKeeps(c, s); }
    else { ServerAckKeeps(c, s); }
  }

  lemma ProgramKeeps(c: Config, s: State, step: Step)
    requires WellFormed(c) && !Misread(c) && Inv(c, s) && Enabled(c, s, step)
    requires step in {ClientProgram, ServerProgram, ClientNoPost, ServerNoPost}
    ensures Inv(c, Next(c, s, step))
  {
    if step == ClientProgram { ClientKeeps(c, s); }
    else if step == ServerProgram { ServerKeeps(c, s); }
    else if step == ClientNoPost { ClientNoPostInv(c, s); }
    else { ServerNoPostInv(c, s); }
  }

  lemma ErrorStepKeeps(c: Config, s: State, step: Step)
    requires WellFormed(c) && Inv(c, s) && Enabled(c, s, step)
    requires step in {ClientFlush, ServerFlush, ClientFault, ServerFault, ClientRefuse, ServerRefuse}
    ensures Inv(c, Next(c, s, step))
  {
    if step == ClientFlush { ClientBrokenKeeps(c, s, Flush(s.cl)); }
    else if step == ServerFlush { ServerBrokenKeeps(c, s, Flush(s.sv)); }
    else { BreakStepKeeps(c, s, step); }
  }

  lemma BreakStepKeeps(c: Config, s: State, step: Step)
    requires WellFormed(c) && Inv(c, s) && Enabled(c, s, step)
    requires step in {ClientFault, ServerFault, ClientRefuse, ServerRefuse}
    ensures Inv(c, Next(c, s, step))
  {
    if step == ClientFault { ClientBrokenKeeps(c, s, Break(s.cl)); }
    else if step == ServerFault { ServerBrokenKeeps(c, s, Break(s.sv)); }
    else { RefusalKeeps(c, s); }
  }

  /** Every step of every kind, failures included, keeps the invariant. */
  lemma StepKeeps(c: Config, s: State, step: Step)
    requires WellFormed(c) && !Misread(c) && Inv(c, s) && Enabled(c, s, step)
    ensures Inv(c, Next(c, s, step))
  {
    if step in {ClientProgram, ServerProgram, ClientNoPost, ServerNoPost} { ProgramKeeps(c, s, step); }
    else if step in {ClientTransmit, ClientAccept, ClientLand, ClientAck} { ClientAdapterStepKeeps(c, s, step); }
    else if step in {ServerTransmit, ServerAccept, ServerLand, ServerAck} { ServerAdapterStepKeeps(c, s, step); }
    else { ErrorStepKeeps(c, s, step); }
  }

  lemma {:induction false} RunInv(c: Config, states: seq<State>, steps: seq<Step>, i: nat)
    requires WellFormed(c) && !Misread(c) && IsRun(c, states, steps) && i < |states|
    ensures Inv(c, states[i])
  {
    if i == 0 {
      StartInv(c);
    } else {
      RunInv(c, states, steps, i - 1);
      StepKeeps(c, states[i - 1], steps[i - 1]);
    }
  }

  /** The adapters refuse nothing and break nothing of their own accord. */
  lemma HealthKept(c: Config, s: State, step: Step)
    requires WellFormed(c) && Inv(c, s) && Healthy(s) && Enabled(c, s, step) && !IsFault(step)
    ensures Healthy(Next(c, s, step))
  {
    NothingRefused(c, s);
    HealthFrame(c, s, step);
  }

  /** What failures there have been, step by step. */
  ghost predicate SameFailures(s: State, s': State) {
    && s'.cl.broken == s.cl.broken && s'.sv.broken == s.sv.broken
    && s'.cFail == s.cFail && s'.sFail == s.sFail
  }

  lemma HealthFrame(c: Config, s: State, step: Step)
    requires Enabled(c, s, step) && !IsFault(step) && step != ClientRefuse && step != ServerRefuse
    ensures SameFailures(s, Next(c, s, step))
  {
    if step == ClientProgram { ClientBreaksNothing(c, s); }
    else if step == ServerProgram { ServerBreaksNothing(c, s); }
    else { AdapterBreaksNothing(c, s, step); }
  }

  lemma ClientBreaksNothing(c: Config, s: State)
    requires ClientCan(c, s)
    ensures ClientQueues(c, s).broken == s.cl.broken
  {}

  lemma ServerBreaksNothing(c: Config, s: State)
    requires ServerCan(c, s)
    ensures ServerQueues(c, s).broken == s.sv.broken
  {}

  lemma AdapterBreaksNothing(c: Config, s: State, step: Step)
    requires Enabled(c, s, step) && !IsFault(step)
    requires step !in {ClientProgram, ServerProgram, ClientRefuse, ServerRefuse}
    ensures SameFailures(s, Next(c, s, step))
  {}

  lemma FaultFreePrefix(steps: seq<Step>, i: nat)
    requires 0 < i <= |steps| && FaultFree(steps[..i])
    ensures FaultFree(steps[..i - 1]) && !IsFault(steps[i - 1])
  {
    assert steps[..i][i - 1] == steps[i - 1];
    assert forall j :: 0 <= j < i - 1 ==> steps[..i - 1][j] == steps[..i][j];
  }

  lemma {:induction false} RunHealthy(c: Config, states: seq<State>, steps: seq<Step>, i: nat)
    requires WellFormed(c) && !Misread(c) && IsRun(c, states, steps) && i < |states| && FaultFree(steps[..i])
    ensures Healthy(states[i])
  {
    if i > 0 {
      FaultFreePrefix(steps, i);
      RunHealthy(c, states, steps, i - 1);
      RunInv(c, states, steps, i - 1);
      HealthKept(c, states[i - 1], steps[i - 1]);
    }
  }

  // ----- Agreement -----

  /** Slice `n` of the client is slice `n` of the server, byte for byte. */
  ghost predicate SlicesEqual(c: Config, s: State)
    requires Lists(c)
  {
    forall n :: 0 <= n < c.count ==>
      && c.cAddr[n] + c.length <= |s.cl.mem| && c.sAddr[n] + c.length <= |s.sv.mem|
      && Slice(s.cl.mem, c.cAddr[n], c.length) == Slice(s.sv.mem, c.sAddr[n], c.length)
  }

  ghost predicate Outside(c: Config, s: State) {
    && OutsideKept(c.cAddr, c.length, s.cl.mem, c.cMem) && OutsideKept(c.sAddr, c.length, s.sv.mem, c.sMem)
    && (if c.verb == Read then s.sv.mem == c.sMem else s.cl.mem == c.cMem)
  }

  /** What is printed, exactly, whatever the hash and whatever failed on the way: the source side's
      digest is that of its slices, the other side's that of the source's slices for which a request
      was posted in some round and of its own for the others. So two printed digests are equal when
      every slice had its request, which is so unless a post was refused, the verb is not Send and
      the mode is throughput; and the hashed bytes are equal exactly when the slices without a
      request were equal from the start. */
  lemma EndToEndAgreement(c: Config, states: seq<State>, steps: seq<Step>, i: nat)
    requires WellFormed(c) && !Misread(c) && IsRun(c, states, steps) && i < |states|
    ensures var s := states[i];
            && (s.cDigest.Some? ==> s.cDigest == Some(c.sha(ClientInput(c, s.log))))
            && (s.sDigest.Some? ==> s.sDigest == Some(c.sha(ServerInput(c, s.log))))
            && (ClientInput(c, s.log) == ServerInput(c, s.log) <==> RestEqual(c, s.log))
            && (s.cDigest.Some? && s.sDigest.Some? && (!s.cFail || c.verb == Send || c.mode == Latency) ==>
                  Covered(c, s.log))
            && (s.cDigest.Some? && s.sDigest.Some? && Covered(c, s.log) ==> s.cDigest == s.sDigest)
  {
    RunInv(c, states, steps, i);
    var s := states[i];
    InputsEqualIff(c, s.log);
    if s.cDigest.Some? && s.sDigest.Some? && (!s.cFail || c.verb == Send || c.mode == Latency) {
      PrintedMeansCovered(c, s);
    }
  }

  lemma PrintedMeansCovered(c: Config, s: State)
    requires WellFormed(c) && SidesOk(c, s) && Final(s) && (!s.cFail || c.verb == Send || c.mode == Latency)
    ensures Covered(c, s.log)
  {
    DoneHasEnd(c, s.cl, s.sv, s.cpc, s.spc, s.log, s.sFail);
    TotalCoversAll(c);
    StraightCovers(c, s.log);
  }

  /** At the end both digests have been printed, and corresponding slices are equal byte for byte if
      each had its request. At no time has any byte outside the slices changed, nor any of the
      source side's. */
  lemma FinalMemory(c: Config, states: seq<State>, steps: seq<Step>, i: nat)
    requires WellFormed(c) && !Misread(c) && IsRun(c, states, steps) && i < |states|
    ensures var s := states[i];
            && (Final(s) ==> s.cDigest.Some? && s.sDigest.Some?)
            && (Final(s) && Covered(c, s.log) ==> SlicesEqual(c, s))
            && Outside(c, s)
  {
    RunInv(c, states, steps, i);
    NothingElseTouched(c, states[i]);
    if Final(states[i]) && Covered(c, states[i].log) { FinalSlicesEqual(c, states[i]); }
  }

  lemma NothingElseTouched(c: Config, s: State)
    requires Lists(c) && MemoryOk(c, s.log, s.cl, s.sv)
    ensures Outside(c, s)
  {}

  lemma FinalSlicesEqual(c: Config, s: State)
    requires WellFormed(c) && Inv(c, s) && Final(s) && Covered(c, s.log)
    ensures SlicesEqual(c, s)
  {
    DoneHasEnd(c, s.cl, s.sv, s.cpc, s.spc, s.log, s.sFail);
    CopiedEverything(c, s);
  }

  lemma CopiedEverything(c: Config, s: State)
    requires WellFormed(c) && MemoryOk(c, s.log, s.cl, s.sv) && Covered(c, s.log)
    requires s.cl.acked >= |s.log| && s.cl.placed >= |s.log|
    requires c.verb == Send ==> Aligned(c, s.log, s.cl.placed)
    ensures SlicesEqual(c, s)
  {
    assert Upto(s.log, s.cl.acked) == s.log == Upto(s.log, s.cl.placed);
    forall n | 0 <= n < c.count
      ensures Peek(s.cl.mem, c.cAddr[n], c.length) == Peek(s.sv.mem, c.sAddr[n], c.length)
    {
      assert n in s.log;
    }
  }

  // ----- Phase alignment -----

  /** The next request to be accepted is request `n` of round `r`: the client's slice `n` and the
      server's slice `n`, whether the server named it in a receive or in the exchange. */
  ghost predicate Carries(c: Config, x: Endpoint, y: Endpoint, r: nat, n: nat)
    requires Lists(c)
  {
    var k := |x.reply|;
    && r < c.repeat && n < c.count && k == Index(c, r, n) && k < |x.posted|
    && x.posted[k] == DataWr(c, Remote(c), n)
    && (c.verb == Send ==> y.filled == k < |y.rq| && y.rq[k] == Into(c.sAddr[n], c.length))
  }

  /** "End" goes into the control buffer, when every transfer is visible. */
  ghost predicate EndAccepted(c: Config, log: seq<nat>, x: Endpoint, y: Endpoint)
    requires CanAccept(x, y)
  {
    && |x.reply| == |log| == x.placed && x.posted[|log|] == Message(END)
    && y.filled == DataRecvs(c) && y.rq[y.filled] == Scratch(4)
    && AcceptAtPeer(x, y).scratch == END && AcceptAtPeer(x, y).mem == y.mem
  }

  /** At every acceptance in every run the `k`-th request is for the `k`-th slice in the log, and
      "End" comes after all of them and finds them visible. As long as no post of the client's was
      refused, it is the request its loop position says, it meets its counterpart, and "End" meets
      the control buffer; for a Read or a Write that last holds in any case. */
  lemma PhaseAlignment(c: Config, states: seq<State>, steps: seq<Step>, i: nat)
    requires WellFormed(c) && !Misread(c) && IsRun(c, states, steps)
    requires i < |steps| && steps[i] == ClientAccept
    ensures var s := states[i];
            var x, y, k := s.cl, s.sv, |s.cl.reply|;
            && CanAccept(x, y) && k <= |s.log| <= Total(c)
            && (k < |s.log| ==> s.log[k] < c.count && x.posted[k] == DataWr(c, Remote(c), s.log[k]))
            && (k < |s.log| && !s.cFail ==> exists r, n :: Carries(c, x, y, r, n))
            && (k == |s.log| && (!s.cFail || c.verb != Send) ==> EndAccepted(c, s.log, x, y))
  {
    RunInv(c, states, steps, i);
    var s := states[i];
    assert Enabled(c, s, ClientAccept);
    LogBounded(c, s.log, s.cl.posted, s.cpc);
    HealthySinks(c, s.sv, s.spc, s.sFail);
    assert s.cl.posted[|s.cl.reply|] == WrAt(c, s.log, |s.cl.reply|);
    AcceptAligned(c, s);
  }

  lemma AcceptAligned(c: Config, s: State)
    requires WellFormed(c) && SidesOk(c, s) && CanAccept(s.cl, s.sv) && ServerSinks(c, s.sv.rq)
    requires |s.log| <= Total(c) && ClientWireOk(c, s.log, s.cl.wire)
    ensures |s.cl.reply| < |s.log| && !s.cFail ==> exists r, n :: Carries(c, s.cl, s.sv, r, n)
    ensures |s.cl.reply| == |s.log| && (!s.cFail || c.verb != Send) ==> EndAccepted(c, s.log, s.cl, s.sv)
  {
    if |s.cl.reply| < |s.log| && !s.cFail {
      var r, n := DataAligned(c, s.log, s.cl, s.sv);
    } else if |s.cl.reply| == |s.log| && (!s.cFail || c.verb != Send) {
      EndAligned(c, s.log, s.cl, s.sv);
    }
  }

  lemma DataAligned(c: Config, log: seq<nat>, x: Endpoint, y: Endpoint) returns (r: nat, n: nat)
    requires Shaped(c) && CanAccept(x, y) && DeliveryOk(x, y) && |x.reply| < |log| <= Total(c)
    requires Listed(c, log, x.posted) && Straight(c, log) && ServerSinks(c, y.rq)
    ensures Carries(c, x, y, r, n)
  {
    var k := |x.reply|;
    r, n := IndexSplit(c, k, c.repeat);
    SlotAt(r, n, c.count);
    assert x.posted[k] == WrAt(c, log, k);
    if c.verb == Send { MessageMeetsReceive(c, log, x, y); }
  }

  lemma EndAligned(c: Config, log: seq<nat>, x: Endpoint, y: Endpoint)
    requires WellFormed(c) && CanAccept(x, y) && DeliveryOk(x, y) && |x.reply| == |log| <= Total(c)
    requires Listed(c, log, x.posted) && (c.verb != Send || |log| == Total(c))
    requires ServerSinks(c, y.rq) && ClientWireOk(c, log, x.wire)
    ensures EndAccepted(c, log, x, y)
  {
    var k := |x.reply|;
    assert x.posted[k] == WrAt(c, log, k);
    assert x.wire[k] == ClientPayload(c, log, k);
    MessageMeetsReceive(c, log, x, y);
  }

  /** The server leaves `recv_message` only after every request that was posted is visible to it. */
  lemma ServerSeesEverything(c: Config, states: seq<State>, steps: seq<Step>, i: nat)
    requires WellFormed(c) && !Misread(c) && IsRun(c, states, steps) && i < |states|
    requires states[i].spc == ServerDone
    ensures var s := states[i]; s.cl.placed == |s.cl.posted| == |s.log| + 1 && s.sv.scratch == END
    ensures var s := states[i]; c.verb == Send || !s.cFail ==> |s.log| == Total(c)
  {
    RunInv(c, states, steps, i);
    EndSeen(c, states[i]);
  }

  lemma EndSeen(c: Config, s: State)
    requires WellFormed(c) && SidesOk(c, s) && ScratchOk(c, s.cl, s.sv) && s.spc == ServerDone
    ensures s.cl.placed == |s.cl.posted| == |s.log| + 1 && s.sv.scratch == END
    ensures c.verb == Send || !s.cFail ==> |s.log| == Total(c)
  {
    DoneHasEnd(c, s.cl, s.sv, s.cpc, s.spc, s.log, s.sFail);
  }

  // ----- Queue depth -----

  ghost predicate ClientDepth(c: Config, x: Endpoint, pc: ClientPc) {
    && 0 <= Occupied(x) <= (if c.mode == Latency then 1 else c.count)
    && ((pc.Post? && pc.n == 0) || pc.PostEnd? || pc.ClientDone? ==> Occupied(x) == 0)
    && ((pc.Post? || pc.PostEnd?) && !TooDeep(c) ==> HasRoom(x))
    && pc != ClientAborted
  }

  lemma ClientDepthOk(c: Config, x: Endpoint, pc: ClientPc, log: seq<nat>)
    requires Sized(c) && ClientOk(c, x, pc, log)
    ensures ClientDepth(c, x, pc)
  {
    if (pc.Post? || pc.PostEnd?) && !TooDeep(c) { ClientHasRoom(c, x, pc, log); }
  }

  /** At most one request occupies the send queue in latency mode, at most `count` in throughput
      mode, none between rounds, and every post finds room as long as `count` fits. That holds
      until an error is reported or a post refused, which takes a failure; after one the adapter's
      own depth is still never exceeded. */
  lemma QueueDepth(c: Config, states: seq<State>, steps: seq<Step>, i: nat)
    requires WellFormed(c) && !Misread(c) && IsRun(c, states, steps) && i < |states|
    ensures var s := states[i];
            && (!SawError(s.cl) && !s.cFail ==> ClientDepth(c, s.cl, s.cpc))
            && (!SawError(s.sv) && !s.sFail ==> 0 <= Occupied(s.sv) <= 1 && s.spc != ServerAborted)
            && (FaultFree(steps[..i]) ==> !SawError(s.cl) && !SawError(s.sv) && !s.cFail && !s.sFail)
            && 0 <= Occupied(s.cl) <= c.cDepth && 0 <= Occupied(s.sv) <= c.sDepth
  {
    RunInv(c, states, steps, i);
    RunTracked(c, states, steps, i);
    if FaultFree(steps[..i]) { RunHealthy(c, states, steps, i); }
    DepthAt(c, states[i]);
  }

  lemma DepthAt(c: Config, s: State)
    requires WellFormed(c) && SidesOk(c, s) && Tracked(c, s)
    ensures !SawError(s.cl) && !s.cFail ==> ClientDepth(c, s.cl, s.cpc)
    ensures !SawError(s.sv) && !s.sFail ==> 0 <= Occupied(s.sv) <= 1 && s.spc != ServerAborted
    ensures 0 <= Occupied(s.cl) <= c.cDepth && 0 <= Occupied(s.sv) <= c.sDepth
    ensures Healthy(s) ==> !SawError(s.cl) && !SawError(s.sv)
  {
    NeverOverdrawn(s.cl);
    NeverOverdrawn(s.sv);
    if !SawError(s.cl) && !s.cFail { ClientDepthOk(c, s.cl, s.cpc, s.log); }
    if !SawError(s.sv) && !s.sFail { ServerDepthOk(c, s.sv, s.spc); }
  }

  lemma ServerDepthOk(c: Config, y: Endpoint, pc: ServerPc)
    requires Lists(c) && ServerOk(c, y, pc)
    ensures 0 <= Occupied(y) <= 1 && pc != ServerAborted
  {}

  // ----- Termination -----

  ghost predicate TrackedAt(c: Config, s: State, i: nat) { Tracked(c, s) && Progress(c, s) >= i }

  lemma StepTracked(c: Config, s: State, step: Step, i: nat)
    requires c.count > 0 && c.repeat > 0 && TrackedAt(c, s, i) && Enabled(c, s, step)
    ensures TrackedAt(c, Next(c, s, step), i + 1)
  {
    TrackedStep(c, s, step);
    StepAdvances(c, s, step);
  }

  lemma {:induction false} RunTracked(c: Config, states: seq<State>, steps: seq<Step>, i: nat)
    requires WellFormed(c) && IsRun(c, states, steps) && i < |states|
    ensures TrackedAt(c, states[i], i)
  {
    if i == 0 {
      StartTracked(c);
    } else {
      RunTracked(c, states, steps, i - 1);
      StepTracked(c, states[i - 1], steps[i - 1], i - 1);
    }
  }

  /** Every run of every configuration is finite with a bound known in advance, whatever fails
      and whether or not the run can succeed. */
  lemma RunsTerminate(c: Config, states: seq<State>, steps: seq<Step>)
    requires WellFormed(c) && IsRun(c, states, steps)
    ensures |steps| <= 20 * (c.repeat * c.count) + 62
  {
    RunBounded(c, states, steps);
    TimesIsProduct(c.repeat, c.count);
  }

  lemma RunBounded(c: Config, states: seq<State>, steps: seq<Step>)
    requires WellFormed(c) && IsRun(c, states, steps)
    ensures |steps| <= StepBound(c)
  {
    RunTracked(c, states, steps, |steps|);
    ProgressBounded(c, states[|steps|]);
  }

  /** How a run can come to a stop. Without failures it has ended properly on both sides, or the
      queue is too small and the client polls for a request it could not post. A program whose
      queue pair has failed has ended in any case, unless a post of its own was refused. */
  lemma RunsStop(c: Config, states: seq<State>, steps: seq<Step>)
    requires WellFormed(c) && !Misread(c) && IsRun(c, states, steps) && Quiet(c, states[|steps|])
    ensures var s := states[|steps|];
            && (FaultFree(steps) ==> if TooDeep(c) then s.cpc == Poll(0, c.count - 1) && s.cl.cq == [] else Final(s))
            && (s.cl.broken && !s.cFail && !TooDeep(c) ==> s.cpc.ClientDone? || s.cpc.ClientAborted?)
            && (s.sv.broken && !s.sFail && !TooDeep(c) ==> s.spc.ServerDone? || s.spc.ServerAborted?)
  {
    var n := |steps|;
    RunInv(c, states, steps, n);
    RunTracked(c, states, steps, n);
    if FaultFree(steps) {
      assert steps[..n] == steps;
      RunHealthy(c, states, steps, n);
    }
    StopsAt(c, states[n]);
  }

  lemma StopsAt(c: Config, s: State)
    requires WellFormed(c) && Inv(c, s) && Tracked(c, s) && Quiet(c, s)
    ensures Healthy(s) ==> if TooDeep(c) then s.cpc == Poll(0, c.count - 1) && s.cl.cq == [] else Final(s)
    ensures s.cl.broken && !s.cFail && !TooDeep(c) ==> s.cpc.ClientDone? || s.cpc.ClientAborted?
    ensures s.sv.broken && !s.sFail && !TooDeep(c) ==> s.spc.ServerDone? || s.spc.ServerAborted?
  {
    if Healthy(s) { HealthyStops(c, s); }
    if !TooDeep(c) { FailureEnds(c, s); }
  }

  lemma HealthyStops(c: Config, s: State)
    requires WellFormed(c) && Inv(c, s) && Healthy(s) && Quiet(c, s)
    ensures if TooDeep(c) then s.cpc == Poll(0, c.count - 1) && s.cl.cq == [] else Final(s)
  {
    if TooDeep(c) { FullSpins(c, s); } else if !Final(s) { NoDeadlock(c, s); }
  }

  lemma ExtendRun(c: Config, states: seq<State>, steps: seq<Step>, step: Step)
    requires IsRun(c, states, steps) && Enabled(c, states[|steps|], step)
    ensures IsRun(c, states + [Next(c, states[|steps|], step)], steps + [step])
  {}

  /** Every run of a workable configuration without failures, however far it has got, can be
      completed to one that ends properly. */
  lemma {:induction false} RunCompletes(c: Config, states: seq<State>, steps: seq<Step>)
    returns (all: seq<State>, rest: seq<Step>)
    requires WellFormed(c) && Workable(c) && IsRun(c, states, steps) && FaultFree(steps)
    ensures IsRun(c, all, rest) && FaultFree(rest) && states <= all && steps <= rest && Final(all[|rest|])
    decreases StepBound(c) + 1 - |steps|
  {
    var n := |steps|;
    if Final(states[n]) {
      return states, steps;
    }
    var step := RunGoesOn(c, states, steps);
    ExtendRun(c, states, steps, step);
    RunBounded(c, states, steps);
    all, rest := RunCompletes(c, states + [Next(c, states[n], step)], steps + [step]);
  }

  lemma RunGoesOn(c: Config, states: seq<State>, steps: seq<Step>) returns (step: Step)
    requires WellFormed(c) && Workable(c) && IsRun(c, states, steps) && FaultFree(steps) && !Final(states[|steps|])
    ensures Enabled(c, states[|steps|], step) && !IsFault(step)
  {
    var n := |steps|;
    assert steps[..n] == steps;
    RunInv(c, states, steps, n);
    RunHealthy(c, states, steps, n);
    NoDeadlock(c, states[n]);
    step :| Enabled(c, states[n], step) && !IsFault(step);
  }
}
