/** Exactly when `free(buf)` is safe. A rank may release its buffer while one of its own
    fire-and-forget sends is still unread; the receiver then gets whatever is found there. */
module MpiFreed {
  import opened Memory
  import opened MpiPlan
  import opened MpiRun
  import opened MpiInvariant
  import opened MpiSteps
  import opened MpiRelease
  import opened MpiContent
  import opened MpiLiveness
  import opened MpiTermination

  // ----- Rank 1 enters its last round -----

  lemma LeavesLastBarrier(c: Config, st: State, step: Step)
    requires WellFormed(c) && Inv(c, st) && Enabled(c, st, step) && 1 < c.size
    requires Passed(c, st[1].pc) < c.repeat <= Passed(c, Next(c, st, step)[1].pc)
    ensures Next(c, st, step)[1].pc == Sending(c.repeat - 1, 0)
  {
    assert RankOk(c, 1, st[1]);
  }

  lemma SynchronousGrows(steps: seq<Step>, step: Step)
    requires Synchronous(steps) && !step.EarlyReturn?
    ensures Synchronous(steps + [step])
  {}

  lemma {:induction false} ReachLastRound(c: Config, states: seq<State>, steps: seq<Step>)
    returns (all: seq<State>, rest: seq<Step>)
    requires WellFormed(c) && IsRun(c, states, steps) && Synchronous(steps) && 1 < c.size
    requires |states[|steps|]| == c.size && Passed(c, states[|steps|][1].pc) < c.repeat
    ensures IsRun(c, all, rest) && Synchronous(rest)
    ensures |all[|rest|]| == c.size && all[|rest|][1].pc == Sending(c.repeat - 1, 0)
    decreases StepBound(c) + 1 - |steps|
  {
    var st := states[|steps|];
    var step := SynchronousStep(c, states, steps);
    var st' := Next(c, st, step);
    ExtendRun(c, states, steps, step);
    SynchronousGrows(steps, step);
    if Passed(c, st'[1].pc) < c.repeat {
      all, rest := ReachLastRound(c, states + [st'], steps + [step]);
    } else {
      LeavesLastBarrier(c, st, step);
      all, rest := states + [st'], steps + [step];
    }
  }

  lemma SynchronousStep(c: Config, states: seq<State>, steps: seq<Step>) returns (step: Step)
    requires WellFormed(c) && IsRun(c, states, steps) && 1 < c.size
    requires |states[|steps|]| == c.size && Passed(c, states[|steps|][1].pc) < c.repeat
    ensures Inv(c, states[|steps|]) && Enabled(c, states[|steps|], step) && !step.EarlyReturn?
    ensures |steps| <= StepBound(c)
  {
    var st := states[|steps|];
    RunInv(c, states, steps, |steps|);
    RunsTerminate(c, states, steps);
    assert !Final(st) && !StoppedByMismatch(st);
    step :| Enabled(c, st, step) && !step.EarlyReturn?;
  }

  // ----- Rank 1 goes on while nothing is delivered from it to rank `b` -----

  predicate LastRound(c: Config, pc: Pc) {
    match pc
    case Sending(r, _) => r == c.repeat - 1
    case Posting(r, _) => r == c.repeat - 1
    case Waiting(r) => r == c.repeat - 1
    case DigestSend => true
    case DigestSent => true
    case Done => true
    case _ => false
  }

  /** Where the last round begins in the channel from rank 1 to rank `b`. */
  function Mark(c: Config, b: nat): nat
    requires c.repeat > 0
  {
    DataIn(c, 1, b, c.repeat - 1)
  }

  ghost predicate Racing(c: Config, st: State, b: nat)
    requires c.repeat > 0
  {
    && Inv(c, st) && 1 < c.size && b < c.size && LastRound(c, st[1].pc)
    && b < |st[1].out| && 1 < |st[b].got| && st[b].got[1] == Mark(c, b)
    && forall k :: Mark(c, b) <= k < |st[1].out[b]| && k < AllData(c, 1, b) ==> st[1].out[b][k].Pending?
  }

  /** The steps in question: any program step, and any delivery but those from rank 1 to `b`. */
  predicate Allowed(step: Step, b: nat) { step.Program? || (step.Delivery? && !(step.s == 1 && step.d == b)) }

  lemma RaceBegins(c: Config, st: State, b: nat)
    requires WellFormed(c) && Inv(c, st) && 1 < c.size && b < c.size && b != 1
    requires st[1].pc == Sending(c.repeat - 1, 0)
    ensures Racing(c, st, b)
  {
    assert RankOk(c, 1, st[1]) && RankOk(c, b, st[b]) && PairOk(st[1], st[b], 1, b);
    assert |st[1].out[b]| == OutLen(c, 1, b, st[1].pc);
    assert st[b].arrived >= Passed(c, st[1].pc);
    SettledInLastRound(c, b, st[b].pc);
    assert Settled(c, b, 1, st[b].pc) <= st[b].got[1];
  }

  lemma SettledInLastRound(c: Config, b: nat, pc: Pc)
    requires WellFormed(c) && PcOk(c, b, pc) && ArrivedAt(c, pc) >= c.repeat
    ensures Settled(c, b, 1, pc) >= Mark(c, b)
  {
    TimesGrow(c.repeat - 1, c.repeat, c.count);
  }

  /** A program step of rank 1 adds data or the digest at the end of the channel. */
  lemma RaceSends(c: Config, st: State, b: nat)
    requires WellFormed(c) && Racing(c, st, b) && ProgramCan(c, st, 1)
    ensures var x' := ProgramStep(c, st, 1);
            && LastRound(c, x'.pc) && b < |x'.out|
            && forall k :: Mark(c, b) <= k < |x'.out[b]| && k < AllData(c, 1, b) ==> x'.out[b][k].Pending?
  {
    assert RankOk(c, 1, st[1]);
    assert |st[1].out[b]| == OutLen(c, 1, b, st[1].pc);
  }

  lemma OwnRaceStep(c: Config, st: State, b: nat)
    requires WellFormed(c) && Racing(c, st, b) && b != 1 && Enabled(c, st, Program(1))
    ensures Racing(c, Next(c, st, Program(1)), b)
  {
    StepKeeps(c, st, Program(1));
    ProgramGrows(c, st, 1);
    RaceSends(c, st, b);
  }

  lemma OtherRaceStep(c: Config, st: State, b: nat, step: Step)
    requires WellFormed(c) && Racing(c, st, b) && b != 1 && Enabled(c, st, step) && Allowed(step, b)
    requires step != Program(1)
    ensures Racing(c, Next(c, st, step), b)
  {
    StepKeeps(c, st, step);
    if step.Program? { ProgramGrows(c, st, step.i); }
  }

  lemma RaceStep(c: Config, st: State, b: nat, step: Step)
    requires WellFormed(c) && Racing(c, st, b) && b != 1 && Enabled(c, st, step) && Allowed(step, b)
    ensures Racing(c, Next(c, st, step), b)
  {
    if step == Program(1) { OwnRaceStep(c, st, b); } else { OtherRaceStep(c, st, b, step); }
  }

  ghost predicate CanRace(c: Config, st: State, b: nat) {
    exists step :: Enabled(c, st, step) && Allowed(step, b)
  }

  lemma RankRaces(c: Config, st: State, i: nat, b: nat)
    requires ProgramCan(c, st, i)
    ensures CanRace(c, st, b)
  {
    assert Enabled(c, st, Program(i)) && Allowed(Program(i), b);
  }

  /** Rank `s` has sent all its data, or can go on. */
  lemma SenderRaces(c: Config, st: State, s: nat, d: nat, b: nat)
    requires WellFormed(c) && Racing(c, st, b) && s < c.size && d < c.size
    ensures RankOk(c, s, st[s]) && (|st[s].out[d]| >= AllData(c, s, d) || CanRace(c, st, b))
  {
    assert RankOk(c, s, st[s]) && RankOk(c, 1, st[1]);
    assert |st[s].out[d]| == OutLen(c, s, d, st[s].pc);
    assert AllArrived(st, c.repeat) by {
      assert forall j :: 0 <= j < c.size ==> st[j].arrived >= Passed(c, st[1].pc);
    }
    if st[s].pc.InBarrier? || st[s].pc.Sending? {
      assert ProgramCan(c, st, s);
      RankRaces(c, st, s, b);
    }
  }

  /** A rank that waits in the last round, and for no message held back, can go on or be served. */
  lemma WaiterRaces(c: Config, st: State, d: nat, b: nat)
    requires WellFormed(c) && Racing(c, st, b) && d < c.size && d != b
    requires st[d].pc.Waiting? && st[d].pc.r == c.repeat - 1
    ensures CanRace(c, st, b)
  {
    assert RankOk(c, d, st[d]);
    if AllReceived(st[d]) {
      RankRaces(c, st, d, b);
    } else {
      var s :| 0 <= s < c.size && st[d].got[s] != |st[d].recvs[s]|;
      assert st[d].got[s] < |st[d].recvs[s]| == RecvLen(c, d, s, st[d].pc);
      ServerRaces(c, st, s, d, b);
    }
  }

  /** Data that `d` waits for has been sent and can be delivered, or its sender can go on. */
  lemma ServerRaces(c: Config, st: State, s: nat, d: nat, b: nat)
    requires WellFormed(c) && Racing(c, st, b) && s < c.size && d < c.size && d != b
    requires s < |st[d].got| && s < |st[d].recvs| && st[d].got[s] < |st[d].recvs[s]| <= AllData(c, s, d)
    ensures CanRace(c, st, b)
  {
    SenderRaces(c, st, s, d, b);
    if |st[s].out[d]| >= AllData(c, s, d) {
      DeliveryReady(c, st, s, d);
      assert Enabled(c, st, Delivery(s, d, [])) && Allowed(Delivery(s, d, []), b);
    }
  }

  lemma FirstRaces(c: Config, st: State, b: nat)
    requires WellFormed(c) && Racing(c, st, b) && b != 1 && st[1].pc != DigestSent && st[1].pc != Done
    ensures CanRace(c, st, b)
  {
    if st[1].pc.Waiting? { WaiterRaces(c, st, 1, b); } else { RankRaces(c, st, 1, b); }
  }

  /** If rank 0 is not the one held back, it comes to take rank 1's digest. */
  lemma RootRaces(c: Config, st: State, b: nat)
    requires WellFormed(c) && Racing(c, st, b) && b > 1 && st[1].pc == DigestSent
    ensures CanRace(c, st, b)
  {
    assert RankOk(c, 0, st[0]) && RankOk(c, 1, st[1]) && PairOk(st[1], st[0], 1, 0);
    assert |st[1].out[0]| == OutLen(c, 1, 0, st[1].pc);
    assert |st[0].recvs[1]| == RecvLen(c, 0, 1, st[0].pc);
    assert AllArrived(st, c.repeat) by {
      assert forall j :: 0 <= j < c.size ==> st[j].arrived >= Passed(c, st[1].pc);
    }
    assert Settled(c, 0, 1, st[0].pc) <= st[0].got[1] <= |st[0].recvs[1]|;
    if st[0].got[1] == |st[1].out[0]| {
      RankRaces(c, st, 1, b);
    } else if st[0].pc.Waiting? {
      WaiterRaces(c, st, 0, b);
    } else if st[0].pc.DigestWait? && !OneReceived(st[0], st[0].pc.src) {
      DeliveryReady(c, st, 1, 0);
      assert Enabled(c, st, Delivery(1, 0, [])) && Allowed(Delivery(1, 0, []), b);
    } else {
      RankRaces(c, st, 0, b);
    }
  }

  /** Where the race ends: with rank 1's digest sent if rank 0 is held back, else with rank 1 done. */
  predicate RaceOver(pc: Pc, b: nat) { pc == Done || (b == 0 && pc == DigestSent) }

  lemma RaceGoesOn(c: Config, st: State, b: nat) returns (step: Step)
    requires WellFormed(c) && Racing(c, st, b) && b != 1 && !RaceOver(st[1].pc, b)
    ensures Enabled(c, st, step) && Allowed(step, b)
  {
    if st[1].pc == DigestSent { RootRaces(c, st, b); } else { FirstRaces(c, st, b); }
    step :| Enabled(c, st, step) && Allowed(step, b);
  }

  ghost predicate RaceRun(c: Config, states: seq<State>, steps: seq<Step>, b: nat)
    requires c.repeat > 0
  {
    IsRun(c, states, steps) && Synchronous(steps) && Racing(c, states[|steps|], b)
  }

  lemma RaceExtends(c: Config, states: seq<State>, steps: seq<Step>, b: nat, step: Step)
    requires WellFormed(c) && RaceRun(c, states, steps, b) && b != 1
    requires Enabled(c, states[|steps|], step) && Allowed(step, b)
    ensures RaceRun(c, states + [Next(c, states[|steps|], step)], steps + [step], b)
  {
    ExtendRun(c, states, steps, step);
    SynchronousGrows(steps, step);
    RaceStep(c, states[|steps|], b, step);
  }

  lemma {:induction false} Race(c: Config, states: seq<State>, steps: seq<Step>, b: nat)
    returns (all: seq<State>, rest: seq<Step>)
    requires WellFormed(c) && RaceRun(c, states, steps, b) && b != 1
    ensures RaceRun(c, all, rest, b) && RaceOver(all[|rest|][1].pc, b)
    decreases StepBound(c) + 1 - |steps|
  {
    var st := states[|steps|];
    if RaceOver(st[1].pc, b) {
      return states, steps;
    }
    RunsTerminate(c, states, steps);
    var step := RaceGoesOn(c, st, b);
    RaceExtends(c, states, steps, b, step);
    all, rest := Race(c, states + [Next(c, st, step)], steps + [step], b);
  }

  lemma WholeRace(c: Config, b: nat) returns (states: seq<State>, steps: seq<Step>)
    requires WellFormed(c) && 1 < c.size && b < c.size && b != 1
    ensures RaceRun(c, states, steps, b) && RaceOver(states[|steps|][1].pc, b)
  {
    states, steps := [Start(c)], [];
    states, steps := ReachLastRound(c, states, steps);
    RunInv(c, states, steps, |steps|);
    RaceBegins(c, states[|steps|], b);
    states, steps := Race(c, states, steps, b);
  }

  /** What the race leaves: rank 1 has returned, and the first send of its last round to `b` is
      unread. */
  ghost predicate Dangling(c: Config, st: State, b: nat)
    requires c.repeat > 0
  {
    Racing(c, st, b) && st[1].pc == Done && Unread(st, 1, b, Mark(c, b))
  }

  lemma RaceDangles(c: Config, st: State, b: nat)
    requires WellFormed(c) && Racing(c, st, b) && b != 1 && Sel(c, 1, b) && st[1].pc == Done
    ensures Dangling(c, st, b)
  {
    assert RankOk(c, 1, st[1]);
    assert |st[1].out[b]| == OutLen(c, 1, b, st[1].pc);
  }

  /** `MPI_Send` returns as soon as it has buffered the digest. */
  lemma EarlyRace(c: Config, st: State)
    requires WellFormed(c) && Racing(c, st, 0) && st[1].pc == DigestSent
    ensures Racing(c, Next(c, st, EarlyReturn(1)), 0)
  {
    StepKeeps(c, st, EarlyReturn(1));
  }

  lemma DanglingRun(c: Config, b: nat) returns (states: seq<State>, steps: seq<Step>)
    requires WellFormed(c) && 1 < c.size && b < c.size && b != 1 && Sel(c, 1, b)
    ensures IsRun(c, states, steps) && (b != 0 ==> Synchronous(steps)) && Dangling(c, states[|steps|], b)
  {
    states, steps := WholeRace(c, b);
    var st := states[|steps|];
    if st[1].pc == DigestSent {
      EarlyRace(c, st);
      ExtendRun(c, states, steps, EarlyReturn(1));
      states, steps := states + [Next(c, st, EarlyReturn(1))], steps + [EarlyReturn(1)];
    }
    RaceDangles(c, states[|steps|], b);
  }

  // ----- Exactly when a release is safe -----

  ghost predicate ReleaseSafe(c: Config) {
    forall states, steps :: IsRun(c, states, steps) ==> NothingDangles(states[|steps|])
  }

  ghost predicate ReleaseSafeIfSynchronous(c: Config) {
    forall states, steps :: IsRun(c, states, steps) && Synchronous(steps) ==> NothingDangles(states[|steps|])
  }

  /** No run releases a buffer with an unread send exactly in direction 1-N or with one rank; if
      `MPI_Send` never returns early, exactly in the directions 1-N and N-1 or with at most two
      ranks. */
  lemma ReleaseSafeIff(c: Config)
    requires WellFormed(c)
    ensures ReleaseSafe(c) <==> c.dir == DirOut || c.size == 1
    ensures ReleaseSafeIfSynchronous(c) <==> c.dir != DirBoth || c.size <= 2
  {
    forall states, steps | IsRun(c, states, steps) && Careful(c, steps) ensures NothingDangles(states[|steps|]) {
      CarefulIsSafe(c, states, steps, |steps|);
    }
    if c.dir != DirOut && c.size > 1 {
      var states, steps := DanglingRun(c, 0);
      assert Released(states[|steps|][1]);
    }
    if c.dir == DirBoth && c.size > 2 {
      var states, steps := DanglingRun(c, 2);
      assert Released(states[|steps|][1]);
    }
  }

  // ----- Exactly when equal packets stay equal -----

  /** The rank that is held back is in its last round and can go on until it has posted the receive. */
  lemma ReceiverPosts(c: Config, st: State, b: nat)
    requires WellFormed(c) && Dangling(c, st, b) && b != 1
    ensures RankOk(c, b, st[b]) && !Released(st[b]) && (|st[b].recvs[1]| > Mark(c, b) || ProgramCan(c, st, b))
  {
    assert RankOk(c, b, st[b]) && RankOk(c, 1, st[1]);
    assert |st[1].out[b]| == OutLen(c, 1, b, st[1].pc) && OutOk(c, 1, b, st[1].out[b]);
    assert MsgOk(c, 1, b, Mark(c, b), st[1].out[b][Mark(c, b)]);
    assert Settled(c, b, 1, st[b].pc) <= st[b].got[1] && |st[b].recvs[1]| == RecvLen(c, b, 1, st[b].pc);
    assert AllArrived(st, c.repeat) by {
      assert forall j :: 0 <= j < c.size ==> st[j].arrived >= Passed(c, st[1].pc);
    }
  }

  lemma DanglingStep(c: Config, st: State, b: nat)
    requires WellFormed(c) && Dangling(c, st, b) && b != 1 && ProgramCan(c, st, b)
    ensures Dangling(c, Next(c, st, Program(b)), b)
  {
    RaceStep(c, st, b, Program(b));
  }

  lemma {:induction false} PostTheReceive(c: Config, states: seq<State>, steps: seq<Step>, b: nat)
    returns (all: seq<State>, rest: seq<Step>)
    requires WellFormed(c) && IsRun(c, states, steps) && Dangling(c, states[|steps|], b) && b != 1
    ensures IsRun(c, all, rest) && (Synchronous(steps) ==> Synchronous(rest)) && Dangling(c, all[|rest|], b)
    ensures var y := all[|rest|][b]; 1 < |y.recvs| && |y.recvs[1]| > Mark(c, b)
    decreases StepBound(c) + 1 - |steps|
  {
    var st := states[|steps|];
    ReceiverPosts(c, st, b);
    if |st[b].recvs[1]| > Mark(c, b) {
      return states, steps;
    }
    RunsTerminate(c, states, steps);
    DanglingStep(c, st, b);
    ExtendRun(c, states, steps, Program(b));
    all, rest := PostTheReceive(c, states + [Next(c, st, Program(b))], steps + [Program(b)], b);
  }

  /** Something else of the same length. */
  function Other(s: seq<byte>): (r: seq<byte>)
    requires |s| > 0
    ensures |r| == |s| && r != s
  {
    var r := s[0 := if s[0] == 0 then 1 else 0];
    assert r[0] != s[0];
    r
  }

  lemma JunkArrives(c: Config, st: State, b: nat, junk: seq<byte>)
    requires WellFormed(c) && Dangling(c, st, b) && b != 1 && |junk| == c.length
    requires 1 < |st[b].recvs| && |st[b].recvs[1]| > Mark(c, b)
    ensures CanDeliver(c, st, 1, b) && !Released(st[b])
    ensures SlotBytes(c, Deliver(c, st, 1, b, junk).buf, SlotOf(Mark(c, b), c.count)) == junk
  {
    ReceiverPosts(c, st, b);
    DeliveryReady(c, st, 1, b);
    assert RankOk(c, 1, st[1]) && OutOk(c, 1, b, st[1].out[b]) && RecvsOk(c, 1, b, st[b].recvs[1]);
    assert MsgOk(c, 1, b, Mark(c, b), st[1].out[b][Mark(c, b)]);
    var n := SlotOf(Mark(c, b), c.count);
    PutSlot(c, st[b].buf, n, junk, n);
  }

  /** A run that ends with rank `b`, still at work, holding bytes that no rank ever had there. */
  lemma SpoiledRun(c: Config, b: nat) returns (states: seq<State>, steps: seq<Step>)
    requires WellFormed(c) && 1 < c.size && b < c.size && b != 1 && Sel(c, 1, b)
    ensures IsRun(c, states, steps) && (b != 0 ==> Synchronous(steps)) && |states[|steps|]| == c.size
    ensures var y := states[|steps|][b]; !Released(y) && y.buf != c.bufs[0]
  {
    states, steps := DanglingRun(c, b);
    states, steps := PostTheReceive(c, states, steps, b);
    var st, n := states[|steps|], SlotOf(Mark(c, b), c.count);
    SlotFits(c, n);
    var junk := Other(SlotBytes(c, c.bufs[0], n));
    JunkArrives(c, st, b, junk);
    var step := Delivery(1, b, junk);
    ExtendRun(c, states, steps, step);
    states, steps := states + [Next(c, st, step)], steps + [step];
  }

  ghost predicate AllHold(c: Config, st: State)
    requires |c.bufs| > 0
  {
    forall i :: 0 <= i < |st| && !Released(st[i]) ==> st[i].buf == c.bufs[0]
  }

  ghost predicate EqualStays(c: Config)
    requires |c.bufs| > 0
  {
    forall states, steps :: IsRun(c, states, steps) ==> AllHold(c, states[|steps|])
  }

  ghost predicate EqualStaysIfSynchronous(c: Config)
    requires |c.bufs| > 0
  {
    forall states, steps :: IsRun(c, states, steps) && Synchronous(steps) ==> AllHold(c, states[|steps|])
  }

  lemma CarefulHolds(c: Config, states: seq<State>, steps: seq<Step>)
    requires WellFormed(c) && Careful(c, steps) && IsRun(c, states, steps)
    requires forall j :: 0 <= j < c.size ==> c.bufs[j] == c.bufs[0]
    ensures AllHold(c, states[|steps|])
  {
    var st := states[|steps|];
    RunInv(c, states, steps, |steps|);
    forall i | 0 <= i < |st| ensures st[i].buf == c.bufs[0] {
      EqualBuffersStayEqual(c, states, steps, |steps|, i);
    }
  }

  /** Ranks that begin with one packet keep it in every run exactly when the releases are safe. */
  lemma EqualBuffersIff(c: Config)
    requires WellFormed(c) && forall j :: 0 <= j < c.size ==> c.bufs[j] == c.bufs[0]
    ensures EqualStays(c) <==> c.dir == DirOut || c.size == 1
    ensures EqualStaysIfSynchronous(c) <==> c.dir != DirBoth || c.size <= 2
  {
    forall states, steps | IsRun(c, states, steps) && Careful(c, steps) ensures AllHold(c, states[|steps|]) {
      CarefulHolds(c, states, steps);
    }
    if c.dir != DirOut && c.size > 1 {
      var states, steps := SpoiledRun(c, 0);
      assert !AllHold(c, states[|steps|]);
    }
    if c.dir == DirBoth && c.size > 2 {
      var states, steps := SpoiledRun(c, 2);
      assert !AllHold(c, states[|steps|]);
    }
  }
}
