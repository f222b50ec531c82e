/** Every enabled step of the N-rank run keeps the invariant. */
module MpiSteps {
  import opened Memory
  import opened MpiPlan
  import opened MpiRun
  import opened MpiInvariant

  // ----- Messages -----

  lemma CaptureOk(c: Config, st: State, s: nat, d: nat, k: nat, junk: seq<byte>)
    requires WellFormed(c) && Inv(c, st) && Unread(st, s, d, k)
    ensures RankOk(c, s, Capture(c, st, s, d, k, junk))
  {
    var x := st[s];
    assert RankOk(c, s, x);
    assert MsgOk(c, s, d, k, x.out[d][k]);
    SlotFits(c, x.out[d][k].slot);
    var x' := Capture(c, st, s, d, k, junk);
    assert Shape(c, s, x');
    assert ReceivesOk(c, s, x') by { assert ReceivesOk(c, s, x); }
    assert SendsOk(c, s, x') by {
      forall e | 0 <= e < c.size ensures |x'.out[e]| == OutLen(c, s, e, x'.pc) && OutOk(c, s, e, x'.out[e]) {
        assert |x.out[e]| == OutLen(c, s, e, x.pc) && OutOk(c, s, e, x.out[e]);
      }
    }
  }

  lemma SlotFits(c: Config, n: nat)
    requires n < c.count
    ensures Times(n, c.length) + c.length <= Times(c.count, c.length)
  {
    TimesGrow(n + 1, c.count, c.length);
  }

  lemma DeliverOk(c: Config, st: State, s: nat, d: nat, junk: seq<byte>)
    requires WellFormed(c) && Inv(c, st) && CanDeliver(c, st, s, d)
    ensures RankOk(c, d, Deliver(c, st, s, d, junk))
  {
    var y := st[d];
    assert RankOk(c, d, y);
    var y' := Deliver(c, st, s, d, junk);
    assert Shape(c, d, y');
    assert SendsOk(c, d, y') by { assert SendsOk(c, d, y); }
    assert ReceivesOk(c, d, y') by {
      forall e | 0 <= e < c.size
        ensures |y'.recvs[e]| == RecvLen(c, d, e, y'.pc) && RecvsOk(c, e, d, y'.recvs[e])
        ensures Settled(c, d, e, y'.pc) <= y'.got[e] <= |y'.recvs[e]|
      {
        assert |y.recvs[e]| == RecvLen(c, d, e, y.pc) && RecvsOk(c, e, d, y.recvs[e])
            && Settled(c, d, e, y.pc) <= y.got[e] <= |y.recvs[e]|;
      }
    }
  }

  // ----- One rank moves, the others stand still -----

  ghost predicate OutGrows(x: Rank, x': Rank) {
    |x.out| == |x'.out| && forall d :: 0 <= d < |x.out| ==> |x.out[d]| <= |x'.out[d]|
  }

  ghost predicate Backed(st: State, m: nat, got: seq<nat>)
    requires m < |st|
  {
    |got| == |st| && forall s :: 0 <= s < |st| ==> m < |st[s].out| && got[s] <= |st[s].out[m]|
  }

  lemma MoveKeeps(c: Config, st: State, m: nat, x': Rank)
    requires Inv(c, st) && m < c.size && RankOk(c, m, x')
    requires OutGrows(st[m], x') && Backed(st, m, x'.got)
    requires x'.arrived >= st[m].arrived && x'.arrived >= Passed(c, x'.pc)
    requires forall j :: 0 <= j < c.size ==> st[j].arrived >= Passed(c, x'.pc)
    ensures Inv(c, st[m := x'])
  {
    var st' := st[m := x'];
    forall s, d | 0 <= s < c.size && 0 <= d < c.size ensures PairOk(st'[s], st'[d], s, d) {
      assert PairOk(st[s], st[d], s, d);
    }
    forall i, j | 0 <= i < c.size && 0 <= j < c.size ensures st'[j].arrived >= Passed(c, st'[i].pc) {
      assert st[j].arrived >= Passed(c, st[i].pc);
    }
  }

  lemma GotBacked(c: Config, st: State, m: nat)
    requires Inv(c, st) && m < c.size
    ensures Backed(st, m, st[m].got)
  {
    forall s | 0 <= s < c.size ensures m < |st[s].out| && st[m].got[s] <= |st[s].out[m]| {
      assert PairOk(st[s], st[m], s, m);
    }
    assert RankOk(c, m, st[m]);
  }

  predicate InRound(pc: Pc) { pc.AtBarrier? || pc.InBarrier? || pc.Sending? || pc.Posting? || pc.Waiting? }

  lemma {:induction false} CountMonotone(plan: seq<Issue>, j: nat, k: nat, peer: nat)
    requires j <= k <= |plan|
    ensures CountTo(plan, j, peer) <= CountTo(plan, k, peer)
  {
    if j < k { CountMonotone(plan, j, k - 1, peer); }
  }

  /** While a rank is in its rounds it has sent data only. */
  lemma SendsBound(c: Config, s: nat, d: nat, pc: Pc)
    requires PcOk(c, s, pc) && d < c.size && InRound(pc)
    ensures OutLen(c, s, d, pc) <= AllData(c, s, d)
  {
    if pc.Sending? {
      CountMonotone(SendPlan(c, s), pc.k, |SendPlan(c, s)|, d);
      SendPlanTotal(c, s, d);
    }
    TimesGrow(pc.r, c.repeat, c.count);
    TimesGrow(pc.r + 1, c.repeat, c.count);
  }

  /** In its rounds, and on every rank but 0 always, a rank has posted receives for data only. */
  lemma RecvsBound(c: Config, d: nat, s: nat, pc: Pc)
    requires PcOk(c, d, pc) && s < c.size && (d != 0 || InRound(pc))
    ensures RecvLen(c, d, s, pc) <= AllData(c, s, d)
  {
    if pc.Posting? {
      CountMonotone(RecvPlan(c, d), pc.k, |RecvPlan(c, d)|, s);
      RecvPlanTotal(c, d, s);
    }
    if InRound(pc) {
      TimesGrow(pc.r, c.repeat, c.count);
      TimesGrow(pc.r + 1, c.repeat, c.count);
    }
  }

  lemma RoundRankOk(c: Config, st: State, i: nat)
    requires WellFormed(c) && ProgramCan(c, st, i) && RankOk(c, i, st[i]) && InRound(st[i].pc)
    ensures RankOk(c, i, ProgramStep(c, st, i))
  {
    var x := st[i];
    match x.pc
    case Sending(_, k) => if k < |SendPlan(c, i)| { SendStepOk(c, i, x); } else { LoopDoneOk(c, i, x); }
    case Posting(_, k) => if k < |RecvPlan(c, i)| { RecvStepOk(c, i, x); } else { LoopDoneOk(c, i, x); }
    case Waiting(_) => WaitDoneOk(c, i, x);
    case _ => BarrierStepOk(c, i, x);
  }

  lemma DigestRankOk(c: Config, st: State, i: nat)
    requires WellFormed(c) && ProgramCan(c, st, i) && RankOk(c, i, st[i]) && !InRound(st[i].pc)
    ensures RankOk(c, i, ProgramStep(c, st, i))
  {
    if i == 0 { DigestRootOk(c, st[i]); } else { DigestLeafOk(c, i, st[i]); }
  }

  lemma ProgramGrows(c: Config, st: State, i: nat)
    requires ProgramCan(c, st, i)
    ensures var x' := ProgramStep(c, st, i); OutGrows(st[i], x') && x'.got == st[i].got
  {}

  lemma ProgramBarrier(c: Config, st: State, i: nat)
    requires ProgramCan(c, st, i) && PcOk(c, i, st[i].pc) && st[i].arrived == ArrivedAt(c, st[i].pc)
    requires AllArrived(st, Passed(c, st[i].pc))
    ensures var x' := ProgramStep(c, st, i);
            && x'.arrived >= st[i].arrived && Passed(c, x'.pc) <= x'.arrived
            && AllArrived(st, Passed(c, x'.pc))
  {}

  lemma ProgramKeeps(c: Config, st: State, i: nat)
    requires WellFormed(c) && Inv(c, st) && ProgramCan(c, st, i)
    ensures Inv(c, st[i := ProgramStep(c, st, i)])
  {
    assert RankOk(c, i, st[i]);
    if InRound(st[i].pc) { RoundRankOk(c, st, i); } else { DigestRankOk(c, st, i); }
    ProgramGrows(c, st, i);
    ProgramBarrier(c, st, i);
    GotBacked(c, st, i);
    MoveKeeps(c, st, i, ProgramStep(c, st, i));
  }

  lemma EarlyReturnKeeps(c: Config, st: State, i: nat)
    requires WellFormed(c) && Inv(c, st) && i < |st| && st[i].pc == DigestSent
    ensures Inv(c, st[i := st[i].(pc := Done)])
  {
    assert RankOk(c, i, st[i]);
    DigestLeafOk(c, i, st[i]);
    GotBacked(c, st, i);
    MoveKeeps(c, st, i, st[i].(pc := Done));
  }

  lemma DeliveryKeeps(c: Config, st: State, s: nat, d: nat, junk: seq<byte>)
    requires WellFormed(c) && Inv(c, st) && CanDeliver(c, st, s, d)
    ensures Inv(c, st[d := Deliver(c, st, s, d, junk)])
  {
    assert RankOk(c, d, st[d]);
    DeliverOk(c, st, s, d, junk);
    GotBacked(c, st, d);
    MoveKeeps(c, st, d, Deliver(c, st, s, d, junk));
  }

  lemma CaptureKeeps(c: Config, st: State, s: nat, d: nat, k: nat, junk: seq<byte>)
    requires WellFormed(c) && Inv(c, st) && Unread(st, s, d, k)
    ensures Inv(c, st[s := Capture(c, st, s, d, k, junk)])
  {
    assert RankOk(c, s, st[s]);
    CaptureOk(c, st, s, d, k, junk);
    GotBacked(c, st, s);
    MoveKeeps(c, st, s, Capture(c, st, s, d, k, junk));
  }

  lemma StepKeeps(c: Config, st: State, step: Step)
    requires WellFormed(c) && Inv(c, st) && Enabled(c, st, step)
    ensures Inv(c, Next(c, st, step))
  {
    match step
    case Program(i) => ProgramKeeps(c, st, i);
    case EarlyReturn(i) => EarlyReturnKeeps(c, st, i);
    case Delivery(s, d, junk) => DeliveryKeeps(c, st, s, d, junk);
    case Copy(s, d, k, junk) => CaptureKeeps(c, st, s, d, k, junk);
  }

  lemma {:induction false} RunInv(c: Config, states: seq<State>, steps: seq<Step>, i: nat)
    requires WellFormed(c) && IsRun(c, states, steps) && i < |states|
    ensures Inv(c, states[i])
  {
    if i == 0 {
      StartInv(c);
    } else {
      RunInv(c, states, steps, i - 1);
      StepKeeps(c, states[i - 1], steps[i - 1]);
    }
  }
}
