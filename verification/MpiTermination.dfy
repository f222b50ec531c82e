/** Every step of the N-rank run adds to a counter that is bounded in advance. */
module MpiTermination {
  import opened Memory
  import opened MpiRun
  import opened MpiInvariant
  import opened MpiSteps
  import opened MpiRelease
  import opened MpiContent
  import opened MpiLiveness

  // ----- One rank -----

  function RoundSteps(c: Config, i: nat): nat { |SendPlan(c, i)| + |RecvPlan(c, i)| + 5 }

  /** Program steps taken by rank `i` before it stands at `pc`. */
  function PcSteps(c: Config, i: nat, pc: Pc): nat {
    var s, p := |SendPlan(c, i)|, RoundSteps(c, i);
    match pc
    case AtBarrier(r) => Times(r, p)
    case InBarrier(r) => Times(r, p) + 1
    case Sending(r, k) => Times(r, p) + 2 + k
    case Posting(r, k) => Times(r, p) + 3 + s + k
    case Waiting(r) => Times(r, p) + 4 + s + |RecvPlan(c, i)|
    case DigestPost(src) => Times(c.repeat, p) + 2 * src
    case DigestWait(src) => Times(c.repeat, p) + 2 * src + 1
    case DigestSend => Times(c.repeat, p)
    case DigestSent => Times(c.repeat, p) + 1
    case Mismatch(_) => Times(c.repeat, p) + 2 * c.size + 1
    case Done => Times(c.repeat, p) + 2 * c.size + 2
  }

  lemma ProgramAdvances(c: Config, st: State, i: nat)
    requires WellFormed(c) && ProgramCan(c, st, i) && PcOk(c, i, st[i].pc)
    ensures PcSteps(c, i, ProgramStep(c, st, i).pc) > PcSteps(c, i, st[i].pc)
  {}

  lemma PcStepsBound(c: Config, i: nat, pc: Pc)
    requires PcOk(c, i, pc)
    ensures PcSteps(c, i, pc) <= Times(c.repeat, RoundSteps(c, i)) + 2 * c.size + 2
  {
    if InRound(pc) { TimesGrow(pc.r + 1, c.repeat, RoundSteps(c, i)); }
  }

  function Total(s: seq<nat>): nat {
    if |s| == 0 then 0 else Total(s[..|s| - 1]) + s[|s| - 1]
  }

  function Captures(out: seq<Msg>): nat {
    if |out| == 0 then 0 else Captures(out[..|out| - 1]) + if out[|out| - 1].Captured? then 1 else 0
  }

  function AllCaptures(out: seq<seq<Msg>>): nat {
    if |out| == 0 then 0 else AllCaptures(out[..|out| - 1]) + Captures(out[|out| - 1])
  }

  lemma {:induction false} TotalUpdate(s: seq<nat>, i: nat, v: nat)
    requires i < |s|
    ensures Total(s[i := v]) == Total(s) - s[i] + v
    ensures Total(s) >= s[i]
  {
    var n := |s| - 1;
    if i < n {
      TotalUpdate(s[..n], i, v);
      assert s[i := v][..n] == s[..n][i := v];
    } else {
      assert s[i := v][..n] == s[..n];
    }
  }

  lemma {:induction false} TotalBound(s: seq<nat>, b: nat)
    requires forall i :: 0 <= i < |s| ==> s[i] <= b
    ensures Total(s) <= Times(|s|, b)
  {
    if |s| > 0 { TotalBound(s[..|s| - 1], b); }
  }

  lemma {:induction false} CapturesUpdate(out: seq<Msg>, k: nat, m: Msg)
    requires k < |out| && out[k].Pending? && m.Captured?
    ensures Captures(out[k := m]) == Captures(out) + 1
  {
    var n := |out| - 1;
    if k < n {
      CapturesUpdate(out[..n], k, m);
      assert out[k := m][..n] == out[..n][k := m];
    } else {
      assert out[k := m][..n] == out[..n];
    }
  }

  lemma CapturesSnoc(out: seq<Msg>, m: Msg)
    ensures Captures(out + [m]) >= Captures(out)
  {
    assert (out + [m])[..|out|] == out;
  }

  lemma {:induction false} CapturesBound(out: seq<Msg>)
    ensures Captures(out) <= |out|
  {
    if |out| > 0 { CapturesBound(out[..|out| - 1]); }
  }

  lemma {:induction false} AllCapturesUpdate(out: seq<seq<Msg>>, d: nat, ms: seq<Msg>)
    requires d < |out|
    ensures AllCaptures(out[d := ms]) == AllCaptures(out) - Captures(out[d]) + Captures(ms)
    ensures AllCaptures(out) >= Captures(out[d])
  {
    var n := |out| - 1;
    if d < n {
      AllCapturesUpdate(out[..n], d, ms);
      assert out[d := ms][..n] == out[..n][d := ms];
    } else {
      assert out[d := ms][..n] == out[..n];
    }
  }

  lemma {:induction false} AllCapturesBound(out: seq<seq<Msg>>, b: nat)
    requires forall d :: 0 <= d < |out| ==> |out[d]| <= b
    ensures AllCaptures(out) <= Times(|out|, b)
  {
    if |out| > 0 {
      AllCapturesBound(out[..|out| - 1], b);
      CapturesBound(out[|out| - 1]);
    }
  }

  function RankProgress(c: Config, i: nat, x: Rank): nat {
    PcSteps(c, i, x.pc) + Total(x.got) + AllCaptures(x.out)
  }

  lemma SendCaptures(x: Rank, d: nat, m: Msg)
    ensures AllCaptures(Send(x, d, m).out) >= AllCaptures(x.out)
  {
    if d < |x.out| {
      AllCapturesUpdate(x.out, d, x.out[d] + [m]);
      CapturesSnoc(x.out[d], m);
    }
  }

  lemma RankAdvances(c: Config, st: State, step: Step)
    requires WellFormed(c) && Inv(c, st) && Enabled(c, st, step)
    ensures var m := Mover(step); RankProgress(c, m, Moved(c, st, step)) > RankProgress(c, m, st[m])
  {
    var m := Mover(step);
    assert RankOk(c, m, st[m]);
    if step.Program? {
      ProgramAdvances(c, st, m);
      ProgramCaptures(c, st, m);
    } else if step.EarlyReturn? {
      EarlyReturnAdvances(c, m, st[m]);
    } else if step.Delivery? {
      DeliveryAdvances(c, st, step.s, step.d, step.junk);
    } else {
      CopyAdvances(c, st, step.s, step.d, step.k, step.junk);
    }
  }

  lemma EarlyReturnAdvances(c: Config, i: nat, x: Rank)
    requires c.size > 0 && x.pc == DigestSent
    ensures RankProgress(c, i, x.(pc := Done)) > RankProgress(c, i, x)
  {}

  lemma DeliveryAdvances(c: Config, st: State, s: nat, d: nat, junk: seq<byte>)
    requires CanDeliver(c, st, s, d)
    ensures RankProgress(c, d, Deliver(c, st, s, d, junk)) > RankProgress(c, d, st[d])
  {
    TotalUpdate(st[d].got, s, st[d].got[s] + 1);
  }

  lemma CopyAdvances(c: Config, st: State, s: nat, d: nat, k: nat, junk: seq<byte>)
    requires Unread(st, s, d, k)
    ensures AllCaptures(Capture(c, st, s, d, k, junk).out) == AllCaptures(st[s].out) + 1
  {
    var x := st[s];
    var n := x.out[d][k].slot;
    var m := Captured(n, ReadSlot(c, x, n, junk));
    AllCapturesUpdate(x.out, d, x.out[d][k := m]);
    CapturesUpdate(x.out[d], k, m);
  }

  lemma ProgramCaptures(c: Config, st: State, i: nat)
    requires ProgramCan(c, st, i)
    ensures var x' := ProgramStep(c, st, i); AllCaptures(x'.out) >= AllCaptures(st[i].out) && x'.got == st[i].got
  {
    var x := st[i];
    if x.pc.Sending? && x.pc.k < |SendPlan(c, i)| {
      var issue := SendPlan(c, i)[x.pc.k];
      SendCaptures(x, issue.peer, Pending(issue.slot));
    } else if x.pc.DigestSend? {
      SendCaptures(x, 0, Digest(c.sha(x.buf)));
    }
  }

  // ----- All ranks -----

  /** What one rank can ever do: its program steps, a delivery and a copy per message. */
  function RankBound(c: Config, i: nat): nat {
    Times(c.repeat, RoundSteps(c, i)) + 2 * c.size + 2 + 2 * Times(c.size, Times(c.repeat, c.count) + 1)
  }

  /** Events so far, rank by rank, and their limits. */
  function Profile(c: Config, st: State): (r: seq<nat>)
    ensures |r| == |st| && forall i :: 0 <= i < |st| ==> r[i] == RankProgress(c, i, st[i])
  {
    seq(|st|, i requires 0 <= i < |st| => RankProgress(c, i, st[i]))
  }

  function Limits(c: Config): (r: seq<nat>)
    ensures |r| == c.size && forall i :: 0 <= i < c.size ==> r[i] == RankBound(c, i)
  {
    seq(c.size, i requires 0 <= i < c.size => RankBound(c, i))
  }

  function StepBound(c: Config): nat { Total(Limits(c)) }

  lemma {:induction false} TotalMonotone(a: seq<nat>, b: seq<nat>)
    requires |a| == |b| && forall i :: 0 <= i < |a| ==> a[i] <= b[i]
    ensures Total(a) <= Total(b)
  {
    if |a| > 0 { TotalMonotone(a[..|a| - 1], b[..|b| - 1]); }
  }

  lemma StepAdvances(c: Config, st: State, step: Step)
    requires WellFormed(c) && Inv(c, st) && Enabled(c, st, step)
    ensures Total(Profile(c, Next(c, st, step))) > Total(Profile(c, st))
  {
    var m := Mover(step);
    RankAdvances(c, st, step);
    var p, p' := Profile(c, st), Profile(c, Next(c, st, step));
    assert p' == p[m := p'[m]];
    TotalUpdate(p, m, p'[m]);
  }

  lemma RankProgressBound(c: Config, i: nat, x: Rank)
    requires WellFormed(c) && RankOk(c, i, x)
    ensures RankProgress(c, i, x) <= RankBound(c, i)
  {
    PcStepsBound(c, i, x.pc);
    var b := Times(c.repeat, c.count) + 1;
    forall s | 0 <= s < c.size ensures x.got[s] <= b && |x.out[s]| <= b {
      if InRound(x.pc) {
        SendsBound(c, i, s, x.pc);
        RecvsBound(c, i, s, x.pc);
      }
      assert x.got[s] <= |x.recvs[s]| == RecvLen(c, i, s, x.pc) && |x.out[s]| == OutLen(c, i, s, x.pc);
    }
    TotalBound(x.got, b);
    AllCapturesBound(x.out, b);
  }

  lemma ProgressBound(c: Config, st: State)
    requires WellFormed(c) && Inv(c, st)
    ensures Total(Profile(c, st)) <= StepBound(c)
  {
    forall i | 0 <= i < c.size ensures Profile(c, st)[i] <= Limits(c)[i] {
      assert RankOk(c, i, st[i]);
      RankProgressBound(c, i, st[i]);
    }
    TotalMonotone(Profile(c, st), Limits(c));
  }

  lemma RunStepAdvances(c: Config, states: seq<State>, steps: seq<Step>, i: nat)
    requires WellFormed(c) && IsRun(c, states, steps) && i < |steps|
    ensures Total(Profile(c, states[i + 1])) > Total(Profile(c, states[i]))
  {
    RunInv(c, states, steps, i);
    StepAdvances(c, states[i], steps[i]);
  }

  lemma {:induction false} RunProgress(c: Config, states: seq<State>, steps: seq<Step>, i: nat)
    requires WellFormed(c) && IsRun(c, states, steps) && i < |states|
    ensures Total(Profile(c, states[i])) >= i
  {
    if i > 0 {
      RunProgress(c, states, steps, i - 1);
      RunStepAdvances(c, states, steps, i - 1);
    }
  }

  /** Every run has at most `StepBound` steps. A run that cannot go on has either all ranks done,
      or rank 0 has reported a mismatch, the ranks it had heard from are done and the others are
      held in `MPI_Send`. With equal packets, or in direction 1-N, there is no mismatch as long as
      the releases are safe. */
  lemma RunsTerminate(c: Config, states: seq<State>, steps: seq<Step>)
    requires WellFormed(c) && IsRun(c, states, steps)
    ensures |steps| <= StepBound(c)
    ensures var st := states[|steps|];
            Final(st) || StoppedByMismatch(st) || exists step :: Enabled(c, st, step) && !step.EarlyReturn?
    ensures Uniform(c) && Careful(c, steps) ==> !Mismatched(states[|steps|])
  {
    var n := |steps|;
    RunInv(c, states, steps, n);
    RunProgress(c, states, steps, n);
    ProgressBound(c, states[n]);
    if !Final(states[n]) && !StoppedByMismatch(states[n]) { NoDeadlock(c, states[n]); }
    if Uniform(c) && Careful(c, steps) { NoMismatch(c, states, steps, n); }
  }

  /** With a synchronous `MPI_Send` a mismatch holds exactly the ranks after the one it names. */
  lemma MismatchHolds(c: Config, states: seq<State>, steps: seq<Step>, i: nat)
    requires WellFormed(c) && IsRun(c, states, steps) && Synchronous(steps) && 0 < i < c.size
    requires StoppedByMismatch(states[|steps|]) && |states[|steps|]| == c.size
    ensures var st := states[|steps|]; st[i].pc == if i <= st[0].pc.src then Done else DigestSent
  {
    var st := states[|steps|];
    RunInv(c, states, steps, |steps|);
    RunSentInFull(c, states, steps, |steps|);
    assert RankOk(c, i, st[i]) && RankOk(c, 0, st[0]);
    assert st[0].got[i] <= |st[0].recvs[i]| == RecvLen(c, 0, i, st[0].pc);
    assert |st[i].out[0]| == OutLen(c, i, 0, st[i].pc);
  }

  lemma ExtendRun(c: Config, states: seq<State>, steps: seq<Step>, step: Step)
    requires IsRun(c, states, steps) && Enabled(c, states[|steps|], step)
    ensures IsRun(c, states + [Next(c, states[|steps|], step)], steps + [step])
  {}

  /** Every run can be completed, without any further send being buffered, to one in which all
      ranks are done or a mismatch holds the rest; with equal packets, or in direction 1-N, all
      ranks are done as long as the releases are safe. */
  lemma {:induction false} RunCompletes(c: Config, states: seq<State>, steps: seq<Step>)
    returns (all: seq<State>, rest: seq<Step>)
    requires WellFormed(c) && IsRun(c, states, steps)
    ensures IsRun(c, all, rest) && states <= all && steps <= rest
    ensures Final(all[|rest|]) || StoppedByMismatch(all[|rest|])
    ensures forall i :: |steps| <= i < |rest| ==> !rest[i].EarlyReturn?
    ensures Uniform(c) && Careful(c, steps) ==> Final(all[|rest|])
    decreases StepBound(c) + 1 - |steps|
  {
    var n := |steps|;
    RunsTerminate(c, states, steps);
    if Final(states[n]) || StoppedByMismatch(states[n]) {
      return states, steps;
    }
    var step :| Enabled(c, states[n], step) && !step.EarlyReturn?;
    ExtendRun(c, states, steps, step);
    all, rest := RunCompletes(c, states + [Next(c, states[n], step)], steps + [step]);
    assert rest[n] == (steps + [step])[n];
  }
}
