/** Safety of whole N-rank runs: round skew, channel contents, phase separation. */
module MpiTheorems {
  import opened Memory
  import opened MpiPlan
  import opened MpiRun
  import opened MpiInvariant
  import opened MpiSteps

  function RoundOf(c: Config, pc: Pc): nat {
    match pc
    case AtBarrier(r) => r
    case InBarrier(r) => r
    case Sending(r, _) => r
    case Posting(r, _) => r
    case Waiting(r) => r
    case _ => c.repeat
  }

  /** The barrier keeps any two ranks within one round of each other. */
  lemma RoundSkew(c: Config, states: seq<State>, steps: seq<Step>, n: nat, i: nat, j: nat)
    requires WellFormed(c) && IsRun(c, states, steps) && n < |states| && i < c.size && j < c.size
    ensures |states[n]| == c.size
    ensures RoundOf(c, states[n][i].pc) <= RoundOf(c, states[n][j].pc) + 1
  {
    RunInv(c, states, steps, n);
    var st := states[n];
    assert RankOk(c, i, st[i]) && RankOk(c, j, st[j]);
    assert st[j].arrived >= Passed(c, st[i].pc);
  }

  predicate AtSomeBarrier(pc: Pc) { pc.AtBarrier? || pc.InBarrier? }

  /** Between two ranks that both stand at a barrier, what is in flight is exactly the rounds the
      sender is ahead. So the channel is empty exactly when nothing is ever sent on it or both
      stand at the same barrier. */
  lemma InFlightAtBarriers(c: Config, states: seq<State>, steps: seq<Step>, n: nat, s: nat, d: nat)
    requires WellFormed(c) && IsRun(c, states, steps) && n < |states| && s < c.size && d < c.size
    requires |states[n]| == c.size && AtSomeBarrier(states[n][s].pc) && AtSomeBarrier(states[n][d].pc)
    ensures var x, y := states[n][s], states[n][d];
            && d < |x.out| && s < |y.got|
            && |x.out[d]| - y.got[s] == DataIn(c, s, d, x.pc.r) - DataIn(c, s, d, y.pc.r)
            && (|x.out[d]| == y.got[s] <==> !Sel(c, s, d) || x.pc.r == y.pc.r)
  {
    RunInv(c, states, steps, n);
    var st := states[n];
    assert RankOk(c, s, st[s]) && RankOk(c, d, st[d]);
    var q, r := st[s].pc.r, st[d].pc.r;
    if q < r { TimesGrow(q + 1, r, c.count); }
    if r < q { TimesGrow(r + 1, q, c.count); }
  }

  /** Everything `s` has sent to `d` has been received. */
  ghost predicate Drained(st: State, s: nat, d: nat) {
    s < |st| && d < |st| && d < |st[s].out| && s < |st[d].got| && |st[s].out[d]| == st[d].got[s]
  }

  /** When all ranks stand at the same barrier, every channel is empty. */
  lemma ChannelsEmptyAtBarrier(c: Config, states: seq<State>, steps: seq<Step>, n: nat, r: nat)
    requires WellFormed(c) && IsRun(c, states, steps) && n < |states| && |states[n]| == c.size
    requires forall i :: 0 <= i < c.size ==> states[n][i].pc == AtBarrier(r) || states[n][i].pc == InBarrier(r)
    ensures forall s, d :: 0 <= s < c.size && 0 <= d < c.size ==> Drained(states[n], s, d)
  {
    forall s, d | 0 <= s < c.size && 0 <= d < c.size ensures Drained(states[n], s, d) {
      InFlightAtBarriers(c, states, steps, n, s, d);
    }
  }

  /** At every delivery of every run the message and the receive belong together, although both
      kinds use the same tag: a receive for slot `n` takes data that was sent from slot `n`, and
      the receive for a digest takes the digest, once the rounds of both ranks are over. */
  lemma PhaseSeparation(c: Config, states: seq<State>, steps: seq<Step>, n: nat, s: nat, d: nat)
    requires WellFormed(c) && IsRun(c, states, steps) && n < |steps|
    requires steps[n].Delivery? && steps[n].s == s && steps[n].d == d
    ensures var st := states[n];
            && CanDeliver(c, st, s, d)
            && var k := st[d].got[s];
               var msg, recv := st[s].out[d][k], st[d].recvs[s][k];
               && recv == (if msg.Digest? then DigestVar else Slot(msg.slot))
               && (!msg.Digest? ==> k < AllData(c, s, d) && msg.slot == SlotOf(k, c.count))
               && (msg.Digest? ==>
                     && k == AllData(c, s, d) && d == 0 && s != 0
                     && !InRound(st[s].pc) && !InRound(st[0].pc))
  {
    RunInv(c, states, steps, n);
    var st := states[n];
    assert Enabled(c, st, steps[n]);
    assert RankOk(c, s, st[s]) && RankOk(c, d, st[d]);
    var k := st[d].got[s];
    assert |st[s].out[d]| == OutLen(c, s, d, st[s].pc) && OutOk(c, s, d, st[s].out[d]);
    assert |st[d].recvs[s]| == RecvLen(c, d, s, st[d].pc) && RecvsOk(c, s, d, st[d].recvs[s]);
    assert MsgOk(c, s, d, k, st[s].out[d][k]) && st[d].recvs[s][k] == SinkAt(c, s, d, k);
    if k >= AllData(c, s, d) {
      if InRound(st[s].pc) { SendsBound(c, s, d, st[s].pc); }
      if d != 0 || InRound(st[d].pc) { RecvsBound(c, d, s, st[d].pc); }
    }
  }

  // ----- A rank may be one barrier ahead -----

  /** Two ranks, two rounds of one byte, direction 1-N. */
  function TwoRanks(): Config {
    Config(2, 1, 1, 2, DirOut, [[1], [2]], _ => seq(DIGEST_LENGTH, _ => 0))
  }

  function RootAt(pc: Pc, arrived: nat, out: seq<Msg>): Rank {
    Rank(pc, arrived, [1], [[], out], [[], []], [0, 0], [])
  }

  function LeafAt(pc: Pc, arrived: nat): Rank {
    Rank(pc, arrived, [2], [[], []], [[], []], [0, 0], [])
  }

  lemma TwoRanksPlans()
    ensures SendPlan(TwoRanks(), 0) == [Issue(0, 1)] && RecvPlan(TwoRanks(), 0) == []
  {
    assert Row(0, HOST_NOSELF, 0, 0) == [];
    assert Row(0, HOST_NOSELF, 0, 1) == [];
    assert Row(0, HOST_NOSELF, 0, 2) == [Issue(0, 1)];
    assert Plan(2, 0, HOST_NOSELF, 0) == [];
  }

  /** Rank 0 goes through its first round while rank 1 only enters the first barrier. */
  function Ahead(n: nat): State {
    var sent := [Pending(0)];
    match n
    case 0 => [RootAt(AtBarrier(0), 0, []), LeafAt(AtBarrier(0), 0)]
    case 1 => [RootAt(InBarrier(0), 1, []), LeafAt(AtBarrier(0), 0)]
    case 2 => [RootAt(InBarrier(0), 1, []), LeafAt(InBarrier(0), 1)]
    case 3 => [RootAt(Sending(0, 0), 1, []), LeafAt(InBarrier(0), 1)]
    case 4 => [RootAt(Sending(0, 1), 1, sent), LeafAt(InBarrier(0), 1)]
    case 5 => [RootAt(Posting(0, 0), 1, sent), LeafAt(InBarrier(0), 1)]
    case 6 => [RootAt(Waiting(0), 1, sent), LeafAt(InBarrier(0), 1)]
    case _ => [RootAt(AtBarrier(1), 1, sent), LeafAt(InBarrier(0), 1)]
  }

  function AheadMove(n: nat): Step { Program(if n == 1 then 1 else 0) }

  lemma AheadStart()
    ensures Ahead(0) == Start(TwoRanks())
  {
    var c := TwoRanks();
    var x, y := StartRank(c, 0), StartRank(c, 1);
    assert x.out == [[], []] && x.recvs == [[], []] && x.got == [0, 0];
    assert y.out == [[], []] && y.recvs == [[], []] && y.got == [0, 0];
    assert x == RootAt(AtBarrier(0), 0, []) && y == LeafAt(AtBarrier(0), 0);
    assert Start(c) == [x, y];
  }

  lemma AheadSend()
    ensures ProgramCan(TwoRanks(), Ahead(3), 0)
    ensures ProgramStep(TwoRanks(), Ahead(3), 0) == RootAt(Sending(0, 1), 1, [Pending(0)])
  {
    TwoRanksPlans();
    var x := Ahead(3)[0];
    var one: seq<Msg> := [Pending(0)];
    assert x.out[1] + one == one;
    assert x.out[1 := one] == [[], one];
  }

  lemma AheadStep(n: nat)
    requires n < 7
    ensures Enabled(TwoRanks(), Ahead(n), AheadMove(n)) && Next(TwoRanks(), Ahead(n), AheadMove(n)) == Ahead(n + 1)
  {
    if n == 3 { AheadSend(); } else { TwoRanksPlans(); }
  }

  /** "All ranks are at a barrier" alone does not empty the channels: rank 0 only sends, so it
      reaches the second barrier while rank 1 is still inside the first. */
  lemma RootRunsAhead()
    ensures WellFormed(TwoRanks())
    ensures exists states: seq<State>, steps: seq<Step> ::
              IsRun(TwoRanks(), states, steps) && |states[|steps|]| == 2 &&
              (forall i :: 0 <= i < 2 ==> AtSomeBarrier(states[|steps|][i].pc)) && !Drained(states[|steps|], 0, 1)
  {
    var c := TwoRanks();
    assert Times(1, 1) == 1;
    var states, steps := seq(8, i requires 0 <= i < 8 => Ahead(i)), seq(7, i requires 0 <= i < 7 => AheadMove(i));
    AheadStart();
    forall i | 0 <= i < 7 ensures Enabled(c, states[i], steps[i]) && states[i + 1] == Next(c, states[i], steps[i]) {
      AheadStep(i);
    }
    assert IsRun(c, states, steps);
    assert states[7] == Ahead(7) && !Drained(Ahead(7), 0, 1);
  }
}
