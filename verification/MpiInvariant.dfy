/** What every step of the N-rank run keeps, for all configurations. */
module MpiInvariant {
  import opened Memory
  import opened MpiPlan
  import opened MpiRun

  // ----- Counters as functions of the program position -----

  predicate Sel(c: Config, s: nat, d: nat) { SendsTo(c.dir, s, d) }

  /** Data messages from `s` to `d` in `r` rounds. */
  function DataIn(c: Config, s: nat, d: nat, r: nat): nat { if Sel(c, s, d) then Times(r, c.count) else 0 }

  function AllData(c: Config, s: nat, d: nat): nat { DataIn(c, s, d, c.repeat) }

  predicate PcOk(c: Config, i: nat, pc: Pc) {
    match pc
    case AtBarrier(r) => r < c.repeat
    case InBarrier(r) => r < c.repeat
    case Sending(r, k) => r < c.repeat && k <= |SendPlan(c, i)|
    case Posting(r, k) => r < c.repeat && k <= |RecvPlan(c, i)|
    case Waiting(r) => r < c.repeat
    case DigestPost(src) => i == 0 && 1 <= src <= c.size
    case DigestWait(src) => i == 0 && 1 <= src < c.size
    case Mismatch(src) => i == 0 && 1 <= src < c.size
    case DigestSend => i != 0
    case DigestSent => i != 0
    case Done => true
  }

  /** Messages rank `s` has sent to `d`. */
  function OutLen(c: Config, s: nat, d: nat, pc: Pc): nat
    requires PcOk(c, s, pc)
  {
    match pc
    case AtBarrier(r) => DataIn(c, s, d, r)
    case InBarrier(r) => DataIn(c, s, d, r)
    case Sending(r, k) => DataIn(c, s, d, r) + CountTo(SendPlan(c, s), k, d)
    case Posting(r, _) => DataIn(c, s, d, r + 1)
    case Waiting(r) => DataIn(c, s, d, r + 1)
    case DigestSent => AllData(c, s, d) + if d == 0 then 1 else 0
    case Done => AllData(c, s, d) + if d == 0 && s != 0 then 1 else 0
    case _ => AllData(c, s, d)
  }

  /** Receives rank `d` has posted for `s`. */
  function RecvLen(c: Config, d: nat, s: nat, pc: Pc): nat
    requires PcOk(c, d, pc)
  {
    match pc
    case AtBarrier(r) => DataIn(c, s, d, r)
    case InBarrier(r) => DataIn(c, s, d, r)
    case Sending(r, _) => DataIn(c, s, d, r)
    case Posting(r, k) => DataIn(c, s, d, r) + CountTo(RecvPlan(c, d), k, s)
    case Waiting(r) => DataIn(c, s, d, r + 1)
    case DigestPost(src) => AllData(c, s, d) + if 1 <= s < src then 1 else 0
    case DigestWait(src) => AllData(c, s, d) + if 1 <= s <= src then 1 else 0
    case Mismatch(src) => AllData(c, s, d) + if 1 <= s <= src then 1 else 0
    case Done => AllData(c, s, d) + if d == 0 && 1 <= s then 1 else 0
    case _ => AllData(c, s, d)
  }

  /** Receives of `d` from `s` that must have completed. */
  function Settled(c: Config, d: nat, s: nat, pc: Pc): nat
    requires PcOk(c, d, pc)
  {
    match pc
    case Posting(r, _) => DataIn(c, s, d, r)
    case Waiting(r) => DataIn(c, s, d, r)
    case DigestWait(src) => AllData(c, s, d) + if 1 <= s < src then 1 else 0
    case _ => RecvLen(c, d, s, pc)
  }

  function ArrivedAt(c: Config, pc: Pc): nat {
    match pc
    case AtBarrier(r) => r
    case InBarrier(r) => r + 1
    case Sending(r, _) => r + 1
    case Posting(r, _) => r + 1
    case Waiting(r) => r + 1
    case _ => c.repeat
  }

  /** Barriers this rank has left. */
  function Passed(c: Config, pc: Pc): nat {
    match pc
    case AtBarrier(r) => r
    case InBarrier(r) => r
    case Sending(r, _) => r + 1
    case Posting(r, _) => r + 1
    case Waiting(r) => r + 1
    case _ => c.repeat
  }

  // ----- What a message and a receive may be, by position -----

  predicate MsgOk(c: Config, s: nat, d: nat, k: nat, m: Msg)
    requires c.count > 0
  {
    if k < AllData(c, s, d) then
      !m.Digest? && m.slot == SlotOf(k, c.count) && (m.Captured? ==> |m.bytes| == c.length)
    else
      m.Digest? && |m.bytes| == DIGEST_LENGTH
  }

  function SinkAt(c: Config, s: nat, d: nat, k: nat): Sink
    requires c.count > 0
  {
    if k < AllData(c, s, d) then Slot(SlotOf(k, c.count)) else DigestVar
  }

  ghost predicate OutOk(c: Config, s: nat, d: nat, out: seq<Msg>)
    requires c.count > 0
  {
    forall k :: 0 <= k < |out| ==> MsgOk(c, s, d, k, out[k])
  }

  ghost predicate RecvsOk(c: Config, s: nat, d: nat, recvs: seq<Sink>)
    requires c.count > 0
  {
    forall k :: 0 <= k < |recvs| ==> recvs[k] == SinkAt(c, s, d, k)
  }

  // ----- The invariant -----

  ghost predicate Shape(c: Config, i: nat, x: Rank) {
    && c.count > 0 && PcOk(c, i, x.pc)
    && |x.out| == c.size && |x.recvs| == c.size && |x.got| == c.size
    && |x.buf| == Times(c.count, c.length) && x.arrived == ArrivedAt(c, x.pc)
  }

  ghost predicate SendsOk(c: Config, i: nat, x: Rank)
    requires Shape(c, i, x)
  {
    forall d :: 0 <= d < c.size ==> |x.out[d]| == OutLen(c, i, d, x.pc) && OutOk(c, i, d, x.out[d])
  }

  ghost predicate ReceivesOk(c: Config, i: nat, x: Rank)
    requires Shape(c, i, x)
  {
    forall s :: 0 <= s < c.size ==>
      && |x.recvs[s]| == RecvLen(c, i, s, x.pc) && RecvsOk(c, s, i, x.recvs[s])
      && Settled(c, i, s, x.pc) <= x.got[s] <= |x.recvs[s]|
  }

  ghost predicate RankOk(c: Config, i: nat, x: Rank) {
    Shape(c, i, x) && SendsOk(c, i, x) && ReceivesOk(c, i, x)
  }

  /** Nothing is received that was not sent. */
  ghost predicate PairOk(x: Rank, y: Rank, s: nat, d: nat) {
    s < |y.got| && d < |x.out| && y.got[s] <= |x.out[d]|
  }

  ghost predicate Inv(c: Config, st: State) {
    && |st| == c.size
    && (forall i :: 0 <= i < c.size ==> RankOk(c, i, st[i]))
    && (forall s, d :: 0 <= s < c.size && 0 <= d < c.size ==> PairOk(st[s], st[d], s, d))
    && (forall i, j :: 0 <= i < c.size && 0 <= j < c.size ==> st[j].arrived >= Passed(c, st[i].pc))
  }

  lemma StartInv(c: Config)
    requires WellFormed(c)
    ensures Inv(c, Start(c))
  {
    forall i | 0 <= i < c.size ensures RankOk(c, i, Start(c)[i]) {
      var x := StartRank(c, i);
      assert Shape(c, i, x);
      assert SendsOk(c, i, x);
      assert ReceivesOk(c, i, x);
    }
  }

  // ----- Facts about the plans -----

  lemma SendPlanFacts(c: Config, i: nat, k: nat)
    requires k < |SendPlan(c, i)|
    ensures var plan := SendPlan(c, i);
            plan[k].peer < c.size && Sel(c, i, plan[k].peer) && plan[k].slot == CountTo(plan, k, plan[k].peer) < c.count
  {
    PlanInOrder(c.size, i, SendTarget(c.dir), c.count, k);
  }

  lemma SendPlanTotal(c: Config, i: nat, d: nat)
    requires d < c.size
    ensures CountTo(SendPlan(c, i), |SendPlan(c, i)|, d) == if Sel(c, i, d) then c.count else 0
  {
    if ShouldSend(c.dir, i) { PlanCounts(c.size, i, SendTarget(c.dir), c.count, d); }
  }

  lemma RecvPlanFacts(c: Config, i: nat, k: nat)
    requires k < |RecvPlan(c, i)|
    ensures var plan := RecvPlan(c, i);
            plan[k].peer < c.size && Sel(c, plan[k].peer, i) && plan[k].slot == CountTo(plan, k, plan[k].peer) < c.count
  {
    PlanInOrder(c.size, i, RecvSource(c.dir), c.count, k);
    TableMatches(c.dir, RecvPlan(c, i)[k].peer, i);
  }

  lemma RecvPlanTotal(c: Config, i: nat, s: nat)
    requires s < c.size
    ensures CountTo(RecvPlan(c, i), |RecvPlan(c, i)|, s) == if Sel(c, s, i) then c.count else 0
  {
    TableMatches(c.dir, s, i);
    if ShouldRecv(c.dir, i) { PlanCounts(c.size, i, RecvSource(c.dir), c.count, s); }
  }

  /** The position of slot `n` of round `r` among a pair's data messages. */
  lemma DataPosition(c: Config, s: nat, d: nat, r: nat, n: nat)
    requires Sel(c, s, d) && r < c.repeat && n < c.count
    ensures DataIn(c, s, d, r) + n < AllData(c, s, d)
    ensures SlotOf(DataIn(c, s, d, r) + n, c.count) == n
  {
    SlotAt(r, n, c.count);
    TimesGrow(r + 1, c.repeat, c.count);
  }

  // ----- Program steps, one rank at a time -----

  lemma SendStepOk(c: Config, i: nat, x: Rank)
    requires RankOk(c, i, x) && x.pc.Sending? && x.pc.k < |SendPlan(c, i)|
    ensures var issue := SendPlan(c, i)[x.pc.k];
            RankOk(c, i, Send(x, issue.peer, Pending(issue.slot)).(pc := Sending(x.pc.r, x.pc.k + 1)))
  {
    var r, k := x.pc.r, x.pc.k;
    var issue := SendPlan(c, i)[k];
    SendPlanFacts(c, i, k);
    DataPosition(c, i, issue.peer, r, issue.slot);
    var x' := Send(x, issue.peer, Pending(issue.slot)).(pc := Sending(r, k + 1));
    assert Shape(c, i, x');
    assert ReceivesOk(c, i, x') by { assert ReceivesOk(c, i, x); }
  }

  lemma RecvStepOk(c: Config, i: nat, x: Rank)
    requires RankOk(c, i, x) && x.pc.Posting? && x.pc.k < |RecvPlan(c, i)|
    ensures var issue := RecvPlan(c, i)[x.pc.k];
            RankOk(c, i, Recv(x, issue.peer, Slot(issue.slot)).(pc := Posting(x.pc.r, x.pc.k + 1)))
  {
    var r, k := x.pc.r, x.pc.k;
    var issue := RecvPlan(c, i)[k];
    RecvPlanFacts(c, i, k);
    DataPosition(c, issue.peer, i, r, issue.slot);
    var x' := Recv(x, issue.peer, Slot(issue.slot)).(pc := Posting(r, k + 1));
    assert Shape(c, i, x');
    assert SendsOk(c, i, x') by { assert SendsOk(c, i, x); }
  }

  /** Entering and leaving the barrier changes no message. */
  lemma BarrierStepOk(c: Config, i: nat, x: Rank)
    requires RankOk(c, i, x)
    ensures x.pc.AtBarrier? ==> RankOk(c, i, x.(arrived := x.pc.r + 1, pc := InBarrier(x.pc.r)))
    ensures x.pc.InBarrier? ==> RankOk(c, i, x.(pc := Sending(x.pc.r, 0)))
  {}

  lemma LoopDoneOk(c: Config, i: nat, x: Rank)
    requires RankOk(c, i, x)
    ensures x.pc.Sending? && x.pc.k == |SendPlan(c, i)| ==> RankOk(c, i, x.(pc := Posting(x.pc.r, 0)))
    ensures x.pc.Posting? && x.pc.k == |RecvPlan(c, i)| ==> RankOk(c, i, x.(pc := Waiting(x.pc.r)))
  {
    forall d | 0 <= d < c.size
      ensures CountTo(SendPlan(c, i), |SendPlan(c, i)|, d) == (if Sel(c, i, d) then c.count else 0)
      ensures CountTo(RecvPlan(c, i), |RecvPlan(c, i)|, d) == (if Sel(c, d, i) then c.count else 0)
    {
      SendPlanTotal(c, i, d);
      RecvPlanTotal(c, i, d);
    }
  }

  lemma WaitDoneOk(c: Config, i: nat, x: Rank)
    requires WellFormed(c) && RankOk(c, i, x) && x.pc.Waiting? && AllReceived(x)
    ensures RankOk(c, i, x.(pc := if x.pc.r + 1 < c.repeat then AtBarrier(x.pc.r + 1) else AfterRounds(i)))
  {}

  lemma DigestRootOk(c: Config, x: Rank)
    requires WellFormed(c) && RankOk(c, 0, x)
    ensures x.pc.DigestPost? && x.pc.src < c.size ==>
              RankOk(c, 0, Recv(x, x.pc.src, DigestVar).(pc := DigestWait(x.pc.src)))
    ensures x.pc.DigestPost? && x.pc.src >= c.size ==> RankOk(c, 0, x.(pc := Done))
    ensures x.pc.DigestWait? && OneReceived(x, x.pc.src) ==>
              RankOk(c, 0, x.(pc := DigestPost(x.pc.src + 1))) && RankOk(c, 0, x.(pc := Mismatch(x.pc.src)))
  {
    TableMatches(c.dir, 0, 0);
  }

  lemma DigestLeafOk(c: Config, i: nat, x: Rank)
    requires WellFormed(c) && RankOk(c, i, x) && i != 0
    ensures x.pc.DigestSend? ==> RankOk(c, i, Send(x, 0, Digest(c.sha(x.buf))).(pc := DigestSent))
    ensures x.pc.DigestSent? ==> RankOk(c, i, x.(pc := Done))
  {}
}
