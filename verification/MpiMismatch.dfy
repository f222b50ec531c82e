/** A run in which equal packets end in a reported mismatch, because a buffer was released while a
    send from it was unread. */
module MpiMismatch {
  import opened Memory
  import opened MpiPlan
  import opened MpiRun

  /** A hash that shows the first byte. */
  function FirstByte(b: seq<byte>): seq<byte> { seq(DIGEST_LENGTH, _ => if |b| > 0 then b[0] else 0) }

  /** Two ranks with the same one-byte packet, one round, direction N-1. */
  function TwoToOne(): Config {
    Config(2, 1, 1, 1, DirIn, [[1], [1]], FirstByte)
  }

  function Root(pc: Pc, arrived: nat, buf: seq<byte>, recvs: seq<Sink>, got: nat, digest: seq<byte>): Rank {
    Rank(pc, arrived, buf, [[], []], [[], recvs], [0, got], digest)
  }

  function Leaf(pc: Pc, arrived: nat, out: seq<Msg>): Rank {
    Rank(pc, arrived, [1], [out, []], [[], []], [0, 0], [])
  }

  function Ones(): seq<byte> { FirstByte([1]) }

  /** Rank 1 goes through its round and returns with its data unread; what rank 0 then finds at
      the address is 2, and its own digest no longer matches. */
  function Spoiling(n: nat): State {
    var begin := Root(AtBarrier(0), 0, [1], [], 0, []);
    var wait := Root(InBarrier(0), 1, [1], [], 0, []);
    var sent := [Pending(0)];
    var all := [Pending(0), Digest(Ones())];
    var gone := Leaf(Done, 1, all);
    match n
    case 0 => [begin, Leaf(AtBarrier(0), 0, [])]
    case 1 => [wait, Leaf(AtBarrier(0), 0, [])]
    case 2 => [wait, Leaf(InBarrier(0), 1, [])]
    case 3 => [wait, Leaf(Sending(0, 0), 1, [])]
    case 4 => [wait, Leaf(Sending(0, 1), 1, sent)]
    case 5 => [wait, Leaf(Posting(0, 0), 1, sent)]
    case 6 => [wait, Leaf(Waiting(0), 1, sent)]
    case 7 => [wait, Leaf(DigestSend, 1, sent)]
    case 8 => [wait, Leaf(DigestSent, 1, all)]
    case 9 => [wait, gone]
    case 10 => [Root(Sending(0, 0), 1, [1], [], 0, []), gone]
    case 11 => [Root(Posting(0, 0), 1, [1], [], 0, []), gone]
    case 12 => [Root(Posting(0, 1), 1, [1], [Slot(0)], 0, []), gone]
    case 13 => [Root(Waiting(0), 1, [1], [Slot(0)], 0, []), gone]
    case 14 => [Root(Waiting(0), 1, [2], [Slot(0)], 1, []), gone]
    case 15 => [Root(DigestPost(1), 1, [2], [Slot(0)], 1, []), gone]
    case 16 => [Root(DigestWait(1), 1, [2], [Slot(0), DigestVar], 1, []), gone]
    case 17 => [Root(DigestWait(1), 1, [2], [Slot(0), DigestVar], 2, Ones()), gone]
    case _ => [Root(Mismatch(1), 1, [2], [Slot(0), DigestVar], 2, Ones()), gone]
  }

  function SpoilingMove(n: nat): Step {
    if n == 8 then EarlyReturn(1)
    else if n == 13 then Delivery(1, 0, [2])
    else if n == 16 then Delivery(1, 0, [])
    else Program(if n == 0 || n >= 9 then 0 else 1)
  }

  lemma TwoToOnePlans()
    ensures SendPlan(TwoToOne(), 0) == [] && RecvPlan(TwoToOne(), 0) == [Issue(0, 1)]
    ensures SendPlan(TwoToOne(), 1) == [Issue(0, 0)] && RecvPlan(TwoToOne(), 1) == []
  {
    assert Row(0, HOST_NOSELF, 0, 0) == [];
    assert Row(0, HOST_NOSELF, 0, 1) == [];
    assert Row(0, HOST_NOSELF, 0, 2) == [Issue(0, 1)];
    assert Plan(2, 0, HOST_NOSELF, 0) == [];
    assert Row(1, 0, 0, 0) == [];
    assert Row(1, 0, 0, 1) == [Issue(0, 0)];
    assert Row(1, 0, 0, 2) == [Issue(0, 0)];
    assert Plan(2, 1, 0, 0) == [];
  }

  lemma SpoilingStart()
    ensures Spoiling(0) == Start(TwoToOne())
  {
    var c := TwoToOne();
    var x, y := StartRank(c, 0), StartRank(c, 1);
    assert x.out == [[], []] && x.recvs == [[], []] && x.got == [0, 0];
    assert y.out == [[], []] && y.recvs == [[], []] && y.got == [0, 0];
    assert Start(c) == [x, y];
  }

  ghost predicate SpoilingOk(n: nat) {
    && Enabled(TwoToOne(), Spoiling(n), SpoilingMove(n))
    && Next(TwoToOne(), Spoiling(n), SpoilingMove(n)) == Spoiling(n + 1)
  }

  lemma SpoilingSends(n: nat)
    requires n == 3 || n == 7
    ensures SpoilingOk(n)
  {
    TwoToOnePlans();
    var x := Spoiling(n)[1];
    var m := if n == 3 then Pending(0) else Digest(Ones());
    assert x.out[0] + [m] == Spoiling(n + 1)[1].out[0];
    assert x.out[0 := x.out[0] + [m]] == Spoiling(n + 1)[1].out;
  }

  lemma SpoilingReceives(n: nat)
    requires n == 11 || n == 15
    ensures SpoilingOk(n)
  {
    TwoToOnePlans();
    var x := Spoiling(n)[0];
    var k := if n == 11 then Slot(0) else DigestVar;
    assert x.recvs[1] + [k] == Spoiling(n + 1)[0].recvs[1];
    assert x.recvs[1 := x.recvs[1] + [k]] == Spoiling(n + 1)[0].recvs;
  }

  lemma SpoilingDelivers(n: nat)
    requires n == 13 || n == 16
    ensures SpoilingOk(n)
  {
    var y := Spoiling(n)[0];
    assert y.got[1 := y.got[1] + 1] == Spoiling(n + 1)[0].got;
    assert Times(0, 1) == 0;
    assert Put([1], 0, [2]) == [2];
  }

  lemma SpoilingCompares()
    ensures SpoilingOk(17)
  {
    assert FirstByte([2])[0] != Ones()[0];
  }

  lemma SpoilingStep(n: nat)
    requires n < 18
    ensures SpoilingOk(n)
  {
    if n == 3 || n == 7 { SpoilingSends(n); }
    else if n == 11 || n == 15 { SpoilingReceives(n); }
    else if n == 13 || n == 16 { SpoilingDelivers(n); }
    else if n == 17 { SpoilingCompares(); }
    else if n == 0 || n >= 9 { SpoilingRoot(n); }
    else { SpoilingLeaf(n); }
  }

  lemma SpoilingLeaf(n: nat)
    requires n in {1, 2, 4, 5, 6, 8}
    ensures SpoilingOk(n)
  {
    TwoToOnePlans();
  }

  lemma SpoilingRoot(n: nat)
    requires n in {0, 9, 10, 12, 14}
    ensures SpoilingOk(n)
  {
    TwoToOnePlans();
  }

  /** Equal packets do not keep `verify_checksum` from reporting a mismatch. */
  lemma EqualPacketsMismatch()
    ensures WellFormed(TwoToOne()) && Uniform(TwoToOne())
    ensures exists states: seq<State>, steps: seq<Step> ::
              IsRun(TwoToOne(), states, steps) && Mismatched(states[|steps|])
  {
    var c := TwoToOne();
    assert Times(1, 1) == 1;
    var states := seq(19, i requires 0 <= i < 19 => Spoiling(i));
    var steps := seq(18, i requires 0 <= i < 18 => SpoilingMove(i));
    SpoilingStart();
    forall i | 0 <= i < 18 ensures Enabled(c, states[i], steps[i]) && states[i + 1] == Next(c, states[i], steps[i]) {
      SpoilingStep(i);
    }
    assert IsRun(c, states, steps);
    assert states[18] == Spoiling(18) && states[18][0].pc.Mismatch?;
  }
}
