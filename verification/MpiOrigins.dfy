/** Where the bytes in a buffer come from, whatever the ranks began with. */
module MpiOrigins {
  import opened Memory
  import opened MpiPlan
  import opened MpiRun
  import opened MpiInvariant
  import opened MpiSteps
  import opened MpiRelease
  import opened MpiContent

  /** These bytes are slot `n` of the packet some rank began with. */
  ghost predicate FromSome(c: Config, n: nat, bytes: seq<byte>) {
    exists j :: 0 <= j < |c.bufs| && bytes == SlotBytes(c, c.bufs[j], n)
  }

  ghost predicate SlotsOriginal(c: Config, buf: seq<byte>) {
    forall n :: 0 <= n < c.count ==> FromSome(c, n, SlotBytes(c, buf, n))
  }

  ghost predicate SentOriginal(c: Config, out: seq<Msg>) {
    forall k :: 0 <= k < |out| && out[k].Captured? ==> FromSome(c, out[k].slot, out[k].bytes)
  }

  ghost predicate RankOriginal(c: Config, x: Rank) {
    SlotsOriginal(c, x.buf) && forall d :: 0 <= d < |x.out| ==> SentOriginal(c, x.out[d])
  }

  ghost predicate OriginInv(c: Config, st: State) {
    |st| == c.size && forall i :: 0 <= i < c.size ==> RankOriginal(c, st[i])
  }

  lemma StartOriginal(c: Config)
    requires WellFormed(c)
    ensures OriginInv(c, Start(c))
  {
    forall i | 0 <= i < c.size ensures RankOriginal(c, Start(c)[i]) {
      assert forall n :: 0 <= n < c.count ==> SlotBytes(c, Start(c)[i].buf, n) == SlotBytes(c, c.bufs[i], n);
    }
  }

  lemma ProgramOriginal(c: Config, st: State, i: nat)
    requires ProgramCan(c, st, i) && RankOriginal(c, st[i])
    ensures RankOriginal(c, ProgramStep(c, st, i))
  {
    var x, x' := st[i], ProgramStep(c, st, i);
    forall d | 0 <= d < |x'.out| ensures SentOriginal(c, x'.out[d]) {
      assert SentOriginal(c, x.out[d]);
    }
  }

  /** A data payload that is read before the release is original. */
  lemma PayloadOriginal(c: Config, s: nat, d: nat, x: Rank, k: nat, junk: seq<byte>)
    requires WellFormed(c) && RankOk(c, s, x) && RankOriginal(c, x) && d < c.size && k < |x.out[d]|
    requires !x.out[d][k].Digest? && (x.out[d][k].Pending? ==> !Released(x))
    ensures x.out[d][k].slot < c.count && |Payload(c, x, x.out[d][k], junk)| == c.length
    ensures FromSome(c, x.out[d][k].slot, Payload(c, x, x.out[d][k], junk))
  {
    assert OutOk(c, s, d, x.out[d]) && SentOriginal(c, x.out[d]);
    assert MsgOk(c, s, d, k, x.out[d][k]);
    SlotFits(c, x.out[d][k].slot);
  }

  lemma CaptureOriginal(c: Config, st: State, s: nat, d: nat, k: nat, junk: seq<byte>)
    requires WellFormed(c) && Inv(c, st) && OriginInv(c, st) && Unread(st, s, d, k) && !Released(st[s])
    ensures RankOriginal(c, Capture(c, st, s, d, k, junk))
  {
    var x, x' := st[s], Capture(c, st, s, d, k, junk);
    assert RankOk(c, s, x) && RankOriginal(c, x);
    PayloadOriginal(c, s, d, x, k, junk);
    forall e | 0 <= e < |x'.out| ensures SentOriginal(c, x'.out[e]) {
      assert SentOriginal(c, x.out[e]);
    }
  }

  lemma WriteOriginal(c: Config, buf: seq<byte>, n: nat, data: seq<byte>)
    requires n < c.count && |buf| == Times(c.count, c.length) && |data| == c.length
    requires SlotsOriginal(c, buf) && FromSome(c, n, data)
    ensures Times(n, c.length) + c.length <= |buf| && SlotsOriginal(c, Put(buf, Times(n, c.length), data))
  {
    SlotFits(c, n);
    forall m | 0 <= m < c.count ensures FromSome(c, m, SlotBytes(c, Put(buf, Times(n, c.length), data), m)) {
      PutSlot(c, buf, n, data, m);
      assert FromSome(c, m, SlotBytes(c, buf, m));
    }
  }

  lemma DeliverOriginal(c: Config, st: State, s: nat, d: nat, junk: seq<byte>)
    requires WellFormed(c) && Inv(c, st) && OriginInv(c, st) && CanDeliver(c, st, s, d)
    requires st[s].out[d][st[d].got[s]].Pending? ==> !Released(st[s])
    ensures RankOriginal(c, Deliver(c, st, s, d, junk))
  {
    var x, y, k := st[s], st[d], st[d].got[s];
    assert RankOk(c, s, x) && RankOriginal(c, x) && RankOk(c, d, y) && RankOriginal(c, y);
    assert OutOk(c, s, d, x.out[d]) && MsgOk(c, s, d, k, x.out[d][k]);
    assert RecvsOk(c, s, d, y.recvs[s]) && y.recvs[s][k] == SinkAt(c, s, d, k);
    if !x.out[d][k].Digest? {
      PayloadOriginal(c, s, d, x, k, junk);
      WriteOriginal(c, y.buf, x.out[d][k].slot, Payload(c, x, x.out[d][k], junk));
    }
  }

  lemma StepOriginal(c: Config, st: State, step: Step)
    requires WellFormed(c) && Inv(c, st) && OriginInv(c, st) && NothingDangles(st) && Enabled(c, st, step)
    ensures OriginInv(c, Next(c, st, step))
  {
    var m := Mover(step);
    assert RankOriginal(c, st[m]);
    if step.Program? {
      ProgramOriginal(c, st, m);
    } else if step.Delivery? {
      NextIsSafe(c, st, step.s, step.d);
      DeliverOriginal(c, st, step.s, step.d, step.junk);
    } else if step.Copy? {
      CaptureOriginal(c, st, step.s, step.d, step.k, step.junk);
    }
  }

  /** In every direction and interleaving, and whatever packets the ranks began with: as long as
      no buffer was released too early, slot `n` of every buffer is slot `n` of the packet some
      rank began with. */
  lemma {:induction false} SlotsStayOriginal(c: Config, states: seq<State>, steps: seq<Step>, i: nat)
    requires WellFormed(c) && IsRun(c, states, steps) && i < |states|
    requires forall j :: 0 <= j < i ==> NothingDangles(states[j])
    ensures |states[i]| == c.size && forall r :: 0 <= r < c.size ==> SlotsOriginal(c, states[i][r].buf)
    ensures OriginInv(c, states[i])
  {
    if i == 0 {
      StartOriginal(c);
    } else {
      SlotsStayOriginal(c, states, steps, i - 1);
      RunInv(c, states, steps, i - 1);
      assert NothingDangles(states[i - 1]);
      StepOriginal(c, states[i - 1], steps[i - 1]);
    }
    forall r | 0 <= r < c.size ensures SlotsOriginal(c, states[i][r].buf) {
      assert RankOriginal(c, states[i][r]);
    }
  }

  // ----- Direction N-1: where the slots of rank 0 come from -----

  /** These bytes are slot `n` of the packet of some rank other than 0. */
  ghost predicate FromSender(c: Config, n: nat, bytes: seq<byte>) {
    exists j :: 1 <= j < |c.bufs| && bytes == SlotBytes(c, c.bufs[j], n)
  }

  /** A sender keeps its packet, and what has been copied out is of that packet. */
  ghost predicate SenderKeeps(c: Config, s: nat, x: Rank) {
    && s < |c.bufs| && x.buf == c.bufs[s]
    && forall d, k :: 0 <= d < |x.out| && 0 <= k < |x.out[d]| && x.out[d][k].Captured? ==>
         x.out[d][k].bytes == SlotBytes(c, c.bufs[s], x.out[d][k].slot)
  }

  /** Once rank 0 has slot `n` from anyone, it holds slot `n` of some sender. */
  ghost predicate RootGathers(c: Config, x: Rank) {
    forall s, n :: 1 <= s < |x.got| && 0 <= n < c.count && x.got[s] > n ==> FromSender(c, n, SlotBytes(c, x.buf, n))
  }

  ghost predicate GatherInv(c: Config, st: State) {
    && |st| == c.size > 0 && RootGathers(c, st[0])
    && forall s :: 1 <= s < c.size ==> SenderKeeps(c, s, st[s])
  }

  lemma StartGather(c: Config)
    requires WellFormed(c)
    ensures GatherInv(c, Start(c))
  {}

  lemma OnlyRootReceives(c: Config, st: State, s: nat, d: nat)
    requires WellFormed(c) && c.dir == DirIn && Inv(c, st) && CanDeliver(c, st, s, d)
    ensures d == 0 && s != 0
  {
    assert RankOk(c, d, st[d]);
    assert st[d].got[s] < |st[d].recvs[s]| == RecvLen(c, d, s, st[d].pc);
    if d != 0 { RecvsBound(c, d, s, st[d].pc); }
    if s == 0 { NothingToSelf(c, st, 0); }
  }

  lemma SenderPayload(c: Config, s: nat, x: Rank, k: nat, junk: seq<byte>)
    requires WellFormed(c) && 1 <= s < c.size && RankOk(c, s, x) && SenderKeeps(c, s, x) && k < |x.out[0]|
    requires !x.out[0][k].Digest? && (x.out[0][k].Pending? ==> !Released(x))
    ensures x.out[0][k].slot < c.count && |Payload(c, x, x.out[0][k], junk)| == c.length
    ensures Payload(c, x, x.out[0][k], junk) == SlotBytes(c, c.bufs[s], x.out[0][k].slot)
  {
    assert OutOk(c, s, 0, x.out[0]) && MsgOk(c, s, 0, k, x.out[0][k]);
    SlotFits(c, x.out[0][k].slot);
  }

  lemma RootTakes(c: Config, x: Rank, s: nat, k: nat, data: seq<byte>)
    requires 1 <= s < |x.got| && x.got[s] == k && c.count > 0 && |x.buf| == Times(c.count, c.length)
    requires RootGathers(c, x) && |data| == c.length && FromSender(c, SlotOf(k, c.count), data)
    ensures var n := SlotOf(k, c.count);
            && Times(n, c.length) + c.length <= |x.buf|
            && RootGathers(c, x.(got := x.got[s := k + 1], buf := Put(x.buf, Times(n, c.length), data)))
  {
    var m := SlotOf(k, c.count);
    SlotFits(c, m);
    var x' := x.(got := x.got[s := k + 1], buf := Put(x.buf, Times(m, c.length), data));
    forall r, n | 1 <= r < |x'.got| && 0 <= n < c.count && x'.got[r] > n
      ensures FromSender(c, n, SlotBytes(c, x'.buf, n))
    {
      PutSlot(c, x.buf, m, data, n);
      assert n != m ==> x.got[r] > n;
    }
  }

  lemma DeliverGather(c: Config, st: State, s: nat, junk: seq<byte>)
    requires WellFormed(c) && c.dir == DirIn && Inv(c, st) && GatherInv(c, st) && CanDeliver(c, st, s, 0)
    requires 1 <= s < c.size && (st[s].out[0][st[0].got[s]].Pending? ==> !Released(st[s]))
    ensures RootGathers(c, Deliver(c, st, s, 0, junk))
  {
    var x, y, k := st[s], st[0], st[0].got[s];
    assert RankOk(c, s, x) && RankOk(c, 0, y);
    assert OutOk(c, s, 0, x.out[0]) && MsgOk(c, s, 0, k, x.out[0][k]);
    assert RecvsOk(c, s, 0, y.recvs[s]) && y.recvs[s][k] == SinkAt(c, s, 0, k);
    if k < AllData(c, s, 0) {
      SenderPayload(c, s, x, k, junk);
      RootTakes(c, y, s, k, Payload(c, x, x.out[0][k], junk));
    } else {
      DigestTaken(c, y, Deliver(c, st, s, 0, junk), s);
    }
  }

  /** When the digest comes, all slots have come before it. */
  lemma DigestTaken(c: Config, x: Rank, x': Rank, s: nat)
    requires c.dir == DirIn && c.repeat > 0 && 1 <= s < |x.got| && x.got[s] >= AllData(c, s, 0)
    requires RootGathers(c, x) && x'.buf == x.buf && x'.got == x.got[s := x.got[s] + 1]
    ensures RootGathers(c, x')
  {
    TimesGrow(1, c.repeat, c.count);
    assert Times(1, c.count) == c.count;
    forall r, n | 1 <= r < |x'.got| && 0 <= n < c.count && x'.got[r] > n
      ensures FromSender(c, n, SlotBytes(c, x'.buf, n))
    {
      assert x.got[r] > n;
    }
  }

  lemma ProgramGather(c: Config, st: State, i: nat)
    requires GatherInv(c, st) && ProgramCan(c, st, i)
    ensures GatherInv(c, st[i := ProgramStep(c, st, i)])
  {
    if i != 0 { assert SenderKeeps(c, i, st[i]); }
  }

  lemma CaptureGather(c: Config, st: State, s: nat, d: nat, k: nat, junk: seq<byte>)
    requires WellFormed(c) && Inv(c, st) && GatherInv(c, st) && Unread(st, s, d, k) && !Released(st[s])
    ensures GatherInv(c, st[s := Capture(c, st, s, d, k, junk)])
  {
    if s != 0 { assert SenderKeeps(c, s, st[s]); }
  }

  lemma StepGather(c: Config, st: State, step: Step)
    requires WellFormed(c) && c.dir == DirIn && Inv(c, st) && GatherInv(c, st)
    requires NothingDangles(st) && Enabled(c, st, step)
    ensures GatherInv(c, Next(c, st, step))
  {
    if step.Program? {
      ProgramGather(c, st, step.i);
    } else if step.Delivery? {
      OnlyRootReceives(c, st, step.s, step.d);
      NextIsSafe(c, st, step.s, step.d);
      DeliverGather(c, st, step.s, step.junk);
    } else if step.Copy? {
      CaptureGather(c, st, step.s, step.d, step.k, step.junk);
    }
  }

  lemma {:induction false} RunGather(c: Config, states: seq<State>, steps: seq<Step>, i: nat)
    requires WellFormed(c) && c.dir == DirIn && IsRun(c, states, steps) && i < |states|
    requires forall j :: 0 <= j < i ==> NothingDangles(states[j])
    ensures GatherInv(c, states[i])
  {
    if i == 0 {
      StartGather(c);
    } else {
      RunGather(c, states, steps, i - 1);
      RunInv(c, states, steps, i - 1);
      assert NothingDangles(states[i - 1]);
      StepGather(c, states[i - 1], steps[i - 1]);
    }
  }

  /** In direction N-1 no sender's buffer ever changes, and once rank 0 has completed a round each of
      its slots is that slot of some sender's packet, as long as no buffer was released too early. */
  lemma GatherCorrect(c: Config, states: seq<State>, steps: seq<Step>, i: nat)
    requires WellFormed(c) && c.dir == DirIn && c.size > 1 && IsRun(c, states, steps) && i < |states|
    requires forall j :: 0 <= j < i ==> NothingDangles(states[j])
    ensures var st := states[i];
            && |st| == c.size
            && (forall s :: 1 <= s < c.size ==> st[s].buf == c.bufs[s])
            && (!InRound(st[0].pc) || ((st[0].pc.AtBarrier? || st[0].pc.InBarrier?) && st[0].pc.r >= 1) ==>
                  forall n :: 0 <= n < c.count ==> FromSender(c, n, SlotBytes(c, st[0].buf, n)))
  {
    RunGather(c, states, steps, i);
    RunInv(c, states, steps, i);
    var st := states[i];
    forall s | 1 <= s < c.size ensures st[s].buf == c.bufs[s] { assert SenderKeeps(c, s, st[s]); }
    if !InRound(st[0].pc) || ((st[0].pc.AtBarrier? || st[0].pc.InBarrier?) && st[0].pc.r >= 1) {
      RoundGathered(c, st[0]);
    }
  }

  lemma RoundGathered(c: Config, x: Rank)
    requires WellFormed(c) && c.dir == DirIn && c.size > 1 && RankOk(c, 0, x) && RootGathers(c, x)
    requires !InRound(x.pc) || ((x.pc.AtBarrier? || x.pc.InBarrier?) && x.pc.r >= 1)
    ensures forall n :: 0 <= n < c.count ==> FromSender(c, n, SlotBytes(c, x.buf, n))
  {
    assert Settled(c, 0, 1, x.pc) <= x.got[1];
    TimesGrow(1, if InRound(x.pc) then x.pc.r else c.repeat, c.count);
    assert Times(1, c.count) == c.count;
    forall n | 0 <= n < c.count ensures FromSender(c, n, SlotBytes(c, x.buf, n)) { assert x.got[1] > n; }
  }
}
