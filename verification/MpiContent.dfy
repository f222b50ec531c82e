/** What the buffers hold in runs whose releases are safe. In direction 1-N every rank ends each
    round with rank 0's buffer; in the other directions every slot is some rank's original slot, so
    ranks that begin equal stay equal; and then the digest check never fails. */
module MpiContent {
  import opened Memory
  import opened MpiPlan
  import opened MpiRun
  import opened MpiInvariant
  import opened MpiSteps
  import opened MpiRelease

  function Origin(c: Config): seq<byte>
    requires |c.bufs| > 0
  {
    c.bufs[0]
  }

  /** The first `done` slots are the original's, the others are still the rank's own. */
  ghost predicate SlotsCopied(c: Config, buf: seq<byte>, orig: seq<byte>, own: seq<byte>, done: nat) {
    forall n :: 0 <= n < c.count ==> SlotBytes(c, buf, n) == SlotBytes(c, if n < done then orig else own, n)
  }

  ghost predicate BufOk(c: Config, i: nat, x: Rank)
    requires |c.bufs| > 0
  {
    if i == 0 || c.dir != DirOut then x.buf == Origin(c)
    else i < |c.bufs| && |x.got| > 0 && SlotsCopied(c, x.buf, Origin(c), c.bufs[i], x.got[0])
  }

  function Content(c: Config, s: nat, d: nat, k: nat): seq<byte>
    requires |c.bufs| > 0 && c.count > 0
  {
    if k < AllData(c, s, d) then SlotBytes(c, Origin(c), SlotOf(k, c.count)) else c.sha(Origin(c))
  }

  ghost predicate SentOk(c: Config, s: nat, d: nat, out: seq<Msg>)
    requires |c.bufs| > 0 && c.count > 0
  {
    forall k :: 0 <= k < |out| && !out[k].Pending? ==> out[k].bytes == Content(c, s, d, k)
  }

  ghost predicate ContentOk(c: Config, i: nat, x: Rank)
    requires |c.bufs| > 0 && c.count > 0
  {
    && BufOk(c, i, x) && !x.pc.Mismatch?
    && (forall d :: 0 <= d < |x.out| ==> SentOk(c, i, d, x.out[d]))
    && (x.pc.DigestWait? && OneReceived(x, x.pc.src) ==> x.digest == c.sha(Origin(c)))
  }

  ghost predicate ContentInv(c: Config, st: State)
    requires |c.bufs| > 0 && c.count > 0
  {
    |st| == c.size && forall i :: 0 <= i < c.size ==> ContentOk(c, i, st[i])
  }

  lemma StartContent(c: Config)
    requires WellFormed(c) && Uniform(c)
    ensures ContentInv(c, Start(c))
  {}

  // ----- Slots of one buffer -----

  /** Writing slot `n` changes slot `n` and no other. */
  lemma PutSlot(c: Config, buf: seq<byte>, n: nat, data: seq<byte>, m: nat)
    requires n < c.count && m < c.count && |buf| == Times(c.count, c.length) && |data| == c.length
    ensures Times(n, c.length) + c.length <= |buf|
    ensures SlotBytes(c, Put(buf, Times(n, c.length), data), m) == if m == n then data else SlotBytes(c, buf, m)
  {
    SlotFits(c, n);
    SlotFits(c, m);
    if m == n {
      PutThenSlice(buf, Times(n, c.length), data);
    } else {
      if m < n { TimesGrow(m + 1, n, c.length); } else { TimesGrow(n + 1, m, c.length); }
      PutElsewhere(buf, Times(n, c.length), data, Times(m, c.length), c.length);
    }
  }

  lemma PutSlotCopies(c: Config, buf: seq<byte>, orig: seq<byte>, own: seq<byte>, k: nat)
    requires c.count > 0 && |buf| == |orig| == Times(c.count, c.length)
    requires SlotsCopied(c, buf, orig, own, k)
    ensures var n := SlotOf(k, c.count);
            && Times(n, c.length) + c.length <= |buf|
            && SlotsCopied(c, Put(buf, Times(n, c.length), SlotBytes(c, orig, n)), orig, own, k + 1)
  {
    var n := SlotOf(k, c.count);
    SlotFits(c, n);
    var data := SlotBytes(c, orig, n);
    var buf' := Put(buf, Times(n, c.length), data);
    forall m | 0 <= m < c.count ensures SlotBytes(c, buf', m) == SlotBytes(c, if m < k + 1 then orig else own, m) {
      PutSlot(c, buf, n, data, m);
      assert SlotBytes(c, buf, m) == SlotBytes(c, if m < k then orig else own, m);
    }
  }

  /** Equal slots make equal buffers. */
  lemma {:induction false} SlotsCover(c: Config, a: seq<byte>, b: seq<byte>, n: nat)
    requires n <= c.count && |a| == |b| == Times(c.count, c.length)
    requires forall m :: 0 <= m < n ==> SlotBytes(c, a, m) == SlotBytes(c, b, m)
    ensures Times(n, c.length) <= |a| && a[..Times(n, c.length)] == b[..Times(n, c.length)]
  {
    if n > 0 {
      SlotsCover(c, a, b, n - 1);
      SlotFits(c, n - 1);
      var lo, hi := Times(n - 1, c.length), Times(n, c.length);
      assert SlotBytes(c, a, n - 1) == SlotBytes(c, b, n - 1);
      assert a[..hi] == a[..lo] + a[lo..hi];
      assert b[..hi] == b[..lo] + b[lo..hi];
    }
  }

  lemma WholeBuffer(c: Config, i: nat, x: Rank)
    requires WellFormed(c) && i < c.size && Shape(c, i, x) && BufOk(c, i, x)
    requires i == 0 || c.dir != DirOut || x.got[0] >= c.count || c.bufs[i] == Origin(c)
    ensures x.buf == Origin(c)
  {
    if i != 0 && c.dir == DirOut {
      SlotsCover(c, x.buf, Origin(c), c.count);
      assert x.buf == x.buf[..|x.buf|] && Origin(c) == Origin(c)[..|Origin(c)|];
    }
  }

  // ----- Steps -----

  /** A rank that has finished its rounds holds the original buffer. */
  lemma AfterRoundsWhole(c: Config, i: nat, x: Rank)
    requires WellFormed(c) && i < c.size && RankOk(c, i, x) && BufOk(c, i, x) && !InRound(x.pc)
    ensures x.buf == Origin(c)
  {
    if i != 0 && c.dir == DirOut {
      assert Settled(c, i, 0, x.pc) <= x.got[0];
      TimesGrow(1, c.repeat, c.count);
      assert Times(1, c.count) == c.count;
    }
    WholeBuffer(c, i, x);
  }

  /** The sender of a data message holds the original buffer, so the payload is original whenever
      it is read before the release. */
  lemma PayloadOk(c: Config, s: nat, d: nat, x: Rank, k: nat, junk: seq<byte>)
    requires WellFormed(c) && RankOk(c, s, x) && ContentOk(c, s, x)
    requires d < c.size && k < |x.out[d]| && (x.out[d][k].Pending? ==> !Released(x))
    ensures Payload(c, x, x.out[d][k], junk) == Content(c, s, d, k)
  {
    assert OutOk(c, s, d, x.out[d]) && SentOk(c, s, d, x.out[d]);
    assert MsgOk(c, s, d, k, x.out[d][k]);
  }

  lemma CaptureContent(c: Config, st: State, s: nat, d: nat, k: nat, junk: seq<byte>)
    requires WellFormed(c) && Inv(c, st) && ContentInv(c, st) && Unread(st, s, d, k) && !Released(st[s])
    ensures ContentOk(c, s, Capture(c, st, s, d, k, junk))
  {
    var x := st[s];
    assert RankOk(c, s, x) && ContentOk(c, s, x);
    PayloadOk(c, s, d, x, k, junk);
    var x' := Capture(c, st, s, d, k, junk);
    forall e | 0 <= e < |x'.out| ensures SentOk(c, s, e, x'.out[e]) {
      assert SentOk(c, s, e, x.out[e]);
    }
  }

  lemma DeliverContent(c: Config, st: State, s: nat, d: nat, junk: seq<byte>)
    requires WellFormed(c) && Inv(c, st) && ContentInv(c, st) && CanDeliver(c, st, s, d)
    requires st[s].out[d][st[d].got[s]].Pending? ==> !Released(st[s])
    ensures ContentOk(c, d, Deliver(c, st, s, d, junk))
  {
    var y := st[d];
    assert RankOk(c, s, st[s]) && ContentOk(c, s, st[s]);
    assert RankOk(c, d, y) && ContentOk(c, d, y);
    var k := y.got[s];
    PayloadOk(c, s, d, st[s], k, junk);
    assert RecvsOk(c, s, d, y.recvs[s]);
    assert y.recvs[s][k] == SinkAt(c, s, d, k);
    var y' := Deliver(c, st, s, d, junk);
    if k < AllData(c, s, d) {
      DataDelivered(c, s, d, y, y', k);
      NoDigestPending(c, s, d, y);
    } else {
      assert BufOk(c, d, y') by { RecvFromZero(c, d, s, y); }
    }
  }

  lemma DataDelivered(c: Config, s: nat, d: nat, y: Rank, y': Rank, k: nat)
    requires WellFormed(c) && s < c.size && k < AllData(c, s, d) && Shape(c, d, y) && BufOk(c, d, y) && y.got[s] == k
    requires y'.got == y.got[s := k + 1]
    requires var n := SlotOf(k, c.count);
             Times(n, c.length) + c.length <= |y.buf| && |SlotBytes(c, Origin(c), n)| <= c.length
             && y'.buf == Put(y.buf, Times(n, c.length), SlotBytes(c, Origin(c), n))
    ensures BufOk(c, d, y')
  {
    var n := SlotOf(k, c.count);
    if d == 0 || c.dir != DirOut {
      PutSame(y.buf, Times(n, c.length), c.length);
    } else {
      PutSlotCopies(c, y.buf, Origin(c), c.bufs[d], k);
    }
  }

  /** A rank other than 0 never gets a digest. */
  lemma RecvFromZero(c: Config, d: nat, s: nat, y: Rank)
    requires WellFormed(c) && RankOk(c, d, y) && s < c.size && AllData(c, s, d) <= y.got[s] < |y.recvs[s]|
    ensures d == 0
  {
    assert |y.recvs[s]| == RecvLen(c, d, s, y.pc);
    if d != 0 {
      RecvsBound(c, d, s, y.pc);
    }
  }

  /** While data is still owed to a rank, it is not waiting for a digest from that source. */
  lemma NoDigestPending(c: Config, s: nat, d: nat, y: Rank)
    requires RankOk(c, d, y) && s < c.size && y.got[s] < AllData(c, s, d)
    ensures !y.pc.DigestWait?
  {
    assert Settled(c, d, s, y.pc) <= y.got[s];
  }

  lemma RoundContent(c: Config, st: State, i: nat)
    requires WellFormed(c) && ProgramCan(c, st, i) && RankOk(c, i, st[i]) && ContentOk(c, i, st[i])
    requires InRound(st[i].pc)
    ensures ContentOk(c, i, ProgramStep(c, st, i))
  {
    var x, plan := st[i], SendPlan(c, i);
    if x.pc.Sending? && x.pc.k < |plan| {
      PendingContent(c, i, x, plan[x.pc.k].peer, plan[x.pc.k].slot);
    }
  }

  lemma PendingContent(c: Config, i: nat, x: Rank, d: nat, slot: nat)
    requires |c.bufs| > 0 && c.count > 0 && ContentOk(c, i, x)
    ensures forall e :: 0 <= e < |x.out| ==> SentOk(c, i, e, Send(x, d, Pending(slot)).out[e])
  {
    forall e | 0 <= e < |x.out| ensures SentOk(c, i, e, Send(x, d, Pending(slot)).out[e]) {
      assert SentOk(c, i, e, x.out[e]);
    }
  }

  lemma RootContent(c: Config, st: State)
    requires WellFormed(c) && ProgramCan(c, st, 0) && RankOk(c, 0, st[0]) && ContentOk(c, 0, st[0])
    requires !InRound(st[0].pc)
    ensures ContentOk(c, 0, ProgramStep(c, st, 0))
  {
    var x := st[0];
    StrncmpReflexive(c.sha(Origin(c)), DIGEST_LENGTH);
    if x.pc.DigestPost? && x.pc.src < c.size {
      assert x.got[x.pc.src] <= |x.recvs[x.pc.src]|;
    }
  }

  lemma LeafContent(c: Config, st: State, i: nat)
    requires WellFormed(c) && ProgramCan(c, st, i) && RankOk(c, i, st[i]) && ContentOk(c, i, st[i])
    requires !InRound(st[i].pc) && 0 < i < c.size
    ensures ContentOk(c, i, ProgramStep(c, st, i))
  {
    var x, x' := st[i], ProgramStep(c, st, i);
    AfterRoundsWhole(c, i, x);
    assert |x.out[0]| == OutLen(c, i, 0, x.pc);
    forall d | 0 <= d < |x'.out| ensures SentOk(c, i, d, x'.out[d]) {
      assert SentOk(c, i, d, x.out[d]);
    }
  }

  lemma ProgramContent(c: Config, st: State, i: nat)
    requires WellFormed(c) && Inv(c, st) && ContentInv(c, st) && ProgramCan(c, st, i)
    ensures ContentOk(c, i, ProgramStep(c, st, i))
  {
    assert RankOk(c, i, st[i]) && ContentOk(c, i, st[i]);
    if InRound(st[i].pc) { RoundContent(c, st, i); }
    else if i == 0 { RootContent(c, st); }
    else { LeafContent(c, st, i); }
  }

  lemma MovedContent(c: Config, st: State, step: Step)
    requires WellFormed(c) && Inv(c, st) && NothingDangles(st) && ContentInv(c, st) && Enabled(c, st, step)
    ensures ContentOk(c, Mover(step), Moved(c, st, step))
  {
    if step.Program? {
      ProgramContent(c, st, step.i);
    } else if step.Delivery? {
      NextIsSafe(c, st, step.s, step.d);
      DeliverContent(c, st, step.s, step.d, step.junk);
    } else if step.Copy? {
      CaptureContent(c, st, step.s, step.d, step.k, step.junk);
    } else {
      assert ContentOk(c, step.i, st[step.i]);
    }
  }

  lemma StepContent(c: Config, st: State, step: Step)
    requires WellFormed(c) && Inv(c, st) && NothingDangles(st) && ContentInv(c, st) && Enabled(c, st, step)
    ensures ContentInv(c, Next(c, st, step))
  {
    MovedContent(c, st, step);
  }

  /** Content and safe release go together: in direction 1-N only correct content rules out the
      mismatch after which rank 0 would release its buffer too early. */
  lemma ContentIsSafe(c: Config, st: State)
    requires WellFormed(c) && Inv(c, st) && (c.dir == DirOut ==> ContentInv(c, st))
    requires c.dir == DirOut || c.size == 1 || (SentInFull(st) && (c.dir == DirIn || c.size == 2))
    ensures NothingDangles(st)
  {
    if c.dir == DirOut {
      forall i | 0 <= i < |st| ensures !st[i].pc.Mismatch? { assert ContentOk(c, i, st[i]); }
    }
    SafeState(c, st);
    TakenMeansRead(c, st);
  }

  lemma {:induction false} RunContent(c: Config, states: seq<State>, steps: seq<Step>, i: nat)
    requires WellFormed(c) && Uniform(c) && Careful(c, steps) && IsRun(c, states, steps) && i < |states|
    ensures ContentInv(c, states[i])
  {
    if i == 0 {
      StartContent(c);
    } else {
      RunContent(c, states, steps, i - 1);
      RunInv(c, states, steps, i - 1);
      if Synchronous(steps) { RunSentInFull(c, states, steps, i - 1); }
      ContentIsSafe(c, states[i - 1]);
      StepContent(c, states[i - 1], steps[i - 1]);
    }
  }

  /** In the runs called careful no released buffer is read. */
  lemma CarefulIsSafe(c: Config, states: seq<State>, steps: seq<Step>, i: nat)
    requires WellFormed(c) && Careful(c, steps) && IsRun(c, states, steps) && i < |states|
    ensures NothingDangles(states[i])
  {
    RunInv(c, states, steps, i);
    if c.dir == DirOut { RunContent(c, states, steps, i); }
    if Synchronous(steps) { RunSentInFull(c, states, steps, i); }
    ContentIsSafe(c, states[i]);
  }

  // ----- Theorems -----

  /** In direction 1-N rank 0's buffer never changes, and whenever a rank has completed a round
      its whole buffer is rank 0's, whatever it held at first. */
  lemma BroadcastCorrect(c: Config, states: seq<State>, steps: seq<Step>, n: nat, i: nat)
    requires WellFormed(c) && c.dir == DirOut && IsRun(c, states, steps) && n < |states| && i < c.size
    ensures |states[n]| == c.size && states[n][0].buf == c.bufs[0]
    ensures var x := states[n][i];
            (!InRound(x.pc) || ((x.pc.AtBarrier? || x.pc.InBarrier?) && x.pc.r >= 1)) ==> x.buf == c.bufs[0]
  {
    RunInv(c, states, steps, n);
    RunContent(c, states, steps, n);
    var x := states[n][i];
    assert RankOk(c, i, x) && ContentOk(c, i, x) && ContentOk(c, 0, states[n][0]);
    if !InRound(x.pc) {
      AfterRoundsWhole(c, i, x);
    } else if (x.pc.AtBarrier? || x.pc.InBarrier?) && x.pc.r >= 1 {
      CompletedRoundWhole(c, i, x);
    }
  }

  lemma CompletedRoundWhole(c: Config, i: nat, x: Rank)
    requires WellFormed(c) && c.dir == DirOut && i < c.size && RankOk(c, i, x) && BufOk(c, i, x)
    requires (x.pc.AtBarrier? || x.pc.InBarrier?) && x.pc.r >= 1
    ensures x.buf == Origin(c)
  {
    if i != 0 {
      assert Settled(c, i, 0, x.pc) <= x.got[0];
      TimesGrow(1, x.pc.r, c.count);
      assert Times(1, c.count) == c.count;
    }
    WholeBuffer(c, i, x);
  }

  /** Ranks that begin with one packet keep it, in every direction and interleaving, as long as the
      releases are safe. */
  lemma EqualBuffersStayEqual(c: Config, states: seq<State>, steps: seq<Step>, n: nat, i: nat)
    requires WellFormed(c) && Careful(c, steps) && IsRun(c, states, steps) && n < |states| && i < c.size
    requires forall j :: 0 <= j < c.size ==> c.bufs[j] == c.bufs[0]
    ensures |states[n]| == c.size && states[n][i].buf == c.bufs[0]
  {
    RunInv(c, states, steps, n);
    RunContent(c, states, steps, n);
    assert ContentOk(c, i, states[n][i]) && RankOk(c, i, states[n][i]);
    WholeBuffer(c, i, states[n][i]);
  }

  /** Then `verify_checksum` reports no mismatch. */
  lemma NoMismatch(c: Config, states: seq<State>, steps: seq<Step>, n: nat)
    requires WellFormed(c) && Uniform(c) && Careful(c, steps) && IsRun(c, states, steps) && n < |states|
    ensures !Mismatched(states[n])
  {
    RunInv(c, states, steps, n);
    RunContent(c, states, steps, n);
    forall i | 0 <= i < |states[n]| ensures !states[n][i].pc.Mismatch? {
      assert ContentOk(c, i, states[n][i]);
    }
  }
}
