/** What `verify_checksum` finds out, over whole runs: rank 0 goes on past a rank exactly when their
    digests agree up to the first zero byte, and reports the first rank for which they do not. */
module MpiDigest {
  import opened Memory
  import opened MpiRun
  import opened MpiInvariant
  import opened MpiSteps
  import opened MpiLiveness

  /** Equal up to and including the first zero byte, or over the whole length. */
  ghost predicate AgreeToZero(a: seq<byte>, b: seq<byte>) {
    && |a| == |b| == 20
    && forall i :: 0 <= i < 20 && (forall j :: 0 <= j < i ==> a[j] != 0) ==> a[i] == b[i]
  }

  /** They differ somewhere before either has had a zero byte. */
  ghost predicate DifferBeforeZero(a: seq<byte>, b: seq<byte>) {
    && |a| == |b| == 20
    && exists i :: 0 <= i < 20 && (forall j :: 0 <= j < i ==> a[j] != 0 && a[j] == b[j]) && a[i] != b[i]
  }

  lemma {:induction false} FirstDifference(a: seq<byte>, b: seq<byte>, n: nat)
    requires |a| >= n && |b| >= n && !StrncmpEqual(a, b, n)
    ensures exists i :: 0 <= i < n && (forall j :: 0 <= j < i ==> a[j] != 0 && a[j] == b[j]) && a[i] != b[i]
  {
    if a[0] == b[0] {
      FirstDifference(a[1..], b[1..], n - 1);
      var i :| 0 <= i < n - 1 && a[1..][i] != b[1..][i] &&
               (forall j :: 0 <= j < i ==> a[1..][j] != 0 && a[1..][j] == b[1..][j]);
      forall j | 0 <= j < i + 1 ensures a[j] != 0 && a[j] == b[j] {
        if j > 0 { assert a[1..][j - 1] == b[1..][j - 1]; }
      }
      assert a[i + 1] != b[i + 1];
    }
  }

  lemma ComparisonIs(a: seq<byte>, b: seq<byte>)
    requires |a| == |b| == DIGEST_LENGTH
    ensures StrncmpEqual(a, b, DIGEST_LENGTH) <==> AgreeToZero(a, b)
    ensures !StrncmpEqual(a, b, DIGEST_LENGTH) ==> DifferBeforeZero(a, b)
  {
    StrncmpIs(a, b, DIGEST_LENGTH);
    if !StrncmpEqual(a, b, DIGEST_LENGTH) { FirstDifference(a, b, DIGEST_LENGTH); }
  }

  // ----- The invariant -----

  /** Rank 0 has dealt with the digests of the ranks from 1 up to this one. */
  function Cleared(c: Config, pc: Pc): nat {
    match pc
    case DigestPost(src) => src
    case DigestWait(src) => src
    case Mismatch(src) => src
    case Done => c.size
    case _ => 1
  }

  /** Rank `s` has sent the digest of the buffer it holds. */
  predicate SentDigest(c: Config, s: nat, x: Rank) {
    0 < |x.out| && |x.out[0]| == AllData(c, s, 0) + 1 && x.out[0][AllData(c, s, 0)] == Digest(c.sha(x.buf))
  }

  ghost predicate LeafDigest(c: Config, s: nat, x: Rank) {
    s != 0 && (x.pc == DigestSent || x.pc == Done) ==> SentDigest(c, s, x)
  }

  ghost predicate RootDigest(c: Config, st: State)
    requires |st| > 0
  {
    var x := st[0];
    && (forall s :: 1 <= s < Cleared(c, x.pc) && s < |st| ==>
          SentDigest(c, s, st[s]) && AgreeToZero(c.sha(x.buf), c.sha(st[s].buf)))
    && (x.pc.DigestWait? && x.pc.src < |st| && OneReceived(x, x.pc.src) ==>
          SentDigest(c, x.pc.src, st[x.pc.src]) && x.digest == c.sha(st[x.pc.src].buf))
    && (x.pc.Mismatch? && x.pc.src < |st| ==>
          SentDigest(c, x.pc.src, st[x.pc.src]) && DifferBeforeZero(c.sha(x.buf), c.sha(st[x.pc.src].buf)))
  }

  ghost predicate DigestInv(c: Config, st: State) {
    && |st| == c.size > 0 && RootDigest(c, st)
    && (forall s :: 0 <= s < c.size ==> LeafDigest(c, s, st[s]))
  }

  lemma StartDigest(c: Config)
    requires WellFormed(c)
    ensures DigestInv(c, Start(c))
  {}

  /** A rank that has sent its digest is past its rounds: nothing more is delivered to it. */
  lemma NothingMore(c: Config, st: State, s: nat, d: nat)
    requires WellFormed(c) && Inv(c, st) && CanDeliver(c, st, s, d)
    ensures d != 0 ==> InRound(st[d].pc)
    ensures d == 0 ==> InRound(st[0].pc) || (st[0].pc == DigestWait(s) && st[0].got[s] == AllData(c, s, 0))
  {
    assert RankOk(c, d, st[d]) && RankOk(c, s, st[s]);
    assert Settled(c, d, s, st[d].pc) <= st[d].got[s] < |st[d].recvs[s]| == RecvLen(c, d, s, st[d].pc);
  }

  lemma SentIsAfterRounds(c: Config, s: nat, x: Rank)
    requires WellFormed(c) && RankOk(c, s, x) && s < c.size && SentDigest(c, s, x)
    ensures !InRound(x.pc)
  {
    assert |x.out[0]| == OutLen(c, s, 0, x.pc);
    if InRound(x.pc) { SendsBound(c, s, 0, x.pc); }
  }

  // ----- Steps -----

  /** A step of another rank than 0 that keeps a sent digest keeps the invariant. */
  lemma LeafMoves(c: Config, st: State, m: nat, x': Rank)
    requires DigestInv(c, st) && 0 < m < c.size && LeafDigest(c, m, x')
    requires SentDigest(c, m, st[m]) ==> SentDigest(c, m, x') && x'.buf == st[m].buf
    ensures DigestInv(c, st[m := x'])
  {}

  lemma LeafProgramDigest(c: Config, st: State, i: nat)
    requires WellFormed(c) && Inv(c, st) && DigestInv(c, st) && ProgramCan(c, st, i) && i != 0
    ensures DigestInv(c, st[i := ProgramStep(c, st, i)])
  {
    var x, x' := st[i], ProgramStep(c, st, i);
    assert RankOk(c, i, x);
    assert |x.out[0]| == OutLen(c, i, 0, x.pc);
    if SentDigest(c, i, x) { SentIsAfterRounds(c, i, x); }
    LeafMoves(c, st, i, x');
  }

  lemma RootProgramDigest(c: Config, st: State)
    requires WellFormed(c) && Inv(c, st) && DigestInv(c, st) && ProgramCan(c, st, 0)
    ensures DigestInv(c, st[0 := ProgramStep(c, st, 0)])
  {
    var x := st[0];
    assert RankOk(c, 0, x);
    if x.pc.DigestWait? {
      ComparisonIs(c.sha(x.buf), x.digest);
    } else if x.pc.DigestPost? && x.pc.src < c.size {
      assert x.got[x.pc.src] <= |x.recvs[x.pc.src]|;
    }
  }

  lemma EarlyDigest(c: Config, st: State, i: nat)
    requires WellFormed(c) && Inv(c, st) && DigestInv(c, st) && i < |st| && st[i].pc == DigestSent
    ensures DigestInv(c, st[i := st[i].(pc := Done)])
  {
    assert RankOk(c, i, st[i]);
    LeafMoves(c, st, i, st[i].(pc := Done));
  }

  lemma DeliveryDigest(c: Config, st: State, s: nat, d: nat, junk: seq<byte>)
    requires WellFormed(c) && Inv(c, st) && DigestInv(c, st) && CanDeliver(c, st, s, d)
    ensures DigestInv(c, st[d := Deliver(c, st, s, d, junk)])
  {
    NothingMore(c, st, s, d);
    assert RankOk(c, d, st[d]) && RankOk(c, s, st[s]);
    if d != 0 {
      if SentDigest(c, d, st[d]) { SentIsAfterRounds(c, d, st[d]); }
      LeafMoves(c, st, d, Deliver(c, st, s, d, junk));
    } else if !InRound(st[0].pc) {
      RootReceives(c, st, s, junk);
    }
  }

  lemma RootReceives(c: Config, st: State, s: nat, junk: seq<byte>)
    requires WellFormed(c) && Inv(c, st) && DigestInv(c, st) && CanDeliver(c, st, s, 0)
    requires st[0].pc == DigestWait(s) && st[0].got[s] == AllData(c, s, 0)
    ensures DigestInv(c, st[0 := Deliver(c, st, s, 0, junk)])
  {
    assert RankOk(c, 0, st[0]) && RankOk(c, s, st[s]);
    var k := st[0].got[s];
    assert RecvsOk(c, s, 0, st[0].recvs[s]) && st[0].recvs[s][k] == SinkAt(c, s, 0, k);
    assert |st[s].out[0]| == OutLen(c, s, 0, st[s].pc);
    if InRound(st[s].pc) { SendsBound(c, s, 0, st[s].pc); }
    assert SentDigest(c, s, st[s]);
  }

  lemma CaptureDigest(c: Config, st: State, s: nat, d: nat, k: nat, junk: seq<byte>)
    requires WellFormed(c) && Inv(c, st) && DigestInv(c, st) && Unread(st, s, d, k)
    ensures DigestInv(c, st[s := Capture(c, st, s, d, k, junk)])
  {
    assert RankOk(c, s, st[s]);
    if s == 0 {
      RootSends(c, st, Capture(c, st, s, d, k, junk));
    } else {
      LeafMoves(c, st, s, Capture(c, st, s, d, k, junk));
    }
  }

  /** What rank 0 sends does not matter here. */
  lemma RootSends(c: Config, st: State, x': Rank)
    requires DigestInv(c, st) && PcOk(c, 0, st[0].pc) && x' == st[0].(out := x'.out)
    ensures DigestInv(c, st[0 := x'])
  {}

  lemma StepDigest(c: Config, st: State, step: Step)
    requires WellFormed(c) && Inv(c, st) && DigestInv(c, st) && Enabled(c, st, step)
    ensures DigestInv(c, Next(c, st, step))
  {
    if step.Program? {
      if step.i == 0 { RootProgramDigest(c, st); } else { LeafProgramDigest(c, st, step.i); }
    } else if step.EarlyReturn? {
      EarlyDigest(c, st, step.i);
    } else if step.Delivery? {
      DeliveryDigest(c, st, step.s, step.d, step.junk);
    } else {
      CaptureDigest(c, st, step.s, step.d, step.k, step.junk);
    }
  }

  lemma {:induction false} RunDigest(c: Config, states: seq<State>, steps: seq<Step>, n: nat)
    requires WellFormed(c) && IsRun(c, states, steps) && n < |states|
    ensures DigestInv(c, states[n])
  {
    if n == 0 {
      StartDigest(c);
    } else {
      RunDigest(c, states, steps, n - 1);
      RunInv(c, states, steps, n - 1);
      StepDigest(c, states[n - 1], steps[n - 1]);
    }
  }

  // ----- Theorems -----

  lemma AgreeOrDiffer(a: seq<byte>, b: seq<byte>)
    requires |a| == |b| == 20
    ensures AgreeToZero(a, b) <==> !DifferBeforeZero(a, b)
  {
    ComparisonIs(a, b);
    if DifferBeforeZero(a, b) {
      var i :| 0 <= i < 20 && (forall j :: 0 <= j < i ==> a[j] != 0 && a[j] == b[j]) && a[i] != b[i];
      assert !AgreeToZero(a, b);
    }
  }

  /** At any time rank `s` has sent the digest of the buffer it holds and rank 0's agrees with it, if
      rank 0 has gone past it. */
  ghost predicate Matched(c: Config, st: State, s: nat)
    requires 0 < |st| && s < |st|
  {
    SentDigest(c, s, st[s]) && AgreeToZero(c.sha(st[0].buf), c.sha(st[s].buf))
  }

  /** In every state of every run rank 0 has gone past exactly ranks whose digests agree with its own
      to the first zero byte of 20, and the rank it reports is one whose digest differs before. */
  lemma DigestCheck(c: Config, states: seq<State>, steps: seq<Step>, n: nat)
    requires WellFormed(c) && IsRun(c, states, steps) && n < |states|
    ensures var st := states[n];
            && |st| == c.size > 0
            && (st[0].pc.DigestPost? || st[0].pc.DigestWait? || st[0].pc.Mismatch? ==>
                  1 <= st[0].pc.src <= c.size && forall s :: 1 <= s < st[0].pc.src ==> Matched(c, st, s))
            && (st[0].pc == Done ==> forall s :: 1 <= s < c.size ==> Matched(c, st, s))
            && (st[0].pc.Mismatch? ==>
                  && st[0].pc.src < c.size && SentDigest(c, st[0].pc.src, st[st[0].pc.src])
                  && DifferBeforeZero(c.sha(st[0].buf), c.sha(st[st[0].pc.src].buf)))
  {
    RunInv(c, states, steps, n);
    RunDigest(c, states, steps, n);
    assert RankOk(c, 0, states[n][0]);
  }

  /** A run that has come to its end has all ranks done exactly when all digests agree with rank 0's;
      otherwise rank 0 has reported the first that does not. */
  lemma MismatchIff(c: Config, states: seq<State>, steps: seq<Step>)
    requires WellFormed(c) && IsRun(c, states, steps)
    requires Final(states[|steps|]) || StoppedByMismatch(states[|steps|])
    ensures var st := states[|steps|];
            && |st| == c.size > 0
            && (Final(st) <==> forall s :: 1 <= s < c.size ==> AgreeToZero(c.sha(st[0].buf), c.sha(st[s].buf)))
            && (StoppedByMismatch(st) ==>
                  && 1 <= st[0].pc.src < c.size
                  && !AgreeToZero(c.sha(st[0].buf), c.sha(st[st[0].pc.src].buf))
                  && forall s :: 1 <= s < st[0].pc.src ==> AgreeToZero(c.sha(st[0].buf), c.sha(st[s].buf)))
  {
    DigestCheck(c, states, steps, |steps|);
    var st := states[|steps|];
    var passed := if StoppedByMismatch(st) then st[0].pc.src else c.size;
    forall s | 1 <= s < passed ensures AgreeToZero(c.sha(st[0].buf), c.sha(st[s].buf)) {
      assert Matched(c, st, s);
    }
    if StoppedByMismatch(st) {
      AgreeOrDiffer(c.sha(st[0].buf), c.sha(st[st[0].pc.src].buf));
      assert st[0].pc != Done;
    }
  }
}
