/** When a rank releases its buffer: which of its fire-and-forget sends have been read by then. */
module MpiRelease {
  import opened Memory
  import opened MpiPlan
  import opened MpiRun
  import opened MpiInvariant
  import opened MpiSteps

  /** No rank has released a buffer that a send still refers to. */
  ghost predicate NothingDangles(st: State) {
    forall s: nat, d: nat, k: nat :: Unread(st, s, d, k) ==> !Released(st[s])
  }

  /** Then the next message of any channel is not read from a released buffer. */
  lemma NextIsSafe(c: Config, st: State, s: nat, d: nat)
    requires NothingDangles(st) && CanDeliver(c, st, s, d)
    ensures st[s].out[d][st[d].got[s]].Pending? ==> !Released(st[s])
  {
    assert st[s].out[d][st[d].got[s]].Pending? ==> Unread(st, s, d, st[d].got[s]);
  }

  /** All data that `s` ever sends to `d` has been received. */
  predicate Taken(c: Config, st: State, s: nat, d: nat) {
    s < |st| && d < |st| && s < |st[d].got| && st[d].got[s] >= AllData(c, s, d)
  }

  ghost predicate AllTaken(c: Config, st: State) {
    forall s, d :: 0 <= s < c.size && 0 <= d < c.size && s < |st| && Released(st[s]) ==> Taken(c, st, s, d)
  }

  lemma TakenMeansRead(c: Config, st: State)
    requires WellFormed(c) && Inv(c, st) && AllTaken(c, st)
    ensures NothingDangles(st)
  {
    forall s: nat, d: nat, k: nat | Unread(st, s, d, k) ensures !Released(st[s]) {
      assert RankOk(c, s, st[s]);
      assert OutOk(c, s, d, st[s].out[d]);
      assert MsgOk(c, s, d, k, st[s].out[d][k]);
      assert Released(st[s]) ==> Taken(c, st, s, d);
    }
  }

  // ----- Rank 0 -----

  /** A rank whose digest rank 0 has received has received all data from rank 0. */
  lemma DigestMeansTaken(c: Config, st: State, d: nat)
    requires WellFormed(c) && Inv(c, st) && 0 < d < c.size && Released(st[0])
    requires st[0].pc.Mismatch? ==> d <= st[0].pc.src
    ensures Taken(c, st, 0, d)
  {
    assert RankOk(c, 0, st[0]) && RankOk(c, d, st[d]) && PairOk(st[d], st[0], d, 0);
    assert Settled(c, 0, d, st[0].pc) <= st[0].got[d];
    assert |st[d].out[0]| == OutLen(c, d, 0, st[d].pc);
    if InRound(st[d].pc) { SendsBound(c, d, 0, st[d].pc); }
    assert Settled(c, d, 0, st[d].pc) <= st[d].got[0];
  }

  lemma NothingToSelf(c: Config, st: State, s: nat)
    requires WellFormed(c) && Inv(c, st) && s < c.size
    ensures AllData(c, s, s) == 0 && Taken(c, st, s, s)
  {
    TableMatches(c.dir, s, s);
    assert RankOk(c, s, st[s]);
  }

  lemma RootTaken(c: Config, st: State, d: nat)
    requires WellFormed(c) && Inv(c, st) && d < c.size && Released(st[0])
    requires c.dir == DirIn || c.size <= 2 || (c.dir == DirOut && !Mismatched(st))
    ensures Taken(c, st, 0, d)
  {
    assert RankOk(c, d, st[d]) && RankOk(c, 0, st[0]);
    if d == 0 {
      NothingToSelf(c, st, 0);
    } else if c.dir != DirIn {
      DigestMeansTaken(c, st, d);
    }
  }

  // ----- The other ranks -----

  /** A rank that has returned has had its digest received: the effect of a synchronous `MPI_Send`. */
  ghost predicate SentInFull(st: State) {
    forall i :: 0 < i < |st| && st[i].pc == Done ==>
      i < |st[0].got| && 0 < |st[i].out| && st[0].got[i] == |st[i].out[0]|
  }

  lemma StartSentInFull(c: Config)
    requires WellFormed(c)
    ensures SentInFull(Start(c))
  {}

  lemma DeliverySentInFull(c: Config, st: State, s: nat, d: nat, junk: seq<byte>)
    requires SentInFull(st) && CanDeliver(c, st, s, d)
    ensures SentInFull(st[d := Deliver(c, st, s, d, junk)])
  {
    var st' := st[d := Deliver(c, st, s, d, junk)];
    forall i | 0 < i < |st'| && st'[i].pc == Done
      ensures i < |st'[0].got| && 0 < |st'[i].out| && st'[0].got[i] == |st'[i].out[0]|
    {
      assert st[i].pc == Done && st'[i].out == st[i].out;
    }
  }

  lemma CaptureSentInFull(c: Config, st: State, s: nat, d: nat, k: nat, junk: seq<byte>)
    requires SentInFull(st) && Unread(st, s, d, k)
    ensures SentInFull(st[s := Capture(c, st, s, d, k, junk)])
  {
    var st' := st[s := Capture(c, st, s, d, k, junk)];
    forall i | 0 < i < |st'| && st'[i].pc == Done
      ensures i < |st'[0].got| && 0 < |st'[i].out| && st'[0].got[i] == |st'[i].out[0]|
    {
      assert st[i].pc == Done;
    }
  }

  lemma ProgramSentInFull(c: Config, st: State, i: nat)
    requires Inv(c, st) && SentInFull(st) && ProgramCan(c, st, i)
    ensures SentInFull(st[i := ProgramStep(c, st, i)])
  {
    assert RankOk(c, i, st[i]);
    ProgramGrows(c, st, i);
  }

  lemma {:induction false} RunSentInFull(c: Config, states: seq<State>, steps: seq<Step>, n: nat)
    requires WellFormed(c) && IsRun(c, states, steps) && Synchronous(steps) && n < |states|
    ensures SentInFull(states[n])
  {
    if n == 0 {
      StartSentInFull(c);
    } else {
      RunSentInFull(c, states, steps, n - 1);
      RunInv(c, states, steps, n - 1);
      var st, step := states[n - 1], steps[n - 1];
      if step.Program? { ProgramSentInFull(c, st, step.i); }
      else if step.Delivery? { DeliverySentInFull(c, st, step.s, step.d, step.junk); }
      else { CaptureSentInFull(c, st, step.s, step.d, step.k, step.junk); }
    }
  }

  lemma LeafTaken(c: Config, st: State, s: nat, d: nat)
    requires WellFormed(c) && Inv(c, st) && 0 < s < c.size && d < c.size && Released(st[s])
    requires c.dir == DirOut || (SentInFull(st) && (c.dir == DirIn || c.size <= 2))
    ensures Taken(c, st, s, d)
  {
    assert RankOk(c, s, st[s]) && RankOk(c, d, st[d]);
    if s == d {
      NothingToSelf(c, st, s);
    } else if c.dir != DirOut && d == 0 {
      assert |st[s].out[0]| == OutLen(c, s, 0, st[s].pc);
    }
  }

  /** The releases that are safe, state by state. */
  lemma SafeState(c: Config, st: State)
    requires WellFormed(c) && Inv(c, st)
    requires if c.dir == DirOut then !Mismatched(st)
             else c.size == 1 || (SentInFull(st) && (c.dir == DirIn || c.size <= 2))
    ensures AllTaken(c, st)
  {
    forall s, d | 0 <= s < c.size && 0 <= d < c.size && Released(st[s]) ensures Taken(c, st, s, d) {
      if s == 0 { RootTaken(c, st, d); } else { LeafTaken(c, st, s, d); }
    }
  }

  /** Runs in which every release is safe: direction 1-N, a single rank, or, if `MPI_Send` is
      synchronous, direction N-1 or two ranks. */
  predicate Careful(c: Config, steps: seq<Step>) {
    c.dir == DirOut || c.size == 1 || (Synchronous(steps) && (c.dir == DirIn || c.size == 2))
  }
}
