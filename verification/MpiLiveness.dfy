/** The N-rank run never deadlocks and always ends, for every size, count, repeat and direction,
    and even when `MPI_Send` never buffers. */
module MpiLiveness {
  import opened Memory
  import opened MpiRun
  import opened MpiInvariant
  import opened MpiSteps

  // ----- No deadlock -----

  /** No rank can go on and no message can be delivered. */
  ghost predicate Quiet(c: Config, st: State) {
    && (forall i :: 0 <= i < |st| ==> !ProgramCan(c, st, i))
    && (forall s, d :: 0 <= s < |st| && 0 <= d < |st| ==> !CanDeliver(c, st, s, d))
  }

  /** A sent message with a posted receive can always be delivered: their kinds agree. */
  lemma DeliveryReady(c: Config, st: State, s: nat, d: nat)
    requires WellFormed(c) && Inv(c, st) && s < c.size && d < c.size
    requires s < |st[d].got| && s < |st[d].recvs| && d < |st[s].out|
    requires st[d].got[s] < |st[s].out[d]| && st[d].got[s] < |st[d].recvs[s]|
    ensures CanDeliver(c, st, s, d)
  {
    var k := st[d].got[s];
    assert RankOk(c, s, st[s]) && RankOk(c, d, st[d]);
    assert OutOk(c, s, d, st[s].out[d]) && RecvsOk(c, s, d, st[d].recvs[s]);
    assert MsgOk(c, s, d, k, st[s].out[d][k]) && st[d].recvs[s][k] == SinkAt(c, s, d, k);
    SlotFits(c, SlotOf(k, c.count));
  }

  /** In a quiet state, whoever waits for a message waits for one that was not sent. */
  lemma QuietMeansUnsent(c: Config, st: State, s: nat, d: nat)
    requires WellFormed(c) && Inv(c, st) && Quiet(c, st) && s < c.size && d < c.size
    ensures RankOk(c, s, st[s]) && RankOk(c, d, st[d])
    ensures st[d].got[s] < |st[d].recvs[s]| ==> OutLen(c, s, d, st[s].pc) <= st[d].got[s]
  {
    assert RankOk(c, s, st[s]) && RankOk(c, d, st[d]);
    if st[d].got[s] < |st[d].recvs[s]| && st[d].got[s] < |st[s].out[d]| {
      DeliveryReady(c, st, s, d);
    }
  }

  /** In a quiet state every rank is at one of the waiting points or has returned. */
  lemma QuietPc(c: Config, st: State, i: nat)
    requires WellFormed(c) && Inv(c, st) && Quiet(c, st) && i < c.size
    ensures st[i].pc.InBarrier? || st[i].pc.Waiting? || st[i].pc.DigestWait? || st[i].pc.DigestSent? || Released(st[i])
  {
    assert !ProgramCan(c, st, i);
  }

  /** A rank that has left barrier `r` and is not inside barrier `r` has sent its round `r`. */
  lemma SentRound(c: Config, s: nat, d: nat, pc: Pc, r: nat)
    requires PcOk(c, s, pc) && (pc.InBarrier? || pc.Waiting? || !InRound(pc))
    requires ArrivedAt(c, pc) > r && pc != InBarrier(r) && r < c.repeat
    ensures OutLen(c, s, d, pc) >= DataIn(c, s, d, r + 1)
  {
    TimesGrow(r + 1, c.repeat, c.count);
    if pc.InBarrier? { TimesGrow(r + 1, pc.r, c.count); }
    if pc.Waiting? { TimesGrow(r + 1, pc.r + 1, c.count); }
  }

  lemma NobodyWaits(c: Config, st: State, d: nat)
    requires WellFormed(c) && Inv(c, st) && Quiet(c, st) && d < c.size
    ensures !st[d].pc.Waiting?
  {
    assert RankOk(c, d, st[d]);
    if st[d].pc.Waiting? {
      var r := st[d].pc.r;
      assert !ProgramCan(c, st, d);
      var s :| 0 <= s < c.size && st[d].got[s] != |st[d].recvs[s]|;
      QuietMeansUnsent(c, st, s, d);
      QuietPc(c, st, s);
      assert st[s].arrived >= Passed(c, st[d].pc);
      assert |st[d].recvs[s]| == RecvLen(c, d, s, st[d].pc);
      if st[s].pc == InBarrier(r) {
        assert AllArrived(st, r + 1) by {
          assert forall j :: 0 <= j < c.size ==> st[j].arrived >= Passed(c, st[d].pc);
        }
        assert ProgramCan(c, st, s);
      } else {
        SentRound(c, s, d, st[s].pc, r);
      }
    }
  }

  /** Of the ranks inside a barrier, one at the lowest can leave. */
  lemma NobodyInBarrier(c: Config, st: State, i: nat)
    requires WellFormed(c) && Inv(c, st) && Quiet(c, st) && i < c.size
    ensures !st[i].pc.InBarrier?
    decreases if st[i].pc.InBarrier? then st[i].pc.r else 0
  {
    if st[i].pc.InBarrier? {
      var r := st[i].pc.r;
      assert RankOk(c, i, st[i]);
      assert !ProgramCan(c, st, i);
      var j :| 0 <= j < c.size && st[j].arrived < r + 1;
      assert RankOk(c, j, st[j]);
      QuietPc(c, st, j);
      NobodyWaits(c, st, j);
      LateRank(c, j, st[j].pc, r);
      NobodyInBarrier(c, st, j);
    }
  }

  lemma LateRank(c: Config, j: nat, pc: Pc, r: nat)
    requires PcOk(c, j, pc) && r < c.repeat && ArrivedAt(c, pc) <= r
    requires pc.InBarrier? || pc.DigestWait? || pc.DigestSent? || pc.Done? || pc.Mismatch?
    ensures pc.InBarrier? && pc.r < r
  {}

  lemma RootFinished(c: Config, st: State)
    requires WellFormed(c) && Inv(c, st) && Quiet(c, st)
    ensures Released(st[0])
  {
    assert RankOk(c, 0, st[0]);
    QuietPc(c, st, 0);
    NobodyWaits(c, st, 0);
    NobodyInBarrier(c, st, 0);
    if st[0].pc.DigestWait? {
      var src := st[0].pc.src;
      assert !ProgramCan(c, st, 0);
      QuietPc(c, st, src);
      NobodyWaits(c, st, src);
      NobodyInBarrier(c, st, src);
      QuietMeansUnsent(c, st, src, 0);
    }
  }

  /** The digest of rank `i` has been compared, or will be. */
  predicate Compared(root: Pc, i: nat) { root.Mismatch? ==> i <= root.src }

  lemma LeafFinished(c: Config, st: State, i: nat)
    requires WellFormed(c) && Inv(c, st) && Quiet(c, st) && 0 < i < c.size
    ensures st[i].pc == Done || (st[i].pc == DigestSent && !Compared(st[0].pc, i))
  {
    assert RankOk(c, i, st[i]) && RankOk(c, 0, st[0]);
    RootFinished(c, st);
    QuietPc(c, st, i);
    NobodyWaits(c, st, i);
    NobodyInBarrier(c, st, i);
    if st[i].pc == DigestSent && Compared(st[0].pc, i) { ComparedIsTaken(c, st, i); }
  }

  lemma ComparedIsTaken(c: Config, st: State, i: nat)
    requires |st| == c.size && 0 < i < c.size && RankOk(c, i, st[i]) && RankOk(c, 0, st[0])
    requires st[i].pc == DigestSent && Released(st[0]) && Compared(st[0].pc, i)
    ensures ProgramCan(c, st, i)
  {
    assert Settled(c, 0, i, st[0].pc) <= st[0].got[i] <= |st[0].recvs[i]|;
    assert |st[0].recvs[i]| == RecvLen(c, 0, i, st[0].pc);
    assert |st[i].out[0]| == OutLen(c, i, 0, st[i].pc);
  }

  /** Rank 0 has reported a mismatch and returned. The ranks up to the one it complained about are
      done; those after it are held in `MPI_Send`, unless it buffered their digest. */
  ghost predicate StoppedByMismatch(st: State) {
    && |st| > 0 && st[0].pc.Mismatch?
    && forall i :: 0 < i < |st| ==> st[i].pc == Done || (st[i].pc == DigestSent && !Compared(st[0].pc, i))
  }

  /** As long as the run is neither over nor stopped by a mismatch, a rank can go on or a message
      can be delivered. */
  lemma NoDeadlock(c: Config, st: State)
    requires WellFormed(c) && Inv(c, st) && !Final(st) && !StoppedByMismatch(st)
    ensures exists step :: Enabled(c, st, step) && !step.EarlyReturn?
  {
    if Quiet(c, st) {
      RootFinished(c, st);
      forall i | 0 < i < |st| ensures st[i].pc == Done || (st[i].pc == DigestSent && !Compared(st[0].pc, i)) {
        LeafFinished(c, st, i);
      }
    } else {
      StepFromNoise(c, st);
    }
  }

  lemma StepFromNoise(c: Config, st: State)
    requires !Quiet(c, st)
    ensures exists step :: Enabled(c, st, step) && !step.EarlyReturn?
  {
    if exists i :: 0 <= i < |st| && ProgramCan(c, st, i) {
      var i :| 0 <= i < |st| && ProgramCan(c, st, i);
      assert Enabled(c, st, Program(i));
    } else {
      var s, d :| 0 <= s < |st| && 0 <= d < |st| && CanDeliver(c, st, s, d);
      assert Enabled(c, st, Delivery(s, d, []));
    }
  }
}
