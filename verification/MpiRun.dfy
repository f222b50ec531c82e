/** The N-rank benchmark run (`mpi_main.c`) as a transition system. Ranks move independently;
    messages between a pair of ranks match in posting order (the non-overtaking rule, section
    3.5 of the MPI standard, version 3.1), on one communicator and one tag. Sends are fire and
    forget, so a payload is read from the sender's buffer at some moment between the send and
    its delivery, which may be after the sender has released that buffer. */
module MpiRun {
  import opened Memory
  import opened MpiPlan

  const DIGEST_LENGTH: nat := 20

  datatype Config = Config(size: nat, count: nat, length: nat, repeat: nat, dir: Direction,
                           bufs: seq<seq<byte>>, sha: seq<byte> -> seq<byte>)

  ghost predicate WellFormed(c: Config) {
    && c.size > 0 && c.count > 0 && c.length > 0 && c.repeat > 0
    && |c.bufs| == c.size && (forall i :: 0 <= i < c.size ==> |c.bufs[i]| == Times(c.count, c.length))
    && (forall b :: |c.sha(b)| == DIGEST_LENGTH)
  }

  /** A data send that still refers to its buffer slot, one whose payload has been copied out of
      that slot, or a digest. */
  datatype Msg = Pending(slot: nat) | Captured(slot: nat, bytes: seq<byte>) | Digest(bytes: seq<byte>)

  datatype Sink = Slot(n: nat) | DigestVar

  /** `Sending` and `Posting` count the requests issued so far in round `r`; `Waiting` is the
      `MPI_Testall` loop. The digest phase is `verify_checksum`: rank 0 receives from each
      source in turn, the others send and wait for `MPI_Send` to return. */
  datatype Pc = AtBarrier(r: nat) | InBarrier(r: nat)
              | Sending(r: nat, k: nat) | Posting(r: nat, k: nat) | Waiting(r: nat)
              | DigestPost(src: nat) | DigestWait(src: nat) | Mismatch(src: nat)
              | DigestSend | DigestSent | Done

  datatype Rank = Rank(pc: Pc, arrived: nat, buf: seq<byte>,
                       out: seq<seq<Msg>>,      // everything sent, by destination
                       recvs: seq<seq<Sink>>,   // every receive posted, by source
                       got: seq<nat>,           // receives completed, by source
                       digest: seq<byte>)       // `remote_digest`

  type State = seq<Rank>

  function SendPlan(c: Config, i: nat): seq<Issue> {
    if ShouldSend(c.dir, i) then Plan(c.size, i, SendTarget(c.dir), c.count) else []
  }

  function RecvPlan(c: Config, i: nat): seq<Issue> {
    if ShouldRecv(c.dir, i) then Plan(c.size, i, RecvSource(c.dir), c.count) else []
  }

  function SlotBytes(c: Config, buf: seq<byte>, n: nat): seq<byte> {
    Peek(buf, Times(n, c.length), c.length)
  }

  /** `strncmp(a, b, n) == 0`: stops at the first difference or the first zero byte. */
  predicate StrncmpEqual(a: seq<byte>, b: seq<byte>, n: nat) {
    if n == 0 || |a| == 0 || |b| == 0 then true
    else if a[0] != b[0] then false
    else if a[0] == 0 then true
    else StrncmpEqual(a[1..], b[1..], n - 1)
  }

  // ----- Program steps of rank `i` -----

  function StartRank(c: Config, i: nat): Rank
    requires i < |c.bufs|
  {
    Rank(AtBarrier(0), 0, c.bufs[i], seq(c.size, _ => []), seq(c.size, _ => []), seq(c.size, _ => 0), [])
  }

  function Start(c: Config): State
    requires |c.bufs| == c.size
  {
    seq(c.size, i requires 0 <= i < c.size => StartRank(c, i))
  }

  function Send(x: Rank, d: nat, m: Msg): Rank {
    if d < |x.out| then x.(out := x.out[d := x.out[d] + [m]]) else x
  }

  function Recv(x: Rank, s: nat, k: Sink): Rank {
    if s < |x.recvs| then x.(recvs := x.recvs[s := x.recvs[s] + [k]]) else x
  }

  predicate AllReceived(x: Rank) {
    |x.got| == |x.recvs| && forall s :: 0 <= s < |x.got| ==> x.got[s] == |x.recvs[s]|
  }

  predicate OneReceived(x: Rank, s: nat) {
    s < |x.got| && s < |x.recvs| && x.got[s] == |x.recvs[s]|
  }

  predicate AllArrived(st: State, r: nat) {
    forall j :: 0 <= j < |st| ==> st[j].arrived >= r
  }

  function AfterRounds(i: nat): Pc { if i == 0 then DigestPost(1) else DigestSend }

  predicate ProgramCan(c: Config, st: State, i: nat) {
    i < |st| &&
    match st[i].pc
    case InBarrier(r) => AllArrived(st, r + 1)
    case Waiting(_) => AllReceived(st[i])
    case DigestWait(src) => OneReceived(st[i], src)
    // The synchronous completion of `MPI_Send`; it may also return earlier, see `EarlyReturn`.
    case DigestSent => i < |st[0].got| && 0 < |st[i].out| && st[0].got[i] == |st[i].out[0]|
    case Mismatch(_) => false
    case Done => false
    case _ => true
  }

  function ProgramStep(c: Config, st: State, i: nat): Rank
    requires ProgramCan(c, st, i)
  {
    var x := st[i];
    match x.pc
    case AtBarrier(r) => x.(arrived := r + 1, pc := InBarrier(r))
    case InBarrier(r) => x.(pc := Sending(r, 0))
    case Sending(r, k) =>
      var plan := SendPlan(c, i);
      if k < |plan| then Send(x, plan[k].peer, Pending(plan[k].slot)).(pc := Sending(r, k + 1))
      else x.(pc := Posting(r, 0))
    case Posting(r, k) =>
      var plan := RecvPlan(c, i);
      if k < |plan| then Recv(x, plan[k].peer, Slot(plan[k].slot)).(pc := Posting(r, k + 1))
      else x.(pc := Waiting(r))
    case Waiting(r) => x.(pc := if r + 1 < c.repeat then AtBarrier(r + 1) else AfterRounds(i))
    case DigestPost(src) =>
      if src < c.size then Recv(x, src, DigestVar).(pc := DigestWait(src)) else x.(pc := Done)
    case DigestWait(src) =>
      x.(pc := if StrncmpEqual(c.sha(x.buf), x.digest, DIGEST_LENGTH) then DigestPost(src + 1) else Mismatch(src))
    case DigestSend => Send(x, 0, Digest(c.sha(x.buf))).(pc := DigestSent)
    case DigestSent => x.(pc := Done)
    case _ => x
  }

  // ----- Message steps -----

  /** `verify_checksum` has returned, so `free(buf)` follows: from here on what is found at the
      buffer's address can be anything. */
  predicate Released(x: Rank) { x.pc.Done? || x.pc.Mismatch? }

  /** A slot's worth of anything. */
  function Fit(junk: seq<byte>, length: nat): (r: seq<byte>)
    ensures |r| == length
  {
    if |junk| == length then junk else seq(length, _ => 0)
  }

  /** What is read from slot `n` of rank `x`, where `junk` is what a released buffer shows. */
  function ReadSlot(c: Config, x: Rank, n: nat, junk: seq<byte>): seq<byte> {
    if Released(x) then Fit(junk, c.length) else SlotBytes(c, x.buf, n)
  }

  function Payload(c: Config, x: Rank, m: Msg, junk: seq<byte>): seq<byte> {
    match m case Pending(n) => ReadSlot(c, x, n, junk) case Captured(_, b) => b case Digest(b) => b
  }

  function SinkLength(c: Config, k: Sink): nat {
    match k case Slot(_) => c.length case DigestVar => DIGEST_LENGTH
  }

  predicate CanDeliver(c: Config, st: State, s: nat, d: nat) {
    && s < |st| && d < |st| && s < |st[d].got| && s < |st[d].recvs| && d < |st[s].out|
    && var k := st[d].got[s];
       && k < |st[s].out[d]| && k < |st[d].recvs[s]|
       && |Payload(c, st[s], st[s].out[d][k], [])| <= SinkLength(c, st[d].recvs[s][k])
       && (st[d].recvs[s][k].Slot? ==> Times(st[d].recvs[s][k].n, c.length) + c.length <= |st[d].buf|)
  }

  /** The oldest unmatched send of the pair meets the oldest unmatched receive. */
  function Deliver(c: Config, st: State, s: nat, d: nat, junk: seq<byte>): Rank
    requires CanDeliver(c, st, s, d)
  {
    var y := st[d];
    var k := y.got[s];
    var data := Payload(c, st[s], st[s].out[d][k], junk);
    var y' := y.(got := y.got[s := k + 1]);
    match y.recvs[s][k]
    case Slot(n) => y'.(buf := Put(y.buf, Times(n, c.length), data))
    case DigestVar => y'.(digest := data)
  }

  /** The `k`-th message from `s` to `d` is a send whose payload has not been read. */
  predicate Unread(st: State, s: nat, d: nat, k: nat) {
    && s < |st| && d < |st| && d < |st[s].out| && s < |st[d].got|
    && st[d].got[s] <= k < |st[s].out[d]| && st[s].out[d][k].Pending?
  }

  /** The library copies a payload out of the sender's buffer. */
  function Capture(c: Config, st: State, s: nat, d: nat, k: nat, junk: seq<byte>): Rank
    requires Unread(st, s, d, k)
  {
    var x := st[s];
    var n := x.out[d][k].slot;
    x.(out := x.out[d := x.out[d][k := Captured(n, ReadSlot(c, x, n, junk))]])
  }

  datatype Step = Program(i: nat) | EarlyReturn(i: nat)
                | Delivery(s: nat, d: nat, junk: seq<byte>) | Copy(s: nat, d: nat, k: nat, junk: seq<byte>)

  predicate Enabled(c: Config, st: State, step: Step) {
    match step
    case Program(i) => ProgramCan(c, st, i)
    case EarlyReturn(i) => i < |st| && st[i].pc == DigestSent
    case Delivery(s, d, _) => CanDeliver(c, st, s, d)
    case Copy(s, d, k, _) => Unread(st, s, d, k)
  }

  /** Every step changes one rank. */
  function Mover(step: Step): nat {
    match step case Program(i) => i case EarlyReturn(i) => i case Delivery(_, d, _) => d case Copy(s, _, _, _) => s
  }

  function Moved(c: Config, st: State, step: Step): Rank
    requires Enabled(c, st, step)
  {
    match step
    case Program(i) => ProgramStep(c, st, i)
    case EarlyReturn(i) => st[i].(pc := Done)
    case Delivery(s, d, junk) => Deliver(c, st, s, d, junk)
    case Copy(s, d, k, junk) => Capture(c, st, s, d, k, junk)
  }

  function Next(c: Config, st: State, step: Step): (r: State)
    requires Enabled(c, st, step)
    ensures |r| == |st| && Mover(step) < |st|
  {
    st[Mover(step) := Moved(c, st, step)]
  }

  ghost predicate IsRun(c: Config, states: seq<State>, steps: seq<Step>) {
    && |c.bufs| == c.size
    && |states| == |steps| + 1 && states[0] == Start(c)
    && (forall i :: 0 <= i < |steps| ==>
          Enabled(c, states[i], steps[i]) && states[i + 1] == Next(c, states[i], steps[i]))
  }

  ghost predicate Final(st: State) { forall i :: 0 <= i < |st| ==> st[i].pc == Done }

  ghost predicate Mismatched(st: State) { exists i :: 0 <= i < |st| && st[i].pc.Mismatch? }

  /** `MPI_Send` never returns before the message is received. */
  predicate Synchronous(steps: seq<Step>) { forall i :: 0 <= i < |steps| ==> !steps[i].EarlyReturn? }

  /** All ranks begin with the packet of rank 0, as the sync-packet build does; in direction 1-N
      that is not needed. */
  ghost predicate Uniform(c: Config) {
    c.dir == DirOut || forall i :: 0 <= i < |c.bufs| ==> c.bufs[i] == c.bufs[0]
  }

  // ----- strncmp on digests -----

  /** `strncmp` accepts exactly when the digests agree up to and including the first zero byte. */
  lemma {:induction false} StrncmpIs(a: seq<byte>, b: seq<byte>, n: nat)
    requires |a| >= n && |b| >= n
    ensures StrncmpEqual(a, b, n) <==>
            forall i :: 0 <= i < n && (forall j :: 0 <= j < i ==> a[j] != 0) ==> a[i] == b[i]
  {
    if n > 0 {
      if a[0] == b[0] && a[0] != 0 {
        StrncmpIs(a[1..], b[1..], n - 1);
        if StrncmpEqual(a, b, n) {
          forall i | 0 <= i < n && (forall j :: 0 <= j < i ==> a[j] != 0) ensures a[i] == b[i] {
            if i > 0 {
              assert forall j :: 0 <= j < i - 1 ==> a[1..][j] == a[j + 1];
              assert a[1..][i - 1] == b[1..][i - 1];
            }
          }
        } else {
          var i :| 0 <= i < n - 1 && (forall j :: 0 <= j < i ==> a[1..][j] != 0) && a[1..][i] != b[1..][i];
          forall j | 0 <= j < i + 1 ensures a[j] != 0 { if j > 0 { assert a[1..][j - 1] != 0; } }
          assert a[i + 1] != b[i + 1];
        }
      }
    }
  }

  /** Equal digests pass; so do some different ones. */
  lemma {:induction false} StrncmpReflexive(a: seq<byte>, n: nat)
    ensures StrncmpEqual(a, a, n)
  {
    if n > 0 && |a| > 0 && a[0] != 0 { StrncmpReflexive(a[1..], n - 1); }
  }

  lemma StrncmpMissesDifference()
    ensures exists a: seq<byte>, b: seq<byte> ::
              |a| == |b| == DIGEST_LENGTH && a != b && StrncmpEqual(a, b, DIGEST_LENGTH)
  {
    var a: seq<byte> := seq(DIGEST_LENGTH, i => 0);
    var b: seq<byte> := a[1 := 7];
    assert a[1] != b[1];
    assert StrncmpEqual(a, b, DIGEST_LENGTH);
  }
}
