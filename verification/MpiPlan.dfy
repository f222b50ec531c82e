/** The direction table of `mpi_main.c` and the nested loops of `send_messages` and
    `recv_messages`: which requests a rank issues in one round, and in which order. */
module MpiPlan {
  import opened Memory

  datatype Direction = DirOut | DirIn | DirBoth

  const HOST_ALL: int := -1
  const HOST_NOSELF: int := -2

  /** One `MPI_Isend` or `MPI_Irecv`: the buffer slot and the peer. */
  datatype Issue = Issue(slot: nat, peer: nat)

  // ----- Who talks to whom -----

  predicate ShouldSend(dir: Direction, rank: nat) {
    match dir case DirOut => rank == 0 case DirIn => rank != 0 case DirBoth => true
  }

  predicate ShouldRecv(dir: Direction, rank: nat) {
    match dir case DirOut => rank != 0 case DirIn => rank == 0 case DirBoth => true
  }

  function SendTarget(dir: Direction): int {
    match dir case DirOut => HOST_NOSELF case DirIn => 0 case DirBoth => HOST_NOSELF
  }

  function RecvSource(dir: Direction): int {
    match dir case DirOut => 0 case DirIn => HOST_NOSELF case DirBoth => HOST_NOSELF
  }

  /** The two `continue` tests of the inner loop, negated. */
  predicate Selected(to: int, rank: nat, peer: nat) {
    && !(to == HOST_NOSELF && peer == rank)
    && !(to != HOST_ALL && to != HOST_NOSELF && peer != to)
  }

  predicate SendsTo(dir: Direction, s: nat, d: nat) {
    ShouldSend(dir, s) && Selected(SendTarget(dir), s, d)
  }

  predicate RecvsFrom(dir: Direction, d: nat, s: nat) {
    ShouldRecv(dir, d) && Selected(RecvSource(dir), d, s)
  }

  /** The table is consistent: a rank expects messages from exactly the ranks that send to it,
      and no rank talks to itself. */
  lemma TableMatches(dir: Direction, s: nat, d: nat)
    ensures SendsTo(dir, s, d) <==> RecvsFrom(dir, d, s)
    ensures SendsTo(dir, s, d) ==> s != d
  {}

  // ----- What one call issues -----

  predicate ValidPeers(size: nat, to: int) {
    to == HOST_ALL || to == HOST_NOSELF || 0 <= to < size
  }

  function RequestCount(size: nat, to: int): nat
    requires size > 0
  {
    if to == HOST_ALL then size else if to == HOST_NOSELF then size - 1 else 1
  }

  /** The issues of slot `n` for peers below `d`. */
  function Row(rank: nat, to: int, n: nat, d: nat): seq<Issue> {
    if d == 0 then []
    else Row(rank, to, n, d - 1) + if Selected(to, rank, d - 1) then [Issue(n, d - 1)] else []
  }

  /** The issues of the first `n` slots. */
  function Plan(size: nat, rank: nat, to: int, n: nat): seq<Issue> {
    if n == 0 then [] else Plan(size, rank, to, n - 1) + Row(rank, to, n - 1, size)
  }

  lemma {:induction false} RowLength(size: nat, rank: nat, to: int, n: nat, d: nat)
    requires rank < size && ValidPeers(size, to) && d <= size
    ensures |Row(rank, to, n, d)| ==
            if to == HOST_ALL then d
            else if to == HOST_NOSELF then (if d <= rank then d else d - 1)
            else (if to < d then 1 else 0)
  {
    if d > 0 { RowLength(size, rank, to, n, d - 1); }
  }

  /** The request array is filled exactly: `request_count` requests per slot. */
  lemma {:induction false} PlanLength(size: nat, rank: nat, to: int, n: nat)
    requires rank < size && ValidPeers(size, to)
    ensures |Plan(size, rank, to, n)| == Times(n, RequestCount(size, to))
  {
    if n > 0 {
      PlanLength(size, rank, to, n - 1);
      RowLength(size, rank, to, n - 1, size);
    }
  }

  /** `send_messages` with `MPI_Isend`, `recv_messages` with `MPI_Irecv`: the same two loops over
      slots and peers. `issued` is the array of request handles. */
  method IssueMessages(size: nat, rank: nat, to: int, count: nat, length: nat)
    returns (rv: int, issued: seq<Issue>, bytes: nat)
    requires rank < size
    ensures rv == (if ValidPeers(size, to) then 0 else -1)
    ensures rv == 0 ==> |issued| == RequestCount(size, to) * count
    ensures rv == 0 ==> issued == Plan(size, rank, to, count)
    ensures rv == 0 ==> bytes == Times(|issued|, length)
    ensures rv != 0 ==> issued == [] && bytes == 0
  {
    if to != HOST_ALL && to != HOST_NOSELF && (to < 0 || to >= size) {
      return -1, [], 0;
    }
    var requestCount := 1;
    if to == HOST_ALL {
      requestCount := size;
    } else if to == HOST_NOSELF {
      requestCount := size - 1;
    }
    PlanFits(size, rank, to, count);
    var requests := new Issue[requestCount * count](_ => Issue(0, 0));
    var sent := 0;
    bytes := 0;
    var n := 0;
    while n < count
      invariant 0 <= n <= count
      invariant sent == |Plan(size, rank, to, n)| <= requests.Length
      invariant requests[..sent] == Plan(size, rank, to, n)
      invariant bytes == Times(sent, length)
    {
      PlanGrows(size, rank, to, n + 1, count);
      sent, bytes := IssueRow(size, rank, to, n, length, requests, sent, bytes);
      n := n + 1;
    }
    issued := requests[..];
    assert issued == requests[..sent];
    rv := 0;
  }

  /** The inner loop, for slot `n`. */
  method IssueRow(size: nat, rank: nat, to: int, n: nat, length: nat, requests: array<Issue>, first: nat, bytes0: nat)
    returns (sent: nat, bytes: nat)
    requires first + |Row(rank, to, n, size)| <= requests.Length && bytes0 == Times(first, length)
    modifies requests
    ensures sent == first + |Row(rank, to, n, size)|
    ensures requests[..sent] == old(requests[..first]) + Row(rank, to, n, size)
    ensures bytes == Times(sent, length)
  {
    sent, bytes := first, bytes0;
    var dest := 0;
    while dest < size
      invariant 0 <= dest <= size
      invariant sent == first + |Row(rank, to, n, dest)| <= requests.Length
      invariant requests[..sent] == old(requests[..first]) + Row(rank, to, n, dest)
      invariant bytes == Times(sent, length)
    {
      RowGrows(rank, to, n, dest + 1, size);
      if !(to == HOST_NOSELF && dest == rank) && !(to != HOST_ALL && to != HOST_NOSELF && dest != to) {
        requests[sent] := Issue(n, dest);
        assert requests[..sent + 1] == requests[..sent] + [Issue(n, dest)];
        sent := sent + 1;
        bytes := bytes + length;
      }
      dest := dest + 1;
    }
  }

  lemma PlanFits(size: nat, rank: nat, to: int, count: nat)
    requires rank < size && ValidPeers(size, to)
    ensures |Plan(size, rank, to, count)| == RequestCount(size, to) * count
  {
    PlanLength(size, rank, to, count);
    TimesIsProduct(count, RequestCount(size, to));
  }

  lemma {:induction false} PlanGrows(size: nat, rank: nat, to: int, m: nat, n: nat)
    requires m <= n
    ensures Plan(size, rank, to, m) <= Plan(size, rank, to, n)
  {
    if m < n { PlanGrows(size, rank, to, m, n - 1); }
  }

  lemma {:induction false} RowGrows(rank: nat, to: int, n: nat, d: nat, e: nat)
    requires d <= e
    ensures Row(rank, to, n, d) <= Row(rank, to, n, e)
  {
    if d < e { RowGrows(rank, to, n, d, e - 1); }
  }

  // ----- The order seen by one peer -----

  /** How many of the first `k` issues go to `peer`. */
  function CountTo(plan: seq<Issue>, k: nat, peer: nat): nat
    requires k <= |plan|
  {
    if k == 0 then 0 else CountTo(plan, k - 1, peer) + if plan[k - 1].peer == peer then 1 else 0
  }

  lemma {:induction false} CountToPrefix(a: seq<Issue>, b: seq<Issue>, k: nat, peer: nat)
    requires k <= |a|
    ensures CountTo(a + b, k, peer) == CountTo(a, k, peer)
  {
    if k > 0 { CountToPrefix(a, b, k - 1, peer); }
  }

  lemma {:induction false} CountToAppend(a: seq<Issue>, b: seq<Issue>, k: nat, peer: nat)
    requires k <= |b|
    ensures CountTo(a + b, |a| + k, peer) == CountTo(a, |a|, peer) + CountTo(b, k, peer)
  {
    if k == 0 {
      CountToPrefix(a, b, |a|, peer);
    } else {
      CountToAppend(a, b, k - 1, peer);
    }
  }

  /** A row visits each selected peer once, in increasing order. */
  lemma {:induction false} RowCounts(rank: nat, to: int, n: nat, d: nat, peer: nat)
    ensures var row := Row(rank, to, n, d);
            CountTo(row, |row|, peer) == if peer < d && Selected(to, rank, peer) then 1 else 0
  {
    if d > 0 {
      var row := Row(rank, to, n, d - 1);
      RowCounts(rank, to, n, d - 1, peer);
      var more := if Selected(to, rank, d - 1) then [Issue(n, d - 1)] else [];
      CountToAppend(row, more, |more|, peer);
      assert CountTo(more, 0, peer) == 0;
    }
  }

  lemma {:induction false} RowFirst(rank: nat, to: int, n: nat, d: nat, k: nat)
    requires k < |Row(rank, to, n, d)|
    ensures var row := Row(rank, to, n, d);
            row[k].slot == n && row[k].peer < d && Selected(to, rank, row[k].peer) && CountTo(row, k, row[k].peer) == 0
  {
    var short := Row(rank, to, n, d - 1);
    if k < |short| {
      RowFirst(rank, to, n, d - 1, k);
      CountToPrefix(short, if Selected(to, rank, d - 1) then [Issue(n, d - 1)] else [], k, short[k].peer);
    } else {
      RowCounts(rank, to, n, d - 1, d - 1);
      CountToPrefix(short, [Issue(n, d - 1)], k, d - 1);
    }
  }

  lemma {:induction false} PlanCounts(size: nat, rank: nat, to: int, n: nat, peer: nat)
    ensures var plan := Plan(size, rank, to, n);
            CountTo(plan, |plan|, peer) == if peer < size && Selected(to, rank, peer) then n else 0
  {
    if n > 0 {
      PlanCounts(size, rank, to, n - 1, peer);
      RowCounts(rank, to, n - 1, size, peer);
      var row := Row(rank, to, n - 1, size);
      CountToAppend(Plan(size, rank, to, n - 1), row, |row|, peer);
    }
  }

  /** Each selected peer gets the slots in order: the `j`-th issue for a peer is slot `j`. */
  lemma {:induction false} PlanInOrder(size: nat, rank: nat, to: int, n: nat, k: nat)
    requires k < |Plan(size, rank, to, n)|
    ensures var plan := Plan(size, rank, to, n);
            && plan[k].peer < size && Selected(to, rank, plan[k].peer)
            && plan[k].slot == CountTo(plan, k, plan[k].peer) < n
  {
    var before, row := Plan(size, rank, to, n - 1), Row(rank, to, n - 1, size);
    if k < |before| {
      PlanInOrder(size, rank, to, n - 1, k);
      CountToPrefix(before, row, k, before[k].peer);
    } else {
      var j := k - |before|;
      RowFirst(rank, to, n - 1, size, j);
      CountToAppend(before, row, j, row[j].peer);
      PlanCounts(size, rank, to, n - 1, row[j].peer);
    }
  }

  // ----- Accounting over all ranks -----

  /** Messages of one round sent, and received, by the ranks below `k`. */
  function SentBelow(dir: Direction, size: nat, count: nat, k: nat): nat {
    if k == 0 then 0
    else SentBelow(dir, size, count, k - 1) +
         if ShouldSend(dir, k - 1) then |Plan(size, k - 1, SendTarget(dir), count)| else 0
  }

  function ReceivedBelow(dir: Direction, size: nat, count: nat, k: nat): nat {
    if k == 0 then 0
    else ReceivedBelow(dir, size, count, k - 1) +
         if ShouldRecv(dir, k - 1) then |Plan(size, k - 1, RecvSource(dir), count)| else 0
  }

  lemma {:induction false} SentBelowIs(dir: Direction, size: nat, count: nat, k: nat)
    requires 0 < k <= size
    ensures SentBelow(dir, size, count, k) ==
            match dir
            case DirOut => Times(count, size - 1)
            case DirIn => Times(k - 1, count)
            case DirBoth => Times(k, Times(count, size - 1))
    ensures ReceivedBelow(dir, size, count, k) ==
            match dir
            case DirOut => Times(k - 1, count)
            case DirIn => Times(count, size - 1)
            case DirBoth => Times(k, Times(count, size - 1))
  {
    if ShouldSend(dir, k - 1) { PlanLength(size, k - 1, SendTarget(dir), count); }
    if ShouldRecv(dir, k - 1) { PlanLength(size, k - 1, RecvSource(dir), count); }
    TimesOne(count);
    if k > 1 { SentBelowIs(dir, size, count, k - 1); }
  }

  lemma {:induction false} TimesOne(n: nat)
    ensures Times(n, 1) == n
  {
    if n > 0 { TimesOne(n - 1); }
  }

  /** What leaves equals what arrives, in every direction, in messages and in bytes:
      `(size-1)*count` messages of `length` bytes for 1-N and N-1 and `size*(size-1)*count` for
      N-N. */
  lemma MessagesConserved(dir: Direction, size: nat, count: nat, length: nat)
    requires size > 0
    ensures var messages := if dir == DirBoth then size * ((size - 1) * count) else (size - 1) * count;
            && SentBelow(dir, size, count, size) == messages == ReceivedBelow(dir, size, count, size)
            && SentBytesBelow(dir, size, count, length, size) == messages * length
            && ReceivedBytesBelow(dir, size, count, length, size) == messages * length
  {
    SentBelowIs(dir, size, count, size);
    ProductForms(size, count);
    BytesAreMessages(dir, size, count, length, size);
    TimesIsProduct(SentBelow(dir, size, count, size), length);
  }

  /** Bytes of one round sent, and received, by the ranks below `k`. */
  function SentBytesBelow(dir: Direction, size: nat, count: nat, length: nat, k: nat): nat {
    if k == 0 then 0
    else SentBytesBelow(dir, size, count, length, k - 1) +
         if ShouldSend(dir, k - 1) then Times(|Plan(size, k - 1, SendTarget(dir), count)|, length) else 0
  }

  function ReceivedBytesBelow(dir: Direction, size: nat, count: nat, length: nat, k: nat): nat {
    if k == 0 then 0
    else ReceivedBytesBelow(dir, size, count, length, k - 1) +
         if ShouldRecv(dir, k - 1) then Times(|Plan(size, k - 1, RecvSource(dir), count)|, length) else 0
  }

  lemma {:induction false} TimesAdds(q: nat, r: nat, k: nat)
    ensures Times(q + r, k) == Times(q, k) + Times(r, k)
  {
    if r > 0 { TimesAdds(q, r - 1, k); }
  }

  lemma {:induction false} BytesAreMessages(dir: Direction, size: nat, count: nat, length: nat, k: nat)
    ensures SentBytesBelow(dir, size, count, length, k) == Times(SentBelow(dir, size, count, k), length)
    ensures ReceivedBytesBelow(dir, size, count, length, k) == Times(ReceivedBelow(dir, size, count, k), length)
  {
    if k > 0 {
      BytesAreMessages(dir, size, count, length, k - 1);
      TimesAdds(SentBelow(dir, size, count, k - 1), |Plan(size, k - 1, SendTarget(dir), count)|, length);
      TimesAdds(ReceivedBelow(dir, size, count, k - 1), |Plan(size, k - 1, RecvSource(dir), count)|, length);
    }
  }

  lemma ProductForms(size: nat, count: nat)
    requires size > 0
    ensures Times(count, size - 1) == Times(size - 1, count) == (size - 1) * count
    ensures Times(size, Times(count, size - 1)) == size * ((size - 1) * count)
  {
    TimesIsProduct(count, size - 1);
    TimesIsProduct(size - 1, count);
    TimesIsProduct(size, Times(count, size - 1));
  }
}
