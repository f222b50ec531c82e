/** `allocate_buffer` and `deallocate_buffer`: how `count` request slices are carved out of
    `mr_count` registered blocks, and how the blocks are given back. */
module Buffers {
  import opened Params
  import opened Memory

  // ----- The carving, on values -----

  /** The blocks of one endpoint, with what the run needs to know about each registration. */
  datatype Layout = Layout(count: nat, length: nat, mrCount: nat, bases: seq<nat>, rkeys: seq<nat>)
  {
    ghost predicate Shape() {
      && count > 0 && length > 0 && mrCount > 0 && count % mrCount == 0
      && |bases| == mrCount && |rkeys| == mrCount
    }

    function PerMr(): (k: nat)
      requires count > 0 && mrCount > 0 && count % mrCount == 0
      ensures k >= 1
    {
      count / mrCount
    }

    function BlockLength(): nat
      requires count > 0 && mrCount > 0 && count % mrCount == 0
    {
      PerMr() * length
    }

    /** No block is null and no two blocks overlap: what `malloc` promises. */
    ghost predicate BlocksApart()
      requires Shape()
    {
      && (forall i :: 0 <= i < mrCount ==> bases[i] > 0)
      && (forall i, j :: 0 <= i < j < mrCount ==> Apart(bases[i], BlockLength(), bases[j], BlockLength()))
    }

    /** The index of the block that holds request `n`. */
    function MrOf(n: nat): (m: nat)
      requires Shape() && n < count
      ensures m < mrCount
    {
      PerMrExact(this);
      MrInRange(n, PerMr(), mrCount);
      n / PerMr()
    }

    /** `request->buf` of request `n`. */
    function Addr(n: nat): nat
      requires Shape() && n < count
    {
      bases[MrOf(n)] + n % PerMr() * length
    }
  }

  lemma PerMrExact(l: Layout)
    requires l.count > 0 && l.mrCount > 0 && l.count % l.mrCount == 0
    ensures l.PerMr() * l.mrCount == l.count
  {}

  lemma MrInRange(n: nat, per: nat, mrs: nat)
    requires per >= 1 && n < per * mrs
    ensures n / per < mrs
  {
    var q := n / per;
    assert q >= mrs ==> q * per >= mrs * per;
  }

  lemma OffsetFits(k: nat, per: nat, length: nat)
    requires k < per
    ensures k * length + length <= per * length
  {
    assert (k + 1) * length <= per * length;
  }

  /** A slice lies inside the block named by its `mr`. */
  lemma SliceInBlock(l: Layout, n: nat)
    requires l.Shape() && n < l.count
    ensures l.bases[l.MrOf(n)] <= l.Addr(n)
    ensures l.Addr(n) + l.length <= l.bases[l.MrOf(n)] + l.BlockLength()
  {
    OffsetFits(n % l.PerMr(), l.PerMr(), l.length);
  }

  /** Different requests never share a byte. */
  lemma SlicesApart(l: Layout, m: nat, n: nat)
    requires l.Shape() && l.BlocksApart() && m < l.count && n < l.count && m != n
    ensures Apart(l.Addr(m), l.length, l.Addr(n), l.length)
  {
    SliceInBlock(l, m);
    SliceInBlock(l, n);
    var per := l.PerMr();
    if l.MrOf(m) == l.MrOf(n) {
      var i, j := m % per, n % per;
      assert i != j by {
        assert m == m / per * per + i && n == n / per * per + j;
      }
      if i < j { OffsetFits(i, j, l.length); } else { OffsetFits(j, i, l.length); }
    } else if l.MrOf(m) < l.MrOf(n) {
      assert Apart(l.bases[l.MrOf(m)], l.BlockLength(), l.bases[l.MrOf(n)], l.BlockLength());
    } else {
      assert Apart(l.bases[l.MrOf(n)], l.BlockLength(), l.bases[l.MrOf(m)], l.BlockLength());
    }
  }

  /** The request that owns byte `k` of block `b`. */
  function Owner(l: Layout, b: nat, k: nat): (n: nat)
    requires l.Shape() && b < l.mrCount && k < l.BlockLength()
    ensures n < l.count
  {
    PerMrExact(l);
    OwnerInRange(b, k, l.PerMr(), l.length, l.mrCount);
    b * l.PerMr() + k / l.length
  }

  lemma OwnerInRange(b: nat, k: nat, per: nat, length: nat, mrs: nat)
    requires per >= 1 && length >= 1 && b < mrs && k < per * length
    ensures k / length < per
    ensures b * per + k / length < per * mrs
    ensures (b * per + k / length) / per == b && (b * per + k / length) % per == k / length
  {
    MrInRange(k, length, per);
    var q := k / length;
    assert (b + 1) * per <= mrs * per;
    DivModUnique(b, q, per);
  }

  /** Together the slices cover every byte of every block, each byte exactly once. */
  lemma SlicesTile(l: Layout, b: nat, k: nat, n: nat)
    requires l.Shape() && l.BlocksApart() && b < l.mrCount && k < l.BlockLength() && n < l.count
    ensures l.Addr(n) <= l.bases[b] + k < l.Addr(n) + l.length <==> n == Owner(l, b, k)
  {
    var o := Owner(l, b, k);
    PerMrExact(l);
    OwnerInRange(b, k, l.PerMr(), l.length, l.mrCount);
    assert l.MrOf(o) == b;
    assert k == k / l.length * l.length + k % l.length;
    assert l.Addr(o) == l.bases[b] + k / l.length * l.length;
    if n != o { SlicesApart(l, n, o); }
  }

  // ----- The code -----

  /** A request of the `requests` array: only the fields the buffer code writes. */
  datatype Request = Request(verb: Verb, buf: nat, length: nat, mr: nat)

  datatype Registration = Registration(base: nat, length: nat, access: Verb)

  /** The address or handle of nothing. */
  const NULL: nat := 0

  /** The process's live heap blocks (base to size) and live registrations (handle to record).
      `Free` accepts only the base of a live block or `NULL`, and `DeregMr` only a live handle, so
      a double release or the release of an interior pointer would not verify. */
  class Host {
    var blocks: map<nat, nat>
    var regs: map<nat, Registration>

    constructor ()
      ensures blocks == map[] && regs == map[]
    {
      blocks, regs := map[], map[];
    }

    /** `malloc_random`, answered by the allocator with `base`. */
    method MallocRandom(base: nat, size: nat)
      requires base != NULL ==> base !in blocks
      modifies this`blocks
      ensures blocks == if base == NULL then old(blocks) else old(blocks)[base := size]
    {
      if base != NULL { blocks := blocks[base := size]; }
    }

    /** `rdma_reg_msgs`, `rdma_reg_read` or `rdma_reg_write`, answered with `handle`. */
    method RegMr(handle: nat, base: nat, length: nat, access: Verb)
      requires handle != NULL ==> handle !in regs && base in blocks && length <= blocks[base]
      modifies this`regs
      ensures regs == if handle == NULL then old(regs) else old(regs)[handle := Registration(base, length, access)]
    {
      if handle != NULL { regs := regs[handle := Registration(base, length, access)]; }
    }

    method DeregMr(handle: nat)
      requires handle in regs
      modifies this`regs
      ensures regs == old(regs) - {handle}
    {
      regs := regs - {handle};
    }

    method Free(base: nat)
      requires base == NULL || base in blocks
      modifies this`blocks
      ensures blocks == if base == NULL then old(blocks) else old(blocks) - {base}
    {
      if base != NULL { blocks := blocks - {base}; }
    }
  }

  function LayoutOf(p: Options, bases: seq<nat>, handles: seq<nat>): Layout {
    Layout(p.count, p.length, p.mrCount, bases, handles)
  }

  /** `m` with the first `k` keys bound, and `m` with the first `k` keys dropped, except `NULL`. */
  ghost function Bound<V>(m: map<nat, V>, keys: seq<nat>, vals: seq<V>, k: nat): map<nat, V>
    requires k <= |keys| == |vals|
  {
    if k == 0 then m
    else if keys[k - 1] == NULL then Bound(m, keys, vals, k - 1)
    else Bound(m, keys, vals, k - 1)[keys[k - 1] := vals[k - 1]]
  }

  ghost function Dropped<V>(m: map<nat, V>, keys: seq<nat>, k: nat): map<nat, V>
    requires k <= |keys|
  {
    if k == 0 then m
    else if keys[k - 1] == NULL then Dropped(m, keys, k - 1)
    else Dropped(m, keys, k - 1) - {keys[k - 1]}
  }

  ghost predicate Distinct(keys: seq<nat>) {
    forall i, j :: 0 <= i < j < |keys| && keys[i] != NULL ==> keys[i] != keys[j]
  }

  lemma {:induction false} BoundKeys<V>(m: map<nat, V>, keys: seq<nat>, vals: seq<V>, k: nat, x: nat)
    requires k <= |keys| == |vals| && x != NULL
    ensures x in Bound(m, keys, vals, k) <==> x in m || x in keys[..k]
  {
    if k > 0 {
      BoundKeys(m, keys, vals, k - 1, x);
      assert keys[..k] == keys[..k - 1] + [keys[k - 1]];
    }
  }

  lemma {:induction false} DroppedKeys<V>(m: map<nat, V>, keys: seq<nat>, k: nat, x: nat)
    requires k <= |keys| && x != NULL
    ensures x in Dropped(m, keys, k) <==> x in m && x !in keys[..k]
    ensures x in Dropped(m, keys, k) ==> Dropped(m, keys, k)[x] == m[x]
  {
    if k > 0 {
      DroppedKeys(m, keys, k - 1, x);
      assert keys[..k] == keys[..k - 1] + [keys[k - 1]];
    }
  }

  lemma {:induction false} NullUntouched<V>(m: map<nat, V>, keys: seq<nat>, vals: seq<V>, k: nat)
    requires k <= |keys| == |vals| && NULL !in m
    ensures NULL !in Bound(m, keys, vals, k) && NULL !in Dropped(m, keys, k)
  {
    if k > 0 { NullUntouched(m, keys, vals, k - 1); }
  }

  lemma {:induction false} BoundElsewhere<V>(m: map<nat, V>, keys: seq<nat>, vals: seq<V>, k: nat, x: nat)
    requires k <= |keys| == |vals| && x in m && x !in keys
    ensures x in Bound(m, keys, vals, k) && Bound(m, keys, vals, k)[x] == m[x]
  {
    if k > 0 { BoundElsewhere(m, keys, vals, k - 1, x); }
  }

  /** Dropping what was bound gives the map back, when the keys were new. */
  lemma BoundThenDropped<V>(m: map<nat, V>, keys: seq<nat>, vals: seq<V>)
    requires |keys| == |vals| && NULL !in m
    requires forall i :: 0 <= i < |keys| ==> keys[i] !in m
    ensures Dropped(Bound(m, keys, vals, |keys|), keys, |keys|) == m
  {
    var b := Bound(m, keys, vals, |keys|);
    var d := Dropped(b, keys, |keys|);
    assert keys[..|keys|] == keys;
    NullUntouched(m, keys, vals, |keys|);
    NullUntouched(b, keys, vals, |keys|);
    forall x | x != NULL ensures x in d <==> x in m {
      BoundKeys(m, keys, vals, |keys|, x);
      DroppedKeys(b, keys, |keys|, x);
    }
    forall x | x in m ensures d[x] == m[x] {
      BoundElsewhere(m, keys, vals, |keys|, x);
      DroppedKeys(b, keys, |keys|, x);
    }
  }

  ghost function Sizes(l: Layout): (r: seq<nat>)
    requires l.Shape()
    ensures |r| == l.mrCount && forall i :: 0 <= i < l.mrCount ==> r[i] == l.BlockLength()
  {
    seq(l.mrCount, i => l.BlockLength())
  }

  ghost function Registrations(l: Layout, verb: Verb): (r: seq<Registration>)
    requires l.Shape()
    ensures |r| == l.mrCount
    ensures forall i :: 0 <= i < l.mrCount ==> r[i] == Registration(l.bases[i], l.BlockLength(), verb)
  {
    seq(l.mrCount, i requires 0 <= i < l.mrCount => Registration(l.bases[i], l.BlockLength(), verb))
  }

  /** The answers of the allocator and of the driver. Any of them may be `NULL`; the blocks are
      fresh and apart, the handles fresh and distinct, nothing is registered without a block, and
      with an unknown verb the driver is not asked. */
  ghost predicate Answers(blocks: map<nat, nat>, regs: map<nat, Registration>, verb: Verb, l: Layout)
    requires l.Shape()
  {
    && NULL !in blocks && NULL !in regs
    && (forall i, j :: 0 <= i < j < l.mrCount && l.bases[i] != NULL && l.bases[j] != NULL ==>
          Apart(l.bases[i], l.BlockLength(), l.bases[j], l.BlockLength()))
    && (forall i :: 0 <= i < l.mrCount ==> l.bases[i] !in blocks && l.rkeys[i] !in regs)
    && Distinct(l.rkeys)
    && (forall i :: 0 <= i < l.mrCount && (l.bases[i] == NULL || verb == NoVerb) ==> l.rkeys[i] == NULL)
  }

  ghost predicate Carved(requests: seq<Request>, verb: Verb, l: Layout, k: nat)
    requires l.Shape() && |requests| == l.count && k <= l.count
  {
    forall i :: 0 <= i < k ==> requests[i] == Request(verb, l.Addr(i), l.length, l.rkeys[l.MrOf(i)])
  }

  /** Blocks do not start at the same address, because they are apart and not empty; and unless
      one is missing they meet what the slices need. */
  lemma BasesDistinct(blocks: map<nat, nat>, regs: map<nat, Registration>, verb: Verb, l: Layout)
    requires l.Shape() && Answers(blocks, regs, verb, l)
    ensures Distinct(l.bases)
    ensures NULL !in l.bases ==> l.BlocksApart()
  {
    OffsetFits(0, l.PerMr(), l.length);
    forall i, j | 0 <= i < j < l.mrCount && l.bases[i] != NULL ensures l.bases[i] != l.bases[j] {
      assert l.bases[j] != NULL ==> Apart(l.bases[i], l.BlockLength(), l.bases[j], l.BlockLength());
    }
  }

  lemma NotAmongFirst(keys: seq<nat>, k: nat)
    requires Distinct(keys) && k < |keys| && keys[k] != NULL
    ensures keys[k] !in keys[..k]
  {}

  /** Blocks begun before request `n` is handled. */
  ghost function Begun(l: Layout, n: nat): nat
    requires l.Shape() && n <= l.count
  {
    if n == 0 then 0 else l.MrOf(n - 1) + 1
  }

  /** What `n % count_per_mr` says about the next request: a multiple opens a new block, any
      other index stays in the block of its predecessor. */
  lemma NextRequest(l: Layout, n: nat, offset: nat)
    requires l.Shape() && n < l.count && offset == n % l.PerMr()
    ensures offset == 0 ==> l.MrOf(n) == Begun(l, n) && l.Addr(n) == l.bases[l.MrOf(n)]
    ensures offset != 0 ==> n > 0 && l.MrOf(n) == l.MrOf(n - 1)
  {
    var per := l.PerMr();
    var q := n / per;
    assert n == q * per + offset;
    if offset > 0 {
      DivModUnique(q, offset - 1, per);
    } else if n > 0 {
      assert q > 0;
      assert n - 1 == (q - 1) * per + (per - 1);
      DivModUnique(q - 1, per - 1, per);
    }
  }

  lemma LastRequest(l: Layout)
    requires l.Shape()
    ensures Begun(l, l.count) == l.mrCount
  {
    var per := l.PerMr();
    PerMrExact(l);
    assert l.count - 1 == (l.mrCount - 1) * per + (per - 1);
    DivModUnique(l.mrCount - 1, per - 1, per);
  }

  /** The first `made` answers have been taken. */
  ghost predicate Opened(host: Host, verb: Verb, l: Layout, made: nat,
                         blocks: map<nat, nat>, regs: map<nat, Registration>)
    requires l.Shape() && made <= l.mrCount
    reads host
  {
    && host.blocks == Bound(blocks, l.bases, Sizes(l), made)
    && host.regs == Bound(regs, l.rkeys, Registrations(l, verb), made)
  }

  /** The first `done` blocks and registrations have been released. */
  ghost predicate Closed(host: Host, l: Layout, done: nat, blocks: map<nat, nat>, regs: map<nat, Registration>)
    requires l.Shape() && done <= l.mrCount
    reads host
  {
    host.blocks == Dropped(blocks, l.bases, done) && host.regs == Dropped(regs, l.rkeys, done)
  }

  /** The `if (offset == 0)` branch: one more block and registration. */
  method OpenBlock(host: Host, verb: Verb, ghost l: Layout, ghost made: nat, base: nat, answer: nat, size: nat,
                   last: nat, ghost blocks: map<nat, nat>, ghost regs: map<nat, Registration>)
    returns (mr: nat)
    requires l.Shape() && made < l.mrCount && base == l.bases[made] && answer == l.rkeys[made]
    requires size == l.BlockLength() && Answers(blocks, regs, verb, l) && Distinct(l.bases)
    requires Opened(host, verb, l, made, blocks, regs) && (verb == NoVerb ==> last == NULL)
    modifies host
    ensures mr == answer && Opened(host, verb, l, made + 1, blocks, regs)
  {
    BlockIsNew(verb, l, made, blocks, regs);
    host.MallocRandom(base, size);
    mr := last;  // an unknown verb leaves it as it was
    if verb != NoVerb {
      mr := answer;
      host.RegMr(mr, base, size, verb);
    }
  }

  lemma BlockIsNew(verb: Verb, l: Layout, made: nat, blocks: map<nat, nat>, regs: map<nat, Registration>)
    requires l.Shape() && made < l.mrCount && Answers(blocks, regs, verb, l) && Distinct(l.bases)
    ensures l.bases[made] != NULL ==> l.bases[made] !in Bound(blocks, l.bases, Sizes(l), made)
    ensures l.rkeys[made] != NULL ==> l.rkeys[made] !in Bound(regs, l.rkeys, Registrations(l, verb), made)
  {
    if l.bases[made] != NULL {
      NotAmongFirst(l.bases, made);
      BoundKeys(blocks, l.bases, Sizes(l), made, l.bases[made]);
    }
    if l.rkeys[made] != NULL {
      NotAmongFirst(l.rkeys, made);
      BoundKeys(regs, l.rkeys, Registrations(l, verb), made, l.rkeys[made]);
    }
  }

  /** The locals of the loop before request `n`: the block and registration of the last one. */
  ghost predicate Current(verb: Verb, l: Layout, n: nat, bufBase: nat, mr: nat)
    requires l.Shape() && n <= l.count
  {
    && (verb == NoVerb ==> mr == NULL)
    && (n > 0 ==> bufBase == l.bases[l.MrOf(n - 1)] && mr == l.rkeys[l.MrOf(n - 1)])
  }

  /** Fills in request `n`. */
  method StoreRequest(requests: array<Request>, n: nat, bufBase: nat, offset: nat, mr: nat, p: Options, ghost l: Layout)
    requires l.Shape() && requests.Length == l.count && n < l.count && Carved(requests[..], p.verb, l, n)
    requires offset == n % l.PerMr() && p.length == l.length
    requires bufBase == l.bases[l.MrOf(n)] && mr == l.rkeys[l.MrOf(n)]
    modifies requests
    ensures Carved(requests[..], p.verb, l, n + 1)
  {
    requests[n] := Request(p.verb, bufBase + offset * p.length, p.length, mr);
    assert requests[..] == old(requests[..])[n := requests[n]];
  }

  /** The loop before request `n`. */
  ghost predicate Carving(host: Host, requests: array<Request>, verb: Verb, l: Layout, n: nat, made: nat, bufBase: nat,
                          mr: nat, blocks: map<nat, nat>, regs: map<nat, Registration>)
    requires l.Shape()
    reads host, requests
  {
    && requests.Length == l.count && n <= l.count && made == Begun(l, n) && made <= l.mrCount
    && Current(verb, l, n, bufBase, mr) && Carved(requests[..], verb, l, n)
    && Opened(host, verb, l, made, blocks, regs)
  }

  /** The loop body for request `n`. */
  method CarveOne(host: Host, requests: array<Request>, p: Options, bases: seq<nat>, handles: seq<nat>, n: nat,
                  countPerMr: nat, bufferLength: nat, base0: nat, mr0: nat, made0: nat,
                  ghost l: Layout, ghost blocks: map<nat, nat>, ghost regs: map<nat, Registration>)
    returns (bufBase: nat, mr: nat, made: nat)
    requires l == LayoutOf(p, bases, handles) && l.Shape() && countPerMr == l.PerMr() && bufferLength == l.BlockLength()
    requires Answers(blocks, regs, p.verb, l) && Distinct(bases) && n < p.count
    requires Carving(host, requests, p.verb, l, n, made0, base0, mr0, blocks, regs)
    modifies host, requests
    ensures Carving(host, requests, p.verb, l, n + 1, made, bufBase, mr, blocks, regs)
  {
    bufBase, mr, made := base0, mr0, made0;
    var offset := n % countPerMr;
    NextRequest(l, n, offset);
    if offset == 0 {
      bufBase := bases[made];
      mr := OpenBlock(host, p.verb, l, made, bufBase, handles[made], bufferLength, mr, blocks, regs);
      made := made + 1;
    }
    StoreRequest(requests, n, bufBase, offset, mr, p, l);
  }

  /** Every request gets its slice, block and registration, whatever the answers are: a missing
      block or registration is passed on unnoticed, and the result is always 0. */
  method AllocateBuffer(host: Host, requests: array<Request>, p: Options, bases: seq<nat>, handles: seq<nat>)
    returns (rv: int)
    requires Valid(p) && requests.Length == p.count && |bases| == |handles| == p.mrCount
    requires Answers(host.blocks, host.regs, p.verb, LayoutOf(p, bases, handles))
    modifies host, requests
    ensures rv == 0
    ensures var l := LayoutOf(p, bases, handles);
            && Carved(requests[..], p.verb, l, p.count)
            && Opened(host, p.verb, l, p.mrCount, old(host.blocks), old(host.regs))
  {
    ghost var l := LayoutOf(p, bases, handles);
    var countPerMr := p.count / p.mrCount;
    var bufferLength := countPerMr * p.length;
    assert countPerMr == l.PerMr() && bufferLength == l.BlockLength();
    BasesDistinct(host.blocks, host.regs, p.verb, l);
    LastRequest(l);
    var bufBase, mr := NULL, NULL;
    var made := 0;  // answers consumed so far
    var n := 0;
    while n < p.count
      invariant 0 <= n <= p.count
      invariant Carving(host, requests, p.verb, l, n, made, bufBase, mr, old(host.blocks), old(host.regs))
    {
      bufBase, mr, made := CarveOne(host, requests, p, bases, handles, n, countPerMr, bufferLength,
                                    bufBase, mr, made, l, old(host.blocks), old(host.regs));
      n := n + 1;
    }
    return 0;
  }

  /** The body of the release loop for a request that starts a block. */
  method CloseBlock(host: Host, ghost l: Layout, ghost done: nat, base: nat, handle: nat,
                    ghost blocks: map<nat, nat>, ghost regs: map<nat, Registration>)
    requires l.Shape() && done < l.mrCount && base == l.bases[done] && handle == l.rkeys[done] != NULL
    requires Distinct(l.bases) && Distinct(l.rkeys) && (base != NULL ==> base in blocks) && handle in regs
    requires Closed(host, l, done, blocks, regs)
    modifies host
    ensures Closed(host, l, done + 1, blocks, regs)
  {
    NotAmongFirst(l.rkeys, done);
    DroppedKeys(regs, l.rkeys, done, handle);
    if base != NULL {
      NotAmongFirst(l.bases, done);
      DroppedKeys(blocks, l.bases, done, base);
    }
    host.DeregMr(handle);
    host.Free(base);
  }

  /** The number of leading registrations that succeeded. */
  ghost function Registered(handles: seq<nat>): (k: nat)
    ensures k <= |handles| && (k < |handles| ==> handles[k] == NULL)
    ensures forall i :: 0 <= i < k ==> handles[i] != NULL
  {
    if |handles| == 0 || handles[0] == NULL then 0 else Registered(handles[1..]) + 1
  }

  lemma RegisteredIs(handles: seq<nat>, k: nat)
    requires k <= |handles| && (k < |handles| ==> handles[k] == NULL)
    requires forall i :: 0 <= i < k ==> handles[i] != NULL
    ensures k == Registered(handles)
  {}

  /** Releases blocks and registrations in order. It dereferences a `NULL` registration, so it
      returns exactly when every registration succeeded, and otherwise faults at the first that
      did not, with everything before it released. */
  method DeallocateBuffer(host: Host, requests: array<Request>, p: Options, ghost l: Layout) returns (ok: bool)
    requires Valid(p) && requests.Length == p.count
    requires l == LayoutOf(p, l.bases, l.rkeys) && l.Shape() && Distinct(l.bases) && Distinct(l.rkeys)
    requires Carved(requests[..], p.verb, l, p.count)
    requires forall i :: 0 <= i < l.mrCount && l.bases[i] != NULL ==> l.bases[i] in host.blocks
    requires forall i :: 0 <= i < l.mrCount && l.rkeys[i] != NULL ==> l.rkeys[i] in host.regs
    modifies host
    ensures ok <==> NULL !in l.rkeys
    ensures Closed(host, l, Registered(l.rkeys), old(host.blocks), old(host.regs))
  {
    var countPerMr := p.count / p.mrCount;
    assert countPerMr == l.PerMr();
    LastRequest(l);
    ghost var done := 0;
    var n := 0;
    while n < p.count
      invariant 0 <= n <= p.count
      invariant done == Begun(l, n)
      invariant forall i :: 0 <= i < done ==> l.rkeys[i] != NULL
      invariant Closed(host, l, done, old(host.blocks), old(host.regs))
    {
      NextRequest(l, n, n % countPerMr);
      if n % countPerMr == 0 {
        var request := requests[n];
        assert request == requests[..][n];
        if request.mr == NULL {
          RegisteredIs(l.rkeys, done);
          return false;
        }
        CloseBlock(host, l, done, request.buf, request.mr, old(host.blocks), old(host.regs));
        done := done + 1;
      }
      n := n + 1;
    }
    RegisteredIs(l.rkeys, done);
    return true;
  }

  /** Allocating and then releasing leaves the process with exactly the blocks and registrations
      it had, and that succeeds exactly when every registration did. */
  method AllocateThenDeallocate(host: Host, requests: array<Request>, p: Options, bases: seq<nat>, handles: seq<nat>)
    returns (ok: bool)
    requires Valid(p) && requests.Length == p.count && |bases| == |handles| == p.mrCount
    requires Answers(host.blocks, host.regs, p.verb, LayoutOf(p, bases, handles))
    modifies host, requests
    ensures ok <==> NULL !in handles
    ensures ok ==> host.blocks == old(host.blocks) && host.regs == old(host.regs)
  {
    ghost var l := LayoutOf(p, bases, handles);
    BasesDistinct(host.blocks, host.regs, p.verb, l);
    var _ := AllocateBuffer(host, requests, p, bases, handles);
    AllLive(old(host.blocks), bases, Sizes(l));
    AllLive(old(host.regs), handles, Registrations(l, p.verb));
    BoundThenDropped(old(host.blocks), bases, Sizes(l));
    BoundThenDropped(old(host.regs), handles, Registrations(l, p.verb));
    ok := DeallocateBuffer(host, requests, p, l);
    if ok { RegisteredIs(handles, p.mrCount); }
  }

  lemma AllLive<V>(m: map<nat, V>, keys: seq<nat>, vals: seq<V>)
    requires |keys| == |vals|
    ensures forall i :: 0 <= i < |keys| && keys[i] != NULL ==> keys[i] in Bound(m, keys, vals, |keys|)
  {
    forall i | 0 <= i < |keys| && keys[i] != NULL ensures keys[i] in Bound(m, keys, vals, |keys|) {
      BoundKeys(m, keys, vals, |keys|, keys[i]);
    }
  }
}
