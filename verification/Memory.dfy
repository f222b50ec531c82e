/** Flat byte memory, machine words and byte order: what a C pointer, a `uint64_t`
    and `htonll`/`ntohll` mean. */
module Memory {

  type byte = x: int | 0 <= x < 256

  /** The `len` bytes at `addr`. */
  function Slice(mem: seq<byte>, addr: nat, len: nat): seq<byte>
    requires addr + len <= |mem|
  {
    mem[addr..addr + len]
  }

  /** The same, with nothing where there is no memory. */
  function Peek(mem: seq<byte>, addr: nat, len: nat): seq<byte> {
    if addr + len <= |mem| then Slice(mem, addr, len) else []
  }

  /** Memory after `data` is copied to `addr`. */
  function Put(mem: seq<byte>, addr: nat, data: seq<byte>): (r: seq<byte>)
    requires addr + |data| <= |mem|
    ensures |r| == |mem|
    ensures forall a :: 0 <= a < |mem| ==>
              r[a] == if addr <= a < addr + |data| then data[a - addr] else mem[a]
  {
    mem[..addr] + data + mem[addr + |data|..]
  }

  ghost predicate Apart(a: nat, alen: nat, b: nat, blen: nat) {
    a + alen <= b || b + blen <= a
  }

  lemma PutThenSlice(mem: seq<byte>, addr: nat, data: seq<byte>)
    requires addr + |data| <= |mem|
    ensures Slice(Put(mem, addr, data), addr, |data|) == data
  {}

  lemma PutElsewhere(mem: seq<byte>, addr: nat, data: seq<byte>, b: nat, len: nat)
    requires addr + |data| <= |mem| && b + len <= |mem|
    requires Apart(addr, |data|, b, len)
    ensures Slice(Put(mem, addr, data), b, len) == Slice(mem, b, len)
  {}

  lemma PutSame(mem: seq<byte>, addr: nat, len: nat)
    requires addr + len <= |mem|
    ensures Put(mem, addr, Slice(mem, addr, len)) == mem
  {}

  // ----- Counting in rounds -----

  /** `r * k`, by repeated addition: `r` rounds of `k` requests, or `r` slots of `k` bytes. */
  function Times(r: nat, k: nat): nat {
    if r == 0 then 0 else Times(r - 1, k) + k
  }

  lemma {:induction false} TimesIsProduct(r: nat, k: nat)
    ensures Times(r, k) == r * k
  {
    if r > 0 { TimesIsProduct(r - 1, k); }
  }

  lemma {:induction false} TimesGrow(q: nat, r: nat, k: nat)
    requires q <= r
    ensures Times(q, k) <= Times(r, k)
  {
    if q < r { TimesGrow(q, r - 1, k); }
  }

  lemma DivModUnique(b: nat, q: nat, per: nat)
    requires q < per
    ensures (b * per + q) / per == b && (b * per + q) % per == q
  {
    var x := b * per + q;
    var d := x / per;
    assert x == d * per + x % per;
    assert d < b ==> (d + 1) * per <= b * per;
    assert d > b ==> (b + 1) * per <= d * per;
  }

  /** The request index of the `i`-th data transfer, counted over all rounds. */
  function SlotOf(i: nat, count: nat): (n: nat)
    requires count > 0
    ensures n < count && n <= i
    ensures i < count ==> n == i
  {
    if i < count then i else SlotOf(i - count, count)
  }

  lemma {:induction false} SlotAt(r: nat, n: nat, count: nat)
    requires n < count
    ensures SlotOf(Times(r, count) + n, count) == n
  {
    if r > 0 { SlotAt(r - 1, n, count); }
  }

  lemma {:induction false} SlotIsRemainder(i: nat, count: nat)
    requires count > 0
    ensures SlotOf(i, count) == i % count
  {
    if i < count {
      DivModUnique(0, i, count);
    } else {
      SlotIsRemainder(i - count, count);
      var q, m := (i - count) / count, (i - count) % count;
      assert i == (q + 1) * count + m;
      DivModUnique(q + 1, m, count);
    }
  }

  // ----- Words -----

  datatype Order = LittleEndian | BigEndian

  function LittleBytes(v: nat, w: nat): (r: seq<byte>)
    ensures |r| == w
  {
    if w == 0 then [] else [v % 256] + LittleBytes(v / 256, w - 1)
  }

  function LittleValue(b: seq<byte>): nat {
    if |b| == 0 then 0 else b[0] + 256 * LittleValue(b[1..])
  }

  function Pow256(w: nat): (p: nat)
    ensures p > 0
  {
    if w == 0 then 1 else 256 * Pow256(w - 1)
  }

  function Reverse(b: seq<byte>): (r: seq<byte>)
    ensures |r| == |b|
    ensures forall i :: 0 <= i < |b| ==> r[i] == b[|b| - 1 - i]
  {
    seq(|b|, i requires 0 <= i < |b| => b[|b| - 1 - i])
  }

  lemma ReverseTwice(b: seq<byte>)
    ensures Reverse(Reverse(b)) == b
  {}

  lemma {:induction false} ValueOfBytes(v: nat, w: nat)
    requires v < Pow256(w)
    ensures LittleValue(LittleBytes(v, w)) == v
  {
    if w > 0 {
      ValueOfBytes(v / 256, w - 1);
      assert LittleBytes(v, w)[1..] == LittleBytes(v / 256, w - 1);
    }
  }

  lemma {:induction false} BytesOfValue(b: seq<byte>)
    ensures LittleValue(b) < Pow256(|b|)
    ensures LittleBytes(LittleValue(b), |b|) == b
  {
    if |b| > 0 {
      BytesOfValue(b[1..]);
      Join256(b[0], LittleValue(b[1..]));
      assert b == [b[0]] + b[1..];
    }
  }

  lemma Join256(low: byte, high: nat)
    ensures (low + 256 * high) % 256 == low && (low + 256 * high) / 256 == high
  {}

  lemma DivideTwice(v: nat, p: nat)
    requires p > 0
    ensures v / 256 / p == v / (256 * p)
  {
    var q, r := v / 256 / p, v / 256 % p;
    var low := v % 256;
    assert v / 256 == q * p + r;
    assert v == q * (256 * p) + (256 * r + low) by {
      assert 256 * (q * p) == q * (256 * p);
    }
    DivModUnique(q, 256 * r + low, 256 * p);
  }

  /** Byte `i` of the little-endian form is the `i`-th digit to the base 256. */
  lemma {:induction false} LittleByteAt(v: nat, w: nat, i: nat)
    requires i < w
    ensures LittleBytes(v, w)[i] == v / Pow256(i) % 256
  {
    if i > 0 {
      LittleByteAt(v / 256, w - 1, i - 1);
      DivideTwice(v, Pow256(i - 1));
    }
  }

  /** A `w`-byte integer as the host keeps it in memory, and back. */
  function Store(o: Order, v: nat, w: nat): (r: seq<byte>)
    ensures |r| == w
  {
    if o == LittleEndian then LittleBytes(v, w) else Reverse(LittleBytes(v, w))
  }

  function Load(o: Order, b: seq<byte>): nat {
    LittleValue(if o == LittleEndian then b else Reverse(b))
  }

  /** `bswap_64` and `bswap_32`. */
  function Bswap(v: nat, w: nat): nat {
    LittleValue(Reverse(LittleBytes(v, w)))
  }

  /** `htonll`/`htonl` and `ntohll`/`ntohl`: a swap on little-endian hosts only. */
  function Hton(o: Order, v: nat, w: nat): nat {
    if o == LittleEndian then Bswap(v, w) else v
  }

  function Ntoh(o: Order, v: nat, w: nat): nat {
    if o == LittleEndian then Bswap(v, w) else v
  }

  /** Whatever the host order, a converted word lies in memory most significant byte first. */
  lemma NetworkBytes(o: Order, v: nat, w: nat)
    ensures Store(o, Hton(o, v, w), w) == Reverse(LittleBytes(v, w))
  {
    BytesOfValue(Reverse(LittleBytes(v, w)));
  }

  /** The word the receiver computes is the word the sender had, for all four
      combinations of byte orders. */
  lemma WordRoundTrip(from: Order, to: Order, v: nat, w: nat)
    requires v < Pow256(w)
    ensures Ntoh(to, Load(to, Store(from, Hton(from, v, w), w)), w) == v
  {
    NetworkBytes(from, v, w);
    var wire := Reverse(LittleBytes(v, w));
    ReverseTwice(LittleBytes(v, w));
    ValueOfBytes(v, w);
    if to == LittleEndian {
      BytesOfValue(wire);
    }
  }

  /** A word sent raw, as the exchange does with its count, survives exactly when the byte
      orders agree or the word reads the same both ways. */
  lemma RawWordAgrees(from: Order, to: Order, v: nat, w: nat)
    requires v < Pow256(w)
    ensures Load(to, Store(from, v, w)) == v <==> from == to || Bswap(v, w) == v
  {
    ValueOfBytes(v, w);
    ReverseTwice(LittleBytes(v, w));
  }

  /** The raw count is really at risk: 1 sent by a little-endian host reads as 2^56. */
  lemma RawWordMisread()
    ensures Load(BigEndian, Store(LittleEndian, 1, 8)) != 1
  {
    var b := LittleBytes(1, 8);
    LastByteOfOne(8);
    BytesOfValue(Reverse(b));
    assert b[0] == 1 && Reverse(b)[0] == 0;
  }

  lemma {:induction false} LastByteOfOne(w: nat)
    requires w > 1
    ensures LittleBytes(1, w)[w - 1] == 0
  {
    ZeroBytes(w - 1);
  }

  lemma {:induction false} ZeroBytes(w: nat)
    ensures forall i :: 0 <= i < w ==> LittleBytes(0, w)[i] == 0
  {
    if w > 0 { ZeroBytes(w - 1); }
  }
}
