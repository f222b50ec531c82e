/** The exchange of memory-region information (`send_local_mr_info`, `get_remote_mr_info`):
    the bytes on the wire, and the two routines with all their exit paths. */
module Exchange {
  import opened Memory

  /** `struct dccs_mr_info`: 16 bytes, 8 of address, 4 of key and 4 of padding. */
  datatype MrInfo = MrInfo(addr: nat, rkey: nat)
  {
    ghost predicate Fits() { addr < Pow256(ADDR_BYTES) && rkey < Pow256(KEY_BYTES) }
  }

  const ADDR_BYTES: nat := 8  // also `sizeof(size_t)`
  const KEY_BYTES: nat := 4

  function EncodeInfo(o: Order, i: MrInfo): (r: seq<byte>)
    ensures |r| == 16
  {
    Store(o, Hton(o, i.addr, ADDR_BYTES), ADDR_BYTES) + Store(o, Hton(o, i.rkey, KEY_BYTES), KEY_BYTES) + [0, 0, 0, 0]
  }

  function DecodeInfo(o: Order, b: seq<byte>): MrInfo
    requires |b| == 16
  {
    MrInfo(Ntoh(o, Load(o, b[0..8]), ADDR_BYTES), Ntoh(o, Load(o, b[8..12]), KEY_BYTES))
  }

  function EncodeInfos(o: Order, infos: seq<MrInfo>): (r: seq<byte>)
    ensures |r| == 16 * |infos|
  {
    if |infos| == 0 then [] else EncodeInfo(o, infos[0]) + EncodeInfos(o, infos[1..])
  }

  /** `mr_infos[n]` as the receiving host reads it: 16 bytes, `n` entries further on. */
  function InfoAt(o: Order, b: seq<byte>, n: nat): MrInfo
    requires 16 * (n + 1) <= |b|
  {
    if n == 0 then DecodeInfo(o, b[..16]) else InfoAt(o, b[16..], n - 1)
  }

  lemma InfoRoundTrip(from: Order, to: Order, i: MrInfo)
    requires i.Fits()
    ensures DecodeInfo(to, EncodeInfo(from, i)) == i
  {
    var a := Store(from, Hton(from, i.addr, ADDR_BYTES), ADDR_BYTES);
    var k := Store(from, Hton(from, i.rkey, KEY_BYTES), KEY_BYTES);
    var b := EncodeInfo(from, i);
    assert b[0..8] == a;
    assert b[8..12] == k;
    WordRoundTrip(from, to, i.addr, ADDR_BYTES);
    WordRoundTrip(from, to, i.rkey, KEY_BYTES);
  }

  /** Every address and key arrives as it was sent, for every pair of byte orders. */
  lemma {:induction false} InfosRoundTrip(from: Order, to: Order, infos: seq<MrInfo>, n: nat)
    requires n < |infos| && infos[n].Fits()
    ensures InfoAt(to, EncodeInfos(from, infos), n) == infos[n]
  {
    var head, tail := EncodeInfo(from, infos[0]), EncodeInfos(from, infos[1..]);
    if n == 0 {
      assert (head + tail)[..16] == head;
      InfoRoundTrip(from, to, infos[0]);
    } else {
      assert (head + tail)[16..] == tail;
      InfosRoundTrip(from, to, infos[1..], n - 1);
    }
  }

  lemma EntryBytes(o: Order, i: MrInfo)
    ensures var e := EncodeInfo(o, i);
            && e[..8] == Reverse(LittleBytes(i.addr, 8)) && e[8..12] == Reverse(LittleBytes(i.rkey, 4))
            && e[12..] == [0, 0, 0, 0]
  {
    NetworkBytes(o, i.addr, ADDR_BYTES);
    NetworkBytes(o, i.rkey, KEY_BYTES);
    var a, k := Reverse(LittleBytes(i.addr, 8)), Reverse(LittleBytes(i.rkey, 4));
    assert EncodeInfo(o, i) == a + k + [0, 0, 0, 0];
  }

  lemma EntryShift(head: seq<byte>, tail: seq<byte>, n: nat)
    requires |head| == 16 && n > 0 && 16 * n <= |tail|
    ensures (head + tail)[16 * n..16 * n + 16] == tail[16 * (n - 1)..16 * (n - 1) + 16]
  {}

  lemma EntryFirst(head: seq<byte>, tail: seq<byte>)
    requires |head| == 16
    ensures (head + tail)[0..16] == head
  {}

  lemma {:induction false} EntryAt(o: Order, infos: seq<MrInfo>, n: nat)
    requires n < |infos|
    ensures EncodeInfos(o, infos)[16 * n..16 * n + 16] == EncodeInfo(o, infos[n])
  {
    if n == 0 {
      EntryFirst(EncodeInfo(o, infos[0]), EncodeInfos(o, infos[1..]));
    } else {
      EntryAt(o, infos[1..], n - 1);
      EntryShift(EncodeInfo(o, infos[0]), EncodeInfos(o, infos[1..]), n);
    }
  }

  /** The layout on the wire, whatever the sender's byte order: entry `n` has 16 bytes, the address
      and the key most significant byte first, and padding. */
  lemma EntryLayout(o: Order, infos: seq<MrInfo>, n: nat)
    requires n < |infos|
    ensures var e := EncodeInfos(o, infos)[16 * n..16 * n + 16];
            && e[..8] == Reverse(LittleBytes(infos[n].addr, 8))
            && e[8..12] == Reverse(LittleBytes(infos[n].rkey, 4)) && e[12..] == [0, 0, 0, 0]
  {
    EntryAt(o, infos, n);
    EntryBytes(o, infos[n]);
  }

  // ----- The routines -----

  /** The protection domain's live registrations. */
  class Registry {
    var live: set<nat>

    constructor ()
      ensures live == {}
    {
      live := {};
    }

    /** `dccs_reg_msgs`: a fresh handle, or nothing. */
    method Register(handle: nat, ok: bool)
      requires handle !in live
      modifies this
      ensures live == old(live) + if ok then {handle} else {}
    {
      if ok { live := live + {handle}; }
    }

    /** `dccs_dereg_mr`: only for a live handle. */
    method Deregister(handle: nat)
      requires handle in live
      modifies this
      ensures live == old(live) - {handle}
    {
      live := live - {handle};
    }
  }

  /** The handles the driver would give to the two registrations of one call. */
  datatype Handles = Handles(count: nat, infos: nat)

  /** What the library answers during one receiving call: whether each registration succeeds,
      what each post returns (0, or -1), what each completion wait returns (1, or -1), and the
      bytes that a successful receive leaves in the buffer. */
  datatype RecvAnswers = RecvAnswers(regCount: bool, regArray: bool,
                                     postCount: int, compCount: int, countMsg: seq<byte>,
                                     postArray: int, compArray: int, arrayMsg: seq<byte>)
  {
    ghost predicate Sane(count: nat) {
      && postCount in {0, -1} && postArray in {0, -1} && compCount in {1, -1} && compArray in {1, -1}
      && |countMsg| == 8 && |arrayMsg| == 16 * count
    }

    /** The count message was received without an error. */
    predicate CountArrives() { regCount && regArray && postCount == 0 && compCount >= 0 }

    /** The whole exchange went through. */
    predicate Complete(o: Order, count: nat) {
      CountArrives() && Load(o, countMsg) == count && postArray == 0 && compArray >= 0
    }
  }

  method GetRemoteMrInfo(reg: Registry, h: Handles, remote: array<MrInfo>, o: Order, a: RecvAnswers) returns (rv: int)
    requires a.Sane(remote.Length)
    requires h.count != h.infos && h.count !in reg.live && h.infos !in reg.live
    modifies reg, remote
    // Every registration made is undone, and no other is touched.
    ensures reg.live == old(reg.live)
    // All or nothing.
    ensures a.Complete(o, remote.Length) ==>
              remote[..] == DecodeInfos(o, a.arrayMsg, remote.Length)
    ensures !a.Complete(o, remote.Length) ==> remote[..] == old(remote[..])
    // The callers test `rv < 0`. They see every failure except a count mismatch.
    ensures rv >= 0 <==>
            a.Complete(o, remote.Length) || (a.CountArrives() && Load(o, a.countMsg) != remote.Length)
  {
    rv := -1;
    reg.Register(h.count, a.regCount);
    if a.regCount {
      reg.Register(h.infos, a.regArray);
      if a.regArray {
        rv := a.postCount;
        if rv == 0 {
          rv := a.compCount;
          if rv >= 0 && Load(o, a.countMsg) == remote.Length {
            rv := a.postArray;
            if rv == 0 {
              rv := a.compArray;
              if rv >= 0 {
                InstallRemote(remote, o, a.arrayMsg);
              }
            }
          }
        }
        reg.Deregister(h.infos);
      }
      reg.Deregister(h.count);
    }
  }

  /** The first `n` entries of the received array. */
  function DecodeInfos(o: Order, msg: seq<byte>, n: nat): (r: seq<MrInfo>)
    requires 16 * n <= |msg|
    ensures |r| == n
  {
    if n == 0 then [] else DecodeInfos(o, msg, n - 1) + [InfoAt(o, msg, n - 1)]
  }

  lemma {:induction false} DecodedAt(o: Order, msg: seq<byte>, n: nat, k: nat)
    requires 16 * n <= |msg| && k < n
    ensures DecodeInfos(o, msg, n)[k] == InfoAt(o, msg, k)
  {
    if k < n - 1 { DecodedAt(o, msg, n - 1, k); }
  }

  /** The receiver decodes the sender's list. */
  lemma DecodeEncode(from: Order, to: Order, infos: seq<MrInfo>)
    requires forall n :: 0 <= n < |infos| ==> infos[n].Fits()
    ensures DecodeInfos(to, EncodeInfos(from, infos), |infos|) == infos
  {
    forall n | 0 <= n < |infos| ensures DecodeInfos(to, EncodeInfos(from, infos), |infos|)[n] == infos[n] {
      DecodedAt(to, EncodeInfos(from, infos), |infos|, n);
      InfosRoundTrip(from, to, infos, n);
    }
  }

  /** The loop that copies the received array into the requests. */
  method InstallRemote(remote: array<MrInfo>, o: Order, msg: seq<byte>)
    requires |msg| == 16 * remote.Length
    modifies remote
    ensures remote[..] == DecodeInfos(o, msg, remote.Length)
  {
    var n := 0;
    while n < remote.Length
      invariant 0 <= n <= remote.Length
      invariant remote[..n] == DecodeInfos(o, msg, n)
    {
      remote[n] := InfoAt(o, msg, n);
      assert remote[..n + 1] == remote[..n] + [remote[n]];
      n := n + 1;
    }
    assert remote[..n] == remote[..];
  }

  /** The answers during one sending call. */
  datatype SendAnswers = SendAnswers(regCount: bool, regArray: bool,
                                     postCount: int, compCount: int, postArray: int, compArray: int)
  {
    ghost predicate Sane() {
      postCount in {0, -1} && postArray in {0, -1} && compCount in {1, -1} && compArray in {1, -1}
    }
  }

  /** `sent` is what reached the send queue. */
  method SendLocalMrInfo(reg: Registry, h: Handles, local: seq<MrInfo>, o: Order, a: SendAnswers)
    returns (rv: int, sent: seq<seq<byte>>)
    requires a.Sane()
    requires h.count != h.infos && h.count !in reg.live && h.infos !in reg.live
    modifies reg
    ensures reg.live == old(reg.live)
    // The count goes first, the array only after it; success means both.
    ensures sent <= [Store(o, |local|, ADDR_BYTES), EncodeInfos(o, local)]
    ensures rv >= 0 ==> |sent| == 2
    ensures rv >= 0 <==> a == SendAnswers(true, true, 0, 1, 0, 1)
  {
    rv, sent := -1, [];
    var infos := FillInfos(local, o);
    reg.Register(h.count, a.regCount);
    if a.regCount {
      reg.Register(h.infos, a.regArray);
      if a.regArray {
        rv := a.postCount;
        if rv == 0 {
          sent := [Store(o, |local|, ADDR_BYTES)];
          rv := a.compCount;
          if rv >= 0 {
            rv := a.postArray;
            if rv == 0 {
              sent := sent + [infos];
              rv := a.compArray;
            }
          }
        }
        reg.Deregister(h.infos);
      }
      reg.Deregister(h.count);
    }
  }

  lemma {:induction false} EncodeSnoc(o: Order, infos: seq<MrInfo>, i: MrInfo)
    ensures EncodeInfos(o, infos + [i]) == EncodeInfos(o, infos) + EncodeInfo(o, i)
  {
    if |infos| > 0 {
      EncodeSnoc(o, infos[1..], i);
      assert (infos + [i])[1..] == infos[1..] + [i];
    }
  }

  /** The loop that fills `mr_infos`. */
  method FillInfos(local: seq<MrInfo>, o: Order) returns (b: seq<byte>)
    ensures b == EncodeInfos(o, local)
  {
    b := [];
    var n := 0;
    while n < |local|
      invariant 0 <= n <= |local|
      invariant b == EncodeInfos(o, local[..n])
    {
      EncodeSnoc(o, local[..n], local[n]);
      assert local[..n + 1] == local[..n] + [local[n]];
      b := b + EncodeInfo(o, local[n]);
      n := n + 1;
    }
    assert local[..n] == local;
  }

  /** Both routines together: when the sender reports success and the receiver gets its bytes,
      the receiver installs exactly the sender's list if the raw count survives, and otherwise
      installs nothing and still reports success. */
  method ExchangeOnce(sreg: Registry, creg: Registry, sh: Handles, ch: Handles, local: seq<MrInfo>,
                      remote: array<MrInfo>, from: Order, to: Order)
    returns (ok: bool)
    requires sreg != creg
    requires sh.count != sh.infos && sh.count !in sreg.live && sh.infos !in sreg.live
    requires ch.count != ch.infos && ch.count !in creg.live && ch.infos !in creg.live
    requires |local| == remote.Length < Pow256(ADDR_BYTES)
    requires forall n :: 0 <= n < |local| ==> local[n].Fits()
    modifies sreg, creg, remote
    ensures ok && sreg.live == old(sreg.live) && creg.live == old(creg.live)
    ensures from == to || Bswap(|local|, ADDR_BYTES) == |local| ==> remote[..] == local
    ensures !(from == to || Bswap(|local|, ADDR_BYTES) == |local|) ==> remote[..] == old(remote[..])
  {
    var srv, sent := SendLocalMrInfo(sreg, sh, local, from, SendAnswers(true, true, 0, 1, 0, 1));
    var crv := GetRemoteMrInfo(creg, ch, remote, to, RecvAnswers(true, true, 0, 1, sent[0], 0, 1, sent[1]));
    ok := srv >= 0 && crv >= 0;
    RawWordAgrees(from, to, |local|, ADDR_BYTES);
    DecodeEncode(from, to, local);
  }
}
