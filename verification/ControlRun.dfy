/** The control-signal program (`control_main.c`) as a two-party run: both sides exchange their
    region lists, the server writes into the client's slices once per slot, and a terminating
    message lets both print their digests. A message passes when one side sends and the other
    has got to the matching receive; a Write may be acknowledged before it is visible. */
module ControlRun {
  import opened Memory
  import opened Exchange
  import opened RdmaRun
  import opened RdmaInvariant

  /** `sAddr` are the server's outgoing slices; `cIn` and `sIn` describe the slices that the
      client and the server offer to the other side. */
  datatype Setup = Setup(count: nat, length: nat, repeat: nat,
                         sAddr: seq<nat>, cIn: seq<MrInfo>, sIn: seq<MrInfo>,
                         sOrder: Order, cOrder: Order, sMem: seq<byte>, cMem: seq<byte>,
                         sha: seq<byte> -> seq<byte>)

  function AddressesOf(infos: seq<MrInfo>): (r: seq<nat>)
    ensures |r| == |infos| && forall n :: 0 <= n < |infos| ==> r[n] == infos[n].addr
  {
    seq(|infos|, n requires 0 <= n < |infos| => infos[n].addr)
  }

  /** A repeat count below 100 ends the server in a division by zero before its first write. */
  ghost predicate Ready(c: Setup) {
    && c.count > 0 && c.repeat >= 100 && c.count < Pow256(ADDR_BYTES)
    && |c.sAddr| == |c.cIn| == |c.sIn| == c.count
    && SlicesOk(c.sAddr, c.length, |c.sMem|) && SlicesOk(AddressesOf(c.cIn), c.length, |c.cMem|)
    && (forall n :: 0 <= n < c.count ==> c.cIn[n].Fits() && c.sIn[n].Fits())
  }

  /** The count, sent unconverted, is misread by the other side. */
  predicate Garbled(c: Setup) { c.sOrder != c.cOrder && Bswap(c.count, ADDR_BYTES) != c.count }

  datatype ControlServerPc = GetCount | GetInfo | GiveCount | GiveInfo
                           | Writing(n: nat, i: nat) | Awaiting(n: nat) | Ending | Hashing | Finished

  datatype ControlClientPc = OfferCount | OfferInfo | TakeCount | TakeInfo | AwaitEnd | Hash | Over

  datatype Control = Control(spc: ControlServerPc, cpc: ControlClientPc,
                             sRemote: seq<MrInfo>, cRemote: seq<MrInfo>,
                             posted: nat, acked: nat, landed: nat, mem: seq<byte>,
                             sent: Option<seq<byte>>,       // the digest after "Server sent:"
                             received: Option<seq<byte>>)   // the digest after "Client received:"

  function Begin(c: Setup): Control {
    Control(GetCount, OfferCount, Zeros(c.count), Zeros(c.count), 0, 0, 0, c.cMem, None, None)
  }

  /** Either side's reading of the other's count and list. */
  function CountRead(from: Order, to: Order, count: nat): nat { Load(to, Store(from, count, ADDR_BYTES)) }

  function ListRead(from: Order, to: Order, infos: seq<MrInfo>): seq<MrInfo> {
    DecodeInfos(to, EncodeInfos(from, infos), |infos|)
  }

  // ----- Steps -----

  datatype Move = CountToServer | InfoToServer | CountToClient | InfoToClient
                | PostWrite | AckWrite | LandWrite | SlotDone | EndMessage | PrintSent | PrintReceived

  predicate CanLandWrite(c: Setup, s: Control) {
    && s.landed < s.posted && c.count > 0 && |c.sAddr| == c.count == |s.sRemote|
    && var n := SlotOf(s.landed, c.count);
       c.sAddr[n] + c.length <= |c.sMem| && s.sRemote[n].addr + c.length <= |s.mem|
  }

  predicate Can(c: Setup, s: Control, m: Move) {
    match m
    case CountToServer => s.spc == GetCount && s.cpc == OfferCount
    case InfoToServer => s.spc == GetInfo && s.cpc == OfferInfo
    case CountToClient => s.spc == GiveCount && s.cpc == TakeCount
    case InfoToClient => s.spc == GiveInfo && s.cpc == TakeInfo
    case PostWrite => s.spc.Writing?
    case AckWrite => s.acked < s.posted
    case LandWrite => CanLandWrite(c, s)
    case SlotDone => s.spc.Awaiting? && s.acked == s.posted
    case EndMessage => s.spc == Ending && s.cpc == AwaitEnd && s.landed == s.posted
    case PrintSent => s.spc == Hashing && |c.sAddr| == c.count
    case PrintReceived => s.cpc == Hash && |c.cIn| == c.count
  }

  function Do(c: Setup, s: Control, m: Move): Control
    requires Can(c, s, m)
  {
    match m
    // A mismatch leaves the result positive, so the reader goes on without the other's list.
    case CountToServer =>
      s.(cpc := OfferInfo, spc := if CountRead(c.cOrder, c.sOrder, c.count) == c.count then GetInfo else GiveCount)
    case InfoToServer => s.(cpc := TakeCount, spc := GiveCount, sRemote := ListRead(c.cOrder, c.sOrder, c.cIn))
    case CountToClient =>
      s.(spc := GiveInfo, cpc := if CountRead(c.sOrder, c.cOrder, c.count) == c.count then TakeInfo else AwaitEnd)
    case InfoToClient => s.(spc := Writing(0, 0), cpc := AwaitEnd, cRemote := ListRead(c.sOrder, c.cOrder, c.sIn))
    case PostWrite =>
      s.(posted := s.posted + 1,
         spc := if s.spc.i + 1 < c.count then Writing(s.spc.n, s.spc.i + 1) else Awaiting(s.spc.n))
    case AckWrite => s.(acked := s.acked + 1)
    case LandWrite =>
      var n := SlotOf(s.landed, c.count);
      s.(landed := s.landed + 1, mem := Put(s.mem, s.sRemote[n].addr, Slice(c.sMem, c.sAddr[n], c.length)))
    case SlotDone => s.(spc := if s.spc.n + 1 < c.repeat then Writing(s.spc.n + 1, 0) else Ending)
    case EndMessage => s.(spc := Hashing, cpc := Hash)
    case PrintSent => s.(spc := Finished, sent := Some(c.sha(HashInput(c.sMem, c.sAddr, c.length, c.count))))
    case PrintReceived =>
      s.(cpc := Over, received := Some(c.sha(HashInput(s.mem, AddressesOf(c.cIn), c.length, c.count))))
  }

  ghost predicate IsControlRun(c: Setup, states: seq<Control>, moves: seq<Move>) {
    && |states| == |moves| + 1 && states[0] == Begin(c)
    && (forall i :: 0 <= i < |moves| ==> Can(c, states[i], moves[i]) && states[i + 1] == Do(c, states[i], moves[i]))
  }

  // ----- What every step keeps -----

  /** The two programs march through the exchange together. */
  predicate Together(s: Control) {
    match s.cpc
    case OfferCount => s.spc == GetCount
    case OfferInfo => s.spc == GetInfo
    case TakeCount => s.spc == GiveCount
    case TakeInfo => s.spc == GiveInfo
    case AwaitEnd => s.spc.Writing? || s.spc.Awaiting? || s.spc.Ending?
    case _ => s.spc.Hashing? || s.spc.Finished?
  }

  function WrittenBy(c: Setup, pc: ControlServerPc): nat {
    match pc
    case Writing(n, i) => Times(n, c.count) + i
    case Awaiting(n) => Times(n + 1, c.count)
    case Ending => Times(c.repeat, c.count)
    case Hashing => Times(c.repeat, c.count)
    case Finished => Times(c.repeat, c.count)
    case _ => 0
  }

  ghost predicate CountersOk(c: Setup, s: Control) {
    && s.posted == WrittenBy(c, s.spc) && s.acked <= s.posted && s.landed <= s.posted
    && (s.spc.Writing? ==> s.spc.n < c.repeat && s.spc.i < c.count) && (s.spc.Awaiting? ==> s.spc.n < c.repeat)
    && (s.spc in {Ending, Hashing, Finished} ==> s.acked == s.posted)
    && (s.spc in {Hashing, Finished} ==> s.landed == s.posted)
  }

  ghost predicate ListsOk(c: Setup, s: Control) {
    && s.sRemote == (if s.spc.GetCount? || s.spc.GetInfo? then Zeros(c.count) else c.cIn)
    && s.cRemote == (if s.cpc in {OfferCount, OfferInfo, TakeCount, TakeInfo} then Zeros(c.count) else c.sIn)
  }

  /** The slices of the first `k` writes. */
  function FirstSlots(c: Setup, k: nat): (r: seq<nat>)
    requires c.count > 0
    ensures |r| == k && forall i :: 0 <= i < k ==> r[i] == SlotOf(i, c.count)
  {
    seq(k, i requires 0 <= i < k => SlotOf(i, c.count))
  }

  ghost predicate ClientMemoryOk(c: Setup, s: Control)
    requires c.count > 0 && |c.sAddr| == |c.cIn|
  {
    var addr := AddressesOf(c.cIn);
    && OutsideKept(addr, c.length, s.mem, c.cMem)
    && Mixed(addr, s.mem, c.sAddr, c.sMem, c.cMem, c.length, FirstSlots(c, s.landed))
  }

  ghost function SentDigest(c: Setup): seq<byte>
    requires |c.sAddr| == c.count
  {
    c.sha(HashInput(c.sMem, c.sAddr, c.length, c.count))
  }

  ghost predicate DigestsOk(c: Setup, s: Control)
    requires |c.sAddr| == c.count
  {
    && s.sent == (if s.spc.Finished? then Some(SentDigest(c)) else None)
    && s.received == (if s.cpc.Over? then Some(SentDigest(c)) else None)
  }

  ghost predicate ControlInv(c: Setup, s: Control)
    requires |c.sAddr| == c.count == |c.cIn| && c.count > 0
  {
    Together(s) && CountersOk(c, s) && ListsOk(c, s) && ClientMemoryOk(c, s) && DigestsOk(c, s)
  }

  lemma BeginOk(c: Setup)
    requires Ready(c)
    ensures ControlInv(c, Begin(c))
  {
    assert FirstSlots(c, 0) == [];
  }

  lemma ReadsRight(c: Setup)
    requires Ready(c)
    ensures CountRead(c.cOrder, c.sOrder, c.count) == c.count <==> !Garbled(c)
    ensures CountRead(c.sOrder, c.cOrder, c.count) == c.count <==> !Garbled(c)
    ensures ListRead(c.cOrder, c.sOrder, c.cIn) == c.cIn && ListRead(c.sOrder, c.cOrder, c.sIn) == c.sIn
  {
    RawWordAgrees(c.cOrder, c.sOrder, c.count, ADDR_BYTES);
    RawWordAgrees(c.sOrder, c.cOrder, c.count, ADDR_BYTES);
    DecodeEncode(c.cOrder, c.sOrder, c.cIn);
    DecodeEncode(c.sOrder, c.cOrder, c.sIn);
  }

  lemma ExchangeKeeps(c: Setup, s: Control, m: Move)
    requires Ready(c) && !Garbled(c) && ControlInv(c, s) && Can(c, s, m)
    requires m in {CountToServer, InfoToServer, CountToClient, InfoToClient}
    ensures ControlInv(c, Do(c, s, m))
  {
    ReadsRight(c);
  }

  lemma WritesKeep(c: Setup, s: Control, m: Move)
    requires Ready(c) && ControlInv(c, s) && Can(c, s, m) && m in {PostWrite, AckWrite, SlotDone, EndMessage}
    ensures ControlInv(c, Do(c, s, m))
  {}

  lemma NextSlot(c: Setup, k: nat)
    requires c.count > 0
    ensures FirstSlots(c, k + 1) == FirstSlots(c, k) + [SlotOf(k, c.count)]
  {}

  lemma LandMixed(c: Setup, addr: seq<nat>, mem: seq<byte>, k: nat)
    requires c.count > 0 && |addr| == |c.sAddr| == c.count
    requires SlicesOk(addr, c.length, |mem|) && SlicesOk(c.sAddr, c.length, |c.sMem|)
    requires OutsideKept(addr, c.length, mem, c.cMem)
    requires Mixed(addr, mem, c.sAddr, c.sMem, c.cMem, c.length, FirstSlots(c, k))
    ensures var m := SlotOf(k, c.count);
            var mem' := Put(mem, addr[m], Slice(c.sMem, c.sAddr[m], c.length));
            && OutsideKept(addr, c.length, mem', c.cMem)
            && Mixed(addr, mem', c.sAddr, c.sMem, c.cMem, c.length, FirstSlots(c, k + 1))
  {
    CopyOne(addr, mem, c.sAddr, c.sMem, c.cMem, c.length, FirstSlots(c, k), SlotOf(k, c.count));
    NextSlot(c, k);
  }

  lemma LandMemory(c: Setup, s: Control)
    requires Ready(c) && ClientMemoryOk(c, s) && s.sRemote == c.cIn && CanLandWrite(c, s)
    ensures ClientMemoryOk(c, Do(c, s, LandWrite))
  {
    LandMixed(c, AddressesOf(c.cIn), s.mem, s.landed);
  }

  lemma LandKeeps(c: Setup, s: Control)
    requires Ready(c) && ControlInv(c, s) && CanLandWrite(c, s)
    ensures ControlInv(c, Do(c, s, LandWrite))
  {
    LandMemory(c, s);
  }

  lemma PrintKeeps(c: Setup, s: Control, m: Move)
    requires Ready(c) && ControlInv(c, s) && Can(c, s, m) && m in {PrintSent, PrintReceived}
    ensures ControlInv(c, Do(c, s, m))
  {
    if m == PrintReceived {
      TimesGrow(1, c.repeat, c.count);
      assert Times(1, c.count) == c.count;
      AllReceived(c, s);
    }
  }

  lemma AllReceived(c: Setup, s: Control)
    requires Ready(c) && ClientMemoryOk(c, s) && s.landed >= c.count
    ensures HashInput(s.mem, AddressesOf(c.cIn), c.length, c.count) == HashInput(c.sMem, c.sAddr, c.length, c.count)
  {
    var addr, log := AddressesOf(c.cIn), FirstSlots(c, s.landed);
    MixedHash(addr, s.mem, c.sAddr, c.sMem, c.cMem, c.length, log);
    MixedIsSourceIff(addr, c.sAddr, c.sMem, c.cMem, c.length, log);
    forall n | 0 <= n < c.count ensures n in log { assert log[n] == n; }
  }

  lemma ControlKeeps(c: Setup, s: Control, m: Move)
    requires Ready(c) && !Garbled(c) && ControlInv(c, s) && Can(c, s, m)
    ensures ControlInv(c, Do(c, s, m))
  {
    if m in {CountToServer, InfoToServer, CountToClient, InfoToClient} { ExchangeKeeps(c, s, m); }
    else if m in {PostWrite, AckWrite, SlotDone, EndMessage} { WritesKeep(c, s, m); }
    else if m == LandWrite { LandKeeps(c, s); }
    else { PrintKeeps(c, s, m); }
  }

  lemma {:induction false} ControlRunInv(c: Setup, states: seq<Control>, moves: seq<Move>, i: nat)
    requires Ready(c) && !Garbled(c) && IsControlRun(c, states, moves) && i < |states|
    ensures ControlInv(c, states[i])
  {
    if i == 0 {
      BeginOk(c);
    } else {
      ControlRunInv(c, states, moves, i - 1);
      ControlKeeps(c, states[i - 1], moves[i - 1]);
    }
  }

  // ----- Theorems -----

  predicate BothDone(s: Control) { s.spc == Finished && s.cpc == Over }

  ghost predicate Stuck(c: Setup, s: Control) { forall m :: !Can(c, s, m) }

  lemma NotStuck(c: Setup, s: Control)
    requires Ready(c) && ControlInv(c, s) && !BothDone(s)
    ensures !Stuck(c, s)
  {
    if s.landed < s.posted {
      var n := SlotOf(s.landed, c.count);
      assert AddressesOf(c.cIn)[n] == c.cIn[n].addr;
      assert Can(c, s, LandWrite);
    } else if s.acked < s.posted {
      assert Can(c, s, AckWrite);
    } else {
      var m := match s.spc
        case GetCount => CountToServer
        case GetInfo => InfoToServer
        case GiveCount => CountToClient
        case GiveInfo => InfoToClient
        case Writing(_, _) => PostWrite
        case Awaiting(_) => SlotDone
        case Ending => EndMessage
        case Hashing => PrintSent
        case Finished => PrintReceived;
      assert Can(c, s, m);
    }
  }

  lemma DoneIsStuck(c: Setup, s: Control)
    requires BothDone(s) && CountersOk(c, s)
    ensures Stuck(c, s)
  {}

  /** Slice `n` of the client is slice `n` of the server, byte for byte. */
  ghost predicate Delivered(c: Setup, s: Control) {
    forall n :: 0 <= n < c.count && n < |c.cIn| && n < |c.sAddr| ==>
      && c.cIn[n].addr + c.length <= |s.mem| && c.sAddr[n] + c.length <= |c.sMem|
      && s.mem[c.cIn[n].addr..c.cIn[n].addr + c.length] == c.sMem[c.sAddr[n]..c.sAddr[n] + c.length]
  }

  lemma AllWritten(c: Setup, s: Control)
    requires Ready(c) && CountersOk(c, s) && s.spc in {Hashing, Finished}
    ensures s.posted == s.landed == c.repeat * c.count && s.landed >= c.count
  {
    TimesGrow(1, c.repeat, c.count);
    assert Times(1, c.count) == c.count;
    TimesIsProduct(c.repeat, c.count);
  }

  lemma AllDelivered(c: Setup, s: Control)
    requires Ready(c) && ClientMemoryOk(c, s) && s.landed >= c.count
    ensures Delivered(c, s)
  {
    var addr, log := AddressesOf(c.cIn), FirstSlots(c, s.landed);
    forall n | 0 <= n < c.count ensures Peek(s.mem, addr[n], c.length) == Peek(c.sMem, c.sAddr[n], c.length) {
      assert log[n] == n;
    }
  }

  /** When the count is read correctly the two-way exchange does not deadlock, nor does anything
      after it. Both sides hold the other's list once they are through. What is printed is the hash
      of the server's outgoing slices, joined in request order, on both sides. Once the terminating
      message has passed, `repeat * count` writes have landed and every slice of the client holds
      the server's, and the client's memory never changes outside the slices it offered. */
  lemma ControlAgreement(c: Setup, states: seq<Control>, moves: seq<Move>, i: nat)
    requires Ready(c) && !Garbled(c) && IsControlRun(c, states, moves) && i < |states|
    ensures var s := states[i];
            && (Stuck(c, s) <==> BothDone(s))
            && (s.spc.Writing? ==> s.sRemote == c.cIn && s.cRemote == c.sIn)
            && (s.sent.Some? <==> s.spc == Finished) && (s.received.Some? <==> s.cpc == Over)
            && (s.sent.Some? ==> s.sent.value == c.sha(Joined(Pieces(c.sMem, c.sAddr, c.length), c.count)))
            && (s.received.Some? ==> s.received.value == c.sha(Joined(Pieces(c.sMem, c.sAddr, c.length), c.count)))
            && (s.spc in {Hashing, Finished} ==> s.posted == s.landed == c.repeat * c.count && Delivered(c, s))
            && OutsideKept(AddressesOf(c.cIn), c.length, s.mem, c.cMem)
  {
    ControlRunInv(c, states, moves, i);
    if BothDone(states[i]) { DoneIsStuck(c, states[i]); } else { NotStuck(c, states[i]); }
    HashJoins(c.sMem, c.sAddr, c.length, c.count);
    if states[i].spc in {Hashing, Finished} {
      AllWritten(c, states[i]);
      AllDelivered(c, states[i]);
    }
  }

  function ServerPhase(c: Setup, pc: ControlServerPc): nat {
    match pc
    case GetCount => 0
    case GetInfo => 1
    case GiveCount => 2
    case GiveInfo => 3
    case Writing(n, _) => 4 + n
    case Awaiting(n) => 4 + n
    case Ending => 4 + c.repeat
    case Hashing => 5 + c.repeat
    case Finished => 6 + c.repeat
  }

  function ControlProgress(c: Setup, s: Control): nat {
    s.posted + s.acked + s.landed + ServerPhase(c, s.spc) + if s.cpc == Over then 1 else 0
  }

  lemma MoveAdvances(c: Setup, s: Control, m: Move)
    requires CountersOk(c, s) && Can(c, s, m)
    ensures ControlProgress(c, Do(c, s, m)) > ControlProgress(c, s)
  {}

  lemma PostedBounded(c: Setup, s: Control)
    requires CountersOk(c, s)
    ensures ControlProgress(c, s) <= 3 * Times(c.repeat, c.count) + c.repeat + 7
  {
    if s.spc.Writing? || s.spc.Awaiting? { TimesGrow(s.spc.n + 1, c.repeat, c.count); }
  }

  lemma {:induction false} ControlSteps(c: Setup, states: seq<Control>, moves: seq<Move>, i: nat)
    requires Ready(c) && !Garbled(c) && IsControlRun(c, states, moves) && i < |states|
    ensures ControlProgress(c, states[i]) >= i
  {
    if i > 0 {
      ControlSteps(c, states, moves, i - 1);
      ControlRunInv(c, states, moves, i - 1);
      MoveAdvances(c, states[i - 1], moves[i - 1]);
    }
  }

  /** Every run is bounded, so by the above it ends with both digests printed. */
  lemma ControlTerminates(c: Setup, states: seq<Control>, moves: seq<Move>)
    requires Ready(c) && !Garbled(c) && IsControlRun(c, states, moves)
    ensures |moves| <= 3 * (c.repeat * c.count) + c.repeat + 7
  {
    ControlSteps(c, states, moves, |moves|);
    ControlRunInv(c, states, moves, |moves|);
    PostedBounded(c, states[|moves|]);
    TimesIsProduct(c.repeat, c.count);
  }

  // ----- A count that is misread -----

  /** The server skips the client's list and offers its own while the client still offers its. */
  ghost predicate GarbledInv(c: Setup, s: Control) {
    s == Begin(c) || s == Begin(c).(spc := GiveCount, cpc := OfferInfo)
  }

  /** Then the exchange deadlocks after one message, in every run: each side waits for a receive
      that the other has not posted. */
  lemma {:induction false} GarbledDeadlocks(c: Setup, states: seq<Control>, moves: seq<Move>, i: nat)
    requires Ready(c) && Garbled(c) && IsControlRun(c, states, moves) && i < |states|
    ensures GarbledInv(c, states[i]) && !BothDone(states[i])
    ensures i > 0 ==> i == 1 == |moves| && Stuck(c, states[i])
  {
    if i > 0 {
      GarbledDeadlocks(c, states, moves, i - 1);
      assert Can(c, states[i - 1], moves[i - 1]);
      ReadsRight(c);
      assert |moves| > 1 ==> Can(c, states[1], moves[1]);
    }
  }
}
