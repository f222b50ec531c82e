/** What every step of the two-role run keeps. */
module RdmaInvariant {
  import opened Params
  import opened Memory
  import opened Exchange
  import opened Nic
  import opened RdmaRun

  // ----- The requests each program posts, by position -----

  function Index(c: Config, r: nat, n: nat): nat { Times(r, c.count) + n }

  function Total(c: Config): nat { Times(c.repeat, c.count) }

  /** Where the loops of one role stand after request `n` of round `r`. */
  lemma IndexFacts(c: Config, r: nat, n: nat)
    requires r < c.repeat && n < c.count
    ensures Index(c, r, n) < Total(c) && SlotOf(Index(c, r, n), c.count) == n
    ensures Index(c, r, n + 1) == Index(c, r, n) + 1
    ensures n + 1 == c.count ==> Index(c, r + 1, 0) == Index(c, r, n) + 1
    ensures n + 1 == c.count && r + 1 == c.repeat ==> Total(c) == Index(c, r, n) + 1
  {
    SlotAt(r, n, c.count);
    TimesGrow(r + 1, c.repeat, c.count);
  }

  /** Every transfer is some request of some round. */
  lemma {:induction false} IndexSplit(c: Config, k: nat, rounds: nat) returns (r: nat, n: nat)
    requires k < Times(rounds, c.count)
    ensures r < rounds && n < c.count && k == Index(c, r, n)
  {
    if k >= Times(rounds - 1, c.count) {
      r, n := rounds - 1, k - Times(rounds - 1, c.count);
    } else {
      r, n := IndexSplit(c, k, rounds - 1);
    }
  }

  lemma TotalCoversAll(c: Config)
    requires c.repeat > 0
    ensures Total(c) >= c.count
  {
    TimesGrow(1, c.repeat, c.count);
  }

  ghost predicate Lists(c: Config) {
    c.count > 0 && c.repeat > 0 && |c.cAddr| == |c.sAddr| == |c.sKey| == c.count
  }

  ghost predicate Shaped(c: Config) { Lists(c) && c.verb in {Send, Read, Write} }

  function Remote(c: Config): (r: seq<MrInfo>)
    requires |c.sAddr| == |c.sKey| == c.count
    ensures |r| == c.count
  {
    if c.verb == Send then Zeros(c.count) else ServerInfos(c)
  }

  /** What the client posts when every post succeeds. */
  ghost function ClientWr(c: Config, i: nat): SendWr
    requires Lists(c)
  {
    if i < Total(c) then DataWr(c, Remote(c), SlotOf(i, c.count)) else Message(END)
  }

  ghost function ServerWr(c: Config, i: nat): SendWr
    requires Lists(c)
  {
    Message(if i == 0 then CountBytes(c) else InfoBytes(c))
  }

  ghost function ClientSink(c: Config, j: nat): Sink {
    if j == 0 then Scratch(ADDR_BYTES) else Scratch(16 * c.count)
  }

  ghost function ServerSink(c: Config, j: nat): Sink
    requires Lists(c)
  {
    if c.verb == Send && j < Total(c) then Into(c.sAddr[SlotOf(j, c.count)], c.length) else Scratch(4)
  }

  ghost predicate ServerSinks(c: Config, rq: seq<Sink>)
    requires Lists(c)
  {
    forall j :: 0 <= j < |rq| ==> rq[j] == ServerSink(c, j)
  }

  ghost predicate ServerList(c: Config, posted: seq<SendWr>)
    requires Lists(c)
  {
    forall i :: 0 <= i < |posted| ==> posted[i] == ServerWr(c, i)
  }

  ghost predicate ClientSinks(c: Config, rq: seq<Sink>) {
    forall j :: 0 <= j < |rq| ==> rq[j] == ClientSink(c, j)
  }

  // ----- The requests that were posted -----

  /** Nothing was passed over: the `i`-th request is the one the loops get to as their `i`-th. */
  ghost predicate Straight(c: Config, log: seq<nat>)
    requires c.count > 0
  {
    forall i :: 0 <= i < |log| ==> log[i] == SlotOf(i, c.count)
  }

  ghost predicate InSlots(c: Config, log: seq<nat>) { forall i :: 0 <= i < |log| ==> log[i] < c.count }

  /** The `k`-th request of a client whose data requests are for the slices in `log`. */
  ghost function WrAt(c: Config, log: seq<nat>, k: nat): SendWr
    requires Lists(c) && InSlots(c, log)
  {
    if k < |log| then DataWr(c, Remote(c), log[k]) else Message(END)
  }

  ghost predicate Listed(c: Config, log: seq<nat>, posted: seq<SendWr>)
    requires Lists(c)
  {
    && InSlots(c, log) && |log| <= |posted| <= |log| + 1
    && (forall k :: 0 <= k < |posted| ==> posted[k] == WrAt(c, log, k))
  }

  /** How many data requests the loops have tried to post. */
  function Attempts(c: Config, pc: ClientPc): nat {
    match pc
    case Post(r, n) => Index(c, r, n)
    case Poll(r, n) => Index(c, r, n) + 1
    case PostEnd => Total(c)
    case PollEnd => Total(c)
    case ClientDone => Total(c)
    case ClientAborted => Total(c)
    case _ => 0
  }

  predicate InLoops(c: Config, pc: ClientPc) { pc.Post? || pc.Poll? ==> pc.r < c.repeat && pc.n < c.count }

  /** Posts may have failed, but none was added or moved, and "End" comes last. */
  ghost predicate LogOk(c: Config, log: seq<nat>, posted: seq<SendWr>, pc: ClientPc)
    requires Lists(c)
  {
    && Listed(c, log, posted)
    && |log| <= Attempts(c, pc) && (Straight(c, log) || |log| < Attempts(c, pc))
    && (pc.PollEnd? || pc.ClientDone? ==> |posted| == |log| + 1)
    && (!pc.PollEnd? && !pc.ClientDone? && !pc.ClientAborted? ==> |posted| == |log|)
  }

  // ----- Counters as functions of the program position -----

  predicate Exchanging(pc: ClientPc) { pc.RecvCount? || pc.WaitCount? || pc.RecvInfo? || pc.WaitInfo? }

  predicate ServerExchanging(pc: ServerPc) { pc.SendCount? || pc.PollCount? || pc.SendInfo? || pc.PollInfo? }

  /** A queue that is too small takes the first `cDepth` requests of the first round and no more. */
  function ClientPosted(c: Config, pc: ClientPc): nat {
    match pc
    case Post(r, n) => if TooDeep(c) && n > c.cDepth then c.cDepth else Index(c, r, n)
    case Poll(r, n) => if TooDeep(c) then c.cDepth else Index(c, r, n) + 1
    case PostEnd => Total(c)
    case PollEnd => Total(c) + 1
    case ClientDone => Total(c) + 1
    case _ => 0
  }

  /** Requests whose slots are free again. Throughput mode frees a whole round at once. */
  function ClientRetired(c: Config, pc: ClientPc): nat {
    match pc
    case Post(r, n) => if c.mode == Latency then Index(c, r, n) else Index(c, r, 0)
    case Poll(r, n) => if c.mode == Latency then Index(c, r, n) else Index(c, r, 0)
    case PostEnd => Total(c)
    case PollEnd => Total(c)
    case ClientDone => Total(c) + 1
    case _ => 0
  }

  function ClientRecvs(c: Config, pc: ClientPc): nat {
    match pc
    case RecvCount => 0
    case WaitCount => 1
    case RecvInfo => 1
    case _ => if c.verb == Send then 0 else 2
  }

  function ClientTaken(c: Config, pc: ClientPc): nat {
    match pc
    case RecvCount => 0
    case WaitCount => 0
    case RecvInfo => 1
    case WaitInfo => 1
    case _ => if c.verb == Send then 0 else 2
  }

  /** With a queue that is too small the client does not get past its first round. */
  predicate ClientAt(c: Config, pc: ClientPc) {
    match pc
    case Post(r, n) => r < c.repeat && n < c.count && (TooDeep(c) ==> r == 0)
    case Poll(r, n) => r < c.repeat && n < c.count && (TooDeep(c) ==> r == 0) && Signals(c, n)
    case ClientAborted => false
    case _ => if Exchanging(pc) then c.verb != Send else !TooDeep(c)
  }

  /** The program is waiting for the newest request to complete. */
  predicate ClientWaits(pc: ClientPc) { pc.Poll? || pc.PollEnd? }

  /** The only completion that can still come, if any, is the newest request's. */
  ghost predicate Booked(x: Endpoint, pc: ClientPc) {
    var signaled := |SignaledIds(x.posted, |x.posted|)|;
    || (SawError(x) && x.broken && x.polled == |x.cq|)
    || signaled == x.polled
    || (ClientWaits(pc) && |x.posted| > 0 && x.posted[|x.posted| - 1].signaled && signaled == x.polled + 1)
  }

  /** An error status has been reported to the program. */
  predicate SawError(x: Endpoint) { x.errPolled > 0 || x.lost > 0 }

  /** Without a refused post "End" leaves the host only after everything else. */
  ghost predicate EndOk(c: Config, x: Endpoint, log: seq<nat>, fail: bool) {
    !fail && |x.wire| > |log| ==> |log| == Total(c) && !TooDeep(c)
  }

  /** In latency mode a refused post is the end: the wait that follows it has nothing to wait for. */
  ghost predicate Halted(x: Endpoint, pc: ClientPc) {
    SawError(x) || pc.ClientAborted? || (pc.Poll? && |SignaledIds(x.posted, |x.posted|)| == x.polled)
  }

  /** The client whatever has failed. */
  ghost predicate ClientFair(c: Config, x: Endpoint, pc: ClientPc, log: seq<nat>, fail: bool)
    requires Lists(c)
  {
    && InLoops(c, pc) && x.depth == c.cDepth && x.regions == [] && LogOk(c, log, x.posted, pc) && Booked(x, pc)
    && ClientSinks(c, x.rq)
    && (Exchanging(pc) ==>
          && c.verb != Send && !SawError(x) && !fail
          && |x.rq| == ClientRecvs(c, pc) && x.taken == ClientTaken(c, pc))
    && EndOk(c, x, log, fail) && (fail && c.mode == Latency ==> Halted(x, pc))
    && (x.lost > 0 ==> pc.ClientAborted?) && (pc.ClientDone? ==> !SawError(x) && x.acked == |x.posted|)
  }

  /** The client as long as no error has been reported to it and no post refused. */
  ghost predicate ClientOk(c: Config, x: Endpoint, pc: ClientPc, log: seq<nat>)
    requires Lists(c)
  {
    && ClientAt(c, pc) && x.depth == c.cDepth && Straight(c, log)
    && |x.posted| == ClientPosted(c, pc) && x.retired == ClientRetired(c, pc)
    && |SignaledIds(x.posted, |x.posted|)| == x.polled + (if ClientWaits(pc) && !TooDeep(c) then 1 else 0)
    && |x.rq| == ClientRecvs(c, pc) && x.taken == ClientTaken(c, pc)
  }

  ghost predicate ClientSide(c: Config, x: Endpoint, pc: ClientPc, log: seq<nat>, fail: bool)
    requires Lists(c)
  {
    ClientFair(c, x, pc, log, fail) && (!SawError(x) && !fail ==> ClientOk(c, x, pc, log))
  }

  function ServerPosted(c: Config, pc: ServerPc): nat {
    match pc
    case SendCount => 0
    case PollCount => 1
    case SendInfo => 1
    case _ => if c.verb == Send then 0 else 2
  }

  function ServerRetired(c: Config, pc: ServerPc): nat {
    match pc
    case SendCount => 0
    case PollCount => 0
    case SendInfo => 1
    case PollInfo => 1
    case _ => if c.verb == Send then 0 else 2
  }

  /** Receives posted for data before the one for "End". */
  function DataRecvs(c: Config): nat { if c.verb == Send then Total(c) else 0 }

  function ServerRecvs(c: Config, pc: ServerPc): nat {
    match pc
    case RecvSlice(r, n) => Index(c, r, n)
    case WaitSlice(r, n) => Index(c, r, n) + 1
    case RecvEnd => DataRecvs(c)
    case WaitEnd => DataRecvs(c) + 1
    case ServerDone => DataRecvs(c) + 1
    case _ => 0
  }

  function ServerTaken(c: Config, pc: ServerPc): nat {
    match pc
    case RecvSlice(r, n) => Index(c, r, n)
    case WaitSlice(r, n) => Index(c, r, n)
    case RecvEnd => DataRecvs(c)
    case WaitEnd => DataRecvs(c)
    case ServerDone => DataRecvs(c) + 1
    case _ => 0
  }

  predicate ServerAt(c: Config, pc: ServerPc) {
    match pc
    case RecvSlice(r, n) => c.verb == Send && r < c.repeat && n < c.count
    case WaitSlice(r, n) => c.verb == Send && r < c.repeat && n < c.count
    case ServerAborted => false
    case _ => ServerExchanging(pc) ==> c.verb != Send
  }

  predicate ServerWaits(pc: ServerPc) { pc.PollCount? || pc.PollInfo? }

  /** The server as long as no error has been reported to it and no post refused. */
  ghost predicate ServerOk(c: Config, x: Endpoint, pc: ServerPc)
    requires Lists(c)
  {
    && ServerAt(c, pc) && x.depth == c.sDepth && x.regions == c.sRegions
    && |x.posted| == ServerPosted(c, pc) && x.retired == ServerRetired(c, pc)
    && ServerList(c, x.posted)
    && |SignaledIds(x.posted, |x.posted|)| == x.polled + (if ServerWaits(pc) then 1 else 0)
    && |x.rq| == ServerRecvs(c, pc) && x.taken == ServerTaken(c, pc)
    && ServerSinks(c, x.rq)
  }

  /** The server after its first error: no message arrives any more, so it never sees "End". */
  ghost predicate ServerDoomed(c: Config, x: Endpoint, pc: ServerPc)
    requires Lists(c)
  {
    x.broken && x.taken == x.filled && !ServerExchanging(pc) && pc != ServerDone && ServerList(c, x.posted)
  }

  /** The server after a refused post: it has given up, or waits for a receive it does not have. */
  ghost predicate ServerStuck(c: Config, x: Endpoint, pc: ServerPc)
    requires Lists(c)
  {
    && (pc.ServerAborted? || (pc.WaitSlice? && x.taken == x.filled == |x.rq|))
    && x.regions == c.sRegions && ServerList(c, x.posted) && ServerSinks(c, x.rq)
  }

  ghost predicate ServerSide(c: Config, x: Endpoint, pc: ServerPc, fail: bool)
    requires Lists(c)
  {
    if SawError(x) then ServerDoomed(c, x, pc)
    else if fail then ServerStuck(c, x, pc)
    else ServerOk(c, x, pc)
  }

  // ----- Contents -----

  ghost function ClientPayload(c: Config, log: seq<nat>, k: nat): seq<byte>
    requires Lists(c) && InSlots(c, log)
  {
    if k >= |log| then END
    else if c.verb == Read then []
    else Peek(c.cMem, c.cAddr[log[k]], c.length)
  }

  ghost function ServerPayload(c: Config, k: nat): seq<byte>
    requires Lists(c)
  {
    if k == 0 then CountBytes(c) else InfoBytes(c)
  }

  ghost predicate ClientWireOk(c: Config, log: seq<nat>, wire: seq<seq<byte>>)
    requires Lists(c) && InSlots(c, log)
  {
    forall k :: 0 <= k < |wire| ==> wire[k] == ClientPayload(c, log, k)
  }

  ghost predicate ServerWireOk(c: Config, wire: seq<seq<byte>>)
    requires Lists(c)
  {
    forall k :: 0 <= k < |wire| ==> wire[k] == ServerPayload(c, k)
  }

  /** Responses to Reads carry the server's initial bytes. */
  ghost predicate RepliesOk(c: Config, log: seq<nat>, reply: seq<seq<byte>>)
    requires Lists(c) && InSlots(c, log)
  {
    c.verb == Read ==>
      forall k :: 0 <= k < |reply| && k < |log| ==> reply[k] == Peek(c.sMem, c.sAddr[log[k]], c.length)
  }

  ghost predicate ScratchOk(c: Config, x: Endpoint, y: Endpoint)
    requires Lists(c)
  {
    && (x.filled > 0 ==> x.scratch == ServerPayload(c, x.filled - 1))
    && (y.filled > DataRecvs(c) ==> y.scratch == END)
  }

  ghost predicate WiresOk(c: Config, log: seq<nat>, x: Endpoint, y: Endpoint)
    requires Lists(c) && InSlots(c, log)
  {
    && ClientWireOk(c, log, x.wire) && ServerWireOk(c, y.wire)
    && RepliesOk(c, log, x.reply) && ScratchOk(c, x, y)
  }

  /** The slices in `done` hold what the peer's slices held at the start, the others what they held
      themselves. */
  ghost predicate Mixed(addr: seq<nat>, mem: seq<byte>, from: seq<nat>, mem0: seq<byte>, own: seq<byte>,
                        length: nat, done: seq<nat>)
    requires |addr| == |from|
  {
    forall n :: 0 <= n < |addr| ==>
      Peek(mem, addr[n], length) == if n in done then Peek(mem0, from[n], length) else Peek(own, addr[n], length)
  }

  /** The first `k` entries, or all. */
  function Upto(log: seq<nat>, k: nat): seq<nat> { if k <= |log| then log[..k] else log }

  ghost predicate InSlice(addr: seq<nat>, length: nat, a: nat) {
    exists n :: 0 <= n < |addr| && addr[n] <= a < addr[n] + length
  }

  /** Nothing outside the slices has changed. */
  ghost predicate OutsideKept(addr: seq<nat>, length: nat, mem: seq<byte>, mem0: seq<byte>) {
    && |mem| == |mem0|
    && forall a :: 0 <= a < |mem| && mem[a] != mem0[a] ==> InSlice(addr, length, a)
  }

  /** Messages meet the receives of their own slices as long as nothing was passed over. */
  ghost predicate Aligned(c: Config, log: seq<nat>, placed: nat)
    requires c.count > 0
  {
    Straight(c, log) && (placed <= |log| || |log| == Total(c))
  }

  ghost predicate MemoryOk(c: Config, log: seq<nat>, x: Endpoint, y: Endpoint)
    requires Lists(c)
  {
    if c.verb == Read then
      && y.mem == c.sMem
      && OutsideKept(c.cAddr, c.length, x.mem, c.cMem)
      && Mixed(c.cAddr, x.mem, c.sAddr, c.sMem, c.cMem, c.length, Upto(log, x.acked))
    else
      && x.mem == c.cMem
      && OutsideKept(c.sAddr, c.length, y.mem, c.sMem)
      && (c.verb != Send || Aligned(c, log, x.placed) ==>
            Mixed(c.sAddr, y.mem, c.cAddr, c.cMem, c.sMem, c.length, Upto(log, x.placed)))
  }

  /** The bytes the source side hashes: its own initial slices. */
  ghost function SourceInput(c: Config): seq<byte>
    requires Lists(c)
  {
    if c.verb == Read then HashInput(c.sMem, c.sAddr, c.length, c.count)
    else HashInput(c.cMem, c.cAddr, c.length, c.count)
  }

  function Pieces(mem: seq<byte>, addr: seq<nat>, length: nat): (r: seq<seq<byte>>)
    ensures |r| == |addr| && forall i :: 0 <= i < |addr| ==> r[i] == Peek(mem, addr[i], length)
  {
    seq(|addr|, i requires 0 <= i < |addr| => Peek(mem, addr[i], length))
  }

  ghost function Choice(theirs: seq<seq<byte>>, ours: seq<seq<byte>>, log: seq<nat>): (r: seq<seq<byte>>)
    requires |theirs| == |ours|
    ensures |r| == |ours| && forall i :: 0 <= i < |ours| ==> r[i] == if i in log then theirs[i] else ours[i]
  {
    seq(|ours|, i requires 0 <= i < |ours| => if i in log then theirs[i] else ours[i])
  }

  function Joined(pieces: seq<seq<byte>>, n: nat): seq<byte>
    requires n <= |pieces|
  {
    if n == 0 then [] else Joined(pieces, n - 1) + pieces[n - 1]
  }

  /** The bytes the other side hashes: the source's slice where a request was posted for it, else
      its own. */
  ghost function MixedInput(addr: seq<nat>, from: seq<nat>, mem0: seq<byte>, own: seq<byte>, length: nat,
                            log: seq<nat>): seq<byte>
    requires |addr| == |from|
  {
    Joined(Choice(Pieces(mem0, from, length), Pieces(own, addr, length), log), |addr|)
  }

  ghost function TargetInput(c: Config, log: seq<nat>): seq<byte>
    requires Lists(c)
  {
    if c.verb == Read then MixedInput(c.cAddr, c.sAddr, c.sMem, c.cMem, c.length, log)
    else MixedInput(c.sAddr, c.cAddr, c.cMem, c.sMem, c.length, log)
  }

  ghost function ClientInput(c: Config, log: seq<nat>): seq<byte>
    requires Lists(c)
  {
    if c.verb == Read then TargetInput(c, log) else SourceInput(c)
  }

  ghost function ServerInput(c: Config, log: seq<nat>): seq<byte>
    requires Lists(c)
  {
    if c.verb == Read then SourceInput(c) else TargetInput(c, log)
  }

  ghost predicate RemoteOk(c: Config, s: State)
    requires Lists(c)
  {
    !s.cpc.ClientAborted? ==> s.remote == if Exchanging(s.cpc) then Zeros(c.count) else Remote(c)
  }

  ghost predicate DigestsOk(c: Config, s: State)
    requires Lists(c)
  {
    && s.cDigest == (if s.cpc == ClientDone then Some(c.sha(ClientInput(c, s.log))) else None)
    && s.sDigest == (if s.spc == ServerDone then Some(c.sha(ServerInput(c, s.log))) else None)
  }

  ghost predicate SidesOk(c: Config, s: State)
    requires Lists(c)
  {
    && AdapterOk(s.cl, s.sv)
    && ClientSide(c, s.cl, s.cpc, s.log, s.cFail) && ServerSide(c, s.sv, s.spc, s.sFail)
  }

  ghost predicate ContentsOk(c: Config, s: State)
    requires Lists(c)
  {
    && InSlots(c, s.log) && WiresOk(c, s.log, s.cl, s.sv) && MemoryOk(c, s.log, s.cl, s.sv)
    && RemoteOk(c, s) && DigestsOk(c, s)
  }

  ghost predicate Inv(c: Config, s: State)
    requires Lists(c)
  {
    SidesOk(c, s) && ContentsOk(c, s)
  }

  lemma StartSides(c: Config)
    requires WellFormed(c)
    ensures SidesOk(c, Start(c))
  {
    assert Index(c, 0, 0) == 0;
  }

  lemma StartContents(c: Config)
    requires WellFormed(c)
    ensures ContentsOk(c, Start(c))
  {
    assert Upto([], 0) == [];
  }

  lemma StartInv(c: Config)
    requires WellFormed(c)
    ensures Inv(c, Start(c))
  {
    StartSides(c);
    StartContents(c);
  }

  /** The parts of an endpoint that no program step, failure or flush writes. */
  ghost predicate SameContents(x: Endpoint, x': Endpoint) {
    && x'.mem == x.mem && x'.scratch == x.scratch && x'.wire == x.wire && x'.reply == x.reply
    && x'.placed == x.placed && x'.acked == x.acked && x'.filled == x.filled
  }

  lemma ContentsFrame(c: Config, log: seq<nat>, x: Endpoint, y: Endpoint, x': Endpoint, y': Endpoint)
    requires Lists(c) && InSlots(c, log) && SameContents(x, x') && SameContents(y, y')
    ensures WiresOk(c, log, x, y) == WiresOk(c, log, x', y')
    ensures MemoryOk(c, log, x, y) == MemoryOk(c, log, x', y')
  {}

  // ----- Sends among the client's and the server's requests -----

  lemma {:induction false} ClientSends(c: Config, log: seq<nat>, posted: seq<SendWr>, k: nat)
    requires Lists(c) && c.verb != NoVerb && k <= |posted| && Listed(c, log, posted)
    ensures c.verb == Send ==> SendsAmong(posted, k) == k
    ensures c.verb != Send ==> SendsAmong(posted, k) == if k <= |log| then 0 else k - |log|
  {
    if k > 0 {
      ClientSends(c, log, posted, k - 1);
      assert posted[k - 1] == WrAt(c, log, k - 1);
    }
  }

  lemma {:induction false} ServerSends(c: Config, posted: seq<SendWr>, k: nat)
    requires Lists(c) && k <= |posted|
    requires ServerList(c, posted)
    ensures SendsAmong(posted, k) == k
  {
    if k > 0 { ServerSends(c, posted, k - 1); }
  }

  // ----- Copies -----

  lemma UptoNext(log: seq<nat>, k: nat)
    ensures k < |log| ==> Upto(log, k + 1) == Upto(log, k) + [log[k]]
    ensures k >= |log| ==> Upto(log, k + 1) == log && Upto(log, k) == log
  {}

  /** One more transfer into slice `m`: that slice becomes current and no other slice, and no byte
      outside the slices, is disturbed. */
  lemma CopyOne(addr: seq<nat>, mem: seq<byte>, from: seq<nat>, mem0: seq<byte>, own: seq<byte>, length: nat,
                done: seq<nat>, m: nat)
    requires |addr| == |from| && m < |addr|
    requires SlicesOk(addr, length, |mem|) && SlicesOk(from, length, |mem0|)
    requires Mixed(addr, mem, from, mem0, own, length, done) && OutsideKept(addr, length, mem, own)
    ensures var mem' := Put(mem, addr[m], Slice(mem0, from[m], length));
            Mixed(addr, mem', from, mem0, own, length, done + [m]) && OutsideKept(addr, length, mem', own)
  {
    var data := Slice(mem0, from[m], length);
    var mem' := Put(mem, addr[m], data);
    forall n | 0 <= n < |addr|
      ensures Peek(mem', addr[n], length) ==
              if n in done + [m] then Peek(mem0, from[n], length) else Peek(own, addr[n], length)
    {
      if m == n {
        PutThenSlice(mem, addr[n], data);
      } else {
        assert if m < n then Apart(addr[m], length, addr[n], length) else Apart(addr[n], length, addr[m], length);
        PutElsewhere(mem, addr[m], data, addr[n], length);
      }
    }
    PutInSlice(addr, mem, own, length, m, data);
  }

  /** Whatever is written inside a slice leaves the rest alone. */
  lemma PutInSlice(addr: seq<nat>, mem: seq<byte>, orig: seq<byte>, length: nat, m: nat, data: seq<byte>)
    requires m < |addr| && |data| <= length && addr[m] + length <= |mem| && OutsideKept(addr, length, mem, orig)
    ensures OutsideKept(addr, length, Put(mem, addr[m], data), orig)
  {
    var mem' := Put(mem, addr[m], data);
    forall a | 0 <= a < |mem'| && mem'[a] != orig[a] ensures InSlice(addr, length, a) {
      if mem[a] == orig[a] { assert addr[m] <= a < addr[m] + length; }
    }
  }

  lemma {:induction false} HashJoins(mem: seq<byte>, addr: seq<nat>, length: nat, n: nat)
    requires n <= |addr|
    ensures HashInput(mem, addr, length, n) == Joined(Pieces(mem, addr, length), n)
  {
    if n > 0 { HashJoins(mem, addr, length, n - 1); }
  }

  /** The hash is fed the mixture in request order. */
  lemma MixedHash(addr: seq<nat>, mem: seq<byte>, from: seq<nat>, mem0: seq<byte>, own: seq<byte>, length: nat,
                  log: seq<nat>)
    requires |addr| == |from| && Mixed(addr, mem, from, mem0, own, length, log)
    ensures HashInput(mem, addr, length, |addr|) == MixedInput(addr, from, mem0, own, length, log)
  {
    HashJoins(mem, addr, length, |addr|);
    assert Pieces(mem, addr, length) == Choice(Pieces(mem0, from, length), Pieces(own, addr, length), log);
  }

  /** Every slice had a request posted for it. */
  ghost predicate Covered(c: Config, log: seq<nat>) { forall n :: 0 <= n < c.count ==> n in log }

  lemma StraightCovers(c: Config, log: seq<nat>)
    requires c.count > 0 && Straight(c, log) && |log| >= c.count
    ensures Covered(c, log)
  {
    forall n | 0 <= n < c.count ensures n in log {
      assert log[n] == SlotOf(n, c.count) == n;
    }
  }

  // ----- When the two sides hash the same bytes -----

  lemma ConcatEqual(a: seq<byte>, b: seq<byte>, x: seq<byte>, y: seq<byte>)
    requires |x| == |y|
    ensures a + x == b + y <==> a == b && x == y
  {
    if a + x == b + y {
      assert |a| == |b|;
      assert a == (a + x)[..|a|] && b == (b + y)[..|b|];
      assert x == (a + x)[|a|..] && y == (b + y)[|b|..];
    }
  }

  /** Pieces of the same lengths join to the same bytes only if they are the same. */
  lemma {:induction false} JoinedEqualIff(a: seq<seq<byte>>, b: seq<seq<byte>>, n: nat)
    requires n <= |a| && n <= |b| && forall i :: 0 <= i < n ==> |a[i]| == |b[i]|
    ensures Joined(a, n) == Joined(b, n) <==> forall i :: 0 <= i < n ==> a[i] == b[i]
  {
    if n > 0 {
      JoinedEqualIff(a, b, n - 1);
      ConcatEqual(Joined(a, n - 1), Joined(b, n - 1), a[n - 1], b[n - 1]);
    }
  }

  /** The mixture is the source exactly when the slices that were passed over happened to agree. */
  lemma MixedIsSourceIff(addr: seq<nat>, from: seq<nat>, mem0: seq<byte>, own: seq<byte>, length: nat, log: seq<nat>)
    requires |addr| == |from| && SlicesOk(addr, length, |own|) && SlicesOk(from, length, |mem0|)
    ensures MixedInput(addr, from, mem0, own, length, log) == HashInput(mem0, from, length, |addr|) <==>
            forall m :: 0 <= m < |addr| && m !in log ==> Peek(own, addr[m], length) == Peek(mem0, from[m], length)
  {
    var theirs, ours := Pieces(mem0, from, length), Pieces(own, addr, length);
    var mixed := Choice(theirs, ours, log);
    HashJoins(mem0, from, length, |addr|);
    JoinedEqualIff(mixed, theirs, |addr|);
    assert (forall i :: 0 <= i < |addr| ==> mixed[i] == theirs[i]) <==>
           (forall i :: 0 <= i < |addr| && i !in log ==> ours[i] == theirs[i]);
  }

  /** Slices for which no request was ever posted held the same bytes from the start. */
  ghost predicate RestEqual(c: Config, log: seq<nat>)
    requires Lists(c)
  {
    forall n :: 0 <= n < c.count && n !in log ==>
      Peek(c.cMem, c.cAddr[n], c.length) == Peek(c.sMem, c.sAddr[n], c.length)
  }

  lemma InputsEqualIff(c: Config, log: seq<nat>)
    requires WellFormed(c)
    ensures ClientInput(c, log) == ServerInput(c, log) <==> RestEqual(c, log)
  {
    if c.verb == Read {
      MixedIsSourceIff(c.cAddr, c.sAddr, c.sMem, c.cMem, c.length, log);
    } else {
      MixedIsSourceIff(c.sAddr, c.cAddr, c.cMem, c.sMem, c.length, log);
    }
  }

  // ----- The hashed bytes, one by one -----

  /** Piece `i` of pieces of one length begins at the `i`-th multiple of it. */
  lemma {:induction false} JoinedAt(pieces: seq<seq<byte>>, length: nat, n: nat, i: nat, k: nat)
    requires i < n <= |pieces| && k < length && forall j :: 0 <= j < n ==> |pieces[j]| == length
    ensures |Joined(pieces, n)| == Times(n, length) && Times(i, length) + k < Times(n, length)
    ensures Joined(pieces, n)[Times(i, length) + k] == pieces[i][k]
  {
    if n > 1 { JoinedAt(pieces, length, n - 1, if i < n - 1 then i else 0, k); }
    TimesGrow(i + 1, n, length);
  }

  /** Byte `k` of slice `n` is at `n * length + k` of what is hashed. On the source side it is the
      source's byte; on the other side it is that too, if a request was posted for the slice, and
      else the side's own. */
  ghost predicate Laid(source: seq<byte>, target: seq<byte>, from: seq<nat>, mem0: seq<byte>,
                       addr: seq<nat>, own: seq<byte>, length: nat, log: seq<nat>, n: nat, k: nat)
  {
    var at := Times(n, length) + k;
    && |source| == |target| == Times(|addr|, length) && at < |source|
    && n < |from| && n < |addr| && from[n] + k < |mem0| && addr[n] + k < |own|
    && source[at] == mem0[from[n] + k]
    && target[at] == if n in log then mem0[from[n] + k] else own[addr[n] + k]
  }

  /** What both sides feed to the hash, byte by byte. */
  lemma InputBytes(c: Config, log: seq<nat>, n: nat, k: nat)
    requires WellFormed(c) && n < c.count && k < c.length
    ensures if c.verb == Read then
              Laid(ServerInput(c, log), ClientInput(c, log), c.sAddr, c.sMem, c.cAddr, c.cMem, c.length, log, n, k)
            else
              Laid(ClientInput(c, log), ServerInput(c, log), c.cAddr, c.cMem, c.sAddr, c.sMem, c.length, log, n, k)
  {
    if c.verb == Read {
      SourceAndTarget(c.cAddr, c.sAddr, c.sMem, c.cMem, c.length, log, n, k);
    } else {
      SourceAndTarget(c.sAddr, c.cAddr, c.cMem, c.sMem, c.length, log, n, k);
    }
  }

  lemma SourceAndTarget(addr: seq<nat>, from: seq<nat>, mem0: seq<byte>, own: seq<byte>, length: nat, log: seq<nat>,
                        n: nat, k: nat)
    requires |addr| == |from| && n < |addr| && k < length
    requires SlicesOk(addr, length, |own|) && SlicesOk(from, length, |mem0|)
    ensures Laid(HashInput(mem0, from, length, |addr|), MixedInput(addr, from, mem0, own, length, log),
                 from, mem0, addr, own, length, log, n, k)
  {
    var theirs, ours := Pieces(mem0, from, length), Pieces(own, addr, length);
    assert addr[n] + length <= |own| && from[n] + length <= |mem0|;
    HashJoins(mem0, from, length, |addr|);
    JoinedAt(theirs, length, |addr|, n, k);
    JoinedAt(Choice(theirs, ours, log), length, |addr|, n, k);
    assert theirs[n][k] == mem0[from[n] + k] && ours[n][k] == own[addr[n] + k];
  }
}
