/** Two connected reliable queue pairs, as the benchmark sees them through ibverbs. Each
    endpoint keeps the history of what it posted together with cursors into that history, so a
    queue is the part of the history between two cursors. The adapter moves on its own: it
    transmits, accepts, lands and acknowledges work requests in the order they were posted. */
module Nic {
  import opened Params
  import opened Memory

  /** Where a send-side request gathers from: registered memory, or a local C variable. */
  datatype Source = Block(addr: nat, len: nat) | Local(bytes: seq<byte>)

  /** Where a receive scatters to: registered memory, or the local control buffer. */
  datatype Sink = Into(addr: nat, len: nat) | Scratch(len: nat)

  datatype SendWr = SendWr(op: Verb, src: Source, raddr: nat, rkey: nat, signaled: bool)

  datatype Region = Region(base: nat, len: nat, rkey: nat, access: Verb)

  datatype Endpoint = Endpoint(
    mem: seq<byte>,          // the process's memory
    scratch: seq<byte>,      // last message received into a control buffer
    regions: seq<Region>,    // registered for remote access
    depth: nat,              // capacity of each work queue
    posted: seq<SendWr>,     // send-side requests, oldest first
    wire: seq<seq<byte>>,    // payloads transmitted so far
    reply: seq<seq<byte>>,   // one response per request the peer has accepted
    placed: nat,             // requests whose effect on the peer's memory is visible
    acked: nat,              // responses processed here
    cq: seq<nat>,            // send completions: indices into `posted`
    polled: nat,             // completions the program has taken
    retired: nat,            // requests whose queue slot is free again
    rq: seq<Sink>,           // receives, oldest first
    filled: nat,             // receives that hold a message
    taken: nat,              // receive completions the program has taken
    broken: bool,            // the queue pair is in the error state
    errs: seq<nat>,          // send completions with an error status, after those in `cq`
    errPolled: nat,          // of these, taken by the program
    lost: nat)               // receive completions with an error status taken by the program

  function SourceLen(s: Source): nat {
    match s case Block(_, len) => len case Local(bytes) => |bytes|
  }

  function SinkLen(s: Sink): nat {
    match s case Into(_, len) => len case Scratch(len) => len
  }

  // ----- Program side -----

  /** A queue slot is held until a completion that covers it is polled. */
  function Occupied(x: Endpoint): int { |x.posted| - x.retired }

  predicate HasRoom(x: Endpoint) { Occupied(x) < x.depth }

  /** A post on a full queue fails and leaves no request behind. */
  function PostSend(x: Endpoint, wr: SendWr): Endpoint {
    if HasRoom(x) then x.(posted := x.posted + [wr]) else x
  }

  predicate CanPoll(x: Endpoint) { x.polled < |x.cq| }

  /** Taking a completion retires its request and every request posted before it. */
  function PollSend(x: Endpoint): Endpoint
    requires CanPoll(x)
  {
    x.(polled := x.polled + 1, retired := x.cq[x.polled] + 1)
  }

  /** Error completions come after all successful ones. */
  predicate CanPollError(x: Endpoint) { x.polled == |x.cq| && x.errPolled < |x.errs| }

  function PollError(x: Endpoint): Endpoint
    requires CanPollError(x)
  {
    x.(errPolled := x.errPolled + 1, retired := x.errs[x.errPolled] + 1)
  }

  function PostRecv(x: Endpoint, s: Sink): Endpoint {
    if |x.rq| - x.taken - x.lost < x.depth then x.(rq := x.rq + [s]) else x
  }

  predicate CanTake(x: Endpoint) { x.taken < x.filled }

  function Take(x: Endpoint): Endpoint { x.(taken := x.taken + 1) }

  /** In the error state the receives that hold no message complete with an error. */
  predicate CanTakeError(x: Endpoint) { x.broken && x.taken == x.filled && x.filled + x.lost < |x.rq| }

  function TakeError(x: Endpoint): Endpoint { x.(lost := x.lost + 1) }

  // ----- Adapter side: requests of `x`, whose peer is `y` -----

  predicate CanTransmit(x: Endpoint) {
    && !x.broken && |x.wire| < |x.posted|
    && var src := x.posted[|x.wire|].src; (src.Block? ==> src.addr + src.len <= |x.mem|)
  }

  /** The payload is gathered from memory at this moment. A Read carries none. */
  function Transmit(x: Endpoint): Endpoint
    requires CanTransmit(x)
  {
    var wr := x.posted[|x.wire|];
    var payload := if wr.op == Read then [] else
                   match wr.src case Block(a, n) => Slice(x.mem, a, n) case Local(b) => b;
    x.(wire := x.wire + [payload])
  }

  /** The remote key names a region that was registered for this verb and holds the range. */
  predicate Permits(regions: seq<Region>, op: Verb, addr: nat, rkey: nat, len: nat) {
    exists i :: 0 <= i < |regions| && Covers(regions[i], op, addr, rkey, len)
  }

  predicate Covers(g: Region, op: Verb, addr: nat, rkey: nat, len: nat) {
    g.rkey == rkey && g.access == op && g.base <= addr && addr + len <= g.base + g.len
  }

  /** A Send waits for a posted receive. A Send or a Read waits for earlier Writes to land. */
  predicate CanAccept(x: Endpoint, y: Endpoint) {
    var k := |x.reply|;
    && !x.broken && !y.broken && k < |x.wire| && k < |x.posted|
    && var wr := x.posted[k];
       match wr.op
       case NoVerb => false
       case Send =>
         && x.placed == k && y.filled < |y.rq| && |x.wire[k]| <= SinkLen(y.rq[y.filled])
         && (y.rq[y.filled].Into? ==> y.rq[y.filled].addr + y.rq[y.filled].len <= |y.mem|)
       case Write => Permits(y.regions, Write, wr.raddr, wr.rkey, SourceLen(wr.src))
       case Read =>
         && x.placed == k && Permits(y.regions, Read, wr.raddr, wr.rkey, SourceLen(wr.src))
         && wr.raddr + SourceLen(wr.src) <= |y.mem|
  }

  function Receive(y: Endpoint, payload: seq<byte>): Endpoint
    requires y.filled < |y.rq| && |payload| <= SinkLen(y.rq[y.filled])
    requires y.rq[y.filled].Into? ==> y.rq[y.filled].addr + y.rq[y.filled].len <= |y.mem|
  {
    match y.rq[y.filled]
    case Into(a, _) => y.(mem := Put(y.mem, a, payload), filled := y.filled + 1)
    case Scratch(_) => y.(scratch := payload, filled := y.filled + 1)
  }

  /** The requester's side of an accepted request. */
  function AcceptAtSender(x: Endpoint, y: Endpoint): Endpoint
    requires CanAccept(x, y)
  {
    var k := |x.reply|;
    var wr := x.posted[k];
    match wr.op
    case Read => x.(reply := x.reply + [Slice(y.mem, wr.raddr, SourceLen(wr.src))], placed := k + 1)
    case Send => x.(reply := x.reply + [[]], placed := k + 1)
    case _ => x.(reply := x.reply + [[]])  // a Write is acknowledged before it lands
  }

  function AcceptAtPeer(x: Endpoint, y: Endpoint): Endpoint
    requires CanAccept(x, y)
  {
    if x.posted[|x.reply|].op == Send then Receive(y, x.wire[|x.reply|]) else y
  }

  predicate CanLand(x: Endpoint, y: Endpoint) {
    var k := x.placed;
    && k < |x.reply| && k < |x.wire| && k < |x.posted|
    && x.posted[k].op == Write && x.posted[k].raddr + |x.wire[k]| <= |y.mem|
  }

  function LandAtSender(x: Endpoint): Endpoint { x.(placed := x.placed + 1) }

  function LandAtPeer(x: Endpoint, y: Endpoint): Endpoint
    requires CanLand(x, y)
  {
    y.(mem := Put(y.mem, x.posted[x.placed].raddr, x.wire[x.placed]))
  }

  predicate CanAck(x: Endpoint) {
    var k := x.acked;
    && !x.broken && k < |x.reply| && k < |x.posted|
    && (x.posted[k].op == Read ==> x.posted[k].src.Block? && x.posted[k].src.addr + |x.reply[k]| <= |x.mem|)
  }

  /** A Read's bytes arrive with its response. Only a signaled request produces a completion. */
  function Ack(x: Endpoint): Endpoint
    requires CanAck(x)
  {
    var k := x.acked;
    var wr := x.posted[k];
    x.(mem := if wr.op == Read then Put(x.mem, wr.src.addr, x.reply[k]) else x.mem,
       acked := k + 1,
       cq := if wr.signaled then x.cq + [k] else x.cq)
  }

  // ----- Errors -----

  /** The peer refuses the next request: its address and key match no region, or its message is
      longer than the receive. The refusal is answered after every earlier request. */
  predicate CanRefuse(x: Endpoint, y: Endpoint) {
    var k := |x.reply|;
    && !x.broken && !y.broken && k < |x.wire| && k < |x.posted| && x.acked == k
    && var wr := x.posted[k];
       match wr.op
       case NoVerb => false
       case Send => x.placed == k && y.filled < |y.rq| && |x.wire[k]| > SinkLen(y.rq[y.filled])
       case _ => !Permits(y.regions, wr.op, wr.raddr, wr.rkey, SourceLen(wr.src))
  }

  /** A refused request, or a failing link, puts a queue pair into the error state. */
  function Break(x: Endpoint): Endpoint { x.(broken := true) }

  predicate CanFlush(x: Endpoint) { x.broken && x.acked + |x.errs| < |x.posted| }

  /** In the error state every request that was not acknowledged completes with an error,
      signaled or not, and so does every request posted later. */
  function Flush(x: Endpoint): Endpoint { x.(errs := x.errs + [x.acked + |x.errs|]) }

  // ----- What the adapter guarantees, whatever program drives it -----

  /** The signaled requests among the first `k`, in order. */
  function SignaledIds(posted: seq<SendWr>, k: nat): (r: seq<nat>)
    requires k <= |posted|
    ensures |r| <= k
    ensures forall i :: 0 <= i < |r| ==> r[i] < k
  {
    if k == 0 then []
    else if posted[k - 1].signaled then SignaledIds(posted, k - 1) + [k - 1]
    else SignaledIds(posted, k - 1)
  }

  /** The Sends among the first `k`. */
  function SendsAmong(posted: seq<SendWr>, k: nat): (r: nat)
    requires k <= |posted|
    ensures r <= k
  {
    if k == 0 then 0 else SendsAmong(posted, k - 1) + if posted[k - 1].op == Send then 1 else 0
  }

  ghost predicate CursorsOk(x: Endpoint) {
    && x.acked <= |x.reply| <= |x.wire| <= |x.posted| && x.placed <= |x.reply|
    && x.taken <= x.filled && x.filled + x.lost <= |x.rq| && (x.lost > 0 ==> x.broken && x.taken == x.filled)
    && (forall k :: x.placed <= k < |x.reply| ==> x.posted[k].op == Write)
  }

  /** Error completions are those of the first unacknowledged requests, one each, and there are
      none outside the error state. */
  ghost predicate ErrorsOk(x: Endpoint) {
    && x.acked + |x.errs| <= |x.posted| && (|x.errs| > 0 ==> x.broken)
    && (forall i :: 0 <= i < |x.errs| ==> x.errs[i] == x.acked + i)
    && x.errPolled <= |x.errs| && (x.errPolled > 0 ==> x.polled == |x.cq|)
  }

  /** Successful completions are exactly the acknowledged signaled requests in posting order, and
      the retired prefix is what the last polled completion covers. */
  ghost predicate CompletionsOk(x: Endpoint) {
    && x.acked <= |x.posted| && ErrorsOk(x)
    && x.cq == SignaledIds(x.posted, x.acked) && x.polled <= |x.cq|
    && x.retired == (if x.errPolled > 0 then x.errs[x.errPolled - 1] + 1
                     else if x.polled == 0 then 0 else x.cq[x.polled - 1] + 1)
  }

  /** A message fills exactly one receive, and messages fill receives in order. */
  ghost predicate DeliveryOk(x: Endpoint, y: Endpoint) {
    |x.reply| <= |x.posted| && y.filled == SendsAmong(x.posted, |x.reply|)
  }

  ghost predicate AdapterOk(x: Endpoint, y: Endpoint) {
    CursorsOk(x) && CompletionsOk(x) && CursorsOk(y) && CompletionsOk(y) && DeliveryOk(x, y) && DeliveryOk(y, x)
  }

  /** Requests are never reordered or rewritten, so counts over a prefix do not change. */
  lemma {:induction false} PrefixCounts(posted: seq<SendWr>, more: seq<SendWr>, k: nat)
    requires k <= |posted|
    ensures SignaledIds(posted + more, k) == SignaledIds(posted, k)
    ensures SendsAmong(posted + more, k) == SendsAmong(posted, k)
  {
    if k > 0 { PrefixCounts(posted, more, k - 1); }
  }

  /** Completions of a longer prefix extend those of a shorter one. */
  lemma {:induction false} SignaledGrow(posted: seq<SendWr>, j: nat, k: nat)
    requires j <= k <= |posted|
    ensures SignaledIds(posted, j) <= SignaledIds(posted, k)
  {
    if j < k { SignaledGrow(posted, j, k - 1); }
  }

  lemma PostKeeps(x: Endpoint, y: Endpoint, wr: SendWr)
    requires AdapterOk(x, y)
    ensures AdapterOk(PostSend(x, wr), y)
  {
    PrefixCounts(x.posted, [wr], x.acked);
    PrefixCounts(x.posted, [wr], |x.reply|);
  }

  lemma PollKeeps(x: Endpoint, y: Endpoint)
    requires AdapterOk(x, y) && CanPoll(x)
    ensures AdapterOk(PollSend(x), y)
  {}

  lemma PollErrorKeeps(x: Endpoint, y: Endpoint)
    requires AdapterOk(x, y) && CanPollError(x)
    ensures AdapterOk(PollError(x), y)
  {}

  lemma RecvKeeps(x: Endpoint, y: Endpoint, s: Sink)
    requires AdapterOk(x, y)
    ensures AdapterOk(PostRecv(x, s), y)
  {}

  lemma TakeKeeps(x: Endpoint, y: Endpoint)
    requires AdapterOk(x, y)
    ensures CanTake(x) ==> AdapterOk(Take(x), y)
    ensures CanTakeError(x) ==> AdapterOk(TakeError(x), y)
  {}

  lemma BreakKeeps(x: Endpoint, y: Endpoint)
    requires AdapterOk(x, y)
    ensures AdapterOk(Break(x), y) && AdapterOk(Break(x), Break(y))
  {}

  lemma FlushKeeps(x: Endpoint, y: Endpoint)
    requires AdapterOk(x, y) && CanFlush(x)
    ensures AdapterOk(Flush(x), y)
  {}

  lemma TransmitKeeps(x: Endpoint, y: Endpoint)
    requires AdapterOk(x, y) && CanTransmit(x)
    ensures AdapterOk(Transmit(x), y)
  {}

  lemma AcceptKeeps(x: Endpoint, y: Endpoint)
    requires AdapterOk(x, y) && CanAccept(x, y)
    ensures AdapterOk(AcceptAtSender(x, y), AcceptAtPeer(x, y))
  {}

  lemma LandKeeps(x: Endpoint, y: Endpoint)
    requires AdapterOk(x, y) && CanLand(x, y)
    ensures AdapterOk(LandAtSender(x), LandAtPeer(x, y))
  {}

  lemma AckKeeps(x: Endpoint, y: Endpoint)
    requires AdapterOk(x, y) && CanAck(x)
    ensures AdapterOk(Ack(x), y)
  {
    AckCompletes(x);
  }

  lemma AckCompletes(x: Endpoint)
    requires CompletionsOk(x) && CanAck(x)
    ensures CompletionsOk(Ack(x))
  {}

  lemma AdapterOkSymmetric(x: Endpoint, y: Endpoint)
    requires AdapterOk(x, y)
    ensures AdapterOk(y, x)
  {}

  /** The unsignaled-completion rule. When one signaled completion is still owed and it is the
      newest request's, a completion in the queue proves that every request has been
      acknowledged, and polling it frees the whole queue. */
  lemma LastCompletionDrains(x: Endpoint)
    requires CursorsOk(x) && CompletionsOk(x) && CanPoll(x)
    requires |x.posted| > 0 && x.posted[|x.posted| - 1].signaled
    requires |SignaledIds(x.posted, |x.posted|)| == x.polled + 1
    ensures x.acked == |x.posted| == |x.reply| == |x.wire|
    ensures PollSend(x).retired == |x.posted|
    ensures Occupied(PollSend(x)) == 0
  {
    var n := |x.posted|;
    if x.acked < n {
      SignaledGrow(x.posted, x.acked, n - 1);
    }
  }
}
