/** The two-role benchmark run (`rdma_main.c`) as a transition system: the client program, the
    server program, and both adapters take turns in any order. */
module RdmaRun {
  import opened Params
  import opened Memory
  import opened Exchange
  import opened Nic

  datatype Option<T> = None | Some(value: T)

  /** Everything fixed before the first step. Slices and keys are those of the carved request
      arrays; `sha` is the hash, of which nothing is assumed. */
  datatype Config = Config(
    verb: Verb, mode: Mode, count: nat, length: nat, repeat: nat,
    cAddr: seq<nat>, sAddr: seq<nat>, sKey: seq<nat>, sRegions: seq<Region>,
    cOrder: Order, sOrder: Order, cDepth: nat, sDepth: nat,
    cMem: seq<byte>, sMem: seq<byte>, sha: seq<byte> -> seq<byte>)

  ghost predicate SlicesOk(addr: seq<nat>, length: nat, size: nat) {
    && (forall n :: 0 <= n < |addr| ==> addr[n] + length <= size)
    && (forall m, n :: 0 <= m < n < |addr| ==> Apart(addr[m], length, addr[n], length))
  }

  ghost predicate WellFormed(c: Config) {
    && c.verb in {Send, Read, Write} && c.count > 0 && c.repeat > 0
    && |c.cAddr| == |c.sAddr| == |c.sKey| == c.count < Pow256(ADDR_BYTES)
    && SlicesOk(c.cAddr, c.length, |c.cMem|) && SlicesOk(c.sAddr, c.length, |c.sMem|)
    && (forall n :: 0 <= n < c.count ==> MrInfo(c.sAddr[n], c.sKey[n]).Fits())
    && (forall n :: 0 <= n < c.count ==> Permits(c.sRegions, c.verb, c.sAddr[n], c.sKey[n], c.length))
    && (forall i :: 0 <= i < |c.sRegions| ==> c.sRegions[i].base > 0)
    && c.cDepth >= MAX_WR && c.sDepth >= MAX_WR
  }

  /** `RecvCount` to `WaitInfo` are in `get_remote_mr_info`, `Post` and `Poll` in
      `send_and_wait_requests` (round `r`, request `n`), the rest in `send_message`. */
  datatype ClientPc = RecvCount | WaitCount | RecvInfo | WaitInfo
                    | Post(r: nat, n: nat) | Poll(r: nat, n: nat)
                    | PostEnd | PollEnd | ClientDone | ClientAborted

  /** `SendCount` to `PollInfo` are in `send_local_mr_info`, `RecvSlice` and `WaitSlice` in
      `recv_requests`, the rest in `recv_message`. */
  datatype ServerPc = SendCount | PollCount | SendInfo | PollInfo
                    | RecvSlice(r: nat, n: nat) | WaitSlice(r: nat, n: nat)
                    | RecvEnd | WaitEnd | ServerDone | ServerAborted

  datatype State = State(cl: Endpoint, sv: Endpoint, cpc: ClientPc, spc: ServerPc,
                         remote: seq<MrInfo>,            // remote_addr/remote_rkey of the client's requests
                         cDigest: Option<seq<byte>>, sDigest: Option<seq<byte>>,
                         log: seq<nat>,                  // the slices of the data requests posted, in order
                         cFail: bool, sFail: bool)       // the library has refused a post

  // ----- Fixed data of a run -----

  const END: seq<byte> := [69, 110, 100, 0]  // "End" and its terminator

  function Zeros(n: nat): (r: seq<MrInfo>)
    ensures |r| == n
  {
    seq(n, _ => MrInfo(0, 0))
  }

  function ServerInfos(c: Config): (r: seq<MrInfo>)
    requires |c.sAddr| == |c.sKey| == c.count
    ensures |r| == c.count
    ensures forall n :: 0 <= n < c.count ==> r[n] == MrInfo(c.sAddr[n], c.sKey[n])
  {
    seq(c.count, n requires 0 <= n < c.count => MrInfo(c.sAddr[n], c.sKey[n]))
  }

  /** `flags & IBV_SEND_SIGNALED` when request `n` is posted. */
  predicate Signals(c: Config, n: nat) { c.mode == Latency || n == c.count - 1 }

  function DataWr(c: Config, remote: seq<MrInfo>, n: nat): SendWr
    requires n < |c.cAddr| && n < |remote|
  {
    SendWr(c.verb, Block(c.cAddr[n], c.length), remote[n].addr, remote[n].rkey, Signals(c, n))
  }

  function Message(b: seq<byte>): SendWr { SendWr(Send, Local(b), 0, 0, true) }

  function CountBytes(c: Config): seq<byte> { Store(c.sOrder, c.count, ADDR_BYTES) }

  function InfoBytes(c: Config): seq<byte>
    requires |c.sAddr| == |c.sKey| == c.count
  {
    EncodeInfos(c.sOrder, ServerInfos(c))
  }

  /** A receive buffer that was zeroed and then took a message of at most its size. */
  function Padded(b: seq<byte>, size: nat): (r: seq<byte>)
    ensures |r| >= size
    ensures |b| == size ==> r == b
  {
    if |b| >= size then b else b + seq(size - |b|, _ => 0)
  }

  /** The bytes that `sha1sum_array` feeds to the hash: the slices in request order. */
  function HashInput(mem: seq<byte>, addr: seq<nat>, length: nat, n: nat): seq<byte>
    requires n <= |addr|
  {
    if n == 0 then [] else HashInput(mem, addr, length, n - 1) + Peek(mem, addr[n - 1], length)
  }

  // ----- Initial states -----

  function Fresh(mem: seq<byte>, regions: seq<Region>, depth: nat): Endpoint {
    Endpoint(mem, [], regions, depth, [], [], [], 0, 0, [], 0, 0, [], 0, 0, false, [], 0, 0)
  }

  function FirstServe(c: Config): ServerPc { if c.verb == Send then RecvSlice(0, 0) else RecvEnd }

  function Start(c: Config): State {
    State(Fresh(c.cMem, [], c.cDepth), Fresh(c.sMem, c.sRegions, c.sDepth),
          if c.verb == Send then Post(0, 0) else RecvCount,
          if c.verb == Send then RecvSlice(0, 0) else SendCount,
          Zeros(c.count), None, None, [], false, false)
  }

  // ----- Program steps -----

  function AfterRequest(c: Config, r: nat, n: nat): ClientPc {
    if n + 1 < c.count then Post(r, n + 1)
    else if r + 1 < c.repeat then Post(r + 1, 0)
    else PostEnd
  }

  /** A post is followed by a wait if it was to be signaled, whether or not it succeeded. */
  function AfterPost(c: Config, r: nat, n: nat): ClientPc {
    if Signals(c, n) then Poll(r, n) else AfterRequest(c, r, n)
  }

  function AfterSlice(c: Config, r: nat, n: nat): ServerPc {
    if n + 1 < c.count then RecvSlice(r, n + 1)
    else if r + 1 < c.repeat then RecvSlice(r + 1, 0)
    else RecvEnd
  }

  predicate ClientCan(c: Config, s: State) {
    match s.cpc
    case WaitCount => CanTake(s.cl) || CanTakeError(s.cl)
    case WaitInfo => CanTake(s.cl) || CanTakeError(s.cl)
    case Poll(_, _) => CanPoll(s.cl) || CanPollError(s.cl)
    case PollEnd => CanPoll(s.cl) || CanPollError(s.cl)
    case Post(_, n) => n < |c.cAddr| && n < |s.remote|
    case ClientDone => false
    case ClientAborted => false
    case _ => true
  }

  /** What the next statement does to the client's queues. */
  function ClientQueues(c: Config, s: State): Endpoint
    requires ClientCan(c, s)
  {
    match s.cpc
    case RecvCount => PostRecv(s.cl, Scratch(ADDR_BYTES))
    case RecvInfo => PostRecv(s.cl, Scratch(16 * c.count))
    case WaitCount => if CanTake(s.cl) then Take(s.cl) else TakeError(s.cl)
    case WaitInfo => if CanTake(s.cl) then Take(s.cl) else TakeError(s.cl)
    case Post(r, n) => PostSend(s.cl, DataWr(c, s.remote, n))
    case PostEnd => PostSend(s.cl, Message(END))
    case Poll(_, _) => if CanPoll(s.cl) then PollSend(s.cl) else PollError(s.cl)
    case PollEnd => if CanPoll(s.cl) then PollSend(s.cl) else PollError(s.cl)
    case _ => s.cl
  }

  /** Where it leaves the program. */
  function ClientNext(c: Config, s: State): ClientPc
    requires ClientCan(c, s)
  {
    match s.cpc
    case RecvCount => WaitCount
    case WaitCount =>
      if !CanTake(s.cl) then ClientAborted
      // A mismatch leaves `rv` positive, so the caller goes on with unset remote fields.
      else if Load(c.cOrder, s.cl.scratch) == c.count then RecvInfo else Post(0, 0)
    case RecvInfo => WaitInfo
    case WaitInfo => if CanTake(s.cl) then Post(0, 0) else ClientAborted
    case Post(r, n) => AfterPost(c, r, n)
    // A failed completion is counted, and the loop goes on; so do the rounds.
    case Poll(r, n) => AfterRequest(c, r, n)
    case PostEnd => if HasRoom(s.cl) then PollEnd else ClientAborted
    case PollEnd => if CanPoll(s.cl) then ClientDone else ClientAborted
    case _ => s.cpc
  }

  function ClientStep(c: Config, s: State): State
    requires ClientCan(c, s)
  {
    s.(cl := ClientQueues(c, s), cpc := ClientNext(c, s),
       remote := if s.cpc.WaitInfo? && CanTake(s.cl)
                 then DecodeInfos(c.cOrder, Padded(s.cl.scratch, 16 * c.count), c.count) else s.remote,
       log := if s.cpc.Post? && HasRoom(s.cl) then s.log + [s.cpc.n] else s.log,
       cDigest := if s.cpc.PollEnd? && CanPoll(s.cl)
                  then Some(c.sha(HashInput(s.cl.mem, c.cAddr, c.length, |c.cAddr|))) else s.cDigest)
  }

  predicate ServerCan(c: Config, s: State) {
    match s.spc
    case PollCount => CanPoll(s.sv) || CanPollError(s.sv)
    case PollInfo => CanPoll(s.sv) || CanPollError(s.sv)
    case WaitSlice(_, _) => CanTake(s.sv) || CanTakeError(s.sv)
    case WaitEnd => CanTake(s.sv) || CanTakeError(s.sv)
    case SendInfo => |c.sAddr| == |c.sKey| == c.count
    case RecvSlice(_, n) => n < |c.sAddr|
    case ServerDone => false
    case ServerAborted => false
    case _ => true
  }

  function ServerQueues(c: Config, s: State): Endpoint
    requires ServerCan(c, s)
  {
    match s.spc
    case SendCount => PostSend(s.sv, Message(CountBytes(c)))
    case SendInfo => PostSend(s.sv, Message(InfoBytes(c)))
    case PollCount => if CanPoll(s.sv) then PollSend(s.sv) else PollError(s.sv)
    case PollInfo => if CanPoll(s.sv) then PollSend(s.sv) else PollError(s.sv)
    case RecvSlice(_, n) => PostRecv(s.sv, Into(c.sAddr[n], c.length))
    case RecvEnd => PostRecv(s.sv, Scratch(4))
    case WaitSlice(_, _) => if CanTake(s.sv) then Take(s.sv) else TakeError(s.sv)
    case WaitEnd => if CanTake(s.sv) then Take(s.sv) else TakeError(s.sv)
    case _ => s.sv
  }

  function ServerNext(c: Config, s: State): ServerPc
    requires ServerCan(c, s)
  {
    match s.spc
    case SendCount => if HasRoom(s.sv) then PollCount else ServerAborted
    case PollCount => if CanPoll(s.sv) then SendInfo else ServerAborted
    case SendInfo => if HasRoom(s.sv) then PollInfo else ServerAborted
    case PollInfo => if CanPoll(s.sv) then FirstServe(c) else ServerAborted
    case RecvSlice(r, n) => WaitSlice(r, n)
    case WaitSlice(r, n) => AfterSlice(c, r, n)
    case RecvEnd => WaitEnd
    case WaitEnd => if CanTake(s.sv) then ServerDone else ServerAborted
    case _ => s.spc
  }

  function ServerStep(c: Config, s: State): State
    requires ServerCan(c, s)
  {
    s.(sv := ServerQueues(c, s), spc := ServerNext(c, s),
       sDigest := if s.spc.WaitEnd? && CanTake(s.sv)
                  then Some(c.sha(HashInput(s.sv.mem, c.sAddr, c.length, |c.sAddr|))) else s.sDigest)
  }

  // ----- Posts that the library refuses -----

  predicate ClientPosts(c: Config, s: State) {
    match s.cpc
    case RecvCount => true
    case RecvInfo => true
    case Post(_, n) => n < |c.cAddr| && n < |s.remote|
    case PostEnd => true
    case _ => false
  }

  /** A data request that cannot be posted is counted, and the loop goes on as if it had been. */
  function ClientPostFails(c: Config, s: State): State {
    s.(cFail := true, cpc := if s.cpc.Post? then AfterPost(c, s.cpc.r, s.cpc.n) else ClientAborted)
  }

  predicate ServerPosts(c: Config, s: State) {
    match s.spc
    case SendCount => true
    case SendInfo => true
    case RecvSlice(_, _) => true
    case RecvEnd => true
    case _ => false
  }

  /** A data receive that cannot be posted is counted, and then waited for. */
  function ServerPostFails(c: Config, s: State): State {
    s.(sFail := true, spc := if s.spc.RecvSlice? then WaitSlice(s.spc.r, s.spc.n) else ServerAborted)
  }

  // ----- All steps -----

  /** The last four are failures: of the link or the hardware, which may strike either side at any
      time, or of a call that posts a request. All others belong to orderly operation. */
  datatype Step = ClientProgram | ServerProgram
                | ClientTransmit | ClientAccept | ClientLand | ClientAck | ClientRefuse | ClientFlush
                | ServerTransmit | ServerAccept | ServerLand | ServerAck | ServerRefuse | ServerFlush
                | ClientFault | ServerFault | ClientNoPost | ServerNoPost

  predicate IsFault(step: Step) {
    step == ClientFault || step == ServerFault || step == ClientNoPost || step == ServerNoPost
  }

  predicate Enabled(c: Config, s: State, step: Step) {
    match step
    case ClientProgram => ClientCan(c, s)
    case ServerProgram => ServerCan(c, s)
    case ClientTransmit => CanTransmit(s.cl)
    case ClientAccept => CanAccept(s.cl, s.sv)
    case ClientLand => CanLand(s.cl, s.sv)
    case ClientAck => CanAck(s.cl)
    case ClientRefuse => CanRefuse(s.cl, s.sv)
    case ClientFlush => CanFlush(s.cl)
    case ServerTransmit => CanTransmit(s.sv)
    case ServerAccept => CanAccept(s.sv, s.cl)
    case ServerLand => CanLand(s.sv, s.cl)
    case ServerAck => CanAck(s.sv)
    case ServerRefuse => CanRefuse(s.sv, s.cl)
    case ServerFlush => CanFlush(s.sv)
    case ClientFault => !s.cl.broken
    case ServerFault => !s.sv.broken
    case ClientNoPost => ClientPosts(c, s)
    case ServerNoPost => ServerPosts(c, s)
  }

  function Next(c: Config, s: State, step: Step): State
    requires Enabled(c, s, step)
  {
    match step
    case ClientProgram => ClientStep(c, s)
    case ServerProgram => ServerStep(c, s)
    case ClientTransmit => s.(cl := Transmit(s.cl))
    case ClientAccept => s.(cl := AcceptAtSender(s.cl, s.sv), sv := AcceptAtPeer(s.cl, s.sv))
    case ClientLand => s.(cl := LandAtSender(s.cl), sv := LandAtPeer(s.cl, s.sv))
    case ClientAck => s.(cl := Ack(s.cl))
    case ClientRefuse => s.(cl := Break(s.cl), sv := Break(s.sv))
    case ClientFlush => s.(cl := Flush(s.cl))
    case ServerTransmit => s.(sv := Transmit(s.sv))
    case ServerAccept => s.(sv := AcceptAtSender(s.sv, s.cl), cl := AcceptAtPeer(s.sv, s.cl))
    case ServerLand => s.(sv := LandAtSender(s.sv), cl := LandAtPeer(s.sv, s.cl))
    case ServerAck => s.(sv := Ack(s.sv))
    case ServerRefuse => s.(cl := Break(s.cl), sv := Break(s.sv))
    case ServerFlush => s.(sv := Flush(s.sv))
    case ClientFault => s.(cl := Break(s.cl))
    case ServerFault => s.(sv := Break(s.sv))
    case ClientNoPost => ClientPostFails(c, s)
    case ServerNoPost => ServerPostFails(c, s)
  }

  /** A run: states joined by enabled steps, from the start. */
  ghost predicate IsRun(c: Config, states: seq<State>, steps: seq<Step>) {
    && |states| == |steps| + 1
    && states[0] == Start(c)
    && (forall i :: 0 <= i < |steps| ==>
          Enabled(c, states[i], steps[i]) && states[i + 1] == Next(c, states[i], steps[i]))
  }

  predicate Final(s: State) { s.cpc == ClientDone && s.spc == ServerDone }

  predicate FaultFree(steps: seq<Step>) { forall i :: 0 <= i < |steps| ==> !IsFault(steps[i]) }

  /** Throughput mode with more requests in a round than the client's queue holds. */
  predicate TooDeep(c: Config) { c.mode == Throughput && c.count > c.cDepth }

  /** A count that the client, having the other byte order, misreads. */
  predicate Misread(c: Config) {
    c.verb != Send && c.cOrder != c.sOrder && Bswap(c.count, ADDR_BYTES) != c.count
  }

  /** When the run can succeed on these adapters. */
  predicate Workable(c: Config) { !TooDeep(c) && !Misread(c) }
}
