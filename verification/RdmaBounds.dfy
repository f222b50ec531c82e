/** Every run is bounded, whatever the configuration and whatever fails, and a failure of both
    queue pairs lets both programs run to their end. */
module RdmaBounds {
  import opened Nic
  import opened RdmaRun
  import opened RdmaInvariant
  import opened RdmaSteps

  // ----- How far each program has got -----

  function ClientRank(c: Config, pc: ClientPc): nat {
    match pc
    case RecvCount => 0
    case WaitCount => 1
    case RecvInfo => 2
    case WaitInfo => 3
    case Post(r, n) => 4 + 2 * Index(c, r, n)
    case Poll(r, n) => 5 + 2 * Index(c, r, n)
    case PostEnd => 4 + 2 * Total(c)
    case PollEnd => 5 + 2 * Total(c)
    case _ => 6 + 2 * Total(c)
  }

  function ServerRank(c: Config, pc: ServerPc): nat {
    match pc
    case SendCount => 0
    case PollCount => 1
    case SendInfo => 2
    case PollInfo => 3
    case RecvSlice(r, n) => 4 + 2 * Index(c, r, n)
    case WaitSlice(r, n) => 5 + 2 * Index(c, r, n)
    case RecvEnd => 4 + 2 * Total(c)
    case WaitEnd => 5 + 2 * Total(c)
    case _ => 6 + 2 * Total(c)
  }

  predicate ClientInRange(c: Config, pc: ClientPc) {
    pc.Post? || pc.Poll? ==> pc.r < c.repeat && pc.n < c.count
  }

  predicate ServerInRange(c: Config, pc: ServerPc) {
    pc.RecvSlice? || pc.WaitSlice? ==> pc.r < c.repeat && pc.n < c.count
  }

  predicate ClientReceives(pc: ClientPc) { pc.WaitCount? || pc.WaitInfo? }

  predicate ServerReceives(pc: ServerPc) { pc.WaitSlice? || pc.WaitEnd? }

  /** A program that waits for a completion has a request, or a receive, that can complete, unless
      the post was refused. */
  ghost predicate ClientTracked(c: Config, x: Endpoint, pc: ClientPc, fail: bool) {
    && ClientInRange(c, pc) && |x.posted| <= ClientRank(c, pc) && 0 < x.depth == c.cDepth && Occupied(x) <= x.depth
    && (ClientWaits(pc) && !fail ==> Occupied(x) > 0)
    && (ClientReceives(pc) ==> x.taken + x.lost < |x.rq|) && (x.lost > 0 ==> pc.ClientAborted?)
  }

  ghost predicate ServerTracked(c: Config, x: Endpoint, pc: ServerPc, fail: bool) {
    && ServerInRange(c, pc) && |x.posted| <= ServerRank(c, pc) && 0 < x.depth == c.sDepth && Occupied(x) <= x.depth
    && (ServerWaits(pc) ==> Occupied(x) > 0)
    && (ServerReceives(pc) && !fail ==> x.taken + x.lost < |x.rq|)
    && (forall i :: 0 <= i < |x.posted| ==> x.posted[i].signaled)
  }

  ghost predicate Tracked(c: Config, s: State) {
    && AdapterOk(s.cl, s.sv) && ClientTracked(c, s.cl, s.cpc, s.cFail) && ServerTracked(c, s.sv, s.spc, s.sFail)
    && |s.remote| == c.count
  }

  lemma StartTracked(c: Config)
    requires WellFormed(c)
    ensures Tracked(c, Start(c))
  {}

  lemma ClientRankGrows(c: Config, s: State)
    requires c.count > 0 && c.repeat > 0 && ClientInRange(c, s.cpc) && ClientCan(c, s)
    ensures ClientInRange(c, ClientStep(c, s).cpc)
    ensures ClientRank(c, ClientStep(c, s).cpc) > ClientRank(c, s.cpc)
  {
    if s.cpc.Post? || s.cpc.Poll? { IndexFacts(c, s.cpc.r, s.cpc.n); }
  }

  lemma ServerRankGrows(c: Config, s: State)
    requires c.count > 0 && c.repeat > 0 && ServerInRange(c, s.spc) && ServerCan(c, s)
    ensures ServerInRange(c, ServerStep(c, s).spc)
    ensures ServerRank(c, ServerStep(c, s).spc) > ServerRank(c, s.spc)
  {
    if s.spc.RecvSlice? || s.spc.WaitSlice? { IndexFacts(c, s.spc.r, s.spc.n); }
  }

  lemma {:induction false} SignaledInOrder(posted: seq<SendWr>, k: nat, i: nat)
    requires k <= |posted| && 0 < i < |SignaledIds(posted, k)|
    ensures SignaledIds(posted, k)[i - 1] < SignaledIds(posted, k)[i]
  {
    if i < |SignaledIds(posted, k - 1)| { SignaledInOrder(posted, k - 1, i); }
  }

  /** No queue is ever overdrawn, and a polled completion, good or bad, only frees slots. */
  ghost predicate NotOverdrawn(x: Endpoint) {
    && Occupied(x) >= 0 && x.taken + x.lost <= |x.rq|
    && (CanPoll(x) ==> 0 <= Occupied(PollSend(x)) <= Occupied(x))
    && (CanPollError(x) ==> 0 <= Occupied(PollError(x)) <= Occupied(x))
  }

  lemma NeverOverdrawn(x: Endpoint)
    requires CursorsOk(x) && CompletionsOk(x)
    ensures NotOverdrawn(x)
  {
    if CanPoll(x) && x.polled > 0 { SignaledInOrder(x.posted, x.acked, x.polled); }
  }

  lemma ClientTrackedStep(c: Config, s: State)
    requires c.count > 0 && c.repeat > 0 && ClientTracked(c, s.cl, s.cpc, s.cFail) && ClientCan(c, s)
    requires NotOverdrawn(s.cl)
    ensures ClientTracked(c, ClientStep(c, s).cl, ClientStep(c, s).cpc, s.cFail)
  {
    ClientRankGrows(c, s);
  }

  lemma RemoteTracked(c: Config, s: State)
    requires ClientCan(c, s) && |s.remote| == c.count
    ensures |ClientStep(c, s).remote| == c.count
  {}

  lemma ServerTrackedStep(c: Config, s: State)
    requires c.count > 0 && c.repeat > 0 && ServerTracked(c, s.sv, s.spc, s.sFail) && ServerCan(c, s)
    requires NotOverdrawn(s.sv)
    ensures ServerTracked(c, ServerStep(c, s).sv, ServerStep(c, s).spc, s.sFail)
  {
    ServerRankGrows(c, s);
  }

  /** The adapter leaves alone what the programs count. */
  ghost predicate SameBooks(x: Endpoint, x': Endpoint) {
    && x'.posted == x.posted && x'.retired == x.retired && x'.depth == x.depth
    && x'.rq == x.rq && x'.taken == x.taken && x'.lost == x.lost
  }

  lemma BooksFrame(c: Config, s: State, s': State)
    requires SameBooks(s.cl, s'.cl) && SameBooks(s.sv, s'.sv) && s' == s.(cl := s'.cl, sv := s'.sv)
    ensures ClientTracked(c, s.cl, s.cpc, s.cFail) ==> ClientTracked(c, s'.cl, s'.cpc, s'.cFail)
    ensures ServerTracked(c, s.sv, s.spc, s.sFail) ==> ServerTracked(c, s'.sv, s'.spc, s'.sFail)
  {}

  /** What the adapter of `x` does to the two endpoints. */
  lemma AdapterOps(x: Endpoint, y: Endpoint)
    ensures CanTransmit(x) ==> SameBooks(x, Transmit(x))
    ensures CanAccept(x, y) ==> SameBooks(x, AcceptAtSender(x, y)) && SameBooks(y, AcceptAtPeer(x, y))
    ensures CanLand(x, y) ==> SameBooks(x, LandAtSender(x)) && SameBooks(y, LandAtPeer(x, y))
    ensures CanAck(x) ==> SameBooks(x, Ack(x))
    ensures SameBooks(x, Break(x)) && SameBooks(x, Flush(x)) && SameBooks(x, x)
  {}

  lemma AdapterStepFrame(c: Config, s: State, step: Step)
    requires Enabled(c, s, step) && step !in {ClientProgram, ServerProgram, ClientNoPost, ServerNoPost}
    ensures var s' := Next(c, s, step);
            SameBooks(s.cl, s'.cl) && SameBooks(s.sv, s'.sv) && s' == s.(cl := s'.cl, sv := s'.sv)
  {
    AdapterOps(s.cl, s.sv);
    AdapterOps(s.sv, s.cl);
  }

  /** What the adapters guarantee holds for any two programs. */
  lemma ClientAdapterKeeps(c: Config, s: State, step: Step)
    requires AdapterOk(s.cl, s.sv) && Enabled(c, s, step)
    requires step in {ClientTransmit, ClientAccept, ClientLand, ClientAck, ClientRefuse, ClientFlush, ClientFault}
    ensures AdapterOk(Next(c, s, step).cl, Next(c, s, step).sv)
  {
    match step
    case ClientTransmit => TransmitKeeps(s.cl, s.sv);
    case ClientAccept => AcceptKeeps(s.cl, s.sv);
    case ClientLand => LandKeeps(s.cl, s.sv);
    case ClientAck => AckKeeps(s.cl, s.sv);
    case ClientRefuse => BreakKeeps(s.cl, s.sv);
    case ClientFlush => FlushKeeps(s.cl, s.sv);
    case ClientFault => BreakKeeps(s.cl, s.sv);
    case _ =>
  }

  lemma ServerAdapterKeeps(c: Config, s: State, step: Step)
    requires AdapterOk(s.sv, s.cl) && Enabled(c, s, step)
    requires step in {ServerTransmit, ServerAccept, ServerLand, ServerAck, ServerRefuse, ServerFlush, ServerFault}
    ensures AdapterOk(Next(c, s, step).sv, Next(c, s, step).cl)
  {
    match step
    case ServerTransmit => TransmitKeeps(s.sv, s.cl);
    case ServerAccept => AcceptKeeps(s.sv, s.cl);
    case ServerLand => LandKeeps(s.sv, s.cl);
    case ServerAck => AckKeeps(s.sv, s.cl);
    case ServerRefuse => BreakKeeps(s.sv, s.cl);
    case ServerFlush => FlushKeeps(s.sv, s.cl);
    case ServerFault => BreakKeeps(s.sv, s.cl);
    case _ =>
  }

  lemma AnyStepAdapter(c: Config, s: State, step: Step)
    requires AdapterOk(s.cl, s.sv) && Enabled(c, s, step)
    ensures AdapterOk(Next(c, s, step).cl, Next(c, s, step).sv)
  {
    var s' := Next(c, s, step);
    AdapterOkSymmetric(s.cl, s.sv);
    if step == ClientProgram {
      ClientStepFrame(c, s);
      ClientStepAdapter(c, s);
    } else if step == ServerProgram {
      ServerStepFrame(c, s);
      ServerStepAdapter(c, s);
      AdapterOkSymmetric(s'.sv, s'.cl);
    } else if step in {ServerTransmit, ServerAccept, ServerLand, ServerAck, ServerRefuse, ServerFlush, ServerFault} {
      ServerAdapterKeeps(c, s, step);
      AdapterOkSymmetric(s'.sv, s'.cl);
    } else if step != ClientNoPost && step != ServerNoPost {
      ClientAdapterKeeps(c, s, step);
    }
  }

  lemma ProgramTracked(c: Config, s: State)
    requires c.count > 0 && c.repeat > 0 && Tracked(c, s)
    ensures ClientCan(c, s) ==> Tracked(c, ClientStep(c, s))
    ensures ServerCan(c, s) ==> Tracked(c, ServerStep(c, s))
  {
    NeverOverdrawn(s.cl);
    NeverOverdrawn(s.sv);
    if ClientCan(c, s) {
      AnyStepAdapter(c, s, ClientProgram);
      ClientTrackedStep(c, s);
      RemoteTracked(c, s);
    }
    if ServerCan(c, s) {
      AnyStepAdapter(c, s, ServerProgram);
      ServerTrackedStep(c, s);
    }
  }

  lemma AdapterTracked(c: Config, s: State, step: Step)
    requires Tracked(c, s) && Enabled(c, s, step)
    requires step !in {ClientProgram, ServerProgram, ClientNoPost, ServerNoPost}
    ensures Tracked(c, Next(c, s, step))
  {
    AnyStepAdapter(c, s, step);
    AdapterStepFrame(c, s, step);
    BooksFrame(c, s, Next(c, s, step));
  }

  lemma TrackedStep(c: Config, s: State, step: Step)
    requires c.count > 0 && c.repeat > 0 && Tracked(c, s) && Enabled(c, s, step)
    ensures Tracked(c, Next(c, s, step))
  {
    if step == ClientProgram || step == ServerProgram { ProgramTracked(c, s); }
    else if step == ClientNoPost || step == ServerNoPost { NoPostTracked(c, s); }
    else { AdapterTracked(c, s, step); }
  }

  // ----- Every run is bounded -----

  function Events(x: Endpoint): nat {
    |x.wire| + |x.reply| + x.placed + x.acked + |x.errs| + if x.broken then 1 else 0
  }

  function Progress(c: Config, s: State): nat {
    ClientRank(c, s.cpc) + ServerRank(c, s.spc) + Events(s.cl) + Events(s.sv)
  }

  lemma EventsGrow(x: Endpoint, y: Endpoint)
    requires CursorsOk(x)
    ensures CanTransmit(x) ==> Events(Transmit(x)) > Events(x)
    ensures CanAccept(x, y) ==> Events(AcceptAtSender(x, y)) > Events(x) && Events(AcceptAtPeer(x, y)) == Events(y)
    ensures CanLand(x, y) ==> Events(LandAtSender(x)) > Events(x) && Events(LandAtPeer(x, y)) == Events(y)
    ensures CanAck(x) ==> Events(Ack(x)) > Events(x)
    ensures CanFlush(x) ==> Events(Flush(x)) > Events(x)
    ensures Events(Break(x)) >= Events(x) && (!x.broken ==> Events(Break(x)) > Events(x))
  {}

  /** Program steps are no events of an adapter. */
  lemma QueueEvents(x: Endpoint, wr: SendWr, sink: Sink)
    ensures Events(PostSend(x, wr)) == Events(PostRecv(x, sink)) == Events(Take(x)) == Events(TakeError(x)) == Events(x)
    ensures CanPoll(x) ==> Events(PollSend(x)) == Events(x)
    ensures CanPollError(x) ==> Events(PollError(x)) == Events(x)
  {}

  lemma ClientHasNoEvents(c: Config, s: State)
    requires ClientCan(c, s)
    ensures Events(ClientQueues(c, s)) == Events(s.cl)
  {
    QueueEvents(s.cl, Message(END), Scratch(4));
  }

  lemma ServerHasNoEvents(c: Config, s: State)
    requires ServerCan(c, s)
    ensures Events(ServerQueues(c, s)) == Events(s.sv)
  {
    QueueEvents(s.sv, Message(END), Scratch(4));
  }

  lemma NoPostGrows(c: Config, s: State)
    requires c.count > 0 && c.repeat > 0
    ensures ClientPosts(c, s) && ClientInRange(c, s.cpc) ==>
              && ClientInRange(c, ClientPostFails(c, s).cpc)
              && ClientRank(c, ClientPostFails(c, s).cpc) > ClientRank(c, s.cpc)
    ensures ServerPosts(c, s) && ServerInRange(c, s.spc) ==>
              && ServerInRange(c, ServerPostFails(c, s).spc)
              && ServerRank(c, ServerPostFails(c, s).spc) > ServerRank(c, s.spc)
  {
    if s.cpc.Post? && s.cpc.r < c.repeat && s.cpc.n < c.count { IndexFacts(c, s.cpc.r, s.cpc.n); }
    if s.spc.RecvSlice? && s.spc.r < c.repeat && s.spc.n < c.count { IndexFacts(c, s.spc.r, s.spc.n); }
  }

  lemma NoPostTracked(c: Config, s: State)
    requires c.count > 0 && c.repeat > 0 && Tracked(c, s)
    ensures ClientPosts(c, s) ==> Tracked(c, ClientPostFails(c, s))
    ensures ServerPosts(c, s) ==> Tracked(c, ServerPostFails(c, s))
  {
    NoPostGrows(c, s);
  }

  lemma ProgramAdvances(c: Config, s: State)
    requires c.count > 0 && c.repeat > 0 && ClientInRange(c, s.cpc) && ServerInRange(c, s.spc)
    ensures ClientCan(c, s) ==> Progress(c, ClientStep(c, s)) > Progress(c, s)
    ensures ServerCan(c, s) ==> Progress(c, ServerStep(c, s)) > Progress(c, s)
  {
    if ClientCan(c, s) {
      ClientRankGrows(c, s);
      ClientHasNoEvents(c, s);
    }
    if ServerCan(c, s) {
      ServerRankGrows(c, s);
      ServerHasNoEvents(c, s);
    }
  }

  lemma AdapterAdvances(c: Config, s: State, step: Step)
    requires CursorsOk(s.cl) && CursorsOk(s.sv) && Enabled(c, s, step)
    requires step !in {ClientProgram, ServerProgram, ClientNoPost, ServerNoPost}
    ensures var s' := Next(c, s, step);
            s' == s.(cl := s'.cl, sv := s'.sv) && Events(s'.cl) + Events(s'.sv) > Events(s.cl) + Events(s.sv)
  {
    EventsGrow(s.cl, s.sv);
    EventsGrow(s.sv, s.cl);
  }

  /** Every step moves a program forward or is one more event of an adapter. */
  lemma StepAdvances(c: Config, s: State, step: Step)
    requires c.count > 0 && c.repeat > 0 && Tracked(c, s) && Enabled(c, s, step)
    ensures Progress(c, Next(c, s, step)) > Progress(c, s)
  {
    if step == ClientProgram || step == ServerProgram { ProgramAdvances(c, s); }
    else if step == ClientNoPost || step == ServerNoPost { NoPostGrows(c, s); }
    else { AdapterAdvances(c, s, step); }
  }

  function StepBound(c: Config): nat { 20 * Total(c) + 62 }

  lemma ClientRankBounded(c: Config, pc: ClientPc)
    requires ClientInRange(c, pc)
    ensures ClientRank(c, pc) <= 2 * Total(c) + 6
  {
    if pc.Post? || pc.Poll? { IndexFacts(c, pc.r, pc.n); }
  }

  lemma ServerRankBounded(c: Config, pc: ServerPc)
    requires ServerInRange(c, pc)
    ensures ServerRank(c, pc) <= 2 * Total(c) + 6
  {
    if pc.RecvSlice? || pc.WaitSlice? { IndexFacts(c, pc.r, pc.n); }
  }

  lemma EventsBounded(x: Endpoint)
    requires CursorsOk(x) && CompletionsOk(x)
    ensures Events(x) <= 4 * |x.posted| + 1
  {}

  lemma ProgressBounded(c: Config, s: State)
    requires Tracked(c, s)
    ensures Progress(c, s) <= StepBound(c)
  {
    ClientRankBounded(c, s.cpc);
    ServerRankBounded(c, s.spc);
    EventsBounded(s.cl);
    EventsBounded(s.sv);
  }

  // ----- After a failure -----

  /** No step of a program or an adapter is possible. */
  ghost predicate Quiet(c: Config, s: State) {
    forall step :: Enabled(c, s, step) ==> IsFault(step)
  }

  /** A broken queue pair owes a completion for each request that holds a slot, unless the newest
      ones were unsignaled and had already succeeded. */
  lemma BrokenCompletes(x: Endpoint)
    requires CursorsOk(x) && CompletionsOk(x) && x.broken && Occupied(x) > 0
    requires x.errPolled > 0 || x.acked < |x.posted| || x.posted[|x.posted| - 1].signaled
    ensures CanPoll(x) || CanPollError(x) || CanFlush(x)
  {}

  lemma BrokenServerEnds(c: Config, s: State)
    requires Lists(c) && Tracked(c, s) && Quiet(c, s) && s.sv.broken && !s.sFail
    ensures s.spc.ServerDone? || s.spc.ServerAborted?
  {
    assert !Enabled(c, s, ServerProgram) && !Enabled(c, s, ServerFlush);
    if ServerWaits(s.spc) { BrokenCompletes(s.sv); }
  }

  lemma BrokenClientEnds(c: Config, s: State)
    requires Lists(c) && Tracked(c, s) && Quiet(c, s) && s.cl.broken && !s.cFail
    requires ClientWaits(s.cpc) && s.cl.errPolled == 0 ==>
               s.cl.acked < |s.cl.posted| || s.cl.posted[|s.cl.posted| - 1].signaled
    ensures s.cpc.ClientDone? || s.cpc.ClientAborted?
  {
    assert !Enabled(c, s, ClientProgram) && !Enabled(c, s, ClientFlush);
    if ClientWaits(s.cpc) { BrokenCompletes(s.cl); }
  }
}
