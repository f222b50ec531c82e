/** Every step of either program keeps the invariant, with or without errors. */
module RdmaSteps {
  import opened Params
  import opened Exchange
  import opened Nic
  import opened RdmaRun
  import opened RdmaInvariant
  import opened RdmaClient

  // ----- The server program -----

  lemma ServerMessageOk(c: Config, x: Endpoint, pc: ServerPc)
    requires Sized(c) && ServerOk(c, x, pc)
    ensures pc.SendCount? ==> HasRoom(x) && ServerOk(c, PostSend(x, Message(CountBytes(c))), PollCount)
    ensures pc.SendInfo? ==> HasRoom(x) && ServerOk(c, PostSend(x, Message(InfoBytes(c))), PollInfo)
  {
    PostedSignals(x.posted, Message(CountBytes(c)));
    PostedSignals(x.posted, Message(InfoBytes(c)));
  }

  lemma ServerPolledOk(c: Config, x: Endpoint, pc: ServerPc)
    requires Sized(c) && ServerOk(c, x, pc) && ServerWaits(pc) && CursorsOk(x) && CompletionsOk(x) && CanPoll(x)
    ensures ServerOk(c, PollSend(x), if pc.PollCount? then SendInfo else FirstServe(c))
  {
    ServerPollOk(c, x, pc);
  }

  lemma ServerPollOk(c: Config, x: Endpoint, pc: ServerPc)
    requires Sized(c) && ServerOk(c, x, pc) && ServerWaits(pc) && CursorsOk(x) && CompletionsOk(x) && CanPoll(x)
    ensures PollSend(x).retired == |x.posted|
  {
    var last := |x.posted| - 1;
    assert x.posted[last] == ServerWr(c, last);
    LastCompletionDrains(x);
  }

  lemma ServerSliceOk(c: Config, x: Endpoint, r: nat, n: nat)
    requires Sized(c)
    ensures ServerOk(c, x, RecvSlice(r, n)) ==>
              ServerOk(c, PostRecv(x, Into(c.sAddr[n], c.length)), WaitSlice(r, n))
    ensures ServerOk(c, x, WaitSlice(r, n)) ==> ServerOk(c, Take(x), AfterSlice(c, r, n))
  {
    if r < c.repeat && n < c.count { IndexFacts(c, r, n); }
  }

  lemma ServerEndOk(c: Config, x: Endpoint)
    requires Sized(c)
    ensures ServerOk(c, x, RecvEnd) ==> ServerOk(c, PostRecv(x, Scratch(4)), WaitEnd)
    ensures ServerOk(c, x, WaitEnd) ==> ServerOk(c, Take(x), ServerDone)
  {}

  // ----- What any program step does to the adapters -----

  lemma ClientStepAdapter(c: Config, s: State)
    requires AdapterOk(s.cl, s.sv) && ClientCan(c, s)
    ensures AdapterOk(ClientStep(c, s).cl, s.sv)
  {
    match s.cpc {
      case Post(_, n) => PostKeeps(s.cl, s.sv, DataWr(c, s.remote, n));
      case PostEnd => PostKeeps(s.cl, s.sv, Message(END));
      case RecvCount => RecvKeeps(s.cl, s.sv, Scratch(ADDR_BYTES));
      case RecvInfo => RecvKeeps(s.cl, s.sv, Scratch(16 * c.count));
      case WaitCount => TakeKeeps(s.cl, s.sv);
      case WaitInfo => TakeKeeps(s.cl, s.sv);
      case Poll(_, _) => if CanPoll(s.cl) { PollKeeps(s.cl, s.sv); } else { PollErrorKeeps(s.cl, s.sv); }
      case PollEnd => if CanPoll(s.cl) { PollKeeps(s.cl, s.sv); } else { PollErrorKeeps(s.cl, s.sv); }
      case _ =>
    }
  }

  lemma ClientStepFrame(c: Config, s: State)
    requires ClientCan(c, s)
    ensures var s' := ClientStep(c, s);
            && s' == s.(cl := s'.cl, cpc := s'.cpc, remote := s'.remote, cDigest := s'.cDigest, log := s'.log)
            && (s'.log == s.log || (s.cpc.Post? && s'.log == s.log + [s.cpc.n]))
  {}

  lemma ClientStepContents(c: Config, s: State)
    requires ClientCan(c, s)
    ensures SameContents(s.cl, ClientStep(c, s).cl)
  {
    QueueOps(s.cl, Message(END), Scratch(ADDR_BYTES));
    if s.cpc.RecvInfo? { QueueOps(s.cl, Message(END), Scratch(16 * c.count)); }
    if s.cpc.Post? { QueueOps(s.cl, DataWr(c, s.remote, s.cpc.n), Scratch(4)); }
  }

  /** What a program does to its queues leaves everything else alone. */
  lemma QueueOps(x: Endpoint, wr: SendWr, sink: Sink)
    ensures SameContents(x, PostSend(x, wr)) && SameContents(x, PostRecv(x, sink))
    ensures SameContents(x, Take(x)) && SameContents(x, TakeError(x))
    ensures CanPoll(x) ==> SameContents(x, PollSend(x))
    ensures CanPollError(x) ==> SameContents(x, PollError(x))
  {}

  lemma ServerStepAdapter(c: Config, s: State)
    requires AdapterOk(s.sv, s.cl) && ServerCan(c, s)
    ensures AdapterOk(ServerStep(c, s).sv, s.cl)
  {
    match s.spc {
      case SendCount => PostKeeps(s.sv, s.cl, Message(CountBytes(c)));
      case SendInfo => PostKeeps(s.sv, s.cl, Message(InfoBytes(c)));
      case PollCount => if CanPoll(s.sv) { PollKeeps(s.sv, s.cl); } else { PollErrorKeeps(s.sv, s.cl); }
      case PollInfo => if CanPoll(s.sv) { PollKeeps(s.sv, s.cl); } else { PollErrorKeeps(s.sv, s.cl); }
      case RecvSlice(_, n) => RecvKeeps(s.sv, s.cl, Into(c.sAddr[n], c.length));
      case RecvEnd => RecvKeeps(s.sv, s.cl, Scratch(4));
      case WaitSlice(_, _) => TakeKeeps(s.sv, s.cl);
      case WaitEnd => TakeKeeps(s.sv, s.cl);
      case _ =>
    }
  }

  lemma ServerStepFrame(c: Config, s: State)
    requires ServerCan(c, s)
    ensures var s' := ServerStep(c, s); s' == s.(sv := s'.sv, spc := s'.spc, sDigest := s'.sDigest)
  {}

  lemma ServerStepContents(c: Config, s: State)
    requires ServerCan(c, s)
    ensures SameContents(s.sv, ServerStep(c, s).sv)
  {
    QueueOps(s.sv, Message(CountBytes(c)), Scratch(4));
    if s.spc.SendInfo? { QueueOps(s.sv, Message(InfoBytes(c)), Scratch(4)); }
    if s.spc.RecvSlice? { QueueOps(s.sv, Message(CountBytes(c)), Into(c.sAddr[s.spc.n], c.length)); }
  }

  // ----- The client program -----

  /** As long as "End" has not been posted the log may grow: nothing that has left the host depends
      on what is appended. */
  lemma LogFrame(c: Config, log: seq<nat>, n: nat, x: Endpoint, y: Endpoint)
    requires Lists(c) && InSlots(c, log) && n < c.count && CursorsOk(x) && |x.wire| <= |log|
    requires WiresOk(c, log, x, y) && MemoryOk(c, log, x, y)
    ensures InSlots(c, log + [n]) && WiresOk(c, log + [n], x, y) && MemoryOk(c, log + [n], x, y)
  {
    var log' := log + [n];
    assert Upto(log', x.acked) == Upto(log, x.acked) && Upto(log', x.placed) == Upto(log, x.placed);
    assert Straight(c, log') ==> Straight(c, log) by {
      assert forall i :: 0 <= i < |log| ==> log'[i] == log[i];
    }
  }

  /** When "End" has been received it was posted last, and every data transfer has landed: a message
      is accepted only after everything before it is visible. With the Send verb that takes a
      complete log. */
  lemma EndMeansLanded(c: Config, log: seq<nat>, x: Endpoint, y: Endpoint)
    requires Shaped(c) && CursorsOk(x) && DeliveryOk(x, y) && y.filled > DataRecvs(c)
    requires Listed(c, log, x.posted) && |log| <= Total(c)
    ensures x.placed == |x.reply| == |x.posted| == |log| + 1 && (c.verb == Send ==> |log| == Total(c))
  {
    ClientSends(c, log, x.posted, |x.reply|);
    assert x.posted[|log|] == WrAt(c, log, |log|);
  }

  lemma AttemptsBounded(c: Config, pc: ClientPc)
    requires InLoops(c, pc)
    ensures Attempts(c, pc) <= Total(c)
  {
    if pc.Post? || pc.Poll? { IndexFacts(c, pc.r, pc.n); }
  }

  lemma DoneHasEnd(c: Config, x: Endpoint, y: Endpoint, cpc: ClientPc, spc: ServerPc, log: seq<nat>, sFail: bool)
    requires Shaped(c) && CursorsOk(x) && CursorsOk(y) && DeliveryOk(x, y)
    requires InLoops(c, cpc) && LogOk(c, log, x.posted, cpc) && ServerSide(c, y, spc, sFail) && spc == ServerDone
    ensures y.filled > DataRecvs(c)
    ensures x.placed == |x.reply| == |x.posted| == |log| + 1 && (c.verb == Send ==> |log| == Total(c))
  {
    AttemptsBounded(c, cpc);
    EndMeansLanded(c, log, x, y);
  }

  lemma ClientHash(c: Config, log: seq<nat>, x: Endpoint, y: Endpoint)
    requires Lists(c) && MemoryOk(c, log, x, y) && x.acked >= |log|
    ensures HashInput(x.mem, c.cAddr, c.length, c.count) == ClientInput(c, log)
  {
    assert Upto(log, x.acked) == log;
    if c.verb == Read { MixedHash(c.cAddr, x.mem, c.sAddr, c.sMem, c.cMem, c.length, log); }
  }

  lemma ServerHash(c: Config, log: seq<nat>, x: Endpoint, y: Endpoint)
    requires Lists(c) && MemoryOk(c, log, x, y) && x.placed >= |log|
    requires c.verb == Send ==> Straight(c, log) && |log| == Total(c)
    ensures HashInput(y.mem, c.sAddr, c.length, c.count) == ServerInput(c, log)
  {
    assert Upto(log, x.placed) == log;
    if c.verb != Read { MixedHash(c.sAddr, y.mem, c.cAddr, c.cMem, c.sMem, c.length, log); }
  }

  lemma ClientPartKeeps(c: Config, s: State)
    requires WellFormed(c) && !Misread(c) && Inv(c, s) && ClientCan(c, s)
    ensures ClientPart(c, ClientStep(c, s))
  {
    if s.cpc.Post? { ClientPostKeeps(c, s); }
    else if s.cpc.PostEnd? { ClientPostEndKeeps(c, s); }
    else if ClientWaits(s.cpc) {
      if !CanPoll(s.cl) { ClientErrorKeeps(c, s); }
      else if s.cpc.Poll? { ClientPollKeeps(c, s); }
      else { ClientLast(c, s); }
    } else if s.cpc.RecvCount? || s.cpc.RecvInfo? || CanTake(s.cl) {
      ClientExchangeKeeps(c, s);
    } else {
      ClientErrorKeeps(c, s);
    }
  }

  lemma ClientLast(c: Config, s: State)
    requires WellFormed(c) && Inv(c, s) && s.cpc.PollEnd? && CanPoll(s.cl)
    ensures ClientPart(c, ClientStep(c, s))
  {
    ClientDrained(c, s.cl, s.cpc);
    ClientHash(c, s.log, s.cl, s.sv);
    ClientPollEndKeeps(c, s);
  }

  /** While a request can still be posted the server is not done. */
  lemma PostingMeansNotDone(c: Config, s: State)
    requires WellFormed(c) && Inv(c, s) && s.cpc.Post?
    ensures s.spc != ServerDone && |s.cl.wire| <= |s.log|
  {
    if s.spc == ServerDone { DoneHasEnd(c, s.cl, s.sv, s.cpc, s.spc, s.log, s.sFail); }
  }

  lemma ClientContents(c: Config, s: State)
    requires WellFormed(c) && Inv(c, s) && ClientCan(c, s)
    ensures var s' := ClientStep(c, s);
            InSlots(c, s'.log) && WiresOk(c, s'.log, s'.cl, s'.sv) && MemoryOk(c, s'.log, s'.cl, s'.sv)
  {
    var s' := ClientStep(c, s);
    ClientStepFrame(c, s);
    ClientStepContents(c, s);
    if s'.log != s.log {
      PostingMeansNotDone(c, s);
      LogFrame(c, s.log, s.cpc.n, s.cl, s.sv);
    }
    ContentsFrame(c, s'.log, s.cl, s.sv, s'.cl, s'.sv);
  }

  lemma ClientKeeps(c: Config, s: State)
    requires WellFormed(c) && !Misread(c) && Inv(c, s) && ClientCan(c, s)
    ensures Inv(c, ClientStep(c, s))
  {
    ClientPartKeeps(c, s);
    ClientStepAdapter(c, s);
    ClientStepFrame(c, s);
    ClientContents(c, s);
    if s.cpc.Post? { PostingMeansNotDone(c, s); }
  }

  lemma ClientNoPostInv(c: Config, s: State)
    requires WellFormed(c) && Inv(c, s) && ClientPosts(c, s)
    ensures Inv(c, ClientPostFails(c, s))
  {
    ClientNoPostKeeps(c, s);
  }

  // ----- The server's part -----

  ghost predicate ServerPart(c: Config, s: State)
    requires Lists(c)
  {
    && ServerSide(c, s.sv, s.spc, s.sFail)
    && s.sDigest == if s.spc == ServerDone then Some(c.sha(ServerInput(c, s.log))) else None
  }

  lemma ServerMessageKeeps(c: Config, s: State)
    requires Sized(c) && ServerPart(c, s) && ServerCan(c, s) && !SawError(s.sv) && !s.sFail
    requires s.spc.SendCount? || s.spc.SendInfo?
    ensures ServerPart(c, ServerStep(c, s))
  {
    ServerMessageOk(c, s.sv, s.spc);
  }

  lemma ServerPolledKeeps(c: Config, s: State)
    requires Sized(c) && ServerPart(c, s) && ServerCan(c, s) && !SawError(s.sv) && !s.sFail
    requires ServerWaits(s.spc) && CanPoll(s.sv)
    requires CursorsOk(s.sv) && CompletionsOk(s.sv)
    ensures ServerPart(c, ServerStep(c, s))
  {
    ServerPolledOk(c, s.sv, s.spc);
  }

  lemma ServerSliceKeeps(c: Config, s: State)
    requires Sized(c) && ServerPart(c, s) && ServerCan(c, s) && !SawError(s.sv) && !s.sFail
    requires s.spc.RecvSlice? || (s.spc.WaitSlice? && CanTake(s.sv))
    ensures ServerPart(c, ServerStep(c, s))
  {
    ServerSliceOk(c, s.sv, s.spc.r, s.spc.n);
  }

  lemma ServerRecvEndKeeps(c: Config, s: State)
    requires Sized(c) && ServerPart(c, s) && ServerCan(c, s) && !SawError(s.sv) && !s.sFail && s.spc.RecvEnd?
    ensures ServerPart(c, ServerStep(c, s))
  {
    ServerEndOk(c, s.sv);
  }

  lemma ServerEndKeeps(c: Config, s: State)
    requires Sized(c) && ServerPart(c, s) && ServerCan(c, s) && !SawError(s.sv) && !s.sFail
    requires s.spc.WaitEnd? && CanTake(s.sv)
    requires HashInput(s.sv.mem, c.sAddr, c.length, c.count) == ServerInput(c, s.log)
    ensures ServerPart(c, ServerStep(c, s))
  {
    ServerEndOk(c, s.sv);
  }

  lemma ServerErrorOk(c: Config, x: Endpoint, pc: ServerPc, pc': ServerPc, fail: bool)
    requires Lists(c) && CursorsOk(x) && CompletionsOk(x) && ServerSide(c, x, pc, fail)
    requires !ServerExchanging(pc') && pc' != ServerDone
    ensures CanPollError(x) && ServerExchanging(pc) ==> SawError(PollError(x)) && ServerDoomed(c, PollError(x), pc')
    ensures CanTakeError(x) ==> SawError(TakeError(x)) && ServerDoomed(c, TakeError(x), pc')
  {}

  lemma ServerErrorKeeps(c: Config, s: State)
    requires Lists(c) && ServerPart(c, s) && ServerCan(c, s) && CursorsOk(s.sv) && CompletionsOk(s.sv)
    requires if ServerWaits(s.spc) then !CanPoll(s.sv)
             else (s.spc.WaitSlice? || s.spc.WaitEnd?) && !CanTake(s.sv)
    ensures ServerPart(c, ServerStep(c, s))
  {
    ServerErrorOk(c, s.sv, s.spc, ServerStep(c, s).spc, s.sFail);
  }

  lemma DoomedServerKeeps(c: Config, s: State)
    requires Lists(c) && ServerPart(c, s) && ServerCan(c, s) && SawError(s.sv)
    requires s.spc.RecvSlice? || s.spc.RecvEnd?
    ensures ServerPart(c, ServerStep(c, s))
  {}

  /** A receive that holds a message is taken only by a server that has seen no failure. */
  lemma TakerIsFine(c: Config, x: Endpoint, pc: ServerPc, fail: bool)
    requires Lists(c) && ServerSide(c, x, pc, fail)
    ensures (pc.WaitSlice? || pc.WaitEnd?) && CanTake(x) ==> !SawError(x) && !fail
    ensures ServerExchanging(pc) ==> !SawError(x) && !fail
    ensures (pc.RecvSlice? || pc.RecvEnd?) && !SawError(x) ==> !fail
  {}

  lemma ServerPartKeeps(c: Config, s: State)
    requires WellFormed(c) && Inv(c, s) && ServerCan(c, s)
    ensures ServerPart(c, ServerStep(c, s))
  {
    TakerIsFine(c, s.sv, s.spc, s.sFail);
    if s.spc.RecvSlice? || s.spc.RecvEnd? {
      if SawError(s.sv) { DoomedServerKeeps(c, s); }
      else if s.spc.RecvSlice? { ServerSliceKeeps(c, s); }
      else { ServerRecvEndKeeps(c, s); }
    } else if s.spc.WaitSlice? || s.spc.WaitEnd? {
      if !CanTake(s.sv) { ServerErrorKeeps(c, s); }
      else if s.spc.WaitSlice? { ServerSliceKeeps(c, s); }
      else { ServerLast(c, s); }
    } else if s.spc.SendCount? || s.spc.SendInfo? {
      ServerMessageKeeps(c, s);
    } else if CanPoll(s.sv) {
      ServerPolledKeeps(c, s);
    } else {
      ServerErrorKeeps(c, s);
    }
  }

  lemma ServerLast(c: Config, s: State)
    requires WellFormed(c) && Inv(c, s) && s.spc.WaitEnd? && CanTake(s.sv) && !SawError(s.sv) && !s.sFail
    ensures ServerPart(c, ServerStep(c, s))
  {
    AttemptsBounded(c, s.cpc);
    EndMeansLanded(c, s.log, s.cl, s.sv);
    ServerHash(c, s.log, s.cl, s.sv);
    ServerEndKeeps(c, s);
  }

  lemma ServerNoPostOk(c: Config, x: Endpoint, pc: ServerPc, fail: bool)
    requires Lists(c) && ServerSide(c, x, pc, fail) && CursorsOk(x)
    ensures pc.RecvSlice? ==> ServerSide(c, x, WaitSlice(pc.r, pc.n), true)
    ensures pc.SendCount? || pc.SendInfo? || pc.RecvEnd? ==> ServerSide(c, x, ServerAborted, true)
  {}

  lemma ServerNoPostInv(c: Config, s: State)
    requires WellFormed(c) && Inv(c, s) && ServerPosts(c, s)
    ensures Inv(c, ServerPostFails(c, s))
  {
    ServerNoPostOk(c, s.sv, s.spc, s.sFail);
  }

  lemma ServerKeeps(c: Config, s: State)
    requires WellFormed(c) && Inv(c, s) && ServerCan(c, s)
    ensures Inv(c, ServerStep(c, s))
  {
    var s' := ServerStep(c, s);
    AdapterOkSymmetric(s.cl, s.sv);
    ServerPartKeeps(c, s);
    ServerStepAdapter(c, s);
    ServerStepFrame(c, s);
    ServerStepContents(c, s);
    AdapterOkSymmetric(s'.sv, s'.cl);
    ContentsFrame(c, s.log, s.cl, s.sv, s'.cl, s'.sv);
  }
}
