/** Every step of the client program keeps the client's part of the invariant, with or without
    errors and refused posts. */
module RdmaClient {
  import opened Params
  import opened Memory
  import opened Exchange
  import opened Nic
  import opened RdmaRun
  import opened RdmaInvariant

  lemma PostedSignals(posted: seq<SendWr>, wr: SendWr)
    ensures var p := posted + [wr];
            |SignaledIds(p, |p|)| == |SignaledIds(posted, |posted|)| + if wr.signaled then 1 else 0
  {
    PrefixCounts(posted, [wr], |posted|);
  }

  ghost predicate Sized(c: Config) {
    Shaped(c) && c.cDepth >= MAX_WR && c.sDepth >= MAX_WR
  }

  // ----- The list of requests -----

  lemma ListGrows(c: Config, log: seq<nat>, posted: seq<SendWr>, n: nat)
    requires Lists(c) && Listed(c, log, posted) && |posted| == |log| && n < c.count
    ensures Listed(c, log + [n], posted + [DataWr(c, Remote(c), n)])
  {
    var log' := log + [n];
    assert forall k :: 0 <= k < |log| ==> WrAt(c, log', k) == WrAt(c, log, k);
  }

  /** After request `n` of round `r` has been dealt with, posted or not. */
  lemma AttemptMade(c: Config, r: nat, n: nat)
    requires r < c.repeat && n < c.count
    ensures Attempts(c, AfterPost(c, r, n)) == Index(c, r, n) + 1 == Attempts(c, AfterRequest(c, r, n))
    ensures InLoops(c, AfterPost(c, r, n)) && InLoops(c, AfterRequest(c, r, n))
    ensures SlotOf(Index(c, r, n), c.count) == n && Index(c, r, n) < Total(c)
  {
    IndexFacts(c, r, n);
  }

  lemma LogPosts(c: Config, log: seq<nat>, posted: seq<SendWr>, r: nat, n: nat)
    requires Lists(c) && r < c.repeat && n < c.count && LogOk(c, log, posted, Post(r, n))
    ensures LogOk(c, log + [n], posted + [DataWr(c, Remote(c), n)], AfterPost(c, r, n))
    ensures LogOk(c, log, posted, AfterPost(c, r, n))
    ensures Straight(c, log) && |log| == Index(c, r, n) ==> Straight(c, log + [n])
  {
    AttemptMade(c, r, n);
    ListGrows(c, log, posted, n);
  }

  lemma LogEnds(c: Config, log: seq<nat>, posted: seq<SendWr>)
    requires Lists(c) && LogOk(c, log, posted, PostEnd)
    ensures LogOk(c, log, posted + [Message(END)], PollEnd) && LogOk(c, log, posted, ClientAborted)
  {}

  /** A wait ends, or the program gives up. */
  lemma LogGoesOn(c: Config, log: seq<nat>, posted: seq<SendWr>, pc: ClientPc)
    requires Lists(c) && InLoops(c, pc) && LogOk(c, log, posted, pc)
    ensures pc.Poll? ==> LogOk(c, log, posted, AfterRequest(c, pc.r, pc.n))
    ensures pc.PollEnd? ==> LogOk(c, log, posted, ClientDone)
    ensures !pc.Post? && !pc.Poll? ==> LogOk(c, log, posted, ClientAborted)
  {
    if pc.Poll? { AttemptMade(c, pc.r, pc.n); }
  }

  // ----- Whatever has failed -----

  lemma FairPost(c: Config, x: Endpoint, r: nat, n: nat, log: seq<nat>, fail: bool)
    requires Sized(c) && ClientFair(c, x, Post(r, n), log, fail)
    ensures ClientFair(c, PostSend(x, DataWr(c, Remote(c), n)), AfterPost(c, r, n),
                       if HasRoom(x) then log + [n] else log, fail)
    ensures ClientFair(c, x, AfterPost(c, r, n), log, true)
  {
    AttemptMade(c, r, n);
    LogPosts(c, log, x.posted, r, n);
    PostedSignals(x.posted, DataWr(c, Remote(c), n));
  }

  lemma FairPostEnd(c: Config, x: Endpoint, log: seq<nat>, fail: bool)
    requires Sized(c) && ClientFair(c, x, PostEnd, log, fail)
    ensures HasRoom(x) ==> ClientFair(c, PostSend(x, Message(END)), PollEnd, log, fail)
    ensures ClientFair(c, x, ClientAborted, log, fail) && ClientFair(c, x, ClientAborted, log, true)
  {
    LogEnds(c, log, x.posted);
    PostedSignals(x.posted, Message(END));
  }

  /** A good completion is the newest request's, and frees the whole queue. */
  lemma ClientDrained(c: Config, x: Endpoint, pc: ClientPc)
    requires Booked(x, pc) && CanPoll(x) && CursorsOk(x) && CompletionsOk(x)
    ensures x.acked == |x.posted| == PollSend(x).retired
    ensures |SignaledIds(x.posted, |x.posted|)| == PollSend(x).polled
  {
    SignaledGrow(x.posted, x.acked, |x.posted|);
    LastCompletionDrains(x);
  }

  /** Where a program goes that has waited. */
  function AfterWait(c: Config, pc: ClientPc, good: bool): ClientPc {
    if pc.Poll? then AfterRequest(c, pc.r, pc.n) else if good then ClientDone else ClientAborted
  }

  lemma FairPoll(c: Config, x: Endpoint, pc: ClientPc, log: seq<nat>, fail: bool)
    requires Sized(c) && ClientFair(c, x, pc, log, fail) && ClientWaits(pc) && CanPoll(x)
    requires CursorsOk(x) && CompletionsOk(x)
    ensures ClientFair(c, PollSend(x), AfterWait(c, pc, true), log, fail)
  {
    ClientDrained(c, x, pc);
    LogGoesOn(c, log, x.posted, pc);
    if pc.Poll? { AttemptMade(c, pc.r, pc.n); }
  }

  lemma FairPollError(c: Config, x: Endpoint, pc: ClientPc, log: seq<nat>, fail: bool)
    requires Sized(c) && ClientFair(c, x, pc, log, fail) && ClientWaits(pc) && CanPollError(x) && ErrorsOk(x)
    ensures SawError(PollError(x)) && ClientFair(c, PollError(x), AfterWait(c, pc, false), log, fail)
  {
    LogGoesOn(c, log, x.posted, pc);
    if pc.Poll? { AttemptMade(c, pc.r, pc.n); }
  }

  lemma FairExchange(c: Config, x: Endpoint, pc: ClientPc, log: seq<nat>, fail: bool)
    requires Sized(c) && ClientFair(c, x, pc, log, fail) && Exchanging(pc)
    ensures pc.RecvCount? ==> ClientFair(c, PostRecv(x, Scratch(ADDR_BYTES)), WaitCount, log, fail)
    ensures pc.WaitCount? ==> ClientFair(c, Take(x), RecvInfo, log, fail)
    ensures pc.RecvInfo? ==> ClientFair(c, PostRecv(x, Scratch(16 * c.count)), WaitInfo, log, fail)
    ensures pc.WaitInfo? ==> ClientFair(c, Take(x), Post(0, 0), log, fail)
  {
    assert Index(c, 0, 0) == 0;
  }

  /** The exchange fails, on a receive or for want of one. */
  lemma FairGivesUp(c: Config, x: Endpoint, pc: ClientPc, log: seq<nat>, fail: bool, fail': bool)
    requires Lists(c) && ClientFair(c, x, pc, log, fail) && Exchanging(pc)
    ensures ClientFair(c, x, ClientAborted, log, fail') && ClientFair(c, TakeError(x), ClientAborted, log, fail')
  {
    LogGoesOn(c, log, x.posted, pc);
  }

  // ----- As long as nothing has failed -----

  /** The queue always has room for the next post. */
  lemma ClientHasRoom(c: Config, x: Endpoint, pc: ClientPc, log: seq<nat>)
    requires Sized(c) && !TooDeep(c) && ClientOk(c, x, pc, log) && (pc.Post? || pc.PostEnd?)
    ensures HasRoom(x)
  {}

  lemma ClientPostOk(c: Config, x: Endpoint, r: nat, n: nat, log: seq<nat>)
    requires Sized(c) && !TooDeep(c) && ClientOk(c, x, Post(r, n), log) && LogOk(c, log, x.posted, Post(r, n))
    ensures HasRoom(x)
    ensures ClientOk(c, PostSend(x, DataWr(c, Remote(c), n)), AfterPost(c, r, n), log + [n])
  {
    IndexFacts(c, r, n);
    ClientHasRoom(c, x, Post(r, n), log);
    LogPosts(c, log, x.posted, r, n);
    PostedSignals(x.posted, DataWr(c, Remote(c), n));
  }

  /** A queue that is too small fills up with unsignaled requests; the later posts fail. */
  lemma FullPostOk(c: Config, x: Endpoint, r: nat, n: nat, log: seq<nat>)
    requires Sized(c) && TooDeep(c) && ClientOk(c, x, Post(r, n), log) && LogOk(c, log, x.posted, Post(r, n))
    ensures HasRoom(x) <==> n < c.cDepth
    ensures ClientOk(c, PostSend(x, DataWr(c, Remote(c), n)), AfterPost(c, r, n), if HasRoom(x) then log + [n] else log)
  {
    IndexFacts(c, r, n);
    LogPosts(c, log, x.posted, r, n);
    PostedSignals(x.posted, DataWr(c, Remote(c), n));
  }

  /** None of them ever yields a completion. */
  lemma FullNeverPolls(c: Config, x: Endpoint, pc: ClientPc, log: seq<nat>)
    requires Sized(c) && TooDeep(c) && ClientOk(c, x, pc, log) && CompletionsOk(x)
    ensures !CanPoll(x)
  {
    SignaledGrow(x.posted, x.acked, |x.posted|);
  }

  lemma ClientPostEndOk(c: Config, x: Endpoint, log: seq<nat>)
    requires Sized(c) && ClientOk(c, x, PostEnd, log)
    ensures HasRoom(x) && ClientOk(c, PostSend(x, Message(END)), PollEnd, log)
  {
    ClientHasRoom(c, x, PostEnd, log);
    PostedSignals(x.posted, Message(END));
  }

  lemma ClientPollOk(c: Config, x: Endpoint, pc: ClientPc, log: seq<nat>)
    requires Sized(c) && ClientOk(c, x, pc, log) && Booked(x, pc) && ClientWaits(pc) && CanPoll(x)
    requires CursorsOk(x) && CompletionsOk(x)
    ensures x.acked == |x.posted| && Occupied(PollSend(x)) == 0
    ensures ClientOk(c, PollSend(x), AfterWait(c, pc, true), log)
  {
    if TooDeep(c) { FullNeverPolls(c, x, pc, log); }
    ClientDrained(c, x, pc);
    RetiredOk(c, x, pc, PollSend(x), log);
  }

  lemma RetiredOk(c: Config, x: Endpoint, pc: ClientPc, x': Endpoint, log: seq<nat>)
    requires Lists(c) && !TooDeep(c) && ClientOk(c, x, pc, log) && ClientWaits(pc)
    requires x' == x.(polled := x.polled + 1, retired := |x.posted|)
    ensures ClientOk(c, x', AfterWait(c, pc, true), log)
  {
    if pc.Poll? { IndexFacts(c, pc.r, pc.n); }
  }

  lemma ClientExchangeOk(c: Config, x: Endpoint, pc: ClientPc, log: seq<nat>)
    requires Sized(c) && ClientOk(c, x, pc, log) && Exchanging(pc)
    ensures pc.RecvCount? ==> ClientOk(c, PostRecv(x, Scratch(ADDR_BYTES)), WaitCount, log)
    ensures pc.WaitCount? ==> ClientOk(c, Take(x), RecvInfo, log)
    ensures pc.RecvInfo? ==> ClientOk(c, PostRecv(x, Scratch(16 * c.count)), WaitInfo, log)
    ensures pc.WaitInfo? ==> ClientOk(c, Take(x), Post(0, 0), log)
  {}

  // ----- The client's part of the invariant -----

  ghost predicate ClientPart(c: Config, s: State)
    requires Lists(c)
  {
    && ClientSide(c, s.cl, s.cpc, s.log, s.cFail) && RemoteOk(c, s)
    && s.cDigest == if s.cpc == ClientDone then Some(c.sha(ClientInput(c, s.log))) else None
  }

  lemma ClientPostKeeps(c: Config, s: State)
    requires Sized(c) && ClientPart(c, s) && ClientCan(c, s) && s.cpc.Post?
    ensures ClientPart(c, ClientStep(c, s))
  {
    var r, n := s.cpc.r, s.cpc.n;
    FairPost(c, s.cl, r, n, s.log, s.cFail);
    if !SawError(s.cl) && !s.cFail { AnyPostOk(c, s.cl, r, n, s.log); }
  }

  lemma AnyPostOk(c: Config, x: Endpoint, r: nat, n: nat, log: seq<nat>)
    requires Sized(c) && ClientOk(c, x, Post(r, n), log) && LogOk(c, log, x.posted, Post(r, n))
    ensures ClientOk(c, PostSend(x, DataWr(c, Remote(c), n)), AfterPost(c, r, n), if HasRoom(x) then log + [n] else log)
  {
    if TooDeep(c) { FullPostOk(c, x, r, n, log); } else { ClientPostOk(c, x, r, n, log); }
  }

  lemma ClientPostEndKeeps(c: Config, s: State)
    requires Sized(c) && ClientPart(c, s) && ClientCan(c, s) && s.cpc.PostEnd?
    ensures ClientPart(c, ClientStep(c, s))
  {
    FairPostEnd(c, s.cl, s.log, s.cFail);
    if !SawError(s.cl) && !s.cFail { ClientPostEndOk(c, s.cl, s.log); }
  }

  /** A refused post: the loop goes on without the request, or the program gives up. */
  lemma ClientNoPostKeeps(c: Config, s: State)
    requires Sized(c) && ClientPart(c, s) && ClientPosts(c, s)
    ensures ClientPart(c, ClientPostFails(c, s))
  {
    if s.cpc.Post? { FairPost(c, s.cl, s.cpc.r, s.cpc.n, s.log, s.cFail); }
    else if s.cpc.PostEnd? { FairPostEnd(c, s.cl, s.log, s.cFail); }
    else { FairGivesUp(c, s.cl, s.cpc, s.log, s.cFail, true); }
  }

  lemma ClientPollKeeps(c: Config, s: State)
    requires Sized(c) && ClientPart(c, s) && ClientCan(c, s) && s.cpc.Poll? && CanPoll(s.cl)
    requires CursorsOk(s.cl) && CompletionsOk(s.cl)
    ensures ClientPart(c, ClientStep(c, s))
  {
    FairPoll(c, s.cl, s.cpc, s.log, s.cFail);
    if !SawError(s.cl) && !s.cFail { ClientPollOk(c, s.cl, s.cpc, s.log); }
  }

  lemma ClientPollEndKeeps(c: Config, s: State)
    requires Sized(c) && ClientPart(c, s) && ClientCan(c, s) && s.cpc.PollEnd? && CanPoll(s.cl)
    requires CursorsOk(s.cl) && CompletionsOk(s.cl)
    requires HashInput(s.cl.mem, c.cAddr, c.length, c.count) == ClientInput(c, s.log)
    ensures ClientPart(c, ClientStep(c, s))
  {
    FairPoll(c, s.cl, s.cpc, s.log, s.cFail);
    if !SawError(s.cl) && !s.cFail { ClientPollOk(c, s.cl, s.cpc, s.log); }
  }

  lemma ClientExchangeKeeps(c: Config, s: State)
    requires WellFormed(c) && !Misread(c) && ClientPart(c, s) && ClientCan(c, s) && Exchanging(s.cpc)
    requires s.cpc.WaitCount? || s.cpc.WaitInfo? ==> CanTake(s.cl)
    requires CursorsOk(s.cl) && ScratchOk(c, s.cl, s.sv)
    ensures ClientPart(c, ClientStep(c, s))
  {
    FairExchange(c, s.cl, s.cpc, s.log, s.cFail);
    ClientExchangeOk(c, s.cl, s.cpc, s.log);
    if s.cpc.WaitCount? { CountIsRight(c, s); }
    if s.cpc.WaitInfo? { InfoIsRight(c, s); }
  }

  /** An error completion taken while waiting for a request, or an error on a receive: the client
      never reaches its digest. */
  lemma ClientErrorKeeps(c: Config, s: State)
    requires Sized(c) && ClientPart(c, s) && ClientCan(c, s) && CompletionsOk(s.cl)
    requires if Exchanging(s.cpc) then !CanTake(s.cl) && !s.cpc.RecvCount? && !s.cpc.RecvInfo?
             else ClientWaits(s.cpc) && !CanPoll(s.cl)
    ensures ClientPart(c, ClientStep(c, s)) && SawError(ClientStep(c, s).cl)
  {
    if Exchanging(s.cpc) {
      FairGivesUp(c, s.cl, s.cpc, s.log, s.cFail, s.cFail);
    } else {
      FairPollError(c, s.cl, s.cpc, s.log, s.cFail);
    }
  }

  lemma CountIsRight(c: Config, s: State)
    requires WellFormed(c) && !Misread(c) && c.verb != Send && s.cpc.WaitCount? && CanTake(s.cl)
    requires |s.cl.rq| == 1 && s.cl.taken == 0 && ScratchOk(c, s.cl, s.sv) && CursorsOk(s.cl)
    ensures Load(c.cOrder, s.cl.scratch) == c.count
  {
    RawWordAgrees(c.sOrder, c.cOrder, c.count, ADDR_BYTES);
  }

  lemma InfoIsRight(c: Config, s: State)
    requires WellFormed(c) && s.cpc.WaitInfo? && CanTake(s.cl)
    requires |s.cl.rq| == 2 && s.cl.taken == 1 && ScratchOk(c, s.cl, s.sv) && CursorsOk(s.cl)
    ensures DecodeInfos(c.cOrder, Padded(s.cl.scratch, 16 * c.count), c.count) == ServerInfos(c)
  {
    assert s.cl.scratch == InfoBytes(c);
    DecodeEncode(c.sOrder, c.cOrder, ServerInfos(c));
  }
}
