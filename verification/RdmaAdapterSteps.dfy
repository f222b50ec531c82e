/** The adapter's own steps keep the invariant: what goes on the wire, what lands where. */
module RdmaAdapterSteps {
  import opened Params
  import opened Memory
  import opened Nic
  import opened RdmaRun
  import opened RdmaInvariant

  // ----- What the adapters leave alone -----

  ghost predicate SameClient(x: Endpoint, x': Endpoint) {
    && x'.posted == x.posted && x'.rq == x.rq && x'.taken == x.taken && x'.lost == x.lost
    && x'.errPolled == x.errPolled && x'.polled == x.polled && x'.retired == x.retired
    && x'.regions == x.regions && x'.depth == x.depth && (x.broken ==> x'.broken && x'.cq == x.cq)
    && (x.acked == |x.posted| ==> x'.acked == x.acked)
  }

  lemma ClientFrame(c: Config, x: Endpoint, x': Endpoint, pc: ClientPc, log: seq<nat>, fail: bool)
    requires Lists(c) && SameClient(x, x') && ClientSide(c, x, pc, log, fail)
    requires x'.wire == x.wire || EndOk(c, x', log, fail)
    ensures ClientSide(c, x', pc, log, fail)
  {
    FairFrame(c, x, x', pc, log, fail);
    if !SawError(x) && !fail { OkFrame(c, x, x', pc, log); }
  }

  lemma FairFrame(c: Config, x: Endpoint, x': Endpoint, pc: ClientPc, log: seq<nat>, fail: bool)
    requires Lists(c) && SameClient(x, x') && ClientFair(c, x, pc, log, fail)
    requires x'.wire == x.wire || EndOk(c, x', log, fail)
    ensures ClientFair(c, x', pc, log, fail)
  {}

  lemma OkFrame(c: Config, x: Endpoint, x': Endpoint, pc: ClientPc, log: seq<nat>)
    requires Lists(c) && SameClient(x, x') && ClientOk(c, x, pc, log)
    ensures ClientOk(c, x', pc, log)
  {}

  ghost predicate SameServer(y: Endpoint, y': Endpoint) {
    && y'.posted == y.posted && y'.rq == y.rq && y'.taken == y.taken && y'.filled == y.filled && y'.lost == y.lost
    && y'.errPolled == y.errPolled && y'.polled == y.polled && y'.retired == y.retired
    && y'.regions == y.regions && y'.depth == y.depth && (y.broken ==> y'.broken)
  }

  lemma ServerFrame(c: Config, y: Endpoint, y': Endpoint, pc: ServerPc, fail: bool)
    requires Lists(c) && SameServer(y, y') && ServerSide(c, y, pc, fail)
    ensures ServerSide(c, y', pc, fail)
  {}

  /** An adapter's step changes neither the programs nor what they have printed. */
  lemma ContentsMoved(c: Config, s: State, x: Endpoint, y: Endpoint)
    requires Lists(c) && ContentsOk(c, s) && WiresOk(c, s.log, x, y) && MemoryOk(c, s.log, x, y)
    ensures ContentsOk(c, s.(cl := x, sv := y))
  {}

  lemma SidesMoved(c: Config, s: State, x: Endpoint, y: Endpoint)
    requires Lists(c) && AdapterOk(x, y)
    requires ClientSide(c, x, s.cpc, s.log, s.cFail) && ServerSide(c, y, s.spc, s.sFail)
    ensures SidesOk(c, s.(cl := x, sv := y))
  {}

  // ----- From the client -----

  lemma TransmitSide(c: Config, x: Endpoint, pc: ClientPc, log: seq<nat>, fail: bool)
    requires Lists(c) && CursorsOk(x) && CompletionsOk(x) && CanTransmit(x) && ClientSide(c, x, pc, log, fail)
    ensures ClientSide(c, Transmit(x), pc, log, fail)
  {
    assert !fail ==> |x.posted| == |log| || (|log| == Total(c) && !TooDeep(c));
    ClientFrame(c, x, Transmit(x), pc, log, fail);
  }

  lemma TransmitSides(c: Config, s: State)
    requires Lists(c) && SidesOk(c, s) && CanTransmit(s.cl)
    ensures SidesOk(c, s.(cl := Transmit(s.cl)))
  {
    TransmitKeeps(s.cl, s.sv);
    TransmitSide(c, s.cl, s.cpc, s.log, s.cFail);
  }

  lemma TransmitContents(c: Config, s: State)
    requires WellFormed(c) && ContentsOk(c, s) && Listed(c, s.log, s.cl.posted) && CanTransmit(s.cl)
    ensures ContentsOk(c, s.(cl := Transmit(s.cl)))
  {
    ClientPayloadRight(c, s.log, s.cl);
    MemoryFrame(c, s.log, s.cl, s.sv, Transmit(s.cl), s.sv);
    ContentsMoved(c, s, Transmit(s.cl), s.sv);
  }

  lemma ClientTransmitKeeps(c: Config, s: State)
    requires WellFormed(c) && Inv(c, s) && Enabled(c, s, ClientTransmit)
    ensures Inv(c, Next(c, s, ClientTransmit))
  {
    TransmitSides(c, s);
    TransmitContents(c, s);
  }

  lemma MemoryFrame(c: Config, log: seq<nat>, x: Endpoint, y: Endpoint, x': Endpoint, y': Endpoint)
    requires Lists(c) && x'.mem == x.mem && y'.mem == y.mem && x'.acked == x.acked && x'.placed == x.placed
    ensures MemoryOk(c, log, x, y) == MemoryOk(c, log, x', y')
  {}

  lemma ClientPayloadRight(c: Config, log: seq<nat>, x: Endpoint)
    requires Shaped(c) && CanTransmit(x) && (c.verb != Read ==> x.mem == c.cMem)
    requires Listed(c, log, x.posted) && ClientWireOk(c, log, x.wire)
    ensures ClientWireOk(c, log, Transmit(x).wire)
  {
    assert x.posted[|x.wire|] == WrAt(c, log, |x.wire|);
    NextPayload(c, log, x);
  }

  lemma NextPayload(c: Config, log: seq<nat>, x: Endpoint)
    requires Shaped(c) && InSlots(c, log) && CanTransmit(x) && (c.verb != Read ==> x.mem == c.cMem)
    requires x.posted[|x.wire|] == WrAt(c, log, |x.wire|)
    ensures Transmit(x).wire == x.wire + [ClientPayload(c, log, |x.wire|)]
  {}

  /** The `k`-th message meets the `k`-th receive. Data goes to a slice, and to the slice of the same
      request if nothing was passed over; "End" goes to the control buffer, unless the Send verb
      has left receives for data before it. */
  lemma MessageMeetsReceive(c: Config, log: seq<nat>, x: Endpoint, y: Endpoint)
    requires Shaped(c) && CanAccept(x, y) && DeliveryOk(x, y) && x.posted[|x.reply|].op == Send
    requires Listed(c, log, x.posted) && |log| <= Total(c) && ServerSinks(c, y.rq)
    ensures var k := |x.reply|;
            && k <= |log| && y.filled == (if c.verb == Send then k else 0)
            && (k < |log| ==> c.verb == Send)
            && y.rq[y.filled] == (if c.verb == Send && k < Total(c) then Into(c.sAddr[SlotOf(k, c.count)], c.length)
                                  else Scratch(4))
  {
    var k := |x.reply|;
    assert x.posted[k] == WrAt(c, log, k);
    ClientSends(c, log, x.posted, k);
  }

  lemma AcceptDataSend(c: Config, log: seq<nat>, x: Endpoint, y: Endpoint)
    requires WellFormed(c) && CanAccept(x, y) && DeliveryOk(x, y) && c.verb == Send
    requires Listed(c, log, x.posted) && |log| <= Total(c) && ServerSinks(c, y.rq)
    requires |x.reply| < |log| && ClientWireOk(c, log, x.wire) && MemoryOk(c, log, x, y)
    ensures MemoryOk(c, log, AcceptAtSender(x, y), AcceptAtPeer(x, y))
  {
    var k := |x.reply|;
    assert x.posted[k] == WrAt(c, log, k);
    assert x.wire[k] == ClientPayload(c, log, k);
    MessageMeetsReceive(c, log, x, y);
    var m := SlotOf(k, c.count);
    PutInSlice(c.sAddr, y.mem, c.sMem, c.length, m, x.wire[k]);
    if Straight(c, log) {
      UptoNext(log, k);
      assert Aligned(c, log, k);
      CopyOne(c.sAddr, y.mem, c.cAddr, c.cMem, c.sMem, c.length, Upto(log, k), m);
    }
  }

  /** "End" in the control buffer, or, when it comes too early, in a slice. */
  lemma AcceptEnd(c: Config, log: seq<nat>, x: Endpoint, y: Endpoint)
    requires WellFormed(c) && CanAccept(x, y) && DeliveryOk(x, y)
    requires Listed(c, log, x.posted) && |log| <= Total(c) && ServerSinks(c, y.rq)
    requires |x.reply| >= |log| && ClientWireOk(c, log, x.wire) && MemoryOk(c, log, x, y)
    ensures c.verb != Send || |log| == Total(c) ==> AcceptAtPeer(x, y) == y.(scratch := END, filled := y.filled + 1)
    ensures c.verb == Send && |log| < Total(c) ==>
              AcceptAtPeer(x, y).scratch == y.scratch && AcceptAtPeer(x, y).filled <= Total(c)
    ensures MemoryOk(c, log, AcceptAtSender(x, y), AcceptAtPeer(x, y))
  {
    var k := |x.reply|;
    assert x.posted[k] == WrAt(c, log, k);
    assert x.wire[k] == ClientPayload(c, log, k);
    MessageMeetsReceive(c, log, x, y);
    UptoNext(log, k);
    if c.verb == Send && k < Total(c) {
      PutInSlice(c.sAddr, y.mem, c.sMem, c.length, SlotOf(k, c.count), END);
    }
  }

  lemma AcceptRead(c: Config, log: seq<nat>, x: Endpoint, y: Endpoint)
    requires Shaped(c) && CanAccept(x, y) && Listed(c, log, x.posted)
    requires c.verb == Read && |x.reply| < |log| && RepliesOk(c, log, x.reply) && y.mem == c.sMem
    ensures RepliesOk(c, log, AcceptAtSender(x, y).reply)
  {
    assert x.posted[|x.reply|] == WrAt(c, log, |x.reply|);
  }

  lemma AcceptMemory(c: Config, log: seq<nat>, x: Endpoint, y: Endpoint)
    requires WellFormed(c) && CanAccept(x, y) && DeliveryOk(x, y)
    requires Listed(c, log, x.posted) && |log| <= Total(c) && ServerSinks(c, y.rq)
    requires ClientWireOk(c, log, x.wire) && MemoryOk(c, log, x, y)
    ensures MemoryOk(c, log, AcceptAtSender(x, y), AcceptAtPeer(x, y))
  {
    assert x.posted[|x.reply|] == WrAt(c, log, |x.reply|);
    if |x.reply| >= |log| {
      AcceptEnd(c, log, x, y);
    } else if c.verb == Send {
      AcceptDataSend(c, log, x, y);
    } else {
      AcceptAhead(c, log, x, y);
    }
  }

  /** Accepting a Write or a Read changes no memory yet. */
  lemma AcceptAhead(c: Config, log: seq<nat>, x: Endpoint, y: Endpoint)
    requires Lists(c) && CanAccept(x, y) && (c.verb == Write || c.verb == Read) && x.posted[|x.reply|].op == c.verb
    requires MemoryOk(c, log, x, y)
    ensures MemoryOk(c, log, AcceptAtSender(x, y), AcceptAtPeer(x, y))
  {}

  lemma AcceptWires(c: Config, log: seq<nat>, x: Endpoint, y: Endpoint)
    requires WellFormed(c) && CanAccept(x, y) && DeliveryOk(x, y)
    requires Listed(c, log, x.posted) && |log| <= Total(c) && ServerSinks(c, y.rq)
    requires WiresOk(c, log, x, y) && MemoryOk(c, log, x, y)
    ensures WiresOk(c, log, AcceptAtSender(x, y), AcceptAtPeer(x, y))
  {
    assert x.posted[|x.reply|] == WrAt(c, log, |x.reply|);
    if |x.reply| >= |log| {
      AcceptEnd(c, log, x, y);
    } else if c.verb == Send {
      MessageMeetsReceive(c, log, x, y);
    } else if c.verb == Read {
      AcceptRead(c, log, x, y);
    }
  }

  lemma AcceptedSide(c: Config, x: Endpoint, y: Endpoint, pc: ServerPc, fail: bool)
    requires Lists(c) && CanAccept(x, y) && ServerSide(c, y, pc, fail)
    ensures ServerSide(c, AcceptAtPeer(x, y), pc, fail)
  {
    if x.posted[|x.reply|].op != Send { ServerFrame(c, y, AcceptAtPeer(x, y), pc, fail); }
  }

  lemma AcceptingSide(c: Config, x: Endpoint, y: Endpoint, pc: ClientPc, log: seq<nat>, fail: bool)
    requires Lists(c) && CanAccept(x, y) && ClientSide(c, x, pc, log, fail)
    ensures ClientSide(c, AcceptAtSender(x, y), pc, log, fail)
  {
    ClientFrame(c, x, AcceptAtSender(x, y), pc, log, fail);
  }

  lemma HealthySinks(c: Config, y: Endpoint, pc: ServerPc, fail: bool)
    requires Lists(c) && ServerSide(c, y, pc, fail) && !y.broken
    ensures ServerSinks(c, y.rq) && y.regions == c.sRegions
  {}

  lemma LogBounded(c: Config, log: seq<nat>, posted: seq<SendWr>, pc: ClientPc)
    requires Lists(c) && InLoops(c, pc) && LogOk(c, log, posted, pc)
    ensures |log| <= Total(c)
  {
    if pc.Post? || pc.Poll? { IndexFacts(c, pc.r, pc.n); }
  }

  lemma AcceptSides(c: Config, s: State)
    requires Lists(c) && SidesOk(c, s) && CanAccept(s.cl, s.sv)
    ensures SidesOk(c, s.(cl := AcceptAtSender(s.cl, s.sv), sv := AcceptAtPeer(s.cl, s.sv)))
  {
    AcceptKeeps(s.cl, s.sv);
    AcceptingSide(c, s.cl, s.sv, s.cpc, s.log, s.cFail);
    AcceptedSide(c, s.cl, s.sv, s.spc, s.sFail);
    SidesMoved(c, s, AcceptAtSender(s.cl, s.sv), AcceptAtPeer(s.cl, s.sv));
  }

  lemma AcceptContents(c: Config, s: State)
    requires WellFormed(c) && ContentsOk(c, s) && CanAccept(s.cl, s.sv) && DeliveryOk(s.cl, s.sv)
    requires Listed(c, s.log, s.cl.posted) && |s.log| <= Total(c) && ServerSinks(c, s.sv.rq)
    ensures ContentsOk(c, s.(cl := AcceptAtSender(s.cl, s.sv), sv := AcceptAtPeer(s.cl, s.sv)))
  {
    AcceptMemory(c, s.log, s.cl, s.sv);
    AcceptWires(c, s.log, s.cl, s.sv);
    ContentsMoved(c, s, AcceptAtSender(s.cl, s.sv), AcceptAtPeer(s.cl, s.sv));
  }

  lemma ClientAcceptKeeps(c: Config, s: State)
    requires WellFormed(c) && Inv(c, s) && Enabled(c, s, ClientAccept)
    ensures Inv(c, Next(c, s, ClientAccept))
  {
    LogBounded(c, s.log, s.cl.posted, s.cpc);
    HealthySinks(c, s.sv, s.spc, s.sFail);
    AcceptSides(c, s);
    AcceptContents(c, s);
  }

  lemma LandMemory(c: Config, log: seq<nat>, x: Endpoint, y: Endpoint)
    requires WellFormed(c) && CanLand(x, y) && CursorsOk(x) && Listed(c, log, x.posted)
    requires ClientWireOk(c, log, x.wire) && MemoryOk(c, log, x, y)
    ensures MemoryOk(c, log, LandAtSender(x), LandAtPeer(x, y))
  {
    var k := x.placed;
    assert x.posted[k] == WrAt(c, log, k);
    assert x.wire[k] == ClientPayload(c, log, k);
    UptoNext(log, k);
    CopyOne(c.sAddr, y.mem, c.cAddr, c.cMem, c.sMem, c.length, Upto(log, k), log[k]);
  }

  lemma LandSides(c: Config, s: State)
    requires Lists(c) && SidesOk(c, s) && CanLand(s.cl, s.sv)
    ensures SidesOk(c, s.(cl := LandAtSender(s.cl), sv := LandAtPeer(s.cl, s.sv)))
  {
    LandKeeps(s.cl, s.sv);
    ClientFrame(c, s.cl, LandAtSender(s.cl), s.cpc, s.log, s.cFail);
    ServerFrame(c, s.sv, LandAtPeer(s.cl, s.sv), s.spc, s.sFail);
    SidesMoved(c, s, LandAtSender(s.cl), LandAtPeer(s.cl, s.sv));
  }

  lemma LandWires(c: Config, log: seq<nat>, x: Endpoint, y: Endpoint)
    requires Lists(c) && InSlots(c, log) && CanLand(x, y) && WiresOk(c, log, x, y)
    ensures WiresOk(c, log, LandAtSender(x), LandAtPeer(x, y))
  {}

  lemma LandContents(c: Config, s: State)
    requires WellFormed(c) && ContentsOk(c, s) && CanLand(s.cl, s.sv) && CursorsOk(s.cl)
    requires Listed(c, s.log, s.cl.posted)
    ensures ContentsOk(c, s.(cl := LandAtSender(s.cl), sv := LandAtPeer(s.cl, s.sv)))
  {
    LandWires(c, s.log, s.cl, s.sv);
    LandMemory(c, s.log, s.cl, s.sv);
    ContentsMoved(c, s, LandAtSender(s.cl), LandAtPeer(s.cl, s.sv));
  }

  lemma ClientLandKeeps(c: Config, s: State)
    requires WellFormed(c) && Inv(c, s) && Enabled(c, s, ClientLand)
    ensures Inv(c, Next(c, s, ClientLand))
  {
    LandSides(c, s);
    LandContents(c, s);
  }

  lemma AckMemory(c: Config, log: seq<nat>, x: Endpoint, y: Endpoint)
    requires WellFormed(c) && CanAck(x) && CursorsOk(x) && Listed(c, log, x.posted)
    requires RepliesOk(c, log, x.reply) && MemoryOk(c, log, x, y)
    ensures MemoryOk(c, log, Ack(x), y)
  {
    var k := x.acked;
    assert x.posted[k] == WrAt(c, log, k);
    UptoNext(log, k);
    if c.verb == Read && k < |log| {
      CopyOne(c.cAddr, x.mem, c.sAddr, c.sMem, c.cMem, c.length, Upto(log, k), log[k]);
    }
  }

  lemma AckSides(c: Config, s: State)
    requires Lists(c) && SidesOk(c, s) && CanAck(s.cl)
    ensures SidesOk(c, s.(cl := Ack(s.cl)))
  {
    AckKeeps(s.cl, s.sv);
    ClientFrame(c, s.cl, Ack(s.cl), s.cpc, s.log, s.cFail);
  }

  lemma AckContents(c: Config, s: State)
    requires WellFormed(c) && ContentsOk(c, s) && CanAck(s.cl) && CursorsOk(s.cl) && Listed(c, s.log, s.cl.posted)
    ensures ContentsOk(c, s.(cl := Ack(s.cl)))
  {
    AckWires(c, s.log, s.cl, s.sv);
    AckMemory(c, s.log, s.cl, s.sv);
    ContentsMoved(c, s, Ack(s.cl), s.sv);
  }

  lemma ClientAckKeeps(c: Config, s: State)
    requires WellFormed(c) && Inv(c, s) && Enabled(c, s, ClientAck)
    ensures Inv(c, Next(c, s, ClientAck))
  {
    AckSides(c, s);
    AckContents(c, s);
  }

  lemma AckWires(c: Config, log: seq<nat>, x: Endpoint, y: Endpoint)
    requires Lists(c) && InSlots(c, log) && CanAck(x) && WiresOk(c, log, x, y)
    ensures WiresOk(c, log, Ack(x), y)
  {}

  // ----- From the server: its only requests are the two exchange messages -----

  /** A step of the server's adapter that leaves its program's books alone. */
  lemma ServerMoved(c: Config, s: State, y: Endpoint)
    requires Lists(c) && SidesOk(c, s) && AdapterOk(y, s.cl) && SameServer(s.sv, y)
    ensures SidesOk(c, s.(sv := y))
  {
    AdapterOkSymmetric(y, s.cl);
    ServerFrame(c, s.sv, y, s.spc, s.sFail);
  }

  lemma ServerTransmitKeeps(c: Config, s: State)
    requires WellFormed(c) && Inv(c, s) && Enabled(c, s, ServerTransmit)
    ensures Inv(c, Next(c, s, ServerTransmit))
  {
    ServerTransmitSides(c, s);
    ServerTransmitContents(c, s);
  }

  lemma ServerTransmitSides(c: Config, s: State)
    requires Lists(c) && SidesOk(c, s) && CanTransmit(s.sv)
    ensures SidesOk(c, s.(sv := Transmit(s.sv)))
  {
    AdapterOkSymmetric(s.cl, s.sv);
    TransmitKeeps(s.sv, s.cl);
    ServerMoved(c, s, Transmit(s.sv));
  }

  lemma ServerTransmitContents(c: Config, s: State)
    requires Lists(c) && ContentsOk(c, s) && ServerList(c, s.sv.posted) && CanTransmit(s.sv)
    ensures ContentsOk(c, s.(sv := Transmit(s.sv)))
  {
    ServerPayloadRight(c, s.sv);
    MemoryFrame(c, s.log, s.cl, s.sv, s.cl, Transmit(s.sv));
    ContentsMoved(c, s, s.cl, Transmit(s.sv));
  }

  lemma ServerPayloadRight(c: Config, y: Endpoint)
    requires Lists(c) && CanTransmit(y) && ServerList(c, y.posted) && ServerWireOk(c, y.wire)
    ensures ServerWireOk(c, Transmit(y).wire)
  {
    assert y.posted[|y.wire|] == ServerWr(c, |y.wire|);
  }

  lemma AcceptFromServer(c: Config, x: Endpoint, y: Endpoint)
    requires Lists(c) && CanAccept(y, x) && DeliveryOk(y, x)
    requires ServerList(c, y.posted) && ClientSinks(c, x.rq) && ServerWireOk(c, y.wire)
    ensures AcceptAtSender(y, x) == y.(reply := y.reply + [[]], placed := |y.reply| + 1)
    ensures AcceptAtPeer(y, x) == x.(scratch := ServerPayload(c, x.filled), filled := x.filled + 1)
  {
    var k := |y.reply|;
    assert y.posted[k] == ServerWr(c, k);
    ServerSends(c, y.posted, k);
    assert y.wire[k] == ServerPayload(c, k);
    assert x.rq[k] == ClientSink(c, k);
  }

  lemma ServerAcceptSides(c: Config, s: State)
    requires Lists(c) && SidesOk(c, s) && CanAccept(s.sv, s.cl)
    requires AcceptAtSender(s.sv, s.cl) == s.sv.(reply := s.sv.reply + [[]], placed := |s.sv.reply| + 1)
    requires AcceptAtPeer(s.sv, s.cl) == s.cl.(scratch := AcceptAtPeer(s.sv, s.cl).scratch, filled := s.cl.filled + 1)
    ensures SidesOk(c, s.(sv := AcceptAtSender(s.sv, s.cl), cl := AcceptAtPeer(s.sv, s.cl)))
  {
    var x, y := AcceptAtPeer(s.sv, s.cl), AcceptAtSender(s.sv, s.cl);
    AdapterOkSymmetric(s.cl, s.sv);
    AcceptKeeps(s.sv, s.cl);
    AdapterOkSymmetric(y, x);
    ClientFrame(c, s.cl, x, s.cpc, s.log, s.cFail);
    ServerFrame(c, s.sv, y, s.spc, s.sFail);
  }

  lemma ServerAcceptContents(c: Config, s: State, x: Endpoint, y: Endpoint)
    requires Lists(c) && ContentsOk(c, s)
    requires x == s.cl.(scratch := ServerPayload(c, s.cl.filled), filled := s.cl.filled + 1)
    requires y == s.sv.(reply := s.sv.reply + [[]], placed := |s.sv.reply| + 1)
    ensures ContentsOk(c, s.(sv := y, cl := x))
  {
    MemoryFrame(c, s.log, s.cl, s.sv, x, y);
    ContentsMoved(c, s, x, y);
  }

  lemma ServerAcceptKeeps(c: Config, s: State)
    requires WellFormed(c) && Inv(c, s) && Enabled(c, s, ServerAccept)
    ensures Inv(c, Next(c, s, ServerAccept))
  {
    AcceptFromServer(c, s.cl, s.sv);
    ServerAcceptSides(c, s);
    ServerAcceptContents(c, s, AcceptAtPeer(s.sv, s.cl), AcceptAtSender(s.sv, s.cl));
  }

  lemma ServerNeverLands(c: Config, s: State)
    requires Lists(c) && Inv(c, s)
    ensures !CanLand(s.sv, s.cl)
  {
    var k := s.sv.placed;
    if k < |s.sv.posted| { assert s.sv.posted[k] == ServerWr(c, k); }
  }

  lemma ServerAckSides(c: Config, s: State)
    requires Lists(c) && SidesOk(c, s) && CanAck(s.sv)
    ensures SidesOk(c, s.(sv := Ack(s.sv)))
  {
    AdapterOkSymmetric(s.cl, s.sv);
    AckKeeps(s.sv, s.cl);
    ServerMoved(c, s, Ack(s.sv));
  }

  lemma ServerAckContents(c: Config, s: State)
    requires Lists(c) && ContentsOk(c, s) && ServerList(c, s.sv.posted) && CanAck(s.sv)
    ensures ContentsOk(c, s.(sv := Ack(s.sv)))
  {
    assert s.sv.posted[s.sv.acked] == ServerWr(c, s.sv.acked);
    MemoryFrame(c, s.log, s.cl, s.sv, s.cl, Ack(s.sv));
    ContentsMoved(c, s, s.cl, Ack(s.sv));
  }

  lemma ServerAckKeeps(c: Config, s: State)
    requires WellFormed(c) && Inv(c, s) && Enabled(c, s, ServerAck)
    ensures Inv(c, Next(c, s, ServerAck))
  {
    ServerAckSides(c, s);
    ServerAckContents(c, s);
  }

  // ----- Errors -----

  /** The server finds the region of every Write and Read, and room for every message, as long as
      no data message was passed over before "End". */
  lemma ClientNotRefused(c: Config, log: seq<nat>, x: Endpoint, y: Endpoint)
    requires WellFormed(c) && CursorsOk(x) && DeliveryOk(x, y) && y.regions == c.sRegions
    requires Listed(c, log, x.posted) && |log| <= Total(c)
    requires c.verb != Send || |x.posted| == |log| || |log| == Total(c)
    requires ClientWireOk(c, log, x.wire) && ServerSinks(c, y.rq)
    ensures !CanRefuse(x, y)
  {
    var k := |x.reply|;
    if k < |x.wire| {
      assert x.posted[k] == WrAt(c, log, k);
      assert x.wire[k] == ClientPayload(c, log, k);
      if k < |log| {
        var n := log[k];
        assert Permits(c.sRegions, c.verb, c.sAddr[n], c.sKey[n], c.length);
      }
      ClientSends(c, log, x.posted, k);
      assert y.filled < |y.rq| ==> y.rq[y.filled] == ServerSink(c, y.filled);
    }
  }

  lemma ServerNotRefused(c: Config, x: Endpoint, y: Endpoint)
    requires Lists(c) && CursorsOk(y) && DeliveryOk(y, x)
    requires ServerList(c, y.posted) && ServerWireOk(c, y.wire) && ClientSinks(c, x.rq)
    ensures !CanRefuse(y, x)
  {
    var k := |y.reply|;
    if k < |y.wire| {
      assert y.posted[k] == ServerWr(c, k);
      assert y.wire[k] == ServerPayload(c, k);
      ServerSends(c, y.posted, k);
      assert k < |x.rq| ==> x.rq[k] == ClientSink(c, k);
    }
  }

  /** Unless a Send of the client's was passed over, no request and no message is ever refused. */
  lemma NothingRefused(c: Config, s: State)
    requires WellFormed(c) && Inv(c, s) && (!s.cFail || c.verb != Send)
    ensures !CanRefuse(s.cl, s.sv) && !CanRefuse(s.sv, s.cl)
  {
    if !s.cl.broken && !s.sv.broken {
      LogBounded(c, s.log, s.cl.posted, s.cpc);
      HealthySinks(c, s.sv, s.spc, s.sFail);
      ClientNotRefused(c, s.log, s.cl, s.sv);
      ServerNotRefused(c, s.cl, s.sv);
    }
  }

  /** Failures and flushes touch nothing but the error part of an endpoint. */
  lemma ErrorContents(c: Config, s: State, x: Endpoint, y: Endpoint)
    requires Lists(c) && ContentsOk(c, s) && SameContents(s.cl, x) && SameContents(s.sv, y)
    ensures ContentsOk(c, s.(cl := x, sv := y))
  {
    ContentsFrame(c, s.log, s.cl, s.sv, x, y);
    ContentsMoved(c, s, x, y);
  }

  lemma ClientErrorSides(c: Config, s: State, x: Endpoint)
    requires Lists(c) && SidesOk(c, s) && (x == Break(s.cl) || (CanFlush(s.cl) && x == Flush(s.cl)))
    ensures SidesOk(c, s.(cl := x))
  {
    BreakKeeps(s.cl, s.sv);
    if CanFlush(s.cl) { FlushKeeps(s.cl, s.sv); }
    ClientFrame(c, s.cl, x, s.cpc, s.log, s.cFail);
  }

  lemma ServerErrorSides(c: Config, s: State, y: Endpoint)
    requires Lists(c) && SidesOk(c, s) && (y == Break(s.sv) || (CanFlush(s.sv) && y == Flush(s.sv)))
    ensures SidesOk(c, s.(sv := y))
  {
    AdapterOkSymmetric(s.cl, s.sv);
    BreakKeeps(s.sv, s.cl);
    if CanFlush(s.sv) { FlushKeeps(s.sv, s.cl); }
    ServerMoved(c, s, y);
  }

  lemma ClientBrokenKeeps(c: Config, s: State, x: Endpoint)
    requires Lists(c) && Inv(c, s) && (x == Break(s.cl) || (CanFlush(s.cl) && x == Flush(s.cl)))
    ensures Inv(c, s.(cl := x))
  {
    ClientErrorSides(c, s, x);
    ErrorContents(c, s, x, s.sv);
  }

  lemma ServerBrokenKeeps(c: Config, s: State, y: Endpoint)
    requires Lists(c) && Inv(c, s) && (y == Break(s.sv) || (CanFlush(s.sv) && y == Flush(s.sv)))
    ensures Inv(c, s.(sv := y))
  {
    ServerErrorSides(c, s, y);
    ErrorContents(c, s, s.cl, y);
  }

  /** A refusal breaks both queue pairs. */
  lemma RefusalKeeps(c: Config, s: State)
    requires Lists(c) && Inv(c, s)
    ensures Inv(c, s.(cl := Break(s.cl), sv := Break(s.sv)))
  {
    ClientBrokenKeeps(c, s, Break(s.cl));
    ServerBrokenKeeps(c, s.(cl := Break(s.cl)), Break(s.sv));
  }
}
