/** The round loops of both programs over whole runs: no request is skipped, whatever fails, and a
    receive that could not be posted is waited for without end. */
module RdmaRounds {
  import opened Params
  import opened Nic
  import opened RdmaRun
  import opened RdmaInvariant
  import opened RdmaBounds
  import opened RdmaTheorems

  // ----- The client -----

  /** By state `i` the client has been at this statement. */
  ghost predicate ClientBeen(states: seq<State>, i: nat, pc: ClientPc) {
    exists j :: 0 <= j <= i && j < |states| && states[j].cpc == pc
  }

  /** It has come to the post of request `n` of round `r`, and to its wait if it is one of those that
      are signaled: all of them in latency mode, the last of a round in throughput mode. */
  ghost predicate Dealt(c: Config, states: seq<State>, i: nat, r: nat, n: nat) {
    ClientBeen(states, i, Post(r, n)) &&
    (c.mode == Latency || n + 1 == c.count ==> ClientBeen(states, i, Poll(r, n)))
  }

  predicate Earlier(r: nat, n: nat, r': nat, n': nat) { r < r' || (r == r' && n < n') }

  /** The request comes before the client's position in its rounds. */
  predicate Behind(pc: ClientPc, r: nat, n: nat) {
    match pc
    case Post(r', n') => Earlier(r, n, r', n')
    case Poll(r', n') => Earlier(r, n, r', n')
    case PostEnd => true
    case PollEnd => true
    case ClientDone => true
    case _ => false
  }

  ghost predicate AllDealt(c: Config, states: seq<State>, i: nat) {
    forall r, n :: 0 <= r < c.repeat && 0 <= n < c.count ==> Dealt(c, states, i, r, n)
  }

  /** The client has not come to any request. */
  ghost predicate NoneYet(states: seq<State>, i: nat) {
    forall j :: 0 <= j <= i && j < |states| ==> !states[j].cpc.Post? && !states[j].cpc.Poll?
  }

  /** It stopped before its first request, because a post was refused or a receive failed. */
  ghost predicate StoppedEarly(states: seq<State>, i: nat)
    requires i < |states|
  {
    NoneYet(states, i) && (states[i].cFail || states[i].cl.lost > 0)
  }

  ghost predicate ClientTrail(c: Config, states: seq<State>, i: nat)
    requires i < |states|
  {
    var pc := states[i].cpc;
    && ClientInRange(c, pc)
    && (forall r, n :: 0 <= r < c.repeat && 0 <= n < c.count && Behind(pc, r, n) ==> Dealt(c, states, i, r, n))
    && (pc.Poll? ==> ClientBeen(states, i, Post(pc.r, pc.n)))
    && (Exchanging(pc) ==> NoneYet(states, i))
    && (pc.ClientAborted? ==> AllDealt(c, states, i) || StoppedEarly(states, i))
  }

  /** One step of the run, as the client's program counter sees it. */
  ghost predicate ClientTurn(c: Config, s: State, s': State) {
    && (s.cFail ==> s'.cFail) && s.cl.lost <= s'.cl.lost
    && (|| s'.cpc == s.cpc
        || (s.cpc.Post? && s'.cpc == AfterPost(c, s.cpc.r, s.cpc.n))
        || (s.cpc.Poll? && s'.cpc == AfterRequest(c, s.cpc.r, s.cpc.n))
        || (Exchanging(s.cpc) && (Exchanging(s'.cpc) || s'.cpc == Post(0, 0)))
        || (Exchanging(s.cpc) && s'.cpc.ClientAborted? && (s'.cFail || s'.cl.lost > 0))
        || (s.cpc.PostEnd? && (s'.cpc.PollEnd? || s'.cpc.ClientAborted?))
        || (s.cpc.PollEnd? && (s'.cpc.ClientDone? || s'.cpc.ClientAborted?)))
  }

  lemma ClientTurns(c: Config, s: State, step: Step)
    requires Enabled(c, s, step)
    ensures ClientTurn(c, s, Next(c, s, step))
  {
    if step == ClientProgram { ClientProgramTurns(c, s); } else { OtherStepTurns(c, s, step); }
  }

  lemma OtherStepTurns(c: Config, s: State, step: Step)
    requires Enabled(c, s, step) && step != ClientProgram
    ensures var s' := Next(c, s, step);
            && s'.cl.lost == s.cl.lost && (s.cFail ==> s'.cFail)
            && (s'.cpc == s.cpc || (s'.cpc == ClientPostFails(c, s).cpc && s'.cFail && ClientPosts(c, s)))
  {}

  lemma ClientProgramTurns(c: Config, s: State)
    requires ClientCan(c, s)
    ensures ClientTurn(c, s, ClientStep(c, s))
  {}

  lemma BeenStays(states: seq<State>, i: nat, pc: ClientPc)
    requires i + 1 < |states|
    ensures ClientBeen(states, i, pc) ==> ClientBeen(states, i + 1, pc)
    ensures states[i + 1].cpc == pc ==> ClientBeen(states, i + 1, pc)
  {}

  lemma DealtStays(c: Config, states: seq<State>, i: nat, r: nat, n: nat)
    requires i + 1 < |states| && Dealt(c, states, i, r, n)
    ensures Dealt(c, states, i + 1, r, n)
  {
    BeenStays(states, i, Post(r, n));
    BeenStays(states, i, Poll(r, n));
  }

  /** What a turn puts behind the client was behind it before, or is the request it was at. */
  lemma NewlyBehind(c: Config, s: State, s': State, r: nat, n: nat)
    requires ClientTurn(c, s, s') && ClientInRange(c, s.cpc) && Behind(s'.cpc, r, n)
    requires r < c.repeat && n < c.count
    ensures Behind(s.cpc, r, n) || ((s.cpc.Post? || s.cpc.Poll?) && s.cpc.r == r && s.cpc.n == n)
    ensures !Behind(s.cpc, r, n) ==> s.cpc.Post? ==> !Signals(c, n)
  {}

  lemma TurnInRange(c: Config, s: State, s': State)
    requires c.count > 0 && c.repeat > 0 && ClientTurn(c, s, s') && ClientInRange(c, s.cpc)
    ensures ClientInRange(c, s'.cpc)
  {}

  lemma DealtStep(c: Config, states: seq<State>, i: nat, r: nat, n: nat)
    requires i + 1 < |states| && ClientTrail(c, states, i) && ClientTurn(c, states[i], states[i + 1])
    requires r < c.repeat && n < c.count && Behind(states[i + 1].cpc, r, n)
    ensures Dealt(c, states, i + 1, r, n)
  {
    var s := states[i];
    NewlyBehind(c, s, states[i + 1], r, n);
    BeenStays(states, i, Post(r, n));
    BeenStays(states, i, Poll(r, n));
    if Behind(s.cpc, r, n) {
      DealtStays(c, states, i, r, n);
    } else {
      assert ClientBeen(states, i, s.cpc);
    }
  }

  lemma AbortStep(c: Config, states: seq<State>, i: nat)
    requires i + 1 < |states| && ClientTrail(c, states, i) && ClientTurn(c, states[i], states[i + 1])
    requires states[i + 1].cpc.ClientAborted?
    ensures AllDealt(c, states, i + 1) || StoppedEarly(states, i + 1)
  {
    var pc, next := states[i].cpc, i + 1;
    if pc.PostEnd? || pc.PollEnd? || AllDealt(c, states, i) {
      forall r, n | 0 <= r < c.repeat && 0 <= n < c.count ensures Dealt(c, states, next, r, n) {
        assert Behind(pc, r, n) || AllDealt(c, states, i);
        DealtStays(c, states, i, r, n);
      }
    } else {
      assert NoneYet(states, i);
    }
  }

  lemma TrailStep(c: Config, states: seq<State>, i: nat)
    requires c.count > 0 && c.repeat > 0 && i + 1 < |states|
    requires ClientTrail(c, states, i) && ClientTurn(c, states[i], states[i + 1])
    ensures ClientTrail(c, states, i + 1)
  {
    var s, s' := states[i], states[i + 1];
    TurnInRange(c, s, s');
    forall r, n | 0 <= r < c.repeat && 0 <= n < c.count && Behind(s'.cpc, r, n)
      ensures Dealt(c, states, i + 1, r, n)
    {
      DealtStep(c, states, i, r, n);
    }
    if s'.cpc.Poll? {
      assert ClientBeen(states, i, s.cpc);
      BeenStays(states, i, Post(s'.cpc.r, s'.cpc.n));
    }
    if s'.cpc.ClientAborted? { AbortStep(c, states, i); }
  }

  lemma {:induction false} RunTrail(c: Config, states: seq<State>, steps: seq<Step>, i: nat)
    requires c.count > 0 && c.repeat > 0 && IsRun(c, states, steps) && i < |states|
    ensures ClientTrail(c, states, i)
  {
    if i > 0 {
      RunTrail(c, states, steps, i - 1);
      ClientTurns(c, states[i - 1], steps[i - 1]);
      TrailStep(c, states, i - 1);
    }
  }

  /** In every run, whatever is refused or fails, a client that has got to the terminating message
      has gone through every request of every round and waited for each signaled one; and a client
      that has given up has, too, or it gave up in the exchange, before its first request, because a
      post of its own was refused or a receive failed. */
  lemma ClientSkipsNothing(c: Config, states: seq<State>, steps: seq<Step>, i: nat)
    requires WellFormed(c) && IsRun(c, states, steps) && i < |states|
    ensures states[i].cpc in {PostEnd, PollEnd, ClientDone} ==> AllDealt(c, states, i)
    ensures states[i].cpc.ClientAborted? ==> AllDealt(c, states, i) || StoppedEarly(states, i)
  {
    RunTrail(c, states, steps, i);
    if states[i].cpc in {PostEnd, PollEnd, ClientDone} {
      forall r, n | 0 <= r < c.repeat && 0 <= n < c.count ensures Dealt(c, states, i, r, n) {
        assert Behind(states[i].cpc, r, n);
      }
    }
  }

  // ----- The server of the Send verb -----

  ghost predicate ServerBeen(states: seq<State>, i: nat, pc: ServerPc) {
    exists j :: 0 <= j <= i && j < |states| && states[j].spc == pc
  }

  predicate ServerBehind(pc: ServerPc, r: nat, n: nat) {
    match pc
    case RecvSlice(r', n') => Earlier(r, n, r', n')
    case WaitSlice(r', n') => Earlier(r, n, r', n')
    case _ => true
  }

  ghost predicate ServerTrail(c: Config, states: seq<State>, i: nat)
    requires i < |states|
  {
    var pc := states[i].spc;
    && ServerInRange(c, pc) && !ServerExchanging(pc)
    && forall r, n :: 0 <= r < c.repeat && 0 <= n < c.count && ServerBehind(pc, r, n) ==>
         ServerBeen(states, i, WaitSlice(r, n))
  }

  ghost predicate ServerTurn(c: Config, s: State, s': State) {
    || s'.spc == s.spc
    || (s.spc.RecvSlice? && s'.spc == WaitSlice(s.spc.r, s.spc.n))
    || (s.spc.WaitSlice? && s'.spc == AfterSlice(c, s.spc.r, s.spc.n))
    || (s.spc.RecvEnd? && (s'.spc.WaitEnd? || s'.spc.ServerAborted?))
    || (s.spc.WaitEnd? && (s'.spc.ServerDone? || s'.spc.ServerAborted?))
  }

  lemma ServerTurns(c: Config, s: State, step: Step)
    requires Enabled(c, s, step) && !ServerExchanging(s.spc)
    ensures ServerTurn(c, s, Next(c, s, step))
  {}

  lemma ServerTrailStep(c: Config, states: seq<State>, i: nat)
    requires c.count > 0 && c.repeat > 0 && i + 1 < |states|
    requires ServerTrail(c, states, i) && ServerTurn(c, states[i], states[i + 1])
    ensures ServerTrail(c, states, i + 1)
  {
    var pc, pc' := states[i].spc, states[i + 1].spc;
    forall r, n | 0 <= r < c.repeat && 0 <= n < c.count && ServerBehind(pc', r, n)
      ensures ServerBeen(states, i + 1, WaitSlice(r, n))
    {
      assert ServerBehind(pc, r, n) || pc == WaitSlice(r, n);
      assert ServerBehind(pc, r, n) ==> ServerBeen(states, i, WaitSlice(r, n));
    }
  }

  /** Every receive of every round is waited for, whether or not it could be posted. */
  lemma ServerSkipsNothing(c: Config, states: seq<State>, steps: seq<Step>, i: nat, r: nat, n: nat)
    requires WellFormed(c) && c.verb == Send && IsRun(c, states, steps) && i < |states|
    requires r < c.repeat && n < c.count
    ensures states[i].spc in {RecvEnd, WaitEnd, ServerDone, ServerAborted} ==> ServerBeen(states, i, WaitSlice(r, n))
  {
    RunServerTrail(c, states, steps, i);
    assert states[i].spc in {RecvEnd, WaitEnd, ServerDone, ServerAborted} ==> ServerBehind(states[i].spc, r, n);
  }

  lemma {:induction false} RunServerTrail(c: Config, states: seq<State>, steps: seq<Step>, i: nat)
    requires c.count > 0 && c.repeat > 0 && c.verb == Send && IsRun(c, states, steps) && i < |states|
    ensures ServerTrail(c, states, i)
  {
    if i > 0 {
      RunServerTrail(c, states, steps, i - 1);
      ServerTurns(c, states[i - 1], steps[i - 1]);
      ServerTrailStep(c, states, i - 1);
    }
  }

  /** Between its receives the server has taken every one that it posted. */
  ghost predicate AllTaken(x: Endpoint, pc: ServerPc) {
    && x.taken + x.lost <= |x.rq| <= x.taken + x.lost + 1
    && (pc.RecvSlice? || pc.RecvEnd? ==> |x.rq| == x.taken + x.lost)
  }

  lemma TakenStep(c: Config, s: State, step: Step)
    requires Enabled(c, s, step) && AllTaken(s.sv, s.spc) && !ServerExchanging(s.spc) && CursorsOk(s.sv)
    ensures AllTaken(Next(c, s, step).sv, Next(c, s, step).spc)
  {
    if step == ServerProgram { TakenProgram(c, s); } else { TakenElsewhere(c, s, step); }
  }

  lemma TakenProgram(c: Config, s: State)
    requires ServerCan(c, s) && AllTaken(s.sv, s.spc) && !ServerExchanging(s.spc) && CursorsOk(s.sv)
    ensures AllTaken(ServerQueues(c, s), ServerNext(c, s))
  {}

  lemma TakenElsewhere(c: Config, s: State, step: Step)
    requires Enabled(c, s, step) && step != ServerProgram
    ensures var s' := Next(c, s, step);
            && s'.sv.rq == s.sv.rq && s'.sv.taken == s.sv.taken && s'.sv.lost == s.sv.lost
            && (s'.spc == s.spc || s'.spc.WaitSlice? || s'.spc.ServerAborted?)
  {}

  lemma RunCursors(c: Config, states: seq<State>, steps: seq<Step>, i: nat)
    requires WellFormed(c) && IsRun(c, states, steps) && i < |states|
    ensures CursorsOk(states[i].sv)
  {
    RunTracked(c, states, steps, i);
  }

  lemma {:induction false} RunTaken(c: Config, states: seq<State>, steps: seq<Step>, i: nat)
    requires WellFormed(c) && c.verb == Send && IsRun(c, states, steps) && i < |states|
    ensures AllTaken(states[i].sv, states[i].spc)
  {
    if i > 0 {
      RunTaken(c, states, steps, i - 1);
      RunCursors(c, states, steps, i - 1);
      RunServerTrail(c, states, steps, i - 1);
      TakenStep(c, states[i - 1], steps[i - 1]);
    }
  }

  /** The server waits for a slice for which it has posted no receive. */
  ghost predicate SpinsAt(s: State, r: nat, n: nat) {
    s.spc == WaitSlice(r, n) && s.sv.taken + s.sv.lost == |s.sv.rq|
  }

  lemma SpinStep(c: Config, s: State, step: Step, r: nat, n: nat)
    requires Enabled(c, s, step) && SpinsAt(s, r, n) && CursorsOk(s.sv)
    ensures SpinsAt(Next(c, s, step), r, n)
  {}

  lemma SpinBegins(c: Config, s: State)
    requires ServerPosts(c, s) && s.spc.RecvSlice? && AllTaken(s.sv, s.spc)
    ensures SpinsAt(ServerPostFails(c, s), s.spc.r, s.spc.n)
  {}

  /** A receive that the library refuses is waited for all the same, so the server stays there in
      every later state of the run, whatever else happens and even if its queue pair fails. */
  lemma RefusedReceiveSpins(c: Config, states: seq<State>, steps: seq<Step>, i: nat, j: nat)
    requires WellFormed(c) && c.verb == Send && IsRun(c, states, steps) && i < j < |states|
    requires steps[i] == ServerNoPost && states[i].spc.RecvSlice?
    ensures states[j].spc == WaitSlice(states[i].spc.r, states[i].spc.n) && states[j].sDigest == None
  {
    var s := states[i];
    RunTaken(c, states, steps, i);
    SpinBegins(c, s);
    assert states[i + 1] == Next(c, s, steps[i]);
    SpinsOn(c, states, steps, i + 1, j, s.spc.r, s.spc.n);
    RunInv(c, states, steps, j);
  }

  lemma {:induction false} SpinsOn(c: Config, states: seq<State>, steps: seq<Step>, i: nat, j: nat, r: nat, n: nat)
    requires WellFormed(c) && c.verb == Send && IsRun(c, states, steps) && i <= j < |states|
    requires SpinsAt(states[i], r, n)
    ensures SpinsAt(states[j], r, n)
  {
    if i < j {
      SpinsOn(c, states, steps, i, j - 1, r, n);
      RunCursors(c, states, steps, j - 1);
      SpinStep(c, states[j - 1], steps[j - 1], r, n);
    }
  }
}
