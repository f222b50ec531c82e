/** From the command line to the digests: the configuration that two carved endpoints give
    meets everything the run theorems ask for, even when the sides use different MR counts. */
module Benchmark {
  import opened Params
  import opened Memory
  import opened Buffers
  import opened Completions
  import opened Exchange
  import opened Nic
  import opened RdmaRun
  import opened RdmaInvariant
  import opened RdmaTheorems
  import opened RdmaStuck

  /** The slices of a carved request array, and the region list of its registrations. A
      registration is known by its remote key. */
  function Addresses(l: Layout): (r: seq<nat>)
    requires l.Shape()
    ensures |r| == l.count && forall n :: 0 <= n < l.count ==> r[n] == l.Addr(n)
  {
    seq(l.count, n requires 0 <= n < l.count => l.Addr(n))
  }

  function Keys(l: Layout): (r: seq<nat>)
    requires l.Shape()
    ensures |r| == l.count && forall n :: 0 <= n < l.count ==> r[n] == l.rkeys[l.MrOf(n)]
  {
    seq(l.count, n requires 0 <= n < l.count => l.rkeys[l.MrOf(n)])
  }

  function RegionsOf(l: Layout, verb: Verb): (r: seq<Region>)
    requires l.Shape()
    ensures |r| == l.mrCount
    ensures forall i :: 0 <= i < l.mrCount ==> r[i] == Region(l.bases[i], l.BlockLength(), l.rkeys[i], verb)
  {
    seq(l.mrCount, i requires 0 <= i < l.mrCount => Region(l.bases[i], l.BlockLength(), l.rkeys[i], verb))
  }

  /** One host: its carved blocks, its byte order, its queue depth and its memory. */
  datatype Side = Side(layout: Layout, order: Order, depth: nat, mem: seq<byte>)
  {
    ghost predicate Ready(p: Options) {
      && layout.Shape() && layout.BlocksApart() && layout.count == p.count && layout.length == p.length
      && (forall i :: 0 <= i < layout.mrCount ==> layout.bases[i] + layout.BlockLength() <= |mem|)
      && (forall i :: 0 <= i < layout.mrCount ==> layout.rkeys[i] < Pow256(KEY_BYTES))
      && |mem| <= Pow256(ADDR_BYTES) && depth >= MAX_WR
    }
  }

  function ConfigOf(p: Options, cl: Side, sv: Side, sha: seq<byte> -> seq<byte>): Config
    requires cl.layout.Shape() && sv.layout.Shape()
  {
    Config(p.verb, p.mode, p.count, p.length, p.repeat,
           Addresses(cl.layout), Addresses(sv.layout), Keys(sv.layout), RegionsOf(sv.layout, p.verb),
           cl.order, sv.order, cl.depth, sv.depth, cl.mem, sv.mem, sha)
  }

  lemma CarvedSlicesOk(p: Options, s: Side)
    requires s.Ready(p)
    ensures SlicesOk(Addresses(s.layout), p.length, |s.mem|)
  {
    var l := s.layout;
    var addr := Addresses(l);
    forall n | 0 <= n < |addr| ensures addr[n] + p.length <= |s.mem| {
      SliceInBlock(l, n);
      assert l.bases[l.MrOf(n)] + l.BlockLength() <= |s.mem|;
    }
    forall m, n | 0 <= m < n < |addr| ensures Apart(addr[m], p.length, addr[n], p.length) {
      SlicesApart(l, m, n);
    }
  }

  /** Every slice address the server sends is covered by the registration whose key goes with it. */
  lemma CarvedSlicesPermitted(p: Options, s: Side, n: nat)
    requires s.Ready(p) && n < p.count
    ensures Permits(RegionsOf(s.layout, p.verb), p.verb, Addresses(s.layout)[n], Keys(s.layout)[n], p.length)
  {
    var l := s.layout;
    SliceInBlock(l, n);
    assert Covers(RegionsOf(l, p.verb)[l.MrOf(n)], p.verb, l.Addr(n), l.rkeys[l.MrOf(n)], p.length);
  }

  lemma CarvedIsWellFormed(p: Options, cl: Side, sv: Side, sha: seq<byte> -> seq<byte>)
    requires Valid(p) && p.verb != NoVerb && cl.Ready(p) && sv.Ready(p) && p.count < Pow256(ADDR_BYTES)
    ensures WellFormed(ConfigOf(p, cl, sv, sha))
  {
    CarvedSlicesOk(p, cl);
    CarvedSlicesOk(p, sv);
    var c := ConfigOf(p, cl, sv, sha);
    forall n | 0 <= n < c.count ensures MrInfo(c.sAddr[n], c.sKey[n]).Fits() {
      assert c.sAddr[n] + c.length <= |c.sMem|;
    }
    forall n | 0 <= n < c.count ensures Permits(c.sRegions, c.verb, c.sAddr[n], c.sKey[n], c.length) {
      CarvedSlicesPermitted(p, sv, n);
    }
  }

  /** What the run is told about a host is what `allocate_buffer` left in its request array. */
  lemma CarvedIsTheLayout(requests: seq<Request>, verb: Verb, l: Layout)
    requires l.Shape() && |requests| == l.count && Carved(requests, verb, l, l.count)
    ensures Addresses(l) == seq(l.count, n requires 0 <= n < l.count => requests[n].buf)
    ensures Keys(l) == seq(l.count, n requires 0 <= n < l.count => requests[n].mr)
  {}

  /** A host that has just allocated its buffers is ready for the run, provided that no answer was
      `NULL`, that the blocks lie in its memory and that the keys are 32-bit. */
  lemma AllocatedIsReady(p: Options, s: Side, blocks: map<nat, nat>, regs: map<nat, Registration>)
    requires Valid(p) && |s.layout.bases| == |s.layout.rkeys| == p.mrCount
    requires s.layout == LayoutOf(p, s.layout.bases, s.layout.rkeys)
    requires Answers(blocks, regs, p.verb, s.layout) && NULL !in s.layout.rkeys
    requires forall i :: 0 <= i < p.mrCount ==> s.layout.bases[i] + s.layout.BlockLength() <= |s.mem|
    requires forall i :: 0 <= i < p.mrCount ==> s.layout.rkeys[i] < Pow256(KEY_BYTES)
    requires |s.mem| <= Pow256(ADDR_BYTES) && s.depth >= MAX_WR
    ensures s.Ready(p)
  {
    BasesDistinct(blocks, regs, p.verb, s.layout);
  }

  // ----- The round as code and the round in the run -----

  /** A round of the run's requests when nothing goes wrong. */
  function GoodCalls(c: Config): (calls: seq<Call>)
    ensures |calls| == c.count
  {
    seq(c.count, _ => Call(c.verb, true, true))
  }

  /** `send_and_wait_requests` returns exactly where the run does not get stuck in a round, and
      what it posts as request `n` is what the run has at that position of every round: slice `n`
      with the same signal flag. */
  lemma RoundsAgree(c: Config, r: nat, n: nat)
    requires WellFormed(c) && r < c.repeat && n < c.count
    ensures RoundReturns(GoodCalls(c), c.mode, c.cDepth) <==> !TooDeep(c)
    ensures var wr := ClientWr(c, Index(c, r, n));
            var log := RoundLog(GoodCalls(c), c.mode, c.count);
            |log| == c.count && log[n] == Posted(n, wr.signaled, true) && wr.src == Block(c.cAddr[n], c.length)
  {
    IndexFacts(c, r, n);
    GoodRound(GoodCalls(c), c.mode, c.cDepth);
    GoodLog(GoodCalls(c), c.mode, c.count, n);
  }

  /** The benchmark's promise, and exactly when it is kept. For accepted parameters, any verb, any
      mode, any split of either side into memory regions and any adapter: every run stays within a
      bound, whatever fails, and two printed digests are equal whichever queue pair fails, unless a
      post was refused, the verb is not Send and the mode is throughput. If the configuration is
      workable and nothing fails, the run can always go on until both sides are done, and then both
      have printed their digest. If it is not workable, no run prints one, again unless a post of
      the client's was refused. */
  lemma BenchmarkKeepsItsPromise(o: Options, cl: Side, sv: Side, sha: seq<byte> -> seq<byte>,
                                 states: seq<State>, steps: seq<Step>)
    requires Validate(o).Accepted? && o.verb != NoVerb
    requires var p := Validate(o).params; cl.Ready(p) && sv.Ready(p) && p.count < Pow256(ADDR_BYTES)
    requires IsRun(ConfigOf(Validate(o).params, cl, sv, sha), states, steps)
    ensures var p := Validate(o).params;
            var c := ConfigOf(p, cl, sv, sha);
            var s := states[|steps|];
            && |steps| <= 20 * (p.repeat * p.count) + 62
            && (s.cDigest.Some? && s.sDigest.Some? && (!s.cFail || p.verb == Send || p.mode == Latency) ==>
                  s.cDigest == s.sDigest)
            && (Workable(c) && FaultFree(steps) ==>
                  && (Final(s) || exists step :: Enabled(c, s, step) && !IsFault(step))
                  && (Final(s) ==> s.cDigest.Some? && s.sDigest.Some? && s.cDigest == s.sDigest))
            && (!Workable(c) && !s.cFail ==> s.cDigest == None && s.sDigest == None)
  {
    AcceptedIsValid(o);
    var p := Validate(o).params;
    var c := ConfigOf(p, cl, sv, sha);
    CarvedIsWellFormed(p, cl, sv, sha);
    RunsTerminate(c, states, steps);
    if Misread(c) {
      UnworkableNeverFinishes(c, states, steps, |steps|);
    } else {
      EndToEndAgreement(c, states, steps, |steps|);
      if !Workable(c) && !states[|steps|].cFail { UnworkableNeverFinishes(c, states, steps, |steps|); }
      if Workable(c) && FaultFree(steps) { OrderlyRun(c, states, steps); }
    }
  }

  lemma OrderlyRun(c: Config, states: seq<State>, steps: seq<Step>)
    requires WellFormed(c) && Workable(c) && IsRun(c, states, steps) && FaultFree(steps)
    ensures var s := states[|steps|];
            && !s.cFail && (Final(s) || exists step :: Enabled(c, s, step) && !IsFault(step))
            && (Final(s) ==> s.cDigest.Some? && s.sDigest.Some?)
  {
    assert steps[..|steps|] == steps;
    RunHealthy(c, states, steps, |steps|);
    FinalMemory(c, states, steps, |steps|);
    if !Final(states[|steps|]) { var step := RunGoesOn(c, states, steps); }
  }
}
