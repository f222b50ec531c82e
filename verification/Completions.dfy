/** Posting and completing requests on one send queue: `dccs_rdma_send_comp`,
    `send_and_wait_requests`. */
module Completions {
  import opened Params
  import opened Timing

  // ----- dccs_rdma_send_comp -----

  datatype Wc = Wc(id: nat, ok: bool)

  /** How a call ends: with a count, with -1, still polling when the schedule given to it runs
      out, or by writing behind the caller's array of `num` entries. */
  datatype Outcome = Got(sum: nat) | Failed | Waiting(sum: nat) | Overrun

  /** What successive calls of `ibv_poll_cq` may return when `left` completions are still to
      come: an error, or at most `num` entries and at most what is left. */
  ghost predicate Legal(polls: seq<int>, num: nat, left: nat) {
    polls == [] ||
    (polls[0] <= num && polls[0] <= left &&
     (polls[0] >= 0 ==> Legal(polls[1..], num, left - polls[0])))
  }

  predicate AllOk(cq: seq<Wc>, lo: nat, hi: nat)
    requires lo <= hi <= |cq|
  {
    forall i :: lo <= i < hi ==> cq[i].ok
  }

  /** The loop, as a function of the poll results. Every poll asks for `num` entries. */
  function Harvest(cq: seq<Wc>, polls: seq<int>, num: nat, sum: nat): Outcome
    requires sum <= |cq|
    decreases |polls|
  {
    if sum >= num then Got(sum)
    else if polls == [] then Waiting(sum)
    else if polls[0] == 0 then Harvest(cq, polls[1..], num, sum)
    else if polls[0] < 0 then Failed
    else if sum + polls[0] > num then Overrun
    else if sum + polls[0] > |cq| || !AllOk(cq, sum, sum + polls[0]) then Failed
    else Harvest(cq, polls[1..], num, sum + polls[0])
  }

  method SendComp(cq: seq<Wc>, polls: seq<int>, num: nat, wcs: array<Wc>) returns (r: Outcome)
    requires wcs.Length == num && Legal(polls, num, |cq|)
    modifies wcs
    ensures r == Harvest(cq, polls, num, 0)
    // Completions are stored in order, and only where they belong.
    ensures r.Got? ==> r.sum == num <= |cq| && wcs[..] == cq[..num]
    ensures r.Waiting? ==> r.sum < num && r.sum <= |cq| && wcs[..r.sum] == cq[..r.sum]
  {
    var sum, next := 0, 0;
    while sum < num
      invariant 0 <= sum <= num && sum <= |cq| && 0 <= next <= |polls|
      invariant Legal(polls[next..], num, |cq| - sum)
      invariant Harvest(cq, polls, num, 0) == Harvest(cq, polls[next..], num, sum)
      invariant wcs[..sum] == cq[..sum]
      decreases |polls| - next
    {
      if next == |polls| { return Waiting(sum); }
      var rv := polls[next];
      assert polls[next..][0] == rv && polls[next..][1..] == polls[next + 1..];
      next := next + 1;
      if rv < 0 { return Failed; }
      if sum + rv > num { return Overrun; }
      var n := sum;
      while n < sum + rv
        invariant sum <= n <= sum + rv
        invariant wcs[..n] == cq[..n] && AllOk(cq, sum, n)
      {
        wcs[n] := cq[n];
        assert wcs[..n + 1] == wcs[..n] + [wcs[n]];
        if !wcs[n].ok { return Failed; }
        n := n + 1;
      }
      sum := sum + rv;
    }
    assert wcs[..] == wcs[..num];
    return Got(sum);
  }

  /** With no more completions outstanding than asked for, no schedule overruns, and an error is
      reported only for a failed poll or a failed request. */
  lemma {:induction false} HarvestSafe(cq: seq<Wc>, polls: seq<int>, num: nat, sum: nat)
    requires sum <= |cq| && Legal(polls, num, |cq| - sum) && (|cq| <= num || (num <= 1 && sum <= num))
    ensures Harvest(cq, polls, num, sum) != Overrun
    ensures Harvest(cq, polls, num, sum) == Failed ==>
              (exists i :: 0 <= i < |polls| && polls[i] < 0) || !AllOk(cq, 0, |cq|)
    decreases |polls|
  {
    if sum < num && polls != [] && polls[0] >= 0 && sum + polls[0] <= num && AllOk(cq, sum, sum + polls[0]) {
      HarvestSafe(cq, polls[1..], num, sum + polls[0]);
      assert forall i :: 0 <= i < |polls[1..]| ==> polls[1..][i] == polls[i + 1];
    } else if polls != [] && polls[0] < 0 {
      assert polls[0] < 0;
    }
  }

  /** Any number of empty or partial polls that together bring `num` good completions ends in
      success with exactly `num`. */
  lemma {:induction false} HarvestComplete(cq: seq<Wc>, polls: seq<int>, num: nat, sum: nat)
    requires sum <= |cq| == num && Legal(polls, num, |cq| - sum) && AllOk(cq, 0, |cq|)
    requires forall i :: 0 <= i < |polls| ==> polls[i] >= 0
    requires sum + Sum(polls) == num
    ensures Harvest(cq, polls, num, sum) == Got(num)
    decreases |polls|
  {
    if sum < num {
      assert forall i :: 0 <= i < |polls[1..]| ==> polls[1..][i] == polls[i + 1];
      HarvestComplete(cq, polls[1..], num, sum + polls[0]);
    }
  }

  ghost function Sum(polls: seq<int>): int {
    if polls == [] then 0 else polls[0] + Sum(polls[1..])
  }

  ghost predicate NeverOverruns(num: nat, outstanding: nat) {
    forall cq: seq<Wc>, polls ::
      |cq| == outstanding && Legal(polls, num, |cq|) ==> Harvest(cq, polls, num, 0) != Overrun
  }

  /** Asking for `num` again after a partial poll is safe exactly when at most one completion is
      asked for or no more than `num` are outstanding. */
  lemma HarvestSafeIff(num: nat, outstanding: nat)
    ensures NeverOverruns(num, outstanding) <==> num <= 1 || outstanding <= num
  {
    if num <= 1 || outstanding <= num {
      forall cq: seq<Wc>, polls | |cq| == outstanding && Legal(polls, num, |cq|)
        ensures Harvest(cq, polls, num, 0) != Overrun
      {
        HarvestSafe(cq, polls, num, 0);
      }
    } else {
      var cq := seq(outstanding, i => Wc(0, true));
      var polls: seq<int> := [1, num];
      assert polls[1..] == [num] && polls[1..][1..] == [];
      assert AllOk(cq, 0, 1);
      assert Legal(polls[1..], num, |cq| - 1);
      assert Legal(polls, num, |cq|);
      assert Harvest(cq, polls[1..], num, 1) == Overrun;
      assert Harvest(cq, polls, num, 0) == Overrun;
    }
  }

  /** With at most `num` outstanding, a schedule that delivers every completion decides the call:
      it fails if one of them is bad, succeeds if there are `num`, and otherwise polls for ever. */
  lemma {:induction false} HarvestOutcome(cq: seq<Wc>, polls: seq<int>, num: nat, sum: nat)
    requires sum <= |cq| <= num && Legal(polls, num, |cq| - sum) && AllOk(cq, 0, sum)
    requires NoFailedPoll(polls) && sum + Sum(polls) == |cq|
    ensures Harvest(cq, polls, num, sum) ==
            if !AllOk(cq, 0, |cq|) then Failed else if |cq| == num then Got(num) else Waiting(|cq|)
    decreases |polls|
  {
    if sum < num && polls != [] && AllOk(cq, sum, sum + polls[0]) {
      assert forall i :: 0 <= i < |polls[1..]| ==> polls[1..][i] == polls[i + 1];
      HarvestOutcome(cq, polls[1..], num, sum + polls[0]);
    }
  }

  /** A poll that fails ends the call, unless enough good completions came before it. */
  lemma {:induction false} FailedPollEnds(cq: seq<Wc>, polls: seq<int>, num: nat, sum: nat)
    requires sum <= |cq| && Legal(polls, num, |cq| - sum) && !NoFailedPoll(polls)
    ensures !Harvest(cq, polls, num, sum).Waiting?
    decreases |polls|
  {
    if sum < num && polls[0] >= 0 && sum + polls[0] <= num && AllOk(cq, sum, sum + polls[0]) {
      assert exists i :: 0 <= i < |polls[1..]| && polls[1..][i] < 0 by {
        var i :| 0 <= i < |polls| && polls[i] < 0;
        assert polls[1..][i - 1] < 0;
      }
      FailedPollEnds(cq, polls[1..], num, sum + polls[0]);
    }
  }

  ghost predicate NoFailedPoll(polls: seq<int>) { forall i :: 0 <= i < |polls| ==> polls[i] >= 0 }

  // ----- The send queue -----

  /** A posted request: its index in the request array, whether it is signaled, and the status
      with which it will complete. */
  datatype Posted = Posted(index: nat, signaled: bool, ok: bool)

  /** A signaled request produces a completion, and so does any request that fails. */
  predicate Completes(wr: Posted) { wr.signaled || !wr.ok }

  /** The oldest request that produces a completion, or the length if none does. */
  function FirstCompleting(held: seq<Posted>): (k: nat)
    ensures k <= |held| && (k < |held| ==> Completes(held[k]))
    ensures forall i :: 0 <= i < k ==> !Completes(held[i])
  {
    if held == [] || Completes(held[0]) then 0 else FirstCompleting(held[1..]) + 1
  }

  datatype Completion = Spinning | Completed(ok: bool)

  /** The send queue: requests whose slots are held, oldest first, everything ever posted, and the
      most slots that were ever held at once. Of every attempt to post, and of every wait when it
      ended, it keeps the number of times the clock had been read. */
  class SendQueue {
    const depth: nat
    const clock: Clock
    var held: seq<Posted>
    var log: seq<Posted>
    ghost var peak: nat
    ghost var tries: seq<nat>
    ghost var waits: seq<nat>

    constructor (depth: nat, clock: Clock)
      ensures this.depth == depth && this.clock == clock
      ensures held == [] && log == [] && peak == 0 && tries == [] && waits == []
    {
      this.depth, this.clock := depth, clock;
      held, log, peak := [], [], 0;
      tries, waits := [], [];
    }

    /** `rdma_post_*`: fails when no slot is free, or when the library does not accept it. */
    method Post(wr: Posted, accepts: bool) returns (rv: int)
      modifies this
      ensures rv == 0 || rv == -1
      ensures rv == 0 <==> old(|held|) < depth && accepts
      ensures rv == 0 ==> held == old(held) + [wr] && log == old(log) + [wr]
      ensures rv != 0 ==> held == old(held) && log == old(log)
      ensures peak == if old(peak) >= |held| then old(peak) else |held|
      ensures tries == old(tries) + [|clock.readings|] && waits == old(waits)
    {
      tries := tries + [|clock.readings|];
      rv := -1;
      if |held| < depth && accepts {
        held, log := held + [wr], log + [wr];
        rv := 0;
      }
      if peak < |held| { peak := |held|; }
    }

    /** `dccs_rdma_send_comp(id, 1, &wc)`: spins until a completion arrives, which frees the slots
        up to its request. With no completion to come it spins for ever. */
    method Complete() returns (c: Completion)
      modifies this
      ensures log == old(log) && peak == old(peak) && tries == old(tries)
      ensures waits == old(waits) + [|clock.readings|]
      ensures c == Spinning <==> forall i :: 0 <= i < |old(held)| ==> !old(held)[i].signaled && old(held)[i].ok
      ensures c == Spinning <==> FirstCompleting(old(held)) == |old(held)|
      ensures c == Spinning ==> held == old(held)
      ensures c != Spinning ==>
                var k := FirstCompleting(old(held)); c.ok == old(held)[k].ok && held == old(held)[k + 1..]
    {
      waits := waits + [|clock.readings|];
      var k := 0;
      while k < |held| && !Completes(held[k])
        invariant 0 <= k <= |held| && FirstCompleting(held) == k + FirstCompleting(held[k..])
      {
        assert held[k..][1..] == held[k + 1..];
        k := k + 1;
      }
      if k == |held| { return Spinning; }
      c := Completed(held[k].ok);
      held := held[k + 1..];
    }

    /** `dccs_rdma_send_comp(id, num, wc)` with `num` completions outstanding at most: it never
        overruns the array, and when `num` good ones come they free the queue. */
    method CompleteAll(polls: seq<int>, num: nat, wcs: array<Wc>) returns (r: Outcome)
      requires wcs.Length == num && |held| <= num && AllSignaled(held) && Legal(polls, num, |held|)
      modifies this`held, this`waits, wcs
      ensures r == Harvest(Wcs(old(held)), polls, num, 0) && r != Overrun
      ensures waits == old(waits) + [|clock.readings|]
      ensures r.Got? ==> r.sum == num == |old(held)| && held == [] && wcs[..] == Wcs(old(held))
      ensures !r.Got? ==> held == old(held)
    {
      HarvestSafe(Wcs(held), polls, num, 0);
      r := SendComp(Wcs(held), polls, num, wcs);
      waits := waits + [|clock.readings|];
      if r.Got? { held := []; }
    }
  }

  ghost predicate AllSignaled(s: seq<Posted>) { forall i :: 0 <= i < |s| ==> s[i].signaled }

  predicate AllGood(s: seq<Posted>) { forall i :: 0 <= i < |s| ==> s[i].ok }

  /** The completions of a queue of signaled requests: one each, in order. */
  function Wcs(s: seq<Posted>): (r: seq<Wc>)
    ensures |r| == |s| && forall i :: 0 <= i < |s| ==> r[i] == Wc(s[i].index, s[i].ok)
  {
    seq(|s|, i requires 0 <= i < |s| => Wc(s[i].index, s[i].ok))
  }

  // ----- send_and_wait_requests -----

  /** One request of a round and what becomes of it: whether the library accepts the post when
      there is a slot, and the status of its completion. */
  datatype Call = Call(verb: Verb, accepts: bool, ok: bool)

  /** A round either returns minus its failures, or spins for ever at some request. */
  datatype RoundEnd = Returned(rv: int) | Spins(n: nat)

  predicate SignalsAt(mode: Mode, count: nat, n: nat) { mode == Latency || n == count - 1 }

  predicate Posts(call: Call) { call.verb != NoVerb && call.accepts }

  /** The posts among the first `n` that the library accepts, flagged as the code flags them. */
  function RoundLog(calls: seq<Call>, mode: Mode, n: nat): (r: seq<Posted>)
    requires n <= |calls|
    ensures |r| <= n
  {
    if n == 0 then []
    else if !Posts(calls[n - 1]) then RoundLog(calls, mode, n - 1)
    else RoundLog(calls, mode, n - 1) + [Posted(n - 1, SignalsAt(mode, |calls|, n - 1), calls[n - 1].ok)]
  }

  /** Those of them that find a slot when nothing is retired in between. */
  function Fitting(calls: seq<Call>, mode: Mode, depth: nat, n: nat): (r: seq<Posted>)
    requires n <= |calls|
    ensures |r| <= depth && r <= RoundLog(calls, mode, n)
  {
    var all := RoundLog(calls, mode, n);
    if |all| <= depth then all else all[..depth]
  }

  /** The posts among the first `n` that fail. */
  function FailedPosts(calls: seq<Call>, mode: Mode, depth: nat, n: nat): nat
    requires n <= |calls|
  {
    if n == 0 then 0
    else FailedPosts(calls, mode, depth, n - 1) +
         if PostFails(calls, mode, depth, n - 1) then 1 else 0
  }

  predicate PostFails(calls: seq<Call>, mode: Mode, depth: nat, n: nat)
    requires n < |calls|
  {
    calls[n].verb != NoVerb && !(calls[n].accepts && |RoundLog(calls, mode, n)| < depth)
  }

  function BadCompletions(calls: seq<Call>, n: nat): nat
    requires n <= |calls|
  {
    if n == 0 then 0 else BadCompletions(calls, n - 1) + if calls[n - 1].ok then 0 else 1
  }

  /** When a round returns at all. In latency mode every request must be posted; in throughput
      mode the last one, unless an earlier one brings an error. */
  predicate RoundReturns(calls: seq<Call>, mode: Mode, depth: nat) {
    |calls| > 0 ==>
      if mode == Latency then depth > 0 && forall n :: 0 <= n < |calls| ==> Posts(calls[n])
      else var held := Fitting(calls, mode, depth, |calls|); FirstCompleting(held) < |held|
  }

  /** What a round reports. */
  function Failures(calls: seq<Call>, mode: Mode, depth: nat): nat
    requires RoundReturns(calls, mode, depth)
  {
    var count := |calls|;
    if mode == Latency then BadCompletions(calls, count)
    else if count == 0 then 0
    else
      var held := Fitting(calls, mode, depth, count);
      FailedPosts(calls, mode, depth, count - 1) +
      if PostFails(calls, mode, depth, count - 1) || !held[FirstCompleting(held)].ok then 1 else 0
  }

  // ----- A round from any queue -----

  /** How a round ends, what it leaves held, what it posted, and the most it held at once. */
  datatype Round = Round(end: RoundEnd, held: seq<Posted>, posted: seq<Posted>, most: nat)

  /** The queue after request `n` is posted, if it can be. */
  function Queued(held: seq<Posted>, calls: seq<Call>, mode: Mode, depth: nat, n: nat): (q: seq<Posted>)
    requires n < |calls|
    ensures held <= q && |q| <= |held| + 1
  {
    if Posts(calls[n]) && |held| < depth then held + [Posted(n, SignalsAt(mode, |calls|, n), calls[n].ok)] else held
  }

  /** What becomes of a request: the wait for it never ends, or the loop goes on. */
  datatype Handling = Stuck | GoesOn(held: seq<Posted>, failed: bool)

  /** A post that fails is counted, a signaled request is waited for, and a bad completion is
      counted, too. */
  function Handled(held: seq<Posted>, calls: seq<Call>, mode: Mode, depth: nat, n: nat): Handling
    requires n < |calls|
  {
    var q := Queued(held, calls, mode, depth, n);
    var failed := calls[n].verb != NoVerb && |q| == |held|;
    var k := FirstCompleting(q);
    if !SignalsAt(mode, |calls|, n) then GoesOn(q, failed)
    else if k == |q| then Stuck
    else GoesOn(q[k + 1..], failed || !q[k].ok)
  }

  /** One request, then the rest of the round. */
  function Then(failed: bool, posted: seq<Posted>, size: nat, rest: Round): Round {
    Round(if rest.end.Returned? && failed then Returned(rest.end.rv - 1) else rest.end,
          rest.held, posted + rest.posted, if size >= rest.most then size else rest.most)
  }

  /** The round from request `n` on, with `held` in the queue. */
  function RoundFrom(held: seq<Posted>, calls: seq<Call>, mode: Mode, depth: nat, n: nat): Round
    requires n <= |calls|
    decreases |calls| - n
  {
    if n == |calls| then Round(Returned(0), held, [], |held|)
    else
      var q := Queued(held, calls, mode, depth, n);
      match Handled(held, calls, mode, depth, n)
      case Stuck => Round(Spins(n), q, q[|held|..], |q|)
      case GoesOn(left, failed) => Then(failed, q[|held|..], |q|, RoundFrom(left, calls, mode, depth, n + 1))
  }

  /** `rest` is what is left of `whole` after `failedCount` failures and these posts. */
  ghost predicate Resumes(whole: Round, failedCount: nat, posted: seq<Posted>, rest: Round) {
    && whole.held == rest.held && whole.posted == posted + rest.posted && whole.most >= rest.most
    && (if rest.end.Returned? then whole.end == Returned(rest.end.rv - failedCount) else whole.end == rest.end)
  }

  lemma ResumesThen(whole: Round, failedCount: nat, posted: seq<Posted>, failed: bool, more: seq<Posted>, size: nat,
                    rest: Round)
    requires Resumes(whole, failedCount, posted, Then(failed, more, size, rest))
    ensures Resumes(whole, failedCount + if failed then 1 else 0, posted + more, rest) && whole.most >= size
  {
    assert posted + (more + rest.posted) == posted + more + rest.posted;
  }

  lemma ResumesStep(whole: Round, failedCount: nat, posted: seq<Posted>, held: seq<Posted>, calls: seq<Call>,
                    mode: Mode, depth: nat, n: nat)
    requires n < |calls| && Resumes(whole, failedCount, posted, RoundFrom(held, calls, mode, depth, n))
    ensures var q := Queued(held, calls, mode, depth, n);
            var h := Handled(held, calls, mode, depth, n);
            && whole.most >= |q|
            && (h.Stuck? ==> whole.end == Spins(n) && whole.held == q && whole.posted == posted + q[|held|..])
            && (h.GoesOn? ==> Resumes(whole, failedCount + (if h.failed then 1 else 0), posted + q[|held|..],
                                      RoundFrom(h.held, calls, mode, depth, n + 1)))
  {
    var q, h := Queued(held, calls, mode, depth, n), Handled(held, calls, mode, depth, n);
    if h.GoesOn? {
      ResumesThen(whole, failedCount, posted, h.failed, q[|held|..], |q|, RoundFrom(h.held, calls, mode, depth, n + 1));
    }
  }

  method PostOne(q: SendQueue, calls: seq<Call>, mode: Mode, n: nat, signaled: bool) returns (failed: bool)
    requires n < |calls| && signaled == SignalsAt(mode, |calls|, n)
    modifies q
    ensures q.held == Queued(old(q.held), calls, mode, q.depth, n)
    ensures q.log == old(q.log) + q.held[|old(q.held)|..]
    ensures failed == (calls[n].verb != NoVerb && |q.held| == |old(q.held)|)
    ensures q.peak <= if old(q.peak) >= |q.held| then old(q.peak) else |q.held|
  {
    failed := false;
    if calls[n].verb != NoVerb {
      var rv := q.Post(Posted(n, signaled, calls[n].ok), calls[n].accepts);
      failed := rv != 0;
    }
  }

  /** One request: its post, and its wait if it is signaled. */
  method OneRequest(q: SendQueue, calls: seq<Call>, mode: Mode, n: nat, signaled: bool)
    returns (spins: bool, failed: bool)
    requires n < |calls| && signaled == SignalsAt(mode, |calls|, n)
    modifies q
    ensures var now := Queued(old(q.held), calls, mode, q.depth, n);
            var h := Handled(old(q.held), calls, mode, q.depth, n);
            && q.log == old(q.log) + now[|old(q.held)|..]
            && (if spins then h == Stuck && q.held == now else h == GoesOn(q.held, failed))
            && q.peak <= if old(q.peak) >= |now| then old(q.peak) else |now|
  {
    spins := false;
    failed := PostOne(q, calls, mode, n, signaled);
    if signaled {
      var c := q.Complete();
      if c == Spinning { spins := true; }
      else if !c.ok { failed := true; }
    }
  }

  /** Before request `n`: what was done so far, and what is left, make up the whole round. */
  ghost predicate RoundAt(q: SendQueue, calls: seq<Call>, mode: Mode, n: nat, failedCount: nat, whole: Round,
                          log: seq<Posted>, posted: seq<Posted>, peak: nat)
    requires n <= |calls|
    reads q
  {
    && q.log == log + posted && Resumes(whole, failedCount, posted, RoundFrom(q.held, calls, mode, q.depth, n))
    && q.peak <= if peak >= whole.most then peak else whole.most
  }

  method RoundRequest(q: SendQueue, calls: seq<Call>, mode: Mode, n: nat, signaled: bool, ghost failedCount: nat,
                      ghost whole: Round, ghost log: seq<Posted>, ghost posted: seq<Posted>, ghost peak: nat)
    returns (spins: bool, failed: bool, ghost now: seq<Posted>)
    requires n < |calls| && signaled == SignalsAt(mode, |calls|, n)
    requires RoundAt(q, calls, mode, n, failedCount, whole, log, posted, peak)
    modifies q
    ensures spins ==> whole.end == Spins(n) && q.held == whole.held && q.log == log + whole.posted
    ensures spins ==> q.peak <= if peak >= whole.most then peak else whole.most
    ensures !spins ==>
              RoundAt(q, calls, mode, n + 1, failedCount + (if failed then 1 else 0), whole, log, now, peak)
  {
    ResumesStep(whole, failedCount, posted, q.held, calls, mode, q.depth, n);
    now := posted + Queued(q.held, calls, mode, q.depth, n)[|q.held|..];
    spins, failed := OneRequest(q, calls, mode, n, signaled);
  }

  /** `send_and_wait_requests`, whatever is in the queue. */
  method SendAndWaitRequests(q: SendQueue, calls: seq<Call>, mode: Mode) returns (r: RoundEnd)
    modifies q
    ensures var round := RoundFrom(old(q.held), calls, mode, q.depth, 0);
            && r == round.end && q.held == round.held && q.log == old(q.log) + round.posted
            && q.peak <= if old(q.peak) >= round.most then old(q.peak) else round.most
  {
    var failedCount: int := 0;
    var count := |calls|;
    var signaled := mode == Latency;
    ghost var whole := RoundFrom(q.held, calls, mode, q.depth, 0);
    ghost var posted: seq<Posted> := [];
    RoundBegins(q, calls, mode);
    var n := 0;
    while n < count
      invariant 0 <= n <= count && failedCount >= 0 && (n < count ==> signaled == (mode == Latency))
      invariant RoundAt(q, calls, mode, n, failedCount, whole, old(q.log), posted, old(q.peak))
    {
      if n == count - 1 { signaled := true; }
      var spins, failed;
      spins, failed, posted :=
        RoundRequest(q, calls, mode, n, signaled, failedCount, whole, old(q.log), posted, old(q.peak));
      if spins { return Spins(n); }
      if failed { failedCount := failedCount + 1; }
      n := n + 1;
    }
    RoundOver(q, calls, mode, failedCount, whole, old(q.log), posted, old(q.peak));
    return Returned(0 - failedCount);
  }

  lemma RoundBegins(q: SendQueue, calls: seq<Call>, mode: Mode)
    ensures RoundAt(q, calls, mode, 0, 0, RoundFrom(q.held, calls, mode, q.depth, 0), q.log, [], q.peak)
  {}

  lemma RoundOver(q: SendQueue, calls: seq<Call>, mode: Mode, failedCount: nat, whole: Round, log: seq<Posted>,
                  posted: seq<Posted>, peak: nat)
    requires RoundAt(q, calls, mode, |calls|, failedCount, whole, log, posted, peak)
    ensures whole.end == Returned(0 - failedCount) && q.held == whole.held && q.log == log + whole.posted
    ensures q.peak <= if peak >= whole.most then peak else whole.most
  {
    assert posted + [] == posted;
  }

  // ----- A round from an empty queue -----

  /** A round in latency mode, of which the requests before `n` have been dealt with: it returns
      exactly when every request is posted, and counts the bad completions; it never holds more
      than one request. */
  ghost predicate LatencyEnds(calls: seq<Call>, depth: nat, n: nat, round: Round)
    requires n <= |calls|
  {
    && (round.end.Returned? <==> forall i :: n <= i < |calls| ==> depth > 0 && Posts(calls[i]))
    && (round.end.Returned? ==>
          && round.end.rv == BadCompletions(calls, n) - BadCompletions(calls, |calls|)
          && round.held == []
          && RoundLog(calls, Latency, n) + round.posted == RoundLog(calls, Latency, |calls|))
    && round.most <= 1
  }

  ghost predicate LatencyFrom(calls: seq<Call>, depth: nat, n: nat)
    requires n <= |calls|
  {
    LatencyEnds(calls, depth, n, RoundFrom([], calls, Latency, depth, n))
  }

  lemma {:induction false} LatencyRound(calls: seq<Call>, depth: nat, n: nat)
    requires n <= |calls|
    ensures LatencyFrom(calls, depth, n)
    decreases |calls| - n, 1
  {
    if n == |calls| {
      LatencyOver(calls, depth);
    } else {
      LatencyNext(calls, depth, n);
    }
  }

  lemma {:induction false} LatencyNext(calls: seq<Call>, depth: nat, n: nat)
    requires n < |calls|
    ensures LatencyFrom(calls, depth, n)
    decreases |calls| - n, 0
  {
    LatencyRound(calls, depth, n + 1);
    LatencyStep(calls, depth, n);
  }

  lemma LatencyStep(calls: seq<Call>, depth: nat, n: nat)
    requires n < |calls| && LatencyFrom(calls, depth, n + 1)
    ensures LatencyFrom(calls, depth, n)
  {
    LatencyUnfolds(calls, depth, n);
    if Posts(calls[n]) && depth > 0 {
      AwaitedStep(calls, depth, n, RoundFrom([], calls, Latency, depth, n + 1));
    } else {
      StuckStep(calls, depth, n);
    }
  }

  lemma LatencyOver(calls: seq<Call>, depth: nat)
    ensures LatencyFrom(calls, depth, |calls|)
  {}

  lemma StuckStep(calls: seq<Call>, depth: nat, n: nat)
    requires n < |calls| && !(depth > 0 && Posts(calls[n]))
    ensures LatencyEnds(calls, depth, n, Round(Spins(n), [], [], 0))
  {}

  lemma LatencyUnfolds(calls: seq<Call>, depth: nat, n: nat)
    requires n < |calls|
    ensures RoundFrom([], calls, Latency, depth, n) ==
            if Posts(calls[n]) && depth > 0
            then Then(!calls[n].ok, [Posted(n, true, calls[n].ok)], 1, RoundFrom([], calls, Latency, depth, n + 1))
            else Round(Spins(n), [], [], 0)
  {
    HandledAlone(calls, depth, n);
    var q := Queued([], calls, Latency, depth, n);
    assert q[0..] == q;
  }

  lemma HandledAlone(calls: seq<Call>, depth: nat, n: nat)
    requires n < |calls|
    ensures var h := Handled([], calls, Latency, depth, n);
            var q := Queued([], calls, Latency, depth, n);
            if Posts(calls[n]) && depth > 0
            then h == GoesOn([], !calls[n].ok) && q == [Posted(n, true, calls[n].ok)] else h == Stuck && q == []
  {
    var q := Queued([], calls, Latency, depth, n);
    assert |q| == 1 ==> q[1..] == [];
  }

  lemma AwaitedStep(calls: seq<Call>, depth: nat, n: nat, rest: Round)
    requires n < |calls| && depth > 0 && Posts(calls[n]) && LatencyEnds(calls, depth, n + 1, rest)
    ensures LatencyEnds(calls, depth, n, Then(!calls[n].ok, [Posted(n, true, calls[n].ok)], 1, rest))
  {
    var one := [Posted(n, true, calls[n].ok)];
    assert RoundLog(calls, Latency, n) + (one + rest.posted) == RoundLog(calls, Latency, n + 1) + rest.posted;
  }

  /** A round in throughput mode, of which the requests before `n` have been posted. */
  ghost predicate ThroughputEnds(calls: seq<Call>, depth: nat, n: nat, round: Round)
    requires n < |calls|
  {
    var last := |calls| - 1;
    var all := Fitting(calls, Throughput, depth, |calls|);
    var k := FirstCompleting(all);
    && (round.end.Returned? <==> k < |all|)
    && (round.end.Returned? ==>
          && round.end.rv == FailedPosts(calls, Throughput, depth, n) - FailedPosts(calls, Throughput, depth, last)
                             - (if PostFails(calls, Throughput, depth, last) || !all[k].ok then 1 else 0)
          && round.held == all[k + 1..])
    && Fitting(calls, Throughput, depth, n) + round.posted == all
    && round.most <= |calls|
  }

  function ThroughputFrom(calls: seq<Call>, depth: nat, n: nat): Round
    requires n <= |calls|
  {
    RoundFrom(Fitting(calls, Throughput, depth, n), calls, Throughput, depth, n)
  }

  lemma {:induction false} ThroughputRound(calls: seq<Call>, depth: nat, n: nat)
    requires n < |calls|
    ensures ThroughputEnds(calls, depth, n, ThroughputFrom(calls, depth, n))
    decreases |calls| - n
  {
    if n < |calls| - 1 {
      ThroughputRound(calls, depth, n + 1);
      ThroughputStep(calls, depth, n);
    } else {
      ThroughputLast(calls, depth);
    }
  }

  lemma ThroughputStep(calls: seq<Call>, depth: nat, n: nat)
    requires n + 1 < |calls|
    requires ThroughputEnds(calls, depth, n + 1, ThroughputFrom(calls, depth, n + 1))
    ensures ThroughputEnds(calls, depth, n, ThroughputFrom(calls, depth, n))
  {
    ThroughputUnfolds(calls, depth, n);
    QueuedFits(calls, depth, n);
    UnsignaledStep(calls, depth, n, ThroughputFrom(calls, depth, n + 1));
  }

  lemma ThroughputLast(calls: seq<Call>, depth: nat)
    requires |calls| > 0
    ensures ThroughputEnds(calls, depth, |calls| - 1, ThroughputFrom(calls, depth, |calls| - 1))
  {
    var last := |calls| - 1;
    ThroughputUnfolds(calls, depth, last);
    QueuedFits(calls, depth, last);
    LastStep(calls, depth, ThroughputFrom(calls, depth, last));
  }

  lemma ThroughputUnfolds(calls: seq<Call>, depth: nat, n: nat)
    requires n < |calls|
    ensures var held, q := Fitting(calls, Throughput, depth, n), Fitting(calls, Throughput, depth, n + 1);
            var failed, k := PostFails(calls, Throughput, depth, n), FirstCompleting(q);
            && |held| <= |q|
            && RoundFrom(held, calls, Throughput, depth, n) ==
               if n < |calls| - 1 then Then(failed, q[|held|..], |q|, RoundFrom(q, calls, Throughput, depth, n + 1))
               else if k == |q| then Round(Spins(n), q, q[|held|..], |q|)
               else Then(failed || !q[k].ok, q[|held|..], |q|, Round(Returned(0), q[k + 1..], [], |q[k + 1..]|))
  {
    QueuedFits(calls, depth, n);
  }

  lemma UnsignaledStep(calls: seq<Call>, depth: nat, n: nat, rest: Round)
    requires n + 1 < |calls| && ThroughputEnds(calls, depth, n + 1, rest)
    requires var held, q := Fitting(calls, Throughput, depth, n), Fitting(calls, Throughput, depth, n + 1);
             |held| <= |q| && held + q[|held|..] == q
    ensures var held, q := Fitting(calls, Throughput, depth, n), Fitting(calls, Throughput, depth, n + 1);
            ThroughputEnds(calls, depth, n, Then(PostFails(calls, Throughput, depth, n), q[|held|..], |q|, rest))
  {
    var held, q := Fitting(calls, Throughput, depth, n), Fitting(calls, Throughput, depth, n + 1);
    assert held + (q[|held|..] + rest.posted) == (held + q[|held|..]) + rest.posted;
  }

  lemma LastStep(calls: seq<Call>, depth: nat, round: Round)
    requires |calls| > 0
    requires var last := |calls| - 1;
             var held, all := Fitting(calls, Throughput, depth, last), Fitting(calls, Throughput, depth, |calls|);
             var k := FirstCompleting(all);
             && |held| <= |all| && held + all[|held|..] == all
             && round == if k == |all| then Round(Spins(last), all, all[|held|..], |all|)
                         else Then(PostFails(calls, Throughput, depth, last) || !all[k].ok, all[|held|..], |all|,
                                   Round(Returned(0), all[k + 1..], [], |all[k + 1..]|))
    ensures ThroughputEnds(calls, depth, |calls| - 1, round)
  {
    var held, all := Fitting(calls, Throughput, depth, |calls| - 1), Fitting(calls, Throughput, depth, |calls|);
    assert all[|held|..] + [] == all[|held|..];
  }

  lemma QueuedFits(calls: seq<Call>, depth: nat, n: nat)
    requires n < |calls|
    ensures var held := Fitting(calls, Throughput, depth, n);
            var q := Queued(held, calls, Throughput, depth, n);
            && q == Fitting(calls, Throughput, depth, n + 1) && held + q[|held|..] == q
            && (calls[n].verb != NoVerb && |q| == |held| <==> PostFails(calls, Throughput, depth, n))
  {}

  /** In throughput mode a good completion is the last request's, and frees the whole queue. */
  lemma LastSignaled(calls: seq<Call>, depth: nat)
    requires |calls| > 0
    ensures var held := Fitting(calls, Throughput, depth, |calls|);
            var k := FirstCompleting(held);
            k < |held| && held[k].ok ==> k == |held| - 1
  {
    forall i | 0 <= i < |RoundLog(calls, Throughput, |calls|)| - 1
      ensures !RoundLog(calls, Throughput, |calls|)[i].signaled
    {
      OnlyLastSignaled(calls, |calls|, i);
    }
  }

  lemma {:induction false} OnlyLastSignaled(calls: seq<Call>, n: nat, i: nat)
    requires n <= |calls| && i < |RoundLog(calls, Throughput, n)|
    ensures RoundLog(calls, Throughput, n)[i].signaled ==> n == |calls| && i == |RoundLog(calls, Throughput, n)| - 1
  {
    if Posts(calls[n - 1]) && i == |RoundLog(calls, Throughput, n)| - 1 {
    } else {
      OnlyLastSignaled(calls, n - 1, i);
    }
  }

  /** From an empty queue a round returns exactly when a completion comes for every wait, reports
      minus the number of requests that failed, and, when none did, has posted everything and leaves
      the queue empty. The queue never holds more than `count` requests, or one in latency mode. */
  lemma EmptyRound(calls: seq<Call>, mode: Mode, depth: nat)
    ensures var round := RoundFrom([], calls, mode, depth, 0);
            && (round.end.Returned? <==> RoundReturns(calls, mode, depth))
            && (round.end.Returned? ==> round.end.rv == 0 - Failures(calls, mode, depth))
            && (round.end == Returned(0) ==> round.held == [] && round.posted == RoundLog(calls, mode, |calls|))
            && round.most <= if mode == Latency then 1 else |calls|
  {
    if mode == Latency {
      LatencyRound(calls, depth, 0);
    } else if |calls| > 0 {
      ThroughputRound(calls, depth, 0);
      LastSignaled(calls, depth);
      if RoundReturns(calls, mode, depth) && Failures(calls, mode, depth) == 0 { NothingDropped(calls, depth); }
    }
  }

  /** A round without failures has found a slot for every post. */
  lemma NothingDropped(calls: seq<Call>, depth: nat)
    requires RoundReturns(calls, Throughput, depth) && Failures(calls, Throughput, depth) == 0
    ensures Fitting(calls, Throughput, depth, |calls|) == RoundLog(calls, Throughput, |calls|)
  {
    if |calls| > 0 { SlotForEach(calls, depth, |calls|); }
  }

  lemma {:induction false} SlotForEach(calls: seq<Call>, depth: nat, n: nat)
    requires n <= |calls| && FailedPosts(calls, Throughput, depth, n) == 0
    ensures |RoundLog(calls, Throughput, n)| <= depth
  {
    if n > 0 { SlotForEach(calls, depth, n - 1); }
  }

  /** A round in throughput mode returns exactly when its last request is posted - accepted, with
      fewer than `depth` accepted before it - or one of the requests that found a slot fails, because
      a failed request brings a completion though it is not signaled. So a round that is too long
      for the queue does get through if enough of its other posts are refused. */
  lemma ReturnsIffLastPosted(calls: seq<Call>, depth: nat)
    requires |calls| > 0
    ensures RoundReturns(calls, Throughput, depth) <==>
            || (Posts(calls[|calls| - 1]) && |RoundLog(calls, Throughput, |calls| - 1)| < depth)
            || !AllGood(Fitting(calls, Throughput, depth, |calls|))
  {
    var last, all := |calls| - 1, RoundLog(calls, Throughput, |calls|);
    var held := Fitting(calls, Throughput, depth, |calls|);
    forall i | 0 <= i < |held| ensures Completes(held[i]) <==> (i == |all| - 1 && Posts(calls[last])) || !held[i].ok {
      OnlyLastSignaled(calls, |calls|, i);
      if !Posts(calls[last]) { OnlyLastSignaled(calls, last, i); }
    }
    assert Posts(calls[last]) && |all| <= depth ==> Completes(held[|all| - 1]);
  }

  /** When the library accepts every post and every request succeeds, a round returns exactly when
      the queue has a slot (latency) or as many slots as there are requests (throughput), and
      then it reports no failure. */
  lemma GoodRound(calls: seq<Call>, mode: Mode, depth: nat)
    requires |calls| > 0 && forall n :: 0 <= n < |calls| ==> Posts(calls[n]) && calls[n].ok
    ensures RoundReturns(calls, mode, depth) <==> if mode == Latency then depth > 0 else |calls| <= depth
    ensures RoundReturns(calls, mode, depth) ==> Failures(calls, mode, depth) == 0
  {
    GoodCounts(calls, mode, depth, |calls|);
    if mode == Throughput {
      var held := Fitting(calls, mode, depth, |calls|);
      forall i | 0 <= i < |held| ensures Completes(held[i]) <==> i == |calls| - 1 {
        GoodLog(calls, mode, |calls|, i);
      }
      assert |calls| <= depth ==> Completes(held[|calls| - 1]);
      if |calls| <= depth { GoodCounts(calls, mode, depth, |calls| - 1); }
    }
  }

  lemma {:induction false} GoodLog(calls: seq<Call>, mode: Mode, n: nat, i: nat)
    requires i < n <= |calls| && forall m :: 0 <= m < |calls| ==> Posts(calls[m]) && calls[m].ok
    ensures |RoundLog(calls, mode, n)| == n
    ensures RoundLog(calls, mode, n)[i] == Posted(i, SignalsAt(mode, |calls|, i), true)
  {
    if n > 1 { GoodLog(calls, mode, n - 1, if i < n - 1 then i else 0); }
  }

  lemma {:induction false} GoodCounts(calls: seq<Call>, mode: Mode, depth: nat, n: nat)
    requires n <= |calls| && forall m :: 0 <= m < |calls| ==> Posts(calls[m]) && calls[m].ok
    ensures |RoundLog(calls, mode, n)| == n && BadCompletions(calls, n) == 0
    ensures n <= depth ==> FailedPosts(calls, mode, depth, n) == 0
  {
    if n > 0 { GoodCounts(calls, mode, depth, n - 1); }
  }
}
