/** The control-signal loop (`control_main.c`): one write per slot against absolute deadlines. */
module Pacing {
  import opened Memory
  import opened Completions
  import opened Timing

  const SLOT_NS: nat := 100000

  // ----- The code -----

  /** `wait_until` */
  method WaitUntil(clock: Clock, target: nat)
    modifies clock
    ensures clock.now >= target && clock.now >= old(clock.now) && old(clock.readings) <= clock.readings
  {
    var t := clock.GetCycles();
    while t < target
      invariant t == clock.now >= old(clock.now) && old(clock.readings) <= clock.readings
      decreases target - t, clock.idle
    {
      t := clock.GetCycles();
    }
  }

  // ----- One slot's writes and their completions -----

  /** How a slot ends: with all completions, with a failed one, or by polling for ever. */
  datatype SlotEnd = Finished | Broke | Hangs

  /** The writes of a slot up to the first post that fails. */
  function Written(calls: seq<Call>, depth: nat, n: nat): (r: seq<Posted>)
    requires n <= |calls|
    ensures |r| <= n && |r| <= depth && AllSignaled(r)
    ensures |r| == n <==> n <= depth && forall i :: 0 <= i < n ==> calls[i].accepts
    ensures forall i :: 0 <= i < |r| ==> r[i] == Posted(i, true, calls[i].ok)
  {
    if n == 0 then []
    else
      var before := Written(calls, depth, n - 1);
      if |before| == n - 1 < depth && calls[n - 1].accepts then before + [Posted(n - 1, true, calls[n - 1].ok)]
      else before
  }

  /** A slot polls for `count` completions even after a post has failed. A count of zero would wait
      for ever: the code repeats the call while it returns 0. */
  function EndOfSlot(calls: seq<Call>, polls: seq<int>, depth: nat): SlotEnd {
    match Harvest(Wcs(Written(calls, depth, |calls|)), polls, |calls|, 0)
    case Got(sum) => if sum == 0 then Hangs else Finished
    case Waiting(_) => Hangs
    case _ => Broke
  }

  /** `ibv_poll_cq` delivers what was posted in any portions, with any number of empty polls, unless
      it fails itself. */
  ghost predicate Delivers(polls: seq<int>, calls: seq<Call>, depth: nat) {
    var posted := |Written(calls, depth, |calls|)|;
    Legal(polls, |calls|, posted) && (NoFailedPoll(polls) ==> Sum(polls) == posted)
  }

  /** As long as no poll fails, a slot finishes exactly when all its writes were posted and succeed,
      breaks the loop when a posted one fails, and hangs otherwise. A slot with a failed poll does
      not hang. */
  lemma SlotEnds(calls: seq<Call>, polls: seq<int>, depth: nat)
    requires Delivers(polls, calls, depth)
    ensures var posted := Written(calls, depth, |calls|);
            if !NoFailedPoll(polls) then |calls| > 0 ==> EndOfSlot(calls, polls, depth) != Hangs
            else EndOfSlot(calls, polls, depth) ==
                 if !AllGood(posted) then Broke
                 else if |calls| > 0 && |posted| == |calls| then Finished else Hangs
  {
    var cq := Wcs(Written(calls, depth, |calls|));
    if NoFailedPoll(polls) {
      HarvestOutcome(cq, polls, |calls|, 0);
    } else {
      FailedPollEnds(cq, polls, |calls|, 0);
      HarvestSafe(cq, polls, |calls|, 0);
      if Harvest(cq, polls, |calls|, 0).Got? { GotIsGood(cq, polls, |calls|, 0); }
    }
  }

  /** A count is only ever returned for that many good completions. */
  lemma {:induction false} GotIsGood(cq: seq<Wc>, polls: seq<int>, num: nat, sum: nat)
    requires sum <= |cq| && sum <= num && Harvest(cq, polls, num, sum).Got? && AllOk(cq, 0, sum)
    ensures Harvest(cq, polls, num, sum).sum == num <= |cq| && AllOk(cq, 0, num)
    decreases |polls|
  {
    if sum < num { GotIsGood(cq, polls[1..], num, sum + polls[0]); }
  }

  /** With a willing library and a working link a slot finishes exactly when its writes fit. */
  lemma SlotFinishes(calls: seq<Call>, polls: seq<int>, depth: nat)
    requires forall i :: 0 <= i < |calls| ==> calls[i].accepts && calls[i].ok
    requires Delivers(polls, calls, depth) && NoFailedPoll(polls)
    ensures EndOfSlot(calls, polls, depth) == if 0 < |calls| <= depth then Finished else Hangs
  {
    SlotEnds(calls, polls, depth);
  }

  /** The posts a slot attempts: up to and including the first that fails. */
  function Attempted(calls: seq<Call>, depth: nat): nat {
    var posted := |Written(calls, depth, |calls|)|;
    if posted < |calls| then posted + 1 else posted
  }

  /** A post fails for want of room or because the library refuses it, and for nothing else. */
  lemma {:induction false} WrittenIs(calls: seq<Call>, depth: nat, n: nat)
    requires n <= |calls|
    ensures var posted := |Written(calls, depth, n)|;
            && (forall i :: 0 <= i < posted ==> calls[i].accepts)
            && (posted < n ==> posted == depth || !calls[posted].accepts)
  {
    if n > 0 { WrittenIs(calls, depth, n - 1); }
  }

  /** Every one of these attempts, given by the number of clock readings before it, follows a
      reading of at least `deadline`. */
  ghost predicate OnTime(readings: seq<nat>, tries: seq<nat>, deadline: nat) {
    forall j :: 0 <= j < |tries| ==> 0 < tries[j] <= |readings| && readings[tries[j] - 1] >= deadline
  }

  /** `begin` is the reading that the last attempt follows. */
  ghost predicate BeginsAt(readings: seq<nat>, tries: seq<nat>, begin: nat) {
    |tries| > 0 ==> var last := tries[|tries| - 1]; 0 < last <= |readings| && readings[last - 1] == begin
  }

  /** One more reading, and one more attempt after it. */
  lemma OneMoreTry(readings: seq<nat>, tries: seq<nat>, t: nat, deadline: nat)
    requires OnTime(readings, tries, deadline) && t >= deadline
    ensures var now := readings + [t];
            OnTime(now, tries + [|now|], deadline) && BeginsAt(now, tries + [|now|], t)
  {}

  /** One signaled write, after a clock reading. */
  method WriteOne(clock: Clock, q: SendQueue, calls: seq<Call>, i: nat, ghost tries: seq<nat>, ghost deadline: nat)
    returns (begin: nat, rv: int)
    requires i < |calls| && q.held == Written(calls, q.depth, i) && |q.held| == i
    requires q.clock == clock && OnTime(clock.readings, tries, deadline) && deadline <= clock.now
    modifies clock, q
    ensures old(clock.now) <= begin == clock.now && old(clock.readings) <= clock.readings
    ensures q.held == Written(calls, q.depth, i + 1) && |q.held| == if rv == 0 then i + 1 else i
    ensures q.log == old(q.log) + q.held[i..]
    ensures q.peak <= if old(q.peak) >= |q.held| then old(q.peak) else |q.held|
    ensures q.tries == old(q.tries) + [|clock.readings|] && q.waits == old(q.waits)
    ensures OnTime(clock.readings, tries + [|clock.readings|], deadline)
    ensures BeginsAt(clock.readings, tries + [|clock.readings|], begin)
  {
    begin := clock.GetCycles();
    OneMoreTry(old(clock.readings), tries, begin, deadline);
    rv := q.Post(Posted(i, true, calls[i].ok), calls[i].accepts);
  }

  /** The inner loop: one such write per request, up to the first that cannot be posted. */
  method WriteAll(clock: Clock, q: SendQueue, calls: seq<Call>) returns (begin: nat, ghost tries: seq<nat>)
    requires q.held == [] && q.clock == clock
    modifies clock, q
    ensures q.held == Written(calls, q.depth, |calls|) && q.log == old(q.log) + q.held
    ensures q.peak <= if old(q.peak) >= |calls| then old(q.peak) else |calls|
    ensures old(clock.now) <= begin == clock.now && old(clock.readings) <= clock.readings
    ensures q.tries == old(q.tries) + tries && |tries| == Attempted(calls, q.depth) && q.waits == old(q.waits)
    ensures OnTime(clock.readings, tries, old(clock.now)) && BeginsAt(clock.readings, tries, begin)
  {
    begin, tries := clock.now, [];
    var i := 0;
    while i < |calls|
      invariant 0 <= i <= |calls| && old(clock.now) <= begin == clock.now && old(clock.readings) <= clock.readings
      invariant |q.held| == i && q.held == Written(calls, q.depth, i) && q.log == old(q.log) + q.held
      invariant q.peak <= if old(q.peak) >= |calls| then old(q.peak) else |calls|
      invariant q.tries == old(q.tries) + tries && |tries| == i && q.waits == old(q.waits)
      invariant OnTime(clock.readings, tries, old(clock.now)) && BeginsAt(clock.readings, tries, begin)
    {
      var rv;
      begin, rv := WriteOne(clock, q, calls, i, tries, old(clock.now));
      tries := tries + [|clock.readings|];
      i := i + 1;
      if rv != 0 {
        WrittenStops(calls, q.depth, i, |calls|);
        break;
      }
    }
  }

  lemma {:induction false} WrittenStops(calls: seq<Call>, depth: nat, m: nat, n: nat)
    requires m <= n <= |calls| && |Written(calls, depth, m)| < m
    ensures Written(calls, depth, n) == Written(calls, depth, m)
  {
    if m < n { WrittenStops(calls, depth, m, n - 1); }
  }

  /** The clock readings taken before each attempted post of a slot, and before its wait ended. */
  datatype SlotTrace = SlotTrace(tries: seq<nat>, wait: nat)

  /** Every post of the slot is attempted after its deadline, and the wait follows them all. */
  ghost predicate InOrder(readings: seq<nat>, slot: SlotTrace, calls: seq<Call>, depth: nat, deadline: nat) {
    && |slot.tries| == Attempted(calls, depth) && OnTime(readings, slot.tries, deadline)
    && slot.wait <= |readings| && forall j :: 0 <= j < |slot.tries| ==> slot.tries[j] <= slot.wait
  }

  /** `begin` is the reading taken before the last post, `finish` the one taken after the wait. */
  ghost predicate Stamped(readings: seq<nat>, slot: SlotTrace, begin: nat, finish: nat) {
    && |slot.tries| > 0 && BeginsAt(readings, slot.tries, begin)
    && slot.tries[|slot.tries| - 1] <= slot.wait < |readings| && readings[slot.wait] == finish
  }

  /** The writes of a slot and the wait for `count` completions, from an empty queue. The queue
      never holds more than `count` requests, the completion array is never overrun, and a slot
      that finishes leaves the queue empty. */
  method WriteSlot(clock: Clock, q: SendQueue, calls: seq<Call>, polls: seq<int>, wcs: array<Wc>)
    returns (r: SlotEnd, begin: nat, ghost slot: SlotTrace)
    requires q.held == [] && q.clock == clock && wcs.Length == |calls| && Delivers(polls, calls, q.depth)
    modifies clock, q, wcs
    ensures r == EndOfSlot(calls, polls, q.depth)
    ensures r.Finished? ==> |calls| > 0 && q.held == [] && wcs[..] == Wcs(Written(calls, q.depth, |calls|))
    ensures |q.held| <= |calls| && q.log == old(q.log) + Written(calls, q.depth, |calls|)
    ensures q.peak <= if old(q.peak) >= |calls| then old(q.peak) else |calls|
    ensures old(clock.now) <= begin == clock.now && old(clock.readings) <= clock.readings
    ensures q.tries == old(q.tries) + slot.tries && q.waits == old(q.waits) + [slot.wait]
    ensures slot.wait == |clock.readings| && InOrder(clock.readings, slot, calls, q.depth, old(clock.now))
    ensures BeginsAt(clock.readings, slot.tries, begin)
  {
    ghost var tries;
    begin, tries := WriteAll(clock, q, calls);
    slot := SlotTrace(tries, |clock.readings|);
    var c := q.CompleteAll(polls, |calls|, wcs);
    match c
    case Got(sum) => r := if sum == 0 then Hangs else Finished;
    case Failed => r := Broke;
    case _ => r := Hangs;
  }

  // ----- The loop -----

  datatype LoopEnd = DivideFault | Ran | BrokeAt(n: nat) | HangsAt(n: nat)

  /** Iterations keep to their slots: none starts before its deadline, and they do not overlap. */
  ghost predicate Paced(start: seq<nat>, end: seq<nat>, t0: nat, n: nat) {
    && n <= |start| && n <= |end|
    && (forall i :: 0 <= i < n ==> start[i] >= t0 + Times(i + 1, SLOT_NS) && start[i] <= end[i])
    && (forall i, j :: 0 <= i < j < n ==> end[i] <= start[j])
  }

  /** Stores the readings of iteration `n`: the one taken at its last write, and the one taken at
      its end if it got there. */
  method Record(start: array<nat>, end: array<nat>, ghost t0: nat, n: nat, begin: nat, finish: nat, finished: bool)
    requires start != end && n < start.Length && n < end.Length && Paced(start[..], end[..], t0, n)
    requires t0 + Times(n + 1, SLOT_NS) <= begin <= finish && (n > 0 ==> end[n - 1] <= begin)
    modifies start, end
    ensures Paced(start[..], end[..], t0, if finished then n + 1 else n)
    ensures start[n] == begin && (finished ==> end[n] == finish)
    ensures forall i :: 0 <= i < n ==> start[i] == old(start[i]) && end[i] == old(end[i])
  {
    start[n] := begin;
    if finished { end[n] := finish; }
    assert start[..][n] == start[n] && end[..][n] == end[n];
    assert start[..n] == old(start[..n]) && end[..n] == old(end[..n]);
  }

  /** Waits for the slot, writes, awaits the completions, reads the clock. */
  method RunSlot(clock: Clock, q: SendQueue, calls: seq<Call>, polls: seq<int>, wcs: array<Wc>, target: nat)
    returns (r: SlotEnd, begin: nat, finish: nat, ghost slot: SlotTrace)
    requires q.held == [] && q.clock == clock && wcs.Length == |calls| && Delivers(polls, calls, q.depth)
    modifies clock, q, wcs
    ensures r == EndOfSlot(calls, polls, q.depth) && (r.Finished? ==> q.held == [])
    ensures q.peak <= if old(q.peak) >= |calls| then old(q.peak) else |calls|
    ensures target <= begin <= finish == clock.now && old(clock.now) <= begin
    ensures old(clock.readings) <= clock.readings && q.log == old(q.log) + Written(calls, q.depth, |calls|)
    ensures q.tries == old(q.tries) + slot.tries && q.waits == old(q.waits) + [slot.wait]
    ensures InOrder(clock.readings, slot, calls, q.depth, target)
    ensures r.Finished? ==> |calls| > 0 && Stamped(clock.readings, slot, begin, finish)
  {
    WaitUntil(clock, target);
    r, begin, slot := WriteSlot(clock, q, calls, polls, wcs);
    finish := begin;
    if r.Finished? { finish := clock.GetCycles(); }
  }

  // ----- What the loop does to the queue -----

  /** The queue's history. */
  datatype Trace = Trace(log: seq<Posted>, tries: seq<nat>, waits: seq<nat>)

  ghost function TraceOf(q: SendQueue): Trace
    reads q
  {
    Trace(q.log, q.tries, q.waits)
  }

  function With(trace: Trace, posted: seq<Posted>, slot: SlotTrace): Trace {
    Trace(trace.log + posted, trace.tries + slot.tries, trace.waits + [slot.wait])
  }

  /** The history after these slots: their writes, attempts and waits, in this order. */
  function After(was: Trace, calls: seq<seq<Call>>, depth: nat, slots: seq<SlotTrace>): Trace
    requires |slots| <= |calls|
  {
    if slots == [] then was
    else
      var n := |slots| - 1;
      With(After(was, calls, depth, slots[..n]), Written(calls[n], depth, |calls[n]|), slots[n])
  }

  /** A slot that finishes has posted all its writes, and they succeeded. */
  lemma FinishedIsFull(calls: seq<Call>, polls: seq<int>, depth: nat)
    requires Delivers(polls, calls, depth) && EndOfSlot(calls, polls, depth).Finished?
    ensures |Written(calls, depth, |calls|)| == |calls| > 0 && AllGood(Written(calls, depth, |calls|))
  {
    GotIsGood(Wcs(Written(calls, depth, |calls|)), polls, |calls|, 0);
  }

  ghost predicate FullSlot(calls: seq<Call>, depth: nat, count: nat) {
    |calls| == |Written(calls, depth, |calls|)| == count && AllGood(Written(calls, depth, count))
  }

  lemma {:induction false} FullHistory(was: Trace, calls: seq<seq<Call>>, depth: nat, slots: seq<SlotTrace>, count: nat,
                                       k: nat)
    requires count > 0 && |slots| <= |calls| && forall i :: 0 <= i < |slots| ==> FullSlot(calls[i], depth, count)
    ensures var now, total := After(was, calls, depth, slots), Times(|slots|, count);
            && |now.log| == |was.log| + total && was.log <= now.log
            && (k < total ==> now.log[|was.log| + k] == Posted(SlotOf(k, count), true, true))
    decreases |slots|
  {
    if slots != [] {
      var n := |slots| - 1;
      FullHistory(was, calls, depth, slots[..n], count, k);
      if Times(n, count) <= k < Times(n + 1, count) { SlotAt(n, k - Times(n, count), count); }
    }
  }

  /** When the loop runs to its end, exactly `|calls| * count` writes were posted, all signaled and
      good: `count` of them per slot, in request order. */
  lemma AllSignalsSent(was: Trace, calls: seq<seq<Call>>, polls: seq<seq<int>>, count: nat, depth: nat,
                       slots: seq<SlotTrace>)
    requires |calls| == |polls| == |slots| > 0
    requires forall n :: 0 <= n < |calls| ==> Scripted(calls, polls, count, depth, n)
    requires FirstStop(calls, polls, depth, 0).Ran?
    ensures var log := After(was, calls, depth, slots).log;
            && count > 0 && |log| == |was.log| + |calls| * count && was.log <= log
            && forall k :: |was.log| <= k < |log| ==> log[k] == Posted((k - |was.log|) % count, true, true)
  {
    FirstStopIs(calls, polls, depth, 0);
    forall i | 0 <= i < |calls| ensures FullSlot(calls[i], depth, count) && count > 0 {
      assert Scripted(calls, polls, count, depth, i);
      FinishedIsFull(calls[i], polls[i], depth);
    }
    assert FullSlot(calls[0], depth, count);
    var log := After(was, calls, depth, slots).log;
    FullHistory(was, calls, depth, slots, count, 0);
    TimesIsProduct(|calls|, count);
    forall k | |was.log| <= k < |log| ensures log[k] == Posted((k - |was.log|) % count, true, true) {
      FullHistory(was, calls, depth, slots, count, k - |was.log|);
      SlotIsRemainder(k - |was.log|, count);
    }
  }

  ghost predicate Traced(readings: seq<nat>, slots: seq<SlotTrace>, calls: seq<seq<Call>>, depth: nat,
                         start: seq<nat>, end: seq<nat>, t0: nat, n: nat)
  {
    && n <= |slots| <= |calls| && n <= |start| && n <= |end|
    && (forall i :: 0 <= i < |slots| ==>
          InOrder(readings, slots[i], calls[i], depth, t0 + Times(i + 1, SLOT_NS)))
    && (forall i :: 0 <= i < n ==> Stamped(readings, slots[i], start[i], end[i]))
  }

  lemma InOrderStill(before: seq<nat>, now: seq<nat>, slot: SlotTrace, calls: seq<Call>, depth: nat, deadline: nat)
    requires before <= now && InOrder(before, slot, calls, depth, deadline)
    ensures InOrder(now, slot, calls, depth, deadline)
  {}

  lemma StampedStill(before: seq<nat>, now: seq<nat>, slot: SlotTrace, begin: nat, finish: nat)
    requires before <= now && Stamped(before, slot, begin, finish)
    ensures Stamped(now, slot, begin, finish)
  {}

  /** One more slot. */
  lemma TracedStep(before: seq<nat>, now: seq<nat>, slots: seq<SlotTrace>, slot: SlotTrace, calls: seq<seq<Call>>,
                   depth: nat, s: seq<nat>, e: seq<nat>, start: seq<nat>, end: seq<nat>, t0: nat, finished: bool)
    requires |slots| < |calls| && before <= now && Traced(before, slots, calls, depth, s, e, t0, |slots|)
    requires |slots| < |start| && |slots| < |end|
    requires forall i :: 0 <= i < |slots| ==> start[i] == s[i] && end[i] == e[i]
    requires var n := |slots|;
             && InOrder(now, slot, calls[n], depth, t0 + Times(n + 1, SLOT_NS))
             && (finished ==> Stamped(now, slot, start[n], end[n]))
    ensures Traced(now, slots + [slot], calls, depth, start, end, t0, if finished then |slots| + 1 else |slots|)
  {
    forall i | 0 <= i < |slots|
      ensures InOrder(now, slots[i], calls[i], depth, t0 + Times(i + 1, SLOT_NS))
      ensures Stamped(now, slots[i], start[i], end[i])
    {
      InOrderStill(before, now, slots[i], calls[i], depth, t0 + Times(i + 1, SLOT_NS));
      StampedStill(before, now, slots[i], s[i], e[i]);
    }
  }

  lemma AfterStep(was: Trace, calls: seq<seq<Call>>, depth: nat, slots: seq<SlotTrace>, slot: SlotTrace)
    requires |slots| < |calls|
    ensures After(was, calls, depth, slots + [slot]) ==
            With(After(was, calls, depth, slots), Written(calls[|slots|], depth, |calls[|slots|]|), slot)
  {
    assert (slots + [slot])[..|slots|] == slots;
  }

  /** Before slot `n`: the queue is empty and has never held more than `count`, and the slots so
      far are recorded. */
  ghost predicate BeforeSlot(clock: Clock, q: SendQueue, count: nat, start: array<nat>, end: array<nat>,
                             t0: nat, n: nat)
    reads clock, q, start, end
  {
    && q.clock == clock && q.held == [] && q.peak <= count && t0 <= clock.now
    && Paced(start[..], end[..], t0, n) && (n > 0 ==> end[n - 1] <= clock.now)
  }

  /** A whole iteration. */
  method Iteration(clock: Clock, q: SendQueue, calls: seq<Call>, polls: seq<int>, wcs: array<Wc>,
                   start: array<nat>, end: array<nat>, ghost t0: nat, n: nat, target: nat)
    returns (r: SlotEnd, ghost slot: SlotTrace)
    requires BeforeSlot(clock, q, |calls|, start, end, t0, n)
    requires wcs.Length == |calls| && Delivers(polls, calls, q.depth)
    requires start != end && n < start.Length && n < end.Length && target == t0 + Times(n + 1, SLOT_NS)
    modifies clock, q, wcs, start, end
    ensures r == EndOfSlot(calls, polls, q.depth) && q.peak <= |calls|
    ensures if r.Finished? then BeforeSlot(clock, q, |calls|, start, end, t0, n + 1)
            else Paced(start[..], end[..], t0, n)
    ensures old(clock.readings) <= clock.readings && InOrder(clock.readings, slot, calls, q.depth, target)
    ensures TraceOf(q) == With(old(TraceOf(q)), Written(calls, q.depth, |calls|), slot)
    ensures r.Finished? ==> Stamped(clock.readings, slot, start[n], end[n])
    ensures forall i :: 0 <= i < n ==> start[i] == old(start[i]) && end[i] == old(end[i])
  {
    ghost var s, e := start[..], end[..];
    var begin, finish;
    r, begin, finish, slot := RunSlot(clock, q, calls, polls, wcs, target);
    assert start[..] == s && end[..] == e;
    if |calls| > 0 { Record(start, end, t0, n, begin, finish, r.Finished?); }
  }

  /** What the library and the link do in each slot, and how it is delivered. */
  ghost predicate Scripted(calls: seq<seq<Call>>, polls: seq<seq<int>>, count: nat, depth: nat, n: nat)
    requires n < |calls| && n < |polls|
  {
    |calls[n]| == count && Delivers(polls[n], calls[n], depth)
  }

  /** The loop has got to slot `n`, from the history `was`. */
  ghost predicate LoopAt(clock: Clock, q: SendQueue, count: nat, calls: seq<seq<Call>>, start: array<nat>,
                         end: array<nat>, t0: nat, n: nat, was: Trace, slots: seq<SlotTrace>)
    reads clock, q, start, end
  {
    && BeforeSlot(clock, q, count, start, end, t0, n) && |slots| == n
    && Traced(clock.readings, slots, calls, q.depth, start[..], end[..], t0, n)
    && TraceOf(q) == After(was, calls, q.depth, slots)
  }

  /** The loop has left slot `n` without getting through it. */
  ghost predicate LoopLeft(clock: Clock, q: SendQueue, count: nat, calls: seq<seq<Call>>, start: array<nat>,
                           end: array<nat>, t0: nat, n: nat, was: Trace, slots: seq<SlotTrace>)
    reads clock, q, start, end
  {
    && q.peak <= count && Paced(start[..], end[..], t0, n) && |slots| == n + 1
    && Traced(clock.readings, slots, calls, q.depth, start[..], end[..], t0, n)
    && TraceOf(q) == After(was, calls, q.depth, slots)
  }

  /** An iteration, and its place in the loop. */
  method Advance(clock: Clock, q: SendQueue, count: nat, calls: seq<seq<Call>>, polls: seq<int>, wcs: array<Wc>,
                 start: array<nat>, end: array<nat>, ghost t0: nat, target: nat, n: nat, ghost was: Trace,
                 ghost slots: seq<SlotTrace>)
    returns (r: SlotEnd, ghost slot: SlotTrace)
    requires n < |calls| && LoopAt(clock, q, count, calls, start, end, t0, n, was, slots)
    requires |calls[n]| == count == wcs.Length && Delivers(polls, calls[n], q.depth)
    requires start != end && n < start.Length && n < end.Length && target == t0 + Times(n + 1, SLOT_NS)
    modifies clock, q, wcs, start, end
    ensures r == EndOfSlot(calls[n], polls, q.depth)
    ensures if r.Finished? then LoopAt(clock, q, count, calls, start, end, t0, n + 1, was, slots + [slot])
            else LoopLeft(clock, q, count, calls, start, end, t0, n, was, slots + [slot])
  {
    ghost var before, s, e := clock.readings, start[..], end[..];
    r, slot := Iteration(clock, q, calls[n], polls, wcs, start, end, t0, n, target);
    TracedStep(before, clock.readings, slots, slot, calls, q.depth, s, e, start[..], end[..], t0, r.Finished?);
    AfterStep(was, calls, q.depth, slots, slot);
  }

  /** The slots one after the other, from an empty queue. */
  method SlotLoop(clock: Clock, q: SendQueue, count: nat, calls: seq<seq<Call>>, polls: seq<seq<int>>, wcs: array<Wc>,
                  start: array<nat>, end: array<nat>, t0: nat)
    returns (r: LoopEnd, ghost slots: seq<SlotTrace>)
    requires BeforeSlot(clock, q, count, start, end, t0, 0)
    requires |calls| == |polls| == start.Length == end.Length && start != end && wcs.Length == count
    requires forall n :: 0 <= n < |calls| ==> Scripted(calls, polls, count, q.depth, n)
    modifies clock, q, wcs, start, end
    ensures r == FirstStop(calls, polls, q.depth, 0) && !r.DivideFault?
    ensures if r.Ran? then LoopAt(clock, q, count, calls, start, end, t0, |calls|, old(TraceOf(q)), slots)
            else LoopLeft(clock, q, count, calls, start, end, t0, r.n, old(TraceOf(q)), slots)
  {
    var target := t0;
    var n := 0;
    slots := [];
    while n < |calls|
      invariant 0 <= n <= |calls| && target == t0 + Times(n, SLOT_NS)
      invariant LoopAt(clock, q, count, calls, start, end, t0, n, old(TraceOf(q)), slots)
      invariant AllFinish(calls, polls, q.depth, n)
    {
      target := target + SLOT_NS;
      assert Scripted(calls, polls, count, q.depth, n);
      ghost var trace;
      var slot;
      slot, trace := Advance(clock, q, count, calls, polls[n], wcs, start, end, t0, target, n, old(TraceOf(q)), slots);
      slots := slots + [trace];
      if !slot.Finished? {
        StopsAt(calls, polls, q.depth, 0, n);
        return if slot.Hangs? then HangsAt(n) else BrokeAt(n), slots;
      }
      n := n + 1;
    }
    StopsAt(calls, polls, q.depth, 0, n);
    return Ran, slots;
  }

  /** The server's loop over any number of slots, on an empty send queue. It runs to its end
      exactly when every slot finishes, and otherwise stops, or hangs, at the first that does
      not. The queue never holds more than `count` requests and is empty between slots. Each
      iteration first takes `n % (repeat / 100)`, to decide whether to log, so a loop of fewer
      than 100 slots faults in its first. The queue's history grows by the slots reached, one
      `SlotTrace` each, and by nothing else; a slot that got through is stamped with the reading
      before its last post and the one after its wait. */
  method PacedLoop(clock: Clock, q: SendQueue, count: nat, calls: seq<seq<Call>>, polls: seq<seq<int>>,
                   start: array<nat>, end: array<nat>)
    returns (r: LoopEnd, t0: nat, ghost slots: seq<SlotTrace>)
    requires q.clock == clock && q.held == [] && q.peak <= count
    requires |calls| == |polls| == start.Length == end.Length && start != end
    requires forall n :: 0 <= n < |calls| ==> Scripted(calls, polls, count, q.depth, n)
    modifies clock, q, start, end
    ensures old(clock.now) <= t0 && q.peak <= count
    ensures r.DivideFault? <==> 0 < |calls| < 100
    ensures !r.DivideFault? ==> r == FirstStop(calls, polls, q.depth, 0)
    ensures r.Ran? ==> q.held == [] && Paced(start[..], end[..], t0, |calls|)
    ensures r.BrokeAt? || r.HangsAt? ==> Paced(start[..], end[..], t0, r.n)
    ensures |slots| == Reached(r, |calls|) <= |calls| && TraceOf(q) == After(old(TraceOf(q)), calls, q.depth, slots)
    ensures Traced(clock.readings, slots, calls, q.depth, start[..], end[..], t0, Through(r, |calls|))
  {
    var wcs := new Wc[count];
    t0 := clock.GetCycles();
    slots := [];
    if |calls| > 0 && |calls| / 100 == 0 { return DivideFault, t0, slots; }
    r, slots := SlotLoop(clock, q, count, calls, polls, wcs, start, end, t0);
    FirstStopIs(calls, polls, q.depth, 0);
  }

  /** The slots a loop over `repeat` of them enters, and those it gets through. */
  function Reached(r: LoopEnd, repeat: nat): nat {
    match r
    case DivideFault => 0
    case Ran => repeat
    case BrokeAt(n) => n + 1
    case HangsAt(n) => n + 1
  }

  function Through(r: LoopEnd, repeat: nat): nat {
    match r
    case DivideFault => 0
    case Ran => repeat
    case BrokeAt(n) => n
    case HangsAt(n) => n
  }

  /** Where the loop stops if it has got to slot `n`. */
  function FirstStop(calls: seq<seq<Call>>, polls: seq<seq<int>>, depth: nat, n: nat): LoopEnd
    requires n <= |calls| == |polls|
    decreases |calls| - n
  {
    if n == |calls| then Ran
    else match EndOfSlot(calls[n], polls[n], depth)
      case Finished => FirstStop(calls, polls, depth, n + 1)
      case Broke => BrokeAt(n)
      case Hangs => HangsAt(n)
  }

  ghost predicate AllFinish(calls: seq<seq<Call>>, polls: seq<seq<int>>, depth: nat, n: nat) {
    n <= |calls| == |polls| && forall i :: 0 <= i < n ==> EndOfSlot(calls[i], polls[i], depth) == Finished
  }

  lemma {:induction false} StopsAt(calls: seq<seq<Call>>, polls: seq<seq<int>>, depth: nat, m: nat, n: nat)
    requires m <= n && AllFinish(calls, polls, depth, n)
    ensures FirstStop(calls, polls, depth, m) == FirstStop(calls, polls, depth, n)
    decreases n - m
  {
    if m < n { StopsAt(calls, polls, depth, m + 1, n); }
  }

  /** It is the first slot that does not finish, and there is none exactly when the loop runs to
      its end. */
  lemma {:induction false} FirstStopIs(calls: seq<seq<Call>>, polls: seq<seq<int>>, depth: nat, n: nat)
    requires n <= |calls| == |polls|
    ensures var r := FirstStop(calls, polls, depth, n);
            && !r.DivideFault?
            && (r.Ran? <==> forall i :: n <= i < |calls| ==> EndOfSlot(calls[i], polls[i], depth) == Finished)
            && (!r.Ran? ==>
                  && n <= r.n < |calls|
                  && EndOfSlot(calls[r.n], polls[r.n], depth) == (if r.BrokeAt? then Broke else Hangs)
                  && forall i :: n <= i < r.n ==> EndOfSlot(calls[i], polls[i], depth) == Finished)
    decreases |calls| - n
  {
    if n < |calls| { FirstStopIs(calls, polls, depth, n + 1); }
  }

  /** With a willing library and a working link the loop gets through any number of slots exactly
      when the writes of one slot fit the queue. */
  lemma LoopRunsIff(calls: seq<seq<Call>>, polls: seq<seq<int>>, count: nat, depth: nat)
    requires |calls| == |polls| > 0
    requires forall n :: 0 <= n < |calls| ==> Scripted(calls, polls, count, depth, n) && NoFailedPoll(polls[n])
    requires forall n, i :: 0 <= n < |calls| && 0 <= i < |calls[n]| ==> calls[n][i].accepts && calls[n][i].ok
    ensures FirstStop(calls, polls, depth, 0) == if 0 < count <= depth then Ran else HangsAt(0)
  {
    forall n | 0 <= n < |calls|
      ensures EndOfSlot(calls[n], polls[n], depth) == if 0 < count <= depth then Finished else Hangs
    {
      assert Scripted(calls, polls, count, depth, n);
      SlotFinishes(calls[n], polls[n], depth);
    }
    FirstStopIs(calls, polls, depth, 0);
  }

  // ----- What absolute deadlines buy -----

  function Max(a: int, b: int): int { if a >= b then a else b }

  function Deadline(t0: nat, n: nat): nat { t0 + Times(n + 1, SLOT_NS) }

  /** Slots are 100000 clock units apart. */
  lemma DeadlineIs(t0: nat, n: nat)
    ensures Deadline(t0, n) == t0 + 100000 * (n + 1)
  {
    TimesIsProduct(n + 1, SLOT_NS);
  }

  /** Ideal wake-up: an iteration starts at its deadline, or at once when its predecessor
      overran it. */
  ghost predicate Ideal(start: seq<nat>, end: seq<nat>, t0: nat) {
    && |start| == |end| && |start| > 0 && start[0] == Deadline(t0, 0)
    && (forall i :: 0 <= i < |start| ==> start[i] <= end[i])
    && (forall i :: 0 < i < |start| ==> start[i] == Max(Deadline(t0, i), end[i - 1]))
  }

  function Work(start: seq<nat>, end: seq<nat>, i: nat): int
    requires i < |start| && i < |end|
  {
    end[i] as int - start[i] as int
  }

  /** How late iteration `n` starts. */
  function Lag(start: seq<nat>, t0: nat, n: nat): int
    requires n < |start|
  {
    start[n] as int - Deadline(t0, n) as int
  }

  /** Lateness is carried over less one slot, and never becomes a credit. */
  lemma LagRecurrence(start: seq<nat>, end: seq<nat>, t0: nat, n: nat)
    requires Ideal(start, end, t0) && n + 1 < |start|
    ensures Lag(start, t0, 0) == 0
    ensures Lag(start, t0, n + 1) == Max(0, Lag(start, t0, n) + Work(start, end, n) - SLOT_NS)
  {}

  /** The work done in `[k, n)` beyond the slots it had. */
  function Excess(start: seq<nat>, end: seq<nat>, k: nat, n: nat): int
    requires k <= n <= |start| == |end|
  {
    if k == n then 0 else Excess(start, end, k, n - 1) + Work(start, end, n - 1) - SLOT_NS
  }

  /** Closed form: the lag is the largest excess over any stretch that ends here. */
  lemma {:induction false} LagIsLargestExcess(start: seq<nat>, end: seq<nat>, t0: nat, n: nat)
    requires Ideal(start, end, t0) && n < |start|
    ensures forall k :: 0 <= k <= n ==> Excess(start, end, k, n) <= Lag(start, t0, n)
    ensures exists k :: 0 <= k <= n && Excess(start, end, k, n) == Lag(start, t0, n)
  {
    if n == 0 {
      assert Excess(start, end, 0, 0) == 0;
    } else {
      LagIsLargestExcess(start, end, t0, n - 1);
      LagRecurrence(start, end, t0, n - 1);
      var j :| 0 <= j <= n - 1 && Excess(start, end, j, n - 1) == Lag(start, t0, n - 1);
      assert Excess(start, end, j, n) == Lag(start, t0, n - 1) + Work(start, end, n - 1) - SLOT_NS;
      assert Excess(start, end, n, n) == 0;
      forall k | 0 <= k <= n ensures Excess(start, end, k, n) <= Lag(start, t0, n) {
        if k < n { assert Excess(start, end, k, n - 1) <= Lag(start, t0, n - 1); }
      }
    }
  }

  /** One more slot of `d` units of gain. */
  lemma MaxStep(lag: int, next: int, from: int, gain: int, d: int)
    requires next <= Max(0, lag - d) && lag <= Max(0, from - gain) && d >= 0
    ensures next <= Max(0, from - (gain + d))
  {}

  lemma MaxStepExactly(lag: int, next: int, from: int, gain: int, d: int)
    requires next == Max(0, lag - d) && lag == Max(0, from - gain) && d >= 0
    ensures next == Max(0, from - (gain + d))
  {}

  /** After an overrun, work of at most `w` per slot regains at least `SLOT_NS - w` per iteration. */
  lemma LagShrinks(start: seq<nat>, end: seq<nat>, t0: nat, m: nat, n: nat, w: nat)
    requires Ideal(start, end, t0) && m <= n < |start| && w <= SLOT_NS
    requires forall i :: m <= i < n ==> Work(start, end, i) <= w
    ensures Lag(start, t0, n) <= Max(0, Lag(start, t0, m) - Times(n - m, SLOT_NS - w))
  {
    LagShrinksBy(start, end, t0, m, n, w, SLOT_NS - w);
  }

  lemma {:induction false} LagShrinksBy(start: seq<nat>, end: seq<nat>, t0: nat, m: nat, n: nat, w: nat, d: nat)
    requires Ideal(start, end, t0) && m <= n < |start| && w + d == SLOT_NS
    requires forall i :: m <= i < n ==> Work(start, end, i) <= w
    ensures Lag(start, t0, n) <= Max(0, Lag(start, t0, m) - Times(n - m, d))
  {
    if m == n {
      LagNonNegative(start, end, t0, m);
    } else {
      LagShrinksBy(start, end, t0, m, n - 1, w, d);
      LagRecurrence(start, end, t0, n - 1);
      assert Work(start, end, n - 1) <= w;
      assert Times(n - m, d) == Times(n - 1 - m, d) + d;
      MaxStep(Lag(start, t0, n - 1), Lag(start, t0, n), Lag(start, t0, m), Times(n - 1 - m, d), d);
    }
  }

  /** Work of exactly `w` regains exactly `d = SLOT_NS - w`. */
  lemma {:induction false} LagShrinksExactly(start: seq<nat>, end: seq<nat>, t0: nat, m: nat, n: nat, w: nat, d: nat)
    requires Ideal(start, end, t0) && m <= n < |start| && w + d == SLOT_NS
    requires forall i :: m <= i < n ==> Work(start, end, i) == w
    ensures Lag(start, t0, n) == Max(0, Lag(start, t0, m) - Times(n - m, d))
  {
    if m == n {
      LagNonNegative(start, end, t0, m);
    } else {
      LagShrinksExactly(start, end, t0, m, n - 1, w, d);
      LagRecurrence(start, end, t0, n - 1);
      assert Work(start, end, n - 1) == w;
      assert Times(n - m, d) == Times(n - 1 - m, d) + d;
      MaxStepExactly(Lag(start, t0, n - 1), Lag(start, t0, n), Lag(start, t0, m), Times(n - 1 - m, d), d);
    }
  }

  lemma LagNonNegative(start: seq<nat>, end: seq<nat>, t0: nat, n: nat)
    requires Ideal(start, end, t0) && n < |start|
    ensures Lag(start, t0, n) >= 0
  {
    if n > 0 { LagRecurrence(start, end, t0, n - 1); }
  }

  /** `Ceil(d, g)` iterations of gain `g` cover `d`, and fewer do not. */
  function Ceil(d: nat, g: nat): (k: nat)
    requires g > 0
    ensures Times(k, g) >= d && (k > 0 ==> Times(k - 1, g) < d)
  {
    if d == 0 then 0 else if d <= g then 1 else Ceil(d - g, g) + 1
  }

  /** Recovery: with work of at most `w < SLOT_NS` per slot, an overrun of `d` is gone after
      `Ceil(d, SLOT_NS - w)` iterations. */
  lemma Recovery(start: seq<nat>, end: seq<nat>, t0: nat, m: nat, n: nat, w: nat)
    requires Ideal(start, end, t0) && m <= n < |start| && w < SLOT_NS && Lag(start, t0, m) >= 0
    requires forall i :: m <= i < n ==> Work(start, end, i) <= w
    requires n - m >= Ceil(Lag(start, t0, m), SLOT_NS - w)
    ensures start[n] == Deadline(t0, n)
  {
    LagShrinks(start, end, t0, m, n, w);
    LagNonNegative(start, end, t0, n);
    TimesGrow(Ceil(Lag(start, t0, m), SLOT_NS - w), n - m, SLOT_NS - w);
  }

  /** With work of exactly `w` the loop is late until then: the bound cannot be improved. */
  lemma RecoveryIsTight(start: seq<nat>, end: seq<nat>, t0: nat, m: nat, n: nat, w: nat)
    requires Ideal(start, end, t0) && m <= n < |start| && w < SLOT_NS && Lag(start, t0, m) >= 0
    requires forall i :: m <= i < n ==> Work(start, end, i) == w
    requires n - m < Ceil(Lag(start, t0, m), SLOT_NS - w)
    ensures start[n] > Deadline(t0, n)
  {
    LagShrinksExactly(start, end, t0, m, n, w, SLOT_NS - w);
    TimesGrow(n - m, Ceil(Lag(start, t0, m), SLOT_NS - w) - 1, SLOT_NS - w);
  }

  /** The paced loop on an ideal clock: the trace it records is ideal as soon as every start is as
      early as the loop allows. */
  lemma PacedIsAtBestIdeal(start: seq<nat>, end: seq<nat>, t0: nat)
    requires Paced(start, end, t0, |start|) && |start| == |end| > 0
    ensures forall i :: 0 < i < |start| ==> start[i] >= Max(Deadline(t0, i), end[i - 1])
    ensures start[0] == Deadline(t0, 0) &&
            (forall i :: 0 < i < |start| ==> start[i] <= Max(Deadline(t0, i), end[i - 1])) ==>
              Ideal(start, end, t0)
  {}
}
