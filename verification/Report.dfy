/** `print_latency_report_raw`: one pass for sum, extremes and the finished count, a sort, rank
    statistics, a second pass for the variance. Doubles are modelled as reals. */
module Report {

  const U64: nat := 0x1_0000_0000_0000_0000
  const CYCLE_UPTIME: real := 180.0
  // A stand-in for DBL_MAX: no smaller than the largest latency any two readings can give.
  const DBL_MAX: real := (0x1_0000_0000_0000_0000 * 1000000) as real

  // ----- Samples -----

  /** `end - start` on `uint64_t`: what has to be added to `start` to get to `end`. */
  function Cycles(start: nat, end: nat): (r: nat)
    requires start < U64 && end < U64
    ensures r < U64 && (start + r) % U64 == end
    ensures end >= start ==> r == end - start
  {
    if end >= start then end - start else end + U64 - start
  }

  /** How clock readings become microseconds: `x * MILLION / clock_rate`. */
  type Scale = nat -> real

  ghost predicate Bounded(micros: Scale) {
    forall n: nat :: n < U64 ==> 0.0 <= micros(n) <= DBL_MAX
  }

  function Micros(rate: nat): Scale
    requires rate > 0
  {
    (n: nat) => Quotient(n * 1000000, rate)
  }

  lemma MicrosBounded(rate: nat)
    requires rate > 0
    ensures Bounded(Micros(rate))
  {}

  /** The readings in microseconds, times the clock rate in ticks per second, are millions of ticks. */
  lemma MicrosIs(rate: nat, n: nat)
    requires rate > 0
    ensures Micros(rate)(n) * rate as real == (n * 1000000) as real
  {}

  /** A count divided by a positive count is no larger than before. */
  function Quotient(n: nat, d: nat): (r: real)
    requires d > 0
    ensures 0.0 <= r <= n as real && r * d as real == n as real
  {
    var x, y := n as real, d as real;
    assert x / y * y == x && y >= 1.0;
    assert x / y >= 0.0;
    assert x / y * (y - 1.0) >= 0.0;
    x / y
  }

  /** The sum of `f(x)` over the samples; totals below are instances. */
  function SumOf(s: seq<real>, f: real -> real): real {
    if s == [] then 0.0 else SumOf(s[..|s| - 1], f) + f(s[|s| - 1])
  }

  function Itself(): real -> real { x => x }

  function SquaredFrom(m: real): real -> real { x => (x - m) * (x - m) }

  function Between(lo: real, hi: real): real -> real { x => (hi - x) * (x - lo) }

  function Sum(s: seq<real>): real { SumOf(s, Itself()) }

  function SumSq(s: seq<real>, m: real): real { SumOf(s, SquaredFrom(m)) }

  function Squares(s: seq<real>): real { SumSq(s, 0.0) }

  function Average(s: seq<real>): real
    requires |s| > 0
  {
    Sum(s) / |s| as real
  }

  function AtMost(s: seq<real>, v: real): nat {
    if s == [] then 0 else AtMost(s[..|s| - 1], v) + if s[|s| - 1] <= v then 1 else 0
  }

  function Below(s: seq<real>, v: real): nat {
    if s == [] then 0 else Below(s[..|s| - 1], v) + if s[|s| - 1] < v then 1 else 0
  }

  ghost predicate Sorted(s: seq<real>) {
    forall i, j :: 0 <= i < j < |s| ==> s[i] <= s[j]
  }

  ghost predicate Permuted(s: seq<real>, t: seq<real>) { multiset(s) == multiset(t) }

  ghost predicate Least(m: real, s: seq<real>) { m in s && forall x :: x in s ==> m <= x }

  ghost predicate Greatest(m: real, s: seq<real>) { m in s && forall x :: x in s ==> x <= m }

  // ----- Permutations change no total -----

  function Without(s: seq<real>, i: nat): seq<real>
    requires i < |s|
  {
    s[..i] + s[i + 1..]
  }

  lemma WithoutMultiset(s: seq<real>, i: nat)
    requires i < |s|
    ensures multiset(s) == multiset(Without(s, i)) + multiset{s[i]}
  {
    assert s == s[..i] + [s[i]] + s[i + 1..];
  }

  lemma {:induction false} TotalsWithout(s: seq<real>, i: nat, f: real -> real, v: real)
    requires i < |s|
    ensures SumOf(s, f) == SumOf(Without(s, i), f) + f(s[i])
    ensures AtMost(s, v) == AtMost(Without(s, i), v) + if s[i] <= v then 1 else 0
    ensures Below(s, v) == Below(Without(s, i), v) + if s[i] < v then 1 else 0
  {
    var n := |s| - 1;
    var w := Without(s, i);
    if i == n {
      assert w == s[..n];
    } else {
      TotalsWithout(s[..n], i, f, v);
      assert w[..|w| - 1] == Without(s[..n], i);
    }
  }

  lemma RemoveFromBoth(s: seq<real>, t: seq<real>, i: nat)
    requires Permuted(s, t) && s != [] && i < |t| && t[i] == s[|s| - 1]
    ensures Permuted(s[..|s| - 1], Without(t, i))
  {
    var n := |s| - 1;
    WithoutMultiset(s, n);
    WithoutMultiset(t, i);
    assert Without(s, n) == s[..n];
    assert multiset(s[..n]) == multiset(s) - multiset{s[n]};
    assert multiset(Without(t, i)) == multiset(t) - multiset{s[n]};
  }

  /** Sorting changes neither the sum, nor the squared deviations, nor any rank count. */
  lemma {:induction false} TotalsPermute(s: seq<real>, t: seq<real>, f: real -> real, v: real)
    requires Permuted(s, t)
    ensures |s| == |t| && SumOf(s, f) == SumOf(t, f) && AtMost(s, v) == AtMost(t, v) && Below(s, v) == Below(t, v)
    decreases |s|
  {
    assert |s| == |multiset(s)| == |multiset(t)| == |t|;
    if s != [] {
      var n := |s| - 1;
      assert s[n] in multiset(t);
      var i :| 0 <= i < |t| && t[i] == s[n];
      RemoveFromBoth(s, t, i);
      TotalsPermute(s[..n], Without(t, i), f, v);
      TotalsWithout(t, i, f, v);
    }
  }

  // ----- Rank statistics -----

  /** For every sample list and its sorted form: the reported ranks are ordered between the
      extremes, the extremes are the sorted ends, more than 1/2 (9/10, 99/100) of the samples are at
      most the median (percent90, percent99), and no more than that are below it. */
  lemma RankStatistics(s: seq<real>, t: seq<real>, min: real, max: real)
    requires |s| > 0 && Permuted(s, t) && Sorted(t) && Least(min, s) && Greatest(max, s)
    ensures |t| == |s|
    ensures var n := |s|;
            && t[0] == min && t[n - 1] == max
            && min <= t[n / 2] <= t[n * 9 / 10] <= t[n * 99 / 100] <= max
            && 2 * AtMost(s, t[n / 2]) > n
            && 10 * AtMost(s, t[n * 9 / 10]) > 9 * n
            && 100 * AtMost(s, t[n * 99 / 100]) > 99 * n
            && 2 * Below(s, t[n / 2]) <= n
            && 10 * Below(s, t[n * 9 / 10]) <= 9 * n
            && 100 * Below(s, t[n * 99 / 100]) <= 99 * n
  {
    var n := |s|;
    EndsOfSorted(s, t, min, max);
    RankCovers(s, t, n / 2);
    RankCovers(s, t, n * 9 / 10);
    RankCovers(s, t, n * 99 / 100);
    RanksOrdered(t, 0, n / 2);
    RanksOrdered(t, n / 2, n * 9 / 10);
    RanksOrdered(t, n * 9 / 10, n * 99 / 100);
    RanksOrdered(t, n * 99 / 100, n - 1);
  }

  lemma RanksOrdered(t: seq<real>, i: nat, j: nat)
    requires Sorted(t) && i <= j < |t|
    ensures t[i] <= t[j]
  {}

  lemma EndsOfSorted(s: seq<real>, t: seq<real>, min: real, max: real)
    requires |s| > 0 && Permuted(s, t) && Sorted(t) && Least(min, s) && Greatest(max, s)
    ensures |t| == |s| && t[0] == min && t[|t| - 1] == max
  {
    assert |s| == |multiset(s)| == |multiset(t)| == |t|;
    assert min in multiset(t) && max in multiset(t);
    var i :| 0 <= i < |t| && t[i] == min;
    var j :| 0 <= j < |t| && t[j] == max;
    RanksOrdered(t, 0, i);
    RanksOrdered(t, j, |t| - 1);
    assert t[0] in multiset(s) && t[|t| - 1] in multiset(s);
    assert t[0] in s && t[|t| - 1] in s;
  }

  lemma RankCovers(s: seq<real>, t: seq<real>, k: nat)
    requires Permuted(s, t) && Sorted(t) && k < |t|
    ensures AtMost(s, t[k]) >= k + 1 && Below(s, t[k]) <= k
  {
    TotalsPermute(s, t, Itself(), t[k]);
    PrefixAtMost(t, k, k + 1);
    SuffixNotBelow(t, k, |t|);
    assert t[..|t|] == t;
  }

  lemma {:induction false} SuffixNotBelow(t: seq<real>, k: nat, n: nat)
    requires Sorted(t) && k < |t| && n <= |t|
    ensures Below(t[..n], t[k]) <= k
  {
    if n > 0 {
      SuffixNotBelow(t, k, n - 1);
      assert t[..n][..n - 1] == t[..n - 1];
      if n <= k { BelowBounded(t[..n], t[k]); }
    }
  }

  lemma {:induction false} BelowBounded(s: seq<real>, v: real)
    ensures Below(s, v) <= |s|
  {
    if s != [] { BelowBounded(s[..|s| - 1], v); }
  }

  lemma {:induction false} PrefixAtMost(t: seq<real>, k: nat, n: nat)
    requires Sorted(t) && k < |t| && n <= k + 1
    ensures AtMost(t[..n], t[k]) == n
    ensures AtMost(t, t[k]) >= n
  {
    if n > 0 {
      PrefixAtMost(t, k, n - 1);
      assert t[..n][..n - 1] == t[..n - 1];
    }
    AtMostGrows(t, n, |t|, t[k]);
    assert t[..|t|] == t;
  }

  lemma {:induction false} AtMostGrows(t: seq<real>, m: nat, n: nat, v: real)
    requires m <= n <= |t|
    ensures AtMost(t[..m], v) <= AtMost(t[..n], v)
  {
    if m < n {
      AtMostGrows(t, m, n - 1, v);
      assert t[..n][..n - 1] == t[..n - 1];
    }
  }

  // ----- Variance -----

  /** One more sample `x` in each expansion. */
  lemma ExpandStep(d: real, q: real, s: real, k: real, x: real, m: real)
    requires d == q - 2.0 * m * s + k * m * m
    ensures d + (x - m) * (x - m) == (q + x * x) - 2.0 * m * (s + x) + (k + 1.0) * m * m
  {}

  lemma BetweenStep(g: real, q: real, s: real, k: real, x: real, lo: real, hi: real)
    requires g == (hi + lo) * s - q - k * hi * lo
    ensures g + (hi - x) * (x - lo) == (hi + lo) * (s + x) - (q + x * x) - (k + 1.0) * hi * lo
  {}

  lemma {:induction false} SumSqExpands(s: seq<real>, m: real)
    ensures SumSq(s, m) == Squares(s) - 2.0 * m * Sum(s) + |s| as real * m * m
  {
    if s != [] {
      var p, x := s[..|s| - 1], s[|s| - 1];
      SumSqExpands(p, m);
      ExpandStep(SumSq(p, m), Squares(p), Sum(p), |p| as real, x, m);
      assert (x - 0.0) * (x - 0.0) == x * x;
    }
  }

  lemma {:induction false} BetweenExpands(s: seq<real>, lo: real, hi: real)
    ensures SumOf(s, Between(lo, hi)) == (hi + lo) * Sum(s) - Squares(s) - |s| as real * hi * lo
  {
    if s != [] {
      var p, x := s[..|s| - 1], s[|s| - 1];
      BetweenExpands(p, lo, hi);
      BetweenStep(SumOf(p, Between(lo, hi)), Squares(p), Sum(p), |p| as real, x, lo, hi);
      assert (x - 0.0) * (x - 0.0) == x * x;
    }
  }

  lemma {:induction false} BetweenNonNegative(s: seq<real>, lo: real, hi: real)
    requires forall i :: 0 <= i < |s| ==> lo <= s[i] <= hi
    ensures SumOf(s, Between(lo, hi)) >= 0.0
  {
    if s != [] {
      BetweenNonNegative(s[..|s| - 1], lo, hi);
      var x := s[|s| - 1];
      ProductNonNegative(hi - x, x - lo);
    }
  }

  lemma ProductNonNegative(a: real, b: real)
    requires a >= 0.0 && b >= 0.0
    ensures a * b >= 0.0
  {}

  lemma MeanAlgebra(q: real, k: real, a: real, total: real)
    requires k * a == total
    ensures q - 2.0 * a * total + k * a * a == q - k * a * a
  {
    assert 2.0 * a * total == 2.0 * (k * a * a);
  }

  lemma BoundAlgebra(d: real, g: real, q: real, k: real, a: real, total: real, lo: real, hi: real)
    requires k * a == total && d == q - k * a * a && g == (hi + lo) * total - q - k * hi * lo && g >= 0.0
    ensures d <= k * ((hi - a) * (a - lo))
  {
    assert (hi + lo) * total == k * a * hi + k * a * lo;
  }

  /** The two-pass sum of squared deviations is the textbook one-pass form, where `a` is the
      average. */
  lemma TwoPassIsOnePass(s: seq<real>, a: real)
    requires |s| as real * a == Sum(s)
    ensures SumSq(s, a) == Squares(s) - |s| as real * a * a
  {
    SumSqExpands(s, a);
    MeanAlgebra(Squares(s), |s| as real, a, Sum(s));
  }

  /** The variance is at most `(max - average) * (average - min)`. */
  lemma VarianceBound(s: seq<real>, min: real, max: real, a: real)
    requires |s| > 0 && Least(min, s) && Greatest(max, s) && |s| as real * a == Sum(s)
    ensures SumSq(s, a) <= |s| as real * ((max - a) * (a - min))
  {
    TwoPassIsOnePass(s, a);
    InRange(s, min, max);
    BetweenExpands(s, min, max);
    BoundAlgebra(SumSq(s, a), SumOf(s, Between(min, max)), Squares(s), |s| as real, a, Sum(s), min, max);
  }

  lemma InRange(s: seq<real>, min: real, max: real)
    requires Least(min, s) && Greatest(max, s)
    ensures SumOf(s, Between(min, max)) >= 0.0
  {
    forall i | 0 <= i < |s| ensures min <= s[i] <= max { assert s[i] in s; }
    BetweenNonNegative(s, min, max);
  }

  lemma AverageTimes(s: seq<real>)
    requires |s| > 0
    ensures |s| as real * Average(s) == Sum(s)
  {}

  // ----- The code -----

  /** `sort_latencies`. The library's `qsort` is only required to sort; this is one way to. */
  method SortLatencies(a: array<real>)
    modifies a
    ensures Sorted(a[..]) && Permuted(a[..], old(a[..]))
  {
    var i := 0;
    while i < a.Length
      invariant 0 <= i <= a.Length
      invariant forall p, q :: 0 <= p < i && p < q < a.Length ==> a[p] <= a[q]
      invariant Permuted(a[..], old(a[..]))
    {
      var m := IndexOfLeast(a, i);
      a[i], a[m] := a[m], a[i];
      i := i + 1;
    }
  }

  method IndexOfLeast(a: array<real>, from: nat) returns (m: nat)
    requires from < a.Length
    ensures from <= m < a.Length && forall q :: from <= q < a.Length ==> a[m] <= a[q]
  {
    m := from;
    var q := from + 1;
    while q < a.Length
      invariant from <= m < q <= a.Length
      invariant forall p :: from <= p < q ==> a[m] <= a[p]
    {
      if a[q] < a[m] { m := q; }
      q := q + 1;
    }
  }

  datatype Stats = Stats(median: real, average: real, min: real, max: real, sumsq: real,
                         percent90: real, percent99: real, finished: nat)

  ghost function Latencies(starts: seq<nat>, ends: seq<nat>, micros: Scale): (r: seq<real>)
    requires |starts| == |ends|
    requires forall n :: 0 <= n < |starts| ==> starts[n] < U64 && ends[n] < U64
    ensures |r| == |starts|
    ensures forall n :: 0 <= n < |starts| ==> r[n] == micros(Cycles(starts[n], ends[n]))
    ensures Bounded(micros) ==> forall n :: 0 <= n < |r| ==> 0.0 <= r[n] <= DBL_MAX
  {
    seq(|starts|, n requires 0 <= n < |starts| => micros(Cycles(starts[n], ends[n])))
  }

  /** Requests whose end lies within the up time after `first`. */
  function Finished(ends: seq<nat>, first: real, micros: Scale): nat {
    if ends == [] then 0
    else Finished(ends[..|ends| - 1], first, micros) +
         if micros(ends[|ends| - 1]) - first <= CYCLE_UPTIME then 1 else 0
  }

  /** The requests, by number, that ended no more than 180 microseconds after `begin`. */
  ghost function Punctual(ends: seq<nat>, begin: nat, rate: nat): (r: set<nat>)
  {
    set n: nat | n < |ends| && ends[n] * 1000000 - begin * 1000000 <= 180 * rate
  }

  lemma WithinIs(rate: nat, begin: nat, end: nat)
    requires rate > 0
    ensures Micros(rate)(end) - Micros(rate)(begin) <= CYCLE_UPTIME <==>
            end * 1000000 - begin * 1000000 <= 180 * rate
  {
    var e, b, k := Micros(rate)(end), Micros(rate)(begin), rate as real;
    MicrosIs(rate, end);
    MicrosIs(rate, begin);
    ScaleBoth(e, b, k, (end * 1000000) as real, (begin * 1000000) as real);
  }

  lemma ScaleBoth(e: real, b: real, k: real, ek: real, bk: real)
    requires k > 0.0 && e * k == ek && b * k == bk
    ensures e - b <= CYCLE_UPTIME <==> ek - bk <= 180.0 * k
  {
    assert (e - b) * k == ek - bk;
    if e - b <= CYCLE_UPTIME { assert (180.0 - (e - b)) * k >= 0.0; } else { assert ((e - b) - 180.0) * k > 0.0; }
  }

  /** The finished count is their number. */
  lemma {:induction false} FinishedIs(ends: seq<nat>, begin: nat, rate: nat)
    requires rate > 0
    ensures Finished(ends, Micros(rate)(begin), Micros(rate)) == |Punctual(ends, begin, rate)|
  {
    if ends != [] {
      var last := |ends| - 1;
      FinishedIs(ends[..last], begin, rate);
      WithinIs(rate, begin, ends[last]);
      var before := Punctual(ends[..last], begin, rate);
      assert Punctual(ends, begin, rate) ==
             if ends[last] * 1000000 - begin * 1000000 <= 180 * rate then before + {last} else before;
    }
  }

  ghost predicate Extremes(s: seq<real>, min: real, max: real) {
    if s == [] then min == DBL_MAX && max == 0.0
    else (forall i :: 0 <= i < |s| ==> min <= s[i] <= max) && (max in s || max == 0.0) && (min in s || min == DBL_MAX)
  }

  lemma ExtremesSnoc(s: seq<real>, x: real, min: real, max: real)
    requires Extremes(s, min, max) && 0.0 <= x <= DBL_MAX && forall i :: 0 <= i < |s| ==> 0.0 <= s[i] <= DBL_MAX
    ensures Extremes(s + [x], if x < min then x else min, if x > max then x else max)
  {
    var t := s + [x];
    assert t[|s|] == x;
    assert forall y :: y in s ==> y in t;
    assert x in t;
  }

  lemma ExtremesAreAttained(s: seq<real>, min: real, max: real)
    requires |s| > 0 && Extremes(s, min, max) && forall i :: 0 <= i < |s| ==> 0.0 <= s[i] <= DBL_MAX
    ensures Least(min, s) && Greatest(max, s)
  {
    assert s[0] in s && min <= s[0] <= max;
  }

  lemma SumSnoc(s: seq<real>, x: real)
    ensures Sum(s + [x]) == Sum(s) + x
  {
    assert (s + [x])[..|s|] == s;
  }

  lemma FinishedSnoc(ends: seq<nat>, first: real, micros: Scale, n: nat)
    requires n < |ends|
    ensures Finished(ends[..n + 1], first, micros) ==
            Finished(ends[..n], first, micros) + if micros(ends[n]) - first <= CYCLE_UPTIME then 1 else 0
  {
    assert ends[..n + 1][..n] == ends[..n];
  }

  method StoreSample(latencies: array<real>, n: nat, x: real, ghost done: seq<real>)
    requires n < latencies.Length && latencies[..n] == done
    modifies latencies
    ensures latencies[..n + 1] == done + [x]
  {
    latencies[n] := x;
    assert latencies[..n + 1] == latencies[..n] + [x];
  }

  /** The two comparisons of the pass. */
  method Widen(ghost s: seq<real>, latency: real, min0: real, max0: real) returns (min: real, max: real)
    requires Extremes(s, min0, max0) && 0.0 <= latency <= DBL_MAX && forall i :: 0 <= i < |s| ==> 0.0 <= s[i] <= DBL_MAX
    ensures Extremes(s + [latency], min, max)
  {
    ExtremesSnoc(s, latency, min0, max0);
    min, max := min0, max0;
    if latency > max { max := latency; }
    if latency < min { min := latency; }
  }

  method CountFinished(ends: seq<nat>, n: nat, first: real, micros: Scale, before: nat) returns (finished: nat)
    requires n < |ends| && before == Finished(ends[..n], first, micros)
    ensures finished == Finished(ends[..n + 1], first, micros)
  {
    FinishedSnoc(ends, first, micros, n);
    finished := before;
    if micros(ends[n]) - first <= CYCLE_UPTIME { finished := finished + 1; }
  }

  /** The single pass: sum, extremes (from DBL_MAX and 0), finished count. */
  method FirstPass(starts: seq<nat>, ends: seq<nat>, begin: nat, micros: Scale, latencies: array<real>)
    returns (sum: real, min: real, max: real, finished: nat)
    requires Bounded(micros) && |starts| == |ends| == latencies.Length
    requires forall n :: 0 <= n < |starts| ==> starts[n] < U64 && ends[n] < U64
    modifies latencies
    ensures latencies[..] == Latencies(starts, ends, micros)
    ensures sum == Sum(latencies[..])
    ensures |starts| > 0 ==> Least(min, latencies[..]) && Greatest(max, latencies[..])
    ensures finished == Finished(ends, micros(begin), micros)
  {
    var first := micros(begin);
    ghost var done: seq<real> := [];
    sum, min, max, finished := 0.0, DBL_MAX, 0.0, 0;
    var n := 0;
    while n < |starts|
      invariant 0 <= n <= |starts| && |done| == n
      invariant forall i :: 0 <= i < n ==> done[i] == micros(Cycles(starts[i], ends[i]))
      invariant latencies[..n] == done
      invariant sum == Sum(done) && Extremes(done, min, max)
      invariant finished == Finished(ends[..n], first, micros)
    {
      var latency := micros(Cycles(starts[n], ends[n]));
      finished := CountFinished(ends, n, first, micros, finished);
      StoreSample(latencies, n, latency, done);
      SumSnoc(done, latency);
      sum := sum + latency;
      min, max := Widen(done, latency, min, max);
      done := done + [latency];
      n := n + 1;
    }
    assert latencies[..] == latencies[..n] && ends == ends[..n];
    assert done == Latencies(starts, ends, micros);
    if |starts| > 0 { ExtremesAreAttained(done, min, max); }
  }

  /** The second pass over the sorted samples. */
  method SecondPass(latencies: array<real>, average: real) returns (sumsq: real)
    ensures sumsq == SumSq(latencies[..], average)
  {
    sumsq := 0.0;
    var n := 0;
    while n < latencies.Length
      invariant 0 <= n <= latencies.Length && sumsq == SumSq(latencies[..n], average)
    {
      assert latencies[..n + 1][..n] == latencies[..n];
      sumsq := sumsq + (latencies[n] - average) * (latencies[n] - average);
      n := n + 1;
    }
    assert latencies[..] == latencies[..n];
  }

  /** What the report says, figure by figure, of the unsorted latencies and a sorted permutation. */
  ghost predicate Reported(s: seq<real>, sorted: seq<real>, r: Stats)
    requires |s| > 0
  {
    var n := |s|;
    && Least(r.min, s) && Greatest(r.max, s) && r.average == Average(s) && r.sumsq == SumSq(s, r.average)
    && Permuted(s, sorted) && Sorted(sorted) && |sorted| == n
    && r.median == sorted[n / 2] && r.percent90 == sorted[n * 9 / 10] && r.percent99 == sorted[n * 99 / 100]
  }

  /** The figures after both passes and the sort. */
  method ComputeStats(starts: seq<nat>, ends: seq<nat>, begin: nat, rate: nat)
    returns (r: Stats, sorted: seq<real>)
    requires rate > 0 && |starts| == |ends| > 0
    requires forall n :: 0 <= n < |starts| ==> starts[n] < U64 && ends[n] < U64
    ensures Reported(Latencies(starts, ends, Micros(rate)), sorted, r)
    ensures r.finished == Finished(ends, Micros(rate)(begin), Micros(rate))
  {
    var length := |starts|;
    var latencies := new real[length](_ => 0.0);
    MicrosBounded(rate);
    var sum, min, max, finished := FirstPass(starts, ends, begin, Micros(rate), latencies);
    ghost var s := latencies[..];
    SortLatencies(latencies);
    sorted := latencies[..];
    TotalsPermute(s, sorted, Itself(), 0.0);
    var average := sum / length as real;
    var sumsq := SecondPass(latencies, average);
    TotalsPermute(s, sorted, SquaredFrom(average), 0.0);
    r := Stats(latencies[length / 2], average, min, max, sumsq,
               latencies[length * 9 / 10], latencies[length * 99 / 100], finished);
  }

  /** The figures stand in order, each rank has its share of the samples at or below it and no more
      strictly below, and the variance is bounded by the distances of the average from the extremes. */
  ghost predicate Coherent(s: seq<real>, r: Stats) {
    && r.min <= r.median <= r.percent90 <= r.percent99 <= r.max
    && 2 * AtMost(s, r.median) > |s| && 10 * AtMost(s, r.percent90) > 9 * |s|
    && 100 * AtMost(s, r.percent99) > 99 * |s|
    && 2 * Below(s, r.median) <= |s| && 10 * Below(s, r.percent90) <= 9 * |s| && 100 * Below(s, r.percent99) <= 99 * |s|
    && r.sumsq <= |s| as real * ((r.max - r.average) * (r.average - r.min))
  }

  lemma ReportFacts(s: seq<real>, sorted: seq<real>, r: Stats)
    requires |s| > 0 && Reported(s, sorted, r)
    ensures Coherent(s, r)
  {
    RankStatistics(s, sorted, r.min, r.max);
    VarianceFacts(s, r);
  }

  lemma VarianceFacts(s: seq<real>, r: Stats)
    requires |s| > 0 && Least(r.min, s) && Greatest(r.max, s)
    requires r.average == Average(s) && r.sumsq == SumSq(s, r.average)
    ensures r.sumsq <= |s| as real * ((r.max - r.average) * (r.average - r.min))
  {
    AverageTimes(s);
    VarianceBound(s, r.min, r.max, r.average);
  }

  /** Sample `n` is the time from start to end in microseconds: times the clock rate, it is a million
      times the ticks elapsed. */
  ghost predicate Measured(s: seq<real>, starts: seq<nat>, ends: seq<nat>, rate: nat) {
    && |s| == |starts| == |ends|
    && forall n :: 0 <= n < |s| && ends[n] >= starts[n] ==>
         s[n] * rate as real == ((ends[n] - starts[n]) * 1000000) as real
  }

  lemma LatenciesMeasure(starts: seq<nat>, ends: seq<nat>, rate: nat)
    requires rate > 0 && |starts| == |ends|
    requires forall n :: 0 <= n < |starts| ==> starts[n] < U64 && ends[n] < U64
    ensures Measured(Latencies(starts, ends, Micros(rate)), starts, ends, rate)
  {
    var s := Latencies(starts, ends, Micros(rate));
    forall n | 0 <= n < |s| && ends[n] >= starts[n]
      ensures s[n] * rate as real == ((ends[n] - starts[n]) * 1000000) as real
    {
      MicrosIs(rate, ends[n] - starts[n]);
    }
  }

  /** The report, and the sorted samples it was read from. Every figure is stated on the unsorted
      latencies, and the ranks on some sorted permutation of them. */
  method LatencyReport(starts: seq<nat>, ends: seq<nat>, begin: nat, rate: nat)
    returns (r: Stats, sorted: seq<real>)
    requires rate > 0 && |starts| == |ends| > 0
    requires forall n :: 0 <= n < |starts| ==> starts[n] < U64 && ends[n] < U64
    ensures var s := Latencies(starts, ends, Micros(rate));
            Measured(s, starts, ends, rate) && Reported(s, sorted, r) && Coherent(s, r)
    ensures r.finished == |Punctual(ends, begin, rate)|
  {
    r, sorted := ComputeStats(starts, ends, begin, rate);
    LatenciesMeasure(starts, ends, rate);
    FinishedIs(ends, begin, rate);
    ReportFacts(Latencies(starts, ends, Micros(rate)), sorted, r);
  }
}
