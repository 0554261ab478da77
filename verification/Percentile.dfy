/** The latency report: percentiles interpolated over sorted samples, and the verdicts read off them. */
module Percentile {
  import opened Options
  import opened Seqs

  ghost predicate Ascending(s: seq<int>) { forall i, j | 0 <= i <= j < |s| :: s[i] <= s[j] }

  /** Where the percentile falls between the first sample and the last. */
  function Rank(n: nat, p: real): (k: real)
    requires n > 0 && 0.0 <= p <= 100.0
    ensures 0.0 <= k <= (n - 1) as real
  {
    ShareWithin(n, p);
    (n - 1) as real * (p / 100.0)
  }

  lemma ProductIsNonNegative(x: real, y: real)
    requires x >= 0.0 && y >= 0.0
    ensures x * y >= 0.0
  {
  }

  lemma PartOfOne(p: real)
    requires 0.0 <= p <= 100.0
    ensures 0.0 <= p / 100.0 <= 1.0
  {
  }

  lemma ShareWithin(n: nat, p: real)
    requires n > 0 && 0.0 <= p <= 100.0
    ensures 0.0 <= (n - 1) as real * (p / 100.0) <= (n - 1) as real
  {
    var span, share := (n - 1) as real, p / 100.0;
    PartOfOne(p);
    ProductIsNonNegative(span, share);
    ProductIsNonNegative(span, 1.0 - share);
    assert span * share + span * (1.0 - share) == span;
  }

  function Ceiling(x: real): int { if x.Floor as real == x then x.Floor else x.Floor + 1 }

  function Between(a: int, b: int, t: real): real { a as real + (b - a) as real * t }

  /** `None` is Python's not-a-number. */
  function PercentileOf(s: seq<int>, p: real): Option<real>
    requires 0.0 <= p <= 100.0
  {
    if s == [] then None
    else if |s| == 1 then Some(s[0] as real)
    else
      var k := Rank(|s|, p);
      var lo, hi := k.Floor, Ceiling(k);
      if lo == hi then Some(s[lo] as real)
      else Some(Between(s[lo], s[hi], k - lo as real))
  }

  /** The value at a fractional position, a straight line between neighbours. */
  function ValueAt(s: seq<int>, k: real): real
    requires s != [] && 0.0 <= k <= (|s| - 1) as real
  {
    var lo := k.Floor;
    if lo == |s| - 1 then s[lo] as real
    else Between(s[lo], s[lo + 1], k - lo as real)
  }

  lemma BetweenStarts(a: int, b: int)
    ensures Between(a, b, 0.0) == a as real
  {
  }

  lemma PercentileIsValueAtRank(s: seq<int>, p: real)
    requires s != [] && 0.0 <= p <= 100.0
    ensures PercentileOf(s, p) == Some(ValueAt(s, Rank(|s|, p)))
  {
    var k := Rank(|s|, p);
    hide Rank, Between;
    var lo := k.Floor;
    BetweenStarts(s[lo], if lo + 1 < |s| then s[lo + 1] else 0);
    if |s| == 1 {
      assert lo == 0;
    } else if lo == |s| - 1 {
      assert k == lo as real && Ceiling(k) == lo;
    } else if k == lo as real {
      assert Ceiling(k) == lo && k - lo as real == 0.0;
    } else {
      assert Ceiling(k) == lo + 1;
    }
  }

  /** A point on a rising step lies between the step's ends. */
  lemma OnStep(a: int, b: int, t: real)
    requires a <= b && 0.0 <= t <= 1.0
    ensures a as real <= Between(a, b, t) <= b as real
  {
    var step, rest := (b - a) as real, 1.0 - t;
    ProductIsNonNegative(step, t);
    ProductIsNonNegative(step, rest);
    assert step * t + step * rest == step;
  }

  lemma ValueWithin(s: seq<int>, k: real)
    requires s != [] && Ascending(s) && 0.0 <= k <= (|s| - 1) as real
    ensures s[k.Floor] as real <= ValueAt(s, k)
    ensures k.Floor + 1 < |s| ==> ValueAt(s, k) <= s[k.Floor + 1] as real
    ensures s[0] as real <= ValueAt(s, k) <= s[|s| - 1] as real
  {
    var lo := k.Floor;
    if lo < |s| - 1 { OnStep(s[lo], s[lo + 1], k - lo as real); }
  }

  lemma BetweenGrows(a: int, b: int, t: real, u: real)
    requires a <= b && t <= u
    ensures Between(a, b, t) <= Between(a, b, u)
  {
    var step := (b - a) as real;
    ProductIsNonNegative(step, u - t);
    assert step * u == step * t + step * (u - t);
  }

  lemma ValueIsMonotone(s: seq<int>, k: real, l: real)
    requires s != [] && Ascending(s) && 0.0 <= k <= l <= (|s| - 1) as real
    ensures ValueAt(s, k) <= ValueAt(s, l)
  {
    ValueWithin(s, k);
    ValueWithin(s, l);
    hide Between;
    var lo := k.Floor;
    if lo == l.Floor {
      if lo < |s| - 1 { BetweenGrows(s[lo], s[lo + 1], k - lo as real, l - lo as real); }
    } else {
      assert s[lo + 1] <= s[l.Floor];
    }
  }

  lemma RankIsMonotone(n: nat, p: real, q: real)
    requires n > 0 && 0.0 <= p <= q <= 100.0
    ensures Rank(n, p) <= Rank(n, q)
  {
    var span, a, b := (n - 1) as real, p / 100.0, q / 100.0;
    ProductIsNonNegative(span, b - a);
    assert span * b == span * a + span * (b - a);
  }

  /** A percentile lies between the extremes and never falls as the level rises. */
  lemma PercentilesAreOrdered(s: seq<int>, p: real, q: real)
    requires s != [] && Ascending(s) && 0.0 <= p <= q <= 100.0
    ensures PercentileOf(s, p).Some? && PercentileOf(s, q).Some?
    ensures s[0] as real <= PercentileOf(s, p).value <= PercentileOf(s, q).value <= s[|s| - 1] as real
  {
    hide Rank, PercentileOf;
    PercentileIsValueAtRank(s, p);
    PercentileIsValueAtRank(s, q);
    RankIsMonotone(|s|, p, q);
    ValueIsMonotone(s, Rank(|s|, p), Rank(|s|, q));
    ValueWithin(s, Rank(|s|, p));
    ValueWithin(s, Rank(|s|, q));
  }

  // ------------------------------------------------------------ samples under a threshold

  function Under(s: seq<int>, t: int): nat {
    if s == [] then 0 else Under(s[..|s| - 1], t) + if s[|s| - 1] < t then 1 else 0
  }

  /** In sorted samples the small ones come first. */
  lemma {:induction false} UnderIsAPrefix(s: seq<int>, t: int)
    requires Ascending(s)
    ensures Under(s, t) <= |s|
    ensures forall i | 0 <= i < |s| :: s[i] < t <==> i < Under(s, t)
  {
    if s != [] { UnderIsAPrefix(s[..|s| - 1], t); }
  }

  /** A percentile under the threshold puts every sample up to its rank under it; one at or over it does the reverse. */
  lemma PercentileCountsSamples(s: seq<int>, p: real, t: int)
    requires s != [] && Ascending(s) && 0.0 <= p <= 100.0
    ensures PercentileOf(s, p).Some?
    ensures PercentileOf(s, p).value < t as real ==> Under(s, t) >= Rank(|s|, p).Floor + 1
    ensures PercentileOf(s, p).value >= t as real ==> Under(s, t) <= Ceiling(Rank(|s|, p))
  {
    hide PercentileOf, Under;
    var k := Rank(|s|, p);
    hide Rank;
    PercentileIsValueAtRank(s, p);
    ValueWithin(s, k);
    UnderIsAPrefix(s, t);
    if ValueAt(s, k) < t as real {
      assert s[k.Floor] < t;
    } else if k.Floor as real == k {
      assert ValueAt(s, k) == s[k.Floor] as real;
    } else {
      assert s[k.Floor + 1] >= t;
    }
  }

  // ------------------------------------------------------------ the report

  datatype Level = P99 | P95 | P50 | Never

  datatype LatencyReport = LatencyReport(samples: nat, min: int, p50: real, p90: real, p95: real, p99: real, p999: real,
                                         max: int, mean: real, subSecondAt: Level, pctUnder1s: real, pctUnder500: real)

  function Inserted(x: int, s: seq<int>): seq<int> {
    if s == [] || x <= s[0] then [x] + s else [s[0]] + Inserted(x, s[1..])
  }

  function Sorted(s: seq<int>): seq<int> { if s == [] then [] else Inserted(s[0], Sorted(s[1..])) }

  lemma {:induction false} InsertedMembers(x: int, s: seq<int>)
    ensures multiset(Inserted(x, s)) == multiset(s) + multiset{x}
  {
    if s != [] {
      InsertedMembers(x, s[1..]);
      assert s == [s[0]] + s[1..];
    }
  }

  lemma PrependAscending(x: int, s: seq<int>)
    requires Ascending(s) && forall i | 0 <= i < |s| :: x <= s[i]
    ensures Ascending([x] + s)
  {
  }

  lemma {:induction false} InsertedIsAscending(x: int, s: seq<int>)
    requires Ascending(s)
    ensures Ascending(Inserted(x, s))
  {
    if s == [] || x <= s[0] {
      PrependAscending(x, s);
    } else {
      var rest := Inserted(x, s[1..]);
      InsertedIsAscending(x, s[1..]);
      InsertedMembers(x, s[1..]);
      forall i | 0 <= i < |rest| ensures s[0] <= rest[i] {
        assert rest[i] in multiset(rest);
        assert rest[i] == x || rest[i] in s[1..];
      }
      PrependAscending(s[0], rest);
    }
  }

  lemma {:induction false} SortedIsAscending(s: seq<int>)
    ensures Ascending(Sorted(s)) && multiset(Sorted(s)) == multiset(s) && |Sorted(s)| == |s|
  {
    if s != [] {
      var x, rest := s[0], Sorted(s[1..]);
      assert s == [x] + s[1..];
      SortedIsAscending(s[1..]);
      InsertedIsAscending(x, rest);
      InsertedMembers(x, rest);
      assert Sorted(s) == Inserted(x, rest);
      hide Ascending, Inserted, Sorted;
      assert multiset(s) == multiset{x} + multiset(s[1..]);
      SameLength(Inserted(x, rest), s);
    }
  }

  lemma AscendingTail(a: seq<int>)
    requires a != [] && Ascending(a)
    ensures Ascending(a[1..])
  {
  }

  lemma FirstIsLeast(a: seq<int>, b: seq<int>)
    requires a != [] && Ascending(a) && |a| == |b| && multiset(a) == multiset(b)
    ensures a[0] <= b[0]
  {
    assert b[0] in multiset(a);
  }

  /** Sorting forgets the order in which samples were read. */
  lemma {:induction false} AscendingIsUnique(a: seq<int>, b: seq<int>)
    requires Ascending(a) && Ascending(b) && multiset(a) == multiset(b)
    ensures a == b
  {
    SameLength(a, b);
    if a != [] {
      SameFirst(a, b);
      TailsMatch(a, b);
      AscendingTail(a);
      AscendingTail(b);
      hide Ascending;
      AscendingIsUnique(a[1..], b[1..]);
      assert a == [a[0]] + a[1..] && b == [b[0]] + b[1..];
    }
  }

  lemma SameFirst(a: seq<int>, b: seq<int>)
    requires a != [] && Ascending(a) && Ascending(b) && |a| == |b| && multiset(a) == multiset(b)
    ensures a[0] == b[0]
  {
    FirstIsLeast(a, b);
    FirstIsLeast(b, a);
  }

  lemma TailsMatch(a: seq<int>, b: seq<int>)
    requires a != [] && |a| == |b| && a[0] == b[0] && multiset(a) == multiset(b)
    ensures multiset(a[1..]) == multiset(b[1..])
  {
    RemoveOne(a, b, 0);
    assert b[..0] + b[1..] == b[1..];
  }

  function AsReal(): int -> real { (x: int) => x as real }

  function ReportOf(s: seq<int>): LatencyReport
    requires s != []
  {
    var n, p50, p95, p99 := |s|, PercentileOf(s, 50.0).value, PercentileOf(s, 95.0).value, PercentileOf(s, 99.0).value;
    LatencyReport(
      n, s[0], p50, PercentileOf(s, 90.0).value, p95, p99, PercentileOf(s, 99.9).value, s[n - 1],
      SumBy(AsReal(), s) / n as real,
      if p99 < 1000.0 then P99 else if p95 < 1000.0 then P95 else if p50 < 1000.0 then P50 else Never,
      100.0 * Under(s, 1000) as real / n as real, 100.0 * Under(s, 500) as real / n as real)
  }

  /** `None` is the report that says there were no samples. */
  function BuildReport(samples: seq<int>): Option<LatencyReport> {
    SortedIsAscending(samples);
    if samples == [] then None else Some(ReportOf(Sorted(samples)))
  }

  lemma ReportForgetsOrder(a: seq<int>, b: seq<int>)
    requires multiset(a) == multiset(b)
    ensures BuildReport(a) == BuildReport(b)
  {
    hide ReportOf;
    SortedIsAscending(a);
    SortedIsAscending(b);
    AscendingIsUnique(Sorted(a), Sorted(b));
  }

  /** The figures of a report are in order. */
  lemma FiguresAreOrdered(samples: seq<int>)
    requires samples != []
    ensures BuildReport(samples).Some?
    ensures var r := BuildReport(samples).value;
      r.min as real <= r.p50 <= r.p90 <= r.p95 <= r.p99 <= r.p999 <= r.max as real
  {
    var s := Sorted(samples);
    SortedIsAscending(samples);
    hide PercentileOf, Sorted, Under;
    PercentilesAreOrdered(s, 50.0, 90.0);
    PercentilesAreOrdered(s, 90.0, 95.0);
    PercentilesAreOrdered(s, 95.0, 99.0);
    PercentilesAreOrdered(s, 99.0, 99.9);
  }

  /** The level named is the highest that meets the second, and all the levels below it meet it too. */
  lemma VerdictImpliesLower(samples: seq<int>)
    requires samples != []
    ensures BuildReport(samples).Some?
    ensures var r := BuildReport(samples).value;
      && (r.subSecondAt == P99 <==> r.p99 < 1000.0)
      && (r.subSecondAt in {P99, P95} <==> r.p95 < 1000.0)
      && (r.subSecondAt in {P99, P95, P50} <==> r.p50 < 1000.0)
  {
    FiguresAreOrdered(samples);
    hide PercentileOf, Sorted, Under;
  }

  lemma ShareGrows(a: int, b: int, n: nat)
    requires n > 0
    ensures a <= b ==> 100.0 * a as real / n as real <= 100.0 * b as real / n as real
  {
  }

  /** The share of samples a level promises under a threshold it is under, and leaves there when it is not. */
  function AtLeast(n: nat, p: real): real
    requires n > 0 && 0.0 <= p <= 100.0
  {
    100.0 * (Rank(n, p).Floor + 1) as real / n as real
  }

  function AtMost(n: nat, p: real): real
    requires n > 0 && 0.0 <= p <= 100.0
  {
    100.0 * Ceiling(Rank(n, p)) as real / n as real
  }

  lemma ShareUnder(s: seq<int>, p: real)
    requires s != [] && Ascending(s) && 0.0 <= p <= 100.0
    ensures PercentileOf(s, p).Some?
    ensures var share := 100.0 * Under(s, 1000) as real / |s| as real;
      if PercentileOf(s, p).value < 1000.0 then AtLeast(|s|, p) <= share else share <= AtMost(|s|, p)
  {
    hide PercentileOf, Under, Rank;
    PercentileCountsSamples(s, p, 1000);
    ShareGrows(Rank(|s|, p).Floor + 1, Under(s, 1000), |s|);
    ShareGrows(Under(s, 1000), Ceiling(Rank(|s|, p)), |s|);
  }

  /** A verdict is a claim about the share of samples under a second. */
  lemma VerdictCountsSamples(samples: seq<int>)
    requires samples != []
    ensures BuildReport(samples).Some?
    ensures var r, n := BuildReport(samples).value, |samples|;
      && (r.subSecondAt == P99 ==> AtLeast(n, 99.0) <= r.pctUnder1s)
      && (r.subSecondAt == P95 ==> AtLeast(n, 95.0) <= r.pctUnder1s <= AtMost(n, 99.0))
      && (r.subSecondAt == P50 ==> AtLeast(n, 50.0) <= r.pctUnder1s <= AtMost(n, 95.0))
      && (r.subSecondAt == Never ==> r.pctUnder1s <= AtMost(n, 50.0))
  {
    SortedIsAscending(samples);
    hide PercentileOf, Sorted, Under, AtLeast, AtMost;
    ShareUnder(Sorted(samples), 99.0);
    ShareUnder(Sorted(samples), 95.0);
    ShareUnder(Sorted(samples), 50.0);
  }

  // ------------------------------------------------------------ the figures themselves

  lemma FloorOfSum(i: nat, t: real)
    requires 0.0 <= t < 1.0
    ensures (i as real + t).Floor == i && i as real + t - i as real == t
  {
  }

  lemma ValueOfStep(s: seq<int>, i: nat, t: real)
    requires i + 1 < |s| && 0.0 <= t < 1.0
    ensures 0.0 <= i as real + t <= (|s| - 1) as real
    ensures ValueAt(s, i as real + t) == (1.0 - t) * s[i] as real + t * s[i + 1] as real
  {
    hide Between;
    FloorOfSum(i, t);
    LinearStep(s[i], s[i + 1], t);
  }

  /** Interpolation is linear: a rank a share `t` past position `i` gets that share of the step to the next sample. */
  lemma PercentileInterpolates(s: seq<int>, i: nat, t: real, p: real)
    requires i + 1 < |s| && 0.0 <= t < 1.0 && 0.0 <= p <= 100.0
    requires p * (|s| - 1) as real == 100.0 * (i as real + t)
    ensures PercentileOf(s, p) == Some((1.0 - t) * s[i] as real + t * s[i + 1] as real)
  {
    hide PercentileOf, Rank, ValueAt;
    RankIs(|s|, p, i as real + t);
    PercentileIsValueAtRank(s, p);
    ValueOfStep(s, i, t);
  }

  lemma RankIs(n: nat, p: real, k: real)
    requires n > 0 && 0.0 <= p <= 100.0 && p * (n - 1) as real == 100.0 * k
    ensures Rank(n, p) == k
  {
    var span, share := (n - 1) as real, p / 100.0;
    assert p == 100.0 * share;
    assert 100.0 * (span * share) == span * (100.0 * share);
  }

  lemma LinearStep(a: int, b: int, t: real)
    ensures Between(a, b, t) == (1.0 - t) * a as real + t * b as real
  {
    assert (b - a) as real * t == b as real * t - a as real * t;
  }

  /** The hundredth percentile is the last sample, and one sample has all percentiles. */
  lemma TopPercentile(s: seq<int>)
    requires s != []
    ensures PercentileOf(s, 100.0) == Some(s[|s| - 1] as real)
    ensures |s| == 1 ==> forall p | 0.0 <= p <= 100.0 :: PercentileOf(s, p) == Some(s[0] as real)
  {
    RankIs(|s|, 100.0, (|s| - 1) as real);
    PercentileIsValueAtRank(s, 100.0);
  }

  function Total(samples: seq<int>): int { if samples == [] then 0 else samples[0] + Total(samples[1..]) }

  /** How many samples are under a limit. */
  function Fewer(samples: seq<int>, limit: int): nat {
    if samples == [] then 0 else (if samples[0] < limit then 1 else 0) + Fewer(samples[1..], limit)
  }

  lemma {:induction false} TotalIsSum(s: seq<int>)
    ensures SumBy(AsReal(), s) == Total(s) as real
  {
    if s != [] { TotalIsSum(s[1..]); }
  }

  lemma {:induction false} InsertedTotals(x: int, s: seq<int>, limit: int)
    ensures Total(Inserted(x, s)) == x + Total(s)
    ensures Fewer(Inserted(x, s), limit) == (if x < limit then 1 else 0) + Fewer(s, limit)
  {
    if s != [] { InsertedTotals(x, s[1..], limit); }
  }

  lemma {:induction false} SortedTotals(samples: seq<int>, limit: int)
    ensures Total(Sorted(samples)) == Total(samples) && Fewer(Sorted(samples), limit) == Fewer(samples, limit)
  {
    hide Inserted;
    if samples != [] {
      SortedTotals(samples[1..], limit);
      InsertedTotals(samples[0], Sorted(samples[1..]), limit);
    }
  }

  lemma {:induction false} FewerSnoc(s: seq<int>, x: int, limit: int)
    ensures Fewer(s + [x], limit) == Fewer(s, limit) + if x < limit then 1 else 0
  {
    if s == [] {
      assert s + [x] == [x] && [x][1..] == [];
    } else {
      assert (s + [x])[1..] == s[1..] + [x];
      FewerSnoc(s[1..], x, limit);
    }
  }

  lemma {:induction false} UnderIsFewer(s: seq<int>, limit: int)
    ensures Under(s, limit) == Fewer(s, limit)
  {
    if s != [] {
      UnderIsFewer(s[..|s| - 1], limit);
      FewerSnoc(s[..|s| - 1], s[|s| - 1], limit);
      assert s == s[..|s| - 1] + [s[|s| - 1]];
    }
  }

  /** The mean and the two shares are of the samples as they were read; the percentiles are of the sorted ones. */
  lemma ReportMeans(samples: seq<int>)
    requires samples != []
    ensures BuildReport(samples).Some?
    ensures var r, n, s := BuildReport(samples).value, |samples|, Sorted(samples);
      && r.samples == n && |s| == n && r.min == s[0] && r.max == s[n - 1]
      && r.mean == Total(samples) as real / n as real
      && r.pctUnder1s == 100.0 * Fewer(samples, 1000) as real / n as real
      && r.pctUnder500 == 100.0 * Fewer(samples, 500) as real / n as real
      && Some(r.p50) == PercentileOf(s, 50.0) && Some(r.p90) == PercentileOf(s, 90.0)
      && Some(r.p95) == PercentileOf(s, 95.0) && Some(r.p99) == PercentileOf(s, 99.0)
      && Some(r.p999) == PercentileOf(s, 99.9)
  {
    hide PercentileOf, Sorted, Under, Fewer, Total, Rank, ValueAt, SumBy;
    var s := Sorted(samples);
    SortedIsAscending(samples);
    PercentileIsValueAtRank(s, 50.0);
    PercentileIsValueAtRank(s, 90.0);
    PercentileIsValueAtRank(s, 95.0);
    PercentileIsValueAtRank(s, 99.0);
    PercentileIsValueAtRank(s, 99.9);
    TotalIsSum(s);
    SortedTotals(samples, 1000);
    SortedTotals(samples, 500);
    UnderIsFewer(s, 1000);
    UnderIsFewer(s, 500);
  }
}
