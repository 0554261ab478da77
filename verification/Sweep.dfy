/** The throughput sweep: steps at given rates, an early stop, and the rate judged sustainable. */
module Sweep {
  import opened Options

  /** A step whose scenario left no report counts as failed, and announcing it raises: it carries no reasons. */
  datatype Outcome = Sustained | Failed | NoReport

  datatype Step = Step(rate: real, outcome: Outcome)

  datatype Result = Result(steps: seq<Step>, sustained: Option<Step>, firstFailing: Option<real>)

  // ------------------------------------------------------------ what the loop tests

  /** Failures in a row at the end of the first `n` steps. */
  function Trailing(plan: seq<Step>, n: nat): nat
    requires n <= |plan|
  {
    if n == 0 || plan[n - 1].outcome.Sustained? then 0 else Trailing(plan, n - 1) + 1
  }

  /** Step `m`, counted from one, neither raises nor stops the sweep. */
  predicate Passes(plan: seq<Step>, stopAfter: int, m: nat)
    requires 1 <= m <= |plan|
  {
    !plan[m - 1].outcome.NoReport? && Trailing(plan, m) < stopAfter
  }

  /** The sweep gets past its first `n` steps. */
  ghost predicate GoesPast(plan: seq<Step>, stopAfter: int, n: nat)
    requires n <= |plan|
  {
    forall m | 1 <= m <= n :: Passes(plan, stopAfter, m)
  }

  /** The sweep ends with `n` steps tested: no earlier end, and either a reason to stop or no step left. */
  ghost predicate EndsAt(plan: seq<Step>, stopAfter: int, n: nat)
    requires n <= |plan|
  {
    && (n > 0 ==> GoesPast(plan, stopAfter, n - 1) && !plan[n - 1].outcome.NoReport?)
    && (n == |plan| || (n > 0 && Trailing(plan, n) >= stopAfter))
  }

  /** `None` when the sweep raises. The outcomes are what each step would give. */
  method TestRates(plan: seq<Step>, stopAfter: int) returns (steps: Option<seq<Step>>)
    ensures steps.Some? ==>
      exists n | 0 <= n <= |plan| :: steps.value == plan[..n] && EndsAt(plan, stopAfter, n)
    ensures steps.None? ==>
      exists n | 0 <= n < |plan| :: plan[n].outcome.NoReport? && GoesPast(plan, stopAfter, n)
  {
    var tested: seq<Step> := [];
    var failures := 0;
    for i := 0 to |plan|
      invariant tested == plan[..i] && failures == Trailing(plan, i) && GoesPast(plan, stopAfter, i)
    {
      var step := plan[i];
      tested := tested + [step];
      if step.outcome.NoReport? { return None; }
      failures := if step.outcome.Sustained? then 0 else failures + 1;
      if failures >= stopAfter {
        assert EndsAt(plan, stopAfter, i + 1);
        return Some(tested);
      }
      assert Passes(plan, stopAfter, i + 1);
    }
    if plan != [] { assert Passes(plan, stopAfter, |plan|); }
    assert EndsAt(plan, stopAfter, |plan|);
    return Some(tested);
  }

  /** The last `k` of the first `n` steps all failed. */
  predicate FailedInARow(plan: seq<Step>, n: nat, k: int)
    requires n <= |plan|
  {
    k <= 0 || (k <= n && forall i | n - k <= i < n :: plan[i].outcome != Sustained)
  }

  lemma {:induction false} TrailingMeans(plan: seq<Step>, n: nat, k: int)
    requires n <= |plan|
    ensures Trailing(plan, n) >= k <==> FailedInARow(plan, n, k)
  {
    if k > 0 && n > 0 { TrailingMeans(plan, n - 1, k - 1); }
  }

  /** Where a sweep ends: the first place with `stopAfter` failures in a row behind it, or the last step. */
  lemma EndMeans(plan: seq<Step>, stopAfter: int, n: nat)
    requires n <= |plan|
    ensures EndsAt(plan, stopAfter, n) <==>
            && (forall i | 0 <= i < n :: plan[i].outcome != NoReport)
            && (n < |plan| ==> n > 0 && FailedInARow(plan, n, stopAfter))
            && (forall m | 0 < m < n :: !FailedInARow(plan, m, stopAfter))
  {
    if n > 0 {
      TrailingMeans(plan, n, stopAfter);
      PastMeans(plan, stopAfter, n - 1);
    }
  }

  /** A sweep gets past steps that all report and among which it met no end. */
  lemma PastMeans(plan: seq<Step>, stopAfter: int, n: nat)
    requires n <= |plan|
    ensures GoesPast(plan, stopAfter, n) <==>
            && (forall i | 0 <= i < n :: plan[i].outcome != NoReport)
            && (forall m | 0 < m <= n :: !FailedInARow(plan, m, stopAfter))
  {
    forall m: nat | 0 < m <= n
      ensures Passes(plan, stopAfter, m) <==>
              plan[m - 1].outcome != NoReport && !FailedInARow(plan, m, stopAfter)
    {
      TrailingMeans(plan, m, stopAfter);
    }
    hide Passes, FailedInARow;
    if GoesPast(plan, stopAfter, n) {
      forall i | 0 <= i < n ensures plan[i].outcome != NoReport { assert Passes(plan, stopAfter, i + 1); }
    }
  }

  // ------------------------------------------------------------ what is read off the steps

  function Inserted(step: Step, steps: seq<Step>): seq<Step> {
    if steps == [] || step.rate <= steps[0].rate then [step] + steps else [steps[0]] + Inserted(step, steps[1..])
  }

  /** Sorted by rate, equal rates in their order of testing. */
  function ByRate(steps: seq<Step>): seq<Step> {
    if steps == [] then [] else Inserted(steps[0], ByRate(steps[1..]))
  }

  /** The last step of the sustained prefix. */
  function LastSustained(sorted: seq<Step>): Option<Step> {
    if sorted == [] || !sorted[0].outcome.Sustained? then None
    else
      var rest := LastSustained(sorted[1..]);
      if rest.None? then Some(sorted[0]) else rest
  }

  function FirstFailing(steps: seq<Step>): Option<real> {
    if steps == [] then None
    else if !steps[0].outcome.Sustained? then Some(steps[0].rate)
    else FirstFailing(steps[1..])
  }

  function OfRate(steps: seq<Step>, rate: real): seq<Step> {
    if steps == [] then [] else (if steps[0].rate == rate then [steps[0]] else []) + OfRate(steps[1..], rate)
  }

  ghost predicate RatesRise(steps: seq<Step>) { forall i, j | 0 <= i < j < |steps| :: steps[i].rate <= steps[j].rate }

  lemma {:induction false} InsertedMembers(step: Step, steps: seq<Step>)
    ensures multiset(Inserted(step, steps)) == multiset(steps) + multiset{step}
  {
    if steps != [] {
      InsertedMembers(step, steps[1..]);
      assert steps == [steps[0]] + steps[1..];
    }
  }

  lemma RisesBefore(first: Step, rest: seq<Step>)
    requires RatesRise(rest) && forall s <- rest :: first.rate <= s.rate
    ensures RatesRise([first] + rest)
  {
  }

  lemma {:induction false} InsertedRises(step: Step, steps: seq<Step>)
    requires RatesRise(steps)
    ensures RatesRise(Inserted(step, steps))
  {
    if steps != [] && step.rate > steps[0].rate {
      var first, tail := steps[0], steps[1..];
      var rest := Inserted(step, tail);
      InsertedRises(step, tail);
      InsertedMembers(step, tail);
      forall j | 0 <= j < |rest| ensures first.rate <= rest[j].rate {
        assert rest[j] in multiset(rest);
        assert rest[j] == step || rest[j] in tail;
      }
      RisesBefore(first, rest);
    }
  }

  lemma OfRateHead(step: Step, steps: seq<Step>, rate: real)
    ensures OfRate([step] + steps, rate) == (if step.rate == rate then [step] else []) + OfRate(steps, rate)
  {
    assert ([step] + steps)[1..] == steps;
  }

  lemma AtMostOne<T>(a: seq<T>, b: seq<T>, c: seq<T>)
    requires a == [] || b == []
    ensures a + (b + c) == b + (a + c)
  {
  }

  lemma {:induction false} InsertedKeepsOrder(step: Step, steps: seq<Step>, rate: real)
    ensures OfRate(Inserted(step, steps), rate) == OfRate([step] + steps, rate)
  {
    if steps != [] && step.rate > steps[0].rate {
      var head, tail := steps[0], steps[1..];
      InsertedKeepsOrder(step, tail, rate);
      assert Inserted(step, steps) == [head] + Inserted(step, tail);
      hide Inserted, OfRate;
      OfRateHead(head, Inserted(step, tail), rate);
      OfRateHead(step, tail, rate);
      OfRateHead(step, steps, rate);
      assert steps == [head] + tail;
      OfRateHead(head, tail, rate);
      AtMostOne(if head.rate == rate then [head] else [], if step.rate == rate then [step] else [], OfRate(tail, rate));
    }
  }

  /** Sorting by rate: the same steps, rates rising, and steps of one rate in the order they were tested. */
  lemma {:induction false} ByRateSorts(steps: seq<Step>, rate: real)
    ensures RatesRise(ByRate(steps)) && multiset(ByRate(steps)) == multiset(steps)
    ensures OfRate(ByRate(steps), rate) == OfRate(steps, rate)
  {
    if steps != [] {
      var rest := ByRate(steps[1..]);
      ByRateSorts(steps[1..], rate);
      InsertedMembers(steps[0], rest);
      InsertedRises(steps[0], rest);
      InsertedKeepsOrder(steps[0], rest, rate);
      OfRateHead(steps[0], rest, rate);
      OfRateHead(steps[0], steps[1..], rate);
      assert steps == [steps[0]] + steps[1..];
      hide RatesRise, Inserted, OfRate;
    }
  }

  method ReadOff(steps: seq<Step>) returns (r: Result)
    ensures r == Result(steps, LastSustained(ByRate(steps)), FirstFailing(steps))
  {
    var sorted, sustainable := ByRate(steps), None;
    var i := 0;
    while i < |sorted| && sorted[i].outcome.Sustained?
      invariant 0 <= i <= |sorted|
      invariant LastSustained(sorted)
             == if LastSustained(sorted[i..]).None? then sustainable else LastSustained(sorted[i..])
    {
      sustainable := Some(sorted[i]);
      i := i + 1;
    }
    r := Result(steps, sustainable, FirstFailing(steps));
  }

  // ------------------------------------------------------------ stopping early loses nothing

  ghost predicate Ascending(steps: seq<Step>) {
    forall i, j | 0 <= i < j < |steps| :: steps[i].rate < steps[j].rate
  }

  lemma {:induction false} AscendingIsSorted(steps: seq<Step>)
    requires Ascending(steps)
    ensures ByRate(steps) == steps
  {
    if steps != [] { AscendingIsSorted(steps[1..]); }
  }

  /** Steps after a failure change neither figure. */
  lemma {:induction false} FiguresOfPrefix(steps: seq<Step>, n: nat, failed: nat)
    requires failed < n <= |steps| && !steps[failed].outcome.Sustained?
    ensures LastSustained(steps[..n]) == LastSustained(steps)
    ensures FirstFailing(steps[..n]) == FirstFailing(steps)
  {
    if failed > 0 {
      FiguresOfPrefix(steps[1..], n - 1, failed - 1);
      assert steps[..n][1..] == steps[1..][..n - 1];
    }
  }

  /**
   With rates ascending and at least one failure needed to stop, a sweep that
   completes reads off what the full sweep would, whatever the untested steps
   would have given.
   */
  lemma EarlyStopIsHarmless(plan: seq<Step>, stopAfter: int, n: nat)
    requires Ascending(plan) && stopAfter >= 1 && n <= |plan| && EndsAt(plan, stopAfter, n)
    ensures LastSustained(ByRate(plan[..n])) == LastSustained(ByRate(plan))
    ensures FirstFailing(plan[..n]) == FirstFailing(plan)
  {
    AscendingIsSorted(plan);
    AscendingIsSorted(plan[..n]);
    if n < |plan| {
      assert !plan[n - 1].outcome.Sustained?;
      FiguresOfPrefix(plan, n, n - 1);
    } else {
      assert plan[..n] == plan;
    }
  }

  lemma OneStepTested(plan: seq<Step>, stopAfter: int, n: nat)
    requires stopAfter <= 0 && n <= |plan| && EndsAt(plan, stopAfter, n)
    ensures n == if plan == [] then 0 else 1
  {
    if plan != [] { assert !Passes(plan, stopAfter, 1); }
  }

  /** The first step alone gives the end of the sustained prefix exactly unless the first two are sustained. */
  lemma FirstTwo(plan: seq<Step>)
    requires plan != [] && Ascending(plan)
    ensures LastSustained(plan[..1]) == LastSustained(plan)
       <==> |plan| < 2 || !plan[0].outcome.Sustained? || !plan[1].outcome.Sustained?
  {
    assert plan[..1][1..] == [];
    if |plan| >= 2 {
      assert plan[1..][0] == plan[1];
      LastSustainedIsMember(plan[1..]);
    } else {
      assert plan[..1] == plan;
    }
  }

  /** A sweep told to stop after no failures tests one step, which is enough exactly when the prefix ends there. */
  lemma StopAtOnce(plan: seq<Step>, stopAfter: int, n: nat)
    requires Ascending(plan) && stopAfter <= 0 && n <= |plan| && EndsAt(plan, stopAfter, n)
    ensures n == if plan == [] then 0 else 1
    ensures LastSustained(ByRate(plan[..n])) == LastSustained(ByRate(plan))
       <==> |plan| < 2 || !plan[0].outcome.Sustained? || !plan[1].outcome.Sustained?
  {
    OneStepTested(plan, stopAfter, n);
    AscendingIsSorted(plan);
    AscendingIsSorted(plan[..n]);
    hide Ascending, EndsAt, ByRate;
    if plan == [] {
      assert plan[..n] == plan;
    } else {
      FirstTwo(plan);
    }
  }

  lemma {:induction false} LastSustainedIsMember(steps: seq<Step>)
    ensures LastSustained(steps).Some? <==> steps != [] && steps[0].outcome.Sustained?
    ensures LastSustained(steps).Some? ==> LastSustained(steps).value in steps
  {
    if steps != [] { LastSustainedIsMember(steps[1..]); }
  }

  /** Where the sustained prefix ends. */
  lemma {:induction false} PrefixEnd(steps: seq<Step>) returns (k: nat)
    requires LastSustained(steps).Some?
    ensures k < |steps| && steps[k] == LastSustained(steps).value
    ensures forall i | 0 <= i <= k :: steps[i].outcome.Sustained?
    ensures k + 1 < |steps| ==> !steps[k + 1].outcome.Sustained?
  {
    k := 0;
    if LastSustained(steps[1..]).Some? {
      var before := PrefixEnd(steps[1..]);
      k := before + 1;
      forall i | 1 <= i <= k ensures steps[i].outcome.Sustained? {
        assert steps[i] == steps[1..][i - 1];
      }
    } else {
      LastSustainedIsMember(steps[1..]);
    }
  }

  lemma RatesFollowPlaces(steps: seq<Step>, i: nat, k: nat)
    requires Ascending(steps) && i < |steps| && k < |steps|
    ensures steps[i].rate <= steps[k].rate <==> i <= k
  {
    assert i < k ==> steps[i].rate < steps[k].rate;
    assert k < i ==> steps[k].rate < steps[i].rate;
  }

  /** The rate reported is the highest with every tested rate up to it sustained. */
  lemma SustainedIsHighest(steps: seq<Step>)
    requires Ascending(steps)
    ensures var best := LastSustained(ByRate(steps));
      && (best.None? <==> steps == [] || !steps[0].outcome.Sustained?)
      && (best.Some? ==>
        && best.value in steps
        && (forall i | 0 <= i < |steps| && steps[i].rate <= best.value.rate :: steps[i].outcome.Sustained?)
        && (forall i | 0 <= i < |steps| && steps[i].rate > best.value.rate ::
              exists j | 0 <= j <= i :: !steps[j].outcome.Sustained?))
  {
    AscendingIsSorted(steps);
    LastSustainedIsMember(steps);
    hide LastSustained, ByRate, Ascending;
    if LastSustained(steps).Some? {
      var k := PrefixEnd(steps);
      forall i | 0 <= i < |steps| ensures steps[i].rate <= steps[k].rate <==> i <= k {
        RatesFollowPlaces(steps, i, k);
      }
    }
  }
}
