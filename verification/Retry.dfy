/**
 Bounded retry with a backoff schedule.

 A call is driven by an oracle that says how each attempt turns out and by the
 random draws the jitter uses. The dictionary of failure reasons is a multiset
 of exception names, and backoff is exact real arithmetic.
 */
module Retry {
  import opened Seqs

  /** Permanent is `give_up_on`, Transient is `retry_on`, Unexpected is everything else. */
  datatype FailureKind = Permanent | Transient | Unexpected

  /** One attempt. A write that reports a failure may still have reached the table. */
  datatype Outcome = Ok | Fail(kind: FailureKind, name: string, landed: bool) {
    predicate Retried() { Fail? && kind == Transient }
    predicate Recorded() { Fail? && kind != Unexpected }
    predicate Landed() { Ok? || landed }
  }

  /** How the attempts of one call turn out; an attempt the script does not mention succeeds. */
  function Attempt(script: seq<Outcome>, i: nat): Outcome { Nth(script, i, Ok) }

  datatype Policy = Policy(scheduleMs: seq<int>, maxAttempts: int, jitterRatio: real) {
    function Budget(): nat { if maxAttempts < 1 then 1 else maxAttempts }
  }

  datatype Stats = Stats(attempts: nat, successes: nat, failuresExhausted: nat,
                         retriesBeforeSuccess: nat, totalBackoffMs: real, reasons: multiset<string>)

  function Merged(a: Stats, b: Stats): Stats {
    Stats(a.attempts + b.attempts, a.successes + b.successes,
          a.failuresExhausted + b.failuresExhausted,
          a.retriesBeforeSuccess + b.retriesBeforeSuccess,
          a.totalBackoffMs + b.totalBackoffMs, a.reasons + b.reasons)
  }

  const NO_STATS := Stats(0, 0, 0, 0, 0.0, multiset{})

  datatype CallResult =
    | Succeeded
    | Exhausted(attempts: nat, lastError: string)  // RetriesExhausted
    | Propagated(error: string)                    // an exception nobody caught

  class RetryStats {
    var attempts: nat
    var successes: nat
    var failuresExhausted: nat
    var retriesBeforeSuccess: nat
    var totalBackoffMs: real
    var failureReasons: multiset<string>

    function Value(): Stats
      reads this
    {
      Stats(attempts, successes, failuresExhausted, retriesBeforeSuccess, totalBackoffMs, failureReasons)
    }

    constructor ()
      ensures Value() == NO_STATS
    {
      attempts, successes, failuresExhausted, retriesBeforeSuccess := 0, 0, 0, 0;
      totalBackoffMs, failureReasons := 0.0, multiset{};
    }

    method StartAttempt()
      modifies this
      ensures Value() == old(Value()).(attempts := old(attempts) + 1)
    {
      attempts := attempts + 1;
    }

    method RecordReason(name: string)
      modifies this
      ensures Value() == old(Value()).(reasons := old(failureReasons) + multiset{name})
    {
      failureReasons := failureReasons + multiset{name};
    }

    method AddBackoff(ms: real)
      modifies this
      ensures Value() == old(Value()).(totalBackoffMs := old(totalBackoffMs) + ms)
    {
      totalBackoffMs := totalBackoffMs + ms;
    }

    method RecordSuccess(retries: nat)
      modifies this
      ensures Value() == old(Value()).(successes := old(successes) + 1,
                                       retriesBeforeSuccess := old(retriesBeforeSuccess) + retries)
    {
      successes := successes + 1;
      retriesBeforeSuccess := retriesBeforeSuccess + retries;
    }

    method RecordExhausted()
      modifies this
      ensures Value() == old(Value()).(failuresExhausted := old(failuresExhausted) + 1)
    {
      failuresExhausted := failuresExhausted + 1;
    }

    /** The fast-path failure that made a write a retried one. */
    method RecordExtraRetry()
      modifies this
      ensures Value() == old(Value()).(retriesBeforeSuccess := old(retriesBeforeSuccess) + 1)
    {
      retriesBeforeSuccess := retriesBeforeSuccess + 1;
    }

    method Merge(other: RetryStats)
      modifies this
      ensures Value() == Merged(old(Value()), old(other.Value()))
    {
      attempts := attempts + other.attempts;
      successes := successes + other.successes;
      failuresExhausted := failuresExhausted + other.failuresExhausted;
      retriesBeforeSuccess := retriesBeforeSuccess + other.retriesBeforeSuccess;
      totalBackoffMs := totalBackoffMs + other.totalBackoffMs;
      failureReasons := failureReasons + other.failureReasons;
    }
  }

  // ------------------------------------------------------------ backoff

  function Max(a: real, b: real): real { if a < b then b else a }

  function BaseMs(scheduleMs: seq<int>, index: nat): real
    requires scheduleMs != []
  {
    scheduleMs[if index < |scheduleMs| then index else |scheduleMs| - 1] as real
  }

  /** `max(0, uniform(base - spread, base + spread))`. */
  function Jittered(base: real, spread: real, draw: real): real {
    var lo, hi := base - spread, base + spread;
    Max(0.0, lo + (hi - lo) * draw)
  }

  /** `delay_ms`; `draw` is the uniform draw in [0, 1]. */
  function DelayMs(p: Policy, index: nat, draw: real): real {
    if p.scheduleMs == [] then 0.0
    else
      var base := BaseMs(p.scheduleMs, index);
      if p.jitterRatio <= 0.0 then base
      else Jittered(base, base * p.jitterRatio, draw)
  }

  predicate NonNegative(scheduleMs: seq<int>) {
    forall d <- scheduleMs :: d >= 0
  }

  function JitterDown(p: Policy): real {
    if p.jitterRatio <= 0.0 then 1.0 else if p.jitterRatio >= 1.0 then 0.0 else 1.0 - p.jitterRatio
  }

  function JitterUp(p: Policy): real {
    if p.jitterRatio <= 0.0 then 1.0 else 1.0 + p.jitterRatio
  }

  /**
   A delay runs evenly from base less spread, cut off at 0, to base plus spread:
   the base is the schedule's entry for the attempt, or the last one.
   */
  lemma DelayMeans(p: Policy, index: nat, draw: real, base: real, spread: real)
    requires p.scheduleMs != [] && base >= 0.0 && 0.0 <= draw <= 1.0 && spread == base * p.jitterRatio
    requires base == (if index < |p.scheduleMs| then p.scheduleMs[index] else p.scheduleMs[|p.scheduleMs| - 1]) as real
    ensures p.jitterRatio <= 0.0 ==> DelayMs(p, index, draw) == base
    ensures p.jitterRatio > 0.0 ==> DelayMs(p, index, draw) == NotNegative(base + spread * (2.0 * draw - 1.0))
  {
    assert BaseMs(p.scheduleMs, index) == base;
    hide BaseMs, Jittered, NotNegative;
    if p.jitterRatio > 0.0 { EvenSpread(base, spread, draw); }
  }

  function NotNegative(x: real): real { if x < 0.0 then 0.0 else x }

  lemma EvenSpread(base: real, spread: real, draw: real)
    ensures Jittered(base, spread, draw) == NotNegative(base + spread * (2.0 * draw - 1.0))
  {
    assert spread * (2.0 * draw - 1.0) == 2.0 * (spread * draw) - spread;
    assert (2.0 * spread) * draw == 2.0 * (spread * draw);
    assert base + spread - (base - spread) == 2.0 * spread;
  }

  lemma JitterInBand(base: real, spread: real, draw: real)
    requires base >= 0.0 && spread >= 0.0 && 0.0 <= draw <= 1.0
    ensures 0.0 <= Jittered(base, spread, draw)
    ensures base - spread <= Jittered(base, spread, draw) <= base + spread
  {
    var width := 2.0 * spread;
    assert (base + spread) - (base - spread) == width;
    assert width * draw >= 0.0;
    assert width * (1.0 - draw) >= 0.0;
    assert width * draw + width * (1.0 - draw) == width;
  }

  lemma Distribute(base: real, j: real)
    ensures base * (1.0 - j) == base - base * j && base * (1.0 + j) == base + base * j
  {
  }

  lemma DelayInBand(p: Policy, index: nat, draw: real)
    requires p.scheduleMs != [] && NonNegative(p.scheduleMs) && 0.0 <= draw <= 1.0
    ensures BaseMs(p.scheduleMs, index) * JitterDown(p) <= DelayMs(p, index, draw)
    ensures DelayMs(p, index, draw) <= BaseMs(p.scheduleMs, index) * JitterUp(p)
    ensures DelayMs(p, index, draw) >= 0.0
  {
    var base, j := BaseMs(p.scheduleMs, index), p.jitterRatio;
    assert p.scheduleMs[if index < |p.scheduleMs| then index else |p.scheduleMs| - 1] in p.scheduleMs;
    assert base >= 0.0;
    hide BaseMs, NonNegative, Jittered;
    if j <= 0.0 {
      assert DelayMs(p, index, draw) == base && JitterDown(p) == 1.0 && JitterUp(p) == 1.0;
    } else {
      assert DelayMs(p, index, draw) == Jittered(base, base * j, draw);
      hide DelayMs;
      ScaledJitter(base, j, draw);
    }
  }

  /** With the spread a share of the base, the band is a multiple of the base. */
  lemma ScaledJitter(base: real, j: real, draw: real)
    requires base >= 0.0 && j > 0.0 && 0.0 <= draw <= 1.0
    ensures Jittered(base, base * j, draw) >= 0.0
    ensures base * (if j >= 1.0 then 0.0 else 1.0 - j) <= Jittered(base, base * j, draw) <= base * (1.0 + j)
  {
    assert base * j >= 0.0;
    JitterInBand(base, base * j, draw);
    hide Jittered;
    Distribute(base, j);
  }

  ghost predicate IsDelay(p: Policy, i: nat, ms: real) {
    exists draw :: 0.0 <= draw <= 1.0 && ms == DelayMs(p, i, draw)
  }

  ghost predicate WaitsOf(p: Policy, waits: seq<real>, n: nat) {
    forall i | 0 <= i < n :: IsDelay(p, i, Nth(waits, i, 0.0))
  }

  /** `total_backoff_ms` after the first `n` waits. */
  function TotalBackoffMs(waits: seq<real>, n: nat): real {
    if n == 0 then 0.0 else TotalBackoffMs(waits, n - 1) + Nth(waits, n - 1, 0.0)
  }

  /** The calls to `sleep` among the first `n` waits: exactly the positive delays, in order. */
  function SleepsMs(waits: seq<real>, n: nat): seq<real> {
    if n == 0 then []
    else SleepsMs(waits, n - 1) + (if Nth(waits, n - 1, 0.0) > 0.0 then [Nth(waits, n - 1, 0.0)] else [])
  }

  /** The smallest and largest delays the policy can hand out after `n` attempts. */
  function LowestMs(p: Policy, n: nat): seq<real> {
    seq(n, (i: nat) => if p.scheduleMs == [] then 0.0 else BaseMs(p.scheduleMs, i) * JitterDown(p))
  }

  function HighestMs(p: Policy, n: nat): seq<real> {
    seq(n, (i: nat) => if p.scheduleMs == [] then 0.0 else BaseMs(p.scheduleMs, i) * JitterUp(p))
  }

  ghost predicate Between(lo: seq<real>, waits: seq<real>, hi: seq<real>, n: nat) {
    forall i {:trigger Nth(waits, i, 0.0)} | 0 <= i < n ::
      0.0 <= Nth(waits, i, 0.0) && Nth(lo, i, 0.0) <= Nth(waits, i, 0.0) <= Nth(hi, i, 0.0)
  }

  lemma DelayIsBetween(p: Policy, n: nat, i: nat, ms: real)
    requires i < n && IsDelay(p, i, ms) && NonNegative(p.scheduleMs)
    ensures 0.0 <= ms && Nth(LowestMs(p, n), i, 0.0) <= ms <= Nth(HighestMs(p, n), i, 0.0)
  {
    hide DelayMs, BaseMs, JitterDown, JitterUp;
    var draw :| 0.0 <= draw <= 1.0 && ms == DelayMs(p, i, draw);
    if p.scheduleMs == [] {
      NoSchedule(p, i, draw);
    } else {
      DelayInBand(p, i, draw);
    }
  }

  lemma NoSchedule(p: Policy, i: nat, draw: real)
    requires p.scheduleMs == []
    ensures DelayMs(p, i, draw) == 0.0
  {
  }

  lemma PolicyBand(p: Policy, waits: seq<real>, n: nat)
    requires WaitsOf(p, waits, n) && NonNegative(p.scheduleMs)
    ensures Between(LowestMs(p, n), waits, HighestMs(p, n), n)
  {
    hide LowestMs, HighestMs, IsDelay;
    forall i: nat | i < n
      ensures 0.0 <= Nth(waits, i, 0.0)
      ensures Nth(LowestMs(p, n), i, 0.0) <= Nth(waits, i, 0.0) <= Nth(HighestMs(p, n), i, 0.0)
    {
      DelayIsBetween(p, n, i, Nth(waits, i, 0.0));
    }
  }

  /** Sums of delays keep the band, and the time slept is the backoff reported. */
  lemma {:induction false} BackoffBetween(lo: seq<real>, waits: seq<real>, hi: seq<real>, n: nat)
    requires Between(lo, waits, hi, n)
    ensures TotalBackoffMs(lo, n) <= TotalBackoffMs(waits, n) <= TotalBackoffMs(hi, n)
    ensures SumBy(x => x, SleepsMs(waits, n)) == TotalBackoffMs(waits, n)
  {
    if n > 0 {
      BackoffBetween(lo, waits, hi, n - 1);
      assert 0.0 <= Nth(waits, n - 1, 0.0);
      hide Between, SumBy, Nth;
      OneMoreSleep(waits, n);
    }
  }

  lemma OneMoreSleep(waits: seq<real>, n: nat)
    requires n > 0 && Nth(waits, n - 1, 0.0) >= 0.0
    ensures SumBy(x => x, SleepsMs(waits, n)) == SumBy(x => x, SleepsMs(waits, n - 1)) + Nth(waits, n - 1, 0.0)
  {
    var d := Nth(waits, n - 1, 0.0);
    var last := if d > 0.0 then [d] else [];
    hide Nth;
    assert SumBy(x => x, last) == d;
    SumByAppend(x => x, SleepsMs(waits, n - 1), last);
  }

  // ------------------------------------------------------------ the retry loop

  /** Index of the attempt that ends the call, looking from attempt `from` on. */
  function LastAttempt(fn: seq<Outcome>, budget: nat, from: nat): (k: nat)
    requires from < budget
    ensures from <= k < budget
    ensures forall i | from <= i < k :: Attempt(fn, i).Retried()
    ensures Attempt(fn, k).Retried() ==> k == budget - 1
    decreases budget - from
  {
    if Attempt(fn, from).Retried() && from + 1 < budget then LastAttempt(fn, budget, from + 1) else from
  }

  /** The contract of LastAttempt leaves only one answer. */
  lemma LastAttemptUnique(fn: seq<Outcome>, budget: nat, k: nat)
    requires k < budget && (forall i | 0 <= i < k :: Attempt(fn, i).Retried())
    requires Attempt(fn, k).Retried() ==> k == budget - 1
    ensures k == LastAttempt(fn, budget, 0)
  {
  }

  function ReasonsOf(fn: seq<Outcome>, n: nat): multiset<string> {
    if n == 0 then multiset{}
    else if Attempt(fn, n - 1).Recorded() then ReasonsOf(fn, n - 1) + multiset{Attempt(fn, n - 1).name}
    else ReasonsOf(fn, n - 1)
  }

  function CallOutcome(fn: seq<Outcome>, budget: nat): CallResult
    requires budget > 0
  {
    var k := LastAttempt(fn, budget, 0);
    if Attempt(fn, k).Ok? then Succeeded
    else if Attempt(fn, k).Recorded() then Exhausted(k + 1, Attempt(fn, k).name)
    else Propagated(Attempt(fn, k).name)
  }

  function CallStats(fn: seq<Outcome>, budget: nat, waits: seq<real>): Stats
    requires budget > 0
  {
    var k := LastAttempt(fn, budget, 0);
    Stats(k + 1, if Attempt(fn, k).Ok? then 1 else 0, if Attempt(fn, k).Recorded() then 1 else 0,
          if Attempt(fn, k).Ok? then k else 0, TotalBackoffMs(waits, k), ReasonsOf(fn, k + 1))
  }

  /** The statistics while attempt `k` is running and all before it were retried. */
  ghost function Running(before: Stats, fn: seq<Outcome>, waits: seq<real>, k: nat): Stats {
    before.(attempts := before.attempts + k + 1,
            totalBackoffMs := before.totalBackoffMs + TotalBackoffMs(waits, k),
            reasons := before.reasons + ReasonsOf(fn, k))
  }

  ghost function Ended(s: Stats, outcome: Outcome, k: nat): Stats {
    if outcome.Ok? then s.(successes := s.successes + 1, retriesBeforeSuccess := s.retriesBeforeSuccess + k)
    else if outcome.Recorded() then
      s.(reasons := s.reasons + multiset{outcome.name}, failuresExhausted := s.failuresExhausted + 1)
    else s
  }

  lemma CallEnds(fn: seq<Outcome>, budget: nat, waits: seq<real>, before: Stats, k: nat)
    requires k < budget && (forall i | 0 <= i < k :: Attempt(fn, i).Retried())
    requires Attempt(fn, k).Retried() ==> k == budget - 1
    ensures k == LastAttempt(fn, budget, 0)
    ensures Merged(before, CallStats(fn, budget, waits)) ==
            Ended(Running(before, fn, waits, k), Attempt(fn, k), k)
  {
    LastAttemptUnique(fn, budget, k);
    ReasonsEnd(fn, k, before.reasons);
    hide LastAttempt, ReasonsOf, TotalBackoffMs, Attempt;
  }

  lemma ReasonsEnd(fn: seq<Outcome>, k: nat, reasons: multiset<string>)
    ensures var last := Attempt(fn, k);
      && (last.Recorded() ==>
          reasons + ReasonsOf(fn, k + 1) == reasons + ReasonsOf(fn, k) + multiset{last.name})
      && (!last.Recorded() ==> ReasonsOf(fn, k + 1) == ReasonsOf(fn, k))
  {
  }

  lemma RunningSnoc(before: Stats, fn: seq<Outcome>, waits: seq<real>, k: nat)
    requires Attempt(fn, k).Recorded()
    ensures var s := Running(before, fn, waits, k);
            Running(before, fn, waits, k + 1) ==
            s.(reasons := s.reasons + multiset{Attempt(fn, k).name},
               totalBackoffMs := s.totalBackoffMs + Nth(waits, k, 0.0), attempts := s.attempts + 1)
  {
    var r, n := ReasonsOf(fn, k), multiset{Attempt(fn, k).name};
    assert before.reasons + (r + n) == before.reasons + r + n;
  }

  lemma RunningFirst(before: Stats, fn: seq<Outcome>, waits: seq<real>)
    ensures Running(before, fn, waits, 0) == before.(attempts := before.attempts + 1)
    ensures SleepsMs(waits, 0) == []
  {
  }

  /** One failed attempt that will be retried, up to the start of the next. */
  method RetryOnce(fn: seq<Outcome>, waits: seq<real>, attempt: nat, stats: RetryStats, ghost before: Stats)
    returns (slept: seq<real>)
    requires Attempt(fn, attempt).Retried()
    requires stats.Value() == Running(before, fn, waits, attempt)
    modifies stats
    ensures stats.Value() == Running(before, fn, waits, attempt + 1)
    ensures SleepsMs(waits, attempt) + slept == SleepsMs(waits, attempt + 1)
  {
    RunningSnoc(before, fn, waits, attempt);
    stats.RecordReason(Attempt(fn, attempt).name);
    var waitMs := Nth(waits, attempt, 0.0);
    stats.AddBackoff(waitMs);
    slept := if waitMs > 0.0 then [waitMs] else [];
    stats.StartAttempt();
  }

  /** The loop up to the attempt that ends the call. */
  method RetryTransients(fn: seq<Outcome>, budget: nat, waits: seq<real>, stats: RetryStats)
    returns (attempt: nat, sleeps: seq<real>)
    requires budget > 0
    modifies stats
    ensures attempt == LastAttempt(fn, budget, 0)
    ensures stats.Value() == Running(old(stats.Value()), fn, waits, attempt)
    ensures sleeps == SleepsMs(waits, attempt)
  {
    ghost var before := stats.Value();
    sleeps := [];
    attempt := 0;
    stats.StartAttempt();
    RunningFirst(before, fn, waits);
    hide Running, LastAttempt, Attempt, Outcome.Retried, SleepsMs;
    while Attempt(fn, attempt).Retried() && attempt < budget - 1
      invariant 0 <= attempt < budget
      invariant forall i | 0 <= i < attempt :: Attempt(fn, i).Retried()
      invariant stats.Value() == Running(before, fn, waits, attempt)
      invariant sleeps == SleepsMs(waits, attempt)
    {
      var slept := RetryOnce(fn, waits, attempt, stats, before);
      sleeps := sleeps + slept;
      attempt := attempt + 1;
    }
    LastAttemptUnique(fn, budget, attempt);
  }

  /** The first `n` attempts of a script fail in a way that is retried. */
  predicate Transients(fn: seq<Outcome>, n: nat) {
    n <= |fn| && forall i | 0 <= i < n :: fn[i].Fail? && fn[i].kind == Transient
  }

  lemma LastIs(fn: seq<Outcome>, p: Policy, n: nat)
    requires Transients(fn, n) && (n == 0 || n < p.maxAttempts)
    requires n == |fn| || !fn[n].Retried() || n + 1 >= p.maxAttempts
    ensures p.Budget() > 0 && LastAttempt(fn, p.Budget(), 0) == n
    ensures Attempt(fn, n) == if n < |fn| then fn[n] else Ok
  {
    hide LastAttempt;
    forall i | 0 <= i < n ensures Attempt(fn, i).Retried() { assert Attempt(fn, i) == fn[i]; }
    LastAttemptUnique(fn, p.Budget(), n);
  }

  /** The names of the first `n` failures. */
  function Names(fn: seq<Outcome>, n: nat): seq<string>
    requires n <= |fn| && forall i | 0 <= i < n :: fn[i].Fail?
  {
    seq(n, i requires 0 <= i < n => fn[i].name)
  }

  lemma {:induction false} NamedReasons(fn: seq<Outcome>, n: nat)
    requires Transients(fn, n)
    ensures ReasonsOf(fn, n) == multiset(Names(fn, n))
  {
    if n > 0 {
      NamedReasons(fn, n - 1);
      assert Attempt(fn, n - 1) == fn[n - 1];
      assert Names(fn, n) == Names(fn, n - 1) + [fn[n - 1].name];
    }
  }

  lemma ReasonsUpTo(fn: seq<Outcome>, n: nat)
    requires Transients(fn, n)
    ensures n < |fn| && fn[n].Recorded() ==> ReasonsOf(fn, n + 1) == multiset(Names(fn, n + 1))
    ensures n == |fn| || !fn[n].Recorded() ==> ReasonsOf(fn, n + 1) == multiset(Names(fn, n))
  {
    NamedReasons(fn, n);
    assert n < |fn| ==> Attempt(fn, n) == fn[n];
    if n < |fn| && fn[n].Recorded() {
      assert Names(fn, n + 1) == Names(fn, n) + [fn[n].name];
    }
    hide Attempt, Transients;
  }

  /**
   A call read off its script: `max(1, max_attempts)` attempts are allowed, and
   the first one that is not a transient failure, or the last allowed, decides.
   */
  lemma CallIsDecided(fn: seq<Outcome>, p: Policy, waits: seq<real>, n: nat)
    requires Transients(fn, n) && (n == 0 || n < p.maxAttempts)
    ensures var r, s := CallOutcome(fn, p.Budget()), CallStats(fn, p.Budget(), waits);
      if n == |fn| || fn[n].Ok? then
        r == Succeeded && s.attempts == n + 1 && s.successes == 1 && s.failuresExhausted == 0
        && s.retriesBeforeSuccess == n && s.reasons == multiset(Names(fn, n))
      else
        && (fn[n].kind == Permanent || (fn[n].kind == Transient && n + 1 >= p.maxAttempts) ==>
            && r == Exhausted(n + 1, fn[n].name) && s.attempts == n + 1 && s.successes == 0
            && s.failuresExhausted == 1 && s.retriesBeforeSuccess == 0 && s.reasons == multiset(Names(fn, n + 1)))
        && (fn[n].kind == Unexpected ==>
            && r == Propagated(fn[n].name) && s.attempts == n + 1 && s.successes == 0
            && s.failuresExhausted == 0 && s.retriesBeforeSuccess == 0 && s.reasons == multiset(Names(fn, n)))
  {
    hide LastAttempt, Attempt, ReasonsOf, TotalBackoffMs;
    if n == |fn| || !fn[n].Retried() || n + 1 >= p.maxAttempts {
      LastIs(fn, p, n);
      ReasonsUpTo(fn, n);
    }
  }

  method CallWithRetry(fn: seq<Outcome>, p: Policy, waits: seq<real>, stats: RetryStats)
    returns (result: CallResult, sleeps: seq<real>)
    modifies stats
    ensures result == CallOutcome(fn, p.Budget())
    ensures stats.Value() == Merged(old(stats.Value()), CallStats(fn, p.Budget(), waits))
    ensures sleeps == SleepsMs(waits, LastAttempt(fn, p.Budget(), 0))
  {
    var last;
    last, sleeps := RetryTransients(fn, p.Budget(), waits, stats);
    CallEnds(fn, p.Budget(), waits, old(stats.Value()), last);
    var outcome := Attempt(fn, last);
    if outcome.Ok? {
      stats.RecordSuccess(last);
      result := Succeeded;
    } else if outcome.Recorded() {
      stats.RecordReason(outcome.name);
      stats.RecordExhausted();
      result := Exhausted(last + 1, outcome.name);
    } else {
      result := Propagated(outcome.name);
    }
  }

  lemma {:induction false} ReasonsCount(fn: seq<Outcome>, n: nat)
    requires forall i | 0 <= i < n :: Attempt(fn, i).Retried()
    ensures |ReasonsOf(fn, n)| == n
  {
    if n > 0 {
      ReasonsCount(fn, n - 1);
    }
  }

  /**
   What one call spends: at least one attempt and at most the budget, one
   success or one exhaustion (or neither when an exception propagates), every
   attempt accounted for, and backoff inside the jittered schedule.
   */
  lemma RetryBudget(fn: seq<Outcome>, p: Policy, waits: seq<real>)
    requires WaitsOf(p, waits, p.Budget()) && NonNegative(p.scheduleMs)
    ensures var s, r := CallStats(fn, p.Budget(), waits), CallOutcome(fn, p.Budget());
            && 1 <= s.attempts <= p.Budget()
            && s.successes == (if r.Succeeded? then 1 else 0)
            && s.failuresExhausted == (if r.Exhausted? then 1 else 0)
            && (r.Exhausted? ==> r.attempts == s.attempts)
            && s.attempts == s.successes + |s.reasons| + (if r.Propagated? then 1 else 0)
            && (r.Succeeded? ==> s.retriesBeforeSuccess == s.attempts - 1)
            && TotalBackoffMs(LowestMs(p, s.attempts - 1), s.attempts - 1) <= s.totalBackoffMs
            && s.totalBackoffMs <= TotalBackoffMs(HighestMs(p, s.attempts - 1), s.attempts - 1)
            && SumBy(x => x, SleepsMs(waits, s.attempts - 1)) == s.totalBackoffMs
  {
    var k := LastAttempt(fn, p.Budget(), 0);
    ReasonsCount(fn, k);
    PolicyBand(p, waits, k);
    BackoffBetween(LowestMs(p, k), waits, HighestMs(p, k), k);
  }

  // ------------------------------------------------------------ chunking

  /** The only way to cut `items` into full chunks and one last, possibly shorter, chunk. */
  predicate ChunksOf<T(==)>(chunks: seq<seq<T>>, items: seq<T>, size: nat)
    requires size > 0
  {
    && Flatten(chunks) == items
    && (forall i | 0 <= i < |chunks| :: 0 < |chunks[i]| <= size)
    && (forall i | 0 <= i < |chunks| - 1 :: |chunks[i]| == size)
  }

  function ChunkLimit(size: int): nat { if size < 1 then 1 else size }

  /** `batched`; a size below one yields every item on its own. */
  method Batched<T(==)>(items: seq<T>, size: int) returns (chunks: seq<seq<T>>)
    ensures ChunksOf(chunks, items, ChunkLimit(size))
  {
    chunks := [];
    var batch: seq<T> := [];
    for i := 0 to |items|
      invariant Flatten(chunks) + batch == items[..i]
      invariant forall j | 0 <= j < |chunks| :: |chunks[j]| == ChunkLimit(size)
      invariant |batch| < ChunkLimit(size)
    {
      ghost var grown := Flatten(chunks) + (batch + [items[i]]);
      assert grown == Flatten(chunks) + batch + [items[i]] == items[..i + 1];
      batch := batch + [items[i]];
      if |batch| >= size {
        FlattenSnoc(chunks, batch);
        chunks := chunks + [batch];
        batch := [];
        assert Flatten(chunks) + batch == grown;
      }
    }
    assert items[..|items|] == items;
    if batch != [] {
      FlattenSnoc(chunks, batch);
      chunks := chunks + [batch];
    } else {
      assert Flatten(chunks) + batch == Flatten(chunks);
    }
  }

  lemma {:induction false} ChunksUnique<T(!new)>(a: seq<seq<T>>, b: seq<seq<T>>, items: seq<T>, size: nat)
    requires size > 0 && ChunksOf(a, items, size) && ChunksOf(b, items, size)
    ensures a == b
    decreases |a|
  {
    if a == [] {
      assert items == [];
      if b != [] {
        FirstChunk(b, items, size);
      }
    } else {
      FirstChunk(a, items, size);
      assert b != [];
      FirstChunk(b, items, size);
      ChunksUnique(a[1..], b[1..], items[|a[0]|..], size);
    }
  }

  lemma FirstChunk<T(!new)>(a: seq<seq<T>>, items: seq<T>, size: nat)
    requires size > 0 && ChunksOf(a, items, size) && a != []
    ensures |a[0]| == (if |items| < size then |items| else size) && a[0] == items[..|a[0]|]
    ensures ChunksOf(a[1..], items[|a[0]|..], size)
  {
    assert items == a[0] + Flatten(a[1..]);
    if |a| > 1 {
      assert |a[0]| == size;
    } else {
      assert a[1..] == [];
    }
  }
}
