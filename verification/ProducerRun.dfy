/** A whole run of the producer: the pacing loop and the closing flushes. */
module ProducerRun {
  import opened Options
  import opened Seqs
  import opened Events
  import opened Retry
  import opened Producer

  const BURST := 2000

  /** One generated event, how sending it goes, and whether it is deliberately sent again. */
  datatype Emission = Emission(event: Message, script: SendScript, duplicate: bool, again: SendScript)

  const NO_SCRIPT := SendScript([], [], [], false)
  const NO_EMISSION := Emission(NotJson(""), NO_SCRIPT, false, NO_SCRIPT)

  /** One pass of the loop: the clock at its test and after it, what is generated, and what the client reports. */
  datatype Tick = Tick(guard: real, now: real, emissions: seq<Emission>, reports: seq<Report>, raises: seq<bool>)

  /** The loop is told to stop when the ticks run out. */
  datatype Plan = Plan(rate: real, duration: real, started: real, ticks: seq<Tick>, flushed: seq<Report>,
                       raises: seq<bool>, flushedAgain: seq<Report>, ended: real)

  datatype RunReport = RunReport(generated: nat, duplicates: nat, remaining: nat, attainment: Option<real>)

  /** Python's `int`: toward zero. */
  function Truncated(x: real): int { if x >= 0.0 then x.Floor else -((-x).Floor) }

  /** What the rate allows by a time, and the whole events in that. */
  function Allowed(plan: Plan, now: real): real { (now - plan.started) * plan.rate }

  function Due(plan: Plan, now: real): int { Truncated(Allowed(plan, now)) }

  /** How many events a pass may generate. */
  function Budget(plan: Plan, now: real, generated: nat): nat {
    if plan.rate > 0.0 then
      var due := Due(plan, now) - generated;
      if due <= 0 then 0 else if due < BURST then due else BURST
    else BURST
  }

  function GeneratedAfter(plan: Plan, i: nat): nat
    requires i <= |plan.ticks|
  {
    if i == 0 then 0
    else var before := GeneratedAfter(plan, i - 1); before + Budget(plan, plan.ticks[i - 1].now, before)
  }

  /** The number of passes: up to the first test that finds the deadline reached. */
  function Passes(plan: Plan, i: nat): (n: nat)
    requires i <= |plan.ticks|
    ensures i <= n <= |plan.ticks|
    ensures forall j | i <= j < n :: plan.ticks[j].guard < plan.started + plan.duration
    ensures n < |plan.ticks| ==> plan.ticks[n].guard >= plan.started + plan.duration
    decreases |plan.ticks| - i
  {
    if i < |plan.ticks| && plan.ticks[i].guard < plan.started + plan.duration then Passes(plan, i + 1) else i
  }

  /** What `n` emissions hand to `_send`: each event, and again if it is duplicated. */
  function Handed(emissions: seq<Emission>, n: nat): seq<Message> {
    if n == 0 then []
    else
      var e := Nth(emissions, n - 1, NO_EMISSION);
      Handed(emissions, n - 1) + if e.duplicate then [e.event, e.event] else [e.event]
  }

  function Duplicates(emissions: seq<Emission>, n: nat): nat {
    if n == 0 then 0 else Duplicates(emissions, n - 1) + if Nth(emissions, n - 1, NO_EMISSION).duplicate then 1 else 0
  }

  function HandedAfter(plan: Plan, i: nat): seq<Message>
    requires i <= |plan.ticks|
  {
    if i == 0 then []
    else
      var t := plan.ticks[i - 1];
      HandedAfter(plan, i - 1) + Handed(t.emissions, Budget(plan, t.now, GeneratedAfter(plan, i - 1)))
  }

  function DuplicatesAfter(plan: Plan, i: nat): nat
    requires i <= |plan.ticks|
  {
    if i == 0 then 0
    else
      var t := plan.ticks[i - 1];
      DuplicatesAfter(plan, i - 1) + Duplicates(t.emissions, Budget(plan, t.now, GeneratedAfter(plan, i - 1)))
  }

  // ------------------------------------------------------------ dead-letter produces that do not raise

  predicate Calm(e: Emission) { !e.script.dlqRaises && !e.again.dlqRaises }

  ghost predicate CalmTick(t: Tick) {
    NoneRaises(t.raises) && forall i | 0 <= i < |t.emissions| :: Calm(t.emissions[i])
  }

  /** No dead-letter produce of the run raises. */
  ghost predicate CalmPlan(plan: Plan) {
    NoneRaises(plan.raises) && forall i | 0 <= i < |plan.ticks| :: CalmTick(plan.ticks[i])
  }

  // ------------------------------------------------------------ the books of a run

  /** A send of this emission ends in an exception nobody catches. */
  predicate Fails(e: Emission, budget: nat)
    requires budget > 0
  {
    || CallOutcome(e.script.attempts, budget).Propagated?
    || (e.duplicate && CallOutcome(e.again.attempts, budget).Propagated?)
  }

  ghost predicate CleanTick(t: Tick, budget: nat)
    requires budget > 0
  {
    forall i | 0 <= i < |t.emissions| :: !Fails(t.emissions[i], budget)
  }

  /** No send of the run ends in an exception nobody catches. */
  ghost predicate CleanPlan(plan: Plan, budget: nat)
    requires budget > 0
  {
    forall i | 0 <= i < |plan.ticks| :: CleanTick(plan.ticks[i], budget)
  }

  function Emitted(d: Desk, e: Emission, budget: nat): Desk
    requires budget > 0
  {
    var once := d.Sent(e.event, e.script, budget);
    if e.duplicate then once.Sent(e.event, e.again, budget) else once
  }

  function EmittedAll(d: Desk, emissions: seq<Emission>, n: nat, budget: nat): Desk
    requires budget > 0
  {
    if n == 0 then d else Emitted(EmittedAll(d, emissions, n - 1, budget), Nth(emissions, n - 1, NO_EMISSION), budget)
  }

  /** The books after a pass, which with nothing due only polls. */
  function Passed(d: Desk, plan: Plan, t: Tick, generated: nat, policy: Policy): Desk {
    if plan.rate > 0.0 && Due(plan, t.now) <= generated then d.Polled(t.reports)
    else
      EmittedAll(d, t.emissions, Budget(plan, t.now, generated), policy.Budget())
        .Polled(t.reports).Drained(policy.maxAttempts, t.raises)
  }

  /** The books after `i` passes. */
  function RunBooks(d: Desk, plan: Plan, i: nat, policy: Policy): Desk
    requires i <= |plan.ticks|
  {
    if i == 0 then d
    else Passed(RunBooks(d, plan, i - 1, policy), plan, plan.ticks[i - 1], GeneratedAfter(plan, i - 1), policy)
  }

  // ------------------------------------------------------------ running

  /** Sends one generated event, and its duplicate. */
  method Emit(runner: ProducerRunner, e: Emission) returns (error: Option<string>)
    requires runner.Books().Conserved()
    modifies runner, runner.stats
    ensures runner.Books().Conserved()
    ensures error.None? ==>
      && runner.Books() == Emitted(old(runner.Books()), e, runner.policy.Budget())
      && runner.submitted == old(runner.submitted) + if e.duplicate then [e.event, e.event] else [e.event]
    ensures error.Some? ==> Fails(e, runner.policy.Budget())
    ensures Calm(e) ==> runner.lost == old(runner.lost)
  {
    hide Desk.Conserved, Desk.Sent, CallOutcome, CallStats, Merged;
    SentConserves(runner.Books(), e.event, e.script, runner.policy.Budget());
    error := runner.Send(e.event, e.script);
    if error.Some? || !e.duplicate { return; }
    SentConserves(runner.Books(), e.event, e.again, runner.policy.Budget());
    error := runner.Send(e.event, e.again);
  }

  method EmitAll(runner: ProducerRunner, emissions: seq<Emission>, budget: nat)
    returns (error: Option<string>, duplicates: nat)
    requires runner.Books().Conserved()
    modifies runner, runner.stats
    ensures runner.Books().Conserved()
    ensures error.None? ==>
      && runner.Books() == EmittedAll(old(runner.Books()), emissions, budget, runner.policy.Budget())
      && runner.submitted == old(runner.submitted) + Handed(emissions, budget)
      && duplicates == Duplicates(emissions, budget)
    ensures error.Some? ==> exists i | 0 <= i < |emissions| :: Fails(emissions[i], runner.policy.Budget())
    ensures (forall i | 0 <= i < |emissions| :: Calm(emissions[i])) ==> runner.lost == old(runner.lost)
  {
    hide Desk.Conserved, Calm, Emitted, Fails;
    QuietEmission(runner.policy.Budget());
    duplicates := 0;
    for i := 0 to budget
      invariant runner.Books().Conserved()
      invariant runner.Books() == EmittedAll(old(runner.Books()), emissions, i, runner.policy.Budget())
      invariant runner.submitted == old(runner.submitted) + Handed(emissions, i)
      invariant duplicates == Duplicates(emissions, i)
      invariant (forall k | 0 <= k < |emissions| :: Calm(emissions[k])) ==> runner.lost == old(runner.lost)
    {
      var e := Nth(emissions, i, NO_EMISSION);
      error := Emit(runner, e);
      if error.Some? { return; }
      if e.duplicate { duplicates := duplicates + 1; }
    }
    error := None;
  }

  lemma QuietEmission(budget: nat)
    requires budget > 0
    ensures Calm(NO_EMISSION) && !Fails(NO_EMISSION, budget)
  {
    AtOnce(budget);
  }

  /** A script that says nothing succeeds at the first attempt. */
  lemma AtOnce(budget: nat)
    requires budget > 0
    ensures CallOutcome([], budget) == Succeeded
  {
    assert Attempt([], 0).Ok?;
  }

  /** One pass of the loop; with nothing due it only polls. */
  method Pass(runner: ProducerRunner, plan: Plan, t: Tick, generated: nat)
    returns (error: Option<string>, budget: nat, duplicates: nat)
    requires runner.Books().Conserved()
    modifies runner, runner.stats
    ensures runner.Books().Conserved()
    ensures budget == Budget(plan, t.now, generated)
    ensures error.None? ==>
      && runner.Books() == Passed(old(runner.Books()), plan, t, generated, runner.policy)
      && runner.submitted == old(runner.submitted) + Handed(t.emissions, budget)
      && duplicates == Duplicates(t.emissions, budget)
    ensures error.Some? ==> !CleanTick(t, runner.policy.Budget())
    ensures CalmTick(t) ==> runner.lost == old(runner.lost)
  {
    hide Desk.Conserved, Desk.Polled, Desk.Drained, NoneRaises, Calm, Due, EmittedAll, Fails;
    duplicates := 0;
    if plan.rate > 0.0 {
      var due := Due(plan, t.now) - generated;
      if due <= 0 {
        PolledConserves(runner.Books(), t.reports);
        runner.Poll(t.reports);
        return None, 0, 0;
      }
      budget := if due < BURST then due else BURST;
    } else {
      budget := BURST;
    }
    error, duplicates := EmitAll(runner, t.emissions, budget);
    if error.Some? { return; }
    PolledConserves(runner.Books(), t.reports);
    runner.Poll(t.reports);
    DrainedConserves(runner.Books(), runner.policy.maxAttempts, t.raises);
    runner.DrainFailures(runner.policy.maxAttempts, t.raises);
  }

  /** The books after the closing flush and the last drain. */
  function AfterDrain(d: Desk, plan: Plan, retries: int): Desk { d.Polled(plan.flushed).Drained(retries, plan.raises) }

  /** The books after a second flush, which nobody drains after. */
  function Closed(d: Desk, plan: Plan, retries: int): Desk { AfterDrain(d, plan, retries).Polled(plan.flushedAgain) }

  /** What the first flush leaves in the client's queues. */
  function Remaining(d: Desk, plan: Plan): nat { |d.Polled(plan.flushed).inFlight| + |d.Polled(plan.flushed).letters| }

  /** With no event in flight, a poll settles dead letters and nothing else. */
  lemma {:induction false} PolledLettersOnly(d: Desk, reports: seq<Report>)
    requires d.inFlight == []
    ensures d.Polled(reports).inFlight == [] && d.Polled(reports).failures == d.failures
    decreases |reports|
  {
    if reports != [] { PolledLettersOnly(d.Reported(reports[0]), reports[1..]); }
  }

  /** The closing sequence. */
  method Close(runner: ProducerRunner, plan: Plan) returns (remaining: nat)
    requires runner.Books().Conserved()
    modifies runner
    ensures runner.Books() == Closed(old(runner.Books()), plan, runner.policy.maxAttempts)
    ensures runner.Books().Conserved() && runner.submitted == old(runner.submitted)
    ensures remaining == Remaining(old(runner.Books()), plan)
    ensures remaining == 0 ==> runner.inFlight == [] && runner.failedPayloads == []
    ensures NoneRaises(plan.raises) ==> runner.lost == old(runner.lost)
  {
    hide Desk.Conserved, Desk.Polled, Desk.Drained, NoneRaises;
    PolledConserves(runner.Books(), plan.flushed);
    runner.Poll(plan.flushed);
    remaining := |runner.inFlight| + |runner.letters|;
    DrainedConserves(runner.Books(), runner.policy.maxAttempts, plan.raises);
    runner.DrainFailures(runner.policy.maxAttempts, plan.raises);
    if remaining == 0 { PolledLettersOnly(runner.Books(), plan.flushedAgain); }
    PolledConserves(runner.Books(), plan.flushedAgain);
    runner.Poll(plan.flushedAgain);
  }

  /** The pacing loop. */
  method Generate(runner: ProducerRunner, plan: Plan) returns (ok: bool, generated: nat, duplicates: nat)
    requires runner.Books().Conserved()
    modifies runner, runner.stats
    ensures runner.Books().Conserved()
    ensures ok ==> var n := Passes(plan, 0);
      && generated == GeneratedAfter(plan, n) && duplicates == DuplicatesAfter(plan, n)
      && runner.Books() == RunBooks(old(runner.Books()), plan, n, runner.policy)
      && runner.submitted == old(runner.submitted) + HandedAfter(plan, n)
    ensures !ok ==> !CleanPlan(plan, runner.policy.Budget())
    ensures CalmPlan(plan) ==> runner.lost == old(runner.lost)
  {
    hide Desk.Conserved, Budget, Handed, Duplicates, CalmTick, CleanTick, NoneRaises, Passed;
    generated, duplicates := 0, 0;
    var i := 0;
    while i < |plan.ticks| && plan.ticks[i].guard < plan.started + plan.duration
      invariant 0 <= i <= |plan.ticks| && Passes(plan, i) == Passes(plan, 0)
      invariant runner.Books().Conserved()
      invariant generated == GeneratedAfter(plan, i) && duplicates == DuplicatesAfter(plan, i)
      invariant runner.Books() == RunBooks(old(runner.Books()), plan, i, runner.policy)
      invariant runner.submitted == old(runner.submitted) + HandedAfter(plan, i)
      invariant CalmPlan(plan) ==> runner.lost == old(runner.lost)
    {
      var error, budget, again := Pass(runner, plan, plan.ticks[i], generated);
      if error.Some? { return false, generated, duplicates; }
      generated, duplicates, i := generated + budget, duplicates + again, i + 1;
    }
    ok := true;
  }

  /**
   `None` when an exception ends the run, which then some send raised. Otherwise
   `before` is the books when the loop ends. On a fresh runner, if the first
   flush leaves nothing and no dead-letter produce raises, everything generated
   and every duplicate is acknowledged or counted as a dead letter.
   */
  method Run(runner: ProducerRunner, plan: Plan) returns (report: Option<RunReport>, ghost before: Desk)
    requires runner.Books().Conserved()
    modifies runner, runner.stats
    ensures runner.Books().Conserved()
    ensures report.Some? ==> var r, n := report.value, Passes(plan, 0);
      && r.generated == GeneratedAfter(plan, n) && r.duplicates == DuplicatesAfter(plan, n)
      && runner.submitted == old(runner.submitted) + HandedAfter(plan, n)
      && r.attainment == Attainment(plan, r.generated)
    ensures report.Some? ==>
      && before == RunBooks(old(runner.Books()), plan, Passes(plan, 0), runner.policy)
      && before.Conserved() && before.submitted == runner.submitted
      && runner.Books() == Closed(before, plan, runner.policy.maxAttempts)
      && report.value.remaining == Remaining(before, plan)
    ensures report.None? ==> !CleanPlan(plan, runner.policy.Budget())
    ensures report.Some? && report.value.remaining == 0 ==> runner.inFlight == [] && runner.failedPayloads == []
    ensures CalmPlan(plan) ==> runner.lost == old(runner.lost)
    ensures report.Some? && report.value.remaining == 0 && CalmPlan(plan) && old(runner.Books()) == FRESH_DESK ==>
      report.value.generated + report.value.duplicates == runner.acked + runner.dlqCount
  {
    hide Desk.Conserved, Closed, Remaining, Attainment, Passes, GeneratedAfter, DuplicatesAfter, HandedAfter, RunBooks;
    hide CleanPlan, NoneRaises;
    var ok, generated, duplicates := Generate(runner, plan);
    before := runner.Books();
    if !ok { return None, before; }
    var remaining := Close(runner, plan);
    report := Some(RunReport(generated, duplicates, remaining, Attainment(plan, generated)));
    NothingLeftBalances(plan, Passes(plan, 0), runner.Books());
  }

  lemma NothingLeftBalances(plan: Plan, i: nat, d: Desk)
    requires i <= |plan.ticks| && d.Conserved()
    ensures d.submitted == HandedAfter(plan, i) && d.inFlight == [] && d.failures == [] && d.lost == [] ==>
      GeneratedAfter(plan, i) + DuplicatesAfter(plan, i) == d.acked + d.dlqCount
  {
    hide GeneratedAfter, DuplicatesAfter, HandedAfter;
    ConservedCounts(d);
    HandedAfterCount(plan, i);
  }

  function Attainment(plan: Plan, generated: nat): Option<real> {
    var elapsed := plan.ended - plan.started;
    if plan.rate > 0.0 && elapsed != 0.0 then Some(100.0 * (generated as real / elapsed) / plan.rate) else None
  }

  // ------------------------------------------------------------ conservation over a run

  /** The attainment is what was generated as a percentage of what the rate asks of the elapsed time. */
  lemma AttainmentMeans(plan: Plan, generated: nat)
    ensures Attainment(plan, generated).Some? <==> plan.rate > 0.0 && plan.ended != plan.started
    ensures Attainment(plan, generated).Some? ==>
      Attainment(plan, generated).value * ((plan.ended - plan.started) * plan.rate) == 100.0 * generated as real
  {
    if plan.rate > 0.0 && plan.ended != plan.started {
      Percentage(generated as real, plan.ended - plan.started, plan.rate);
    }
  }

  lemma Percentage(generated: real, elapsed: real, rate: real)
    requires elapsed != 0.0 && rate != 0.0
    ensures 100.0 * (generated / elapsed) / rate * (elapsed * rate) == 100.0 * generated
  {
    var speed := generated / elapsed;
    assert speed * elapsed == generated;
    var percent := 100.0 * speed / rate;
    assert percent * rate == 100.0 * speed;
    assert percent * (elapsed * rate) == percent * rate * elapsed;
  }

  lemma {:induction false} HandedCount(emissions: seq<Emission>, n: nat)
    ensures |Handed(emissions, n)| == n + Duplicates(emissions, n)
  {
    if n > 0 { HandedCount(emissions, n - 1); }
  }

  lemma {:induction false} HandedAfterCount(plan: Plan, i: nat)
    requires i <= |plan.ticks|
    ensures |HandedAfter(plan, i)| == GeneratedAfter(plan, i) + DuplicatesAfter(plan, i)
  {
    hide Budget;
    if i > 0 {
      HandedAfterCount(plan, i - 1);
      HandedCount(plan.ticks[i - 1].emissions, Budget(plan, plan.ticks[i - 1].now, GeneratedAfter(plan, i - 1)));
    }
  }

  lemma EmittedBooks(d: Desk, e: Emission, budget: nat)
    requires budget > 0 && d.Conserved() && !Fails(e, budget)
    ensures var after := Emitted(d, e, budget);
      && after.Conserved() && after.submitted == d.submitted + (if e.duplicate then [e.event, e.event] else [e.event])
      && (Calm(e) ==> after.lost == d.lost)
  {
    hide Desk.Conserved, Desk.Sent, CallOutcome;
    SentConserves(d, e.event, e.script, budget);
    var once := d.Sent(e.event, e.script, budget);
    SentConserves(once, e.event, e.again, budget);
    assert d.submitted + [e.event] + [e.event] == d.submitted + [e.event, e.event];
  }

  lemma {:induction false} EmittedAllBooks(d: Desk, emissions: seq<Emission>, n: nat, budget: nat)
    requires budget > 0 && d.Conserved() && forall i | 0 <= i < |emissions| :: !Fails(emissions[i], budget)
    ensures var after := EmittedAll(d, emissions, n, budget);
      && after.Conserved() && after.submitted == d.submitted + Handed(emissions, n)
      && ((forall i | 0 <= i < |emissions| :: Calm(emissions[i])) ==> after.lost == d.lost)
  {
    hide Desk.Conserved, Emitted, Fails, Calm;
    if n > 0 {
      var e := Nth(emissions, n - 1, NO_EMISSION);
      EmittedAllBooks(d, emissions, n - 1, budget);
      QuietEmission(budget);
      EmittedBooks(EmittedAll(d, emissions, n - 1, budget), e, budget);
    }
  }

  /** A pass takes in what is due; unless nothing is, it leaves no failure waiting. */
  lemma PassMeans(d: Desk, plan: Plan, t: Tick, generated: nat, policy: Policy)
    requires d.Conserved() && CleanTick(t, policy.Budget())
    ensures var after, n := Passed(d, plan, t, generated, policy), Budget(plan, t.now, generated);
      && after.Conserved() && after.submitted == d.submitted + Handed(t.emissions, n)
      && after.failures == (if n == 0 then d.failures + Errors(d, t.reports) else [])
      && (n == 0 ==> after.dlqCount == d.dlqCount)
      && (CalmTick(t) ==> after.lost == d.lost)
  {
    hide Desk.Conserved, Desk.Polled, Desk.Drained, EmittedAll, Fails, Calm, Errors, Acks, Due, NoneRaises;
    var n := Budget(plan, t.now, generated);
    if n == 0 {
      PolledConserves(d, t.reports);
      PolledAdds(d, t.reports);
      assert Handed(t.emissions, n) == [];
    } else {
      var sent := EmittedAll(d, t.emissions, n, policy.Budget());
      EmittedAllBooks(d, t.emissions, n, policy.Budget());
      PolledConserves(sent, t.reports);
      DrainedConserves(sent.Polled(t.reports), policy.maxAttempts, t.raises);
    }
  }

  /** The books of a run in which no send raises take in all that was handed over, and lose only what is refused. */
  lemma {:induction false} RunBooksMeans(d: Desk, plan: Plan, i: nat, policy: Policy)
    requires d.Conserved() && i <= |plan.ticks| && CleanPlan(plan, policy.Budget())
    ensures var after := RunBooks(d, plan, i, policy);
      && after.Conserved() && after.submitted == d.submitted + HandedAfter(plan, i)
      && (CalmPlan(plan) ==> after.lost == d.lost)
  {
    hide Desk.Conserved, Passed, CleanTick, CalmTick, NoneRaises, Handed, Budget;
    if i > 0 {
      RunBooksMeans(d, plan, i - 1, policy);
      PassMeans(RunBooks(d, plan, i - 1, policy), plan, plan.ticks[i - 1], GeneratedAfter(plan, i - 1), policy);
    }
  }

  /** The failures a poll reports, in order. */
  function Errors(d: Desk, reports: seq<Report>): seq<Failure>
    decreases |reports|
  {
    if reports == [] then []
    else
      var r := reports[0];
      (if r.OfEvent? && r.slot < |d.inFlight| && r.error.Some? then [Failure(d.inFlight[r.slot], r.error.value)]
       else [])
      + Errors(d.Reported(r), reports[1..])
  }

  /** How many events a poll acknowledges. */
  function Acks(d: Desk, reports: seq<Report>): nat
    decreases |reports|
  {
    if reports == [] then 0
    else
      var r := reports[0];
      (if r.OfEvent? && r.slot < |d.inFlight| && r.error.None? then 1 else 0) + Acks(d.Reported(r), reports[1..])
  }

  lemma {:induction false} PolledAdds(d: Desk, reports: seq<Report>)
    ensures var after := d.Polled(reports);
      && after.failures == d.failures + Errors(d, reports)
      && after.acked == d.acked + Acks(d, reports)
      && |d.inFlight| == Acks(d, reports) + |Errors(d, reports)| + |after.inFlight|
    decreases |reports|
  {
    if reports != [] { PolledAdds(d.Reported(reports[0]), reports[1..]); }
  }

  /** All that the second flush reports as failed stays a failure: none of it is acknowledged or made a dead letter. */
  lemma SecondFlushIsNotDrained(d: Desk, plan: Plan, retries: int)
    requires d.Conserved()
    ensures var before, after := AfterDrain(d, plan, retries), Closed(d, plan, retries);
      && after.failures == Errors(before, plan.flushedAgain) && after.dlqCount == before.dlqCount
      && |d.submitted| == after.acked + after.dlqCount + |Errors(before, plan.flushedAgain)|
                          + |after.inFlight| + |after.lost|
  {
    hide Desk.Conserved, Desk.Polled, Desk.Drained, Errors, Acks;
    PolledConserves(d, plan.flushed);
    DrainedConserves(d.Polled(plan.flushed), retries, plan.raises);
    PolledConserves(AfterDrain(d, plan, retries), plan.flushedAgain);
    PolledAdds(AfterDrain(d, plan, retries), plan.flushedAgain);
    ConservedCounts(Closed(d, plan, retries));
  }

  /**
   Exactly when the counters of a whole run balance, `d` being the books when its
   loop ends, which `Run` hands out: no dead letter was refused, and the second flush acknowledges
   every event the first left in flight. The topics then hold what was sent if
   and only if, besides, every dead letter arrived, and nothing tells that.
   */
  lemma RunConserves(plan: Plan, d: Desk, retries: int)
    requires d.Conserved() && d.submitted == HandedAfter(plan, Passes(plan, 0))
    ensures var n, before, after := Passes(plan, 0), AfterDrain(d, plan, retries), Closed(d, plan, retries);
      && (GeneratedAfter(plan, n) + DuplicatesAfter(plan, n) == after.acked + after.dlqCount <==>
          after.lost == [] && Acks(before, plan.flushedAgain) == |before.inFlight|)
      && (multiset(HandedAfter(plan, n)) == multiset(after.delivered) + multiset(Originals(after.dlq)) <==>
          && GeneratedAfter(plan, n) + DuplicatesAfter(plan, n) == after.acked + after.dlqCount
          && after.letters == [] && after.sunk == [])
  {
    var n := Passes(plan, 0);
    HandedAfterCount(plan, n);
    hide Desk.Conserved, Desk.Polled, Desk.Drained, Errors, Acks, HandedAfter, GeneratedAfter, DuplicatesAfter, Passes;
    var before, after := AfterDrain(d, plan, retries), Closed(d, plan, retries);
    PolledConserves(d, plan.flushed);
    DrainedConserves(d.Polled(plan.flushed), retries, plan.raises);
    PolledConserves(before, plan.flushedAgain);
    PolledAdds(before, plan.flushedAgain);
    ConservedCounts(after);
    TopicsHoldAll(after);
    hide AfterDrain, Closed, Originals;
    NoneLeft(before, after, plan.flushedAgain);
  }

  lemma NoneLeft(before: Desk, after: Desk, reports: seq<Report>)
    requires before.failures == [] && after.failures == before.failures + Errors(before, reports)
    requires |before.inFlight| == Acks(before, reports) + |Errors(before, reports)| + |after.inFlight|
    ensures after.inFlight == [] && after.failures == [] <==> Acks(before, reports) == |before.inFlight|
  {
    hide Errors, Acks;
  }

  /** One event due in one pass; its delivery fails in the flush, and its dead letter sinks in the second one. */
  function LosingPlan(m: Message, reason: string): Plan {
    Plan(1.0, 2.0, 0.0, [Tick(0.5, 1.0, [Emission(m, NO_SCRIPT, false, NO_SCRIPT)], [], [])],
         [OfEvent(0, Some(reason))], [], [OfDeadLetter(0, false)], 3.0)
  }

  lemma NothingRaises(m: Message, reason: string, budget: nat)
    requires budget > 0
    ensures CleanPlan(LosingPlan(m, reason), budget) && CalmPlan(LosingPlan(m, reason))
  {
    AtOnce(budget);
  }

  /**
   A run can lose an event while every counter balances and the first flush
   leaves nothing: on a fresh runner this one sends the event, drains its
   failure into a dead letter, and ends with both topics empty.
   */
  lemma SunkLetterIsInvisible(m: Message, reason: string, policy: Policy)
    ensures var plan := LosingPlan(m, reason);
      var n, before := Passes(plan, 0), RunBooks(FRESH_DESK, plan, Passes(plan, 0), policy);
      var after := Closed(before, plan, policy.maxAttempts);
      && CleanPlan(plan, policy.Budget()) && CalmPlan(plan)
      && GeneratedAfter(plan, n) == 1 && HandedAfter(plan, n) == [m] == after.submitted
      && Remaining(before, plan) == 0
      && after.acked + after.dlqCount == 1 && after.failures == [] && after.lost == []
      && after.delivered == [] && after.dlq == []
  {
    AtOnce(policy.Budget());
    OnePass(m, reason);
    BooksOfOnePass(m, reason, policy);
    DeadLetterSinks(m, reason, policy.maxAttempts);
    NothingRaises(m, reason, policy.Budget());
    hide Closed, RunBooks, Remaining, Passes, GeneratedAfter, HandedAfter, CleanPlan, CalmPlan, LosingPlan;
  }

  lemma OnePass(m: Message, reason: string)
    ensures var plan := LosingPlan(m, reason);
      && Passes(plan, 0) == 1 && Budget(plan, 1.0, 0) == 1 && GeneratedAfter(plan, 1) == 1
      && HandedAfter(plan, 1) == [m]
  {
    var plan := LosingPlan(m, reason);
    assert Passes(plan, 1) == 1;
    assert Due(plan, 1.0) == 1;
    assert GeneratedAfter(plan, 0) == 0;
    assert Handed(plan.ticks[0].emissions, 0) == [];
    assert Nth(plan.ticks[0].emissions, 0, NO_EMISSION).event == m;
  }

  lemma BooksOfOnePass(m: Message, reason: string, policy: Policy)
    ensures RunBooks(FRESH_DESK, LosingPlan(m, reason), 1, policy)
         == FRESH_DESK.(submitted := [m], inFlight := [m], sent := 1)
  {
    var plan, sent := LosingPlan(m, reason), FRESH_DESK.(submitted := [m], inFlight := [m], sent := 1);
    var t := plan.ticks[0];
    OnePass(m, reason);
    AtOnce(policy.Budget());
    assert FRESH_DESK.Polled([]) == FRESH_DESK && sent.Polled([]) == sent;
    assert Emitted(FRESH_DESK, t.emissions[0], policy.Budget()) == sent;
    assert EmittedAll(FRESH_DESK, t.emissions, 0, policy.Budget()) == FRESH_DESK;
    assert EmittedAll(FRESH_DESK, t.emissions, 1, policy.Budget()) == sent;
    assert sent.Drained(policy.maxAttempts, []) == sent;
    assert RunBooks(FRESH_DESK, plan, 0, policy) == FRESH_DESK;
  }

  lemma DeadLetterSinks(m: Message, reason: string, retries: int)
    ensures var sent := FRESH_DESK.(submitted := [m], inFlight := [m], sent := 1);
      var after := Closed(sent, LosingPlan(m, reason), retries);
      && Remaining(sent, LosingPlan(m, reason)) == 0 && after.submitted == [m]
      && after.acked + after.dlqCount == 1 && after.failures == [] && after.lost == []
      && after.delivered == [] && after.dlq == []
  {
    var sent := FRESH_DESK.(submitted := [m], inFlight := [m], sent := 1);
    var failing, sinking := OfEvent(0, Some(reason)), OfDeadLetter(0, false);
    var failed := sent.Reported(failing);
    assert sent.Polled([failing]) == failed.Polled([]) == failed;
    assert failed.failures == [Failure(m, reason)];
    var drained := failed.Drained(retries, []);
    assert drained == failed.(failures := []).QuarantinedAll(failed.failures, 0, retries, [])
                        .Quarantined(m, reason, retries, false);
    assert drained.Polled([sinking]) == drained.Reported(sinking).Polled([]);
  }

  // ------------------------------------------------------------ pacing

  /** The clock never goes back. */
  ghost predicate Monotone(plan: Plan, n: nat)
    requires n <= |plan.ticks|
  {
    && (forall i | 0 <= i < n :: plan.started <= plan.ticks[i].now <= plan.ended)
    && (forall i, j | 0 <= i < j < n :: plan.ticks[i].now <= plan.ticks[j].now)
  }

  lemma TruncatedGrows(x: real, y: real)
    requires 0.0 <= x <= y
    ensures 0 <= Truncated(x) <= Truncated(y) && Truncated(y) as real <= y < Truncated(y) as real + 1.0
  {
  }

  lemma AllowedGrows(plan: Plan, earlier: real, later: real)
    requires plan.rate > 0.0 && plan.started <= earlier <= later
    ensures 0.0 <= Allowed(plan, earlier) <= Allowed(plan, later)
  {
    var a, gap, rate := earlier - plan.started, later - earlier, plan.rate;
    assert a * rate >= 0.0;
    assert gap * rate >= 0.0;
    assert (a + gap) * rate == a * rate + gap * rate;
    assert later - plan.started == a + gap;
  }

  lemma DueGrows(plan: Plan, earlier: real, later: real)
    requires plan.rate > 0.0 && plan.started <= earlier <= later
    ensures 0 <= Due(plan, earlier) <= Due(plan, later)
    ensures Due(plan, later) as real <= Allowed(plan, later) < Due(plan, later) as real + 1.0
  {
    hide Truncated, Allowed;
    AllowedGrows(plan, earlier, later);
    TruncatedGrows(Allowed(plan, earlier), Allowed(plan, later));
  }

  /** Python's `int` drops the fraction, on either side of zero. */
  lemma TruncatedMeans(x: real)
    ensures x >= 0.0 ==> Truncated(x) as real <= x < Truncated(x) as real + 1.0
    ensures x <= 0.0 ==> Truncated(x) as real - 1.0 < x <= Truncated(x) as real
  {
  }

  /** Without a rate every pass generates a full burst. */
  lemma {:induction false} UnpacedBursts(plan: Plan, i: nat)
    requires plan.rate <= 0.0 && i <= |plan.ticks|
    ensures GeneratedAfter(plan, i) == 2000 * i
  {
    if i > 0 { UnpacedBursts(plan, i - 1); }
  }

  /** At every pass, no more has been generated than the rate allows by then, and no burst is over the cap. */
  lemma {:induction false} NeverAheadOfRate(plan: Plan, n: nat, i: nat)
    requires plan.rate > 0.0 && 0 < i <= n <= |plan.ticks| && Monotone(plan, n)
    ensures GeneratedAfter(plan, i) as real <= Allowed(plan, plan.ticks[i - 1].now)
    ensures GeneratedAfter(plan, i) <= Due(plan, plan.ticks[i - 1].now)
    ensures GeneratedAfter(plan, i) - GeneratedAfter(plan, i - 1) <= BURST
  {
    hide Due, Allowed;
    var now := plan.ticks[i - 1].now;
    DueGrows(plan, plan.started, now);
    if i > 1 {
      NeverAheadOfRate(plan, n, i - 1);
      DueGrows(plan, plan.ticks[i - 2].now, now);
    }
  }

  /** A pass the cap does not cut short brings the count up to the rate: the next event is not due yet. */
  lemma CatchesUp(plan: Plan, n: nat, i: nat)
    requires plan.rate > 0.0 && 0 < i <= n <= |plan.ticks| && Monotone(plan, n)
    requires GeneratedAfter(plan, i) - GeneratedAfter(plan, i - 1) < BURST
    ensures Allowed(plan, plan.ticks[i - 1].now) < GeneratedAfter(plan, i) as real + 1.0
  {
    hide Due, Allowed;
    var now := plan.ticks[i - 1].now;
    DueGrows(plan, plan.started, now);
    if i > 1 {
      NeverAheadOfRate(plan, n, i - 1);
      DueGrows(plan, plan.ticks[i - 2].now, now);
    }
  }

  lemma WithinTheRun(plan: Plan, n: nat)
    requires plan.rate > 0.0 && n <= |plan.ticks| && Monotone(plan, n) && plan.started <= plan.ended
    ensures GeneratedAfter(plan, n) <= Due(plan, plan.ended)
  {
    hide Due, Allowed;
    DueGrows(plan, plan.started, plan.ended);
    if n > 0 {
      NeverAheadOfRate(plan, n, n);
      DueGrows(plan, plan.ticks[n - 1].now, plan.ended);
    }
  }

  /** The reported attainment never passes one hundred per cent. */
  lemma AttainmentIsAtMostFull(plan: Plan)
    requires plan.rate > 0.0 && Monotone(plan, Passes(plan, 0)) && plan.started < plan.ended
    ensures Attainment(plan, GeneratedAfter(plan, Passes(plan, 0))).Some?
    ensures 0.0 <= Attainment(plan, GeneratedAfter(plan, Passes(plan, 0))).value <= 100.0
  {
    WithinTheRun(plan, Passes(plan, 0));
    hide GeneratedAfter, Passes, Due, Monotone, Attainment;
    AttainmentWithinDue(plan, GeneratedAfter(plan, Passes(plan, 0)));
  }

  lemma AttainmentWithinDue(plan: Plan, generated: nat)
    requires plan.rate > 0.0 && plan.started < plan.ended && generated <= Due(plan, plan.ended)
    ensures Attainment(plan, generated).Some? && 0.0 <= Attainment(plan, generated).value <= 100.0
  {
    var elapsed, rate := plan.ended - plan.started, plan.rate;
    DueGrows(plan, plan.started, plan.ended);
    assert generated as real <= elapsed * rate;
    hide Due;
    RatioAtMostOne(generated as real, elapsed, rate);
  }

  lemma NonNegativeFactor(x: real, y: real)
    requires y > 0.0 && x * y >= 0.0
    ensures x >= 0.0
  {
  }

  lemma RatioAtMostOne(generated: real, elapsed: real, rate: real)
    requires 0.0 <= generated <= elapsed * rate && elapsed > 0.0 && rate > 0.0
    ensures 0.0 <= 100.0 * (generated / elapsed) / rate <= 100.0
  {
    var speed := generated / elapsed;
    assert speed * elapsed == generated;
    NonNegativeFactor(speed, elapsed);
    assert (rate - speed) * elapsed == elapsed * rate - generated;
    NonNegativeFactor(rate - speed, elapsed);
    var percent := 100.0 * speed / rate;
    assert percent * rate == 100.0 * speed;
    NonNegativeFactor(percent, rate);
    assert (100.0 - percent) * rate == 100.0 * (rate - speed);
    NonNegativeFactor(100.0 - percent, rate);
  }
}
