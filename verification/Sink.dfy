/**
 The partition writer: rows in, DLQ records and statistics out.

 Rows are taken in chunks. Every statement of a chunk gets one attempt on the
 fast path; the failures get a bounded retry each; what is left over becomes a
 DLQ record. The contract of WritePartition does not mention chunks at all: its
 result is a function of the rows and of how each statement's attempts go.
 */
module Sink {
  import opened Events
  import opened Dlq
  import opened Seqs
  import opened Retry

  /** One statement to execute, with the row it came from. */
  datatype Job = Job(row: Message, upsert: Upsert)

  datatype Config = Config(tables: set<Table>, chunkSize: int, retry: Policy) {
    /** The retry loop's policy: the fast path already spent one attempt. */
    function RetryLoop(): Policy {
      retry.(maxAttempts := if retry.maxAttempts - 1 < 1 then 1 else retry.maxAttempts - 1)
    }
  }

  // ------------------------------------------------------------ rows -> statements

  /** Rows that Spark could parse: the writer only ever gets those. */
  predicate Parsed(rows: seq<Message>) {
    forall m <- rows :: m.Json?
  }

  function RowJobs(m: Message, tables: set<Table>): seq<Job>
    requires m.Json?
  {
    match BuildStatements(SparkRow(m), tables)
    case Built(us) => seq(|us|, i requires 0 <= i < |us| => Job(m, us[i]))
    case _ => []
  }

  function JobsOf(rows: seq<Message>, tables: set<Table>): seq<Job>
    requires Parsed(rows)
  {
    if rows == [] then []
    else JobsOf(rows[..|rows| - 1], tables) + RowJobs(rows[|rows| - 1], tables)
  }

  function RowReject(m: Message, tables: set<Table>): seq<DlqRecord>
    requires m.Json?
  {
    match BuildStatements(SparkRow(m), tables)
    case Built(_) => []
    case Defective(reason) => [BuildRecord(m, reason, StageParse, 0)]
    case Raised(reason) => [BuildRecord(m, reason, StageParse, 0)]
  }

  function Rejects(rows: seq<Message>, tables: set<Table>): seq<DlqRecord>
    requires Parsed(rows)
  {
    if rows == [] then []
    else Rejects(rows[..|rows| - 1], tables) + RowReject(rows[|rows| - 1], tables)
  }

  function CountDefective(rows: seq<Message>, tables: set<Table>): nat
    requires Parsed(rows)
  {
    if rows == [] then 0
    else CountDefective(rows[..|rows| - 1], tables) + if Defect(rows[|rows| - 1]).Some? then 1 else 0
  }

  // ------------------------------------------------------------ statements -> outcomes

  /** The attempts of statement `i`: the fast one first, then those of the retry loop. */
  function Script(o: seq<seq<Outcome>>, i: int): seq<Outcome> { if i < 0 then [] else Nth(o, i, []) }

  function Fast(o: seq<seq<Outcome>>, i: int): Outcome { Attempt(Script(o, i), 0) }

  function Slow(o: seq<seq<Outcome>>, i: int): seq<Outcome> {
    if Script(o, i) == [] then [] else Script(o, i)[1..]
  }

  datatype Fate = Written(retries: nat) | Quarantined(retryCount: nat, error: string) | Aborted

  function FateOf(o: seq<seq<Outcome>>, i: int, budget: nat): Fate
    requires budget > 0
  {
    if Fast(o, i).Ok? then Written(0)
    else if Fast(o, i).kind == Permanent then Quarantined(0, Fast(o, i).name)
    else
      match CallOutcome(Slow(o, i), budget)
      case Succeeded => Written(LastAttempt(Slow(o, i), budget, 0) + 1)
      case Exhausted(attempts, error) => Quarantined(attempts + 1, error)
      case Propagated(_) => Aborted
  }

  /** Indices in [from, to) whose fast attempt failed. */
  function Failures(o: seq<seq<Outcome>>, lo: int, hi: int): (f: seq<int>)
    requires lo <= hi
    decreases hi - lo
    ensures forall k | 0 <= k < |f| :: lo <= f[k] < hi && Fast(o, f[k]).Fail?
    ensures forall i | lo <= i < hi && Fast(o, i).Fail? :: i in f
    ensures |f| <= hi - lo
  {
    if lo == hi then []
    else Failures(o, lo, hi - 1) + if Fast(o, hi - 1).Fail? then [hi - 1] else []
  }

  function FastStats(o: seq<seq<Outcome>>, lo: int, hi: int): Stats
    requires lo <= hi
    decreases hi - lo
  {
    if lo == hi then NO_STATS
    else
      var s := FastStats(o, lo, hi - 1);
      if Fast(o, hi - 1).Ok? then s.(attempts := s.attempts + 1, successes := s.successes + 1)
      else s.(attempts := s.attempts + 1, reasons := s.reasons + multiset{Fast(o, hi - 1).name})
  }

  function WaitsFor(w: seq<seq<real>>, i: int): seq<real> { if i < 0 then [] else Nth(w, i, []) }

  /** What the retry loop adds to the statistics for statement `i`. */
  function SlowStats(o: seq<seq<Outcome>>, w: seq<seq<real>>, i: int, budget: nat): Stats
    requires budget > 0
  {
    if Fast(o, i).Ok? || Fast(o, i).kind == Permanent then NO_STATS
    else
      var s := CallStats(Slow(o, i), budget, WaitsFor(w, i));
      if FateOf(o, i, budget).Written? then s.(retriesBeforeSuccess := s.retriesBeforeSuccess + 1) else s
  }

  function SlowStatsOf(o: seq<seq<Outcome>>, w: seq<seq<real>>, idx: seq<int>, budget: nat): Stats
    requires budget > 0
  {
    if idx == [] then NO_STATS
    else Merged(SlowStatsOf(o, w, idx[..|idx| - 1], budget), SlowStats(o, w, idx[|idx| - 1], budget))
  }

  /** The integer counters of `write_partition`. */
  datatype Tally = Tally(rowsWritten: nat, quarantined: nat, retriedWrites: nat, retriedWritesRetries: nat)

  function Plus(a: Tally, b: Tally): Tally {
    Tally(a.rowsWritten + b.rowsWritten, a.quarantined + b.quarantined,
          a.retriedWrites + b.retriedWrites, a.retriedWritesRetries + b.retriedWritesRetries)
  }

  const NOTHING := Tally(0, 0, 0, 0)

  /** What the retry path adds to the counters for statement `i`, whose fast attempt failed. */
  function SlowTally(o: seq<seq<Outcome>>, i: int, budget: nat): Tally
    requires budget > 0
  {
    match FateOf(o, i, budget)
    case Written(n) => Tally(1, 0, 1, n)
    case Quarantined(_, _) => Tally(0, 1, 0, 0)
    case Aborted => NOTHING
  }

  function SlowTallyOf(o: seq<seq<Outcome>>, idx: seq<int>, budget: nat): Tally
    requires budget > 0
  {
    if idx == [] then NOTHING
    else Plus(SlowTallyOf(o, idx[..|idx| - 1], budget), SlowTally(o, idx[|idx| - 1], budget))
  }

  function SinkRecord(row: Message, fate: Fate): DlqRecord
    requires fate.Quarantined?
  {
    BuildRecord(row, fate.error, StageCassandraSink, fate.retryCount)
  }

  function SinkRecord1(row: Message, fate: Fate): seq<DlqRecord> {
    if fate.Quarantined? then [SinkRecord(row, fate)] else []
  }

  function SinkRecords(jobs: seq<Job>, o: seq<seq<Outcome>>, idx: seq<int>, budget: nat): seq<DlqRecord>
    requires budget > 0 && forall k | 0 <= k < |idx| :: 0 <= idx[k] < |jobs|
  {
    if idx == [] then []
    else
      var i := idx[|idx| - 1];
      SinkRecords(jobs, o, idx[..|idx| - 1], budget) + SinkRecord1(jobs[i].row, FateOf(o, i, budget))
  }

  /** Some attempt of statement `i` reached the table, whatever it reported. */
  predicate ReachedTable(o: seq<seq<Outcome>>, i: int, budget: nat)
    requires budget > 0
  {
    Fast(o, i).Landed() || (RetriedSlowly(o, i) && SlowReached(o, i, budget))
  }

  predicate RetriedSlowly(o: seq<seq<Outcome>>, i: int) {
    Fast(o, i).Fail? && Fast(o, i).kind != Permanent
  }

  predicate SlowReached(o: seq<seq<Outcome>>, i: int, budget: nat)
    requires budget > 0
  {
    exists a | 0 <= a <= LastAttempt(Slow(o, i), budget, 0) :: Attempt(Slow(o, i), a).Landed()
  }

  // ------------------------------------------------------------ one chunk

  /** The statements of one row, or the record that quarantines it. */
  method BuildRow(row: Message, tables: set<Table>)
    returns (jobs: seq<Job>, dlq: seq<DlqRecord>, validationRejects: nat)
    requires row.Json?
    ensures jobs == RowJobs(row, tables)
    ensures dlq == RowReject(row, tables)
    ensures validationRejects == if Defect(row).Some? then 1 else 0
  {
    assert Defect(SparkRow(row)) == Defect(row);
    match BuildStatements(SparkRow(row), tables) {
      case Built(us) =>
        return seq(|us|, i requires 0 <= i < |us| => Job(row, us[i])), [], 0;
      case Defective(reason) =>
        return [], [BuildRecord(row, reason, StageParse, 0)], 1;
      case Raised(reason) =>
        return [], [BuildRecord(row, reason, StageParse, 0)], 0;
    }
  }

  lemma RowsSnoc(rows: seq<Message>, k: nat, tables: set<Table>)
    requires k < |rows| && Parsed(rows)
    ensures JobsOf(rows[..k + 1], tables) == JobsOf(rows[..k], tables) + RowJobs(rows[k], tables)
    ensures Rejects(rows[..k + 1], tables) == Rejects(rows[..k], tables) + RowReject(rows[k], tables)
    ensures CountDefective(rows[..k + 1], tables) ==
            CountDefective(rows[..k], tables) + if Defect(rows[k]).Some? then 1 else 0
  {
    assert rows[..k + 1][..k] == rows[..k];
  }

  /** Builds a chunk's statements; what can never be written is quarantined here. */
  method BuildChunk(chunk: seq<Message>, tables: set<Table>)
    returns (work: seq<Job>, dlq: seq<DlqRecord>, validationRejects: nat)
    requires Parsed(chunk)
    ensures work == JobsOf(chunk, tables)
    ensures dlq == Rejects(chunk, tables)
    ensures validationRejects == CountDefective(chunk, tables)
  {
    work, dlq, validationRejects := [], [], 0;
    for k := 0 to |chunk|
      invariant work == JobsOf(chunk[..k], tables)
      invariant dlq == Rejects(chunk[..k], tables)
      invariant validationRejects == CountDefective(chunk[..k], tables)
    {
      RowsSnoc(chunk, k, tables);
      var jobs, records, defects := BuildRow(chunk[k], tables);
      work, dlq, validationRejects := work + jobs, dlq + records, validationRejects + defects;
    }
    assert chunk[..|chunk|] == chunk;
  }

  /** The writes of the fast path among the first `n` statements of the chunk. */
  function FastWrites(work: seq<Job>, base: int, o: seq<seq<Outcome>>, now: int, n: nat): seq<Write>
    requires n <= |work|
  {
    if n == 0 then []
    else
      var front := FastWrites(work, base, o, now, n - 1);
      if Fast(o, base + n - 1).Landed() then front + [Write(work[n - 1].upsert, now)] else front
  }

  /** One attempt per statement of the chunk, whose first statement is number `base`. */
  method FastPath(work: seq<Job>, base: int, o: seq<seq<Outcome>>, now: int, stats: RetryStats)
    returns (failures: seq<int>, rowsWritten: nat, writes: seq<Write>)
    modifies stats
    ensures failures == Failures(o, base, base + |work|)
    ensures rowsWritten + |failures| == |work|
    ensures stats.Value() == Merged(old(stats.Value()), FastStats(o, base, base + |work|))
    ensures writes == FastWrites(work, base, o, now, |work|)
  {
    ghost var before := stats.Value();
    writes := FastWrites(work, base, o, now, |work|);  // the concurrent execution itself
    failures, rowsWritten := [], 0;
    for k := 0 to |work|
      invariant failures == Failures(o, base, base + k)
      invariant rowsWritten + |failures| == k
      invariant stats.Value() == Merged(before, FastStats(o, base, base + k))
    {
      var outcome := Fast(o, base + k);
      FastStep(before, o, base, base + k, stats);
      if outcome.Ok? {
        rowsWritten := rowsWritten + 1;
      } else {
        failures := failures + [base + k];
      }
    }
  }

  method FastStep(ghost before: Stats, o: seq<seq<Outcome>>, ghost from: int, i: int, stats: RetryStats)
    requires from <= i
    requires stats.Value() == Merged(before, FastStats(o, from, i))
    modifies stats
    ensures stats.Value() == Merged(before, FastStats(o, from, i + 1))
  {
    ghost var s := FastStats(o, from, i);
    stats.StartAttempt();
    if Fast(o, i).Ok? {
      stats.RecordSuccess(0);
    } else {
      stats.RecordReason(Fast(o, i).name);
      assert before.reasons + (s.reasons + multiset{Fast(o, i).name}) ==
             before.reasons + s.reasons + multiset{Fast(o, i).name};
    }
  }

  /** The retry loop for one statement, folded into the partition's statistics. */
  method RetryLoop(i: int, o: seq<seq<Outcome>>, w: seq<seq<real>>, loop: Policy, stats: RetryStats)
    returns (result: CallResult, spent: nat)
    requires RetriedSlowly(o, i)
    modifies stats
    ensures result == CallOutcome(Slow(o, i), loop.Budget())
    ensures result.Succeeded? ==> spent == LastAttempt(Slow(o, i), loop.Budget(), 0) + 1
    ensures !result.Propagated? ==>
              stats.Value() == Merged(old(stats.Value()), SlowStats(o, w, i, loop.Budget()))
  {
    ghost var before, call := stats.Value(), CallStats(Slow(o, i), loop.Budget(), WaitsFor(w, i));
    var attemptStats := new RetryStats();
    var sleeps;
    result, sleeps := CallWithRetry(Slow(o, i), loop, WaitsFor(w, i), attemptStats);
    assert Merged(NO_STATS, call) == call;
    spent := attemptStats.retriesBeforeSuccess + 1;
    if !result.Propagated? {
      stats.Merge(attemptStats);
      assert stats.Value() == Merged(before, call);
    }
    if result.Succeeded? {
      stats.RecordExtraRetry();
    }
  }

  /** The retry path for one statement whose fast attempt failed. */
  method RetryStatement(row: Message, i: int, o: seq<seq<Outcome>>, w: seq<seq<real>>, loop: Policy, stats: RetryStats)
    returns (dlq: seq<DlqRecord>, tally: Tally, aborted: bool)
    requires Fast(o, i).Fail?
    modifies stats
    ensures aborted == FateOf(o, i, loop.Budget()).Aborted?
    ensures dlq == SinkRecord1(row, FateOf(o, i, loop.Budget()))
    ensures tally == SlowTally(o, i, loop.Budget())
    ensures !aborted ==> stats.Value() == Merged(old(stats.Value()), SlowStats(o, w, i, loop.Budget()))
  {
    var first := Fast(o, i);
    if first.kind == Permanent {
      MergedNothing(stats.Value());
      return [BuildRecord(row, first.name, StageCassandraSink, 0)], Tally(0, 1, 0, 0), false;
    }
    var result, spent := RetryLoop(i, o, w, loop, stats);
    match result {
      case Propagated(_) =>
        return [], NOTHING, true;
      case Exhausted(attempts, error) =>
        return [BuildRecord(row, error, StageCassandraSink, attempts + 1)], Tally(0, 1, 0, 0), false;
      case Succeeded =>
        return [], Tally(1, 0, 1, spent), false;
    }
  }

  method RetryPath(ghost jobs: seq<Job>, work: seq<Job>, base: int, failures: seq<int>, o: seq<seq<Outcome>>,
                   w: seq<seq<real>>, loop: Policy, stats: RetryStats)
    returns (dlq: seq<DlqRecord>, tally: Tally, done: nat, aborted: bool)
    requires 0 <= base && base + |work| <= |jobs| && work == jobs[base..base + |work|]
    requires forall k | 0 <= k < |failures| :: base <= failures[k] < base + |work| && Fast(o, failures[k]).Fail?
    modifies stats
    ensures done <= |failures|
    ensures aborted == !NoneAborted(o, failures, loop.Budget())
    ensures !aborted ==> done == |failures|
    ensures !aborted ==> dlq == SinkRecords(jobs, o, failures, loop.Budget())
    ensures !aborted ==> tally == SlowTallyOf(o, failures, loop.Budget())
    ensures !aborted ==> stats.Value() == Merged(old(stats.Value()), SlowStatsOf(o, w, failures, loop.Budget()))
  {
    hide FateOf;
    ghost var before := stats.Value();
    dlq, tally, done, aborted := [], NOTHING, 0, false;
    MergedNothing(before);
    while done < |failures|
      invariant 0 <= done <= |failures|
      invariant NoneAborted(o, failures[..done], loop.Budget())
      invariant dlq == SinkRecords(jobs, o, failures[..done], loop.Budget())
      invariant tally == SlowTallyOf(o, failures[..done], loop.Budget())
      invariant stats.Value() == Merged(before, SlowStatsOf(o, w, failures[..done], loop.Budget()))
    {
      var i := failures[done];
      assert work[i - base] == jobs[i];
      RetrySnoc(jobs, o, w, failures, done, loop.Budget(), before);
      var records, t, failed := RetryStatement(work[i - base].row, i, o, w, loop, stats);
      if failed {
        OneAborted(o, failures, loop.Budget(), done);
        return [], NOTHING, done, true;
      }
      assert dlq + records == SinkRecords(jobs, o, failures[..done + 1], loop.Budget());
      dlq, tally, done := dlq + records, Plus(tally, t), done + 1;
    }
    assert failures[..done] == failures;
  }

  lemma RetrySnoc(jobs: seq<Job>, o: seq<seq<Outcome>>, w: seq<seq<real>>, idx: seq<int>, n: nat, budget: nat,
                  before: Stats)
    requires budget > 0 && n < |idx| && forall k | 0 <= k < |idx| :: 0 <= idx[k] < |jobs|
    ensures SinkRecords(jobs, o, idx[..n + 1], budget) ==
            SinkRecords(jobs, o, idx[..n], budget) + SinkRecord1(jobs[idx[n]].row, FateOf(o, idx[n], budget))
    ensures SlowTallyOf(o, idx[..n + 1], budget) == Plus(SlowTallyOf(o, idx[..n], budget), SlowTally(o, idx[n], budget))
    ensures Merged(before, SlowStatsOf(o, w, idx[..n + 1], budget)) ==
            Merged(Merged(before, SlowStatsOf(o, w, idx[..n], budget)), SlowStats(o, w, idx[n], budget))
    ensures NoneAborted(o, idx[..n + 1], budget) <==>
            NoneAborted(o, idx[..n], budget) && !FateOf(o, idx[n], budget).Aborted?
  {
    assert idx[..n + 1][..n] == idx[..n];
    MergedAssociates(before, SlowStatsOf(o, w, idx[..n], budget), SlowStats(o, w, idx[n], budget));
  }

  predicate NoneAborted(o: seq<seq<Outcome>>, idx: seq<int>, budget: nat)
    requires budget > 0
  {
    if idx == [] then true
    else NoneAborted(o, idx[..|idx| - 1], budget) && !FateOf(o, idx[|idx| - 1], budget).Aborted?
  }

  lemma {:induction false} OneAborted(o: seq<seq<Outcome>>, idx: seq<int>, budget: nat, k: nat)
    requires budget > 0 && k < |idx| && FateOf(o, idx[k], budget).Aborted?
    ensures !NoneAborted(o, idx, budget)
  {
    if k < |idx| - 1 {
      OneAborted(o, idx[..|idx| - 1], budget, k);
    }
  }

  lemma MergedNothing(a: Stats)
    ensures Merged(a, NO_STATS) == a && Merged(NO_STATS, a) == a
  {
  }

  lemma MergedAssociates(a: Stats, b: Stats, c: Stats)
    ensures Merged(Merged(a, b), c) == Merged(a, Merged(b, c))
  {
  }

  lemma MergedExchanges(a: Stats, b: Stats, c: Stats, d: Stats)
    ensures Merged(Merged(Merged(a, b), c), d) == Merged(Merged(a, c), Merged(b, d))
  {
  }

  // ------------------------------------------------------------ the whole partition

  function SlowWrites(work: seq<Job>, base: int, o: seq<seq<Outcome>>, idx: seq<int>, budget: nat, now: int): seq<Write>
    requires budget > 0 && forall k | 0 <= k < |idx| :: base <= idx[k] < base + |work|
  {
    if idx == [] then []
    else
      var i := idx[|idx| - 1];
      var front := SlowWrites(work, base, o, idx[..|idx| - 1], budget, now);
      if RetriedSlowly(o, i) && SlowReached(o, i, budget) then front + [Write(work[i - base].upsert, now)] else front
  }

  /** The upserts of the statements in [lo, hi) that reached the table. */
  function Reached(jobs: seq<Job>, o: seq<seq<Outcome>>, budget: nat, lo: int, hi: int): set<Upsert>
    requires budget > 0 && 0 <= lo <= hi <= |jobs|
  {
    set i | lo <= i < hi && ReachedTable(o, i, budget) :: jobs[i].upsert
  }

  lemma {:induction false} FastWritesReach(work: seq<Job>, base: int, o: seq<seq<Outcome>>, now: int, n: nat)
    requires n <= |work|
    ensures forall u :: u in Upserts(FastWrites(work, base, o, now, n)) <==>
              exists i | 0 <= i < n :: work[i].upsert == u && Fast(o, base + i).Landed()
  {
    if n > 0 {
      FastWritesReach(work, base, o, now, n - 1);
      UpsertsSnoc(FastWrites(work, base, o, now, n - 1), Write(work[n - 1].upsert, now));
    }
  }

  lemma {:induction false} SlowWritesReach(work: seq<Job>, base: int, o: seq<seq<Outcome>>, idx: seq<int>,
                                           budget: nat, now: int)
    requires budget > 0 && forall k | 0 <= k < |idx| :: base <= idx[k] < base + |work|
    ensures forall u :: u in Upserts(SlowWrites(work, base, o, idx, budget, now)) <==>
              exists i :: i in idx && work[i - base].upsert == u && RetriedSlowly(o, i) && SlowReached(o, i, budget)
  {
    hide SlowReached, LastAttempt, RetriedSlowly;
    if idx != [] {
      var front, i := idx[..|idx| - 1], idx[|idx| - 1];
      SlowWritesReach(work, base, o, front, budget, now);
      UpsertsSnoc(SlowWrites(work, base, o, front, budget, now), Write(work[i - base].upsert, now));
      assert idx == front + [i];
    }
  }

  lemma FastIsReached(jobs: seq<Job>, work: seq<Job>, base: int, o: seq<seq<Outcome>>, budget: nat, now: int)
    requires budget > 0 && 0 <= base && base + |work| <= |jobs| && work == jobs[base..base + |work|]
    ensures Upserts(FastWrites(work, base, o, now, |work|)) <= Reached(jobs, o, budget, base, base + |work|)
  {
    hide SlowReached, LastAttempt;
    FastWritesReach(work, base, o, now, |work|);
    forall u | u in Upserts(FastWrites(work, base, o, now, |work|))
      ensures u in Reached(jobs, o, budget, base, base + |work|)
    {
      var i :| 0 <= i < |work| && work[i].upsert == u && Fast(o, base + i).Landed();
      assert ReachedTable(o, base + i, budget) && jobs[base + i].upsert == u;
    }
  }

  lemma SlowIsReached(jobs: seq<Job>, work: seq<Job>, base: int, o: seq<seq<Outcome>>, idx: seq<int>, budget: nat,
                      now: int)
    requires budget > 0 && 0 <= base && base + |work| <= |jobs| && work == jobs[base..base + |work|]
    requires forall k | 0 <= k < |idx| :: base <= idx[k] < base + |work|
    ensures Upserts(SlowWrites(work, base, o, idx, budget, now)) <= Reached(jobs, o, budget, base, base + |work|)
  {
    hide SlowReached, LastAttempt;
    SlowWritesReach(work, base, o, idx, budget, now);
    forall u | u in Upserts(SlowWrites(work, base, o, idx, budget, now))
      ensures u in Reached(jobs, o, budget, base, base + |work|)
    {
      var i :| i in idx && work[i - base].upsert == u && RetriedSlowly(o, i) && SlowReached(o, i, budget);
      assert ReachedTable(o, i, budget) && jobs[i].upsert == u;
    }
  }

  lemma ReachedIsWritten(jobs: seq<Job>, work: seq<Job>, base: int, o: seq<seq<Outcome>>, budget: nat, now: int, i: int)
    requires budget > 0 && 0 <= base && base + |work| <= |jobs| && work == jobs[base..base + |work|]
    requires base <= i < base + |work| && ReachedTable(o, i, budget)
    ensures jobs[i].upsert in Upserts(FastWrites(work, base, o, now, |work|)) +
                              Upserts(SlowWrites(work, base, o, Failures(o, base, base + |work|), budget, now))
  {
    hide SlowReached, LastAttempt, FastWrites, SlowWrites, Upserts, Failures;
    FastWritesReach(work, base, o, now, |work|);
    SlowWritesReach(work, base, o, Failures(o, base, base + |work|), budget, now);
    if Fast(o, i).Landed() {
      assert work[i - base].upsert == jobs[i].upsert && Fast(o, base + (i - base)).Landed();
    }
  }

  /** The writes of a chunk are its statements that reached the table. */
  lemma ChunkReaches(jobs: seq<Job>, work: seq<Job>, base: int, o: seq<seq<Outcome>>, budget: nat, now: int)
    requires budget > 0 && 0 <= base && base + |work| <= |jobs| && work == jobs[base..base + |work|]
    ensures var f := Failures(o, base, base + |work|);
            Upserts(FastWrites(work, base, o, now, |work|) + SlowWrites(work, base, o, f, budget, now)) ==
            Reached(jobs, o, budget, base, base + |work|)
  {
    hide FastWrites, SlowWrites, ReachedTable;
    var f := Failures(o, base, base + |work|);
    var fast, slow := FastWrites(work, base, o, now, |work|), SlowWrites(work, base, o, f, budget, now);
    UpsertsAppend(fast, slow);
    FastIsReached(jobs, work, base, o, budget, now);
    SlowIsReached(jobs, work, base, o, f, budget, now);
    forall u | u in Reached(jobs, o, budget, base, base + |work|) ensures u in Upserts(fast) + Upserts(slow) {
      var i :| base <= i < base + |work| && ReachedTable(o, i, budget) && jobs[i].upsert == u;
      ReachedIsWritten(jobs, work, base, o, budget, now, i);
    }
  }

  /** The counters after the statements in [lo, hi), every one of which got its fast attempt. */
  function RangeTally(o: seq<seq<Outcome>>, lo: int, hi: int, budget: nat): Tally
    requires budget > 0 && lo <= hi
  {
    var f := Failures(o, lo, hi);
    Plus(Tally(hi - lo - |f|, 0, 0, 0), SlowTallyOf(o, f, budget))
  }

  function RangeStats(o: seq<seq<Outcome>>, w: seq<seq<real>>, lo: int, hi: int, budget: nat): Stats
    requires budget > 0 && lo <= hi
  {
    Merged(FastStats(o, lo, hi), SlowStatsOf(o, w, Failures(o, lo, hi), budget))
  }

  lemma StatementWrites(jobs: seq<Job>, work: seq<Job>, base: int, o: seq<seq<Outcome>>, done: nat, budget: nat,
                        now: int)
    requires budget > 0 && 0 <= base && base + |work| <= |jobs| && work == jobs[base..base + |work|]
    requires done <= |Failures(o, base, base + |work|)|
    ensures var f, all := Failures(o, base, base + |work|), Reached(jobs, o, budget, base, base + |work|);
            var writes := FastWrites(work, base, o, now, |work|) + SlowWrites(work, base, o, f[..done], budget, now);
            Upserts(writes) <= all && (done == |f| ==> Upserts(writes) == all)
  {
    hide Reached, SlowWrites, FastWrites, LastAttempt;
    var f := Failures(o, base, base + |work|);
    UpsertsAppend(FastWrites(work, base, o, now, |work|), SlowWrites(work, base, o, f[..done], budget, now));
    FastIsReached(jobs, work, base, o, budget, now);
    SlowIsReached(jobs, work, base, o, f[..done], budget, now);
    if done == |f| {
      assert f[..done] == f;
      ChunkReaches(jobs, work, base, o, budget, now);
    }
  }

  /** The fast path and the retry path over one chunk's statements, the first of which is number `base`. */
  method WriteStatements(ghost jobs: seq<Job>, work: seq<Job>, base: int, loop: Policy, o: seq<seq<Outcome>>,
                         w: seq<seq<real>>, now: int, stats: RetryStats)
    returns (dlq: seq<DlqRecord>, tally: Tally, writes: seq<Write>, aborted: bool)
    requires 0 <= base && base + |work| <= |jobs| && work == jobs[base..base + |work|]
    modifies stats
    ensures aborted == !NoneAborted(o, Failures(o, base, base + |work|), loop.Budget())
    ensures Upserts(writes) <= Reached(jobs, o, loop.Budget(), base, base + |work|)
    ensures !aborted ==> Upserts(writes) == Reached(jobs, o, loop.Budget(), base, base + |work|)
    ensures !aborted ==> dlq == SinkRecords(jobs, o, Failures(o, base, base + |work|), loop.Budget())
    ensures !aborted ==> tally == RangeTally(o, base, base + |work|, loop.Budget())
    ensures !aborted ==>
              stats.Value() == Merged(old(stats.Value()), RangeStats(o, w, base, base + |work|, loop.Budget()))
  {
    hide FateOf, Reached, SlowWrites, FastWrites, LastAttempt, FastStats, SlowStatsOf, SlowTallyOf, SinkRecords;
    hide Failures, NoneAborted, Merged;
    ghost var before, f := stats.Value(), Failures(o, base, base + |work|);
    var failures, ok, fastWrites := FastPath(work, base, o, now, stats);
    MergedAssociates(before, FastStats(o, base, base + |work|), SlowStatsOf(o, w, f, loop.Budget()));
    var done;
    dlq, tally, done, aborted := RetryPath(jobs, work, base, failures, o, w, loop, stats);
    StatementWrites(jobs, work, base, o, done, loop.Budget(), now);
    writes := fastWrites + SlowWrites(work, base, o, failures[..done], loop.Budget(), now);
    tally := Plus(Tally(ok, 0, 0, 0), tally);
  }

  // ------------------------------------------------------------ chunks compose

  lemma {:induction false} JobsAppend(a: seq<Message>, b: seq<Message>, tables: set<Table>)
    requires Parsed(a + b)
    ensures (forall m <- a :: m in a + b) && (forall m <- b :: m in a + b)
    ensures JobsOf(a + b, tables) == JobsOf(a, tables) + JobsOf(b, tables)
    ensures Rejects(a + b, tables) == Rejects(a, tables) + Rejects(b, tables)
    ensures CountDefective(a + b, tables) == CountDefective(a, tables) + CountDefective(b, tables)
  {
    hide RowJobs, RowReject, Defect;
    if b == [] {
      assert a + b == a;
    } else {
      var front := b[..|b| - 1];
      assert (a + b)[..|a + b| - 1] == a + front;
      assert forall m <- a + front :: m in a + b;
      JobsAppend(a, front, tables);
      var last := b[|b| - 1];
      assert last in a + b;
      assert (a + b)[|a + b| - 1] == last;
      ConcatAssociates(JobsOf(a, tables), JobsOf(front, tables), RowJobs(last, tables));
      ConcatAssociates(Rejects(a, tables), Rejects(front, tables), RowReject(last, tables));
    }
  }

  lemma {:induction false} FailuresSplit(o: seq<seq<Outcome>>, lo: int, mid: int, hi: int)
    requires lo <= mid <= hi
    ensures Failures(o, lo, hi) == Failures(o, lo, mid) + Failures(o, mid, hi)
    decreases hi - mid
  {
    hide Fast;
    if mid < hi {
      FailuresSplit(o, lo, mid, hi - 1);
      ConcatAssociates(Failures(o, lo, mid), Failures(o, mid, hi - 1), if Fast(o, hi - 1).Fail? then [hi - 1] else []);
    }
  }

  lemma {:induction false} FastStatsSplit(o: seq<seq<Outcome>>, lo: int, mid: int, hi: int)
    requires lo <= mid <= hi
    ensures FastStats(o, lo, hi) == Merged(FastStats(o, lo, mid), FastStats(o, mid, hi))
    decreases hi - mid
  {
    if mid < hi {
      FastStatsSplit(o, lo, mid, hi - 1);
      var a, b := FastStats(o, lo, mid).reasons, FastStats(o, mid, hi - 1).reasons;
      if Fast(o, hi - 1).Fail? {
        assert a + b + multiset{Fast(o, hi - 1).name} == a + (b + multiset{Fast(o, hi - 1).name});
      }
    } else {
      MergedNothing(FastStats(o, lo, mid));
    }
  }

  lemma Snoc<T>(a: seq<T>, b: seq<T>)
    requires b != []
    ensures (a + b)[..|a + b| - 1] == a + b[..|b| - 1] && (a + b)[|a + b| - 1] == b[|b| - 1]
  {
  }

  lemma {:induction false} SlowStatsAppend(o: seq<seq<Outcome>>, w: seq<seq<real>>, a: seq<int>, b: seq<int>,
                                           budget: nat)
    requires budget > 0
    ensures SlowStatsOf(o, w, a + b, budget) == Merged(SlowStatsOf(o, w, a, budget), SlowStatsOf(o, w, b, budget))
  {
    hide FateOf, SlowStats, Merged;
    if b == [] {
      assert a + b == a;
      MergedNothing(SlowStatsOf(o, w, a, budget));
    } else {
      var front, i := b[..|b| - 1], b[|b| - 1];
      Snoc(a, b);
      SlowStatsAppend(o, w, a, front, budget);
      MergedAssociates(SlowStatsOf(o, w, a, budget), SlowStatsOf(o, w, front, budget), SlowStats(o, w, i, budget));
    }
  }

  lemma PlusLaws(a: Tally, b: Tally, c: Tally)
    ensures Plus(Plus(a, b), c) == Plus(a, Plus(b, c)) && Plus(a, NOTHING) == a
  {
  }

  lemma {:induction false} SlowTallyAppend(o: seq<seq<Outcome>>, a: seq<int>, b: seq<int>, budget: nat)
    requires budget > 0
    ensures SlowTallyOf(o, a + b, budget) == Plus(SlowTallyOf(o, a, budget), SlowTallyOf(o, b, budget))
  {
    hide FateOf, SlowTally, Plus;
    if b == [] {
      assert a + b == a;
      PlusLaws(SlowTallyOf(o, a, budget), NOTHING, NOTHING);
    } else {
      Snoc(a, b);
      SlowTallyAppend(o, a, b[..|b| - 1], budget);
      PlusLaws(SlowTallyOf(o, a, budget), SlowTallyOf(o, b[..|b| - 1], budget), SlowTally(o, b[|b| - 1], budget));
    }
  }

  lemma {:induction false} NoneAbortedAppend(o: seq<seq<Outcome>>, a: seq<int>, b: seq<int>, budget: nat)
    requires budget > 0
    ensures NoneAborted(o, a + b, budget) <==> NoneAborted(o, a, budget) && NoneAborted(o, b, budget)
  {
    hide FateOf;
    if b == [] {
      assert a + b == a;
    } else {
      Snoc(a, b);
      NoneAbortedAppend(o, a, b[..|b| - 1], budget);
    }
  }

  lemma {:induction false} SinkRecordsAppend(jobs: seq<Job>, o: seq<seq<Outcome>>, a: seq<int>, b: seq<int>,
                                             budget: nat)
    requires budget > 0
    requires forall k | 0 <= k < |a| :: 0 <= a[k] < |jobs|
    requires forall k | 0 <= k < |b| :: 0 <= b[k] < |jobs|
    ensures SinkRecords(jobs, o, a + b, budget) == SinkRecords(jobs, o, a, budget) + SinkRecords(jobs, o, b, budget)
  {
    hide FateOf, SinkRecord1;
    if b == [] {
      assert a + b == a;
    } else {
      var front, i := b[..|b| - 1], b[|b| - 1];
      Snoc(a, b);
      SinkRecordsAppend(jobs, o, a, front, budget);
      ConcatAssociates(SinkRecords(jobs, o, a, budget), SinkRecords(jobs, o, front, budget),
                       SinkRecord1(jobs[i].row, FateOf(o, i, budget)));
    }
  }

  /** The counters and the statistics of two adjacent ranges add up, in whatever order they were merged. */
  lemma RangesCompose(jobs: seq<Job>, o: seq<seq<Outcome>>, w: seq<seq<real>>, mid: nat, hi: nat, budget: nat)
    requires budget > 0 && mid <= hi <= |jobs|
    ensures RangeTally(o, 0, hi, budget) == Plus(RangeTally(o, 0, mid, budget), RangeTally(o, mid, hi, budget))
    ensures RangeStats(o, w, 0, hi, budget) ==
            Merged(RangeStats(o, w, 0, mid, budget), RangeStats(o, w, mid, hi, budget))
    ensures SinkRecords(jobs, o, Failures(o, 0, hi), budget) ==
            SinkRecords(jobs, o, Failures(o, 0, mid), budget) + SinkRecords(jobs, o, Failures(o, mid, hi), budget)
    ensures NoneAborted(o, Failures(o, 0, hi), budget) <==>
            NoneAborted(o, Failures(o, 0, mid), budget) && NoneAborted(o, Failures(o, mid, hi), budget)
    ensures Reached(jobs, o, budget, 0, hi) == Reached(jobs, o, budget, 0, mid) + Reached(jobs, o, budget, mid, hi)
  {
    hide FateOf, SlowStatsOf, SlowTallyOf, SinkRecords, ReachedTable, NoneAborted, Reached, Merged;
    hide FastStats, Failures;
    var f, g := Failures(o, 0, mid), Failures(o, mid, hi);
    FailuresSplit(o, 0, mid, hi);
    FastStatsSplit(o, 0, mid, hi);
    SlowStatsAppend(o, w, f, g, budget);
    SlowTallyAppend(o, f, g, budget);
    NoneAbortedAppend(o, f, g, budget);
    SinkRecordsAppend(jobs, o, f, g, budget);
    var a, b := FastStats(o, 0, mid), SlowStatsOf(o, w, f, budget);
    var c, d := FastStats(o, mid, hi), SlowStatsOf(o, w, g, budget);
    MergedExchanges(a, b, c, d);
    MergedAssociates(Merged(a, b), c, d);
    ReachedSplit(jobs, o, budget, mid, hi);
  }

  lemma ReachedSplit(jobs: seq<Job>, o: seq<seq<Outcome>>, budget: nat, mid: nat, hi: nat)
    requires budget > 0 && mid <= hi <= |jobs|
    ensures Reached(jobs, o, budget, 0, hi) == Reached(jobs, o, budget, 0, mid) + Reached(jobs, o, budget, mid, hi)
  {
  }

  // ------------------------------------------------------------ write_partition

  /** The "stats" record a partition yields. */
  datatype PartitionStats = PartitionStats(rowsWritten: nat, dlqEmitted: nat, validationRejects: nat,
                                           retriedWrites: nat, retriedWritesRetries: nat, retry: Stats)

  /** All DLQ records of a partition: the rows never written, then the statements given up on. */
  function PartitionDlq(rows: seq<Message>, cfg: Config, o: seq<seq<Outcome>>): seq<DlqRecord>
    requires Parsed(rows)
  {
    var jobs := JobsOf(rows, cfg.tables);
    Rejects(rows, cfg.tables) + SinkRecords(jobs, o, Failures(o, 0, |jobs|), cfg.RetryLoop().Budget())
  }

  function PartitionResult(rows: seq<Message>, cfg: Config, o: seq<seq<Outcome>>, w: seq<seq<real>>): PartitionStats
    requires Parsed(rows)
  {
    hide RangeTally, RangeStats, PartitionDlq, CountDefective, JobsOf;
    var n, budget := |JobsOf(rows, cfg.tables)|, cfg.RetryLoop().Budget();
    var t := RangeTally(o, 0, n, budget);
    PartitionStats(t.rowsWritten, |PartitionDlq(rows, cfg, o)|, CountDefective(rows, cfg.tables), t.retriedWrites,
                   t.retriedWritesRetries, RangeStats(o, w, 0, n, budget))
  }

  function PartitionUpserts(rows: seq<Message>, cfg: Config, o: seq<seq<Outcome>>): set<Upsert>
    requires Parsed(rows)
  {
    var jobs := JobsOf(rows, cfg.tables);
    Reached(jobs, o, cfg.RetryLoop().Budget(), 0, |jobs|)
  }

  /** No attempt ends in an exception the writer does not catch. */
  predicate Completes(rows: seq<Message>, cfg: Config, o: seq<seq<Outcome>>)
    requires Parsed(rows)
  {
    NoneAborted(o, Failures(o, 0, |JobsOf(rows, cfg.tables)|), cfg.RetryLoop().Budget())
  }

  lemma ChunkInPlace(rows: seq<Message>, chunks: seq<seq<Message>>, c: nat, tables: set<Table>)
    requires c < |chunks| && rows == Flatten(chunks) && Parsed(rows)
    ensures Parsed(chunks[c])
    ensures Parsed(Flatten(chunks[..c + 1]))
    ensures Parsed(Flatten(chunks[..c]))
    ensures var base, n := |JobsOf(Flatten(chunks[..c]), tables)|, |JobsOf(chunks[c], tables)|;
            && base + n <= |JobsOf(rows, tables)|
            && JobsOf(chunks[c], tables) == JobsOf(rows, tables)[base..base + n]
            && |JobsOf(Flatten(chunks[..c + 1]), tables)| == base + n
    ensures Rejects(Flatten(chunks[..c + 1]), tables) ==
            Rejects(Flatten(chunks[..c]), tables) + Rejects(chunks[c], tables)
    ensures CountDefective(Flatten(chunks[..c + 1]), tables) ==
            CountDefective(Flatten(chunks[..c]), tables) + CountDefective(chunks[c], tables)
  {
    hide JobsOf, Rejects, CountDefective;
    var before, chunk, after := Flatten(chunks[..c]), chunks[c], Flatten(chunks[c + 1..]);
    assert chunks[..c + 1] == chunks[..c] + [chunk];
    FlattenSnoc(chunks[..c], chunk);
    assert chunks == chunks[..c + 1] + chunks[c + 1..];
    FlattenAppend(chunks[..c + 1], chunks[c + 1..]);
    assert rows == before + chunk + after;
    assert forall m <- before + chunk :: m in rows;
    JobsAppend(before + chunk, after, tables);
    JobsAppend(before, chunk, tables);
  }

  lemma NoneToRetry(o: seq<seq<Outcome>>, w: seq<seq<real>>, f: seq<int>, budget: nat)
    requires budget > 0 && |f| == 0
    ensures NoneAborted(o, f, budget) && SlowTallyOf(o, f, budget) == NOTHING
    ensures SlowStatsOf(o, w, f, budget) == NO_STATS
  {
    hide FateOf, Fast, SlowTally, SlowStats, Merged, Plus;
  }

  lemma EmptyTally(o: seq<seq<Outcome>>, w: seq<seq<real>>, n: nat, budget: nat)
    requires budget > 0
    ensures RangeTally(o, n, n, budget) == NOTHING && NoneAborted(o, Failures(o, n, n), budget)
  {
    hide Failures, SlowTallyOf, Plus, NoneAborted;
    var f := Failures(o, n, n);
    NoneToRetry(o, w, f, budget);
    assert |f| == 0;
    PlusLaws(NOTHING, NOTHING, NOTHING);
  }

  lemma EmptyStats(o: seq<seq<Outcome>>, w: seq<seq<real>>, n: nat, budget: nat)
    requires budget > 0
    ensures RangeStats(o, w, n, n, budget) == NO_STATS
  {
    hide Failures, NoneAborted, SlowTallyOf, SlowStatsOf, Fast, Merged;
    NoneToRetry(o, w, Failures(o, n, n), budget);
    MergedNothing(NO_STATS);
  }

  /** What the local variables of `write_partition` hold between two chunks. */
  datatype Locals = Locals(dlq: seq<DlqRecord>, tally: Tally, rejects: nat, writes: seq<Write>)

  /** They are a function of the rows so far, which gave the first `n` statements. */
  ghost predicate Progress(rows: seq<Message>, jobs: seq<Job>, n: nat, cfg: Config, o: seq<seq<Outcome>>,
                           w: seq<seq<real>>, v: Locals, stats: Stats)
    requires n <= |jobs| && Parsed(rows)
  {
    var budget := cfg.RetryLoop().Budget();
    && NoneAborted(o, Failures(o, 0, n), budget)
    && multiset(v.dlq) ==
         multiset(Rejects(rows, cfg.tables)) + multiset(SinkRecords(jobs, o, Failures(o, 0, n), budget))
    && v.tally == RangeTally(o, 0, n, budget)
    && v.rejects == CountDefective(rows, cfg.tables)
    && stats == RangeStats(o, w, 0, n, budget)
    && Upserts(v.writes) == Reached(jobs, o, budget, 0, n)
  }

  lemma Regroup<T>(a: multiset<T>, b: multiset<T>, c: multiset<T>, d: multiset<T>)
    ensures (a + b) + (c + d) == (a + c) + (b + d)
  {
  }

  /** The records of a chunk join those before it. */
  lemma RecordsJoin(v: seq<DlqRecord>, u: seq<DlqRecord>, r: seq<DlqRecord>, s: seq<DlqRecord>, r': seq<DlqRecord>,
                    s': seq<DlqRecord>)
    requires multiset(v) == multiset(r) + multiset(s) && u == r' + s'
    ensures multiset(v + u) == multiset(r + r') + multiset(s + s')
  {
    Regroup(multiset(r), multiset(s), multiset(r'), multiset(s'));
  }

  lemma ProgressStep(before: seq<Message>, chunk: seq<Message>, after: seq<Message>, jobs: seq<Job>, n: nat, hi: nat,
                     cfg: Config, o: seq<seq<Outcome>>, w: seq<seq<real>>, v: Locals, stats: Stats, u: Locals)
    requires n <= hi <= |jobs| && Parsed(before) && Parsed(chunk) && Parsed(after)
    requires Progress(before, jobs, n, cfg, o, w, v, stats)
    requires Rejects(after, cfg.tables) == Rejects(before, cfg.tables) + Rejects(chunk, cfg.tables)
    requires CountDefective(after, cfg.tables) ==
             CountDefective(before, cfg.tables) + CountDefective(chunk, cfg.tables)
    requires var f, budget := Failures(o, n, hi), cfg.RetryLoop().Budget();
             && NoneAborted(o, f, budget)
             && u.dlq == Rejects(chunk, cfg.tables) + SinkRecords(jobs, o, f, budget)
             && u.tally == RangeTally(o, n, hi, budget)
             && u.rejects == CountDefective(chunk, cfg.tables)
             && Upserts(u.writes) == Reached(jobs, o, budget, n, hi)
    ensures Progress(after, jobs, hi, cfg, o, w,
                     Locals(v.dlq + u.dlq, Plus(v.tally, u.tally), v.rejects + u.rejects, v.writes + u.writes),
                     Merged(stats, RangeStats(o, w, n, hi, cfg.RetryLoop().Budget())))
  {
    hide Rejects, SinkRecords, RangeTally, RangeStats, Reached, NoneAborted, CountDefective, Failures, FateOf;
    hide Plus, Merged, Upserts;
    var budget := cfg.RetryLoop().Budget();
    RangesCompose(jobs, o, w, n, hi, budget);
    UpsertsAppend(v.writes, u.writes);
    RecordsJoin(v.dlq, u.dlq, Rejects(before, cfg.tables), SinkRecords(jobs, o, Failures(o, 0, n), budget),
                Rejects(chunk, cfg.tables), SinkRecords(jobs, o, Failures(o, n, hi), budget));
  }

  /** Chunk number `c`: build, write, retry. */
  method WriteChunk(ghost rows: seq<Message>, ghost jobs: seq<Job>, chunks: seq<seq<Message>>, c: nat, base: nat,
                    cfg: Config, o: seq<seq<Outcome>>, w: seq<seq<real>>, now: int, v: Locals, stats: RetryStats)
    returns (v': Locals, hi: nat, aborted: bool)
    requires c < |chunks| && rows == Flatten(chunks) && Parsed(rows) && jobs == JobsOf(rows, cfg.tables)
    requires Parsed(Flatten(chunks[..c])) && base == |JobsOf(Flatten(chunks[..c]), cfg.tables)| && base <= |jobs|
    requires Progress(Flatten(chunks[..c]), jobs, base, cfg, o, w, v, stats.Value())
    modifies stats
    ensures aborted ==> !Completes(rows, cfg, o) && Upserts(v'.writes) <= PartitionUpserts(rows, cfg, o)
    ensures !aborted ==>
              && Parsed(Flatten(chunks[..c + 1]))
              && hi == |JobsOf(Flatten(chunks[..c + 1]), cfg.tables)| && hi <= |jobs|
              && Progress(Flatten(chunks[..c + 1]), jobs, hi, cfg, o, w, v', stats.Value())
  {
    hide Rejects, SinkRecords, RangeTally, RangeStats, Reached, NoneAborted, CountDefective, Failures, FateOf, JobsOf;
    hide Flatten, Plus, Merged, Progress;
    ChunkInPlace(rows, chunks, c, cfg.tables);
    ghost var budget, statsBefore := cfg.RetryLoop().Budget(), stats.Value();
    var work, rejected, defects := BuildChunk(chunks[c], cfg.tables);
    hi := base + |work|;
    var records, t, chunkWrites;
    records, t, chunkWrites, aborted := WriteStatements(jobs, work, base, cfg.RetryLoop(), o, w, now, stats);
    var u := Locals(rejected + records, t, defects, chunkWrites);
    v' := Locals(v.dlq + u.dlq, Plus(v.tally, u.tally), v.rejects + u.rejects, v.writes + u.writes);
    if aborted {
      Aborts(rows, Flatten(chunks[..c]), jobs, base, hi, cfg, o, w, v, statsBefore, chunkWrites);
    } else {
      ProgressStep(Flatten(chunks[..c]), chunks[c], Flatten(chunks[..c + 1]), jobs, base, hi, cfg, o, w, v,
                   statsBefore, u);
    }
  }

  /** An abort in one chunk is an abort of the partition, and what is written is of the partition. */
  lemma Aborts(rows: seq<Message>, before: seq<Message>, jobs: seq<Job>, n: nat, hi: nat, cfg: Config,
               o: seq<seq<Outcome>>, w: seq<seq<real>>, v: Locals, stats: Stats, writes: seq<Write>)
    requires Parsed(rows) && Parsed(before) && jobs == JobsOf(rows, cfg.tables) && n <= hi <= |jobs|
    requires Progress(before, jobs, n, cfg, o, w, v, stats)
    requires !NoneAborted(o, Failures(o, n, hi), cfg.RetryLoop().Budget())
    requires Upserts(writes) <= Reached(jobs, o, cfg.RetryLoop().Budget(), n, hi)
    ensures !Completes(rows, cfg, o)
    ensures Upserts(v.writes + writes) <= PartitionUpserts(rows, cfg, o)
  {
    hide Rejects, SinkRecords, RangeTally, RangeStats, Reached, NoneAborted, CountDefective, Failures, FateOf, JobsOf;
    RangesCompose(jobs, o, w, n, hi, cfg.RetryLoop().Budget());
    RangesCompose(jobs, o, w, hi, |jobs|, cfg.RetryLoop().Budget());
    UpsertsAppend(v.writes, writes);
  }

  /**
   `write_partition`. An exception the writer does not catch ends the task: its
   DLQ rows are lost with it, though what it wrote stays written.
   */
  method WritePartition(rows: seq<Message>, cfg: Config, o: seq<seq<Outcome>>, w: seq<seq<real>>, clock: seq<int>)
    returns (dlq: seq<DlqRecord>, result: PartitionStats, writes: seq<Write>, completed: bool)
    requires Parsed(rows)
    ensures completed == Completes(rows, cfg, o)
    ensures Upserts(writes) <= PartitionUpserts(rows, cfg, o)
    ensures completed ==> multiset(dlq) == multiset(PartitionDlq(rows, cfg, o))
    ensures completed ==> result == PartitionResult(rows, cfg, o, w)
    ensures completed ==> Upserts(writes) == PartitionUpserts(rows, cfg, o)
  {
    hide Rejects, SinkRecords, RangeTally, RangeStats, Reached, NoneAborted, CountDefective, Failures, FateOf, JobsOf;
    hide Progress;
    ghost var jobs := JobsOf(rows, cfg.tables);
    var stats := new RetryStats();
    var base, v := 0, Locals([], NOTHING, 0, []);
    StartOfPartition(jobs, cfg, o, w);
    var chunks := Batched(rows, cfg.chunkSize);
    for c := 0 to |chunks|
      invariant base <= |jobs| && fresh(stats)
      invariant Parsed(Flatten(chunks[..c])) && base == |JobsOf(Flatten(chunks[..c]), cfg.tables)|
      invariant Progress(Flatten(chunks[..c]), jobs, base, cfg, o, w, v, stats.Value())
    {
      var aborted;
      v, base, aborted := WriteChunk(rows, jobs, chunks, c, base, cfg, o, w, Nth(clock, c, 0), v, stats);
      if aborted {
        return [], PartitionStats(0, 0, 0, 0, 0, NO_STATS), v.writes, false;
      }
    }
    assert chunks[..|chunks|] == chunks;
    EndOfPartition(rows, cfg, o, w, v, stats.Value());
    result := PartitionStats(v.tally.rowsWritten, |v.dlq|, v.rejects, v.tally.retriedWrites,
                             v.tally.retriedWritesRetries, stats.Value());
    return v.dlq, result, v.writes, true;
  }

  lemma StartOfPartition(jobs: seq<Job>, cfg: Config, o: seq<seq<Outcome>>, w: seq<seq<real>>)
    ensures JobsOf([], cfg.tables) == []
    ensures Progress([], jobs, 0, cfg, o, w, Locals([], NOTHING, 0, []), NO_STATS)
  {
    hide RangeTally, RangeStats;
    EmptyTally(o, w, 0, cfg.RetryLoop().Budget());
    EmptyStats(o, w, 0, cfg.RetryLoop().Budget());
  }

  lemma EndOfPartition(rows: seq<Message>, cfg: Config, o: seq<seq<Outcome>>, w: seq<seq<real>>, v: Locals,
                       stats: Stats)
    requires Parsed(rows)
    requires Progress(rows, JobsOf(rows, cfg.tables), |JobsOf(rows, cfg.tables)|, cfg, o, w, v, stats)
    ensures Completes(rows, cfg, o) && multiset(v.dlq) == multiset(PartitionDlq(rows, cfg, o))
    ensures Upserts(v.writes) == PartitionUpserts(rows, cfg, o)
    ensures PartitionResult(rows, cfg, o, w) ==
            PartitionStats(v.tally.rowsWritten, |v.dlq|, v.rejects, v.tally.retriedWrites,
                           v.tally.retriedWritesRetries, stats)
  {
    hide Rejects, SinkRecords, RangeTally, RangeStats, Reached, NoneAborted, CountDefective, Failures, FateOf, JobsOf;
    SameLength(v.dlq, PartitionDlq(rows, cfg, o));
  }

}
