/** What a partition's result says: nothing is lost, and the counters agree with each other. */
module SinkTheorems {
  import opened Events
  import opened Dlq
  import opened Retry
  import opened Sink

  // ------------------------------------------------------------ statements

  function AcceptedRows(rows: seq<Message>): nat {
    if rows == [] then 0
    else AcceptedRows(rows[..|rows| - 1]) + if Accepted(rows[|rows| - 1]) then 1 else 0
  }

  function WhyRejected(m: Message): string {
    if m.Json? && Defect(m).Some? then "PermanentDefect: " + Defect(m).value
    else "ValueError: badly formed hexadecimal UUID string"
  }

  lemma RowRejected(m: Message, tables: set<Table>)
    requires m.Json?
    ensures RowReject(m, tables) == if Accepted(m) then [] else [BuildRecord(m, WhyRejected(m), StageParse, 0)]
  {
    hide Columns, BuildRecord;
    SparkRowBuilds(m, tables);
  }

  /** A row gives one statement per configured table, or one parse record; never both, never neither. */
  lemma RowSplits(m: Message, tables: set<Table>)
    requires m.Json?
    ensures Accepted(m) ==> |RowJobs(m, tables)| == |tables| && RowReject(m, tables) == []
    ensures !Accepted(m) ==>
              RowJobs(m, tables) == [] && RowReject(m, tables) == [BuildRecord(m, WhyRejected(m), StageParse, 0)]
    ensures forall j <- RowJobs(m, tables) ::
              j.row == m && Accepted(m) && exists t <- tables :: j.upsert == UpsertOf(t, m)
    ensures Accepted(m) ==> forall t <- tables :: Job(m, UpsertOf(t, m)) in RowJobs(m, tables)
    ensures forall r <- RowReject(m, tables) :: r.originalPayload == m && r.stage == StageParse && r.replayCount == 0
  {
    hide BuildStatements, Accepted, WhyRejected, RowReject, UpsertOf;
    RowRejected(m, tables);
    SparkRowBuilds(m, tables);
    var b := BuildStatements(SparkRow(m), tables);
    if Accepted(m) {
      forall t <- tables ensures Job(m, UpsertOf(t, m)) in RowJobs(m, tables) {
        assert UpsertOf(t, SparkRow(m)) in b.upserts;
        var i :| 0 <= i < |b.upserts| && b.upserts[i] == UpsertOf(t, SparkRow(m));
        assert RowJobs(m, tables)[i] == Job(m, UpsertOf(t, m));
      }
      forall j <- RowJobs(m, tables) ensures j.row == m && exists t <- tables :: j.upsert == UpsertOf(t, m) {
        assert j.upsert in b.upserts;
        var t :| t in tables && j.upsert == UpsertOf(t, SparkRow(m));
        assert j.upsert == UpsertOf(t, m);
      }
    }
  }

  lemma {:induction false} RowsSplit(rows: seq<Message>, tables: set<Table>)
    requires Parsed(rows)
    ensures |JobsOf(rows, tables)| == |tables| * AcceptedRows(rows)
    ensures |Rejects(rows, tables)| + AcceptedRows(rows) == |rows|
  {
    hide RowJobs, RowReject, Accepted, BuildRecord, WhyRejected, UpsertOf;
    if rows != [] {
      var front, m := rows[..|rows| - 1], rows[|rows| - 1];
      RowsSplit(front, tables);
      RowSplits(m, tables);
      assert |tables| * (AcceptedRows(front) + 1) == |tables| * AcceptedRows(front) + |tables|;
    }
  }

  /** Statements are the configured upserts of the accepted rows. */
  lemma {:induction false} JobsAreUpserts(rows: seq<Message>, tables: set<Table>, j: Job)
    requires Parsed(rows)
    ensures j in JobsOf(rows, tables) <==>
            j.row in rows && Accepted(j.row) && exists t <- tables :: j.upsert == UpsertOf(t, j.row)
  {
    hide RowJobs, RowReject, Accepted, UpsertOf;
    if rows != [] {
      var front, m := rows[..|rows| - 1], rows[|rows| - 1];
      assert rows == front + [m];
      JobsAreUpserts(front, tables, j);
      RowSplits(m, tables);
    }
  }

  /** Every row that is not acceptable is quarantined with what is wrong with it, and nothing was retried for it. */
  lemma {:induction false} RejectsAreRows(rows: seq<Message>, tables: set<Table>, m: Message)
    requires Parsed(rows) && m in rows && !Accepted(m)
    ensures InDlq(Rejects(rows, tables), m, StageParse)
    ensures BuildRecord(m, WhyRejected(m), StageParse, 0) in Rejects(rows, tables)
  {
    hide RowReject, Accepted, BuildRecord, WhyRejected;
    var front, last := rows[..|rows| - 1], rows[|rows| - 1];
    assert rows == front + [last];
    RowSplits(last, tables);
    if m == last {
      var r := RowReject(last, tables)[0];
      assert r in RowReject(last, tables);
      assert r in Rejects(rows, tables);
    } else {
      RejectsAreRows(front, tables, m);
    }
  }

  lemma {:induction false} RejectsOnlyRows(rows: seq<Message>, tables: set<Table>, r: DlqRecord)
    requires Parsed(rows) && r in Rejects(rows, tables)
    ensures r.originalPayload in rows && !Accepted(r.originalPayload) && r.stage == StageParse && r.replayCount == 0
  {
    hide RowReject, Accepted;
    var front, last := rows[..|rows| - 1], rows[|rows| - 1];
    assert rows == front + [last];
    RowSplits(last, tables);
    if r in Rejects(front, tables) {
      RejectsOnlyRows(front, tables, r);
    }
  }

  // ------------------------------------------------------------ conservation

  /** Every failed statement that does not abort is written by a retry or becomes one DLQ record. */
  lemma {:induction false} FailuresSettle(jobs: seq<Job>, o: seq<seq<Outcome>>, idx: seq<int>, budget: nat)
    requires budget > 0 && forall k | 0 <= k < |idx| :: 0 <= idx[k] < |jobs|
    requires NoneAborted(o, idx, budget)
    ensures SlowTallyOf(o, idx, budget).rowsWritten + |SinkRecords(jobs, o, idx, budget)| == |idx|
    ensures SlowTallyOf(o, idx, budget).quarantined == |SinkRecords(jobs, o, idx, budget)|
    ensures SlowTallyOf(o, idx, budget).rowsWritten == SlowTallyOf(o, idx, budget).retriedWrites
  {
    hide FateOf;
    if idx != [] {
      FailuresSettle(jobs, o, idx[..|idx| - 1], budget);
    }
  }

  /**
   Conservation: tables times accepted rows is rows written plus DLQ records of
   the sink, and every other row is exactly one parse record.
   */
  lemma StatementConservation(rows: seq<Message>, cfg: Config, o: seq<seq<Outcome>>, w: seq<seq<real>>)
    requires Parsed(rows) && Completes(rows, cfg, o)
    ensures var r := PartitionResult(rows, cfg, o, w);
            var parse := |rows| - AcceptedRows(rows);
            && |cfg.tables| * AcceptedRows(rows) == r.rowsWritten + (r.dlqEmitted - parse)
            && r.dlqEmitted >= parse == |Rejects(rows, cfg.tables)|
  {
    hide FateOf, SinkRecords, SlowTallyOf, SlowStatsOf, Failures, JobsOf, Rejects, AcceptedRows, FastStats, NoneAborted;
    var jobs := JobsOf(rows, cfg.tables);
    RowsSplit(rows, cfg.tables);
    FailuresSettle(jobs, o, Failures(o, 0, |jobs|), cfg.RetryLoop().Budget());
  }

  /** Statements whose one fast attempt failed for good. */
  function FastPermanent(o: seq<seq<Outcome>>, idx: seq<int>): nat {
    if idx == [] then 0
    else
      var i := idx[|idx| - 1];
      FastPermanent(o, idx[..|idx| - 1]) + if Fast(o, i).Fail? && Fast(o, i).kind == Permanent then 1 else 0
  }

  lemma {:induction false} FastAgrees(o: seq<seq<Outcome>>, lo: int, hi: int)
    requires lo <= hi
    ensures var s := FastStats(o, lo, hi);
            && s.attempts == hi - lo && s.successes == hi - lo - |Failures(o, lo, hi)|
            && |s.reasons| == |Failures(o, lo, hi)| && s.retriesBeforeSuccess == 0 && s.failuresExhausted == 0
    decreases hi - lo
  {
    if lo < hi {
      FastAgrees(o, lo, hi - 1);
    }
  }

  lemma SlowAgrees(o: seq<seq<Outcome>>, w: seq<seq<real>>, i: int, budget: nat)
    requires budget > 0 && Fast(o, i).Fail? && !FateOf(o, i, budget).Aborted?
    ensures var s, t := SlowStats(o, w, i, budget), SlowTally(o, i, budget);
            && s.attempts == s.successes + |s.reasons| && s.successes == t.rowsWritten
            && s.retriesBeforeSuccess == t.retriedWritesRetries
            && t.quarantined == s.failuresExhausted + if Fast(o, i).kind == Permanent then 1 else 0
  {
    if Fast(o, i).kind != Permanent {
      ReasonsCount(Slow(o, i), LastAttempt(Slow(o, i), budget, 0));
    }
  }

  lemma {:induction false} SlowSumAgrees(o: seq<seq<Outcome>>, w: seq<seq<real>>, idx: seq<int>, budget: nat)
    requires budget > 0 && NoneAborted(o, idx, budget)
    requires forall k | 0 <= k < |idx| :: Fast(o, idx[k]).Fail?
    ensures var s, t := SlowStatsOf(o, w, idx, budget), SlowTallyOf(o, idx, budget);
            && s.attempts == s.successes + |s.reasons| && s.successes == t.rowsWritten
            && s.retriesBeforeSuccess == t.retriedWritesRetries
            && t.quarantined == s.failuresExhausted + FastPermanent(o, idx)
  {
    hide FateOf, SlowStats, SlowTally;
    if idx != [] {
      SlowSumAgrees(o, w, idx[..|idx| - 1], budget);
      SlowAgrees(o, w, idx[|idx| - 1], budget);
    }
  }

  /** The four agreements between counters that are kept in different places. */
  predicate Agree(r: PartitionStats, sinkRecords: nat, fastPermanent: nat) {
    && r.rowsWritten == r.retry.successes
    && r.retry.attempts == r.retry.successes + |r.retry.reasons|
    && r.retry.retriesBeforeSuccess == r.retriedWritesRetries
    && sinkRecords == r.retry.failuresExhausted + fastPermanent
  }

  lemma CountersAgree(rows: seq<Message>, cfg: Config, o: seq<seq<Outcome>>, w: seq<seq<real>>)
    requires Parsed(rows) && Completes(rows, cfg, o)
    ensures var f := Failures(o, 0, |JobsOf(rows, cfg.tables)|);
            Agree(PartitionResult(rows, cfg, o, w), |PartitionDlq(rows, cfg, o)| - |Rejects(rows, cfg.tables)|,
                  FastPermanent(o, f))
  {
    hide FateOf, SinkRecords, SlowTallyOf, SlowStatsOf, Failures, JobsOf, Rejects, FastStats, NoneAborted;
    hide FastPermanent;
    var jobs, budget := JobsOf(rows, cfg.tables), cfg.RetryLoop().Budget();
    var f := Failures(o, 0, |jobs|);
    FastAgrees(o, 0, |jobs|);
    SlowSumAgrees(o, w, f, budget);
    FailuresSettle(jobs, o, f, budget);
  }

  // ------------------------------------------------------------ the retry budget

  /** Attempts made on one statement, fast path included. */
  function AttemptsMade(o: seq<seq<Outcome>>, i: int, budget: nat): nat
    requires budget > 0
  {
    if RetriedSlowly(o, i) then 2 + LastAttempt(Slow(o, i), budget, 0) else 1
  }

  /** The DLQ record's retry count is the true number of attempts unless the fast attempt was final: then it is 0. */
  lemma RetryCountIsHonest(o: seq<seq<Outcome>>, i: int, budget: nat)
    requires budget > 0 && FateOf(o, i, budget).Quarantined?
    ensures FateOf(o, i, budget).retryCount == AttemptsMade(o, i, budget) <==> RetriedSlowly(o, i)
    ensures !RetriedSlowly(o, i) ==> FateOf(o, i, budget).retryCount == 0
  {
  }

  /**
   The configured budget bounds the attempts on every statement exactly when it
   is at least two: a budget of one still yields a second attempt.
   */
  lemma BudgetHolds(cfg: Config)
    ensures (forall o, i :: AttemptsMade(o, i, cfg.RetryLoop().Budget()) <= cfg.retry.maxAttempts) <==>
            cfg.retry.maxAttempts >= 2
  {
    var budget := cfg.RetryLoop().Budget();
    if cfg.retry.maxAttempts < 2 {
      var o := [[Fail(Transient, "WriteTimeout", false)]];
      assert Script(o, 0) == o[0] && Fast(o, 0) == Fail(Transient, "WriteTimeout", false);
      assert AttemptsMade(o, 0, budget) >= 2;
    }
  }

  // ------------------------------------------------------------ what the stream relies on

  lemma {:induction false} SinkRecordsOnly(jobs: seq<Job>, o: seq<seq<Outcome>>, idx: seq<int>, budget: nat,
                                           r: DlqRecord)
    requires budget > 0 && forall k | 0 <= k < |idx| :: 0 <= idx[k] < |jobs|
    requires r in SinkRecords(jobs, o, idx, budget)
    ensures r.stage == StageCassandraSink && r.replayCount == 0 && exists j <- jobs :: r.originalPayload == j.row
  {
    hide FateOf;
    var i := idx[|idx| - 1];
    if r in SinkRecords(jobs, o, idx[..|idx| - 1], budget) {
      SinkRecordsOnly(jobs, o, idx[..|idx| - 1], budget, r);
    } else {
      assert r.originalPayload == jobs[i].row && jobs[i] in jobs;
    }
  }

  lemma {:induction false} SinkRecordsCover(jobs: seq<Job>, o: seq<seq<Outcome>>, idx: seq<int>, budget: nat, k: nat)
    requires budget > 0 && (forall k | 0 <= k < |idx| :: 0 <= idx[k] < |jobs|) && k < |idx|
    requires FateOf(o, idx[k], budget).Quarantined?
    ensures SinkRecord(jobs[idx[k]].row, FateOf(o, idx[k], budget)) in SinkRecords(jobs, o, idx, budget)
  {
    hide FateOf;
    if k < |idx| - 1 {
      SinkRecordsCover(jobs, o, idx[..|idx| - 1], budget, k);
    }
  }

  lemma {:induction false} NotAborted(o: seq<seq<Outcome>>, idx: seq<int>, budget: nat, k: nat)
    requires budget > 0 && k < |idx| && NoneAborted(o, idx, budget)
    ensures !FateOf(o, idx[k], budget).Aborted?
  {
    hide FateOf;
    if k < |idx| - 1 {
      NotAborted(o, idx[..|idx| - 1], budget, k);
    }
  }

  /** A statement that is written reached the table; one that is not is in the dead letter queue. */
  lemma StatementSettles(rows: seq<Message>, cfg: Config, o: seq<seq<Outcome>>, i: nat)
    requires Parsed(rows) && Completes(rows, cfg, o) && i < |JobsOf(rows, cfg.tables)|
    ensures var j := JobsOf(rows, cfg.tables)[i];
            j.upsert in PartitionUpserts(rows, cfg, o) || InDlq(PartitionDlq(rows, cfg, o), j.row, StageCassandraSink)
  {
    hide FateOf, SlowReached, JobsOf, Rejects, SinkRecords;
    var jobs, budget := JobsOf(rows, cfg.tables), cfg.RetryLoop().Budget();
    var f := Failures(o, 0, |jobs|);
    if Fast(o, i).Ok? {
      assert ReachedTable(o, i, budget);
    } else {
      var k :| 0 <= k < |f| && f[k] == i;
      NotAborted(o, f, budget, k);
      if FateOf(o, i, budget).Quarantined? {
        SinkRecordsCover(jobs, o, f, budget, k);
      } else {
        WrittenReached(o, i, budget);
      }
    }
  }

  lemma WrittenReached(o: seq<seq<Outcome>>, i: int, budget: nat)
    requires budget > 0 && FateOf(o, i, budget).Written?
    ensures ReachedTable(o, i, budget)
  {
  }

  // ------------------------------------------------------------ a statement read off its attempts

  /** The attempts of statement `i`, the fast one first; none that is not in the script fails. */
  function AttemptsOf(o: seq<seq<Outcome>>, i: nat): seq<Outcome> { if i < |o| then o[i] else [] }

  /**
   How a statement ends: two attempts are always allowed, more if `max_attempts`
   is more. The first that is not a transient failure decides, or the last.
   */
  lemma StatementIsDecided(cfg: Config, o: seq<seq<Outcome>>, i: nat, n: nat)
    requires Transients(AttemptsOf(o, i), n) && (n <= 1 || n < cfg.retry.maxAttempts)
    ensures var s, fate := AttemptsOf(o, i), FateOf(o, i, cfg.RetryLoop().Budget());
      var made := AttemptsMade(o, i, cfg.RetryLoop().Budget());
      if n == |s| || s[n].Ok? then fate == Written(n) && made == n + 1
      else
        && (s[n].kind == Permanent ==> fate == Quarantined(if n == 0 then 0 else n + 1, s[n].name) && made == n + 1)
        && (s[n].kind == Transient && n >= 1 && n + 1 >= cfg.retry.maxAttempts ==>
            fate == Quarantined(n + 1, s[n].name) && made == n + 1)
        && (s[n].kind == Unexpected && n >= 1 ==> fate == Aborted && made == n + 1)
  {
    hide LastAttempt, CallStats, Names;
    var s, loop := AttemptsOf(o, i), cfg.RetryLoop();
    assert Script(o, i) == s;
    if n > 0 {
      assert Fast(o, i) == s[0] && Slow(o, i) == s[1..];
      assert Transients(s[1..], n - 1);
      CallIsDecided(s[1..], loop, [], n - 1);
      if n == |s| || !s[n].Retried() || n + 1 >= cfg.retry.maxAttempts {
        LastAttemptUnique(s[1..], loop.Budget(), n - 1);
      }
    }
  }

  /**
   The partition's records and writes, read off the attempts. A statement whose
   attempts go on failing transiently is quarantined with all the attempts the
   policy allows as its retry count, and the last error; a permanent failure
   quarantines it at once; and one that succeeds in time is written.
   */
  lemma StatementIsSettled(rows: seq<Message>, cfg: Config, o: seq<seq<Outcome>>, i: nat, n: nat)
    requires Parsed(rows) && i < |JobsOf(rows, cfg.tables)|
    requires Transients(AttemptsOf(o, i), n) && (n <= 1 || n < cfg.retry.maxAttempts)
    ensures var j, s := JobsOf(rows, cfg.tables)[i], AttemptsOf(o, i);
      if n == |s| || s[n].Ok? then j.upsert in PartitionUpserts(rows, cfg, o)
      else
        && (s[n].kind == Transient && n >= 1 && n + 1 >= cfg.retry.maxAttempts ==>
            BuildRecord(j.row, s[n].name, StageCassandraSink, n + 1) in PartitionDlq(rows, cfg, o))
        && (s[n].kind == Permanent ==>
            BuildRecord(j.row, s[n].name, StageCassandraSink, if n == 0 then 0 else n + 1)
              in PartitionDlq(rows, cfg, o))
        && (s[n].kind == Unexpected && n >= 1 ==> !Completes(rows, cfg, o))
  {
    hide FateOf, JobsOf, Rejects, BuildRecord, ReachedTable, SinkRecords;
    var jobs, budget := JobsOf(rows, cfg.tables), cfg.RetryLoop().Budget();
    StatementIsDecided(cfg, o, i, n);
    if FateOf(o, i, budget).Written? {
      WrittenReached(o, i, budget);
    } else {
      assert Fast(o, i).Fail? by { NotWrittenFailed(o, i, budget); }
      var f := Failures(o, 0, |jobs|);
      var k :| 0 <= k < |f| && f[k] == i;
      if FateOf(o, i, budget).Quarantined? {
        SinkRecordsCover(jobs, o, f, budget, k);
      } else if FateOf(o, i, budget).Aborted? {
        OneAborted(o, f, budget, k);
      }
    }
  }

  /** One of the attempts made succeeded, or failed after it had written. */
  predicate LandedWithin(s: seq<Outcome>, made: nat) {
    |s| < made || exists k: nat :: k < made && k < |s| && (s[k].Ok? || s[k].landed)
  }

  lemma SlowMeans(s: seq<Outcome>, last: nat)
    requires s != []
    ensures (exists a | 0 <= a <= last :: Attempt(s[1..], a).Landed())
       <==> |s| < last + 2 || exists k: nat :: 0 < k < last + 2 && k < |s| && (s[k].Ok? || s[k].landed)
  {
    assert forall a: nat :: Attempt(s[1..], a) == if a + 1 < |s| then s[a + 1] else Ok;
    hide Attempt;
    if |s| < last + 2 {
      assert Attempt(s[1..], last).Landed();
    }
    if k: nat :| 0 < k < last + 2 && k < |s| && (s[k].Ok? || s[k].landed) {
      assert Attempt(s[1..], k - 1).Landed();
    }
  }

  lemma ReachedMeans(o: seq<seq<Outcome>>, i: nat, budget: nat)
    requires budget > 0
    ensures ReachedTable(o, i, budget) <==> LandedWithin(AttemptsOf(o, i), AttemptsMade(o, i, budget))
  {
    hide LastAttempt;
    var s := AttemptsOf(o, i);
    assert Script(o, i) == s;
    if RetriedSlowly(o, i) {
      SlowMeans(s, LastAttempt(Slow(o, i), budget, 0));
    }
  }

  /** The upserts a partition leaves in the tables: those of the statements of which some attempt made landed. */
  lemma UpsertsExactly(rows: seq<Message>, cfg: Config, o: seq<seq<Outcome>>, u: Upsert)
    requires Parsed(rows)
    ensures var jobs, budget := JobsOf(rows, cfg.tables), cfg.RetryLoop().Budget();
      u in PartitionUpserts(rows, cfg, o) <==>
      exists i: nat :: i < |jobs| && jobs[i].upsert == u && LandedWithin(AttemptsOf(o, i), AttemptsMade(o, i, budget))
  {
    hide ReachedTable, JobsOf, LandedWithin, AttemptsMade, AttemptsOf;
    var jobs, budget := JobsOf(rows, cfg.tables), cfg.RetryLoop().Budget();
    forall i: nat ensures ReachedTable(o, i, budget) <==> LandedWithin(AttemptsOf(o, i), AttemptsMade(o, i, budget)) {
      ReachedMeans(o, i, budget);
    }
  }

  lemma NotWrittenFailed(o: seq<seq<Outcome>>, i: int, budget: nat)
    requires budget > 0 && !FateOf(o, i, budget).Written?
    ensures Fast(o, i).Fail?
  {
  }

  // ------------------------------------------------------------ the counters, statement by statement

  function DefectsAt(rows: seq<Message>): set<nat>
    requires Parsed(rows)
  {
    set i: nat | i < |rows| && Defect(rows[i]).Some?
  }

  lemma DefectsSnoc(front: seq<Message>, last: Message)
    requires Parsed(front) && last.Json?
    ensures Parsed(front + [last])
    ensures |DefectsAt(front + [last])| == |DefectsAt(front)| + if Defect(last).Some? then 1 else 0
  {
    hide Defect;
    var n, before := |front|, DefectsAt(front);
    assert DefectsAt(front + [last]) == if Defect(last).Some? then before + {n} else before;
  }

  /** Validation rejects are the rows with a defect. */
  lemma {:induction false} DefectsCounted(rows: seq<Message>, tables: set<Table>)
    requires Parsed(rows)
    ensures CountDefective(rows, tables) == |DefectsAt(rows)|
  {
    if rows == [] {
      assert DefectsAt(rows) == {};
    } else {
      hide Defect, DefectsAt;
      var front, last := rows[..|rows| - 1], rows[|rows| - 1];
      DefectsCounted(front, tables);
      assert rows == front + [last];
      DefectsSnoc(front, last);
    }
  }

  /** The statements written, those of them by a retry, and the retries these took; and all attempts made. */
  function WrittenAmong(o: seq<seq<Outcome>>, n: nat, budget: nat): nat
    requires budget > 0
  {
    if n == 0 then 0 else WrittenAmong(o, n - 1, budget) + if FateOf(o, n - 1, budget).Written? then 1 else 0
  }

  function RetriedAmong(o: seq<seq<Outcome>>, n: nat, budget: nat): nat
    requires budget > 0
  {
    if n == 0 then 0
    else
      var fate := FateOf(o, n - 1, budget);
      RetriedAmong(o, n - 1, budget) + if fate.Written? && fate.retries > 0 then 1 else 0
  }

  function RetriesAmong(o: seq<seq<Outcome>>, n: nat, budget: nat): nat
    requires budget > 0
  {
    if n == 0 then 0
    else
      var fate := FateOf(o, n - 1, budget);
      RetriesAmong(o, n - 1, budget) + if fate.Written? then fate.retries else 0
  }

  function AttemptsAmong(o: seq<seq<Outcome>>, n: nat, budget: nat): nat
    requires budget > 0
  {
    if n == 0 then 0 else AttemptsAmong(o, n - 1, budget) + AttemptsMade(o, n - 1, budget)
  }

  /** The failures recorded among the first `n` attempts: all but an unexpected one inside the retry loop. */
  function Recorded(s: seq<Outcome>, n: nat): multiset<string> {
    if n == 0 then multiset{}
    else
      Recorded(s, n - 1) +
      if n - 1 < |s| && s[n - 1].Fail? && (n == 1 || s[n - 1].kind != Unexpected) then multiset{s[n - 1].name}
      else multiset{}
  }

  function ReasonsAmong(o: seq<seq<Outcome>>, n: nat, budget: nat): multiset<string>
    requires budget > 0
  {
    if n == 0 then multiset{}
    else ReasonsAmong(o, n - 1, budget) + Recorded(AttemptsOf(o, n - 1), AttemptsMade(o, n - 1, budget))
  }

  /** The backoff of statement `i`: one wait of its own before every attempt from the third on. */
  function BackoffOf(w: seq<seq<real>>, i: nat, made: nat): real {
    if i < |w| && made > 2 then TotalBackoffMs(w[i], made - 2) else 0.0
  }

  function BackoffAmong(o: seq<seq<Outcome>>, w: seq<seq<real>>, n: nat, budget: nat): real
    requires budget > 0
  {
    if n == 0 then 0.0
    else BackoffAmong(o, w, n - 1, budget) + BackoffOf(w, n - 1, AttemptsMade(o, n - 1, budget))
  }

  lemma RecordedSnoc(s: seq<Outcome>, k: nat)
    requires s != [] && k > 0
    ensures var known := k < |s| && s[k].Recorded();
      && Recorded(s, k + 1) == Recorded(s, k) + (if known then multiset{s[k].name} else multiset{})
      && ReasonsOf(s[1..], k) == ReasonsOf(s[1..], k - 1) + if known then multiset{s[k].name} else multiset{}
  {
    assert Attempt(s[1..], k - 1) == if k < |s| then s[k] else Ok;
    hide Attempt;
  }

  lemma {:induction false} LoopRecords(s: seq<Outcome>, k: nat)
    requires s != []
    ensures Recorded(s, k + 1) == Recorded(s, 1) + ReasonsOf(s[1..], k)
  {
    if k > 0 {
      LoopRecords(s, k - 1);
      var before, first := ReasonsOf(s[1..], k - 1), Recorded(s, 1);
      hide Recorded, ReasonsOf, Attempt;
      RecordedSnoc(s, k);
      assert forall name :: first + (before + multiset{name}) == first + before + multiset{name};
    }
  }

  lemma {:induction false} NoWaits(n: nat)
    ensures TotalBackoffMs([], n) == 0.0
  {
    if n > 0 { NoWaits(n - 1); }
  }

  function FastOne(o: seq<seq<Outcome>>, i: nat): Stats {
    if Fast(o, i).Ok? then Stats(1, 1, 0, 0, 0.0, multiset{})
    else Stats(1, 0, 0, 0, 0.0, multiset{Fast(o, i).name})
  }

  lemma OneFailure(o: seq<seq<Outcome>>, lo: nat, hi: nat)
    requires hi == lo + 1
    ensures Failures(o, lo, hi) == if Fast(o, lo).Ok? then [] else [lo]
  {
    hide Fast;
    assert Failures(o, lo, lo) == [];
  }

  lemma OneAttempt(o: seq<seq<Outcome>>, lo: nat, hi: nat)
    requires hi == lo + 1
    ensures FastStats(o, lo, hi) == FastOne(o, lo)
  {
    hide Fast;
    assert FastStats(o, lo, lo) == NO_STATS;
  }

  lemma PlusNothing(t: Tally)
    ensures Plus(NOTHING, t) == t == Plus(t, NOTHING)
  {
  }

  lemma OneRetry(o: seq<seq<Outcome>>, w: seq<seq<real>>, one: seq<int>, budget: nat)
    requires budget > 0 && |one| == 1
    ensures SlowTallyOf(o, one, budget) == SlowTally(o, one[0], budget)
    ensures SlowStatsOf(o, w, one, budget) == SlowStats(o, w, one[0], budget)
  {
    hide SlowTally, SlowStats;
    var none := one[..0];
    assert one[..|one| - 1] == none;
    NoneToRetry(o, w, none, budget);
    var t, s := SlowTally(o, one[0], budget), SlowStats(o, w, one[0], budget);
    PlusLaws(t, t, t);
    MergedNothing(s);
  }

  lemma OneTally(o: seq<seq<Outcome>>, i: nat, budget: nat)
    requires budget > 0
    ensures RangeTally(o, i, i + 1, budget) == if Fast(o, i).Ok? then Tally(1, 0, 0, 0) else SlowTally(o, i, budget)
  {
    hide Fast, FateOf, SlowTally, SlowTallyOf, SlowStatsOf, SlowStats, Failures, Plus, NoneAborted;
    var f := Failures(o, i, i + 1);
    OneFailure(o, i, i + 1);
    var fast, slow := Tally(1 - |f|, 0, 0, 0), SlowTallyOf(o, f, budget);
    assert RangeTally(o, i, i + 1, budget) == Plus(fast, slow);
    if Fast(o, i).Ok? {
      NoneToRetry(o, [], f, budget);
      PlusNothing(fast);
    } else {
      OneRetry(o, [], f, budget);
      PlusNothing(slow);
    }
  }

  lemma OneStats(o: seq<seq<Outcome>>, w: seq<seq<real>>, i: nat, budget: nat)
    requires budget > 0
    ensures RangeStats(o, w, i, i + 1, budget) ==
            if Fast(o, i).Ok? then FastOne(o, i) else Merged(FastOne(o, i), SlowStats(o, w, i, budget))
  {
    hide Fast, FateOf, SlowStats, SlowStatsOf, Failures, FastStats, FastOne, Merged;
    var f := Failures(o, i, i + 1);
    OneFailure(o, i, i + 1);
    OneAttempt(o, i, i + 1);
    if Fast(o, i).Ok? {
      NoneToRetry(o, w, f, budget);
      MergedNothing(FastOne(o, i));
    } else {
      OneRetry(o, w, f, budget);
    }
  }

  /** What the retry path adds for a statement whose fast attempt failed. */
  lemma RetryAdds(o: seq<seq<Outcome>>, w: seq<seq<real>>, i: nat, budget: nat)
    requires budget > 0 && Fast(o, i).Fail?
    ensures var fate, t := FateOf(o, i, budget), SlowTally(o, i, budget);
      && (fate.Written? ==> fate.retries > 0)
      && t.rowsWritten == (if fate.Written? then 1 else 0) == t.retriedWrites
      && t.retriedWritesRetries == (if fate.Written? then fate.retries else 0)
    ensures SlowStats(o, w, i, budget).attempts == AttemptsMade(o, i, budget) - 1
  {
    hide LastAttempt, ReasonsOf, TotalBackoffMs, Attempt;
  }

  lemma StatementCounts(o: seq<seq<Outcome>>, w: seq<seq<real>>, i: nat, budget: nat)
    requires budget > 0
    ensures var fate, t, s := FateOf(o, i, budget), RangeTally(o, i, i + 1, budget), RangeStats(o, w, i, i + 1, budget);
      && t.rowsWritten == (if fate.Written? then 1 else 0)
      && t.retriedWrites == (if fate.Written? && fate.retries > 0 then 1 else 0)
      && t.retriedWritesRetries == (if fate.Written? then fate.retries else 0)
      && s.attempts == AttemptsMade(o, i, budget)
  {
    hide RangeTally, RangeStats, SlowTally, SlowStats, Fast;
    OneTally(o, i, budget);
    OneStats(o, w, i, budget);
    if Fast(o, i).Fail? {
      hide FateOf, AttemptsMade;
      RetryAdds(o, w, i, budget);
    } else {
      assert FateOf(o, i, budget) == Written(0) && AttemptsMade(o, i, budget) == 1;
    }
  }

  lemma SlowRecords(o: seq<seq<Outcome>>, w: seq<seq<real>>, i: nat, budget: nat)
    requires budget > 0 && Fast(o, i).Fail?
    ensures var s, slow := SlowStats(o, w, i, budget), RetriedSlowly(o, i);
      && s.reasons == (if slow then ReasonsOf(Slow(o, i), AttemptsMade(o, i, budget) - 1) else multiset{})
      && s.totalBackoffMs == (if slow then TotalBackoffMs(WaitsFor(w, i), AttemptsMade(o, i, budget) - 2) else 0.0)
  {
    hide LastAttempt, ReasonsOf, TotalBackoffMs, Attempt, WaitsFor, FateOf;
  }

  lemma BackoffIs(w: seq<seq<real>>, i: nat, made: nat)
    requires made >= 2
    ensures TotalBackoffMs(WaitsFor(w, i), made - 2) == BackoffOf(w, i, made)
  {
    if i >= |w| {
      NoWaits(made - 2);
    }
  }

  lemma StatementRecords(o: seq<seq<Outcome>>, w: seq<seq<real>>, i: nat, budget: nat)
    requires budget > 0
    ensures var made, s := AttemptsMade(o, i, budget), RangeStats(o, w, i, i + 1, budget);
      s.reasons == Recorded(AttemptsOf(o, i), made) && s.totalBackoffMs == BackoffOf(w, i, made)
  {
    hide RangeStats, RangeTally, SlowStats, SlowTally, FateOf, LastAttempt, ReasonsOf, TotalBackoffMs, WaitsFor;
    var a, made := AttemptsOf(o, i), AttemptsMade(o, i, budget);
    assert Recorded(a, 1) == if Fast(o, i).Fail? then multiset{Fast(o, i).name} else multiset{};
    hide Recorded;
    OneStats(o, w, i, budget);
    if Fast(o, i).Fail? {
      SlowRecords(o, w, i, budget);
      assert Slow(o, i) == a[1..];
    }
    if RetriedSlowly(o, i) {
      LoopRecords(a, made - 1);
      BackoffIs(w, i, made);
    }
  }

  lemma {:induction false} RangeMeans(jobs: seq<Job>, o: seq<seq<Outcome>>, w: seq<seq<real>>, n: nat, budget: nat)
    requires budget > 0 && n <= |jobs|
    ensures var t, s := RangeTally(o, 0, n, budget), RangeStats(o, w, 0, n, budget);
      && t.rowsWritten == WrittenAmong(o, n, budget) && t.retriedWrites == RetriedAmong(o, n, budget)
      && t.retriedWritesRetries == RetriesAmong(o, n, budget) && s.attempts == AttemptsAmong(o, n, budget)
      && s.reasons == ReasonsAmong(o, n, budget) && s.totalBackoffMs == BackoffAmong(o, w, n, budget)
  {
    hide FateOf, AttemptsMade, RangeTally, RangeStats, Recorded, BackoffOf, AttemptsOf, Reached, Failures;
    if n > 0 {
      RangeMeans(jobs, o, w, n - 1, budget);
      StatementCounts(o, w, n - 1, budget);
      StatementRecords(o, w, n - 1, budget);
      RangeSnoc(jobs, o, w, n, budget);
    } else {
      EmptyTally(o, w, n, budget);
      EmptyStats(o, w, n, budget);
    }
  }

  lemma RangeSnoc(jobs: seq<Job>, o: seq<seq<Outcome>>, w: seq<seq<real>>, n: nat, budget: nat)
    requires budget > 0 && 0 < n <= |jobs|
    ensures RangeTally(o, 0, n, budget) == Plus(RangeTally(o, 0, n - 1, budget), RangeTally(o, n - 1, n, budget))
    ensures RangeStats(o, w, 0, n, budget) ==
            Merged(RangeStats(o, w, 0, n - 1, budget), RangeStats(o, w, n - 1, n, budget))
  {
    hide RangeTally, RangeStats, Reached, Failures, SinkRecords, NoneAborted, Plus, Merged;
    RangesCompose(jobs, o, w, n - 1, n, budget);
  }

  /** The figures `r` are those of the first `n` statements, counted one by one. */
  predicate Counts(r: PartitionStats, o: seq<seq<Outcome>>, w: seq<seq<real>>, n: nat, budget: nat)
    requires budget > 0
  {
    && r.rowsWritten == WrittenAmong(o, n, budget) && r.retriedWrites == RetriedAmong(o, n, budget)
    && r.retriedWritesRetries == RetriesAmong(o, n, budget) && r.retry.attempts == AttemptsAmong(o, n, budget)
    && r.retry.reasons == ReasonsAmong(o, n, budget) && r.retry.totalBackoffMs == BackoffAmong(o, w, n, budget)
  }

  /** What a partition reports, statement by statement. */
  lemma ResultMeans(rows: seq<Message>, cfg: Config, o: seq<seq<Outcome>>, w: seq<seq<real>>)
    requires Parsed(rows)
    ensures var r := PartitionResult(rows, cfg, o, w);
      && Counts(r, o, w, |JobsOf(rows, cfg.tables)|, cfg.RetryLoop().Budget())
      && r.validationRejects == |DefectsAt(rows)| && r.dlqEmitted == |PartitionDlq(rows, cfg, o)|
  {
    hide Defect, WrittenAmong, RetriedAmong, RetriesAmong, AttemptsAmong, ReasonsAmong, BackoffAmong;
    hide RangeTally, RangeStats, JobsOf, PartitionDlq;
    RangeMeans(JobsOf(rows, cfg.tables), o, w, |JobsOf(rows, cfg.tables)|, cfg.RetryLoop().Budget());
    DefectsCounted(rows, cfg.tables);
  }
}
