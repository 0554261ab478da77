/** What micro-batching does to lateness, and which rows a batch accounts for. */
module StreamTheorems {
  import opened Options
  import opened Events
  import opened Dlq
  import opened Seqs
  import opened Retry
  import opened Sink
  import opened SinkTheorems
  import opened Stream

  // ------------------------------------------------------------ the high-water mark

  /** The mark as the documentation means it: the largest event time seen, or the epoch; none before any. */
  function MarkOf(rows: seq<KafkaRow>): Option<int> {
    Advance(None, MaxTime(Good(rows)))
  }

  /** The mark the job holds after a run of batches. */
  function RunMark(mark: Option<int>, cfg: StreamConfig, batches: seq<seq<KafkaRow>>): Option<int>
    decreases |batches|
  {
    if batches == [] then mark else RunMark(NextMark(mark, cfg, batches[0]), cfg, batches[1..])
  }

  lemma {:induction false} GoodAppend(a: seq<KafkaRow>, b: seq<KafkaRow>)
    ensures Good(a + b) == Good(a) + Good(b)
    ensures MaxTime(a + b) == Larger(MaxTime(a), MaxTime(b))
  {
    if b == [] {
      assert a + b == a;
    } else {
      Snoc(a, b);
      GoodAppend(a, b[..|b| - 1]);
      ConcatAssociates(Good(a), Good(b[..|b| - 1]), Good([b[|b| - 1]]));
      assert Good([b[|b| - 1]]) == if Unparseable(b[|b| - 1].message) then [] else [b[|b| - 1]];
    }
  }

  /** Whatever is below the mark already has no say in the next one. */
  lemma {:induction false} LateRowsDoNotCount(mark: Option<int>, cfg: StreamConfig, rows: seq<KafkaRow>)
    requires cfg.allowedLatenessSec >= 0 && Enforced(mark, cfg) && mark.value >= 0
    requires forall r <- rows :: !Unparseable(r.message)
    ensures Advance(mark, MaxTime(OnTimeRows(mark, cfg, rows))) == Advance(mark, MaxTime(rows))
  {
    if rows != [] {
      var front, last := rows[..|rows| - 1], rows[|rows| - 1];
      LateRowsDoNotCount(mark, cfg, front);
      var kept := OnTimeRows(mark, cfg, front);
      assert (kept + [last])[..|kept|] == kept && kept + [] == kept;
      assert last in rows;
    }
  }

  /** Although only surviving rows are looked at, the mark follows all parseable ones. */
  lemma NextMarkIsOfAllRows(mark: Option<int>, cfg: StreamConfig, rows: seq<KafkaRow>)
    requires cfg.allowedLatenessSec >= 0 && (mark.Some? ==> mark.value >= 0)
    ensures NextMark(mark, cfg, rows) == Advance(mark, MaxTime(Good(rows)))
  {
    if LateRows(mark, cfg, Good(rows)) != [] {
      NotEnforcedNoneLate(mark, cfg, Good(rows));
      forall r | r in Good(rows) ensures !Unparseable(r.message) {
        SplitMembers(mark, cfg, rows, r);
      }
      LateRowsDoNotCount(mark, cfg, Good(rows));
    }
  }

  predicate ValidMark(k: Option<int>) { k.Some? ==> k.value >= 0 }

  lemma AdvanceTwice(k: Option<int>, a: Option<int>, b: Option<int>)
    requires ValidMark(k)
    ensures Advance(Advance(k, a), b) == Advance(k, Larger(a, b)) && ValidMark(Advance(k, a))
  {
  }

  /**
   After any run the mark is the larger of what it was and of the event times
   of all parseable rows since, late rows included, however they were batched.
   */
  lemma {:induction false} RunMarkIsOfAllRows(k: Option<int>, cfg: StreamConfig, batches: seq<seq<KafkaRow>>)
    requires cfg.allowedLatenessSec >= 0 && ValidMark(k)
    ensures RunMark(k, cfg, batches) == Advance(k, MaxTime(Good(Flatten(batches))))
    decreases |batches|
  {
    if batches != [] {
      hide Advance, NextMark, Good;
      var b, rest := batches[0], batches[1..];
      NextMarkIsOfAllRows(k, cfg, b);
      GoodAppend(b, Flatten(rest));
      GoodAppend(Good(b), Good(Flatten(rest)));
      AdvanceTwice(k, MaxTime(Good(b)), MaxTime(Good(Flatten(rest))));
      RunMarkIsOfAllRows(NextMark(k, cfg, b), cfg, rest);
    }
  }

  /** A fresh job's mark is max(0, the largest event time of every parseable row it has ever seen). */
  lemma WatermarkRefinement(cfg: StreamConfig, batches: seq<seq<KafkaRow>>)
    requires cfg.allowedLatenessSec >= 0
    ensures RunMark(None, cfg, batches) == MarkOf(Flatten(batches))
  {
    RunMarkIsOfAllRows(None, cfg, batches);
  }

  /** A row that parses and has an event time. */
  predicate Timed(r: KafkaRow) {
    r.message.Json? && !r.message.eventId.NoUuid? && r.message.eventTime.Some?
  }

  lemma OnlyRow(r: KafkaRow)
    ensures MaxTime(Good([r])) == if Timed(r) then r.message.eventTime else None
  {
    assert [r][..0] == [] && [] + [r] == [r];
    assert Good([r]) == if Unparseable(r.message) then [] else [r];
  }

  lemma LatestSnoc(front: seq<KafkaRow>, last: KafkaRow)
    ensures MaxTime(Good(front + [last])) ==
            if Timed(last) then Larger(MaxTime(Good(front)), last.message.eventTime) else MaxTime(Good(front))
  {
    hide Good, MaxTime;
    GoodAppend(front, [last]);
    GoodAppend(Good(front), Good([last]));
    OnlyRow(last);
  }

  lemma {:induction false} LatestTime(rows: seq<KafkaRow>)
    ensures var latest := MaxTime(Good(rows));
      && (latest.None? <==> forall r <- rows :: !Timed(r))
      && (latest.Some? ==> forall r <- rows :: Timed(r) ==> r.message.eventTime.value <= latest.value)
      && (latest.Some? ==> exists r <- rows :: Timed(r) && r.message.eventTime == latest)
  {
    if rows != [] {
      hide Good, MaxTime;
      var front, last := rows[..|rows| - 1], rows[|rows| - 1];
      assert rows == front + [last];
      LatestTime(front);
      LatestSnoc(front, last);
    }
  }

  /** The mark spelled out: at least every event time of a row that parses, and one of them or the epoch. */
  lemma MarkMeans(rows: seq<KafkaRow>)
    ensures MarkOf(rows).None? <==> forall r <- rows :: !Timed(r)
    ensures MarkOf(rows).Some? ==>
              && MarkOf(rows).value >= 0
              && (forall r <- rows :: Timed(r) ==> r.message.eventTime.value <= MarkOf(rows).value)
              && (MarkOf(rows).value != 0 ==> exists r <- rows :: Timed(r) && r.message.eventTime == MarkOf(rows))
  {
    LatestTime(rows);
    hide Good, MaxTime;
  }

  lemma NextMarkOf(prior: seq<KafkaRow>, cfg: StreamConfig, rows: seq<KafkaRow>)
    requires cfg.allowedLatenessSec >= 0
    ensures NextMark(MarkOf(prior), cfg, rows) == MarkOf(prior + rows)
  {
    hide Good, NextMark;
    NextMarkIsOfAllRows(MarkOf(prior), cfg, rows);
    GoodAppend(prior, rows);
    GoodAppend(Good(prior), Good(rows));
    AdvanceTwice(None, MaxTime(Good(prior)), MaxTime(Good(rows)));
  }

  predicate MarkLeq(a: Option<int>, b: Option<int>) {
    a.Some? ==> b.Some? && a.value <= b.value
  }

  lemma NextMarkGrows(k: Option<int>, cfg: StreamConfig, rows: seq<KafkaRow>)
    ensures MarkLeq(k, NextMark(k, cfg, rows))
  {
  }

  /** The mark never decreases. */
  lemma {:induction false} MarkNeverDecreases(k: Option<int>, cfg: StreamConfig, batches: seq<seq<KafkaRow>>)
    ensures MarkLeq(k, RunMark(k, cfg, batches))
    decreases |batches|
  {
    if batches != [] {
      NextMarkGrows(k, cfg, batches[0]);
      MarkNeverDecreases(NextMark(k, cfg, batches[0]), cfg, batches[1..]);
    }
  }

  // ------------------------------------------------------------ lateness and batching

  /** Row by row, whether the run quarantined it as late. */
  function RunFlags(k: Option<int>, cfg: StreamConfig, batches: seq<seq<KafkaRow>>): seq<bool>
    decreases |batches|
  {
    if batches == [] then []
    else BatchFlags(k, cfg, batches[0]) + RunFlags(NextMark(k, cfg, batches[0]), cfg, batches[1..])
  }

  function BatchFlags(k: Option<int>, cfg: StreamConfig, rows: seq<KafkaRow>): (f: seq<bool>)
    ensures |f| == |rows|
  {
    seq(|rows|, i requires 0 <= i < |rows| => Late(k, cfg, rows[i].message))
  }

  predicate Below(a: seq<bool>, b: seq<bool>) {
    |a| == |b| && forall i | 0 <= i < |a| :: a[i] ==> b[i]
  }

  lemma BelowAppend(a: seq<bool>, b: seq<bool>, c: seq<bool>, d: seq<bool>)
    requires Below(a, c) && Below(b, d)
    ensures Below(a + b, c + d)
  {
  }

  lemma HigherMarkMoreLate(j: Option<int>, k: Option<int>, cfg: StreamConfig, rows: seq<KafkaRow>)
    requires MarkLeq(j, k)
    ensures Below(BatchFlags(j, cfg, rows), BatchFlags(k, cfg, rows))
  {
  }

  lemma BatchFlagsAppend(k: Option<int>, cfg: StreamConfig, a: seq<KafkaRow>, b: seq<KafkaRow>)
    ensures BatchFlags(k, cfg, a + b) == BatchFlags(k, cfg, a) + BatchFlags(k, cfg, b)
  {
  }

  lemma {:induction false} RunFlagsAppend(k: Option<int>, cfg: StreamConfig, a: seq<seq<KafkaRow>>,
                                          b: seq<seq<KafkaRow>>)
    ensures RunFlags(k, cfg, a + b) == RunFlags(k, cfg, a) + RunFlags(RunMark(k, cfg, a), cfg, b)
    ensures RunMark(k, cfg, a + b) == RunMark(RunMark(k, cfg, a), cfg, b)
    decreases |a|
  {
    hide BatchFlags, NextMark;
    if a == [] {
      assert a + b == b;
    } else {
      var next := NextMark(k, cfg, a[0]);
      assert (a + b)[0] == a[0] && (a + b)[1..] == a[1..] + b;
      RunFlagsAppend(next, cfg, a[1..], b);
      ConcatAssociates(BatchFlags(k, cfg, a[0]), RunFlags(next, cfg, a[1..]), RunFlags(RunMark(k, cfg, a), cfg, b));
    }
  }

  /** One batch against the same rows in several batches, judged from a mark at least as high. */
  lemma {:induction false} OneBatchAgainstMany(j: Option<int>, k: Option<int>, cfg: StreamConfig,
                                               parts: seq<seq<KafkaRow>>)
    requires MarkLeq(j, k)
    ensures Below(BatchFlags(j, cfg, Flatten(parts)), RunFlags(k, cfg, parts))
    decreases |parts|
  {
    hide BatchFlags, NextMark, Below;
    if parts == [] {
      assert Below([], []) by { EmptyBelow(j, cfg); }
      EmptyBelow(j, cfg);
    } else {
      var first, rest := parts[0], parts[1..];
      HigherMarkMoreLate(j, k, cfg, first);
      NextMarkGrows(k, cfg, first);
      OneBatchAgainstMany(j, NextMark(k, cfg, first), cfg, rest);
      BatchFlagsAppend(j, cfg, first, Flatten(rest));
      BelowAppend(BatchFlags(j, cfg, first), BatchFlags(j, cfg, Flatten(rest)), BatchFlags(k, cfg, first),
                  RunFlags(NextMark(k, cfg, first), cfg, rest));
    }
  }

  lemma EmptyBelow(j: Option<int>, cfg: StreamConfig)
    ensures BatchFlags(j, cfg, []) == [] && Below([], [])
  {
  }

  /** The coarser cut: each group of batches taken as one batch. */
  function Coarse(groups: seq<seq<seq<KafkaRow>>>): seq<seq<KafkaRow>> {
    if groups == [] then [] else [Flatten(groups[0])] + Coarse(groups[1..])
  }

  /**
   Cutting the same rows more finely never rescues a row: what the coarser cut
   quarantines as late, the finer one does too.
   */
  lemma {:induction false} FinerCutsQuarantineMore(k: Option<int>, cfg: StreamConfig, groups: seq<seq<seq<KafkaRow>>>)
    requires cfg.allowedLatenessSec >= 0 && ValidMark(k)
    ensures Below(RunFlags(k, cfg, Coarse(groups)), RunFlags(k, cfg, Flatten(groups)))
    decreases |groups|
  {
    if groups == [] {
      EmptyBelow(k, cfg);
    } else {
      var g, rest := groups[0], groups[1..];
      var next := NextMark(k, cfg, Flatten(g));
      NextMarkIsOfAllRows(k, cfg, Flatten(g));
      RunMarkIsOfAllRows(k, cfg, g);
      AdvanceTwice(k, MaxTime(Good(Flatten(g))), None);
      hide BatchFlags, NextMark, Below, Advance, MarkLeq;
      OneBatchAgainstMany(k, k, cfg, g) by { assert MarkLeq(k, k) by { MarkLeqReflexive(k); } }
      FinerCutsQuarantineMore(next, cfg, rest);
      RunFlagsAppend(k, cfg, g, Flatten(rest));
      assert Coarse(groups)[0] == Flatten(g) && Coarse(groups)[1..] == Coarse(rest);
      BelowAppend(BatchFlags(k, cfg, Flatten(g)), RunFlags(next, cfg, Coarse(rest)),
                  RunFlags(k, cfg, g), RunFlags(next, cfg, Flatten(rest)));
    }
  }

  lemma MarkLeqReflexive(k: Option<int>)
    ensures MarkLeq(k, k)
  {
  }

  /** The finest cut: every row a batch of its own. */
  function Singles(rows: seq<KafkaRow>): seq<seq<KafkaRow>> {
    if rows == [] then [] else [[rows[0]]] + Singles(rows[1..])
  }

  lemma {:induction false} SinglesFlatten(rows: seq<KafkaRow>)
    ensures Flatten(Singles(rows)) == rows
  {
    if rows != [] {
      SinglesFlatten(rows[1..]);
      assert Singles(rows)[0] == [rows[0]] && Singles(rows)[1..] == Singles(rows[1..]);
      hide Singles;
      assert rows == [rows[0]] + rows[1..];
    }
  }

  lemma {:induction false} SinglesAppend(a: seq<KafkaRow>, b: seq<KafkaRow>)
    ensures Singles(a + b) == Singles(a) + Singles(b)
  {
    if a == [] {
      assert a + b == b;
    } else {
      assert (a + b)[0] == a[0] && (a + b)[1..] == a[1..] + b;
      SinglesAppend(a[1..], b);
    }
  }

  function SinglesOf(batches: seq<seq<KafkaRow>>): seq<seq<seq<KafkaRow>>> {
    if batches == [] then [] else [Singles(batches[0])] + SinglesOf(batches[1..])
  }

  lemma {:induction false} SinglesOfBatches(batches: seq<seq<KafkaRow>>)
    ensures Coarse(SinglesOf(batches)) == batches
    ensures Flatten(SinglesOf(batches)) == Singles(Flatten(batches))
  {
    if batches != [] {
      hide Singles;
      var b, rest := batches[0], batches[1..];
      SinglesOfBatches(rest);
      SinglesFlatten(b);
      SinglesAppend(b, Flatten(rest));
      assert SinglesOf(batches)[0] == Singles(b) && SinglesOf(batches)[1..] == SinglesOf(rest);
      assert [b] + rest == batches;
    } else {
      assert Singles(Flatten(batches)) == [];
    }
  }

  /** In the finest cut a row is judged against all the rows before it. */
  lemma {:induction false} FinestFlag(k: Option<int>, cfg: StreamConfig, rows: seq<KafkaRow>, i: nat)
    requires cfg.allowedLatenessSec >= 0 && ValidMark(k) && i < |rows|
    ensures |RunFlags(k, cfg, Singles(rows))| == |rows|
    ensures RunFlags(k, cfg, Singles(rows))[i] == Late(Advance(k, MaxTime(Good(rows[..i]))), cfg, rows[i].message)
  {
    hide Late, Advance, NextMark;
    var before, r, after := rows[..i], rows[i], rows[i + 1..];
    assert rows == before + ([r] + after);
    SinglesAppend(before, [r] + after);
    assert Singles([r] + after) == [[r]] + Singles(after);
    RunFlagsAppend(k, cfg, Singles(before), [[r]] + Singles(after));
    var mark := RunMark(k, cfg, Singles(before));
    RunFlagsAppend(mark, cfg, [[r]], Singles(after));
    assert RunFlags(mark, cfg, [[r]]) == BatchFlags(mark, cfg, [r]) + [];
    SinglesFlatten(before);
    RunMarkIsOfAllRows(k, cfg, Singles(before));
    FlagsLength(k, cfg, Singles(before));
    FlagsLength(RunMark(mark, cfg, [[r]]), cfg, Singles(after));
    SinglesFlatten(after);
  }

  /**
   A fresh job fed row by row calls a row late exactly if it parses, the policy
   is not "process", and its event time is earlier than the mark of the rows
   before it by more than the lateness allowed.
   */
  lemma FinestFlagMeans(cfg: StreamConfig, rows: seq<KafkaRow>, i: nat)
    requires cfg.allowedLatenessSec >= 0 && i < |rows|
    ensures |RunFlags(None, cfg, Singles(rows))| == |rows|
    ensures RunFlags(None, cfg, Singles(rows))[i] <==>
            && cfg.latePolicy != LateProcess && Timed(rows[i]) && MarkOf(rows[..i]).Some?
            && MarkOf(rows[..i]).value - rows[i].message.eventTime.value > cfg.allowedLatenessSec * 1000
  {
    hide Good, MaxTime, RunFlags;
    FinestFlag(None, cfg, rows, i);
  }

  lemma {:induction false} FlagsLength(k: Option<int>, cfg: StreamConfig, batches: seq<seq<KafkaRow>>)
    ensures |RunFlags(k, cfg, batches)| == |Flatten(batches)|
    decreases |batches|
  {
    if batches != [] {
      FlagsLength(NextMark(k, cfg, batches[0]), cfg, batches[1..]);
    }
  }

  /**
   No cut quarantines a row that is within the allowed lateness of the largest
   event time of all earlier rows, the epoch counting as one.
   */
  lemma LateMeansBehind(cfg: StreamConfig, batches: seq<seq<KafkaRow>>, i: nat)
    requires cfg.allowedLatenessSec >= 0 && i < |Flatten(batches)|
    ensures |RunFlags(None, cfg, batches)| == |Flatten(batches)|
    ensures var rows := Flatten(batches);
            RunFlags(None, cfg, batches)[i] ==>
              && MarkOf(rows[..i]).Some? && rows[i].message.Json? && rows[i].message.eventTime.Some?
              && rows[i].message.eventTime.value < MarkOf(rows[..i]).value - cfg.allowedLatenessSec * 1000
  {
    FlagsLength(None, cfg, batches);
    SinglesOfBatches(batches);
    FinerCutsQuarantineMore(None, cfg, SinglesOf(batches));
    FinestFlag(None, cfg, Flatten(batches), i);
  }

  // ------------------------------------------------------------ merging partitions

  lemma PlusStatsLaws(a: PartitionStats, b: PartitionStats, c: PartitionStats)
    ensures PlusStats(a, b) == PlusStats(b, a) && PlusStats(PlusStats(a, b), c) == PlusStats(a, PlusStats(b, c))
    ensures PlusStats(a, EMPTY_AGG) == a
  {
  }

  lemma {:induction false} MergedStatsAppend(a: seq<PartitionStats>, b: seq<PartitionStats>)
    ensures MergedStats(a + b) == PlusStats(MergedStats(a), MergedStats(b))
  {
    hide PlusStats;
    if b == [] {
      assert a + b == a;
      PlusStatsLaws(MergedStats(a), EMPTY_AGG, EMPTY_AGG);
    } else {
      Snoc(a, b);
      MergedStatsAppend(a, b[..|b| - 1]);
      PlusStatsLaws(MergedStats(a), MergedStats(b[..|b| - 1]), b[|b| - 1]);
    }
  }

  /** The merged statistics do not depend on the order in which partitions report. */
  lemma {:induction false} MergeOrderIsIrrelevant(a: seq<PartitionStats>, b: seq<PartitionStats>)
    requires multiset(a) == multiset(b)
    ensures MergedStats(a) == MergedStats(b)
    decreases |a|
  {
    hide PlusStats, MergedStats;
    if a == [] {
      assert |multiset(b)| == |b|;
    } else {
      var i := PositionIn(a, b);
      var front, back := b[..i], b[i + 1..];
      RemoveOne(a, b, i);
      MergeOrderIsIrrelevant(a[1..], front + back);
      assert a == [a[0]] + a[1..] && b == front + ([b[i]] + back);
      MergedStatsAppend([a[0]], a[1..]);
      MergedStatsAppend(front, [b[i]] + back);
      MergedStatsAppend([b[i]], back);
      MergedStatsAppend(front, back);
      var x, f, k := MergedStats([a[0]]), MergedStats(front), MergedStats(back);
      PlusStatsLaws(f, x, k);
      PlusStatsLaws(x, f, k);
    }
  }

  /** The agreements between counters survive merging. */
  lemma AgreementsMerge(a: PartitionStats, b: PartitionStats, sinkA: nat, sinkB: nat, fastA: nat, fastB: nat)
    requires Agree(a, sinkA, fastA) && Agree(b, sinkB, fastB)
    ensures Agree(PlusStats(a, b), sinkA + sinkB, fastA + fastB)
  {
  }

  /** What one partition of an evaluation contributes to the agreement. */
  function SinkCount(rows: seq<KafkaRow>, p: nat, cfg: Config, e: Evaluation): int
    requires AllParsed(rows)
  {
    PartitionMembers(rows, p);
    |PartDlq(rows, p, cfg, e)| - |Rejects(PartitionRows(rows, p), cfg.tables)|
  }

  function FastCount(rows: seq<KafkaRow>, p: nat, cfg: Config, e: Evaluation): nat
    requires AllParsed(rows)
  {
    PartitionMembers(rows, p);
    FastPermanent(OutcomesOf(e, p), Failures(OutcomesOf(e, p), 0, |JobsOf(PartitionRows(rows, p), cfg.tables)|))
  }

  function SinkTotal(rows: seq<KafkaRow>, n: nat, cfg: Config, e: Evaluation): int
    requires AllParsed(rows)
  {
    if n == 0 then 0 else SinkTotal(rows, n - 1, cfg, e) + SinkCount(rows, n - 1, cfg, e)
  }

  function FastTotal(rows: seq<KafkaRow>, n: nat, cfg: Config, e: Evaluation): nat
    requires AllParsed(rows)
  {
    if n == 0 then 0 else FastTotal(rows, n - 1, cfg, e) + FastCount(rows, n - 1, cfg, e)
  }

  /** The batch's counters agree just as each partition's do. */
  lemma {:induction false} BatchCountersAgree(rows: seq<KafkaRow>, n: nat, cfg: Config, e: Evaluation)
    requires AllParsed(rows) && EvalCompletes(rows, n, cfg, e)
    ensures SinkTotal(rows, n, cfg, e) >= 0
    ensures Agree(MergedStats(EvalResults(rows, n, cfg, e)), SinkTotal(rows, n, cfg, e), FastTotal(rows, n, cfg, e))
  {
    hide PartitionResult, PartitionDlq, Agree, PlusStats, Failures, FastPermanent, Completes, FastCount, SinkCount;
    if n == 0 {
      EmptyAgrees();
    } else {
      BatchCountersAgree(rows, n - 1, cfg, e);
      PartAgrees(rows, n - 1, cfg, e);
      var results, last := EvalResults(rows, n - 1, cfg, e), PartResult(rows, n - 1, cfg, e);
      assert (results + [last])[..|results + [last]| - 1] == results;
      AgreementsMerge(MergedStats(results), last, SinkTotal(rows, n - 1, cfg, e), SinkCount(rows, n - 1, cfg, e),
                      FastTotal(rows, n - 1, cfg, e), FastCount(rows, n - 1, cfg, e));
    }
  }

  lemma EmptyAgrees()
    ensures Agree(EMPTY_AGG, 0, 0)
  {
  }

  lemma PartAgrees(rows: seq<KafkaRow>, p: nat, cfg: Config, e: Evaluation)
    requires AllParsed(rows) && PartCompletes(rows, p, cfg, e)
    ensures SinkCount(rows, p, cfg, e) >= 0
    ensures Agree(PartResult(rows, p, cfg, e), SinkCount(rows, p, cfg, e), FastCount(rows, p, cfg, e))
  {
    hide SinkRecords, Rejects, PartitionResult, Agree, Failures, JobsOf, FastPermanent, Completes;
    PartitionMembers(rows, p);
    CountersAgree(PartitionRows(rows, p), cfg, OutcomesOf(e, p), Nth(e.waits, p, []));
  }

  // ------------------------------------------------------------ which rows a batch accounts for

  /** The row is quarantined, or every configured table has it written or quarantined by the sink. */
  predicate Accounted(m: Message, tables: set<Table>, dlq: seq<DlqRecord>, written: set<Upsert>) {
    if Unparseable(m) then InDlq(dlq, m, StageParse)
    else
      || InDlq(dlq, m, StageLate)
      || (if Accepted(m) then forall t <- tables :: UpsertOf(t, m) in written || InDlq(dlq, m, StageCassandraSink)
          else InDlq(dlq, m, StageParse))
  }

  lemma InDlqAppend(a: seq<DlqRecord>, b: seq<DlqRecord>, m: Message, s: Stage)
    ensures InDlq(a + b, m, s) <==> InDlq(a, m, s) || InDlq(b, m, s)
  {
  }

  lemma {:induction false} QuarantineHolds(rows: seq<KafkaRow>, reason: string, stage: Stage, m: Message, s: Stage)
    ensures InDlq(Quarantine(rows, reason, stage), m, s) <==> s == stage && exists r <- rows :: r.message == m
    ensures forall d <- Quarantine(rows, reason, stage) ::
              d.stage == stage && d.replayCount == 0 && exists r <- rows :: r.message == d.originalPayload
  {
    if rows != [] {
      var front, last := rows[..|rows| - 1], rows[|rows| - 1];
      assert rows == front + [last];
      QuarantineHolds(front, reason, stage, m, s);
      var d := BuildRecord(last.message, reason, stage, 0);
      InDlqAppend(Quarantine(front, reason, stage), [d], m, s);
      assert d in [d] && (InDlq([d], m, s) <==> m == last.message && s == stage);
    }
  }

  /** The rows one evaluation of the sink settles. */
  lemma PartitionAccounts(rows: seq<Message>, cfg: Config, o: seq<seq<Outcome>>, m: Message)
    requires Parsed(rows) && Completes(rows, cfg, o) && m in rows
    ensures !Accepted(m) ==> InDlq(PartitionDlq(rows, cfg, o), m, StageParse)
    ensures Accepted(m) ==> forall t <- cfg.tables ::
              || UpsertOf(t, m) in PartitionUpserts(rows, cfg, o)
              || InDlq(PartitionDlq(rows, cfg, o), m, StageCassandraSink)
  {
    hide JobsOf, Rejects, SinkRecords, Failures, UpsertOf, PartitionUpserts, Completes;
    var jobs := JobsOf(rows, cfg.tables);
    if Accepted(m) {
      forall t <- cfg.tables
        ensures || UpsertOf(t, m) in PartitionUpserts(rows, cfg, o)
                || InDlq(PartitionDlq(rows, cfg, o), m, StageCassandraSink)
      {
        JobsAreUpserts(rows, cfg.tables, Job(m, UpsertOf(t, m)));
        var i :| 0 <= i < |jobs| && jobs[i] == Job(m, UpsertOf(t, m));
        StatementSettles(rows, cfg, o, i);
      }
    } else {
      RejectsAreRows(rows, cfg.tables, m);
      InDlqAppend(Rejects(rows, cfg.tables),
                  SinkRecords(jobs, o, Failures(o, 0, |jobs|), cfg.RetryLoop().Budget()), m, StageParse);
    }
  }

  lemma {:induction false} EvalAccounts(rows: seq<KafkaRow>, n: nat, cfg: Config, e: Evaluation, r: KafkaRow)
    requires AllParsed(rows) && EvalCompletes(rows, n, cfg, e) && r in rows && r.partition < n
    ensures !Accepted(r.message) ==> InDlq(EvalDlq(rows, n, cfg, e), r.message, StageParse)
    ensures Accepted(r.message) ==> forall t <- cfg.tables ::
              UpsertOf(t, r.message) in EvalUpserts(rows, n, cfg, e) ||
              InDlq(EvalDlq(rows, n, cfg, e), r.message, StageCassandraSink)
  {
    hide PartitionDlq, PartitionUpserts, Completes, UpsertOf, Accepted, AllParsed, InDlq;
    var m := r.message;
    PartitionMembers(rows, n - 1);
    InDlqAppend(EvalDlq(rows, n - 1, cfg, e), PartDlq(rows, n - 1, cfg, e), m, StageParse);
    InDlqAppend(EvalDlq(rows, n - 1, cfg, e), PartDlq(rows, n - 1, cfg, e), m, StageCassandraSink);
    if r.partition == n - 1 {
      assert KafkaRow(m, n - 1) == r;
      PartitionAccounts(PartitionRows(rows, n - 1), cfg, OutcomesOf(e, n - 1), m);
    } else {
      EvalAccounts(rows, n - 1, cfg, e, r);
    }
  }

  /** Every kept row is settled by a batch that runs to its end, whichever evaluations Spark made. */
  lemma KeptIsAccounted(mark: Option<int>, cfg: StreamConfig, rows: seq<KafkaRow>, es: Evaluations, r: KafkaRow)
    requires BatchCompletes(mark, cfg, rows, es) && r in Kept(mark, cfg, rows)
    ensures Accounted(r.message, cfg.sink.tables, BatchDlq(mark, cfg, rows, es), BatchUpserts(mark, cfg, rows, es))
  {
    hide UpsertOf, Accepted, EvalDlq, EvalUpserts, EvalCompletes, EarlyDlq;
    var kept, m := Kept(mark, cfg, rows), r.message;
    var n := Partitions(kept);
    KeptParsed(mark, cfg, rows);
    KeptMembers(mark, cfg, rows, r);
    PartitionMembers(kept, 0);
    var counted, published := SinkDlq(mark, cfg, rows, es.count), SinkDlq(mark, cfg, rows, es.publish);
    EvalAccounts(kept, n, cfg.sink, es.count, r);
    if counted != [] {
      EvalAccounts(kept, n, cfg.sink, es.publish, r);
    }
    var tail := if counted != [] then published else [];
    InDlqAppend(EarlyDlq(mark, cfg, rows), tail, m, StageParse);
    InDlqAppend(EarlyDlq(mark, cfg, rows), tail, m, StageCassandraSink);
  }

  /** The rows a batch makes disappear: late ones where the policy drops them, untimed ones beside any late one. */
  predicate Vanishes(mark: Option<int>, cfg: StreamConfig, rows: seq<KafkaRow>, m: Message) {
    && !Unparseable(m)
    && ((Late(mark, cfg, m) && cfg.latePolicy != LateDlq) || (SomeLate(mark, cfg, rows) && m.eventTime.None?))
  }

  lemma EarlyRowsAccounted(mark: Option<int>, cfg: StreamConfig, rows: seq<KafkaRow>, es: Evaluations, r: KafkaRow)
    requires r in rows
    requires Unparseable(r.message) || (Late(mark, cfg, r.message) && cfg.latePolicy == LateDlq)
    ensures Accounted(r.message, cfg.sink.tables, BatchDlq(mark, cfg, rows, es), BatchUpserts(mark, cfg, rows, es))
  {
    hide SinkDlq, Accepted, UpsertOf;
    var m := r.message;
    var bad := Quarantine(Bad(rows), PARSE_REASON, StageParse);
    var late := Quarantine(LateRows(mark, cfg, Good(rows)), LATE_REASON, StageLate);
    var tail := if SinkDlq(mark, cfg, rows, es.count) != [] then SinkDlq(mark, cfg, rows, es.publish) else [];
    SplitMembers(mark, cfg, rows, r);
    SplitMembers(mark, cfg, Good(rows), r);
    QuarantineHolds(Bad(rows), PARSE_REASON, StageParse, m, StageParse);
    QuarantineHolds(LateRows(mark, cfg, Good(rows)), LATE_REASON, StageLate, m, StageLate);
    InDlqAppend(bad, if cfg.latePolicy == LateDlq then late else [], m, StageParse);
    InDlqAppend(bad, if cfg.latePolicy == LateDlq then late else [], m, StageLate);
    InDlqAppend(EarlyDlq(mark, cfg, rows), tail, m, StageParse);
    InDlqAppend(EarlyDlq(mark, cfg, rows), tail, m, StageLate);
  }

  /** A row that does not vanish is accounted for. */
  lemma RowIsAccounted(mark: Option<int>, cfg: StreamConfig, rows: seq<KafkaRow>, es: Evaluations, r: KafkaRow)
    requires BatchCompletes(mark, cfg, rows, es) && r in rows && !Vanishes(mark, cfg, rows, r.message)
    ensures Accounted(r.message, cfg.sink.tables, BatchDlq(mark, cfg, rows, es), BatchUpserts(mark, cfg, rows, es))
  {
    hide Accounted, BatchDlq, BatchUpserts, BatchCompletes, Late, SomeLate, Kept;
    if Unparseable(r.message) || (Late(mark, cfg, r.message) && cfg.latePolicy == LateDlq) {
      EarlyRowsAccounted(mark, cfg, rows, es, r);
    } else {
      KeptMembers(mark, cfg, rows, r);
      KeptIsAccounted(mark, cfg, rows, es, r);
    }
  }

  // ------------------------------------------------------------ nothing comes from nowhere

  /** A record of the partition's queue carries a row of the partition, at the stage that row deserves. */
  lemma PartitionDlqOnly(rows: seq<Message>, cfg: Config, o: seq<seq<Outcome>>, d: DlqRecord)
    requires Parsed(rows) && d in PartitionDlq(rows, cfg, o)
    ensures d.originalPayload in rows && d.replayCount == 0
    ensures d.stage == if Accepted(d.originalPayload) then StageCassandraSink else StageParse
  {
    hide JobsOf, Rejects, SinkRecords, Failures, UpsertOf, Accepted;
    var jobs := JobsOf(rows, cfg.tables);
    if d in Rejects(rows, cfg.tables) {
      RejectsOnlyRows(rows, cfg.tables, d);
    } else {
      SinkRecordsOnly(jobs, o, Failures(o, 0, |jobs|), cfg.RetryLoop().Budget(), d);
      var j :| j in jobs && d.originalPayload == j.row;
      JobsAreUpserts(rows, cfg.tables, j);
    }
  }

  lemma PartitionUpsertsOnly(rows: seq<Message>, cfg: Config, o: seq<seq<Outcome>>, u: Upsert)
    requires Parsed(rows) && u in PartitionUpserts(rows, cfg, o)
    ensures exists m <- rows, t <- cfg.tables :: Accepted(m) && u == UpsertOf(t, m)
  {
    hide JobsOf, UpsertOf, Accepted, ReachedTable;
    var jobs := JobsOf(rows, cfg.tables);
    var i :| 0 <= i < |jobs| && jobs[i].upsert == u;
    assert jobs[i] in jobs;
    JobsAreUpserts(rows, cfg.tables, jobs[i]);
  }

  lemma {:induction false} EvalDlqOnly(rows: seq<KafkaRow>, n: nat, cfg: Config, e: Evaluation, d: DlqRecord)
    requires AllParsed(rows) && d in EvalDlq(rows, n, cfg, e)
    ensures (exists r <- rows :: r.message == d.originalPayload) && d.replayCount == 0
    ensures d.stage == if Accepted(d.originalPayload) then StageCassandraSink else StageParse
  {
    hide PartitionDlq, Accepted;
    if d in EvalDlq(rows, n - 1, cfg, e) {
      EvalDlqOnly(rows, n - 1, cfg, e, d);
    } else {
      PartitionMembers(rows, n - 1);
      PartitionDlqOnly(PartitionRows(rows, n - 1), cfg, OutcomesOf(e, n - 1), d);
      assert KafkaRow(d.originalPayload, n - 1) in rows;
    }
  }

  lemma {:induction false} EvalUpsertsOnly(rows: seq<KafkaRow>, n: nat, cfg: Config, e: Evaluation, u: Upsert)
    requires AllParsed(rows) && u in EvalUpserts(rows, n, cfg, e)
    ensures exists r <- rows, t <- cfg.tables :: Accepted(r.message) && u == UpsertOf(t, r.message)
  {
    hide PartitionUpserts, UpsertOf, Accepted;
    if u in EvalUpserts(rows, n - 1, cfg, e) {
      EvalUpsertsOnly(rows, n - 1, cfg, e, u);
    } else {
      PartitionMembers(rows, n - 1);
      PartitionUpsertsOnly(PartitionRows(rows, n - 1), cfg, OutcomesOf(e, n - 1), u);
      var m, t :| m in PartitionRows(rows, n - 1) && t in cfg.tables && Accepted(m) && u == UpsertOf(t, m);
      assert KafkaRow(m, n - 1) in rows;
    }
  }

  /** A record for this payload and stage is the right one for some row of the batch. */
  ghost predicate Deserved(mark: Option<int>, cfg: StreamConfig, rows: seq<KafkaRow>, d: DlqRecord) {
    var m := d.originalPayload;
    && d.replayCount == 0
    && (exists r <- rows :: r.message == m)
    && (match d.stage
        case StageParse =>
          Unparseable(m)
          || (!Accepted(m) && !Late(mark, cfg, m) && (SomeLate(mark, cfg, rows) ==> m.eventTime.Some?))
        case StageLate => cfg.latePolicy == LateDlq && Late(mark, cfg, m)
        case StageCassandraSink => Accepted(m) && !Unparseable(m) && !Late(mark, cfg, m)
        case StageProducer => false)
  }

  lemma EarlyDlqOnly(mark: Option<int>, cfg: StreamConfig, rows: seq<KafkaRow>, d: DlqRecord)
    requires d in EarlyDlq(mark, cfg, rows)
    ensures Deserved(mark, cfg, rows, d)
  {
    var m := d.originalPayload;
    QuarantineHolds(Bad(rows), PARSE_REASON, StageParse, m, StageParse);
    QuarantineHolds(LateRows(mark, cfg, Good(rows)), LATE_REASON, StageLate, m, StageLate);
    if d in Quarantine(Bad(rows), PARSE_REASON, StageParse) {
      var r :| r in Bad(rows) && r.message == m;
      SplitMembers(mark, cfg, rows, r);
    } else {
      var r :| r in LateRows(mark, cfg, Good(rows)) && r.message == m;
      SplitMembers(mark, cfg, Good(rows), r);
      SplitMembers(mark, cfg, rows, r);
    }
  }

  lemma SinkDlqOnly(mark: Option<int>, cfg: StreamConfig, rows: seq<KafkaRow>, e: Evaluation, d: DlqRecord)
    requires d in SinkDlq(mark, cfg, rows, e)
    ensures Deserved(mark, cfg, rows, d)
  {
    hide EvalDlq, Accepted;
    var kept := Kept(mark, cfg, rows);
    KeptParsed(mark, cfg, rows);
    EvalDlqOnly(kept, Partitions(kept), cfg.sink, e, d);
    var r :| r in kept && r.message == d.originalPayload;
    KeptMembers(mark, cfg, rows, r);
  }

  /** Whatever a batch publishes, whole or in part, some row of it deserves. */
  lemma BatchDlqOnly(mark: Option<int>, cfg: StreamConfig, rows: seq<KafkaRow>, es: Evaluations, d: DlqRecord)
    requires d in BatchDlq(mark, cfg, rows, es)
    ensures Deserved(mark, cfg, rows, d)
  {
    hide EarlyDlq, SinkDlq, Deserved;
    if d in EarlyDlq(mark, cfg, rows) {
      EarlyDlqOnly(mark, cfg, rows, d);
    } else {
      SinkDlqOnly(mark, cfg, rows, es.publish, d);
    }
  }

  /** An upsert of some row of the batch that is not late. */
  ghost predicate Owned(mark: Option<int>, cfg: StreamConfig, rows: seq<KafkaRow>, u: Upsert) {
    exists r <- rows, t <- cfg.sink.tables ::
      Accepted(r.message) && !Unparseable(r.message) && !Late(mark, cfg, r.message) && u == UpsertOf(t, r.message)
  }

  lemma SinkUpsertsOnly(mark: Option<int>, cfg: StreamConfig, rows: seq<KafkaRow>, e: Evaluation, u: Upsert)
    requires u in SinkUpserts(mark, cfg, rows, e)
    ensures Owned(mark, cfg, rows, u)
  {
    hide EvalUpserts, Accepted, UpsertOf;
    var kept := Kept(mark, cfg, rows);
    KeptParsed(mark, cfg, rows);
    EvalUpsertsOnly(kept, Partitions(kept), cfg.sink, e, u);
    var r, t :| r in kept && t in cfg.sink.tables && Accepted(r.message) && u == UpsertOf(t, r.message);
    KeptMembers(mark, cfg, rows, r);
  }

  lemma BatchUpsertsOnly(mark: Option<int>, cfg: StreamConfig, rows: seq<KafkaRow>, es: Evaluations, u: Upsert)
    requires u in BatchUpserts(mark, cfg, rows, es)
    ensures Owned(mark, cfg, rows, u)
  {
    hide SinkUpserts, Owned, SinkDlq;
    if u in SinkUpserts(mark, cfg, rows, es.stats) {
      SinkUpsertsOnly(mark, cfg, rows, es.stats, u);
    } else if u in SinkUpserts(mark, cfg, rows, es.count) {
      SinkUpsertsOnly(mark, cfg, rows, es.count, u);
    } else {
      SinkUpsertsOnly(mark, cfg, rows, es.publish, u);
    }
  }

  // ------------------------------------------------------------ exactly which rows are lost

  lemma VanishedIsLost(mark: Option<int>, cfg: StreamConfig, rows: seq<KafkaRow>, es: Evaluations, m: Message)
    requires cfg.sink.tables != {} && Vanishes(mark, cfg, rows, m)
    ensures !Accounted(m, cfg.sink.tables, BatchDlq(mark, cfg, rows, es), BatchUpserts(mark, cfg, rows, es))
  {
    hide BatchDlq, BatchUpserts;
    var dlq, written := BatchDlq(mark, cfg, rows, es), BatchUpserts(mark, cfg, rows, es);
    forall d | d in dlq && d.originalPayload == m ensures false {
      BatchDlqOnly(mark, cfg, rows, es, d);
    }
    var t :| t in cfg.sink.tables;
    if Accepted(m) && UpsertOf(t, m) in written {
      BatchUpsertsOnly(mark, cfg, rows, es, UpsertOf(t, m));
      OwnedIsNotLate(mark, cfg, rows, m, t);
    }
  }

  /** Lateness can be read off an upsert, so a late event's upsert belongs to no kept row. */
  lemma OwnedIsNotLate(mark: Option<int>, cfg: StreamConfig, rows: seq<KafkaRow>, m: Message, t: Table)
    requires Accepted(m) && Owned(mark, cfg, rows, UpsertOf(t, m))
    ensures !Late(mark, cfg, m)
  {
  }

  /**
   A batch that runs to its end accounts for a row if and only if the row does
   not vanish: no row is dropped by policy, and no row without an event time
   shares a batch with a late one.
   */
  lemma BatchLosesExactly(mark: Option<int>, cfg: StreamConfig, rows: seq<KafkaRow>, es: Evaluations, r: KafkaRow)
    requires BatchCompletes(mark, cfg, rows, es) && r in rows && cfg.sink.tables != {}
    ensures Accounted(r.message, cfg.sink.tables, BatchDlq(mark, cfg, rows, es), BatchUpserts(mark, cfg, rows, es)) <==>
            !Vanishes(mark, cfg, rows, r.message)
  {
    hide Accounted, BatchDlq, BatchUpserts, Vanishes;
    if Vanishes(mark, cfg, rows, r.message) {
      VanishedIsLost(mark, cfg, rows, es, r.message);
    } else {
      RowIsAccounted(mark, cfg, rows, es, r);
    }
  }

  lemma LateBesideUntimed(cfg: StreamConfig, late: KafkaRow, untimed: KafkaRow, mark: int)
    requires cfg.latePolicy == LateDlq
    requires late.message.Json? && late.message.eventId.Uuid? && late.message.eventTime == Some(Cutoff(mark, cfg) - 1)
    requires untimed.message.Json? && untimed.message.eventId.Uuid? && untimed.message.eventTime == None
    ensures var rows := [late, untimed];
            && late in rows && untimed in rows
            && SomeLate(Some(mark), cfg, rows) && Vanishes(Some(mark), cfg, rows, untimed.message)
    ensures Late(Some(mark), cfg, late.message)
    ensures !Unparseable(late.message) && !Unparseable(untimed.message)
  {
    hide Cutoff;
    var rows := [late, untimed];
    assert late in rows && untimed in rows && Late(Some(mark), cfg, late.message);
  }

  /** Such a loss does happen under the default policy: one late row next to one without an event time. */
  lemma NullTimeRowIsLost(cfg: StreamConfig, late: KafkaRow, untimed: KafkaRow, es: Evaluations, mark: int)
    requires cfg.latePolicy == LateDlq && cfg.sink.tables != {}
    requires late.message.Json? && late.message.eventId.Uuid? && late.message.eventTime == Some(Cutoff(mark, cfg) - 1)
    requires untimed.message.Json? && untimed.message.eventId.Uuid? && untimed.message.eventTime == None
    ensures !Accounted(untimed.message, cfg.sink.tables, BatchDlq(Some(mark), cfg, [late, untimed], es),
                       BatchUpserts(Some(mark), cfg, [late, untimed], es))
    ensures forall r :: r !in Kept(Some(mark), cfg, [late, untimed])
  {
    hide Accounted, BatchDlq, BatchUpserts, Kept, Vanishes, SomeLate, Unparseable, Late, Cutoff;
    var rows := [late, untimed];
    LateBesideUntimed(cfg, late, untimed, mark);
    VanishedIsLost(Some(mark), cfg, rows, es, untimed.message);
    forall r ensures r !in Kept(Some(mark), cfg, rows) {
      KeptMembers(Some(mark), cfg, rows, r);
    }
  }

  // ------------------------------------------------------------ merged statistics are sums

  function SumOver(f: PartitionStats -> nat, rows: seq<PartitionStats>): nat {
    if rows == [] then 0 else f(rows[0]) + SumOver(f, rows[1..])
  }

  lemma {:induction false} SumOverSnoc(f: PartitionStats -> nat, rows: seq<PartitionStats>, r: PartitionStats)
    ensures SumOver(f, rows + [r]) == SumOver(f, rows) + f(r)
  {
    if rows == [] {
      assert rows + [r] == [r] && [r][1..] == [];
    } else {
      assert (rows + [r])[1..] == rows[1..] + [r];
      SumOverSnoc(f, rows[1..], r);
    }
  }

  /** A figure that is 0 at the start and adds up in one merge is a sum over all of them. */
  lemma {:induction false} FigureIsSum(f: PartitionStats -> nat, rows: seq<PartitionStats>)
    requires f(EMPTY_AGG) == 0 && forall a, b :: f(PlusStats(a, b)) == f(a) + f(b)
    ensures f(MergedStats(rows)) == SumOver(f, rows)
  {
    hide PlusStats;
    if rows != [] {
      var n := |rows| - 1;
      FigureIsSum(f, rows[..n]);
      SumOverSnoc(f, rows[..n], rows[n]);
      assert rows == rows[..n] + [rows[n]];
    }
  }

  /** Every counter of a batch is the sum over its partitions, and so is the count of every failure reason. */
  lemma MergedMeans(rows: seq<PartitionStats>, reason: string)
    ensures var m := MergedStats(rows);
      && m.rowsWritten == SumOver((r: PartitionStats) => r.rowsWritten, rows)
      && m.dlqEmitted == SumOver((r: PartitionStats) => r.dlqEmitted, rows)
      && m.validationRejects == SumOver((r: PartitionStats) => r.validationRejects, rows)
      && m.retriedWrites == SumOver((r: PartitionStats) => r.retriedWrites, rows)
      && m.retriedWritesRetries == SumOver((r: PartitionStats) => r.retriedWritesRetries, rows)
      && m.retry.attempts == SumOver((r: PartitionStats) => r.retry.attempts, rows)
      && m.retry.successes == SumOver((r: PartitionStats) => r.retry.successes, rows)
      && m.retry.failuresExhausted == SumOver((r: PartitionStats) => r.retry.failuresExhausted, rows)
      && m.retry.retriesBeforeSuccess == SumOver((r: PartitionStats) => r.retry.retriesBeforeSuccess, rows)
      && m.retry.reasons[reason] == SumOver((r: PartitionStats) => r.retry.reasons[reason], rows)
  {
    FigureIsSum((r: PartitionStats) => r.rowsWritten, rows);
    FigureIsSum((r: PartitionStats) => r.dlqEmitted, rows);
    FigureIsSum((r: PartitionStats) => r.validationRejects, rows);
    FigureIsSum((r: PartitionStats) => r.retriedWrites, rows);
    FigureIsSum((r: PartitionStats) => r.retriedWritesRetries, rows);
    FigureIsSum((r: PartitionStats) => r.retry.attempts, rows);
    FigureIsSum((r: PartitionStats) => r.retry.successes, rows);
    FigureIsSum((r: PartitionStats) => r.retry.failuresExhausted, rows);
    FigureIsSum((r: PartitionStats) => r.retry.retriesBeforeSuccess, rows);
    FigureIsSum((r: PartitionStats) => r.retry.reasons[reason], rows);
  }

  // ------------------------------------------------------------ what a batch quarantines and reports, row by row

  lemma CountSnoc<T>(s: seq<T>, last: T, x: T)
    ensures multiset(s + [last])[x] == multiset(s)[x] + if last == x then 1 else 0
  {
  }

  /** Each filter keeps every row it is meant to, as often as it came. */
  lemma {:induction false} BadKeepsAll(rows: seq<KafkaRow>, r: KafkaRow)
    ensures multiset(Bad(rows))[r] == if Unparseable(r.message) then multiset(rows)[r] else 0
  {
    hide Unparseable;
    if rows != [] {
      var front, last := rows[..|rows| - 1], rows[|rows| - 1];
      BadKeepsAll(front, r);
      assert rows == front + [last];
      CountSnoc(front, last, r);
      CountSnoc(Bad(front), last, r);
    }
  }

  lemma {:induction false} GoodKeepsAll(rows: seq<KafkaRow>, r: KafkaRow)
    ensures multiset(Good(rows))[r] == if Unparseable(r.message) then 0 else multiset(rows)[r]
  {
    hide Unparseable;
    if rows != [] {
      var front, last := rows[..|rows| - 1], rows[|rows| - 1];
      GoodKeepsAll(front, r);
      assert rows == front + [last];
      CountSnoc(front, last, r);
      CountSnoc(Good(front), last, r);
    }
  }

  lemma {:induction false} LateKeepsAll(mark: Option<int>, cfg: StreamConfig, rows: seq<KafkaRow>, r: KafkaRow)
    ensures multiset(LateRows(mark, cfg, rows))[r] == if Late(mark, cfg, r.message) then multiset(rows)[r] else 0
  {
    hide Late;
    if rows != [] {
      var front, last := rows[..|rows| - 1], rows[|rows| - 1];
      LateKeepsAll(mark, cfg, front, r);
      assert rows == front + [last];
      CountSnoc(front, last, r);
      CountSnoc(LateRows(mark, cfg, front), last, r);
    }
  }

  lemma {:induction false} OnTimeKeepsAll(mark: Option<int>, cfg: StreamConfig, rows: seq<KafkaRow>, r: KafkaRow)
    ensures multiset(OnTimeRows(mark, cfg, rows))[r] == if OnTime(mark, cfg, r.message) then multiset(rows)[r] else 0
  {
    hide OnTime;
    if rows != [] {
      var front, last := rows[..|rows| - 1], rows[|rows| - 1];
      OnTimeKeepsAll(mark, cfg, front, r);
      assert rows == front + [last];
      CountSnoc(front, last, r);
      CountSnoc(OnTimeRows(mark, cfg, front), last, r);
    }
  }

  /** Every row goes to its own partition, as often as it came. */
  lemma {:induction false} PartitionsKeepAll(rows: seq<KafkaRow>, r: KafkaRow)
    ensures multiset(PartitionRows(rows, r.partition))[r.message] == multiset(rows)[r]
  {
    if rows != [] {
      var front, last := rows[..|rows| - 1], rows[|rows| - 1];
      PartitionsKeepAll(front, r);
      assert rows == front + [last];
      CountSnoc(front, last, r);
      CountSnoc(PartitionRows(front, r.partition), last.message, r.message);
    }
  }

  lemma {:induction false} QuarantineCovers(rows: seq<KafkaRow>, reason: string, stage: Stage, r: KafkaRow)
    requires r in rows
    ensures BuildRecord(r.message, reason, stage, 0) in Quarantine(rows, reason, stage)
  {
    hide BuildRecord;
    assert rows == rows[..|rows| - 1] + [rows[|rows| - 1]];
    if r in rows[..|rows| - 1] {
      QuarantineCovers(rows[..|rows| - 1], reason, stage, r);
    }
  }

  /** The record a row gets before the sink runs: what is wrong with it, and that nothing was retried for it. */
  lemma QuarantinedAs(mark: Option<int>, cfg: StreamConfig, rows: seq<KafkaRow>, r: KafkaRow)
    requires r in rows
    ensures Unparseable(r.message) ==>
              BuildRecord(r.message, "JsonParseError: value did not match event schema", StageParse, 0)
                in EarlyDlq(mark, cfg, rows)
    ensures Late(mark, cfg, r.message) && cfg.latePolicy == LateDlq ==>
              BuildRecord(r.message, "LateEvent: event_time older than watermark ", StageLate, 0)
                in EarlyDlq(mark, cfg, rows)
  {
    hide Unparseable, BuildRecord, Quarantine;
    SplitMembers(mark, cfg, rows, r);
    if Unparseable(r.message) {
      QuarantineCovers(Bad(rows), PARSE_REASON, StageParse, r);
    } else if Late(mark, cfg, r.message) && cfg.latePolicy == LateDlq {
      SplitMembers(mark, cfg, Good(rows), r);
      QuarantineCovers(LateRows(mark, cfg, Good(rows)), LATE_REASON, StageLate, r);
    }
  }

  function BadAt(rows: seq<KafkaRow>): set<nat> {
    set i: nat | i < |rows| && Unparseable(rows[i].message)
  }

  function LateAt(mark: Option<int>, cfg: StreamConfig, rows: seq<KafkaRow>): set<nat> {
    set i: nat | i < |rows| && Late(mark, cfg, rows[i].message)
  }

  lemma {:induction false} BadCount(rows: seq<KafkaRow>)
    ensures |Bad(rows)| == |BadAt(rows)|
  {
    hide Unparseable;
    if rows == [] {
      assert BadAt(rows) == {};
    } else {
      var n := |rows| - 1;
      BadCount(rows[..n]);
      assert BadAt(rows) == if Unparseable(rows[n].message) then BadAt(rows[..n]) + {n} else BadAt(rows[..n]);
    }
  }

  lemma LateSnoc(mark: Option<int>, cfg: StreamConfig, front: seq<KafkaRow>, last: KafkaRow)
    ensures LateRows(mark, cfg, Good(front + [last])) ==
            LateRows(mark, cfg, Good(front)) + if Late(mark, cfg, last.message) then [last] else []
  {
    var good := Good(front);
    assert (front + [last])[..|front|] == front && (good + [last])[..|good|] == good && good + [] == good;
  }

  lemma LateAtSnoc(mark: Option<int>, cfg: StreamConfig, front: seq<KafkaRow>, last: KafkaRow)
    ensures |LateAt(mark, cfg, front + [last])| ==
            |LateAt(mark, cfg, front)| + if Late(mark, cfg, last.message) then 1 else 0
  {
    hide Late;
    var n, rows, before := |front|, front + [last], LateAt(mark, cfg, front);
    assert LateAt(mark, cfg, rows) == if Late(mark, cfg, last.message) then before + {n} else before;
  }

  lemma {:induction false} LateCount(mark: Option<int>, cfg: StreamConfig, rows: seq<KafkaRow>)
    ensures |LateRows(mark, cfg, Good(rows))| == |LateAt(mark, cfg, rows)|
  {
    hide Late;
    if rows == [] {
      assert LateAt(mark, cfg, rows) == {};
    } else {
      hide LateAt, LateRows, Good;
      var front, last := rows[..|rows| - 1], rows[|rows| - 1];
      LateCount(mark, cfg, front);
      assert rows == front + [last];
      LateSnoc(mark, cfg, front, last);
      LateAtSnoc(mark, cfg, front, last);
    }
  }

  /** The report of a batch: its rows, those that do not parse, those late, and the sink's records and counters. */
  lemma ReportMeans(mark: Option<int>, cfg: StreamConfig, batchId: int, rows: seq<KafkaRow>, es: Evaluations)
    ensures var r := ReportOf(mark, cfg, batchId, rows, es);
      && r.batchId == batchId && r.inputRows == |rows|
      && r.unparseable == |BadAt(rows)| && r.late == |LateAt(mark, cfg, rows)|
      && r.dlq == |SinkDlq(mark, cfg, rows, es.count)|
      && r.agg == MergedStats(SinkResults(mark, cfg, rows, es.stats))
  {
    BadCount(rows);
    LateCount(mark, cfg, rows);
  }

  // ------------------------------------------------------------ one evaluation, partition by partition

  /** No partition is made up: the last one has a row. */
  lemma {:induction false} LastPartitionHasRows(rows: seq<KafkaRow>)
    ensures Partitions(rows) == 0 || exists r <- rows :: r.partition + 1 == Partitions(rows)
  {
    if rows != [] {
      LastPartitionHasRows(rows[..|rows| - 1]);
      assert rows[|rows| - 1] in rows;
    }
  }

  /** Partition `p` is written with its own rows, outcomes and waits. */
  lemma PartMeans(rows: seq<KafkaRow>, p: nat, cfg: Config, e: Evaluation)
    requires AllParsed(rows)
    ensures var o, w := if p < |e.outcomes| then e.outcomes[p] else [], if p < |e.waits| then e.waits[p] else [];
      && Parsed(PartitionRows(rows, p))
      && PartDlq(rows, p, cfg, e) == PartitionDlq(PartitionRows(rows, p), cfg, o)
      && PartUpserts(rows, p, cfg, e) == PartitionUpserts(PartitionRows(rows, p), cfg, o)
      && PartResult(rows, p, cfg, e) == PartitionResult(PartitionRows(rows, p), cfg, o, w)
      && (PartCompletes(rows, p, cfg, e) <==> Completes(PartitionRows(rows, p), cfg, o))
  {
    hide PartitionDlq, PartitionUpserts, PartitionResult, Completes;
    PartitionMembers(rows, p);
  }

  /** An evaluation is that of its partitions, no more and no less: what each queues, writes, reports, and survives. */
  lemma {:induction false} EvaluationMeans(rows: seq<KafkaRow>, n: nat, cfg: Config, e: Evaluation)
    requires AllParsed(rows)
    ensures EvalCompletes(rows, n, cfg, e) <==> forall p: nat :: p < n ==> PartCompletes(rows, p, cfg, e)
    ensures forall u :: u in EvalUpserts(rows, n, cfg, e) <==>
              exists p: nat :: p < n && u in PartUpserts(rows, p, cfg, e)
    ensures forall d :: d in EvalDlq(rows, n, cfg, e) <==> exists p: nat :: p < n && d in PartDlq(rows, p, cfg, e)
    ensures |EvalResults(rows, n, cfg, e)| == n
    ensures forall p: nat :: p < n ==> EvalResults(rows, n, cfg, e)[p] == PartResult(rows, p, cfg, e)
  {
    hide AllParsed, PartCompletes, PartUpserts, PartDlq, PartResult;
    if n > 0 {
      EvaluationMeans(rows, n - 1, cfg, e);
    }
  }

  /**
   The sink is evaluated for the statistics, for the count of records and, only
   if there are any, for publishing them. Each evaluation writes, each must
   complete, and only the last one's records are published.
   */
  lemma EvaluationsMade(mark: Option<int>, cfg: StreamConfig, rows: seq<KafkaRow>, es: Evaluations)
    ensures var third := ReportOf(mark, cfg, 0, rows, es).dlq > 0;
      && (BatchCompletes(mark, cfg, rows, es) <==>
          SinkCompletes(mark, cfg, rows, es.stats) && SinkCompletes(mark, cfg, rows, es.count)
          && (third ==> SinkCompletes(mark, cfg, rows, es.publish)))
      && (forall u :: u in BatchUpserts(mark, cfg, rows, es) <==>
          u in SinkUpserts(mark, cfg, rows, es.stats) || u in SinkUpserts(mark, cfg, rows, es.count)
          || (third && u in SinkUpserts(mark, cfg, rows, es.publish)))
      && |BatchDlq(mark, cfg, rows, es)| ==
         |BadAt(rows)| + (if cfg.latePolicy == LateDlq then |LateAt(mark, cfg, rows)| else 0)
         + (if third then |SinkDlq(mark, cfg, rows, es.publish)| else 0)
  {
    hide SinkDlq, SinkUpserts, SinkCompletes, SinkResults, MergedStats;
    ReportMeans(mark, cfg, 0, rows, es);
    hide ReportOf, Bad, LateRows, Good, LateAt, BadAt;
    BadCount(rows);
    LateCount(mark, cfg, rows);
    QuarantineLength(Bad(rows), PARSE_REASON, StageParse);
    QuarantineLength(LateRows(mark, cfg, Good(rows)), LATE_REASON, StageLate);
  }

  lemma {:induction false} QuarantineLength(rows: seq<KafkaRow>, reason: string, stage: Stage)
    ensures |Quarantine(rows, reason, stage)| == |rows|
  {
    if rows != [] { QuarantineLength(rows[..|rows| - 1], reason, stage); }
  }
}
