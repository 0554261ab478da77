/**
 The streaming job's micro-batch: split the rows into unparseable, late and
 kept, write the kept ones, publish what was quarantined, advance the
 high-water mark.

 Lateness is judged against the mark left by earlier batches. SQL comparison is
 three-valued: a null event_time is neither below nor at-or-above the cutoff,
 and the filter that removes late rows only runs when there are some.
 */
module Stream {
  import opened Options
  import opened Events
  import opened Dlq
  import opened Seqs
  import opened Retry
  import opened Sink

  /** A message with the Kafka partition it was read from. */
  datatype KafkaRow = KafkaRow(message: Message, partition: nat)

  datatype LatePolicy = LateDlq | LateProcess | LateDrop

  datatype StreamConfig = StreamConfig(sink: Config, allowedLatenessSec: int, latePolicy: LatePolicy)

  /** `parse_watermark_seconds`, after splitting: a count and a unit, or no such unit. */
  function WatermarkSeconds(n: int, u: string): Option<int> {
    var name := StripTrailing(u);
    if name == "second" then Some(n)
    else if name == "minute" then Some(n * 60)
    else if name == "hour" then Some(n * 3600)
    else if name == "millisecond" then Some(if n < 0 then -((-n) / 1000) else n / 1000)  // int() truncates
    else None
  }

  function StripTrailing(u: string): string {
    if u != "" && u[|u| - 1] == 's' then StripTrailing(u[..|u| - 1]) else u
  }

  /** The unit is what is left when no "s" stands at its end any more. */
  lemma {:induction false} Stripped(u: string)
    ensures StripTrailing(u) <= u
    ensures StripTrailing(u) == "" || StripTrailing(u)[|StripTrailing(u)| - 1] != 's'
    ensures forall i | |StripTrailing(u)| <= i < |u| :: u[i] == 's'
  {
    if u != "" && u[|u| - 1] == 's' {
      Stripped(u[..|u| - 1]);
    }
  }

  function UnitMs(name: string): Option<int> {
    if name == "millisecond" then Some(1)
    else if name == "second" then Some(1000)
    else if name == "minute" then Some(60_000)
    else if name == "hour" then Some(3_600_000)
    else None
  }

  /** The lateness allowed is the declared delay cut to whole seconds toward zero, for exactly the units known. */
  lemma WatermarkTruncates(n: int, u: string)
    ensures WatermarkSeconds(n, u).Some? <==> UnitMs(StripTrailing(u)).Some?
    ensures WatermarkSeconds(n, u).Some? ==>
      var ms, kept := n * UnitMs(StripTrailing(u)).value, WatermarkSeconds(n, u).value * 1000;
      if n >= 0 then kept <= ms < kept + 1000 else kept - 1000 < ms <= kept
  {
  }

  // ------------------------------------------------------------ classification

  predicate Unparseable(m: Message) { m.NotJson? || m.eventId.NoUuid? }

  predicate Enforced(mark: Option<int>, cfg: StreamConfig) {
    mark.Some? && cfg.latePolicy != LateProcess
  }

  function Cutoff(mark: int, cfg: StreamConfig): int { mark - cfg.allowedLatenessSec * 1000 }

  predicate Late(mark: Option<int>, cfg: StreamConfig, m: Message) {
    !Unparseable(m) && Enforced(mark, cfg) && m.eventTime.Some? && m.eventTime.value < Cutoff(mark.value, cfg)
  }

  predicate OnTime(mark: Option<int>, cfg: StreamConfig, m: Message) {
    Enforced(mark, cfg) && m.Json? && m.eventTime.Some? && m.eventTime.value >= Cutoff(mark.value, cfg)
  }

  function Bad(rows: seq<KafkaRow>): seq<KafkaRow> {
    if rows == [] then []
    else Bad(rows[..|rows| - 1]) + if Unparseable(rows[|rows| - 1].message) then [rows[|rows| - 1]] else []
  }

  function Good(rows: seq<KafkaRow>): seq<KafkaRow> {
    if rows == [] then []
    else Good(rows[..|rows| - 1]) + if Unparseable(rows[|rows| - 1].message) then [] else [rows[|rows| - 1]]
  }

  function LateRows(mark: Option<int>, cfg: StreamConfig, rows: seq<KafkaRow>): seq<KafkaRow> {
    if rows == [] then []
    else
      var last := rows[|rows| - 1];
      LateRows(mark, cfg, rows[..|rows| - 1]) + if Late(mark, cfg, last.message) then [last] else []
  }

  function OnTimeRows(mark: Option<int>, cfg: StreamConfig, rows: seq<KafkaRow>): seq<KafkaRow> {
    if rows == [] then []
    else
      var last := rows[|rows| - 1];
      OnTimeRows(mark, cfg, rows[..|rows| - 1]) + if OnTime(mark, cfg, last.message) then [last] else []
  }

  /** The rows handed to the sink. */
  function Kept(mark: Option<int>, cfg: StreamConfig, rows: seq<KafkaRow>): seq<KafkaRow> {
    if LateRows(mark, cfg, Good(rows)) == [] then Good(rows) else OnTimeRows(mark, cfg, Good(rows))
  }

  lemma {:induction false} SplitMembers(mark: Option<int>, cfg: StreamConfig, rows: seq<KafkaRow>, r: KafkaRow)
    ensures r in Bad(rows) <==> r in rows && Unparseable(r.message)
    ensures r in Good(rows) <==> r in rows && !Unparseable(r.message)
    ensures r in LateRows(mark, cfg, rows) <==> r in rows && Late(mark, cfg, r.message)
    ensures r in OnTimeRows(mark, cfg, rows) <==> r in rows && OnTime(mark, cfg, r.message)
  {
    if rows != [] {
      SplitMembers(mark, cfg, rows[..|rows| - 1], r);
      assert rows == rows[..|rows| - 1] + [rows[|rows| - 1]];
    }
  }

  /** Some row of the batch is late. */
  predicate SomeLate(mark: Option<int>, cfg: StreamConfig, rows: seq<KafkaRow>) {
    exists r <- rows :: Late(mark, cfg, r.message)
  }

  lemma KeptMembers(mark: Option<int>, cfg: StreamConfig, rows: seq<KafkaRow>, r: KafkaRow)
    ensures r in Kept(mark, cfg, rows) <==>
            && r in rows && !Unparseable(r.message) && !Late(mark, cfg, r.message)
            && (SomeLate(mark, cfg, rows) ==> r.message.eventTime.Some?)
    ensures LateRows(mark, cfg, Good(rows)) == [] <==> !SomeLate(mark, cfg, rows)
  {
    var late := LateRows(mark, cfg, Good(rows));
    if late != [] {
      assert late[0] in late;
      SplitMembers(mark, cfg, Good(rows), late[0]);
      SplitMembers(mark, cfg, rows, late[0]);
    }
    if SomeLate(mark, cfg, rows) {
      var l :| l in rows && Late(mark, cfg, l.message);
      SplitMembers(mark, cfg, rows, l);
      SplitMembers(mark, cfg, Good(rows), l);
    }
    SplitMembers(mark, cfg, rows, r);
    SplitMembers(mark, cfg, Good(rows), r);
  }

  // ------------------------------------------------------------ the high-water mark

  /** `F.max("event_time")`: null on an empty or all-null column. */
  function MaxTime(rows: seq<KafkaRow>): Option<int> {
    if rows == [] then None
    else
      var m := rows[|rows| - 1].message;
      Larger(MaxTime(rows[..|rows| - 1]), if m.Json? then m.eventTime else None)
  }

  function Larger(a: Option<int>, b: Option<int>): Option<int> {
    if a.None? then b else if b.None? then a else if a.value < b.value then b else a
  }

  /** `max(self._max_event_ms or 0, hw_ms)` when the batch has an event time. */
  function Advance(mark: Option<int>, highest: Option<int>): Option<int> {
    if highest.None? then mark
    else
      var current := if mark.Some? then mark.value else 0;
      Some(if current < highest.value then highest.value else current)
  }

  function NextMark(mark: Option<int>, cfg: StreamConfig, rows: seq<KafkaRow>): Option<int> {
    Advance(mark, MaxTime(Kept(mark, cfg, rows)))
  }

  // ------------------------------------------------------------ one evaluation of the sink

  /** The oracle for one evaluation: per partition, how its statements go. */
  datatype Evaluation = Evaluation(outcomes: seq<seq<seq<Outcome>>>, waits: seq<seq<seq<real>>>, clock: seq<int>)

  function OutcomesOf(e: Evaluation, p: nat): seq<seq<Outcome>> { Nth(e.outcomes, p, []) }

  function PartitionRows(rows: seq<KafkaRow>, p: nat): seq<Message> {
    if rows == [] then []
    else
      var r := rows[|rows| - 1];
      PartitionRows(rows[..|rows| - 1], p) + if r.partition == p then [r.message] else []
  }

  /** One more than the highest partition number. */
  function Partitions(rows: seq<KafkaRow>): nat {
    if rows == [] then 0
    else
      var n, p := Partitions(rows[..|rows| - 1]), rows[|rows| - 1].partition;
      if n < p + 1 then p + 1 else n
  }

  predicate AllParsed(rows: seq<KafkaRow>) {
    forall r <- rows :: r.message.Json?
  }

  lemma {:induction false} PartitionMembers(rows: seq<KafkaRow>, p: nat)
    ensures forall m :: m in PartitionRows(rows, p) <==> KafkaRow(m, p) in rows
    ensures AllParsed(rows) ==> Parsed(PartitionRows(rows, p))
    ensures forall r <- rows :: r.partition < Partitions(rows)
  {
    if rows != [] {
      PartitionMembers(rows[..|rows| - 1], p);
      assert rows == rows[..|rows| - 1] + [rows[|rows| - 1]];
    }
  }

  function PartDlq(rows: seq<KafkaRow>, p: nat, cfg: Config, e: Evaluation): seq<DlqRecord>
    requires AllParsed(rows)
  {
    PartitionMembers(rows, p);
    PartitionDlq(PartitionRows(rows, p), cfg, OutcomesOf(e, p))
  }

  function PartUpserts(rows: seq<KafkaRow>, p: nat, cfg: Config, e: Evaluation): set<Upsert>
    requires AllParsed(rows)
  {
    PartitionMembers(rows, p);
    PartitionUpserts(PartitionRows(rows, p), cfg, OutcomesOf(e, p))
  }

  function PartResult(rows: seq<KafkaRow>, p: nat, cfg: Config, e: Evaluation): PartitionStats
    requires AllParsed(rows)
  {
    PartitionMembers(rows, p);
    PartitionResult(PartitionRows(rows, p), cfg, OutcomesOf(e, p), Nth(e.waits, p, []))
  }

  predicate PartCompletes(rows: seq<KafkaRow>, p: nat, cfg: Config, e: Evaluation)
    requires AllParsed(rows)
  {
    PartitionMembers(rows, p);
    Completes(PartitionRows(rows, p), cfg, OutcomesOf(e, p))
  }

  /** DLQ rows of the first `n` partitions. */
  function EvalDlq(rows: seq<KafkaRow>, n: nat, cfg: Config, e: Evaluation): seq<DlqRecord>
    requires AllParsed(rows)
  {
    if n == 0 then [] else EvalDlq(rows, n - 1, cfg, e) + PartDlq(rows, n - 1, cfg, e)
  }

  function EvalUpserts(rows: seq<KafkaRow>, n: nat, cfg: Config, e: Evaluation): set<Upsert>
    requires AllParsed(rows)
  {
    if n == 0 then {} else EvalUpserts(rows, n - 1, cfg, e) + PartUpserts(rows, n - 1, cfg, e)
  }

  function EvalResults(rows: seq<KafkaRow>, n: nat, cfg: Config, e: Evaluation): seq<PartitionStats>
    requires AllParsed(rows)
  {
    if n == 0 then [] else EvalResults(rows, n - 1, cfg, e) + [PartResult(rows, n - 1, cfg, e)]
  }

  predicate EvalCompletes(rows: seq<KafkaRow>, n: nat, cfg: Config, e: Evaluation)
    requires AllParsed(rows)
  {
    if n == 0 then true else EvalCompletes(rows, n - 1, cfg, e) && PartCompletes(rows, n - 1, cfg, e)
  }

  /** Runs `write_partition` over every partition; stops at the first task that dies. */
  method Evaluate(rows: seq<KafkaRow>, cfg: Config, e: Evaluation)
    returns (dlq: seq<DlqRecord>, results: seq<PartitionStats>, writes: seq<Write>, completed: bool)
    requires AllParsed(rows)
    ensures completed == EvalCompletes(rows, Partitions(rows), cfg, e)
    ensures Upserts(writes) <= EvalUpserts(rows, Partitions(rows), cfg, e)
    ensures completed ==> multiset(dlq) == multiset(EvalDlq(rows, Partitions(rows), cfg, e))
    ensures completed ==> results == EvalResults(rows, Partitions(rows), cfg, e)
    ensures completed ==> Upserts(writes) == EvalUpserts(rows, Partitions(rows), cfg, e)
  {
    hide PartitionDlq, PartitionUpserts, PartitionResult, Completes;
    dlq, results, writes := [], [], [];
    for p := 0 to Partitions(rows)
      invariant multiset(dlq) == multiset(EvalDlq(rows, p, cfg, e))
      invariant results == EvalResults(rows, p, cfg, e)
      invariant Upserts(writes) == EvalUpserts(rows, p, cfg, e)
      invariant EvalCompletes(rows, p, cfg, e)
    {
      PartitionMembers(rows, p);
      var records, result, written, done :=
        WritePartition(PartitionRows(rows, p), cfg, OutcomesOf(e, p), Nth(e.waits, p, []), e.clock);
      UpsertsAppend(writes, written);
      EvalMonotone(rows, p + 1, Partitions(rows), cfg, e);
      writes := writes + written;
      if !done {
        return [], [], writes, false;
      }
      dlq, results := dlq + records, results + [result];
    }
    completed := true;
  }

  lemma {:induction false} EvalMonotone(rows: seq<KafkaRow>, p: nat, n: nat, cfg: Config, e: Evaluation)
    requires AllParsed(rows) && p <= n
    ensures EvalUpserts(rows, p, cfg, e) <= EvalUpserts(rows, n, cfg, e)
    ensures EvalCompletes(rows, n, cfg, e) ==> EvalCompletes(rows, p, cfg, e)
    decreases n - p
  {
    hide PartitionUpserts, Completes;
    if p < n {
      EvalMonotone(rows, p, n - 1, cfg, e);
    }
  }

  // ------------------------------------------------------------ merging the partitions' statistics

  function PlusStats(a: PartitionStats, b: PartitionStats): PartitionStats {
    PartitionStats(a.rowsWritten + b.rowsWritten, a.dlqEmitted + b.dlqEmitted,
                   a.validationRejects + b.validationRejects, a.retriedWrites + b.retriedWrites,
                   a.retriedWritesRetries + b.retriedWritesRetries, Merged(a.retry, b.retry))
  }

  const EMPTY_AGG := PartitionStats(0, 0, 0, 0, 0, NO_STATS)

  function MergedStats(rows: seq<PartitionStats>): PartitionStats {
    if rows == [] then EMPTY_AGG else PlusStats(MergedStats(rows[..|rows| - 1]), rows[|rows| - 1])
  }

  datatype BatchReport = BatchReport(batchId: int, inputRows: nat, unparseable: nat, late: nat, dlq: nat,
                                     agg: PartitionStats)

  // ------------------------------------------------------------ one batch

  /** The sink may be evaluated up to three times: for the statistics, the count and the publication. */
  datatype Evaluations = Evaluations(stats: Evaluation, count: Evaluation, publish: Evaluation)

  const PARSE_REASON := "JsonParseError: value did not match event schema"
  const LATE_REASON := "LateEvent: event_time older than watermark "

  function Quarantine(rows: seq<KafkaRow>, reason: string, stage: Stage): seq<DlqRecord> {
    if rows == [] then []
    else Quarantine(rows[..|rows| - 1], reason, stage) + [BuildRecord(rows[|rows| - 1].message, reason, stage, 0)]
  }

  /** What the batch publishes before the sink runs. */
  function EarlyDlq(mark: Option<int>, cfg: StreamConfig, rows: seq<KafkaRow>): seq<DlqRecord> {
    Quarantine(Bad(rows), PARSE_REASON, StageParse) +
    if cfg.latePolicy == LateDlq then Quarantine(LateRows(mark, cfg, Good(rows)), LATE_REASON, StageLate) else []
  }

  lemma KeptParsed(mark: Option<int>, cfg: StreamConfig, rows: seq<KafkaRow>)
    ensures AllParsed(Kept(mark, cfg, rows))
  {
    forall r | r in Kept(mark, cfg, rows) ensures r.message.Json? {
      KeptMembers(mark, cfg, rows, r);
    }
  }

  function SinkDlq(mark: Option<int>, cfg: StreamConfig, rows: seq<KafkaRow>, e: Evaluation): seq<DlqRecord> {
    KeptParsed(mark, cfg, rows);
    var kept := Kept(mark, cfg, rows);
    EvalDlq(kept, Partitions(kept), cfg.sink, e)
  }

  function SinkUpserts(mark: Option<int>, cfg: StreamConfig, rows: seq<KafkaRow>, e: Evaluation): set<Upsert> {
    KeptParsed(mark, cfg, rows);
    var kept := Kept(mark, cfg, rows);
    EvalUpserts(kept, Partitions(kept), cfg.sink, e)
  }

  predicate SinkCompletes(mark: Option<int>, cfg: StreamConfig, rows: seq<KafkaRow>, e: Evaluation) {
    KeptParsed(mark, cfg, rows);
    var kept := Kept(mark, cfg, rows);
    EvalCompletes(kept, Partitions(kept), cfg.sink, e)
  }

  function SinkResults(mark: Option<int>, cfg: StreamConfig, rows: seq<KafkaRow>, e: Evaluation): seq<PartitionStats> {
    KeptParsed(mark, cfg, rows);
    var kept := Kept(mark, cfg, rows);
    EvalResults(kept, Partitions(kept), cfg.sink, e)
  }

  /** Everything a batch that runs to its end publishes. */
  function BatchDlq(mark: Option<int>, cfg: StreamConfig, rows: seq<KafkaRow>, es: Evaluations): seq<DlqRecord> {
    EarlyDlq(mark, cfg, rows) +
    if SinkDlq(mark, cfg, rows, es.count) != [] then SinkDlq(mark, cfg, rows, es.publish) else []
  }

  function BatchUpserts(mark: Option<int>, cfg: StreamConfig, rows: seq<KafkaRow>, es: Evaluations): set<Upsert> {
    SinkUpserts(mark, cfg, rows, es.stats) + SinkUpserts(mark, cfg, rows, es.count) +
    if SinkDlq(mark, cfg, rows, es.count) != [] then SinkUpserts(mark, cfg, rows, es.publish) else {}
  }

  predicate BatchCompletes(mark: Option<int>, cfg: StreamConfig, rows: seq<KafkaRow>, es: Evaluations) {
    && SinkCompletes(mark, cfg, rows, es.stats)
    && SinkCompletes(mark, cfg, rows, es.count)
    && (SinkDlq(mark, cfg, rows, es.count) != [] ==> SinkCompletes(mark, cfg, rows, es.publish))
  }

  function ReportOf(mark: Option<int>, cfg: StreamConfig, batchId: int, rows: seq<KafkaRow>, es: Evaluations)
    : BatchReport
  {
    BatchReport(batchId, |rows|, |Bad(rows)|, |LateRows(mark, cfg, Good(rows))|, |SinkDlq(mark, cfg, rows, es.count)|,
                MergedStats(SinkResults(mark, cfg, rows, es.stats)))
  }

  class TripStream {
    const cfg: StreamConfig
    var maxEventMs: Option<int>
    var batchReports: seq<BatchReport>

    constructor (cfg: StreamConfig)
      ensures this.cfg == cfg && maxEventMs == None && batchReports == []
    {
      this.cfg, maxEventMs, batchReports := cfg, None, [];
    }

    static method MergeStats(rows: seq<PartitionStats>) returns (agg: PartitionStats)
      ensures agg == MergedStats(rows)
    {
      agg := EMPTY_AGG;
      for i := 0 to |rows|
        invariant agg == MergedStats(rows[..i])
      {
        assert rows[..i + 1][..i] == rows[..i];
        agg := PlusStats(agg, rows[i]);
      }
      assert rows[..|rows|] == rows;
    }

    /**
     `_process_batch`. When it raises, the mark and the reports are as before,
     though some records may be published and some upserts written.
     */
    method ProcessBatch(batchId: int, rows: seq<KafkaRow>, es: Evaluations)
      returns (published: seq<DlqRecord>, writes: seq<Write>, completed: bool)
      modifies this
      ensures completed == BatchCompletes(old(maxEventMs), cfg, rows, es)
      ensures Upserts(writes) <= BatchUpserts(old(maxEventMs), cfg, rows, es)
      ensures !completed ==> maxEventMs == old(maxEventMs) && batchReports == old(batchReports)
      ensures !completed ==> published == EarlyDlq(old(maxEventMs), cfg, rows)
      ensures completed ==> multiset(published) == multiset(BatchDlq(old(maxEventMs), cfg, rows, es))
      ensures completed ==> Upserts(writes) == BatchUpserts(old(maxEventMs), cfg, rows, es)
      ensures completed ==> maxEventMs == NextMark(old(maxEventMs), cfg, rows)
      ensures completed ==> batchReports == old(batchReports) + [ReportOf(old(maxEventMs), cfg, batchId, rows, es)]
    {
      hide EvalDlq, EvalUpserts, EvalCompletes, EvalResults;
      var mark := maxEventMs;
      if rows == [] {
        EmptyBatch(mark, cfg, batchId, es);
        batchReports := batchReports + [BatchReport(batchId, 0, 0, 0, 0, EMPTY_AGG)];
        return [], [], true;
      }
      published := Quarantine(Bad(rows), PARSE_REASON, StageParse);
      var good := Good(rows);
      var nLate := 0;
      if mark.Some? && cfg.latePolicy != LateProcess {
        var late := LateRows(mark, cfg, good);
        nLate := |late|;
        if nLate > 0 {
          if cfg.latePolicy == LateDlq {
            published := published + Quarantine(late, LATE_REASON, StageLate);
          }
          good := OnTimeRows(mark, cfg, good);
        }
      }
      NotEnforcedNoneLate(mark, cfg, Good(rows));
      assert good == Kept(mark, cfg, rows) && nLate == |LateRows(mark, cfg, Good(rows))|;
      assert published == EarlyDlq(mark, cfg, rows);
      KeptParsed(mark, cfg, rows);
      var sinkDlq, agg;
      sinkDlq, agg, writes, completed := RunSink(mark, rows, good, es);
      if !completed {
        return;
      }
      published := published + sinkDlq.1;
      var highest := MaxTime(good);
      if highest.Some? {
        maxEventMs := Advance(mark, highest);
      }
      batchReports := batchReports + [BatchReport(batchId, |rows|, |Bad(rows)|, nLate, sinkDlq.0, agg)];
    }

    /** The sink's evaluations: the count of DLQ rows, the rows published, the merged statistics. */
    method RunSink(ghost mark: Option<int>, ghost rows: seq<KafkaRow>, good: seq<KafkaRow>, es: Evaluations)
      returns (dlq: (nat, seq<DlqRecord>), agg: PartitionStats, writes: seq<Write>, completed: bool)
      requires good == Kept(mark, cfg, rows) && AllParsed(good)
      ensures completed == BatchCompletes(mark, cfg, rows, es)
      ensures Upserts(writes) <= BatchUpserts(mark, cfg, rows, es)
      ensures completed ==> Upserts(writes) == BatchUpserts(mark, cfg, rows, es)
      ensures completed ==> dlq.0 == |SinkDlq(mark, cfg, rows, es.count)|
      ensures completed ==> agg == MergedStats(SinkResults(mark, cfg, rows, es.stats))
      ensures completed ==>
                multiset(dlq.1) == multiset(if SinkDlq(mark, cfg, rows, es.count) == [] then []
                                            else SinkDlq(mark, cfg, rows, es.publish))
    {
      hide EvalDlq, EvalUpserts, EvalCompletes, EvalResults, Kept, Partitions, MergedStats;
      dlq, agg := (0, []), EMPTY_AGG;
      var _, stats, w1, ok1 := Evaluate(good, cfg.sink, es.stats);
      if !ok1 {
        return dlq, agg, w1, false;
      }
      var counted, _, w2, ok2 := Evaluate(good, cfg.sink, es.count);
      UpsertsAppend(w1, w2);
      if !ok2 {
        return dlq, agg, w1 + w2, false;
      }
      SameLength(counted, SinkDlq(mark, cfg, rows, es.count));
      writes := w1 + w2;
      var published: seq<DlqRecord> := [];
      if |counted| > 0 {
        var records, _, w3, ok3 := Evaluate(good, cfg.sink, es.publish);
        UpsertsAppend(w1 + w2, w3);
        writes := writes + w3;
        if !ok3 {
          return dlq, agg, writes, false;
        }
        published := records;
      }
      agg := MergeStats(stats);
      return (|counted|, published), agg, writes, true;
    }
  }

  lemma {:induction false} NotEnforcedNoneLate(mark: Option<int>, cfg: StreamConfig, rows: seq<KafkaRow>)
    ensures !Enforced(mark, cfg) ==> LateRows(mark, cfg, rows) == []
  {
    if rows != [] {
      NotEnforcedNoneLate(mark, cfg, rows[..|rows| - 1]);
    }
  }

  lemma EmptyBatch(mark: Option<int>, cfg: StreamConfig, batchId: int, es: Evaluations)
    ensures BatchCompletes(mark, cfg, [], es) && BatchDlq(mark, cfg, [], es) == []
    ensures BatchUpserts(mark, cfg, [], es) == {} && NextMark(mark, cfg, []) == mark
    ensures ReportOf(mark, cfg, batchId, [], es) == BatchReport(batchId, 0, 0, 0, 0, EMPTY_AGG)
  {
  }
}
