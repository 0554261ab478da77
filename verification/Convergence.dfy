/**
 Replay convergence: once writes stop failing, one drain, the stream catching
 up, and one more drain bring every acceptable event that either is complete or
 cannot be called late to every configured table. Two drains are needed because
 an event sent back through the topic may have become late in the meantime.
 */
module Convergence {
  import opened Options
  import opened Events
  import opened Dlq
  import opened Seqs
  import opened Retry
  import opened Sink
  import opened SinkTheorems
  import opened Stream
  import opened StreamTheorems
  import opened Replay
  import opened Pipeline

  /**
   What a recovery stores: the stream writes an acceptable event that is not
   late, and the drain writes a late one if it is complete.
   */
  predicate Recoverable(cfg: StreamConfig, m: Message) {
    Accepted(m) && (Complete(m) || cfg.latePolicy == LateProcess)
  }

  ghost predicate Stored(s: State, cfg: StreamConfig, m: Message)
    requires Accepted(m)
  {
    forall t <- cfg.sink.tables :: UpsertOf(t, m) in Upserts(s.written)
  }

  // ------------------------------------------------------------ healthy steps

  /** Every attempt of every statement succeeds. */
  ghost predicate HealthyEvaluation(e: Evaluation) {
    forall p: nat, i: int :: Fast(OutcomesOf(e, p), i).Ok?
  }

  ghost predicate HealthyBatch(a: Action) {
    a.Batch? && HealthyEvaluation(a.es.stats)
  }

  ghost predicate HealthySends(sends: seq<SendOutcome>) {
    forall i: nat :: Nth(sends, i, Delivered).Delivered?
  }

  ghost predicate HealthyWrites(outs: seq<seq<Outcome>>) {
    forall i: nat :: AllOk(Nth(outs, i, []), 3)
  }

  /** A drain of the whole queue in which nothing fails. */
  ghost predicate HealthyDrain(a: Action) {
    && a.DrainQueue? && !a.args.dryRun && a.args.limit == 0 && a.args.maxReplays >= 1
    && HealthySends(a.sends) && HealthyWrites(a.outs)
  }

  /** The stream catching up: no batch has a write failure. Restarts, new events and further drains may come between. */
  ghost predicate CatchingUp(actions: seq<Action>) {
    forall a <- actions :: a.Batch? ==> HealthyBatch(a)
  }

  /** Nothing new arrives. */
  predicate Quiet(actions: seq<Action>) {
    forall a <- actions :: a.Batch? || a.Crash? || a.DrainQueue?
  }

  /** The second drain runs when the stream has consumed at least what the first one left in the topic. */
  ghost predicate Recovery(s: State, cfg: StreamConfig, first: Action, catchUp: seq<Action>, second: Action) {
    && HealthyDrain(first) && HealthyDrain(second) && CatchingUp(catchUp)
    && Runs(Step(s, cfg, first), cfg, catchUp)
    && After(Step(s, cfg, first), cfg, catchUp).committed >= |Step(s, cfg, first).log|
  }

  ghost function Recovered(s: State, cfg: StreamConfig, first: Action, catchUp: seq<Action>, second: Action): State
    requires Recovery(s, cfg, first, catchUp, second)
  {
    Step(After(Step(s, cfg, first), cfg, catchUp), cfg, second)
  }

  // ------------------------------------------------------------ what a healthy drain does

  lemma AcceptedIsParsed(m: Message)
    requires Accepted(m)
    ensures m.Json? && !Unparseable(m) && m.eventTime.Some?
  {
  }

  lemma DrainStoresLate(s: State, cfg: StreamConfig, a: Action, m: Message)
    requires Inv(s, cfg) && HealthyDrain(a) && Accepted(m) && Complete(m) && InDlq(s.dlq, m, StageLate)
    ensures Stored(Step(s, cfg, a), cfg, m)
  {
    hide UpsertOf, Accepted, Complete, Routed, DirectWrites, MarkOf, NothingLost, NothingInvented;
    var d :| d in s.dlq && d.originalPayload == m && d.stage == StageLate;
    var direct := Routed(s.dlq, a.args.maxReplays, Direct);
    RoutedMembers(s.dlq, a.args.maxReplays, Direct, d);
    var i :| 0 <= i < |direct| && direct[i] == d;
    UpsertsAppend(s.written, DrainWrites(s, a));
    forall t | t in cfg.sink.tables ensures UpsertOf(t, m) in Upserts(DrainWrites(s, a)) {
      DirectWritesReach(direct, a.outs, a.now, i, t);
    }
  }

  lemma DrainSendsBack(s: State, cfg: StreamConfig, a: Action, m: Message, stage: Stage)
    requires QueueIsSound(s, cfg) && HealthyDrain(a) && m.Json? && InDlq(s.dlq, m, stage)
    requires stage == StageCassandraSink || stage == StageProducer
    ensures exists i | |s.log| <= i < |Step(s, cfg, a).log| :: Step(s, cfg, a).log[i].message == m
  {
    hide Routed, SentMessages, MarkOf, NothingLost, NothingInvented, DrainWrites;
    var d :| d in s.dlq && d.originalPayload == m && d.stage == stage;
    var recs := Routed(s.dlq, a.args.maxReplays, Reinject);
    RoutedMembers(s.dlq, a.args.maxReplays, Reinject, d);
    var i :| 0 <= i < |recs| && recs[i] == d;
    assert Nth(a.sends, i, Delivered).Delivered?;
    assert recs[i].originalPayload == m && Persisted(recs[i], Nth(a.sends, i, Delivered));
    SentMembers(recs, a.sends, m);
    var sent := SentMessages(recs, a.sends);
    var j :| 0 <= j < |sent| && sent[j] == m;
    assert Step(s, cfg, a).log[|s.log| + j].message == m;
  }

  // ------------------------------------------------------------ what catching up does

  lemma HealthyPartition(rows: seq<Message>, cfg: Config, o: seq<seq<Outcome>>, m: Message, t: Table)
    requires Parsed(rows) && m in rows && Accepted(m) && t in cfg.tables
    requires forall i: int :: Fast(o, i).Ok?
    ensures UpsertOf(t, m) in PartitionUpserts(rows, cfg, o)
  {
    hide UpsertOf, Accepted, JobsOf, SlowReached;
    var jobs := JobsOf(rows, cfg.tables);
    JobsAreUpserts(rows, cfg.tables, Job(m, UpsertOf(t, m)));
    var i :| 0 <= i < |jobs| && jobs[i] == Job(m, UpsertOf(t, m));
    assert Fast(o, i).Ok?;
    assert ReachedTable(o, i, cfg.RetryLoop().Budget());
  }

  lemma {:induction false} HealthyEval(rows: seq<KafkaRow>, n: nat, cfg: Config, e: Evaluation, r: KafkaRow, t: Table)
    requires AllParsed(rows) && HealthyEvaluation(e) && r in rows && r.partition < n
    requires Accepted(r.message) && t in cfg.tables
    ensures UpsertOf(t, r.message) in EvalUpserts(rows, n, cfg, e)
  {
    hide UpsertOf, Accepted, PartitionUpserts;
    PartitionMembers(rows, n - 1);
    if r.partition == n - 1 {
      assert KafkaRow(r.message, n - 1) == r;
      HealthyPartition(PartitionRows(rows, n - 1), cfg, OutcomesOf(e, n - 1), r.message, t);
    } else {
      HealthyEval(rows, n - 1, cfg, e, r, t);
    }
  }

  /** A healthy batch writes an accepted row everywhere unless the row is late, and then it is in the queue. */
  lemma HealthyBatchSettles(s: State, cfg: StreamConfig, a: Action, r: KafkaRow)
    requires Sound(cfg) && Enabled(s, cfg, a) && HealthyBatch(a) && r in Pending(s, a.size) && Accepted(r.message)
    ensures Stored(Step(s, cfg, a), cfg, r.message) || InDlq(Step(s, cfg, a).dlq, r.message, StageLate)
  {
    hide UpsertOf, Accepted, SinkUpserts, SinkDlq, BatchDlq, BatchCompletes, NextMark, Late, HealthyEvaluation;
    hide Deserved, Owned, Unparseable;
    var rows, m := Pending(s, a.size), r.message;
    AcceptedIsParsed(m);
    if Late(s.mark, cfg, m) {
      LateIsQueued(s, cfg, a, r);
    } else {
      UpsertsAppend(s.written, a.writes);
      forall t | t in cfg.sink.tables ensures UpsertOf(t, m) in Upserts(Step(s, cfg, a).written) {
        HealthySink(s.mark, cfg, rows, a.es.stats, r, t);
      }
    }
  }

  lemma HealthySink(mark: Option<int>, cfg: StreamConfig, rows: seq<KafkaRow>, e: Evaluation, r: KafkaRow, t: Table)
    requires HealthyEvaluation(e) && r in rows && Accepted(r.message) && !Late(mark, cfg, r.message)
    requires t in cfg.sink.tables
    ensures UpsertOf(t, r.message) in SinkUpserts(mark, cfg, rows, e)
  {
    hide UpsertOf, Accepted, EvalUpserts, Late, HealthyEvaluation, Unparseable;
    AcceptedIsParsed(r.message);
    KeptMembers(mark, cfg, rows, r);
    KeptParsed(mark, cfg, rows);
    var kept := Kept(mark, cfg, rows);
    hide Kept;
    PartitionMembers(kept, 0);
    HealthyEval(kept, Partitions(kept), cfg.sink, e, r, t);
  }

  lemma LateIsQueued(s: State, cfg: StreamConfig, a: Action, r: KafkaRow)
    requires Sound(cfg) && Enabled(s, cfg, a) && a.Batch? && r in Pending(s, a.size) && Late(s.mark, cfg, r.message)
    ensures InDlq(Step(s, cfg, a).dlq, r.message, StageLate)
  {
    hide SinkDlq, SinkUpserts, SinkCompletes;
    var rows, m := Pending(s, a.size), r.message;
    var late := LateRows(s.mark, cfg, Good(rows));
    SplitMembers(s.mark, cfg, rows, r);
    SplitMembers(s.mark, cfg, Good(rows), r);
    QuarantineHolds(late, LATE_REASON, StageLate, m, StageLate);
    var d :| d in Quarantine(late, LATE_REASON, StageLate) && d.originalPayload == m && d.stage == StageLate;
    assert d in BatchDlq(s.mark, cfg, rows, a.es);
    Included(BatchDlq(s.mark, cfg, rows, a.es), a.published);
    assert d in Step(s, cfg, a).dlq;
  }

  /** An accepted message is in every configured table, or waits in the queue as late. */
  ghost predicate StoredOrLate(s: State, cfg: StreamConfig, m: Message) {
    Accepted(m) ==> Stored(s, cfg, m) || InDlq(s.dlq, m, StageLate)
  }

  lemma StoredOrLateGrows(s: State, t: State, cfg: StreamConfig, m: Message)
    requires Grows(s, t) && StoredOrLate(s, cfg, m)
    ensures StoredOrLate(t, cfg, m)
  {
  }

  ghost predicate CaughtUp(s: State, cfg: StreamConfig, from: nat)
    requires s.committed <= |s.log|
  {
    forall i | from <= i < s.committed :: StoredOrLate(s, cfg, s.log[i].message)
  }

  lemma CatchUpStep(s: State, cfg: StreamConfig, a: Action, from: nat)
    requires Sound(cfg) && s.committed <= |s.log| && CaughtUp(s, cfg, from) && Enabled(s, cfg, a)
    requires a.Batch? ==> HealthyBatch(a)
    ensures Step(s, cfg, a).committed <= |Step(s, cfg, a).log| && s.log <= Step(s, cfg, a).log
    ensures CaughtUp(Step(s, cfg, a), cfg, from)
  {
    hide StoredOrLate, BatchDlq, BatchUpserts, BatchCompletes, NextMark, Deserved, Owned, HealthyEvaluation;
    var t := Step(s, cfg, a);
    StepCommits(s, cfg, a);
    StepGrows(s, cfg, a);
    forall i | from <= i < t.committed ensures StoredOrLate(t, cfg, t.log[i].message) {
      assert t.log[i] == s.log[i];
      if i < s.committed {
        StoredOrLateGrows(s, t, cfg, s.log[i].message);
      } else {
        var r := Pending(s, a.size)[i - s.committed];
        assert r == s.log[i] && r in Pending(s, a.size);
        BatchStoresOrQueues(s, cfg, a, r);
      }
    }
  }

  lemma BatchStoresOrQueues(s: State, cfg: StreamConfig, a: Action, r: KafkaRow)
    requires Sound(cfg) && Enabled(s, cfg, a) && HealthyBatch(a) && r in Pending(s, a.size)
    ensures StoredOrLate(Step(s, cfg, a), cfg, r.message)
  {
    hide BatchDlq, BatchUpserts, BatchCompletes, NextMark, HealthyEvaluation, Accepted;
    if Accepted(r.message) {
      HealthyBatchSettles(s, cfg, a, r);
    }
  }

  lemma {:induction false} CatchUp(s: State, cfg: StreamConfig, actions: seq<Action>, from: nat)
    requires Sound(cfg) && s.committed <= |s.log| && CaughtUp(s, cfg, from)
    requires Runs(s, cfg, actions) && CatchingUp(actions)
    ensures var t := After(s, cfg, actions); s.log <= t.log && t.committed <= |t.log| && CaughtUp(t, cfg, from)
    decreases |actions|
  {
    hide CaughtUp, Step, BatchDlq, BatchUpserts, BatchCompletes, NextMark, Deserved, Owned, HealthyEvaluation;
    if actions != [] {
      var a := actions[0];
      assert a in actions;
      CatchUpStep(s, cfg, a, from);
      CatchUp(Step(s, cfg, a), cfg, actions[1..], from);
    }
  }

  // ------------------------------------------------------------ convergence

  /** After the first drain, a valid event is stored, waits as late, or waits in the topic. */
  lemma FirstDrain(s: State, cfg: StreamConfig, drain: Action, m: Message)
    requires Sound(cfg) && Inv(s, cfg) && HealthyDrain(drain) && Accepted(m) && Known(s, m)
    ensures var t := Step(s, cfg, drain);
            || Stored(t, cfg, m) || InDlq(t.dlq, m, StageLate)
            || exists i | t.committed <= i < |t.log| :: t.log[i].message == m
  {
    hide UpsertOf, Accepted, Unparseable, HealthySends, HealthyWrites, DrainSends, DrainWrites, MarkOf, NothingInvented;
    AcceptedIsParsed(m);
    var t := Step(s, cfg, drain);
    StepGrows(s, cfg, drain);
    if i :| 0 <= i < |s.log| && s.log[i].message == m {
      if i >= s.committed {
        assert t.log[i].message == m;
      } else {
        assert Settled(s, cfg, m);
        SettledConverges(s, cfg, drain, m);
      }
    } else {
      var d :| d in s.dlq && d.originalPayload == m;
      QueuedConverges(s, cfg, drain, d);
    }
  }

  lemma QueuedConverges(s: State, cfg: StreamConfig, drain: Action, d: DlqRecord)
    requires Sound(cfg) && Inv(s, cfg) && HealthyDrain(drain) && Accepted(d.originalPayload) && d in s.dlq
    ensures var t, m := Step(s, cfg, drain), d.originalPayload;
            InDlq(t.dlq, m, StageLate) || exists i | t.committed <= i < |t.log| :: t.log[i].message == m
  {
    hide Complete, MarkOf, NothingLost, NothingInvented, HealthySends, HealthyWrites, DrainSends, DrainWrites;
    assert InDlq(s.dlq, d.originalPayload, d.stage);
    match d.stage
    case StageLate =>
    case StageParse =>
    case StageCassandraSink => DrainSendsBack(s, cfg, drain, d.originalPayload, d.stage);
    case StageProducer => DrainSendsBack(s, cfg, drain, d.originalPayload, d.stage);
  }

  lemma SettledConverges(s: State, cfg: StreamConfig, drain: Action, m: Message)
    requires Sound(cfg) && Inv(s, cfg) && HealthyDrain(drain) && Accepted(m) && !Unparseable(m) && Settled(s, cfg, m)
    ensures var t := Step(s, cfg, drain);
            || Stored(t, cfg, m) || InDlq(t.dlq, m, StageLate)
            || exists i | t.committed <= i < |t.log| :: t.log[i].message == m
  {
    hide Complete, UpsertOf, MarkOf, NothingLost, NothingInvented, HealthySends, HealthyWrites, DrainSends, DrainWrites;
    var t := Step(s, cfg, drain);
    StepGrows(s, cfg, drain);
    if InDlq(s.dlq, m, StageLate) {
      InDlqGrows(s.dlq, t.dlq, m, StageLate);
    } else if InDlq(s.dlq, m, StageCassandraSink) {
      DrainSendsBack(s, cfg, drain, m, StageCassandraSink);
    } else {
      assert Stored(s, cfg, m);
    }
  }

  /**
   From any state that keeps the invariant: drain, let the stream catch up
   through any number of batches, restarts, drains and new events, drain again.
   Every recoverable event the pipeline had been given, consumed, pending or
   quarantined, is then in every configured table.
   */
  lemma ReplayConvergence(s: State, cfg: StreamConfig, first: Action, catchUp: seq<Action>, second: Action, m: Message)
    requires Sound(cfg) && Inv(s, cfg) && Recovery(s, cfg, first, catchUp, second)
    requires Known(s, m) && Recoverable(cfg, m)
    ensures Stored(Recovered(s, cfg, first, catchUp, second), cfg, m)
  {
    hide Step, Known, StoredOrLate, Inv, Accepted, Complete, HealthySends, HealthyWrites;
    hide CatchingUp, Runs, After, Stored, InDlq;
    var s1 := Step(s, cfg, first);
    FirstDrain(s, cfg, first, m);
    StepKeepsInv(s, cfg, first);
    CatchUpSettles(s1, cfg, catchUp, m);
    SecondDrain(After(s1, cfg, catchUp), cfg, second, m);
  }

  lemma CatchUpSettles(s: State, cfg: StreamConfig, actions: seq<Action>, m: Message)
    requires Sound(cfg) && Inv(s, cfg) && Runs(s, cfg, actions) && CatchingUp(actions) && Accepted(m)
    requires After(s, cfg, actions).committed >= |s.log|
    requires Stored(s, cfg, m) || InDlq(s.dlq, m, StageLate)
             || exists i | s.committed <= i < |s.log| :: s.log[i].message == m
    ensures Inv(After(s, cfg, actions), cfg) && StoredOrLate(After(s, cfg, actions), cfg, m)
  {
    hide Step, Accepted, CatchingUp, Runs, After, Stored, InDlq, StoredOrLate, MarkOf, NothingLost, NothingInvented;
    ZeroSilentLoss(s, cfg, actions);
    RunGrows(s, cfg, actions);
    assert CaughtUp(s, cfg, s.committed);
    CatchUp(s, cfg, actions, s.committed);
    PendingOrSettled(s, After(s, cfg, actions), cfg, m);
  }

  lemma PendingOrSettled(s1: State, s2: State, cfg: StreamConfig, m: Message)
    requires Grows(s1, s2) && Accepted(m) && |s1.log| <= s2.committed <= |s2.log|
    requires s1.committed <= |s1.log| && CaughtUp(s2, cfg, s1.committed)
    requires Stored(s1, cfg, m) || InDlq(s1.dlq, m, StageLate) ||
             exists i | s1.committed <= i < |s1.log| :: s1.log[i].message == m
    ensures StoredOrLate(s2, cfg, m)
  {
    hide Accepted, UpsertOf;
    if i :| s1.committed <= i < |s1.log| && s1.log[i].message == m {
      assert s2.log[i] == s1.log[i];
      assert StoredOrLate(s2, cfg, s2.log[i].message);
    } else {
      StoredOrLateGrows(s1, s2, cfg, m);
    }
  }

  lemma SecondDrain(s: State, cfg: StreamConfig, drain: Action, m: Message)
    requires Sound(cfg) && Inv(s, cfg) && HealthyDrain(drain) && Recoverable(cfg, m) && StoredOrLate(s, cfg, m)
    ensures Stored(Step(s, cfg, drain), cfg, m)
  {
    hide MarkOf, NothingLost, NothingInvented, HealthySends, HealthyWrites, Complete, Accepted, DrainSends, DrainWrites;
    if Stored(s, cfg, m) {
      StepGrows(s, cfg, drain);
    } else {
      assert InDlq(s.dlq, m, StageLate);
      assert cfg.latePolicy == LateDlq;
      DrainStoresLate(s, cfg, drain, m);
    }
  }

  /** Catching up and draining give the pipeline no new event. */
  lemma NothingNewIsKnown(s: State, cfg: StreamConfig, a: Action, m: Message)
    requires Enabled(s, cfg, a) && (a.Batch? || a.Crash? || a.DrainQueue?) && Known(Step(s, cfg, a), m)
    ensures Known(s, m)
  {
    hide BatchDlq, BatchUpserts, BatchCompletes, NextMark, Owned, DrainWrites;
    match a
    case Batch(size, es, published, _) =>
      if d :| d in published && d.originalPayload == m {
        DeservedIsKnown(s, cfg, size, d);
      }
    case Crash(size, published, _) =>
      if d :| d in published && d.originalPayload == m {
        DeservedIsKnown(s, cfg, size, d);
      }
    case DrainQueue(_, _, _, _, _) =>
      if i :| |s.log| <= i < |Step(s, cfg, a).log| && Step(s, cfg, a).log[i].message == m {
        assert DrainSends(s, a)[i - |s.log|] == m;
        SentIsKnown(s, a, m);
      }
  }

  lemma DeservedIsKnown(s: State, cfg: StreamConfig, size: nat, d: DlqRecord)
    requires s.committed + size <= |s.log| && Deserved(s.mark, cfg, Pending(s, size), d)
    ensures Known(s, d.originalPayload)
  {
  }

  lemma SentIsKnown(s: State, a: Action, m: Message)
    requires a.DrainQueue? && m in DrainSends(s, a)
    ensures exists d <- s.dlq :: d.originalPayload == m && (d.stage == StageCassandraSink || d.stage == StageProducer)
  {
    hide Routed, SentMessages;
    var recs := Routed(ReadAll(s.dlq, a.args.limit), a.args.maxReplays, Reinject);
    SentMembers(recs, a.sends, m);
    var i :| 0 <= i < |recs| && recs[i].originalPayload == m && Persisted(recs[i], Nth(a.sends, i, Delivered));
    RoutedMembers(ReadAll(s.dlq, a.args.limit), a.args.maxReplays, Reinject, recs[i]);
    assert recs[i] in s.dlq;
  }

  lemma {:induction false} QuietLearnsNothing(s: State, cfg: StreamConfig, actions: seq<Action>, m: Message)
    requires Runs(s, cfg, actions) && Quiet(actions) && Known(After(s, cfg, actions), m)
    ensures Known(s, m)
    decreases |actions|
  {
    hide Step, BatchDlq, BatchUpserts, BatchCompletes, Deserved, Owned, HealthyEvaluation, Known;
    if actions != [] {
      assert actions[0] in actions;
      QuietLearnsNothing(Step(s, cfg, actions[0]), cfg, actions[1..], m);
      NothingNewIsKnown(s, cfg, actions[0], m);
    }
  }

  /**
   Effectively once, end to end: if a trip id determines the event and every
   event is recoverable, the tables after a quiet recovery are, apart from
   ingestion times, exactly the events the pipeline was given. Crashes,
   duplicates, retries and replays on the way have left no trace.
   */
  lemma TablesAreTheEvents(s: State, cfg: StreamConfig, first: Action, catchUp: seq<Action>, second: Action,
                           events: set<Message>)
    requires Sound(cfg) && Inv(s, cfg) && Recovery(s, cfg, first, catchUp, second) && Quiet(catchUp)
    requires cfg.sink.tables == AllTables()
    requires forall m :: Known(s, m) && Accepted(m) <==> m in events
    requires TripDeterminesEvent(events) && forall m <- events :: Recoverable(cfg, m)
    ensures var end := Recovered(s, cfg, first, catchUp, second);
            && Upserts(end.written) == UpsertsOfEvents(events, AllTables())
            && Holds(Cores(Apply(map[], end.written)), UpsertsOfEvents(events, AllTables()))
  {
    hide Accepted, Complete, Recovery, Recovered, UpsertOf, Known, TripDeterminesEvent, Inv;
    var end := Recovered(s, cfg, first, catchUp, second);
    var us := UpsertsOfEvents(events, AllTables());
    EndIsSound(s, cfg, first, catchUp, second);
    forall u | u in Upserts(end.written) ensures u in us {
      var m, t :| Known(end, m) && Accepted(m) && u == UpsertOf(t, m);
      EndKnowsNoMore(s, cfg, first, catchUp, second, m);
      TableListed(t);
    }
    forall u | u in us ensures u in Upserts(end.written) {
      var m, t :| m in events && Accepted(m) && t in AllTables() && u == UpsertOf(t, m);
      ReplayConvergence(s, cfg, first, catchUp, second, m);
    }
    EventsAreConsistent(events, AllTables());
    TablesAreTheSetOfUpserts(end.written);
  }

  lemma EndIsSound(s: State, cfg: StreamConfig, first: Action, catchUp: seq<Action>, second: Action)
    requires Sound(cfg) && Inv(s, cfg) && Recovery(s, cfg, first, catchUp, second)
    ensures NothingInvented(Recovered(s, cfg, first, catchUp, second))
  {
    hide Step, HealthySends, HealthyWrites, CatchingUp, Runs, After;
    hide NothingInvented, NothingLost, MarkOf, QueueIsSound;
    StepKeepsInv(s, cfg, first);
    ZeroSilentLoss(Step(s, cfg, first), cfg, catchUp);
    StepKeepsInv(After(Step(s, cfg, first), cfg, catchUp), cfg, second);
  }

  lemma EndKnowsNoMore(s: State, cfg: StreamConfig, first: Action, catchUp: seq<Action>, second: Action, m: Message)
    requires Recovery(s, cfg, first, catchUp, second) && Quiet(catchUp)
    requires Known(Recovered(s, cfg, first, catchUp, second), m)
    ensures Known(s, m)
  {
    hide Step, HealthySends, HealthyWrites, Runs, After, Known, CatchingUp, Quiet;
    NothingNewIsKnown(After(Step(s, cfg, first), cfg, catchUp), cfg, second, m);
    QuietLearnsNothing(Step(s, cfg, first), cfg, catchUp, m);
    NothingNewIsKnown(s, cfg, first, m);
  }

  // ------------------------------------------------------------ nothing stops a record from cycling

  /** How often the topic holds a message. */
  function Copies(log: seq<KafkaRow>, m: Message): nat {
    if log == [] then 0
    else Copies(log[..|log| - 1], m) + if log[|log| - 1].message == m then 1 else 0
  }

  lemma {:induction false} CopiesAppend(a: seq<KafkaRow>, b: seq<KafkaRow>, m: Message)
    ensures Copies(a + b, m) == Copies(a, m) + Copies(b, m)
  {
    if b == [] {
      assert a + b == a;
    } else {
      assert (a + b)[..|a + b| - 1] == a + b[..|b| - 1];
      CopiesAppend(a, b[..|b| - 1], m);
    }
  }

  lemma {:induction false} CopiesFound(log: seq<KafkaRow>, i: nat)
    requires i < |log|
    ensures Copies(log, log[i].message) >= 1
  {
    if i < |log| - 1 { CopiesFound(log[..|log| - 1], i); }
  }

  ghost function HealthyDrains(actions: seq<Action>): nat {
    if actions == [] then 0 else (if HealthyDrain(actions[0]) then 1 else 0) + HealthyDrains(actions[1..])
  }

  lemma StepSendsAgain(s: State, cfg: StreamConfig, a: Action, m: Message, stage: Stage)
    requires QueueIsSound(s, cfg) && Enabled(s, cfg, a) && m.Json? && InDlq(s.dlq, m, stage)
    requires stage == StageCassandraSink || stage == StageProducer
    ensures Copies(Step(s, cfg, a).log, m) >= Copies(s.log, m) + if HealthyDrain(a) then 1 else 0
    ensures QueueIsSound(Step(s, cfg, a), cfg) && InDlq(Step(s, cfg, a).dlq, m, stage)
  {
    hide Step, QueueIsSound, HealthyDrain, BatchDlq, BatchUpserts, BatchCompletes, Deserved, Owned;
    var t := Step(s, cfg, a);
    StepGrows(s, cfg, a);
    StepKeepsQueueSound(s, cfg, a);
    InDlqGrows(s.dlq, t.dlq, m, stage);
    var more := t.log[|s.log|..];
    assert t.log == s.log + more;
    CopiesAppend(s.log, more, m);
    if HealthyDrain(a) {
      DrainSendsBack(s, cfg, a, m, stage);
      var i :| |s.log| <= i < |t.log| && t.log[i].message == m;
      CopiesFound(more, i - |s.log|);
    }
  }

  /**
   No ceiling ends it: what the sink or the producer quarantined once is sent
   through the topic again by every healthy drain of every run, also when it has
   long been written.
   */
  lemma {:induction false} CyclesForever(s: State, cfg: StreamConfig, actions: seq<Action>, m: Message, stage: Stage)
    requires QueueIsSound(s, cfg) && Runs(s, cfg, actions) && m.Json? && InDlq(s.dlq, m, stage)
    requires stage == StageCassandraSink || stage == StageProducer
    ensures Copies(After(s, cfg, actions).log, m) >= Copies(s.log, m) + HealthyDrains(actions)
    decreases |actions|
  {
    hide Step, QueueIsSound, HealthyDrain, InDlq, Copies, BatchDlq, BatchUpserts, BatchCompletes, Deserved, Owned;
    if actions != [] {
      StepSendsAgain(s, cfg, actions[0], m, stage);
      CyclesForever(Step(s, cfg, actions[0]), cfg, actions[1..], m, stage);
    }
  }
}
