/**
 When a recovery does not store an acceptable event: exactly when the policy can
 call it late and drops it then, or quarantines it and the event is incomplete.
 Such an event can be stranded, and then nothing that happens to the pipeline
 stores it.
 */
module Stranding {
  import opened Options
  import opened Events
  import opened Dlq
  import opened Seqs
  import opened Retry
  import opened Sink
  import opened Stream
  import opened StreamTheorems
  import opened Replay
  import opened Pipeline
  import opened Convergence

  /**
   An event not pending, none of whose upserts is stored, and which the queue
   holds, if at all, as late and incomplete: the stream would have written it with
   nulls, but the direct write raises on it.
   */
  ghost predicate Stranded(s: State, m: Message) {
    && Accepted(m)
    && s.committed <= |s.log|
    && (forall i | s.committed <= i < |s.log| :: s.log[i].message != m)
    && (forall d <- s.dlq :: d.originalPayload == m ==> d.stage == StageLate && !Complete(m))
    && (forall t :: UpsertOf(t, m) !in Upserts(s.written))
  }

  /** No two known events share a trip. */
  ghost predicate TripsAreEvents(s: State) {
    forall m, n :: Known(s, m) && Known(s, n) && Accepted(m) && Accepted(n) && m.tripId == n.tripId ==> m == n
  }

  lemma SameUpsertSameTrip(m: Message, n: Message, t: Table, t': Table)
    requires Accepted(m) && Accepted(n) && UpsertOf(t, m) == UpsertOf(t', n)
    ensures m.tripId == n.tripId
  {
  }

  lemma NotAddedToStore(s: State, cfg: StreamConfig, a: Action, m: Message, t: Table)
    requires Stranded(s, m) && Known(s, m) && TripsAreEvents(s) && Enabled(s, cfg, a)
    ensures UpsertOf(t, m) !in Upserts(Added(s, a))
  {
    hide UpsertOf, Accepted, Complete, BatchUpserts, BatchDlq, BatchCompletes, DrainWrites, Deserved, Known, Late;
    var u := UpsertOf(t, m);
    if u in Upserts(Added(s, a)) {
      match a
      case Batch(size, _, _, _) => OwnedByOther(s, cfg, size, m, t);
      case Crash(size, _, _) => OwnedByOther(s, cfg, size, m, t);
      case DrainQueue(_, _, _, _, _) =>
        var d, t' := DrainWritesARecord(s, a, u);
        SameUpsertSameTrip(m, d.originalPayload, t, t');
      case _ =>
    }
  }

  lemma PendingIsOther(s: State, size: nat, m: Message, r: KafkaRow)
    requires Stranded(s, m) && s.committed + size <= |s.log| && r in Pending(s, size)
    ensures Known(s, r.message) && r.message != m
  {
  }

  lemma OwnedByOther(s: State, cfg: StreamConfig, size: nat, m: Message, t: Table)
    requires Stranded(s, m) && Known(s, m) && TripsAreEvents(s) && s.committed + size <= |s.log|
    ensures !Owned(s.mark, cfg, Pending(s, size), UpsertOf(t, m))
  {
  }

  /** No batch, crash or drain, healthy or not, stores a stranded event. */
  lemma StrandedStep(s: State, cfg: StreamConfig, a: Action, m: Message)
    requires Stranded(s, m) && Known(s, m) && TripsAreEvents(s) && Enabled(s, cfg, a)
    requires a.Batch? || a.Crash? || a.DrainQueue?
    ensures Stranded(Step(s, cfg, a), m)
  {
    hide UpsertOf, Accepted, Complete, BatchUpserts, BatchDlq, BatchCompletes, DrainWrites, DrainSends, Deserved, Known;
    hide Owned, NextMark, TripsAreEvents;
    var t := Step(s, cfg, a);
    UpsertsAppend(s.written, Added(s, a));
    assert t.written == s.written + Added(s, a);
    forall tb ensures UpsertOf(tb, m) !in Upserts(t.written) {
      NotAddedToStore(s, cfg, a, m, tb);
    }
    forall d | d in t.dlq && d.originalPayload == m ensures d.stage == StageLate && !Complete(m) {
      if d !in s.dlq {
        NotQueuedAgain(s, cfg, a, m, d);
      }
    }
    forall i | t.committed <= i < |t.log| ensures t.log[i].message != m {
      if i >= |s.log| && t.log[i].message == m {
        assert DrainSends(s, a)[i - |s.log|] == m;
        SentIsKnown(s, a, m);
      }
    }
  }

  lemma NotQueuedAgain(s: State, cfg: StreamConfig, a: Action, m: Message, d: DlqRecord)
    requires Stranded(s, m) && Enabled(s, cfg, a) && (a.Batch? || a.Crash?)
    requires match a
             case Batch(_, _, published, _) => d in published
             case Crash(_, published, _) => d in published
             case _ => true
    ensures d.originalPayload != m
  {
    hide UpsertOf, Accepted, Complete, BatchUpserts, BatchDlq, BatchCompletes;
    var size := a.size;
    var r :| r in Pending(s, size) && r.message == d.originalPayload;
    PendingIsOther(s, size, m, r);
  }

  /**
   Nor does any run of them: a stranded event stays known, stays stranded, and is
   in none of the tables at the end.
   */
  lemma {:induction false} StrandedForever(s: State, cfg: StreamConfig, actions: seq<Action>, m: Message)
    requires Stranded(s, m) && Known(s, m) && TripsAreEvents(s) && Runs(s, cfg, actions) && Quiet(actions)
    ensures var t := After(s, cfg, actions); Stranded(t, m) && Known(t, m) && TripsAreEvents(t)
    decreases |actions|
  {
    hide Step, BatchDlq, BatchUpserts, BatchCompletes, NextMark, Deserved, Owned, Stranded, Known, TripsAreEvents;
    if actions != [] {
      var a := actions[0];
      assert a in actions;
      StrandedStep(s, cfg, a, m);
      StepGrows(s, cfg, a);
      StillTripsAreEvents(s, cfg, a);
      StrandedForever(Step(s, cfg, a), cfg, actions[1..], m);
    }
  }

  lemma StillTripsAreEvents(s: State, cfg: StreamConfig, a: Action)
    requires TripsAreEvents(s) && Enabled(s, cfg, a) && (a.Batch? || a.Crash? || a.DrainQueue?)
    ensures TripsAreEvents(Step(s, cfg, a))
  {
    hide Step, BatchDlq, BatchUpserts, BatchCompletes, NextMark, Deserved, Owned, Known;
    var t := Step(s, cfg, a);
    forall m, n | Known(t, m) && Known(t, n) && Accepted(m) && Accepted(n) && m.tripId == n.tripId ensures m == n {
      NothingNewIsKnown(s, cfg, a, m);
      NothingNewIsKnown(s, cfg, a, n);
    }
  }

  // ------------------------------------------------------------ and it is needed: such states are reached

  const NO_FAILURES := Evaluation([], [], [])

  lemma SomeWrites(us: set<Upsert>) returns (ws: seq<Write>)
    ensures Upserts(ws) == us
  {
    ws := [];
    var rest := us;
    while rest != {}
      invariant Upserts(ws) + rest == us
    {
      var u :| u in rest;
      UpsertsSnoc(ws, Write(u, 0));
      ws, rest := ws + [Write(u, 0)], rest - {u};
    }
  }

  lemma HealthyCompletes(rows: seq<Message>, cfg: Config, o: seq<seq<Outcome>>)
    requires Parsed(rows) && forall i: int :: Fast(o, i).Ok?
    ensures Completes(rows, cfg, o)
  {
    hide JobsOf, FateOf;
    NoneFails(o, |JobsOf(rows, cfg.tables)|);
  }

  lemma {:induction false} NoneFails(o: seq<seq<Outcome>>, n: nat)
    requires forall i: int :: Fast(o, i).Ok?
    ensures Failures(o, 0, n) == []
  {
    hide Fast;
    if n > 0 { NoneFails(o, n - 1); }
  }

  lemma {:induction false} NoFailuresComplete(rows: seq<KafkaRow>, n: nat, cfg: Config)
    requires AllParsed(rows)
    ensures EvalCompletes(rows, n, cfg, NO_FAILURES)
  {
    hide Completes, AllParsed;
    if n > 0 {
      NoFailuresComplete(rows, n - 1, cfg);
      PartitionMembers(rows, n - 1);
      HealthyCompletes(PartitionRows(rows, n - 1), cfg, OutcomesOf(NO_FAILURES, n - 1));
    }
  }

  lemma QuietCompletes(mark: Option<int>, cfg: StreamConfig, rows: seq<KafkaRow>)
    ensures BatchCompletes(mark, cfg, rows, Evaluations(NO_FAILURES, NO_FAILURES, NO_FAILURES))
  {
    hide Kept, EvalCompletes, LateRows, Good;
    KeptParsed(mark, cfg, rows);
    var kept := Kept(mark, cfg, rows);
    NoFailuresComplete(kept, Partitions(kept), cfg.sink);
  }

  /** A batch in which nothing fails can always happen. */
  lemma QuietBatch(s: State, cfg: StreamConfig, size: nat) returns (a: Action)
    requires s.committed + size <= |s.log|
    ensures HealthyBatch(a) && a.size == size && Enabled(s, cfg, a)
  {
    hide BatchDlq, BatchUpserts, BatchCompletes, Deserved, Owned;
    var es := Evaluations(NO_FAILURES, NO_FAILURES, NO_FAILURES);
    var rows := Pending(s, size);
    QuietCompletes(s.mark, cfg, rows);
    var writes := SomeWrites(BatchUpserts(s.mark, cfg, rows, es));
    a := Batch(size, es, BatchDlq(s.mark, cfg, rows, es), writes);
    forall d | d in a.published ensures Deserved(s.mark, cfg, rows, d) {
      BatchDlqOnly(s.mark, cfg, rows, es, d);
    }
    forall u | u in Upserts(writes) ensures Owned(s.mark, cfg, rows, u) {
      BatchUpsertsOnly(s.mark, cfg, rows, es, u);
    }
    assert HealthyEvaluation(NO_FAILURES);
  }

  /** The one event is late once the other has been streamed. */
  ghost predicate Leads(cfg: StreamConfig, a: Message, m: Message) {
    && Accepted(a) && Accepted(m) && a.tripId != m.tripId
    && a.eventTime.value >= 0 && m.eventTime.value < a.eventTime.value - cfg.allowedLatenessSec * 1000
  }

  /** The policy can call a row late, and then drops it or quarantines a row that is incomplete. */
  predicate CanStrand(cfg: StreamConfig, m: Message) {
    cfg.latePolicy == LateDrop || (cfg.latePolicy == LateDlq && !Complete(m))
  }

  /**
   Every acceptable event that the policy can strand is stranded by a run of four
   healthy steps: produce an event later than it by more than the lateness, stream
   it, produce this one, stream it.
   */
  lemma StrandedIsReachable(cfg: StreamConfig, a: Message, m: Message) returns (actions: seq<Action>)
    requires cfg.allowedLatenessSec >= 0 && CanStrand(cfg, m) && Leads(cfg, a, m)
    ensures |actions| == 4 && Runs(INITIAL, cfg, actions)
    ensures var s := After(INITIAL, cfg, actions);
      && Stranded(s, m) && Known(s, m) && TripsAreEvents(s) && s.committed == |s.log|
      && (cfg.latePolicy == LateDlq ==> InDlq(s.dlq, m, StageLate))
  {
    hide Accepted, Complete, UpsertOf, BatchDlq, BatchUpserts, BatchCompletes, NextMark, Stranded, Leads, Pending;
    hide Known, TripsAreEvents, HealthyBatch;
    var rowA, rowM := KafkaRow(a, 0), KafkaRow(m, 0);
    var s1 := Step(INITIAL, cfg, Produce(rowA));
    var first := QuietBatch(s1, cfg, 1);
    var s2 := Step(s1, cfg, first);
    var s3 := Step(s2, cfg, Produce(rowM));
    var second := QuietBatch(s3, cfg, 1);
    var s4 := Step(s3, cfg, second);
    actions := [Produce(rowA), first, Produce(rowM), second];
    RunOfFour(cfg, actions, s1, s2, s3, s4);
    BatchesAreBatches(first);
    BatchesAreBatches(second);
    FirstMark(cfg, rowA, m, s1, first);
    SecondStrands(cfg, a, m, s1, first, s3, second);
    OnlyTwoAreKnown(cfg, a, m, s1, first, s3, second);
  }

  lemma BatchesAreBatches(a: Action)
    requires HealthyBatch(a)
    ensures a.Batch?
  {
  }

  lemma RunOfFour(cfg: StreamConfig, actions: seq<Action>, s1: State, s2: State, s3: State, s4: State)
    requires |actions| == 4 && Enabled(INITIAL, cfg, actions[0]) && s1 == Step(INITIAL, cfg, actions[0])
    requires Enabled(s1, cfg, actions[1]) && s2 == Step(s1, cfg, actions[1])
    requires Enabled(s2, cfg, actions[2]) && s3 == Step(s2, cfg, actions[2])
    requires Enabled(s3, cfg, actions[3]) && s4 == Step(s3, cfg, actions[3])
    ensures Runs(INITIAL, cfg, actions) && After(INITIAL, cfg, actions) == s4
  {
    hide Step, BatchDlq, BatchUpserts, BatchCompletes, NextMark, Owned, Deserved;
    assert actions[1..][0] == actions[1] && actions[1..][1..] == actions[2..];
    assert actions[2..][0] == actions[2] && actions[2..][1..] == actions[3..];
    assert actions[3..][0] == actions[3] && actions[3..][1..] == [];
    assert Runs(s3, cfg, actions[3..]) && After(s3, cfg, actions[3..]) == s4;
    assert Runs(s2, cfg, actions[2..]) && After(s2, cfg, actions[2..]) == s4;
    assert Runs(s1, cfg, actions[1..]) && After(s1, cfg, actions[1..]) == s4;
  }

  /** The leading event sets the mark, and the other is late against it. */
  lemma FirstMark(cfg: StreamConfig, rowA: KafkaRow, m: Message, s1: State, first: Action)
    requires cfg.latePolicy != LateProcess && Leads(cfg, rowA.message, m) && s1 == Step(INITIAL, cfg, Produce(rowA))
    requires first.Batch? && first.size == 1 && Enabled(s1, cfg, first)
    ensures Late(Step(s1, cfg, first).mark, cfg, m)
  {
    hide Leads, Late, NextMark, BatchDlq, BatchUpserts, BatchCompletes, Owned, Deserved;
    assert Pending(s1, 1) == [rowA];
    LateAgainstLeader(cfg, rowA, m);
  }

  lemma LateAgainstLeader(cfg: StreamConfig, r: KafkaRow, m: Message)
    requires cfg.latePolicy != LateProcess && Leads(cfg, r.message, m)
    ensures Late(NextMark(None, cfg, [r]), cfg, m)
  {
    AcceptedIsParsed(r.message);
    AcceptedIsParsed(m);
    hide Accepted, Kept, MaxTime;
    NoneLateYet(cfg, r);
    TimeOfOne(r);
  }

  lemma TimeOfOne(r: KafkaRow)
    requires r.message.Json?
    ensures MaxTime([r]) == r.message.eventTime
  {
    assert [r][..0] == [];
  }

  lemma NoneLateYet(cfg: StreamConfig, r: KafkaRow)
    requires !Unparseable(r.message)
    ensures Kept(None, cfg, [r]) == [r]
  {
    assert [r][..0] == [];
    assert Good([r]) == [r];
    NotEnforcedNoneLate(None, cfg, [r]);
  }

  /** A batch that holds one row of another trip writes nothing of this event, and no batch does once it is late. */
  lemma WritesNothingOf(s: State, cfg: StreamConfig, a: Action, r: KafkaRow, m: Message, t: Table)
    requires a.Batch? && Enabled(s, cfg, a) && Pending(s, a.size) == [r] && Accepted(m)
    requires (Accepted(r.message) && r.message.tripId != m.tripId) || (r.message == m && Late(s.mark, cfg, m))
    ensures UpsertOf(t, m) !in Upserts(a.writes)
  {
    hide UpsertOf, Accepted, Late, BatchDlq, BatchUpserts, BatchCompletes, Deserved;
    if UpsertOf(t, m) in Upserts(a.writes) {
      assert Owned(s.mark, cfg, [r], UpsertOf(t, m));
      var t' :| UpsertOf(t, m) == UpsertOf(t', r.message);
      SameUpsertSameTrip(m, r.message, t, t');
    }
  }

  /** What such a batch publishes of this event says that it is late. */
  lemma PublishedAsLate(s: State, cfg: StreamConfig, a: Action, r: KafkaRow, m: Message, d: DlqRecord)
    requires a.Batch? && Enabled(s, cfg, a) && Pending(s, a.size) == [r] && Accepted(m)
    requires r.message == m ==> Late(s.mark, cfg, m)
    requires d in a.published && d.originalPayload == m
    ensures d.stage == StageLate && cfg.latePolicy == LateDlq
  {
    hide Accepted, Complete, UpsertOf, Late, Unparseable, BatchDlq, BatchUpserts, BatchCompletes, Owned;
    AcceptedIsParsed(m);
    assert Deserved(s.mark, cfg, [r], d);
  }

  lemma SecondStrands(cfg: StreamConfig, a: Message, m: Message, s1: State, first: Action, s3: State, second: Action)
    requires cfg.allowedLatenessSec >= 0 && CanStrand(cfg, m) && Leads(cfg, a, m)
    requires s1 == Step(INITIAL, cfg, Produce(KafkaRow(a, 0)))
    requires first.Batch? && first.size == 1 && Enabled(s1, cfg, first) && Late(Step(s1, cfg, first).mark, cfg, m)
    requires s3 == Step(Step(s1, cfg, first), cfg, Produce(KafkaRow(m, 0)))
    requires second.Batch? && second.size == 1 && Enabled(s3, cfg, second)
    ensures Stranded(Step(s3, cfg, second), m)
    ensures cfg.latePolicy == LateDlq ==> InDlq(Step(s3, cfg, second).dlq, m, StageLate)
  {
    hide Accepted, Complete, UpsertOf, BatchDlq, BatchUpserts, BatchCompletes, NextMark, Late, Unparseable;
    hide Owned, Deserved, Upserts;
    var s4, rowA, rowM := Step(s3, cfg, second), KafkaRow(a, 0), KafkaRow(m, 0);
    assert Pending(s1, 1) == [rowA] && Pending(s3, 1) == [rowM];
    assert s4.dlq == first.published + second.published && s4.written == first.writes + second.writes;
    if cfg.latePolicy == LateDlq { LateIsQueued(s3, cfg, second, rowM); }
    forall d | d in s4.dlq && d.originalPayload == m ensures d.stage == StageLate && !Complete(m) {
      if d in first.published {
        PublishedAsLate(s1, cfg, first, rowA, m, d);
      } else {
        PublishedAsLate(s3, cfg, second, rowM, m, d);
      }
    }
    forall t ensures UpsertOf(t, m) !in Upserts(s4.written) {
      UpsertsAppend(first.writes, second.writes);
      WritesNothingOf(s1, cfg, first, rowA, m, t);
      WritesNothingOf(s3, cfg, second, rowM, m, t);
    }
  }

  lemma OnlyTwoAreKnown(cfg: StreamConfig, a: Message, m: Message, s1: State, first: Action, s3: State, second: Action)
    requires Leads(cfg, a, m) && s1 == Step(INITIAL, cfg, Produce(KafkaRow(a, 0)))
    requires first.Batch? && first.size == 1 && Enabled(s1, cfg, first)
    requires s3 == Step(Step(s1, cfg, first), cfg, Produce(KafkaRow(m, 0)))
    requires second.Batch? && second.size == 1 && Enabled(s3, cfg, second)
    ensures var s := Step(s3, cfg, second); Known(s, m) && TripsAreEvents(s) && s.committed == |s.log|
  {
    hide Accepted, BatchDlq, BatchUpserts, BatchCompletes, NextMark, Late, Unparseable, Owned, Known, TripsAreEvents;
    var s4 := Step(s3, cfg, second);
    var t1, t3 := Pending(s1, 1), Pending(s3, 1);
    assert s4.log == [KafkaRow(a, 0), KafkaRow(m, 0)];
    assert t1 == [KafkaRow(a, 0)] && t3 == [KafkaRow(m, 0)];
    forall d | d in s4.dlq ensures d.originalPayload == a || d.originalPayload == m {
      assert d in first.published || d in second.published;
    }
    TwoTrips(s4, a, m);
  }

  lemma TwoTrips(s: State, a: Message, m: Message)
    requires Accepted(a) && Accepted(m) && a.tripId != m.tripId
    requires s.log == [KafkaRow(a, 0), KafkaRow(m, 0)]
    requires forall d <- s.dlq :: d.originalPayload == a || d.originalPayload == m
    ensures Known(s, m) && TripsAreEvents(s)
  {
    hide Accepted;
    assert s.log[1] in s.log;
  }

  // ------------------------------------------------------------ exactly which events a recovery always stores

  /** From every reachable state that has been given the event, every recovery stores it. */
  ghost predicate AlwaysRecovered(cfg: StreamConfig, m: Message)
    requires Accepted(m)
  {
    forall actions, first, catchUp, second ::
      Runs(INITIAL, cfg, actions) && RecoveryOf(cfg, actions, first, catchUp, second, m)
      ==> Stored(Recovered(After(INITIAL, cfg, actions), cfg, first, catchUp, second), cfg, m)
  }

  ghost predicate RecoveryOf(cfg: StreamConfig, actions: seq<Action>, first: Action, catchUp: seq<Action>,
                             second: Action, m: Message)
    requires Runs(INITIAL, cfg, actions)
  {
    Known(After(INITIAL, cfg, actions), m) && Recovery(After(INITIAL, cfg, actions), cfg, first, catchUp, second)
  }

  const HEALTHY_DRAIN := DrainQueue(DrainArgs(0, 1, false), [], [], [], 0)

  lemma DrainIsHealthy()
    ensures HealthyDrain(HEALTHY_DRAIN)
  {
    assert forall i: nat :: Nth<seq<Outcome>>([], i, []) == [] && Nth<SendOutcome>([], i, Delivered).Delivered?;
    assert AllOk([], 3);
  }

  /** A recovery can always be had, and without anything new arriving. */
  lemma RecoveryExists(s: State, cfg: StreamConfig) returns (catchUp: seq<Action>)
    requires s.committed <= |s.log|
    ensures Recovery(s, cfg, HEALTHY_DRAIN, catchUp, HEALTHY_DRAIN) && Quiet(catchUp)
  {
    hide HealthyBatch, HealthyDrain, BatchDlq, BatchUpserts, BatchCompletes, NextMark, Deserved, Owned;
    DrainIsHealthy();
    var s1 := Step(s, cfg, HEALTHY_DRAIN);
    StepCommits(s, cfg, HEALTHY_DRAIN);
    var batch := QuietBatch(s1, cfg, |s1.log| - s1.committed);
    BatchesAreBatches(batch);
    catchUp := [batch];
    assert catchUp[0] == batch && catchUp[1..] == [];
    assert Runs(Step(s1, cfg, batch), cfg, []);
    assert Runs(s1, cfg, catchUp);
    assert After(s1, cfg, catchUp) == Step(s1, cfg, batch);
    assert forall a | a in catchUp :: a == batch;
    assert CatchingUp(catchUp);
  }

  /** An event of another trip that leads this one by more than the lateness. */
  function Leader(cfg: StreamConfig, m: Message): Message
    requires Accepted(m)
  {
    var after := m.eventTime.value + cfg.allowedLatenessSec * 1000 + 1;
    m.(tripId := Uuid(m.tripId.bits + 1), eventTime := Some(if after < 0 then 0 else after))
  }

  lemma LeaderLeads(cfg: StreamConfig, m: Message)
    requires Accepted(m)
    ensures Leads(cfg, Leader(cfg, m), m)
  {
  }

  lemma StrandedIsNotStored(s: State, cfg: StreamConfig, m: Message)
    requires Stranded(s, m) && cfg.sink.tables != {}
    ensures !Stored(s, cfg, m)
  {
    hide UpsertOf, Accepted, Complete;
    var t :| t in cfg.sink.tables;
  }

  /** A drain that is healthy, a quiet catch-up and another drain leave a stranded event stranded. */
  lemma RecoveryStrands(s: State, cfg: StreamConfig, first: Action, catchUp: seq<Action>, second: Action, m: Message)
    requires Stranded(s, m) && Known(s, m) && TripsAreEvents(s)
    requires Recovery(s, cfg, first, catchUp, second) && Quiet(catchUp)
    ensures Stranded(Recovered(s, cfg, first, catchUp, second), m)
  {
    hide Step, Stranded, Known, TripsAreEvents, HealthySends, HealthyWrites, Runs, After, CatchingUp;
    StrandedStep(s, cfg, first, m);
    StepGrows(s, cfg, first);
    StillTripsAreEvents(s, cfg, first);
    var s1 := Step(s, cfg, first);
    StrandedForever(s1, cfg, catchUp, m);
    StrandedStep(After(s1, cfg, catchUp), cfg, second, m);
  }

  /** An event that can be stranded has a run and a recovery that do not store it. */
  lemma StrandedIsNotRecovered(cfg: StreamConfig, m: Message)
    requires cfg.allowedLatenessSec >= 0 && cfg.sink.tables != {} && Accepted(m) && CanStrand(cfg, m)
    ensures !AlwaysRecovered(cfg, m)
  {
    hide Accepted, Complete, Stranded, Known, TripsAreEvents, Recovery, Recovered, Stored, Leads, Leader, Runs, After;
    hide CanStrand;
    LeaderLeads(cfg, m);
    var actions := StrandedIsReachable(cfg, Leader(cfg, m), m);
    var s := After(INITIAL, cfg, actions);
    var catchUp := RecoveryExists(s, cfg);
    RecoveryStrands(s, cfg, HEALTHY_DRAIN, catchUp, HEALTHY_DRAIN, m);
    StrandedIsNotStored(Recovered(s, cfg, HEALTHY_DRAIN, catchUp, HEALTHY_DRAIN), cfg, m);
    assert RecoveryOf(cfg, actions, HEALTHY_DRAIN, catchUp, HEALTHY_DRAIN, m);
  }

  /**
   Replay convergence, exactly: an acceptable event is in every configured table
   after drain, catch-up and drain, from every reachable state and for every such
   recovery, if and only if the policy never calls a row late, or quarantines
   late rows and the event is complete.
   */
  lemma RecoversExactly(cfg: StreamConfig, m: Message)
    requires cfg.allowedLatenessSec >= 0 && cfg.sink.tables != {} && Accepted(m)
    ensures AlwaysRecovered(cfg, m)
       <==> cfg.latePolicy == LateProcess || (cfg.latePolicy == LateDlq && Complete(m))
  {
    hide Accepted, Complete, Known, Recovery, Recovered, Stored, Runs, After, Inv;
    if CanStrand(cfg, m) {
      StrandedIsNotRecovered(cfg, m);
    } else {
      forall actions, first, catchUp, second
        | Runs(INITIAL, cfg, actions) && RecoveryOf(cfg, actions, first, catchUp, second, m)
        ensures Stored(Recovered(After(INITIAL, cfg, actions), cfg, first, catchUp, second), cfg, m)
      {
        InitialInv(cfg);
        ZeroSilentLoss(INITIAL, cfg, actions);
        ReplayConvergence(After(INITIAL, cfg, actions), cfg, first, catchUp, second, m);
      }
    }
  }
}
