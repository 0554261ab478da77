/**
 The reliability pipeline as a state machine: the topic, the committed offset,
 the job's in-memory mark, the dead letter queue and every write the tables
 ever received. A crash may strike at any point of a batch; it leaves some of
 the batch's records and writes behind, commits nothing, and the restarted job
 knows no mark.
 */
module Pipeline {
  import opened Options
  import opened Events
  import opened Dlq
  import opened Seqs
  import opened Retry
  import opened Stream
  import opened StreamTheorems
  import opened Replay

  datatype State = State(
    log: seq<KafkaRow>,        // the topic, in the order the job consumes it
    committed: nat,            // rows before this offset are done with
    startedAt: nat,            // the committed offset when the job last started
    mark: Option<int>,
    dlq: seq<DlqRecord>,
    written: seq<Write>)

  datatype Action =
    | Produce(row: KafkaRow)
    | ProducerGivesUp(message: Message, reason: string, retries: nat)
    | Batch(size: nat, es: Evaluations, published: seq<DlqRecord>, writes: seq<Write>)
    | Crash(size: nat, published: seq<DlqRecord>, writes: seq<Write>)
    | DrainQueue(args: DrainArgs, sends: seq<SendOutcome>, partitions: seq<nat>, outs: seq<seq<Outcome>>, now: int)

  const INITIAL := State([], 0, 0, None, [], [])

  function Pending(s: State, size: nat): seq<KafkaRow>
    requires s.committed + size <= |s.log|
  {
    s.log[s.committed..s.committed + size]
  }

  ghost predicate Enabled(s: State, cfg: StreamConfig, a: Action) {
    match a
    case Produce(_) => true
    case ProducerGivesUp(_, _, _) => true
    case Batch(size, es, published, writes) =>
      && s.committed + size <= |s.log|
      && BatchCompletes(s.mark, cfg, Pending(s, size), es)
      && multiset(BatchDlq(s.mark, cfg, Pending(s, size), es)) <= multiset(published)
      && BatchUpserts(s.mark, cfg, Pending(s, size), es) <= Upserts(writes)
      && (forall d <- published :: Deserved(s.mark, cfg, Pending(s, size), d))
      && (forall u <- Upserts(writes) :: Owned(s.mark, cfg, Pending(s, size), u))
    case Crash(size, published, writes) =>
      && s.committed + size <= |s.log|
      && (forall d <- published :: Deserved(s.mark, cfg, Pending(s, size), d))
      && (forall u <- Upserts(writes) :: Owned(s.mark, cfg, Pending(s, size), u))
    case DrainQueue(_, _, _, _, _) => true
  }

  function DrainSends(s: State, a: Action): seq<Message>
    requires a.DrainQueue?
  {
    if a.args.dryRun then []
    else SentMessages(Routed(ReadAll(s.dlq, a.args.limit), a.args.maxReplays, Reinject), a.sends)
  }

  function DrainWrites(s: State, a: Action): seq<Write>
    requires a.DrainQueue?
  {
    if a.args.dryRun then []
    else DirectWrites(Routed(ReadAll(s.dlq, a.args.limit), a.args.maxReplays, Direct), a.outs, a.now)
  }

  /** The messages sent back, each in the partition its key hashes to. */
  function Rows(ms: seq<Message>, partitions: seq<nat>): seq<KafkaRow> {
    seq(|ms|, i requires 0 <= i < |ms| => KafkaRow(ms[i], Nth(partitions, i, 0)))
  }

  function Step(s: State, cfg: StreamConfig, a: Action): State
    requires a.Batch? ==> s.committed + a.size <= |s.log|
  {
    match a
    case Produce(row) => s.(log := s.log + [row])
    case ProducerGivesUp(m, reason, retries) =>
      s.(dlq := s.dlq + [BuildRecord(m, reason, StageProducer, retries)])
    case Batch(size, es, published, writes) =>
      s.(committed := s.committed + size, mark := NextMark(s.mark, cfg, Pending(s, size)),
         dlq := s.dlq + published, written := s.written + writes)
    case Crash(size, published, writes) =>
      s.(startedAt := s.committed, mark := None, dlq := s.dlq + published, written := s.written + writes)
    case DrainQueue(_, _, _, _, _) =>
      s.(log := s.log + Rows(DrainSends(s, a), a.partitions), written := s.written + DrainWrites(s, a))
  }

  /** A run: every action is enabled where it happens. */
  ghost predicate Runs(s: State, cfg: StreamConfig, actions: seq<Action>)
    decreases |actions|
  {
    if actions == [] then true
    else Enabled(s, cfg, actions[0]) && Runs(Step(s, cfg, actions[0]), cfg, actions[1..])
  }

  ghost function After(s: State, cfg: StreamConfig, actions: seq<Action>): State
    requires Runs(s, cfg, actions)
    decreases |actions|
  {
    if actions == [] then s else After(Step(s, cfg, actions[0]), cfg, actions[1..])
  }

  // ------------------------------------------------------------ the invariant

  /** Every message the pipeline has been given: it is in the topic or in the queue. */
  ghost predicate Known(s: State, m: Message) {
    (exists r <- s.log :: r.message == m) || (exists d <- s.dlq :: d.originalPayload == m)
  }

  /** Parseable rows without an event time are the ones a batch can lose. */
  predicate Timed(m: Message) { Unparseable(m) || m.eventTime.Some? }

  ghost predicate Settled(s: State, cfg: StreamConfig, m: Message) {
    Accounted(m, cfg.sink.tables, s.dlq, Upserts(s.written))
  }

  /** Zero silent loss: each committed row is quarantined, or in every configured table written or quarantined. */
  ghost predicate NothingLost(s: State, cfg: StreamConfig)
    requires s.committed <= |s.log|
  {
    forall i | 0 <= i < s.committed :: Timed(s.log[i].message) ==> Settled(s, cfg, s.log[i].message)
  }

  /** Every row of every table is the upsert of an event the pipeline was given. */
  ghost predicate NothingInvented(s: State) {
    forall u <- Upserts(s.written) :: exists m, t :: Known(s, m) && Accepted(m) && u == UpsertOf(t, m)
  }

  /** By its own account no record was ever replayed; only what cannot be written parks; late rows need the policy. */
  ghost predicate QueueIsSound(s: State, cfg: StreamConfig) {
    forall d <- s.dlq :: IsSound(cfg, d)
  }

  predicate IsSound(cfg: StreamConfig, d: DlqRecord) {
    && d.replayCount == 0
    && (d.stage == StageParse ==> !Accepted(d.originalPayload))
    && (d.stage == StageLate ==> cfg.latePolicy == LateDlq)
  }

  ghost predicate Inv(s: State, cfg: StreamConfig) {
    && s.startedAt <= s.committed <= |s.log|
    && s.mark == MarkOf(s.log[s.startedAt..s.committed])
    && NothingLost(s, cfg)
    && NothingInvented(s)
    && QueueIsSound(s, cfg)
  }

  // ------------------------------------------------------------ growth

  /** The topic, the queue and the tables only grow. */
  ghost predicate Grows(s: State, t: State) {
    && s.log <= t.log
    && (forall d <- s.dlq :: d in t.dlq)
    && Upserts(s.written) <= Upserts(t.written)
  }

  lemma AccountedGrows(m: Message, tables: set<Table>, dlq: seq<DlqRecord>, written: set<Upsert>, dlq': seq<DlqRecord>,
                       written': set<Upsert>)
    requires (forall d <- dlq :: d in dlq') && written <= written'
    requires Accounted(m, tables, dlq, written)
    ensures Accounted(m, tables, dlq', written')
  {
  }

  lemma InDlqGrows(dlq: seq<DlqRecord>, dlq': seq<DlqRecord>, m: Message, s: Stage)
    requires forall d <- dlq :: d in dlq'
    ensures InDlq(dlq, m, s) ==> InDlq(dlq', m, s)
  {
  }

  lemma StepGrows(s: State, cfg: StreamConfig, a: Action)
    requires Enabled(s, cfg, a)
    ensures Grows(s, Step(s, cfg, a))
    ensures forall m :: Known(s, m) ==> Known(Step(s, cfg, a), m)
  {
    hide BatchDlq, BatchUpserts, BatchCompletes, Deserved, Owned, NextMark, DrainSends, DrainWrites;
    var t := Step(s, cfg, a);
    match a
    case Batch(_, _, _, writes) => UpsertsAppend(s.written, writes);
    case Crash(_, _, writes) => UpsertsAppend(s.written, writes);
    case DrainQueue(_, _, _, _, _) => UpsertsAppend(s.written, DrainWrites(s, a));
    case _ =>
  }

  // ------------------------------------------------------------ every step keeps the invariant

  /** The configurations under which the claim is made: lateness is not negative and late rows are not dropped. */
  predicate Sound(cfg: StreamConfig) {
    cfg.allowedLatenessSec >= 0 && cfg.latePolicy != LateDrop
  }

  lemma Included<T>(a: seq<T>, b: seq<T>)
    requires multiset(a) <= multiset(b)
    ensures forall x :: x in a ==> x in b
  {
    forall x | x in a ensures x in b {
      assert x in multiset(a) && multiset(a)[x] <= multiset(b)[x];
    }
  }

  lemma OldRowsStaySettled(s: State, t: State, cfg: StreamConfig)
    requires s.committed <= |s.log| && NothingLost(s, cfg) && Grows(s, t)
    ensures forall i | 0 <= i < s.committed :: Timed(t.log[i].message) ==> Settled(t, cfg, t.log[i].message)
  {
  }

  lemma BatchLosesNothing(s: State, cfg: StreamConfig, a: Action)
    requires Sound(cfg) && Inv(s, cfg) && Enabled(s, cfg, a) && a.Batch?
    ensures NothingLost(Step(s, cfg, a), cfg)
  {
    hide Accounted, BatchDlq, BatchUpserts, BatchCompletes, NextMark, MarkOf, Deserved, Owned;
    var t, rows := Step(s, cfg, a), Pending(s, a.size);
    StepGrows(s, cfg, a);
    OldRowsStaySettled(s, t, cfg);
    Included(BatchDlq(s.mark, cfg, rows, a.es), a.published);
    UpsertsAppend(s.written, a.writes);
    forall i | s.committed <= i < t.committed && Timed(t.log[i].message) ensures Settled(t, cfg, t.log[i].message) {
      var r := rows[i - s.committed];
      assert r == t.log[i] && r in rows;
      RowIsAccounted(s.mark, cfg, rows, a.es, r);
      AccountedGrows(r.message, cfg.sink.tables, BatchDlq(s.mark, cfg, rows, a.es),
                     BatchUpserts(s.mark, cfg, rows, a.es), t.dlq, Upserts(t.written));
    }
  }

  lemma MarkIsKept(s: State, cfg: StreamConfig, a: Action)
    requires Sound(cfg) && Inv(s, cfg) && Enabled(s, cfg, a)
    ensures var t := Step(s, cfg, a);
            t.startedAt <= t.committed <= |t.log| && t.mark == MarkOf(t.log[t.startedAt..t.committed])
  {
    hide MarkOf, NextMark, BatchDlq, BatchUpserts, BatchCompletes, NothingLost, DrainSends, DrainWrites;
    var t := Step(s, cfg, a);
    if a.Batch? {
      NextMarkOf(s.log[s.startedAt..s.committed], cfg, Pending(s, a.size));
      assert s.log[s.startedAt..s.committed] + Pending(s, a.size) == s.log[s.startedAt..t.committed];
    } else if a.Crash? {
      assert t.log[t.startedAt..t.committed] == [];
      assert MarkOf([]) == None by { NoRowsNoMark(); }
    } else {
      assert t.log[..|s.log|] == s.log;
      assert t.log[t.startedAt..t.committed] == s.log[s.startedAt..s.committed];
    }
  }

  lemma NoRowsNoMark()
    ensures MarkOf([]) == None
  {
  }

  lemma OwnedIsKnown(s: State, cfg: StreamConfig, size: nat, u: Upsert)
    requires s.committed + size <= |s.log| && Owned(s.mark, cfg, Pending(s, size), u)
    ensures exists m, t :: Known(s, m) && Accepted(m) && u == UpsertOf(t, m)
  {
  }

  /** The record whose event a drain writes. */
  lemma DrainWritesARecord(s: State, a: Action, u: Upsert) returns (d: DlqRecord, t: Table)
    requires a.DrainQueue? && u in Upserts(DrainWrites(s, a))
    ensures d in s.dlq && Accepted(d.originalPayload) && Complete(d.originalPayload)
    ensures u == UpsertOf(t, d.originalPayload) && Known(s, d.originalPayload)
  {
    hide UpsertOf, Accepted, Complete, Routed, DirectWrites;
    var recs := ReadAll(s.dlq, a.args.limit);
    var direct := Routed(recs, a.args.maxReplays, Direct);
    DirectWritesOnly(direct, a.outs, a.now, u);
    d, t :| d in direct && t in AllTables() && Accepted(d.originalPayload) && Complete(d.originalPayload)
            && u == UpsertOf(t, d.originalPayload);
    RoutedMembers(recs, a.args.maxReplays, Direct, d);
  }

  /** The upserts a step adds are those of events known before it. */
  ghost function Added(s: State, a: Action): seq<Write> {
    match a
    case Batch(_, _, _, writes) => writes
    case Crash(_, _, writes) => writes
    case DrainQueue(_, _, _, _, _) => DrainWrites(s, a)
    case _ => []
  }

  lemma AddedIsKnown(s: State, cfg: StreamConfig, a: Action, u: Upsert)
    requires Enabled(s, cfg, a) && u in Upserts(Added(s, a))
    ensures exists m, t :: Known(s, m) && Accepted(m) && u == UpsertOf(t, m)
  {
    hide UpsertOf, Accepted, BatchUpserts, BatchDlq, BatchCompletes, Owned, DrainWrites, Deserved, Known;
    match a
    case Batch(size, _, _, _) => OwnedIsKnown(s, cfg, size, u);
    case Crash(size, _, _) => OwnedIsKnown(s, cfg, size, u);
    case DrainQueue(_, _, _, _, _) => var d, t := DrainWritesARecord(s, a, u);
    case _ =>
  }

  lemma StepInventsNothing(s: State, cfg: StreamConfig, a: Action)
    requires NothingInvented(s) && Enabled(s, cfg, a)
    ensures NothingInvented(Step(s, cfg, a))
  {
    hide UpsertOf, Accepted, BatchUpserts, BatchDlq, BatchCompletes, Owned, DrainWrites, DrainSends, Deserved, Known;
    hide NextMark;
    var t := Step(s, cfg, a);
    StepGrows(s, cfg, a);
    UpsertsAppend(s.written, Added(s, a));
    assert t.written == s.written + Added(s, a);
    forall u | u in Upserts(t.written) ensures exists m, tb :: Known(t, m) && Accepted(m) && u == UpsertOf(tb, m) {
      if u in Upserts(Added(s, a)) {
        AddedIsKnown(s, cfg, a, u);
      }
      var m, tb :| Known(s, m) && Accepted(m) && u == UpsertOf(tb, m);
      assert Known(t, m);
    }
  }

  lemma DeservedIsSound(mark: Option<int>, cfg: StreamConfig, rows: seq<KafkaRow>, d: DlqRecord)
    requires Deserved(mark, cfg, rows, d)
    ensures IsSound(cfg, d)
  {
  }

  lemma StepKeepsQueueSound(s: State, cfg: StreamConfig, a: Action)
    requires QueueIsSound(s, cfg) && Enabled(s, cfg, a)
    ensures QueueIsSound(Step(s, cfg, a), cfg)
  {
    hide IsSound, BatchUpserts, BatchDlq, BatchCompletes, Owned, DrainWrites, DrainSends, Deserved, NextMark;
    forall d | d in Step(s, cfg, a).dlq && d !in s.dlq ensures IsSound(cfg, d) {
      match a
      case Batch(size, _, _, _) => DeservedIsSound(s.mark, cfg, Pending(s, size), d);
      case Crash(size, _, _) => DeservedIsSound(s.mark, cfg, Pending(s, size), d);
      case ProducerGivesUp(m, reason, retries) => GivenUpIsSound(cfg, m, reason, retries);
      case _ =>
    }
  }

  lemma GivenUpIsSound(cfg: StreamConfig, m: Message, reason: string, retries: nat)
    ensures IsSound(cfg, BuildRecord(m, reason, StageProducer, retries))
  {
  }

  lemma StepKeepsInv(s: State, cfg: StreamConfig, a: Action)
    requires Sound(cfg) && Inv(s, cfg) && Enabled(s, cfg, a)
    ensures Inv(Step(s, cfg, a), cfg)
  {
    hide NothingInvented, QueueIsSound, BatchDlq, BatchUpserts, BatchCompletes;
    hide NextMark, MarkOf, DrainSends, DrainWrites, Settled;
    MarkIsKept(s, cfg, a);
    StepInventsNothing(s, cfg, a);
    StepKeepsQueueSound(s, cfg, a);
    if a.Batch? {
      BatchLosesNothing(s, cfg, a);
    } else {
      StepGrows(s, cfg, a);
      OldRowsStaySettled(s, Step(s, cfg, a), cfg);
    }
  }

  /**
   Zero silent loss, for every run: crashes at any point, re-reads with the mark
   forgotten, sink partitions evaluated again, drains, producers giving up. After
   any run every committed row with an event time is quarantined or, table by
   table, written or quarantined; no table holds a row that no event given to
   the pipeline produced; and the mark is that of the rows since the last start.
   */
  lemma {:induction false} ZeroSilentLoss(s: State, cfg: StreamConfig, actions: seq<Action>)
    requires Sound(cfg) && Inv(s, cfg) && Runs(s, cfg, actions)
    ensures Inv(After(s, cfg, actions), cfg)
    decreases |actions|
  {
    hide Inv, Step, BatchCompletes, BatchDlq, BatchUpserts, Deserved, Owned;
    if actions != [] {
      StepKeepsInv(s, cfg, actions[0]);
      ZeroSilentLoss(Step(s, cfg, actions[0]), cfg, actions[1..]);
    }
  }

  // ------------------------------------------------------------ the rows a run loses

  /** The offsets of the rows that vanish in a batch when it commits. */
  ghost function MissedBy(s: State, cfg: StreamConfig, a: Action): set<nat>
    requires Enabled(s, cfg, a)
  {
    if a.Batch?
    then
      var rows := Pending(s, a.size);
      set k: nat | k < a.size && Vanishes(s.mark, cfg, rows, rows[k].message) :: s.committed + k
    else {}
  }

  ghost function Missed(s: State, cfg: StreamConfig, actions: seq<Action>): set<nat>
    requires Runs(s, cfg, actions)
    decreases |actions|
  {
    if actions == [] then {}
    else MissedBy(s, cfg, actions[0]) + Missed(Step(s, cfg, actions[0]), cfg, actions[1..])
  }

  lemma BatchMissesOnly(s: State, cfg: StreamConfig, a: Action, i: nat)
    requires Enabled(s, cfg, a) && s.committed <= i < Step(s, cfg, a).committed && i !in MissedBy(s, cfg, a)
    ensures Settled(Step(s, cfg, a), cfg, Step(s, cfg, a).log[i].message)
  {
    hide Accounted, BatchDlq, BatchUpserts, BatchCompletes, NextMark, Vanishes, Deserved, Owned;
    var t, rows := Step(s, cfg, a), Pending(s, a.size);
    StepGrows(s, cfg, a);
    var k: nat := i - s.committed;
    var r := rows[k];
    assert r == t.log[i] && r in rows && !Vanishes(s.mark, cfg, rows, r.message);
    RowIsAccounted(s.mark, cfg, rows, a.es, r);
    Included(BatchDlq(s.mark, cfg, rows, a.es), a.published);
    UpsertsAppend(s.written, a.writes);
    AccountedGrows(r.message, cfg.sink.tables, BatchDlq(s.mark, cfg, rows, a.es),
                   BatchUpserts(s.mark, cfg, rows, a.es), t.dlq, Upserts(t.written));
  }

  lemma MissedIsUntimed(s: State, cfg: StreamConfig, a: Action, i: nat)
    requires Sound(cfg) && Enabled(s, cfg, a) && i in MissedBy(s, cfg, a)
    ensures s.committed <= i < Step(s, cfg, a).committed && i < |s.log|
    ensures cfg.latePolicy == LateDlq && !Timed(s.log[i].message)
    ensures exists r <- Pending(s, a.size) :: Late(s.mark, cfg, r.message)
  {
    hide BatchDlq, BatchUpserts, BatchCompletes, NextMark, Deserved, Owned, Unparseable;
    var k: nat := i - s.committed;
    assert Pending(s, a.size)[k] == s.log[i];
  }

  /**
   The losses of a run, row by row: a committed row that no batch missed is
   settled whether or not it has an event time, and the rows missed are rows
   without one that shared their batch with a late row. Under the process policy
   there are none.
   */
  lemma {:induction false} LossesOfARun(s: State, cfg: StreamConfig, actions: seq<Action>)
    requires Sound(cfg) && s.committed <= |s.log| && Runs(s, cfg, actions)
    ensures var t := After(s, cfg, actions);
      && s.committed <= t.committed <= |t.log| && s.log <= t.log
      && (forall i | s.committed <= i < t.committed && i !in Missed(s, cfg, actions) ::
            Settled(t, cfg, t.log[i].message))
      && (forall i | i in Missed(s, cfg, actions) ::
            s.committed <= i < t.committed && !Timed(t.log[i].message) && cfg.latePolicy == LateDlq)
    decreases |actions|
  {
    hide Step, BatchDlq, BatchUpserts, BatchCompletes, NextMark, Deserved, Owned;
    hide Settled, Timed, Unparseable, MissedBy;
    if actions != [] {
      var a, rest := actions[0], actions[1..];
      var next := Step(s, cfg, a);
      StepCommits(s, cfg, a);
      LossesOfARun(next, cfg, rest);
      RunGrows(next, cfg, rest);
      var t := After(next, cfg, rest);
      forall i | s.committed <= i < t.committed && i !in Missed(s, cfg, actions)
        ensures Settled(t, cfg, t.log[i].message)
      {
        if i < next.committed {
          BatchMissesOnly(s, cfg, a, i);
          SettledGrows(next, t, cfg, next.log[i].message);
          assert t.log[i] == next.log[i];
        }
      }
      forall i | i in MissedBy(s, cfg, a)
        ensures s.committed <= i < t.committed && !Timed(t.log[i].message) && cfg.latePolicy == LateDlq
      {
        MissedIsUntimed(s, cfg, a, i);
        assert s.log[i] == next.log[i] && next.log[i] == t.log[i];
      }
    }
  }

  lemma StepCommits(s: State, cfg: StreamConfig, a: Action)
    requires s.committed <= |s.log| && Enabled(s, cfg, a)
    ensures s.committed <= Step(s, cfg, a).committed <= |Step(s, cfg, a).log| && s.log <= Step(s, cfg, a).log
  {
    hide BatchDlq, BatchUpserts, BatchCompletes, NextMark, Deserved, Owned, DrainSends, DrainWrites;
  }

  lemma SettledGrows(s: State, t: State, cfg: StreamConfig, m: Message)
    requires Grows(s, t) && Settled(s, cfg, m)
    ensures Settled(t, cfg, m)
  {
    AccountedGrows(m, cfg.sink.tables, s.dlq, Upserts(s.written), t.dlq, Upserts(t.written));
  }

  lemma InitialInv(cfg: StreamConfig)
    ensures Inv(INITIAL, cfg)
  {
  }

  lemma {:induction false} RunGrows(s: State, cfg: StreamConfig, actions: seq<Action>)
    requires Runs(s, cfg, actions)
    ensures Grows(s, After(s, cfg, actions))
    decreases |actions|
  {
    hide Step, BatchCompletes, BatchDlq, BatchUpserts, Deserved, Owned;
    if actions != [] {
      StepGrows(s, cfg, actions[0]);
      RunGrows(Step(s, cfg, actions[0]), cfg, actions[1..]);
    }
  }

  /** The replay ceiling is never reached: with a ceiling of at least one nothing parks because of it. */
  lemma CeilingNeverReached(s: State, cfg: StreamConfig, d: DlqRecord, maxReplays: int)
    requires Inv(s, cfg) && d in s.dlq && maxReplays >= 1
    ensures RouteOf(d, maxReplays) == Park <==> d.stage == StageParse
  {
  }
}
