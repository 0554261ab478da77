/**
 The imperative components driven together. Each step of the driver is an
 enabled action of the pipeline's state machine, so every theorem about runs of
 the machine is a theorem about what the components do.
 */
module Refinement {
  import opened Options
  import opened Events
  import opened Dlq
  import opened Retry
  import opened Stream
  import opened StreamTheorems
  import opened Replay
  import opened Pipeline

  datatype Command =
    | Publish(row: KafkaRow)
    | GiveUp(message: Message, reason: string, retries: nat)
    | Process(size: nat, es: Evaluations)
    | Restart
    | RunDrain(args: DrainArgs, sends: seq<SendOutcome>, partitions: seq<nat>, outs: seq<seq<Outcome>>, now: int)

  /** The job that is running goes with the state: same configuration, same mark. */
  ghost predicate InStep(job: TripStream, s: State, cfg: StreamConfig)
    reads job
  {
    job.cfg == cfg && job.maxEventMs == s.mark
  }

  /** One batch. Spark commits its offsets only if it completes; otherwise the job is gone and a fresh one starts. */
  method RunBatch(job: TripStream, s: State, size: nat, es: Evaluations)
    returns (next: State, running: TripStream, ghost a: Action)
    requires job.maxEventMs == s.mark && s.committed + size <= |s.log|
    modifies job
    ensures Enabled(s, job.cfg, a) && next == Step(s, job.cfg, a) && InStep(running, next, job.cfg)
    ensures running == job || fresh(running)
    ensures a.Batch? <==> BatchCompletes(s.mark, job.cfg, Pending(s, size), es)
  {
    hide BatchDlq, BatchUpserts, BatchCompletes, NextMark, Owned, Deserved, EarlyDlq;
    var rows := Pending(s, size);
    var published, writes, completed := job.ProcessBatch(|job.batchReports|, rows, es);
    if completed {
      a := Batch(size, es, published, writes);
      CompleteBatchIsEnabled(s, job.cfg, size, es, published, writes);
      running := job;
      next := s.(committed := s.committed + size, mark := job.maxEventMs, dlq := s.dlq + published,
                 written := s.written + writes);
    } else {
      a := Crash(size, published, writes);
      DyingBatchIsEnabled(s, job.cfg, size, es, published, writes);
      running := new TripStream(job.cfg);
      next := s.(startedAt := s.committed, mark := None, dlq := s.dlq + published, written := s.written + writes);
    }
  }

  lemma CompleteBatchIsEnabled(s: State, cfg: StreamConfig, size: nat, es: Evaluations, published: seq<DlqRecord>,
                               writes: seq<Write>)
    requires s.committed + size <= |s.log| && BatchCompletes(s.mark, cfg, Pending(s, size), es)
    requires multiset(published) == multiset(BatchDlq(s.mark, cfg, Pending(s, size), es))
    requires Upserts(writes) == BatchUpserts(s.mark, cfg, Pending(s, size), es)
    ensures Enabled(s, cfg, Batch(size, es, published, writes))
  {
    hide BatchDlq, BatchUpserts, BatchCompletes, Owned, Deserved;
    Included(published, BatchDlq(s.mark, cfg, Pending(s, size), es));
    forall d | d in published ensures Deserved(s.mark, cfg, Pending(s, size), d) {
      BatchDlqOnly(s.mark, cfg, Pending(s, size), es, d);
    }
    forall u | u in Upserts(writes) ensures Owned(s.mark, cfg, Pending(s, size), u) {
      BatchUpsertsOnly(s.mark, cfg, Pending(s, size), es, u);
    }
  }

  lemma DyingBatchIsEnabled(s: State, cfg: StreamConfig, size: nat, es: Evaluations, published: seq<DlqRecord>,
                            writes: seq<Write>)
    requires s.committed + size <= |s.log| && published == EarlyDlq(s.mark, cfg, Pending(s, size))
    requires Upserts(writes) <= BatchUpserts(s.mark, cfg, Pending(s, size), es)
    ensures Enabled(s, cfg, Crash(size, published, writes))
  {
    hide BatchUpserts, Owned, Deserved, EarlyDlq;
    forall d | d in published ensures Deserved(s.mark, cfg, Pending(s, size), d) {
      EarlyDlqOnly(s.mark, cfg, Pending(s, size), d);
    }
    forall u | u in Upserts(writes) ensures Owned(s.mark, cfg, Pending(s, size), u) {
      BatchUpsertsOnly(s.mark, cfg, Pending(s, size), es, u);
    }
  }

  /** One drain; `partitions` is where the messages sent back land. */
  method RunReplay(s: State, cfg: StreamConfig, args: DrainArgs, sends: seq<SendOutcome>, partitions: seq<nat>,
                   outs: seq<seq<Outcome>>, now: int)
    returns (next: State)
    ensures Enabled(s, cfg, DrainQueue(args, sends, partitions, outs, now))
    ensures next == Step(s, cfg, DrainQueue(args, sends, partitions, outs, now))
  {
    ghost var a := DrainQueue(args, sends, partitions, outs, now);
    var _, sent, writes, _ := Drain(s.dlq, args, sends, outs, now);
    assert ReadAll(s.dlq, args.limit) == [] ==> DrainSends(s, a) == [] && DrainWrites(s, a) == [];
    next := s.(log := s.log + Rows(sent, partitions), written := s.written + writes);
  }

  lemma {:induction false} RunsSnoc(s: State, cfg: StreamConfig, actions: seq<Action>, a: Action)
    requires Runs(s, cfg, actions) && Enabled(After(s, cfg, actions), cfg, a)
    ensures Runs(s, cfg, actions + [a]) && After(s, cfg, actions + [a]) == Step(After(s, cfg, actions), cfg, a)
    decreases |actions|
  {
    hide Step, BatchDlq, BatchUpserts, BatchCompletes, NextMark, Owned, Deserved;
    if actions == [] {
      assert actions + [a] == [a] && [a][1..] == [];
    } else {
      assert (actions + [a])[1..] == actions[1..] + [a];
      RunsSnoc(Step(s, cfg, actions[0]), cfg, actions[1..], a);
    }
  }

  /** One command; a batch larger than what is pending waits. */
  method Obey(job: TripStream, s: State, c: Command) returns (next: State, running: TripStream, ghost a: Action)
    requires job.maxEventMs == s.mark && s.committed <= |s.log|
    modifies job
    ensures Enabled(s, job.cfg, a) && next == Step(s, job.cfg, a) && InStep(running, next, job.cfg)
    ensures running == job || fresh(running)
  {
    hide BatchDlq, BatchUpserts, BatchCompletes, NextMark, Owned, Deserved, DrainSends, DrainWrites;
    running := job;
    match c
    case Publish(row) =>
      next, a := s.(log := s.log + [row]), Produce(row);
    case GiveUp(m, reason, retries) =>
      next := s.(dlq := s.dlq + [BuildRecord(m, reason, StageProducer, retries)]);
      a := ProducerGivesUp(m, reason, retries);
    case Process(size, es) =>
      next, running, a := RunBatch(job, s, if s.committed + size <= |s.log| then size else 0, es);
    case Restart =>
      running := new TripStream(job.cfg);
      next, a := s.(startedAt := s.committed, mark := None), Crash(0, [], []);
      assert s.dlq + [] == s.dlq && s.written + [] == s.written;
    case RunDrain(args, sends, partitions, outs, now) =>
      next := RunReplay(s, job.cfg, args, sends, partitions, outs, now);
      a := DrainQueue(args, sends, partitions, outs, now);
  }

  /** The whole pipeline under any sequence of commands is a run of the machine, and so loses and invents nothing. */
  method Drive(cfg: StreamConfig, commands: seq<Command>) returns (s: State, ghost actions: seq<Action>)
    ensures Runs(INITIAL, cfg, actions) && s == After(INITIAL, cfg, actions) && |actions| == |commands|
    ensures Sound(cfg) ==> Inv(s, cfg)
  {
    hide Enabled, Step, Inv;
    var job := new TripStream(cfg);
    s, actions := INITIAL, [];
    for i := 0 to |commands|
      invariant InStep(job, s, cfg) && fresh(job) && s.committed <= |s.log|
      invariant Runs(INITIAL, cfg, actions) && s == After(INITIAL, cfg, actions) && |actions| == i
    {
      ghost var a;
      ghost var before := s;
      s, job, a := Obey(job, s, commands[i]);
      StepCommits(before, cfg, a);
      RunsSnoc(INITIAL, cfg, actions, a);
      actions := actions + [a];
    }
    if Sound(cfg) {
      InitialInv(cfg);
      ZeroSilentLoss(INITIAL, cfg, actions);
    }
  }
}
