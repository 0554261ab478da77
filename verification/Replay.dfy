/**
 The drain of the dead letter queue. Each record read is re-injected into the
 topic, written directly to the tables, or parked, by the stage that
 quarantined it. The drain reads the queue from its start every time and
 commits no offset, so it takes nothing off the queue.
 */
module Replay {
  import opened Options
  import opened Events
  import opened Dlq
  import opened Seqs
  import opened Retry

  datatype DrainArgs = DrainArgs(limit: int, maxReplays: int, dryRun: bool)

  datatype Route = Reinject | Direct | Park

  function RouteOf(r: DlqRecord, maxReplays: int): Route {
    if r.replayCount >= maxReplays then Park
    else if r.stage == StageCassandraSink || r.stage == StageProducer then Reinject
    else if r.stage == StageLate then Direct
    else Park
  }

  /** `read_all`: a limit other than 0 stops after that many records, but never before the first. */
  function ReadAll(dlq: seq<DlqRecord>, limit: int): seq<DlqRecord> {
    var stop := if limit < 1 then 1 else limit;
    if limit == 0 || |dlq| <= stop then dlq else dlq[..stop]
  }

  function Routed(recs: seq<DlqRecord>, maxReplays: int, route: Route): seq<DlqRecord> {
    if recs == [] then []
    else
      Routed(recs[..|recs| - 1], maxReplays, route) +
      if RouteOf(recs[|recs| - 1], maxReplays) == route then [recs[|recs| - 1]] else []
  }

  /** How sending one record back goes. A failed delivery may have been persisted all the same. */
  datatype SendOutcome = Delivered | Raises | Undelivered(persisted: bool)

  predicate SentBack(r: DlqRecord, s: SendOutcome) { r.originalPayload.Json? && s.Delivered? }

  predicate Persisted(r: DlqRecord, s: SendOutcome) {
    r.originalPayload.Json? && (s.Delivered? || (s.Undelivered? && s.persisted))
  }

  /** The messages the topic gains. */
  function SentMessages(recs: seq<DlqRecord>, sends: seq<SendOutcome>): seq<Message> {
    if recs == [] then []
    else
      var i := |recs| - 1;
      SentMessages(recs[..i], sends) +
      if Persisted(recs[i], Nth(sends, i, Delivered)) then [recs[i].originalPayload] else []
  }

  function CountSent(recs: seq<DlqRecord>, sends: seq<SendOutcome>): nat {
    if recs == [] then 0
    else
      var i := |recs| - 1;
      CountSent(recs[..i], sends) + if SentBack(recs[i], Nth(sends, i, Delivered)) then 1 else 0
  }

  /** Executing statements in order until one raises. */
  function ExecutedWrites(us: seq<Upsert>, outs: seq<Outcome>, now: int): seq<Write> {
    if us == [] then []
    else
      var n := |us| - 1;
      var front := ExecutedWrites(us[..n], outs, now);
      if AllOk(outs, n) && Attempt(outs, n).Landed() then front + [Write(us[n], now)] else front
  }

  predicate AllOk(outs: seq<Outcome>, n: nat) {
    forall i | 0 <= i < n :: Attempt(outs, i).Ok?
  }

  /** The statements the direct write executes; none when the payload, the row or a value raises. */
  function DirectStatements(m: Message): seq<Upsert> {
    if m.Json? && Binds(m) then BuildStatements(m, AllTables()).upserts else []
  }

  predicate WrittenDirectly(m: Message, outs: seq<Outcome>) {
    m.Json? && Binds(m) && AllOk(outs, |DirectStatements(m)|)
  }

  function DirectWrites(recs: seq<DlqRecord>, outs: seq<seq<Outcome>>, now: int): seq<Write> {
    if recs == [] then []
    else
      var i := |recs| - 1;
      DirectWrites(recs[..i], outs, now) +
      ExecutedWrites(DirectStatements(recs[i].originalPayload), Nth(outs, i, []), now)
  }

  function CountDirect(recs: seq<DlqRecord>, outs: seq<seq<Outcome>>): nat {
    if recs == [] then 0
    else
      var i := |recs| - 1;
      CountDirect(recs[..i], outs) + if WrittenDirectly(recs[i].originalPayload, Nth(outs, i, [])) then 1 else 0
  }

  /** The records a direct write stores whole: acceptable, complete, and the three statements succeed. */
  function StoredWhole(recs: seq<DlqRecord>, outs: seq<seq<Outcome>>): set<nat> {
    set i: nat | i < |recs| && Accepted(recs[i].originalPayload) && Complete(recs[i].originalPayload)
                 && (i < |outs| ==> forall k | 0 <= k < 3 && k < |outs[i]| :: outs[i][k].Ok?)
  }

  /** The records sent back with a delivery confirmed. */
  function Confirmed(recs: seq<DlqRecord>, sends: seq<SendOutcome>): set<nat> {
    set i: nat | i < |recs| && recs[i].originalPayload.Json? && (i < |sends| ==> sends[i].Delivered?)
  }

  // ------------------------------------------------------------ the drain

  method ExecuteInOrder(us: seq<Upsert>, outs: seq<Outcome>, now: int) returns (writes: seq<Write>, ok: bool)
    ensures writes == ExecutedWrites(us, outs, now)
    ensures ok == AllOk(outs, |us|)
  {
    writes, ok := [], true;
    var i := 0;
    while i < |us|
      invariant 0 <= i <= |us|
      invariant writes == ExecutedWrites(us[..i], outs, now)
      invariant ok == AllOk(outs, i)
    {
      assert us[..i + 1][..i] == us[..i];
      if ok {
        var outcome := Attempt(outs, i);
        if outcome.Landed() {
          writes := writes + [Write(us[i], now)];
        }
        ok := outcome.Ok?;
      }
      i := i + 1;
    }
    assert us[..|us|] == us;
  }

  /** One record of the direct write. */
  method WriteRecord(m: Message, outs: seq<Outcome>, now: int) returns (writes: seq<Write>, ok: bool)
    ensures writes == ExecutedWrites(DirectStatements(m), outs, now)
    ensures ok == WrittenDirectly(m, outs)
  {
    hide BuildStatements, ExecutedWrites, AllOk;
    if m.Json? && Binds(m) {
      writes, ok := ExecuteInOrder(BuildStatements(m, AllTables()).upserts, outs, now);
    } else {
      NothingExecuted(outs, now);
      writes, ok := [], false;
    }
  }

  lemma NothingExecuted(outs: seq<Outcome>, now: int)
    ensures ExecutedWrites([], outs, now) == []
  {
  }

  method DirectWrite(recs: seq<DlqRecord>, outs: seq<seq<Outcome>>, now: int)
    returns (written: nat, failed: nat, writes: seq<Write>)
    ensures written == CountDirect(recs, outs) && written + failed == |recs|
    ensures writes == DirectWrites(recs, outs, now)
  {
    hide ExecutedWrites, DirectStatements, WrittenDirectly;
    written, failed, writes := 0, 0, [];
    for i := 0 to |recs|
      invariant written == CountDirect(recs[..i], outs) && written + failed == i
      invariant writes == DirectWrites(recs[..i], outs, now)
    {
      assert recs[..i + 1][..i] == recs[..i];
      var done, ok := WriteRecord(recs[i].originalPayload, Nth(outs, i, []), now);
      writes := writes + done;
      if ok {
        written := written + 1;
      } else {
        failed := failed + 1;
      }
    }
    assert recs[..|recs|] == recs;
  }

  method SendBack(recs: seq<DlqRecord>, sends: seq<SendOutcome>)
    returns (reinjected: int, failed: nat, sent: seq<Message>)
    ensures reinjected == CountSent(recs, sends) && reinjected + failed == |recs|
    ensures sent == SentMessages(recs, sends)
  {
    reinjected, failed, sent := 0, 0, [];
    var errors := 0;
    for i := 0 to |recs|
      invariant errors >= 0 && reinjected + failed == i
      invariant reinjected - errors == CountSent(recs[..i], sends)
      invariant sent == SentMessages(recs[..i], sends)
    {
      assert recs[..i + 1][..i] == recs[..i];
      var send := Nth(sends, i, Delivered);
      if recs[i].originalPayload.Json? && !send.Raises? {
        reinjected := reinjected + 1;
        if send.Undelivered? {
          errors := errors + 1;
        }
        if send.Delivered? || send.persisted {
          sent := sent + [recs[i].originalPayload];
        }
      } else {
        failed := failed + 1;
      }
    }
    assert recs[..|recs|] == recs;
    failed := failed + errors;
    reinjected := reinjected - errors;
  }

  datatype DrainReport = DrainReport(recordsRead: nat, reinjected: int, reinjectFailed: nat, directWritten: nat,
                                     directWriteFailed: nat, parked: nat, accountedFor: int, unaccounted: int)

  method RouteAll(recs: seq<DlqRecord>, maxReplays: int)
    returns (reinject: seq<DlqRecord>, direct: seq<DlqRecord>, park: seq<DlqRecord>)
    ensures reinject == Routed(recs, maxReplays, Reinject) && direct == Routed(recs, maxReplays, Direct)
    ensures park == Routed(recs, maxReplays, Park) && |reinject| + |direct| + |park| == |recs|
  {
    reinject, direct, park := [], [], [];
    for i := 0 to |recs|
      invariant reinject == Routed(recs[..i], maxReplays, Reinject)
      invariant direct == Routed(recs[..i], maxReplays, Direct)
      invariant park == Routed(recs[..i], maxReplays, Park)
      invariant |reinject| + |direct| + |park| == i
    {
      assert recs[..i + 1][..i] == recs[..i];
      var r := recs[i];
      if r.replayCount >= maxReplays {
        park := park + [r];
      } else if r.stage == StageCassandraSink || r.stage == StageProducer {
        reinject := reinject + [r];
      } else if r.stage == StageLate {
        direct := direct + [r];
      } else {
        park := park + [r];
      }
    }
    assert recs[..|recs|] == recs;
  }

  method Drain(dlq: seq<DlqRecord>, args: DrainArgs, sends: seq<SendOutcome>, outs: seq<seq<Outcome>>, now: int)
    returns (report: Option<DrainReport>, sent: seq<Message>, writes: seq<Write>, parked: seq<DlqRecord>)
    ensures var recs := ReadAll(dlq, args.limit);
            if recs == [] || args.dryRun then report == None && sent == [] && writes == [] && parked == []
            else
              var reinject, direct := Routed(recs, args.maxReplays, Reinject), Routed(recs, args.maxReplays, Direct);
              && sent == SentMessages(reinject, sends)
              && writes == DirectWrites(direct, outs, now)
              && parked == Routed(recs, args.maxReplays, Park)
              && report.Some?
              && report.value.reinjected == |Confirmed(reinject, sends)|
              && report.value.directWritten == |StoredWhole(direct, outs)|
              && report.value.reinjectFailed == |reinject| - |Confirmed(reinject, sends)|
              && report.value.directWriteFailed == |direct| - |StoredWhole(direct, outs)|
              && report.value.recordsRead == |recs| && report.value.parked == |parked|
              && report.value.accountedFor + report.value.unaccounted == |recs|
              && report.value.unaccounted == report.value.reinjectFailed + report.value.directWriteFailed
  {
    var recs := ReadAll(dlq, args.limit);
    sent, writes, parked, report := [], [], [], None;
    if recs == [] {
      return;
    }
    var reinject, direct, park := RouteAll(recs, args.maxReplays);
    hide Routed, SentMessages, DirectWrites, CountSent, CountDirect, StoredWhole, Confirmed;
    if args.dryRun {
      return;
    }
    DirectCount(direct, outs);
    SentCount(reinject, sends);
    var reinjected, reinjectFailed, directWritten, directFailed;
    reinjected, reinjectFailed, sent := SendBack(reinject, sends);
    directWritten, directFailed, writes := DirectWrite(direct, outs, now);
    parked := park;
    var accounted := reinjected + directWritten + |park|;
    report := Some(DrainReport(|recs|, reinjected, reinjectFailed, directWritten, directFailed, |park|, accounted,
                               |recs| - accounted));
  }

  // ------------------------------------------------------------ what a drain achieves

  lemma {:induction false} RoutedMembers(recs: seq<DlqRecord>, maxReplays: int, route: Route, r: DlqRecord)
    ensures r in Routed(recs, maxReplays, route) <==> r in recs && RouteOf(r, maxReplays) == route
  {
    if recs != [] {
      RoutedMembers(recs[..|recs| - 1], maxReplays, route, r);
      assert recs == recs[..|recs| - 1] + [recs[|recs| - 1]];
    }
  }

  /** Which records go where: a record at the ceiling is parked whatever its stage. */
  lemma RoutesByStage(recs: seq<DlqRecord>, maxReplays: int, r: DlqRecord)
    requires r in recs
    ensures r in Routed(recs, maxReplays, Reinject)
       <==> r.replayCount < maxReplays && r.stage in {StageCassandraSink, StageProducer}
    ensures r in Routed(recs, maxReplays, Direct) <==> r.replayCount < maxReplays && r.stage == StageLate
    ensures r in Routed(recs, maxReplays, Park) <==> r.replayCount >= maxReplays || r.stage == StageParse
  {
    RoutedMembers(recs, maxReplays, Reinject, r);
    RoutedMembers(recs, maxReplays, Direct, r);
    RoutedMembers(recs, maxReplays, Park, r);
  }

  /** A drain reads from the front: all of the queue, or as much as the limit, and never less than one record. */
  lemma ReadsFromTheFront(dlq: seq<DlqRecord>, limit: int)
    ensures ReadAll(dlq, limit) <= dlq
    ensures limit == 0 ==> ReadAll(dlq, limit) == dlq
    ensures limit != 0 ==> (|dlq| > 0 ==> |ReadAll(dlq, limit)| >= 1) && (limit > 0 ==> |ReadAll(dlq, limit)| <= limit)
    ensures ReadAll(dlq, limit) < dlq ==> |ReadAll(dlq, limit)| == if limit < 0 then 1 else limit
  {
  }

  /** Every message sent is the payload of a record; and every record whose send is persisted is sent. */
  lemma {:induction false} SentMembers(recs: seq<DlqRecord>, sends: seq<SendOutcome>, m: Message)
    ensures m in SentMessages(recs, sends) <==>
            exists i | 0 <= i < |recs| :: recs[i].originalPayload == m && Persisted(recs[i], Nth(sends, i, Delivered))
  {
    if recs != [] {
      var n := |recs| - 1;
      SentMembers(recs[..n], sends, m);
      if m in SentMessages(recs[..n], sends) {
        var i :| 0 <= i < n && recs[..n][i].originalPayload == m && Persisted(recs[..n][i], Nth(sends, i, Delivered));
        assert recs[i].originalPayload == m;
      }
      if i :| 0 <= i < n && recs[i].originalPayload == m && Persisted(recs[i], Nth(sends, i, Delivered)) {
        assert recs[..n][i].originalPayload == m;
      }
    }
  }

  /** A message reaches the topic if it is JSON and its delivery is confirmed, or fails after it was persisted. */
  lemma SentExactly(recs: seq<DlqRecord>, sends: seq<SendOutcome>, m: Message)
    ensures m in SentMessages(recs, sends) <==>
            && m.Json?
            && exists i: nat :: (i < |recs| && recs[i].originalPayload == m
                                 && (i < |sends| ==> sends[i].Delivered? || sends[i] == Undelivered(true)))
  {
    SentMembers(recs, sends, m);
  }

  /** Statement `k` is executed if all before it succeeded, and lands if it succeeds or fails after the write. */
  predicate Reaches(outs: seq<Outcome>, k: nat) {
    && (forall j | 0 <= j < k && j < |outs| :: outs[j].Ok?)
    && (k < |outs| ==> outs[k].Ok? || outs[k].landed)
  }

  lemma ReachesMeans(outs: seq<Outcome>, k: nat)
    ensures Reaches(outs, k) <==> AllOk(outs, k) && Attempt(outs, k).Landed()
  {
    assert forall j: nat | j < |outs| :: Attempt(outs, j) == outs[j];
    assert forall j: nat | j >= |outs| :: Attempt(outs, j) == Ok;
    if AllOk(outs, k) {
      assert forall j | 0 <= j < k && j < |outs| :: Attempt(outs, j).Ok?;
    }
  }

  lemma {:induction false} ExecutedExactly(us: seq<Upsert>, outs: seq<Outcome>, now: int, u: Upsert)
    ensures u in Upserts(ExecutedWrites(us, outs, now)) <==> exists k: nat :: k < |us| && us[k] == u && Reaches(outs, k)
  {
    hide Reaches, AllOk, Attempt;
    if us != [] {
      var n := |us| - 1;
      ExecutedExactly(us[..n], outs, now, u);
      ReachesMeans(outs, n);
      UpsertsSnoc(ExecutedWrites(us[..n], outs, now), Write(us[n], now));
      hide ExecutedWrites, Upserts;
      var before := exists k: nat :: k < n && us[..n][k] == u && Reaches(outs, k);
      if k: nat :| k < n && us[k] == u && Reaches(outs, k) {
        assert us[..n][k] == u;
      }
      assert before ==> exists k: nat :: k < |us| && us[k] == u && Reaches(outs, k);
    }
  }

  /** The order in which a record's statements are executed. */
  function Position(t: Table): nat {
    match t case TripsById => 0 case TripsByDriverDay => 1 case TripsByCityHour => 2
  }

  lemma StatementsInOrder(m: Message, k: nat)
    requires Accepted(m) && Complete(m)
    ensures |DirectStatements(m)| == 3
    ensures k < 3 ==> exists t :: Position(t) == k && DirectStatements(m)[k] == UpsertOf(t, m)
    ensures forall t :: DirectStatements(m)[Position(t)] == UpsertOf(t, m)
  {
    hide UpsertOf, Accepted, Complete;
    MessageIsJson(m);
    DirectWriteBuilds(m);
    TablesAreThree(AllTables());
    assert k == 0 ==> Position(TripsById) == k;
    assert k == 1 ==> Position(TripsByDriverDay) == k;
    assert k == 2 ==> Position(TripsByCityHour) == k;
  }

  /** What one record puts in the tables: its statements up to the first failure, and that one if it landed. */
  lemma RecordWritesExactly(m: Message, outs: seq<Outcome>, now: int, u: Upsert)
    ensures u in Upserts(ExecutedWrites(DirectStatements(m), outs, now)) <==>
            Accepted(m) && Complete(m) && exists t :: u == UpsertOf(t, m) && Reaches(outs, Position(t))
  {
    hide UpsertOf, Accepted, Complete, Reaches, ExecutedWrites;
    ExecutedExactly(DirectStatements(m), outs, now, u);
    MessageIsJson(m);
    if m.Json? {
      DirectWriteBuilds(m);
    }
    if Accepted(m) && Complete(m) {
      StatementsInOrder(m, 0);
      if k: nat :| k < 3 && DirectStatements(m)[k] == u && Reaches(outs, k) {
        StatementsInOrder(m, k);
      }
      if t :| u == UpsertOf(t, m) && Reaches(outs, Position(t)) {
        assert DirectStatements(m)[Position(t)] == u && Position(t) < 3;
      }
    }
  }

  /**
   Exactly what a direct write puts in the tables. A statement that fails ends its
   record, so the tables after it in the order get nothing.
   */
  lemma {:induction false} DirectWritesExactly(recs: seq<DlqRecord>, outs: seq<seq<Outcome>>, now: int, u: Upsert)
    ensures u in Upserts(DirectWrites(recs, outs, now)) <==>
            exists i: nat, t :: i < |recs| && Puts(recs[i].originalPayload, Nth(outs, i, []), t, u)
  {
    hide Puts, ExecutedWrites, DirectStatements, Upserts;
    if recs == [] {
      assert Upserts([]) == {} by { NoUpserts(); }
    } else {
      var n := |recs| - 1;
      var m, script := recs[n].originalPayload, Nth(outs, n, []);
      DirectWritesExactly(recs[..n], outs, now, u);
      UpsertsAppend(DirectWrites(recs[..n], outs, now), ExecutedWrites(DirectStatements(m), script, now));
      PutsMeans(m, script, now, u);
      hide DirectWrites;
      if i: nat, t :| i < n && Puts(recs[..n][i].originalPayload, Nth(outs, i, []), t, u) {
        assert Puts(recs[i].originalPayload, Nth(outs, i, []), t, u);
      }
      if i: nat, t :| i < n && Puts(recs[i].originalPayload, Nth(outs, i, []), t, u) {
        assert Puts(recs[..n][i].originalPayload, Nth(outs, i, []), t, u);
      }
    }
  }

  lemma NoUpserts()
    ensures Upserts([]) == {}
  {
  }

  /** The statement of `m` for table `t` is `u` and lands. */
  predicate Puts(m: Message, outs: seq<Outcome>, t: Table, u: Upsert) {
    Accepted(m) && Complete(m) && u == UpsertOf(t, m) && Reaches(outs, Position(t))
  }

  lemma PutsMeans(m: Message, outs: seq<Outcome>, now: int, u: Upsert)
    ensures u in Upserts(ExecutedWrites(DirectStatements(m), outs, now)) <==> exists t :: Puts(m, outs, t, u)
  {
    hide Complete, UpsertOf, Reaches, Position, Upserts, ExecutedWrites, DirectStatements;
    RecordWritesExactly(m, outs, now, u);
    if t :| Accepted(m) && Complete(m) && u == UpsertOf(t, m) && Reaches(outs, Position(t)) {
      assert Puts(m, outs, t, u);
    }
  }

  /** Direct writes are upserts of the records' own events. */
  lemma DirectWritesOnly(recs: seq<DlqRecord>, outs: seq<seq<Outcome>>, now: int, u: Upsert)
    requires u in Upserts(DirectWrites(recs, outs, now))
    ensures exists r <- recs, t <- AllTables() ::
              Accepted(r.originalPayload) && Complete(r.originalPayload) && u == UpsertOf(t, r.originalPayload)
  {
    hide Upserts, DirectWrites, Reaches;
    DirectWritesExactly(recs, outs, now, u);
    var i: nat, t :| i < |recs| && Puts(recs[i].originalPayload, Nth(outs, i, []), t, u);
    assert recs[i] in recs && t in AllTables();
  }

  /** A record whose event is complete and whose statements succeed is written to all three tables. */
  lemma DirectWritesReach(recs: seq<DlqRecord>, outs: seq<seq<Outcome>>, now: int, i: nat, t: Table)
    requires i < |recs| && AllOk(Nth(outs, i, []), 3)
    requires Accepted(recs[i].originalPayload) && Complete(recs[i].originalPayload)
    ensures UpsertOf(t, recs[i].originalPayload) in Upserts(DirectWrites(recs, outs, now))
  {
    hide UpsertOf, Complete, DirectWrites, Upserts, Reaches;
    DirectWritesExactly(recs, outs, now, UpsertOf(t, recs[i].originalPayload));
    ReachesMeans(Nth(outs, i, []), Position(t));
    assert Puts(recs[i].originalPayload, Nth(outs, i, []), t, UpsertOf(t, recs[i].originalPayload));
  }

  lemma MessageIsJson(m: Message)
    ensures Accepted(m) ==> m.Json?
  {
  }

  lemma TableListed(t: Table)
    ensures t in AllTables()
  {
  }

  // ------------------------------------------------------------ what the report's figures count

  lemma {:induction false} DirectCount(recs: seq<DlqRecord>, outs: seq<seq<Outcome>>)
    ensures CountDirect(recs, outs) == |StoredWhole(recs, outs)|
  {
    hide Accepted, Complete, WrittenDirectly;
    if recs != [] {
      var n := |recs| - 1;
      DirectCount(recs[..n], outs);
      WholeOrNot(recs, outs);
      var front := StoredWhole(recs[..n], outs);
      assert StoredWhole(recs, outs) == if n in StoredWhole(recs, outs) then front + {n} else front;
    } else {
      assert StoredWhole(recs, outs) == {};
    }
  }

  lemma WholeOrNot(recs: seq<DlqRecord>, outs: seq<seq<Outcome>>)
    requires recs != []
    ensures WrittenDirectly(recs[|recs| - 1].originalPayload, Nth(outs, |recs| - 1, []))
       <==> |recs| - 1 in StoredWhole(recs, outs)
  {
    var n, m := |recs| - 1, recs[|recs| - 1].originalPayload;
    var script := Nth(outs, n, []);
    MessageIsJson(m);
    if m.Json? {
      DirectWriteBuilds(m);
      ThreeStatements(m);
    }
    assert forall k: nat | k < 3 && k < |script| :: Attempt(script, k) == script[k];
    assert forall k: nat | k >= |script| :: Attempt(script, k).Ok?;
    assert n < |outs| ==> script == outs[n];
  }

  lemma ThreeStatements(m: Message)
    requires m.Json?
    ensures Binds(m) ==> |DirectStatements(m)| == 3
  {
    TablesAreThree(AllTables());
  }

  function Below(n: nat): (r: set<nat>)
    ensures |r| == n && forall i: nat :: i in r <==> i < n
  {
    if n == 0 then {} else Below(n - 1) + {n - 1}
  }

  /** A direct write that reports no failure has put all three upserts of every record in the tables. */
  lemma DirectNoneFailed(recs: seq<DlqRecord>, outs: seq<seq<Outcome>>, now: int, i: nat, t: Table)
    requires CountDirect(recs, outs) == |recs| && i < |recs|
    ensures Accepted(recs[i].originalPayload)
    ensures UpsertOf(t, recs[i].originalPayload) in Upserts(DirectWrites(recs, outs, now))
  {
    hide Accepted, Complete, UpsertOf, CountDirect, DirectWrites;
    DirectCount(recs, outs);
    assert StoredWhole(recs, outs) <= Below(|recs|);
    SameSizeSame(StoredWhole(recs, outs), Below(|recs|));
    assert i in StoredWhole(recs, outs);
    assert AllOk(Nth(outs, i, []), 3);
    DirectWritesReach(recs, outs, now, i, t);
  }

  lemma SameSizeSame(a: set<nat>, b: set<nat>)
    requires a <= b && |a| == |b|
    ensures a == b
  {
    assert |b| == |a| + |b - a| by { assert b == a + (b - a); }
    assert b - a == {};
  }

  lemma {:induction false} SentCount(recs: seq<DlqRecord>, sends: seq<SendOutcome>)
    ensures CountSent(recs, sends) == |Confirmed(recs, sends)|
  {
    if recs != [] {
      var n := |recs| - 1;
      SentCount(recs[..n], sends);
      var front := Confirmed(recs[..n], sends);
      assert Confirmed(recs, sends) == if n in Confirmed(recs, sends) then front + {n} else front;
    } else {
      assert Confirmed(recs, sends) == {};
    }
  }

  /** Payloads, in order. */
  function Payloads(recs: seq<DlqRecord>): seq<Message> {
    seq(|recs|, i requires 0 <= i < |recs| => recs[i].originalPayload)
  }

  lemma {:induction false} AllConfirmed(recs: seq<DlqRecord>, sends: seq<SendOutcome>)
    requires forall i | 0 <= i < |recs| :: i in Confirmed(recs, sends)
    ensures SentMessages(recs, sends) == Payloads(recs)
  {
    if recs != [] {
      var n := |recs| - 1;
      forall i | 0 <= i < n ensures i in Confirmed(recs[..n], sends) { assert i in Confirmed(recs, sends); }
      AllConfirmed(recs[..n], sends);
      assert n in Confirmed(recs, sends);
      assert Payloads(recs) == Payloads(recs[..n]) + [recs[n].originalPayload];
    }
  }

  /** A re-injection that reports no failure has sent every payload once, in order. */
  lemma SendsNoneFailed(recs: seq<DlqRecord>, sends: seq<SendOutcome>)
    requires CountSent(recs, sends) == |recs|
    ensures SentMessages(recs, sends) == Payloads(recs)
  {
    hide CountSent, SentMessages;
    SentCount(recs, sends);
    assert Confirmed(recs, sends) <= Below(|recs|);
    SameSizeSame(Confirmed(recs, sends), Below(|recs|));
    AllConfirmed(recs, sends);
  }
}
