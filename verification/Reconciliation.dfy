/** The reconciliation a chaos run ends with, against what really became of its events. */
module Reconciliation {

  type Id = nat

  /** Offsets and counts read at the end of a run and before it. A negative distinct count: inspection failed. */
  datatype Readings = Readings(rawBefore: nat, rawNow: nat, dlqBefore: nat, dlqNow: nat, dlqDistinct: int,
                               tripsBefore: int, tripsNow: int, duplicates: nat)

  datatype Report = Report(expected: int, written: int, quarantined: int, accounted: int, unaccounted: int,
                           overlap: int)

  function Max(a: int, b: int): int { if a >= b then a else b }

  function Min(a: int, b: int): int { if a <= b then a else b }

  function Reconcile(r: Readings): Report {
    var messages, dlqMessages := Max(0, r.rawNow - r.rawBefore), Max(0, r.dlqNow - r.dlqBefore);
    var quarantined := if r.dlqDistinct < 0 then dlqMessages else r.dlqDistinct;
    var expected, written := messages - r.duplicates, r.tripsNow - r.tripsBefore;
    var residual := expected - (written + quarantined);
    Report(expected, written, quarantined, Min(expected, written + quarantined), Max(0, residual), Max(0, -residual))
  }

  function Members(s: seq<Id>): set<Id> { set x | x in s }

  /**
   What happened: the messages Kafka kept, the events that gained a row, and
   the records the dead-letter topic holds, each with the event it quarantines.
   Both may include events of earlier runs: records that were left in the topic,
   and a backlog that a kept checkpoint makes the job consume.
   */
  datatype Run = Run(messages: seq<Id>, written: set<Id>, records: seq<Id>)
  {
    function Events(): set<Id> { Members(messages) }

    function Quarantined(): set<Id> { Members(records) }

    /** Neither written nor quarantined. */
    function Lost(): set<Id> { Events() - written - Quarantined() }

    /** Both. */
    function Both(): set<Id> { written * Quarantined() }

    /** Written or quarantined, but no event of this run. */
    function Foreign(): set<Id> { (written + Quarantined()) - Events() }
  }

  /**
   The readings are true. Every repeat in the topic is a duplicate the producer
   counted, but it also counts duplicates that never reached the topic.
   */
  predicate Reads(r: Readings, run: Run) {
    && r.rawNow - r.rawBefore == |run.messages|
    && r.duplicates >= |run.messages| - |run.Events()|
    && r.tripsNow - r.tripsBefore == |run.written|
    && (if r.dlqDistinct < 0 then r.dlqNow - r.dlqBefore == |run.records| else r.dlqDistinct == |run.Quarantined()|)
  }

  /** Records beyond the first of an event, which only the fallback figure counts. */
  function Repeats(r: Readings, run: Run): int {
    if r.dlqDistinct < 0 then |run.records| - |run.Quarantined()| else 0
  }

  /** Duplicates counted when they were emitted, though Kafka did not keep them. */
  function Unkept(r: Readings, run: Run): int { r.duplicates - (|run.messages| - |run.Events()|) }

  lemma {:induction false} DistinctAreNoMore(s: seq<Id>)
    ensures |Members(s)| <= |s|
  {
    if s != [] {
      DistinctAreNoMore(s[1..]);
      assert Members(s) == Members(s[1..]) + {s[0]};
    }
  }

  lemma Split(a: set<Id>, b: set<Id>)
    ensures |a| == |a * b| + |a - b|
  {
  }

  /** What the residual measures: the lost, less everything counted twice, counted though foreign, or never expected. */
  lemma ResidualIs(r: Readings, run: Run)
    requires Reads(r, run)
    ensures Reconcile(r).expected - Reconcile(r).written - Reconcile(r).quarantined
         == |run.Lost()| - |run.Both()| - |run.Foreign()| - Repeats(r, run) - Unkept(r, run)
    ensures Repeats(r, run) >= 0 && Unkept(r, run) >= 0
  {
    var events, written, quarantined := run.Events(), run.written, run.Quarantined();
    DistinctAreNoMore(run.records);
    DistinctAreNoMore(run.messages);
    var reached := written + quarantined;
    Split(events, reached);
    Split(reached, events);
    assert events * reached == reached * events;
    assert events - reached == events - written - quarantined;
    Split(quarantined, written);
    assert reached == written + (quarantined - written) && quarantined * written == written * quarantined;
  }

  /**
   The loss reported is never more than the real loss, and it is the real loss
   exactly when nothing is lost or nothing hides a loss. Every expected event is
   either accounted for or reported, and the events expected are those there are
   less the duplicates Kafka did not keep.
   */
  lemma LossIsNeverOverstated(r: Readings, run: Run)
    requires Reads(r, run)
    ensures 0 <= Reconcile(r).unaccounted <= |run.Lost()|
    ensures Reconcile(r).unaccounted == |run.Lost()|
       <==> run.Lost() == {} || (run.Both() == {} && run.Foreign() == {} && Repeats(r, run) == 0 && Unkept(r, run) == 0)
    ensures Reconcile(r).accounted + Reconcile(r).unaccounted == Reconcile(r).expected
    ensures Reconcile(r).expected == |run.Events()| - Unkept(r, run)
  {
    hide Reads, Repeats, Unkept, Run.Lost, Run.Both, Run.Foreign;
    ResidualIs(r, run);
    ExpectedIsDistinct(r, run);
  }

  lemma ExpectedIsDistinct(r: Readings, run: Run)
    requires Reads(r, run)
    ensures Reconcile(r).expected == |run.Events()| - Unkept(r, run)
  {
  }

  /** The overlap figure is the overlap exactly when what was lost balances everything else that hides a loss. */
  lemma OverlapIsExactWhenBalanced(r: Readings, run: Run)
    requires Reads(r, run)
    ensures Reconcile(r).overlap == |run.Both()|
       <==> var hidden := |run.Foreign()| + Repeats(r, run) + Unkept(r, run);
            |run.Lost()| == hidden || (run.Both() == {} && |run.Lost()| >= hidden)
  {
    hide Reads, Repeats, Unkept, Run.Lost, Run.Both, Run.Foreign;
    ResidualIs(r, run);
  }

  /** With nothing lost, a clean dead-letter topic and every duplicate kept, the overlap is measured exactly. */
  lemma NothingLost(r: Readings, run: Run)
    requires Reads(r, run) && run.Lost() == {} && run.Foreign() == {} && Repeats(r, run) == 0 && Unkept(r, run) == 0
    ensures Reconcile(r).unaccounted == 0 && Reconcile(r).overlap == |run.Both()|
  {
    hide Reads, Repeats, Unkept, Run.Lost, Run.Both, Run.Foreign;
    ResidualIs(r, run);
  }

  /** Records left from an earlier run can hide a real loss: one event lost, one foreign record, nothing reported. */
  lemma ForeignRecordsHideLoss() returns (r: Readings, run: Run)
    ensures Reads(r, run) && run.Both() == {} && run.Lost() != {} && Reconcile(r).unaccounted == 0
  {
    run := Run([1], {}, [2]);
    r := Readings(0, 1, 0, 1, 1, 0, 0, 0);
    assert run.Events() == {1} && run.Quarantined() == {2};
    assert 1 in run.Lost();
  }

  /** So can a row written for an event of an earlier run. */
  lemma BacklogHidesLoss() returns (r: Readings, run: Run)
    ensures Reads(r, run) && run.Both() == {} && run.Quarantined() == {} && run.Lost() != {}
    ensures Reconcile(r).unaccounted == 0
  {
    run := Run([1], {2}, []);
    r := Readings(0, 1, 0, 0, 0, 0, 1, 0);
    assert run.Events() == {1} && run.Quarantined() == {};
    assert 1 in run.Lost();
  }

  /** So can a duplicate that Kafka did not keep: two events sent, one of them lost, and nothing reported. */
  lemma UnkeptDuplicateHidesLoss() returns (r: Readings, run: Run)
    ensures Reads(r, run) && run.Both() == {} && run.Foreign() == {} && run.Lost() != {}
    ensures Reconcile(r).unaccounted == 0
  {
    run := Run([1, 2], {1}, []);
    r := Readings(0, 2, 0, 0, 0, 0, 1, 1);
    assert run.Events() == {1, 2} && run.Quarantined() == {};
    assert 2 in run.Lost();
  }

  // ------------------------------------------------------------ lag

  ghost predicate Rising(s: seq<int>, first: nat, last: nat)
    requires last < |s|
  {
    forall i | first < i <= last :: s[i - 1] < s[i]
  }

  /** The most steps in a row on which the lag rose. */
  method LongestMonotonicRun(s: seq<int>) returns (best: nat)
    ensures forall i, j | 0 <= i <= j < |s| && Rising(s, i, j) :: j - i <= best
    ensures s != [] ==> exists i, j | 0 <= i <= j < |s| :: Rising(s, i, j) && j - i == best
    ensures s == [] ==> best == 0
  {
    best := 0;
    var run := 0;
    if s == [] { return; }
    ghost var from, last := 0, 0;
    for i := 1 to |s|
      invariant run <= i - 1 && Rising(s, i - 1 - run, i - 1)
      invariant run == i - 1 || s[i - 2 - run] >= s[i - 1 - run]
      invariant forall a, b | 0 <= a <= b < i && Rising(s, a, b) :: b - a <= best
      invariant 0 <= from <= last < i && Rising(s, from, last) && last - from == best
    {
      if s[i] > s[i - 1] {
        run := run + 1;
        if run > best { best, from, last := run, i - run, i; }
      } else {
        run := 0;
      }
      forall a, b | 0 <= a <= b < i + 1 && Rising(s, a, b) ensures b - a <= best {
        if b == i && a < i {
          assert s[i - 1] < s[i];
          assert a >= i - run;
        }
      }
    }
  }

  /** A rise is strict at every step. */
  lemma RisesAtEveryStep(s: seq<int>, first: nat, last: nat)
    requires last < |s|
    ensures Rising(s, first, last) <==> !exists k | first <= k < last :: s[k] >= s[k + 1]
  {
    if Rising(s, first, last) {
      forall k | first <= k < last ensures s[k] < s[k + 1] { assert s[k + 1 - 1] < s[k + 1]; }
    } else {
      var i :| first < i <= last && s[i - 1] >= s[i];
      assert s[i - 1] >= s[i - 1 + 1];
    }
  }
}
