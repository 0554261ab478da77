/** What the backfill and the rollup promise of the stage table. */
module RollupTheorems {
  import opened Options
  import opened Cities
  import opened Seqs
  import opened Rollup

  // ------------------------------------------------------------ which cells a walk reads

  lemma StepsCount(start: int, end: int)
    requires start < end
    ensures start + (Steps(start, end) - 1) * HOUR < end <= start + Steps(start, end) * HOUR
  {
  }

  /** From a whole hour, the walk visits exactly the whole hours of the window. */
  lemma WalkVisitsTheWindow(start: int, end: int, hour: int)
    requires start % HOUR == 0
    ensures (exists i | 0 <= i < Steps(start, end) :: hour == start + i * HOUR)
       <==> start <= hour < end && hour % HOUR == 0
  {
    if start < end { StepsCount(start, end); }
    if start <= hour < end && hour % HOUR == 0 {
      var i := hour / HOUR - start / HOUR;
      assert hour == start + i * HOUR;
      assert 0 <= i < Steps(start, end);
    }
    forall i | 0 <= i < Steps(start, end) && hour == start + i * HOUR ensures start <= hour < end && hour % HOUR == 0 {
      assert hour % HOUR == (start + i * HOUR) % HOUR;
    }
  }

  /** The walk takes the planned number of steps exactly when the window is a whole number of hours, else one more. */
  lemma StepsArePlanned(start: int, end: int)
    requires PlanWindow(start, end).Planned?
    ensures var planned := PlanWindow(start, end).hours;
      && (Steps(start, end) == planned <==> (end - start) % HOUR == 0)
      && (Steps(start, end) == planned || Steps(start, end) == planned + 1)
      && planned <= MAX_HOURS
  {
  }

  lemma {:induction false} PayloadOfNoCells(cells: Cells, hour: int, n: nat)
    requires n <= |CITY_IDS| && forall city :: CellKey(city, hour) !in cells
    ensures Payload(cells, hour, n) == []
  {
    if n > 0 { PayloadOfNoCells(cells, hour, n - 1); }
  }

  lemma KeysAreWholeHours(cells: Cells, key: CellKey)
    requires WellFormed(cells)
    ensures key in cells ==> key.hour % HOUR == 0
  {
  }

  /** From anything but a whole hour, the walk reads nothing and changes nothing. */
  lemma {:induction false} UnalignedReadsNothing(stage: Stage, cells: Cells, start: int, k: nat, clock: seq<int>)
    requires WellFormed(cells) && start % HOUR != 0
    ensures Walked(stage, cells, start, k, clock) == stage
    ensures Tally(cells, start, k) == Finished(0, 0, k)
  {
    if k > 0 {
      UnalignedReadsNothing(stage, cells, start, k - 1, clock);
      var hour := start + (k - 1) * HOUR;
      assert hour % HOUR != 0;
      forall city ensures CellKey(city, hour) !in cells {
        KeysAreWholeHours(cells, CellKey(city, hour));
      }
      PayloadOfNoCells(cells, hour, |CITY_IDS|);
    }
  }

  lemma {:induction false} TallyCounts(cells: Cells, start: int, k: nat)
    ensures var r := Tally(cells, start, k);
      r.emptyHours <= k && r.rowsRead == r.rowsLoaded && (r.rowsRead == 0 <==> r.emptyHours == k)
  {
    hide HourRows;
    if k > 0 { TallyCounts(cells, start, k - 1); }
  }

  /**
   The empty-backfill alert compares the empty hours with the planned ones. Over
   whole hours it says that nothing was read. Over any other window it stays
   silent then, and speaks when exactly one hour had rows.
   */
  lemma EmptyAlert(cells: Cells, start: int, end: int)
    requires PlanWindow(start, end).Planned?
    ensures var r, planned := Tally(cells, start, Steps(start, end)), PlanWindow(start, end).hours;
      && ((end - start) % HOUR == 0 ==> (r.emptyHours == planned <==> r.rowsRead == 0))
      && ((end - start) % HOUR != 0 ==> (r.emptyHours == planned <==> Steps(start, end) - r.emptyHours == 1))
      && ((end - start) % HOUR != 0 && r.rowsRead == 0 ==> r.emptyHours != planned)
  {
    hide Tally;
    TallyCounts(cells, start, Steps(start, end));
    StepsArePlanned(start, end);
  }

  // ------------------------------------------------------------ windows compose

  lemma {:induction false} WalksCompose(stage: Stage, cells: Cells, start: int, j: nat, k: nat, first: seq<int>,
                                        second: seq<int>)
    requires |first| == j
    ensures Walked(Walked(stage, cells, start, j, first), cells, start + j * HOUR, k, second)
         == Walked(stage, cells, start, j + k, first + second)
  {
    hide Loaded, HourRows;
    if k > 0 {
      WalksCompose(stage, cells, start, j, k - 1, first, second);
      assert start + j * HOUR + (k - 1) * HOUR == start + (j + k - 1) * HOUR;
    } else {
      WalkUsesItsClock(stage, cells, start, j, first, second);
    }
  }

  lemma {:induction false} WalkUsesItsClock(stage: Stage, cells: Cells, start: int, j: nat, clock: seq<int>,
                                            more: seq<int>)
    requires j <= |clock|
    ensures Walked(stage, cells, start, j, clock) == Walked(stage, cells, start, j, clock + more)
  {
    hide Loaded, HourRows;
    if j > 0 { WalkUsesItsClock(stage, cells, start, j - 1, clock, more); }
  }

  /** Backfilling [a, b) and then [b, c) is backfilling [a, c), when b is a whole number of hours after a. */
  lemma BackfillsCompose(stage: Stage, cells: Cells, a: int, b: int, c: int, first: seq<int>, second: seq<int>)
    requires a <= b <= c && (b - a) % HOUR == 0 && |first| == Steps(a, b)
    ensures Walked(Walked(stage, cells, a, Steps(a, b), first), cells, b, Steps(b, c), second)
         == Walked(stage, cells, a, Steps(a, c), first + second)
  {
    hide Walked;
    var j := Steps(a, b);
    assert b == a + j * HOUR;
    assert Steps(a, c) == j + Steps(b, c);
    WalksCompose(stage, cells, a, j, Steps(b, c), first, second);
  }

  // ------------------------------------------------------------ re-running changes only loaded_at

  /** The table without `loaded_at`. */
  function Core(stage: Stage): Stage { map id | id in stage :: stage[id].(loadedAt := 0) }

  /** All the rows a walk reads, in order. */
  function WindowRows(cells: Cells, start: int, k: nat): seq<Value> {
    if k == 0 then [] else WindowRows(cells, start, k - 1) + HourRows(cells, start + (k - 1) * HOUR)
  }

  lemma PutCore(stage: Stage, v: Value, now: int)
    ensures Core(Put(stage, v, now)) == Put(Core(stage), v, 0)
  {
  }

  lemma {:induction false} LoadedCore(stage: Stage, payload: seq<Value>, now: int)
    ensures Core(Loaded(stage, payload, now)) == Loaded(Core(stage), payload, 0)
  {
    hide Put, Core;
    if payload != [] {
      LoadedCore(stage, payload[..|payload| - 1], now);
      PutCore(Loaded(stage, payload[..|payload| - 1], now), payload[|payload| - 1], now);
    }
  }

  lemma {:induction false} WalkedCore(stage: Stage, cells: Cells, start: int, k: nat, clock: seq<int>)
    ensures Core(Walked(stage, cells, start, k, clock)) == Loaded(Core(stage), WindowRows(cells, start, k), 0)
  {
    hide Loaded, HourRows, Core;
    if k > 0 {
      var before := Walked(stage, cells, start, k - 1, clock);
      var rows := HourRows(cells, start + (k - 1) * HOUR);
      WalkedCore(stage, cells, start, k - 1, clock);
      LoadedCore(before, rows, Nth(clock, k - 1, 0));
      LoadedAppend(Core(stage), WindowRows(cells, start, k - 1), rows, 0);
    } else {
      LoadedNothing(Core(stage), 0);
    }
  }

  function Ids(payload: seq<Value>): set<nat> { set i | 0 <= i < |payload| :: payload[i].trip.id }

  /** The last row of a trip. */
  function LastOf(payload: seq<Value>, id: nat): Trip
    requires id in Ids(payload)
  {
    var last := payload[|payload| - 1].trip;
    if last.id == id then last
    else
      IdsOfInit(payload);
      LastOf(payload[..|payload| - 1], id)
  }

  lemma IdsOfInit(payload: seq<Value>)
    requires payload != []
    ensures Ids(payload) == Ids(payload[..|payload| - 1]) + {payload[|payload| - 1].trip.id}
  {
  }

  /**
   What loading leaves of one trip: nothing new, or its last row's columns beside
   the others, which are those the table had, or of the first row of a new trip.
   */
  lemma {:induction false} LoadedAt(stage: Stage, payload: seq<Value>, now: int, id: nat)
    ensures id in Loaded(stage, payload, now) <==> id in stage || id in Ids(payload)
    ensures id in stage && id !in Ids(payload) ==> Loaded(stage, payload, now)[id] == stage[id]
    ensures id in stage ==>
      && Loaded(stage, payload, now)[id].city == stage[id].city
      && Loaded(stage, payload, now)[id].detail == stage[id].detail
    ensures id in Ids(payload) ==>
      var row, last := Loaded(stage, payload, now)[id], LastOf(payload, id);
      row.eventTime == last.eventTime && row.fare == last.fare && row.status == last.status && row.loadedAt == now
    ensures id !in stage ==> forall i | 0 <= i < |payload| && IsFirst(payload, i) && payload[i].trip.id == id ::
      var row := Loaded(stage, payload, now)[id];
      row.city == payload[i].city && row.detail == payload[i].trip.detail
  {
    if payload != [] {
      var init := payload[..|payload| - 1];
      LoadedAt(stage, init, now, id);
      IdsOfInit(payload);
      forall i | 0 <= i < |init| && IsFirst(payload, i) ensures IsFirst(init, i) {}
    }
  }

  /** No earlier value of the payload names the trip. */
  predicate IsFirst(payload: seq<Value>, i: nat)
    requires i < |payload|
  {
    forall j | 0 <= j < i :: payload[j].trip.id != payload[i].trip.id
  }

  lemma LoadedTwice(stage: Stage, payload: seq<Value>)
    ensures Loaded(Loaded(stage, payload, 0), payload, 0) == Loaded(stage, payload, 0)
  {
    var once, twice := Loaded(stage, payload, 0), Loaded(Loaded(stage, payload, 0), payload, 0);
    forall id ensures id in once <==> id in twice
              ensures id in once ==> once[id] == twice[id] {
      LoadedAt(stage, payload, 0, id);
      LoadedAt(once, payload, 0, id);
    }
  }

  /** Running a window again, at any later time, changes `loaded_at` and nothing else. */
  lemma RerunChangesOnlyLoadedAt(stage: Stage, cells: Cells, start: int, k: nat, first: seq<int>, second: seq<int>)
    ensures Core(Walked(Walked(stage, cells, start, k, first), cells, start, k, second))
         == Core(Walked(stage, cells, start, k, first))
  {
    hide Core, Walked, Loaded, WindowRows;
    WalkedCore(stage, cells, start, k, first);
    WalkedCore(Walked(stage, cells, start, k, first), cells, start, k, second);
    LoadedTwice(Core(stage), WindowRows(cells, start, k));
  }

  // ------------------------------------------------------------ drift

  ghost predicate DistinctIds(payload: seq<Value>) {
    forall i, j | 0 <= i < j < |payload| :: payload[i].trip.id != payload[j].trip.id
  }

  lemma {:induction false} IdsOfDistinct(payload: seq<Value>)
    ensures |Ids(payload)| <= |payload|
    ensures DistinctIds(payload) ==> |Ids(payload)| == |payload|
  {
    if payload != [] {
      var init, last := payload[..|payload| - 1], payload[|payload| - 1].trip.id;
      IdsOfDistinct(init);
      IdsOfInit(payload);
      if DistinctIds(payload) {
        assert DistinctIds(init) && last !in Ids(init);
      }
    }
  }

  /** Rows the table holds for the hour of trips the extraction did not find. */
  function Stale(stage: Stage, payload: seq<Value>, hour: int): set<nat> { InHour(stage, hour) - Ids(payload) }

  lemma {:induction false} LastIsInPayload(payload: seq<Value>, id: nat) returns (i: nat)
    requires id in Ids(payload)
    ensures i < |payload| && LastOf(payload, id) == payload[i].trip && payload[i].trip.id == id
  {
    if payload[|payload| - 1].trip.id == id {
      i := |payload| - 1;
    } else {
      IdsOfInit(payload);
      i := LastIsInPayload(payload[..|payload| - 1], id);
    }
  }

  ghost predicate AllInHour(payload: seq<Value>, hour: int) {
    forall i | 0 <= i < |payload| :: hour <= payload[i].trip.eventTime < hour + HOUR
  }

  lemma InHourAfterLoad(stage: Stage, payload: seq<Value>, hour: int, now: int)
    requires AllInHour(payload, hour)
    ensures InHour(Loaded(stage, payload, now), hour) == Ids(payload) + Stale(stage, payload, hour)
  {
    hide Loaded, Ids;
    forall id ensures id in InHour(Loaded(stage, payload, now), hour)
                 <==> id in Ids(payload) || id in Stale(stage, payload, hour) {
      LoadedAt(stage, payload, now, id);
      if id in Ids(payload) { var i := LastIsInPayload(payload, id); }
    }
  }

  /** Drift is the trips extracted more than once less the stale rows, so it is none exactly when those balance. */
  lemma DriftIs(stage: Stage, payload: seq<Value>, hour: int, now: int)
    requires AllInHour(payload, hour)
    ensures |payload| - |InHour(Loaded(stage, payload, now), hour)|
         == (|payload| - |Ids(payload)|) - |Stale(stage, payload, hour)|
  {
    hide Loaded, Ids, AllInHour;
    InHourAfterLoad(stage, payload, hour, now);
  }

  // ------------------------------------------------------------ histories of loads

  /** What happens to the two stores: Cassandra gains rows, an hour is rolled up, a window is backfilled. */
  datatype Event = Grow(cells: Cells) | RollUp(hour: int, now: int) | Backfill(start: int, end: int, clock: seq<int>)

  datatype Stores = Stores(cells: Cells, stage: Stage)

  predicate Holds(cells: Cells, city: string, trip: Trip, hour: int) {
    CellKey(city, hour) in cells && trip in cells[CellKey(city, hour)]
  }

  /** A trip is in one city and one hour only, as trips do not move. */
  ghost predicate OneHome(cells: Cells) {
    forall city, hour, trip, city', hour', trip' ::
      Holds(cells, city, trip, hour) && Holds(cells, city', trip', hour') && trip.id == trip'.id
      ==> city == city' && hour == hour' && trip == trip'
  }

  ghost predicate Extends(later: Cells, earlier: Cells) {
    forall city, hour, trip :: Holds(earlier, city, trip, hour) ==> Holds(later, city, trip, hour)
  }

  /** Every row of the stage is, in the columns the rollup compares, a row Cassandra holds for a city that is read. */
  ghost predicate Faithful(s: Stores) {
    forall id | id in s.stage :: HasSource(s.cells, id, s.stage[id].eventTime)
  }

  ghost predicate HasSource(cells: Cells, id: nat, eventTime: int) {
    exists c, hour, trip | 0 <= c < |CITY_IDS| ::
      Holds(cells, CITY_IDS[c], trip, hour) && trip.id == id && trip.eventTime == eventTime
  }

  function Next(s: Stores, e: Event): Stores {
    match e
    case Grow(cells) => s.(cells := cells)
    case RollUp(hour, now) => s.(stage := Loaded(s.stage, HourRows(s.cells, hour), now))
    case Backfill(start, end, clock) => s.(stage := Walked(s.stage, s.cells, start, Steps(start, end), clock))
  }

  ghost predicate Allowed(s: Stores, e: Event) {
    e.Grow? ==> WellFormed(e.cells) && OneHome(e.cells) && Extends(e.cells, s.cells)
  }

  ghost predicate Inv(s: Stores) { WellFormed(s.cells) && OneHome(s.cells) && Faithful(s) }

  ghost predicate History(s: Stores, events: seq<Event>)
    decreases |events|
  {
    events != [] ==> Allowed(s, events[0]) && History(Next(s, events[0]), events[1..])
  }

  function After(s: Stores, events: seq<Event>): Stores
    decreases |events|
  {
    if events == [] then s else After(Next(s, events[0]), events[1..])
  }

  /** Every value of a payload comes from its city's cell. */
  lemma {:induction false} PayloadSource(cells: Cells, hour: int, n: nat, i: nat) returns (c: nat)
    requires n <= |CITY_IDS| && i < |Payload(cells, hour, n)|
    ensures c < n && Payload(cells, hour, n)[i].city == CITY_IDS[c]
    ensures Holds(cells, CITY_IDS[c], Payload(cells, hour, n)[i].trip, hour)
  {
    var init := Payload(cells, hour, n - 1);
    if i < |init| {
      c := PayloadSource(cells, hour, n - 1, i);
    } else {
      c := n - 1;
    }
  }

  lemma IdsOfBoth(a: seq<Value>, b: seq<Value>)
    ensures Ids(a) <= Ids(a + b) && Ids(b) <= Ids(a + b)
  {
    forall id | id in Ids(b) ensures id in Ids(a + b) {
      var i :| 0 <= i < |b| && b[i].trip.id == id;
      assert (a + b)[|a| + i] == b[i];
    }
    forall id | id in Ids(a) ensures id in Ids(a + b) {
      var i :| 0 <= i < |a| && a[i].trip.id == id;
      assert (a + b)[i] == a[i];
    }
  }

  lemma {:induction false} PayloadHasCell(cells: Cells, hour: int, n: nat, c: nat, trip: Trip)
    requires c < n <= |CITY_IDS| && Holds(cells, CITY_IDS[c], trip, hour)
    ensures trip.id in Ids(Payload(cells, hour, n))
  {
    var init, last := Payload(cells, hour, n - 1), Tagged(CITY_IDS[n - 1], Cell(cells, CITY_IDS[n - 1], hour));
    assert Payload(cells, hour, n) == init + last;
    IdsOfBoth(init, last);
    if c < n - 1 {
      PayloadHasCell(cells, hour, n - 1, c, trip);
    } else {
      var cell := Cell(cells, CITY_IDS[c], hour);
      var i :| 0 <= i < |cell| && cell[i] == trip;
      assert last[i].trip == trip;
    }
  }

  lemma {:induction false} PayloadIsDistinct(cells: Cells, hour: int, n: nat)
    requires WellFormed(cells) && OneHome(cells) && n <= |CITY_IDS|
    ensures DistinctIds(Payload(cells, hour, n))
  {
    if n > 0 {
      var init, cell := Payload(cells, hour, n - 1), Cell(cells, CITY_IDS[n - 1], hour);
      PayloadIsDistinct(cells, hour, n - 1);
      CellIsDistinct(cells, CellKey(CITY_IDS[n - 1], hour));
      forall i, j | 0 <= i < |init| && 0 <= j < |cell| ensures init[i].trip.id != cell[j].id {
        var c := PayloadSource(cells, hour, n - 1, i);
        CityIdsDiffer(c, n - 1);
        assert Holds(cells, CITY_IDS[n - 1], cell[j], hour);
      }
    }
  }

  lemma CellIsDistinct(cells: Cells, key: CellKey)
    requires WellFormed(cells)
    ensures key in cells ==> CellIsWellFormed(key, cells[key])
  {
  }

  lemma PayloadIsInHour(cells: Cells, hour: int)
    requires WellFormed(cells)
    ensures AllInHour(HourRows(cells, hour), hour)
  {
    forall i | 0 <= i < |HourRows(cells, hour)| ensures hour <= HourRows(cells, hour)[i].trip.eventTime < hour + HOUR {
      var c := PayloadSource(cells, hour, |CITY_IDS|, i);
      CellIsDistinct(cells, CellKey(CITY_IDS[c], hour));
    }
  }

  lemma LoadIsFaithful(s: Stores, hour: int, now: int)
    requires Faithful(s)
    ensures Faithful(s.(stage := Loaded(s.stage, HourRows(s.cells, hour), now)))
  {
    hide Loaded, Holds, HasSource;
    var payload := HourRows(s.cells, hour);
    hide HourRows;
    var loaded := Loaded(s.stage, payload, now);
    forall id | id in loaded ensures HasSource(s.cells, id, loaded[id].eventTime) {
      LoadedAt(s.stage, payload, now, id);
      if id in Ids(payload) { SourceOf(s.cells, hour, id); }
    }
  }

  lemma SourceOf(cells: Cells, hour: int, id: nat)
    requires id in Ids(HourRows(cells, hour))
    ensures HasSource(cells, id, LastOf(HourRows(cells, hour), id).eventTime)
  {
    hide Holds;
    var i := LastIsInPayload(HourRows(cells, hour), id);
    var c := PayloadSource(cells, hour, |CITY_IDS|, i);
  }

  lemma {:induction false} WalkIsFaithful(s: Stores, start: int, k: nat, clock: seq<int>)
    requires Faithful(s)
    ensures Faithful(s.(stage := Walked(s.stage, s.cells, start, k, clock)))
  {
    hide Faithful, Loaded, HourRows;
    if k > 0 {
      WalkIsFaithful(s, start, k - 1, clock);
      var before := s.(stage := Walked(s.stage, s.cells, start, k - 1, clock));
      LoadIsFaithful(before, start + (k - 1) * HOUR, Nth(clock, k - 1, 0));
    } else {
      assert s.(stage := Walked(s.stage, s.cells, start, k, clock)) == s;
    }
  }

  lemma GrowthIsFaithful(s: Stores, cells: Cells)
    requires Faithful(s) && Extends(cells, s.cells)
    ensures Faithful(s.(cells := cells))
  {
  }

  lemma {:induction false} InvHolds(s: Stores, events: seq<Event>)
    requires Inv(s) && History(s, events)
    ensures Inv(After(s, events))
    decreases |events|
  {
    hide Faithful, Extends, OneHome, WellFormed, Loaded, HourRows, Walked;
    if events != [] {
      match events[0] {
        case Grow(cells) => GrowthIsFaithful(s, cells);
        case RollUp(hour, now) => LoadIsFaithful(s, hour, now);
        case Backfill(start, end, clock) => WalkIsFaithful(s, start, Steps(start, end), clock);
      }
      InvHolds(Next(s, events[0]), events[1..]);
    }
  }

  lemma HomeIsItsHour(cells: Cells, city: string, trip: Trip, home: int, hour: int)
    requires WellFormed(cells) && Holds(cells, city, trip, home) && hour % HOUR == 0
    requires hour <= trip.eventTime < hour + HOUR
    ensures home == hour
  {
    CellIsDistinct(cells, CellKey(city, home));
    hide WellFormed;
    var a, b := home / HOUR, hour / HOUR;
    assert home == a * HOUR && hour == b * HOUR;
  }

  lemma NothingIsStale(s: Stores, hour: int)
    requires Inv(s) && hour % HOUR == 0
    ensures Stale(s.stage, HourRows(s.cells, hour), hour) == {}
  {
    hide WellFormed, OneHome, Holds, Ids, HourRows;
    forall id | id in InHour(s.stage, hour) ensures id in Ids(HourRows(s.cells, hour)) {
      assert HasSource(s.cells, id, s.stage[id].eventTime);
      var c, home, trip :| 0 <= c < |CITY_IDS| && Holds(s.cells, CITY_IDS[c], trip, home) && trip.id == id
                           && trip.eventTime == s.stage[id].eventTime;
      HomeIsItsHour(s.cells, CITY_IDS[c], trip, home, hour);
      CellIsRead(s.cells, hour, c, trip);
    }
  }

  lemma CellIsRead(cells: Cells, hour: int, c: nat, trip: Trip)
    requires c < |CITY_IDS| && Holds(cells, CITY_IDS[c], trip, hour)
    ensures trip.id in Ids(HourRows(cells, hour))
  {
    PayloadHasCell(cells, hour, |CITY_IDS|, c, trip);
  }

  lemma DistinctIsAccepted(payload: seq<Value>)
    requires DistinctIds(payload)
    ensures Accepted(payload)
  {
  }

  // ------------------------------------------------------------ what a load stores

  /** An hour's load stores every trip of the hour: a new one with all its columns, a known one as far as it may. */
  lemma HourIsStored(stage: Stage, cells: Cells, hour: int, now: int, c: nat, trip: Trip)
    requires WellFormed(cells) && OneHome(cells) && c < |CITY_IDS| && Holds(cells, CITY_IDS[c], trip, hour)
    ensures var after := Loaded(stage, HourRows(cells, hour), now);
      && trip.id in after
      && after[trip.id] == StageRow(if trip.id in stage then stage[trip.id].city else CITY_IDS[c],
                                    if trip.id in stage then stage[trip.id].detail else trip.detail,
                                    trip.eventTime, trip.fare, trip.status, now)
  {
    var rows, id := HourRows(cells, hour), trip.id;
    CellIsRead(cells, hour, c, trip);
    HourIsDistinct(cells, hour);
    LoadedAt(stage, rows, now, id);
    var i := LastIsInPayload(rows, id);
    var c' := PayloadSource(cells, hour, |CITY_IDS|, i);
    assert rows[i].trip == trip && CITY_IDS[c'] == CITY_IDS[c];
    assert IsFirst(rows, i);
  }

  /** And nothing else: another trip keeps its row, or has none. */
  lemma OthersAreKept(stage: Stage, cells: Cells, hour: int, now: int, id: nat)
    requires forall c, trip | 0 <= c < |CITY_IDS| && Holds(cells, CITY_IDS[c], trip, hour) :: trip.id != id
    ensures var after := Loaded(stage, HourRows(cells, hour), now);
      (id in after <==> id in stage) && (id in stage ==> after[id] == stage[id])
  {
    hide Holds;
    var rows := HourRows(cells, hour);
    LoadedAt(stage, rows, now, id);
    if id in Ids(rows) {
      var i := LastIsInPayload(rows, id);
      var c := PayloadSource(cells, hour, |CITY_IDS|, i);
    }
  }

  lemma OtherHourKeeps(stage: Stage, cells: Cells, h: int, now: int, city: string, trip: Trip, hour: int)
    requires OneHome(cells) && Holds(cells, city, trip, hour) && h != hour
    ensures var after := Loaded(stage, HourRows(cells, h), now);
      (trip.id in after <==> trip.id in stage) && (trip.id in stage ==> after[trip.id] == stage[trip.id])
  {
    hide Holds, Loaded, HourRows;
    OthersAreKept(stage, cells, h, now, trip.id);
  }

  /** A backfill stores every trip of every hour it visits. */
  lemma {:induction false} WindowIsStored(stage: Stage, cells: Cells, start: int, k: nat, clock: seq<int>, i: nat,
                                          c: nat, trip: Trip)
    requires WellFormed(cells) && OneHome(cells) && i < k && c < |CITY_IDS|
    requires Holds(cells, CITY_IDS[c], trip, start + i * HOUR)
    ensures var after := Walked(stage, cells, start, k, clock);
      && trip.id in after
      && after[trip.id] == StageRow(if trip.id in stage then stage[trip.id].city else CITY_IDS[c],
                                    if trip.id in stage then stage[trip.id].detail else trip.detail,
                                    trip.eventTime, trip.fare, trip.status, Nth(clock, i, 0))
  {
    hide Loaded, HourRows, WellFormed, OneHome, Holds;
    var before, h := Walked(stage, cells, start, k - 1, clock), start + (k - 1) * HOUR;
    if i == k - 1 {
      WindowLeaves(stage, cells, start, k - 1, clock, CITY_IDS[c], trip, h);
      HourIsStored(before, cells, h, Nth(clock, k - 1, 0), c, trip);
    } else {
      WindowIsStored(stage, cells, start, k - 1, clock, i, c, trip);
      assert h != start + i * HOUR;
      OtherHourKeeps(before, cells, h, Nth(clock, k - 1, 0), CITY_IDS[c], trip, start + i * HOUR);
    }
  }

  /** The hours before a trip's own leave it alone. */
  lemma {:induction false} WindowLeaves(stage: Stage, cells: Cells, start: int, k: nat, clock: seq<int>, city: string,
                                        trip: Trip, hour: int)
    requires OneHome(cells) && Holds(cells, city, trip, hour) && start + k * HOUR <= hour
    ensures var after := Walked(stage, cells, start, k, clock);
      (trip.id in after <==> trip.id in stage) && (trip.id in stage ==> after[trip.id] == stage[trip.id])
  {
    hide Loaded, HourRows, OneHome, Holds;
    if k > 0 {
      var before := Walked(stage, cells, start, k - 1, clock);
      WindowLeaves(stage, cells, start, k - 1, clock, city, trip, hour);
      OtherHourKeeps(before, cells, start + (k - 1) * HOUR, Nth(clock, k - 1, 0), city, trip, hour);
    }
  }

  /** The hours of a walk with no trip in any city. */
  function EmptyHours(cells: Cells, start: int, k: nat): set<nat> {
    set i: nat | i < k && HourRows(cells, start + i * HOUR) == []
  }

  lemma EmptyHoursSnoc(cells: Cells, start: int, k: nat)
    ensures k !in EmptyHours(cells, start, k)
    ensures EmptyHours(cells, start, k + 1) ==
            if HourRows(cells, start + k * HOUR) == [] then EmptyHours(cells, start, k) + {k}
            else EmptyHours(cells, start, k)
  {
    hide HourRows;
  }

  /** The rows a backfill reports are those of the cells it visits. */
  lemma {:induction false} TallyReads(cells: Cells, start: int, k: nat)
    ensures Tally(cells, start, k).rowsRead == |WindowRows(cells, start, k)| == Tally(cells, start, k).rowsLoaded
    ensures Tally(cells, start, k).emptyHours == |EmptyHours(cells, start, k)|
  {
    hide HourRows;
    if k > 0 {
      TallyReads(cells, start, k - 1);
      EmptyHoursSnoc(cells, start, k - 1);
      hide EmptyHours;
    } else {
      assert EmptyHours(cells, start, k) == {};
    }
  }

  // ------------------------------------------------------------ what is loaded between a load and its verification

  ghost predicate Visits(start: int, k: nat, hour: int) { exists i | 0 <= i < k :: start + i * HOUR == hour }

  ghost predicate LoadsHour(e: Event, hour: int) {
    match e
    case Grow(_) => false
    case RollUp(h, _) => h == hour
    case Backfill(start, end, _) => Visits(start, Steps(start, end), hour)
  }

  /** The trips of an hour that the loads of a history read. */
  ghost function ReadIn(s: Stores, events: seq<Event>, hour: int): set<nat>
    decreases |events|
  {
    if events == [] then {}
    else
      (if LoadsHour(events[0], hour) then Ids(HourRows(s.cells, hour)) else {})
      + ReadIn(Next(s, events[0]), events[1..], hour)
  }

  /** A trip read for one hour has no row of another hour. */
  lemma OfOneHour(cells: Cells, h: int, hour: int, id: nat, eventTime: int)
    requires WellFormed(cells) && OneHome(cells) && hour % HOUR == 0 && h != hour
    requires id in Ids(HourRows(cells, h)) && HasSource(cells, id, eventTime)
    ensures !(hour <= eventTime < hour + HOUR) && eventTime == LastOf(HourRows(cells, h), id).eventTime
  {
    var rows := HourRows(cells, h);
    var i := LastIsInPayload(rows, id);
    var c := PayloadSource(cells, h, |CITY_IDS|, i);
    hide WellFormed, HourRows, Holds, Ids, LastOf;
    var c', home, trip :| 0 <= c' < |CITY_IDS| && Holds(cells, CITY_IDS[c'], trip, home) && trip.id == id
                          && trip.eventTime == eventTime;
    assert home == h && trip == rows[i].trip;
    if hour <= eventTime < hour + HOUR {
      HomeIsItsHour(cells, CITY_IDS[c'], trip, home, hour);
    }
  }

  /** One load adds what it read of its own hour, and to no other hour. */
  lemma LoadFillsHour(s: Stores, h: int, now: int, hour: int)
    requires Inv(s) && hour % HOUR == 0
    ensures InHour(Loaded(s.stage, HourRows(s.cells, h), now), hour)
         == InHour(s.stage, hour) + if h == hour then Ids(HourRows(s.cells, hour)) else {}
  {
    hide WellFormed, OneHome, HasSource, HourRows, Loaded, Ids, AllInHour;
    var rows := HourRows(s.cells, h);
    if h == hour {
      PayloadIsInHour(s.cells, hour);
      InHourAfterLoad(s.stage, rows, hour, now);
    } else {
      LoadIsFaithful(s, h, now);
      forall id ensures id in InHour(Loaded(s.stage, rows, now), hour) <==> id in InHour(s.stage, hour) {
        LoadedAt(s.stage, rows, now, id);
        if id in Ids(rows) {
          OfOneHour(s.cells, h, hour, id, Loaded(s.stage, rows, now)[id].eventTime);
          if id in s.stage { OfOneHour(s.cells, h, hour, id, s.stage[id].eventTime); }
        }
      }
    }
  }

  lemma {:induction false} WalkFillsHour(s: Stores, start: int, k: nat, clock: seq<int>, hour: int)
    requires Inv(s) && hour % HOUR == 0
    ensures InHour(Walked(s.stage, s.cells, start, k, clock), hour)
         == InHour(s.stage, hour) + if Visits(start, k, hour) then Ids(HourRows(s.cells, hour)) else {}
  {
    hide WellFormed, OneHome, Faithful, HourRows, Loaded, Ids, InHour;
    if k > 0 {
      WalkFillsHour(s, start, k - 1, clock, hour);
      WalkIsFaithful(s, start, k - 1, clock);
      var before := s.(stage := Walked(s.stage, s.cells, start, k - 1, clock));
      LoadFillsHour(before, start + (k - 1) * HOUR, Nth(clock, k - 1, 0), hour);
      VisitsOneMore(start, k, hour);
    }
  }

  lemma VisitsOneMore(start: int, k: nat, hour: int)
    requires k > 0
    ensures Visits(start, k, hour) <==> Visits(start, k - 1, hour) || start + (k - 1) * HOUR == hour
  {
    if i :| 0 <= i < k && start + i * HOUR == hour {
      if i < k - 1 { assert start + i * HOUR == hour; }
    }
    if start + (k - 1) * HOUR == hour {
      var i := k - 1;
      assert start + i * HOUR == hour;
    }
  }

  lemma StepFillsHour(s: Stores, e: Event, hour: int)
    requires Inv(s) && hour % HOUR == 0
    ensures InHour(Next(s, e).stage, hour)
         == InHour(s.stage, hour) + if LoadsHour(e, hour) then Ids(HourRows(s.cells, hour)) else {}
  {
    hide Inv, HourRows, Loaded, Walked, Ids, InHour, Visits;
    match e
    case Grow(_) =>
    case RollUp(h, now) => LoadFillsHour(s, h, now, hour);
    case Backfill(start, end, clock) => WalkFillsHour(s, start, Steps(start, end), clock, hour);
  }

  lemma StepKeepsInv(s: Stores, e: Event)
    requires Inv(s) && Allowed(s, e)
    ensures Inv(Next(s, e))
  {
    hide Next, Inv, Allowed;
    assert History(Next(s, e), [e][1..]);
    InvHolds(s, [e]);
    assert After(s, [e]) == After(Next(s, e), [e][1..]) == Next(s, e);
  }

  /** A history adds to an hour exactly what its loads read of it. */
  lemma {:induction false} HistoryFillsHour(s: Stores, events: seq<Event>, hour: int)
    requires Inv(s) && History(s, events) && hour % HOUR == 0
    ensures InHour(After(s, events).stage, hour) == InHour(s.stage, hour) + ReadIn(s, events, hour)
    decreases |events|
  {
    hide Inv, Allowed, Next, LoadsHour, InHour, HourRows, Ids;
    if events != [] {
      StepFillsHour(s, events[0], hour);
      StepKeepsInv(s, events[0]);
      HistoryFillsHour(Next(s, events[0]), events[1..], hour);
    }
  }

  lemma HourIsDistinct(cells: Cells, hour: int)
    requires WellFormed(cells) && OneHome(cells)
    ensures DistinctIds(HourRows(cells, hour))
  {
    PayloadIsDistinct(cells, hour, |CITY_IDS|);
  }

  lemma NoneLeft(a: set<nat>, b: set<nat>)
    ensures a <= b <==> a - b == {}
  {
    if a - b == {} {
      forall x | x in a ensures x in b { assert x !in a - b; }
    }
  }

  lemma RollUpFillsHour(s: Stores, hour: int, now: int)
    requires Inv(s) && hour % HOUR == 0
    ensures var rows := HourRows(s.cells, hour);
      && Accepted(rows) && |Ids(rows)| == |rows|
      && InHour(Next(s, RollUp(hour, now)).stage, hour) == Ids(rows) && Inv(Next(s, RollUp(hour, now)))
  {
    hide WellFormed, OneHome, Faithful, Loaded, HourRows, DistinctIds, Accepted, Ids, InHour;
    var rows := HourRows(s.cells, hour);
    HourIsDistinct(s.cells, hour);
    DistinctIsAccepted(rows);
    IdsOfDistinct(rows);
    NothingIsStale(s, hour);
    NoneLeft(InHour(s.stage, hour), Ids(rows));
    LoadFillsHour(s, hour, now, hour);
    assert InHour(s.stage, hour) + Ids(rows) == Ids(rows);
    StepKeepsInv(s, RollUp(hour, now));
  }

  /**
   The verification of an hour, which comes some time after its load. All that
   was extracted is in the table then, and the drift found is minus the number
   of trips that other loads have meanwhile read of the hour, over and above
   those extracted.
   */
  lemma DriftLater(s: Stores, hour: int, now: int, later: seq<Event>)
    requires Inv(s) && hour % HOUR == 0 && History(Next(s, RollUp(hour, now)), later)
    ensures var rows, loaded := HourRows(s.cells, hour), Next(s, RollUp(hour, now));
      var found := InHour(After(loaded, later).stage, hour);
      && Ids(rows) <= found
      && |rows| - |found| == -|ReadIn(loaded, later, hour) - Ids(rows)|
  {
    hide Inv, Next, After, History, HourRows, Ids, InHour, ReadIn, Accepted;
    var rows, loaded := HourRows(s.cells, hour), Next(s, RollUp(hour, now));
    RollUpFillsHour(s, hour, now);
    HistoryFillsHour(loaded, later, hour);
    var extra := ReadIn(loaded, later, hour) - Ids(rows);
    assert InHour(After(loaded, later).stage, hour) == Ids(rows) + extra;
  }

  /**
   Whatever mixture of hourly loads, retries and backfills filled the stage
   while Cassandra only grew, rolling up an hour is accepted. Its verification
   finds no drift if and only if no load in between read a trip of the hour that
   the extraction lacked.
   */
  lemma RollupVerifies(cells: Cells, events: seq<Event>, hour: int, now: int, later: seq<Event>)
    requires WellFormed(cells) && OneHome(cells) && History(Stores(cells, map[]), events) && hour % HOUR == 0
    requires History(Next(After(Stores(cells, map[]), events), RollUp(hour, now)), later)
    ensures var s := After(Stores(cells, map[]), events);
      var rows, loaded := HourRows(s.cells, hour), Next(s, RollUp(hour, now));
      && Accepted(rows)
      && (|rows| - |InHour(After(loaded, later).stage, hour)| == 0
          <==> ReadIn(loaded, later, hour) <= Ids(rows))
  {
    hide WellFormed, OneHome, Next, HourRows, Accepted, Ids, InHour, ReadIn;
    InvHolds(Stores(cells, map[]), events);
    var s := After(Stores(cells, map[]), events);
    hide After, History, Inv;
    RollUpFillsHour(s, hour, now);
    DriftLater(s, hour, now, later);
    var read, rows := ReadIn(Next(s, RollUp(hour, now)), later, hour), HourRows(s.cells, hour);
    NoneLeft(read, Ids(rows));
  }

  /** A backfill that comes between and reads one trip more makes the verification alert, with nothing lost. */
  lemma BackfillRaisesAlert(s: Stores, grown: Cells, hour: int, now: int, clock: seq<int>, c: nat, trip: Trip)
    requires Inv(s) && hour % HOUR == 0 && Allowed(s, Grow(grown)) && HourRows(s.cells, hour) != []
    requires c < |CITY_IDS| && Holds(grown, CITY_IDS[c], trip, hour) && trip.id !in Ids(HourRows(s.cells, hour))
    ensures var rows, loaded := HourRows(s.cells, hour), Next(s, RollUp(hour, now));
      var later := [Grow(grown), Backfill(hour, hour + HOUR, clock)];
      var found := InHour(After(loaded, later).stage, hour);
      && History(loaded, later)
      && Ids(rows) <= found && |rows| != 0 && |rows| - |found| < 0
  {
    hide Inv, WellFormed, OneHome, Extends, HourRows, Ids, InHour, Holds;
    var loaded := Next(s, RollUp(hour, now));
    var grow, fill := Grow(grown), Backfill(hour, hour + HOUR, clock);
    var later := [grow, fill];
    assert later[0] == grow && later[1..] == [fill] && [fill][0] == fill && [fill][1..] == [];
    var after := Next(loaded, grow);
    assert History(after, [fill]);
    DriftLater(s, hour, now, later);
    assert hour + 0 * HOUR == hour;
    assert LoadsHour(fill, hour);
    CellIsRead(grown, hour, c, trip);
    assert trip.id in ReadIn(after, [fill], hour);
    assert trip.id in ReadIn(loaded, later, hour) - Ids(HourRows(s.cells, hour));
  }

  /** Cells with one key, all of whose trips are different and of its hour. */
  lemma CellsOfOne(cells: Cells, key: CellKey, cell: seq<Trip>)
    requires cells == map[key := cell] && CellIsWellFormed(key, cell)
    ensures WellFormed(cells) && OneHome(cells)
    ensures forall id :: id in Ids(HourRows(cells, key.hour)) ==> exists trip <- cell :: trip.id == id
  {
    forall id | id in Ids(HourRows(cells, key.hour)) ensures exists trip <- cell :: trip.id == id {
      var i := LastIsInPayload(HourRows(cells, key.hour), id);
      var c := PayloadSource(cells, key.hour, |CITY_IDS|, i);
      assert HourRows(cells, key.hour)[i].trip in cell;
    }
  }

  lemma NothingLoaded(cells: Cells)
    requires WellFormed(cells) && OneHome(cells)
    ensures Inv(Stores(cells, map[]))
  {
  }

  lemma TripJoins(cells: Cells, grown: Cells, key: CellKey, a: Trip, b: Trip)
    requires cells == map[key := [a]] && grown == map[key := [a, b]] && CellIsWellFormed(key, [a, b])
    ensures WellFormed(cells) && OneHome(cells) && WellFormed(grown) && OneHome(grown) && Extends(grown, cells)
    ensures Holds(cells, key.city, a, key.hour) && Holds(grown, key.city, b, key.hour)
    ensures b.id !in Ids(HourRows(cells, key.hour))
  {
    assert [a, b][0] == a && [a, b][1] == b;
    CellsOfOne(cells, key, [a]);
    CellsOfOne(grown, key, [a, b]);
  }

  /**
   Such a run, for any hour: one trip in Cassandra, the hour loaded, a second trip,
   a backfill of the hour, the verification.
   */
  lemma FalseAlert(hour: int, now: int) returns (cells: Cells, later: seq<Event>)
    requires hour % HOUR == 0
    ensures WellFormed(cells) && OneHome(cells)
    ensures var rows, loaded := HourRows(cells, hour), Next(Stores(cells, map[]), RollUp(hour, now));
      && History(loaded, later)
      && Ids(rows) <= InHour(After(loaded, later).stage, hour)
      && |rows| != 0 && |rows| - |InHour(After(loaded, later).stage, hour)| < 0
  {
    var c: nat := 0;
    var key, a, b := CellKey(CITY_IDS[c], hour), Trip(1, 0, hour, 0.0, ""), Trip(2, 0, hour, 0.0, "");
    cells := map[key := [a]];
    var grown: Cells := map[key := [a, b]];
    later := [Grow(grown), Backfill(hour, hour + HOUR, [])];
    TripJoins(cells, grown, key, a, b);
    CellIsRead(cells, hour, c, a);
    hide WellFormed, OneHome, HourRows, InHour, Holds, Faithful, Extends, Next, After, History;
    assert HourRows(cells, hour) != [] by { assert a.id in Ids(HourRows(cells, hour)); }
    hide Ids;
    NothingLoaded(cells);
    BackfillRaisesAlert(Stores(cells, map[]), grown, hour, now, [], c, b);
  }

  /**
   The two tasks of the rollup one right after the other, on any table. The second
   alerts exactly when rows were extracted and the trips extracted twice do not
   balance the stale rows the table already held for the hour; the row count
   reported is that of the extraction exactly when one page holds it.
   */
  method RollUpHour(table: StageTable, cells: Cells, hour: int, now: int) returns (r: HourResult, drift: Option<int>)
    requires WellFormed(cells)
    modifies table
    ensures r.Raised? <==> !Accepted(HourRows(cells, hour))
    ensures r.Raised? ==> table.rows == old(table.rows) && drift.None?
    ensures r.Extracted? ==>
      var rows := HourRows(cells, hour);
      var imbalance := (|rows| - |Ids(rows)|) - |Stale(old(table.rows), rows, hour)|;
      && table.rows == Loaded(old(table.rows), rows, now)
      && r.extracted == |rows| && (r.loaded == |rows| <==> |rows| <= PAGE)
      && (drift.None? <==> rows != [] && imbalance != 0)
      && (drift.Some? ==> drift.value == imbalance)
  {
    hide Accepted, Loaded, HourRows, Ids, Stale, InHour, AllInHour, WellFormed;
    PayloadIsInHour(cells, hour);
    DriftIs(table.rows, HourRows(cells, hour), hour, now);
    r := table.ExtractAndLoadHour(cells, hour, now);
    drift := None;
    if r.Extracted? { drift := table.VerifyHour(hour, r.extracted); }
  }

  /** One event on the table itself. */
  method PlayOne(table: StageTable, cells: Cells, e: Event) returns (next: Cells)
    requires Inv(Stores(cells, table.rows)) && Allowed(Stores(cells, table.rows), e)
    modifies table
    ensures Stores(next, table.rows) == Next(old(Stores(cells, table.rows)), e)
  {
    hide WellFormed, OneHome, Extends, Faithful, Loaded, HourRows, Walked, Accepted, Tally;
    next := cells;
    match e
    case Grow(grown) => next := grown;
    case RollUp(hour, now) =>
      HourIsAccepted(cells, hour);
      var _ := table.ExtractAndLoadHour(cells, hour, now);
    case Backfill(start, end, clock) =>
      forall k: nat ensures Accepted(HourRows(cells, start + k * HOUR)) { HourIsAccepted(cells, start + k * HOUR); }
      var _ := table.ReprocessWindow(cells, start, end, clock);
  }

  lemma HourIsAccepted(cells: Cells, hour: int)
    requires WellFormed(cells) && OneHome(cells)
    ensures Accepted(HourRows(cells, hour))
  {
    HourIsDistinct(cells, hour);
    DistinctIsAccepted(HourRows(cells, hour));
  }

  /** A history on the table itself. */
  method Play(table: StageTable, cells: Cells, events: seq<Event>) returns (end: Cells)
    requires Inv(Stores(cells, table.rows)) && History(Stores(cells, table.rows), events)
    modifies table
    ensures Stores(end, table.rows) == After(old(Stores(cells, table.rows)), events)
  {
    hide Inv, Allowed, Next;
    end := cells;
    ghost var start := Stores(cells, table.rows);
    for i := 0 to |events|
      invariant Inv(Stores(end, table.rows)) && History(Stores(end, table.rows), events[i..])
      invariant After(Stores(end, table.rows), events[i..]) == After(start, events)
    {
      assert events[i..][0] == events[i] && events[i..][1..] == events[i + 1..];
      StepKeepsInv(Stores(end, table.rows), events[i]);
      end := PlayOne(table, end, events[i]);
    }
  }

  /**
   The two tasks of the rollup with other loads between them. The second one
   alerts exactly when rows were extracted and a load in between read a trip of
   the hour that the extraction lacked.
   */
  method RollUpAmid(table: StageTable, cells: Cells, hour: int, now: int, between: seq<Event>)
    returns (r: HourResult, drift: Option<int>)
    requires Inv(Stores(cells, table.rows)) && hour % HOUR == 0
    requires History(Next(Stores(cells, table.rows), RollUp(hour, now)), between)
    modifies table
    ensures r.Extracted? && r.extracted == |HourRows(cells, hour)|
    ensures var rows := HourRows(cells, hour);
      var missed := ReadIn(Next(old(Stores(cells, table.rows)), RollUp(hour, now)), between, hour) - Ids(rows);
      && (drift.None? <==> rows != [] && missed != {})
      && (drift.Some? ==> drift.value == -|missed|)
  {
    hide Inv, After, History, HourRows, Accepted, InHour, Ids, ReadIn, Loaded;
    ghost var s := Stores(cells, table.rows);
    RollUpFillsHour(s, hour, now);
    DriftLater(s, hour, now, between);
    r := table.ExtractAndLoadHour(cells, hour, now);
    var _ := Play(table, cells, between);
    drift := table.VerifyHour(hour, r.extracted);
  }
}
