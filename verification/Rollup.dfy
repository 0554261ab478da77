/**
 The batch layer: the hourly rollup and the backfill, which read city-hour
 cells from Cassandra and upsert them into a stage table in Postgres.
 Times are whole microseconds.
 */
module Rollup {
  import opened Options
  import opened Cities
  import opened Seqs

  const HOUR := 3_600_000_000
  const MAX_HOURS := 24 * 14
  const PAGE := 1000

  // ------------------------------------------------------------ tables

  datatype CellKey = CellKey(city: string, hour: int)

  /** One row of a cell. `detail` is every column the conflict clause leaves alone. */
  datatype Trip = Trip(id: nat, detail: nat, eventTime: int, fare: real, status: string)

  type Cells = map<CellKey, seq<Trip>>

  /** What Cassandra keeps: a trip once in a cell, and in the cell of its own hour. */
  ghost predicate WellFormed(cells: Cells) {
    forall key | key in cells :: CellIsWellFormed(key, cells[key])
  }

  ghost predicate CellIsWellFormed(key: CellKey, cell: seq<Trip>) {
    && key.hour % HOUR == 0
    && (forall i | 0 <= i < |cell| :: key.hour <= cell[i].eventTime < key.hour + HOUR)
    && (forall i, j | 0 <= i < j < |cell| :: cell[i].id != cell[j].id)
  }

  /** One value of the payload: the row and the city it was read for. */
  datatype Value = Value(city: string, trip: Trip)

  datatype StageRow = StageRow(city: string, detail: nat, eventTime: int, fare: real, status: string, loadedAt: int)

  type Stage = map<nat, StageRow>

  // ------------------------------------------------------------ reading

  function Cell(cells: Cells, city: string, hour: int): seq<Trip> {
    var key := CellKey(city, hour);
    if key in cells then cells[key] else []
  }

  function Tagged(city: string, cell: seq<Trip>): (r: seq<Value>)
    ensures |r| == |cell| && forall i | 0 <= i < |cell| :: r[i] == Value(city, cell[i])
  {
    seq(|cell|, i requires 0 <= i < |cell| => Value(city, cell[i]))
  }

  /** The rows of an hour, the first `n` cities one after another. */
  function Payload(cells: Cells, hour: int, n: nat): seq<Value>
    requires n <= |CITY_IDS|
  {
    if n == 0 then []
    else Payload(cells, hour, n - 1) + Tagged(CITY_IDS[n - 1], Cell(cells, CITY_IDS[n - 1], hour))
  }

  function HourRows(cells: Cells, hour: int): seq<Value> { Payload(cells, hour, |CITY_IDS|) }

  method ReadHour(cells: Cells, hour: int) returns (payload: seq<Value>)
    ensures payload == HourRows(cells, hour)
  {
    hide Tagged, Cell;
    payload := [];
    for c := 0 to |CITY_IDS|
      invariant payload == Payload(cells, hour, c)
    {
      payload := AppendCell(payload, CITY_IDS[c], Cell(cells, CITY_IDS[c], hour));
    }
  }

  method AppendCell(payload: seq<Value>, city: string, cell: seq<Trip>) returns (r: seq<Value>)
    ensures r == payload + Tagged(city, cell)
  {
    r := payload;
    for i := 0 to |cell|
      invariant r == payload + Tagged(city, cell)[..i]
    {
      r := r + [Value(city, cell[i])];
    }
  }

  // ------------------------------------------------------------ the upsert

  /** `ON CONFLICT (trip_id) DO UPDATE` touches four columns. */
  function Put(stage: Stage, v: Value, now: int): Stage {
    var t := v.trip;
    if t.id in stage
    then stage[t.id := stage[t.id].(eventTime := t.eventTime, fare := t.fare, status := t.status, loadedAt := now)]
    else stage[t.id := StageRow(v.city, t.detail, t.eventTime, t.fare, t.status, now)]
  }

  function Loaded(stage: Stage, payload: seq<Value>, now: int): Stage {
    if payload == [] then stage else Put(Loaded(stage, payload[..|payload| - 1], now), payload[|payload| - 1], now)
  }

  lemma {:induction false} LoadedAppend(stage: Stage, a: seq<Value>, b: seq<Value>, now: int)
    ensures Loaded(stage, a + b, now) == Loaded(Loaded(stage, a, now), b, now)
  {
    hide Put;
    if b == [] {
      assert a + b == a;
    } else {
      assert (a + b)[..|a + b| - 1] == a + b[..|b| - 1];
      LoadedAppend(stage, a, b[..|b| - 1], now);
    }
  }

  predicate Repeats(page: seq<Value>) {
    exists i, j | 0 <= i < j < |page| :: page[i].trip.id == page[j].trip.id
  }

  /** The rows of the first `p` pages. */
  function FirstPages(payload: seq<Value>, p: nat): seq<Value> {
    if p * PAGE <= |payload| then payload[..p * PAGE] else payload
  }

  function PageOf(payload: seq<Value>, p: nat): seq<Value>
    requires p * PAGE < |payload|
  {
    FirstPages(payload, p + 1)[p * PAGE..]
  }

  /** No page names a trip twice: Postgres refuses to update a row twice in one statement. */
  ghost predicate Accepted(payload: seq<Value>) {
    forall p: nat | p * PAGE < |payload| :: !Repeats(PageOf(payload, p))
  }

  /** How many of `n` rows are on the last page. */
  function LastPageRows(n: nat): nat { if n == 0 then 0 else (n - 1) % PAGE + 1 }

  /** The last page has all the rows exactly when they fit one page. */
  lemma OnePage(n: nat)
    ensures LastPageRows(n) == n <==> n <= PAGE
  {
  }

  lemma NextPage(payload: seq<Value>, p: nat)
    requires p * PAGE < |payload|
    ensures FirstPages(payload, p + 1) == FirstPages(payload, p) + PageOf(payload, p)
    ensures (p + 1) * PAGE >= |payload| ==>
      FirstPages(payload, p + 1) == payload && |PageOf(payload, p)| == (|payload| - 1) % PAGE + 1
  {
  }

  // ------------------------------------------------------------ the backfill

  datatype Plan = Planned(hours: nat) | EndNotAfterStart | TooLong

  function PlanWindow(start: int, end: int): Plan {
    if end <= start then EndNotAfterStart
    else if (end - start) / HOUR > MAX_HOURS then TooLong
    else Planned((end - start) / HOUR)
  }

  /** How often `hour < end` holds as `hour` goes up from `start`. */
  function Steps(start: int, end: int): nat {
    if end <= start then 0 else (end - start + HOUR - 1) / HOUR
  }

  datatype BackfillResult = Finished(rowsRead: nat, rowsLoaded: nat, emptyHours: nat) | Aborted

  /** The stage after the first `k` hours of the walk. */
  function Walked(stage: Stage, cells: Cells, start: int, k: nat, clock: seq<int>): Stage {
    if k == 0 then stage
    else
      Loaded(Walked(stage, cells, start, k - 1, clock), HourRows(cells, start + (k - 1) * HOUR), Nth(clock, k - 1, 0))
  }

  ghost predicate AllAccepted(cells: Cells, start: int, k: nat) {
    forall i | 0 <= i < k :: Accepted(HourRows(cells, start + i * HOUR))
  }

  function Tally(cells: Cells, start: int, k: nat): (r: BackfillResult)
    ensures r.Finished?
  {
    if k == 0 then Finished(0, 0, 0)
    else
      var r, rows := Tally(cells, start, k - 1), HourRows(cells, start + (k - 1) * HOUR);
      Finished(r.rowsRead + |rows|, r.rowsLoaded + |rows|, r.emptyHours + if rows == [] then 1 else 0)
  }

  /** A window is planned if it is not empty and less than 337 hours long, and then for its whole hours. */
  lemma PlanMeans(start: int, end: int)
    ensures var plan, span := PlanWindow(start, end), end - start;
      && (plan.Planned? <==> 0 < span < 337 * 3_600_000_000)
      && (plan.Planned? ==> plan.hours * 3_600_000_000 <= span < (plan.hours + 1) * 3_600_000_000)
      && (plan.EndNotAfterStart? <==> span <= 0)
  {
  }

  lemma OnItsPage(payload: seq<Value>, i: nat)
    requires i < |payload|
    ensures i / 1000 * PAGE < |payload| && i % 1000 < |PageOf(payload, i / 1000)|
    ensures PageOf(payload, i / 1000)[i % 1000] == payload[i]
  {
  }

  lemma PlaceOf(payload: seq<Value>, p: nat, q: nat)
    requires p * PAGE < |payload| && q < |PageOf(payload, p)|
    ensures p * 1000 + q < |payload| && PageOf(payload, p)[q] == payload[p * 1000 + q]
    ensures (p * 1000 + q) / 1000 == p
  {
  }

  /** A payload is accepted if no 1000 rows sent together name a trip twice. */
  lemma AcceptedMeans(payload: seq<Value>)
    ensures Accepted(payload) <==>
            forall i, j | 0 <= i < j < |payload| && i / 1000 == j / 1000 :: payload[i].trip.id != payload[j].trip.id
  {
    hide FirstPages, PageOf;
    if Accepted(payload) {
      forall i, j | 0 <= i < j < |payload| && i / 1000 == j / 1000 ensures payload[i].trip.id != payload[j].trip.id {
        OnItsPage(payload, i);
        OnItsPage(payload, j);
        assert !Repeats(PageOf(payload, i / 1000));
      }
    } else {
      var p: nat :| p * PAGE < |payload| && Repeats(PageOf(payload, p));
      var page := PageOf(payload, p);
      var i, j :| 0 <= i < j < |page| && page[i].trip.id == page[j].trip.id;
      PlaceOf(payload, p, i);
      PlaceOf(payload, p, j);
    }
  }

  lemma LoadedNothing(stage: Stage, now: int)
    ensures Loaded(stage, [], now) == stage && Accepted([])
  {
  }

  // ------------------------------------------------------------ the hourly rollup

  datatype HourResult = Extracted(extracted: nat, loaded: nat) | Raised

  function InHour(stage: Stage, hour: int): set<nat> {
    set id | id in stage && hour <= stage[id].eventTime < hour + HOUR
  }

  /** The stage table, behind a connection with its transaction. */
  class StageTable {
    var rows: Stage

    constructor ()
      ensures rows == map[]
    {
      rows := map[];
    }

    /**
     `execute_values` and the commit after it: the pages go in one after the
     other, and a page that names a trip twice takes all of them back. The
     cursor's row count is that of the last page.
     */
    method Insert(payload: seq<Value>, now: int) returns (ok: bool, rowcount: nat)
      modifies this
      ensures ok <==> Accepted(payload)
      ensures rows == if ok then Loaded(old(rows), payload, now) else old(rows)
      ensures ok ==> rowcount == LastPageRows(|payload|)
    {
      hide Put, Repeats, FirstPages, PageOf, Loaded;
      var saved := rows;
      rowcount := 0;
      var p: nat := 0;
      NoPages(saved, payload, now);
      while p * PAGE < |payload|
        invariant forall q: nat | q < p && q * PAGE < |payload| :: !Repeats(PageOf(payload, q))
        invariant rows == Loaded(saved, FirstPages(payload, p), now)
        invariant p * PAGE >= |payload| ==> FirstPages(payload, p) == payload
        invariant p * PAGE >= |payload| > 0 ==> rowcount == (|payload| - 1) % PAGE + 1
        invariant payload == [] ==> rowcount == 0
        decreases |payload| - p * PAGE
      {
        var page := PageOf(payload, p);
        if Repeats(page) {
          rows := saved;
          return false, rowcount;
        }
        NextPage(payload, p);
        LoadedAppend(saved, FirstPages(payload, p), page, now);
        rows := Loaded(rows, page, now);
        rowcount := |page|;
        p := p + 1;
      }
      ok := true;
    }

    /** Walks the window hour by hour, one transaction an hour; `clock` gives the time of each. */
    method ReprocessWindow(cells: Cells, start: int, end: int, clock: seq<int>) returns (r: BackfillResult)
      modifies this
      ensures r.Finished? ==>
        && (forall i | 0 <= i < Steps(start, end) :: Accepted(HourRows(cells, start + i * HOUR)))
        && rows == Walked(old(rows), cells, start, Steps(start, end), clock)
        && r == Tally(cells, start, Steps(start, end))
      ensures r.Aborted? ==> exists k | 0 <= k < Steps(start, end) ::
        && (forall i | 0 <= i < k :: Accepted(HourRows(cells, start + i * HOUR)))
        && !Accepted(HourRows(cells, start + k * HOUR))
        && rows == Walked(old(rows), cells, start, k, clock)
    {
      hide Put, Loaded, HourRows, Accepted;
      r := Finished(0, 0, 0);
      var hour := start;
      ghost var k := 0;
      while hour < end
        invariant hour == start + k * HOUR && k <= Steps(start, end)
        invariant AllAccepted(cells, start, k)
        invariant rows == Walked(old(rows), cells, start, k, clock)
        invariant r == Tally(cells, start, k)
      {
        var payload := ReadHour(cells, hour);
        if payload != [] {
          var ok, _ := Insert(payload, Nth(clock, (hour - start) / HOUR, 0));
          if !ok { return Aborted; }
          r := r.(rowsLoaded := r.rowsLoaded + |payload|);
        } else {
          LoadedNothing(rows, Nth(clock, (hour - start) / HOUR, 0));
          r := r.(emptyHours := r.emptyHours + 1);
        }
        r := r.(rowsRead := r.rowsRead + |payload|);
        hour, k := hour + HOUR, k + 1;
      }
    }

    method ExtractAndLoadHour(cells: Cells, hour: int, now: int) returns (r: HourResult)
      modifies this
      ensures r.Raised? <==> !Accepted(HourRows(cells, hour))
      ensures rows == if r.Raised? then old(rows) else Loaded(old(rows), HourRows(cells, hour), now)
      ensures r.Extracted? ==>
        && r.extracted == |HourRows(cells, hour)|
        && r.loaded == LastPageRows(r.extracted)
        && (r.loaded == r.extracted <==> r.extracted <= PAGE)
    {
      hide Put, HourRows;
      var payload := ReadHour(cells, hour);
      var ok, loaded := Insert(payload, now);
      OnePage(|payload|);
      r := if ok then Extracted(|payload|, loaded) else Raised;
    }

    /** `None` is the drift alert and the error that follows it. */
    method VerifyHour(hour: int, extracted: nat) returns (drift: Option<int>)
      ensures drift.None? <==> extracted != 0 && |InHour(rows, hour)| != extracted
      ensures drift.Some? ==> drift.value + |InHour(rows, hour)| == extracted
    {
      var found := |InHour(rows, hour)|;
      drift := if extracted != 0 && extracted - found != 0 then None else Some(extracted - found);
    }
  }

  lemma NoPages(stage: Stage, payload: seq<Value>, now: int)
    ensures stage == Loaded(stage, FirstPages(payload, 0), now)
    ensures payload == [] ==> FirstPages(payload, 0) == payload
  {
  }
}
