/**
 The five query pairs of the analytics benchmark: each query against the wide
 table and against the star schema. QueryTheorems shows that they give the same
 rows.
 */
module Queries {
  import opened Seqs
  import opened Analytics

  datatype Query = RegionDay | TopDrivers | WeekendByVehicle | HourlyByCity | SurgeByCityWeek

  /** The window in whole days, its end excluded. */
  datatype Window = Window(first: int, last: int)

  /** GROUP BY columns: a text column and then numbers, a truth value counting as 0 or 1. */
  datatype GroupKey = GroupKey(text: string, numbers: seq<int>)

  /** What a row brings to its group. */
  datatype Tuple = Tuple(key: GroupKey, fare: real, distance: real, surged: bool)

  function Flag(b: bool): int { if b then 1 else 0 }

  // ------------------------------------------------------------ the wide table

  function BaselineKey(q: Query, cal: Calendar, w: WideRow): GroupKey {
    var day := DayOf(w.second);
    match q
    case RegionDay => GroupKey(w.region, [day])
    case TopDrivers => GroupKey(w.driverId, [])
    case WeekendByVehicle => GroupKey(w.vehicleClass, [Flag(DayOfWeek(day) == 0 || DayOfWeek(day) == 6)])
    case HourlyByCity => GroupKey(w.cityName, [HourOf(w.second)])
    case SurgeByCityWeek => GroupKey(w.cityName, [cal.isoYear(day), cal.isoWeek(day)])
  }

  /** The window's timestamps are midnights. */
  predicate BaselineWhere(win: Window, w: WideRow) {
    w.status == "completed" && win.first * SECONDS_PER_DAY <= w.second < win.last * SECONDS_PER_DAY
  }

  function BaselineOf(q: Query, cal: Calendar, win: Window): WideRow -> seq<Tuple> {
    w => if BaselineWhere(win, w)
           then [Tuple(BaselineKey(q, cal, w), w.fare, w.distance, w.surge > 1.0)]
           else []
  }

  function BaselineTuples(q: Query, cal: Calendar, win: Window, wide: seq<WideRow>): seq<Tuple> {
    FlatMap(BaselineOf(q, cal, win), wide)
  }

  // ------------------------------------------------------------ the star schema

  function HasCity(key: nat): DimCity -> bool { (c: DimCity) => c.cityKey == key }

  function HasDriver(key: nat): DimDriver -> bool { (d: DimDriver) => d.driverKey == key }

  function HasVehicle(key: nat): DimVehicle -> bool { (v: DimVehicle) => v.vehicleKey == key }

  function HasDate(key: int): DimDate -> bool { (d: DimDate) => d.dateKey == key }

  function Region(): DimCity -> seq<string> { (c: DimCity) => [c.region] }

  function CityName(): DimCity -> seq<string> { (c: DimCity) => [c.cityName] }

  function Driver(): DimDriver -> seq<string> { (d: DimDriver) => [d.driverId] }

  function VehicleClass(): DimVehicle -> seq<string> { (v: DimVehicle) => [v.vehicleClass] }

  /** The text column of every row the query's first JOIN matches with a fact row. */
  function JoinedTexts(q: Query, dims: Dimensions, f: FactRow): seq<string> {
    match q
    case RegionDay => FlatMap(Region(), Filter(HasCity(f.cityKey), dims.cities))
    case TopDrivers => FlatMap(Driver(), Filter(HasDriver(f.driverKey), dims.drivers))
    case WeekendByVehicle => FlatMap(VehicleClass(), Filter(HasVehicle(f.vehicleKey), dims.vehicles))
    case HourlyByCity => FlatMap(CityName(), Filter(HasCity(f.cityKey), dims.cities))
    case SurgeByCityWeek => FlatMap(CityName(), Filter(HasCity(f.cityKey), dims.cities))
  }

  function StarNumbers(q: Query, f: FactRow, d: DimDate): seq<int> {
    match q
    case RegionDay => [d.fullDate]
    case TopDrivers => []
    case WeekendByVehicle => [Flag(d.isWeekend)]
    case HourlyByCity => [f.hourOfDay]
    case SurgeByCityWeek => [d.isoYear, d.isoWeek]
  }

  predicate StarWhere(win: Window, f: FactRow, d: DimDate) {
    f.isCompleted && win.first <= d.fullDate < win.last
  }

  /** The tuples of one fact row joined with one text and one date. */
  function StarTuple(q: Query, win: Window, f: FactRow, text: string): DimDate -> seq<Tuple> {
    d => if StarWhere(win, f, d)
           then [Tuple(GroupKey(text, StarNumbers(q, f, d)), f.fare, f.distance, f.isSurged)]
           else []
  }

  function StarPair(q: Query, dims: Dimensions, win: Window, f: FactRow): string -> seq<Tuple> {
    text => FlatMap(StarTuple(q, win, f, text), Filter(HasDate(f.dateKey), dims.dates))
  }

  function StarOf(q: Query, dims: Dimensions, win: Window): FactRow -> seq<Tuple> {
    f => FlatMap(StarPair(q, dims, win, f), JoinedTexts(q, dims, f))
  }

  function StarTuples(q: Query, dims: Dimensions, win: Window, fact: seq<FactRow>): seq<Tuple> {
    FlatMap(StarOf(q, dims, win), fact)
  }

  // ------------------------------------------------------------ grouping and aggregates

  datatype Measures =
    | Revenue(trips: nat, revenue: real)
    | RevenueAndFare(trips: nat, revenue: real, avgFare: real)
    | DistanceAndRevenue(trips: nat, avgDistance: real, revenue: real)
    | SurgeAndRevenue(trips: nat, surgedTrips: nat, surgePct: real, revenue: real)

  datatype OutRow = OutRow(key: GroupKey, measures: Measures)

  /** `ROUND(x, 2)` and `ROUND(x, 3)`, with `unit` 100 or 1000: half away from zero. */
  function Round(x: real, unit: int): real
    requires unit > 0
  {
    var u := unit as real;
    if x >= 0.0 then (x * u + 0.5).Floor as real / u else -((-x * u + 0.5).Floor as real / u)
  }

  function Fare(): Tuple -> real { (t: Tuple) => t.fare }

  function Distance(): Tuple -> real { (t: Tuple) => t.distance }

  function Surged(): Tuple -> bool { (t: Tuple) => t.surged }

  function HasKey(key: GroupKey): Tuple -> bool { (t: Tuple) => t.key == key }

  function Aggregate(q: Query, group: seq<Tuple>): Measures
    requires group != []
  {
    var trips := |group|;
    var revenue := Round(SumBy(Fare(), group), 100);
    match q
    case RegionDay => Revenue(trips, revenue)
    case TopDrivers => Revenue(trips, revenue)
    case WeekendByVehicle => RevenueAndFare(trips, revenue, Round(SumBy(Fare(), group) / trips as real, 100))
    case HourlyByCity => DistanceAndRevenue(trips, Round(SumBy(Distance(), group) / trips as real, 1000), revenue)
    case SurgeByCityWeek =>
      var surged := |Filter(Surged(), group)|;
      SurgeAndRevenue(trips, surged, Round(100.0 * surged as real / trips as real, 100), revenue)
  }

  predicate Occurs(tuples: seq<Tuple>, key: GroupKey) {
    exists i | 0 <= i < |tuples| :: tuples[i].key == key
  }

  /** The keys that occur, each once. */
  function Keys(tuples: seq<Tuple>): (r: seq<GroupKey>)
    ensures forall k :: k in r <==> Occurs(tuples, k)
    ensures forall i, j | 0 <= i < j < |r| :: r[i] != r[j]
  {
    if tuples == [] then []
    else
      var rest := Keys(tuples[1..]);
      assert forall k :: Occurs(tuples, k) <==> tuples[0].key == k || Occurs(tuples[1..], k) by {
        OccursInTail(tuples);
      }
      if tuples[0].key in rest then rest else [tuples[0].key] + rest
  }

  lemma OccursInTail(tuples: seq<Tuple>)
    requires tuples != []
    ensures forall k :: Occurs(tuples, k) <==> tuples[0].key == k || Occurs(tuples[1..], k)
  {
  }

  function Group(tuples: seq<Tuple>, key: GroupKey): (r: seq<Tuple>)
    requires Occurs(tuples, key)
    ensures r != []
  {
    FilterMembers(HasKey(key), tuples);
    var i :| 0 <= i < |tuples| && tuples[i].key == key;
    assert tuples[i] in tuples && tuples[i] in Filter(HasKey(key), tuples);
    Filter(HasKey(key), tuples)
  }

  function GroupRow(q: Query, tuples: seq<Tuple>, key: GroupKey): OutRow
    requires Occurs(tuples, key)
  {
    OutRow(key, Aggregate(q, Group(tuples, key)))
  }

  // ------------------------------------------------------------ ordering

  predicate Precedes(a: seq<int>, b: seq<int>) {
    b != [] && (a == [] || a[0] < b[0] || (a[0] == b[0] && Precedes(a[1..], b[1..])))
  }

  function Codes(s: string): (r: seq<int>)
    ensures |r| == |s| && forall i | 0 <= i < |s| :: r[i] == s[i] as int
  {
    seq(|s|, i requires 0 <= i < |s| => s[i] as int)
  }

  predicate KeyPrecedes(a: GroupKey, b: GroupKey) {
    Precedes(Codes(a.text), Codes(b.text)) || (a.text == b.text && Precedes(a.numbers, b.numbers))
  }

  /** ORDER BY the grouping columns; the second query by revenue from the top and then by driver. */
  predicate Before(q: Query, a: OutRow, b: OutRow) {
    if q.TopDrivers? then
      a.measures.revenue > b.measures.revenue
      || (a.measures.revenue == b.measures.revenue && KeyPrecedes(a.key, b.key))
    else KeyPrecedes(a.key, b.key)
  }

  function Inserted(q: Query, row: OutRow, rows: seq<OutRow>): seq<OutRow> {
    if rows == [] || Before(q, row, rows[0]) then [row] + rows
    else [rows[0]] + Inserted(q, row, rows[1..])
  }

  function Listing(q: Query, tuples: seq<Tuple>, keys: seq<GroupKey>): seq<OutRow>
    requires forall i | 0 <= i < |keys| :: Occurs(tuples, keys[i])
  {
    if keys == [] then [] else Inserted(q, GroupRow(q, tuples, keys[0]), Listing(q, tuples, keys[1..]))
  }

  function Limit(q: Query): int { if q.TopDrivers? then 25 else -1 }

  function Limited(q: Query, rows: seq<OutRow>): seq<OutRow> {
    if 0 <= Limit(q) < |rows| then rows[..Limit(q)] else rows
  }

  /** What the query returns. */
  function Answer(q: Query, tuples: seq<Tuple>): seq<OutRow> {
    Limited(q, Listing(q, tuples, Keys(tuples)))
  }
}
