/**
 The analytics benchmark: one corpus loaded twice, as a wide table and as a
 star schema, and five queries written against each.

 A physical table is a sequence in no particular order. A query's FROM, JOIN
 and WHERE give a bag of tuples; GROUP BY and the aggregates see only that bag;
 ORDER BY and LIMIT then fix the list of rows returned.
 */
module Analytics {
  import opened Cities
  import opened Seqs

  // ------------------------------------------------------------ the calendar and the generator's constants

  /** What the calendar library says of a day, numbered from the epoch. */
  datatype Calendar = Calendar(year: int -> int, month: int -> int, dayOfMonth: int -> int, isoYear: int -> int,
                               isoWeek: int -> int)

  /** Year, month and day written side by side and read as a number. */
  function DateKey(cal: Calendar, day: int): int {
    10000 * cal.year(day) + 100 * cal.month(day) + cal.dayOfMonth(day)
  }

  /** Different days of the span have different dates. */
  ghost predicate NamesDays(cal: Calendar, first: int, last: int) {
    && (forall d | first <= d <= last :: 1 <= cal.month(d) <= 12 && 1 <= cal.dayOfMonth(d) <= 31)
    && (forall i, j | first <= i < j <= last :: !SameDate(cal, i, j))
  }

  predicate SameDate(cal: Calendar, i: int, j: int) {
    cal.year(i) == cal.year(j) && cal.month(i) == cal.month(j) && cal.dayOfMonth(i) == cal.dayOfMonth(j)
  }

  /** Year, month and day can be read off the number they make. */
  lemma SideBySide(y: int, m: int, d: int, y': int, m': int, d': int)
    requires 1 <= m <= 12 && 1 <= d <= 31 && 1 <= m' <= 12 && 1 <= d' <= 31
    requires 10000 * y + 100 * m + d == 10000 * y' + 100 * m' + d'
    ensures y == y' && m == m' && d == d'
  {
  }

  /** A date key names one day, so a fact row joins one row of the date dimension. */
  lemma DateKeysAreDistinct(cal: Calendar, first: int, last: int, i: int, j: int)
    requires NamesDays(cal, first, last) && first <= i <= last && first <= j <= last && i != j
    ensures DateKey(cal, i) != DateKey(cal, j)
  {
    if i < j { assert !SameDate(cal, i, j); } else { assert !SameDate(cal, j, i); }
    assert 1 <= cal.month(i) <= 12 && 1 <= cal.dayOfMonth(i) <= 31;
    assert 1 <= cal.month(j) <= 12 && 1 <= cal.dayOfMonth(j) <= 31;
    hide NamesDays;
    if DateKey(cal, i) == DateKey(cal, j) {
      SideBySide(cal.year(i), cal.month(i), cal.dayOfMonth(i), cal.year(j), cal.month(j), cal.dayOfMonth(j));
    }
  }

  const SECONDS_PER_DAY := 86400

  function DayOf(second: int): int { second / SECONDS_PER_DAY }

  function HourOf(second: int): int { (second % SECONDS_PER_DAY) / 3600 }

  /** Monday is 0; the epoch was a Thursday. */
  function Weekday(day: int): int { (day + 3) % 7 }

  /** `EXTRACT(DOW ...)`: Sunday is 0. */
  function DayOfWeek(day: int): int { (day + 4) % 7 }

  /** A time is its day, its hour of the day and less than an hour. */
  lemma SecondsSplit(second: int)
    ensures 0 <= second - DayOf(second) * 86400 - HourOf(second) * 3600 < 3600
    ensures 0 <= HourOf(second) < 24
  {
  }

  /** The epoch was a Thursday, and the days of the week follow each other. */
  lemma DaysOfTheWeek(day: int)
    ensures DayOfWeek(0) == 4 && DayOfWeek(day + 1) == if DayOfWeek(day) == 6 then 0 else DayOfWeek(day) + 1
    ensures Weekday(0) == 3 && Weekday(day + 1) == if Weekday(day) == 6 then 0 else Weekday(day) + 1
    ensures 0 <= DayOfWeek(day) < 7 && 0 <= Weekday(day) < 7
  {
  }

  /** A date key read as a number: the year, then two digits of the month and two of the day. */
  lemma DateKeyReads(cal: Calendar, day: int)
    requires 1 <= cal.month(day) <= 12 && 1 <= cal.dayOfMonth(day) <= 31
    ensures DateKey(cal, day) / 10000 == cal.year(day) && DateKey(cal, day) / 100 % 100 == cal.month(day)
    ensures DateKey(cal, day) % 100 == cal.dayOfMonth(day)
  {
    DigitsRead(cal.year(day), cal.month(day), cal.dayOfMonth(day));
  }

  lemma DigitsRead(y: int, m: int, d: int)
    requires 1 <= m <= 12 && 1 <= d <= 31
    ensures var key := 10000 * y + 100 * m + d; key / 10000 == y && key / 100 % 100 == m && key % 100 == d
  {
    var key, front := 10000 * y + 100 * m + d, 100 * y + m;
    assert key == 100 * front + d;
    assert key / 100 == front && key % 100 == d;
    assert front % 100 == m && front / 100 == y;
    assert key == 10000 * y + (100 * m + d);
  }

  datatype City = City(id: string, name: string, region: string)

  const CITIES: seq<City> := [
    City(CITY_IDS[0], "New York", "Northeast"), City(CITY_IDS[1], "Chicago", "Midwest"),
    City(CITY_IDS[2], "San Francisco", "West"), City(CITY_IDS[3], "Los Angeles", "West"),
    City(CITY_IDS[4], "Boston", "Northeast"), City(CITY_IDS[5], "Seattle", "West"),
    City(CITY_IDS[6], "Austin", "South"), City(CITY_IDS[7], "Miami", "South")]

  const VEHICLE_CLASSES: seq<string> := ["economy", "comfort", "xl", "black"]

  const N_DRIVERS := 5000

  // ------------------------------------------------------------ driver ids

  function DigitChar(d: nat): char
    requires d < 10
  {
    ('0' as nat + d) as char
  }

  function DigitValue(c: char): nat {
    if '0' <= c <= '9' then (c as int) - ('0' as int) else 0
  }

  /** `{k:06d}` for numbers that fit. */
  function Padded(k: nat, width: nat): (s: string)
    ensures |s| == width
  {
    if width == 0 then "" else Padded(k / 10, width - 1) + [DigitChar(k % 10)]
  }

  function ParseInt(s: string): nat {
    if s == "" then 0 else 10 * ParseInt(s[..|s| - 1]) + DigitValue(s[|s| - 1])
  }

  function DriverId(k: nat): string { "d-" + Padded(k, 6) }

  /** `int(driver_id.split("-")[1])` for ids of the generator's shape. */
  function DriverKey(id: string): nat {
    if |id| < 2 then 0 else ParseInt(id[2..])
  }

  function Pow10(n: nat): nat { if n == 0 then 1 else 10 * Pow10(n - 1) }

  lemma DigitRoundTrip(d: nat)
    requires d < 10
    ensures DigitValue(DigitChar(d)) == d
  {
  }

  lemma {:induction false} ParsePadded(k: nat, width: nat)
    requires k < Pow10(width)
    ensures ParseInt(Padded(k, width)) == k
  {
    hide DigitChar, DigitValue;
    if width > 0 {
      var high, low := k / 10, k % 10;
      assert k == 10 * high + low && high < Pow10(width - 1);
      var s := Padded(high, width - 1) + [DigitChar(low)];
      assert Padded(k, width) == s;
      assert s[..|s| - 1] == Padded(high, width - 1) && s[|s| - 1] == DigitChar(low);
      ParsePadded(high, width - 1);
      DigitRoundTrip(low);
    }
  }

  /** The key recovered from a driver id is the key it was made from. */
  lemma DriverRoundTrip(k: nat)
    requires k < N_DRIVERS
    ensures DriverKey(DriverId(k)) == k
  {
    assert Pow10(6) == 1000000 by { assert Pow10(3) == 1000; assert Pow10(4) == 10000; }
    ParsePadded(k, 6);
    assert DriverId(k)[2..] == Padded(k, 6);
  }

  // ------------------------------------------------------------ tables

  /** One generated event with the time the loader spread it to. */
  datatype Trip = Trip(tripId: nat, city: nat, driver: nat, vehicle: nat, distance: real, fare: real, surge: real,
                       status: string, second: int)

  datatype WideRow = WideRow(tripId: nat, second: int, cityName: string, region: string, driverId: string,
                             vehicleClass: string, distance: real, fare: real, surge: real, status: string)

  datatype FactRow = FactRow(tripId: nat, dateKey: int, driverKey: nat, fare: real, distance: real, cityKey: nat,
                             vehicleKey: nat, hourOfDay: int, isCompleted: bool, isSurged: bool)

  datatype DimDate = DimDate(dateKey: int, fullDate: int, dayOfWeek: int, isoWeek: int, isoYear: int, isWeekend: bool)
  datatype DimCity = DimCity(cityKey: nat, cityId: string, cityName: string, region: string)
  datatype DimDriver = DimDriver(driverKey: nat, driverId: string)
  datatype DimVehicle = DimVehicle(vehicleKey: nat, vehicleClass: string)

  datatype Dimensions = Dimensions(dates: seq<DimDate>, cities: seq<DimCity>, drivers: seq<DimDriver>,
                                   vehicles: seq<DimVehicle>)

  /** What the generator and the spreading produce. */
  predicate FromGenerator(t: Trip, start: int, days: nat) {
    && t.city < |CITIES| && t.driver < N_DRIVERS && t.vehicle < |VEHICLE_CLASSES|
    && start <= DayOf(t.second) < start + days
  }

  predicate Corpus(trips: seq<Trip>, start: int, days: nat) {
    forall i | 0 <= i < |trips| :: FromGenerator(trips[i], start, days)
  }

  // ------------------------------------------------------------ the loader

  function DateRow(cal: Calendar, d: int): DimDate {
    DimDate(DateKey(cal, d), d, (Weekday(d) + 1) % 7, cal.isoWeek(d), cal.isoYear(d), Weekday(d) >= 5)
  }

  function CityRow(i: nat): DimCity
    requires i < |CITIES|
  {
    DimCity(i + 1, CITIES[i].id, CITIES[i].name, CITIES[i].region)
  }

  function DriverRow(k: nat): DimDriver { DimDriver(k, DriverId(k)) }

  function VehicleRow(i: nat): DimVehicle
    requires i < |VEHICLE_CLASSES|
  {
    DimVehicle(i + 1, VEHICLE_CLASSES[i])
  }

  function DateRows(cal: Calendar, start: int, n: nat): (r: seq<DimDate>)
    ensures |r| == n && forall i | 0 <= i < n :: r[i] == DateRow(cal, start - 2 + i)
  {
    seq(n, i requires 0 <= i < n => DateRow(cal, start - 2 + i))
  }

  function CityRows(n: nat): (r: seq<DimCity>)
    requires n <= |CITIES|
    ensures |r| == n && forall i | 0 <= i < n :: r[i] == CityRow(i)
  {
    seq(n, i requires 0 <= i < n => CityRow(i))
  }

  function DriverRows(n: nat): (r: seq<DimDriver>)
    ensures |r| == n && forall k | 0 <= k < n :: r[k] == DriverRow(k)
  {
    seq(n, k requires 0 <= k < n => DriverRow(k))
  }

  function VehicleRows(n: nat): (r: seq<DimVehicle>)
    requires n <= |VEHICLE_CLASSES|
    ensures |r| == n && forall i | 0 <= i < n :: r[i] == VehicleRow(i)
  {
    seq(n, i requires 0 <= i < n => VehicleRow(i))
  }

  function LoadedDimensions(cal: Calendar, start: int, days: nat): Dimensions {
    Dimensions(DateRows(cal, start, days + 5), CityRows(|CITIES|), DriverRows(N_DRIVERS),
               VehicleRows(|VEHICLE_CLASSES|))
  }

  /** The surrogate keys, by the text they stand for. */
  datatype KeyMaps = KeyMaps(city: map<string, nat>, vehicle: map<string, nat>)

  ghost predicate MapsAgree(m: KeyMaps) {
    && (forall i | 0 <= i < |CITIES| :: CITIES[i].id in m.city && m.city[CITIES[i].id] == i + 1)
    && (forall i | 0 <= i < |VEHICLE_CLASSES| ::
          VEHICLE_CLASSES[i] in m.vehicle && m.vehicle[VEHICLE_CLASSES[i]] == i + 1)
  }

  lemma VehiclesDiffer(i: nat, j: nat)
    requires i < j < |VEHICLE_CLASSES|
    ensures VEHICLE_CLASSES[i] != VEHICLE_CLASSES[j]
  {
    assert VEHICLE_CLASSES[i][0] != VEHICLE_CLASSES[j][0];
  }

  /** The dimension rows: dates from two days before the span to three after, and serial keys from 1. */
  lemma DimensionsMean(cal: Calendar, start: int, days: nat)
    ensures var dims := LoadedDimensions(cal, start, days);
      && |dims.dates| == days + 5
      && (forall i | 0 <= i < |dims.dates| :: var d := start - 2 + i;
            dims.dates[i].fullDate == d && dims.dates[i].dayOfWeek == DayOfWeek(d)
            && (dims.dates[i].isWeekend <==> DayOfWeek(d) == 0 || DayOfWeek(d) == 6)
            && dims.dates[i].isoWeek == cal.isoWeek(d) && dims.dates[i].isoYear == cal.isoYear(d)
            && dims.dates[i].dateKey == DateKey(cal, d))
      && |dims.cities| == |CITIES| && |dims.vehicles| == |VEHICLE_CLASSES| && |dims.drivers| == 5000
      && (forall i | 0 <= i < |CITIES| ::
            dims.cities[i] == DimCity(i + 1, CITIES[i].id, CITIES[i].name, CITIES[i].region))
      && (forall i | 0 <= i < |VEHICLE_CLASSES| :: dims.vehicles[i] == DimVehicle(i + 1, VEHICLE_CLASSES[i]))
      && (forall k | 0 <= k < N_DRIVERS :: dims.drivers[k] == DimDriver(k, DriverId(k)))
  {
  }

  /** The keys handed to the loader are those of the rows with the text. */
  lemma MapsPointAtRows(cal: Calendar, start: int, days: nat, maps: KeyMaps)
    requires MapsAgree(maps)
    ensures var dims := LoadedDimensions(cal, start, days);
      && (forall i | 0 <= i < |dims.cities| ::
            dims.cities[i].cityId in maps.city && maps.city[dims.cities[i].cityId] == dims.cities[i].cityKey)
      && (forall i | 0 <= i < |dims.vehicles| ::
            && dims.vehicles[i].vehicleClass in maps.vehicle
            && maps.vehicle[dims.vehicles[i].vehicleClass] == dims.vehicles[i].vehicleKey)
  {
  }

  method LoadDates(cal: Calendar, start: int, days: nat) returns (dates: seq<DimDate>)
    ensures dates == DateRows(cal, start, days + 5)
  {
    dates := [];
    for i := 0 to days + 5
      invariant dates == DateRows(cal, start, i)
    {
      dates := dates + [DateRow(cal, start - 2 + i)];
    }
  }

  method LoadCities() returns (cities: seq<DimCity>, keys: map<string, nat>)
    ensures cities == CityRows(|CITIES|)
    ensures forall i | 0 <= i < |CITIES| :: CITIES[i].id in keys && keys[CITIES[i].id] == i + 1
  {
    cities, keys := [], map[];
    for i := 0 to |CITIES|
      invariant cities == CityRows(i)
      invariant forall j | 0 <= j < i :: CITIES[j].id in keys && keys[CITIES[j].id] == j + 1
    {
      forall j | 0 <= j < i { CityIdsDiffer(j, i); }
      cities := cities + [CityRow(i)];
      keys := keys[CITIES[i].id := i + 1];
    }
  }

  method LoadVehicles() returns (vehicles: seq<DimVehicle>, keys: map<string, nat>)
    ensures vehicles == VehicleRows(|VEHICLE_CLASSES|)
    ensures forall i | 0 <= i < |VEHICLE_CLASSES| :: VEHICLE_CLASSES[i] in keys && keys[VEHICLE_CLASSES[i]] == i + 1
  {
    vehicles, keys := [], map[];
    for i := 0 to |VEHICLE_CLASSES|
      invariant vehicles == VehicleRows(i)
      invariant forall j | 0 <= j < i :: VEHICLE_CLASSES[j] in keys && keys[VEHICLE_CLASSES[j]] == j + 1
    {
      forall j | 0 <= j < i { VehiclesDiffer(j, i); }
      vehicles := vehicles + [VehicleRow(i)];
      keys := keys[VEHICLE_CLASSES[i] := i + 1];
    }
  }

  method LoadDimensions(cal: Calendar, start: int, days: nat) returns (dims: Dimensions, maps: KeyMaps)
    ensures dims == LoadedDimensions(cal, start, days)
    ensures MapsAgree(maps)
  {
    var dates := LoadDates(cal, start, days);
    var cities, cityKeys := LoadCities();
    var vehicles, vehicleKeys := LoadVehicles();
    dims := Dimensions(dates, cities, DriverRows(N_DRIVERS), vehicles);
    maps := KeyMaps(cityKeys, vehicleKeys);
  }

  function WideOf(t: Trip): WideRow
    requires t.city < |CITIES| && t.vehicle < |VEHICLE_CLASSES|
  {
    WideRow(t.tripId, t.second, CITIES[t.city].name, CITIES[t.city].region, DriverId(t.driver),
            VEHICLE_CLASSES[t.vehicle], t.distance, t.fare, t.surge, t.status)
  }

  function FactOf(cal: Calendar, t: Trip): FactRow {
    FactRow(t.tripId, DateKey(cal, DayOf(t.second)), t.driver, t.fare, t.distance, t.city + 1, t.vehicle + 1,
            HourOf(t.second), t.status == "completed", t.surge > 1.0)
  }

  function WideRows(trips: seq<Trip>, start: int, days: nat): (r: seq<WideRow>)
    requires Corpus(trips, start, days)
    ensures |r| == |trips| && forall i | 0 <= i < |trips| :: r[i] == WideOf(trips[i])
  {
    seq(|trips|, i requires 0 <= i < |trips| => WideOf(trips[i]))
  }

  function FactRows(cal: Calendar, trips: seq<Trip>): (r: seq<FactRow>)
    ensures |r| == |trips| && forall i | 0 <= i < |trips| :: r[i] == FactOf(cal, trips[i])
  {
    seq(|trips|, i requires 0 <= i < |trips| => FactOf(cal, trips[i]))
  }

  /** Both rows of one event, the fact row by way of the surrogate keys. */
  method DeriveRows(cal: Calendar, t: Trip, maps: KeyMaps) returns (w: WideRow, f: FactRow)
    requires t.city < |CITIES| && t.driver < N_DRIVERS && t.vehicle < |VEHICLE_CLASSES| && MapsAgree(maps)
    ensures w == WideOf(t) && f == FactOf(cal, t)
  {
    var city, driverId, vehicle := CITIES[t.city], DriverId(t.driver), VEHICLE_CLASSES[t.vehicle];
    DriverRoundTrip(t.driver);
    w := WideRow(t.tripId, t.second, city.name, city.region, driverId, vehicle, t.distance, t.fare, t.surge, t.status);
    f := FactRow(t.tripId, DateKey(cal, DayOf(t.second)), DriverKey(driverId), t.fare, t.distance, maps.city[city.id],
                 maps.vehicle[vehicle], HourOf(t.second), t.status == "completed", t.surge > 1.0);
  }

  /** The two tables come from the same events in the same pass; how often the buffers are flushed leaves no trace. */
  method GenerateAndLoad(cal: Calendar, trips: seq<Trip>, start: int, days: nat, maps: KeyMaps, batch: int)
    returns (wide: seq<WideRow>, fact: seq<FactRow>, written: nat)
    requires Corpus(trips, start, days) && MapsAgree(maps) && batch != 0
    ensures wide == WideRows(trips, start, days) && fact == FactRows(cal, trips) && written == |trips|
  {
    hide MapsAgree, WideOf, FactOf;
    wide, fact, written := [], [], 0;
    var wideBuffer: seq<WideRow>, factBuffer: seq<FactRow> := [], [];
    for i := 0 to |trips|
      invariant written == i
      invariant wide + wideBuffer == WideRows(trips, start, days)[..i]
      invariant fact + factBuffer == FactRows(cal, trips)[..i]
    {
      var w, f := DeriveRows(cal, trips[i], maps);
      ConcatAssociates(wide, wideBuffer, [w]);
      ConcatAssociates(fact, factBuffer, [f]);
      wideBuffer, factBuffer := wideBuffer + [w], factBuffer + [f];
      written := written + 1;
      if written % batch == 0 {
        wide, fact := wide + wideBuffer, fact + factBuffer;
        wideBuffer, factBuffer := [], [];
      }
    }
    wide, fact := wide + wideBuffer, fact + factBuffer;
  }
}
