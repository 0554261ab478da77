/**
 Trip events, the three Cassandra tables they are written to, and the claim
 that those tables are "effectively once": their contents depend on the set of
 upserts that reached them and on nothing else.

 The JSON, UUID and calendar libraries are taken as partial functions whose
 result is already part of the value: a message carries its decoded fields, an
 identifier carries either its 128 bits or the text that is not a UUID, and
 times are milliseconds since the epoch. The fields are those of the stream's
 schema, which nulls or casts a value of another type; whether it had to is
 part of the message too, since the drain's direct write does neither.
 */
module Events {
  import opened Options

  /** A text field of the JSON object: null or absent, "", or some text. */
  datatype TextField = NoText | EmptyText | Text(text: string)

  /** An identifier field: null or absent, "", text that is no UUID, or a UUID. */
  datatype UuidField = NoUuid | EmptyUuid | BadUuid(text: string) | Uuid(bits: nat)

  /** The columns that validation does not look at. */
  datatype Attr =
    | RiderId | PickupZoneId | DropoffZoneId | VehicleClass | PaymentType
    | DistanceKm | DurationSec | SurgeMultiplier | Status | ProducerId | SchemaVersion

  datatype Scalar = Str(s: string) | Num(n: int) | Dec(d: real)

  /**
   The value of one Kafka message. `attrs` holds the keys the JSON object really
   has; `typed` says that each of its values is null or of its column's type.
   */
  datatype Message =
    | NotJson(text: string)
    | Json(eventId: UuidField, tripId: UuidField, eventTime: Option<int>,
           producedAtMs: Option<int>, cityId: TextField, driverId: TextField,
           fareAmount: Option<real>, attrs: map<Attr, Option<Scalar>>, typed: bool)

  datatype Table = TripsById | TripsByDriverDay | TripsByCityHour

  /** Primary keys. The constructor is the table, so one map holds all three tables. */
  datatype Key =
    | ById(trip: nat)
    | ByDriverDay(driver: string, day: int, time: int, trip: nat)
    | ByCityHour(city: string, hour: int, trip: nat)

  /** What a row holds apart from `ingested_at_ms`. */
  datatype Core = Core(eventId: nat, eventTime: int, cityId: string, driverId: string,
                       fareAmount: real, producedAtMs: Option<int>,
                       attrs: map<Attr, Option<Scalar>>)

  datatype Upsert = Upsert(key: Key, core: Core)

  datatype Write = Write(upsert: Upsert, ingestedAtMs: int)

  datatype Cell = Cell(core: Core, ingestedAtMs: int)

  type Store = map<Key, Cell>

  const MS_PER_HOUR := 3600000
  const MS_PER_DAY := 86400000

  function AllTables(): set<Table> { {TripsById, TripsByDriverDay, TripsByCityHour} }

  function AllAttrs(): set<Attr> {
    {RiderId, PickupZoneId, DropoffZoneId, VehicleClass, PaymentType, DistanceKm,
     DurationSec, SurgeMultiplier, Status, ProducerId, SchemaVersion}
  }

  function Columns(t: Table): set<Attr> {
    match t
    case TripsById => AllAttrs()
    case TripsByDriverDay =>
      {RiderId, VehicleClass, PaymentType, DistanceKm, DurationSec, SurgeMultiplier, Status}
    case TripsByCityHour =>
      {RiderId, PickupZoneId, DropoffZoneId, VehicleClass, PaymentType, DistanceKm,
       DurationSec, SurgeMultiplier, Status}
  }

  // ------------------------------------------------------------ row -> statements

  /** The first defect `_validate` reports, if any. */
  function Defect(m: Message): Option<string>
    requires m.Json?
  {
    if m.eventId.NoUuid? || m.eventId.EmptyUuid? then Some("missing required field 'event_id'")
    else if m.tripId.NoUuid? || m.tripId.EmptyUuid? then Some("missing required field 'trip_id'")
    else if m.eventTime.None? then Some("missing required field 'event_time'")
    else if !m.cityId.Text? then Some("missing required field 'city_id'")
    else if !m.driverId.Text? then Some("missing required field 'driver_id'")
    else if m.fareAmount.None? then Some("fare_amount is null")
    else if m.producedAtMs.None? then Some("produced_at_ms is null")
    else None
  }

  /** A message that both validation and UUID parsing let through. */
  predicate Accepted(m: Message) {
    m.Json? && Defect(m).None? && m.tripId.Uuid? && m.eventId.Uuid?
  }

  /** Every key a row needs is present, with value null or one of the column's type. */
  predicate Complete(m: Message) {
    m.Json? && AllAttrs() <= m.attrs.Keys && m.typed
  }

  /** Spark gives every column of the schema a value of its type, null when the JSON key is absent. */
  function SparkRow(m: Message): (r: Message)
    requires m.Json?
  {
    m.(attrs := map a | a in AllAttrs() :: if a in m.attrs then m.attrs[a] else None, typed := true)
  }

  function KeyOf(t: Table, m: Message): Key
    requires Accepted(m)
  {
    var time := m.eventTime.value;
    match t
    case TripsById => ById(m.tripId.bits)
    case TripsByDriverDay =>
      ByDriverDay(m.driverId.text, time / MS_PER_DAY, time, m.tripId.bits)
    case TripsByCityHour => ByCityHour(m.cityId.text, time / MS_PER_HOUR, m.tripId.bits)
  }

  function CoreOf(t: Table, m: Message): Core
    requires Accepted(m)
  {
    Core(m.eventId.bits, m.eventTime.value, m.cityId.text, m.driverId.text, m.fareAmount.value,
         if t == TripsById then m.producedAtMs else None,
         map a | a in Columns(t) :: if a in m.attrs then m.attrs[a] else None)
  }

  function UpsertOf(t: Table, m: Message): Upsert
    requires Accepted(m)
  {
    Upsert(KeyOf(t, m), CoreOf(t, m))
  }

  datatype Build = Built(upserts: seq<Upsert>) | Defective(reason: string) | Raised(reason: string)

  /** `build_statements` on a dictionary row; a column the row does not have is a KeyError. */
  function BuildStatements(row: Message, tables: set<Table>): (b: Build)
    requires row.Json?
    ensures b.Built? <==> Accepted(row) && forall t <- tables :: Columns(t) <= row.attrs.Keys
    ensures b.Built? ==> |b.upserts| == |tables|
    ensures b.Built? ==> forall u :: u in b.upserts <==> exists t <- tables :: u == UpsertOf(t, row)
    ensures b.Defective? <==> Defect(row).Some?
  {
    var d := Defect(row);
    if d.Some? then Defective("PermanentDefect: " + d.value)
    else if !row.tripId.Uuid? || !row.eventId.Uuid? then
      Raised("ValueError: badly formed hexadecimal UUID string")
    else if exists t <- tables :: !(Columns(t) <= row.attrs.Keys) then Raised("KeyError")
    else
      TablesAreThree(tables);
      Built((if TripsById in tables then [UpsertOf(TripsById, row)] else []) +
            (if TripsByDriverDay in tables then [UpsertOf(TripsByDriverDay, row)] else []) +
            (if TripsByCityHour in tables then [UpsertOf(TripsByCityHour, row)] else []))
  }

  lemma TablesAreThree(tables: set<Table>)
    ensures |tables| == (if TripsById in tables then 1 else 0) +
                        (if TripsByDriverDay in tables then 1 else 0) +
                        (if TripsByCityHour in tables then 1 else 0)
  {
    var others := tables - {TripsById};
    var last := others - {TripsByDriverDay};
    CountWithout(tables, TripsById);
    CountWithout(others, TripsByDriverDay);
    CountWithout(last, TripsByCityHour);
    assert last - {TripsByCityHour} == {} by {
      forall t ensures t !in last - {TripsByCityHour} {
        match t
        case TripsById =>
        case TripsByDriverDay =>
        case TripsByCityHour =>
      }
    }
  }

  lemma CountWithout(tables: set<Table>, t: Table)
    ensures |tables| == |tables - {t}| + if t in tables then 1 else 0
  {
    if t in tables { assert tables == (tables - {t}) + {t}; } else { assert tables - {t} == tables; }
  }

  /** A Spark row always has its columns, and building from it or from the message is the same. */
  lemma SparkRowBuilds(m: Message, tables: set<Table>)
    requires m.Json?
    ensures BuildStatements(SparkRow(m), tables).Built? <==> Accepted(m)
    ensures Accepted(m) ==> forall t :: UpsertOf(t, SparkRow(m)) == UpsertOf(t, m)
  {
    if Accepted(m) {
      forall t ensures UpsertOf(t, SparkRow(m)) == UpsertOf(t, m) {
        assert Columns(t) <= AllAttrs();
      }
    }
  }

  /**
   The direct write builds its statements from the JSON object itself. A value of
   the wrong type raises there or when the first statement, which has all the
   columns, binds it: either way before anything is written.
   */
  predicate Binds(m: Message)
    requires m.Json?
  {
    BuildStatements(m, AllTables()).Built? && m.typed
  }

  /** What tells a late event the drain can write from one it can not. */
  lemma DirectWriteBuilds(m: Message)
    requires m.Json?
    ensures Binds(m) <==> Accepted(m) && Complete(m)
  {
  }

  /**
   The row of trips_by_id tells any two events apart, missing keys counting as
   null, and fixes what the other two tables get.
   */
  lemma RowTellsTheEvent(m: Message, n: Message)
    requires Accepted(m) && Accepted(n)
    ensures UpsertOf(TripsById, m) == UpsertOf(TripsById, n) <==> SparkRow(m) == SparkRow(n)
    ensures UpsertOf(TripsById, m) == UpsertOf(TripsById, n) ==> forall t :: UpsertOf(t, m) == UpsertOf(t, n)
  {
    SparkRowBuilds(m, {});
    SparkRowBuilds(n, {});
    if UpsertOf(TripsById, m) == UpsertOf(TripsById, n) {
      assert SparkRow(m).attrs == CoreOf(TripsById, m).attrs && SparkRow(n).attrs == CoreOf(TripsById, n).attrs;
      assert SparkRow(m) == SparkRow(n);
    }
  }

  // ------------------------------------------------------------ what the statements say

  /** What validation and the UUID library let through, field by field. */
  lemma AcceptedMeans(m: Message)
    ensures Accepted(m) <==>
            && m.Json? && m.eventId.Uuid? && m.tripId.Uuid? && m.eventTime.Some? && m.cityId.Text? && m.driverId.Text?
            && m.fareAmount.Some? && m.producedAtMs.Some?
  {
  }

  predicate Given(f: UuidField) { f.BadUuid? || f.Uuid? }

  /**
   A row is rejected for the first required field it lacks, and a row that lacks
   none for a null number; otherwise it is not rejected.
   */
  lemma FirstDefect(m: Message)
    requires m.Json?
    ensures var keys := Given(m.eventId) && Given(m.tripId);
      var ends := keys && m.eventTime.Some? && m.cityId.Text?;
      && (Defect(m) == Some("missing required field 'event_id'") <==> !Given(m.eventId))
      && (Defect(m) == Some("missing required field 'trip_id'") <==> Given(m.eventId) && !Given(m.tripId))
      && (Defect(m) == Some("missing required field 'event_time'") <==> keys && m.eventTime.None?)
      && (Defect(m) == Some("missing required field 'city_id'") <==> keys && m.eventTime.Some? && !m.cityId.Text?)
      && (Defect(m) == Some("missing required field 'driver_id'") <==> ends && !m.driverId.Text?)
      && (Defect(m) == Some("fare_amount is null") <==> ends && m.driverId.Text? && m.fareAmount.None?)
      && (Defect(m) == Some("produced_at_ms is null") <==>
          ends && m.driverId.Text? && m.fareAmount.Some? && m.producedAtMs.None?)
      && (Defect(m) == None <==> ends && m.driverId.Text? && m.fareAmount.Some? && m.producedAtMs.Some?)
  {
    ReasonsDiffer();
  }

  lemma ReasonsDiffer()
    ensures "missing required field 'event_id'"[24] == 'e' && "missing required field 'event_id'"[30] == 'i'
    ensures "missing required field 'trip_id'"[24] == 't'
    ensures "missing required field 'event_time'"[24] == 'e' && "missing required field 'event_time'"[30] == 't'
    ensures "missing required field 'city_id'"[24] == 'c' && "missing required field 'driver_id'"[24] == 'd'
    ensures "fare_amount is null"[0] == 'f' && "produced_at_ms is null"[0] == 'p'
  {
  }

  /** A whole number of periods of the epoch: the one a time falls in. */
  lemma PeriodOf(time: int, period: int)
    requires period > 0
    ensures time / period * period <= time < (time / period + 1) * period
  {
    assert time == time / period * period + time % period;
    assert (time / period + 1) * period == time / period * period + period;
  }

  /**
   The key of each statement: the trip; the driver, the UTC day and the time; the
   city and the UTC hour. There is one statement for each table asked for.
   */
  lemma StatementKeys(row: Message, tables: set<Table>)
    requires row.Json? && BuildStatements(row, tables).Built?
    ensures Accepted(row)
    ensures forall u <- BuildStatements(row, tables).upserts ::
      match u.key
      case ById(trip) => TripsById in tables && trip == row.tripId.bits
      case ByDriverDay(driver, day, time, trip) =>
        && TripsByDriverDay in tables && driver == row.driverId.text && trip == row.tripId.bits
        && time == row.eventTime.value && day * 86_400_000 <= time < (day + 1) * 86_400_000
      case ByCityHour(city, hour, trip) =>
        && TripsByCityHour in tables && city == row.cityId.text && trip == row.tripId.bits
        && hour * 3_600_000 <= row.eventTime.value < (hour + 1) * 3_600_000
    ensures TripsById in tables <==> exists u <- BuildStatements(row, tables).upserts :: u.key.ById?
    ensures TripsByDriverDay in tables <==> exists u <- BuildStatements(row, tables).upserts :: u.key.ByDriverDay?
    ensures TripsByCityHour in tables <==> exists u <- BuildStatements(row, tables).upserts :: u.key.ByCityHour?
  {
    hide CoreOf;
    var us := BuildStatements(row, tables).upserts;
    PeriodOf(row.eventTime.value, 86_400_000);
    PeriodOf(row.eventTime.value, 3_600_000);
    assert forall t <- tables :: UpsertOf(t, row) in us;
    assert UpsertOf(TripsById, row).key.ById? && UpsertOf(TripsByDriverDay, row).key.ByDriverDay?;
    assert UpsertOf(TripsByCityHour, row).key.ByCityHour?;
  }

  /** The columns each table's statement binds besides those every table has. */
  function Bound(key: Key): set<Attr> {
    match key
    case ById(_) =>
      {RiderId, PickupZoneId, DropoffZoneId, VehicleClass, PaymentType, DistanceKm, DurationSec, SurgeMultiplier,
       Status, ProducerId, SchemaVersion}
    case ByDriverDay(_, _, _, _) =>
      {RiderId, VehicleClass, PaymentType, DistanceKm, DurationSec, SurgeMultiplier, Status}
    case ByCityHour(_, _, _) =>
      {RiderId, PickupZoneId, DropoffZoneId, VehicleClass, PaymentType, DistanceKm, DurationSec, SurgeMultiplier,
       Status}
  }

  /** Every column of a statement is the event's own, and the columns are those of its table. */
  lemma StatementColumns(row: Message, tables: set<Table>, u: Upsert)
    requires row.Json? && BuildStatements(row, tables).Built? && u in BuildStatements(row, tables).upserts
    ensures Accepted(row)
    ensures u.core.eventId == row.eventId.bits && u.core.eventTime == row.eventTime.value
    ensures u.core.cityId == row.cityId.text && u.core.driverId == row.driverId.text
    ensures u.core.fareAmount == row.fareAmount.value
    ensures u.core.producedAtMs == if u.key.ById? then row.producedAtMs else None
    ensures u.core.attrs.Keys == Bound(u.key)
    ensures forall a <- Bound(u.key) :: a in row.attrs && u.core.attrs[a] == row.attrs[a]
  {
    var t :| t in tables && u == UpsertOf(t, row);
    assert Columns(t) <= row.attrs.Keys;
    assert Columns(t) == Bound(u.key) by {
      match t
      case TripsById =>
      case TripsByDriverDay =>
      case TripsByCityHour =>
    }
  }

  /** On the stream a column is the message's own where the message has it, and null where it has not. */
  lemma StreamColumns(m: Message, tables: set<Table>, u: Upsert)
    requires m.Json? && BuildStatements(SparkRow(m), tables).Built? && u in BuildStatements(SparkRow(m), tables).upserts
    ensures Accepted(m)
    ensures forall a <- u.core.attrs :: u.core.attrs[a] == if a in m.attrs then m.attrs[a] else None
  {
    StatementColumns(SparkRow(m), tables, u);
  }

  // ------------------------------------------------------------ upserts

  /** The tables after a sequence of writes: the last write to a key wins. */
  function Apply(store: Store, ws: seq<Write>): Store {
    if ws == [] then store
    else
      var last := ws[|ws| - 1];
      Apply(store, ws[..|ws| - 1])[last.upsert.key := Cell(last.upsert.core, last.ingestedAtMs)]
  }

  function Upserts(ws: seq<Write>): set<Upsert> {
    set w <- ws :: w.upsert
  }

  lemma UpsertsSnoc(ws: seq<Write>, w: Write)
    ensures Upserts(ws + [w]) == Upserts(ws) + {w.upsert}
  {
  }

  lemma UpsertsAppend(a: seq<Write>, b: seq<Write>)
    ensures Upserts(a + b) == Upserts(a) + Upserts(b)
  {
  }

  function Cores(store: Store): map<Key, Core> {
    map k | k in store :: store[k].core
  }

  /** Writing never removes a row. */
  lemma {:induction false} ApplyKeys(store: Store, ws: seq<Write>)
    ensures forall k :: k in Apply(store, ws) <==> k in store || exists u <- Upserts(ws) :: u.key == k
  {
    if ws != [] {
      var front, last := ws[..|ws| - 1], ws[|ws| - 1];
      ApplyKeys(store, front);
      assert ws == front + [last];
      assert Upserts(ws) == Upserts(front) + {last.upsert};
    }
  }

  /** A row holds what some write put there, or what it held before. */
  lemma {:induction false} ApplyValue(store: Store, ws: seq<Write>, k: Key)
    requires k in Apply(store, ws)
    ensures Upsert(k, Apply(store, ws)[k].core) in Upserts(ws) || (k in store && Apply(store, ws)[k] == store[k])
  {
    if ws != [] {
      var front, last := ws[..|ws| - 1], ws[|ws| - 1];
      assert ws == front + [last];
      assert Upserts(ws) == Upserts(front) + {last.upsert};
      if k != last.upsert.key {
        ApplyValue(store, front, k);
      }
    }
  }

  lemma {:induction false} ApplyAppend(store: Store, a: seq<Write>, b: seq<Write>)
    ensures Apply(store, a + b) == Apply(Apply(store, a), b)
  {
    if b == [] {
      assert a + b == a;
    } else {
      ApplyAppend(store, a, b[..|b| - 1]);
      assert (a + b)[..|a + b| - 1] == a + b[..|b| - 1];
    }
  }

  // ------------------------------------------------------------ effectively once

  /** No two upserts give one row different contents. */
  ghost predicate Consistent(us: set<Upsert>) {
    forall u <- us, v <- us :: u.key == v.key ==> u.core == v.core
  }

  /** The contents a consistent set of upserts stands for. */
  ghost predicate Holds(cores: map<Key, Core>, us: set<Upsert>) {
    && (forall u <- us :: u.key in cores && cores[u.key] == u.core)
    && (forall k <- cores :: Upsert(k, cores[k]) in us)
  }

  /** The tables, ignoring `ingested_at_ms`, are exactly the set of upserts that reached them. */
  lemma TablesAreTheSetOfUpserts(ws: seq<Write>)
    requires Consistent(Upserts(ws))
    ensures Holds(Cores(Apply(map[], ws)), Upserts(ws))
  {
    var store := Apply(map[], ws);
    ApplyKeys(map[], ws);
    forall k | k in store ensures Upsert(k, store[k].core) in Upserts(ws) {
      ApplyValue(map[], ws, k);
    }
  }

  /** Order, duplication, chunking and ingestion time leave no trace. */
  lemma EffectivelyOnce(ws: seq<Write>, ws': seq<Write>)
    requires Upserts(ws) == Upserts(ws') && Consistent(Upserts(ws))
    ensures Cores(Apply(map[], ws)) == Cores(Apply(map[], ws'))
  {
    TablesAreTheSetOfUpserts(ws);
    TablesAreTheSetOfUpserts(ws');
  }

  ghost predicate OrderIsInvisible(us: set<Upsert>) {
    forall ws, ws' :: Upserts(ws) == us && Upserts(ws') == us ==>
      Cores(Apply(map[], ws)) == Cores(Apply(map[], ws'))
  }

  /** Consistency is not merely enough: without it two orders leave different tables. */
  lemma EffectivelyOnceExactly(us: set<Upsert>)
    ensures OrderIsInvisible(us) <==> Consistent(us)
  {
    if Consistent(us) {
      forall ws, ws' | Upserts(ws) == us && Upserts(ws') == us
        ensures Cores(Apply(map[], ws)) == Cores(Apply(map[], ws'))
      {
        EffectivelyOnce(ws, ws');
      }
    } else {
      var u, v :| u in us && v in us && u.key == v.key && u.core != v.core;
      ConflictIsVisible(us, u, v);
    }
  }

  lemma ConflictIsVisible(us: set<Upsert>, u: Upsert, v: Upsert)
    requires u in us && v in us && u.key == v.key && u.core != v.core
    ensures !OrderIsInvisible(us)
  {
    var all := WritesFor(us);
    LastWriteWins(all, u);
    LastWriteWins(all, v);
    var endU, endV := all + [Write(u, 0)], all + [Write(v, 0)];
    assert Upserts(endU) == us && Upserts(endV) == us;
    assert Cores(Apply(map[], endU)) != Cores(Apply(map[], endV));
  }

  lemma LastWriteWins(ws: seq<Write>, u: Upsert)
    ensures var c := Cores(Apply(map[], ws + [Write(u, 0)])); u.key in c && c[u.key] == u.core
    ensures Upserts(ws + [Write(u, 0)]) == Upserts(ws) + {u}
  {
  }

  lemma WritesFor(us: set<Upsert>) returns (ws: seq<Write>)
    ensures Upserts(ws) == us
  {
    if us == {} {
      ws := [];
    } else {
      var u :| u in us;
      var rest := WritesFor(us - {u});
      LastWriteWins(rest, u);
      ws := rest + [Write(u, 0)];
    }
  }

  // ------------------------------------------------------------ events

  /** "trip_id determines the event", for the events that can be written. */
  ghost predicate TripDeterminesEvent(ms: set<Message>) {
    forall m <- ms, n <- ms :: Accepted(m) && Accepted(n) && m.tripId == n.tripId ==> m == n
  }

  ghost function UpsertsOfEvents(ms: set<Message>, tables: set<Table>): set<Upsert> {
    set m, t | m in ms && Accepted(m) && t in tables :: UpsertOf(t, m)
  }

  /** Every key contains the trip id, so events that differ never share a row. */
  lemma EventsAreConsistent(ms: set<Message>, tables: set<Table>)
    requires TripDeterminesEvent(ms)
    ensures Consistent(UpsertsOfEvents(ms, tables))
  {
  }

  /** The three tables are a function of the set of events written, whatever wrote them. */
  lemma TablesAreAFunctionOfTheEvents(ms: set<Message>, tables: set<Table>, ws: seq<Write>, ws': seq<Write>)
    requires TripDeterminesEvent(ms)
    requires Upserts(ws) == UpsertsOfEvents(ms, tables) == Upserts(ws')
    ensures Cores(Apply(map[], ws)) == Cores(Apply(map[], ws'))
    ensures forall m <- ms, t <- tables :: Accepted(m) ==>
              KeyOf(t, m) in Cores(Apply(map[], ws)) && Cores(Apply(map[], ws))[KeyOf(t, m)] == CoreOf(t, m)
  {
    EventsAreConsistent(ms, tables);
    EffectivelyOnce(ws, ws');
    TablesAreTheSetOfUpserts(ws);
    forall m <- ms, t <- tables | Accepted(m)
      ensures KeyOf(t, m) in Cores(Apply(map[], ws)) && Cores(Apply(map[], ws))[KeyOf(t, m)] == CoreOf(t, m)
    {
      assert UpsertOf(t, m) in Upserts(ws);
    }
  }
}
