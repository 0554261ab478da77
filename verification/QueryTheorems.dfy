/** Each star query returns exactly the rows of its baseline. */
module QueryTheorems {
  import opened Seqs
  import opened Analytics
  import opened Queries

  // ------------------------------------------------------------ the order is a strict total order on keys

  lemma {:induction false} PrecedesIsTotal(a: seq<int>, b: seq<int>)
    ensures !(Precedes(a, b) && Precedes(b, a))
    ensures a != b ==> Precedes(a, b) || Precedes(b, a)
    ensures !Precedes(a, a)
  {
    if a != [] {
      PrecedesIsTotal(a[1..], a[1..]);
      if b != [] {
        PrecedesIsTotal(a[1..], b[1..]);
        assert a == [a[0]] + a[1..] && b == [b[0]] + b[1..];
      }
    }
  }

  lemma {:induction false} PrecedesIsTransitive(a: seq<int>, b: seq<int>, c: seq<int>)
    requires Precedes(a, b) && Precedes(b, c)
    ensures Precedes(a, c)
  {
    if a != [] && a[0] == b[0] == c[0] {
      PrecedesIsTransitive(a[1..], b[1..], c[1..]);
    }
  }

  lemma CodesAreInjective(s: string, t: string)
    requires Codes(s) == Codes(t)
    ensures s == t
  {
  }

  lemma KeyOrder(a: GroupKey, b: GroupKey)
    ensures !(KeyPrecedes(a, b) && KeyPrecedes(b, a))
    ensures a != b ==> KeyPrecedes(a, b) || KeyPrecedes(b, a)
    ensures !KeyPrecedes(a, a)
  {
    PrecedesIsTotal(Codes(a.text), Codes(b.text));
    PrecedesIsTotal(a.numbers, b.numbers);
    PrecedesIsTotal(Codes(a.text), Codes(a.text));
    PrecedesIsTotal(a.numbers, a.numbers);
    if Codes(a.text) == Codes(b.text) { CodesAreInjective(a.text, b.text); }
  }

  lemma KeyTransitive(a: GroupKey, b: GroupKey, c: GroupKey)
    requires KeyPrecedes(a, b) && KeyPrecedes(b, c)
    ensures KeyPrecedes(a, c)
  {
    if Precedes(Codes(a.text), Codes(b.text)) && Precedes(Codes(b.text), Codes(c.text)) {
      PrecedesIsTransitive(Codes(a.text), Codes(b.text), Codes(c.text));
    } else if a.text == b.text == c.text && Precedes(a.numbers, b.numbers) && Precedes(b.numbers, c.numbers) {
      PrecedesIsTransitive(a.numbers, b.numbers, c.numbers);
    }
  }

  lemma RowOrder(q: Query, a: OutRow, b: OutRow)
    ensures !(Before(q, a, b) && Before(q, b, a))
    ensures a.key != b.key ==> Before(q, a, b) || Before(q, b, a)
  {
    hide KeyPrecedes;
    KeyOrder(a.key, b.key);
  }

  lemma RowTransitive(q: Query, a: OutRow, b: OutRow, c: OutRow)
    requires Before(q, a, b) && Before(q, b, c)
    ensures Before(q, a, c)
  {
    hide KeyPrecedes;
    if KeyPrecedes(a.key, b.key) && KeyPrecedes(b.key, c.key) { KeyTransitive(a.key, b.key, c.key); }
  }

  // ------------------------------------------------------------ a listing is the sorted list of its groups

  ghost predicate Sorted(q: Query, rows: seq<OutRow>) {
    forall i, j | 0 <= i < j < |rows| :: Before(q, rows[i], rows[j])
  }

  lemma {:induction false} InsertedMembers(q: Query, row: OutRow, rows: seq<OutRow>)
    ensures multiset(Inserted(q, row, rows)) == multiset(rows) + multiset{row}
  {
    hide Before;
    if rows != [] {
      InsertedMembers(q, row, rows[1..]);
      assert rows == [rows[0]] + rows[1..];
    }
  }

  lemma PrependSorted(q: Query, row: OutRow, rows: seq<OutRow>)
    requires Sorted(q, rows) && forall j | 0 <= j < |rows| :: Before(q, row, rows[j])
    ensures Sorted(q, [row] + rows)
  {
  }

  lemma {:induction false} InsertedIsSorted(q: Query, row: OutRow, rows: seq<OutRow>)
    requires Sorted(q, rows) && forall i | 0 <= i < |rows| :: rows[i].key != row.key
    ensures Sorted(q, Inserted(q, row, rows))
  {
    hide Before;
    if rows == [] {
    } else if Before(q, row, rows[0]) {
      forall j | 1 <= j < |rows| ensures Before(q, row, rows[j]) {
        RowTransitive(q, row, rows[0], rows[j]);
      }
      PrependSorted(q, row, rows);
    } else {
      RowOrder(q, row, rows[0]);
      var rest := Inserted(q, row, rows[1..]);
      InsertedIsSorted(q, row, rows[1..]);
      forall j | 0 <= j < |rest| ensures Before(q, rows[0], rest[j]) {
        InsertedOneOf(q, row, rows[1..], rest[j]);
      }
      PrependSorted(q, rows[0], rest);
    }
  }

  lemma InsertedOneOf(q: Query, row: OutRow, rows: seq<OutRow>, r: OutRow)
    requires r in Inserted(q, row, rows)
    ensures r == row || r in rows
  {
  }

  /** Every group gives one row, and no row comes from anywhere else. */
  lemma {:induction false} ListingMembers(q: Query, tuples: seq<Tuple>, keys: seq<GroupKey>)
    requires forall i | 0 <= i < |keys| :: Occurs(tuples, keys[i])
    ensures forall r :: r in Listing(q, tuples, keys) <==> r.key in keys && r == GroupRow(q, tuples, r.key)
  {
    hide Aggregate, Occurs, Before;
    if keys != [] {
      var row, rest := GroupRow(q, tuples, keys[0]), Listing(q, tuples, keys[1..]);
      ListingMembers(q, tuples, keys[1..]);
      InsertedMembers(q, row, rest);
      forall r ensures r in Listing(q, tuples, keys) <==> r.key in keys && r == GroupRow(q, tuples, r.key) {
        assert r in Inserted(q, row, rest) <==> r in multiset(Inserted(q, row, rest));
        assert r in rest <==> r in multiset(rest);
        assert keys == [keys[0]] + keys[1..];
      }
    }
  }

  lemma {:induction false} ListingIsSorted(q: Query, tuples: seq<Tuple>, keys: seq<GroupKey>)
    requires forall i | 0 <= i < |keys| :: Occurs(tuples, keys[i])
    requires forall i, j | 0 <= i < j < |keys| :: keys[i] != keys[j]
    ensures Sorted(q, Listing(q, tuples, keys))
  {
    hide Aggregate, Occurs, Before;
    if keys != [] {
      var rest := Listing(q, tuples, keys[1..]);
      ListingIsSorted(q, tuples, keys[1..]);
      ListingMembers(q, tuples, keys[1..]);
      forall i | 0 <= i < |rest| ensures rest[i].key != keys[0] {
        assert rest[i] in rest;
      }
      InsertedIsSorted(q, GroupRow(q, tuples, keys[0]), rest);
    }
  }

  lemma HasMember(b: seq<OutRow>)
    ensures b != [] ==> exists r :: r in b
  {
    if b != [] { assert b[0] in b; }
  }

  /** An ordered list is determined by its members. */
  lemma {:induction false} SortedIsUnique(q: Query, a: seq<OutRow>, b: seq<OutRow>)
    requires Sorted(q, a) && Sorted(q, b)
    requires forall r :: r in a <==> r in b
    ensures a == b
  {
    hide Before;
    HasMember(b);
    if a != [] {
      assert a[0] in b && b != [] && b[0] in a;
      var i :| 0 <= i < |b| && b[i] == a[0];
      var j :| 0 <= j < |a| && a[j] == b[0];
      RowOrder(q, a[0], b[0]);
      assert a[0] == b[0];
      forall r ensures r in a[1..] <==> r in b[1..] {
        SortedTail(q, a, r);
        SortedTail(q, b, r);
      }
      SortedIsUnique(q, a[1..], b[1..]);
    }
  }

  lemma SortedTail(q: Query, a: seq<OutRow>, r: OutRow)
    requires a != [] && Sorted(q, a)
    ensures r in a[1..] <==> r in a && r != a[0]
  {
    hide Before;
    if r in a[1..] {
      var i :| 1 <= i < |a| && a[i] == r;
      RowOrder(q, a[0], a[i]);
    }
  }

  // ------------------------------------------------------------ nothing is counted twice or left out

  function TripsIn(rows: seq<OutRow>): nat {
    if rows == [] then 0 else rows[0].measures.trips + TripsIn(rows[1..])
  }

  /** The sizes of the groups of the keys given. */
  function GroupSizes(keys: seq<GroupKey>, tuples: seq<Tuple>): nat {
    if keys == [] then 0 else |Filter(HasKey(keys[0]), tuples)| + GroupSizes(keys[1..], tuples)
  }

  lemma {:induction false} NoTuples(keys: seq<GroupKey>)
    ensures GroupSizes(keys, []) == 0
  {
    if keys != [] { NoTuples(keys[1..]); }
  }

  lemma {:induction false} OneTupleMore(keys: seq<GroupKey>, tuples: seq<Tuple>)
    requires tuples != [] && forall i, j | 0 <= i < j < |keys| :: keys[i] != keys[j]
    ensures GroupSizes(keys, tuples) == GroupSizes(keys, tuples[1..]) + if tuples[0].key in keys then 1 else 0
  {
    if keys != [] {
      OneTupleMore(keys[1..], tuples);
      assert tuples[0].key in keys <==> tuples[0].key == keys[0] || tuples[0].key in keys[1..];
      assert keys[0] !in keys[1..];
    }
  }

  lemma {:induction false} GroupsPartition(keys: seq<GroupKey>, tuples: seq<Tuple>)
    requires forall i, j | 0 <= i < j < |keys| :: keys[i] != keys[j]
    requires forall i | 0 <= i < |tuples| :: tuples[i].key in keys
    ensures GroupSizes(keys, tuples) == |tuples|
  {
    if tuples == [] {
      NoTuples(keys);
    } else {
      OneTupleMore(keys, tuples);
      GroupsPartition(keys, tuples[1..]);
    }
  }

  lemma {:induction false} InsertedTrips(q: Query, row: OutRow, rows: seq<OutRow>)
    ensures TripsIn(Inserted(q, row, rows)) == TripsIn(rows) + row.measures.trips
  {
    hide Before;
    if rows != [] { InsertedTrips(q, row, rows[1..]); }
  }

  lemma {:induction false} ListingTrips(q: Query, tuples: seq<Tuple>, keys: seq<GroupKey>)
    requires forall i | 0 <= i < |keys| :: Occurs(tuples, keys[i])
    ensures TripsIn(Listing(q, tuples, keys)) == GroupSizes(keys, tuples)
  {
    hide Occurs, Before;
    if keys != [] {
      ListingTrips(q, tuples, keys[1..]);
      InsertedTrips(q, GroupRow(q, tuples, keys[0]), Listing(q, tuples, keys[1..]));
    }
  }

  /** Every tuple is counted in exactly one row of the listing. */
  lemma ListingCountsAll(q: Query, tuples: seq<Tuple>)
    ensures TripsIn(Listing(q, tuples, Keys(tuples))) == |tuples|
  {
    hide Listing, GroupSizes;
    ListingTrips(q, tuples, Keys(tuples));
    forall i | 0 <= i < |tuples| ensures tuples[i].key in Keys(tuples) {
      assert Occurs(tuples, tuples[i].key);
    }
    GroupsPartition(Keys(tuples), tuples);
  }

  /** The limit keeps the first 25 of the listing, and every row it keeps comes before every row it cuts. */
  lemma LimitKeepsTheFirst(q: Query, tuples: seq<Tuple>)
    ensures var all := Listing(q, tuples, Keys(tuples));
      && Answer(q, tuples) <= all
      && |Answer(q, tuples)| == (if q.TopDrivers? && |all| > 25 then 25 else |all|)
      && (forall kept, cut | kept in Answer(q, tuples) && cut in all && cut !in Answer(q, tuples) ::
            Before(q, kept, cut))
  {
    hide Before, Listing;
    var all := Listing(q, tuples, Keys(tuples));
    ListingIsSorted(q, tuples, Keys(tuples));
    forall kept, cut | kept in Answer(q, tuples) && cut in all && cut !in Answer(q, tuples)
      ensures Before(q, kept, cut)
    {
      var i :| 0 <= i < |Answer(q, tuples)| && Answer(q, tuples)[i] == kept;
      var j :| 0 <= j < |all| && all[j] == cut;
      assert forall k | 0 <= k < |Answer(q, tuples)| :: all[k] == Answer(q, tuples)[k];
    }
  }

  // ------------------------------------------------------------ what a row says

  lemma NegatedQuotient(m: int, u: real)
    requires u > 0.0
    ensures -(m as real / u) == (-m) as real / u
  {
  }

  lemma Nearest(y: real)
    ensures (y + 0.5).Floor as real - 0.5 <= y < (y + 0.5).Floor as real + 0.5
  {
  }

  lemma RoundOfScaled(x: real, unit: int, scaled: real)
    requires unit > 0 && scaled == x * unit as real
    ensures x >= 0.0 ==> Round(x, unit) == (scaled + 0.5).Floor as real / unit as real
    ensures x < 0.0 ==> Round(x, unit) == -((-scaled + 0.5).Floor as real / unit as real)
  {
    assert -x * unit as real == -scaled;
  }

  /** Rounding gives the nearest multiple of the unit, and halves go away from zero. */
  lemma RoundIsNearest(x: real, unit: int) returns (n: int)
    requires unit > 0
    ensures Round(x, unit) == n as real / unit as real
    ensures x >= 0.0 ==> n as real - 0.5 <= x * unit as real < n as real + 0.5
    ensures x < 0.0 ==> n as real - 0.5 < x * unit as real <= n as real + 0.5
  {
    hide Round;
    var u := unit as real;
    var scaled := x * u;
    RoundOfScaled(x, unit, scaled);
    Nearest(scaled);
    Nearest(-scaled);
    if x >= 0.0 {
      n := (scaled + 0.5).Floor;
    } else {
      n := -((-scaled + 0.5).Floor);
      NegatedQuotient((-scaled + 0.5).Floor, u);
    }
  }

  /** Totals over the tuples of a key. */
  function FaresOf(tuples: seq<Tuple>, key: GroupKey): real {
    if tuples == [] then 0.0
    else (if tuples[0].key == key then tuples[0].fare else 0.0) + FaresOf(tuples[1..], key)
  }

  function DistancesOf(tuples: seq<Tuple>, key: GroupKey): real {
    if tuples == [] then 0.0
    else (if tuples[0].key == key then tuples[0].distance else 0.0) + DistancesOf(tuples[1..], key)
  }

  function TripsOf(tuples: seq<Tuple>, key: GroupKey): nat {
    if tuples == [] then 0 else (if tuples[0].key == key then 1 else 0) + TripsOf(tuples[1..], key)
  }

  function SurgedOf(tuples: seq<Tuple>, key: GroupKey): nat {
    if tuples == [] then 0
    else (if tuples[0].key == key && tuples[0].surged then 1 else 0) + SurgedOf(tuples[1..], key)
  }

  lemma FilterHead<T>(p: T -> bool, s: seq<T>)
    requires s != []
    ensures Filter(p, s) == if p(s[0]) then [s[0]] + Filter(p, s[1..]) else Filter(p, s[1..])
  {
  }

  lemma {:induction false} TotalsOfGroup(tuples: seq<Tuple>, key: GroupKey)
    ensures SumBy(Fare(), Filter(HasKey(key), tuples)) == FaresOf(tuples, key)
    ensures SumBy(Distance(), Filter(HasKey(key), tuples)) == DistancesOf(tuples, key)
    ensures |Filter(HasKey(key), tuples)| == TripsOf(tuples, key)
    ensures |Filter(Surged(), Filter(HasKey(key), tuples))| == SurgedOf(tuples, key)
  {
    if tuples != [] {
      var t, rest := tuples[0], Filter(HasKey(key), tuples[1..]);
      TotalsOfGroup(tuples[1..], key);
      FilterHead(HasKey(key), tuples);
      assert ([t] + rest)[0] == t && ([t] + rest)[1..] == rest;
      FilterHead(Surged(), [t] + rest);
    }
  }

  /** Every figure of a row is that of exactly the tuples of its key. */
  lemma RowMeans(q: Query, tuples: seq<Tuple>, row: OutRow)
    requires row in Answer(q, tuples)
    ensures var m, trips := row.measures, TripsOf(tuples, row.key);
      var surged, revenue := SurgedOf(tuples, row.key), Round(FaresOf(tuples, row.key), 100);
      && trips > 0
      && match q
         case RegionDay => m == Revenue(trips, revenue)
         case TopDrivers => m == Revenue(trips, revenue)
         case WeekendByVehicle =>
           m == RevenueAndFare(trips, revenue, Round(FaresOf(tuples, row.key) / trips as real, 100))
         case HourlyByCity =>
           m == DistanceAndRevenue(trips, Round(DistancesOf(tuples, row.key) / trips as real, 1000), revenue)
         case SurgeByCityWeek =>
           m == SurgeAndRevenue(trips, surged, Round(100.0 * surged as real / trips as real, 100), revenue)
  {
    hide Round, Filter, SumBy, TripsOf, SurgedOf, FaresOf, DistancesOf, Listing;
    ListingMembers(q, tuples, Keys(tuples));
    assert row in Listing(q, tuples, Keys(tuples));
    TotalsOfGroup(tuples, row.key);
  }

  // ------------------------------------------------------------ what order the rows come in

  /** Dictionary order. */
  predicate TextBefore(s: string, t: string) {
    exists k | 0 <= k <= |s| && k < |t| :: s[..k] == t[..k] && (k == |s| || s[k] < t[k])
  }

  predicate NumbersBefore(a: seq<int>, b: seq<int>) {
    exists k | 0 <= k <= |a| && k < |b| :: a[..k] == b[..k] && (k == |a| || a[k] < b[k])
  }

  lemma {:induction false} PrecedesIsLexical(a: seq<int>, b: seq<int>)
    requires Precedes(a, b)
    ensures NumbersBefore(a, b)
  {
    if a == [] || a[0] < b[0] {
      assert a[..0] == b[..0];
    } else {
      PrecedesIsLexical(a[1..], b[1..]);
      var a', b' := a[1..], b[1..];
      var k :| 0 <= k <= |a'| && k < |b'| && a'[..k] == b'[..k] && (k == |a'| || a'[k] < b'[k]);
      assert a[..k + 1] == [a[0]] + a[1..][..k] && b[..k + 1] == [b[0]] + b[1..][..k];
    }
  }

  lemma CodesAreLexical(s: string, t: string)
    requires NumbersBefore(Codes(s), Codes(t))
    ensures TextBefore(s, t)
  {
    var k :| 0 <= k <= |s| && k < |t| && Codes(s)[..k] == Codes(t)[..k] && (k == |s| || Codes(s)[k] < Codes(t)[k]);
    forall i | 0 <= i < k ensures s[i] == t[i] { assert Codes(s)[..k][i] == Codes(t)[..k][i]; }
    assert s[..k] == t[..k];
  }

  lemma KeysComeInOrder(a: GroupKey, b: GroupKey)
    requires KeyPrecedes(a, b)
    ensures TextBefore(a.text, b.text) || (a.text == b.text && NumbersBefore(a.numbers, b.numbers))
  {
    if Precedes(Codes(a.text), Codes(b.text)) {
      PrecedesIsLexical(Codes(a.text), Codes(b.text));
      CodesAreLexical(a.text, b.text);
    } else {
      PrecedesIsLexical(a.numbers, b.numbers);
    }
  }

  /** A false flag comes before a true one. */
  lemma WeekdaysComeFirst()
    ensures NumbersBefore([Flag(false)], [Flag(true)])
  {
    assert [Flag(false)][..0] == [Flag(true)][..0];
  }

  /**
   The order of the rows returned: the drivers by revenue from the top and then by
   name, every other query by the text and then number by number.
   */
  lemma AnswerIsInOrder(q: Query, tuples: seq<Tuple>, i: nat, j: nat)
    requires i < j < |Answer(q, tuples)|
    ensures var a, b := Answer(q, tuples)[i], Answer(q, tuples)[j];
      var byKey := TextBefore(a.key.text, b.key.text)
                   || (a.key.text == b.key.text && NumbersBefore(a.key.numbers, b.key.numbers));
      if q == TopDrivers
      then a.measures.revenue > b.measures.revenue || (a.measures.revenue == b.measures.revenue && byKey)
      else byKey
  {
    hide Listing, KeyPrecedes, TextBefore, NumbersBefore;
    var all := Listing(q, tuples, Keys(tuples));
    ListingIsSorted(q, tuples, Keys(tuples));
    LimitKeepsTheFirst(q, tuples);
    var a, b := Answer(q, tuples)[i], Answer(q, tuples)[j];
    assert a == all[i] && b == all[j];
    assert Before(q, a, b);
    if KeyPrecedes(a.key, b.key) { KeysComeInOrder(a.key, b.key); }
  }

  /**
   Every key that occurs has a row, except that of the drivers only 25 have, and
   then no driver without a row has made more than any of these.
   */
  lemma AnswerLeavesOut(q: Query, tuples: seq<Tuple>, t: Tuple)
    requires t in tuples
    ensures (exists row <- Answer(q, tuples) :: row.key == t.key)
      || (q == TopDrivers && |Answer(q, tuples)| == 25 &&
          forall row <- Answer(q, tuples) :: Round(FaresOf(tuples, t.key), 100) <= row.measures.revenue)
  {
    hide Listing, KeyPrecedes, Round, FaresOf, Filter, SumBy;
    var all := Listing(q, tuples, Keys(tuples));
    assert Occurs(tuples, t.key);
    var mine := GroupRow(q, tuples, t.key);
    ListingMembers(q, tuples, Keys(tuples));
    assert mine in all;
    LimitKeepsTheFirst(q, tuples);
    if mine !in Answer(q, tuples) {
      TotalsOfGroup(tuples, t.key);
      assert q.TopDrivers? ==> mine.measures.revenue == Round(FaresOf(tuples, t.key), 100);
    }
  }

  /** The surge share is a percentage of the trips of its row. */
  lemma SurgeShareIsAPercentage(tuples: seq<Tuple>, row: OutRow)
    requires row in Answer(SurgeByCityWeek, tuples)
    ensures row.measures.SurgeAndRevenue? && row.measures.surgedTrips <= row.measures.trips
    ensures 0.0 <= row.measures.surgePct <= 100.0
  {
    hide Listing, Aggregate, Occurs, Group;
    ListingMembers(SurgeByCityWeek, tuples, Keys(tuples));
    assert row in Listing(SurgeByCityWeek, tuples, Keys(tuples));
    SurgeOfGroup(Group(tuples, row.key));
  }

  lemma SurgeOfGroup(group: seq<Tuple>)
    requires group != []
    ensures var m := Aggregate(SurgeByCityWeek, group);
      m.SurgeAndRevenue? && m.surgedTrips <= m.trips && 0.0 <= m.surgePct <= 100.0
  {
    FilterIsNoLonger(Surged(), group);
    ShareRounds(|Filter(Surged(), group)|, |group|);
    hide Round, Filter, SumBy;
  }

  lemma {:induction false} FilterIsNoLonger<T>(p: T -> bool, s: seq<T>)
    ensures |Filter(p, s)| <= |s|
  {
    if s != [] { FilterIsNoLonger(p, s[1..]); }
  }

  lemma ShareRounds(part: nat, whole: nat)
    requires part <= whole && whole > 0
    ensures 0.0 <= Round(100.0 * part as real / whole as real, 100) <= 100.0
  {
    var share := 100.0 * part as real / whole as real;
    assert share * whole as real == 100.0 * part as real;
    assert share >= 0.0;
    assert (100.0 - share) * whole as real >= 0.0;
    assert share <= 100.0;
    var cents := (share * 100.0 + 0.5).Floor;
    assert 0 <= cents <= 10000;
  }

  // ------------------------------------------------------------ an answer depends only on the bag of tuples

  lemma OccursInPermutation(a: seq<Tuple>, b: seq<Tuple>, key: GroupKey)
    requires multiset(a) == multiset(b)
    ensures Occurs(a, key) ==> Occurs(b, key)
  {
    if Occurs(a, key) {
      var i :| 0 <= i < |a| && a[i].key == key;
      assert a[i] in multiset(b);
    }
  }

  lemma AggregateOfPermutation(q: Query, g: seq<Tuple>, h: seq<Tuple>)
    requires multiset(g) == multiset(h) && g != [] && h != []
    ensures Aggregate(q, g) == Aggregate(q, h)
  {
    hide Round, SumBy, Filter;
    SameLength(g, h);
    SumByPermutation(Fare(), g, h);
    SumByPermutation(Distance(), g, h);
    FilterPermutation(Surged(), g, h);
    SameLength(Filter(Surged(), g), Filter(Surged(), h));
  }

  lemma GroupRowOfPermutation(q: Query, a: seq<Tuple>, b: seq<Tuple>, key: GroupKey)
    requires multiset(a) == multiset(b) && Occurs(a, key) && Occurs(b, key)
    ensures GroupRow(q, a, key) == GroupRow(q, b, key)
  {
    hide Aggregate;
    FilterPermutation(HasKey(key), a, b);
    AggregateOfPermutation(q, Group(a, key), Group(b, key));
  }

  /** What a query returns does not depend on the order in which a plan finds its tuples. */
  lemma AnswerOfPermutation(q: Query, a: seq<Tuple>, b: seq<Tuple>)
    requires multiset(a) == multiset(b)
    ensures Answer(q, a) == Answer(q, b)
  {
    hide Occurs, GroupRow, Before;
    forall k ensures Occurs(a, k) <==> Occurs(b, k) {
      OccursInPermutation(a, b, k);
      OccursInPermutation(b, a, k);
    }
    var listA, listB := Listing(q, a, Keys(a)), Listing(q, b, Keys(b));
    ListingMembers(q, a, Keys(a));
    ListingMembers(q, b, Keys(b));
    ListingIsSorted(q, a, Keys(a));
    ListingIsSorted(q, b, Keys(b));
    forall r ensures r in listA <==> r in listB {
      if r.key in Keys(a) { GroupRowOfPermutation(q, a, b, r.key); }
    }
    SortedIsUnique(q, listA, listB);
  }

  // ------------------------------------------------------------ one trip gives both schemas the same tuple

  /** The four dimensions as loaded, their rows in any physical order. */
  ghost predicate Stored(cal: Calendar, start: int, days: nat, dims: Dimensions) {
    var loaded := LoadedDimensions(cal, start, days);
    && multiset(dims.dates) == multiset(loaded.dates)
    && multiset(dims.cities) == multiset(loaded.cities)
    && multiset(dims.drivers) == multiset(loaded.drivers)
    && multiset(dims.vehicles) == multiset(loaded.vehicles)
  }

  lemma OnlyMatch<T>(p: T -> bool, stored: seq<T>, loaded: seq<T>, k: nat)
    requires multiset(stored) == multiset(loaded)
    requires k < |loaded| && forall i | 0 <= i < |loaded| :: p(loaded[i]) <==> i == k
    ensures Filter(p, stored) == [loaded[k]]
  {
    FilterOnly(p, loaded, k);
    FilterPermutation(p, stored, loaded);
    SameLength(Filter(p, stored), [loaded[k]]);
    assert Filter(p, stored)[0] in multiset(Filter(p, stored));
  }

  lemma TheCity(cal: Calendar, start: int, days: nat, dims: Dimensions, i: nat)
    requires Stored(cal, start, days, dims) && i < |CITIES|
    ensures Filter(HasCity(i + 1), dims.cities) == [CityRow(i)]
  {
    OnlyMatch(HasCity(i + 1), dims.cities, CityRows(|CITIES|), i);
  }

  lemma TheDriver(cal: Calendar, start: int, days: nat, dims: Dimensions, k: nat)
    requires Stored(cal, start, days, dims) && k < N_DRIVERS
    ensures Filter(HasDriver(k), dims.drivers) == [DriverRow(k)]
  {
    OnlyMatch(HasDriver(k), dims.drivers, DriverRows(N_DRIVERS), k);
  }

  lemma TheVehicle(cal: Calendar, start: int, days: nat, dims: Dimensions, i: nat)
    requires Stored(cal, start, days, dims) && i < |VEHICLE_CLASSES|
    ensures Filter(HasVehicle(i + 1), dims.vehicles) == [VehicleRow(i)]
  {
    OnlyMatch(HasVehicle(i + 1), dims.vehicles, VehicleRows(|VEHICLE_CLASSES|), i);
  }

  lemma TheDate(cal: Calendar, start: int, days: nat, dims: Dimensions, day: int)
    requires Stored(cal, start, days, dims) && NamesDays(cal, start - 2, start + days + 2)
    requires start <= day < start + days
    ensures Filter(HasDate(DateKey(cal, day)), dims.dates) == [DateRow(cal, day)]
  {
    var k := day - start + 2;
    var loaded := DateRows(cal, start, days + 5);
    forall i | 0 <= i < |loaded| ensures HasDate(DateKey(cal, day))(loaded[i]) <==> i == k {
      OneDate(cal, start, days, day, i);
    }
    hide NamesDays, HasDate;
    OnlyMatch(HasDate(DateKey(cal, day)), dims.dates, loaded, k);
  }

  lemma OneDate(cal: Calendar, start: int, days: nat, day: int, i: nat)
    requires NamesDays(cal, start - 2, start + days + 2) && start <= day < start + days && i < days + 5
    ensures HasDate(DateKey(cal, day))(DateRows(cal, start, days + 5)[i]) <==> i == day - start + 2
  {
    hide NamesDays;
    var other := start - 2 + i;
    assert DateRows(cal, start, days + 5)[i] == DateRow(cal, other);
    if other != day { DateKeysAreDistinct(cal, start - 2, start + days + 2, other, day); }
    hide DateKey;
  }

  /** The text the wide row carries inline. */
  function InlineText(q: Query, t: Trip): string
    requires t.city < |CITIES| && t.vehicle < |VEHICLE_CLASSES|
  {
    match q
    case RegionDay => CITIES[t.city].region
    case TopDrivers => DriverId(t.driver)
    case WeekendByVehicle => VEHICLE_CLASSES[t.vehicle]
    case HourlyByCity => CITIES[t.city].name
    case SurgeByCityWeek => CITIES[t.city].name
  }

  lemma JoinFindsTheText(q: Query, cal: Calendar, start: int, days: nat, dims: Dimensions, t: Trip)
    requires Stored(cal, start, days, dims) && FromGenerator(t, start, days)
    ensures JoinedTexts(q, dims, FactOf(cal, t)) == [InlineText(q, t)]
  {
    hide Stored, FlatMap, Filter;
    TheCity(cal, start, days, dims, t.city);
    TheDriver(cal, start, days, dims, t.driver);
    TheVehicle(cal, start, days, dims, t.vehicle);
    FlatMapOne(Region(), CityRow(t.city));
    FlatMapOne(CityName(), CityRow(t.city));
    FlatMapOne(Driver(), DriverRow(t.driver));
    FlatMapOne(VehicleClass(), VehicleRow(t.vehicle));
  }

  /** The precomputed calendar columns are the inline expressions. */
  lemma SameTuple(q: Query, cal: Calendar, win: Window, t: Trip)
    requires t.city < |CITIES| && t.vehicle < |VEHICLE_CLASSES|
    ensures StarTuple(q, win, FactOf(cal, t), InlineText(q, t))(DateRow(cal, DayOf(t.second)))
         == BaselineOf(q, cal, win)(WideOf(t))
  {
    var day := DayOf(t.second);
    assert win.first <= day <==> win.first * SECONDS_PER_DAY <= t.second;
    assert day < win.last <==> t.second < win.last * SECONDS_PER_DAY;
    assert Weekday(day) >= 5 <==> DayOfWeek(day) == 0 || DayOfWeek(day) == 6;
  }

  lemma SameTuples(q: Query, cal: Calendar, start: int, days: nat, win: Window, dims: Dimensions, t: Trip)
    requires Stored(cal, start, days, dims) && NamesDays(cal, start - 2, start + days + 2)
    requires FromGenerator(t, start, days)
    ensures StarOf(q, dims, win)(FactOf(cal, t)) == BaselineOf(q, cal, win)(WideOf(t))
  {
    hide Stored, NamesDays, StarTuple, BaselineOf, InlineText, JoinedTexts;
    var f, text, day := FactOf(cal, t), InlineText(q, t), DayOf(t.second);
    JoinFindsTheText(q, cal, start, days, dims, t);
    FlatMapOne(StarPair(q, dims, win, f), text);
    TheDate(cal, start, days, dims, day);
    FlatMapOne(StarTuple(q, win, f, text), DateRow(cal, day));
    SameTuple(q, cal, win, t);
  }

  lemma {:induction false} SameBag(q: Query, cal: Calendar, start: int, days: nat, win: Window, dims: Dimensions,
                                   trips: seq<Trip>)
    requires Stored(cal, start, days, dims) && NamesDays(cal, start - 2, start + days + 2) && Corpus(trips, start, days)
    ensures StarTuples(q, dims, win, FactRows(cal, trips)) == BaselineTuples(q, cal, win, WideRows(trips, start, days))
  {
    hide Stored, NamesDays, StarOf, BaselineOf, FromGenerator, FactOf, WideOf;
    if trips != [] {
      SameTuples(q, cal, start, days, win, dims, trips[0]);
      SameBag(q, cal, start, days, win, dims, trips[1..]);
      assert FactRows(cal, trips)[1..] == FactRows(cal, trips[1..]);
      assert WideRows(trips, start, days)[1..] == WideRows(trips[1..], start, days);
    }
  }

  /**
   For every corpus the loader writes, every window of days and whatever order
   the six tables are stored in, the star query returns the rows of its
   baseline, in the same order and cut at the same limit.
   */
  lemma StarEqualsWide(q: Query, cal: Calendar, start: int, days: nat, win: Window, trips: seq<Trip>,
                       wide: seq<WideRow>, fact: seq<FactRow>, dims: Dimensions)
    requires Corpus(trips, start, days) && NamesDays(cal, start - 2, start + days + 2)
    requires multiset(wide) == multiset(WideRows(trips, start, days))
    requires multiset(fact) == multiset(FactRows(cal, trips))
    requires Stored(cal, start, days, dims)
    ensures Answer(q, StarTuples(q, dims, win, fact)) == Answer(q, BaselineTuples(q, cal, win, wide))
  {
    hide Stored, NamesDays, StarOf, BaselineOf, Answer;
    FlatMapPermutation(StarOf(q, dims, win), fact, FactRows(cal, trips));
    FlatMapPermutation(BaselineOf(q, cal, win), wide, WideRows(trips, start, days));
    SameBag(q, cal, start, days, win, dims, trips);
    AnswerOfPermutation(q, StarTuples(q, dims, win, fact), BaselineTuples(q, cal, win, wide));
  }
}
