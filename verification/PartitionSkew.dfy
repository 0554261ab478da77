/** How evenly a choice of key spreads events over the partitions of a topic. */
module PartitionSkew {
  import opened Murmur2

  type Key = seq<Byte>

  /** The candidate keys of one event. */
  datatype EventKeys = EventKeys(tripId: Key, cityId: Key, driverId: Key, riderId: Key)

  datatype Strategy = ByTrip | ByCity | ByDriver | ByRider

  const STRATEGIES: seq<Strategy> := [ByTrip, ByCity, ByDriver, ByRider]

  const DISTINCT_CAP := 200_000

  function KeyOf(s: Strategy, e: EventKeys): Key {
    match s
    case ByTrip => e.tripId
    case ByCity => e.cityId
    case ByDriver => e.driverId
    case ByRider => e.riderId
  }

  function KeysBy(s: Strategy, events: seq<EventKeys>): (r: seq<Key>)
    ensures |r| == |events| && forall i | 0 <= i < |events| :: r[i] == KeyOf(s, events[i])
  {
    seq(|events|, i requires 0 <= i < |events| => KeyOf(s, events[i]))
  }

  function PartitionsOf(keys: seq<Key>, n: int): (r: seq<int>)
    requires n != 0
    ensures |r| == |keys| && forall i | 0 <= i < |keys| :: r[i] == PartitionOf(keys[i], n)
  {
    seq(|keys|, i requires 0 <= i < |keys| => PartitionOf(keys[i], n))
  }

  /** A `Counter` of partitions is a multiset of them. */
  function Counts(keys: seq<Key>, n: int): multiset<int>
    requires n != 0
  {
    multiset(PartitionsOf(keys, n))
  }

  function KeySet(keys: seq<Key>): set<Key> { set k | k in keys }

  // ------------------------------------------------------------ the counting loop

  datatype Tally = Tally(counts: multiset<int>, distinct: set<Key>)

  /** The distinct keys are collected only up to the cap. */
  ghost predicate Capped(distinct: set<Key>, all: set<Key>) {
    distinct <= all && if |all| <= DISTINCT_CAP then distinct == all else |distinct| == DISTINCT_CAP
  }

  ghost predicate Tallied(t: Tally, keys: seq<Key>, n: int)
    requires n != 0
  {
    t.counts == Counts(keys, n) && Capped(t.distinct, KeySet(keys))
  }

  lemma CappedGrows(distinct: set<Key>, all: set<Key>, key: Key)
    requires Capped(distinct, all)
    ensures Capped(if |distinct| < DISTINCT_CAP then distinct + {key} else distinct, all + {key})
  {
    if |distinct| == DISTINCT_CAP && |all| == DISTINCT_CAP && key !in all {
      assert |all + {key}| == DISTINCT_CAP + 1;
    }
    if key in all { assert all + {key} == all && (distinct == all ==> distinct + {key} == all); }
  }

  method CountOne(tally: Tally, key: Key, n: int, ghost before: seq<Key>) returns (r: Tally)
    requires n != 0 && Tallied(tally, before, n)
    ensures Tallied(r, before + [key], n)
  {
    hide Capped, Counts, KeySet, PartitionOf;
    var counts, distinct := tally.counts + multiset{PartitionOf(key, n)}, tally.distinct;
    if |distinct| < DISTINCT_CAP { distinct := distinct + {key}; }
    CountsSnoc(before, key, n);
    KeySetSnoc(before, key);
    CappedGrows(tally.distinct, KeySet(before), key);
    r := Tally(counts, distinct);
  }

  lemma CountsSnoc(keys: seq<Key>, key: Key, n: int)
    requires n != 0
    ensures Counts(keys + [key], n) == Counts(keys, n) + multiset{PartitionOf(key, n)}
  {
    hide PartitionOf;
    assert PartitionsOf(keys + [key], n) == PartitionsOf(keys, n) + [PartitionOf(key, n)];
  }

  lemma KeySetSnoc(keys: seq<Key>, key: Key)
    ensures KeySet(keys + [key]) == KeySet(keys) + {key}
  {
  }

  lemma KeysBySnoc(s: Strategy, events: seq<EventKeys>, e: EventKeys)
    ensures KeysBy(s, events + [e]) == KeysBy(s, events) + [KeyOf(s, e)]
  {
  }

  ghost predicate AllTallied(tallies: map<Strategy, Tally>, events: seq<EventKeys>, n: int)
    requires n != 0
  {
    forall k | 0 <= k < |STRATEGIES| ::
      STRATEGIES[k] in tallies && Tallied(tallies[STRATEGIES[k]], KeysBy(STRATEGIES[k], events), n)
  }

  method CountEvent(tallies: map<Strategy, Tally>, e: EventKeys, n: int, ghost before: seq<EventKeys>)
    returns (r: map<Strategy, Tally>)
    requires n != 0 && AllTallied(tallies, before, n)
    ensures AllTallied(r, before + [e], n)
  {
    hide Tallied, KeyOf, KeysBy;
    r := tallies;
    for j := 0 to |STRATEGIES|
      invariant r.Keys == tallies.Keys
      invariant forall k | 0 <= k < j :: Tallied(r[STRATEGIES[k]], KeysBy(STRATEGIES[k], before + [e]), n)
      invariant forall k | j <= k < |STRATEGIES| :: r[STRATEGIES[k]] == tallies[STRATEGIES[k]]
    {
      var s := STRATEGIES[j];
      KeysBySnoc(s, before, e);
      var tally := CountOne(r[s], KeyOf(s, e), n, KeysBy(s, before));
      assert forall k | 0 <= k < |STRATEGIES| && k != j :: STRATEGIES[k] != s;
      r := r[s := tally];
    }
  }

  /** With no partitions the first event raises. */
  method CountPartitions(events: seq<EventKeys>, n: int) returns (tallies: map<Strategy, Tally>)
    requires n != 0
    ensures AllTallied(tallies, events, n)
  {
    hide AllTallied;
    var empty := Tally(multiset{}, {});
    tallies := map[ByTrip := empty, ByCity := empty, ByDriver := empty, ByRider := empty];
    NothingTallied(tallies, n);
    for i := 0 to |events|
      invariant AllTallied(tallies, events[..i], n)
    {
      tallies := CountEvent(tallies, events[i], n, events[..i]);
      assert events[..i] + [events[i]] == events[..i + 1];
    }
    assert events[..|events|] == events;
  }

  lemma NothingTallied(tallies: map<Strategy, Tally>, n: int)
    requires n != 0
    requires forall k | 0 <= k < |STRATEGIES| ::
      STRATEGIES[k] in tallies && tallies[STRATEGIES[k]] == Tally(multiset{}, {})
    ensures AllTallied(tallies, [], n)
  {
  }

  lemma TallyOf(tallies: map<Strategy, Tally>, events: seq<EventKeys>, n: int, s: Strategy)
    requires n != 0 && AllTallied(tallies, events, n)
    ensures s in tallies && Tallied(tallies[s], KeysBy(s, events), n)
  {
    hide Tallied;
    assert STRATEGIES[0] == ByTrip && STRATEGIES[1] == ByCity && STRATEGIES[2] == ByDriver && STRATEGIES[3] == ByRider;
  }

  /** Each strategy counts the partition of its own key, once for each event. */
  lemma CountsMean(tallies: map<Strategy, Tally>, events: seq<EventKeys>, n: int, s: Strategy, partitions: seq<int>)
    requires n != 0 && AllTallied(tallies, events, n) && |partitions| == |events|
    requires forall i | 0 <= i < |events| :: partitions[i] == match s
               case ByTrip => PartitionOf(events[i].tripId, n)
               case ByCity => PartitionOf(events[i].cityId, n)
               case ByDriver => PartitionOf(events[i].driverId, n)
               case ByRider => PartitionOf(events[i].riderId, n)
    ensures s in tallies && tallies[s].counts == multiset(partitions)
  {
    hide PartitionOf, AllTallied;
    TallyOf(tallies, events, n, s);
    assert partitions == PartitionsOf(KeysBy(s, events), n);
  }

  /** And it collects those keys, all of them unless there are more than 200,000. */
  lemma KeysMean(tallies: map<Strategy, Tally>, events: seq<EventKeys>, n: int, s: Strategy)
    requires n != 0 && AllTallied(tallies, events, n)
    ensures s in tallies && |tallies[s].distinct| <= 200_000
    ensures forall k <- tallies[s].distinct :: exists i | 0 <= i < |events| :: KeyOf(s, events[i]) == k
    ensures |tallies[s].distinct| < 200_000 ==>
              forall i | 0 <= i < |events| :: KeyOf(s, events[i]) in tallies[s].distinct
  {
    hide PartitionOf, AllTallied, Counts, KeyOf;
    TallyOf(tallies, events, n, s);
    var keys := KeysBy(s, events);
    forall i | 0 <= i < |events| ensures KeyOf(s, events[i]) in KeySet(keys) { assert keys[i] in keys; }
  }

  // ------------------------------------------------------------ the report

  datatype SkewReport = SkewReport(total: nat, perPartition: seq<nat>, ideal: real, hottest: nat, coldest: nat,
                                   imbalance: real, empty: nat)

  function Sum(s: seq<nat>): nat { if s == [] then 0 else Sum(s[..|s| - 1]) + s[|s| - 1] }

  function Max(s: seq<nat>): (m: nat)
    ensures forall i | 0 <= i < |s| :: s[i] <= m
    ensures s != [] ==> m in s
  {
    if s == [] then 0
    else
      var rest, last := Max(s[..|s| - 1]), s[|s| - 1];
      if |s| == 1 || rest < last then last else rest
  }

  function Min(s: seq<nat>): (m: nat)
    ensures forall i | 0 <= i < |s| :: m <= s[i]
    ensures s != [] ==> m in s
  {
    if s == [] then 0
    else
      var rest, last := Min(s[..|s| - 1]), s[|s| - 1];
      if |s| == 1 || last < rest then last else rest
  }

  function Zeros(s: seq<nat>): nat {
    if s == [] then 0 else Zeros(s[..|s| - 1]) + if s[|s| - 1] == 0 then 1 else 0
  }

  function PerPartition(counts: multiset<int>, n: int): (r: seq<nat>)
    ensures |r| == if n < 0 then 0 else n
    ensures forall p | 0 <= p < n :: r[p] == counts[p]
  {
    if n < 0 then [] else seq(n, p => counts[p])
  }

  function Analyse(counts: multiset<int>, n: int): SkewReport {
    var per := PerPartition(counts, n);
    var ideal := if n != 0 then |counts| as real / n as real else 0.0;
    var hottest := Max(per);
    SkewReport(|counts|, per, ideal, hottest, Min(per), if ideal != 0.0 then hottest as real / ideal else 0.0,
               Zeros(per))
  }

  // ------------------------------------------------------------ bounds that hold of every key choice

  lemma {:induction false} SumPlusOne(counts: multiset<int>, p: int, n: nat)
    requires 0 <= p
    ensures Sum(PerPartition(counts + multiset{p}, n)) == Sum(PerPartition(counts, n)) + if p < n then 1 else 0
  {
    if n > 0 {
      var more, less := PerPartition(counts + multiset{p}, n), PerPartition(counts, n);
      assert more[..n - 1] == PerPartition(counts + multiset{p}, n - 1);
      assert less[..n - 1] == PerPartition(counts, n - 1);
      SumPlusOne(counts, p, n - 1);
    }
  }

  lemma {:induction false} SumOfNothing(n: nat)
    ensures Sum(PerPartition(multiset{}, n)) == 0
  {
    if n > 0 {
      assert PerPartition(multiset{}, n)[..n - 1] == PerPartition(multiset{}, n - 1);
      SumOfNothing(n - 1);
    }
  }

  /** Every event lands in one partition. */
  lemma {:induction false} CountsSumToTotal(keys: seq<Key>, n: int)
    requires n > 0
    ensures Sum(PerPartition(Counts(keys, n), n)) == |Counts(keys, n)| == |keys|
  {
    hide PartitionOf, PerPartition, Sum;
    if keys == [] {
      assert Counts(keys, n) == multiset{};
      SumOfNothing(n);
    } else {
      var init, last := keys[..|keys| - 1], keys[|keys| - 1];
      assert keys == init + [last];
      CountsSnoc(init, last, n);
      CountsSumToTotal(init, n);
      SumPlusOne(Counts(init, n), PartitionOf(last, n), n);
    }
  }

  lemma {:induction false} SumWithin(s: seq<nat>, m: nat)
    requires forall i | 0 <= i < |s| :: s[i] <= m
    ensures Sum(s) <= |s| * m
  {
    if s != [] {
      SumWithin(s[..|s| - 1], m);
      assert |s| * m == (|s| - 1) * m + m;
    }
  }

  /** All the events of one key share a partition. */
  lemma {:induction false} KeyStaysTogether(keys: seq<Key>, key: Key, n: int)
    requires n > 0
    ensures multiset(keys)[key] <= Counts(keys, n)[PartitionOf(key, n)]
  {
    hide PartitionOf;
    if keys != [] {
      var init, last := keys[..|keys| - 1], keys[|keys| - 1];
      assert keys == init + [last];
      CountsSnoc(init, last, n);
      KeyStaysTogether(init, key, n);
    }
  }

  function Used(per: seq<nat>): set<int> { set p | 0 <= p < |per| && per[p] != 0 }

  lemma {:induction false} ZerosAndUsed(per: seq<nat>)
    ensures Zeros(per) + |Used(per)| == |per|
  {
    if per != [] {
      var init, last := per[..|per| - 1], |per| - 1;
      ZerosAndUsed(init);
      assert Used(per) == Used(init) + (if per[last] != 0 then {last} else {});
      assert last !in Used(init);
    }
  }

  lemma {:induction false} ImageIsNoLarger(keys: set<Key>, n: int)
    requires n > 0
    ensures |set k | k in keys :: PartitionOf(k, n)| <= |keys|
    decreases |keys|
  {
    hide PartitionOf;
    if keys != {} {
      var key :| key in keys;
      var rest := keys - {key};
      ImageIsNoLarger(rest, n);
      assert (set k | k in keys :: PartitionOf(k, n))
          == (set k | k in rest :: PartitionOf(k, n)) + {PartitionOf(key, n)};
    }
  }

  lemma UsedAreReached(keys: seq<Key>, n: int)
    requires n > 0
    ensures Used(PerPartition(Counts(keys, n), n)) == set k | k in KeySet(keys) :: PartitionOf(k, n)
  {
  }

  /** Few keys leave partitions idle: a partition is used exactly when some key hashes to it. */
  lemma FewKeysLeaveIdle(keys: seq<Key>, n: int)
    requires n > 0
    ensures Analyse(Counts(keys, n), n).empty >= n - |KeySet(keys)|
    ensures Analyse(Counts(keys, n), n).empty == n - |set k | k in KeySet(keys) :: PartitionOf(k, n)|
  {
    hide PartitionOf;
    ZerosAndUsed(PerPartition(Counts(keys, n), n));
    UsedAreReached(keys, n);
    ImageIsNoLarger(KeySet(keys), n);
  }

  /** The hottest partition carries at least an even share and at least the most frequent key. */
  lemma HottestIsHot(keys: seq<Key>, n: int)
    requires n > 0
    ensures Analyse(Counts(keys, n), n).hottest * n >= |keys|
    ensures forall key :: Analyse(Counts(keys, n), n).hottest >= multiset(keys)[key]
    ensures keys != [] ==> Analyse(Counts(keys, n), n).imbalance >= 1.0
  {
    hide PartitionOf, Max;
    var report := Analyse(Counts(keys, n), n);
    CountsSumToTotal(keys, n);
    SumWithin(report.perPartition, report.hottest);
    forall key ensures report.hottest >= multiset(keys)[key] {
      KeyStaysTogether(keys, key, n);
      assert report.perPartition[PartitionOf(key, n)] <= report.hottest;
    }
    if keys != [] { RatioAtLeastOne(report.hottest, |keys|, n); }
  }

  lemma RatioAtLeastOne(hottest: nat, total: nat, n: nat)
    requires hottest * n >= total > 0 && n > 0
    ensures hottest as real / (total as real / n as real) >= 1.0
  {
    var ideal := total as real / n as real;
    assert ideal * n as real == total as real;
    assert hottest as real * n as real == (hottest * n) as real;
    assert (hottest as real - ideal) * n as real >= 0.0;
    assert hottest as real >= ideal > 0.0;
  }

  /** The extremes of a report are reached and passed by no partition. */
  lemma ExtremesMean(counts: multiset<int>, n: nat)
    ensures var r := Analyse(counts, n);
      && r.total == |counts| && |r.perPartition| == n && (forall p | 0 <= p < n :: r.perPartition[p] == counts[p])
      && (forall p | 0 <= p < n :: r.coldest <= counts[p] <= r.hottest)
      && (n > 0 ==> exists p | 0 <= p < n :: counts[p] == r.hottest)
      && (n > 0 ==> exists p | 0 <= p < n :: counts[p] == r.coldest)
      && (n == 0 ==> r.hottest == 0 && r.coldest == 0)
  {
    hide Zeros;
    var per := PerPartition(counts, n);
    assert forall p | 0 <= p < n :: per[p] == counts[p];
    if n > 0 {
      var i :| 0 <= i < n && per[i] == Max(per);
      var j :| 0 <= j < n && per[j] == Min(per);
    }
  }

  /** The imbalance is the hottest partition over an even share, and 0 with nothing counted or no partitions. */
  lemma ImbalanceMeans(counts: multiset<int>, n: nat)
    ensures var r := Analyse(counts, n);
      && (n > 0 ==> r.ideal * n as real == |counts| as real) && (n == 0 ==> r.ideal == 0.0)
      && (n == 0 || |counts| == 0 ==> r.imbalance == 0.0)
      && (n > 0 && |counts| > 0 ==> r.imbalance * |counts| as real == (r.hottest * n) as real)
  {
    hide Zeros, Max, Min, PerPartition;
    if n > 0 {
      Share(|counts|, n);
      if |counts| > 0 { Ratio(Max(PerPartition(counts, n)), |counts|, n); }
    }
  }

  lemma Share(total: nat, n: nat)
    requires n > 0
    ensures total as real / n as real * n as real == total as real
    ensures total as real / n as real == 0.0 <==> total == 0
  {
  }

  lemma Ratio(hottest: nat, total: nat, n: nat)
    requires total > 0 && n > 0
    ensures var ideal := total as real / n as real;
      ideal > 0.0 && hottest as real / ideal * total as real == (hottest * n) as real
  {
    var ideal := total as real / n as real;
    assert ideal * n as real == total as real;
    var imbalance := hottest as real / ideal;
    assert imbalance * ideal == hottest as real;
    assert imbalance * (ideal * n as real) == imbalance * ideal * n as real;
  }
}
