/**
 * The grouping views of the aggregate pipeline: the per-day heatmap, the
 * monthly series (both in all three copies) and the undirected route buckets
 * (generator and demo page). Each is built the way the source builds it: a
 * loop filling a map whose keys remember their insertion order, then the
 * map's values, sorted by key where the source sorts them.
 */
module Aggregate {
  import opened Wrappers
  import opened Seqs
  import opened Dates
  import opened Strings
  import opened Flights
  import opened Groups

  // ---------------------------------------------------------------- heatmap

  /** One heatmap entry: the flights and hours (tenths) of one date. */
  datatype DayTotal = DayTotal(date: int, hours: int, flights: int)

  function DayKey(d: DayTotal): real { d.date as real }
  function DayHours(d: DayTotal): int { d.hours }
  function DayFlights(d: DayTotal): int { d.flights }

  /** The entry of date k: hours and flight count of the flights dated k. */
  function DayTotalOf(fs: seq<Flight>, k: int): DayTotal
  {
    DayTotal(k, SumWhere(fs, DateOf, k, TotalTimeOf), SumWhere(fs, DateOf, k, Once))
  }

  function DayBuckets(fs: seq<Flight>, ks: seq<int>): (r: seq<DayTotal>)
    ensures |r| == |ks| && forall i :: 0 <= i < |ks| ==> r[i] == DayTotalOf(fs, ks[i])
  {
    if ks == [] then [] else DayBuckets(fs, ks[..|ks| - 1]) + [DayTotalOf(fs, ks[|ks| - 1])]
  }

  /** The dates of the flights, each once, in order of first appearance (the `dayMap` keys). */
  function DayDates(fs: seq<Flight>): seq<int>
  {
    Dedup(Project(fs, DateOf))
  }

  /** The heatmap: one entry per date, sorted by date. */
  function Heatmap(fs: seq<Flight>): seq<DayTotal>
  {
    SortBy(DayBuckets(fs, DayDates(fs)), DayKey)
  }

  method BuildHeatmap(fs: seq<Flight>) returns (heatmap: seq<DayTotal>)
    ensures heatmap == Heatmap(fs)
  {
    var keys, dayMap := FillDayMap(fs);
    heatmap := SortBy(Values(keys, dayMap), DayKey);
  }

  /** The loop over the flights: `dayMap`'s keys are the dates in first-seen order, its values their totals. */
  method FillDayMap(fs: seq<Flight>) returns (keys: seq<int>, dayMap: map<int, DayTotal>)
    ensures forall j :: 0 <= j < |keys| ==> keys[j] in dayMap
    ensures keys == DayDates(fs) && Values(keys, dayMap) == DayBuckets(fs, keys)
  {
    keys, dayMap := [], map[];
    ghost var seen: seq<Flight> := [];
    var i := 0;
    while i < |fs|
      invariant 0 <= i <= |fs| && seen == fs[..i]
      invariant KeyOrder(seen, DateOf, keys, dayMap)
      invariant DayTotalsKept(seen, dayMap)
    {
      var f := fs[i];
      var cur := if f.date in dayMap then dayMap[f.date] else DayTotal(f.date, 0, 0);
      cur := cur.(hours := cur.hours + f.totalTime, flights := cur.flights + 1);
      KeyOrderStep(seen, f, DateOf, keys, dayMap, cur);
      DayTotalsStep(seen, f, keys, dayMap, cur);
      if f.date !in dayMap {
        keys := keys + [f.date];
      }
      dayMap := dayMap[f.date := cur];
      seen := seen + [f];
      PrefixSnoc(fs, i);
      i := i + 1;
    }
    PrefixAll(fs);
    DayValues(seen, keys, dayMap);
  }

  lemma DayValues(xs: seq<Flight>, keys: seq<int>, dayMap: map<int, DayTotal>)
    requires KeyOrder(xs, DateOf, keys, dayMap) && DayTotalsKept(xs, dayMap)
    ensures forall j :: 0 <= j < |keys| ==> keys[j] in dayMap
    ensures keys == DayDates(xs) && Values(keys, dayMap) == DayBuckets(xs, keys)
  {
    KeyOrderListed(xs, DateOf, keys, dayMap);
  }

  /** Each `dayMap` entry totals the flights seen on its date. */
  ghost predicate DayTotalsKept(xs: seq<Flight>, dayMap: map<int, DayTotal>)
  {
    forall k :: k in dayMap ==> dayMap[k] == DayTotalOf(xs, k)
  }

  lemma DayTotalsStep(xs: seq<Flight>, f: Flight, keys: seq<int>, dayMap: map<int, DayTotal>, cur: DayTotal)
    requires KeyOrder(xs, DateOf, keys, dayMap) && DayTotalsKept(xs, dayMap)
    requires var old_ := if f.date in dayMap then dayMap[f.date] else DayTotal(f.date, 0, 0);
      cur == old_.(hours := old_.hours + f.totalTime, flights := old_.flights + 1)
    ensures DayTotalsKept(xs + [f], dayMap[f.date := cur])
  {
    if f.date !in dayMap {
      KeyOrderAbsent(xs, DateOf, keys, dayMap, f.date);
      SumWhereAbsent(xs, DateOf, f.date, TotalTimeOf);
      SumWhereAbsent(xs, DateOf, f.date, Once);
    }
    forall k
      ensures SumWhere(xs + [f], DateOf, k, TotalTimeOf) == SumWhere(xs, DateOf, k, TotalTimeOf) + (if f.date == k then f.totalTime else 0)
      ensures SumWhere(xs + [f], DateOf, k, Once) == SumWhere(xs, DateOf, k, Once) + (if f.date == k then 1 else 0)
    {
      SumWhereSnoc(xs, f, DateOf, k, TotalTimeOf);
      SumWhereSnoc(xs, f, DateOf, k, Once);
    }
  }

  lemma {:induction false} DayBucketsSums(fs: seq<Flight>, ks: seq<int>)
    ensures Sum(DayBuckets(fs, ks), DayFlights) == SumGroups(fs, DateOf, Once, ks)
    ensures Sum(DayBuckets(fs, ks), DayHours) == SumGroups(fs, DateOf, TotalTimeOf, ks)
  {
    if ks != [] {
      DayBucketsSums(fs, ks[..|ks| - 1]);
      var r := DayBuckets(fs, ks);
      assert r[..|r| - 1] == DayBuckets(fs, ks[..|ks| - 1]);
    }
  }

  /** One entry per distinct date, strictly ascending; an entry for exactly the dates flown. */
  lemma HeatmapShape(fs: seq<Flight>)
    ensures StrictlySortedBy(Heatmap(fs), DayKey)
    ensures forall d :: d in Heatmap(fs) <==> exists f :: f in fs && d == DayTotalOf(fs, f.date)
  {
    var b := DayBuckets(fs, DayDates(fs));
    assert StrictlySortedBy(Heatmap(fs), DayKey) by {
      SortByStrict(b, DayKey);
    }
    assert forall d :: d in Heatmap(fs) <==> d in b by {
      SortByMembers(b, DayKey);
    }
    DayBucketsCover(fs);
  }

  /** The unsorted buckets are one per day flown. */
  lemma DayBucketsCover(fs: seq<Flight>)
    ensures forall d :: d in DayBuckets(fs, DayDates(fs)) <==> exists f :: f in fs && d == DayTotalOf(fs, f.date)
  {
    var ks := DayDates(fs);
    var b := DayBuckets(fs, ks);
    forall d ensures d in b <==> exists f :: f in fs && d == DayTotalOf(fs, f.date) {
      if d in b {
        var i :| 0 <= i < |b| && b[i] == d;
        ProjectMember(fs, DateOf, ks[i]);
      }
      if exists f :: f in fs && d == DayTotalOf(fs, f.date) {
        var f :| f in fs && d == DayTotalOf(fs, f.date);
        KeysCover(fs, DateOf);
        var i :| 0 <= i < |ks| && ks[i] == f.date;
        assert b[i] == d;
      }
    }
  }

  /** The per-day counts add up to the number of flights, the hours to the total time. */
  lemma HeatmapTotals(fs: seq<Flight>)
    ensures Sum(Heatmap(fs), DayFlights) == |fs|
    ensures Sum(Heatmap(fs), DayHours) == Sum(fs, TotalTimeOf)
  {
    var ks := DayDates(fs);
    SumSortBy(DayBuckets(fs, ks), DayKey, DayFlights);
    SumSortBy(DayBuckets(fs, ks), DayKey, DayHours);
    DayBucketsSums(fs, ks);
    KeysCover(fs, DateOf);
    PartitionSum(fs, DateOf, Once, ks);
    PartitionSum(fs, DateOf, TotalTimeOf, ks);
    SumCount(fs, Once);
  }

  /** Every heatmap entry counts at least one flight. */
  lemma HeatmapCountsPositive(fs: seq<Flight>)
    ensures forall d :: d in Heatmap(fs) ==> d.flights >= 1
  {
    HeatmapShape(fs);
    forall d | d in Heatmap(fs) ensures d.flights >= 1 {
      var f :| f in fs && d == DayTotalOf(fs, f.date);
      SumWherePresent(fs, DateOf, f.date, Once);
    }
  }

  // ---------------------------------------------------------------- monthly series

  /** One monthly entry: a month index and the total time (tenths) flown in it. */
  datatype MonthTotal = MonthTotal(month: int, total: int)

  function MonthKey(m: MonthTotal): real { m.month as real }
  function MonthTotalTime(m: MonthTotal): int { m.total }

  /** `flt_date.slice(0, 7)`: the month of a flight. */
  function FlightMonth(f: Flight): int { MonthOf(f.date) }

  function MonthTotalOf(fs: seq<Flight>, m: int): MonthTotal
  {
    MonthTotal(m, SumWhere(fs, FlightMonth, m, TotalTimeOf))
  }

  function MonthBuckets(fs: seq<Flight>, ms: seq<int>): (r: seq<MonthTotal>)
    ensures |r| == |ms| && forall i :: 0 <= i < |ms| ==> r[i] == MonthTotalOf(fs, ms[i])
  {
    if ms == [] then [] else MonthBuckets(fs, ms[..|ms| - 1]) + [MonthTotalOf(fs, ms[|ms| - 1])]
  }

  function FlownMonths(fs: seq<Flight>): seq<int>
  {
    Dedup(Project(fs, FlightMonth))
  }

  /** The monthly series: one entry per month flown, sorted by month. */
  function Monthly(fs: seq<Flight>): seq<MonthTotal>
  {
    SortBy(MonthBuckets(fs, FlownMonths(fs)), MonthKey)
  }

  method BuildMonthly(fs: seq<Flight>) returns (monthly: seq<MonthTotal>)
    ensures monthly == Monthly(fs)
  {
    var keys: seq<int> := [];
    var monthlyMap: map<int, int> := map[];
    ghost var seen: seq<Flight> := [];
    var i := 0;
    while i < |fs|
      invariant 0 <= i <= |fs| && seen == fs[..i]
      invariant KeyOrder(seen, FlightMonth, keys, monthlyMap)
      invariant SumsByKey(seen, FlightMonth, TotalTimeOf, monthlyMap)
    {
      var f := fs[i];
      var month := FlightMonth(f);
      var total := (if month in monthlyMap then monthlyMap[month] else 0) + f.totalTime;
      KeyOrderStep(seen, f, FlightMonth, keys, monthlyMap, total);
      SumsByKeyStep(seen, f, FlightMonth, TotalTimeOf, keys, monthlyMap, total);
      if month !in monthlyMap {
        keys := keys + [month];
      }
      monthlyMap := monthlyMap[month := total];
      seen := seen + [f];
      PrefixSnoc(fs, i);
      i := i + 1;
    }
    PrefixAll(fs);
    var entries := MonthEntries(keys, monthlyMap);
    MonthValues(seen, keys, monthlyMap);
    monthly := SortBy(entries, MonthKey);
  }

  /** `[...monthlyMap.entries()].map(([month, total]) => ({ month, total }))` in insertion order. */
  function MonthEntries(keys: seq<int>, monthlyMap: map<int, int>): (r: seq<MonthTotal>)
    requires forall j :: 0 <= j < |keys| ==> keys[j] in monthlyMap
    ensures |r| == |keys| && forall j :: 0 <= j < |keys| ==> r[j] == MonthTotal(keys[j], monthlyMap[keys[j]])
  {
    if keys == [] then [] else MonthEntries(keys[..|keys| - 1], monthlyMap) + [MonthTotal(keys[|keys| - 1], monthlyMap[keys[|keys| - 1]])]
  }

  lemma MonthValues(xs: seq<Flight>, keys: seq<int>, monthlyMap: map<int, int>)
    requires KeyOrder(xs, FlightMonth, keys, monthlyMap) && SumsByKey(xs, FlightMonth, TotalTimeOf, monthlyMap)
    ensures forall j :: 0 <= j < |keys| ==> keys[j] in monthlyMap
    ensures keys == FlownMonths(xs) && MonthEntries(keys, monthlyMap) == MonthBuckets(xs, keys)
  {
    KeyOrderListed(xs, FlightMonth, keys, monthlyMap);
  }

  lemma {:induction false} MonthBucketsSum(fs: seq<Flight>, ms: seq<int>)
    ensures Sum(MonthBuckets(fs, ms), MonthTotalTime) == SumGroups(fs, FlightMonth, TotalTimeOf, ms)
  {
    if ms != [] {
      MonthBucketsSum(fs, ms[..|ms| - 1]);
      var r := MonthBuckets(fs, ms);
      assert r[..|r| - 1] == MonthBuckets(fs, ms[..|ms| - 1]);
    }
  }

  /** One entry per month flown, strictly ascending by month, each totalling the time flown in that month. */
  lemma MonthlyShape(fs: seq<Flight>)
    ensures StrictlySortedBy(Monthly(fs), MonthKey)
    ensures forall e :: e in Monthly(fs) <==> exists f :: f in fs && e == MonthTotalOf(fs, FlightMonth(f))
  {
    var b := MonthBuckets(fs, FlownMonths(fs));
    assert StrictlySortedBy(Monthly(fs), MonthKey) by {
      SortByStrict(b, MonthKey);
    }
    assert forall e :: e in Monthly(fs) <==> exists f :: f in fs && e == MonthTotalOf(fs, FlightMonth(f)) by {
      SortByMembers(b, MonthKey);
      MonthBucketsCover(fs);
    }
  }

  /** The unsorted buckets are one per month flown. */
  lemma MonthBucketsCover(fs: seq<Flight>)
    ensures forall e :: e in MonthBuckets(fs, FlownMonths(fs)) <==> exists f :: f in fs && e == MonthTotalOf(fs, FlightMonth(f))
  {
    var ms := FlownMonths(fs);
    var b := MonthBuckets(fs, ms);
    forall e ensures e in b <==> exists f :: f in fs && e == MonthTotalOf(fs, FlightMonth(f)) {
      if e in b {
        var i :| 0 <= i < |b| && b[i] == e;
        ProjectMember(fs, FlightMonth, ms[i]);
      }
      if exists f :: f in fs && e == MonthTotalOf(fs, FlightMonth(f)) {
        var f :| f in fs && e == MonthTotalOf(fs, FlightMonth(f));
        KeysCover(fs, FlightMonth);
        var i :| 0 <= i < |ms| && ms[i] == FlightMonth(f);
        assert b[i] == e;
      }
    }
  }

  /** The monthly totals add up to the total time. */
  lemma MonthlyTotal(fs: seq<Flight>)
    ensures Sum(Monthly(fs), MonthTotalTime) == Sum(fs, TotalTimeOf)
  {
    var ms := FlownMonths(fs);
    SumSortBy(MonthBuckets(fs, ms), MonthKey, MonthTotalTime);
    MonthBucketsSum(fs, ms);
    KeysCover(fs, FlightMonth);
    PartitionSum(fs, FlightMonth, TotalTimeOf, ms);
  }

  // ---------------------------------------------------------------- undirected routes

  /** A route endpoint: a code and the coordinates the source carried with it. */
  datatype Endpoint = Endpoint(icao: string, lat: Option<real>, lon: Option<real>)

  /** A route bucket; `month` is set on the demo page only. */
  datatype RouteLeg = RouteLeg(from: Endpoint, to: Endpoint, count: int, month: Option<int>)

  function CountOf(r: RouteLeg): int { r.count }

  /** `[from, to].sort((a, b) => a.icao.localeCompare(b.icao))`. */
  function SortPair(a: Endpoint, b: Endpoint): (p: (Endpoint, Endpoint))
    ensures {p.0, p.1} == {a, b} && LessEq(p.0.icao, p.1.icao)
  {
    LessEqTotal(a.icao, b.icao);
    if LessEq(a.icao, b.icao) then (a, b) else (b, a)
  }

  /** The `routeMap` key, `${pair[0].icao}-${pair[1].icao}`. */
  function LegKey(r: RouteLeg): string { r.from.icao + "-" + r.to.icao }

  function KeyOf(leg: Flight -> RouteLeg): Flight -> string
  {
    (f: Flight) => LegKey(leg(f))
  }

  /**
   * The bucket of key k over the kept flights xs: the endpoints and month of the
   * first flight with that key, and the number of flights with it.
   */
  function RouteBucket(xs: seq<Flight>, leg: Flight -> RouteLeg, k: string): RouteLeg
    requires k in Project(xs, KeyOf(leg))
  {
    leg(xs[FirstIndex(Project(xs, KeyOf(leg)), k)]).(count := SumWhere(xs, KeyOf(leg), k, Once))
  }

  function RouteBuckets(xs: seq<Flight>, leg: Flight -> RouteLeg, ks: seq<string>): (r: seq<RouteLeg>)
    requires forall k :: k in ks ==> k in Project(xs, KeyOf(leg))
    ensures |r| == |ks| && forall i :: 0 <= i < |ks| ==> r[i] == RouteBucket(xs, leg, ks[i])
  {
    if ks == [] then [] else RouteBuckets(xs, leg, ks[..|ks| - 1]) + [RouteBucket(xs, leg, ks[|ks| - 1])]
  }

  /** The keys of the kept flights, once each, in order of first appearance. */
  function RouteKeys(fs: seq<Flight>, kept: Flight -> bool, leg: Flight -> RouteLeg): seq<string>
  {
    Dedup(Project(Filter(fs, kept), KeyOf(leg)))
  }

  /** `[...routeMap.values()]`: one bucket per key, in insertion order. */
  function Routes(fs: seq<Flight>, kept: Flight -> bool, leg: Flight -> RouteLeg): seq<RouteLeg>
  {
    RouteBuckets(Filter(fs, kept), leg, RouteKeys(fs, kept, leg))
  }

  /** The route loop shared by the generator and the demo page, given which flights it keeps and how it orders a leg. */
  method BuildRoutes(fs: seq<Flight>, kept: Flight -> bool, leg: Flight -> RouteLeg) returns (routes: seq<RouteLeg>)
    ensures routes == Routes(fs, kept, leg)
  {
    var keys: seq<string> := [];
    var routeMap: map<string, RouteLeg> := map[];
    ghost var xs: seq<Flight> := [];
    var i := 0;
    while i < |fs|
      invariant 0 <= i <= |fs| && xs == Filter(fs[..i], kept)
      invariant RouteState(xs, leg, keys, routeMap)
    {
      var f := fs[i];
      FilterPrefix(fs, i, kept);
      if kept(f) {
        var key := LegKey(leg(f));
        var bucket := Tally(routeMap, leg(f));
        RouteStep(xs, f, leg, keys, routeMap);
        if key !in routeMap {
          keys := keys + [key];
        }
        routeMap := routeMap[key := bucket];
        xs := xs + [f];
      }
      i := i + 1;
    }
    PrefixAll(fs);
    RouteValues(xs, leg, keys, routeMap);
    routes := Values(keys, routeMap);
  }

  /** What the route loop knows after the kept flights xs. */
  ghost predicate RouteState(xs: seq<Flight>, leg: Flight -> RouteLeg, keys: seq<string>, routeMap: map<string, RouteLeg>)
  {
    KeyOrder(xs, KeyOf(leg), keys, routeMap) && BucketsKept(xs, leg, routeMap)
  }

  /** The entry for r's key once r is counted: the existing one with one more trip, or r itself as the first. */
  function Tally(routeMap: map<string, RouteLeg>, r: RouteLeg): RouteLeg
  {
    var key := LegKey(r);
    if key in routeMap then routeMap[key].(count := routeMap[key].count + 1) else r.(count := 1)
  }

  lemma RouteStep(xs: seq<Flight>, f: Flight, leg: Flight -> RouteLeg, keys: seq<string>, routeMap: map<string, RouteLeg>)
    requires RouteState(xs, leg, keys, routeMap)
    ensures var key := LegKey(leg(f));
      RouteState(xs + [f], leg, if key in routeMap then keys else keys + [key], routeMap[key := Tally(routeMap, leg(f))])
  {
    KeyOrderStep(xs, f, KeyOf(leg), keys, routeMap, Tally(routeMap, leg(f)));
    KeyOrderIn(xs, KeyOf(leg), keys, routeMap, LegKey(leg(f)));
    BucketsStep(xs, f, leg, routeMap);
  }

  lemma RouteValues(xs: seq<Flight>, leg: Flight -> RouteLeg, keys: seq<string>, routeMap: map<string, RouteLeg>)
    requires RouteState(xs, leg, keys, routeMap)
    ensures forall j :: 0 <= j < |keys| ==> keys[j] in routeMap
    ensures forall k :: k in keys ==> k in Project(xs, KeyOf(leg))
    ensures keys == Dedup(Project(xs, KeyOf(leg))) && Values(keys, routeMap) == RouteBuckets(xs, leg, keys)
  {
    KeyOrderListed(xs, KeyOf(leg), keys, routeMap);
  }

  /** Each `routeMap` entry is the bucket of its key over the kept flights seen. */
  ghost predicate BucketsKept(xs: seq<Flight>, leg: Flight -> RouteLeg, routeMap: map<string, RouteLeg>)
  {
    forall k :: k in routeMap ==> k in Project(xs, KeyOf(leg)) && routeMap[k] == RouteBucket(xs, leg, k)
  }

  /** Tallying one more kept flight keeps every bucket up to date. */
  lemma BucketsStep(xs: seq<Flight>, f: Flight, leg: Flight -> RouteLeg, routeMap: map<string, RouteLeg>)
    requires BucketsKept(xs, leg, routeMap)
    requires LegKey(leg(f)) in routeMap <==> LegKey(leg(f)) in Project(xs, KeyOf(leg))
    ensures BucketsKept(xs + [f], leg, routeMap[LegKey(leg(f)) := Tally(routeMap, leg(f))])
  {
    var m' := routeMap[LegKey(leg(f)) := Tally(routeMap, leg(f))];
    forall k | k in m'
      ensures k in Project(xs + [f], KeyOf(leg)) && m'[k] == RouteBucket(xs + [f], leg, k)
    {
      if k in routeMap {
        BucketSnocOld(xs, f, leg, k);
      } else {
        BucketSnocNew(xs, f, leg);
      }
    }
  }

  lemma BucketSnocOld(xs: seq<Flight>, f: Flight, leg: Flight -> RouteLeg, k: string)
    requires k in Project(xs, KeyOf(leg))
    ensures k in Project(xs + [f], KeyOf(leg))
    ensures RouteBucket(xs + [f], leg, k)
         == RouteBucket(xs, leg, k).(count := RouteBucket(xs, leg, k).count + (if LegKey(leg(f)) == k then 1 else 0))
  {
    var ps := Project(xs, KeyOf(leg));
    ProjectSnoc(xs, f, KeyOf(leg));
    SumWhereSnoc(xs, f, KeyOf(leg), k, Once);
    FirstIndexSnoc(ps, LegKey(leg(f)), k);
    assert (xs + [f])[FirstIndex(ps, k)] == xs[FirstIndex(ps, k)];
  }

  lemma BucketSnocNew(xs: seq<Flight>, f: Flight, leg: Flight -> RouteLeg)
    requires LegKey(leg(f)) !in Project(xs, KeyOf(leg))
    ensures LegKey(leg(f)) in Project(xs + [f], KeyOf(leg))
    ensures RouteBucket(xs + [f], leg, LegKey(leg(f))) == leg(f).(count := 1)
  {
    var key := LegKey(leg(f));
    var ps := Project(xs, KeyOf(leg));
    ProjectSnoc(xs, f, KeyOf(leg));
    ProjectMember(xs, KeyOf(leg), key);
    SumWhereAbsent(xs, KeyOf(leg), key, Once);
    SumWhereSnoc(xs, f, KeyOf(leg), key, Once);
    FirstIndexSnoc(ps, key, key);
  }

  lemma {:induction false} RouteBucketsSum(xs: seq<Flight>, leg: Flight -> RouteLeg, ks: seq<string>)
    requires forall k :: k in ks ==> k in Project(xs, KeyOf(leg))
    ensures Sum(RouteBuckets(xs, leg, ks), CountOf) == SumGroups(xs, KeyOf(leg), Once, ks)
  {
    if ks != [] {
      RouteBucketsSum(xs, leg, ks[..|ks| - 1]);
      var r := RouteBuckets(xs, leg, ks);
      assert r[..|r| - 1] == RouteBuckets(xs, leg, ks[..|ks| - 1]);
    }
  }

  /** The bucket counts add up to the number of flights the loop keeps. */
  lemma RoutesCountSum(fs: seq<Flight>, kept: Flight -> bool, leg: Flight -> RouteLeg)
    ensures Sum(Routes(fs, kept, leg), CountOf) == |Filter(fs, kept)|
  {
    var xs := Filter(fs, kept);
    var ks := RouteKeys(fs, kept, leg);
    RouteBucketsSum(xs, leg, ks);
    forall x | x in xs ensures KeyOf(leg)(x) in ks {
      ProjectMember(xs, KeyOf(leg), KeyOf(leg)(x));
    }
    PartitionSum(xs, KeyOf(leg), Once, ks);
    SumCount(xs, Once);
  }

  /**
   * One bucket per key, the keys pairwise different; each bucket has the
   * endpoints and month of the first kept flight with its key, and counts every
   * kept flight with that key.
   */
  lemma RoutesBuckets(fs: seq<Flight>, kept: Flight -> bool, leg: Flight -> RouteLeg)
    ensures Distinct(Project(Routes(fs, kept, leg), LegKey))
    ensures forall r :: r in Routes(fs, kept, leg) ==> FromFirstOfKey(Filter(fs, kept), leg, r)
  {
    var xs := Filter(fs, kept);
    var ks := RouteKeys(fs, kept, leg);
    var rs := Routes(fs, kept, leg);
    forall i | 0 <= i < |rs|
      ensures LegKey(rs[i]) == ks[i] && FromFirstOfKey(xs, leg, rs[i])
    {
      assert ks[i] in ks;
      RouteBucketFirst(xs, leg, ks[i]);
    }
    assert Project(rs, LegKey) == ks;
  }

  /** r carries the endpoints and month of the first of xs with its key, and that key's count. */
  ghost predicate FromFirstOfKey(xs: seq<Flight>, leg: Flight -> RouteLeg, r: RouteLeg)
  {
    exists j :: 0 <= j < |xs| && FirstOfKey(xs, leg, j, r)
  }

  lemma RouteBucketFirst(xs: seq<Flight>, leg: Flight -> RouteLeg, k: string)
    requires k in Project(xs, KeyOf(leg))
    ensures LegKey(RouteBucket(xs, leg, k)) == k
    ensures FromFirstOfKey(xs, leg, RouteBucket(xs, leg, k))
  {
    var j := FirstIndex(Project(xs, KeyOf(leg)), k);
    assert FirstOfKey(xs, leg, j, RouteBucket(xs, leg, k));
  }

  /** xs[j] is the first kept flight with r's key, and r carries its endpoints and month and the key's count. */
  ghost predicate FirstOfKey(xs: seq<Flight>, leg: Flight -> RouteLeg, j: int, r: RouteLeg)
    requires 0 <= j < |xs|
  {
    && LegKey(leg(xs[j])) == LegKey(r)
    && (forall j' :: 0 <= j' < j ==> LegKey(leg(xs[j'])) != LegKey(r))
    && r.from == leg(xs[j]).from && r.to == leg(xs[j]).to && r.month == leg(xs[j]).month
    && r.count == SumWhere(xs, KeyOf(leg), LegKey(r), Once)
  }

  /** A flight the loop skips leaves the buckets exactly as they were. */
  lemma RoutesSkip(fs: seq<Flight>, f: Flight, kept: Flight -> bool, leg: Flight -> RouteLeg)
    requires !kept(f)
    ensures Routes(fs + [f], kept, leg) == Routes(fs, kept, leg)
  {
    FilterSnoc(fs, f, kept);
  }

  // The generator: endpoints are catalogue airports looked up in `airportIndex`.

  function AirportEndpoint(a: Airport): Endpoint { Endpoint(a.icao, Some(a.lat), Some(a.lon)) }

  /** `if (!from || !to || from.icao === to.icao) continue;` negated. */
  function GeneratorKept(index: map<string, Airport>): Flight -> bool
  {
    (f: Flight) => f.frm in index && f.to in index && index[f.frm].icao != index[f.to].icao
  }

  function GeneratorLeg(index: map<string, Airport>): Flight -> RouteLeg
  {
    (f: Flight) =>
      var from := if f.frm in index then AirportEndpoint(index[f.frm]) else Endpoint(f.frm, None, None);
      var to := if f.to in index then AirportEndpoint(index[f.to]) else Endpoint(f.to, None, None);
      var p := SortPair(from, to);
      RouteLeg(p.0, p.1, 1, None)
  }

  // The demo page: endpoints are the flight's own codes and coordinates.

  /** `if (!from.icao || !to.icao || from.icao === to.icao) return;` negated. */
  function DemoKept(f: Flight): bool
  {
    f.frm != "" && f.to != "" && f.frm != f.to
  }

  function DemoLeg(f: Flight): RouteLeg
  {
    var p := SortPair(Endpoint(f.frm, f.frmLat, f.frmLon), Endpoint(f.to, f.toLat, f.toLon));
    RouteLeg(p.0, p.1, 1, Some(MonthOf(f.date)))
  }

  /** Two different codes put in either order give one key, the smaller code first. */
  lemma SortPairSymmetric(a: Endpoint, b: Endpoint, c: Endpoint, d: Endpoint)
    requires a.icao != b.icao && c.icao == b.icao && d.icao == a.icao
    ensures SortPair(a, b).0.icao == SortPair(c, d).0.icao
    ensures SortPair(a, b).1.icao == SortPair(c, d).1.icao
  {
    LessEqTotal(a.icao, b.icao);
    if LessEq(a.icao, b.icao) && LessEq(b.icao, a.icao) {
      LessEqAntisymmetric(a.icao, b.icao);
    }
  }

  /** A->B and B->A share one demo bucket. */
  lemma DemoRouteUndirected(f: Flight, g: Flight)
    requires DemoKept(f) && g.frm == f.to && g.to == f.frm
    ensures DemoKept(g) && KeyOf(DemoLeg)(f) == KeyOf(DemoLeg)(g)
  {
    var a, b := Endpoint(f.frm, f.frmLat, f.frmLon), Endpoint(f.to, f.toLat, f.toLon);
    var c, d := Endpoint(g.frm, g.frmLat, g.frmLon), Endpoint(g.to, g.toLat, g.toLon);
    SortPairSymmetric(a, b, c, d);
    assert DemoLeg(f).from == SortPair(a, b).0 && DemoLeg(f).to == SortPair(a, b).1;
    assert DemoLeg(g).from == SortPair(c, d).0 && DemoLeg(g).to == SortPair(c, d).1;
    assert LegKey(DemoLeg(f)) == LegKey(DemoLeg(g));
  }

  /** A->B and B->A share one generator bucket. */
  lemma GeneratorRouteUndirected(index: map<string, Airport>, f: Flight, g: Flight)
    requires GeneratorKept(index)(f) && g.frm == f.to && g.to == f.frm
    ensures GeneratorKept(index)(g) && KeyOf(GeneratorLeg(index))(f) == KeyOf(GeneratorLeg(index))(g)
  {
    var a, b := AirportEndpoint(index[f.frm]), AirportEndpoint(index[f.to]);
    SortPairSymmetric(a, b, b, a);
  }

  /** The demo page skips a flight exactly when a code is missing or it is a self-loop. */
  lemma DemoRoutesSkip(fs: seq<Flight>, f: Flight)
    requires f.frm == "" || f.to == "" || f.frm == f.to
    ensures Routes(fs + [f], DemoKept, DemoLeg) == Routes(fs, DemoKept, DemoLeg)
  {
    RoutesSkip(fs, f, DemoKept, DemoLeg);
  }

  /** The generator skips unknown airports and legs between one airport. */
  lemma GeneratorRoutesSkip(index: map<string, Airport>, fs: seq<Flight>, f: Flight)
    requires f.frm !in index || f.to !in index || index[f.frm].icao == index[f.to].icao
    ensures Routes(fs + [f], GeneratorKept(index), GeneratorLeg(index)) == Routes(fs, GeneratorKept(index), GeneratorLeg(index))
  {
    RoutesSkip(fs, f, GeneratorKept(index), GeneratorLeg(index));
  }

  /** Every bucket lists its smaller code first and is never a self-loop. */
  lemma RoutesOrdered(fs: seq<Flight>, kept: Flight -> bool, leg: Flight -> RouteLeg)
    requires forall f :: kept(f) ==> LessEq(leg(f).from.icao, leg(f).to.icao) && leg(f).from.icao != leg(f).to.icao
    ensures forall r :: r in Routes(fs, kept, leg) ==> LessEq(r.from.icao, r.to.icao) && r.from.icao != r.to.icao
  {
    var xs := Filter(fs, kept);
    var rs := Routes(fs, kept, leg);
    forall r | r in rs ensures LessEq(r.from.icao, r.to.icao) && r.from.icao != r.to.icao {
      RoutesBuckets(fs, kept, leg);
      var j :| 0 <= j < |xs| && FirstOfKey(xs, leg, j, r);
      assert xs[j] in xs;
    }
  }

  lemma DemoRoutesOrdered(fs: seq<Flight>)
    ensures forall r :: r in Routes(fs, DemoKept, DemoLeg) ==> LessEq(r.from.icao, r.to.icao) && r.from.icao != r.to.icao
  {
    RoutesOrdered(fs, DemoKept, DemoLeg);
  }

  lemma GeneratorRoutesOrdered(index: map<string, Airport>, fs: seq<Flight>)
    ensures forall r :: r in Routes(fs, GeneratorKept(index), GeneratorLeg(index)) ==>
      LessEq(r.from.icao, r.to.icao) && r.from.icao != r.to.icao
  {
    RoutesOrdered(fs, GeneratorKept(index), GeneratorLeg(index));
  }
}
