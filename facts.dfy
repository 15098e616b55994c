/**
 * The fun-fact candidates of the aggregate pipeline, in the generator and on the
 * demo page. Both compute the same ten (nine on the demo page, which has no
 * airport count) from the flights, the heatmap and the route buckets; the
 * generator adds a fact only when its figure is positive, the demo page
 * whenever there is anything to pick from.
 */
module Facts {
  import opened Wrappers
  import opened Seqs
  import opened Flights
  import opened Groups
  import opened Aggregate
  import opened Streak
  import opened FunFacts

  /**
   * Which copy computes the facts. The generator looks airports up in its
   * catalog, keyed by code; the demo page reads coordinates off the flights.
   */
  datatype FactSource = GeneratorFacts(index: map<string, Airport>) | DemoFacts

  /** The generator's `> 0` gates: the demo page has none. */
  predicate Gated(src: FactSource) { src.GeneratorFacts? }

  /**
   * `addFact(fact)` (and the demo page's guarded `funFacts.push`): a candidate that
   * did not fire is dropped, one that did is appended.
   */
  function AddFact(facts: seq<FunFact>, candidate: Option<FunFact>): seq<FunFact>
  {
    if candidate.Some? then facts + [candidate.value] else facts
  }

  /** The candidate fired with this fact. */
  predicate Yields(candidate: Option<FunFact>, x: FunFact) { candidate.Some? && candidate.value == x }

  /** A push appends exactly the candidate's fact, if it fired. */
  lemma AddFactMember(facts: seq<FunFact>, candidate: Option<FunFact>, x: FunFact)
    ensures x in AddFact(facts, candidate) <==> x in facts || Yields(candidate, x)
  {
  }

  function Tenths(t: int): real { t as real / 10.0 }

  // ---------------------------------------------------------------- longest flight

  /** `if (!f.total_time) return best;`: a flight without time is never the longest. */
  function HasTime(f: Flight): bool { f.totalTime != 0 }
  function TimeKey(f: Flight): real { f.totalTime as real }

  /**
   * The first flight with the largest nonzero time; as a fact when the generator's
   * `> 0` holds for it (always, on the demo page).
   */
  function LongestFlightFact(src: FactSource, fs: seq<Flight>): (r: Option<FunFact>)
    ensures r.Some? ==> r.value.id == "longest_flight_time" && r.value.id in Priority
    ensures r.Some? <==> exists f :: f in fs && (if Gated(src) then f.totalTime > 0 else f.totalTime != 0)
    ensures r.Some? ==>
      exists i :: IsFirstMaxWhere(fs, HasTime, TimeKey, i)
          && r.value == FunFact("longest_flight_time", "Longest flight", Hours(Tenths(fs[i].totalTime)),
                                Some(Leg(fs[i].frm, fs[i].to)), Some(6.0))
  {
    var l := BestIndexWhere(fs, HasTime, TimeKey);
    if l.Some? && (!Gated(src) || fs[l.value].totalTime > 0) then
      assert IsFirstMaxWhere(fs, HasTime, TimeKey, l.value);
      Some(FunFact("longest_flight_time", "Longest flight", Hours(Tenths(fs[l.value].totalTime)),
                   Some(Leg(fs[l.value].frm, fs[l.value].to)), Some(6.0)))
    else
      assert forall j :: 0 <= j < |fs| ==> !(if Gated(src) then fs[j].totalTime > 0 else fs[j].totalTime != 0);
      None
  }

  // ---------------------------------------------------------------- maxima over routes and days

  /** The first route with the largest distance; the distance function is a parameter. */
  function FurthestLegFact(src: FactSource, routes: seq<RouteLeg>, dist: RouteLeg -> real): (r: Option<FunFact>)
    ensures r.Some? ==> r.value.id == "furthest_leg" && r.value.id in Priority
    ensures r.Some? <==> if Gated(src) then exists x :: x in routes && dist(x) > 0.0 else routes != []
    ensures r.Some? ==>
      exists i :: IsFirstMax(routes, dist, i)
          && r.value == FunFact("furthest_leg", "Furthest leg", Miles(dist(routes[i])),
                                Some(Leg(routes[i].from.icao, routes[i].to.icao)), Some(9.0))
  {
    var b := BestIndex(routes, dist);
    if b.Some? && (!Gated(src) || dist(routes[b.value]) > 0.0) then
      assert IsFirstMax(routes, dist, b.value);
      Some(FunFact("furthest_leg", "Furthest leg", Miles(dist(routes[b.value])),
                   Some(Leg(routes[b.value].from.icao, routes[b.value].to.icao)), Some(9.0)))
    else
      assert Gated(src) ==> forall j :: 0 <= j < |routes| ==> dist(routes[j]) <= 0.0;
      None
  }

  function DayHoursKey(d: DayTotal): real { d.hours as real }
  function DayFlightsKey(d: DayTotal): real { d.flights as real }

  /** The first day with the most hours. */
  function BiggestDayFact(src: FactSource, heatmap: seq<DayTotal>): (r: Option<FunFact>)
    ensures r.Some? ==> r.value.id == "biggest_day_hours" && r.value.id in Priority
    ensures r.Some? <==> if Gated(src) then exists d :: d in heatmap && d.hours > 0 else heatmap != []
    ensures r.Some? ==>
      exists i :: IsFirstMax(heatmap, DayHoursKey, i)
          && r.value == FunFact("biggest_day_hours", "Longest day", Hours(Tenths(heatmap[i].hours)),
                                Some(OnDate(heatmap[i].date)), Some(8.0))
  {
    var b := BestIndex(heatmap, DayHoursKey);
    if b.Some? && (!Gated(src) || heatmap[b.value].hours > 0) then
      assert IsFirstMax(heatmap, DayHoursKey, b.value);
      Some(FunFact("biggest_day_hours", "Longest day", Hours(Tenths(heatmap[b.value].hours)),
                   Some(OnDate(heatmap[b.value].date)), Some(8.0)))
    else
      assert Gated(src) ==> forall j :: 0 <= j < |heatmap| ==> heatmap[j].hours <= 0;
      None
  }

  /** The first day with the most flights. */
  function BusiestDayFact(src: FactSource, heatmap: seq<DayTotal>): (r: Option<FunFact>)
    ensures r.Some? ==> r.value.id == "busiest_day_flights" && r.value.id in Priority
    ensures r.Some? <==> if Gated(src) then exists d :: d in heatmap && d.flights > 0 else heatmap != []
    ensures r.Some? ==>
      exists i :: IsFirstMax(heatmap, DayFlightsKey, i)
          && r.value == FunFact("busiest_day_flights", "Busiest day", FlightCount(heatmap[i].flights),
                                Some(OnDate(heatmap[i].date)), Some(5.0))
  {
    var b := BestIndex(heatmap, DayFlightsKey);
    if b.Some? && (!Gated(src) || heatmap[b.value].flights > 0) then
      assert IsFirstMax(heatmap, DayFlightsKey, b.value);
      Some(FunFact("busiest_day_flights", "Busiest day", FlightCount(heatmap[b.value].flights),
                   Some(OnDate(heatmap[b.value].date)), Some(5.0)))
    else
      assert Gated(src) ==> forall j :: 0 <= j < |heatmap| ==> heatmap[j].flights <= 0;
      None
  }

  function RouteCountKey(r: RouteLeg): real { r.count as real }

  /** The first route bucket with the most legs. */
  function TopRouteFact(src: FactSource, routes: seq<RouteLeg>): (r: Option<FunFact>)
    ensures r.Some? ==> r.value.id == "most_frequent_route" && r.value.id in Priority
    ensures r.Some? <==> if Gated(src) then exists x :: x in routes && x.count > 0 else routes != []
    ensures r.Some? ==>
      exists i :: IsFirstMax(routes, RouteCountKey, i)
          && r.value == FunFact("most_frequent_route", "Most frequent route", LegCount(routes[i].count),
                                Some(Leg(routes[i].from.icao, routes[i].to.icao)), Some(9.0))
  {
    var b := BestIndex(routes, RouteCountKey);
    if b.Some? && (!Gated(src) || routes[b.value].count > 0) then
      assert IsFirstMax(routes, RouteCountKey, b.value);
      Some(FunFact("most_frequent_route", "Most frequent route", LegCount(routes[b.value].count),
                   Some(Leg(routes[b.value].from.icao, routes[b.value].to.icao)), Some(9.0)))
    else
      assert Gated(src) ==> forall j :: 0 <= j < |routes| ==> routes[j].count <= 0;
      None
  }

  // ---------------------------------------------------------------- visited airports

  /** The codes a flight adds to `visitedAirports` and `airportCounts`: its non-empty from and to. */
  function FlightCodes(f: Flight): seq<string>
  {
    (if f.frm != "" then [f.frm] else []) + (if f.to != "" then [f.to] else [])
  }

  function VisitCodes(fs: seq<Flight>): (r: seq<string>)
    ensures forall c :: c in r <==> c != "" && exists f :: f in fs && (f.frm == c || f.to == c)
  {
    if fs == [] then []
    else
      var n := |fs| - 1;
      assert fs == fs[..n] + [fs[n]];
      VisitCodes(fs[..n]) + FlightCodes(fs[n])
  }

  function RouteCodes(routes: seq<RouteLeg>): (r: seq<string>)
    ensures forall c :: c in r <==> exists x :: x in routes && (x.from.icao == c || x.to.icao == c)
  {
    if routes == [] then []
    else
      var n := |routes| - 1;
      assert routes == routes[..n] + [routes[n]];
      RouteCodes(routes[..n]) + [routes[n].from.icao, routes[n].to.icao]
  }

  /** The `visitedAirports` set in insertion order: flight codes first, then route endpoints. */
  function Visited(fs: seq<Flight>, routes: seq<RouteLeg>): seq<string>
  {
    Dedup(VisitCodes(fs) + RouteCodes(routes))
  }

  /** A code is visited iff a flight names it (non-empty) or a route bucket ends at it; each once. */
  lemma VisitedMembers(fs: seq<Flight>, routes: seq<RouteLeg>)
    ensures Distinct(Visited(fs, routes))
    ensures forall c :: c in Visited(fs, routes) <==>
      (c != "" && exists f :: f in fs && (f.frm == c || f.to == c))
      || exists x :: x in routes && (x.from.icao == c || x.to.icao == c)
  {
  }

  /** `airportCounts[c]`: how often the flights name c. */
  function CountKey(codes: seq<string>): string -> real
  {
    c => Occurrences(codes, c) as real
  }

  /**
   * The most common airport: `Object.entries(airportCounts)` lists the codes in
   * first-appearance order and the stable descending sort keeps the first of the
   * most frequent at the front.
   */
  function MostCommonDetail(fs: seq<Flight>): (r: Option<FactDetail>)
    ensures r.None? <==> VisitCodes(fs) == []
    ensures r.Some? ==>
      exists i :: IsFirstMax(Dedup(VisitCodes(fs)), CountKey(VisitCodes(fs)), i)
          && r.value == MostCommon(Dedup(VisitCodes(fs))[i], Occurrences(VisitCodes(fs), Dedup(VisitCodes(fs))[i]))
  {
    var codes := Dedup(VisitCodes(fs));
    var b := BestIndex(codes, CountKey(VisitCodes(fs)));
    if b.None? then
      None
    else
      assert IsFirstMax(codes, CountKey(VisitCodes(fs)), b.value);
      Some(MostCommon(codes[b.value], Occurrences(VisitCodes(fs), codes[b.value])))
  }

  /** The generator's airport count, with the most common airport when there is one. */
  function UniqueAirportsFact(src: FactSource, fs: seq<Flight>, routes: seq<RouteLeg>): (r: Option<FunFact>)
    ensures r.Some? ==> r.value.id == "unique_airports" && r.value.id in Priority
    ensures r.Some? <==> Gated(src) && Visited(fs, routes) != []
    ensures r.Some? ==>
      r.value == FunFact("unique_airports", "Airports visited",
          AirportCount(|Visited(fs, routes)|), MostCommonDetail(fs), Some(10.0))
  {
    if Gated(src) && |Visited(fs, routes)| > 0 then
      Some(FunFact("unique_airports", "Airports visited", AirportCount(|Visited(fs, routes)|),
                   MostCommonDetail(fs), Some(10.0)))
    else None
  }

  // ---------------------------------------------------------------- farthest north and south

  /** The code and latitude pairs the demo page's `latLookup` is filled with, in order. */
  function Mentions(fs: seq<Flight>): (r: seq<(string, Option<real>)>)
    ensures |r| == 2 * |fs|
    ensures forall k :: 0 <= k < |fs| ==> r[2 * k] == (fs[k].frm, fs[k].frmLat) && r[2 * k + 1] == (fs[k].to, fs[k].toLat)
  {
    if fs == [] then []
    else Mentions(fs[..|fs| - 1]) + [(fs[|fs| - 1].frm, fs[|fs| - 1].frmLat), (fs[|fs| - 1].to, fs[|fs| - 1].toLat)]
  }

  /** `latLookup`: each code has the latitude of its last mention (which may be missing). */
  function LatLookup(fs: seq<Flight>): map<string, Option<real>>
  {
    LastWins(Mentions(fs))
  }

  /** The last mention of a code decides its latitude, even when that mention has none. */
  lemma LatLookupLast(fs: seq<Flight>, i: nat)
    requires i < |Mentions(fs)| && forall j :: i < j < |Mentions(fs)| ==> Mentions(fs)[j].0 != Mentions(fs)[i].0
    ensures LatLookup(fs)[Mentions(fs)[i].0] == Mentions(fs)[i].1
  {
    LastWinsLast(Mentions(fs), i);
  }

  /** A code's usable latitude: from the generator's catalog, or from the demo page's lookup. */
  function LatOf(src: FactSource, fs: seq<Flight>): string -> Option<real>
  {
    match src
    case GeneratorFacts(index) => (c: string) => if c in index then Some(index[c].lat) else None
    case DemoFacts => (c: string) => if c in LatLookup(fs) then LatLookup(fs)[c] else None
  }

  function HasLat(lat: string -> Option<real>): string -> bool { c => lat(c).Some? }
  function North(lat: string -> Option<real>): string -> real { c => lat(c).GetOr(0.0) }
  function South(lat: string -> Option<real>): string -> real { c => -lat(c).GetOr(0.0) }

  /** The first visited airport with the largest latitude: `>` keeps the earlier of two equal ones. */
  function NorthFact(src: FactSource, fs: seq<Flight>, routes: seq<RouteLeg>): (r: Option<FunFact>)
    ensures r.Some? ==> r.value.id == "most_northern" && r.value.id in Priority
    ensures r.Some? <==> exists c :: c in Visited(fs, routes) && LatOf(src, fs)(c).Some?
    ensures r.Some? ==>
      exists i :: IsFirstMaxWhere(Visited(fs, routes), HasLat(LatOf(src, fs)), North(LatOf(src, fs)), i)
          && r.value == FunFact("most_northern", "Farthest north", Latitude(LatOf(src, fs)(Visited(fs, routes)[i]).value),
                                Some(Code(Visited(fs, routes)[i])), Some(6.0))
  {
    var vis, lat := Visited(fs, routes), LatOf(src, fs);
    var b := BestIndexWhere(vis, HasLat(lat), North(lat));
    if b.Some? then
      assert IsFirstMaxWhere(vis, HasLat(lat), North(lat), b.value);
      Some(FunFact("most_northern", "Farthest north", Latitude(lat(vis[b.value]).value), Some(Code(vis[b.value])), Some(6.0)))
    else
      assert forall j :: 0 <= j < |vis| ==> lat(vis[j]).None?;
      None
  }

  /** The first visited airport with the smallest latitude. */
  function SouthFact(src: FactSource, fs: seq<Flight>, routes: seq<RouteLeg>): (r: Option<FunFact>)
    ensures r.Some? ==> r.value.id == "most_southern" && r.value.id in Priority
    ensures r.Some? <==> exists c :: c in Visited(fs, routes) && LatOf(src, fs)(c).Some?
    ensures r.Some? ==>
      exists i :: IsFirstMaxWhere(Visited(fs, routes), HasLat(LatOf(src, fs)), South(LatOf(src, fs)), i)
          && r.value == FunFact("most_southern", "Farthest south", Latitude(LatOf(src, fs)(Visited(fs, routes)[i]).value),
                                Some(Code(Visited(fs, routes)[i])), Some(6.0))
  {
    var vis, lat := Visited(fs, routes), LatOf(src, fs);
    var b := BestIndexWhere(vis, HasLat(lat), South(lat));
    if b.Some? then
      assert IsFirstMaxWhere(vis, HasLat(lat), South(lat), b.value);
      Some(FunFact("most_southern", "Farthest south", Latitude(lat(vis[b.value]).value), Some(Code(vis[b.value])), Some(6.0)))
    else
      assert forall j :: 0 <= j < |vis| ==> lat(vis[j]).None?;
      None
  }

  // ---------------------------------------------------------------- streak and average

  function HasFlights(d: DayTotal): bool { d.flights > 0 }
  function DayDate(d: DayTotal): int { d.date }

  /** `heatmap.filter((d) => d.flights > 0).map((d) => d.date)` */
  function StreakDates(heatmap: seq<DayTotal>): seq<int>
  {
    Project(Filter(heatmap, HasFlights), DayDate)
  }

  /** On a heatmap built from flights the filter keeps every day: each has a flight. */
  lemma StreakDatesAllDays(fs: seq<Flight>)
    ensures StreakDates(Heatmap(fs)) == Project(Heatmap(fs), DayDate)
  {
    HeatmapCountsPositive(fs);
    FilterAllKept(Heatmap(fs), HasFlights);
  }

  /** The streak fact, for a run of at least two days. */
  function StreakFact(heatmap: seq<DayTotal>): (r: Option<FunFact>)
    ensures r.Some? ==> r.value.id == "longest_streak" && r.value.id in Priority
    ensures r.Some? <==> Longest(StreakDates(heatmap)).len > 1
    ensures r.Some? ==>
      r.value.value == DayCount(Longest(StreakDates(heatmap)).len)
          && r.value.detail == Some(Span(Longest(StreakDates(heatmap)).start, Longest(StreakDates(heatmap)).end))
  {
    var s := Longest(StreakDates(heatmap));
    if s.len > 1 then
      Some(FunFact("longest_streak", "Longest streak", DayCount(s.len), Some(Span(s.start, s.end)), Some(7.0)))
    else None
  }

  /** The mean flight time in hours. */
  function Average(fs: seq<Flight>): (a: real)
    requires fs != []
    ensures a * (|fs| as real) == Tenths(Sum(fs, TotalTimeOf))
    ensures a > 0.0 <==> Sum(fs, TotalTimeOf) > 0
  {
    var n := |fs| as real;
    var total := Tenths(Sum(fs, TotalTimeOf));
    var a := total / n;
    assert a * n == total;
    assert a > 0.0 <==> total > 0.0 by {
      if a > 0.0 { assert a * n > 0.0; }
      if a <= 0.0 { assert a * n <= 0.0; }
    }
    a
  }

  /** The average flight, for a non-empty log whose average is positive on the generator. */
  function AverageFact(src: FactSource, fs: seq<Flight>): (r: Option<FunFact>)
    ensures r.Some? ==> r.value.id == "avg_flight_duration" && r.value.id in Priority
    ensures r.Some? <==> fs != [] && (!Gated(src) || Sum(fs, TotalTimeOf) > 0)
    ensures r.Some? ==>
      r.value.value.Hours? && r.value.value.hours * (|fs| as real) == Tenths(Sum(fs, TotalTimeOf))
          && r.value.detail == Some(Across(|fs|))
  {
    if fs != [] && (!Gated(src) || Average(fs) > 0.0) then
      Some(FunFact("avg_flight_duration", "Average flight", Hours(Average(fs)), Some(Across(|fs|)), Some(5.0)))
    else None
  }

  // ---------------------------------------------------------------- the fact list

  /** The ten candidates pushed in the order the source adds them. */
  function Collect(o1: Option<FunFact>, o2: Option<FunFact>, o3: Option<FunFact>, o4: Option<FunFact>,
                   o5: Option<FunFact>, o6: Option<FunFact>, o7: Option<FunFact>, o8: Option<FunFact>,
                   o9: Option<FunFact>, o10: Option<FunFact>): seq<FunFact>
  {
    AddFact(AddFact(AddFact(AddFact(AddFact(AddFact(AddFact(AddFact(AddFact(AddFact(
      [], o1), o2), o3), o4), o5), o6), o7), o8), o9), o10)
  }

  function Fired(o: Option<FunFact>): nat { if o.Some? then 1 else 0 }

  /** The collected facts are exactly the fired candidates' facts, one per fired candidate. */
  lemma CollectMembers(o1: Option<FunFact>, o2: Option<FunFact>, o3: Option<FunFact>, o4: Option<FunFact>,
                   o5: Option<FunFact>, o6: Option<FunFact>, o7: Option<FunFact>, o8: Option<FunFact>,
                   o9: Option<FunFact>, o10: Option<FunFact>, x: FunFact)
    ensures x in Collect(o1, o2, o3, o4, o5, o6, o7, o8, o9, o10) <==>
      Yields(o1, x) || Yields(o2, x) || Yields(o3, x) || Yields(o4, x) || Yields(o5, x)
      || Yields(o6, x) || Yields(o7, x) || Yields(o8, x) || Yields(o9, x) || Yields(o10, x)
  {
    var f1 := AddFact([], o1);
    var f2 := AddFact(f1, o2);
    var f3 := AddFact(f2, o3);
    var f4 := AddFact(f3, o4);
    var f5 := AddFact(f4, o5);
    var f6 := AddFact(f5, o6);
    var f7 := AddFact(f6, o7);
    var f8 := AddFact(f7, o8);
    var f9 := AddFact(f8, o9);
    AddFactMember([], o1, x);
    AddFactMember(f1, o2, x);
    AddFactMember(f2, o3, x);
    AddFactMember(f3, o4, x);
    AddFactMember(f4, o5, x);
    AddFactMember(f5, o6, x);
    AddFactMember(f6, o7, x);
    AddFactMember(f7, o8, x);
    AddFactMember(f8, o9, x);
    AddFactMember(f9, o10, x);
  }

  /** `funFacts`: the candidates that fired, in the order the source adds them. */
  function FunFactsOf(src: FactSource, fs: seq<Flight>, heatmap: seq<DayTotal>, routes: seq<RouteLeg>,
                      dist: RouteLeg -> real): seq<FunFact>
  {
    Collect(LongestFlightFact(src, fs), FurthestLegFact(src, routes, dist), BiggestDayFact(src, heatmap),
            BusiestDayFact(src, heatmap), TopRouteFact(src, routes), UniqueAirportsFact(src, fs, routes),
            NorthFact(src, fs, routes), SouthFact(src, fs, routes), StreakFact(heatmap), AverageFact(src, fs))
  }
}
