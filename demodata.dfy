/**
 * The demo-data generator's flight synthesis: `pickRoute` draws an origin and a
 * destination from the airport catalogue, and `generateFlights` fills the 211
 * days up to today with zero to three flights each, tops the list up to the
 * target on random days, sorts it by date and keeps the most recent flights.
 *
 * `rand()` is an abstract stream of draws in [0, 1): the seeded generator that
 * produces it is not part of this model, and neither is the great-circle
 * distance, which is a function parameter.
 */
module DemoData {
  import opened Wrappers
  import opened Seqs
  import opened Groups
  import opened Flights
  import opened Reals

  /** The shared `rand()`: each call returns the next draw of a fixed stream. */
  class Rng {
    const draw: nat -> real
    var calls: nat

    ghost predicate Valid()
    {
      forall i: nat :: 0.0 <= draw(i) < 1.0
    }

    constructor (draw: nat -> real)
      ensures this.draw == draw && calls == 0
    {
      this.draw := draw;
      calls := 0;
    }

    method Next() returns (r: real)
      requires Valid()
      modifies this
      ensures r == draw(old(calls)) && calls == old(calls) + 1
      ensures 0.0 <= r < 1.0
    {
      r := draw(calls);
      calls := calls + 1;
    }
  }

  // ---------------------------------------------------------------- numeric helpers

  /** `Math.floor(r * n)` for a draw r: an index below n. */
  function ScaledIndex(r: real, n: nat): (i: nat)
    requires 0.0 <= r < 1.0 && n > 0
    ensures i < n
    ensures i as real <= r * n as real < i as real + 1.0
  {
    ScaleBelow(r, n as real);
    FloorIndex(r * n as real, n);
    (r * n as real).Floor
  }

  /** `Math.round(v)`: the nearest integer, halves rounded up. */
  function Round(v: real): (t: int)
    ensures t as real <= v + 0.5 < t as real + 1.0
  {
    (v + 0.5).Floor
  }

  /** `round1(v)` in tenths: `Math.round(v * 10)`. */
  function Round10(v: real): int
  {
    Round(v * 10.0)
  }

  /** `range(min, max)` for the draw r. */
  function Between(min: real, max: real, r: real): real
  {
    min + (max - min) * r
  }

  /** `durationFromDistance`, in tenths: four distance bands, each a rounded draw from its own interval. */
  function DurationTenths(distNm: real, r: real): (t: int)
    requires 0.0 <= r < 1.0
    ensures distNm < 400.0 ==> 7 <= t <= 14
    ensures 400.0 <= distNm < 900.0 ==> 15 <= t <= 27
    ensures 900.0 <= distNm < 1500.0 ==> 28 <= t <= 42
    ensures 1500.0 <= distNm ==> 35 <= t <= 50
  {
    if distNm < 400.0 then Round10(Between(0.7, 1.4, r))
    else if distNm < 900.0 then Round10(Between(1.5, 2.7, r))
    else if distNm < 1500.0 then Round10(Between(2.8, 4.2, r))
    else Round10(Between(3.5, 5.0, r))
  }

  /** `count`: 0, 1, 2 or 3 flights for a day, by the day's roll. */
  function DayCount(roll: real): (c: nat)
    ensures c <= 3
    ensures c == 0 <==> roll < 0.15
  {
    if roll < 0.15 then 0 else if roll < 0.55 then 1 else if roll < 0.85 then 2 else 3
  }

  // ---------------------------------------------------------------- the catalogue

  const HubCode: string := "KSLC"

  /** `airports`: code, latitude, longitude and name of each catalogue airport. */
  const Airports: seq<Airport> := [
    Airport("KSLC", "Salt Lake City Intl", 40.7884, -111.977),
    Airport("KATL", "Hartsfield-Jackson Atlanta", 33.6407, -84.4277),
    Airport("KMSP", "Minneapolis/St Paul", 44.882, -93.2218),
    Airport("KDTW", "Detroit Metro", 42.2162, -83.3554),
    Airport("KJFK", "John F Kennedy", 40.6413, -73.7781),
    Airport("KLGA", "LaGuardia", 40.7769, -73.874),
    Airport("KEWR", "Newark Liberty", 40.6895, -74.1745),
    Airport("KBOS", "Boston Logan", 42.3656, -71.0096),
    Airport("KDCA", "Reagan National", 38.8512, -77.0402),
    Airport("KIAD", "Dulles", 38.9531, -77.4565),
    Airport("KORD", "Chicago O'Hare", 41.9742, -87.9073),
    Airport("KDEN", "Denver", 39.8561, -104.6737),
    Airport("KPHX", "Phoenix Sky Harbor", 33.4342, -112.0116),
    Airport("KLAX", "Los Angeles", 33.9416, -118.4085),
    Airport("KSFO", "San Francisco", 37.6213, -122.379),
    Airport("KSEA", "Seattle Tacoma", 47.4502, -122.3088),
    Airport("KPDX", "Portland", 45.5898, -122.5951),
    Airport("KLAS", "Las Vegas", 36.084, -115.1537),
    Airport("KSAN", "San Diego", 32.7338, -117.1933),
    Airport("KDFW", "Dallas/Fort Worth", 32.8998, -97.0403),
    Airport("KIAH", "Houston Intercontinental", 29.9902, -95.3368),
    Airport("KMCO", "Orlando", 28.4312, -81.3081),
    Airport("KFLL", "Fort Lauderdale", 26.0726, -80.1527),
    Airport("KTPA", "Tampa", 27.9755, -82.5332),
    Airport("KBNA", "Nashville", 36.1263, -86.6774),
    Airport("KSTL", "St. Louis", 38.7477, -90.3597),
    Airport("KCOS", "Colorado Springs", 38.8058, -104.7005),
    Airport("KBOI", "Boise", 43.5644, -116.2228),
    Airport("KSJC", "San Jose", 37.3639, -121.9289),
    Airport("KSMF", "Sacramento", 38.6954, -121.5908),
    Airport("KANC", "Anchorage", 61.1743, -149.9985)]

  /** `hubs`. */
  const Hubs: seq<string> := ["KSLC", "KATL", "KMSP", "KDTW", "KJFK", "KSEA", "KORD", "KDEN", "KDFW"]

  function IcaoOf(a: Airport): string { a.icao }
  function AirportEntry(a: Airport): (string, Airport) { (a.icao, a) }

  /** `airportIndex`: code to airport, filled in catalogue order. */
  function Index(airports: seq<Airport>): map<string, Airport>
  {
    LastWins(Project(airports, AirportEntry))
  }

  /** The index knows exactly the catalogue's codes, and files each airport under its own code. */
  lemma IndexLookup(airports: seq<Airport>, code: string)
    ensures code in Index(airports) <==> code in Project(airports, IcaoOf)
    ensures code in Index(airports) ==> Index(airports)[code].icao == code && Index(airports)[code] in airports
  {
    assert Project(Project(airports, AirportEntry), Fst) == Project(airports, IcaoOf);
    if code in Index(airports) {
      var kvs := Project(airports, AirportEntry);
      var i :| 0 <= i < |kvs| && kvs[i] == (code, Index(airports)[code]);
      assert airports[i] in airports;
    }
  }

  function NotHub(a: Airport): bool { a.icao != HubCode }
  function NotCode(code: string): string -> bool { (h: string) => h != code }
  function NotAirport(code: string): Airport -> bool { (apt: Airport) => apt.icao != code }

  /** `nonHubAirports`. */
  function NonHub(airports: seq<Airport>): seq<Airport>
  {
    Filter(airports, NotHub)
  }

  /** Some catalogue airport has this code. */
  predicate Lists(airports: seq<Airport>, code: string)
  {
    exists i :: 0 <= i < |airports| && airports[i].icao == code
  }

  /**
   * What the draws rely on: the hub and every listed hub are catalogue codes,
   * and there are two different hubs and two different non-hub airports, so
   * that every `choice` has something to choose from.
   */
  predicate CatalogOk(airports: seq<Airport>, hubs: seq<string>)
  {
    Lists(airports, HubCode)
    && (forall h :: h in hubs ==> Lists(airports, h))
    && (exists i, j :: 0 <= i < |airports| && 0 <= j < |airports| && airports[i].icao != HubCode &&
          airports[j].icao != HubCode && airports[i].icao != airports[j].icao)
    && |hubs| >= 2 && hubs[0] != hubs[1]
  }

  /** A listed code is in the index, filed under an airport of that code. */
  lemma ListsIndex(airports: seq<Airport>, code: string)
    requires Lists(airports, code)
    ensures code in Index(airports) && Index(airports)[code].icao == code && Index(airports)[code] in airports
  {
    var i :| 0 <= i < |airports| && airports[i].icao == code;
    assert Project(airports, IcaoOf)[i] == code;
    IndexLookup(airports, code);
  }

  /** There is a non-hub airport, and one whose code differs from any given code. */
  lemma NonHubChoices(airports: seq<Airport>, hubs: seq<string>, x: string)
    requires CatalogOk(airports, hubs)
    ensures |NonHub(airports)| > 0 && |Filter(NonHub(airports), NotAirport(x))| > 0
  {
    var i, j :| 0 <= i < |airports| && 0 <= j < |airports| && airports[i].icao != HubCode &&
      airports[j].icao != HubCode && airports[i].icao != airports[j].icao;
    var a, b := airports[i], airports[j];
    assert a in airports && b in airports;
    assert a in NonHub(airports) && b in NonHub(airports);
    if a.icao != x {
      assert a in Filter(NonHub(airports), NotAirport(x));
    } else {
      assert b in Filter(NonHub(airports), NotAirport(x));
    }
  }

  /** A hub other than any given code. */
  lemma OtherHub(hubs: seq<string>, x: string)
    requires |hubs| >= 2 && hubs[0] != hubs[1]
    ensures |Filter(hubs, NotCode(x))| > 0
  {
    assert hubs[0] in hubs && hubs[1] in hubs;
    if hubs[0] != x {
      assert hubs[0] in Filter(hubs, NotCode(x));
    } else {
      assert hubs[1] in Filter(hubs, NotCode(x));
    }
  }

  // ---------------------------------------------------------------- pickRoute

  /** `choice(arr)`: the element at `Math.floor(rand() * arr.length)`. */
  method Choice<T>(rng: Rng, arr: seq<T>) returns (x: T)
    requires rng.Valid() && |arr| > 0
    modifies rng
    ensures rng.calls == old(rng.calls) + 1
    ensures x == arr[ScaledIndex(rng.draw(old(rng.calls)), |arr|)]
  {
    var r := rng.Next();
    x := arr[ScaledIndex(r, |arr|)];
  }

  /** A catalogue airport is listed in the index under its own code. */
  lemma Listed(airports: seq<Airport>, a: Airport)
    requires a in airports
    ensures a.icao in Index(airports) && Index(airports)[a.icao].icao == a.icao && Index(airports)[a.icao] in airports
  {
    var i :| 0 <= i < |airports| && airports[i] == a;
    ListsIndex(airports, a.icao);
  }

  /** A non-hub airport, looked up in the index. */
  method ChooseNonHub(rng: Rng, airports: seq<Airport>, hubs: seq<string>) returns (a: Airport)
    requires rng.Valid() && CatalogOk(airports, hubs)
    modifies rng
    ensures rng.calls == old(rng.calls) + 1
    ensures a in airports && a.icao != HubCode
  {
    NonHubChoices(airports, hubs, HubCode);
    var pick := Choice(rng, NonHub(airports));
    Listed(airports, pick);
    a := Index(airports)[pick.icao];
  }

  /** The hub-and-spoke branch: the hub and a non-hub airport, the hub first for a roll below 0.7. */
  method HubAndSpoke(rng: Rng, airports: seq<Airport>, hubs: seq<string>) returns (from: Airport, to: Airport)
    requires rng.Valid() && CatalogOk(airports, hubs)
    modifies rng
    ensures rng.calls > old(rng.calls)
    ensures from in airports && to in airports && from.icao != to.icao
    ensures from.icao == HubCode || to.icao == HubCode
  {
    ListsIndex(airports, HubCode);
    var hub := Index(airports)[HubCode];
    var dest := ChooseNonHub(rng, airports, hubs);
    var originFavoursHub := rng.Next();
    if originFavoursHub < 0.7 {
      from, to := hub, dest;
    } else {
      from, to := dest, hub;
    }
  }

  /** The hub-to-hub branch: two hubs, the second redrawn among the others when it repeats the first. */
  method BetweenHubs(rng: Rng, airports: seq<Airport>, hubs: seq<string>) returns (from: Airport, to: Airport)
    requires rng.Valid() && CatalogOk(airports, hubs)
    modifies rng
    ensures rng.calls > old(rng.calls)
    ensures from in airports && to in airports && from.icao != to.icao
    ensures from.icao in hubs && to.icao in hubs
  {
    var hubFromCode := Choice(rng, hubs);
    var hubToCode := Choice(rng, hubs);
    if hubToCode == hubFromCode {
      OtherHub(hubs, hubFromCode);
      hubToCode := Choice(rng, Filter(hubs, NotCode(hubFromCode)));
    }
    assert hubFromCode in hubs && hubToCode in hubs;
    ListsIndex(airports, hubFromCode);
    ListsIndex(airports, hubToCode);
    from, to := Index(airports)[hubFromCode], Index(airports)[hubToCode];
  }

  /** The point-to-point branch: two non-hub airports, the second redrawn among the others when it repeats the first. */
  method PointToPoint(rng: Rng, airports: seq<Airport>, hubs: seq<string>) returns (from: Airport, to: Airport)
    requires rng.Valid() && CatalogOk(airports, hubs)
    modifies rng
    ensures rng.calls > old(rng.calls)
    ensures from in airports && to in airports && from.icao != to.icao
    ensures from.icao != HubCode && to.icao != HubCode
  {
    var a := ChooseNonHub(rng, airports, hubs);
    var b := ChooseNonHub(rng, airports, hubs);
    if b.icao == a.icao {
      NonHubChoices(airports, hubs, a.icao);
      var pick := Choice(rng, Filter(NonHub(airports), NotAirport(a.icao)));
      Listed(airports, pick);
      b := Index(airports)[pick.icao];
    }
    from, to := a, b;
  }

  /**
   * `pickRoute`: hub-and-spoke through the hub for a first roll below 0.55,
   * hub to hub below 0.8, otherwise between two non-hub airports; a route that
   * still starts where it ends would be replaced by one from the hub to a
   * non-hub airport. The origin and destination always differ.
   */
  method PickRoute(rng: Rng, airports: seq<Airport>, hubs: seq<string>) returns (from: Airport, to: Airport)
    requires rng.Valid() && CatalogOk(airports, hubs)
    modifies rng
    ensures rng.calls > old(rng.calls)
    ensures from.icao != to.icao
    ensures from in airports && to in airports
    ensures rng.draw(old(rng.calls)) < 0.55 ==> from.icao == HubCode || to.icao == HubCode
    ensures 0.55 <= rng.draw(old(rng.calls)) < 0.8 ==> from.icao in hubs && to.icao in hubs
    ensures 0.8 <= rng.draw(old(rng.calls)) ==> from.icao != HubCode && to.icao != HubCode
  {
    var roll := rng.Next();
    if roll < 0.55 {
      from, to := HubAndSpoke(rng, airports, hubs);
    } else if roll < 0.8 {
      from, to := BetweenHubs(rng, airports, hubs);
    } else {
      from, to := PointToPoint(rng, airports, hubs);
    }
    if from.icao == to.icao {
      // Each branch already ends in two different airports, so the fallback to
      // a departure from the hub is never taken.
      assert false;
    }
  }

  /** The generator's hub is the catalogue's first entry. */
  lemma DemoHubListed()
    ensures Lists(Airports, HubCode)
  {
    assert Airports[0].icao == HubCode;
  }

  /** Two of the generator's airports are different non-hub airports. */
  lemma DemoNonHubPair()
    ensures exists i, j ::
              0 <= i < |Airports| && 0 <= j < |Airports| && Airports[i].icao != HubCode &&
              Airports[j].icao != HubCode && Airports[i].icao != Airports[j].icao
  {
    assert Airports[1].icao != HubCode && Airports[2].icao != HubCode && Airports[1].icao != Airports[2].icao;
  }

  /** Each of the generator's hubs is a catalogue airport. */
  lemma DemoHubInCatalog(k: nat)
    requires k < |Hubs|
    ensures Lists(Airports, Hubs[k])
  {
    var w := [0, 1, 2, 3, 4, 15, 10, 11, 19][k];
    assert Airports[w].icao == Hubs[k];
  }

  /** The generator's own catalogue meets what the draws rely on. */
  lemma DemoCatalogOk()
    ensures CatalogOk(Airports, Hubs)
  {
    DemoHubListed();
    DemoNonHubPair();
    forall h | h in Hubs ensures Lists(Airports, h) {
      var k :| 0 <= k < |Hubs| && Hubs[k] == h;
      DemoHubInCatalog(k);
    }
  }

  // ---------------------------------------------------------------- generateFlights

  /** The record both loops push: one landing and one takeoff, by day or by night. */
  function MakeFlight(day: int, from: Airport, to: Airport, totalTime: int, nightFlight: bool,
                      nightTime: int, xcNight: int, inst: int, instActual: int, instSim: int,
                      approaches: int, holds: int): (f: Flight)
    ensures f.date == day && f.frm == from.icao && f.to == to.icao
    ensures OneLanding(f) && (f.nightLandings == 1 <==> nightFlight)
  {
    Flight(day, from.icao, to.icao, Some(from.lat), Some(from.lon), Some(to.lat), Some(to.lon),
      totalTime, Round10(totalTime as real * 0.09), 0, 0, nightTime, totalTime, xcNight,
      inst, instSim, instActual,
      1, if nightFlight then 0 else 1, if nightFlight then 1 else 0,
      if nightFlight then 0 else 1, if nightFlight then 1 else 0,
      approaches, holds)
  }

  /** Exactly one landing and one takeoff, both by day or both by night. */
  predicate OneLanding(f: Flight)
  {
    f.landings == 1 && f.dayLandings + f.nightLandings == 1 && 0 <= f.dayLandings && 0 <= f.nightLandings
    && f.dayTakeoffs == f.dayLandings && f.nightTakeoffs == f.nightLandings
  }

  /** What every generated flight satisfies, for a generation window [start, today]. */
  predicate Generated(f: Flight, start: int, today: int)
  {
    OneLanding(f) && f.frm != f.to && start <= f.date <= today
  }

  /** One flight of the day loop, with its draws in the order the source makes them. */
  method DayFlight(rng: Rng, airports: seq<Airport>, hubs: seq<string>, day: int, dist: (Airport, Airport) -> real)
    returns (f: Flight)
    requires rng.Valid() && CatalogOk(airports, hubs)
    modifies rng
    ensures rng.calls > old(rng.calls)
    ensures OneLanding(f) && f.frm != f.to && f.date == day
  {
    var from, to := PickRoute(rng, airports, hubs);
    var r := rng.Next();
    var totalTime := DurationTenths(dist(from, to), r);
    var night := rng.Next();
    var nightFlight := night < 0.28;
    var nightTime := 0;
    if nightFlight {
      r := rng.Next();
      nightTime := Round10(totalTime as real / 10.0 * Between(0.2, 0.6, r));
    }
    r := rng.Next();
    var inst := Round10(totalTime as real / 10.0 * Between(0.2, 0.7, r));
    r := rng.Next();
    var instActual := Round10(inst as real / 10.0 * Between(0.4, 0.8, r));
    r := rng.Next();
    var spare := if inst - instActual > 0 then inst - instActual else 0;
    var instSim := Round10(spare as real / 10.0 * Between(0.1, 0.4, r));
    r := rng.Next();
    var rounded := Round(Between(0.4, 1.6, r));
    var approaches := if rounded > 1 then rounded else 1;
    r := rng.Next();
    var holds := if r < 0.15 then 1 else 0;
    var acType := rng.Next();  // `ac_type` is drawn but not part of the flight model
    f := MakeFlight(day, from, to, totalTime, nightFlight, nightTime, nightTime, inst, instActual, instSim, approaches, holds);
  }

  /** One flight of the top-up loop: a random day among the first 210 of the window. */
  method TopUpFlight(rng: Rng, airports: seq<Airport>, hubs: seq<string>, start: int, dist: (Airport, Airport) -> real)
    returns (f: Flight)
    requires rng.Valid() && CatalogOk(airports, hubs)
    modifies rng
    ensures rng.calls > old(rng.calls)
    ensures OneLanding(f) && f.frm != f.to && start <= f.date < start + 210
  {
    var from, to := PickRoute(rng, airports, hubs);
    var r := rng.Next();
    var totalTime := DurationTenths(dist(from, to), r);
    var night := rng.Next();
    var nightFlight := night < 0.28;
    r := rng.Next();
    var dayOffset := ScaledIndex(r, 210);
    var acType := rng.Next();  // `ac_type` is drawn but not part of the flight model
    var nightTime, xcNight := 0, 0;
    if nightFlight {
      r := rng.Next();
      nightTime := Round10(totalTime as real / 10.0 * Between(0.2, 0.6, r));
      r := rng.Next();
      xcNight := Round10(totalTime as real / 10.0 * Between(0.2, 0.6, r));
    }
    r := rng.Next();
    var inst := Round10(totalTime as real / 10.0 * Between(0.2, 0.7, r));
    f := MakeFlight(start + dayOffset, from, to, totalTime, nightFlight, nightTime, xcNight, inst, 0, 0, 1, 0);
  }

  function DateKey(f: Flight): real { f.date as real }

  /** The last n elements, or all of them when there are no more than n (`slice(length - n)` on overshoot). */
  function Recent<T>(xs: seq<T>, n: nat): (r: seq<T>)
    ensures |r| == if |xs| > n then n else |xs|
    ensures xs == xs[..|xs| - |r|] + r
  {
    if |xs| > n then xs[|xs| - n..] else xs
  }

  /** Nothing a sorted list's tail drops is later than anything it keeps. */
  lemma RecentIsLatest<T>(xs: seq<T>, n: nat, key: T -> real)
    requires SortedBy(xs, key)
    ensures SortedBy(Recent(xs, n), key)
    ensures forall i, j :: 0 <= i < |xs| - |Recent(xs, n)| <= j < |xs| ==> key(xs[i]) <= key(xs[j])
  {
    var r := Recent(xs, n);
    var d := |xs| - |r|;
    assert r == xs[d..];
    SortedSuffix(xs, d, key);
  }

  lemma SortedSuffix<T>(xs: seq<T>, d: nat, key: T -> real)
    requires SortedBy(xs, key) && d <= |xs|
    ensures SortedBy(xs[d..], key)
  {
    var r := xs[d..];
    forall i, j | 0 <= i < j < |r| ensures key(r[i]) <= key(r[j]) {
      assert r[i] == xs[d + i] && r[j] == xs[d + j];
    }
  }

  /**
   * `generateFlights(targetFlights)`: one roll per day from today - 210 through
   * today, then top-up flights until there are at least `targetFlights`, then a
   * stable sort by date and the most recent `targetFlights`. The result has
   * exactly `targetFlights` flights, ascending by date, each from one airport to
   * another with one landing and one takeoff inside the window.
   */
  method GenerateFlights(rng: Rng, airports: seq<Airport>, hubs: seq<string>, today: int, targetFlights: nat,
                         dist: (Airport, Airport) -> real)
    returns (flights: seq<Flight>, ghost pool: seq<Flight>)
    requires rng.Valid() && CatalogOk(airports, hubs)
    modifies rng
    ensures |flights| == targetFlights
    ensures SortedBy(flights, DateKey)
    ensures forall f :: f in flights ==> Generated(f, today - 210, today)
    ensures |pool| >= targetFlights && flights == Recent(SortBy(pool, DateKey), targetFlights)
    ensures forall f :: f in pool ==> Generated(f, today - 210, today)
    ensures multiset(flights) <= multiset(pool)
    ensures forall g, f :: g in multiset(pool) - multiset(flights) && f in flights ==> g.date <= f.date
  {
    var start := today - 210;
    var all: seq<Flight> := [];
    var d := start;
    while d <= today
      invariant start <= d <= today + 1
      invariant forall f :: f in all ==> Generated(f, start, today)
      decreases today - d
    {
      var roll := rng.Next();
      var count := DayCount(roll);
      var i := 0;
      while i < count
        invariant i <= count
        invariant forall f :: f in all ==> Generated(f, start, today)
        decreases count - i
      {
        var f := DayFlight(rng, airports, hubs, d, dist);
        all := all + [f];
        i := i + 1;
      }
      d := d + 1;
    }
    while |all| < targetFlights
      invariant forall f :: f in all ==> Generated(f, start, today)
      decreases targetFlights - |all|
    {
      var f := TopUpFlight(rng, airports, hubs, start, dist);
      all := all + [f];
    }
    var sorted := SortBy(all, DateKey);
    SortBySorted(all, DateKey);
    SortByMembers(all, DateKey);
    RecentIsLatest(sorted, targetFlights, DateKey);
    flights := Recent(sorted, targetFlights);
    pool := all;
    DroppedNotLater(sorted, targetFlights);
  }

  /** What the cut drops, as a multiset, is dated no later than anything it keeps. */
  lemma DroppedNotLater(sorted: seq<Flight>, n: nat)
    requires SortedBy(sorted, DateKey)
    ensures multiset(Recent(sorted, n)) <= multiset(sorted)
    ensures forall g, f :: g in multiset(sorted) - multiset(Recent(sorted, n)) && f in Recent(sorted, n) ==> g.date <= f.date
  {
    var r := Recent(sorted, n);
    var d := |sorted| - |r|;
    assert sorted == sorted[..d] + r;
    MultisetSplit(sorted[..d], r);
    PrefixNotLater(sorted, d);
  }

  lemma PrefixNotLater(sorted: seq<Flight>, d: nat)
    requires SortedBy(sorted, DateKey) && d <= |sorted|
    ensures forall g, f :: g in multiset(sorted[..d]) && f in sorted[d..] ==> g.date <= f.date
  {
    forall g: Flight, f: Flight | g in multiset(sorted[..d]) && f in sorted[d..] ensures g.date <= f.date {
      assert g in sorted[..d];
      var i :| 0 <= i < d && sorted[i] == g;
      var j :| d <= j < |sorted| && sorted[j] == f;
      assert DateKey(sorted[i]) <= DateKey(sorted[j]);
    }
  }

  lemma MultisetSplit<T>(a: seq<T>, b: seq<T>)
    ensures multiset(b) <= multiset(a + b)
    ensures multiset(a + b) - multiset(b) == multiset(a)
  {
    assert multiset(a + b) == multiset(a) + multiset(b);
  }
}
