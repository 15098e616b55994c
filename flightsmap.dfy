/**
 * The route map's data side: one line feature per route, labelled
 * "from → to"; line widths in three tiers cut at the 0.33 and 0.66 quantiles
 * of the route counts; and one point feature per distinct airport, in order
 * of first appearance, placed at that first appearance's coordinates.
 *
 * The map library itself (layers, styles, projection, events) is not part of
 * this model: a feature keeps its endpoints' longitude and latitude.
 */
module FlightsMap {
  import opened Wrappers
  import opened Seqs
  import opened Reals

  datatype Endpoint = Endpoint(icao: string, lat: real, lon: real)

  /** `RouteLeg`; `count` is absent when the JSON omits it or holds `null`. */
  datatype RouteLeg = RouteLeg(from: Endpoint, to: Endpoint, count: Option<real>, month: string)

  /** A line feature and the properties set on it (`caption` is its `label`); nothing here sets `trips`. */
  datatype RouteFeature = RouteFeature(from: Endpoint, to: Endpoint, count: Option<real>, trips: Option<real>, caption: string)

  datatype Tier = Thin | Med | Thick

  const Arrow: string := " \U{2192} "

  function Icao(e: Endpoint): string { e.icao }

  // ---------------------------------------------------------------- route features

  /** `${route.from.icao} → ${route.to.icao}` */
  function Label(route: RouteLeg): (l: string)
    ensures |l| == |route.from.icao| + 3 + |route.to.icao|
    ensures l[..|route.from.icao|] == route.from.icao
    ensures l[|route.from.icao| + 3..] == route.to.icao
  {
    route.from.icao + Arrow + route.to.icao
  }

  function FeatureOf(route: RouteLeg): RouteFeature
  {
    RouteFeature(route.from, route.to, route.count, None, Label(route))
  }

  /** `routes.map(...)`: one feature per route, in order, with its count and label. */
  function RouteFeatures(routes: seq<RouteLeg>): (fs: seq<RouteFeature>)
    ensures |fs| == |routes|
    ensures forall i :: 0 <= i < |routes| ==>
      && fs[i].count == routes[i].count
      && fs[i].caption == Label(routes[i])
      && fs[i].from == routes[i].from && fs[i].to == routes[i].to
  {
    Project(routes, FeatureOf)
  }

  // ---------------------------------------------------------------- quantiles and tiers

  /** `Number(f.get("count") ?? f.get("trips") ?? 1)` */
  function CountOf(f: RouteFeature): real
  {
    if f.count.Some? then f.count.value else if f.trips.Some? then f.trips.value else 1.0
  }

  function Id(x: real): real { x }

  /** The counts in ascending order (`.sort((a, b) => a - b)`). */
  function Counts(fs: seq<RouteFeature>): (cs: seq<real>)
    ensures |cs| == |fs|
    ensures SortedBy(cs, Id)
    ensures multiset(cs) == multiset(Project(fs, CountOf))
  {
    SortBySorted(Project(fs, CountOf), Id);
    SortBy(Project(fs, CountOf), Id)
  }

  /** `Math.floor(p * (counts.length - 1))` */
  function QuantileIndex(p: real, n: nat): (k: int)
    requires 0.0 <= p <= 1.0 && n > 0
    ensures 0 <= k < n
    ensures k == (p * (n - 1) as real).Floor
  {
    var x := p * (n - 1) as real;
    ScaleBetween(p, 1.0, (n - 1) as real);
    FloorIndex(x, n);
    x.Floor
  }

  /**
   * `quantile(p)`: 1 with no counts; otherwise the count at the floor of
   * p·(n−1) in ascending order, which every count up to that position is at
   * most and every count from it on is at least.
   */
  function Quantile(counts: seq<real>, p: real): (q: real)
    requires 0.0 <= p <= 1.0
    requires SortedBy(counts, Id)
    ensures counts == [] ==> q == 1.0
    ensures counts != [] ==>
      && q in counts
      && (forall j :: 0 <= j <= QuantileIndex(p, |counts|) ==> counts[j] <= q)
      && (forall j :: QuantileIndex(p, |counts|) <= j < |counts| ==> q <= counts[j])
  {
    if counts == [] then 1.0
    else
      var k := QuantileIndex(p, |counts|);
      assert forall j :: 0 <= j < k ==> Id(counts[j]) <= Id(counts[k]);
      counts[k]
  }

  lemma QuantileMonotone(counts: seq<real>, p1: real, p2: real)
    requires 0.0 <= p1 <= p2 <= 1.0
    requires SortedBy(counts, Id)
    ensures Quantile(counts, p1) <= Quantile(counts, p2)
  {
    if counts != [] {
      var n := |counts|;
      var m := (n - 1) as real;
      ScaleBetween(p1, p2, m);
      FloorMonotone(p1 * m, p2 * m);
      var k1 := QuantileIndex(p1, n);
      var k2 := QuantileIndex(p2, n);
      assert Quantile(counts, p1) <= counts[k2] by {
        assert forall j :: k1 <= j < n ==> Quantile(counts, p1) <= counts[j];
      }
      assert counts[k2] <= Quantile(counts, p2) by {
        assert forall j :: 0 <= j <= k2 ==> counts[j] <= Quantile(counts, p2);
      }
    }
  }

  /** The ranks of a one-count quantile and of a nine-count quantile. */
  lemma QuantileSamples()
    ensures Quantile([5.0], 0.66) == 5.0
    ensures QuantileIndex(0.33, 9) == 2 && QuantileIndex(0.66, 9) == 5
  {
  }

  /** The tier for a count, given the cut points. */
  function TierOf(c: real, q1: real, q2: real): (t: Tier)
    ensures t == Thin <==> c <= q1
    ensures t == Med <==> q1 < c <= q2
    ensures t == Thick <==> q1 < c && q2 < c
  {
    if c <= q1 then Thin else if c <= q2 then Med else Thick
  }

  /** `Math.min(tier === "thin" ? 1 : tier === "med" ? 2 : 3, 3)` */
  function Width(t: Tier): (w: int)
    ensures 1 <= w <= 3
    ensures w == 1 <==> t == Thin
    ensures w == 3 <==> t == Thick
  {
    var raw := if t == Thin then 1 else if t == Med then 2 else 3;
    assert t == Thick ==> raw == 3;
    if raw < 3 then raw else 3
  }

  /** A route with a larger count is never drawn thinner. */
  lemma WidthMonotone(c1: real, c2: real, q1: real, q2: real)
    requires c1 <= c2
    ensures Width(TierOf(c1, q1, q2)) <= Width(TierOf(c2, q1, q2))
  {
  }

  // ---------------------------------------------------------------- airport features

  /** The route endpoints in visiting order: each route's `from`, then its `to`. */
  function Endpoints(routes: seq<RouteLeg>): (eps: seq<Endpoint>)
    ensures |eps| == 2 * |routes|
  {
    if routes == [] then []
    else
      var n := |routes| - 1;
      Endpoints(routes[..n]) + [routes[n].from, routes[n].to]
  }

  /** The first appearance of each ICAO code, in order. */
  function UniqueByIcao(eps: seq<Endpoint>): seq<Endpoint>
  {
    if eps == [] then []
    else
      var n := |eps| - 1;
      var init := UniqueByIcao(eps[..n]);
      if eps[n].icao in Project(init, Icao) then init else init + [eps[n]]
  }

  function AirportFeatures(routes: seq<RouteLeg>): seq<Endpoint>
  {
    UniqueByIcao(Endpoints(routes))
  }

  lemma UniqueSnoc(eps: seq<Endpoint>, e: Endpoint)
    ensures UniqueByIcao(eps + [e])
         == if e.icao in Project(UniqueByIcao(eps), Icao) then UniqueByIcao(eps) else UniqueByIcao(eps) + [e]
  {
    assert (eps + [e])[..|eps|] == eps;
  }

  /**
   * The codes of the airport features are the distinct endpoint codes in order
   * of first appearance, so each code has exactly one feature; and each feature
   * is the first endpoint with its code.
   */
  lemma {:induction false} UniqueByIcaoSpec(eps: seq<Endpoint>)
    ensures Project(UniqueByIcao(eps), Icao) == Dedup(Project(eps, Icao))
    ensures forall k :: 0 <= k < |UniqueByIcao(eps)| ==>
      UniqueByIcao(eps)[k].icao in Project(eps, Icao)
      && UniqueByIcao(eps)[k] == eps[FirstIndex(Project(eps, Icao), UniqueByIcao(eps)[k].icao)]
  {
    if eps != [] {
      var n := |eps| - 1;
      var init := eps[..n];
      var e := eps[n];
      assert eps == init + [e];
      UniqueByIcaoSpec(init);
      var u := UniqueByIcao(init);
      ProjectSnoc(init, e, Icao);
      DedupSnoc(Project(init, Icao), e.icao);
      ProjectSnoc(u, e, Icao);
      var codes := Project(init, Icao);
      forall k | 0 <= k < |UniqueByIcao(eps)|
        ensures UniqueByIcao(eps)[k].icao in Project(eps, Icao)
        ensures UniqueByIcao(eps)[k] == eps[FirstIndex(Project(eps, Icao), UniqueByIcao(eps)[k].icao)]
      {
        var a := UniqueByIcao(eps)[k];
        if k < |u| {
          assert a == u[k];
          FirstIndexSnoc(codes, e.icao, a.icao);
          assert eps[FirstIndex(codes, a.icao)] == init[FirstIndex(codes, a.icao)];
        } else {
          assert a == e && e.icao !in Dedup(codes);
          FirstIndexSnoc(codes, e.icao, a.icao);
        }
      }
    }
  }

  /** One endpoint against the `seen` set. */
  method Visit(seen: set<string>, airports: seq<Endpoint>, apt: Endpoint, ghost eps: seq<Endpoint>)
    returns (seen': set<string>, airports': seq<Endpoint>)
    requires airports == UniqueByIcao(eps)
    requires forall c :: c in seen <==> c in Project(airports, Icao)
    ensures airports' == UniqueByIcao(eps + [apt])
    ensures forall c :: c in seen' <==> c in Project(airports', Icao)
  {
    UniqueSnoc(eps, apt);
    if apt.icao in seen {
      return seen, airports;
    }
    ProjectSnoc(airports, apt, Icao);
    seen' := seen + {apt.icao};
    airports' := airports + [apt];
  }

  lemma EndpointsSnoc(routes: seq<RouteLeg>, i: nat)
    requires i < |routes|
    ensures Endpoints(routes[..i + 1]) == Endpoints(routes[..i]) + [routes[i].from] + [routes[i].to]
  {
    assert routes[..i + 1][..i] == routes[..i];
  }

  /** The `routes.forEach` over both endpoints of every route, with its `seen` set. */
  method CollectAirports(routes: seq<RouteLeg>) returns (airports: seq<Endpoint>)
    ensures airports == AirportFeatures(routes)
  {
    var seen: set<string> := {};
    airports := [];
    var i := 0;
    while i < |routes|
      invariant 0 <= i <= |routes|
      invariant airports == UniqueByIcao(Endpoints(routes[..i]))
      invariant forall c :: c in seen <==> c in Project(airports, Icao)
    {
      var route := routes[i];
      EndpointsSnoc(routes, i);
      seen, airports := Visit(seen, airports, route.from, Endpoints(routes[..i]));
      seen, airports := Visit(seen, airports, route.to, Endpoints(routes[..i]) + [route.from]);
      i := i + 1;
    }
    assert routes[..i] == routes;
  }

  // ---------------------------------------------------------------- the map component

  /** The component's sources and its quantile ref, starting at `{ q1: 1, q2: 2 }`. */
  class MapView {
    var q1: real
    var q2: real
    var routeFeatures: seq<RouteFeature>
    var airportFeatures: seq<Endpoint>

    /** The cut points are ordered, so the middle tier is never skipped over. */
    ghost predicate Valid()
      reads this
    {
      q1 <= q2
    }

    constructor()
      ensures q1 == 1.0 && q2 == 2.0
      ensures routeFeatures == [] && airportFeatures == []
      ensures Valid()
    {
      q1, q2 := 1.0, 2.0;
      routeFeatures, airportFeatures := [], [];
    }

    /** The effect that runs when `routes` changes: both sources refilled, quantiles recomputed. */
    method ShowRoutes(routes: seq<RouteLeg>)
      modifies this
      ensures routeFeatures == RouteFeatures(routes)
      ensures SortedBy(Counts(routeFeatures), Id)
      ensures q1 == Quantile(Counts(routeFeatures), 0.33)
      ensures q2 == Quantile(Counts(routeFeatures), 0.66)
      ensures airportFeatures == AirportFeatures(routes)
      ensures Valid()
    {
      var features := RouteFeatures(routes);
      var counts := Counts(features);
      SortBySorted(Project(features, CountOf), Id);
      QuantileMonotone(counts, 0.33, 0.66);
      q1 := Quantile(counts, 0.33);
      q2 := Quantile(counts, 0.66);
      var airports := CollectAirports(routes);
      routeFeatures := features;
      airportFeatures := airports;
    }

    /** The style callback's stroke width for a feature. */
    function RouteWidth(f: RouteFeature): (w: int)
      reads this
      ensures 1 <= w <= 3
      ensures w == 1 <==> CountOf(f) <= q1
      ensures Valid() ==> (w == 3 <==> q2 < CountOf(f))
    {
      Width(TierOf(CountOf(f), q1, q2))
    }
  }
}
