/**
 * A logbook flight row and the pure views the three aggregate copies share:
 * field totals, the 90-day and "preceding 6 calendar months" windows, the
 * currency verdicts, the demo page's 6-month filter and the export's per-flight
 * route list.
 *
 * Hours are integers in tenths of an hour: every source value carries one
 * decimal, so the `+x.toFixed(1)` rounding of a sum is the identity. A numeric
 * column that is null or NaN in the source is stored as 0, which is what
 * `Number(x) || 0` and `x || 0` turn it into before any use.
 */
module Flights {
  import opened Wrappers
  import opened Seqs
  import opened Dates

  datatype Flight = Flight(
    date: int,                 // flt_date as a day number
    frm: string,
    to: string,
    frmLat: Option<real>,
    frmLon: Option<real>,
    toLat: Option<real>,
    toLon: Option<real>,
    totalTime: int,
    pic: int,
    sic: int,
    dual: int,
    night: int,
    xc: int,
    xcNight: int,
    inst: int,
    instSim: int,
    instActual: int,
    landings: int,
    dayLandings: int,
    nightLandings: int,
    dayTakeoffs: int,
    nightTakeoffs: int,
    approaches: int,
    holds: int)

  /** A catalogue airport of the demo-data generator (`AIRPORTS` / `HUBS`). */
  datatype Airport = Airport(icao: string, name: string, lat: real, lon: real)

  /** Which copy of the pipeline: the demo-data generator, the demo page, or the LogTen export. */
  datatype Variant = Generator | DemoPage | Export

  // Column accessors, named so that specifications can refer to the same function value.
  function DateOf(f: Flight): int { f.date }
  function TotalTimeOf(f: Flight): int { f.totalTime }
  function PicOf(f: Flight): int { f.pic }
  function SicOf(f: Flight): int { f.sic }
  function DualOf(f: Flight): int { f.dual }
  function NightOf(f: Flight): int { f.night }
  function XcOf(f: Flight): int { f.xc }
  function XcNightOf(f: Flight): int { f.xcNight }
  function InstOf(f: Flight): int { f.inst }
  function InstSimOf(f: Flight): int { f.instSim }
  function InstActualOf(f: Flight): int { f.instActual }
  function LandingsOf(f: Flight): int { f.landings }
  function DayLandingsOf(f: Flight): int { f.dayLandings }
  function NightLandingsOf(f: Flight): int { f.nightLandings }
  function DayTakeoffsOf(f: Flight): int { f.dayTakeoffs }
  function NightTakeoffsOf(f: Flight): int { f.nightTakeoffs }
  function ApproachesOf(f: Flight): int { f.approaches }
  function HoldsOf(f: Flight): int { f.holds }
  function Once(f: Flight): int { 1 }

  // ---------------------------------------------------------------- totals

  /** `totals` / `last90Totals`; `sic` exists only on the demo page. */
  datatype Totals = Totals(
    total: int, pic: int, sic: Option<int>, dual: int, night: int, xc: int, xcNight: int,
    instrument: int, instrumentSim: int, instrumentActual: int,
    landings: int, dayLandings: int, nightLandings: int, approaches: int, holds: int)

  function TotalsOf(v: Variant, fs: seq<Flight>): Totals
  {
    Totals(
      Sum(fs, TotalTimeOf), Sum(fs, PicOf),
      if v == DemoPage then Some(Sum(fs, SicOf)) else None,
      Sum(fs, DualOf), Sum(fs, NightOf), Sum(fs, XcOf), Sum(fs, XcNightOf),
      Sum(fs, InstOf), Sum(fs, InstSimOf), Sum(fs, InstActualOf),
      Sum(fs, LandingsOf), Sum(fs, DayLandingsOf), Sum(fs, NightLandingsOf),
      Sum(fs, ApproachesOf), Sum(fs, HoldsOf))
  }

  function AddTotals(a: Totals, b: Totals): Totals
  {
    Totals(
      a.total + b.total, a.pic + b.pic,
      if a.sic.Some? && b.sic.Some? then Some(a.sic.value + b.sic.value) else None,
      a.dual + b.dual, a.night + b.night, a.xc + b.xc, a.xcNight + b.xcNight,
      a.instrument + b.instrument, a.instrumentSim + b.instrumentSim,
      a.instrumentActual + b.instrumentActual,
      a.landings + b.landings, a.dayLandings + b.dayLandings, a.nightLandings + b.nightLandings,
      a.approaches + b.approaches, a.holds + b.holds)
  }

  /** Totals are additive over a split of the log, field by field. */
  lemma TotalsAppend(v: Variant, a: seq<Flight>, b: seq<Flight>)
    ensures TotalsOf(v, a + b) == AddTotals(TotalsOf(v, a), TotalsOf(v, b))
  {
    SumAppend(a, b, TotalTimeOf); SumAppend(a, b, PicOf); SumAppend(a, b, SicOf);
    SumAppend(a, b, DualOf); SumAppend(a, b, NightOf); SumAppend(a, b, XcOf);
    SumAppend(a, b, XcNightOf); SumAppend(a, b, InstOf); SumAppend(a, b, InstSimOf);
    SumAppend(a, b, InstActualOf); SumAppend(a, b, LandingsOf); SumAppend(a, b, DayLandingsOf);
    SumAppend(a, b, NightLandingsOf); SumAppend(a, b, ApproachesOf); SumAppend(a, b, HoldsOf);
  }

  /** One flight contributes its own columns; `landings` is that column, not day + night. */
  lemma TotalsSingle(v: Variant, f: Flight)
    ensures TotalsOf(v, [f]).landings == f.landings
    ensures TotalsOf(v, [f]).dayLandings + TotalsOf(v, [f]).nightLandings == f.dayLandings + f.nightLandings
    ensures TotalsOf(v, [f]).total == f.totalTime
    ensures TotalsOf(v, [f]).sic == (if v == DemoPage then Some(f.sic) else None)
  {
    SumSingle(f, TotalTimeOf); SumSingle(f, SicOf); SumSingle(f, LandingsOf);
    SumSingle(f, DayLandingsOf); SumSingle(f, NightLandingsOf);
  }

  /** A row whose `landings` column disagrees with its day and night columns. */
  lemma LandingsColumnIsSummed(v: Variant)
    ensures var f := Flight(0, "KSLC", "KDEN", None, None, None, None,
                            10, 0, 0, 0, 0, 0, 0, 0, 0, 0, 1, 1, 1, 0, 0, 0, 0);
            TotalsOf(v, [f]).landings == 1
            && TotalsOf(v, [f]).dayLandings + TotalsOf(v, [f]).nightLandings == 2
  {
    var f := Flight(0, "KSLC", "KDEN", None, None, None, None,
                    10, 0, 0, 0, 0, 0, 0, 0, 0, 0, 1, 1, 1, 0, 0, 0, 0);
    TotalsSingle(v, f);
  }

  // ---------------------------------------------------------------- windows

  /**
   * The clock as the pipeline sees it: `today` is the current UTC day; `cutoff90`
   * is the first day that the generator's and export's local-time
   * `setDate(getDate() - 90)` comparison admits.
   */
  datatype Clock = Clock(today: int, cutoff90: int)

  /** The demo page builds UTC midnight of today - 90; the others take the clock's value. */
  function Cutoff90(v: Variant, c: Clock): int
  {
    if v == DemoPage then c.today - 90 else c.cutoff90
  }

  function StartOfThisMonth(today: int): int { MonthStart(MonthOf(today)) }
  function StartOfSixMonthsAgo(today: int): int { MonthStart(MonthOf(today) - 6) }

  /** The 90-day test: dated on or after the cutoff. */
  function Since(cutoff: int): Flight -> bool
  {
    (f: Flight) => f.date >= cutoff
  }

  /** The instrument window test: from the first of month m - 6 up to the first of month m. */
  function SixCalendarMonths(today: int): Flight -> bool
  {
    (f: Flight) => StartOfSixMonthsAgo(today) <= f.date < StartOfThisMonth(today)
  }

  /** `last90Flights`: the flights dated on or after the cutoff, with no upper bound. */
  function Last90(fs: seq<Flight>, cutoff: int): (r: seq<Flight>)
    ensures forall f :: f in r <==> f in fs && f.date >= cutoff
  {
    Filter(fs, Since(cutoff))
  }

  /** `last6CalMoFlights`: the flights whose month is one of the six before this month. */
  function Last6CalMo(fs: seq<Flight>, today: int): (r: seq<Flight>)
    ensures forall f :: f in r <==> f in fs && MonthOf(today) - 6 <= MonthOf(f.date) < MonthOf(today)
  {
    SixCalendarMonthsByMonth(today);
    Filter(fs, SixCalendarMonths(today))
  }

  /** The instrument window holds exactly the days of the six months before this one. */
  lemma SixCalendarMonthsByMonth(today: int)
    ensures forall f :: SixCalendarMonths(today)(f) <==> MonthOf(today) - 6 <= MonthOf(f.date) < MonthOf(today)
  {
    forall f: Flight ensures SixCalendarMonths(today)(f) <==> MonthOf(today) - 6 <= MonthOf(f.date) < MonthOf(today) {
      MonthSpan(f.date, MonthOf(today) - 6, MonthOf(today));
    }
  }

  /** On the demo page the window admits today - 90 itself, and nothing earlier. */
  lemma DemoCutoffBoundary(c: Clock, f: Flight, fs: seq<Flight>)
    requires f in fs
    ensures f.date == c.today - 90 ==> f in Last90(fs, Cutoff90(DemoPage, c))
    ensures f.date == c.today - 91 ==> f !in Last90(fs, Cutoff90(DemoPage, c))
  {
  }

  /** The instrument window never contains a flight of the current month or a later one. */
  lemma SixMonthWindowExcludesThisMonth(fs: seq<Flight>, today: int, f: Flight)
    requires f in fs && f.date >= StartOfThisMonth(today)
    ensures f !in Last6CalMo(fs, today)
  {
    MonthStartAtMost(f.date, MonthOf(today));
  }

  /** The instrument window starts on the first day of a month, six months before this one. */
  lemma SixMonthWindowStart(today: int)
    ensures MonthOf(StartOfSixMonthsAgo(today)) == MonthOf(today) - 6
    ensures MonthOf(StartOfThisMonth(today)) == MonthOf(today)
    ensures StartOfThisMonth(today) <= today
  {
    MonthOfMonthStart(MonthOf(today) - 6);
    MonthOfMonthStart(MonthOf(today));
  }

  // ---------------------------------------------------------------- currency

  datatype Windows = Windows(dayNight90dStart: int, dayNight90dEnd: int,
                             ifr6CalMoStart: int, ifr6CalMoEndExclusive: int)
  datatype Carry = Carry(takeoffs: int, landings: int, meetsPassengerCarry: bool)
  datatype Ifr = Ifr(approaches: int, holds: int, instrument: int, instrumentSim: int,
                     instrumentActual: int, meetsTrackedItems: bool)
  datatype Currency = Currency(windows: Windows, day: Carry, night: Carry, ifr: Ifr)

  function Min(a: int, b: int): int { if a <= b then a else b }

  function CarryOf(takeoffs: int, landings: int): (c: Carry)
    ensures c.meetsPassengerCarry <==> takeoffs >= 3 && landings >= 3
  {
    Carry(takeoffs, landings, Min(takeoffs, landings) >= 3)
  }

  /**
   * The `currency` object. Day and night verdicts need three takeoffs and three
   * landings dated on or after the cutoff; the instrument verdict needs six
   * approaches and one hold inside the six-month window.
   */
  function CurrencyOf(v: Variant, fs: seq<Flight>, c: Clock): (r: Currency)
    ensures r.day.meetsPassengerCarry <==>
      SumIf(fs, Since(Cutoff90(v, c)), DayTakeoffsOf) >= 3 && SumIf(fs, Since(Cutoff90(v, c)), DayLandingsOf) >= 3
    ensures r.night.meetsPassengerCarry <==>
      SumIf(fs, Since(Cutoff90(v, c)), NightTakeoffsOf) >= 3 && SumIf(fs, Since(Cutoff90(v, c)), NightLandingsOf) >= 3
    ensures r.ifr.meetsTrackedItems <==>
      SumIf(fs, SixCalendarMonths(c.today), ApproachesOf) >= 6 && SumIf(fs, SixCalendarMonths(c.today), HoldsOf) >= 1
    ensures r.windows == Windows(Cutoff90(v, c), c.today, StartOfSixMonthsAgo(c.today), StartOfThisMonth(c.today))
  {
    var cut := Cutoff90(v, c);
    var w90 := Last90(fs, cut);
    var w6 := Last6CalMo(fs, c.today);
    SumFilterIf(fs, Since(cut), DayTakeoffsOf);
    SumFilterIf(fs, Since(cut), DayLandingsOf);
    SumFilterIf(fs, Since(cut), NightTakeoffsOf);
    SumFilterIf(fs, Since(cut), NightLandingsOf);
    SumFilterIf(fs, SixCalendarMonths(c.today), ApproachesOf);
    SumFilterIf(fs, SixCalendarMonths(c.today), HoldsOf);
    var approaches := Sum(w6, ApproachesOf);
    var holds := Sum(w6, HoldsOf);
    Currency(
      Windows(cut, c.today, StartOfSixMonthsAgo(c.today), StartOfThisMonth(c.today)),
      CarryOf(Sum(w90, DayTakeoffsOf), Sum(w90, DayLandingsOf)),
      CarryOf(Sum(w90, NightTakeoffsOf), Sum(w90, NightLandingsOf)),
      Ifr(approaches, holds, Sum(w6, InstOf), Sum(w6, InstSimOf), Sum(w6, InstActualOf),
          approaches >= 6 && holds >= 1))
  }

  // ---------------------------------------------------------------- demo page filter

  function DemoSpan(today: int): Flight -> bool
  {
    (f: Flight) => MonthStart(MonthOf(today) - 5) <= f.date <= today
  }

  /**
   * `DemoProfilePage` keeps the current month up to today and the five months
   * before it: from the first day of month m - 5 through today, both inclusive.
   */
  function DemoWindow(fs: seq<Flight>, today: int): (r: seq<Flight>)
    ensures forall f :: f in r <==> f in fs && MonthOf(today) - 5 <= MonthOf(f.date) && f.date <= today
    ensures |r| <= |fs|
  {
    DemoSpanByMonth(today);
    Filter(fs, DemoSpan(today))
  }

  lemma DemoSpanByMonth(today: int)
    ensures forall f :: DemoSpan(today)(f) <==> MonthOf(today) - 5 <= MonthOf(f.date) && f.date <= today
  {
    forall f: Flight ensures DemoSpan(today)(f) <==> MonthOf(today) - 5 <= MonthOf(f.date) && f.date <= today {
      MonthStartAtMost(f.date, MonthOf(today) - 5);
    }
  }

  // ---------------------------------------------------------------- export routes

  /** One entry of the export's `routes.json`. */
  datatype ExportRoute = ExportRoute(date: int, from: string, to: string,
                                     fromLat: real, fromLon: real, toLat: real, toLon: real)

  /** JavaScript truthiness of a nullable coordinate: present and not 0. */
  predicate Truthy(x: Option<real>) { x.Some? && x.value != 0.0 }

  predicate HasCoordinates(f: Flight)
  {
    Truthy(f.frmLat) && Truthy(f.frmLon) && Truthy(f.toLat) && Truthy(f.toLon)
  }

  function RouteOf(f: Flight): ExportRoute
    requires HasCoordinates(f)
  {
    ExportRoute(f.date, f.frm, f.to, f.frmLat.value, f.frmLon.value, f.toLat.value, f.toLon.value)
  }

  /** The export's `routes`: one entry per flight with four truthy coordinates, in input order. */
  function ExportRoutes(fs: seq<Flight>): (r: seq<ExportRoute>)
    ensures |r| <= |fs|
    ensures forall e :: e in r ==> exists f :: f in fs && HasCoordinates(f) && e == RouteOf(f)
  {
    if fs == [] then []
    else
      var f := fs[|fs| - 1];
      var init := ExportRoutes(fs[..|fs| - 1]);
      assert forall g :: g in fs[..|fs| - 1] ==> g in fs;
      if HasCoordinates(f)
      then init + [RouteOf(f)]
      else init
  }

  /** The route list is the concatenation of the parts' lists: order is kept. */
  lemma {:induction false} ExportRoutesAppend(a: seq<Flight>, b: seq<Flight>)
    ensures ExportRoutes(a + b) == ExportRoutes(a) + ExportRoutes(b)
  {
    if b != [] {
      assert (a + b)[..|a + b| - 1] == a + b[..|b| - 1];
      assert (a + b)[|a + b| - 1] == b[|b| - 1];
      ExportRoutesAppend(a, b[..|b| - 1]);
    } else {
      assert a + b == a;
    }
  }

  /** A flight yields a route iff all four coordinates are truthy; a coordinate of 0 drops it. */
  lemma ExportRouteSingle(f: Flight)
    ensures |ExportRoutes([f])| == (if HasCoordinates(f) then 1 else 0)
    ensures f.frmLat == Some(0.0) ==> ExportRoutes([f]) == []
  {
    assert [f][..0] == [];
  }

  /** There are as many routes as flights with coordinates. */
  lemma {:induction false} ExportRoutesCount(fs: seq<Flight>)
    ensures |ExportRoutes(fs)| == |Filter(fs, HasCoordinates)|
  {
    if fs != [] {
      ExportRoutesCount(fs[..|fs| - 1]);
    }
  }
}
