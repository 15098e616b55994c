/**
 * `CurrencyCards`: the three currency cards of the pilot page. Landings are
 * counted over the flights dated on or after the 90-day window start, IFR hours
 * over those on or after the 180-day window start; neither window has an upper
 * bound, and a missing figure counts as zero.
 */
module CurrencyCards {
  import opened Wrappers
  import opened Seqs

  /** `FlightForCurrency`; the date is any totally ordered timestamp. */
  datatype CurrencyFlight = CurrencyFlight(date: int, dayLandings: Option<int>, nightLandings: Option<int>, ifr: Option<real>)

  /** A card: its title, whether it is current, and the figure its detail line shows. */
  datatype Card = Card(title: string, current: bool, figure: real)

  function OnOrAfter(start: int): CurrencyFlight -> bool
  {
    (f: CurrencyFlight) => f.date >= start
  }

  function DayLandingsOf(f: CurrencyFlight): int { f.dayLandings.GetOr(0) }
  function NightLandingsOf(f: CurrencyFlight): int { f.nightLandings.GetOr(0) }
  function IfrOf(f: CurrencyFlight): real { f.ifr.GetOr(0.0) }

  function DayLandingCount(fs: seq<CurrencyFlight>, window90Start: int): int
  {
    Sum(Filter(fs, OnOrAfter(window90Start)), DayLandingsOf)
  }

  function NightLandingCount(fs: seq<CurrencyFlight>, window90Start: int): int
  {
    Sum(Filter(fs, OnOrAfter(window90Start)), NightLandingsOf)
  }

  function Ifr6Month(fs: seq<CurrencyFlight>, window180Start: int): real
  {
    SumReal(Filter(fs, OnOrAfter(window180Start)), IfrOf)
  }

  /**
   * The cards in display order: day and night landings are current at three or
   * more, IFR at any positive number of hours.
   */
  function Cards(fs: seq<CurrencyFlight>, window90Start: int, window180Start: int): (cards: seq<Card>)
    ensures |cards| == 3
    ensures cards[0].title == "Day landings" && cards[1].title == "Night landings" && cards[2].title == "IFR"
    ensures cards[0].figure == DayLandingCount(fs, window90Start) as real
    ensures cards[1].figure == NightLandingCount(fs, window90Start) as real
    ensures cards[2].figure == Ifr6Month(fs, window180Start)
    ensures cards[0].current <==> cards[0].figure >= 3.0
    ensures cards[1].current <==> cards[1].figure >= 3.0
    ensures cards[2].current <==> cards[2].figure > 0.0
  {
    var day := DayLandingCount(fs, window90Start);
    var night := NightLandingCount(fs, window90Start);
    var ifr := Ifr6Month(fs, window180Start);
    [Card("Day landings", day >= 3, day as real),
     Card("Night landings", night >= 3, night as real),
     Card("IFR", ifr > 0.0, ifr)]
  }

  /**
   * One more flight: inside the window (however far in the future) its figures
   * are added, with a missing figure as zero; before the window it changes nothing.
   */
  lemma CountSnoc(fs: seq<CurrencyFlight>, f: CurrencyFlight, window90Start: int, window180Start: int)
    ensures DayLandingCount(fs + [f], window90Start)
         == DayLandingCount(fs, window90Start) + (if f.date >= window90Start then f.dayLandings.GetOr(0) else 0)
    ensures NightLandingCount(fs + [f], window90Start)
         == NightLandingCount(fs, window90Start) + (if f.date >= window90Start then f.nightLandings.GetOr(0) else 0)
    ensures Ifr6Month(fs + [f], window180Start)
         == Ifr6Month(fs, window180Start) + (if f.date >= window180Start then f.ifr.GetOr(0.0) else 0.0)
  {
    FilterSnoc(fs, f, OnOrAfter(window90Start));
    FilterSnoc(fs, f, OnOrAfter(window180Start));
    var d := Filter(fs, OnOrAfter(window90Start));
    var i := Filter(fs, OnOrAfter(window180Start));
    assert (d + [f])[..|d|] == d;
    assert (i + [f])[..|i|] == i;
  }

  /**
   * Flights before both windows never move a card, and a flight in the windows
   * with no negative figure never turns a current card stale.
   */
  lemma CardsSnoc(fs: seq<CurrencyFlight>, f: CurrencyFlight, window90Start: int, window180Start: int)
    ensures f.date < window90Start && f.date < window180Start ==>
      Cards(fs + [f], window90Start, window180Start) == Cards(fs, window90Start, window180Start)
    ensures f.dayLandings.GetOr(0) >= 0 && f.nightLandings.GetOr(0) >= 0 && f.ifr.GetOr(0.0) >= 0.0 ==>
      forall k :: 0 <= k < 3 && Cards(fs, window90Start, window180Start)[k].current ==>
        Cards(fs + [f], window90Start, window180Start)[k].current
  {
    CountSnoc(fs, f, window90Start, window180Start);
    var before := Cards(fs, window90Start, window180Start);
    var after := Cards(fs + [f], window90Start, window180Start);
    if f.date < window90Start && f.date < window180Start {
      assert after[0] == before[0] && after[1] == before[1] && after[2] == before[2];
    }
  }

  /** With every flight in the window the counts are the plain sums: nothing dated later is cut off. */
  lemma AllInWindow(fs: seq<CurrencyFlight>, window90Start: int)
    requires forall f :: f in fs ==> f.date >= window90Start
    ensures DayLandingCount(fs, window90Start) == Sum(fs, DayLandingsOf)
    ensures NightLandingCount(fs, window90Start) == Sum(fs, NightLandingsOf)
  {
    FilterAllKept(fs, OnOrAfter(window90Start));
  }
}
