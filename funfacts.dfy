/**
 * `selectFunFacts`: which of a profile's fun-fact candidates are shown. Facts
 * whose id is in the fixed priority list come first, in that list's order; the
 * remaining slots are filled by score, highest first.
 */
module FunFacts {
  import opened Wrappers
  import opened Seqs
  import opened Groups

  /** The figure a fact shows; its text formatting (`toFixed`, rounding, units) is not modelled. */
  datatype FactValue =
    | Hours(hours: real)
    | Miles(nm: real)
    | FlightCount(flights: int)
    | LegCount(legs: int)
    | AirportCount(airports: int)
    | DayCount(days: int)
    | Latitude(degrees: real)

  /** The line under the figure, as data: the source formats each of these into text. */
  datatype FactDetail =
    | Leg(from: string, to: string)
    | OnDate(date: int)
    | MostCommon(code: string, times: int)
    | Code(code: string)
    | Span(first: Option<int>, last: Option<int>)
    | Across(flights: int)

  /** The source's `label` field is `title` here (`label` is a Dafny keyword). */
  datatype FunFact = FunFact(id: string, title: string, value: FactValue, detail: Option<FactDetail>, score: Option<real>)

  const Priority: seq<string> := [
    "furthest_leg",
    "most_frequent_route",
    "biggest_day_hours",
    "unique_airports",
    "longest_flight_time",
    "avg_flight_duration",
    "longest_streak",
    "busiest_day_flights",
    "most_northern",
    "most_southern"
  ]

  function IdOf(f: FunFact): string { f.id }

  /** `f.score || 0` */
  function ScoreOf(f: FunFact): real { f.score.GetOr(0.0) }

  /** The comparator `(b.score || 0) - (a.score || 0)` orders by this key ascending. */
  function ScoreKey(f: FunFact): real { -ScoreOf(f) }

  function IdPair(f: FunFact): (string, FunFact) { (f.id, f) }

  /** `new Map(facts.map((f) => [f.id, f]))`: a later fact with the same id replaces an earlier one. */
  function ById(facts: seq<FunFact>): (m: map<string, FunFact>)
    ensures forall k :: k in m <==> k in Project(facts, IdOf)
    ensures forall k :: k in m ==> m[k].id == k && m[k] in facts
  {
    var pairs := Project(facts, IdPair);
    assert Project(pairs, Fst) == Project(facts, IdOf);
    forall k | k in LastWins(pairs) ensures LastWins(pairs)[k].id == k && LastWins(pairs)[k] in facts {
      ProjectMember(facts, IdPair, (k, LastWins(pairs)[k]));
    }
    LastWins(pairs)
  }

  /** The map holds, for each id, the last fact in the input with that id. */
  lemma ByIdLast(facts: seq<FunFact>, i: nat)
    requires i < |facts| && forall j :: i < j < |facts| ==> facts[j].id != facts[i].id
    ensures facts[i].id in ById(facts) && ById(facts)[facts[i].id] == facts[i]
  {
    LastWinsLast(Project(facts, IdPair), i);
  }

  /** The facts the map holds for the listed ids, in list order. */
  function Present(byId: map<string, FunFact>, ids: seq<string>): seq<FunFact>
  {
    if ids == [] then []
    else (if ids[0] in byId then [byId[ids[0]]] else []) + Present(byId, ids[1..])
  }

  function InMap(byId: map<string, FunFact>): string -> bool
  {
    k => k in byId
  }

  /** The first loop: walk the ids, push the fact of each present one, stop once `max` are chosen. */
  function Walk(byId: map<string, FunFact>, ids: seq<string>, max: int, chosen: seq<FunFact>): seq<FunFact>
  {
    if ids == [] then chosen
    else
      var next := if ids[0] in byId then chosen + [byId[ids[0]]] else chosen;
      if |next| >= max then next else Walk(byId, ids[1..], max, next)
  }

  /** The facts chosen by the priority walk. */
  function Chosen(facts: seq<FunFact>, max: int): seq<FunFact>
  {
    Walk(ById(facts), Priority, max, [])
  }

  /** `!chosen.find((c) => c.id === f.id)` */
  function Unchosen(chosen: seq<FunFact>): FunFact -> bool
  {
    (f: FunFact) => f.id !in Project(chosen, IdOf)
  }

  function Taken(chosen: seq<FunFact>): FunFact -> bool
  {
    (f: FunFact) => f.id in Project(chosen, IdOf)
  }

  /** The facts whose id was not chosen, by score descending; `sort` is stable. */
  function Remaining(facts: seq<FunFact>, chosen: seq<FunFact>): seq<FunFact>
  {
    SortBy(Filter(facts, Unchosen(chosen)), ScoreKey)
  }

  /** `xs.slice(0, end)`: a negative end counts from the back. */
  function Slice(xs: seq<FunFact>, end: int): (r: seq<FunFact>)
    ensures end >= 0 ==> r == Take(xs, end)
    ensures end < 0 ==> r == xs[..if |xs| + end < 0 then 0 else |xs| + end]
  {
    if end >= 0 then Take(xs, end) else xs[..if |xs| + end < 0 then 0 else |xs| + end]
  }

  /** What `selectFunFacts(facts, max)` returns. */
  function Selected(facts: seq<FunFact>, max: int): seq<FunFact>
  {
    if facts == [] then []
    else
      var c := Chosen(facts, max);
      Slice(if |c| < max then c + Take(Remaining(facts, c), max - |c|) else c, max)
  }

  method SelectFunFacts(facts: seq<FunFact>, max: int) returns (r: seq<FunFact>)
    ensures r == Selected(facts, max)
  {
    if |facts| == 0 {
      return [];
    }
    var byId := ById(facts);
    var chosen: seq<FunFact> := [];
    var k := 0;
    while k < |Priority|
      invariant 0 <= k <= |Priority|
      invariant Walk(byId, Priority[k..], max, chosen) == Chosen(facts, max)
    {
      assert Priority[k..][1..] == Priority[k + 1..];
      var id := Priority[k];
      if id in byId {
        chosen := chosen + [byId[id]];
      }
      if |chosen| >= max {
        break;
      }
      k := k + 1;
    }
    assert chosen == Chosen(facts, max);
    if |chosen| < max {
      chosen := TopUp(chosen, Remaining(facts, chosen), max);
    }
    r := Slice(chosen, max);
  }

  /** The second loop: append remaining facts until max are chosen. */
  method TopUp(chosen: seq<FunFact>, remaining: seq<FunFact>, max: int) returns (r: seq<FunFact>)
    requires |chosen| < max
    ensures r == chosen + Take(remaining, max - |chosen|)
  {
    r := chosen;
    var j := 0;
    while j < |remaining|
      invariant 0 <= j <= |remaining|
      invariant r == chosen + remaining[..j] && |r| <= max
    {
      if |r| >= max {
        break;
      }
      r := r + [remaining[j]];
      j := j + 1;
    }
    assert remaining[..|remaining|] == remaining;
  }

  // ---------------------------------------------------------------- properties

  /** While fewer than max are chosen, the walk chooses the first max of the present facts. */
  lemma {:induction false} WalkTake(byId: map<string, FunFact>, ids: seq<string>, max: int, chosen: seq<FunFact>)
    requires |chosen| < max
    ensures Walk(byId, ids, max, chosen) == Take(chosen + Present(byId, ids), max)
  {
    if ids == [] {
      assert chosen + [] == chosen;
    } else {
      var next := if ids[0] in byId then chosen + [byId[ids[0]]] else chosen;
      assert chosen + Present(byId, ids) == next + Present(byId, ids[1..]);
      if |next| < max {
        assert Walk(byId, ids, max, chosen) == Walk(byId, ids[1..], max, next);
        WalkTake(byId, ids[1..], max, next);
      } else {
        assert (next + Present(byId, ids[1..]))[..max] == next;
      }
    }
  }

  /** The priority facts a call with this max shows. */
  function PriorityFacts(facts: seq<FunFact>, max: nat): seq<FunFact>
  {
    Take(Present(ById(facts), Priority), max)
  }

  /**
   * For max >= 1 the result is the first max priority facts, then as many of the
   * remaining facts, by score, as there is room for: priority facts come first
   * even when a later fact scores higher.
   */
  lemma SelectedShape(facts: seq<FunFact>, max: int)
    requires max >= 1
    ensures Selected(facts, max) == PriorityFacts(facts, max)
      + Take(Remaining(facts, PriorityFacts(facts, max)), max - |PriorityFacts(facts, max)|)
  {
    var p := PriorityFacts(facts, max);
    if facts == [] {
      assert Present(map[], Priority) == [] by {
        PresentEmpty(Priority);
      }
    } else {
      ChosenIsPriority(facts, max);
      SliceFill(p, Remaining(facts, p), max);
    }
  }

  /** While there is room, the priority walk takes the present priority facts. */
  lemma ChosenIsPriority(facts: seq<FunFact>, max: int)
    requires max >= 1
    ensures Chosen(facts, max) == PriorityFacts(facts, max)
  {
    WalkTake(ById(facts), Priority, max, []);
    assert [] + Present(ById(facts), Priority) == Present(ById(facts), Priority);
  }

  /** Topping up to max and cutting at max keeps what was chosen and the top-up. */
  lemma SliceFill(c: seq<FunFact>, rest: seq<FunFact>, max: int)
    requires max >= 1 && |c| <= max
    ensures Slice(if |c| < max then c + Take(rest, max - |c|) else c, max) == c + Take(rest, max - |c|)
  {
    if |c| == max {
      assert Take(rest, 0) == [];
      assert c + [] == c;
    }
  }

  lemma {:induction false} PresentEmpty(ids: seq<string>)
    ensures Present(map[], ids) == []
  {
    if ids != [] {
      PresentEmpty(ids[1..]);
    }
  }

  /** The present facts carry the present ids, in list order. */
  lemma {:induction false} PresentIds(byId: map<string, FunFact>, ids: seq<string>)
    requires forall k :: k in byId ==> byId[k].id == k
    ensures Project(Present(byId, ids), IdOf) == Filter(ids, InMap(byId))
  {
    if ids != [] {
      PresentIds(byId, ids[1..]);
      var head := if ids[0] in byId then [byId[ids[0]]] else [];
      var tail := Present(byId, ids[1..]);
      assert Present(byId, ids) == head + tail;
      ProjectAppend(head, tail, IdOf);
      assert Project(head, IdOf) == if InMap(byId)(ids[0]) then [ids[0]] else [];
      FilterFront(ids, InMap(byId));
    }
  }

  /** Each present fact is the one the map holds for its id. */
  lemma {:induction false} PresentFromMap(byId: map<string, FunFact>, ids: seq<string>)
    requires forall k :: k in byId ==> byId[k].id == k
    ensures forall x :: x in Present(byId, ids) ==> x.id in byId && byId[x.id] == x
  {
    if ids != [] {
      PresentFromMap(byId, ids[1..]);
      var head := if ids[0] in byId then [byId[ids[0]]] else [];
      assert Present(byId, ids) == head + Present(byId, ids[1..]);
    }
  }

  lemma PriorityDistinct()
    ensures Distinct(Priority)
  {
  }

  /**
   * The priority facts are in priority order, at most one per id, and each is the
   * fact the map holds for its id: the last input fact with that id (ByIdLast).
   */
  lemma PriorityOrder(facts: seq<FunFact>, max: nat)
    ensures Project(PriorityFacts(facts, max), IdOf) == Take(Filter(Priority, InMap(ById(facts))), max)
    ensures Distinct(Project(PriorityFacts(facts, max), IdOf))
    ensures forall x :: x in PriorityFacts(facts, max) ==> x in facts && ById(facts)[x.id] == x
  {
    var all := Present(ById(facts), Priority);
    PresentIds(ById(facts), Priority);
    PresentFromMap(ById(facts), Priority);
    PriorityDistinct();
    FilterDistinct(Priority, InMap(ById(facts)));
    TakeProject(all, max, IdOf);
  }

  /** The remaining facts: exactly the unchosen ones, by score descending, ties in input order. */
  lemma RemainingOrder(facts: seq<FunFact>, chosen: seq<FunFact>)
    ensures forall x :: x in Remaining(facts, chosen) <==> x in facts && x.id !in Project(chosen, IdOf)
    ensures multiset(Remaining(facts, chosen)) == multiset(Filter(facts, Unchosen(chosen)))
    ensures forall i, j :: 0 <= i < j < |Remaining(facts, chosen)| ==>
      ScoreOf(Remaining(facts, chosen)[i]) >= ScoreOf(Remaining(facts, chosen)[j])
    ensures forall s: real :: Filter(Remaining(facts, chosen), ScoreIs(s)) == Filter(Filter(facts, Unchosen(chosen)), ScoreIs(s))
  {
    var u := Filter(facts, Unchosen(chosen));
    SortBySorted(u, ScoreKey);
    SortByMembers(u, ScoreKey);
    forall s: real ensures Filter(Remaining(facts, chosen), ScoreIs(s)) == Filter(u, ScoreIs(s)) {
      SortByStable(u, ScoreKey, -s, ScoreIs(s));
    }
  }

  function ScoreIs(s: real): FunFact -> bool
  {
    f => ScoreOf(f) == s
  }

  /** The result never has more than max facts (none for max <= 0), all from the input. */
  lemma SelectedBounds(facts: seq<FunFact>, max: int)
    ensures facts == [] ==> Selected(facts, max) == []
    ensures max <= 0 ==> Selected(facts, max) == []
    ensures |Selected(facts, max)| <= (if max < 0 then 0 else max)
    ensures forall x :: x in Selected(facts, max) ==> x in facts
  {
    if facts != [] {
      if max <= 0 {
        WalkNonPositive(ById(facts), Priority, max);
      } else {
        SelectedShape(facts, max);
        var p := PriorityFacts(facts, max);
        PriorityOrder(facts, max);
        RemainingOrder(facts, p);
        TakeProject(Remaining(facts, p), max - |p|, IdOf);
      }
    }
  }

  /** With no room at all the walk stops after its first step. */
  lemma WalkNonPositive(byId: map<string, FunFact>, ids: seq<string>, max: int)
    requires max <= 0
    ensures |Walk(byId, ids, max, [])| <= 1
  {
  }

  /** Facts with the same id are the same fact when the input's ids are distinct. */
  lemma SameId(facts: seq<FunFact>, x: FunFact, y: FunFact)
    requires Distinct(Project(facts, IdOf)) && x in facts && y in facts && x.id == y.id
    ensures x == y
  {
    var i :| 0 <= i < |facts| && facts[i] == x;
    var j :| 0 <= j < |facts| && facts[j] == y;
    assert Project(facts, IdOf)[i] == Project(facts, IdOf)[j];
  }

  /** With distinct ids, the input facts whose id was chosen are the chosen facts. */
  lemma TakenIsChosen(facts: seq<FunFact>, p: seq<FunFact>)
    requires Distinct(Project(facts, IdOf)) && Distinct(Project(p, IdOf))
    requires forall x :: x in p ==> x in facts
    ensures multiset(Filter(facts, Taken(p))) == multiset(p)
  {
    var taken := Filter(facts, Taken(p));
    ProjectDistinct(facts, IdOf);
    FilterDistinct(facts, Taken(p));
    ProjectDistinct(p, IdOf);
    forall x ensures x in taken <==> x in p {
      ProjectMember(p, IdOf, x.id);
      if x in taken {
        var y :| y in p && y.id == x.id;
        SameId(facts, x, y);
      }
    }
    DistinctSameMembers(taken, p);
  }

  /** With distinct ids and at most max facts, every fact is shown exactly once. */
  lemma SelectedPermutation(facts: seq<FunFact>, max: int)
    requires Distinct(Project(facts, IdOf)) && |facts| <= max
    ensures multiset(Selected(facts, max)) == multiset(facts)
  {
    if facts != [] {
      var p := PriorityFacts(facts, max);
      var u := Filter(facts, Unchosen(p));
      var rest := Remaining(facts, p);
      assert multiset(p) + multiset(u) == multiset(facts) by {
        PriorityOrder(facts, max);
        TakenIsChosen(facts, p);
        FilterPartition(facts, Unchosen(p), Taken(p));
      }
      assert multiset(rest) == multiset(u) by {
        RemainingOrder(facts, p);
      }
      assert |rest| == |u| by {
        assert |multiset(rest)| == |multiset(u)|;
      }
      assert Selected(facts, max) == p + rest by {
        SelectedShape(facts, max);
        assert |p| + |u| == |facts|;
      }
    }
  }
}
