/**
 * The pilot page's calendar heatmap (`Heatmap`): the days from the Sunday on or
 * before the earliest data day through the latest one, cut into weeks of seven,
 * each cell carrying that day's value (the last data point for the day wins,
 * no point gives 0), and an intensity level 0..3 relative to the largest value.
 * Days are day numbers; the ISO text of a day names it one to one.
 */
module HeatmapGrid {
  import opened Wrappers
  import opened Seqs
  import opened Groups
  import opened Dates

  /** `HeatmapPoint`: a day, its hours (possibly missing) and its flight count. */
  datatype HeatmapPoint = HeatmapPoint(day: int, totalTime: Option<real>, flightsCount: int)

  /** `DayCell`: a calendar day and the value shown for it. */
  datatype DayCell = DayCell(date: int, value: real)

  /** What the memo returns: the weeks of cells and the value that scales the levels. */
  datatype Grid = Grid(weeks: seq<seq<DayCell>>, maxValue: real)

  // ---------------------------------------------------------------- buildRange

  /** Every day from start to end inclusive, in order. */
  function Range(start: int, end: int): (r: seq<int>)
    ensures |r| == if start <= end then end - start + 1 else 0
    ensures forall i :: 0 <= i < |r| ==> r[i] == start + i
    decreases end - start
  {
    if start > end then [] else [start] + Range(start + 1, end)
  }

  /** A range one day longer ends in that day. */
  lemma RangeSnoc(start: int, end: int)
    requires start <= end + 1
    ensures Range(start, end + 1) == Range(start, end) + [end + 1]
  {
    var a, b := Range(start, end + 1), Range(start, end) + [end + 1];
    assert |a| == |b|;
    forall i | 0 <= i < |a| ensures a[i] == b[i] {
    }
  }

  /** `buildRange`: push the current day and step one day, while it is not past the end. */
  method BuildRange(start: int, end: int) returns (days: seq<int>)
    ensures days == Range(start, end)
  {
    days := [];
    var current := start;
    while current <= end
      invariant current == start || start <= current <= end + 1
      invariant days == Range(start, current - 1)
      decreases end - current
    {
      RangeSnoc(start, current - 1);
      days := days + [current];
      current := current + 1;
    }
  }

  // ---------------------------------------------------------------- reductions over the points

  function DayOf(p: HeatmapPoint): int { p.day }

  /** `d.totalTime ?? 0` */
  function ValueOf(p: HeatmapPoint): real { p.totalTime.GetOr(0.0) }

  /** The `<` reduction from the first point: the earliest day. */
  function Earliest(ps: seq<HeatmapPoint>): (d: int)
    requires ps != []
    ensures d in Project(ps, DayOf)
    ensures forall p :: p in ps ==> d <= p.day
  {
    if |ps| == 1 then ps[0].day
    else
      var n := |ps| - 1;
      assert ps == ps[..n] + [ps[n]];
      ProjectSnoc(ps[..n], ps[n], DayOf);
      var m := Earliest(ps[..n]);
      if ps[n].day < m then ps[n].day else m
  }

  /** The `>` reduction from the first point: the latest day. */
  function Latest(ps: seq<HeatmapPoint>): (d: int)
    requires ps != []
    ensures d in Project(ps, DayOf)
    ensures forall p :: p in ps ==> p.day <= d
  {
    if |ps| == 1 then ps[0].day
    else
      var n := |ps| - 1;
      assert ps == ps[..n] + [ps[n]];
      ProjectSnoc(ps[..n], ps[n], DayOf);
      var m := Latest(ps[..n]);
      if ps[n].day > m then ps[n].day else m
  }

  /** `maxValue`: the `>` reduction from 0, so at least 0 and otherwise the largest value. */
  function MaxValue(ps: seq<HeatmapPoint>): (m: real)
    ensures m >= 0.0
    ensures forall p :: p in ps ==> ValueOf(p) <= m
    ensures m == 0.0 || m in Project(ps, ValueOf)
  {
    if ps == [] then 0.0
    else
      var n := |ps| - 1;
      assert ps == ps[..n] + [ps[n]];
      ProjectSnoc(ps[..n], ps[n], ValueOf);
      var m := MaxValue(ps[..n]);
      if ValueOf(ps[n]) > m then ValueOf(ps[n]) else m
  }

  // ---------------------------------------------------------------- cells

  function Entry(p: HeatmapPoint): (int, real) { (p.day, ValueOf(p)) }

  /** `valueByIso`: the map built from the points in order, so the last point of a day wins. */
  function ValueByIso(ps: seq<HeatmapPoint>): map<int, real>
  {
    LastWins(Project(ps, Entry))
  }

  /** No later point has the same day. */
  predicate LastOfDay(ps: seq<HeatmapPoint>, i: nat)
    requires i < |ps|
  {
    forall j :: i < j < |ps| ==> ps[j].day != ps[i].day
  }

  /** The value of a day is that of its last point. */
  lemma ValueByIsoLast(ps: seq<HeatmapPoint>, i: nat)
    requires i < |ps| && LastOfDay(ps, i)
    ensures ps[i].day in ValueByIso(ps) && ValueByIso(ps)[ps[i].day] == ValueOf(ps[i])
  {
    var kvs := Project(ps, Entry);
    assert forall j :: i < j < |kvs| ==> kvs[j].0 != kvs[i].0;
    LastWinsLast(kvs, i);
  }

  /** A day without points has no value. */
  lemma ValueByIsoAbsent(ps: seq<HeatmapPoint>, d: int)
    requires forall p :: p in ps ==> p.day != d
    ensures d !in ValueByIso(ps)
  {
  }

  /** `valueByIso.get(iso) ?? 0` */
  function CellOf(byIso: map<int, real>): int -> DayCell
  {
    d => DayCell(d, if d in byIso then byIso[d] else 0.0)
  }

  /** The cells from the Sunday on or before the earliest day through the latest day. */
  function Cells(ps: seq<HeatmapPoint>): seq<DayCell>
    requires ps != []
  {
    Project(Range(StartOfWeek(Earliest(ps)), Latest(ps)), CellOf(ValueByIso(ps)))
  }

  // ---------------------------------------------------------------- weeks

  /** `cells.slice(i, i + 7)` for i = 0, 7, 14, ... */
  function Chunks<T>(xs: seq<T>): seq<seq<T>>
    decreases |xs|
  {
    if xs == [] then []
    else if |xs| <= 7 then [xs]
    else [xs[..7]] + Chunks(xs[7..])
  }

  /** The chunks, concatenated. */
  function Flatten<T>(xss: seq<seq<T>>): seq<T>
  {
    if xss == [] then [] else xss[0] + Flatten(xss[1..])
  }

  /** Cutting into weeks loses and reorders nothing; every week but the last is full. */
  lemma {:induction false} ChunksShape<T>(xs: seq<T>)
    ensures Flatten(Chunks(xs)) == xs
    ensures forall k :: 0 <= k < |Chunks(xs)| ==> 0 < |Chunks(xs)[k]| <= 7
    ensures forall k :: 0 <= k < |Chunks(xs)| - 1 ==> |Chunks(xs)[k]| == 7
    decreases |xs|
  {
    if |xs| > 7 {
      ChunksShape(xs[7..]);
      var r := Chunks(xs);
      assert r[1..] == Chunks(xs[7..]);
      assert xs == xs[..7] + xs[7..];
    } else if xs != [] {
      assert Chunks(xs)[1..] == [];
    }
  }

  /** Week k starts with cell 7 * k. */
  lemma {:induction false} ChunksAt<T>(xs: seq<T>, k: nat)
    requires k < |Chunks(xs)|
    ensures 7 * k < |xs| && 0 < |Chunks(xs)[k]| && Chunks(xs)[k][0] == xs[7 * k]
    decreases |xs|
  {
    if k > 0 {
      ChunksAt(xs[7..], k - 1);
    }
  }

  /** Continuing the weeks from position i adds the slice at i and then those after it. */
  lemma ChunksFrom<T>(xs: seq<T>, i: nat)
    requires i < |xs|
    ensures Chunks(xs[i..]) == [xs[i..if i + 7 <= |xs| then i + 7 else |xs|]] + Chunks(xs[if i + 7 <= |xs| then i + 7 else |xs|..])
  {
    var ys := xs[i..];
    assert ys != [];
    if |ys| <= 7 {
      assert Chunks(ys) == [ys];
      assert xs[i..|xs|] == ys;
      assert xs[|xs|..] == [];
    } else {
      assert ys[7..] == xs[i + 7..];
      assert ys[..7] == xs[i..i + 7];
    }
  }

  /** The `for (let i = 0; i < cells.length; i += 7)` loop that pushes `cells.slice(i, i + 7)`. */
  method ChunkWeeks(cells: seq<DayCell>) returns (weeks: seq<seq<DayCell>>)
    ensures weeks == Chunks(cells)
  {
    weeks := [];
    var i := 0;
    while i < |cells|
      invariant 0 <= i
      invariant weeks + Chunks(cells[if i <= |cells| then i else |cells|..]) == Chunks(cells)
      decreases |cells| - i
    {
      var end := if i + 7 <= |cells| then i + 7 else |cells|;
      ChunksFrom(cells, i);
      weeks := weeks + [cells[i..end]];
      i := i + 7;
      assert cells[if i <= |cells| then i else |cells|..] == cells[end..];
    }
    assert cells[|cells|..] == [];
  }

  // ---------------------------------------------------------------- the grid

  /** The memo's result: nothing for no data, otherwise the weeks and the largest value. */
  function GridOf(data: seq<HeatmapPoint>): (g: Grid)
    ensures data == [] ==> g.weeks == [] && g.maxValue == 0.0
  {
    if data == [] then Grid([], 0.0) else Grid(Chunks(Cells(data)), MaxValue(data))
  }

  method BuildGrid(data: seq<HeatmapPoint>) returns (g: Grid)
    ensures g == GridOf(data)
  {
    if |data| == 0 {
      return Grid([], 0.0);
    }
    var start := StartOfWeek(Earliest(data));
    var range := BuildRange(start, Latest(data));
    var cells := Project(range, CellOf(ValueByIso(data)));
    var weeks := ChunkWeeks(cells);
    g := Grid(weeks, MaxValue(data));
  }

  /** The cells run day by day from the Sunday on or before the earliest day to the latest day. */
  lemma CellsSpan(data: seq<HeatmapPoint>)
    requires data != []
    ensures var cells := Cells(data);
      |cells| > 0 && cells[0].date == StartOfWeek(Earliest(data)) && cells[|cells| - 1].date == Latest(data)
      && forall i :: 0 <= i < |cells| ==> cells[i].date == cells[0].date + i
  {
    assert data[0] in data;
  }

  /**
   * The grid covers every data day, from the Sunday on or before the earliest
   * one through the latest one; every week but the last has seven cells and
   * every week starts on a Sunday.
   */
  lemma GridShape(data: seq<HeatmapPoint>)
    requires data != []
    ensures var cells := Flatten(GridOf(data).weeks);
      |cells| > 0 && Weekday(cells[0].date) == 0
      && cells[0].date <= Earliest(data) < cells[0].date + 7
      && cells[|cells| - 1].date == Latest(data)
      && (forall p :: p in data ==> cells[0].date <= p.day <= cells[|cells| - 1].date)
      && forall i :: 0 < i < |cells| ==> cells[i].date == cells[i - 1].date + 1
    ensures var weeks := GridOf(data).weeks;
      (forall k :: 0 <= k < |weeks| - 1 ==> |weeks[k]| == 7)
      && forall k :: 0 <= k < |weeks| ==> |weeks[k]| > 0 && Weekday(weeks[k][0].date) == 0
  {
    var cells := Cells(data);
    assert GridOf(data).weeks == Chunks(cells);
    ChunksShape(cells);
    CellsSpan(data);
    WeeksStartSunday(cells);
  }

  /** Weeks cut from consecutive days that start on a Sunday all start on a Sunday. */
  lemma WeeksStartSunday(cells: seq<DayCell>)
    requires cells != [] && Weekday(cells[0].date) == 0
    requires forall i :: 0 <= i < |cells| ==> cells[i].date == cells[0].date + i
    ensures forall k :: 0 <= k < |Chunks(cells)| ==> |Chunks(cells)[k]| > 0 && Weekday(Chunks(cells)[k][0].date) == 0
  {
    forall k | 0 <= k < |Chunks(cells)| ensures |Chunks(cells)[k]| > 0 && Weekday(Chunks(cells)[k][0].date) == 0 {
      ChunksAt(cells, k);
      WeekdayAddWeeks(cells[0].date, k);
    }
  }

  /** A cell shows the value of the last point for its day, and 0 for a day without points. */
  lemma CellValue(data: seq<HeatmapPoint>, i: nat)
    requires data != [] && i < |Cells(data)|
    ensures forall j :: 0 <= j < |data| && data[j].day == Cells(data)[i].date && LastOfDay(data, j) ==>
      Cells(data)[i].value == ValueOf(data[j])
    ensures (forall p :: p in data ==> p.day != Cells(data)[i].date) ==> Cells(data)[i].value == 0.0
  {
    var d := Cells(data)[i].date;
    forall j | 0 <= j < |data| && data[j].day == d && LastOfDay(data, j)
      ensures Cells(data)[i].value == ValueOf(data[j])
    {
      ValueByIsoLast(data, j);
    }
    if forall p :: p in data ==> p.day != d {
      ValueByIsoAbsent(data, d);
    }
  }

  // ---------------------------------------------------------------- levels

  /** `levels`: 0 without a scale or a value, else 3, 2 or 1 by the ratio's thirds. */
  function Level(value: real, maxValue: real): (l: int)
    ensures 0 <= l <= 3
    ensures l == 0 <==> maxValue == 0.0 || value == 0.0
  {
    if maxValue == 0.0 || value == 0.0 then 0
    else
      var ratio := value / maxValue;
      if ratio > 0.66 then 3 else if ratio > 0.33 then 2 else 1
  }

  /** A larger value never shows a lighter cell, and the largest value is the darkest. */
  lemma LevelMonotone(v1: real, v2: real, maxValue: real)
    requires 0.0 <= v1 <= v2 && maxValue > 0.0
    ensures Level(v1, maxValue) <= Level(v2, maxValue)
    ensures Level(maxValue, maxValue) == 3
  {
    assert v1 / maxValue <= v2 / maxValue by {
      assert v2 / maxValue - v1 / maxValue == (v2 - v1) / maxValue;
    }
    assert maxValue / maxValue == 1.0;
  }
}
