/** Small facts about real products and `Floor` that the solver finds only with a nudge. */
module Reals {
  /** Scaling by a non-negative factor keeps the order. */
  lemma ScaleBetween(p1: real, p2: real, m: real)
    requires 0.0 <= p1 <= p2 && 0.0 <= m
    ensures 0.0 <= p1 * m <= p2 * m
  {
    assert (p2 - p1) * m >= 0.0;
  }

  /** A fraction below one of a positive amount stays below it. */
  lemma ScaleBelow(r: real, m: real)
    requires 0.0 <= r < 1.0 && 0.0 < m
    ensures 0.0 <= r * m < m
  {
    assert m - r * m == (1.0 - r) * m;
    assert (1.0 - r) * m > 0.0;
  }

  lemma IntBelow(a: int, b: int)
    requires a as real < b as real + 1.0
    ensures a <= b
  {
    assert (b + 1) as real == b as real + 1.0;
  }

  /** The floor of a number in [0, n) is an index below n. */
  lemma FloorIndex(x: real, n: int)
    requires 0.0 <= x < n as real
    ensures 0 <= x.Floor < n
  {
    assert x.Floor as real <= x;
    IntBelow(x.Floor, n - 1);
  }

  lemma FloorMonotone(x: real, y: real)
    requires x <= y
    ensures x.Floor <= y.Floor
  {
    assert x.Floor as real <= x && y < y.Floor as real + 1.0;
    IntBelow(x.Floor, y.Floor);
  }
}
