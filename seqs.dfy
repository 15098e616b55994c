/**
 * Sequence helpers shared by every view: sums (`reduce`), `filter`, a stable `sort`,
 * the key order of a JavaScript `Map`/`Set` (first insertion wins the position) and
 * per-key group totals.
 */
module Seqs {

  import opened Wrappers

  // ---------------------------------------------------------------- sums

  /** `xs.reduce((a, x) => a + f(x), 0)` over integers. */
  function Sum<T>(xs: seq<T>, f: T -> int): int
  {
    if xs == [] then 0 else Sum(xs[..|xs| - 1], f) + f(xs[|xs| - 1])
  }

  /** The same fold over reals. */
  function SumReal<T>(xs: seq<T>, f: T -> real): real
  {
    if xs == [] then 0.0 else SumReal(xs[..|xs| - 1], f) + f(xs[|xs| - 1])
  }

  lemma {:induction false} SumAppend<T>(a: seq<T>, b: seq<T>, f: T -> int)
    ensures Sum(a + b, f) == Sum(a, f) + Sum(b, f)
  {
    if b == [] {
      assert a + b == a;
    } else {
      assert (a + b)[..|a + b| - 1] == a + b[..|b| - 1];
      SumAppend(a, b[..|b| - 1], f);
    }
  }

  lemma SumSingle<T>(x: T, f: T -> int)
    ensures Sum([x], f) == f(x)
  {
    assert [x][..0] == [];
  }

  lemma {:induction false} SumNonNegative<T>(xs: seq<T>, f: T -> int)
    requires forall x :: x in xs ==> f(x) >= 0
    ensures Sum(xs, f) >= 0
  {
    if xs != [] {
      assert forall x :: x in xs[..|xs| - 1] ==> x in xs;
      SumNonNegative(xs[..|xs| - 1], f);
      assert xs[|xs| - 1] in xs;
    }
  }

  /** `xs.map(f)`. */
  function Project<T, U>(xs: seq<T>, f: T -> U): (r: seq<U>)
    ensures |r| == |xs| && forall i :: 0 <= i < |xs| ==> r[i] == f(xs[i])
  {
    seq(|xs|, i requires 0 <= i < |xs| => f(xs[i]))
  }

  lemma ProjectSnoc<T, U>(xs: seq<T>, x: T, f: T -> U)
    ensures Project(xs + [x], f) == Project(xs, f) + [f(x)]
  {
  }

  lemma ProjectMember<T, U>(xs: seq<T>, f: T -> U, y: U)
    ensures y in Project(xs, f) <==> exists x :: x in xs && f(x) == y
  {
    if y in Project(xs, f) {
      var i :| 0 <= i < |xs| && Project(xs, f)[i] == y;
      assert xs[i] in xs;
    }
  }

  lemma ProjectAppend<T, U>(a: seq<T>, b: seq<T>, f: T -> U)
    ensures Project(a + b, f) == Project(a, f) + Project(b, f)
  {
  }

  /** Elements with distinct images are distinct. */
  lemma ProjectDistinct<T, U>(xs: seq<T>, f: T -> U)
    requires Distinct(Project(xs, f))
    ensures Distinct(xs)
  {
  }

  // ---------------------------------------------------------------- filter

  /** `xs.filter(p)`: keeps order and multiplicity. */
  function Filter<T(!new)>(xs: seq<T>, p: T -> bool): (r: seq<T>)
    ensures |r| <= |xs|
    ensures forall x :: x in r <==> x in xs && p(x)
  {
    if xs == [] then []
    else
      var init := Filter(xs[..|xs| - 1], p);
      assert forall x :: x in xs <==> x in xs[..|xs| - 1] || x == xs[|xs| - 1] by {
        assert xs == xs[..|xs| - 1] + [xs[|xs| - 1]];
      }
      if p(xs[|xs| - 1]) then init + [xs[|xs| - 1]] else init
  }

  lemma {:induction false} FilterAppend<T(!new)>(a: seq<T>, b: seq<T>, p: T -> bool)
    ensures Filter(a + b, p) == Filter(a, p) + Filter(b, p)
  {
    if b == [] {
      assert a + b == a;
    } else {
      assert (a + b)[..|a + b| - 1] == a + b[..|b| - 1];
      FilterAppend(a, b[..|b| - 1], p);
    }
  }

  /** Summing a filtered sequence is summing the original with the rejected terms as 0. */
  lemma {:induction false} SumFilter<T(!new)>(xs: seq<T>, p: T -> bool, f: T -> int, g: T -> int)
    requires forall x :: g(x) == if p(x) then f(x) else 0
    ensures Sum(Filter(xs, p), f) == Sum(xs, g)
  {
    if xs != [] {
      var init := xs[..|xs| - 1];
      var last := xs[|xs| - 1];
      SumFilter(init, p, f, g);
      if p(last) {
        SumAppend(Filter(init, p), [last], f);
        assert [last][..0] == [];
      }
    }
  }

  /** Σ g(x) over the x of xs that p admits, without building the filtered list. */
  function SumIf<T>(xs: seq<T>, p: T -> bool, g: T -> int): int
  {
    if xs == [] then 0 else SumIf(xs[..|xs| - 1], p, g) + (if p(xs[|xs| - 1]) then g(xs[|xs| - 1]) else 0)
  }

  lemma {:induction false} SumFilterIf<T(!new)>(xs: seq<T>, p: T -> bool, g: T -> int)
    ensures Sum(Filter(xs, p), g) == SumIf(xs, p, g)
  {
    if xs != [] {
      SumFilterIf(xs[..|xs| - 1], p, g);
      if p(xs[|xs| - 1]) {
        SumAppend(Filter(xs[..|xs| - 1], p), [xs[|xs| - 1]], g);
        assert [xs[|xs| - 1]][..0] == [];
      }
    }
  }

  /** Keeping the elements with p from a sequence: a filter is a subsequence in order. */
  lemma {:induction false} FilterAllKept<T(!new)>(xs: seq<T>, p: T -> bool)
    requires forall x :: x in xs ==> p(x)
    ensures Filter(xs, p) == xs
  {
    if xs != [] {
      assert forall x :: x in xs[..|xs| - 1] ==> x in xs;
      FilterAllKept(xs[..|xs| - 1], p);
      assert xs[|xs| - 1] in xs;
      assert xs[..|xs| - 1] + [xs[|xs| - 1]] == xs;
    }
  }

  // ---------------------------------------------------------------- iteration order of a Map / Set

  predicate Distinct<T(==)>(xs: seq<T>)
  {
    forall i, j :: 0 <= i < j < |xs| ==> xs[i] != xs[j]
  }

  /**
   * The keys of a JavaScript `Map` or `Set` after inserting xs in order: a key keeps the
   * position of its first insertion; later insertions of it change nothing.
   */
  function Dedup<T(==,!new)>(xs: seq<T>): (r: seq<T>)
    ensures Distinct(r)
    ensures forall x :: x in r <==> x in xs
    ensures |r| <= |xs|
  {
    if xs == [] then []
    else
      var init := Dedup(xs[..|xs| - 1]);
      var last := xs[|xs| - 1];
      assert forall x :: x in xs <==> x in xs[..|xs| - 1] || x == last by {
        assert xs == xs[..|xs| - 1] + [last];
      }
      if last in init then init else init + [last]
  }

  /** Index of the first occurrence of x. */
  function FirstIndex<T(==)>(xs: seq<T>, x: T): (i: nat)
    requires x in xs
    ensures i < |xs| && xs[i] == x
    ensures forall j :: 0 <= j < i ==> xs[j] != x
  {
    if xs[0] == x then 0 else 1 + FirstIndex(xs[1..], x)
  }

  lemma {:induction false} FirstIndexPrefix<T>(xs: seq<T>, n: nat, x: T)
    requires n <= |xs| && x in xs[..n]
    ensures x in xs && FirstIndex(xs[..n], x) == FirstIndex(xs, x)
  {
    var i := FirstIndex(xs[..n], x);
    assert xs[i] == x;
    var k := FirstIndex(xs, x);
    assert k <= i;
    assert xs[..n][k] == x;
  }

  /** Dedup lists keys in the order of their first occurrence. */
  lemma {:induction false} DedupOrder<T(!new)>(xs: seq<T>, a: nat, b: nat)
    requires a < b < |Dedup(xs)|
    ensures Dedup(xs)[a] in xs && Dedup(xs)[b] in xs
    ensures FirstIndex(xs, Dedup(xs)[a]) < FirstIndex(xs, Dedup(xs)[b])
  {
    var n := |xs| - 1;
    var init, last := xs[..n], xs[n];
    var d := Dedup(init);
    assert Dedup(xs) == if last in d then d else d + [last];
    if last in d || b < |d| {
      assert Dedup(xs)[a] == d[a] && Dedup(xs)[b] == d[b];
      DedupOrder(init, a, b);
      FirstIndexPrefix(xs, n, d[a]);
      FirstIndexPrefix(xs, n, d[b]);
    } else {
      assert Dedup(xs)[a] == d[a] && Dedup(xs)[b] == last;
      FirstIndexPrefix(xs, n, d[a]);
      FirstIndexAt(xs, n, last);
    }
  }

  // ---------------------------------------------------------------- one more element

  /** A prefix one longer is the prefix plus the next element. */
  lemma PrefixSnoc<T>(xs: seq<T>, i: nat)
    requires i < |xs|
    ensures xs[..i + 1] == xs[..i] + [xs[i]]
  {
  }

  lemma PrefixAll<T>(xs: seq<T>)
    ensures xs[..|xs|] == xs
  {
  }

  lemma FilterSnoc<T(!new)>(xs: seq<T>, x: T, p: T -> bool)
    ensures Filter(xs + [x], p) == if p(x) then Filter(xs, p) + [x] else Filter(xs, p)
  {
    assert (xs + [x])[..|xs|] == xs;
  }

  /** Filtering one element longer a prefix of xs. */
  lemma FilterPrefix<T(!new)>(xs: seq<T>, i: nat, p: T -> bool)
    requires i < |xs|
    ensures Filter(xs[..i + 1], p) == if p(xs[i]) then Filter(xs[..i], p) + [xs[i]] else Filter(xs[..i], p)
  {
    PrefixSnoc(xs, i);
    FilterSnoc(xs[..i], xs[i], p);
  }

  /** Filtering a slice one element longer. */
  lemma FilterSliceSnoc<T(!new)>(xs: seq<T>, k: nat, i: nat, p: T -> bool)
    requires k <= i < |xs|
    ensures Filter(xs[k..i + 1], p) == if p(xs[i]) then Filter(xs[k..i], p) + [xs[i]] else Filter(xs[k..i], p)
  {
    assert xs[k..i + 1] == xs[k..i] + [xs[i]];
    FilterSnoc(xs[k..i], xs[i], p);
  }

  /** The first occurrence found by a scan that had not met x before index i. */
  lemma FirstIndexAt<T>(xs: seq<T>, i: nat, x: T)
    requires i < |xs| && xs[i] == x && x !in xs[..i]
    ensures x in xs && FirstIndex(xs, x) == i
  {
    assert forall j :: 0 <= j < i ==> xs[..i][j] == xs[j];
  }

  lemma InPrefixSnoc<T>(xs: seq<T>, i: nat, x: T)
    requires i < |xs|
    ensures x in xs[..i + 1] <==> x in xs[..i] || xs[i] == x
  {
    PrefixSnoc(xs, i);
  }

  lemma DedupSnoc<T(!new)>(xs: seq<T>, x: T)
    ensures Dedup(xs + [x]) == if x in Dedup(xs) then Dedup(xs) else Dedup(xs) + [x]
  {
    assert (xs + [x])[..|xs|] == xs;
  }

  lemma FirstIndexSnoc<T>(xs: seq<T>, x: T, y: T)
    requires y in xs + [x]
    ensures FirstIndex(xs + [x], y) == if y in xs then FirstIndex(xs, y) else |xs|
  {
    if y in xs {
      assert (xs + [x])[..|xs|] == xs;
      FirstIndexPrefix(xs + [x], |xs|, y);
    } else {
      assert forall j :: 0 <= j < |xs| ==> (xs + [x])[j] == xs[j];
    }
  }

  // ---------------------------------------------------------------- group totals

  /** Σ val(x) over the x in xs whose key is k (one `Map` bucket's accumulator). */
  function SumWhere<T, K(==)>(xs: seq<T>, key: T -> K, k: K, val: T -> int): int
  {
    if xs == [] then 0
    else SumWhere(xs[..|xs| - 1], key, k, val) + (if key(xs[|xs| - 1]) == k then val(xs[|xs| - 1]) else 0)
  }

  /** Σ over the keys ks of the group totals. */
  function SumGroups<T, K(==)>(xs: seq<T>, key: T -> K, val: T -> int, ks: seq<K>): int
  {
    if ks == [] then 0
    else SumGroups(xs, key, val, ks[..|ks| - 1]) + SumWhere(xs, key, ks[|ks| - 1], val)
  }

  lemma SumWhereSnoc<T, K>(xs: seq<T>, x: T, key: T -> K, k: K, val: T -> int)
    ensures SumWhere(xs + [x], key, k, val) == SumWhere(xs, key, k, val) + (if key(x) == k then val(x) else 0)
  {
    assert (xs + [x])[..|xs|] == xs;
  }

  lemma {:induction false} SumGroupsEmpty<T, K>(key: T -> K, val: T -> int, ks: seq<K>)
    ensures SumGroups([], key, val, ks) == 0
  {
    if ks != [] { SumGroupsEmpty(key, val, ks[..|ks| - 1]); }
  }

  lemma {:induction false} SumGroupsSnoc<T, K>(xs: seq<T>, x: T, key: T -> K, val: T -> int, ks: seq<K>)
    ensures SumGroups(xs + [x], key, val, ks)
         == SumGroups(xs, key, val, ks) + (if key(x) in ks then val(x) * Occurrences(ks, key(x)) else 0)
  {
    assert (xs + [x])[..|xs + [x]| - 1] == xs;
    if ks != [] {
      var init := ks[..|ks| - 1];
      SumGroupsSnoc(xs, x, key, val, init);
      assert ks == init + [ks[|ks| - 1]];
      assert key(x) in ks <==> key(x) in init || key(x) == ks[|ks| - 1];
      if key(x) !in init { OccurrencesAbsent(init, key(x)); }
    }
  }

  /** Number of positions of ks holding k. */
  function Occurrences<K(==)>(ks: seq<K>, k: K): nat
  {
    if ks == [] then 0 else Occurrences(ks[..|ks| - 1], k) + (if ks[|ks| - 1] == k then 1 else 0)
  }

  lemma {:induction false} OccurrencesAbsent<K>(ks: seq<K>, k: K)
    requires k !in ks
    ensures Occurrences(ks, k) == 0
  {
    if ks != [] {
      assert forall y :: y in ks[..|ks| - 1] ==> y in ks;
      OccurrencesAbsent(ks[..|ks| - 1], k);
    }
  }

  lemma {:induction false} OccurrencesDistinct<K>(ks: seq<K>, k: K)
    requires Distinct(ks) && k in ks
    ensures Occurrences(ks, k) == 1
  {
    var init := ks[..|ks| - 1];
    assert ks == init + [ks[|ks| - 1]];
    if ks[|ks| - 1] == k {
      assert k !in init;
      OccurrencesAbsent(init, k);
    } else {
      assert k in init;
      OccurrencesDistinct(init, k);
    }
  }

  /**
   * Grouping loses nothing: over distinct keys covering every element's key, the group
   * totals add up to the total.
   */
  lemma {:induction false} PartitionSum<T, K>(xs: seq<T>, key: T -> K, val: T -> int, ks: seq<K>)
    requires Distinct(ks)
    requires forall x :: x in xs ==> key(x) in ks
    ensures SumGroups(xs, key, val, ks) == Sum(xs, val)
  {
    if xs == [] {
      SumGroupsEmpty(key, val, ks);
    } else {
      var init := xs[..|xs| - 1];
      var last := xs[|xs| - 1];
      assert xs == init + [last];
      assert forall x :: x in init ==> x in xs;
      PartitionSum(init, key, val, ks);
      SumGroupsSnoc(init, last, key, val, ks);
      assert last in xs;
      OccurrencesDistinct(ks, key(last));
    }
  }

  /** A key absent from xs has a zero group total. */
  lemma {:induction false} SumWhereAbsent<T, K>(xs: seq<T>, key: T -> K, k: K, val: T -> int)
    requires forall x :: x in xs ==> key(x) != k
    ensures SumWhere(xs, key, k, val) == 0
  {
    if xs != [] {
      assert forall x :: x in xs[..|xs| - 1] ==> x in xs;
      SumWhereAbsent(xs[..|xs| - 1], key, k, val);
      assert xs[|xs| - 1] in xs;
    }
  }

  /** A group total of values at least 1 is at least 1 when the key occurs. */
  lemma {:induction false} SumWherePresent<T, K>(xs: seq<T>, key: T -> K, k: K, val: T -> int)
    requires forall x :: val(x) >= 1
    requires exists x :: x in xs && key(x) == k
    ensures SumWhere(xs, key, k, val) >= 1
  {
    var init := xs[..|xs| - 1];
    var last := xs[|xs| - 1];
    assert xs == init + [last];
    if key(last) != k {
      var x :| x in xs && key(x) == k;
      assert x in init;
      SumWherePresent(init, key, k, val);
    } else {
      SumWhereNonNegative(init, key, k, val);
    }
  }

  lemma {:induction false} SumWhereNonNegative<T, K>(xs: seq<T>, key: T -> K, k: K, val: T -> int)
    requires forall x :: val(x) >= 0
    ensures SumWhere(xs, key, k, val) >= 0
  {
    if xs != [] { SumWhereNonNegative(xs[..|xs| - 1], key, k, val); }
  }

  // ---------------------------------------------------------------- stable sort

  predicate SortedBy<T>(s: seq<T>, key: T -> real)
  {
    forall i, j :: 0 <= i < j < |s| ==> key(s[i]) <= key(s[j])
  }

  /** Inserts x before the first element whose key is not below x's. */
  function InsertBy<T>(x: T, s: seq<T>, key: T -> real): seq<T>
  {
    if s == [] || key(x) <= key(s[0]) then [x] + s else [s[0]] + InsertBy(x, s[1..], key)
  }

  /**
   * `Array.prototype.sort` with a comparator that orders by key: ascending and stable
   * (elements with equal keys keep their input order).
   */
  function SortBy<T>(xs: seq<T>, key: T -> real): seq<T>
  {
    if xs == [] then [] else InsertBy(xs[0], SortBy(xs[1..], key), key)
  }

  /** Where InsertBy puts x: after a prefix of strictly smaller keys. */
  lemma {:induction false} InsertBySplit<T>(x: T, s: seq<T>, key: T -> real)
    returns (p: nat)
    ensures p <= |s| && InsertBy(x, s, key) == s[..p] + [x] + s[p..]
    ensures forall i :: 0 <= i < p ==> key(s[i]) < key(x)
    ensures p < |s| ==> key(x) <= key(s[p])
  {
    if s == [] || key(x) <= key(s[0]) {
      p := 0;
    } else {
      var q := InsertBySplit(x, s[1..], key);
      p := q + 1;
      assert s[..p] == [s[0]] + s[1..][..q];
      assert s[p..] == s[1..][q..];
    }
  }

  /** InsertBy's result index by index, and as a multiset. */
  lemma InsertByIndex<T>(x: T, s: seq<T>, key: T -> real) returns (p: nat)
    ensures p <= |s| && |InsertBy(x, s, key)| == |s| + 1
    ensures forall i :: 0 <= i < p ==> InsertBy(x, s, key)[i] == s[i] && key(s[i]) < key(x)
    ensures InsertBy(x, s, key)[p] == x
    ensures forall i :: p < i <= |s| ==> InsertBy(x, s, key)[i] == s[i - 1]
    ensures p < |s| ==> key(x) <= key(s[p])
    ensures multiset(InsertBy(x, s, key)) == multiset(s) + multiset{x}
  {
    p := InsertBySplit(x, s, key);
    assert s == s[..p] + s[p..];
  }

  lemma InsertBySorted<T>(x: T, s: seq<T>, key: T -> real)
    requires SortedBy(s, key)
    ensures SortedBy(InsertBy(x, s, key), key)
    ensures multiset(InsertBy(x, s, key)) == multiset(s) + multiset{x}
  {
    var p := InsertByIndex(x, s, key);
    var r := InsertBy(x, s, key);
    forall i, j | 0 <= i < j < |r| ensures key(r[i]) <= key(r[j]) {
      if j < p {
        assert r[i] == s[i] && r[j] == s[j];
      } else if i > p {
        assert r[i] == s[i - 1] && r[j] == s[j - 1];
      } else if i == p {
        assert r[j] == s[j - 1];
        assert key(s[p]) <= key(s[j - 1]);
      } else if j == p {
        assert r[i] == s[i];
      } else {
        assert r[i] == s[i] && r[j] == s[j - 1];
      }
    }
  }

  /** SortBy sorts and permutes. */
  lemma {:induction false} SortBySorted<T>(xs: seq<T>, key: T -> real)
    ensures SortedBy(SortBy(xs, key), key)
    ensures multiset(SortBy(xs, key)) == multiset(xs)
    ensures |SortBy(xs, key)| == |xs|
  {
    if xs != [] {
      SortBySorted(xs[1..], key);
      InsertBySorted(xs[0], SortBy(xs[1..], key), key);
      assert xs == [xs[0]] + xs[1..];
      assert |multiset(SortBy(xs, key))| == |multiset(xs)|;
    }
  }

  lemma {:induction false} FilterCons<T(!new)>(x: T, s: seq<T>, p: T -> bool)
    ensures Filter([x] + s, p) == (if p(x) then [x] else []) + Filter(s, p)
  {
    FilterAppend([x], s, p);
    assert [x][..0] == [];
  }

  lemma FilterFront<T(!new)>(s: seq<T>, p: T -> bool)
    requires s != []
    ensures Filter(s, p) == (if p(s[0]) then [s[0]] else []) + Filter(s[1..], p)
  {
    assert s == [s[0]] + s[1..];
    FilterCons(s[0], s[1..], p);
  }

  lemma {:induction false} FilterNone<T(!new)>(s: seq<T>, p: T -> bool)
    requires forall y :: y in s ==> !p(y)
    ensures Filter(s, p) == []
  {
    if s != [] {
      assert forall y :: y in s[..|s| - 1] ==> y in s;
      FilterNone(s[..|s| - 1], p);
      assert s[|s| - 1] in s;
    }
  }

  /** Inserting x adds x to its own key's elements at their front and leaves other keys alone. */
  lemma {:induction false} FilterInsertBy<T(!new)>(x: T, s: seq<T>, key: T -> real, k: real, p: T -> bool)
    requires forall y :: p(y) == (key(y) == k)
    ensures Filter(InsertBy(x, s, key), p) == (if p(x) then [x] else []) + Filter(s, p)
  {
    var q := InsertBySplit(x, s, key);
    var front, back := s[..q], s[q..];
    if p(x) {
      FrontRejected(front, x, key, k, p);
    }
    FilterInsertAt(front, x, back, p);
    assert s == front + back;
  }

  lemma FrontRejected<T(!new)>(front: seq<T>, x: T, key: T -> real, k: real, p: T -> bool)
    requires forall y :: p(y) == (key(y) == k)
    requires p(x) && forall i :: 0 <= i < |front| ==> key(front[i]) < key(x)
    ensures Filter(front, p) == []
  {
    assert forall y :: y in front ==> !p(y);
    FilterNone(front, p);
  }

  lemma FilterInsertAt<T(!new)>(front: seq<T>, x: T, back: seq<T>, p: T -> bool)
    requires p(x) ==> Filter(front, p) == []
    ensures Filter(front + [x] + back, p) == (if p(x) then [x] else []) + Filter(front + back, p)
  {
    FilterSplice(front, x, back, p);
    var ff, fb := Filter(front, p), Filter(back, p);
    if p(x) {
      assert [] + [x] + fb == [x] + ([] + fb);
    } else {
      assert ff + [] + fb == ff + fb;
    }
  }

  /** Filtering a sequence with one element spliced in. */
  lemma FilterSplice<T(!new)>(front: seq<T>, x: T, back: seq<T>, p: T -> bool)
    ensures Filter(front + [x] + back, p) == Filter(front, p) + (if p(x) then [x] else []) + Filter(back, p)
    ensures Filter(front + back, p) == Filter(front, p) + Filter(back, p)
  {
    FilterAppend(front, back, p);
    FilterAppend(front + [x], back, p);
    FilterSnoc(front, x, p);
  }

  /** SortBy is stable: the elements of one key come out in their input order. */
  lemma {:induction false} SortByStable<T(!new)>(xs: seq<T>, key: T -> real, k: real, p: T -> bool)
    requires forall x :: p(x) == (key(x) == k)
    ensures Filter(SortBy(xs, key), p) == Filter(xs, p)
  {
    if xs != [] {
      SortByStable(xs[1..], key, k, p);
      FilterInsertBy(xs[0], SortBy(xs[1..], key), key, k, p);
      FilterCons(xs[0], xs[1..], p);
      assert xs == [xs[0]] + xs[1..];
    }
  }

  lemma SortByMembers<T>(xs: seq<T>, key: T -> real)
    ensures forall x :: x in SortBy(xs, key) <==> x in xs
  {
    SortBySorted(xs, key);
    forall x ensures x in SortBy(xs, key) <==> x in xs {
      assert x in SortBy(xs, key) <==> x in multiset(SortBy(xs, key));
      assert x in xs <==> x in multiset(xs);
    }
  }

  predicate StrictlySortedBy<T>(s: seq<T>, key: T -> real)
  {
    forall i, j :: 0 <= i < j < |s| ==> key(s[i]) < key(s[j])
  }

  lemma InsertByStrict<T>(x: T, s: seq<T>, key: T -> real)
    requires StrictlySortedBy(s, key)
    requires forall y :: y in s ==> key(y) != key(x)
    ensures StrictlySortedBy(InsertBy(x, s, key), key)
  {
    var p := InsertByIndex(x, s, key);
    var r := InsertBy(x, s, key);
    assert p < |s| ==> key(x) < key(s[p]) by {
      if p < |s| { assert s[p] in s; }
    }
    forall i, j | 0 <= i < j < |r| ensures key(r[i]) < key(r[j]) {
      if j < p {
        assert r[i] == s[i] && r[j] == s[j];
      } else if i > p {
        assert r[i] == s[i - 1] && r[j] == s[j - 1];
      } else if i == p {
        assert r[j] == s[j - 1];
      } else if j == p {
        assert r[i] == s[i];
      } else {
        assert r[i] == s[i] && r[j] == s[j - 1];
      }
    }
  }

  /** Sorting elements whose keys are pairwise different gives strictly increasing keys. */
  lemma {:induction false} SortByStrict<T>(xs: seq<T>, key: T -> real)
    requires forall i, j :: 0 <= i < j < |xs| ==> key(xs[i]) != key(xs[j])
    ensures StrictlySortedBy(SortBy(xs, key), key)
  {
    if xs != [] {
      var rest := xs[1..];
      assert forall i, j :: 0 <= i < j < |rest| ==> key(rest[i]) != key(rest[j]) by {
        forall i, j | 0 <= i < j < |rest| ensures key(rest[i]) != key(rest[j]) {
          assert rest[i] == xs[i + 1] && rest[j] == xs[j + 1];
        }
      }
      SortByStrict(rest, key);
      forall y | y in SortBy(rest, key) ensures key(y) != key(xs[0]) {
        SortBySorted(rest, key);
        assert y in multiset(SortBy(rest, key));
        assert y in multiset(rest);
        var k :| 0 <= k < |rest| && rest[k] == y;
        assert xs[k + 1] == y;
      }
      InsertByStrict(xs[0], SortBy(rest, key), key);
    }
  }

  /** Summing 1 per element counts the elements. */
  lemma {:induction false} SumCount<T>(xs: seq<T>, one: T -> int)
    requires forall x :: one(x) == 1
    ensures Sum(xs, one) == |xs|
  {
    if xs != [] { SumCount(xs[..|xs| - 1], one); }
  }

  /** Sorting distinct values by themselves gives a strictly increasing sequence. */
  lemma StrictlySortedInts(s: seq<int>, key: int -> real)
    requires SortedBy(s, key) && Distinct(s)
    requires forall x: int :: key(x) == x as real
    ensures forall i, j :: 0 <= i < j < |s| ==> s[i] < s[j]
  {
    forall i, j | 0 <= i < j < |s| ensures s[i] < s[j] {
      assert key(s[i]) <= key(s[j]);
    }
  }

  lemma {:induction false} DistinctCount<T>(a: seq<T>, x: T)
    requires Distinct(a)
    ensures multiset(a)[x] <= 1
  {
    if a != [] {
      assert a == [a[0]] + a[1..];
      assert Distinct(a[1..]) by {
        forall i, j | 0 <= i < j < |a[1..]| ensures a[1..][i] != a[1..][j] {
          assert a[1..][i] == a[i + 1] && a[1..][j] == a[j + 1];
        }
      }
      DistinctCount(a[1..], x);
      assert a[0] !in a[1..] by {
        forall m | 0 <= m < |a[1..]| ensures a[1..][m] != a[0] { assert a[1..][m] == a[m + 1]; }
      }
      assert a[0] !in multiset(a[1..]);
    }
  }

  lemma PairCount<T>(b: seq<T>, i: nat, j: nat)
    requires i < j < |b|
    ensures b[i] == b[j] ==> multiset(b)[b[i]] >= 2
  {
    assert b == b[..i] + [b[i]] + b[i + 1..j] + [b[j]] + b[j + 1..];
  }

  /** A permutation of a duplicate-free sequence is duplicate-free, with the same elements. */
  lemma {:induction false} DistinctPermutation<T>(a: seq<T>, b: seq<T>)
    requires multiset(a) == multiset(b) && Distinct(a)
    ensures Distinct(b) && forall x :: x in a <==> x in b
  {
    forall x ensures x in a <==> x in b {
      assert x in a <==> x in multiset(a);
      assert x in b <==> x in multiset(b);
    }
    forall i, j | 0 <= i < j < |b| ensures b[i] != b[j] {
      PairCount(b, i, j);
      DistinctCount(a, b[i]);
    }
  }

  /** A filter and its complement split a sequence's elements between them. */
  lemma {:induction false} FilterPartition<T(!new)>(xs: seq<T>, p: T -> bool, q: T -> bool)
    requires forall x :: q(x) == !p(x)
    ensures multiset(Filter(xs, p)) + multiset(Filter(xs, q)) == multiset(xs)
  {
    if xs != [] {
      var n := |xs| - 1;
      FilterPartition(xs[..n], p, q);
      assert xs == xs[..n] + [xs[n]];
    }
  }

  /** A sequence whose counts are all at most one is duplicate-free. */
  lemma CountsDistinct<T>(b: seq<T>)
    requires forall x :: multiset(b)[x] <= 1
    ensures Distinct(b)
  {
    forall i, j | 0 <= i < j < |b| ensures b[i] != b[j] {
      PairCount(b, i, j);
    }
  }

  /** Part of a duplicate-free sequence, rearranged, is duplicate-free. */
  lemma SubmultisetDistinct<T>(a: seq<T>, b: seq<T>)
    requires multiset(a) <= multiset(b) && Distinct(b)
    ensures Distinct(a)
  {
    forall x ensures multiset(a)[x] <= 1 {
      DistinctCount(b, x);
    }
    CountsDistinct(a);
  }

  lemma FilterDistinct<T(!new)>(xs: seq<T>, p: T -> bool)
    requires Distinct(xs)
    ensures Distinct(Filter(xs, p))
  {
    FilterPartition(xs, p, x => !p(x));
    forall x ensures multiset(Filter(xs, p))[x] <= 1 {
      DistinctCount(xs, x);
    }
    CountsDistinct(Filter(xs, p));
  }

  /** Two duplicate-free sequences with the same elements are permutations of each other. */
  lemma DistinctSameMembers<T>(a: seq<T>, b: seq<T>)
    requires Distinct(a) && Distinct(b) && forall x :: x in a <==> x in b
    ensures multiset(a) == multiset(b)
  {
    forall x ensures multiset(a)[x] == multiset(b)[x] {
      DistinctCount(a, x);
      DistinctCount(b, x);
      assert x in a <==> x in multiset(a);
      assert x in b <==> x in multiset(b);
    }
  }

  /** Sorting does not change a sum. */
  lemma {:induction false} SumInsertBy<T>(x: T, s: seq<T>, key: T -> real, f: T -> int)
    ensures Sum(InsertBy(x, s, key), f) == f(x) + Sum(s, f)
  {
    var p := InsertBySplit(x, s, key);
    assert s == s[..p] + s[p..];
    SumAppend(s[..p], s[p..], f);
    SumAppend(s[..p] + [x], s[p..], f);
    SumAppend(s[..p], [x], f);
    assert [x][..0] == [];
  }

  lemma {:induction false} SumSortBy<T>(xs: seq<T>, key: T -> real, f: T -> int)
    ensures Sum(SortBy(xs, key), f) == Sum(xs, f)
  {
    if xs != [] {
      SumSortBy(xs[1..], key, f);
      SumInsertBy(xs[0], SortBy(xs[1..], key), key, f);
      assert xs == [xs[0]] + xs[1..];
      SumAppend([xs[0]], xs[1..], f);
      assert [xs[0]][..0] == [];
    }
  }

  // ---------------------------------------------------------------- first maximum

  /**
   * `xs.reduce((best, x) => !best || v(x) > v(best) ? x : best, null)`: the index of the
   * first element with the largest value; a later equal value does not replace it.
   */
  function BestIndex<T>(xs: seq<T>, v: T -> real): (r: Option<nat>)
    ensures r.None? <==> xs == []
    ensures r.Some? ==> r.value < |xs|
    ensures r.Some? ==> forall j :: 0 <= j < |xs| ==> v(xs[j]) <= v(xs[r.value])
    ensures r.Some? ==> forall j :: 0 <= j < r.value ==> v(xs[j]) < v(xs[r.value])
  {
    if xs == [] then None
    else
      var best := BestIndex(xs[..|xs| - 1], v);
      if best.None? || v(xs[|xs| - 1]) > v(xs[best.value]) then Some(|xs| - 1) else best
  }

  /**
   * The same reduce over the elements that pass ok only (`if (!ok(x)) return best;`
   * first): the index of the first eligible element with the largest value.
   */
  function BestIndexWhere<T>(xs: seq<T>, ok: T -> bool, v: T -> real): (r: Option<nat>)
    ensures r.None? <==> forall j :: 0 <= j < |xs| ==> !ok(xs[j])
    ensures r.Some? ==> r.value < |xs| && ok(xs[r.value])
    ensures r.Some? ==> forall j :: 0 <= j < |xs| && ok(xs[j]) ==> v(xs[j]) <= v(xs[r.value])
    ensures r.Some? ==> forall j :: 0 <= j < r.value && ok(xs[j]) ==> v(xs[j]) < v(xs[r.value])
  {
    if xs == [] then None
    else
      var best := BestIndexWhere(xs[..|xs| - 1], ok, v);
      var x := xs[|xs| - 1];
      if !ok(x) then best
      else if best.None? || v(x) > v(xs[best.value]) then Some(|xs| - 1) else best
  }

  /** i holds the largest value, and every earlier element a smaller one: the first maximum. */
  ghost predicate IsFirstMax<T>(xs: seq<T>, v: T -> real, i: int)
  {
    0 <= i < |xs|
    && (forall j :: 0 <= j < |xs| ==> v(xs[j]) <= v(xs[i]))
    && (forall j :: 0 <= j < i ==> v(xs[j]) < v(xs[i]))
  }

  /** The first maximum among the elements that pass ok. */
  ghost predicate IsFirstMaxWhere<T>(xs: seq<T>, ok: T -> bool, v: T -> real, i: int)
  {
    0 <= i < |xs| && ok(xs[i])
    && (forall j :: 0 <= j < |xs| && ok(xs[j]) ==> v(xs[j]) <= v(xs[i]))
    && (forall j :: 0 <= j < i && ok(xs[j]) ==> v(xs[j]) < v(xs[i]))
  }

  /** The values of the present options, in order. */
  function Somes<T(!new)>(os: seq<Option<T>>): (r: seq<T>)
    ensures forall x :: x in r <==> Some(x) in os
  {
    if os == [] then []
    else
      var n := |os| - 1;
      assert os == os[..n] + [os[n]];
      Somes(os[..n]) + (if os[n].Some? then [os[n].value] else [])
  }

  lemma SomesSnoc<T(!new)>(os: seq<Option<T>>, o: Option<T>)
    ensures Somes(os + [o]) == Somes(os) + (if o.Some? then [o.value] else [])
  {
    assert (os + [o])[..|os|] == os;
  }

  /** The first min(n, |xs|) elements (`xs.slice(0, n)` for n >= 0). */
  function Take<T>(xs: seq<T>, n: nat): (r: seq<T>)
    ensures |r| == if n < |xs| then n else |xs|
    ensures r == xs[..|r|]
  {
    if n < |xs| then xs[..n] else xs
  }

  /** Taking a prefix commutes with projecting; the prefix keeps distinctness and membership. */
  lemma TakeProject<T, U>(xs: seq<T>, n: nat, f: T -> U)
    ensures Project(Take(xs, n), f) == Take(Project(xs, f), n)
    ensures Distinct(Project(xs, f)) ==> Distinct(Project(Take(xs, n), f))
    ensures forall x :: x in Take(xs, n) ==> x in xs
  {
    var t := Take(xs, n);
    forall x | x in t ensures x in xs {
      var i :| 0 <= i < |t| && t[i] == x;
      assert xs[i] == x;
    }
  }
}
