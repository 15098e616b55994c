/**
 * The pattern behind every `Map` the aggregate loops fill: a JavaScript `Map`
 * remembers its keys in insertion order, so after the elements xs it holds the
 * keys of xs once each, in order of first appearance; `keys` is that order.
 */
module Groups {
  import opened Seqs

  /** `keys` is the insertion order of m after the elements xs. */
  ghost predicate KeyOrder<T(!new), K(!new), V>(xs: seq<T>, key: T -> K, keys: seq<K>, m: map<K, V>)
  {
    keys == Dedup(Project(xs, key)) && forall k :: k in m <==> k in keys
  }

  /** Setting the key of one more element appends it to the order iff it is new. */
  lemma KeyOrderStep<T(!new), K(!new), V>(xs: seq<T>, x: T, key: T -> K, keys: seq<K>, m: map<K, V>, v: V)
    requires KeyOrder(xs, key, keys, m)
    ensures KeyOrder(xs + [x], key, if key(x) in m then keys else keys + [key(x)], m[key(x) := v])
  {
    ProjectSnoc(xs, x, key);
    DedupSnoc(Project(xs, key), key(x));
  }

  /** A key not yet in the map belongs to none of the elements seen. */
  lemma KeyOrderAbsent<T(!new), K(!new), V>(xs: seq<T>, key: T -> K, keys: seq<K>, m: map<K, V>, k: K)
    requires KeyOrder(xs, key, keys, m) && k !in m
    ensures forall x :: x in xs ==> key(x) != k
  {
    forall x | x in xs ensures key(x) != k {
      ProjectMember(xs, key, key(x));
    }
  }

  /** Every listed key is in the map, and is the key of some element seen. */
  lemma KeyOrderListed<T(!new), K(!new), V>(xs: seq<T>, key: T -> K, keys: seq<K>, m: map<K, V>)
    requires KeyOrder(xs, key, keys, m)
    ensures forall k :: k in keys ==> k in m && k in Project(xs, key)
    ensures forall j :: 0 <= j < |keys| ==> keys[j] in m
  {
    forall j | 0 <= j < |keys| ensures keys[j] in m {
      assert keys[j] in keys;
    }
  }

  /** A key is in the map iff some element seen has it. */
  lemma KeyOrderIn<T(!new), K(!new), V>(xs: seq<T>, key: T -> K, keys: seq<K>, m: map<K, V>, k: K)
    requires KeyOrder(xs, key, keys, m)
    ensures k in m <==> k in Project(xs, key)
  {
  }

  /** Each element's key is listed. */
  lemma KeysCover<T(!new), K(!new)>(xs: seq<T>, key: T -> K)
    ensures forall x :: x in xs ==> key(x) in Dedup(Project(xs, key))
  {
    forall x | x in xs ensures key(x) in Dedup(Project(xs, key)) {
      ProjectMember(xs, key, key(x));
    }
  }

  /** m holds, for each key, the sum of val over the elements seen with that key. */
  ghost predicate SumsByKey<T, K(!new)>(xs: seq<T>, key: T -> K, val: T -> int, m: map<K, int>)
  {
    forall k :: k in m ==> m[k] == SumWhere(xs, key, k, val)
  }

  /** `m.set(k, (m.get(k) || 0) + val(x))` keeps the sums up to date. */
  lemma SumsByKeyStep<T(!new), K(!new)>(xs: seq<T>, x: T, key: T -> K, val: T -> int, keys: seq<K>, m: map<K, int>, total: int)
    requires KeyOrder(xs, key, keys, m) && SumsByKey(xs, key, val, m)
    requires total == (if key(x) in m then m[key(x)] else 0) + val(x)
    ensures SumsByKey(xs + [x], key, val, m[key(x) := total])
  {
    if key(x) !in m {
      KeyOrderAbsent(xs, key, keys, m, key(x));
      SumWhereAbsent(xs, key, key(x), val);
    }
    forall k | k in m[key(x) := 0]
      ensures SumWhere(xs + [x], key, k, val) == SumWhere(xs, key, k, val) + (if key(x) == k then val(x) else 0)
    {
      SumWhereSnoc(xs, x, key, k, val);
    }
  }

  /** `[...m.values()]` for a map whose insertion order is `keys`. */
  function Values<K, V>(keys: seq<K>, m: map<K, V>): (r: seq<V>)
    requires forall j :: 0 <= j < |keys| ==> keys[j] in m
    ensures |r| == |keys| && forall j :: 0 <= j < |keys| ==> r[j] == m[keys[j]]
  {
    if keys == [] then [] else Values(keys[..|keys| - 1], m) + [m[keys[|keys| - 1]]]
  }

  function Fst<K, V>(kv: (K, V)): K { kv.0 }

  /**
   * `new Map(pairs)`, or a loop of `m.set(k, v)`: each key maps to the value of
   * its last pair, and the keys are the keys of the pairs.
   */
  function LastWins<K(!new), V(!new)>(kvs: seq<(K, V)>): (m: map<K, V>)
    ensures forall k :: k in m <==> k in Project(kvs, Fst)
    ensures forall k :: k in m ==> (k, m[k]) in kvs
  {
    if kvs == [] then map[]
    else
      var n := |kvs| - 1;
      assert kvs == kvs[..n] + [kvs[n]];
      ProjectSnoc(kvs[..n], kvs[n], Fst);
      LastWins(kvs[..n])[kvs[n].0 := kvs[n].1]
  }

  /** A key maps to the value of the last pair that has it. */
  lemma {:induction false} LastWinsLast<K(!new), V(!new)>(kvs: seq<(K, V)>, i: nat)
    requires i < |kvs| && forall j :: i < j < |kvs| ==> kvs[j].0 != kvs[i].0
    ensures kvs[i].0 in LastWins(kvs) && LastWins(kvs)[kvs[i].0] == kvs[i].1
  {
    var n := |kvs| - 1;
    if i < n {
      var init := kvs[..n];
      assert init[i] == kvs[i];
      assert forall j :: i < j < |init| ==> init[j].0 != init[i].0;
      LastWinsLast(init, i);
      assert LastWins(kvs) == LastWins(init)[kvs[n].0 := kvs[n].1];
    }
  }
}
