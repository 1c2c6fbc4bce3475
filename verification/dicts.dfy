/**
 * Python dictionaries as the dashboard uses them: key/value pairs kept in
 * insertion order, each key at most once. Assigning to a present key
 * replaces its value where it stands; assigning to a new key appends it.
 */
module Dicts {
  import opened Wrappers

  type Dict<K, V> = seq<(K, V)>

  function Keys<K, V>(d: Dict<K, V>): (ks: seq<K>)
    ensures |ks| == |d|
    ensures forall i :: 0 <= i < |d| ==> ks[i] == d[i].0
  {
    seq(|d|, i requires 0 <= i < |d| => d[i].0)
  }

  /** No key occurs twice. */
  ghost predicate Distinct<K, V>(d: Dict<K, V>)
  {
    forall i, j :: 0 <= i < j < |d| ==> d[i].0 != d[j].0
  }

  /** The position of key `k`, if present (the first one). */
  function Find<K(==), V>(d: Dict<K, V>, k: K): (r: Option<nat>)
    ensures r.Some? ==> r.value < |d| && d[r.value].0 == k
    ensures r.Some? ==> forall j :: 0 <= j < r.value ==> d[j].0 != k
    ensures r.None? <==> k !in Keys(d)
    decreases |d|
  {
    if d == [] then None
    else if d[0].0 == k then Some(0)
    else match Find(d[1..], k)
      case None => None
      case Some(i) => Some(i + 1)
  }

  /** `d.get(k)` */
  function Get<K(==), V>(d: Dict<K, V>, k: K): (r: Option<V>)
    ensures r.Some? <==> k in Keys(d)
  {
    match Find(d, k)
    case None => None
    case Some(i) => Some(d[i].1)
  }

  /** `d.get(k, default)` */
  function GetOr<K(==), V>(d: Dict<K, V>, k: K, default: V): V
  {
    match Get(d, k)
    case None => default
    case Some(v) => v
  }

  /** `d[k] = v` */
  function Put<K(==), V>(d: Dict<K, V>, k: K, v: V): (r: Dict<K, V>)
    ensures k in Keys(d) ==> Keys(r) == Keys(d)
    ensures k !in Keys(d) ==> Keys(r) == Keys(d) + [k]
    ensures Distinct(d) ==> Distinct(r)
  {
    match Find(d, k)
    case Some(i) => d[i := (k, v)]
    case None => d + [(k, v)]
  }

  /** The first position holding a key is the one `Find` reports. */
  lemma FindFirst<K, V>(d: Dict<K, V>, k: K, i: nat)
    requires i < |d| && d[i].0 == k
    requires forall j :: 0 <= j < i ==> d[j].0 != k
    ensures Find(d, k) == Some(i)
  {
    assert k in Keys(d) by { assert Keys(d)[i] == k; }
  }

  /** In a dictionary without repeated keys, `Get` finds every stored pair. */
  lemma GetAt<K, V>(d: Dict<K, V>, i: nat)
    requires Distinct(d) && i < |d|
    ensures Get(d, d[i].0) == Some(d[i].1)
  {
    FindFirst(d, d[i].0, i);
  }

  /** What `Get` finds is a stored pair. */
  lemma GetStored<K, V>(d: Dict<K, V>, k: K, v: V)
    requires Get(d, k) == Some(v)
    ensures exists i :: 0 <= i < |d| && d[i] == (k, v)
  {
    var i := Find(d, k).value;
    assert d[i] == (k, v);
  }

  /** Reading a key back after an assignment. */
  lemma {:induction false} GetPut<K, V>(d: Dict<K, V>, k: K, v: V, k': K)
    ensures Get(Put(d, k, v), k') == if k' == k then Some(v) else Get(d, k')
  {
    var r := Put(d, k, v);
    assert forall j :: 0 <= j < |d| ==> r[j].0 == d[j].0 by {
      match Find(d, k)
      case None =>
      case Some(i) =>
    }
    match Find(d, k)
    case Some(i) =>
      if k' == k {
        FindFirst(r, k, i);
      } else {
        match Find(d, k')
        case None =>
          assert k' !in Keys(r);
        case Some(i') =>
          FindFirst(r, k', i');
      }
    case None =>
      if k' == k {
        FindFirst(r, k, |d|);
      } else {
        match Find(d, k')
        case None =>
          assert k' !in Keys(r);
        case Some(i') =>
          FindFirst(r, k', i');
      }
  }

  /** A dictionary of dictionaries: `g[a][b]`, if both keys are present. */
  function Get2<K(==), L(==), V>(g: Dict<K, Dict<L, V>>, a: K, b: L): Option<V>
  {
    match Get(g, a)
    case None => None
    case Some(inner) => Get(inner, b)
  }

  /** `if a not in g: g[a] = {}` followed by `g[a][b] = v` */
  function Put2<K(==), L(==), V>(g: Dict<K, Dict<L, V>>, a: K, b: L, v: V): (r: Dict<K, Dict<L, V>>)
    ensures a in Keys(g) ==> Keys(r) == Keys(g)
    ensures a !in Keys(g) ==> Keys(r) == Keys(g) + [a]
  {
    Put(g, a, Put(GetOr(g, a, []), b, v))
  }

  /** Both levels free of repeated keys. */
  ghost predicate Distinct2<K, L, V>(g: Dict<K, Dict<L, V>>)
  {
    Distinct(g) && forall i :: 0 <= i < |g| ==> Distinct(g[i].1)
  }

  lemma {:induction false} GetPut2<K, L, V>(g: Dict<K, Dict<L, V>>, a: K, b: L, v: V, a': K, b': L)
    ensures Get2(Put2(g, a, b, v), a', b') == if a' == a && b' == b then Some(v) else Get2(g, a', b')
  {
    var inner := Put(GetOr(g, a, []), b, v);
    GetPut(g, a, inner, a');
    if a' == a {
      GetPut(GetOr(g, a, []), b, v, b');
    }
  }

  lemma {:induction false} Distinct2Put2<K, L, V>(g: Dict<K, Dict<L, V>>, a: K, b: L, v: V)
    requires Distinct2(g)
    ensures Distinct2(Put2(g, a, b, v))
  {
    var old_inner := GetOr(g, a, []);
    var inner := Put(old_inner, b, v);
    match Find(g, a)
    case Some(i) =>
      assert old_inner == g[i].1;
    case None =>
  }
}
