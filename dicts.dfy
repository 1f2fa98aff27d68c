/**
  Python dictionaries as ordered association lists. A Python `dict` iterates
  in insertion order, and assigning to a key that is already present keeps
  the key where it was; both facts decide the text the reports print, so a
  dictionary here is a sequence of key/value pairs rather than a Dafny `map`.
 */
module Dicts {
  import opened Wrappers

  type Dict<K, V> = seq<(K, V)>

  /** No key occurs twice (every dictionary the program builds has this). */
  ghost predicate DistinctKeys<K, V>(d: Dict<K, V>) {
    forall i, j :: 0 <= i < j < |d| ==> d[i].0 != d[j].0
  }

  function Keys<K, V>(d: Dict<K, V>): set<K> {
    if d == [] then {} else {d[0].0} + Keys(d[1..])
  }

  /** The keys in iteration order (`d.keys()`). */
  function KeySeq<K, V>(d: Dict<K, V>): (ks: seq<K>)
    ensures |ks| == |d|
    ensures forall i :: 0 <= i < |d| ==> ks[i] == d[i].0
  {
    if d == [] then [] else [d[0].0] + KeySeq(d[1..])
  }

  /** `d.get(k)`: the value stored for `k`, if any. */
  function Find<K(==), V>(d: Dict<K, V>, k: K): Option<V> {
    if d == [] then None else if d[0].0 == k then Some(d[0].1) else Find(d[1..], k)
  }

  /** `d.get(k, dflt)`, which is what a lookup in a `defaultdict` reads. */
  function GetOr<K(==), V>(d: Dict<K, V>, k: K, dflt: V): V {
    match Find(d, k)
    case Some(v) => v
    case None => dflt
  }

  lemma {:induction false} FindKeys<K, V>(d: Dict<K, V>, k: K)
    ensures Find(d, k).Some? <==> k in Keys(d)
  {
    if d != [] { FindKeys(d[1..], k); }
  }

  lemma {:induction false} FindAt<K, V>(d: Dict<K, V>, i: nat)
    requires DistinctKeys(d) && i < |d|
    ensures Find(d, d[i].0) == Some(d[i].1)
  {
    if i > 0 { FindAt(d[1..], i - 1); }
  }

  lemma {:induction false} KeysAt<K, V>(d: Dict<K, V>, k: K)
    ensures k in Keys(d) <==> exists i :: 0 <= i < |d| && d[i].0 == k
  {
    if d != [] {
      KeysAt(d[1..], k);
      if k in Keys(d[1..]) {
        var i :| 0 <= i < |d[1..]| && d[1..][i].0 == k;
        assert d[i + 1].0 == k;
      }
      if exists i :: 0 <= i < |d| && d[i].0 == k {
        var i :| 0 <= i < |d| && d[i].0 == k;
        if i > 0 { assert d[1..][i - 1].0 == k; }
      }
    }
  }

  /**
    `d[k] = v`: an existing key keeps its place and gets the new value,
    a new key goes to the end.
   */
  function Set<K(==,!new), V>(d: Dict<K, V>, k: K, v: V): (r: Dict<K, V>)
    ensures Find(r, k) == Some(v)
    ensures forall k' :: k' != k ==> Find(r, k') == Find(d, k')
    ensures Keys(r) == Keys(d) + {k}
    ensures k in Keys(d) ==> |r| == |d|
    ensures k !in Keys(d) ==> r == d + [(k, v)]
  {
    if d == [] then [(k, v)]
    else if d[0].0 == k then [(k, v)] + d[1..]
    else
      var rest := Set(d[1..], k, v);
      assert ([d[0]] + rest)[1..] == rest;
      [d[0]] + rest
  }

  /** Assigning to a present key leaves every other position as it was. */
  lemma {:induction false} SetInPlace<K(!new), V>(d: Dict<K, V>, k: K, v: V, i: nat)
    requires k in Keys(d) && i < |d|
    ensures i < |Set(d, k, v)| && Set(d, k, v)[i].0 == d[i].0
    ensures d[i].0 != k ==> Set(d, k, v)[i] == d[i]
  {
    if d[0].0 != k {
      assert Set(d, k, v) == [d[0]] + Set(d[1..], k, v);
      if i > 0 { SetInPlace(d[1..], k, v, i - 1); }
    }
  }

  /** Every position after an assignment holds the assigned pair or what was there before. */
  lemma {:induction false} SetEntry<K(!new), V>(d: Dict<K, V>, k: K, v: V, i: nat)
    requires i < |Set(d, k, v)|
    ensures Set(d, k, v)[i] == (k, v) || (i < |d| && Set(d, k, v)[i] == d[i])
  {
    if d != [] && d[0].0 != k && i > 0 {
      assert Set(d, k, v) == [d[0]] + Set(d[1..], k, v);
      SetEntry(d[1..], k, v, i - 1);
    }
  }

  lemma {:induction false} SetDistinct<K(!new), V>(d: Dict<K, V>, k: K, v: V)
    requires DistinctKeys(d)
    ensures DistinctKeys(Set(d, k, v))
  {
    var r := Set(d, k, v);
    if k in Keys(d) {
      forall i, j | 0 <= i < j < |r| ensures r[i].0 != r[j].0 {
        SetInPlace(d, k, v, i);
        SetInPlace(d, k, v, j);
      }
    } else {
      forall i, j | 0 <= i < j < |r| ensures r[i].0 != r[j].0 {
        if j == |d| { KeysAt(d, k); }
      }
    }
  }

  /** A `defaultdict(float)` update `d[k] += x`. */
  function Add<K(==,!new)>(d: Dict<K, real>, k: K, x: real): (r: Dict<K, real>)
    ensures GetOr(r, k, 0.0) == GetOr(d, k, 0.0) + x
    ensures forall k' :: k' != k ==> Find(r, k') == Find(d, k') && GetOr(r, k', 0.0) == GetOr(d, k', 0.0)
    ensures Keys(r) == Keys(d) + {k}
    ensures ValueSum(r) == ValueSum(d) + x
  {
    SetValueSum(d, k, GetOr(d, k, 0.0) + x);
    Set(d, k, GetOr(d, k, 0.0) + x)
  }

  /**
    Reading `d[k]` from a `defaultdict`: the value (the default when the key
    is missing) together with the dictionary, which now holds the key.
   */
  function Touch<K(==,!new), V>(d: Dict<K, V>, k: K, dflt: V): (r: (V, Dict<K, V>))
    ensures r.0 == GetOr(d, k, dflt)
    ensures forall k' :: Find(r.1, k') == if k' == k then Some(r.0) else Find(d, k')
    ensures Keys(r.1) == Keys(d) + {k}
    ensures k in Keys(d) ==> r.1 == d
    ensures k !in Keys(d) ==> r.1 == d + [(k, dflt)]
  {
    match Find(d, k)
    case Some(v) => FindKeys(d, k); (v, d)
    case None => FindKeys(d, k); (dflt, Set(d, k, dflt))
  }

  /** The sum of all values, as `sum(d.values())`. */
  function ValueSum<K>(d: Dict<K, real>): real {
    if d == [] then 0.0 else d[0].1 + ValueSum(d[1..])
  }

  lemma {:induction false} SetValueSum<K(!new)>(d: Dict<K, real>, k: K, v: real)
    ensures ValueSum(Set(d, k, v)) == ValueSum(d) - GetOr(d, k, 0.0) + v
  {
    if d != [] && d[0].0 != k {
      SetValueSum(d[1..], k, v);
      assert Set(d, k, v) == [d[0]] + Set(d[1..], k, v);
      assert ([d[0]] + Set(d[1..], k, v))[1..] == Set(d[1..], k, v);
    } else if d != [] {
      assert ([(k, v)] + d[1..])[1..] == d[1..];
    }
  }

  lemma {:induction false} KeysOfSnoc<K, V>(d: Dict<K, V>, e: (K, V))
    ensures Keys(d + [e]) == Keys(d) + {e.0}
  {
    if d != [] {
      assert (d + [e])[1..] == d[1..] + [e];
      KeysOfSnoc(d[1..], e);
    }
  }

  lemma {:induction false} FindTail<K, V>(d: Dict<K, V>, e: (K, V), k: K)
    requires k in Keys(d)
    ensures Find(d + [e], k) == Find(d, k)
  {
    if d[0].0 != k {
      assert (d + [e])[1..] == d[1..] + [e];
      FindTail(d[1..], e, k);
    }
  }

  /** A key that is absent before an appended entry is found only in that entry. */
  lemma {:induction false} FindSnocNew<K, V>(d: Dict<K, V>, e: (K, V), k: K)
    requires k !in Keys(d)
    ensures Find(d + [e], k) == if e.0 == k then Some(e.1) else None
  {
    if d != [] {
      assert (d + [e])[1..] == d[1..] + [e];
      FindSnocNew(d[1..], e, k);
    }
  }
}
