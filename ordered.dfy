/** A Python dict, or the row index of a pandas dataframe written with
    `df.loc[key] = ...`: keys in insertion order, a later write to a key
    replaces its value where it stands. */
module Ordered {
  import opened Common

  type Assoc<K, V> = seq<(K, V)>

  function Keys<K, V>(a: Assoc<K, V>): (ks: seq<K>)
    ensures |ks| == |a| && forall i :: 0 <= i < |a| ==> ks[i] == a[i].0
  {
    seq(|a|, i requires 0 <= i < |a| => a[i].0)
  }

  predicate UniqueKeys<K(==), V>(a: Assoc<K, V>) {
    forall i, j :: 0 <= i < j < |a| ==> a[i].0 != a[j].0
  }

  /** `d.get(k)`. */
  function Get<K(==), V>(a: Assoc<K, V>, k: K): Option<V> {
    if a == [] then None
    else if a[0].0 == k then Some(a[0].1)
    else Get(a[1..], k)
  }

  /** `d[k] = v`: an existing key keeps its place, a new key goes last. */
  function Upsert<K(==), V>(a: Assoc<K, V>, k: K, v: V): Assoc<K, V> {
    if a == [] then [(k, v)]
    else if a[0].0 == k then [(k, v)] + a[1..]
    else [a[0]] + Upsert(a[1..], k, v)
  }

  /** After `d[k] = v`, `k` reads `v` and every other key reads as before. */
  lemma {:induction false} UpsertGet<K, V>(a: Assoc<K, V>, k: K, v: V, k': K)
    ensures Get(Upsert(a, k, v), k') == if k' == k then Some(v) else Get(a, k')
  {
    if a != [] && a[0].0 != k {
      UpsertGet(a[1..], k, v, k');
    }
  }

  /** `d[k] = v` keeps the key order and appends a new key at the end. */
  lemma {:induction false} UpsertKeys<K, V>(a: Assoc<K, V>, k: K, v: V)
    ensures Keys(Upsert(a, k, v)) == if k in Keys(a) then Keys(a) else Keys(a) + [k]
  {
    if a == [] {
      assert Keys(Upsert(a, k, v)) == [k];
    } else {
      var rest := a[1..];
      assert a == [a[0]] + rest;
      KeysCons(a[0], rest);
      if a[0].0 != k {
        UpsertKeys(rest, k, v);
        KeysCons(a[0], Upsert(rest, k, v));
      } else {
        KeysCons((k, v), rest);
      }
    }
  }

  /** Helper: the keys of a list with one more pair in front. */
  lemma KeysCons<K, V>(p: (K, V), a: Assoc<K, V>)
    ensures Keys([p] + a) == [p.0] + Keys(a)
  {
  }

  /** `d[k] = v` never creates a second entry for a key. */
  lemma UpsertUnique<K, V>(a: Assoc<K, V>, k: K, v: V)
    requires UniqueKeys(a)
    ensures UniqueKeys(Upsert(a, k, v))
  {
    var r := Upsert(a, k, v);
    UpsertKeys(a, k, v);
    assert forall i :: 0 <= i < |r| ==> r[i].0 == Keys(r)[i];
    assert forall i :: 0 <= i < |a| ==> a[i].0 == Keys(a)[i];
  }

  /** `d.pop(k, default)`: drops the key if it is there, and is no error if
      it is not. */
  function Remove<K(==), V>(a: Assoc<K, V>, k: K): (r: Assoc<K, V>)
    ensures |r| <= |a|
    ensures forall i :: 0 <= i < |r| ==> r[i].0 != k && r[i] in a
  {
    if a == [] then []
    else if a[0].0 == k then Remove(a[1..], k)
    else [a[0]] + Remove(a[1..], k)
  }

  /** After `d.pop(k)`, `k` is gone and every other key reads as before. */
  lemma {:induction false} RemoveGet<K, V>(a: Assoc<K, V>, k: K, k': K)
    ensures Get(Remove(a, k), k') == if k' == k then None else Get(a, k')
  {
    if a != [] {
      RemoveGet(a[1..], k, k');
    } else {
      assert Remove(a, k) == [];
    }
  }

  /** `dict(zip(keys, values))` given the zipped pairs. */
  function FromPairs<K(==), V>(ps: seq<(K, V)>): Assoc<K, V> {
    if ps == [] then [] else Upsert(FromPairs(ps[..|ps| - 1]), ps[|ps| - 1].0, ps[|ps| - 1].1)
  }

  /** Building a dict from pairs keeps, for every key, the value of its LAST
      pair; a key that no pair carries is absent. */
  lemma {:induction false} FromPairsLastWins<K, V>(ps: seq<(K, V)>, k: K, j: int)
    requires 0 <= j < |ps| && ps[j].0 == k
    requires forall j' :: j < j' < |ps| ==> ps[j'].0 != k
    ensures Get(FromPairs(ps), k) == Some(ps[j].1)
  {
    var n := |ps|;
    var init := ps[..n - 1];
    UpsertGet(FromPairs(init), ps[n - 1].0, ps[n - 1].1, k);
    if j < n - 1 {
      FromPairsLastWins(init, k, j);
    }
  }

  lemma {:induction false} FromPairsAbsent<K, V>(ps: seq<(K, V)>, k: K)
    requires forall j :: 0 <= j < |ps| ==> ps[j].0 != k
    ensures Get(FromPairs(ps), k) == None
  {
    if ps != [] {
      var init := ps[..|ps| - 1];
      UpsertGet(FromPairs(init), ps[|ps| - 1].0, ps[|ps| - 1].1, k);
      FromPairsAbsent(init, k);
    }
  }

  /** The pairs `f` yields for the elements of `xs`, in order; an element
      for which `f` yields None contributes no pair. */
  function CollectPairs<T, K, V>(xs: seq<T>, f: T -> Option<(K, V)>): (ps: seq<(K, V)>)
    ensures |ps| <= |xs|
  {
    if xs == [] then []
    else
      var p := f(xs[|xs| - 1]);
      CollectPairs(xs[..|xs| - 1], f) + (if p.Some? then [p.value] else [])
  }

  lemma FromPairsSnoc<K, V>(ps: seq<(K, V)>, p: (K, V))
    ensures FromPairs(ps + [p]) == Upsert(FromPairs(ps), p.0, p.1)
  {
    assert (ps + [p])[..|ps|] == ps;
  }

  /** In the dict built from the collected pairs, a key holds the value of the
      last element that yields it. */
  lemma {:induction false} CollectLastWins<T, K, V>(xs: seq<T>, f: T -> Option<(K, V)>, k: K, i: int)
    requires 0 <= i < |xs| && f(xs[i]).Some? && f(xs[i]).value.0 == k
    requires forall j :: i < j < |xs| && f(xs[j]).Some? ==> f(xs[j]).value.0 != k
    ensures Get(FromPairs(CollectPairs(xs, f)), k) == Some(f(xs[i]).value.1)
  {
    var n := |xs|;
    CollectGetLast(xs, f, k);
    if i < n - 1 {
      var init := xs[..n - 1];
      assert init[i] == xs[i];
      assert f(xs[n - 1]).Some? ==> f(xs[n - 1]).value.0 != k;
      CollectLastWins(init, f, k, i);
    }
  }

  /** Helper: the last element's pair, if any, decides the key it carries;
      every other key is looked up among the earlier pairs. */
  lemma CollectGetLast<T, K, V>(xs: seq<T>, f: T -> Option<(K, V)>, k: K)
    requires xs != []
    ensures var p := f(xs[|xs| - 1]);
      Get(FromPairs(CollectPairs(xs, f)), k)
        == if p.Some? && p.value.0 == k then Some(p.value.1) else Get(FromPairs(CollectPairs(xs[..|xs| - 1], f)), k)
  {
    var p := f(xs[|xs| - 1]);
    var ps := CollectPairs(xs[..|xs| - 1], f);
    if p.Some? {
      FromPairsSnoc(ps, p.value);
      UpsertGet(FromPairs(ps), p.value.0, p.value.1, k);
    } else {
      assert CollectPairs(xs, f) == ps;
    }
  }

  /** A key that no element yields is absent from the dict. */
  lemma {:induction false} CollectAbsent<T, K, V>(xs: seq<T>, f: T -> Option<(K, V)>, k: K)
    requires forall j :: 0 <= j < |xs| && f(xs[j]).Some? ==> f(xs[j]).value.0 != k
    ensures Get(FromPairs(CollectPairs(xs, f)), k) == None
  {
    if xs != [] {
      var n := |xs|;
      var init := xs[..n - 1];
      assert f(xs[n - 1]).Some? ==> f(xs[n - 1]).value.0 != k;
      forall j | 0 <= j < |init|
        ensures f(init[j]).Some? ==> f(init[j]).value.0 != k
      {
        assert init[j] == xs[j];
      }
      CollectGetLast(xs, f, k);
      CollectAbsent(init, f, k);
    }
  }
}
