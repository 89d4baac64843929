/**
 * Insertion-ordered key/value sequences: the iteration order of a serde_json
 * `Map` and the contents of a Python `dict`. A Python `dict` assignment keeps
 * an existing key where it is and replaces its value, and appends a new key
 * at the end; `SetItem` states exactly that, and `BuildDict` is what a run of
 * assignments into an empty dict leaves behind.
 */
module Entries {
  import opened Wrappers

  /** The set of keys that occur in `d`. */
  function KeySet<V>(d: seq<(string, V)>): set<string> {
    set i | 0 <= i < |d| :: d[i].0
  }

  /** No key occurs twice, as in every serde_json `Map` and every Python `dict`. */
  predicate DistinctKeys<V>(d: seq<(string, V)>) {
    forall i, j | 0 <= i < j < |d| :: d[i].0 != d[j].0
  }

  /** The value stored under `k`: that of its first occurrence, if any. */
  function Lookup<V>(d: seq<(string, V)>, k: string): Option<V> {
    if d == [] then None
    else if d[0].0 == k then Some(d[0].1)
    else Lookup(d[1..], k)
  }

  /** `d[k] = v` on an insertion-ordered dict. */
  function SetItem<V>(d: seq<(string, V)>, k: string, v: V): seq<(string, V)> {
    if d == [] then [(k, v)]
    else if d[0].0 == k then [(k, v)] + d[1..]
    else [d[0]] + SetItem(d[1..], k, v)
  }

  /** The dict obtained by assigning `pairs` one after the other into an empty dict. */
  function BuildDict<V>(pairs: seq<(string, V)>): seq<(string, V)> {
    if pairs == [] then []
    else
      var last := pairs[|pairs| - 1];
      SetItem(BuildDict(pairs[..|pairs| - 1]), last.0, last.1)
  }

  /** The keys of a non-empty sequence are its first key and the keys of the rest. */
  lemma KeySetCons<V>(d: seq<(string, V)>)
    requires d != []
    ensures KeySet(d) == {d[0].0} + KeySet(d[1..])
  {
  }

  /** Assigning a key the dict does not hold appends it, after every existing entry. */
  lemma {:induction false} SetItemNewKey<V>(d: seq<(string, V)>, k: string, v: V)
    requires k !in KeySet(d)
    ensures SetItem(d, k, v) == d + [(k, v)]
  {
    if d != [] {
      KeySetCons(d);
      SetItemNewKey(d[1..], k, v);
      assert [d[0]] + (d[1..] + [(k, v)]) == d + [(k, v)];
    }
  }

  /** Assigning a key the dict already holds keeps every key in its place. */
  lemma {:induction false} SetItemExistingKey<V>(d: seq<(string, V)>, k: string, v: V)
    requires k in KeySet(d)
    ensures |SetItem(d, k, v)| == |d|
    ensures forall i | 0 <= i < |d| :: SetItem(d, k, v)[i].0 == d[i].0
  {
    KeySetCons(d);
    if d[0].0 != k {
      SetItemExistingKey(d[1..], k, v);
    }
  }

  /** After `d[k] = v`, `d[k]` is `v`, every other key reads as before, and exactly `k` was added to the keys. */
  lemma {:induction false} SetItemLookup<V>(d: seq<(string, V)>, k: string, v: V)
    ensures Lookup(SetItem(d, k, v), k) == Some(v)
    ensures forall k' | k' != k :: Lookup(SetItem(d, k, v), k') == Lookup(d, k')
    ensures KeySet(SetItem(d, k, v)) == KeySet(d) + {k}
  {
    if d != [] {
      KeySetCons(d);
      KeySetCons(SetItem(d, k, v));
      if d[0].0 != k {
        SetItemLookup(d[1..], k, v);
      }
    }
  }

  /** Assignment never introduces a second copy of a key. */
  lemma {:induction false} SetItemDistinct<V>(d: seq<(string, V)>, k: string, v: V)
    requires DistinctKeys(d)
    ensures DistinctKeys(SetItem(d, k, v))
  {
    if k in KeySet(d) {
      SetItemExistingKey(d, k, v);
    } else {
      SetItemNewKey(d, k, v);
    }
  }

  /**
   * Assigning pairs whose keys are distinct, in order, into an empty dict
   * yields exactly those pairs in that order.
   */
  lemma {:induction false} BuildDictDistinct<V>(pairs: seq<(string, V)>)
    requires DistinctKeys(pairs)
    ensures BuildDict(pairs) == pairs
  {
    if pairs != [] {
      var n := |pairs| - 1;
      var front := pairs[..n];
      assert DistinctKeys(front);
      BuildDictDistinct(front);
      assert pairs[n].0 !in KeySet(front);
      SetItemNewKey(front, pairs[n].0, pairs[n].1);
      assert front + [pairs[n]] == pairs;
    }
  }

  /** Whatever the pairs, the dict holds each of their keys once and no other key. */
  lemma {:induction false} BuildDictKeys<V>(pairs: seq<(string, V)>)
    ensures DistinctKeys(BuildDict(pairs))
    ensures KeySet(BuildDict(pairs)) == KeySet(pairs)
  {
    if pairs != [] {
      var n := |pairs| - 1;
      var front := pairs[..n];
      BuildDictKeys(front);
      SetItemDistinct(BuildDict(front), pairs[n].0, pairs[n].1);
      SetItemLookup(BuildDict(front), pairs[n].0, pairs[n].1);
      assert KeySet(pairs) == KeySet(front) + {pairs[n].0} by {
        forall k | k in KeySet(pairs) ensures k in KeySet(front) + {pairs[n].0} {
          var i :| 0 <= i < |pairs| && pairs[i].0 == k;
          if i < n { assert front[i].0 == k; }
        }
        forall k | k in KeySet(front) ensures k in KeySet(pairs) {
          var i :| 0 <= i < n && front[i].0 == k;
          assert pairs[i].0 == k;
        }
      }
    }
  }
}
