/**
 * The bounded LRU cache of src/threatlens/utils/lru.py and what "least recently used" means over a
 * whole history of touches.
 */
module LruCache {
  import opened Collections

  // ---- recency over a history --------------------------------------------------------------------

  function Remove<K(==)>(s: seq<K>, k: K): seq<K> {
    if s == [] then [] else Remove(Front(s), k) + if Last(s) == k then [] else [Last(s)]
  }

  /** The distinct keys of a history, ordered by their last touch. */
  function Recency<K(==)>(touches: seq<K>): seq<K> {
    if touches == [] then [] else Remove(Recency(Front(touches)), Last(touches)) + [Last(touches)]
  }

  function LastN<T>(s: seq<T>, n: nat): seq<T> {
    if |s| <= n then s else s[|s| - n..]
  }

  /** One step of the cache: move k to the young end, then drop what exceeds n at the old end. */
  function Touch<K(==)>(order: seq<K>, k: K, n: nat): seq<K> {
    LastN(Remove(order, k) + [k], n)
  }

  /** The distinct keys touched since k was last touched. */
  function TouchedSince<K(==)>(touches: seq<K>, k: K): set<K> {
    if touches == [] || Last(touches) == k then {} else TouchedSince(Front(touches), k) + {Last(touches)}
  }

  lemma {:induction false} RemoveMembers<K(!new)>(s: seq<K>, k: K)
    ensures forall x :: x in Remove(s, k) <==> x in s && x != k
    ensures |Remove(s, k)| <= |s|
  {
    if s == [] {
    } else {
      RemoveMembers(Front(s), k);
      assert forall x :: x in s <==> x in Front(s) || x == Last(s);
    }
  }

  lemma {:induction false} RemoveDistributes<K>(s: seq<K>, t: seq<K>, k: K)
    ensures Remove(s + t, k) == Remove(s, k) + Remove(t, k)
  {
    if t == [] {
      assert s + t == s;
    } else {
      assert Front(s + t) == s + Front(t) && Last(s + t) == Last(t);
      RemoveDistributes(s, Front(t), k);
      assert Remove(s + t, k) == Remove(s + Front(t), k) + if Last(t) == k then [] else [Last(t)];
    }
  }

  lemma {:induction false} RemoveAbsent<K(!new)>(s: seq<K>, k: K)
    requires k !in s
    ensures Remove(s, k) == s
  {
    if s == [] {
    } else {
      assert Last(s) == s[|s| - 1] && s == Front(s) + [Last(s)];
      RemoveAbsent(Front(s), k);
    }
  }

  lemma {:induction false} RemoveDistinct<K(!new)>(s: seq<K>, k: K)
    requires NoDuplicates(s)
    ensures NoDuplicates(Remove(s, k))
    ensures k in s ==> |Remove(s, k)| == |s| - 1
  {
    if s == [] {
    } else {
      RemoveMembers(Front(s), k);
      RemoveDistinct(Front(s), k);
      assert Last(s) !in Front(s) by {
        forall i | 0 <= i < |s| - 1 ensures s[i] != Last(s) { }
      }
      assert Last(s) !in Remove(Front(s), k);
      if Last(s) == k { RemoveAbsent(Front(s), k); }
    }
  }

  lemma MovedToEnd<K(!new)>(s: seq<K>, k: K)
    requires NoDuplicates(s)
    ensures NoDuplicates(Remove(s, k) + [k])
  {
    hide Remove;
    var rest := Remove(s, k);
    RemoveMembers(s, k);
    RemoveDistinct(s, k);
    forall i | 0 <= i < |rest| ensures rest[i] != k {
      assert rest[i] in rest;
    }
  }

  lemma {:induction false} RecencyMembers<K(!new)>(touches: seq<K>)
    ensures NoDuplicates(Recency(touches))
    ensures forall x :: x in Recency(touches) <==> x in touches
  {
    hide Remove;
    if touches == [] {
    } else {
      var before, k := Recency(Front(touches)), Last(touches);
      RecencyMembers(Front(touches));
      RemoveMembers(before, k);
      MovedToEnd(before, k);
      assert touches == Front(touches) + [k];
      assert forall x :: x in Remove(before, k) + [k] <==> x in Remove(before, k) || x == k;
    }
  }

  lemma LastNOfSuffix<T>(a: seq<T>, x: seq<T>, n: nat)
    requires |x| >= n || a == []
    ensures LastN(a + x, n) == LastN(x, n)
  {
    if a == [] { assert a + x == x; }
  }

  /** Trimming before a touch changes nothing that trimming after it would keep. */
  lemma TouchAfterTrim<K(!new)>(all: seq<K>, k: K, n: nat)
    requires NoDuplicates(all)
    ensures Touch(LastN(all, n), k, n) == LastN(Remove(all, k) + [k], n)
  {
    hide Remove;
    var kept := LastN(all, n);
    var gone := all[..|all| - |kept|];
    assert all == gone + kept;
    var x := Remove(kept, k) + [k];
    RemoveDistributes(gone, kept, k);
    RemoveMembers(gone, k);
    assert Remove(all, k) + [k] == Remove(gone, k) + x;
    if gone != [] && |x| < n {
      HitLeavesSize(all, kept, k);
    }
    LastNOfSuffix(Remove(gone, k), x, n);
  }

  lemma HitLeavesSize<K(!new)>(all: seq<K>, kept: seq<K>, k: K)
    requires NoDuplicates(all) && |kept| <= |all| && kept == all[|all| - |kept|..]
    ensures |Remove(kept, k)| + 1 >= |kept|
  {
    assert NoDuplicates(kept);
    RemoveDistinct(kept, k);
    if k !in kept { RemoveAbsent(kept, k); }
  }

  /** Stepwise eviction keeps exactly the n most recently touched distinct keys. */
  lemma TouchKeepsMostRecent<K(!new)>(touches: seq<K>, k: K, n: nat)
    ensures Touch(LastN(Recency(touches), n), k, n) == LastN(Recency(touches + [k]), n)
  {
    RecencyMembers(touches);
    RecencyStep(touches, k);
    TouchAfterTrim(Recency(touches), k, n);
  }

  lemma RecencyStep<K>(touches: seq<K>, k: K)
    ensures Recency(touches + [k]) == Remove(Recency(touches), k) + [k]
  {
    assert Front(touches + [k]) == touches;
  }

  /** What one touch does to the held keys. */
  lemma TouchMembers<K(!new)>(touches: seq<K>, k: K, n: nat)
    requires n >= 1
    ensures var order := LastN(Recency(touches), n);
            var now := Touch(order, k, n);
            && k in now
            && NoDuplicates(Remove(order, k) + [k])
            && (forall x :: x in Remove(order, k) + [k] <==> x in order || x == k)
            && (forall x :: x in now ==> x == k || x in order)
            && (k in order ==> now == Remove(order, k) + [k] && forall x :: x in now <==> x in order)
  {
    hide Recency, Remove, LastN;
    var order := LastN(Recency(touches), n);
    RecencyMembers(touches);
    LastNDistinct(Recency(touches), n);
    RemoveMembers(order, k);
    RemoveDistinct(order, k);
    MovedToEnd(order, k);
    LastNMembers(Remove(order, k) + [k], n);
  }

  lemma LastNDistinct<K>(s: seq<K>, n: nat)
    requires NoDuplicates(s)
    ensures NoDuplicates(LastN(s, n)) && |LastN(s, n)| <= n
  {
  }

  lemma LastNMembers<K(!new)>(s: seq<K>, n: nat)
    ensures forall x :: x in LastN(s, n) ==> x in s
    ensures s != [] && n >= 1 ==> Last(s) in LastN(s, n)
    ensures |s| <= n ==> LastN(s, n) == s
  {
    if s != [] && n >= 1 {
      assert Last(LastN(s, n)) == Last(s);
    }
  }

  /** Where k stands in the recency order: exactly the keys touched since it follow it. */
  lemma {:induction false} RecencySplit<K(!new)>(touches: seq<K>, k: K) returns (older: seq<K>, newer: seq<K>)
    requires k in touches
    ensures Recency(touches) == older + [k] + newer
    ensures NoDuplicates(newer) && forall x :: x in newer <==> x in TouchedSince(touches, k)
  {
    hide Remove;
    var x := Last(touches);
    if x == k {
      older, newer := Remove(Recency(Front(touches)), k), [];
    } else {
      assert touches == Front(touches) + [x];
      var a, b := RecencySplit(Front(touches), k);
      RemoveDistributes(a + [k], b, x);
      RemoveDistributes(a, [k], x);
      RemoveAbsent([k], x);
      RemoveMembers(b, x);
      MovedToEnd(b, x);
      older, newer := Remove(a, x), Remove(b, x) + [x];
    }
  }

  /** A key is still held exactly when fewer than n distinct other keys were touched since. */
  lemma HeldExactlyWhenRecent<K(!new)>(touches: seq<K>, k: K, n: nat)
    requires n >= 1
    ensures k in LastN(Recency(touches), n) <==> k in touches && |TouchedSince(touches, k)| < n
  {
    RecencyMembers(touches);
    if k in touches {
      var older, newer := RecencySplit(touches, k);
      DistinctCount(newer);
      assert (set x | x in newer) == TouchedSince(touches, k);
      var all := Recency(touches);
      assert all[|older|] == k;
      if |newer| < n {
        var kept := LastN(all, n);
        assert kept[|older| - (|all| - |kept|)] == k;
      }
    }
  }

  /** while len(d) > max: d.popitem(last=False), for a dict with its keys in insertion order. */
  method EvictOldest<K(==, !new), V>(order: seq<K>, data: map<K, V>, max: nat) returns (kept: seq<K>, rest: map<K, V>)
    requires NoDuplicates(order) && forall k :: k in data <==> k in order
    ensures kept == LastN(order, max)
    ensures forall k :: k in rest <==> k in kept
    ensures forall k :: k in rest ==> k in data && rest[k] == data[k]
  {
    hide NoDuplicates;
    kept, rest := order, data;
    ghost var i := 0;
    while |kept| > max
      invariant 0 <= i <= |order| && kept == order[i..]
      invariant i == 0 || |kept| >= max
      invariant forall k :: k in rest <==> k in kept
      invariant forall k :: k in rest ==> k in data && rest[k] == data[k]
      decreases |kept|
    {
      OldestOnce(order, i);
      rest := rest - {kept[0]};
      kept := kept[1..];
      i := i + 1;
    }
  }

  lemma OldestOnce<K(!new)>(order: seq<K>, i: nat)
    requires NoDuplicates(order) && i < |order|
    ensures order[i..][0] == order[i] && order[i..][1..] == order[i + 1..] && order[i] !in order[i + 1..]
    ensures forall k :: k in order[i..] <==> k == order[i] || k in order[i + 1..]
  {
  }

  // ---- the cache -----------------------------------------------------------------------------------

  class BoundedLRUCache<K(==, !new), V> {
    const max: nat
    var order: seq<K>
    var data: map<K, V>
    var hits: nat
    var misses: nat
    ghost var touched: seq<K>

    /** Held are exactly the max most recently touched distinct keys, oldest first. */
    ghost predicate Valid()
      reads this
    {
      && max >= 1
      && order == LastN(Recency(touched), max)
      && (forall k :: k in data <==> k in order)
    }

    constructor (maxEntries: nat)
      requires maxEntries >= 1
      ensures Valid() && max == maxEntries && touched == [] && hits == misses == 0
    {
      max := maxEntries;
      order, data, hits, misses, touched := [], map[], 0, 0, [];
    }

    method Get(key: K) returns (value: Option<V>)
      requires Valid()
      modifies this
      ensures Valid() && data == old(data)
      ensures value == if key in old(data) then Some(old(data)[key]) else None
      ensures touched == if key in old(data) then old(touched) + [key] else old(touched)
      ensures hits == old(hits) + (if value.Some? then 1 else 0)
      ensures misses == old(misses) + (if value.Some? then 0 else 1)
    {
      hide Recency, LastN, Remove;
      if key !in data {
        misses := misses + 1;
        return None;
      }
      hits := hits + 1;
      TouchKeepsMostRecent(touched, key, max);
      TouchMembers(touched, key, max);
      order := Remove(order, key) + [key];
      touched := touched + [key];
      value := Some(data[key]);
    }

    method Put(key: K, value: V)
      requires Valid()
      modifies this
      ensures Valid() && touched == old(touched) + [key]
      ensures key in data && data[key] == value
      ensures forall k :: k in data && k != key ==> k in old(data) && data[k] == old(data)[k]
      ensures hits == old(hits) && misses == old(misses)
    {
      hide Recency, LastN, Remove;
      TouchKeepsMostRecent(touched, key, max);
      TouchMembers(touched, key, max);
      data := data[key := value];
      order := Remove(order, key) + [key];
      order, data := EvictOldest(order, data, max);
      touched := touched + [key];
    }
  }
}
