/** Sequence tools shared by the models: a stable sort, filtering, and the "first maximum" of Python's max. */
module Collections {

  datatype Option<+T> = None | Some(value: T)

  function Max(a: int, b: int): int { if a < b then b else a }

  function Min(a: int, b: int): int { if a < b then a else b }

  function Last<T>(s: seq<T>): T
    requires s != []
  {
    s[|s| - 1]
  }

  function Front<T>(s: seq<T>): seq<T>
    requires s != []
  {
    s[..|s| - 1]
  }

  function Filter<T(!new)>(s: seq<T>, p: T -> bool): (r: seq<T>)
    ensures forall x :: x in r <==> x in s && p(x)
  {
    if s == [] then [] else Filter(Front(s), p) + (if p(Last(s)) then [Last(s)] else [])
  }

  lemma {:induction false} FilterAppend<T(!new)>(s: seq<T>, t: seq<T>, p: T -> bool)
    ensures Filter(s + t, p) == Filter(s, p) + Filter(t, p)
  {
    if t == [] {
      assert s + t == s;
    } else {
      var last := if p(Last(t)) then [Last(t)] else [];
      assert Front(s + t) == s + Front(t) && Last(s + t) == Last(t);
      FilterAppend(s, Front(t), p);
      assert Filter(s + t, p) == Filter(s + Front(t), p) + last;
    }
  }

  /** What max(items, key=...) returns in Python: the first item of greatest key. */
  function FirstMax<T(!new)>(s: seq<T>, key: T -> int): (r: T)
    requires s != []
    ensures r in s && forall x :: x in s ==> key(x) <= key(r)
  {
    if |s| == 1 then s[0]
    else
      var best := FirstMax(Front(s), key);
      if key(best) < key(Last(s)) then Last(s) else best
  }

  lemma {:induction false} FirstMaxIsFirst<T(!new)>(s: seq<T>, key: T -> int) returns (i: nat)
    requires s != []
    ensures i < |s| && s[i] == FirstMax(s, key) && forall j :: 0 <= j < i ==> key(s[j]) < key(s[i])
  {
    if |s| == 1 {
      i := 0;
    } else {
      i := FirstMaxIsFirst(Front(s), key);
      if key(Front(s)[i]) < key(Last(s)) {
        i := |s| - 1;
        forall j | 0 <= j < i ensures key(s[j]) < key(s[i]) { assert s[j] in Front(s); }
      }
    }
  }

  // ---- sorted(...): stable insertion sort -------------------------------------------------

  ghost predicate TotalPreorder<T(!new)>(leq: (T, T) -> bool) {
    && (forall x, y :: leq(x, y) || leq(y, x))
    && (forall x, y, z :: leq(x, y) && leq(y, z) ==> leq(x, z))
  }

  ghost predicate SortedBy<T>(s: seq<T>, leq: (T, T) -> bool) {
    forall i, j :: 0 <= i < j < |s| ==> leq(s[i], s[j])
  }

  /** Inserts x behind every element that is not after it, so equal elements keep their order. */
  function Insert<T>(s: seq<T>, x: T, leq: (T, T) -> bool): (r: seq<T>)
    ensures multiset(r) == multiset(s) + multiset{x}
  {
    if s == [] then [x]
    else if leq(Last(s), x) then s + [x]
    else
      assert s == Front(s) + [Last(s)];
      Insert(Front(s), x, leq) + [Last(s)]
  }

  function StableSort<T>(s: seq<T>, leq: (T, T) -> bool): (r: seq<T>)
    ensures multiset(r) == multiset(s)
  {
    if s == [] then []
    else
      assert s == Front(s) + [Last(s)];
      Insert(StableSort(Front(s), leq), Last(s), leq)
  }

  lemma InsertAdds<T(!new)>(s: seq<T>, x: T, leq: (T, T) -> bool)
    ensures forall y :: y in Insert(s, x, leq) ==> y == x || y in s
  {
    hide Insert;
    forall y | y in Insert(s, x, leq) ensures y == x || y in s {
      assert y in multiset(Insert(s, x, leq));
      assert y in multiset(s) + multiset{x};
    }
  }

  lemma {:induction false} InsertSorted<T(!new)>(s: seq<T>, x: T, leq: (T, T) -> bool)
    requires TotalPreorder(leq) && SortedBy(s, leq)
    ensures SortedBy(Insert(s, x, leq), leq)
  {
    if s != [] && !leq(Last(s), x) {
      InsertSorted(Front(s), x, leq);
      var r := Insert(Front(s), x, leq);
      InsertAdds(Front(s), x, leq);
      forall y | y in r ensures leq(y, Last(s)) {
        assert y == x || y in Front(s);
      }
    }
  }

  lemma {:induction false} StableSortSorted<T(!new)>(s: seq<T>, leq: (T, T) -> bool)
    requires TotalPreorder(leq)
    ensures SortedBy(StableSort(s, leq), leq)
  {
    if s == [] {
    } else {
      StableSortSorted(Front(s), leq);
      InsertSorted(StableSort(Front(s), leq), Last(s), leq);
    }
  }

  lemma SortMembers<T(!new)>(s: seq<T>, leq: (T, T) -> bool)
    ensures |StableSort(s, leq)| == |s|
    ensures forall x :: x in StableSort(s, leq) <==> x in s
  {
    var r := StableSort(s, leq);
    assert |multiset(r)| == |r| && |multiset(s)| == |s|;
    forall x ensures x in r <==> x in s {
      assert x in r <==> x in multiset(r);
      assert x in s <==> x in multiset(s);
    }
  }

  lemma EmptyTogether<T(!new)>(s: seq<T>, t: seq<T>)
    requires forall x :: x in s <==> x in t
    ensures s == [] <==> t == []
  {
    if s != [] { assert s[0] in t; }
    if t != [] { assert t[0] in s; }
  }

  // ---- runs of true values -------------------------------------------------------------------

  /** The length of the run of true values at the end. */
  function Trailing(flags: seq<bool>): nat {
    if flags == [] || !Last(flags) then 0 else Trailing(Front(flags)) + 1
  }

  // ---- the last of a key, as in a dictionary built in order ---------------------------------

  ghost predicate LastAt<T, K>(s: seq<T>, x: T, key: T -> K, i: int) {
    0 <= i < |s| && s[i] == x && forall j :: i < j < |s| ==> key(s[j]) != key(x)
  }

  /** x stands in s, and nothing with its key stands after it. */
  ghost predicate IsLast<T, K>(s: seq<T>, x: T, key: T -> K) {
    exists i :: LastAt(s, x, key, i)
  }

  lemma NoLast<T, K>(x: T, key: T -> K)
    ensures !IsLast([], x, key)
  {
  }

  lemma IsLastStep<T, K>(s: seq<T>, x: T, key: T -> K)
    requires s != []
    ensures IsLast(s, x, key) <==> if key(Last(s)) == key(x) then Last(s) == x else IsLast(Front(s), x, key)
  {
    if key(Last(s)) == key(x) {
      if i :| LastAt(s, x, key, i) { assert i == |s| - 1; }
      if Last(s) == x { assert LastAt(s, x, key, |s| - 1); }
    } else {
      if i :| LastAt(s, x, key, i) { assert LastAt(Front(s), x, key, i); }
      if i :| LastAt(Front(s), x, key, i) { assert LastAt(s, x, key, i); }
    }
  }

  lemma ThreeParts<T>(a: seq<T>, b: seq<T>, c: seq<T>, x: T)
    ensures multiset(a + b + c)[x] == multiset(a)[x] + multiset(b)[x] + multiset(c)[x]
  {
  }

  // ---- distinctness ------------------------------------------------------------------------

  ghost predicate NoDuplicates<T>(s: seq<T>) {
    forall i, j :: 0 <= i < j < |s| ==> s[i] != s[j]
  }

  lemma {:induction false} DistinctCount<T>(s: seq<T>)
    requires NoDuplicates(s)
    ensures |set x | x in s| == |s|
  {
    if s == [] {
    } else {
      DistinctCount(Front(s));
      assert s == Front(s) + [Last(s)];
      assert (set x | x in s) == (set x | x in Front(s)) + {Last(s)};
    }
  }

  lemma SubsetSize<T>(a: set<T>, b: set<T>)
    requires a <= b
    ensures |a| <= |b|
  {
    assert b == a + (b - a);
  }

  lemma {:induction false} DistinctMultiset<T>(s: seq<T>, x: T)
    requires NoDuplicates(s)
    ensures multiset(s)[x] == if x in s then 1 else 0
  {
    if s == [] {
    } else {
      DistinctMultiset(Front(s), x);
      assert s == Front(s) + [Last(s)];
    }
  }

  lemma {:induction false} TwoOccurrences<T>(s: seq<T>, i: nat, j: nat)
    requires i < j < |s| && s[i] == s[j]
    ensures multiset(s)[s[i]] >= 2
  {
    assert s == Front(s) + [Last(s)];
    if j < |s| - 1 {
      TwoOccurrences(Front(s), i, j);
    } else {
      assert Front(s)[i] in multiset(Front(s));
    }
  }

  lemma SortDistinct<T>(s: seq<T>, leq: (T, T) -> bool)
    requires NoDuplicates(s)
    ensures NoDuplicates(StableSort(s, leq))
  {
    var r := StableSort(s, leq);
    forall i, j | 0 <= i < j < |r| ensures r[i] != r[j] {
      DistinctMultiset(s, r[i]);
      if r[i] == r[j] { TwoOccurrences(r, i, j); }
    }
  }
}
