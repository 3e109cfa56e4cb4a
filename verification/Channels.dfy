/**
 * A bounded first-in first-out queue that drops its oldest item when full, with the history needed to
 * account for every item ever accepted. The event bus and the database writer both use it.
 */
module Channels {
  import opened Collections

  datatype Fate = Taken | Overflowed

  /** queue is the real content; accepted and fates record what was let in and what became of it. */
  datatype Channel<T> = Channel(capacity: nat, queue: seq<T>, accepted: seq<T>, fates: seq<Fate>)

  function Open<T>(capacity: nat): Channel<T> {
    Channel(capacity, [], [], [])
  }

  predicate Full<T>(c: Channel<T>) {
    c.queue != [] && |c.queue| >= c.capacity
  }

  function Push<T>(c: Channel<T>, x: T): Channel<T> {
    if Full(c) then Channel(c.capacity, c.queue[1..] + [x], c.accepted + [x], c.fates + [Overflowed])
    else Channel(c.capacity, c.queue + [x], c.accepted + [x], c.fates)
  }

  function Pop<T>(c: Channel<T>): Channel<T>
    requires c.queue != []
  {
    c.(queue := c.queue[1..], fates := c.fates + [Taken])
  }

  function PopMany<T>(c: Channel<T>, n: nat): Channel<T>
    requires n <= |c.queue|
    decreases n
  {
    if n == 0 then c else PopMany(Pop(c), n - 1)
  }

  /** The items with a given fate, oldest first. */
  function Pick<T>(items: seq<T>, fates: seq<Fate>, fate: Fate): seq<T>
    requires |fates| <= |items|
  {
    if fates == [] then []
    else Pick(items, Front(fates), fate) + if Last(fates) == fate then [items[|fates| - 1]] else []
  }

  /** What is queued is the contiguous end of what was accepted; every item before it has one fate. */
  ghost predicate Sound<T>(c: Channel<T>) {
    && c.capacity >= 1
    && |c.queue| <= c.capacity
    && |c.fates| + |c.queue| == |c.accepted|
    && c.queue == c.accepted[|c.fates|..]
  }

  function TakenFrom<T>(c: Channel<T>): seq<T> {
    if |c.fates| <= |c.accepted| then Pick(c.accepted, c.fates, Taken) else []
  }

  function LostFrom<T>(c: Channel<T>): seq<T> {
    if |c.fates| <= |c.accepted| then Pick(c.accepted, c.fates, Overflowed) else []
  }

  lemma {:induction false} PickFromLonger<T>(items: seq<T>, more: seq<T>, fates: seq<Fate>, fate: Fate)
    requires |fates| <= |items|
    ensures Pick(items + more, fates, fate) == Pick(items, fates, fate)
  {
    if fates == [] {
    } else {
      PickFromLonger(items, more, Front(fates), fate);
    }
  }

  lemma PushEffect<T>(c: Channel<T>, x: T)
    requires Sound(c)
    ensures Sound(Push(c, x))
    ensures TakenFrom(Push(c, x)) == TakenFrom(c)
    ensures LostFrom(Push(c, x)) == if Full(c) then LostFrom(c) + [c.queue[0]] else LostFrom(c)
  {
    PickFromLonger(c.accepted, [x], c.fates, Taken);
    PickFromLonger(c.accepted, [x], c.fates, Overflowed);
    var p := Push(c, x);
    if Full(c) {
      assert Front(p.fates) == c.fates;
    }
  }

  lemma PopEffect<T>(c: Channel<T>)
    requires Sound(c) && c.queue != []
    ensures Sound(Pop(c))
    ensures TakenFrom(Pop(c)) == TakenFrom(c) + [c.queue[0]]
    ensures LostFrom(Pop(c)) == LostFrom(c)
  {
    assert Front(Pop(c).fates) == c.fates;
  }

  lemma {:induction false} PopManyShape<T>(c: Channel<T>, n: nat)
    requires n <= |c.queue|
    ensures PopMany(c, n) == Channel(c.capacity, c.queue[n..], c.accepted, PopMany(c, n).fates)
    ensures n == 0 ==> PopMany(c, n) == c
    decreases n
  {
    if n == 0 {
    } else {
      PopManyShape(Pop(c), n - 1);
    }
  }

  lemma {:induction false} PopManyEffect<T>(c: Channel<T>, n: nat)
    requires Sound(c) && n <= |c.queue|
    ensures var p := PopMany(c, n);
            && Sound(p)
            && p.queue == c.queue[n..] && p.accepted == c.accepted && p.capacity == c.capacity
            && TakenFrom(p) == TakenFrom(c) + c.queue[..n]
            && LostFrom(p) == LostFrom(c)
    decreases n
  {
    hide Pick;
    if n > 0 {
      PopEffect(c);
      PopManyEffect(Pop(c), n - 1);
      assert c.queue[..n] == [c.queue[0]] + c.queue[1..][..n - 1];
    }
  }

  // ---- accounting --------------------------------------------------------------------------------

  /** Every accepted item is queued, was taken, or was dropped: each exactly once. */
  lemma EveryItemAccounted<T>(c: Channel<T>)
    requires Sound(c)
    ensures multiset(c.accepted) == multiset(TakenFrom(c)) + multiset(LostFrom(c)) + multiset(c.queue)
    ensures |c.accepted| == |TakenFrom(c)| + |LostFrom(c)| + |c.queue|
  {
    PickPartitions(c.accepted, c.fates);
    assert c.accepted == c.accepted[..|c.fates|] + c.queue;
  }

  lemma PickStep<T>(items: seq<T>, fates: seq<Fate>, fate: Fate)
    requires fates != [] && |fates| <= |items|
    ensures Pick(items, fates, fate) ==
            if Last(fates) == fate then Pick(items, Front(fates), fate) + [items[|fates| - 1]]
            else Pick(items, Front(fates), fate)
  {
  }

  lemma OneMore<T>(s: seq<T>, a: seq<T>, b: seq<T>, x: T)
    requires multiset(s) == multiset(a) + multiset(b)
    ensures multiset(s + [x]) == multiset(a + [x]) + multiset(b)
    ensures multiset(s + [x]) == multiset(a) + multiset(b + [x])
  {
  }

  function Prefix<T>(s: seq<T>, n: nat): seq<T>
    requires n <= |s|
  {
    s[..n]
  }

  lemma PrefixStep<T>(s: seq<T>, n: nat)
    requires 0 < n <= |s|
    ensures Prefix(s, n) == Prefix(s, n - 1) + [s[n - 1]]
  {
  }

  /** The items that have a fate split into those taken and those dropped. */
  ghost predicate Partitioned<T>(items: seq<T>, fates: seq<Fate>)
    requires |fates| <= |items|
  {
    && multiset(Prefix(items, |fates|)) ==
       multiset(Pick(items, fates, Taken)) + multiset(Pick(items, fates, Overflowed))
    && |fates| == |Pick(items, fates, Taken)| + |Pick(items, fates, Overflowed)|
  }

  lemma {:induction false} PickPartitions<T>(items: seq<T>, fates: seq<Fate>)
    requires |fates| <= |items|
    ensures Partitioned(items, fates)
  {
    hide Partitioned;
    if fates == [] {
      NothingToPartition(items);
    } else {
      PickPartitions(items, Front(fates));
      NextPartition(items, fates);
    }
  }

  lemma NothingToPartition<T>(items: seq<T>)
    ensures Partitioned(items, [])
  {
  }

  lemma NextPartition<T>(items: seq<T>, fates: seq<Fate>)
    requires fates != [] && |fates| <= |items| && Partitioned(items, Front(fates))
    ensures Partitioned(items, fates)
  {
    hide Pick, Prefix;
    PickStep(items, fates, Taken);
    PickStep(items, fates, Overflowed);
    PrefixStep(items, |fates|);
    Extend(Prefix(items, |fates| - 1), Pick(items, Front(fates), Taken), Pick(items, Front(fates), Overflowed),
           items[|fates| - 1], Prefix(items, |fates|), Pick(items, fates, Taken), Pick(items, fates, Overflowed));
  }

  lemma Extend<T>(s: seq<T>, a: seq<T>, b: seq<T>, x: T, s': seq<T>, a': seq<T>, b': seq<T>)
    requires multiset(s) == multiset(a) + multiset(b)
    requires s' == s + [x] && ((a' == a + [x] && b' == b) || (a' == a && b' == b + [x]))
    ensures multiset(s') == multiset(a') + multiset(b')
  {
    OneMore(s, a, b, x);
  }

  // ---- order ---------------------------------------------------------------------------------------

  /** a can be obtained from b by leaving items out. */
  ghost predicate Subsequence<T>(a: seq<T>, b: seq<T>) {
    a == [] || (b != [] && ((Last(a) == Last(b) && Subsequence(Front(a), Front(b))) || Subsequence(a, Front(b))))
  }

  lemma {:induction false} PickIsSubsequence<T>(items: seq<T>, fates: seq<Fate>, fate: Fate)
    requires |fates| <= |items|
    ensures Subsequence(Pick(items, fates, fate), items[..|fates|])
  {
    hide Pick;
    if fates == [] {
      assert Pick(items, [], fate) == [] by { EmptyPick(items, fate); }
    } else {
      PickIsSubsequence(items, Front(fates), fate);
      PickStep(items, fates, fate);
      assert Front(items[..|fates|]) == items[..|fates| - 1];
      if Last(fates) == fate {
        assert Front(Pick(items, fates, fate)) == Pick(items, Front(fates), fate);
      }
    }
  }

  lemma EmptyPick<T>(items: seq<T>, fate: Fate)
    ensures Pick(items, [], fate) == []
  {
  }

  lemma ExtendBoth<T>(a: seq<T>, b: seq<T>, x: T)
    requires Subsequence(a, b)
    ensures Subsequence(a + [x], b + [x])
  {
    assert Front(a + [x]) == a && Front(b + [x]) == b;
  }

  lemma {:induction false} SubsequenceOfLonger<T>(a: seq<T>, b: seq<T>, more: seq<T>)
    requires Subsequence(a, b)
    ensures Subsequence(a, b + more)
  {
    if more == [] {
      assert b + more == b;
    } else {
      SubsequenceOfLonger(a, b, Front(more));
      assert Front(b + more) == b + Front(more);
    }
  }

  lemma {:induction false} SubsequenceTransitive<T>(a: seq<T>, b: seq<T>, c: seq<T>)
    requires Subsequence(a, b) && Subsequence(b, c)
    ensures Subsequence(a, c)
    decreases |b| + |c|
  {
    if a == [] {
    } else {
      if Last(b) == Last(c) && Subsequence(Front(b), Front(c)) {
        if Last(a) == Last(b) && Subsequence(Front(a), Front(b)) {
          SubsequenceTransitive(Front(a), Front(b), Front(c));
        } else {
          SubsequenceTransitive(a, Front(b), Front(c));
        }
      } else {
        SubsequenceTransitive(a, b, Front(c));
      }
    }
  }

  lemma TakenIsSubsequence<T>(c: Channel<T>)
    requires Sound(c)
    ensures Subsequence(TakenFrom(c), c.accepted)
  {
    PickIsSubsequence(c.accepted, c.fates, Taken);
    SubsequenceOfLonger(TakenFrom(c), c.accepted[..|c.fates|], c.queue);
    assert c.accepted == c.accepted[..|c.fates|] + c.queue;
  }
}
