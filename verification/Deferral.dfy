/**
 * Connections parked until the signature of their process is known: EnrichmentDeferral in
 * src/threatlens/detection/rules/base.py and the deferring rules of detection/rules/network.py. A fact is
 * the number of the event that carried it, so that two equal connections stay apart.
 */
module Deferral {
  import opened Collections
  import opened ProcessModels
  import opened LruCache

  const MAX_DEFERRED_PROCESSES: nat := 4096
  const MAX_DEFERRED_PER_PROCESS: nat := 32

  type Fact = nat

  /** What a deferring rule is handed; owner is what the state knows about the process at that moment. */
  datatype Event =
    | Enriched(key: Option<ProcessKey>, owner: Option<ProcessInfo>)
    | Connection(key: Option<ProcessKey>, owner: Option<ProcessInfo>, candidate: bool)

  datatype Parked = Parked(order: seq<ProcessKey>, buckets: map<ProcessKey, seq<Fact>>)

  /** judged is what is passed to judge; lost is what will never be. */
  datatype Effect = Effect(state: Parked, judged: seq<Fact>, lost: seq<Fact>)

  predicate EnrichmentPending(p: ProcessInfo) {
    p.exe.Some? && p.signature.None? && p.sha256.None? && "sha256" !in p.unavailable
  }

  function Bucket(s: Parked, key: ProcessKey): seq<Fact> {
    if key in s.buckets then s.buckets[key] else []
  }

  function Appended(bucket: seq<Fact>, fact: Fact): seq<Fact> {
    if |bucket| < MAX_DEFERRED_PER_PROCESS then bucket + [fact] else bucket
  }

  function Filed(s: Parked, key: ProcessKey, fact: Fact): Parked {
    var order := Touch(s.order, key, MAX_DEFERRED_PROCESSES);
    Parked(order, map k | k in order :: if k == key then Appended(Bucket(s, key), fact) else Bucket(s, k))
  }

  function Released(s: Parked, key: ProcessKey): Parked {
    Parked(Remove(s.order, key), s.buckets - {key})
  }

  /** The bucket that parking for key pushes out. */
  function Evicted(s: Parked, key: ProcessKey): seq<Fact> {
    if key !in s.order && |s.order| >= MAX_DEFERRED_PROCESSES then Bucket(s, s.order[0]) else []
  }

  /** The process a connection has to wait for, if it has to. */
  function Defers(e: Event): Option<ProcessKey> {
    if Relevant(e) && EnrichmentPending(e.owner.value) then e.key else None
  }

  /** A connection of a known process that the rule is interested in. */
  predicate Relevant(e: Event) {
    e.Connection? && e.key.Some? && e.owner.Some? && e.candidate
  }

  function Evaluated(s: Parked, e: Event, fact: Fact): Effect {
    if e.Enriched? then
      if e.key.None? then Effect(s, [], [])
      else
        var parked := Bucket(s, e.key.value);
        if e.owner.None? then Effect(Released(s, e.key.value), [], parked)
        else Effect(Released(s, e.key.value), parked, [])
    else if !Relevant(e) then Effect(s, [], [])
    else if Defers(e).Some? then
      Effect(Filed(s, e.key.value, fact), [],
             Evicted(s, e.key.value) + if |Bucket(s, e.key.value)| < MAX_DEFERRED_PER_PROCESS then [] else [fact])
    else Effect(s, [fact], [])
  }

  // ---- the object ----------------------------------------------------------------------------------------

  lemma IsFiled(s: Parked, key: ProcessKey, fact: Fact, s': Parked)
    requires s'.order == Touch(s.order, key, MAX_DEFERRED_PROCESSES)
    requires forall k :: k in s'.buckets <==> k in s'.order
    requires forall k :: k in s'.buckets ==>
               s'.buckets[k] == if k == key then Appended(Bucket(s, key), fact) else Bucket(s, k)
    ensures s' == Filed(s, key, fact)
  {
    hide Touch, Bucket, Appended;
  }

  class EnrichmentDeferral {
    var order: seq<ProcessKey>
    var pending: map<ProcessKey, seq<Fact>>

    function State(): Parked
      reads this
    {
      Parked(order, pending)
    }

    ghost predicate Valid()
      reads this
    {
      NoDuplicates(order) && |order| <= MAX_DEFERRED_PROCESSES && forall k :: k in pending <==> k in order
    }

    constructor ()
      ensures Valid() && State() == Parked([], map[])
    {
      order, pending := [], map[];
    }

    method Park(key: ProcessKey, fact: Fact)
      requires Valid()
      modifies this
      ensures Valid() && State() == Filed(old(State()), key, fact)
    {
      hide Touch, LastN, Filed, Bucket, Appended, NoDuplicates;
      Append(key, fact);
      LastNDistinct(order, MAX_DEFERRED_PROCESSES);
      order, pending := EvictOldest(order, pending, MAX_DEFERRED_PROCESSES);
      IsFiled(old(State()), key, fact, State());
    }

    /** setdefault, move_to_end and the bounded append. */
    method Append(key: ProcessKey, fact: Fact)
      requires Valid()
      modifies this
      ensures NoDuplicates(order) && forall k :: k in pending <==> k in order
      ensures LastN(order, MAX_DEFERRED_PROCESSES) == Touch(old(order), key, MAX_DEFERRED_PROCESSES)
      ensures forall k :: k in pending ==>
                pending[k] == if k == key then Appended(Bucket(old(State()), key), fact) else Bucket(old(State()), k)
    {
      hide Remove, LastN;
      RemoveMembers(order, key);
      MovedToEnd(order, key);
      if key !in pending {
        pending := pending[key := []];
      }
      order := Remove(order, key) + [key];
      assert forall k :: k in order <==> k in Remove(old(order), key) || k == key;
      if |pending[key]| < MAX_DEFERRED_PER_PROCESS {
        pending := pending[key := pending[key] + [fact]];
      }
    }

    method Release(key: ProcessKey) returns (facts: seq<Fact>)
      requires Valid()
      modifies this
      ensures Valid() && State() == Released(old(State()), key)
      ensures facts == Bucket(old(State()), key)
    {
      hide Remove;
      RemoveMembers(order, key);
      RemoveDistinct(order, key);
      facts := if key in pending then pending[key] else [];
      order := Remove(order, key);
      pending := pending - {key};
    }
  }

  /** A rule that waits for enrichment; judged is what it passes to judge, nothing standing for no call. */
  class DeferringNetworkRule {
    const deferred: EnrichmentDeferral

    constructor ()
      ensures fresh(deferred) && deferred.Valid() && deferred.State() == Parked([], map[])
    {
      deferred := new EnrichmentDeferral();
    }

    method Evaluate(e: Event, fact: Fact) returns (judged: seq<Fact>)
      requires deferred.Valid()
      modifies deferred
      ensures deferred.Valid()
      ensures deferred.State() == Evaluated(old(deferred.State()), e, fact).state
      ensures judged == Evaluated(old(deferred.State()), e, fact).judged
    {
      if e.Enriched? {
        var parked := [];
        if e.key.Some? {
          parked := deferred.Release(e.key.value);
        }
        if e.owner.None? || parked == [] {
          return [];
        }
        return parked;
      }
      if e.key.None? || e.owner.None? || !e.candidate {
        return [];
      }
      if EnrichmentPending(e.owner.value) {
        deferred.Park(e.key.value, fact);
        return [];
      }
      return [fact];
    }
  }

  // ---- runs ------------------------------------------------------------------------------------------------

  function Run(events: seq<Event>): Parked {
    if events == [] then Parked([], map[]) else Evaluated(Run(Front(events)), Last(events), |events| - 1).state
  }

  function Judged(events: seq<Event>): seq<Fact> {
    if events == [] then []
    else Judged(Front(events)) + Evaluated(Run(Front(events)), Last(events), |events| - 1).judged
  }

  function Lost(events: seq<Event>): seq<Fact> {
    if events == [] then []
    else Lost(Front(events)) + Evaluated(Run(Front(events)), Last(events), |events| - 1).lost
  }

  ghost predicate Bounded(s: Parked) {
    && NoDuplicates(s.order)
    && |s.order| <= 4096
    && (forall k :: k in s.buckets <==> k in s.order)
    && (forall k :: k in s.buckets ==> 1 <= |s.buckets[k]| <= 32)
  }

  lemma TouchEffect(order: seq<ProcessKey>, key: ProcessKey, n: nat)
    requires n >= 1 && NoDuplicates(order) && |order| <= n
    ensures var now := Touch(order, key, n);
            && NoDuplicates(now) && |now| <= n && key in now
            && forall k :: k in now <==> k == key || (k in order && !(key !in order && |order| >= n && k == order[0]))
  {
    hide Remove;
    RemoveMembers(order, key);
    RemoveDistinct(order, key);
    MovedToEnd(order, key);
    var all := Remove(order, key) + [key];
    assert Last(all) == key;
    if key !in order {
      RemoveAbsent(order, key);
      if |order| >= n {
        assert all == [order[0]] + order[1..] + [key];
        assert LastN(all, n) == order[1..] + [key];
      }
    } else {
      assert LastN(all, n) == all;
    }
  }

  lemma StepBounded(s: Parked, e: Event, fact: Fact)
    requires Bounded(s)
    ensures Bounded(Evaluated(s, e, fact).state)
  {
    hide Touch, Remove, EnrichmentPending, Bucket, Released, Filed, Bounded;
    if e.key.Some? {
      ReleasedIsBounded(s, e.key.value);
      FiledIsBounded(s, e.key.value, fact);
    }
  }

  lemma ReleasedIsBounded(s: Parked, key: ProcessKey)
    requires Bounded(s)
    ensures Bounded(Released(s, key))
  {
    hide Remove;
    RemoveMembers(s.order, key);
    RemoveDistinct(s.order, key);
  }

  lemma FiledIsBounded(s: Parked, key: ProcessKey, fact: Fact)
    requires Bounded(s)
    ensures Bounded(Filed(s, key, fact))
  {
    hide Touch, Remove;
    TouchEffect(s.order, key, MAX_DEFERRED_PROCESSES);
  }

  /** Over every run: at most 4096 processes are parked, and no bucket is empty or over 32 facts. */
  lemma {:induction false} AlwaysBounded(events: seq<Event>)
    ensures Bounded(Run(events))
  {
    hide Bounded, Evaluated;
    if events == [] {
      assert Bounded(Parked([], map[])) by { EmptyIsBounded(); }
    } else {
      AlwaysBounded(Front(events));
      StepBounded(Run(Front(events)), Last(events), |events| - 1);
    }
  }

  lemma EmptyIsBounded()
    ensures Bounded(Parked([], map[]))
  {
  }

  // ---- every relevant connection has one fate ------------------------------------------------------------------

  function Times(s: seq<Fact>, x: Fact): nat {
    multiset(s)[x]
  }

  /**
   * Where fact x is: nowhere without a home; otherwise judged, lost or waiting at home, and only one of
   * these, once.
   */
  ghost predicate OneFate(judged: seq<Fact>, lost: seq<Fact>, s: Parked, x: Fact, home: Option<ProcessKey>) {
    && (forall k :: Some(k) != home ==> Times(Bucket(s, k), x) == 0)
    && (if home.None? then Times(judged, x) == Times(lost, x) == 0
        else Times(judged, x) + Times(lost, x) + Times(Bucket(s, home.value), x) == 1)
  }

  /** The process a fact belongs to, once its event has come and was relevant. */
  function Home(events: seq<Event>, x: Fact): Option<ProcessKey> {
    if x < |events| && Relevant(events[x]) then events[x].key else None
  }

  lemma TimesOfSum(a: seq<Fact>, b: seq<Fact>, x: Fact)
    ensures Times(a + b, x) == Times(a, x) + Times(b, x)
  {
  }

  lemma TimesOfOne(y: Fact, x: Fact)
    ensures Times([y], x) == if y == x then 1 else 0
    ensures Times([], x) == 0
  {
  }

  lemma ReleaseBucket(s: Parked, key: ProcessKey, k: ProcessKey)
    ensures Bucket(Released(s, key), k) == if k == key then [] else Bucket(s, k)
  {
  }

  lemma ParkBucket(s: Parked, key: ProcessKey, fact: Fact, k: ProcessKey)
    requires Bounded(s)
    ensures Bucket(Filed(s, key, fact), k) ==
            if k == key then Appended(Bucket(s, key), fact)
            else if key !in s.order && |s.order| >= MAX_DEFERRED_PROCESSES && k == s.order[0] then []
            else Bucket(s, k)
  {
    hide Touch;
    TouchEffect(s.order, key, MAX_DEFERRED_PROCESSES);
  }

  /** Which of its buckets fact x is in after a release, and after parking. */
  lemma ReleaseFate(s: Parked, e: Event, fact: Fact, judged: seq<Fact>, lost: seq<Fact>, x: Fact,
                    home: Option<ProcessKey>)
    requires e.Enriched? && e.key.Some? && OneFate(judged, lost, s, x, home)
    ensures var r := Evaluated(s, e, fact); OneFate(judged + r.judged, lost + r.lost, r.state, x, home)
  {
    hide Times, Bucket, Released;
    var key, r := e.key.value, Evaluated(s, e, fact);
    TimesOfSum(judged, r.judged, x);
    TimesOfSum(lost, r.lost, x);
    TimesOfOne(x, x);
    forall k ensures Bucket(r.state, k) == if k == key then [] else Bucket(s, k) {
      ReleaseBucket(s, key, k);
    }
  }

  lemma ParkFate(s: Parked, e: Event, fact: Fact, judged: seq<Fact>, lost: seq<Fact>, x: Fact, home: Option<ProcessKey>)
    requires Bounded(s) && Defers(e).Some? && OneFate(judged, lost, s, x, home) && (x == fact ==> home == None)
    ensures var r := Evaluated(s, e, fact);
            OneFate(judged + r.judged, lost + r.lost, r.state, x, if x == fact then e.key else home)
  {
    hide Times, Bucket, Filed, Bounded;
    var key, r := e.key.value, Evaluated(s, e, fact);
    var full := |Bucket(s, key)| >= MAX_DEFERRED_PER_PROCESS;
    assert judged + [] == judged;
    TimesOfSum(lost, r.lost, x);
    TimesOfSum(Evicted(s, key), if full then [fact] else [], x);
    TimesOfSum(Bucket(s, key), [fact], x);
    TimesOfOne(fact, x);
    forall k
      ensures Bucket(r.state, k) ==
              if k == key then Appended(Bucket(s, key), fact)
              else if key !in s.order && |s.order| >= MAX_DEFERRED_PROCESSES && k == s.order[0] then []
              else Bucket(s, k)
    {
      ParkBucket(s, key, fact, k);
    }
  }

  lemma StepFate(s: Parked, e: Event, fact: Fact, judged: seq<Fact>, lost: seq<Fact>, x: Fact, home: Option<ProcessKey>)
    requires Bounded(s) && OneFate(judged, lost, s, x, home) && (x == fact ==> home == None)
    ensures var r := Evaluated(s, e, fact);
            OneFate(judged + r.judged, lost + r.lost, r.state, x, if x == fact && Relevant(e) then e.key else home)
  {
    hide Bounded, Times, Bucket, Released, Filed;
    assert judged + [] == judged && lost + [] == lost;
    if e.Enriched? && e.key.Some? {
      ReleaseFate(s, e, fact, judged, lost, x, home);
    } else if Defers(e).Some? {
      ParkFate(s, e, fact, judged, lost, x, home);
    } else if Relevant(e) {
      TimesOfSum(judged, [fact], x);
      TimesOfOne(fact, x);
    }
  }

  /**
   * In any run every relevant connection is passed to judge once, or is lost once, or is waiting once in
   * the bucket of its own process; and nothing else is ever judged. So none is judged twice.
   */
  lemma {:induction false} EveryFactHasOneFate(events: seq<Event>, x: Fact)
    ensures OneFate(Judged(events), Lost(events), Run(events), x, Home(events, x))
  {
    hide OneFate, Evaluated, Bounded;
    if events == [] {
      NoFates(x);
    } else {
      EveryFactHasOneFate(Front(events), x);
      AlwaysBounded(Front(events));
      StepFate(Run(Front(events)), Last(events), |events| - 1, Judged(Front(events)), Lost(Front(events)), x,
               Home(Front(events), x));
    }
  }

  lemma NoFates(x: Fact)
    ensures OneFate([], [], Parked([], map[]), x, None)
  {
  }

  lemma JudgedAtMostOnce(events: seq<Event>)
    ensures NoDuplicates(Judged(events))
    ensures forall x :: x in Judged(events) ==> x < |events| && Relevant(events[x]) && x !in Lost(events)
  {
    hide Judged, Lost, Run;
    var judged := Judged(events);
    forall i: nat, j: nat | i < j < |judged| ensures judged[i] != judged[j] {
      EveryFactHasOneFate(events, judged[i]);
      if judged[i] == judged[j] {
        TwoOccurrences(judged, i, j);
      }
    }
    forall x | x in judged ensures x < |events| && Relevant(events[x]) && x !in Lost(events) {
      EveryFactHasOneFate(events, x);
      assert x in multiset(judged);
      assert x in Lost(events) ==> x in multiset(Lost(events));
    }
  }

  // ---- who has to wait -------------------------------------------------------------------------------------

  /** Nothing more will become known: no program file, or its signature or hash is known, or the hash cannot be. */
  predicate Settled(p: ProcessInfo) {
    p.exe == None || p.signature != None || p.sha256 != None || "sha256" in p.unavailable
  }

  /** A connection the rule is interested in, of a process about which more will become known. */
  predicate MustWait(e: Event, key: ProcessKey) {
    e.Connection? && e.candidate && e.key == Some(key) && e.owner.Some? && !Settled(e.owner.value)
  }

  /**
   * A connection is judged at once exactly when the rule is interested in it, its process is known and nothing more
   * will become known about that; it waits exactly when more will; otherwise it is ignored.
   */
  lemma JudgedAtOnceExactlyWhen(s: Parked, e: Event, fact: Fact)
    requires e.Connection?
    ensures var r := Evaluated(s, e, fact);
            && (forall key :: Defers(e) == Some(key) <==> MustWait(e, key))
            && (r.judged == [fact] <==> e.candidate && e.key.Some? && e.owner.Some? && Settled(e.owner.value))
            && (r.judged == [] || r.judged == [fact])
            && (r.judged == [] && (forall key :: !MustWait(e, key)) ==> r == Effect(s, [], []))
            && (r.judged == [fact] ==> r.state == s && r.lost == [])
  {
    if Relevant(e) { assert MustWait(e, e.key.value) <==> EnrichmentPending(e.owner.value); }
  }

  /**
   * A connection that has to wait joins those of its process unless there are 32, in which case it is lost. If
   * 4096 other processes have connections waiting, those of the one that has had none for longest are lost too.
   */
  lemma ParkingLoses(s: Parked, e: Event, fact: Fact, key: ProcessKey)
    requires Bounded(s) && MustWait(e, key)
    ensures var r, mine := Evaluated(s, e, fact), Bucket(s, key);
            var crowded := mine == [] && |s.order| == 4096;
            && Bucket(r.state, key) == mine + (if |mine| < 32 then [fact] else [])
            && (forall k :: k != key ==>
                  Bucket(r.state, k) == if crowded && k == s.order[0] then [] else Bucket(s, k))
            && r.lost == (if crowded then Bucket(s, s.order[0]) else []) + if |mine| < 32 then [] else [fact]
  {
    hide Touch, Filed;
    JudgedAtOnceExactlyWhen(s, e, fact);
    assert Defers(e) == Some(key);
    var r, crowded := Evaluated(s, e, fact), key !in s.order && |s.order| >= 4096;
    assert r.state == Filed(s, key, fact);
    assert key in s.order <==> Bucket(s, key) != [];
    forall k
      ensures Bucket(r.state, k) ==
              if k == key then Appended(Bucket(s, key), fact)
              else if crowded && k == s.order[0] then [] else Bucket(s, k)
    {
      ParkBucket(s, key, fact, k);
    }
    assert Bucket(s, key) + [] == Bucket(s, key);
  }

  // ---- when nothing is lost ----------------------------------------------------------------------------------

  predicate Enriches(e: Event, key: ProcessKey) {
    e.Enriched? && e.key == Some(key)
  }

  /** The connections of a process that have to wait and came after its last enrichment event. */
  function Unjudged(events: seq<Event>, key: ProcessKey): seq<Fact> {
    if events == [] then []
    else if Enriches(Last(events), key) then []
    else Unjudged(Front(events), key) + if Defers(Last(events)) == Some(key) then [|events| - 1] else []
  }

  /** Parking this event neither fills up the bucket of its process nor pushes another process out. */
  ghost predicate Roomy(s: Parked, e: Event) {
    Defers(e).Some? ==>
      && |Bucket(s, Defers(e).value)| < 32
      && (Defers(e).value in s.order || |s.order| < 4096)
  }

  ghost predicate NeverFull(events: seq<Event>) {
    events == [] || (NeverFull(Front(events)) && Roomy(Run(Front(events)), Last(events)))
  }

  lemma {:induction false} WaitingIsUnjudged(events: seq<Event>, key: ProcessKey)
    requires NeverFull(events)
    ensures Bucket(Run(events), key) == Unjudged(events, key)
  {
    hide Bucket, Filed, Released, Bounded;
    if events == [] {
      assert Bucket(Parked([], map[]), key) == [] by { NoBucket(key); }
    } else {
      WaitingIsUnjudged(Front(events), key);
      AlwaysBounded(Front(events));
      var s, e := Run(Front(events)), Last(events);
      assert Unjudged(Front(events), key) + [] == Unjudged(Front(events), key);
      if e.key.Some? {
        ReleaseBucket(s, e.key.value, key);
        ParkBucket(s, e.key.value, |events| - 1, key);
      }
    }
  }

  lemma NoBucket(key: ProcessKey)
    ensures Bucket(Parked([], map[]), key) == []
  {
  }

  /**
   * When neither bound was hit, the enrichment event of a process the state knows passes to judge exactly
   * the connections that have been waiting for it, in order of arrival.
   */
  lemma EnrichmentJudgesAllWaiting(events: seq<Event>, key: ProcessKey, owner: ProcessInfo)
    requires NeverFull(events)
    ensures Evaluated(Run(events), Enriched(Some(key), Some(owner)), |events|).judged == Unjudged(events, key)
    ensures forall i :: 0 <= i < |events| && MustWait(events[i], key)
                        && (forall j :: i < j < |events| ==> !Enriches(events[j], key)) ==>
              i in Unjudged(events, key)
  {
    hide Bucket, Run, Unjudged;
    WaitingIsUnjudged(events, key);
    forall i: nat | i < |events| && MustWait(events[i], key)
                    && (forall j :: i < j < |events| ==> !Enriches(events[j], key))
      ensures i in Unjudged(events, key)
    {
      StillWaiting(events, key, i);
    }
  }

  lemma {:induction false} StillWaiting(events: seq<Event>, key: ProcessKey, i: nat)
    requires i < |events| && Defers(events[i]) == Some(key)
    requires forall j :: i < j < |events| ==> !Enriches(events[j], key)
    ensures i in Unjudged(events, key)
  {
    if i < |events| - 1 {
      assert !Enriches(events[|events| - 1], key);
      StillWaiting(Front(events), key, i);
    }
  }

  /** Without the process being known the same event throws them away. */
  lemma UnknownProcessLosesThem(events: seq<Event>, key: ProcessKey)
    requires NeverFull(events)
    ensures var r := Evaluated(Run(events), Enriched(Some(key), None), |events|);
            r.judged == [] && r.lost == Unjudged(events, key) && Bucket(r.state, key) == []
  {
    hide Bucket, Run, Unjudged, Released;
    WaitingIsUnjudged(events, key);
    ReleaseBucket(Run(events), key, key);
  }
}
