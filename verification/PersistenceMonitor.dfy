/** Autostart entries diffed into persistence events: src/threatlens/monitors/persistence_monitor.py. */
module PersistenceMonitor {
  import opened Collections

  datatype Item = Item(key: string, command: Option<string>, enabled: bool)

  datatype Event =
    | Discovered(item: Item)
    | Added(item: Item)
    | Removed(item: Item)
    | Changed(item: Item, previousCommand: Option<string>)

  /** Text order, character by character. */
  predicate TextLeq(a: string, b: string) {
    a == "" || (b != "" && (a[0] < b[0] || (a[0] == b[0] && TextLeq(a[1..], b[1..]))))
  }

  predicate KeyLeq(a: Item, b: Item) {
    TextLeq(a.key, b.key)
  }

  /** {i.item_key: i for i in items}: the last entry with a key wins. */
  function ByKey(items: seq<Item>): (m: map<string, Item>)
    ensures forall k :: k in m ==> m[k] in items && m[k].key == k
    ensures forall i :: i in items ==> i.key in m
  {
    if items == [] then map[] else ByKey(Front(items))[Last(items).key := Last(items)]
  }

  function Discoveries(list: seq<Item>): seq<Event> {
    seq(|list|, i requires 0 <= i < |list| => Discovered(list[i]))
  }

  function InventoryEvents(items: seq<Item>): seq<Event> {
    Discoveries(StableSort(items, KeyLeq))
  }

  predicate Differs(a: Item, b: Item) {
    a.command != b.command || a.enabled != b.enabled
  }

  // ---- what a diff is --------------------------------------------------------------------------------------

  ghost predicate IsListing(list: seq<string>, keys: set<string>) {
    && SortedBy(list, TextLeq)
    && NoDuplicates(list)
    && (forall k :: k in list <==> k in keys)
  }

  datatype Diff = Diff(added: seq<string>, removed: seq<string>, changed: seq<string>)

  ghost predicate IsDiff(d: Diff, before: map<string, Item>, after: map<string, Item>) {
    && IsListing(d.added, after.Keys - before.Keys)
    && IsListing(d.removed, before.Keys - after.Keys)
    && IsListing(d.changed, set k | k in before && k in after && Differs(before[k], after[k]))
  }

  function AddedEvents(keys: seq<string>, after: map<string, Item>): seq<Event>
    requires forall k :: k in keys ==> k in after
  {
    seq(|keys|, i requires 0 <= i < |keys| => Added(after[keys[i]]))
  }

  function RemovedEvents(keys: seq<string>, before: map<string, Item>): seq<Event>
    requires forall k :: k in keys ==> k in before
  {
    seq(|keys|, i requires 0 <= i < |keys| => Removed(before[keys[i]]))
  }

  function ChangedEvents(keys: seq<string>, before: map<string, Item>, after: map<string, Item>): seq<Event>
    requires forall k :: k in keys ==> k in before && k in after
  {
    seq(|keys|, i requires 0 <= i < |keys| => Changed(after[keys[i]], before[keys[i]].command))
  }

  ghost function Events(d: Diff, before: map<string, Item>, after: map<string, Item>): seq<Event>
    requires IsDiff(d, before, after)
  {
    AddedEvents(d.added, after) + RemovedEvents(d.removed, before) + ChangedEvents(d.changed, before, after)
  }

  // ---- text order ------------------------------------------------------------------------------------------

  lemma {:induction false} TextLeqTotal(a: string, b: string)
    ensures TextLeq(a, b) || TextLeq(b, a)
    ensures a == b ==> TextLeq(a, b)
  {
    if a != "" && b != "" && a[0] == b[0] {
      TextLeqTotal(a[1..], b[1..]);
    }
  }

  lemma {:induction false} TextLeqTransitive(a: string, b: string, c: string)
    requires TextLeq(a, b) && TextLeq(b, c)
    ensures TextLeq(a, c)
  {
    if a != "" && a[0] == b[0] && b[0] == c[0] {
      TextLeqTransitive(a[1..], b[1..], c[1..]);
    }
  }

  lemma TextOrder()
    ensures TotalPreorder(TextLeq)
  {
    forall a: string, b: string ensures TextLeq(a, b) || TextLeq(b, a) {
      TextLeqTotal(a, b);
    }
    forall a: string, b: string, c: string | TextLeq(a, b) && TextLeq(b, c) ensures TextLeq(a, c) {
      TextLeqTransitive(a, b, c);
    }
  }

  // ---- the monitor -----------------------------------------------------------------------------------------

  /** sorted(keys), in whatever order the set hands them out. */
  method Sorted(keys: set<string>) returns (list: seq<string>)
    ensures IsListing(list, keys)
  {
    hide Insert, IsListing;
    list := [];
    var done := {};
    assert IsListing(list, done) by { EmptyListing(); }
    while done != keys
      invariant done <= keys && IsListing(list, done)
      decreases |keys - done|
    {
      var key :| key in keys - done;
      ListingGrows(list, done, key);
      list := Insert(list, key, TextLeq);
      assert keys - (done + {key}) == keys - done - {key};
      done := done + {key};
    }
  }

  lemma EmptyListing()
    ensures IsListing([], {})
  {
  }

  lemma ListingGrows(list: seq<string>, keys: set<string>, key: string)
    requires IsListing(list, keys) && key !in keys
    ensures IsListing(Insert(list, key, TextLeq), keys + {key})
  {
    hide Insert, TextLeq;
    var r := Insert(list, key, TextLeq);
    TextOrder();
    InsertSorted(list, key, TextLeq);
    forall k ensures k in r <==> k in list || k == key {
      assert k in r <==> k in multiset(r);
      assert k in list <==> k in multiset(list);
    }
    forall i: nat, j: nat | i < j < |r| ensures r[i] != r[j] {
      DistinctMultiset(list, r[i]);
      if r[i] == r[j] {
        TwoOccurrences(r, i, j);
      }
    }
  }

  class PersistenceMonitor {
    const emitInventory: bool
    var previous: Option<seq<Item>>

    constructor (emitInventory: bool)
      ensures this.emitInventory == emitInventory && previous == None
    {
      this.emitInventory := emitInventory;
      previous := None;
    }

    method Poll(items: seq<Item>) returns (events: seq<Event>)
      modifies this
      ensures previous == Some(items)
      ensures match old(previous)
              case None => events == (if emitInventory then InventoryEvents(items) else [])
              case Some(before) =>
                exists d :: IsDiff(d, ByKey(before), ByKey(items)) && events == Events(d, ByKey(before), ByKey(items))
    {
      if previous.None? {
        events := if emitInventory then InventoryEvents(items) else [];
      } else {
        events := DiffPersistence(ByKey(previous.value), ByKey(items));
      }
      previous := Some(items);
    }
  }

  method DiffPersistence(before: map<string, Item>, after: map<string, Item>) returns (events: seq<Event>)
    ensures exists d :: IsDiff(d, before, after) && events == Events(d, before, after)
  {
    var added := Sorted(after.Keys - before.Keys);
    var removed := Sorted(before.Keys - after.Keys);
    var both := Sorted(before.Keys * after.Keys);
    var changed: seq<string> := [];
    for i := 0 to |both|
      invariant SortedBy(changed, TextLeq) && NoDuplicates(changed)
      invariant forall k :: k in changed <==>
                  k in both[..i] && k in before && k in after && Differs(before[k], after[k])
    {
      assert both[..i + 1] == both[..i] + [both[i]] && both[i] in both;
      if Differs(before[both[i]], after[both[i]]) {
        assert forall k :: k in changed ==> TextLeq(k, both[i]) && k != both[i];
        changed := changed + [both[i]];
      }
    }
    assert both[..|both|] == both;
    assert IsListing(changed, set k | k in before && k in after && Differs(before[k], after[k]));
    assert IsDiff(Diff(added, removed, changed), before, after);
    events := AddedEvents(added, after) + RemovedEvents(removed, before) + ChangedEvents(changed, before, after);
  }

  // ---- replay ------------------------------------------------------------------------------------------------

  /** What an event says about its entry. */
  datatype Setting = Setting(command: Option<string>, enabled: bool)

  function SettingOf(i: Item): Setting {
    Setting(i.command, i.enabled)
  }

  /** The entries according to the events alone. */
  function Replay(known: map<string, Setting>, events: seq<Event>): map<string, Setting> {
    if events == [] then known
    else
      var rest, i := Replay(known, Front(events)), Last(events).item;
      if Last(events).Removed? then rest - {i.key} else rest[i.key := SettingOf(i)]
  }

  function Settings(table: map<string, Item>): map<string, Setting> {
    map k | k in table :: SettingOf(table[k])
  }

  lemma {:induction false} ReplayAppend(known: map<string, Setting>, a: seq<Event>, b: seq<Event>)
    ensures Replay(known, a + b) == Replay(Replay(known, a), b)
  {
    if b == [] {
      assert a + b == a;
    } else {
      assert Front(a + b) == a + Front(b);
      ReplayAppend(known, a, Front(b));
    }
  }

  /** Events that set an entry for each of some keys. */
  lemma {:induction false} ReplaySets(known: map<string, Setting>, keys: seq<string>, table: map<string, Item>,
                                      events: seq<Event>)
    requires |events| == |keys|
    requires forall i :: 0 <= i < |keys| ==>
               && keys[i] in table && table[keys[i]].key == keys[i]
               && !events[i].Removed? && events[i].item == table[keys[i]]
    ensures forall k :: k in Replay(known, events) <==> k in known || k in keys
    ensures forall k :: k in Replay(known, events) ==>
              Replay(known, events)[k] == if k in keys then SettingOf(table[k]) else known[k]
  {
    if keys == [] {
    } else {
      ReplaySets(known, Front(keys), table, Front(events));
      assert forall k :: k in keys <==> k in Front(keys) || k == Last(keys);
    }
  }

  lemma {:induction false} ReplayRemoves(known: map<string, Setting>, keys: seq<string>, events: seq<Event>)
    requires |events| == |keys|
    requires forall i :: 0 <= i < |keys| ==> events[i].Removed? && events[i].item.key == keys[i]
    ensures Replay(known, events) == known - (set k | k in keys)
  {
    if keys == [] {
    } else {
      ReplayRemoves(known, Front(keys), Front(events));
      assert forall k :: k in keys <==> k in Front(keys) || k == Last(keys);
    }
  }

  ghost predicate Keyed(table: map<string, Item>) {
    forall k :: k in table ==> table[k].key == k
  }

  lemma DiffMembers(d: Diff, before: map<string, Item>, after: map<string, Item>)
    requires IsDiff(d, before, after)
    ensures forall k :: k in d.added <==> k in after && k !in before
    ensures forall k :: k in d.removed <==> k in before && k !in after
    ensures forall k :: k in d.changed <==> k in before && k in after && Differs(before[k], after[k])
  {
  }

  lemma ReplayDiff(d: Diff, before: map<string, Item>, after: map<string, Item>)
    requires IsDiff(d, before, after) && Keyed(before) && Keyed(after)
    ensures Replay(Settings(before), Events(d, before, after)) == Settings(after)
  {
    hide Replay, IsDiff;
    DiffMembers(d, before, after);
    var known := Settings(before);
    var a, r := AddedEvents(d.added, after), RemovedEvents(d.removed, before);
    var c := ChangedEvents(d.changed, before, after);
    ReplaySets(known, d.added, after, a);
    ReplayRemoves(Replay(known, a), d.removed, r);
    ReplaySets(Replay(Replay(known, a), r), d.changed, after, c);
    ReplayAppend(known, a, r);
    ReplayAppend(known, a + r, c);
    Settled(d, before, after, Replay(known, a), Replay(Replay(known, a), r), Replay(known, a + r + c));
  }

  /** Adding, removing and changing the keys of a diff leads from the one table to the other. */
  lemma Settled(d: Diff, before: map<string, Item>, after: map<string, Item>, grown: map<string, Setting>,
                cut: map<string, Setting>, final: map<string, Setting>)
    requires forall k :: k in d.added <==> k in after && k !in before
    requires forall k :: k in d.removed <==> k in before && k !in after
    requires forall k :: k in d.changed <==> k in before && k in after && Differs(before[k], after[k])
    requires forall k :: k in grown <==> k in before || k in d.added
    requires forall k :: k in grown ==> grown[k] == SettingOf(if k in d.added then after[k] else before[k])
    requires cut == grown - (set k | k in d.removed)
    requires forall k :: k in final <==> k in cut || k in d.changed
    requires forall k :: k in final ==> final[k] == if k in d.changed then SettingOf(after[k]) else cut[k]
    ensures final == Settings(after)
  {
    forall k | k in after ensures k in final && final[k] == SettingOf(after[k]) { }
  }

  // ---- the inventory is sorted, and may list a key twice ---------------------------------------------------

  lemma DiscoveriesStep(list: seq<Item>, x: Item)
    ensures Replay(map[], Discoveries(list + [x])) == Replay(map[], Discoveries(list))[x.key := SettingOf(x)]
  {
    assert Front(Discoveries(list + [x])) == Discoveries(list);
  }

  /** Inserting an entry behind all entries up to its key has the effect of appending it. */
  lemma {:induction false} ReplayInsert(list: seq<Item>, x: Item)
    ensures Replay(map[], Discoveries(Insert(list, x, KeyLeq))) ==
            Replay(map[], Discoveries(list))[x.key := SettingOf(x)]
  {
    hide Replay, Discoveries;
    if list == [] {
      assert [] + [x] == [x];
      DiscoveriesStep([], x);
    } else if KeyLeq(Last(list), x) {
      DiscoveriesStep(list, x);
    } else {
      TextLeqTotal(Last(list).key, x.key);
      ReplayInsert(Front(list), x);
      DiscoveriesStep(Insert(Front(list), x, KeyLeq), Last(list));
      DiscoveriesStep(Front(list), Last(list));
      assert list == Front(list) + [Last(list)];
    }
  }

  lemma {:induction false} ReplayInventory(items: seq<Item>)
    ensures Replay(map[], InventoryEvents(items)) == Settings(ByKey(items))
  {
    hide Replay, Insert, Discoveries, Settings, ByKey, StableSort;
    if items == [] {
      NothingDiscovered();
    } else {
      ReplayInventory(Front(items));
      ReplayInsert(StableSort(Front(items), KeyLeq), Last(items));
      SettingsStep(items);
    }
  }

  lemma SettingsStep(items: seq<Item>)
    requires items != []
    ensures Settings(ByKey(items)) == Settings(ByKey(Front(items)))[Last(items).key := SettingOf(Last(items))]
    ensures StableSort(items, KeyLeq) == Insert(StableSort(Front(items), KeyLeq), Last(items), KeyLeq)
  {
    hide Insert;
  }

  lemma NothingDiscovered()
    ensures Replay(map[], Discoveries(StableSort([], KeyLeq))) == Settings(ByKey([]))
  {
  }

  // ---- runs --------------------------------------------------------------------------------------------------

  datatype Polled = Polled(items: seq<Item>, diff: Diff)

  ghost predicate IsRun(polls: seq<Polled>) {
    forall i :: 0 < i < |polls| ==> IsDiff(polls[i].diff, ByKey(polls[i - 1].items), ByKey(polls[i].items))
  }

  ghost function Emitted(polls: seq<Polled>): seq<Event>
    requires IsRun(polls)
  {
    if polls == [] then []
    else if |polls| == 1 then InventoryEvents(polls[0].items)
    else Emitted(Front(polls)) + Events(Last(polls).diff, ByKey(Last(Front(polls)).items), ByKey(Last(polls).items))
  }

  /**
   * Over any sequence of snapshots, the events reconstruct the entries of the last one with their command
   * and enabled values, even when a snapshot lists a key more than once.
   */
  lemma {:induction false} ReplayReconstructs(polls: seq<Polled>)
    requires polls != [] && IsRun(polls)
    ensures Replay(map[], Emitted(polls)) == Settings(ByKey(Last(polls).items))
  {
    hide Replay, InventoryEvents, Events, IsDiff, Settings, ByKey;
    if |polls| == 1 {
      ReplayInventory(polls[0].items);
    } else {
      var before, last := ByKey(Last(Front(polls)).items), Last(polls);
      ReplayReconstructs(Front(polls));
      ReplayDiff(last.diff, before, ByKey(last.items));
      ReplayAppend(map[], Emitted(Front(polls)), Events(last.diff, before, ByKey(last.items)));
    }
  }

  // ---- the events in plain terms ---------------------------------------------------------------------------

  /** Up to i the texts agree, and there a ends or has the smaller character. */
  predicate DivergesAt(a: string, b: string, i: nat) {
    && i <= |a| && i <= |b| && a[..i] == b[..i]
    && (i == |a| || (i < |b| && a[i] < b[i]))
  }

  lemma FirstCharacters(a: string, b: string, i: nat)
    requires DivergesAt(a, b, i)
    ensures i > 0 ==> a != "" && b != "" && a[0] == b[0]
  {
    if i > 0 { assert a[..i][0] == b[..i][0]; }
  }

  /** Keys are compared character by character. */
  lemma {:induction false} TextLeqMeaning(a: string, b: string)
    ensures TextLeq(a, b) <==> exists i: nat :: DivergesAt(a, b, i)
  {
    if a == "" {
      assert DivergesAt(a, b, 0);
    } else if b == "" || a[0] != b[0] {
      if TextLeq(a, b) { assert DivergesAt(a, b, 0); }
      forall i: nat | DivergesAt(a, b, i) ensures i == 0 { FirstCharacters(a, b, i); }
    } else {
      TextLeqMeaning(a[1..], b[1..]);
      if i: nat :| DivergesAt(a[1..], b[1..], i) {
        assert a[..i + 1] == [a[0]] + a[1..][..i] && b[..i + 1] == [b[0]] + b[1..][..i];
        assert DivergesAt(a, b, i + 1);
      }
      if i: nat :| DivergesAt(a, b, i) {
        assert i > 0;
        assert a[1..][..i - 1] == a[..i][1..] && b[1..][..i - 1] == b[..i][1..];
        assert DivergesAt(a[1..], b[1..], i - 1);
      }
    }
  }

  function KeyOf(item: Item): string { item.key }

  /** item is listed, and nothing with its key is listed after it. */
  ghost predicate LastListed(items: seq<Item>, item: Item) {
    IsLast(items, item, KeyOf)
  }

  ghost predicate HasKey(items: seq<Item>, key: string) {
    exists i :: i in items && i.key == key
  }

  lemma {:induction false} TableHoldsTheLast(items: seq<Item>, item: Item)
    ensures item.key in ByKey(items) && ByKey(items)[item.key] == item <==> LastListed(items, item)
    ensures item.key in ByKey(items) <==> HasKey(items, item.key)
  {
    hide IsLast;
    if items == [] {
      NoLast(item, KeyOf);
    } else {
      IsLastStep(items, item, KeyOf);
      TableHoldsTheLast(Front(items), item);
      assert forall i :: i in items <==> i in Front(items) || i == Last(items);
    }
  }

  /** An entry of the present snapshot differs from the former one of its key, whose command was before. */
  ghost predicate HasChanged(previous: seq<Item>, current: seq<Item>, item: Item, before: Option<string>) {
    && LastListed(current, item)
    && exists former :: LastListed(previous, former) && former.key == item.key && former.command == before
                        && !(former.command == item.command && former.enabled == item.enabled)
  }

  ghost predicate Justified(e: Event, previous: seq<Item>, current: seq<Item>) {
    match e
    case Discovered(_) => false
    case Added(item) => LastListed(current, item) && !HasKey(previous, item.key)
    case Removed(item) => LastListed(previous, item) && !HasKey(current, item.key)
    case Changed(item, before) => HasChanged(previous, current, item, before)
  }

  lemma AddedExactly(keys: seq<string>, after: map<string, Item>, e: Event)
    requires Keyed(after) && forall k :: k in keys ==> k in after
    ensures e in AddedEvents(keys, after) <==>
            e.Added? && e.item.key in keys && e.item.key in after && after[e.item.key] == e.item
  {
    var events := AddedEvents(keys, after);
    if e.Added? && e.item.key in keys && after[e.item.key] == e.item {
      var i :| 0 <= i < |keys| && keys[i] == e.item.key;
      assert events[i] == e;
    }
  }

  lemma RemovedExactly(keys: seq<string>, before: map<string, Item>, e: Event)
    requires Keyed(before) && forall k :: k in keys ==> k in before
    ensures e in RemovedEvents(keys, before) <==>
            e.Removed? && e.item.key in keys && e.item.key in before && before[e.item.key] == e.item
  {
    var events := RemovedEvents(keys, before);
    if e.Removed? && e.item.key in keys && before[e.item.key] == e.item {
      var i :| 0 <= i < |keys| && keys[i] == e.item.key;
      assert events[i] == e;
    }
  }

  lemma ChangedExactly(keys: seq<string>, before: map<string, Item>, after: map<string, Item>, e: Event)
    requires Keyed(after) && forall k :: k in keys ==> k in before && k in after
    ensures e in ChangedEvents(keys, before, after) <==>
            && e.Changed? && e.item.key in keys && e.item.key in before && e.item.key in after
            && after[e.item.key] == e.item && before[e.item.key].command == e.previousCommand
  {
    var events := ChangedEvents(keys, before, after);
    if e.Changed? && e.item.key in keys && after[e.item.key] == e.item
       && before[e.item.key].command == e.previousCommand {
      var i :| 0 <= i < |keys| && keys[i] == e.item.key;
      assert events[i] == e;
    }
  }

  lemma ChangedMeaning(previous: seq<Item>, current: seq<Item>, item: Item, before: Option<string>)
    ensures var p, c := ByKey(previous), ByKey(current);
            HasChanged(previous, current, item, before) <==>
            && item.key in p && item.key in c && c[item.key] == item
            && p[item.key].command == before && Differs(p[item.key], item)
  {
    hide ByKey, LastListed;
    TableHoldsTheLast(current, item);
    var p := ByKey(previous);
    if item.key in p { TableHoldsTheLast(previous, p[item.key]); }
    if former :| LastListed(previous, former) && former.key == item.key && former.command == before
                 && !(former.command == item.command && former.enabled == item.enabled)
    {
      TableHoldsTheLast(previous, former);
    }
  }

  /** A diff has exactly the events that the two snapshots justify, each once. */
  lemma DiffIsExact(d: Diff, previous: seq<Item>, current: seq<Item>, e: Event)
    requires IsDiff(d, ByKey(previous), ByKey(current))
    ensures multiset(Events(d, ByKey(previous), ByKey(current)))[e] == if Justified(e, previous, current) then 1 else 0
  {
    hide ByKey, IsDiff, AddedEvents, RemovedEvents, ChangedEvents, LastListed, HasKey, HasChanged, Differs;
    var before, after := ByKey(previous), ByKey(current);
    DiffMembers(d, before, after);
    AddedExactly(d.added, after, e);
    RemovedExactly(d.removed, before, e);
    ChangedExactly(d.changed, before, after, e);
    TableHoldsTheLast(previous, e.item);
    TableHoldsTheLast(current, e.item);
    if e.Changed? { ChangedMeaning(previous, current, e.item, e.previousCommand); }
    EachOnce(d, before, after, e);
    ThreeParts(AddedEvents(d.added, after), RemovedEvents(d.removed, before),
               ChangedEvents(d.changed, before, after), e);
  }

  lemma EachOnce(d: Diff, before: map<string, Item>, after: map<string, Item>, e: Event)
    requires IsDiff(d, before, after) && Keyed(before) && Keyed(after)
    ensures var a := AddedEvents(d.added, after); multiset(a)[e] == if e in a then 1 else 0
    ensures var r := RemovedEvents(d.removed, before); multiset(r)[e] == if e in r then 1 else 0
    ensures var c := ChangedEvents(d.changed, before, after); multiset(c)[e] == if e in c then 1 else 0
  {
    hide TextLeq;
    DistinctMultiset(AddedEvents(d.added, after), e);
    DistinctMultiset(RemovedEvents(d.removed, before), e);
    DistinctMultiset(ChangedEvents(d.changed, before, after), e);
  }

  function Rank(e: Event): nat {
    match e
    case Discovered(_) => 0
    case Added(_) => 0
    case Removed(_) => 1
    case Changed(_, _) => 2
  }

  lemma EventAt(d: Diff, before: map<string, Item>, after: map<string, Item>, i: nat)
    requires IsDiff(d, before, after) && Keyed(before) && Keyed(after) && i < |Events(d, before, after)|
    ensures var e, m, n := Events(d, before, after)[i], |d.added|, |d.added| + |d.removed|;
            && Rank(e) == (if i < m then 0 else if i < n then 1 else 2)
            && i < n + |d.changed|
            && e.item.key == if i < m then d.added[i] else if i < n then d.removed[i - m] else d.changed[i - n]
  {
    hide IsListing;
    DiffMembers(d, before, after);
    assert Events(d, before, after)[i] ==
           if i < |d.added| then AddedEvents(d.added, after)[i]
           else if i < |d.added| + |d.removed| then RemovedEvents(d.removed, before)[i - |d.added|]
           else ChangedEvents(d.changed, before, after)[i - |d.added| - |d.removed|];
  }

  ghost predicate InKeyOrder(a: Event, b: Event) {
    exists n: nat :: DivergesAt(a.item.key, b.item.key, n)
  }

  /** Additions come before removals and removals before changes, each by key. */
  lemma DiffOrder(d: Diff, before: map<string, Item>, after: map<string, Item>, i: nat, j: nat)
    requires IsDiff(d, before, after) && Keyed(before) && Keyed(after) && i < j < |Events(d, before, after)|
    ensures var e, f := Events(d, before, after)[i], Events(d, before, after)[j];
            && Rank(e) <= Rank(f)
            && (Rank(e) == Rank(f) ==> InKeyOrder(e, f))
  {
    hide TextLeq, Events, Rank, DivergesAt;
    EventAt(d, before, after, i);
    EventAt(d, before, after, j);
    TextLeqMeaning(Events(d, before, after)[i].item.key, Events(d, before, after)[j].item.key);
  }

  ghost predicate KeysInOrder(events: seq<Event>) {
    forall i, j :: 0 <= i < j < |events| ==> InKeyOrder(events[i], events[j])
  }

  /** The inventory has one event for each entry, by key. */
  lemma InventoryIsExact(items: seq<Item>)
    ensures var events := InventoryEvents(items);
            && |events| == |items|
            && (forall e :: e in events <==> e.Discovered? && e.item in items)
            && KeysInOrder(events)
  {
    hide StableSort, TextLeq, DivergesAt;
    var list, events := StableSort(items, KeyLeq), InventoryEvents(items);
    KeyOrder();
    StableSortSorted(items, KeyLeq);
    SortMembers(items, KeyLeq);
    forall e ensures e in events <==> e.Discovered? && e.item in items {
      if e.Discovered? && e.item in items {
        var i :| 0 <= i < |list| && list[i] == e.item;
        assert events[i] == e;
      }
    }
    DiscoveriesInOrder(list);
  }

  lemma DiscoveriesInOrder(list: seq<Item>)
    requires SortedBy(list, KeyLeq)
    ensures KeysInOrder(Discoveries(list))
  {
    hide TextLeq;
    var events := Discoveries(list);
    forall i, j | 0 <= i < j < |events| ensures InKeyOrder(events[i], events[j]) {
      assert KeyLeq(list[i], list[j]);
      TextLeqMeaning(list[i].key, list[j].key);
    }
  }

  lemma KeyOrder()
    ensures TotalPreorder(KeyLeq)
  {
    hide TextLeq;
    TextOrder();
  }
}
