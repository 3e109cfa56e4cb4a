/** Process snapshots diffed into lifecycle events: src/threatlens/monitors/process_monitor.py. */
module ProcessMonitor {
  import opened Collections
  import opened ProcessModels
  import opened ProcessTree

  datatype Snapshot = Snapshot(at: Time, processes: seq<ProcessInfo>)

  datatype Event =
    | Discovered(process: ProcessInfo, parent: Option<ProcessKey>)
    | Started(process: ProcessInfo, parent: Option<ProcessKey>)
    | Stopped(process: ProcessInfo, exitedAfter: Time, exitedBefore: Time)
    | Changed(key: ProcessKey, was: bool, now: bool)

  function ParentKey(p: ProcessInfo, byPid: map<nat, ProcessInfo>): Option<ProcessKey> {
    match VerifiedParent(p, byPid)
    case None => None
    case Some(parent) => Some(parent.Key())
  }

  function InventoryEvents(s: Snapshot): seq<Event> {
    var list := StableSort(s.processes, Earlier);
    seq(|list|, i requires 0 <= i < |list| => Discovered(list[i], ParentKey(list[i], ByPid(s.processes))))
  }

  function StartedEvents(list: seq<ProcessInfo>, current: Snapshot): seq<Event> {
    seq(|list|, i requires 0 <= i < |list| => Started(list[i], ParentKey(list[i], ByPid(current.processes))))
  }

  function StoppedEvents(list: seq<ProcessInfo>, previous: Snapshot, current: Snapshot): seq<Event> {
    seq(|list|, i requires 0 <= i < |list| => Stopped(list[i], previous.at, current.at))
  }

  predicate Toggled(old': ProcessInfo, new': ProcessInfo) {
    old'.suspended.Some? && new'.suspended.Some? && old'.suspended != new'.suspended
  }

  // ---- what a diff is --------------------------------------------------------------------------------------

  /** The table's entries for some keys, each once, by creation time and PID. */
  ghost predicate IsListing(list: seq<ProcessInfo>, keys: set<ProcessKey>, table: map<ProcessKey, ProcessInfo>) {
    && SortedBy(list, Earlier)
    && NoDuplicates(list)
    && (forall p :: p in list ==> p.Key() in keys && p.Key() in table && table[p.Key()] == p)
    && (forall k :: k in keys ==> k in table && table[k] in list)
  }

  ghost predicate IsStarted(list: seq<ProcessInfo>, previous: Snapshot, current: Snapshot) {
    IsListing(list, ByKey(current.processes).Keys - ByKey(previous.processes).Keys, ByKey(current.processes))
  }

  ghost predicate IsStopped(list: seq<ProcessInfo>, previous: Snapshot, current: Snapshot) {
    IsListing(list, ByKey(previous.processes).Keys - ByKey(current.processes).Keys, ByKey(previous.processes))
  }

  /** One event for every process in both snapshots whose suspended state is known in both and differs. */
  ghost predicate IsChanged(events: seq<Event>, previous: Snapshot, current: Snapshot) {
    var before, after := ByKey(previous.processes), ByKey(current.processes);
    && NoDuplicates(events)
    && (forall e :: e in events ==>
          && e.Changed? && e.key in before && e.key in after && Toggled(before[e.key], after[e.key])
          && Some(e.was) == before[e.key].suspended && Some(e.now) == after[e.key].suspended)
    && (forall k :: k in before && k in after && Toggled(before[k], after[k]) ==>
          Changed(k, before[k].suspended.value, after[k].suspended.value) in events)
  }

  datatype Diff = Diff(started: seq<ProcessInfo>, stopped: seq<ProcessInfo>, changed: seq<Event>)

  ghost predicate IsDiff(d: Diff, previous: Snapshot, current: Snapshot) {
    && IsStarted(d.started, previous, current)
    && IsStopped(d.stopped, previous, current)
    && IsChanged(d.changed, previous, current)
  }

  function Events(d: Diff, previous: Snapshot, current: Snapshot): seq<Event> {
    StartedEvents(d.started, current) + StoppedEvents(d.stopped, previous, current) + d.changed
  }

  // ---- the monitor -----------------------------------------------------------------------------------------

  /** sorted(table[k] for k in keys): a set has no order of its own, so any order of picking will do. */
  method Sorted(keys: set<ProcessKey>, table: map<ProcessKey, ProcessInfo>) returns (list: seq<ProcessInfo>)
    requires keys <= table.Keys && forall k :: k in table ==> table[k].Key() == k
    ensures IsListing(list, keys, table)
  {
    hide Insert, IsListing;
    list := [];
    var done := {};
    assert IsListing(list, done, table) by { EmptyListing(table); }
    while done != keys
      invariant done <= keys && IsListing(list, done, table)
      decreases |keys - done|
    {
      var key :| key in keys - done;
      ListingGrows(list, done, table, key);
      list := Insert(list, table[key], Earlier);
      assert keys - (done + {key}) == keys - done - {key};
      done := done + {key};
    }
  }

  lemma EmptyListing(table: map<ProcessKey, ProcessInfo>)
    ensures IsListing([], {}, table)
  {
  }

  lemma ListingGrows(list: seq<ProcessInfo>, keys: set<ProcessKey>, table: map<ProcessKey, ProcessInfo>,
                     key: ProcessKey)
    requires IsListing(list, keys, table) && key in table && key !in keys && table[key].Key() == key
    ensures IsListing(Insert(list, table[key], Earlier), keys + {key}, table)
  {
    hide Insert;
    var p := table[key];
    EarlierIsTotal();
    InsertSorted(list, p, Earlier);
    InsertMembers(list, p);
    InsertDistinct(list, p);
  }

  lemma InsertMembers(list: seq<ProcessInfo>, p: ProcessInfo)
    ensures forall q :: q in Insert(list, p, Earlier) <==> q in list || q == p
  {
    hide Insert;
    var r := Insert(list, p, Earlier);
    forall q ensures q in r <==> q in list || q == p {
      assert q in r <==> q in multiset(r);
      assert q in list <==> q in multiset(list);
    }
  }

  lemma InsertDistinct(list: seq<ProcessInfo>, p: ProcessInfo)
    requires NoDuplicates(list) && p !in list
    ensures NoDuplicates(Insert(list, p, Earlier))
  {
    hide Insert;
    var r := Insert(list, p, Earlier);
    forall i: nat, j: nat | i < j < |r| ensures r[i] != r[j] {
      DistinctMultiset(list, r[i]);
      if r[i] == r[j] {
        TwoOccurrences(r, i, j);
      }
    }
  }

  /** Loop invariant of ChangedEvents: the events for all keys that are not left over. */
  ghost predicate ChangedBut(events: seq<Event>, before: map<ProcessKey, ProcessInfo>,
                             after: map<ProcessKey, ProcessInfo>, rest: set<ProcessKey>)
  {
    && NoDuplicates(events)
    && (forall e :: e in events ==>
          && e.Changed? && e.key in before && e.key in after && e.key !in rest && Toggled(before[e.key], after[e.key])
          && Some(e.was) == before[e.key].suspended && Some(e.now) == after[e.key].suspended)
    && (forall k :: k in before && k in after && k !in rest && Toggled(before[k], after[k]) ==>
          Changed(k, before[k].suspended.value, after[k].suspended.value) in events)
  }

  lemma ChangeAdded(events: seq<Event>, before: map<ProcessKey, ProcessInfo>, after: map<ProcessKey, ProcessInfo>,
                    rest: set<ProcessKey>, key: ProcessKey)
    requires ChangedBut(events, before, after, rest) && key in rest && key in before && key in after
    ensures Toggled(before[key], after[key]) ==>
              var e := Changed(key, before[key].suspended.value, after[key].suspended.value);
              ChangedBut(events + [e], before, after, rest - {key})
    ensures !Toggled(before[key], after[key]) ==> ChangedBut(events, before, after, rest - {key})
  {
    if Toggled(before[key], after[key]) {
      var e := Changed(key, before[key].suspended.value, after[key].suspended.value);
      assert e !in events;
      assert forall f :: f in events + [e] <==> f in events || f == e;
    }
  }

  method ChangedEvents(previous: Snapshot, current: Snapshot) returns (events: seq<Event>)
    ensures IsChanged(events, previous, current)
  {
    hide ByKey, ChangedBut;
    var before, after := ByKey(previous.processes), ByKey(current.processes);
    events := [];
    var rest := before.Keys * after.Keys;
    assert ChangedBut(events, before, after, rest) by { NothingChanged(before, after); }
    while rest != {}
      invariant rest <= before.Keys * after.Keys
      invariant ChangedBut(events, before, after, rest)
      decreases |rest|
    {
      var key :| key in rest;
      ChangeAdded(events, before, after, rest, key);
      if Toggled(before[key], after[key]) {
        events := events + [Changed(key, before[key].suspended.value, after[key].suspended.value)];
      }
      rest := rest - {key};
    }
    AllChanged(events, previous, current);
  }

  lemma NothingChanged(before: map<ProcessKey, ProcessInfo>, after: map<ProcessKey, ProcessInfo>)
    ensures ChangedBut([], before, after, before.Keys * after.Keys)
  {
  }

  lemma AllChanged(events: seq<Event>, previous: Snapshot, current: Snapshot)
    requires ChangedBut(events, ByKey(previous.processes), ByKey(current.processes), {})
    ensures IsChanged(events, previous, current)
  {
  }

  method DiffSnapshots(previous: Snapshot, current: Snapshot) returns (events: seq<Event>)
    ensures exists d :: IsDiff(d, previous, current) && events == Events(d, previous, current)
  {
    var before, after := ByKey(previous.processes), ByKey(current.processes);
    var started := Sorted(after.Keys - before.Keys, after);
    var stopped := Sorted(before.Keys - after.Keys, before);
    var changed := ChangedEvents(previous, current);
    assert IsDiff(Diff(started, stopped, changed), previous, current);
    events := StartedEvents(started, current) + StoppedEvents(stopped, previous, current) + changed;
  }

  class ProcessMonitor {
    const emitInventory: bool
    var previous: Option<Snapshot>

    constructor (emitInventory: bool)
      ensures this.emitInventory == emitInventory && previous == None
    {
      this.emitInventory := emitInventory;
      previous := None;
    }

    method Poll(current: Snapshot) returns (events: seq<Event>)
      modifies this
      ensures previous == Some(current)
      ensures match old(previous)
              case None => events == (if emitInventory then InventoryEvents(current) else [])
              case Some(before) => exists d :: IsDiff(d, before, current) && events == Events(d, before, current)
    {
      if previous.None? {
        events := if emitInventory then InventoryEvents(current) else [];
      } else {
        events := DiffSnapshots(previous.value, current);
      }
      previous := Some(current);
    }
  }

  // ---- replay ------------------------------------------------------------------------------------------------

  function After(live: set<ProcessKey>, e: Event): set<ProcessKey> {
    match e
    case Discovered(p, _) => live + {p.Key()}
    case Started(p, _) => live + {p.Key()}
    case Stopped(p, _, _) => live - {p.Key()}
    case Changed(_, _, _) => live
  }

  /** The processes alive according to the events alone. */
  function Replay(live: set<ProcessKey>, events: seq<Event>): set<ProcessKey> {
    if events == [] then live else After(Replay(live, Front(events)), Last(events))
  }

  /** Nothing starts that is already there, and nothing stops or changes that is not. */
  predicate Fits(live: set<ProcessKey>, e: Event) {
    match e
    case Discovered(p, _) => p.Key() !in live
    case Started(p, _) => p.Key() !in live
    case Stopped(p, _, _) => p.Key() in live
    case Changed(k, _, _) => k in live
  }

  /** Starts and stops of every process alternate. */
  predicate Alternating(live: set<ProcessKey>, events: seq<Event>) {
    events == [] || (Alternating(live, Front(events)) && Fits(Replay(live, Front(events)), Last(events)))
  }

  lemma {:induction false} ReplayAppend(live: set<ProcessKey>, a: seq<Event>, b: seq<Event>)
    ensures Replay(live, a + b) == Replay(Replay(live, a), b)
    ensures Alternating(live, a + b) <==> Alternating(live, a) && Alternating(Replay(live, a), b)
  {
    hide After, Fits;
    if b == [] {
      assert a + b == a;
    } else {
      assert Front(a + b) == a + Front(b);
      ReplayAppend(live, a, Front(b));
    }
  }

  lemma {:induction false} ReplayStarts(live: set<ProcessKey>, list: seq<ProcessInfo>, events: seq<Event>)
    requires |events| == |list|
    requires forall i :: 0 <= i < |list| ==>
               (events[i].Started? || events[i].Discovered?) && events[i].process == list[i]
    ensures Replay(live, events) == live + KeysOf(list)
    ensures DistinctKeys(list) && (forall p :: p in list ==> p.Key() !in live) ==> Alternating(live, events)
  {
    if list == [] {
    } else {
      ReplayStarts(live, Front(list), Front(events));
      assert list == Front(list) + [Last(list)];
      assert KeysOf(list) == KeysOf(Front(list)) + {Last(list).Key()};
    }
  }

  lemma {:induction false} ReplayStops(live: set<ProcessKey>, list: seq<ProcessInfo>, events: seq<Event>)
    requires |events| == |list|
    requires forall i :: 0 <= i < |list| ==> events[i].Stopped? && events[i].process == list[i]
    ensures Replay(live, events) == live - KeysOf(list)
    ensures DistinctKeys(list) && KeysOf(list) <= live ==> Alternating(live, events)
  {
    if list == [] {
    } else {
      ReplayStops(live, Front(list), Front(events));
      assert list == Front(list) + [Last(list)];
      assert KeysOf(list) == KeysOf(Front(list)) + {Last(list).Key()};
    }
  }

  lemma {:induction false} ReplayChanges(live: set<ProcessKey>, events: seq<Event>)
    requires forall e :: e in events ==> e.Changed? && e.key in live
    ensures Replay(live, events) == live && Alternating(live, events)
  {
    if events == [] {
    } else {
      assert forall e :: e in Front(events) ==> e in events;
      assert Last(events) in events;
      ReplayChanges(live, Front(events));
    }
  }

  lemma ListingKeys(list: seq<ProcessInfo>, keys: set<ProcessKey>, table: map<ProcessKey, ProcessInfo>)
    requires IsListing(list, keys, table) && forall k :: k in table ==> table[k].Key() == k
    ensures KeysOf(list) == keys && DistinctKeys(list)
  {
    forall k | k in keys ensures k in KeysOf(list) {
      assert table[k] in list && table[k].Key() == k;
    }
    forall i, j | 0 <= i < j < |list| ensures list[i].Key() != list[j].Key() {
      assert list[i] in list && list[j] in list;
    }
  }

  /** The keys of a snapshot. */
  ghost function Keys(s: Snapshot): set<ProcessKey> {
    ByKey(s.processes).Keys
  }

  /** The events of one diff turn the keys of one snapshot into those of the next. */
  lemma ReplayDiff(d: Diff, previous: Snapshot, current: Snapshot)
    requires IsDiff(d, previous, current)
    ensures Replay(Keys(previous), Events(d, previous, current)) == Keys(current)
    ensures Alternating(Keys(previous), Events(d, previous, current))
  {
    hide Replay, Alternating, IsListing, ParentKey;
    var before, after := Keys(previous), Keys(current);
    var starts, stops := StartedEvents(d.started, current), StoppedEvents(d.stopped, previous, current);
    ListingKeys(d.started, after - before, ByKey(current.processes));
    ListingKeys(d.stopped, before - after, ByKey(previous.processes));
    NotYetLive(d.started, before, after);
    ReplayStarts(before, d.started, starts);
    ReplayStops(before + (after - before), d.stopped, stops);
    ReplayAppend(before, starts, stops);
    assert before + (after - before) - (before - after) == after;
    ReplayAppend(before, starts + stops, d.changed);
    ReplayChanges(after, d.changed);
  }

  lemma NotYetLive(list: seq<ProcessInfo>, before: set<ProcessKey>, after: set<ProcessKey>)
    requires KeysOf(list) == after - before
    ensures forall p :: p in list ==> p.Key() !in before
  {
    forall p | p in list ensures p.Key() !in before {
      assert p.Key() in KeysOf(list);
    }
  }

  // ---- runs --------------------------------------------------------------------------------------------------

  /** One poll: the snapshot it took and, except for the first, the diff it found. */
  datatype Polled = Polled(snapshot: Snapshot, diff: Diff)

  ghost predicate IsRun(polls: seq<Polled>) {
    forall i :: 0 < i < |polls| ==> IsDiff(polls[i].diff, polls[i - 1].snapshot, polls[i].snapshot)
  }

  /** All events of a run with inventory. */
  function Emitted(polls: seq<Polled>): seq<Event> {
    if polls == [] then []
    else if |polls| == 1 then InventoryEvents(polls[0].snapshot)
    else Emitted(Front(polls)) + Events(Last(polls).diff, Last(Front(polls)).snapshot, Last(polls).snapshot)
  }

  lemma ReplayInventory(s: Snapshot)
    ensures Replay({}, InventoryEvents(s)) == Keys(s)
    ensures DistinctKeys(s.processes) ==> Alternating({}, InventoryEvents(s))
  {
    hide Replay, Alternating, ParentKey, StableSort, KeysOf, Keys, DistinctKeys;
    var list := StableSort(s.processes, Earlier);
    ReplayStarts({}, list, InventoryEvents(s));
    SortedKeys(s);
    if DistinctKeys(s.processes) {
      DistinctKeysSorted(s.processes);
    }
  }

  lemma SortedKeys(s: Snapshot)
    ensures KeysOf(StableSort(s.processes, Earlier)) == Keys(s)
  {
    hide StableSort;
    SortMembers(s.processes, Earlier);
  }

  lemma DistinctKeysSorted(ps: seq<ProcessInfo>)
    requires DistinctKeys(ps)
    ensures DistinctKeys(StableSort(ps, Earlier))
  {
    var list := StableSort(ps, Earlier);
    SortMembers(ps, Earlier);
    SortDistinct(ps, Earlier);
    forall i, j | 0 <= i < j < |list| ensures list[i].Key() != list[j].Key() {
      assert list[i] in ps && list[j] in ps;
    }
  }

  /**
   * Over any sequence of snapshots: the events alone reconstruct the process keys of the last one, and,
   * if no key is listed twice in the first one, starts and stops of each process alternate throughout.
   */
  lemma {:induction false} ReplayReconstructs(polls: seq<Polled>)
    requires polls != [] && IsRun(polls)
    ensures Replay({}, Emitted(polls)) == Keys(Last(polls).snapshot)
    ensures DistinctKeys(polls[0].snapshot.processes) ==> Alternating({}, Emitted(polls))
  {
    hide Replay, Alternating, InventoryEvents, Events, Keys, IsDiff, DistinctKeys;
    if |polls| == 1 {
      ReplayInventory(polls[0].snapshot);
    } else {
      var before, last := Last(Front(polls)).snapshot, Last(polls);
      ReplayReconstructs(Front(polls));
      ReplayDiff(last.diff, before, last.snapshot);
      ReplayAppend({}, Emitted(Front(polls)), Events(last.diff, before, last.snapshot));
    }
  }

  // ---- parents first -----------------------------------------------------------------------------------------

  predicate Before(p: ProcessInfo, q: ProcessInfo) {
    p.Stamp() < q.Stamp() || (p.Stamp() == q.Stamp() && p.pid < q.pid)
  }

  /**
   * A parent that started in the same diff is reported before its child exactly when its creation time,
   * or at equal times its PID, is smaller, where an unknown time counts as 0.
   */
  lemma ParentFirstExactlyWhenOlder(d: Diff, previous: Snapshot, current: Snapshot, i: nat, j: nat)
    requires IsDiff(d, previous, current) && i < |d.started| && j < |d.started|
    requires VerifiedParent(d.started[j], ByPid(current.processes)) == Some(d.started[i])
    ensures i < j <==> Before(d.started[i], d.started[j])
    ensures StrictlyOlder(d.started[i], d.started[j]) ==> i < j
  {
    hide IsStopped, IsChanged, ByKey, ByPid;
    var list := d.started;
    ParentIsAnother(list[j], list[i], ByPid(current.processes));
    if i < j {
      assert Earlier(list[i], list[j]);
    }
    if j < i {
      assert Earlier(list[j], list[i]);
    }
  }

  lemma ParentIsAnother(child: ProcessInfo, parent: ProcessInfo, byPid: map<nat, ProcessInfo>)
    requires VerifiedParent(child, byPid) == Some(parent)
    ensures parent != child && parent.pid != child.pid
  {
    SelectParentQualifies(child, if child.ppid.value in byPid then [byPid[child.ppid.value]] else []);
  }

  /** So ordering by creation time does not always put parents first: here the child has the smaller PID. */
  lemma ChildCanComeFirst(t: Time)
    ensures var parent := ProcessInfo(9, None, Some(t), None, None, None, None, map[]);
            var child := ProcessInfo(5, Some(9), Some(t), None, None, None, None, map[]);
            && VerifiedParent(child, ByPid([child, parent])) == Some(parent)
            && StableSort([parent, child], Earlier) == [child, parent]
  {
    hide StableSort;
    var parent := ProcessInfo(9, None, Some(t), None, None, None, None, map[]);
    var child := ProcessInfo(5, Some(9), Some(t), None, None, None, None, map[]);
    SelectParentQualifies(child, [parent]);
    assert Front([child, parent]) == [child];
    assert ByPid([child, parent])[9] == parent;
    assert parent in [parent] && CanBeParent(child, parent);
    SortTwo(parent, child);
  }

  lemma InsertIntoEmpty(p: ProcessInfo)
    ensures Insert([], p, Earlier) == [p]
  {
  }

  lemma InsertIntoOne(p: ProcessInfo, q: ProcessInfo)
    ensures Insert([p], q, Earlier) == if Earlier(p, q) then [p, q] else [q, p]
  {
    hide Earlier;
    assert Front([p]) == [] && Last([p]) == p;
    InsertIntoEmpty(q);
  }

  lemma SortTwo(p: ProcessInfo, q: ProcessInfo)
    ensures StableSort([p, q], Earlier) == if Earlier(p, q) then [p, q] else [q, p]
  {
    hide Earlier, Insert;
    assert Front([p, q]) == [p] && Front([p]) == [];
    InsertIntoEmpty(p);
    InsertIntoOne(p, q);
  }

  // ---- the events in plain terms ---------------------------------------------------------------------------

  ghost predicate HasKey(ps: seq<ProcessInfo>, key: ProcessKey) {
    exists p :: p in ps && p.Key() == key
  }

  /** The parent shown with p: the process listed under the PID it names, unless there is none or it is younger. */
  ghost predicate IsParentKey(ps: seq<ProcessInfo>, p: ProcessInfo, parent: Option<ProcessKey>) {
    match parent
    case None => forall q :: q in ps ==> !IsNamedParent(ps, p, q)
    case Some(k) => exists q :: q in ps && IsNamedParent(ps, p, q) && q.Key() == k
  }

  ghost predicate Justified(e: Event, previous: Snapshot, current: Snapshot) {
    match e
    case Discovered(_, _) => false
    case Started(p, parent) =>
      && LastWithKey(current.processes, p) && !HasKey(previous.processes, p.Key())
      && IsParentKey(current.processes, p, parent)
    case Stopped(p, after, before) =>
      && LastWithKey(previous.processes, p) && !HasKey(current.processes, p.Key())
      && after == previous.at && before == current.at
    case Changed(k, was, now) =>
      && was != now
      && exists p, q :: LastWithKey(previous.processes, p) && LastWithKey(current.processes, q)
                        && p.Key() == k && q.Key() == k && p.suspended == Some(was) && q.suspended == Some(now)
  }

  lemma ParentKeyMeaning(ps: seq<ProcessInfo>, p: ProcessInfo, parent: Option<ProcessKey>)
    ensures ParentKey(p, ByPid(ps)) == parent <==> IsParentKey(ps, p, parent)
  {
    hide VerifiedParent, ByPid, IsNamedParent;
    forall q ensures VerifiedParent(p, ByPid(ps)) == Some(q) <==> IsNamedParent(ps, p, q) {
      VerifiedParentExactlyWhen(ps, p, q);
    }
    if VerifiedParent(p, ByPid(ps)).Some? { NamedParentIsListed(ps, p, VerifiedParent(p, ByPid(ps)).value); }
  }

  lemma NamedParentIsListed(ps: seq<ProcessInfo>, p: ProcessInfo, q: ProcessInfo)
    requires IsNamedParent(ps, p, q)
    ensures q in ps
  {
  }

  lemma TableMeaning(ps: seq<ProcessInfo>, p: ProcessInfo)
    ensures p.Key() in ByKey(ps) && ByKey(ps)[p.Key()] == p <==> LastWithKey(ps, p)
    ensures p.Key() in ByKey(ps) <==> HasKey(ps, p.Key())
  {
    ByKeyHoldsTheLast(ps, p);
    if p.Key() in ByKey(ps) { assert ByKey(ps)[p.Key()] in ps; }
  }

  lemma StartedExactly(list: seq<ProcessInfo>, current: Snapshot, e: Event)
    ensures e in StartedEvents(list, current) <==>
            e.Started? && e.process in list && IsParentKey(current.processes, e.process, e.parent)
  {
    hide ParentKey, IsParentKey;
    var events := StartedEvents(list, current);
    if e in events {
      var i :| 0 <= i < |events| && events[i] == e;
      ParentKeyMeaning(current.processes, e.process, e.parent);
    }
    if e.Started? && e.process in list && IsParentKey(current.processes, e.process, e.parent) {
      var i :| 0 <= i < |list| && list[i] == e.process;
      ParentKeyMeaning(current.processes, e.process, e.parent);
      assert events[i] == e;
    }
  }

  lemma StoppedExactly(list: seq<ProcessInfo>, previous: Snapshot, current: Snapshot, e: Event)
    ensures e in StoppedEvents(list, previous, current) <==>
            e.Stopped? && e.process in list && e.exitedAfter == previous.at && e.exitedBefore == current.at
  {
    var events := StoppedEvents(list, previous, current);
    if e in events {
      var i :| 0 <= i < |events| && events[i] == e;
    }
    if e.Stopped? && e.process in list && e.exitedAfter == previous.at && e.exitedBefore == current.at {
      var i :| 0 <= i < |list| && list[i] == e.process;
      assert events[i] == e;
    }
  }

  lemma ChangedExactly(events: seq<Event>, previous: Snapshot, current: Snapshot, e: Event)
    requires IsChanged(events, previous, current)
    ensures e in events <==> e.Changed? && Justified(e, previous, current)
  {
    hide ByKey, LastWithKey, Justified;
    if e in events { ChangeIsJustified(events, previous, current, e); }
    if e.Changed? && Justified(e, previous, current) { JustifiedIsChange(events, previous, current, e); }
  }

  lemma ChangeIsJustified(events: seq<Event>, previous: Snapshot, current: Snapshot, e: Event)
    requires IsChanged(events, previous, current) && e in events
    ensures e.Changed? && Justified(e, previous, current)
  {
    hide ByKey, LastWithKey;
    var p, q := ByKey(previous.processes)[e.key], ByKey(current.processes)[e.key];
    TableMeaning(previous.processes, p);
    TableMeaning(current.processes, q);
  }

  lemma JustifiedIsChange(events: seq<Event>, previous: Snapshot, current: Snapshot, e: Event)
    requires IsChanged(events, previous, current) && e.Changed? && Justified(e, previous, current)
    ensures e in events
  {
    hide ByKey, LastWithKey;
    var p, q :| LastWithKey(previous.processes, p) && LastWithKey(current.processes, q)
                && p.Key() == e.key && q.Key() == e.key && p.suspended == Some(e.was) && q.suspended == Some(e.now);
    TableMeaning(previous.processes, p);
    TableMeaning(current.processes, q);
  }

  lemma ListedExactly(list: seq<ProcessInfo>, ps: seq<ProcessInfo>, others: seq<ProcessInfo>, p: ProcessInfo)
    requires IsListing(list, ByKey(ps).Keys - ByKey(others).Keys, ByKey(ps))
    ensures p in list <==> LastWithKey(ps, p) && !HasKey(others, p.Key())
  {
    hide ByKey, LastWithKey;
    TableMeaning(ps, p);
    TableMeaning(others, p);
  }

  /** A diff has exactly the events that the two snapshots justify, each once. */
  lemma DiffIsExact(d: Diff, previous: Snapshot, current: Snapshot, e: Event)
    requires IsDiff(d, previous, current)
    ensures multiset(Events(d, previous, current))[e] == if Justified(e, previous, current) then 1 else 0
  {
    hide IsChanged, IsListing, Justified, StartedEvents, StoppedEvents;
    var starts, stops := StartedEvents(d.started, current), StoppedEvents(d.stopped, previous, current);
    EachOnce(d, previous, current, e);
    DiffMembers(d, previous, current, e);
    ThreeParts(starts, stops, d.changed, e);
  }

  lemma EachOnce(d: Diff, previous: Snapshot, current: Snapshot, e: Event)
    requires IsDiff(d, previous, current)
    ensures multiset(StartedEvents(d.started, current))[e] == if e in StartedEvents(d.started, current) then 1 else 0
    ensures var stops := StoppedEvents(d.stopped, previous, current);
            multiset(stops)[e] == if e in stops then 1 else 0
    ensures multiset(d.changed)[e] == if e in d.changed then 1 else 0
  {
    hide ByKey, ParentKey;
    DistinctMultiset(StartedEvents(d.started, current), e);
    DistinctMultiset(StoppedEvents(d.stopped, previous, current), e);
    DistinctMultiset(d.changed, e);
  }

  lemma DiffMembers(d: Diff, previous: Snapshot, current: Snapshot, e: Event)
    requires IsDiff(d, previous, current)
    ensures e in StartedEvents(d.started, current) <==> e.Started? && Justified(e, previous, current)
    ensures e in StoppedEvents(d.stopped, previous, current) <==> e.Stopped? && Justified(e, previous, current)
    ensures e in d.changed <==> e.Changed? && Justified(e, previous, current)
    ensures e.Discovered? ==> !Justified(e, previous, current)
  {
    hide IsChanged, IsListing, StartedEvents, StoppedEvents, IsParentKey, LastWithKey, HasKey;
    StartedExactly(d.started, current, e);
    StoppedExactly(d.stopped, previous, current, e);
    ChangedExactly(d.changed, previous, current, e);
    if e.Started? { ListedExactly(d.started, current.processes, previous.processes, e.process); }
    if e.Stopped? { ListedExactly(d.stopped, previous.processes, current.processes, e.process); }
  }

  /** Creation time, 0 when unknown, then PID. */
  predicate InListOrder(p: ProcessInfo, q: ProcessInfo) {
    var s := if p.createTime.None? then 0 else p.createTime.value;
    var t := if q.createTime.None? then 0 else q.createTime.value;
    s < t || (s == t && p.pid <= q.pid)
  }

  function Rank(e: Event): nat {
    match e
    case Discovered(_, _) => 0
    case Started(_, _) => 0
    case Stopped(_, _, _) => 1
    case Changed(_, _, _) => 2
  }

  /** The i-th event of a diff: which kind it is, and which of its listing it belongs to. */
  lemma EventAt(d: Diff, previous: Snapshot, current: Snapshot, i: nat)
    requires IsDiff(d, previous, current) && i < |Events(d, previous, current)|
    ensures var e, m, n := Events(d, previous, current)[i], |d.started|, |d.started| + |d.stopped|;
            && Rank(e) == (if i < m then 0 else if i < n then 1 else 2)
            && (i < m ==> e.Started? && e.process == d.started[i])
            && (m <= i < n ==> e.Stopped? && e.process == d.stopped[i - m])
  {
    hide ByKey, ParentKey, IsStarted, IsStopped;
    var starts, stops := StartedEvents(d.started, current), StoppedEvents(d.stopped, previous, current);
    assert Events(d, previous, current)[i] ==
           if i < |starts| then starts[i]
           else if i < |starts| + |stops| then stops[i - |starts|]
           else d.changed[i - |starts| - |stops|];
    if i >= |starts| + |stops| { assert d.changed[i - |starts| - |stops|] in d.changed; }
  }

  /** Starts come before stops and stops before changes; starts and stops are each by creation time, then PID. */
  lemma DiffOrder(d: Diff, previous: Snapshot, current: Snapshot, i: nat, j: nat)
    requires IsDiff(d, previous, current) && i < j < |Events(d, previous, current)|
    ensures var e, f := Events(d, previous, current)[i], Events(d, previous, current)[j];
            && Rank(e) <= Rank(f)
            && (Rank(e) == Rank(f) != 2 ==> InListOrder(e.process, f.process))
  {
    hide ByKey, Events, Rank, IsChanged;
    EventAt(d, previous, current, i);
    EventAt(d, previous, current, j);
  }

  /** The inventory has one event for each record, with the parent it would have in a tree, in list order. */
  lemma InventoryIsExact(s: Snapshot)
    ensures var events := InventoryEvents(s);
            && |events| == |s.processes|
            && (forall e :: e in events <==>
                  e.Discovered? && e.process in s.processes && IsParentKey(s.processes, e.process, e.parent))
            && forall i, j :: 0 <= i < j < |events| ==> InListOrder(events[i].process, events[j].process)
  {
    hide ByPid, ParentKey, IsParentKey, StableSort;
    var list, events := StableSort(s.processes, Earlier), InventoryEvents(s);
    EarlierIsTotal();
    StableSortSorted(s.processes, Earlier);
    SortMembers(s.processes, Earlier);
    forall e
      ensures e in events <==>
              e.Discovered? && e.process in s.processes && IsParentKey(s.processes, e.process, e.parent)
    {
      if e.Discovered? { ParentKeyMeaning(s.processes, e.process, e.parent); }
      if e.Discovered? && e.process in s.processes && IsParentKey(s.processes, e.process, e.parent) {
        var i :| 0 <= i < |list| && list[i] == e.process;
        assert events[i] == e;
      }
    }
  }

  /** When a PID has passed from one process to another, the diff has a stop of the first and a start of the second. */
  lemma ReusedPidStopsAndStarts(d: Diff, previous: Snapshot, current: Snapshot, p: ProcessInfo, q: ProcessInfo)
    returns (parent: Option<ProcessKey>)
    requires IsDiff(d, previous, current) && p in previous.processes && q in current.processes
    requires p.pid == q.pid && KnownApart(p, q)
    requires forall x :: x in previous.processes && x.pid == p.pid ==> x == p
    requires forall x :: x in current.processes && x.pid == q.pid ==> x == q
    ensures Stopped(p, previous.at, current.at) in Events(d, previous, current)
    ensures Started(q, parent) in Events(d, previous, current)
  {
    hide IsDiff, Events, ParentKey;
    ApartMeansDifferent(p, q);
    OnlyHolder(previous.processes, p);
    OnlyHolder(current.processes, q);
    parent := ParentKey(q, ByPid(current.processes));
    ParentKeyMeaning(current.processes, q, parent);
    DiffIsExact(d, previous, current, Stopped(p, previous.at, current.at));
    DiffIsExact(d, previous, current, Started(q, parent));
    assert Stopped(p, previous.at, current.at) in multiset(Events(d, previous, current));
    assert Started(q, parent) in multiset(Events(d, previous, current));
  }

  lemma OnlyHolder(ps: seq<ProcessInfo>, p: ProcessInfo)
    requires p in ps && forall x :: x in ps && x.pid == p.pid ==> x == p
    ensures LastWithKey(ps, p)
  {
    TableMeaning(ps, p);
  }
}
