/** Socket tables diffed into connection and listener events: src/threatlens/monitors/network_monitor.py. */
module NetworkMonitor {
  import opened Collections
  import opened NetworkModels

  const EPHEMERAL_PORT_START: nat := 49152

  datatype Kind = DISCOVERED | OPENED | CLOSED

  /** The event type is the kind together with whether the socket listens. */
  datatype Event = Event(kind: Kind, listener: bool, item: CorrelatedConnection)

  /** A dict from connection keys to sockets: keys in insertion order, and the entries. */
  datatype Table = Table(keys: seq<ConnectionKey>, entries: map<ConnectionKey, CorrelatedConnection>)
  {
    ghost predicate Valid() {
      && NoDuplicates(keys)
      && (forall k :: k in keys <==> k in entries)
      && (forall k :: k in entries ==> entries[k].connection.Key() == k)
    }
  }

  predicate IsReportable(item: CorrelatedConnection) {
    var c := item.connection;
    c.pid != 0 && (c.protocol == UDP ==> c.localPort < EPHEMERAL_PORT_START)
  }

  function EventOf(kind: Kind, item: CorrelatedConnection): Event {
    Event(kind, item.connection.IsListener(), item)
  }

  function InventoryEvents(items: seq<CorrelatedConnection>): seq<Event> {
    if items == [] then []
    else InventoryEvents(Front(items)) + if IsReportable(Last(items)) then [EventOf(DISCOVERED, Last(items))] else []
  }

  /** {item.connection.connection_key: item for item in items}: the last socket with a key wins. */
  function Tabled(items: seq<CorrelatedConnection>): (t: Table)
    ensures t.Valid()
    ensures forall i :: i in items ==> i.connection.Key() in t.entries
    ensures forall k :: k in t.entries ==> t.entries[k] in items
  {
    if items == [] then Table([], map[])
    else
      var t, last := Tabled(Front(items)), Last(items);
      assert forall i :: i in items <==> i in Front(items) || i == last;
      Table(if last.connection.Key() in t.entries then t.keys else t.keys + [last.connection.Key()],
            t.entries[last.connection.Key() := last])
  }

  /** An event for every reportable entry of a table that the other table lacks, in the table's order. */
  function Missing(kind: Kind, keys: seq<ConnectionKey>, from: Table, other: Table): seq<Event> {
    if keys == [] then []
    else
      var k := Last(keys);
      Missing(kind, Front(keys), from, other)
      + if k !in other.entries && k in from.entries && IsReportable(from.entries[k])
        then [EventOf(kind, from.entries[k])] else []
  }

  function DiffConnections(previous: Table, current: seq<CorrelatedConnection>): seq<Event> {
    var now := Tabled(current);
    Missing(OPENED, now.keys, now, previous) + Missing(CLOSED, previous.keys, previous, now)
  }

  // ---- the monitor -----------------------------------------------------------------------------------------

  class NetworkMonitor {
    const emitInventory: bool
    var previous: Option<Table>

    constructor (emitInventory: bool)
      ensures this.emitInventory == emitInventory && previous == None
    {
      this.emitInventory := emitInventory;
      previous := None;
    }

    /** items are the collected sockets after correlation. */
    method Poll(items: seq<CorrelatedConnection>) returns (events: seq<Event>)
      modifies this
      ensures previous == Some(Tabled(items))
      ensures events == match old(previous)
                        case None => if emitInventory then InventoryEvents(items) else []
                        case Some(before) => DiffConnections(before, items)
    {
      if previous.None? {
        events := if emitInventory then InventoryEvents(items) else [];
      } else {
        events := DiffConnections(previous.value, items);
      }
      previous := Some(Tabled(items));
    }
  }

  // ---- replay ------------------------------------------------------------------------------------------------

  /** The open sockets according to the events alone, whatever LISTENER or CONNECTION kind each event has. */
  function Replay(open: set<ConnectionKey>, events: seq<Event>): set<ConnectionKey> {
    if events == [] then open
    else
      var rest, key := Replay(open, Front(events)), Last(events).item.connection.Key();
      if Last(events).kind == CLOSED then rest - {key} else rest + {key}
  }

  /** Reportability can be read off the key. */
  predicate ReportableKey(k: ConnectionKey) {
    k.pid != 0 && (k.protocol == UDP ==> k.localPort < EPHEMERAL_PORT_START)
  }

  ghost function ReportableKeys(t: Table): set<ConnectionKey> {
    set k | k in t.entries && ReportableKey(k)
  }

  lemma {:induction false} ReplayAppend(open: set<ConnectionKey>, a: seq<Event>, b: seq<Event>)
    ensures Replay(open, a + b) == Replay(Replay(open, a), b)
  {
    if b == [] {
      assert a + b == a;
    } else {
      assert Front(a + b) == a + Front(b);
      ReplayAppend(open, a, Front(b));
    }
  }

  lemma ReplayStep(open: set<ConnectionKey>, events: seq<Event>, e: Event)
    ensures Replay(open, events + [e]) ==
            if e.kind == CLOSED then Replay(open, events) - {e.item.connection.Key()}
            else Replay(open, events) + {e.item.connection.Key()}
  {
    assert Front(events + [e]) == events;
  }

  lemma ReportableByKey(item: CorrelatedConnection)
    ensures IsReportable(item) <==> ReportableKey(item.connection.Key())
  {
  }

  /** Whether a table's last key yields an event, and what that event does. */
  predicate Yields(k: ConnectionKey, other: Table) {
    k !in other.entries && ReportableKey(k)
  }

  lemma MissingStep(kind: Kind, keys: seq<ConnectionKey>, from: Table, other: Table)
    requires keys != [] && from.Valid() && Last(keys) in from.entries
    ensures Missing(kind, keys, from, other) ==
            if Yields(Last(keys), other)
            then Missing(kind, Front(keys), from, other) + [EventOf(kind, from.entries[Last(keys)])]
            else Missing(kind, Front(keys), from, other)
    ensures from.entries[Last(keys)].connection.Key() == Last(keys)
  {
    ReportableByKey(from.entries[Last(keys)]);
  }

  lemma {:induction false} ReplayMissing(open: set<ConnectionKey>, kind: Kind, keys: seq<ConnectionKey>, from: Table,
                                         other: Table)
    requires from.Valid() && forall k :: k in keys ==> k in from.entries
    ensures var more := set k | k in keys && Yields(k, other);
            Replay(open, Missing(kind, keys, from, other)) == if kind == CLOSED then open - more else open + more
  {
    hide Missing, Replay, Yields;
    if keys == [] {
      assert Replay(open, Missing(kind, keys, from, other)) == open by { NothingMissing(open, kind, from, other); }
    } else {
      ReplayMissing(open, kind, Front(keys), from, other);
      MissingStep(kind, keys, from, other);
      ReplayStep(open, Missing(kind, Front(keys), from, other), EventOf(kind, from.entries[Last(keys)]));
      assert forall j :: j in keys <==> j in Front(keys) || j == Last(keys);
    }
  }

  lemma NothingMissing(open: set<ConnectionKey>, kind: Kind, from: Table, other: Table)
    ensures Missing(kind, [], from, other) == [] && Replay(open, []) == open
  {
  }

  lemma ReplayDiff(previous: Table, current: seq<CorrelatedConnection>)
    requires previous.Valid()
    ensures Replay(ReportableKeys(previous), DiffConnections(previous, current)) == ReportableKeys(Tabled(current))
  {
    hide Replay, Missing, Tabled;
    var now := Tabled(current);
    var open := ReportableKeys(previous);
    var more := set k | k in now.keys && Yields(k, previous);
    ReplayMissing(open, OPENED, now.keys, now, previous);
    ReplayMissing(open + more, CLOSED, previous.keys, previous, now);
    ReplayAppend(open, Missing(OPENED, now.keys, now, previous), Missing(CLOSED, previous.keys, previous, now));
  }

  lemma InventoryStep(items: seq<CorrelatedConnection>)
    requires items != []
    ensures InventoryEvents(items) ==
            if ReportableKey(Last(items).connection.Key())
            then InventoryEvents(Front(items)) + [EventOf(DISCOVERED, Last(items))]
            else InventoryEvents(Front(items))
  {
    ReportableByKey(Last(items));
  }

  lemma {:induction false} ReplayInventory(items: seq<CorrelatedConnection>)
    ensures Replay({}, InventoryEvents(items)) == ReportableKeys(Tabled(items))
  {
    hide InventoryEvents, Replay, ReportableKey;
    if items == [] {
      assert InventoryEvents([]) == [] && Replay({}, []) == {} by { NoInventory(); }
    } else {
      ReplayInventory(Front(items));
      InventoryStep(items);
      ReplayStep({}, InventoryEvents(Front(items)), EventOf(DISCOVERED, Last(items)));
    }
  }

  lemma NoInventory()
    ensures InventoryEvents([]) == [] && Replay({}, []) == {}
  {
  }

  /** All events of a run of polls with inventory. */
  function Emitted(polls: seq<seq<CorrelatedConnection>>): seq<Event> {
    if polls == [] then []
    else if |polls| == 1 then InventoryEvents(polls[0])
    else Emitted(Front(polls)) + DiffConnections(Tabled(Last(Front(polls))), Last(polls))
  }

  /** Over any sequence of socket tables, the events reconstruct the reportable sockets of the last one. */
  lemma {:induction false} ReplayReconstructs(polls: seq<seq<CorrelatedConnection>>)
    requires polls != []
    ensures Replay({}, Emitted(polls)) == ReportableKeys(Tabled(Last(polls)))
  {
    hide Replay, InventoryEvents, DiffConnections, Tabled, ReportableKeys;
    if |polls| == 1 {
      ReplayInventory(polls[0]);
    } else {
      ReplayReconstructs(Front(polls));
      ReplayDiff(Tabled(Last(Front(polls))), Last(polls));
      ReplayAppend({}, Emitted(Front(polls)), DiffConnections(Tabled(Last(Front(polls))), Last(polls)));
    }
  }

  /** The events a diff should have: one for each reportable key that only one of the tables has. */
  predicate IsOpening(e: Event, previous: Table, now: Table) {
    var k := e.item.connection.Key();
    && e == EventOf(OPENED, e.item)
    && k in now.entries && now.entries[k] == e.item && k !in previous.entries && IsReportable(e.item)
  }

  predicate IsClosing(e: Event, previous: Table, now: Table) {
    var k := e.item.connection.Key();
    && e == EventOf(CLOSED, e.item)
    && k in previous.entries && previous.entries[k] == e.item && k !in now.entries && IsReportable(e.item)
  }

  /** How often an event occurs in one half of a diff. */
  lemma {:induction false} MissingIsExact(kind: Kind, keys: seq<ConnectionKey>, from: Table, other: Table, e: Event)
    requires from.Valid() && NoDuplicates(keys) && forall j :: j in keys ==> j in from.entries
    ensures var k := e.item.connection.Key();
            multiset(Missing(kind, keys, from, other))[e] ==
            if k in keys && from.entries[k] == e.item && e == EventOf(kind, e.item) && Yields(k, other) then 1 else 0
  {
    hide Missing, Yields;
    if keys == [] {
      NothingMissing({}, kind, from, other);
    } else {
      var last, earlier := Last(keys), Missing(kind, Front(keys), from, other);
      MissingIsExact(kind, Front(keys), from, other, e);
      MissingStep(kind, keys, from, other);
      OneMoreEvent(earlier, EventOf(kind, from.entries[last]), e);
      assert last !in Front(keys);
      assert e.item.connection.Key() in keys <==>
             e.item.connection.Key() in Front(keys) || e.item.connection.Key() == last;
    }
  }

  lemma OneMoreEvent(events: seq<Event>, more: Event, e: Event)
    ensures multiset(events + [more])[e] == multiset(events)[e] + if more == e then 1 else 0
  {
  }

  lemma TableDiffIsExact(previous: Table, current: seq<CorrelatedConnection>, e: Event)
    requires previous.Valid()
    ensures multiset(DiffConnections(previous, current))[e] ==
            if IsOpening(e, previous, Tabled(current)) || IsClosing(e, previous, Tabled(current)) then 1 else 0
  {
    hide Missing, Tabled;
    var now := Tabled(current);
    MissingIsExact(OPENED, now.keys, now, previous, e);
    MissingIsExact(CLOSED, previous.keys, previous, now, e);
    ReportableByKey(e.item);
    BothHalves(Missing(OPENED, now.keys, now, previous), Missing(CLOSED, previous.keys, previous, now), e);
  }

  lemma BothHalves(a: seq<Event>, b: seq<Event>, e: Event)
    ensures multiset(a + b)[e] == multiset(a)[e] + multiset(b)[e]
  {
  }

  // ---- the events in plain terms ---------------------------------------------------------------------------

  /** Somebody owns the socket, and it is not UDP on an ephemeral port. */
  predicate WorthReporting(item: CorrelatedConnection) {
    item.connection.pid != 0 && !(item.connection.protocol == UDP && item.connection.localPort >= 49152)
  }

  /** The event carries its socket, and is a listener event exactly for a listening or bound socket. */
  predicate Labelled(e: Event) {
    e.listener == (e.item.connection.direction in {LISTENING, BOUND})
  }

  predicate HasKey(items: seq<CorrelatedConnection>, key: ConnectionKey) {
    exists i :: 0 <= i < |items| && items[i].connection.Key() == key
  }

  function KeyOf(item: CorrelatedConnection): ConnectionKey { item.connection.Key() }

  /** item is listed, and no other record of the same socket is listed after it. */
  ghost predicate LastRecord(items: seq<CorrelatedConnection>, item: CorrelatedConnection) {
    IsLast(items, item, KeyOf)
  }

  lemma {:induction false} TableHoldsTheLast(items: seq<CorrelatedConnection>, item: CorrelatedConnection)
    ensures var t, k := Tabled(items).entries, item.connection.Key();
            && (k in t && t[k] == item <==> LastRecord(items, item))
            && (k in t <==> HasKey(items, k))
  {
    hide IsLast;
    if items == [] {
      NoLast(item, KeyOf);
    } else {
      IsLastStep(items, item, KeyOf);
      TableHoldsTheLast(Front(items), item);
      var k := item.connection.Key();
      if i :| 0 <= i < |items| && items[i].connection.Key() == k {
        assert i < |items| - 1 ==> Front(items)[i].connection.Key() == k;
      }
    }
  }

  /**
   * A diff has exactly one OPENED event for each socket worth reporting that is listed now and was not before,
   * one CLOSED event the other way round, and no other event.
   */
  lemma DiffIsExact(previous: seq<CorrelatedConnection>, current: seq<CorrelatedConnection>, e: Event)
    ensures var k := e.item.connection.Key();
            multiset(DiffConnections(Tabled(previous), current))[e] ==
            if Labelled(e) && WorthReporting(e.item)
               && ((e.kind == OPENED && LastRecord(current, e.item) && !HasKey(previous, k))
                   || (e.kind == CLOSED && LastRecord(previous, e.item) && !HasKey(current, k)))
            then 1 else 0
  {
    hide DiffConnections, Tabled;
    TableDiffIsExact(Tabled(previous), current, e);
    TableHoldsTheLast(previous, e.item);
    TableHoldsTheLast(current, e.item);
  }

  lemma {:induction false} KindOfMissing(kind: Kind, keys: seq<ConnectionKey>, from: Table, other: Table)
    ensures forall e :: e in Missing(kind, keys, from, other) ==> e.kind == kind
  {
    if keys == [] {
    } else {
      KindOfMissing(kind, Front(keys), from, other);
    }
  }

  /** Openings are reported before closings. */
  lemma OpeningsComeFirst(previous: Table, current: seq<CorrelatedConnection>)
    ensures var events := DiffConnections(previous, current);
            forall i, j :: 0 <= i < j < |events| && events[i].kind == CLOSED ==> events[j].kind == CLOSED
    ensures forall e :: e in DiffConnections(previous, current) ==> e.kind != DISCOVERED
  {
    hide Missing, Tabled;
    var now := Tabled(current);
    KindOfMissing(OPENED, now.keys, now, previous);
    KindOfMissing(CLOSED, previous.keys, previous, now);
    var a: seq<Event> := Missing(OPENED, now.keys, now, previous);
    var b: seq<Event> := Missing(CLOSED, previous.keys, previous, now);
    forall i | 0 <= i < |a + b| ensures (a + b)[i].kind == if i < |a| then OPENED else CLOSED {
      assert (a + b)[i] == if i < |a| then a[i] else b[i - |a|];
    }
  }

  /** The inventory has one DISCOVERED event for each record of a socket worth reporting, and no other event. */
  lemma {:induction false} InventoryIsExact(items: seq<CorrelatedConnection>, e: Event)
    ensures multiset(InventoryEvents(items))[e] ==
            if e.kind == DISCOVERED && Labelled(e) && WorthReporting(e.item) then multiset(items)[e.item] else 0
  {
    if items == [] {
    } else {
      InventoryIsExact(Front(items), e);
      assert items == Front(items) + [Last(items)];
    }
  }
}
