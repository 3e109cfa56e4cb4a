/**
 * The in-memory host model, src/threatlens/core/state.py, and the plain ledger it has to agree with:
 * what was seen, and when did it go.
 */
module SystemState {
  import opened Collections
  import opened ProcessModels
  import opened LruCache

  datatype Enrichment = Enrichment(
    sha256: Option<string>,
    signature: Option<Signature>,
    issues: map<string, FieldIssue>)

  /** Events are opaque here; a number names one. */
  type Event = nat

  datatype Settings = Settings(retention: Time, historySize: nat)

  datatype Host = Host(
    current: map<ProcessKey, ProcessInfo>,
    byPid: map<nat, ProcessKey>,
    exited: map<ProcessKey, (ProcessInfo, Time)>,
    enrichment: map<ProcessKey, Enrichment>,
    history: map<ProcessKey, seq<Event>>)

  datatype Call =
    | Snapshot(at: Time, processes: seq<ProcessInfo>)
    | Observe(info: ProcessInfo, at: Time)
    | Enrich(key: ProcessKey, enrichment: Enrichment)
    | Record(key: ProcessKey, event: Event)

  const EMPTY := Host(map[], map[], map[], map[], map[])

  // ---- the calls as functions on the state ---------------------------------------------------------

  /** Dictionary order of by_key: a key stands where it was first seen. */
  function KeyOrder(ps: seq<ProcessInfo>): seq<ProcessKey> {
    if ps == [] then []
    else
      var keys := KeyOrder(Front(ps));
      if Last(ps).Key() in keys then keys else keys + [Last(ps).Key()]
  }

  /** {p.pid: p.process_key for p in incoming.values()}. */
  function PidIndex(keys: seq<ProcessKey>): map<nat, ProcessKey> {
    if keys == [] then map[] else PidIndex(Front(keys))[Last(keys).pid := Last(keys)]
  }

  function Restrict<V>(m: map<ProcessKey, V>, live: set<ProcessKey>): map<ProcessKey, V> {
    map k | k in m && k in live :: m[k]
  }

  function Pruned(h: Host, cutoff: Time): Host {
    var exited := map k | k in h.exited && h.exited[k].1 >= cutoff :: h.exited[k];
    var live := h.current.Keys + exited.Keys;
    h.(exited := exited, enrichment := Restrict(h.enrichment, live), history := Restrict(h.history, live))
  }

  function Vanished(h: Host, incoming: map<ProcessKey, ProcessInfo>, at: Time): map<ProcessKey, (ProcessInfo, Time)> {
    map k | k in h.current && k !in incoming :: (h.current[k], at)
  }

  function Snapshotted(s: Settings, h: Host, at: Time, ps: seq<ProcessInfo>): Host {
    var incoming := ByKey(ps);
    Pruned(h.(current := incoming,
              byPid := PidIndex(KeyOrder(ps)),
              exited := (h.exited + Vanished(h, incoming, at)) - incoming.Keys),
           at - s.retention)
  }

  /** The previous holder of the PID, if the index names one, has exited. */
  function Displaced(h: Host, pid: nat, at: Time): Host {
    if pid in h.byPid && h.byPid[pid] in h.current then
      var previous := h.byPid[pid];
      h.(exited := h.exited[previous := (h.current[previous], at)], current := h.current - {previous})
    else h
  }

  function Observed(h: Host, info: ProcessInfo, at: Time): Host {
    var key := info.Key();
    if key in h.current || key in h.exited then h
    else
      var d := Displaced(h, info.pid, at);
      d.(current := d.current[key := info], byPid := d.byPid[info.pid := key])
  }

  function Recorded(s: Settings, h: Host, key: ProcessKey, event: Event): Host {
    h.(history := h.history[key := LastN(EventsOf(h, key) + [event], s.historySize)])
  }

  function EventsOf(h: Host, key: ProcessKey): seq<Event> {
    if key in h.history then h.history[key] else []
  }

  function Step(s: Settings, h: Host, c: Call): Host {
    match c
    case Snapshot(at, ps) => Snapshotted(s, h, at, ps)
    case Observe(info, at) => Observed(h, info, at)
    case Enrich(key, e) => h.(enrichment := h.enrichment[key := e])
    case Record(key, event) => Recorded(s, h, key, event)
  }

  function Run(s: Settings, log: seq<Call>): Host {
    if log == [] then EMPTY else Step(s, Run(s, Front(log)), Last(log))
  }

  // ---- queries ---------------------------------------------------------------------------------------

  function Merged(h: Host, info: ProcessInfo): (r: ProcessInfo)
    ensures r.Key() == info.Key() && r.pid == info.pid && r.ppid == info.ppid && r.createTime == info.createTime
  {
    if info.Key() !in h.enrichment then info
    else
      var e := h.enrichment[info.Key()];
      info.(sha256 := e.sha256, signature := e.signature, unavailable := info.unavailable + e.issues)
  }

  function Process(h: Host, key: ProcessKey): Option<ProcessInfo> {
    if key in h.current then Some(Merged(h, h.current[key]))
    else if key in h.exited then Some(Merged(h, h.exited[key].0))
    else None
  }

  function ProcessByPid(h: Host, pid: nat): Option<ProcessInfo> {
    if pid in h.byPid && h.byPid[pid] in h.current then Some(Merged(h, h.current[h.byPid[pid]])) else None
  }

  // ---- the ledger: everything seen, nothing pruned ---------------------------------------------------

  /** Who is there, and for everyone who ever left: the last sight of them and the time they went. */
  datatype Ledger = Ledger(present: map<ProcessKey, ProcessInfo>, gone: map<ProcessKey, (ProcessInfo, Time)>)

  function LastCutoff(s: Settings, log: seq<Call>): Option<Time> {
    if log == [] then None
    else if Last(log).Snapshot? then Some(Last(log).at - s.retention)
    else LastCutoff(s, Front(log))
  }

  predicate Recent(t: Time, cutoff: Option<Time>) {
    cutoff.None? || t >= cutoff.value
  }

  /** A key can be looked up: its process is there, or went recently enough at the last snapshot. */
  predicate Resolvable(s: Settings, log: seq<Call>, key: ProcessKey) {
    var l := LedgerOf(s, log);
    key in l.present || (key in l.gone && Recent(l.gone[key].1, LastCutoff(s, log)))
  }

  function Leave(l: Ledger, leaving: set<ProcessKey>, at: Time): map<ProcessKey, (ProcessInfo, Time)> {
    l.gone + map k | k in l.present && k in leaving :: (l.present[k], at)
  }

  function HoldersOf(l: Ledger, pid: nat): set<ProcessKey> {
    set k | k in l.present && k.pid == pid
  }

  function LedgerOf(s: Settings, log: seq<Call>): Ledger
    decreases |log|, 0
  {
    if log == [] then Ledger(map[], map[])
    else
      var l := LedgerOf(s, Front(log));
      match Last(log)
      case Snapshot(at, ps) =>
        var incoming := ByKey(ps);
        Ledger(incoming, Leave(l, l.present.Keys - incoming.Keys, at))
      case Observe(info, at) =>
        if info.Key() in l.present
           || (info.Key() in l.gone && Recent(l.gone[info.Key()].1, LastCutoff(s, Front(log)))) then l
        else
          var leaving := HoldersOf(l, info.pid);
          Ledger((l.present - leaving)[info.Key() := info], Leave(l, leaving, at))
      case _ => l
  }

  /** What the enrichment and event tables should hold: emptied whenever a snapshot no longer resolves the key. */
  function KeptEnrichment(s: Settings, log: seq<Call>, key: ProcessKey): Option<Enrichment> {
    if log == [] then None
    else
      match Last(log)
      case Snapshot(_, _) => if Resolvable(s, log, key) then KeptEnrichment(s, Front(log), key) else None
      case Enrich(k, e) => if k == key then Some(e) else KeptEnrichment(s, Front(log), key)
      case _ => KeptEnrichment(s, Front(log), key)
  }

  function KeptEvents(s: Settings, log: seq<Call>, key: ProcessKey): seq<Event> {
    if log == [] then []
    else
      match Last(log)
      case Snapshot(_, _) => if Resolvable(s, log, key) then KeptEvents(s, Front(log), key) else []
      case Record(k, e) => KeptEvents(s, Front(log), key) + if k == key then [e] else []
      case _ => KeptEvents(s, Front(log), key)
  }

  // ---- hypotheses on a log -----------------------------------------------------------------------------

  function TimeOf(c: Call): Option<Time> {
    match c
    case Snapshot(at, _) => Some(at)
    case Observe(_, at) => Some(at)
    case _ => None
  }

  /** Time does not run backwards, and no snapshot lists one PID twice. */
  ghost predicate Orderly(log: seq<Call>) {
    && (forall i, j :: 0 <= i < j < |log| && TimeOf(log[i]).Some? && TimeOf(log[j]).Some? ==>
          TimeOf(log[i]).value <= TimeOf(log[j]).value)
    && (forall i :: 0 <= i < |log| && log[i].Snapshot? ==> DistinctPids(log[i].processes))
  }

  ghost predicate DistinctPids(ps: seq<ProcessInfo>) {
    forall i, j :: 0 <= i < j < |ps| ==> ps[i].pid != ps[j].pid
  }

  // ---- the invariant -------------------------------------------------------------------------------------

  /** The PID index names, for every PID, the one current instance holding it. */
  ghost predicate IndexAgrees(h: Host) {
    && (forall k :: k in h.current ==> h.current[k].Key() == k)
    && (forall k :: k in h.current ==> k.pid in h.byPid && h.byPid[k.pid] == k)
    && (forall pid :: pid in h.byPid ==> h.byPid[pid] in h.current && h.byPid[pid].pid == pid)
  }

  /** The state is the ledger without the exits that have expired. */
  ghost predicate Matches(l: Ledger, cutoff: Option<Time>, h: Host) {
    && h.current == l.present
    && (forall k :: k in h.exited <==> k in l.gone && k !in l.present && Recent(l.gone[k].1, cutoff))
    && (forall k :: k in h.exited ==> h.exited[k] == l.gone[k] && h.exited[k].0.Key() == k)
    && IndexAgrees(h)
  }

  ghost predicate Refines(s: Settings, log: seq<Call>, h: Host) {
    Matches(LedgerOf(s, log), LastCutoff(s, log), h)
  }

  // ---- proof that every run refines the ledger -----------------------------------------------------------

  lemma {:induction false} KeyOrderMembers(ps: seq<ProcessInfo>)
    ensures forall k :: k in KeyOrder(ps) <==> k in ByKey(ps)
  {
    if ps != [] { KeyOrderMembers(Front(ps)); }
  }

  lemma {:induction false} PidIndexMembers(keys: seq<ProcessKey>)
    ensures forall pid :: pid in PidIndex(keys) ==> PidIndex(keys)[pid] in keys && PidIndex(keys)[pid].pid == pid
    ensures forall k :: k in keys ==> k.pid in PidIndex(keys)
  {
    if keys == [] {
    } else {
      PidIndexMembers(Front(keys));
      assert forall k :: k in keys <==> k in Front(keys) || k == Last(keys);
    }
  }

  lemma SnapshotIndexAgrees(s: Settings, h: Host, at: Time, ps: seq<ProcessInfo>)
    requires DistinctPids(ps)
    ensures IndexAgrees(Snapshotted(s, h, at, ps))
  {
    hide KeyOrder, PidIndex, ByKey;
    var incoming := ByKey(ps);
    KeyOrderMembers(ps);
    PidIndexMembers(KeyOrder(ps));
    forall k, l | k in incoming && l in incoming && k.pid == l.pid ensures k == l {
      var i :| 0 <= i < |ps| && ps[i] == incoming[k];
      var j :| 0 <= j < |ps| && ps[j] == incoming[l];
      assert i == j;
    }
  }

  lemma {:induction false} CutoffIsASnapshot(s: Settings, log: seq<Call>) returns (i: nat)
    requires LastCutoff(s, log).Some?
    ensures i < |log| && log[i].Snapshot? && LastCutoff(s, log).value == log[i].at - s.retention
  {
    if Last(log).Snapshot? { i := |log| - 1; } else { i := CutoffIsASnapshot(s, Front(log)); }
  }

  lemma CutoffAdvances(s: Settings, log: seq<Call>)
    requires log != [] && Orderly(log) && TimeOf(Last(log)).Some?
    ensures var c := LastCutoff(s, Front(log));
            c.Some? ==> c.value <= TimeOf(Last(log)).value - s.retention
  {
    if LastCutoff(s, Front(log)).Some? {
      var i := CutoffIsASnapshot(s, Front(log));
      assert log[i].Snapshot? && TimeOf(log[i]).Some?;
    }
  }

  function SnapshotLedger(l: Ledger, incoming: map<ProcessKey, ProcessInfo>, at: Time): Ledger {
    Ledger(incoming, Leave(l, l.present.Keys - incoming.Keys, at))
  }

  lemma SnapshotMatches(s: Settings, l: Ledger, cutoff: Option<Time>, h: Host, at: Time, ps: seq<ProcessInfo>)
    requires Matches(l, cutoff, h) && s.retention >= 0 && DistinctPids(ps)
    requires cutoff.Some? ==> cutoff.value <= at - s.retention
    ensures Matches(SnapshotLedger(l, ByKey(ps), at), Some(at - s.retention), Snapshotted(s, h, at, ps))
  {
    hide ByKey, PidIndex, KeyOrder, Restrict, IndexAgrees;
    SnapshotIndexAgrees(s, h, at, ps);
    IndexedKeys(h);
    SnapshotExits(s, l, cutoff, h, at, ps);
  }

  lemma SnapshotExits(s: Settings, l: Ledger, cutoff: Option<Time>, h: Host, at: Time, ps: seq<ProcessInfo>)
    requires Matches(l, cutoff, h) && s.retention >= 0
    requires cutoff.Some? ==> cutoff.value <= at - s.retention
    requires forall k :: k in h.current ==> h.current[k].Key() == k
    ensures var l', h' := SnapshotLedger(l, ByKey(ps), at), Snapshotted(s, h, at, ps);
            && (forall k :: k in h'.exited <==>
                  k in l'.gone && k !in l'.present && Recent(l'.gone[k].1, Some(at - s.retention)))
            && (forall k :: k in h'.exited ==> h'.exited[k] == l'.gone[k] && h'.exited[k].0.Key() == k)
  {
    hide *;
    forall k { SnapshotExit(s, l, cutoff, h, at, ps, k); }
  }

  lemma SnapshotExit(s: Settings, l: Ledger, cutoff: Option<Time>, h: Host, at: Time, ps: seq<ProcessInfo>,
                     k: ProcessKey)
    requires Matches(l, cutoff, h) && s.retention >= 0
    requires cutoff.Some? ==> cutoff.value <= at - s.retention
    requires forall k :: k in h.current ==> h.current[k].Key() == k
    ensures var l', h' := SnapshotLedger(l, ByKey(ps), at), Snapshotted(s, h, at, ps);
            && (k in h'.exited <==>
                  k in l'.gone && k !in l'.present && Recent(l'.gone[k].1, Some(at - s.retention)))
            && (k in h'.exited ==> h'.exited[k] == l'.gone[k] && h'.exited[k].0.Key() == k)
  {
    hide ByKey, PidIndex, KeyOrder, Restrict, IndexAgrees;
    var incoming := ByKey(ps);
    if k in h.current && k !in incoming {
      assert Vanished(h, incoming, at)[k] == (h.current[k], at);
    }
  }

  lemma IndexedKeys(h: Host)
    requires IndexAgrees(h)
    ensures forall k :: k in h.current ==> h.current[k].Key() == k
  {
  }

  lemma HoldersAreIndexed(h: Host, l: Ledger, pid: nat)
    requires IndexAgrees(h) && h.current == l.present
    ensures HoldersOf(l, pid) == if pid in h.byPid then {h.byPid[pid]} else {}
    ensures forall k :: k in HoldersOf(l, pid) ==> k in h.current && h.current[k].Key() == k
  {
  }

  lemma ObservedIndexAgrees(h: Host, info: ProcessInfo, at: Time)
    requires IndexAgrees(h)
    ensures IndexAgrees(Observed(h, info, at))
  {
  }

  lemma ObserveMatches(l: Ledger, cutoff: Option<Time>, h: Host, info: ProcessInfo, at: Time)
    requires Matches(l, cutoff, h) && Recent(at, cutoff)
    requires info.Key() !in l.present && !(info.Key() in l.gone && Recent(l.gone[info.Key()].1, cutoff))
    ensures var leaving := HoldersOf(l, info.pid);
            Matches(Ledger((l.present - leaving)[info.Key() := info], Leave(l, leaving, at)), cutoff,
                    Observed(h, info, at))
  {
    hide IndexAgrees, HoldersOf;
    HoldersAreIndexed(h, l, info.pid);
    ObservedIndexAgrees(h, info, at);
    var leaving := HoldersOf(l, info.pid);
    var h' := Observed(h, info, at);
    if info.pid in h.byPid {
      var previous := h.byPid[info.pid];
      assert previous in leaving;
      OneLeaves(l, cutoff, h, previous, info, at);
    } else {
      assert l.present - {} == l.present;
      assert Leave(l, {}, at) == l.gone;
    }
  }

  lemma OneLeaves(l: Ledger, cutoff: Option<Time>, h: Host, previous: ProcessKey, info: ProcessInfo, at: Time)
    requires Matches(l, cutoff, h) && Recent(at, cutoff)
    requires info.Key() !in h.current && info.Key() !in h.exited
    requires info.pid in h.byPid && h.byPid[info.pid] == previous && previous in h.current
    requires h.current[previous].Key() == previous
    ensures var l' := Ledger((l.present - {previous})[info.Key() := info], Leave(l, {previous}, at));
            var h' := Observed(h, info, at);
            && h'.current == l'.present
            && (forall k :: k in h'.exited <==> k in l'.gone && k !in l'.present && Recent(l'.gone[k].1, cutoff))
            && (forall k :: k in h'.exited ==> h'.exited[k] == l'.gone[k] && h'.exited[k].0.Key() == k)
  {
    hide IndexAgrees;
    assert Leave(l, {previous}, at) == l.gone[previous := (l.present[previous], at)];
  }

  lemma SnapshotRefines(s: Settings, log: seq<Call>, h: Host)
    requires log != [] && Last(log).Snapshot? && Orderly(log) && s.retention >= 0
    requires Refines(s, Front(log), h)
    ensures Refines(s, log, Step(s, h, Last(log)))
  {
    hide Matches, Snapshotted, ByKey, Leave;
    CutoffAdvances(s, log);
    assert DistinctPids(log[|log| - 1].processes);
    SnapshotMatches(s, LedgerOf(s, Front(log)), LastCutoff(s, Front(log)), h, Last(log).at, Last(log).processes);
  }

  lemma ObserveRefines(s: Settings, log: seq<Call>, h: Host)
    requires log != [] && Last(log).Observe? && Orderly(log) && s.retention >= 0
    requires Refines(s, Front(log), h)
    ensures Refines(s, log, Step(s, h, Last(log)))
  {
    hide Observed, Leave, HoldersOf, IndexAgrees;
    var Observe(info, at) := Last(log);
    var l, cutoff := LedgerOf(s, Front(log)), LastCutoff(s, Front(log));
    CutoffAdvances(s, log);
    ObserveKnown(h, info, at);
    if !(info.Key() in l.present || (info.Key() in l.gone && Recent(l.gone[info.Key()].1, cutoff))) {
      ObserveMatches(l, cutoff, h, info, at);
    }
  }

  lemma ObserveKnown(h: Host, info: ProcessInfo, at: Time)
    ensures info.Key() in h.current || info.Key() in h.exited ==> Observed(h, info, at) == h
  {
  }

  /** Under an orderly clock every run agrees with the ledger of its calls. */
  lemma {:induction false} RunRefines(s: Settings, log: seq<Call>)
    requires Orderly(log) && s.retention >= 0
    ensures Refines(s, log, Run(s, log))
  {
    hide Step, Snapshotted, Observed;
    if log == [] {
    } else {
      assert forall i :: 0 <= i < |Front(log)| ==> Front(log)[i] == log[i];
      RunRefines(s, Front(log));
      match Last(log)
      case Snapshot(_, _) => SnapshotRefines(s, log, Run(s, Front(log)));
      case Observe(_, _) => ObserveRefines(s, log, Run(s, Front(log)));
      case Enrich(_, _) => OtherRefines(s, log, Run(s, Front(log)));
      case Record(_, _) => OtherRefines(s, log, Run(s, Front(log)));
    }
  }

  lemma OtherRefines(s: Settings, log: seq<Call>, h: Host)
    requires log != [] && (Last(log).Enrich? || Last(log).Record?) && Refines(s, Front(log), h)
    ensures Refines(s, log, Step(s, h, Last(log)))
  {
  }

  // ---- what a caller sees ----------------------------------------------------------------------------------

  /** A lookup succeeds exactly for resolvable keys, and returns the last sight of the process. */
  lemma LookupSeesResolvable(s: Settings, log: seq<Call>, key: ProcessKey)
    requires Orderly(log) && s.retention >= 0
    ensures var h, l := Run(s, log), LedgerOf(s, log);
            && (Process(h, key).Some? <==> Resolvable(s, log, key))
            && (Process(h, key).Some? ==>
                  Process(h, key).value == Merged(h, if key in l.present then l.present[key] else l.gone[key].0))
            && (key in h.current ==> key !in h.exited)
  {
    hide Run, LedgerOf, LastCutoff, Merged, IndexAgrees;
    RunRefines(s, log);
  }

  /** Right after a snapshot: in the snapshot, or gone no longer ago than the retention. */
  lemma ResolvableAfterSnapshot(s: Settings, log: seq<Call>, key: ProcessKey)
    requires Orderly(log) && s.retention >= 0 && log != [] && Last(log).Snapshot?
    ensures var gone := LedgerOf(s, log).gone;
            Process(Run(s, log), key).Some? <==>
            key in ByKey(Last(log).processes) || (key in gone && gone[key].1 >= Last(log).at - s.retention)
  {
    hide Run, Merged, Process, ByKey;
    LookupSeesResolvable(s, log, key);
  }

  function EnrichmentOf(h: Host, key: ProcessKey): Option<Enrichment> {
    if key in h.enrichment then Some(h.enrichment[key]) else None
  }

  /** What one call does to the enrichment and the events of one key. */
  lemma StepOnTables(s: Settings, h: Host, c: Call, key: ProcessKey)
    ensures var h' := Step(s, h, c);
            match c
            case Snapshot(_, _) =>
              var live := Process(h', key).Some?;
              && EnrichmentOf(h', key) == (if live then EnrichmentOf(h, key) else None)
              && EventsOf(h', key) == if live then EventsOf(h, key) else []
            case Enrich(k, e) =>
              && EnrichmentOf(h', key) == (if k == key then Some(e) else EnrichmentOf(h, key))
              && EventsOf(h', key) == EventsOf(h, key)
            case Record(k, e) =>
              && EnrichmentOf(h', key) == EnrichmentOf(h, key)
              && EventsOf(h', key) ==
                 if k == key then LastN(EventsOf(h, key) + [e], s.historySize) else EventsOf(h, key)
            case Observe(_, _) =>
              EnrichmentOf(h', key) == EnrichmentOf(h, key) && EventsOf(h', key) == EventsOf(h, key)
  {
    hide ByKey, PidIndex, KeyOrder, Merged, LastN, Vanished;
  }

  /** The table of enrichments is the reference one at every point of every run. */
  lemma {:induction false} EnrichmentIsKept(s: Settings, log: seq<Call>, key: ProcessKey)
    requires Orderly(log) && s.retention >= 0
    ensures EnrichmentOf(Run(s, log), key) == KeptEnrichment(s, log, key)
  {
    hide Step, Resolvable, Process, EventsOf, LastN;
    if log == [] {
    } else {
      assert forall i :: 0 <= i < |Front(log)| ==> Front(log)[i] == log[i];
      EnrichmentIsKept(s, Front(log), key);
      LookupSeesResolvable(s, log, key);
      StepOnTables(s, Run(s, Front(log)), Last(log), key);
    }
  }

  lemma LastNAppend<T>(xs: seq<T>, x: T, n: nat)
    ensures LastN(LastN(xs, n) + [x], n) == LastN(xs + [x], n)
  {
  }

  /** The event history of a process is its last events since it was last forgotten. */
  lemma {:induction false} EventsAreKept(s: Settings, log: seq<Call>, key: ProcessKey)
    requires Orderly(log) && s.retention >= 0
    ensures EventsOf(Run(s, log), key) == LastN(KeptEvents(s, log, key), s.historySize)
  {
    hide Step, Resolvable, Process, EnrichmentOf, LastN;
    LastNOfEmpty<Event>(s.historySize);
    if log == [] {
      assert EventsOf(EMPTY, key) == [];
    } else {
      assert forall i :: 0 <= i < |Front(log)| ==> Front(log)[i] == log[i];
      EventsAreKept(s, Front(log), key);
      LookupSeesResolvable(s, log, key);
      StepOnTables(s, Run(s, Front(log)), Last(log), key);
      var kept := KeptEvents(s, Front(log), key);
      assert kept + [] == kept;
      if Last(log).Record? {
        LastNAppend(kept, Last(log).event, s.historySize);
      }
    }
  }

  lemma LastNOfEmpty<T>(n: nat)
    ensures LastN<T>([], n) == []
  {
  }

  lemma {:induction false} KeptWhileResolvable(s: Settings, log: seq<Call>, i: nat)
    requires Orderly(log) && s.retention >= 0
    requires i < |log| && log[i].Enrich?
    requires forall j :: i < j < |log| ==> !(log[j].Enrich? && log[j].key == log[i].key)
    ensures KeptEnrichment(s, log, log[i].key) ==
            if AlwaysResolvable(s, log, i, log[i].key) then Some(log[i].enrichment) else None
  {
    hide LedgerOf, LastCutoff, Resolvable;
    var n := |log| - 1;
    assert UpTo(log, n) == log;
    if i < n {
      var f := Front(log);
      assert forall j :: 0 <= j < n ==> f[j] == log[j];
      forall j | 0 <= j < n ensures UpTo(f, j) == UpTo(log, j) { }
      KeptWhileResolvable(s, f, i);
    }
  }

  /** Every snapshot after a call has resolved the key. */
  predicate AlwaysResolvable(s: Settings, log: seq<Call>, i: nat, key: ProcessKey) {
    forall j :: i < j < |log| && log[j].Snapshot? ==> Resolvable(s, UpTo(log, j), key)
  }

  /** What the host holds about a process, before enrichment is merged in. */
  function Sight(h: Host, key: ProcessKey): Option<ProcessInfo> {
    if key in h.current then Some(h.current[key])
    else if key in h.exited then Some(h.exited[key].0)
    else None
  }

  /** What was seen with the enrichment laid over it: only hash, signature and issues are touched. */
  ghost predicate Shows(shown: ProcessInfo, seen: ProcessInfo, e: Enrichment) {
    && shown.sha256 == e.sha256 && shown.signature == e.signature
    && shown.pid == seen.pid && shown.ppid == seen.ppid && shown.createTime == seen.createTime
    && shown.exe == seen.exe && shown.suspended == seen.suspended
    && forall f ::
         && (f in shown.unavailable <==> f in e.issues || f in seen.unavailable)
         && (f in e.issues ==> shown.unavailable[f] == e.issues[f])
         && (f in seen.unavailable && f !in e.issues ==> shown.unavailable[f] == seen.unavailable[f])
  }

  /**
   * Enrichment set once stays in the host exactly as long as every snapshot since has still resolved the
   * key. While it does, a lookup returns its hash and signature with its issues over those seen, and
   * everything else as last seen; afterwards only what was last seen.
   */
  lemma EnrichmentVisibleWhileResolvable(s: Settings, log: seq<Call>, i: nat)
    requires Orderly(log) && s.retention >= 0
    requires i < |log| && log[i].Enrich?
    requires forall j :: i < j < |log| ==> !(log[j].Enrich? && log[j].key == log[i].key)
    ensures var h, key, e := Run(s, log), log[i].key, log[i].enrichment;
            var kept := AlwaysResolvable(s, log, i, key);
            && EnrichmentOf(h, key) == (if kept then Some(e) else None)
            && (Process(h, key).Some? <==> Resolvable(s, log, key))
            && (Process(h, key).Some? <==> Sight(h, key).Some?)
            && (Process(h, key).Some? && kept ==> Shows(Process(h, key).value, Sight(h, key).value, e))
            && (Process(h, key).Some? && !kept ==> Process(h, key) == Sight(h, key))
  {
    hide Run, LedgerOf, LastCutoff, Resolvable, KeptEnrichment, AlwaysResolvable;
    KeptWhileResolvable(s, log, i);
    EnrichmentIsKept(s, log, log[i].key);
    LookupSeesResolvable(s, log, log[i].key);
    SeenUnderItsKey(s, log, log[i].key);
  }

  lemma SeenUnderItsKey(s: Settings, log: seq<Call>, key: ProcessKey)
    requires Orderly(log) && s.retention >= 0
    ensures Sight(Run(s, log), key).Some? ==> Sight(Run(s, log), key).value.Key() == key
  {
    hide Run, LedgerOf, LastCutoff, Merged;
    RunRefines(s, log);
  }

  function UpTo(log: seq<Call>, j: int): seq<Call>
    requires 0 <= j < |log|
  {
    log[..j + 1]
  }

  // ---- the class ---------------------------------------------------------------------------------------------

  /** What has vanished among the keys already looked at. */
  function VanishedBut(h: Host, incoming: map<ProcessKey, ProcessInfo>, at: Time, todo: set<ProcessKey>)
    : map<ProcessKey, (ProcessInfo, Time)>
  {
    map k | k in h.current && k !in incoming && k !in todo :: (h.current[k], at)
  }

  lemma VanishBounds(base: map<ProcessKey, (ProcessInfo, Time)>, h: Host, incoming: map<ProcessKey, ProcessInfo>,
                     at: Time)
    ensures base + VanishedBut(h, incoming, at, h.current.Keys) == base
    ensures VanishedBut(h, incoming, at, {}) == Vanished(h, incoming, at)
  {
  }

  lemma VanishStep(base: map<ProcessKey, (ProcessInfo, Time)>, h: Host, incoming: map<ProcessKey, ProcessInfo>,
                   at: Time, todo: set<ProcessKey>, key: ProcessKey)
    requires key in todo && key in h.current
    ensures base + VanishedBut(h, incoming, at, todo - {key}) ==
            if key in incoming then base + VanishedBut(h, incoming, at, todo)
            else (base + VanishedBut(h, incoming, at, todo))[key := (h.current[key], at)]
  {
  }

  lemma RestrictByDifference<V>(m: map<ProcessKey, V>, live: set<ProcessKey>)
    ensures m - (m.Keys - live) == Restrict(m, live)
  {
  }

  lemma ExitsKept(exited: map<ProcessKey, (ProcessInfo, Time)>, cutoff: Time)
    ensures exited - (set k | k in exited && exited[k].1 < cutoff) ==
            map k | k in exited && exited[k].1 >= cutoff :: exited[k]
  {
  }

  class HostState {
    const settings: Settings
    var current: map<ProcessKey, ProcessInfo>
    var currentByPid: map<nat, ProcessKey>
    var exited: map<ProcessKey, (ProcessInfo, Time)>
    var enrichment: map<ProcessKey, Enrichment>
    var history: map<ProcessKey, seq<Event>>

    function State(): Host
      reads this
    {
      Host(current, currentByPid, exited, enrichment, history)
    }

    constructor (settings: Settings)
      ensures this.settings == settings && State() == EMPTY
    {
      this.settings := settings;
      current, currentByPid, exited, enrichment, history := map[], map[], map[], map[], map[];
    }

    method ApplyProcessSnapshot(at: Time, processes: seq<ProcessInfo>)
      modifies this
      ensures State() == Step(settings, old(State()), Snapshot(at, processes))
    {
      hide ByKey, KeyOrder, PidIndex, Pruned, Vanished;
      var incoming := ByKey(processes);
      MarkVanished(incoming, at);
      exited := exited - incoming.Keys;
      current := incoming;
      currentByPid := PidIndex(KeyOrder(processes));
      Prune(at);
    }

    /** for key, info in current: what is not in the new snapshot has exited at its time. */
    method MarkVanished(incoming: map<ProcessKey, ProcessInfo>, at: Time)
      modifies this`exited
      ensures exited == old(exited) + Vanished(old(State()), incoming, at)
    {
      hide VanishedBut, Vanished;
      var todo := current.Keys;
      VanishBounds(exited, State(), incoming, at);
      while todo != {}
        invariant todo <= current.Keys
        invariant exited == old(exited) + VanishedBut(old(State()), incoming, at, todo)
        decreases todo
      {
        var key :| key in todo;
        VanishStep(old(exited), old(State()), incoming, at, todo, key);
        todo := todo - {key};
        if key !in incoming { exited := exited[key := (current[key], at)]; }
      }
    }

    method Prune(now: Time)
      modifies this
      ensures State() == Pruned(old(State()), now - settings.retention)
    {
      hide Restrict;
      var cutoff := now - settings.retention;
      var expired := set k | k in exited && exited[k].1 < cutoff;
      ExitsKept(exited, cutoff);
      exited := exited - expired;
      var live := current.Keys + exited.Keys;
      RestrictByDifference(enrichment, live);
      RestrictByDifference(history, live);
      enrichment := enrichment - (enrichment.Keys - live);
      history := history - (history.Keys - live);
    }

    /** The index never names a process that is not current, so the source's pop cannot fail. */
    method ObserveProcess(info: ProcessInfo, now: Time)
      requires IndexIsLive(State())
      modifies this
      ensures State() == Step(settings, old(State()), Observe(info, now))
    {
      var key := info.Key();
      if key in current || key in exited { return; }
      if info.pid in currentByPid {
        var previous := currentByPid[info.pid];
        exited := exited[previous := (current[previous], now)];
        current := current - {previous};
      }
      current := current[key := info];
      currentByPid := currentByPid[info.pid := key];
    }

    method SetEnrichment(key: ProcessKey, sha256: Option<string>, signature: Option<Signature>,
                         issues: map<string, FieldIssue>)
      modifies this`enrichment
      ensures State() == Step(settings, old(State()), Enrich(key, Enrichment(sha256, signature, issues)))
    {
      enrichment := enrichment[key := Enrichment(sha256, signature, issues)];
    }

    method RecordEvent(key: Option<ProcessKey>, event: Event)
      modifies this`history
      ensures State() == if key.None? then old(State()) else Step(settings, old(State()), Record(key.value, event))
    {
      if key.None? { return; }
      var events := (if key.value in history then history[key.value] else []) + [event];
      history := history[key.value := LastN(events, settings.historySize)];
    }

    /** The running and recently exited holders of a PID; the dictionary order of the list is left open. */
    method CandidatesForPid(pid: nat) returns (found: seq<ProcessInfo>)
      ensures exists entries :: AreCandidates(State(), pid, entries, found)
    {
      hide Merged;
      found := [];
      ghost var entries: seq<(bool, ProcessKey)> := [];
      var todo := set k | k in current && current[k].pid == pid;
      while todo != {}
        invariant forall k :: k in todo ==> k in current && current[k].pid == pid
        invariant |found| == |entries| && NoDuplicates(entries)
        invariant forall e :: e in entries <==> e.0 && e.1 in current && current[e.1].pid == pid && e.1 !in todo
        invariant forall i :: 0 <= i < |found| ==>
                    Holds(State(), entries[i], pid) && found[i] == Merged(State(), Seen(State(), entries[i]))
        decreases todo
      {
        var key :| key in todo;
        todo := todo - {key};
        found := found + [Merged(State(), current[key])];
        entries := entries + [(true, key)];
      }
      todo := set k | k in exited && exited[k].0.pid == pid;
      while todo != {}
        invariant forall k :: k in todo ==> k in exited && exited[k].0.pid == pid
        invariant |found| == |entries| && NoDuplicates(entries)
        invariant forall e :: e in entries <==> Holds(State(), e, pid) && (e.0 || e.1 !in todo)
        invariant forall i :: 0 <= i < |found| ==>
                    Holds(State(), entries[i], pid) && found[i] == Merged(State(), Seen(State(), entries[i]))
        decreases todo
      {
        var key :| key in todo;
        todo := todo - {key};
        found := found + [Merged(State(), exited[key].0)];
        entries := entries + [(false, key)];
      }
      assert AreCandidates(State(), pid, entries, found);
    }
  }

  /** Every PID in the index leads to a current process; this holds after any calls whatsoever. */
  ghost predicate IndexIsLive(h: Host) {
    forall pid :: pid in h.byPid ==> h.byPid[pid] in h.current && h.byPid[pid].pid == pid
  }

  lemma ObserveKeepsIndexLive(h: Host, info: ProcessInfo, at: Time)
    requires IndexIsLive(h)
    ensures IndexIsLive(Observed(h, info, at))
  {
  }

  lemma SnapshotMakesIndexLive(s: Settings, h: Host, at: Time, ps: seq<ProcessInfo>)
    ensures IndexIsLive(Snapshotted(s, h, at, ps))
  {
    hide KeyOrder, PidIndex, Restrict, Vanished;
    KeyOrderMembers(ps);
    PidIndexMembers(KeyOrder(ps));
  }

  lemma {:induction false} IndexIsAlwaysLive(s: Settings, log: seq<Call>)
    ensures IndexIsLive(Run(s, log))
  {
    hide Snapshotted, Observed, IndexIsLive;
    if log == [] {
      assert IndexIsLive(EMPTY) by { EmptyIsLive(); }
    } else {
      var h := Run(s, Front(log));
      IndexIsAlwaysLive(s, Front(log));
      match Last(log)
      case Snapshot(at, ps) => SnapshotMakesIndexLive(s, h, at, ps);
      case Observe(info, at) => ObserveKeepsIndexLive(h, info, at);
      case _ => SameIndexStaysLive(h, Run(s, log));
    }
  }

  lemma EmptyIsLive()
    ensures IndexIsLive(EMPTY)
  {
  }

  lemma SameIndexStaysLive(h: Host, h': Host)
    requires IndexIsLive(h) && h'.byPid == h.byPid && h'.current == h.current
    ensures IndexIsLive(h')
  {
  }

  /** A table entry, running (true) or exited (false), of an instance with this PID. */
  predicate Holds(h: Host, e: (bool, ProcessKey), pid: nat) {
    if e.0 then e.1 in h.current && h.current[e.1].pid == pid
    else e.1 in h.exited && h.exited[e.1].0.pid == pid
  }

  function Seen(h: Host, e: (bool, ProcessKey)): ProcessInfo
    requires if e.0 then e.1 in h.current else e.1 in h.exited
  {
    if e.0 then h.current[e.1] else h.exited[e.1].0
  }

  /** found lists every entry of an instance with this PID once, with its enrichment merged in. */
  ghost predicate AreCandidates(h: Host, pid: nat, entries: seq<(bool, ProcessKey)>, found: seq<ProcessInfo>) {
    && |found| == |entries| && NoDuplicates(entries)
    && (forall e :: e in entries <==> Holds(h, e, pid))
    && (forall i :: 0 <= i < |found| ==> Holds(h, entries[i], pid) && found[i] == Merged(h, Seen(h, entries[i])))
  }

  /** The candidates for a PID are its resolvable instances, each listed once. */
  lemma CandidatesAreResolvable(s: Settings, log: seq<Call>, key: ProcessKey, pid: nat)
    requires Orderly(log) && s.retention >= 0
    ensures var h := Run(s, log);
            && (Holds(h, (true, key), pid) || Holds(h, (false, key), pid) <==>
                  key.pid == pid && Resolvable(s, log, key))
            && !(Holds(h, (true, key), pid) && Holds(h, (false, key), pid))
  {
    hide Run, LedgerOf, LastCutoff, Merged;
    RunRefines(s, log);
  }

  /** The process found under a PID is the one current instance holding it. */
  lemma PidLookupIsTheHolder(s: Settings, log: seq<Call>, key: ProcessKey)
    requires Orderly(log) && s.retention >= 0
    ensures var h, l := Run(s, log), LedgerOf(s, log);
            key in l.present <==> key.pid in h.byPid && h.byPid[key.pid] == key
    ensures var h, l := Run(s, log), LedgerOf(s, log);
            key in l.present ==> ProcessByPid(h, key.pid) == Some(Merged(h, l.present[key]))
  {
    hide Run, LedgerOf, LastCutoff, Merged;
    RunRefines(s, log);
  }

  // ---- a reused PID ------------------------------------------------------------------------------------------

  lemma {:induction false} OnlyTheNamedAreEnriched(s: Settings, log: seq<Call>, key: ProcessKey)
    requires forall i :: 0 <= i < |log| && log[i].Enrich? ==> log[i].key != key
    ensures key !in Run(s, log).enrichment
  {
    hide ByKey, PidIndex, KeyOrder, Vanished, Displaced, Recorded;
    if log == [] {
    } else {
      assert forall i :: 0 <= i < |Front(log)| ==> Front(log)[i] == log[i];
      OnlyTheNamedAreEnriched(s, Front(log), key);
      StepEnriches(s, Run(s, Front(log)), Last(log), key);
    }
  }

  lemma StepEnriches(s: Settings, h: Host, c: Call, key: ProcessKey)
    requires key !in h.enrichment && !(c.Enrich? && c.key == key)
    ensures key !in Step(s, h, c).enrichment
  {
    hide ByKey, PidIndex, KeyOrder, Vanished;
  }

  /**
   * When a snapshot shows a PID in the hands of another process, the former holder has exited at its time,
   * and the PID now leads to the new one, which shows nothing of what was known about the former.
   */
  lemma ReusedPidIsANewProcess(s: Settings, log: seq<Call>, at: Time, ps: seq<ProcessInfo>, p: ProcessInfo,
                               q: ProcessInfo)
    requires Orderly(log + [Snapshot(at, ps)]) && s.retention >= 0
    requires p.Key() in Run(s, log).current && Run(s, log).current[p.Key()] == p
    requires q in ps && q.pid == p.pid && KnownApart(p, q)
    requires forall i :: 0 <= i < |log| && log[i].Enrich? ==> log[i].key == p.Key() || log[i].key.pid != p.pid
    ensures var h := Run(s, log + [Snapshot(at, ps)]);
            && p.Key() !in h.current && p.Key() in h.exited && h.exited[p.Key()] == (p, at)
            && Process(h, q.Key()) == Some(q) && ProcessByPid(h, q.pid) == Some(q)
  {
    hide LedgerOf, LastCutoff, Run, Step, Process, ProcessByPid, IndexAgrees;
    var all := log + [Snapshot(at, ps)];
    ApartMeansDifferent(p, q);
    OnlyHolder(all, at, ps, q);
    assert forall x :: x in ps && x.pid == p.pid ==> x == q;
    RunOfOneMore(s, log, Snapshot(at, ps));
    forall i | 0 <= i < |all| && all[i].Enrich? ensures all[i].key != q.Key() {
      assert all[i] == log[i];
    }
    OnlyTheNamedAreEnriched(s, all, q.Key());
    IndexAgreesOnRuns(s, all);
    NewHolder(s, Run(s, log), at, ps, p, q);
    PlainLookup(Run(s, all), q);
  }

  lemma IndexAgreesOnRuns(s: Settings, log: seq<Call>)
    requires Orderly(log) && s.retention >= 0
    ensures IndexAgrees(Run(s, log))
  {
    hide LedgerOf, LastCutoff, Run, IndexAgrees;
    RunRefines(s, log);
  }

  lemma PlainLookup(h: Host, q: ProcessInfo)
    requires IndexAgrees(h) && q.Key() in h.current && h.current[q.Key()] == q && q.Key() !in h.enrichment
    ensures Process(h, q.Key()) == Some(q) && ProcessByPid(h, q.pid) == Some(q)
  {
  }

  lemma OnlyHolder(all: seq<Call>, at: Time, ps: seq<ProcessInfo>, q: ProcessInfo)
    requires Orderly(all) && all != [] && Last(all) == Snapshot(at, ps) && q in ps
    ensures forall x :: x in ps && x.pid == q.pid ==> x == q
  {
    assert all[|all| - 1].Snapshot?;
    var i :| 0 <= i < |ps| && ps[i] == q;
    forall x | x in ps && x.pid == q.pid ensures x == q {
      var j :| 0 <= j < |ps| && ps[j] == x;
      assert i == j;
    }
  }

  lemma RunOfOneMore(s: Settings, log: seq<Call>, c: Call)
    ensures Run(s, log + [c]) == Step(s, Run(s, log), c)
  {
    assert Front(log + [c]) == log;
  }

  lemma NewHolder(s: Settings, h: Host, at: Time, ps: seq<ProcessInfo>, p: ProcessInfo, q: ProcessInfo)
    requires s.retention >= 0 && p.Key() in h.current && h.current[p.Key()] == p
    requires q in ps && q.pid == p.pid && p.Key() != q.Key() && forall x :: x in ps && x.pid == p.pid ==> x == q
    ensures var after := Step(s, h, Snapshot(at, ps));
            && p.Key() !in after.current && p.Key() in after.exited && after.exited[p.Key()] == (p, at)
            && q.Key() in after.current && after.current[q.Key()] == q
  {
    hide PidIndex, KeyOrder;
    var incoming := ByKey(ps);
    assert incoming[q.Key()].pid == q.pid;
  }
}
