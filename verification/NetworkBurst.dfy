/**
 * NET-003, HighFrequencyOutbound in src/threatlens/detection/rules/network.py: one sliding window of
 * outbound connections per process, for a bounded number of processes.
 */
module NetworkBurst {
  import opened Collections
  import opened ProcessModels
  import opened LruCache

  const MAX_TRACKED_PROCESSES: nat := 2048

  datatype Settings = Settings(window: Time, fanout: int, failed: int, burst: int, trusted: string -> bool)

  datatype Facts = Facts(
    processKey: Option<ProcessKey>,
    direction: string,
    remoteScope: Option<string>,
    remoteAddress: Option<string>,
    remotePort: Option<nat>,
    state: string)

  /** A CONNECTION_OPENED event together with what the state knows about its process at that moment. */
  datatype Opened = Opened(at: Time, facts: Facts, owner: Option<ProcessInfo>)

  datatype Attempt = Attempt(at: Time, address: string, port: Option<nat>, state: string)

  datatype Verdict = Silent | Fanout(port: Option<nat>, hosts: nat) | Attempts(count: nat) | Burst(count: nat)

  /** The process an event counts for: an outbound, non-loopback connection of a known untrusted program. */
  function Counts(cfg: Settings, e: Opened): Option<ProcessKey> {
    if e.facts.direction != "OUTBOUND" || e.facts.remoteScope == Some("LOOPBACK") || e.facts.processKey.None? then None
    else if e.owner.None? || e.owner.value.exe.None? || cfg.trusted(e.owner.value.exe.value) then None
    else e.facts.processKey
  }

  function AttemptOf(e: Opened): Attempt {
    Attempt(e.at,
            if e.facts.remoteAddress.None? then "" else e.facts.remoteAddress.value,
            e.facts.remotePort,
            e.facts.state)
  }

  // ---- the verdict on a window -------------------------------------------------------------------------

  /** The distinct ports, in order of first appearance. */
  function Ports(h: seq<Attempt>): (ports: seq<Option<nat>>)
    ensures h != [] ==> ports != []
    ensures forall p :: p in ports <==> exists a :: a in h && a.port == p
  {
    if h == [] then []
    else
      var earlier := Ports(Front(h));
      assert forall a :: a in h <==> a in Front(h) || a == Last(h);
      if Last(h).port in earlier then earlier else earlier + [Last(h).port]
  }

  function HostsOn(h: seq<Attempt>, port: Option<nat>): set<string> {
    set a | a in h && a.port == port :: a.address
  }

  function Spread(h: seq<Attempt>): Option<nat> -> int {
    p => |HostsOn(h, p)|
  }

  function Unanswered(h: seq<Attempt>): nat {
    if h == [] then 0 else Unanswered(Front(h)) + if Last(h).state == "SYN_SENT" then 1 else 0
  }

  /** Fan-out on the port with most hosts, else unanswered attempts, else sheer number. */
  function Judge(cfg: Settings, h: seq<Attempt>): Verdict
    requires h != []
  {
    var port := FirstMax(Ports(h), Spread(h));
    if |HostsOn(h, port)| >= cfg.fanout then Fanout(port, |HostsOn(h, port)|)
    else if Unanswered(h) >= cfg.failed then Attempts(Unanswered(h))
    else if |h| >= cfg.burst then Burst(|h|)
    else Silent
  }

  // ---- the tracker -------------------------------------------------------------------------------------

  datatype Tracker = Tracker(order: seq<ProcessKey>, history: map<ProcessKey, seq<Attempt>>)

  function DropOld(h: seq<Attempt>, cutoff: Time): seq<Attempt> {
    if h == [] || h[0].at >= cutoff then h else DropOld(h[1..], cutoff)
  }

  function Deque(s: Tracker, key: ProcessKey): seq<Attempt> {
    if key in s.history then s.history[key] else []
  }

  function Slid(cfg: Settings, h: seq<Attempt>, a: Attempt): seq<Attempt> {
    DropOld(h + [a], a.at - cfg.window)
  }

  function Noted(cfg: Settings, s: Tracker, key: ProcessKey, a: Attempt): Tracker {
    var order := Touch(s.order, key, MAX_TRACKED_PROCESSES);
    Tracker(order, map k | k in order :: if k == key then Slid(cfg, Deque(s, key), a) else Deque(s, k))
  }

  function Evaluated(cfg: Settings, s: Tracker, e: Opened): Tracker {
    match Counts(cfg, e)
    case None => s
    case Some(key) => Noted(cfg, s, key, AttemptOf(e))
  }

  function VerdictOn(cfg: Settings, s: Tracker, e: Opened): Verdict {
    match Counts(cfg, e)
    case None => Silent
    case Some(key) =>
      var h := Slid(cfg, Deque(s, key), AttemptOf(e));
      if h == [] then Silent else Judge(cfg, h)
  }

  lemma {:induction false} NewestStays(h: seq<Attempt>, a: Attempt, cutoff: Time)
    requires a.at >= cutoff
    ensures DropOld(h + [a], cutoff) != [] && Last(DropOld(h + [a], cutoff)) == a
  {
    if h == [] {
    } else {
      NewestStays(h[1..], a, cutoff);
      assert (h + [a])[1..] == h[1..] + [a];
    }
  }

  // ---- the rule object -----------------------------------------------------------------------------------

  class HighFrequencyOutbound {
    const cfg: Settings
    var order: seq<ProcessKey>
    var history: map<ProcessKey, seq<Attempt>>

    function State(): Tracker
      reads this
    {
      Tracker(order, history)
    }

    ghost predicate Valid()
      reads this
    {
      NoDuplicates(order) && |order| <= MAX_TRACKED_PROCESSES && forall k :: k in history <==> k in order
    }

    constructor (cfg: Settings)
      ensures Valid() && this.cfg == cfg && State() == Tracker([], map[])
    {
      this.cfg := cfg;
      order, history := [], map[];
    }

    /** A negative window would empty the deque, and the source then fails on an empty maximum. */
    method Evaluate(e: Opened) returns (verdict: Verdict)
      requires Valid() && cfg.window >= 0
      modifies this
      ensures Valid() && State() == Evaluated(cfg, old(State()), e)
      ensures verdict == VerdictOn(cfg, old(State()), e)
    {
      hide Judge, Remove, LastN, DropOld;
      var counted := Counts(cfg, e);
      if counted.None? {
        return Silent;
      }
      var key := counted.value;
      Admit(key);
      var deque := history[key] + [AttemptOf(e)];
      deque := Trim(deque, e.at - cfg.window);
      history := history[key := deque];
      NewestStays(Deque(old(State()), key), AttemptOf(e), e.at - cfg.window);
      verdict := Decide(deque);
    }

    /** setdefault, move_to_end and eviction of the least recently used processes. */
    method Admit(key: ProcessKey)
      requires Valid()
      modifies this
      ensures Valid() && order == Touch(old(order), key, MAX_TRACKED_PROCESSES) && key in order
      ensures forall k :: k in order ==> history[k] == Deque(old(State()), k)
    {
      hide Remove, LastN;
      RemoveMembers(order, key);
      MovedToEnd(order, key);
      if key !in history {
        history := history[key := []];
      }
      order := Remove(order, key) + [key];
      assert forall k :: k in order <==> k in Remove(old(order), key) || k == key;
      LastNDistinct(order, MAX_TRACKED_PROCESSES);
      LastNMembers(order, MAX_TRACKED_PROCESSES);
      order, history := EvictOldest(order, history, MAX_TRACKED_PROCESSES);
    }

    static method Trim(h: seq<Attempt>, cutoff: Time) returns (deque: seq<Attempt>)
      ensures deque == DropOld(h, cutoff)
    {
      deque := h;
      while deque != [] && deque[0].at < cutoff
        invariant DropOld(deque, cutoff) == DropOld(h, cutoff)
        decreases |deque|
      {
        deque := deque[1..];
      }
    }

    method Decide(h: seq<Attempt>) returns (verdict: Verdict)
      requires h != []
      ensures verdict == Judge(cfg, h)
    {
      hide HostsOn, Unanswered, FirstMax, Ports;
      var ports, hosts := Group(h);
      var port := Busiest(h, ports, hosts);
      var attempts := CountUnanswered(h);
      if |hosts[port]| >= cfg.fanout {
        verdict := Fanout(port, |hosts[port]|);
      } else if attempts >= cfg.failed {
        verdict := Attempts(attempts);
      } else if |h| >= cfg.burst {
        verdict := Burst(|h|);
      } else {
        verdict := Silent;
      }
    }

    /** max(hosts_per_port.items(), key=...): the first port with most hosts. */
    static method Busiest(h: seq<Attempt>, ports: seq<Option<nat>>, hosts: map<Option<nat>, set<string>>)
      returns (port: Option<nat>)
      requires ports != [] && forall p :: p in ports ==> p in hosts && hosts[p] == HostsOn(h, p)
      ensures port in ports && port == FirstMax(ports, Spread(h))
    {
      hide HostsOn;
      port := ports[0];
      for i := 1 to |ports|
        invariant port in ports && port == FirstMax(ports[..i], Spread(h))
      {
        assert Front(ports[..i + 1]) == ports[..i];
        if |hosts[ports[i]]| > |hosts[port]| {
          port := ports[i];
        }
      }
      assert ports[..|ports|] == ports;
    }

    /** hosts_per_port: the distinct addresses seen on each port, in a dict that remembers insertion order. */
    static method Group(h: seq<Attempt>) returns (ports: seq<Option<nat>>, hosts: map<Option<nat>, set<string>>)
      ensures Grouped(h, ports, hosts)
    {
      hide Grouped, Ports, HostsOn;
      ports, hosts := [], map[];
      NothingGrouped();
      assert h[..0] == [];
      for i := 0 to |h|
        invariant Grouped(h[..i], ports, hosts)
      {
        var a := h[i];
        GroupGrows(h[..i], a, ports, hosts);
        assert h[..i + 1] == h[..i] + [a];
        if a.port !in hosts {
          ports, hosts := ports + [a.port], hosts[a.port := {}];
        }
        hosts := hosts[a.port := hosts[a.port] + {a.address}];
      }
      assert h[..|h|] == h;
    }

    static method CountUnanswered(h: seq<Attempt>) returns (n: nat)
      ensures n == Unanswered(h)
    {
      n := 0;
      for i := 0 to |h|
        invariant n == Unanswered(h[..i])
      {
        assert Front(h[..i + 1]) == h[..i] && Last(h[..i + 1]) == h[i];
        if h[i].state == "SYN_SENT" {
          n := n + 1;
        }
      }
      assert h[..|h|] == h;
    }
  }

  /** The ports of a window in order of first appearance, with the distinct hosts on each. */
  ghost predicate Grouped(h: seq<Attempt>, ports: seq<Option<nat>>, hosts: map<Option<nat>, set<string>>) {
    && ports == Ports(h)
    && (forall p :: p in ports <==> p in hosts)
    && (forall p :: p in hosts ==> hosts[p] == HostsOn(h, p))
  }

  lemma NothingGrouped()
    ensures Grouped([], [], map[])
  {
  }

  lemma GroupGrows(h: seq<Attempt>, a: Attempt, ports: seq<Option<nat>>, hosts: map<Option<nat>, set<string>>)
    requires Grouped(h, ports, hosts)
    ensures a.port in hosts ==> Grouped(h + [a], ports, hosts[a.port := hosts[a.port] + {a.address}])
    ensures a.port !in hosts ==>
              var more := hosts[a.port := {}];
              Grouped(h + [a], ports + [a.port], more[a.port := more[a.port] + {a.address}])
  {
    hide HostsOn, Ports;
    PortsStep(h, a);
    if a.port !in hosts {
      NoHosts(h, a.port);
    }
    HostsGrow(h, a, a.port);
    forall p | p in hosts && p != a.port ensures HostsOn(h + [a], p) == HostsOn(h, p) {
      HostsGrow(h, a, p);
    }
  }

  lemma PortsStep(h: seq<Attempt>, a: Attempt)
    ensures Ports(h + [a]) == if a.port in Ports(h) then Ports(h) else Ports(h) + [a.port]
  {
    assert Front(h + [a]) == h;
  }

  lemma HostsGrow(h: seq<Attempt>, a: Attempt, p: Option<nat>)
    ensures HostsOn(h + [a], p) == HostsOn(h, p) + if p == a.port then {a.address} else {}
  {
    assert forall x :: x in h + [a] <==> x in h || x == a;
  }

  lemma NoHosts(h: seq<Attempt>, p: Option<nat>)
    requires p !in Ports(h)
    ensures HostsOn(h, p) == {}
  {
  }

  // ---- what the verdict means ------------------------------------------------------------------------------

  /** Each kind of verdict is given exactly under its own condition on the window, in that order of priority. */
  lemma VerdictMeaning(cfg: Settings, h: seq<Attempt>)
    requires h != []
    ensures var v := Judge(cfg, h);
            var spreads := exists p :: |HostsOn(h, p)| >= cfg.fanout;
            && (v.Fanout? <==> spreads)
            && (v.Fanout? ==> v.hosts == |HostsOn(h, v.port)| && forall p :: |HostsOn(h, p)| <= v.hosts)
            && (v.Attempts? <==> !spreads && Unanswered(h) >= cfg.failed)
            && (v.Burst? <==> !spreads && Unanswered(h) < cfg.failed && |h| >= cfg.burst)
  {
    hide HostsOn, Unanswered, Ports, FirstMax, Spread;
    MostSpread(h);
    var most := |HostsOn(h, FirstMax(Ports(h), Spread(h)))|;
    if p :| |HostsOn(h, p)| >= cfg.fanout {
      assert most >= cfg.fanout;
    }
  }

  lemma MostSpread(h: seq<Attempt>)
    requires h != []
    ensures forall p :: |HostsOn(h, p)| <= |HostsOn(h, FirstMax(Ports(h), Spread(h)))|
  {
    var best := FirstMax(Ports(h), Spread(h));
    forall p ensures |HostsOn(h, p)| <= |HostsOn(h, best)| {
      if p in Ports(h) {
        assert Spread(h)(p) <= Spread(h)(best);
      } else {
        NoHosts(h, p);
      }
    }
  }

  // ---- runs --------------------------------------------------------------------------------------------------

  function Run(cfg: Settings, events: seq<Opened>): Tracker {
    if events == [] then Tracker([], map[]) else Evaluated(cfg, Run(cfg, Front(events)), Last(events))
  }

  /** The processes of the qualifying events. */
  function Touches(cfg: Settings, events: seq<Opened>): seq<ProcessKey> {
    if events == [] then []
    else
      var key := Counts(cfg, Last(events));
      Touches(cfg, Front(events)) + if key.Some? then [key.value] else []
  }

  /** Whether key would survive eviction: fewer than the bound of other processes were active since it was. */
  ghost predicate Tracked(cfg: Settings, events: seq<Opened>, key: ProcessKey) {
    key in Touches(cfg, events) && |TouchedSince(Touches(cfg, events), key)| < 2048
  }

  /** All qualifying attempts of a process. */
  function AttemptsOf(cfg: Settings, events: seq<Opened>, key: ProcessKey): seq<Attempt> {
    if events == [] then []
    else
      AttemptsOf(cfg, Front(events), key)
      + if Counts(cfg, Last(events)) == Some(key) then [AttemptOf(Last(events))] else []
  }

  /** Those made since the process was last forgotten. */
  ghost function Remembered(cfg: Settings, events: seq<Opened>, key: ProcessKey): seq<Attempt> {
    if events == [] then []
    else if Counts(cfg, Last(events)) != Some(key) then Remembered(cfg, Front(events), key)
    else
      (if Tracked(cfg, Front(events), key) then Remembered(cfg, Front(events), key) else [])
      + [AttemptOf(Last(events))]
  }

  /** The attempts at or after a moment. */
  function Since(h: seq<Attempt>, cutoff: Time): seq<Attempt> {
    if h == [] then [] else Since(Front(h), cutoff) + if Last(h).at >= cutoff then [Last(h)] else []
  }

  /** The attempts within the window that ends with the latest one. */
  function Window(cfg: Settings, h: seq<Attempt>): seq<Attempt> {
    if h == [] then [] else Since(h, Last(h).at - cfg.window)
  }

  ghost predicate InOrder(events: seq<Opened>) {
    forall i, j :: 0 <= i < j < |events| ==> events[i].at <= events[j].at
  }

  ghost predicate Rising(h: seq<Attempt>) {
    forall i, j :: 0 <= i < j < |h| ==> h[i].at <= h[j].at
  }

  lemma {:induction false} OrderIsMostRecent(cfg: Settings, events: seq<Opened>)
    ensures Run(cfg, events).order == LastN(Recency(Touches(cfg, events)), MAX_TRACKED_PROCESSES)
  {
    hide Recency, LastN, Touch, Counts;
    if events == [] {
      NothingTouched(cfg);
    } else {
      OrderIsMostRecent(cfg, Front(events));
      var before, key := Touches(cfg, Front(events)), Counts(cfg, Last(events));
      if key.Some? {
        TouchKeepsMostRecent(before, key.value, MAX_TRACKED_PROCESSES);
      } else {
        assert before + [] == before;
      }
    }
  }

  lemma NothingTouched(cfg: Settings)
    ensures Recency(Touches(cfg, [])) == [] && LastN<ProcessKey>([], MAX_TRACKED_PROCESSES) == []
  {
  }

  /** The tracked processes are the most recently active ones, and never more than the bound. */
  lemma TrackedExactly(cfg: Settings, events: seq<Opened>, key: ProcessKey)
    ensures key in Run(cfg, events).order <==> Tracked(cfg, events, key)
    ensures |Run(cfg, events).order| <= 2048
  {
    hide Run, Recency, Touches;
    OrderIsMostRecent(cfg, events);
    HeldExactlyWhenRecent(Touches(cfg, events), key, MAX_TRACKED_PROCESSES);
  }

  lemma {:induction false} RememberedInOrder(cfg: Settings, events: seq<Opened>, key: ProcessKey)
    requires InOrder(events)
    ensures Rising(Remembered(cfg, events, key))
    ensures forall a :: a in Remembered(cfg, events, key) ==> events != [] && a.at <= Last(events).at
  {
    hide Counts, Tracked;
    if events == [] {
    } else {
      RememberedInOrder(cfg, Front(events), key);
    }
  }

  lemma {:induction false} DropOldIsSince(h: seq<Attempt>, cutoff: Time)
    requires Rising(h)
    ensures DropOld(h, cutoff) == Since(h, cutoff)
  {
    if h == [] {
    } else {
      if h[0].at >= cutoff {
        SinceAll(h, cutoff);
      } else {
        DropOldIsSince(h[1..], cutoff);
        SinceSkips(h[0], h[1..], cutoff);
        assert h == [h[0]] + h[1..];
      }
    }
  }

  lemma {:induction false} SinceAll(h: seq<Attempt>, cutoff: Time)
    requires forall i :: 0 <= i < |h| ==> h[i].at >= cutoff
    ensures Since(h, cutoff) == h
  {
    hide Since;
    if h == [] {
      NothingSince(cutoff);
    } else {
      SinceAll(Front(h), cutoff);
      SinceStep(Front(h), Last(h), cutoff);
      assert h == Front(h) + [Last(h)];
    }
  }

  lemma NothingSince(cutoff: Time)
    ensures Since([], cutoff) == []
  {
  }

  lemma {:induction false} SinceSkips(a: Attempt, h: seq<Attempt>, cutoff: Time)
    requires a.at < cutoff
    ensures Since([a] + h, cutoff) == Since(h, cutoff)
  {
    if h == [] {
      assert [a] + h == [a];
      assert Since([], cutoff) == [];
    } else {
      SinceSkips(a, Front(h), cutoff);
      assert Front([a] + h) == [a] + Front(h) && Last([a] + h) == Last(h);
    }
  }

  lemma {:induction false} SinceTwice(h: seq<Attempt>, c: Time, d: Time)
    requires c <= d
    ensures Since(Since(h, c), d) == Since(h, d)
  {
    if h == [] {
    } else {
      SinceTwice(Front(h), c, d);
      if Last(h).at >= c {
        assert Front(Since(h, c)) == Since(Front(h), c);
      } else {
        assert Since(h, c) == Since(Front(h), c);
      }
    }
  }

  lemma EndIsLatest(h: seq<Attempt>)
    requires Rising(h) && h != []
    ensures Rising(Front(h)) && forall a :: a in Front(h) ==> a.at <= Last(h).at
  {
    forall a | a in Front(h) ensures a.at <= Last(h).at {
      var i :| 0 <= i < |h| - 1 && h[i] == a;
    }
  }

  lemma LatestAtEnd(h: seq<Attempt>, a: Attempt)
    requires Rising(h) && forall b :: b in h ==> b.at <= a.at
    ensures Rising(h + [a])
  {
  }

  lemma {:induction false} SinceRises(h: seq<Attempt>, cutoff: Time)
    requires Rising(h)
    ensures Rising(Since(h, cutoff))
    ensures forall a :: a in Since(h, cutoff) ==> a in h
  {
    if h == [] {
    } else {
      EndIsLatest(h);
      SinceRises(Front(h), cutoff);
      LatestAtEnd(Since(Front(h), cutoff), Last(h));
      assert Since(Front(h), cutoff) + [] == Since(Front(h), cutoff);
    }
  }

  /** Sliding the window of a history gives the window of the longer history. */
  lemma SlideIsWindow(cfg: Settings, h: seq<Attempt>, a: Attempt)
    requires Rising(h + [a])
    ensures Slid(cfg, Window(cfg, h), a) == Window(cfg, h + [a])
  {
    hide DropOld, Rising, Since;
    var cutoff := a.at - cfg.window;
    var w := Window(cfg, h);
    assert Front(h + [a]) == h;
    EndIsLatest(h + [a]);
    WindowOfEarlier(cfg, h, a);
    LatestAtEnd(w, a);
    DropOldIsSince(w + [a], cutoff);
    if h != [] {
      assert Last(h) in h;
      SinceTwice(h, Last(h).at - cfg.window, cutoff);
      SinceStep(w, a, cutoff);
      SinceStep(h, a, cutoff);
    }
  }

  lemma SinceStep(h: seq<Attempt>, a: Attempt, cutoff: Time)
    ensures Since(h + [a], cutoff) == Since(h, cutoff) + if a.at >= cutoff then [a] else []
  {
    assert Front(h + [a]) == h;
  }

  lemma WindowOfEarlier(cfg: Settings, h: seq<Attempt>, a: Attempt)
    requires Rising(h + [a])
    ensures Rising(Window(cfg, h)) && Rising(h)
    ensures forall b :: b in Window(cfg, h) ==> b.at <= a.at
  {
    hide Since;
    EndIsLatest(h + [a]);
    assert Front(h + [a]) == h;
    if h != [] {
      SinceRises(h, Last(h).at - cfg.window);
    }
  }

  /**
   * With event times that never go back, the deque of a tracked process is exactly the part of what is
   * remembered of it that lies in the window ending with its latest event.
   */
  lemma {:induction false} DequeIsWindow(cfg: Settings, events: seq<Opened>, key: ProcessKey)
    requires InOrder(events)
    ensures key in Run(cfg, events).history <==> Tracked(cfg, events, key)
    ensures Tracked(cfg, events, key) ==> Deque(Run(cfg, events), key) == Window(cfg, Remembered(cfg, events, key))
  {
    hide Touch, Slid, Tracked, Window, Counts;
    TrackedExactly(cfg, events, key);
    if events == [] {
    } else {
      DequeIsWindow(cfg, Front(events), key);
      TrackedExactly(cfg, Front(events), key);
      RememberedInOrder(cfg, events, key);
      WindowStep(cfg, events, key);
    }
  }

  lemma WindowStep(cfg: Settings, events: seq<Opened>, key: ProcessKey)
    requires events != [] && Rising(Remembered(cfg, events, key))
    requires key in Run(cfg, Front(events)).history <==> Tracked(cfg, Front(events), key)
    requires key in Run(cfg, Front(events)).order <==> Tracked(cfg, Front(events), key)
    requires key in Run(cfg, events).order <==> Tracked(cfg, events, key)
    requires Tracked(cfg, Front(events), key) ==>
               Deque(Run(cfg, Front(events)), key) == Window(cfg, Remembered(cfg, Front(events), key))
    ensures key in Run(cfg, events).history <==> Tracked(cfg, events, key)
    ensures Tracked(cfg, events, key) ==> Deque(Run(cfg, events), key) == Window(cfg, Remembered(cfg, events, key))
  {
    hide Touch, Slid, Tracked, Window, Counts;
    var s, e := Run(cfg, Front(events)), Last(events);
    if Counts(cfg, e) == Some(key) {
      var h := if Tracked(cfg, Front(events), key) then Remembered(cfg, Front(events), key) else [];
      EmptyWindow(cfg);
      assert Deque(s, key) == Window(cfg, h);
      SlideIsWindow(cfg, h, AttemptOf(e));
    } else if Counts(cfg, e).Some? {
      TouchAddsOnly(s.order, Counts(cfg, e).value, MAX_TRACKED_PROCESSES);
    }
  }

  lemma TouchAddsOnly(order: seq<ProcessKey>, key: ProcessKey, n: nat)
    ensures forall k :: k in Touch(order, key, n) ==> k == key || k in order
  {
    hide Remove;
    RemoveMembers(order, key);
    var all := Remove(order, key) + [key];
    assert forall k :: k in LastN(all, n) ==> k in all;
  }

  lemma EmptyWindow(cfg: Settings)
    ensures Window(cfg, []) == []
  {
  }

  /** The process has stayed tracked ever since its first qualifying event. */
  ghost predicate NeverForgotten(cfg: Settings, events: seq<Opened>, key: ProcessKey) {
    events == []
    || (NeverForgotten(cfg, Front(events), key) && (key in Touches(cfg, events) ==> Tracked(cfg, events, key)))
  }

  lemma {:induction false} NothingForgotten(cfg: Settings, events: seq<Opened>, key: ProcessKey)
    requires NeverForgotten(cfg, events, key)
    ensures Remembered(cfg, events, key) == AttemptsOf(cfg, events, key)
    ensures key !in Touches(cfg, events) ==> AttemptsOf(cfg, events, key) == []
  {
    hide Counts, AttemptOf, Tracked;
    if events == [] {
    } else {
      NothingForgotten(cfg, Front(events), key);
      if Counts(cfg, Last(events)) == Some(key) {
        assert Last(Touches(cfg, events)) == key;
        NeverForgottenBefore(cfg, events, key);
      }
    }
  }

  lemma NeverForgottenBefore(cfg: Settings, events: seq<Opened>, key: ProcessKey)
    requires events != [] && NeverForgotten(cfg, events, key)
    ensures key in Touches(cfg, Front(events)) <==> Tracked(cfg, Front(events), key)
  {
  }

  /** With no more distinct processes in the whole run than are tracked, none is ever forgotten. */
  lemma {:induction false} FewProcessesAreNeverForgotten(cfg: Settings, events: seq<Opened>, key: ProcessKey)
    requires |set k | k in Touches(cfg, events)| <= 2048
    ensures NeverForgotten(cfg, events, key)
  {
    hide Counts;
    if events == [] {
    } else {
      SubsetSize(set k | k in Touches(cfg, Front(events)), set k | k in Touches(cfg, events));
      FewProcessesAreNeverForgotten(cfg, Front(events), key);
      if key in Touches(cfg, events) {
        OthersTouched(Touches(cfg, events), key);
        SubsetSize(TouchedSince(Touches(cfg, events), key) + {key}, set k | k in Touches(cfg, events));
      }
    }
  }

  lemma {:induction false} OthersTouched(touches: seq<ProcessKey>, key: ProcessKey)
    ensures forall k :: k in TouchedSince(touches, key) ==> k in touches && k != key
  {
    if touches != [] && Last(touches) != key {
      OthersTouched(Front(touches), key);
    }
  }

  lemma {:induction false} OneMoreAttempt(cfg: Settings, events: seq<Opened>, e: Opened, key: ProcessKey)
    requires Counts(cfg, e) == Some(key)
    ensures AttemptsOf(cfg, events + [e], key) == AttemptsOf(cfg, events, key) + [AttemptOf(e)]
    ensures Remembered(cfg, events + [e], key) ==
            (if Tracked(cfg, events, key) then Remembered(cfg, events, key) else []) + [AttemptOf(e)]
  {
    assert Front(events + [e]) == events;
  }

  /** The verdict on an event is the one computed from scratch on what is remembered of its process. */
  lemma VerdictOnRemembered(cfg: Settings, events: seq<Opened>, e: Opened, key: ProcessKey)
    requires cfg.window >= 0 && InOrder(events + [e]) && Counts(cfg, e) == Some(key)
    ensures Window(cfg, Remembered(cfg, events + [e], key)) != []
    ensures VerdictOn(cfg, Run(cfg, events), e) == Judge(cfg, Window(cfg, Remembered(cfg, events + [e], key)))
  {
    hide Judge, DropOld, Counts, Tracked, Run, Since;
    var s, a := Run(cfg, events), AttemptOf(e);
    forall i, j | 0 <= i < j < |events| ensures events[i].at <= events[j].at {
      assert (events + [e])[i].at <= (events + [e])[j].at;
    }
    DequeIsWindow(cfg, events, key);
    RememberedInOrder(cfg, events + [e], key);
    OneMoreAttempt(cfg, events, e, key);
    var h := if Tracked(cfg, events, key) then Remembered(cfg, events, key) else [];
    EmptyWindow(cfg);
    assert Deque(s, key) == Window(cfg, h);
    SlideIsWindow(cfg, h, a);
    NewestStays(Deque(s, key), a, a.at - cfg.window);
  }

  /**
   * The incremental rule equals the plain one: for a process that is never forgotten, the verdict is the
   * one computed from scratch on its whole qualifying history restricted to the last window.
   */
  lemma VerdictFromScratch(cfg: Settings, events: seq<Opened>, e: Opened, key: ProcessKey)
    requires cfg.window >= 0 && InOrder(events + [e]) && Counts(cfg, e) == Some(key)
    requires NeverForgotten(cfg, events + [e], key)
    ensures Window(cfg, AttemptsOf(cfg, events + [e], key)) != []
    ensures VerdictOn(cfg, Run(cfg, events), e) == Judge(cfg, Window(cfg, AttemptsOf(cfg, events + [e], key)))
  {
    hide *;
    NothingForgotten(cfg, events + [e], key);
    VerdictOnRemembered(cfg, events, e, key);
  }

  // ---- the rule in terms of events -------------------------------------------------------------------------

  /** An outbound connection of key to another host, whose program is known and not trusted. */
  predicate IsOutbound(cfg: Settings, e: Opened, key: ProcessKey) {
    && e.facts.processKey == Some(key)
    && e.facts.direction == "OUTBOUND" && e.facts.remoteScope != Some("LOOPBACK")
    && e.owner.Some? && e.owner.value.exe.Some? && !cfg.trusted(e.owner.value.exe.value)
  }

  lemma CountsExactlyWhen(cfg: Settings, e: Opened, key: ProcessKey)
    ensures Counts(cfg, e) == Some(key) <==> IsOutbound(cfg, e, key)
  {
  }

  /** The outbound connections of key since a moment. */
  function Recent(cfg: Settings, events: seq<Opened>, key: ProcessKey, since: Time): seq<Opened> {
    if events == [] then []
    else
      Recent(cfg, Front(events), key, since)
      + if IsOutbound(cfg, Last(events), key) && Last(events).at >= since then [Last(events)] else []
  }

  /** The hosts contacted on a port; a missing address counts as an empty one. */
  ghost function HostsTo(r: seq<Opened>, port: Option<nat>): set<string> {
    set e | e in r && e.facts.remotePort == port ::
      if e.facts.remoteAddress.None? then "" else e.facts.remoteAddress.value
  }

  /** The connections still waiting for an answer. */
  function Waiting(r: seq<Opened>): nat {
    if r == [] then 0 else Waiting(Front(r)) + if Last(r).facts.state == "SYN_SENT" then 1 else 0
  }

  function AttemptsIn(r: seq<Opened>): (h: seq<Attempt>)
    ensures |h| == |r| && forall i :: 0 <= i < |r| ==> h[i] == AttemptOf(r[i])
  {
    if r == [] then [] else AttemptsIn(Front(r)) + [AttemptOf(Last(r))]
  }

  lemma {:induction false} RecentAttempts(cfg: Settings, events: seq<Opened>, key: ProcessKey, since: Time)
    ensures Since(AttemptsOf(cfg, events, key), since) == AttemptsIn(Recent(cfg, events, key, since))
  {
    hide Counts, AttemptOf, IsOutbound;
    if events == [] {
    } else {
      RecentAttempts(cfg, Front(events), key, since);
      var e, r := Last(events), Recent(cfg, Front(events), key, since);
      CountsExactlyWhen(cfg, e, key);
      AttemptTime(e);
      assert r + [] == r && Front(r + [e]) == r;
      if Counts(cfg, e) == Some(key) {
        SinceStep(AttemptsOf(cfg, Front(events), key), AttemptOf(e), since);
      } else {
        assert AttemptsOf(cfg, events, key) == AttemptsOf(cfg, Front(events), key);
      }
    }
  }

  lemma AttemptTime(e: Opened)
    ensures AttemptOf(e).at == e.at
  {
  }

  lemma HostsInEvents(r: seq<Opened>, port: Option<nat>)
    ensures HostsOn(AttemptsIn(r), port) == HostsTo(r, port)
  {
    var h := AttemptsIn(r);
    forall x | x in HostsOn(h, port) ensures x in HostsTo(r, port) {
      var i :| 0 <= i < |h| && h[i].port == port && h[i].address == x;
      assert r[i] in r;
    }
    forall x | x in HostsTo(r, port) ensures x in HostsOn(h, port) {
      var e :| e in r && e.facts.remotePort == port
               && x == if e.facts.remoteAddress.None? then "" else e.facts.remoteAddress.value;
      var i :| 0 <= i < |r| && r[i] == e;
      assert h[i] in h;
    }
  }

  lemma {:induction false} WaitingInEvents(r: seq<Opened>)
    ensures Unanswered(AttemptsIn(r)) == Waiting(r)
  {
    if r == [] {
    } else {
      WaitingInEvents(Front(r));
      assert Front(AttemptsIn(r)) == AttemptsIn(Front(r));
    }
  }

  /** The k-th port is where some attempt stands before which only earlier ports occur. */
  lemma {:induction false} FirstAppearance(h: seq<Attempt>, k: nat) returns (i: nat)
    requires k < |Ports(h)|
    ensures i < |h| && h[i].port == Ports(h)[k] && forall j :: 0 <= j < i ==> h[j].port in Ports(h)[..k]
  {
    var earlier := Ports(Front(h));
    PortsStep(Front(h), Last(h));
    assert h == Front(h) + [Last(h)];
    if k < |earlier| {
      i := FirstAppearance(Front(h), k);
      assert Ports(h)[..k] == earlier[..k];
    } else {
      i := |h| - 1;
      assert Ports(h)[..k] == earlier;
      forall j | 0 <= j < i ensures h[j].port in earlier { assert Front(h)[j] in Front(h); }
    }
  }

  lemma FirstOfMost(cfg: Settings, h: seq<Attempt>) returns (i: nat)
    requires h != [] && Judge(cfg, h).Fanout?
    ensures i < |h| && h[i].port == Judge(cfg, h).port
    ensures forall j :: 0 <= j < i ==> |HostsOn(h, h[j].port)| < |HostsOn(h, h[i].port)|
  {
    hide HostsOn, Unanswered, Ports;
    var k := FirstMaxIsFirst(Ports(h), Spread(h));
    i := FirstAppearance(h, k);
    forall j | 0 <= j < i ensures |HostsOn(h, h[j].port)| < |HostsOn(h, h[i].port)| {
      var ports := Ports(h);
      assert h[j].port in ports[..k];
      var m :| 0 <= m < k && ports[m] == h[j].port;
      assert Spread(h)(ports[m]) < Spread(h)(ports[k]);
    }
  }

  /** The port is that of a connection before which only less spread ports occur. */
  ghost predicate IsFirstOfMost(r: seq<Opened>, port: Option<nat>, i: int) {
    && 0 <= i < |r| && r[i].facts.remotePort == port
    && forall j :: 0 <= j < i ==> |HostsTo(r, r[j].facts.remotePort)| < |HostsTo(r, port)|
  }

  /** The three tests on the connections of a window, in order of priority. */
  ghost predicate IsVerdict(cfg: Settings, r: seq<Opened>, v: Verdict) {
    var spreads := exists port :: |HostsTo(r, port)| >= cfg.fanout;
    match v
    case Fanout(port, hosts) =>
      && spreads && hosts == |HostsTo(r, port)|
      && (forall p :: |HostsTo(r, p)| <= hosts)
      && (exists i :: IsFirstOfMost(r, port, i))
    case Attempts(count) => !spreads && count == Waiting(r) >= cfg.failed
    case Burst(count) => !spreads && Waiting(r) < cfg.failed && count == |r| >= cfg.burst
    case Silent => !spreads && Waiting(r) < cfg.failed && |r| < cfg.burst
  }

  lemma JudgeInEvents(cfg: Settings, r: seq<Opened>)
    requires r != []
    ensures IsVerdict(cfg, r, Judge(cfg, AttemptsIn(r)))
  {
    hide HostsOn, HostsTo, Waiting, Unanswered, Judge, AttemptOf;
    var h := AttemptsIn(r);
    VerdictMeaning(cfg, h);
    VerdictCounts(cfg, h);
    WaitingInEvents(r);
    forall port ensures HostsOn(h, port) == HostsTo(r, port) { HostsInEvents(r, port); }
    var v := Judge(cfg, h);
    if v.Fanout? {
      var i := FirstOfMost(cfg, h);
      forall j | 0 <= j < |r| ensures h[j].port == r[j].facts.remotePort { AttemptPort(r[j]); }
      assert IsFirstOfMost(r, v.port, i);
    }
  }

  lemma AttemptPort(e: Opened)
    ensures AttemptOf(e).port == e.facts.remotePort
  {
  }

  lemma VerdictCounts(cfg: Settings, h: seq<Attempt>)
    requires h != []
    ensures Judge(cfg, h).Attempts? ==> Judge(cfg, h).count == Unanswered(h)
    ensures Judge(cfg, h).Burst? ==> Judge(cfg, h).count == |h|
  {
    hide FirstMax, HostsOn, Unanswered, Ports, Spread;
  }

  ghost function ProcessesIn(events: seq<Opened>): set<ProcessKey> {
    set e | e in events && e.facts.processKey.Some? :: e.facts.processKey.value
  }

  lemma {:induction false} TouchesAreInEvents(cfg: Settings, events: seq<Opened>)
    ensures forall k :: k in Touches(cfg, events) ==> k in ProcessesIn(events)
  {
    if events == [] {
    } else {
      TouchesAreInEvents(cfg, Front(events));
      forall k | k in Touches(cfg, events) ensures k in ProcessesIn(events) {
        if k in Touches(cfg, Front(events)) {
          var e :| e in Front(events) && e.facts.processKey == Some(k);
          assert e in events;
        } else {
          CountsExactlyWhen(cfg, Last(events), k);
          assert Last(events) in events;
        }
      }
    }
  }

  /**
   * The rule in plain terms: as long as connections of no more than 2048 processes have been seen, the verdict on an
   * outbound connection is that of the three tests on all outbound connections of its process in the window.
   */
  lemma VerdictInEvents(cfg: Settings, events: seq<Opened>, e: Opened, key: ProcessKey)
    requires cfg.window >= 0 && InOrder(events + [e]) && IsOutbound(cfg, e, key)
    requires |ProcessesIn(events + [e])| <= 2048
    ensures IsVerdict(cfg, Recent(cfg, events + [e], key, e.at - cfg.window), VerdictOn(cfg, Run(cfg, events), e))
  {
    hide *;
    CountsExactlyWhen(cfg, e, key);
    NoneForgotten(cfg, events + [e], key);
    VerdictFromScratch(cfg, events, e, key);
    WindowIsRecent(cfg, events, e, key);
    JudgeInEvents(cfg, Recent(cfg, events + [e], key, e.at - cfg.window));
  }

  lemma NoneForgotten(cfg: Settings, all: seq<Opened>, key: ProcessKey)
    requires |ProcessesIn(all)| <= 2048
    ensures NeverForgotten(cfg, all, key)
  {
    hide Counts, NeverForgotten, ProcessesIn;
    var touched := set k | k in Touches(cfg, all);
    TouchesAreInEvents(cfg, all);
    SubsetSize(touched, ProcessesIn(all));
    FewProcessesAreNeverForgotten(cfg, all, key);
  }

  lemma WindowIsRecent(cfg: Settings, events: seq<Opened>, e: Opened, key: ProcessKey)
    requires Counts(cfg, e) == Some(key)
    requires Window(cfg, AttemptsOf(cfg, events + [e], key)) != []
    ensures var r := Recent(cfg, events + [e], key, e.at - cfg.window);
            r != [] && Window(cfg, AttemptsOf(cfg, events + [e], key)) == AttemptsIn(r)
  {
    hide Counts, AttemptsOf, Remembered, Recent, Since, AttemptOf;
    OneMoreAttempt(cfg, events, e, key);
    AttemptTime(e);
    RecentAttempts(cfg, events + [e], key, e.at - cfg.window);
  }

  /** Any other connection is ignored: no verdict, and nothing is noted. */
  lemma OthersAreIgnored(cfg: Settings, s: Tracker, e: Opened)
    requires forall key :: !IsOutbound(cfg, e, key)
    ensures VerdictOn(cfg, s, e) == Silent && Evaluated(cfg, s, e) == s
  {
    if Counts(cfg, e).Some? { CountsExactlyWhen(cfg, e, Counts(cfg, e).value); }
  }
}
