/**
 * Socket attribution, src/threatlens/correlation/process_network.py, and the correctness of both
 * selection functions against an operating-system history of process instances.
 */
module ProcessNetwork {
  import opened Collections
  import opened ProcessModels
  import opened NetworkModels
  import opened ProcessTree

  const SYSTEM_PID: nat := 4
  const CREATION_TOLERANCE: Time := 1_000_000

  /** The instance is not known to be younger than the socket, give or take the tolerance. */
  predicate Eligible(c: NetworkConnection, p: ProcessInfo)
    requires c.createdAt.Some?
  {
    p.createTime.None? || p.createTime.value <= c.createdAt.value + CREATION_TOLERANCE
  }

  function Attribute(c: NetworkConnection, candidates: seq<ProcessInfo>): (Attribution, Option<ProcessInfo>) {
    if c.pid == IDLE_PID then (UNATTRIBUTED, None)
    else if c.pid == SYSTEM_PID then (KERNEL, if candidates == [] then None else Some(candidates[0]))
    else if candidates == [] then (UNATTRIBUTED, None)
    else if c.createdAt.None? then (ATTRIBUTED, Some(FirstMax(candidates, (p: ProcessInfo) => p.Stamp())))
    else
      var eligible := Filter(candidates, p => Eligible(c, p));
      if eligible == [] then (PID_REUSE_SUSPECTED, None)
      else (ATTRIBUTED, Some(FirstMax(eligible, (p: ProcessInfo) => p.Stamp())))
  }

  // ---- which verdict when ----------------------------------------------------------------------

  /** What attribute decides, in terms of its own steps. */
  lemma AttributeChooses(c: NetworkConnection, candidates: seq<ProcessInfo>)
    ensures var (verdict, owner) := Attribute(c, candidates);
            && (verdict == KERNEL <==> c.pid == SYSTEM_PID)
            && (verdict == UNATTRIBUTED <==> c.pid == IDLE_PID || (c.pid != SYSTEM_PID && candidates == []))
            && (verdict == PID_REUSE_SUSPECTED <==>
                  && c.pid != IDLE_PID && c.pid != SYSTEM_PID && candidates != [] && c.createdAt.Some?
                  && forall p :: p in candidates ==> !Eligible(c, p))
            && (verdict == ATTRIBUTED ==> owner.Some?)
            && (owner.Some? ==> owner.value in candidates)
            && (verdict == ATTRIBUTED && c.createdAt.Some? ==>
                  && Eligible(c, owner.value)
                  && forall p :: p in candidates && Eligible(c, p) ==> p.Stamp() <= owner.value.Stamp())
  {
    if c.createdAt.Some? {
      var eligible := Filter(candidates, p => Eligible(c, p));
      assert forall p :: p in candidates && Eligible(c, p) ==> p in eligible;
    }
  }

  /** p is known to have come into being more than a second after the socket. */
  predicate TooYoung(c: NetworkConnection, p: ProcessInfo) {
    c.createdAt.Some? && p.createTime.Some? && p.createTime.value > c.createdAt.value + 1_000_000
  }

  /**
   * PID 0 owns nothing; PID 4 is the kernel, named by the first candidate. Any other PID is unattributed without
   * candidates, suspected of reuse when all of them are more than a second younger than the socket, and else
   * attributed to the candidate that began last among the others, an unknown time counting as 0.
   */
  lemma AttributeVerdicts(c: NetworkConnection, candidates: seq<ProcessInfo>)
    ensures var (verdict, owner) := Attribute(c, candidates);
            && (verdict == KERNEL <==> c.pid == 4)
            && (c.pid == 4 ==> owner == if candidates == [] then None else Some(candidates[0]))
            && (verdict == UNATTRIBUTED <==> c.pid == 0 || (c.pid != 4 && candidates == []))
            && (verdict == PID_REUSE_SUSPECTED <==>
                  c.pid != 0 && c.pid != 4 && candidates != [] && forall p :: p in candidates ==> TooYoung(c, p))
            && (verdict == ATTRIBUTED || c.pid == 4 || owner == None)
            && (verdict == ATTRIBUTED ==>
                  && owner.Some? && owner.value in candidates && !TooYoung(c, owner.value)
                  && forall p :: p in candidates && !TooYoung(c, p) ==>
                       (if p.createTime.None? then 0 else p.createTime.value)
                       <= if owner.value.createTime.None? then 0 else owner.value.createTime.value)
  {
    AttributeChooses(c, candidates);
    forall p ensures c.createdAt.Some? ==> (Eligible(c, p) <==> !TooYoung(c, p)) {
    }
    if candidates != [] { assert candidates[0] in candidates; }
  }

  /** A process known to be younger than the socket is never blamed, the kernel's PID aside. */
  lemma NeverBlamesYounger(c: NetworkConnection, candidates: seq<ProcessInfo>)
    requires c.pid != 4 && c.createdAt.Some?
    ensures var owner := Attribute(c, candidates).1;
            owner.Some? && owner.value.createTime.Some? ==>
              owner.value.createTime.value <= c.createdAt.value + 1_000_000
  {
    AttributeChooses(c, candidates);
  }

  // ---- the operating system's view ---------------------------------------------------------------

  /** One life of a PID; without an end it is still running. */
  datatype Instance = Instance(pid: nat, start: Time, end: Option<Time>) {
    predicate AliveAt(t: Time) {
      start <= t && (end.None? || t < end.value)
    }
  }

  /** Every instance lives for a while, and two instances of one PID are never alive together. */
  ghost predicate IsHistory(history: set<Instance>) {
    && (forall i :: i in history ==> i.AliveAt(i.start))
    && (forall i, j, t: Time ::
          i in history && j in history && i.pid == j.pid && i.AliveAt(t) && j.AliveAt(t) ==> i == j)
  }

  predicate Observes(p: ProcessInfo, i: Instance) {
    p.pid == i.pid && p.createTime == Some(i.start)
  }

  ghost predicate AllObserved(ps: seq<ProcessInfo>, history: set<Instance>) {
    forall p :: p in ps ==> exists i :: i in history && Observes(p, i)
  }

  /** Of the instances of a PID begun by time t, only the one alive at t begins at or after it. */
  lemma LatestIsAlive(history: set<Instance>, i: Instance, j: Instance, t: Time)
    requires IsHistory(history) && i in history && j in history && i.pid == j.pid
    requires i.AliveAt(t) && i.start <= j.start <= t
    ensures i == j
  {
    assert i.AliveAt(j.start) && j.AliveAt(j.start);
  }

  /**
   * With known times, the true creator is selected exactly when it is among the candidates;
   * PID 0 is never accepted as a parent.
   */
  lemma SelectsTrueCreator(history: set<Instance>, child: ProcessInfo, self: Instance, creator: Instance,
                           candidates: seq<ProcessInfo>)
    requires IsHistory(history) && self in history && creator in history && creator != self
    requires Observes(child, self) && child.ppid == Some(creator.pid) && creator.AliveAt(self.start)
    requires AllObserved(candidates, history)
    ensures var r := SelectParent(child, candidates);
            && (creator.pid == IDLE_PID ==> r.None?)
            && (creator.pid != IDLE_PID ==>
                  ((r.Some? && Observes(r.value, creator)) <==> exists p :: p in candidates && Observes(p, creator)))
  {
    var r := SelectParent(child, candidates);
    SelectParentQualifies(child, candidates);
    assert self.AliveAt(self.start);
    assert creator.pid != self.pid;
    if p :| creator.pid != IDLE_PID && p in candidates && Observes(p, creator) {
      assert CanBeParent(child, p);
      var i :| i in history && Observes(r.value, i);
      LatestIsAlive(history, creator, i, self.start);
    }
  }

  /** Without the creator among the candidates, whatever is selected had exited before the child began. */
  lemma OtherwiseSelectsDeadInstance(history: set<Instance>, child: ProcessInfo, self: Instance, creator: Instance,
                                     candidates: seq<ProcessInfo>, chosen: Instance)
    requires IsHistory(history) && self in history && creator in history && chosen in history
    requires Observes(child, self) && child.ppid == Some(creator.pid) && creator.AliveAt(self.start)
    requires AllObserved(candidates, history)
    requires forall p :: p in candidates ==> !Observes(p, creator)
    requires SelectParent(child, candidates).Some? && Observes(SelectParent(child, candidates).value, chosen)
    ensures !chosen.AliveAt(self.start) && chosen.start <= self.start
  {
    SelectParentQualifies(child, candidates);
  }

  /**
   * The true owner is blamed exactly when no other instance of its PID among the candidates began
   * after the socket but within the tolerance.
   */
  lemma AttributesTrueOwner(history: set<Instance>, c: NetworkConnection, owner: Instance, candidates: seq<ProcessInfo>)
    requires IsHistory(history) && owner in history && AllObserved(candidates, history)
    requires c.pid == owner.pid && c.pid != IDLE_PID && c.pid != SYSTEM_PID
    requires c.createdAt.Some? && owner.AliveAt(c.createdAt.value)
    requires forall p :: p in candidates ==> p.pid == c.pid
    requires exists p :: p in candidates && Observes(p, owner)
    ensures var (verdict, blamed) := Attribute(c, candidates);
            && verdict == ATTRIBUTED && blamed.Some?
            && (Observes(blamed.value, owner) <==>
                  !exists p :: p in candidates
                               && c.createdAt.value < p.Stamp() <= c.createdAt.value + CREATION_TOLERANCE)
  {
    var s := c.createdAt.value;
    var (verdict, blamed) := Attribute(c, candidates);
    AttributeChooses(c, candidates);
    var p :| p in candidates && Observes(p, owner);
    assert Eligible(c, p);
    var i :| i in history && Observes(blamed.value, i);
    if blamed.value.Stamp() <= s {
      LatestIsAlive(history, owner, i, s);
      assert forall q :: q in candidates && Eligible(c, q) ==> q.Stamp() <= s;
    }
  }

  /** Without the owner among them, whoever is blamed had ended by then, or began after it within the tolerance. */
  lemma OtherwiseBlamesAnother(history: set<Instance>, c: NetworkConnection, owner: Instance,
                               candidates: seq<ProcessInfo>, blamed: Instance)
    requires IsHistory(history) && owner in history && blamed in history && AllObserved(candidates, history)
    requires c.pid == owner.pid && c.pid != IDLE_PID && c.pid != SYSTEM_PID
    requires c.createdAt.Some? && owner.AliveAt(c.createdAt.value)
    requires forall p :: p in candidates ==> p.pid == c.pid && !Observes(p, owner)
    requires var owner' := Attribute(c, candidates).1; owner'.Some? && Observes(owner'.value, blamed)
    ensures var s := c.createdAt.value;
            || (blamed.start <= s && blamed.end.Some? && blamed.end.value <= s)
            || s < blamed.start <= s + CREATION_TOLERANCE
  {
    var p := Attribute(c, candidates).1.value;
    AttributeChooses(c, candidates);
    assert p in candidates && blamed != owner;
    assert !blamed.AliveAt(c.createdAt.value);
  }

  // ---- correlate over a process list -------------------------------------------------------------

  function Lookup(index: map<nat, seq<ProcessInfo>>, pid: nat): seq<ProcessInfo> {
    if pid in index then index[pid] else []
  }

  function WithPid(ps: seq<ProcessInfo>, pid: nat): seq<ProcessInfo> {
    Filter(ps, (p: ProcessInfo) => p.pid == pid)
  }

  lemma WithPidStep(ps: seq<ProcessInfo>, i: nat, pid: nat)
    requires i < |ps|
    ensures WithPid(ps[..i + 1], pid) ==
            if ps[i].pid == pid then WithPid(ps[..i], pid) + [ps[i]] else WithPid(ps[..i], pid)
  {
    assert Front(ps[..i + 1]) == ps[..i];
  }

  method LookupFromProcesses(ps: seq<ProcessInfo>) returns (index: map<nat, seq<ProcessInfo>>)
    ensures forall pid: nat :: Lookup(index, pid) == WithPid(ps, pid)
  {
    index := map[];
    for i := 0 to |ps|
      invariant forall pid: nat :: Lookup(index, pid) == WithPid(ps[..i], pid)
    {
      ghost var was := index;
      index := index[ps[i].pid := Lookup(index, ps[i].pid) + [ps[i]]];
      forall pid: nat ensures Lookup(index, pid) == WithPid(ps[..i + 1], pid) {
        assert Lookup(was, pid) == WithPid(ps[..i], pid);
        WithPidStep(ps, i, pid);
      }
    }
    assert ps[..|ps|] == ps;
  }

  function Joined(c: NetworkConnection, decision: (Attribution, Option<ProcessInfo>)): CorrelatedConnection {
    match decision.1
    case None => CorrelatedConnection(c, decision.0, None, None)
    case Some(p) => CorrelatedConnection(c, decision.0, Some(p.Key()), p.exe)
  }

  method Correlate(connections: seq<NetworkConnection>, index: map<nat, seq<ProcessInfo>>)
    returns (items: seq<CorrelatedConnection>)
    ensures |items| == |connections|
    ensures forall i :: 0 <= i < |items| ==>
              items[i] == Joined(connections[i], Attribute(connections[i], Lookup(index, connections[i].pid)))
  {
    items := [];
    for i := 0 to |connections|
      invariant |items| == i
      invariant forall j :: 0 <= j < i ==>
                  items[j] == Joined(connections[j], Attribute(connections[j], Lookup(index, connections[j].pid)))
    {
      var decision := Attribute(connections[i], Lookup(index, connections[i].pid));
      items := items + [Joined(connections[i], decision)];
    }
  }

  /** Joining a socket table with a full process list names each socket's true owner by its key. */
  lemma CorrelationNamesOwner(history: set<Instance>, ps: seq<ProcessInfo>, c: NetworkConnection, owner: ProcessInfo,
                              i: Instance)
    requires IsHistory(history) && AllObserved(ps, history)
    requires owner in ps && i in history && Observes(owner, i)
    requires c.pid == owner.pid && c.pid != IDLE_PID && c.pid != SYSTEM_PID
    requires c.createdAt.Some? && i.AliveAt(c.createdAt.value)
    requires forall p :: p in ps && p.pid == c.pid ==>
               !(c.createdAt.value < p.Stamp() <= c.createdAt.value + CREATION_TOLERANCE)
    ensures var item := Joined(c, Attribute(c, WithPid(ps, c.pid)));
            && item.connection == c && item.attribution == ATTRIBUTED
            && item.processKey == Some(owner.Key())
            && exists p :: p in ps && Observes(p, i) && item.exe == p.exe
  {
    AttributesTrueOwner(history, c, i, WithPid(ps, c.pid));
    var blamed := Attribute(c, WithPid(ps, c.pid)).1.value;
    AttributeChooses(c, WithPid(ps, c.pid));
    assert blamed in ps && Observes(blamed, i);
  }
}
