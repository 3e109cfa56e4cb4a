/**
 * Looking up the candidate owners of a socket, resolving a PID that no snapshot has shown yet, and not
 * retrying a failed one too soon: _lookup and _resolve_pid in src/threatlens/core/engine.py. Times are
 * microseconds.
 */
module PidResolver {
  import opened Collections
  import opened ProcessModels
  import opened SystemState

  const UNRESOLVABLE_PID_TTL: int := 30_000_000
  const MAX_UNRESOLVABLE: nat := 4096

  /** A call, and what the collector would answer if it were asked. */
  datatype Call = Call(pid: nat, now: int, answer: Option<ProcessInfo>)

  predicate Suppressed(m: map<nat, int>, pid: nat, now: int) {
    pid in m && now < m[pid]
  }

  function Failed(m: map<nat, int>, pid: nat, now: int): map<nat, int> {
    var longer := m[pid := now + UNRESOLVABLE_PID_TTL];
    if |longer| > MAX_UNRESOLVABLE then map p | p in longer && longer[p] > now :: longer[p] else longer
  }

  function Resolved(m: map<nat, int>, c: Call): map<nat, int> {
    if Suppressed(m, c.pid, c.now) then m
    else if c.answer.None? then Failed(m, c.pid, c.now)
    else m - {c.pid}
  }

  class PidResolver {
    var unresolvable: map<nat, int>

    constructor ()
      ensures unresolvable == map[]
    {
      unresolvable := map[];
    }

    method ResolvePid(pid: nat, now: int, answer: Option<ProcessInfo>) returns (info: Option<ProcessInfo>)
      modifies this
      ensures unresolvable == Resolved(old(unresolvable), Call(pid, now, answer))
      ensures info == if Suppressed(old(unresolvable), pid, now) then None else answer
    {
      if pid in unresolvable && now < unresolvable[pid] {
        return None;
      }
      if answer.None? {
        unresolvable := unresolvable[pid := now + UNRESOLVABLE_PID_TTL];
        if |unresolvable| > MAX_UNRESOLVABLE {
          unresolvable := map p | p in unresolvable && unresolvable[p] > now :: unresolvable[p];
        }
        return None;
      }
      unresolvable := unresolvable - {pid};
      return answer;
    }
  }

  function Table(calls: seq<Call>): map<nat, int> {
    if calls == [] then map[] else Resolved(Table(Front(calls)), Last(calls))
  }

  /** Until when a PID is not retried: thirty seconds from its last failure, unless it was found since. */
  function RetryAt(calls: seq<Call>, pid: nat): Option<int> {
    if calls == [] then None
    else
      var before, c := RetryAt(Front(calls), pid), Last(calls);
      if c.pid != pid || (before.Some? && c.now < before.value) then before
      else if c.answer.None? then Some(c.now + 30_000_000)
      else None
  }

  ghost predicate InOrder(calls: seq<Call>) {
    forall i, j :: 0 <= i < j < |calls| ==> calls[i].now <= calls[j].now
  }

  /** What one call does to the entry of one PID. */
  lemma OneCall(m: map<nat, int>, c: Call, pid: nat)
    ensures var after := Resolved(m, c);
            var asked := c.pid == pid && !Suppressed(m, pid, c.now);
            && (asked && c.answer.None? ==> pid in after && after[pid] == c.now + 30_000_000)
            && (asked && c.answer.Some? ==> pid !in after)
            && (!asked && pid in after ==> pid in m && after[pid] == m[pid])
            && (!asked && pid !in after && pid in m ==> m[pid] <= c.now)
  {
  }

  /** A failure drops the expired ones of the other entries, if with its own there are more than 4096. */
  lemma DroppedExactlyWhen(m: map<nat, int>, c: Call, pid: nat)
    requires !Suppressed(m, c.pid, c.now) && c.answer.None? && pid != c.pid
    ensures var after := Resolved(m, c);
            pid in after <==> pid in m && !(|m.Keys + {c.pid}| > 4096 && m[pid] <= c.now)
  {
    var longer := m[c.pid := c.now + UNRESOLVABLE_PID_TTL];
    assert longer.Keys == m.Keys + {c.pid};
  }

  /** What the map holds is right, and what it dropped has expired. */
  lemma {:induction false} DropsOnlyTheExpired(calls: seq<Call>, pid: nat)
    requires InOrder(calls)
    ensures var m := Table(calls);
            if pid in m then RetryAt(calls, pid) == Some(m[pid])
            else RetryAt(calls, pid).None? || (calls != [] && RetryAt(calls, pid).value <= Last(calls).now)
  {
    hide Resolved;
    if calls == [] {
    } else {
      DropsOnlyTheExpired(Front(calls), pid);
      OneCall(Table(Front(calls)), Last(calls), pid);
      if |calls| > 1 {
        assert calls[|calls| - 2].now <= calls[|calls| - 1].now;
      }
    }
  }

  /** Whether a call asks the collector does not depend on pruning. */
  lemma PruningIsInvisible(calls: seq<Call>, pid: nat, now: int)
    requires InOrder(calls) && (calls != [] ==> Last(calls).now <= now)
    ensures Suppressed(Table(calls), pid, now) <==> RetryAt(calls, pid).Some? && now < RetryAt(calls, pid).value
  {
    hide Run;
    DropsOnlyTheExpired(calls, pid);
  }

  // ---- the lookup ------------------------------------------------------------------------------------------

  const SPECIAL_PIDS: set<nat> := {0, 4}

  /** Whether a lookup asks for the PID at all. */
  predicate Unseen(h: Host, pid: nat) {
    pid !in SPECIAL_PIDS && ProcessByPid(h, pid).None?
  }

  /** The host after a lookup: a process that could be resolved has been observed. */
  function LookedUp(h: Host, m: map<nat, int>, c: Call, at: Time): Host {
    if Unseen(h, c.pid) && !Suppressed(m, c.pid, c.now) && c.answer.Some? then Observed(h, c.answer.value, at) else h
  }

  method Lookup(host: HostState, resolver: PidResolver, c: Call, at: Time)
    returns (candidates: seq<ProcessInfo>)
    requires IndexIsLive(host.State())
    modifies host, resolver
    ensures host.State() == LookedUp(old(host.State()), old(resolver.unresolvable), c, at)
    ensures resolver.unresolvable ==
            if Unseen(old(host.State()), c.pid) then Resolved(old(resolver.unresolvable), c)
            else old(resolver.unresolvable)
    ensures exists entries :: AreCandidates(host.State(), c.pid, entries, candidates)
  {
    hide Observed, Merged, Resolved, AreCandidates;
    if c.pid !in SPECIAL_PIDS && ProcessByPid(host.State(), c.pid).None? {
      var resolved := resolver.ResolvePid(c.pid, c.now, c.answer);
      if resolved.Some? {
        host.ObserveProcess(resolved.value, at);
      }
    }
    candidates := host.CandidatesForPid(c.pid);
  }

  /** A running or exited instance with this key is among the candidates for the PID. */
  predicate IsCandidate(h: Host, key: ProcessKey, pid: nat) {
    Holds(h, (true, key), pid) || Holds(h, (false, key), pid)
  }

  /**
   * A lookup never loses a candidate, and after asking successfully for an unseen PID the process that
   * holds it is one.
   */
  lemma LookupOnlyAdds(h: Host, m: map<nat, int>, c: Call, at: Time, key: ProcessKey)
    requires forall k :: k in h.current ==> h.current[k].Key() == k
    requires forall k :: k in h.exited ==> h.exited[k].0.Key() == k
    requires c.answer.Some? ==> c.answer.value.pid == c.pid
    ensures IsCandidate(h, key, c.pid) ==> IsCandidate(LookedUp(h, m, c, at), key, c.pid)
    ensures Unseen(h, c.pid) && !Suppressed(m, c.pid, c.now) && c.answer.Some? ==>
              IsCandidate(LookedUp(h, m, c, at), c.answer.value.Key(), c.pid)
    ensures IsCandidate(LookedUp(h, m, c, at), key, c.pid) ==>
              IsCandidate(h, key, c.pid) || (c.answer.Some? && key == c.answer.value.Key())
  {
  }

  /** A lookup asks the collector exactly for PIDs other than 0 and 4 that no current process holds. */
  lemma AsksExactlyWhen(h: Host, pid: nat)
    requires IndexAgrees(h)
    ensures Unseen(h, pid) <==> pid != 0 && pid != 4 && forall k :: k in h.current ==> h.current[k].pid != pid
  {
    forall k | k in h.current ensures h.current[k].pid == k.pid { }
  }
}
