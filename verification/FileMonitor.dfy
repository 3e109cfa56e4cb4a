/** Debouncing of file modifications, src/threatlens/monitors/file_monitor.py. Times are microseconds. */
module FileMonitor {
  import opened Collections

  const MODIFY_DEBOUNCE: int := 1_000_000
  const REMEMBERED_FOR: int := 60_000_000
  const MAX_REMEMBERED: nat := 4096

  /** One report of a modification. */
  datatype Call = Call(path: string, at: int)

  function Pruned(m: map<string, int>, now: int): map<string, int> {
    if |m| > MAX_REMEMBERED then map p | p in m && now - m[p] < REMEMBERED_FOR :: m[p] else m
  }

  function Noted(m: map<string, int>, c: Call): map<string, int> {
    Pruned(m[c.path := c.at], c.at)
  }

  function LastSeen(m: map<string, int>, path: string): int {
    if path in m then m[path] else 0
  }

  predicate Debounced(m: map<string, int>, c: Call) {
    c.at - LastSeen(m, c.path) < MODIFY_DEBOUNCE
  }

  // ---- the monitor -----------------------------------------------------------------------------------------

  datatype Kind = CREATED | DELETED | MODIFIED | RENAMED

  class FileMonitor {
    var recentModified: map<string, int>
    var events: nat

    constructor ()
      ensures recentModified == map[] && events == 0
    {
      recentModified, events := map[], 0;
    }

    method Emit(kind: Kind, path: string, debounce: bool, now: int) returns (published: Option<Kind>)
      modifies this
      ensures recentModified == if debounce then Noted(old(recentModified), Call(path, now)) else old(recentModified)
      ensures published == if debounce && Debounced(old(recentModified), Call(path, now)) then None else Some(kind)
      ensures events == old(events) + if published.Some? then 1 else 0
    {
      if debounce {
        var suppressed := IsDebounced(path, now);
        if suppressed {
          return None;
        }
      }
      events := events + 1;
      return Some(kind);
    }

    method IsDebounced(path: string, now: int) returns (debounced: bool)
      modifies this`recentModified
      ensures recentModified == Noted(old(recentModified), Call(path, now))
      ensures debounced == Debounced(old(recentModified), Call(path, now))
    {
      var last := if path in recentModified then recentModified[path] else 0;
      recentModified := recentModified[path := now];
      if |recentModified| > MAX_REMEMBERED {
        recentModified := map p | p in recentModified && now - recentModified[p] < REMEMBERED_FOR :: recentModified[p];
      }
      debounced := now - last < MODIFY_DEBOUNCE;
    }
  }

  // ---- pruning is invisible --------------------------------------------------------------------------------

  function Run(calls: seq<Call>): map<string, int> {
    if calls == [] then map[] else Noted(Run(Front(calls)), Last(calls))
  }

  /** When the path was last reported, 0 if never: what a map that is never pruned would say. */
  function LastCall(calls: seq<Call>, path: string): int {
    if calls == [] then 0
    else if Last(calls).path == path then Last(calls).at
    else LastCall(Front(calls), path)
  }

  /** A clock that starts at or after 0 and never goes back. */
  ghost predicate Clocked(calls: seq<Call>) {
    && (forall c :: c in calls ==> c.at >= 0)
    && (forall i, j :: 0 <= i < j < |calls| ==> calls[i].at <= calls[j].at)
  }

  lemma {:induction false} LastCallIsPast(calls: seq<Call>, path: string)
    requires Clocked(calls)
    ensures 0 <= LastCall(calls, path)
    ensures calls != [] ==> LastCall(calls, path) <= Last(calls).at
  {
    if calls == [] {
    } else {
      assert Last(calls) in calls;
      LastCallIsPast(Front(calls), path);
    }
  }

  /** What the map remembers is right, and what it forgot is at least a minute old. */
  lemma {:induction false} ForgetsOnlyTheOld(calls: seq<Call>, path: string)
    requires Clocked(calls)
    ensures var m := Run(calls);
            if path in m then m[path] == LastCall(calls, path)
            else LastCall(calls, path) == 0 || (calls != [] && Last(calls).at - LastCall(calls, path) >= 60_000_000)
  {
    if calls == [] {
    } else {
      ForgetsOnlyTheOld(Front(calls), path);
      LastCallIsPast(Front(calls), path);
      if |calls| > 1 {
        assert calls[|calls| - 2].at <= calls[|calls| - 1].at;
      }
    }
  }

  /**
   * A report is noted with its time; what was noted before stays as it was, except that with more than 4096 paths
   * those last reported a minute ago or earlier are dropped.
   */
  lemma DroppedExactlyWhen(m: map<string, int>, c: Call, path: string)
    ensures var all, after := m[c.path := c.at], Noted(m, c);
            && (path in after <==> path in all && !(|all| > 4096 && c.at - all[path] >= 60_000_000))
            && (path in after ==> after[path] == all[path])
  {
  }

  /** The decision on every report is the one a map that is never pruned would give. */
  lemma PruningIsInvisible(calls: seq<Call>, c: Call)
    requires Clocked(calls + [c])
    ensures Debounced(Run(calls), c) <==> c.at - LastCall(calls, c.path) < 1_000_000
  {
    hide Run;
    assert c in calls + [c];
    ClockedBefore(calls, c);
    ForgetsOnlyTheOld(calls, c.path);
    LastCallIsPast(calls, c.path);
  }

  lemma ClockedBefore(calls: seq<Call>, c: Call)
    requires Clocked(calls + [c])
    ensures Clocked(calls) && (calls != [] ==> Last(calls).at <= c.at)
  {
    assert forall d :: d in calls ==> d in calls + [c];
    forall i, j | 0 <= i < j < |calls| ensures calls[i].at <= calls[j].at {
      assert (calls + [c])[i].at <= (calls + [c])[j].at;
    }
    if calls != [] {
      assert (calls + [c])[|calls| - 1].at <= (calls + [c])[|calls|].at;
    }
  }

  /** Whether the n-th report is published as a MODIFIED event. */
  predicate Published(calls: seq<Call>, n: nat)
    requires n < |calls|
  {
    !Debounced(Run(calls[..n]), calls[n])
  }

  /** Any two published modifications of one path are at least one second apart. */
  lemma ModificationsAreApart(calls: seq<Call>, i: nat, j: nat)
    requires Clocked(calls) && i < j < |calls|
    requires calls[i].path == calls[j].path && Published(calls, i) && Published(calls, j)
    ensures calls[j].at - calls[i].at >= 1_000_000
  {
    hide Run, Debounced;
    assert calls[..j + 1] == calls[..j] + [calls[j]];
    ClockedPrefix(calls, j + 1);
    ClockedPrefix(calls, j);
    PruningIsInvisible(calls[..j], calls[j]);
    LastCallIsLatest(calls[..j], i);
  }

  lemma ClockedPrefix(calls: seq<Call>, n: nat)
    requires Clocked(calls) && n <= |calls|
    ensures Clocked(calls[..n])
  {
  }

  lemma {:induction false} LastCallIsLatest(calls: seq<Call>, i: nat)
    requires Clocked(calls) && i < |calls|
    ensures LastCall(calls, calls[i].path) >= calls[i].at
  {
    if i < |calls| - 1 {
      LastCallIsLatest(Front(calls), i);
    }
  }
}
