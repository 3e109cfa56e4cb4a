/** Process tree reconstruction: src/threatlens/correlation/process_tree.py. */
module ProcessTree {
  import opened Collections
  import opened ProcessModels

  const IDLE_PID: nat := 0

  datatype ProcessNode = ProcessNode(process: ProcessInfo, children: seq<ProcessNode>, parentVerified: bool)

  // ---- choosing a parent ---------------------------------------------------------------------

  predicate NamesNoParent(child: ProcessInfo) {
    child.ppid == None || child.ppid == Some(child.pid) || child.ppid == Some(IDLE_PID)
  }

  /** p holds the PID the child names and did not come into being after it. */
  predicate CanBeParent(child: ProcessInfo, p: ProcessInfo) {
    && child.ppid == Some(p.pid)
    && p.Key() != child.Key()
    && (p.createTime.None? || child.createTime.None? || p.createTime.value <= child.createTime.value)
  }

  function SelectParent(child: ProcessInfo, candidates: seq<ProcessInfo>): Option<ProcessInfo> {
    if NamesNoParent(child) then None
    else
      var valid := Filter(candidates, p => CanBeParent(child, p));
      if valid == [] then None else Some(FirstMax(valid, (p: ProcessInfo) => p.Stamp()))
  }

  /**
   * Nobody is selected for a child that names no PID, PID 0 or its own. For any other child nobody is
   * selected exactly when each holder of the PID is known to be younger; whoever is selected holds it, is
   * not known to be younger, and began last among those that are not, an unknown time counting as 0.
   */
  lemma SelectParentIsLatest(child: ProcessInfo, candidates: seq<ProcessInfo>)
    ensures var r := SelectParent(child, candidates);
            if child.ppid == None || child.ppid == Some(0) || child.ppid == Some(child.pid) then r.None?
            else
              && (r.None? <==>
                    forall p :: p in candidates && p.pid == child.ppid.value ==> StrictlyOlder(child, p))
              && (r.Some? ==>
                    && r.value in candidates && r.value.pid == child.ppid.value && !StrictlyOlder(child, r.value)
                    && forall p :: p in candidates && p.pid == child.ppid.value && !StrictlyOlder(child, p) ==>
                         (if p.createTime.None? then 0 else p.createTime.value)
                         <= if r.value.createTime.None? then 0 else r.value.createTime.value)
  {
    SelectParentQualifies(child, candidates);
    forall p | p in candidates && !NamesNoParent(child)
      ensures CanBeParent(child, p) <==> p.pid == child.ppid.value && !StrictlyOlder(child, p)
    {
    }
  }

  lemma SelectParentQualifies(child: ProcessInfo, candidates: seq<ProcessInfo>)
    ensures var r := SelectParent(child, candidates);
            && (r.None? <==> NamesNoParent(child) || forall p :: p in candidates ==> !CanBeParent(child, p))
            && (r.Some? ==> r.value in candidates && CanBeParent(child, r.value))
            && (r.Some? ==>
                  forall p :: p in candidates && CanBeParent(child, p) ==> p.Stamp() <= r.value.Stamp())
  {
    var valid := Filter(candidates, p => CanBeParent(child, p));
    assert forall p :: p in candidates && CanBeParent(child, p) ==> p in valid;
  }

  function VerifiedParent(child: ProcessInfo, byPid: map<nat, ProcessInfo>): Option<ProcessInfo> {
    if child.ppid.None? then None
    else SelectParent(child, if child.ppid.value in byPid then [byPid[child.ppid.value]] else [])
  }

  ghost predicate IsIndex(byPid: map<nat, ProcessInfo>) {
    forall pid :: pid in byPid ==> byPid[pid].pid == pid
  }

  lemma ParentIsIndexed(child: ProcessInfo, byPid: map<nat, ProcessInfo>)
    requires IsIndex(byPid) && VerifiedParent(child, byPid).Some?
    ensures var p := VerifiedParent(child, byPid).value;
            p.pid in byPid && byPid[p.pid] == p
  {
    SelectParentQualifies(child, if child.ppid.value in byPid then [byPid[child.ppid.value]] else []);
  }

  /** q is the last process listed with the PID that c names, and not known to be younger than c. */
  ghost predicate IsNamedParent(ps: seq<ProcessInfo>, c: ProcessInfo, q: ProcessInfo) {
    && c.ppid == Some(q.pid) && q.pid != 0 && q.pid != c.pid
    && LastWithPid(ps, q)
    && !StrictlyOlder(c, q)
  }

  lemma VerifiedParentExactlyWhen(ps: seq<ProcessInfo>, c: ProcessInfo, q: ProcessInfo)
    ensures VerifiedParent(c, ByPid(ps)) == Some(q) <==> IsNamedParent(ps, c, q)
  {
    hide SelectParent, ByPid;
    ByPidHoldsTheLast(ps, q);
    if c.ppid.Some? {
      var pid := c.ppid.value;
      var candidates := if pid in ByPid(ps) then [ByPid(ps)[pid]] else [];
      SelectParentIsLatest(c, candidates);
      assert forall p :: p in candidates ==> p == ByPid(ps)[pid];
      if pid in ByPid(ps) { assert candidates[0] in candidates; }
    }
  }

  // ---- verified ancestry as a relation --------------------------------------------------------

  /** Following verified parents from p reaches a process without one after exactly n links. */
  ghost predicate RootAt(byPid: map<nat, ProcessInfo>, p: ProcessInfo, n: nat)
    decreases n
  {
    match VerifiedParent(p, byPid)
    case None => n == 0
    case Some(q) => n > 0 && RootAt(byPid, q, n - 1)
  }

  lemma {:induction false} RootAtUnique(byPid: map<nat, ProcessInfo>, p: ProcessInfo, m: nat, n: nat)
    requires RootAt(byPid, p, m) && RootAt(byPid, p, n)
    ensures m == n
    decreases m
  {
    match VerifiedParent(p, byPid)
    case None =>
    case Some(q) => RootAtUnique(byPid, q, m - 1, n - 1);
  }

  /** Length of the verified ancestry if it ends at a genuine root, -1 if it runs into a cycle. */
  ghost function RootDepth(byPid: map<nat, ProcessInfo>, p: ProcessInfo): (d: int)
    ensures d >= -1
  {
    if n: nat :| RootAt(byPid, p, n) then n else -1
  }

  lemma RootDepthIsDepth(byPid: map<nat, ProcessInfo>, p: ProcessInfo)
    ensures RootDepth(byPid, p) >= -1
    ensures forall n: nat :: RootAt(byPid, p, n) <==> n == RootDepth(byPid, p)
  {
    hide VerifiedParent;
    if n: nat :| RootAt(byPid, p, n) {
      forall m: nat | RootAt(byPid, p, m) ensures m == n { RootAtUnique(byPid, p, m, n); }
    }
  }

  lemma RootDepthStep(byPid: map<nat, ProcessInfo>, p: ProcessInfo)
    ensures match VerifiedParent(p, byPid)
            case None => RootDepth(byPid, p) == 0
            case Some(q) => RootDepth(byPid, p) == if RootDepth(byPid, q) < 0 then -1 else RootDepth(byPid, q) + 1
  {
    hide VerifiedParent, RootDepth;
    RootDepthIsDepth(byPid, p);
    match VerifiedParent(p, byPid)
    case None => assert RootAt(byPid, p, 0);
    case Some(q) =>
      RootDepthIsDepth(byPid, q);
      if RootDepth(byPid, q) >= 0 {
        assert RootAt(byPid, p, RootDepth(byPid, q) + 1);
      }
      var d := RootDepth(byPid, p);
      if d >= 0 {
        assert RootAt(byPid, p, d);
        assert RootAt(byPid, q, d - 1);
      }
  }

  // ---- ancestry -------------------------------------------------------------------------------

  /** Each process on the path is the verified parent of the one before; none occurs twice. */
  ghost predicate IsLineage(path: seq<ProcessInfo>, byPid: map<nat, ProcessInfo>) {
    && (forall i :: 0 <= i < |path| - 1 ==> VerifiedParent(path[i], byPid) == Some(path[i + 1]))
    && DistinctKeys(path)
  }

  /** Everything the loop promises about its result; AncestryUnique shows that it fixes the result. */
  ghost predicate IsAncestry(process: ProcessInfo, byPid: map<nat, ProcessInfo>, limit: int, chain: seq<ProcessInfo>) {
    var path := [process] + chain;
    && |chain| <= Max(0, limit)
    && IsLineage(path, byPid)
    && (|chain| < limit ==>
          VerifiedParent(Last(path), byPid).None?
          || VerifiedParent(Last(path), byPid).value.Key() in KeysOf(path))
  }

  lemma LineageGrows(path: seq<ProcessInfo>, byPid: map<nat, ProcessInfo>, parent: ProcessInfo)
    requires path != [] && IsLineage(path, byPid)
    requires VerifiedParent(Last(path), byPid) == Some(parent) && parent.Key() !in KeysOf(path)
    ensures IsLineage(path + [parent], byPid)
    ensures KeysOf(path + [parent]) == KeysOf(path) + {parent.Key()}
  {
    hide VerifiedParent;
    var more := path + [parent];
    forall i | 0 <= i < |more| - 1 ensures VerifiedParent(more[i], byPid) == Some(more[i + 1]) {
      if i == |path| - 1 { assert more[i] == Last(path); }
    }
    forall i, j | 0 <= i < j < |more| ensures more[i].Key() != more[j].Key() {
      assert path[i].Key() in KeysOf(path);
    }
  }

  method Ancestry(process: ProcessInfo, byPid: map<nat, ProcessInfo>, limit: int) returns (chain: seq<ProcessInfo>)
    ensures IsAncestry(process, byPid, limit, chain)
  {
    hide VerifiedParent;
    chain := [];
    var seen := {process.Key()};
    var current := process;
    while |chain| < limit
      invariant |chain| <= Max(0, limit)
      invariant current == Last([process] + chain)
      invariant seen == KeysOf([process] + chain)
      invariant IsLineage([process] + chain, byPid)
      decreases limit - |chain|
    {
      var parent := VerifiedParent(current, byPid);
      if parent.None? || parent.value.Key() in seen { break; }
      LineageGrows([process] + chain, byPid, parent.value);
      assert [process] + (chain + [parent.value]) == ([process] + chain) + [parent.value];
      chain := chain + [parent.value];
      seen := seen + {parent.value.Key()};
      current := parent.value;
    }
  }

  lemma {:induction false} AncestryUnique(process: ProcessInfo, byPid: map<nat, ProcessInfo>, limit: int,
                                          a: seq<ProcessInfo>, b: seq<ProcessInfo>)
    requires IsAncestry(process, byPid, limit, a) && IsAncestry(process, byPid, limit, b)
    ensures a == b
  {
    hide VerifiedParent;
    var pa, pb := [process] + a, [process] + b;
    LineagesAgree(pa, pb, byPid, Min(|pa|, |pb|));
    if |a| < |b| {
      AncestryStops(process, byPid, limit, a, b);
    } else if |b| < |a| {
      AncestryStops(process, byPid, limit, b, a);
    }
    assert pa[..|pa|] == pa && pb[..|pb|] == pb;
    assert a == pa[1..] && b == pb[1..];
  }

  lemma {:induction false} LineagesAgree(pa: seq<ProcessInfo>, pb: seq<ProcessInfo>, byPid: map<nat, ProcessInfo>,
                                         n: nat)
    requires IsLineage(pa, byPid) && IsLineage(pb, byPid) && 1 <= n <= |pa| && n <= |pb| && pa[0] == pb[0]
    ensures pa[..n] == pb[..n]
  {
    hide VerifiedParent;
    if n > 1 {
      LineagesAgree(pa, pb, byPid, n - 1);
      assert pa[n - 2] == pa[..n - 1][n - 2] == pb[n - 2];
      assert VerifiedParent(pa[n - 2], byPid) == Some(pa[n - 1]);
      assert VerifiedParent(pb[n - 2], byPid) == Some(pb[n - 1]);
    }
  }

  /** A finished walk is never a proper prefix of another walk from the same process. */
  lemma AncestryStops(process: ProcessInfo, byPid: map<nat, ProcessInfo>, limit: int,
                      a: seq<ProcessInfo>, b: seq<ProcessInfo>)
    requires IsAncestry(process, byPid, limit, a) && IsAncestry(process, byPid, limit, b)
    requires |a| < |b|
    ensures [process] + a != ([process] + b)[..|a| + 1]
  {
    hide VerifiedParent;
    var pb := [process] + b;
    var stem, next := pb[..|a| + 1], pb[|a| + 1];
    assert VerifiedParent(Last(stem), byPid) == Some(next);
    assert next.Key() !in KeysOf(stem);
  }

  lemma {:induction false} DepthAlongPath(byPid: map<nat, ProcessInfo>, path: seq<ProcessInfo>, i: nat)
    requires i < |path|
    requires IsLineage(path, byPid)
    ensures RootDepth(byPid, path[0]) >= 0 ==> RootDepth(byPid, path[i]) == RootDepth(byPid, path[0]) - i >= 0
    ensures RootDepth(byPid, path[0]) < 0 ==> RootDepth(byPid, path[i]) < 0
  {
    if i > 0 {
      DepthAlongPath(byPid, path, i - 1);
      assert VerifiedParent(path[i - 1], byPid) == Some(path[i]);
      RootDepthStep(byPid, path[i - 1]);
    }
  }

  /** A chain without repetition cannot be longer than the index it is drawn from. */
  lemma ChainFits(process: ProcessInfo, byPid: map<nat, ProcessInfo>, limit: int, chain: seq<ProcessInfo>)
    requires IsIndex(byPid) && IsAncestry(process, byPid, limit, chain)
    ensures |chain| <= |byPid|
  {
    var path := [process] + chain;
    forall i | 0 <= i < |chain| ensures chain[i].pid in byPid && byPid[chain[i].pid] == chain[i] {
      assert VerifiedParent(path[i], byPid) == Some(path[i + 1]);
      ParentIsIndexed(path[i], byPid);
    }
    assert NoDuplicates(chain) by {
      forall i, j | 0 <= i < j < |chain| ensures chain[i] != chain[j] {
        assert path[i + 1].Key() != path[j + 1].Key();
      }
    }
    DistinctCount(chain);
    var members := set p | p in chain;
    assert members <= byPid.Values;
    SubsetSize(members, byPid.Values);
    ValuesNoMoreThanKeys(byPid);
  }

  lemma {:induction false} ValuesNoMoreThanKeys(byPid: map<nat, ProcessInfo>)
    ensures |byPid.Values| <= |byPid|
    decreases |byPid|
  {
    if byPid.Keys != {} {
      var k :| k in byPid.Keys;
      var rest := byPid - {k};
      ValuesNoMoreThanKeys(rest);
      assert byPid.Keys == rest.Keys + {k};
      assert byPid.Values <= rest.Values + {byPid[k]} by {
        forall v | v in byPid.Values ensures v in rest.Values + {byPid[k]} {
          var pid :| pid in byPid && byPid[pid] == v;
          if pid != k { assert rest[pid] == v; }
        }
      }
      SubsetSize(byPid.Values, rest.Values + {byPid[k]});
      assert |byPid.Keys| == |rest.Keys| + 1;
    } else {
      assert byPid == map[];
    }
  }

  /** With room for every indexed process, the walk ends at the genuine root or else in a cycle. */
  lemma AncestryDecidesDepth(process: ProcessInfo, byPid: map<nat, ProcessInfo>, chain: seq<ProcessInfo>)
    requires IsIndex(byPid) && IsAncestry(process, byPid, |byPid| + 1, chain)
    requires forall p :: p in byPid.Values && p.Key() == process.Key() ==> p == process
    ensures RootDepth(byPid, process) == if VerifiedParent(Last([process] + chain), byPid).None? then |chain| else -1
  {
    ChainFits(process, byPid, |byPid| + 1, chain);
    var path := [process] + chain;
    var top := Last(path);
    DepthAlongPath(byPid, path, |chain|);
    RootDepthStep(byPid, top);
    if VerifiedParent(top, byPid).Some? {
      var next := VerifiedParent(top, byPid).value;
      ParentIsIndexed(top, byPid);
      var j :| 0 <= j < |path| && path[j].Key() == next.Key();
      if j > 0 {
        assert VerifiedParent(path[j - 1], byPid) == Some(path[j]);
        ParentIsIndexed(path[j - 1], byPid);
      }
      assert path[j] == next;
      DepthAlongPath(byPid, path, j);
    }
  }

  method BeyondDepth(process: ProcessInfo, byPid: map<nat, ProcessInfo>, maxDepth: int) returns (beyond: bool)
    requires IsIndex(byPid)
    requires forall p :: p in byPid.Values && p.Key() == process.Key() ==> p == process
    ensures beyond <==> RootDepth(byPid, process) >= 0 && RootDepth(byPid, process) >= maxDepth
  {
    var chain := Ancestry(process, byPid, |byPid| + 1);
    var top := if chain != [] then Last(chain) else process;
    assert top == Last([process] + chain);
    AncestryDecidesDepth(process, byPid, chain);
    beyond := |chain| >= maxDepth && VerifiedParent(top, byPid).None?;
  }

  // ---- forests --------------------------------------------------------------------------------

  function Flatten(node: ProcessNode): seq<ProcessInfo> {
    [node.process] + FlattenAll(node.children)
  }

  function FlattenAll(nodes: seq<ProcessNode>): seq<ProcessInfo> {
    if nodes == [] then [] else Flatten(nodes[0]) + FlattenAll(nodes[1..])
  }

  lemma {:induction false} FlattenAppend(nodes: seq<ProcessNode>, node: ProcessNode)
    ensures FlattenAll(nodes + [node]) == FlattenAll(nodes) + Flatten(node)
  {
    if nodes == [] {
      assert nodes + [node] == [node];
      assert FlattenAll([node]) == Flatten(node) + FlattenAll([]);
    } else {
      assert (nodes + [node])[1..] == nodes[1..] + [node];
      FlattenAppend(nodes[1..], node);
    }
  }

  /** The nodes stand in creation order. */
  ghost predicate InOrder(nodes: seq<ProcessNode>) {
    forall i, j :: 0 <= i < j < |nodes| ==> Earlier(nodes[i].process, nodes[j].process)
  }

  /** Every edge joins a child to its verified parent; siblings stand in creation order. */
  ghost predicate WellLinked(node: ProcessNode, byPid: map<nat, ProcessInfo>) {
    && InOrder(node.children)
    && forall c :: c in node.children ==>
         && VerifiedParent(c.process, byPid) == Some(node.process)
         && c.parentVerified
         && WellLinked(c, byPid)
  }

  /** children.get(key, []) once every process has been filed under its verified parent. */
  function FiledUnder(ps: seq<ProcessInfo>, byPid: map<nat, ProcessInfo>, key: ProcessKey): (r: seq<ProcessInfo>)
    ensures forall p :: p in r <==>
              p in ps && VerifiedParent(p, byPid).Some? && VerifiedParent(p, byPid).value.Key() == key
  {
    Filter(ps, p => VerifiedParent(p, byPid).Some? && VerifiedParent(p, byPid).value.Key() == key)
  }

  function Get<K, V>(m: map<K, seq<V>>, k: K): seq<V> {
    if k in m then m[k] else []
  }

  // ---- what a listing demands of its forest ---------------------------------------------------

  /** The processes to arrange, their PID index and the depth cap. */
  datatype Listing = Listing(ps: seq<ProcessInfo>, byPid: map<nat, ProcessInfo>, maxDepth: int) {

    ghost predicate Valid() {
      byPid == ByPid(ps) && DistinctKeys(ps)
    }

    ghost predicate Shown(p: ProcessInfo) {
      p in ps && RootDepth(byPid, p) <= Max(0, maxDepth)
    }

    ghost predicate ChildrenReached(p: ProcessInfo, reached: set<ProcessKey>) {
      forall c :: c in ps && VerifiedParent(c, byPid) == Some(p) ==> c.Key() in reached
    }

    /** p may be shown, and if it is rooted above the cap all its children are shown too. */
    ghost predicate Settled(p: ProcessInfo, reached: set<ProcessKey>) {
      Shown(p) && (0 <= RootDepth(byPid, p) < maxDepth ==> ChildrenReached(p, reached))
    }

    /** What building nodes with flattened form flat has done to the reached set. */
    ghost predicate Grown(before: set<ProcessKey>, after: set<ProcessKey>, flat: seq<ProcessInfo>) {
      && DistinctKeys(flat)
      && after == before + KeysOf(flat)
      && before !! KeysOf(flat)
      && forall p :: p in flat ==> Settled(p, after)
    }

    /** Above the cap no child is left out: it hangs here or was placed before. */
    ghost predicate Full(node: ProcessNode, depth: nat, reached: set<ProcessKey>) {
      && (depth < maxDepth ==> ChildrenReached(node.process, reached))
      && forall c :: c in node.children ==> Full(c, depth + 1, reached)
    }

    lemma {:induction false} FullGrows(node: ProcessNode, depth: nat, mid: set<ProcessKey>, after: set<ProcessKey>)
      requires Full(node, depth, mid) && mid <= after
      ensures Full(node, depth, after)
    {
      forall c | c in node.children ensures Full(c, depth + 1, after) {
        FullGrows(c, depth + 1, mid, after);
      }
    }

    lemma AppendGrown(before: set<ProcessKey>, mid: set<ProcessKey>, after: set<ProcessKey>,
                      a: seq<ProcessInfo>, b: seq<ProcessInfo>)
      requires Grown(before, mid, a) && Grown(mid, after, b)
      ensures Grown(before, after, a + b)
    {
      assert KeysOf(a + b) == KeysOf(a) + KeysOf(b);
      forall i, j | 0 <= i < j < |a + b| ensures (a + b)[i].Key() != (a + b)[j].Key() {
        if i < |a| <= j {
          assert a[i].Key() in KeysOf(a) && b[j - |a|].Key() in KeysOf(b);
        }
      }
      forall p | p in a + b ensures Settled(p, after) {
        if p in a { assert Settled(p, mid); }
      }
    }

    lemma RootGrown(before: set<ProcessKey>, after: set<ProcessKey>, process: ProcessInfo, below: seq<ProcessInfo>)
      requires process.Key() !in before && Settled(process, after)
      requires Grown(before + {process.Key()}, after, below)
      ensures Grown(before, after, [process] + below)
    {
      var flat := [process] + below;
      assert KeysOf(flat) == {process.Key()} + KeysOf(below);
      forall i, j | 0 <= i < j < |flat| ensures flat[i].Key() != flat[j].Key() {
        assert flat[j].Key() in KeysOf(below);
      }
    }

    lemma SettledIsListed(p: ProcessInfo, reached: set<ProcessKey>)
      requires Settled(p, reached)
      ensures p in ps
    {
    }

    lemma DifferentKeys(p: ProcessInfo, q: ProcessInfo)
      requires Valid() && p in ps && q in ps && p != q
      ensures p.Key() != q.Key()
    {
      var i :| 0 <= i < |ps| && ps[i] == p;
      var j :| 0 <= j < |ps| && ps[j] == q;
      assert i < j || j < i;
    }

    lemma SameKeySameProcess(p: ProcessInfo, q: ProcessInfo)
      requires Valid() && p in ps && q in ps && p.Key() == q.Key()
      ensures p == q
    {
      var i :| 0 <= i < |ps| && ps[i] == p;
      var j :| 0 <= j < |ps| && ps[j] == q;
      assert i == j;
    }
  }

  // ---- build ----------------------------------------------------------------------------------

  /** The closure shared by the recursive calls of build: the filed children and the reached set. */
  class TreeBuilder {
    const children: map<ProcessKey, seq<ProcessInfo>>
    const maxDepth: int
    ghost const l: Listing
    var reached: set<ProcessKey>

    constructor (children: map<ProcessKey, seq<ProcessInfo>>, maxDepth: int, ghost l: Listing)
      ensures this.children == children && this.maxDepth == maxDepth && this.l == l
      ensures reached == {}
    {
      this.children, this.maxDepth, this.l := children, maxDepth, l;
      reached := {};
    }

    ghost predicate Filed() {
      && l.Valid()
      && l.maxDepth == maxDepth
      && forall k :: Get(children, k) == FiledUnder(l.ps, l.byPid, k)
    }

    ghost predicate ChildNodes(process: ProcessInfo, kids: seq<ProcessNode>) {
      forall k :: k in kids ==>
        VerifiedParent(k.process, l.byPid) == Some(process) && k.parentVerified && WellLinked(k, l.byPid)
    }

    method Build(process: ProcessInfo, verified: bool, depth: nat) returns (node: ProcessNode)
      requires Filed()
      requires process in l.ps && process.Key() !in reached
      requires depth <= Max(0, maxDepth)
      requires RootDepth(l.byPid, process) == -1 || RootDepth(l.byPid, process) == depth
      modifies this`reached
      ensures node.process == process && node.parentVerified == verified
      ensures WellLinked(node, l.byPid)
      ensures old(reached) <= reached && process.Key() in reached && l.Full(node, depth, reached)
      ensures l.Grown(old(reached), reached, Flatten(node))
      decreases Max(0, maxDepth) - depth
    {
      hide VerifiedParent, RootDepth, Flatten, FlattenAll, StableSort, WellLinked, Filed, Progress;
      hide l.Full, l.Settled, l.ChildrenReached, l.Grown;
      ghost var before := reached;
      reached := reached + {process.Key()};
      ghost var start := reached;
      var kids: seq<ProcessNode> := [];
      QueueIsChildren(process);
      var queue := if depth < maxDepth then StableSort(Get(children, process.Key()), Earlier) else [];
      StartProgress(process, depth, queue, start);
      for i := 0 to |queue|
        invariant Progress(process, depth, queue, i, kids, start, reached)
      {
        var child := queue[i];
        ghost var mid := reached;
        if child.Key() in reached {
          SkipChild(process, depth, queue, i, kids, start, reached);
        } else {
          assert child in queue;
          RootDepthStep(l.byPid, child);
          var kid := Build(child, true, depth + 1);
          AddChild(process, depth, queue, i, kids, start, mid, reached, kid);
          kids := kids + [kid];
        }
      }
      node := ProcessNode(process, kids, verified);
      FinishNode(before, depth, queue, node, reached);
    }

    /** Loop invariant of Build: the first i children of process are placed, in order. */
    ghost predicate Progress(process: ProcessInfo, depth: nat, queue: seq<ProcessInfo>, i: nat,
                             kids: seq<ProcessNode>, start: set<ProcessKey>, now: set<ProcessKey>)
    {
      && i <= |queue|
      && ChildNodes(process, kids)
      && (forall k :: k in kids ==> l.Full(k, depth + 1, now))
      && InOrder(kids)
      && (forall k :: k in kids ==> k.process in queue[..i])
      && l.Grown(start, now, FlattenAll(kids))
      && KeysOf(queue[..i]) <= now
    }

    lemma StartProgress(process: ProcessInfo, depth: nat, queue: seq<ProcessInfo>, start: set<ProcessKey>)
      ensures Progress(process, depth, queue, 0, [], start, start)
    {
    }

    lemma SkipChild(process: ProcessInfo, depth: nat, queue: seq<ProcessInfo>, i: nat,
                    kids: seq<ProcessNode>, start: set<ProcessKey>, now: set<ProcessKey>)
      requires i < |queue| && Progress(process, depth, queue, i, kids, start, now)
      requires queue[i].Key() in now
      ensures Progress(process, depth, queue, i + 1, kids, start, now)
    {
      hide WellLinked, VerifiedParent;
      hide l.Full, l.Grown;
      assert queue[..i + 1] == queue[..i] + [queue[i]];
    }

    lemma AddChild(process: ProcessInfo, depth: nat, queue: seq<ProcessInfo>, i: nat, kids: seq<ProcessNode>,
                   start: set<ProcessKey>, mid: set<ProcessKey>, now: set<ProcessKey>, kid: ProcessNode)
      requires i < |queue| && Progress(process, depth, queue, i, kids, start, mid) && mid <= now
      requires SortedBy(queue, Earlier)
      requires kid.process == queue[i] && queue[i].Key() in now && ChildNodes(process, [kid])
      requires l.Full(kid, depth + 1, now) && l.Grown(mid, now, Flatten(kid))
      ensures Progress(process, depth, queue, i + 1, kids + [kid], start, now)
    {
      hide WellLinked, VerifiedParent, Flatten, FlattenAll, InOrder;
      hide l.Full, l.Grown;
      assert queue[..i + 1] == queue[..i] + [queue[i]];
      FlattenAppend(kids, kid);
      forall k | k in kids ensures l.Full(k, depth + 1, now) { l.FullGrows(k, depth + 1, mid, now); }
      l.AppendGrown(start, mid, now, FlattenAll(kids), Flatten(kid));
      AppendInOrder(queue, i, kids, kid);
    }

    lemma FinishNode(before: set<ProcessKey>, depth: nat, queue: seq<ProcessInfo>, node: ProcessNode,
                     now: set<ProcessKey>)
      requires depth < l.maxDepth ==>
                 forall c :: c in queue <==> c in l.ps && VerifiedParent(c, l.byPid) == Some(node.process)
      requires Progress(node.process, depth, queue, |queue|, node.children, before + {node.process.Key()}, now)
      requires node.process.Key() !in before && l.Shown(node.process)
      requires RootDepth(l.byPid, node.process) == -1 || RootDepth(l.byPid, node.process) == depth
      ensures WellLinked(node, l.byPid) && l.Full(node, depth, now)
      ensures l.Grown(before, now, Flatten(node)) && before + {node.process.Key()} <= now
    {
      hide VerifiedParent;
      if depth < l.maxDepth {
        assert queue[..|queue|] == queue;
        forall c | c in l.ps && VerifiedParent(c, l.byPid) == Some(node.process) ensures c.Key() in now {
          assert c in queue;
          assert c.Key() in KeysOf(queue);
        }
      }
      l.RootGrown(before, now, node.process, FlattenAll(node.children));
    }

    lemma QueueIsChildren(process: ProcessInfo)
      requires Filed() && process in l.ps
      ensures l.maxDepth == maxDepth
      ensures var queue := StableSort(Get(children, process.Key()), Earlier);
              && SortedBy(queue, Earlier)
              && forall c :: c in queue <==> c in l.ps && VerifiedParent(c, l.byPid) == Some(process)
    {
      hide VerifiedParent;
      var filed := Get(children, process.Key());
      EarlierIsTotal();
      StableSortSorted(filed, Earlier);
      SortMembers(filed, Earlier);
      FiledAreChildren(process);
    }

    lemma FiledAreChildren(process: ProcessInfo)
      requires Filed() && process in l.ps
      ensures forall c :: c in Get(children, process.Key()) <==>
                c in l.ps && VerifiedParent(c, l.byPid) == Some(process)
    {
      hide VerifiedParent;
      var filed := Get(children, process.Key());
      assert filed == FiledUnder(l.ps, l.byPid, process.Key());
      forall c | c in filed ensures VerifiedParent(c, l.byPid) == Some(process) {
        ParentIsIndexed(c, l.byPid);
        l.SameKeySameProcess(VerifiedParent(c, l.byPid).value, process);
      }
    }

    lemma AppendInOrder(queue: seq<ProcessInfo>, i: nat, kids: seq<ProcessNode>, kid: ProcessNode)
      requires SortedBy(queue, Earlier) && i < |queue| && kid.process == queue[i]
      requires InOrder(kids)
      requires forall k :: k in kids ==> k.process in queue[..i]
      ensures InOrder(kids + [kid])
      ensures forall k :: k in kids + [kid] ==> k.process in queue[..i + 1]
    {
      assert queue[..i + 1] == queue[..i] + [queue[i]];
      forall j | 0 <= j < |kids| ensures Earlier(kids[j].process, queue[i]) {
        assert kids[j] in kids;
      }
    }
  }

  // ---- build_process_tree ---------------------------------------------------------------------

  predicate EarlierRoot(a: (ProcessInfo, bool), b: (ProcessInfo, bool)) {
    Earlier(a.0, b.0)
  }

  lemma EarlierRootIsTotal()
    ensures TotalPreorder(EarlierRoot)
  {
  }

  /** The processes without a verified parent, each with the flag "names no parent at all". */
  function RootsOf(ps: seq<ProcessInfo>, byPid: map<nat, ProcessInfo>): (r: seq<(ProcessInfo, bool)>)
    ensures forall x :: x in r ==> x.0 in ps && VerifiedParent(x.0, byPid).None? && x.1 == NamesNoParent(x.0)
    ensures forall p :: p in ps && VerifiedParent(p, byPid).None? ==> (p, NamesNoParent(p)) in r
  {
    if ps == [] then []
    else
      var p := Last(ps);
      RootsOf(Front(ps), byPid) + if VerifiedParent(p, byPid).None? then [(p, NamesNoParent(p))] else []
  }

  lemma {:induction false} RootsDistinct(ps: seq<ProcessInfo>, byPid: map<nat, ProcessInfo>)
    requires DistinctKeys(ps)
    ensures NoDuplicates(RootsOf(ps, byPid))
  {
    if ps == [] {
    } else {
      RootsDistinct(Front(ps), byPid);
      forall x | x in RootsOf(Front(ps), byPid) ensures x.0 != Last(ps) {
        assert x.0 in Front(ps);
      }
    }
  }

  /** Inside a tree only the root can lack a verified parent. */
  lemma {:induction false} OnlyRootIsParentless(node: ProcessNode, byPid: map<nat, ProcessInfo>, p: ProcessInfo)
    requires WellLinked(node, byPid) && p in Flatten(node)
    ensures p == node.process || VerifiedParent(p, byPid).Some?
    decreases node, 1
  {
    hide VerifiedParent;
    if p != node.process {
      var t := ParentlessIsARoot(node.children, byPid, p);
      assert VerifiedParent(t.process, byPid) == Some(node.process);
    }
  }

  lemma {:induction false} ParentlessIsARoot(nodes: seq<ProcessNode>, byPid: map<nat, ProcessInfo>, p: ProcessInfo)
    returns (t: ProcessNode)
    requires forall c :: c in nodes ==> WellLinked(c, byPid)
    requires p in FlattenAll(nodes)
    ensures t in nodes && (t.process == p || VerifiedParent(p, byPid).Some?)
    decreases nodes, 0
  {
    hide VerifiedParent, WellLinked;
    if p in Flatten(nodes[0]) {
      t := nodes[0];
      OnlyRootIsParentless(t, byPid, p);
    } else {
      t := ParentlessIsARoot(nodes[1..], byPid, p);
    }
  }

  lemma {:induction false} RootsArePlaced(nodes: seq<ProcessNode>, t: ProcessNode)
    requires t in nodes
    ensures t.process in FlattenAll(nodes)
  {
    if t != nodes[0] {
      RootsArePlaced(nodes[1..], t);
    } else {
      assert Flatten(t)[0] == t.process;
    }
  }

  /** Everything a partly built forest keeps, whichever pass is adding to it. */
  ghost predicate Placed(l: Listing, reached: set<ProcessKey>, forest: seq<ProcessNode>) {
    && l.Grown({}, reached, FlattenAll(forest))
    && (forall t :: t in forest ==> WellLinked(t, l.byPid))
    && NoneLeftOut(l, forest)
  }

  /** Above the cap, the children of a placed process are in its own tree or in an earlier one. */
  ghost predicate NoneLeftOut(l: Listing, forest: seq<ProcessNode>) {
    forall j :: 0 <= j < |forest| ==> l.Full(forest[j], 0, KeysOf(FlattenAll(forest[..j + 1])))
  }

  lemma PlaceTree(l: Listing, mid: set<ProcessKey>, now: set<ProcessKey>, forest: seq<ProcessNode>, node: ProcessNode)
    requires Placed(l, mid, forest)
    requires WellLinked(node, l.byPid) && l.Full(node, 0, now) && l.Grown(mid, now, Flatten(node))
    ensures Placed(l, now, forest + [node])
  {
    hide WellLinked, Flatten, FlattenAll;
    hide l.Full, l.Settled;
    FlattenAppend(forest, node);
    l.AppendGrown({}, mid, now, FlattenAll(forest), Flatten(node));
    var all := forest + [node];
    assert KeysOf(FlattenAll(all)) == now;
    forall j | 0 <= j < |all| ensures l.Full(all[j], 0, KeysOf(FlattenAll(all[..j + 1]))) {
      if j < |forest| {
        assert all[..j + 1] == forest[..j + 1];
      } else {
        assert all[..j + 1] == all;
      }
    }
  }

  /** The sorted roots that the first pass builds. */
  ghost predicate RootQueue(l: Listing, queue: seq<(ProcessInfo, bool)>) {
    && NoDuplicates(queue)
    && SortedBy(queue, EarlierRoot)
    && (forall x :: x in queue ==> x.0 in l.ps && VerifiedParent(x.0, l.byPid).None? && x.1 == NamesNoParent(x.0))
    && (forall p :: p in l.ps && VerifiedParent(p, l.byPid).None? ==> (p, NamesNoParent(p)) in queue)
  }

  lemma SortedRootsAreQueue(l: Listing)
    requires l.Valid()
    ensures RootQueue(l, StableSort(RootsOf(l.ps, l.byPid), EarlierRoot))
  {
    hide VerifiedParent, StableSort;
    var roots := RootsOf(l.ps, l.byPid);
    RootsDistinct(l.ps, l.byPid);
    EarlierRootIsTotal();
    StableSortSorted(roots, EarlierRoot);
    SortMembers(roots, EarlierRoot);
    SortDistinct(roots, EarlierRoot);
  }

  /** First-pass state: the first i roots are built, in order, with their flags. */
  ghost predicate FirstPass(queue: seq<(ProcessInfo, bool)>, i: nat, forest: seq<ProcessNode>) {
    && |forest| == i <= |queue|
    && forall j :: 0 <= j < i ==> forest[j].process == queue[j].0 && forest[j].parentVerified == queue[j].1
  }

  lemma RootIsNew(l: Listing, reached: set<ProcessKey>, queue: seq<(ProcessInfo, bool)>, i: nat,
                  forest: seq<ProcessNode>)
    requires l.Valid() && RootQueue(l, queue)
    requires Placed(l, reached, forest) && FirstPass(queue, i, forest) && i < |queue|
    ensures queue[i].0.Key() !in reached
    ensures RootDepth(l.byPid, queue[i].0) == 0
  {
    hide VerifiedParent, WellLinked, Flatten, FlattenAll, RootDepth;
    hide l.Full, l.Settled;
    var p := queue[i].0;
    assert queue[i] in queue;
    RootDepthStep(l.byPid, p);
    forall q | q in FlattenAll(forest) ensures q.Key() != p.Key() {
      var t := ParentlessIsARoot(forest, l.byPid, q);
      var j :| 0 <= j < i && forest[j] == t;
      assert queue[j] in queue && queue[j] != queue[i];
      l.SettledIsListed(q, reached);
      l.DifferentKeys(p, q);
    }
  }

  /** After the first pass every rooted process within the cap is in the forest. */
  lemma {:induction false} RootedIsPlaced(l: Listing, reached: set<ProcessKey>, flat: seq<ProcessInfo>, p: ProcessInfo)
    requires l.Valid() && p in l.ps
    requires l.Grown({}, reached, flat)
    requires forall r :: r in l.ps && VerifiedParent(r, l.byPid).None? ==> r in flat
    requires 0 <= RootDepth(l.byPid, p) <= Max(0, l.maxDepth)
    ensures p in flat
    decreases RootDepth(l.byPid, p)
  {
    hide VerifiedParent, RootDepth;
    RootDepthStep(l.byPid, p);
    if VerifiedParent(p, l.byPid).Some? {
      var q := VerifiedParent(p, l.byPid).value;
      ParentIsIndexed(p, l.byPid);
      RootedIsPlaced(l, reached, flat, q);
      assert l.Settled(q, reached);
      var p' :| p' in flat && p'.Key() == p.Key();
      assert l.Settled(p', reached);
      l.SameKeySameProcess(p, p');
    }
  }

  lemma FirstPassDone(l: Listing, reached: set<ProcessKey>, queue: seq<(ProcessInfo, bool)>, forest: seq<ProcessNode>)
    requires l.Valid() && RootQueue(l, queue)
    requires Placed(l, reached, forest) && FirstPass(queue, |queue|, forest)
    ensures GenuineRoots(l.byPid, forest)
    ensures forall p :: p in l.ps && 0 <= RootDepth(l.byPid, p) <= Max(0, l.maxDepth) ==> p.Key() in reached
  {
    hide VerifiedParent, RootDepth, WellLinked, Flatten, FlattenAll;
    hide l.Full, l.Settled;
    forall i, j | 0 <= i < j < |forest| ensures Earlier(forest[i].process, forest[j].process) {
      assert EarlierRoot(queue[i], queue[j]);
    }
    forall t | t in forest
      ensures VerifiedParent(t.process, l.byPid).None? && t.parentVerified == NamesNoParent(t.process)
    {
      var j :| 0 <= j < |forest| && forest[j] == t;
      assert queue[j] in queue;
    }
    forall r | r in l.ps && VerifiedParent(r, l.byPid).None? ensures r in FlattenAll(forest) {
      var j :| 0 <= j < |queue| && queue[j] == (r, NamesNoParent(r));
      RootsArePlaced(forest, forest[j]);
    }
    forall p | p in l.ps && 0 <= RootDepth(l.byPid, p) <= Max(0, l.maxDepth) ensures p.Key() in reached {
      RootedIsPlaced(l, reached, FlattenAll(forest), p);
    }
  }

  /** Genuine roots, in creation order; the flag says whether the process names no parent at all. */
  ghost predicate GenuineRoots(byPid: map<nat, ProcessInfo>, roots: seq<ProcessNode>) {
    && InOrder(roots)
    && forall t :: t in roots ==>
         VerifiedParent(t.process, byPid).None? && t.parentVerified == NamesNoParent(t.process)
  }

  /** Roots surfaced from cycles, in creation order and marked unverified. */
  ghost predicate SurfacedRoots(byPid: map<nat, ProcessInfo>, surfaced: seq<ProcessNode>) {
    && InOrder(surfaced)
    && forall t :: t in surfaced ==> RootDepth(byPid, t.process) == -1 && !t.parentVerified
  }

  /** Second-pass state: every rooted process and the first i cyclic ones have been dealt with. */
  ghost predicate SecondPass(l: Listing, reached: set<ProcessKey>, all: seq<ProcessInfo>, i: nat,
                             surfaced: seq<ProcessNode>) {
    && i <= |all|
    && SurfacedRoots(l.byPid, surfaced)
    && (forall t :: t in surfaced ==> t.process in all[..i])
    && (forall p :: p in l.ps && 0 <= RootDepth(l.byPid, p) <= Max(0, l.maxDepth) ==> p.Key() in reached)
    && (forall p :: p in all[..i] && RootDepth(l.byPid, p) == -1 ==> p.Key() in reached)
  }

  lemma SurfaceStep(l: Listing, mid: set<ProcessKey>, now: set<ProcessKey>, all: seq<ProcessInfo>, i: nat,
                    m: nat, forest: seq<ProcessNode>, more: seq<ProcessNode>)
    requires m <= |forest| && SecondPass(l, mid, all, i, forest[m..])
    requires i < |all| && SortedBy(all, Earlier) && mid <= now
    requires all[i].Key() in now || RootDepth(l.byPid, all[i]) >= 0
    requires more == [] || (|more| == 1 && more[0].process == all[i] && !more[0].parentVerified
                            && RootDepth(l.byPid, all[i]) == -1)
    ensures SecondPass(l, now, all, i + 1, (forest + more)[m..])
    ensures (forest + more)[..m] == forest[..m]
    ensures more == [] ==> forest + more == forest
  {
    hide RootDepth;
    var surfaced := forest[m..];
    assert (forest + more)[m..] == surfaced + more;
    assert all[..i + 1] == all[..i] + [all[i]];
    forall j | 0 <= j < |surfaced| ensures Earlier(surfaced[j].process, all[i]) {
      assert surfaced[j] in surfaced;
    }
  }

  /**
   * What the forest promises: every process once, true edges, siblings and roots in creation order,
   * and nothing hidden except what lies beyond the depth cap below a genuine root.
   */
  ghost predicate IsForest(ps: seq<ProcessInfo>, maxDepth: int, forest: seq<ProcessNode>) {
    var l := Listing(ps, ByPid(ps), maxDepth);
    && DistinctKeys(FlattenAll(forest))
    && (forall p :: p in FlattenAll(forest) <==> l.Shown(p))
    && (forall t :: t in forest ==> WellLinked(t, l.byPid))
    && NoneLeftOut(l, forest)
    && exists m :: 0 <= m <= |forest| && GenuineRoots(l.byPid, forest[..m]) && SurfacedRoots(l.byPid, forest[m..])
  }

  lemma ForestDone(l: Listing, reached: set<ProcessKey>, all: seq<ProcessInfo>, forest: seq<ProcessNode>, m: nat)
    requires l.Valid() && Placed(l, reached, forest) && m <= |forest|
    requires GenuineRoots(l.byPid, forest[..m])
    requires SecondPass(l, reached, all, |all|, forest[m..])
    requires forall p :: p in all <==> p in l.ps
    ensures IsForest(l.ps, l.maxDepth, forest)
  {
    hide VerifiedParent, RootDepth, WellLinked, Flatten, FlattenAll;
    hide l.Full;
    assert all[..|all|] == all;
    forall p | p in FlattenAll(forest) ensures l.Shown(p) {
      assert l.Settled(p, reached);
    }
    forall p | l.Shown(p) ensures p in FlattenAll(forest) {
      var q :| q in FlattenAll(forest) && q.Key() == p.Key();
      assert l.Settled(q, reached);
      l.SameKeySameProcess(p, q);
    }
    assert l == Listing(l.ps, ByPid(l.ps), l.maxDepth);
  }

  lemma NothingFiled(byPid: map<nat, ProcessInfo>)
    ensures forall k :: FiledUnder([], byPid, k) == []
  {
  }

  lemma FiledStep(ps: seq<ProcessInfo>, i: nat, byPid: map<nat, ProcessInfo>)
    requires i < |ps|
    ensures forall k :: FiledUnder(ps[..i + 1], byPid, k) ==
              FiledUnder(ps[..i], byPid, k)
              + match VerifiedParent(ps[i], byPid)
                case None => []
                case Some(q) => if q.Key() == k then [ps[i]] else []
  {
    hide VerifiedParent;
    assert Front(ps[..i + 1]) == ps[..i];
  }

  ghost predicate FiledUpTo(ps: seq<ProcessInfo>, i: nat, byPid: map<nat, ProcessInfo>,
                            children: map<ProcessKey, seq<ProcessInfo>>, roots: seq<(ProcessInfo, bool)>)
  {
    && i <= |ps|
    && (forall k :: Get(children, k) == FiledUnder(ps[..i], byPid, k))
    && roots == RootsOf(ps[..i], byPid)
  }

  lemma FileNothing(ps: seq<ProcessInfo>, byPid: map<nat, ProcessInfo>)
    ensures FiledUpTo(ps, 0, byPid, map[], [])
  {
    hide VerifiedParent;
    NothingFiled(byPid);
    assert ps[..0] == [];
  }

  lemma FileRoot(ps: seq<ProcessInfo>, i: nat, byPid: map<nat, ProcessInfo>,
                 children: map<ProcessKey, seq<ProcessInfo>>, roots: seq<(ProcessInfo, bool)>)
    requires i < |ps| && FiledUpTo(ps, i, byPid, children, roots) && VerifiedParent(ps[i], byPid).None?
    ensures FiledUpTo(ps, i + 1, byPid, children, roots + [(ps[i], NamesNoParent(ps[i]))])
  {
    hide VerifiedParent, FiledUnder;
    FiledStep(ps, i, byPid);
    assert Front(ps[..i + 1]) == ps[..i];
  }

  lemma FileChild(ps: seq<ProcessInfo>, i: nat, byPid: map<nat, ProcessInfo>,
                  children: map<ProcessKey, seq<ProcessInfo>>, roots: seq<(ProcessInfo, bool)>, parent: ProcessInfo)
    requires i < |ps| && FiledUpTo(ps, i, byPid, children, roots) && VerifiedParent(ps[i], byPid) == Some(parent)
    ensures FiledUpTo(ps, i + 1, byPid, children[parent.Key() := Get(children, parent.Key()) + [ps[i]]], roots)
  {
    hide VerifiedParent, FiledUnder;
    FiledStep(ps, i, byPid);
    assert Front(ps[..i + 1]) == ps[..i];
    var after := children[parent.Key() := Get(children, parent.Key()) + [ps[i]]];
    forall k ensures Get(after, k) == FiledUnder(ps[..i + 1], byPid, k) {
      assert Get(children, k) + [] == Get(children, k);
    }
    assert roots + [] == roots;
  }

  method FileChildren(processes: seq<ProcessInfo>)
    returns (byPid: map<nat, ProcessInfo>, children: map<ProcessKey, seq<ProcessInfo>>, roots: seq<(ProcessInfo, bool)>)
    ensures byPid == ByPid(processes)
    ensures forall k :: Get(children, k) == FiledUnder(processes, byPid, k)
    ensures roots == RootsOf(processes, byPid)
  {
    hide VerifiedParent, FiledUnder, RootsOf, ByPid;
    byPid := ByPid(processes);
    children := map[];
    roots := [];
    FileNothing(processes, byPid);
    for i := 0 to |processes|
      invariant FiledUpTo(processes, i, byPid, children, roots)
    {
      var process := processes[i];
      var parent := VerifiedParent(process, byPid);
      if parent.None? {
        FileRoot(processes, i, byPid, children, roots);
        roots := roots + [(process, NamesNoParent(process))];
      } else {
        FileChild(processes, i, byPid, children, roots, parent.value);
        var key := parent.value.Key();
        children := children[key := Get(children, key) + [process]];
      }
    }
    assert processes[..|processes|] == processes;
  }

  method BuildProcessTree(processes: seq<ProcessInfo>, maxDepth: int) returns (forest: seq<ProcessNode>)
    requires DistinctKeys(processes)
    ensures IsForest(processes, maxDepth, forest)
  {
    hide VerifiedParent, RootDepth, WellLinked, StableSort, ByPid, RootsOf, IsForest, RootQueue;
    hide Placed, FirstPass, SecondPass, GenuineRoots, FlattenAll, Flatten, InOrder, FiledUnder, TreeBuilder.Filed;
    hide Listing.Grown, Listing.Full, Listing.Shown, Listing.Settled, Listing.ChildrenReached, Earlier, SortedBy;
    hide KeysOf, NamesNoParent;
    var byPid, children, roots := FileChildren(processes);
    ghost var l := Listing(processes, byPid, maxDepth);
    var builder := new TreeBuilder(children, maxDepth, l);
    BuilderIsFiled(builder);
    var queue := StableSort(roots, EarlierRoot);
    SortedRootsAreQueue(l);
    forest := [];
    StartPlaced(l, queue);
    for i := 0 to |queue|
      invariant Placed(l, builder.reached, forest) && FirstPass(queue, i, forest)
    {
      RootIsNew(l, builder.reached, queue, i, forest);
      QueueMember(l, queue, i);
      ghost var mid := builder.reached;
      var node := builder.Build(queue[i].0, queue[i].1, 0);
      PlaceTree(l, mid, builder.reached, forest, node);
      NextRoot(queue, i, forest, node);
      forest := forest + [node];
    }
    ghost var m := |forest|;
    FirstPassDone(l, builder.reached, queue, forest);
    var all := StableSort(processes, Earlier);
    StartSurfacing(l, builder.reached, all);
    assert forest[..m] == forest && forest[m..] == [];
    for i := 0 to |all|
      invariant Placed(l, builder.reached, forest)
      invariant m <= |forest| && GenuineRoots(byPid, forest[..m])
      invariant SecondPass(l, builder.reached, all, i, forest[m..])
    {
      var process := all[i];
      assert process in processes;
      if process.Key() in builder.reached {
        SurfaceStep(l, builder.reached, builder.reached, all, i, m, forest, []);
      } else {
        SoleInstance(l, process);
        var beyond := BeyondDepth(process, byPid, maxDepth);
        UnreachedOutsideCap(l, builder.reached, all, i, forest[m..], process);
        ghost var mid := builder.reached;
        var surfaced: seq<ProcessNode> := [];
        if !beyond {
          var node := builder.Build(process, false, 0);
          PlaceTree(l, mid, builder.reached, forest, node);
          surfaced := [node];
        }
        SurfaceStep(l, mid, builder.reached, all, i, m, forest, surfaced);
        forest := forest + surfaced;
      }
    }
    ForestDone(l, builder.reached, all, forest, m);
  }

  lemma BuilderIsFiled(builder: TreeBuilder)
    requires builder.l.Valid() && builder.l.maxDepth == builder.maxDepth
    requires forall k :: Get(builder.children, k) == FiledUnder(builder.l.ps, builder.l.byPid, k)
    ensures builder.Filed()
  {
  }

  lemma StartPlaced(l: Listing, queue: seq<(ProcessInfo, bool)>)
    ensures Placed(l, {}, []) && FirstPass(queue, 0, [])
  {
  }

  lemma QueueMember(l: Listing, queue: seq<(ProcessInfo, bool)>, i: nat)
    requires RootQueue(l, queue) && i < |queue|
    ensures queue[i].0 in l.ps
  {
    assert queue[i] in queue;
  }

  lemma NextRoot(queue: seq<(ProcessInfo, bool)>, i: nat, forest: seq<ProcessNode>, node: ProcessNode)
    requires FirstPass(queue, i, forest) && i < |queue|
    requires node.process == queue[i].0 && node.parentVerified == queue[i].1
    ensures FirstPass(queue, i + 1, forest + [node])
  {
  }

  lemma StartSurfacing(l: Listing, reached: set<ProcessKey>, all: seq<ProcessInfo>)
    requires all == StableSort(l.ps, Earlier)
    requires forall p :: p in l.ps && 0 <= RootDepth(l.byPid, p) <= Max(0, l.maxDepth) ==> p.Key() in reached
    ensures SortedBy(all, Earlier) && forall p :: p in all <==> p in l.ps
    ensures SecondPass(l, reached, all, 0, [])
  {
    hide VerifiedParent, RootDepth, StableSort;
    EarlierIsTotal();
    StableSortSorted(l.ps, Earlier);
    SortMembers(l.ps, Earlier);
  }

  lemma SoleInstance(l: Listing, process: ProcessInfo)
    requires l.Valid() && process in l.ps
    ensures IsIndex(l.byPid)
    ensures forall p :: p in l.byPid.Values && p.Key() == process.Key() ==> p == process
  {
    forall p | p in l.byPid.Values && p.Key() == process.Key() ensures p == process {
      l.SameKeySameProcess(p, process);
    }
  }

  lemma UnreachedOutsideCap(l: Listing, reached: set<ProcessKey>, all: seq<ProcessInfo>, i: nat,
                            surfaced: seq<ProcessNode>, process: ProcessInfo)
    requires SecondPass(l, reached, all, i, surfaced) && process in l.ps && process.Key() !in reached
    ensures RootDepth(l.byPid, process) == -1 || RootDepth(l.byPid, process) > Max(0, l.maxDepth)
  {
    hide RootDepth;
  }

  /** The headline: how often each listed process is shown, counted with multiplicity. */
  lemma ShownExactlyOnce(ps: seq<ProcessInfo>, maxDepth: int, forest: seq<ProcessNode>, p: ProcessInfo)
    requires DistinctKeys(ps) && IsForest(ps, maxDepth, forest) && p in ps
    ensures multiset(FlattenAll(forest))[p] == if RootDepth(ByPid(ps), p) > Max(0, maxDepth) then 0 else 1
  {
    hide VerifiedParent, RootDepth, WellLinked, Flatten, FlattenAll;
    assert NoDuplicates(FlattenAll(forest));
    DistinctMultiset(FlattenAll(forest), p);
    var l := Listing(ps, ByPid(ps), maxDepth);
    assert p in FlattenAll(forest) <==> l.Shown(p);
  }

  // ---- where a process hangs ----------------------------------------------------------------------

  /** Somewhere in these trees child stands directly below parent, marked as verified. */
  ghost predicate HangsUnder(nodes: seq<ProcessNode>, parent: ProcessInfo, child: ProcessInfo)
    decreases nodes
  {
    exists n :: n in nodes && (HasChild(n, parent, child) || HangsUnder(n.children, parent, child))
  }

  ghost predicate HasChild(node: ProcessNode, parent: ProcessInfo, child: ProcessInfo) {
    node.process == parent && exists c :: c in node.children && c.process == child && c.parentVerified
  }

  /** Whoever is shown stands at the top or directly below its verified parent. */
  lemma {:induction false} ShownHangs(nodes: seq<ProcessNode>, byPid: map<nat, ProcessInfo>, p: ProcessInfo)
    requires forall t :: t in nodes ==> WellLinked(t, byPid)
    requires p in FlattenAll(nodes)
    ensures || (exists t :: t in nodes && t.process == p)
            || (VerifiedParent(p, byPid).Some? && HangsUnder(nodes, VerifiedParent(p, byPid).value, p))
    decreases nodes
  {
    hide VerifiedParent;
    var n := nodes[0];
    if p in FlattenAll(nodes[1..]) {
      ShownHangs(nodes[1..], byPid, p);
      if t :| t in nodes[1..] && t.process == p {
        assert t in nodes;
      } else {
        HangsInTail(nodes, VerifiedParent(p, byPid).value, p);
      }
    } else if p != n.process {
      assert n in nodes && WellLinked(n, byPid);
      ShownHangs(n.children, byPid, p);
      if c :| c in n.children && c.process == p {
        assert HasChild(n, n.process, p);
      }
    } else {
      assert n in nodes;
    }
  }

  lemma HangsInTail(nodes: seq<ProcessNode>, parent: ProcessInfo, child: ProcessInfo)
    requires nodes != [] && HangsUnder(nodes[1..], parent, child)
    ensures HangsUnder(nodes, parent, child)
  {
    var n :| n in nodes[1..] && (HasChild(n, parent, child) || HangsUnder(n.children, parent, child));
    assert n in nodes;
  }

  lemma {:induction false} HangingIsVerified(nodes: seq<ProcessNode>, byPid: map<nat, ProcessInfo>,
                                             parent: ProcessInfo, child: ProcessInfo)
    requires forall t :: t in nodes ==> WellLinked(t, byPid)
    requires HangsUnder(nodes, parent, child)
    ensures VerifiedParent(child, byPid) == Some(parent)
    decreases nodes
  {
    hide VerifiedParent;
    var n :| n in nodes && (HasChild(n, parent, child) || HangsUnder(n.children, parent, child));
    assert WellLinked(n, byPid);
    if !HasChild(n, parent, child) { HangingIsVerified(n.children, byPid, parent, child); }
  }

  /**
   * A process stands below another only if that one is the last process listed with the PID it names and is
   * not known to be younger. If it is shown and its ancestry runs into no cycle, it does stand there; it is at
   * the top exactly when there is nobody like that, unverified exactly when it does name another PID.
   */
  lemma HangsUnderItsNamedParent(ps: seq<ProcessInfo>, maxDepth: int, forest: seq<ProcessNode>, c: ProcessInfo,
                                 q: ProcessInfo)
    requires DistinctKeys(ps) && IsForest(ps, maxDepth, forest)
    ensures HangsUnder(forest, q, c) ==> IsNamedParent(ps, c, q)
    ensures c in FlattenAll(forest) && RootDepth(ByPid(ps), c) >= 0 && IsNamedParent(ps, c, q) ==>
              HangsUnder(forest, q, c)
    ensures forall t :: t in forest && RootDepth(ByPid(ps), t.process) >= 0 ==>
              && !IsNamedParent(ps, t.process, q)
              && t.parentVerified == (t.process.ppid in {None, Some(0), Some(t.process.pid)})
    ensures forall t :: t in forest && RootDepth(ByPid(ps), t.process) < 0 ==> !t.parentVerified
  {
    hide VerifiedParent, RootDepth, WellLinked, FlattenAll, IsNamedParent, HangsUnder, ByPid;
    VerifiedParentExactlyWhen(ps, c, q);
    if HangsUnder(forest, q, c) { HangingIsVerified(forest, ByPid(ps), q, c); }
    forall t | t in forest
      ensures RootDepth(ByPid(ps), t.process) >= 0 ==>
                && !IsNamedParent(ps, t.process, q)
                && t.parentVerified == (t.process.ppid in {None, Some(0), Some(t.process.pid)})
      ensures RootDepth(ByPid(ps), t.process) < 0 ==> !t.parentVerified
    {
      VerifiedParentExactlyWhen(ps, t.process, q);
      TopIsGenuineOrSurfaced(ps, maxDepth, forest, t);
    }
    if c in FlattenAll(forest) && RootDepth(ByPid(ps), c) >= 0 && IsNamedParent(ps, c, q) {
      ShownHangs(forest, ByPid(ps), c);
    }
  }

  lemma TopIsGenuineOrSurfaced(ps: seq<ProcessInfo>, maxDepth: int, forest: seq<ProcessNode>, t: ProcessNode)
    requires IsForest(ps, maxDepth, forest) && t in forest
    ensures RootDepth(ByPid(ps), t.process) >= 0 ==>
              VerifiedParent(t.process, ByPid(ps)).None? && t.parentVerified == NamesNoParent(t.process)
    ensures RootDepth(ByPid(ps), t.process) < 0 ==> !t.parentVerified
  {
    hide VerifiedParent, RootDepth, WellLinked, FlattenAll, ByPid, NoneLeftOut;
    var byPid := ByPid(ps);
    var m :| 0 <= m <= |forest| && GenuineRoots(byPid, forest[..m]) && SurfacedRoots(byPid, forest[m..]);
    RootDepthStep(byPid, t.process);
    assert forest == forest[..m] + forest[m..];
    assert t in forest[..m] || t in forest[m..];
  }

  /** A process of unknown age that names no parent, as System does, is shown with every child that names it. */
  lemma SystemParentsItsChildren(ps: seq<ProcessInfo>, maxDepth: int, forest: seq<ProcessNode>, system: ProcessInfo,
                                 child: ProcessInfo)
    requires DistinctKeys(ps) && IsForest(ps, maxDepth, forest) && maxDepth >= 1
    requires LastWithPid(ps, system) && system.createTime == None && system.ppid in {None, Some(0)} && system.pid != 0
    requires child in ps && child.ppid == Some(system.pid) && child.pid != system.pid
    ensures HangsUnder(forest, system, child)
  {
    hide VerifiedParent, RootDepth, WellLinked, FlattenAll, IsForest, HangsUnder, ByPid;
    var byPid := ByPid(ps);
    VerifiedParentExactlyWhen(ps, child, system);
    NobodyAbove(ps, system);
    RootDepthStep(byPid, child);
    RootDepthStep(byPid, system);
    ShownExactlyOnce(ps, maxDepth, forest, child);
    assert child in multiset(FlattenAll(forest));
    HangsUnderItsNamedParent(ps, maxDepth, forest, child, system);
  }

  lemma NobodyAbove(ps: seq<ProcessInfo>, p: ProcessInfo)
    requires p.ppid in {None, Some(0)}
    ensures VerifiedParent(p, ByPid(ps)).None?
  {
  }
}
