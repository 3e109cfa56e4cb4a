/**
 * The detection engine, src/threatlens/detection/engine.py. A rule is seen through what each evaluation
 * gives back: an exception, nothing, or a finding. A run is the sequence of those turns, in the order the
 * engine takes them: event by event, and for one event rule by rule along its route.
 */
module DetectionEngine {
  import opened Collections
  import opened ProcessModels
  import opened LruCache

  type RuleId = nat
  type EventId = nat

  /** What a finding is about: its process, else its executable, else "-". */
  datatype About = Process(key: ProcessKey) | Path(path: string)

  datatype FindingKey = FindingKey(rule: RuleId, about: About, dedup: string)

  datatype Finding = Finding(
    rule: RuleId,
    processKey: Option<ProcessKey>,
    exe: Option<string>,
    dedup: string,
    eventIds: seq<EventId>)
  {
    function Key(): FindingKey {
      FindingKey(rule,
                 if processKey.Some? then Process(processKey.value)
                 else if exe.Some? && exe.value != "" then Path(exe.value)
                 else Path("-"),
                 dedup)
    }
  }

  datatype Outcome = Raised | Quiet | Found(finding: Finding)

  /** Why a finding is held back: exact process instances, ignored executables, the user's allowlist. */
  datatype Filters = Filters(excluded: set<ProcessKey>, ignored: set<string>, allows: (ProcessKey, RuleId) -> bool)

  datatype Turn = Turn(rule: RuleId, event: EventId, outcome: Outcome, filters: Filters)

  datatype Verdict =
    | Skipped
    | Failed
    | Nothing
    | Excluded
    | Ignored
    | Allowlisted
    | Duplicate
    | Reported(finding: Finding)

  datatype Config = Config(dedupCapacity: nat, recentCapacity: nat, maxFailures: int)

  datatype Engine = Engine(
    seen: seq<FindingKey>,
    recent: seq<Finding>,
    failures: map<RuleId, nat>,
    errors: map<RuleId, nat>,
    disabled: set<RuleId>,
    evaluations: nat,
    detections: nat,
    duplicates: nat,
    ignored: nat,
    allowlisted: nat)

  function Initial(): Engine {
    Engine([], [], map[], map[], {}, 0, 0, 0, 0, 0)
  }

  function Count(m: map<RuleId, nat>, r: RuleId): nat {
    if r in m then m[r] else 0
  }

  /** The verdict on a finding, before looking for duplicates. */
  function Filtered(f: Finding, filters: Filters): (v: Option<Verdict>)
    ensures v.Some? ==> v.value in {Excluded, Ignored, Allowlisted}
  {
    if f.processKey.Some? && f.processKey.value in filters.excluded then Some(Excluded)
    else if f.exe.Some? && f.exe.value in filters.ignored then Some(Ignored)
    else if f.processKey.Some? && filters.allows(f.processKey.value, f.rule) then Some(Allowlisted)
    else None
  }

  function VerdictOn(s: Engine, t: Turn): Verdict {
    if t.rule in s.disabled then Skipped
    else match t.outcome
      case Raised => Failed
      case Quiet => Nothing
      case Found(f) =>
        match Filtered(f, t.filters)
        case Some(v) => v
        case None => if f.Key() in s.seen then Duplicate else Reported(WithEvent(f, t.event))
  }

  function WithEvent(f: Finding, e: EventId): Finding {
    if e in f.eventIds then f else f.(eventIds := f.eventIds + [e])
  }

  function Evaluated(cfg: Config, s: Engine, t: Turn): Engine {
    var v := VerdictOn(s, t);
    if v.Skipped? then s
    else if v.Failed? then FailureRecorded(cfg, s, t.rule)
    else
      Engine(if v.Duplicate? || v.Reported? then Touched(cfg, s.seen, t) else s.seen,
             if v.Reported? then LastN(s.recent + [v.finding], cfg.recentCapacity) else s.recent,
             s.failures[t.rule := 0],
             s.errors,
             s.disabled,
             s.evaluations + 1,
             s.detections + (if v.Reported? then 1 else 0),
             s.duplicates + (if v.Duplicate? then 1 else 0),
             s.ignored + (if v.Ignored? then 1 else 0),
             s.allowlisted + (if v.Allowlisted? then 1 else 0))
  }

  function FailureRecorded(cfg: Config, s: Engine, r: RuleId): Engine {
    var n := Count(s.failures, r) + 1;
    s.(errors := s.errors[r := Count(s.errors, r) + 1],
       failures := s.failures[r := n],
       disabled := if n >= cfg.maxFailures then s.disabled + {r} else s.disabled)
  }

  function Touched(cfg: Config, seen: seq<FindingKey>, t: Turn): seq<FindingKey> {
    if t.outcome.Found? then Touch(seen, t.outcome.finding.Key(), cfg.dedupCapacity) else seen
  }

  // ---- runs ------------------------------------------------------------------------------------------

  function RunFrom(cfg: Config, s: Engine, turns: seq<Turn>): Engine {
    if turns == [] then s else Evaluated(cfg, RunFrom(cfg, s, Front(turns)), Last(turns))
  }

  function Verdicts(cfg: Config, s: Engine, turns: seq<Turn>): (v: seq<Verdict>)
    ensures |v| == |turns|
  {
    if turns == [] then []
    else Verdicts(cfg, s, Front(turns)) + [VerdictOn(RunFrom(cfg, s, Front(turns)), Last(turns))]
  }

  function Findings(verdicts: seq<Verdict>): seq<Finding> {
    if verdicts == [] then []
    else Findings(Front(verdicts)) + if Last(verdicts).Reported? then [Last(verdicts).finding] else []
  }

  function Run(cfg: Config, turns: seq<Turn>): Engine {
    RunFrom(cfg, Initial(), turns)
  }

  /** The turns of one event: the rules of its route, with what each of them would give back. */
  function TurnsOf(event: EventId, route: seq<RuleId>, outcome: RuleId -> Outcome, filters: Filters): seq<Turn> {
    seq(|route|, i requires 0 <= i < |route| => Turn(route[i], event, outcome(route[i]), filters))
  }

  // ---- the engine object -------------------------------------------------------------------------------

  class DetectionEngine {
    const cfg: Config
    const seen: BoundedLRUCache<FindingKey, bool>
    var recent: seq<Finding>
    var failures: map<RuleId, nat>
    var errors: map<RuleId, nat>
    var disabled: set<RuleId>
    var evaluations: nat
    var detections: nat
    var duplicates: nat
    var ignored: nat
    var allowlisted: nat

    ghost predicate Valid()
      reads this, seen
    {
      && seen.Valid()
      && seen.max == cfg.dedupCapacity
      && forall k :: k in seen.data ==> seen.data[k]
    }

    ghost function State(): Engine
      reads this, seen
    {
      Engine(seen.order, recent, failures, errors, disabled, evaluations, detections, duplicates, ignored, allowlisted)
    }

    constructor (cfg: Config)
      requires cfg.dedupCapacity >= 1
      ensures Valid() && fresh(seen) && this.cfg == cfg && State() == Initial()
    {
      this.cfg := cfg;
      seen := new BoundedLRUCache<FindingKey, bool>(cfg.dedupCapacity);
      recent, failures, errors, disabled := [], map[], map[], {};
      evaluations, detections, duplicates, ignored, allowlisted := 0, 0, 0, 0, 0;
    }

    method Handle(event: EventId, route: seq<RuleId>, outcome: RuleId -> Outcome, filters: Filters)
      returns (results: seq<Finding>)
      requires Valid()
      modifies this, seen
      ensures Valid()
      ensures State() == RunFrom(cfg, old(State()), TurnsOf(event, route, outcome, filters))
      ensures results == Findings(Verdicts(cfg, old(State()), TurnsOf(event, route, outcome, filters)))
    {
      hide Evaluated, VerdictOn, Touch;
      results := [];
      ghost var turns := TurnsOf(event, route, outcome, filters);
      assert turns[..0] == [];
      for i := 0 to |route|
        invariant Valid()
        invariant State() == RunFrom(cfg, old(State()), turns[..i])
        invariant results == Findings(Verdicts(cfg, old(State()), turns[..i]))
      {
        assert Front(turns[..i + 1]) == turns[..i] && Last(turns[..i + 1]) == turns[i];
        ghost var verdict := VerdictOn(State(), turns[i]);
        var found := TakeTurn(event, route[i], outcome(route[i]), filters);
        if found.Some? {
          results := results + [found.value];
        }
        assert Front(Verdicts(cfg, old(State()), turns[..i + 1])) == Verdicts(cfg, old(State()), turns[..i]);
      }
      assert turns[..|route|] == turns;
    }

    /** One rule's turn in the loop of handle. */
    method TakeTurn(event: EventId, rule: RuleId, outcome: Outcome, filters: Filters)
      returns (reported: Option<Finding>)
      requires Valid()
      modifies this, seen
      ensures Valid()
      ensures State() == Evaluated(cfg, old(State()), Turn(rule, event, outcome, filters))
      ensures var v := VerdictOn(old(State()), Turn(rule, event, outcome, filters));
              reported == if v.Reported? then Some(v.finding) else None
    {
      hide Touch, LastN, WithEvent;
      reported := None;
      if rule in disabled {
        return;
      }
      if outcome.Raised? {
        RecordFailure(rule);
        return;
      }
      evaluations := evaluations + 1;
      failures := failures[rule := 0];
      if outcome.Quiet? {
        return;
      }
      var f := outcome.finding;
      if f.processKey.Some? && f.processKey.value in filters.excluded {
        return;
      }
      if f.exe.Some? && f.exe.value in filters.ignored {
        ignored := ignored + 1;
        return;
      }
      if f.processKey.Some? && filters.allows(f.processKey.value, f.rule) {
        allowlisted := allowlisted + 1;
        return;
      }
      reported := Report(f, event);
    }

    /** The end of a turn: a finding that passed the filters is reported unless it is a known one. */
    method Report(f: Finding, event: EventId) returns (reported: Option<Finding>)
      requires Valid()
      modifies this`duplicates, this`detections, this`recent, seen
      ensures Valid()
      ensures seen.order == Touch(old(seen.order), f.Key(), cfg.dedupCapacity)
      ensures if f.Key() in old(seen.order)
              then reported == None && State() == old(State()).(seen := seen.order, duplicates := old(duplicates) + 1)
              else reported == Some(WithEvent(f, event))
                   && State() == old(State()).(seen := seen.order, detections := old(detections) + 1,
                                               recent := LastN(old(recent) + [WithEvent(f, event)], cfg.recentCapacity))
    {
      hide Recency, Remove, LastN, WithEvent;
      TouchKeepsMostRecent(seen.touched, f.Key(), seen.max);
      var known := seen.Get(f.Key());
      if known.Some? && known.value {
        duplicates := duplicates + 1;
        return None;
      }
      seen.Put(f.Key(), true);
      var result := WithEvent(f, event);
      detections := detections + 1;
      recent := LastN(recent + [result], cfg.recentCapacity);
      return Some(result);
    }

    method RecordFailure(rule: RuleId)
      modifies this
      ensures State() == FailureRecorded(cfg, old(State()), rule)
    {
      errors := errors[rule := Count(errors, rule) + 1];
      var n := Count(failures, rule) + 1;
      failures := failures[rule := n];
      if n >= cfg.maxFailures {
        disabled := disabled + {rule};
      }
    }
  }

  // ---- de-duplication ----------------------------------------------------------------------------------

  /** The findings that got past the filters so far, by key, whether or not they were reported. */
  function Occurrences(cfg: Config, turns: seq<Turn>): seq<FindingKey> {
    if turns == [] then []
    else
      var v := VerdictOn(Run(cfg, Front(turns)), Last(turns));
      Occurrences(cfg, Front(turns))
      + if (v.Duplicate? || v.Reported?) && Last(turns).outcome.Found? then [Last(turns).outcome.finding.Key()] else []
  }

  lemma {:induction false} SeenIsMostRecent(cfg: Config, turns: seq<Turn>)
    requires cfg.dedupCapacity >= 1
    ensures Run(cfg, turns).seen == LastN(Recency(Occurrences(cfg, turns)), cfg.dedupCapacity)
  {
    hide Recency, LastN, Touch, Filtered, WithEvent;
    if turns == [] {
      NothingSeen(cfg);
    } else {
      SeenIsMostRecent(cfg, Front(turns));
      var t := Last(turns);
      var before := Occurrences(cfg, Front(turns));
      if t.outcome.Found? {
        TouchKeepsMostRecent(before, t.outcome.finding.Key(), cfg.dedupCapacity);
      }
      assert before + [] == before;
    }
  }

  lemma NothingSeen(cfg: Config)
    ensures LastN(Recency<FindingKey>([]), cfg.dedupCapacity) == []
  {
  }

  lemma ReportedExactlyWhenKeyIsNewOrForgotten(cfg: Config, turns: seq<Turn>, t: Turn)
    requires cfg.dedupCapacity >= 1
    requires t.outcome.Found? && t.rule !in Run(cfg, turns).disabled && Filtered(t.outcome.finding, t.filters).None?
    ensures var key := t.outcome.finding.Key();
            var past := Occurrences(cfg, turns);
            VerdictOn(Run(cfg, turns), t).Reported? <==>
            key !in past || |TouchedSince(past, key)| >= cfg.dedupCapacity
  {
    hide Recency, LastN, Run, Occurrences, Filtered, WithEvent;
    SeenIsMostRecent(cfg, turns);
    HeldExactlyWhenRecent(Occurrences(cfg, turns), t.outcome.finding.Key(), cfg.dedupCapacity);
  }

  // ---- de-duplication in plain terms -------------------------------------------------------------------

  /** Same rule, text and process; of findings about no process also the same executable, "-" standing for none. */
  predicate Alike(f: Finding, g: Finding) {
    && f.rule == g.rule && f.dedup == g.dedup && f.processKey == g.processKey
    && (f.processKey == None ==>
          (if f.exe in {None, Some("")} then Some("-") else f.exe)
          == (if g.exe in {None, Some("")} then Some("-") else g.exe))
  }

  lemma SameKeyExactlyWhenAlike(f: Finding, g: Finding)
    ensures f.Key() == g.Key() <==> Alike(f, g)
  {
  }

  /** Not about an excluded process, not about an ignored executable, and not allowed for its process. */
  predicate Passes(f: Finding, filters: Filters) {
    && !(f.processKey.Some? && f.processKey.value in filters.excluded)
    && !(f.exe.Some? && f.exe.value in filters.ignored)
    && !(f.processKey.Some? && filters.allows(f.processKey.value, f.rule))
  }

  /** A disabled rule is skipped; of the filters the first that holds a finding back decides; the rest passes. */
  lemma VerdictMeaning(s: Engine, t: Turn)
    ensures var v := VerdictOn(s, t);
            if t.rule in s.disabled then v == Skipped
            else match t.outcome
              case Raised => v == Failed
              case Quiet => v == Nothing
              case Found(f) =>
                && (Passes(f, t.filters) <==> v == Duplicate || v.Reported?)
                && (v == Excluded <==> exists p :: p in t.filters.excluded && f.processKey == Some(p))
                && (v == Ignored <==>
                      v != Excluded && exists e :: e in t.filters.ignored && f.exe == Some(e))
                && (v == Allowlisted ==> f.processKey.Some? && t.filters.allows(f.processKey.value, f.rule))
  {
  }

  /** The findings that got past the filters of their turns so far, whether or not they were reported. */
  function Passed(cfg: Config, turns: seq<Turn>): seq<Finding> {
    if turns == [] then []
    else
      var t := Last(turns);
      Passed(cfg, Front(turns))
      + if t.rule !in Run(cfg, Front(turns)).disabled && t.outcome.Found? && Passes(t.outcome.finding, t.filters)
        then [t.outcome.finding] else []
  }

  /** What came after the last finding like f. */
  function SinceLike(past: seq<Finding>, f: Finding): seq<Finding> {
    if past == [] || Alike(Last(past), f) then [] else SinceLike(Front(past), f) + [Last(past)]
  }

  /** Among some findings there are n no two of which are alike. */
  ghost predicate HasKinds(some: seq<Finding>, n: nat) {
    exists kinds: seq<Finding> :: |kinds| == n && AreKinds(some, kinds)
  }

  ghost predicate AreKinds(some: seq<Finding>, kinds: seq<Finding>) {
    && (forall f :: f in kinds ==> f in some)
    && (forall i, j :: 0 <= i < j < |kinds| ==> !Alike(kinds[i], kinds[j]))
  }

  function KeysOf(fs: seq<Finding>): (keys: seq<FindingKey>)
    ensures |keys| == |fs| && forall i :: 0 <= i < |fs| ==> keys[i] == fs[i].Key()
  {
    if fs == [] then [] else KeysOf(Front(fs)) + [Last(fs).Key()]
  }

  lemma {:induction false} OccurrencesArePassed(cfg: Config, turns: seq<Turn>)
    ensures Occurrences(cfg, turns) == KeysOf(Passed(cfg, turns))
  {
    hide Run, VerdictOn, Passes, Finding.Key;
    if turns == [] {
    } else {
      OccurrencesArePassed(cfg, Front(turns));
      VerdictMeaning(Run(cfg, Front(turns)), Last(turns));
      var t, p := Last(turns), Passed(cfg, Front(turns));
      assert p + [] == p && KeysOf(p) + [] == KeysOf(p);
      if t.outcome.Found? { assert Front(p + [t.outcome.finding]) == p; }
      DisabledIsSilent(Run(cfg, Front(turns)), t);
    }
  }

  lemma DisabledIsSilent(s: Engine, t: Turn)
    ensures t.rule in s.disabled ==> !VerdictOn(s, t).Duplicate? && !VerdictOn(s, t).Reported?
  {
  }

  lemma {:induction false} TouchedAreSinceLike(past: seq<Finding>, f: Finding)
    ensures TouchedSince(KeysOf(past), f.Key()) == set g | g in SinceLike(past, f) :: g.Key()
  {
    hide Finding.Key, Alike;
    if past == [] {
    } else {
      TouchedAreSinceLike(Front(past), f);
      SameKeyExactlyWhenAlike(Last(past), f);
      assert Front(KeysOf(past)) == KeysOf(Front(past)) && Last(KeysOf(past)) == Last(past).Key();
      if !Alike(Last(past), f) {
        var s := SinceLike(Front(past), f);
        assert forall g :: g in s + [Last(past)] <==> g in s || g == Last(past);
      }
    }
  }

  /** Counting keys is counting kinds. */
  lemma KindsAreKeys(some: seq<Finding>, n: nat)
    ensures |set g | g in some :: g.Key()| >= n <==> HasKinds(some, n)
  {
    hide Finding.Key, Alike;
    var keys := set g | g in some :: g.Key();
    if kinds: seq<Finding> :| |kinds| == n && AreKinds(some, kinds) {
      KindsHaveKeys(some, kinds);
      var used := set k | k in KeysOf(kinds);
      SubsetSize(used, keys);
    }
    if |keys| >= n {
      var kinds := PickKinds(some, keys, n);
    }
  }

  lemma KindsHaveKeys(some: seq<Finding>, kinds: seq<Finding>)
    requires AreKinds(some, kinds)
    ensures |set k | k in KeysOf(kinds)| == |kinds|
    ensures (set k | k in KeysOf(kinds)) <= set g | g in some :: g.Key()
  {
    hide Finding.Key, Alike;
    var keys := KeysOf(kinds);
    forall i, j | 0 <= i < j < |keys| ensures keys[i] != keys[j] { SameKeyExactlyWhenAlike(kinds[i], kinds[j]); }
    DistinctCount(keys);
    forall k | k in keys ensures exists g :: g in some && g.Key() == k {
      var i :| 0 <= i < |keys| && keys[i] == k;
      assert kinds[i] in kinds;
    }
  }

  lemma {:induction false} PickKinds(some: seq<Finding>, keys: set<FindingKey>, n: nat) returns (kinds: seq<Finding>)
    requires |keys| >= n && forall k :: k in keys ==> exists g :: g in some && g.Key() == k
    ensures |kinds| == n && AreKinds(some, kinds) && forall f :: f in kinds ==> f.Key() in keys
    decreases n
  {
    hide Finding.Key, Alike;
    if n == 0 {
      kinds := [];
    } else {
      var k :| k in keys;
      var g :| g in some && g.Key() == k;
      var rest := PickKinds(some, keys - {k}, n - 1);
      kinds := rest + [g];
      forall i | 0 <= i < |rest| ensures !Alike(rest[i], g) {
        assert rest[i] in rest;
        SameKeyExactlyWhenAlike(rest[i], g);
      }
    }
  }

  /**
   * In any run, a finding of an enabled rule that passes the filters is reported exactly when nothing like it has
   * passed before, or when dedupCapacity findings no two of which are alike have passed since the last one like it.
   */
  lemma ReportedExactlyWhenNewOrForgotten(cfg: Config, turns: seq<Turn>, t: Turn)
    requires cfg.dedupCapacity >= 1 && t.outcome.Found?
    requires t.rule !in Run(cfg, turns).disabled && Passes(t.outcome.finding, t.filters)
    ensures var f, past := t.outcome.finding, Passed(cfg, turns);
            VerdictOn(Run(cfg, turns), t).Reported? <==>
            (forall g :: g in past ==> !Alike(g, f)) || HasKinds(SinceLike(past, f), cfg.dedupCapacity)
  {
    hide Run, Occurrences, Passed, VerdictOn, Passes, Alike, Finding.Key;
    var f, past := t.outcome.finding, Passed(cfg, turns);
    VerdictMeaning(Run(cfg, turns), t);
    PassesUnfiltered(f, t.filters);
    ReportedExactlyWhenKeyIsNewOrForgotten(cfg, turns, t);
    OccurrencesArePassed(cfg, turns);
    TouchedAreSinceLike(past, f);
    KindsAreKeys(SinceLike(past, f), cfg.dedupCapacity);
    AbsentExactlyWhenUnlike(past, f);
  }

  lemma PassesUnfiltered(f: Finding, filters: Filters)
    ensures Passes(f, filters) <==> Filtered(f, filters).None?
  {
  }

  lemma AbsentExactlyWhenUnlike(past: seq<Finding>, f: Finding)
    ensures f.Key() !in KeysOf(past) <==> forall g :: g in past ==> !Alike(g, f)
  {
    hide Finding.Key, Alike;
    forall g: Finding ensures g.Key() == f.Key() <==> Alike(g, f) { SameKeyExactlyWhenAlike(g, f); }
    if f.Key() in KeysOf(past) {
      var i :| 0 <= i < |past| && KeysOf(past)[i] == f.Key();
      assert past[i] in past;
    }
    if g :| g in past && Alike(g, f) {
      var i :| 0 <= i < |past| && past[i] == g;
      assert KeysOf(past)[i] == f.Key();
    }
  }

  /** The first finding about a process is reported, whatever has been found about others. */
  lemma FirstAboutAProcessIsReported(cfg: Config, turns: seq<Turn>, t: Turn, p: ProcessKey)
    requires cfg.dedupCapacity >= 1 && t.outcome.Found? && t.outcome.finding.processKey == Some(p)
    requires t.rule !in Run(cfg, turns).disabled && Passes(t.outcome.finding, t.filters)
    requires forall i :: 0 <= i < |turns| && turns[i].outcome.Found? ==> turns[i].outcome.finding.processKey != Some(p)
    ensures VerdictOn(Run(cfg, turns), t).Reported?
  {
    hide Run, VerdictOn, Passes, Passed;
    PassedWereFound(cfg, turns);
    ReportedExactlyWhenNewOrForgotten(cfg, turns, t);
  }

  lemma {:induction false} PassedWereFound(cfg: Config, turns: seq<Turn>)
    ensures forall g :: g in Passed(cfg, turns) ==>
              exists i :: 0 <= i < |turns| && turns[i].outcome == Found(g)
  {
    hide Run, Passes;
    if turns == [] {
    } else {
      PassedWereFound(cfg, Front(turns));
      forall g | g in Passed(cfg, turns) ensures exists i :: 0 <= i < |turns| && turns[i].outcome == Found(g) {
        if g in Passed(cfg, Front(turns)) {
          var i :| 0 <= i < |Front(turns)| && Front(turns)[i].outcome == Found(g);
          assert turns[i].outcome == Found(g);
        } else {
          assert turns[|turns| - 1].outcome == Found(g);
        }
      }
    }
  }

  /** Whatever is reported passed every filter, is the finding of that turn, and names the event. */
  lemma ReportsAreGenuine(s: Engine, t: Turn)
    requires VerdictOn(s, t).Reported?
    ensures var f := VerdictOn(s, t).finding;
            && t.rule !in s.disabled && t.event in f.eventIds
            && t.outcome.Found? && f.Key() == t.outcome.finding.Key()
            && f.(eventIds := []) == t.outcome.finding.(eventIds := [])
            && (t.event in t.outcome.finding.eventIds ==> f.eventIds == t.outcome.finding.eventIds)
            && (t.event !in t.outcome.finding.eventIds ==> f.eventIds == t.outcome.finding.eventIds + [t.event])
            && (f.processKey.Some? ==>
                  f.processKey.value !in t.filters.excluded && !t.filters.allows(f.processKey.value, f.rule))
            && (f.exe.Some? ==> f.exe.value !in t.filters.ignored)
  {
  }

  // ---- failing rules -------------------------------------------------------------------------------------

  /** For each turn of r, whether evaluating it raises. */
  function Raises(turns: seq<Turn>, r: RuleId): seq<bool> {
    if turns == [] then []
    else Raises(Front(turns), r) + if Last(turns).rule == r then [Last(turns).outcome.Raised?] else []
  }

  ghost predicate Streak(flags: seq<bool>, i: nat, n: nat) {
    i + n <= |flags| && forall k :: i <= k < i + n ==> flags[k]
  }

  ghost predicate HasStreak(flags: seq<bool>, n: nat) {
    exists i: nat :: Streak(flags, i, n)
  }

  function Limit(cfg: Config): nat {
    if cfg.maxFailures < 1 then 1 else cfg.maxFailures
  }

  lemma {:induction false} TrailingIsLongestSuffix(flags: seq<bool>, n: nat)
    ensures Trailing(flags) >= n <==> n <= |flags| && Streak(flags, |flags| - n, n)
  {
    if n > 0 && flags != [] && Last(flags) {
      TrailingIsLongestSuffix(Front(flags), n - 1);
      if n <= |flags| && Streak(Front(flags), |flags| - n, n - 1) {
        assert forall k :: |flags| - n <= k < |flags| - 1 ==> Front(flags)[k] == flags[k];
      }
    }
  }

  lemma StreakGrows(flags: seq<bool>, flag: bool, n: nat)
    requires n >= 1
    ensures HasStreak(flags + [flag], n) <==> HasStreak(flags, n) || Trailing(flags + [flag]) >= n
  {
    var longer := flags + [flag];
    TrailingIsLongestSuffix(longer, n);
    if HasStreak(flags, n) {
      var i: nat :| Streak(flags, i, n);
      assert Streak(longer, i, n);
    }
    if HasStreak(longer, n) {
      var i: nat :| Streak(longer, i, n);
      if i + n <= |flags| {
        assert forall k :: i <= k < i + n ==> flags[k] == longer[k];
        assert Streak(flags, i, n);
      }
    }
  }

  /** What one turn does to the books kept on r. */
  lemma TurnOnBooks(cfg: Config, s: Engine, t: Turn, r: RuleId)
    ensures var s' := Evaluated(cfg, s, t);
            && (t.rule != r || r in s.disabled ==>
                  (r in s'.disabled <==> r in s.disabled) && Count(s'.failures, r) == Count(s.failures, r))
            && (t.rule == r && r !in s.disabled && t.outcome.Raised? ==>
                  Count(s'.failures, r) == Count(s.failures, r) + 1
                  && (r in s'.disabled <==> Count(s.failures, r) + 1 >= cfg.maxFailures))
            && (t.rule == r && r !in s.disabled && !t.outcome.Raised? ==>
                  Count(s'.failures, r) == 0 && r !in s'.disabled)
  {
    hide Filtered, WithEvent, Touched, LastN;
  }

  /**
   * A rule is disabled exactly when its evaluations have at some point raised Limit times in a row; until
   * then its count of consecutive failures is the length of its current trailing run of failures.
   */
  lemma {:induction false} DisabledExactlyAfterStreak(cfg: Config, turns: seq<Turn>, r: RuleId)
    ensures var s := Run(cfg, turns);
            && (r in s.disabled <==> HasStreak(Raises(turns, r), Limit(cfg)))
            && (r !in s.disabled ==> Count(s.failures, r) == Trailing(Raises(turns, r)) < Limit(cfg))
            && (r in s.disabled ==> Count(s.failures, r) == Limit(cfg))
  {
    hide Evaluated, Streak;
    if turns == [] {
      NoStreakInNothing(Limit(cfg));
    } else {
      DisabledExactlyAfterStreak(cfg, Front(turns), r);
      var t, flags := Last(turns), Raises(Front(turns), r);
      TurnOnBooks(cfg, Run(cfg, Front(turns)), t, r);
      if t.rule == r {
        StreakGrows(flags, t.outcome.Raised?, Limit(cfg));
        assert Front(flags + [t.outcome.Raised?]) == flags;
      } else {
        assert flags + [] == flags;
      }
    }
  }

  lemma NoStreakInNothing(n: nat)
    requires n >= 1
    ensures !HasStreak([], n)
  {
  }

  /** Once that has happened the rule is never evaluated again, whatever follows. */
  lemma NeverEvaluatedAgain(cfg: Config, turns: seq<Turn>, more: seq<Turn>, t: Turn)
    requires HasStreak(Raises(turns, t.rule), Limit(cfg))
    ensures VerdictOn(Run(cfg, turns + more), t) == Skipped
  {
    hide Streak, Evaluated;
    StreakStays(turns, more, t.rule, Limit(cfg));
    DisabledExactlyAfterStreak(cfg, turns + more, t.rule);
  }

  lemma {:induction false} StreakStays(turns: seq<Turn>, more: seq<Turn>, r: RuleId, n: nat)
    requires n >= 1 && HasStreak(Raises(turns, r), n)
    ensures HasStreak(Raises(turns + more, r), n)
  {
    hide HasStreak;
    if more == [] {
      assert turns + more == turns;
    } else {
      StreakStays(turns, Front(more), r, n);
      assert Front(turns + more) == turns + Front(more);
      var flags := Raises(turns + Front(more), r);
      assert flags + [] == flags;
      StreakGrows(flags, Last(more).outcome.Raised?, n);
    }
  }

  // ---- isolation -------------------------------------------------------------------------------------------

  /** The same turns without those of rule r. */
  function Without(turns: seq<Turn>, r: RuleId): seq<Turn> {
    if turns == [] then []
    else Without(Front(turns), r) + if Last(turns).rule == r then [] else [Last(turns)]
  }

  /** The verdicts on the other rules' turns. */
  function VerdictsOnOthers(cfg: Config, turns: seq<Turn>, r: RuleId): seq<Verdict> {
    if turns == [] then []
    else VerdictsOnOthers(cfg, Front(turns), r)
         + if Last(turns).rule == r then [] else [VerdictOn(Run(cfg, Front(turns)), Last(turns))]
  }

  ghost predicate OnlyRaises(turns: seq<Turn>, r: RuleId) {
    forall t :: t in turns && t.rule == r ==> t.outcome.Raised?
  }

  /** The engine without its books on r. */
  function Forgetting(s: Engine, r: RuleId): Engine {
    s.(failures := s.failures - {r}, errors := s.errors - {r}, disabled := s.disabled - {r})
  }

  lemma FailureIsForgotten(cfg: Config, s: Engine, t: Turn)
    requires t.outcome.Raised?
    ensures Forgetting(Evaluated(cfg, s, t), t.rule) == Forgetting(s, t.rule)
  {
  }

  lemma SameVerdict(s: Engine, t: Turn, r: RuleId)
    requires t.rule != r
    ensures VerdictOn(Forgetting(s, r), t) == VerdictOn(s, t)
  {
    hide Filtered, WithEvent;
  }

  lemma UpdateApart(m: map<RuleId, nat>, k: RuleId, n: nat, r: RuleId)
    requires k != r
    ensures (m - {r})[k := n] == m[k := n] - {r} && Count(m - {r}, k) == Count(m, k)
  {
  }

  lemma FailureApart(cfg: Config, s: Engine, other: RuleId, r: RuleId)
    requires other != r
    ensures Forgetting(FailureRecorded(cfg, s, other), r) == FailureRecorded(cfg, Forgetting(s, r), other)
  {
    hide Count;
    UpdateApart(s.failures, other, Count(s.failures, other) + 1, r);
    UpdateApart(s.errors, other, Count(s.errors, other) + 1, r);
    assert (s.disabled - {r}) + {other} == (s.disabled + {other}) - {r};
  }

  lemma OthersUnaffected(cfg: Config, s: Engine, t: Turn, r: RuleId)
    requires t.rule != r
    ensures VerdictOn(Forgetting(s, r), t) == VerdictOn(s, t)
    ensures Forgetting(Evaluated(cfg, s, t), r) == Evaluated(cfg, Forgetting(s, r), t)
  {
    hide VerdictOn, Touched, LastN, FailureRecorded;
    SameVerdict(s, t, r);
    FailureApart(cfg, s, t.rule, r);
    assert (s.failures - {r})[t.rule := 0] == s.failures[t.rule := 0] - {r};
  }

  /**
   * Rule isolation over whole runs: with a rule that only raises, every other rule gets the same verdicts
   * in the same order, so the same results and notifications, as if that rule were not there.
   */
  lemma {:induction false} RuleIsolation(cfg: Config, turns: seq<Turn>, r: RuleId)
    requires OnlyRaises(turns, r)
    ensures Forgetting(Run(cfg, turns), r) == Run(cfg, Without(turns, r))
    ensures VerdictsOnOthers(cfg, turns, r) == Verdicts(cfg, Initial(), Without(turns, r))
    ensures Findings(Verdicts(cfg, Initial(), turns)) == Findings(Verdicts(cfg, Initial(), Without(turns, r)))
  {
    hide Evaluated, Forgetting, VerdictOn;
    if turns == [] {
      NothingToForget(r);
    } else {
      assert forall t :: t in Front(turns) ==> t in turns;
      RuleIsolation(cfg, Front(turns), r);
      var s, t, rest := Run(cfg, Front(turns)), Last(turns), Without(Front(turns), r);
      if t.rule == r {
        assert t in turns;
        FailureIsForgotten(cfg, s, t);
        RaisingReportsNothing(s, t);
        assert Without(turns, r) == rest;
      } else {
        OthersUnaffected(cfg, s, t, r);
        assert Front(rest + [t]) == rest && Last(rest + [t]) == t;
        OneMoreVerdict(Verdicts(cfg, Initial(), Front(turns)), VerdictOn(s, t));
        OneMoreVerdict(Verdicts(cfg, Initial(), rest), VerdictOn(s, t));
      }
      OneMoreVerdict(Verdicts(cfg, Initial(), Front(turns)), VerdictOn(s, t));
    }
  }

  lemma NothingToForget(r: RuleId)
    ensures Forgetting(Initial(), r) == Initial()
  {
  }

  lemma RaisingReportsNothing(s: Engine, t: Turn)
    requires t.outcome.Raised?
    ensures !VerdictOn(s, t).Reported?
  {
  }

  lemma OneMoreVerdict(verdicts: seq<Verdict>, v: Verdict)
    ensures Findings(verdicts + [v]) == Findings(verdicts) + if v.Reported? then [v.finding] else []
  {
    assert Front(verdicts + [v]) == verdicts;
  }

  // ---- the counters ------------------------------------------------------------------------------------------

  function Tally(verdicts: seq<Verdict>, counted: Verdict -> bool): nat {
    if verdicts == [] then 0 else Tally(Front(verdicts), counted) + if counted(Last(verdicts)) then 1 else 0
  }

  predicate Evaluation(v: Verdict) { !v.Skipped? && !v.Failed? }
  predicate Report(v: Verdict) { v.Reported? }
  predicate Repeat(v: Verdict) { v.Duplicate? }
  predicate Ignoring(v: Verdict) { v.Ignored? }
  predicate Allowing(v: Verdict) { v.Allowlisted? }

  /** The counters, and the findings kept for display, are those of the whole run's verdicts. */
  lemma {:induction false} CountersAgree(cfg: Config, turns: seq<Turn>)
    ensures var s := Run(cfg, turns);
            var v := Verdicts(cfg, Initial(), turns);
            && s.evaluations == Tally(v, Evaluation)
            && s.detections == Tally(v, Report) == |Findings(v)|
            && s.duplicates == Tally(v, Repeat)
            && s.ignored == Tally(v, Ignoring)
            && s.allowlisted == Tally(v, Allowing)
            && s.recent == LastN(Findings(v), cfg.recentCapacity)
  {
    hide VerdictOn, Touched, LastN;
    if turns == [] {
      LastNOfShort<Finding>([], cfg.recentCapacity);
    } else {
      CountersAgree(cfg, Front(turns));
      var earlier := Verdicts(cfg, Initial(), Front(turns));
      var v := VerdictOn(Run(cfg, Front(turns)), Last(turns));
      OneMoreVerdict(earlier, v);
      assert Front(earlier + [v]) == earlier && Findings(earlier) + [] == Findings(earlier);
      if v.Reported? {
        LastNAfterLastN(Findings(earlier), v.finding, cfg.recentCapacity);
      }
    }
  }

  /** How often the rule has raised while it was still enabled. */
  function TimesRaised(cfg: Config, turns: seq<Turn>, r: RuleId): nat {
    if turns == [] then 0
    else
      var t := Last(turns);
      TimesRaised(cfg, Front(turns), r)
      + if t.rule == r && r !in Run(cfg, Front(turns)).disabled && t.outcome.Raised? then 1 else 0
  }

  /** The errors shown for a rule are all the failures it was evaluated to. */
  lemma {:induction false} ErrorsAreRaises(cfg: Config, turns: seq<Turn>, r: RuleId)
    ensures Count(Run(cfg, turns).errors, r) == TimesRaised(cfg, turns, r)
  {
    hide Filtered, Touched, LastN;
    if turns == [] {
    } else {
      ErrorsAreRaises(cfg, Front(turns), r);
    }
  }

  lemma LastNOfShort<T>(s: seq<T>, n: nat)
    requires |s| <= n
    ensures LastN(s, n) == s
  {
  }

  lemma LastNAfterLastN<T>(s: seq<T>, x: T, n: nat)
    ensures LastN(LastN(s, n) + [x], n) == LastN(s + [x], n)
  {
  }
}
