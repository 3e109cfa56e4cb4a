/** The alert store, src/threatlens/detection/alerting.py: one scored alert per subject, LRU-bounded. */
module Alerting {
  import opened Collections
  import opened ProcessModels
  import opened LruCache
  import opened Scoring

  datatype AlertStatus = NEW | ACKNOWLEDGED | INVESTIGATING | RESOLVED | IGNORED

  /** Who an alert is about: a process instance, else an executable, else just the rule. */
  datatype Subject = OfProcess(key: ProcessKey) | OfExecutable(path: string) | OfRule(ruleId: nat)

  datatype Alert = Alert(
    id: nat,
    createdAt: Time,
    updatedAt: Time,
    status: AlertStatus,
    processKey: Option<ProcessKey>,
    risk: RiskScore,
    detections: seq<Detection>)

  datatype Config = Config(threshold: int, maxAlerts: nat)

  datatype Store = Store(
    order: seq<Subject>,
    buckets: map<Subject, seq<Detection>>,
    alerts: map<Subject, Alert>,
    raised: nat)

  function SubjectOf(d: Detection): Subject {
    if d.processKey.Some? then OfProcess(d.processKey.value)
    else if d.exe.Some? && d.exe.value != "" then OfExecutable(d.exe.value)
    else OfRule(d.ruleId)
  }

  predicate HigherScore(a: Detection, b: Detection) {
    a.score >= b.score
  }

  function BuildAlert(d: Detection, bucket: seq<Detection>, existing: Option<Alert>, now: Time, freshId: nat): Alert {
    Alert(if existing.Some? then existing.value.id else freshId,
          if existing.Some? then existing.value.createdAt else now,
          now,
          if existing.Some? then existing.value.status else NEW,
          d.processKey,
          Score(bucket),
          StableSort(bucket, HigherScore))
  }

  // ---- specification of the two operations ---------------------------------------------------------

  function Evict(s: Store, max: nat): Store
    decreases |s.order|
  {
    if |s.order| <= max then s
    else Evict(s.(order := s.order[1..], buckets := s.buckets - {s.order[0]}, alerts := s.alerts - {s.order[0]}), max)
  }

  function Admit(s: Store, key: Subject, max: nat): Store {
    if key in s.buckets then s
    else Evict(s.(order := s.order + [key], buckets := s.buckets[key := []]), max)
  }

  function Bucket(s: Store, key: Subject): seq<Detection> {
    if key in s.buckets then s.buckets[key] else []
  }

  function AlertOn(s: Store, key: Subject): Option<Alert> {
    if key in s.alerts then Some(s.alerts[key]) else None
  }

  /** The detection is filed under its subject, which becomes the most recently used one. */
  function Recorded(cfg: Config, s: Store, d: Detection): Store {
    var key := SubjectOf(d);
    var admitted := Admit(s, key, cfg.maxAlerts);
    admitted.(order := Remove(admitted.order, key) + [key],
              buckets := admitted.buckets[key := Bucket(admitted, key) + [d]])
  }

  /** handle: the new store and the alert sent to the listeners, if any. */
  function Handled(cfg: Config, s: Store, d: Detection, now: Time, freshId: nat): (Store, Option<Alert>) {
    var key := SubjectOf(d);
    var filed := Recorded(cfg, s, d);
    var existing := AlertOn(filed, key);
    var alert := BuildAlert(d, Bucket(filed, key), existing, now, freshId);
    if alert.risk.score < cfg.threshold then (filed, None)
    else
      (filed.(alerts := filed.alerts[key := alert], raised := filed.raised + if existing.None? then 1 else 0),
       Some(alert))
  }

  /** The subject whose alert carries this identifier. */
  function Find(order: seq<Subject>, alerts: map<Subject, Alert>, alertId: nat): Option<Subject> {
    if order == [] then None
    else if order[0] in alerts && alerts[order[0]].id == alertId then Some(order[0])
    else Find(order[1..], alerts, alertId)
  }

  function StatusChanged(s: Store, alertId: nat, status: AlertStatus, now: Time): Store {
    match Find(s.order, s.alerts, alertId)
    case None => s
    case Some(key) =>
      if key in s.alerts then s.(alerts := s.alerts[key := s.alerts[key].(status := status, updatedAt := now)]) else s
  }

  // ---- the class -----------------------------------------------------------------------------------

  class AlertManager {
    const cfg: Config
    var order: seq<Subject>
    var detections: map<Subject, seq<Detection>>
    var alerts: map<Subject, Alert>
    var raised: nat

    function State(): Store
      reads this
    {
      Store(order, detections, alerts, raised)
    }

    constructor (cfg: Config)
      ensures this.cfg == cfg && State() == Store([], map[], map[], 0)
    {
      this.cfg := cfg;
      order, detections, alerts, raised := [], map[], map[], 0;
    }

    /** With no room for even one subject the source fails on the entry it has just evicted. */
    method Handle(d: Detection, now: Time, freshId: nat) returns (emitted: Option<Alert>)
      requires cfg.maxAlerts >= 1
      modifies this
      ensures (State(), emitted) == Handled(cfg, old(State()), d, now, freshId)
    {
      hide Score, StableSort, Remove, Effective, Evict;
      var key := SubjectOf(d);
      if key !in detections {
        order, detections := order + [key], detections[key := []];
        EvictOldest();
      }
      order := Remove(order, key) + [key];
      var bucket := (if key in detections then detections[key] else []) + [d];
      detections := detections[key := bucket];
      var existing := if key in alerts then Some(alerts[key]) else None;
      var alert := BuildAlert(d, bucket, existing, now, freshId);
      if alert.risk.score < cfg.threshold {
        return None;
      }
      alerts := alerts[key := alert];
      if existing.None? { raised := raised + 1; }
      emitted := Some(alert);
    }

    method EvictOldest()
      modifies this
      ensures State() == Evict(old(State()), cfg.maxAlerts)
    {
      while |order| > cfg.maxAlerts
        invariant Evict(State(), cfg.maxAlerts) == Evict(old(State()), cfg.maxAlerts)
        decreases |order|
      {
        var oldest := order[0];
        order := order[1..];
        detections := detections - {oldest};
        alerts := alerts - {oldest};
      }
    }

    method SetStatus(alertId: nat, status: AlertStatus, now: Time) returns (updated: Option<Alert>)
      modifies this
      ensures State() == StatusChanged(old(State()), alertId, status, now)
      ensures var key := Find(old(order), old(alerts), alertId);
              updated == if key.None? then None else AlertOn(State(), key.value)
    {
      for i := 0 to |order|
        invariant State() == old(State())
        invariant Find(order, alerts, alertId) == Find(order[i..], alerts, alertId)
      {
        var key := order[i];
        if key in alerts && alerts[key].id == alertId {
          var alert := alerts[key].(status := status, updatedAt := now);
          alerts := alerts[key := alert];
          return Some(alert);
        }
      }
      updated := None;
    }
  }

  // ---- runs ----------------------------------------------------------------------------------------

  datatype Input =
    | Detected(d: Detection, at: Time, freshId: nat)
    | StatusSet(alertId: nat, status: AlertStatus, at: Time)

  function Step(cfg: Config, s: Store, i: Input): Store {
    match i
    case Detected(d, at, freshId) => Handled(cfg, s, d, at, freshId).0
    case StatusSet(alertId, status, at) => StatusChanged(s, alertId, status, at)
  }

  function Run(cfg: Config, inputs: seq<Input>): Store {
    if inputs == [] then Store([], map[], map[], 0) else Step(cfg, Run(cfg, Front(inputs)), Last(inputs))
  }

  function Subjects(inputs: seq<Input>): seq<Subject> {
    if inputs == [] then []
    else Subjects(Front(inputs)) + if Last(inputs).Detected? then [SubjectOf(Last(inputs).d)] else []
  }

  function DetectionsOf(inputs: seq<Input>, key: Subject): seq<Detection> {
    if inputs == [] then []
    else
      var i := Last(inputs);
      DetectionsOf(Front(inputs), key) + if i.Detected? && SubjectOf(i.d) == key then [i.d] else []
  }

  /** Alert identifiers are never reused. */
  ghost predicate FreshIds(inputs: seq<Input>) {
    forall i, j :: 0 <= i < j < |inputs| && inputs[i].Detected? && inputs[j].Detected? ==>
      inputs[i].freshId != inputs[j].freshId
  }

  /** The hypothesis on the rules, over a whole run. */
  ghost predicate Disciplined(inputs: seq<Input>) {
    forall i, j :: 0 <= i < |inputs| && 0 <= j < |inputs| && inputs[i].Detected? && inputs[j].Detected? ==>
      Compatible(inputs[i].d, inputs[j].d)
  }

  /** The tables of the store agree on who is in it. */
  ghost predicate Coherent(s: Store) {
    && NoDuplicates(s.order)
    && (forall k :: k in s.buckets <==> k in s.order)
    && (forall k :: k in s.alerts ==> k in s.order)
    && (forall k :: k in s.buckets ==> s.buckets[k] != [])
  }

  /** k has an alert exactly when the score of everything retained about it reaches the threshold. */
  ghost predicate Agrees(cfg: Config, s: Store, k: Subject)
    requires k in s.buckets
  {
    && (k in s.alerts <==> Score(s.buckets[k]).score >= cfg.threshold)
    && (k in s.alerts ==>
          s.alerts[k].risk == Score(s.buckets[k]) && s.alerts[k].detections == StableSort(s.buckets[k], HigherScore))
  }

  lemma {:induction false} EvictKeepsYoungest(s: Store, max: nat)
    requires NoDuplicates(s.order)
    requires forall k :: k in s.buckets <==> k in s.order
    requires forall k :: k in s.alerts ==> k in s.order
    ensures var e := Evict(s, max);
            && e.order == LastN(s.order, max)
            && (forall k :: k in e.buckets <==> k in e.order)
            && (forall k :: k in e.buckets ==> k in s.buckets && e.buckets[k] == s.buckets[k])
            && (forall k :: k in e.alerts <==> k in s.alerts && k in e.order)
            && (forall k :: k in e.alerts ==> e.alerts[k] == s.alerts[k])
    decreases |s.order|
  {
    if |s.order| > max {
      var rest := s.(order := s.order[1..], buckets := s.buckets - {s.order[0]}, alerts := s.alerts - {s.order[0]});
      assert forall k :: k in s.order <==> k == s.order[0] || k in rest.order;
      assert s.order[0] !in rest.order;
      EvictKeepsYoungest(rest, max);
    }
  }

  /** Letting a subject in: it is present afterwards, and whoever else remains is untouched. */
  lemma AdmitKeeps(s: Store, key: Subject, max: nat)
    requires Coherent(s) && max >= 1
    ensures var a := Admit(s, key, max);
            && NoDuplicates(a.order) && key in a.order
            && (forall k :: k in a.buckets <==> k in a.order)
            && (forall k :: k in a.buckets && k != key ==> k in s.buckets && a.buckets[k] == s.buckets[k])
            && a.buckets[key] == Bucket(s, key)
            && (forall k :: k in a.alerts <==> k in s.alerts && k in a.order)
            && (forall k :: k in a.alerts ==> a.alerts[k] == s.alerts[k])
            && (key in s.alerts ==> key in a.alerts)
            && (key !in s.buckets ==> a.order == LastN(s.order + [key], max))
            && (key in s.buckets ==> a == s)
  {
    hide Evict, LastN, NoDuplicates;
    if key !in s.buckets {
      var entered := s.(order := s.order + [key], buckets := s.buckets[key := []]);
      EntersOnce(s.order, key);
      EvictKeepsYoungest(entered, max);
      LastNMembers(entered.order, max);
      LastNDistinct(entered.order, max);
    }
  }

  lemma EntersOnce(order: seq<Subject>, key: Subject)
    requires NoDuplicates(order) && key !in order
    ensures NoDuplicates(order + [key]) && forall k :: k in order + [key] <==> k in order || k == key
  {
  }

  lemma RecordedOrder(cfg: Config, s: Store, d: Detection)
    requires Coherent(s) && cfg.maxAlerts >= 1
    ensures var r := Recorded(cfg, s, d);
            var a := Admit(s, SubjectOf(d), cfg.maxAlerts);
            && NoDuplicates(r.order)
            && (forall k :: k in r.order <==> k in a.order)
            && (forall k :: k in r.buckets <==> k in a.order)
            && (forall k :: k in r.alerts ==> k in a.order)
            && SubjectOf(d) in a.order
  {
    hide Evict, Remove, Admit, SubjectOf, Bucket, Coherent;
    var key := SubjectOf(d);
    AdmitKeeps(s, key, cfg.maxAlerts);
    var a := Admit(s, key, cfg.maxAlerts);
    RemoveMembers(a.order, key);
    MovedToEnd(a.order, key);
    assert forall k :: k in Remove(a.order, key) + [key] <==> k in Remove(a.order, key) || k == key;
  }

  lemma RecordedAt(cfg: Config, s: Store, d: Detection, k: Subject)
    requires Coherent(s) && cfg.maxAlerts >= 1 && k in Recorded(cfg, s, d).buckets
    ensures var r := Recorded(cfg, s, d);
            && AlertOn(r, k) == AlertOn(s, k)
            && if k == SubjectOf(d) then r.buckets[k] == Bucket(s, k) + [d]
               else k in s.buckets && r.buckets[k] == s.buckets[k]
  {
    hide Evict, Remove, Admit, SubjectOf, Coherent;
    AdmitKeeps(s, SubjectOf(d), cfg.maxAlerts);
  }

  lemma RecordedKeeps(cfg: Config, s: Store, d: Detection)
    requires Coherent(s) && cfg.maxAlerts >= 1
    ensures Coherent(Recorded(cfg, s, d)) && SubjectOf(d) in Recorded(cfg, s, d).buckets
    ensures Recorded(cfg, s, d).buckets[SubjectOf(d)] == Bucket(s, SubjectOf(d)) + [d]
    ensures forall k :: k in Recorded(cfg, s, d).buckets && k != SubjectOf(d) ==>
              k in s.buckets && Recorded(cfg, s, d).buckets[k] == s.buckets[k]
    ensures forall k :: k in Recorded(cfg, s, d).buckets ==> AlertOn(Recorded(cfg, s, d), k) == AlertOn(s, k)
  {
    hide Recorded, AlertOn, Bucket, SubjectOf, Admit;
    RecordedOrder(cfg, s, d);
    forall k | k in Recorded(cfg, s, d).buckets
      ensures AlertOn(Recorded(cfg, s, d), k) == AlertOn(s, k)
      ensures k == SubjectOf(d) ==> Recorded(cfg, s, d).buckets[k] == Bucket(s, k) + [d]
      ensures k != SubjectOf(d) ==> k in s.buckets && Recorded(cfg, s, d).buckets[k] == s.buckets[k]
    {
      RecordedAt(cfg, s, d, k);
    }
  }

  /** What handling a detection does to the tables, read off without the order of its steps. */
  lemma HandledKeeps(cfg: Config, s: Store, d: Detection, at: Time, freshId: nat)
    requires Coherent(s) && cfg.maxAlerts >= 1
    ensures var key := SubjectOf(d);
            var s' := Handled(cfg, s, d, at, freshId).0;
            && Coherent(s') && key in s'.buckets
            && s'.buckets[key] == Bucket(s, key) + [d]
            && (forall k :: k in s'.buckets && k != key ==>
                  k in s.buckets && s'.buckets[k] == s.buckets[k] && AlertOn(s', k) == AlertOn(s, k))
            && AlertOn(s', key) ==
               if Score(s'.buckets[key]).score >= cfg.threshold
               then Some(BuildAlert(d, s'.buckets[key], AlertOn(s, key), at, freshId))
               else AlertOn(s, key)
  {
    hide Score, StableSort, Recorded;
    RecordedKeeps(cfg, s, d);
  }

  lemma {:induction false} FindSome(order: seq<Subject>, alerts: map<Subject, Alert>, alertId: nat)
    ensures var f := Find(order, alerts, alertId);
            && (f.Some? ==> f.value in order && f.value in alerts && alerts[f.value].id == alertId)
            && (f.None? ==> forall k :: k in order && k in alerts ==> alerts[k].id != alertId)
  {
    if order != [] && !(order[0] in alerts && alerts[order[0]].id == alertId) {
      FindSome(order[1..], alerts, alertId);
    }
  }

  // ---- the invariant of every run --------------------------------------------------------------------

  ghost predicate SuffixOf<T>(tail: seq<T>, all: seq<T>) {
    |tail| <= |all| && tail == all[|all| - |tail|..]
  }

  ghost predicate IdsFromRun(inputs: seq<Input>, s: Store) {
    && (forall k :: k in s.alerts ==>
          exists i :: 0 <= i < |inputs| && inputs[i].Detected? && inputs[i].freshId == s.alerts[k].id)
    && (forall k, l :: k in s.alerts && l in s.alerts && s.alerts[k].id == s.alerts[l].id ==> k == l)
  }

  /** The detections of a subject since it was last forgotten: since it last was not among the most recent ones. */
  function Retained(cfg: Config, inputs: seq<Input>, key: Subject): seq<Detection> {
    if inputs == [] then []
    else if !Last(inputs).Detected? || SubjectOf(Last(inputs).d) != key then Retained(cfg, Front(inputs), key)
    else
      (if key in LastN(Recency(Subjects(Front(inputs))), cfg.maxAlerts) then Retained(cfg, Front(inputs), key) else [])
      + [Last(inputs).d]
  }

  /** Who is kept, and what about them. */
  ghost predicate Filed(cfg: Config, inputs: seq<Input>, s: Store) {
    && Coherent(s)
    && s.order == LastN(Recency(Subjects(inputs)), cfg.maxAlerts)
    && (forall k :: k in s.buckets ==> s.buckets[k] == Retained(cfg, inputs, k))
    && (forall k :: k in s.buckets ==> SuffixOf(s.buckets[k], DetectionsOf(inputs, k)))
  }

  ghost predicate AllAgree(cfg: Config, s: Store) {
    forall k :: k in s.buckets ==> Agrees(cfg, s, k)
  }

  /** Everything the store keeps over a run. */
  ghost predicate Faithful(cfg: Config, inputs: seq<Input>, s: Store) {
    Filed(cfg, inputs, s) && AllAgree(cfg, s) && IdsFromRun(inputs, s)
  }

  /** An alerted subject's score falls below the threshold: the source then leaves the old alert standing. */
  predicate Drops(cfg: Config, s: Store, d: Detection) {
    SubjectOf(d) in s.alerts && Score(Bucket(s, SubjectOf(d)) + [d]).score < cfg.threshold
  }

  ghost predicate NeverDrops(cfg: Config, inputs: seq<Input>) {
    inputs == []
    || (NeverDrops(cfg, Front(inputs))
        && (Last(inputs).Detected? ==> !Drops(cfg, Run(cfg, Front(inputs)), Last(inputs).d)))
  }

  /** Every detection may take the place of the one it displaces. */
  ghost predicate AlwaysSafe(cfg: Config, inputs: seq<Input>) {
    inputs == []
    || (AlwaysSafe(cfg, Front(inputs))
        && (Last(inputs).Detected? ==>
              SafeAddition(Bucket(Run(cfg, Front(inputs)), SubjectOf(Last(inputs).d)), Last(inputs).d)))
  }

  /** The alerts match the evidence at every point of the run. */
  ghost predicate AlwaysAgree(cfg: Config, inputs: seq<Input>) {
    AllAgree(cfg, Run(cfg, inputs)) && (inputs != [] ==> AlwaysAgree(cfg, Front(inputs)))
  }

  lemma OrderIsTouch(cfg: Config, s: Store, d: Detection, touched: seq<Subject>)
    requires Coherent(s) && cfg.maxAlerts >= 1 && s.order == LastN(Recency(touched), cfg.maxAlerts)
    ensures Recorded(cfg, s, d).order == LastN(Recency(touched + [SubjectOf(d)]), cfg.maxAlerts)
  {
    hide Evict, Remove, Recency, LastN, Admit;
    var key := SubjectOf(d);
    AdmitKeeps(s, key, cfg.maxAlerts);
    TouchKeepsMostRecent(touched, key, cfg.maxAlerts);
    TouchMembers(touched, key, cfg.maxAlerts);
    if key !in s.buckets {
      RemoveAbsent(s.order, key);
      YoungestStays(s.order, key, cfg.maxAlerts);
    }
  }

  lemma YoungestStays(order: seq<Subject>, key: Subject, max: nat)
    requires NoDuplicates(order) && key !in order && max >= 1
    ensures Remove(LastN(order + [key], max), key) + [key] == LastN(order + [key], max)
  {
    var l := LastN(order + [key], max);
    assert Last(l) == key;
    forall i | 0 <= i < |l| - 1 ensures l[i] != key { }
    RemoveAbsent(Front(l), key);
  }

  lemma {:induction false} DetectionsAreInputs(inputs: seq<Input>, key: Subject, d: Detection) returns (i: nat)
    requires d in DetectionsOf(inputs, key)
    ensures i < |inputs| && inputs[i].Detected? && inputs[i].d == d
  {
    if Last(inputs).Detected? && Last(inputs).d == d {
      i := |inputs| - 1;
    } else {
      i := DetectionsAreInputs(Front(inputs), key, d);
    }
  }

  lemma BucketIsCompatible(cfg: Config, inputs: seq<Input>, d: Detection)
    requires inputs != [] && Last(inputs).Detected? && Last(inputs).d == d
    requires Disciplined(inputs) && Filed(cfg, Front(inputs), Run(cfg, Front(inputs)))
    ensures AllCompatible(Bucket(Run(cfg, Front(inputs)), SubjectOf(d)) + [d])
  {
    hide Run, Filed, Bucket, Compatible, SubjectOf;
    var bucket := Bucket(Run(cfg, Front(inputs)), SubjectOf(d));
    forall a, b | a in bucket + [d] && b in bucket + [d] ensures Compatible(a, b) {
      var i := RetainedIsInput(cfg, inputs, a);
      var j := RetainedIsInput(cfg, inputs, b);
    }
  }

  lemma RetainedIsInput(cfg: Config, inputs: seq<Input>, a: Detection) returns (i: nat)
    requires inputs != [] && Last(inputs).Detected? && Filed(cfg, Front(inputs), Run(cfg, Front(inputs)))
    requires a in Bucket(Run(cfg, Front(inputs)), SubjectOf(Last(inputs).d)) + [Last(inputs).d]
    ensures i < |inputs| && inputs[i].Detected? && inputs[i].d == a
  {
    hide Run, DetectionsOf, SubjectOf, Coherent, Retained, Recency, LastN;
    i := |inputs| - 1;
    if a != Last(inputs).d {
      var key := SubjectOf(Last(inputs).d);
      assert a in DetectionsOf(Front(inputs), key);
      i := DetectionsAreInputs(Front(inputs), key, a);
    }
  }

  /**
   * From a store that agrees, handling a detection leaves every other subject in agreement, and its own
   * exactly unless that subject has an alert and its score drops below the threshold.
   */
  lemma AgreesExactlyUnlessDropped(cfg: Config, s: Store, d: Detection, at: Time, freshId: nat)
    requires Coherent(s) && AllAgree(cfg, s) && cfg.maxAlerts >= 1
    ensures var s' := Handled(cfg, s, d, at, freshId).0;
            && SubjectOf(d) in s'.buckets
            && (Agrees(cfg, s', SubjectOf(d)) <==> !Drops(cfg, s, d))
            && (forall k :: k in s'.buckets && k != SubjectOf(d) ==> Agrees(cfg, s', k))
  {
    hide Score, StableSort, Handled, SubjectOf;
    var key := SubjectOf(d);
    var s' := Handled(cfg, s, d, at, freshId).0;
    HandledKeeps(cfg, s, d, at, freshId);
    assert AlertOn(s', key).Some? <==> key in s'.alerts;
    if key in s.alerts {
      assert key in s.buckets && Agrees(cfg, s, key);
    }
    forall k | k in s'.buckets && k != key ensures Agrees(cfg, s', k) {
      assert AlertOn(s', k).Some? <==> k in s'.alerts;
      assert AlertOn(s', k) == AlertOn(s, k) && Agrees(cfg, s, k);
    }
  }

  lemma DetectedKeepsIds(cfg: Config, inputs: seq<Input>, s: Store)
    requires inputs != [] && Last(inputs).Detected? && FreshIds(inputs) && cfg.maxAlerts >= 1
    requires Coherent(s) && IdsFromRun(Front(inputs), s)
    ensures IdsFromRun(inputs, Step(cfg, s, Last(inputs)))
  {
    hide Score, StableSort, Handled;
    var Detected(d, at, freshId) := Last(inputs);
    var key := SubjectOf(d);
    var s' := Handled(cfg, s, d, at, freshId).0;
    HandledKeeps(cfg, s, d, at, freshId);
    forall k | k in s'.alerts
      ensures (s'.alerts[k].id == freshId && k == key && key !in s.alerts)
              || (k in s.alerts && s'.alerts[k].id == s.alerts[k].id)
    {
      assert AlertOn(s', k) == Some(s'.alerts[k]);
    }
    forall k | k in s.alerts ensures s.alerts[k].id != freshId {
      var i :| 0 <= i < |Front(inputs)| && Front(inputs)[i].Detected? && Front(inputs)[i].freshId == s.alerts[k].id;
      assert inputs[i].freshId != Last(inputs).freshId;
    }
    forall k | k in s'.alerts
      ensures exists i :: 0 <= i < |inputs| && inputs[i].Detected? && inputs[i].freshId == s'.alerts[k].id
    {
      if k in s.alerts && s'.alerts[k].id == s.alerts[k].id {
        var i :| 0 <= i < |Front(inputs)| && Front(inputs)[i].Detected? && Front(inputs)[i].freshId == s.alerts[k].id;
        assert inputs[i].freshId == s'.alerts[k].id;
      } else {
        assert inputs[|inputs| - 1].freshId == s'.alerts[k].id;
      }
    }
  }

  /** Changing a status changes that status and the update time of that one alert, and nothing else. */
  lemma StatusChangeIsLocal(s: Store, alertId: nat, status: AlertStatus, at: Time)
    ensures var s' := StatusChanged(s, alertId, status, at);
            && s'.order == s.order && s'.buckets == s.buckets && s'.raised == s.raised
            && s'.alerts.Keys == s.alerts.Keys
            && forall k :: k in s.alerts ==>
                 s'.alerts[k] == s.alerts[k]
                 || (s.alerts[k].id == alertId && s'.alerts[k] == s.alerts[k].(status := status, updatedAt := at))
  {
    FindSome(s.order, s.alerts, alertId);
  }

  lemma StatusSetKeepsIds(inputs: seq<Input>, s: Store, s': Store)
    requires inputs != [] && IdsFromRun(Front(inputs), s)
    requires s'.alerts.Keys == s.alerts.Keys && forall k :: k in s.alerts ==> s'.alerts[k].id == s.alerts[k].id
    ensures IdsFromRun(inputs, s')
  {
    forall k | k in s'.alerts
      ensures exists i :: 0 <= i < |inputs| && inputs[i].Detected? && inputs[i].freshId == s'.alerts[k].id
    {
      assert k in s.alerts;
      var i :| 0 <= i < |Front(inputs)| && Front(inputs)[i].Detected? && Front(inputs)[i].freshId == s.alerts[k].id;
      assert inputs[i].freshId == s'.alerts[k].id;
    }
  }

  lemma StatusSetKeepsTables(cfg: Config, s: Store, alertId: nat, status: AlertStatus, at: Time)
    requires Coherent(s)
    ensures var s' := StatusChanged(s, alertId, status, at);
            Coherent(s') && forall k :: k in s'.buckets ==> (Agrees(cfg, s', k) <==> Agrees(cfg, s, k))
  {
    hide Score, StableSort, StatusChanged;
    var s' := StatusChanged(s, alertId, status, at);
    StatusChangeIsLocal(s, alertId, status, at);
    assert forall k :: k in s.alerts <==> k in s'.alerts.Keys;
  }

  lemma NothingDetected(inputs: seq<Input>)
    requires inputs != [] && Last(inputs).StatusSet?
    ensures Subjects(inputs) == Subjects(Front(inputs))
    ensures forall k :: DetectionsOf(inputs, k) == DetectionsOf(Front(inputs), k)
  {
  }

  lemma NothingRetained(cfg: Config, inputs: seq<Input>)
    requires inputs != [] && Last(inputs).StatusSet?
    ensures forall k :: Retained(cfg, inputs, k) == Retained(cfg, Front(inputs), k)
  {
  }

  lemma StatusSetKeepsFiled(cfg: Config, inputs: seq<Input>, s: Store)
    requires inputs != [] && Last(inputs).StatusSet? && Filed(cfg, Front(inputs), s)
    ensures Filed(cfg, inputs, Step(cfg, s, Last(inputs)))
    ensures AllAgree(cfg, Step(cfg, s, Last(inputs))) <==> AllAgree(cfg, s)
  {
    hide Score, StableSort, StatusChanged, Recency, LastN, Coherent, Agrees, Subjects, DetectionsOf, SuffixOf, Retained;
    var StatusSet(alertId, status, at) := Last(inputs);
    StatusChangeIsLocal(s, alertId, status, at);
    StatusSetKeepsTables(cfg, s, alertId, status, at);
    NothingDetected(inputs);
    NothingRetained(cfg, inputs);
  }

  /** What one detection does to what is retained about a subject, and about whom. */
  lemma DetectedRetains(cfg: Config, inputs: seq<Input>, k: Subject)
    requires inputs != [] && Last(inputs).Detected? && cfg.maxAlerts >= 1
    requires Filed(cfg, Front(inputs), Run(cfg, Front(inputs))) && k in Run(cfg, inputs).buckets
    ensures Run(cfg, inputs).buckets[k] == Retained(cfg, inputs, k)
    ensures SuffixOf(Run(cfg, inputs).buckets[k], DetectionsOf(inputs, k))
  {
    hide Score, StableSort, Handled, Recency, LastN, Subjects, SubjectOf;
    var Detected(d, at, freshId) := Last(inputs);
    var s := Run(cfg, Front(inputs));
    HandledKeeps(cfg, s, d, at, freshId);
    var all := DetectionsOf(Front(inputs), k);
    if k == SubjectOf(d) {
      assert DetectionsOf(inputs, k) == all + [d];
      SuffixGrows(Bucket(s, k), all, d);
    } else {
      assert DetectionsOf(inputs, k) == all;
    }
  }

  lemma DetectedKeepsFiled(cfg: Config, inputs: seq<Input>)
    requires inputs != [] && Last(inputs).Detected? && cfg.maxAlerts >= 1
    requires Filed(cfg, Front(inputs), Run(cfg, Front(inputs)))
    ensures Filed(cfg, inputs, Run(cfg, inputs))
  {
    hide Score, StableSort, Recorded, Recency, LastN, Retained, SuffixOf, DetectionsOf;
    var Detected(d, at, freshId) := Last(inputs);
    var s, s' := Run(cfg, Front(inputs)), Run(cfg, inputs);
    assert s' == Handled(cfg, s, d, at, freshId).0;
    HandledKeeps(cfg, s, d, at, freshId);
    OrderIsTouch(cfg, s, d, Subjects(Front(inputs)));
    forall k | k in s'.buckets
      ensures s'.buckets[k] == Retained(cfg, inputs, k) && SuffixOf(s'.buckets[k], DetectionsOf(inputs, k))
    {
      DetectedRetains(cfg, inputs, k);
    }
  }

  lemma SuffixGrows<T>(tail: seq<T>, all: seq<T>, x: T)
    requires SuffixOf(tail, all) || tail == []
    ensures SuffixOf(tail + [x], all + [x])
  {
  }

  /**
   * Over every run whatsoever: the subjects kept are the most recent ones, each with exactly its detections
   * since it was last forgotten.
   */
  lemma {:induction false} RunIsFiled(cfg: Config, inputs: seq<Input>)
    requires cfg.maxAlerts >= 1
    ensures Filed(cfg, inputs, Run(cfg, inputs))
  {
    hide Filed, Step;
    if inputs == [] {
      NothingFiled(cfg);
    } else {
      RunIsFiled(cfg, Front(inputs));
      if Last(inputs).Detected? {
        DetectedKeepsFiled(cfg, inputs);
      } else {
        StatusSetKeepsFiled(cfg, inputs, Run(cfg, Front(inputs)));
      }
    }
  }

  lemma NothingFiled(cfg: Config)
    ensures Filed(cfg, [], Run(cfg, [])) && AllAgree(cfg, Run(cfg, [])) && IdsFromRun([], Run(cfg, []))
  {
  }

  /** One step keeps the alerts in agreement with the evidence exactly unless it drops an alerted subject. */
  lemma StepAgreesExactlyUnlessDropped(cfg: Config, inputs: seq<Input>)
    requires cfg.maxAlerts >= 1 && inputs != [] && AllAgree(cfg, Run(cfg, Front(inputs)))
    ensures AllAgree(cfg, Run(cfg, inputs)) <==>
            (Last(inputs).Detected? ==> !Drops(cfg, Run(cfg, Front(inputs)), Last(inputs).d))
  {
    hide Filed, Drops, Handled, StatusChanged, Agrees, SubjectOf;
    var s := Run(cfg, Front(inputs));
    RunIsFiled(cfg, Front(inputs));
    FiledIsCoherent(cfg, Front(inputs), s);
    match Last(inputs)
    case Detected(d, at, freshId) => AgreesExactlyUnlessDropped(cfg, s, d, at, freshId);
    case StatusSet(_, _, _) => StatusSetKeepsFiled(cfg, inputs, s);
  }

  lemma FiledIsCoherent(cfg: Config, inputs: seq<Input>, s: Store)
    requires Filed(cfg, inputs, s)
    ensures Coherent(s)
  {
  }

  /** Over whole runs: the alerts always match the evidence exactly when no step drops an alerted subject. */
  lemma {:induction false} AlertsAgreeExactlyWhenNothingDrops(cfg: Config, inputs: seq<Input>)
    requires cfg.maxAlerts >= 1
    ensures AlwaysAgree(cfg, inputs) <==> NeverDrops(cfg, inputs)
  {
    hide AllAgree, Drops, Run;
    if inputs == [] {
      NothingFiled(cfg);
    } else {
      AlertsAgreeExactlyWhenNothingDrops(cfg, Front(inputs));
      if AlwaysAgree(cfg, Front(inputs)) {
        AgreesNow(cfg, Front(inputs));
        StepAgreesExactlyUnlessDropped(cfg, inputs);
      }
    }
  }

  lemma AgreesNow(cfg: Config, inputs: seq<Input>)
    requires AlwaysAgree(cfg, inputs)
    ensures AllAgree(cfg, Run(cfg, inputs))
  {
  }

  lemma {:induction false} IdsStayUnique(cfg: Config, inputs: seq<Input>)
    requires cfg.maxAlerts >= 1 && FreshIds(inputs)
    ensures IdsFromRun(inputs, Run(cfg, inputs))
  {
    hide IdsFromRun, Handled, StatusChanged, Filed;
    if inputs == [] {
      NothingFiled(cfg);
    } else {
      var s := Run(cfg, Front(inputs));
      forall i | 0 <= i < |Front(inputs)| ensures Front(inputs)[i] == inputs[i] { }
      IdsStayUnique(cfg, Front(inputs));
      RunIsFiled(cfg, Front(inputs));
      FiledIsCoherent(cfg, Front(inputs), s);
      match Last(inputs)
      case Detected(_, _, _) => DetectedKeepsIds(cfg, inputs, s);
      case StatusSet(alertId, status, at) =>
        StatusChangeIsLocal(s, alertId, status, at);
        StatusSetKeepsIds(inputs, s, StatusChanged(s, alertId, status, at));
    }
  }

  /**
   * Over every run in which no alerted subject drops below the threshold: the subjects kept are the most
   * recent ones; each keeps its latest detections without a gap; and it has an alert, carrying the score
   * of all of them, exactly when that score reaches the threshold.
   */
  lemma RunIsFaithful(cfg: Config, inputs: seq<Input>)
    requires cfg.maxAlerts >= 1 && FreshIds(inputs) && NeverDrops(cfg, inputs)
    ensures Faithful(cfg, inputs, Run(cfg, inputs))
  {
    hide Filed, AllAgree, IdsFromRun, NeverDrops, AlwaysAgree;
    RunIsFiled(cfg, inputs);
    AlertsAgreeExactlyWhenNothingDrops(cfg, inputs);
    AgreesNow(cfg, inputs);
    IdsStayUnique(cfg, inputs);
  }

  /** In particular when every detection may take the place of the one it displaces, step by step. */
  lemma {:induction false} SafeRunNeverDrops(cfg: Config, inputs: seq<Input>)
    requires cfg.maxAlerts >= 1 && AlwaysSafe(cfg, inputs)
    ensures NeverDrops(cfg, inputs)
  {
    hide Drops, SafeAddition, Bucket, SubjectOf, AlwaysAgree;
    if inputs == [] {
    } else {
      SafeRunNeverDrops(cfg, Front(inputs));
      if Last(inputs).Detected? {
        RunIsFiled(cfg, Front(inputs));
        AlertsAgreeExactlyWhenNothingDrops(cfg, Front(inputs));
        AgreesNow(cfg, Front(inputs));
        SafeStepDoesNotDrop(cfg, Run(cfg, Front(inputs)), Last(inputs).d);
      }
    }
  }

  lemma SafeStepDoesNotDrop(cfg: Config, s: Store, d: Detection)
    requires Coherent(s) && AllAgree(cfg, s) && SafeAddition(Bucket(s, SubjectOf(d)), d)
    ensures !Drops(cfg, s, d)
  {
    hide Score, SafeAddition, SubjectOf;
    SafeAdditionNeverLowers(Bucket(s, SubjectOf(d)), d);
    if SubjectOf(d) in s.alerts {
      assert SubjectOf(d) in s.buckets && Agrees(cfg, s, SubjectOf(d));
    }
  }

  lemma SafeRunIsFaithful(cfg: Config, inputs: seq<Input>)
    requires cfg.maxAlerts >= 1 && FreshIds(inputs) && AlwaysSafe(cfg, inputs)
    ensures Faithful(cfg, inputs, Run(cfg, inputs))
  {
    hide *;
    SafeRunNeverDrops(cfg, inputs);
    RunIsFaithful(cfg, inputs);
  }

  /** And so whenever all rules keep to the hypothesis of scoring. */
  lemma {:induction false} DisciplinedRunIsSafe(cfg: Config, inputs: seq<Input>)
    requires cfg.maxAlerts >= 1 && Disciplined(inputs)
    ensures AlwaysSafe(cfg, inputs)
  {
    hide SafeAddition, Bucket, SubjectOf, Run;
    if inputs == [] {
    } else {
      forall i | 0 <= i < |Front(inputs)| ensures Front(inputs)[i] == inputs[i] { }
      DisciplinedRunIsSafe(cfg, Front(inputs));
      if Last(inputs).Detected? {
        RunIsFiled(cfg, Front(inputs));
        BucketIsCompatible(cfg, inputs, Last(inputs).d);
        CompatibleIsSafe(Bucket(Run(cfg, Front(inputs)), SubjectOf(Last(inputs).d)), Last(inputs).d);
      }
    }
  }

  /** While no more subjects have turned up than fit, nothing about any of them is forgotten. */
  lemma {:induction false} NothingForgotten(cfg: Config, inputs: seq<Input>, key: Subject)
    requires cfg.maxAlerts >= 1
    requires |Recency(Subjects(inputs))| <= cfg.maxAlerts
    ensures Bucket(Run(cfg, inputs), key) == DetectionsOf(inputs, key)
  {
    hide Score, StableSort, Step, Filed, Recency, SubjectOf, Bucket, DetectionsOf;
    if inputs == [] {
      NothingYet(cfg, key);
    } else {
      var i := Last(inputs);
      RunIsFiled(cfg, Front(inputs));
      RunIsFiled(cfg, inputs);
      RecencyGrows(Subjects(Front(inputs)), if i.Detected? then [SubjectOf(i.d)] else []);
      NothingForgotten(cfg, Front(inputs), key);
      NothingForgottenNow(cfg, inputs, key);
    }
  }

  lemma NothingYet(cfg: Config, key: Subject)
    ensures Bucket(Run(cfg, []), key) == DetectionsOf([], key)
  {
  }

  lemma NothingForgottenNow(cfg: Config, inputs: seq<Input>, key: Subject)
    requires cfg.maxAlerts >= 1 && inputs != []
    requires Filed(cfg, inputs, Run(cfg, inputs)) && Filed(cfg, Front(inputs), Run(cfg, Front(inputs)))
    requires |Recency(Subjects(inputs))| <= cfg.maxAlerts && |Recency(Subjects(Front(inputs)))| <= cfg.maxAlerts
    requires Bucket(Run(cfg, Front(inputs)), key) == DetectionsOf(Front(inputs), key)
    ensures Bucket(Run(cfg, inputs), key) == DetectionsOf(inputs, key)
  {
    hide Score, StableSort, Handled, StatusChanged, Recency, SubjectOf, Filed, Bucket, Subjects, DetectionsOf;
    match Last(inputs)
    case Detected(d, at, freshId) =>
      AllKept(cfg, inputs, key);
      AllKept(cfg, Front(inputs), key);
      FiledIsCoherent(cfg, Front(inputs), Run(cfg, Front(inputs)));
      DetectionForgetsNothing(cfg, inputs, d, at, freshId, key);
    case StatusSet(alertId, status, at) =>
      StatusForgetsNothing(cfg, inputs, key);
  }

  lemma StatusForgetsNothing(cfg: Config, inputs: seq<Input>, key: Subject)
    requires inputs != [] && Last(inputs).StatusSet?
    ensures Bucket(Run(cfg, inputs), key) == Bucket(Run(cfg, Front(inputs)), key)
    ensures DetectionsOf(inputs, key) == DetectionsOf(Front(inputs), key)
  {
    hide StatusChanged;
    var i := Last(inputs);
    StatusChangeIsLocal(Run(cfg, Front(inputs)), i.alertId, i.status, i.at);
  }

  lemma DetectionForgetsNothing(cfg: Config, inputs: seq<Input>, d: Detection, at: Time, freshId: nat, key: Subject)
    requires cfg.maxAlerts >= 1 && inputs != [] && Last(inputs) == Detected(d, at, freshId)
    requires Coherent(Run(cfg, Front(inputs)))
    requires key in Run(cfg, inputs).buckets <==> key in Subjects(inputs)
    requires key in Run(cfg, Front(inputs)).buckets <==> key in Subjects(Front(inputs))
    requires Bucket(Run(cfg, Front(inputs)), key) == DetectionsOf(Front(inputs), key)
    ensures Bucket(Run(cfg, inputs), key) == DetectionsOf(inputs, key)
  {
    hide Score, StableSort, Handled, Coherent, SubjectOf, AlertOn, BuildAlert;
    HandledKeeps(cfg, Run(cfg, Front(inputs)), d, at, freshId);
    assert key in Subjects(inputs) <==> key in Subjects(Front(inputs)) || key == SubjectOf(d);
  }

  lemma RecencyGrows(touched: seq<Subject>, more: seq<Subject>)
    requires |more| <= 1
    ensures |Recency(touched)| <= |Recency(touched + more)|
  {
    if more == [] {
      assert touched + more == touched;
    } else {
      RecencyStep(touched, more[0]);
      RecencyMembers(touched);
      assert more == [more[0]];
      var all := Recency(touched);
      RemoveDistinct(all, more[0]);
      if more[0] !in all { RemoveAbsent(all, more[0]); }
    }
  }

  lemma AllKept(cfg: Config, inputs: seq<Input>, key: Subject)
    requires Filed(cfg, inputs, Run(cfg, inputs)) && |Recency(Subjects(inputs))| <= cfg.maxAlerts
    ensures key in Run(cfg, inputs).buckets <==> key in Subjects(inputs)
  {
    RecencyMembers(Subjects(inputs));
  }

  /** Across a detection an existing alert keeps its id, creation time and status; a new one is NEW and begins now. */
  lemma IdentityIsStable(cfg: Config, s: Store, d: Detection, at: Time, freshId: nat)
    requires Coherent(s) && cfg.maxAlerts >= 1
    ensures var (s', emitted) := Handled(cfg, s, d, at, freshId);
            var key := SubjectOf(d);
            && (emitted.Some? <==> Score(Bucket(s, key) + [d]).score >= cfg.threshold)
            && (emitted.Some? ==>
                  && AlertOn(s', key) == emitted && emitted.value.updatedAt == at
                  && emitted.value.processKey == d.processKey && emitted.value.risk == Score(Bucket(s, key) + [d]))
            && (emitted.Some? && key in s.alerts ==>
                  && emitted.value.id == s.alerts[key].id
                  && emitted.value.createdAt == s.alerts[key].createdAt
                  && emitted.value.status == s.alerts[key].status
                  && s'.raised == s.raised)
            && (emitted.Some? && key !in s.alerts ==>
                  && emitted.value.id == freshId && emitted.value.createdAt == at && emitted.value.status == NEW
                  && s'.raised == s.raised + 1)
  {
    hide Score, StableSort, Recorded;
    RecordedKeeps(cfg, s, d);
    RecordedKeepsCount(cfg, s, d);
    assert AlertOn(s, SubjectOf(d)) == AlertOn(Recorded(cfg, s, d), SubjectOf(d));
  }

  lemma RecordedKeepsCount(cfg: Config, s: Store, d: Detection)
    ensures Recorded(cfg, s, d).raised == s.raised
  {
    if SubjectOf(d) !in s.buckets {
      EvictKeepsCount(s.(order := s.order + [SubjectOf(d)], buckets := s.buckets[SubjectOf(d) := []]), cfg.maxAlerts);
    }
  }

  lemma {:induction false} EvictKeepsCount(s: Store, max: nat)
    ensures Evict(s, max).raised == s.raised
    decreases |s.order|
  {
    if |s.order| > max {
      var oldest := s.order[0];
      EvictKeepsCount(s.(order := s.order[1..], buckets := s.buckets - {oldest}, alerts := s.alerts - {oldest}), max);
    }
  }

  /** Without disciplined rules the invariant fails: this alert shows 39 while its evidence scores 20. */
  lemma UndisciplinedRuleLeavesStaleAlert(cfg: Config, d: Detection, e: Detection)
    requires cfg == Config(30, cfg.maxAlerts) && cfg.maxAlerts >= 1
    requires SubjectOf(d) == SubjectOf(e) && d.ruleId == e.ruleId && d.category == e.category
    requires d.score == 39 && d.confidence == HIGH && e.score == 40 && e.confidence == LOW
    ensures var s := Run(cfg, [Detected(d, 0, 1), Detected(e, 0, 2)]);
            var key := SubjectOf(d);
            key in s.alerts && s.alerts[key].risk.score == 39 && key in s.buckets && Score(s.buckets[key]).score == 20
  {
    hide Score, StableSort, Handled;
    var inputs := [Detected(d, 0, 1), Detected(e, 0, 2)];
    var first := [Detected(d, 0, 1)];
    IncompatibleRuleLowersScore(d, e);
    assert Front(inputs) == first && Front(first) == [];
    var empty := Run(cfg, []);
    var once := Run(cfg, first);
    HandledKeeps(cfg, empty, d, 0, 1);
    assert once == Handled(cfg, empty, d, 0, 1).0;
    assert Bucket(once, SubjectOf(d)) == [d];
    HandledKeeps(cfg, once, e, 0, 2);
    assert Run(cfg, inputs) == Handled(cfg, once, e, 0, 2).0;
    assert [d] + [e] == [d, e];
    assert AlertOn(Run(cfg, inputs), SubjectOf(d)) == AlertOn(once, SubjectOf(d));
  }

  // ---- subjects in plain terms -----------------------------------------------------------------------------

  /** About the same process; or about no process and the same executable; or about neither, by the same rule. */
  predicate SameSubject(d: Detection, e: Detection) {
    if d.processKey.Some? || e.processKey.Some? then d.processKey == e.processKey
    else if d.exe !in {None, Some("")} || e.exe !in {None, Some("")} then d.exe == e.exe
    else d.ruleId == e.ruleId
  }

  lemma SubjectsDiffer(d: Detection, e: Detection)
    ensures SubjectOf(d) == SubjectOf(e) <==> SameSubject(d, e)
  {
  }

  /** The detections of a run about what d is about, in order of arrival. */
  function DetectionsLike(inputs: seq<Input>, d: Detection): seq<Detection> {
    if inputs == [] then []
    else
      var i := Last(inputs);
      DetectionsLike(Front(inputs), d) + if i.Detected? && SameSubject(i.d, d) then [i.d] else []
  }

  /** The detections of a run that name process p, in order of arrival. */
  function DetectionsNaming(inputs: seq<Input>, p: ProcessKey): seq<Detection> {
    if inputs == [] then []
    else
      var i := Last(inputs);
      DetectionsNaming(Front(inputs), p) + if i.Detected? && i.d.processKey == Some(p) then [i.d] else []
  }

  lemma {:induction false} LikeIsOfSubject(inputs: seq<Input>, d: Detection)
    ensures DetectionsOf(inputs, SubjectOf(d)) == DetectionsLike(inputs, d)
    ensures d.processKey.Some? ==> DetectionsLike(inputs, d) == DetectionsNaming(inputs, d.processKey.value)
  {
    hide SubjectOf;
    if inputs == [] {
    } else {
      LikeIsOfSubject(Front(inputs), d);
      if Last(inputs).Detected? { SubjectsDiffer(Last(inputs).d, d); }
    }
  }

  lemma {:induction false} OfTheirSubject(inputs: seq<Input>, key: Subject)
    ensures forall d :: d in DetectionsOf(inputs, key) ==> SubjectOf(d) == key
  {
    if inputs == [] {
    } else {
      OfTheirSubject(Front(inputs), key);
    }
  }

  lemma RetainedIsOfItsSubject(cfg: Config, inputs: seq<Input>, k: Subject, d: Detection)
    requires cfg.maxAlerts >= 1 && k in Run(cfg, inputs).buckets && d in Run(cfg, inputs).buckets[k]
    ensures SubjectOf(d) == k
    ensures SuffixOf(Run(cfg, inputs).buckets[k], DetectionsOf(inputs, k))
  {
    hide Run, Coherent, Retained, SubjectOf, Recency, LastN;
    RunIsFiled(cfg, inputs);
    OfTheirSubject(inputs, k);
    assert d in DetectionsOf(inputs, k);
  }

  /** Over every run, two retained detections are filed together exactly when they are about the same subject. */
  lemma FiledTogetherExactlyWhen(cfg: Config, inputs: seq<Input>, k: Subject, l: Subject, d: Detection, e: Detection)
    requires cfg.maxAlerts >= 1
    requires k in Run(cfg, inputs).buckets && d in Run(cfg, inputs).buckets[k]
    requires l in Run(cfg, inputs).buckets && e in Run(cfg, inputs).buckets[l]
    ensures k == l <==> SameSubject(d, e)
  {
    hide Run, SubjectOf, SameSubject;
    RetainedIsOfItsSubject(cfg, inputs, k, d);
    RetainedIsOfItsSubject(cfg, inputs, l, e);
    SubjectsDiffer(d, e);
  }

  /**
   * What is filed with a detection is the latest of all detections about its subject without a gap, and all of
   * them while no more subjects have turned up than fit; for a detection that names a process, those naming it.
   */
  lemma FiledWith(cfg: Config, inputs: seq<Input>, k: Subject, d: Detection)
    requires cfg.maxAlerts >= 1
    requires k in Run(cfg, inputs).buckets && d in Run(cfg, inputs).buckets[k]
    ensures var bucket := Run(cfg, inputs).buckets[k];
            && SuffixOf(bucket, DetectionsLike(inputs, d))
            && (d.processKey.Some? ==> SuffixOf(bucket, DetectionsNaming(inputs, d.processKey.value)))
            && (|Recency(Subjects(inputs))| <= cfg.maxAlerts ==> bucket == DetectionsLike(inputs, d))
  {
    hide Run, SubjectOf, SameSubject, Recency, DetectionsOf;
    RetainedIsOfItsSubject(cfg, inputs, k, d);
    LikeIsOfSubject(inputs, d);
    if |Recency(Subjects(inputs))| <= cfg.maxAlerts { NothingForgotten(cfg, inputs, k); }
  }

  /** The newest detection is always filed, whatever has been forgotten. */
  lemma NewestIsFiled(cfg: Config, inputs: seq<Input>)
    requires cfg.maxAlerts >= 1 && inputs != [] && Last(inputs).Detected?
    ensures exists k :: k in Run(cfg, inputs).buckets && Last(inputs).d in Run(cfg, inputs).buckets[k]
  {
    hide Handled, Score, SubjectOf;
    var Detected(d, at, freshId) := Last(inputs);
    var s := Run(cfg, Front(inputs));
    RunIsFiled(cfg, Front(inputs));
    FiledIsCoherent(cfg, Front(inputs), s);
    HandledKeeps(cfg, s, d, at, freshId);
    var bucket := Run(cfg, inputs).buckets[SubjectOf(d)];
    assert bucket[|bucket| - 1] == d;
  }

  /** What an alert shows: one subject and its process, the strongest detection first. */
  ghost predicate ShowsOneSubject(a: Alert) {
    && a.detections != []
    && (forall d, e :: d in a.detections && e in a.detections ==> SameSubject(d, e))
    && (forall d :: d in a.detections ==> d.processKey == a.processKey)
    && (forall i, j :: 0 <= i < j < |a.detections| ==> a.detections[i].score >= a.detections[j].score)
  }

  lemma HigherScoreIsTotal()
    ensures TotalPreorder(HigherScore)
  {
  }

  lemma BuiltAlertShows(d: Detection, bucket: seq<Detection>, existing: Option<Alert>, now: Time, freshId: nat)
    requires d in bucket && forall e :: e in bucket ==> SubjectOf(e) == SubjectOf(d)
    ensures ShowsOneSubject(BuildAlert(d, bucket, existing, now, freshId))
  {
    hide Score, StableSort, SubjectOf, SameSubject;
    var shown := StableSort(bucket, HigherScore);
    HigherScoreIsTotal();
    StableSortSorted(bucket, HigherScore);
    SortMembers(bucket, HigherScore);
    forall e, f | e in shown && f in shown ensures SameSubject(e, f) { SubjectsDiffer(e, f); }
    forall e | e in shown ensures e.processKey == d.processKey {
      SubjectsDiffer(e, d);
      SameProcess(e, d);
    }
  }

  lemma SameProcess(d: Detection, e: Detection)
    requires SameSubject(d, e)
    ensures d.processKey == e.processKey
  {
  }

  lemma HandledShows(cfg: Config, inputs: seq<Input>, k: Subject)
    requires cfg.maxAlerts >= 1 && inputs != [] && Last(inputs).Detected?
    requires forall l :: l in Run(cfg, Front(inputs)).alerts ==> ShowsOneSubject(Run(cfg, Front(inputs)).alerts[l])
    requires k in Run(cfg, inputs).alerts
    ensures ShowsOneSubject(Run(cfg, inputs).alerts[k])
  {
    hide Handled, Score, SubjectOf, ShowsOneSubject, BuildAlert, Filed;
    var Detected(d, at, freshId) := Last(inputs);
    var s, s' := Run(cfg, Front(inputs)), Run(cfg, inputs);
    RunIsFiled(cfg, Front(inputs));
    FiledIsCoherent(cfg, Front(inputs), s);
    HandledKeeps(cfg, s, d, at, freshId);
    assert AlertOn(s', k) == Some(s'.alerts[k]);
    if AlertOn(s', k) != AlertOn(s, k) {
      var bucket := s'.buckets[k];
      forall e | e in bucket ensures SubjectOf(e) == SubjectOf(d) { RetainedIsOfItsSubject(cfg, inputs, k, e); }
      assert bucket[|bucket| - 1] == d;
      BuiltAlertShows(d, bucket, AlertOn(s, k), at, freshId);
    }
  }

  /** Over every run, every alert is about one subject and names the process of all the detections it shows. */
  lemma {:induction false} AlertsShowOneSubject(cfg: Config, inputs: seq<Input>)
    requires cfg.maxAlerts >= 1
    ensures forall k :: k in Run(cfg, inputs).alerts ==> ShowsOneSubject(Run(cfg, inputs).alerts[k])
  {
    hide Handled, StatusChanged, SameSubject;
    if inputs == [] {
    } else {
      AlertsShowOneSubject(cfg, Front(inputs));
      match Last(inputs)
      case Detected(d, at, freshId) =>
        forall k | k in Run(cfg, inputs).alerts ensures ShowsOneSubject(Run(cfg, inputs).alerts[k]) {
          HandledShows(cfg, inputs, k);
        }
      case StatusSet(alertId, status, at) =>
        StatusChangeIsLocal(Run(cfg, Front(inputs)), alertId, status, at);
    }
  }
}
