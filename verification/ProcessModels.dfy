/** Process instances and their identity. Times are whole microseconds since the Unix epoch. */
module ProcessModels {
  import opened Collections

  type Time = int

  datatype Signature = VALID | INVALID | UNSIGNED | UNKNOWN

  datatype FieldIssue = ACCESS_DENIED | PROCESS_EXITED | NOT_APPLICABLE | TOO_LARGE | ERROR

  /** PID and creation time in whole milliseconds; 0 stands for "no creation time". */
  datatype ProcessKey = ProcessKey(pid: nat, millis: int)

  datatype ProcessInfo = ProcessInfo(
    pid: nat,
    ppid: Option<nat>,
    createTime: Option<Time>,
    exe: Option<string>,
    suspended: Option<bool>,
    sha256: Option<string>,
    signature: Option<Signature>,
    unavailable: map<string, FieldIssue>)
  {
    function Key(): ProcessKey {
      ProcessKey(pid, if createTime.None? then 0 else Millis(createTime.value))
    }

    /** The sort stamp of the source: the creation time, 0 when it is unknown. */
    function Stamp(): Time {
      if createTime.None? then 0 else createTime.value
    }
  }

  /** int(seconds * 1000) truncates toward zero. */
  function Millis(t: Time): int {
    if t >= 0 then t / 1000 else -((-t) / 1000)
  }

  // ---- identity in plain terms ---------------------------------------------------------------------

  /** t lies in the m-th millisecond, counted away from the epoch. */
  predicate InMillisecond(t: Time, m: int) {
    if t >= 0 then 1000 * m <= t < 1000 * m + 1000 else 1000 * m - 1000 < t <= 1000 * m
  }

  lemma MillisecondIsUnique(t: Time, m: int)
    ensures InMillisecond(t, m) <==> Millis(t) == m
  {
  }

  /** The key is the PID with the millisecond of creation; an unknown time counts as the epoch. */
  lemma KeyMeaning(p: ProcessInfo, m: int)
    ensures p.Key() == ProcessKey(p.pid, m) <==>
            InMillisecond(if p.createTime.None? then 0 else p.createTime.value, m)
  {
  }

  /** Two records are the same instance exactly when PID and millisecond of creation agree. */
  lemma SameKeyExactlyWhen(p: ProcessInfo, q: ProcessInfo)
    ensures p.Key() == q.Key() <==>
            var s, t := (if p.createTime.None? then 0 else p.createTime.value),
                        (if q.createTime.None? then 0 else q.createTime.value);
            p.pid == q.pid && exists m :: InMillisecond(s, m) && InMillisecond(t, m)
  {
    KeyMeaning(p, p.Key().millis);
    KeyMeaning(q, p.Key().millis);
  }

  /** Known creation times, after the epoch as all of them are, and at least a millisecond apart. */
  predicate KnownApart(p: ProcessInfo, q: ProcessInfo) {
    && p.createTime.Some? && q.createTime.Some?
    && p.createTime.value > 0 && q.createTime.value > 0
    && (p.createTime.value + 1000 <= q.createTime.value || q.createTime.value + 1000 <= p.createTime.value)
  }

  /** A reused PID is told apart by the creation time. */
  lemma ApartMeansDifferent(p: ProcessInfo, q: ProcessInfo)
    requires KnownApart(p, q)
    ensures p.Key() != q.Key()
  {
    KeyMeaning(p, p.Key().millis);
    KeyMeaning(q, q.Key().millis);
  }

  /** p is known to have come into being before q. */
  predicate StrictlyOlder(p: ProcessInfo, q: ProcessInfo) {
    p.createTime.Some? && q.createTime.Some? && p.createTime.value < q.createTime.value
  }

  // ---- order and indexes ---------------------------------------------------------------------------

  /** The order used to list processes: creation time, then PID. */
  predicate Earlier(p: ProcessInfo, q: ProcessInfo) {
    p.Stamp() < q.Stamp() || (p.Stamp() == q.Stamp() && p.pid <= q.pid)
  }

  lemma EarlierIsTotal()
    ensures TotalPreorder(Earlier)
  {
  }

  ghost predicate DistinctKeys(ps: seq<ProcessInfo>) {
    forall i, j :: 0 <= i < j < |ps| ==> ps[i].Key() != ps[j].Key()
  }

  ghost function KeysOf(ps: seq<ProcessInfo>): set<ProcessKey> {
    set p | p in ps :: p.Key()
  }

  /** {p.pid: p for p in ps}: the last instance of a PID wins. */
  function ByPid(ps: seq<ProcessInfo>): (m: map<nat, ProcessInfo>)
    ensures forall pid :: pid in m ==> m[pid] in ps && m[pid].pid == pid
    ensures forall p :: p in ps ==> p.pid in m
  {
    if ps == [] then map[] else ByPid(Front(ps))[Last(ps).pid := Last(ps)]
  }

  /** {p.process_key: p for p in ps}. */
  function ByKey(ps: seq<ProcessInfo>): (m: map<ProcessKey, ProcessInfo>)
    ensures forall k :: k in m ==> m[k] in ps && m[k].Key() == k
    ensures forall p :: p in ps ==> p.Key() in m
  {
    if ps == [] then map[] else ByKey(Front(ps))[Last(ps).Key() := Last(ps)]
  }

  function PidOf(p: ProcessInfo): nat { p.pid }

  /** q is listed, and nobody with its PID is listed after it. */
  ghost predicate LastWithPid(ps: seq<ProcessInfo>, q: ProcessInfo) {
    IsLast(ps, q, PidOf)
  }

  lemma {:induction false} ByPidHoldsTheLast(ps: seq<ProcessInfo>, q: ProcessInfo)
    ensures q.pid in ByPid(ps) && ByPid(ps)[q.pid] == q <==> LastWithPid(ps, q)
  {
    hide IsLast;
    if ps == [] {
      NoLast(q, PidOf);
    } else {
      IsLastStep(ps, q, PidOf);
      ByPidHoldsTheLast(Front(ps), q);
    }
  }

  function KeyOf(p: ProcessInfo): ProcessKey { p.Key() }

  /** q is listed, and nobody with its key is listed after it. */
  ghost predicate LastWithKey(ps: seq<ProcessInfo>, q: ProcessInfo) {
    IsLast(ps, q, KeyOf)
  }

  lemma {:induction false} ByKeyHoldsTheLast(ps: seq<ProcessInfo>, q: ProcessInfo)
    ensures q.Key() in ByKey(ps) && ByKey(ps)[q.Key()] == q <==> LastWithKey(ps, q)
  {
    hide IsLast;
    if ps == [] {
      NoLast(q, KeyOf);
    } else {
      IsLastStep(ps, q, KeyOf);
      ByKeyHoldsTheLast(Front(ps), q);
    }
  }
}
