/**
 * One periodic task and its health, src/threatlens/core/scheduler.py: the task's own thread, the watchdog
 * and the shutdown interleave between any two lock-protected blocks. Times are microseconds.
 */
module TaskRunner {
  import opened Collections

  const UNAVAILABLE_AFTER_FAILURES: nat := 3

  datatype Status = STARTING | OK | DEGRADED | UNAVAILABLE | TIMED_OUT | STOPPED

  datatype Health = Health(status: Status, runs: nat, failures: nat, consecutive: nat)

  /** The task thread: between runs, in the task, holding the health it read, or about to end the run. */
  datatype Phase = Between | InTask | Recording(failed: bool, previous: Health) | Ending

  /** The watchdog thread: between checks, or holding what it read. */
  datatype Watch = Away | Saw(started: Option<int>, status: Status)

  datatype Transition = Transition(before: Status, after: Status)

  /**
   * The last four fields are history: when each run began and how it ended, the number of the run whose
   * start the watchdog last read, and what it last flagged: which run, and when.
   */
  datatype Runner = Runner(
    timeout: int,
    runningSince: Option<int>,
    health: Health,
    phase: Phase,
    watch: Watch,
    transitions: seq<Transition>,
    starts: seq<int>,
    outcomes: seq<bool>,
    sawRun: int,
    flagged: Option<Flag>)

  datatype Flag = Flag(run: int, at: int)

  datatype Action =
    | Begin(now: int)
    | TaskEnded(failed: bool)
    | Record
    | End
    | WatchRead
    | WatchAct(now: int)
    | MarkStopped

  function Initial(timeout: int): Runner {
    Runner(timeout, None, Health(STARTING, 0, 0, 0), Between, Away, [], [], [], 0, None)
  }

  function StatusAfter(consecutive: nat): Status {
    if consecutive == 0 then OK
    else if consecutive < UNAVAILABLE_AFTER_FAILURES then DEGRADED
    else UNAVAILABLE
  }

  /** _update: the new health, with a transition reported when the status changed. */
  function Updated(r: Runner, h: Health): Runner {
    r.(health := h,
       transitions := if h.status == r.health.status then r.transitions
                      else r.transitions + [Transition(r.health.status, h.status)])
  }

  /** The counters come from the health read before; only the status may have changed since. */
  function Recorded(r: Runner, failed: bool, previous: Health): Runner {
    var consecutive := if failed then previous.consecutive + 1 else 0;
    Updated(r, r.health.(status := StatusAfter(consecutive),
                         runs := previous.runs + 1,
                         failures := if failed then previous.failures + 1 else r.health.failures,
                         consecutive := consecutive))
      .(phase := Ending, outcomes := r.outcomes + [failed])
  }

  /** The second half of check_timeout finds the run it read too long. */
  predicate Fires(r: Runner, now: int) {
    r.watch.Saw? && r.watch.started.Some? && r.watch.status != TIMED_OUT && now - r.watch.started.value > r.timeout
  }

  function Step(r: Runner, a: Action): Runner {
    match a
    case Begin(now) =>
      if r.phase == Between then r.(runningSince := Some(now), phase := InTask, starts := r.starts + [now]) else r
    case TaskEnded(failed) => if r.phase == InTask then r.(phase := Recording(failed, r.health)) else r
    case Record => if r.phase.Recording? then Recorded(r, r.phase.failed, r.phase.previous) else r
    case End => if r.phase == Ending then r.(runningSince := None, phase := Between) else r
    case WatchRead =>
      if r.watch == Away then r.(watch := Saw(r.runningSince, r.health.status), sawRun := |r.starts| - 1) else r
    case WatchAct(now) =>
      if Fires(r, now)
      then Updated(r, r.health.(status := TIMED_OUT)).(watch := Away, flagged := Some(Flag(r.sawRun, now)))
      else r.(watch := Away)
    case MarkStopped => Updated(r, r.health.(status := STOPPED))
  }

  function Run(timeout: int, actions: seq<Action>): Runner {
    if actions == [] then Initial(timeout) else Step(Run(timeout, Front(actions)), Last(actions))
  }

  // ---- the runner object -----------------------------------------------------------------------------------

  class TaskRunner {
    const timeout: int
    var runningSince: Option<int>
    var health: Health
    var phase: Phase
    var watch: Watch
    ghost var transitions: seq<Transition>
    ghost var starts: seq<int>
    ghost var outcomes: seq<bool>
    ghost var sawRun: int
    ghost var flagged: Option<Flag>

    ghost function State(): Runner
      reads this
    {
      Runner(timeout, runningSince, health, phase, watch, transitions, starts, outcomes, sawRun, flagged)
    }

    constructor (timeout: int)
      ensures State() == Initial(timeout)
    {
      this.timeout := timeout;
      runningSince, health, phase, watch := None, Health(STARTING, 0, 0, 0), Between, Away;
      transitions, starts, outcomes, sawRun, flagged := [], [], [], 0, None;
    }

    method Start(now: int)
      requires phase == Between
      modifies this
      ensures State() == Step(old(State()), Begin(now))
    {
      runningSince := Some(now);
      phase := InTask;
      starts := starts + [now];
    }

    method ReadHealth(failed: bool)
      requires phase == InTask
      modifies this
      ensures State() == Step(old(State()), TaskEnded(failed))
    {
      phase := Recording(failed, health);
    }

    method RecordSuccess(previous: Health)
      requires phase == Recording(false, previous)
      modifies this
      ensures State() == Step(old(State()), Record)
    {
      outcomes := outcomes + [false];
      Update(health.(status := OK, runs := previous.runs + 1, consecutive := 0));
      phase := Ending;
    }

    method RecordFailure(previous: Health)
      requires phase == Recording(true, previous)
      modifies this
      ensures State() == Step(old(State()), Record)
    {
      var n := previous.consecutive + 1;
      var status := if n < UNAVAILABLE_AFTER_FAILURES then DEGRADED else UNAVAILABLE;
      outcomes := outcomes + [true];
      Update(health.(status := status, runs := previous.runs + 1, failures := previous.failures + 1, consecutive := n));
      phase := Ending;
    }

    method Finish()
      requires phase == Ending
      modifies this
      ensures State() == Step(old(State()), End)
    {
      runningSince := None;
      phase := Between;
    }

    /** The two halves of check_timeout; the lock is free between them. */
    method CheckRead()
      requires watch == Away
      modifies this
      ensures State() == Step(old(State()), WatchRead)
    {
      watch := Saw(runningSince, health.status);
      sawRun := |starts| - 1;
    }

    method CheckAct(now: int)
      requires watch.Saw?
      modifies this
      ensures State() == Step(old(State()), WatchAct(now))
    {
      var started, status := watch.started, watch.status;
      watch := Away;
      if started.None? || status == TIMED_OUT {
        return;
      }
      var elapsed := now - started.value;
      if elapsed > timeout {
        Update(health.(status := TIMED_OUT));
        flagged := Some(Flag(sawRun, now));
      }
    }

    method Stop()
      modifies this
      ensures State() == Step(old(State()), MarkStopped)
    {
      Update(health.(status := STOPPED));
    }

    method Update(h: Health)
      modifies this`health, this`transitions
      ensures State() == Updated(old(State()), h)
    {
      if health.status != h.status {
        transitions := transitions + [Transition(health.status, h.status)];
      }
      health := h;
    }
  }

  // ---- the books -------------------------------------------------------------------------------------------

  function Failures(outcomes: seq<bool>): nat {
    if outcomes == [] then 0 else Failures(Front(outcomes)) + if Last(outcomes) then 1 else 0
  }

  /** The transitions form an unbroken path between two statuses, and each of them changes something. */
  ghost predicate Path(from: Status, transitions: seq<Transition>, to: Status) {
    if transitions == [] then from == to
    else
      && Last(transitions).after == to
      && Last(transitions).before != to
      && Path(from, Front(transitions), Last(transitions).before)
  }

  predicate SameCounters(a: Health, b: Health) {
    a.runs == b.runs && a.failures == b.failures && a.consecutive == b.consecutive
  }

  /** A run that has not recorded its outcome yet. */
  predicate RunInProgress(r: Runner) {
    r.phase == InTask || r.phase.Recording?
  }

  predicate ReadStart(r: Runner, run: int, start: int) {
    0 <= run < |r.starts| && r.starts[run] == start
  }

  /** At a moment, a run has lasted longer than the timeout. */
  predicate Overdue(r: Runner, run: int, at: int) {
    0 <= run < |r.starts| && at - r.starts[run] > r.timeout
  }

  ghost predicate Invariant(r: Runner) {
    var h := r.health;
    && h.runs == |r.outcomes|
    && h.failures == Failures(r.outcomes)
    && h.consecutive == Trailing(r.outcomes)
    && (h.status == STARTING ==> r.outcomes == [])
    && (h.status == OK ==> r.outcomes != [] && h.consecutive == 0)
    && (h.status == DEGRADED ==> r.outcomes != [] && 1 <= h.consecutive <= 2)
    && (h.status == UNAVAILABLE ==> r.outcomes != [] && h.consecutive >= 3)
    && |r.starts| == |r.outcomes| + (if RunInProgress(r) then 1 else 0)
    && (r.phase == Between ==> r.runningSince == None)
    && (r.phase != Between ==> r.starts != [] && r.runningSince == Some(Last(r.starts)))
    && (r.watch.Saw? && r.watch.started.Some? ==> ReadStart(r, r.sawRun, r.watch.started.value))
    && (r.health.status == TIMED_OUT ==> r.flagged.Some? && Overdue(r, r.flagged.value.run, r.flagged.value.at))
    && (r.phase.Recording? ==> SameCounters(r.phase.previous, h))
    && Path(STARTING, r.transitions, h.status)
  }

  lemma PathGrows(r: Runner, h: Health)
    requires Path(STARTING, r.transitions, r.health.status)
    ensures Path(STARTING, Updated(r, h).transitions, h.status)
  {
    assert Front(r.transitions + [Transition(r.health.status, h.status)]) == r.transitions;
  }

  lemma OneMoreOutcome(outcomes: seq<bool>, failed: bool)
    ensures Failures(outcomes + [failed]) == Failures(outcomes) + (if failed then 1 else 0)
    ensures Trailing(outcomes + [failed]) == if failed then Trailing(outcomes) + 1 else 0
  {
    assert Front(outcomes + [failed]) == outcomes;
  }

  lemma StepKeeps(r: Runner, a: Action)
    requires Invariant(r)
    ensures Invariant(Step(r, a))
  {
    hide Path, Failures, Trailing;
    match a
    case Record =>
      if r.phase.Recording? {
        OneMoreOutcome(r.outcomes, r.phase.failed);
        PathGrows(r, Recorded(r, r.phase.failed, r.phase.previous).health);
      }
    case WatchAct(now) => PathGrows(r, r.health.(status := TIMED_OUT));
    case MarkStopped => PathGrows(r, r.health.(status := STOPPED));
    case _ =>
  }

  /**
   * Under every interleaving of a task, the watchdog and the shutdown: runs are successes plus failures,
   * the consecutive count is the current trailing run of failures, a status of OK, DEGRADED or UNAVAILABLE
   * is the one that count calls for, and the reported transitions lead from STARTING to the present status.
   */
  lemma {:induction false} InvariantHolds(timeout: int, actions: seq<Action>)
    ensures Invariant(Run(timeout, actions))
  {
    hide Invariant, Step;
    if actions == [] {
      assert Invariant(Initial(timeout)) by { InitHolds(timeout); }
    } else {
      InvariantHolds(timeout, Front(actions));
      StepKeeps(Run(timeout, Front(actions)), Last(actions));
    }
  }

  lemma InitHolds(timeout: int)
    ensures Invariant(Initial(timeout))
  {
  }

  // ---- what TIMED_OUT says -----------------------------------------------------------------------------------

  /** The present run is the one flagged, and it has not recorded its outcome yet. */
  predicate Honest(r: Runner) {
    r.health.status == TIMED_OUT ==> RunInProgress(r) && r.flagged.Some? && r.flagged.value.run == |r.outcomes|
  }

  /** When the watchdog flags a timeout, the very run whose start it read is still in progress. */
  predicate Timely(r: Runner, a: Action) {
    a.WatchAct? && Fires(r, a.now) ==> RunInProgress(r) && r.sawRun == |r.outcomes|
  }

  ghost predicate AlwaysHonest(timeout: int, actions: seq<Action>) {
    Honest(Run(timeout, actions)) && (actions != [] ==> AlwaysHonest(timeout, Front(actions)))
  }

  ghost predicate AlwaysTimely(timeout: int, actions: seq<Action>) {
    actions == [] || (AlwaysTimely(timeout, Front(actions)) && Timely(Run(timeout, Front(actions)), Last(actions)))
  }

  /**
   * TIMED_OUT is shown only while the run it was meant for is in progress, exactly if the watchdog never
   * acts on a run that has recorded its outcome since the watchdog looked.
   */
  lemma {:induction false} HonestExactlyWhenTimely(timeout: int, actions: seq<Action>)
    ensures AlwaysHonest(timeout, actions) <==> AlwaysTimely(timeout, actions)
  {
    hide Honest, Timely, Step;
    if actions == [] {
      assert Honest(Initial(timeout)) by { HonestAtFirst(timeout); }
    } else {
      HonestExactlyWhenTimely(timeout, Front(actions));
      if AlwaysHonest(timeout, Front(actions)) {
        HonestNow(timeout, Front(actions));
        HonestStep(Run(timeout, Front(actions)), Last(actions));
      }
    }
  }

  lemma HonestAtFirst(timeout: int)
    ensures Honest(Initial(timeout))
  {
  }

  lemma HonestNow(timeout: int, actions: seq<Action>)
    requires AlwaysHonest(timeout, actions)
    ensures Honest(Run(timeout, actions))
  {
  }

  lemma HonestStep(r: Runner, a: Action)
    requires Honest(r)
    ensures Honest(Step(r, a)) <==> Timely(r, a)
  {
  }

  /**
   * Then the promise is kept: while TIMED_OUT is shown, the present run is in progress, and it had lasted
   * longer than its timeout when it was flagged, so it has at any later time.
   */
  lemma TimedOutMeansOverdue(timeout: int, actions: seq<Action>)
    requires AlwaysTimely(timeout, actions) && Run(timeout, actions).health.status == TIMED_OUT
    ensures var r := Run(timeout, actions);
            && RunInProgress(r) && r.flagged.Some?
            && forall at :: at >= r.flagged.value.at ==> Overdue(r, |r.outcomes|, at)
  {
    hide Run, AlwaysHonest, AlwaysTimely, Path;
    HonestExactlyWhenTimely(timeout, actions);
    HonestNow(timeout, actions);
    InvariantHolds(timeout, actions);
  }

  /** Nothing prevents the other case: the watchdog looks, the run succeeds, and the watchdog flags it afterwards. */
  lemma TimedOutWithoutARun(timeout: int)
    requires timeout >= 0
    ensures var r := Run(timeout, [Begin(0), WatchRead, TaskEnded(false), Record, End, WatchAct(timeout + 1)]);
            r.health.status == TIMED_OUT && r.runningSince == None && r.outcomes == [false] && !RunInProgress(r)
  {
    hide Step, Run, RunInProgress;
    var t := [Begin(0), WatchRead, TaskEnded(false), Record, End];
    LookedAndEnded(timeout);
    OneStep(timeout, t, WatchAct(timeout + 1));
    assert t + [WatchAct(timeout + 1)] == [Begin(0), WatchRead, TaskEnded(false), Record, End, WatchAct(timeout + 1)];
    FlagAfterEnd(timeout);
  }

  /** Or the flag falls on the next run, healthy and only just begun. */
  lemma TimedOutOnAHealthyRun(timeout: int)
    requires timeout >= 0
    ensures var now := timeout + 1;
            var r := Run(timeout, [Begin(0), WatchRead, TaskEnded(false), Record, End, Begin(now), WatchAct(now)]);
            && r.health.status == TIMED_OUT && RunInProgress(r) && r.runningSince == Some(now)
            && r.flagged == Some(Flag(0, now)) && |r.outcomes| == 1
  {
    hide Step, Run, RunInProgress;
    var now := timeout + 1;
    var t := [Begin(0), WatchRead, TaskEnded(false), Record, End];
    var t' := t + [Begin(now)];
    LookedAndEnded(timeout);
    OneStep(timeout, t, Begin(now));
    OneStep(timeout, t', WatchAct(now));
    assert t' + [WatchAct(now)] == [Begin(0), WatchRead, TaskEnded(false), Record, End, Begin(now), WatchAct(now)];
    FlagAfterEnd(timeout);
  }

  /** The watchdog has read the start of a run that has since succeeded. */
  function StaleWatch(timeout: int): Runner {
    Runner(timeout, None, Health(OK, 1, 0, 0), Between, Saw(Some(0), STARTING), [Transition(STARTING, OK)],
           [0], [false], 0, None)
  }

  lemma FlagAfterEnd(timeout: int)
    requires timeout >= 0
    ensures var now := timeout + 1;
            var alone := Step(StaleWatch(timeout), WatchAct(now));
            var next := Step(Step(StaleWatch(timeout), Begin(now)), WatchAct(now));
            && alone.health.status == TIMED_OUT && alone.runningSince == None && alone.outcomes == [false]
            && !RunInProgress(alone)
            && next.health.status == TIMED_OUT && RunInProgress(next) && next.runningSince == Some(now)
            && next.flagged == Some(Flag(0, now)) && |next.outcomes| == 1
  {
  }

  lemma LookedAndEnded(timeout: int)
    ensures Run(timeout, [Begin(0), WatchRead, TaskEnded(false), Record, End]) == StaleWatch(timeout)
  {
    hide Step, Run;
    var t1 := [] + [Begin(0)];
    var t2 := t1 + [WatchRead];
    var t3 := t2 + [TaskEnded(false)];
    var t4 := t3 + [Record];
    OneStep(timeout, [], Begin(0));
    OneStep(timeout, t1, WatchRead);
    OneStep(timeout, t2, TaskEnded(false));
    OneStep(timeout, t3, Record);
    OneStep(timeout, t4, End);
    assert t4 + [End] == [Begin(0), WatchRead, TaskEnded(false), Record, End];
    FiveSteps(timeout);
  }

  lemma FiveSteps(timeout: int)
    ensures Step(Step(Step(Step(Step(Run(timeout, []), Begin(0)), WatchRead), TaskEnded(false)), Record), End)
            == StaleWatch(timeout)
  {
  }

  lemma OneStep(timeout: int, actions: seq<Action>, a: Action)
    ensures Run(timeout, actions + [a]) == Step(Run(timeout, actions), a)
  {
    assert Front(actions + [a]) == actions;
  }

  /**
   * And no overdue run is missed: a watchdog that looks while a task is running and acts before anything else happens
   * flags the run exactly when it has lasted longer than its timeout, unless TIMED_OUT is shown already.
   */
  lemma OverdueIsFlagged(timeout: int, actions: seq<Action>, now: int)
    requires var r := Run(timeout, actions); r.watch == Away && RunInProgress(r) && r.health.status != TIMED_OUT
    ensures var r, after := Run(timeout, actions), Run(timeout, actions + [WatchRead] + [WatchAct(now)]);
            && (after.health.status == TIMED_OUT <==> Overdue(r, |r.outcomes|, now))
            && (after.health.status == TIMED_OUT ==> after.flagged == Some(Flag(|r.outcomes|, now)))
            && (after.health.status != TIMED_OUT ==> after.health == r.health && after.flagged == r.flagged)
  {
    hide Run, Path, Failures, Trailing;
    InvariantHolds(timeout, actions);
    TimeoutStays(timeout, actions);
    OneStep(timeout, actions, WatchRead);
    OneStep(timeout, actions + [WatchRead], WatchAct(now));
  }

  lemma {:induction false} TimeoutStays(timeout: int, actions: seq<Action>)
    ensures Run(timeout, actions).timeout == timeout
  {
    if actions == [] {
    } else {
      TimeoutStays(timeout, Front(actions));
    }
  }

  /** Marking a runner stopped shows STOPPED and reports the transition once, and touches nothing else. */
  lemma StoppedIsShown(timeout: int, actions: seq<Action>)
    ensures var r, after := Run(timeout, actions), Run(timeout, actions + [MarkStopped]);
            && after.health == r.health.(status := STOPPED)
            && after.transitions ==
               r.transitions + (if r.health.status == STOPPED then [] else [Transition(r.health.status, STOPPED)])
  {
    hide Run;
    OneStep(timeout, actions, MarkStopped);
  }

  // ---- the delay until the next run ----------------------------------------------------------------------------

  function PowerOfTwo(n: nat): real {
    if n == 0 then 1.0 else 2.0 * PowerOfTwo(n - 1)
  }

  function Ceiling(interval: real, maxBackoff: real): real {
    if maxBackoff >= interval then maxBackoff else interval
  }

  function Backoff(interval: real, maxBackoff: real, failures: nat): real {
    if failures == 0 then interval
    else
      var delay := interval * PowerOfTwo(failures);
      if delay < Ceiling(interval, maxBackoff) then delay else Ceiling(interval, maxBackoff)
  }

  lemma {:induction false} PowersGrow(m: nat, n: nat)
    requires m <= n
    ensures 1.0 <= PowerOfTwo(m) <= PowerOfTwo(n)
    decreases n
  {
    if m < n {
      PowersGrow(m, n - 1);
    } else if m > 0 {
      PowersGrow(m - 1, n - 1);
    }
  }

  /** The delay never shrinks with more failures in a row, and stays between the interval and the maximum. */
  lemma BackoffIsMonotoneAndBounded(interval: real, maxBackoff: real, m: nat, n: nat)
    requires interval >= 0.0 && m <= n
    ensures interval <= Backoff(interval, maxBackoff, m)
    ensures Backoff(interval, maxBackoff, m) <= Backoff(interval, maxBackoff, n)
    ensures Backoff(interval, maxBackoff, n) <= Ceiling(interval, maxBackoff)
  {
    PowersGrow(m, n);
    assert interval * 1.0 <= interval * PowerOfTwo(m) <= interval * PowerOfTwo(n);
  }

  /** The delay starts at the interval and doubles with each failure up to the larger of interval and maximum. */
  lemma BackoffDoubles(interval: real, maxBackoff: real, failures: nat)
    requires interval >= 0.0
    ensures Backoff(interval, maxBackoff, 0) == interval
    ensures var ceiling := if interval < maxBackoff then maxBackoff else interval;
            var doubled := 2.0 * Backoff(interval, maxBackoff, failures);
            Backoff(interval, maxBackoff, failures + 1) == if doubled < ceiling then doubled else ceiling
  {
    PowersGrow(0, failures);
    assert interval * 1.0 <= interval * PowerOfTwo(failures);
    assert interval * PowerOfTwo(failures + 1) == 2.0 * (interval * PowerOfTwo(failures));
  }
}
