/**
 * The work queues of the enrichment worker, src/threatlens/core/enrichment.py. Each block under the
 * condition is one atomic step; a run is any sequence of steps, so all interleavings are covered.
 */
module EnrichmentQueue {
  import opened Collections
  import opened ProcessModels

  datatype Waiting = Waiting(
    capacity: nat,
    urgent: seq<ProcessKey>,
    inventory: seq<ProcessKey>,
    pending: set<ProcessKey>,
    stopping: bool,
    dropped: nat)

  datatype Answer = Queued | AlreadyPending | Stopping | Full

  function AnswerTo(w: Waiting, key: ProcessKey): Answer {
    if key in w.pending then AlreadyPending
    else if w.stopping then Stopping
    else if |w.pending| >= w.capacity then Full
    else Queued
  }

  function Requested(w: Waiting, key: ProcessKey, urgent: bool): Waiting {
    match AnswerTo(w, key)
    case AlreadyPending => w
    case Stopping => w
    case Full => w.(dropped := w.dropped + 1)
    case Queued =>
      w.(urgent := if urgent then w.urgent + [key] else w.urgent,
         inventory := if urgent then w.inventory else w.inventory + [key],
         pending := w.pending + {key})
  }

  /** A key taken, and from which queue. */
  datatype Take = Take(key: ProcessKey, urgent: bool)

  /** What the worker gets next; a blocking call gets nothing once the worker is stopping. */
  function NextOf(w: Waiting, block: bool): Option<Take> {
    if w.urgent == [] && w.inventory == [] then None
    else if w.stopping && block then None
    else if w.urgent != [] then Some(Take(w.urgent[0], true))
    else Some(Take(w.inventory[0], false))
  }

  function Taken(w: Waiting, block: bool): Waiting {
    match NextOf(w, block)
    case None => w
    case Some(t) =>
      w.(urgent := if w.urgent != [] then w.urgent[1..] else w.urgent,
         inventory := if w.urgent != [] || w.inventory == [] then w.inventory else w.inventory[1..],
         pending := w.pending - {t.key})
  }

  // ---- the worker object -----------------------------------------------------------------------------------

  class EnrichmentWorker {
    const capacity: nat
    var urgent: seq<ProcessKey>
    var inventory: seq<ProcessKey>
    var pending: set<ProcessKey>
    var stopping: bool
    var dropped: nat

    function State(): Waiting
      reads this
    {
      Waiting(capacity, urgent, inventory, pending, stopping, dropped)
    }

    constructor (capacity: nat)
      ensures State() == Initial(capacity)
    {
      this.capacity := capacity;
      urgent, inventory, pending, stopping, dropped := [], [], {}, false, 0;
    }

    method Request(key: ProcessKey, isUrgent: bool)
      modifies this
      ensures State() == Requested(old(State()), key, isUrgent)
    {
      if key in pending || stopping {
        return;
      }
      if |pending| >= capacity {
        dropped := dropped + 1;
        return;
      }
      if isUrgent {
        urgent := urgent + [key];
      } else {
        inventory := inventory + [key];
      }
      pending := pending + {key};
    }

    /** _next after its wait has ended: something is queued, or there is nothing to wait for. */
    method Next(block: bool) returns (key: Option<ProcessKey>)
      modifies this
      ensures State() == Taken(old(State()), block)
      ensures key == match NextOf(old(State()), block) case None => None case Some(t) => Some(t.key)
    {
      if urgent == [] && inventory == [] {
        return None;
      }
      if stopping && block {
        return None;
      }
      var next: ProcessKey;
      if urgent != [] {
        next := urgent[0];
        urgent := urgent[1..];
      } else {
        next := inventory[0];
        inventory := inventory[1..];
      }
      pending := pending - {next};
      return Some(next);
    }

    method Stop()
      modifies this
      ensures State() == old(State()).(stopping := true)
    {
      stopping := true;
    }
  }

  // ---- runs --------------------------------------------------------------------------------------------------

  datatype Action = Request(key: ProcessKey, urgent: bool) | Next(block: bool) | Stop

  function Initial(capacity: nat): Waiting {
    Waiting(capacity, [], [], {}, false, 0)
  }

  function Step(w: Waiting, a: Action): Waiting {
    match a
    case Request(key, urgent) => Requested(w, key, urgent)
    case Next(block) => Taken(w, block)
    case Stop => w.(stopping := true)
  }

  function Run(capacity: nat, actions: seq<Action>): Waiting {
    if actions == [] then Initial(capacity) else Step(Run(capacity, Front(actions)), Last(actions))
  }

  function Queue(w: Waiting, urgent: bool): seq<ProcessKey> {
    if urgent then w.urgent else w.inventory
  }

  /** What one action adds to, and takes from, one of the queues. */
  function Adds(w: Waiting, a: Action, urgent: bool): seq<ProcessKey> {
    if a.Request? && a.urgent == urgent && AnswerTo(w, a.key) == Queued then [a.key] else []
  }

  function Takes(w: Waiting, a: Action, urgent: bool): seq<ProcessKey> {
    if a.Next? && NextOf(w, a.block).Some? && NextOf(w, a.block).value.urgent == urgent
    then [NextOf(w, a.block).value.key] else []
  }

  /** The requests accepted for one of the queues, in order. */
  function Accepted(capacity: nat, actions: seq<Action>, urgent: bool): seq<ProcessKey> {
    if actions == [] then []
    else Accepted(capacity, Front(actions), urgent) + Adds(Run(capacity, Front(actions)), Last(actions), urgent)
  }

  /** The keys taken from one of the queues, in order. */
  function TakenKeys(capacity: nat, actions: seq<Action>, urgent: bool): seq<ProcessKey> {
    if actions == [] then []
    else TakenKeys(capacity, Front(actions), urgent) + Takes(Run(capacity, Front(actions)), Last(actions), urgent)
  }

  /** How many requests got a given answer. */
  function Answers(capacity: nat, actions: seq<Action>, answer: Answer): nat {
    if actions == [] then 0
    else
      var w, a := Run(capacity, Front(actions)), Last(actions);
      Answers(capacity, Front(actions), answer) + if a.Request? && AnswerTo(w, a.key) == answer then 1 else 0
  }

  function Requests(actions: seq<Action>): nat {
    if actions == [] then 0 else Requests(Front(actions)) + if Last(actions).Request? then 1 else 0
  }

  ghost predicate Invariant(w: Waiting) {
    && NoDuplicates(w.urgent) && NoDuplicates(w.inventory)
    && (forall k :: k in w.pending <==> k in w.urgent || k in w.inventory)
    && (forall k :: !(k in w.urgent && k in w.inventory))
    && |w.urgent| + |w.inventory| == |w.pending| <= w.capacity
  }

  lemma RequestKeeps(w: Waiting, key: ProcessKey, urgent: bool)
    requires Invariant(w)
    ensures Invariant(Requested(w, key, urgent))
  {
  }

  lemma TakeKeeps(w: Waiting, block: bool)
    requires Invariant(w)
    ensures Invariant(Taken(w, block))
  {
    if w.urgent != [] {
      assert w.urgent[0] !in w.urgent[1..];
      assert forall k :: k in w.urgent <==> k == w.urgent[0] || k in w.urgent[1..];
    } else if w.inventory != [] {
      assert w.inventory[0] !in w.inventory[1..];
      assert forall k :: k in w.inventory <==> k == w.inventory[0] || k in w.inventory[1..];
    }
  }

  /**
   * Over every interleaving: the pending set is the disjoint union of the two queues, without duplicates,
   * within capacity.
   */
  lemma {:induction false} InvariantHolds(capacity: nat, actions: seq<Action>)
    ensures Invariant(Run(capacity, actions)) && Run(capacity, actions).capacity == capacity
  {
    hide Invariant, Requested, Taken;
    if actions == [] {
      assert Invariant(Initial(capacity)) by { InitHolds(capacity); }
    } else {
      InvariantHolds(capacity, Front(actions));
      var w, a := Run(capacity, Front(actions)), Last(actions);
      match a
      case Request(key, urgent) =>
        RequestKeeps(w, key, urgent);
        RequestedCapacity(w, key, urgent);
      case Next(block) =>
        TakeKeeps(w, block);
        TakenCapacity(w, block);
      case Stop => StopKeeps(w);
    }
  }

  lemma InitHolds(capacity: nat)
    ensures Invariant(Initial(capacity))
  {
  }

  lemma StopKeeps(w: Waiting)
    requires Invariant(w)
    ensures Invariant(w.(stopping := true))
  {
  }

  lemma RequestedCapacity(w: Waiting, key: ProcessKey, urgent: bool)
    ensures Requested(w, key, urgent).capacity == w.capacity
  {
  }

  lemma TakenCapacity(w: Waiting, block: bool)
    ensures Taken(w, block).capacity == w.capacity
  {
  }

  lemma StepIsFifo(w: Waiting, a: Action, urgent: bool)
    ensures Takes(w, a, urgent) + Queue(Step(w, a), urgent) == Queue(w, urgent) + Adds(w, a, urgent)
  {
  }

  /** Each queue is first in first out, and what was accepted is what was taken followed by what is queued. */
  lemma {:induction false} FirstInFirstOut(capacity: nat, actions: seq<Action>, urgent: bool)
    ensures Accepted(capacity, actions, urgent) ==
            TakenKeys(capacity, actions, urgent) + Queue(Run(capacity, actions), urgent)
  {
    hide Adds, Takes, Queue, Step;
    if actions == [] {
      assert Queue(Initial(capacity), urgent) == [] by { NothingQueued(capacity, urgent); }
    } else {
      FirstInFirstOut(capacity, Front(actions), urgent);
      StepIsFifo(Run(capacity, Front(actions)), Last(actions), urgent);
      Regroup(TakenKeys(capacity, Front(actions), urgent), Queue(Run(capacity, Front(actions)), urgent),
              Adds(Run(capacity, Front(actions)), Last(actions), urgent),
              Takes(Run(capacity, Front(actions)), Last(actions), urgent), Queue(Run(capacity, actions), urgent));
    }
  }

  lemma Regroup(a: seq<ProcessKey>, b: seq<ProcessKey>, c: seq<ProcessKey>, d: seq<ProcessKey>, e: seq<ProcessKey>)
    requires b + c == d + e
    ensures a + b + c == a + d + e
  {
    assert a + b + c == a + (b + c);
    assert a + d + e == a + (d + e);
  }

  lemma NothingQueued(capacity: nat, urgent: bool)
    ensures Queue(Initial(capacity), urgent) == []
  {
  }

  /** An inventory key is taken only while no urgent key waits. */
  lemma UrgentGoesFirst(capacity: nat, actions: seq<Action>, block: bool)
    requires NextOf(Run(capacity, actions), block).Some?
    ensures NextOf(Run(capacity, actions), block).value.urgent <==>
            |Accepted(capacity, actions, true)| > |TakenKeys(capacity, actions, true)|
  {
    FirstInFirstOut(capacity, actions, true);
  }

  /** Every request was accepted, refused as a duplicate or while stopping, or counted dropped. */
  lemma {:induction false} EveryRequestAccounted(capacity: nat, actions: seq<Action>)
    ensures Requests(actions) ==
            |Accepted(capacity, actions, true)| + |Accepted(capacity, actions, false)|
            + Answers(capacity, actions, AlreadyPending) + Answers(capacity, actions, Stopping)
            + Run(capacity, actions).dropped
    ensures Run(capacity, actions).dropped == Answers(capacity, actions, Full)
  {
    if actions == [] {
    } else {
      EveryRequestAccounted(capacity, Front(actions));
    }
  }

  lemma StoppedStep(w: Waiting, a: Action, urgent: bool)
    requires w.stopping
    ensures Step(w, a).stopping && Adds(w, a, urgent) == []
    ensures (a.Next? ==> a.block) ==> Takes(w, a, urgent) == []
  {
  }

  /** Once stopping, nothing more is accepted and a blocking worker takes nothing more. */
  lemma {:induction false} NothingAfterStop(capacity: nat, actions: seq<Action>, more: seq<Action>, urgent: bool)
    requires Run(capacity, actions).stopping
    ensures Run(capacity, actions + more).stopping
    ensures Accepted(capacity, actions + more, urgent) == Accepted(capacity, actions, urgent)
    ensures (forall a :: a in more && a.Next? ==> a.block) ==>
              TakenKeys(capacity, actions + more, urgent) == TakenKeys(capacity, actions, urgent)
  {
    hide Step, Adds, Takes;
    if more == [] {
      assert actions + more == actions;
    } else {
      assert Front(actions + more) == actions + Front(more) && Last(actions + more) == Last(more);
      assert forall a :: a in Front(more) ==> a in more;
      assert Last(more) in more;
      NothingAfterStop(capacity, actions, Front(more), urgent);
      StoppedStep(Run(capacity, actions + Front(more)), Last(more), urgent);
    }
  }

  // ---- answers in plain terms --------------------------------------------------------------------------------

  /**
   * In every run: a key that waits in either queue is a duplicate; else a stopping worker refuses; else it is dropped
   * exactly when as many keys wait as there is room for. A taker gets nothing exactly when nothing waits, or
   * when it would block and the worker is stopping; otherwise the oldest key of the first queue that has one.
   */
  lemma AnswerMeaning(capacity: nat, actions: seq<Action>, key: ProcessKey, block: bool)
    ensures var w := Run(capacity, actions);
            var waits := key in w.urgent || key in w.inventory;
            var full := |w.urgent| + |w.inventory| >= capacity;
            && (AnswerTo(w, key) == AlreadyPending <==> waits)
            && (AnswerTo(w, key) == Stopping <==> !waits && w.stopping)
            && (AnswerTo(w, key) == Full <==> !waits && !w.stopping && full)
            && (NextOf(w, block) == None <==> (w.urgent == [] && w.inventory == []) || (block && w.stopping))
            && (NextOf(w, block).Some? ==>
                  NextOf(w, block).value.key == (w.urgent + w.inventory)[0]
                  && (NextOf(w, block).value.urgent <==> w.urgent != []))
  {
    hide Run;
    InvariantHolds(capacity, actions);
  }
}
