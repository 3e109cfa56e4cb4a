/**
 * The event bus (src/threatlens/core/event_bus.py), the database writer (src/threatlens/storage/writer.py)
 * and the shutdown order that connects them (src/threatlens/core/engine.py). Every lock-protected block
 * is one atomic step; a run is any sequence of steps, so all interleavings are covered.
 */
module EventPipeline {
  import opened Collections
  import opened Channels

  const BATCH_SIZE: nat := 200

  /** An event's payload does not matter here. */
  type Event = nat

  /** What the writer stores: events from the bus, and items other threads enqueue. */
  datatype Item = EventItem(event: Event) | OtherItem(tag: nat)

  // ---- the bus -------------------------------------------------------------------------------------

  /** Where the dispatcher thread is: waiting, inside the handlers of one event, or returned. */
  datatype Dispatcher = Idle | Handling(event: Event, handed: bool) | Returned

  datatype Bus = Bus(
    channel: Channel<Event>,
    accepting: bool,
    stopping: bool,
    published: nat,
    dispatched: nat,
    dropped: nat,
    dispatcher: Dispatcher,
    refused: seq<Event>,
    delivered: seq<Event>)

  function Published(b: Bus, e: Event): Bus {
    if !b.accepting then b.(dropped := b.dropped + 1, refused := b.refused + [e])
    else b.(channel := Push(b.channel, e),
            dropped := b.dropped + (if Full(b.channel) then 1 else 0),
            published := b.published + 1)
  }

  function StopFlagged(b: Bus): Bus {
    b.(accepting := false, stopping := true)
  }

  /** One turn of the dispatcher loop: take an event, return when stopping and drained, or keep waiting. */
  function LoopTurn(b: Bus): Bus {
    if b.dispatcher != Idle then b
    else if b.channel.queue != [] then
      b.(channel := Pop(b.channel), dispatcher := Handling(b.channel.queue[0], false))
    else if b.stopping then b.(dispatcher := Returned)
    else b
  }

  /** The storage handler's turn for the event in flight. */
  function Handed(b: Bus): Bus {
    if b.dispatcher.Handling? && !b.dispatcher.handed
    then b.(dispatcher := Handling(b.dispatcher.event, true), delivered := b.delivered + [b.dispatcher.event])
    else b
  }

  function Finished(b: Bus): Bus {
    if b.dispatcher.Handling? && b.dispatcher.handed
    then b.(dispatcher := Idle, dispatched := b.dispatched + 1)
    else b
  }

  // ---- the writer ----------------------------------------------------------------------------------

  datatype Worker =
    | Opening
    | Waiting
    | Writing(batch: seq<Item>)
    | Draining
    | LastWrite(batch: seq<Item>)
    | Closed
    | NeverOpened

  datatype Batch = Batch(items: seq<Item>, ok: bool)

  datatype Writer = Writer(
    channel: Channel<Item>,
    stopping: bool,
    worker: Worker,
    written: nat,
    dropped: nat,
    errors: nat,
    writes: seq<Batch>,
    ignored: seq<Item>)

  function Enqueued(w: Writer, x: Item): Writer {
    if w.stopping then w.(ignored := w.ignored + [x])
    else w.(channel := Push(w.channel, x), dropped := w.dropped + (if Full(w.channel) then 1 else 0))
  }

  /** The worker's own steps; ok says whether opening the database, or the transaction, succeeds. */
  function WorkerStep(w: Writer, ok: bool): Writer {
    match w.worker
    case Opening => w.(worker := if ok then Waiting else NeverOpened)
    case Waiting =>
      if w.channel.queue != [] then
        var n := if |w.channel.queue| < BATCH_SIZE then |w.channel.queue| else BATCH_SIZE;
        w.(channel := PopMany(w.channel, n), worker := Writing(w.channel.queue[..n]))
      else if w.stopping then w.(worker := Draining)
      else w
    case Writing(batch) => Wrote(w, batch, ok).(worker := Waiting)
    case Draining =>
      if w.channel.queue == [] then w.(worker := Closed)
      else w.(channel := PopMany(w.channel, |w.channel.queue|), worker := LastWrite(w.channel.queue))
    case LastWrite(batch) => Wrote(w, batch, ok).(worker := Closed)
    case Closed => w
    case NeverOpened => w
  }

  /** One transaction: all of the batch is stored, or none of it. */
  function Wrote(w: Writer, batch: seq<Item>, ok: bool): Writer {
    w.(writes := w.writes + [Batch(batch, ok)],
       written := w.written + (if ok then |batch| else 0),
       errors := w.errors + if ok then 0 else 1)
  }

  /** The store is a log of the committed batches. */
  function Stored(writes: seq<Batch>): seq<Item> {
    if writes == [] then [] else Stored(Front(writes)) + if Last(writes).ok then Last(writes).items else []
  }

  function Attempted(writes: seq<Batch>): seq<Item> {
    if writes == [] then [] else Attempted(Front(writes)) + Last(writes).items
  }

  function Failures(writes: seq<Batch>): nat {
    if writes == [] then 0 else Failures(Front(writes)) + if Last(writes).ok then 0 else 1
  }

  function Events(items: seq<Item>): seq<Event> {
    if items == [] then [] else Events(Front(items)) + if Last(items).EventItem? then [Last(items).event] else []
  }

  // ---- the whole system ----------------------------------------------------------------------------

  /** How far Engine.stop has come. */
  datatype Stage =
    | Running
    | SchedulerStopped
    | FilesStopped
    | EnrichmentStopped
    | BusFlagged
    | BusStopped
    | WriterFlagged
    | Stopped

  /**
   * producing: some thread that publishes is still alive. quietStop: none was when the bus was told to
   * stop. joined: the dispatcher had returned when the writer was told to stop. drained: what bus.stop
   * returned.
   */
  datatype System = System(
    bus: Bus,
    writer: Writer,
    stage: Stage,
    producing: bool,
    quietStop: bool,
    joined: bool,
    drained: bool)

  datatype Action =
    | Publish(event: Event)
    | ProducersEnd
    | Turn
    | Hand
    | Finish
    | EnqueueOther(tag: nat)
    | Work(ok: bool)
    | StopNext

  function Init(busCapacity: nat, writerCapacity: nat): System {
    System(Bus(Open(busCapacity), true, false, 0, 0, 0, Idle, [], []),
           Writer(Open(writerCapacity), false, Opening, 0, 0, 0, [], []),
           Running, true, false, false, false)
  }

  function StopAdvanced(s: System): System {
    match s.stage
    case Running => s.(stage := SchedulerStopped)
    case SchedulerStopped => s.(stage := FilesStopped)
    case FilesStopped => s.(stage := EnrichmentStopped)
    case EnrichmentStopped => s.(stage := BusFlagged, bus := StopFlagged(s.bus), quietStop := !s.producing)
    case BusFlagged => s.(stage := BusStopped, drained := s.bus.channel.queue == [])
    case BusStopped =>
      s.(stage := WriterFlagged, writer := s.writer.(stopping := true), joined := s.bus.dispatcher == Returned)
    case WriterFlagged => s.(stage := Stopped)
    case Stopped => s
  }

  function Step(s: System, a: Action): System {
    match a
    case Publish(e) => if s.producing then s.(bus := Published(s.bus, e)) else s
    case ProducersEnd => s.(producing := false)
    case Turn => s.(bus := LoopTurn(s.bus))
    case Hand =>
      if s.bus.dispatcher.Handling? && !s.bus.dispatcher.handed
      then s.(bus := Handed(s.bus), writer := Enqueued(s.writer, EventItem(s.bus.dispatcher.event)))
      else s
    case Finish => s.(bus := Finished(s.bus))
    case EnqueueOther(tag) => s.(writer := Enqueued(s.writer, OtherItem(tag)))
    case Work(ok) => s.(writer := WorkerStep(s.writer, ok))
    case StopNext => StopAdvanced(s)
  }

  function Run(busCapacity: nat, writerCapacity: nat, actions: seq<Action>): System {
    if actions == [] then Init(busCapacity, writerCapacity)
    else Step(Run(busCapacity, writerCapacity, Front(actions)), Last(actions))
  }

  // ---- the invariants --------------------------------------------------------------------------------

  ghost predicate BusInvariant(b: Bus) {
    var c := b.channel;
    && Sound(c)
    && b.stopping == !b.accepting
    && (b.refused != [] ==> !b.accepting)
    && b.published == |c.accepted|
    && b.dropped == |LostFrom(c)| + |b.refused|
    && TakenFrom(c) == b.delivered + InFlight(b.dispatcher)
    && |b.delivered| == b.dispatched + (if b.dispatcher.Handling? && b.dispatcher.handed then 1 else 0)
    && (b.dispatcher == Returned ==> b.stopping && c.queue == [])
  }

  /** The popped event that the storage handler has not seen yet. */
  function InFlight(d: Dispatcher): seq<Event> {
    if d.Handling? && !d.handed then [d.event] else []
  }

  ghost predicate WriterInvariant(w: Writer) {
    var c := w.channel;
    && Sound(c)
    && w.dropped == |LostFrom(c)|
    && TakenFrom(c) == Attempted(w.writes) + (if w.worker.Writing? || w.worker.LastWrite? then w.worker.batch else [])
    && w.written == |Stored(w.writes)|
    && w.errors == Failures(w.writes)
    && (w.ignored != [] ==> w.stopping)
    && (w.worker == Draining || w.worker == Closed ==> w.stopping && c.queue == [])
    && !w.worker.LastWrite?
  }

  /** The bus and the writer agree on which events crossed from one to the other. */
  ghost predicate Wired(s: System) {
    s.bus.delivered == Events(s.writer.channel.accepted) + Events(s.writer.ignored)
  }

  ghost predicate Flags(s: System) {
    && (s.writer.stopping <==> s.stage == WriterFlagged || s.stage == Stopped)
    && (s.bus.stopping <==> s.stage in {BusFlagged, BusStopped, WriterFlagged, Stopped})
    && (s.joined ==> s.bus.dispatcher == Returned && s.writer.stopping)
    && (s.quietStop ==> !s.producing && s.bus.refused == [] && s.bus.stopping)
  }

  ghost predicate Invariant(s: System) {
    && BusInvariant(s.bus)
    && WriterInvariant(s.writer)
    && Wired(s)
    && Flags(s)
    && (s.joined ==> Events(s.writer.ignored) == [])
  }

  // ---- every step keeps the bus invariant ------------------------------------------------------------

  lemma PublishKeeps(b: Bus, e: Event)
    requires BusInvariant(b)
    ensures BusInvariant(Published(b, e))
  {
    hide Sound, TakenFrom, LostFrom, Push;
    PushEffect(b.channel, e);
    PushCounts(b.channel, e);
  }

  lemma PushCounts<T>(c: Channel<T>, x: T)
    ensures Push(c, x).accepted == c.accepted + [x] && |Push(c, x).queue| > 0
  {
  }

  lemma TurnKeeps(b: Bus)
    requires BusInvariant(b)
    ensures BusInvariant(LoopTurn(b))
  {
    hide TakenFrom, LostFrom;
    if b.channel.queue != [] {
      PopEffect(b.channel);
    }
  }

  lemma HandKeeps(b: Bus)
    requires BusInvariant(b)
    ensures BusInvariant(Handed(b))
    ensures Handed(b).delivered == b.delivered + InFlight(b.dispatcher)
  {
    hide Sound, TakenFrom, LostFrom;
  }

  lemma FinishKeeps(b: Bus)
    requires BusInvariant(b)
    ensures BusInvariant(Finished(b))
  {
    hide Sound, TakenFrom, LostFrom;
  }

  // ---- every step keeps the writer invariant ---------------------------------------------------------

  lemma EnqueueKeeps(w: Writer, x: Item)
    requires WriterInvariant(w)
    ensures WriterInvariant(Enqueued(w, x))
  {
    hide Sound, TakenFrom, LostFrom, Push, Attempted, Stored, Failures;
    PushEffect(w.channel, x);
  }

  lemma EnqueuedEvents(w: Writer, x: Item)
    requires w.stopping || Events(w.ignored) == []
    ensures Events(Enqueued(w, x).channel.accepted) + Events(Enqueued(w, x).ignored) ==
            Events(w.channel.accepted) + Events(w.ignored) + Events([x])
  {
    hide Events, Full;
    var a, b, c := Events(w.channel.accepted), Events(w.ignored), Events([x]);
    if w.stopping {
      EventsAppend(w.ignored, [x]);
      assert a + (b + c) == a + b + c;
    } else {
      EventsAppend(w.channel.accepted, [x]);
      assert a + c + b == a + b + c;
    }
  }

  lemma {:induction false} EventsAppend(a: seq<Item>, b: seq<Item>)
    ensures Events(a + b) == Events(a) + Events(b)
  {
    if b == [] {
      assert a + b == a;
    } else {
      EventsAppend(a, Front(b));
      assert Front(a + b) == a + Front(b);
    }
  }

  lemma WorkKeeps(w: Writer, ok: bool)
    requires WriterInvariant(w)
    ensures WriterInvariant(WorkerStep(w, ok))
    ensures WorkerStep(w, ok).channel.accepted == w.channel.accepted
  {
    hide TakenFrom, LostFrom, Attempted, Stored, Failures, PopMany;
    if w.worker.Waiting? {
      var n := if |w.channel.queue| < BATCH_SIZE then |w.channel.queue| else BATCH_SIZE;
      PopManyEffect(w.channel, n);
    } else if w.worker.Writing? {
      OneMoreWrite(w.writes, Batch(w.worker.batch, ok));
    }
  }

  lemma OneMoreWrite(writes: seq<Batch>, b: Batch)
    ensures Attempted(writes + [b]) == Attempted(writes) + b.items
    ensures Stored(writes + [b]) == Stored(writes) + if b.ok then b.items else []
    ensures Failures(writes + [b]) == Failures(writes) + if b.ok then 0 else 1
  {
    assert Front(writes + [b]) == writes;
  }

  // ---- the invariant holds on every run --------------------------------------------------------------

  lemma InitHolds(busCapacity: nat, writerCapacity: nat)
    requires busCapacity >= 1 && writerCapacity >= 1
    ensures Invariant(Init(busCapacity, writerCapacity))
  {
  }

  lemma BusStepKeeps(s: System, a: Action)
    requires Invariant(s)
    ensures BusInvariant(Step(s, a).bus)
  {
    hide Published, LoopTurn, Handed, Finished, Sound, TakenFrom, LostFrom, Enqueued, WorkerStep;
    hide WriterInvariant, Events;
    match a
    case Publish(e) => PublishKeeps(s.bus, e);
    case Turn => TurnKeeps(s.bus);
    case Hand => HandKeeps(s.bus);
    case Finish => FinishKeeps(s.bus);
    case _ =>
  }

  lemma WriterStepKeeps(s: System, a: Action)
    requires Invariant(s)
    ensures WriterInvariant(Step(s, a).writer)
  {
    hide Published, LoopTurn, Handed, Finished, Sound, TakenFrom, LostFrom, Enqueued, WorkerStep, BusInvariant, Events;
    match a
    case Hand =>
      if s.bus.dispatcher.Handling? {
        EnqueueKeeps(s.writer, EventItem(s.bus.dispatcher.event));
      }
    case EnqueueOther(tag) => EnqueueKeeps(s.writer, OtherItem(tag));
    case Work(ok) => WorkKeeps(s.writer, ok);
    case _ =>
  }

  lemma WiringKept(s: System, a: Action)
    requires Invariant(s)
    ensures Wired(Step(s, a))
  {
    hide Sound, TakenFrom, LostFrom, Enqueued, WorkerStep, Push, Pop, Events;
    match a
    case Hand =>
      if s.bus.dispatcher.Handling? && !s.bus.dispatcher.handed {
        HandCrosses(s);
      }
    case EnqueueOther(tag) =>
      NothingIgnoredEarly(s.writer);
      EnqueuedEvents(s.writer, OtherItem(tag));
      OneEvent(OtherItem(tag));
    case Work(ok) => WorkIsLocal(s.writer, ok);
    case _ =>
  }

  lemma HandCrosses(s: System)
    requires Invariant(s) && s.bus.dispatcher.Handling? && !s.bus.dispatcher.handed
    ensures Wired(Step(s, Hand))
  {
    hide BusInvariant, Enqueued, Events, Sound, TakenFrom, LostFrom;
    var e := s.bus.dispatcher.event;
    NothingIgnoredEarly(s.writer);
    EnqueuedEvents(s.writer, EventItem(e));
    OneEvent(EventItem(e));
  }

  lemma OneEvent(x: Item)
    ensures Events([x]) == if x.EventItem? then [x.event] else []
  {
  }

  lemma NothingIgnoredEarly(w: Writer)
    requires WriterInvariant(w)
    ensures w.stopping || Events(w.ignored) == []
  {
  }

  lemma WorkIsLocal(w: Writer, ok: bool)
    requires WriterInvariant(w)
    ensures WorkerStep(w, ok).channel.accepted == w.channel.accepted
    ensures WorkerStep(w, ok).ignored == w.ignored && WorkerStep(w, ok).stopping == w.stopping
  {
    WorkKeeps(w, ok);
  }

  lemma FlagsKept(s: System, a: Action)
    requires Invariant(s)
    ensures Flags(Step(s, a))
  {
    hide Sound, TakenFrom, LostFrom, Push, Pop, PopMany, Events, Attempted, Stored, Failures;
    if a.Work? {
      WorkIsLocal(s.writer, a.ok);
    }
  }

  lemma JoinedKept(s: System, a: Action)
    requires Invariant(s)
    ensures Step(s, a).joined ==> Events(Step(s, a).writer.ignored) == []
  {
    hide Sound, TakenFrom, LostFrom, Push, Pop, PopMany, Events, Attempted, Stored, Failures;
    match a
    case EnqueueOther(tag) =>
      EventsAppend(s.writer.ignored, [OtherItem(tag)]);
      OneEvent(OtherItem(tag));
    case Work(ok) => WorkIsLocal(s.writer, ok);
    case StopNext => NothingIgnoredEarly(s.writer);
    case _ =>
  }

  lemma StepKeeps(s: System, a: Action)
    requires Invariant(s)
    ensures Invariant(Step(s, a))
  {
    hide Step, BusInvariant, WriterInvariant, Events;
    BusStepKeeps(s, a);
    WriterStepKeeps(s, a);
    WiringKept(s, a);
    FlagsKept(s, a);
    JoinedKept(s, a);
  }

  /**
   * Safety over every interleaving of publishers, dispatcher, writer and shutdown. In particular each
   * queue is the contiguous end of what it accepted and within capacity, the counters are exact, and the
   * dispatcher has returned only when stopping with an empty queue.
   */
  lemma {:induction false} InvariantHolds(busCapacity: nat, writerCapacity: nat, actions: seq<Action>)
    requires busCapacity >= 1 && writerCapacity >= 1
    ensures Invariant(Run(busCapacity, writerCapacity, actions))
  {
    hide Invariant, Step, Init;
    if actions == [] {
      InitHolds(busCapacity, writerCapacity);
    } else {
      InvariantHolds(busCapacity, writerCapacity, Front(actions));
      StepKeeps(Run(busCapacity, writerCapacity, Front(actions)), Last(actions));
    }
  }

  // ---- what the invariant means for the bus ----------------------------------------------------------

  /**
   * Under every interleaving: delivered events keep publication order, and accepted events are exactly
   * those dispatched, the one being handled, those queued, and those the bounded queue dropped.
   */
  lemma BusAccounting(busCapacity: nat, writerCapacity: nat, actions: seq<Action>)
    requires busCapacity >= 1 && writerCapacity >= 1
    ensures var b := Run(busCapacity, writerCapacity, actions).bus;
            var c := b.channel;
            var handling := if b.dispatcher.Handling? then 1 else 0;
            && |c.queue| <= c.capacity && |c.fates| + |c.queue| == |c.accepted|
            && c.queue == c.accepted[|c.fates|..]
            && Subsequence(b.delivered + InFlight(b.dispatcher), c.accepted)
            && b.published == |c.accepted| == b.dispatched + handling + |c.queue| + |LostFrom(c)|
            && b.dropped == |LostFrom(c)| + |b.refused|
            && (b.dispatcher == Returned ==> b.stopping && c.queue == [])
  {
    hide Run, WriterInvariant, Wired, Flags, TakenFrom, LostFrom, Events, Subsequence;
    InvariantHolds(busCapacity, writerCapacity, actions);
    EveryItemAccounted(Run(busCapacity, writerCapacity, actions).bus.channel);
    TakenIsSubsequence(Run(busCapacity, writerCapacity, actions).bus.channel);
  }

  /** What stop promises: every accepted event was dispatched, or counted as overflowed. */
  ghost predicate AllDispatched(b: Bus) {
    |b.channel.accepted| == b.dispatched + |LostFrom(b.channel)|
  }

  /** At any moment of any run that holds exactly when the queue is empty and no event is being handled. */
  lemma StopPromiseExactlyWhen(busCapacity: nat, writerCapacity: nat, actions: seq<Action>)
    requires busCapacity >= 1 && writerCapacity >= 1
    ensures var b := Run(busCapacity, writerCapacity, actions).bus;
            AllDispatched(b) <==> b.channel.queue == [] && !b.dispatcher.Handling?
  {
    hide Run, TakenFrom, LostFrom, Subsequence;
    BusAccounting(busCapacity, writerCapacity, actions);
  }

  /** So what stop returns is the truth exactly unless it returns while the last event is being handled. */
  lemma StopReturnsTheTruthExactlyWhen(busCapacity: nat, writerCapacity: nat, before: seq<Action>)
    requires busCapacity >= 1 && writerCapacity >= 1
    requires Run(busCapacity, writerCapacity, before).stage == BusFlagged
    ensures var s := Run(busCapacity, writerCapacity, before + [StopNext]);
            var b := Run(busCapacity, writerCapacity, before).bus;
            (s.drained <==> AllDispatched(s.bus)) <==> !(b.channel.queue == [] && b.dispatcher.Handling?)
  {
    hide Run, AllDispatched;
    OneStep(busCapacity, writerCapacity, before, StopNext);
    StopPromiseExactlyWhen(busCapacity, writerCapacity, before + [StopNext]);
  }

  /** The worker ends only when stopping and drained, so its final drain never finds anything. */
  lemma FinalDrainFindsNothing(busCapacity: nat, writerCapacity: nat, actions: seq<Action>)
    requires busCapacity >= 1 && writerCapacity >= 1
    ensures var w := Run(busCapacity, writerCapacity, actions).writer;
            && !w.worker.LastWrite?
            && (w.worker == Draining || w.worker == Closed ==> w.stopping && w.channel.queue == [])
  {
    hide Run, BusInvariant, Wired, Flags, Sound, TakenFrom, LostFrom, Events, Attempted, Stored, Failures;
    InvariantHolds(busCapacity, writerCapacity, actions);
  }

  // ---- from publisher to store -----------------------------------------------------------------------

  lemma OneMoreCounted<T>(s: seq<T>, x: T, y: T)
    ensures multiset(s + [x])[y] == multiset(s)[y] + if x == y then 1 else 0
  {
  }

  lemma {:induction false} EventsCounted(items: seq<Item>, e: Event)
    ensures multiset(Events(items))[e] == multiset(items)[EventItem(e)]
  {
    hide Events;
    if items == [] {
      NoEvents();
    } else {
      var x := Last(items);
      EventsCounted(Front(items), e);
      EventsStep(items);
      assert items == Front(items) + [x];
      OneMoreCounted(Front(items), x, EventItem(e));
      if x.EventItem? {
        OneMoreCounted(Events(Front(items)), x.event, e);
      }
    }
  }

  lemma EventsSplit(items: seq<Item>, a: seq<Item>, b: seq<Item>, c: seq<Item>)
    requires multiset(items) == multiset(a) + multiset(b) + multiset(c)
    ensures multiset(Events(items)) == multiset(Events(a)) + multiset(Events(b)) + multiset(Events(c))
  {
    hide Events;
    forall e: Event
      ensures multiset(Events(items))[e] == multiset(Events(a))[e] + multiset(Events(b))[e] + multiset(Events(c))[e]
    {
      EventsCounted(items, e);
      EventsCounted(a, e);
      EventsCounted(b, e);
      EventsCounted(c, e);
    }
  }

  lemma EventsStep(items: seq<Item>)
    requires items != []
    ensures Events(items) ==
            if Last(items).EventItem? then Events(Front(items)) + [Last(items).event] else Events(Front(items))
  {
  }

  lemma {:induction false} EventsKeepOrder(a: seq<Item>, b: seq<Item>)
    requires Subsequence(a, b)
    ensures Subsequence(Events(a), Events(b))
  {
    hide Events;
    if a == [] {
      NoEvents();
    } else if Last(a) == Last(b) && Subsequence(Front(a), Front(b)) {
      EventsKeepOrder(Front(a), Front(b));
      EventsStep(a);
      EventsStep(b);
      if Last(a).EventItem? {
        ExtendBoth(Events(Front(a)), Events(Front(b)), Last(a).event);
      }
    } else {
      EventsKeepOrder(a, Front(b));
      EventsStep(b);
      if Last(b).EventItem? {
        SubsequenceOfLonger(Events(a), Events(Front(b)), [Last(b).event]);
      }
    }
  }

  lemma {:induction false} NothingFailed(writes: seq<Batch>)
    requires Failures(writes) == 0
    ensures Stored(writes) == Attempted(writes)
  {
    if writes == [] {
    } else {
      NothingFailed(Front(writes));
    }
  }

  /**
   * Both threads have ended: the dispatcher returned, and the writer closed its database or, having failed
   * to open it, gave up at once.
   */
  ghost predicate Ended(s: System) {
    s.bus.dispatcher == Returned && (s.writer.worker == Closed || s.writer.worker == NeverOpened)
  }

  /**
   * Where every accepted event is once both threads have ended, whatever went wrong: attempted by the
   * store, dropped by one of the two queues, thrown away by a writer that was told to stop too early, or
   * left in the queue of a writer that never opened its database.
   */
  lemma EveryEventAccounted(busCapacity: nat, writerCapacity: nat, actions: seq<Action>)
    requires busCapacity >= 1 && writerCapacity >= 1
    requires Ended(Run(busCapacity, writerCapacity, actions))
    ensures var s := Run(busCapacity, writerCapacity, actions);
            && multiset(s.bus.channel.accepted) ==
               multiset(Events(Attempted(s.writer.writes))) + multiset(LostFrom(s.bus.channel))
               + multiset(Events(LostFrom(s.writer.channel))) + multiset(Events(s.writer.ignored))
               + multiset(Events(s.writer.channel.queue))
            && s.bus.dropped == |LostFrom(s.bus.channel)| + |s.bus.refused|
            && s.writer.dropped == |LostFrom(s.writer.channel)|
            && (s.writer.worker == Closed ==> s.writer.channel.queue == [])
  {
    hide Run, Flags, TakenFrom, LostFrom, Events, Attempted, Stored, Failures, Sound;
    InvariantHolds(busCapacity, writerCapacity, actions);
    var s := Run(busCapacity, writerCapacity, actions);
    BusEmptied(s);
    WriterDone(s);
  }

  lemma BusEmptied(s: System)
    requires Invariant(s) && Ended(s)
    ensures multiset(s.bus.channel.accepted) == multiset(s.bus.delivered) + multiset(LostFrom(s.bus.channel))
    ensures s.bus.delivered == TakenFrom(s.bus.channel)
  {
    hide Sound, TakenFrom, LostFrom, WriterInvariant, Wired, Flags, Events;
    EveryItemAccounted(s.bus.channel);
  }

  lemma WriterDone(s: System)
    requires Invariant(s) && Ended(s)
    ensures multiset(s.bus.delivered) ==
            multiset(Events(Attempted(s.writer.writes))) + multiset(Events(LostFrom(s.writer.channel)))
            + multiset(Events(s.writer.channel.queue)) + multiset(Events(s.writer.ignored))
    ensures Attempted(s.writer.writes) == TakenFrom(s.writer.channel)
  {
    hide Sound, TakenFrom, LostFrom, BusInvariant, Flags, Events, Attempted, Stored, Failures;
    var c := s.writer.channel;
    EveryItemAccounted(c);
    EventsSplit(c.accepted, TakenFrom(c), LostFrom(c), c.queue);
    assert TakenFrom(c) == Attempted(s.writer.writes);
    assert multiset(s.bus.delivered) == multiset(Events(c.accepted)) + multiset(Events(s.writer.ignored));
  }

  lemma NoEvents()
    ensures Events([]) == []
  {
  }

  /**
   * End to end at shutdown: both threads ended, no batch failed, and the dispatcher had returned before
   * the writer was told to stop. Then the store holds accepted events in publication order, each exactly
   * once, and every other accepted event is one of those counted dropped by the bus or the writer queue,
   * or still in the queue of a writer that never opened its database.
   */
  lemma EndToEnd(busCapacity: nat, writerCapacity: nat, actions: seq<Action>)
    requires busCapacity >= 1 && writerCapacity >= 1
    requires var s := Run(busCapacity, writerCapacity, actions);
             Ended(s) && s.joined && s.writer.errors == 0
    ensures var s := Run(busCapacity, writerCapacity, actions);
            var stored := Events(Stored(s.writer.writes));
            && Subsequence(stored, s.bus.channel.accepted)
            && multiset(s.bus.channel.accepted) ==
               multiset(stored) + multiset(LostFrom(s.bus.channel)) + multiset(Events(LostFrom(s.writer.channel)))
               + multiset(Events(s.writer.channel.queue))
            && (s.writer.worker == Closed ==> s.writer.channel.queue == [])
            && s.bus.dropped == |LostFrom(s.bus.channel)| + |s.bus.refused|
            && s.writer.dropped == |LostFrom(s.writer.channel)|
            && (s.quietStop ==> s.bus.refused == [])
  {
    hide Run, TakenFrom, LostFrom, Events, Attempted, Stored, Failures, Subsequence, Sound;
    EveryEventAccounted(busCapacity, writerCapacity, actions);
    InvariantHolds(busCapacity, writerCapacity, actions);
    var s := Run(busCapacity, writerCapacity, actions);
    NothingFailed(s.writer.writes);
    StoredInOrder(s);
  }

  lemma StoredInOrder(s: System)
    requires Invariant(s) && Ended(s) && s.joined
    ensures Subsequence(Events(Attempted(s.writer.writes)), s.bus.channel.accepted)
  {
    hide Sound, TakenFrom, LostFrom, Events, Attempted, Stored, Failures, Subsequence, Flags;
    BusEmptied(s);
    WriterDone(s);
    TakenIsSubsequence(s.bus.channel);
    TakenIsSubsequence(s.writer.channel);
    EventsKeepOrder(Attempted(s.writer.writes), s.writer.channel.accepted);
    assert s.bus.delivered == Events(s.writer.channel.accepted);
    SubsequenceTransitive(Events(Attempted(s.writer.writes)), s.bus.delivered, s.bus.channel.accepted);
  }

  /** Every accepted event is in the store or counted dropped by one of the queues. */
  ghost predicate Accounted(s: System) {
    multiset(s.bus.channel.accepted) ==
    multiset(Events(Stored(s.writer.writes))) + multiset(LostFrom(s.bus.channel))
    + multiset(Events(LostFrom(s.writer.channel)))
  }

  /** With both threads ended and no failed batch, the rest is what the writer ignored or never took. */
  lemma AccountedExactlyWhenNoRest(busCapacity: nat, writerCapacity: nat, actions: seq<Action>)
    requires busCapacity >= 1 && writerCapacity >= 1
    requires var s := Run(busCapacity, writerCapacity, actions); Ended(s) && s.writer.errors == 0
    ensures var s := Run(busCapacity, writerCapacity, actions);
            Accounted(s) <==> Events(s.writer.ignored) == [] && Events(s.writer.channel.queue) == []
  {
    hide Run, TakenFrom, LostFrom, Events, Attempted, Stored, Failures, Sound;
    EveryEventAccounted(busCapacity, writerCapacity, actions);
    InvariantHolds(busCapacity, writerCapacity, actions);
    var s := Run(busCapacity, writerCapacity, actions);
    NothingFailed(s.writer.writes);
    NothingLeft(multiset(Events(Stored(s.writer.writes))) + multiset(LostFrom(s.bus.channel))
                + multiset(Events(LostFrom(s.writer.channel))),
                Events(s.writer.ignored), Events(s.writer.channel.queue));
  }

  lemma NothingLeft(m: multiset<Event>, a: seq<Event>, b: seq<Event>)
    ensures m + multiset(a) + multiset(b) == m <==> a == [] && b == []
  {
    if a != [] {
      assert a[0] in multiset(a);
      assert (m + multiset(a) + multiset(b))[a[0]] > m[a[0]];
    } else if b != [] {
      assert b[0] in multiset(b);
      assert (m + multiset(a) + multiset(b))[b[0]] > m[b[0]];
    }
  }

  /** The accepted events the writer has ignored or is going to: those thrown away, in flight, and queued. */
  function Abandoned(s: System): seq<Event> {
    Events(s.writer.ignored) + InFlight(s.bus.dispatcher) + s.bus.channel.queue
  }

  /** What the bus holds for the storage handler; it takes in nothing more once it is not accepting. */
  lemma BusStepAbandons(b: Bus, e: Event)
    requires !b.accepting
    ensures var held := InFlight(b.dispatcher) + b.channel.queue;
            && InFlight(Published(b, e).dispatcher) + Published(b, e).channel.queue == held
            && InFlight(LoopTurn(b).dispatcher) + LoopTurn(b).channel.queue == held
            && InFlight(Finished(b).dispatcher) + Finished(b).channel.queue == held
  {
    if b.dispatcher == Idle && b.channel.queue != [] {
      assert b.channel.queue == [b.channel.queue[0]] + b.channel.queue[1..];
    }
  }

  lemma HeldIsAbandoned(s: System, s': System)
    requires InFlight(s.bus.dispatcher) + s.bus.channel.queue == InFlight(s'.bus.dispatcher) + s'.bus.channel.queue
    requires Events(s.writer.ignored) == Events(s'.writer.ignored)
    ensures Abandoned(s) == Abandoned(s')
  {
    hide Events, InFlight;
    var i := Events(s.writer.ignored);
    assert i + InFlight(s.bus.dispatcher) + s.bus.channel.queue ==
           i + (InFlight(s.bus.dispatcher) + s.bus.channel.queue);
    assert i + InFlight(s'.bus.dispatcher) + s'.bus.channel.queue ==
           i + (InFlight(s'.bus.dispatcher) + s'.bus.channel.queue);
  }

  /** Once the writer is stopping the bus refuses everything, so no step changes which events these are. */
  lemma AbandonedIsFixed(s: System, a: Action)
    requires Invariant(s) && s.writer.stopping
    ensures Abandoned(Step(s, a)) == Abandoned(s) && Step(s, a).writer.stopping
  {
    hide Sound, TakenFrom, LostFrom, Events, Attempted, Stored, Failures, Abandoned, InFlight;
    hide Published, LoopTurn, Finished, WorkerStep, Push, Pop;
    BusStepAbandons(s.bus, if a.Publish? then a.event else 0);
    match a
    case Hand =>
      if s.bus.dispatcher.Handling? && !s.bus.dispatcher.handed {
        HandAbandons(s);
      }
    case EnqueueOther(tag) =>
      EventsAppend(s.writer.ignored, [OtherItem(tag)]);
      OneEvent(OtherItem(tag));
      assert Events(s.writer.ignored) + [] == Events(s.writer.ignored);
      HeldIsAbandoned(s, Step(s, a));
    case Work(ok) =>
      WorkIsLocal(s.writer, ok);
      HeldIsAbandoned(s, Step(s, a));
    case _ => HeldIsAbandoned(s, Step(s, a));
  }

  lemma HandAbandons(s: System)
    requires s.writer.stopping && s.bus.dispatcher.Handling? && !s.bus.dispatcher.handed
    ensures Abandoned(Step(s, Hand)) == Abandoned(s)
  {
    hide Events;
    var e := s.bus.dispatcher.event;
    EventsAppend(s.writer.ignored, [EventItem(e)]);
    OneEvent(EventItem(e));
  }

  lemma {:induction false} AbandonedStaysFixed(busCapacity: nat, writerCapacity: nat, before: seq<Action>,
                                               more: seq<Action>)
    requires busCapacity >= 1 && writerCapacity >= 1 && Run(busCapacity, writerCapacity, before).writer.stopping
    ensures Abandoned(Run(busCapacity, writerCapacity, before + more)) ==
            Abandoned(Run(busCapacity, writerCapacity, before))
    ensures Run(busCapacity, writerCapacity, before + more).writer.stopping
  {
    hide Abandoned, Step, Run;
    if more == [] {
      assert before + more == before;
    } else {
      AbandonedStaysFixed(busCapacity, writerCapacity, before, Front(more));
      InvariantHolds(busCapacity, writerCapacity, before + Front(more));
      AbandonedIsFixed(Run(busCapacity, writerCapacity, before + Front(more)), Last(more));
      OneStep(busCapacity, writerCapacity, before + Front(more), Last(more));
      assert before + Front(more) + [Last(more)] == before + more;
    }
  }

  /** What the writer is told to stop with: nothing ignored so far, so the bus holds whatever will be lost. */
  lemma StopAbandonsTheBus(busCapacity: nat, writerCapacity: nat, before: seq<Action>)
    requires busCapacity >= 1 && writerCapacity >= 1
    requires Run(busCapacity, writerCapacity, before).stage == BusStopped
    ensures var b := Run(busCapacity, writerCapacity, before).bus;
            var s := Run(busCapacity, writerCapacity, before + [StopNext]);
            s.writer.stopping && Abandoned(s) == InFlight(b.dispatcher) + b.channel.queue
  {
    hide Run, BusInvariant, Wired, Sound, TakenFrom, LostFrom, Attempted, Stored, Failures;
    InvariantHolds(busCapacity, writerCapacity, before);
    OneStep(busCapacity, writerCapacity, before, StopNext);
    var ignored := Run(busCapacity, writerCapacity, before).writer.ignored;
    assert ignored == [];
    NoEvents();
  }

  /** In the end the writer has ignored exactly what the bus still held when the writer was told to stop. */
  lemma IgnoredIsWhatTheBusHeld(busCapacity: nat, writerCapacity: nat, before: seq<Action>, more: seq<Action>)
    requires busCapacity >= 1 && writerCapacity >= 1
    requires Run(busCapacity, writerCapacity, before).stage == BusStopped
    requires Ended(Run(busCapacity, writerCapacity, before + [StopNext] + more))
    ensures var b := Run(busCapacity, writerCapacity, before).bus;
            Events(Run(busCapacity, writerCapacity, before + [StopNext] + more).writer.ignored) ==
            InFlight(b.dispatcher) + b.channel.queue
  {
    hide Run, Sound, TakenFrom, LostFrom, Events, WriterInvariant, Wired, Flags;
    StopAbandonsTheBus(busCapacity, writerCapacity, before);
    AbandonedStaysFixed(busCapacity, writerCapacity, before + [StopNext], more);
    InvariantHolds(busCapacity, writerCapacity, before + [StopNext] + more);
  }

  /** The worker has opened its database and not closed it yet, or has closed it since. */
  predicate Opened(w: Writer) {
    w.worker != Opening && w.worker != NeverOpened
  }

  lemma WorkerStepOpened(w: Writer, ok: bool)
    ensures Opened(w) ==> Opened(WorkerStep(w, ok))
    ensures w.worker == NeverOpened ==> WorkerStep(w, ok).worker == NeverOpened
    ensures !Opened(WorkerStep(w, ok)) ==> WorkerStep(w, ok).channel == w.channel
  {
    hide PopMany;
  }

  /** A stopping writer that never opens its database takes in nothing more and takes nothing out. */
  lemma QueueStays(s: System, a: Action)
    requires s.writer.stopping
    ensures Opened(s.writer) ==> Opened(Step(s, a).writer)
    ensures s.writer.worker == NeverOpened ==> Step(s, a).writer.worker == NeverOpened
    ensures !Opened(Step(s, a).writer) ==> Step(s, a).writer.channel == s.writer.channel
  {
    hide WorkerStep, Published, LoopTurn, Finished;
    if a.Work? {
      WorkerStepOpened(s.writer, a.ok);
    }
  }

  lemma {:induction false} QueueStaysOverRun(busCapacity: nat, writerCapacity: nat, before: seq<Action>,
                                             more: seq<Action>)
    requires busCapacity >= 1 && writerCapacity >= 1 && Run(busCapacity, writerCapacity, before).writer.stopping
    ensures var w := Run(busCapacity, writerCapacity, before).writer;
            var w' := Run(busCapacity, writerCapacity, before + more).writer;
            && (Opened(w) ==> Opened(w'))
            && (w.worker == NeverOpened ==> w'.worker == NeverOpened)
            && (!Opened(w') ==> w'.channel == w.channel)
  {
    hide Opened, Step, Run;
    if more == [] {
      assert before + more == before;
    } else {
      QueueStaysOverRun(busCapacity, writerCapacity, before, Front(more));
      AbandonedStaysFixed(busCapacity, writerCapacity, before, Front(more));
      QueueStays(Run(busCapacity, writerCapacity, before + Front(more)), Last(more));
      OneStep(busCapacity, writerCapacity, before + Front(more), Last(more));
      assert before + Front(more) + [Last(more)] == before + more;
    }
  }

  /** What is known about the writer's queue in the end, from the moment the writer is told to stop. */
  lemma WriterQueueInTheEnd(busCapacity: nat, writerCapacity: nat, before: seq<Action>, more: seq<Action>)
    requires busCapacity >= 1 && writerCapacity >= 1
    requires Run(busCapacity, writerCapacity, before).stage == BusStopped
    requires Ended(Run(busCapacity, writerCapacity, before + [StopNext] + more))
    ensures var w := Run(busCapacity, writerCapacity, before).writer;
            var w' := Run(busCapacity, writerCapacity, before + [StopNext] + more).writer;
            && w'.channel.queue == (if w'.worker == Closed then [] else w.channel.queue)
            && (Opened(w) ==> w'.worker == Closed)
            && (w.worker == NeverOpened ==> w'.worker == NeverOpened)
  {
    hide Run, BusInvariant, Wired, Flags, Sound, TakenFrom, LostFrom, Events, Attempted, Stored, Failures;
    OneStep(busCapacity, writerCapacity, before, StopNext);
    QueueStaysOverRun(busCapacity, writerCapacity, before + [StopNext], more);
    InvariantHolds(busCapacity, writerCapacity, before + [StopNext] + more);
  }

  /**
   * The condition at the moment it can still be checked. Stopping the writer accounts for every accepted
   * event in the end, as stored or as counted dropped, exactly when the bus then holds none (its queue is
   * empty and the storage handler has seen the event being handled, if there is one), and the database
   * opens or the writer's queue holds none either.
   */
  lemma AccountedExactlyWhenClear(busCapacity: nat, writerCapacity: nat, before: seq<Action>, more: seq<Action>)
    requires busCapacity >= 1 && writerCapacity >= 1
    requires Run(busCapacity, writerCapacity, before).stage == BusStopped
    requires var s := Run(busCapacity, writerCapacity, before + [StopNext] + more); Ended(s) && s.writer.errors == 0
    ensures var b := Run(busCapacity, writerCapacity, before).bus;
            var w := Run(busCapacity, writerCapacity, before).writer;
            var s := Run(busCapacity, writerCapacity, before + [StopNext] + more);
            Accounted(s) <==>
            && b.channel.queue == [] && InFlight(b.dispatcher) == []
            && (s.writer.worker == Closed || Events(w.channel.queue) == [])
  {
    hide Run, Events, Stored, LostFrom, InFlight, Accounted, Opened;
    AccountedExactlyWhenNoRest(busCapacity, writerCapacity, before + [StopNext] + more);
    IgnoredIsWhatTheBusHeld(busCapacity, writerCapacity, before, more);
    WriterQueueInTheEnd(busCapacity, writerCapacity, before, more);
    NoEvents();
  }

  /** Unless the database is still being opened, all of that is known when the writer is told to stop. */
  lemma AccountedIsKnownAtTheStop(busCapacity: nat, writerCapacity: nat, before: seq<Action>, more: seq<Action>)
    requires busCapacity >= 1 && writerCapacity >= 1
    requires Run(busCapacity, writerCapacity, before).stage == BusStopped
    requires Run(busCapacity, writerCapacity, before).writer.worker != Opening
    requires var s := Run(busCapacity, writerCapacity, before + [StopNext] + more); Ended(s) && s.writer.errors == 0
    ensures var b := Run(busCapacity, writerCapacity, before).bus;
            var w := Run(busCapacity, writerCapacity, before).writer;
            Accounted(Run(busCapacity, writerCapacity, before + [StopNext] + more)) <==>
            && b.channel.queue == [] && InFlight(b.dispatcher) == []
            && (w.worker == NeverOpened ==> Events(w.channel.queue) == [])
  {
    hide Run, Events, InFlight, Accounted;
    AccountedExactlyWhenClear(busCapacity, writerCapacity, before, more);
    WriterQueueInTheEnd(busCapacity, writerCapacity, before, more);
  }

  /**
   * A database that does not open loses everything in this way: the bus is drained, the dispatcher joined,
   * nothing failed and nothing is counted dropped, and the one accepted event is never stored.
   */
  lemma UnopenedDatabaseLosesEvents(e: Event)
    ensures var s := Run(1, 1, [Work(false), Publish(e), Turn, Hand, Finish, ProducersEnd, StopNext, StopNext, StopNext,
                                StopNext, Turn, StopNext, StopNext]);
            && Ended(s) && s.drained && s.joined && s.quietStop && s.writer.errors == 0
            && s.bus.dropped == 0 && s.writer.dropped == 0 && s.writer.ignored == []
            && s.bus.channel.accepted == [e] && Stored(s.writer.writes) == []
  {
    hide Step, Run;
    var t1 := [Work(false), Publish(e), Turn, Hand, Finish, ProducersEnd];
    var t2 := t1 + [StopNext];
    var t3 := t2 + [StopNext];
    var t4 := t3 + [StopNext];
    var t5 := t4 + [StopNext];
    var t6 := t5 + [Turn];
    var t7 := t6 + [StopNext];
    HandedToNobody(e);
    OneStep(1, 1, t1, StopNext);
    OneStep(1, 1, t2, StopNext);
    OneStep(1, 1, t3, StopNext);
    OneStep(1, 1, t4, StopNext);
    OneStep(1, 1, t5, Turn);
    OneStep(1, 1, t6, StopNext);
    OneStep(1, 1, t7, StopNext);
    StoppedUnopened(e);
    assert t7 + [StopNext] == [Work(false), Publish(e), Turn, Hand, Finish, ProducersEnd, StopNext, StopNext, StopNext,
                               StopNext, Turn, StopNext, StopNext];
  }

  /** The event has been handed to a writer that will not take it, and nobody publishes any more. */
  function InDeadQueue(e: Event): System {
    System(Bus(Channel(1, [], [e], [Taken]), true, false, 1, 1, 0, Idle, [], [e]),
           Writer(Channel(1, [EventItem(e)], [EventItem(e)], []), false, NeverOpened, 0, 0, 0, [], []),
           Running, false, false, false, false)
  }

  lemma HandedToNobody(e: Event)
    ensures Run(1, 1, [Work(false), Publish(e), Turn, Hand, Finish, ProducersEnd]) == InDeadQueue(e)
  {
    hide Step, Run;
    var t1 := [] + [Work(false)];
    var t2 := t1 + [Publish(e)];
    var t3 := t2 + [Turn];
    var t4 := t3 + [Hand];
    var t5 := t4 + [Finish];
    OneStep(1, 1, [], Work(false));
    OneStep(1, 1, t1, Publish(e));
    OneStep(1, 1, t2, Turn);
    OneStep(1, 1, t3, Hand);
    OneStep(1, 1, t4, Finish);
    OneStep(1, 1, t5, ProducersEnd);
    UnopenedSteps(e);
    assert t5 + [ProducersEnd] == [Work(false), Publish(e), Turn, Hand, Finish, ProducersEnd];
  }

  lemma UnopenedSteps(e: Event)
    ensures Step(Step(Step(Step(Step(Step(Run(1, 1, []), Work(false)), Publish(e)), Turn), Hand), Finish), ProducersEnd)
            == InDeadQueue(e)
  {
  }

  lemma StoppedUnopened(e: Event)
    ensures var flagged := Step(Step(Step(Step(InDeadQueue(e), StopNext), StopNext), StopNext), StopNext);
            var s := Step(Step(Step(flagged, Turn), StopNext), StopNext);
            && Ended(s) && s.drained && s.joined && s.quietStop && s.writer.errors == 0
            && s.bus.dropped == 0 && s.writer.dropped == 0 && s.writer.ignored == []
            && s.bus.channel.accepted == [e] && Stored(s.writer.writes) == []
  {
  }

  /**
   * What bus.stop returns is not enough for that: it reports an empty queue while the last event is still
   * being handled, and the writer then throws that event away without counting it.
   */
  lemma DrainedIsNotEnough(e: Event)
    ensures var s := Run(1, 1, [Work(true), Publish(e), Turn, ProducersEnd, StopNext, StopNext, StopNext, StopNext,
                                StopNext, StopNext, Hand, Finish, Turn, Work(true), Work(true)]);
            && Ended(s) && s.drained && s.quietStop && s.writer.errors == 0
            && s.bus.dropped == 0 && s.writer.dropped == 0
            && s.bus.channel.accepted == [e] && Stored(s.writer.writes) == []
  {
    hide Step, Run;
    var t1 := [Work(true), Publish(e), Turn, ProducersEnd, StopNext, StopNext, StopNext, StopNext, StopNext, StopNext];
    var t2 := t1 + [Hand];
    var t3 := t2 + [Finish];
    var t4 := t3 + [Turn];
    var t5 := t4 + [Work(true)];
    StoppedTooSoon(e);
    OneStep(1, 1, t1, Hand);
    OneStep(1, 1, t2, Finish);
    OneStep(1, 1, t3, Turn);
    OneStep(1, 1, t4, Work(true));
    OneStep(1, 1, t5, Work(true));
    LateHand(e);
    assert t5 + [Work(true)] == [Work(true), Publish(e), Turn, ProducersEnd, StopNext, StopNext, StopNext, StopNext,
                                 StopNext, StopNext, Hand, Finish, Turn, Work(true), Work(true)];
  }

  /** The event has been popped, both stop flags are set, and the storage handler has not run yet. */
  function CaughtInFlight(e: Event): System {
    System(Bus(Channel(1, [], [e], [Taken]), false, true, 1, 0, 0, Handling(e, false), [], []),
           Writer(Open(1), true, Waiting, 0, 0, 0, [], []), WriterFlagged, false, true, false, true)
  }

  lemma LateHand(e: Event)
    ensures var s := Step(Step(Step(Step(Step(CaughtInFlight(e), Hand), Finish), Turn), Work(true)), Work(true));
            && Ended(s) && s.drained && s.quietStop && s.writer.errors == 0
            && s.bus.dropped == 0 && s.writer.dropped == 0
            && s.bus.channel.accepted == [e] && Stored(s.writer.writes) == []
  {
  }

  lemma StoppedTooSoon(e: Event)
    ensures Run(1, 1, [Work(true), Publish(e), Turn, ProducersEnd, StopNext, StopNext, StopNext, StopNext, StopNext,
                       StopNext])
            == CaughtInFlight(e)
  {
    hide Step, Run;
    var t1 := [] + [Work(true)];
    var t2 := t1 + [Publish(e)];
    var t3 := t2 + [Turn];
    var t4 := t3 + [ProducersEnd];
    var t5 := t4 + [StopNext];
    var t6 := t5 + [StopNext];
    var t7 := t6 + [StopNext];
    var t8 := t7 + [StopNext];
    var t9 := t8 + [StopNext];
    OneStep(1, 1, [], Work(true));
    OneStep(1, 1, t1, Publish(e));
    OneStep(1, 1, t2, Turn);
    OneStep(1, 1, t3, ProducersEnd);
    OneStep(1, 1, t4, StopNext);
    OneStep(1, 1, t5, StopNext);
    OneStep(1, 1, t6, StopNext);
    OneStep(1, 1, t7, StopNext);
    OneStep(1, 1, t8, StopNext);
    OneStep(1, 1, t9, StopNext);
    OpenedAndFlagged(e);
    assert t9 + [StopNext] ==
           [Work(true), Publish(e), Turn, ProducersEnd, StopNext, StopNext, StopNext, StopNext, StopNext, StopNext];
  }

  lemma OpenedAndFlagged(e: Event)
    ensures var ready := Step(Step(Step(Step(Run(1, 1, []), Work(true)), Publish(e)), Turn), ProducersEnd);
            Step(Step(Step(Step(Step(Step(ready, StopNext), StopNext), StopNext), StopNext), StopNext), StopNext)
            == CaughtInFlight(e)
  {
  }

  lemma OneStep(busCapacity: nat, writerCapacity: nat, actions: seq<Action>, a: Action)
    ensures Run(busCapacity, writerCapacity, actions + [a]) == Step(Run(busCapacity, writerCapacity, actions), a)
  {
    assert Front(actions + [a]) == actions;
  }

  // ---- batches ---------------------------------------------------------------------------------------------

  /** A waiting worker takes the oldest items, 200 of them or all if there are fewer, and leaves the others. */
  lemma BatchTaken(w: Writer, ok: bool)
    requires w.worker == Waiting && w.channel.queue != []
    ensures var q := w.channel.queue;
            var batch := if |q| <= 200 then q else q[..200];
            && WorkerStep(w, ok).worker == Writing(batch)
            && batch + WorkerStep(w, ok).channel.queue == q
  {
    hide PopMany;
    var q := w.channel.queue;
    PopManyShape(w.channel, if |q| <= 200 then |q| else 200);
  }

  /** Every transaction attempts at least one item and at most 200. */
  ghost predicate SmallBatches(w: Writer) {
    && (forall b :: b in w.writes ==> 1 <= |b.items| <= 200)
    && (w.worker.Writing? ==> 1 <= |w.worker.batch| <= 200)
  }

  lemma {:induction false} EveryBatchIsSmall(busCapacity: nat, writerCapacity: nat, actions: seq<Action>)
    requires busCapacity >= 1 && writerCapacity >= 1
    ensures SmallBatches(Run(busCapacity, writerCapacity, actions).writer)
  {
    hide Step, WorkerStep;
    if actions == [] {
    } else {
      var s, a := Run(busCapacity, writerCapacity, Front(actions)), Last(actions);
      EveryBatchIsSmall(busCapacity, writerCapacity, Front(actions));
      NoLastWrite(busCapacity, writerCapacity, Front(actions));
      if a.Work? { SmallStep(s.writer, a.ok); }
      OnlyWorkWrites(s, a);
    }
  }

  lemma NoLastWrite(busCapacity: nat, writerCapacity: nat, actions: seq<Action>)
    requires busCapacity >= 1 && writerCapacity >= 1
    ensures var w := Run(busCapacity, writerCapacity, actions).writer;
            !w.worker.LastWrite? && (w.worker == Draining ==> w.channel.queue == [])
  {
    hide Run, Wired, Flags, BusInvariant;
    InvariantHolds(busCapacity, writerCapacity, actions);
  }

  lemma SmallStep(w: Writer, ok: bool)
    requires SmallBatches(w) && !w.worker.LastWrite?
    ensures SmallBatches(WorkerStep(w, ok))
  {
    if w.worker == Waiting && w.channel.queue != [] { BatchTaken(w, ok); }
  }

  lemma OnlyWorkWrites(s: System, a: Action)
    ensures a.Work? ==> Step(s, a).writer == WorkerStep(s.writer, a.ok)
    ensures !a.Work? ==> Step(s, a).writer.writes == s.writer.writes && Step(s, a).writer.worker == s.writer.worker
  {
    hide Published, LoopTurn, Handed, Finished, Push, StopFlagged, WorkerStep;
  }

  // ---- items that do not come from the bus -----------------------------------------------------------------

  /** Detections, alerts and actions among some items, by their tags. */
  function Others(items: seq<Item>): seq<nat> {
    if items == [] then [] else Others(Front(items)) + if Last(items).OtherItem? then [Last(items).tag] else []
  }

  /** What detection, alerting and responses have handed to the writer. */
  function HandedIn(actions: seq<Action>): seq<nat> {
    if actions == [] then []
    else HandedIn(Front(actions)) + if Last(actions).EnqueueOther? then [Last(actions).tag] else []
  }

  lemma OneMoreOther(items: seq<Item>, x: Item)
    ensures Others(items + [x]) == Others(items) + if x.OtherItem? then [x.tag] else []
  {
    assert Front(items + [x]) == items;
  }

  lemma OthersAfter(s: System, a: Action)
    requires WriterInvariant(s.writer)
    ensures var w, w' := s.writer, Step(s, a).writer;
            Others(w'.channel.accepted) + Others(w'.ignored) ==
            Others(w.channel.accepted) + Others(w.ignored) + if a.EnqueueOther? then [a.tag] else []
  {
    hide Others, Published, LoopTurn, Handed, Finished, Enqueued, WorkerStep, WriterInvariant;
    var w := s.writer;
    var before := Others(w.channel.accepted) + Others(w.ignored);
    assert before + [] == before;
    match a
    case EnqueueOther(tag) => EnqueuedOthers(w, OtherItem(tag));
    case Hand =>
      if s.bus.dispatcher.Handling? { EnqueuedOthers(w, EventItem(s.bus.dispatcher.event)); }
    case Work(ok) => WorkIsLocal(w, ok);
    case _ =>
  }

  lemma EnqueuedOthers(w: Writer, x: Item)
    requires WriterInvariant(w)
    ensures Others(Enqueued(w, x).channel.accepted) + Others(Enqueued(w, x).ignored) ==
            Others(w.channel.accepted) + Others(w.ignored) + if x.OtherItem? then [x.tag] else []
  {
    hide Others, Full;
    if w.stopping {
      OneMoreOther(w.ignored, x);
    } else {
      OneMoreOther(w.channel.accepted, x);
      assert w.ignored == [] && Others([]) == [] by { NoOthers(); }
    }
  }

  lemma NoOthers()
    ensures Others([]) == []
  {
  }

  /** Over every run the writer accepts every such item in order, until it stops, and ignores the rest. */
  lemma {:induction false} OthersAreAccepted(busCapacity: nat, writerCapacity: nat, actions: seq<Action>)
    requires busCapacity >= 1 && writerCapacity >= 1
    ensures var w := Run(busCapacity, writerCapacity, actions).writer;
            && Others(w.channel.accepted) + Others(w.ignored) == HandedIn(actions)
            && (w.ignored != [] ==> w.stopping)
  {
    hide Step, BusInvariant, Wired, Flags;
    if actions == [] {
    } else {
      OthersAreAccepted(busCapacity, writerCapacity, Front(actions));
      InvariantHolds(busCapacity, writerCapacity, Front(actions));
      InvariantHolds(busCapacity, writerCapacity, actions);
      OthersAfter(Run(busCapacity, writerCapacity, Front(actions)), Last(actions));
    }
  }

  // ---- both threads come to an end -------------------------------------------------------------------------

  /** The dispatcher left to itself: it finishes with an event and goes round its loop. */
  function DispatcherRounds(n: nat): seq<Action> {
    if n == 0 then [] else DispatcherRounds(n - 1) + [Hand, Finish, Turn]
  }

  function Round(b: Bus): Bus {
    LoopTurn(Finished(Handed(b)))
  }

  lemma RoundMakesProgress(b: Bus)
    requires b.stopping
    ensures var q := b.channel.queue;
            && Round(b).stopping
            && (b.dispatcher == Returned ==> Round(b) == b)
            && (b.dispatcher != Returned && q == [] ==> Round(b).dispatcher == Returned && Round(b).channel.queue == [])
            && (b.dispatcher != Returned && q != [] ==>
                  Round(b).dispatcher.Handling? && Round(b).channel.queue == q[1..])
    ensures b.dispatcher != Returned ==>
              Round(b).delivered + InFlight(Round(b).dispatcher) + Round(b).channel.queue ==
              b.delivered + InFlight(b.dispatcher) + b.channel.queue
  {
  }

  lemma RoundOfSteps(busCapacity: nat, writerCapacity: nat, actions: seq<Action>)
    ensures Run(busCapacity, writerCapacity, actions + [Hand, Finish, Turn]).bus ==
            Round(Run(busCapacity, writerCapacity, actions).bus)
  {
    hide LoopTurn, Finished, Enqueued;
    var a := actions + [Hand];
    var b := a + [Finish];
    OneStep(busCapacity, writerCapacity, actions, Hand);
    OneStep(busCapacity, writerCapacity, a, Finish);
    OneStep(busCapacity, writerCapacity, b, Turn);
    assert b + [Turn] == actions + [Hand, Finish, Turn];
  }

  lemma {:induction false} RoundsDrain(busCapacity: nat, writerCapacity: nat, actions: seq<Action>, n: nat)
    requires Run(busCapacity, writerCapacity, actions).bus.stopping
    requires Run(busCapacity, writerCapacity, actions).bus.dispatcher != Returned
    ensures var b := Run(busCapacity, writerCapacity, actions).bus;
            var c := Run(busCapacity, writerCapacity, actions + DispatcherRounds(n)).bus;
            && c.stopping
            && (n <= |b.channel.queue| ==> c.dispatcher != Returned && |c.channel.queue| == |b.channel.queue| - n)
            && (n > |b.channel.queue| ==> c.dispatcher == Returned && c.channel.queue == [])
            && c.delivered + InFlight(c.dispatcher) + c.channel.queue ==
               b.delivered + InFlight(b.dispatcher) + b.channel.queue
  {
    hide Run, Round, InFlight;
    if n == 0 {
      assert actions + DispatcherRounds(0) == actions;
    } else {
      var before := actions + DispatcherRounds(n - 1);
      RoundsDrain(busCapacity, writerCapacity, actions, n - 1);
      assert actions + DispatcherRounds(n) == before + [Hand, Finish, Turn];
      RoundOfSteps(busCapacity, writerCapacity, before);
      RoundMakesProgress(Run(busCapacity, writerCapacity, before).bus);
    }
  }

  /**
   * Once the bus has been told to stop, a dispatcher that is given one turn more than there are events queued
   * returns, having delivered the one it was handling and every queued one, in order.
   */
  lemma DispatcherComesToAnEnd(busCapacity: nat, writerCapacity: nat, actions: seq<Action>)
    requires busCapacity >= 1 && writerCapacity >= 1
    requires Run(busCapacity, writerCapacity, actions).bus.stopping
    ensures var b := Run(busCapacity, writerCapacity, actions).bus;
            var c := Run(busCapacity, writerCapacity, actions + DispatcherRounds(|b.channel.queue| + 1)).bus;
            && c.dispatcher == Returned && c.channel.queue == []
            && c.delivered == b.delivered + InFlight(b.dispatcher) + b.channel.queue
  {
    hide Run, Round, Wired, Flags, WriterInvariant;
    var b := Run(busCapacity, writerCapacity, actions).bus;
    InvariantHolds(busCapacity, writerCapacity, actions);
    if b.dispatcher == Returned {
      RoundsStay(busCapacity, writerCapacity, actions, |b.channel.queue| + 1);
    } else {
      RoundsDrain(busCapacity, writerCapacity, actions, |b.channel.queue| + 1);
    }
  }

  lemma {:induction false} RoundsStay(busCapacity: nat, writerCapacity: nat, actions: seq<Action>, n: nat)
    requires Run(busCapacity, writerCapacity, actions).bus.stopping
    requires Run(busCapacity, writerCapacity, actions).bus.dispatcher == Returned
    ensures Run(busCapacity, writerCapacity, actions + DispatcherRounds(n)).bus ==
            Run(busCapacity, writerCapacity, actions).bus
  {
    hide Run, Round;
    if n == 0 {
      assert actions + DispatcherRounds(0) == actions;
    } else {
      var before := actions + DispatcherRounds(n - 1);
      RoundsStay(busCapacity, writerCapacity, actions, n - 1);
      assert actions + DispatcherRounds(n) == before + [Hand, Finish, Turn];
      RoundOfSteps(busCapacity, writerCapacity, before);
      RoundMakesProgress(Run(busCapacity, writerCapacity, before).bus);
    }
  }

  /** The writer thread left to itself, with a database that opens and takes every batch. */
  function WorkerRounds(n: nat): seq<Action> {
    if n == 0 then [] else WorkerRounds(n - 1) + [Work(true)]
  }

  /** How many more steps it needs at most. */
  function StepsLeft(w: Writer): nat {
    var n := |w.channel.queue|;
    match w.worker
    case Opening => 2 * n + 4
    case Waiting => 2 * n + 3
    case Writing(_) => 2 * n + 4
    case Draining => 2
    case LastWrite(_) => 1
    case Closed => 0
    case NeverOpened => 0
  }

  /** What it holds in its hands. */
  function InHand(w: Writer): seq<Item> {
    if w.worker.Writing? || w.worker.LastWrite? then w.worker.batch else []
  }

  lemma WorkMakesProgress(w: Writer)
    requires w.stopping && w.worker != NeverOpened
    ensures var after := WorkerStep(w, true);
            && after.stopping && after.worker != NeverOpened
            && (w.worker == Closed ==> after == w)
            && (w.worker != Closed ==> StepsLeft(after) < StepsLeft(w))
            && Stored(after.writes) + InHand(after) + after.channel.queue ==
               Stored(w.writes) + InHand(w) + w.channel.queue
  {
    hide Stored, PopMany;
    if w.worker == Waiting && w.channel.queue != [] {
      TakingMakesProgress(w);
    } else if w.worker == Draining && w.channel.queue != [] {
      PopManyShape(w.channel, |w.channel.queue|);
    } else if w.worker.Writing? || w.worker.LastWrite? {
      WritingMakesProgress(w);
    }
  }

  lemma TakingMakesProgress(w: Writer)
    requires w.stopping && w.worker == Waiting && w.channel.queue != []
    ensures var after := WorkerStep(w, true);
            && after.stopping && after.worker.Writing? && |after.channel.queue| < |w.channel.queue|
            && Stored(after.writes) + InHand(after) + after.channel.queue ==
               Stored(w.writes) + InHand(w) + w.channel.queue
  {
    hide Stored, PopMany;
    BatchTaken(w, true);
    var after := WorkerStep(w, true);
    assert InHand(w) == [] && after.writes == w.writes;
    assert Stored(w.writes) + [] == Stored(w.writes);
    assert InHand(after) + after.channel.queue == w.channel.queue;
    assert Stored(w.writes) + InHand(after) + after.channel.queue == Stored(w.writes) + w.channel.queue;
  }

  lemma WritingMakesProgress(w: Writer)
    requires w.worker.Writing? || w.worker.LastWrite?
    ensures var after := WorkerStep(w, true);
            && after.worker == (if w.worker.Writing? then Waiting else Closed)
            && after.channel == w.channel && after.stopping == w.stopping
            && Stored(after.writes) + InHand(after) == Stored(w.writes) + InHand(w)
  {
    hide Stored;
    OneMoreWrite(w.writes, Batch(w.worker.batch, true));
    var after := WorkerStep(w, true);
    assert InHand(after) == [];
  }

  lemma {:induction false} WorkerRoundsDrain(busCapacity: nat, writerCapacity: nat, actions: seq<Action>, n: nat)
    requires var w := Run(busCapacity, writerCapacity, actions).writer; w.stopping && w.worker != NeverOpened
    ensures var w := Run(busCapacity, writerCapacity, actions).writer;
            var after := Run(busCapacity, writerCapacity, actions + WorkerRounds(n)).writer;
            && after.stopping && after.worker != NeverOpened
            && (after.worker == Closed || StepsLeft(after) + n <= StepsLeft(w))
            && Stored(after.writes) + InHand(after) + after.channel.queue ==
               Stored(w.writes) + InHand(w) + w.channel.queue
  {
    hide Run, WorkerStep, Stored, InHand, StepsLeft;
    if n == 0 {
      assert actions + WorkerRounds(0) == actions;
    } else {
      var before := actions + WorkerRounds(n - 1);
      WorkerRoundsDrain(busCapacity, writerCapacity, actions, n - 1);
      assert actions + WorkerRounds(n) == before + [Work(true)];
      OneStep(busCapacity, writerCapacity, before, Work(true));
      WorkMakesProgress(Run(busCapacity, writerCapacity, before).writer);
    }
  }

  /** Once told to stop, a writer that opens its database closes it, having stored its batch and everything queued. */
  lemma WriterComesToAnEnd(busCapacity: nat, writerCapacity: nat, actions: seq<Action>, n: nat)
    requires busCapacity >= 1 && writerCapacity >= 1
    requires var w := Run(busCapacity, writerCapacity, actions).writer;
             w.stopping && w.worker != NeverOpened && n >= 2 * |w.channel.queue| + 4
    ensures var w := Run(busCapacity, writerCapacity, actions).writer;
            var after := Run(busCapacity, writerCapacity, actions + WorkerRounds(n)).writer;
            && after.worker == Closed && after.channel.queue == []
            && Stored(after.writes) == Stored(w.writes) + InHand(w) + w.channel.queue
  {
    hide Run, Wired, Flags, BusInvariant, Stored;
    WorkerRoundsDrain(busCapacity, writerCapacity, actions, n);
    InvariantHolds(busCapacity, writerCapacity, actions + WorkerRounds(n));
    if Run(busCapacity, writerCapacity, actions + WorkerRounds(n)).writer.worker != Closed {
      StepsRemain(Run(busCapacity, writerCapacity, actions + WorkerRounds(n)).writer);
    }
  }

  lemma StepsRemain(w: Writer)
    requires w.worker != Closed && w.worker != NeverOpened
    ensures StepsLeft(w) >= 1
  {
  }
}
