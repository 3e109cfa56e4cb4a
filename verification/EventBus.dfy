/**
 * The event bus object (src/threatlens/core/event_bus.py). Each method is one block under the lock, or
 * one handler call of the dispatcher thread, and has exactly the effect of the matching pipeline step.
 */
module EventBus {
  import opened Collections
  import opened Channels
  import opened EventPipeline

  class EventBus {
    const capacity: nat
    var queue: seq<Event>
    var accepting: bool
    var stopping: bool
    var published: nat
    var dispatched: nat
    var dropped: nat
    ghost var dispatcher: Dispatcher
    ghost var accepted: seq<Event>
    ghost var fates: seq<Fate>
    ghost var refused: seq<Event>
    ghost var delivered: seq<Event>

    ghost function State(): Bus
      reads this
    {
      Bus(Channel(capacity, queue, accepted, fates), accepting, stopping, published, dispatched, dropped,
          dispatcher, refused, delivered)
    }

    constructor (size: nat)
      requires size >= 1
      ensures State() == Init(size, 1).bus
    {
      capacity := size;
      queue := [];
      accepting, stopping := true, false;
      published, dispatched, dropped := 0, 0, 0;
      dispatcher, accepted, fates, refused, delivered := Idle, [], [], [], [];
    }

    method Publish(e: Event) returns (taken: bool)
      requires capacity >= 1
      modifies this
      ensures State() == Published(old(State()), e)
      ensures taken == old(accepting)
    {
      if !accepting {
        dropped := dropped + 1;
        refused := refused + [e];
        return false;
      }
      if |queue| >= capacity {
        queue := queue[1..];
        fates := fates + [Overflowed];
        dropped := dropped + 1;
      }
      queue := queue + [e];
      accepted := accepted + [e];
      published := published + 1;
      return true;
    }

    /** One turn of the dispatcher's loop; it has waited until there is an event or a request to stop. */
    method TakeNext() returns (next: Option<Event>)
      requires dispatcher == Idle && (queue != [] || stopping)
      modifies this
      ensures State() == LoopTurn(old(State()))
      ensures next == if old(queue) == [] then None else Some(old(queue)[0])
    {
      if queue == [] {
        dispatcher := Returned;
        return None;
      }
      var event := queue[0];
      queue := queue[1..];
      fates := fates + [Taken];
      dispatcher := Handling(event, false);
      return Some(event);
    }

    ghost method Hand()
      requires dispatcher.Handling? && !dispatcher.handed
      modifies this
      ensures State() == Handed(old(State()))
    {
      delivered := delivered + [dispatcher.event];
      dispatcher := Handling(dispatcher.event, true);
    }

    method Finish()
      requires dispatcher.Handling? && dispatcher.handed
      modifies this
      ensures State() == Finished(old(State()))
    {
      dispatched := dispatched + 1;
      dispatcher := Idle;
    }

    method FlagStop()
      modifies this
      ensures State() == StopFlagged(old(State()))
    {
      accepting := false;
      stopping := true;
    }
  }
}
