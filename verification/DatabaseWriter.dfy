/**
 * The database writer object (src/threatlens/storage/writer.py). Each method is one block under the
 * lock, or one transaction of the worker thread, and has exactly the effect of the matching step.
 */
module DatabaseWriter {
  import opened Collections
  import opened Channels
  import opened EventPipeline

  lemma PopManyStep<T>(c: Channel<T>, n: nat)
    requires 0 < n <= |c.queue|
    ensures PopMany(c, n) == PopMany(Pop(c), n - 1)
  {
  }

  /** What a waiting worker does when its wait has ended. */
  lemma WaitingStep(w: Writer)
    requires w.worker == Waiting
    ensures var n := if |w.channel.queue| < BATCH_SIZE then |w.channel.queue| else BATCH_SIZE;
            WorkerStep(w, true) ==
            if w.channel.queue != [] then
              w.(channel := PopMany(w.channel, n), worker := Writing(w.channel.queue[..n]))
            else if w.stopping then w.(worker := Draining)
            else w
  {
  }

  lemma OneFurther<T>(s: seq<T>, i: nat)
    requires i < |s|
    ensures s[..i] + [s[i..][0]] == s[..i + 1] && s[i..][1..] == s[i + 1..]
  {
  }

  class DatabaseWriter {
    const capacity: nat
    var queue: seq<Item>
    var stopping: bool
    var written: nat
    var dropped: nat
    var errors: nat
    ghost var worker: Worker
    ghost var accepted: seq<Item>
    ghost var fates: seq<Fate>
    ghost var writes: seq<Batch>
    ghost var ignored: seq<Item>

    ghost function State(): Writer
      reads this
    {
      Writer(Backlog(), stopping, worker, written, dropped, errors, writes, ignored)
    }

    ghost function Backlog(): Channel<Item>
      reads this
    {
      Channel(capacity, queue, accepted, fates)
    }

    constructor (size: nat)
      ensures State() == Init(1, size).writer
    {
      capacity := size;
      queue := [];
      stopping := false;
      written, dropped, errors := 0, 0, 0;
      worker, accepted, fates, writes, ignored := Opening, [], [], [], [];
    }

    method Enqueue(x: Item)
      requires capacity >= 1
      modifies this
      ensures State() == Enqueued(old(State()), x)
    {
      if stopping {
        ignored := ignored + [x];
        return;
      }
      if |queue| >= capacity {
        queue := queue[1..];
        fates := fates + [Overflowed];
        dropped := dropped + 1;
      }
      queue := queue + [x];
      accepted := accepted + [x];
    }

    /** Up to BATCH_SIZE items, oldest first, or None when stopping and drained; the wait has ended. */
    method TakeBatch() returns (batch: Option<seq<Item>>)
      requires worker == Waiting && (queue != [] || stopping)
      modifies this
      ensures State() == WorkerStep(old(State()), true)
      ensures batch.Some? <==> worker == Writing(if batch.Some? then batch.value else [])
    {
      hide PopMany, WorkerStep;
      WaitingStep(State());
      if queue == [] {
        worker := Draining;
        return None;
      }
      var n := if |queue| < BATCH_SIZE then |queue| else BATCH_SIZE;
      var items: seq<Item> := [];
      while |items| < n
        invariant |items| <= n <= |old(queue)|
        invariant items == old(queue)[..|items|] && queue == old(queue)[|items|..]
        invariant PopMany(Backlog(), n - |items|) == PopMany(old(Backlog()), n)
        invariant State() == old(State()).(channel := Backlog())
      {
        PopManyStep(Backlog(), n - |items|);
        OneFurther(old(queue), |items|);
        items := items + [queue[0]];
        queue := queue[1..];
        fates := fates + [Taken];
      }
      PopManyShape(Backlog(), 0);
      worker := Writing(items);
      return Some(items);
    }

    /** Whatever is left when the loop has ended is taken as one last batch. */
    method TakeRemaining() returns (remaining: seq<Item>)
      requires worker == Draining
      modifies this
      ensures State() == WorkerStep(old(State()), true)
      ensures remaining == old(queue)
    {
      remaining := queue;
      PopManyShape(Backlog(), |queue|);
      worker := if queue == [] then Closed else LastWrite(queue);
      fates := PopMany(Backlog(), |queue|).fates;
      queue := [];
    }

    /** One transaction; ok says whether it commits. */
    method WriteBatch(batch: seq<Item>, ok: bool)
      requires worker == Writing(batch) || worker == LastWrite(batch)
      modifies this
      ensures State() == WorkerStep(old(State()), ok)
    {
      if ok {
        written := written + |batch|;
      } else {
        errors := errors + 1;
      }
      writes := writes + [Batch(batch, ok)];
      worker := if worker.Writing? then Waiting else Closed;
    }

    method FlagStop()
      modifies this
      ensures State() == old(State()).(stopping := true)
    {
      stopping := true;
    }
  }
}
