/**
  The outgoing Socket.IO batcher up to the point where a batch is drained. Each step below runs
  without suspending, so it is atomic in the event loop: the critical sections hold no await.
 */
module Batcher {
  import opened Wrappers

  const MAX_BATCH_SIZE := 5

  datatype Item = Item(event: nat, data: nat)

  /** `timer` is the field _flush_task, `sleeping` the latency tasks waiting to wake up,
      `scheduled` the detached flush tasks that have not run yet. */
  datatype State = State(
    queue: seq<Item>,
    timer: Option<nat>,
    sleeping: set<nat>,
    scheduled: nat,
    nextTask: nat,
    enqueued: seq<Item>,       // for the proofs: everything ever enqueued,
    drained: seq<seq<Item>>)   // and the batches drained so far

  datatype Event =
    | Enqueue(item: Item)
    | Wake(task: nat)      // a latency task wakes up and flushes
    | RunFlush             // a scheduled flush task runs
    | FlushNow             // a forced flush

  /** The critical section of _flush. */
  function Drain(s: State): State {
    if s.queue == [] then s
    else
      s.(queue := [], drained := s.drained + [s.queue], timer := None,
         sleeping := if s.timer.Some? then s.sleeping - {s.timer.value} else s.sleeping)
  }

  predicate Enabled(s: State, e: Event) {
    match e
    case Wake(task) => task in s.sleeping
    case RunFlush => s.scheduled > 0
    case _ => true
  }

  function Handle(s: State, e: Event): State
    requires Enabled(s, e)
  {
    match e
    case Enqueue(item) =>
      var s1 := s.(queue := s.queue + [item], enqueued := s.enqueued + [item]);
      if |s1.queue| >= MAX_BATCH_SIZE then s1.(scheduled := s.scheduled + 1)
      else if s.timer.None? then
        s1.(timer := Some(s.nextTask), sleeping := s.sleeping + {s.nextTask}, nextTask := s.nextTask + 1)
      else s1
    case Wake(task) => Drain(s.(sleeping := s.sleeping - {task}))
    case RunFlush => Drain(s.(scheduled := s.scheduled - 1))
    case FlushNow => Drain(s)
  }

  predicate ValidRun(es: seq<Event>)
    decreases |es|, 0
  {
    es == [] || (ValidRun(es[..|es| - 1]) && Enabled(Run(es[..|es| - 1]), es[|es| - 1]))
  }

  function Run(es: seq<Event>): State
    requires ValidRun(es)
    decreases |es|, 1
  {
    if es == [] then State([], None, {}, 0, 0, [], []) else Handle(Run(es[..|es| - 1]), es[|es| - 1])
  }

  class OutgoingBatcher {
    var queue: seq<Item>
    var flushTask: Option<nat>
    ghost var sleeping: set<nat>
    ghost var scheduled: nat
    var nextTask: nat
    ghost var enqueued: seq<Item>
    ghost var drained: seq<seq<Item>>

    ghost function Snapshot(): State
      reads this
    {
      State(queue, flushTask, sleeping, scheduled, nextTask, enqueued, drained)
    }

    method EnqueueItem(item: Item)
      modifies this
      ensures Snapshot() == Handle(old(Snapshot()), Enqueue(item))
    {
      queue := queue + [item];
      enqueued := enqueued + [item];
      var shouldFlushNow := |queue| >= MAX_BATCH_SIZE;
      var shouldStartTimer := flushTask.None? && !shouldFlushNow;
      if shouldFlushNow {
        scheduled := scheduled + 1;
      } else if shouldStartTimer {
        flushTask := Some(nextTask);
        sleeping := sleeping + {nextTask};
        nextTask := nextTask + 1;
      }
    }

    method Flush() returns (batch: seq<Item>)
      modifies this
      ensures Snapshot() == Drain(old(Snapshot())) && batch == old(queue)
    {
      batch := queue;
      if queue == [] {
        return;
      }
      queue := [];
      drained := drained + [batch];
      if flushTask.Some? {
        sleeping := sleeping - {flushTask.value};
      }
      flushTask := None;
    }
  }

  // ---------------------------------------------------------------- what holds of every run

  function Concat(batches: seq<seq<Item>>): seq<Item> {
    if batches == [] then [] else Concat(batches[..|batches| - 1]) + batches[|batches| - 1]
  }

  /** Nothing is lost, repeated or reordered, and whatever is queued will be flushed. */
  ghost predicate Safe(s: State) {
    && Concat(s.drained) + s.queue == s.enqueued
    && s.sleeping == (if s.timer.Some? then {s.timer.value} else {})
    && (s.queue != [] ==> s.timer.Some? || s.scheduled > 0)
    && (|s.queue| >= MAX_BATCH_SIZE ==> s.scheduled > 0)
    && (s.queue == [] ==> s.timer.None?)
    && (forall b :: b in s.drained ==> b != [])
  }

  lemma DrainSafe(s: State)
    requires Concat(s.drained) + s.queue == s.enqueued
    requires s.timer.Some? ==> s.sleeping <= {s.timer.value}
    requires s.timer.None? ==> s.sleeping == {}
    requires s.queue == [] ==> s.timer.None?
    requires forall b :: b in s.drained ==> b != []
    ensures Safe(Drain(s)) && Drain(s).queue == []
  {
    assert (s.drained + [s.queue])[..|s.drained|] == s.drained;
  }

  lemma HandleSafe(s: State, e: Event)
    requires Safe(s) && Enabled(s, e)
    ensures Safe(Handle(s, e))
  {
    match e
    case Enqueue(item) => assert Concat(s.drained) + (s.queue + [item]) == s.enqueued + [item];
    case Wake(task) => DrainSafe(s.(sleeping := s.sleeping - {task}));
    case RunFlush => DrainSafe(s.(scheduled := s.scheduled - 1));
    case FlushNow => DrainSafe(s);
  }

  /** Under every interleaving of enqueues, timers and flushes. */
  lemma {:induction false} BatcherSafe(es: seq<Event>)
    requires ValidRun(es)
    ensures Safe(Run(es))
    decreases |es|
  {
    if es != [] {
      BatcherSafe(es[..|es| - 1]);
      HandleSafe(Run(es[..|es| - 1]), es[|es| - 1]);
    }
  }

  /** From any reachable state with something queued, some timer or flush step is possible, and
      whichever runs first drains the whole queue. */
  lemma NextFlushDrains(es: seq<Event>, e: Event)
    requires ValidRun(es) && Run(es).queue != []
    ensures (exists t :: Enabled(Run(es), Wake(t))) || Enabled(Run(es), RunFlush)
    ensures !e.Enqueue? && Enabled(Run(es), e) ==>
      Handle(Run(es), e).queue == [] && Handle(Run(es), e).drained == Run(es).drained + [Run(es).queue]
  {
    BatcherSafe(es);
    var s := Run(es);
    if s.timer.Some? { assert Enabled(s, Wake(s.timer.value)); }
  }

  // ---------------------------------------------------------------- what enqueues start

  function ItemsOf(es: seq<Event>): seq<Item> {
    if es == [] then []
    else ItemsOf(es[..|es| - 1]) + if es[|es| - 1].Enqueue? then [es[|es| - 1].item] else []
  }

  /** The drained batches followed by the queue are the items of the enqueue events, in order. */
  lemma NothingLost(es: seq<Event>)
    requires ValidRun(es)
    ensures Concat(Run(es).drained) + Run(es).queue == ItemsOf(es)
  {
    EnqueuedExactly(es);
    BatcherSafe(es);
  }

  lemma {:induction false} EnqueuedExactly(es: seq<Event>)
    requires ValidRun(es)
    ensures Run(es).enqueued == ItemsOf(es)
    decreases |es|
  {
    if es != [] { EnqueuedExactly(es[..|es| - 1]); }
  }

  function EnqueueAll(s: State, items: seq<Item>): State {
    if items == [] then s else Handle(EnqueueAll(s, items[..|items| - 1]), Enqueue(items[|items| - 1]))
  }

  /**
    A burst on an empty queue, from any reachable state. One timer is started, by the first
    item, and no other. The first four items schedule no flush; each from the fifth on
    schedules one.
   */
  lemma BurstOutcome(es: seq<Event>, items: seq<Item>)
    requires ValidRun(es) && Run(es).queue == [] && items != []
    ensures
      var s, s' := Run(es), EnqueueAll(Run(es), items);
      && s'.queue == items && s'.drained == s.drained
      && s'.timer == Some(s.nextTask) && s'.sleeping == {s.nextTask}
      && s'.scheduled == s.scheduled + if |items| < MAX_BATCH_SIZE then 0 else |items| - (MAX_BATCH_SIZE - 1)
  {
    BatcherSafe(es);
    Burst(Run(es), items);
  }

  lemma {:induction false} Burst(s: State, items: seq<Item>)
    requires s.queue == [] && s.timer.None? && s.sleeping == {} && items != []
    ensures
      var s' := EnqueueAll(s, items);
      && s'.queue == items && s'.drained == s.drained
      && s'.timer == Some(s.nextTask) && s'.sleeping == {s.nextTask}
      && s'.scheduled == s.scheduled + if |items| < MAX_BATCH_SIZE then 0 else |items| - (MAX_BATCH_SIZE - 1)
  {
    var front := items[..|items| - 1];
    if front == [] {
      assert EnqueueAll(s, front) == s;
    } else {
      Burst(s, front);
    }
    assert items == front + [items[|items| - 1]];
  }
}
