/**
 The one way out for unfinished work: a retry that finds the queue full.
 */
module BackgroundRetries {
  import opened Common
  import opened Background
  import opened BackgroundProperties

  /** A failed task leaves for good without its remaining attempts exactly when the queue is full at that
      moment, overflow file or not: retries are not spilled. */
  lemma RefusedIff(s: State, e: Event)
    requires Enabled(s, e)
    ensures Next(s, e).refused != s.refused <==> e.Retry? && s.threads[e.t].task.CanRetry() && Full(s)
  {}

  /** Some run from here refuses a retry. */
  ghost predicate MayRefuse(s: State) {
    exists events: seq<Event>, end: State :: Runs(s, events, end) && end.refused != []
  }

  predicate AtWork(th: Thread) { th.Holding? || th.Running? || th.Failing? }

  /** With an unbounded queue, or while the one thread at work is the one that could fill the queue. */
  predicate RoomForRetry(s: State) {
    || s.capacity == 0
    || (|s.threads| <= 1 && forall t :: 0 <= t < |s.threads| && AtWork(s.threads[t]) ==> |s.queue| < s.capacity)
  }

  lemma RoomStays(s: State, e: Event)
    requires Enabled(s, e) && WithinCapacity(s) && RoomForRetry(s) && s.refused == []
    ensures RoomForRetry(Next(s, e)) && Next(s, e).refused == []
  {
    if s.capacity == 0 {
      NothingRefused(s, e);
    } else if !e.Register? {
      assert AtWork(s.threads[e.t]) ==> |s.queue| < s.capacity;
      NothingRefused(s, e);
      OneThreadMoves(s, e);
      if IsWorkerStep(e) {
        WorkerRoom(s, e);
      }
    }
  }

  lemma NothingRefused(s: State, e: Event)
    requires Enabled(s, e) && (e.Retry? ==> !Full(s))
    ensures Next(s, e).refused == s.refused && Next(s, e).capacity == s.capacity
  {}

  lemma WorkerRoom(s: State, e: Event)
    requires Enabled(s, e) && IsWorkerStep(e) && 0 < s.capacity && |s.queue| <= s.capacity
    requires AtWork(s.threads[e.t]) ==> |s.queue| < s.capacity
    ensures AtWork(Next(s, e).threads[e.t]) ==> |Next(s, e).queue| < s.capacity
  {}

  lemma {:induction false} RoomAlways(s: State, events: seq<Event>, end: State)
    requires Runs(s, events, end) && WithinCapacity(s) && RoomForRetry(s) && s.refused == []
    ensures end.refused == []
    decreases |events|
  {
    if events != [] {
      RoomStays(s, events[0]);
      WithinCapacityStays(s, events[0]);
      RoomAlways(Next(s, events[0]), events[1..], end);
    }
  }

  lemma MayRefuseBefore(s: State, e: Event)
    requires Enabled(s, e) && MayRefuse(Next(s, e))
    ensures MayRefuse(s)
  {
    var events: seq<Event>, end: State :| Runs(Next(s, e), events, end) && end.refused != [];
    assert ([e] + events)[1..] == events;
    assert Runs(s, [e] + events, end);
  }

  // One task is inside its handler while the other thread fills the queue.
  lemma {:induction false} BusyWorkerMayRefuse(s: State)
    requires |s.threads| >= 2 && s.threads[0].Idle? && s.threads[1].Running? && s.threads[1].task.CanRetry()
    requires 0 < s.capacity && |s.queue| <= s.capacity
    ensures MayRefuse(s)
    decreases s.capacity - |s.queue|
  {
    if Full(s) {
      var failed := Next(s, Fail(1));
      var refused := Next(failed, Retry(1));
      assert refused.refused == s.refused + [s.threads[1].task];
      assert Runs(refused, [], refused);
      MayRefuseBefore(failed, Retry(1));
      MayRefuseBefore(s, Fail(1));
    } else {
      BusyWorkerMayRefuse(Next(s, Submit(0, "job")));
      MayRefuseBefore(s, Submit(0, "job"));
    }
  }

  lemma IdleWorkerMayRefuse(s: State, task: MemoryTask)
    requires |s.threads| >= 2 && s.threads[0].Idle? && s.threads[1].Idle? && s.capacity > 0
    requires s.queue == [task] && task.job in s.handlers && task.attempt + 1 < task.maxAttempts
    ensures MayRefuse(s)
  {
    var taken := Next(s, Take(1));
    BusyWorkerMayRefuse(Next(taken, Begin(1)));
    MayRefuseBefore(taken, Begin(1));
    MayRefuseBefore(s, Take(1));
  }

  lemma TwoThreadsMayRefuse(s: State)
    requires Start(s) && s.capacity > 0 && |s.threads| >= 2
    ensures MayRefuse(s)
  {
    var known := Next(s, Register("job"));
    IdleWorkerMayRefuse(Next(known, Submit(0, "job")), NewTask(s.next, "job"));
    MayRefuseBefore(known, Submit(0, "job"));
    MayRefuseBefore(s, Register("job"));
  }

  /** Retries can be lost exactly by a processor whose queue is bounded and that has a second thread to fill it. */
  lemma MayRefuseIff(s: State)
    requires Start(s)
    ensures MayRefuse(s) <==> s.capacity > 0 && |s.threads| >= 2
  {
    if s.capacity > 0 && |s.threads| >= 2 {
      TwoThreadsMayRefuse(s);
    } else if MayRefuse(s) {
      var events: seq<Event>, end: State :| Runs(s, events, end) && end.refused != [];
      RoomAlways(s, events, end);
    }
  }
}
