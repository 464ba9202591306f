/**
 What every interleaving of the background processor keeps.
 */
module BackgroundProperties {
  import opened Common
  import opened Background

  /** Counts the task with serial number k. */
  function CountOf(k: nat): Measure { (task: MemoryTask) => if task.serial == k then 1 else 0 }

  /** The attempts of the task with serial number k. */
  function TriesOf(k: nat): Measure { (task: MemoryTask) => if task.serial == k then task.attempt else 0 }

  /** Every task submitted so far is in exactly one place, and nothing else is anywhere. */
  ghost predicate OnePlace(s: State) {
    forall k: nat {:trigger CountOf(k)} :: Everywhere(s, CountOf(k)) == if k < s.next then 1 else 0
  }

  /** A task's attempt counter is the number of handler calls made for it. */
  ghost predicate TriesAgree(s: State) {
    forall k: nat {:trigger TriesOf(k)} :: Everywhere(s, TriesOf(k)) == s.ran[k]
  }

  lemma SerialsGrow(s: State, e: Event)
    requires Enabled(s, e)
    ensures Next(s, e).next == s.next + (if e.Submit? then 1 else 0)
  {}

  lemma CountGain(s: State, e: Event, k: nat)
    requires Enabled(s, e)
    ensures Gain(s, e, CountOf(k)) == if e.Submit? && k == s.next then 1 else 0
  {}

  lemma TriesGain(s: State, e: Event, k: nat)
    requires Enabled(s, e)
    ensures Gain(s, e, TriesOf(k)) == Next(s, e).ran[k] - s.ran[k]
  {}

  lemma OnePlaceStays(s: State, e: Event)
    requires LockKept(s) && Enabled(s, e) && OnePlace(s)
    ensures OnePlace(Next(s, e))
  {
    SerialsGrow(s, e);
    var after := Next(s, e);
    forall k: nat ensures Everywhere(after, CountOf(k)) == if k < after.next then 1 else 0 {
      GainKept(s, e, CountOf(k));
      CountGain(s, e, k);
    }
  }

  lemma TriesStay(s: State, e: Event)
    requires LockKept(s) && Enabled(s, e) && TriesAgree(s)
    ensures TriesAgree(Next(s, e))
  {
    var after := Next(s, e);
    forall k: nat ensures Everywhere(after, TriesOf(k)) == after.ran[k] {
      GainKept(s, e, TriesOf(k));
      TriesGain(s, e, k);
    }
  }

  // ----- how often a task may have been tried, by where it is

  /** How often a handler may be called for a task: it is called once even if no attempt is left. */
  function Allowed(task: MemoryTask): nat { if task.maxAttempts > 1 then task.maxAttempts else 1 }

  predicate Fresh(task: MemoryTask) { task.attempt == 0 }
  predicate Waiting(task: MemoryTask) { task.attempt == 0 || task.CanRetry() }
  predicate Tried(task: MemoryTask) { 1 <= task.attempt <= Allowed(task) }

  predicate FreshLines(lines: seq<Line>) {
    forall i :: 0 <= i < |lines| ==> lines[i].Entry? ==> Fresh(lines[i].task)
  }

  predicate ThreadBound(th: Thread) {
    match th
    case Spilling(task) => Fresh(task)
    case Holding(task) => Waiting(task)
    case Running(task) => Tried(task)
    case Failing(task) => Tried(task)
    case Draining(lines, index, remaining, _) => index <= |lines| && FreshLines(lines) && FreshLines(remaining)
    case _ => true
  }

  predicate ThreadsBounded(s: State) {
    forall t :: 0 <= t < |s.threads| ==> ThreadBound(s.threads[t])
  }

  predicate ListsBounded(s: State) {
    && (forall i :: 0 <= i < |s.queue| ==> Waiting(s.queue[i]))
    && FreshLines(Content(s.file))
    && (forall i :: 0 <= i < |s.done| ==> Tried(s.done[i]))
    && (forall i :: 0 <= i < |s.exhausted| ==> Tried(s.exhausted[i]) && !s.exhausted[i].CanRetry())
    && (forall i :: 0 <= i < |s.unhandled| ==> Waiting(s.unhandled[i]))
    && (forall i :: 0 <= i < |s.refused| ==> Tried(s.refused[i]) && s.refused[i].CanRetry())
    && (forall i :: 0 <= i < |s.dropped| ==> Fresh(s.dropped[i]))
  }

  lemma ThreadsBoundedStays(s: State, e: Event)
    requires Enabled(s, e) && ListsBounded(s) && ThreadsBounded(s)
    ensures ThreadsBounded(Next(s, e))
  {
    if !e.Register? {
      OneThreadMoves(s, e);
      if IsDrainStep(e) {
        DrainThreadBounded(s, e);
      } else if IsWorkerStep(e) {
        WorkerThreadBounded(s, e);
      }
    }
  }

  lemma DrainThreadBounded(s: State, e: Event)
    requires Enabled(s, e) && IsDrainStep(e) && ListsBounded(s) && ThreadBound(s.threads[e.t])
    ensures ThreadBound(Next(s, e).threads[e.t])
  {}

  lemma WorkerThreadBounded(s: State, e: Event)
    requires Enabled(s, e) && IsWorkerStep(e) && ListsBounded(s) && ThreadBound(s.threads[e.t])
    ensures ThreadBound(Next(s, e).threads[e.t])
  {}

  lemma BeginListsBounded(s: State, t: nat)
    requires Enabled(s, Begin(t)) && ListsBounded(s) && ThreadBound(s.threads[t])
    ensures ListsBounded(Next(s, Begin(t)))
  {}

  lemma OutcomeListsBounded(s: State, e: Event)
    requires Enabled(s, e) && (e.Succeed? || e.Retry?) && ListsBounded(s) && ThreadBound(s.threads[e.t])
    ensures ListsBounded(Next(s, e))
  {}

  lemma FileListsBounded(s: State, e: Event)
    requires Enabled(s, e) && ListsBounded(s) && ThreadsBounded(s) && (e.WriteOverflow? || e.DrainLine? || e.CloseDrain?)
    ensures ListsBounded(Next(s, e))
  {
    assert ThreadBound(s.threads[e.t]);
  }

  lemma ListsBoundedStays(s: State, e: Event)
    requires Enabled(s, e) && ListsBounded(s) && ThreadsBounded(s)
    ensures ListsBounded(Next(s, e))
  {
    if e.Begin? {
      BeginListsBounded(s, e.t);
    } else if e.Succeed? || e.Retry? {
      OutcomeListsBounded(s, e);
    } else if e.WriteOverflow? || e.DrainLine? || e.CloseDrain? {
      FileListsBounded(s, e);
    }
  }

  /** The handler calls allowed to the task with serial number k. */
  function AllowedTo(k: nat): Measure { (task: MemoryTask) => if task.serial == k then Allowed(task) else 0 }

  lemma {:induction false} SumBelow<T>(xs: seq<T>, m: T -> int, n: T -> int)
    requires forall i :: 0 <= i < |xs| ==> m(xs[i]) <= n(xs[i])
    ensures Sum(xs, m) <= Sum(xs, n)
  {
    if xs != [] {
      SumBelow(xs[..|xs| - 1], m, n);
    }
  }

  lemma LoadBelow(th: Thread, k: nat)
    requires ThreadBound(th)
    ensures Load(th, TriesOf(k)) <= Load(th, AllowedTo(k))
  {
    if th.Draining? {
      SumBelow(th.lines[th.index..], LineMeasure(TriesOf(k)), LineMeasure(AllowedTo(k)));
      SumBelow(th.remaining, LineMeasure(TriesOf(k)), LineMeasure(AllowedTo(k)));
    }
  }

  lemma ListBelow(tasks: seq<MemoryTask>, k: nat)
    requires forall i :: 0 <= i < |tasks| ==> tasks[i].attempt <= Allowed(tasks[i])
    ensures Sum(tasks, TriesOf(k)) <= Sum(tasks, AllowedTo(k))
  {
    SumBelow(tasks, TriesOf(k), AllowedTo(k));
  }

  /** No handler is called more often for a task than the task allows. */
  lemma HandlerCallsBounded(s: State, k: nat)
    requires TriesAgree(s) && ListsBounded(s) && ThreadsBounded(s)
    ensures s.ran[k] <= Everywhere(s, AllowedTo(k))
  {
    ListBelow(s.queue, k);
    forall t | 0 <= t < |s.threads|
      ensures LoadMeasure(TriesOf(k))(s.threads[t]) <= LoadMeasure(AllowedTo(k))(s.threads[t])
    {
      LoadBelow(s.threads[t], k);
    }
    SumBelow(s.threads, LoadMeasure(TriesOf(k)), LoadMeasure(AllowedTo(k)));
    SumBelow(Content(s.file), LineMeasure(TriesOf(k)), LineMeasure(AllowedTo(k)));
    ListBelow(s.done, k);
    ListBelow(s.exhausted, k);
    ListBelow(s.unhandled, k);
    ListBelow(s.refused, k);
    ListBelow(s.dropped, k);
    assert Everywhere(s, TriesOf(k)) == s.ran[k];
  }

  /** What a task is allowed is settled when it is submitted. */
  lemma AllowanceStays(s: State, e: Event, k: nat)
    requires LockKept(s) && Enabled(s, e)
    ensures Everywhere(Next(s, e), AllowedTo(k))
         == Everywhere(s, AllowedTo(k)) + (if e.Submit? && k == s.next then DEFAULT_ATTEMPTS else 0)
  {
    GainKept(s, e, AllowedTo(k));
    AllowanceGain(s, e, k);
  }

  lemma AllowanceGain(s: State, e: Event, k: nat)
    requires Enabled(s, e)
    ensures Gain(s, e, AllowedTo(k)) == if e.Submit? && k == s.next then DEFAULT_ATTEMPTS else 0
  {}

  // ----- the counters

  function InHandler(): Thread -> int { (th: Thread) => if th.Running? then 1 else 0 }

  function BeforeCounting(): Thread -> int { (th: Thread) => if th.Uncounted? then 1 else 0 }

  /** processed counts the finished tasks; together with failed and the calls under way it accounts for
      every handler call; overflowed trails the tasks spilled by the submitters still to count. */
  predicate CallsCounted(s: State) {
    && s.processed == |s.done|
    && s.processed + s.failed + Sum(s.threads, InHandler()) == |s.ran|
  }

  predicate SpillsCounted(s: State) {
    s.overflowed + Sum(s.threads, BeforeCounting()) == s.spills
  }

  predicate Counted(s: State) { CallsCounted(s) && SpillsCounted(s) }

  lemma SumMoves(s: State, e: Event, m: Thread -> int)
    requires Enabled(s, e) && !e.Register?
    ensures Sum(Next(s, e).threads, m) == Sum(s.threads, m) - m(s.threads[e.t]) + m(Next(s, e).threads[e.t])
  {
    OneThreadMoves(s, e);
    SumUpdate(s.threads, e.t, Next(s, e).threads[e.t], m);
  }

  lemma CallsCountedStays(s: State, e: Event)
    requires Enabled(s, e) && CallsCounted(s)
    ensures CallsCounted(Next(s, e))
  {
    if !e.Register? {
      SumMoves(s, e, InHandler());
      if IsWorkerStep(e) {
        WorkerCalls(s, e);
      }
    }
  }

  // A worker's step changes the counters and the calls under way by what it adds to the calls and to the finished tasks.
  lemma WorkerCalls(s: State, e: Event)
    requires Enabled(s, e) && IsWorkerStep(e)
    ensures var after := Next(s, e);
      && after.processed - s.processed == |after.done| - |s.done|
      && after.processed + after.failed + InHandler()(after.threads[e.t]) - |after.ran|
         == s.processed + s.failed + InHandler()(s.threads[e.t]) - |s.ran|
  {}

  lemma SpillsCountedStays(s: State, e: Event)
    requires Enabled(s, e) && SpillsCounted(s)
    ensures SpillsCounted(Next(s, e))
  {
    if !e.Register? {
      SumMoves(s, e, BeforeCounting());
    }
  }

  // ----- the queue's bound, and what a durable processor never does

  predicate WithinCapacity(s: State) {
    && (s.capacity > 0 ==> |s.queue| <= s.capacity)
    && (s.durable ==> s.dropped == [])
  }

  lemma WithinCapacityStays(s: State, e: Event)
    requires Enabled(s, e) && WithinCapacity(s)
    ensures WithinCapacity(Next(s, e))
    ensures Next(s, e).capacity == s.capacity && Next(s, e).durable == s.durable
  {}

  // ----- whole runs

  /** At start every thread is idle, and the overflow file holds what an earlier process spilled. */
  ghost predicate Start(s: State) {
    && s.lock.None? && s.queue == [] && (forall t :: 0 <= t < |s.threads| ==> s.threads[t].Idle?)
    && s.processed == 0 && s.failed == 0 && s.overflowed == 0 && s.spills == 0 && s.ran == multiset{}
    && s.done == [] && s.exhausted == [] && s.unhandled == [] && s.refused == [] && s.dropped == []
    && FreshLines(Content(s.file))
    && (forall k: nat {:trigger CountOf(k)} :: Sum(Content(s.file), LineMeasure(CountOf(k))) == if k < s.next then 1 else 0)
  }

  ghost predicate Inv(s: State) {
    && LockKept(s) && OnePlace(s) && TriesAgree(s) && ListsBounded(s) && ThreadsBounded(s) && Counted(s) && WithinCapacity(s)
  }

  lemma {:induction false} SumZero<T>(xs: seq<T>, m: T -> int)
    requires forall i :: 0 <= i < |xs| ==> m(xs[i]) == 0
    ensures Sum(xs, m) == 0
  {
    if xs != [] {
      SumZero(xs[..|xs| - 1], m);
    }
  }

  lemma InvAtStart(s: State)
    requires Start(s)
    ensures Inv(s)
  {
    forall k: nat ensures Everywhere(s, CountOf(k)) == if k < s.next then 1 else 0 {
      SumZero(s.threads, LoadMeasure(CountOf(k)));
    }
    forall k: nat ensures Everywhere(s, TriesOf(k)) == s.ran[k] {
      SumZero(s.threads, LoadMeasure(TriesOf(k)));
      SumZero(Content(s.file), LineMeasure(TriesOf(k)));
    }
    SumZero(s.threads, InHandler());
    SumZero(s.threads, BeforeCounting());
  }

  lemma InvStays(s: State, e: Event)
    requires Inv(s) && Enabled(s, e)
    ensures Inv(Next(s, e))
  {
    LockStays(s, e);
    OnePlaceStays(s, e);
    TriesStay(s, e);
    ListsBoundedStays(s, e);
    ThreadsBoundedStays(s, e);
    CallsCountedStays(s, e);
    SpillsCountedStays(s, e);
    WithinCapacityStays(s, e);
  }

  /** The invariant holds after every interleaving. */
  lemma {:induction false} InvAlways(s: State, events: seq<Event>, end: State)
    requires Inv(s) && Runs(s, events, end)
    ensures Inv(end) && end.durable == s.durable
    decreases |events|
  {
    if events != [] {
      InvStays(s, events[0]);
      WithinCapacityStays(s, events[0]);
      InvAlways(Next(s, events[0]), events[1..], end);
    }
  }

  lemma {:induction false} AllowanceAlways(s: State, events: seq<Event>, end: State, k: nat)
    requires Inv(s) && Runs(s, events, end)
    ensures s.next <= end.next
    ensures Everywhere(end, AllowedTo(k))
         == Everywhere(s, AllowedTo(k)) + (if s.next <= k < end.next then DEFAULT_ATTEMPTS else 0)
    decreases |events|
  {
    if events != [] {
      InvStays(s, events[0]);
      AllowanceStays(s, events[0], k);
      SerialsGrow(s, events[0]);
      AllowanceAlways(Next(s, events[0]), events[1..], end, k);
    }
  }

  lemma {:induction false} NoneCounted<T>(xs: seq<T>, n: T -> int, m: T -> int)
    requires forall i :: 0 <= i < |xs| ==> n(xs[i]) >= 0 && (n(xs[i]) == 0 ==> m(xs[i]) == 0)
    requires Sum(xs, n) == 0
    ensures Sum(xs, m) == 0
  {
    if xs != [] {
      SumNonneg(xs[..|xs| - 1], n);
      NoneCounted(xs[..|xs| - 1], n, m);
    }
  }

  // The allowance of a task left by an earlier process, as its line in the overflow file has it.
  lemma AllowanceAtStart(s: State, k: nat)
    requires Start(s)
    ensures Everywhere(s, AllowedTo(k)) == Sum(Content(s.file), LineMeasure(AllowedTo(k)))
    ensures k >= s.next ==> Everywhere(s, AllowedTo(k)) == 0
  {
    SumZero(s.threads, LoadMeasure(AllowedTo(k)));
    if k >= s.next {
      assert Sum(Content(s.file), LineMeasure(CountOf(k))) == 0;
      NoneCounted(Content(s.file), LineMeasure(CountOf(k)), LineMeasure(AllowedTo(k)));
    }
  }

  /** With an overflow file no interleaving loses or duplicates a task: each is in exactly one place, none was
      dropped, and no handler was called more often than the task allows, three times if it was submitted here. */
  lemma NothingLost(s: State, events: seq<Event>, end: State, k: nat)
    requires Start(s) && s.durable && Runs(s, events, end)
    ensures Everywhere(end, CountOf(k)) == if k < end.next then 1 else 0
    ensures end.dropped == []
    ensures end.ran[k] <= if k >= s.next then 3 else Sum(Content(s.file), LineMeasure(AllowedTo(k)))
  {
    InvAtStart(s);
    InvAlways(s, events, end);
    HandlerCallsBounded(end, k);
    AllowanceAlways(s, events, end, k);
    AllowanceAtStart(s, k);
  }

  /** A task given up for its attempts has none left, one queued again has, and a finished one was tried. */
  lemma AttemptsAreUsed(s: State, events: seq<Event>, end: State)
    requires Start(s) && Runs(s, events, end)
    ensures forall i :: 0 <= i < |end.exhausted| ==> end.exhausted[i].attempt >= end.exhausted[i].maxAttempts
    ensures forall i :: 0 <= i < |end.queue| ==> end.queue[i].attempt == 0 || end.queue[i].attempt < end.queue[i].maxAttempts
    ensures forall i :: 0 <= i < |end.done| ==> end.done[i].attempt >= 1
  {
    InvAtStart(s);
    InvAlways(s, events, end);
    assert forall i :: 0 <= i < |end.queue| ==> Waiting(end.queue[i]);
    assert forall i :: 0 <= i < |end.done| ==> Tried(end.done[i]);
  }

  /** Once all threads are idle and queue and file are empty, every task ended in exactly one way. */
  lemma QuietMeansEnded(s: State, events: seq<Event>, end: State, k: nat)
    requires Start(s) && s.durable && Runs(s, events, end)
    requires end.queue == [] && end.file.None? && forall t :: 0 <= t < |end.threads| ==> end.threads[t].Idle?
    requires k < end.next
    ensures Sum(end.done, CountOf(k)) + Sum(end.exhausted, CountOf(k))
            + Sum(end.unhandled, CountOf(k)) + Sum(end.refused, CountOf(k)) == 1
    ensures end.processed + end.failed == |end.ran| && end.overflowed == end.spills
  {
    NothingLost(s, events, end, k);
    InvAtStart(s);
    InvAlways(s, events, end);
    SumZero(end.threads, LoadMeasure(CountOf(k)));
    SumZero(end.threads, InHandler());
    SumZero(end.threads, BeforeCounting());
  }

  // ----- no task twice

  lemma {:induction false} SumNonneg<T>(xs: seq<T>, m: T -> int)
    requires forall i :: 0 <= i < |xs| ==> m(xs[i]) >= 0
    ensures Sum(xs, m) >= 0
  {
    if xs != [] {
      SumNonneg(xs[..|xs| - 1], m);
    }
  }

  lemma {:induction false} SumAtLeast<T>(xs: seq<T>, m: T -> int, i: nat, j: nat)
    requires i < |xs| && j < |xs| && forall h :: 0 <= h < |xs| ==> m(xs[h]) >= 0
    ensures Sum(xs, m) >= if i == j then m(xs[i]) else m(xs[i]) + m(xs[j])
  {
    var n := |xs| - 1;
    if i < n && j < n {
      SumAtLeast(xs[..n], m, i, j);
    } else if i < n {
      SumAtLeast(xs[..n], m, i, i);
    } else if j < n {
      SumAtLeast(xs[..n], m, j, j);
    } else {
      SumNonneg(xs[..n], m);
    }
  }

  lemma PlacesNonneg(s: State, k: nat)
    ensures Sum(s.queue, CountOf(k)) >= 0 && Sum(s.threads, LoadMeasure(CountOf(k))) >= 0
    ensures OnDisk(s, CountOf(k)) >= 0 && Ended(s, CountOf(k)) >= 0
  {
    var m := CountOf(k);
    SumNonneg(s.queue, m);
    forall t | 0 <= t < |s.threads| ensures LoadMeasure(m)(s.threads[t]) >= 0 {
      var th := s.threads[t];
      if th.Draining? && th.index <= |th.lines| {
        SumNonneg(th.lines[th.index..], LineMeasure(m));
        SumNonneg(th.remaining, LineMeasure(m));
      }
    }
    SumNonneg(s.threads, LoadMeasure(m));
    SumNonneg(Content(s.file), LineMeasure(m));
    SumNonneg(s.done, m);
    SumNonneg(s.exhausted, m);
    SumNonneg(s.unhandled, m);
    SumNonneg(s.refused, m);
    SumNonneg(s.dropped, m);
  }

  /** A queued task is queued once, and is neither in the overflow file, nor carried by any thread, nor ended. */
  lemma QueuedOnce(s: State, i: nat, j: nat)
    requires OnePlace(s) && i < |s.queue| && j < |s.queue| && s.queue[i].serial == s.queue[j].serial
    ensures i == j
    ensures var m := CountOf(s.queue[i].serial);
            OnDisk(s, m) == 0 && Sum(s.threads, LoadMeasure(m)) == 0 && Ended(s, m) == 0
  {
    var m := CountOf(s.queue[i].serial);
    PlacesNonneg(s, s.queue[i].serial);
    SumAtLeast(s.queue, m, i, j);
    assert Everywhere(s, m) <= 1;
  }
}
