/**
 core/background_processor.py as a protocol: submitters, workers and drains share a bounded
 queue, an overflow file under its lock, and three counters. Every event below is one atomic
 step of one thread; a run is any interleaving of enabled events.
 */
module Background {
  import opened Common

  type Job = string

  /** The attempts a submitted task is given. */
  const DEFAULT_ATTEMPTS: nat := 3

  /** One unit of work. The serial number of the submission stands for the payload. */
  datatype MemoryTask = MemoryTask(serial: nat, job: Job, attempt: nat, maxAttempts: nat) {
    predicate CanRetry() { attempt < maxAttempts }
  }

  function NewTask(serial: nat, job: Job): MemoryTask { MemoryTask(serial, job, 0, DEFAULT_ATTEMPTS) }

  /** A line of the overflow file. */
  datatype Line = Entry(task: MemoryTask) | Malformed

  /** Where a thread stands, with its local variables. */
  datatype Thread =
    | Idle
    | Spilling(task: MemoryTask)                    // submit: the queue was full
    | Uncounted                                     // submit: spilled, the counter is still to follow
    | Waiting                                       // drain: the file existed
    | Draining(lines: seq<Line>, index: nat, remaining: seq<Line>, requeued: nat)
    | Holding(task: MemoryTask)                     // worker: taken from the queue
    | Running(task: MemoryTask)                     // worker: inside the handler
    | Failing(task: MemoryTask)                     // worker: the handler raised

  datatype State = State(
    capacity: nat, durable: bool, handlers: set<Job>,
    queue: seq<MemoryTask>, file: Option<seq<Line>>, lock: Option<nat>, threads: seq<Thread>,
    processed: nat, failed: nat, overflowed: nat,
    // history, for the properties only
    next: nat, ran: multiset<nat>, spills: nat,
    done: seq<MemoryTask>, exhausted: seq<MemoryTask>, unhandled: seq<MemoryTask>,
    refused: seq<MemoryTask>, dropped: seq<MemoryTask>)

  /** A capacity of zero means no bound. */
  predicate Full(s: State) { s.capacity > 0 && |s.queue| >= s.capacity }

  datatype Event =
    | Register(job: Job)
    | Submit(t: nat, job: Job)
    | WriteOverflow(t: nat)
    | CountOverflow(t: nat)
    | CheckFile(t: nat)
    | OpenFile(t: nat, readable: bool)
    | DrainLine(t: nat)
    | CloseDrain(t: nat)
    | Take(t: nat)
    | Begin(t: nat)
    | Succeed(t: nat)
    | Fail(t: nat)
    | Retry(t: nat)

  // ----- the steps

  predicate Enabled(s: State, e: Event) {
    match e
    case Register(_) => true
    case _ =>
      e.t < |s.threads| &&
      var th := s.threads[e.t];
      match e
      case Submit(_, _) => th.Idle?
      case WriteOverflow(_) => th.Spilling? && s.lock.None?
      case CountOverflow(_) => th.Uncounted?
      case CheckFile(_) => th.Idle?
      case OpenFile(_, _) => th.Waiting? && s.lock.None?
      case DrainLine(_) => th.Draining? && th.index < |th.lines|
      case CloseDrain(_) => th.Draining? && th.index >= |th.lines|
      case Take(_) => th.Idle? && s.queue != []
      case Begin(_) => th.Holding?
      case Succeed(_) => th.Running?
      case Fail(_) => th.Running?
      case Retry(_) => th.Failing?
      case Register(_) => true
  }

  function At(s: State, t: nat, th: Thread): State
    requires t < |s.threads|
  {
    s.(threads := s.threads[t := th])
  }

  function DoSubmit(s: State, t: nat, job: Job): State
    requires t < |s.threads|
  {
    var task := NewTask(s.next, job);
    var s := s.(next := s.next + 1);
    if !Full(s) then s.(queue := s.queue + [task])
    else if s.durable then At(s, t, Spilling(task))
    else s.(dropped := s.dropped + [task])
  }

  function Content(f: Option<seq<Line>>): seq<Line> { if f.Some? then f.value else [] }

  function DoWriteOverflow(s: State, t: nat): State
    requires t < |s.threads| && s.threads[t].Spilling?
  {
    At(s, t, Uncounted).(file := Some(Content(s.file) + [Entry(s.threads[t].task)]), spills := s.spills + 1)
  }

  function DoOpenFile(s: State, t: nat, readable: bool): State
    requires t < |s.threads|
  {
    if s.file.Some? && readable then At(s, t, Draining(s.file.value, 0, [], 0)).(lock := Some(t))
    else At(s, t, Idle)
  }

  function DoDrainLine(s: State, t: nat): State
    requires t < |s.threads| && s.threads[t].Draining? && s.threads[t].index < |s.threads[t].lines|
  {
    var th := s.threads[t];
    var line := th.lines[th.index];
    if line.Malformed? then At(s, t, th.(index := th.index + 1))
    else if Full(s) then At(s, t, th.(index := th.index + 1, remaining := th.remaining + [line]))
    else At(s, t, th.(index := th.index + 1, requeued := th.requeued + 1)).(queue := s.queue + [line.task])
  }

  function DoCloseDrain(s: State, t: nat): State
    requires t < |s.threads| && s.threads[t].Draining?
  {
    var remaining := s.threads[t].remaining;
    At(s, t, Idle).(lock := None, file := if remaining != [] then Some(remaining) else None)
  }

  function DoBegin(s: State, t: nat): State
    requires t < |s.threads| && s.threads[t].Holding?
  {
    var task := s.threads[t].task;
    if task.job !in s.handlers then At(s, t, Idle).(unhandled := s.unhandled + [task])
    else At(s, t, Running(task.(attempt := task.attempt + 1))).(ran := s.ran + multiset{task.serial})
  }

  function DoRetry(s: State, t: nat): State
    requires t < |s.threads| && s.threads[t].Failing?
  {
    var task := s.threads[t].task;
    var s := At(s, t, Idle);
    if !task.CanRetry() then s.(exhausted := s.exhausted + [task])
    else if Full(s) then s.(refused := s.refused + [task])
    else s.(queue := s.queue + [task])
  }

  function Next(s: State, e: Event): State
    requires Enabled(s, e)
  {
    match e
    case Register(job) => s.(handlers := s.handlers + {job})
    case Submit(t, job) => DoSubmit(s, t, job)
    case WriteOverflow(t) => DoWriteOverflow(s, t)
    case CountOverflow(t) => At(s, t, Idle).(overflowed := s.overflowed + 1)
    case CheckFile(t) => if s.durable && s.file.Some? then At(s, t, Waiting) else s
    case OpenFile(t, readable) => DoOpenFile(s, t, readable)
    case DrainLine(t) => DoDrainLine(s, t)
    case CloseDrain(t) => DoCloseDrain(s, t)
    case Take(t) => At(s, t, Holding(s.queue[0])).(queue := s.queue[1..])
    case Begin(t) => DoBegin(s, t)
    case Succeed(t) => At(s, t, Idle).(processed := s.processed + 1, done := s.done + [s.threads[t].task])
    case Fail(t) => At(s, t, Failing(s.threads[t].task)).(failed := s.failed + 1)
    case Retry(t) => DoRetry(s, t)
  }

  predicate IsDrainStep(e: Event) { e.OpenFile? || e.DrainLine? || e.CloseDrain? }
  predicate IsWorkerStep(e: Event) { e.Take? || e.Begin? || e.Succeed? || e.Fail? || e.Retry? }

  ghost predicate MovesOnly(s: State, after: State, t: nat) {
    t < |s.threads| == |after.threads| && after.threads == s.threads[t := after.threads[t]]
  }

  lemma DrainMoves(s: State, e: Event)
    requires Enabled(s, e) && IsDrainStep(e)
    ensures MovesOnly(s, Next(s, e), e.t)
  {}

  lemma WorkerMoves(s: State, e: Event)
    requires Enabled(s, e) && IsWorkerStep(e)
    ensures MovesOnly(s, Next(s, e), e.t)
  {}

  lemma SubmitterMoves(s: State, e: Event)
    requires Enabled(s, e) && (e.Submit? || e.WriteOverflow? || e.CountOverflow? || e.CheckFile?)
    ensures MovesOnly(s, Next(s, e), e.t)
  {}

  lemma OneThreadMoves(s: State, e: Event)
    requires Enabled(s, e) && !e.Register?
    ensures |Next(s, e).threads| == |s.threads| && Next(s, e).threads == s.threads[e.t := Next(s, e).threads[e.t]]
  {
    if IsDrainStep(e) {
      DrainMoves(s, e);
    } else if IsWorkerStep(e) {
      WorkerMoves(s, e);
    } else {
      SubmitterMoves(s, e);
    }
  }

  /** The run takes place: every event is enabled when its turn comes. */
  ghost predicate Runs(s: State, events: seq<Event>, end: State)
    decreases |events|
  {
    if events == [] then end == s
    else Enabled(s, events[0]) && Runs(Next(s, events[0]), events[1..], end)
  }

  lemma {:induction false} RunsOneMore(s: State, events: seq<Event>, mid: State, e: Event)
    requires Runs(s, events, mid) && Enabled(mid, e)
    ensures Runs(s, events + [e], Next(mid, e))
    decreases |events|
  {
    if events == [] {
      assert [e][1..] == [];
    } else {
      RunsOneMore(Next(s, events[0]), events[1..], mid, e);
      assert (events + [e])[1..] == events[1..] + [e];
    }
  }

  lemma {:induction false} RunsOn(s: State, first: seq<Event>, mid: State, second: seq<Event>, end: State)
    requires Runs(s, first, mid) && Runs(mid, second, end)
    ensures Runs(s, first + second, end)
    decreases |first|
  {
    if first == [] {
      assert first + second == second;
    } else {
      RunsOn(Next(s, first[0]), first[1..], mid, second, end);
      assert (first + second)[1..] == first[1..] + second;
    }
  }

  // ----- adding up over all places

  function Sum<T>(xs: seq<T>, m: T -> int): int {
    if xs == [] then 0 else Sum(xs[..|xs| - 1], m) + m(xs[|xs| - 1])
  }

  lemma SumSnoc<T>(xs: seq<T>, x: T, m: T -> int)
    ensures Sum(xs + [x], m) == Sum(xs, m) + m(x)
  {
    assert (xs + [x])[..|xs|] == xs;
  }

  lemma {:induction false} SumCons<T>(x: T, xs: seq<T>, m: T -> int)
    ensures Sum([x] + xs, m) == m(x) + Sum(xs, m)
  {
    if xs == [] {
      assert ([x] + xs)[..0] == [];
    } else {
      SumCons(x, xs[..|xs| - 1], m);
      assert ([x] + xs)[..|xs|] == [x] + xs[..|xs| - 1];
    }
  }

  lemma {:induction false} SumUpdate<T>(xs: seq<T>, i: nat, x: T, m: T -> int)
    requires i < |xs|
    ensures Sum(xs[i := x], m) == Sum(xs, m) - m(xs[i]) + m(x)
  {
    var n := |xs| - 1;
    if i == n {
      assert xs[i := x][..n] == xs[..n];
    } else {
      SumUpdate(xs[..n], i, x, m);
      assert xs[i := x][..n] == xs[..n][i := x];
    }
  }

  type Measure = MemoryTask -> int

  function LineMeasure(m: Measure): Line -> int {
    (line: Line) => if line.Entry? then m(line.task) else 0
  }

  /** What one thread carries; a drain answers for the lines it has neither requeued nor skipped. */
  function Load(th: Thread, m: Measure): int {
    match th
    case Spilling(task) => m(task)
    case Holding(task) => m(task)
    case Running(task) => m(task)
    case Failing(task) => m(task)
    case Draining(lines, index, remaining, _) =>
      if index <= |lines| then Sum(lines[index..], LineMeasure(m)) + Sum(remaining, LineMeasure(m)) else 0
    case _ => 0
  }

  function LoadMeasure(m: Measure): Thread -> int {
    (th: Thread) => Load(th, m)
  }

  /** The tasks waiting in the overflow file, while no drain answers for them. */
  function OnDisk(s: State, m: Measure): int {
    if s.lock.Some? then 0 else Sum(Content(s.file), LineMeasure(m))
  }

  function Ended(s: State, m: Measure): int {
    Sum(s.done, m) + Sum(s.exhausted, m) + Sum(s.unhandled, m) + Sum(s.refused, m) + Sum(s.dropped, m)
  }

  /** m added up over every task in every place. */
  function Everywhere(s: State, m: Measure): int {
    Sum(s.queue, m) + Sum(s.threads, LoadMeasure(m)) + OnDisk(s, m) + Ended(s, m)
  }

  // ----- the lock

  /** The lock belongs to the one thread that is draining, and the file still is what that thread has read. */
  ghost predicate LockKept(s: State) {
    && (forall t :: 0 <= t < |s.threads| ==> (s.threads[t].Draining? <==> s.lock == Some(t)))
    && (s.lock.Some? ==>
          s.lock.value < |s.threads|
          && s.threads[s.lock.value].Draining?
          && s.threads[s.lock.value].index <= |s.threads[s.lock.value].lines|
          && s.file == Some(s.threads[s.lock.value].lines))
  }

  lemma LockStaysInDrain(s: State, e: Event)
    requires LockKept(s) && Enabled(s, e) && IsDrainStep(e)
    ensures LockKept(Next(s, e))
  {}

  lemma LockStays(s: State, e: Event)
    requires LockKept(s) && Enabled(s, e)
    ensures LockKept(Next(s, e))
  {
    if IsDrainStep(e) {
      LockStaysInDrain(s, e);
    } else if !e.Register? {
      var after := Next(s, e);
      assert after.lock == s.lock;
      assert forall u :: 0 <= u < |s.threads| && u != e.t ==> after.threads[u] == s.threads[u];
      assert !s.threads[e.t].Draining? && !after.threads[e.t].Draining?;
    }
  }

  // ----- conservation, step by step

  /** What a step adds to the sum: a submission its new task, a handler call one more attempt. */
  function Gain(s: State, e: Event, m: Measure): int
    requires Enabled(s, e)
  {
    if e.Submit? then m(NewTask(s.next, e.job))
    else if e.Begin? && s.threads[e.t].task.job in s.handlers then
      m(s.threads[e.t].task.(attempt := s.threads[e.t].task.attempt + 1)) - m(s.threads[e.t].task)
    else 0
  }

  lemma GainSubmit(s: State, e: Event, m: Measure)
    requires Enabled(s, e) && e.Submit?
    ensures Everywhere(Next(s, e), m) == Everywhere(s, m) + Gain(s, e, m)
  {
    var task := NewTask(s.next, e.job);
    if !Full(s) {
      SumSnoc(s.queue, task, m);
    } else if s.durable {
      SumUpdate(s.threads, e.t, Spilling(task), LoadMeasure(m));
    } else {
      SumSnoc(s.dropped, task, m);
    }
  }

  lemma GainOverflow(s: State, e: Event, m: Measure)
    requires Enabled(s, e) && e.WriteOverflow?
    ensures Everywhere(Next(s, e), m) == Everywhere(s, m)
  {
    SumUpdate(s.threads, e.t, Uncounted, LoadMeasure(m));
    SumSnoc(Content(s.file), Entry(s.threads[e.t].task), LineMeasure(m));
  }

  lemma GainOpen(s: State, e: Event, m: Measure)
    requires Enabled(s, e) && e.OpenFile?
    ensures Everywhere(Next(s, e), m) == Everywhere(s, m)
  {
    SumUpdate(s.threads, e.t, Next(s, e).threads[e.t], LoadMeasure(m));
    if s.file.Some? {
      assert s.file.value[0..] == s.file.value;
    }
  }

  lemma GainLine(s: State, e: Event, m: Measure)
    requires LockKept(s) && Enabled(s, e) && e.DrainLine?
    ensures Everywhere(Next(s, e), m) == Everywhere(s, m)
  {
    var th := s.threads[e.t];
    var line := th.lines[th.index];
    assert th.lines[th.index..] == [line] + th.lines[th.index + 1..];
    SumCons(line, th.lines[th.index + 1..], LineMeasure(m));
    SumSnoc(th.remaining, line, LineMeasure(m));
    SumUpdate(s.threads, e.t, Next(s, e).threads[e.t], LoadMeasure(m));
    if line.Entry? {
      SumSnoc(s.queue, line.task, m);
    }
  }

  lemma GainClose(s: State, e: Event, m: Measure)
    requires LockKept(s) && Enabled(s, e) && e.CloseDrain?
    ensures Everywhere(Next(s, e), m) == Everywhere(s, m)
  {
    var th := s.threads[e.t];
    assert s.lock == Some(e.t);
    assert th.lines[th.index..] == [];
    SumUpdate(s.threads, e.t, Idle, LoadMeasure(m));
  }

  lemma GainTake(s: State, e: Event, m: Measure)
    requires Enabled(s, e) && e.Take?
    ensures Everywhere(Next(s, e), m) == Everywhere(s, m)
  {
    assert s.queue == [s.queue[0]] + s.queue[1..];
    SumCons(s.queue[0], s.queue[1..], m);
    SumUpdate(s.threads, e.t, Holding(s.queue[0]), LoadMeasure(m));
  }

  lemma GainUnhandled(s: State, e: Event, m: Measure)
    requires Enabled(s, e) && e.Begin? && s.threads[e.t].task.job !in s.handlers
    ensures Everywhere(Next(s, e), m) == Everywhere(s, m)
  {
    SumUpdate(s.threads, e.t, Idle, LoadMeasure(m));
    SumSnoc(s.unhandled, s.threads[e.t].task, m);
  }

  lemma GainHandled(s: State, e: Event, m: Measure)
    requires Enabled(s, e) && e.Begin? && s.threads[e.t].task.job in s.handlers
    ensures Everywhere(Next(s, e), m) == Everywhere(s, m) + Gain(s, e, m)
  {
    var task := s.threads[e.t].task;
    var tried := task.(attempt := task.attempt + 1);
    SumUpdate(s.threads, e.t, Running(tried), LoadMeasure(m));
    assert Ended(Next(s, e), m) == Ended(s, m) && OnDisk(Next(s, e), m) == OnDisk(s, m);
  }

  lemma GainBegin(s: State, e: Event, m: Measure)
    requires Enabled(s, e) && e.Begin?
    ensures Everywhere(Next(s, e), m) == Everywhere(s, m) + Gain(s, e, m)
  {
    if s.threads[e.t].task.job in s.handlers {
      GainHandled(s, e, m);
    } else {
      GainUnhandled(s, e, m);
    }
  }

  lemma GainOutcome(s: State, e: Event, m: Measure)
    requires Enabled(s, e) && (e.Succeed? || e.Fail?)
    ensures Everywhere(Next(s, e), m) == Everywhere(s, m)
  {
    var task := s.threads[e.t].task;
    if e.Succeed? {
      SumUpdate(s.threads, e.t, Idle, LoadMeasure(m));
      SumSnoc(s.done, task, m);
    } else {
      SumUpdate(s.threads, e.t, Failing(task), LoadMeasure(m));
    }
  }

  lemma GainRetry(s: State, t: nat, m: Measure)
    requires t < |s.threads| && s.threads[t].Failing?
    ensures Everywhere(DoRetry(s, t), m) == Everywhere(s, m)
  {
    var task := s.threads[t].task;
    SumUpdate(s.threads, t, Idle, LoadMeasure(m));
    if !task.CanRetry() {
      SumSnoc(s.exhausted, task, m);
    } else if Full(s) {
      SumSnoc(s.refused, task, m);
    } else {
      SumSnoc(s.queue, task, m);
    }
  }

  lemma GainQuiet(s: State, e: Event, m: Measure)
    requires Enabled(s, e) && (e.Register? || e.CountOverflow? || e.CheckFile?)
    ensures Everywhere(Next(s, e), m) == Everywhere(s, m)
  {
    if !e.Register? {
      SumUpdate(s.threads, e.t, Next(s, e).threads[e.t], LoadMeasure(m));
    }
  }

  /** No step loses or duplicates a task: whatever is measured changes only by a submission or a further attempt. */
  lemma GainKept(s: State, e: Event, m: Measure)
    requires LockKept(s) && Enabled(s, e)
    ensures Everywhere(Next(s, e), m) == Everywhere(s, m) + Gain(s, e, m)
  {
    match e
    case Submit(_, _) => GainSubmit(s, e, m);
    case WriteOverflow(_) => GainOverflow(s, e, m);
    case OpenFile(_, _) => GainOpen(s, e, m);
    case DrainLine(_) => GainLine(s, e, m);
    case CloseDrain(_) => GainClose(s, e, m);
    case Take(_) => GainTake(s, e, m);
    case Begin(_) => GainBegin(s, e, m);
    case Succeed(_) => GainOutcome(s, e, m);
    case Fail(_) => GainOutcome(s, e, m);
    case Retry(t) => GainRetry(s, t, m);
    case _ => GainQuiet(s, e, m);
  }
}
