/**
 What an undisturbed call of the background processor amounts to as a run of the protocol: its atomic
 steps, and what they change.
 */
module BackgroundCalls {
  import opened Common
  import opened Background

  lemma RunsThree(s: State, a: Event, b: Event, c: Event)
    requires Enabled(s, a) && Enabled(Next(s, a), b) && Enabled(Next(Next(s, a), b), c)
    ensures Runs(s, [a], Next(s, a))
    ensures Runs(s, [a, b], Next(Next(s, a), b))
    ensures Runs(s, [a, b, c], Next(Next(Next(s, a), b), c))
  {
    RunsOneMore(s, [], s, a);
    assert [] + [a] == [a];
    RunsOneMore(s, [a], Next(s, a), b);
    assert [a] + [b] == [a, b];
    RunsOneMore(s, [a, b], Next(Next(s, a), b), c);
    assert [a, b] + [c] == [a, b, c];
  }

  function SubmitSteps(s: State, t: nat, job: Job): seq<Event> {
    if Full(s) && s.durable then [Submit(t, job), WriteOverflow(t), CountOverflow(t)] else [Submit(t, job)]
  }

  function ProcessSteps(s: State, t: nat, task: MemoryTask, raises: bool): seq<Event> {
    if task.job !in s.handlers then [Begin(t)]
    else if raises then [Begin(t), Fail(t), Retry(t)]
    else [Begin(t), Succeed(t)]
  }

  function WorkSteps(s: State, t: nat, raises: bool): seq<Event> {
    if s.queue == [] then [] else [Take(t)] + ProcessSteps(s, t, s.queue[0], raises)
  }

  function Repeated(e: Event, n: nat): seq<Event> {
    if n == 0 then [] else Repeated(e, n - 1) + [e]
  }

  function DrainSteps(s: State, t: nat, readable: bool): seq<Event> {
    if !s.durable || s.file.None? then [CheckFile(t)]
    else if !readable then [CheckFile(t), OpenFile(t, readable)]
    else [CheckFile(t), OpenFile(t, readable)] + Repeated(DrainLine(t), |s.file.value|) + [CloseDrain(t)]
  }

  /** Thread t is about to call, or is done, and nobody holds the overflow lock. */
  ghost predicate Calm(s: State, t: nat) {
    t < |s.threads| && s.threads[t].Idle? && s.lock.None?
  }

  ghost predicate SameSetting(s: State, end: State) {
    end.capacity == s.capacity && end.durable == s.durable && end.handlers == s.handlers
  }

  ghost predicate SameCounters(s: State, end: State) {
    end.processed == s.processed && end.failed == s.failed && end.overflowed == s.overflowed
  }

  lemma SpillRuns(s: State, t: nat, job: Job) returns (end: State)
    requires Calm(s, t) && Full(s) && s.durable
    ensures Runs(s, [Submit(t, job), WriteOverflow(t), CountOverflow(t)], end) && Calm(end, t) && SameSetting(s, end)
    ensures end.next == s.next + 1 && end.queue == s.queue
    ensures end.file == Some(Content(s.file) + [Entry(NewTask(s.next, job))])
    ensures end.processed == s.processed && end.failed == s.failed && end.overflowed == s.overflowed + 1
  {
    RunsThree(s, Submit(t, job), WriteOverflow(t), CountOverflow(t));
    end := Next(Next(Next(s, Submit(t, job)), WriteOverflow(t)), CountOverflow(t));
  }

  lemma SubmitRuns(s: State, t: nat, job: Job) returns (end: State)
    requires Calm(s, t)
    ensures Runs(s, SubmitSteps(s, t, job), end) && Calm(end, t) && SameSetting(s, end)
    ensures end.next == s.next + 1 && end.queue == if Full(s) then s.queue else s.queue + [NewTask(s.next, job)]
    ensures end.file == if Full(s) && s.durable then Some(Content(s.file) + [Entry(NewTask(s.next, job))]) else s.file
    ensures end.processed == s.processed && end.failed == s.failed
    ensures end.overflowed == s.overflowed + (if Full(s) && s.durable then 1 else 0)
  {
    if Full(s) && s.durable {
      end := SpillRuns(s, t, job);
    } else {
      end := Next(s, Submit(t, job));
      RunsOneMore(s, [], s, Submit(t, job));
      assert [] + [Submit(t, job)] == [Submit(t, job)];
    }
  }

  ghost predicate Under(s: State, t: nat, th: Thread) {
    t < |s.threads| && s.threads[t] == th && s.lock.None?
  }

  lemma RecoverRuns(s: State, t: nat, task: MemoryTask) returns (end: State)
    requires Under(s, t, Running(task))
    ensures Runs(s, [Fail(t), Retry(t)], end) && Calm(end, t) && SameSetting(s, end)
    ensures end.queue == if task.CanRetry() && !Full(s) then s.queue + [task] else s.queue
    ensures end.next == s.next && end.file == s.file
    ensures end.processed == s.processed && end.failed == s.failed + 1 && end.overflowed == s.overflowed
  {
    var failed := Next(s, Fail(t));
    end := Next(failed, Retry(t));
    RunsOneMore(failed, [], failed, Retry(t));
    assert [] + [Retry(t)] == [Retry(t)];
    assert [Fail(t), Retry(t)][1..] == [Retry(t)];
  }

  lemma BeginRuns(s: State, t: nat, task: MemoryTask) returns (begun: State)
    requires Under(s, t, Holding(task))
    ensures Enabled(s, Begin(t)) && begun == Next(s, Begin(t))
    ensures if task.job in s.handlers then Under(begun, t, Running(task.(attempt := task.attempt + 1))) else Calm(begun, t)
    ensures SameSetting(s, begun) && SameCounters(s, begun)
    ensures begun.next == s.next && begun.file == s.file && begun.queue == s.queue
  {
    begun := Next(s, Begin(t));
  }

  lemma SucceedRuns(s: State, t: nat, task: MemoryTask) returns (end: State)
    requires Under(s, t, Running(task))
    ensures Runs(s, [Succeed(t)], end) && Calm(end, t) && SameSetting(s, end)
    ensures end.queue == s.queue && end.next == s.next && end.file == s.file
    ensures end.processed == s.processed + 1 && end.failed == s.failed && end.overflowed == s.overflowed
  {
    end := Next(s, Succeed(t));
    RunsOneMore(s, [], s, Succeed(t));
    assert [] + [Succeed(t)] == [Succeed(t)];
  }

  lemma RunsCons(s: State, e: Event, events: seq<Event>, end: State)
    requires Enabled(s, e) && Runs(Next(s, e), events, end)
    ensures Runs(s, [e] + events, end)
  {
    assert ([e] + events)[1..] == events;
  }

  lemma ProcessRuns(s: State, t: nat, task: MemoryTask, raises: bool) returns (end: State)
    requires Under(s, t, Holding(task))
    ensures Runs(s, ProcessSteps(s, t, task, raises), end) && Calm(end, t) && SameSetting(s, end)
    ensures end.queue == if task.job in s.handlers && raises && task.attempt + 1 < task.maxAttempts && !Full(s)
                         then s.queue + [task.(attempt := task.attempt + 1)] else s.queue
    ensures end.processed == s.processed + (if task.job in s.handlers && !raises then 1 else 0)
    ensures end.failed == s.failed + (if task.job in s.handlers && raises then 1 else 0)
    ensures end.next == s.next && end.file == s.file && end.overflowed == s.overflowed
  {
    var begun := BeginRuns(s, t, task);
    var tried := task.(attempt := task.attempt + 1);
    var rest;
    if task.job !in s.handlers {
      rest, end := [], begun;
      assert Runs(begun, rest, begun);
    } else if raises {
      rest := [Fail(t), Retry(t)];
      end := RecoverRuns(begun, t, tried);
    } else {
      rest := [Succeed(t)];
      end := SucceedRuns(begun, t, tried);
    }
    RunsCons(s, Begin(t), rest, end);
    assert ProcessSteps(s, t, task, raises) == [Begin(t)] + rest;
  }

  lemma TakeRuns(s: State, t: nat) returns (taken: State)
    requires Calm(s, t) && s.queue != []
    ensures Enabled(s, Take(t)) && taken == Next(s, Take(t)) && Under(taken, t, Holding(s.queue[0]))
    ensures taken.queue == s.queue[1..] && SameSetting(s, taken) && SameCounters(s, taken)
    ensures taken.next == s.next && taken.file == s.file
  {
    taken := Next(s, Take(t));
  }

  // ----- the drain

  ghost predicate AtLine(s: State, t: nat, lines: seq<Line>, i: nat, remaining: seq<Line>, requeued: nat) {
    t < |s.threads| && s.lock == Some(t) && s.threads[t] == Draining(lines, i, remaining, requeued)
  }

  lemma LineRuns(s: State, t: nat, lines: seq<Line>, i: nat, remaining: seq<Line>, requeued: nat) returns (end: State)
    requires AtLine(s, t, lines, i, remaining, requeued) && i < |lines|
    ensures Enabled(s, DrainLine(t)) && end == Next(s, DrainLine(t)) && SameSetting(s, end) && SameCounters(s, end)
    ensures end.next == s.next && end.file == s.file
    ensures end.queue == if lines[i].Entry? && !Full(s) then s.queue + [lines[i].task] else s.queue
    ensures AtLine(end, t, lines, i + 1, if lines[i].Entry? && Full(s) then remaining + [lines[i]] else remaining,
                   if lines[i].Entry? && !Full(s) then requeued + 1 else requeued)
  {
    end := Next(s, DrainLine(t));
  }

  lemma CloseRuns(s: State, t: nat, lines: seq<Line>, remaining: seq<Line>, requeued: nat) returns (end: State)
    requires AtLine(s, t, lines, |lines|, remaining, requeued)
    ensures Enabled(s, CloseDrain(t)) && end == Next(s, CloseDrain(t)) && Calm(end, t)
    ensures SameSetting(s, end) && SameCounters(s, end) && end.next == s.next && end.queue == s.queue
    ensures end.file == if remaining != [] then Some(remaining) else None
  {
    end := Next(s, CloseDrain(t));
  }

  lemma LookRuns(s: State, t: nat) returns (end: State)
    requires Calm(s, t) && (!s.durable || s.file.None?)
    ensures Runs(s, [CheckFile(t)], end) && end == s
  {
    RunsOneMore(s, [], s, CheckFile(t));
    assert [] + [CheckFile(t)] == [CheckFile(t)];
    end := s;
  }

  lemma OpenRuns(s: State, t: nat, readable: bool) returns (end: State)
    requires Calm(s, t) && s.durable && s.file.Some?
    ensures Runs(s, [CheckFile(t), OpenFile(t, readable)], end)
    ensures if readable then AtLine(end, t, s.file.value, 0, [], 0) else Calm(end, t)
    ensures SameSetting(s, end) && SameCounters(s, end)
    ensures end.next == s.next && end.file == s.file && end.queue == s.queue
  {
    var waiting := Next(s, CheckFile(t));
    end := Next(waiting, OpenFile(t, readable));
    RunsOneMore(waiting, [], waiting, OpenFile(t, readable));
    assert [] + [OpenFile(t, readable)] == [OpenFile(t, readable)];
    RunsCons(s, CheckFile(t), [OpenFile(t, readable)], end);
    assert [CheckFile(t)] + [OpenFile(t, readable)] == [CheckFile(t), OpenFile(t, readable)];
  }

  lemma DrainRuns(s: State, t: nat, ready: State, end: State)
    requires s.durable && s.file.Some? && Runs(s, [CheckFile(t), OpenFile(t, true)], ready)
    requires Runs(ready, Repeated(DrainLine(t), |s.file.value|) + [CloseDrain(t)], end)
    ensures Runs(s, DrainSteps(s, t, true), end)
  {
    var opening, rest := [CheckFile(t), OpenFile(t, true)], Repeated(DrainLine(t), |s.file.value|);
    RunsOn(s, opening, ready, rest + [CloseDrain(t)], end);
    assert opening + (rest + [CloseDrain(t)]) == opening + rest + [CloseDrain(t)];
  }
}
