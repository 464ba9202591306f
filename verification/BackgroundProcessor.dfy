/**
 The code of core/background_processor.py, one undisturbed call at a time. Each method says what it
 does to queue, file and counters, and which atomic steps of the protocol it consists of; any other
 thread's steps may come between them.
 */
module BackgroundProcessors {
  import opened Common
  import opened Background
  import opened BackgroundCalls

  /** The well-formed records of a file, in order. */
  function Tasks(lines: seq<Line>): seq<MemoryTask> {
    if lines == [] then []
    else Tasks(lines[..|lines| - 1]) + (if lines[|lines| - 1].Entry? then [lines[|lines| - 1].task] else [])
  }

  /** How many of n tasks still fit. */
  function Fitting(capacity: nat, queued: nat, n: nat): nat {
    if capacity == 0 || queued + n <= capacity then n else if queued < capacity then capacity - queued else 0
  }

  /** Of the tasks read, what fitted went to the queue in order and the others are kept in order. */
  ghost predicate SplitSo(capacity: nat, before: seq<MemoryTask>, tasks: seq<MemoryTask>,
                          queue: seq<MemoryTask>, kept: seq<MemoryTask>, requeued: nat) {
    && requeued == Fitting(capacity, |before|, |tasks|)
    && queue == before + tasks[..requeued]
    && kept == tasks[requeued..]
  }

  lemma SplitFits(capacity: nat, before: seq<MemoryTask>, tasks: seq<MemoryTask>,
                  queue: seq<MemoryTask>, kept: seq<MemoryTask>, requeued: nat, x: MemoryTask)
    requires SplitSo(capacity, before, tasks, queue, kept, requeued) && !(capacity > 0 && |queue| >= capacity)
    ensures SplitSo(capacity, before, tasks + [x], queue + [x], kept, requeued + 1)
  {
    assert requeued == |tasks| && kept == [];
    assert tasks[..requeued] == tasks;
    assert (tasks + [x])[..requeued + 1] == tasks + [x];
    assert before + tasks + [x] == before + (tasks + [x]);
  }

  lemma SplitKeeps(capacity: nat, before: seq<MemoryTask>, tasks: seq<MemoryTask>,
                   queue: seq<MemoryTask>, kept: seq<MemoryTask>, requeued: nat, x: MemoryTask)
    requires SplitSo(capacity, before, tasks, queue, kept, requeued) && |before| <= capacity && |queue| >= capacity > 0
    ensures SplitSo(capacity, before, tasks + [x], queue, kept + [x], requeued)
  {
    assert (tasks + [x])[..requeued] == tasks[..requeued];
    assert (tasks + [x])[requeued..] == tasks[requeued..] + [x];
  }

  ghost predicate DrainedSo(capacity: nat, before: seq<MemoryTask>, seen: seq<Line>,
                            queue: seq<MemoryTask>, remaining: seq<Line>, requeued: nat) {
    SplitSo(capacity, before, Tasks(seen), queue, Tasks(remaining), requeued) && |remaining| == |Tasks(remaining)|
  }

  lemma TasksSnoc(lines: seq<Line>, line: Line)
    ensures Tasks(lines + [line]) == Tasks(lines) + (if line.Entry? then [line.task] else [])
  {
    assert (lines + [line])[..|lines|] == lines;
  }

  lemma DrainedOneMore(capacity: nat, before: seq<MemoryTask>, seen: seq<Line>, queue: seq<MemoryTask>,
                       remaining: seq<Line>, requeued: nat, line: Line)
    requires DrainedSo(capacity, before, seen, queue, remaining, requeued) && (capacity > 0 ==> |before| <= capacity)
    ensures line.Malformed? ==> DrainedSo(capacity, before, seen + [line], queue, remaining, requeued)
    ensures line.Entry? && !(capacity > 0 && |queue| >= capacity) ==>
              DrainedSo(capacity, before, seen + [line], queue + [line.task], remaining, requeued + 1)
    ensures line.Entry? && capacity > 0 && |queue| >= capacity ==>
              DrainedSo(capacity, before, seen + [line], queue, remaining + [line], requeued)
  {
    TasksSnoc(seen, line);
    if line.Malformed? {
      assert Tasks(seen) + [] == Tasks(seen);
    } else if !(capacity > 0 && |queue| >= capacity) {
      SplitFits(capacity, before, Tasks(seen), queue, Tasks(remaining), requeued, line.task);
    } else {
      TasksSnoc(remaining, line);
      SplitKeeps(capacity, before, Tasks(seen), queue, Tasks(remaining), requeued, line.task);
    }
  }

  class BackgroundProcessor {
    const capacity: nat
    const durable: bool
    var handlers: set<Job>
    var queue: seq<MemoryTask>
    var file: Option<seq<Line>>
    var submitted: nat
    var processed: nat
    var failed: nat
    var overflowed: nat
    ghost var state: State

    ghost predicate Agrees(s: State)
      reads this
    {
      && s.capacity == capacity && s.durable == durable && s.handlers == handlers
      && s.queue == queue && s.file == file && s.next == submitted
      && s.processed == processed && s.failed == failed && s.overflowed == overflowed
    }

    ghost predicate Valid()
      reads this
    {
      Agrees(state) && (capacity > 0 ==> |queue| <= capacity)
    }

    /** Thread t is about to call, and nobody holds the overflow lock. */
    ghost predicate Free(t: nat)
      reads this
    {
      Calm(state, t)
    }

    predicate IsFull()
      reads this
    {
      capacity > 0 && |queue| >= capacity
    }

    method Register(job: Job)
      requires Valid()
      modifies this
      ensures Valid() && state == Next(old(state), Event.Register(job))
    {
      handlers := handlers + {job};
      state := Next(state, Event.Register(job));
    }

    method Submit(t: nat, job: Job) returns (ok: bool)
      requires Valid() && Free(t)
      modifies this
      ensures Valid() && Free(t) && Runs(old(state), SubmitSteps(old(state), t, job), state)
      ensures ok <==> durable || !old(IsFull())
      ensures queue == old(queue) + (if old(IsFull()) then [] else [NewTask(old(submitted), job)])
      ensures file == if old(IsFull()) && durable
                      then Some(Content(old(file)) + [Entry(NewTask(old(submitted), job))]) else old(file)
    {
      var task := NewTask(submitted, job);
      state := SubmitRuns(state, t, job);
      submitted := submitted + 1;
      if !IsFull() {
        queue := queue + [task];
        return true;
      }
      if durable {
        file := Some((if file.Some? then file.value else []) + [Entry(task)]);
        overflowed := overflowed + 1;
        return true;
      }
      ok := false;
    }

    // The except branch: count the failure and requeue the task if it may be retried and there is room.
    method Recover(task: MemoryTask)
      modifies this`failed, this`queue
      ensures queue == if task.CanRetry() && !old(IsFull()) then old(queue) + [task] else old(queue)
      ensures failed == old(failed) + 1
    {
      failed := failed + 1;
      if task.CanRetry() && !IsFull() {
        queue := queue + [task];
      }
    }

    // Runs the handler once; a failed task goes back to the queue while it has attempts left and there is room.
    method Process(t: nat, task: MemoryTask, raises: bool)
      requires Valid() && Under(state, t, Holding(task))
      modifies this
      ensures Valid() && Free(t) && Runs(old(state), ProcessSteps(old(state), t, task, raises), state)
      ensures queue == if task.job in handlers && raises && task.attempt + 1 < task.maxAttempts && !old(IsFull())
                       then old(queue) + [task.(attempt := task.attempt + 1)] else old(queue)
      ensures processed == old(processed) + (if task.job in handlers && !raises then 1 else 0)
      ensures failed == old(failed) + (if task.job in handlers && raises then 1 else 0)
      ensures file == old(file) && overflowed == old(overflowed) && handlers == old(handlers)
    {
      state := ProcessRuns(state, t, task, raises);
      if task.job !in handlers {
        return;
      }
      if raises {
        Recover(task.(attempt := task.attempt + 1));
      } else {
        processed := processed + 1;
      }
    }

    /** One turn of the worker loop; raises says how the handler ends, if it is called. */
    method WorkOnce(t: nat, raises: bool)
      requires Valid() && Free(t)
      modifies this
      ensures Valid() && Free(t) && Runs(old(state), WorkSteps(old(state), t, raises), state)
      ensures queue ==
                if old(queue) == [] then []
                else if old(queue)[0].job in handlers && raises && old(queue)[0].attempt + 1 < old(queue)[0].maxAttempts
                then old(queue)[1..] + [old(queue)[0].(attempt := old(queue)[0].attempt + 1)]
                else old(queue)[1..]
      ensures var called := old(queue) != [] && old(queue)[0].job in handlers;
              processed == old(processed) + (if called && !raises then 1 else 0)
              && failed == old(failed) + (if called && raises then 1 else 0)
      ensures file == old(file) && overflowed == old(overflowed) && handlers == old(handlers)
    {
      if queue == [] {
        return;
      }
      ghost var start := state;
      var task := queue[0];
      queue := queue[1..];
      state := TakeRuns(state, t);
      Process(t, task, raises);
      RunsCons(start, Take(t), ProcessSteps(start, t, task, raises), state);
    }

    // One line of the overflow file: put_nowait, or keep the line, or skip it.
    method RequeueLine(t: nat, lines: seq<Line>, i: nat, kept: seq<Line>, count: nat)
      returns (remaining: seq<Line>, requeued: nat)
      requires Valid() && i < |lines| && AtLine(state, t, lines, i, kept, count)
      modifies this`state, this`queue
      ensures Valid() && AtLine(state, t, lines, i + 1, remaining, requeued)
      ensures Enabled(old(state), DrainLine(t)) && state == Next(old(state), DrainLine(t))
      ensures if lines[i].Malformed? then queue == old(queue) && remaining == kept && requeued == count
              else if !old(IsFull()) then queue == old(queue) + [lines[i].task] && remaining == kept && requeued == count + 1
              else queue == old(queue) && remaining == kept + [lines[i]] && requeued == count
    {
      remaining, requeued := kept, count;
      state := LineRuns(state, t, lines, i, kept, count);
      if lines[i].Entry? {
        if !IsFull() {
          queue := queue + [lines[i].task];
          requeued := requeued + 1;
        } else {
          remaining := remaining + [lines[i]];
        }
      }
    }

    // The loop over the lines, under the overflow lock.
    method RequeueLines(t: nat, lines: seq<Line>) returns (remaining: seq<Line>, requeued: nat)
      requires Valid() && AtLine(state, t, lines, 0, [], 0)
      modifies this`state, this`queue
      ensures Valid() && AtLine(state, t, lines, |lines|, remaining, requeued)
      ensures Runs(old(state), Repeated(DrainLine(t), |lines|), state)
      ensures DrainedSo(capacity, old(queue), lines, queue, remaining, requeued)
    {
      ghost var start, before := state, queue;
      remaining, requeued := [], 0;
      for i := 0 to |lines|
        invariant Valid() && AtLine(state, t, lines, i, remaining, requeued)
        invariant Runs(start, Repeated(DrainLine(t), i), state)
        invariant DrainedSo(capacity, before, lines[..i], queue, remaining, requeued)
      {
        remaining, requeued := RequeueNext(t, lines, i, remaining, requeued, start, before);
      }
      assert lines[..|lines|] == lines;
    }

    // The body of that loop, seen from its start.
    method RequeueNext(t: nat, lines: seq<Line>, i: nat, kept: seq<Line>, count: nat,
                       ghost start: State, ghost before: seq<MemoryTask>)
      returns (remaining: seq<Line>, requeued: nat)
      requires Valid() && i < |lines| && AtLine(state, t, lines, i, kept, count)
      requires Runs(start, Repeated(DrainLine(t), i), state) && DrainedSo(capacity, before, lines[..i], queue, kept, count)
      requires capacity > 0 ==> |before| <= capacity
      modifies this`state, this`queue
      ensures Valid() && AtLine(state, t, lines, i + 1, remaining, requeued)
      ensures Runs(start, Repeated(DrainLine(t), i + 1), state)
      ensures DrainedSo(capacity, before, lines[..i + 1], queue, remaining, requeued)
    {
      DrainedOneMore(capacity, before, lines[..i], queue, kept, count, lines[i]);
      assert lines[..i] + [lines[i]] == lines[..i + 1];
      ghost var now := state;
      remaining, requeued := RequeueLine(t, lines, i, kept, count);
      RunsOneMore(start, Repeated(DrainLine(t), i), now, DrainLine(t));
    }

    // What follows the reading of the file: requeue, then rewrite or unlink the file, then let go of the lock.
    method RequeueAndClose(t: nat, lines: seq<Line>) returns (requeued: nat)
      requires Valid() && AtLine(state, t, lines, 0, [], 0)
      modifies this`state, this`queue, this`file
      ensures Valid() && Free(t) && Runs(old(state), Repeated(DrainLine(t), |lines|) + [CloseDrain(t)], state)
      ensures DrainedSo(capacity, old(queue), lines, queue, Content(file), requeued) && file != Some([])
    {
      ghost var start := state;
      var remaining;
      remaining, requeued := RequeueLines(t, lines);
      ghost var drained := state;
      state := CloseRuns(state, t, lines, remaining, requeued);
      RunsOneMore(start, Repeated(DrainLine(t), |lines|), drained, CloseDrain(t));
      file := if remaining != [] then Some(remaining) else None;
    }

    /** Requeues what fits, in file order; the rest stays, without the malformed lines. */
    method DrainOverflow(t: nat, readable: bool) returns (requeued: nat)
      requires Valid() && Free(t)
      modifies this`state, this`queue, this`file
      ensures Valid() && Free(t) && Runs(old(state), DrainSteps(old(state), t, readable), state)
      ensures !durable || old(file).None? || !readable ==> requeued == 0 && queue == old(queue) && file == old(file)
      ensures durable && old(file).Some? && readable ==>
                DrainedSo(capacity, old(queue), old(file).value, queue, Content(file), requeued)
                && file != Some([])
    {
      requeued := 0;
      ghost var start := state;
      if !durable || file.None? {
        state := LookRuns(state, t);
        return;
      }
      state := OpenRuns(state, t, readable);
      if readable {
        ghost var ready := state;
        requeued := RequeueAndClose(t, file.value);
        DrainRuns(start, t, ready, state);
      }
    }
  }
}
