/**
 The think / execute / observe / reflect loop of agents/executor.py, without replanner and
 critic. Tool choice, tool results, observation and verification are an arbitrary function
 of the step number.
 */
module Executors {
  import opened Common
  import opened Tasks
  import opened AgentStates

  /** What the outside world answers in one step; tool None means that no tool was found, and note is the
      reflection's comment on the attempt. */
  datatype Response = Response(tool: Option<string>, success: bool, quality: real, retrySuggested: bool,
                               verified: Option<bool>, output: string, note: string)

  type Environment = nat -> Response

  datatype Config = Config(maxSteps: int, maxRetries: int, threshold: real)

  datatype HistoryEntry = HistoryEntry(step: nat, task: Id, title: string, tool: string, action: Action,
                                       quality: real, note: string)

  /** The observation after verification: a failed check overrules a success. */
  function Observe(tool: string, r: Response): Observation {
    if r.verified == Some(false) && r.success
    then Observation(tool, false, if r.quality < 0.2 then r.quality else 0.2, true)
    else Observation(tool, r.success, r.quality, r.retrySuggested)
  }

  // ----- the loop as a function

  /** The counters and the history of the run result. */
  datatype Tally = Tally(completed: nat, failed: nat, skipped: nat, history: seq<HistoryEntry>)

  /** The loop's variables at its head: the plan, the steps taken, the result so far, the agent state. */
  datatype Run = Run(plan: Plan, step: nat, tally: Tally, book: Book)

  function Decimal(n: nat): string {
    (if n < 10 then "" else Decimal(n / 10)) + ["0123456789"[n % 10]]
  }

  function FailNote(attempts: nat, note: string): string {
    "Failed after " + Decimal(attempts) + " attempt(s): " + note
  }

  /** The task after an attempt that ended in action a. */
  function Outcome(v: View, a: Action, note: string): View {
    match a
    case Retry => v.(status := Pending)
    case Skip => v.(status := Failed, error := FailNote(v.attempts, note))
    case Accept => v.(status := Completed)
  }

  /** The agent state after an observed attempt at the task v. */
  function Noted(b: Book, v: View, o: Observation, a: Action, note: string): Book {
    var seen := b.(observations := b.observations + [o], toolCalls := b.toolCalls + 1);
    var noted := match a
      case Retry => seen.(toolCalls := seen.toolCalls + 1, retries := seen.retries + 1)
      case Skip =>
        seen.(failed := AddOnce(seen.failed, v.id),
              failures := seen.failures + [FailureRecord(v.title, o.tool, FailNote(v.attempts, note))])
      case Accept => seen.(completed := AddOnce(seen.completed, v.id));
    noted.(reliability := Rated(noted.reliability, o.tool, o.success))
  }

  function Entry(step: nat, v: View, o: Observation, a: Action, note: string): HistoryEntry {
    HistoryEntry(step, v.id, v.title, o.tool, a, o.quality, if |note| > 120 then note[..120] else note)
  }

  function Tallied(t: Tally, e: HistoryEntry): Tally {
    Tally(if e.action == Accept then t.completed + 1 else t.completed, if e.action == Skip then t.failed + 1 else t.failed,
          t.skipped, t.history + [e])
  }

  /** One step in which task i was ready. */
  function Attempt(c: Config, r: Response, s: Run, i: nat): Run
    requires i < |s.plan|
  {
    var v := Started(s.plan[i]);
    match r.tool
    case None =>
      Run(s.plan[i := v.(status := Skipped)], s.step + 1, s.tally.(skipped := s.tally.skipped + 1), s.book)
    case Some(tool) =>
      var o := Observe(tool, r);
      var a := Decide(o, v.attempts, c.maxRetries, c.threshold);
      Run(s.plan[i := Outcome(v, a, r.note)], s.step + 1, Tallied(s.tally, Entry(s.step + 1, v, o, a, r.note)),
          Noted(s.book, v, o, a, r.note))
  }

  datatype Exit = AllDone | StepLimit | NoReadyTask

  /** The state in which the loop ends from s, and why it ends. */
  function Loop(c: Config, env: Environment, s: Run): (r: (Run, Exit))
    decreases c.maxSteps - s.step
  {
    if Finished(s.plan) then (s, AllDone)
    else if s.step >= c.maxSteps then (s, StepLimit)
    else
      match FirstReady(s.plan)
      case None => (s, NoReadyTask)
      case Some(i) => Loop(c, env, Attempt(c, env(s.step), s, i))
  }

  function Initial(plan: Plan): Run {
    Run(plan, 0, Tally(0, 0, 0, []), EMPTY_BOOK)
  }

  // ----- the loop as code

  // The body of the loop for the chosen task.
  method AttemptTask(c: Config, r: Response, task: Task, ghost tasks: seq<Task>, ghost k: nat, state: AgentState,
                     step: nat, tally: Tally) returns (tally': Tally)
    requires k < |tasks| && tasks[k] == task && Distinct(tasks)
    modifies task, state
    ensures Run(Views(tasks), step + 1, tally', state.Look())
         == Attempt(c, r, old(Run(Views(tasks), step, tally, state.Look())), k)
  {
    ghost var before := Run(Views(tasks), step, tally, state.Look());
    StartTask(task, tasks, k);
    ghost var started := task.Look();
    if r.tool == None {
      tally' := SkipTask(task, tasks, k, tally);
      AttemptSkips(c, r, before, k, Views(tasks), tally');
    } else {
      var o := Observe(r.tool.value, r);
      var a := Decide(o, task.attempts, c.maxRetries, c.threshold);
      tally' := SettleTask(task, tasks, k, o, a, r, step + 1, tally);
      ghost var plan := Views(tasks);
      NoteAttempt(state, task, o, a, r.note, started);
      AttemptSettles(c, r, before, k, plan, tally', state.Look());
    }
  }

  lemma AttemptSkips(c: Config, r: Response, s: Run, i: nat, plan: Plan, tally: Tally)
    requires i < |s.plan| && r.tool == None
    requires plan == s.plan[i := Started(s.plan[i])][i := Started(s.plan[i]).(status := Skipped)]
    requires tally == s.tally.(skipped := s.tally.skipped + 1)
    ensures Run(plan, s.step + 1, tally, s.book) == Attempt(c, r, s, i)
  {}

  lemma AttemptSettles(c: Config, r: Response, s: Run, i: nat, plan: Plan, tally: Tally, book: Book)
    requires i < |s.plan| && r.tool.Some?
    requires var v := Started(s.plan[i]);
      var o := Observe(r.tool.value, r);
      var a := Decide(o, v.attempts, c.maxRetries, c.threshold);
      && plan == s.plan[i := v][i := Outcome(v, a, r.note)]
      && tally == Tallied(s.tally, Entry(s.step + 1, v, o, a, r.note)) && book == Noted(s.book, v, o, a, r.note)
    ensures Run(plan, s.step + 1, tally, book) == Attempt(c, r, s, i)
  {}

  method SkipTask(task: Task, ghost tasks: seq<Task>, ghost k: nat, tally: Tally) returns (tally': Tally)
    requires k < |tasks| && tasks[k] == task && Distinct(tasks)
    modifies task
    ensures Views(tasks) == old(Views(tasks))[k := old(Views(tasks))[k].(status := Skipped)]
    ensures tally' == tally.(skipped := tally.skipped + 1)
  {
    SetStatus(task, tasks, k, Skipped);
    tally' := tally.(skipped := tally.skipped + 1);
  }

  // The new status of an attempted task, and its entry in the run's history.
  method SettleTask(task: Task, ghost tasks: seq<Task>, ghost k: nat, o: Observation, a: Action, r: Response,
                    step: nat, tally: Tally) returns (tally': Tally)
    requires k < |tasks| && tasks[k] == task && Distinct(tasks)
    modifies task
    ensures Views(tasks) == old(Views(tasks))[k := Outcome(old(Views(tasks))[k], a, r.note)]
    ensures task.Look() == Outcome(old(task.Look()), a, r.note)
    ensures tally' == Tallied(tally, Entry(step, old(task.Look()), o, a, r.note))
  {
    match a {
      case Retry => SetStatus(task, tasks, k, Pending);
      case Skip => FailTask(task, tasks, k, FailNote(task.attempts, r.note));
      case Accept => CompleteTask(task, tasks, k, if |r.output| > 500 then r.output[..500] else r.output);
    }
    tally' := Tallied(tally, HistoryEntry(step, task.taskId, task.title, o.tool, a, o.quality,
                                          if |r.note| > 120 then r.note[..120] else r.note));
  }

  // The bookkeeping in the agent state for one observed and settled attempt.
  method NoteAttempt(state: AgentState, task: Task, o: Observation, a: Action, ghost note: string, ghost started: View)
    requires task.Look() == Outcome(started, a, note)
    modifies state
    ensures state.Look() == Noted(old(state.Look()), started, o, a, note)
  {
    state.RecordObservation(o);
    match a {
      case Retry => state.RecordRetry();
      case Skip => state.RecordFailure(task.taskId, FailureRecord(task.title, o.tool, task.error));
      case Accept => state.RecordCompletion(task.taskId);
    }
    state.RecordReliability(o.tool, o.success);
  }

  // One turn of the loop: false when no task is ready.
  method TakeStep(c: Config, r: Response, graph: TaskGraph, state: AgentState, step: nat, tally: Tally)
    returns (found: bool, tally': Tally)
    requires Distinct(graph.tasks)
    modifies graph.tasks, state
    ensures graph.tasks == old(graph.tasks)
    ensures found == FirstReady(old(graph.Plan())).Some?
    ensures if found
      then Run(graph.Plan(), step + 1, tally', state.Look())
        == Attempt(c, r, old(Run(graph.Plan(), step, tally, state.Look())), FirstReady(old(graph.Plan())).value)
      else graph.Plan() == old(graph.Plan()) && tally' == tally && state.Look() == old(state.Look())
  {
    var next, at := graph.NextTask();
    found, tally' := next.Some?, tally;
    if found {
      tally' := AttemptTask(c, r, next.value, graph.tasks, at, state, step, tally);
    }
  }

  method RunLoop(c: Config, env: Environment, graph: TaskGraph, state: AgentState)
    returns (tally: Tally, step: nat, exit: Exit)
    requires Distinct(graph.tasks) && state.Look() == EMPTY_BOOK
    modifies graph.tasks, state
    ensures graph.tasks == old(graph.tasks)
    ensures Loop(c, env, Initial(old(graph.Plan()))) == (Run(graph.Plan(), step, tally, state.Look()), exit)
  {
    ghost var end := Loop(c, env, Initial(graph.Plan()));
    step, tally, exit := 0, Tally(0, 0, 0, []), StepLimit;
    var complete := graph.IsComplete();
    while !complete && step < c.maxSteps
      invariant graph.tasks == old(graph.tasks) && complete == Finished(graph.Plan())
      invariant Loop(c, env, Run(graph.Plan(), step, tally, state.Look())) == end
      decreases c.maxSteps - step
    {
      var found;
      found, tally, complete := TakeTurn(c, env, graph, state, step, tally);
      if !found {
        return tally, step, NoReadyTask;
      }
      step := step + 1;
    }
    exit := if complete then AllDone else StepLimit;
  }

  // The same turn, seen from the end of the loop.
  method TakeTurn(c: Config, env: Environment, graph: TaskGraph, state: AgentState, step: nat, tally: Tally)
    returns (found: bool, tally': Tally, complete: bool)
    requires Distinct(graph.tasks) && !Finished(graph.Plan()) && step < c.maxSteps
    modifies graph.tasks, state
    ensures graph.tasks == old(graph.tasks) && complete == Finished(graph.Plan())
    ensures old(Loop(c, env, Run(graph.Plan(), step, tally, state.Look())))
         == if found then Loop(c, env, Run(graph.Plan(), step + 1, tally', state.Look()))
            else (Run(graph.Plan(), step, tally', state.Look()), NoReadyTask)
  {
    ghost var head := Run(graph.Plan(), step, tally, state.Look());
    found, tally' := TakeStep(c, env(step), graph, state, step, tally);
    if found {
      LoopTurn(c, env, head);
    }
    complete := graph.IsComplete();
  }

  lemma LoopTurn(c: Config, env: Environment, s: Run)
    requires !Finished(s.plan) && s.step < c.maxSteps && FirstReady(s.plan).Some?
    ensures Loop(c, env, s) == Loop(c, env, Attempt(c, env(s.step), s, FirstReady(s.plan).value))
  {}

  datatype AgentRunResult = AgentRunResult(tally: Tally, totalSteps: nat, success: bool)

  /** An empty look for a ready task counts as a step. */
  function Summary(end: Run, exit: Exit): AgentRunResult {
    AgentRunResult(end.tally, if exit == NoReadyTask then end.step + 1 else end.step,
                   Finished(end.plan) && !AnyFailed(end.plan))
  }

  method Execute(c: Config, env: Environment, graph: TaskGraph) returns (result: AgentRunResult, state: AgentState)
    requires Distinct(graph.tasks)
    modifies graph.tasks
    ensures graph.tasks == old(graph.tasks)
    ensures var (end, exit) := Loop(c, env, Initial(old(graph.Plan())));
      && graph.Plan() == end.plan && state.Look() == end.book && result == Summary(end, exit)
      && result.tally == end.tally && result.totalSteps == end.step + (if exit == NoReadyTask then 1 else 0)
    ensures result.success <==>
      forall t :: t in graph.tasks ==> t.status == Completed || t.status == Skipped
  {
    state := new AgentState();
    var tally, steps, exit := RunLoop(c, env, graph, state);
    result := Summarize(graph, tally, steps, exit, state.Look());
  }

  method Summarize(graph: TaskGraph, tally: Tally, steps: nat, exit: Exit, ghost book: Book) returns (result: AgentRunResult)
    ensures result == Summary(Run(graph.Plan(), steps, tally, book), exit)
    ensures result.success <==> forall t :: t in graph.tasks ==> t.status == Completed || t.status == Skipped
  {
    var failures := graph.HasFailures();
    var complete := graph.IsComplete();
    result := AgentRunResult(tally, if exit == NoReadyTask then steps + 1 else steps, complete && !failures);
  }
}
