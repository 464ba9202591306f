/** What holds at every head of the executor loop, and when and how the loop ends. */
module ExecutorProperties {
  import opened Common
  import opened Tasks
  import opened AgentStates
  import opened Executors
  import T = Topology
  import L = Layers

  predicate FreshPlan(plan: Plan) {
    forall i :: 0 <= i < |plan| ==> plan[i].status == Pending && plan[i].attempts == 0
  }

  // The most attempts one task can get.
  function Cap(c: Config): nat { if c.maxRetries > 1 then c.maxRetries else 1 }

  // ----- plan invariants

  predicate Between(plan: Plan) {
    forall i :: 0 <= i < |plan| ==> plan[i].status in {Pending, Completed, Failed, Skipped}
  }

  predicate AttemptsCapped(plan: Plan, cap: nat) {
    forall i :: 0 <= i < |plan| ==> plan[i].attempts <= cap && (plan[i].status == Pending ==> plan[i].attempts < cap)
  }

  /** Every attempted task has all its dependencies completed. */
  predicate AttemptsJustified(plan: Plan) {
    forall i, d :: 0 <= i < |plan| && plan[i].attempts > 0 && d in plan[i].deps ==> d in IdsWith(plan, Completed)
  }

  function TotalAttempts(plan: Plan): nat {
    if plan == [] then 0 else TotalAttempts(plan[..|plan| - 1]) + plan[|plan| - 1].attempts
  }

  // The task an attempt leaves behind, seen from outside.
  ghost predicate Attempted(before: View, after: View) {
    && after.id == before.id && after.deps == before.deps && after.attempts == before.attempts + 1
    && after.status in {Pending, Completed, Failed, Skipped}
  }

  lemma AttemptShape(c: Config, r: Response, s: Run, i: nat)
    requires i < |s.plan|
    ensures var t := Attempt(c, r, s, i);
      && t.plan == s.plan[i := t.plan[i]] && Attempted(s.plan[i], t.plan[i]) && t.step == s.step + 1
      && (t.plan[i].status == Pending ==> t.plan[i].attempts < c.maxRetries)
  {
  }

  lemma {:induction false} AttemptsUpdate(plan: Plan, i: nat, v: View)
    requires i < |plan|
    ensures TotalAttempts(plan[i := v]) == TotalAttempts(plan) + v.attempts - plan[i].attempts
  {
    var n := |plan| - 1;
    if i == n {
      assert plan[i := v][..n] == plan[..n];
    } else {
      assert plan[i := v][..n] == plan[..n][i := v];
      AttemptsUpdate(plan[..n], i, v);
    }
  }

  lemma {:induction false} IdsWithUpdate(plan: Plan, i: nat, v: View, s: Status)
    requires i < |plan| && plan[i].status != s && v.id == plan[i].id
    ensures IdsWith(plan[i := v], s) == if v.status == s then IdsWith(plan, s) + {v.id} else IdsWith(plan, s)
  {
    var n := |plan| - 1;
    if i == n {
      assert plan[i := v][..n] == plan[..n];
    } else {
      assert plan[i := v][..n] == plan[..n][i := v];
      IdsWithUpdate(plan[..n], i, v, s);
    }
  }

  lemma JustifiedStep(plan: Plan, i: nat, v: View)
    requires i < |plan| && Ready(plan, i) && Attempted(plan[i], v) && AttemptsJustified(plan)
    ensures AttemptsJustified(plan[i := v])
  {
    IdsWithUpdate(plan, i, v, Completed);
  }

  lemma {:induction false} CappedTotal(plan: Plan, cap: nat)
    requires AttemptsCapped(plan, cap)
    ensures TotalAttempts(plan) <= |plan| * cap
  {
    if plan != [] {
      CappedTotal(plan[..|plan| - 1], cap);
    }
  }

  ghost predicate PlanSound(c: Config, s: Run) {
    Between(s.plan) && AttemptsCapped(s.plan, Cap(c)) && AttemptsJustified(s.plan) && TotalAttempts(s.plan) == s.step
  }

  lemma PlanSoundStep(c: Config, r: Response, s: Run, i: nat)
    requires PlanSound(c, s) && i < |s.plan| && Ready(s.plan, i)
    ensures PlanSound(c, Attempt(c, r, s, i))
  {
    var t := Attempt(c, r, s, i);
    AttemptShape(c, r, s, i);
    JustifiedStep(s.plan, i, t.plan[i]);
    AttemptsUpdate(s.plan, i, t.plan[i]);
  }

  // ----- counters and records

  function CountTool(h: seq<HistoryEntry>, tool: string): nat {
    if h == [] then 0 else CountTool(h[..|h| - 1], tool) + if h[|h| - 1].tool == tool then 1 else 0
  }

  function CountAction(h: seq<HistoryEntry>, a: Action): nat {
    if h == [] then 0 else CountAction(h[..|h| - 1], a) + if h[|h| - 1].action == a then 1 else 0
  }

  function CountSuccesses(o: seq<Observation>, tool: string): nat {
    if o == [] then 0
    else CountSuccesses(o[..|o| - 1], tool) + if o[|o| - 1].tool == tool && o[|o| - 1].success then 1 else 0
  }

  /** The result counters are the status counts, and every step is a history entry or a skip. */
  ghost predicate CountersAgree(s: Run) {
    && s.tally.completed == Count(s.plan, Completed) == CountAction(s.tally.history, Accept)
    && s.tally.failed == Count(s.plan, Failed) == CountAction(s.tally.history, Skip)
    && s.tally.skipped == Count(s.plan, Skipped)
    && s.step == |s.tally.history| + s.tally.skipped
  }

  lemma CountersStep(c: Config, r: Response, s: Run, i: nat)
    requires CountersAgree(s) && i < |s.plan| && s.plan[i].status == Pending
    ensures CountersAgree(Attempt(c, r, s, i))
  {
    var t := Attempt(c, r, s, i);
    AttemptShape(c, r, s, i);
    CountUpdate(s.plan, i, t.plan[i], Completed);
    CountUpdate(s.plan, i, t.plan[i], Failed);
    CountUpdate(s.plan, i, t.plan[i], Skipped);
    if r.tool.Some? {
      assert t.tally.history[..|s.tally.history|] == s.tally.history;
    }
  }

  ghost predicate ToolAgrees(s: Run, tool: string) {
    && StatsOf(s.book.reliability, tool).successes + StatsOf(s.book.reliability, tool).failures == CountTool(s.tally.history, tool)
    && StatsOf(s.book.reliability, tool).successes == CountSuccesses(s.book.observations, tool)
  }

  function StatsOf(r: map<string, Stats>, tool: string): Stats {
    if tool in r then r[tool] else Stats(0, 0)
  }

  lemma RatedStats(r: map<string, Stats>, name: string, success: bool, tool: string)
    ensures StatsOf(Rated(r, name, success), tool)
         == if tool == name then StatsOf(r, tool).Record(success) else StatsOf(r, tool)
  {
  }

  /** Per tool, the reliability record counts that tool's history entries and successes; a retry costs an extra call,
      and giving up a failure record. */
  ghost predicate RecordsAgree(s: Run) {
    && (forall tool :: ToolAgrees(s, tool))
    && |s.book.observations| == |s.tally.history|
    && s.book.retries == CountAction(s.tally.history, Retry)
    && |s.book.failures| == CountAction(s.tally.history, Skip)
    && s.book.toolCalls == |s.tally.history| + s.book.retries
  }

  lemma CountsAppend(h: seq<HistoryEntry>, e: HistoryEntry, o: seq<Observation>, seen: Observation, tool: string, a: Action)
    ensures CountTool(h + [e], tool) == CountTool(h, tool) + if e.tool == tool then 1 else 0
    ensures CountAction(h + [e], a) == CountAction(h, a) + if e.action == a then 1 else 0
    ensures CountSuccesses(o + [seen], tool)
         == CountSuccesses(o, tool) + if seen.tool == tool && seen.success then 1 else 0
  {
    assert (h + [e])[..|h|] == h && (o + [seen])[..|o|] == o;
  }

  lemma NotedShape(b: Book, v: View, o: Observation, a: Action, note: string)
    ensures var n := Noted(b, v, o, a, note);
      && n.observations == b.observations + [o] && n.reliability == Rated(b.reliability, o.tool, o.success)
      && |n.failures| == |b.failures| + (if a == Skip then 1 else 0)
      && n.retries == b.retries + (if a == Retry then 1 else 0)
      && n.toolCalls == b.toolCalls + (if a == Retry then 2 else 1)
  {
  }

  lemma RecordsStep(c: Config, r: Response, s: Run, i: nat)
    requires RecordsAgree(s) && i < |s.plan|
    ensures RecordsAgree(Attempt(c, r, s, i))
  {
    var t := Attempt(c, r, s, i);
    if r.tool == None {
      forall tool ensures ToolAgrees(t, tool) {
        assert ToolAgrees(s, tool);
      }
    } else {
      var o := Observe(r.tool.value, r);
      var a := Decide(o, s.plan[i].attempts + 1, c.maxRetries, c.threshold);
      var v := Started(s.plan[i]);
      var e := Entry(s.step + 1, v, o, a, r.note);
      NotedShape(s.book, v, o, a, r.note);
      assert t.book == Noted(s.book, v, o, a, r.note) && t.tally.history == s.tally.history + [e];
      RecordsAfter(s, t, o, e);
    }
  }

  lemma RecordsAfter(s: Run, t: Run, o: Observation, e: HistoryEntry)
    requires RecordsAgree(s) && t.tally.history == s.tally.history + [e] && t.book.observations == s.book.observations + [o]
    requires e.tool == o.tool && t.book.reliability == Rated(s.book.reliability, o.tool, o.success)
    requires t.book.retries == s.book.retries + if e.action == Retry then 1 else 0
    requires |t.book.failures| == |s.book.failures| + if e.action == Skip then 1 else 0
    requires t.book.toolCalls == s.book.toolCalls + if e.action == Retry then 2 else 1
    ensures RecordsAgree(t)
  {
    CountsAppend(s.tally.history, e, s.book.observations, o, "", Retry);
    CountsAppend(s.tally.history, e, s.book.observations, o, "", Skip);
    forall tool ensures ToolAgrees(t, tool) {
      ToolAfter(s, t, o, e, tool);
    }
  }

  lemma ToolAfter(s: Run, t: Run, o: Observation, e: HistoryEntry, tool: string)
    requires ToolAgrees(s, tool) && e.tool == o.tool
    requires t.tally.history == s.tally.history + [e] && t.book.observations == s.book.observations + [o]
    requires t.book.reliability == Rated(s.book.reliability, o.tool, o.success)
    ensures ToolAgrees(t, tool)
  {
    var before, after := StatsOf(s.book.reliability, tool), StatsOf(t.book.reliability, tool);
    assert after == if tool == o.tool then before.Record(o.success) else before by {
      RatedStats(s.book.reliability, o.tool, o.success, tool);
    }
    assert CountTool(t.tally.history, tool) == CountTool(s.tally.history, tool) + (if tool == o.tool then 1 else 0)
      && CountSuccesses(t.book.observations, tool)
         == CountSuccesses(s.book.observations, tool) + (if tool == o.tool && o.success then 1 else 0)
    by {
      CountsAppend(s.tally.history, e, s.book.observations, o, tool, Retry);
    }
  }

  /** The agent state lists exactly the completed and the failed tasks, once each. */
  ghost predicate ListsAgree(s: Run) {
    && Distinct(s.book.completed) && (forall d :: d in s.book.completed <==> d in IdsWith(s.plan, Completed))
    && Distinct(s.book.failed) && (forall d :: d in s.book.failed <==> d in IdsWith(s.plan, Failed))
  }

  lemma ListsStep(c: Config, r: Response, s: Run, i: nat)
    requires ListsAgree(s) && i < |s.plan| && s.plan[i].status == Pending
    ensures ListsAgree(Attempt(c, r, s, i))
  {
    var t := Attempt(c, r, s, i);
    AttemptShape(c, r, s, i);
    IdsWithUpdate(s.plan, i, t.plan[i], Completed);
    IdsWithUpdate(s.plan, i, t.plan[i], Failed);
  }

  // ----- every head of the loop

  ghost predicate HeadInvariant(c: Config, s: Run) {
    PlanSound(c, s) && CountersAgree(s) && RecordsAgree(s) && ListsAgree(s)
  }

  lemma InitialHead(c: Config, plan: Plan)
    requires FreshPlan(plan)
    ensures HeadInvariant(c, Initial(plan))
  {
    FreshAttempts(plan);
    FreshCounts(plan, Completed);
    FreshCounts(plan, Failed);
    FreshCounts(plan, Skipped);
  }

  lemma {:induction false} FreshAttempts(plan: Plan)
    requires FreshPlan(plan)
    ensures TotalAttempts(plan) == 0
  {
    if plan != [] {
      FreshAttempts(plan[..|plan| - 1]);
    }
  }

  lemma {:induction false} FreshCounts(plan: Plan, s: Status)
    requires FreshPlan(plan) && s != Pending
    ensures Count(plan, s) == 0 && IdsWith(plan, s) == {}
  {
    if plan != [] {
      FreshCounts(plan[..|plan| - 1], s);
    }
  }

  lemma {:induction false} LoopKeeps(c: Config, env: Environment, s: Run)
    requires HeadInvariant(c, s)
    ensures HeadInvariant(c, Loop(c, env, s).0)
    decreases c.maxSteps - s.step
  {
    if !Finished(s.plan) && s.step < c.maxSteps && FirstReady(s.plan).Some? {
      var i := FirstReady(s.plan).value;
      PlanSoundStep(c, env(s.step), s, i);
      CountersStep(c, env(s.step), s, i);
      RecordsStep(c, env(s.step), s, i);
      ListsStep(c, env(s.step), s, i);
      LoopKeeps(c, env, Attempt(c, env(s.step), s, i));
    }
  }

  /** The state at the loop's head after n more steps, if it gets that far. */
  function HeadAt(c: Config, env: Environment, s: Run, n: nat): Option<Run>
    decreases n
  {
    if n == 0 then Some(s)
    else if Finished(s.plan) || s.step >= c.maxSteps || FirstReady(s.plan) == None then None
    else HeadAt(c, env, Attempt(c, env(s.step), s, FirstReady(s.plan).value), n - 1)
  }

  /** A loop head is the state in which the same loop ends under a lower step limit. */
  lemma {:induction false} HeadIsLimitedRun(c: Config, limited: Config, env: Environment, s: Run, n: nat)
    requires HeadAt(c, env, s, n).Some? && limited == c.(maxSteps := s.step + n)
    ensures Loop(limited, env, s).0 == HeadAt(c, env, s, n).value
    decreases n
  {
    if n > 0 {
      var next := Attempt(c, env(s.step), s, FirstReady(s.plan).value);
      AttemptIgnoresLimit(c, limited, env(s.step), s, FirstReady(s.plan).value);
      HeadIsLimitedRun(c, limited, env, next, n - 1);
    }
  }

  lemma AttemptIgnoresLimit(c: Config, limited: Config, r: Response, s: Run, i: nat)
    requires i < |s.plan| && limited == c.(maxSteps := limited.maxSteps)
    ensures Attempt(limited, r, s, i) == Attempt(c, r, s, i) && Attempt(c, r, s, i).step == s.step + 1
  {}

  /** The head invariant holds at every head of every run. */
  lemma HeadsKeep(c: Config, env: Environment, plan: Plan, n: nat)
    requires FreshPlan(plan) && HeadAt(c, env, Initial(plan), n).Some?
    ensures HeadInvariant(c, HeadAt(c, env, Initial(plan), n).value)
  {
    InitialHead(c, plan);
    HeadIsLimitedRun(c, c.(maxSteps := n), env, Initial(plan), n);
    LoopKeeps(c.(maxSteps := n), env, Initial(plan));
  }

  // ----- how the loop ends

  /** However large the step limit, the loop takes at most n * max(1, max_retries) steps and one empty look. */
  lemma StepsBounded(c: Config, env: Environment, plan: Plan)
    requires FreshPlan(plan)
    ensures var (end, exit) := Loop(c, env, Initial(plan));
      end.step <= |plan| * Cap(c) && (exit == StepLimit ==> c.maxSteps <= |plan| * Cap(c))
  {
    InitialHead(c, plan);
    LoopKeeps(c, env, Initial(plan));
    LoopShape(c, env, Initial(plan));
    CappedTotal(Loop(c, env, Initial(plan)).0.plan, Cap(c));
  }

  /** The loop ends for the reason it gives, on the plan it was started on. */
  lemma {:induction false} LoopShape(c: Config, env: Environment, s: Run)
    ensures var (end, exit) := Loop(c, env, s);
      && |end.plan| == |s.plan| && (DistinctIds(s.plan) ==> DistinctIds(end.plan))
      && (forall i :: 0 <= i < |s.plan| ==> end.plan[i].id == s.plan[i].id && end.plan[i].deps == s.plan[i].deps)
      && (exit == AllDone <==> Finished(end.plan))
      && (exit == StepLimit ==> end.step >= c.maxSteps)
      && (exit == NoReadyTask ==> FirstReady(end.plan) == None)
    decreases c.maxSteps - s.step
  {
    if !Finished(s.plan) && s.step < c.maxSteps && FirstReady(s.plan).Some? {
      var i := FirstReady(s.plan).value;
      AttemptShape(c, env(s.step), s, i);
      LoopShape(c, env, Attempt(c, env(s.step), s, i));
    }
  }

  /** Some dependency chain leads from t to a failed or skipped task. */
  ghost predicate Starved(plan: Plan, t: Id) {
    exists c :: T.ChainFrom(L.DepsOf(plan), t, c) && c[|c| - 1] in IdsWith(plan, Failed) + IdsWith(plan, Skipped)
  }

  /** If the loop stops for lack of a ready task on a sound graph, only starved tasks are left pending. */
  lemma OnlyStarvedRemain(plan: Plan)
    requires DistinctIds(plan) && Between(plan) && FirstReady(plan) == None
    requires T.NoDangling(L.DepsOf(plan)) && T.Acyclic(L.DepsOf(plan))
    ensures forall i :: 0 <= i < |plan| && plan[i].status == Pending ==> Starved(plan, plan[i].id)
  {
    var hungry := set t | t in IdsWith(plan, Pending) && !Starved(plan, t);
    HungryAreClosed(plan, hungry);
    if hungry != {} {
      var c := T.ClosedSetHasCycle(L.DepsOf(plan), hungry);
    }
    forall i | 0 <= i < |plan| && plan[i].status == Pending ensures Starved(plan, plan[i].id) {
      HasIdWith(plan, i);
      assert plan[i].id !in hungry;
    }
  }

  lemma HungryAreClosed(plan: Plan, hungry: set<Id>)
    requires DistinctIds(plan) && Between(plan) && FirstReady(plan) == None && T.NoDangling(L.DepsOf(plan))
    requires forall t :: t in hungry <==> t in IdsWith(plan, Pending) && !Starved(plan, t)
    ensures T.Closed(L.DepsOf(plan), hungry)
  {
    forall t | t in hungry ensures t in L.DepsOf(plan) && L.DepsOf(plan)[t] * hungry != {} {
      var d := HungryDependency(plan, t);
      assert d in L.DepsOf(plan)[t] * hungry;
    }
  }

  lemma HungryDependency(plan: Plan, t: Id) returns (d: Id)
    requires DistinctIds(plan) && Between(plan) && FirstReady(plan) == None && T.NoDangling(L.DepsOf(plan))
    requires t in IdsWith(plan, Pending) && !Starved(plan, t)
    ensures t in L.DepsOf(plan) && d in L.DepsOf(plan)[t] && d in IdsWith(plan, Pending) && !Starved(plan, d)
  {
    var g := L.DepsOf(plan);
    var i := IdWithFrom(plan, Pending, t);
    L.DepsOfTask(plan, i);
    assert L.Ids(plan)[i] == t;
    FirstReadyIsFirst(plan, i);
    d :| d in plan[i].deps && d !in IdsWith(plan, Completed);
    assert d in g;
    var j :| 0 <= j < |plan| && L.Ids(plan)[j] == d;
    HasIdWith(plan, j);
    if d !in IdsWith(plan, Pending) {
      assert T.ChainFrom(g, d, [d]) && [d][|[d]| - 1] == d;
      StarvedSpreads(plan, t, d);
    } else if Starved(plan, d) {
      StarvedSpreads(plan, t, d);
    }
  }

  lemma StarvedSpreads(plan: Plan, t: Id, d: Id)
    requires t in L.DepsOf(plan) && d in L.DepsOf(plan)[t] && Starved(plan, d)
    ensures Starved(plan, t)
  {
    var c :| T.ChainFrom(L.DepsOf(plan), d, c) && c[|c| - 1] in IdsWith(plan, Failed) + IdsWith(plan, Skipped);
    T.ChainPrepend(L.DepsOf(plan), t, c);
    assert ([t] + c)[|c|] == c[|c| - 1];
  }

  lemma {:induction false} SameDeps(a: Plan, b: Plan)
    requires |a| == |b| && forall i :: 0 <= i < |a| ==> a[i].id == b[i].id && a[i].deps == b[i].deps
    ensures L.DepsOf(a) == L.DepsOf(b)
  {
    if a != [] {
      SameDeps(a[..|a| - 1], b[..|b| - 1]);
      assert a[|a| - 1].deps == b[|b| - 1].deps;
    }
  }

  /** The last statement for whole runs: on a sound graph a stuck run leaves only starved tasks pending. */
  lemma StuckRunLeavesOnlyStarved(c: Config, env: Environment, plan: Plan)
    requires FreshPlan(plan) && DistinctIds(plan)
    requires T.NoDangling(L.DepsOf(plan)) && T.Acyclic(L.DepsOf(plan))
    ensures var (end, exit) := Loop(c, env, Initial(plan));
      exit == NoReadyTask ==>
        forall i :: 0 <= i < |end.plan| && end.plan[i].status == Pending ==> Starved(end.plan, end.plan[i].id)
  {
    var (end, exit) := Loop(c, env, Initial(plan));
    InitialHead(c, plan);
    LoopKeeps(c, env, Initial(plan));
    LoopShape(c, env, Initial(plan));
    SameDeps(plan, end.plan);
    if exit == NoReadyTask {
      OnlyStarvedRemain(end.plan);
    }
  }

  /** With steps to spare, a run on a sound graph in which no task fails or is skipped completes every task. */
  lemma UntroubledRunFinishes(c: Config, env: Environment, plan: Plan)
    requires FreshPlan(plan) && DistinctIds(plan)
    requires T.NoDangling(L.DepsOf(plan)) && T.Acyclic(L.DepsOf(plan))
    requires c.maxSteps > |plan| * Cap(c)
    ensures var (end, exit) := Loop(c, env, Initial(plan));
      IdsWith(end.plan, Failed) == {} && IdsWith(end.plan, Skipped) == {} ==> exit == AllDone
  {
    var (end, exit) := Loop(c, env, Initial(plan));
    StepsBounded(c, env, plan);
    StuckRunLeavesOnlyStarved(c, env, plan);
    InitialHead(c, plan);
    LoopKeeps(c, env, Initial(plan));
    LoopShape(c, env, Initial(plan));
    if IdsWith(end.plan, Failed) == {} && exit == NoReadyTask {
      var i :| 0 <= i < |end.plan| && end.plan[i].status !in {Completed, Skipped};
      HasIdWith(end.plan, i);
    }
  }
}
