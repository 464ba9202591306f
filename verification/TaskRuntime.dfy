/**
 Failure propagation and batch scheduling of agents/task_runtime.py.
 */
module TaskRuntimes {
  import opened Common
  import opened Tasks

  // ----- what failure propagation should do

  predicate Down(v: View) { v.status == Failed || v.status == Blocked }

  /** Each task of the path depends on the next; all but the last are pending and the last is down. */
  ghost predicate DoomedPath(plan: Plan, path: seq<nat>) {
    && |path| >= 2 && (forall k :: 0 <= k < |path| ==> path[k] < |plan|)
    && (forall k :: 0 <= k < |path| - 1 ==>
          plan[path[k]].status == Pending && plan[path[k + 1]].id in plan[path[k]].deps)
    && Down(plan[path[|path| - 1]])
  }

  /** A pending task that reaches a failed or blocked one through pending ones. */
  ghost predicate Doomed(plan: Plan, i: nat) {
    exists path :: DoomedPath(plan, path) && path[0] == i
  }

  /** after is the plan before with exactly its doomed tasks blocked. */
  ghost predicate Propagated(before: Plan, after: Plan) {
    && |after| == |before|
    && forall i: nat :: i < |before| ==> after[i] == if Doomed(before, i) then Block(before[i]) else before[i]
  }

  ghost predicate Partway(before: Plan, now: Plan) {
    && |now| == |before|
    && forall i: nat :: i < |before| ==> now[i] == before[i] || (Doomed(before, i) && now[i] == Block(before[i]))
  }

  lemma DoomSpreads(before: Plan, now: Plan, i: nat, j: nat)
    requires Partway(before, now) && i < |now| && j < |now|
    requires now[i].status == Pending && Down(now[j]) && now[j].id in now[i].deps
    ensures Doomed(before, i)
  {
    assert before[i].status == Pending;
    if Down(before[j]) {
      assert DoomedPath(before, [i, j]);
    } else {
      var path :| DoomedPath(before, path) && path[0] == j;
      var longer := [i] + path;
      forall k | 0 <= k < |longer| - 1
        ensures before[longer[k]].status == Pending && before[longer[k + 1]].id in before[longer[k]].deps
      {
        if k > 0 {
          assert longer[k] == path[k - 1] && longer[k + 1] == path[k];
        }
      }
      assert DoomedPath(before, longer);
    }
  }

  /** No pending task depends on a failed or blocked one. */
  ghost predicate Stable(plan: Plan) {
    forall i, j :: 0 <= i < |plan| && 0 <= j < |plan| && plan[i].status == Pending && Down(plan[j])
      ==> plan[j].id !in plan[i].deps
  }

  lemma {:induction false} StableBlocksPath(before: Plan, now: Plan, path: seq<nat>)
    requires Partway(before, now) && Stable(now) && DoomedPath(before, path)
    ensures now[path[0]].status != Pending
    decreases |path|
  {
    var i, j := path[0], path[1];
    if |path| > 2 {
      var rest := path[1..];
      forall k | 0 <= k < |rest| - 1
        ensures before[rest[k]].status == Pending && before[rest[k + 1]].id in before[rest[k]].deps
      {
        assert rest[k] == path[k + 1] && rest[k + 1] == path[k + 2];
      }
      StableBlocksPath(before, now, rest);
    }
    assert Down(now[j]) && now[j].id == before[j].id && now[i].deps == before[i].deps;
  }

  lemma StableIsPropagated(before: Plan, now: Plan)
    requires Partway(before, now) && Stable(now)
    ensures Propagated(before, now)
  {
    forall i: nat | i < |before| ensures now[i] == if Doomed(before, i) then Block(before[i]) else before[i] {
      if Doomed(before, i) {
        var path :| DoomedPath(before, path) && path[0] == i;
        StableBlocksPath(before, now, path);
      }
    }
  }

  /** A pending task that depends on a failed or blocked one ends blocked, with a note unless it has an error already. */
  lemma DirectDependentIsBlocked(before: Plan, after: Plan, i: nat, j: nat)
    requires Propagated(before, after) && i < |before| && j < |before|
    requires before[i].status == Pending && before[j].id in before[i].deps
    requires before[j].status == Failed || before[j].status == Blocked
    ensures after[i].status == Blocked && after[i].error != "" && (before[i].error != "" ==> after[i].error == before[i].error)
    ensures after[i].(status := Pending, error := before[i].error) == before[i]
  {
    assert DoomedPath(before, [i, j]);
  }

  /** Nothing but pending tasks is ever blocked. */
  lemma OnlyPendingIsBlocked(before: Plan, after: Plan, i: nat)
    requires Propagated(before, after) && i < |before| && before[i].status != Pending
    ensures after[i] == before[i]
  {
  }

  /** A second pass finds nothing: after propagation no task is doomed. */
  lemma PropagationIsFinal(before: Plan, after: Plan, i: nat)
    requires Propagated(before, after)
    ensures !Doomed(after, i)
  {
    if path :| DoomedPath(after, path) && path[0] == i {
      FirstDown(after, path);
      var k :| 0 <= k < |path| - 1 && after[path[k]].status == Pending && Down(after[path[k + 1]]);
      assert after[path[k + 1]].id in after[path[k]].deps;
      DoomSpreads(before, after, path[k], path[k + 1]);
      assert false;
    }
  }

  lemma FirstDown(plan: Plan, path: seq<nat>)
    requires DoomedPath(plan, path)
    ensures var k := |path| - 2; plan[path[k]].status == Pending && Down(plan[path[k + 1]])
  {
  }

  lemma PropagationOnce(a: Plan, b: Plan, c: Plan)
    requires Propagated(a, b) && Propagated(b, c)
    ensures c == b
  {
    forall i: nat | i < |b| ensures c[i] == b[i] {
      PropagationIsFinal(a, b, i);
    }
  }

  /** Listing the tasks in another order dooms the same tasks. */
  lemma DoomIgnoresOrder(plan: Plan, other: Plan, place: seq<nat>, i: nat)
    requires |place| == |plan| && Doomed(plan, i)
    requires forall k :: 0 <= k < |plan| ==> place[k] < |other| && other[place[k]] == plan[k]
    ensures i < |plan| && Doomed(other, place[i])
  {
    var path :| DoomedPath(plan, path) && path[0] == i;
    var moved := seq(|path|, k requires 0 <= k < |path| => place[path[k]]);
    assert forall k :: 0 <= k < |path| ==> moved[k] < |other| && other[moved[k]] == plan[path[k]];
    assert DoomedPath(other, moved);
  }

  // ----- the scan as a function of the plan

  function DownIds(plan: Plan): set<Id> {
    if plan == [] then {}
    else
      var before, last := DownIds(plan[..|plan| - 1]), plan[|plan| - 1];
      if Down(last) then before + {last.id} else before
  }

  lemma {:induction false} DownIdHas(plan: Plan, j: nat)
    requires j < |plan| && Down(plan[j])
    ensures plan[j].id in DownIds(plan)
  {
    if j < |plan| - 1 {
      DownIdHas(plan[..|plan| - 1], j);
    }
  }

  lemma {:induction false} DownIdFrom(plan: Plan, d: Id) returns (j: nat)
    requires d in DownIds(plan)
    ensures j < |plan| && Down(plan[j]) && plan[j].id == d
  {
    j := |plan| - 1;
    if !Down(plan[j]) || plan[j].id != d {
      j := DownIdFrom(plan[..j], d);
    }
  }

  lemma {:induction false} DownIdsUpdate(plan: Plan, k: nat, v: View)
    requires k < |plan| && !Down(plan[k]) && Down(v)
    ensures DownIds(plan[k := v]) == DownIds(plan) + {v.id}
  {
    var n := |plan| - 1;
    if k == n {
      assert plan[k := v][..n] == plan[..n];
    } else {
      assert plan[k := v][..n] == plan[..n][k := v];
      DownIdsUpdate(plan[..n], k, v);
    }
  }

  predicate Hit(deps: seq<Id>, down: set<Id>) {
    exists d :: d in deps && d in down
  }

  predicate Blockable(plan: Plan, i: nat)
    requires i < |plan|
  {
    plan[i].status == Pending && Hit(plan[i].deps, DownIds(plan))
  }

  function BlockAt(plan: Plan, i: nat): (r: Plan)
    requires i < |plan|
    ensures |r| == |plan|
  {
    if Blockable(plan, i) then plan[i := Block(plan[i])] else plan
  }

  /** The plan after one pass has looked at its first k tasks. */
  function Scanned(plan: Plan, k: nat): (r: Plan)
    requires k <= |plan|
    ensures |r| == |plan|
  {
    if k == 0 then plan else BlockAt(Scanned(plan, k - 1), k - 1)
  }

  lemma BlockCounts(now: Plan, k: nat)
    requires k < |now|
    ensures Count(BlockAt(now, k), Pending) == Count(now, Pending) - if Blockable(now, k) then 1 else 0
  {
    if Blockable(now, k) {
      CountUpdate(now, k, Block(now[k]), Pending);
    }
  }

  lemma BlockDowns(now: Plan, k: nat)
    requires k < |now|
    ensures DownIds(BlockAt(now, k)) == if Blockable(now, k) then DownIds(now) + {now[k].id} else DownIds(now)
  {
    if Blockable(now, k) {
      DownIdsUpdate(now, k, Block(now[k]));
    }
  }

  lemma {:induction false} ScanCounts(plan: Plan, k: nat)
    requires k <= |plan|
    ensures Count(Scanned(plan, k), Pending) <= Count(plan, Pending)
  {
    if k > 0 {
      ScanCounts(plan, k - 1);
      BlockCounts(Scanned(plan, k - 1), k - 1);
    }
  }

  lemma {:induction false} IdleScan(plan: Plan, k: nat)
    requires k <= |plan| && Count(Scanned(plan, k), Pending) == Count(plan, Pending)
    ensures Scanned(plan, k) == plan && forall i :: 0 <= i < k ==> !Blockable(plan, i)
  {
    if k > 0 {
      ScanCounts(plan, k - 1);
      BlockCounts(Scanned(plan, k - 1), k - 1);
      IdleScan(plan, k - 1);
    }
  }

  lemma {:induction false} ScanPartway(before: Plan, plan: Plan, k: nat)
    requires Partway(before, plan) && k <= |plan|
    ensures Partway(before, Scanned(plan, k))
  {
    if k > 0 {
      ScanPartway(before, plan, k - 1);
      BlockPartway(before, Scanned(plan, k - 1), k - 1);
    }
  }

  lemma BlockPartway(before: Plan, now: Plan, k: nat)
    requires Partway(before, now) && k < |now|
    ensures Partway(before, BlockAt(now, k))
  {
    if Blockable(now, k) {
      var d :| d in now[k].deps && d in DownIds(now);
      var j := DownIdFrom(now, d);
      DoomSpreads(before, now, k, j);
    }
  }

  /** Where a pass stands after its first k tasks: the plan, the ids known to be down, the tasks it has blocked. */
  ghost predicate AfterTasks(start: Plan, k: nat, now: Plan, down: set<Id>, blocked: int)
    requires k <= |start|
  {
    now == Scanned(start, k) && down == DownIds(now) && blocked == Count(start, Pending) - Count(now, Pending)
  }

  lemma AfterOneMore(start: Plan, k: nat, now: Plan, down: set<Id>, blocked: int, hit: bool, after: Plan, downAfter: set<Id>)
    requires k < |start| && AfterTasks(start, k, now, down, blocked)
    requires |now| == |start| && after == BlockAt(now, k) && hit == Blockable(now, k)
    requires downAfter == if hit then down + {now[k].id} else down
    ensures AfterTasks(start, k + 1, after, downAfter, if hit then blocked + 1 else blocked)
  {
    BlockCounts(now, k);
    BlockDowns(now, k);
  }

  /** Scanning again and again until a pass blocks nothing. */
  function Settled(plan: Plan): Plan
    decreases Count(plan, Pending)
  {
    ScanCounts(plan, |plan|);
    if Count(Scanned(plan, |plan|), Pending) == Count(plan, Pending) then plan else Settled(Scanned(plan, |plan|))
  }

  lemma SettledAfter(start: Plan, now: Plan, down: set<Id>, blocked: nat)
    requires AfterTasks(start, |start|, now, down, blocked)
    ensures Settled(start) == if blocked == 0 then now else Settled(now)
  {
    if blocked == 0 {
      IdleScan(start, |start|);
    }
  }

  lemma {:induction false} SettledPropagates(before: Plan, plan: Plan)
    requires Partway(before, plan)
    ensures Propagated(before, Settled(plan))
    decreases Count(plan, Pending)
  {
    ScanCounts(plan, |plan|);
    if Count(Scanned(plan, |plan|), Pending) == Count(plan, Pending) {
      IdleScan(plan, |plan|);
      forall i, j | 0 <= i < |plan| && 0 <= j < |plan| && plan[i].status == Pending && Down(plan[j])
        ensures plan[j].id !in plan[i].deps
      {
        DownIdHas(plan, j);
        assert !Blockable(plan, i);
      }
      StableIsPropagated(before, plan);
    } else {
      ScanPartway(before, plan, |plan|);
      SettledPropagates(before, Scanned(plan, |plan|));
    }
  }

  /** The first ready tasks of the plan, at most n; if ids are distinct, none depends on another. */
  ghost predicate FirstReadyTasks(batch: seq<Task>, tasks: seq<Task>, plan: Plan, n: nat)
    requires |plan| == |tasks|
  {
    var ready := ReadyUpTo(plan, |tasks|);
    && Picks(batch, tasks, if |ready| <= n then ready else ready[..n])
    && (DistinctIds(plan) ==> Independent(batch))
  }

  ghost predicate Independent(batch: seq<Task>) {
    forall a, b :: a in batch && b in batch ==> b.taskId !in a.dependsOn
  }

  lemma CutIndependent(batch: seq<Task>, n: nat)
    requires Independent(batch) && n <= |batch|
    ensures Independent(batch[..n])
  {
  }

  lemma ReadyIndependent(tasks: seq<Task>, plan: Plan, ready: seq<Task>)
    requires |plan| == |tasks| && DistinctIds(plan)
    requires forall i :: 0 <= i < |tasks| ==> plan[i].id == tasks[i].taskId && plan[i].deps == tasks[i].dependsOn
    requires Picks(ready, tasks, ReadyUpTo(plan, |tasks|))
    ensures Independent(ready)
  {
    var r := ReadyUpTo(plan, |tasks|);
    forall a, b | a in ready && b in ready ensures b.taskId !in a.dependsOn {
      var k, l :| 0 <= k < |ready| && ready[k] == a && 0 <= l < |ready| && ready[l] == b;
      assert r[k] in r && r[l] in r;
      assert Ready(plan, r[k]) && Ready(plan, r[l]);
      if b.taskId in IdsWith(plan, Completed) {
        var i := IdWithFrom(plan, Completed, b.taskId);
      }
    }
  }

  /** A batch is as long as there are ready tasks, up to n, and its k-th task is the k-th ready one. */
  lemma BatchIsFirstReady(batch: seq<Task>, tasks: seq<Task>, plan: Plan, n: nat)
    requires |plan| == |tasks| && FirstReadyTasks(batch, tasks, plan, n)
    ensures var ready := ReadyUpTo(plan, |plan|);
      && |batch| == (if |ready| <= n then |ready| else n)
      && forall k :: 0 <= k < |batch| ==> ready[k] < |tasks| && batch[k] == tasks[ready[k]]
  {
  }

  lemma CutPicks(picked: seq<Task>, tasks: seq<Task>, at: seq<nat>, n: nat)
    requires Picks(picked, tasks, at) && n <= |at|
    ensures Picks(picked[..n], tasks, at[..n])
  {
  }

  lemma CutReady(tasks: seq<Task>, plan: Plan, ready: seq<Task>, n: nat)
    requires |plan| == |tasks| && Picks(ready, tasks, ReadyUpTo(plan, |tasks|)) && n < |ready|
    requires DistinctIds(plan) ==> Independent(ready)
    ensures FirstReadyTasks(ready[..n], tasks, plan, n)
  {
    CutPicks(ready, tasks, ReadyUpTo(plan, |tasks|), n);
    if DistinctIds(plan) {
      CutIndependent(ready, n);
    }
  }

  class TaskRuntime {
    const graph: TaskGraph
    const maxParallel: nat
    var batchesExecuted: nat
    var maxBatchSize: nat
    var blockedTasks: nat

    constructor (graph: TaskGraph, maxParallel: nat := 4)
      ensures this.graph == graph && this.maxParallel == maxParallel
      ensures batchesExecuted == maxBatchSize == blockedTasks == 0
    {
      this.graph, this.maxParallel := graph, maxParallel;
      batchesExecuted, maxBatchSize, blockedTasks := 0, 0, 0;
    }

    /** The tasks of the next batch may run side by side: all are ready, none depends on another. */
    method NextBatch() returns (batch: seq<Task>)
      requires Distinct(graph.tasks)
      modifies graph.tasks, this`batchesExecuted, this`maxBatchSize, this`blockedTasks
      ensures graph.tasks == old(graph.tasks)
      ensures Propagated(old(graph.Plan()), graph.Plan())
      ensures FirstReadyTasks(batch, graph.tasks, graph.Plan(), maxParallel)
      ensures batchesExecuted == old(batchesExecuted) + if |batch| == 0 then 0 else 1
      ensures maxBatchSize == if |batch| > old(maxBatchSize) then |batch| else old(maxBatchSize)
      ensures blockedTasks == old(blockedTasks) + Count(old(graph.Plan()), Pending) - Count(graph.Plan(), Pending)
    {
      var newlyBlocked := PropagateFailures();
      batch := Schedule();
    }

    method Schedule() returns (batch: seq<Task>)
      modifies this`batchesExecuted, this`maxBatchSize
      ensures graph.Plan() == old(graph.Plan())
      ensures FirstReadyTasks(batch, graph.tasks, graph.Plan(), maxParallel)
      ensures batchesExecuted == old(batchesExecuted) + if |batch| == 0 then 0 else 1
      ensures maxBatchSize == if |batch| > old(maxBatchSize) then |batch| else old(maxBatchSize)
    {
      batch := FirstReady();
      RecordBatch(|batch|);
    }

    method RecordBatch(size: nat)
      modifies this`batchesExecuted, this`maxBatchSize
      ensures batchesExecuted == old(batchesExecuted) + if size == 0 then 0 else 1
      ensures maxBatchSize == if size > old(maxBatchSize) then size else old(maxBatchSize)
      ensures graph.Plan() == old(graph.Plan())
    {
      if size > 0 {
        batchesExecuted := batchesExecuted + 1;
        maxBatchSize := if size > maxBatchSize then size else maxBatchSize;
      }
    }

    method FirstReady() returns (batch: seq<Task>)
      ensures FirstReadyTasks(batch, graph.tasks, graph.Plan(), maxParallel)
    {
      var ready := graph.ReadyTasks();
      if DistinctIds(graph.Plan()) {
        ReadyIndependent(graph.tasks, graph.Plan(), ready);
      }
      if |ready| > maxParallel {
        CutReady(graph.tasks, graph.Plan(), ready, maxParallel);
      }
      batch := if |ready| <= maxParallel then ready else ready[..maxParallel];
    }

    /** Blocks exactly the doomed tasks and returns how many there were. */
    method PropagateFailures() returns (newlyBlocked: nat)
      requires Distinct(graph.tasks)
      modifies graph.tasks, this`blockedTasks
      ensures blockedTasks == old(blockedTasks) + newlyBlocked
      ensures graph.tasks == old(graph.tasks)
      ensures Propagated(old(graph.Plan()), graph.Plan())
      ensures newlyBlocked == Count(old(graph.Plan()), Pending) - Count(graph.Plan(), Pending)
    {
      ghost var before := graph.Plan();
      newlyBlocked := ScanUntilStable();
      SettledPropagates(before, before);
      blockedTasks := blockedTasks + newlyBlocked;
    }

    method ScanUntilStable() returns (newlyBlocked: nat)
      requires Distinct(graph.tasks)
      modifies graph.tasks
      ensures graph.tasks == old(graph.tasks) && graph.Plan() == Settled(old(graph.Plan()))
      ensures newlyBlocked == Count(old(graph.Plan()), Pending) - Count(graph.Plan(), Pending)
    {
      ghost var before := graph.Plan();
      var down := InitiallyDown();
      newlyBlocked := 0;
      var changed := true;
      while changed
        invariant graph.tasks == old(graph.tasks) && down == DownIds(graph.Plan())
        invariant newlyBlocked == Count(before, Pending) - Count(graph.Plan(), Pending)
        invariant if changed then Settled(graph.Plan()) == Settled(before) else graph.Plan() == Settled(before)
        decreases Count(graph.Plan(), Pending), changed
      {
        var blocked;
        ghost var now := graph.Plan();
        down, blocked := Scan(down);
        SettledAfter(now, graph.Plan(), down, blocked);
        newlyBlocked := newlyBlocked + blocked;
        changed := blocked > 0;
      }
    }

    method InitiallyDown() returns (down: set<Id>)
      ensures down == DownIds(graph.Plan())
    {
      var tasks := graph.tasks;
      ghost var plan := graph.Plan();
      down := {};
      for i := 0 to |tasks|
        invariant down == DownIds(plan[..i])
      {
        assert plan[..i + 1][..i] == plan[..i] && plan[i] == tasks[i].Look();
        if tasks[i].status == Failed || tasks[i].status == Blocked {
          down := down + {tasks[i].taskId};
        }
      }
      assert plan[..|plan|] == plan;
    }

    // One pass over the tasks; down grows while it runs, so later tasks see earlier blocks.
    method Scan(downBefore: set<Id>) returns (down: set<Id>, blocked: nat)
      requires Distinct(graph.tasks) && downBefore == DownIds(graph.Plan())
      modifies graph.tasks
      ensures graph.tasks == old(graph.tasks)
      ensures AfterTasks(old(graph.Plan()), |graph.tasks|, graph.Plan(), down, blocked)
    {
      var tasks := graph.tasks;
      down, blocked := downBefore, 0;
      ghost var start := graph.Plan();
      for k := 0 to |tasks|
        invariant graph.tasks == tasks
        invariant AfterTasks(start, k, Views(tasks), down, blocked)
      {
        down, blocked := Visit(tasks[k], tasks, k, start, down, blocked);
      }
    }

    // The body of that loop, seen from its start.
    method Visit(task: Task, ghost tasks: seq<Task>, ghost k: nat, ghost start: Plan, downBefore: set<Id>, blockedBefore: nat)
      returns (down: set<Id>, blocked: nat)
      requires k < |tasks| == |start| && tasks[k] == task && Distinct(tasks)
      requires AfterTasks(start, k, Views(tasks), downBefore, blockedBefore)
      modifies task
      ensures AfterTasks(start, k + 1, Views(tasks), down, blocked)
    {
      ghost var now := Views(tasks);
      var hit;
      down, hit := BlockIfHit(task, tasks, k, downBefore);
      AfterOneMore(start, k, now, downBefore, blockedBefore, hit, Views(tasks), down);
      blocked := if hit then blockedBefore + 1 else blockedBefore;
    }

    method BlockIfHit(task: Task, ghost tasks: seq<Task>, ghost k: nat, downBefore: set<Id>) returns (down: set<Id>, hit: bool)
      requires k < |tasks| && tasks[k] == task && Distinct(tasks) && downBefore == DownIds(Views(tasks))
      modifies task
      ensures Views(tasks) == BlockAt(old(Views(tasks)), k) && hit == Blockable(old(Views(tasks)), k)
      ensures down == if hit then downBefore + {old(Views(tasks))[k].id} else downBefore
    {
      assert Views(tasks)[k] == task.Look();
      down, hit := downBefore, task.status == Pending && Hit(task.dependsOn, downBefore);
      if hit {
        BlockTask(task, tasks, k);
        down := down + {task.taskId};
      }
    }
  }
}
