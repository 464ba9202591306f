/**
 Tasks and task graphs of agents/types.py. Tasks are objects that the runtime and the
 executor update in place; a View is the value of one task at one moment, and a plan the
 values of all tasks of a graph in order.
 */
module Tasks {
  import opened Common

  type Id = string

  datatype Status = Pending | InProgress | Completed | Failed | Skipped | Blocked

  datatype View = View(id: Id, title: string, deps: seq<Id>, status: Status, attempts: nat, error: string)

  type Plan = seq<View>

  class Task {
    const taskId: Id
    const title: string
    const dependsOn: seq<Id>
    var status: Status
    var attempts: nat
    var error: string
    var result: string

    constructor (taskId: Id, title: string, dependsOn: seq<Id>)
      ensures Look() == View(taskId, title, dependsOn, Pending, 0, "")
    {
      this.taskId, this.title, this.dependsOn := taskId, title, dependsOn;
      status, attempts, error, result := Pending, 0, "", "";
    }

    ghost function Look(): View
      reads this
    {
      View(taskId, title, dependsOn, status, attempts, error)
    }

    predicate IsReady(completed: set<Id>) {
      forall d :: d in dependsOn ==> d in completed
    }

    method MarkBlocked()
      modifies this
      ensures Look() == Block(old(Look()))
    {
      status := Blocked;
      error := if error != "" then error else BLOCKED_NOTE;
    }

    method MarkCompleted(result: string)
      modifies this
      ensures Look() == old(Look()).(status := Completed)
    {
      status, this.result := Completed, result;
    }

    method MarkFailed(error: string)
      modifies this
      ensures Look() == old(Look()).(status := Failed, error := error)
    {
      status, this.error := Failed, error;
    }
  }

  const BLOCKED_NOTE := "Blocked: upstream dependency failed."

  function Block(v: View): View {
    v.(status := Blocked, error := if v.error != "" then v.error else BLOCKED_NOTE)
  }

  ghost function Views(tasks: seq<Task>): (plan: Plan)
    reads tasks
    ensures |plan| == |tasks| && forall i :: 0 <= i < |tasks| ==> plan[i] == tasks[i].Look()
  {
    seq(|tasks|, i requires 0 <= i < |tasks| reads tasks => tasks[i].Look())
  }

  // Blocking the k-th task, seen as a change of the plan.
  method BlockTask(task: Task, ghost tasks: seq<Task>, ghost k: nat)
    requires k < |tasks| && tasks[k] == task && Distinct(tasks)
    modifies task
    ensures Views(tasks) == old(Views(tasks))[k := Block(old(Views(tasks))[k])]
  {
    task.MarkBlocked();
  }

  // Starting an attempt at the k-th task, and giving it a new status afterwards.
  method StartTask(task: Task, ghost tasks: seq<Task>, ghost k: nat)
    requires k < |tasks| && tasks[k] == task && Distinct(tasks)
    modifies task
    ensures Views(tasks) == old(Views(tasks))[k := Started(old(Views(tasks))[k])]
  {
    task.status := InProgress;
    task.attempts := task.attempts + 1;
  }

  method SetStatus(task: Task, ghost tasks: seq<Task>, ghost k: nat, status: Status)
    requires k < |tasks| && tasks[k] == task && Distinct(tasks)
    modifies task
    ensures Views(tasks) == old(Views(tasks))[k := old(Views(tasks))[k].(status := status)]
  {
    task.status := status;
  }

  method FailTask(task: Task, ghost tasks: seq<Task>, ghost k: nat, error: string)
    requires k < |tasks| && tasks[k] == task && Distinct(tasks)
    modifies task
    ensures Views(tasks) == old(Views(tasks))[k := old(Views(tasks))[k].(status := Failed, error := error)]
  {
    task.MarkFailed(error);
  }

  method CompleteTask(task: Task, ghost tasks: seq<Task>, ghost k: nat, result: string)
    requires k < |tasks| && tasks[k] == task && Distinct(tasks)
    modifies task
    ensures Views(tasks) == old(Views(tasks))[k := old(Views(tasks))[k].(status := Completed)]
  {
    task.MarkCompleted(result);
  }

  function Started(v: View): View {
    v.(status := InProgress, attempts := v.attempts + 1)
  }

  // ----- plans

  predicate DistinctIds(plan: Plan) {
    forall i, j :: 0 <= i < j < |plan| ==> plan[i].id != plan[j].id
  }

  function IdsWith(plan: Plan, s: Status): set<Id> {
    if plan == [] then {}
    else
      var before, last := IdsWith(plan[..|plan| - 1], s), plan[|plan| - 1];
      if last.status == s then before + {last.id} else before
  }

  lemma {:induction false} HasIdWith(plan: Plan, i: nat)
    requires i < |plan|
    ensures plan[i].id in IdsWith(plan, plan[i].status)
  {
    if i < |plan| - 1 {
      HasIdWith(plan[..|plan| - 1], i);
    }
  }

  lemma {:induction false} IdWithFrom(plan: Plan, s: Status, d: Id) returns (i: nat)
    requires d in IdsWith(plan, s)
    ensures i < |plan| && plan[i].status == s && plan[i].id == d
  {
    i := |plan| - 1;
    if plan[i].status != s || plan[i].id != d {
      i := IdWithFrom(plan[..i], s, d);
    }
  }

  /** Pending with every dependency completed. */
  predicate Ready(plan: Plan, i: nat)
    requires i < |plan|
  {
    plan[i].status == Pending && forall d :: d in plan[i].deps ==> d in IdsWith(plan, Completed)
  }

  /** The positions of the ready tasks, in plan order. */
  function ReadyUpTo(plan: Plan, n: nat): (r: seq<nat>)
    requires n <= |plan|
    ensures forall i: nat :: i in r <==> i < n && Ready(plan, i)
    ensures forall a, b :: 0 <= a < b < |r| ==> r[a] < r[b]
  {
    if n == 0 then []
    else
      var r := ReadyUpTo(plan, n - 1);
      assert forall a :: 0 <= a < |r| ==> r[a] in r;
      if Ready(plan, n - 1) then r + [n - 1] else r
  }

  function FirstReady(plan: Plan): (r: Option<nat>)
    ensures r.Some? ==> r.value < |plan| && Ready(plan, r.value)
  {
    var ready := ReadyUpTo(plan, |plan|);
    assert ready != [] ==> ready[0] in ready;
    if ready == [] then None else Some(ready[0])
  }

  lemma FirstReadyIsFirst(plan: Plan, i: nat)
    requires i < |plan| && match FirstReady(plan) case None => true case Some(k) => i < k
    ensures !Ready(plan, i)
  {
    var ready := ReadyUpTo(plan, |plan|);
    assert forall k :: 0 <= k < |ready| ==> ready[0] <= ready[k];
    assert i !in ready;
  }

  function Count(plan: Plan, s: Status): nat {
    if plan == [] then 0
    else Count(plan[..|plan| - 1], s) + if plan[|plan| - 1].status == s then 1 else 0
  }

  /** Updating one task moves it from the count of its old status to that of its new one. */
  lemma {:induction false} CountUpdate(plan: Plan, i: nat, v: View, s: Status)
    requires i < |plan|
    ensures Count(plan[i := v], s)
         == Count(plan, s) + (if v.status == s then 1 else 0) - (if plan[i].status == s then 1 else 0)
  {
    var n := |plan| - 1;
    if i == n {
      assert plan[i := v][..n] == plan[..n];
    } else {
      assert plan[i := v][..n] == plan[..n][i := v];
      CountUpdate(plan[..n], i, v, s);
    }
  }

  ghost predicate Picks(picked: seq<Task>, tasks: seq<Task>, at: seq<nat>) {
    |picked| == |at| && forall k :: 0 <= k < |at| ==> at[k] < |tasks| && picked[k] == tasks[at[k]]
  }

  class TaskGraph {
    var tasks: seq<Task>

    ghost predicate Valid()
      reads this, tasks
    {
      Distinct(tasks) && DistinctIds(Views(tasks))
    }

    ghost function Plan(): Plan
      reads this, tasks
    {
      Views(tasks)
    }

    constructor ()
      ensures Valid() && tasks == []
    {
      tasks := [];
    }

    method AddTask(task: Task)
      modifies this
      ensures tasks == old(tasks) + [task]
      ensures Valid() <==> old(Valid()) && task !in old(tasks) && forall t :: t in old(tasks) ==> t.taskId != task.taskId
    {
      ghost var before := Views(tasks);
      tasks := tasks + [task];
      assert Views(tasks) == before + [task.Look()];
      assert tasks[|before|] == task && Views(tasks)[|before|].id == task.taskId;
      assert forall i :: 0 <= i < |before| ==> tasks[i] == old(tasks[i]) && Views(tasks)[i].id == before[i].id == tasks[i].taskId;
    }

    method CompletedIds() returns (completed: set<Id>)
      ensures completed == IdsWith(Plan(), Completed)
    {
      ghost var plan := Plan();
      completed := {};
      for i := 0 to |tasks|
        invariant completed == IdsWith(plan[..i], Completed)
      {
        assert plan[..i + 1][..i] == plan[..i] && plan[i] == tasks[i].Look();
        if tasks[i].status == Completed {
          completed := completed + {tasks[i].taskId};
        }
      }
      assert plan[..|plan|] == plan;
    }

    method ReadyTasks() returns (ready: seq<Task>)
      ensures Picks(ready, tasks, ReadyUpTo(Plan(), |tasks|))
    {
      var completed := CompletedIds();
      ready := [];
      for i := 0 to |tasks|
        invariant Picks(ready, tasks, ReadyUpTo(Plan(), i))
      {
        assert Ready(Plan(), i) <==> tasks[i].status == Pending && tasks[i].IsReady(completed);
        if tasks[i].status == Pending && tasks[i].IsReady(completed) {
          ready := ready + [tasks[i]];
        }
      }
    }

    /** The first ready task in plan order, if any. */
    method NextTask() returns (next: Option<Task>, ghost at: nat)
      ensures FirstReady(Plan()) == if next == None then None else Some(at)
      ensures next.Some? ==> at < |tasks| && next.value == tasks[at]
    {
      var ready := ReadyTasks();
      ghost var r := ReadyUpTo(Plan(), |tasks|);
      next := if ready == [] then None else Some(ready[0]);
      at := if r == [] then 0 else r[0];
    }

    method IsComplete() returns (b: bool)
      ensures b <==> Finished(Plan())
      ensures b <==> forall t :: t in tasks ==> t.status == Completed || t.status == Skipped
    {
      b := true;
      for i := 0 to |tasks|
        invariant b <==> forall j :: 0 <= j < i ==> tasks[j].status in {Completed, Skipped}
      {
        b := b && tasks[i].status in {Completed, Skipped};
      }
    }

    method HasFailures() returns (b: bool)
      ensures b <==> AnyFailed(Plan())
      ensures b <==> exists t :: t in tasks && t.status == Failed
    {
      b := false;
      for i := 0 to |tasks|
        invariant b <==> exists j :: 0 <= j < i && tasks[j].status == Failed
      {
        b := b || tasks[i].status == Failed;
      }
      if b {
        ghost var j :| 0 <= j < |tasks| && tasks[j].status == Failed;
        assert Plan()[j].status == Failed;
      }
    }
  }

  predicate AnyFailed(plan: Plan) {
    exists i :: 0 <= i < |plan| && plan[i].status == Failed
  }

  predicate Finished(plan: Plan) {
    forall i :: 0 <= i < |plan| ==> plan[i].status in {Completed, Skipped}
  }
}
