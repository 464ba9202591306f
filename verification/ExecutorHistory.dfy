/**
 What a run's history means: which answers of the tools lead to which decisions, and what the decisions
 do to the tasks. Everything is told by the answers themselves, step by step.
 */
module ExecutorHistory {
  import opened Common
  import opened Tasks
  import opened AgentStates
  import opened Executors
  import opened ExecutorProperties
  import T = Topology
  import L = Layers

  /** A success that verification overrules. */
  predicate Refuted(r: Response) { r.success && r.verified == Some(false) }

  /** A success that verification lets stand, of at least the quality asked for. */
  predicate Good(c: Config, r: Response) { r.success && r.verified != Some(false) && r.quality >= c.threshold }

  /** How many entries are about a task. */
  function Entries(h: seq<HistoryEntry>, id: Id): nat {
    if h == [] then 0 else Entries(h[..|h| - 1], id) + if h[|h| - 1].task == id then 1 else 0
  }

  /** Entry j is about this attempt at its task, counted from one. */
  function AttemptNo(h: seq<HistoryEntry>, j: nat): nat
    requires j < |h|
  {
    Entries(h[..j + 1], h[j].task)
  }

  lemma EntriesSnoc(h: seq<HistoryEntry>, e: HistoryEntry, id: Id)
    ensures Entries(h + [e], id) == Entries(h, id) + if e.task == id then 1 else 0
  {
    assert (h + [e])[..|h|] == h;
  }

  // ----- the decision on each answer

  /** What becomes of the n-th attempt at a task: accepted if good or, while attempts are left, if no retry is called for
      and the quality is above 0.1; given up if not good and no attempt is left; otherwise tried again. */
  predicate Decided(c: Config, r: Response, n: nat, a: Action) {
    && (a == Accept <==> Good(c, r) || (n < c.maxRetries && !Refuted(r) && !r.retrySuggested && r.quality > 0.1))
    && (a == Skip <==> !Good(c, r) && n >= c.maxRetries)
  }

  /** What is seen of an answer: a refuted success is a failure of quality 0.2 at most that should be tried again. */
  predicate Seen(r: Response, o: Observation) {
    && r.tool == Some(o.tool) && o.success == (r.success && !Refuted(r))
    && o.retrySuggested == (r.retrySuggested || Refuted(r))
    && o.quality == if Refuted(r) && r.quality > 0.2 then 0.2 else r.quality
  }

  lemma DecisionIsRuled(c: Config, r: Response, n: nat)
    requires r.tool.Some?
    ensures var o := Observe(r.tool.value, r);
      Seen(r, o) && Decided(c, r, n, Decide(o, n, c.maxRetries, c.threshold))
  {
  }

  /** Entry j records the answer of its step, what was seen of it and what was decided. */
  ghost predicate EntryFollows(c: Config, env: Environment, h: seq<HistoryEntry>, o: seq<Observation>, j: nat)
    requires j < |h| == |o|
  {
    h[j].step > 0 && var r := env(h[j].step - 1);
    && Seen(r, o[j]) && h[j].tool == o[j].tool && h[j].quality == o[j].quality
    && Decided(c, r, AttemptNo(h, j), h[j].action)
    && h[j].note <= r.note && (|h[j].note| == 120 || h[j].note == r.note)
  }

  ghost predicate AllFollow(c: Config, env: Environment, h: seq<HistoryEntry>, o: seq<Observation>) {
    |h| == |o| && forall j {:trigger h[j]} :: 0 <= j < |h| ==> EntryFollows(c, env, h, o, j)
  }

  lemma EarlierEntryFollows(c: Config, env: Environment, h: seq<HistoryEntry>, o: seq<Observation>, e: HistoryEntry,
                            seen: Observation, j: nat)
    requires j < |h| == |o| && EntryFollows(c, env, h, o, j)
    ensures EntryFollows(c, env, h + [e], o + [seen], j)
  {
    assert (h + [e])[..j + 1] == h[..j + 1];
  }

  lemma LastEntryFollows(c: Config, env: Environment, h: seq<HistoryEntry>, o: seq<Observation>, step: nat, v: View)
    requires |h| == |o| && env(step).tool.Some? && v.attempts == Entries(h, v.id) + 1
    ensures var r := env(step);
      var seen := Observe(r.tool.value, r);
      var e := Entry(step + 1, v, seen, Decide(seen, v.attempts, c.maxRetries, c.threshold), r.note);
      EntryFollows(c, env, h + [e], o + [seen], |h|)
  {
    var r := env(step);
    var seen := Observe(r.tool.value, r);
    var e := Entry(step + 1, v, seen, Decide(seen, v.attempts, c.maxRetries, c.threshold), r.note);
    DecisionIsRuled(c, r, v.attempts);
    EntriesSnoc(h, e, v.id);
    assert (h + [e])[..|h| + 1] == h + [e];
  }

  lemma AllFollowNext(c: Config, env: Environment, h: seq<HistoryEntry>, o: seq<Observation>, e: HistoryEntry, seen: Observation)
    requires AllFollow(c, env, h, o) && EntryFollows(c, env, h + [e], o + [seen], |h|)
    ensures AllFollow(c, env, h + [e], o + [seen])
  {
    forall j | 0 <= j < |h| ensures EntryFollows(c, env, h + [e], o + [seen], j) {
      EarlierEntryFollows(c, env, h, o, e, seen, j);
    }
  }

  /** What an attempt leaves in the history, in the observations and in the task. */
  lemma AttemptRecords(c: Config, r: Response, s: Run, i: nat)
    requires i < |s.plan|
    ensures var t := Attempt(c, r, s, i);
      var v := Started(s.plan[i]);
      match r.tool
      case None =>
        t.tally.history == s.tally.history && t.book.observations == s.book.observations && t.plan[i] == v.(status := Skipped)
      case Some(tool) =>
        var o := Observe(tool, r);
        var a := Decide(o, v.attempts, c.maxRetries, c.threshold);
        && t.tally.history == s.tally.history + [Entry(s.step + 1, v, o, a, r.note)]
        && t.book.observations == s.book.observations + [o] && t.plan[i] == Outcome(v, a, r.note)
  {
  }

  /** A task's attempts are its entries, and one more if no tool was found for it. */
  predicate AttemptsRecorded(plan: Plan, h: seq<HistoryEntry>) {
    forall i :: 0 <= i < |plan| ==> Recorded(plan[i], h)
  }

  predicate Recorded(v: View, h: seq<HistoryEntry>) {
    v.attempts == Entries(h, v.id) + if v.status == Skipped then 1 else 0
  }

  lemma RecordedNext(plan: Plan, h: seq<HistoryEntry>, i: nat, v: View, e: HistoryEntry)
    requires DistinctIds(plan) && AttemptsRecorded(plan, h) && i < |plan| && plan[i].status == Pending
    requires v.id == plan[i].id == e.task && v.attempts == plan[i].attempts + 1 && v.status != Skipped
    ensures AttemptsRecorded(plan[i := v], h + [e])
  {
    var after := plan[i := v];
    forall k | 0 <= k < |after| ensures Recorded(after[k], h + [e]) {
      assert Recorded(plan[k], h);
      EntriesSnoc(h, e, plan[k].id);
    }
  }

  lemma RecordedSkip(plan: Plan, h: seq<HistoryEntry>, i: nat, v: View)
    requires AttemptsRecorded(plan, h) && i < |plan| && plan[i].status == Pending
    requires v.id == plan[i].id && v.attempts == plan[i].attempts + 1 && v.status == Skipped
    ensures AttemptsRecorded(plan[i := v], h)
  {
    var after := plan[i := v];
    forall k | 0 <= k < |after| ensures Recorded(after[k], h) {
      assert Recorded(plan[k], h);
    }
  }

  // ----- what the last decision makes of a task

  /** Entry j is the last about a task. */
  ghost predicate LastAbout(h: seq<HistoryEntry>, id: Id, j: nat) {
    j < |h| && h[j].task == id && forall k :: j < k < |h| ==> h[k].task != id
  }

  /** The last entry about the task took the decision a; a failed task has the note of that step in its error. */
  ghost predicate Concluded(env: Environment, h: seq<HistoryEntry>, v: View, a: Action) {
    exists j: nat :: LastAbout(h, v.id, j) && h[j].action == a && h[j].step > 0
      && (a == Skip ==> v.error == FailNote(v.attempts, env(h[j].step - 1).note))
  }

  /** A completed task was accepted last and a failed one given up. */
  ghost predicate Explained(env: Environment, h: seq<HistoryEntry>, v: View) {
    (v.status == Completed ==> Concluded(env, h, v, Accept)) && (v.status == Failed ==> Concluded(env, h, v, Skip))
  }

  ghost predicate AllExplained(env: Environment, plan: Plan, h: seq<HistoryEntry>) {
    forall i :: 0 <= i < |plan| ==> Explained(env, h, plan[i])
  }

  lemma ConcludedStays(env: Environment, h: seq<HistoryEntry>, v: View, a: Action, e: HistoryEntry)
    requires Concluded(env, h, v, a) && e.task != v.id
    ensures Concluded(env, h + [e], v, a)
  {
    var j: nat :| LastAbout(h, v.id, j) && h[j].action == a && h[j].step > 0
      && (a == Skip ==> v.error == FailNote(v.attempts, env(h[j].step - 1).note));
    assert LastAbout(h + [e], v.id, j) && (h + [e])[j] == h[j];
  }

  lemma ConcludedNow(env: Environment, h: seq<HistoryEntry>, v: View, e: HistoryEntry, step: nat)
    requires e.task == v.id && e.step == step + 1
    requires e.action == Skip ==> v.error == FailNote(v.attempts, env(step).note)
    ensures Concluded(env, h + [e], v, e.action)
  {
    assert LastAbout(h + [e], v.id, |h|);
  }

  lemma ExplainedNext(env: Environment, plan: Plan, h: seq<HistoryEntry>, i: nat, v: View, e: HistoryEntry)
    requires DistinctIds(plan) && AllExplained(env, plan, h) && i < |plan| && v.id == plan[i].id == e.task
    requires Explained(env, h + [e], v)
    ensures AllExplained(env, plan[i := v], h + [e])
  {
    var after := plan[i := v];
    forall k | 0 <= k < |after| ensures Explained(env, h + [e], after[k]) {
      if k != i {
        var w := plan[k];
        assert Explained(env, h, w) && w.id != e.task;
        if w.status == Completed {
          ConcludedStays(env, h, w, Accept, e);
        } else if w.status == Failed {
          ConcludedStays(env, h, w, Skip, e);
        }
      }
    }
  }

  // ----- steps, titles and failure records

  function StepsOf(h: seq<HistoryEntry>): seq<nat> {
    if h == [] then [] else StepsOf(h[..|h| - 1]) + [h[|h| - 1].step]
  }

  /** The steps up to the n-th for which a tool was found. */
  function ToolSteps(env: Environment, n: nat): seq<nat> {
    if n == 0 then [] else ToolSteps(env, n - 1) + (if env(n - 1).tool.Some? then [n] else [])
  }

  /** One record for every entry that gave up, with the title, the tool and the error text. */
  function GivenUpRecords(env: Environment, h: seq<HistoryEntry>): seq<FailureRecord> {
    if h == [] then []
    else
      var e := h[|h| - 1];
      GivenUpRecords(env, h[..|h| - 1]) +
      (if e.action == Skip && e.step > 0
       then [FailureRecord(e.title, e.tool,
                           "Failed after " + Decimal(Entries(h, e.task)) + " attempt(s): " + env(e.step - 1).note)]
       else [])
  }

  ghost predicate TitlesAgree(plan: Plan, h: seq<HistoryEntry>) {
    forall i, j :: 0 <= i < |plan| && 0 <= j < |h| && plan[i].id == h[j].task ==> h[j].title == plan[i].title
  }

  lemma RecordsSnoc(env: Environment, h: seq<HistoryEntry>, e: HistoryEntry)
    ensures StepsOf(h + [e]) == StepsOf(h) + [e.step]
    ensures GivenUpRecords(env, h + [e]) == GivenUpRecords(env, h) +
      (if e.action == Skip && e.step > 0
       then [FailureRecord(e.title, e.tool,
                           "Failed after " + Decimal(Entries(h + [e], e.task)) + " attempt(s): " + env(e.step - 1).note)]
       else [])
  {
    assert (h + [e])[..|h|] == h;
  }

  /** The history lists exactly the steps with a tool, under the titles of their tasks; the failure records follow from it. */
  ghost predicate BooksKept(env: Environment, s: Run) {
    && StepsOf(s.tally.history) == ToolSteps(env, s.step) && TitlesAgree(s.plan, s.tally.history)
    && s.book.failures == GivenUpRecords(env, s.tally.history)
  }

  lemma TitlesNext(plan: Plan, h: seq<HistoryEntry>, i: nat, v: View, e: HistoryEntry)
    requires DistinctIds(plan) && TitlesAgree(plan, h) && i < |plan|
    requires v.id == plan[i].id == e.task && v.title == plan[i].title == e.title
    ensures TitlesAgree(plan[i := v], h + [e])
  {
  }

  lemma FailuresOf(b: Book, v: View, o: Observation, a: Action, note: string)
    ensures Noted(b, v, o, a, note).failures
         == b.failures + (if a == Skip then [FailureRecord(v.title, o.tool, FailNote(v.attempts, note))] else [])
  {
  }

  lemma KeptAfterSkip(c: Config, env: Environment, s: Run, i: nat)
    requires BooksKept(env, s) && i < |s.plan| && env(s.step).tool == None
    ensures BooksKept(env, Attempt(c, env(s.step), s, i))
  {
    AttemptShape(c, env(s.step), s, i);
    AttemptRecords(c, env(s.step), s, i);
  }

  lemma KeptAfterAttempt(c: Config, env: Environment, s: Run, i: nat)
    requires BooksKept(env, s) && DistinctIds(s.plan) && AttemptsRecorded(s.plan, s.tally.history)
    requires i < |s.plan| && s.plan[i].status == Pending && env(s.step).tool.Some?
    ensures BooksKept(env, Attempt(c, env(s.step), s, i))
  {
    var r, h, v := env(s.step), s.tally.history, Started(s.plan[i]);
    var t := Attempt(c, r, s, i);
    var o := Observe(r.tool.value, r);
    var a := Decide(o, v.attempts, c.maxRetries, c.threshold);
    var e := Entry(s.step + 1, v, o, a, r.note);
    AttemptShape(c, r, s, i);
    AttemptRecords(c, r, s, i);
    assert Recorded(s.plan[i], h);
    EntriesSnoc(h, e, v.id);
    RecordsSnoc(env, h, e);
    FailuresOf(s.book, v, o, a, r.note);
    TitlesNext(s.plan, h, i, t.plan[i], e);
    assert t.plan == s.plan[i := t.plan[i]];
  }

  // ----- every run

  ghost predicate HistoryTold(c: Config, env: Environment, s: Run) {
    && DistinctIds(s.plan) && AllFollow(c, env, s.tally.history, s.book.observations)
    && AttemptsRecorded(s.plan, s.tally.history) && AllExplained(env, s.plan, s.tally.history)
    && BooksKept(env, s)
  }

  lemma ToldAfterSkip(c: Config, env: Environment, s: Run, i: nat)
    requires HistoryTold(c, env, s) && i < |s.plan| && s.plan[i].status == Pending && env(s.step).tool == None
    ensures HistoryTold(c, env, Attempt(c, env(s.step), s, i))
  {
    var t := Attempt(c, env(s.step), s, i);
    AttemptShape(c, env(s.step), s, i);
    AttemptRecords(c, env(s.step), s, i);
    RecordedSkip(s.plan, s.tally.history, i, t.plan[i]);
    KeptAfterSkip(c, env, s, i);
    assert t.plan == s.plan[i := t.plan[i]];
  }

  lemma PlanToldNext(env: Environment, plan: Plan, h: seq<HistoryEntry>, i: nat, v: View, e: HistoryEntry, step: nat)
    requires DistinctIds(plan) && AttemptsRecorded(plan, h) && AllExplained(env, plan, h)
    requires i < |plan| && plan[i].status == Pending && v == Outcome(Started(plan[i]), e.action, env(step).note)
    requires e.task == v.id && e.step == step + 1
    ensures AttemptsRecorded(plan[i := v], h + [e]) && AllExplained(env, plan[i := v], h + [e])
  {
    RecordedNext(plan, h, i, v, e);
    ConcludedNow(env, h, v, e, step);
    ExplainedNext(env, plan, h, i, v, e);
  }

  lemma ToldAfterAttempt(c: Config, env: Environment, s: Run, i: nat)
    requires HistoryTold(c, env, s) && i < |s.plan| && s.plan[i].status == Pending && env(s.step).tool.Some?
    ensures HistoryTold(c, env, Attempt(c, env(s.step), s, i))
  {
    var r, h, v := env(s.step), s.tally.history, Started(s.plan[i]);
    var t := Attempt(c, r, s, i);
    var o := Observe(r.tool.value, r);
    var e := Entry(s.step + 1, v, o, Decide(o, v.attempts, c.maxRetries, c.threshold), r.note);
    AttemptShape(c, r, s, i);
    AttemptRecords(c, r, s, i);
    assert Recorded(s.plan[i], h);
    LastEntryFollows(c, env, h, s.book.observations, s.step, v);
    AllFollowNext(c, env, h, s.book.observations, e, o);
    PlanToldNext(env, s.plan, h, i, t.plan[i], e, s.step);
    KeptAfterAttempt(c, env, s, i);
    assert t.plan == s.plan[i := t.plan[i]];
  }

  lemma {:induction false} LoopTells(c: Config, env: Environment, s: Run)
    requires HistoryTold(c, env, s)
    ensures HistoryTold(c, env, Loop(c, env, s).0)
    decreases c.maxSteps - s.step
  {
    if !Finished(s.plan) && s.step < c.maxSteps && FirstReady(s.plan).Some? {
      var i := FirstReady(s.plan).value;
      if env(s.step).tool.Some? {
        ToldAfterAttempt(c, env, s, i);
      } else {
        ToldAfterSkip(c, env, s, i);
      }
      LoopTells(c, env, Attempt(c, env(s.step), s, i));
    }
  }

  /** In every run each entry follows from the answer of its step and the number of the attempt. */
  lemma EntriesFollow(c: Config, env: Environment, plan: Plan, j: nat)
    requires FreshPlan(plan) && DistinctIds(plan) && j < |Loop(c, env, Initial(plan)).0.tally.history|
    ensures var s := Loop(c, env, Initial(plan)).0;
      |s.tally.history| == |s.book.observations| && EntryFollows(c, env, s.tally.history, s.book.observations, j)
  {
    LoopTells(c, env, Initial(plan));
  }

  /** The task has used its attempts, the last of them without a good answer, and says so in its error. */
  ghost predicate GivenUp(c: Config, env: Environment, h: seq<HistoryEntry>, v: View) {
    && v.attempts >= c.maxRetries
    && exists j: nat :: LastAbout(h, v.id, j) && h[j].step > 0
                        && !Good(c, env(h[j].step - 1))
                        && v.error == "Failed after " + Decimal(v.attempts) + " attempt(s): " + env(h[j].step - 1).note
  }

  lemma FailedIsGivenUp(c: Config, env: Environment, h: seq<HistoryEntry>, o: seq<Observation>, v: View)
    requires AllFollow(c, env, h, o) && Recorded(v, h) && v.status == Failed && Concluded(env, h, v, Skip)
    ensures GivenUp(c, env, h, v)
  {
    var j: nat :| LastAbout(h, v.id, j) && h[j].action == Skip && h[j].step > 0
      && v.error == FailNote(v.attempts, env(h[j].step - 1).note);
    assert EntryFollows(c, env, h, o, j);
    NoneAfter(h, v.id, j);
  }

  /** In every run the history lists exactly the steps with a tool, and the failure records follow from it. */
  lemma BooksAreKept(c: Config, env: Environment, plan: Plan)
    requires FreshPlan(plan) && DistinctIds(plan)
    ensures BooksKept(env, Loop(c, env, Initial(plan)).0)
  {
    LoopTells(c, env, Initial(plan));
  }

  /** In every run a completed task was accepted last: on a good answer, or on one of quality above 0.1 with attempts left
      and no retry called for. */
  lemma CompletionIsEarned(c: Config, env: Environment, plan: Plan, v: View)
    requires FreshPlan(plan) && DistinctIds(plan)
    requires v in Loop(c, env, Initial(plan)).0.plan && v.status == Completed
    ensures Accepted(c, env, Loop(c, env, Initial(plan)).0.tally.history, v)
  {
    var s := Loop(c, env, Initial(plan)).0;
    LoopTells(c, env, Initial(plan));
    ToldCompletion(c, env, s, v);
  }

  ghost predicate Accepted(c: Config, env: Environment, h: seq<HistoryEntry>, v: View) {
    exists j: nat :: LastAbout(h, v.id, j) && h[j].step > 0
      && (var r := env(h[j].step - 1);
          Good(c, r) || (v.attempts < c.maxRetries && !Refuted(r) && !r.retrySuggested && r.quality > 0.1))
  }

  lemma ToldCompletion(c: Config, env: Environment, s: Run, v: View)
    requires HistoryTold(c, env, s) && v in s.plan && v.status == Completed
    ensures Accepted(c, env, s.tally.history, v)
  {
    var h := s.tally.history;
    var i :| 0 <= i < |s.plan| && s.plan[i] == v;
    assert Explained(env, h, s.plan[i]) && Recorded(s.plan[i], h);
    var j: nat :| LastAbout(h, v.id, j) && h[j].action == Accept && h[j].step > 0;
    assert EntryFollows(c, env, h, s.book.observations, j);
    NoneAfter(h, v.id, j);
  }

  /** In every run a failed task has been given up after max_retries attempts at least, and never on a good answer. */
  lemma FailureIsEarned(c: Config, env: Environment, plan: Plan, v: View)
    requires FreshPlan(plan) && DistinctIds(plan)
    requires v in Loop(c, env, Initial(plan)).0.plan && v.status == Failed
    ensures GivenUp(c, env, Loop(c, env, Initial(plan)).0.tally.history, v)
  {
    var s := Loop(c, env, Initial(plan)).0;
    LoopTells(c, env, Initial(plan));
    ToldFailure(c, env, s, v);
  }

  lemma ToldFailure(c: Config, env: Environment, s: Run, v: View)
    requires HistoryTold(c, env, s) && v in s.plan && v.status == Failed
    ensures GivenUp(c, env, s.tally.history, v)
  {
    var i :| 0 <= i < |s.plan| && s.plan[i] == v;
    assert Explained(env, s.tally.history, s.plan[i]) && Recorded(s.plan[i], s.tally.history);
    FailedIsGivenUp(c, env, s.tally.history, s.book.observations, v);
  }

  lemma {:induction false} NoneAfter(h: seq<HistoryEntry>, id: Id, j: nat)
    requires LastAbout(h, id, j)
    ensures Entries(h, id) == Entries(h[..j + 1], id)
  {
    var n := |h| - 1;
    if j < n {
      assert LastAbout(h[..n], id, j);
      NoneAfter(h[..n], id, j);
      assert h[..n][..j + 1] == h[..j + 1];
    } else {
      assert h[..j + 1] == h;
    }
  }

  // ----- runs on good answers

  /** Every task is pending or completed, and each step has completed one. */
  predicate Smooth(s: Run) {
    (forall i :: 0 <= i < |s.plan| ==> s.plan[i].status in {Pending, Completed}) && Count(s.plan, Completed) == s.step
  }

  lemma SmoothStep(c: Config, r: Response, s: Run, i: nat)
    requires Smooth(s) && i < |s.plan| && s.plan[i].status == Pending && r.tool.Some? && Good(c, r)
    ensures Smooth(Attempt(c, r, s, i))
  {
    var t := Attempt(c, r, s, i);
    AttemptShape(c, r, s, i);
    CountUpdate(s.plan, i, t.plan[i], Completed);
  }

  lemma {:induction false} CountFills(plan: Plan, s: Status)
    ensures Count(plan, s) <= |plan|
    ensures Count(plan, s) == |plan| <==> forall i :: 0 <= i < |plan| ==> plan[i].status == s
  {
    if plan != [] {
      var n := |plan| - 1;
      CountFills(plan[..n], s);
      assert forall i :: 0 <= i < n ==> plan[..n][i] == plan[i];
    }
  }

  lemma {:induction false} GoodAnswersRunSmoothly(c: Config, env: Environment, s: Run)
    requires Smooth(s) && forall k :: 0 <= k < |s.plan| ==> env(k).tool.Some? && Good(c, env(k))
    ensures Smooth(Loop(c, env, s).0) && |Loop(c, env, s).0.plan| == |s.plan|
    decreases c.maxSteps - s.step
  {
    if !Finished(s.plan) && s.step < c.maxSteps && FirstReady(s.plan).Some? {
      var i := FirstReady(s.plan).value;
      CountFills(s.plan, Completed);
      SmoothStep(c, env(s.step), s, i);
      AttemptShape(c, env(s.step), s, i);
      GoodAnswersRunSmoothly(c, env, Attempt(c, env(s.step), s, i));
    }
  }

  lemma {:induction false} NoneWith(plan: Plan, s: Status)
    requires forall i :: 0 <= i < |plan| ==> plan[i].status != s
    ensures IdsWith(plan, s) == {} && Count(plan, s) == 0
  {
    if plan != [] {
      NoneWith(plan[..|plan| - 1], s);
    }
  }

  // A smooth end with enough steps is an end with everything completed.
  lemma SmoothEnd(c: Config, s: Run, exit: Exit)
    requires Smooth(s) && c.maxSteps >= |s.plan|
    requires exit == AllDone <==> Finished(s.plan)
    requires exit == StepLimit ==> s.step >= c.maxSteps
    requires exit == NoReadyTask ==>
      forall i :: 0 <= i < |s.plan| && s.plan[i].status == Pending ==> Starved(s.plan, s.plan[i].id)
    ensures exit == AllDone && s.step == |s.plan| && forall i :: 0 <= i < |s.plan| ==> s.plan[i].status == Completed
  {
    CountFills(s.plan, Completed);
    NoneWith(s.plan, Failed);
    NoneWith(s.plan, Skipped);
  }

  /** If the first n answers are good, a sound graph of n tasks with at least n steps to take is completed in exactly n steps. */
  lemma GoodAnswersComplete(c: Config, env: Environment, plan: Plan)
    requires FreshPlan(plan) && DistinctIds(plan) && T.NoDangling(L.DepsOf(plan)) && T.Acyclic(L.DepsOf(plan))
    requires c.maxSteps >= |plan| && forall k :: 0 <= k < |plan| ==> env(k).tool.Some? && Good(c, env(k))
    ensures var (end, exit) := Loop(c, env, Initial(plan));
      var result := Summary(end, exit);
      && result.success && result.totalSteps == |plan|
      && result.tally.completed == |plan| && result.tally.failed == 0 && result.tally.skipped == 0
      && forall i :: 0 <= i < |end.plan| ==> end.plan[i].status == Completed
  {
    var (end, exit) := Loop(c, env, Initial(plan));
    NoneWith(plan, Completed);
    GoodAnswersRunSmoothly(c, env, Initial(plan));
    LoopShape(c, env, Initial(plan));
    StuckRunLeavesOnlyStarved(c, env, plan);
    SmoothEnd(c, end, exit);
    InitialHead(c, plan);
    LoopKeeps(c, env, Initial(plan));
    CountFills(end.plan, Completed);
    NoneWith(end.plan, Failed);
    NoneWith(end.plan, Skipped);
  }

  // ----- the error text

  /** The number a decimal text stands for. */
  function Number(s: string): nat {
    if s == "" then 0 else 10 * Number(s[..|s| - 1]) + Digit(s[|s| - 1])
  }

  function Digit(c: char): nat { if '0' <= c <= '9' then c as int - '0' as int else 0 }

  /** The attempts named in an error text can be read back. */
  lemma {:induction false} DecimalReads(n: nat)
    ensures Number(Decimal(n)) == n && Decimal(n) != ""
  {
    var front := if n < 10 then "" else Decimal(n / 10);
    assert Decimal(n)[..|front|] == front;
    assert Digit("0123456789"[n % 10]) == n % 10;
    if n >= 10 {
      DecimalReads(n / 10);
    }
  }
}
