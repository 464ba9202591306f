/**
 Supersession as a property of a book of records: what the operations of
 core/truth_manager.py do to the book, and when following superseded_by comes to an end.
 */
module TruthLedger {
  import opened Common

  type Id = string

  datatype TruthStatus = Active | Superseded | Historical | Conflicting | Archived

  datatype Rec = Rec(status: TruthStatus, supersededBy: Option<Id>, mergedInto: Option<Id>,
                     history: seq<(TruthStatus, string)>)

  type Book = map<Id, Rec>

  // ----- the operations

  function Ensure(b: Book, id: Id, initial: TruthStatus): Book {
    if id in b then b else b[id := Rec(initial, None, None, [])]
  }

  function SetStatus(b: Book, id: Id, s: TruthStatus, note: string): Book
    requires id in b
  {
    b[id := b[id].(status := s, history := b[id].history + [(s, note)])]
  }

  function Default(note: string, otherwise: string): string { if note != "" then note else otherwise }

  function Register(b: Book, first: Id, second: Id): (r: Book)
    ensures first in r && second in r
  {
    Ensure(Ensure(b, first, Active), second, Active)
  }

  function PointAt(b: Book, id: Id, merged: Option<Id>, target: Option<Id>): Book
    requires id in b
  {
    b[id := b[id].(mergedInto := merged, supersededBy := target)]
  }

  function Replace(b: Book, oldId: Id, newId: Id, note: string): Book {
    var b1 := SetStatus(Register(b, oldId, newId), oldId, Superseded, Default(note, "superseded by " + newId));
    var b2 := PointAt(b1, oldId, b1[oldId].mergedInto, Some(newId));
    SetStatus(b2, newId, Active, Default(note, "replaces " + oldId))
  }

  // An empty id counts as none given.
  function Survivor(a: Id, given: Option<Id>): Id {
    if given.Some? && given.value != "" then given.value else a
  }

  function Loser(a: Id, b: Id, survivor: Id): Id { if survivor == a then b else a }

  function Merge(book: Book, a: Id, b: Id, given: Option<Id>, note: string): Book {
    var survivor := Survivor(a, given);
    var loser := Loser(a, b, survivor);
    MergeRecords(Register(book, survivor, loser), survivor, loser, note)
  }

  function MergeRecords(b: Book, survivor: Id, loser: Id, note: string): Book
    requires survivor in b && loser in b
  {
    var b1 := SetStatus(b, survivor, Active, Default(note, "merged with " + loser));
    var b2 := SetStatus(b1, loser, Superseded, Default(note, "merged into " + survivor));
    PointAt(b2, loser, Some(survivor), Some(survivor))
  }

  function Assign(b: Book, id: Id, s: TruthStatus, note: string): Book {
    SetStatus(Ensure(b, id, Active), id, s, note)
  }

  function MarkConflicting(book: Book, a: Id, b: Id, note: string): Book {
    var b1 := SetStatus(Register(book, a, b), a, Conflicting, Default(note, "conflicts with " + b));
    SetStatus(b1, b, Conflicting, Default(note, "conflicts with " + a))
  }

  datatype Op =
    | DoEnsure(id: Id, initial: TruthStatus)
    | DoReplace(oldId: Id, newId: Id, note: string)
    | DoMerge(a: Id, b: Id, given: Option<Id>, note: string)
    | DoConflict(a: Id, b: Id, note: string)
    | DoArchive(id: Id, note: string)
    | DoHistorical(id: Id, note: string)
    | DoResolve(id: Id, status: TruthStatus, note: string)

  function Apply(b: Book, op: Op): Book {
    match op
    case DoEnsure(id, initial) => Ensure(b, id, initial)
    case DoReplace(o, n, note) => Replace(b, o, n, note)
    case DoMerge(x, y, given, note) => Merge(b, x, y, given, note)
    case DoConflict(x, y, note) => MarkConflicting(b, x, y, note)
    case DoArchive(id, note) => Assign(b, id, Archived, Default(note, "archived"))
    case DoHistorical(id, note) => Assign(b, id, Historical, Default(note, "naturally ended"))
    case DoResolve(id, s, note) => Assign(b, id, s, note)
  }

  /** The records an operation names. */
  function Named(op: Op): set<Id> {
    match op
    case DoEnsure(id, _) => {id}
    case DoReplace(o, n, _) => {o, n}
    case DoMerge(a, b, given, _) => {Survivor(a, given), Loser(a, b, Survivor(a, given))}
    case DoConflict(a, b, _) => {a, b}
    case DoArchive(id, _) => {id}
    case DoHistorical(id, _) => {id}
    case DoResolve(id, _, _) => {id}
  }

  lemma OpLeavesOthers(b: Book, op: Op, x: Id)
    requires x !in Named(op)
    ensures x in Apply(b, op) <==> x in b
    ensures x in b ==> Apply(b, op)[x] == b[x]
  {
  }

  // ----- what an operation leaves behind

  /** The record as found, or as registered by a call that finds none. */
  function Found(b: Book, id: Id): Rec { if id in b then b[id] else Rec(Active, None, None, []) }

  /** The record has the status, and its history one more entry for it, with the note given or else the usual one. */
  ghost predicate Marked(b: Book, after: Book, id: Id, s: TruthStatus, note: string, usual: string) {
    && id in after && after[id].status == s
    && after[id].history == Found(b, id).history + [(s, if note == "" then usual else note)]
  }

  ghost predicate SamePointers(b: Book, after: Book, id: Id) {
    id in after && after[id].supersededBy == Found(b, id).supersededBy && after[id].mergedInto == Found(b, id).mergedInto
  }

  lemma ReplaceOutcome(b: Book, o: Id, n: Id, note: string)
    requires o != n
    ensures var after := Apply(b, DoReplace(o, n, note));
      && Marked(b, after, o, Superseded, note, "superseded by " + n) && Marked(b, after, n, Active, note, "replaces " + o)
      && SamePointers(b, after, n)
      && after[o].supersededBy == Some(n) && after[o].mergedInto == Found(b, o).mergedInto
  {
  }

  /** The given id survives, or else the first; the other of the two is merged into it. */
  lemma MergeOutcome(b: Book, x: Id, y: Id, given: Option<Id>, note: string)
    requires x != y
    ensures var after := Apply(b, DoMerge(x, y, given, note));
      var s := if given == None || given == Some("") then x else given.value;
      var l := if s == x then y else x;
      && Marked(b, after, s, Active, note, "merged with " + l) && Marked(b, after, l, Superseded, note, "merged into " + s)
      && SamePointers(b, after, s)
      && after[l].supersededBy == Some(s) && after[l].mergedInto == Some(s)
  {
  }

  lemma ConflictOutcome(b: Book, x: Id, y: Id, note: string)
    requires x != y
    ensures var after := Apply(b, DoConflict(x, y, note));
      && Marked(b, after, x, Conflicting, note, "conflicts with " + y)
      && Marked(b, after, y, Conflicting, note, "conflicts with " + x)
      && SamePointers(b, after, x) && SamePointers(b, after, y)
  {
  }

  lemma AssignOutcome(b: Book, id: Id, s: TruthStatus, note: string)
    ensures Marked(b, Apply(b, DoArchive(id, note)), id, Archived, note, "archived")
    ensures Marked(b, Apply(b, DoHistorical(id, note)), id, Historical, note, "naturally ended")
    ensures Marked(b, Apply(b, DoResolve(id, s, note)), id, s, note, "")
    ensures forall op :: op in {DoArchive(id, note), DoHistorical(id, note), DoResolve(id, s, note)} ==>
      SamePointers(b, Apply(b, op), id)
  {
  }

  function ApplyAll(b: Book, ops: seq<Op>): Book {
    if ops == [] then b else Apply(ApplyAll(b, ops[..|ops| - 1]), ops[|ops| - 1])
  }

  // ----- following superseded_by

  /** From x, at most n steps along superseded_by lead to a registered record that is not superseded. */
  ghost predicate Ends(b: Book, x: Id, n: nat)
    decreases n
  {
    x in b && (b[x].status != Superseded || (n > 0 && b[x].supersededBy.Some? && Ends(b, b[x].supersededBy.value, n - 1)))
  }

  /** No chain of supersession is cyclic or leads nowhere. */
  ghost predicate AllEnd(b: Book) {
    forall x :: x in b ==> exists n :: Ends(b, x, n)
  }

  lemma {:induction false} EndsLater(b: Book, x: Id, m: nat, n: nat)
    requires Ends(b, x, m) && m <= n
    ensures Ends(b, x, n)
    decreases m
  {
    if b[x].status == Superseded {
      EndsLater(b, b[x].supersededBy.value, m - 1, n - 1);
    }
  }

  /** Ends without meeting id on the way. */
  ghost predicate EndsAvoiding(b: Book, x: Id, id: Id, n: nat)
    decreases n
  {
    x != id && x in b
    && (b[x].status != Superseded || (n > 0 && b[x].supersededBy.Some? && EndsAvoiding(b, b[x].supersededBy.value, id, n - 1)))
  }

  // ----- what keeps all chains finite

  /** after may supersede old in favour of new, which is not superseded; no other record becomes superseded. */
  ghost predicate Repoints(before: Book, after: Book, oldId: Id, newId: Id) {
    && before.Keys <= after.Keys && newId in after && after[newId].status != Superseded
    && (forall y :: y in after && after[y].status == Superseded ==>
          (y == oldId && after[y].supersededBy == Some(newId))
          || (y in before && before[y].status == Superseded && after[y].supersededBy == before[y].supersededBy))
  }

  lemma {:induction false} RepointEnds(before: Book, after: Book, oldId: Id, newId: Id, x: Id, n: nat)
    requires Repoints(before, after, oldId, newId) && Ends(before, x, n)
    ensures Ends(after, x, n + 1)
    decreases n
  {
    if after[x].status == Superseded {
      if x == oldId && after[x].supersededBy == Some(newId) {
        assert Ends(after, newId, n);
      } else {
        RepointEnds(before, after, oldId, newId, before[x].supersededBy.value, n - 1);
      }
    }
  }

  lemma RepointKeeps(before: Book, after: Book, oldId: Id, newId: Id)
    requires Repoints(before, after, oldId, newId) && AllEnd(before)
    ensures AllEnd(after)
  {
    forall x | x in after ensures exists n :: Ends(after, x, n) {
      if x in before {
        var n :| Ends(before, x, n);
        RepointEnds(before, after, oldId, newId, x, n);
      } else {
        assert Ends(after, newId, 0);
        assert Ends(after, x, 1);
      }
    }
  }

  /** No record becomes superseded. */
  ghost predicate Relaxes(before: Book, after: Book) {
    && before.Keys <= after.Keys
    && (forall y :: y in after && after[y].status == Superseded ==>
          y in before && before[y].status == Superseded && after[y].supersededBy == before[y].supersededBy)
  }

  lemma {:induction false} RelaxEnds(before: Book, after: Book, x: Id, n: nat)
    requires Relaxes(before, after) && Ends(before, x, n)
    ensures Ends(after, x, n)
    decreases n
  {
    if after[x].status == Superseded {
      RelaxEnds(before, after, before[x].supersededBy.value, n - 1);
    }
  }

  lemma RelaxKeeps(before: Book, after: Book)
    requires Relaxes(before, after) && AllEnd(before)
    ensures AllEnd(after)
  {
    forall x | x in after ensures exists n :: Ends(after, x, n) {
      if x in before {
        var n :| Ends(before, x, n);
        RelaxEnds(before, after, x, n);
      } else {
        assert Ends(after, x, 0);
      }
    }
  }

  lemma {:induction false} SelfLoopNeverEnds(b: Book, x: Id, n: nat)
    requires x in b && b[x].status == Superseded && b[x].supersededBy == Some(x)
    ensures !Ends(b, x, n)
  {
    if n > 0 {
      SelfLoopNeverEnds(b, x, n - 1);
    }
  }

  // ----- resolve(id, SUPERSEDED)

  // after is before with id, not superseded so far, turned superseded with its old pointer.
  ghost predicate Sinks(before: Book, after: Book, id: Id) {
    && id in before && before[id].status != Superseded
    && after.Keys == before.Keys && after[id].status == Superseded && after[id].supersededBy == before[id].supersededBy
    && (forall y :: y in after && y != id ==> after[y] == before[y])
  }

  lemma {:induction false} SinkEndsElsewhere(before: Book, after: Book, id: Id, y: Id, n: nat)
    requires Sinks(before, after, id) && Ends(after, y, n) && !Ends(after, id, n)
    ensures EndsAvoiding(before, y, id, n)
    decreases n
  {
    if after[y].status == Superseded {
      if Ends(after, id, n - 1) {
        EndsLater(after, id, n - 1, n);
      }
      SinkEndsElsewhere(before, after, id, after[y].supersededBy.value, n - 1);
    }
  }

  lemma {:induction false} AvoidedStillEnds(before: Book, after: Book, id: Id, y: Id, n: nat)
    requires Sinks(before, after, id) && EndsAvoiding(before, y, id, n)
    ensures Ends(after, y, n)
    decreases n
  {
    if before[y].status == Superseded {
      AvoidedStillEnds(before, after, id, before[y].supersededBy.value, n - 1);
    }
  }

  lemma {:induction false} SinkReaches(before: Book, after: Book, id: Id, x: Id, n: nat, k: nat)
    requires Sinks(before, after, id) && Ends(before, x, n) && Ends(after, id, k)
    ensures Ends(after, x, n + k)
    decreases n
  {
    if x == id {
      EndsLater(after, id, k, n + k);
    } else if before[x].status == Superseded {
      SinkReaches(before, after, id, before[x].supersededBy.value, n - 1, k);
    }
  }

  lemma SinkKeeps(before: Book, after: Book, id: Id, n: nat)
    requires Sinks(before, after, id) && AllEnd(before)
    requires before[id].supersededBy.Some? && EndsAvoiding(before, before[id].supersededBy.value, id, n)
    ensures AllEnd(after)
  {
    AvoidedStillEnds(before, after, id, before[id].supersededBy.value, n);
    assert Ends(after, id, n + 1);
    forall x | x in after ensures exists m :: Ends(after, x, m) {
      var m :| Ends(before, x, m);
      SinkReaches(before, after, id, x, m, n + 1);
    }
  }

  lemma SinkNeeds(before: Book, after: Book, id: Id)
    requires Sinks(before, after, id) && AllEnd(after)
    ensures before[id].supersededBy.Some? && exists n :: EndsAvoiding(before, before[id].supersededBy.value, id, n)
  {
    var k := LeastEnd(after, id);
    SinkEndsElsewhere(before, after, id, after[id].supersededBy.value, k - 1);
  }

  lemma LeastEnd(b: Book, x: Id) returns (k: nat)
    requires (exists n :: Ends(b, x, n)) && b[x].status == Superseded
    ensures k > 0 && Ends(b, x, k) && !Ends(b, x, k - 1)
  {
    k :| Ends(b, x, k);
    while k > 1 && Ends(b, x, k - 1)
      invariant k > 0 && Ends(b, x, k)
      decreases k
    {
      k := k - 1;
    }
  }

  // ----- exactly which operations are sound

  /** What a caller has to check before an operation. */
  ghost predicate Sound(b: Book, op: Op) {
    match op
    case DoEnsure(id, initial) => id in b || initial != Superseded
    case DoMerge(x, y, given, _) => x != y || Survivor(x, given) != x
    case DoResolve(id, s, _) =>
      s != Superseded
      || (id in b && (b[id].status == Superseded
                      || (b[id].supersededBy.Some? && exists n :: EndsAvoiding(b, b[id].supersededBy.value, id, n))))
    case _ => true
  }

  lemma EnsureKeepsIff(b: Book, id: Id, initial: TruthStatus)
    requires AllEnd(b)
    ensures AllEnd(Ensure(b, id, initial)) <==> Sound(b, DoEnsure(id, initial))
  {
    var after := Ensure(b, id, initial);
    if id in b || initial != Superseded {
      RelaxKeeps(b, after);
    } else {
      assert forall n: nat :: !Ends(after, id, n);
    }
  }

  lemma ReplaceKeeps(b: Book, oldId: Id, newId: Id, note: string)
    requires AllEnd(b)
    ensures AllEnd(Replace(b, oldId, newId, note))
  {
    RepointKeeps(b, Replace(b, oldId, newId, note), oldId, newId);
  }

  lemma MergeKeepsIff(b: Book, x: Id, y: Id, given: Option<Id>, note: string)
    requires AllEnd(b)
    ensures AllEnd(Merge(b, x, y, given, note)) <==> Sound(b, DoMerge(x, y, given, note))
  {
    var after := Merge(b, x, y, given, note);
    var s := Survivor(x, given);
    if x != y || s != x {
      RepointKeeps(b, after, Loser(x, y, s), s);
    } else {
      forall n: nat ensures !Ends(after, x, n) {
        SelfLoopNeverEnds(after, x, n);
      }
    }
  }

  lemma ConflictKeeps(b: Book, x: Id, y: Id, note: string)
    requires AllEnd(b)
    ensures AllEnd(MarkConflicting(b, x, y, note))
  {
    RelaxKeeps(b, MarkConflicting(b, x, y, note));
  }

  lemma AssignKeepsIff(b: Book, id: Id, s: TruthStatus, note: string)
    requires AllEnd(b)
    ensures AllEnd(Assign(b, id, s, note)) <==> Sound(b, DoResolve(id, s, note))
  {
    var after := Assign(b, id, s, note);
    if s != Superseded || (id in b && b[id].status == Superseded) {
      RelaxKeeps(b, after);
    } else if id !in b {
      assert forall n: nat :: !Ends(after, id, n);
    } else {
      if AllEnd(after) {
        SinkNeeds(b, after, id);
      }
      if Sound(b, DoResolve(id, s, note)) {
        var n :| EndsAvoiding(b, b[id].supersededBy.value, id, n);
        SinkKeeps(b, after, id, n);
      }
    }
  }

  /** An operation keeps all chains finite exactly when it is sound. */
  lemma SoundKeepsIff(b: Book, op: Op)
    requires AllEnd(b)
    ensures AllEnd(Apply(b, op)) <==> Sound(b, op)
  {
    match op
    case DoEnsure(id, initial) => EnsureKeepsIff(b, id, initial);
    case DoReplace(o, n, note) => ReplaceKeeps(b, o, n, note);
    case DoMerge(x, y, given, note) => MergeKeepsIff(b, x, y, given, note);
    case DoConflict(x, y, note) => ConflictKeeps(b, x, y, note);
    case DoArchive(id, note) => AssignKeepsIff(b, id, Archived, Default(note, "archived"));
    case DoHistorical(id, note) => AssignKeepsIff(b, id, Historical, Default(note, "naturally ended"));
    case DoResolve(id, s, note) => AssignKeepsIff(b, id, s, note);
  }

  /** Giving a record the status SUPERSEDED by hand breaks its chain: it has no successor. */
  lemma ResolveCanBreak()
    ensures var book: Book := map["a" := Rec(Active, None, None, [])];
      AllEnd(book) && !AllEnd(Apply(book, DoResolve("a", Superseded, "")))
  {
    var book: Book := map["a" := Rec(Active, None, None, [])];
    assert Ends(book, "a", 0);
    SoundKeepsIff(book, DoResolve("a", Superseded, ""));
  }

  /** Sound without a look at the book. */
  predicate Plain(op: Op) {
    match op
    case DoEnsure(_, initial) => initial != Superseded
    case DoMerge(x, y, _, _) => x != y
    case DoResolve(_, s, _) => s != Superseded
    case _ => true
  }

  /** After any run of plain operations from an empty book, every chain of supersession ends
      at a registered record that is not superseded. */
  lemma {:induction false} PlainRunsEnd(ops: seq<Op>)
    requires forall op :: op in ops ==> Plain(op)
    ensures AllEnd(ApplyAll(map[], ops))
  {
    if ops != [] {
      PlainRunsEnd(ops[..|ops| - 1]);
      assert Plain(ops[|ops| - 1]);
      SoundKeepsIff(ApplyAll(map[], ops[..|ops| - 1]), ops[|ops| - 1]);
    }
  }

  // ----- no cycles

  /** c follows superseded_by, every record but the last being superseded by the next one. */
  ghost predicate Chain(b: Book, c: seq<Id>) {
    && c != []
    && forall i :: 0 <= i < |c| - 1 ==> c[i] in b && b[c[i]].status == Superseded && b[c[i]].supersededBy == Some(c[i + 1])
  }

  lemma {:induction false} ChainUsesSteps(b: Book, c: seq<Id>, n: nat)
    requires Chain(b, c) && Ends(b, c[0], n)
    ensures n >= |c| - 1 && Ends(b, c[|c| - 1], n - (|c| - 1))
  {
    if |c| > 1 {
      ChainUsesSteps(b, c[1..], n - 1);
    }
  }

  /** Where every chain ends, no record supersedes itself, however many records lie between. */
  lemma NoCycle(b: Book, c: seq<Id>)
    requires AllEnd(b) && Chain(b, c) && |c| > 1
    ensures c[0] != c[|c| - 1]
  {
    var k := LeastEnd(b, c[0]);
    ChainUsesSteps(b, c, k);
    if c[0] == c[|c| - 1] {
      EndsLater(b, c[0], k - (|c| - 1), k - 1);
    }
  }

  // ----- history

  /** The last history entry, if there is one, names the current status. */
  predicate RecAgrees(r: Rec) {
    r.history != [] ==> r.history[|r.history| - 1].0 == r.status
  }

  ghost predicate HistoryAgrees(b: Book) {
    forall x :: x in b ==> RecAgrees(b[x])
  }

  /** Statuses only ever change together with a history entry, which is appended. */
  ghost predicate Grows(before: Book, after: Book) {
    && before.Keys <= after.Keys
    && forall x :: x in before ==>
         && before[x].history <= after[x].history
         && (before[x].history == after[x].history ==> before[x].status == after[x].status)
  }

  lemma SetStatusGrows(b: Book, id: Id, s: TruthStatus, note: string)
    requires id in b && HistoryAgrees(b)
    ensures HistoryAgrees(SetStatus(b, id, s, note)) && Grows(b, SetStatus(b, id, s, note))
  {
    var r := b[id].(status := s, history := b[id].history + [(s, note)]);
    assert RecAgrees(r);
  }

  lemma EnsureGrows(b: Book, id: Id, initial: TruthStatus)
    requires HistoryAgrees(b)
    ensures HistoryAgrees(Ensure(b, id, initial)) && Grows(b, Ensure(b, id, initial))
  {}

  lemma GrowsTransitive(a: Book, b: Book, c: Book)
    requires Grows(a, b) && Grows(b, c)
    ensures Grows(a, c)
  {
    forall x | x in a
      ensures a[x].history <= c[x].history && (a[x].history == c[x].history ==> a[x].status == c[x].status)
    {
      assert a[x].history <= b[x].history <= c[x].history;
    }
  }

  // Register two ids, then mark one of them and one of them.
  lemma TwoMarksGrow(b: Book, first: Id, second: Id, x: Id, s: TruthStatus, m: string, y: Id, t: TruthStatus, n: string)
    requires HistoryAgrees(b) && {x, y} <= {first, second}
    ensures
      var b0 := Register(b, first, second);
      var b1 := SetStatus(b0, x, s, m);
      var b2 := SetStatus(b1, y, t, n);
      HistoryAgrees(b2) && Grows(b, b2)
  {
    var b0 := Ensure(b, first, Active);
    EnsureGrows(b, first, Active);
    var b1 := Ensure(b0, second, Active);
    EnsureGrows(b0, second, Active);
    GrowsTransitive(b, b0, b1);
    assert x in b1 && y in b1;
    var b2 := SetStatus(b1, x, s, m);
    SetStatusGrows(b1, x, s, m);
    GrowsTransitive(b, b1, b2);
    var b3 := SetStatus(b2, y, t, n);
    SetStatusGrows(b2, y, t, n);
    GrowsTransitive(b, b2, b3);
  }

  ghost predicate SameButPointers(b: Book, c: Book) {
    b.Keys == c.Keys && forall x :: x in b ==> b[x].status == c[x].status && b[x].history == c[x].history
  }

  lemma PointersAside(a: Book, b: Book, c: Book)
    requires HistoryAgrees(b) && Grows(a, b) && SameButPointers(b, c)
    ensures HistoryAgrees(c) && Grows(a, c)
  {
    forall x | x in c ensures RecAgrees(c[x]) { assert RecAgrees(b[x]); }
    forall x | x in a
      ensures a[x].history <= c[x].history && (a[x].history == c[x].history ==> a[x].status == c[x].status)
    {
      assert a[x].history <= b[x].history;
    }
  }

  // What a replacement does to statuses and histories.
  function Replaced(b: Book, oldId: Id, newId: Id, note: string): Book {
    var marked := SetStatus(Register(b, oldId, newId), oldId, Superseded, Default(note, "superseded by " + newId));
    SetStatus(marked, newId, Active, Default(note, "replaces " + oldId))
  }

  lemma ReplaceMarks(b: Book, oldId: Id, newId: Id, note: string)
    ensures SameButPointers(Replaced(b, oldId, newId, note), Replace(b, oldId, newId, note))
  {
  }

  lemma ReplaceGrows(b: Book, oldId: Id, newId: Id, note: string)
    requires HistoryAgrees(b)
    ensures HistoryAgrees(Replace(b, oldId, newId, note)) && Grows(b, Replace(b, oldId, newId, note))
  {
    TwoMarksGrow(b, oldId, newId, oldId, Superseded, Default(note, "superseded by " + newId),
                 newId, Active, Default(note, "replaces " + oldId));
    ReplaceMarks(b, oldId, newId, note);
    PointersAside(b, Replaced(b, oldId, newId, note), Replace(b, oldId, newId, note));
  }

  lemma MergeGrows(b: Book, x: Id, y: Id, given: Option<Id>, note: string)
    requires HistoryAgrees(b)
    ensures HistoryAgrees(Merge(b, x, y, given, note)) && Grows(b, Merge(b, x, y, given, note))
  {
    var s := Survivor(x, given);
    var l := Loser(x, y, s);
    var m, n := Default(note, "merged with " + l), Default(note, "merged into " + s);
    TwoMarksGrow(b, s, l, s, Active, m, l, Superseded, n);
    var marked := SetStatus(SetStatus(Register(b, s, l), s, Active, m), l, Superseded, n);
    PointersAside(b, marked, Merge(b, x, y, given, note));
  }

  lemma AssignGrows(b: Book, id: Id, s: TruthStatus, note: string)
    requires HistoryAgrees(b)
    ensures HistoryAgrees(Assign(b, id, s, note)) && Grows(b, Assign(b, id, s, note))
  {
    EnsureGrows(b, id, Active);
    SetStatusGrows(Ensure(b, id, Active), id, s, note);
    GrowsTransitive(b, Ensure(b, id, Active), Assign(b, id, s, note));
  }

  /** Histories only grow, no status changes without an entry, and the last entry is the status. */
  lemma HistoryKept(b: Book, op: Op)
    requires HistoryAgrees(b)
    ensures HistoryAgrees(Apply(b, op)) && Grows(b, Apply(b, op))
  {
    match op
    case DoEnsure(id, initial) => EnsureGrows(b, id, initial);
    case DoReplace(o, n, note) => ReplaceGrows(b, o, n, note);
    case DoMerge(x, y, given, note) => MergeGrows(b, x, y, given, note);
    case DoConflict(x, y, note) =>
      TwoMarksGrow(b, x, y, x, Conflicting, Default(note, "conflicts with " + y), y, Conflicting, Default(note, "conflicts with " + x));
    case DoArchive(id, note) => AssignGrows(b, id, Archived, Default(note, "archived"));
    case DoHistorical(id, note) => AssignGrows(b, id, Historical, Default(note, "naturally ended"));
    case DoResolve(id, s, note) => AssignGrows(b, id, s, note);
  }
}
