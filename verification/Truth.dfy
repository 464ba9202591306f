/**
 The truth records as objects: core/truth_manager.py and, on top of it,
 core/contradiction_resolver.py. Clock reads, logging and the saved file are left out.
 */
module Truth {
  import opened Common
  import opened TruthLedger

  class TruthRecord {
    const recordId: Id
    var status: TruthStatus
    var supersededBy: Option<Id>
    var mergedInto: Option<Id>
    var history: seq<(TruthStatus, string)>

    constructor (id: Id, initial: TruthStatus)
      ensures recordId == id && View() == Rec(initial, None, None, [])
    {
      recordId, status, supersededBy, mergedInto, history := id, initial, None, None, [];
    }

    ghost function View(): Rec
      reads this
    {
      Rec(status, supersededBy, mergedInto, history)
    }
  }

  class TruthManager {
    var records: map<Id, TruthRecord>

    constructor ()
      ensures Valid() && Look() == map[]
    {
      records := map[];
    }

    ghost predicate Valid()
      reads this, records.Values
    {
      forall id :: id in records ==> records[id].recordId == id
    }

    /** The records as a book of values. */
    ghost function Look(): Book
      reads this, records.Values
    {
      map id | id in records :: records[id].View()
    }

    /** A record this manager owns. */
    ghost predicate Owns(rec: TruthRecord)
      reads this, rec
    {
      rec.recordId in records && records[rec.recordId] == rec
    }

    method Ensure(id: Id, initial: TruthStatus) returns (rec: TruthRecord)
      requires Valid()
      modifies this
      ensures Valid() && Owns(rec) && rec.recordId == id
      ensures old(records).Keys <= records.Keys && (forall x :: x in old(records) ==> records[x] == old(records)[x])
      ensures id in old(records) || fresh(rec)
      ensures fresh(records.Values - old(records.Values))
      ensures Look() == TruthLedger.Ensure(old(Look()), id, initial)
    {
      if id !in records {
        var made := new TruthRecord(id, initial);
        records := records[id := made];
      }
      rec := records[id];
    }

    method SetStatus(rec: TruthRecord, s: TruthStatus, note: string)
      requires Valid() && Owns(rec)
      modifies rec
      ensures Valid()
      ensures Look() == TruthLedger.SetStatus(old(Look()), rec.recordId, s, note)
    {
      ghost var before := Look();
      rec.status := s;
      rec.history := rec.history + [(s, note)];
      assert Look() == TruthLedger.SetStatus(before, rec.recordId, s, note);
    }

    // Both records, registered if they were not.
    method Register(x: Id, y: Id) returns (recX: TruthRecord, recY: TruthRecord)
      requires Valid()
      modifies this
      ensures Valid() && Owns(recX) && recX.recordId == x && Owns(recY) && recY.recordId == y
      ensures (x in old(records) && recX == old(records)[x]) || fresh(recX)
      ensures (y in old(records) && recY == old(records)[y]) || fresh(recY)
      ensures fresh(records.Values - old(records.Values))
      ensures Look() == TruthLedger.Register(old(Look()), x, y)
    {
      recX := Ensure(x, Active);
      recY := Ensure(y, Active);
    }

    // Writes merged_into and superseded_by of one record.
    method PointAt(rec: TruthRecord, merged: Option<Id>, target: Option<Id>)
      requires Valid() && Owns(rec)
      modifies rec
      ensures Valid()
      ensures Look() == TruthLedger.PointAt(old(Look()), rec.recordId, merged, target)
    {
      ghost var before := Look();
      rec.mergedInto := merged;
      rec.supersededBy := target;
      assert Look() == TruthLedger.PointAt(before, rec.recordId, merged, target);
    }

    method Replace(oldId: Id, newId: Id, note: string)
      requires Valid()
      modifies this, records.Values
      ensures Valid() && fresh(records.Values - old(records.Values))
      ensures Look() == Apply(old(Look()), DoReplace(oldId, newId, note))
    {
      var o, n := Register(oldId, newId);
      SetStatus(o, Superseded, Default(note, "superseded by " + newId));
      PointAt(o, o.mergedInto, Some(newId));
      SetStatus(n, Active, Default(note, "replaces " + oldId));
    }

    method Merge(a: Id, b: Id, given: Option<Id>, note: string) returns (survivor: Id)
      requires Valid()
      modifies this, records.Values
      ensures Valid() && fresh(records.Values - old(records.Values))
      ensures survivor == Survivor(a, given)
      ensures Look() == Apply(old(Look()), DoMerge(a, b, given, note))
    {
      survivor := if given.Some? && given.value != "" then given.value else a;
      var loser := if survivor == a then b else a;
      var s, l := Register(survivor, loser);
      MergeRecords(s, l, note);
    }

    method MergeRecords(s: TruthRecord, l: TruthRecord, note: string)
      requires Valid() && Owns(s) && Owns(l)
      modifies s, l
      ensures Valid()
      ensures Look() == TruthLedger.MergeRecords(old(Look()), s.recordId, l.recordId, note)
    {
      SetStatus(s, Active, Default(note, "merged with " + l.recordId));
      SetStatus(l, Superseded, Default(note, "merged into " + s.recordId));
      PointAt(l, Some(s.recordId), Some(s.recordId));
    }

    method MarkConflicting(a: Id, b: Id, note: string)
      requires Valid()
      modifies this, records.Values
      ensures Valid() && fresh(records.Values - old(records.Values))
      ensures Look() == Apply(old(Look()), DoConflict(a, b, note))
    {
      var recA, recB := Register(a, b);
      SetStatus(recA, Conflicting, Default(note, "conflicts with " + b));
      SetStatus(recB, Conflicting, Default(note, "conflicts with " + a));
    }

    method Archive(id: Id, note: string)
      requires Valid()
      modifies this, records.Values
      ensures Valid() && fresh(records.Values - old(records.Values))
      ensures Look() == Apply(old(Look()), DoArchive(id, note))
    {
      var rec := Ensure(id, Active);
      SetStatus(rec, Archived, Default(note, "archived"));
    }

    method MarkHistorical(id: Id, note: string)
      requires Valid()
      modifies this, records.Values
      ensures Valid() && fresh(records.Values - old(records.Values))
      ensures Look() == Apply(old(Look()), DoHistorical(id, note))
    {
      var rec := Ensure(id, Active);
      SetStatus(rec, Historical, Default(note, "naturally ended"));
    }

    method Resolve(id: Id, s: TruthStatus, note: string)
      requires Valid()
      modifies this, records.Values
      ensures Valid() && fresh(records.Values - old(records.Values))
      ensures Look() == Apply(old(Look()), DoResolve(id, s, note))
    {
      var rec := Ensure(id, Active);
      SetStatus(rec, s, note);
    }
  }

  // ----- the contradiction resolver; classification returns any of the four cases it knows

  datatype Case = Replacement | ParallelTruth | MergeCase | Conflict

  datatype Ruling = Ruling(kind: Case, a: Id, b: Id, winner: Option<Id>)

  const EVIDENCE_NOTE: string := "resolved from conflict via evidence comparison"

  datatype Side = SideA | SideB

  /** Which claim dominates, by number of sources and confidence; the evidence counts play no part. */
  function CompareEvidence(sourcesA: int, sourcesB: int, confA: real, confB: real): (side: Option<Side>)
    ensures side == Some(SideA) <==> sourcesA > sourcesB && confA > confB
    ensures side == Some(SideB) <==> sourcesB > sourcesA && confB > confA
  {
    var aDominates := sourcesA > sourcesB && confA > confB;
    var bDominates := sourcesB > sourcesA && confB > confA;
    if aDominates && !bDominates then Some(SideA)
    else if bDominates && !aDominates then Some(SideB)
    else None
  }

  /** Which id a replacement keeps, and which it supersedes. */
  function NewId(a: Id, b: Id, confA: real, confB: real, newer: Option<Id>): Id {
    match newer
    case Some(id) => id
    case None => if confA >= confB then a else b
  }

  function OldId(a: Id, b: Id, newId: Id): Id { if newId == a then b else a }

  datatype Call =
    | Settle(kind: Case, a: Id, b: Id, confA: real, confB: real, newer: Option<Id>)
    | Weigh(a: Id, b: Id, sourcesA: int, sourcesB: int, confA: real, confB: real)
    | Direct(op: Op)

  /** The truth operations one call performs. */
  function Operations(call: Call): seq<Op> {
    match call
    case Settle(MergeCase, a, b, _, _, _) => [DoMerge(a, b, Some(a), "")]
    case Settle(Replacement, a, b, ca, cb, newer) =>
      [DoReplace(OldId(a, b, NewId(a, b, ca, cb, newer)), NewId(a, b, ca, cb, newer), "")]
    case Settle(ParallelTruth, a, b, _, _, _) => [DoEnsure(a, Active), DoEnsure(b, Active)]
    case Settle(Conflict, a, b, _, _, _) => [DoConflict(a, b, "")]
    case Weigh(a, b, sa, sb, ca, cb) =>
      (match CompareEvidence(sa, sb, ca, cb)
       case None => []
       case Some(SideA) => [DoReplace(b, a, EVIDENCE_NOTE)]
       case Some(SideB) => [DoReplace(a, b, EVIDENCE_NOTE)])
    case Direct(op) => [op]
  }

  function Serve(b: Book, call: Call): Book { ApplyAll(b, Operations(call)) }

  function ServeAll(b: Book, calls: seq<Call>): Book {
    if calls == [] then b else Serve(ServeAll(b, calls[..|calls| - 1]), calls[|calls| - 1])
  }

  class ContradictionResolver {
    const truth: TruthManager

    constructor (truth: TruthManager)
      ensures this.truth == truth
    {
      this.truth := truth;
    }

    method Resolve(kind: Case, a: Id, b: Id, confA: real, confB: real, newer: Option<Id>) returns (r: Ruling)
      requires truth.Valid()
      modifies truth, truth.records.Values
      ensures truth.Valid() && fresh(truth.records.Values - old(truth.records.Values))
      ensures truth.Look() == Serve(old(truth.Look()), Settle(kind, a, b, confA, confB, newer))
      ensures r.kind == kind && r.a == a && r.b == b
      ensures r.winner == match kind
                          case MergeCase => Some(a)
                          case Replacement => if newer.Some? then newer else if confA < confB then Some(b) else Some(a)
                          case _ => None
    {
      ghost var before := truth.Look();
      if kind.MergeCase? {
        var survivor := truth.Merge(a, b, Some(a), "");
        OneByOne(before, DoMerge(a, b, Some(a), ""));
        return Ruling(kind, a, b, Some(a));
      }
      if kind.Replacement? {
        var oldId, newId;
        if newer.Some? {
          oldId := if newer.value == a then b else a;
          newId := newer.value;
        } else {
          newId := if confA >= confB then a else b;
          oldId := if newId == a then b else a;
        }
        truth.Replace(oldId, newId, "");
        OneByOne(before, DoReplace(oldId, newId, ""));
        return Ruling(kind, a, b, Some(newId));
      }
      if kind.ParallelTruth? {
        var _ := truth.Ensure(a, Active);
        var _ := truth.Ensure(b, Active);
        TwoByTwo(before, DoEnsure(a, Active), DoEnsure(b, Active));
        return Ruling(kind, a, b, None);
      }
      truth.MarkConflicting(a, b, "");
      OneByOne(before, DoConflict(a, b, ""));
      r := Ruling(kind, a, b, None);
    }

    method TryResolveConflict(a: Id, b: Id, sourcesA: int, sourcesB: int, confA: real, confB: real)
      returns (r: Option<Ruling>)
      requires truth.Valid()
      modifies truth, truth.records.Values
      ensures truth.Valid() && fresh(truth.records.Values - old(truth.records.Values))
      ensures truth.Look() == Serve(old(truth.Look()), Weigh(a, b, sourcesA, sourcesB, confA, confB))
      ensures r == (match CompareEvidence(sourcesA, sourcesB, confA, confB)
                    case None => None
                    case Some(SideA) => Some(Ruling(Replacement, a, b, Some(a)))
                    case Some(SideB) => Some(Ruling(Replacement, a, b, Some(b))))
    {
      ghost var before := truth.Look();
      var winner := CompareEvidence(sourcesA, sourcesB, confA, confB);
      if winner.None? {
        return None;
      }
      var winnerId := if winner.value == SideA then a else b;
      var loserId := if winner.value == SideA then b else a;
      truth.Replace(loserId, winnerId, EVIDENCE_NOTE);
      OneByOne(before, DoReplace(loserId, winnerId, EVIDENCE_NOTE));
      r := Some(Ruling(Replacement, a, b, Some(winnerId)));
    }
  }

  lemma OneByOne(b: Book, op: Op)
    ensures ApplyAll(b, [op]) == Apply(b, op)
  {
    assert [op][..0] == [];
  }

  lemma TwoByTwo(b: Book, p: Op, q: Op)
    ensures ApplyAll(b, [p, q]) == Apply(Apply(b, p), q)
  {
    assert [p, q][..1] == [p];
    OneByOne(b, p);
  }

  // ----- what the resolver promises

  /** Swapping the two claims swaps the side that wins, so a pair is judged the same in either order. */
  lemma EvidenceIsImpartial(sa: int, sb: int, ca: real, cb: real)
    ensures CompareEvidence(sa, sb, ca, cb) == Some(SideA) <==> CompareEvidence(sb, sa, cb, ca) == Some(SideB)
    ensures CompareEvidence(sa, sb, ca, cb) == None <==> CompareEvidence(sb, sa, cb, ca) == None
  {}

  /** Weighing a pair in either order leaves the same book. */
  lemma WeighIsImpartial(book: Book, a: Id, b: Id, sa: int, sb: int, ca: real, cb: real)
    ensures Serve(book, Weigh(a, b, sa, sb, ca, cb)) == Serve(book, Weigh(b, a, sb, sa, cb, ca))
  {
    EvidenceIsImpartial(sa, sb, ca, cb);
  }

  /** No record but those named by the call changes. */
  lemma OthersUntouched(book: Book, kind: Case, a: Id, b: Id, ca: real, cb: real, newer: Option<Id>, x: Id)
    requires x != a && x != b && newer != Some(x)
    ensures x in Serve(book, Settle(kind, a, b, ca, cb, newer)) <==> x in book
    ensures x in book ==> Serve(book, Settle(kind, a, b, ca, cb, newer))[x] == book[x]
  {
    var ops := Operations(Settle(kind, a, b, ca, cb, newer));
    SettleUnfolds(book, kind, a, b, ca, cb, newer);
    OpLeavesOthers(book, ops[0], x);
    if kind.ParallelTruth? {
      OpLeavesOthers(Apply(book, ops[0]), ops[1], x);
    }
  }

  lemma SettleUnfolds(book: Book, kind: Case, a: Id, b: Id, ca: real, cb: real, newer: Option<Id>)
    ensures
      var ops := Operations(Settle(kind, a, b, ca, cb, newer));
      |ops| == (if kind.ParallelTruth? then 2 else 1)
      && Serve(book, Settle(kind, a, b, ca, cb, newer)) ==
           if kind.ParallelTruth? then Apply(Apply(book, ops[0]), ops[1]) else Apply(book, ops[0])
  {
    var ops := Operations(Settle(kind, a, b, ca, cb, newer));
    if kind.ParallelTruth? {
      TwoByTwo(book, ops[0], ops[1]);
    } else {
      OneByOne(book, ops[0]);
    }
  }

  // w is in force, and l is superseded by it.
  ghost predicate Succeeds(after: Book, w: Id, l: Id) {
    {w, l} <= after.Keys && after[w].status == Active && after[l].status == Superseded && after[l].supersededBy == Some(w)
  }

  /** A settled pair ends as its case says: merged into the first; replaced by the newer or, if none is known to be newer,
      by the more confident, the first if both are as confident; both registered and untouched; or both conflicting. */
  lemma SettledAsClassified(book: Book, kind: Case, a: Id, b: Id, ca: real, cb: real, newer: Option<Id>)
    requires a != b
    ensures
      var after := Serve(book, Settle(kind, a, b, ca, cb, newer));
      match kind
      case MergeCase => Succeeds(after, a, b) && after[b].mergedInto == Some(a)
      case Replacement =>
        && (newer == None && ca >= cb ==> Succeeds(after, a, b))
        && (newer == None && ca < cb ==> Succeeds(after, b, a))
        && (newer.Some? ==> Succeeds(after, newer.value, if newer.value == a then b else a))
      case ParallelTruth =>
        && {a, b} <= after.Keys
        && (forall x :: x in {a, b} ==> after[x] == if x in book then book[x] else Rec(Active, None, None, []))
      case Conflict => {a, b} <= after.Keys && after[a].status == Conflicting && after[b].status == Conflicting
  {
    SettleUnfolds(book, kind, a, b, ca, cb, newer);
    match kind
    case Replacement =>
      var w := if newer.Some? then newer.value else if ca < cb then b else a;
      ReplaceOutcome(book, if w == a then b else a, w, "");
    case MergeCase => MergeOutcome(book, a, b, Some(a), "");
    case Conflict => ConflictOutcome(book, a, b, "");
    case ParallelTruth =>
  }

  /** More sources and more confidence put a claim in force and supersede the other; short of both nothing changes. */
  lemma WeighedByEvidence(book: Book, a: Id, b: Id, sa: int, sb: int, ca: real, cb: real)
    requires a != b
    ensures
      var after := Serve(book, Weigh(a, b, sa, sb, ca, cb));
      && (sa > sb && ca > cb ==> Succeeds(after, a, b))
      && (sb > sa && cb > ca ==> Succeeds(after, b, a))
      && (!(sa > sb && ca > cb) && !(sb > sa && cb > ca) ==> after == book)
  {
    if sa > sb && ca > cb {
      OneByOne(book, DoReplace(b, a, EVIDENCE_NOTE));
      ReplaceOutcome(book, b, a, EVIDENCE_NOTE);
    } else if sb > sa && cb > ca {
      OneByOne(book, DoReplace(a, b, EVIDENCE_NOTE));
      ReplaceOutcome(book, a, b, EVIDENCE_NOTE);
    }
  }

  /** Distinct ids, and no status SUPERSEDED given by hand. */
  predicate Careful(call: Call) {
    match call
    case Settle(_, a, b, _, _, _) => a != b
    case Weigh(a, b, _, _, _, _) => true
    case Direct(op) => Plain(op)
  }

  lemma {:induction false} PlainKeeps(b: Book, ops: seq<Op>)
    requires AllEnd(b) && forall op :: op in ops ==> Plain(op)
    ensures AllEnd(ApplyAll(b, ops))
  {
    if ops != [] {
      PlainKeeps(b, ops[..|ops| - 1]);
      assert Plain(ops[|ops| - 1]);
      SoundKeepsIff(ApplyAll(b, ops[..|ops| - 1]), ops[|ops| - 1]);
    }
  }

  /** Over any run of resolver calls and truth operations, supersession never cycles and
      always leads to a registered record that is not superseded. */
  lemma {:induction false} RunsEnd(calls: seq<Call>)
    requires forall c :: c in calls ==> Careful(c)
    ensures AllEnd(ServeAll(map[], calls))
  {
    if calls != [] {
      var front, last := calls[..|calls| - 1], calls[|calls| - 1];
      RunsEnd(front);
      assert Careful(last);
      PlainKeeps(ServeAll(map[], front), Operations(last));
    }
  }

  /** Two claims under one id: of the four cases only a merge breaks the chains. */
  lemma SameIdBreaksOnlyMerge(book: Book, kind: Case, a: Id, ca: real, cb: real, newer: Option<Id>)
    requires AllEnd(book)
    ensures AllEnd(Serve(book, Settle(kind, a, a, ca, cb, newer))) <==> kind != MergeCase
  {
    SettleUnfolds(book, kind, a, a, ca, cb, newer);
    var ops := Operations(Settle(kind, a, a, ca, cb, newer));
    SoundKeepsIff(book, ops[0]);
    if kind.ParallelTruth? {
      SoundKeepsIff(Apply(book, ops[0]), ops[1]);
    }
  }
}
