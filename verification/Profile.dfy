/**
 core/profile_evolver.py: a profile changed only through audited updates. Timestamps and the saved file
 are left out; JSON values stand as they are.
 */
module Profiles {
  import opened Common

  datatype Field = Name | Education | Interests | Projects | Goals

  predicate IsScalar(f: Field) { f.Name? || f.Education? }

  datatype Value = Text(text: string) | Items(items: seq<string>)

  datatype Profile = Profile(name: string, education: string, interests: seq<string>, projects: seq<string>,
                             goals: seq<string>, notes: seq<string>)

  const EMPTY: Profile := Profile("", "", [], [], [], [])

  datatype AuditEntry = AuditEntry(field: Field, oldValue: Value, newValue: Value, source: string, confidence: real)

  datatype VersionedProfile = VersionedProfile(version: nat, profile: Profile, confidences: map<Field, real>,
                                               audit: seq<AuditEntry>)

  const FRESH: VersionedProfile := VersionedProfile(1, EMPTY, map[], [])

  function Get(p: Profile, f: Field): Value {
    match f
    case Name => Text(p.name)
    case Education => Text(p.education)
    case Interests => Items(p.interests)
    case Projects => Items(p.projects)
    case Goals => Items(p.goals)
  }

  function Put(p: Profile, f: Field, v: Value): Profile {
    match (f, v)
    case (Name, Text(s)) => p.(name := s)
    case (Education, Text(s)) => p.(education := s)
    case (Interests, Items(xs)) => p.(interests := xs)
    case (Projects, Items(xs)) => p.(projects := xs)
    case (Goals, Items(xs)) => p.(goals := xs)
    case _ => p
  }

  datatype Request = Request(name: Option<string>, education: Option<string>, interests: Option<seq<string>>,
                             projects: Option<seq<string>>, goals: Option<seq<string>>, confidence: real, source: string)

  // ----- one update

  function Stored(confidences: map<Field, real>, f: Field): real { if f in confidences then confidences[f] else 0.0 }

  /** A proposed text is taken up if there is one, it is no less sure than the stored one, and it differs. */
  predicate Accepts(current: string, proposed: Option<string>, confidence: real, stored: real) {
    proposed.Some? && proposed.value != "" && (current == "" || confidence >= stored) && proposed.value != current
  }

  /** The additions that are not empty and not in the list yet; repeats among them stay. */
  function NewItems(current: seq<string>, additions: seq<string>): seq<string> {
    if additions == [] then []
    else NewItems(current, additions[..|additions| - 1]) +
         (var x := additions[|additions| - 1]; if x != "" && x !in current then [x] else [])
  }

  function ScalarStep(vp: VersionedProfile, f: Field, proposed: Option<string>, confidence: real, source: string): VersionedProfile
    requires IsScalar(f)
  {
    var current := Get(vp.profile, f).text;
    if Accepts(current, proposed, confidence, Stored(vp.confidences, f)) then
      vp.(profile := Put(vp.profile, f, Text(proposed.value)), confidences := vp.confidences[f := confidence],
          audit := vp.audit + [AuditEntry(f, Text(current), Text(proposed.value), source, confidence)])
    else vp
  }

  function ListStep(vp: VersionedProfile, f: Field, additions: Option<seq<string>>, confidence: real, source: string): VersionedProfile
    requires !IsScalar(f)
  {
    var current := Get(vp.profile, f).items;
    var items := if additions.Some? then NewItems(current, additions.value) else [];
    if items == [] then vp
    else
      vp.(profile := Put(vp.profile, f, Items(current + items)),
          audit := vp.audit + [AuditEntry(f, Items(current), Items(current + items), source, confidence)])
  }

  function ScalarSteps(vp: VersionedProfile, r: Request): VersionedProfile {
    var a := ScalarStep(vp, Name, r.name, r.confidence, r.source);
    ScalarStep(a, Education, r.education, r.confidence, r.source)
  }

  function Steps(vp: VersionedProfile, r: Request): VersionedProfile {
    var b := ScalarSteps(vp, r);
    var c := ListStep(b, Interests, r.interests, r.confidence, r.source);
    var d := ListStep(c, Projects, r.projects, r.confidence, r.source);
    ListStep(d, Goals, r.goals, r.confidence, r.source)
  }

  /** Whether the update returns True. */
  predicate Changes(vp: VersionedProfile, r: Request) { |Steps(vp, r).audit| > |vp.audit| }

  /** Audit entries accept no confidence outside [0, 1]: such an update raises, if it changes anything. */
  predicate Raises(vp: VersionedProfile, r: Request) { Changes(vp, r) && !(0.0 <= r.confidence <= 1.0) }

  // The prepared profile takes effect, as a new version, if anything was audited and nothing raised.
  function Commit(vp: VersionedProfile, steps: VersionedProfile, raises: bool): VersionedProfile {
    if raises || |steps.audit| <= |vp.audit| then vp else steps.(version := vp.version + 1)
  }

  function Updated(vp: VersionedProfile, r: Request): VersionedProfile {
    Commit(vp, Steps(vp, r), Raises(vp, r))
  }

  function UpdateAll(rs: seq<Request>): VersionedProfile {
    if rs == [] then FRESH else Updated(UpdateAll(rs[..|rs| - 1]), rs[|rs| - 1])
  }

  // ----- the audit trail

  function Replay(audit: seq<AuditEntry>): Profile {
    if audit == [] then EMPTY
    else Put(Replay(audit[..|audit| - 1]), audit[|audit| - 1].field, audit[|audit| - 1].newValue)
  }

  /** Each entry's old value is what the field held just before it. */
  ghost predicate OldValuesAgree(audit: seq<AuditEntry>) {
    forall i :: 0 <= i < |audit| ==> audit[i].oldValue == Get(Replay(audit[..i]), audit[i].field)
  }

  function LastConfidence(audit: seq<AuditEntry>, f: Field): Option<real> {
    if audit == [] then None
    else if audit[|audit| - 1].field == f then Some(audit[|audit| - 1].confidence)
    else LastConfidence(audit[..|audit| - 1], f)
  }

  predicate NoEntry(audit: seq<AuditEntry>, f: Field) {
    forall i :: 0 <= i < |audit| ==> audit[i].field != f
  }

  predicate NoneSurer(audit: seq<AuditEntry>, f: Field, confidence: real) {
    forall i :: 0 <= i < |audit| ==> audit[i].field == f ==> audit[i].confidence <= confidence
  }

  /** A scalar's stored confidence is that of its last entry, which no earlier entry exceeds;
      without an entry there is none, and the text is empty. */
  ghost predicate ConfidenceAgrees(vp: VersionedProfile, f: Field) {
    if f in vp.confidences then
      && LastConfidence(vp.audit, f) == Some(vp.confidences[f]) && NoneSurer(vp.audit, f, vp.confidences[f])
      && Get(vp.profile, f) != Text("")
    else NoEntry(vp.audit, f) && Get(vp.profile, f) == Text("")
  }

  ghost predicate TrailAgrees(vp: VersionedProfile) {
    Replay(vp.audit) == vp.profile && OldValuesAgree(vp.audit)
  }

  ghost predicate Sound(vp: VersionedProfile) {
    TrailAgrees(vp) && ConfidenceAgrees(vp, Name) && ConfidenceAgrees(vp, Education)
  }

  lemma ReplaySnoc(audit: seq<AuditEntry>, e: AuditEntry)
    ensures Replay(audit + [e]) == Put(Replay(audit), e.field, e.newValue)
    ensures forall f :: LastConfidence(audit + [e], f) == if f == e.field then Some(e.confidence) else LastConfidence(audit, f)
  {
    assert (audit + [e])[..|audit|] == audit;
  }

  lemma OldValueAppends(audit: seq<AuditEntry>, e: AuditEntry)
    requires OldValuesAgree(audit) && e.oldValue == Get(Replay(audit), e.field)
    ensures OldValuesAgree(audit + [e])
  {
    var after := audit + [e];
    forall i | 0 <= i < |after| ensures after[i].oldValue == Get(Replay(after[..i]), after[i].field) {
      assert after[..i] == audit[..i];
      assert i == |audit| ==> audit[..i] == audit;
    }
  }

  lemma GetPut(p: Profile, f: Field, v: Value, g: Field)
    requires IsScalar(f) <==> v.Text?
    ensures Get(Put(p, f, v), g) == if g == f then v else Get(p, g)
  {}

  /** A field written with an entry: what both kinds of step do when they change anything. */
  ghost predicate Written(vp: VersionedProfile, after: VersionedProfile, e: AuditEntry) {
    && (IsScalar(e.field) <==> e.newValue.Text?) && e.oldValue == Get(vp.profile, e.field)
    && after.profile == Put(vp.profile, e.field, e.newValue) && after.audit == vp.audit + [e]
    && after.confidences == (if IsScalar(e.field) then vp.confidences[e.field := e.confidence] else vp.confidences)
    && (IsScalar(e.field) ==> e.newValue != Text("") && (e.oldValue == Text("") || e.confidence >= Stored(vp.confidences, e.field)))
  }

  lemma WrittenTrail(vp: VersionedProfile, after: VersionedProfile, e: AuditEntry)
    requires TrailAgrees(vp) && Written(vp, after, e)
    ensures TrailAgrees(after)
  {
    ReplaySnoc(vp.audit, e);
    OldValueAppends(vp.audit, e);
  }

  lemma WrittenConfidence(vp: VersionedProfile, after: VersionedProfile, e: AuditEntry, f: Field)
    requires ConfidenceAgrees(vp, f) && IsScalar(f) && Written(vp, after, e)
    ensures ConfidenceAgrees(after, f)
  {
    ReplaySnoc(vp.audit, e);
    GetPut(vp.profile, e.field, e.newValue, f);
    if f == e.field {
      assert NoneSurer(vp.audit, f, e.confidence);
    }
  }

  lemma WrittenSound(vp: VersionedProfile, after: VersionedProfile, e: AuditEntry)
    requires Sound(vp) && Written(vp, after, e)
    ensures Sound(after)
  {
    WrittenTrail(vp, after, e);
    WrittenConfidence(vp, after, e, Name);
    WrittenConfidence(vp, after, e, Education);
  }

  lemma ScalarStepSound(vp: VersionedProfile, f: Field, proposed: Option<string>, confidence: real, source: string)
    requires Sound(vp) && IsScalar(f)
    ensures Sound(ScalarStep(vp, f, proposed, confidence, source))
  {
    var after := ScalarStep(vp, f, proposed, confidence, source);
    var current := Get(vp.profile, f).text;
    if Accepts(current, proposed, confidence, Stored(vp.confidences, f)) {
      WrittenSound(vp, after, AuditEntry(f, Text(current), Text(proposed.value), source, confidence));
    }
  }

  lemma ListStepSound(vp: VersionedProfile, f: Field, additions: Option<seq<string>>, confidence: real, source: string)
    requires Sound(vp) && !IsScalar(f)
    ensures Sound(ListStep(vp, f, additions, confidence, source))
  {
    var after := ListStep(vp, f, additions, confidence, source);
    var current := Get(vp.profile, f).items;
    var items := if additions.Some? then NewItems(current, additions.value) else [];
    if items != [] {
      WrittenSound(vp, after, AuditEntry(f, Items(current), Items(current + items), source, confidence));
    }
  }

  lemma StepsSound(vp: VersionedProfile, r: Request)
    requires Sound(vp)
    ensures Sound(Steps(vp, r))
  {
    var a := ScalarStep(vp, Name, r.name, r.confidence, r.source);
    ScalarStepSound(vp, Name, r.name, r.confidence, r.source);
    var b := ScalarStep(a, Education, r.education, r.confidence, r.source);
    ScalarStepSound(a, Education, r.education, r.confidence, r.source);
    var c := ListStep(b, Interests, r.interests, r.confidence, r.source);
    ListStepSound(b, Interests, r.interests, r.confidence, r.source);
    var d := ListStep(c, Projects, r.projects, r.confidence, r.source);
    ListStepSound(c, Projects, r.projects, r.confidence, r.source);
    ListStepSound(d, Goals, r.goals, r.confidence, r.source);
  }

  lemma SoundIgnoresVersion(vp: VersionedProfile, version: nat)
    requires Sound(vp)
    ensures Sound(vp.(version := version))
  {
    assert ConfidenceAgrees(vp.(version := version), Name) && ConfidenceAgrees(vp.(version := version), Education);
  }

  /** How many of the updates returned True. */
  function TrueUpdates(rs: seq<Request>): nat {
    if rs == [] then 0
    else
      var before := UpdateAll(rs[..|rs| - 1]);
      var r := rs[|rs| - 1];
      TrueUpdates(rs[..|rs| - 1]) + (if Changes(before, r) && !Raises(before, r) then 1 else 0)
  }

  lemma UpdatedSound(vp: VersionedProfile, r: Request)
    requires Sound(vp)
    ensures Sound(Updated(vp, r))
  {
    StepsSound(vp, r);
    CommitSound(vp, Steps(vp, r), Raises(vp, r));
  }

  lemma CommitSound(vp: VersionedProfile, steps: VersionedProfile, raises: bool)
    requires Sound(vp) && Sound(steps)
    ensures Sound(Commit(vp, steps, raises))
  {
    SoundIgnoresVersion(steps, vp.version + 1);
  }

  lemma VersionCounts(vp: VersionedProfile, r: Request)
    ensures Updated(vp, r).version == vp.version + (if Changes(vp, r) && !Raises(vp, r) then 1 else 0)
  {}

  /** After any run of updates the audit trail replays to the current profile, with truthful old values and
      confidences, and the version counts the updates that returned True. */
  lemma {:induction false} RunsSound(rs: seq<Request>)
    ensures Sound(UpdateAll(rs)) && UpdateAll(rs).version == 1 + TrueUpdates(rs)
  {
    if rs == [] {
      assert Sound(FRESH);
    } else {
      RunsSound(rs[..|rs| - 1]);
      UpdatedSound(UpdateAll(rs[..|rs| - 1]), rs[|rs| - 1]);
      VersionCounts(UpdateAll(rs[..|rs| - 1]), rs[|rs| - 1]);
    }
  }

  // ----- which proposals come into force

  /** The text a request proposes for a scalar field. */
  function Proposed(r: Request, f: Field): Option<string>
    requires IsScalar(f)
  {
    if f.Name? then r.name else r.education
  }

  predicate ValidConfidence(r: Request) { 0.0 <= r.confidence <= 1.0 }

  // Two versions agree on a field: on its value and, for a scalar, on its confidence.
  predicate Agree(a: VersionedProfile, b: VersionedProfile, f: Field) {
    Get(a.profile, f) == Get(b.profile, f) && (f in a.confidences <==> f in b.confidences)
    && Stored(a.confidences, f) == Stored(b.confidences, f)
  }

  lemma ScalarElsewhere(vp: VersionedProfile, f: Field, proposed: Option<string>, confidence: real, source: string, g: Field)
    requires IsScalar(f) && g != f
    ensures Agree(ScalarStep(vp, f, proposed, confidence, source), vp, g)
  {
  }

  lemma ListElsewhere(vp: VersionedProfile, f: Field, additions: Option<seq<string>>, confidence: real, source: string, g: Field)
    requires !IsScalar(f) && g != f
    ensures Agree(ListStep(vp, f, additions, confidence, source), vp, g)
  {
  }

  lemma ScalarLocal(a: VersionedProfile, b: VersionedProfile, f: Field, proposed: Option<string>, confidence: real, source: string)
    requires IsScalar(f) && Agree(a, b, f)
    ensures Agree(ScalarStep(a, f, proposed, confidence, source), ScalarStep(b, f, proposed, confidence, source), f)
  {
  }

  lemma ListsLeaveScalars(vp: VersionedProfile, r: Request, f: Field)
    requires IsScalar(f)
    ensures Agree(Steps(vp, r), ScalarSteps(vp, r), f)
  {
    var b := ScalarSteps(vp, r);
    var c := ListStep(b, Interests, r.interests, r.confidence, r.source);
    var d := ListStep(c, Projects, r.projects, r.confidence, r.source);
    ListElsewhere(b, Interests, r.interests, r.confidence, r.source, f);
    ListElsewhere(c, Projects, r.projects, r.confidence, r.source, f);
    ListElsewhere(d, Goals, r.goals, r.confidence, r.source, f);
  }

  lemma ScalarsAfter(vp: VersionedProfile, r: Request, f: Field)
    requires IsScalar(f)
    ensures Agree(Steps(vp, r), ScalarStep(vp, f, Proposed(r, f), r.confidence, r.source), f)
  {
    var a := ScalarStep(vp, Name, r.name, r.confidence, r.source);
    ListsLeaveScalars(vp, r, f);
    if f.Name? {
      ScalarElsewhere(a, Education, r.education, r.confidence, r.source, Name);
    } else {
      ScalarElsewhere(vp, Name, r.name, r.confidence, r.source, Education);
      ScalarLocal(a, vp, Education, r.education, r.confidence, r.source);
    }
  }

  lemma StepsOnlyAppend(vp: VersionedProfile, r: Request)
    ensures |Steps(vp, r).audit| >= |vp.audit|
    ensures |Steps(vp, r).audit| == |vp.audit| ==> Steps(vp, r) == vp
  {
  }

  /** With a valid confidence a proposed text is in force after the update exactly if the field was empty, or the update
      is no less sure than the stored confidence, or the text is the old one; else the old text stays. */
  lemma InForceIff(vp: VersionedProfile, r: Request, f: Field)
    requires ValidConfidence(r) && IsScalar(f) && Proposed(r, f).Some? && Proposed(r, f).value != ""
    ensures var (before, offer, after) := (Get(vp.profile, f), Text(Proposed(r, f).value), Get(Updated(vp, r).profile, f));
      && (after == offer <==> before == Text("") || (f in vp.confidences ==> r.confidence >= vp.confidences[f]) || offer == before)
      && (after == offer || after == before)
  {
    ScalarsAfter(vp, r, f);
    StepsOnlyAppend(vp, r);
  }

  /** Without a text to propose a scalar field stays, and its confidence changes only with its text. */
  lemma ScalarStays(vp: VersionedProfile, r: Request, f: Field)
    requires IsScalar(f)
    ensures Proposed(r, f) in {None, Some("")} ==> Get(Updated(vp, r).profile, f) == Get(vp.profile, f)
    ensures Get(Updated(vp, r).profile, f) == Get(vp.profile, f) ==>
      Stored(Updated(vp, r).confidences, f) == Stored(vp.confidences, f)
    ensures Get(Updated(vp, r).profile, f) != Get(vp.profile, f) ==>
      Updated(vp, r).confidences[f := r.confidence] == Updated(vp, r).confidences
  {
    ScalarsAfter(vp, r, f);
  }

  /** In any run a valid, non-empty proposal that is not in force after its update was less sure than the last one written. */
  lemma RefusedWasLessSure(rs: seq<Request>, r: Request, f: Field)
    requires ValidConfidence(r) && IsScalar(f) && Proposed(r, f).Some? && Proposed(r, f).value != ""
    requires Get(UpdateAll(rs + [r]).profile, f) != Text(Proposed(r, f).value)
    ensures var last := LastConfidence(UpdateAll(rs).audit, f); last.Some? && r.confidence < last.value
  {
    assert (rs + [r])[..|rs|] == rs;
    RunsSound(rs);
    InForceIff(UpdateAll(rs), r, f);
  }

  function Additions(r: Request, f: Field): seq<string>
    requires !IsScalar(f)
  {
    match f
    case Interests => if r.interests.Some? then r.interests.value else []
    case Projects => if r.projects.Some? then r.projects.value else []
    case _ => if r.goals.Some? then r.goals.value else []
  }

  lemma ScalarsLeaveLists(vp: VersionedProfile, r: Request, f: Field)
    requires !IsScalar(f)
    ensures Agree(ScalarSteps(vp, r), vp, f)
  {
    var a := ScalarStep(vp, Name, r.name, r.confidence, r.source);
    ScalarElsewhere(vp, Name, r.name, r.confidence, r.source, f);
    ScalarElsewhere(a, Education, r.education, r.confidence, r.source, f);
  }

  lemma ListStepExtends(vp: VersionedProfile, f: Field, additions: Option<seq<string>>, confidence: real, source: string)
    requires !IsScalar(f)
    ensures var current := Get(vp.profile, f).items;
      Get(ListStep(vp, f, additions, confidence, source).profile, f)
      == Items(current + NewItems(current, if additions.Some? then additions.value else []))
  {
  }

  lemma StepsExtend(vp: VersionedProfile, r: Request, f: Field)
    requires !IsScalar(f)
    ensures Get(Steps(vp, r).profile, f) == Items(Get(vp.profile, f).items + NewItems(Get(vp.profile, f).items, Additions(r, f)))
  {
    var b := ScalarSteps(vp, r);
    var c := ListStep(b, Interests, r.interests, r.confidence, r.source);
    var d := ListStep(c, Projects, r.projects, r.confidence, r.source);
    ScalarsLeaveLists(vp, r, f);
    match f
    case Interests =>
      ListStepExtends(b, f, r.interests, r.confidence, r.source);
      ListElsewhere(c, Projects, r.projects, r.confidence, r.source, f);
      ListElsewhere(d, Goals, r.goals, r.confidence, r.source, f);
    case Projects =>
      ListElsewhere(b, Interests, r.interests, r.confidence, r.source, f);
      ListStepExtends(c, f, r.projects, r.confidence, r.source);
      ListElsewhere(d, Goals, r.goals, r.confidence, r.source, f);
    case _ =>
      ListElsewhere(b, Interests, r.interests, r.confidence, r.source, f);
      ListElsewhere(c, Projects, r.projects, r.confidence, r.source, f);
      ListStepExtends(d, f, r.goals, r.confidence, r.source);
  }

  /** With a valid confidence every list is extended by its new items. */
  lemma ListsAfter(vp: VersionedProfile, r: Request, f: Field)
    requires ValidConfidence(r) && !IsScalar(f)
    ensures Get(Updated(vp, r).profile, f) == Items(Get(vp.profile, f).items + NewItems(Get(vp.profile, f).items, Additions(r, f)))
  {
    StepsExtend(vp, r, f);
    StepsOnlyAppend(vp, r);
  }

  /** An update with a valid confidence returns True exactly if it leaves another profile, and with an invalid one never. */
  lemma ChangesIff(vp: VersionedProfile, r: Request)
    ensures ValidConfidence(r) ==> (Changes(vp, r) <==> Updated(vp, r).profile != vp.profile)
    ensures !ValidConfidence(r) ==> Updated(vp, r) == vp
  {
    StepsOnlyAppend(vp, r);
  }

  // ----- lists

  /** The new items of two batches of additions are those of the first and then those of the second. */
  lemma {:induction false} NewItemsConcat(current: seq<string>, a: seq<string>, b: seq<string>)
    ensures NewItems(current, a + b) == NewItems(current, a) + NewItems(current, b)
  {
    if b == [] {
      assert a + b == a;
    } else {
      var n := |b| - 1;
      assert (a + b)[..|a| + n] == a + b[..n];
      NewItemsConcat(current, a, b[..n]);
    }
  }

  lemma {:induction false} NewItemsAre(current: seq<string>, additions: seq<string>, x: string)
    ensures x in NewItems(current, additions) <==> x in additions && x != "" && x !in current
  {
    if additions != [] {
      NewItemsAre(current, additions[..|additions| - 1], x);
      assert additions == additions[..|additions| - 1] + [additions[|additions| - 1]];
    }
  }

  /** What repeats among the additions is empty or in the list already. */
  predicate NoNewRepeats(current: seq<string>, additions: seq<string>) {
    forall i, j :: 0 <= i < j < |additions| && additions[i] == additions[j] ==> additions[i] == "" || additions[i] in current
  }

  lemma {:induction false} NewItemsDistinctIff(current: seq<string>, additions: seq<string>)
    ensures Distinct(NewItems(current, additions)) <==> NoNewRepeats(current, additions)
  {
    if additions != [] {
      var n := |additions| - 1;
      var front, x := additions[..n], additions[n];
      var items := NewItems(current, front);
      NewItemsDistinctIff(current, front);
      NewItemsAre(current, front, x);
      assert NoNewRepeats(current, additions) <==>
        NoNewRepeats(current, front) && (x in front ==> x == "" || x in current);
      if x != "" && x !in current {
        SnocDistinctIff(items, x);
      } else {
        assert items + [] == items;
      }
    }
  }

  lemma SnocDistinctIff(s: seq<string>, x: string)
    ensures Distinct(s + [x]) <==> Distinct(s) && x !in s
  {
    var t := s + [x];
    if Distinct(t) {
      assert forall i :: 0 <= i < |s| ==> s[i] == t[i] && t[i] != t[|s|];
    }
  }

  lemma TailDistinct(a: seq<string>, b: seq<string>)
    requires Distinct(a + b)
    ensures Distinct(b)
  {
    assert forall i :: 0 <= i < |b| ==> b[i] == (a + b)[|a| + i];
  }

  /** A list without repeats stays so exactly if every addition that comes twice is empty or in the list already. */
  lemma DistinctIff(current: seq<string>, additions: seq<string>)
    requires Distinct(current)
    ensures Distinct(current + NewItems(current, additions)) <==> NoNewRepeats(current, additions)
  {
    var items := NewItems(current, additions);
    NewItemsDistinctIff(current, additions);
    forall x | x in current ensures x !in items {
      NewItemsAre(current, additions, x);
    }
    if Distinct(items) {
      DistinctAppend(current, items);
    } else if Distinct(current + items) {
      TailDistinct(current, items);
    }
  }

  /** One call can repeat an item. */
  lemma RepeatsInOneCall()
    ensures var r := Request(None, None, Some(["go", "go"]), None, None, 1.0, "extraction");
            Updated(FRESH, r).profile.interests == ["go", "go"]
  {
    assert ["go", "go"][..1] == ["go"];
    assert NewItems([], ["go"]) == ["go"];
    assert NewItems([], ["go", "go"]) == ["go", "go"];
  }

  // What one scalar contributes to an update: the value, the confidences and the audit entries so far.
  function ScalarResult(f: Field, current: string, proposed: Option<string>, r: Request, confidences: map<Field, real>,
                        audit: seq<AuditEntry>): (string, map<Field, real>, seq<AuditEntry>) {
    if Accepts(current, proposed, r.confidence, Stored(confidences, f)) then
      (proposed.value, confidences[f := r.confidence],
       audit + [AuditEntry(f, Text(current), Text(proposed.value), r.source, r.confidence)])
    else (current, confidences, audit)
  }

  function ListResult(f: Field, current: seq<string>, additions: Option<seq<string>>, r: Request,
                      audit: seq<AuditEntry>): (seq<string>, seq<AuditEntry>) {
    var items := if additions.Some? then NewItems(current, additions.value) else [];
    if items == [] then (current, audit)
    else (current + items, audit + [AuditEntry(f, Items(current), Items(current + items), r.source, r.confidence)])
  }

  function Draft(vp: VersionedProfile, p: Profile, confidences: map<Field, real>, audit: seq<AuditEntry>): VersionedProfile {
    VersionedProfile(vp.version, p, confidences, vp.audit + audit)
  }

  lemma ScalarPrepared(vp: VersionedProfile, p: Profile, c: map<Field, real>, a: seq<AuditEntry>, f: Field,
                       proposed: Option<string>, r: Request)
    requires IsScalar(f)
    ensures var x := ScalarResult(f, Get(p, f).text, proposed, r, c, a);
            ScalarStep(Draft(vp, p, c, a), f, proposed, r.confidence, r.source) == Draft(vp, Put(p, f, Text(x.0)), x.1, x.2)
  {
    var current := Get(p, f).text;
    if Accepts(current, proposed, r.confidence, Stored(c, f)) {
      ConcatAssociates(vp.audit, a, [AuditEntry(f, Text(current), Text(proposed.value), r.source, r.confidence)]);
    }
  }

  lemma ListPrepared(vp: VersionedProfile, p: Profile, c: map<Field, real>, a: seq<AuditEntry>, f: Field,
                     additions: Option<seq<string>>, r: Request)
    requires !IsScalar(f)
    ensures var x := ListResult(f, Get(p, f).items, additions, r, a);
            ListStep(Draft(vp, p, c, a), f, additions, r.confidence, r.source) == Draft(vp, Put(p, f, Items(x.0)), c, x.1)
  {
    var current := Get(p, f).items;
    var items := if additions.Some? then NewItems(current, additions.value) else [];
    if items != [] {
      ConcatAssociates(vp.audit, a, [AuditEntry(f, Items(current), Items(current + items), r.source, r.confidence)]);
    }
  }

  /** Preparing the five fields one after the other comes to the steps of the update. */
  lemma PreparedIsSteps(vp: VersionedProfile, r: Request)
    ensures var n := ScalarResult(Name, vp.profile.name, r.name, r, vp.confidences, []);
            var e := ScalarResult(Education, vp.profile.education, r.education, r, n.1, n.2);
            var i := ListResult(Interests, vp.profile.interests, r.interests, r, e.2);
            var p := ListResult(Projects, vp.profile.projects, r.projects, r, i.1);
            var g := ListResult(Goals, vp.profile.goals, r.goals, r, p.1);
            Steps(vp, r) == Draft(vp, Profile(n.0, e.0, i.0, p.0, g.0, vp.profile.notes), e.1, g.1)
  {
    var p0 := vp.profile;
    var n := ScalarResult(Name, p0.name, r.name, r, vp.confidences, []);
    ScalarPrepared(vp, p0, vp.confidences, [], Name, r.name, r);
    assert Draft(vp, p0, vp.confidences, []) == vp;
    var p1 := p0.(name := n.0);
    var e := ScalarResult(Education, p1.education, r.education, r, n.1, n.2);
    ScalarPrepared(vp, p1, n.1, n.2, Education, r.education, r);
    var p2 := p1.(education := e.0);
    var i := ListResult(Interests, p2.interests, r.interests, r, e.2);
    ListPrepared(vp, p2, e.1, e.2, Interests, r.interests, r);
    var p3 := p2.(interests := i.0);
    var p := ListResult(Projects, p3.projects, r.projects, r, i.1);
    ListPrepared(vp, p3, e.1, i.1, Projects, r.projects, r);
    var p4 := p3.(projects := p.0);
    ListPrepared(vp, p4, e.1, p.1, Goals, r.goals, r);
  }

  // ----- the object

  class ProfileEvolver {
    var vp: VersionedProfile

    constructor ()
      ensures vp == FRESH
    {
      vp := FRESH;
    }

    /** The changes of one call are prepared on the side and take effect together, unless an audit entry
        rejects the confidence; then nothing happens. */
    method Update(r: Request) returns (changed: Option<bool>)
      modifies this
      ensures vp == Updated(old(vp), r)
      ensures changed == if Raises(old(vp), r) then None else Some(Changes(old(vp), r))
    {
      var confidences, audit := vp.confidences, [];
      var newName, newEducation, newInterests, newProjects, newGoals;
      newName, confidences, audit := Scalar(Name, vp.profile.name, r.name, r, confidences, audit);
      newEducation, confidences, audit := Scalar(Education, vp.profile.education, r.education, r, confidences, audit);
      newInterests, audit := ListExtend(Interests, vp.profile.interests, r.interests, r, audit);
      newProjects, audit := ListExtend(Projects, vp.profile.projects, r.projects, r, audit);
      newGoals, audit := ListExtend(Goals, vp.profile.goals, r.goals, r, audit);
      PreparedIsSteps(vp, r);
      if audit != [] && !(0.0 <= r.confidence <= 1.0) {
        return None;
      }
      if audit != [] {
        var profile := Profile(newName, newEducation, newInterests, newProjects, newGoals, vp.profile.notes);
        vp := VersionedProfile(vp.version + 1, profile, confidences, vp.audit + audit);
      }
      changed := Some(audit != []);
    }
  }

  method Scalar(f: Field, current: string, proposed: Option<string>, r: Request, confidences: map<Field, real>,
                audit: seq<AuditEntry>)
    returns (value: string, confidences': map<Field, real>, audit': seq<AuditEntry>)
    ensures (value, confidences', audit') == ScalarResult(f, current, proposed, r, confidences, audit)
  {
    value, confidences', audit' := current, confidences, audit;
    if proposed.None? || proposed.value == "" {
      return;
    }
    if current != "" && r.confidence < Stored(confidences, f) {
      return;
    }
    if proposed.value != current {
      audit' := audit + [AuditEntry(f, Text(current), Text(proposed.value), r.source, r.confidence)];
      confidences' := confidences[f := r.confidence];
      value := proposed.value;
    }
  }

  method ListExtend(f: Field, current: seq<string>, additions: Option<seq<string>>, r: Request, audit: seq<AuditEntry>)
    returns (value: seq<string>, audit': seq<AuditEntry>)
    ensures (value, audit') == ListResult(f, current, additions, r, audit)
  {
    value, audit' := current, audit;
    if additions.None? || additions.value == [] {
      return;
    }
    var items := NewItems(current, additions.value);
    if items == [] {
      return;
    }
    audit' := audit + [AuditEntry(f, Items(current), Items(current + items), r.source, r.confidence)];
    value := current + items;
  }
}
