/**
 Tracked state as values: the snapshots of core/state_tracker.py and the transition log of
 core/state_transition.py, and what any run of timestamped assignments makes of them.
 Timestamps are integers; every call gives its own.
 */
module Timeline {
  import opened Common
  import opened Text

  datatype Key = Key(entity: string, attribute: string)

  datatype Snap = Snap(key: Key, value: string, start: int, end: Option<int>, confidence: real, sources: seq<int>)

  datatype Transition = Transition(key: Key, fromValue: Option<string>, toValue: string, at: int, reason: string)

  /** One call of transition(). */
  datatype Assignment = Assignment(entity: string, attribute: string, value: string,
                                   confidence: real, source: Option<int>, reason: string, at: int)

  function KeyFor(entity: string, attribute: string): Key { Key(Strip(Lower(entity)), Strip(Lower(attribute))) }

  function KeyOf(a: Assignment): Key { KeyFor(a.entity, a.attribute) }

  predicate IsActive(s: Snap) { s.end.None? }

  predicate Covers(s: Snap, t: int) { s.start <= t && (s.end.None? || t < s.end.value) }

  function ActiveOf(k: Key): Snap -> bool { (s: Snap) => s.key == k && IsActive(s) }

  function CoveringOf(k: Key, t: int): Snap -> bool { (s: Snap) => s.key == k && Covers(s, t) }

  /** Of the snapshots picked, the first of those with the latest start. */
  function Newest(snaps: seq<Snap>, pick: Snap -> bool): (r: Option<nat>)
    ensures r.Some? ==> r.value < |snaps| && pick(snaps[r.value])
  {
    if snaps == [] then None
    else
      var n := |snaps| - 1;
      var best := Newest(snaps[..n], pick);
      if pick(snaps[n]) && (best.None? || snaps[best.value].start < snaps[n].start) then Some(n) else best
  }

  /** It is picked, none picked starts later, and the earlier of the list start before it; None means nothing is picked. */
  lemma {:induction false} NewestIsLatest(snaps: seq<Snap>, pick: Snap -> bool)
    ensures match Newest(snaps, pick)
      case None => forall s :: s in snaps ==> !pick(s)
      case Some(i) => pick(snaps[i]) && forall j :: 0 <= j < |snaps| && pick(snaps[j]) ==>
        snaps[j].start <= snaps[i].start && (j < i ==> snaps[j].start < snaps[i].start)
  {
    if snaps != [] {
      NewestIsLatest(snaps[..|snaps| - 1], pick);
    }
  }

  // ----- the operations

  function Sources(source: Option<int>): seq<int> { if source.Some? then [source.value] else [] }

  function Closed(s: Snap, k: Key, t: int): (r: Snap)
    ensures r.key == s.key && r.start == s.start && r.value == s.value
  {
    if s.key == k && IsActive(s) then s.(end := Some(t)) else s
  }

  function CloseActive(snaps: seq<Snap>, k: Key, t: int): (r: seq<Snap>)
    ensures |r| == |snaps| && forall i :: 0 <= i < |snaps| ==> r[i] == Closed(snaps[i], k, t)
  {
    seq(|snaps|, i requires 0 <= i < |snaps| => Closed(snaps[i], k, t))
  }

  function Reinforced(s: Snap, increment: real, source: Option<int>): (r: Snap)
    ensures r.key == s.key && r.start == s.start && r.value == s.value && r.end == s.end
  {
    s.(confidence := if s.confidence + increment < 1.0 then s.confidence + increment else 1.0,
       sources := if source.Some? && source.value !in s.sources then s.sources + [source.value] else s.sources)
  }

  /** The same claim confirmed n times over. */
  function Confirmed(s: Snap, increment: real, source: Option<int>, n: nat): Snap {
    if n == 0 then s else Reinforced(Confirmed(s, increment, source, n - 1), increment, source)
  }

  /** Each confirmation adds the increment to the confidence until it is one, and the source is listed once. */
  lemma {:induction false} ConfirmedGrows(s: Snap, increment: real, source: Option<int>, n: nat)
    requires increment >= 0.0 && s.confidence <= 1.0
    ensures var after := Confirmed(s, increment, source, n);
      && after.confidence == (if s.confidence + n as real * increment <= 1.0 then s.confidence + n as real * increment else 1.0)
      && after.sources == (if n > 0 && source.Some? && source.value !in s.sources then s.sources + [source.value] else s.sources)
      && after.(confidence := s.confidence, sources := s.sources) == s
  {
    if n > 0 {
      ConfirmedGrows(s, increment, source, n - 1);
      assert n as real * increment == (n - 1) as real * increment + increment;
    }
  }

  function NewSnap(a: Assignment): Snap { Snap(KeyOf(a), a.value, a.at, None, a.confidence, Sources(a.source)) }

  datatype Db = Db(snaps: seq<Snap>, log: seq<Transition>)

  function Transit(db: Db, a: Assignment, increment: real): Db {
    var k := KeyOf(a);
    var cur := Newest(db.snaps, ActiveOf(k));
    if cur.Some? && Norm(db.snaps[cur.value].value) == Norm(a.value) then
      db.(snaps := db.snaps[cur.value := Reinforced(db.snaps[cur.value], increment, a.source)])
    else
      Db((if cur.Some? then CloseActive(db.snaps, k, a.at) else db.snaps) + [NewSnap(a)],
         db.log + [Transition(k, if cur.Some? then Some(db.snaps[cur.value].value) else None, a.value, a.at, a.reason)])
  }

  function TransitAll(db: Db, assignments: seq<Assignment>, increment: real): Db {
    if assignments == [] then db
    else Transit(TransitAll(db, assignments[..|assignments| - 1], increment), assignments[|assignments| - 1], increment)
  }

  // ----- one key at a time

  function OfKey(snaps: seq<Snap>, k: Key): seq<Snap> {
    if snaps == [] then []
    else OfKey(snaps[..|snaps| - 1], k) + (if snaps[|snaps| - 1].key == k then [snaps[|snaps| - 1]] else [])
  }

  function LogOf(log: seq<Transition>, k: Key): seq<Transition> {
    if log == [] then []
    else LogOf(log[..|log| - 1], k) + (if log[|log| - 1].key == k then [log[|log| - 1]] else [])
  }

  function Pick(snaps: seq<Snap>, pick: Snap -> bool): Option<Snap> {
    var i := Newest(snaps, pick);
    if i.Some? then Some(snaps[i.value]) else None
  }

  /** A query about one key sees only the snapshots of that key. */
  lemma {:induction false} PickOfKey(snaps: seq<Snap>, k: Key, pick: Snap -> bool)
    requires forall s :: pick(s) ==> s.key == k
    ensures Pick(snaps, pick) == Pick(OfKey(snaps, k), pick)
  {
    if snaps != [] {
      var n := |snaps| - 1;
      PickOfKey(snaps[..n], k, pick);
      var front := OfKey(snaps[..n], k);
      if snaps[n].key == k {
        assert OfKey(snaps, k)[..|front|] == front;
      } else {
        assert OfKey(snaps, k) == front;
      }
    }
  }

  lemma {:induction false} OtherKeyUpdate(snaps: seq<Snap>, i: nat, s: Snap, k: Key)
    requires i < |snaps| && s.key == snaps[i].key != k
    ensures OfKey(snaps[i := s], k) == OfKey(snaps, k)
  {
    var n := |snaps| - 1;
    if i == n {
      assert snaps[i := s][..n] == snaps[..n];
    } else {
      OtherKeyUpdate(snaps[..n], i, s, k);
      assert snaps[i := s][..n] == snaps[..n][i := s];
    }
  }

  lemma {:induction false} OwnKeyUpdate(snaps: seq<Snap>, i: nat, s: Snap)
    requires i < |snaps| && s.key == snaps[i].key
    ensures var j, own := |OfKey(snaps[..i], s.key)|, OfKey(snaps, s.key);
            j < |own| && own[j] == snaps[i] && OfKey(snaps[i := s], s.key) == own[j := s]
  {
    var n := |snaps| - 1;
    if i == n {
      assert snaps[i := s][..n] == snaps[..n];
    } else {
      OwnKeyUpdate(snaps[..n], i, s);
      assert snaps[i := s][..n] == snaps[..n][i := s];
      assert snaps[..n][..i] == snaps[..i];
    }
  }

  lemma {:induction false} OfKeyClose(snaps: seq<Snap>, c: Key, t: int, k: Key)
    ensures OfKey(CloseActive(snaps, c, t), k) == if c == k then CloseActive(OfKey(snaps, k), c, t) else OfKey(snaps, k)
  {
    if snaps != [] {
      var n := |snaps| - 1;
      OfKeyClose(snaps[..n], c, t, k);
      assert CloseActive(snaps, c, t)[..n] == CloseActive(snaps[..n], c, t);
    }
  }
}
