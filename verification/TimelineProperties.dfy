/**
 Whole runs of transition(): the log and the snapshots of every key describe the same history,
 point-in-time queries replay the log, and both agree with the assignments made.
 */
module TimelineProperties {
  import opened Common
  import opened Text
  import opened Timeline

  /** A snapshot belongs to the log entry that opened it and ends where the next one starts. */
  predicate SnapAt(ss: seq<Snap>, ll: seq<Transition>, i: nat)
    requires i < |ss| == |ll|
  {
    && ss[i].start == ll[i].at && ss[i].value == ll[i].toValue
    && ss[i].end == if i + 1 < |ll| then Some(ll[i + 1].at) else None
  }

  /** An entry starts from the value of the one before, changes it, and is no earlier. */
  predicate EntryAt(ll: seq<Transition>, i: nat)
    requires i < |ll|
  {
    if i == 0 then ll[0].fromValue == None
    else
      && ll[i].fromValue == Some(ll[i - 1].toValue)
      && ll[i - 1].at <= ll[i].at && Norm(ll[i - 1].toValue) != Norm(ll[i].toValue)
  }

  /** The log of one key is a chain, and its snapshots adjoin in the same order, only the last being active. */
  ghost predicate Coupled(ss: seq<Snap>, ll: seq<Transition>) {
    && |ss| == |ll|
    && (forall i: nat :: i < |ss| ==> SnapAt(ss, ll, i))
    && (forall i: nat :: i < |ll| ==> EntryAt(ll, i))
  }

  ghost predicate OfOneKey(ss: seq<Snap>, k: Key) {
    forall i :: 0 <= i < |ss| ==> ss[i].key == k
  }

  ghost predicate AllCoupled(db: Db) {
    forall k :: Coupled(OfKey(db.snaps, k), LogOf(db.log, k))
  }

  lemma {:induction false} OfKeyIsOfKey(snaps: seq<Snap>, k: Key)
    ensures OfOneKey(OfKey(snaps, k), k)
  {
    if snaps != [] {
      OfKeyIsOfKey(snaps[..|snaps| - 1], k);
    }
  }

  lemma {:induction false} NewestOnly(ss: seq<Snap>, pick: Snap -> bool, m: nat)
    requires m < |ss| && forall i :: 0 <= i < |ss| ==> (pick(ss[i]) <==> i == m)
    ensures Newest(ss, pick) == Some(m)
  {
    var n := |ss| - 1;
    if m < n {
      NewestOnly(ss[..n], pick, m);
    }
  }

  function ValueOf(s: Option<Snap>): Option<string> { if s.Some? then Some(s.value.value) else None }

  /** With one snapshot at most active, the current one is the last. */
  lemma CurrentIsLast(snaps: seq<Snap>, ll: seq<Transition>, k: Key)
    requires Coupled(OfKey(snaps, k), ll)
    ensures var ss := OfKey(snaps, k);
            |ss| == |ll| && Pick(snaps, ActiveOf(k)) == (if ss == [] then None else Some(ss[|ss| - 1]))
    ensures ValueOf(Pick(snaps, ActiveOf(k))) == if ll == [] then None else Some(ll[|ll| - 1].toValue)
  {
    var ss := OfKey(snaps, k);
    PickOfKey(snaps, k, ActiveOf(k));
    OfKeyIsOfKey(snaps, k);
    if ss != [] {
      forall i | 0 <= i < |ss| ensures ActiveOf(k)(ss[i]) <==> i == |ss| - 1 {
        assert SnapAt(ss, ll, i);
      }
      NewestOnly(ss, ActiveOf(k), |ss| - 1);
      assert SnapAt(ss, ll, |ss| - 1);
    }
  }

  lemma CoupledGrows(ss: seq<Snap>, ll: seq<Transition>, k: Key, s: Snap, e: Transition)
    requires Coupled(ss, ll) && OfOneKey(ss, k)
    requires s.end.None? && s.start == e.at && s.value == e.toValue
    requires e.fromValue == if ll == [] then None else Some(ll[|ll| - 1].toValue)
    requires ll != [] ==> ll[|ll| - 1].at <= e.at && Norm(ll[|ll| - 1].toValue) != Norm(e.toValue)
    ensures Coupled(CloseActive(ss, k, e.at) + [s], ll + [e])
  {
    var after, log := CloseActive(ss, k, e.at) + [s], ll + [e];
    forall i: nat | i < |after| ensures SnapAt(after, log, i) {
      if i < |ss| {
        assert SnapAt(ss, ll, i);
        assert after[i] == Closed(ss[i], k, e.at);
      }
    }
    forall i: nat | i < |log| ensures EntryAt(log, i) {
      if i < |ll| {
        assert EntryAt(ll, i);
      }
    }
  }

  lemma CoupledIgnoresConfidence(ss: seq<Snap>, ll: seq<Transition>, j: nat, s: Snap)
    requires Coupled(ss, ll) && j < |ss| && s.start == ss[j].start && s.value == ss[j].value && s.end == ss[j].end
    ensures Coupled(ss[j := s], ll)
  {
    var after := ss[j := s];
    forall i: nat | i < |after| ensures SnapAt(after, ll, i) {
      assert SnapAt(ss, ll, i);
    }
  }

  /** Reasserting a value changes no interval and no log entry. */
  lemma ReinforcingKeepsCoupled(db: Db, a: Assignment, increment: real)
    requires AllCoupled(db)
    requires var cur := Newest(db.snaps, ActiveOf(KeyOf(a)));
             cur.Some? && Norm(db.snaps[cur.value].value) == Norm(a.value)
    ensures AllCoupled(Transit(db, a, increment)) && Transit(db, a, increment).log == db.log
  {
    var cur := Newest(db.snaps, ActiveOf(KeyOf(a))).value;
    var after := Transit(db, a, increment);
    forall k ensures Coupled(OfKey(after.snaps, k), LogOf(after.log, k)) {
      assert Coupled(OfKey(db.snaps, k), LogOf(db.log, k));
      var s := Reinforced(db.snaps[cur], increment, a.source);
      if s.key != k {
        OtherKeyUpdate(db.snaps, cur, s, k);
      } else {
        OwnKeyUpdate(db.snaps, cur, s);
        CoupledIgnoresConfidence(OfKey(db.snaps, k), LogOf(db.log, k), |OfKey(db.snaps[..cur], k)|, s);
      }
    }
  }

  lemma {:induction false} LogOfBounded(log: seq<Transition>, k: Key, now: int)
    requires forall i :: 0 <= i < |log| ==> log[i].at <= now
    ensures forall i :: 0 <= i < |LogOf(log, k)| ==> LogOf(log, k)[i].at <= now
  {
    if log != [] {
      LogOfBounded(log[..|log| - 1], k, now);
    }
  }

  lemma OfKeySnoc(snaps: seq<Snap>, s: Snap, k: Key)
    ensures OfKey(snaps + [s], k) == OfKey(snaps, k) + (if s.key == k then [s] else [])
  {
    assert (snaps + [s])[..|snaps|] == snaps;
  }

  lemma LogOfSnoc(log: seq<Transition>, e: Transition, k: Key)
    ensures LogOf(log + [e], k) == LogOf(log, k) + (if e.key == k then [e] else [])
  {
    assert (log + [e])[..|log|] == log;
  }

  // What a change makes of the snapshots of one key.
  lemma ChangedKey(db: Db, a: Assignment, increment: real, k: Key)
    requires AllCoupled(db)
    requires var cur := Newest(db.snaps, ActiveOf(KeyOf(a)));
             cur.Some? ==> Norm(db.snaps[cur.value].value) != Norm(a.value)
    ensures OfKey(Transit(db, a, increment).snaps, k) ==
              if k == KeyOf(a) then CloseActive(OfKey(db.snaps, k), k, a.at) + [NewSnap(a)] else OfKey(db.snaps, k)
  {
    var c := KeyOf(a);
    var ss := OfKey(db.snaps, k);
    assert Coupled(OfKey(db.snaps, c), LogOf(db.log, c));
    CurrentIsLast(db.snaps, LogOf(db.log, c), c);
    if Newest(db.snaps, ActiveOf(c)).Some? {
      OfKeyClose(db.snaps, c, a.at, k);
      OfKeySnoc(CloseActive(db.snaps, c, a.at), NewSnap(a), k);
    } else {
      OfKeySnoc(db.snaps, NewSnap(a), k);
      assert k == c ==> ss == [] && CloseActive(ss, k, a.at) == [];
    }
  }

  lemma ChangingKeepsKey(db: Db, a: Assignment, increment: real, k: Key)
    requires AllCoupled(db) && forall i :: 0 <= i < |db.log| ==> db.log[i].at <= a.at
    requires var cur := Newest(db.snaps, ActiveOf(KeyOf(a)));
             cur.Some? ==> Norm(db.snaps[cur.value].value) != Norm(a.value)
    ensures Coupled(OfKey(Transit(db, a, increment).snaps, k), LogOf(Transit(db, a, increment).log, k))
  {
    var c := KeyOf(a);
    var cur := Newest(db.snaps, ActiveOf(c));
    var e := Transition(c, if cur.Some? then Some(db.snaps[cur.value].value) else None, a.value, a.at, a.reason);
    var ss, ll := OfKey(db.snaps, k), LogOf(db.log, k);
    assert Coupled(ss, ll);
    ChangedKey(db, a, increment, k);
    LogOfSnoc(db.log, e, k);
    assert Transit(db, a, increment).log == db.log + [e];
    if k == c {
      CurrentIsLast(db.snaps, ll, c);
      assert e.fromValue == ValueOf(Pick(db.snaps, ActiveOf(c)));
      LogOfBounded(db.log, c, a.at);
      OfKeyIsOfKey(db.snaps, c);
      CoupledGrows(ss, ll, c, NewSnap(a), e);
    } else {
      assert ll + [] == ll;
    }
  }

  lemma ChangingKeepsCoupled(db: Db, a: Assignment, increment: real)
    requires AllCoupled(db) && forall i :: 0 <= i < |db.log| ==> db.log[i].at <= a.at
    requires var cur := Newest(db.snaps, ActiveOf(KeyOf(a)));
             cur.Some? ==> Norm(db.snaps[cur.value].value) != Norm(a.value)
    ensures AllCoupled(Transit(db, a, increment))
  {
    var after := Transit(db, a, increment);
    forall k ensures Coupled(OfKey(after.snaps, k), LogOf(after.log, k)) {
      ChangingKeepsKey(db, a, increment, k);
    }
  }

  // ----- runs

  ghost predicate Ordered(assignments: seq<Assignment>) {
    forall i, j :: 0 <= i < j < |assignments| ==> assignments[i].at <= assignments[j].at
  }

  const EMPTY: Db := Db([], [])

  lemma {:induction false} RunCoupled(assignments: seq<Assignment>, increment: real)
    requires Ordered(assignments)
    ensures AllCoupled(TransitAll(EMPTY, assignments, increment))
    ensures assignments != [] ==>
              forall i :: 0 <= i < |TransitAll(EMPTY, assignments, increment).log| ==>
                TransitAll(EMPTY, assignments, increment).log[i].at <= assignments[|assignments| - 1].at
  {
    if assignments != [] {
      var n := |assignments| - 1;
      var db, a := TransitAll(EMPTY, assignments[..n], increment), assignments[n];
      RunCoupled(assignments[..n], increment);
      assert forall i :: 0 <= i < |db.log| ==> db.log[i].at <= a.at;
      var cur := Newest(db.snaps, ActiveOf(KeyOf(a)));
      if cur.Some? && Norm(db.snaps[cur.value].value) == Norm(a.value) {
        ReinforcingKeepsCoupled(db, a, increment);
      } else {
        ChangingKeepsCoupled(db, a, increment);
      }
    }
  }

  // ----- point in time

  /** The value of the last log entry at or before t. */
  function LogAt(ll: seq<Transition>, t: int): Option<string> {
    if ll == [] then None
    else if ll[|ll| - 1].at <= t then Some(ll[|ll| - 1].toValue)
    else LogAt(ll[..|ll| - 1], t)
  }

  ghost predicate Ascending(ll: seq<Transition>) {
    forall i: nat, j: nat :: i < j < |ll| ==> ll[i].at <= ll[j].at
  }

  lemma {:induction false} EntriesAscend(ll: seq<Transition>)
    requires forall i: nat :: i < |ll| ==> EntryAt(ll, i)
    ensures Ascending(ll)
  {
    if ll != [] {
      var n := |ll| - 1;
      forall i: nat | i < n ensures EntryAt(ll[..n], i) {
        assert EntryAt(ll, i);
      }
      EntriesAscend(ll[..n]);
      assert EntryAt(ll, n);
      forall i: nat | i < n ensures ll[i].at <= ll[n].at {
        assert ll[..n][i].at <= ll[..n][n - 1].at;
      }
    }
  }

  // The first n entries are the ones at or before t.
  lemma {:induction false} LogAtSplit(ll: seq<Transition>, t: int) returns (n: nat)
    requires Ascending(ll)
    ensures n <= |ll| && LogAt(ll, t) == if n == 0 then None else Some(ll[n - 1].toValue)
    ensures forall i :: 0 <= i < |ll| ==> (ll[i].at <= t <==> i < n)
  {
    if ll == [] {
      n := 0;
    } else if ll[|ll| - 1].at <= t {
      n := |ll|;
    } else {
      n := LogAtSplit(ll[..|ll| - 1], t);
    }
  }

  /** at_time(t) is the value of the last transition logged at or before t, or nothing. */
  lemma AtTimeReplaysLog(db: Db, k: Key, t: int)
    requires AllCoupled(db)
    ensures ValueOf(Pick(db.snaps, CoveringOf(k, t))) == LogAt(LogOf(db.log, k), t)
  {
    var ss, ll := OfKey(db.snaps, k), LogOf(db.log, k);
    assert Coupled(ss, ll);
    PickOfKey(db.snaps, k, CoveringOf(k, t));
    OfKeyIsOfKey(db.snaps, k);
    EntriesAscend(ll);
    var n := LogAtSplit(ll, t);
    forall i: nat | i < |ss| ensures CoveringOf(k, t)(ss[i]) <==> i + 1 == n {
      assert SnapAt(ss, ll, i);
      assert ll[i].at <= t <==> i < n;
      assert i + 1 < |ll| ==> (ll[i + 1].at <= t <==> i + 1 < n);
    }
    if n > 0 {
      assert SnapAt(ss, ll, n - 1);
      NewestOnly(ss, CoveringOf(k, t), n - 1);
    } else {
      assert Newest(ss, CoveringOf(k, t)).None?;
    }
  }

  /** The current value is the value of the last transition. */
  lemma CurrentEndsLog(db: Db, k: Key)
    requires AllCoupled(db)
    ensures var ll := LogOf(db.log, k);
            ValueOf(Pick(db.snaps, ActiveOf(k))) == if ll == [] then None else Some(ll[|ll| - 1].toValue)
  {
    assert Coupled(OfKey(db.snaps, k), LogOf(db.log, k));
    CurrentIsLast(db.snaps, LogOf(db.log, k), k);
  }

  /** The last value assigned to k at or before t. */
  function LastAssigned(assignments: seq<Assignment>, k: Key, t: int): Option<string> {
    if assignments == [] then None
    else
      var a := assignments[|assignments| - 1];
      if KeyOf(a) == k && a.at <= t then Some(a.value) else LastAssigned(assignments[..|assignments| - 1], k, t)
  }

  function NormOf(v: Option<string>): Option<string> { if v.Some? then Some(Norm(v.value)) else None }

  lemma {:induction false} LogTellsAssignments(assignments: seq<Assignment>, increment: real, k: Key, t: int)
    requires Ordered(assignments)
    ensures NormOf(LogAt(LogOf(TransitAll(EMPTY, assignments, increment).log, k), t))
            == NormOf(LastAssigned(assignments, k, t))
  {
    if assignments != [] {
      var n := |assignments| - 1;
      var front, a := assignments[..n], assignments[n];
      var db := TransitAll(EMPTY, front, increment);
      LogTellsAssignments(front, increment, k, t);
      RunCoupled(front, increment);
      if KeyOf(a) == k {
        LogStep(db, a, increment, k, t);
      } else {
        OtherLogStays(db, a, increment, k);
      }
    }
  }

  lemma OtherLogStays(db: Db, a: Assignment, increment: real, k: Key)
    requires k != KeyOf(a)
    ensures LogOf(Transit(db, a, increment).log, k) == LogOf(db.log, k)
  {
    var after := Transit(db, a, increment);
    if after.log != db.log {
      LogOfSnoc(db.log, after.log[|db.log|], k);
    }
  }

  lemma LogStep(db: Db, a: Assignment, increment: real, k: Key, t: int)
    requires AllCoupled(db) && k == KeyOf(a) && forall i :: 0 <= i < |db.log| ==> db.log[i].at <= a.at
    ensures var after := LogAt(LogOf(Transit(db, a, increment).log, k), t);
            if a.at <= t then NormOf(after) == Some(Norm(a.value)) else NormOf(after) == NormOf(LogAt(LogOf(db.log, k), t))
  {
    var ll := LogOf(db.log, k);
    var cur := Newest(db.snaps, ActiveOf(k));
    assert Coupled(OfKey(db.snaps, k), ll);
    CurrentIsLast(db.snaps, ll, k);
    assert ValueOf(Pick(db.snaps, ActiveOf(k))) == if cur.Some? then Some(db.snaps[cur.value].value) else None;
    if cur.Some? && Norm(db.snaps[cur.value].value) == Norm(a.value) {
      LogOfBounded(db.log, k, a.at);
      assert Transit(db, a, increment).log == db.log;
    } else {
      var e := Transition(k, ValueOf(Pick(db.snaps, ActiveOf(k))), a.value, a.at, a.reason);
      assert Transit(db, a, increment).log == db.log + [e];
      LogOfSnoc(db.log, e, k);
      assert (ll + [e])[..|ll|] == ll;
    }
  }

  /** For every key and time, at_time() gives, up to normalisation, the last value assigned by then. */
  lemma AtTimeIsLastAssigned(assignments: seq<Assignment>, increment: real, k: Key, t: int)
    requires Ordered(assignments)
    ensures NormOf(ValueOf(Pick(TransitAll(EMPTY, assignments, increment).snaps, CoveringOf(k, t))))
            == NormOf(LastAssigned(assignments, k, t))
  {
    RunCoupled(assignments, increment);
    AtTimeReplaysLog(TransitAll(EMPTY, assignments, increment), k, t);
    LogTellsAssignments(assignments, increment, k, t);
  }

  /** No two snapshots of a key cover the same time, and one at most is active. */
  lemma NeverTwoAtOnce(db: Db, k: Key, i: nat, j: nat, t: int)
    requires AllCoupled(db) && i < j < |OfKey(db.snaps, k)|
    ensures !(Covers(OfKey(db.snaps, k)[i], t) && Covers(OfKey(db.snaps, k)[j], t))
    ensures !IsActive(OfKey(db.snaps, k)[i])
    ensures j == i + 1 ==> OfKey(db.snaps, k)[i].end == Some(OfKey(db.snaps, k)[j].start)
  {
    var ll := LogOf(db.log, k);
    assert Coupled(OfKey(db.snaps, k), ll);
    EntriesAscend(ll);
    assert SnapAt(OfKey(db.snaps, k), ll, i) && SnapAt(OfKey(db.snaps, k), ll, j);
  }
}
