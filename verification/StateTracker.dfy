/**
 The snapshot objects of core/state_tracker.py and the engine of core/state_transition.py,
 proved against the operations on values of module Timeline.
 */
module StateTrackers {
  import opened Common
  import opened Text
  import opened Timeline

  class StateSnapshot {
    const entity: string
    const attribute: string
    const value: string
    const startTime: int
    var endTime: Option<int>
    var confidence: real
    var sources: seq<int>

    constructor (entity: string, attribute: string, value: string, startTime: int, confidence: real, sources: seq<int>)
      ensures View() == Snap(Key(entity, attribute), value, startTime, None, confidence, sources)
    {
      this.entity, this.attribute, this.value, this.startTime := entity, attribute, value, startTime;
      endTime, this.confidence, this.sources := None, confidence, sources;
    }

    function View(): Snap
      reads this
    {
      Snap(Key(entity, attribute), value, startTime, endTime, confidence, sources)
    }

    method Close(t: int)
      modifies this
      ensures View() == old(View()).(end := Some(t))
    {
      endTime := Some(t);
    }

    method Reinforce(increment: real, source: Option<int>)
      modifies this
      ensures View() == Reinforced(old(View()), increment, source)
    {
      confidence := if confidence + increment < 1.0 then confidence + increment else 1.0;
      if source.Some? && source.value !in sources {
        sources := sources + [source.value];
      }
    }
  }

  function Views(ss: seq<StateSnapshot>): (r: seq<Snap>)
    reads ss
    ensures |r| == |ss| && forall i :: 0 <= i < |ss| ==> r[i] == ss[i].View()
  {
    seq(|ss|, i requires 0 <= i < |ss| reads ss => ss[i].View())
  }

  class StateTracker {
    var snapshots: seq<StateSnapshot>

    constructor ()
      ensures Valid() && Views(snapshots) == []
    {
      snapshots := [];
    }

    ghost predicate Valid()
      reads this
    {
      Distinct(snapshots)
    }

    method Record(entity: string, attribute: string, value: string, confidence: real, source: Option<int>, t: int)
      returns (made: StateSnapshot)
      requires Valid()
      modifies this
      ensures Valid() && fresh(made) && snapshots == old(snapshots) + [made]
      ensures Views(snapshots) ==
        old(Views(snapshots)) + [Snap(KeyFor(entity, attribute), value, t, None, confidence, Sources(source))]
    {
      made := new StateSnapshot(Strip(Lower(entity)), Strip(Lower(attribute)), value, t, confidence, Sources(source));
      assert made !in snapshots;
      snapshots := snapshots + [made];
    }

    method CloseActive(entity: string, attribute: string, t: int) returns (closed: seq<StateSnapshot>)
      requires Valid()
      modifies snapshots
      ensures Views(snapshots) == Timeline.CloseActive(old(Views(snapshots)), KeyFor(entity, attribute), t)
      ensures closed == Picked(snapshots, old(Views(snapshots)), ActiveOf(KeyFor(entity, attribute)))
    {
      var k := KeyFor(entity, attribute);
      ghost var before := Views(snapshots);
      closed := [];
      for i := 0 to |snapshots|
        invariant forall j :: 0 <= j < i ==> snapshots[j].View() == Closed(before[j], k, t)
        invariant forall j :: i <= j < |snapshots| ==> snapshots[j].View() == before[j]
        invariant closed == Picked(snapshots[..i], before[..i], ActiveOf(k))
      {
        PickedNext(snapshots, before, ActiveOf(k), i);
        var hit := CloseIfActive(snapshots[i], k, t);
        closed := if hit then closed + [snapshots[i]] else closed;
      }
      assert snapshots[..|snapshots|] == snapshots && before[..|snapshots|] == before;
    }

    method CloseIfActive(s: StateSnapshot, k: Key, t: int) returns (hit: bool)
      modifies s
      ensures s.View() == Closed(old(s.View()), k, t) && hit == ActiveOf(k)(old(s.View()))
    {
      hit := s.entity == k.entity && s.attribute == k.attribute && s.endTime.None?;
      if hit {
        s.Close(t);
      }
    }

    /** The active snapshot with the latest start. */
    function Current(entity: string, attribute: string): (r: Option<StateSnapshot>)
      reads this, snapshots
      ensures Latest(r, ActiveOf(KeyFor(entity, attribute)))
      ensures (if r.Some? then Some(r.value.View()) else None)
              == Pick(Views(snapshots), ActiveOf(KeyFor(entity, attribute)))
    {
      LatestOf(ActiveOf(KeyFor(entity, attribute)));
      var i := Newest(Views(snapshots), ActiveOf(KeyFor(entity, attribute)));
      if i.Some? then Some(snapshots[i.value]) else None
    }

    /** The snapshot covering t with the latest start. */
    function AtTime(entity: string, attribute: string, t: int): (r: Option<StateSnapshot>)
      reads this, snapshots
      ensures Latest(r, CoveringOf(KeyFor(entity, attribute), t))
      ensures (if r.Some? then Some(r.value.View()) else None)
              == Pick(Views(snapshots), CoveringOf(KeyFor(entity, attribute), t))
    {
      LatestOf(CoveringOf(KeyFor(entity, attribute), t));
      var i := Newest(Views(snapshots), CoveringOf(KeyFor(entity, attribute), t));
      if i.Some? then Some(snapshots[i.value]) else None
    }

    /** r is a picked snapshot such that none picked starts later; it is None exactly if none is picked. */
    ghost predicate Latest(r: Option<StateSnapshot>, pick: Snap -> bool)
      reads this, snapshots, if r.Some? then {r.value} else {}
    {
      match r
      case None => forall s :: s in snapshots ==> !pick(s.View())
      case Some(best) =>
        && best in snapshots && pick(best.View())
        && forall s :: s in snapshots && pick(s.View()) ==> s.startTime <= best.startTime
    }

    lemma LatestOf(pick: Snap -> bool)
      ensures var i := Newest(Views(snapshots), pick);
        Latest(if i.Some? then Some(snapshots[i.value]) else None, pick)
    {
      NewestIsLatest(Views(snapshots), pick);
      forall s | s in snapshots ensures s.View() in Views(snapshots) {
        var j :| 0 <= j < |snapshots| && snapshots[j] == s;
        assert Views(snapshots)[j] == s.View();
      }
    }
  }

  /** The snapshots whose values were picked, in order. */
  function Picked(ss: seq<StateSnapshot>, views: seq<Snap>, pick: Snap -> bool): seq<StateSnapshot>
    requires |views| == |ss|
  {
    if ss == [] then []
    else
      var n := |ss| - 1;
      Picked(ss[..n], views[..n], pick) + (if pick(views[n]) then [ss[n]] else [])
  }

  lemma PickedNext(ss: seq<StateSnapshot>, views: seq<Snap>, pick: Snap -> bool, i: nat)
    requires i < |ss| == |views|
    ensures Picked(ss[..i + 1], views[..i + 1], pick)
         == Picked(ss[..i], views[..i], pick) + (if pick(views[i]) then [ss[i]] else [])
  {
    assert ss[..i + 1][..i] == ss[..i] && views[..i + 1][..i] == views[..i];
  }

  class StateTransitionEngine {
    const tracker: StateTracker
    const increment: real
    var transitions: seq<Transition>

    constructor (tracker: StateTracker, increment: real)
      ensures this.tracker == tracker && this.increment == increment && transitions == []
    {
      this.tracker, this.increment, transitions := tracker, increment, [];
    }

    /** Snapshots and log together. */
    ghost function Look(): Db
      reads this, tracker, tracker.snapshots
    {
      Db(Views(tracker.snapshots), transitions)
    }

    method Transit(a: Assignment) returns (snapshot: StateSnapshot, transition: Option<Transition>)
      requires tracker.Valid()
      modifies this, tracker, tracker.snapshots
      ensures tracker.Valid() && snapshot in tracker.snapshots
      ensures tracker.snapshots == old(tracker.snapshots)
              || (fresh(snapshot) && tracker.snapshots == old(tracker.snapshots) + [snapshot])
      ensures Look() == Timeline.Transit(old(Look()), a, increment)
      ensures transitions == old(transitions) + (if transition.Some? then [transition.value] else [])
      ensures transition.Some? ==>
        snapshot.View() == Snap(KeyOf(a), a.value, a.at, None, a.confidence, if a.source.Some? then [a.source.value] else [])
    {
      var current := tracker.Current(a.entity, a.attribute);
      if current.Some? && Norm(current.value.value) == Norm(a.value) {
        Confirm(a, current.value);
        return current.value, None;
      }
      snapshot, transition := Change(a, current);
    }

    // The value is the current one already.
    method Confirm(a: Assignment, current: StateSnapshot)
      requires tracker.Valid() && tracker.Current(a.entity, a.attribute) == Some(current)
      requires Norm(current.value) == Norm(a.value)
      modifies current
      ensures Look() == Timeline.Transit(old(Look()), a, increment)
    {
      ghost var before := Look();
      ghost var i := Newest(before.snaps, ActiveOf(KeyOf(a))).value;
      assert tracker.snapshots[i] == current;
      current.Reinforce(increment, a.source);
      assert Views(tracker.snapshots) == before.snaps[i := Reinforced(before.snaps[i], increment, a.source)];
    }

    // The value is a new one.
    method Change(a: Assignment, current: Option<StateSnapshot>)
      returns (snapshot: StateSnapshot, transition: Option<Transition>)
      requires tracker.Valid() && tracker.Current(a.entity, a.attribute) == current
      requires current.Some? ==> Norm(current.value.value) != Norm(a.value)
      modifies this, tracker, tracker.snapshots
      ensures tracker.Valid() && fresh(snapshot) && tracker.snapshots == old(tracker.snapshots) + [snapshot]
      ensures Look() == Timeline.Transit(old(Look()), a, increment)
      ensures transition.Some? && transitions == old(transitions) + [transition.value]
      ensures snapshot.View() == Snap(KeyOf(a), a.value, a.at, None, a.confidence, Sources(a.source))
    {
      if current.Some? {
        var _ := tracker.CloseActive(a.entity, a.attribute, a.at);
      }
      snapshot := tracker.Record(a.entity, a.attribute, a.value, a.confidence, a.source, a.at);
      assert Views(tracker.snapshots)[|tracker.snapshots| - 1] == snapshot.View();
      transition := Some(Transition(KeyOf(a), if current.Some? then Some(current.value.value) else None, a.value, a.at, a.reason));
      transitions := transitions + [transition.value];
    }
  }
}
