/** Optional values and facts about sequences that several modules share. */
module Common {
  datatype Option<+T> = None | Some(value: T)

  predicate Distinct<T(==)>(s: seq<T>) {
    forall i, j :: 0 <= i < j < |s| ==> s[i] != s[j]
  }

  lemma ConcatAssociates<T>(a: seq<T>, b: seq<T>, c: seq<T>)
    ensures a + b + c == a + (b + c)
  {
  }

  lemma DistinctAppend<T>(s: seq<T>, t: seq<T>)
    requires Distinct(s) && Distinct(t)
    requires forall x :: x in s ==> x !in t
    ensures Distinct(s + t)
  {
    forall i, j | 0 <= i < j < |s + t| ensures (s + t)[i] != (s + t)[j] {
      if i < |s| <= j {
        assert s[i] in s && t[j - |s|] in t;
      }
    }
  }

  lemma MultisetSnoc<T>(s: seq<T>)
    requires s != []
    ensures multiset(s) == multiset(s[..|s| - 1]) + multiset{s[|s| - 1]}
  {
    assert s == s[..|s| - 1] + [s[|s| - 1]];
  }

  /** A sequence without repetitions is no longer than a set that holds its elements. */
  lemma {:induction false} DistinctFits<T>(s: seq<T>, bound: set<T>)
    requires Distinct(s)
    requires forall x :: x in s ==> x in bound
    ensures |s| <= |bound|
  {
    if s != [] {
      DistinctFits(s[1..], bound - {s[0]});
    }
  }

  /** Rearranging a sequence without repetitions introduces none. */
  lemma DistinctRearranged<T>(s: seq<T>, t: seq<T>)
    requires Distinct(t) && multiset(s) == multiset(t)
    ensures Distinct(s) && |s| == |t| && forall x :: x in s <==> x in t
  {
    forall x ensures x in s <==> x in t {
      assert x in multiset(s) <==> x in multiset(t);
    }
    assert |multiset(s)| == |multiset(t)|;
    forall i, j | 0 <= i < j < |s| ensures s[i] != s[j] {
      assert s == s[..i] + [s[i]] + s[i + 1..j] + [s[j]] + s[j + 1..];
      assert multiset(s)[s[i]] >= multiset{s[i], s[j]}[s[i]];
      CountsAtMostOnce(t, s[i]);
    }
  }

  lemma {:induction false} CountsAtMostOnce<T>(t: seq<T>, x: T)
    requires Distinct(t)
    ensures multiset(t)[x] <= 1
  {
    if t != [] {
      assert t == [t[0]] + t[1..];
      CountsAtMostOnce(t[1..], x);
      assert t[0] !in multiset(t[1..]);
    }
  }

  /** Pigeonhole: too long a sequence over a set visits some element twice. */
  lemma Repeats<T>(s: seq<T>, bound: set<T>) returns (i: nat, j: nat)
    requires |s| > |bound|
    requires forall x :: x in s ==> x in bound
    ensures i < j < |s| && s[i] == s[j]
  {
    if Distinct(s) {
      DistinctFits(s, bound);
    }
    i, j :| 0 <= i < j < |s| && s[i] == s[j];
  }
}

/** Python's sort: stable, so it is determined by the order alone. */
module Sorting {
  ghost predicate TotalPreorder<T(!new)>(le: (T, T) -> bool) {
    && (forall a, b :: le(a, b) || le(b, a))
    && (forall a, b, c :: le(a, b) && le(b, c) ==> le(a, c))
  }

  predicate SortedBy<T>(le: (T, T) -> bool, s: seq<T>) {
    forall i, j :: 0 <= i < j < |s| ==> le(s[i], s[j])
  }

  function Insert<T>(le: (T, T) -> bool, x: T, s: seq<T>): seq<T> {
    if s == [] || le(x, s[0]) then [x] + s else [s[0]] + Insert(le, x, s[1..])
  }

  function StableSort<T>(le: (T, T) -> bool, s: seq<T>): seq<T> {
    if s == [] then [] else Insert(le, s[0], StableSort(le, s[1..]))
  }

  lemma {:induction false} InsertAdds<T>(le: (T, T) -> bool, x: T, s: seq<T>)
    ensures multiset(Insert(le, x, s)) == multiset{x} + multiset(s)
  {
    if s != [] && !le(x, s[0]) {
      InsertAdds(le, x, s[1..]);
      assert s == [s[0]] + s[1..];
    }
  }

  lemma {:induction false} InsertKeeps<T(!new)>(le: (T, T) -> bool, x: T, s: seq<T>)
    requires TotalPreorder(le) && SortedBy(le, s)
    ensures SortedBy(le, Insert(le, x, s))
  {
    if s != [] && !le(x, s[0]) {
      InsertKeeps(le, x, s[1..]);
      InsertAdds(le, x, s[1..]);
      var t := Insert(le, x, s[1..]);
      forall j | 0 <= j < |t| ensures le(s[0], t[j]) {
        assert t[j] in multiset(t);
        assert t[j] == x || t[j] in s[1..];
      }
    }
  }

  /** Sorting returns an ordered permutation of its input. */
  lemma {:induction false} SortIsSorted<T(!new)>(le: (T, T) -> bool, s: seq<T>)
    requires TotalPreorder(le)
    ensures SortedBy(le, StableSort(le, s))
    ensures multiset(StableSort(le, s)) == multiset(s)
  {
    if s != [] {
      SortIsSorted(le, s[1..]);
      InsertKeeps(le, s[0], StableSort(le, s[1..]));
      InsertAdds(le, s[0], StableSort(le, s[1..]));
      assert s == [s[0]] + s[1..];
    }
  }

  lemma SortMembers<T(!new)>(le: (T, T) -> bool, s: seq<T>)
    requires TotalPreorder(le)
    ensures |StableSort(le, s)| == |s|
    ensures forall x :: x in StableSort(le, s) <==> x in s
  {
    SortIsSorted(le, s);
    var t := StableSort(le, s);
    assert |multiset(t)| == |multiset(s)|;
    forall x ensures x in t <==> x in s {
      assert x in t <==> x in multiset(t);
    }
  }

  function Kept<T>(pick: T -> bool, s: seq<T>): seq<T> {
    if s == [] then [] else (if pick(s[0]) then [s[0]] else []) + Kept(pick, s[1..])
  }

  lemma KeptCons<T>(pick: T -> bool, x: T, s: seq<T>)
    ensures Kept(pick, [x] + s) == if pick(x) then [x] + Kept(pick, s) else Kept(pick, s)
  {
    assert ([x] + s)[1..] == s;
  }

  // Two neighbours that are not both picked may change places.
  lemma KeptSwap<T>(pick: T -> bool, x: T, y: T, s: seq<T>, t: seq<T>)
    requires Kept(pick, t) == Kept(pick, [x] + s) && !(pick(x) && pick(y))
    ensures Kept(pick, [y] + t) == Kept(pick, [x] + ([y] + s))
  {
    KeptCons(pick, y, t);
    KeptCons(pick, x, s);
    KeptCons(pick, y, s);
    KeptCons(pick, x, [y] + s);
  }

  lemma {:induction false} InsertIsStable<T(!new)>(le: (T, T) -> bool, pick: T -> bool, x: T, s: seq<T>)
    requires forall b :: pick(x) && pick(b) ==> le(x, b)
    ensures Kept(pick, Insert(le, x, s)) == Kept(pick, [x] + s)
  {
    if s != [] && !le(x, s[0]) {
      InsertIsStable(le, pick, x, s[1..]);
      KeptSwap(pick, x, s[0], s[1..], Insert(le, x, s[1..]));
      assert s == [s[0]] + s[1..];
    }
  }

  /** Elements that tie with one another keep their order. */
  lemma {:induction false} SortIsStable<T(!new)>(le: (T, T) -> bool, pick: T -> bool, s: seq<T>)
    requires forall a, b :: pick(a) && pick(b) ==> le(a, b)
    ensures Kept(pick, StableSort(le, s)) == Kept(pick, s)
  {
    if s != [] {
      SortIsStable(le, pick, s[1..]);
      InsertIsStable(le, pick, s[0], StableSort(le, s[1..]));
      KeptCons(pick, s[0], StableSort(le, s[1..]));
    }
  }
}
