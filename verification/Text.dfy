/**
 lower() and strip() of ASCII text, as core/state_tracker.py, core/state_transition.py and
 graph/temporal_graph.py use them to normalise names and values.
 */
module Text {

  function LowerChar(c: char): char {
    if 'A' <= c <= 'Z' then (c as int + 32) as char else c
  }

  function Lower(s: string): (r: string)
    ensures |r| == |s|
  {
    if s == "" then "" else [LowerChar(s[0])] + Lower(s[1..])
  }

  predicate Space(c: char) {
    9 <= c as int <= 13 || 28 <= c as int <= 32
  }

  function StripLeft(s: string): string {
    if s != "" && Space(s[0]) then StripLeft(s[1..]) else s
  }

  function StripRight(s: string): string {
    if s != "" && Space(s[|s| - 1]) then StripRight(s[..|s| - 1]) else s
  }

  function Strip(s: string): string { StripRight(StripLeft(s)) }

  /** strip().lower(), the form values, labels and relations are compared in. */
  function Norm(s: string): string { Lower(Strip(s)) }

  lemma {:induction false} LowerAt(s: string, i: nat)
    requires i < |s|
    ensures Lower(s)[i] == LowerChar(s[i])
  {
    if i > 0 {
      LowerAt(s[1..], i - 1);
    }
  }

  lemma LowerFront(s: string, n: nat)
    requires n <= |s|
    ensures Lower(s)[..n] == Lower(s[..n])
  {
    forall i | 0 <= i < n ensures Lower(s)[i] == Lower(s[..n])[i] {
      LowerAt(s, i);
      LowerAt(s[..n], i);
    }
  }

  lemma {:induction false} LowerStripsLeft(s: string)
    ensures StripLeft(Lower(s)) == Lower(StripLeft(s))
  {
    if s != "" {
      LowerStripsLeft(s[1..]);
      assert Lower(s)[1..] == Lower(s[1..]);
    }
  }

  lemma {:induction false} LowerStripsRight(s: string)
    ensures StripRight(Lower(s)) == Lower(StripRight(s))
  {
    if s != "" {
      LowerFront(s, |s| - 1);
      LowerAt(s, |s| - 1);
      LowerStripsRight(s[..|s| - 1]);
    }
  }

  /** An upper-case letter and its lower-case form. */
  predicate SameLetter(c: char, d: char) {
    ('A' <= c <= 'Z' && d as int == c as int + 32) || ('A' <= d <= 'Z' && c as int == d as int + 32)
  }

  lemma CharsMerge(c: char, d: char)
    ensures !('A' <= LowerChar(c) <= 'Z')
    ensures LowerChar(c) == LowerChar(d) <==> c == d || SameLetter(c, d)
  {
  }

  /** Lowering leaves no capitals. */
  lemma LowerHasNoCapitals(s: string, i: nat)
    requires i < |s|
    ensures !('A' <= Lower(s)[i] <= 'Z')
  {
    LowerAt(s, i);
    CharsMerge(s[i], s[i]);
  }

  ghost predicate SameButCase(s: string, t: string) {
    |s| == |t| && forall i :: 0 <= i < |s| ==> s[i] == t[i] || SameLetter(s[i], t[i])
  }

  /** Lowering makes two texts equal exactly if they differ at most in the case of letters. */
  lemma {:induction false} LowerMergesCase(s: string, t: string)
    ensures Lower(s) == Lower(t) <==> SameButCase(s, t)
  {
    if s != "" && t != "" {
      LowerMergesCase(s[1..], t[1..]);
      CharsMerge(s[0], t[0]);
      assert Lower(s) == Lower(t) <==> LowerChar(s[0]) == LowerChar(t[0]) && Lower(s[1..]) == Lower(t[1..]) by {
        assert Lower(s)[1..] == Lower(s[1..]) && Lower(t)[1..] == Lower(t[1..]);
      }
      SameButCaseCons(s, t);
    }
  }

  lemma SameButCaseCons(s: string, t: string)
    requires s != "" && t != ""
    ensures SameButCase(s, t) <==> (s[0] == t[0] || SameLetter(s[0], t[0])) && SameButCase(s[1..], t[1..])
  {
    if SameButCase(s[1..], t[1..]) && |s| == |t| {
      forall i | 0 < i < |s| ensures s[i] == t[i] || SameLetter(s[i], t[i]) {
        assert s[1..][i - 1] == s[i] && t[1..][i - 1] == t[i];
      }
    }
  }

  /** Tab to carriage return, the four separators and the blank: the white space of ASCII. */
  predicate Blank(c: char) {
    c as int in {9, 10, 11, 12, 13, 28, 29, 30, 31, 32}
  }

  ghost predicate AllBlank(s: string) { forall i :: 0 <= i < |s| ==> Blank(s[i]) }

  lemma {:induction false} StripLeftDrops(s: string) returns (front: string)
    ensures AllBlank(front) && s == front + StripLeft(s) && (StripLeft(s) != "" ==> !Blank(StripLeft(s)[0]))
  {
    front := "";
    if s != "" && Space(s[0]) {
      var rest := StripLeftDrops(s[1..]);
      front := [s[0]] + rest;
    }
  }

  lemma {:induction false} StripRightDrops(s: string) returns (back: string)
    ensures AllBlank(back) && s == StripRight(s) + back && (StripRight(s) != "" ==> !Blank(StripRight(s)[|StripRight(s)| - 1]))
  {
    back := "";
    if s != "" && Space(s[|s| - 1]) {
      var rest := StripRightDrops(s[..|s| - 1]);
      back := rest + [s[|s| - 1]];
    }
  }

  /** Stripping drops white space at both ends and leaves none there. */
  lemma StripDrops(s: string) returns (front: string, back: string)
    ensures AllBlank(front) && AllBlank(back) && s == front + Strip(s) + back
    ensures Strip(s) != "" ==> !Blank(Strip(s)[0]) && !Blank(Strip(s)[|Strip(s)| - 1])
  {
    front := StripLeftDrops(s);
    back := StripRightDrops(StripLeft(s));
    assert Strip(s) != "" ==> Strip(s)[0] == StripLeft(s)[0];
    assert s == front + (Strip(s) + back) == front + Strip(s) + back;
  }

  /** The tracker strips after lowering, the graph before: the names come out the same. */
  lemma OrderOfStripping(s: string)
    ensures Strip(Lower(s)) == Norm(s)
  {
    LowerStripsLeft(s);
    LowerStripsRight(StripLeft(s));
  }

  lemma {:induction false} LowerTwice(s: string)
    ensures Lower(Lower(s)) == Lower(s)
  {
    if s != "" {
      LowerTwice(s[1..]);
    }
  }

  lemma {:induction false} StripLeftStops(s: string)
    ensures StripLeft(s) != "" ==> !Space(StripLeft(s)[0])
  {
    if s != "" {
      StripLeftStops(s[1..]);
    }
  }

  lemma {:induction false} StripRightKeepsHead(s: string)
    requires s != "" && !Space(s[0])
    ensures StripRight(s) != "" && StripRight(s)[0] == s[0] && !Space(StripRight(s)[|StripRight(s)| - 1])
  {
    if Space(s[|s| - 1]) {
      StripRightKeepsHead(s[..|s| - 1]);
    }
  }

  /** A normalised text stays as it is when normalised again. */
  lemma NormTwice(s: string)
    ensures Norm(Norm(s)) == Norm(s)
  {
    var left := StripLeft(s);
    StripLeftStops(s);
    if left != "" {
      StripRightKeepsHead(left);
      assert Strip(Strip(s)) == Strip(s);
    }
    OrderOfStripping(Strip(s));
    LowerTwice(Strip(s));
  }
}
