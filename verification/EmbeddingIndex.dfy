/**
 core/embedding_store.py as a list: what the index holds after each operation and what a search of it
 returns, with encoders as arbitrary functions.
 */
module EmbeddingIndex {
  import opened Common
  import opened Sorting

  type Vector = seq<real>

  /** A sentence encoder works text by text; TF-IDF is fitted on all texts at once and may fail. */
  datatype Encoder = Sbert(embed: string -> Vector, dim: nat) | TfIdf(fit: seq<string> -> Option<seq<Vector>>)

  const TFIDF_MIN_DOCS: nat := 2

  /** One row per text, and all rows of one length. */
  ghost predicate Regular(encoder: Encoder) {
    match encoder
    case Sbert(embed, dim) => forall text :: |embed(text)| == dim
    case TfIdf(fit) => forall texts :: fit(texts).Some? ==>
      |fit(texts).value| == |texts| && forall i, j :: 0 <= i < |texts| && 0 <= j < |texts| ==>
        |fit(texts).value[i]| == |fit(texts).value[j]|
  }

  /** All texts encoded together, if they can be. */
  function Encode(encoder: Encoder, texts: seq<string>): (r: Option<seq<Vector>>)
    requires Regular(encoder)
    ensures r.Some? ==> |r.value| == |texts|
  {
    match encoder
    case Sbert(embed, _) => Some(seq(|texts|, i requires 0 <= i < |texts| => embed(texts[i])))
    case TfIdf(fit) => if |texts| < TFIDF_MIN_DOCS then None else fit(texts)
  }

  type Row = (int, string)

  /** The committed rows, which are searched, and the queued ones. */
  datatype Index = Index(committed: seq<Row>, pending: seq<Row>)

  function Texts(rows: seq<Row>): (r: seq<string>)
    ensures |r| == |rows| && forall i :: 0 <= i < |rows| ==> r[i] == rows[i].1
  {
    seq(|rows|, i requires 0 <= i < |rows| => rows[i].1)
  }

  function IdsOf(rows: seq<Row>): (r: seq<int>)
    ensures |r| == |rows| && forall i :: 0 <= i < |rows| ==> r[i] == rows[i].0
  {
    seq(|rows|, i requires 0 <= i < |rows| => rows[i].0)
  }

  // ----- the operations

  predicate Encodable(encoder: Encoder, rows: seq<Row>)
    requires Regular(encoder)
  {
    Encode(encoder, Texts(rows)).Some?
  }

  function Flush(encoder: Encoder, ix: Index): Index
    requires Regular(encoder)
  {
    if ix.pending != [] && Encodable(encoder, ix.committed + ix.pending)
    then Index(ix.committed + ix.pending, []) else ix
  }

  function Queue(ix: Index, row: Row): Index { ix.(pending := ix.pending + [row]) }

  function Add(encoder: Encoder, ix: Index, row: Row): Index
    requires Regular(encoder)
  {
    Flush(encoder, Queue(ix, row))
  }

  /** The first position of an id. */
  function Find(ids: seq<int>, id: int): (r: Option<nat>)
    ensures r.Some? ==> r.value < |ids| && ids[r.value] == id && id !in ids[..r.value]
    ensures r.None? ==> id !in ids
  {
    if ids == [] then None
    else if ids[0] == id then Some(0)
    else
      match Find(ids[1..], id)
      case None => None
      case Some(i) => assert ids[..i + 1] == [ids[0]] + ids[1..][..i]; Some(i + 1)
  }

  function Without<T>(s: seq<T>, i: nat): (r: seq<T>)
    requires i < |s|
    ensures |r| == |s| - 1 && forall j :: 0 <= j < |r| ==> r[j] == s[if j < i then j else j + 1]
  {
    s[..i] + s[i + 1..]
  }

  function Remove(ix: Index, id: int): Index {
    match Find(IdsOf(ix.committed), id)
    case None => ix
    case Some(i) => ix.(committed := Without(ix.committed, i))
  }

  function Rebuild(encoder: Encoder, ix: Index, rows: seq<Row>): Index
    requires Regular(encoder)
  {
    if rows == [] || Encodable(encoder, rows) then Index(rows, []) else Index(ix.committed, [])
  }

  // ----- searching a plain list

  function Dot(a: Vector, b: Vector): real
    requires |a| == |b|
  {
    if a == [] then 0.0 else Dot(a[..|a| - 1], b[..|b| - 1]) + a[|a| - 1] * b[|b| - 1]
  }

  /** How similar each row is to the query, all encoded together with it. */
  /** The dot product adds up over the coordinates, and on one coordinate it is the product. */
  lemma {:induction false} DotSplits(a: Vector, b: Vector, c: Vector, d: Vector)
    requires |a| == |b| && |c| == |d|
    ensures Dot(a + c, b + d) == Dot(a, b) + Dot(c, d)
  {
    if c == [] {
      assert a + c == a && b + d == b;
    } else {
      var n := |c| - 1;
      assert (a + c)[..|a| + n] == a + c[..n] && (b + d)[..|b| + n] == b + d[..n];
      DotSplits(a, b, c[..n], d[..n]);
    }
  }

  lemma DotOne(x: real, y: real)
    ensures Dot([x], [y]) == x * y && Dot([], []) == 0.0
  {
    assert [x][..0] == [] && [y][..0] == [];
  }

  /** A vector is never less than orthogonal to itself. */
  lemma {:induction false} DotSelf(a: Vector)
    ensures Dot(a, a) >= 0.0
  {
    if a != [] {
      DotSelf(a[..|a| - 1]);
    }
  }

  function Similarity(encoder: Encoder, rows: seq<Row>, query: string, i: nat): Option<real>
    requires Regular(encoder) && i < |rows|
  {
    var m := Encode(encoder, Texts(rows) + [query]);
    if m.None? then None
    else if |m.value[i]| != |m.value[|rows|]| then None
    else Some(Dot(m.value[i], m.value[|rows|]))
  }

  type Hit = (int, real)

  function Higher(): (Hit, Hit) -> bool { (a: Hit, b: Hit) => a.1 >= b.1 }

  /** The rows at or above the threshold, in order. */
  function Hits(encoder: Encoder, rows: seq<Row>, query: string, threshold: real, n: nat): seq<Hit>
    requires Regular(encoder) && n <= |rows|
  {
    if n == 0 then []
    else
      var sim := Similarity(encoder, rows, query, n - 1);
      Hits(encoder, rows, query, threshold, n - 1) +
      (if sim.Some? && sim.value >= threshold then [(rows[n - 1].0, sim.value)] else [])
  }

  /** A slice [:k], which a negative k counts from the end. */
  function Cut<T>(s: seq<T>, k: int): seq<T> {
    if k >= 0 then (if k <= |s| then s[..k] else s)
    else if |s| + k >= 0 then s[..|s| + k] else []
  }

  /** What a search of the rows returns. */
  function Scan(encoder: Encoder, rows: seq<Row>, query: string, threshold: real, k: int): seq<Hit>
    requires Regular(encoder)
  {
    Cut(StableSort(Higher(), Hits(encoder, rows, query, threshold, |rows|)), k)
  }

  /** Every hit is a row at its similarity, at or above the threshold, and conversely. */
  lemma {:induction false} HitsAre(encoder: Encoder, rows: seq<Row>, query: string, threshold: real, n: nat, h: Hit)
    requires Regular(encoder) && n <= |rows|
    ensures h in Hits(encoder, rows, query, threshold, n) <==>
      exists i :: 0 <= i < n && Similarity(encoder, rows, query, i) == Some(h.1) && h.1 >= threshold && rows[i].0 == h.0
  {
    if n > 0 {
      HitsAre(encoder, rows, query, threshold, n - 1, h);
      var sim := Similarity(encoder, rows, query, n - 1);
      var front := Hits(encoder, rows, query, threshold, n - 1);
      if h in Hits(encoder, rows, query, threshold, n) && h !in front {
        assert sim == Some(h.1);
      }
    }
  }

  /** With a sentence encoder the similarity of a row is the dot product of its text's vector and the query's. */
  lemma SentenceSimilarity(embed: string -> Vector, dim: nat, rows: seq<Row>, query: string, i: nat)
    requires Regular(Sbert(embed, dim)) && i < |rows|
    ensures |embed(rows[i].1)| == |embed(query)|
    ensures Similarity(Sbert(embed, dim), rows, query, i) == Some(Dot(embed(rows[i].1), embed(query)))
  {
    var texts := Texts(rows) + [query];
    var m := Encode(Sbert(embed, dim), texts).value;
    assert m[i] == embed(texts[i]) && m[|rows|] == embed(texts[|rows|]);
  }

  /** TF-IDF compares the rows in one fit of all texts and the query, which takes two texts at least. */
  lemma FittedSimilarity(fit: seq<string> -> Option<seq<Vector>>, rows: seq<Row>, query: string, i: nat)
    requires Regular(TfIdf(fit)) && i < |rows|
    ensures var all := fit(Texts(rows) + [query]);
      if all.None? then Similarity(TfIdf(fit), rows, query, i) == None
      else |all.value| == |rows| + 1 && |all.value[i]| == |all.value[|rows|]|
           && Similarity(TfIdf(fit), rows, query, i) == Some(Dot(all.value[i], all.value[|rows|]))
    ensures |rows| == 1 ==> !Encodable(TfIdf(fit), rows)
    ensures |rows| >= 2 ==> (Encodable(TfIdf(fit), rows) <==> fit(Texts(rows)).Some?)
  {
  }

  /** The a-th hit is the row at[a]. */
  ghost predicate Located(encoder: Encoder, rows: seq<Row>, query: string, hits: seq<Hit>, at: seq<nat>)
    requires Regular(encoder)
  {
    |at| == |hits| && forall a :: 0 <= a < |at| ==>
      at[a] < |rows| && rows[at[a]].0 == hits[a].0 && Similarity(encoder, rows, query, at[a]) == Some(hits[a].1)
  }

  ghost predicate Ascending(at: seq<nat>) { forall a, b :: 0 <= a < b < |at| ==> at[a] < at[b] }

  /** Hits are listed in the order of their rows. */
  lemma {:induction false} HitsInListOrder(encoder: Encoder, rows: seq<Row>, query: string, threshold: real, n: nat)
    returns (at: seq<nat>)
    requires Regular(encoder) && n <= |rows|
    ensures Located(encoder, rows, query, Hits(encoder, rows, query, threshold, n), at) && Ascending(at + [n])
  {
    at := [];
    if n > 0 {
      var before := HitsInListOrder(encoder, rows, query, threshold, n - 1);
      var sim := Similarity(encoder, rows, query, n - 1);
      AscendingNext(before, n - 1);
      at := before;
      if sim.Some? && sim.value >= threshold {
        LocatedNext(encoder, rows, query, Hits(encoder, rows, query, threshold, n - 1), before, n - 1, (rows[n - 1].0, sim.value));
        at := before + [n - 1];
      }
    }
  }

  lemma LocatedNext(encoder: Encoder, rows: seq<Row>, query: string, hits: seq<Hit>, at: seq<nat>, i: nat, h: Hit)
    requires Regular(encoder) && Located(encoder, rows, query, hits, at)
    requires i < |rows| && rows[i].0 == h.0 && Similarity(encoder, rows, query, i) == Some(h.1)
    ensures Located(encoder, rows, query, hits + [h], at + [i])
  {
  }

  lemma AscendingNext(at: seq<nat>, n: nat)
    requires Ascending(at + [n])
    ensures Ascending(at + [n + 1]) && Ascending(at + [n] + [n + 1])
  {
    var s := at + [n];
    forall a | 0 <= a < |at| ensures at[a] < n {
      assert s[a] == at[a] && s[|at|] == n && s[a] < s[|at|];
    }
    forall a, b | 0 <= a < b < |at| ensures at[a] < at[b] {
      assert s[a] < s[b];
    }
  }

  lemma HigherIsTotal()
    ensures TotalPreorder(Higher())
  {}

  function Tied(sim: real): Hit -> bool { (h: Hit) => h.1 == sim }

  /** found and rest together are all the hits, and no hit left out is more similar than one found. */
  ghost predicate BestOf(found: seq<Hit>, rest: seq<Hit>, all: seq<Hit>) {
    && multiset(found) + multiset(rest) == multiset(all)
    && forall i, j :: 0 <= i < |found| && 0 <= j < |rest| ==> found[i].1 >= rest[j].1
  }

  lemma CutIsBest(sorted: seq<Hit>, all: seq<Hit>, n: nat)
    requires n <= |sorted| && SortedBy(Higher(), sorted) && multiset(sorted) == multiset(all)
    ensures SortedBy(Higher(), sorted[..n]) && BestOf(sorted[..n], sorted[n..], all)
  {
    assert sorted == sorted[..n] + sorted[n..];
    forall i, j | 0 <= i < n && 0 <= j < |sorted| - n ensures sorted[..n][i].1 >= sorted[n..][j].1 {
      assert Higher()(sorted[i], sorted[n + j]);
    }
  }

  lemma TiesInOrder(all: seq<Hit>)
    ensures forall sim :: Kept(Tied(sim), StableSort(Higher(), all)) == Kept(Tied(sim), all)
  {
    forall sim ensures Kept(Tied(sim), StableSort(Higher(), all)) == Kept(Tied(sim), all) {
      SortIsStable(Higher(), Tied(sim), all);
    }
  }

  lemma CutSplits(sorted: seq<Hit>, k: nat)
    ensures var found := Cut(sorted, k);
            |found| == (if k <= |sorted| then k else |sorted|)
            && found == sorted[..|found|] && found + sorted[|found|..] == sorted
  {}

  /** A search returns the most similar rows first; what it leaves out for the cut is no more similar than what
      it returns; and rows equally similar come in the order of the list. */
  lemma ScanIsBest(encoder: Encoder, rows: seq<Row>, query: string, threshold: real, k: nat) returns (rest: seq<Hit>)
    requires Regular(encoder)
    ensures var all := Hits(encoder, rows, query, threshold, |rows|);
            var found := Scan(encoder, rows, query, threshold, k);
            && |found| == (if k <= |all| then k else |all|)
            && SortedBy(Higher(), found) && BestOf(found, rest, all)
            && (forall sim :: Kept(Tied(sim), found + rest) == Kept(Tied(sim), all))
  {
    var all := Hits(encoder, rows, query, threshold, |rows|);
    rest := SortedCut(all, k);
  }

  lemma SortedCut(all: seq<Hit>, k: nat) returns (rest: seq<Hit>)
    ensures var found := Cut(StableSort(Higher(), all), k);
            && |found| == (if k <= |all| then k else |all|)
            && SortedBy(Higher(), found) && BestOf(found, rest, all)
            && (forall sim :: Kept(Tied(sim), found + rest) == Kept(Tied(sim), all))
  {
    var sorted := StableSort(Higher(), all);
    HigherIsTotal();
    SortIsSorted(Higher(), all);
    SortMembers(Higher(), all);
    CutSplits(sorted, k);
    var n := |Cut(sorted, k)|;
    rest := sorted[n..];
    CutIsBest(sorted, all, n);
    TiesInOrder(all);
  }

  // ----- the index as a plain list

  datatype Op = DoAdd(row: Row) | DoRemove(id: int) | DoRebuild(rows: seq<Row>) | DoSearch

  function Apply(encoder: Encoder, ix: Index, op: Op): Index
    requires Regular(encoder)
  {
    match op
    case DoAdd(row) => Add(encoder, ix, row)
    case DoRemove(id) => Remove(ix, id)
    case DoRebuild(rows) => Rebuild(encoder, ix, rows)
    case DoSearch => Flush(encoder, ix)
  }

  /** All rows, queued ones included. */
  function Live(ix: Index): seq<Row> { ix.committed + ix.pending }

  /** What the operation does to a plain list. */
  function OnList(rows: seq<Row>, op: Op): seq<Row> {
    match op
    case DoAdd(row) => rows + [row]
    case DoRemove(id) => (match Find(IdsOf(rows), id) case None => rows case Some(i) => Without(rows, i))
    case DoRebuild(replacement) => replacement
    case DoSearch => rows
  }

  lemma {:induction false} FindInFront(a: seq<int>, b: seq<int>, id: int)
    ensures Find(a + b, id) == match Find(a, id)
                               case Some(i) => Some(i)
                               case None => (match Find(b, id) case None => None case Some(i) => Some(|a| + i))
  {
    if a == [] {
      assert a + b == b;
    } else {
      assert (a + b)[1..] == a[1..] + b;
      FindInFront(a[1..], b, id);
    }
  }

  /** When an operation does to the index what it does to the list: a queued row is not removed, and a failed
      rebuild drops the queue but keeps the old rows. */
  predicate Faithful(encoder: Encoder, ix: Index, op: Op)
    requires Regular(encoder)
  {
    match op
    case DoRemove(id) => id in IdsOf(ix.committed) || id !in IdsOf(ix.pending)
    case DoRebuild(rows) => rows == [] || Encodable(encoder, rows) || rows == ix.committed
    case _ => true
  }

  /** The index follows the list exactly as long as the operations are faithful. */
  lemma FollowsListIff(encoder: Encoder, ix: Index, op: Op)
    requires Regular(encoder)
    ensures Live(Apply(encoder, ix, op)) == OnList(Live(ix), op) <==> Faithful(encoder, ix, op)
  {
    match op
    case DoAdd(row) => ConcatAssociates(ix.committed, ix.pending, [row]);
    case DoRemove(id) =>
      var a, b := IdsOf(ix.committed), IdsOf(ix.pending);
      FindInFront(a, b, id);
      assert IdsOf(Live(ix)) == a + b;
      if Find(a, id).Some? {
        var i := Find(a, id).value;
        assert Without(Live(ix), i) == Without(ix.committed, i) + ix.pending;
      }
    case _ =>
  }

  /** With TF-IDF the first text waits in the queue: there it cannot be removed, and rebuilding from one text loses both. */
  lemma QueueDeparts(fit: seq<string> -> Option<seq<Vector>>, first: Row, other: Row)
    requires Regular(TfIdf(fit))
    ensures var encoder := TfIdf(fit);
      var queued := Apply(encoder, Index([], []), DoAdd(first));
      && Live(Apply(encoder, queued, DoRemove(first.0))) == [first] && OnList([first], DoRemove(first.0)) == []
      && Live(Apply(encoder, queued, DoRebuild([other]))) == [] && OnList([first], DoRebuild([other])) == [other]
  {
    assert IdsOf([]) == [] && IdsOf([first]) == [first.0];
    assert Without([first], 0) == [];
  }

  /** With a sentence encoder nothing stays queued and the index is the plain list of its operations. */
  lemma {:induction false} SbertIsPlainList(encoder: Encoder, ops: seq<Op>)
    requires Regular(encoder) && encoder.Sbert?
    ensures ApplyAll(encoder, Index([], []), ops) == Index(ListAll(ops), [])
  {
    if ops != [] {
      var front, op := ops[..|ops| - 1], ops[|ops| - 1];
      SbertIsPlainList(encoder, front);
      var ix := ApplyAll(encoder, Index([], []), front);
      assert Live(ix) == ListAll(front);
      FollowsListIff(encoder, ix, op);
      var after := Apply(encoder, ix, op);
      assert after.pending == [] && Live(after) == after.committed;
    }
  }

  function ApplyAll(encoder: Encoder, ix: Index, ops: seq<Op>): Index
    requires Regular(encoder)
  {
    if ops == [] then ix else Apply(encoder, ApplyAll(encoder, ix, ops[..|ops| - 1]), ops[|ops| - 1])
  }

  function ListAll(ops: seq<Op>): seq<Row> {
    if ops == [] then [] else OnList(ListAll(ops[..|ops| - 1]), ops[|ops| - 1])
  }

  /** However two indexes came about, once their rows can be encoded a search finds the same in both. */
  lemma SearchForgetsHistory(encoder: Encoder, a: Index, b: Index)
    requires Regular(encoder) && Live(a) == Live(b) && Encodable(encoder, Live(a))
    ensures Flush(encoder, a) == Flush(encoder, b) == Index(Live(a), [])
  {
    assert a.pending == [] ==> Live(a) == a.committed;
    assert b.pending == [] ==> Live(b) == b.committed;
  }
}
