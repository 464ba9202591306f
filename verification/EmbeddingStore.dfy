/**
 The embedding store's fields and methods, proved against module EmbeddingIndex. Persistence is left out.
 */
module EmbeddingStores {
  import opened Common
  import opened Sorting
  import opened EmbeddingIndex

  function Zip(ids: seq<int>, texts: seq<string>): (rows: seq<Row>)
    requires |ids| == |texts|
    ensures |rows| == |ids| && IdsOf(rows) == ids && Texts(rows) == texts
  {
    seq(|ids|, i requires 0 <= i < |ids| => (ids[i], texts[i]))
  }

  lemma ZipAppend(ids: seq<int>, texts: seq<string>, moreIds: seq<int>, moreTexts: seq<string>)
    requires |ids| == |texts| && |moreIds| == |moreTexts|
    ensures Zip(ids + moreIds, texts + moreTexts) == Zip(ids, texts) + Zip(moreIds, moreTexts)
  {}

  /** Matrix times query, for the rows that reach the threshold. */
  function Select(ids: seq<int>, sims: seq<real>, threshold: real, n: nat): seq<Hit>
    requires |ids| == |sims| && n <= |ids|
  {
    if n == 0 then []
    else Select(ids, sims, threshold, n - 1) + (if sims[n - 1] >= threshold then [(ids[n - 1], sims[n - 1])] else [])
  }

  lemma {:induction false} SelectIsHits(encoder: Encoder, rows: seq<Row>, query: string, sims: seq<real>, threshold: real, n: nat)
    requires Regular(encoder) && |sims| == |rows| && n <= |rows|
    requires forall i :: 0 <= i < |rows| ==> Similarity(encoder, rows, query, i) == Some(sims[i])
    ensures Select(IdsOf(rows), sims, threshold, n) == Hits(encoder, rows, query, threshold, n)
  {
    if n > 0 {
      SelectIsHits(encoder, rows, query, sims, threshold, n - 1);
    }
  }

  lemma {:induction false} NoHits(encoder: Encoder, rows: seq<Row>, query: string, threshold: real, n: nat)
    requires Regular(encoder) && n <= |rows|
    requires forall i :: 0 <= i < |rows| ==> Similarity(encoder, rows, query, i) == None
    ensures Hits(encoder, rows, query, threshold, n) == []
  {
    if n > 0 {
      NoHits(encoder, rows, query, threshold, n - 1);
    }
  }

  class EmbeddingStore {
    const encoder: Encoder
    const threshold: real
    const topK: int
    var corpus: seq<string>
    var corpusIds: seq<int>
    var pendingIds: seq<int>
    var pendingTexts: seq<string>
    var matrix: Option<seq<Vector>>
    var ids: seq<int>

    constructor (encoder: Encoder, threshold: real, topK: int)
      requires Regular(encoder)
      ensures Valid() && View() == Index([], [])
      ensures this.encoder == encoder && this.threshold == threshold && this.topK == topK
    {
      this.encoder, this.threshold, this.topK := encoder, threshold, topK;
      corpus, corpusIds, pendingIds, pendingTexts, matrix, ids := [], [], [], [], None, [];
    }

    /** Ids, corpus ids and matrix rows go together. */
    ghost predicate Valid()
      reads this
    {
      && Regular(encoder)
      && ids == corpusIds && |corpus| == |corpusIds| && |pendingIds| == |pendingTexts|
      && (matrix.None? <==> ids == []) && (matrix.Some? ==> |matrix.value| == |ids|)
      && (encoder.Sbert? && matrix.Some? ==> matrix == Encode(encoder, corpus))
    }

    function View(): Index
      requires |corpus| == |corpusIds| && |pendingIds| == |pendingTexts|
      reads this
    {
      Index(Zip(corpusIds, corpus), Zip(pendingIds, pendingTexts))
    }

    method FlushPending()
      requires Valid()
      modifies this
      ensures Valid() && View() == Flush(encoder, old(View()))
    {
      if pendingIds == [] {
        return;
      }
      ghost var before := View();
      ZipAppend(corpusIds, corpus, pendingIds, pendingTexts);
      assert Texts(before.committed + before.pending) == corpus + pendingTexts;
      if encoder.Sbert? {
        var vecs := Encode(encoder, pendingTexts).value;
        matrix := Some(if matrix.Some? then matrix.value + vecs else vecs);
        ids := ids + pendingIds;
        corpus := corpus + pendingTexts;
        corpusIds := corpusIds + pendingIds;
        pendingIds, pendingTexts := [], [];
        assert matrix.value == Encode(encoder, corpus).value;
        return;
      }
      var allIds := corpusIds + pendingIds;
      var allTexts := corpus + pendingTexts;
      var vecs := Encode(encoder, allTexts);
      if vecs.None? {
        return;
      }
      matrix := vecs;
      ids := allIds;
      corpus := allTexts;
      corpusIds := allIds;
      pendingIds, pendingTexts := [], [];
    }

    /** Queues the entry and flushes; the row is that of the first entry with this id. */
    method Add(id: int, text: string) returns (row: Option<nat>)
      requires Valid()
      modifies this
      ensures Valid() && View() == EmbeddingIndex.Add(encoder, old(View()), (id, text))
      ensures row == if |ids| > |old(ids)| then Find(ids, id) else None
      ensures |ids| > |old(ids)| ==> row.Some?
    {
      ghost var before := View();
      pendingIds := pendingIds + [id];
      pendingTexts := pendingTexts + [text];
      assert View() == Queue(before, (id, text));
      var pre := |ids|;
      FlushPending();
      if |ids| > pre {
        row := Find(ids, id);
        assert View().committed[|ids| - 1] == (id, text);
        assert ids[|ids| - 1] == id;
        return;
      }
      row := None;
    }

    /** Only committed entries are found; a queued one stays queued. */
    method Remove(id: int) returns (removed: bool)
      requires Valid()
      modifies this
      ensures Valid() && View() == EmbeddingIndex.Remove(old(View()), id)
      ensures removed <==> id in old(ids)
    {
      ghost var before := View();
      assert IdsOf(before.committed) == ids;
      var found := Find(ids, id);
      if found.None? {
        return false;
      }
      var row := found.value;
      matrix := Some(Without(matrix.value, row));
      if matrix.value == [] {
        matrix := None;
      }
      ids := Without(ids, row);
      corpus := Without(corpus, row);
      corpusIds := Without(corpusIds, row);
      assert View().committed == Without(before.committed, row);
      assert encoder.Sbert? ==> Without(Encode(encoder, old(corpus)).value, row) == Encode(encoder, corpus).value;
      removed := true;
    }

    /** The rows of the matrix against the query, or none if they cannot be encoded together. */
    method Compare(query: string) returns (sims: Option<seq<real>>)
      requires Valid() && ids != []
      modifies this`matrix
      ensures Valid()
      ensures sims.None? ==> forall i :: 0 <= i < |ids| ==> Similarity(encoder, View().committed, query, i) == None
      ensures View() == old(View())
      ensures sims.Some? ==> |sims.value| == |ids|
      ensures sims.Some? ==>
        forall i :: 0 <= i < |ids| ==> Similarity(encoder, View().committed, query, i) == Some(sims.value[i])
    {
      var rows := View().committed;
      assert Texts(rows) == corpus;
      var q;
      if encoder.Sbert? {
        q := encoder.embed(query);
      } else {
        var vecs := Encode(encoder, corpus + [query]);
        if vecs.None? {
          return None;
        }
        matrix := Some(vecs.value[..|corpus|]);
        q := vecs.value[|corpus|];
      }
      var m, n := matrix.value, |ids|;
      ghost var together := Encode(encoder, corpus + [query]).value;
      assert q == together[n];
      assert forall i :: 0 <= i < n ==> m[i] == together[i];
      // In one encoder mode the dimensions always fit.
      assert forall i :: 0 <= i < n ==> |m[i]| == |q|;
      sims := Some(seq(n, i requires 0 <= i < n && n == |m| && |m[i]| == |q| => Dot(m[i], q)));
    }

    /** Flushes, then answers exactly as a scan of the committed list would. */
    method Search(query: string, given: Option<int>) returns (found: seq<Hit>)
      requires Valid()
      modifies this
      ensures Valid() && View() == Flush(encoder, old(View()))
      ensures found == Scan(encoder, View().committed, query, threshold, if given.Some? then given.value else topK)
    {
      FlushPending();
      var k := if given.Some? then given.value else topK;
      ghost var rows := View().committed;
      assert IdsOf(rows) == ids;
      if matrix.None? || ids == [] {
        return [];
      }
      var sims := Compare(query);
      if sims.None? {
        NoHits(encoder, rows, query, threshold, |rows|);
        return [];
      }
      SelectIsHits(encoder, rows, query, sims.value, threshold, |rows|);
      found := Cut(StableSort(Higher(), Select(ids, sims.value, threshold, |ids|)), k);
    }

    /** Drops the queue in any case; the index itself is replaced only if the new texts can be encoded. */
    method Rebuild(rows: seq<Row>)
      requires Valid()
      modifies this
      ensures Valid() && View() == EmbeddingIndex.Rebuild(encoder, old(View()), rows)
    {
      ghost var before := View();
      pendingIds, pendingTexts := [], [];
      if rows == [] {
        matrix, ids, corpus, corpusIds := None, [], [], [];
        return;
      }
      var texts := Texts(rows);
      var vecs := Encode(encoder, texts);
      if vecs.None? {
        return;
      }
      matrix := vecs;
      ids := IdsOf(rows);
      corpus := texts;
      corpusIds := IdsOf(rows);
      assert View().committed == rows;
    }
  }
}
