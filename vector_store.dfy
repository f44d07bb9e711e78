/*
 * The in-memory retrieval index: documents kept by id in insertion order,
 * a vectorizer that is refitted lazily, and a search that filters on
 * metadata, ranks by similarity, keeps the top k and drops every result
 * without similarity.
 *
 * TF-IDF and cosine similarity are floating-point library code: the score
 * of the i-th document for a query is an abstract function of the
 * contents the vectorizer was fitted on, the query and i.
 */
module VectorStore {
  import opened PyText
  import opened Values

  datatype Document = Document(id: string, content: string, metadata: seq<(string, Value)>)

  datatype SearchResult = SearchResult(document: Document, score: real)

  /** The similarity of the query to the i-th document, for a vectorizer fitted on the given contents. */
  type Similarity = (seq<string>, string, nat) -> real

  /** The contents the vectorizer is fitted on: one per document, in order. */
  function Contents(docs: seq<Document>): (cs: seq<string>)
    ensures |cs| == |docs|
  {
    seq(|docs|, i requires 0 <= i < |docs| => docs[i].content)
  }

  /** The documents of the store in the order of `documents.values()`. */
  function DocsInOrder(order: seq<string>, documents: map<string, Document>): (docs: seq<Document>)
    requires forall id :: id in order ==> id in documents
    ensures |docs| == |order|
  {
    seq(|order|, i requires 0 <= i < |order| => documents[order[i]])
  }

  /* ---------- the metadata filter ---------- */

  /** `all(doc.metadata.get(key) == value for key, value in filters.items())`; an absent key reads as None. */
  predicate Matches(metadata: seq<(string, Value)>, filters: seq<(string, Value)>) {
    forall j :: 0 <= j < |filters| ==> GetOr(Lookup(metadata, filters[j].0), Null) == filters[j].1
  }

  /** The positions of the documents the filter admits, in order. */
  function Admitted(docs: seq<Document>, filters: seq<(string, Value)>): seq<nat> {
    if |docs| == 0 then []
    else Admitted(docs[..|docs| - 1], filters) + (if Matches(docs[|docs| - 1].metadata, filters) then [|docs| - 1] else [])
  }

  /** A position is admitted iff its document passes the filter; positions come in increasing order. */
  lemma {:induction false} AdmittedExactly(docs: seq<Document>, filters: seq<(string, Value)>)
    ensures forall j :: 0 <= j < |Admitted(docs, filters)| ==> Admitted(docs, filters)[j] < |docs|
    ensures forall j, j' :: 0 <= j < j' < |Admitted(docs, filters)| ==> Admitted(docs, filters)[j] < Admitted(docs, filters)[j']
    ensures forall i :: 0 <= i < |docs| ==> (i in Admitted(docs, filters) <==> Matches(docs[i].metadata, filters))
  {
    if |docs| > 0 {
      var init := docs[..|docs| - 1];
      AdmittedExactly(init, filters);
      assert forall i :: 0 <= i < |init| ==> init[i] == docs[i];
    }
  }

  /** Without filters every document is admitted, which is what the `else` branch builds directly. */
  lemma {:induction false} NoFilterAdmitsAll(docs: seq<Document>)
    ensures Admitted(docs, []) == seq(|docs|, i requires 0 <= i < |docs| => i)
  {
    if |docs| > 0 {
      NoFilterAdmitsAll(docs[..|docs| - 1]);
    }
  }

  /* ---------- ranking ---------- */

  /** A filtered document's position and its similarity. */
  datatype Scored = Scored(index: nat, score: real)

  /** The similarity of every document to the query. */
  function Scores(docs: seq<Document>, query: string, sim: Similarity): (s: seq<real>)
    ensures |s| == |docs|
  {
    seq(|docs|, i requires 0 <= i < |docs| => sim(Contents(docs), query, i))
  }

  /** `[(i, similarities[i]) for i in filtered_indices]`. */
  function Candidates(idx: seq<nat>, scores: seq<real>): (c: seq<Scored>)
    requires forall j :: 0 <= j < |idx| ==> idx[j] < |scores|
    ensures |c| == |idx|
  {
    seq(|idx|, j requires 0 <= j < |idx| => Scored(idx[j], scores[idx[j]]))
  }

  /** Comes first in the ranking: a higher score, or the same score and an earlier position. */
  predicate Before(a: Scored, b: Scored) {
    a.score > b.score || (a.score == b.score && a.index < b.index)
  }

  predicate Ranked(xs: seq<Scored>) {
    forall i :: 0 <= i < |xs| - 1 ==> Before(xs[i], xs[i + 1])
  }

  /** Insert `x`, which comes later in the input than every element of `xs`, after all scores at least its own. */
  function InsertRanked(x: Scored, xs: seq<Scored>): (r: seq<Scored>)
    ensures multiset(r) == multiset(xs) + multiset{x}
  {
    if |xs| == 0 then [x]
    else if xs[0].score >= x.score then
      assert xs == [xs[0]] + xs[1..];
      [xs[0]] + InsertRanked(x, xs[1..])
    else [x] + xs
  }

  /** `sorted(pairs, key=lambda p: p[1], reverse=True)`: Python's sort is stable, also when reversed. */
  function SortDesc(xs: seq<Scored>): (r: seq<Scored>)
    ensures multiset(r) == multiset(xs)
  {
    if |xs| == 0 then []
    else
      assert xs == xs[..|xs| - 1] + [xs[|xs| - 1]];
      InsertRanked(xs[|xs| - 1], SortDesc(xs[..|xs| - 1]))
  }

  /** Inserting a later element into a ranked list keeps it ranked. */
  lemma {:induction false} InsertKeepsRanked(x: Scored, xs: seq<Scored>)
    requires Ranked(xs) && forall i :: 0 <= i < |xs| ==> xs[i].index < x.index
    ensures Ranked(InsertRanked(x, xs))
    ensures |xs| > 0 ==> InsertRanked(x, xs)[0] == xs[0] || InsertRanked(x, xs)[0] == x
  {
    if |xs| > 0 && xs[0].score >= x.score {
      var rest := InsertRanked(x, xs[1..]);
      InsertKeepsRanked(x, xs[1..]);
      var r := [xs[0]] + rest;
      assert Before(xs[0], rest[0]) by {
        if |xs| > 1 && rest[0] == xs[1] {
          assert Before(xs[0], xs[1]);
        }
      }
      forall i | 0 <= i < |r| - 1 ensures Before(r[i], r[i + 1]) {
        if i > 0 {
          assert r[i] == rest[i - 1] && r[i + 1] == rest[i];
        }
      }
    }
  }

  /** When positions increase along the input, the sort ranks by score and then by position. */
  lemma {:induction false} SortDescRanked(xs: seq<Scored>)
    requires forall i, j :: 0 <= i < j < |xs| ==> xs[i].index < xs[j].index
    ensures Ranked(SortDesc(xs))
  {
    if |xs| > 0 {
      var init := xs[..|xs| - 1];
      var x := xs[|xs| - 1];
      SortDescRanked(init);
      var sorted := SortDesc(init);
      forall i | 0 <= i < |sorted| ensures sorted[i].index < x.index {
        assert sorted[i] in multiset(sorted);
        assert sorted[i] in multiset(init);
        var j :| 0 <= j < |init| && init[j] == sorted[i];
      }
      InsertKeepsRanked(x, sorted);
    }
  }

  /** In a ranked list every earlier element comes before every later one. */
  lemma {:induction false} RankedPairwise(xs: seq<Scored>)
    requires Ranked(xs)
    ensures forall i, j :: 0 <= i < j < |xs| ==> Before(xs[i], xs[j])
  {
    if |xs| > 1 {
      var rest := xs[1..];
      assert Ranked(rest) by {
        forall i | 0 <= i < |rest| - 1 ensures Before(rest[i], rest[i + 1]) {
          assert rest[i] == xs[i + 1] && rest[i + 1] == xs[i + 2];
        }
      }
      RankedPairwise(rest);
      forall i, j | 0 <= i < j < |xs| ensures Before(xs[i], xs[j]) {
        if i > 0 {
          assert xs[i] == rest[i - 1] && xs[j] == rest[j - 1];
        } else if j > 1 {
          assert Before(xs[0], xs[1]);
          assert Before(rest[0], rest[j - 1]);
        }
      }
    }
  }

  /* ---------- keeping the hits ---------- */

  /** Every scored position names a document. */
  predicate InRange(top: seq<Scored>, n: int) {
    forall j :: 0 <= j < |top| ==> top[j].index < n
  }

  /** The result loop: `if score > 0: results.append(SearchResult(doc_list[doc_idx], score))`. */
  function Kept(docs: seq<Document>, top: seq<Scored>): seq<SearchResult>
    requires InRange(top, |docs|)
  {
    if |top| == 0 then []
    else
      var last := top[|top| - 1];
      Kept(docs, top[..|top| - 1]) + (if last.score > 0.0 then [SearchResult(docs[last.index], last.score)] else [])
  }

  /** Every scored position as a result. */
  function AsResults(docs: seq<Document>, top: seq<Scored>): (r: seq<SearchResult>)
    requires InRange(top, |docs|)
    ensures |r| == |top|
  {
    seq(|top|, j requires 0 <= j < |top| => SearchResult(docs[top[j].index], top[j].score))
  }

  /** Scores that never increase along the ranking. */
  predicate NonIncreasing(top: seq<Scored>) {
    forall i, j :: 0 <= i < j < |top| ==> top[i].score >= top[j].score
  }

  /** The kept results are the leading hits, all above zero, and nothing after them scores above zero. */
  ghost predicate KeptShape(docs: seq<Document>, top: seq<Scored>)
    requires InRange(top, |docs|)
  {
    var k := Kept(docs, top);
    |k| <= |top| && k == AsResults(docs, top[..|k|])
    && (forall j :: |k| <= j < |top| ==> top[j].score <= 0.0)
    && (forall j :: 0 <= j < |k| ==> k[j].score > 0.0)
  }

  /**
   * On scores that never increase, dropping the scores not above zero keeps
   * a prefix: the hits come first, everything after them scores at most 0.
   */
  lemma {:induction false} KeptIsPrefix(docs: seq<Document>, top: seq<Scored>)
    requires InRange(top, |docs|)
    requires NonIncreasing(top)
    ensures |Kept(docs, top)| <= |top|
    ensures Kept(docs, top) == AsResults(docs, top[..|Kept(docs, top)|])
    ensures forall j :: |Kept(docs, top)| <= j < |top| ==> top[j].score <= 0.0
    ensures forall j :: 0 <= j < |Kept(docs, top)| ==> Kept(docs, top)[j].score > 0.0
  {
    if |top| > 0 {
      var init := top[..|top| - 1];
      assert forall i :: 0 <= i < |init| ==> init[i] == top[i];
      KeptIsPrefix(docs, init);
      if top[|top| - 1].score > 0.0 {
        KeptHitStep(docs, top);
      } else {
        KeptMissStep(docs, top);
      }
    } else {
      assert top[..0] == [];
    }
  }

  /** A last score above zero: every earlier one is too, so everything is kept. */
  lemma KeptHitStep(docs: seq<Document>, top: seq<Scored>)
    requires InRange(top, |docs|) && |top| > 0 && NonIncreasing(top) && top[|top| - 1].score > 0.0
    requires KeptShape(docs, top[..|top| - 1])
    ensures KeptShape(docs, top)
  {
    var init := top[..|top| - 1];
    var k := Kept(docs, init);
    assert |k| == |init|;
    assert init[..|k|] == init;
    assert top[..|k| + 1] == top;
  }

  /** A last score not above zero is dropped, and the kept prefix stays as it was. */
  lemma KeptMissStep(docs: seq<Document>, top: seq<Scored>)
    requires InRange(top, |docs|) && |top| > 0 && top[|top| - 1].score <= 0.0
    requires KeptShape(docs, top[..|top| - 1])
    ensures KeptShape(docs, top)
  {
    var init := top[..|top| - 1];
    var k := Kept(docs, init);
    assert top[..|k|] == init[..|k|];
  }

  /* ---------- search_similar ---------- */

  /** The filtered documents ranked by similarity, best first. */
  function RankedCandidates(docs: seq<Document>, query: string, filters: seq<(string, Value)>, sim: Similarity): (r: seq<Scored>)
    ensures InRange(r, |docs|)
  {
    var idx := Admitted(docs, filters);
    AdmittedExactly(docs, filters);
    var c := Candidates(idx, Scores(docs, query, sim));
    var r := SortDesc(c);
    assert InRange(r, |docs|) by {
      forall j | 0 <= j < |r| ensures r[j].index < |docs| {
        assert r[j] in multiset(c);
        var m :| 0 <= m < |c| && c[m] == r[j];
      }
    }
    r
  }

  /** `search_similar(query, k, filters)` on the documents in store order. */
  function Search(docs: seq<Document>, query: string, k: int, filters: seq<(string, Value)>, sim: Similarity): seq<SearchResult> {
    if |docs| == 0 then []
    else
      var ranked := RankedCandidates(docs, query, filters, sim);
      var top := PySliceTo(ranked, k);
      assert InRange(top, |docs|) by {
        forall j | 0 <= j < |top| ensures top[j].index < |docs| {
          assert top[j] == ranked[j];
        }
      }
      Kept(docs, top)
  }

  /** The candidates are ranked by score, ties by position, and are exactly the admitted documents with their scores. */
  lemma RankedCandidatesOrder(docs: seq<Document>, query: string, filters: seq<(string, Value)>, sim: Similarity)
    ensures forall i, j :: 0 <= i < j < |RankedCandidates(docs, query, filters, sim)| ==>
      Before(RankedCandidates(docs, query, filters, sim)[i], RankedCandidates(docs, query, filters, sim)[j])
    ensures forall j :: 0 <= j < |RankedCandidates(docs, query, filters, sim)| ==>
      Matches(docs[RankedCandidates(docs, query, filters, sim)[j].index].metadata, filters) &&
      RankedCandidates(docs, query, filters, sim)[j].score == sim(Contents(docs), query, RankedCandidates(docs, query, filters, sim)[j].index)
  {
    var idx := Admitted(docs, filters);
    AdmittedExactly(docs, filters);
    var c := Candidates(idx, Scores(docs, query, sim));
    SortDescRanked(c);
    var r := SortDesc(c);
    assert r == RankedCandidates(docs, query, filters, sim);
    RankedPairwise(r);
    forall j | 0 <= j < |r|
      ensures Matches(docs[r[j].index].metadata, filters) && r[j].score == sim(Contents(docs), query, r[j].index)
    {
      assert r[j] in multiset(c);
      var m :| 0 <= m < |c| && c[m] == r[j];
      assert idx[m] in idx;
    }
  }

  /**
   * What a search returns: at most k results for k >= 0, each a document
   * that passes the filter with its own similarity, all above zero, best
   * first, and together a prefix of the ranked candidates.
   */
  lemma SearchSound(docs: seq<Document>, query: string, k: int, filters: seq<(string, Value)>, sim: Similarity)
    requires |docs| > 0
    ensures |Search(docs, query, k, filters, sim)| <= |RankedCandidates(docs, query, filters, sim)|
    ensures 0 <= k ==> |Search(docs, query, k, filters, sim)| <= k
    ensures forall i :: 0 <= i < |Search(docs, query, k, filters, sim)| ==> Search(docs, query, k, filters, sim)[i].score > 0.0
    ensures forall i, j :: 0 <= i < j < |Search(docs, query, k, filters, sim)| ==>
      Search(docs, query, k, filters, sim)[i].score >= Search(docs, query, k, filters, sim)[j].score
    ensures Search(docs, query, k, filters, sim) ==
      AsResults(docs, RankedCandidates(docs, query, filters, sim)[..|Search(docs, query, k, filters, sim)|])
    ensures forall i :: 0 <= i < |Search(docs, query, k, filters, sim)| ==>
      exists d :: 0 <= d < |docs| && Matches(docs[d].metadata, filters) &&
        Search(docs, query, k, filters, sim)[i] == SearchResult(docs[d], sim(Contents(docs), query, d))
  {
    var ranked := RankedCandidates(docs, query, filters, sim);
    RankedCandidatesOrder(docs, query, filters, sim);
    var top := PySliceTo(ranked, k);
    assert forall j :: 0 <= j < |top| ==> top[j] == ranked[j];
    assert forall i, j :: 0 <= i < j < |top| ==> top[i].score >= top[j].score by {
      forall i, j | 0 <= i < j < |top| ensures top[i].score >= top[j].score {
        assert Before(ranked[i], ranked[j]);
      }
    }
    KeptIsPrefix(docs, top);
    var r := Kept(docs, top);
    TakeTake(ranked, |top|, |r|);
    forall i | 0 <= i < |r|
      ensures exists d :: 0 <= d < |docs| && Matches(docs[d].metadata, filters) && r[i] == SearchResult(docs[d], sim(Contents(docs), query, d))
    {
      var d := ranked[i].index;
      assert r[i] == SearchResult(docs[d], ranked[i].score);
    }
  }

  /** The filter loop of `search_similar`, or every position when there are no filters. */
  method FilterIndices(docs: seq<Document>, filters: seq<(string, Value)>) returns (filtered: seq<nat>)
    ensures filtered == Admitted(docs, filters)
  {
    if |filters| > 0 {
      filtered := [];
      for i := 0 to |docs|
        invariant filtered == Admitted(docs[..i], filters)
      {
        assert docs[..i + 1][..i] == docs[..i];
        if Matches(docs[i].metadata, filters) {
          filtered := filtered + [i];
        }
      }
      assert docs[..|docs|] == docs;
    } else {
      filtered := seq(|docs|, i requires 0 <= i < |docs| => i);
      NoFilterAdmitsAll(docs);
    }
  }

  /** The result loop of `search_similar`. */
  method KeepHits(docs: seq<Document>, top: seq<Scored>) returns (results: seq<SearchResult>)
    requires InRange(top, |docs|)
    ensures results == Kept(docs, top)
  {
    results := [];
    for t := 0 to |top|
      invariant results == Kept(docs, top[..t])
    {
      assert top[..t + 1][..t] == top[..t];
      if top[t].score > 0.0 {
        results := results + [SearchResult(docs[top[t].index], top[t].score)];
      }
    }
    assert top[..|top|] == top;
  }

  /* ---------- the store ---------- */

  class SimpleVectorStore {
    /** The ids in the insertion order of the `documents` dict. */
    var order: seq<string>
    var documents: map<string, Document>
    /** `_fitted`, and the contents `_doc_vectors` was computed from. */
    var fitted: bool
    var corpus: seq<string>

    /** Ids are unique and key the documents; a fitted index was fitted on the current contents. */
    ghost predicate Valid()
      reads this
    {
      DistinctIds(order) &&
      (forall id :: id in documents <==> id in order) &&
      (fitted ==> corpus == Contents(DocsInOrder(order, documents)))
    }

    /** `list(self.documents.values())`. */
    function DocList(): (docs: seq<Document>)
      reads this
      requires Valid()
      ensures |docs| == |order|
    {
      DocsInOrder(order, documents)
    }

    constructor ()
      ensures Valid() && order == [] && documents == map[] && !fitted
    {
      order := [];
      documents := map[];
      fitted := false;
      corpus := [];
    }

    /** `get_document_count`: one per distinct id. */
    function DocumentCount(): (n: nat)
      reads this
      requires Valid()
      ensures n == |order|
    {
      CountKeys(order, documents);
      |documents|
    }

    /** `add_document`: insert or overwrite by id (an id keeps its first position), and mark the index stale. */
    method AddDocument(id: string, content: string, metadata: Option<seq<(string, Value)>>)
      requires Valid()
      modifies this
      ensures Valid()
      ensures documents == old(documents)[id := Document(id, content, GetOr(metadata, []))]
      ensures order == if id in old(documents) then old(order) else old(order) + [id]
      ensures !fitted && corpus == old(corpus)
    {
      var meta := if metadata.None? then [] else metadata.value;
      if id !in documents {
        order := order + [id];
      }
      documents := documents[id := Document(id, content, meta)];
      fitted := false;
    }

    /** `_fit_vectorizer`: fit on the current contents, unless the store is empty. */
    method FitVectorizer()
      requires Valid()
      modifies this
      ensures Valid() && order == old(order) && documents == old(documents)
      ensures |order| == 0 ==> fitted == old(fitted) && corpus == old(corpus)
      ensures |order| > 0 ==> fitted && corpus == Contents(DocList())
    {
      CountKeys(order, documents);
      if |documents| == 0 {
        return;
      }
      corpus := Contents(DocsInOrder(order, documents));
      fitted := true;
    }

    /** `search_similar`: refit when stale, filter, rank, keep the top k, drop scores not above zero. */
    method SearchSimilar(query: string, k: int, filters: seq<(string, Value)>, sim: Similarity) returns (results: seq<SearchResult>)
      requires Valid()
      modifies this
      ensures Valid() && order == old(order) && documents == old(documents)
      ensures |order| == 0 ==> results == [] && fitted == old(fitted) && corpus == old(corpus)
      ensures |order| > 0 ==> fitted
      ensures results == Search(DocList(), query, k, filters, sim)
    {
      CountKeys(order, documents);
      if |documents| == 0 {
        return [];
      }
      if !fitted {
        FitVectorizer();
      }
      var docList := DocsInOrder(order, documents);
      var fittedOn := corpus;
      var similarities := seq(|docList|, i requires 0 <= i < |docList| => sim(fittedOn, query, i));
      assert similarities == Scores(docList, query, sim);
      var filtered := FilterIndices(docList, filters);
      AdmittedExactly(docList, filters);
      var candidates := Candidates(filtered, similarities);
      var ranked := SortDesc(candidates);
      assert ranked == RankedCandidates(docList, query, filters, sim);
      var top := PySliceTo(ranked, k);
      assert InRange(top, |docList|) by {
        forall j | 0 <= j < |top| ensures top[j].index < |docList| {
          assert top[j] == ranked[j];
        }
      }
      results := KeepHits(docList, top);
    }

    /** `load_sample_documents`: the five sample documents, added in order through `add_document`. */
    method LoadSampleDocuments()
      requires Valid()
      modifies this
      ensures Valid() && !fitted
      ensures documents == AddAll(old(documents), SampleDocs)
      ensures order == AppendNew(old(order), SampleIds)
      ensures forall i :: 0 <= i < |SampleDocs| ==>
        SampleDocs[i].0 in documents && documents[SampleDocs[i].0] == Document(SampleDocs[i].0, SampleDocs[i].1, SampleDocs[i].2)
      ensures forall id :: id in old(documents) && id !in SampleIds ==> id in documents && documents[id] == old(documents)[id]
      ensures documents.Keys == old(documents.Keys) + set d | d in SampleIds
      ensures |order| >= old(|order|) && order[..old(|order|)] == old(order)
      ensures old(|order|) == 0 ==> order == SampleIds
    {
      SampleIdsDistinct();
      AddDocuments(SampleDocs);
    }

    /**
     * The loop of `load_sample_documents`: each entry goes through
     * `add_document`, in order. An id's last entry is what it maps to, other
     * documents keep theirs, and new ids follow the old order in the order
     * they first occur.
     */
    method AddDocuments(entries: seq<(string, string, seq<(string, Value)>)>)
      requires Valid()
      modifies this
      ensures Valid() && (|entries| > 0 ==> !fitted)
      ensures documents == AddAll(old(documents), entries)
      ensures order == AppendNew(old(order), Ids(entries))
      ensures forall i :: 0 <= i < |entries| && LastOfId(entries, i) ==>
        entries[i].0 in documents && documents[entries[i].0] == Document(entries[i].0, entries[i].1, entries[i].2)
      ensures forall id :: id in old(documents) && id !in Ids(entries) ==> id in documents && documents[id] == old(documents)[id]
      ensures documents.Keys == old(documents.Keys) + set d | d in Ids(entries)
      ensures |order| >= old(|order|) && order[..old(|order|)] == old(order)
      ensures DistinctIds(Ids(entries)) && (forall i :: 0 <= i < |entries| ==> entries[i].0 !in old(documents)) ==>
        order == old(order) + Ids(entries)
    {
      var ids := Ids(entries);
      ghost var before := documents;
      ghost var start := order;
      for i := 0 to |entries|
        invariant Valid() && (i > 0 ==> !fitted)
        invariant documents == AddAll(before, entries[..i])
        invariant order == AppendNew(start, ids[..i])
      {
        var (id, content, metadata) := entries[i];
        assert entries[..i + 1][..i] == entries[..i];
        assert ids[..i + 1][..i] == ids[..i] && ids[i] == id;
        AddDocument(id, content, Some(metadata));
      }
      assert entries[..|entries|] == entries;
      assert ids[..|entries|] == ids;
      forall i | 0 <= i < |entries| && LastOfId(entries, i)
        ensures entries[i].0 in documents && documents[entries[i].0] == Document(entries[i].0, entries[i].1, entries[i].2)
      {
        AddAllLastWins(before, entries, i);
      }
      forall id | id in before && id !in ids
        ensures id in documents && documents[id] == before[id]
      {
        AddAllKeepsOthers(before, entries, id);
      }
      AddAllKeys(before, entries);
      AppendNewExtends(start, ids);
      if DistinctIds(ids) && (forall i :: 0 <= i < |entries| ==> entries[i].0 !in before) {
        AppendNewFresh(start, ids);
      }
    }
  }

  /** The documents after `add_document` of each entry in turn. */
  function AddAll(documents: map<string, Document>, entries: seq<(string, string, seq<(string, Value)>)>): map<string, Document>
  {
    if |entries| == 0 then documents
    else
      var e := entries[|entries| - 1];
      AddAll(documents, entries[..|entries| - 1])[e.0 := Document(e.0, e.1, e.2)]
  }

  /** The insertion order after adding `ids` in turn: an id not yet present goes to the end. */
  function AppendNew(order: seq<string>, ids: seq<string>): seq<string>
  {
    if |ids| == 0 then order
    else
      var init := AppendNew(order, ids[..|ids| - 1]);
      if ids[|ids| - 1] in init then init else init + [ids[|ids| - 1]]
  }

  /** No later entry has the id of entry `i`. */
  predicate LastOfId(entries: seq<(string, string, seq<(string, Value)>)>, i: int)
    requires 0 <= i < |entries|
  {
    forall j :: i < j < |entries| ==> entries[j].0 != entries[i].0
  }

  /** After adding, the keys are the old keys and the entries' ids. */
  lemma {:induction false} AddAllKeys(documents: map<string, Document>, entries: seq<(string, string, seq<(string, Value)>)>)
    ensures AddAll(documents, entries).Keys == documents.Keys + set d | d in Ids(entries)
  {
    if |entries| > 0 {
      var init := entries[..|entries| - 1];
      AddAllKeys(documents, init);
      assert Ids(entries) == Ids(init) + [entries[|entries| - 1].0];
    }
  }

  /** An id that no entry names keeps its document, or stays absent. */
  lemma {:induction false} AddAllKeepsOthers(documents: map<string, Document>, entries: seq<(string, string, seq<(string, Value)>)>, id: string)
    requires id !in Ids(entries)
    ensures id in AddAll(documents, entries) <==> id in documents
    ensures id in documents ==> AddAll(documents, entries)[id] == documents[id]
  {
    if |entries| > 0 {
      var init := entries[..|entries| - 1];
      assert Ids(entries) == Ids(init) + [entries[|entries| - 1].0];
      AddAllKeepsOthers(documents, init, id);
    }
  }

  /** The last entry of an id is what the id maps to. */
  lemma {:induction false} AddAllLastWins(documents: map<string, Document>, entries: seq<(string, string, seq<(string, Value)>)>, i: int)
    requires 0 <= i < |entries| && LastOfId(entries, i)
    ensures entries[i].0 in AddAll(documents, entries)
    ensures AddAll(documents, entries)[entries[i].0] == Document(entries[i].0, entries[i].1, entries[i].2)
  {
    var n := |entries| - 1;
    if i < n {
      var init := entries[..n];
      assert init[i] == entries[i];
      assert LastOfId(init, i) by {
        forall j | i < j < |init| ensures init[j].0 != init[i].0 {
          assert init[j] == entries[j];
        }
      }
      AddAllLastWins(documents, init, i);
      assert entries[n].0 != entries[i].0;
    }
  }

  /** Adding keeps the old order as a prefix, and holds exactly the old and the added ids. */
  lemma {:induction false} AppendNewExtends(order: seq<string>, ids: seq<string>)
    ensures |AppendNew(order, ids)| >= |order| && AppendNew(order, ids)[..|order|] == order
    ensures forall x :: x in AppendNew(order, ids) <==> x in order || x in ids
  {
    if |ids| > 0 {
      var init := ids[..|ids| - 1];
      AppendNewExtends(order, init);
      assert ids == init + [ids[|ids| - 1]];
      var r := AppendNew(order, init);
      if ids[|ids| - 1] !in r {
        assert (r + [ids[|ids| - 1]])[..|order|] == r[..|order|];
      }
    }
  }

  /** Ids that are distinct and new are added in their own order after the old ones. */
  lemma {:induction false} AppendNewFresh(order: seq<string>, ids: seq<string>)
    requires DistinctIds(ids) && forall x :: x in ids ==> x !in order
    ensures AppendNew(order, ids) == order + ids
  {
    if |ids| > 0 {
      var init := ids[..|ids| - 1];
      var last := ids[|ids| - 1];
      assert forall x :: x in init ==> x in ids;
      AppendNewFresh(order, init);
      assert last !in init by {
        forall j | 0 <= j < |init| ensures init[j] != last {
          assert init[j] == ids[j];
        }
      }
      assert order + init + [last] == order + ids;
    }
  }

  /** The ids of document entries, in order. */
  function Ids(entries: seq<(string, string, seq<(string, Value)>)>): (r: seq<string>)
    ensures |r| == |entries| && forall i :: 0 <= i < |entries| ==> r[i] == entries[i].0
  {
    seq(|entries|, i requires 0 <= i < |entries| => entries[i].0)
  }

  predicate DistinctIds(ids: seq<string>) {
    forall i, j :: 0 <= i < j < |ids| ==> ids[i] != ids[j]
  }

  /** The sample documents have the sample ids, all different. */
  lemma SampleIdsDistinct()
    ensures Ids(SampleDocs) == SampleIds && DistinctIds(SampleIds)
  {
  }

  /** With unique ids keying the map, the map has one entry per id. */
  lemma {:induction false} CountKeys(order: seq<string>, documents: map<string, Document>)
    requires DistinctIds(order)
    requires forall id :: id in documents <==> id in order
    ensures |documents| == |order|
  {
    if |order| > 0 {
      var last := order[|order| - 1];
      var init := order[..|order| - 1];
      var rest := documents - {last};
      DropLastKeys(order, documents, rest);
      CountKeys(init, rest);
      assert documents.Keys == rest.Keys + {last};
    }
  }

  /** Without the last id, the map is keyed by the ids before it. */
  lemma DropLastKeys(order: seq<string>, documents: map<string, Document>, rest: map<string, Document>)
    requires |order| > 0 && rest == documents - {order[|order| - 1]}
    requires DistinctIds(order)
    requires forall id :: id in documents <==> id in order
    ensures forall id :: id in rest <==> id in order[..|order| - 1]
  {
    var last := order[|order| - 1];
    var init := order[..|order| - 1];
    forall id ensures id in rest <==> id in init {
      if id in init {
        var i :| 0 <= i < |init| && init[i] == id;
        assert order[i] == id;
      }
      if id in order && id != last {
        var i :| 0 <= i < |order| && order[i] == id;
        assert i < |order| - 1 && init[i] == id;
      }
    }
  }

  function SampleDoc(id: string, content: string, kind: string, component: string, tags: seq<string>): (string, string, seq<(string, Value)>) {
    (id, content, [("type", Str(kind)), ("component", Str(component)),
                   ("tags", List(seq(|tags|, i requires 0 <= i < |tags| => Str(tags[i]))))])
  }

  const SampleDocs: seq<(string, string, seq<(string, Value)>)> := [
    SampleDoc("arch-001",
      "Microservices architecture pattern implementation with API Gateway, service discovery, and load balancing. Best practices for service communication and data consistency.",
      "architecture", "backend", ["microservices", "api"]),
    SampleDoc("db-001",
      "Database migration strategy for PostgreSQL. Schema versioning, zero-downtime deployments, and rollback procedures for production systems.",
      "database", "infrastructure", ["postgresql", "migration"]),
    SampleDoc("auth-001",
      "OAuth 2.0 and JWT implementation for secure user authentication. Token management, refresh strategies, and security best practices.",
      "security", "auth", ["oauth", "jwt", "security"]),
    SampleDoc("ui-001",
      "React component architecture with TypeScript. State management patterns, component composition, and performance optimization techniques.",
      "frontend", "ui", ["react", "typescript", "components"]),
    SampleDoc("api-001",
      "RESTful API design principles. Resource modeling, HTTP status codes, error handling, and API versioning strategies for scalable systems.",
      "api", "backend", ["rest", "design", "versioning"])
  ]

  const SampleIds: seq<string> := ["arch-001", "db-001", "auth-001", "ui-001", "api-001"]
}
