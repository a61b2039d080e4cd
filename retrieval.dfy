/**
 * Query-time retrieval and the extractive answer (scripts/rag_query.py;
 * scripts/rag_query_gemini.py repeats the same `load_index` and
 * `retrieve`).
 *
 * The embedding model and FAISS are not modelled. A query is embedded by
 * a function from text to vector, and the nearest-neighbour search is an
 * oracle that answers with one row of `top_k` positions: each position
 * holds a distance and a row number of the index, or the sentinel `-1`
 * when the index has fewer rows than requested. Distances are opaque
 * ordered values; no arithmetic is done on them.
 */
module Retrieval {
  import opened Wrappers
  import opened Text
  import opened PyJson
  import opened Chunking

  /** Row 0 of what `index.search` returns: `(distances[0], indices[0])`. */
  datatype SearchResult = SearchResult(distances: seq<real>, indices: seq<int>)

  /** The sentinel FAISS puts in a position it has no row for. */
  const Sentinel: int := -1

  /**
   * What FAISS guarantees of a search over an index built beside a
   * document store of `rows` records: as many distances as indices, and
   * every index either the sentinel or a row of the store.
   */
  predicate ValidSearch(found: SearchResult, rows: nat)
  {
    && |found.distances| == |found.indices|
    && forall q :: 0 <= q < |found.indices| ==> found.indices[q] == Sentinel || 0 <= found.indices[q] < rows
  }

  /** One retrieved snippet: its 1-based search position, distance, text and metadata. */
  datatype Hit = Hit(rank: int, distance: real, text: string, metadata: Meta)

  /** Why a query cannot run. */
  datatype QueryError = VectorStoreMissing

  const MissingStoreText: string := "Vector store missing."

  /** The text of the `FileNotFoundError` a query stops with. */
  function ErrorMessage(e: QueryError): string
  {
    match e
    case VectorStoreMissing => MissingStoreText + " Run `py -3 scripts\\build_vector_store.py` first."
  }

  /**
   * `load_index`: the document store, provided both persisted artifacts
   * exist. Reading them is not modelled; `documents` is what
   * documents.json holds.
   */
  function LoadIndex(indexExists: bool, documentsExist: bool, documents: seq<Chunk>): (r: Result<seq<Chunk>, QueryError>)
    ensures r.Err? <==> !indexExists || !documentsExist
    ensures r.Ok? ==> r.value == documents
    ensures r.Err? ==> StartsWith(ErrorMessage(r.error), MissingStoreText)
  {
    if !indexExists || !documentsExist then Err(VectorStoreMissing) else Ok(documents)
  }

  /** The hit search position `q` contributes: none for the sentinel. */
  function HitAt(documents: seq<Chunk>, found: SearchResult, q: nat): seq<Hit>
    requires ValidSearch(found, |documents|) && q < |found.indices|
  {
    var idx := found.indices[q];
    if idx == Sentinel then []
    else [Hit(q + 1, found.distances[q], documents[idx].text, documents[idx].metadata)]
  }

  /** The hits for search positions `p` onwards, in search order. */
  function HitsFrom(documents: seq<Chunk>, found: SearchResult, p: nat): seq<Hit>
    requires ValidSearch(found, |documents|)
    decreases |found.indices| - p
  {
    if p >= |found.indices| then []
    else HitAt(documents, found, p) + HitsFrom(documents, found, p + 1)
  }

  /** One step of the loop: position `p` adds its hit, if any, after those collected so far. */
  lemma HitsStep(documents: seq<Chunk>, found: SearchResult, p: nat, hits: seq<Hit>)
    requires ValidSearch(found, |documents|) && p < |found.indices|
    ensures hits + HitsFrom(documents, found, p) == (hits + HitAt(documents, found, p)) + HitsFrom(documents, found, p + 1)
    ensures found.indices[p] == Sentinel ==> hits + HitAt(documents, found, p) == hits
  {
    assert hits + [] == hits;
  }

  /** The loop of `retrieve` over the search row. */
  method CollectHits(documents: seq<Chunk>, found: SearchResult) returns (hits: seq<Hit>)
    requires ValidSearch(found, |documents|)
    ensures hits == HitsFrom(documents, found, 0)
  {
    hits := [];
    var rank := 0;
    while rank < |found.indices|
      invariant 0 <= rank <= |found.indices|
      invariant hits + HitsFrom(documents, found, rank) == HitsFrom(documents, found, 0)
    {
      HitsStep(documents, found, rank, hits);
      var idx := found.indices[rank];
      if idx == Sentinel {
        rank := rank + 1;
        continue;
      }
      var doc := documents[idx];
      hits := hits + [Hit(rank + 1, found.distances[rank], doc.text, doc.metadata)];
      rank := rank + 1;
    }
    assert hits + [] == hits;
  }

  /**
   * `retrieve(query, top_k)`: load the store, search with the embedded
   * query, and turn the search row into hits.
   */
  method Retrieve<V>(
    query: string, topK: nat,
    indexExists: bool, documentsExist: bool, documents: seq<Chunk>,
    embed: string -> V, search: (V, nat) -> SearchResult)
    returns (r: Result<seq<Hit>, QueryError>)
    requires indexExists && documentsExist ==> ValidSearch(search(embed(query), topK), |documents|)
    requires indexExists && documentsExist ==> |search(embed(query), topK).indices| == topK
    ensures r == Err(VectorStoreMissing) <==> !indexExists || !documentsExist
    ensures r.Ok? ==> r.value == HitsFrom(documents, search(embed(query), topK), 0)
    ensures r.Ok? ==> |r.value| <= topK && forall i :: 0 <= i < |r.value| ==> 1 <= r.value[i].rank <= topK
  {
    var store :- LoadIndex(indexExists, documentsExist, documents);
    var found := search(embed(query), topK);
    var hits := CollectHits(store, found);
    HitsCount(store, found, 0);
    HitsSound(store, found, 0);
    return Ok(hits);
  }

  // ---------------------------------------------------------------------
  // What retrieval promises

  /** Hit `h` reproduces search position `h.rank - 1` and the store row found there. */
  predicate CopiedFrom(documents: seq<Chunk>, found: SearchResult, h: Hit)
    requires ValidSearch(found, |documents|)
  {
    && 1 <= h.rank <= |found.indices|
    && found.indices[h.rank - 1] != Sentinel
    && h.distance == found.distances[h.rank - 1]
    && h.text == documents[found.indices[h.rank - 1]].text
    && h.metadata == documents[found.indices[h.rank - 1]].metadata
  }

  /** Every hit is copied verbatim from a non-sentinel position after `p`. */
  predicate AllCopied(documents: seq<Chunk>, found: SearchResult, hs: seq<Hit>, p: int)
    requires ValidSearch(found, |documents|)
  {
    forall i :: 0 <= i < |hs| ==> p < hs[i].rank && CopiedFrom(documents, found, hs[i])
  }

  predicate StrictlyRanked(hs: seq<Hit>)
  {
    forall i, j :: 0 <= i < j < |hs| ==> hs[i].rank < hs[j].rank
  }

  /** Every non-sentinel position from `p` on has a hit of the matching rank. */
  predicate Covers(found: SearchResult, hs: seq<Hit>, p: nat)
  {
    forall q :: p <= q < |found.indices| && found.indices[q] != Sentinel ==>
      exists i :: 0 <= i < |hs| && hs[i].rank == q + 1
  }

  lemma {:induction false} HitsSound(documents: seq<Chunk>, found: SearchResult, p: nat)
    requires ValidSearch(found, |documents|)
    ensures AllCopied(documents, found, HitsFrom(documents, found, p), p)
    decreases |found.indices| - p
  {
    if p < |found.indices| {
      HitsSound(documents, found, p + 1);
      var hs := HitsFrom(documents, found, p);
      var tail := HitsFrom(documents, found, p + 1);
      var head := HitAt(documents, found, p);
      assert hs == head + tail;
      assert forall i :: |head| <= i < |hs| ==> hs[i] == tail[i - |head|];
    }
  }

  /** Ranks strictly increase along the hit list. */
  lemma {:induction false} RanksIncrease(documents: seq<Chunk>, found: SearchResult, p: nat)
    requires ValidSearch(found, |documents|)
    ensures StrictlyRanked(HitsFrom(documents, found, p))
    decreases |found.indices| - p
  {
    if p < |found.indices| {
      RanksIncrease(documents, found, p + 1);
      HitsSound(documents, found, p + 1);
      var hs := HitsFrom(documents, found, p);
      var tail := HitsFrom(documents, found, p + 1);
      var head := HitAt(documents, found, p);
      assert hs == head + tail;
      assert forall i :: |head| <= i < |hs| ==> hs[i] == tail[i - |head|];
    }
  }

  /** No search position is lost except the sentinels. */
  lemma {:induction false} HitsComplete(documents: seq<Chunk>, found: SearchResult, p: nat)
    requires ValidSearch(found, |documents|)
    ensures Covers(found, HitsFrom(documents, found, p), p)
    decreases |found.indices| - p
  {
    if p < |found.indices| {
      HitsComplete(documents, found, p + 1);
      var hs := HitsFrom(documents, found, p);
      var tail := HitsFrom(documents, found, p + 1);
      var head := HitAt(documents, found, p);
      assert hs == head + tail;
      forall q | p <= q < |found.indices| && found.indices[q] != Sentinel
        ensures exists i :: 0 <= i < |hs| && hs[i].rank == q + 1
      {
        if q == p {
          assert hs[0].rank == q + 1;
        } else {
          var i :| 0 <= i < |tail| && tail[i].rank == q + 1;
          assert hs[|head| + i] == tail[i];
        }
      }
    }
  }

  /** The number of non-sentinel positions from `p` on. */
  function LiveCount(found: SearchResult, p: nat): nat
    decreases |found.indices| - p
  {
    if p >= |found.indices| then 0
    else (if found.indices[p] == Sentinel then 0 else 1) + LiveCount(found, p + 1)
  }

  /** One hit per non-sentinel position, so never more hits than positions searched. */
  lemma {:induction false} HitsCount(documents: seq<Chunk>, found: SearchResult, p: nat)
    requires ValidSearch(found, |documents|) && p <= |found.indices|
    ensures |HitsFrom(documents, found, p)| == LiveCount(found, p) <= |found.indices| - p
    decreases |found.indices| - p
  {
    if p < |found.indices| {
      HitsCount(documents, found, p + 1);
    }
  }

  /** Search order is kept: distances that ascend along the search row ascend along the hits. */
  lemma DistancesOrdered(documents: seq<Chunk>, found: SearchResult)
    requires ValidSearch(found, |documents|)
    requires forall q1, q2 :: 0 <= q1 <= q2 < |found.distances| ==> found.distances[q1] <= found.distances[q2]
    ensures var hs := HitsFrom(documents, found, 0);
      forall i, j :: 0 <= i <= j < |hs| ==> hs[i].distance <= hs[j].distance
  {
    HitsSound(documents, found, 0);
    RanksIncrease(documents, found, 0);
    var hs := HitsFrom(documents, found, 0);
    forall i, j | 0 <= i <= j < |hs|
      ensures hs[i].distance <= hs[j].distance
    {
      assert CopiedFrom(documents, found, hs[i]) && CopiedFrom(documents, found, hs[j]);
      if i < j {
        assert hs[i].rank < hs[j].rank;
      }
    }
  }

  /**
   * Over a store written by `build_index`, the index row the search
   * matched for a hit is the embedding of that hit's own text.
   */
  lemma RetrievedAligned<V>(store: VectorStore<V>, embed: string -> V, found: SearchResult)
    requires Aligned(store, embed) && ValidSearch(found, |store.documents|)
    ensures var hs := HitsFrom(store.documents, found, 0);
      forall i :: 0 <= i < |hs| ==>
        && 1 <= hs[i].rank <= |found.indices|
        && 0 <= found.indices[hs[i].rank - 1] < |store.vectors|
        && store.vectors[found.indices[hs[i].rank - 1]] == embed(hs[i].text)
  {
    HitsSound(store.documents, found, 0);
  }

  /** An empty store answers every search with sentinels only, hence with no hits. */
  lemma {:induction false} EmptyStoreNoHits(found: SearchResult, p: nat)
    requires ValidSearch(found, 0)
    ensures HitsFrom([], found, p) == []
    decreases |found.indices| - p
  {
    if p < |found.indices| {
      EmptyStoreNoHits(found, p + 1);
    }
  }

  // ---------------------------------------------------------------------
  // The extractive answer

  // The fixed replies are written in two pieces so that their first
  // letters are visible to the verifier.
  const NoSnippetAnswer: string := "I could not find a " + "factual snippet for that question."
  const MissingUrlAnswer: string := "I found information " + "but the source URL is missing."
  const AnswerPrefix: string := "Answer: "
  const SourcePrefix: string := "\n\nSource: "

  /** `top["metadata"].get("url")`. */
  function HitUrl(h: Hit): Json
  {
    MetaGet(h.metadata, "url")
  }

  /**
   * `compose_answer`: the top hit's text cited to its URL, or one of two
   * fixed replies when there is no hit or the top hit has no usable URL.
   * The question does not take part.
   */
  function ComposeAnswer(question: string, hits: seq<Hit>): (answer: string)
    ensures hits == [] ==> answer == NoSnippetAnswer
    ensures hits != [] && !Truthy(HitUrl(hits[0])) ==> answer == MissingUrlAnswer
    ensures hits != [] && Truthy(HitUrl(hits[0])) ==>
      && StartsWith(answer, AnswerPrefix + hits[0].text)
      && EndsWith(answer, SourcePrefix + Show(HitUrl(hits[0])))
      && |answer| == |AnswerPrefix| + |hits[0].text| + |SourcePrefix| + |Show(HitUrl(hits[0]))|
  {
    if hits == [] then NoSnippetAnswer
    else
      var url := HitUrl(hits[0]);
      if !Truthy(url) then MissingUrlAnswer
      else
        var body := AnswerPrefix + hits[0].text;
        var tail := SourcePrefix + Show(url);
        Affixes(body, [], tail);
        assert body + [] + tail == body + tail;
        body + tail
  }

  lemma FirstLetters()
    ensures NoSnippetAnswer[0] == 'I' && MissingUrlAnswer[0] == 'I' && AnswerPrefix[0] == 'A'
  {
  }

  /** Only the first hit matters. */
  lemma AnswerUsesTopHit(q1: string, q2: string, hits: seq<Hit>, others: seq<Hit>)
    requires hits != []
    ensures ComposeAnswer(q1, hits) == ComposeAnswer(q2, [hits[0]] + others)
  {
  }

  /**
   * A cited answer is never one of the fixed replies, and it contains
   * both the top hit's text and its URL; so an answer contains the URL
   * exactly when one was available.
   */
  lemma CitedAnswerContainsUrl(question: string, hits: seq<Hit>)
    requires hits != [] && Truthy(HitUrl(hits[0]))
    ensures var answer := ComposeAnswer(question, hits);
      && answer != NoSnippetAnswer && answer != MissingUrlAnswer
      && Contains(answer, hits[0].text)
      && Contains(answer, Show(HitUrl(hits[0])))
  {
    var answer := ComposeAnswer(question, hits);
    var url := Show(HitUrl(hits[0]));
    assert answer == AnswerPrefix + hits[0].text + SourcePrefix + url;
    FirstLetters();
    assert answer[0] == AnswerPrefix[0];
    ContainsItself(AnswerPrefix, hits[0].text, SourcePrefix + url);
    assert AnswerPrefix + hits[0].text + (SourcePrefix + url) == answer;
    ContainsItself(AnswerPrefix + hits[0].text + SourcePrefix, url, []);
    assert AnswerPrefix + hits[0].text + SourcePrefix + url + [] == answer;
  }

  /** Every reply is non-empty. */
  lemma AnswerNonEmpty(question: string, hits: seq<Hit>)
    ensures |ComposeAnswer(question, hits)| > 0
  {
  }
}
