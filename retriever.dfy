/**
 * `retrieve_chunks`: hybrid retrieval for one query. The query is embedded,
 * the dense index is searched with an optional `doc_id` filter, a BM25 store
 * (when one is given) is searched as well, the two candidate lists are merged
 * by id, and the merged texts are reranked.
 *
 * The embedder, the dense index, the BM25 store and the reranker are network
 * services; here they are function parameters. The result records, beside the
 * chunks, the request sent to each service, so that "the reranker is not
 * called" is something a contract can state.
 */
module Retriever {
  import opened Wrappers
  import opened Fusion

  type Vector = seq<real>

  /** A dense-index match: its id and its metadata (values taken to be strings). */
  datatype Match = Match(id: string, metadata: map<string, string>)

  /** The dense index's reply; `matches` is `None` when the field is null. */
  datatype QueryResponse = QueryResponse(matches: Option<seq<Match>>)

  datatype DenseRequest = DenseRequest(vector: Vector, topK: nat, includeMetadata: bool, filter: Option<map<string, string>>)
  datatype LexicalRequest = LexicalRequest(query: string, topK: nat)
  datatype RerankRequest = RerankRequest(model: string, query: string, documents: seq<string>, topN: int)
  datatype RerankedDocument = RerankedDocument(text: string)
  datatype RerankResult = RerankResult(document: RerankedDocument)
  datatype RerankResponse = RerankResponse(results: seq<RerankResult>)

  /** The process-wide services: the embedder (text and input type to vector),
      the dense index and the reranker. */
  datatype Services = Services(
    embed: (string, string) -> Vector,
    index: DenseRequest -> Option<QueryResponse>,
    rerank: RerankRequest -> RerankResponse)

  /** A BM25 store's `search(query, top_k)`. */
  type Bm25Search = LexicalRequest -> seq<Candidate>

  /** The chunks returned and the requests made on the way. */
  datatype Retrieval = Retrieval(
    chunks: seq<string>,
    dense: DenseRequest,
    lexical: Option<LexicalRequest>,
    rerank: Option<RerankRequest>)

  const QueryInputType := "query"
  /** Dense over-fetch: candidates asked of the index whatever `top_k` is. */
  const DenseOverFetch: nat := 30
  /** Lexical over-fetch: candidates asked of the BM25 store. */
  const LexicalOverFetch: nat := 20
  const RerankModel := "bge-reranker-v2-m3"

  predicate HasText(m: Match) {
    "text" in m.metadata
  }

  /** The candidate a match with a text becomes. */
  function ToCandidate(m: Match): Candidate
    requires HasText(m)
  {
    Candidate(m.id, m.metadata["text"])
  }

  /** The `doc_id` filter: present exactly when `doc_id` is truthy. */
  function MetadataFilter(docId: Option<string>): (f: Option<map<string, string>>)
    ensures f.Some? <==> docId.Some? && docId.value != ""
    ensures f.Some? ==> "doc_id" in f.value && f.value["doc_id"] == docId.value && |f.value| == 1
  {
    if docId.Some? && docId.value != "" then Some(map["doc_id" := docId.value]) else None
  }

  /** The dense candidates: one per match that carries a text, and nothing else. */
  function Project(matches: seq<Match>): (r: seq<Candidate>)
    ensures |r| <= |matches|
    ensures forall c | c in r :: exists m | m in matches :: HasText(m) && c == ToCandidate(m)
    ensures forall m | m in matches && HasText(m) :: ToCandidate(m) in r
  {
    if matches == [] then []
    else
      var rest := Project(matches[1..]);
      assert forall m | m in matches[1..] :: m in matches;
      assert forall m | m in matches :: m == matches[0] || m in matches[1..];
      if HasText(matches[0]) then [ToCandidate(matches[0])] + rest else rest
  }

  /** The projection keeps match order: it distributes over concatenation. */
  lemma {:induction false} ProjectAppend(a: seq<Match>, b: seq<Match>)
    ensures Project(a + b) == Project(a) + Project(b)
  {
    if a == [] {
      assert a + b == b;
    } else {
      assert (a + b)[0] == a[0] && (a + b)[1..] == a[1..] + b;
      ProjectAppend(a[1..], b);
    }
  }

  /** Matches none of which carries a text give no dense candidates. */
  lemma {:induction false} ProjectWithoutText(matches: seq<Match>)
    requires forall m | m in matches :: !HasText(m)
    ensures Project(matches) == []
  {
    if matches != [] {
      assert forall m | m in matches[1..] :: m in matches;
      ProjectWithoutText(matches[1..]);
    }
  }

  /** A missing reply, a null `matches` and an empty `matches` all give no candidates. */
  function DenseCandidates(response: Option<QueryResponse>): (r: seq<Candidate>)
    ensures response.None? || response.value.matches.None? ==> r == []
    ensures response.Some? && response.value.matches.Some? ==> r == Project(response.value.matches.value)
  {
    match response
    case None => []
    case Some(QueryResponse(None)) => []
    case Some(QueryResponse(Some(matches))) => Project(matches)
  }

  /** Lexical candidates: none without a store, else the store's hits for the raw query. */
  function LexicalCandidates(store: Option<Bm25Search>, query: string): (r: seq<Candidate>)
    ensures store.None? ==> r == []
    ensures store.Some? ==> r == store.value(LexicalRequest(query, LexicalOverFetch))
  {
    match store
    case None => []
    case Some(search) => search(LexicalRequest(query, LexicalOverFetch))
  }

  /** `[r.document["text"] for r in results]`. */
  function RerankedTexts(response: RerankResponse): (texts: seq<string>)
    ensures |texts| == |response.results|
    ensures forall i | 0 <= i < |texts| :: texts[i] == response.results[i].document.text
  {
    seq(|response.results|, i requires 0 <= i < |response.results| => response.results[i].document.text)
  }

  /** The whole retrieval as a function of its inputs and of the services. */
  function Retrieve(
    services: Services, query: string, docId: Option<string> := None, topK: int := 10,
    bm25Store: Option<Bm25Search> := None, rerankTopK: int := 5): (r: Retrieval)
    ensures r.dense.vector == services.embed(query, QueryInputType)
    ensures r.dense.topK == 30 && r.dense.includeMetadata
    ensures r.dense.filter == MetadataFilter(docId)
    ensures r.lexical == if bm25Store.Some? then Some(LexicalRequest(query, 20)) else None
    ensures var items := DenseCandidates(services.index(r.dense)) + LexicalCandidates(bm25Store, query);
      && (r.rerank.None? <==> items == [])
      && (r.rerank.None? ==> r.chunks == [])
      && (r.rerank.Some? ==>
            && r.rerank.value == RerankRequest(RerankModel, query, Values(Merged(items)), rerankTopK)
            && |r.rerank.value.documents| == |Ids(items)|
            && r.chunks == RerankedTexts(services.rerank(r.rerank.value)))
  {
    var vector := services.embed(query, QueryInputType);
    var dense := DenseRequest(vector, DenseOverFetch, true, MetadataFilter(docId));
    var lexical := if bm25Store.Some? then Some(LexicalRequest(query, LexicalOverFetch)) else None;
    var items := DenseCandidates(services.index(dense)) + LexicalCandidates(bm25Store, query);
    var candidates := Values(Merged(items));
    MergedSize(items);
    if candidates == [] then
      Retrieval([], dense, lexical, None)
    else
      var request := RerankRequest(RerankModel, query, candidates, rerankTopK);
      Retrieval(RerankedTexts(services.rerank(request)), dense, lexical, Some(request))
  }

  /** The same retrieval, step by step, with the merge done by the source's loop. */
  method RetrieveChunks(
    services: Services, query: string, docId: Option<string> := None, topK: int := 10,
    bm25Store: Option<Bm25Search> := None, rerankTopK: int := 5) returns (r: Retrieval)
    ensures r == Retrieve(services, query, docId, topK, bm25Store, rerankTopK)
  {
    var queryVector := services.embed(query, QueryInputType);
    var filter := MetadataFilter(docId);
    var denseRequest := DenseRequest(queryVector, DenseOverFetch, true, filter);
    var response := services.index(denseRequest);
    var vectorResults := DenseCandidates(response);

    var bm25Results: seq<Candidate> := [];
    var lexicalRequest: Option<LexicalRequest> := None;
    if bm25Store.Some? {
      lexicalRequest := Some(LexicalRequest(query, LexicalOverFetch));
      bm25Results := bm25Store.value(lexicalRequest.value);
    }

    var candidates := MergeAndDedupe(vectorResults + bm25Results);
    if candidates == [] {
      return Retrieval([], denseRequest, lexicalRequest, None);
    }

    var rerankRequest := RerankRequest(RerankModel, query, candidates, rerankTopK);
    var rerankResponse := services.rerank(rerankRequest);
    r := Retrieval(RerankedTexts(rerankResponse), denseRequest, lexicalRequest, Some(rerankRequest));
  }

  /** `top_k` is accepted and ignored: two calls differing only in it agree. */
  lemma TopKHasNoEffect(
    services: Services, query: string, docId: Option<string>, topK1: int, topK2: int,
    bm25Store: Option<Bm25Search>, rerankTopK: int)
    ensures Retrieve(services, query, docId, topK1, bm25Store, rerankTopK)
         == Retrieve(services, query, docId, topK2, bm25Store, rerankTopK)
  {
  }

  /** Without a BM25 store nothing lexical is asked for, and the reranker sees
      the deduplicated dense texts. */
  lemma {:induction false} DenseOnlyWithoutStore(
    services: Services, query: string, docId: Option<string>, topK: int, rerankTopK: int)
    ensures var r := Retrieve(services, query, docId, topK, None, rerankTopK);
      var dense := DenseCandidates(services.index(r.dense));
      && r.lexical == None
      && (r.rerank.None? <==> dense == [])
      && (r.rerank.Some? ==> r.rerank.value.documents == Values(Merged(dense)))
  {
    var r := Retrieve(services, query, docId, topK, None, rerankTopK);
    var dense := DenseCandidates(services.index(r.dense));
    assert dense + LexicalCandidates(None, query) == dense;
  }

  /** When neither source yields a candidate (no reply, or only matches without
      text, and no store), the result is empty and the reranker is not called. */
  lemma {:induction false} NoCandidatesNoRerank(
    services: Services, query: string, docId: Option<string>, topK: int, rerankTopK: int)
    requires var response := services.index(DenseRequest(services.embed(query, QueryInputType), 30, true, MetadataFilter(docId)));
      response.Some? && response.value.matches.Some? ==> forall m | m in response.value.matches.value :: !HasText(m)
    ensures Retrieve(services, query, docId, topK, None, rerankTopK).chunks == []
    ensures Retrieve(services, query, docId, topK, None, rerankTopK).rerank == None
  {
    var r := Retrieve(services, query, docId, topK, None, rerankTopK);
    var response := services.index(r.dense);
    if response.Some? && response.value.matches.Some? {
      ProjectWithoutText(response.value.matches.value);
    }
    assert DenseCandidates(response) + LexicalCandidates(None, query) == [];
  }

  /** A dense match without a text is dropped: of `a` (no metadata) and `b`
      (text "B"), only "B" reaches the merge. */
  lemma MatchWithoutTextDropped()
    ensures Project([Match("a", map[]), Match("b", map["text" := "B"])]) == [Candidate("b", "B")]
  {
    var ms := [Match("a", map[]), Match("b", map["text" := "B"])];
    assert ms[1..] == [Match("b", map["text" := "B"])];
    assert ms[1..][1..] == [];
  }

  /** One dense hit with a text inside the requested document, no store, and a
      reranker that returns that text: the retrieval returns exactly that text
      (for instance "Paris is the capital of France." for a query about the
      capital of France restricted to `doc1`). */
  lemma SingleDocumentScenario(
    services: Services, query: string, docId: string, topK: int, rerankTopK: int, id: string, text: string)
    requires docId != ""
    requires services.index(DenseRequest(services.embed(query, QueryInputType), 30, true, Some(map["doc_id" := docId])))
      == Some(QueryResponse(Some([Match(id, map["text" := text])])))
    requires services.rerank(RerankRequest(RerankModel, query, [text], rerankTopK))
      == RerankResponse([RerankResult(RerankedDocument(text))])
    ensures Retrieve(services, query, Some(docId), topK, None, rerankTopK).chunks == [text]
  {
    var items := [Candidate(id, text)];
    assert Project([Match(id, map["text" := text])]) == items by {
      assert [Match(id, map["text" := text])][1..] == [];
    }
    assert items + LexicalCandidates(None, query) == items;
    assert items[..0] == [];
    assert Merged(items).keys == [id];
    assert Values(Merged(items)) == [text];
    assert RerankedTexts(RerankResponse([RerankResult(RerankedDocument(text))])) == [text];
  }
}
