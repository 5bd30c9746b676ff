/**
 * Retrieval feeding the answering stage: the chunks `retrieve_chunks`
 * returns become the task's `retrieved_chunks`.
 */
module Pipeline {
  import opened Wrappers
  import opened Retriever
  import opened RagCrew

  /** The retrieved texts as the answering stage's chunks. */
  function AsChunks(texts: seq<string>): (chunks: seq<Chunk>)
    ensures |chunks| == |texts|
    ensures forall i | 0 <= i < |texts| :: ChunkText(chunks[i]) == texts[i]
  {
    seq(|texts|, i requires 0 <= i < |texts| => TextChunk(texts[i]))
  }

  /** When neither retrieval path yields a candidate (the dense reply has no
      match with a text, and there is no store or the store finds nothing),
      retrieval returns no chunks without reranking, and the answering stage
      then returns exactly the refusal without calling the model. */
  lemma {:induction false} EmptyEvidenceIsRefused(
    services: Services, query: string, docId: Option<string>, topK: int,
    bm25Store: Option<Bm25Search>, rerankTopK: int, summaryLength: int, llm: Prompt -> LlmReply)
    requires var response := services.index(DenseRequest(services.embed(query, QueryInputType), 30, true, MetadataFilter(docId)));
      response.Some? && response.value.matches.Some? ==> forall m | m in response.value.matches.value :: !HasText(m)
    requires LexicalCandidates(bm25Store, query) == []
    ensures var r := Retrieve(services, query, docId, topK, bm25Store, rerankTopK);
      && r.rerank == None
      && r.chunks == []
      && Summarize(TaskContext(Some(AsChunks(r.chunks)), Some(summaryLength), Some(query)), llm) == Outcome(Refusal, None)
  {
    var r := Retrieve(services, query, docId, topK, bm25Store, rerankTopK);
    var response := services.index(r.dense);
    if response.Some? && response.value.matches.Some? {
      ProjectWithoutText(response.value.matches.value);
    }
    assert DenseCandidates(response) + LexicalCandidates(bm25Store, query) == [];
  }
}
