# Grounded question answering over retrieved chunks — a Dafny model

This project models the two deterministic parts of a retrieval-augmented
question-answering tool and proves properties of them.

1. **Hybrid retrieval** (`retrieve_chunks`). The query is embedded and the
   dense index is searched, filtered by `doc_id` when one is given. A BM25
   store, when one is given, is searched too. Dense matches that carry a
   `text` in their metadata become `{id, text}` candidates. Dense and lexical
   candidates are written, in that order, into a dict keyed by id. The dict's
   values go to a reranker, unless there are none, in which case the result is
   empty. The reranker's texts are returned in its order.
2. **The answering stage** (`detect_intent`, `summarize_chunks_task`). A
   keyword classifier picks one of five answering instructions. The task
   refuses on an empty chunk list. It cleans the chunks: each chunk's text is
   stripped and blank ones are dropped. It refuses again when nothing is left.
   It joins the rest with a blank line and calls the language model. A blank
   reply, or one mentioning "no relevant information", becomes the fixed
   refusal sentence.

The embedder, the dense index, the BM25 store, the reranker and the language
model are network services. They are function parameters here: the model
states what each is asked and what is done with its answer. The results carry
a record of the requests made (`Retrieval.dense`, `.lexical`, `.rerank`,
`Outcome.llmPrompt`). So "the reranker is not called" and "the model is not
called" are things the contracts can state.

Files:

- `wrappers.dfy`: `Option`; `None` is Python's `None` or a missing dict key.
- `seqs.dfy`: general facts about sequences used by the proofs.
- `text.dfy`: ASCII versions of `str.isspace`, `str.strip`, `str.lower` and the substring test `in`.
- `fusion.dfy`: the insertion-ordered dict, the merge as a specification function, its lemmas, and the merge loop.
- `retriever.dfy`: `retrieve_chunks` as a specification function `Retrieve` and as the method `RetrieveChunks`.
- `rag_crew.dfy`: `detect_intent`, and `summarize_chunks_task` as `Summarize` and as the method `SummarizeChunksTask`.
- `pipeline.dfy`: retrieval feeding the answering stage.

Where the documented intent of `retrieve_chunks` and its code differ, the
model follows the code:

- The reranker is documented as returning at most `rerank_top_k` texts. The code returns the reranker's texts as they come and truncates nothing, so nothing bounds the result but the reranker.
- The order of the merged candidates is documented as unspecified. In the code they come in first-occurrence order of their ids, since Python dicts keep insertion order.
- The `doc_id` filter is documented as applying to a non-null `doc_id`. The code applies it when `doc_id` is truthy, so an empty string gets no filter.

## Model

| member | source | states |
|---|---|---|
| `Text.Lower` | crew/rag_crew.py:13 | the result has the input's length and no upper-case ASCII letter; each character is unchanged or is its upper-case letter moved to lower case |
| `Text.LowerIdempotent` | crew/rag_crew.py:13 | lower-casing twice is lower-casing once |
| `Text.Strip` | crew/rag_crew.py:51-52 | the result is the slice of the input left after whitespace-only prefix and suffix are removed, and it neither starts nor ends with whitespace |
| `Text.StripBlank` | crew/rag_crew.py:51 | a string strips to nothing exactly when all of it is whitespace |
| `Text.StripIdempotent` | crew/rag_crew.py:100 | stripping twice is stripping once |
| `Fusion.Put` | vectorstore/retriever.py:55 | `merged[id] = text`: the entry becomes the text; a new id is appended to the key order; an existing id keeps its place; the dict stays well formed |
| `Fusion.Values` | vectorstore/retriever.py:57 | `list(merged.values())`: one value per key, in key order |
| `Fusion.Merged` | vectorstore/retriever.py:53-55 | the dict after writing every candidate is well formed (each id listed once) and its keys are exactly the candidates' ids |
| `Fusion.MergedSize` | vectorstore/retriever.py:53-57 | the number of merged texts equals the number of distinct ids; it is zero exactly when there are no candidates |
| `Fusion.LastWriterWins` | vectorstore/retriever.py:54-55 | the text kept for an id is the text of that id's last occurrence |
| `Fusion.KeysInFirstOccurrenceOrder` | vectorstore/retriever.py:53-57 | the merged texts come in the order of each id's first occurrence |
| `Fusion.MergedAppend` | vectorstore/retriever.py:54 | merging `dense + lexical` gives the dense entries overwritten by the lexical entries |
| `Fusion.LexicalOverridesDense` | vectorstore/retriever.py:54-55 | for an id in the lexical list the lexical text survives; an id only in the dense list keeps its dense text |
| `Fusion.MergeAndDedupe` | vectorstore/retriever.py:53-57 | the loop over `dense + lexical` that writes each candidate into the dict and lists its values returns exactly the merged texts |
| `Retriever.MetadataFilter` | vectorstore/retriever.py:23 | a filter is present exactly when `doc_id` is given and non-empty; it is then the single entry `doc_id` mapped to that id |
| `Retriever.Project` | vectorstore/retriever.py:34-41 | every candidate comes from a match with a `text` field, carrying its id and text; every such match yields its candidate; there are no more candidates than matches |
| `Retriever.ProjectAppend` | vectorstore/retriever.py:34-41 | the projection keeps match order: it distributes over concatenation |
| `Retriever.ProjectWithoutText` | vectorstore/retriever.py:40 | matches without a `text` field give no candidates |
| `Retriever.MatchWithoutTextDropped` | vectorstore/retriever.py:40 | of a match without metadata and a match with text "B", only "B" becomes a candidate |
| `Retriever.DenseCandidates` | vectorstore/retriever.py:32-41 | a missing reply or a null `matches` gives no dense candidates; otherwise the matches' projection |
| `Retriever.LexicalCandidates` | vectorstore/retriever.py:44-50 | without a BM25 store the lexical candidates are empty; with one they are exactly the store's hits for the raw query with `top_k` 20 |
| `Retriever.RerankedTexts` | vectorstore/retriever.py:70-75 | the texts of the reranker's results, one per result, in its order: neither re-sorted nor truncated |
| `Retriever.Retrieve` | vectorstore/retriever.py:10-75 | the dense request is the query's "query"-mode embedding, 30 results, metadata included, and the `doc_id` filter; the BM25 store is asked for 20 hits on the raw query exactly when given; the reranker is called exactly when some candidate was retrieved, with the model name, the query, the merged texts (one per distinct id) and `rerank_top_k`; with no candidates the result is empty, and otherwise it is the reranker's texts; `doc_id`, `top_k`, `bm25_store` and `rerank_top_k` default to none, 10, none and 5 |
| `Retriever.RetrieveChunks` | vectorstore/retriever.py:10-75 | the step-by-step retrieval, with the merge loop, returns exactly `Retrieve`'s result |
| `Retriever.TopKHasNoEffect` | vectorstore/retriever.py:10-16 | two retrievals that differ only in `top_k` return the same result and make the same requests |
| `Retriever.DenseOnlyWithoutStore` | vectorstore/retriever.py:44-57 | without a BM25 store nothing lexical is asked for, the reranker is called exactly when there are dense candidates, and it sees the deduplicated dense texts |
| `Retriever.NoCandidatesNoRerank` | vectorstore/retriever.py:59-60 | when the dense reply has no match with a text and there is no store, the result is empty and the reranker is not called |
| `Retriever.SingleDocumentScenario` | vectorstore/retriever.py:22-75 | one dense hit carrying a text inside the requested document, no store, and a reranker that returns that text: the result is exactly that one text |
| `RagCrew.Classify` | crew/rag_crew.py:12-22 | in the lower-cased query: disadvantages exactly when a negative keyword occurs; advantages when none does and a positive one does; steps when neither does and a step keyword does; comparison when none of those do and a comparison keyword does |
| `RagCrew.DetectIntent` | crew/rag_crew.py:12-22 | the instruction is always one of the five fixed strings, and it is "Answer the question directly." exactly when no keyword of any list occurs |
| `RagCrew.DetectIntentIgnoresCase` | crew/rag_crew.py:13 | a query and its lower-cased form get the same instruction |
| `RagCrew.DisadvantageOutranksAdvantage` | crew/rag_crew.py:14-17 | a query containing "disadvantage" also mentions the positive keyword "advantage", yet gets the disadvantages instruction |
| `RagCrew.Cleaned` | crew/rag_crew.py:44-52 | each cleaned element is non-empty and stripped and is the stripped text of some chunk; every chunk whose stripped text is non-empty contributes it; no more elements than chunks |
| `RagCrew.CleanedAppend` | crew/rag_crew.py:45-52 | cleaning keeps chunk order: it distributes over concatenation |
| `RagCrew.CleanedEmpty` | crew/rag_crew.py:51-57 | nothing survives cleaning exactly when every chunk's text is all whitespace |
| `RagCrew.CleanContext` | crew/rag_crew.py:44-52 | the cleaning loop (text from a dict's `text` field or the string, kept stripped when non-blank) returns exactly the cleaned context |
| `RagCrew.Join` | crew/rag_crew.py:59 | no parts join to the empty string; one part joins to itself |
| `RagCrew.JoinAppend` | crew/rag_crew.py:59 | joining two non-empty runs of parts puts one separator between their joins |
| `RagCrew.Guard` | crew/rag_crew.py:100-106 | a reply that strips to nothing, or whose stripped text mentions "no relevant information" in any case, becomes the refusal; otherwise the stripped reply is returned; the result is non-empty, stripped, and either the refusal or free of that phrase |
| `RagCrew.RefusalIsGuarded` | crew/rag_crew.py:103-106 | the refusal sentence itself passes the guard unchanged |
| `RagCrew.GuardIdempotent` | crew/rag_crew.py:100-106 | guarding a guarded reply changes nothing |
| `RagCrew.AfterLlm` | crew/rag_crew.py:98-111 | a reply goes through the guard; an exception gives a summary that starts with "Error generating response: " |
| `RagCrew.Summarize` | crew/rag_crew.py:33-111 | the model is called exactly when some chunk survives cleaning (a missing or empty chunk list never does), and otherwise the summary is the refusal; the prompt holds the query (default ""), the cleaned texts joined with a blank line, the detected instruction and the summary length (default 200); the summary is what the guard makes of the reply |
| `RagCrew.SummarizeChunksTask` | crew/rag_crew.py:33-111 | the step-by-step task, with the cleaning loop, returns exactly `Summarize`'s result |
| `RagCrew.BlankChunksRefused` | crew/rag_crew.py:38-57 | an empty chunk list, or one whose every text is blank, gets exactly the refusal and no model call |
| `RagCrew.SummaryShape` | crew/rag_crew.py:98-111 | every summary is the refusal, an error report, or a non-empty stripped answer not mentioning "no relevant information" |
| `Pipeline.EmptyEvidenceIsRefused` | vectorstore/retriever.py:59-60 | when the dense reply has no match with a text and the BM25 store is absent or finds nothing, retrieval calls no reranker and returns no chunks, and the answering stage then returns exactly the refusal without calling the model |

## Left out

- The service clients built at import time (the Pinecone client and index, `ChatOpenAI`): they are network I/O; the model takes the services as parameters.
- Exceptions raised by the embedder, the dense index, the BM25 store or the reranker: the code lets them propagate; the model's services always answer.
- Exceptions the code would raise on malformed data: an embedder returning no vector, a BM25 hit without `id` or `text`, a reranked document without `text`. The model's types rule them out.
- The embedder's list-in, list-out interface: the model embeds the one query directly, with the input type "query".
- Metadata values other than strings. Chunks that are neither strings nor dicts, which the code would pass through `str`. Dict keys present with the value `None`. The model represents a missing key as `None`.
- Truthiness of a BM25 store object. The model treats any given store as truthy.
- Non-ASCII whitespace and non-ASCII case mapping in `strip` and `lower`. The model strips the ASCII characters `str.isspace` accepts (tab through carriage return, 0x1C-0x1F, space) and lower-cases A-Z only.
- The wording of the prompt template: the model's `Prompt` holds what the template is filled with (query, context, instruction, length), not the surrounding prose.
- The text of an exception message beyond the fixed prefix: the model takes the message as a given string.
- The stray line after the `return` at the end of `retrieve_chunks` (retriever.py line 76): it is over-indented, which Python rejects when the module is loaded; the model reads the function as if that line were absent.
