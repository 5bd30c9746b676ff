/**
 * The answering stage around the language-model call: a keyword classifier
 * that picks the answering instruction, and `summarize_chunks_task`, which
 * cleans the retrieved chunks, refuses when nothing is left, builds the prompt
 * and guards the model's reply.
 *
 * The model is a function parameter from the prompt to its reply; the result
 * records the prompt it was given, or `None` when it was not called.
 */
module RagCrew {
  import opened Wrappers
  import opened Text
  import opened Seqs

  /** The five answering instructions, one per intent. */
  datatype Intent = Disadvantages | Advantages | Steps | Comparison | Direct

  const NegativeKeywords: seq<string> := ["disadvantage", "drawback", "limitation", "negative"]
  const PositiveKeywords: seq<string> := ["advantage", "benefit", "merit"]
  const StepKeywords: seq<string> := ["steps", "process", "how to"]
  const ComparisonKeywords: seq<string> := ["difference", "compare"]

  /** `any(w in q for w in keywords)`. */
  predicate MentionsAny(q: string, keywords: seq<string>) {
    exists w | w in keywords :: Contains(q, w)
  }

  /** The first keyword list, in priority order, that the lower-cased query mentions. */
  function Classify(query: string): (intent: Intent)
    ensures var q := Lower(query);
      && (intent == Disadvantages <==> MentionsAny(q, NegativeKeywords))
      && (intent == Advantages <==> !MentionsAny(q, NegativeKeywords) && MentionsAny(q, PositiveKeywords))
      && (intent == Steps <==>
            !MentionsAny(q, NegativeKeywords) && !MentionsAny(q, PositiveKeywords) && MentionsAny(q, StepKeywords))
      && (intent == Comparison <==>
            !MentionsAny(q, NegativeKeywords) && !MentionsAny(q, PositiveKeywords) && !MentionsAny(q, StepKeywords)
            && MentionsAny(q, ComparisonKeywords))
  {
    var q := Lower(query);
    if MentionsAny(q, NegativeKeywords) then Disadvantages
    else if MentionsAny(q, PositiveKeywords) then Advantages
    else if MentionsAny(q, StepKeywords) then Steps
    else if MentionsAny(q, ComparisonKeywords) then Comparison
    else Direct
  }

  function Instruction(intent: Intent): string {
    match intent
    case Disadvantages => "List the disadvantages or negative aspects."
    case Advantages => "List the advantages or benefits."
    case Steps => "Explain the steps."
    case Comparison => "Provide a comparison."
    case Direct => "Answer the question directly."
  }

  /** `detect_intent`: always one of the five instructions, and the direct one
      exactly when no keyword of any list occurs in the lower-cased query. */
  function DetectIntent(query: string): (instruction: string)
    ensures instruction in {
      "List the disadvantages or negative aspects.", "List the advantages or benefits.",
      "Explain the steps.", "Provide a comparison.", "Answer the question directly."}
    ensures var q := Lower(query);
      instruction == "Answer the question directly." <==>
        !MentionsAny(q, NegativeKeywords) && !MentionsAny(q, PositiveKeywords)
        && !MentionsAny(q, StepKeywords) && !MentionsAny(q, ComparisonKeywords)
  {
    Instruction(Classify(query))
  }

  /** The classifier ignores case: a query and its lower-cased form get the same instruction. */
  lemma {:induction false} DetectIntentIgnoresCase(query: string)
    ensures DetectIntent(Lower(query)) == DetectIntent(query)
  {
    LowerIdempotent(query);
  }

  /** Every query mentioning "disadvantage" also mentions "advantage", and still
      gets the disadvantages instruction: the negative list is tested first. */
  lemma {:induction false} DisadvantageOutranksAdvantage(query: string)
    requires Contains(Lower(query), "disadvantage")
    ensures MentionsAny(Lower(query), PositiveKeywords)
    ensures DetectIntent(query) == "List the disadvantages or negative aspects."
  {
    assert OccursAt("disadvantage", "advantage", 3);
    ContainsTransitive(Lower(query), "disadvantage", "advantage");
    assert "advantage" in PositiveKeywords;
    assert "disadvantage" in NegativeKeywords;
  }

  /** The fixed refusal sentence, "No relevant information found in the provided
      documents.", written as its leading phrase and the rest (both below) so
      that proofs about it need not unfold the whole literal. */
  const Refusal := RefusalHead + RefusalTail
  const RefusalPhrase := "no relevant information"
  const ErrorPrefix := "Error generating response: "
  const ContextSeparator := "\n\n"
  const DefaultSummaryLength := 200

  /** A retrieved chunk: a string, or a dict that may carry a `text` field. */
  datatype Chunk = TextChunk(text: string) | DictChunk(fields: map<string, string>)

  /** The task's input dict; `None` stands for a missing key. */
  datatype TaskContext = TaskContext(
    retrievedChunks: Option<seq<Chunk>>,
    summaryLength: Option<int>,
    query: Option<string>)

  /** What the prompt template is filled with (its fixed wording is not modelled). */
  datatype Prompt = Prompt(query: string, context: string, instruction: string, summaryLength: int)

  /** The model's reply, or the message of the exception its call raised. */
  datatype LlmReply = Content(content: string) | Raised(message: string)

  /** `{"summary": ...}`, with the prompt the model was called on, if it was. */
  datatype Outcome = Outcome(summary: string, llmPrompt: Option<Prompt>)

  /** A dict's `text` field (empty when absent), or the string itself. */
  function ChunkText(chunk: Chunk): string {
    match chunk
    case TextChunk(text) => text
    case DictChunk(fields) => if "text" in fields then fields["text"] else ""
  }

  /** The cleaned context: in order, the stripped text of every chunk that is
      not blank. Each element is non-empty and stripped, and comes from a chunk. */
  function Cleaned(chunks: seq<Chunk>): (clean: seq<string>)
    ensures |clean| <= |chunks|
    ensures forall s | s in clean :: s != [] && IsStripped(s)
    ensures forall s | s in clean :: exists c | c in chunks :: s == Strip(ChunkText(c))
    ensures forall c | c in chunks && Strip(ChunkText(c)) != [] :: Strip(ChunkText(c)) in clean
    decreases |chunks|
  {
    if chunks == [] then []
    else
      var init, last := chunks[..|chunks| - 1], chunks[|chunks| - 1];
      var rest, text := Cleaned(init), Strip(ChunkText(last));
      var clean := if text != [] then rest + [text] else rest;
      assert forall s | s in clean :: exists c | c in chunks :: s == Strip(ChunkText(c)) by {
        forall s | s in clean ensures exists c | c in chunks :: s == Strip(ChunkText(c)) {
          if s in rest {
            var c :| c in init && s == Strip(ChunkText(c));
            assert c in chunks;
          } else {
            assert last in chunks && s == Strip(ChunkText(last));
          }
        }
      }
      assert forall c | c in chunks && Strip(ChunkText(c)) != [] :: Strip(ChunkText(c)) in clean by {
        forall c | c in chunks ensures c in init || c == last {
          InitOrLast(chunks, c);
        }
      }
      clean
  }

  /** One more chunk adds its stripped text at the end, unless it is blank. */
  lemma {:induction false} CleanedSnoc(chunks: seq<Chunk>, c: Chunk)
    ensures Cleaned(chunks + [c]) ==
      if Strip(ChunkText(c)) != [] then Cleaned(chunks) + [Strip(ChunkText(c))] else Cleaned(chunks)
  {
    SnocPrefix(chunks, c);
  }

  /** Cleaning keeps chunk order: it distributes over concatenation. */
  lemma {:induction false} CleanedAppend(a: seq<Chunk>, b: seq<Chunk>)
    ensures Cleaned(a + b) == Cleaned(a) + Cleaned(b)
    decreases |b|
  {
    if b == [] {
      AppendEmpty(a);
    } else {
      var init, last := b[..|b| - 1], b[|b| - 1];
      var ai := a + init;
      SplitLast(b);
      AppendAssociative(a, init, [last]);
      CleanedAppend(a, init);
      CleanedSnoc(ai, last);
      CleanedSnoc(init, last);
      var x, y, t := Cleaned(a), Cleaned(init), Strip(ChunkText(last));
      AppendAssociative(x, y, [t]);
    }
  }

  /** Nothing survives cleaning exactly when every chunk's text is blank. */
  lemma {:induction false} CleanedEmpty(chunks: seq<Chunk>)
    ensures Cleaned(chunks) == [] <==> forall c | c in chunks :: AllSpace(ChunkText(c))
  {
    forall c | c in chunks ensures Strip(ChunkText(c)) == [] <==> AllSpace(ChunkText(c)) {
      StripBlank(ChunkText(c));
    }
    if Cleaned(chunks) != [] {
      var s := Cleaned(chunks)[0];
      assert s in Cleaned(chunks);
    }
  }

  /** `sep.join(parts)`. */
  function Join(parts: seq<string>, sep: string): (joined: string)
    ensures parts == [] ==> joined == ""
    ensures |parts| == 1 ==> joined == parts[0]
  {
    if parts == [] then ""
    else if |parts| == 1 then parts[0]
    else Join(parts[..|parts| - 1], sep) + sep + parts[|parts| - 1]
  }

  /** Joining two non-empty runs of parts puts one separator between their joins. */
  lemma {:induction false} JoinAppend(a: seq<string>, b: seq<string>, sep: string)
    requires a != [] && b != []
    ensures Join(a + b, sep) == Join(a, sep) + sep + Join(b, sep)
    decreases |b|
  {
    var init, last := b[..|b| - 1], b[|b| - 1];
    DropLastAppend(a, b);
    if init != [] {
      JoinAppend(a, init, sep);
      var x, y := Join(a, sep) + sep, Join(init, sep);
      assert Join(a + b, sep) == ((x + y) + sep) + last;
      AppendAssociative(x + y, sep, last);
      AppendAssociative(x, y, sep + last);
      AppendAssociative(y, sep, last);
    } else {
      AppendEmpty(a);
    }
  }

  /** The guard on the model's reply: it is stripped, and a blank reply or one
      mentioning "no relevant information" in any case becomes the refusal. What
      comes out is non-empty and stripped, and is the refusal or a reply free of
      that phrase. */
  function Guard(content: string): (summary: string)
    ensures Strip(content) == [] ==> summary == Refusal
    ensures Contains(Lower(Strip(content)), RefusalPhrase) ==> summary == Refusal
    ensures summary == Refusal || (summary == Strip(content) && !Contains(Lower(summary), RefusalPhrase))
    ensures Strip(content) != [] && !Contains(Lower(Strip(content)), RefusalPhrase) ==> summary == Strip(content)
    ensures summary != [] && IsStripped(summary)
  {
    var stripped := Strip(content);
    RefusalStartsWithPhrase();
    if stripped == [] || Contains(Lower(stripped), RefusalPhrase) then Refusal else stripped
  }

  const RefusalHead := "No relevant information"
  const RefusalTail := " found in the provided documents."

  /** The refusal starts with a letter and ends with a full stop. */
  lemma RefusalParts()
    ensures Refusal[0] == 'N' && Refusal[|Refusal| - 1] == '.'
  {
    assert Refusal[0] == RefusalHead[0];
    assert Refusal[|Refusal| - 1] == RefusalTail[|RefusalTail| - 1];
  }

  /** The refusal is stripped and, lower-cased, begins with the phrase the guard looks for. */
  lemma RefusalStartsWithPhrase()
    ensures Refusal != [] && IsStripped(Refusal)
    ensures OccursAt(Lower(Refusal), RefusalPhrase, 0)
  {
    RefusalParts();
    assert Lower(RefusalHead) == RefusalPhrase;
    assert Refusal[..|RefusalHead|] == RefusalHead;
    assert Lower(Refusal)[..|RefusalHead|] == Lower(RefusalHead);
  }

  /** The refusal passes the guard unchanged. */
  lemma RefusalIsGuarded()
    ensures Guard(Refusal) == Refusal
  {
    RefusalStartsWithPhrase();
    StripStripped(Refusal);
  }

  /** Guarding a guarded reply changes nothing. */
  lemma GuardIdempotent(content: string)
    ensures Guard(Guard(content)) == Guard(content)
  {
    if Guard(content) == Refusal {
      RefusalIsGuarded();
    } else {
      StripStripped(Guard(content));
    }
  }

  /** What the task returns once the model has answered or raised. */
  function AfterLlm(reply: LlmReply): (summary: string)
    ensures reply.Content? ==> summary == Guard(reply.content)
    ensures reply.Raised? ==> |summary| >= |ErrorPrefix| && summary[..|ErrorPrefix|] == ErrorPrefix
  {
    match reply
    case Content(content) => Guard(content)
    case Raised(message) => ErrorPrefix + message
  }

  /** `summarize_chunks_task` as a function of its input and of the model. */
  function Summarize(context: TaskContext, llm: Prompt -> LlmReply): (r: Outcome)
    ensures var chunks, query := context.retrievedChunks.GetOr([]), context.query.GetOr("");
      && (r.llmPrompt.None? <==> Cleaned(chunks) == [])
      && (r.llmPrompt.None? ==> r.summary == Refusal)
      && (r.llmPrompt.Some? ==>
            && r.llmPrompt.value == Prompt(query, Join(Cleaned(chunks), ContextSeparator), DetectIntent(query),
                                           context.summaryLength.GetOr(DefaultSummaryLength))
            && r.summary == AfterLlm(llm(r.llmPrompt.value)))
  {
    var chunks := context.retrievedChunks.GetOr([]);
    if chunks == [] then Outcome(Refusal, None)
    else
      var clean := Cleaned(chunks);
      if clean == [] then Outcome(Refusal, None)
      else
        var query := context.query.GetOr("");
        var prompt := Prompt(query, Join(clean, ContextSeparator), DetectIntent(query),
                             context.summaryLength.GetOr(DefaultSummaryLength));
        Outcome(AfterLlm(llm(prompt)), Some(prompt))
  }

  /** An empty chunk list, or one whose every chunk is blank, gets exactly the
      refusal, and the model is not called. */
  lemma {:induction false} BlankChunksRefused(context: TaskContext, llm: Prompt -> LlmReply)
    requires forall c | c in context.retrievedChunks.GetOr([]) :: AllSpace(ChunkText(c))
    ensures Summarize(context, llm) == Outcome(Refusal, None)
  {
    CleanedEmpty(context.retrievedChunks.GetOr([]));
  }

  /** Every summary is the refusal, an error report, or a non-empty stripped
      answer that does not mention "no relevant information". */
  lemma SummaryShape(context: TaskContext, llm: Prompt -> LlmReply)
    ensures var s := Summarize(context, llm).summary;
      || s == Refusal
      || (|s| >= |ErrorPrefix| && s[..|ErrorPrefix|] == ErrorPrefix)
      || (s != [] && IsStripped(s) && !Contains(Lower(s), RefusalPhrase))
  {
  }

  /** The cleaning loop: each chunk's text is stripped and kept when not blank. */
  method CleanContext(chunks: seq<Chunk>) returns (clean: seq<string>)
    ensures clean == Cleaned(chunks)
  {
    clean := [];
    for i := 0 to |chunks|
      invariant clean == Cleaned(chunks[..i])
    {
      PrefixStep(chunks, i);
      var text := ChunkText(chunks[i]);
      if text != [] && Strip(text) != [] {
        clean := clean + [Strip(text)];
      }
    }
    PrefixFull(chunks);
  }

  /** `summarize_chunks_task`, step by step. */
  method SummarizeChunksTask(context: TaskContext, llm: Prompt -> LlmReply) returns (r: Outcome)
    ensures r == Summarize(context, llm)
  {
    var chunks := context.retrievedChunks.GetOr([]);
    var summaryLength := context.summaryLength.GetOr(DefaultSummaryLength);
    var query := context.query.GetOr("");
    if chunks == [] {
      return Outcome(Refusal, None);
    }
    var clean := CleanContext(chunks);
    if clean == [] {
      return Outcome(Refusal, None);
    }
    var contextText := Join(clean, ContextSeparator);
    var instruction := DetectIntent(query);
    var prompt := Prompt(query, contextText, instruction, summaryLength);
    var reply := llm(prompt);
    r := Outcome(AfterLlm(reply), Some(prompt));
  }
}
