/**
 * The agentic query (rag_agent.py): the question is decomposed into
 * sub-queries, each sub-query retrieves its neighbours, every retrieved
 * chunk is labelled with the company and year its file name gives, and a
 * second model answers from the combined context alone.
 */
module RagAgent {
  import opened Wrappers
  import opened Text
  import opened Values
  import Chunking
  import opened QueryDecomposition
  import opened Rag
  import opened Seqs

  /** Lines 66-71: one source as the result lists it. */
  datatype StructuredSource = StructuredSource(company: string, year: string, excerpt: string, page: Atom)

  /** Lines 35-41 and 110-116: the fields of the result. */
  datatype AgenticResult = AgenticResult(question: string, answer: string, reasoning: string,
                                         subQueries: seq<string>, sources: seq<StructuredSource>)

  /**
   * How the call ends: the result returned as it is (no model), the result
   * returned serialized as JSON text, or a `TypeError` from matching a file
   * name that is not a string.
   */
  datatype Outcome = Unserialized(result: AgenticResult) | Serialized(result: AgenticResult) | RaisedTypeError

  const NotInitializedAnswer := "Error: LLM models not initialized."
  const NotInitializedReasoning := "LLM models required for decomposition and synthesis are not available."
  const SynthesisError := "Error during synthesis."
  const CompletedReasoning := "Query decomposed, multi-step retrieval performed, and results synthesized."

  // ---------------------------------------------------------------------
  // Retrieval for every sub-query
  // ---------------------------------------------------------------------

  /** Lines 52-53: the sources one sub-query retrieves. */
  function SubQuerySources(store: Store, n: nat): string -> seq<RetrievedSource> {
    q => Retrieved(store(q, n))
  }

  /** Lines 50-54: the sources of all sub-queries, in sub-query order, nothing merged or dropped. */
  function RetrieveAll(store: Store, subQueries: seq<string>, n: nat): seq<RetrievedSource> {
    ConcatMap(SubQuerySources(store, n), subQueries)
  }

  /** Retrieving for two lists of sub-queries in turn is retrieving for the joined list. */
  lemma RetrieveAllAppend(store: Store, a: seq<string>, b: seq<string>, n: nat)
    ensures RetrieveAll(store, a + b, n) == RetrieveAll(store, a, n) + RetrieveAll(store, b, n)
  {
    ConcatMapAppend(SubQuerySources(store, n), a, b);
  }

  /** A sub-query that occurs twice retrieves its sources twice: there is no deduplication. */
  lemma RepeatedSubQuery(store: Store, q: string, n: nat)
    ensures RetrieveAll(store, [q, q], n) == Retrieved(store(q, n)) + Retrieved(store(q, n))
  {
    var f := SubQuerySources(store, n);
    ConcatMapSnoc(f, [], q);
    ConcatMapSnoc(f, [q], q);
    assert [] + [q] == [q] && [q] + [q] == [q, q];
  }

  // ---------------------------------------------------------------------
  // Structured sources and the combined context
  // ---------------------------------------------------------------------

  /** Line 61: `metadata.get('source', '')`; None when the value is not a string. */
  function SourceName(m: StoredMetadata): Option<string> {
    if SourceKey !in m then Some("")
    else match m[SourceKey]
      case Str(s) => Some(s)
      case Int(_) => None
  }

  /** Lines 70 and 72: `metadata.get('page_number', 'N/A')`. */
  function PageOf(m: StoredMetadata): Atom {
    if PageNumberKey in m then m[PageNumberKey] else Str(NotAvailable)
  }

  /** Lines 61-71: one retrieved source labelled with its company and year. */
  function Structure(source: RetrievedSource): Option<StructuredSource> {
    match SourceName(source.metadata)
    case None => None
    case Some(name) =>
      var (company, year) := Chunking.CompanyYear(name);
      Some(StructuredSource(company, year, source.content, PageOf(source.metadata)))
  }

  /**
   * Lines 61-64: a source without a file name is labelled with the empty
   * company and year "N/A"; its excerpt and page are kept.
   */
  lemma MissingSourceName(content: string, m: StoredMetadata)
    requires SourceKey !in m
    ensures Structure(RetrievedSource(content, m)) == Some(StructuredSource("", NotAvailable, content, PageOf(m)))
  {
    assert Chunking.LetterRun("", 0) == 0;
  }

  /** Line 72: the context block of one source. */
  function Block(s: StructuredSource): string {
    "Source: " + s.company + " (" + s.year + "), Page: " + Show(s.page) + "\nContent: " + s.excerpt + "\n\n"
  }

  /** The combined context: the blocks of the sources, in order. */
  function Context(ss: seq<StructuredSource>): string {
    ConcatMap(Block, ss)
  }

  /** What the loop of lines 57-72 builds: the structured sources and the combined context. */
  datatype Prepared = Prepared(sources: seq<StructuredSource>, context: string)

  /** How one retrieved source is labelled: its structured form, or None for a `TypeError`. */
  type Labeller = RetrievedSource -> Option<StructuredSource>

  /** The loop of lines 57-72 for any labelling of a source: None as soon as one fails. */
  function PrepareWith(labelOf: Labeller, rs: seq<RetrievedSource>): Option<Prepared> {
    if rs == [] then Some(Prepared([], ""))
    else
      match PrepareWith(labelOf, rs[..|rs| - 1])
      case None => None
      case Some(p) =>
        match labelOf(rs[|rs| - 1])
        case None => None
        case Some(s) => Some(Prepared(p.sources + [s], p.context + Block(s)))
  }

  /** Lines 57-72: the sources structured in order and their context; None for a `TypeError`. */
  function Prepare(rs: seq<RetrievedSource>): Option<Prepared> {
    PrepareWith(Structure, rs)
  }

  /** The loop gets through every source exactly when every labelling succeeds. */
  lemma {:induction false} PrepareWithFails(labelOf: Labeller, rs: seq<RetrievedSource>)
    ensures PrepareWith(labelOf, rs).Some? <==> forall k :: 0 <= k < |rs| ==> labelOf(rs[k]).Some?
  {
    if rs != [] {
      var init := rs[..|rs| - 1];
      PrepareWithFails(labelOf, init);
      assert forall k :: 0 <= k < |init| ==> init[k] == rs[k];
    }
  }

  /** `p` holds one labelled source per retrieved source, in order, and their context. */
  ghost predicate Describes(labelOf: Labeller, rs: seq<RetrievedSource>, p: Prepared) {
    && |p.sources| == |rs|
    && (forall k :: 0 <= k < |rs| ==> labelOf(rs[k]) == Some(p.sources[k]))
    && p.context == Context(p.sources)
  }

  /** Labelling one more source keeps the description. */
  lemma DescribesSnoc(labelOf: Labeller, rs: seq<RetrievedSource>, p: Prepared, x: RetrievedSource,
                      s: StructuredSource)
    requires Describes(labelOf, rs, p) && labelOf(x) == Some(s)
    ensures Describes(labelOf, rs + [x], Prepared(p.sources + [s], p.context + Block(s)))
  {
    assert (p.sources + [s])[..|p.sources|] == p.sources;
    ConcatMapSnoc(Block, p.sources, s);
  }

  lemma {:induction false} PrepareWithContents(labelOf: Labeller, rs: seq<RetrievedSource>)
    ensures PrepareWith(labelOf, rs).Some? ==> Describes(labelOf, rs, PrepareWith(labelOf, rs).value)
  {
    if rs != [] && PrepareWith(labelOf, rs).Some? {
      var init := rs[..|rs| - 1];
      PrepareWithContents(labelOf, init);
      assert rs == init + [rs[|rs| - 1]];
      DescribesSnoc(labelOf, init, PrepareWith(labelOf, init).value, rs[|rs| - 1], labelOf(rs[|rs| - 1]).value);
    }
  }

  /** Every file name is a string: the sources the loop of lines 59-72 gets through. */
  predicate AllNamed(rs: seq<RetrievedSource>) {
    forall k :: 0 <= k < |rs| ==> SourceName(rs[k].metadata).Some?
  }

  /** Lines 57-72: a `TypeError` exactly when some file name is not a string. */
  lemma PrepareFails(rs: seq<RetrievedSource>)
    ensures Prepare(rs).Some? <==> AllNamed(rs)
  {
    PrepareWithFails(Structure, rs);
  }

  /**
   * Lines 57-72: otherwise one structured source per retrieved source, in
   * order, and the context made of their blocks.
   */
  lemma PrepareContents(rs: seq<RetrievedSource>)
    ensures Prepare(rs).Some? ==>
      var p := Prepare(rs).value;
      && |p.sources| == |rs|
      && (forall k :: 0 <= k < |rs| ==> Structure(rs[k]) == Some(p.sources[k]))
      && p.context == Context(p.sources)
  {
    PrepareWithContents(Structure, rs);
  }

  // ---------------------------------------------------------------------
  // Synthesis and the whole query
  // ---------------------------------------------------------------------

  /** The fixed instructions before the context; their wording is not part of this model. */
  const SynthesisInstructions := "[synthesis instructions]\nContext:\n"
  const AnswerCue := "\n\nSynthesized Answer:\n"

  /** Lines 78-100: the prompt holds the combined context and nothing of the question. */
  function SynthesisPrompt(context: string): string {
    SynthesisInstructions + context + AnswerCue
  }

  /**
   * Lines 77-106: the fixed error text when the call raises; otherwise the
   * reply's own text with the whitespace at either end removed.
   */
  function Synthesize(context: string, synthesizer: Generator): (answer: string)
    ensures synthesizer(SynthesisPrompt(context)).None? ==> answer == SynthesisError
    ensures synthesizer(SynthesisPrompt(context)).Some? ==>
      var reply := synthesizer(SynthesisPrompt(context)).value;
      Trims(reply, answer) && IsStripped(answer) && (answer == "" <==> IsBlank(reply))
  {
    match synthesizer(SynthesisPrompt(context))
    case None => SynthesisError
    case Some(reply) =>
      StripFacts(reply);
      StripTrims(reply);
      Strip(reply)
  }

  /** Lines 56-118 once the sub-queries are known and their sources retrieved. */
  function Complete(question: string, subQueries: seq<string>, rs: seq<RetrievedSource>,
                    synthesizer: Generator): Outcome
  {
    match Prepare(rs)
    case None => RaisedTypeError
    case Some(p) =>
      Serialized(AgenticResult(question, Synthesize(p.context, synthesizer), CompletedReasoning, subQueries, p.sources))
  }

  /** Lines 17-118 as a specification. */
  function AgenticRag(question: string, store: Store, decomposer: Option<Generator>,
                      synthesizer: Option<Generator>, n: nat): Outcome
  {
    if decomposer.None? || synthesizer.None? then
      Unserialized(AgenticResult(question, NotInitializedAnswer, NotInitializedReasoning, [], []))
    else
      var subQueries := Decompose(question, decomposer);
      Complete(question, subQueries, RetrieveAll(store, subQueries, n), synthesizer.value)
  }

  /** Lines 50-54: the retrieval loop. */
  method RetrieveForAll(subQueries: seq<string>, store: Store, n: nat) returns (allRetrieved: seq<RetrievedSource>)
    ensures allRetrieved == RetrieveAll(store, subQueries, n)
  {
    allRetrieved := [];
    for i := 0 to |subQueries|
      invariant allRetrieved == RetrieveAll(store, subQueries[..i], n)
    {
      var retrieved := RagQuery(subQueries[i], store, n);
      assert subQueries[..i + 1] == subQueries[..i] + [subQueries[i]];
      ConcatMapSnoc(SubQuerySources(store, n), subQueries[..i], subQueries[i]);
      allRetrieved := allRetrieved + retrieved;
    }
    assert subQueries[..|subQueries|] == subQueries;
  }

  /** Lines 57-72: the structuring loop; None when a file name is not a string. */
  method PrepareSources(allRetrieved: seq<RetrievedSource>) returns (prepared: Option<Prepared>)
    ensures prepared == Prepare(allRetrieved)
  {
    var context := "";
    var structured: seq<StructuredSource> := [];
    for j := 0 to |allRetrieved|
      invariant Prepare(allRetrieved[..j]) == Some(Prepared(structured, context))
    {
      var source := allRetrieved[j];
      assert allRetrieved[..j + 1][..j] == allRetrieved[..j];
      assert allRetrieved[..j + 1][j] == source;
      var filename := SourceName(source.metadata);
      if filename.None? {
        PrepareFails(allRetrieved[..j + 1]);
        PrepareFails(allRetrieved);
        return None;
      }
      var (company, year) := Chunking.CompanyYear(filename.value);
      var page := PageOf(source.metadata);
      var entry := StructuredSource(company, year, source.content, page);
      assert Structure(source) == Some(entry);
      structured := structured + [entry];
      var block := "Source: " + company + " (" + year + "), Page: " + Show(page)
                   + "\nContent: " + source.content + "\n\n";
      assert block == Block(entry);
      context := context + block;
    }
    assert allRetrieved[..|allRetrieved|] == allRetrieved;
    return Some(Prepared(structured, context));
  }

  /** Lines 17-118 as the script runs them. */
  method AgenticRagQuery(complexQuery: string, store: Store, decomposer: Option<Generator>,
                         synthesizer: Option<Generator>, nResultsPerSubquery: nat)
    returns (outcome: Outcome)
    ensures outcome == AgenticRag(complexQuery, store, decomposer, synthesizer, nResultsPerSubquery)
  {
    if decomposer.None? || synthesizer.None? {
      return Unserialized(AgenticResult(complexQuery, NotInitializedAnswer, NotInitializedReasoning, [], []));
    }
    var subQueries := Decompose(complexQuery, decomposer);
    var allRetrieved := RetrieveForAll(subQueries, store, nResultsPerSubquery);
    var prepared := PrepareSources(allRetrieved);
    if prepared.None? {
      return RaisedTypeError;
    }
    var answer := Synthesize(prepared.value.context, synthesizer.value);
    outcome := Serialized(AgenticResult(complexQuery, answer, CompletedReasoning, subQueries, prepared.value.sources));
  }

  // ---------------------------------------------------------------------
  // Properties of the whole query
  // ---------------------------------------------------------------------

  /** Lines 33-41: without either model nothing is retrieved and the store is never consulted. */
  lemma MissingModel(question: string, store1: Store, store2: Store, decomposer: Option<Generator>,
                     synthesizer: Option<Generator>, n: nat)
    requires decomposer.None? || synthesizer.None?
    ensures var r := AgenticRag(question, store1, decomposer, synthesizer, n);
      && r == AgenticRag(question, store2, decomposer, synthesizer, n)
      && r.Unserialized? && r.result.question == question
      && r.result.subQueries == [] && r.result.sources == []
      && r.result.answer == NotInitializedAnswer && r.result.reasoning == NotInitializedReasoning
  {
  }

  /**
   * Lines 56-116: a `TypeError` exactly when some retrieved file name is not
   * a string; otherwise the result lists the sub-queries and one structured
   * source per retrieved chunk, in order, and the answer is synthesized from
   * the context of those sources alone.
   */
  lemma CompleteSpec(question: string, subQueries: seq<string>, rs: seq<RetrievedSource>, synthesizer: Generator)
    ensures var r := Complete(question, subQueries, rs, synthesizer);
      && (r.RaisedTypeError? <==> exists k :: 0 <= k < |rs| && SourceName(rs[k].metadata).None?)
      && (r.Serialized? ==>
            && r.result.question == question
            && r.result.reasoning == CompletedReasoning
            && r.result.subQueries == subQueries
            && |r.result.sources| == |rs|
            && (forall k :: 0 <= k < |rs| ==>
                 var s := r.result.sources[k];
                 && s.excerpt == rs[k].content && s.page == PageOf(rs[k].metadata)
                 && (s.company, s.year) == Chunking.CompanyYear(SourceName(rs[k].metadata).value))
            && r.result.answer == Synthesize(Context(r.result.sources), synthesizer))
  {
    PrepareFails(rs);
    PrepareContents(rs);
    if Prepare(rs).None? {
      assert !AllNamed(rs);
    }
  }

  /**
   * Lines 45-116: with both models, the result carries the decomposition's
   * sub-queries, the call fails exactly when a retrieved file name is not a
   * string, and otherwise there is one source per retrieved chunk and the
   * answer comes from their context.
   */
  lemma SourcesFollowRetrieval(question: string, store: Store, decomposer: Generator,
                               synthesizer: Generator, n: nat)
    ensures var subQueries := Decompose(question, Some(decomposer));
      var rs := RetrieveAll(store, subQueries, n);
      var r := AgenticRag(question, store, Some(decomposer), Some(synthesizer), n);
      && (r.RaisedTypeError? <==> exists k :: 0 <= k < |rs| && SourceName(rs[k].metadata).None?)
      && (r.Serialized? ==>
            && r.result.subQueries == subQueries
            && |r.result.sources| == |rs|
            && r.result.answer == Synthesize(Context(r.result.sources), synthesizer))
  {
    var subQueries := Decompose(question, Some(decomposer));
    CompleteSpec(question, subQueries, RetrieveAll(store, subQueries, n), synthesizer);
  }

  /**
   * Lines 78-102: the synthesis prompt is built from the structured sources
   * alone, so two completions with the same sources, whatever their
   * questions and sub-queries, send the same prompt; and their answers agree
   * whenever the synthesizers give the same reply to that prompt.
   */
  lemma AnswerFromSourcesOnly(q1: string, q2: string, sq1: seq<string>, sq2: seq<string>,
                              rs1: seq<RetrievedSource>, rs2: seq<RetrievedSource>, s1: Generator, s2: Generator)
    requires var r1 := Complete(q1, sq1, rs1, s1);
      var r2 := Complete(q2, sq2, rs2, s2);
      r1.Serialized? && r2.Serialized? && r1.result.sources == r2.result.sources
    ensures Prepare(rs1).Some? && Prepare(rs2).Some?
    ensures SynthesisPrompt(Prepare(rs1).value.context) == SynthesisPrompt(Prepare(rs2).value.context)
    ensures s1(SynthesisPrompt(Prepare(rs1).value.context)) == s2(SynthesisPrompt(Prepare(rs2).value.context)) ==>
      Complete(q1, sq1, rs1, s1).result.answer == Complete(q2, sq2, rs2, s2).result.answer
  {
    PrepareContents(rs1);
    PrepareContents(rs2);
  }
}
