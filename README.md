# Agentic retrieval over financial filings, in Dafny

This project models the core of a retrieval-augmented question-answering
pipeline over 10-K filings and proves properties of that model. The core has
five parts.

- **Chunker** (`chunking.dfy`, module `Chunking`). Each PDF's element
  stream becomes chunks. Elements are appended, each with a newline, to an
  accumulator, which closes a chunk once it reaches 300 characters before
  stripping, or at the file's last element. The chunk's body is the
  stripped accumulator, which may be much shorter than 300 characters.
  Every chunk is headed by a provenance line. The company and fiscal year in
  that line come from the file name, read with the anchored pattern
  `([a-zA-Z]+)-10-k-(\d{4})\.pdf`. After a chunk closes, its last 100
  characters, left-stripped, seed the next one. Non-blank text left after the
  last element becomes one more chunk. A file whose partitioning fails is
  skipped.
- **Query decomposition** (`query_decomposition.dfy`, module
  `QueryDecomposition`). A language model is asked for a numbered list of
  sub-queries. The reply is read with `re.findall(r'^\d+\.\s*(.*)', reply,
  re.MULTILINE)`; each capture is stripped and blank captures are dropped.
  A missing model or a failing call falls back to the question itself.
- **Single retrieval** (`rag.dfy`, module `Rag`). Only the first
  row of a vector-store answer is read. Its documents and metadatas are
  zipped into (content, metadata) pairs.
- **Agentic query** (`rag_agent.dfy`, module `RagAgent`). The steps are:
  - check that both models are present;
  - decompose the question;
  - retrieve `n` neighbours per sub-query and concatenate them without
    de-duplication (`n` is a parameter; the script's default is three);
  - label each source with the company and year its file name gives;
  - build the context of "Source: C (Y), Page: P / Content: X" blocks;
  - synthesize an answer from that context;
  - assemble the result record.
- **Index preparation** (`embedding.dfy`, module `Embedding`). Chunk `i`
  gets the id `chunk_i`. The `coordinates` key is dropped from its metadata
  and list values are comma-joined. The three parallel lists are then handed
  to the store in batches of 100.

Supporting modules:

- `Wrappers` holds `Option`.
- `Seqs` holds a generic in-order concatenation, `ConcatMap`, and its laws.
- `Text` holds Python's `strip`/`lstrip` over ASCII whitespace, ASCII
  digits, letters and upper-casing, decimal rendering of integers, and
  `str.join`.
- `Values` holds metadata values: a scalar string or integer, or a list of
  scalars.

The Python scripts work by mutation, so each loop is a Dafny method. Each
method is proved equal to a specification function: `ChunkDocument`,
`ChunkCorpus`, `RagQuery`, `RetrieveForAll`, `PrepareSources`,
`AgenticRagQuery`, `ProcessMetadata`, `PrepareRecords` and `AddInBatches`.
The lemmas state the properties of those functions.

The chunker's specification records the accumulator's whole history in a
`Trace`: every closed accumulator, and the element that closed it. The
lemmas describe each chunk through that history.

Collaborators are parameters of the model:

- the vector store, including query embedding, is `Rag.Store`, a function
  from (text, n) to an optional answer;
- each language model is `QueryDecomposition.Generator`, a function from a
  prompt to an optional reply, where None stands for a call that raises;
- the partitioner's output is a `Chunking.SourceFile` with an optional
  element list.

## Model

| member | source | states |
|---|---|---|
| Chunking.FileNameMatch | chunking.py:26 | the file-name matcher succeeds with groups (letters, digits) exactly when the name starts with a non-empty run of ASCII letters, "-10-k-", four digits and ".pdf"; anything may follow |
| Chunking.MatchFileName | chunking.py:26 | the start-anchored file-name pattern and its two groups; specified by `FileNameMatch` |
| Chunking.CompanyYear | chunking.py:26-28 | company and year from the file name, or the name itself and "N/A"; specified by `CompanyYearMatched` and `CompanyYearUnmatched` |
| Chunking.Header | chunking.py:42 | the provenance line "This excerpt is from company C FY Y." with a newline; `ChunkContent` states that every chunk starts with it |
| Chunking.CompanyYearMatched | chunking.py:26-28 | a name of that shape, with any suffix, gives the upper-cased letters as company and the four digits as year |
| Chunking.CompanyYearUnmatched | chunking.py:26-28 | any other name is its own company, with year "N/A" |
| Chunking.ElementMetadataFacts | chunking.py:35-39 | an element's metadata keeps its keys and values, gains `source` = the file name, and gets `page_number` defaulting to "N/A" |
| Chunking.ElementMetadata | chunking.py:35-39 | an element's metadata with `source` and `page_number` set; specified by `ElementMetadataFacts` |
| Chunking.CarryFacts | chunking.py:61-63 | the carry is at most 100 characters; it is a suffix of the accumulator; it does not start with whitespace; only whitespace of the last 100 characters was dropped |
| Chunking.Carry | chunking.py:63 | the overlap kept after a chunk closes; specified by `CarryFacts` |
| Chunking.RunWellShaped | chunking.py:33-63 | after k elements, each closed chunk has a closing element; those elements are increasing indices below k |
| Chunking.Step | chunking.py:33-63 | one iteration of the element loop on the accumulator history; its rules are stated by `RunCloseRule`, `RunAccumulatorRule` and `RunEmittedRule` |
| Chunking.Run | chunking.py:31-63 | the accumulator history after the first k elements; specified by `RunWellShaped`, `RunCloseRule` and `RunAccumulatorRule` |
| Chunking.Emitted | chunking.py:48-59 | the chunks appended inside the element loop, one for each step that closed an accumulator, read off the history `Run` keeps; specified by `RunEmittedRule` and `LastChunkClosed` |
| Chunking.Chunks | chunking.py:31-74 | the loop's chunks followed by the trailing chunk; specified by `ChunkFileEmpty`, `ChunkCount`, `ChunkContent`, `ChunkMetadata`, `TrailingChunk` and `TrailingRepeats` |
| Chunking.ChunkFile | chunking.py:25-74 | one file's chunks under its header; `ChunkDocument` is proved equal to it |
| Chunking.RunCloseRule | chunking.py:45-51 | every closed accumulator reached 300 characters or was closed by the file's last element; an element that closed nothing left fewer than 300 characters pending and was not the last |
| Chunking.RunAccumulatorRule | chunking.py:45-63 | every closed accumulator, and the pending one, is the previous carry followed by each element taken since, with a newline after each; the overlap is the only duplicated text |
| Chunking.RunEmittedRule | chunking.py:42-59 | the j-th emitted chunk is the header plus the j-th accumulator stripped, with the metadata of the element that closed it |
| Chunking.LastElementCloses | chunking.py:51-63 | the last element always closes a chunk, and the remainder is that chunk's carry |
| Chunking.ChunkFileEmpty | chunking.py:31-74 | a file yields no chunk exactly when it has no element |
| Chunking.ChunkCount | chunking.py:33-74 | a file yields at most one chunk per element plus one |
| Chunking.ClosedAtThreshold | chunking.py:45-51 | each chunk closed in the loop had an accumulator of at least 300 characters, or was closed by the last element |
| Chunking.ChunkContent | chunking.py:42-69 | every chunk is the header followed by a body with no leading or trailing whitespace |
| Chunking.ChunkMetadata | chunking.py:38-72 | every chunk carries the processed metadata of one of the file's elements, with `source` = the file name and a `page_number` |
| Chunking.TrailingChunk | chunking.py:67-74 | the emitted chunks come first; one more follows exactly when the remainder is not blank |
| Chunking.LastChunkClosed | chunking.py:51-63 | the chunk closed by the last element is the last one emitted; it has the last element's metadata, and the remainder is its carry |
| Chunking.CarriedBody | chunking.py:53-69 | the stripped carry of an accumulator is a suffix of the stripped accumulator |
| Chunking.TrailingRepeats | chunking.py:63-74 | a trailing chunk follows the last emitted chunk, has its metadata, and its body is a suffix of that chunk's body |
| Chunking.ShortElementRepeats | chunking.py:45-74 | a file of one short stripped element yields two identical chunks |
| Chunking.ChunkDocument | chunking.py:25-74 | the element loop with its trailing chunk computes exactly the file's chunk list as specified |
| Chunking.FailedPartitionSkipped | chunking.py:16-78 | a file whose partitioning raised adds no chunk, and the files around it are chunked as if it were absent |
| Chunking.FileChunks | chunking.py:14-78 | a file's chunks, or none when partitioning raised; specified by `FailedPartitionSkipped` |
| Chunking.CorpusChunks | chunking.py:11-78 | the files' chunks in listing order; `ChunkCorpus` is proved equal to it |
| Chunking.ChunkCorpus | chunking.py:11-78 | the loop over the data directory yields the files' chunk lists concatenated in listing order |
| QueryDecomposition.MatchAt | query_decomposition.py:59 | a match tried at a position ends after it, at most at the end of the reply, and its capture holds no newline; it exists only where digits and a period start |
| QueryDecomposition.Scan | query_decomposition.py:59 | no capture of the multi-line search holds a newline |
| QueryDecomposition.Clean | query_decomposition.py:60 | cleaning never yields more sub-queries than captures; each is non-empty and stripped; single-line captures stay single-line |
| QueryDecomposition.CleanKeeps | query_decomposition.py:60 | cleaning leaves a list of non-empty, stripped, one-line texts unchanged |
| QueryDecomposition.CleanOne | query_decomposition.py:60 | a blank capture is dropped; any other gives one sub-query, the capture's own text with whitespace removed only at either end |
| QueryDecomposition.CleanAppend | query_decomposition.py:60 | cleaning keeps the captures' order: cleaning joined captures joins the cleaned lists |
| QueryDecomposition.ParseSubQueries | query_decomposition.py:57-60 | the multi-line search followed by cleaning; specified by `NumberedListRoundTrip`, `IntroducedListRoundTrip`, `NoNumberedLine` and `WhitespaceCrossesLines` |
| QueryDecomposition.DecompositionPrompt | query_decomposition.py:39-53 | the prompt holds the query verbatim between fixed instructions |
| QueryDecomposition.Decompose | query_decomposition.py:23-65 | a missing model or a failing call gives exactly `[query]`; otherwise every sub-query is non-empty, stripped and one line |
| QueryDecomposition.SkipWithinLine | query_decomposition.py:59 | no match starts inside a line: the search goes on at the next line |
| QueryDecomposition.ScanNumberedList | query_decomposition.py:59 | after a line break, a numbered list is read back item by item, in order |
| QueryDecomposition.NumberedListRoundTrip | query_decomposition.py:57-60 | a reply that is a numbered list of sub-queries parses back to exactly those sub-queries |
| QueryDecomposition.PreambleIgnored | query_decomposition.py:59 | a first line not starting with digits and a period contributes nothing |
| QueryDecomposition.IntroducedListRoundTrip | query_decomposition.py:57-60 | an introductory line followed by a numbered list parses to exactly the listed sub-queries |
| QueryDecomposition.ScanNothing | query_decomposition.py:59 | where no line start begins a match, the search finds nothing |
| QueryDecomposition.NoNumberedLine | query_decomposition.py:57-62 | a reply without a numbered line yields the empty list, not the query |
| QueryDecomposition.DecomposeNumberedList | query_decomposition.py:54-62 | a model replying with a numbered list of sub-queries has exactly those returned |
| QueryDecomposition.WhitespaceCrossesLines | query_decomposition.py:59 | "1." alone on a line captures the next line: the reply "1.\nfoo" gives ["foo"] |
| Rag.Zip | rag.py:15 | the pairs have the length of the shorter row, and the k-th pair is (documents[k], metadatas[k]) |
| Rag.Retrieved | rag.py:13-21 | a missing answer, or one without documents or metadatas, gives []; otherwise the first rows are zipped in order |
| Rag.RagQuery | rag.py:1-21 | the loop over the zipped first row returns exactly the specified sources |
| Rag.OnlyFirstRowRead | rag.py:14-15 | answers whose first rows agree up to the shorter length give the same sources |
| RagAgent.RetrieveAllAppend | rag_agent.py:50-54 | retrieval for two lists of sub-queries in turn is retrieval for the joined list |
| RagAgent.RepeatedSubQuery | rag_agent.py:50-54 | a repeated sub-query retrieves its sources twice: no de-duplication |
| RagAgent.RetrieveAll | rag_agent.py:50-54 | the sources of every sub-query, in order; specified by `RetrieveAllAppend` and `RepeatedSubQuery`, and `RetrieveForAll` is proved equal to it |
| RagAgent.RetrieveForAll | rag_agent.py:50-54 | the retrieval loop yields each sub-query's sources concatenated in sub-query order |
| RagAgent.MissingSourceName | rag_agent.py:61-71 | a source without a file name gets company "" and year "N/A"; excerpt and page are kept |
| RagAgent.SourceName | rag_agent.py:61-62 | the stored file name, "" when absent, and no name when it is not a string (the `TypeError` of `re.match`); used by `PrepareFails` |
| RagAgent.PageOf | rag_agent.py:70 | the stored page number, or "N/A"; stated per source by `CompleteSpec` |
| RagAgent.Structure | rag_agent.py:61-71 | one retrieved source labelled with company, year, excerpt and page; specified by `MissingSourceName` and `PrepareContents` |
| RagAgent.Block | rag_agent.py:72 | one source's "Source: C (Y), Page: P / Content: X" block of the context |
| RagAgent.Context | rag_agent.py:57-72 | the blocks of all sources concatenated in order; `PrepareContents` states that the loop builds it |
| RagAgent.PrepareFails | rag_agent.py:57-64 | structuring fails (`TypeError`) exactly when some retrieved file name is not a string |
| RagAgent.PrepareContents | rag_agent.py:57-72 | otherwise there is one structured source per retrieved source, in order, labelled by the chunker's company/year rule, and the context is their blocks concatenated in order |
| RagAgent.PrepareSources | rag_agent.py:57-72 | the structuring loop computes exactly the specified sources and context |
| RagAgent.Synthesize | rag_agent.py:77-106 | a failing call gives "Error during synthesis."; otherwise the answer is the reply's own text with whitespace removed only at either end, none left at either end, and empty exactly when the reply is blank |
| Text.StripTrims | rag_agent.py:102 | Python's `str.strip` keeps the text and removes only whitespace, at either end |
| Text.StripUnique | rag_agent.py:102 | any trim of a text that leaves no whitespace at either end, and nothing only for a blank text, is its `strip` |
| RagAgent.SynthesisPrompt | rag_agent.py:78-100 | the synthesis prompt: fixed instructions around the context, without the question; `AnswerFromSourcesOnly` relies on it |
| RagAgent.AgenticRagQuery | rag_agent.py:17-118 | the whole query computes exactly the specified outcome |
| RagAgent.Complete | rag_agent.py:56-118 | structuring, synthesis and the result record once the sub-queries are retrieved; specified by `CompleteSpec` |
| RagAgent.AgenticRag | rag_agent.py:17-118 | the whole query; specified by `MissingModel` and `SourcesFollowRetrieval`, and `AgenticRagQuery` is proved equal to it |
| RagAgent.MissingModel | rag_agent.py:33-41 | without either model, the result is returned unserialized with the question, the not-initialized answer and reasoning, and no sub-queries or sources, whatever the store |
| RagAgent.CompleteSpec | rag_agent.py:56-116 | a `TypeError` exactly when a file name is not a string; otherwise the result has the question verbatim, the fixed reasoning and the given sub-queries; it has one source per retrieved chunk with its excerpt, page and company/year; the answer is synthesized from the context of those sources |
| RagAgent.SourcesFollowRetrieval | rag_agent.py:45-116 | with both models, the sub-queries are the decomposition's; failure happens exactly when a retrieved name is not a string; there is one source per retrieved chunk, and the answer comes from their context |
| RagAgent.AnswerFromSourcesOnly | rag_agent.py:77-106 | two completions with the same structured sources send the same synthesis prompt, whatever their questions; their answers agree whenever the replies to that prompt agree |
| Embedding.ChunkId | embedding.py:26 | an id is "chunk_" followed by decimal digits |
| Embedding.ChunkIdInjective | embedding.py:26 | two indexes give the same id exactly when they are equal |
| Embedding.ProcessedMetadata | embedding.py:30-38 | the processed keys are the original ones minus `coordinates`; scalars are unchanged; lists are `", ".join(map(str, …))` |
| Embedding.FlattenExample | embedding.py:34-35 | the list [1, 2] is stored as "1, 2" |
| Embedding.ShowAll | embedding.py:35 | `map(str, …)` over a list: one rendering per item, in order |
| Embedding.Flatten | embedding.py:34-37 | a list value joined with ", ", a scalar kept; `ProcessedMetadata` states it per key |
| Embedding.ProcessMetadata | embedding.py:30-38 | the key-by-key loop computes exactly the processed metadata |
| Embedding.PrepareRecords | embedding.py:21-38 | ids, documents and metadatas have one entry per chunk: id `chunk_i`, the chunk's content, its processed metadata |
| Embedding.IdsDistinct | embedding.py:25-26 | the prepared ids are pairwise distinct |
| Embedding.Slice | embedding.py:44-46 | a slice has the clamped length and the elements from its start on |
| Embedding.Batch | embedding.py:44-46 | the three slices of one batch from its start; specified by `BatchShape` and `BatchIdsPrefix` |
| Embedding.BatchCount | embedding.py:43 | the number of batches is the least count of 100-record batches covering all records; it is zero exactly when there are none |
| Embedding.AddInBatches | embedding.py:42-57 | one `add` call per start 0, 100, 200, …, each with the three slices from that start |
| Embedding.BuildIndex | embedding.py:21-57 | the whole preparation issues those calls over the ids, documents and processed metadata of the chunks |
| Embedding.BatchShape | embedding.py:43-57 | each batch holds 1 to 100 records; when the three lists have the same length, its id, document and metadata slices are aligned with the records |
| Embedding.BatchIdsPrefix | embedding.py:43-46 | the ids of the first b batches are the first min(100b, n) ids |
| Embedding.BatchesCoverIds | embedding.py:43-46 | the batches' ids joined in order are exactly the ids: every record once, in order |

## Left out

- **External services.** The language models, the PDF partitioner, the sentence-transformer encoder and the vector store are parameters of the model. Their construction and the module-level initialisation (rag_agent.py:9-14, query_decomposition.py:8-20, embedding.py:6-17) are not modelled.
- **Embedding vectors.** These are floats. `Embedding.AddCall` records the ids, documents and metadatas of an `add` call but not its embeddings. `Rag.Store` takes the query text in place of its embedding.
- **Prompt wording.** The instruction text is abstracted to placeholder constants. The model keeps only where the query (decomposition) and the context (synthesis) are placed.
- **Serialisation, logging and files.** `json.dumps` (rag_agent.py:118), `print` logging and the write of `chunks_with_metadata.json` (chunking.py:80-86) are not modelled. The outcome only records whether the result is returned as a dictionary (`Unserialized`, the null-model path) or as JSON text (`Serialized`).
- **Other modules.** The command-line entry point (main.py) and the `__main__` demo blocks (rag_agent.py:120-123, rag.py:24-27, query_decomposition.py:67-70) are not part of this model.
- **Unicode.** Whitespace, `\d`, letters and `upper` are ASCII only. Whitespace is the set `str.strip` removes within ASCII: `\t`–`\r` and `\x1c`–`\x1f` and space.
- **Metadata values.** Only strings and integers are modelled, as scalars or lists. Floats, booleans, `None` and nested structures are not.
- **Exceptions.** Besides the modelled ones, other exceptions are not modelled. The modelled ones are: a failing partition (file skipped), a failing decomposition or synthesis call (fallback), and the `TypeError` of `re.match` on a non-string file name (`RaisedTypeError`). Not modelled: errors raised by the store during retrieval.
- **Directory order.** The data directory's listing order is taken as given (`Chunking.ChunkCorpus` takes the files in a sequence).

Behaviours of the code that its comments and names do not announce, and that the model keeps:

- **File-name pattern.** It is anchored only at the start, so text after `.pdf` is allowed (`Chunking.CompanyYearMatched`).
- **Duplicated final chunk.** The last element always closes a chunk and then leaves its carry behind. So a file whose last 100 characters are not blank ends with a chunk that repeats the tail of the one before. A single short element yields two identical chunks (`Chunking.ShortElementRepeats`).
- **No numbered lines.** A reply with no numbered line gives no sub-query, rather than the original query (`QueryDecomposition.NoNumberedLine`).
- **Synthesis prompt.** It holds the context but not the question (`RagAgent.SynthesisPrompt`).
