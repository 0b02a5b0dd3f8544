# Context-engineering experiments: a verified model of the core

The repository runs four experiments on how a language model copes with
long contexts. This project models the deterministic logic under them,
in Dafny, and proves what that logic promises.

- **Chunk store of the retrieval experiment** (`Indexer`). Documents are
  cut into overlapping word windows. The windows are numbered `chunk_0`,
  `chunk_1`, … and carry their document's id and metadata. A search maps
  the positions the dense index returns back to chunks.
- **Rule-based context strategies** (`ContextStrategies`).
  - SELECT ranks history lines by keyword overlap with a stable sort.
  - COMPRESS replaces a long history by a fixed summary and its last
    three lines.
  - WRITE files key, NPC and password facts into a scratchpad, in place.
- **Model-backed memory strategies** (`MemoryStrategies`).
  - SELECT stores steps with their embeddings.
  - COMPRESS folds older steps into a running summary.
  - WRITE parses the model's extraction into a de-duplicated scratchpad.
  - Each is a class whose methods are proved against a pure step
    function. The lemmas are stated about that step function.
- **The agent** (`Agents`). It records actions, counts them, hands them
  to its strategy in order, and answers through the strategy.
- **Synthetic text** (`Data`, `FillerUtils`, `Generator`, `Drawing`).
  These build filler blocks, insert a needle fact at a fractional or
  named position, and generate the Hebrew retrieval corpus.

Python's semantics are written out in shared modules:
- `Text`: `str.split()` on whitespace runs, `join`, `split(sep)`,
  `strip`, `lower`, substring `in`, `str(int)`.
- `Slicing`: slice clamping and negative indices.
- `Values`: raised exceptions as `Result`, and dictionaries of values.
- `Randomness`: `random.choice` and `random.randint` as a stream of
  draws. The stream is a constructor parameter, so every proof holds for
  whatever the generator returns.

The language model is a function from a prompt to a reply. The sentence
encoder is a function from text to an embedding. The similarity rankings
(`np.argsort` over cosine similarities, FAISS search) are parameters
that hold the index list they return.

The retrieval experiment chunks documents and ranks chunks with FAISS
over sentence embeddings. The model covers the chunking, the search's
empty-index guard and its position filter exactly as written, including
Python's negative indexing; the ranking itself is an oracle.

## Model

| member | source | states |
|---|---|---|
| Indexer.VectorStore.constructor | task3_experiment/src/rag/indexer.py:20-41 | A new store keeps its chunk size and overlap, holds no chunks, counts zero, and has no index. |
| Indexer.VectorStore.CreateChunks | task3_experiment/src/rag/indexer.py:80-93 | The stepped loop returns exactly `ChunkTexts` of the document: ValueError on a zero step, nothing on a negative step, otherwise the kept windows in order. |
| Indexer.ChunkTexts | task3_experiment/src/rag/indexer.py:85 | Chunking fails, with ValueError, exactly when `chunk_size == overlap`. When `overlap > chunk_size` it succeeds with no chunks. |
| Indexer.WindowsShape | task3_experiment/src/rag/indexer.py:82-91 | Every chunk text is the single-space join of `words[s:s+chunk_size]`. Here `s` is a multiple of the step inside the document, and a window after the first holds more than `overlap` words. |
| Indexer.Window | task3_experiment/src/rag/indexer.py:86 | A window holds at most `chunk_size` words and starts with the word at its start index. |
| Indexer.FirstWindow | task3_experiment/src/rag/indexer.py:85-88 | A document without words gives no chunks. A document with words always gives its first window, `words[:chunk_size]`, as the first chunk. |
| Indexer.FiveWordsExample | task3_experiment/src/rag/indexer.py:85-89 | Five words with size 3 and overlap 1 give exactly `w0 w1 w2` and `w2 w3 w4`; the one-word tail window is dropped. |
| Indexer.ChunkId | task3_experiment/src/rag/indexer.py:54 | Definition with no contract of its own: `chunk_` followed by the counter in decimal. `ChunkIdInjective` states its property. |
| Indexer.Windows | task3_experiment/src/rag/indexer.py:85-91 | Definition with no contract of its own: the windows starting at every multiple of `chunk_size - overlap` below the word count, each joined with single spaces, skipping a later window of at most `overlap` words. `WindowsShape`, `FirstWindow` and `FiveWordsExample` state its properties. |
| Indexer.Corpus | task3_experiment/src/rag/indexer.py:45-62 | Definition with no contract of its own: each document's chunk texts in document order, numbered by one running counter and tagged with the document's id, domain and needle flag. `CorpusIds`, `CorpusIdsDistinct`, `CorpusProvenance` and `CorpusAppend` state its properties. |
| Indexer.ChunkIdInjective | task3_experiment/src/rag/indexer.py:54 | Distinct counters give distinct `chunk_<n>` ids. |
| Indexer.VectorStore.AddDocuments | task3_experiment/src/rag/indexer.py:43-78 | The old chunks are discarded. A zero step raises ValueError at the first document and leaves the list empty. Otherwise the list is the corpus of all documents in order, `total_chunks` is its length, and an index exists. |
| Indexer.VectorStore.AppendChunks | task3_experiment/src/rag/indexer.py:52-60 | The inner loop appends one chunk per text, numbered by the running counter, and the counter ends at the list's length. |
| Indexer.CorpusIds | task3_experiment/src/rag/indexer.py:45-62 | Chunk `k` of the corpus has id `chunk_k`, in document order and then window order. |
| Indexer.CorpusIdsDistinct | task3_experiment/src/rag/indexer.py:45-62 | No two chunks of the corpus share an id. |
| Indexer.CorpusProvenance | task3_experiment/src/rag/indexer.py:53-58 | Every chunk carries the id, domain and needle flag of a document of the input, and one of that document's chunk texts. |
| Indexer.CorpusAppend | task3_experiment/src/rag/indexer.py:50-60 | Indexing one more document appends exactly its chunks, numbered after the existing ones. |
| Indexer.VectorStore.SimilaritySearch | task3_experiment/src/rag/indexer.py:107-134 | With no index or no chunks the result is empty. Otherwise the loop returns exactly `RetrieveAsWritten` of the positions the index returned: positions at or above `len(chunks)` are skipped, a position below `-len(chunks)` raises IndexError, and other negative positions select from the end. |
| Indexer.RetrieveAsWritten | task3_experiment/src/rag/indexer.py:129-134 | The filter as written succeeds exactly when every position below `len(chunks)` is at least `-len(chunks)`, and otherwise raises IndexError. On success it returns at most as many chunks as positions, each a chunk of the store. |
| Indexer.Wrapped | task3_experiment/src/rag/indexer.py:131-132 | Each position keeps its place, and a negative one is shifted up by `len(chunks)`, as `chunks[idx]` reads it. |
| Indexer.RetrieveAsWrittenWraps | task3_experiment/src/rag/indexer.py:129-134 | When the filter as written succeeds, its result is the intended filter's over the wrapped positions: a negative position selects the chunk that many places from the end. |
| Indexer.RetrieveWithoutPadding | task3_experiment/src/rag/indexer.py:129-134 | Without negative positions, the filter as written succeeds and agrees with the intended filter. |
| Indexer.PaddingSelectsLastChunk | task3_experiment/src/rag/indexer.py:126-134 | With two chunks and FAISS's `-1` padding for a third neighbour, the filter as written returns the last chunk twice. |
| Indexer.Retrieve | task3_experiment/src/rag/indexer.py:129-134 | The intended filter returns at most as many chunks as the index returned positions. |
| Indexer.RetrieveSelects | task3_experiment/src/rag/indexer.py:129-134 | The intended filter returns exactly the chunks at the positions in `[0, len(chunks))`, in the index's rank order, and nothing outside the store. |
| ContextStrategies.QueryWords | task4_experiment/src/strategies.py:16 | Definition with no contract of its own: the set of the query's whitespace-separated words, each stripped of ASCII punctuation at both ends and lowercased. `Score` states how it is used. |
| ContextStrategies.SelectLines | task4_experiment/src/strategies.py:24-31 | Definition with no contract of its own: the first `top_k` ranked lines, or `history[-top_k:]` when that slice is empty or every entry in it scored zero. `SelectFromHistory`, `SelectZeroTakesAll` and `SelectTakesBest` state its properties. |
| ContextStrategies.SelectStrategy | task4_experiment/src/strategies.py:9-33 | Definition with no contract of its own: the kept lines joined by newlines. `SelectSplitsBack` states its property. |
| ContextStrategies.Score | task4_experiment/src/strategies.py:16-21 | A line's score is at most the number of distinct query words, and it is zero exactly when no query word occurs in the lowercased line. |
| ContextStrategies.ScoreLines | task4_experiment/src/strategies.py:19-21 | There is one scored entry per history line, in history order, with that line's score. |
| ContextStrategies.SortRanked | task4_experiment/src/strategies.py:24 | The stable descending sort puts higher scores first and keeps equal scores in history order. It is a permutation of its input. |
| ContextStrategies.RankingSpec | task4_experiment/src/strategies.py:16-24 | The ranking holds every history line once with its score, ranked descending and stably. |
| ContextStrategies.RankingFromHistory | task4_experiment/src/strategies.py:19-24 | Every ranking entry is the history line at its recorded position. |
| ContextStrategies.SelectFromHistory | task4_experiment/src/strategies.py:27-31 | Every line `select_strategy` keeps is a line of the history, in the top-k case and in the fallback. |
| ContextStrategies.SelectZeroTakesAll | task4_experiment/src/strategies.py:27-31 | With `top_k == 0` the slice is empty, so the fallback `history[-0:]` returns the whole history. |
| ContextStrategies.SelectTakesBest | task4_experiment/src/strategies.py:24-31 | When some line scores and `top_k > 0`, there is no fallback. The result is the first `top_k` ranked lines, and the first of them scores at least as high as every line. |
| ContextStrategies.SelectSplitsBack | task4_experiment/src/strategies.py:33 | The output is the kept lines joined by newlines: splitting it on newlines gives them back. |
| ContextStrategies.CompressWordCount | task4_experiment/src/strategies.py:41-44 | The word count compared with `max_tokens` is the number of words of the history lines together. |
| ContextStrategies.CompressShort | task4_experiment/src/strategies.py:41-45 | A history of at most `max_tokens` words comes back as its newline join, which splits back into the lines. |
| ContextStrategies.CompressLong | task4_experiment/src/strategies.py:49-52 | A longer history becomes the summary line, the skip marker, and then the last three lines (all lines when there are fewer, one empty line when there are none). |
| ContextStrategies.CompressStrategy | task4_experiment/src/strategies.py:36-52 | Definition with no contract of its own: the newline join when it has at most `max_tokens` words, otherwise the fixed summary, the skip marker and the join of `history[-3:]`. `CompressWordCount`, `CompressShort` and `CompressLong` state its properties. |
| ContextStrategies.KeyItem | task4_experiment/src/strategies.py:63-68 | A key is Blue when "blue" occurs, else Red when "red" occurs, else Unknown. |
| ContextStrategies.WriteRules | task4_experiment/src/strategies.py:61-79 | Definition with no contract of its own: the scratchpad after the key, Steve and password rules on the lowercased step. `WriteKey`, `WriteSteveOnce` and `WritePassword` state its properties. |
| ContextStrategies.WriteStrategy | task4_experiment/src/strategies.py:55-79 | The caller's scratchpad object is updated in place by the rules and is itself returned. |
| ContextStrategies.WriteKey | task4_experiment/src/strategies.py:61-68 | A step with "key" appends exactly one key entry, and a repeated step appends another (no de-duplication). Without "key" the inventory is untouched. |
| ContextStrategies.WriteSteveOnce | task4_experiment/src/strategies.py:70-72 | "Steve" is in the NPCs afterwards exactly when it was before or the step mentions steve, it is never listed twice, and nothing is removed. |
| ContextStrategies.WritePassword | task4_experiment/src/strategies.py:74-79 | Knowledge changes exactly when both "password" and "shadow" occur, by appending "Password: Shadow". Locations never change, and no list shrinks. |
| MemoryStrategies.Retrieved | task4_experiment/src/memory_strategies.py:51 | The list comprehension succeeds exactly when every index is valid for the history, with one step per index; otherwise it raises IndexError. |
| MemoryStrategies.RetrievedAt | task4_experiment/src/memory_strategies.py:51 | The retrieved steps are the history entries at the indices, in the indices' order. |
| MemoryStrategies.TopIndicesOfRanking | task4_experiment/src/memory_strategies.py:50 | `argsort(...)[-top_k:][::-1]` keeps `top_k` indices (all for `top_k == 0` or a short ranking), taken from the end of the ranking, most similar first. |
| MemoryStrategies.SelectStep | task4_experiment/src/memory_strategies.py:22-26 | Definition with no contract of its own: the step is appended to the history and its embedding to the embeddings. `SelectStepValid` states its property. |
| MemoryStrategies.SelectAnswer | task4_experiment/src/memory_strategies.py:32-76 | Definition with no contract of its own: IndexError when a top index is out of range; otherwise one model call on the top steps as bullet lines, a result holding the reply, the strategy name, the number retrieved and the context, and counters raised by one call and the reply's tokens. `SelectAnswerRanked` states its properties. |
| MemoryStrategies.SelectStepValid | task4_experiment/src/memory_strategies.py:22-26 | Storing a step adds it and its embedding together, so every step keeps its embedding at the same position. |
| MemoryStrategies.SelectAnswerRanked | task4_experiment/src/memory_strategies.py:32-76 | Over a ranking of stored steps the query cannot raise. It asks the model once about the top steps, most similar first, reports their number, and changes only the counters. |
| MemoryStrategies.SelectMetrics | task4_experiment/src/memory_strategies.py:78-85 | The metrics report the strategy name, the model calls, the tokens and the history size. |
| MemoryStrategies.SelectStrategy.constructor | task4_experiment/src/memory_strategies.py:13-20 | A new SELECT strategy has no steps, no embeddings and zero counters. |
| MemoryStrategies.SelectStrategy.ProcessStep | task4_experiment/src/memory_strategies.py:22-26 | The fields become `SelectStep` of the old fields, and steps stay paired with their embeddings. |
| MemoryStrategies.SelectStrategy.Query | task4_experiment/src/memory_strategies.py:32-76 | The result and the new fields are `SelectAnswer` of the old fields and the ranking. |
| MemoryStrategies.SelectStrategy.GetMetrics | task4_experiment/src/memory_strategies.py:78-85 | The result is `SelectMetrics` of the fields and changes nothing. |
| MemoryStrategies.SummaryPrompt | task4_experiment/src/memory_strategies.py:118-120 | Definition with no contract of its own: the summarisation instruction followed by the folded steps numbered from 1, one per line. |
| MemoryStrategies.CompressStep | task4_experiment/src/memory_strategies.py:102-147 | Definition with no contract of its own: the step joins both histories; when `recent[:-max_recent]` is non-empty once the interval is reached, one model call summarises it and only the last `max_recent` steps stay recent. `CompressKeepsHistory`, `CompressTrigger`, `CompressNeverWithZero` and `CompressBoundsRecent` state its properties. |
| MemoryStrategies.CompressContext | task4_experiment/src/memory_strategies.py:156-164 | Definition with no contract of its own: the summary line and the bulleted recent steps, joined by newlines. `CompressContextSplits` states its properties. |
| MemoryStrategies.AppendSummary | task4_experiment/src/memory_strategies.py:131-134 | A new summary replaces an empty one. Otherwise it is appended after exactly one space, and the old summary stays as the prefix. |
| MemoryStrategies.CompressKeepsHistory | task4_experiment/src/memory_strategies.py:106-137 | Each step joins the full history exactly once, and the recent steps stay a suffix of it. |
| MemoryStrategies.CompressTrigger | task4_experiment/src/memory_strategies.py:112-141 | The count of compressions rises exactly when the recent steps reach the interval and `recent[:-max_recent]` is non-empty. Then the model is called once and the last `max_recent` steps remain. Otherwise only the two histories grow. |
| MemoryStrategies.CompressNeverWithZero | task4_experiment/src/memory_strategies.py:112-116 | With `max_recent == 0`, `recent[:-0]` is empty, so no step ever compresses. |
| MemoryStrategies.CompressBoundsRecent | task4_experiment/src/memory_strategies.py:112-137 | With a positive `max_recent`, the recent steps stay at most `max_recent` or below the interval. |
| MemoryStrategies.CompressContextSplits | task4_experiment/src/memory_strategies.py:156-164 | The query context is the summary line if there is a summary, then the header and one bullet per recent step if there are any, joined by newlines. It is empty when there is neither. |
| MemoryStrategies.CompressMetrics | task4_experiment/src/memory_strategies.py:187-196 | The metrics report the name, the calls, the tokens, the compressions, the summary length and the number of recent steps. |
| MemoryStrategies.CompressStrategy.constructor | task4_experiment/src/memory_strategies.py:91-100 | A new COMPRESS strategy keeps its interval and `max_recent`, with empty histories, an empty summary and zero counters. |
| MemoryStrategies.CompressStrategy.ProcessStep | task4_experiment/src/memory_strategies.py:102-147 | The fields become `CompressStep` of the old fields, and the recent steps stay a suffix of the full history. |
| MemoryStrategies.CompressStrategy.Query | task4_experiment/src/memory_strategies.py:149-185 | The result and the new fields are `CompressAnswer` of the old fields. |
| MemoryStrategies.CompressStrategy.GetMetrics | task4_experiment/src/memory_strategies.py:187-196 | The result is `CompressMetrics` of the fields and changes nothing. |
| MemoryStrategies.FieldOf | task4_experiment/src/memory_strategies.py:247-262 | A line is filed under a list only if it holds that list's key and not "none". It is filed under none exactly when it holds "none" or no key. |
| MemoryStrategies.FieldOfOrder | task4_experiment/src/memory_strategies.py:247-259 | Keys take precedence in the order inventory, npc, knowledge, location. |
| MemoryStrategies.AddNew | task4_experiment/src/memory_strategies.py:249-262 | A value is appended exactly when it is non-empty and absent. The list only grows by that one value and stays free of duplicates. |
| MemoryStrategies.ParseLine | task4_experiment/src/memory_strategies.py:246-262 | Definition with no contract of its own: the stripped line's first matching key, unless the line mentions "none", adds the stripped text after that key to its list when new. `ParseLineField`, `ParseLineNone` and `FieldOfOrder` state its properties. |
| MemoryStrategies.ParseLines | task4_experiment/src/memory_strategies.py:244-262 | Definition with no contract of its own: `ParseLine` over the lines in order. `ParseLinesGrows` and `ParseLinesProvenance` state its properties. |
| MemoryStrategies.ParseResponse | task4_experiment/src/memory_strategies.py:241-262 | Definition with no contract of its own: `ParseLines` over the lowercased response split at newlines. |
| MemoryStrategies.ParseLineField | task4_experiment/src/memory_strategies.py:246-262 | A stripped line touches only the list its key picks, adding the stripped text after the key's first occurrence when new. |
| MemoryStrategies.ParseLineNone | task4_experiment/src/memory_strategies.py:247-259 | A line mentioning "none" changes nothing. |
| MemoryStrategies.ParseLinesGrows | task4_experiment/src/memory_strategies.py:241-262 | Parsing only appends, with nothing removed or reordered, and lists without duplicates stay so. |
| MemoryStrategies.ParseLinesProvenance | task4_experiment/src/memory_strategies.py:244-262 | Every new entry is the non-empty stripped text after the key of some response line filed under that list. |
| MemoryStrategies.ExtractionPrompt | task4_experiment/src/memory_strategies.py:220-233 | Definition with no contract of its own: the four lists rendered comma-separated (with "empty" or "none" for an empty list), the new event, and the fixed extraction instructions. |
| MemoryStrategies.WriteStep | task4_experiment/src/memory_strategies.py:213-266 | Definition with no contract of its own: one model call on the extraction prompt, its response parsed into the scratchpad, and the counters raised by one call and the reply's tokens. `WriteStepGrows` states its properties. |
| MemoryStrategies.WriteStepGrows | task4_experiment/src/memory_strategies.py:213-266 | Each step costs exactly one model call, and the scratchpad only grows and stays free of duplicates. |
| MemoryStrategies.WriteMetrics | task4_experiment/src/memory_strategies.py:305-312 | The metrics report the name, the calls, the tokens, and `scratchpad_items` as the sum of the four list lengths. |
| MemoryStrategies.WriteStrategy.constructor | task4_experiment/src/memory_strategies.py:202-211 | A new WRITE strategy has four empty lists and zero counters. |
| MemoryStrategies.WriteStrategy.ProcessStep | task4_experiment/src/memory_strategies.py:213-266 | The fields become `WriteStep` of the old fields, and the lists stay free of duplicates. |
| MemoryStrategies.WriteStrategy.FileResponse | task4_experiment/src/memory_strategies.py:241-262 | The loop files the lowercased response's lines in order, so the scratchpad becomes `ParseResponse` of the old one. |
| MemoryStrategies.WriteStrategy.FileLine | task4_experiment/src/memory_strategies.py:246-262 | One turn of the loop is `ParseLine`. |
| MemoryStrategies.WriteStrategy.Query | task4_experiment/src/memory_strategies.py:271-303 | The result and the new fields are `WriteAnswer` of the old fields. |
| MemoryStrategies.WriteStrategy.GetMetrics | task4_experiment/src/memory_strategies.py:305-312 | The result is `WriteMetrics` of the fields and changes nothing. |
| Agents.Steps | task4_experiment/src/agent.py:41-49 | Definition with no contract of its own: the strategy's step function applied to the actions in order. `StepsRecord` and `StepsExtendScratchpad` state its properties. |
| Agents.AgentAnswer | task4_experiment/src/agent.py:51-62 | Definition with no contract of its own: the strategy's error, or its result with `total_steps` and `history_length` set. `AnswerKeepsMemory` and `WithAgentCounts` state its properties. |
| Agents.StepsRecord | task4_experiment/src/agent.py:41-49 | Processing a sequence keeps the strategy's invariant and its configuration. SELECT and COMPRESS record every action once, in order. WRITE makes one model call per action. |
| Agents.StepsExtendScratchpad | task4_experiment/src/agent.py:41-49 | Over any sequence of actions a WRITE scratchpad only grows. |
| Agents.AnswerKeepsMemory | task4_experiment/src/agent.py:51-62 | Answering asks the model once unless SELECT raises first. It changes no remembered step, summary or scratchpad, and the answer carries the response with the agent's counts. |
| Agents.WithAgentCounts | task4_experiment/src/agent.py:59-60 | `total_steps` and `history_length` are set, overwriting same-named keys, and every other key is kept. |
| Agents.FullMetrics | task4_experiment/src/agent.py:64-69 | The strategy's metrics are kept, with `agent_steps` and `history_items` added, and `llm_calls` is the strategy's call count. |
| Agents.Agent.constructor | task4_experiment/src/agent.py:29-34 | A new agent has an empty history and `step_count == 0`, and keeps its model and strategy. |
| Agents.Agent.ProcessActionSequence | task4_experiment/src/agent.py:36-49 | The history gains the actions in order and the step count rises by their number, so `step_count == len(history)` is kept. The strategy's fields are `Steps` over the actions, one call each, in order. |
| Agents.Agent.ProcessStep | task4_experiment/src/agent.py:49 | The strategy processes one action and keeps its invariant. |
| Agents.Agent.AnswerQuestion | task4_experiment/src/agent.py:51-62 | The result is `AgentAnswer`: the strategy's answer with the agent's counts, or the strategy's IndexError. The strategy's fields become those of `MemoryAnswer`. |
| Agents.Agent.GetFullMetrics | task4_experiment/src/agent.py:64-69 | The result is `FullMetrics` of the strategy's fields and the agent's counts. |
| Data.DomainOf | common/data.py:40 | An unknown domain falls back to the generic templates. |
| Data.GenerateTextBlock | common/data.py:38-46 | The block has exactly `max(min_words, 0)` words. Each word comes from a template of the chosen domain, and drawing stops as soon as enough words are gathered. |
| Data.FixedIndex | common/data.py:53-63 | A fixed index lies in `[0, total]`. The position fixes none (the random branch) exactly when it is neither a float nor "start", "end" or "middle". |
| Data.NamedIndices | common/data.py:56-61 | "start", "middle" and "end" give `floor(total·0.1)`, `floor(total·0.5)` and `floor(total·0.9)`. |
| Data.FloatIndexBelow | common/data.py:53-55 | A float position at or below 0 inserts first. |
| Data.FloatIndexAbove | common/data.py:53-55 | A float position at or above 1 inserts last. |
| Data.FloatIndexWithin | common/data.py:53-55 | A float position in `[0, 1]` gives the floor of that fraction of the word count. |
| Data.Trunc | common/data.py:54 | `int(x)` truncates toward zero. |
| Data.NeedleIndex | common/data.py:53-63 | The insertion index lies in `[0, total]` for every kind of position, with `randint` inclusive of `total`. |
| Data.InsertNeedle | common/data.py:48-66 | The result is the words with the needle at `NeedleIndex`, joined with spaces. A draw is consumed only in the random branch. |
| Data.Insert | common/data.py:65 | `words.insert(idx, needle)` keeps the words before and after in order around the needle. |
| Data.InsertNeedleWords | common/data.py:65-66 | Re-reading the result gives the original words in order with the needle's words between. The count is the text's plus the needle's. |
| FillerUtils.GenerateFillerText | task1_experiment/utils.py:27-41 | The filler has exactly `max(num_words, 0)` words, each from one of the five fixed sentences. |
| FillerUtils.FillFrom | task1_experiment/utils.py:37-41 | Sentences are drawn until the joined text has enough words, and the first `num_words` words are returned. |
| FillerUtils.PlaceAtWords | task1_experiment/utils.py:50 | The document's words are `words[:idx]`, then the fact's words, then `words[idx:]`, for any index. The count is the filler's plus the fact's. |
| FillerUtils.PlaceAtEnds | task1_experiment/utils.py:49-50 | Index 0 puts the fact first, an index past the end puts it last, and a negative index counts from the end. |
| FillerUtils.PlaceFact | task1_experiment/utils.py:49-50 | Definition with no contract of its own: the fact's words placed at `int(len(words) * position_pct)`. `PlaceFactPositions` and `PlaceAtWords` state its properties. |
| FillerUtils.PlaceFactPositions | task1_experiment/utils.py:49-50 | Position 0 puts the fact first, and a position of 1 or more puts it last. A position in `(-1, 0)` counts from the end of the filler. |
| FillerUtils.GenerateDocument | task1_experiment/utils.py:44-57 | The text places the fact at `int(len(words)*position_pct)` among exactly `max(doc_length, 0)` filler words. `position_pct` is reported times 100, and `word_count` is the filler's plus the fact's words. |
| Generator.TemplatesFor | task3_experiment/src/data/generator.py:57 | Every domain has ten sentences ending in a full stop. An unknown domain uses the technology templates. |
| Generator.GenerateFillerText | task3_experiment/src/data/generator.py:55-66 | Whole sentences are drawn until there are at least `min_words` words. Every shorter prefix falls short, and the overshoot is less than the longest template. |
| Drawing.DrawSentences | task3_experiment/src/data/generator.py:58-64 | The loop draws whole sentences until their word count reaches `min_words`, and stops at the first prefix that does. |
| Generator.DomainOf | task3_experiment/src/data/generator.py:57 | Definition with no contract of its own: "medicine" and "law" name their templates, and every other domain uses the technology templates. `TemplatesFor` states the fallback. |
| Generator.NeedleText | task3_experiment/src/data/generator.py:109-112 | Definition with no contract of its own: the filler's words with the fact inserted as one element at `len(words) // 2`, joined with spaces. `NeedleTextWords` states its property. |
| Generator.NeedleTextWords | task3_experiment/src/data/generator.py:109-112 | The needle text is the filler's words with the fact's words at `len(words)//2`. |
| Generator.ChooseDomains | task3_experiment/src/data/generator.py:86-94 | Drawing `count` distractor domains raises IndexError exactly when something must be drawn from an empty list. Otherwise every drawn domain is a distractor. |
| Generator.BuildDocument | task3_experiment/src/data/generator.py:98-120 | Document `i` has id `i` and its domain. Only the needle document carries the fact, in the middle of its filler. |
| Generator.GenerateDataset | task3_experiment/src/data/generator.py:68-122 | The call raises IndexError exactly when there are no documents, no distractors, or an out-of-range needle index. Otherwise there are `total_docs` documents numbered in order. The target slot gets the target domain and every other document a distractor. A negative needle index wraps for the domain but marks no document. |
| Randomness.Random.Choice | common/data.py:43 | `random.choice` picks an element and consumes one draw, or raises IndexError on an empty list. |
| Randomness.Random.RandInt | common/data.py:63 | `random.randint(a, b)` returns a value in `[a, b]`, both ends included, or raises ValueError on an empty range. |

## Left out

- Sentence encoding, the FAISS index build, L2 normalisation, cosine similarity and `np.argsort` come from foreign libraries over floats. Their outputs (an embedding per text, a ranked index list) are parameters.
- `add_documents` steps 2 and 3 (task3_experiment/src/rag/indexer.py:65-77) are not modelled. Only whether an index exists is kept. Indexing a document list that yields no chunks (an empty list, documents without words, or `overlap > chunk_size`) is modelled as building an empty index; in the source that call hands zero texts to the encoder and zero vectors to FAISS, whose behaviour on them is not modelled.
- `Chunk.embedding` is not a field of `Indexer.Chunk`: it is written by the encoder, which is left out.
- Indexer.VectorStore.SimilaritySearch: the query text and `k` are not parameters. Both only reach FAISS, whose answer is the `found` list, so "at most `k` chunks" appears as "at most as many chunks as `found` holds".
- `llm.query` is a function oracle. The prompt texts are still built exactly: `Context` and `Question` of a `Prompt` give the strings sent out.
- `expected_answer` is passed to the model and nowhere else used, so it is only forwarded. The agent always passes none.
- Every `total_latency` field and `time.time()` call, the logger calls, and the `step_number`/`logger` keyword arguments of `process_step` (task4_experiment/src/agent.py:38-49) are not modelled.
- Metrics functions: every `*Metrics` dictionary omits `total_latency`.
- `MemoryStrategy` (task4_experiment/src/agent.py:7-23) is an abstract base class. It becomes the tagged variant `Agents.Memory` over the three strategy classes.
- The SELECT strategy's `query` works for any stored history. Its `argsort` output is a parameter, and an out-of-range index in it raises IndexError as the list comprehension would.
- Text.Lower: case mapping covers ASCII only, while Python's `lower()` is Unicode-aware.
- Python floats are modelled as exact reals. `int(total * fraction)` is therefore exact truncation, and binary floating-point rounding of the product (in Python `int(100 * 0.29)` is 28, not 29) is not captured.
- ContextStrategies.WriteStrategy: a scratchpad dictionary missing one of the four keys raises KeyError in the source. The model's `Scratchpad` always holds all four lists, so that error path is not reachable.
- `generate_dataset`'s first `domains` list (task3_experiment/src/data/generator.py:82-87) is drawn and discarded. The model draws it, so draws are consumed as in the source, and discards it.
- Data.InsertNeedle: a position that is neither a float nor a string is represented by an integer (`IntPos`). Other Python types take the same random branch.

## Findings

| source | as written | input that shows it | evidently intended | confidence | as-written member | corrected member |
|---|---|---|---|---|---|---|
| task3_experiment/src/rag/indexer.py:130-132 | every position `idx < len(chunks)` selects `chunks[idx]` | two chunks, `k = 3`: FAISS pads the missing neighbour with `-1`, and `chunks[-1]` is returned a second time | only positions `0 <= idx < len(chunks)` select a chunk | not executed | Indexer.PaddingSelectsLastChunk | Indexer.RetrieveSelects |
