# Compacter: a Dafny model of the compaction pipeline

Compacter turns a long text document into a structured knowledge artifact in
three steps:

1. **Chunking.** The text is cut at blank lines into paragraphs. Consecutive
   paragraphs are then packed greedily into chunks of about 4000 characters,
   joined by `"\n\n"`.
2. **Compaction.** A fast model call rewrites each chunk to remove noise. The
   chunks are sent in batches of three, and each batch is awaited before the
   next starts. A failed call becomes an `[ERROR]` sentinel and an empty reply
   becomes `NO_SIGNAL`; neither aborts the run.
3. **Synthesis.** The compacted texts that carry signal are joined with a
   `---` ruler. One smarter model call turns them into a JSON
   `KnowledgeArtifact` with seven sections. When nothing carries signal, the run
   fails with "No signal found in source documents." before that call is made.

A React component holds the run's state: the stage, the chunk feed, the chunk
count, the artifact and the error. While a step runs, a progress panel shows
the three steps, each as active, completed or pending.

The model has five modules:

- `Text`: the JavaScript string behaviour the code relies on. This covers
  `trim()` emptiness, `includes`, `join` and decimal rendering.
- `Types`: the shared types.
- `GeminiService`: the three service functions.
- `ProcessingPipeline`: the step statuses and texts of the progress panel.
- `App`: class `App`, with `processFile` and `handleReset` as methods. Every
  state setter call is recorded, in order, in a ghost log `updates`.

External parts are parameters of the model:

- the compaction call is `compact: (string, nat) -> CompactionReply`;
- the synthesis call is `synthesize: string -> SynthesisReply`;
- `JSON.parse` is `parse: string -> Outcome<KnowledgeArtifact>`.

The results hold for every choice of these three functions.

The chunker is specified at the level of paragraph groups:

- `Group` folds the paragraphs into closed runs plus one open run.
- `Chunks` renders the runs.
- `SplitIntoChunks` is the source's loop over strings, proved equal to
  `Chunks`.

The lemmas then state what the loop really guarantees:

- no paragraph is lost or reordered;
- a chunk made of several paragraphs may exceed the size limit by the two
  separator characters, never more;
- an over-long paragraph is always a chunk of its own;
- the first chunk is empty exactly when the leading empty paragraphs
  (a text that starts with a blank line has one) are followed by an
  over-long paragraph;
- a document without text yields no chunks at all.

The run proofs cover the order of the setter calls of `processFile`. They
also show that the feed grows by three results per batch. Finally, a run in
which no compaction produced signal always ends in ERROR with the no-signal
message.

## Model

| member | source | states |
|---|---|---|
| Types.StagesEnumerated | types.ts:1-8 | The stage enum has exactly six members, and their string values are pairwise distinct. |
| Types.SectionTitlesTotalAndDistinct | types.ts:34-44 | The section-title record has an entry for every artifact key. No two keys share a title. There are seven keys. |
| Text.DecimalRoundTrip | services/geminiService.ts:33 | The decimal rendering of a chunk index inside a template literal reads back as the same number. |
| Text.BlankJoin | services/geminiService.ts:48-50 | Take a join whose separator has a visible character. It trims to empty exactly when nothing is joined, or when one blank text is. |
| GeminiService.SplitIntoChunks | services/geminiService.ts:95-112 | The paragraph loop returns exactly the rendering of the greedy grouping. A paragraph starts a new chunk when the current text's length plus its own exceeds the limit. The final text is pushed only when it is non-empty. |
| GeminiService.GroupPartition | services/geminiService.ts:97-107 | The closed runs, followed by the open run, are the paragraphs in their original order. |
| GeminiService.ChunkPartition | services/geminiService.ts:95-111 | The emitted groups, followed by the dropped final run, are the paragraphs in order. A dropped final run consists only of empty paragraphs. |
| GeminiService.NonEmptyParagraphsCovered | services/geminiService.ts:95-111 | Every non-empty paragraph lands in an emitted chunk, in order. |
| GeminiService.AccumulateIsJoin | services/geminiService.ts:105 | The running `currentChunk +=` text, after any leading empty paragraphs, equals the paragraphs joined by a blank line. |
| GeminiService.AccumulateEmpty | services/geminiService.ts:105-108 | The accumulated text is empty exactly when every paragraph of its run is empty. |
| GeminiService.MergeBound | services/geminiService.ts:101-106 | A chunk of two or more paragraphs is at most the limit plus 2 characters long. The size test ignores the separator about to be added. |
| GeminiService.SeparatorOvershoot | services/geminiService.ts:101-106 | That bound is reached: "a" and "b" with limit 2 give the single chunk "a\n\nb", of length 4. |
| GeminiService.LongParagraphAlone | services/geminiService.ts:101-103 | A paragraph longer than the limit is a chunk by itself. |
| GeminiService.GroupShape | services/geminiService.ts:98-103 | The open run is never empty. Every closed run after the first is non-empty. The first run is empty exactly when the first paragraph exceeds the limit. |
| GeminiService.EmptyFirstChunk | services/geminiService.ts:101-102 | When the first paragraph exceeds the limit, the first chunk pushed is the empty string. |
| GeminiService.GroupExtends | services/geminiService.ts:100-107 | Grouping more paragraphs keeps the runs already closed. The run open so far begins the next run to close, or the open run when none closes. |
| GeminiService.LeadingEmptyFirstChunk | services/geminiService.ts:100-111 | Take any empty leading paragraphs followed by a non-empty one, with a non-negative limit. At least one chunk is produced. The first chunk is the empty string exactly when that paragraph exceeds the limit on its own. |
| GeminiService.NoChunks | services/geminiService.ts:108-111 | With a non-negative limit, no chunk is produced exactly when every paragraph is empty. |
| GeminiService.EmptyTextNoChunks | services/geminiService.ts:95-111 | The empty document (one empty paragraph) gives the empty chunk list. |
| GeminiService.CompactChunk | services/geminiService.ts:12-37 | The result always keeps the chunk's text and its index, and its compacted text is always non-empty. A reply with text gives that text. An empty reply gives `NO_SIGNAL`. A failure gives `[ERROR] Failed to compact chunk <index>`, which contains the error marker. |
| GeminiService.ErrorTextNamesChunk | services/geminiService.ts:33 | Distinct chunk indices give distinct error sentinels. |
| GeminiService.RequiredFieldsAreArtifactFields | services/geminiService.ts:63-72 | The schema's required list names each artifact field exactly once, in declaration order. |
| GeminiService.SignalTextsMembers | services/geminiService.ts:45-47 | A text is kept for synthesis if and only if some result's compacted text is that text, it is not `NO_SIGNAL`, and it does not contain `[ERROR]`. |
| GeminiService.SignalTextsConcat | services/geminiService.ts:45-47 | Filtering results batch by batch keeps the same texts, in the same order, as filtering them all at once. |
| GeminiService.CompactedContribution | services/geminiService.ts:23-47 | One compaction adds its reply text to the aggregate when the reply is non-empty and is not a sentinel. It adds nothing otherwise; every failure is excluded. |
| GeminiService.AggregateBlank | services/geminiService.ts:45-52 | The aggregate trims to empty exactly when no text is kept, or when a single whitespace-only text is. |
| GeminiService.SynthesizeKnowledge | services/geminiService.ts:43-89 | A blank aggregate, including the case where no text is kept, throws the no-signal error before any call. A raised call rethrows its message. An empty response throws "Empty response from synthesizer.". Otherwise the result is the decoded response. A success implies that something was kept and that the call answered with non-empty text decoding to the artifact. |
| ProcessingPipeline.IndexOf | components/ProcessingPipeline.tsx:21-22 | `indexOf` returns -1 exactly when the stage is absent. Otherwise it returns the position of the first occurrence. |
| ProcessingPipeline.IndexOfIsRank | components/ProcessingPipeline.tsx:21-22 | The position of each stage in the order list is its rank, and ERROR's is -1. |
| ProcessingPipeline.StageStatus | components/ProcessingPipeline.tsx:19-24 | Active if and only if the two stages are equal. Completed if and only if they differ and the current stage lies later in the order. Pending if and only if they differ and it does not. |
| ProcessingPipeline.StageStatusByIndexOf | components/ProcessingPipeline.tsx:19-24 | The status is the one obtained by comparing the two stages' `indexOf` positions in the order list, with equality checked first. |
| ProcessingPipeline.ErrorLeavesAllPending | components/ProcessingPipeline.tsx:21-23 | With the pipeline in ERROR, every other step is pending. |
| ProcessingPipeline.ChunkingDescriptionUnknown | components/ProcessingPipeline.tsx:56 | The chunking text shows `?` in place of the count exactly when the count is 0. |
| ProcessingPipeline.CompactingDescriptionProgress | components/ProcessingPipeline.tsx:63 | The compaction text shows "Compacted …" exactly when some chunk has been processed. With none processed it is the idle text. |
| ProcessingPipeline.StepsCarryStatuses | components/ProcessingPipeline.tsx:54-73 | The panel renders three steps, each carrying the status its stage gives. |
| ProcessingPipeline.InProgressSteps | components/ProcessingPipeline.tsx:54-73 | While step k runs, it is the only active step. The steps before it are completed and the steps after it are pending. |
| ProcessingPipeline.OutsideProgressSteps | components/ProcessingPipeline.tsx:54-73 | In IDLE and ERROR all three steps are pending. In COMPLETE all three are completed. |
| App.NumBatchesBounds | App.tsx:38 | The loop's batches cover every chunk, and the last batch is not empty. |
| App.BatchOf | App.tsx:38-41 | Every chunk index lies in exactly one batch, the one numbered index / 3, and that batch exists. |
| App.CompactAll | App.tsx:38-45 | The collected results are one per chunk, in order, each carrying its chunk's text and its global position as index. |
| App.BatchExtends | App.tsx:39-45 | Appending one batch's awaited results to the results so far gives the ordered results up to the batch's end. |
| App.FeedUpdates | App.tsx:46 | The loop sets the feed once per batch. After batch j the feed is the ordered results of chunks 0 up to the end of batch j. |
| App.FeedProgress | App.tsx:38-47 | Before the last batch the feed grows by exactly three results per batch. After the last batch it holds every result. |
| App.ErrorMessage | App.tsx:58 | The shown error is the exception's message when it has one and the default text otherwise. It is never empty. |
| App.StagesOfHead | App.tsx:21-32 | Before the loop the run sets CHUNKING and then COMPACTING, and no other stage. |
| App.FinalStages | App.tsx:53-58 | The run's last stage is COMPLETE on success and ERROR when synthesis throws. |
| App.TraceStages | App.tsx:20-59 | Any run sets exactly the stages CHUNKING, COMPACTING, SYNTHESIZING, then COMPLETE or ERROR, in that order. |
| App.RunStages | App.tsx:20-59 | For every document and every behaviour of the model calls, `processFile` passes through CHUNKING, COMPACTING and SYNTHESIZING in order. It ends in COMPLETE exactly when synthesis succeeds and in ERROR otherwise. |
| App.SilentRunFails | App.tsx:49-58 | If no compaction yields signal, the run's last two setter calls are ERROR and the no-signal message, whatever synthesis would have answered. |
| App.App.PipelinePanel | App.tsx:133-140 | The panel is rendered exactly in CHUNKING, COMPACTING and SYNTHESIZING. It then has three steps, and the active one is the current stage's. |
| App.App.constructor | App.tsx:14-18 | The initial state is IDLE, with no chunks, a count of 0, no artifact and no error. |
| App.App.SetStage | App.tsx:14 | `setStage` replaces the stage and is logged. |
| App.App.SetChunks | App.tsx:15 | `setChunks` replaces the feed and is logged. |
| App.App.SetTotalChunks | App.tsx:16 | `setTotalChunks` replaces the count and is logged. |
| App.App.SetArtifact | App.tsx:17 | `setArtifact` replaces the artifact and is logged. |
| App.App.SetError | App.tsx:18 | `setError` replaces the error and is logged. |
| App.App.Start | App.tsx:21-32 | The error, artifact and feed are cleared before CHUNKING is set. The chunk count is that of the chunker's result. The method ends in COMPACTING. |
| App.App.CompactInBatches | App.tsx:34-47 | The batched loop returns the ordered results of all compactions. The feed ends equal to them. The log gains one feed update per batch. |
| App.App.Finish | App.tsx:49-58 | On success the artifact is set, then COMPLETE. On an exception ERROR is set, then the message. |
| App.App.ProcessFile | App.tsx:20-60 | Covers the whole log of setter calls of one run. It also gives the chunk count, the feed once every compaction is back, and the final stage, artifact and error decided by synthesis. An artifact is held only in COMPLETE and a message only in ERROR. |
| App.App.HandleReset | App.tsx:62-67 | Sets IDLE and clears the feed, artifact and error, in that order. The chunk count is left as it was. |

## Left out

- The regular-expression split `text.split(/\n\s*\n/)` is not modelled. The model takes its result, the paragraph list, as input.
- Lengths count Unicode code points, not UTF-16 code units as JavaScript `length` does. Two chunkings can differ on texts with characters outside the Basic Multilingual Plane.
- The model calls to the Gemini API are function parameters. The model, temperature, system instructions and response schema they are sent with come from `constants.ts`, which is not part of this model. Only the names in the schema's required list are modelled.
- `JSON.parse(...) as KnowledgeArtifact` is the parameter `parse`. The unchecked cast, which lets a response with missing or mistyped fields through, is not modelled.
- The three compactions of a batch run concurrently under `Promise.all`. The model runs them in sequence, which gives the same ordered results because each call depends only on its chunk and index.
- React state updates are asynchronous and batched. The model applies each setter at once and records the call in the ghost log. `setChunks(prev => ...)` reads the feed it appends to. Overlapping runs of `processFile` are not modelled.
- The `console.error` logging in both service functions is not modelled.
- The rendering of the header, the upload form, the artifact view and the error card is not modelled. `FileUpload.tsx` and `ArtifactView.tsx` are not part of this model. Only the progress panel's step titles, descriptions and statuses are.
- `ProcessingLog` in `types.ts` is never used by the code and is not modelled.
- GeminiService.CompactChunk: the index is a `nat`, so calls with negative or fractional indices are not modelled. The code always passes a chunk's position.
- App.App.ProcessFile: the chunker cannot throw in the model. Any exception in the code comes from synthesis, so only that path reaches the catch block.
