/**
 * The pipeline controller: the component state (stage, chunk feed, chunk
 * count, artifact, error), the run over one file and the reset. Each state
 * setter call is recorded, in order, in the ghost log `updates`.
 */
module App {
  import opened Text
  import opened Types
  import opened GeminiService
  import opened ProcessingPipeline

  const BATCH_SIZE: nat := 3
  const DEFAULT_ERROR_MESSAGE: string := "An unexpected error occurred during processing."

  /** One call of a state setter. */
  datatype Update =
    | StageSet(stage: ProcessingStage)
    | ChunksSet(chunks: seq<ChunkResult>)
    | TotalSet(total: nat)
    | ArtifactSet(artifact: Option<KnowledgeArtifact>)
    | ErrorSet(error: Option<string>)

  function Min(a: int, b: int): int
  {
    if a <= b then a else b
  }

  /** Batch `j` covers the chunk indices from `BATCH_SIZE * j` up to `BatchEnd(j, n)`. */
  function BatchEnd(j: nat, n: nat): nat
  {
    Min(BATCH_SIZE * (j + 1), n)
  }

  /** How many times the batched loop runs for `n` chunks. */
  function NumBatches(n: nat): (r: nat)
  {
    (n + BATCH_SIZE - 1) / BATCH_SIZE
  }

  /** The batches reach past the last chunk, and the last batch is not empty. */
  lemma NumBatchesBounds(n: nat)
    ensures BATCH_SIZE * NumBatches(n) >= n
    ensures NumBatches(n) > 0 ==> BATCH_SIZE * (NumBatches(n) - 1) < n
  {
  }

  /** Every chunk index lies in exactly one batch, the one at `k / BATCH_SIZE`. */
  lemma BatchOf(n: nat, k: nat, j: nat)
    requires k < n
    ensures k / BATCH_SIZE < NumBatches(n)
    ensures BATCH_SIZE * j <= k < BatchEnd(j, n) <==> j == k / BATCH_SIZE
  {
  }

  /** Each chunk compacted with its own position as index: the ordered result of
      the batched loop. */
  function CompactAll(textChunks: seq<string>, compact: (string, nat) -> CompactionReply): (r: seq<ChunkResult>)
    ensures |r| == |textChunks|
    ensures forall k :: 0 <= k < |r| ==> r[k].index == k && r[k].originalText == textChunks[k]
  {
    var r := seq(|textChunks|, k requires 0 <= k < |textChunks| => CompactChunk(textChunks[k], k, compact(textChunks[k], k)));
    assert forall k :: 0 <= k < |r| ==> r[k] == CompactChunk(textChunks[k], k, compact(textChunks[k], k));
    r
  }

  /** The compactions of one batch that starts at chunk `start`, awaited
      together; they come back in the batch's order. */
  function CompactBatch(batch: seq<string>, start: nat, compact: (string, nat) -> CompactionReply): seq<ChunkResult>
  {
    seq(|batch|, b requires 0 <= b < |batch| => CompactChunk(batch[b], start + b, compact(batch[b], start + b)))
  }

  lemma BatchExtends(textChunks: seq<string>, compact: (string, nat) -> CompactionReply, i: nat)
    requires i < |textChunks|
    ensures CompactAll(textChunks, compact)[..i] +
            CompactBatch(textChunks[i..Min(i + BATCH_SIZE, |textChunks|)], i, compact)
            == CompactAll(textChunks, compact)[..Min(i + BATCH_SIZE, |textChunks|)]
  {
  }

  /** The `chunks` value set after each of the first `batches` batches. */
  function FeedUpdates(results: seq<ChunkResult>, batches: nat): (r: seq<Update>)
    ensures |r| == batches
    ensures forall j :: 0 <= j < batches ==> r[j] == ChunksSet(results[..BatchEnd(j, |results|)])
  {
    if batches == 0 then []
    else FeedUpdates(results, batches - 1) + [ChunksSet(results[..BatchEnd(batches - 1, |results|)])]
  }

  /** `err.message || DEFAULT_ERROR_MESSAGE` */
  function ErrorMessage(message: string): (r: string)
    ensures r != ""
    ensures message != "" ==> r == message
    ensures message == "" ==> r == DEFAULT_ERROR_MESSAGE
  {
    if message != "" then message else DEFAULT_ERROR_MESSAGE
  }

  function FinalUpdates(outcome: Outcome<KnowledgeArtifact>): seq<Update>
  {
    match outcome
    case Ok(a) => [ArtifactSet(Some(a)), StageSet(COMPLETE)]
    case Thrown(message) => [StageSet(ERROR), ErrorSet(Some(ErrorMessage(message)))]
  }

  /** The setter calls before the batched loop: clear the error, the artifact
      and the feed, then enter CHUNKING, record the chunk count and enter
      COMPACTING. */
  function StartUpdates(total: nat): seq<Update>
  {
    [ErrorSet(None), ArtifactSet(None), ChunksSet([]), StageSet(CHUNKING), TotalSet(total), StageSet(COMPACTING)]
  }

  /** The setter calls of a run that found `total` chunks, compacted them into
      `results` and ended synthesis with `outcome`. */
  function Trace(total: nat, results: seq<ChunkResult>, outcome: Outcome<KnowledgeArtifact>): seq<Update>
  {
    StartUpdates(total)
    + FeedUpdates(results, NumBatches(total))
    + [StageSet(SYNTHESIZING)]
    + FinalUpdates(outcome)
  }

  /** The setter calls of one run of `processFile`, in order. */
  function RunUpdates(paragraphs: seq<string>, compact: (string, nat) -> CompactionReply,
                      synthesize: string -> SynthesisReply, parse: string -> Outcome<KnowledgeArtifact>): seq<Update>
  {
    var textChunks := Chunks(paragraphs, DEFAULT_CHUNK_SIZE);
    var results := CompactAll(textChunks, compact);
    Trace(|textChunks|, results, SynthesizeKnowledge(results, synthesize, parse))
  }

  /** The stages set by a sequence of updates, in order. */
  function Stages(updates: seq<Update>): seq<ProcessingStage>
  {
    if updates == [] then []
    else (if updates[0].StageSet? then [updates[0].stage] else []) + Stages(updates[1..])
  }

  lemma {:induction false} StagesConcat(a: seq<Update>, b: seq<Update>)
    ensures Stages(a + b) == Stages(a) + Stages(b)
  {
    if a != [] {
      assert (a + b)[1..] == a[1..] + b;
      StagesConcat(a[1..], b);
    } else {
      assert a + b == b;
    }
  }

  lemma {:induction false} NoStageSet(updates: seq<Update>)
    requires forall i :: 0 <= i < |updates| ==> updates[i].ChunksSet?
    ensures Stages(updates) == []
  {
    if updates != [] {
      NoStageSet(updates[1..]);
    }
  }

  lemma TraceStages(total: nat, results: seq<ChunkResult>, outcome: Outcome<KnowledgeArtifact>)
    ensures Stages(Trace(total, results, outcome)) ==
              [CHUNKING, COMPACTING, SYNTHESIZING, if outcome.Ok? then COMPLETE else ERROR]
  {
    var head := StartUpdates(total);
    var feed := FeedUpdates(results, NumBatches(total));
    var tail := FinalUpdates(outcome);
    assert Trace(total, results, outcome) == head + (feed + ([StageSet(SYNTHESIZING)] + tail));
    StagesConcat(head, feed + ([StageSet(SYNTHESIZING)] + tail));
    StagesConcat(feed, [StageSet(SYNTHESIZING)] + tail);
    StagesConcat([StageSet(SYNTHESIZING)], tail);
    FeedSetsNoStage(results, NumBatches(total));
    StagesOfHead(total);
    StagesSingle(StageSet(SYNTHESIZING));
    FinalStages(outcome);
  }

  lemma FeedSetsNoStage(results: seq<ChunkResult>, batches: nat)
    ensures Stages(FeedUpdates(results, batches)) == []
  {
    NoStageSet(FeedUpdates(results, batches));
  }

  lemma FinalStages(outcome: Outcome<KnowledgeArtifact>)
    ensures Stages(FinalUpdates(outcome)) == [if outcome.Ok? then COMPLETE else ERROR]
  {
    var tail := FinalUpdates(outcome);
    StagesConcat([tail[0]], [tail[1]]);
    assert tail == [tail[0]] + [tail[1]];
    StagesSingle(tail[0]);
    StagesSingle(tail[1]);
  }

  /** A run moves through CHUNKING, COMPACTING and SYNTHESIZING, whatever the
      compactions return, and ends in COMPLETE when synthesis succeeds and in
      ERROR when it throws. */
  lemma RunStages(paragraphs: seq<string>, compact: (string, nat) -> CompactionReply,
                  synthesize: string -> SynthesisReply, parse: string -> Outcome<KnowledgeArtifact>)
    ensures var results := CompactAll(Chunks(paragraphs, DEFAULT_CHUNK_SIZE), compact);
            var outcome := SynthesizeKnowledge(results, synthesize, parse);
            Stages(RunUpdates(paragraphs, compact, synthesize, parse)) ==
              [CHUNKING, COMPACTING, SYNTHESIZING, if outcome.Ok? then COMPLETE else ERROR]
  {
    var textChunks := Chunks(paragraphs, DEFAULT_CHUNK_SIZE);
    var results := CompactAll(textChunks, compact);
    TraceStages(|textChunks|, results, SynthesizeKnowledge(results, synthesize, parse));
  }

  lemma StagesSingle(u: Update)
    ensures Stages([u]) == if u.StageSet? then [u.stage] else []
  {
    assert [u][1..] == [];
  }

  lemma StagesOfHead(n: nat)
    ensures Stages(StartUpdates(n)) == [CHUNKING, COMPACTING]
  {
    var head := StartUpdates(n);
    assert head == [head[0]] + ([head[1]] + ([head[2]] + ([head[3]] + ([head[4]] + [head[5]]))));
    StagesConcat([head[0]], [head[1]] + ([head[2]] + ([head[3]] + ([head[4]] + [head[5]]))));
    StagesConcat([head[1]], [head[2]] + ([head[3]] + ([head[4]] + [head[5]])));
    StagesConcat([head[2]], [head[3]] + ([head[4]] + [head[5]]));
    StagesConcat([head[3]], [head[4]] + [head[5]]);
    StagesConcat([head[4]], [head[5]]);
    StagesSingle(head[0]);
    StagesSingle(head[1]);
    StagesSingle(head[2]);
    StagesSingle(head[3]);
    StagesSingle(head[4]);
    StagesSingle(head[5]);
  }

  /** After each batch the chunk feed holds the ordered results so far: three
      more per batch, only the last batch possibly shorter, and after the last
      batch every result. */
  lemma FeedProgress(results: seq<ChunkResult>, j: nat)
    requires j < NumBatches(|results|)
    ensures FeedUpdates(results, NumBatches(|results|))[j] == ChunksSet(results[..BatchEnd(j, |results|)])
    ensures j < NumBatches(|results|) - 1 ==> |results[..BatchEnd(j, |results|)]| == BATCH_SIZE * (j + 1)
    ensures j == NumBatches(|results|) - 1 ==> results[..BatchEnd(j, |results|)] == results
  {
  }

  /** A compaction reply that contributes nothing to the aggregate. */
  predicate Silent(reply: CompactionReply) {
    reply.Failed? || reply.text == "" || !IsSignal(reply.text)
  }

  /** When no compaction yields signal, the run ends in ERROR with the no-signal
      message, whatever the synthesis oracle and the decoder would have done. */
  lemma SilentRunFails(paragraphs: seq<string>, compact: (string, nat) -> CompactionReply,
                       synthesize: string -> SynthesisReply, parse: string -> Outcome<KnowledgeArtifact>)
    requires var textChunks := Chunks(paragraphs, DEFAULT_CHUNK_SIZE);
             forall k :: 0 <= k < |textChunks| ==> Silent(compact(textChunks[k], k))
    ensures var updates := RunUpdates(paragraphs, compact, synthesize, parse);
            updates[|updates| - 2..] == [StageSet(ERROR), ErrorSet(Some(NO_SIGNAL_MESSAGE))]
  {
    var textChunks := Chunks(paragraphs, DEFAULT_CHUNK_SIZE);
    var results := CompactAll(textChunks, compact);
    if SignalTexts(results) != [] {
      var t := SignalTexts(results)[0];
      SignalTextsMembers(results, t);
      var k :| 0 <= k < |results| && results[k].compactedText == t;
      CompactedContribution(textChunks[k], k, compact(textChunks[k], k));
      assert false;
    }
  }

  class App {
    var stage: ProcessingStage
    var chunks: seq<ChunkResult>
    var totalChunks: nat
    var artifact: Option<KnowledgeArtifact>
    var error: Option<string>
    /** Every setter call so far, in order. */
    ghost var updates: seq<Update>

    /** An artifact is held only once the run is complete, a message only after
        an error. */
    predicate Consistent()
      reads this
    {
      (artifact.Some? ==> stage == COMPLETE) && (error.Some? ==> stage == ERROR)
    }

    /** The progress panel is shown only while a step runs, and then exactly
        one of its steps is active. */
    function PipelinePanel(): (r: Option<seq<Step>>)
      reads this
      ensures r.Some? <==> stage in STEP_STAGES
      ensures r.Some? ==>
                (|r.value| == 3 &&
                 forall j :: 0 <= j < 3 ==> (r.value[j].status == Active <==> STEP_STAGES[j] == stage))
    {
      if stage != IDLE && stage != COMPLETE && stage != ERROR then
        var k := if stage == CHUNKING then 0 else if stage == COMPACTING then 1 else 2;
        assert STEP_STAGES[k] == stage;
        InProgressSteps(stage, k);
        StepsCarryStatuses(stage, totalChunks, |chunks|);
        Some(Steps(stage, totalChunks, |chunks|))
      else None
    }

    constructor ()
      ensures stage == IDLE && chunks == [] && totalChunks == 0 && artifact == None && error == None
      ensures updates == []
      ensures Consistent()
    {
      stage := IDLE;
      chunks := [];
      totalChunks := 0;
      artifact := None;
      error := None;
      updates := [];
    }

    method SetStage(s: ProcessingStage)
      modifies this`stage, this`updates
      ensures stage == s && updates == old(updates) + [StageSet(s)]
    {
      stage := s;
      updates := updates + [StageSet(s)];
    }

    method SetChunks(c: seq<ChunkResult>)
      modifies this`chunks, this`updates
      ensures chunks == c && updates == old(updates) + [ChunksSet(c)]
    {
      chunks := c;
      updates := updates + [ChunksSet(c)];
    }

    method SetTotalChunks(n: nat)
      modifies this`totalChunks, this`updates
      ensures totalChunks == n && updates == old(updates) + [TotalSet(n)]
    {
      totalChunks := n;
      updates := updates + [TotalSet(n)];
    }

    method SetArtifact(a: Option<KnowledgeArtifact>)
      modifies this`artifact, this`updates
      ensures artifact == a && updates == old(updates) + [ArtifactSet(a)]
    {
      artifact := a;
      updates := updates + [ArtifactSet(a)];
    }

    method SetError(e: Option<string>)
      modifies this`error, this`updates
      ensures error == e && updates == old(updates) + [ErrorSet(e)]
    {
      error := e;
      updates := updates + [ErrorSet(e)];
    }

    /** The batched loop: the chunks in groups of `BATCH_SIZE`, each group's
        results appended to the feed once the whole group is back. */
    method CompactInBatches(textChunks: seq<string>, compact: (string, nat) -> CompactionReply)
      returns (results: seq<ChunkResult>)
      requires chunks == []
      modifies this`chunks, this`updates
      ensures results == CompactAll(textChunks, compact) && chunks == results
      ensures updates == old(updates) + FeedUpdates(results, NumBatches(|textChunks|))
    {
      ghost var expected := CompactAll(textChunks, compact);
      results := [];
      var i: nat := 0;
      ghost var j: nat := 0;
      NumBatchesBounds(|textChunks|);
      while i < |textChunks|
        invariant i == BATCH_SIZE * j && j <= NumBatches(|textChunks|)
        invariant results == expected[..Min(i, |textChunks|)]
        invariant chunks == results
        invariant updates == old(updates) + FeedUpdates(expected, j)
        decreases |textChunks| - i
      {
        var batch := textChunks[i..Min(i + BATCH_SIZE, |textChunks|)];
        var batchResults := CompactBatch(batch, i, compact);
        BatchExtends(textChunks, compact, i);
        results := results + batchResults;
        SetChunks(chunks + batchResults);
        i, j := i + BATCH_SIZE, j + 1;
      }
      assert results == expected;
    }

    /** `processFile`, for a file whose text splits into `paragraphs` at blank
        lines; `compact` answers the compaction call for a chunk and its index,
        `synthesize` the synthesis call, `parse` decodes its JSON. */
    method ProcessFile(paragraphs: seq<string>, compact: (string, nat) -> CompactionReply,
                       synthesize: string -> SynthesisReply, parse: string -> Outcome<KnowledgeArtifact>)
      modifies this
      ensures updates == old(updates) + RunUpdates(paragraphs, compact, synthesize, parse)
      ensures totalChunks == |Chunks(paragraphs, DEFAULT_CHUNK_SIZE)|
      ensures chunks == CompactAll(Chunks(paragraphs, DEFAULT_CHUNK_SIZE), compact)
      ensures match SynthesizeKnowledge(chunks, synthesize, parse)
              case Ok(a) => stage == COMPLETE && artifact == Some(a) && error == None
              case Thrown(m) => stage == ERROR && artifact == None && error == Some(ErrorMessage(m))
      ensures Consistent()
    {
      ghost var start := updates;
      var textChunks := Start(paragraphs);
      var results := CompactInBatches(textChunks, compact);
      ghost var feed := FeedUpdates(results, NumBatches(|textChunks|));
      SetStage(SYNTHESIZING);
      var outcome := SynthesizeKnowledge(results, synthesize, parse);
      ghost var mid := updates;
      Finish(outcome);
      assert mid == start + StartUpdates(|textChunks|) + feed + [StageSet(SYNTHESIZING)];
      assert updates == start + (StartUpdates(|textChunks|) + feed + [StageSet(SYNTHESIZING)] + FinalUpdates(outcome));
    }

    /** The start of a run: the error, the artifact and the feed are cleared
        before the stage changes; then the chunker runs. */
    method Start(paragraphs: seq<string>) returns (textChunks: seq<string>)
      modifies this
      ensures textChunks == Chunks(paragraphs, DEFAULT_CHUNK_SIZE)
      ensures updates == old(updates) + StartUpdates(|textChunks|)
      ensures stage == COMPACTING && chunks == [] && totalChunks == |textChunks| && artifact == None && error == None
    {
      SetError(None);
      SetArtifact(None);
      SetChunks([]);

      SetStage(CHUNKING);
      textChunks := SplitIntoChunks(paragraphs, DEFAULT_CHUNK_SIZE);
      SetTotalChunks(|textChunks|);

      SetStage(COMPACTING);
    }

    /** The end of a run: the artifact and COMPLETE on success; ERROR and the
        message (or the default one) when synthesis threw. */
    method Finish(outcome: Outcome<KnowledgeArtifact>)
      modifies this`stage, this`artifact, this`error, this`updates
      ensures updates == old(updates) + FinalUpdates(outcome)
      ensures match outcome
              case Ok(a) => stage == COMPLETE && artifact == Some(a) && error == old(error)
              case Thrown(m) => stage == ERROR && artifact == old(artifact) && error == Some(ErrorMessage(m))
    {
      match outcome
      case Ok(a) =>
        SetArtifact(Some(a));
        SetStage(COMPLETE);
      case Thrown(m) =>
        SetStage(ERROR);
        SetError(Some(ErrorMessage(m)));
    }

    /** `handleReset`: back to IDLE with the feed, artifact and error cleared;
        the chunk count is left as it was. */
    method HandleReset()
      modifies this
      ensures stage == IDLE && chunks == [] && artifact == None && error == None
      ensures totalChunks == old(totalChunks)
      ensures updates == old(updates) + [StageSet(IDLE), ChunksSet([]), ArtifactSet(None), ErrorSet(None)]
      ensures Consistent()
    {
      SetStage(IDLE);
      SetChunks([]);
      SetArtifact(None);
      SetError(None);
    }
  }
}
