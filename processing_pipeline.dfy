/**
 * The progress panel: which of the three pipeline steps is active, completed
 * or pending for the current stage, and the text each step shows.
 */
module ProcessingPipeline {
  import opened Text
  import opened Types

  datatype StepStatus = Active | Completed | Pending

  /** The linear progression the panel compares stages by; ERROR is not in it. */
  const STAGE_ORDER: seq<ProcessingStage> := [IDLE, CHUNKING, COMPACTING, SYNTHESIZING, COMPLETE]

  /** `Array.prototype.indexOf`: the first position of `x`, or -1. */
  function IndexOf(xs: seq<ProcessingStage>, x: ProcessingStage): (r: int)
    ensures r == -1 <==> x !in xs
    ensures r != -1 ==> 0 <= r < |xs| && xs[r] == x && x !in xs[..r]
  {
    if xs == [] then -1
    else if xs[0] == x then 0
    else
      var r := IndexOf(xs[1..], x);
      assert r != -1 ==> xs[1..][..r] == xs[1..r + 1];
      if r == -1 then -1 else r + 1
  }

  /** The position of a stage in the progression, ERROR below every other one. */
  function Rank(s: ProcessingStage): int
  {
    match s
    case IDLE => 0
    case CHUNKING => 1
    case COMPACTING => 2
    case SYNTHESIZING => 3
    case COMPLETE => 4
    case ERROR => -1
  }

  lemma IndexOfIsRank(s: ProcessingStage)
    ensures IndexOf(STAGE_ORDER, s) == Rank(s)
  {
    var r := IndexOf(STAGE_ORDER, s);
    match s
    case IDLE => assert STAGE_ORDER[0] == s;
    case CHUNKING => assert STAGE_ORDER[1] == s;
    case COMPACTING => assert STAGE_ORDER[2] == s;
    case SYNTHESIZING => assert STAGE_ORDER[3] == s;
    case COMPLETE => assert STAGE_ORDER[4] == s;
    case ERROR =>
  }

  /** `getStageStatus`: a step is active when the current stage is its stage,
      completed when the current stage lies strictly later in the progression,
      and pending otherwise. Positions are compared by Rank, which is the
      `indexOf` position in the progression (lemma StageStatusByIndexOf). */
  function StageStatus(current: ProcessingStage, target: ProcessingStage): (r: StepStatus)
    ensures r == Active <==> current == target
    ensures r == Completed <==> current != target && Rank(current) > Rank(target)
    ensures r == Pending <==> current != target && Rank(current) <= Rank(target)
  {
    if current == target then Active
    else if Rank(current) > Rank(target) then Completed
    else Pending
  }

  /** The status is the one the source computes from the two `indexOf` positions. */
  lemma StageStatusByIndexOf(current: ProcessingStage, target: ProcessingStage)
    ensures StageStatus(current, target) ==
              if current == target then Active
              else if IndexOf(STAGE_ORDER, current) > IndexOf(STAGE_ORDER, target) then Completed
              else Pending
  {
    IndexOfIsRank(current);
    IndexOfIsRank(target);
  }

  /** ERROR is outside the progression, so with an errored pipeline every other
      step reads as pending. */
  lemma ErrorLeavesAllPending(target: ProcessingStage)
    requires target != ERROR
    ensures StageStatus(ERROR, target) == Pending
  {
  }

  /** The stages of the three steps the panel shows, left to right. */
  const STEP_STAGES: seq<ProcessingStage> := [CHUNKING, COMPACTING, SYNTHESIZING]

  datatype Step = Step(title: string, description: string, status: StepStatus)

  const CHUNKING_TITLE: string := "Ingestion & Chunking"
  const COMPACTING_TITLE: string := "Fast Worker (Flash)"
  const SYNTHESIZING_TITLE: string := "Smart Synthesizer (Pro)"
  const COMPACTING_IDLE_TEXT: string := "High-speed noise removal"
  const SYNTHESIZING_TEXT: string := "Building durable knowledge artifact"

  /** `totalChunks || '?'` inside the chunking step's description. */
  function ChunkingDescription(totalChunks: nat): string
  {
    "Splitting document into " + (if totalChunks != 0 then NatToString(totalChunks) else "?") + " semantic units"
  }

  /** The chunking step shows `?` in place of the count exactly when no count is known. */
  lemma ChunkingDescriptionUnknown(totalChunks: nat)
    ensures totalChunks == 0 <==> ChunkingDescription(totalChunks) == "Splitting document into ? semantic units"
  {
    var prefix := "Splitting document into ";
    var r := ChunkingDescription(totalChunks);
    assert totalChunks != 0 ==> r[|prefix|] == NatToString(totalChunks)[0];
    assert "Splitting document into ? semantic units"[|prefix|] == '?';
  }

  function CompactingDescription(processedChunks: nat, totalChunks: nat): string
  {
    if processedChunks > 0
    then "Compacted " + NatToString(processedChunks) + "/" + NatToString(totalChunks) + " chunks"
    else COMPACTING_IDLE_TEXT
  }

  /** The compaction step reports progress exactly when some chunk is done. */
  lemma CompactingDescriptionProgress(processedChunks: nat, totalChunks: nat)
    ensures processedChunks > 0 <==> StartsWith(CompactingDescription(processedChunks, totalChunks), "Compacted ")
    ensures processedChunks == 0 ==> CompactingDescription(processedChunks, totalChunks) == COMPACTING_IDLE_TEXT
  {
    var r := CompactingDescription(processedChunks, totalChunks);
    if processedChunks > 0 {
      assert r[..|"Compacted "|] == "Compacted ";
    } else {
      assert COMPACTING_IDLE_TEXT[0] != 'C';
    }
  }

  /** The statuses of the three steps, left to right. */
  function StepStatuses(stage: ProcessingStage): seq<StepStatus>
  {
    [StageStatus(stage, STEP_STAGES[0]), StageStatus(stage, STEP_STAGES[1]), StageStatus(stage, STEP_STAGES[2])]
  }

  /** The three steps as the panel renders them. */
  function Steps(stage: ProcessingStage, totalChunks: nat, processedChunks: nat): seq<Step>
  {
    var statuses := StepStatuses(stage);
    [Step(CHUNKING_TITLE, ChunkingDescription(totalChunks), statuses[0]),
     Step(COMPACTING_TITLE, CompactingDescription(processedChunks, totalChunks), statuses[1]),
     Step(SYNTHESIZING_TITLE, SYNTHESIZING_TEXT, statuses[2])]
  }

  lemma StepsCarryStatuses(stage: ProcessingStage, totalChunks: nat, processedChunks: nat)
    ensures |Steps(stage, totalChunks, processedChunks)| == 3
    ensures forall j :: 0 <= j < 3 ==> Steps(stage, totalChunks, processedChunks)[j].status == StepStatuses(stage)[j]
  {
    var steps := Steps(stage, totalChunks, processedChunks);
    var ss := StepStatuses(stage);
    assert steps[0].status == ss[0] && steps[1].status == ss[1] && steps[2].status == ss[2];
  }

  /** While a step runs, it is the one active step; the steps before it are
      completed and the steps after it pending. */
  lemma InProgressSteps(stage: ProcessingStage, k: nat)
    requires k < |STEP_STAGES| && STEP_STAGES[k] == stage
    ensures |StepStatuses(stage)| == 3
    ensures forall j :: 0 <= j < 3 ==> (StepStatuses(stage)[j] == Active <==> j == k)
    ensures forall j :: 0 <= j < k ==> StepStatuses(stage)[j] == Completed
    ensures forall j :: k < j < 3 ==> StepStatuses(stage)[j] == Pending
  {
    var ss := StepStatuses(stage);
    if k == 0 {
      assert stage == CHUNKING;
      assert ss[0] == Active && ss[1] == Pending && ss[2] == Pending;
    } else if k == 1 {
      assert stage == COMPACTING;
      assert ss[0] == Completed && ss[1] == Active && ss[2] == Pending;
    } else {
      assert stage == SYNTHESIZING;
      assert ss[0] == Completed && ss[1] == Completed && ss[2] == Active;
    }
  }

  /** Before the run every step is pending, after it every step is completed,
      and after an error every step is pending again. */
  lemma OutsideProgressSteps()
    ensures StepStatuses(IDLE) == [Pending, Pending, Pending]
    ensures StepStatuses(COMPLETE) == [Completed, Completed, Completed]
    ensures StepStatuses(ERROR) == [Pending, Pending, Pending]
  {
  }
}
