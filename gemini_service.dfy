/**
 * The service layer: the paragraph chunker, the per-chunk compaction wrapper
 * and the aggregation guard in front of the synthesis call. The two remote
 * model calls are oracles handed in by the caller.
 */
module GeminiService {
  import opened Text
  import opened Types

  // ---------------------------------------------------------------------------
  // Chunker
  // ---------------------------------------------------------------------------

  const DEFAULT_CHUNK_SIZE: int := 4000
  const PARAGRAPH_SEPARATOR: string := "\n\n"

  /** The text the accumulator holds once the paragraphs of `run` have been
      appended to an empty accumulator in order: the separator is written only
      when the accumulator is already non-empty. */
  function Accumulate(run: seq<string>): string
  {
    if run == [] then ""
    else
      var acc := Accumulate(run[..|run| - 1]);
      acc + (if acc != "" then PARAGRAPH_SEPARATOR else "") + run[|run| - 1]
  }

  /** The paragraphs seen so far, cut into the runs already emitted (`closed`)
      and the run the accumulator currently holds (`open`). */
  datatype Grouping = Grouping(closed: seq<seq<string>>, open: seq<string>)

  /** The greedy grouping: a paragraph starts a new run when the accumulator's
      length plus the paragraph's length exceeds `chunkSize` (the separator is
      not counted), and joins the current run otherwise. */
  function Group(paragraphs: seq<string>, chunkSize: int): Grouping
  {
    if paragraphs == [] then Grouping([], [])
    else
      var g := Group(paragraphs[..|paragraphs| - 1], chunkSize);
      var para := paragraphs[|paragraphs| - 1];
      if |Accumulate(g.open)| + |para| > chunkSize then Grouping(g.closed + [g.open], [para])
      else Grouping(g.closed, g.open + [para])
  }

  /** The runs that become chunks: the emitted ones, and the last one when its
      text is non-empty. */
  function ChunkGroups(paragraphs: seq<string>, chunkSize: int): seq<seq<string>>
  {
    var g := Group(paragraphs, chunkSize);
    g.closed + (if Accumulate(g.open) != "" then [g.open] else [])
  }

  /** The paragraphs of the last run when that run is dropped (its text is empty). */
  function Leftover(paragraphs: seq<string>, chunkSize: int): seq<string>
  {
    var g := Group(paragraphs, chunkSize);
    if Accumulate(g.open) != "" then [] else g.open
  }

  function Texts(groups: seq<seq<string>>): seq<string>
  {
    seq(|groups|, k requires 0 <= k < |groups| => Accumulate(groups[k]))
  }

  /** The chunks `splitIntoChunks` returns for a list of paragraphs. */
  function Chunks(paragraphs: seq<string>, chunkSize: int): seq<string>
  {
    Texts(ChunkGroups(paragraphs, chunkSize))
  }

  lemma TextsAppend(groups: seq<seq<string>>, run: seq<string>)
    ensures Texts(groups + [run]) == Texts(groups) + [Accumulate(run)]
  {
  }

  lemma AccumulateSingle(para: string)
    ensures Accumulate([para]) == para
  {
    assert [para][..0] == [];
  }

  /** `splitIntoChunks`, given the paragraphs the text splits into at blank lines. */
  method SplitIntoChunks(paragraphs: seq<string>, chunkSize: int) returns (chunks: seq<string>)
    ensures chunks == Chunks(paragraphs, chunkSize)
  {
    chunks := [];
    var currentChunk := "";
    for i := 0 to |paragraphs|
      invariant chunks == Texts(Group(paragraphs[..i], chunkSize).closed)
      invariant currentChunk == Accumulate(Group(paragraphs[..i], chunkSize).open)
    {
      var para := paragraphs[i];
      ghost var g := Group(paragraphs[..i], chunkSize);
      assert paragraphs[..i + 1][..i] == paragraphs[..i];
      assert Group(paragraphs[..i + 1], chunkSize) ==
        if |Accumulate(g.open)| + |para| > chunkSize then Grouping(g.closed + [g.open], [para])
        else Grouping(g.closed, g.open + [para]);
      if |currentChunk| + |para| > chunkSize {
        TextsAppend(g.closed, g.open);
        AccumulateSingle(para);
        chunks := chunks + [currentChunk];
        currentChunk := para;
      } else {
        assert (g.open + [para])[..|g.open|] == g.open;
        currentChunk := currentChunk + (if currentChunk != "" then PARAGRAPH_SEPARATOR else "") + para;
      }
    }
    assert paragraphs[..|paragraphs|] == paragraphs;
    ghost var g := Group(paragraphs, chunkSize);
    if currentChunk != "" {
      TextsAppend(g.closed, g.open);
      chunks := chunks + [currentChunk];
    } else {
      assert g.closed + [] == g.closed;
    }
  }

  /** The concatenation of a list of runs. */
  function Flatten(groups: seq<seq<string>>): seq<string>
  {
    if groups == [] then [] else Flatten(groups[..|groups| - 1]) + groups[|groups| - 1]
  }

  /** The non-empty paragraphs of a list, in order. */
  function NonEmpty(paragraphs: seq<string>): seq<string>
  {
    if paragraphs == [] then []
    else NonEmpty(paragraphs[..|paragraphs| - 1])
         + (if paragraphs[|paragraphs| - 1] != "" then [paragraphs[|paragraphs| - 1]] else [])
  }

  predicate AllEmpty(paragraphs: seq<string>) {
    forall i :: 0 <= i < |paragraphs| ==> paragraphs[i] == ""
  }

  lemma {:induction false} AccumulateEmpty(run: seq<string>)
    ensures Accumulate(run) == "" <==> AllEmpty(run)
  {
    if run != [] {
      var init := run[..|run| - 1];
      AccumulateEmpty(init);
      if AllEmpty(run) {
        assert AllEmpty(init) by {
          forall i | 0 <= i < |init| ensures init[i] == "" { assert init[i] == run[i]; }
        }
      }
      if AllEmpty(init) && run[|run| - 1] == "" {
        forall i | 0 <= i < |run| ensures run[i] == "" {
          if i < |init| { assert run[i] == init[i]; }
        }
      }
    }
  }

  /** Every paragraph of a run is a substring of its text; in particular no
      paragraph is longer than the run's text. */
  lemma {:induction false} AccumulateLength(run: seq<string>, i: nat)
    requires i < |run|
    ensures |Accumulate(run)| >= |run[i]|
  {
    var init := run[..|run| - 1];
    if i < |init| {
      AccumulateLength(init, i);
      assert run[i] == init[i];
    }
  }

  lemma {:induction false} JoinCoversFirst(xs: seq<string>, sep: string)
    requires |xs| >= 1
    ensures |JoinWith(xs, sep)| >= |xs[0]|
  {
    if |xs| >= 2 {
      JoinCoversFirst(xs[..|xs| - 1], sep);
    }
  }

  /** A run's text is the plain `"\n\n"`-join of the run once its leading empty
      paragraphs are dropped: those write no separator. */
  lemma {:induction false} AccumulateIsJoin(leading: seq<string>, rest: seq<string>)
    requires AllEmpty(leading)
    requires rest == [] || rest[0] != ""
    ensures Accumulate(leading + rest) == JoinWith(rest, PARAGRAPH_SEPARATOR)
  {
    AccumulateEmpty(leading);
    if rest == [] {
      assert leading + rest == leading;
    } else {
      var init := rest[..|rest| - 1];
      assert (leading + rest)[..|leading + rest| - 1] == leading + init;
      AccumulateIsJoin(leading, init);
      if init != [] {
        JoinCoversFirst(init, PARAGRAPH_SEPARATOR);
      }
    }
  }

  /** The runs, read left to right, are exactly the paragraphs: the chunker
      keeps the order and never drops, repeats or splits a paragraph. */
  lemma {:induction false} GroupPartition(paragraphs: seq<string>, chunkSize: int)
    ensures Flatten(Group(paragraphs, chunkSize).closed) + Group(paragraphs, chunkSize).open == paragraphs
  {
    if paragraphs != [] {
      var init := paragraphs[..|paragraphs| - 1];
      var g := Group(init, chunkSize);
      GroupPartition(init, chunkSize);
      var para := paragraphs[|paragraphs| - 1];
      assert paragraphs == init + [para];
      if |Accumulate(g.open)| + |para| > chunkSize {
        assert (g.closed + [g.open])[..|g.closed|] == g.closed;
        assert Flatten(g.closed + [g.open]) == Flatten(g.closed) + g.open;
      } else {
        assert Flatten(g.closed) + (g.open + [para]) == (Flatten(g.closed) + g.open) + [para];
      }
    }
  }

  /** The chunks' runs followed by the dropped run are the paragraphs, and the
      dropped run holds only empty paragraphs. */
  lemma ChunkPartition(paragraphs: seq<string>, chunkSize: int)
    ensures Flatten(ChunkGroups(paragraphs, chunkSize)) + Leftover(paragraphs, chunkSize) == paragraphs
    ensures AllEmpty(Leftover(paragraphs, chunkSize))
  {
    var g := Group(paragraphs, chunkSize);
    GroupPartition(paragraphs, chunkSize);
    AccumulateEmpty(g.open);
    if Accumulate(g.open) != "" {
      assert (g.closed + [g.open])[..|g.closed|] == g.closed;
    } else {
      assert g.closed + [] == g.closed;
    }
  }

  lemma {:induction false} NonEmptyConcat(a: seq<string>, b: seq<string>)
    ensures NonEmpty(a + b) == NonEmpty(a) + NonEmpty(b)
  {
    if b != [] {
      assert (a + b)[..|a + b| - 1] == a + b[..|b| - 1];
      NonEmptyConcat(a, b[..|b| - 1]);
    } else {
      assert a + b == a;
    }
  }

  lemma {:induction false} NonEmptyOfAllEmpty(paragraphs: seq<string>)
    requires AllEmpty(paragraphs)
    ensures NonEmpty(paragraphs) == []
  {
    if paragraphs != [] {
      NonEmptyOfAllEmpty(paragraphs[..|paragraphs| - 1]);
    }
  }

  /** Every non-empty paragraph lands in exactly one chunk, and the chunks hold
      them in the original order. */
  lemma NonEmptyParagraphsCovered(paragraphs: seq<string>, chunkSize: int)
    ensures NonEmpty(Flatten(ChunkGroups(paragraphs, chunkSize))) == NonEmpty(paragraphs)
  {
    ChunkPartition(paragraphs, chunkSize);
    NonEmptyConcat(Flatten(ChunkGroups(paragraphs, chunkSize)), Leftover(paragraphs, chunkSize));
    NonEmptyOfAllEmpty(Leftover(paragraphs, chunkSize));
  }

  /** A chunk joined from two or more paragraphs can exceed `chunkSize`, but by
      at most the length of one separator. */
  predicate MergedWithinBound(run: seq<string>, chunkSize: int) {
    |run| >= 2 ==> |Accumulate(run)| <= chunkSize + 2
  }

  lemma {:induction false} GroupMergeBound(paragraphs: seq<string>, chunkSize: int)
    ensures MergedWithinBound(Group(paragraphs, chunkSize).open, chunkSize)
    ensures forall k :: 0 <= k < |Group(paragraphs, chunkSize).closed| ==>
              MergedWithinBound(Group(paragraphs, chunkSize).closed[k], chunkSize)
  {
    if paragraphs != [] {
      var init := paragraphs[..|paragraphs| - 1];
      GroupMergeBound(init, chunkSize);
      var g := Group(init, chunkSize);
      var para := paragraphs[|paragraphs| - 1];
      if |Accumulate(g.open)| + |para| <= chunkSize {
        assert (g.open + [para])[..|g.open|] == g.open;
      }
    }
  }

  lemma MergeBound(paragraphs: seq<string>, chunkSize: int, k: nat)
    requires k < |ChunkGroups(paragraphs, chunkSize)|
    requires |ChunkGroups(paragraphs, chunkSize)[k]| >= 2
    ensures |Chunks(paragraphs, chunkSize)[k]| <= chunkSize + 2
  {
    GroupMergeBound(paragraphs, chunkSize);
  }

  /** The bound is reached: two one-letter paragraphs under a limit of 2 give a
      chunk of length 4. */
  lemma SeparatorOvershoot()
    ensures Chunks(["a", "b"], 2) == ["a\n\nb"]
    ensures |Chunks(["a", "b"], 2)[0]| == 2 + 2
  {
    assert ["a", "b"][..1] == ["a"];
    assert Group(["a"], 2) == Grouping([], ["a"]);
    assert Accumulate(["a", "b"]) == "a\n\nb" by {
      assert ["a", "b"][..1] == ["a"];
      assert Accumulate(["a"]) == "a" by { assert ["a"][..0] == []; }
    }
  }

  /** A paragraph longer than `chunkSize` is never merged with another one. */
  predicate LongStandsAlone(run: seq<string>, chunkSize: int) {
    forall i :: 0 <= i < |run| && |run[i]| > chunkSize ==> run == [run[i]]
  }

  lemma {:induction false} GroupLongAlone(paragraphs: seq<string>, chunkSize: int)
    ensures LongStandsAlone(Group(paragraphs, chunkSize).open, chunkSize)
    ensures forall k :: 0 <= k < |Group(paragraphs, chunkSize).closed| ==>
              LongStandsAlone(Group(paragraphs, chunkSize).closed[k], chunkSize)
  {
    if paragraphs != [] {
      var init := paragraphs[..|paragraphs| - 1];
      GroupLongAlone(init, chunkSize);
      var g := Group(init, chunkSize);
      var para := paragraphs[|paragraphs| - 1];
      if |Accumulate(g.open)| + |para| <= chunkSize {
        var run := g.open + [para];
        forall i | 0 <= i < |run| ensures |run[i]| <= chunkSize {
          if i < |g.open| {
            AccumulateLength(g.open, i);
            assert run[i] == g.open[i];
          }
        }
      }
    }
  }

  /** The chunk made from an over-long paragraph is that paragraph alone. */
  lemma LongParagraphAlone(paragraphs: seq<string>, chunkSize: int, k: nat, i: nat)
    requires k < |ChunkGroups(paragraphs, chunkSize)|
    requires i < |ChunkGroups(paragraphs, chunkSize)[k]|
    requires |ChunkGroups(paragraphs, chunkSize)[k][i]| > chunkSize
    ensures ChunkGroups(paragraphs, chunkSize)[k] == [ChunkGroups(paragraphs, chunkSize)[k][i]]
    ensures Chunks(paragraphs, chunkSize)[k] == ChunkGroups(paragraphs, chunkSize)[k][i]
  {
    GroupLongAlone(paragraphs, chunkSize);
    AccumulateSingle(ChunkGroups(paragraphs, chunkSize)[k][i]);
  }

  /** Only the first emitted run can be empty, and it is empty exactly when the
      first paragraph alone exceeds `chunkSize`. */
  lemma {:induction false} GroupShape(paragraphs: seq<string>, chunkSize: int)
    requires paragraphs != []
    ensures Group(paragraphs, chunkSize).open != []
    ensures forall k :: 0 < k < |Group(paragraphs, chunkSize).closed| ==> Group(paragraphs, chunkSize).closed[k] != []
    ensures |paragraphs[0]| > chunkSize <==>
              Group(paragraphs, chunkSize).closed != [] && Group(paragraphs, chunkSize).closed[0] == []
  {
    var init := paragraphs[..|paragraphs| - 1];
    if init != [] {
      GroupShape(init, chunkSize);
      assert init[0] == paragraphs[0];
    }
  }

  /** The empty first chunk: an over-long first paragraph pushes the still
      empty accumulator. */
  lemma EmptyFirstChunk(paragraphs: seq<string>, chunkSize: int)
    requires paragraphs != [] && |paragraphs[0]| > chunkSize
    ensures |Chunks(paragraphs, chunkSize)| >= 1
    ensures Chunks(paragraphs, chunkSize)[0] == ""
  {
    GroupShape(paragraphs, chunkSize);
  }

  lemma {:induction false} AllEmptyGroup(paragraphs: seq<string>, chunkSize: int)
    requires chunkSize >= 0 && AllEmpty(paragraphs)
    ensures Group(paragraphs, chunkSize) == Grouping([], paragraphs)
  {
    if paragraphs != [] {
      var init := paragraphs[..|paragraphs| - 1];
      AllEmptyGroup(init, chunkSize);
      AccumulateEmpty(init);
    }
  }

  /** Grouping more paragraphs only extends what is already grouped: the
      closed runs so far stay closed, and the open run so far is the start of
      the next run to close, or of the open run when none closes. */
  lemma {:induction false} GroupExtends(xs: seq<string>, ys: seq<string>, chunkSize: int)
    ensures Group(xs, chunkSize).closed <= Group(xs + ys, chunkSize).closed
    ensures |Group(xs + ys, chunkSize).closed| > |Group(xs, chunkSize).closed| ==>
              Group(xs, chunkSize).open <= Group(xs + ys, chunkSize).closed[|Group(xs, chunkSize).closed|]
    ensures |Group(xs + ys, chunkSize).closed| == |Group(xs, chunkSize).closed| ==>
              Group(xs, chunkSize).open <= Group(xs + ys, chunkSize).open
  {
    if ys == [] {
      assert xs + ys == xs;
    } else {
      var init := ys[..|ys| - 1];
      GroupExtends(xs, init, chunkSize);
      assert (xs + ys)[..|xs + ys| - 1] == xs + init;
    }
  }

  /** The first chunk is empty exactly when the leading empty paragraphs are
      followed by one that exceeds `chunkSize` on its own: that paragraph
      pushes the accumulator, which has stayed empty. */
  lemma LeadingEmptyFirstChunk(leading: seq<string>, para: string, rest: seq<string>, chunkSize: int)
    requires chunkSize >= 0 && AllEmpty(leading) && para != ""
    ensures |Chunks(leading + [para] + rest, chunkSize)| >= 1
    ensures Chunks(leading + [para] + rest, chunkSize)[0] == "" <==> |para| > chunkSize
  {
    var xs := leading + [para];
    assert xs[..|xs| - 1] == leading;
    AllEmptyGroup(leading, chunkSize);
    AccumulateEmpty(leading);
    GroupExtends(xs, rest, chunkSize);
    var g := Group(xs, chunkSize);
    var h := Group(xs + rest, chunkSize);
    if |para| > chunkSize {
      assert g.closed == [leading];
      assert h.closed[0] == leading;
    } else {
      assert g == Grouping([], xs);
      var run := if |h.closed| > 0 then h.closed[0] else h.open;
      assert xs <= run;
      assert run[|leading|] == para;
      AccumulateLength(run, |leading|);
    }
  }

  /** With a non-negative size, no chunk comes out exactly when every
      paragraph is empty. */
  lemma NoChunks(paragraphs: seq<string>, chunkSize: int)
    requires chunkSize >= 0
    ensures Chunks(paragraphs, chunkSize) == [] <==> AllEmpty(paragraphs)
  {
    if AllEmpty(paragraphs) {
      AllEmptyGroup(paragraphs, chunkSize);
      AccumulateEmpty(paragraphs);
    }
    if Chunks(paragraphs, chunkSize) == [] {
      ChunkPartition(paragraphs, chunkSize);
    }
  }

  /** Empty text splits into the single empty paragraph, which yields no chunk
      under the default size. */
  lemma EmptyTextNoChunks()
    ensures Chunks([""], DEFAULT_CHUNK_SIZE) == []
  {
    NoChunks([""], DEFAULT_CHUNK_SIZE);
  }

  // ---------------------------------------------------------------------------
  // Compaction of one chunk
  // ---------------------------------------------------------------------------

  const NO_SIGNAL: string := "NO_SIGNAL"
  const ERROR_MARKER: string := "[ERROR]"

  /** What the compaction model call gives back: text (possibly empty), or an
      exception. */
  datatype CompactionReply = Replied(text: string) | Failed

  function CompactionErrorText(index: nat): string
  {
    ERROR_MARKER + " Failed to compact chunk " + NatToString(index)
  }

  /** `compactChunk` around the model call `reply`: it never throws, keeps the
      chunk's text and index, turns an empty reply into the no-signal sentinel
      and a failure into an error sentinel. */
  function CompactChunk(text: string, index: nat, reply: CompactionReply): (r: ChunkResult)
    ensures r.originalText == text && r.index == index
    ensures r.compactedText != ""
    ensures reply.Failed? ==> r.compactedText == CompactionErrorText(index) && Contains(r.compactedText, ERROR_MARKER)
    ensures reply == Replied("") ==> r.compactedText == NO_SIGNAL
    ensures reply.Replied? && reply.text != "" ==> r.compactedText == reply.text
  {
    match reply
    case Replied(t) => ChunkResult(text, if t != "" then t else NO_SIGNAL, index)
    case Failed =>
      StartsWithContains(CompactionErrorText(index), ERROR_MARKER);
      ChunkResult(text, CompactionErrorText(index), index)
  }

  /** The error sentinel names the chunk it came from. */
  lemma ErrorTextNamesChunk(i: nat, j: nat)
    requires CompactionErrorText(i) == CompactionErrorText(j)
    ensures i == j
  {
    var prefix := ERROR_MARKER + " Failed to compact chunk ";
    assert NatToString(i) == CompactionErrorText(i)[|prefix|..];
    assert NatToString(j) == CompactionErrorText(j)[|prefix|..];
    NatToStringInjective(i, j);
  }

  // ---------------------------------------------------------------------------
  // Aggregation and synthesis
  // ---------------------------------------------------------------------------

  const AGGREGATE_SEPARATOR: string := "\n\n---\n\n"
  const NO_SIGNAL_MESSAGE: string := "No signal found in source documents."
  const EMPTY_RESPONSE_MESSAGE: string := "Empty response from synthesizer."
  const SYNTHESIS_PREAMBLE: string := "Here are the compacted notes from the source documents:\n\n"

  /** The property names the synthesis schema marks as required. */
  const REQUIRED_FIELDS: seq<string> := ["overview", "concepts", "facts", "decisions", "procedures", "risks", "openQuestions"]

  /** The schema requires exactly the artifact's seven fields, once each. */
  lemma RequiredFieldsAreArtifactFields()
    ensures |REQUIRED_FIELDS| == |ALL_SECTION_KEYS|
    ensures forall i :: 0 <= i < |REQUIRED_FIELDS| ==> REQUIRED_FIELDS[i] == FieldName(ALL_SECTION_KEYS[i])
    ensures forall i, j :: 0 <= i < j < |REQUIRED_FIELDS| ==> REQUIRED_FIELDS[i] != REQUIRED_FIELDS[j]
  {
  }

  /** A compacted text that is kept for synthesis. */
  predicate IsSignal(t: string) {
    t != NO_SIGNAL && !Contains(t, ERROR_MARKER)
  }

  /** The compacted texts, in order, minus the two sentinels. */
  function SignalTexts(results: seq<ChunkResult>): seq<string>
  {
    if results == [] then []
    else
      var last := results[|results| - 1].compactedText;
      SignalTexts(results[..|results| - 1]) + (if IsSignal(last) then [last] else [])
  }

  function Aggregate(results: seq<ChunkResult>): string
  {
    JoinWith(SignalTexts(results), AGGREGATE_SEPARATOR)
  }

  lemma {:induction false} SignalTextsMembers(results: seq<ChunkResult>, t: string)
    ensures t in SignalTexts(results) <==>
              IsSignal(t) && exists k :: 0 <= k < |results| && results[k].compactedText == t
  {
    if results != [] {
      var init := results[..|results| - 1];
      SignalTextsMembers(init, t);
      if exists k :: 0 <= k < |init| && init[k].compactedText == t {
        var k :| 0 <= k < |init| && init[k].compactedText == t;
        assert results[k] == init[k];
      }
      if exists k :: 0 <= k < |results| && results[k].compactedText == t {
        var k :| 0 <= k < |results| && results[k].compactedText == t;
        if k < |init| { assert init[k] == results[k]; }
      }
    }
  }

  /** Filtering commutes with concatenation: results kept from batches in order
      are the results kept from the whole list. */
  lemma {:induction false} SignalTextsConcat(a: seq<ChunkResult>, b: seq<ChunkResult>)
    ensures SignalTexts(a + b) == SignalTexts(a) + SignalTexts(b)
  {
    if b != [] {
      assert (a + b)[..|a + b| - 1] == a + b[..|b| - 1];
      SignalTextsConcat(a, b[..|b| - 1]);
    } else {
      assert a + b == a;
    }
  }

  /** What a single compaction contributes to the aggregate: its reply text
      when the call succeeded with a non-empty text that is not itself a
      sentinel, and nothing otherwise (every failure is excluded). */
  lemma CompactedContribution(text: string, index: nat, reply: CompactionReply)
    ensures SignalTexts([CompactChunk(text, index, reply)]) ==
              if reply.Replied? && reply.text != "" && IsSignal(reply.text) then [reply.text] else []
  {
    assert [CompactChunk(text, index, reply)][..0] == [];
  }

  /** The aggregate is blank exactly when nothing is kept, or one whitespace-only
      text is: the separator holds visible dashes. */
  lemma AggregateBlank(results: seq<ChunkResult>)
    ensures IsBlank(Aggregate(results)) <==>
              SignalTexts(results) == [] || (|SignalTexts(results)| == 1 && IsBlank(SignalTexts(results)[0]))
  {
    assert !IsWhitespace(AGGREGATE_SEPARATOR[2]);
    BlankJoin(SignalTexts(results), AGGREGATE_SEPARATOR);
  }

  /** What the synthesis model call gives back: text, or an exception with a message. */
  datatype SynthesisReply = Answered(text: string) | Raised(message: string)

  /** A value, or an exception carrying a message. */
  datatype Outcome<T> = Ok(value: T) | Thrown(message: string)

  /** `synthesizeKnowledge`: the guard before the synthesis call, the call
      `synthesize`, the empty-response check and the JSON decoding `parse`. */
  function SynthesizeKnowledge(results: seq<ChunkResult>, synthesize: string -> SynthesisReply,
                               parse: string -> Outcome<KnowledgeArtifact>): (r: Outcome<KnowledgeArtifact>)
    ensures IsBlank(Aggregate(results)) ==> r == Thrown(NO_SIGNAL_MESSAGE)
    ensures SignalTexts(results) == [] ==> r == Thrown(NO_SIGNAL_MESSAGE)
    ensures (!IsBlank(Aggregate(results)) && synthesize(SYNTHESIS_PREAMBLE + Aggregate(results)) == Answered(""))
            ==> r == Thrown(EMPTY_RESPONSE_MESSAGE)
    ensures (!IsBlank(Aggregate(results)) && synthesize(SYNTHESIS_PREAMBLE + Aggregate(results)).Raised?)
            ==> r == Thrown(synthesize(SYNTHESIS_PREAMBLE + Aggregate(results)).message)
    ensures (!IsBlank(Aggregate(results)) && synthesize(SYNTHESIS_PREAMBLE + Aggregate(results)).Answered? &&
             synthesize(SYNTHESIS_PREAMBLE + Aggregate(results)).text != "")
            ==> r == parse(synthesize(SYNTHESIS_PREAMBLE + Aggregate(results)).text)
    ensures r.Ok? ==>
              (SignalTexts(results) != [] &&
               var reply := synthesize(SYNTHESIS_PREAMBLE + Aggregate(results));
               reply.Answered? && reply.text != "" && parse(reply.text) == r)
  {
    var aggregated := Aggregate(results);
    AggregateBlank(results);
    if IsBlank(aggregated) then Thrown(NO_SIGNAL_MESSAGE)
    else
      match synthesize(SYNTHESIS_PREAMBLE + aggregated)
      case Raised(message) => Thrown(message)
      case Answered(text) => if text == "" then Thrown(EMPTY_RESPONSE_MESSAGE) else parse(text)
  }
}
