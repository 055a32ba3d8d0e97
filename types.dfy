/**
 * The shared data model of the application: the pipeline's stage enum, the
 * per-chunk result record, the synthesized knowledge artifact, its section
 * keys and their display titles.
 */
module Types {

  datatype Option<T> = None | Some(value: T)

  /** The coarse stage of the pipeline. Each constructor stands for the string
      enum member of the same name. */
  datatype ProcessingStage = IDLE | CHUNKING | COMPACTING | SYNTHESIZING | COMPLETE | ERROR

  const ALL_STAGES: seq<ProcessingStage> := [IDLE, CHUNKING, COMPACTING, SYNTHESIZING, COMPLETE, ERROR]

  /** The string value each enum member carries. */
  function StageName(s: ProcessingStage): string
  {
    match s
    case IDLE => "IDLE"
    case CHUNKING => "CHUNKING"
    case COMPACTING => "COMPACTING"
    case SYNTHESIZING => "SYNTHESIZING"
    case COMPLETE => "COMPLETE"
    case ERROR => "ERROR"
  }

  /** The enum has exactly six members and their string values are pairwise distinct. */
  lemma StagesEnumerated()
    ensures |ALL_STAGES| == 6
    ensures forall s: ProcessingStage :: s in ALL_STAGES
    ensures forall i, j :: 0 <= i < j < |ALL_STAGES| ==> StageName(ALL_STAGES[i]) != StageName(ALL_STAGES[j])
  {
    forall s: ProcessingStage ensures s in ALL_STAGES {
      match s
      case IDLE => assert ALL_STAGES[0] == s;
      case CHUNKING => assert ALL_STAGES[1] == s;
      case COMPACTING => assert ALL_STAGES[2] == s;
      case SYNTHESIZING => assert ALL_STAGES[3] == s;
      case COMPLETE => assert ALL_STAGES[4] == s;
      case ERROR => assert ALL_STAGES[5] == s;
    }
  }

  /** The outcome of compacting one chunk. */
  datatype ChunkResult = ChunkResult(originalText: string, compactedText: string, index: nat)

  datatype KnowledgeArtifact = KnowledgeArtifact(
    overview: string,
    concepts: seq<string>,
    facts: seq<string>,
    decisions: seq<string>,
    procedures: seq<string>,
    risks: seq<string>,
    openQuestions: seq<string>)

  /** `keyof KnowledgeArtifact` */
  datatype SectionKey = Overview | Concepts | Facts | Decisions | Procedures | Risks | OpenQuestions

  const ALL_SECTION_KEYS: seq<SectionKey> := [Overview, Concepts, Facts, Decisions, Procedures, Risks, OpenQuestions]

  /** The property name of the artifact field each key stands for. */
  function FieldName(k: SectionKey): string
  {
    match k
    case Overview => "overview"
    case Concepts => "concepts"
    case Facts => "facts"
    case Decisions => "decisions"
    case Procedures => "procedures"
    case Risks => "risks"
    case OpenQuestions => "openQuestions"
  }

  const SECTION_TITLES: map<SectionKey, string> := map[
    Overview := "Overview",
    Concepts := "Core Concepts",
    Facts := "Hard Facts",
    Decisions := "Key Decisions",
    Procedures := "Procedures & Protocols",
    Risks := "Risks & Warnings",
    OpenQuestions := "Open Questions"
  ]

  /** The title table is total over the keys and no two keys share a title. */
  lemma SectionTitlesTotalAndDistinct()
    ensures forall k: SectionKey :: k in SECTION_TITLES
    ensures forall k1: SectionKey, k2: SectionKey :: k1 != k2 ==> SECTION_TITLES[k1] != SECTION_TITLES[k2]
    ensures |ALL_SECTION_KEYS| == 7 && forall k: SectionKey :: k in ALL_SECTION_KEYS
  {
    forall k: SectionKey ensures k in SECTION_TITLES && k in ALL_SECTION_KEYS {
      match k
      case Overview => assert ALL_SECTION_KEYS[0] == k;
      case Concepts => assert ALL_SECTION_KEYS[1] == k;
      case Facts => assert ALL_SECTION_KEYS[2] == k;
      case Decisions => assert ALL_SECTION_KEYS[3] == k;
      case Procedures => assert ALL_SECTION_KEYS[4] == k;
      case Risks => assert ALL_SECTION_KEYS[5] == k;
      case OpenQuestions => assert ALL_SECTION_KEYS[6] == k;
    }
    forall k1: SectionKey, k2: SectionKey | k1 != k2 ensures SECTION_TITLES[k1] != SECTION_TITLES[k2] {
      TitleSignature(k1);
      TitleSignature(k2);
    }
  }

  /** A title's length and first letter. No two keys share both, so two titles
      differ as soon as their signatures do; comparing these small pairs keeps
      the distinctness proof cheap, where comparing the 49 pairs of title
      strings character by character costs the solver far more. TitleSignature
      checks each pair against the actual title in SECTION_TITLES. */
  function Signature(k: SectionKey): (int, char)
  {
    match k
    case Overview => (8, 'O')
    case Concepts => (13, 'C')
    case Facts => (10, 'H')
    case Decisions => (13, 'K')
    case Procedures => (22, 'P')
    case Risks => (16, 'R')
    case OpenQuestions => (14, 'O')
  }

  lemma TitleSignature(k: SectionKey)
    ensures k in SECTION_TITLES && |SECTION_TITLES[k]| > 0
    ensures (|SECTION_TITLES[k]|, SECTION_TITLES[k][0]) == Signature(k)
  {
  }
}
