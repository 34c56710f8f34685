/** The records the documentation analyzer produces. Field defaults of the
    Python dataclasses are written out where a record is built. */
module AnalyzerRecords {

  /** Classification of the documented tool */
  datatype ToolType = Cli | Api | Library | Framework | Unknown
  {
    /** The enum value, as written into generated text */
    function Value(): string
    {
      match this
      case Cli => "cli"
      case Api => "api"
      case Library => "library"
      case Framework => "framework"
      case Unknown => "unknown"
    }
  }

  /** A fenced code block found in the documentation */
  datatype CodeExample = CodeExample(
    title: string,
    language: string,
    code: string,
    sourceUrl: string,
    context: string,
    exampleType: string)

  /** A usage workflow: a header line followed by step lines */
  datatype Workflow = Workflow(
    name: string,
    description: string,
    steps: seq<string>,
    frequency: string,
    examples: seq<CodeExample>,
    sourceUrls: seq<string>)

  /** A line shared by several examples of one language */
  datatype Pattern = Pattern(
    name: string,
    description: string,
    occurrences: nat,
    exampleIds: seq<nat>,
    commonStructure: string,
    variableParts: seq<string>)

  /** A warning found in the documentation */
  datatype Pitfall = Pitfall(
    description: string,
    sourceUrl: string,
    severity: string,
    context: string)

  /** A reference to documentation that is not there */
  datatype Gap = Gap(
    description: string,
    impact: string,
    status: string,
    notes: string)

  /** The `metadata` dictionary of an analysis */
  datatype AnalysisMetadata = AnalysisMetadata(
    source: string,
    pagesAnalyzed: nat,
    totalContentLength: nat)

  /** Everything the analyzer found */
  datatype AnalysisContext = AnalysisContext(
    toolType: ToolType,
    toolTypeConfidence: real,
    toolTypeReasoning: seq<string>,
    workflows: seq<Workflow>,
    examples: seq<CodeExample>,
    patterns: seq<Pattern>,
    pitfalls: seq<Pitfall>,
    gaps: seq<Gap>,
    metadata: AnalysisMetadata)
}
