/** The analyzer's top-level pass: the six extractors run over one corpus
    and their results, with the corpus metadata, form one analysis context. */
module DocAnalysis {
  import opened Text
  import opened DocExtractor
  import opened AnalyzerRecords
  import opened ToolClassification
  import opened WorkflowExtraction
  import opened ExampleExtraction
  import opened PatternIdentification
  import opened PitfallExtraction
  import opened GapAnalysis

  /** The `metadata` of `analyze`: source, page count and the length of the
      contents joined with blank lines */
  function Metadata(source: string, pages: seq<Page>): AnalysisMetadata
  {
    AnalysisMetadata(source, |pages|, |Join(Contents(pages), "\n\n")|)
  }

  /** The context `analyze` returns for a corpus */
  function Analysis(source: string, pages: seq<Page>): AnalysisContext
  {
    var c := Classify(CorpusText(pages));
    var examples := Examples(pages);
    AnalysisContext(
      c.toolType, c.confidence, c.reasoning,
      Workflows(pages), examples, Patterns(examples),
      Pitfalls(pages), Gaps(pages),
      Metadata(source, pages))
  }

  /** `DocAnalyzer.analyze`: the steps in their order, patterns drawn from the
      examples just extracted */
  method Analyze(corpus: DocumentationCorpus) returns (context: AnalysisContext)
    ensures context == Analysis(corpus.source, corpus.pages)
  {
    var full := Join(Contents(corpus.pages), "\n\n");
    var c := ClassifyToolType(corpus.pages);
    var workflows := ExtractWorkflows(corpus.pages);
    var examples := ExtractExamples(corpus.pages);
    var patterns := IdentifyPatterns(examples);
    var pitfalls := ExtractPitfalls(corpus.pages);
    var gaps := AnalyzeGaps(corpus.pages);
    context := AnalysisContext(
      c.toolType, c.confidence, c.reasoning,
      workflows, examples, patterns, pitfalls, gaps,
      AnalysisMetadata(corpus.source, |corpus.pages|, |full|));
  }

  /** The metadata counts the pages, and its content length is the sum of
      the page lengths plus a two-character separator between neighbours. */
  lemma MetadataFacts(source: string, pages: seq<Page>)
    ensures Metadata(source, pages).source == source
    ensures Metadata(source, pages).pagesAnalyzed == |pages|
    ensures |pages| == 0 ==> Metadata(source, pages).totalContentLength == 0
    ensures |pages| > 0 ==>
      Metadata(source, pages).totalContentLength == TotalContentLength(pages) + 2 * (|pages| - 1)
  {
    if |pages| > 0 {
      JoinedContentLength(pages);
    }
  }

  /** The bounds of an analysis: a confidence in [0, 1], at most five
      reasons, ten patterns and twenty gaps, patterns in descending order of
      occurrences, and a metadata record that matches the corpus. */
  lemma AnalysisBounds(source: string, pages: seq<Page>)
    ensures var a := Analysis(source, pages);
      && 0.0 <= a.toolTypeConfidence <= 1.0
      && |a.toolTypeReasoning| <= 5
      && |a.patterns| <= MaxPatterns
      && SortedDescending(a.patterns)
      && |a.gaps| <= MaxGaps
      && a.metadata.pagesAnalyzed == |pages|
      && (|pages| > 0 ==> a.metadata.totalContentLength == TotalContentLength(pages) + 2 * (|pages| - 1))
  {
    var full := CorpusText(pages);
    ClassifyUnknown(full);
    ClassifyReasoning(full);
    if Classify(full).toolType != Unknown {
      DecideWinner(ScoresOf(full), AllReasons(full));
    }
    PatternsOrder(Examples(pages));
    GapsFacts(pages);
    MetadataFacts(source, pages);
  }
}
