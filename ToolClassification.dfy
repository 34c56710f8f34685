/** `DocAnalyzer.classify_tool_type`: four keyword lists are counted over
    the lower-cased corpus; the list with the highest total wins, the first
    one in the order CLI, API, library, framework on ties. */
module ToolClassification {
  import opened Text
  import opened DocExtractor
  import opened AnalyzerRecords

  const CliIndicators: seq<string> := [
    "command", "flag", "option", "--", "usage:", "arguments:",
    "cli", "command-line", "terminal", "shell", "bash", "$"]

  const ApiIndicators: seq<string> := [
    "endpoint", "request", "response", "POST", "GET", "PUT", "DELETE",
    "api", "rest", "http", "json", "authentication", "header"]

  const LibraryIndicators: seq<string> := [
    "import", "class", "function", "method", "module", "package",
    "install", "pip", "npm", "require", "from", "def "]

  const FrameworkIndicators: seq<string> := [
    "scaffold", "generate", "project", "app", "create-",
    "framework", "boilerplate", "template", "structure"]

  const NoIndicatorsReason := "No clear indicators found"

  function LowerContents(pages: seq<Page>): (r: seq<string>)
    ensures |r| == |pages|
    ensures forall i :: 0 <= i < |pages| ==> r[i] == Lower(pages[i].content)
  {
    seq(|pages|, i requires 0 <= i < |pages| => Lower(pages[i].content))
  }

  /** The classified text: the lower-cased pages joined by newlines */
  function CorpusText(pages: seq<Page>): string
  {
    Join(LowerContents(pages), "\n")
  }

  /** How often an indicator occurs in the (lower-cased) text */
  function IndicatorCount(full: string, indicator: string): nat
  {
    Count(full, Lower(indicator))
  }

  /** The score a list of indicators contributes */
  function Score(full: string, indicators: seq<string>): nat
    decreases |indicators|
  {
    if |indicators| == 0 then 0
    else Score(full, indicators[..|indicators| - 1]) + IndicatorCount(full, indicators[|indicators| - 1])
  }

  function ReasonText(indicator: string, count: nat): string
  {
    "Found '" + indicator + "' " + NatToString(count) + " times"
  }

  /** The reasons a list of indicators contributes: one per indicator seen more than twice */
  function Reasons(full: string, indicators: seq<string>): seq<string>
    decreases |indicators|
  {
    if |indicators| == 0 then []
    else
      var ind := indicators[|indicators| - 1];
      var n := IndicatorCount(full, ind);
      Reasons(full, indicators[..|indicators| - 1]) + (if n > 2 then [ReasonText(ind, n)] else [])
  }

  datatype Scores = Scores(cli: nat, api: nat, library: nat, framework: nat)
  {
    function Of(t: ToolType): nat
    {
      match t
      case Cli => cli
      case Api => api
      case Library => library
      case Framework => framework
      case Unknown => 0
    }

    function Total(): nat { cli + api + library + framework }
  }

  /** Position of a type in the scores dictionary */
  function Rank(t: ToolType): nat
  {
    match t
    case Cli => 0
    case Api => 1
    case Library => 2
    case Framework => 3
    case Unknown => 4
  }

  function ScoresOf(full: string): Scores
  {
    Scores(Score(full, CliIndicators), Score(full, ApiIndicators),
           Score(full, LibraryIndicators), Score(full, FrameworkIndicators))
  }

  function AllReasons(full: string): seq<string>
  {
    Reasons(full, CliIndicators) + Reasons(full, ApiIndicators)
    + Reasons(full, LibraryIndicators) + Reasons(full, FrameworkIndicators)
  }

  /** `max(scores, key=scores.get)`: the first type with the highest score */
  function Winner(s: Scores): (w: ToolType)
    ensures w != Unknown
    ensures forall t :: t != Unknown ==> s.Of(t) <= s.Of(w)
    ensures forall t :: Rank(t) < Rank(w) ==> s.Of(t) < s.Of(w)
  {
    if s.cli >= s.api && s.cli >= s.library && s.cli >= s.framework then Cli
    else if s.api >= s.library && s.api >= s.framework then Api
    else if s.library >= s.framework then Library
    else Framework
  }

  datatype Classification = Classification(toolType: ToolType, confidence: real, reasoning: seq<string>)

  /** The verdict drawn from the four scores and the collected reasons */
  function Decide(s: Scores, reasons: seq<string>): Classification
  {
    if s.Of(Winner(s)) == 0 then Classification(Unknown, 0.0, [NoIndicatorsReason])
    else
      var w := Winner(s);
      Classification(w, s.Of(w) as real / s.Total() as real, Take(reasons, 5))
  }

  /** The result of `classify_tool_type` on the classified text */
  function Classify(full: string): Classification
  {
    Decide(ScoresOf(full), AllReasons(full))
  }

  /** One counting loop of `classify_tool_type` */
  method CountIndicators(full: string, indicators: seq<string>, reasoning0: seq<string>)
    returns (score: nat, reasoning: seq<string>)
    ensures score == Score(full, indicators)
    ensures reasoning == reasoning0 + Reasons(full, indicators)
  {
    score := 0;
    reasoning := reasoning0;
    for i := 0 to |indicators|
      invariant score == Score(full, indicators[..i])
      invariant reasoning == reasoning0 + Reasons(full, indicators[..i])
    {
      assert indicators[..i + 1][..i] == indicators[..i];
      var count := Count(full, Lower(indicators[i]));
      if count > 0 {
        score := score + count;
        if count > 2 {
          reasoning := reasoning + [ReasonText(indicators[i], count)];
        }
      }
    }
    assert indicators[..|indicators|] == indicators;
  }

  method ClassifyToolType(pages: seq<Page>) returns (c: Classification)
    ensures c == Classify(CorpusText(pages))
  {
    var full := Join(LowerContents(pages), "\n");
    var scores, reasoning := ScoreAll(full);
    c := DetermineWinner(scores, reasoning);
  }

  /** The four counting loops of `classify_tool_type`, in dictionary order,
      all adding to one list of reasons */
  method ScoreAll(full: string) returns (scores: Scores, reasoning: seq<string>)
    ensures scores == ScoresOf(full)
    ensures reasoning == AllReasons(full)
  {
    var cli, api, library, framework;
    reasoning := [];
    cli, reasoning := CountIndicators(full, CliIndicators, reasoning);
    assert reasoning == Reasons(full, CliIndicators) by {
      assert [] + Reasons(full, CliIndicators) == Reasons(full, CliIndicators);
    }
    api, reasoning := CountIndicators(full, ApiIndicators, reasoning);
    library, reasoning := CountIndicators(full, LibraryIndicators, reasoning);
    framework, reasoning := CountIndicators(full, FrameworkIndicators, reasoning);
    scores := Scores(cli, api, library, framework);
  }

  /** The verdict step of `classify_tool_type` */
  method DetermineWinner(scores: Scores, reasoning: seq<string>) returns (c: Classification)
    ensures c == Decide(scores, reasoning)
  {
    if scores.cli <= 0 && scores.api <= 0 && scores.library <= 0 && scores.framework <= 0 {
      return Classification(Unknown, 0.0, [NoIndicatorsReason]);
    }
    var winner := Winner(scores);
    var total := scores.Total();
    c := Classification(winner, scores.Of(winner) as real / total as real, Take(reasoning, 5));
  }

  // ---------------------------------------------------------------------
  // Properties
  // ---------------------------------------------------------------------

  lemma {:induction false} ScorePositive(full: string, indicators: seq<string>)
    decreases |indicators|
    ensures Score(full, indicators) > 0 <==> AnyOccurs(full, indicators)
  {
    if |indicators| > 0 {
      var init := indicators[..|indicators| - 1];
      ScorePositive(full, init);
      CountPositive(full, Lower(indicators[|indicators| - 1]));
      if exists k :: 0 <= k < |init| && Contains(full, Lower(init[k])) {
        var k :| 0 <= k < |init| && Contains(full, Lower(init[k]));
        assert indicators[k] == init[k];
      }
      if exists k :: 0 <= k < |indicators| && Contains(full, Lower(indicators[k])) {
        var k :| 0 <= k < |indicators| && Contains(full, Lower(indicators[k]));
        if k < |init| {
          assert init[k] == indicators[k];
        }
      }
    }
  }

  /** Some indicator of the list occurs in the text */
  predicate AnyOccurs(full: string, indicators: seq<string>)
  {
    exists k :: 0 <= k < |indicators| && Contains(full, Lower(indicators[k]))
  }

  lemma DecideUnknown(s: Scores, reasons: seq<string>)
    ensures Decide(s, reasons).toolType == Unknown <==> s.Total() == 0
    ensures Decide(s, reasons).toolType == Unknown ==>
      Decide(s, reasons) == Classification(Unknown, 0.0, [NoIndicatorsReason])
    ensures Decide(s, reasons).toolType != Unknown ==> Decide(s, reasons).reasoning == Take(reasons, 5)
  {
  }

  /** The tool is UNKNOWN exactly when no indicator of any list occurs, and
      then the confidence is 0 and the single reason says so. */
  lemma ClassifyUnknown(full: string)
    ensures Classify(full).toolType == Unknown <==>
      !AnyOccurs(full, CliIndicators) && !AnyOccurs(full, ApiIndicators)
      && !AnyOccurs(full, LibraryIndicators) && !AnyOccurs(full, FrameworkIndicators)
    ensures Classify(full).toolType == Unknown ==>
      Classify(full).confidence == 0.0 && Classify(full).reasoning == [NoIndicatorsReason]
  {
    DecideUnknown(ScoresOf(full), AllReasons(full));
    ScorePositive(full, CliIndicators);
    ScorePositive(full, ApiIndicators);
    ScorePositive(full, LibraryIndicators);
    ScorePositive(full, FrameworkIndicators);
  }

  /** A classified tool has the highest score (the first such in dictionary
      order) and a confidence in (0, 1]: its share of all indicator hits. */
  lemma DecideWinner(s: Scores, reasons: seq<string>)
    requires Decide(s, reasons).toolType != Unknown
    ensures var c := Decide(s, reasons);
      (forall t :: t != Unknown ==> s.Of(t) <= s.Of(c.toolType))
      && (forall t :: Rank(t) < Rank(c.toolType) ==> s.Of(t) < s.Of(c.toolType))
      && 0.0 < c.confidence <= 1.0
      && c.confidence * s.Total() as real == s.Of(c.toolType) as real
  {
    var w := Winner(s);
    assert s.Of(w) <= s.Total();
    var q := s.Of(w) as real / s.Total() as real;
    assert q * s.Total() as real == s.Of(w) as real;
    RatioAtMostOne(s.Of(w) as real, s.Total() as real);
  }

  lemma RatioAtMostOne(w: real, t: real)
    requires 0.0 < w <= t
    ensures 0.0 < w / t <= 1.0
  {
    assert w / t * t == w;
  }

  lemma {:induction false} ReasonsSound(full: string, indicators: seq<string>)
    decreases |indicators|
    ensures forall r :: r in Reasons(full, indicators) ==> IsReasonFor(full, indicators, r)
  {
    if |indicators| > 0 {
      var init := indicators[..|indicators| - 1];
      ReasonsSound(full, init);
      forall r | r in Reasons(full, init)
        ensures IsReasonFor(full, indicators, r)
      {
        var k :| 0 <= k < |init| && IndicatorCount(full, init[k]) > 2
          && r == ReasonText(init[k], IndicatorCount(full, init[k]));
        assert indicators[k] == init[k];
      }
    }
  }

  /** `r` is the reason text of an indicator of the list that occurs more than twice */
  predicate IsReasonFor(full: string, indicators: seq<string>, r: string)
  {
    exists k :: 0 <= k < |indicators| && IndicatorCount(full, indicators[k]) > 2
      && r == ReasonText(indicators[k], IndicatorCount(full, indicators[k]))
  }

  /** At most five reasons are kept, each naming an indicator that occurs more
      than twice in the text, with its count. */
  lemma ClassifyReasoning(full: string)
    ensures |Classify(full).reasoning| <= 5
    ensures Classify(full).toolType != Unknown ==>
      forall r :: r in Classify(full).reasoning ==>
        IsReasonFor(full, CliIndicators, r) || IsReasonFor(full, ApiIndicators, r)
        || IsReasonFor(full, LibraryIndicators, r) || IsReasonFor(full, FrameworkIndicators, r)
  {
    DecideUnknown(ScoresOf(full), AllReasons(full));
    ReasonsSound(full, CliIndicators);
    ReasonsSound(full, ApiIndicators);
    ReasonsSound(full, LibraryIndicators);
    ReasonsSound(full, FrameworkIndicators);
    var all := AllReasons(full);
    forall r | r in Take(all, 5)
      ensures r in all
    {
    }
  }
}
