/** The gap researcher's query queue: one research query per documentation
    gap, the queries researched in priority order by the fallback
    researcher, and the findings classified as generally useful or
    task-specific. */
module GapResearch {
  import opened Text
  import opened Wrappers

  /** A gap as the analyzer writes it: "description", "impact" and others */
  type GapDict = map<string, string>

  function DescriptionOf(gap: GapDict): string { GetOr(gap, "description", "") }
  function ImpactOf(gap: GapDict): string { GetOr(gap, "impact", "medium") }

  const Levels: seq<string> := ["low", "medium", "high"]

  /** The priority of a gap's impact: the impact itself when it is one of the
      three levels, "medium" for anything else */
  function PriorityOf(impact: string): (r: string)
    ensures r in Levels
    ensures r == impact || (impact !in Levels && r == "medium")
  {
    if impact in Levels then impact else "medium"
  }

  // ---------------------------------------------------------------------
  // Questions
  // ---------------------------------------------------------------------

  const Unexplained := "mentioned but not explained"
  const SeeDocumentation := "see documentation"
  const GenericSuffix := " - Provide detailed explanation with examples and common use cases."

  /** `s.split(sep)[1]` for a separator that occurs: the text after its first
      occurrence, up to the next one */
  function SecondPiece(s: string, sep: string): string
    requires |sep| > 0 && Contains(s, sep)
  {
    var i := Find(s, sep);
    var rest := s[i + |sep|..];
    if Contains(rest, sep) then rest[..Find(rest, sep)] else rest
  }

  /** The feature a "mentioned but not explained" gap names: the text between
      its first two quotes, or the whole description when it has none */
  function Feature(description: string): string
  {
    if '\'' in description then
      SplitSeparated(description, '\'');
      Split(description, '\'')[1]
    else description
  }

  /** The topic of a "see documentation" gap: the stripped text after the
      first "for", up to the next one, or the whole description */
  function Topic(description: string): string
  {
    if Contains(description, "for") then Strip(SecondPiece(description, "for")) else description
  }

  /** `_formulate_question`; the tool context it is given is not used */
  function Question(description: string): string
  {
    if Contains(Lower(description), Unexplained) then
      "How does " + Feature(description) + " work? Provide detailed explanation with examples."
    else if Contains(Lower(description), SeeDocumentation) then
      "What are the details of " + Topic(description) + "? Include usage examples and best practices."
    else description + GenericSuffix
  }

  /** What a question asks about, chosen with the same precedence */
  function Subject(description: string): string
  {
    if Contains(Lower(description), Unexplained) then Feature(description)
    else if Contains(Lower(description), SeeDocumentation) then Topic(description)
    else description
  }

  lemma SecondPieceFacts(s: string, sep: string)
    requires |sep| > 0 && Contains(s, sep)
    ensures Contains(s, SecondPiece(s, sep))
    ensures !Contains(SecondPiece(s, sep), sep)
  {
    var start := Find(s, sep) + |sep|;
    var rest := s[start..];
    var r := SecondPiece(s, sep);
    if Contains(rest, sep) {
      var j := Find(rest, sep);
      assert r == rest[..j];
      assert !Contains(r, sep) by { PrefixBeforeFirst(rest, sep, j); }
      assert OccursAt(s, r, start) by { TailPrefixOccurs(s, start, j); }
    } else {
      assert r == rest;
      assert OccursAt(s, r, start) by { TailPrefixOccurs(s, start, |rest|); }
    }
  }

  /** A prefix of a tail of `s` occurs in `s` where the tail starts. */
  lemma TailPrefixOccurs(s: string, start: nat, j: nat)
    requires start + j <= |s|
    ensures OccursAt(s, s[start..][..j], start)
  {
    assert s[start..start + j] == s[start..][..j];
  }

  /** The text before the first occurrence of `sep` holds no `sep`. */
  lemma PrefixBeforeFirst(t: string, sep: string, j: nat)
    requires |sep| > 0 && j <= |t| && forall m :: 0 <= m < j ==> !OccursAt(t, sep, m)
    ensures !Contains(t[..j], sep)
  {
    var r := t[..j];
    if Contains(r, sep) {
      var k :| 0 <= k <= |r| && OccursAt(r, sep, k);
      assert r[k..k + |sep|] == t[k..k + |sep|];
      assert OccursAt(t, sep, k);
    }
  }

  /** The feature is part of the description, and holds no quote when the
      description has one. */
  lemma FeatureFacts(description: string)
    ensures Contains(description, Feature(description))
    ensures '\'' in description ==> '\'' !in Feature(description)
  {
    if '\'' in description {
      SplitSeparated(description, '\'');
      SplitPieceIn(description, '\'', 1);
    } else {
      assert OccursAt(description, description, 0);
    }
  }

  /** The topic is part of the description, and holds no "for" when the
      description has one. */
  lemma TopicFacts(description: string)
    ensures Contains(description, Topic(description))
    ensures Contains(description, "for") ==> !Contains(Topic(description), "for")
  {
    if Contains(description, "for") {
      var piece := SecondPiece(description, "for");
      SecondPieceFacts(description, "for");
      StripContained(piece, Whitespace);
      ContainsTransitive(description, piece, Topic(description));
      if Contains(Topic(description), "for") {
        ContainsTransitive(piece, Topic(description), "for");
      }
    } else {
      assert OccursAt(description, description, 0);
    }
  }

  /** Every question names a part of its gap's description: the quoted
      feature first, then the documentation topic, and otherwise the
      description itself, which then opens the question. */
  lemma QuestionNamesSubject(description: string)
    ensures Contains(description, Subject(description))
    ensures Contains(Question(description), Subject(description))
    ensures !Contains(Lower(description), Unexplained) && !Contains(Lower(description), SeeDocumentation)
      ==> StartsWith(Question(description), description)
  {
    var unexplained := Contains(Lower(description), Unexplained);
    var documented := Contains(Lower(description), SeeDocumentation);
    if unexplained {
      FeatureFacts(description);
      ContainsInfix("How does ", Feature(description), " work? Provide detailed explanation with examples.");
    } else if documented {
      TopicFacts(description);
      ContainsInfix("What are the details of ", Topic(description), "? Include usage examples and best practices.");
    } else {
      assert OccursAt(description, description, 0);
      ContainsInfix("", description, GenericSuffix);
      assert "" + description + GenericSuffix == description + GenericSuffix;
    }
  }

  // ---------------------------------------------------------------------
  // Queries and findings
  // ---------------------------------------------------------------------

  class ResearchQuery {
    const gapId: nat
    const question: string
    const context: string
    const priority: string
    var status: string

    constructor(gapId: nat, question: string, context: string, priority: string)
      ensures this.gapId == gapId && this.question == question
      ensures this.context == context && this.priority == priority
      ensures status == "pending"
    {
      this.gapId := gapId;
      this.question := question;
      this.context := context;
      this.priority := priority;
      status := "pending";
    }
  }

  class ResearchFinding {
    const queryId: nat
    const question: string
    const answer: string
    const sources: seq<string>
    const confidence: string
    var relevance: string

    constructor(queryId: nat, question: string, answer: string, sources: seq<string>,
                confidence: string, relevance: string)
      ensures this.queryId == queryId && this.question == question && this.answer == answer
      ensures this.sources == sources && this.confidence == confidence && this.relevance == relevance
    {
      this.queryId := queryId;
      this.question := question;
      this.answer := answer;
      this.sources := sources;
      this.confidence := confidence;
      this.relevance := relevance;
    }
  }

  /** The query made for gap number `i` */
  predicate IsQueryFor(q: ResearchQuery, gap: GapDict, i: nat, context: string)
    reads q
  {
    && q.gapId == i
    && q.question == Question(DescriptionOf(gap))
    && q.context == context
    && q.priority == PriorityOf(ImpactOf(gap))
    && q.status == "pending"
  }

  /** `generate_queries_from_gaps`: one new pending query per gap, numbered
      by position */
  method GenerateQueries(gaps: seq<GapDict>, context: string) returns (queries: seq<ResearchQuery>)
    ensures |queries| == |gaps|
    ensures forall i :: 0 <= i < |gaps| ==> fresh(queries[i]) && IsQueryFor(queries[i], gaps[i], i, context)
  {
    queries := [];
    for i := 0 to |gaps|
      invariant |queries| == i
      invariant forall k :: 0 <= k < i ==> fresh(queries[k]) && IsQueryFor(queries[k], gaps[k], k, context)
    {
      var description := DescriptionOf(gaps[i]);
      var priority := PriorityOf(ImpactOf(gaps[i]));
      var q := new ResearchQuery(i, Question(description), context, priority);
      queries := queries + [q];
    }
  }

  // ---------------------------------------------------------------------
  // Priority order
  // ---------------------------------------------------------------------

  /** The sort key of `research_all`: high, then medium and any unknown
      priority, then low */
  function Rank(priority: string): (r: nat)
    ensures r < 3
  {
    if priority == "high" then 0 else if priority == "low" then 2 else 1
  }

  /** The queries of one rank, in their order */
  function WithRank(qs: seq<ResearchQuery>, r: nat): seq<ResearchQuery>
    decreases |qs|
  {
    if |qs| == 0 then []
    else
      var n := |qs| - 1;
      WithRank(qs[..n], r) + (if Rank(qs[n].priority) == r then [qs[n]] else [])
  }

  /** Python's stable `sorted` on the rank: every rank in turn, each in input
      order */
  function ByPriority(qs: seq<ResearchQuery>): seq<ResearchQuery>
  {
    WithRank(qs, 0) + WithRank(qs, 1) + WithRank(qs, 2)
  }

  lemma {:induction false} WithRankMembers(qs: seq<ResearchQuery>, r: nat, q: ResearchQuery)
    decreases |qs|
    ensures q in WithRank(qs, r) <==> q in qs && Rank(q.priority) == r
  {
    if |qs| > 0 {
      var n := |qs| - 1;
      WithRankMembers(qs[..n], r, q);
      assert qs == qs[..n] + [qs[n]];
    }
  }

  lemma {:induction false} WithRankAppend(a: seq<ResearchQuery>, b: seq<ResearchQuery>, r: nat)
    decreases |b|
    ensures WithRank(a + b, r) == WithRank(a, r) + WithRank(b, r)
  {
    if |b| == 0 {
      assert a + b == a;
    } else {
      var n := |b| - 1;
      WithRankAppend(a, b[..n], r);
      assert (a + b)[..|a + b| - 1] == a + b[..n];
    }
  }

  lemma {:induction false} WithRankOf(qs: seq<ResearchQuery>, r: nat, s: nat)
    decreases |qs|
    ensures WithRank(WithRank(qs, r), s) == if r == s then WithRank(qs, r) else []
  {
    if |qs| > 0 {
      var n := |qs| - 1;
      WithRankOf(qs[..n], r, s);
      var last := if Rank(qs[n].priority) == r then [qs[n]] else [];
      WithRankAppend(WithRank(qs[..n], r), last, s);
    }
  }

  /** The three ranks share the queries out between them. */
  lemma {:induction false} RankPartition(qs: seq<ResearchQuery>)
    decreases |qs|
    ensures multiset(WithRank(qs, 0)) + multiset(WithRank(qs, 1)) + multiset(WithRank(qs, 2)) == multiset(qs)
  {
    if |qs| > 0 {
      var n := |qs| - 1;
      var init, last := qs[..n], qs[n];
      RankPartition(init);
      assert multiset(qs) == multiset(init) + multiset{last} by {
        assert qs == init + [last];
      }
      WithRankSnoc(qs, 0);
      WithRankSnoc(qs, 1);
      WithRankSnoc(qs, 2);
      OneOfThree(multiset(WithRank(init, 0)), multiset(WithRank(init, 1)), multiset(WithRank(init, 2)),
        multiset(WithRank(qs, 0)), multiset(WithRank(qs, 1)), multiset(WithRank(qs, 2)),
        last, Rank(last.priority));
    }
  }

  /** Adding one element to exactly one of three parts adds it to their sum. */
  lemma OneOfThree<T>(a0: multiset<T>, a1: multiset<T>, a2: multiset<T>,
                      b0: multiset<T>, b1: multiset<T>, b2: multiset<T>, x: T, r: nat)
    requires r < 3
    requires b0 == a0 + if r == 0 then multiset{x} else multiset{}
    requires b1 == a1 + if r == 1 then multiset{x} else multiset{}
    requires b2 == a2 + if r == 2 then multiset{x} else multiset{}
    ensures b0 + b1 + b2 == a0 + a1 + a2 + multiset{x}
  {
  }

  /** One more query joins the queries of its own rank only. */
  lemma WithRankSnoc(qs: seq<ResearchQuery>, r: nat)
    requires |qs| > 0
    ensures multiset(WithRank(qs, r)) == multiset(WithRank(qs[..|qs| - 1], r))
      + if Rank(qs[|qs| - 1].priority) == r then multiset{qs[|qs| - 1]} else multiset{}
  {
  }

  /** The priority order is a permutation of the queries. */
  lemma ByPriorityPermutation(qs: seq<ResearchQuery>)
    ensures multiset(ByPriority(qs)) == multiset(qs)
  {
    RankPartition(qs);
  }

  /** The priority order never puts a lower priority before a higher one. */
  lemma ByPrioritySorted(qs: seq<ResearchQuery>)
    ensures forall i, j :: 0 <= i < j < |ByPriority(qs)| ==>
      Rank(ByPriority(qs)[i].priority) <= Rank(ByPriority(qs)[j].priority)
  {
    var b := ByPriority(qs);
    var a0, a1, a2 := WithRank(qs, 0), WithRank(qs, 1), WithRank(qs, 2);
    forall i | 0 <= i < |b|
      ensures Rank(b[i].priority) == (if i < |a0| then 0 else if i < |a0| + |a1| then 1 else 2)
    {
      if i < |a0| {
        WithRankMembers(qs, 0, b[i]);
      } else if i < |a0| + |a1| {
        assert b[i] == a1[i - |a0|];
        WithRankMembers(qs, 1, b[i]);
      } else {
        assert b[i] == a2[i - |a0| - |a1|];
        WithRankMembers(qs, 2, b[i]);
      }
    }
  }

  /** The sort is stable: the queries of each priority keep their order. */
  lemma ByPriorityStable(qs: seq<ResearchQuery>, r: nat)
    ensures WithRank(ByPriority(qs), r) == WithRank(qs, r)
  {
    var a0, a1, a2 := WithRank(qs, 0), WithRank(qs, 1), WithRank(qs, 2);
    var b0, b1, b2 := WithRank(a0, r), WithRank(a1, r), WithRank(a2, r);
    assert WithRank(ByPriority(qs), r) == b0 + b1 + b2 by {
      WithRankAppend(a0 + a1, a2, r);
      WithRankAppend(a0, a1, r);
    }
    assert b0 == (if r == 0 then a0 else []) by { WithRankOf(qs, 0, r); }
    assert b1 == (if r == 1 then a1 else []) by { WithRankOf(qs, 1, r); }
    assert b2 == (if r == 2 then a2 else []) by { WithRankOf(qs, 2, r); }
    if r >= 3 {
      assert WithRank(qs, r) == [] by {
        if |WithRank(qs, r)| > 0 {
          WithRankMembers(qs, r, WithRank(qs, r)[0]);
        }
      }
    }
  }

  /** `sorted_queries[:max_queries]`, taken only when the limit is given and
      not zero; a negative limit counts from the end as Python slices do */
  function Selected(qs: seq<ResearchQuery>, maxQueries: Option<int>): seq<ResearchQuery>
  {
    if maxQueries.Some? && maxQueries.value != 0 then Slice(qs, 0, maxQueries.value) else qs
  }

  /** The selection is a prefix of the order: all of it without a limit, the
      first `m` for a positive limit, all but the last `-m` for a negative
      one. */
  lemma SelectedPrefix(qs: seq<ResearchQuery>, maxQueries: Option<int>)
    ensures var s := Selected(qs, maxQueries);
      && s == qs[..|s|]
      && (maxQueries.None? || maxQueries.value == 0 ==> s == qs)
      && (maxQueries.Some? && maxQueries.value > 0 ==>
            |s| == if maxQueries.value < |qs| then maxQueries.value else |qs|)
      && (maxQueries.Some? && maxQueries.value < 0 ==>
            |s| == if |qs| + maxQueries.value < 0 then 0 else |qs| + maxQueries.value)
  {
  }

  lemma SelectedFromQueries(qs: seq<ResearchQuery>, maxQueries: Option<int>)
    ensures forall q :: q in Selected(ByPriority(qs), maxQueries) ==> q in qs
  {
    var b := ByPriority(qs);
    SelectedPrefix(b, maxQueries);
    ByPriorityPermutation(qs);
    forall q | q in Selected(b, maxQueries)
      ensures q in qs
    {
      assert q in multiset(b);
    }
  }

  // ---------------------------------------------------------------------
  // Researching
  // ---------------------------------------------------------------------

  const ManualWords := "Manual research required"
  const ManualAnswer := "[" + ManualWords + " - Perplexity MCP not available]"
  const ReviewSource := "[Requires human review]"

  /** The finding the fallback researcher gives for a query */
  predicate IsFallbackFor(f: ResearchFinding, q: ResearchQuery)
    reads f
  {
    && f.queryId == q.gapId
    && f.question == q.question
    && f.answer == ManualAnswer
    && f.sources == [ReviewSource]
    && f.confidence == "low"
    && f.relevance == "task_specific"
  }

  /** `_research_fallback`, which `research_query` reaches on both of its
      paths: a placeholder finding asking for manual research */
  method ResearchFallback(q: ResearchQuery) returns (f: ResearchFinding)
    ensures fresh(f) && IsFallbackFor(f, q)
  {
    f := new ResearchFinding(q.gapId, q.question, ManualAnswer, [ReviewSource], "low", "task_specific");
  }

  datatype ResearchMetadata = ResearchMetadata(totalQueries: nat, completed: nat, failed: nat, recency: string)

  datatype ResearchLog = ResearchLog(
    source: string,
    queries: seq<ResearchQuery>,
    findings: seq<ResearchFinding>,
    metadata: ResearchMetadata)

  /** How many of the queries have the status */
  function CountStatus(qs: seq<ResearchQuery>, status: string): nat
    reads set q | q in qs
    decreases |qs|
  {
    if |qs| == 0 then 0
    else
      var n := |qs| - 1;
      CountStatus(qs[..n], status) + (if qs[n].status == status then 1 else 0)
  }

  /** Two statuses never count more queries than there are, and exactly as
      many when every query has one of them. */
  lemma {:induction false} CountStatusTotal(qs: seq<ResearchQuery>, s: string, t: string)
    requires s != t
    decreases |qs|
    ensures CountStatus(qs, s) + CountStatus(qs, t) <= |qs|
    ensures (forall k :: 0 <= k < |qs| ==> qs[k].status in {s, t}) ==>
      CountStatus(qs, s) + CountStatus(qs, t) == |qs|
    ensures (forall k :: 0 <= k < |qs| ==> qs[k].status == s) ==> CountStatus(qs, t) == 0
  {
    if |qs| > 0 {
      CountStatusTotal(qs[..|qs| - 1], s, t);
    }
  }

  /** The loop of `research_all`: one fallback finding per query, in order,
      each query marked completed */
  method ResearchEach(selected: seq<ResearchQuery>) returns (findings: seq<ResearchFinding>)
    modifies set q | q in selected
    ensures |findings| == |selected|
    ensures forall i :: 0 <= i < |selected| ==> fresh(findings[i]) && IsFallbackFor(findings[i], selected[i])
    ensures forall i :: 0 <= i < |selected| ==> selected[i].status == "completed"
  {
    findings := [];
    for i := 0 to |selected|
      invariant |findings| == i
      invariant forall k :: 0 <= k < i ==> fresh(findings[k]) && IsFallbackFor(findings[k], selected[k])
      invariant forall k :: 0 <= k < i ==> selected[k].status == "completed"
    {
      var finding := ResearchFallback(selected[i]);
      findings := findings + [finding];
      selected[i].status := "completed";
    }
  }

  /** `research_all` with the fallback researcher: the queries in priority
      order, limited when asked, each answered by one fallback finding and
      marked completed; queries left out keep their status. */
  method ResearchAll(queries: seq<ResearchQuery>, maxQueries: Option<int>, recency: string)
    returns (log: ResearchLog)
    modifies set q | q in queries
    ensures log.source == "gap_research"
    ensures log.queries == Selected(ByPriority(queries), maxQueries)
    ensures |log.findings| == |log.queries|
    ensures forall i :: 0 <= i < |log.findings| ==>
      fresh(log.findings[i]) && IsFallbackFor(log.findings[i], log.queries[i])
    ensures forall q :: q in log.queries ==> q.status == "completed"
    ensures forall q :: q in queries && q !in log.queries ==> q.status == old(q.status)
    ensures log.metadata == ResearchMetadata(|log.queries|, |log.queries|, 0, recency)
  {
    var ordered := ByPriority(queries);
    var selected := ordered;
    if maxQueries.Some? && maxQueries.value != 0 {
      selected := Slice(ordered, 0, maxQueries.value);
    }
    SelectedFromQueries(queries, maxQueries);
    var findings := ResearchEach(selected);
    CountStatusTotal(selected, "completed", "failed");
    var completed := CountStatus(selected, "completed");
    var failed := CountStatus(selected, "failed");
    log := ResearchLog("gap_research", selected, findings,
      ResearchMetadata(|selected|, completed, failed, recency));
  }

  // ---------------------------------------------------------------------
  // Classifying
  // ---------------------------------------------------------------------

  const GeneralIndicators: seq<string> := [
    "best practice", "common pattern", "typical usage", "recommended approach",
    "standard method", "widely used", "production use"]

  const SpecificIndicators: seq<string> := [
    "edge case", "specific scenario", "rare situation", "advanced feature",
    "not commonly", "manual research required"]

  /** How many of the indicators occur in the text */
  function IndicatorScore(text: string, indicators: seq<string>): nat
    decreases |indicators|
  {
    if |indicators| == 0 then 0
    else
      var n := |indicators| - 1;
      IndicatorScore(text, indicators[..n]) + (if Contains(text, indicators[n]) then 1 else 0)
  }

  /** The relevance `classify_findings` gives an answer */
  function Relevance(answer: string): string
  {
    var text := Lower(answer);
    if IndicatorScore(text, GeneralIndicators) > IndicatorScore(text, SpecificIndicators)
    then "general" else "task_specific"
  }

  /** `classify_findings`: every finding's relevance is recomputed from its
      answer */
  method ClassifyFindings(log: ResearchLog) returns (r: ResearchLog)
    modifies set f | f in log.findings
    ensures r == log
    ensures forall f :: f in log.findings ==> f.relevance == Relevance(f.answer)
  {
    var findings := log.findings;
    for i := 0 to |findings|
      invariant forall k :: 0 <= k < i ==> findings[k].relevance == Relevance(findings[k].answer)
    {
      var text := Lower(findings[i].answer);
      var general := IndicatorScore(text, GeneralIndicators);
      var specific := IndicatorScore(text, SpecificIndicators);
      if general > specific {
        findings[i].relevance := "general";
      } else {
        findings[i].relevance := "task_specific";
      }
    }
    r := log;
  }

  /** The score counts the indicators that occur: at most all of them, and
      positive exactly when one occurs. */
  lemma {:induction false} IndicatorScoreSpec(text: string, indicators: seq<string>)
    decreases |indicators|
    ensures IndicatorScore(text, indicators) <= |indicators|
    ensures IndicatorScore(text, indicators) > 0 <==>
      exists k :: 0 <= k < |indicators| && Contains(text, indicators[k])
  {
    if |indicators| > 0 {
      var n := |indicators| - 1;
      IndicatorScoreSpec(text, indicators[..n]);
      if exists k :: 0 <= k < |indicators| && Contains(text, indicators[k]) {
        var k :| 0 <= k < |indicators| && Contains(text, indicators[k]);
        if k < n {
          assert indicators[..n][k] == indicators[k];
        }
      } else {
        assert forall k :: 0 <= k < n ==> indicators[..n][k] == indicators[k];
      }
    }
  }

  /** An answer mentioning no general indicator is task-specific; one with a
      general indicator and no specific one is general. */
  lemma RelevanceRules(answer: string)
    ensures (forall k :: 0 <= k < |GeneralIndicators| ==> !Contains(Lower(answer), GeneralIndicators[k]))
      ==> Relevance(answer) == "task_specific"
    ensures (exists k :: 0 <= k < |GeneralIndicators| && Contains(Lower(answer), GeneralIndicators[k]))
      && (forall k :: 0 <= k < |SpecificIndicators| ==> !Contains(Lower(answer), SpecificIndicators[k]))
      ==> Relevance(answer) == "general"
  {
    IndicatorScoreSpec(Lower(answer), GeneralIndicators);
    IndicatorScoreSpec(Lower(answer), SpecificIndicators);
  }

  /** The fallback answer asks for manual research, a specific indicator, so
      it is general only if at least two general indicators occur in it. */
  lemma ManualAnswerIsSpecific()
    ensures IndicatorScore(Lower(ManualAnswer), SpecificIndicators) >= 1
    ensures Relevance(ManualAnswer) == "general" ==> IndicatorScore(Lower(ManualAnswer), GeneralIndicators) >= 2
  {
    var text := Lower(ManualAnswer);
    var words := ManualWords;
    var marker := "manual research required";
    forall k | 0 <= k < |words|
      ensures Lower(words)[k] == marker[k]
    {
      assert k == 0 || k == 1 || k == 2 || k == 3 || k == 4 || k == 5 || k == 6 || k == 7 || k == 8 || k == 9 || k == 10 || k == 11 || k == 12 || k == 13 || k == 14 || k == 15 || k == 16 || k == 17 || k == 18 || k == 19 || k == 20 || k == 21 || k == 22 || k == 23;
    }
    assert ManualAnswer[1..25] == words;
    assert |text| >= 25;
    assert text[1..25] == Lower(words);
    assert OccursAt(text, marker, 1);
    assert SpecificIndicators[5] == marker;
    IndicatorScoreSpec(text, SpecificIndicators);
  }

  // ---------------------------------------------------------------------
  // Reading the log
  // ---------------------------------------------------------------------

  /** `get_finding_for_query`: the first finding for the query, if any */
  function FindingForQuery(findings: seq<ResearchFinding>, queryId: nat): (r: Option<ResearchFinding>)
    decreases |findings|
    ensures r.None? <==> forall i :: 0 <= i < |findings| ==> findings[i].queryId != queryId
    ensures r.Some? ==> exists i :: (0 <= i < |findings| && findings[i] == r.value
      && findings[i].queryId == queryId
      && forall j :: 0 <= j < i ==> findings[j].queryId != queryId)
  {
    if |findings| == 0 then None
    else if findings[0].queryId == queryId then Some(findings[0])
    else
      var r := FindingForQuery(findings[1..], queryId);
      assert forall i :: 1 <= i < |findings| ==> findings[i] == findings[1..][i - 1];
      if r.Some? then
        var i :| 0 <= i < |findings[1..]| && findings[1..][i] == r.value && findings[1..][i].queryId == queryId
          && forall j :: 0 <= j < i ==> findings[1..][j].queryId != queryId;
        assert findings[i + 1] == r.value;
        r
      else r
  }

  /** The findings with a relevance, in their order: `get_general_findings`
      for "general", `get_task_specific_findings` for "task_specific" */
  function WithRelevance(findings: seq<ResearchFinding>, relevance: string): seq<ResearchFinding>
    reads set f | f in findings
    decreases |findings|
  {
    if |findings| == 0 then []
    else
      var n := |findings| - 1;
      WithRelevance(findings[..n], relevance)
      + (if findings[n].relevance == relevance then [findings[n]] else [])
  }

  lemma {:induction false} WithRelevanceMembers(findings: seq<ResearchFinding>, relevance: string, f: ResearchFinding)
    decreases |findings|
    ensures f in WithRelevance(findings, relevance) <==> f in findings && f.relevance == relevance
  {
    if |findings| > 0 {
      var n := |findings| - 1;
      WithRelevanceMembers(findings[..n], relevance, f);
      assert findings == findings[..n] + [findings[n]];
    }
  }

  /** Once classified, every finding is in exactly one of the two lists. */
  lemma {:induction false} ClassifiedSplit(findings: seq<ResearchFinding>)
    requires forall k :: 0 <= k < |findings| ==> findings[k].relevance == Relevance(findings[k].answer)
    decreases |findings|
    ensures |WithRelevance(findings, "general")| + |WithRelevance(findings, "task_specific")| == |findings|
  {
    if |findings| > 0 {
      ClassifiedSplit(findings[..|findings| - 1]);
    }
  }
}
