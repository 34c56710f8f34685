/** `DocAnalyzer.analyze_gaps`: for every page and every gap indicator
    found in the lower-cased page, one gap built from the text around the
    indicator's first occurrence; the corpus list is cut to twenty. */
module GapAnalysis {
  import opened Text
  import opened Wrappers
  import opened DocExtractor
  import opened AnalyzerRecords
  import opened KeywordRules

  const GapIndicators: seq<string> := [
    "see documentation", "refer to", "advanced usage", "for more details",
    "coming soon", "TODO", "WIP", "not documented", "tbd"]

  const HighImpactWords: seq<string> := ["important", "required", "must"]
  const LowImpactWords: seq<string> := ["optional", "advanced"]

  const MaxGaps := 20
  const WindowBefore := 50
  const WindowAfter := 150
  const DescriptionLength := 100
  const DescriptionPrefix := "Reference to external documentation: "
  const ToResearch := "to_research"

  function NotesFor(indicator: string): string
  {
    "Found indicator: '" + indicator + "'"
  }

  /** The page text from 50 characters before `pos` to 150 after it,
      clipped to the page */
  function Window(content: string, pos: nat): (r: string)
    requires pos <= |content|
    ensures |r| <= WindowBefore + WindowAfter
  {
    var start := if pos >= WindowBefore then pos - WindowBefore else 0;
    var end := if pos + WindowAfter < |content| then pos + WindowAfter else |content|;
    content[start..end]
  }

  /** The gap for one indicator on one page: present exactly when the
      lower-cased page holds the indicator; its context is the window around
      the first occurrence, its impact is ranked on the lower-cased context,
      and it is always to be researched. */
  function IndicatorGap(content: string, indicator: string): (r: Option<Gap>)
    ensures r.Some? <==> Contains(Lower(content), indicator)
    ensures r.Some? ==>
      && r.value.status == ToResearch
      && r.value.notes == NotesFor(indicator)
      && var pos := Find(Lower(content), indicator);
         0 <= pos <= |content|
         && (forall j :: 0 <= j < pos ==> !OccursAt(Lower(content), indicator, j))
         && var context := Window(content, pos);
            r.value.description == DescriptionPrefix + Take(context, DescriptionLength) + "..."
            && r.value.impact == Level(Lower(context), HighImpactWords, LowImpactWords)
  {
    var lower := Lower(content);
    if !Contains(lower, indicator) then None
    else
      var pos := Find(lower, indicator);
      var context := Window(content, pos);
      Some(Gap(DescriptionPrefix + Take(context, DescriptionLength) + "...",
               Level(Lower(context), HighImpactWords, LowImpactWords),
               ToResearch, NotesFor(indicator)))
  }

  function IndicatorGaps(content: string): (r: seq<Option<Gap>>)
    ensures |r| == |GapIndicators|
    ensures forall k :: 0 <= k < |GapIndicators| ==> r[k] == IndicatorGap(content, GapIndicators[k])
  {
    seq(|GapIndicators|, k requires 0 <= k < |GapIndicators| => IndicatorGap(content, GapIndicators[k]))
  }

  function PageGaps(page: Page): seq<Gap>
  {
    Somes(IndicatorGaps(page.content))
  }

  function AllGaps(pages: seq<Page>): seq<Gap>
    decreases |pages|
  {
    if |pages| == 0 then []
    else AllGaps(pages[..|pages| - 1]) + PageGaps(pages[|pages| - 1])
  }

  /** `analyze_gaps` */
  function Gaps(pages: seq<Page>): seq<Gap>
  {
    Take(AllGaps(pages), MaxGaps)
  }

  method AnalyzeGaps(pages: seq<Page>) returns (gaps: seq<Gap>)
    ensures gaps == Gaps(pages)
  {
    gaps := [];
    for p := 0 to |pages|
      invariant gaps == AllGaps(pages[..p])
    {
      assert pages[..p + 1][..p] == pages[..p];
      var found := ScanPageGaps(pages[p]);
      gaps := gaps + found;
    }
    assert pages[..|pages|] == pages;
    gaps := Take(gaps, MaxGaps);
  }

  /** The indicator loop for one page */
  method ScanPageGaps(page: Page) returns (found: seq<Gap>)
    ensures found == PageGaps(page)
  {
    var contentLower := Lower(page.content);
    ghost var opts := IndicatorGaps(page.content);
    found := [];
    for k := 0 to |GapIndicators|
      invariant found == Somes(opts[..k])
    {
      var o := ScanIndicator(page.content, contentLower, GapIndicators[k]);
      if o.Some? {
        found := found + [o.value];
      }
      SomesStep(opts, k);
    }
    assert opts[..|GapIndicators|] == opts;
  }

  /** The body of the indicator loop */
  method ScanIndicator(content: string, contentLower: string, indicator: string) returns (o: Option<Gap>)
    requires contentLower == Lower(content)
    ensures o == IndicatorGap(content, indicator)
  {
    o := None;
    if Contains(contentLower, indicator) {
      var pos := Find(contentLower, indicator);
      var contextStart := if pos >= WindowBefore then pos - WindowBefore else 0;
      var contextEnd := if pos + WindowAfter < |content| then pos + WindowAfter else |content|;
      var context := content[contextStart..contextEnd];
      assert context == Window(content, pos);
      var impact := Level(Lower(context), HighImpactWords, LowImpactWords);
      o := Some(Gap(DescriptionPrefix + Take(context, DescriptionLength) + "...", impact, ToResearch, NotesFor(indicator)));
    }
  }

  // ---------------------------------------------------------------------
  // Properties
  // ---------------------------------------------------------------------

  /** "TODO" and "WIP" hold upper-case letters and are looked for in the
      lower-cased page, so they never produce a gap. */
  lemma UpperCaseIndicatorsNeverMatch(content: string)
    ensures IndicatorGap(content, "TODO").None?
    ensures IndicatorGap(content, "WIP").None?
  {
    assert IsUpper("TODO"[0]);
    NoUpperInLower(content, "TODO");
    assert IsUpper("WIP"[0]);
    NoUpperInLower(content, "WIP");
  }

  lemma NotesInjective(a: string, b: string)
    requires NotesFor(a) == NotesFor(b)
    ensures a == b
  {
    var n := |"Found indicator: '"|;
    assert a == NotesFor(a)[n..n + |a|];
    assert b == NotesFor(b)[n..n + |b|];
  }

  /** At most one gap per indicator on a page, each the gap of one indicator. */
  lemma PageGapsPerIndicator(page: Page)
    ensures |PageGaps(page)| <= |GapIndicators|
    ensures forall g :: g in PageGaps(page) <==>
      exists k :: 0 <= k < |GapIndicators| && IndicatorGap(page.content, GapIndicators[k]) == Some(g)
  {
    var opts := IndicatorGaps(page.content);
    SomesLength(opts);
    forall g
      ensures g in PageGaps(page) <==>
        exists k :: 0 <= k < |GapIndicators| && IndicatorGap(page.content, GapIndicators[k]) == Some(g)
    {
      SomesMember(opts, g);
      if Some(g) in opts {
        var k :| 0 <= k < |opts| && opts[k] == Some(g);
        assert IndicatorGap(page.content, GapIndicators[k]) == Some(g);
      }
    }
  }

  /** A gap of a page names an indicator other than "TODO" and "WIP", and is
      to be researched. */
  lemma PageGapFacts(page: Page, g: Gap)
    requires g in PageGaps(page)
    ensures g.status == ToResearch
    ensures g.notes != NotesFor("TODO") && g.notes != NotesFor("WIP")
  {
    PageGapsPerIndicator(page);
    var k :| 0 <= k < |GapIndicators| && IndicatorGap(page.content, GapIndicators[k]) == Some(g);
    UpperCaseIndicatorsNeverMatch(page.content);
    if g.notes == NotesFor("TODO") {
      NotesInjective(GapIndicators[k], "TODO");
    }
    if g.notes == NotesFor("WIP") {
      NotesInjective(GapIndicators[k], "WIP");
    }
  }

  lemma {:induction false} AllGapsFacts(pages: seq<Page>, g: Gap)
    requires g in AllGaps(pages)
    decreases |pages|
    ensures g.status == ToResearch
    ensures g.notes != NotesFor("TODO") && g.notes != NotesFor("WIP")
  {
    var n := |pages| - 1;
    if g in AllGaps(pages[..n]) {
      AllGapsFacts(pages[..n], g);
    } else {
      PageGapFacts(pages[n], g);
    }
  }

  /** At most twenty gaps, all to be researched, none from "TODO" or "WIP". */
  lemma GapsFacts(pages: seq<Page>)
    ensures |Gaps(pages)| <= MaxGaps
    ensures forall g :: g in Gaps(pages) ==>
      g.status == ToResearch && g.notes != NotesFor("TODO") && g.notes != NotesFor("WIP")
  {
    forall g | g in Gaps(pages)
      ensures g.status == ToResearch && g.notes != NotesFor("TODO") && g.notes != NotesFor("WIP")
    {
      AllGapsFacts(pages, g);
    }
  }
}
