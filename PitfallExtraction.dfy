/** `DocAnalyzer.extract_pitfalls`: every line of every page that holds a
    pitfall keyword (after lower-casing) yields one pitfall, whatever the
    number of keywords it holds; its context is the line and at most two
    following lines, joined and stripped. */
module PitfallExtraction {
  import opened Text
  import opened Wrappers
  import opened DocExtractor
  import opened AnalyzerRecords
  import opened KeywordRules

  const PitfallKeywords: seq<string> := [
    "warning:", "note:", "important:", "\U{26A0}\U{FE0F}", "caution:", "attention:",
    "gotcha", "common mistake", "pitfall", "error:", "fails",
    "deprecated", "breaking change"]

  const HighSeverityWords: seq<string> := ["critical", "breaking", "error"]
  const LowSeverityWords: seq<string> := ["note", "tip"]

  const MaxDescription := 200
  const ContextLines := 3

  /** The line `i` and at most two following lines, joined and stripped */
  function Context(lines: seq<string>, i: nat): string
    requires i < |lines|
  {
    var end := if i + ContextLines < |lines| then i + ContextLines else |lines|;
    Strip(Join(lines[i..end], "\n"))
  }

  /** The pitfall of line `i` of a page: there is one exactly when the
      lower-cased line holds a keyword; it carries the page url, and its
      description is the first 200 characters of its context. */
  function LinePitfall(lines: seq<string>, i: nat, url: string): (r: Option<Pitfall>)
    requires i < |lines|
    ensures r.Some? <==> AnyIn(Lower(lines[i]), PitfallKeywords)
    ensures r.Some? ==> r.value.sourceUrl == url && r.value.context == Context(lines, i)
    ensures r.Some? ==> |r.value.description| <= MaxDescription
    ensures r.Some? ==> StartsWith(r.value.context, r.value.description)
    ensures r.Some? && |r.value.context| <= MaxDescription ==> r.value.description == r.value.context
  {
    var lower := Lower(lines[i]);
    if !AnyIn(lower, PitfallKeywords) then None
    else
      var context := Context(lines, i);
      Some(Pitfall(Take(context, MaxDescription), url, Level(lower, HighSeverityWords, LowSeverityWords), context))
  }

  function LinePitfalls(lines: seq<string>, url: string): (r: seq<Option<Pitfall>>)
    ensures |r| == |lines|
    ensures forall i :: 0 <= i < |lines| ==> r[i] == LinePitfall(lines, i, url)
  {
    seq(|lines|, i requires 0 <= i < |lines| => LinePitfall(lines, i, url))
  }

  function PagePitfalls(page: Page): seq<Pitfall>
  {
    Somes(LinePitfalls(Split(page.content, '\n'), page.url))
  }

  /** `extract_pitfalls` */
  function Pitfalls(pages: seq<Page>): seq<Pitfall>
    decreases |pages|
  {
    if |pages| == 0 then []
    else Pitfalls(pages[..|pages| - 1]) + PagePitfalls(pages[|pages| - 1])
  }

  method ExtractPitfalls(pages: seq<Page>) returns (pitfalls: seq<Pitfall>)
    ensures pitfalls == Pitfalls(pages)
  {
    pitfalls := [];
    for p := 0 to |pages|
      invariant pitfalls == Pitfalls(pages[..p])
    {
      assert pages[..p + 1][..p] == pages[..p];
      var found := ScanPagePitfalls(pages[p]);
      pitfalls := pitfalls + found;
    }
    assert pages[..|pages|] == pages;
  }

  /** One page: its lines, then the line loop */
  method ScanPagePitfalls(page: Page) returns (found: seq<Pitfall>)
    ensures found == PagePitfalls(page)
  {
    var lines := Split(page.content, '\n');
    found := ScanLines(lines, page.url);
  }

  /** The line loop for one page */
  method ScanLines(lines: seq<string>, url: string) returns (found: seq<Pitfall>)
    ensures found == Somes(LinePitfalls(lines, url))
  {
    ghost var opts := LinePitfalls(lines, url);
    found := [];
    for i := 0 to |lines|
      invariant found == Somes(opts[..i])
    {
      var o := ScanLine(lines, i, url);
      SomesStep(opts, i);
      if o.Some? {
        found := found + [o.value];
      }
    }
    assert opts[..|lines|] == opts;
  }

  /** The keyword loop for one line: the first keyword found makes the
      pitfall and ends the loop. */
  method ScanLine(lines: seq<string>, i: nat, url: string) returns (o: Option<Pitfall>)
    requires i < |lines|
    ensures o == LinePitfall(lines, i, url)
  {
    var lineLower := Lower(lines[i]);
    for k := 0 to |PitfallKeywords|
      invariant forall j :: 0 <= j < k ==> !Contains(lineLower, PitfallKeywords[j])
    {
      if Contains(lineLower, PitfallKeywords[k]) {
        var end := if i + ContextLines < |lines| then i + ContextLines else |lines|;
        var context := Strip(Join(lines[i..end], "\n"));
        var severity := Level(lineLower, HighSeverityWords, LowSeverityWords);
        return Some(Pitfall(Take(context, MaxDescription), url, severity, context));
      }
    }
    o := None;
  }

  // ---------------------------------------------------------------------
  // Properties
  // ---------------------------------------------------------------------

  /** At most one pitfall per line, and each pitfall is the pitfall of one
      of the page's lines. */
  lemma PagePitfallsPerLine(page: Page)
    ensures |PagePitfalls(page)| <= |Split(page.content, '\n')|
    ensures forall p :: p in PagePitfalls(page) <==>
      exists i :: 0 <= i < |Split(page.content, '\n')| && LinePitfall(Split(page.content, '\n'), i, page.url) == Some(p)
  {
    var lines := Split(page.content, '\n');
    var opts := LinePitfalls(lines, page.url);
    SomesLength(opts);
    forall p
      ensures p in PagePitfalls(page) <==> exists i :: 0 <= i < |lines| && LinePitfall(lines, i, page.url) == Some(p)
    {
      SomesMember(opts, p);
      if Some(p) in opts {
        var i :| 0 <= i < |opts| && opts[i] == Some(p);
        assert LinePitfall(lines, i, page.url) == Some(p);
      }
    }
  }

  /** A line holding "error:" or "breaking change" always yields a pitfall
      of high severity. */
  lemma ErrorLinesAreHigh(lines: seq<string>, i: nat, url: string)
    requires i < |lines|
    requires Contains(Lower(lines[i]), "error:") || Contains(Lower(lines[i]), "breaking change")
    ensures LinePitfall(lines, i, url).Some?
    ensures LinePitfall(lines, i, url).value.severity == "high"
  {
    var lower := Lower(lines[i]);
    if Contains(lower, "error:") {
      assert "error:" in PitfallKeywords;
      assert OccursAt("error:", "error", 0);
      ContainedWordRanksHigh(lower, "error:", "error", HighSeverityWords, LowSeverityWords);
    } else {
      assert "breaking change" in PitfallKeywords;
      assert OccursAt("breaking change", "breaking", 0);
      ContainedWordRanksHigh(lower, "breaking change", "breaking", HighSeverityWords, LowSeverityWords);
    }
  }

  /** A "note:" line without a high-severity word yields a low pitfall. */
  lemma NoteLinesAreLow(lines: seq<string>, i: nat, url: string)
    requires i < |lines|
    requires Contains(Lower(lines[i]), "note:")
    requires !AnyIn(Lower(lines[i]), HighSeverityWords)
    ensures LinePitfall(lines, i, url).Some?
    ensures LinePitfall(lines, i, url).value.severity == "low"
  {
    var lower := Lower(lines[i]);
    assert "note:" in PitfallKeywords;
    assert OccursAt("note:", "note", 0);
    ContainsTransitive(lower, "note:", "note");
    assert "note" in LowSeverityWords;
  }

  /** Every pitfall of the corpus comes from one of its pages and carries
      that page's url. */
  lemma {:induction false} PitfallsFromPages(pages: seq<Page>, p: Pitfall)
    requires p in Pitfalls(pages)
    decreases |pages|
    ensures exists k :: 0 <= k < |pages| && p in PagePitfalls(pages[k]) && p.sourceUrl == pages[k].url
  {
    var n := |pages| - 1;
    if p in Pitfalls(pages[..n]) {
      PitfallsFromPages(pages[..n], p);
      var k :| 0 <= k < n && p in PagePitfalls(pages[..n][k]) && p.sourceUrl == pages[..n][k].url;
      assert pages[..n][k] == pages[k];
    } else {
      var lines := Split(pages[n].content, '\n');
      PagePitfallsPerLine(pages[n]);
      var i :| 0 <= i < |lines| && LinePitfall(lines, i, pages[n].url) == Some(p);
    }
  }
}
