/** `DocAnalyzer.extract_examples`: fenced code blocks found by the pattern
    ```(\w+)?\n(.*?)\n``` (dot matching newlines), scanned left to right as
    `re.findall` does, each turned into a `CodeExample`. */
module ExampleExtraction {
  import opened Text
  import opened Wrappers
  import opened DocExtractor
  import opened AnalyzerRecords
  import WorkflowExtraction

  const Fence := "```"
  const CloseFence := "\n```"

  /** One match: the `\w+` group (empty when absent), the lazily matched
      code, and the match's span in the page */
  datatype Block = Block(language: string, code: string, start: nat, end: nat)

  /** The text a match spans */
  function BlockText(b: Block): string
  {
    Fence + b.language + "\n" + b.code + CloseFence
  }

  /** The first closing fence at or after `i`, or -1 */
  function CloseFrom(s: string, i: nat): (r: int)
    requires i <= |s|
    decreases |s| - i
    ensures r == -1 || (i <= r && r + 4 <= |s|)
  {
    if i + 4 > |s| then -1
    else if s[i..i + 4] == CloseFence then i
    else CloseFrom(s, i + 1)
  }

  lemma {:induction false} CloseFromFirst(s: string, i: nat)
    requires i <= |s|
    decreases |s| - i
    ensures var r := CloseFrom(s, i);
      && (r >= 0 ==> OccursAt(s, CloseFence, r))
      && (forall m :: i <= m && (r < 0 || m < r) ==> !OccursAt(s, CloseFence, m))
  {
    if i + 4 <= |s| && s[i..i + 4] != CloseFence {
      CloseFromFirst(s, i + 1);
    }
  }

  /** The pattern matched at position `i`. The greedy `\w+` is followed by a
      newline or the match fails (backing off leaves a word character where
      the newline must be); the lazy code group ends at the first "\n```". */
  function MatchAt(s: string, i: nat): (r: Option<Block>)
    requires i <= |s|
    ensures r.Some? ==> r.value.start == i && i < r.value.end <= |s|
  {
    if i + 3 > |s| || s[i..i + 3] != Fence then None
    else
      var j := WordRunEnd(s, i + 3);
      if j < |s| && s[j] == '\n' then
        var close := CloseFrom(s, j + 1);
        if close < 0 then None else Some(Block(s[i + 3..j], s[j + 1..close], i, close + 4))
      else None
  }

  /** `re.findall` from position `i`: a match resumes the scan at its end,
      a failed position at the next one */
  function BlocksFrom(s: string, i: nat): seq<Block>
    requires i <= |s|
    decreases |s| - i
  {
    if i == |s| then []
    else
      var m := MatchAt(s, i);
      (if m.Some? then [m.value] else []) + BlocksFrom(s, ResumeAt(i, m))
  }

  /** Where the scan resumes after trying position `i` */
  function ResumeAt(i: nat, m: Option<Block>): nat
  {
    if m.Some? then m.value.end else i + 1
  }

  function FencedBlocks(s: string): seq<Block>
  {
    BlocksFrom(s, 0)
  }

  /** The parts of a match: the fence at `i`, the word run up to a newline
      at `j`, and the first closing fence at or after `j + 1` */
  lemma MatchParts(s: string, i: nat) returns (j: nat, close: nat)
    requires i <= |s| && MatchAt(s, i).Some?
    ensures i + 3 <= j < close && close + 4 <= |s|
    ensures s[i..i + 3] == Fence && s[j] == '\n'
    ensures OccursAt(s, CloseFence, close)
    ensures forall m :: j + 1 <= m < close ==> !OccursAt(s, CloseFence, m)
    ensures MatchAt(s, i).value == Block(s[i + 3..j], s[j + 1..close], i, close + 4)
  {
    j := WordRunEnd(s, i + 3);
    var c := CloseFrom(s, j + 1);
    CloseFromFirst(s, j + 1);
    close := c;
  }

  /** A match spans exactly its fence text. */
  lemma MatchSpan(s: string, i: nat)
    requires i <= |s| && MatchAt(s, i).Some?
    ensures OccursAt(s, BlockText(MatchAt(s, i).value), i)
    ensures MatchAt(s, i).value.end == i + |BlockText(MatchAt(s, i).value)|
  {
    var j, close := MatchParts(s, i);
    FenceSpan(s, i, j, close);
  }

  /** The fence, the word run, the newline, the code and the closing fence
      sit side by side. */
  lemma FenceSpan(s: string, i: nat, j: nat, close: nat)
    requires i + 3 <= j < close && close + 4 <= |s|
    requires s[i..i + 3] == Fence && s[j] == '\n' && OccursAt(s, CloseFence, close)
    ensures s[i..close + 4] == Fence + s[i + 3..j] + "\n" + s[j + 1..close] + CloseFence
  {
    SliceConcat(s, i, i + 3, j);
    SliceConcat(s, i, j, j + 1);
    SliceConcat(s, i, j + 1, close);
    SliceConcat(s, i, close, close + 4);
    assert s[j..j + 1] == "\n";
  }

  /** Adjacent slices concatenate. */
  lemma SliceConcat(s: string, a: nat, b: nat, c: nat)
    requires a <= b <= c <= |s|
    ensures s[a..b] + s[b..c] == s[a..c]
  {
  }

  /** The language of a match is made of word characters. */
  lemma MatchLanguage(s: string, i: nat)
    requires i <= |s| && MatchAt(s, i).Some?
    ensures All(MatchAt(s, i).value.language, IsWordChar)
  {
    WordRun(s, i + 3);
  }

  /** `Find` returns a first occurrence. */
  lemma FindFirst(t: string, p: string, n: nat)
    requires OccursAt(t, p, n)
    requires forall m :: 0 <= m < n ==> !OccursAt(t, p, m)
    ensures Find(t, p) == n
  {
    assert Contains(t, p);
  }

  /** An occurrence inside a slice is an occurrence in the whole string. */
  lemma OccursInSlice(s: string, p: string, a: nat, b: nat, m: nat)
    requires a <= b <= |s| && m + |p| <= b - a
    ensures OccursAt(s[a..b], p, m) <==> OccursAt(s, p, a + m)
  {
    var u, v := s[a..b][m..m + |p|], s[a + m..a + m + |p|];
    forall k | 0 <= k < |p|
      ensures u[k] == v[k]
    {
    }
    assert u == v;
  }

  /** The code of a match holds no closing fence: the first closing fence
      after the code's start is the one right after it (the lazy group). */
  lemma MatchCloseFirst(s: string, i: nat)
    requires i <= |s| && MatchAt(s, i).Some?
    ensures Find(MatchAt(s, i).value.code + CloseFence, CloseFence) == |MatchAt(s, i).value.code|
  {
    var j, close := MatchParts(s, i);
    FirstCloseAfter(s, j + 1, close);
  }

  /** Text up to the first closing fence, followed by a closing fence, has
      its first closing fence right after that text. */
  lemma FirstCloseAfter(s: string, a: nat, close: nat)
    requires a <= close && close + 4 <= |s| && OccursAt(s, CloseFence, close)
    requires forall m :: a <= m < close ==> !OccursAt(s, CloseFence, m)
    ensures Find(s[a..close] + CloseFence, CloseFence) == close - a
  {
    var code := s[a..close];
    var t := code + CloseFence;
    assert t == s[a..close + 4];
    forall m | 0 <= m < |code|
      ensures !OccursAt(t, CloseFence, m)
    {
      if m + 4 <= |t| {
        OccursInSlice(s, CloseFence, a, close + 4, m);
      }
    }
    assert t[|code|..] == CloseFence;
    FindFirst(t, CloseFence, |code|);
  }

  /** Block `k` of the scan from `i` is the match at its own start, at or after `i` */
  lemma {:induction false} BlockIsMatch(s: string, i: nat, k: nat)
    requires i <= |s| && k < |BlocksFrom(s, i)|
    decreases |s| - i
    ensures i <= BlocksFrom(s, i)[k].start <= |s|
    ensures MatchAt(s, BlocksFrom(s, i)[k].start) == Some(BlocksFrom(s, i)[k])
  {
    var m := MatchAt(s, i);
    var next := ResumeAt(i, m);
    if m.Some? && k == 0 {
    } else {
      var k' := if m.Some? then k - 1 else k;
      assert BlocksFrom(s, i)[k] == BlocksFrom(s, next)[k'];
      BlockIsMatch(s, next, k');
    }
  }

  /** The blocks come in text order and do not overlap. */
  lemma {:induction false} BlocksOrdered(s: string, i: nat, k: nat)
    requires i <= |s| && k + 1 < |BlocksFrom(s, i)|
    decreases |s| - i
    ensures BlocksFrom(s, i)[k].end <= BlocksFrom(s, i)[k + 1].start
  {
    var m := MatchAt(s, i);
    var next := ResumeAt(i, m);
    if m.Some? && k == 0 {
      assert BlocksFrom(s, i)[1] == BlocksFrom(s, next)[0];
      BlockIsMatch(s, next, 0);
    } else {
      var k' := if m.Some? then k - 1 else k;
      assert BlocksFrom(s, i)[k] == BlocksFrom(s, next)[k'];
      assert BlocksFrom(s, i)[k + 1] == BlocksFrom(s, next)[k' + 1];
      BlocksOrdered(s, next, k');
    }
  }

  /** The title found in the context: the first of its last three lines
      that starts with '#', stripped of '#' and whitespace, if any */
  method ExampleHeading(context: string) returns (heading: Option<string>)
    ensures heading == Heading(LastN(Split(context, '\n'), 3))
  {
    heading := None;
    var lines := LastN(Split(context, '\n'), 3);
    for i := 0 to |lines|
      invariant Heading(lines[i..]) == Heading(lines)
    {
      if StartsWith(lines[i], "#") {
        heading := Some(WorkflowExtraction.HeaderName(lines[i]));
        return;
      }
      assert lines[i..][1..] == lines[i + 1..];
    }
  }

  function Heading(lines: seq<string>): Option<string>
    decreases |lines|
  {
    if |lines| == 0 then None
    else if StartsWith(lines[0], "#") then Some(WorkflowExtraction.HeaderName(lines[0]))
    else Heading(lines[1..])
  }

  /** "Example N", N counted from 1 over the whole corpus */
  function DefaultTitle(n: nat): string
  {
    "Example " + NatToString(n + 1)
  }

  /** The title: the heading found, else the default */
  function TitleFor(heading: Option<string>, n: nat): string
  {
    if heading.Some? then heading.value else DefaultTitle(n)
  }

  /** The language written into the example */
  function ExampleLanguage(b: Block): string
  {
    if b.language == "" then "unknown" else b.language
  }

  /** The context: up to 200 characters before the position of
      "```<language>\n<code>", stripped. With the rewritten language of an
      untagged block this lookup usually fails, and `content[0:-1]` is taken. */
  function ContextOf(content: string, language: string, code: string): string
  {
    var codePos := Find(content, Fence + language + "\n" + code);
    var contextStart := if codePos - 200 > 0 then codePos - 200 else 0;
    Strip(Slice(content, contextStart, codePos))
  }

  /** A block with the language, the context and the heading computed for it */
  datatype Found = Found(block: Block, language: string, context: string, heading: Option<string>)

  function Locate(content: string, b: Block): Found
  {
    var language := ExampleLanguage(b);
    var context := ContextOf(content, language, b.code);
    Found(b, language, context, Heading(LastN(Split(context, '\n'), 3)))
  }

  function LocateAll(content: string, blocks: seq<Block>): (r: seq<Found>)
    decreases |blocks|
    ensures |r| == |blocks|
  {
    if |blocks| == 0 then []
    else LocateAll(content, blocks[..|blocks| - 1]) + [Locate(content, blocks[|blocks| - 1])]
  }

  lemma {:induction false} LocateAllAt(content: string, blocks: seq<Block>, k: nat)
    requires k < |blocks|
    decreases |blocks|
    ensures LocateAll(content, blocks)[k] == Locate(content, blocks[k])
  {
    if k < |blocks| - 1 {
      LocateAllAt(content, blocks[..|blocks| - 1], k);
    }
  }

  /** The blocks of a page, located */
  function PageFinds(page: Page): seq<Found>
  {
    LocateAll(page.content, FencedBlocks(page.content))
  }

  /** The example made from `f` on the page at `url` when `n` examples precede it */
  function ExampleFrom(url: string, f: Found, n: nat): CodeExample
  {
    CodeExample(TitleFor(f.heading, n), f.language, Strip(f.block.code),
                url, LastN(f.context, 100), "basic")
  }

  /** A located block with the url of its page */
  datatype Located = Located(url: string, found: Found)

  function Tag(url: string, fs: seq<Found>): (r: seq<Located>)
    ensures |r| == |fs|
    ensures forall k :: 0 <= k < |fs| ==> r[k] == Located(url, fs[k])
  {
    seq(|fs|, k requires 0 <= k < |fs| => Located(url, fs[k]))
  }

  lemma TagSnoc(prior: seq<Located>, url: string, fs: seq<Found>, i: nat)
    requires i < |fs|
    ensures prior + Tag(url, fs[..i + 1]) == prior + Tag(url, fs[..i]) + [Located(url, fs[i])]
  {
    assert Tag(url, fs[..i + 1]) == Tag(url, fs[..i]) + [Located(url, fs[i])];
  }

  /** The located blocks of the corpus, in page order and then block order */
  function AllFinds(pages: seq<Page>): seq<Located>
    decreases |pages|
  {
    if |pages| == 0 then []
    else AllFinds(pages[..|pages| - 1]) + Tag(pages[|pages| - 1].url, PageFinds(pages[|pages| - 1]))
  }

  /** The examples made from located blocks, numbered by position */
  function ExamplesOf(ls: seq<Located>): (r: seq<CodeExample>)
    ensures |r| == |ls|
  {
    seq(|ls|, k requires 0 <= k < |ls| => ExampleFrom(ls[k].url, ls[k].found, k))
  }

  /** One more located block adds one example, numbered by the blocks
      before it. */
  lemma ExamplesOfSnoc(ls: seq<Located>, x: Located)
    ensures ExamplesOf(ls + [x]) == ExamplesOf(ls) + [ExampleFrom(x.url, x.found, |ls|)]
  {
    var l := ls + [x];
    forall k | 0 <= k < |ls|
      ensures l[k] == ls[k]
    {
    }
    assert l[|ls|] == x;
  }

  /** `extract_examples` */
  function Examples(pages: seq<Page>): seq<CodeExample>
  {
    ExamplesOf(AllFinds(pages))
  }

  method ExtractExamples(pages: seq<Page>) returns (examples: seq<CodeExample>)
    ensures examples == Examples(pages)
  {
    examples := [];
    for p := 0 to |pages|
      invariant examples == ExamplesOf(AllFinds(pages[..p]))
    {
      assert pages[..p + 1][..p] == pages[..p];
      examples := ScanPageBlocks(pages[p], AllFinds(pages[..p]), examples);
    }
    assert pages[..|pages|] == pages;
  }

  /** The block loop of `extract_examples` for one page; `examples` holds
      the examples of the `prior` blocks of the earlier pages */
  method ScanPageBlocks(page: Page, ghost prior: seq<Located>, examples0: seq<CodeExample>)
    returns (examples: seq<CodeExample>)
    requires examples0 == ExamplesOf(prior)
    ensures examples == ExamplesOf(prior + Tag(page.url, PageFinds(page)))
  {
    var blocks := FencedBlocks(page.content);
    ghost var finds := PageFinds(page);
    examples := examples0;
    for i := 0 to |blocks|
      invariant examples == ExamplesOf(prior + Tag(page.url, finds[..i]))
    {
      var e := MakeExample(page, blocks[i], |examples|);
      LocateAllAt(page.content, blocks, i);
      ghost var ls := prior + Tag(page.url, finds[..i]);
      TagSnoc(prior, page.url, finds, i);
      ExamplesOfSnoc(ls, Located(page.url, finds[i]));
      examples := examples + [e];
    }
    assert finds[..|blocks|] == finds;
  }

  /** The body of the block loop of `extract_examples` */
  method MakeExample(page: Page, b: Block, n: nat) returns (e: CodeExample)
    ensures e == ExampleFrom(page.url, Locate(page.content, b), n)
  {
    var language := if b.language == "" then "unknown" else b.language;
    var codePos := Find(page.content, Fence + language + "\n" + b.code);
    var contextStart := if codePos - 200 > 0 then codePos - 200 else 0;
    var context := Strip(Slice(page.content, contextStart, codePos));
    assert context == ContextOf(page.content, language, b.code);
    var heading := ExampleHeading(context);
    assert Locate(page.content, b) == Found(b, language, context, heading);
    var title := if heading.Some? then heading.value else "Example " + NatToString(n + 1);
    e := CodeExample(title, language, Strip(b.code), page.url, LastN(context, 100), "basic");
  }

  /** The heading is absent exactly when no line starts with '#'; otherwise
      it is taken from the first line that does. */
  lemma {:induction false} HeadingRule(lines: seq<string>)
    decreases |lines|
    ensures Heading(lines).None? <==> forall i :: 0 <= i < |lines| ==> !StartsWith(lines[i], "#")
    ensures forall i ::
      (0 <= i < |lines| && StartsWith(lines[i], "#") && forall j :: 0 <= j < i ==> !StartsWith(lines[j], "#"))
      ==> Heading(lines) == Some(WorkflowExtraction.HeaderName(lines[i]))
  {
    if |lines| > 0 {
      HeadingRule(lines[1..]);
      assert forall i :: 1 <= i < |lines| ==> lines[1..][i - 1] == lines[i];
    }
  }

  // ---------------------------------------------------------------------
  // Properties
  // ---------------------------------------------------------------------

  /** The total number of blocks on the pages */
  function BlockCount(pages: seq<Page>): nat
    decreases |pages|
  {
    if |pages| == 0 then 0 else BlockCount(pages[..|pages| - 1]) + |FencedBlocks(pages[|pages| - 1].content)|
  }

  /** One example per block, in page order and then block order; example `k`
      is made from the `k`-th located block and numbered `k` over the whole
      corpus. */
  lemma ExamplesInOrder(pages: seq<Page>)
    ensures |Examples(pages)| == |AllFinds(pages)| == BlockCount(pages)
    ensures forall k :: 0 <= k < |Examples(pages)| ==>
      Examples(pages)[k] == ExampleFrom(AllFinds(pages)[k].url, AllFinds(pages)[k].found, k)
  {
    FindsCount(pages);
    forall k | 0 <= k < |Examples(pages)|
      ensures Examples(pages)[k] == ExampleFrom(AllFinds(pages)[k].url, AllFinds(pages)[k].found, k)
    {
    }
  }

  lemma {:induction false} FindsCount(pages: seq<Page>)
    decreases |pages|
    ensures |AllFinds(pages)| == BlockCount(pages)
  {
    if |pages| > 0 {
      FindsCount(pages[..|pages| - 1]);
    }
  }

  /** What every located block carries into its example: a non-empty
      language made of word characters or "unknown", trimmed code, a
      context of at most 100 characters, the page url and type "basic". */
  lemma ExampleFromShape(page: Page, f: Found, n: nat)
    requires f in PageFinds(page)
    ensures |ExampleFrom(page.url, f, n).language| > 0
    ensures ExampleFrom(page.url, f, n).language == "unknown" || All(ExampleFrom(page.url, f, n).language, IsWordChar)
    ensures ExampleFrom(page.url, f, n).code == Strip(f.block.code)
    ensures |ExampleFrom(page.url, f, n).context| <= 100
    ensures ExampleFrom(page.url, f, n).sourceUrl == page.url && ExampleFrom(page.url, f, n).exampleType == "basic"
  {
    FoundLanguage(page, f);
  }

  /** The language of a block found on a page: its word-character tag, or
      "unknown" */
  lemma FoundLanguage(page: Page, f: Found)
    requires f in PageFinds(page)
    ensures |f.language| > 0
    ensures f.language == "unknown" || All(f.language, IsWordChar)
  {
    var blocks := FencedBlocks(page.content);
    var k :| 0 <= k < |PageFinds(page)| && PageFinds(page)[k] == f;
    LocateAllAt(page.content, blocks, k);
    BlockIsMatch(page.content, 0, k);
    MatchLanguage(page.content, blocks[k].start);
  }

  /** An untagged block is looked up as "```unknown\n<code>"; on a page that
      never says "```unknown" the lookup fails and the context is the whole
      page but its last character, stripped. */
  lemma UntaggedContext(page: Page, b: Block)
    requires b.language == "" && !Contains(page.content, Fence + "unknown")
    ensures Locate(page.content, b).context == Strip(Slice(page.content, 0, -1))
  {
    var pat := Fence + "unknown" + "\n" + b.code;
    if Contains(page.content, pat) {
      var i :| 0 <= i <= |page.content| && OccursAt(page.content, pat, i);
      assert page.content[i..i + 10] == pat[..10];
      assert OccursAt(page.content, Fence + "unknown", i);
      assert false;
    }
  }
}
