/** `DocAnalyzer.extract_workflows`: a per-page state machine over lines.
    A header line opens a workflow; step lines are collected while one is
    open. A workflow replaced by the next header is emitted with the empty
    step list it was created with; only the workflow still open at the end
    of the page receives its collected steps. */
module WorkflowExtraction {
  import opened Text
  import opened Wrappers
  import opened DocExtractor
  import opened AnalyzerRecords

  const HeaderKeywords: seq<string> := ["workflow", "quick start", "getting started", "how to", "tutorial"]

  /** The line mentions a header keyword (case-insensitively) */
  predicate IsHeader(line: string)
  {
    exists k :: 0 <= k < |HeaderKeywords| && Contains(Lower(line), HeaderKeywords[k])
  }

  function LeadingDigits(s: string): (n: nat)
    decreases |s|
    ensures n <= |s|
    ensures forall i :: 0 <= i < n ==> IsDigit(s[i])
    ensures n < |s| ==> !IsDigit(s[n])
  {
    if |s| > 0 && IsDigit(s[0]) then 1 + LeadingDigits(s[1..]) else 0
  }

  /** `re.match(r'^\d+\.', t)` */
  predicate IsNumbered(t: string)
  {
    var n := LeadingDigits(t);
    0 < n < |t| && t[n] == '.'
  }

  /** `re.match(r'^-\s', t)` */
  predicate IsBullet(t: string)
  {
    |t| >= 2 && t[0] == '-' && IsSpace(t[1])
  }

  /** A step line: numbered or bulleted once trimmed */
  predicate IsStep(line: string)
  {
    IsNumbered(Strip(line)) || IsBullet(Strip(line))
  }

  /** `line.strip('#').strip()` */
  function HeaderName(line: string): string
  {
    Strip(StripSet(line, {'#'}))
  }

  /** A line with the tests `extract_workflows` applies to it */
  datatype Line = Line(text: string, header: bool, step: bool, trimmed: string, name: string)

  function ClassifyLine(line: string): Line
  {
    Line(line, IsHeader(line), IsStep(line), Strip(line), HeaderName(line))
  }

  function ClassifyLines(lines: seq<string>): (r: seq<Line>)
    ensures |r| == |lines|
    ensures forall i :: 0 <= i < |lines| ==> r[i] == ClassifyLine(lines[i])
  {
    seq(|lines|, i requires 0 <= i < |lines| => ClassifyLine(lines[i]))
  }

  function NewWorkflow(l: Line, url: string): Workflow
  {
    Workflow(l.name, "", [], "common", [], [url])
  }

  /** The loop state: workflows emitted so far, the open workflow, its steps */
  datatype Scan = Scan(emitted: seq<Workflow>, current: Option<Workflow>, steps: seq<string>)

  function ScanLine(st: Scan, l: Line, url: string): Scan
  {
    if l.header then
      Scan(st.emitted + (if st.current.Some? && |st.steps| > 0 then [st.current.value] else []),
           Some(NewWorkflow(l, url)), [])
    else if l.step && st.current.Some? then st.(steps := st.steps + [l.trimmed])
    else st
  }

  function ScanLines(lines: seq<Line>, url: string): Scan
    decreases |lines|
  {
    if |lines| == 0 then Scan([], None, [])
    else ScanLine(ScanLines(lines[..|lines| - 1], url), lines[|lines| - 1], url)
  }

  /** The end of a page: the open workflow is emitted with its steps, if it has any */
  function Finish(st: Scan): seq<Workflow>
  {
    st.emitted + (if st.current.Some? && |st.steps| > 0 then [st.current.value.(steps := st.steps)] else [])
  }

  function PageWorkflows(page: Page): seq<Workflow>
  {
    Finish(ScanLines(ClassifyLines(Split(page.content, '\n')), page.url))
  }

  function Workflows(pages: seq<Page>): seq<Workflow>
    decreases |pages|
  {
    if |pages| == 0 then [] else Workflows(pages[..|pages| - 1]) + PageWorkflows(pages[|pages| - 1])
  }

  method ExtractWorkflows(pages: seq<Page>) returns (workflows: seq<Workflow>)
    ensures workflows == Workflows(pages)
  {
    workflows := [];
    for p := 0 to |pages|
      invariant workflows == Workflows(pages[..p])
    {
      assert pages[..p + 1][..p] == pages[..p];
      var found := ScanPage(pages[p]);
      workflows := workflows + found;
    }
    assert pages[..|pages|] == pages;
  }

  /** The body of the page loop of `extract_workflows`: the page's lines,
      then the line scan */
  method ScanPage(page: Page) returns (workflows: seq<Workflow>)
    ensures workflows == PageWorkflows(page)
  {
    var lines := Split(page.content, '\n');
    workflows := ScanPageLines(lines, page.url);
  }

  /** The line scan of one page */
  method ScanPageLines(lines: seq<string>, url: string) returns (workflows: seq<Workflow>)
    ensures workflows == Finish(ScanLines(ClassifyLines(lines), url))
  {
    workflows := ScanClassified(ClassifyLines(lines), url);
  }

  /** The loop over the page's lines, each already put to the header and
      step tests */
  method ScanClassified(cls: seq<Line>, url: string) returns (workflows: seq<Workflow>)
    ensures workflows == Finish(ScanLines(cls, url))
  {
    var current: Option<Workflow> := None;
    var currentSteps: seq<string> := [];
    workflows := [];
    for i := 0 to |cls|
      invariant Scan(workflows, current, currentSteps) == ScanLines(cls[..i], url)
    {
      assert ScanLines(cls[..i + 1], url) == ScanLine(ScanLines(cls[..i], url), cls[i], url) by {
        PrefixSnoc(cls, i);
        ScanLinesSnoc(cls[..i], cls[i], url);
      }
      workflows, current, currentSteps := ScanStep(workflows, current, currentSteps, cls[i], url);
    }
    assert cls[..|cls|] == cls;
    if current.Some? && |currentSteps| > 0 {
      workflows := workflows + [current.value.(steps := currentSteps)];
    }
  }

  lemma PrefixSnoc(cls: seq<Line>, i: nat)
    requires i < |cls|
    ensures cls[..i + 1] == cls[..i] + [cls[i]]
  {
  }

  lemma ScanLinesSnoc(cls: seq<Line>, l: Line, url: string)
    ensures ScanLines(cls + [l], url) == ScanLine(ScanLines(cls, url), l, url)
  {
    assert (cls + [l])[..|cls|] == cls;
  }

  /** The body of the line loop: a header emits the open workflow if it has
      steps and opens a new one; a step line is collected while one is open */
  method ScanStep(workflows0: seq<Workflow>, current0: Option<Workflow>, steps0: seq<string>,
    l: Line, url: string)
    returns (workflows: seq<Workflow>, current: Option<Workflow>, steps: seq<string>)
    ensures Scan(workflows, current, steps) == ScanLine(Scan(workflows0, current0, steps0), l, url)
  {
    workflows, current, steps := workflows0, current0, steps0;
    if l.header {
      if current.Some? && |steps| > 0 {
        workflows := workflows + [current.value];
      }
      current := Some(Workflow(l.name, "", [], "common", [], [url]));
      steps := [];
    } else if l.step {
      if current.Some? {
        steps := steps + [l.trimmed];
      }
    }
  }

  // ---------------------------------------------------------------------
  // Properties
  // ---------------------------------------------------------------------

  /** The workflow was opened by one of the header lines */
  predicate OpenedBy(w: Workflow, lines: seq<Line>, url: string)
  {
    w.description == "" && w.frequency == "common" && w.examples == [] && w.sourceUrls == [url]
    && exists j :: 0 <= j < |lines| && lines[j].header && w.name == lines[j].name
  }

  /** The trimmed texts of the step lines, in order */
  function StepTexts(lines: seq<Line>): seq<string>
    decreases |lines|
  {
    if |lines| == 0 then []
    else StepTexts(lines[..|lines| - 1]) + (if lines[|lines| - 1].step then [lines[|lines| - 1].trimmed] else [])
  }

  /** Each step is a trimmed step line of the page */
  predicate StepsFrom(steps: seq<string>, lines: seq<Line>)
  {
    forall i :: 0 <= i < |steps| ==> steps[i] in StepTexts(lines)
  }

  function HeaderCount(lines: seq<Line>): nat
    decreases |lines|
  {
    if |lines| == 0 then 0
    else HeaderCount(lines[..|lines| - 1]) + (if lines[|lines| - 1].header then 1 else 0)
  }

  /** Workflows are created with no steps, and steps are only kept while one is open */
  predicate StepsPending(st: Scan)
  {
    && (forall k :: 0 <= k < |st.emitted| ==> st.emitted[k].steps == [])
    && (st.current.Some? ==> st.current.value.steps == [])
    && (|st.steps| > 0 ==> st.current.Some?)
  }

  predicate AllOpened(st: Scan, lines: seq<Line>, url: string)
  {
    && (forall k :: 0 <= k < |st.emitted| ==> OpenedBy(st.emitted[k], lines, url))
    && (st.current.Some? ==> OpenedBy(st.current.value, lines, url))
  }

  predicate WithinHeaders(st: Scan, lines: seq<Line>)
  {
    |st.emitted| + (if st.current.Some? then 1 else 0) <= HeaderCount(lines)
  }

  lemma {:induction false} ScanStepsPending(lines: seq<Line>, url: string)
    decreases |lines|
    ensures StepsPending(ScanLines(lines, url))
  {
    if |lines| > 0 {
      ScanStepsPending(lines[..|lines| - 1], url);
    }
  }

  lemma OpenedByExtend(w: Workflow, lines: seq<Line>, l: Line, url: string)
    requires OpenedBy(w, lines, url)
    ensures OpenedBy(w, lines + [l], url)
  {
    var j :| 0 <= j < |lines| && lines[j].header && w.name == lines[j].name;
    assert (lines + [l])[j] == lines[j];
  }

  lemma AllOpenedStep(st: Scan, lines: seq<Line>, l: Line, url: string)
    requires AllOpened(st, lines, url)
    ensures AllOpened(ScanLine(st, l, url), lines + [l], url)
  {
    var all := lines + [l];
    forall k | 0 <= k < |st.emitted|
      ensures OpenedBy(st.emitted[k], all, url)
    {
      OpenedByExtend(st.emitted[k], lines, l, url);
    }
    if st.current.Some? {
      OpenedByExtend(st.current.value, lines, l, url);
    }
    if l.header {
      assert all[|lines|] == l;
      assert OpenedBy(NewWorkflow(l, url), all, url);
    }
  }

  lemma {:induction false} ScanAllOpened(lines: seq<Line>, url: string)
    decreases |lines|
    ensures AllOpened(ScanLines(lines, url), lines, url)
  {
    if |lines| > 0 {
      var init := lines[..|lines| - 1];
      assert init + [lines[|lines| - 1]] == lines;
      ScanAllOpened(init, url);
      AllOpenedStep(ScanLines(init, url), init, lines[|lines| - 1], url);
    }
  }

  lemma StepsFromStep(st: Scan, lines: seq<Line>, l: Line, url: string)
    requires StepsFrom(st.steps, lines)
    ensures StepsFrom(ScanLine(st, l, url).steps, lines + [l])
  {
    assert (lines + [l])[..|lines|] == lines;
  }

  lemma {:induction false} ScanStepsFrom(lines: seq<Line>, url: string)
    decreases |lines|
    ensures StepsFrom(ScanLines(lines, url).steps, lines)
  {
    if |lines| > 0 {
      var init := lines[..|lines| - 1];
      assert init + [lines[|lines| - 1]] == lines;
      ScanStepsFrom(init, url);
      StepsFromStep(ScanLines(init, url), init, lines[|lines| - 1], url);
    }
  }

  lemma {:induction false} ScanWithinHeaders(lines: seq<Line>, url: string)
    decreases |lines|
    ensures WithinHeaders(ScanLines(lines, url), lines)
  {
    if |lines| > 0 {
      ScanWithinHeaders(lines[..|lines| - 1], url);
    }
  }

  /** The workflows of a scanned page, over its classified lines */
  lemma FinishShape(cls: seq<Line>, url: string)
    ensures var ws := Finish(ScanLines(cls, url));
      && |ws| <= HeaderCount(cls)
      && (forall k :: 0 <= k < |ws| - 1 ==> ws[k].steps == [])
      && (forall k :: 0 <= k < |ws| ==> OpenedBy(ws[k], cls, url) && StepsFrom(ws[k].steps, cls))
  {
    ScanStepsPending(cls, url);
    ScanAllOpened(cls, url);
    ScanStepsFrom(cls, url);
    ScanWithinHeaders(cls, url);
    var st := ScanLines(cls, url);
    var ws := Finish(st);
    forall k | 0 <= k < |ws|
      ensures OpenedBy(ws[k], cls, url) && StepsFrom(ws[k].steps, cls)
    {
      if k < |st.emitted| {
        assert ws[k] == st.emitted[k];
      } else {
        assert ws[k] == st.current.value.(steps := st.steps);
      }
    }
  }

  // The emission rule: which workflows come out, and with which steps

  /** No header line strictly between positions `j` and `j2` */
  predicate NoHeaderBetween(lines: seq<Line>, j: int, j2: int)
  {
    forall m :: j < m < j2 && 0 <= m < |lines| ==> !lines[m].header
  }

  /** Some header line named `name` is followed by a step line before the
      next header line */
  predicate Earned(name: string, lines: seq<Line>)
  {
    exists j, j2 :: 0 <= j < j2 < |lines| && lines[j].header && lines[j].name == name
      && lines[j2].step && !lines[j2].header && NoHeaderBetween(lines, j, j2)
  }

  /** The position of the last header line, if there is one */
  function LastHeader(lines: seq<Line>): (r: Option<nat>)
    decreases |lines|
    ensures r.None? ==> NoHeaderBetween(lines, -1, |lines|)
    ensures r.Some? ==>
      r.value < |lines| && lines[r.value].header && NoHeaderBetween(lines, r.value, |lines|)
  {
    if |lines| == 0 then None
    else if lines[|lines| - 1].header then Some(|lines| - 1)
    else LastHeader(lines[..|lines| - 1])
  }

  /** The open workflow is the one the last header line started, and its
      collected steps are the step texts after that line */
  predicate OpenState(st: Scan, lines: seq<Line>, url: string)
  {
    match LastHeader(lines)
    case None => st.current.None? && st.steps == []
    case Some(h) => st.current == Some(NewWorkflow(lines[h], url)) && st.steps == StepTexts(lines[h + 1..])
  }

  lemma StepTextsSnoc(lines: seq<Line>, l: Line)
    ensures StepTexts(lines + [l]) == StepTexts(lines) + (if l.step then [l.trimmed] else [])
  {
    assert (lines + [l])[..|lines|] == lines;
  }

  /** Collected step texts come from step lines. */
  lemma {:induction false} StepTextsHaveStep(lines: seq<Line>)
    decreases |lines|
    ensures StepTexts(lines) != [] <==> exists i :: 0 <= i < |lines| && lines[i].step
  {
    if |lines| > 0 {
      var n := |lines| - 1;
      StepTextsHaveStep(lines[..n]);
      if !lines[n].step {
        if StepTexts(lines) != [] {
          var i :| 0 <= i < n && lines[..n][i].step;
          assert lines[i] == lines[..n][i];
        }
        if exists i :: 0 <= i < |lines| && lines[i].step {
          var i :| 0 <= i < |lines| && lines[i].step;
          assert lines[..n][i] == lines[i];
        }
      }
    }
  }

  lemma OpenStateStep(st: Scan, lines: seq<Line>, l: Line, url: string)
    requires OpenState(st, lines, url)
    ensures OpenState(ScanLine(st, l, url), lines + [l], url)
  {
    var all := lines + [l];
    assert all[..|lines|] == lines;
    if !l.header {
      assert LastHeader(all) == LastHeader(lines);
      if LastHeader(lines).Some? {
        var h := LastHeader(lines).value;
        assert all[h] == lines[h];
        assert all[h + 1..] == lines[h + 1..] + [l];
        StepTextsSnoc(lines[h + 1..], l);
      }
    } else {
      assert all[|lines| + 1..] == [];
    }
  }

  lemma {:induction false} ScanOpenState(lines: seq<Line>, url: string)
    decreases |lines|
    ensures OpenState(ScanLines(lines, url), lines, url)
  {
    if |lines| > 0 {
      var init := lines[..|lines| - 1];
      assert init + [lines[|lines| - 1]] == lines;
      ScanOpenState(init, url);
      OpenStateStep(ScanLines(init, url), init, lines[|lines| - 1], url);
    }
  }

  lemma EarnedExtend(name: string, lines: seq<Line>, l: Line)
    requires Earned(name, lines)
    ensures Earned(name, lines + [l])
  {
    var all := lines + [l];
    var j, j2 :| 0 <= j < j2 < |lines| && lines[j].header && lines[j].name == name
      && lines[j2].step && !lines[j2].header && NoHeaderBetween(lines, j, j2);
    assert all[j] == lines[j] && all[j2] == lines[j2];
    assert NoHeaderBetween(all, j, j2) by {
      forall m | j < m < j2 && 0 <= m < |all| ensures !all[m].header {
        assert all[m] == lines[m];
      }
    }
  }

  /** The open workflow has earned its place once it holds a step. */
  lemma OpenEarned(st: Scan, lines: seq<Line>, url: string)
    requires OpenState(st, lines, url) && st.current.Some? && |st.steps| > 0
    ensures Earned(st.current.value.name, lines)
  {
    var h := LastHeader(lines).value;
    var rest := lines[h + 1..];
    StepTextsHaveStep(rest);
    var i :| 0 <= i < |rest| && rest[i].step;
    assert lines[h + 1 + i] == rest[i];
    assert NoHeaderBetween(lines, h, h + 1 + i);
  }

  predicate AllEarned(st: Scan, lines: seq<Line>)
  {
    forall k :: 0 <= k < |st.emitted| ==> Earned(st.emitted[k].name, lines)
  }

  lemma EarnedStep(st: Scan, lines: seq<Line>, l: Line, url: string)
    requires OpenState(st, lines, url) && AllEarned(st, lines)
    ensures AllEarned(ScanLine(st, l, url), lines + [l])
  {
    var next := ScanLine(st, l, url);
    forall k | 0 <= k < |next.emitted| ensures Earned(next.emitted[k].name, lines + [l]) {
      if k < |st.emitted| {
        assert next.emitted[k] == st.emitted[k];
        EarnedExtend(st.emitted[k].name, lines, l);
      } else {
        OpenEarned(st, lines, url);
        EarnedExtend(st.current.value.name, lines, l);
      }
    }
  }

  lemma {:induction false} ScanEarned(lines: seq<Line>, url: string)
    decreases |lines|
    ensures AllEarned(ScanLines(lines, url), lines)
  {
    if |lines| > 0 {
      var init := lines[..|lines| - 1];
      assert init + [lines[|lines| - 1]] == lines;
      ScanEarned(init, url);
      ScanOpenState(init, url);
      EarnedStep(ScanLines(init, url), init, lines[|lines| - 1], url);
    }
  }

  /** The emission rule over classified lines: every workflow was earned by
      a step line after its header. */
  lemma FinishEarned(cls: seq<Line>, url: string)
    ensures var ws := Finish(ScanLines(cls, url));
      forall k :: 0 <= k < |ws| ==> Earned(ws[k].name, cls)
  {
    var st := ScanLines(cls, url);
    var ws := Finish(st);
    ScanOpenState(cls, url);
    assert AllEarned(st, cls) by { ScanEarned(cls, url); }
    forall k | 0 <= k < |ws| ensures Earned(ws[k].name, cls) {
      if k < |st.emitted| {
        assert ws[k] == st.emitted[k];
      } else {
        OpenEarned(st, cls, url);
      }
    }
  }

  /** With `h` the last header line, the last workflow carries steps exactly
      when step lines follow `h`, and then it is `h`'s workflow with exactly
      those step texts, in order. */
  lemma FinishLast(cls: seq<Line>, url: string, h: nat)
    requires LastHeader(cls) == Some(h)
    ensures var ws := Finish(ScanLines(cls, url)); var steps := StepTexts(cls[h + 1..]);
      && ((|ws| > 0 && ws[|ws| - 1].steps != []) <==> steps != [])
      && (steps != [] ==> ws[|ws| - 1] == NewWorkflow(cls[h], url).(steps := steps))
  {
    var st := ScanLines(cls, url);
    var ws := Finish(st);
    ScanOpenState(cls, url);
    ScanStepsPending(cls, url);
    if |ws| > 0 && ws[|ws| - 1].steps != [] {
      assert st.current.Some? && |st.steps| > 0;
    }
  }

  // The emission rule in both directions: one workflow per earned header

  /** Header line `j` is followed by a step line before the next header line */
  predicate EarnedAt(lines: seq<Line>, j: int)
  {
    && 0 <= j < |lines| && lines[j].header
    && exists j2 :: j < j2 < |lines| && lines[j2].step && !lines[j2].header && NoHeaderBetween(lines, j, j2)
  }

  /** The earned header lines below `n`, in increasing order */
  function EarnedBelow(lines: seq<Line>, n: nat): seq<nat>
    requires n <= |lines|
    decreases n
  {
    if n == 0 then []
    else EarnedBelow(lines, n - 1) + (if EarnedAt(lines, n - 1) then [n - 1] else [])
  }

  /** `EarnedBelow` lists exactly the earned header lines below `n`, each once
      and in increasing order */
  lemma {:induction false} EarnedBelowSpec(lines: seq<Line>, n: nat)
    requires n <= |lines|
    decreases n
    ensures var r := EarnedBelow(lines, n);
      && (forall k :: 0 <= k < |r| ==> r[k] < n && EarnedAt(lines, r[k]))
      && (forall k, k2 :: 0 <= k < k2 < |r| ==> r[k] < r[k2])
      && (forall j :: 0 <= j < n ==> (EarnedAt(lines, j) <==> j in r))
  {
    if n > 0 {
      EarnedBelowSpec(lines, n - 1);
    }
  }

  lemma {:induction false} EarnedBelowAgree(a: seq<Line>, b: seq<Line>, n: nat)
    requires n <= |a| && n <= |b|
    requires forall j :: 0 <= j < n ==> (EarnedAt(a, j) <==> EarnedAt(b, j))
    decreases n
    ensures EarnedBelow(a, n) == EarnedBelow(b, n)
  {
    if n > 0 {
      EarnedBelowAgree(a, b, n - 1);
    }
  }

  lemma {:induction false} EarnedBelowSkip(a: seq<Line>, m: nat, n: nat)
    requires m <= n <= |a|
    requires forall j :: m <= j < n ==> !a[j].header
    decreases n
    ensures EarnedBelow(a, n) == EarnedBelow(a, m)
  {
    if m < n {
      EarnedBelowSkip(a, m, n - 1);
    }
  }

  /** A line that is not a step line earns no header. */
  lemma EarnedAtKept(cls: seq<Line>, l: Line, j: int)
    requires 0 <= j < |cls| && !(l.step && !l.header)
    ensures EarnedAt(cls + [l], j) <==> EarnedAt(cls, j)
  {
    var all := cls + [l];
    if EarnedAt(all, j) {
      var j2 :| j < j2 < |all| && all[j2].step && !all[j2].header && NoHeaderBetween(all, j, j2);
      assert j2 < |cls| && cls[j2] == all[j2] && all[j] == cls[j];
      assert NoHeaderBetween(cls, j, j2) by {
        forall m | j < m < j2 && 0 <= m < |cls| ensures !cls[m].header {
          assert all[m] == cls[m];
        }
      }
    }
    if EarnedAt(cls, j) {
      EarnedAtStays(cls, l, j);
    }
  }

  /** A step line earns the last header line, */
  lemma EarnedAtStepLast(cls: seq<Line>, l: Line, h: nat)
    requires l.step && !l.header && LastHeader(cls) == Some(h)
    ensures EarnedAt(cls + [l], h)
  {
    var all := cls + [l];
    assert all[h] == cls[h] && all[|cls|] == l;
    assert NoHeaderBetween(all, h, |cls|) by {
      forall m | h < m < |cls| ensures !all[m].header {
        assert all[m] == cls[m];
      }
    }
  }

  /** and no other: an earlier header line earned with the step line was
      earned before it, */
  lemma EarnedAtStepOther(cls: seq<Line>, l: Line, h: nat, j: int)
    requires l.step && !l.header && LastHeader(cls) == Some(h) && 0 <= j < |cls| && j != h
    requires EarnedAt(cls + [l], j)
    ensures EarnedAt(cls, j)
  {
    var all := cls + [l];
    var j2 :| j < j2 < |all| && all[j2].step && !all[j2].header && NoHeaderBetween(all, j, j2);
    assert all[j] == cls[j] && all[h] == cls[h];
    assert j < h;
    assert j2 <= h;
    assert cls[j2] == all[j2];
    assert NoHeaderBetween(cls, j, j2) by {
      forall m | j < m < j2 && 0 <= m < |cls| ensures !cls[m].header {
        assert all[m] == cls[m];
      }
    }
  }

  /** and one earned before stays earned. */
  lemma EarnedAtStays(cls: seq<Line>, l: Line, j: int)
    requires EarnedAt(cls, j)
    ensures EarnedAt(cls + [l], j)
  {
    var all := cls + [l];
    var j2 :| j < j2 < |cls| && cls[j2].step && !cls[j2].header && NoHeaderBetween(cls, j, j2);
    assert all[j2] == cls[j2] && all[j] == cls[j];
    assert NoHeaderBetween(all, j, j2) by {
      forall m | j < m < j2 && 0 <= m < |all| ensures !all[m].header {
        assert all[m] == cls[m];
      }
    }
  }

  /** The earned headers after one more line that earns nothing new */
  lemma EarnedBelowKept(cls: seq<Line>, l: Line)
    requires !(l.step && !l.header) || LastHeader(cls).None?
    ensures EarnedBelow(cls + [l], |cls| + 1) == EarnedBelow(cls, |cls|)
  {
    var all := cls + [l];
    assert !EarnedAt(all, |cls|);
    forall j | 0 <= j < |cls| ensures EarnedAt(all, j) <==> EarnedAt(cls, j) {
      if !(l.step && !l.header) {
        EarnedAtKept(cls, l, j);
      } else {
        assert NoHeaderBetween(cls, -1, |cls|);
        assert all[j] == cls[j];
      }
    }
    EarnedBelowAgree(all, cls, |cls|);
  }

  /** The earned headers split at the last header line */
  lemma EarnedBelowLast(cls: seq<Line>, h: nat)
    requires LastHeader(cls) == Some(h)
    ensures EarnedBelow(cls, |cls|) == EarnedBelow(cls, h) + (if EarnedAt(cls, h) then [h] else [])
  {
    EarnedBelowSkip(cls, h + 1, |cls|);
  }

  /** A step line leaves the earned headers before the last header line alone. */
  lemma EarnedBelowBefore(cls: seq<Line>, l: Line, h: nat)
    requires l.step && !l.header && LastHeader(cls) == Some(h)
    ensures EarnedBelow(cls + [l], h) == EarnedBelow(cls, h)
  {
    forall j | 0 <= j < h ensures EarnedAt(cls + [l], j) <==> EarnedAt(cls, j) {
      if EarnedAt(cls + [l], j) {
        EarnedAtStepOther(cls, l, h, j);
      }
      if EarnedAt(cls, j) {
        EarnedAtStays(cls, l, j);
      }
    }
    EarnedBelowAgree(cls + [l], cls, h);
  }

  /** The earned headers after one more step line: the last header line is
      earned now, whether or not it was before */
  lemma EarnedBelowStep(cls: seq<Line>, l: Line, h: nat)
    requires l.step && !l.header && LastHeader(cls) == Some(h)
    ensures EarnedBelow(cls + [l], |cls| + 1) == EarnedBelow(cls, h) + [h]
  {
    var all := cls + [l];
    assert !EarnedAt(all, |cls|);
    assert EarnedBelow(all, |cls|) == EarnedBelow(all, h + 1) by {
      forall j | h + 1 <= j < |cls| ensures !all[j].header {
        assert all[j] == cls[j];
      }
      EarnedBelowSkip(all, h + 1, |cls|);
    }
    assert EarnedAt(all, h) by {
      EarnedAtStepLast(cls, l, h);
    }
    EarnedBelowBefore(cls, l, h);
  }

  /** The workflows of a scan are, apart from their steps, the workflows of
      the earned header lines, one each and in order */
  predicate EmitsEarned(ws: seq<Workflow>, lines: seq<Line>, url: string)
  {
    var e := EarnedBelow(lines, |lines|);
    |ws| == |e| && forall k :: 0 <= k < |ws| ==> e[k] < |lines| && ws[k].(steps := []) == NewWorkflow(lines[e[k]], url)
  }

  /** With the open workflow that of the last header line, the last header
      is earned exactly when steps were collected. */
  lemma OpenEarnedIff(st: Scan, cls: seq<Line>, url: string, h: nat)
    requires OpenState(st, cls, url) && LastHeader(cls) == Some(h)
    ensures EarnedAt(cls, h) <==> st.steps != []
  {
    var rest := cls[h + 1..];
    StepTextsHaveStep(rest);
    if EarnedAt(cls, h) {
      var j2 :| h < j2 < |cls| && cls[j2].step && !cls[j2].header && NoHeaderBetween(cls, h, j2);
      assert rest[j2 - h - 1] == cls[j2];
    }
    if st.steps != [] {
      var i :| 0 <= i < |rest| && rest[i].step;
      assert cls[h + 1 + i] == rest[i];
      assert NoHeaderBetween(cls, h, h + 1 + i);
    }
  }

  /** Two workflow lists that agree apart from their steps */
  predicate SameUnstepped(ws: seq<Workflow>, ws2: seq<Workflow>)
  {
    |ws| == |ws2| && forall k :: 0 <= k < |ws| ==> ws[k].(steps := []) == ws2[k].(steps := [])
  }

  /** A line that earns nothing new keeps the workflows, apart from their steps. */
  lemma EmitsEarnedKeep(ws: seq<Workflow>, ws2: seq<Workflow>, cls: seq<Line>, l: Line, url: string)
    requires EmitsEarned(ws, cls, url) && SameUnstepped(ws, ws2)
    requires EarnedBelow(cls + [l], |cls| + 1) == EarnedBelow(cls, |cls|)
    ensures EmitsEarned(ws2, cls + [l], url)
  {
    var all := cls + [l];
    var e := EarnedBelow(cls, |cls|);
    assert EarnedBelow(all, |all|) == e;
    forall k | 0 <= k < |ws2| ensures e[k] < |all| && ws2[k].(steps := []) == NewWorkflow(all[e[k]], url) {
      assert ws[k].(steps := []) == ws2[k].(steps := []);
      assert all[e[k]] == cls[e[k]];
    }
  }

  /** A line that earns the last header line adds that header's workflow. */
  lemma EmitsEarnedGrow(ws: seq<Workflow>, w: Workflow, cls: seq<Line>, l: Line, url: string, h: nat)
    requires h < |cls| && EmitsEarned(ws, cls, url)
    requires EarnedBelow(cls, |cls|) == EarnedBelow(cls, h)
    requires EarnedBelow(cls + [l], |cls| + 1) == EarnedBelow(cls, h) + [h]
    requires w.(steps := []) == NewWorkflow(cls[h], url)
    ensures EmitsEarned(ws + [w], cls + [l], url)
  {
    var e := EarnedBelow(cls, |cls|);
    forall k | 0 <= k < |ws| + 1 ensures (ws + [w])[k].(steps := []) == NewWorkflow((cls + [l])[(e + [h])[k]], url) {
      assert (cls + [l])[(e + [h])[k]] == cls[(e + [h])[k]];
    }
  }

  /** A header line only closes the open workflow: its unstepped form stays. */
  lemma FinishHeaderSame(st: Scan, l: Line, url: string)
    requires StepsPending(st) && l.header
    ensures SameUnstepped(Finish(st), Finish(ScanLine(st, l, url)))
  {
  }

  /** Another step for a workflow that already has one changes only its steps. */
  lemma FinishStepSame(st: Scan, l: Line, url: string)
    requires l.step && !l.header && st.current.Some? && st.steps != []
    ensures SameUnstepped(Finish(st), Finish(ScanLine(st, l, url)))
  {
    var ws := Finish(st);
    var ws2 := Finish(ScanLine(st, l, url));
    forall k | 0 <= k < |ws| ensures ws[k].(steps := []) == ws2[k].(steps := []) {
      if k < |st.emitted| {
        assert ws[k] == ws2[k];
      }
    }
  }

  lemma EmitsEarnedStep(st: Scan, cls: seq<Line>, l: Line, url: string)
    requires OpenState(st, cls, url) && StepsPending(st) && EmitsEarned(Finish(st), cls, url)
    ensures EmitsEarned(Finish(ScanLine(st, l, url)), cls + [l], url)
  {
    var next := ScanLine(st, l, url);
    if l.step && !l.header && st.current.Some? {
      var h := LastHeader(cls).value;
      EarnedBelowStep(cls, l, h);
      EarnedBelowLast(cls, h);
      OpenEarnedIff(st, cls, url, h);
      if st.steps == [] {
        var w := st.current.value.(steps := next.steps);
        assert Finish(next) == Finish(st) + [w];
        EmitsEarnedGrow(Finish(st), w, cls, l, url, h);
      } else {
        FinishStepSame(st, l, url);
        EmitsEarnedKeep(Finish(st), Finish(next), cls, l, url);
      }
    } else {
      EarnedBelowKept(cls, l);
      if l.header {
        FinishHeaderSame(st, l, url);
      }
      EmitsEarnedKeep(Finish(st), Finish(next), cls, l, url);
    }
  }

  lemma {:induction false} ScanEmitsEarned(lines: seq<Line>, url: string)
    decreases |lines|
    ensures EmitsEarned(Finish(ScanLines(lines, url)), lines, url)
  {
    if |lines| > 0 {
      var init := lines[..|lines| - 1];
      assert init + [lines[|lines| - 1]] == lines;
      ScanEmitsEarned(init, url);
      ScanOpenState(init, url);
      ScanStepsPending(init, url);
      EmitsEarnedStep(ScanLines(init, url), init, lines[|lines| - 1], url);
    }
  }

  /** The shape of one page's workflows: each was opened by a header line
      and is named after it (`line.strip('#').strip()`); all but the last
      carry no steps; every step is the trimmed text of a numbered or
      bulleted line; there are no more workflows than header lines. */
  lemma PageWorkflowsShape(page: Page)
    ensures var lines := Split(page.content, '\n'); var ws := PageWorkflows(page);
      && |ws| <= HeaderCount(ClassifyLines(lines))
      && (forall k :: 0 <= k < |ws| - 1 ==> ws[k].steps == [])
      && (forall k :: 0 <= k < |ws| ==>
            ws[k].description == "" && ws[k].sourceUrls == [page.url]
            && exists j :: 0 <= j < |lines| && IsHeader(lines[j]) && ws[k].name == HeaderName(lines[j]))
      && (forall k, i :: 0 <= k < |ws| && 0 <= i < |ws[k].steps| ==>
            IsNumbered(ws[k].steps[i]) || IsBullet(ws[k].steps[i]))
  {
    var lines := Split(page.content, '\n');
    var cls := ClassifyLines(lines);
    FinishShape(cls, page.url);
    var ws := PageWorkflows(page);
    forall k, i | 0 <= k < |ws| && 0 <= i < |ws[k].steps|
      ensures IsNumbered(ws[k].steps[i]) || IsBullet(ws[k].steps[i])
    {
      StepText(ws[k].steps, cls, lines, i);
    }
    forall k | 0 <= k < |ws|
      ensures exists j :: 0 <= j < |lines| && IsHeader(lines[j]) && ws[k].name == HeaderName(lines[j])
    {
      HeaderText(ws[k], cls, lines, page.url);
    }
  }

  /** The stripped step lines, in order */
  function StepLines(lines: seq<string>): seq<string>
    decreases |lines|
  {
    if |lines| == 0 then []
    else
      var last := lines[|lines| - 1];
      StepLines(lines[..|lines| - 1]) + (if IsStep(last) then [Strip(last)] else [])
  }

  lemma {:induction false} StepTextsClassified(lines: seq<string>)
    decreases |lines|
    ensures StepTexts(ClassifyLines(lines)) == StepLines(lines)
  {
    if |lines| > 0 {
      var n := |lines| - 1;
      var cls := ClassifyLines(lines);
      assert StepTexts(cls[..n]) == StepLines(lines[..n]) by {
        assert cls[..n] == ClassifyLines(lines[..n]);
        StepTextsClassified(lines[..n]);
      }
      assert cls[n] == ClassifyLine(lines[n]);
    }
  }

  /** Header line `j` is followed by step line `j2` before the next header line */
  predicate StepFollows(lines: seq<string>, j: int, j2: int)
  {
    && 0 <= j < j2 < |lines| && IsHeader(lines[j]) && IsStep(lines[j2]) && !IsHeader(lines[j2])
    && forall m :: j < m < j2 ==> !IsHeader(lines[m])
  }

  /** Line `h` is the page's last header line */
  predicate IsLastHeader(lines: seq<string>, h: int)
  {
    0 <= h < |lines| && IsHeader(lines[h]) && forall m :: h < m < |lines| ==> !IsHeader(lines[m])
  }

  /** Some header line of `lines` named `name` is followed by a step line
      before the next header line */
  predicate HeaderWithSteps(lines: seq<string>, name: string)
  {
    exists j, j2 :: 0 <= j < j2 < |lines| && StepFollows(lines, j, j2) && name == HeaderName(lines[j])
  }

  /** An earned name over the classified lines is an earned name over the
      page's lines. */
  lemma EarnedFollows(cls: seq<Line>, lines: seq<string>, name: string)
    requires cls == ClassifyLines(lines) && Earned(name, cls)
    ensures HeaderWithSteps(lines, name)
  {
    var j, j2 :| 0 <= j < j2 < |cls| && cls[j].header && cls[j].name == name
      && cls[j2].step && !cls[j2].header && NoHeaderBetween(cls, j, j2);
    assert cls[j] == ClassifyLine(lines[j]) && cls[j2] == ClassifyLine(lines[j2]);
    forall m | j < m < j2 ensures !IsHeader(lines[m]) {
      assert cls[m] == ClassifyLine(lines[m]);
    }
    assert StepFollows(lines, j, j2);
  }

  /** A header line with no header line after it is the last header */
  lemma LastHeaderAt(cls: seq<Line>, h: int)
    requires 0 <= h < |cls| && cls[h].header && NoHeaderBetween(cls, h, |cls|)
    ensures LastHeader(cls) == Some(h)
  {
    var r := LastHeader(cls);
    assert r.Some? by { assert !NoHeaderBetween(cls, -1, |cls|); }
    assert !(r.value < h) && !(h < r.value);
  }

  /** The page's last header line is the last header of the classified
      lines, and the step texts after it are its step lines. */
  lemma LastHeaderIs(cls: seq<Line>, lines: seq<string>, h: int)
    requires cls == ClassifyLines(lines) && IsLastHeader(lines, h)
    ensures LastHeader(cls) == Some(h) && cls[h].name == HeaderName(lines[h])
    ensures StepTexts(cls[h + 1..]) == StepLines(lines[h + 1..])
  {
    assert cls[h] == ClassifyLine(lines[h]);
    assert NoHeaderBetween(cls, h, |cls|) by {
      forall m | h < m < |cls| ensures !cls[m].header {
        assert cls[m] == ClassifyLine(lines[m]);
      }
    }
    LastHeaderAt(cls, h);
    StepTextsAfter(cls, lines, h);
  }

  /** The step texts after classified line `h` are the page's step lines after it */
  lemma StepTextsAfter(cls: seq<Line>, lines: seq<string>, h: int)
    requires cls == ClassifyLines(lines) && 0 <= h < |lines|
    ensures StepTexts(cls[h + 1..]) == StepLines(lines[h + 1..])
  {
    var rest := lines[h + 1..];
    assert cls[h + 1..] == ClassifyLines(rest) by {
      forall i | 0 <= i < |rest| ensures cls[h + 1..][i] == ClassifyLine(rest[i]) {
        assert cls[h + 1 + i] == ClassifyLine(lines[h + 1 + i]);
      }
    }
    StepTextsClassified(rest);
  }

  lemma WorkflowsEarnedOf(lines: seq<string>, url: string)
    ensures var ws := Finish(ScanLines(ClassifyLines(lines), url));
      forall k :: 0 <= k < |ws| ==> HeaderWithSteps(lines, ws[k].name)
  {
    var cls := ClassifyLines(lines);
    var ws := Finish(ScanLines(cls, url));
    forall k | 0 <= k < |ws| ensures HeaderWithSteps(lines, ws[k].name) {
      FinishEarned(cls, url);
      EarnedFollows(cls, lines, ws[k].name);
    }
  }

  /** The emission rule of one page: every workflow is named after a header
      line that a step line follows before the next header line, so a header
      without steps gives no workflow. */
  lemma PageWorkflowsEarned(page: Page)
    ensures var lines := Split(page.content, '\n'); var ws := PageWorkflows(page);
      forall k :: 0 <= k < |ws| ==> HeaderWithSteps(lines, ws[k].name)
  {
    var lines := Split(page.content, '\n');
    assert PageWorkflows(page) == Finish(ScanLines(ClassifyLines(lines), page.url));
    WorkflowsEarnedOf(lines, page.url);
  }

  /** Header line `j` of the page is followed by a step line before the
      next header line */
  predicate HeaderEarned(lines: seq<string>, j: int)
  {
    exists j2 :: j < j2 < |lines| && StepFollows(lines, j, j2)
  }

  /** Apart from its steps, `w` is the workflow opened by header line `j` */
  predicate HeaderWorkflow(w: Workflow, lines: seq<string>, j: int, url: string)
    requires 0 <= j < |lines|
  {
    w.name == HeaderName(lines[j]) && w.description == "" && w.frequency == "common"
    && w.examples == [] && w.sourceUrls == [url]
  }

  lemma EarnedAtFollows(cls: seq<Line>, lines: seq<string>, j: int)
    requires cls == ClassifyLines(lines) && EarnedAt(cls, j)
    ensures HeaderEarned(lines, j)
  {
    var j2 :| j < j2 < |cls| && cls[j2].step && !cls[j2].header && NoHeaderBetween(cls, j, j2);
    forall m | j < m < j2 ensures !IsHeader(lines[m]) {
      assert cls[m] == ClassifyLine(lines[m]);
    }
    assert cls[j] == ClassifyLine(lines[j]) && cls[j2] == ClassifyLine(lines[j2]);
    assert StepFollows(lines, j, j2);
  }

  lemma FollowsEarnedAt(cls: seq<Line>, lines: seq<string>, j: int)
    requires cls == ClassifyLines(lines) && HeaderEarned(lines, j)
    ensures EarnedAt(cls, j)
  {
    var j2 :| j < j2 < |lines| && StepFollows(lines, j, j2);
    forall m | j < m < j2 && 0 <= m < |cls| ensures !cls[m].header {
      assert cls[m] == ClassifyLine(lines[m]);
    }
    assert cls[j] == ClassifyLine(lines[j]) && cls[j2] == ClassifyLine(lines[j2]);
  }

  lemma WorkflowsPerHeaderOf(lines: seq<string>, url: string)
    ensures var cls := ClassifyLines(lines); var ws := Finish(ScanLines(cls, url));
      var e := EarnedBelow(cls, |lines|);
      && (forall k, k2 :: 0 <= k < k2 < |e| ==> e[k] < e[k2])
      && (forall j :: 0 <= j < |lines| ==> (j in e <==> HeaderEarned(lines, j)))
      && |ws| == |e|
      && forall k :: 0 <= k < |ws| ==> e[k] < |lines| && HeaderWorkflow(ws[k], lines, e[k], url)
  {
    var cls := ClassifyLines(lines);
    var ws := Finish(ScanLines(cls, url));
    var e := EarnedBelow(cls, |lines|);
    ScanEmitsEarned(cls, url);
    EarnedBelowSpec(cls, |lines|);
    forall j | 0 <= j < |lines| ensures j in e <==> HeaderEarned(lines, j) {
      if EarnedAt(cls, j) {
        EarnedAtFollows(cls, lines, j);
      }
      if HeaderEarned(lines, j) {
        FollowsEarnedAt(cls, lines, j);
      }
    }
    forall k | 0 <= k < |ws| ensures e[k] < |lines| && HeaderWorkflow(ws[k], lines, e[k], url) {
      assert ws[k].(steps := []) == NewWorkflow(cls[e[k]], url);
      assert cls[e[k]] == ClassifyLine(lines[e[k]]);
    }
  }

  /** The emission rule of one page, the other way round: the workflows are
      those of the earned header lines, one each, in page order. `e` lists
      the header lines a step line follows before the next header line, in
      increasing order; workflow `k` is opened by header line `e[k]`. */
  lemma PageWorkflowsPerHeader(page: Page)
    ensures var lines := Split(page.content, '\n'); var ws := PageWorkflows(page);
      var e := EarnedBelow(ClassifyLines(lines), |lines|);
      && (forall k, k2 :: 0 <= k < k2 < |e| ==> e[k] < e[k2])
      && (forall j :: 0 <= j < |lines| ==> (j in e <==> HeaderEarned(lines, j)))
      && |ws| == |e|
      && forall k :: 0 <= k < |ws| ==> e[k] < |lines| && HeaderWorkflow(ws[k], lines, e[k], page.url)
  {
    var lines := Split(page.content, '\n');
    assert PageWorkflows(page) == Finish(ScanLines(ClassifyLines(lines), page.url));
    WorkflowsPerHeaderOf(lines, page.url);
  }

  /** The last workflow carries steps exactly when the step lines after
      header line `h` are not empty, and then it is that header's workflow
      with those lines, stripped and in order, as its steps. */
  predicate LastCarries(ws: seq<Workflow>, lines: seq<string>, h: int, url: string)
    requires 0 <= h < |lines|
  {
    var steps := StepLines(lines[h + 1..]);
    && ((|ws| > 0 && ws[|ws| - 1].steps != []) <==> steps != [])
    && (steps != [] ==> ws[|ws| - 1] == Workflow(HeaderName(lines[h]), "", steps, "common", [], [url]))
  }

  lemma LastWorkflowOf(lines: seq<string>, url: string, h: int)
    requires IsLastHeader(lines, h)
    ensures LastCarries(Finish(ScanLines(ClassifyLines(lines), url)), lines, h, url)
  {
    var cls := ClassifyLines(lines);
    var ws := Finish(ScanLines(cls, url));
    var steps := StepTexts(cls[h + 1..]);
    assert LastHeader(cls) == Some(h) && cls[h].name == HeaderName(lines[h])
      && steps == StepLines(lines[h + 1..]) by {
      LastHeaderIs(cls, lines, h);
    }
    assert ((|ws| > 0 && ws[|ws| - 1].steps != []) <==> steps != [])
      && (steps != [] ==> ws[|ws| - 1] == NewWorkflow(cls[h], url).(steps := steps)) by {
      FinishLast(cls, url, h);
    }
  }

  /** The last workflow of a page carries steps exactly when the page's last
      header line is followed by step lines, and then it is that header's
      workflow with those lines, stripped and in order, as its steps. */
  lemma PageLastWorkflow(page: Page)
    ensures var lines := Split(page.content, '\n');
      forall h :: IsLastHeader(lines, h) ==> LastCarries(PageWorkflows(page), lines, h, page.url)
  {
    var lines := Split(page.content, '\n');
    forall h | IsLastHeader(lines, h) ensures LastCarries(PageWorkflows(page), lines, h, page.url) {
      LastWorkflowOf(lines, page.url, h);
    }
  }

  lemma StepText(steps: seq<string>, cls: seq<Line>, lines: seq<string>, i: nat)
    requires cls == ClassifyLines(lines) && StepsFrom(steps, cls) && i < |steps|
    ensures IsNumbered(steps[i]) || IsBullet(steps[i])
  {
    StepTextsAreSteps(cls, lines);
  }

  lemma {:induction false} StepTextsAreSteps(cls: seq<Line>, lines: seq<string>)
    requires cls == ClassifyLines(lines)
    decreases |cls|
    ensures forall s :: s in StepTexts(cls) ==> IsNumbered(s) || IsBullet(s)
  {
    if |cls| > 0 {
      var n := |cls| - 1;
      assert cls[..n] == ClassifyLines(lines[..n]);
      StepTextsAreSteps(cls[..n], lines[..n]);
      assert cls[n] == ClassifyLine(lines[n]);
    }
  }

  lemma HeaderText(w: Workflow, cls: seq<Line>, lines: seq<string>, url: string)
    requires cls == ClassifyLines(lines) && OpenedBy(w, cls, url)
    ensures exists j :: 0 <= j < |lines| && IsHeader(lines[j]) && w.name == HeaderName(lines[j])
  {
    var j :| 0 <= j < |cls| && cls[j].header && w.name == cls[j].name;
    assert cls[j] == ClassifyLine(lines[j]);
  }

  /** Every workflow of the corpus comes from one page and has that page's shape. */
  lemma {:induction false} WorkflowsFromPages(pages: seq<Page>)
    decreases |pages|
    ensures forall w :: w in Workflows(pages) ==>
      exists p :: 0 <= p < |pages| && w in PageWorkflows(pages[p])
  {
    if |pages| > 0 {
      var init := pages[..|pages| - 1];
      var last := pages[|pages| - 1];
      WorkflowsFromPages(init);
      forall w | w in Workflows(pages)
        ensures exists p :: 0 <= p < |pages| && w in PageWorkflows(pages[p])
      {
        if w in Workflows(init) {
          var p :| 0 <= p < |init| && w in PageWorkflows(init[p]);
          assert pages[p] == init[p];
        } else {
          assert w in PageWorkflows(pages[|pages| - 1]);
        }
      }
    }
  }
}
