/** The SKILL.md generator: the sections of a skill's main file are built
    from the analysis record (tool name and type, workflows, examples and
    the number of pitfalls) and the optional template list, then joined
    into one text in a fixed order. */
module SkillMdGenerator {
  import opened Text
  import opened Wrappers
  import InitSkill
  import QuickValidate

  // ---------------------------------------------------------------------
  // The SKILL.md record and its compilation
  // ---------------------------------------------------------------------

  /** The eight sections of a SKILL.md, in the order they are written
      (the metadata dictionary, which holds a timestamp, is not modelled) */
  datatype SkillMd = SkillMd(
    frontmatter: string,
    overview: string,
    quickStart: string,
    workflows: string,
    templatesRef: string,
    guardrailsRef: string,
    troubleshootingRef: string,
    seeAlso: string)

  /** The sections with an empty line between each two */
  function Sections(sk: SkillMd): seq<string>
  {
    [sk.frontmatter] + [""] + [sk.overview] + [""] + [sk.quickStart] + [""] + [sk.workflows] + [""]
    + [sk.templatesRef] + [""] + [sk.guardrailsRef] + [""] + [sk.troubleshootingRef] + [""] + [sk.seeAlso]
  }

  /** `SkillMD.compile`: the sections joined with '\n' */
  function Compile(sk: SkillMd): string
  {
    Join(Sections(sk), "\n")
  }

  /** The number of '\n'-separated lines of each text, added up */
  function SumLines(parts: seq<string>): nat
    decreases |parts|
  {
    if |parts| == 0 then 0 else SumLines(parts[..|parts| - 1]) + LineCount(parts[|parts| - 1])
  }

  lemma SumSnoc(parts: seq<string>, x: string)
    ensures SumLines(parts + [x]) == SumLines(parts) + LineCount(x)
  {
    assert (parts + [x])[..|parts|] == parts;
  }

  /** Joining with '\n' keeps every line of every piece: the line count of
      the join is the sum of the pieces' line counts. */
  lemma {:induction false} JoinLineCount(parts: seq<string>)
    requires |parts| >= 1
    decreases |parts|
    ensures LineCount(Join(parts, "\n")) == SumLines(parts)
  {
    var n := |parts| - 1;
    if n > 0 {
      var init := parts[..n];
      JoinLineCount(init);
      assert parts == init + [parts[n]];
      JoinAppend(init, [parts[n]], "\n");
      SplitAppend(Join(init, "\n"), parts[n], '\n');
      SumSnoc(init, parts[n]);
    }
  }

  /** The line count `save_skill_md` reports for a SKILL.md: the lines of the
      eight sections plus the seven empty separator lines. */
  lemma CompiledLineCount(sk: SkillMd)
    ensures LineCount(Compile(sk)) ==
      LineCount(sk.frontmatter) + LineCount(sk.overview) + LineCount(sk.quickStart)
      + LineCount(sk.workflows) + LineCount(sk.templatesRef) + LineCount(sk.guardrailsRef)
      + LineCount(sk.troubleshootingRef) + LineCount(sk.seeAlso) + 7
  {
    JoinLineCount(Sections(sk));
    assert LineCount("") == 1;
    SumSnoc([], sk.frontmatter);
    assert [] + [sk.frontmatter] == [sk.frontmatter];
    SumSnoc([sk.frontmatter], "");
    SumSnoc([sk.frontmatter] + [""], sk.overview);
    SumSnoc([sk.frontmatter] + [""] + [sk.overview], "");
    SumSnoc([sk.frontmatter] + [""] + [sk.overview] + [""], sk.quickStart);
    SumSnoc([sk.frontmatter] + [""] + [sk.overview] + [""] + [sk.quickStart], "");
    SumSnoc([sk.frontmatter] + [""] + [sk.overview] + [""] + [sk.quickStart] + [""], sk.workflows);
    SumSnoc([sk.frontmatter] + [""] + [sk.overview] + [""] + [sk.quickStart] + [""] + [sk.workflows], "");
    SumSnoc([sk.frontmatter] + [""] + [sk.overview] + [""] + [sk.quickStart] + [""] + [sk.workflows] + [""], sk.templatesRef);
    SumSnoc([sk.frontmatter] + [""] + [sk.overview] + [""] + [sk.quickStart] + [""] + [sk.workflows] + [""] + [sk.templatesRef], "");
    SumSnoc([sk.frontmatter] + [""] + [sk.overview] + [""] + [sk.quickStart] + [""] + [sk.workflows] + [""] + [sk.templatesRef] + [""], sk.guardrailsRef);
    SumSnoc([sk.frontmatter] + [""] + [sk.overview] + [""] + [sk.quickStart] + [""] + [sk.workflows] + [""] + [sk.templatesRef] + [""] + [sk.guardrailsRef], "");
    SumSnoc([sk.frontmatter] + [""] + [sk.overview] + [""] + [sk.quickStart] + [""] + [sk.workflows] + [""] + [sk.templatesRef] + [""] + [sk.guardrailsRef] + [""], sk.troubleshootingRef);
    SumSnoc([sk.frontmatter] + [""] + [sk.overview] + [""] + [sk.quickStart] + [""] + [sk.workflows] + [""] + [sk.templatesRef] + [""] + [sk.guardrailsRef] + [""] + [sk.troubleshootingRef], "");
    SumSnoc([sk.frontmatter] + [""] + [sk.overview] + [""] + [sk.quickStart] + [""] + [sk.workflows] + [""] + [sk.templatesRef] + [""] + [sk.guardrailsRef] + [""] + [sk.troubleshootingRef] + [""], sk.seeAlso);
  }

  /** A compiled SKILL.md is its frontmatter, a blank line, and the rest. */
  lemma CompileSplits(sk: SkillMd)
    ensures Compile(sk) == sk.frontmatter + "\n" + Join(Sections(sk)[1..], "\n")
  {
  }

  // ---------------------------------------------------------------------
  // The frontmatter
  // ---------------------------------------------------------------------

  /** The separators a tool name's words may be joined with */
  predicate IsSeparator(c: char) { c == ' ' || c == '_' || c == '-' }

  /** Spaces and underscores become hyphens */
  function Hyphenate(c: char): char { if c == ' ' || c == '_' then '-' else c }

  /** `s.replace(a, b)` for one-character `a` and `b` rewrites each `a` */
  lemma {:induction false} ReplaceOneChar(s: string, a: char, b: char)
    decreases |s|
    ensures |ReplaceAll(s, [a], [b])| == |s|
    ensures forall k :: 0 <= k < |s| ==>
      ReplaceAll(s, [a], [b])[k] == if s[k] == a then b else s[k]
  {
    if |s| > 0 {
      ReplaceOneChar(s[1..], a, b);
      if s[..1] == [a] {
        assert s[0] == a;
      } else {
        assert s[0] != a;
      }
    }
  }

  /** The skill name made from a tool name: lower-cased, with spaces and
      underscores replaced by hyphens, character by character */
  function SkillName(toolName: string): (r: string)
    ensures |r| == |toolName|
    ensures forall k :: 0 <= k < |r| ==> r[k] == Hyphenate(LowerChar(toolName[k]))
  {
    var lower := Lower(toolName);
    ReplaceOneChar(lower, ' ', '-');
    ReplaceOneChar(ReplaceAll(lower, " ", "-"), '_', '-');
    ReplaceAll(ReplaceAll(lower, " ", "-"), "_", "-")
  }

  /** A tool name made of ASCII letters and digits in runs joined by single
      spaces, underscores or hyphens */
  predicate HyphenatesCleanly(toolName: string)
  {
    |toolName| > 0
    && (forall k :: 0 <= k < |toolName| ==> IsAlnum(toolName[k]) || IsSeparator(toolName[k]))
    && !IsSeparator(toolName[0]) && !IsSeparator(toolName[|toolName| - 1])
    && forall k :: 0 <= k < |toolName| - 1 ==> !(IsSeparator(toolName[k]) && IsSeparator(toolName[k + 1]))
  }

  lemma NameCharOf(c: char)
    ensures InitSkill.IsNameChar(Hyphenate(LowerChar(c))) <==> IsAlnum(c)
    ensures Hyphenate(LowerChar(c)) == '-' <==> IsSeparator(c)
  {
  }

  /** The generated skill name passes the initialiser's name rule exactly
      when the tool name is letter-and-digit runs joined by single
      separators. */
  lemma SkillNameValidIff(toolName: string)
    ensures InitSkill.ValidSkillName(SkillName(toolName)) <==> HyphenatesCleanly(toolName)
  {
    var r := SkillName(toolName);
    InitSkill.AcceptsIff(r, 0, false);
    forall k | 0 <= k < |r|
      ensures InitSkill.IsNameChar(r[k]) <==> IsAlnum(toolName[k])
      ensures r[k] == '-' <==> IsSeparator(toolName[k])
    {
      NameCharOf(toolName[k]);
    }
  }

  // The fixed texts of the description (written in pieces so that their
  // characters can be checked piece by piece)
  const CliIntroEnd := " CLI " + "effectively " + "with " + "templates, " + "validation, " + "and best " + "practices."
  const ApiIntroEnd := " API using " + "tested " + "patterns and " + "error " + "handling."
  const LibraryIntroEnd := " library with " + "type-safe " + "patterns and " + "examples."
  const FrameworkIntroEnd := " following " + "proven " + "workflows."
  const GenericIntroEnd := " with " + "comprehensive " + "guidance and " + "templates."
  const UsePrefix := "Use "
  const IntegratePrefix := "Integrate " + "with "
  const BuildPrefix := "Build " + "applications " + "with "
  const IncludesText := " Includes "
  const WorkflowsText := " documented " + "workflows"
  const AndText := " and "
  const PreventionsText := " pitfall " + "preventions"

  /** The opening sentence of the description, chosen by tool type; an
      unknown type gets the generic sentence */
  function Intro(toolName: string, toolType: string): string
  {
    if toolType == "cli" then UsePrefix + toolName + CliIntroEnd
    else if toolType == "api" then IntegratePrefix + toolName + ApiIntroEnd
    else if toolType == "library" then UsePrefix + toolName + LibraryIntroEnd
    else if toolType == "framework" then BuildPrefix + toolName + FrameworkIntroEnd
    else UsePrefix + toolName + GenericIntroEnd
  }

  function WorkflowClause(workflowCount: nat): string
  {
    IncludesText + NatToString(workflowCount) + WorkflowsText
  }

  function PitfallClause(pitfallCount: nat): string
  {
    AndText + NatToString(pitfallCount) + PreventionsText
  }

  /** `_generate_description`: the intro, the workflow count when there are
      workflows, the pitfall count when there are pitfalls, and a final '.' */
  function Description(toolName: string, toolType: string, workflowCount: nat, pitfallCount: nat): string
  {
    Intro(toolName, toolType)
    + (if workflowCount > 0 then WorkflowClause(workflowCount) else "")
    + (if pitfallCount > 0 then PitfallClause(pitfallCount) else "")
    + "."
  }

  /** Every intro is a sentence of its own: it ends with '.'. */
  lemma IntroEndsWithPeriod(toolName: string, toolType: string)
    ensures EndsWith(Intro(toolName, toolType), ".")
  {
    var tail := IntroTail(toolType);
    IntroParts(toolName, toolType);
    CliIntroEndIsPlain();
    ApiIntroEndIsPlain();
    LibraryIntroEndIsPlain();
    FrameworkIntroEndIsPlain();
    GenericIntroEndIsPlain();
    var pre := IntroPrefix(toolType) + toolName;
    assert (pre + tail)[|pre + tail| - 1..] == tail[|tail| - 1..];
  }

  function IntroPrefix(toolType: string): string
  {
    if toolType == "api" then IntegratePrefix
    else if toolType == "framework" then BuildPrefix else UsePrefix
  }

  function IntroTail(toolType: string): string
  {
    if toolType == "cli" then CliIntroEnd
    else if toolType == "api" then ApiIntroEnd
    else if toolType == "library" then LibraryIntroEnd
    else if toolType == "framework" then FrameworkIntroEnd else GenericIntroEnd
  }

  lemma IntroParts(toolName: string, toolType: string)
    ensures Intro(toolName, toolType) == IntroPrefix(toolType) + toolName + IntroTail(toolType)
  {
  }

  /** The four-part shape of a description, on any texts */
  lemma SentenceShape(intro: string, w: string, p: string)
    ensures var r := intro + w + p + ".";
      StartsWith(r, intro) && EndsWith(r, ".") && Contains(r, w) && Contains(r, p)
      && (w == "" && p == "" && EndsWith(intro, ".") ==> EndsWith(r, ".."))
  {
    var r := intro + w + p + ".";
    assert r[..|intro|] == intro;
    ContainsInfix(intro, w, p + ".");
    assert r == intro + w + (p + ".");
    ContainsInfix(intro + w, p, ".");
    if w == "" && p == "" && EndsWith(intro, ".") {
      assert r == intro + ".";
      assert r[|r| - 2..] == [intro[|intro| - 1], '.'];
    }
  }

  /** The description starts with the intro and ends with '.', names each
      count that is not zero, and, since every intro is a sentence of its
      own, ends in ".." when both counts are zero. */
  lemma DescriptionClauses(toolName: string, toolType: string, workflowCount: nat, pitfallCount: nat)
    ensures var r := Description(toolName, toolType, workflowCount, pitfallCount);
      StartsWith(r, Intro(toolName, toolType)) && EndsWith(r, ".")
      && (workflowCount > 0 ==> Contains(r, WorkflowClause(workflowCount)))
      && (pitfallCount > 0 ==> Contains(r, PitfallClause(pitfallCount)))
      && (workflowCount == 0 && pitfallCount == 0 ==> EndsWith(r, ".."))
  {
    IntroEndsWithPeriod(toolName, toolType);
    SentenceShape(Intro(toolName, toolType),
      if workflowCount > 0 then WorkflowClause(workflowCount) else "",
      if pitfallCount > 0 then PitfallClause(pitfallCount) else "");
  }

  /** Characters that a one-line frontmatter value may hold */
  predicate IsPlainChar(c: char) { c != '\n' && c != '<' && c != '>' }

  lemma CliIntroEndIsPlain()
    ensures All(CliIntroEnd, IsPlainChar) && EndsWith(CliIntroEnd, ".")
  {
    assert All(" CLI ", IsPlainChar);
    assert All("effectively ", IsPlainChar);
    assert All("with ", IsPlainChar);
    assert All("templates, ", IsPlainChar);
    assert All("validation, ", IsPlainChar);
    assert All("and best ", IsPlainChar);
    assert All("practices.", IsPlainChar);
    AllAppend(" CLI ", "effectively ", IsPlainChar);
    AllAppend(" CLI " + "effectively ", "with ", IsPlainChar);
    AllAppend(" CLI " + "effectively " + "with ", "templates, ", IsPlainChar);
    AllAppend(" CLI " + "effectively " + "with " + "templates, ", "validation, ", IsPlainChar);
    AllAppend(" CLI " + "effectively " + "with " + "templates, " + "validation, ", "and best ", IsPlainChar);
    AllAppend(" CLI " + "effectively " + "with " + "templates, " + "validation, " + "and best ", "practices.", IsPlainChar);
  }

  lemma ApiIntroEndIsPlain()
    ensures All(ApiIntroEnd, IsPlainChar) && EndsWith(ApiIntroEnd, ".")
  {
    assert All(" API using ", IsPlainChar);
    assert All("tested ", IsPlainChar);
    assert All("patterns and ", IsPlainChar);
    assert All("error ", IsPlainChar);
    assert All("handling.", IsPlainChar);
    AllAppend(" API using ", "tested ", IsPlainChar);
    AllAppend(" API using " + "tested ", "patterns and ", IsPlainChar);
    AllAppend(" API using " + "tested " + "patterns and ", "error ", IsPlainChar);
    AllAppend(" API using " + "tested " + "patterns and " + "error ", "handling.", IsPlainChar);
  }

  lemma LibraryIntroEndIsPlain()
    ensures All(LibraryIntroEnd, IsPlainChar) && EndsWith(LibraryIntroEnd, ".")
  {
    assert All(" library with ", IsPlainChar);
    assert All("type-safe ", IsPlainChar);
    assert All("patterns and ", IsPlainChar);
    assert All("examples.", IsPlainChar);
    AllAppend(" library with ", "type-safe ", IsPlainChar);
    AllAppend(" library with " + "type-safe ", "patterns and ", IsPlainChar);
    AllAppend(" library with " + "type-safe " + "patterns and ", "examples.", IsPlainChar);
  }

  lemma FrameworkIntroEndIsPlain()
    ensures All(FrameworkIntroEnd, IsPlainChar) && EndsWith(FrameworkIntroEnd, ".")
  {
    assert All(" following ", IsPlainChar);
    assert All("proven ", IsPlainChar);
    assert All("workflows.", IsPlainChar);
    AllAppend(" following ", "proven ", IsPlainChar);
    AllAppend(" following " + "proven ", "workflows.", IsPlainChar);
  }

  lemma GenericIntroEndIsPlain()
    ensures All(GenericIntroEnd, IsPlainChar) && EndsWith(GenericIntroEnd, ".")
  {
    assert All(" with ", IsPlainChar);
    assert All("comprehensive ", IsPlainChar);
    assert All("guidance and ", IsPlainChar);
    assert All("templates.", IsPlainChar);
    AllAppend(" with ", "comprehensive ", IsPlainChar);
    AllAppend(" with " + "comprehensive ", "guidance and ", IsPlainChar);
    AllAppend(" with " + "comprehensive " + "guidance and ", "templates.", IsPlainChar);
  }

  lemma UsePrefixIsPlain()
    ensures All(UsePrefix, IsPlainChar)
  {
    assert All("Use ", IsPlainChar);
  }

  lemma IntegratePrefixIsPlain()
    ensures All(IntegratePrefix, IsPlainChar)
  {
    assert All("Integrate ", IsPlainChar);
    assert All("with ", IsPlainChar);
    AllAppend("Integrate ", "with ", IsPlainChar);
  }

  lemma BuildPrefixIsPlain()
    ensures All(BuildPrefix, IsPlainChar)
  {
    assert All("Build ", IsPlainChar);
    assert All("applications ", IsPlainChar);
    assert All("with ", IsPlainChar);
    AllAppend("Build ", "applications ", IsPlainChar);
    AllAppend("Build " + "applications ", "with ", IsPlainChar);
  }

  lemma IncludesTextIsPlain()
    ensures All(IncludesText, IsPlainChar)
  {
    assert All(" Includes ", IsPlainChar);
  }

  lemma WorkflowsTextIsPlain()
    ensures All(WorkflowsText, IsPlainChar)
  {
    assert All(" documented ", IsPlainChar);
    assert All("workflows", IsPlainChar);
    AllAppend(" documented ", "workflows", IsPlainChar);
  }

  lemma AndTextIsPlain()
    ensures All(AndText, IsPlainChar)
  {
    assert All(" and ", IsPlainChar);
  }

  lemma PreventionsTextIsPlain()
    ensures All(PreventionsText, IsPlainChar)
  {
    assert All(" pitfall ", IsPlainChar);
    assert All("preventions", IsPlainChar);
    AllAppend(" pitfall ", "preventions", IsPlainChar);
  }

  lemma NumberIsPlain(n: nat)
    ensures All(NatToString(n), IsPlainChar)
  {
  }

  lemma IntroIsPlain(toolName: string, toolType: string)
    requires All(toolName, IsPlainChar)
    ensures var r := Intro(toolName, toolType); All(r, IsPlainChar) && |r| > 0 && !IsSpace(r[0])
  {
    IntroParts(toolName, toolType);
    var pre := IntroPrefix(toolType);
    var tail := IntroTail(toolType);
    UsePrefixIsPlain();
    IntegratePrefixIsPlain();
    BuildPrefixIsPlain();
    CliIntroEndIsPlain();
    ApiIntroEndIsPlain();
    LibraryIntroEndIsPlain();
    FrameworkIntroEndIsPlain();
    GenericIntroEndIsPlain();
    AllAppend(pre, toolName, IsPlainChar);
    AllAppend(pre + toolName, tail, IsPlainChar);
    assert (pre + toolName + tail)[0] == pre[0];
    assert pre[0] == 'U' || pre[0] == 'I' || pre[0] == 'B';
  }

  /** A tool name of plain characters gives a description the quick
      validator accepts: one line, no angle brackets, starting with a
      letter. */
  lemma DescriptionIsPlain(toolName: string, toolType: string, workflowCount: nat, pitfallCount: nat)
    requires All(toolName, IsPlainChar)
    ensures var r := Description(toolName, toolType, workflowCount, pitfallCount);
      All(r, IsPlainChar) && |r| > 0 && !IsSpace(r[0])
  {
    var intro := Intro(toolName, toolType);
    IntroIsPlain(toolName, toolType);
    var w := if workflowCount > 0 then WorkflowClause(workflowCount) else "";
    var p := if pitfallCount > 0 then PitfallClause(pitfallCount) else "";
    IncludesTextIsPlain();
    WorkflowsTextIsPlain();
    AndTextIsPlain();
    PreventionsTextIsPlain();
    NumberIsPlain(workflowCount);
    NumberIsPlain(pitfallCount);
    AllAppend(IncludesText, NatToString(workflowCount), IsPlainChar);
    AllAppend(IncludesText + NatToString(workflowCount), WorkflowsText, IsPlainChar);
    AllAppend(AndText, NatToString(pitfallCount), IsPlainChar);
    AllAppend(AndText + NatToString(pitfallCount), PreventionsText, IsPlainChar);
    PlainSentence(intro, w, p);
  }

  /** Plain pieces make a plain sentence, on any texts */
  lemma PlainSentence(intro: string, w: string, p: string)
    requires All(intro, IsPlainChar) && All(w, IsPlainChar) && All(p, IsPlainChar)
    requires |intro| > 0 && !IsSpace(intro[0])
    ensures var r := intro + w + p + "."; All(r, IsPlainChar) && |r| > 0 && !IsSpace(r[0])
  {
    AllAppend(intro, w, IsPlainChar);
    AllAppend(intro + w, p, IsPlainChar);
    AllAppend(intro + w + p, ".", IsPlainChar);
    assert (intro + w + p + ".")[0] == intro[0];
  }

  /** `FRONTMATTER_TEMPLATE` filled in */
  function Frontmatter(skillName: string, description: string): string
  {
    "---\nname: " + skillName + "\ndescription: " + description + "\n---"
  }

  /** `generate_frontmatter` */
  function GenerateFrontmatter(toolName: string, toolType: string, workflowCount: nat, pitfallCount: nat): string
  {
    Frontmatter(SkillName(toolName), Description(toolName, toolType, workflowCount, pitfallCount))
  }

  // ---------------------------------------------------------------------
  // The overview
  // ---------------------------------------------------------------------

  const ProvidesItems := [
    ("- **Tested Templates**: " + "Ready-to-use code templates " + "with inline comments"),
    ("- **Common Workflows**: " + "Step-by-step guides for " + "frequent tasks"),
    ("- **Pre-flight Validation**: " + "Automated checks before " + "execution"),
    ("- **Troubleshooting Trees**: " + "Decision trees for common " + "issues"),
    ("- **Quick Reference**: " + "Cheatsheet for common " + "operations"),
    ("- **Configuration " + "Templates**: Example " + "configuration files")]

  /** The use-when item that only a tool with workflows gets */
  function FollowingItem(toolName: string): string
  {
    "- Following " + toolName + " workflows"
  }

  /** The use-when list: four fixed items, with the workflows item
      inserted at position 1 when the analysis found workflows */
  function UseWhenItems(toolName: string, toolType: string, hasWorkflows: bool): seq<string>
  {
    var items := ["- Working with " + toolName,
                  "- Need templates for common " + toolType + " operations",
                  "- Want validation before execution",
                  "- Need troubleshooting guidance"];
    if hasWorkflows then items[..1] + [FollowingItem(toolName)] + items[1..] else items
  }

  /** The workflows item is listed, at position 1 and nowhere else, exactly
      when there are workflows; taking it out gives the list without it. */
  lemma FollowingItemIff(toolName: string, toolType: string, hasWorkflows: bool)
    ensures var items := UseWhenItems(toolName, toolType, hasWorkflows);
      (FollowingItem(toolName) in items <==> hasWorkflows)
      && (hasWorkflows ==>
            items[1] == FollowingItem(toolName)
            && items[..1] + items[2..] == UseWhenItems(toolName, toolType, false))
  {
    var f := FollowingItem(toolName);
    var base := UseWhenItems(toolName, toolType, false);
    assert f[2] == 'F';
    forall k | 0 <= k < |base|
      ensures base[k] != f
    {
      assert base[k][2] != 'F';
    }
    if hasWorkflows {
      var items := UseWhenItems(toolName, toolType, true);
      assert items == [base[0], f] + base[1..];
      assert items[..1] + items[2..] == base;
    }
  }

  /** `OVERVIEW_TEMPLATE` filled in by `generate_overview` */
  function Overview(toolName: string, toolType: string, hasWorkflows: bool): string
  {
    "# " + toolName + "\n\nComprehensive skill for using " + toolName + " effectively."
    + "\n\n## When to Use This Skill\n\n" + Join(UseWhenItems(toolName, toolType, hasWorkflows), "\n")
    + "\n\n## What This Skill Provides\n\n" + Join(ProvidesItems, "\n")
  }

  // ---------------------------------------------------------------------
  // The quick start
  // ---------------------------------------------------------------------

  /** The fields of an example the quick start reads: a missing code or
      language is the empty text, a missing title is `None` */
  datatype ExampleInfo = ExampleInfo(title: Option<string>, language: string, code: string)

  const NoExampleText := "Check `templates/` for " + "ready-to-use templates.\n"
  const QuickStartEnd := "\n\n**Next Steps:**\n- Review " + "common workflows below\n- " + "Check available templates in " + "`templates/`\n- Run " + "pre-flight checks: " + "`./scripts/validate_prereqs.sh`"

  /** The fenced code of an example */
  function Fenced(e: ExampleInfo): string
  {
    "```" + e.language + "\n" + e.code + "\n```"
  }

  /** The pieces of the quick start: the first example, titled and fenced,
      when it has code, else a note that points to the templates; then the
      pre-flight check */
  function QuickStartParts(examples: seq<ExampleInfo>): seq<string>
  {
    ["### Basic Usage\n"]
    + (if |examples| > 0 && examples[0].code != "" then
         ["**" + (if examples[0].title.Some? then examples[0].title.value else "Example") + ":**\n",
          Fenced(examples[0])]
       else [NoExampleText])
    + ["\n**Pre-flight Check:**", "```bash", "./scripts/validate_prereqs.sh", "```"]
  }

  /** `QUICK_START_TEMPLATE` filled in by `generate_quick_start` */
  function QuickStart(examples: seq<ExampleInfo>): string
  {
    "## Quick Start\n\n" + Join(QuickStartParts(examples), "\n") + QuickStartEnd
  }

  /** A join holds each of its pieces. */
  lemma {:induction false} JoinHolds(parts: seq<string>, sep: string, k: nat)
    requires k < |parts|
    decreases |parts|
    ensures Contains(Join(parts, sep), parts[k])
  {
    if |parts| == 1 {
      ContainsInfix("", parts[0], "");
      assert "" + parts[0] + "" == parts[0];
    } else if k == 0 {
      ContainsInfix("", parts[0], sep + Join(parts[1..], sep));
      assert "" + parts[0] + (sep + Join(parts[1..], sep)) == Join(parts, sep);
    } else {
      JoinHolds(parts[1..], sep, k - 1);
      assert parts[1..][k - 1] == parts[k];
      ContainsInfix(parts[0] + sep, Join(parts[1..], sep), "");
      assert parts[0] + sep + Join(parts[1..], sep) + "" == Join(parts, sep);
      ContainsTransitive(Join(parts, sep), Join(parts[1..], sep), parts[k]);
    }
  }

  /** The quick start shows the first example's code, fenced with its
      language, when that code is not empty, and points to the templates
      otherwise. */
  lemma QuickStartShowsFirstExample(examples: seq<ExampleInfo>)
    ensures |examples| > 0 && examples[0].code != "" ==> Contains(QuickStart(examples), Fenced(examples[0]))
    ensures !(|examples| > 0 && examples[0].code != "") ==> Contains(QuickStart(examples), NoExampleText)
  {
    var parts := QuickStartParts(examples);
    var j := Join(parts, "\n");
    var shown := if |examples| > 0 && examples[0].code != "" then Fenced(examples[0]) else NoExampleText;
    var k := if |examples| > 0 && examples[0].code != "" then 2 else 1;
    assert parts[k] == shown;
    JoinHolds(parts, "\n", k);
    ContainsInfix("## Quick Start\n\n", j, QuickStartEnd);
    ContainsTransitive(QuickStart(examples), j, shown);
  }

  // ---------------------------------------------------------------------
  // The workflows section
  // ---------------------------------------------------------------------

  /** The fields of a workflow the section reads: a missing name is `None`,
      a missing description the empty text, missing steps the empty list */
  datatype Workflow = Workflow(name: Option<string>, description: string, steps: seq<string>)

  const NoWorkflowsText := "See templates for common usage patterns."

  /** The name shown for the `i`-th workflow (counting from 1) */
  function WorkflowTitle(i: nat, w: Workflow): string
  {
    if w.name.Some? then w.name.value else "Workflow " + NatToString(i)
  }

  function Heading(i: nat, w: Workflow): string
  {
    "### " + NatToString(i) + ". " + WorkflowTitle(i, w) + "\n"
  }

  function StepLine(k: nat, step: string): string
  {
    NatToString(k) + ". " + step
  }

  /** The steps, numbered from 1 */
  function NumberedSteps(steps: seq<string>): seq<string>
    decreases |steps|
  {
    if |steps| == 0 then []
    else NumberedSteps(steps[..|steps| - 1]) + [StepLine(|steps|, steps[|steps| - 1])]
  }

  /** Step `k` of the list is shown as "k+1. <step>", and nothing else is
      shown. */
  lemma {:induction false} NumberedStepsAt(steps: seq<string>)
    decreases |steps|
    ensures |NumberedSteps(steps)| == |steps|
    ensures forall k :: 0 <= k < |steps| ==> NumberedSteps(steps)[k] == StepLine(k + 1, steps[k])
  {
    if |steps| > 0 {
      var n := |steps| - 1;
      NumberedStepsAt(steps[..n]);
    }
  }

  /** The description line of a workflow, when it has a description */
  function DescriptionLines(w: Workflow): seq<string>
  {
    if w.description != "" then [w.description + "\n"] else []
  }

  /** The first five steps of a workflow between "**Steps:**" and an empty
      line, when it has steps */
  function StepsLines(w: Workflow): seq<string>
  {
    if |w.steps| > 0 then ["**Steps:**"] + NumberedSteps(Take(w.steps, 5)) + [""] else []
  }

  /** The lines of one workflow: its heading, its description and its steps */
  function Block(i: nat, w: Workflow): seq<string>
  {
    [Heading(i, w)] + DescriptionLines(w) + StepsLines(w)
  }

  /** The lines of the workflows, numbered from 1 */
  function WorkflowItems(ws: seq<Workflow>): seq<string>
    decreases |ws|
  {
    if |ws| == 0 then []
    else WorkflowItems(ws[..|ws| - 1]) + Block(|ws|, ws[|ws| - 1])
  }

  /** The list of the first five workflows, or the fallback text */
  function WorkflowList(ws: seq<Workflow>): string
  {
    var items := WorkflowItems(Take(ws, 5));
    if |items| > 0 then Join(items, "\n") else NoWorkflowsText
  }

  /** `WORKFLOWS_TEMPLATE` filled in by `generate_workflows_section` */
  function WorkflowsSection(ws: seq<Workflow>): string
  {
    "## Common Workflows\n\n" + WorkflowList(ws)
  }

  /** The numbered lines of the first five steps, one step at a time */
  method NumberSteps(steps: seq<string>) returns (lines: seq<string>)
    ensures lines == NumberedSteps(Take(steps, 5))
  {
    var n := if |steps| < 5 then |steps| else 5;
    lines := [];
    var k := 0;
    while k < n
      invariant 0 <= k <= n
      invariant lines == NumberedSteps(steps[..k])
    {
      assert steps[..k + 1][..k] == steps[..k];
      lines := lines + [StepLine(k + 1, steps[k])];
      k := k + 1;
    }
    assert Take(steps, 5) == steps[..n];
  }

  /** `generate_workflows_section`: the lines of the first five workflows
      are collected one workflow at a time */
  method GenerateWorkflowsSection(ws: seq<Workflow>) returns (text: string)
    ensures text == WorkflowsSection(ws)
  {
    var n := if |ws| < 5 then |ws| else 5;
    var items: seq<string> := [];
    var i := 0;
    while i < n
      invariant 0 <= i <= n
      invariant items == WorkflowItems(ws[..i])
    {
      var w := ws[i];
      var described: seq<string> := [];
      if w.description != "" {
        described := [w.description + "\n"];
      }
      var stepped: seq<string> := [];
      if |w.steps| > 0 {
        var lines := NumberSteps(w.steps);
        stepped := ["**Steps:**"] + lines + [""];
      }
      ItemsSnoc(ws, i);
      items := items + ([Heading(i + 1, w)] + described + stepped);
      i := i + 1;
    }
    assert Take(ws, 5) == ws[..n];
    if |items| > 0 {
      text := "## Common Workflows\n\n" + Join(items, "\n");
    } else {
      text := "## Common Workflows\n\n" + NoWorkflowsText;
    }
  }

  /** The workflow headings among the lines, in order */
  function Headings(items: seq<string>): seq<string>
    decreases |items|
  {
    if |items| == 0 then []
    else
      var last := items[|items| - 1];
      Headings(items[..|items| - 1]) + (if StartsWith(last, "### ") then [last] else [])
  }

  lemma {:induction false} HeadingsAppend(a: seq<string>, b: seq<string>)
    decreases |b|
    ensures Headings(a + b) == Headings(a) + Headings(b)
  {
    if |b| == 0 {
      assert a + b == a;
    } else {
      var n := |b| - 1;
      HeadingsAppend(a, b[..n]);
      assert (a + b)[..|a + b| - 1] == a + b[..n];
    }
  }

  /** Lines none of which starts like a heading hold no heading. */
  lemma {:induction false} NoHeadings(items: seq<string>)
    requires forall k :: 0 <= k < |items| ==> !StartsWith(items[k], "### ")
    decreases |items|
    ensures Headings(items) == []
  {
    if |items| > 0 {
      NoHeadings(items[..|items| - 1]);
    }
  }

  /** A step line starts with a digit, so it is never a heading. */
  lemma StepLineIsNoHeading(k: nat, step: string)
    ensures !StartsWith(StepLine(k, step), "### ")
  {
    var d := NatToString(k);
    assert StepLine(k, step)[0] == d[0];
  }

  /** A description that does not start like a heading is no heading once
      its newline is added. */
  lemma DescriptionIsNoHeading(d: string)
    requires !StartsWith(d, "### ")
    ensures !StartsWith(d + "\n", "### ")
  {
    if |d| >= 4 {
      assert (d + "\n")[..4] == d[..4];
    } else if |d| == 3 {
      assert (d + "\n")[3] == '\n';
    }
  }

  /** A workflow's lines hold exactly one heading, its own. */
  lemma BlockHeadings(i: nat, w: Workflow)
    requires !StartsWith(w.description, "### ")
    ensures Headings(Block(i, w)) == [Heading(i, w)]
  {
    var h := [Heading(i, w)];
    assert Heading(i, w)[..4] == "### ";
    assert Headings(h) == h by {
      assert h[..0] == [];
    }
    DescriptionIsNoHeading(w.description);
    NoHeadings(DescriptionLines(w));
    StepsHaveNoHeading(w);
    HeadingsAppend(h, DescriptionLines(w));
    HeadingsAppend(h + DescriptionLines(w), StepsLines(w));
  }

  lemma StepsHaveNoHeading(w: Workflow)
    ensures Headings(StepsLines(w)) == []
  {
    if |w.steps| > 0 {
      var steps := NumberedSteps(Take(w.steps, 5));
      NumberedStepsHaveNoHeading(Take(w.steps, 5));
      assert "**Steps:**"[0] == '*';
      NoHeadings(["**Steps:**"]);
      NoHeadings([""]);
      HeadingsAppend(["**Steps:**"], steps);
      HeadingsAppend(["**Steps:**"] + steps, [""]);
    }
  }

  lemma {:induction false} NumberedStepsHaveNoHeading(steps: seq<string>)
    decreases |steps|
    ensures Headings(NumberedSteps(steps)) == []
  {
    if |steps| > 0 {
      var n := |steps| - 1;
      NumberedStepsHaveNoHeading(steps[..n]);
      StepLineIsNoHeading(n + 1, steps[n]);
      NoHeadings([StepLine(n + 1, steps[n])]);
      HeadingsAppend(NumberedSteps(steps[..n]), [StepLine(n + 1, steps[n])]);
    }
  }

  /** One more workflow adds its lines at the end. */
  lemma ItemsSnoc(ws: seq<Workflow>, i: nat)
    requires i < |ws|
    ensures WorkflowItems(ws[..i + 1]) == WorkflowItems(ws[..i]) + Block(i + 1, ws[i])
  {
    assert ws[..i + 1][..i] == ws[..i];
  }

  /** The headings of the workflows, numbered from 1 */
  function NumberedHeadings(ws: seq<Workflow>): seq<string>
    decreases |ws|
  {
    if |ws| == 0 then [] else NumberedHeadings(ws[..|ws| - 1]) + [Heading(|ws|, ws[|ws| - 1])]
  }

  lemma {:induction false} NumberedHeadingsAt(ws: seq<Workflow>)
    decreases |ws|
    ensures |NumberedHeadings(ws)| == |ws|
    ensures forall k :: 0 <= k < |ws| ==> NumberedHeadings(ws)[k] == Heading(k + 1, ws[k])
  {
    if |ws| > 0 {
      NumberedHeadingsAt(ws[..|ws| - 1]);
    }
  }

  /** No description starts like a heading. */
  predicate PlainDescriptions(ws: seq<Workflow>)
  {
    forall k :: 0 <= k < |ws| ==> !StartsWith(ws[k].description, "### ")
  }

  /** Every workflow gets one heading, numbered from 1 in input order, and
      no other line is a heading, provided no description itself starts
      like a heading. */
  lemma {:induction false} HeadingsNumbered(ws: seq<Workflow>)
    requires PlainDescriptions(ws)
    decreases |ws|
    ensures Headings(WorkflowItems(ws)) == NumberedHeadings(ws)
  {
    if |ws| > 0 {
      var n := |ws| - 1;
      var init := ws[..n];
      assert PlainDescriptions(init) by {
        forall k | 0 <= k < n
          ensures !StartsWith(init[k].description, "### ")
        {
          assert init[k] == ws[k];
        }
      }
      HeadingsNumbered(init);
      BlockHeadings(n + 1, ws[n]);
      HeadingsAppend(WorkflowItems(init), Block(n + 1, ws[n]));
    }
  }

  /** The section shows the headings of the first five workflows (at most
      five), numbered from 1. */
  lemma SectionHeadings(ws: seq<Workflow>)
    requires PlainDescriptions(ws)
    ensures |Headings(WorkflowItems(Take(ws, 5)))| == if |ws| < 5 then |ws| else 5
    ensures forall k :: 0 <= k < |Take(ws, 5)| ==>
      Headings(WorkflowItems(Take(ws, 5)))[k] == Heading(k + 1, ws[k])
  {
    var t := Take(ws, 5);
    assert PlainDescriptions(t) by {
      forall k | 0 <= k < |t|
        ensures !StartsWith(t[k].description, "### ")
      {
        assert t[k] == ws[k];
      }
    }
    HeadingsNumbered(t);
    NumberedHeadingsAt(t);
  }

  /** The fallback text is used exactly when there are no workflows. */
  lemma WorkflowFallbackIff(ws: seq<Workflow>)
    ensures WorkflowList(ws) == NoWorkflowsText <==> |ws| == 0
  {
    if |ws| > 0 {
      var t := Take(ws, 5);
      var items := WorkflowItems(t);
      assert t[..|t| - 1] + [t[|t| - 1]] == t;
      ItemsStart(t);
      assert |items| > 0 && items[0][0] == '#';
      JoinFirstChar(items, "\n");
      assert WorkflowList(ws)[0] != NoWorkflowsText[0];
    }
  }

  /** The lines of workflows start with the first workflow's heading. */
  lemma {:induction false} ItemsStart(ws: seq<Workflow>)
    requires |ws| > 0
    decreases |ws|
    ensures |WorkflowItems(ws)| > 0 && WorkflowItems(ws)[0] == Heading(1, ws[0])
  {
    var n := |ws| - 1;
    if n > 0 {
      ItemsStart(ws[..n]);
    } else {
      assert WorkflowItems(ws[..n]) == [];
    }
  }

  /** A join starts with the first piece's first character. */
  lemma JoinFirstChar(parts: seq<string>, sep: string)
    requires |parts| > 0 && |parts[0]| > 0
    ensures |Join(parts, sep)| > 0 && Join(parts, sep)[0] == parts[0][0]
  {
  }

  // ---------------------------------------------------------------------
  // The templates reference
  // ---------------------------------------------------------------------

  /** The fields of a template the reference reads: a missing name or type
      is `None`, a missing language the empty text */
  datatype TemplateInfo = TemplateInfo(name: Option<string>, kind: Option<string>, language: string)

  /** The text used when there is no template data, or it has no list */
  const NoTemplateData := "Templates " + "available in `templates/` directory."
  /** The text used when the template list is empty */
  const NoTemplatesListed := "Check " + "`templates/` directory."
  const TemplatesUsage := "\n\n**Usage:**\n1. Copy " + "template from " + "`templates/`\n2. Customize " + "placeholders (marked with " + "`${}`)\n3. Follow inline " + "comments for guidance\n\nSee " + "`templates/*/USAGE.md` for " + "detailed documentation."

  function TemplateItem(t: TemplateInfo): string
  {
    "- **" + (if t.name.Some? then t.name.value else "template") + "** ("
    + (if t.kind.Some? then t.kind.value else "basic") + "): " + t.language + " template"
  }

  /** One item per template, in order */
  function TemplateItems(ts: seq<TemplateInfo>): seq<string>
    decreases |ts|
  {
    if |ts| == 0 then [] else TemplateItems(ts[..|ts| - 1]) + [TemplateItem(ts[|ts| - 1])]
  }

  /** The template list: `None` stands for missing template data (None,
      an empty dictionary, or one without a "templates" entry) */
  function TemplateList(templates: Option<seq<TemplateInfo>>): string
  {
    if templates.None? then NoTemplateData
    else
      var items := TemplateItems(Take(templates.value, 10));
      if |items| > 0 then Join(items, "\n") else NoTemplatesListed
  }

  /** `TEMPLATES_REF_TEMPLATE` filled in by `generate_templates_reference` */
  function TemplatesReference(templates: Option<seq<TemplateInfo>>): string
  {
    "## Available Templates\n\n" + TemplateList(templates) + TemplatesUsage
  }

  /** `generate_templates_reference`: the items of the first ten templates
      are collected one at a time */
  method GenerateTemplatesReference(templates: Option<seq<TemplateInfo>>) returns (text: string)
    ensures text == TemplatesReference(templates)
  {
    var list: string;
    if templates.None? {
      list := NoTemplateData;
    } else {
      var ts := templates.value;
      var n := if |ts| < 10 then |ts| else 10;
      var items: seq<string> := [];
      var i := 0;
      while i < n
        invariant 0 <= i <= n
        invariant items == TemplateItems(ts[..i])
      {
        assert ts[..i + 1][..i] == ts[..i];
        items := items + [TemplateItem(ts[i])];
        i := i + 1;
      }
      assert Take(ts, 10) == ts[..n];
      list := if |items| > 0 then Join(items, "\n") else NoTemplatesListed;
    }
    text := "## Available Templates\n\n" + list + TemplatesUsage;
  }

  lemma {:induction false} TemplateItemsAt(ts: seq<TemplateInfo>)
    decreases |ts|
    ensures |TemplateItems(ts)| == |ts|
    ensures forall k :: 0 <= k < |ts| ==> TemplateItems(ts)[k] == TemplateItem(ts[k])
  {
    if |ts| > 0 {
      TemplateItemsAt(ts[..|ts| - 1]);
    }
  }

  /** A template whose fields are all on one line */
  predicate OneLine(t: TemplateInfo)
  {
    (t.name.Some? ==> '\n' !in t.name.value)
    && (t.kind.Some? ==> '\n' !in t.kind.value)
    && '\n' !in t.language
  }

  /** With one-line fields, the list reads back line by line as one item
      per template for the first ten templates: template `k` is line `k`. */
  lemma TemplateLines(ts: seq<TemplateInfo>)
    requires |ts| > 0
    requires forall k :: 0 <= k < |ts| ==> OneLine(ts[k])
    ensures var lines := Split(TemplateList(Some(ts)), '\n');
      |lines| == (if |ts| < 10 then |ts| else 10)
      && forall k :: 0 <= k < |lines| ==> lines[k] == TemplateItem(ts[k])
  {
    var t := Take(ts, 10);
    var items := TemplateItems(t);
    TemplateItemsAt(t);
    forall k | 0 <= k < |items|
      ensures '\n' !in items[k]
    {
      assert t[k] == ts[k];
      OneLineItem(ts[k]);
    }
    SplitJoin(items, '\n');
    assert TemplateList(Some(ts)) == Join(items, "\n");
  }

  lemma OneLineItem(t: TemplateInfo)
    requires OneLine(t)
    ensures '\n' !in TemplateItem(t)
  {
  }

  /** Each fallback text is used exactly in its case: no template data,
      or an empty template list. */
  lemma TemplateFallbacks(templates: Option<seq<TemplateInfo>>)
    ensures TemplateList(templates) == NoTemplateData <==> templates.None?
    ensures TemplateList(templates) == NoTemplatesListed <==> templates.Some? && |templates.value| == 0
  {
    assert NoTemplateData[0] == 'T' && NoTemplatesListed[0] == 'C';
    if templates.Some? && |templates.value| > 0 {
      var t := Take(templates.value, 10);
      var items := TemplateItems(t);
      TemplateItemsAt(t);
      assert items[0][0] == '-';
      JoinFirstChar(items, "\n");
      assert TemplateList(templates)[0] == '-';
    }
  }

  // ---------------------------------------------------------------------
  // The guardrails, troubleshooting and see-also sections
  // ---------------------------------------------------------------------

  const GuardrailsStart := "## Guardrails & " + "Validation\n\nThis skill " + "includes multi-layered " + "guardrails to prevent common " + "pitfalls:\n\n**Layer 1: " + "Inline Warnings**\nTemplates " + "include `\U{26A0}\U{FE0F} " + "PITFALL` comments at critical " + "points.\n\n**Layer 2: " + "Pre-flight Validation**\nRun " + "before executing: " + "`./scripts/validate_prereqs.sh`\n\n**Layer " + "3: Checklists**\nManual " + "validation: " + "`checklists/pre-flight.md`\n\n**Layer " + "4: Setup Automation**\nGuided " + "setup: " + "`./scripts/setup.sh`\n\n**Common " + "Pitfalls:** "
  const GuardrailsEnd := " identified and documented"
  const TroubleshootingStart := "## Troubleshooting\n\nIf you " + "encounter issues:\n\n1. **Run " + "automated validation**: " + "`./scripts/validate_prereqs.sh`\n2. " + "**Check pre-flight " + "checklist**: " + "`checklists/pre-flight.md`\n3. " + "**Consult troubleshooting " + "guide**: " + "`docs/troubleshooting.md`\n4. " + "**Review examples**: " + "`docs/examples.md`\n\n**Decision " + "Trees:** "
  const TroubleshootingEnd := " troubleshooting decision " + "trees available in " + "`docs/troubleshooting.md`"
  const SeeAlso := "## See Also\n\n- **Quick " + "Reference**: " + "`docs/quick-reference.md` - " + "Cheatsheet for common " + "operations\n- **Examples**: " + "`docs/examples.md` - " + "Practical usage examples\n- " + "**Configuration**: " + "`templates/config-template.yaml` " + "- Configuration template\n- " + "**Research Log**: " + "`RESEARCH_LOG.md` - " + "Documentation analysis and " + "decisions"

  /** `generate_guardrails_reference`: the pitfall count is the number of
      pitfalls (the guardrail data is not read) */
  function GuardrailsReference(pitfallCount: nat): string
  {
    GuardrailsStart + NatToString(pitfallCount) + GuardrailsEnd
  }

  /** The number of decision trees: one per pitfall, at most ten */
  function TreeCount(pitfallCount: nat): (r: nat)
    ensures r <= 10 && r <= pitfallCount
    ensures r == pitfallCount || r == 10
  {
    if pitfallCount < 10 then pitfallCount else 10
  }

  /** `generate_troubleshooting_reference` */
  function TroubleshootingReference(pitfallCount: nat): string
  {
    TroubleshootingStart + NatToString(TreeCount(pitfallCount)) + TroubleshootingEnd
  }

  /** Texts that agree around a middle part agree on the middle part. */
  lemma CancelAround(a: string, x: string, y: string, b: string)
    requires a + x + b == a + y + b
    ensures x == y
  {
    var s := a + x + b;
    assert |x| == |y|;
    assert x == s[|a|..|a| + |x|];
    assert y == (a + y + b)[|a|..|a| + |y|];
  }

  /** Two guardrail sections are the same exactly when the pitfall counts
      are: the count is read back from the text. */
  lemma GuardrailsCountIff(p: nat, q: nat)
    ensures GuardrailsReference(p) == GuardrailsReference(q) <==> p == q
  {
    if GuardrailsReference(p) == GuardrailsReference(q) {
      CancelAround(GuardrailsStart, NatToString(p), NatToString(q), GuardrailsEnd);
      NatToStringInjective(p, q);
    }
  }

  /** Two troubleshooting sections are the same exactly when the pitfall
      counts agree up to ten: every count from ten on shows ten trees. */
  lemma TreeCountIff(p: nat, q: nat)
    ensures TroubleshootingReference(p) == TroubleshootingReference(q) <==> TreeCount(p) == TreeCount(q)
  {
    if TroubleshootingReference(p) == TroubleshootingReference(q) {
      CancelAround(TroubleshootingStart, NatToString(TreeCount(p)), NatToString(TreeCount(q)), TroubleshootingEnd);
      NatToStringInjective(TreeCount(p), TreeCount(q));
    }
  }

  // ---------------------------------------------------------------------
  // The whole SKILL.md
  // ---------------------------------------------------------------------

  /** The fields of the analysis the generator reads: a missing tool name
      or type is `None`, and only the number of pitfalls matters */
  datatype Analysis = Analysis(
    toolName: Option<string>,
    toolType: Option<string>,
    workflows: seq<Workflow>,
    examples: seq<ExampleInfo>,
    pitfallCount: nat)

  /** The tool name, "Tool" when the analysis has none */
  function ToolName(a: Analysis): string
  {
    if a.toolName.Some? then a.toolName.value else "Tool"
  }

  /** The tool type, "unknown" when the analysis has none */
  function ToolType(a: Analysis): string
  {
    if a.toolType.Some? then a.toolType.value else "unknown"
  }

  /** The sections `generate_skill_md` fills in */
  function SkillOf(a: Analysis, templates: Option<seq<TemplateInfo>>): SkillMd
  {
    SkillMd(
      GenerateFrontmatter(ToolName(a), ToolType(a), |a.workflows|, a.pitfallCount),
      Overview(ToolName(a), ToolType(a), |a.workflows| > 0),
      QuickStart(a.examples),
      WorkflowsSection(a.workflows),
      TemplatesReference(templates),
      GuardrailsReference(a.pitfallCount),
      TroubleshootingReference(a.pitfallCount),
      SeeAlso)
  }

  /** `generate_skill_md`: each section is generated in turn, the
      workflows and the templates reference by their loops */
  method GenerateSkillMd(a: Analysis, templates: Option<seq<TemplateInfo>>) returns (skill: SkillMd)
    ensures skill == SkillOf(a, templates)
  {
    var toolType := ToolType(a);
    var toolName := ToolName(a);
    var frontmatter := GenerateFrontmatter(toolName, toolType, |a.workflows|, a.pitfallCount);
    var overview := Overview(toolName, toolType, |a.workflows| > 0);
    var quickStart := QuickStart(a.examples);
    var workflows := GenerateWorkflowsSection(a.workflows);
    var templatesRef := GenerateTemplatesReference(templates);
    var guardrailsRef := GuardrailsReference(a.pitfallCount);
    var troubleshootingRef := TroubleshootingReference(a.pitfallCount);
    skill := SkillMd(frontmatter, overview, quickStart, workflows, templatesRef,
      guardrailsRef, troubleshootingRef, SeeAlso);
  }

  /** A SKILL.md whose frontmatter is written from a name and a
      description is that frontmatter's text, a line break and the other
      sections. */
  lemma FrontmatterSplits(sk: SkillMd, name: string, description: string)
    requires sk.frontmatter == Frontmatter(name, description)
    ensures Compile(sk) == "---\n" + QuickValidate.NameAndDescription(name, description) + "\n---\n"
      + Join(Sections(sk)[1..], "\n")
  {
    CompileSplits(sk);
  }

  /** Whatever the other sections hold, a SKILL.md whose frontmatter is
      written from a name and a description starts with the line "---". */
  lemma FrontmatterFirstLine(sk: SkillMd, name: string, description: string)
    requires sk.frontmatter == Frontmatter(name, description)
    ensures Split(Compile(sk), '\n')[0] == "---"
  {
    var rest := QuickValidate.NameAndDescription(name, description) + "\n---\n" + Join(Sections(sk)[1..], "\n");
    FrontmatterSplits(sk, name, description);
    assert Compile(sk) == "---" + ['\n'] + rest;
    SplitAppend("---", rest, '\n');
    SplitNoSep("---", '\n');
  }

  /** A tool name made of letter-and-digit runs joined by single spaces,
      underscores or hyphens gives a skill name and a description that
      a frontmatter can be written with. */
  lemma GeneratedNameWritable(toolName: string, toolType: string, workflowCount: nat, pitfallCount: nat)
    requires HyphenatesCleanly(toolName)
    ensures QuickValidate.Writable(SkillName(toolName), Description(toolName, toolType, workflowCount, pitfallCount))
  {
    SkillNameValidIff(toolName);
    assert All(toolName, IsPlainChar);
    DescriptionIsPlain(toolName, toolType, workflowCount, pitfallCount);
  }

  /** Whatever the other sections hold, a SKILL.md whose frontmatter is
      written from a writable name and description passes the quick
      validator. */
  lemma FrontmatterPasses(sk: SkillMd, name: string, description: string)
    requires sk.frontmatter == Frontmatter(name, description)
    requires QuickValidate.Writable(name, description)
    ensures QuickValidate.QuickCheck(Some(Compile(sk))) == (true, QuickValidate.Valid)
  {
    FrontmatterSplits(sk, name, description);
    QuickValidate.WrittenSkillPasses(name, description, Join(Sections(sk)[1..], "\n"));
  }

  /** A SKILL.md generated for a tool whose name hyphenates cleanly passes
      the quick validator, whatever else the analysis and the templates
      hold. */
  lemma GeneratedSkillPasses(a: Analysis, templates: Option<seq<TemplateInfo>>)
    requires HyphenatesCleanly(ToolName(a))
    ensures QuickValidate.QuickCheck(Some(Compile(SkillOf(a, templates)))) == (true, QuickValidate.Valid)
  {
    var d := Description(ToolName(a), ToolType(a), |a.workflows|, a.pitfallCount);
    GeneratedNameWritable(ToolName(a), ToolType(a), |a.workflows|, a.pitfallCount);
    FrontmatterPasses(SkillOf(a, templates), SkillName(ToolName(a)), d);
  }
}
