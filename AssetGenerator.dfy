/** The support-asset generator: a troubleshooting guide with one decision
    tree per pitfall, a quick-reference cheatsheet, a configuration file
    template and an examples document, each built from the analysis
    record by fixed keyword rules and caps. The clock value each asset
    carries is a parameter. */
module AssetGenerator {
  import opened Text
  import opened Wrappers

  // ---------------------------------------------------------------------
  // Analysis records, as the generator reads them
  // ---------------------------------------------------------------------

  /** A pitfall: missing fields are the empty text, and "medium" for the
      severity (which no rule reads) */
  datatype Pitfall = Pitfall(description: string, severity: string, context: string)

  /** A code example: a missing title is `None`, a missing code, language
      or context is the empty text, a missing type is `None` */
  datatype Example = Example(
    title: Option<string>,
    code: string,
    language: string,
    exampleType: Option<string>,
    context: string)

  /** The code and language of an example attached to a workflow */
  datatype Snippet = Snippet(code: string, language: string)

  /** A workflow: a missing name is `None` */
  datatype Workflow = Workflow(
    name: Option<string>,
    description: string,
    steps: seq<string>,
    examples: seq<Snippet>)

  /** `keyword in text.lower()` */
  predicate Mentions(text: string, keyword: string)
  {
    Contains(Lower(text), keyword)
  }

  // ---------------------------------------------------------------------
  // The problem line of a decision tree
  // ---------------------------------------------------------------------

  /** The first piece of a split ends at the first separator. */
  lemma {:induction false} SplitFirstPiece(s: string, c: char)
    requires c in s
    decreases |s|
    ensures |Split(s, c)[0]| < |s| && s[|Split(s, c)[0]|] == c
  {
    if s[0] != c {
      assert c in s[1..];
      SplitFirstPiece(s[1..], c);
    }
  }

  /** The description up to its first '.', or all of it when it has none */
  function Problem(description: string): string
  {
    if '.' in description then Split(description, '.')[0] else description
  }

  /** The problem is the longest '.'-free start of the description. */
  lemma ProblemIsFirstSentence(description: string)
    ensures StartsWith(description, Problem(description))
    ensures '.' !in Problem(description)
    ensures '.' in description ==>
      |Problem(description)| < |description| && description[|Problem(description)|] == '.'
    ensures '.' !in description ==> Problem(description) == description
  {
    if '.' in description {
      SplitPieceIn(description, '.', 0);
      SplitFirstPiece(description, '.');
    }
  }

  // ---------------------------------------------------------------------
  // Symptoms
  // ---------------------------------------------------------------------

  const ErrorSymptom := "- Error message " + "appears in output"
  const FailSymptom := "- Operation fails " + "to complete"
  const NotFoundSymptom := "- Command or resource " + "not found"
  const PermissionSymptom := "- Permission denied " + "errors"
  const NoSymptoms := "- See error message " + "for details"

  /** The number of the four symptom keywords a description mentions */
  function SymptomKeywords(description: string): nat
  {
    (if Mentions(description, "error") then 1 else 0)
    + (if Mentions(description, "fail") then 1 else 0)
    + (if Mentions(description, "not found") then 1 else 0)
    + (if Mentions(description, "permission") then 1 else 0)
  }

  /** `_generate_symptoms`' list: one line per keyword mentioned, in the
      order error, fail, not found, permission, then one for a context,
      which comes last; every line is a fixed symptom or the context. */
  function SymptomLines(description: string, context: string): (lines: seq<string>)
    ensures |lines| == SymptomKeywords(description) + (if context != "" then 1 else 0)
    ensures Mentions(description, "error") ==> ErrorSymptom in lines
    ensures Mentions(description, "fail") ==> FailSymptom in lines
    ensures Mentions(description, "not found") ==> NotFoundSymptom in lines
    ensures Mentions(description, "permission") ==> PermissionSymptom in lines
    ensures context != "" ==> lines[|lines| - 1] == "- " + context
    ensures forall l :: l in lines ==>
      l in [ErrorSymptom, FailSymptom, NotFoundSymptom, PermissionSymptom, "- " + context]
  {
    (if Mentions(description, "error") then [ErrorSymptom] else [])
    + (if Mentions(description, "fail") then [FailSymptom] else [])
    + (if Mentions(description, "not found") then [NotFoundSymptom] else [])
    + (if Mentions(description, "permission") then [PermissionSymptom] else [])
    + (if context != "" then ["- " + context] else [])
  }

  /** `_generate_symptoms`: the lines, or the default line when no keyword
      is mentioned and there is no context */
  function Symptoms(description: string, context: string): (r: string)
    ensures SymptomKeywords(description) == 0 && context == "" ==> r == NoSymptoms
    ensures SymptomKeywords(description) > 0 || context != "" ==>
      r == Join(SymptomLines(description, context), "\n")
  {
    var lines := SymptomLines(description, context);
    if |lines| > 0 then Join(lines, "\n") else NoSymptoms
  }
  // ---------------------------------------------------------------------
  // Diagnosis steps
  // ---------------------------------------------------------------------

  /** The branch `_generate_diagnosis_steps` takes */
  datatype Diagnosis = CheckInstallation | CheckPermissions | CheckCredentials | ReviewError

  /** The first matching rule, in the order not found, permission,
      api or key, anything else */
  function DiagnosisOf(description: string): (k: Diagnosis)
    ensures k == CheckInstallation <==> Mentions(description, "not found")
    ensures k == CheckPermissions <==>
      !Mentions(description, "not found") && Mentions(description, "permission")
    ensures k == CheckCredentials <==>
      !Mentions(description, "not found") && !Mentions(description, "permission")
      && (Mentions(description, "api") || Mentions(description, "key"))
  {
    if Mentions(description, "not found") then CheckInstallation
    else if Mentions(description, "permission") then CheckPermissions
    else if Mentions(description, "api") || Mentions(description, "key") then CheckCredentials
    else ReviewError
  }

  /** The first step of each branch, which names it */
  function FirstStep(k: Diagnosis): string
  {
    match k
    case CheckInstallation => "1. **Check " + "installation**: Verify the " + "tool is installed"
    case CheckPermissions => "1. **Check " + "file permissions**: Verify " + "read/write access"
    case CheckCredentials => "1. **Check " + "credentials**: Verify API " + "key is set"
    case ReviewError => "1. **Review " + "error message**: Check the " + "full error output"
  }

  /** The branches' first steps differ at character 5 or 11. */
  lemma FirstStepsDiffer(k1: Diagnosis, k2: Diagnosis)
    requires k1 != k2
    ensures |FirstStep(k1)| > 11 && |FirstStep(k2)| > 11
    ensures FirstStep(k1)[5] != FirstStep(k2)[5] || FirstStep(k1)[11] != FirstStep(k2)[11]
  {
  }

  /** The steps of each branch, its first step first */
  function DiagnosisLines(k: Diagnosis): (lines: seq<string>)
    ensures |lines| >= 3 && lines[0] == FirstStep(k)
  {
    [FirstStep(k)]
    + match k
      case CheckInstallation =>
        ["   ```bash\n   which TOOL_NAME\n   ```",
         ("2. **Check PATH**: Ensure " + "installation directory is in " + "PATH"),
         "   ```bash\n   echo $PATH\n   ```"]
      case CheckPermissions =>
        ["   ```bash\n   ls -la FILE_PATH\n   ```",
         ("2. **Check ownership**: " + "Ensure correct file ownership"),
         "   ```bash\n   stat FILE_PATH\n   ```"]
      case CheckCredentials =>
        ["   ```bash\n   echo $API_KEY\n   ```",
         ("2. **Test connectivity**: " + "Verify network access"),
         ("   ```bash\n   curl -I " + "https://api.example.com\n   " + "```")]
      case ReviewError =>
        [("2. **Check prerequisites**: " + "Run validation script"),
         ("   ```bash\n   " + "./scripts/validate_prereqs.sh\n " + "  ```")]
  }

  /** A join starts with its first piece followed by the separator. */
  lemma JoinStartsWith(parts: seq<string>, sep: string)
    requires |parts| >= 2
    ensures StartsWith(Join(parts, sep), parts[0] + sep)
  {
    assert Join(parts, sep) == parts[0] + sep + Join(parts[1..], sep);
  }

  /** `_generate_diagnosis_steps` (its fallback for an empty list is never
      taken: every branch has steps) */
  function DiagnosisSteps(description: string, severity: string): string
  {
    Join(DiagnosisLines(DiagnosisOf(description)), "\n")
  }

  /** The steps open with their branch's first step, so they are never
      empty and (by FirstStepsDiffer) no two branches give the same text. */
  lemma DiagnosisOpensWith(description: string, severity: string)
    ensures StartsWith(DiagnosisSteps(description, severity), FirstStep(DiagnosisOf(description)) + "\n")
  {
    JoinStartsWith(DiagnosisLines(DiagnosisOf(description)), "\n");
  }

  // ---------------------------------------------------------------------
  // Solutions and prevention
  // ---------------------------------------------------------------------

  const InstallFix := "- **Install missing " + "dependency**: Follow " + "installation instructions"
  const UpdateFix := "- **Update package manager**: " + "Ensure package index is " + "current"
  const ConfigFix := "- **Check configuration**: " + "Review config file syntax"
  const TemplateFix := "- **Use template**: Copy from " + "`templates/config-template.yaml`"
  const PermissionFix := "- **Fix permissions**: `chmod " + "644 FILE_PATH`"
  const OwnershipFix := "- **Fix ownership**: `chown " + "USER:GROUP FILE_PATH`"
  const ConsultFix := "- **Consult documentation**: " + "Review official docs for " + "guidance"
  const ExamplesFix := "- **Check examples**: See " + "`docs/examples.md` for " + "working examples"

  /** The number of the solution keywords a description mentions */
  function SolutionKeywords(description: string): nat
  {
    (if Mentions(description, "install") then 1 else 0)
    + (if Mentions(description, "config") then 1 else 0)
    + (if Mentions(description, "permission") then 1 else 0)
  }

  /** `_generate_solutions`' list: two lines per keyword mentioned among
      install, config and permission, or the two fallback lines when none
      is */
  function SolutionLines(description: string): (lines: seq<string>)
    ensures |lines| == 2 * (if SolutionKeywords(description) == 0 then 1 else SolutionKeywords(description))
    ensures InstallFix in lines <==> Mentions(description, "install")
    ensures ConfigFix in lines <==> Mentions(description, "config")
    ensures PermissionFix in lines <==> Mentions(description, "permission")
    ensures SolutionKeywords(description) == 0 ==> lines == [ConsultFix, ExamplesFix]
  {
    var matched :=
      (if Mentions(description, "install") then [InstallFix, UpdateFix] else [])
      + (if Mentions(description, "config") then [ConfigFix, TemplateFix] else [])
      + (if Mentions(description, "permission") then [PermissionFix, OwnershipFix] else []);
    if |matched| > 0 then matched else [ConsultFix, ExamplesFix]
  }

  /** The fallback lines appear exactly when no keyword is mentioned. */
  lemma SolutionFallbackIff(description: string)
    ensures ConsultFix in SolutionLines(description) <==> SolutionKeywords(description) == 0
  {
    var lines := SolutionLines(description);
    assert ConsultFix[4] == 'C' && ConsultFix[5] == 'o';
    assert InstallFix[4] == 'I' && UpdateFix[4] == 'U' && TemplateFix[4] == 'U';
    assert ConfigFix[5] == 'h' && PermissionFix[4] == 'F' && OwnershipFix[4] == 'F';
    if SolutionKeywords(description) > 0 {
      assert forall l :: l in lines ==> l in [InstallFix, UpdateFix, ConfigFix, TemplateFix, PermissionFix, OwnershipFix];
    }
  }

  /** `_generate_solutions` */
  function Solutions(description: string, severity: string): string
  {
    Join(SolutionLines(description), "\n")
  }

  const ValidateTip := "- Run " + "`./scripts/validate_prereqs.sh` " + "before starting"
  const ChecklistTip := "- Follow the pre-flight " + "checklist: " + "`checklists/pre-flight.md`"
  const ConfigTip := "- Use provided configuration templates"
  const SetupTip := "- Use `./scripts/setup.sh` " + "for automated setup"

  /** `_generate_prevention`'s list: the two fixed tips first, then one
      for config and one for install when mentioned */
  function PreventionLines(description: string): (lines: seq<string>)
    ensures |lines| >= 2 && lines[..2] == [ValidateTip, ChecklistTip]
    ensures |lines| == 2 + (if Mentions(description, "config") then 1 else 0)
      + (if Mentions(description, "install") then 1 else 0)
    ensures ConfigTip in lines <==> Mentions(description, "config")
    ensures SetupTip in lines <==> Mentions(description, "install")
  {
    [ValidateTip, ChecklistTip]
    + (if Mentions(description, "config") then [ConfigTip] else [])
    + (if Mentions(description, "install") then [SetupTip] else [])
  }

  /** `_generate_prevention` */
  function Prevention(description: string): string
  {
    Join(PreventionLines(description), "\n")
  }

  // ---------------------------------------------------------------------
  // The troubleshooting guide
  // ---------------------------------------------------------------------

  /** The opening of `DECISION_TREE_TEMPLATE`: the problem and the symptoms */
  function TreeHead(problem: string, symptoms: string): string
  {
    "\n## Problem: " + problem + "\n\n**Symptoms:**\n" + symptoms + "\n\n"
  }

  /** `DECISION_TREE_TEMPLATE` filled in */
  function TreeText(problem: string, symptoms: string, diagnosis: string, solutions: string, prevention: string): (tree: string)
    ensures StartsWith(tree, TreeHead(problem, symptoms))
  {
    var head := TreeHead(problem, symptoms);
    var tree := head + ("**Diagnosis Steps:**\n\n" + diagnosis
      + "\n\n**Common Solutions:**\n" + solutions
      + "\n\n**Prevention:**\n" + prevention + "\n");
    assert tree[..|head|] == head;
    tree
  }

  /** The decision tree of one pitfall */
  function DecisionTree(p: Pitfall): string
  {
    TreeText(Problem(p.description), Symptoms(p.description, p.context),
      DiagnosisSteps(p.description, p.severity), Solutions(p.description, p.severity),
      Prevention(p.description))
  }

  // The fixed parts of `TROUBLESHOOTING_TEMPLATE`
  const GuideQuickDiagnosis := ".\n\n## Quick " + "Diagnosis\n\nRun the " + "automated validation " + "first:\n```bash\n./scripts/validate_prereqs.sh\n```\n\nIf " + "validation passes but you " + "still have issues, use the " + "decision trees " + "below.\n\n---\n\n"
  const GuideGeneralSteps := "\n\n---\n\n## General " + "Troubleshooting Steps\n\n1. " + "**Check prerequisites**: " + "Ensure all required " + "tools/dependencies are " + "installed\n2. **Verify " + "configuration**: Check " + "environment variables and " + "config files\n3. **Review " + "logs**: Look for error " + "messages in output\n4. " + "**Consult documentation**: " + "Review the official "
  const GuideHelp := " documentation\n5. **Seek " + "help**: If stuck, consult the " + "community or support " + "channels\n\n## Getting " + "Help\n\n- Check the official " + "documentation\n- Search for " + "similar issues in community " + "forums\n- Review the examples " + "in `docs/examples.md`\n- Run " + "`./scripts/validate_prereqs.sh` " + "for diagnostic information\n"

  /** `TROUBLESHOOTING_TEMPLATE` filled in */
  function TroubleshootingGuide(toolName: string, generated: string, trees: seq<string>): string
  {
    "# Troubleshooting Guide: " + toolName + "\n\n**Generated:** " + generated
    + ("\n\nThis guide helps diagnose " + "and fix common issues with ") + toolName
    + GuideQuickDiagnosis
    + Join(trees, "\n")
    + GuideGeneralSteps
    + toolName
    + GuideHelp
  }

  /** `generate_troubleshooting_tree`: one decision tree for each of the
      first ten pitfalls, in order */
  method GenerateTroubleshootingTree(toolName: string, generated: string, pitfalls: seq<Pitfall>)
    returns (guide: string)
    ensures guide == TroubleshootingGuide(toolName, generated, MapSeq(DecisionTree, Take(pitfalls, 10)))
  {
    var trees := BuildTrees(Take(pitfalls, 10));
    guide := TroubleshootingGuide(toolName, generated, trees);
  }

  /** The pitfall loop: one decision tree per pitfall, in order */
  method BuildTrees(top: seq<Pitfall>) returns (trees: seq<string>)
    ensures trees == MapSeq(DecisionTree, top)
  {
    trees := [];
    for i := 0 to |top|
      invariant trees == MapSeq(DecisionTree, top[..i])
    {
      var tree := BuildTree(top[i]);
      MapSeqPrefix(DecisionTree, top, i);
      trees := trees + [tree];
    }
    assert top[..|top|] == top;
  }

  /** The body of the pitfall loop: the parts of one tree, then the tree */
  method BuildTree(p: Pitfall) returns (tree: string)
    ensures tree == DecisionTree(p)
  {
    var problem := if '.' in p.description then Split(p.description, '.')[0] else p.description;
    var symptoms := Symptoms(p.description, p.context);
    var diagnosis := DiagnosisSteps(p.description, p.severity);
    var solutions := Solutions(p.description, p.severity);
    var prevention := Prevention(p.description);
    tree := TreeText(problem, symptoms, diagnosis, solutions, prevention);
  }

  /** The guide holds one tree for each of the first ten pitfalls: at
      most ten, each opening with its pitfall's first sentence and its
      symptoms. */
  lemma GuideTrees(pitfalls: seq<Pitfall>, k: nat)
    requires k < |MapSeq(DecisionTree, Take(pitfalls, 10))|
    ensures |MapSeq(DecisionTree, Take(pitfalls, 10))| == if |pitfalls| < 10 then |pitfalls| else 10
    ensures k < |pitfalls|
    ensures var d := pitfalls[k].description;
      StartsWith(MapSeq(DecisionTree, Take(pitfalls, 10))[k], TreeHead(Problem(d), Symptoms(d, pitfalls[k].context)))
  {
    MapSeqAt(DecisionTree, Take(pitfalls, 10), k);
    assert Take(pitfalls, 10)[k] == pitfalls[k];
  }

  // ---------------------------------------------------------------------
  // Command examples
  // ---------------------------------------------------------------------

  /** A stripped line that is shown as a command: not empty, not a comment */
  predicate IsCommand(line: string)
  {
    line != "" && !StartsWith(line, "#")
  }

  /** The index of the first line that is a command once stripped, or the
      number of lines when none is */
  function FirstCommandIndex(lines: seq<string>): (k: nat)
    ensures k <= |lines|
    ensures k < |lines| ==> IsCommand(Strip(lines[k]))
    ensures forall j :: 0 <= j < k ==> !IsCommand(Strip(lines[j]))
  {
    FirstCommandFrom(lines, 0)
  }

  /** The same search from line `i` on */
  function FirstCommandFrom(lines: seq<string>, i: nat): (k: nat)
    requires i <= |lines|
    decreases |lines| - i
    ensures i <= k <= |lines|
    ensures k < |lines| ==> IsCommand(Strip(lines[k]))
    ensures forall j :: i <= j < k ==> !IsCommand(Strip(lines[j]))
  {
    if i == |lines| || IsCommand(Strip(lines[i])) then i
    else FirstCommandFrom(lines, i + 1)
  }

  /** The first of the lines that is a command once stripped, stripped */
  function FirstCommand(lines: seq<string>): Option<string>
  {
    var k := FirstCommandIndex(lines);
    if k < |lines| then Some(Strip(lines[k])) else None
  }

  predicate IsShell(language: string)
  {
    language == "bash" || language == "shell" || language == "sh"
  }

  /** The title `_extract_commands` reads: the empty text when missing */
  function CommandTitle(e: Example): string
  {
    if e.title.Some? then e.title.value else ""
  }

  /** What one example contributes: for a shell example whose first three
      lines hold a command, the command fenced, then its title when it
      has one; nothing otherwise */
  function CommandEntries(e: Example): (entries: seq<string>)
    ensures |entries| <= 2
    ensures forall j :: 0 <= j < |entries| ==> IsEntry(entries[j])
    ensures |entries| > 0 <==> IsShell(e.language) && FirstCommand(Take(Split(e.code, '\n'), 3)).Some?
  {
    if !IsShell(e.language) then []
    else
      match FirstCommand(Take(Split(e.code, '\n'), 3))
      case None => []
      case Some(line) => FoundEntries(line, CommandTitle(e))
  }

  /** What a command found and the example's title contribute: the command
      fenced, then the title when there is one */
  function FoundEntries(command: string, title: string): (entries: seq<string>)
    ensures 1 <= |entries| <= 2
    ensures forall j :: 0 <= j < |entries| ==> IsEntry(entries[j])
  {
    [Fenced(command)] + (if title != "" then [Emphasized(title)] else [])
  }

  /** A command in a bash fence */
  function Fenced(line: string): string
  {
    "```bash\n" + line + "\n```"
  }

  /** A title in emphasis, on a line of its own */
  function Emphasized(title: string): string
  {
    "*" + title + "*\n"
  }

  const NoCommands := "No command examples available"

  /** An entry opens a fence or a title */
  predicate IsEntry(line: string)
  {
    |line| > 0 && (line[0] == '`' || line[0] == '*')
  }

  /** `_extract_commands`: the entries of the first five examples, or the
      placeholder when there are none */
  function ExtractedCommands(examples: seq<Example>): seq<string>
  {
    var commands := FlatMap(CommandEntries, Take(examples, 5));
    if |commands| > 0 then commands else [NoCommands]
  }

  /** At most two entries per example. */
  lemma {:induction false} CommandEntriesBound(examples: seq<Example>)
    decreases |examples|
    ensures |FlatMap(CommandEntries, examples)| <= 2 * |examples|
  {
    if |examples| > 0 {
      CommandEntriesBound(examples[..|examples| - 1]);
    }
  }

  /** The list is never empty and has at most ten entries; it is the
      placeholder exactly when none of the first five examples is a shell
      example with a command in its first three lines. */
  lemma ExtractedCommandsShape(examples: seq<Example>)
    ensures 1 <= |ExtractedCommands(examples)| <= 10
    ensures ExtractedCommands(examples) == [NoCommands] <==>
      forall k :: 0 <= k < |Take(examples, 5)| ==> CommandEntries(Take(examples, 5)[k]) == []
  {
    var top := Take(examples, 5);
    CommandEntriesBound(top);
    FlatMapEmpty(CommandEntries, top);
    var commands := FlatMap(CommandEntries, top);
    FlatMapAll(CommandEntries, top, IsEntry);
    if |commands| > 0 {
      assert IsEntry(commands[0]);
      assert NoCommands[0] == 'N';
    }
  }
  /** The inner loop of `_extract_commands`: the index of the first line
      that is a command once stripped, or `|lines|` when there is none */
  method FindCommand(lines: seq<string>) returns (k: nat)
    ensures k == FirstCommandIndex(lines)
  {
    k := 0;
    while k < |lines| && !IsCommand(Strip(lines[k]))
      invariant k <= |lines|
      invariant FirstCommandFrom(lines, k) == FirstCommandIndex(lines)
    {
      k := k + 1;
    }
  }

  /** The entries of a shell example whose `k`-th line is its first
      command, or none when `k` is past its first three lines */
  lemma FoundCommandEntries(e: Example, k: nat)
    requires IsShell(e.language)
    requires k == FirstCommandIndex(Take(Split(e.code, '\n'), 3))
    ensures k < |Take(Split(e.code, '\n'), 3)| ==>
      CommandEntries(e) == FoundEntries(Strip(Take(Split(e.code, '\n'), 3)[k]), CommandTitle(e))
    ensures k >= |Take(Split(e.code, '\n'), 3)| ==> CommandEntries(e) == []
  {
  }

  /** The body of `_extract_commands`' loop for one example: its first
      command among its first three lines, fenced, then its title */
  method ExampleCommands(e: Example) returns (entries: seq<string>)
    ensures entries == CommandEntries(e)
  {
    entries := [];
    if IsShell(e.language) {
      var lines := Take(Split(e.code, '\n'), 3);
      var k := FindCommand(lines);
      FoundCommandEntries(e, k);
      if k < |lines| {
        var line := Strip(lines[k]);
        var title := CommandTitle(e);
        entries := entries + [Fenced(line)];
        if title != "" {
          entries := entries + [Emphasized(title)];
        }
      }
    }
  }

  /** `_extract_commands`: each of the first five examples in a shell
      language contributes its first command among its first three lines */
  method ExtractCommands(examples: seq<Example>) returns (commands: seq<string>)
    ensures commands == ExtractedCommands(examples)
  {
    var top := Take(examples, 5);
    commands := [];
    for i := 0 to |top|
      invariant commands == FlatMap(CommandEntries, top[..i])
    {
      assert top[..i + 1][..i] == top[..i];
      var entries := ExampleCommands(top[i]);
      commands := commands + entries;
    }
    assert top[..|top|] == top;
    if |commands| == 0 {
      commands := [NoCommands];
    }
  }

  // ---------------------------------------------------------------------
  // Quick reference
  // ---------------------------------------------------------------------

  /** Lines joined by newlines, or the note when there are none */
  function JoinedOr(lines: seq<string>, note: string): string
  {
    if |lines| > 0 then Join(lines, "\n") else note
  }

  /** A workflow's name, "Workflow" when it has none */
  function WorkflowName(w: Workflow): string
  {
    if w.name.Some? then w.name.value else "Workflow"
  }

  /** A step of the cheatsheet: every one is numbered "1." */
  function QuickStep(step: string): string
  {
    "1. " + step
  }

  /** The lines one workflow contributes to the cheatsheet: its heading,
      its description between blank lines when it has one, and when it
      has steps, its first three after a "**Steps:**" line and before an
      empty line */
  function QuickBlock(w: Workflow): seq<string>
  {
    ["### " + WorkflowName(w)]
    + (if w.description != "" then ["\n" + w.description + "\n"] else [])
    + (if |w.steps| > 0 then ["**Steps:**"] + MapSeq(QuickStep, Take(w.steps, 3)) + [""] else [])
  }

  /** A block opens with the heading, then the description when there is
      one; it lists exactly the first three steps, each numbered "1.", and
      closes with an empty line when there are any. */
  lemma QuickBlockShape(w: Workflow, k: nat)
    ensures var lines := QuickBlock(w);
      var d := if w.description != "" then 1 else 0;
      var n := if |w.steps| < 3 then |w.steps| else 3;
      && |lines| == 1 + d + (if n > 0 then n + 2 else 0)
      && lines[0] == "### " + WorkflowName(w)
      && (d == 1 ==> lines[1] == "\n" + w.description + "\n")
      && (k < n ==> lines[1 + d + 1 + k] == "1. " + w.steps[k])
      && (n > 0 ==> lines[1 + d] == "**Steps:**" && lines[|lines| - 1] == "")
  {
    var n := if |w.steps| < 3 then |w.steps| else 3;
    if k < n {
      MapSeqAt(QuickStep, Take(w.steps, 3), k);
    }
  }

  /** The cheatsheet's workflow lines: the blocks of the first five */
  function QuickWorkflowItems(workflows: seq<Workflow>): seq<string>
  {
    FlatMap(QuickBlock, Take(workflows, 5))
  }

  /** There are workflow lines exactly when there is a workflow, and every
      one of the first five has its heading among them. */
  lemma QuickWorkflowItemsCover(workflows: seq<Workflow>, k: nat)
    ensures QuickWorkflowItems(workflows) == [] <==> |workflows| == 0
    ensures k < |workflows| && k < 5 ==>
      "### " + WorkflowName(workflows[k]) in QuickWorkflowItems(workflows)
  {
    var top := Take(workflows, 5);
    FlatMapEmpty(QuickBlock, top);
    if |workflows| > 0 {
      assert QuickBlock(top[0]) != [];
    }
    if k < |workflows| && k < 5 {
      assert top[k] == workflows[k];
      FlatMapContains(QuickBlock, top, k, "### " + WorkflowName(workflows[k]));
    }
  }

  const NoWorkflowsNote := "See full documentation " + "for workflows."
  const NoCommandsNote := "See examples for " + "command usage."

  /** The workflow lines joined, or the note when there are none */
  function QuickWorkflowsText(workflows: seq<Workflow>): string
  {
    JoinedOr(QuickWorkflowItems(workflows), NoWorkflowsNote)
  }

  /** The command entries joined, or the note when there are none */
  function QuickCommandsText(examples: seq<Example>): string
  {
    JoinedOr(ExtractedCommands(examples), NoCommandsNote)
  }

  /** The command entries are never empty, so their note never shows. */
  lemma QuickCommandsJoined(examples: seq<Example>)
    ensures QuickCommandsText(examples) == Join(ExtractedCommands(examples), "\n")
  {
    ExtractedCommandsShape(examples);
  }

  const ApiConfigRef := ("\n**Environment " + "Variables:**\n```bash\nexport ") + "API_KEY='your-key-here'\nexport " + "API_URL='https://api.example.com'\n```\n\n**Config " + "File:** `~/.config/tool/config.yaml`\n"
  const CliConfigRef := "\n**Config File:** " + "`~/.config/tool/config.yaml`\n\n**Common " + "Options:**\n- `--verbose`: Enable " + "detailed output\n- `--config " + "PATH`: Use custom config file\n"
  const OtherConfigRef := "See configuration template " + "in `templates/`"

  /** A tool type the API configuration is written for */
  predicate IsApiType(toolType: string)
  {
    toolType == "api" || toolType == "library"
  }

  /** `_generate_config_quick_ref`: environment variables for an API or a
      library, the config file and options for a CLI, a note that points to the
      configuration template otherwise */
  function ConfigQuickRef(toolType: string): (r: string)
    ensures r == ApiConfigRef <==> IsApiType(toolType)
    ensures r == CliConfigRef <==> toolType == "cli"
    ensures r == OtherConfigRef <==> !IsApiType(toolType) && toolType != "cli"
  {
    assert ApiConfigRef[3] == 'E' && CliConfigRef[3] == 'C' && OtherConfigRef[3] == ' ';
    if IsApiType(toolType) then ApiConfigRef
    else if toolType == "cli" then CliConfigRef
    else OtherConfigRef
  }

  const QuickTips := "- Use templates from " + "`templates/` as starting " + "points\n- Run validation before " + "execution: " + "`./scripts/validate_prereqs.sh`\n- " + "Check troubleshooting guide " + "if issues arise\n- Review " + "examples for common patterns"

  /** The quick-reference template filled in */
  function QuickReferenceText(toolName: string, generated: string, workflows: string,
    commands: string, configuration: string): string
  {
    "# Quick Reference: " + toolName + "\n\n**Generated:** " + generated
    + ("\n\nQuick reference for " + "common ") + toolName
    + (" operations.\n\n## Common " + "Workflows\n\n") + workflows
    + "\n\n## Key Commands\n\n" + commands
    + "\n\n## Configuration\n\n" + configuration
    + ("\n\n## Tips & " + "Tricks\n\n") + QuickTips
    + ("\n\n## See Also\n\n- Full " + "documentation: " + "`README.md`\n- Templates: " + "`templates/`\n- " + "Troubleshooting: " + "`docs/troubleshooting.md`\n- " + "Examples: `docs/examples.md`\n")
  }

  /** The cheatsheet for a tool */
  function QuickReference(toolName: string, generated: string, toolType: string,
    workflows: seq<Workflow>, examples: seq<Example>): string
  {
    QuickReferenceText(toolName, generated, QuickWorkflowsText(workflows),
      QuickCommandsText(examples), ConfigQuickRef(toolType))
  }

  /** The body of `generate_quick_reference`'s workflow loop */
  method QuickWorkflowBlock(w: Workflow) returns (block: seq<string>)
    ensures block == QuickBlock(w)
  {
    block := ["### " + WorkflowName(w)];
    if w.description != "" {
      block := block + ["\n" + w.description + "\n"];
    }
    if |w.steps| > 0 {
      block := block + ["**Steps:**"];
      var first := Take(w.steps, 3);
      var stepLines: seq<string> := [];
      for j := 0 to |first|
        invariant stepLines == MapSeq(QuickStep, first[..j])
      {
        assert first[..j + 1][..j] == first[..j];
        stepLines := stepLines + [QuickStep(first[j])];
      }
      assert first[..|first|] == first;
      block := block + stepLines + [""];
    }
  }

  /** `generate_quick_reference`: the first three steps of each of the
      first five workflows, the commands of the examples, the
      configuration for the tool type and the fixed tips */
  method GenerateQuickReference(toolName: string, generated: string, toolType: string,
    workflows: seq<Workflow>, examples: seq<Example>) returns (reference: string)
    ensures reference == QuickReference(toolName, generated, toolType, workflows, examples)
  {
    var top := Take(workflows, 5);
    var items: seq<string> := [];
    for i := 0 to |top|
      invariant items == FlatMap(QuickBlock, top[..i])
    {
      assert top[..i + 1][..i] == top[..i];
      var block := QuickWorkflowBlock(top[i]);
      items := items + block;
    }
    assert top[..|top|] == top;
    var commands := ExtractCommands(examples);
    reference := QuickReferenceText(toolName, generated, JoinedOr(items, NoWorkflowsNote),
      JoinedOr(commands, NoCommandsNote), ConfigQuickRef(toolType));
  }

  // ---------------------------------------------------------------------
  // Configuration template
  // ---------------------------------------------------------------------

  const GeneralSettings := "\n# General Settings\n# " + "Uncomment and customize as " + "needed\n\n# name: " + "my-project\n# verbose: " + "false\n# log_level: info\n"
  const ApiSettings := "\n# API Configuration\n# " + "api_key: YOUR_API_KEY_HERE\n# " + "api_url: " + "https://api.example.com\n# " + "timeout: 30\n# " + "retry_attempts: 3\n"
  const CliSettings := "\n# CLI Settings\n# " + "output_format: json\n# color: " + "auto\n# pager: less\n"
  const AdvancedSettings := "\n# Advanced Settings\n# " + "cache_enabled: true\n# " + "cache_dir: ~/.cache/tool\n# " + "max_cache_size: 1GB\n"

  /** The sections of the configuration template: the general settings
      first and the advanced ones last, with the API settings between them
      for an API or a library and the CLI settings for a CLI */
  function ConfigSections(toolType: string): (sections: seq<string>)
    ensures 2 <= |sections| <= 3
    ensures sections[0] == GeneralSettings && sections[|sections| - 1] == AdvancedSettings
    ensures ApiSettings in sections <==> IsApiType(toolType)
    ensures CliSettings in sections <==> toolType == "cli"
    ensures |sections| == 2 <==> !IsApiType(toolType) && toolType != "cli"
  {
    assert GeneralSettings[3] == 'G' && ApiSettings[3] == 'A' && CliSettings[3] == 'C';
    assert ApiSettings[4] == 'P' && AdvancedSettings[4] == 'd';
    [GeneralSettings]
    + (if IsApiType(toolType) then [ApiSettings] else if toolType == "cli" then [CliSettings] else [])
    + [AdvancedSettings]
  }

  /** The configuration-file template filled in */
  function ConfigTemplateText(toolName: string, generated: string, sections: string): string
  {
    "# Configuration Template: " + toolName + "\n# Generated: " + generated
    + ("\n#\n# Copy this file and " + "customize for your needs.\n# " + "Remove the '#' to uncomment " + "configuration options.\n\n")
    + sections + "\n"
  }

  /** The configuration template for a tool */
  function ConfigTemplate(toolName: string, generated: string, toolType: string): string
  {
    ConfigTemplateText(toolName, generated, Join(ConfigSections(toolType), "\n"))
  }

  /** `generate_config_template`: the sections for the tool type, joined
      by newlines, in the file template; the examples are not read */
  method GenerateConfigTemplate(toolName: string, generated: string, toolType: string,
    examples: seq<Example>) returns (template: string)
    ensures template == ConfigTemplate(toolName, generated, toolType)
  {
    var sections := [GeneralSettings];
    if IsApiType(toolType) {
      sections := sections + [ApiSettings];
    } else if toolType == "cli" {
      sections := sections + [CliSettings];
    }
    sections := sections + [AdvancedSettings];
    template := ConfigTemplateText(toolName, generated, Join(sections, "\n"));
  }

  // ---------------------------------------------------------------------
  // Examples document
  // ---------------------------------------------------------------------

  /** Code in a fence tagged with its language */
  function Fence(language: string, code: string): string
  {
    "```" + language + "\n" + code + "\n```\n"
  }

  /** `example.get('example_type') == kind` */
  predicate IsKind(e: Example, kind: string)
  {
    e.exampleType == Some(kind)
  }

  /** An example's title, the default when it has none */
  function TitleOr(e: Example, default: string): string
  {
    if e.title.Some? then e.title.value else default
  }

  /** The lines a basic example contributes: its heading, its context when
      it has one, and its code; nothing for another kind */
  function BasicBlock(e: Example): seq<string>
  {
    if !IsKind(e, "basic") then []
    else
      ["### " + TitleOr(e, "Example") + "\n"]
      + (if e.context != "" then [e.context + "\n"] else [])
      + [Fence(e.language, e.code)]
  }

  /** The basic-usage lines: those of the first two examples */
  function BasicItems(examples: seq<Example>): seq<string>
  {
    FlatMap(BasicBlock, Take(examples, 2))
  }

  /** Only the first two examples are looked at: there are basic-usage
      lines exactly when one of them is basic, and each basic one among
      them has its heading and its code there. */
  lemma BasicItemsCover(examples: seq<Example>, k: nat)
    ensures BasicItems(examples) == [] <==>
      forall j :: 0 <= j < |examples| && j < 2 ==> !IsKind(examples[j], "basic")
    ensures k < |examples| && k < 2 && IsKind(examples[k], "basic") ==>
      && "### " + TitleOr(examples[k], "Example") + "\n" in BasicItems(examples)
      && Fence(examples[k].language, examples[k].code) in BasicItems(examples)
  {
    var top := Take(examples, 2);
    FlatMapEmpty(BasicBlock, top);
    assert forall j :: 0 <= j < |top| ==> top[j] == examples[j];
    if k < |examples| && k < 2 && IsKind(examples[k], "basic") {
      var b := BasicBlock(examples[k]);
      FlatMapContains(BasicBlock, top, k, b[0]);
      FlatMapContains(BasicBlock, top, k, b[|b| - 1]);
    }
  }

  /** `f"{i}. {step}"` for each step, counting from one */
  function NumberedSteps(steps: seq<string>): (lines: seq<string>)
    decreases |steps|
    ensures |lines| == |steps|
  {
    if |steps| == 0 then []
    else NumberedSteps(steps[..|steps| - 1]) + [NatToString(|steps|) + ". " + steps[|steps| - 1]]
  }

  /** Step `k` is numbered `k + 1`. */
  lemma {:induction false} NumberedStepsAt(steps: seq<string>, k: nat)
    requires k < |steps|
    decreases |steps|
    ensures NumberedSteps(steps)[k] == NatToString(k + 1) + ". " + steps[k]
  {
    var n := |steps| - 1;
    if k < n {
      NumberedStepsAt(steps[..n], k);
      assert steps[..n][k] == steps[k];
    }
  }

  /** The lines a workflow contributes to the examples: its heading, its
      description when it has one, all its steps numbered between a
      "**Steps:**" line and an empty line when it has any, and the code of
      its first example when that is not empty */
  function WorkflowExample(w: Workflow): seq<string>
  {
    ["### " + WorkflowName(w) + "\n"]
    + (if w.description != "" then [w.description + "\n"] else [])
    + (if |w.steps| > 0 then ["**Steps:**"] + NumberedSteps(w.steps) + [""] else [])
    + (if |w.examples| > 0 && w.examples[0].code != ""
       then [Fence(w.examples[0].language, w.examples[0].code)] else [])
  }

  /** Every step is listed, numbered from one, and the block ends with the
      first example's code exactly when that code is not empty. */
  lemma WorkflowExampleShape(w: Workflow, k: nat)
    ensures var lines := WorkflowExample(w);
      var d := if w.description != "" then 1 else 0;
      var s := if |w.steps| > 0 then |w.steps| + 2 else 0;
      var c := |w.examples| > 0 && w.examples[0].code != "";
      && |lines| == 1 + d + s + (if c then 1 else 0)
      && lines[0] == "### " + WorkflowName(w) + "\n"
      && (k < |w.steps| ==> lines[1 + d + 1 + k] == NatToString(k + 1) + ". " + w.steps[k])
      && (c ==> lines[|lines| - 1] == Fence(w.examples[0].language, w.examples[0].code))
  {
    if k < |w.steps| {
      NumberedStepsAt(w.steps, k);
    }
  }

  /** The workflow lines: those of the first three workflows */
  function WorkflowExampleItems(workflows: seq<Workflow>): seq<string>
  {
    FlatMap(WorkflowExample, Take(workflows, 3))
  }

  /** There are workflow lines exactly when there is a workflow, and each
      of the first three has its heading among them. */
  lemma WorkflowExampleItemsCover(workflows: seq<Workflow>, k: nat)
    ensures WorkflowExampleItems(workflows) == [] <==> |workflows| == 0
    ensures k < |workflows| && k < 3 ==>
      "### " + WorkflowName(workflows[k]) + "\n" in WorkflowExampleItems(workflows)
  {
    var top := Take(workflows, 3);
    FlatMapEmpty(WorkflowExample, top);
    if |workflows| > 0 {
      assert WorkflowExample(top[0]) != [];
    }
    if k < |workflows| && k < 3 {
      assert top[k] == workflows[k];
      FlatMapContains(WorkflowExample, top, k, "### " + WorkflowName(workflows[k]) + "\n");
    }
  }

  /** The lines an advanced example contributes: its heading and its code;
      nothing for another kind */
  function AdvancedBlock(e: Example): seq<string>
  {
    if !IsKind(e, "advanced") then []
    else ["### " + TitleOr(e, "Advanced Example") + "\n", Fence(e.language, e.code)]
  }

  /** The advanced-usage lines: those of every example */
  function AdvancedItems(examples: seq<Example>): seq<string>
  {
    FlatMap(AdvancedBlock, examples)
  }

  /** Every example is looked at: there are advanced-usage lines exactly
      when an example is advanced, and each advanced one has its heading
      and its code there. */
  lemma AdvancedItemsCover(examples: seq<Example>, k: nat)
    ensures AdvancedItems(examples) == [] <==>
      forall j :: 0 <= j < |examples| ==> !IsKind(examples[j], "advanced")
    ensures k < |examples| && IsKind(examples[k], "advanced") ==>
      && "### " + TitleOr(examples[k], "Advanced Example") + "\n" in AdvancedItems(examples)
      && Fence(examples[k].language, examples[k].code) in AdvancedItems(examples)
  {
    FlatMapEmpty(AdvancedBlock, examples);
    if k < |examples| && IsKind(examples[k], "advanced") {
      var b := AdvancedBlock(examples[k]);
      FlatMapContains(AdvancedBlock, examples, k, b[0]);
      FlatMapContains(AdvancedBlock, examples, k, b[1]);
    }
  }

  const NoBasicNote := "See templates for basic examples."
  const NoWorkflowExamplesNote := "See workflows in documentation."
  const NoAdvancedNote := "See documentation for advanced usage."
  const ExampleTips := "- Start with basic examples " + "and progress to advanced\n- " + "Use templates as starting " + "points for your own code\n- " + "Review troubleshooting guide " + "if examples don't work as " + "expected\n- Customize " + "examples for your specific " + "use case"

  /** The examples template filled in */
  function ExamplesDocText(toolName: string, generated: string, basic: string,
    workflows: string, advanced: string): string
  {
    "# Examples: " + toolName + "\n\n**Generated:** " + generated
    + "\n\nPractical examples for using " + toolName
    + ".\n\n## Basic Usage\n\n" + basic
    + "\n\n## Common Workflows\n\n" + workflows
    + "\n\n## Advanced Usage\n\n" + advanced
    + "\n\n## Tips\n\n" + ExampleTips + "\n"
  }

  /** The examples document for a tool */
  function ExamplesDoc(toolName: string, generated: string, workflows: seq<Workflow>,
    examples: seq<Example>): string
  {
    ExamplesDocText(toolName, generated,
      JoinedOr(BasicItems(examples), NoBasicNote),
      JoinedOr(WorkflowExampleItems(workflows), NoWorkflowExamplesNote),
      JoinedOr(AdvancedItems(examples), NoAdvancedNote))
  }

  /** The body of `generate_examples_doc`'s basic-example loop */
  method BasicExampleLines(e: Example) returns (lines: seq<string>)
    ensures lines == BasicBlock(e)
  {
    lines := [];
    if IsKind(e, "basic") {
      lines := lines + ["### " + TitleOr(e, "Example") + "\n"];
      if e.context != "" {
        lines := lines + [e.context + "\n"];
      }
      lines := lines + [Fence(e.language, e.code)];
    }
  }

  /** The step-numbering loop of `generate_examples_doc` */
  method NumberSteps(steps: seq<string>) returns (numbered: seq<string>)
    ensures numbered == NumberedSteps(steps)
  {
    numbered := [];
    for i := 0 to |steps|
      invariant numbered == NumberedSteps(steps[..i])
    {
      assert steps[..i + 1][..i] == steps[..i];
      numbered := numbered + [NatToString(i + 1) + ". " + steps[i]];
    }
    assert steps[..|steps|] == steps;
  }

  /** The body of `generate_examples_doc`'s workflow loop */
  method WorkflowExampleLines(w: Workflow) returns (lines: seq<string>)
    ensures lines == WorkflowExample(w)
  {
    lines := ["### " + WorkflowName(w) + "\n"];
    if w.description != "" {
      lines := lines + [w.description + "\n"];
    }
    if |w.steps| > 0 {
      var numbered := NumberSteps(w.steps);
      lines := lines + ["**Steps:**"] + numbered + [""];
    }
    if |w.examples| > 0 {
      var first := w.examples[0];
      if first.code != "" {
        lines := lines + [Fence(first.language, first.code)];
      }
    }
  }

  /** The body of `generate_examples_doc`'s advanced-example loop */
  method AdvancedExampleLines(e: Example) returns (lines: seq<string>)
    ensures lines == AdvancedBlock(e)
  {
    lines := [];
    if IsKind(e, "advanced") {
      lines := lines + ["### " + TitleOr(e, "Advanced Example") + "\n"];
      lines := lines + [Fence(e.language, e.code)];
    }
  }

  /** The basic-example loop of `generate_examples_doc` */
  method BasicSection(examples: seq<Example>) returns (basic: seq<string>)
    ensures basic == FlatMap(BasicBlock, examples)
  {
    basic := [];
    for i := 0 to |examples|
      invariant basic == FlatMap(BasicBlock, examples[..i])
    {
      assert examples[..i + 1][..i] == examples[..i];
      var lines := BasicExampleLines(examples[i]);
      basic := basic + lines;
    }
    assert examples[..|examples|] == examples;
  }

  /** The workflow loop of `generate_examples_doc` */
  method WorkflowSection(workflows: seq<Workflow>) returns (flows: seq<string>)
    ensures flows == FlatMap(WorkflowExample, workflows)
  {
    flows := [];
    for i := 0 to |workflows|
      invariant flows == FlatMap(WorkflowExample, workflows[..i])
    {
      assert workflows[..i + 1][..i] == workflows[..i];
      var lines := WorkflowExampleLines(workflows[i]);
      flows := flows + lines;
    }
    assert workflows[..|workflows|] == workflows;
  }

  /** The advanced-example loop of `generate_examples_doc` */
  method AdvancedSection(examples: seq<Example>) returns (advanced: seq<string>)
    ensures advanced == FlatMap(AdvancedBlock, examples)
  {
    advanced := [];
    for i := 0 to |examples|
      invariant advanced == FlatMap(AdvancedBlock, examples[..i])
    {
      assert examples[..i + 1][..i] == examples[..i];
      var lines := AdvancedExampleLines(examples[i]);
      advanced := advanced + lines;
    }
    assert examples[..|examples|] == examples;
  }

  /** `generate_examples_doc`: the basic ones among the first two
      examples, the first three workflows with all their steps, and every
      advanced example, each section with its note when empty */
  method GenerateExamplesDoc(toolName: string, generated: string, workflows: seq<Workflow>,
    examples: seq<Example>) returns (doc: string)
    ensures doc == ExamplesDoc(toolName, generated, workflows, examples)
  {
    var basic := BasicSection(Take(examples, 2));
    var flows := WorkflowSection(Take(workflows, 3));
    var advanced := AdvancedSection(examples);
    doc := ExamplesDocText(toolName, generated, JoinedOr(basic, NoBasicNote),
      JoinedOr(flows, NoWorkflowExamplesNote), JoinedOr(advanced, NoAdvancedNote));
  }
}
