/** The skill validator: a result object that collects error, warning and
    pass messages, the individual checks over the SKILL.md text and the
    skill directory's layout, and the cascade in which the structure check
    runs only after a clean initialisation check and the content check only
    after a clean structure check. The file system is given as a `Layout`
    value and the word-boundary regexes as `Matchers`. */
module ValidateSkill {
  import opened Text
  import opened Wrappers
  import opened SkillFile

  // ---------------------------------------------------------------------
  // Messages and the result object
  // ---------------------------------------------------------------------

  /** One message of a check, before its marker is put in front */
  datatype Note = Error(text: string) | Warning(text: string) | Pass(text: string)

  const ErrorMark: string := "\U{274C} "
  const WarningMark: string := "\U{26A0}\U{FE0F}  "
  const PassMark: string := "\U{2705} "

  // The message texts of the checks
  const DirExistsText := "Skill directory exists: "
  const FrontmatterFound := "YAML frontmatter found"
  const SkillMdExists := "SKILL.md exists"
  const SkillMdMissing := "SKILL.md not found in "
  const VagueTermText := "Description contains vague term '"
  const BeSpecific := "' - be more specific"
  const MoreIssues := " more issues"
  const ImperativeStyle := "Writing style uses imperative form (no 'you should/can/must')"
  const EvaluationsFound := "Skill references test scenarios or evaluations"
  const ExamplesFound := "Skill includes examples or code blocks"
  const DirMissing := "Skill directory does not exist: "
  const ScriptsPass := "Scripts follow 'solve don't punt' pattern"
  const BodyLengthOk := "SKILL.md body length OK: "
  const BodyHas := "SKILL.md body has "
  const ReferenceMissing := "Referenced file does not exist: "
  const NoEvaluations := "No test scenario references found - consider documenting test cases (EDD)"
  const ConcisePass := "No obvious verbosity patterns detected"
  const NoExamples := "No examples found - consider adding usage examples for complex operations"
  const GerundPass := "Name uses gerund form (recommended)"
  const NameLengthOk := "Name length OK: "
  const NameFormatOk := "Name format is valid (lowercase with hyphens)"
  const NameTooLong := "Name exceeds 64 characters: "
  const NoDisclosure := "Large SKILL.md but no references/ directory - consider progressive disclosure"
  const NameMissing := "Frontmatter missing required field: name"
  const DescriptionMissing := "Frontmatter missing required field: description"
  const ReferenceValid := "File reference valid: "
  const ThirdPersonPass := "Description uses third-person voice"
  const SecondPersonWarning := "Description should use third-person voice, not 'you/your'"
  const NoTriggerWarning := "Description should include when to use the skill (trigger terms)"
  const DescriptionLengthOk := "Description length OK: "
  const DescriptionShort := "Description is very short: "
  const TriggerPass := "Description includes 'when to use' guidance"
  const DescriptionTooLong := "Description exceeds 1024 characters: "
  const FreedomPrefix := "Degrees of freedom: "
  const FreedomPass := "Degrees of freedom markers appear appropriate"
  const GerundHint := "Consider using gerund form for name: e.g., 'processing-"
  const UnguardedFileOps := ": File operations without try/except"
  const SilentExceptions := ": Exceptions without helpful error messages"
  const BareExceptText := ": Bare except clause - catch specific exceptions"
  const NameFormatHint := "' should use lowercase alphanumeric with hyphens only"
  const LongBodyHint := " lines (recommend < 500). Consider moving content to references/"
  const FewInstances := " instances of second-person instructions - prefer imperative form"
  const ManyInstances := " instances of 'you should/can/must/need' - prefer imperative form"
  const DirectoryFound := " directory found"
  const DirectoryEmpty := " directory exists but is empty"
  const ShortHint := " chars (recommend 100-300)"
  const VerbosityPrefix := "Verbosity: "
  const ScriptPrefix := "Script quality: "
  const MixedSignals := "Mixed freedom signals: Contains both strict (MUST) and flexible (can also) language"
  const UnmarkedStrictness := "Low-freedom instructions without \U{26A0}\U{FE0F} warnings"

  /** The three message lists of a result */
  datatype Report = Report(errors: seq<string>, warnings: seq<string>, passed: seq<string>)

  const EmptyReport := Report([], [], [])

  /** The report after one more message */
  function Add(r: Report, n: Note): Report
  {
    match n
    case Error(t) => r.(errors := r.errors + [ErrorMark + t])
    case Warning(t) => r.(warnings := r.warnings + [WarningMark + t])
    case Pass(t) => r.(passed := r.passed + [PassMark + t])
  }

  /** The report after the messages, in order */
  function Record(r: Report, notes: seq<Note>): Report
    decreases |notes|
  {
    if |notes| == 0 then r else Add(Record(r, notes[..|notes| - 1]), notes[|notes| - 1])
  }

  predicate HasError(notes: seq<Note>)
  {
    exists i :: 0 <= i < |notes| && notes[i].Error?
  }

  predicate HasWarning(notes: seq<Note>)
  {
    exists i :: 0 <= i < |notes| && notes[i].Warning?
  }

  /** Recording keeps the earlier messages, puts each note in exactly one
      list, and leaves the error list as it was iff no note is an error. */
  lemma {:induction false} RecordKeeps(r: Report, notes: seq<Note>)
    decreases |notes|
    ensures |Record(r, notes).errors| + |Record(r, notes).warnings| + |Record(r, notes).passed|
         == |r.errors| + |r.warnings| + |r.passed| + |notes|
    ensures |r.errors| <= |Record(r, notes).errors| && Record(r, notes).errors[..|r.errors|] == r.errors
    ensures |r.warnings| <= |Record(r, notes).warnings| && Record(r, notes).warnings[..|r.warnings|] == r.warnings
    ensures |r.passed| <= |Record(r, notes).passed| && Record(r, notes).passed[..|r.passed|] == r.passed
    ensures |Record(r, notes).errors| == |r.errors| <==> !HasError(notes)
  {
    if |notes| > 0 {
      var n := |notes| - 1;
      var q := Record(r, notes[..n]);
      RecordKeeps(r, notes[..n]);
      assert HasError(notes) <==> HasError(notes[..n]) || notes[n].Error? by {
        if HasError(notes) {
          var i :| 0 <= i < |notes| && notes[i].Error?;
          if i < n {
            assert notes[..n][i] == notes[i];
          }
        }
        if HasError(notes[..n]) {
          var i :| 0 <= i < n && notes[..n][i].Error?;
          assert notes[i] == notes[..n][i];
        }
      }
      match notes[n]
      case Error(t) =>
        assert (q.errors + [ErrorMark + t])[..|r.errors|] == q.errors[..|r.errors|];
      case Warning(t) =>
        assert (q.warnings + [WarningMark + t])[..|r.warnings|] == q.warnings[..|r.warnings|];
      case Pass(t) =>
        assert (q.passed + [PassMark + t])[..|r.passed|] == q.passed[..|r.passed|];
    }
  }

  /** Appending two pieces one after the other is appending both at once. */
  lemma AppendAssoc<T>(log: seq<T>, a: seq<T>, b: seq<T>)
    ensures log + a + b == log + (a + b)
  {
  }

  /** Recording one more note is adding it. */
  lemma RecordSnoc(r: Report, notes: seq<Note>, n: Note)
    ensures Record(r, notes + [n]) == Add(Record(r, notes), n)
  {
    assert (notes + [n])[..|notes|] == notes;
  }

  /** `ValidationResult`: the three lists, and the notes in the order the
      checks added them */
  class ValidationResult {
    var errors: seq<string>
    var warnings: seq<string>
    var passed: seq<string>
    ghost var log: seq<Note>

    function Snapshot(): Report
      reads this
    {
      Report(errors, warnings, passed)
    }

    /** The lists hold exactly the logged notes, each with its marker */
    ghost predicate Valid()
      reads this
    {
      Snapshot() == Record(EmptyReport, log)
    }

    constructor()
      ensures Valid() && log == []
      ensures errors == [] && warnings == [] && passed == []
    {
      errors, warnings, passed := [], [], [];
      log := [];
    }

    method AddError(message: string)
      requires Valid()
      modifies this
      ensures Valid() && log == old(log) + [Error(message)]
      ensures errors == old(errors) + [ErrorMark + message]
      ensures warnings == old(warnings) && passed == old(passed)
    {
      RecordSnoc(EmptyReport, log, Error(message));
      errors := errors + [ErrorMark + message];
      log := log + [Error(message)];
    }

    method AddWarning(message: string)
      requires Valid()
      modifies this
      ensures Valid() && log == old(log) + [Warning(message)]
      ensures warnings == old(warnings) + [WarningMark + message]
      ensures errors == old(errors) && passed == old(passed)
    {
      RecordSnoc(EmptyReport, log, Warning(message));
      warnings := warnings + [WarningMark + message];
      log := log + [Warning(message)];
    }

    method AddPass(message: string)
      requires Valid()
      modifies this
      ensures Valid() && log == old(log) + [Pass(message)]
      ensures passed == old(passed) + [PassMark + message]
      ensures errors == old(errors) && warnings == old(warnings)
    {
      RecordSnoc(EmptyReport, log, Pass(message));
      passed := passed + [PassMark + message];
      log := log + [Pass(message)];
    }

    /** `has_errors` */
    predicate HasErrors()
      reads this
    {
      |errors| > 0
    }
  }

  /** A valid result has errors iff an error note was logged. */
  lemma HasErrorsIffErrorLogged(v: ValidationResult)
    requires v.Valid()
    ensures v.HasErrors() <==> HasError(v.log)
  {
    RecordKeeps(EmptyReport, v.log);
  }

  // ---------------------------------------------------------------------
  // What the checks read: the directory layout and the regex matchers
  // ---------------------------------------------------------------------

  /** What a Python script under scripts/ shows to the regexes of the
      script check */
  datatype ScriptFacts = ScriptFacts(
    name: string,
    opensFiles: bool,        // `\bopen\s*\(`
    hasTry: bool,            // `\btry\s*:`
    bareExcept: bool,        // `except\s*:`
    mentionsExcept: bool,    // 'except' in the text
    printsErrorMark: bool)   // `print\s*\(.*[❌💡]`

  /** The skill directory as the checks see it */
  datatype Layout = Layout(
    dirExists: bool,
    skillMd: Option<string>,        // the text of SKILL.md, when the file exists
    scripts: Option<nat>,           // *.py and *.sh files in scripts/, when it exists
    references: Option<nat>,        // *.md files in references/, when it exists
    assets: Option<nat>,            // files anywhere under assets/, when it exists
    pythonScripts: seq<ScriptFacts>,  // the *.py files in scripts/
    fileExists: string -> bool)     // a path relative to the skill directory exists

  /** The case-insensitive, word-boundary regexes of the content checks */
  datatype Matchers = Matchers(
    secondPerson: string -> bool,     // `\byou\b`, `\byour\b` or `\byou're\b`
    whenToUse: string -> bool,        // `\buse when\b|\buse this when\b|\bshould be used when\b`
    instructions: string -> nat,      // matches of `\byou should\b|\byou can\b|\byou must\b|\byou need\b`
    strictWords: string -> bool,      // `\b(MUST|must not|do not modify|in exact order)\b`
    flexibleWords: string -> bool,    // `\b(you can also|feel free|optional|consider)\b`
    links: string -> seq<string>)     // the targets of `\[([^\]]+)\]\(([^)]+)\)`, in order

  // ---------------------------------------------------------------------
  // Initialisation and structure checks
  // ---------------------------------------------------------------------

  /** One directory of `_check_structure_basic`: a pass when it exists */
  function FoundNote(count: Option<nat>, dir: string): seq<Note>
  {
    if count.Some? then [Pass(dir + DirectoryFound)] else []
  }

  function StructureBasicNotes(l: Layout): seq<Note>
  {
    FoundNote(l.scripts, "scripts/") + FoundNote(l.references, "references/") + FoundNote(l.assets, "assets/")
  }

  /** `check_init` */
  function InitNotes(dir: string, l: Layout): seq<Note>
  {
    if !l.dirExists then [Error(DirMissing + dir)]
    else if l.skillMd.None? then [Pass(DirExistsText + dir)] + [Error(SkillMdMissing + dir)]
    else [Pass(DirExistsText + dir)] + [Pass(SkillMdExists)] + StructureBasicNotes(l)
  }

  /** `^[a-z0-9-]+$` on a stripped value */
  predicate IsSlug(name: string)
  {
    |name| > 0 && forall i :: 0 <= i < |name| ==> IsLowerLetter(name[i]) || IsDigit(name[i]) || name[i] == '-'
  }

  const MissingFrontmatter := "SKILL.md missing YAML frontmatter (should start with ---)"

  function NameNotes(fm: map<string, string>): seq<Note>
  {
    if "name" !in fm then [Error(NameMissing)]
    else
      NameLengthNote(fm["name"]) + NameFormatNote(fm["name"])
  }

  function NameLengthNote(name: string): seq<Note>
  {
    if |name| > 64 then [Error(NameTooLong + NatToString(|name|) + " chars")]
    else [Pass(NameLengthOk + NatToString(|name|) + "/64 chars")]
  }

  /** A name that is not a lower-case hyphenated slug is warned about */
  function NameFormatNote(name: string): (r: seq<Note>)
    ensures |r| == 1 && !r[0].Error?
    ensures r[0].Warning? <==> !IsSlug(name)
    ensures r[0].Warning? ==> r[0].text == "Name '" + name + NameFormatHint
  {
    if !IsSlug(name) then [Warning("Name '" + name + NameFormatHint)]
    else [Pass(NameFormatOk)]
  }

  /** A missing or over-long description fails; one under 50 characters is
      warned about; one of 50 to 1024 characters passes */
  function DescriptionLengthNotes(fm: map<string, string>): (r: seq<Note>)
    ensures |r| == 1
    ensures r[0].Error? <==> "description" !in fm || |fm["description"]| > 1024
    ensures "description" in fm ==> (r[0].Warning? <==> |fm["description"]| < 50)
    ensures "description" in fm ==> (r[0].Pass? <==> 50 <= |fm["description"]| <= 1024)
  {
    if "description" !in fm then [Error(DescriptionMissing)]
    else
      var n := |fm["description"]|;
      if n > 1024 then [Error(DescriptionTooLong + NatToString(n) + " chars")]
      else if n < 50 then [Warning(DescriptionShort + NatToString(n) + ShortHint)]
      else [Pass(DescriptionLengthOk + NatToString(n) + "/1024 chars")]
  }

  /** `_check_frontmatter` */
  function FrontmatterNotes(fm: map<string, string>): seq<Note>
  {
    if |fm| == 0 then [Error(MissingFrontmatter)]
    else [Pass(FrontmatterFound)] + NameNotes(fm) + DescriptionLengthNotes(fm)
  }

  /** One directory of `_check_directories`: nothing when it is absent, a
      pass with the file count, or a warning when it is empty */
  function DirectoryNote(count: Option<nat>, found: string, dir: string): seq<Note>
  {
    match count
    case None => []
    case Some(n) =>
      if n > 0 then [Pass("Found " + NatToString(n) + " " + found + " in " + dir)]
      else [Warning(dir + DirectoryEmpty)]
  }

  function DirectoryNotes(l: Layout): seq<Note>
  {
    DirectoryNote(l.scripts, "script(s)", "scripts/")
    + DirectoryNote(l.references, "reference file(s)", "references/")
    + DirectoryNote(l.assets, "asset(s)", "assets/")
  }

  predicate IsExternal(path: string)
  {
    StartsWith(path, "http://") || StartsWith(path, "https://")
  }

  /** `_check_file_references` over the link targets, in order */
  function ReferenceNotes(links: seq<string>, present: string -> bool): seq<Note>
    decreases |links|
  {
    if |links| == 0 then []
    else
      var notes := ReferenceNotes(links[..|links| - 1], present);
      var p := links[|links| - 1];
      if IsExternal(p) then notes
      else if !present(p) then notes + [Error(ReferenceMissing + p)]
      else notes + [Pass(ReferenceValid + p)]
  }

  // ---------------------------------------------------------------------
  // Content checks
  // ---------------------------------------------------------------------

  const VagueTerms: seq<string> := ["helps with", "does stuff", "processes data", "works with"]

  /** The vague-term warnings of `_check_description_quality` */
  function VagueNotes(description: string, terms: seq<string>): seq<Note>
    decreases |terms|
  {
    if |terms| == 0 then []
    else
      var notes := VagueNotes(description, terms[..|terms| - 1]);
      var term := terms[|terms| - 1];
      if Contains(Lower(description), Lower(term)) then
        notes + [Warning(VagueTermText + term + BeSpecific)]
      else notes
  }

  /** `_check_description_quality` */
  function DescriptionNotes(fm: map<string, string>, m: Matchers): seq<Note>
  {
    if "description" !in fm then []
    else
      var d := fm["description"];
      VoiceNote(d, m) + TriggerNote(d, m) + VagueNotes(d, VagueTerms)
  }

  function VoiceNote(d: string, m: Matchers): seq<Note>
  {
    if m.secondPerson(d) then [Warning(SecondPersonWarning)] else [Pass(ThirdPersonPass)]
  }

  function TriggerNote(d: string, m: Matchers): seq<Note>
  {
    if m.whenToUse(d) then [Pass(TriggerPass)] else [Warning(NoTriggerWarning)]
  }

  /** Some '-'-separated word of the name ends in "ing" */
  predicate HasGerund(name: string)
  {
    var words := Split(name, '-');
    exists i :: 0 <= i < |words| && EndsWith(words[i], "ing")
  }

  /** `_check_naming` */
  function NamingNotes(fm: map<string, string>): (r: seq<Note>)
    ensures !HasError(r)
    ensures "name" in fm ==> |r| == 1 && (r[0].Pass? <==> HasGerund(fm["name"]))
  {
    if "name" !in fm then []
    else
      var name := fm["name"];
      if HasGerund(name) then [Pass(GerundPass)]
      else [Warning(GerundHint + Split(name, '-')[0]
                    + "' instead of '" + name + "'")]
  }

  /** `_check_writing_style`, given the number of second-person matches */
  function WritingNotes(count: nat): (r: seq<Note>)
    ensures !HasError(r)
    ensures |r| == 1 && (r[0].Pass? <==> count == 0)
  {
    if count > 5 then
      [Warning("Found " + NatToString(count) + ManyInstances)]
    else if count > 0 then
      [Warning("Found " + NatToString(count) + FewInstances)]
    else [Pass(ImperativeStyle)]
  }

  /** `_check_progressive_disclosure` */
  function DisclosureNotes(body: string, references: Option<nat>): (r: seq<Note>)
    ensures HasWarning(r) <==> LineCount(body) > 500
    ensures |r| == 2 <==> LineCount(body) > 500 && (references.None? || references == Some(0))
  {
    var n := LineCount(body);
    var length, large := BodyLengthNote(n), LargeBodyNote(n, references);
    assert (length + large)[0] == length[0];
    assert n <= 500 ==> length + large == length;
    length + large
  }

  /** A body of more than 500 lines is warned about; otherwise it passes */
  function BodyLengthNote(n: nat): (r: seq<Note>)
    ensures |r| == 1 && !r[0].Error?
    ensures r[0].Warning? <==> n > 500
  {
    if n > 500 then [Warning(BodyHas + NatToString(n) + LongBodyHint)]
    else [Pass(BodyLengthOk + NatToString(n) + " lines")]
  }

  /** A body of more than 500 lines with no or an empty references
      directory draws the progressive-disclosure warning */
  function LargeBodyNote(n: nat, references: Option<nat>): (r: seq<Note>)
    ensures r == [] || r == [Warning(NoDisclosure)]
    ensures r != [] <==> n > 500 && (references.None? || references == Some(0))
  {
    if n > 500 && (references.None? || references == Some(0)) then [Warning(NoDisclosure)] else []
  }

  /** `## Example|### Example|```` without regard to case */
  predicate HasExamples(body: string)
  {
    Contains(Lower(body), "## example") || Contains(Lower(body), "### example") || Contains(Lower(body), "```")
  }

  /** `_check_examples` */
  function ExampleNotes(body: string): (r: seq<Note>)
    ensures !HasError(r)
    ensures |r| == 1 && (r[0].Pass? <==> HasExamples(body))
  {
    if HasExamples(body) then [Pass(ExamplesFound)]
    else [Warning(NoExamples)]
  }

  /** A verbosity pattern: the lower-cased texts it matches, and its message */
  datatype Verbose = Verbose(phrases: seq<string>, message: string)

  const VerbosePatterns: seq<Verbose> := [
    Verbose(["pdf (portable document format)"], "Avoid defining PDF - Claude knows this"),
    Verbose(["json (javascript object notation)"], "Avoid defining JSON - Claude knows this"),
    Verbose(["api (application programming interface)"], "Avoid defining API - Claude knows this"),
    Verbose(["csv (comma-separated value)", "csv (comma-separated values)",
             "csv (comma separated value)", "csv (comma separated values)"],
            "Avoid defining CSV - Claude knows this"),
    Verbose(["there are many ways to"], "Cut explanation of alternatives - be direct"),
    Verbose(["you can also"], "Use imperative form instead"),
    Verbose(["it is important to note that"], "Cut unnecessary preamble"),
    Verbose(["basically"], "Remove hedge word \"basically\""),
    Verbose(["essentially"], "Remove hedge word \"essentially\"")
  ]

  /** The pattern occurs in the body, without regard to case */
  predicate Mentions(body: string, v: Verbose)
  {
    exists k :: 0 <= k < |v.phrases| && Contains(Lower(body), v.phrases[k])
  }

  /** The messages of the patterns found in the body, in pattern order */
  function VerboseIssues(body: string, patterns: seq<Verbose>): seq<string>
    decreases |patterns|
  {
    if |patterns| == 0 then []
    else
      var issues := VerboseIssues(body, patterns[..|patterns| - 1]);
      var v := patterns[|patterns| - 1];
      if Mentions(body, v) then issues + [v.message] else issues
  }

  /** Up to three issues, each as a warning after `prefix` */
  function IssueWarnings(prefix: string, issues: seq<string>): (r: seq<Note>)
    ensures |r| == |issues|
    ensures forall i :: 0 <= i < |issues| ==> r[i] == Warning(prefix + issues[i])
  {
    seq(|issues|, i requires 0 <= i < |issues| => Warning(prefix + issues[i]))
  }

  /** The shared tail of the conciseness and script checks: the first three
      issues, a summary of the rest, or the pass message when there are
      none */
  function Capped(prefix: string, issues: seq<string>, passText: string): (r: seq<Note>)
    ensures r == [Pass(passText)] <==> issues == []
    ensures issues != [] ==> |r| == (if |issues| > 3 then 4 else |issues|)
    ensures issues != [] ==> forall i :: 0 <= i < |r| ==> r[i].Warning?
    ensures forall i :: 0 <= i < |issues| && i < 3 ==> r[i] == Warning(prefix + issues[i])
    ensures |issues| > 3 ==>
      r[3] == Warning(prefix + "... and " + NatToString(|issues| - 3) + MoreIssues)
  {
    if |issues| == 0 then [Pass(passText)]
    else
      var shown := IssueWarnings(prefix, Take(issues, 3));
      var more := if |issues| > 3 then [Warning(prefix + "... and " + NatToString(|issues| - 3) + MoreIssues)] else [];
      assert (shown + more)[0] == shown[0];
      shown + more
  }

  /** `_check_conciseness` */
  function ConcisenessNotes(body: string): seq<Note>
  {
    Capped(VerbosityPrefix, VerboseIssues(body, VerbosePatterns), ConcisePass)
  }

  const StrictPhrases: seq<string> := ["in exact order", "must pass", "do not modify", "must complete", "do not proceed"]

  /** `[⚠️❗]`: a warning sign, its variation selector or an exclamation mark */
  predicate HasWarningSign(body: string)
  {
    exists i :: 0 <= i < |body| && body[i] in {'\U{26A0}', '\U{FE0F}', '\U{2757}'}
  }

  function FreedomIssues(body: string, m: Matchers): seq<string>
  {
    var strict := exists k :: 0 <= k < |StrictPhrases| && Contains(Lower(body), StrictPhrases[k]);
    (if m.strictWords(body) && m.flexibleWords(body) then
       [MixedSignals]
     else [])
    + (if strict && !HasWarningSign(body) then [UnmarkedStrictness] else [])
  }

  /** `_check_degrees_of_freedom` */
  function FreedomNotes(body: string, m: Matchers): (r: seq<Note>)
    ensures !HasError(r)
    ensures 1 <= |r| <= 2
  {
    var issues := FreedomIssues(body, m);
    if |issues| == 0 then [Pass(FreedomPass)]
    else IssueWarnings(FreedomPrefix, issues)
  }

  /** The issues one script contributes, in the order they are checked */
  function ScriptIssuesOf(s: ScriptFacts): seq<string>
  {
    (if s.opensFiles && !s.hasTry then [s.name + UnguardedFileOps] else [])
    + (if s.bareExcept then [s.name + BareExceptText] else [])
    + (if s.mentionsExcept && !s.printsErrorMark then [s.name + SilentExceptions] else [])
  }

  function ScriptIssues(scripts: seq<ScriptFacts>): seq<string>
    decreases |scripts|
  {
    if |scripts| == 0 then []
    else ScriptIssues(scripts[..|scripts| - 1]) + ScriptIssuesOf(scripts[|scripts| - 1])
  }

  /** `_check_script_error_handling`: nothing without Python scripts */
  function ScriptNotes(scripts: seq<ScriptFacts>): seq<Note>
  {
    if |scripts| == 0 then []
    else Capped(ScriptPrefix, ScriptIssues(scripts), ScriptsPass)
  }

  const EvaluationIndicators: seq<string> :=
    ["test scenario", "evaluation", "example usage", "test with", "test case", "baseline"]

  /** `_check_evaluation_references` */
  function EvaluationNotes(body: string): (r: seq<Note>)
    ensures !HasError(r)
    ensures |r| == 1
  {
    if exists k :: 0 <= k < |EvaluationIndicators| && Contains(Lower(body), EvaluationIndicators[k]) then
      [Pass(EvaluationsFound)]
    else [Warning(NoEvaluations)]
  }

  // ---------------------------------------------------------------------
  // The cascade
  // ---------------------------------------------------------------------

  /** The checks `check_structure` adds after a clean `check_init` */
  function StructureNotes(md: SkillMd, l: Layout, m: Matchers): seq<Note>
  {
    FrontmatterNotes(md.frontmatter) + DirectoryNotes(l) + ReferenceNotes(m.links(md.body), l.fileExists)
  }

  /** The checks `check_content` adds after a clean `check_structure` */
  function ContentNotes(md: SkillMd, l: Layout, m: Matchers): seq<Note>
  {
    DescriptionNotes(md.frontmatter, m) + NamingNotes(md.frontmatter) + WritingNotes(m.instructions(md.body))
    + DisclosureNotes(md.body, l.references) + ExampleNotes(md.body) + ConcisenessNotes(md.body)
    + FreedomNotes(md.body, m) + ScriptNotes(l.pythonScripts) + EvaluationNotes(md.body)
  }

  /** The log after `check_structure`, starting from `prior` */
  function StructureLog(prior: seq<Note>, dir: string, l: Layout, m: Matchers): seq<Note>
  {
    var log := prior + InitNotes(dir, l);
    if HasError(log) || l.skillMd.None? then log
    else log + StructureNotes(SkillMdOf(l.skillMd.value), l, m)
  }

  /** The log after `check_content`, starting from `prior` */
  function ContentLog(prior: seq<Note>, dir: string, l: Layout, m: Matchers): seq<Note>
  {
    var log := StructureLog(prior, dir, l, m);
    if HasError(log) || l.skillMd.None? then log
    else log + ContentNotes(SkillMdOf(l.skillMd.value), l, m)
  }

  // ---------------------------------------------------------------------
  // When validation fails
  // ---------------------------------------------------------------------

  /** The frontmatter is missing, or lacks a name or a description, or one
      of them is over its limit */
  predicate FrontmatterInvalid(fm: map<string, string>)
  {
    |fm| == 0 || "name" !in fm || |fm["name"]| > 64
    || "description" !in fm || |fm["description"]| > 1024
  }

  /** Some local link target does not exist */
  predicate BrokenLink(links: seq<string>, present: string -> bool)
  {
    exists i :: 0 <= i < |links| && !IsExternal(links[i]) && !present(links[i])
  }

  /** A log holds an error iff one of its two parts does. */
  lemma HasErrorAppend(a: seq<Note>, b: seq<Note>)
    ensures HasError(a + b) <==> HasError(a) || HasError(b)
  {
    if HasError(a + b) {
      var i :| 0 <= i < |a + b| && (a + b)[i].Error?;
      if i < |a| {
        assert a[i] == (a + b)[i];
      } else {
        assert b[i - |a|] == (a + b)[i];
      }
    }
    if HasError(a) {
      var i :| 0 <= i < |a| && a[i].Error?;
      assert (a + b)[i] == a[i];
    }
    if HasError(b) {
      var i :| 0 <= i < |b| && b[i].Error?;
      assert (a + b)[|a| + i] == b[i];
    }
  }

  /** The frontmatter check reports an error iff the frontmatter is invalid. */
  lemma FrontmatterErrors(fm: map<string, string>)
    ensures HasError(FrontmatterNotes(fm)) <==> FrontmatterInvalid(fm)
  {
    if |fm| > 0 {
      var n := NameNotes(fm);
      var d := DescriptionLengthNotes(fm);
      HasErrorAppend([Pass(FrontmatterFound)], n);
      HasErrorAppend([Pass(FrontmatterFound)] + n, d);
      assert !HasError([Pass(FrontmatterFound)]);
      if "name" in fm {
        var name := fm["name"];
        var lengthNote, formatNote := NameLengthNote(name), NameFormatNote(name);
        HasErrorAppend(lengthNote, formatNote);
        assert HasError(lengthNote) <==> |name| > 64 by {
          if |name| > 64 {
            assert lengthNote[0].Error?;
          }
        }
      } else {
        assert n[0].Error?;
      }
      if "description" !in fm || |fm["description"]| > 1024 {
        assert d[0].Error?;
      }
    } else {
      assert FrontmatterNotes(fm)[0].Error?;
    }
  }

  /** The reference check reports an error iff some local link is broken. */
  lemma {:induction false} ReferenceErrors(links: seq<string>, present: string -> bool)
    decreases |links|
    ensures HasError(ReferenceNotes(links, present)) <==> BrokenLink(links, present)
  {
    if |links| > 0 {
      var n := |links| - 1;
      var p := links[n];
      var prior := ReferenceNotes(links[..n], present);
      ReferenceErrors(links[..n], present);
      var tail := if IsExternal(p) then [] else if !present(p) then [Error(ReferenceMissing + p)]
        else [Pass(ReferenceValid + p)];
      assert ReferenceNotes(links, present) == prior + tail;
      HasErrorAppend(prior, tail);
      assert HasError(tail) <==> !IsExternal(p) && !present(p) by {
        if !IsExternal(p) && !present(p) {
          assert tail[0].Error?;
        }
      }
      if BrokenLink(links, present) {
        var i :| 0 <= i < |links| && !IsExternal(links[i]) && !present(links[i]);
        if i < n {
          assert links[..n][i] == links[i];
        }
      }
      if BrokenLink(links[..n], present) {
        var i :| 0 <= i < n && !IsExternal(links[..n][i]) && !present(links[..n][i]);
        assert links[i] == links[..n][i];
      }
    }
  }

  /** The directory counts never fail the structure check: an empty
      directory is only a warning. */
  lemma DirectoriesNeverFail(l: Layout)
    ensures !HasError(DirectoryNotes(l))
  {
    var s := DirectoryNote(l.scripts, "script(s)", "scripts/");
    var r := DirectoryNote(l.references, "reference file(s)", "references/");
    var a := DirectoryNote(l.assets, "asset(s)", "assets/");
    HasErrorAppend(s, r);
    HasErrorAppend(s + r, a);
  }

  /** The structure check after a clean initialisation reports an error iff
      the frontmatter is invalid or a local link is broken. */
  lemma StructureErrors(md: SkillMd, l: Layout, m: Matchers)
    ensures HasError(StructureNotes(md, l, m))
        <==> FrontmatterInvalid(md.frontmatter) || BrokenLink(m.links(md.body), l.fileExists)
  {
    var f := FrontmatterNotes(md.frontmatter);
    var r := ReferenceNotes(m.links(md.body), l.fileExists);
    HasErrorAppend(f, DirectoryNotes(l));
    HasErrorAppend(f + DirectoryNotes(l), r);
    FrontmatterErrors(md.frontmatter);
    DirectoriesNeverFail(l);
    ReferenceErrors(m.links(md.body), l.fileExists);
  }

  /** The vague-term check only warns. */
  lemma {:induction false} VagueNeverFails(description: string, terms: seq<string>)
    decreases |terms|
    ensures !HasError(VagueNotes(description, terms))
  {
    if |terms| > 0 {
      var n := |terms| - 1;
      var prior := VagueNotes(description, terms[..n]);
      VagueNeverFails(description, terms[..n]);
      HasErrorAppend(prior, [Warning(VagueTermText + terms[n] + BeSpecific)]);
    }
  }

  /** The capped issue list only warns or passes. */
  lemma CappedNeverFails(prefix: string, issues: seq<string>, passText: string)
    ensures !HasError(Capped(prefix, issues, passText))
  {
    if |issues| > 0 {
      var w := IssueWarnings(prefix, Take(issues, 3));
      var more := if |issues| > 3 then [Warning(prefix + "... and " + NatToString(|issues| - 3) + MoreIssues)] else [];
      HasErrorAppend(w, more);
    }
  }

  /** The description check only warns or passes. */
  lemma DescriptionNeverFails(fm: map<string, string>, m: Matchers)
    ensures !HasError(DescriptionNotes(fm, m))
  {
    if "description" in fm {
      var d := fm["description"];
      var voice, trigger := VoiceNote(d, m), TriggerNote(d, m);
      VagueNeverFails(d, VagueTerms);
      HasErrorAppend(voice, trigger);
      HasErrorAppend(voice + trigger, VagueNotes(d, VagueTerms));
    }
  }

  /** The body-length check only warns or passes. */
  lemma DisclosureNeverFails(body: string, references: Option<nat>)
    ensures !HasError(DisclosureNotes(body, references))
  {
    var n := LineCount(body);
    HasErrorAppend(BodyLengthNote(n), LargeBodyNote(n, references));
  }

  /** The content checks only warn or pass: none of them fails validation. */
  lemma ContentNeverFails(md: SkillMd, l: Layout, m: Matchers)
    ensures !HasError(ContentNotes(md, l, m))
  {
    var fm, body := md.frontmatter, md.body;
    DescriptionNeverFails(fm, m);
    DisclosureNeverFails(body, l.references);
    CappedNeverFails(VerbosityPrefix, VerboseIssues(body, VerbosePatterns), ConcisePass);
    if |l.pythonScripts| > 0 {
      CappedNeverFails(ScriptPrefix, ScriptIssues(l.pythonScripts), ScriptsPass);
    }
    CleanConcat(DescriptionNotes(fm, m), NamingNotes(fm), WritingNotes(m.instructions(body)),
                DisclosureNotes(body, l.references), ExampleNotes(body), ConcisenessNotes(body),
                FreedomNotes(body, m), ScriptNotes(l.pythonScripts), EvaluationNotes(body));
  }

  /** Nine logs without errors put together have none. */
  lemma CleanConcat(a: seq<Note>, b: seq<Note>, c: seq<Note>, d: seq<Note>, e: seq<Note>,
                    f: seq<Note>, g: seq<Note>, h: seq<Note>, i: seq<Note>)
    requires !HasError(a) && !HasError(b) && !HasError(c) && !HasError(d) && !HasError(e)
    requires !HasError(f) && !HasError(g) && !HasError(h) && !HasError(i)
    ensures !HasError(a + b + c + d + e + f + g + h + i)
  {
    HasErrorAppend(a, b);
    HasErrorAppend(a + b, c);
    HasErrorAppend(a + b + c, d);
    HasErrorAppend(a + b + c + d, e);
    HasErrorAppend(a + b + c + d + e, f);
    HasErrorAppend(a + b + c + d + e + f, g);
    HasErrorAppend(a + b + c + d + e + f + g, h);
    HasErrorAppend(a + b + c + d + e + f + g + h, i);
  }

  /** A fresh validation fails: the directory or SKILL.md is missing, the
      frontmatter is invalid, or a local link is broken */
  predicate Fails(l: Layout, m: Matchers)
  {
    !l.dirExists || l.skillMd.None?
    || (var md := SkillMdOf(l.skillMd.value);
        FrontmatterInvalid(md.frontmatter) || BrokenLink(m.links(md.body), l.fileExists))
  }

  /** The initialisation check fails iff the directory or SKILL.md is
      missing. */
  lemma InitErrors(dir: string, l: Layout)
    ensures HasError(InitNotes(dir, l)) <==> !l.dirExists || l.skillMd.None?
  {
    var init := InitNotes(dir, l);
    if !l.dirExists {
      assert init[0].Error?;
    } else if l.skillMd.None? {
      assert init[1].Error?;
    } else {
      var sc, r, a := FoundNote(l.scripts, "scripts/"), FoundNote(l.references, "references/"), FoundNote(l.assets, "assets/");
      HasErrorAppend(sc, r);
      HasErrorAppend(sc + r, a);
      HasErrorAppend([Pass(DirExistsText + dir)], [Pass(SkillMdExists)]);
      HasErrorAppend([Pass(DirExistsText + dir)] + [Pass(SkillMdExists)], StructureBasicNotes(l));
    }
  }

  /** The structure check on a fresh result reports an error iff the skill
      fails. */
  lemma StructureVerdict(dir: string, l: Layout, m: Matchers)
    ensures HasError(StructureLog([], dir, l, m)) <==> Fails(l, m)
  {
    var init := InitNotes(dir, l);
    assert [] + init == init;
    InitErrors(dir, l);
    if l.dirExists && l.skillMd.Some? {
      var md := SkillMdOf(l.skillMd.value);
      StructureErrors(md, l, m);
      HasErrorAppend(init, StructureNotes(md, l, m));
    }
  }

  /** The whole cascade on a fresh result reports an error iff the skill
      fails: the content checks never add one. */
  lemma FullCheckVerdict(dir: string, l: Layout, m: Matchers)
    ensures HasError(ContentLog([], dir, l, m)) <==> Fails(l, m)
  {
    StructureVerdict(dir, l, m);
    var log := StructureLog([], dir, l, m);
    if !HasError(log) && l.skillMd.Some? {
      var md := SkillMdOf(l.skillMd.value);
      ContentNeverFails(md, l, m);
      HasErrorAppend(log, ContentNotes(md, l, m));
    }
  }

  /** `SkillValidator`: one skill directory, one result object that every
      check adds to */
  class SkillValidator {
    const skillDir: string
    const layout: Layout
    const matchers: Matchers
    const result: ValidationResult

    constructor(skillDir: string, layout: Layout, matchers: Matchers)
      ensures this.skillDir == skillDir && this.layout == layout && this.matchers == matchers
      ensures fresh(result) && result.Valid() && result.log == []
    {
      this.skillDir := skillDir;
      this.layout := layout;
      this.matchers := matchers;
      result := new ValidationResult();
    }

    method CheckInit()
      requires result.Valid()
      modifies result
      ensures result.Valid()
      ensures result.log == old(result.log) + InitNotes(skillDir, layout)
    {
      ghost var l0 := result.log;
      if !layout.dirExists {
        result.AddError(DirMissing + skillDir);
        return;
      }
      result.AddPass(DirExistsText + skillDir);
      if layout.skillMd.None? {
        result.AddError(SkillMdMissing + skillDir);
        AppendAssoc(l0, [Pass(DirExistsText + skillDir)], [Error(SkillMdMissing + skillDir)]);
        return;
      }
      result.AddPass(SkillMdExists);
      ghost var greeting := [Pass(DirExistsText + skillDir)] + [Pass(SkillMdExists)];
      AppendAssoc(l0, [Pass(DirExistsText + skillDir)], [Pass(SkillMdExists)]);
      CheckStructureBasic();
      AppendAssoc(l0, greeting, StructureBasicNotes(layout));
    }

    method CheckStructureBasic()
      requires result.Valid()
      modifies result
      ensures result.Valid()
      ensures result.log == old(result.log) + StructureBasicNotes(layout)
    {
      ghost var l0 := result.log;
      NoteFound(layout.scripts, "scripts/");
      NoteFound(layout.references, "references/");
      AppendAssoc(l0, FoundNote(layout.scripts, "scripts/"), FoundNote(layout.references, "references/"));
      NoteFound(layout.assets, "assets/");
      AppendAssoc(l0, FoundNote(layout.scripts, "scripts/") + FoundNote(layout.references, "references/"),
                  FoundNote(layout.assets, "assets/"));
    }

    /** One directory of `_check_structure_basic` */
    method NoteFound(count: Option<nat>, dir: string)
      requires result.Valid()
      modifies result
      ensures result.Valid()
      ensures result.log == old(result.log) + FoundNote(count, dir)
    {
      if count.Some? {
        result.AddPass(dir + DirectoryFound);
      }
    }

    method CheckStructure()
      requires result.Valid()
      modifies result
      ensures result.Valid()
      ensures result.log == StructureLog(old(result.log), skillDir, layout, matchers)
    {
      CheckInit();
      HasErrorsIffErrorLogged(result);
      if result.HasErrors() || layout.skillMd.None? {
        return;
      }
      var md := ReadSkillMd(layout.skillMd.value);
      ghost var l0 := result.log;
      CheckFrontmatter(md.frontmatter);
      CheckDirectories();
      AppendAssoc(l0, FrontmatterNotes(md.frontmatter), DirectoryNotes(layout));
      CheckFileReferences(md.body);
      AppendAssoc(l0, FrontmatterNotes(md.frontmatter) + DirectoryNotes(layout),
                  ReferenceNotes(matchers.links(md.body), layout.fileExists));
    }

    method CheckContent()
      requires result.Valid()
      modifies result
      ensures result.Valid()
      ensures result.log == ContentLog(old(result.log), skillDir, layout, matchers)
    {
      CheckStructure();
      HasErrorsIffErrorLogged(result);
      if result.HasErrors() || layout.skillMd.None? {
        return;
      }
      var md := ReadSkillMd(layout.skillMd.value);
      RunContentChecks(md);
    }

    /** The checks of `check_content`, in order, on the parsed SKILL.md */
    method RunContentChecks(md: SkillMd)
      requires result.Valid()
      modifies result
      ensures result.Valid()
      ensures result.log == old(result.log) + ContentNotes(md, layout, matchers)
    {
      var fm, body := md.frontmatter, md.body;
      ghost var l0 := result.log;
      CheckDescriptionQuality(fm);
      ghost var done := DescriptionNotes(fm, matchers);
      CheckNaming(fm);
      AppendAssoc(l0, done, NamingNotes(fm));
      done := done + NamingNotes(fm);
      CheckWritingStyle(body);
      AppendAssoc(l0, done, WritingNotes(matchers.instructions(body)));
      done := done + WritingNotes(matchers.instructions(body));
      CheckProgressiveDisclosure(body);
      AppendAssoc(l0, done, DisclosureNotes(body, layout.references));
      done := done + DisclosureNotes(body, layout.references);
      CheckExamples(body);
      AppendAssoc(l0, done, ExampleNotes(body));
      done := done + ExampleNotes(body);
      CheckConciseness(body);
      AppendAssoc(l0, done, ConcisenessNotes(body));
      done := done + ConcisenessNotes(body);
      CheckDegreesOfFreedom(body);
      AppendAssoc(l0, done, FreedomNotes(body, matchers));
      done := done + FreedomNotes(body, matchers);
      CheckScriptErrorHandling();
      AppendAssoc(l0, done, ScriptNotes(layout.pythonScripts));
      done := done + ScriptNotes(layout.pythonScripts);
      CheckEvaluationReferences(body);
      AppendAssoc(l0, done, EvaluationNotes(body));
      done := done + EvaluationNotes(body);
      assert done == ContentNotes(md, layout, matchers);
    }

    /** `full_check`: the whole cascade; the summary it prints is output only */
    method FullCheck()
      requires result.Valid()
      modifies result
      ensures result.Valid()
      ensures result.log == ContentLog(old(result.log), skillDir, layout, matchers)
    {
      CheckContent();
    }

    method CheckFrontmatter(fm: map<string, string>)
      requires result.Valid()
      modifies result
      ensures result.Valid()
      ensures result.log == old(result.log) + FrontmatterNotes(fm)
    {
      ghost var l0 := result.log;
      if |fm| == 0 {
        result.AddError(MissingFrontmatter);
        return;
      }
      result.AddPass(FrontmatterFound);
      CheckName(fm);
      AppendAssoc(l0, [Pass(FrontmatterFound)], NameNotes(fm));
      CheckDescriptionLength(fm);
      AppendAssoc(l0, [Pass(FrontmatterFound)] + NameNotes(fm), DescriptionLengthNotes(fm));
    }

    /** The name part of `_check_frontmatter` */
    method CheckName(fm: map<string, string>)
      requires result.Valid()
      modifies result
      ensures result.Valid()
      ensures result.log == old(result.log) + NameNotes(fm)
    {
      if "name" !in fm {
        result.AddError(NameMissing);
        return;
      }
      var name := fm["name"];
      ghost var l0 := result.log;
      if |name| > 64 {
        result.AddError(NameTooLong + NatToString(|name|) + " chars");
      } else {
        result.AddPass(NameLengthOk + NatToString(|name|) + "/64 chars");
      }
      assert result.log == l0 + NameLengthNote(name);
      if !IsSlug(name) {
        result.AddWarning("Name '" + name + NameFormatHint);
      } else {
        result.AddPass(NameFormatOk);
      }
      AppendAssoc(l0, NameLengthNote(name), NameFormatNote(name));
    }

    /** The description part of `_check_frontmatter` */
    method CheckDescriptionLength(fm: map<string, string>)
      requires result.Valid()
      modifies result
      ensures result.Valid()
      ensures result.log == old(result.log) + DescriptionLengthNotes(fm)
    {
      if "description" !in fm {
        result.AddError(DescriptionMissing);
        return;
      }
      var n := |fm["description"]|;
      if n > 1024 {
        result.AddError(DescriptionTooLong + NatToString(n) + " chars");
      } else if n < 50 {
        result.AddWarning(DescriptionShort + NatToString(n) + ShortHint);
      } else {
        result.AddPass(DescriptionLengthOk + NatToString(n) + "/1024 chars");
      }
    }

    method CheckDirectory(count: Option<nat>, found: string, dir: string)
      requires result.Valid()
      modifies result
      ensures result.Valid()
      ensures result.log == old(result.log) + DirectoryNote(count, found, dir)
    {
      if count.Some? {
        if count.value > 0 {
          result.AddPass("Found " + NatToString(count.value) + " " + found + " in " + dir);
        } else {
          result.AddWarning(dir + DirectoryEmpty);
        }
      }
    }

    method CheckDirectories()
      requires result.Valid()
      modifies result
      ensures result.Valid()
      ensures result.log == old(result.log) + DirectoryNotes(layout)
    {
      CheckDirectory(layout.scripts, "script(s)", "scripts/");
      CheckDirectory(layout.references, "reference file(s)", "references/");
      CheckDirectory(layout.assets, "asset(s)", "assets/");
    }

    method CheckFileReferences(body: string)
      requires result.Valid()
      modifies result
      ensures result.Valid()
      ensures result.log == old(result.log) + ReferenceNotes(matchers.links(body), layout.fileExists)
    {
      var links := matchers.links(body);
      var i := 0;
      while i < |links|
        invariant 0 <= i <= |links|
        invariant result.Valid()
        invariant result.log == old(result.log) + ReferenceNotes(links[..i], layout.fileExists)
      {
        var p := links[i];
        assert links[..i + 1][..i] == links[..i];
        if IsExternal(p) {
        } else if !layout.fileExists(p) {
          result.AddError(ReferenceMissing + p);
        } else {
          result.AddPass(ReferenceValid + p);
        }
        i := i + 1;
      }
      assert links[..|links|] == links;
    }

    method CheckDescriptionQuality(fm: map<string, string>)
      requires result.Valid()
      modifies result
      ensures result.Valid()
      ensures result.log == old(result.log) + DescriptionNotes(fm, matchers)
    {
      if "description" !in fm {
        return;
      }
      var d := fm["description"];
      ghost var l0 := result.log;
      if matchers.secondPerson(d) {
        result.AddWarning(SecondPersonWarning);
      } else {
        result.AddPass(ThirdPersonPass);
      }
      assert result.log == l0 + VoiceNote(d, matchers);
      if matchers.whenToUse(d) {
        result.AddPass(TriggerPass);
      } else {
        result.AddWarning(NoTriggerWarning);
      }
      AppendAssoc(l0, VoiceNote(d, matchers), TriggerNote(d, matchers));
      ghost var voice := VoiceNote(d, matchers) + TriggerNote(d, matchers);
      WarnVagueTerms(d);
      AppendAssoc(l0, voice, VagueNotes(d, VagueTerms));
    }

    /** The vague-term loop of `_check_description_quality` */
    method WarnVagueTerms(d: string)
      requires result.Valid()
      modifies result
      ensures result.Valid()
      ensures result.log == old(result.log) + VagueNotes(d, VagueTerms)
    {
      var i := 0;
      while i < |VagueTerms|
        invariant 0 <= i <= |VagueTerms|
        invariant result.Valid()
        invariant result.log == old(result.log) + VagueNotes(d, VagueTerms[..i])
      {
        var term := VagueTerms[i];
        assert VagueTerms[..i + 1][..i] == VagueTerms[..i];
        if Contains(Lower(d), Lower(term)) {
          AppendAssoc(old(result.log), VagueNotes(d, VagueTerms[..i]),
                      [Warning(VagueTermText + term + BeSpecific)]);
          result.AddWarning(VagueTermText + term + BeSpecific);
        }
        i := i + 1;
      }
      assert VagueTerms[..|VagueTerms|] == VagueTerms;
    }

    method CheckNaming(fm: map<string, string>)
      requires result.Valid()
      modifies result
      ensures result.Valid()
      ensures result.log == old(result.log) + NamingNotes(fm)
    {
      if "name" !in fm {
        return;
      }
      var name := fm["name"];
      var words := Split(name, '-');
      if HasGerund(name) {
        result.AddPass(GerundPass);
      } else {
        result.AddWarning(GerundHint + words[0]
                          + "' instead of '" + name + "'");
      }
    }

    method CheckWritingStyle(body: string)
      requires result.Valid()
      modifies result
      ensures result.Valid()
      ensures result.log == old(result.log) + WritingNotes(matchers.instructions(body))
    {
      var count := matchers.instructions(body);
      if count > 5 {
        result.AddWarning("Found " + NatToString(count) + ManyInstances);
      } else if count > 0 {
        result.AddWarning("Found " + NatToString(count) + FewInstances);
      } else {
        result.AddPass(ImperativeStyle);
      }
    }

    method CheckProgressiveDisclosure(body: string)
      requires result.Valid()
      modifies result
      ensures result.Valid()
      ensures result.log == old(result.log) + DisclosureNotes(body, layout.references)
    {
      var n := LineCount(body);
      ghost var l0 := result.log;
      if n > 500 {
        result.AddWarning(BodyHas + NatToString(n) + LongBodyHint);
      } else {
        result.AddPass(BodyLengthOk + NatToString(n) + " lines");
      }
      assert result.log == l0 + BodyLengthNote(n);
      if n > 500 {
        if layout.references.None? || layout.references == Some(0) {
          result.AddWarning(NoDisclosure);
        }
      }
      AppendAssoc(l0, BodyLengthNote(n), LargeBodyNote(n, layout.references));
    }

    method CheckExamples(body: string)
      requires result.Valid()
      modifies result
      ensures result.Valid()
      ensures result.log == old(result.log) + ExampleNotes(body)
    {
      if HasExamples(body) {
        result.AddPass(ExamplesFound);
      } else {
        result.AddWarning(NoExamples);
      }
    }

    /** The warnings for the first three issues, the summary of the rest, or
        the pass message */
    method ReportIssues(prefix: string, issues: seq<string>, passText: string)
      requires result.Valid()
      modifies result
      ensures result.Valid()
      ensures result.log == old(result.log) + Capped(prefix, issues, passText)
    {
      if |issues| == 0 {
        result.AddPass(passText);
        return;
      }
      WarnAll(prefix, Take(issues, 3));
      if |issues| > 3 {
        result.AddWarning(prefix + "... and " + NatToString(|issues| - 3) + MoreIssues);
        AppendAssoc(old(result.log), IssueWarnings(prefix, Take(issues, 3)),
                    [Warning(prefix + "... and " + NatToString(|issues| - 3) + MoreIssues)]);
      }
    }

    /** A warning for each issue, in order */
    method WarnAll(prefix: string, issues: seq<string>)
      requires result.Valid()
      modifies result
      ensures result.Valid()
      ensures result.log == old(result.log) + IssueWarnings(prefix, issues)
    {
      var i := 0;
      while i < |issues|
        invariant 0 <= i <= |issues|
        invariant result.Valid()
        invariant result.log == old(result.log) + IssueWarnings(prefix, issues[..i])
      {
        assert IssueWarnings(prefix, issues[..i + 1]) == IssueWarnings(prefix, issues[..i]) + [Warning(prefix + issues[i])];
        AppendAssoc(old(result.log), IssueWarnings(prefix, issues[..i]), [Warning(prefix + issues[i])]);
        result.AddWarning(prefix + issues[i]);
        i := i + 1;
      }
      assert issues[..|issues|] == issues;
    }

    method CheckConciseness(body: string)
      requires result.Valid()
      modifies result
      ensures result.Valid()
      ensures result.log == old(result.log) + ConcisenessNotes(body)
    {
      var issues := FoundVerbosity(body);
      ReportIssues(VerbosityPrefix, issues, ConcisePass);
    }

    method CheckDegreesOfFreedom(body: string)
      requires result.Valid()
      modifies result
      ensures result.Valid()
      ensures result.log == old(result.log) + FreedomNotes(body, matchers)
    {
      var issues := FreedomIssues(body, matchers);
      if |issues| == 0 {
        result.AddPass(FreedomPass);
        return;
      }
      WarnAll(FreedomPrefix, issues);
    }

    method CheckScriptErrorHandling()
      requires result.Valid()
      modifies result
      ensures result.Valid()
      ensures result.log == old(result.log) + ScriptNotes(layout.pythonScripts)
    {
      var scripts := layout.pythonScripts;
      if |scripts| == 0 {
        return;
      }
      var issues := CollectScriptIssues(scripts);
      ReportIssues(ScriptPrefix, issues, ScriptsPass);
    }

    method CheckEvaluationReferences(body: string)
      requires result.Valid()
      modifies result
      ensures result.Valid()
      ensures result.log == old(result.log) + EvaluationNotes(body)
    {
      if exists k :: 0 <= k < |EvaluationIndicators| && Contains(Lower(body), EvaluationIndicators[k]) {
        result.AddPass(EvaluationsFound);
      } else {
        result.AddWarning(NoEvaluations);
      }
    }
  }

  /** The loop of `_check_script_error_handling` that collects the issues
      of every Python script, in order. */
  method CollectScriptIssues(scripts: seq<ScriptFacts>) returns (issues: seq<string>)
    ensures issues == ScriptIssues(scripts)
  {
    issues := [];
    var i := 0;
    while i < |scripts|
      invariant 0 <= i <= |scripts|
      invariant issues == ScriptIssues(scripts[..i])
    {
      assert scripts[..i + 1][..i] == scripts[..i];
      var s := scripts[i];
      ghost var before := issues;
      if s.opensFiles && !s.hasTry {
        issues := issues + [s.name + UnguardedFileOps];
      }
      ghost var first := issues[|before|..];
      if s.bareExcept {
        issues := issues + [s.name + BareExceptText];
      }
      AppendAssoc(before, first, issues[|before| + |first|..]);
      ghost var second := issues[|before|..];
      if s.mentionsExcept && !s.printsErrorMark {
        issues := issues + [s.name + SilentExceptions];
      }
      AppendAssoc(before, second, issues[|before| + |second|..]);
      i := i + 1;
    }
    assert scripts[..|scripts|] == scripts;
  }

  /** The loop of `_check_conciseness` that collects the messages of the
      verbosity patterns found in the body. */
  method FoundVerbosity(body: string) returns (issues: seq<string>)
    ensures issues == VerboseIssues(body, VerbosePatterns)
  {
    issues := [];
    var i := 0;
    while i < |VerbosePatterns|
      invariant 0 <= i <= |VerbosePatterns|
      invariant issues == VerboseIssues(body, VerbosePatterns[..i])
    {
      var v := VerbosePatterns[i];
      assert VerbosePatterns[..i + 1][..i] == VerbosePatterns[..i];
      if Mentions(body, v) {
        issues := issues + [v.message];
      }
      i := i + 1;
    }
    assert VerbosePatterns[..|VerbosePatterns|] == VerbosePatterns;
  }

  /** The check a command line selects */
  datatype Check = InitCheck | StructureCheck | ContentCheck | FullValidation

  /** `main` after the arguments are parsed: one check on a fresh validator,
      and exit code 1 iff it reported an error. The initialisation check
      fails iff the directory or SKILL.md is missing; every later check
      fails iff the skill does. */
  method RunCheck(check: Check, dir: string, l: Layout, m: Matchers) returns (code: int)
    ensures check == InitCheck ==> (code == 1 <==> !l.dirExists || l.skillMd.None?)
    ensures check != InitCheck ==> (code == 1 <==> Fails(l, m))
    ensures code == 0 || code == 1
  {
    var v := new SkillValidator(dir, l, m);
    if check == InitCheck {
      v.CheckInit();
      assert HasError(v.result.log) <==> !l.dirExists || l.skillMd.None? by {
        assert v.result.log == [] + InitNotes(dir, l);
        InitErrors(dir, l);
      }
    } else if check == StructureCheck {
      v.CheckStructure();
      assert HasError(v.result.log) <==> Fails(l, m) by { StructureVerdict(dir, l, m); }
    } else {
      if check == ContentCheck {
        v.CheckContent();
      } else {
        v.FullCheck();
      }
      assert HasError(v.result.log) <==> Fails(l, m) by { FullCheckVerdict(dir, l, m); }
    }
    assert v.result.HasErrors() <==> HasError(v.result.log) by {
      HasErrorsIffErrorLogged(v.result);
    }
    code := if v.result.HasErrors() then 1 else 0;
  }
}
