/** The synthesizer's passes over a finished template: its placeholder
    list re-read from the content, default values taken from examples, and
    the non-blocking syntax check. */
module TemplateChecks {
  import opened Text
  import opened Wrappers
  import opened OrderedGroups
  import opened Placeholders
  import opened TemplateComments
  import opened TemplateSynthesis

  // ---------------------------------------------------------------------
  // Placeholders
  // ---------------------------------------------------------------------

  /** `create_variable_placeholders`: the placeholder list becomes the set of
      names written as `${NAME}` in the content. Python lists a set, whose
      order is unspecified, so only the members and their uniqueness are
      promised. */
  method CreateVariablePlaceholders(t: Template)
    modifies t
    ensures NoDuplicates(t.placeholders)
    ensures forall n :: n in t.placeholders <==> IsName(n) && Contains(t.content, Placeholder(n))
    ensures t.defaults == old(t.defaults)
  {
    var names := Tokens(t.content);
    DistinctSpec(names);
    t.placeholders := Distinct(names);
    forall n
      ensures n in t.placeholders <==> IsName(n) && Contains(t.content, Placeholder(n))
    {
      TokensSpec(t.content, n);
    }
  }

  // ---------------------------------------------------------------------
  // Default values
  // ---------------------------------------------------------------------

  /** The value an example's code proposes for a placeholder: its first URL
      for a name containing "URL", otherwise its first path for a name
      containing "FILE" or "PATH". The path pattern is given as `paths`. */
  function Proposal(name: string, code: string, paths: string -> seq<string>): Option<string>
  {
    if Contains(name, "URL") then
      (if |Urls(code)| > 0 then Some(Urls(code)[0]) else None)
    else if Contains(name, "FILE") || Contains(name, "PATH") then
      (if |paths(code)| > 0 then Some(paths(code)[0]) else None)
    else None
  }

  /** One example's pass over the placeholders: a name gets the proposed
      value unless it already has one */
  function ExampleDefaults(d: map<string, string>, code: string, names: seq<string>, paths: string -> seq<string>)
    : map<string, string>
    decreases |names|
  {
    if |names| == 0 then d
    else
      var n := |names| - 1;
      var before := ExampleDefaults(d, code, names[..n], paths);
      var p := names[n];
      var v := Proposal(p, code, paths);
      if v.Some? && p !in before then before[p := v.value] else before
  }

  /** `add_default_values` as a value */
  function Defaults(names: seq<string>, examples: seq<ExampleDict>, paths: string -> seq<string>): map<string, string>
    decreases |examples|
  {
    if |examples| == 0 then map[]
    else
      var n := |examples| - 1;
      ExampleDefaults(Defaults(names, examples[..n], paths), CodeOf(examples[n]), names, paths)
  }

  /** `add_default_values`: every example in order, every placeholder in
      order; the defaults are replaced as a whole */
  method AddDefaultValues(t: Template, examples: seq<ExampleDict>, paths: string -> seq<string>)
    modifies t
    ensures t.defaults == Defaults(t.placeholders, examples, paths)
    ensures t.placeholders == old(t.placeholders)
  {
    var names := t.placeholders;
    var defaults: map<string, string> := map[];
    for i := 0 to |examples|
      invariant defaults == Defaults(names, examples[..i], paths)
    {
      assert examples[..i + 1][..i] == examples[..i];
      var code := CodeOf(examples[i]);
      ghost var start := defaults;
      for k := 0 to |names|
        invariant defaults == ExampleDefaults(start, code, names[..k], paths)
      {
        assert names[..k + 1][..k] == names[..k];
        var p := names[k];
        if Contains(p, "URL") {
          var urls := Urls(code);
          if |urls| > 0 && p !in defaults {
            defaults := defaults[p := urls[0]];
          }
        } else if Contains(p, "FILE") || Contains(p, "PATH") {
          var found := paths(code);
          if |found| > 0 && p !in defaults {
            defaults := defaults[p := found[0]];
          }
        }
      }
      assert names[..|names|] == names;
    }
    assert examples[..|examples|] == examples;
    t.defaults := defaults;
  }

  /** One example's pass keeps every value already set and adds the proposed
      value for exactly the listed names without one. */
  lemma {:induction false} ExampleDefaultsSpec(d: map<string, string>, code: string, names: seq<string>,
                                               paths: string -> seq<string>, p: string)
    decreases |names|
    ensures p in d ==> p in ExampleDefaults(d, code, names, paths) && ExampleDefaults(d, code, names, paths)[p] == d[p]
    ensures p !in d ==>
      (p in ExampleDefaults(d, code, names, paths) <==> p in names && Proposal(p, code, paths).Some?)
    ensures p !in d && p in ExampleDefaults(d, code, names, paths) ==>
      ExampleDefaults(d, code, names, paths)[p] == Proposal(p, code, paths).value
  {
    if |names| > 0 {
      var n := |names| - 1;
      ExampleDefaultsSpec(d, code, names[..n], paths, p);
      assert names == names[..n] + [names[n]];
    }
  }

  /** The position of the first example proposing a value for `p` */
  predicate FirstProposer(names: seq<string>, examples: seq<ExampleDict>, paths: string -> seq<string>, p: string, j: nat)
  {
    j < |examples| && Proposal(p, CodeOf(examples[j]), paths).Some?
    && forall m :: 0 <= m < j ==> Proposal(p, CodeOf(examples[m]), paths).None?
  }

  /** A placeholder has a default exactly when it is listed and some example
      proposes a value; the value is the one the earliest such example
      proposes, and no later example overwrites it. */
  lemma {:induction false} DefaultsSpec(names: seq<string>, examples: seq<ExampleDict>, paths: string -> seq<string>, p: string)
    decreases |examples|
    ensures p in Defaults(names, examples, paths) <==>
      p in names && exists j :: 0 <= j < |examples| && Proposal(p, CodeOf(examples[j]), paths).Some?
    ensures p in Defaults(names, examples, paths) ==>
      exists j: nat :: FirstProposer(names, examples, paths, p, j)
        && Defaults(names, examples, paths)[p] == Proposal(p, CodeOf(examples[j]), paths).value
  {
    if |examples| > 0 {
      var n := |examples| - 1;
      var init := examples[..n];
      var before := Defaults(names, init, paths);
      DefaultsSpec(names, init, paths, p);
      ExampleDefaultsSpec(before, CodeOf(examples[n]), names, paths, p);
      assert forall j :: 0 <= j < n ==> init[j] == examples[j];
      if p in before {
        var j: nat :| FirstProposer(names, init, paths, p, j)
          && before[p] == Proposal(p, CodeOf(init[j]), paths).value;
        assert FirstProposer(names, examples, paths, p, j);
      } else if p in Defaults(names, examples, paths) {
        assert FirstProposer(names, examples, paths, p, n);
      }
    }
  }

  /** Only placeholders get defaults. */
  lemma DefaultsKeys(names: seq<string>, examples: seq<ExampleDict>, paths: string -> seq<string>)
    ensures forall p :: p in Defaults(names, examples, paths) ==> p in names
  {
    forall p | p in Defaults(names, examples, paths)
      ensures p in names
    {
      DefaultsSpec(names, examples, paths, p);
    }
  }

  // ---------------------------------------------------------------------
  // Syntax check
  // ---------------------------------------------------------------------

  datatype ValidationResult = ValidationResult(
    isValid: bool,
    errors: seq<string>,
    warnings: seq<string>,
    suggestions: seq<string>)

  const NoPlaceholdersSuggestion := "No placeholders found - consider if template needs variable parts"
  const CommentsSuggestion := "Consider adding inline comments to explain usage"

  /** How many of the lines start with `prefix` */
  function CountStarting(lines: seq<string>, prefix: string): nat
    decreases |lines|
  {
    if |lines| == 0 then 0
    else
      var n := |lines| - 1;
      CountStarting(lines[..n], prefix) + (if StartsWith(lines[n], prefix) then 1 else 0)
  }

  function PythonWarnings(content: string): seq<string>
  {
    var lines := Split(content, '\n');
    (if Count(content, "'") % 2 != 0 then ["Unmatched single quotes detected"] else [])
    + (if Count(content, "\"") % 2 != 0 then ["Unmatched double quotes detected"] else [])
    + (if CountStarting(lines, "\t") > 0 && CountStarting(lines, "    ") > 0
       then ["Mixed tabs and spaces in indentation"] else [])
  }

  function ShellWarnings(content: string): seq<string>
  {
    if Count(content, "\"") % 2 != 0 then ["Unmatched double quotes in bash script"] else []
  }

  /** The language-specific warnings: Python and shell scripts only */
  function LanguageWarnings(content: string, language: string): seq<string>
  {
    if language in ["python", "py"] then PythonWarnings(content)
    else if language in ["bash", "shell", "sh"] then ShellWarnings(content)
    else []
  }

  /** `validate_template_syntax` as a value */
  function SyntaxCheck(content: string, language: string, placeholders: seq<string>): ValidationResult
  {
    var errors := MismatchErrors(content);
    ValidationResult(|errors| == 0, errors, LanguageWarnings(content, language),
      Suggestions(content, language, placeholders))
  }

  /** The one error: "${" and "}" not equally many */
  function MismatchErrors(content: string): seq<string>
  {
    var opens := Count(content, "${");
    var closes := Count(content, "}");
    if opens != closes
    then ["Mismatched placeholders: " + NatToString(opens) + " open, " + NatToString(closes) + " close"]
    else []
  }

  function Suggestions(content: string, language: string, placeholders: seq<string>): seq<string>
  {
    (if |placeholders| == 0 then [NoPlaceholdersSuggestion] else [])
    + (if !Contains(content, CommentSyntax(language)) then [CommentsSuggestion] else [])
  }

  /** The language checks of `validate_template_syntax`, in their order */
  method CheckLanguage(content: string, language: string) returns (warnings: seq<string>)
    ensures warnings == LanguageWarnings(content, language)
  {
    warnings := [];
    if language in ["python", "py"] {
      if Count(content, "'") % 2 != 0 {
        warnings := warnings + ["Unmatched single quotes detected"];
      }
      if Count(content, "\"") % 2 != 0 {
        warnings := warnings + ["Unmatched double quotes detected"];
      }
      var lines := Split(content, '\n');
      var tabLines := CountStarting(lines, "\t");
      var spaceLines := CountStarting(lines, "    ");
      if tabLines > 0 && spaceLines > 0 {
        warnings := warnings + ["Mixed tabs and spaces in indentation"];
      }
    } else if language in ["bash", "shell", "sh"] {
      if Count(content, "\"") % 2 != 0 {
        warnings := warnings + ["Unmatched double quotes in bash script"];
      }
    }
  }

  /** `validate_template_syntax`: errors, then language checks, then
      suggestions; the template is never changed */
  method ValidateTemplateSyntax(t: Template) returns (result: ValidationResult)
    ensures result == SyntaxCheck(t.content, t.language, t.placeholders)
  {
    var errors: seq<string> := [];
    var warnings: seq<string>;
    var suggestions: seq<string> := [];
    var content := t.content;
    var opens := Count(content, "${");
    var closes := Count(content, "}");
    if opens != closes {
      errors := errors + ["Mismatched placeholders: " + NatToString(opens) + " open, " + NatToString(closes) + " close"];
    }
    assert errors == MismatchErrors(content);
    warnings := CheckLanguage(content, t.language);
    if |t.placeholders| == 0 {
      suggestions := suggestions + [NoPlaceholdersSuggestion];
    }
    var marker := CommentSyntax(t.language);
    if !Contains(content, marker) {
      suggestions := suggestions + [CommentsSuggestion];
    }
    assert suggestions == Suggestions(content, t.language, t.placeholders);
    result := ValidationResult(|errors| == 0, errors, warnings, suggestions);
  }

  /** The check fails exactly when "${" and "}" are not equally many, with
      one error; warnings come only for Python and shell languages; the two
      suggestions are made exactly when their conditions hold. */
  lemma SyntaxCheckRules(content: string, language: string, placeholders: seq<string>)
    ensures var r := SyntaxCheck(content, language, placeholders);
      && (r.isValid <==> Count(content, "${") == Count(content, "}"))
      && (r.isValid <==> |r.errors| == 0)
      && |r.errors| <= 1
      && (|r.warnings| > 0 ==> language in ["python", "py", "bash", "shell", "sh"])
      && |r.warnings| <= 3
      && (NoPlaceholdersSuggestion in r.suggestions <==> |placeholders| == 0)
      && (CommentsSuggestion in r.suggestions <==> !Contains(content, CommentSyntax(language)))
  {
  }

  /** Content written by `add_inline_comments` carries its language's comment
      marker, so it never draws the comment suggestion. */
  lemma CommentedContentHasMarker(content: string, context: map<string, string>, language: string)
    ensures Contains(InlineComments(content, context, language), CommentSyntax(language))
  {
    var marker := CommentSyntax(language);
    var lines := Header(context, marker) + CommentedLines(Split(content, '\n'), marker);
    HeaderShape(context, marker);
    var first := lines[0];
    assert StartsWith(first, marker);
    var out := InlineComments(content, context, language);
    assert out == Join(lines, "\n");
    if |lines| > 1 {
      assert out == first + "\n" + Join(lines[1..], "\n");
    }
    assert out[..|marker|] == first[..|marker|];
    assert OccursAt(out, marker, 0);
  }
}
