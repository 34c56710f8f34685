/** Comments the synthesizer writes into templates: the comment marker of a
    language, the header block, and one explanatory line before every line
    that holds placeholders. */
module TemplateComments {
  import opened Text
  import opened Wrappers
  import opened Placeholders

  /** Languages whose comments start with "//"; every other language,
      listed or not, uses "#" */
  const SlashLanguages: seq<string> := ["javascript", "js", "typescript", "ts", "java", "go", "rust", "c", "cpp"]

  const DefaultTitle := "Generated Template"
  const ReplaceNote := ": Replace with your value"

  /** `_get_comment_syntax`: the marker looked up by lower-cased language */
  function CommentSyntax(language: string): (r: string)
    ensures r == "//" <==> Lower(language) in SlashLanguages
    ensures r != "//" ==> r == "#"
  {
    if Lower(language) in SlashLanguages then "//" else "#"
  }

  /** `_create_header_comment`: the title line, the context and description
      lines when the context has them, and a bare marker line */
  function Header(context: map<string, string>, marker: string): seq<string>
  {
    [marker + " Template: " + GetOr(context, "title", DefaultTitle)]
    + (if "context" in context then [marker + " " + context["context"]] else [])
    + (if "description" in context then [marker + " " + context["description"]] else [])
    + [marker]
  }

  /** The header opens with the title, closes with the bare marker, and has
      one line for each of the optional context keys present. */
  lemma HeaderShape(context: map<string, string>, marker: string)
    ensures var h := Header(context, marker);
      && |h| == 2 + (if "context" in context then 1 else 0) + (if "description" in context then 1 else 0)
      && h[0] == marker + " Template: " + GetOr(context, "title", DefaultTitle)
      && h[|h| - 1] == marker
      && forall k :: 0 <= k < |h| ==> StartsWith(h[k], marker)
  {
    var h := Header(context, marker);
    forall k | 0 <= k < |h|
      ensures StartsWith(h[k], marker)
    {
      assert h[k][..|marker|] == marker;
    }
  }

  /** A line that gets an explanatory comment: it holds "${" and at least
      one placeholder token */
  predicate HasTokens(line: string)
  {
    Contains(line, "${") && |Tokens(line)| > 0
  }

  function CommentLine(line: string, marker: string): string
  {
    marker + " " + Join(Tokens(line), ", ") + ReplaceNote
  }

  /** A line, preceded by its comment when it holds placeholders */
  function Annotated(line: string, marker: string): seq<string>
  {
    (if HasTokens(line) then [CommentLine(line, marker)] else []) + [line]
  }

  /** The body lines after commenting, in order */
  function CommentedLines(lines: seq<string>, marker: string): seq<string>
    decreases |lines|
  {
    if |lines| == 0 then []
    else
      var n := |lines| - 1;
      CommentedLines(lines[..n], marker) + Annotated(lines[n], marker)
  }

  /** How many lines hold placeholders */
  function TokenLineCount(lines: seq<string>): nat
    decreases |lines|
  {
    if |lines| == 0 then 0
    else
      var n := |lines| - 1;
      TokenLineCount(lines[..n]) + (if HasTokens(lines[n]) then 1 else 0)
  }

  /** `add_inline_comments` as a value */
  function InlineComments(content: string, context: map<string, string>, language: string): string
  {
    var marker := CommentSyntax(language);
    Join(Header(context, marker) + CommentedLines(Split(content, '\n'), marker), "\n")
  }

  /** `add_inline_comments`: the header, then every line of the content,
      each line with placeholders preceded by one comment naming them */
  method AddInlineComments(content: string, context: map<string, string>, language: string)
    returns (r: string)
    ensures r == InlineComments(content, context, language)
  {
    var marker := CommentSyntax(language);
    var lines := Split(content, '\n');
    var commented := Header(context, marker);
    ghost var header := commented;
    var i := 0;
    while i < |lines|
      invariant 0 <= i <= |lines|
      invariant commented == header + CommentedLines(lines[..i], marker)
    {
      var line := lines[i];
      if Contains(line, "${") {
        var names := Tokens(line);
        if |names| > 0 {
          commented := commented + [marker + " " + Join(names, ", ") + ReplaceNote];
        }
      }
      commented := commented + [line];
      assert lines[..i + 1][..i] == lines[..i];
      i := i + 1;
    }
    assert lines[..i] == lines;
    r := Join(commented, "\n");
  }

  /** Commenting adds one line per line with placeholders. */
  lemma {:induction false} CommentedLinesLength(lines: seq<string>, marker: string)
    decreases |lines|
    ensures |CommentedLines(lines, marker)| == |lines| + TokenLineCount(lines)
  {
    if |lines| > 0 {
      CommentedLinesLength(lines[..|lines| - 1], marker);
    }
  }

  /** Input line `i` keeps its order: it sits after the `i` lines before it
      and the comments of those up to it, with its own comment right before
      it when it holds placeholders. */
  lemma {:induction false} CommentedLinePlacement(lines: seq<string>, marker: string, i: nat)
    requires i < |lines|
    decreases |lines|
    ensures var p := i + TokenLineCount(lines[..i + 1]);
      && p < |CommentedLines(lines, marker)|
      && CommentedLines(lines, marker)[p] == lines[i]
      && (HasTokens(lines[i]) ==> CommentedLines(lines, marker)[p - 1] == CommentLine(lines[i], marker))
  {
    var n := |lines| - 1;
    var init := lines[..n];
    var c := CommentedLines(init, marker);
    assert CommentedLines(lines, marker) == c + Annotated(lines[n], marker);
    CommentedLinesLength(init, marker);
    if i < n {
      CommentedLinePlacement(init, marker, i);
      assert lines[..i + 1] == init[..i + 1];
    } else {
      assert lines[..i + 1] == lines;
    }
  }

  /** Lines without placeholders pass through as they are. */
  lemma {:induction false} CommentedLinesPlain(lines: seq<string>, marker: string)
    requires forall k :: 0 <= k < |lines| ==> !Contains(lines[k], "${")
    decreases |lines|
    ensures CommentedLines(lines, marker) == lines
  {
    if |lines| > 0 {
      var n := |lines| - 1;
      CommentedLinesPlain(lines[..n], marker);
      assert lines == lines[..n] + [lines[n]];
    }
  }

  /** Content without placeholders comes back unchanged after the header. */
  lemma InlineCommentsPlain(content: string, context: map<string, string>, language: string)
    requires !Contains(content, "${")
    ensures InlineComments(content, context, language)
      == Join(Header(context, CommentSyntax(language)), "\n") + "\n" + content
  {
    var lines := Split(content, '\n');
    forall k | 0 <= k < |lines|
      ensures !Contains(lines[k], "${")
    {
      SplitPieceIn(content, '\n', k);
      if Contains(lines[k], "${") {
        ContainsTransitive(content, lines[k], "${");
      }
    }
    var marker := CommentSyntax(language);
    CommentedLinesPlain(lines, marker);
    JoinAppend(Header(context, marker), lines, "\n");
    JoinSplit(content, '\n');
  }
}
