/** Reading a SKILL.md text into its frontmatter fields and its body, as
    `SkillValidator._read_skill_md` does: the regex
    `^---\s*\n(.*?)\n---\s*\n(.*)$` (DOTALL) written out as a scanner with
    the regex engine's backtracking order, then one `key: value` field per
    frontmatter line. */
module SkillFile {
  import opened Text
  import opened Wrappers

  // ---------------------------------------------------------------------
  // The frontmatter regex
  // ---------------------------------------------------------------------

  /** The first index at or after `i` that does not hold whitespace */
  function RunEnd(s: string, i: nat): (j: nat)
    requires i <= |s|
    decreases |s| - i
    ensures i <= j <= |s|
    ensures forall k :: i <= k < j ==> IsSpace(s[k])
    ensures j < |s| ==> !IsSpace(s[j])
  {
    if i < |s| && IsSpace(s[i]) then RunEnd(s, i + 1) else i
  }

  /** The last index in [i, j) holding a newline: where a greedy `\s*\n`
      started at `i` ends when `j` closes the whitespace run */
  function LastNewline(s: string, i: nat, j: nat): (r: Option<nat>)
    requires i <= j <= |s|
    decreases j - i
    ensures r.Some? ==> i <= r.value < j && s[r.value] == '\n'
    ensures r.Some? ==> forall k :: r.value < k < j ==> s[k] != '\n'
    ensures r.None? ==> forall k :: i <= k < j ==> s[k] != '\n'
  {
    if j == i then None
    else if s[j - 1] == '\n' then Some(j - 1)
    else LastNewline(s, i, j - 1)
  }

  /** Where the body starts when the closing `\n---\s*\n` matches at `e` */
  function CloseAt(s: string, e: nat): (r: Option<nat>)
    ensures r.Some? ==> e + 5 <= r.value <= |s|
    ensures r.Some? ==> e + 4 <= |s| && s[e..e + 4] == "\n---"
  {
    if e + 4 <= |s| && s[e..e + 4] == "\n---" then
      match LastNewline(s, e + 4, RunEnd(s, e + 4))
      case None => None
      case Some(k) => Some(k + 1)
    else None
  }

  /** The lazy `(.*?)`: the first closing at or after `e`, with the start
      of the body behind it */
  function FirstClose(s: string, e: nat): (r: Option<(nat, nat)>)
    requires e <= |s|
    decreases |s| - e
    ensures r.Some? ==> e <= r.value.0 && CloseAt(s, r.value.0) == Some(r.value.1)
    ensures r.None? ==> forall k :: e <= k <= |s| ==> CloseAt(s, k).None?
  {
    var c := CloseAt(s, e);
    if c.Some? then Some((e, c.value))
    else if e == |s| then None
    else FirstClose(s, e + 1)
  }

  /** The opening `---\s*\n`: the newlines of the whitespace run before `j`
      are tried from the last to the first, as the greedy `\s*` backtracks */
  function TryOpen(s: string, j: nat): (r: Option<(nat, nat, nat)>)
    requires 3 <= j <= |s|
    decreases j
    ensures r.Some? ==> 3 < r.value.0 <= r.value.1 && r.value.1 + 5 <= r.value.2 <= |s|
  {
    match LastNewline(s, 3, j)
    case None => None
    case Some(k) =>
      match FirstClose(s, k + 1)
      case Some(c) => Some((k + 1, c.0, c.1))
      case None => TryOpen(s, k)
  }

  /** The two groups of the frontmatter regex, or None when it does not
      match */
  function FrontmatterMatch(s: string): (r: Option<(string, string)>)
    ensures r.Some? ==> StartsWith(s, "---")
  {
    if StartsWith(s, "---") then
      match TryOpen(s, RunEnd(s, 3))
      case None => None
      case Some(m) => Some((s[m.0..m.1], s[m.2..]))
    else None
  }

  // ---------------------------------------------------------------------
  // Frontmatter fields
  // ---------------------------------------------------------------------

  /** The key and the value a frontmatter line sets: a line with a ':' is
      split at its first ':' and both halves are stripped */
  function FieldOf(line: string): Option<(string, string)>
  {
    if ':' in line then
      var c := IndexOf(line, ':');
      Some((Strip(line[..c]), Strip(line[c + 1..])))
    else None
  }

  /** Field `f` sets key `k` */
  predicate Sets(f: Option<(string, string)>, k: string)
  {
    f.Some? && f.value.0 == k
  }

  /** Assigning the fields in order into a dictionary, a later field
      overwriting an earlier one with the same key */
  function Assign(fields: seq<Option<(string, string)>>): map<string, string>
    decreases |fields|
  {
    if |fields| == 0 then map[]
    else
      var fm := Assign(fields[..|fields| - 1]);
      var f := fields[|fields| - 1];
      if f.Some? then fm[f.value.0 := f.value.1] else fm
  }

  /** The fields of the frontmatter lines, in order */
  function LineFields(lines: seq<string>): (r: seq<Option<(string, string)>>)
    ensures |r| == |lines|
    ensures forall j :: 0 <= j < |lines| ==> r[j] == FieldOf(lines[j])
  {
    seq(|lines|, j requires 0 <= j < |lines| => FieldOf(lines[j]))
  }

  /** The frontmatter dictionary of the lines */
  function Fields(lines: seq<string>): map<string, string>
  {
    Assign(LineFields(lines))
  }

  /** A key is in the dictionary iff some field sets it, and its value comes
      from the last field that does (`i` is that field, or -1). */
  lemma {:induction false} AssignLastWins(fields: seq<Option<(string, string)>>, k: string) returns (i: int)
    decreases |fields|
    ensures -1 <= i < |fields|
    ensures forall j :: i < j < |fields| ==> !Sets(fields[j], k)
    ensures i == -1 <==> k !in Assign(fields)
    ensures i >= 0 ==> Sets(fields[i], k) && Assign(fields)[k] == fields[i].value.1
  {
    if |fields| > 0 {
      var n := |fields| - 1;
      if Sets(fields[n], k) {
        i := n;
      } else {
        i := AssignLastWins(fields[..n], k);
        assert forall j :: i < j < n ==> fields[..n][j] == fields[j];
      }
    } else {
      i := -1;
    }
  }

  /** A frontmatter key exists iff some line sets it, and its value is the
      one of the last line that does (`i` is that line, or -1). */
  lemma FieldsLastWins(lines: seq<string>, k: string) returns (i: int)
    ensures -1 <= i < |lines|
    ensures forall j :: i < j < |lines| ==> !Sets(FieldOf(lines[j]), k)
    ensures i == -1 <==> k !in Fields(lines)
    ensures i >= 0 ==> Sets(FieldOf(lines[i]), k) && Fields(lines)[k] == FieldOf(lines[i]).value.1
  {
    i := AssignLastWins(LineFields(lines), k);
  }

  /** The parsed SKILL.md: frontmatter fields and body */
  datatype SkillMd = SkillMd(frontmatter: map<string, string>, body: string)

  /** `_read_skill_md` on the file's text */
  function SkillMdOf(content: string): SkillMd
  {
    match FrontmatterMatch(content)
    case None => SkillMd(map[], content)
    case Some(g) => SkillMd(Fields(Split(g.0, '\n')), g.1)
  }

  /** The loop that builds the frontmatter dictionary, line by line. */
  method ParseFrontmatter(text: string) returns (fm: map<string, string>)
    ensures fm == Fields(Split(text, '\n'))
  {
    var lines := Split(text, '\n');
    ghost var fields := LineFields(lines);
    fm := map[];
    var i := 0;
    while i < |lines|
      invariant 0 <= i <= |lines|
      invariant fm == Assign(fields[..i])
    {
      var line := lines[i];
      assert fields[..i + 1][..i] == fields[..i];
      if ':' in line {
        var c := IndexOf(line, ':');
        fm := fm[Strip(line[..c]) := Strip(line[c + 1..])];
      }
      i := i + 1;
    }
    assert fields[..|lines|] == fields;
  }

  method ReadSkillMd(content: string) returns (md: SkillMd)
    ensures md == SkillMdOf(content)
  {
    var m := FrontmatterMatch(content);
    if m.None? {
      return SkillMd(map[], content);
    }
    var fm := ParseFrontmatter(m.value.0);
    md := SkillMd(fm, m.value.1);
  }

  // ---------------------------------------------------------------------
  // What the regex accepts
  // ---------------------------------------------------------------------

  /** The lazy group stops at the first closing found from `e`. */
  lemma {:induction false} FirstCloseAt(s: string, e: nat, c: nat)
    requires e <= c <= |s| && CloseAt(s, c).Some?
    requires forall k :: e <= k < c ==> CloseAt(s, k).None?
    decreases c - e
    ensures FirstClose(s, e) == Some((c, CloseAt(s, c).value))
  {
    if e < c {
      FirstCloseAt(s, e + 1, c);
    }
  }

  /** No closing inside a frontmatter that never holds "\n---" and is
      followed by a newline. */
  lemma NoEarlyClose(s: string, fm: string, body: string, k: nat)
    requires s == "---\n" + fm + "\n---\n" + body
    requires !Contains(fm, "\n---")
    requires 4 <= k < 4 + |fm|
    ensures CloseAt(s, k).None?
  {
    var c := 4 + |fm|;
    if k + 4 <= c {
      assert s[k..k + 4] == fm[k - 4..k];
      assert !OccursAt(fm, "\n---", k - 4);
    } else if k + 4 <= |s| {
      assert s[k..k + 4][c - k] == s[c] == '\n';
    }
  }

  /** Writing the frontmatter between `---` lines and reading it back gives
      the frontmatter text and the body, when the frontmatter starts with
      a non-blank character and never holds "\n---", and the body does not
      start with whitespace. */
  lemma ReadBack(fm: string, body: string)
    requires |fm| > 0 && !IsSpace(fm[0]) && !Contains(fm, "\n---")
    requires |body| > 0 ==> !IsSpace(body[0])
    ensures FrontmatterMatch("---\n" + fm + "\n---\n" + body) == Some((fm, body))
  {
    var s := "---\n" + fm + "\n---\n" + body;
    var c: nat := 4 + |fm|;
    assert s[..3] == "---";
    assert s[3] == '\n' && s[4] == fm[0];
    assert RunEnd(s, 3) == 4;
    assert LastNewline(s, 3, 4) == Some(3);
    assert s[c..c + 4] == "\n---";
    assert s[c + 4] == '\n';
    assert c + 5 < |s| ==> s[c + 5] == body[0];
    assert RunEnd(s, c + 4) == c + 5;
    assert LastNewline(s, c + 4, c + 5) == Some(c + 4);
    assert CloseAt(s, c) == Some(c + 5);
    forall k | 4 <= k < c
      ensures CloseAt(s, k).None?
    {
      NoEarlyClose(s, fm, body, k);
    }
    FirstCloseAt(s, 4, c);
    assert TryOpen(s, 4) == Some((4 as nat, c, c + 5));
    assert s[4..c] == fm;
    assert s[c + 5..] == body;
  }

  /** A text that does not start with "---" has no frontmatter: all of it
      is the body. */
  lemma NoFrontmatterWithoutDashes(content: string)
    requires !StartsWith(content, "---")
    ensures SkillMdOf(content) == SkillMd(map[], content)
  {
  }

  /** Putting a SKILL.md together from frontmatter lines and a body and
      reading it back gives the fields of those lines and the body. */
  lemma ReadSkillMdBack(fm: string, body: string)
    requires |fm| > 0 && !IsSpace(fm[0]) && !Contains(fm, "\n---")
    requires |body| > 0 ==> !IsSpace(body[0])
    ensures SkillMdOf("---\n" + fm + "\n---\n" + body) == SkillMd(Fields(Split(fm, '\n')), body)
  {
    ReadBack(fm, body);
  }
}
