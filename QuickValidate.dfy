/** The minimal skill check: a fixed sequence of checks on the SKILL.md
    text, each returning the first failure, with the three regexes it uses
    written out as scanners. */
module QuickValidate {
  import opened Text
  import opened Wrappers
  import SkillFile
  import ValidateSkill
  import InitSkill

  // ---------------------------------------------------------------------
  // The regexes
  // ---------------------------------------------------------------------

  /** The group of `^---\n(.*?)\n---` (DOTALL): the text between the opening
      line and the first "\n---" after it */
  function QuickFrontmatter(content: string): (r: Option<string>)
    ensures r.Some? ==> StartsWith(content, "---\n" + r.value + "\n---")
    ensures r.Some? ==> !Contains(r.value, "\n---")
  {
    if StartsWith(content, "---\n") then
      var e := FindFrom(content, "\n---", 4);
      if e < 0 then None
      else
        var fm := content[4..e];
        assert content[..4] == "---\n";
        assert content[..e + 4] == "---\n" + fm + "\n---";
        NotBefore(content, fm, e);
        Some(fm)
    else None
  }

  /** The first "\n---" at or after 4 ends the group, so the group itself
      does not hold one. */
  lemma NotBefore(content: string, fm: string, e: nat)
    requires 4 <= e && OccursAt(content, "\n---", e) && fm == content[4..e]
    requires forall j :: 4 <= j < e ==> !OccursAt(content, "\n---", j)
    ensures !Contains(fm, "\n---")
  {
    forall i | 0 <= i <= |fm|
      ensures !OccursAt(fm, "\n---", i)
    {
      if i + 4 <= |fm| {
        assert 4 + i + 4 <= e <= |content|;
        var w := fm[i..i + 4];
        assert forall k :: 0 <= k < 4 ==> w[k] == content[4 + i + k];
        assert fm[i..i + 4] == content[4 + i..4 + i + 4];
        assert !OccursAt(content, "\n---", 4 + i);
      }
    }
  }

  /** The end of the line that starts at or before `j`: the next '\n' or
      the end of the text */
  function LineEnd(s: string, j: nat): (e: nat)
    requires j <= |s|
    ensures j <= e <= |s|
    ensures forall k :: j <= k < e ==> s[k] != '\n'
    ensures e < |s| ==> s[e] == '\n'
  {
    var f := FindFrom(s, "\n", j);
    if f < 0 then
      assert forall k :: j <= k < |s| ==> !OccursAt(s, "\n", k);
      NoNewlines(s, j, |s|);
      |s|
    else
      assert s[f..f + 1] == "\n";
      assert forall k :: j <= k < f ==> !OccursAt(s, "\n", k);
      NoNewlines(s, j, f);
      f
  }

  lemma NoNewlines(s: string, j: nat, e: nat)
    requires j <= e <= |s|
    requires forall k :: j <= k < e ==> !OccursAt(s, "\n", k)
    ensures forall k :: j <= k < e ==> s[k] != '\n'
  {
    forall k | j <= k < e
      ensures s[k] != '\n'
    {
      assert !OccursAt(s, "\n", k);
      assert s[k..k + 1][0] == s[k];
    }
  }

  /** `\s*(.+)` matched at `i` (no DOTALL), the group stripped. The greedy
      `\s*` runs to the first non-blank character and `.+` takes the rest
      of that line. When the blank run reaches the end of the text, `\s*`
      gives back characters until `.+` can take one that is not a newline:
      that group is blank and strips to "". When the run holds only
      newlines, nothing matches at `i`. */
  function ValueAt(s: string, i: nat): Option<string>
    requires i <= |s|
  {
    var j := SkillFile.RunEnd(s, i);
    if j < |s| then Some(Strip(s[j..LineEnd(s, j)]))
    else if exists k :: i <= k < j && s[k] != '\n' then Some("")
    else None
  }

  /** `re.search(key + r':\s*(.+)', s)` from index `p`: the first place the
      key and its colon occur where a value can follow */
  function SearchValue(s: string, key: string, p: nat): Option<string>
    requires p <= |s|
    decreases |s| - p
  {
    if OccursAt(s, key + ":", p) && ValueAt(s, p + |key| + 1).Some? then ValueAt(s, p + |key| + 1)
    else if p == |s| then None
    else SearchValue(s, key, p + 1)
  }

  // ---------------------------------------------------------------------
  // The checks
  // ---------------------------------------------------------------------

  const Valid := "Skill is valid!"
  const NotFound := "SKILL.md not found"
  const NoFrontmatter := "No YAML frontmatter found"
  const BadFormat := "Invalid frontmatter format"
  const NoName := "Missing 'name' in frontmatter"
  const NoDescription := "Missing 'description' in frontmatter"
  const NotHyphenCase := "' should be hyphen-case (lowercase letters, digits, and hyphens only)"
  const BadHyphens := "' cannot start/end with hyphen or contain consecutive hyphens"
  const AngleBrackets := "Description cannot contain angle brackets (< or >)"

  /** The name check: the name must be `[a-z0-9-]+` and must not start or
      end with a hyphen or hold two in a row */
  function NameProblem(name: string): Option<string>
  {
    if !ValidateSkill.IsSlug(name) then Some("Name '" + name + NotHyphenCase)
    else if StartsWith(name, "-") || EndsWith(name, "-") || Contains(name, "--") then
      Some("Name '" + name + BadHyphens)
    else None
  }

  /** `validate_skill` on the SKILL.md text (None when the file does not
      exist): whether the skill passes and the message */
  function QuickCheck(skillMd: Option<string>): (bool, string)
  {
    if skillMd.None? then (false, NotFound)
    else
      var content := skillMd.value;
      if !StartsWith(content, "---") then (false, NoFrontmatter)
      else
        match QuickFrontmatter(content)
        case None => (false, BadFormat)
        case Some(fm) =>
          if !Contains(fm, "name:") then (false, NoName)
          else if !Contains(fm, "description:") then (false, NoDescription)
          else
            var name := SearchValue(fm, "name", 0);
            if name.Some? && NameProblem(name.value).Some? then (false, NameProblem(name.value).value)
            else
              var description := SearchValue(fm, "description", 0);
              if description.Some? && ('<' in description.value || '>' in description.value) then
                (false, AngleBrackets)
              else (true, Valid)
  }

  // ---------------------------------------------------------------------
  // What the checks promise
  // ---------------------------------------------------------------------

  /** The name check accepts exactly the names the initialiser accepts. */
  lemma NameRulesAgree(name: string)
    ensures NameProblem(name).None? <==> InitSkill.ValidSkillName(name)
  {
    InitSkill.SkillNameRule(name);
    assert ValidateSkill.IsSlug(name) <==>
      |name| > 0 && forall j :: 0 <= j < |name| ==> InitSkill.IsNameChar(name[j]) || name[j] == '-';
  }

  /** A skill passes iff the text has the frontmatter block, both fields
      appear in it, the first name value found (if any) is a valid skill
      name, and the first description value found (if any) has no angle
      brackets; the message is "Skill is valid!" exactly then. */
  lemma PassesIff(skillMd: Option<string>)
    ensures QuickCheck(skillMd).0 <==> QuickCheck(skillMd).1 == Valid
    ensures QuickCheck(skillMd).0 <==>
      skillMd.Some? && QuickFrontmatter(skillMd.value).Some?
      && (var fm := QuickFrontmatter(skillMd.value).value;
          Contains(fm, "name:") && Contains(fm, "description:")
          && (SearchValue(fm, "name", 0).Some? ==> InitSkill.ValidSkillName(SearchValue(fm, "name", 0).value))
          && (SearchValue(fm, "description", 0).Some? ==>
                '<' !in SearchValue(fm, "description", 0).value && '>' !in SearchValue(fm, "description", 0).value))
  {
    if skillMd.Some? && QuickFrontmatter(skillMd.value).Some? {
      assert StartsWith(skillMd.value, "---") by {
        assert skillMd.value[..3] == ("---\n" + QuickFrontmatter(skillMd.value).value + "\n---")[..3];
      }
      var fm := QuickFrontmatter(skillMd.value).value;
      var name := SearchValue(fm, "name", 0);
      if name.Some? {
        NameRulesAgree(name.value);
        if NameProblem(name.value).Some? {
          assert StartsWith(NameProblem(name.value).value, "Name '");
          assert NameProblem(name.value).value != Valid by {
            assert NameProblem(name.value).value[0] != Valid[0];
          }
        }
      }
    }
  }

  // ---------------------------------------------------------------------
  // A SKILL.md written with a valid name passes
  // ---------------------------------------------------------------------

  /** The frontmatter lines `name: <name>` and `description: <description>` */
  function NameAndDescription(name: string, description: string): string
  {
    "name: " + name + "\ndescription: " + description
  }

  /** The name and the description a well-formed frontmatter is written with:
      a valid skill name and a one-line description that starts with a
      non-blank character and has no angle brackets */
  predicate Writable(name: string, description: string)
  {
    InitSkill.ValidSkillName(name)
    && |description| > 0 && !IsSpace(description[0])
    && forall k :: 0 <= k < |description| ==> description[k] != '\n' && description[k] != '<' && description[k] != '>'
  }

  /** Searching skips the places where the key does not occur. */
  lemma {:induction false} SearchSkips(s: string, key: string, p: nat, q: nat)
    requires p <= q <= |s|
    requires forall k :: p <= k < q ==> !OccursAt(s, key + ":", k)
    decreases q - p
    ensures SearchValue(s, key, p) == SearchValue(s, key, q)
  {
    if p < q {
      SearchSkips(s, key, p + 1, q);
    }
  }

  /** Where the characters of the written frontmatter sit */
  lemma WrittenLayout(name: string, description: string)
    requires Writable(name, description)
    ensures var fm := NameAndDescription(name, description);
      var q := 7 + |name|;
      |fm| == q + 13 + |description|
      && fm[..6] == "name: " && fm[6..6 + |name|] == name && fm[q - 1] == '\n'
      && fm[q..q + 13] == "description: " && fm[q + 13..] == description
      && (forall k :: 6 <= k < q - 1 ==> fm[k] != '\n' && fm[k] != ':' && !IsSpace(fm[k]))
      && (forall k :: q + 13 <= k < |fm| ==> fm[k] != '\n' && fm[k] != '<' && fm[k] != '>')
  {
    InitSkill.SkillNameRule(name);
    var fm := NameAndDescription(name, description);
    var q := 7 + |name|;
    assert fm == "name: " + name + "\n" + "description: " + description;
    forall k | 6 <= k < q - 1
      ensures fm[k] != '\n' && fm[k] != ':' && !IsSpace(fm[k])
    {
      assert fm[k] == name[k - 6];
    }
    forall k | q + 13 <= k < |fm|
      ensures fm[k] != '\n' && fm[k] != '<' && fm[k] != '>'
    {
      assert fm[k] == description[k - q - 13];
    }
  }

  /** The frontmatter regex finds a frontmatter that never holds "\n---". */
  lemma FindsFrontmatter(fm: string, body: string)
    requires !Contains(fm, "\n---")
    ensures QuickFrontmatter("---\n" + fm + "\n---\n" + body) == Some(fm)
  {
    var content := "---\n" + fm + "\n---\n" + body;
    var c := 4 + |fm|;
    assert content[..4] == "---\n";
    assert content[c..c + 4] == "\n---";
    assert OccursAt(content, "\n---", c);
    forall j | 4 <= j < c
      ensures !OccursAt(content, "\n---", j)
    {
      if j + 4 <= c {
        assert content[j..j + 4] == fm[j - 4..j];
        assert !OccursAt(fm, "\n---", j - 4);
      } else if j + 4 <= |content| {
        assert content[j..j + 4][c - j] == content[c] == '\n';
      }
    }
    assert StartsWith(content, "---\n");
    var e := FindFrom(content, "\n---", 4);
    assert e == c;
    assert content[4..c] == fm;
  }

  /** The written frontmatter has one newline, followed by 'd'. */
  lemma NoCloseInWritten(name: string, description: string)
    requires Writable(name, description)
    ensures !Contains(NameAndDescription(name, description), "\n---")
  {
    var fm := NameAndDescription(name, description);
    var q := 7 + |name|;
    WrittenLayout(name, description);
    forall i | 0 <= i <= |fm|
      ensures !OccursAt(fm, "\n---", i)
    {
      if i + 4 <= |fm| {
        assert fm[i..i + 4][0] == fm[i];
        assert fm[i..i + 4][1] == fm[i + 1];
        if i < 6 {
          assert fm[i] == fm[..6][i];
        } else if i == q - 1 {
          assert fm[i + 1] == fm[q..q + 13][0];
        }
      }
    }
  }

  /** The name search finds the written name. */
  lemma FindsWrittenName(name: string, description: string)
    requires Writable(name, description)
    ensures SearchValue(NameAndDescription(name, description), "name", 0) == Some(name)
  {
    var fm := NameAndDescription(name, description);
    var q := 7 + |name|;
    WrittenLayout(name, description);
    InitSkill.SkillNameRule(name);
    assert fm[..5] == "name:";
    assert OccursAt(fm, "name" + ":", 0);
    assert IsSpace(fm[5]) && fm[6] == name[0] && !IsSpace(fm[6]);
    assert SkillFile.RunEnd(fm, 5) == 6;
    assert fm[q - 1] == '\n';
    assert LineEnd(fm, 6) == q - 1;
    assert !IsSpace(name[0]) && !IsSpace(name[|name| - 1]) by {
      assert name[0] == fm[6] && name[|name| - 1] == fm[q - 2];
    }
    WhitespaceIsSpace(name[0]);
    WhitespaceIsSpace(name[|name| - 1]);
    StripLeftNone(name, Whitespace);
    StripRightNone(name, Whitespace);
  }

  /** "description:" does not occur before the description line. */
  lemma NoEarlyDescriptionKey(name: string, description: string, k: nat)
    requires Writable(name, description) && k < 7 + |name|
    ensures !OccursAt(NameAndDescription(name, description), "description:", k)
  {
    var fm := NameAndDescription(name, description);
    var q := 7 + |name|;
    WrittenLayout(name, description);
    var key := "description:";
    if k + 12 <= |fm| {
      var w := fm[k..k + 12];
      if k + 11 < q - 1 {
        assert w[11] == fm[k + 11];
        assert key[11] == ':';
      } else {
        assert w[q - 1 - k] == fm[q - 1];
        assert '\n' !in key;
      }
    }
  }

  /** The description search finds the written description, stripped. */
  lemma FindsWrittenDescription(name: string, description: string)
    requires Writable(name, description)
    ensures SearchValue(NameAndDescription(name, description), "description", 0) == Some(Strip(description))
  {
    var fm := NameAndDescription(name, description);
    var q := 7 + |name|;
    SkipsNameLine(name, description);
    DescriptionKeyAt(name, description);
    DescriptionValue(name, description);
    SearchHit(fm, "description", q);
  }

  /** The description search passes over the name line. */
  lemma SkipsNameLine(name: string, description: string)
    requires Writable(name, description)
    ensures 7 + |name| <= |NameAndDescription(name, description)|
    ensures SearchValue(NameAndDescription(name, description), "description", 0)
         == SearchValue(NameAndDescription(name, description), "description", 7 + |name|)
  {
    var fm := NameAndDescription(name, description);
    var q := 7 + |name|;
    forall k | 0 <= k < q
      ensures !OccursAt(fm, "description" + ":", k)
    {
      NoEarlyDescriptionKey(name, description, k);
    }
    SearchSkips(fm, "description", 0, q);
  }

  /** The search stops where the key occurs with a value after it. */
  lemma SearchHit(s: string, key: string, p: nat)
    requires p + |key| + 1 <= |s| && OccursAt(s, key + ":", p)
    ensures SearchValue(s, key, p) == if ValueAt(s, p + |key| + 1).Some? then ValueAt(s, p + |key| + 1) else SearchValue(s, key, p + 1)
  {
  }

  /** The written "description:" sits at the start of the second line. */
  lemma DescriptionKeyAt(name: string, description: string)
    requires Writable(name, description)
    ensures 7 + |name| + 12 <= |NameAndDescription(name, description)|
    ensures OccursAt(NameAndDescription(name, description), "description" + ":", 7 + |name|)
  {
    var fm := NameAndDescription(name, description);
    var q := 7 + |name|;
    WrittenLayout(name, description);
    assert fm[q..q + 12] == fm[q..q + 13][..12];
  }

  /** The value after the written "description:" is the description,
      stripped. */
  lemma DescriptionValue(name: string, description: string)
    requires Writable(name, description)
    ensures ValueAt(NameAndDescription(name, description), 7 + |name| + 12) == Some(Strip(description))
  {
    var fm := NameAndDescription(name, description);
    var q := 7 + |name|;
    WrittenLayout(name, description);
    assert fm[q + 12] == ' ' && fm[q + 13] == description[0];
    var j := SkillFile.RunEnd(fm, q + 12);
    assert j == q + 13;
    var e := LineEnd(fm, q + 13);
    assert e == |fm|;
    assert fm[q + 13..|fm|] == description;
  }

  /** The characters of a stripped text are characters of the text. */
  lemma StrippedChars(s: string, c: char)
    requires c !in s
    ensures c !in Strip(s)
  {
    var r := Strip(s);
    StripContained(s, Whitespace);
    var i :| 0 <= i <= |s| && OccursAt(s, r, i);
    forall k | 0 <= k < |r|
      ensures r[k] != c
    {
      assert r[k] == s[i..i + |r|][k] == s[i + k];
    }
  }

  /** A SKILL.md whose frontmatter is written with a valid skill name and a
      one-line description without angle brackets passes the quick check,
      whatever the body. */
  lemma WrittenSkillPasses(name: string, description: string, body: string)
    requires Writable(name, description)
    ensures QuickCheck(Some("---\n" + NameAndDescription(name, description) + "\n---\n" + body)) == (true, Valid)
  {
    var fm := NameAndDescription(name, description);
    var content := "---\n" + fm + "\n---\n" + body;
    var q := 7 + |name|;
    NoCloseInWritten(name, description);
    FindsFrontmatter(fm, body);
    WrittenLayout(name, description);
    assert content[..3] == "---";
    assert OccursAt(fm, "name:", 0);
    assert fm[q..q + 12] == "description:";
    assert OccursAt(fm, "description:", q);
    FindsWrittenName(name, description);
    NameRulesAgree(name);
    FindsWrittenDescription(name, description);
    assert '<' !in description && '>' !in description;
    StrippedChars(description, '<');
    StrippedChars(description, '>');
  }
}
