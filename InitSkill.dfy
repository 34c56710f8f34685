/** The text side of the skill initialiser: the skill-name rule, the two
    ways a slug becomes a display name, the placeholder replacement applied
    to a copied template file, and the count of remaining `[TODO:` markers.
    Copying templates and walking directories are file-system work and are
    not part of this model. */
module InitSkill {
  import opened Text
  import opened Wrappers

  // ---------------------------------------------------------------------
  // Skill names
  // ---------------------------------------------------------------------

  predicate IsNameChar(c: char) { IsLowerLetter(c) || IsDigit(c) }

  /** The regex `[a-z0-9]+(?:-[a-z0-9]+)*` read from index `i`, where
      `afterWord` says whether a run of name characters has just ended */
  predicate Accepts(s: string, i: nat, afterWord: bool)
    requires i <= |s|
    decreases |s| - i
  {
    if i == |s| then afterWord
    else if IsNameChar(s[i]) then Accepts(s, i + 1, true)
    else s[i] == '-' && afterWord && Accepts(s, i + 1, false)
  }

  /** `validate_skill_name`: the name must fully match
      `[a-z0-9]+(?:-[a-z0-9]+)*` */
  predicate ValidSkillName(name: string)
  {
    Accepts(name, 0, false)
  }

  /** The same rule stated on characters: only `[a-z0-9-]`, no hyphen at
      either end and no two hyphens in a row, from index `i` on */
  predicate HyphenCaseFrom(s: string, i: nat, afterWord: bool)
    requires i <= |s|
  {
    (forall j :: i <= j < |s| ==> IsNameChar(s[j]) || s[j] == '-')
    && (forall j :: i <= j < |s| - 1 ==> !(s[j] == '-' && s[j + 1] == '-'))
    && (i == |s| ==> afterWord)
    && (i < |s| && !afterWord ==> s[i] != '-')
    && (i < |s| ==> s[|s| - 1] != '-')
  }

  lemma {:induction false} AcceptsIff(s: string, i: nat, afterWord: bool)
    requires i <= |s|
    decreases |s| - i
    ensures Accepts(s, i, afterWord) <==> HyphenCaseFrom(s, i, afterWord)
  {
    if i < |s| {
      if IsNameChar(s[i]) {
        AcceptsIff(s, i + 1, true);
      } else if s[i] == '-' {
        AcceptsIff(s, i + 1, false);
        if afterWord && i + 1 < |s| {
          assert !(s[i] == '-' && s[i + 1] == '-') ==> s[i + 1] != '-';
        }
      }
    }
  }

  /** The name rule is the one the quick validator states piece by piece:
      a non-empty run of `[a-z0-9-]` that neither starts nor ends with a
      hyphen and never holds "--". */
  lemma SkillNameRule(name: string)
    ensures ValidSkillName(name) <==>
      |name| > 0 && (forall j :: 0 <= j < |name| ==> IsNameChar(name[j]) || name[j] == '-')
      && !StartsWith(name, "-") && !EndsWith(name, "-") && !Contains(name, "--")
  {
    AcceptsIff(name, 0, false);
    if Contains(name, "--") {
      var k :| 0 <= k <= |name| && OccursAt(name, "--", k);
      assert name[k..k + 2] == "--";
      assert name[k] == '-' && name[k + 1] == '-';
    }
    if exists j :: 0 <= j < |name| - 1 && name[j] == '-' && name[j + 1] == '-' {
      var j :| 0 <= j < |name| - 1 && name[j] == '-' && name[j + 1] == '-';
      assert name[j..j + 2] == "--";
      assert OccursAt(name, "--", j);
    }
    if |name| > 0 {
      assert StartsWith(name, "-") <==> name[0] == '-' by {
        assert name[..1] == [name[0]];
      }
      assert EndsWith(name, "-") <==> name[|name| - 1] == '-' by {
        assert name[|name| - 1..] == [name[|name| - 1]];
      }
    }
  }

  /** Words of name characters joined by single hyphens form a valid name. */
  lemma {:induction false} JoinedWordsAreValid(words: seq<string>)
    requires |words| > 0
    requires forall k :: 0 <= k < |words| ==> |words[k]| > 0 && All(words[k], IsNameChar)
    decreases |words|
    ensures ValidSkillName(Join(words, "-"))
  {
    if |words| == 1 {
      WordAccepts(words[0], "", false);
      assert words[0] + "" == words[0];
    } else {
      JoinedWordsAreValid(words[1..]);
      WordAccepts(words[0], "-" + Join(words[1..], "-"), false);
      assert words[0] + "-" + Join(words[1..], "-") == words[0] + ("-" + Join(words[1..], "-"));
    }
  }

  /** A word of name characters followed by an accepted tail is accepted. */
  lemma WordAccepts(w: string, tail: string, afterWord: bool)
    requires |w| > 0 && All(w, IsNameChar)
    requires tail == "" || (tail[0] == '-' && ValidSkillName(tail[1..]))
    ensures Accepts(w + tail, 0, afterWord)
  {
    var s := w + tail;
    if tail != "" {
      assert s[|w|] == '-';
      assert s[|w| + 1..] == tail[1..];
      AcceptsSuffix(s, |w| + 1, 0, false);
    }
    RunAccepts(s, 0, |w|, afterWord);
  }

  /** A run of name characters ending where the text is accepted after a
      word is accepted. */
  lemma {:induction false} RunAccepts(s: string, i: nat, e: nat, afterWord: bool)
    requires i < e <= |s| && Accepts(s, e, true)
    requires forall j :: i <= j < e ==> IsNameChar(s[j])
    decreases e - i
    ensures Accepts(s, i, afterWord)
  {
    if i + 1 < e {
      RunAccepts(s, i + 1, e, true);
    }
  }

  /** Accepting from `i + k` is accepting the text from `i` on at `k`. */
  lemma {:induction false} AcceptsSuffix(s: string, i: nat, k: nat, afterWord: bool)
    requires i + k <= |s|
    decreases |s| - i - k
    ensures Accepts(s, i + k, afterWord) <==> Accepts(s[i..], k, afterWord)
  {
    if i + k < |s| {
      assert s[i..][k] == s[i + k];
      AcceptsSuffix(s, i, k + 1, true);
      AcceptsSuffix(s, i, k + 1, false);
    }
  }

  // ---------------------------------------------------------------------
  // Display names
  // ---------------------------------------------------------------------

  /** `str.capitalize` on ASCII: the first character upper case, the rest
      lower case */
  function Capitalize(w: string): (r: string)
    ensures |r| == |w|
    ensures |w| > 0 ==> r[0] == UpperChar(w[0])
    ensures forall i :: 0 < i < |w| ==> r[i] == LowerChar(w[i])
  {
    if |w| == 0 then "" else [UpperChar(w[0])] + Lower(w[1..])
  }

  function CapitalizeAll(words: seq<string>): (r: seq<string>)
    decreases |words|
    ensures |r| == |words|
  {
    if |words| == 0 then [] else [Capitalize(words[0])] + CapitalizeAll(words[1..])
  }

  /** `title_case_skill_name`: split on '-', capitalise every word, join
      with single spaces */
  function TitleCaseSkillName(name: string): string
  {
    Join(CapitalizeAll(Split(name, '-')), " ")
  }

  /** `str.title` on ASCII from the front: a letter is upper case after a
      non-letter and lower case after a letter; other characters stay */
  function TitleFrom(s: string, afterLetter: bool): (r: string)
    decreases |s|
    ensures |r| == |s|
  {
    if |s| == 0 then ""
    else
      var c := s[0];
      [if !IsAlpha(c) then c else if afterLetter then LowerChar(c) else UpperChar(c)]
      + TitleFrom(s[1..], IsAlpha(c))
  }

  function Title(s: string): string
  {
    TitleFrom(s, false)
  }

  /** `slug_to_display_name`: hyphens become spaces, then `str.title` */
  function SlugToDisplayName(slug: string): string
  {
    Title(ReplaceAll(slug, "-", " "))
  }

  predicate IsLetterOrHyphen(c: char) { IsAlpha(c) || c == '-' }

  /** The words after the first lower-cased, then capitalised, joined by
      spaces: what the capitalised join looks like after a letter */
  function LowerFirstJoin(words: seq<string>): string
    requires |words| > 0
  {
    Join([Lower(words[0])] + CapitalizeAll(words[1..]), " ")
  }

  lemma JoinCons(a: string, rest: seq<string>, sep: string)
    requires |rest| > 0
    ensures Join([a] + rest, sep) == a + sep + Join(rest, sep)
  {
    assert ([a] + rest)[1..] == rest;
  }

  lemma JoinPrefix(c: char, a: string, rest: seq<string>, sep: string)
    ensures Join([[c] + a] + rest, sep) == [c] + Join([a] + rest, sep)
  {
    assert ([[c] + a] + rest)[1..] == rest;
    assert ([a] + rest)[1..] == rest;
  }

  /** On letters and hyphens both conversions agree, whether the text
      starts a word (`TitleCaseSkillName`) or continues one
      (`LowerFirstJoin`). */
  lemma {:induction false} DisplayNamesAgreeFrom(s: string)
    requires All(s, IsLetterOrHyphen)
    decreases |s|
    ensures TitleCaseSkillName(s) == TitleFrom(ReplaceAll(s, "-", " "), false)
    ensures LowerFirstJoin(Split(s, '-')) == TitleFrom(ReplaceAll(s, "-", " "), true)
  {
    if |s| > 0 {
      var t := s[1..];
      assert All(t, IsLetterOrHyphen) by {
        forall i | 0 <= i < |t| ensures IsLetterOrHyphen(t[i]) {
          assert t[i] == s[i + 1];
        }
      }
      DisplayNamesAgreeFrom(t);
      assert IsLetterOrHyphen(s[0]);
      if s[0] == '-' {
        HyphenStep(s);
      } else {
        LetterStep(s);
      }
    }
  }

  /** The inductive step of `DisplayNamesAgreeFrom` for a leading hyphen */
  lemma HyphenStep(s: string)
    requires |s| > 0 && s[0] == '-'
    requires TitleCaseSkillName(s[1..]) == TitleFrom(ReplaceAll(s[1..], "-", " "), false)
    ensures TitleCaseSkillName(s) == TitleFrom(ReplaceAll(s, "-", " "), false)
    ensures LowerFirstJoin(Split(s, '-')) == TitleFrom(ReplaceAll(s, "-", " "), true)
  {
    var rest := Split(s[1..], '-');
    HyphenHead(s);
    CapitalizeEmptyHead(rest);
    JoinCons("", CapitalizeAll(rest), " ");
    assert Lower("") == "";
  }

  /** A leading hyphen ends an empty first word and becomes a space, after
      which `TitleFrom` starts a word whatever came before */
  lemma HyphenHead(s: string)
    requires |s| > 0 && s[0] == '-'
    ensures Split(s, '-') == [""] + Split(s[1..], '-')
    ensures TitleFrom(ReplaceAll(s, "-", " "), false) == " " + TitleFrom(ReplaceAll(s[1..], "-", " "), false)
    ensures TitleFrom(ReplaceAll(s, "-", " "), true) == " " + TitleFrom(ReplaceAll(s[1..], "-", " "), false)
  {
    var r := ReplaceAll(s[1..], "-", " ");
    assert s[..1] == "-";
    assert ReplaceAll(s, "-", " ") == " " + r;
    assert (" " + r)[1..] == r;
  }

  lemma CapitalizeEmptyHead(ws: seq<string>)
    ensures CapitalizeAll([""] + ws) == [""] + CapitalizeAll(ws)
  {
    assert ([""] + ws)[1..] == ws;
  }

  /** The inductive step of `DisplayNamesAgreeFrom` for a leading letter */
  lemma LetterStep(s: string)
    requires |s| > 0 && IsAlpha(s[0])
    requires LowerFirstJoin(Split(s[1..], '-')) == TitleFrom(ReplaceAll(s[1..], "-", " "), true)
    ensures TitleCaseSkillName(s) == TitleFrom(ReplaceAll(s, "-", " "), false)
    ensures LowerFirstJoin(Split(s, '-')) == TitleFrom(ReplaceAll(s, "-", " "), true)
  {
    var c := s[0];
    var rest := Split(s[1..], '-');
    var w, ws := rest[0], rest[1..];
    var tail := [Lower(w)] + CapitalizeAll(ws);
    assert rest == [w] + ws;
    assert LowerFirstJoin(rest) == Join(tail, " ");
    LetterHead(s);
    CapitalizeHead(c, w, ws);
    JoinPrefix(UpperChar(c), Lower(w), CapitalizeAll(ws), " ");
    LowerHead(c, w);
    JoinPrefix(LowerChar(c), Lower(w), CapitalizeAll(ws), " ");
  }

  /** A leading letter starts the first word and is copied by the
      replacement; `TitleFrom` then continues after a letter */
  lemma LetterHead(s: string)
    requires |s| > 0 && IsAlpha(s[0])
    ensures Split(s, '-') == [[s[0]] + Split(s[1..], '-')[0]] + Split(s[1..], '-')[1..]
    ensures TitleFrom(ReplaceAll(s, "-", " "), false) == [UpperChar(s[0])] + TitleFrom(ReplaceAll(s[1..], "-", " "), true)
    ensures TitleFrom(ReplaceAll(s, "-", " "), true) == [LowerChar(s[0])] + TitleFrom(ReplaceAll(s[1..], "-", " "), true)
  {
    var r := ReplaceAll(s[1..], "-", " ");
    assert s[..1] != "-";
    assert ReplaceAll(s, "-", " ") == [s[0]] + r;
    assert ([s[0]] + r)[1..] == r;
  }

  lemma CapitalizeHead(c: char, w: string, ws: seq<string>)
    ensures CapitalizeAll([[c] + w] + ws) == [[UpperChar(c)] + Lower(w)] + CapitalizeAll(ws)
  {
    assert ([[c] + w] + ws)[1..] == ws;
    assert ([c] + w)[1..] == w;
  }

  lemma LowerHead(c: char, w: string)
    ensures Lower([c] + w) == [LowerChar(c)] + Lower(w)
  {
  }

  /** For a slug of letters and hyphens, `title_case_skill_name` and
      `slug_to_display_name` give the same display name. */
  lemma DisplayNamesAgree(slug: string)
    requires All(slug, IsLetterOrHyphen)
    ensures TitleCaseSkillName(slug) == SlugToDisplayName(slug)
  {
    DisplayNamesAgreeFrom(slug);
  }

  /** A text without hyphens is one word and has nothing to replace. */
  lemma {:induction false} OneWord(s: string)
    requires '-' !in s
    decreases |s|
    ensures Split(s, '-') == [s] && !Contains(s, "-")
  {
    if |s| > 0 {
      assert '-' !in s[1..] by {
        assert forall i :: 0 <= i < |s| - 1 ==> s[1..][i] == s[i + 1];
      }
      OneWord(s[1..]);
      assert [s[0]] + s[1..] == s;
    }
    forall i | 0 <= i <= |s|
      ensures !OccursAt(s, "-", i)
    {
      if i + 1 <= |s| {
        assert s[i..i + 1][0] == s[i];
      }
    }
  }

  /** With a digit inside a word they differ: `str.capitalize` keeps the
      letter after the digit lower case, `str.title` starts a new word
      there ("a2b" gives "A2b" and "A2B"). */
  lemma DisplayNamesDifferOnDigits()
    ensures TitleCaseSkillName("a2b") == "A2b"
    ensures SlugToDisplayName("a2b") == "A2B"
  {
    OneWord("a2b");
    assert Capitalize("a2b") == "A2b" by {
      assert "a2b"[1..] == "2b";
      assert Lower("2b") == "2b";
    }
    ReplaceAllAbsent("a2b", "-", " ");
    assert TitleFrom("b", false) == "B";
    assert TitleFrom("2b", true) == "2B";
  }

  // ---------------------------------------------------------------------
  // Placeholder replacement
  // ---------------------------------------------------------------------

  /** One `(placeholder, replacement, label)` triple; the label is the
      caption reported when the placeholder is missing */
  datatype Replacement = Replacement(placeholder: string, replacement: string, caption: string)

  /** The text and the labels of the placeholders not found, after the
      triples in order: each replaces only the first occurrence in the
      current text */
  function Replaced(text: string, reps: seq<Replacement>): (string, seq<string>)
    decreases |reps|
  {
    if |reps| == 0 then (text, [])
    else Step(Replaced(text, reps[..|reps| - 1]), reps[|reps| - 1])
  }

  /** One triple applied to the current text and the labels missing so far */
  function Step(current: (string, seq<string>), r: Replacement): (string, seq<string>)
  {
    if Contains(current.0, r.placeholder) then (ReplaceFirst(current.0, r.placeholder, r.replacement), current.1)
    else (current.0, current.1 + [r.caption])
  }

  /** The labels of the triples, in order */
  function Labels(reps: seq<Replacement>): (r: seq<string>)
    ensures |r| == |reps|
    ensures forall k :: 0 <= k < |reps| ==> r[k] == reps[k].caption
  {
    seq(|reps|, k requires 0 <= k < |reps| => reps[k].caption)
  }

  /** No label is reported twice and none is invented: the missing labels
      are the labels of some of the triples, in the triples' order. */
  lemma {:induction false} MissingAreLabels(text: string, reps: seq<Replacement>) returns (idx: seq<nat>)
    decreases |reps|
    ensures |idx| == |Replaced(text, reps).1|
    ensures forall k :: 0 <= k < |idx| ==> idx[k] < |reps| && Replaced(text, reps).1[k] == reps[idx[k]].caption
    ensures forall k, l :: 0 <= k < l < |idx| ==> idx[k] < idx[l]
  {
    if |reps| == 0 {
      idx := [];
    } else {
      var n := |reps| - 1;
      var prior := Replaced(text, reps[..n]);
      var pidx := MissingAreLabels(text, reps[..n]);
      assert forall k :: 0 <= k < |pidx| ==> reps[..n][pidx[k]] == reps[pidx[k]];
      if Contains(prior.0, reps[n].placeholder) {
        idx := pidx;
      } else {
        idx := pidx + [n];
      }
    }
  }

  /** When no placeholder occurs in the text, nothing changes and every
      label is reported missing. */
  lemma {:induction false} NothingToReplace(text: string, reps: seq<Replacement>)
    requires forall k :: 0 <= k < |reps| ==> !Contains(text, reps[k].placeholder)
    decreases |reps|
    ensures Replaced(text, reps) == (text, Labels(reps))
  {
    if |reps| > 0 {
      var n := |reps| - 1;
      var prior := reps[..n];
      forall k | 0 <= k < n ensures !Contains(text, prior[k].placeholder) {
        assert prior[k] == reps[k];
      }
      NothingToReplace(text, prior);
      assert !Contains(text, reps[n].placeholder);
      assert Replaced(text, reps) == Step(Replaced(text, prior), reps[n]);
      assert Labels(prior) + [reps[n].caption] == Labels(reps);
    }
  }

  /** One placeholder that occurs is replaced at its first occurrence and
      is not reported missing. */
  lemma OnePlaceholder(text: string, r: Replacement)
    requires Contains(text, r.placeholder)
    ensures Replaced(text, [r]).1 == []
    ensures var i := Find(text, r.placeholder);
      Replaced(text, [r]).0 == text[..i] + r.replacement + text[i + |r.placeholder|..]
  {
    assert [r][..0] == [];
  }

  /** What `apply_replacements` does to one file: None when the file is
      missing */
  datatype Applied = Applied(missing: seq<string>, written: Option<string>)

  /** `apply_replacements`: a missing file gives one "File not found" entry;
      otherwise the triples are applied in order and the file is written
      only when its text changed. */
  method ApplyReplacements(fileName: string, content: Option<string>, reps: seq<Replacement>)
    returns (a: Applied)
    ensures content.None? ==> a == Applied(["File not found: " + fileName], None)
    ensures content.Some? ==>
      var r := Replaced(content.value, reps);
      a.missing == r.1 && (a.written.Some? <==> r.0 != content.value)
      && (a.written.Some? ==> a.written.value == r.0)
  {
    if content.None? {
      return Applied(["File not found: " + fileName], None);
    }
    var text := content.value;
    var updated := text;
    var missing: seq<string> := [];
    var i := 0;
    while i < |reps|
      invariant 0 <= i <= |reps|
      invariant (updated, missing) == Replaced(text, reps[..i])
    {
      var r := reps[i];
      assert reps[..i + 1][..i] == reps[..i];
      if Contains(updated, r.placeholder) {
        updated := ReplaceFirst(updated, r.placeholder, r.replacement);
      } else {
        missing := missing + [r.caption];
      }
      i := i + 1;
    }
    assert reps[..|reps|] == reps;
    if updated != text {
      a := Applied(missing, Some(updated));
    } else {
      a := Applied(missing, None);
    }
  }

  // ---------------------------------------------------------------------
  // Remaining TODO markers
  // ---------------------------------------------------------------------

  const TodoMarker := "[TODO:"

  /** The markers in the readable files; an unreadable file (None) adds
      nothing */
  function TodoTotal(files: seq<Option<string>>): nat
    decreases |files|
  {
    if |files| == 0 then 0
    else
      var f := files[|files| - 1];
      TodoTotal(files[..|files| - 1]) + (if f.Some? then Count(f.value, TodoMarker) else 0)
  }

  /** No marker is counted iff no readable file holds one. */
  lemma {:induction false} NoTodosLeft(files: seq<Option<string>>)
    decreases |files|
    ensures TodoTotal(files) == 0 <==>
      forall k :: 0 <= k < |files| && files[k].Some? ==> !Contains(files[k].value, TodoMarker)
  {
    if |files| > 0 {
      var n := |files| - 1;
      NoTodosLeft(files[..n]);
      assert forall k :: 0 <= k < n ==> files[..n][k] == files[k];
      if files[n].Some? {
        CountPositive(files[n].value, TodoMarker);
      }
    }
  }

  /** `count_todos` over the files the directory walk yields, in order */
  method CountTodos(files: seq<Option<string>>) returns (total: nat)
    ensures total == TodoTotal(files)
  {
    total := 0;
    var i := 0;
    while i < |files|
      invariant 0 <= i <= |files|
      invariant total == TodoTotal(files[..i])
    {
      assert files[..i + 1][..i] == files[..i];
      if files[i].Some? {
        total := total + Count(files[i].value, TodoMarker);
      }
      i := i + 1;
    }
    assert files[..|files|] == files;
  }
}
