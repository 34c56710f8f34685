/** `DocAnalyzer.identify_patterns`: examples are grouped by language; in
    every group of two or more examples each stripped code line longer than
    ten characters is tallied with the indices of the examples it appears
    in; a line tallied twice or more becomes a pattern; the patterns are
    stably sorted by occurrences, most frequent first, and cut to ten. */
module PatternIdentification {
  import opened Text
  import opened AnalyzerRecords
  import opened OrderedGroups

  const MaxPatterns := 10
  const MinLineLength := 10

  /** An example with its position in the input list */
  type Numbered = (nat, CodeExample)

  /** The appends to `by_language`, in loop order */
  function LanguageEntries(examples: seq<CodeExample>): (r: seq<Entry<Numbered>>)
    ensures |r| == |examples|
    ensures forall i :: 0 <= i < |examples| ==> r[i] == Entry(examples[i].language, (i as nat, examples[i]))
  {
    seq(|examples|, i requires 0 <= i < |examples| => Entry(examples[i].language, (i as nat, examples[i])))
  }

  /** `by_language` */
  function ByLanguage(examples: seq<CodeExample>): Groups<Numbered>
  {
    Collect(LanguageEntries(examples))
  }

  /** The stripped lines longer than ten characters, in order */
  function KeptLines(lines: seq<string>): seq<string>
    decreases |lines|
  {
    if |lines| == 0 then []
    else
      var n := |lines| - 1;
      var t := Strip(lines[n]);
      KeptLines(lines[..n]) + (if |t| > MinLineLength then [t] else [])
  }

  /** The lines of a code block that are tallied */
  function CodeLines(code: string): seq<string>
  {
    KeptLines(Split(code, '\n'))
  }

  function Tagged(lines: seq<string>, idx: nat): (r: seq<Entry<nat>>)
    ensures |r| == |lines|
    ensures forall j :: 0 <= j < |lines| ==> r[j] == Entry(lines[j], idx)
  {
    seq(|lines|, j requires 0 <= j < |lines| => Entry(lines[j], idx))
  }

  /** The appends to `line_counts` for one language group, in loop order */
  function LineEntries(group: seq<Numbered>): seq<Entry<nat>>
    decreases |group|
  {
    if |group| == 0 then []
    else
      var n := |group| - 1;
      LineEntries(group[..n]) + Tagged(CodeLines(group[n].1.code), group[n].0)
  }

  /** `line_counts` */
  function LineCounts(group: seq<Numbered>): Groups<nat>
  {
    Collect(LineEntries(group))
  }

  function MakePattern(language: string, line: string, ids: seq<nat>): Pattern
  {
    Pattern(Upper(language) + " common pattern",
            "Line appears in " + NatToString(|ids|) + " examples",
            |ids|, ids, line, [])
  }

  /** The patterns of one tally, in key order */
  function LinePatterns(language: string, lines: seq<string>, counts: map<string, seq<nat>>): seq<Pattern>
    requires forall k :: k in lines ==> k in counts
    decreases |lines|
  {
    if |lines| == 0 then []
    else
      var n := |lines| - 1;
      var ids := counts[lines[n]];
      LinePatterns(language, lines[..n], counts) + (if |ids| >= 2 then [MakePattern(language, lines[n], ids)] else [])
  }

  /** The patterns of one language group */
  function GroupPatterns(language: string, group: seq<Numbered>): seq<Pattern>
  {
    if |group| < 2 then []
    else
      var t := LineCounts(group);
      CollectKeys(LineEntries(group));
      LinePatterns(language, t.keys, t.values)
  }

  /** The patterns of the groups, in language order, before sorting */
  function Candidates(languages: seq<string>, byLanguage: map<string, seq<Numbered>>): seq<Pattern>
    requires forall k :: k in languages ==> k in byLanguage
    decreases |languages|
  {
    if |languages| == 0 then []
    else
      var n := |languages| - 1;
      Candidates(languages[..n], byLanguage) + GroupPatterns(languages[n], byLanguage[languages[n]])
  }

  function AllCandidates(examples: seq<CodeExample>): seq<Pattern>
  {
    var g := ByLanguage(examples);
    CollectKeys(LanguageEntries(examples));
    Candidates(g.keys, g.values)
  }

  // ---------------------------------------------------------------------
  // `patterns.sort(key=lambda p: p.occurrences, reverse=True)`: a stable
  // sort, most occurrences first
  // ---------------------------------------------------------------------

  /** Insert `p` after every pattern with at least as many occurrences */
  function Insert(sorted: seq<Pattern>, p: Pattern): seq<Pattern>
    decreases |sorted|
  {
    if |sorted| == 0 then [p]
    else if sorted[0].occurrences < p.occurrences then [p] + sorted
    else [sorted[0]] + Insert(sorted[1..], p)
  }

  function SortByOccurrences(ps: seq<Pattern>): seq<Pattern>
    decreases |ps|
  {
    if |ps| == 0 then [] else Insert(SortByOccurrences(ps[..|ps| - 1]), ps[|ps| - 1])
  }

  /** `identify_patterns` */
  function Patterns(examples: seq<CodeExample>): seq<Pattern>
  {
    Take(SortByOccurrences(AllCandidates(examples)), MaxPatterns)
  }

  // ---------------------------------------------------------------------
  // The loops of `identify_patterns`
  // ---------------------------------------------------------------------

  method IdentifyPatterns(examples: seq<CodeExample>) returns (patterns: seq<Pattern>)
    ensures patterns == Patterns(examples)
  {
    var byLanguage := GroupByLanguage(examples);
    CollectKeys(LanguageEntries(examples));
    patterns := [];
    for l := 0 to |byLanguage.keys|
      invariant patterns == Candidates(byLanguage.keys[..l], byLanguage.values)
    {
      var language := byLanguage.keys[l];
      var group := byLanguage.values[language];
      CandidatesStep(byLanguage.keys, byLanguage.values, l);
      if |group| < 2 {
        continue;
      }
      var lineCounts := CountLines(group);
      CollectKeys(LineEntries(group));
      var found := PatternsOfCounts(language, lineCounts);
      patterns := patterns + found;
    }
    assert byLanguage.keys[..|byLanguage.keys|] == byLanguage.keys;
    patterns := Take(SortByOccurrences(patterns), MaxPatterns);
  }

  lemma CandidatesStep(languages: seq<string>, byLanguage: map<string, seq<Numbered>>, l: nat)
    requires forall k :: k in languages ==> k in byLanguage
    requires l < |languages|
    ensures Candidates(languages[..l + 1], byLanguage)
         == Candidates(languages[..l], byLanguage) + GroupPatterns(languages[l], byLanguage[languages[l]])
  {
    assert languages[..l + 1][..l] == languages[..l];
  }

  /** The grouping loop */
  method GroupByLanguage(examples: seq<CodeExample>) returns (byLanguage: Groups<Numbered>)
    ensures byLanguage == ByLanguage(examples)
  {
    byLanguage := Empty();
    for i := 0 to |examples|
      invariant byLanguage == Collect(LanguageEntries(examples)[..i])
    {
      var e := Entry(examples[i].language, (i as nat, examples[i]));
      CollectSnoc(LanguageEntries(examples)[..i], e);
      assert LanguageEntries(examples)[..i + 1] == LanguageEntries(examples)[..i] + [e];
      byLanguage := Add(byLanguage, e);
    }
    assert LanguageEntries(examples)[..|examples|] == LanguageEntries(examples);
  }

  /** The tally loop over the examples of one group */
  method CountLines(group: seq<Numbered>) returns (lineCounts: Groups<nat>)
    ensures lineCounts == LineCounts(group)
  {
    lineCounts := Empty();
    for k := 0 to |group|
      invariant lineCounts == Collect(LineEntries(group[..k]))
    {
      assert group[..k + 1][..k] == group[..k];
      lineCounts := CountExampleLines(lineCounts, LineEntries(group[..k]), group[k]);
    }
    assert group[..|group|] == group;
  }

  /** One example: its lines, then the tally loop over them */
  method CountExampleLines(counts0: Groups<nat>, ghost before: seq<Entry<nat>>, ex: Numbered)
    returns (lineCounts: Groups<nat>)
    requires counts0 == Collect(before)
    ensures lineCounts == Collect(before + Tagged(CodeLines(ex.1.code), ex.0))
  {
    var lines := Split(ex.1.code, '\n');
    lineCounts := TallyLines(counts0, before, lines, ex.0);
  }

  /** The tally loop over the lines of one example */
  method TallyLines(counts0: Groups<nat>, ghost before: seq<Entry<nat>>, lines: seq<string>, idx: nat)
    returns (lineCounts: Groups<nat>)
    requires counts0 == Collect(before)
    ensures lineCounts == Collect(before + Tagged(KeptLines(lines), idx))
  {
    lineCounts := counts0;
    assert before + Tagged(KeptLines(lines[..0]), idx) == before;
    for j := 0 to |lines|
      invariant lineCounts == Collect(before + Tagged(KeptLines(lines[..j]), idx))
    {
      var line := Strip(lines[j]);
      TallyStep(before, lines, j, idx);
      if |line| > MinLineLength {
        lineCounts := Add(lineCounts, Entry(line, idx));
      }
    }
    assert lines[..|lines|] == lines;
  }

  lemma KeptStep(lines: seq<string>, j: nat)
    requires j < |lines|
    ensures KeptLines(lines[..j + 1])
         == KeptLines(lines[..j]) + (if |Strip(lines[j])| > MinLineLength then [Strip(lines[j])] else [])
  {
    assert lines[..j + 1][..j] == lines[..j];
  }

  lemma TaggedAppend(a: seq<string>, b: seq<string>, idx: nat)
    ensures Tagged(a + b, idx) == Tagged(a, idx) + Tagged(b, idx)
  {
  }

  /** One line of the inner tally loop */
  lemma TallyStep(before: seq<Entry<nat>>, lines: seq<string>, j: nat, idx: nat)
    requires j < |lines|
    ensures var prefix := before + Tagged(KeptLines(lines[..j]), idx);
      Collect(before + Tagged(KeptLines(lines[..j + 1]), idx))
      == if |Strip(lines[j])| > MinLineLength then Add(Collect(prefix), Entry(Strip(lines[j]), idx))
         else Collect(prefix)
  {
    var kept := KeptLines(lines[..j]);
    var t := Strip(lines[j]);
    var extra := if |t| > MinLineLength then [t] else [];
    KeptStep(lines, j);
    TaggedAppend(kept, extra, idx);
    assert before + Tagged(kept + extra, idx) == (before + Tagged(kept, idx)) + Tagged(extra, idx);
    var prefix := before + Tagged(kept, idx);
    if |t| > MinLineLength {
      assert Tagged(extra, idx) == [Entry(t, idx)];
      CollectSnoc(prefix, Entry(t, idx));
    } else {
      assert Tagged(extra, idx) == [];
      assert prefix + Tagged(extra, idx) == prefix;
    }
  }

  /** The loop over the tally of one group */
  method PatternsOfCounts(language: string, lineCounts: Groups<nat>) returns (found: seq<Pattern>)
    requires forall k :: k in lineCounts.keys ==> k in lineCounts.values
    ensures found == LinePatterns(language, lineCounts.keys, lineCounts.values)
  {
    found := [];
    for j := 0 to |lineCounts.keys|
      invariant found == LinePatterns(language, lineCounts.keys[..j], lineCounts.values)
    {
      var line := lineCounts.keys[j];
      var indices := lineCounts.values[line];
      assert lineCounts.keys[..j + 1][..j] == lineCounts.keys[..j];
      if |indices| >= 2 {
        found := found + [MakePattern(language, line, indices)];
      }
    }
    assert lineCounts.keys[..|lineCounts.keys|] == lineCounts.keys;
  }

  // ---------------------------------------------------------------------
  // The sort: ordered, a permutation, and stable
  // ---------------------------------------------------------------------

  predicate SortedDescending(ps: seq<Pattern>)
  {
    forall i, j :: 0 <= i < j < |ps| ==> ps[i].occurrences >= ps[j].occurrences
  }

  /** The patterns with `c` occurrences, in order */
  function WithOccurrences(ps: seq<Pattern>, c: nat): seq<Pattern>
    decreases |ps|
  {
    if |ps| == 0 then []
    else (if ps[0].occurrences == c then [ps[0]] else []) + WithOccurrences(ps[1..], c)
  }

  lemma {:induction false} WithOccurrencesAppend(a: seq<Pattern>, b: seq<Pattern>, c: nat)
    decreases |a|
    ensures WithOccurrences(a + b, c) == WithOccurrences(a, c) + WithOccurrences(b, c)
  {
    if |a| == 0 {
      assert a + b == b;
    } else {
      assert (a + b)[1..] == a[1..] + b;
      WithOccurrencesAppend(a[1..], b, c);
    }
  }

  lemma {:induction false} WithOccurrencesNone(ps: seq<Pattern>, c: nat)
    requires forall i :: 0 <= i < |ps| ==> ps[i].occurrences < c
    decreases |ps|
    ensures WithOccurrences(ps, c) == []
  {
    if |ps| > 0 {
      WithOccurrencesNone(ps[1..], c);
    }
  }

  lemma {:induction false} InsertMembers(sorted: seq<Pattern>, p: Pattern)
    decreases |sorted|
    ensures multiset(Insert(sorted, p)) == multiset(sorted) + multiset{p}
  {
    if |sorted| > 0 {
      assert sorted == [sorted[0]] + sorted[1..];
      if sorted[0].occurrences >= p.occurrences {
        InsertMembers(sorted[1..], p);
      }
    }
  }

  predicate AtMost(ps: seq<Pattern>, m: nat)
  {
    forall i :: 0 <= i < |ps| ==> ps[i].occurrences <= m
  }

  lemma {:induction false} InsertAtMost(sorted: seq<Pattern>, p: Pattern, m: nat)
    requires AtMost(sorted, m) && p.occurrences <= m
    decreases |sorted|
    ensures AtMost(Insert(sorted, p), m)
  {
    if |sorted| > 0 && sorted[0].occurrences >= p.occurrences {
      InsertAtMost(sorted[1..], p, m);
    }
  }

  lemma {:induction false} InsertSorted(sorted: seq<Pattern>, p: Pattern)
    requires SortedDescending(sorted)
    decreases |sorted|
    ensures SortedDescending(Insert(sorted, p))
  {
    if |sorted| > 0 && sorted[0].occurrences >= p.occurrences {
      var rest := Insert(sorted[1..], p);
      InsertSorted(sorted[1..], p);
      InsertAtMost(sorted[1..], p, sorted[0].occurrences);
      assert Insert(sorted, p) == [sorted[0]] + rest;
    }
  }

  lemma {:induction false} InsertStable(sorted: seq<Pattern>, p: Pattern, c: nat)
    requires SortedDescending(sorted)
    decreases |sorted|
    ensures WithOccurrences(Insert(sorted, p), c)
            == WithOccurrences(sorted, c) + (if p.occurrences == c then [p] else [])
  {
    if |sorted| == 0 {
    } else if sorted[0].occurrences < p.occurrences {
      assert Insert(sorted, p)[1..] == sorted;
      if p.occurrences == c {
        WithOccurrencesNone(sorted, c);
      }
    } else {
      InsertStable(sorted[1..], p, c);
      assert Insert(sorted, p)[1..] == Insert(sorted[1..], p);
    }
  }

  /** The sort orders by occurrences, most first. */
  lemma {:induction false} SortSorted(ps: seq<Pattern>)
    decreases |ps|
    ensures SortedDescending(SortByOccurrences(ps))
  {
    if |ps| > 0 {
      var n := |ps| - 1;
      SortSorted(ps[..n]);
      InsertSorted(SortByOccurrences(ps[..n]), ps[n]);
    }
  }

  /** The sort keeps every pattern, as often as it occurs. */
  lemma {:induction false} SortMembers(ps: seq<Pattern>)
    decreases |ps|
    ensures multiset(SortByOccurrences(ps)) == multiset(ps)
  {
    if |ps| > 0 {
      var n := |ps| - 1;
      var prior := ps[..n];
      var sorted := SortByOccurrences(prior);
      calc {
        multiset(SortByOccurrences(ps));
        multiset(Insert(sorted, ps[n]));
        { InsertMembers(sorted, ps[n]); }
        multiset(sorted) + multiset{ps[n]};
        { SortMembers(prior); }
        multiset(prior) + multiset{ps[n]};
        { assert ps == prior + [ps[n]]; }
        multiset(ps);
      }
    }
  }

  /** The sort is stable: patterns with equal occurrences keep their order. */
  lemma {:induction false} SortStable(ps: seq<Pattern>, c: nat)
    decreases |ps|
    ensures WithOccurrences(SortByOccurrences(ps), c) == WithOccurrences(ps, c)
  {
    if |ps| > 0 {
      var n := |ps| - 1;
      SortStable(ps[..n], c);
      SortSorted(ps[..n]);
      InsertStable(SortByOccurrences(ps[..n]), ps[n], c);
      assert ps == ps[..n] + [ps[n]];
      WithOccurrencesAppend(ps[..n], [ps[n]], c);
    }
  }

  /** At most ten patterns, most frequent first, each one of the candidates;
      the ten are the first ten of the stable sort. */
  lemma PatternsOrder(examples: seq<CodeExample>)
    ensures |Patterns(examples)| <= MaxPatterns
    ensures SortedDescending(Patterns(examples))
    ensures multiset(Patterns(examples)) <= multiset(AllCandidates(examples))
    ensures |AllCandidates(examples)| <= MaxPatterns ==>
      multiset(Patterns(examples)) == multiset(AllCandidates(examples))
  {
    var s := SortByOccurrences(AllCandidates(examples));
    SortSorted(AllCandidates(examples));
    SortMembers(AllCandidates(examples));
    var r := Patterns(examples);
    assert s == r + s[|r|..];
  }

  // ---------------------------------------------------------------------
  // What every pattern is made of
  // ---------------------------------------------------------------------

  lemma {:induction false} KeptLinesLong(lines: seq<string>)
    decreases |lines|
    ensures forall t :: t in KeptLines(lines) ==> |t| > MinLineLength
  {
    if |lines| > 0 {
      KeptLinesLong(lines[..|lines| - 1]);
    }
  }

  lemma {:induction false} CandidateSource(languages: seq<string>, byLanguage: map<string, seq<Numbered>>, p: Pattern)
    returns (language: string)
    requires forall k :: k in languages ==> k in byLanguage
    requires p in Candidates(languages, byLanguage)
    decreases |languages|
    ensures language in languages && p in GroupPatterns(language, byLanguage[language])
  {
    var n := |languages| - 1;
    if p in Candidates(languages[..n], byLanguage) {
      language := CandidateSource(languages[..n], byLanguage, p);
    } else {
      language := languages[n];
    }
  }

  lemma {:induction false} LinePatternSource(language: string, lines: seq<string>,
                                            counts: map<string, seq<nat>>, p: Pattern)
    returns (line: string)
    requires forall k :: k in lines ==> k in counts
    requires p in LinePatterns(language, lines, counts)
    decreases |lines|
    ensures line in lines && |counts[line]| >= 2 && p == MakePattern(language, line, counts[line])
  {
    var n := |lines| - 1;
    if p in LinePatterns(language, lines[..n], counts) {
      line := LinePatternSource(language, lines[..n], counts, p);
    } else {
      line := lines[n];
    }
  }

  lemma {:induction false} LineEntrySource(group: seq<Numbered>, line: string, id: nat)
    returns (k: nat)
    requires Entry(line, id) in LineEntries(group)
    decreases |group|
    ensures k < |group| && group[k].0 == id && line in CodeLines(group[k].1.code)
  {
    var n := |group| - 1;
    var tail := Tagged(CodeLines(group[n].1.code), group[n].0);
    if Entry(line, id) in LineEntries(group[..n]) {
      k := LineEntrySource(group[..n], line, id);
      assert group[..n][k] == group[k];
    } else {
      assert Entry(line, id) in tail;
      var j :| 0 <= j < |tail| && tail[j] == Entry(line, id);
      k := n;
    }
  }

  /** A member of a language group is an input example of that language,
      with its own position. */
  lemma GroupMember(examples: seq<CodeExample>, language: string, m: Numbered)
    requires language in ByLanguage(examples).values
    requires m in ByLanguage(examples).values[language]
    ensures m.0 < |examples| && m.1 == examples[m.0] && examples[m.0].language == language
  {
    CollectSpec(LanguageEntries(examples));
    ValuesForMember(LanguageEntries(examples), language, m);
    var es := LanguageEntries(examples);
    var i :| 0 <= i < |es| && es[i] == Entry(language, m);
  }

  /** The language, group and line a candidate pattern comes from */
  lemma CandidateSourceOf(examples: seq<CodeExample>, p: Pattern) returns (language: string, line: string)
    requires p in AllCandidates(examples)
    ensures language in ByLanguage(examples).values
    ensures |ByLanguage(examples).values[language]| >= 2
    ensures line in LineCounts(ByLanguage(examples).values[language]).values
    ensures var ids := LineCounts(ByLanguage(examples).values[language]).values[line];
      |ids| >= 2 && p == MakePattern(language, line, ids)
  {
    var g := ByLanguage(examples);
    CollectKeys(LanguageEntries(examples));
    language := CandidateSource(g.keys, g.values, p);
    var t := LineCounts(g.values[language]);
    CollectKeys(LineEntries(g.values[language]));
    line := LinePatternSource(language, t.keys, t.values, p);
  }

  /** Each index under a line of a group's tally names an example of the
      group's language that holds the line. */
  lemma TalliedIndex(examples: seq<CodeExample>, language: string, line: string, id: nat)
    requires language in ByLanguage(examples).values
    requires line in LineCounts(ByLanguage(examples).values[language]).values
    requires id in LineCounts(ByLanguage(examples).values[language]).values[line]
    ensures id < |examples| && examples[id].language == language
    ensures line in CodeLines(examples[id].code)
  {
    var group := ByLanguage(examples).values[language];
    CollectSpec(LineEntries(group));
    ValuesForMember(LineEntries(group), line, id);
    var k := LineEntrySource(group, line, id);
    GroupMember(examples, language, group[k]);
  }

  /** Every pattern: its occurrences are the length of its index list and
      at least two; its line is a stripped code line longer than ten
      characters; it has no variable parts; and it is named after a
      language whose group has at least two examples, each index naming an
      example of that language holding the line. */
  lemma CandidateFacts(examples: seq<CodeExample>, p: Pattern)
    requires p in AllCandidates(examples)
    ensures p.occurrences == |p.exampleIds| >= 2
    ensures |p.commonStructure| > MinLineLength
    ensures p.variableParts == []
    ensures p.description == "Line appears in " + NatToString(p.occurrences) + " examples"
    ensures exists language ::
      && language in ByLanguage(examples).values
      && |ByLanguage(examples).values[language]| >= 2
      && p.name == Upper(language) + " common pattern"
      && forall id :: id in p.exampleIds ==>
           id < |examples| && examples[id].language == language
           && p.commonStructure in CodeLines(examples[id].code)
  {
    var language := CandidateOrigin(examples, p);
    var id0 := p.exampleIds[0];
    assert id0 in p.exampleIds;
    LongCodeLine(examples[id0].code, p.commonStructure);
    assert p.name == Upper(language) + " common pattern";
  }

  /** The language group a pattern comes from, and the examples its
      indices name */
  lemma CandidateOrigin(examples: seq<CodeExample>, p: Pattern) returns (language: string)
    requires p in AllCandidates(examples)
    ensures p == MakePattern(language, p.commonStructure, p.exampleIds) && |p.exampleIds| >= 2
    ensures language in ByLanguage(examples).values && |ByLanguage(examples).values[language]| >= 2
    ensures forall id :: id in p.exampleIds ==>
      id < |examples| && examples[id].language == language
      && p.commonStructure in CodeLines(examples[id].code)
  {
    var line;
    language, line := CandidateSourceOf(examples, p);
    forall id | id in p.exampleIds
      ensures id < |examples| && examples[id].language == language
              && p.commonStructure in CodeLines(examples[id].code)
    {
      TalliedIndex(examples, language, line, id);
    }
  }

  /** A kept code line is longer than ten characters. */
  lemma LongCodeLine(code: string, t: string)
    requires t in CodeLines(code)
    ensures |t| > MinLineLength
  {
    KeptLinesLong(Split(code, '\n'));
  }

  // ---------------------------------------------------------------------
  // Occurrences count line appearances, not examples
  // ---------------------------------------------------------------------

  /** How many times `line` is tallied over the examples of a group */
  function Tally(group: seq<Numbered>, line: string): nat
    decreases |group|
  {
    if |group| == 0 then 0
    else
      var n := |group| - 1;
      Tally(group[..n], line) + multiset(CodeLines(group[n].1.code))[line]
  }

  lemma {:induction false} TaggedValues(lines: seq<string>, idx: nat, line: string)
    decreases |lines|
    ensures |ValuesFor(Tagged(lines, idx), line)| == multiset(lines)[line]
  {
    if |lines| > 0 {
      var n := |lines| - 1;
      assert Tagged(lines, idx)[..n] == Tagged(lines[..n], idx);
      TaggedValues(lines[..n], idx, line);
      assert lines == lines[..n] + [lines[n]];
    }
  }

  /** The index list of a line has one entry per appearance of the line in
      the group's examples: an example that repeats a line is listed, and
      counted, once per repetition. */
  lemma {:induction false} OccurrencesAreAppearances(group: seq<Numbered>, line: string)
    decreases |group|
    ensures |ValuesFor(LineEntries(group), line)| == Tally(group, line)
  {
    if |group| > 0 {
      var n := |group| - 1;
      OccurrencesAreAppearances(group[..n], line);
      ValuesForAppend(LineEntries(group[..n]), Tagged(CodeLines(group[n].1.code), group[n].0), line);
      TaggedValues(CodeLines(group[n].1.code), group[n].0, line);
    }
  }

  lemma LineEntriesSnoc(group: seq<Numbered>, x: Numbered)
    ensures LineEntries(group + [x]) == LineEntries(group) + Tagged(CodeLines(x.1.code), x.0)
  {
    assert (group + [x])[..|group|] == group;
  }

  /** Two examples where only the first holds a line, twice: the line still
      reaches two occurrences, both naming the first example. */
  lemma RepeatedLineCountsTwice(a: Numbered, b: Numbered, line: string)
    requires CodeLines(a.1.code) == [line, line]
    requires line !in CodeLines(b.1.code)
    ensures line in LineCounts([a, b]).values
    ensures LineCounts([a, b]).values[line] == [a.0, a.0]
  {
    var ta := Tagged([line, line], a.0);
    var tb := Tagged(CodeLines(b.1.code), b.0);
    PairEntries(a, b);
    assert LineCounts([a, b]) == Collect(ta + tb);
    assert KeysOf(tb) == CodeLines(b.1.code);
    TwiceCollected(line, a.0, tb);
  }

  lemma PairEntries(a: Numbered, b: Numbered)
    ensures LineEntries([a, b]) == Tagged(CodeLines(a.1.code), a.0) + Tagged(CodeLines(b.1.code), b.0)
  {
    assert LineEntries([a]) == Tagged(CodeLines(a.1.code), a.0) by {
      LineEntriesSnoc([], a);
      assert [] + [a] == [a];
    }
    LineEntriesSnoc([a], b);
    assert [a] + [b] == [a, b];
  }

  lemma TwiceCollected(line: string, i: nat, tb: seq<Entry<nat>>)
    requires line !in KeysOf(tb)
    ensures line in Collect(Tagged([line, line], i) + tb).values
    ensures Collect(Tagged([line, line], i) + tb).values[line] == [i, i]
  {
    var ta := Tagged([line, line], i);
    var es := ta + tb;
    CollectSpec(es);
    assert KeysOf(es)[0] == line;
    ValuesForAppend(ta, tb, line);
    ValuesForNone(tb, line);
    TwiceValues(line, i);
  }

  lemma TwiceValues(line: string, i: nat)
    ensures ValuesFor(Tagged([line, line], i), line) == [i, i]
  {
    var ta := Tagged([line, line], i);
    var one := ta[..1];
    assert one[..0] == [] && one[0] == Entry(line, i);
    assert ValuesFor(one, line) == [i];
    assert ta[..1] == one && ta[1] == Entry(line, i);
  }
}
