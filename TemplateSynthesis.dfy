/** The template synthesizer: examples grouped by language, one basic
    template per language from its simplest example, and advanced templates
    from the analyzer's patterns. */
module TemplateSynthesis {
  import opened Text
  import opened Wrappers
  import opened OrderedGroups
  import opened AnalyzerRecords
  import opened Placeholders
  import opened TemplateComments

  /** An example as the synthesizer receives it: a JSON object whose string
      fields are read with `dict.get` and a default */
  type ExampleDict = map<string, string>

  function LanguageOf(e: ExampleDict): string { GetOr(e, "language", "unknown") }
  function CodeOf(e: ExampleDict): string { GetOr(e, "code", "") }

  datatype TemplateType = Basic | Advanced | Configuration | Workflow
  {
    function Value(): string
    {
      match this
      case Basic => "basic"
      case Advanced => "advanced"
      case Configuration => "configuration"
      case Workflow => "workflow"
    }
  }

  /** The fields of a template fixed when it is made */
  datatype Draft = Draft(
    name: string,
    kind: TemplateType,
    language: string,
    content: string,
    sourceExamples: seq<nat>)

  /** A synthesized template; its placeholder list and defaults are filled
      in afterwards, in place. Usage text and creation metadata are not
      modelled. */
  class Template {
    const name: string
    const kind: TemplateType
    const language: string
    const content: string
    const sourceExamples: seq<nat>
    var placeholders: seq<string>
    var defaults: map<string, string>

    constructor (d: Draft)
      ensures AsDraft() == d
      ensures placeholders == [] && defaults == map[]
    {
      name := d.name;
      kind := d.kind;
      language := d.language;
      content := d.content;
      sourceExamples := d.sourceExamples;
      placeholders := [];
      defaults := map[];
    }

    function AsDraft(): Draft
    {
      Draft(name, kind, language, content, sourceExamples)
    }
  }

  // ---------------------------------------------------------------------
  // Grouping
  // ---------------------------------------------------------------------

  function LanguageEntries(examples: seq<ExampleDict>): (r: seq<Entry<ExampleDict>>)
    ensures |r| == |examples|
    ensures forall i :: 0 <= i < |examples| ==> r[i] == Entry(LanguageOf(examples[i]), examples[i])
  {
    seq(|examples|, i requires 0 <= i < |examples| => Entry(LanguageOf(examples[i]), examples[i]))
  }

  /** `_group_by_language` as a value */
  function ByLanguage(examples: seq<ExampleDict>): Groups<ExampleDict>
  {
    Collect(LanguageEntries(examples))
  }

  /** `_group_by_language` */
  method GroupByLanguage(examples: seq<ExampleDict>) returns (grouped: Groups<ExampleDict>)
    ensures grouped == ByLanguage(examples)
  {
    grouped := Empty();
    for i := 0 to |examples|
      invariant grouped == Collect(LanguageEntries(examples)[..i])
    {
      var e := Entry(LanguageOf(examples[i]), examples[i]);
      CollectSnoc(LanguageEntries(examples)[..i], e);
      assert LanguageEntries(examples)[..i + 1] == LanguageEntries(examples)[..i] + [e];
      grouped := Add(grouped, e);
    }
    assert LanguageEntries(examples)[..|examples|] == LanguageEntries(examples);
  }

  /** Each language is one group, in order of first appearance, and there is
      a group for exactly the languages the examples have. */
  lemma GroupsKeys(examples: seq<ExampleDict>)
    ensures NoDuplicates(ByLanguage(examples).keys)
    ensures forall k :: k in ByLanguage(examples).keys <==> k in ByLanguage(examples).values
    ensures forall k :: k in ByLanguage(examples).values <==>
      exists i :: 0 <= i < |examples| && LanguageOf(examples[i]) == k
  {
    var es := LanguageEntries(examples);
    CollectSpec(es);
    CollectKeys(es);
    forall k
      ensures k in KeysOf(es) <==> exists i :: 0 <= i < |examples| && LanguageOf(examples[i]) == k
    {
      if k in KeysOf(es) {
        var i :| 0 <= i < |es| && KeysOf(es)[i] == k;
        assert LanguageOf(examples[i]) == k;
      }
    }
  }

  /** Each group holds exactly the examples of its language, in input order. */
  lemma GroupsMembers(examples: seq<ExampleDict>, k: string)
    requires k in ByLanguage(examples).values
    ensures ByLanguage(examples).values[k] == ValuesFor(LanguageEntries(examples), k)
    ensures forall e :: e in ByLanguage(examples).values[k] <==> e in examples && LanguageOf(e) == k
  {
    var es := LanguageEntries(examples);
    CollectSpec(es);
    forall e
      ensures e in ByLanguage(examples).values[k] <==> e in examples && LanguageOf(e) == k
    {
      ValuesForMember(es, k, e);
      if e in examples && LanguageOf(e) == k {
        var i :| 0 <= i < |examples| && examples[i] == e;
        assert es[i] == Entry(k, e);
      }
    }
  }

  /** The group sizes add up to the number of examples. */
  lemma GroupsSizes(examples: seq<ExampleDict>)
    ensures SizeOver(ByLanguage(examples).keys, ByLanguage(examples).values) == |examples|
  {
    CollectTotal(LanguageEntries(examples));
  }

  // ---------------------------------------------------------------------
  // The basic template
  // ---------------------------------------------------------------------

  /** The ordering key of `_create_basic_template`'s `min`: non-basic
      examples after basic ones, then by code length */
  function NotBasic(e: ExampleDict): nat
  {
    if GetOr(e, "example_type", "") == "basic" then 0 else 1
  }

  predicate KeyLess(a: ExampleDict, b: ExampleDict)
  {
    NotBasic(a) < NotBasic(b) || (NotBasic(a) == NotBasic(b) && |CodeOf(a)| < |CodeOf(b)|)
  }

  /** The position of Python's `min` by that key: the first example whose
      key no other example's key is below */
  function Simplest(group: seq<ExampleDict>): (r: nat)
    requires |group| > 0
    decreases |group|
    ensures r < |group|
    ensures forall j :: 0 <= j < |group| ==> !KeyLess(group[j], group[r])
    ensures forall j :: 0 <= j < r ==> KeyLess(group[r], group[j])
  {
    if |group| == 1 then 0
    else
      var n := |group| - 1;
      var m := Simplest(group[..n]);
      assert forall j :: 0 <= j < n ==> group[..n][j] == group[j];
      if KeyLess(group[n], group[m]) then n else m
  }

  /** `examples.index(simplest)` is the position `min` chose: every example
      before it has a strictly larger key, so none equals it. */
  lemma SimplestIndex(group: seq<ExampleDict>)
    requires |group| > 0
    ensures IndexOf(group, group[Simplest(group)]) == Simplest(group)
  {
    var r := Simplest(group);
    var i := IndexOf(group, group[r]);
    assert forall j :: 0 <= j < r ==> group[j] != group[r];
  }

  /** The first step of `_generalize_code`; its later passes are not modelled. */
  function Generalize(code: string): string
  {
    ReplaceUrls(code)
  }

  /** `_create_basic_template` as a value */
  function BasicDraft(group: seq<ExampleDict>, language: string, toolType: string): Option<Draft>
  {
    if |group| == 0 then None
    else
      var chosen := group[Simplest(group)];
      var code := CodeOf(chosen);
      if code == "" then None
      else
        Some(Draft(toolType + "_basic", Basic, language,
          InlineComments(Generalize(code), chosen, language),
          [IndexOf(group, chosen)]))
  }

  /** There is a basic template unless the group is empty or its simplest
      example has no code; it is named after the tool type, made from the
      example `min` chooses, and cites that example's position. */
  lemma BasicDraftFacts(group: seq<ExampleDict>, language: string, toolType: string)
    ensures BasicDraft(group, language, toolType).None? <==>
      |group| == 0 || CodeOf(group[Simplest(group)]) == ""
    ensures BasicDraft(group, language, toolType).Some? ==>
      var d := BasicDraft(group, language, toolType).value;
      && d.name == toolType + "_basic" && d.kind == Basic && d.language == language
      && d.sourceExamples == [Simplest(group)]
      && d.content == InlineComments(Generalize(CodeOf(group[Simplest(group)])), group[Simplest(group)], language)
  {
    if |group| > 0 {
      SimplestIndex(group);
    }
  }

  /** `_create_basic_template` */
  method CreateBasicTemplate(group: seq<ExampleDict>, language: string, toolType: string)
    returns (t: Template?)
    ensures BasicDraft(group, language, toolType).None? ==> t == null
    ensures BasicDraft(group, language, toolType).Some? ==>
      t != null && fresh(t) && t.AsDraft() == BasicDraft(group, language, toolType).value
      && t.placeholders == [] && t.defaults == map[]
  {
    if |group| == 0 {
      return null;
    }
    var simplest := group[Simplest(group)];
    var code := CodeOf(simplest);
    if code == "" {
      return null;
    }
    var content := AddInlineComments(Generalize(code), simplest, language);
    t := new Template(Draft(toolType + "_basic", Basic, language, content, [IndexOf(group, simplest)]));
  }

  // ---------------------------------------------------------------------
  // Advanced templates
  // ---------------------------------------------------------------------

  /** `[examples[idx] for idx in example_ids if idx < len(examples)]`: the
      pattern's ids, global positions in the whole example list, index the
      language group */
  function PatternExamples(group: seq<ExampleDict>, ids: seq<nat>): seq<ExampleDict>
    decreases |ids|
  {
    if |ids| == 0 then []
    else
      var n := |ids| - 1;
      PatternExamples(group, ids[..n]) + (if ids[n] < |group| then [group[ids[n]]] else [])
  }

  /** At most one example is drawn per id, and none exactly when every id
      is at or past the group's end. */
  lemma {:induction false} PatternExamplesCount(group: seq<ExampleDict>, ids: seq<nat>)
    decreases |ids|
    ensures |PatternExamples(group, ids)| <= |ids|
    ensures |PatternExamples(group, ids)| == 0 <==> forall id :: id in ids ==> id >= |group|
  {
    if |ids| > 0 {
      var n := |ids| - 1;
      var init := ids[..n];
      PatternExamplesCount(group, init);
      assert ids == init + [ids[n]];
      assert forall id :: id in init ==> id in ids;
      if |PatternExamples(group, ids)| == 0 {
        forall id | id in ids
          ensures id >= |group|
        {
          if id !in init {
            assert id == ids[n];
          }
        }
      }
      if forall id :: id in ids ==> id >= |group| {
        assert ids[n] in ids;
        assert forall id :: id in init ==> id >= |group|;
      }
    }
  }

  /** The examples drawn for a pattern are the group members at the ids
      below the group size. */
  lemma {:induction false} PatternExamplesMembers(group: seq<ExampleDict>, ids: seq<nat>, e: ExampleDict)
    decreases |ids|
    ensures e in PatternExamples(group, ids) <==> exists id :: id in ids && id < |group| && group[id] == e
  {
    if |ids| > 0 {
      var n := |ids| - 1;
      var init := ids[..n];
      PatternExamplesMembers(group, init, e);
      assert ids == init + [ids[n]];
      if e in PatternExamples(group, init) {
        var id :| id in init && id < |group| && group[id] == e;
        assert id in ids;
      }
      if exists id :: id in ids && id < |group| && group[id] == e {
        var id :| id in ids && id < |group| && group[id] == e;
        if id in init {
          assert e in PatternExamples(group, init);
        } else {
          assert id == ids[n];
        }
      }
    }
  }

  /** `[examples.index(e) for e in examples if e in examples]` */
  function FirstPositions(pe: seq<ExampleDict>): (r: seq<nat>)
    ensures |r| == |pe|
    ensures forall k :: 0 <= k < |pe| ==> r[k] <= k && pe[r[k]] == pe[k]
  {
    seq(|pe|, k requires 0 <= k < |pe| => IndexOf(pe, pe[k]))
  }

  /** `_synthesize_from_pattern` as a value */
  function PatternDraft(p: Pattern, pe: seq<ExampleDict>, language: string, toolType: string): Option<Draft>
  {
    if p.commonStructure == "" then None
    else
      Some(Draft(toolType + "_" + p.name, Advanced, language,
        InlineComments(AddPlaceholders(p.commonStructure, p.variableParts), map["context" := p.description], language),
        FirstPositions(pe)))
  }

  /** What one pattern adds for one language group */
  function PatternDrafts(group: seq<ExampleDict>, p: Pattern, language: string, toolType: string): seq<Draft>
  {
    var pe := PatternExamples(group, p.exampleIds);
    if |pe| == 0 then []
    else match PatternDraft(p, pe, language, toolType)
      case Some(d) => [d]
      case None => []
  }

  /** `_create_advanced_templates` as a value */
  function AdvancedDrafts(group: seq<ExampleDict>, patterns: seq<Pattern>, language: string, toolType: string): seq<Draft>
    decreases |patterns|
  {
    if |patterns| == 0 then []
    else
      var n := |patterns| - 1;
      AdvancedDrafts(group, patterns[..n], language, toolType) + PatternDrafts(group, patterns[n], language, toolType)
  }

  /** `_synthesize_from_pattern` */
  method SynthesizeFromPattern(p: Pattern, pe: seq<ExampleDict>, language: string, toolType: string)
    returns (t: Template?)
    ensures PatternDraft(p, pe, language, toolType).None? ==> t == null
    ensures PatternDraft(p, pe, language, toolType).Some? ==>
      t != null && fresh(t) && t.AsDraft() == PatternDraft(p, pe, language, toolType).value
      && t.placeholders == [] && t.defaults == map[]
  {
    if p.commonStructure == "" {
      return null;
    }
    var content := AddPlaceholders(p.commonStructure, p.variableParts);
    content := AddInlineComments(content, map["context" := p.description], language);
    t := new Template(Draft(toolType + "_" + p.name, Advanced, language, content, FirstPositions(pe)));
  }

  /** The templates a method returns: made fresh, in the order of `drafts`,
      with no placeholders or defaults yet */
  predicate Made(ts: seq<Template>, drafts: seq<Draft>)
    reads set t | t in ts
  {
    |ts| == |drafts|
    && forall i :: 0 <= i < |ts| ==> ts[i].AsDraft() == drafts[i] && ts[i].placeholders == [] && ts[i].defaults == map[]
  }

  lemma MadeAppend(ts: seq<Template>, drafts: seq<Draft>, us: seq<Template>, more: seq<Draft>)
    requires Made(ts, drafts) && Made(us, more)
    ensures Made(ts + us, drafts + more)
  {
    forall i | |ts| <= i < |ts| + |us|
      ensures (ts + us)[i] == us[i - |ts|] && (drafts + more)[i] == more[i - |ts|]
    {
    }
  }

  /** `_create_advanced_templates` */
  method CreateAdvancedTemplates(group: seq<ExampleDict>, patterns: seq<Pattern>, language: string, toolType: string)
    returns (ts: seq<Template>)
    ensures Made(ts, AdvancedDrafts(group, patterns, language, toolType))
    ensures forall i :: 0 <= i < |ts| ==> fresh(ts[i])
  {
    ts := [];
    for i := 0 to |patterns|
      invariant Made(ts, AdvancedDrafts(group, patterns[..i], language, toolType))
      invariant forall k :: 0 <= k < |ts| ==> fresh(ts[k])
    {
      assert patterns[..i + 1][..i] == patterns[..i];
      var p := patterns[i];
      var pe := PatternExamples(group, p.exampleIds);
      if |pe| == 0 {
        continue;
      }
      var t := SynthesizeFromPattern(p, pe, language, toolType);
      if t != null {
        MadeAppend(ts, AdvancedDrafts(group, patterns[..i], language, toolType), [t], [t.AsDraft()]);
        ts := ts + [t];
      }
    }
    assert patterns[..|patterns|] == patterns;
  }

  /** A pattern yields an advanced template in a language group exactly when
      its common line is non-empty and one of its ids is below the group's
      size, whatever language the pattern came from: the ids are positions
      in the whole example list, not in the group. */
  lemma PatternDraftsRule(group: seq<ExampleDict>, p: Pattern, language: string, toolType: string)
    ensures |PatternDrafts(group, p, language, toolType)| <= 1
    ensures |PatternDrafts(group, p, language, toolType)| == 1 <==>
      p.commonStructure != "" && exists id :: id in p.exampleIds && id < |group|
    ensures |PatternDrafts(group, p, language, toolType)| == 1 ==>
      var d := PatternDrafts(group, p, language, toolType)[0];
      && d.name == toolType + "_" + p.name && d.kind == Advanced && d.language == language
      && |d.sourceExamples| == |PatternExamples(group, p.exampleIds)|
  {
    PatternExamplesCount(group, p.exampleIds);
  }

  // ---------------------------------------------------------------------
  // All templates
  // ---------------------------------------------------------------------

  /** The templates of one language: its basic template, if any, then the
      advanced ones when there are patterns */
  function LanguageDrafts(group: seq<ExampleDict>, patterns: seq<Pattern>, language: string, toolType: string): seq<Draft>
  {
    (match BasicDraft(group, language, toolType) case Some(d) => [d] case None => [])
    + (if |patterns| > 0 then AdvancedDrafts(group, patterns, language, toolType) else [])
  }

  function DraftsFor(keys: seq<string>, values: map<string, seq<ExampleDict>>, patterns: seq<Pattern>, toolType: string): seq<Draft>
    requires forall k :: k in keys ==> k in values
    decreases |keys|
  {
    if |keys| == 0 then []
    else
      var n := |keys| - 1;
      DraftsFor(keys[..n], values, patterns, toolType) + LanguageDrafts(values[keys[n]], patterns, keys[n], toolType)
  }

  /** `synthesize_templates` as a value: the languages in order of first
      appearance */
  function Synthesis(examples: seq<ExampleDict>, patterns: seq<Pattern>, toolType: string): seq<Draft>
  {
    var g := ByLanguage(examples);
    CollectKeys(LanguageEntries(examples));
    DraftsFor(g.keys, g.values, patterns, toolType)
  }

  /** The loop body of `synthesize_templates` for one language */
  method LanguageTemplates(group: seq<ExampleDict>, patterns: seq<Pattern>, language: string, toolType: string)
    returns (made: seq<Template>)
    ensures Made(made, LanguageDrafts(group, patterns, language, toolType))
    ensures forall i :: 0 <= i < |made| ==> fresh(made[i])
  {
    var basic := CreateBasicTemplate(group, language, toolType);
    made := [];
    ghost var drafts: seq<Draft> := [];
    if basic != null {
      made := [basic];
      drafts := [basic.AsDraft()];
    }
    if |patterns| > 0 {
      var advanced := CreateAdvancedTemplates(group, patterns, language, toolType);
      MadeAppend(made, drafts, advanced, AdvancedDrafts(group, patterns, language, toolType));
      made := made + advanced;
      drafts := drafts + AdvancedDrafts(group, patterns, language, toolType);
    }
    assert drafts == LanguageDrafts(group, patterns, language, toolType);
  }

  lemma DraftsForStep(keys: seq<string>, values: map<string, seq<ExampleDict>>, patterns: seq<Pattern>, toolType: string, l: nat)
    requires forall k :: k in keys ==> k in values
    requires l < |keys|
    ensures DraftsFor(keys[..l + 1], values, patterns, toolType)
      == DraftsFor(keys[..l], values, patterns, toolType) + LanguageDrafts(values[keys[l]], patterns, keys[l], toolType)
  {
    assert keys[..l + 1][..l] == keys[..l];
  }

  /** `synthesize_templates` */
  method SynthesizeTemplates(examples: seq<ExampleDict>, patterns: seq<Pattern>, toolType: string)
    returns (templates: seq<Template>)
    ensures Made(templates, Synthesis(examples, patterns, toolType))
    ensures forall i :: 0 <= i < |templates| ==> fresh(templates[i])
  {
    var grouped := GroupByLanguage(examples);
    assert forall k :: k in grouped.keys ==> k in grouped.values by {
      CollectKeys(LanguageEntries(examples));
    }
    templates := [];
    for l := 0 to |grouped.keys|
      invariant Made(templates, DraftsFor(grouped.keys[..l], grouped.values, patterns, toolType))
      invariant forall k :: 0 <= k < |templates| ==> fresh(templates[k])
    {
      var language := grouped.keys[l];
      var made := LanguageTemplates(grouped.values[language], patterns, language, toolType);
      assert Made(templates + made, DraftsFor(grouped.keys[..l + 1], grouped.values, patterns, toolType)) by {
        DraftsForStep(grouped.keys, grouped.values, patterns, toolType, l);
        MadeAppend(templates, DraftsFor(grouped.keys[..l], grouped.values, patterns, toolType),
          made, LanguageDrafts(grouped.values[language], patterns, language, toolType));
      }
      templates := templates + made;
    }
    assert grouped.keys[..|grouped.keys|] == grouped.keys;
  }

  /** Without patterns there is at most one template per language, each a
      basic one. */
  lemma {:induction false} BasicOnly(keys: seq<string>, values: map<string, seq<ExampleDict>>, toolType: string)
    requires forall k :: k in keys ==> k in values
    decreases |keys|
    ensures |DraftsFor(keys, values, [], toolType)| <= |keys|
    ensures forall d :: d in DraftsFor(keys, values, [], toolType) ==> d.kind == Basic && d.language in keys
  {
    if |keys| > 0 {
      var n := |keys| - 1;
      BasicOnly(keys[..n], values, toolType);
    }
  }
}
