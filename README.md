# Skill creation pipeline: a verified Dafny model

This project models the text-processing core of a tool that turns free-form
documentation into a packaged "skill": a SKILL.md instruction file plus
templates, support documents and validation scripts. Each Python script of
the core is modelled by one or more Dafny modules, and the properties the
code promises are proved about the model.

- **Documentation analysis** (`scripts/doc_analyzer.py`):
  - `ToolClassification` holds the indicator scoring, the winner and its confidence.
  - `WorkflowExtraction` is the per-page header/step state machine.
  - `ExampleExtraction` is the fenced-code scanner.
  - `PatternIdentification` builds the repeated-line table.
  - `PitfallExtraction` and `GapAnalysis` are the keyword scanners.
  - `KeywordRules` holds the severity and impact rules.
  - `DocAnalysis` is the top-level pass.
  - `AnalyzerRecords` holds the result records.
  - `OrderedGroups` is Python's insertion-ordered dictionary of lists.
- **Template synthesis** (`scripts/template_synthesizer.py`):
  - `TemplateSynthesis` covers grouping by language, the basic and advanced templates, and the `Template` class with its mutable placeholder and default fields.
  - `Placeholders` covers the URL scanner, the `${NAME}` tokens and placeholder names.
  - `TemplateComments` covers the comment markers, the header and the inline comments.
  - `TemplateChecks` covers re-reading placeholders, default values and the syntax check.
- **Corpus helpers** (`scripts/doc_extractor.py`): `DocExtractor`.
- **Gap research** (`scripts/gap_researcher.py`): `GapResearch` covers the query queue, the priority sort, the fallback researcher and relevance classification.
- **Pipeline control** (`scripts/create_skill.py`): `Pipeline` covers `PipelineState` as a class, the phase rule and the phase loop of `SkillCreator.run`, whose runners are abstract outcomes.
- **Validation**:
  - `SkillFile` reads a SKILL.md into frontmatter and body (`scripts/validate_skill.py`).
  - `ValidateSkill` holds the `ValidationResult` and `SkillValidator` classes and the check cascade.
  - `QuickValidate` is the minimal check (`scripts/quick_validate.py`).
- **Initialisation** (`scripts/init_skill.py`): `InitSkill` covers the name rule, display names, placeholder replacement and the TODO count.
- **Generators**:
  - `SkillMdGenerator` builds the SKILL.md sections (`scripts/skill_md_generator.py`).
  - `AssetGenerator` builds the troubleshooting guide, quick reference, configuration template and examples document (`scripts/asset_generator.py`).
- `Text` and `Wrappers` hold the ASCII subset of Python's `str` operations and an `Option` type.

## How the model is shaped

- Loops that build lists in the source are `method`s with loop invariants. Each is proved equal to a specification function, and the properties are lemmas about that function.
- Objects whose fields the source updates in place are classes with `modifies` clauses: `PipelineState`, `SkillCreator`, `ValidationResult`, `SkillValidator` and `Template`.
- Results a step takes from the file system, the network, the clock or a regex the model does not implement are parameters. Examples are the skill directory's `Layout`, a phase runner's outcome, a timestamp text, and the word-boundary `Matchers`.
- Where the code and its description differ, the model follows the code:
  - A workflow replaced by the next header is emitted with an empty step list. Only the last workflow of a page gets its steps, although a workflow is described as emitted only with steps.
  - The gap indicators "TODO" and "WIP" are searched for in lower-cased text and never match.
  - An untagged code block's context is looked up with the language "unknown".
  - A pattern's occurrence count counts appearances of the line, not examples.
  - Pattern example ids are global but index the per-language group.
  - A description with neither workflows nor pitfalls ends in "..".
  - The quick reference's "see examples" note for commands cannot be reached.

## Model

| member | source | states |
|---|---|---|
| OrderedGroups.KeysOf | scripts/doc_analyzer.py:376-379 | the key of every entry, in order |
| OrderedGroups.DistinctSpec | scripts/doc_analyzer.py:376-377 | the dictionary's keys have no duplicates and are exactly the keys seen |
| OrderedGroups.CollectSpec | scripts/doc_analyzer.py:376-379 | grouping keeps keys in first-insertion order, has a group exactly for each key seen, and each group holds that key's values in order |
| OrderedGroups.ValuesForNone | scripts/doc_analyzer.py:376-379 | a key never seen has no values |
| OrderedGroups.CollectKeys | scripts/doc_analyzer.py:376-379 | the ordered keys are duplicate-free and are the dictionary's keys |
| OrderedGroups.ValuesForMember | scripts/doc_analyzer.py:376-379 | a value is in a key's group exactly when it was appended under that key |
| OrderedGroups.ValuesForAppend | scripts/doc_analyzer.py:376-379 | the values under a key, over concatenated entries |
| OrderedGroups.CollectSnoc | scripts/doc_analyzer.py:376-379 | one more entry adds it to its group, opening the group at the end when the key is new |
| OrderedGroups.SizeOverOther | scripts/doc_analyzer.py:376-379 | changing a group outside the keys counted changes no size |
| OrderedGroups.SizeOverGrow | scripts/doc_analyzer.py:376-379 | growing one group by one value grows the total by one |
| OrderedGroups.CollectTotal | scripts/doc_analyzer.py:376-379 | the groups together hold every entry: their sizes add up to the number of entries |
| DocExtractor.PostInitMetadata | scripts/doc_extractor.py:38-40 | after construction the metadata always holds an extraction date, its keys are the caller's plus that one, and no value the caller supplied changes |
| DocExtractor.DocumentationCorpus.constructor | scripts/doc_extractor.py:31-40 | a corpus keeps its source and pages and completes its metadata as `__post_init__` does |
| DocExtractor.TotalContentLengthAppend | scripts/doc_extractor.py:45-47 | the total content length of two page lists put together is the sum of their totals |
| DocExtractor.JoinedContentLength | scripts/doc_analyzer.py:189 | the analyzer's joined content is as long as the page total plus two separator characters between consecutive pages |
| DocExtractor.GetPageByUrl | scripts/doc_extractor.py:49-54 | no result exactly when no page has the url; otherwise the first page that has it |
| DocExtractor.MarkdownTitle | scripts/doc_extractor.py:232-238 | the title is the file stem when no line starts with "# ", else the stripped rest of the first line that does |
| DocExtractor.MapSafe | scripts/doc_extractor.py:325 | every character is kept or replaced by '_', position by position |
| DocExtractor.NonEmpty | scripts/doc_extractor.py:327 | keeps only non-empty pieces, each one of the input's |
| DocExtractor.SpaceWordsLeadingSpaces | scripts/doc_extractor.py:327 | `split()` drops any run of leading spaces |
| DocExtractor.SpaceWordsWord | scripts/doc_extractor.py:327 | `split()` of a non-empty space-free word followed by a space gives that word and then the words of the rest |
| DocExtractor.SpaceWordsSingle | scripts/doc_extractor.py:327 | `split()` of a space-free text is that text as one word, or no word when it is empty |
| DocExtractor.SpaceWordsTwo | scripts/doc_extractor.py:327 | two words with any spaces around them and at least one between them split into exactly those two words |
| DocExtractor.SanitizeTwoWords | scripts/doc_extractor.py:322-329 | for two words of filename characters, spaces before and after vanish and a run of spaces between them becomes one '_', the result cut to 50 characters |
| DocExtractor.SanitizeFilenameChars | scripts/doc_extractor.py:322-329 | a sanitised name is at most 50 characters long and made only of letters, digits, '-' and '_' |
| DocExtractor.SanitizeFilenameKeepsSafe | scripts/doc_extractor.py:322-329 | a name already made of those characters and at most 50 long comes back unchanged |
| DocExtractor.SanitizeFilenameIdempotent | scripts/doc_extractor.py:322-329 | sanitising a sanitised name changes nothing |
| ToolClassification.LowerContents | scripts/doc_analyzer.py:242 | the lower-cased page contents, one per page, in order |
| ToolClassification.Winner | scripts/doc_analyzer.py:285 | the winner has the highest score, and every type listed before it scores strictly less, as `max` over the score dictionary picks the first maximum |
| ToolClassification.CountIndicators | scripts/doc_analyzer.py:256-261 | one indicator loop: the score is the total of the indicators' occurrence counts and the reasons gain one entry per indicator found more than twice |
| ToolClassification.ClassifyToolType | scripts/doc_analyzer.py:235-289 | the classification of the lower-cased contents joined by newlines |
| ToolClassification.ScoreAll | scripts/doc_analyzer.py:247-282 | the four indicator loops give each type its score and the reasons in loop order |
| ToolClassification.DetermineWinner | scripts/doc_analyzer.py:284-289 | the decision taken from the scores and reasons |
| ToolClassification.ScorePositive | scripts/doc_analyzer.py:256-261 | a score is positive exactly when one of its indicators occurs |
| ToolClassification.DecideUnknown | scripts/doc_analyzer.py:284-289 | the type is unknown exactly when all scores are zero, with confidence 0 and the single "No clear indicators found" reason; otherwise the reasons are cut to five |
| ToolClassification.ClassifyUnknown | scripts/doc_analyzer.py:235-289 | the tool is unknown exactly when no indicator of any type occurs in the text |
| ToolClassification.DecideWinner | scripts/doc_analyzer.py:285-289 | a known winner has the top score, beats every type listed before it, and its confidence is its share of the total, between 0 and 1 |
| ToolClassification.ReasonsSound | scripts/doc_analyzer.py:256-261 | every reason names an indicator of the list with its count, and that count is above two |
| ToolClassification.ClassifyReasoning | scripts/doc_analyzer.py:289 | at most five reasons, each about an indicator of one of the four lists |
| WorkflowExtraction.LeadingDigits | scripts/doc_analyzer.py:318 | the length of the run of digits that opens the text, as `\d+` matches it |
| WorkflowExtraction.ClassifyLines | scripts/doc_analyzer.py:303-318 | every line classified once, in order |
| WorkflowExtraction.ExtractWorkflows | scripts/doc_analyzer.py:292-327 | the workflows of all pages, page after page |
| WorkflowExtraction.ScanPage | scripts/doc_analyzer.py:296-298 | the workflows of one page are those of the line scan over its lines split at newlines |
| WorkflowExtraction.ScanPageLines | scripts/doc_analyzer.py:300-325 | the line scan, with every line put to the header and step tests before the loop (the tests have no effects): a header line opens a workflow and flushes the open one when it has steps; step lines after a header collect; the last workflow is kept when it has steps |
| WorkflowExtraction.ScanClassified | scripts/doc_analyzer.py:300-325 | the loop over the classified lines computes what the scan function does, line by line, then keeps the last workflow when it has steps |
| WorkflowExtraction.ScanStep | scripts/doc_analyzer.py:303-320 | one line of the scan: a header emits the open workflow only when it has collected steps and opens a fresh one with no steps; a step line is collected only while a workflow is open; any other line changes nothing |
| WorkflowExtraction.ScanStepsPending | scripts/doc_analyzer.py:300-319 | steps are only ever collected while a workflow is open |
| WorkflowExtraction.OpenedByExtend | scripts/doc_analyzer.py:303-315 | a workflow opened by a header of a prefix is opened by a header of any longer scan |
| WorkflowExtraction.AllOpenedStep | scripts/doc_analyzer.py:303-319 | one scanned line keeps every emitted and open workflow tied to a header line of the page |
| WorkflowExtraction.ScanAllOpened | scripts/doc_analyzer.py:303-319 | after the scan every workflow was opened by a header line of the page, with the page's url |
| WorkflowExtraction.StepsFromStep | scripts/doc_analyzer.py:317-319 | one scanned line keeps the collected steps a run of the page's step lines |
| WorkflowExtraction.ScanStepsFrom | scripts/doc_analyzer.py:317-319 | the collected steps are stripped step lines of the page |
| WorkflowExtraction.ScanWithinHeaders | scripts/doc_analyzer.py:305-315 | no more workflows are emitted than the page has header lines |
| WorkflowExtraction.FinishShape | scripts/doc_analyzer.py:305-325 | at most one workflow per header; every workflow but the last has no steps, since the flush at a header does not store them; each was opened by a header and its steps are step lines |
| WorkflowExtraction.PageWorkflowsShape | scripts/doc_analyzer.py:298-325 | on one page: at most one workflow per header line, all but the last without steps, each with an empty description, the page's url and the name of a header line, and every step numbered or a bullet |
| WorkflowExtraction.OpenStateStep | scripts/doc_analyzer.py:305-319 | one scanned line keeps the open workflow that of the last header line so far, holding exactly the stripped step lines after it |
| WorkflowExtraction.ScanOpenState | scripts/doc_analyzer.py:303-319 | after the scan the open workflow is the last header line's, and its collected steps are exactly the stripped step lines after that header, in order |
| WorkflowExtraction.OpenEarned | scripts/doc_analyzer.py:305-319 | an open workflow holding steps has a step line after its header line and before the next header line |
| WorkflowExtraction.EarnedStep | scripts/doc_analyzer.py:305-307 | one scanned line emits a workflow only when a step line followed its header before the next header |
| WorkflowExtraction.ScanEarned | scripts/doc_analyzer.py:303-319 | every workflow emitted during the scan had a step line between its header line and the next header line |
| WorkflowExtraction.FinishEarned | scripts/doc_analyzer.py:305-325 | every workflow of the scan, the last one included, had a step line after its header line and before the next header line |
| WorkflowExtraction.FinishLast | scripts/doc_analyzer.py:321-325 | the last workflow carries steps exactly when step lines follow the last header line, and then it is that header's workflow with exactly those step texts, in order |
| WorkflowExtraction.StepTextsClassified | scripts/doc_analyzer.py:316-319 | the step texts of the classified lines are the stripped numbered or bulleted lines of the page, in order |
| WorkflowExtraction.WorkflowsEarnedOf | scripts/doc_analyzer.py:303-325 | every workflow is named after a header line that a non-header step line follows before the next header line |
| WorkflowExtraction.PageWorkflowsEarned | scripts/doc_analyzer.py:296-325 | on one page, every workflow is named after a header line that a step line follows before the next header line, so a header without steps gives no workflow |
| WorkflowExtraction.LastWorkflowOf | scripts/doc_analyzer.py:321-325 | with `h` the last header line, the last workflow has steps exactly when step lines follow `h`, and then it is `h`'s workflow with those stripped lines as its steps, in order |
| WorkflowExtraction.PageLastWorkflow | scripts/doc_analyzer.py:296-325 | on one page, the last workflow has steps exactly when step lines follow the last header line, and then it is that header's workflow, named after it, with the page's url and those stripped lines as its steps |
| WorkflowExtraction.EarnedBelowSpec | scripts/doc_analyzer.py:305-307 | `EarnedBelow` lists exactly the header lines below `n` that a non-header step line follows before the next header line, each once, in increasing order |
| WorkflowExtraction.EarnedAtKept | scripts/doc_analyzer.py:316-319 | a line that is not a non-header step line changes which header lines are earned not at all |
| WorkflowExtraction.EarnedAtStepLast | scripts/doc_analyzer.py:316-319 | a non-header step line earns the last header line before it |
| WorkflowExtraction.EarnedAtStepOther | scripts/doc_analyzer.py:316-319 | a non-header step line earns no earlier header line that was not earned already |
| WorkflowExtraction.EarnedAtStays | scripts/doc_analyzer.py:303-319 | a header line once earned stays earned whatever line comes next |
| WorkflowExtraction.EarnedBelowKept | scripts/doc_analyzer.py:303-319 | a line that is not a step line under a header leaves the list of earned header lines unchanged |
| WorkflowExtraction.EarnedBelowStep | scripts/doc_analyzer.py:316-319 | after a step line under header `h` the earned header lines are those before `h`, then `h` |
| WorkflowExtraction.EarnedBelowLast | scripts/doc_analyzer.py:305-319 | the earned header lines are those before the last header line, then that line when it is earned |
| WorkflowExtraction.EarnedBelowBefore | scripts/doc_analyzer.py:316-319 | a step line changes nothing about which header lines before the last one are earned |
| WorkflowExtraction.OpenEarnedIff | scripts/doc_analyzer.py:305-319 | the last header line is earned exactly when the open workflow has collected steps |
| WorkflowExtraction.EmitsEarnedKeep | scripts/doc_analyzer.py:303-319 | a line that earns nothing new keeps the workflows one per earned header line, in order |
| WorkflowExtraction.EmitsEarnedGrow | scripts/doc_analyzer.py:316-319 | the first step under the last header line adds that header's workflow after the others |
| WorkflowExtraction.FinishHeaderSame | scripts/doc_analyzer.py:305-315 | a header line changes the finished workflows only in their steps |
| WorkflowExtraction.FinishStepSame | scripts/doc_analyzer.py:316-319 | a further step line changes the finished workflows only in their steps |
| WorkflowExtraction.EmitsEarnedStep | scripts/doc_analyzer.py:303-325 | one scanned line keeps the finished workflows exactly one per earned header line, in page order, each that header's workflow apart from its steps |
| WorkflowExtraction.ScanEmitsEarned | scripts/doc_analyzer.py:303-325 | after the scan there is exactly one workflow per earned header line, in page order, each that header's workflow apart from its steps |
| WorkflowExtraction.EarnedAtFollows | scripts/doc_analyzer.py:303-319 | an earned classified header line is a page header line followed by a step line before the next header line |
| WorkflowExtraction.FollowsEarnedAt | scripts/doc_analyzer.py:303-319 | a page header line followed by a step line before the next header line is earned among the classified lines |
| WorkflowExtraction.WorkflowsPerHeaderOf | scripts/doc_analyzer.py:303-325 | the scan's workflows are one per header line that a step line follows before the next header line, no more and no fewer, in increasing line order, each named after that header with an empty description, frequency "common", no examples and the url |
| WorkflowExtraction.PageWorkflowsPerHeader | scripts/doc_analyzer.py:296-325 | on one page, workflow `k` is opened by the `k`-th header line (in page order) that a step line follows before the next header line, and there are exactly as many workflows as such header lines |
| WorkflowExtraction.StepText | scripts/doc_analyzer.py:318 | a collected step starts with digits and a '.' or with '-' and a space |
| WorkflowExtraction.StepTextsAreSteps | scripts/doc_analyzer.py:318 | every step line's stripped text is numbered or a bullet |
| WorkflowExtraction.HeaderText | scripts/doc_analyzer.py:305-313 | an opened workflow is named after a header line with '#' and spaces stripped |
| WorkflowExtraction.WorkflowsFromPages | scripts/doc_analyzer.py:296-325 | every workflow of the corpus comes from one of its pages |
| ExampleExtraction.CloseFrom | scripts/doc_analyzer.py:335-339 | the first closing fence at or after a position, or -1 |
| ExampleExtraction.CloseFromFirst | scripts/doc_analyzer.py:335-339 | the position found holds a closing fence and no earlier one does, as the lazy `(.*?)` requires |
| ExampleExtraction.MatchAt | scripts/doc_analyzer.py:335-339 | a match of the fence pattern at a position starts there and ends inside the text |
| ExampleExtraction.MatchParts | scripts/doc_analyzer.py:335-339 | a match is three backticks, a word-character tag, a newline, the code up to the first closing fence, and that fence |
| ExampleExtraction.MatchSpan | scripts/doc_analyzer.py:335-339 | the matched text occurs where the match starts and the match ends after it |
| ExampleExtraction.MatchLanguage | scripts/doc_analyzer.py:335 | the captured tag is made of word characters only |
| ExampleExtraction.FindFirst | scripts/doc_analyzer.py:345 | `str.find` returns the first occurrence |
| ExampleExtraction.OccursInSlice | scripts/doc_analyzer.py:345 | an occurrence inside a slice is an occurrence in the text, shifted |
| ExampleExtraction.MatchCloseFirst | scripts/doc_analyzer.py:335-339 | the captured code holds no closing fence before its end |
| ExampleExtraction.BlockIsMatch | scripts/doc_analyzer.py:335-339 | every block `findall` returns is a match at its own start |
| ExampleExtraction.BlocksOrdered | scripts/doc_analyzer.py:335-339 | the matches do not overlap and come in text order |
| ExampleExtraction.ExampleHeading | scripts/doc_analyzer.py:351-354 | the loop over the last three context lines stops at the first that starts with '#' and names the title after it |
| ExampleExtraction.LocateAll | scripts/doc_analyzer.py:341-354 | one located block per block, in order |
| ExampleExtraction.LocateAllAt | scripts/doc_analyzer.py:341-354 | block k is located on its own |
| ExampleExtraction.Tag | scripts/doc_analyzer.py:333-365 | every located block of a page is tagged with the page's url |
| ExampleExtraction.TagSnoc | scripts/doc_analyzer.py:341-365 | tagging one more block appends one entry |
| ExampleExtraction.ExamplesOf | scripts/doc_analyzer.py:341-365 | one example per located block |
| ExampleExtraction.ExamplesOfSnoc | scripts/doc_analyzer.py:350-365 | one more block appends one example, numbered by the count of examples before it |
| ExampleExtraction.ExtractExamples | scripts/doc_analyzer.py:329-367 | the examples of all pages, page after page, block after block |
| ExampleExtraction.ScanPageBlocks | scripts/doc_analyzer.py:341-365 | one page's blocks extend the examples already found |
| ExampleExtraction.MakeExample | scripts/doc_analyzer.py:342-363 | the example built from one block: "unknown" for an untagged block, the context before it, the title, the stripped code |
| ExampleExtraction.HeadingRule | scripts/doc_analyzer.py:351-354 | no heading exactly when no line starts with '#'; otherwise the first such line, with '#' and spaces stripped |
| ExampleExtraction.ExamplesInOrder | scripts/doc_analyzer.py:329-367 | as many examples as fenced blocks in the corpus, example k made from block k with number k |
| ExampleExtraction.FindsCount | scripts/doc_analyzer.py:333-341 | the blocks located are the blocks matched, page by page |
| ExampleExtraction.ExampleFromShape | scripts/doc_analyzer.py:342-363 | an example's language is "unknown" or its tag, its code is the block's code stripped, its context at most 100 characters, its url the page's and its type "basic" |
| ExampleExtraction.UntaggedContext | scripts/doc_analyzer.py:342-347 | for an untagged block the lookup of "```unknown" fails, so the context is the whole page but its last character, stripped |
| PatternIdentification.LanguageEntries | scripts/doc_analyzer.py:375-379 | every example with its position, keyed by its language, in order |
| PatternIdentification.Tagged | scripts/doc_analyzer.py:387-392 | every kept line of an example keyed with that example's index |
| PatternIdentification.IdentifyPatterns | scripts/doc_analyzer.py:369-410 | the patterns of the examples: grouped by language in first-seen order, lines tallied per language with two or more examples, kept when tallied twice, sorted by occurrences and cut to ten |
| PatternIdentification.CandidatesStep | scripts/doc_analyzer.py:382-407 | one more language appends its group's patterns to the candidates |
| PatternIdentification.GroupByLanguage | scripts/doc_analyzer.py:374-379 | the loop builds the language groups in first-seen order, each holding its examples with their indices in order |
| PatternIdentification.CountLines | scripts/doc_analyzer.py:386-392 | the loop tallies, for each stripped line longer than ten characters, the index of the example it is in, once per appearance |
| PatternIdentification.CountExampleLines | scripts/doc_analyzer.py:387-388 | one example's code, split at newlines, extends the tally by its kept lines |
| PatternIdentification.TallyLines | scripts/doc_analyzer.py:388-392 | the line loop extends the tally by each kept line, tagged with the example's index, in order |
| PatternIdentification.KeptStep | scripts/doc_analyzer.py:388-390 | one more line is kept, stripped, exactly when it is longer than ten characters |
| PatternIdentification.TaggedAppend | scripts/doc_analyzer.py:387-392 | keying distributes over concatenated lines |
| PatternIdentification.TallyStep | scripts/doc_analyzer.py:388-392 | one more line extends the tally by its index exactly when it is kept |
| PatternIdentification.PatternsOfCounts | scripts/doc_analyzer.py:395-406 | the loop makes one pattern per tallied line with at least two indices, in first-seen order |
| PatternIdentification.WithOccurrencesAppend | scripts/doc_analyzer.py:409 | the patterns with a given count, over concatenation |
| PatternIdentification.WithOccurrencesNone | scripts/doc_analyzer.py:409 | no pattern has a count above every count present |
| PatternIdentification.InsertMembers | scripts/doc_analyzer.py:409 | inserting one pattern adds exactly it |
| PatternIdentification.InsertAtMost | scripts/doc_analyzer.py:409 | inserting keeps every count within a bound |
| PatternIdentification.InsertSorted | scripts/doc_analyzer.py:409 | inserting into a list sorted by descending count keeps it sorted |
| PatternIdentification.InsertStable | scripts/doc_analyzer.py:409 | an inserted pattern goes after the patterns with its count, as a stable sort puts it |
| PatternIdentification.SortSorted | scripts/doc_analyzer.py:409 | the sort orders by descending occurrences |
| PatternIdentification.SortMembers | scripts/doc_analyzer.py:409 | the sort is a permutation |
| PatternIdentification.SortStable | scripts/doc_analyzer.py:409 | patterns with equal counts keep their order, as Python's sort is stable |
| PatternIdentification.PatternsOrder | scripts/doc_analyzer.py:408-410 | at most ten patterns, sorted by descending occurrences, drawn from the candidates, and all of them when there are at most ten |
| PatternIdentification.KeptLinesLong | scripts/doc_analyzer.py:390 | every kept line is longer than ten characters |
| PatternIdentification.CandidateSource | scripts/doc_analyzer.py:382-406 | every candidate comes from the group of one language |
| PatternIdentification.LinePatternSource | scripts/doc_analyzer.py:395-406 | every pattern of a group comes from a line tallied at least twice |
| PatternIdentification.LineEntrySource | scripts/doc_analyzer.py:387-392 | every tallied index is that of an example of the group holding the line |
| PatternIdentification.GroupMember | scripts/doc_analyzer.py:374-379 | every grouped entry is an example at its own index, with the group's language |
| PatternIdentification.CandidateSourceOf | scripts/doc_analyzer.py:382-406 | every candidate comes from a language with at least two examples and a line tallied at least twice in it |
| PatternIdentification.TalliedIndex | scripts/doc_analyzer.py:387-392 | a tallied index names an example of that language whose code holds the line |
| PatternIdentification.CandidateFacts | scripts/doc_analyzer.py:383-406 | a pattern's occurrences are its index count, at least two; its structure is a line over ten characters found in each example it names; its name is the upper-cased language with " common pattern"; it has no variable parts |
| PatternIdentification.TaggedValues | scripts/doc_analyzer.py:387-392 | an example contributes its index once per appearance of the line |
| PatternIdentification.OccurrencesAreAppearances | scripts/doc_analyzer.py:386-406 | a line's occurrences count its appearances across the group, not the examples holding it |
| PatternIdentification.LineEntriesSnoc | scripts/doc_analyzer.py:386-392 | one more example appends its keyed lines |
| PatternIdentification.RepeatedLineCountsTwice | scripts/doc_analyzer.py:386-406 | a line written twice in one example and absent from the other is tallied as two occurrences of that one example |
| PatternIdentification.PairEntries | scripts/doc_analyzer.py:386-392 | the keyed lines of two examples, in order |
| PatternIdentification.TwiceCollected | scripts/doc_analyzer.py:388-392 | a line seen twice first collects its index twice |
| PatternIdentification.TwiceValues | scripts/doc_analyzer.py:388-392 | the values keyed by a line written twice |
| KeywordRules.Level | scripts/doc_analyzer.py:428-432 | the level is one of "high", "low" and "medium" |
| KeywordRules.ContainedWordRanksHigh | scripts/doc_analyzer.py:429-430 | a text holding a word that contains a high-severity word ranks high, whatever else it holds |
| PitfallExtraction.LinePitfall | scripts/doc_analyzer.py:419-442 | a line gives a pitfall exactly when its lower-cased text holds a pitfall keyword; the pitfall has the page's url, the stripped context of the line and the next two, and a description that is that context cut to 200 characters |
| PitfallExtraction.LinePitfalls | scripts/doc_analyzer.py:418-443 | the outcome of every line, in order |
| PitfallExtraction.ExtractPitfalls | scripts/doc_analyzer.py:412-445 | the pitfalls of all pages, page after page |
| PitfallExtraction.ScanPagePitfalls | scripts/doc_analyzer.py:416-419 | the pitfalls of one page are those of its lines split at newlines |
| PitfallExtraction.ScanLines | scripts/doc_analyzer.py:419-443 | the line loop keeps, in line order, the pitfall of every line that has one |
| PitfallExtraction.ScanLine | scripts/doc_analyzer.py:420-443 | the keyword loop stops at the first keyword found, so a line gives at most one pitfall |
| PitfallExtraction.PagePitfallsPerLine | scripts/doc_analyzer.py:418-443 | at most one pitfall per line, and a pitfall is on the page exactly when some line gives it |
| PitfallExtraction.ErrorLinesAreHigh | scripts/doc_analyzer.py:429-430 | a line with "error:" or "breaking change" is a pitfall of high severity |
| PitfallExtraction.NoteLinesAreLow | scripts/doc_analyzer.py:431-432 | a line with "note:" and no high-severity word is a pitfall of low severity |
| PitfallExtraction.PitfallsFromPages | scripts/doc_analyzer.py:416-443 | every pitfall comes from a page and carries that page's url |
| GapAnalysis.Window | scripts/doc_analyzer.py:456-458 | the context window runs from 50 characters before the indicator to 150 after it, within the page, so it is at most 200 long |
| GapAnalysis.IndicatorGap | scripts/doc_analyzer.py:454-476 | an indicator gives a gap exactly when it occurs in the lower-cased page; the gap is "to_research", names the indicator, and its description and impact come from the window around the first occurrence |
| GapAnalysis.IndicatorGaps | scripts/doc_analyzer.py:453-476 | the outcome of every indicator, in list order |
| GapAnalysis.AnalyzeGaps | scripts/doc_analyzer.py:447-478 | the gaps of all pages, page after page, cut to twenty |
| GapAnalysis.ScanPageGaps | scripts/doc_analyzer.py:451-476 | the gaps of one page, indicator after indicator |
| GapAnalysis.ScanIndicator | scripts/doc_analyzer.py:454-476 | one indicator's check on the lower-cased page |
| GapAnalysis.UpperCaseIndicatorsNeverMatch | scripts/doc_analyzer.py:452-455 | "TODO" and "WIP", two of the gap indicators, are looked up in lower-cased text, so they never give a gap |
| GapAnalysis.NotesInjective | scripts/doc_analyzer.py:473 | different indicators give different notes |
| GapAnalysis.PageGapsPerIndicator | scripts/doc_analyzer.py:453-476 | at most one gap per indicator, and a gap is on the page exactly when an indicator gives it |
| GapAnalysis.PageGapFacts | scripts/doc_analyzer.py:453-476 | every gap of a page is "to_research" and none names "TODO" or "WIP" |
| GapAnalysis.AllGapsFacts | scripts/doc_analyzer.py:451-476 | the same for every gap of the corpus |
| GapAnalysis.GapsFacts | scripts/doc_analyzer.py:447-478 | at most twenty gaps, each "to_research", none from "TODO" or "WIP" |
| DocAnalysis.Analyze | scripts/doc_analyzer.py:175-233 | the analysis runs the classification, the workflow, example, pattern, pitfall and gap extraction, and the metadata, each on the corpus |
| DocAnalysis.MetadataFacts | scripts/doc_analyzer.py:224-229 | the metadata holds the source, the page count and the length of the contents joined with blank lines |
| DocAnalysis.AnalysisBounds | scripts/doc_analyzer.py:175-233 | the confidence lies between 0 and 1, at most five reasons, at most ten patterns sorted by occurrences, at most twenty gaps, and the page count and joined length |
| Placeholders.UrlRunEnd | scripts/template_synthesizer.py:58 | the end of the run of characters a URL may hold: none inside it is a space or one of `<>"'`, and the next one is |
| Placeholders.UrlAt | scripts/template_synthesizer.py:58 | a URL starts here exactly when "http://" or "https://" does and is followed by a URL character; the match is longest |
| Placeholders.UrlMatchShape | scripts/template_synthesizer.py:58 | every match is a scheme followed by URL characters |
| Placeholders.UrlsFromShape | scripts/template_synthesizer.py:457 | every URL `findall` returns has that shape |
| Placeholders.NoUrlUnchanged | scripts/template_synthesizer.py:275-279 | a text with no URL has none found and is left unchanged by the substitution |
| Placeholders.UrlsEmpty | scripts/template_synthesizer.py:457 | no URL is found exactly when no position starts one |
| Placeholders.FirstUrlLeftmost | scripts/template_synthesizer.py:457-459 | the first URL found is the leftmost match, the one taken as a default |
| Placeholders.UrlFreeUnchanged | scripts/template_synthesizer.py:275-279 | a text without "://" has no URL and is not changed |
| Placeholders.TokenAt | scripts/template_synthesizer.py:430 | a placeholder token at a position is "${", word characters and "}" |
| Placeholders.TokenAtShape | scripts/template_synthesizer.py:430 | a token found is a placeholder made from a name of word characters |
| Placeholders.PlaceholderIsToken | scripts/template_synthesizer.py:430 | every placeholder written in the text is found as a token with its name |
| Placeholders.WordRunStops | scripts/template_synthesizer.py:430 | the word-character run of a name ends at the first other character |
| Placeholders.TokensFromSound | scripts/template_synthesizer.py:430 | every name found is a name whose placeholder is in the text |
| Placeholders.TokensFromComplete | scripts/template_synthesizer.py:430 | every placeholder in the text has its name found |
| Placeholders.TokensSpec | scripts/template_synthesizer.py:430 | a name is found exactly when it is a word-character name whose placeholder occurs in the text |
| Placeholders.DropNonWord | scripts/template_synthesizer.py:332 | the text from its first word character on |
| Placeholders.CollapseNonWord | scripts/template_synthesizer.py:332 | each run of non-word characters becomes one '_', so only word characters remain, and a non-empty part gives a non-empty name |
| Placeholders.PlaceholderName | scripts/template_synthesizer.py:332 | the upper-cased collapsed part, as long as the collapsed part |
| Placeholders.PlaceholderNameIsName | scripts/template_synthesizer.py:332 | the name made from a non-empty part is a valid placeholder name |
| Placeholders.AddPlaceholdersAbsent | scripts/template_synthesizer.py:322-339 | parts that do not occur leave the content unchanged |
| Placeholders.AddOnePlaceholder | scripts/template_synthesizer.py:330-337 | replacing a part that occurs leaves its placeholder name among the tokens of the result |
| TemplateComments.CommentSyntax | scripts/template_synthesizer.py:383-403 | "//" exactly for the C-family languages of the table, matched after lower-casing; "#" for every other language, listed or not |
| TemplateComments.HeaderShape | scripts/template_synthesizer.py:405-422 | the header is the title line, then the context and the description lines when present, then the bare marker; every line starts with the marker |
| TemplateComments.AddInlineComments | scripts/template_synthesizer.py:341-381 | the header, then every line of the content, each line holding a placeholder token preceded by a comment naming its tokens |
| TemplateComments.CommentedLinesLength | scripts/template_synthesizer.py:365-379 | the commented lines are the content's lines plus one comment per line holding a token |
| TemplateComments.CommentedLinePlacement | scripts/template_synthesizer.py:365-379 | every content line is kept in order, and a line holding a token comes right after its comment |
| TemplateComments.CommentedLinesPlain | scripts/template_synthesizer.py:367 | lines without "${" are kept unchanged and gain no comment |
| TemplateComments.InlineCommentsPlain | scripts/template_synthesizer.py:341-381 | content without "${" comes back as the header joined by newlines, then the content unchanged |
| TemplateSynthesis.LanguageEntries | scripts/template_synthesizer.py:127-131 | every example keyed by its language, "unknown" when it has none |
| TemplateSynthesis.GroupByLanguage | scripts/template_synthesizer.py:121-132 | the loop groups the examples by language, in first-seen order |
| TemplateSynthesis.GroupsKeys | scripts/template_synthesizer.py:121-132 | each language appears once, and exactly the languages of the examples appear |
| TemplateSynthesis.GroupsMembers | scripts/template_synthesizer.py:121-132 | a language's group holds exactly the examples of that language, in order |
| TemplateSynthesis.GroupsSizes | scripts/template_synthesizer.py:121-132 | the groups together hold every example |
| TemplateSynthesis.Simplest | scripts/template_synthesizer.py:144-150 | the simplest example has the least key (basic first, then shortest code), and is the first with that key, as `min` picks it |
| TemplateSynthesis.SimplestIndex | scripts/template_synthesizer.py:169 | `examples.index(simplest)` is the simplest example's own position |
| TemplateSynthesis.BasicDraftFacts | scripts/template_synthesizer.py:134-178 | no basic template exactly when the group is empty or its simplest example has no code; otherwise "<type>_basic", basic, in the group's language, from the simplest example, its code with URLs replaced and comments added |
| TemplateSynthesis.CreateBasicTemplate | scripts/template_synthesizer.py:134-178 | no template when there is no draft; otherwise a new template holding the draft, with no placeholders and no defaults yet |
| TemplateSynthesis.PatternExamplesCount | scripts/template_synthesizer.py:190-194 | at most one example per id, and none exactly when every id is out of range |
| TemplateSynthesis.PatternExamplesMembers | scripts/template_synthesizer.py:190-194 | an example is picked exactly when an in-range id names it |
| TemplateSynthesis.FirstPositions | scripts/template_synthesizer.py:252 | `examples.index(e)` of each picked example is a position holding it, no later than its own |
| TemplateSynthesis.SynthesizeFromPattern | scripts/template_synthesizer.py:214-258 | no template for a pattern without a common structure; otherwise a new template holding the pattern's draft |
| TemplateSynthesis.MadeAppend | scripts/template_synthesizer.py:115 | templates made from two lists of drafts, put together, are made from the drafts put together |
| TemplateSynthesis.CreateAdvancedTemplates | scripts/template_synthesizer.py:180-212 | one new template per pattern that picks an example and has a common structure, in pattern order |
| TemplateSynthesis.PatternDraftsRule | scripts/template_synthesizer.py:188-210 | a pattern gives at most one template, exactly when it has a common structure and an in-range id; it is "<type>_<pattern name>", advanced, in the group's language, with one source index per picked example |
| TemplateSynthesis.LanguageTemplates | scripts/template_synthesizer.py:100-115 | one language gives its basic template, then its advanced ones when there are patterns |
| TemplateSynthesis.DraftsForStep | scripts/template_synthesizer.py:97-115 | one more language appends its templates |
| TemplateSynthesis.SynthesizeTemplates | scripts/template_synthesizer.py:75-119 | the templates of every language, in first-seen order of the languages |
| TemplateSynthesis.BasicOnly | scripts/template_synthesizer.py:110-115 | without patterns every template is basic, at most one per language, in a language of the examples |
| TemplateSynthesis.Template.constructor | scripts/template_synthesizer.py:27-38 | a new template holds the draft's name, type, language, content and source examples, with no placeholders and no defaults yet |
| TemplateChecks.CreateVariablePlaceholders | scripts/template_synthesizer.py:424-433 | the placeholders become the names written as `${NAME}` in the content, each once; the defaults are untouched |
| TemplateChecks.AddDefaultValues | scripts/template_synthesizer.py:435-469 | the defaults become those proposed by the examples in order, the first proposal for a placeholder winning; the placeholders are untouched |
| TemplateChecks.ExampleDefaultsSpec | scripts/template_synthesizer.py:448-463 | one example keeps every default already set and adds one for each placeholder it proposes a value for, a URL for a name with "URL", a path for one with "FILE" or "PATH" |
| TemplateChecks.DefaultsSpec | scripts/template_synthesizer.py:448-463 | a placeholder has a default exactly when some example proposes one, and it is the proposal of the first example that does |
| TemplateChecks.DefaultsKeys | scripts/template_synthesizer.py:448-463 | only placeholders of the template get defaults |
| TemplateChecks.CheckLanguage | scripts/template_synthesizer.py:495-515 | the language checks: odd quote counts and mixed indentation for Python, odd double quotes for shell |
| TemplateChecks.ValidateTemplateSyntax | scripts/template_synthesizer.py:471-541 | the result of the placeholder count check, the language checks and the two suggestions |
| TemplateChecks.SyntaxCheckRules | scripts/template_synthesizer.py:483-528 | valid exactly when "${" and "}" are equally frequent, which is exactly when there is no error; at most one error; warnings only for Python or shell, at most three; the placeholder suggestion exactly when there are none; the comment suggestion exactly when the comment marker is missing |
| TemplateChecks.CommentedContentHasMarker | scripts/template_synthesizer.py:523-525 | content that went through the inline comments always holds the comment marker, so it never draws the comment suggestion |
| GapResearch.PriorityOf | scripts/gap_researcher.py:98-105 | the priority is the impact when it is "low", "medium" or "high", and "medium" otherwise |
| GapResearch.SecondPieceFacts | scripts/gap_researcher.py:141 | the second piece of a split is a part of the text that holds no separator |
| GapResearch.FeatureFacts | scripts/gap_researcher.py:134-137 | the feature is part of the description, and the text between its first two quotes when it has a quote |
| GapResearch.TopicFacts | scripts/gap_researcher.py:139-142 | the topic is part of the description, and the stripped text between its first two "for" when it has one |
| GapResearch.QuestionNamesSubject | scripts/gap_researcher.py:122-145 | the question names a subject taken from the description; a description with neither phrase opens the generic question |
| GapResearch.ResearchQuery.constructor | scripts/gap_researcher.py:18-26 | a new query with its gap id, question, context and priority, pending |
| GapResearch.ResearchFinding.constructor | scripts/gap_researcher.py:29-37 | a new finding with the fields given |
| GapResearch.GenerateQueries | scripts/gap_researcher.py:79-120 | one new query per gap, in order: gap id its position, question formulated from its description, priority from its impact |
| GapResearch.Rank | scripts/gap_researcher.py:224 | the priority order: high 0, medium 1, low 2, anything else 1 |
| GapResearch.WithRankMembers | scripts/gap_researcher.py:225-228 | the queries of one rank are exactly the queries with that priority rank |
| GapResearch.WithRankAppend | scripts/gap_researcher.py:225-228 | selecting a rank distributes over concatenation |
| GapResearch.WithRankOf | scripts/gap_researcher.py:225-228 | selecting a rank twice is selecting it once; two different ranks select nothing |
| GapResearch.RankPartition | scripts/gap_researcher.py:225-228 | the three ranks together hold every query |
| GapResearch.ByPriorityPermutation | scripts/gap_researcher.py:225-228 | the sort is a permutation |
| GapResearch.ByPrioritySorted | scripts/gap_researcher.py:225-228 | high priority first, then medium, then low |
| GapResearch.ByPriorityStable | scripts/gap_researcher.py:225-228 | queries of equal priority keep their order, as Python's sort is stable |
| GapResearch.SelectedPrefix | scripts/gap_researcher.py:231-233 | the limit is a prefix: all queries for no limit or 0, the first n for n > 0, all but the last n for n < 0 |
| GapResearch.SelectedFromQueries | scripts/gap_researcher.py:224-233 | every selected query is one of the queries |
| GapResearch.ResearchFallback | scripts/gap_researcher.py:191-208 | a new finding for the query's gap id and question, with the manual-research answer, the review source, low confidence and task-specific relevance |
| GapResearch.CountStatusTotal | scripts/gap_researcher.py:252-253 | completed and failed counts add up to at most the query count, exactly when every status is one of them |
| GapResearch.ResearchEach | scripts/gap_researcher.py:237-247 | one new finding per selected query, each the fallback finding, and every selected query completed |
| GapResearch.ResearchAll | scripts/gap_researcher.py:210-265 | the log of the selected queries sorted by priority, one finding each, all completed, the others untouched, and the metadata counts |
| GapResearch.ClassifyFindings | scripts/gap_researcher.py:267-320 | every finding's relevance is set from its answer and the log itself is returned |
| GapResearch.IndicatorScoreSpec | scripts/gap_researcher.py:307-308 | a score counts indicators, at most all of them, and is positive exactly when one occurs |
| GapResearch.RelevanceRules | scripts/gap_researcher.py:307-313 | no general indicator gives "task_specific"; some general one and no specific one give "general" |
| GapResearch.ManualAnswerIsSpecific | scripts/gap_researcher.py:305-313 | the fallback answer holds a task-specific indicator, so it could be rated general only with two general indicators |
| GapResearch.FindingForQuery | scripts/gap_researcher.py:51-56 | none exactly when no finding has the id; otherwise the first finding that has it |
| GapResearch.WithRelevanceMembers | scripts/gap_researcher.py:58-64 | the general or task-specific findings are exactly those with that relevance |
| GapResearch.ClassifiedSplit | scripts/gap_researcher.py:311-318 | after classification every finding is general or task-specific: the two lists add up to all findings |
| Pipeline.ResolveOutputDir | scripts/create_skill.py:760-762 | the output directory is the one given or the skill name; a given one always wins; it is empty only when both are |
| Pipeline.MarkedFacts | scripts/create_skill.py:116-120 | marking a phase keeps the list free of repeats, adds exactly that phase, keeps the old phases as a prefix, and is idempotent |
| Pipeline.PipelineState.constructor | scripts/create_skill.py:106-114 | a fresh state: nothing complete, no current phase, no outputs, no errors, started at the clock reading given |
| Pipeline.PipelineState.MarkPhaseComplete | scripts/create_skill.py:116-122 | the phase number is appended unless already there, its output path is recorded when given and non-empty, nothing else changes |
| Pipeline.PipelineState.RecordError | scripts/create_skill.py:128-135 | one error entry with the phase name, number, message and clock reading is appended, nothing else changes |
| Pipeline.ShouldRunRule | scripts/create_skill.py:223-241 | a phase runs exactly when it is not complete, not before the resume point, not skipped, and listed when a list of phases is given |
| Pipeline.RunsKeeps | scripts/create_skill.py:564-585 | the phase loop never forgets a completed phase, keeps them distinct, adds no error on success and exactly one on failure |
| Pipeline.RunsFailure | scripts/create_skill.py:564-580 | a failed run stops at a chosen phase whose runner failed, and the last error entry is that phase's |
| Pipeline.RunsCompletes | scripts/create_skill.py:564-585 | after a successful run every chosen phase whose runner finished is complete |
| Pipeline.DryRunChangesNothing | scripts/create_skill.py:564-585 | in a dry run every phase returns early, so the run succeeds and the state is unchanged |
| Pipeline.SkillCreator.constructor | scripts/create_skill.py:141-143 | a creator holds the configuration and no state yet |
| Pipeline.SkillCreator.RunPhase | scripts/create_skill.py:243-273 | a phase runner: success unless it failed; a finished phase is marked complete with its output, a dry run changes nothing, a failure records one error |
| Pipeline.SkillCreator.Run | scripts/create_skill.py:534-587 | the state is the loaded one on resume and a fresh one otherwise; its phases, outputs and errors are those of the phase loop; no current phase at the end, and the completion time is set exactly on success |
| Pipeline.SkillCreator.RunPhases | scripts/create_skill.py:554-585 | the phase loop ends with the phases, outputs and errors that `Runs` gives for the six phases in order from the state it started on; the current phase is cleared on both exits, and the completion time is set on success and left alone on failure |
| SkillFile.RunEnd | scripts/validate_skill.py:181 | the `\s*` run: the first index from i that holds no whitespace, with only whitespace before it |
| SkillFile.LastNewline | scripts/validate_skill.py:181 | the last newline before j and at or after i, or none when there is none |
| SkillFile.CloseAt | scripts/validate_skill.py:181 | a closing `\n---\s*\n` at e: the text there is "\n---" and the body starts after it |
| SkillFile.FirstClose | scripts/validate_skill.py:181 | the lazy `(.*?)`: the first position from e where a closing matches, or none when no position does |
| SkillFile.TryOpen | scripts/validate_skill.py:181 | a match found by backtracking the opening `\s*` has the frontmatter start after the dashes and the closing after it |
| SkillFile.FrontmatterMatch | scripts/validate_skill.py:181 | the regex only matches a text that starts with "---" |
| SkillFile.LineFields | scripts/validate_skill.py:190-193 | one optional `key: value` field per frontmatter line, in order |
| SkillFile.AssignLastWins | scripts/validate_skill.py:190-193 | a key is in the dictionary exactly when some line sets it, and its value is that of the last such line |
| SkillFile.FieldsLastWins | scripts/validate_skill.py:190-193 | the same for the lines of the frontmatter: a later line with the same key overwrites an earlier one |
| SkillFile.ParseFrontmatter | scripts/validate_skill.py:189-193 | the loop over the lines builds exactly the dictionary of their fields |
| SkillFile.ReadSkillMd | scripts/validate_skill.py:176-195 | no frontmatter and the whole text as body when the regex does not match; otherwise the parsed fields and the body group |
| SkillFile.FirstCloseAt | scripts/validate_skill.py:181 | when no closing matches before c and one matches at c, the lazy group stops at c |
| SkillFile.NoEarlyClose | scripts/validate_skill.py:181 | no closing matches inside a frontmatter that holds no "\n---" |
| SkillFile.ReadBack | scripts/validate_skill.py:181 | the regex reads back the frontmatter and body a SKILL.md was written from, when the frontmatter holds no "\n---" and neither part starts with whitespace |
| SkillFile.NoFrontmatterWithoutDashes | scripts/validate_skill.py:181-184 | a text that does not start with "---" has no frontmatter and is all body |
| SkillFile.ReadSkillMdBack | scripts/validate_skill.py:176-195 | reading a written SKILL.md gives back the fields of its frontmatter and its body |
| ValidateSkill.RecordKeeps | scripts/validate_skill.py:36-50 | recording notes keeps the earlier messages, puts each note in exactly one list, and leaves the error list as it was exactly when no note is an error |
| ValidateSkill.RecordSnoc | scripts/validate_skill.py:36-46 | recording one more note is adding it to the recorded report |
| ValidateSkill.ValidationResult.constructor | scripts/validate_skill.py:31-34 | a new result has no errors, warnings or passes |
| ValidateSkill.ValidationResult.AddError | scripts/validate_skill.py:36-38 | the message is appended to the errors behind the cross mark; the other lists are unchanged |
| ValidateSkill.ValidationResult.AddWarning | scripts/validate_skill.py:40-42 | the message is appended to the warnings behind the warning sign; the other lists are unchanged |
| ValidateSkill.ValidationResult.AddPass | scripts/validate_skill.py:44-46 | the message is appended to the passes behind the check mark; the other lists are unchanged |
| ValidateSkill.HasErrorsIffErrorLogged | scripts/validate_skill.py:48-50 | a result has errors exactly when an error was added to it |
| ValidateSkill.NamingNotes | scripts/validate_skill.py:348-369 | naming never adds an error; with a name it adds one note, a pass exactly when some hyphen-separated word of the name ends in "ing" |
| ValidateSkill.NameFormatNote | scripts/validate_skill.py:235-241 | one note, never an error; a warning naming the name exactly when it is not lower-case letters, digits and hyphens |
| ValidateSkill.DescriptionLengthNotes | scripts/validate_skill.py:243-256 | one note: an error exactly when the description is missing or over 1024 characters; otherwise a warning exactly when it is under 50 and a pass exactly when it is 50 to 1024 |
| ValidateSkill.BodyLengthNote | scripts/validate_skill.py:397-402 | one note, never an error; a warning exactly when the body has more than 500 lines |
| ValidateSkill.LargeBodyNote | scripts/validate_skill.py:404-410 | the progressive-disclosure warning exactly when the body has more than 500 lines and no references directory or an empty one; nothing otherwise |
| ValidateSkill.DisclosureNotes | scripts/validate_skill.py:389-410 | a warning exactly when the body has more than 500 lines; two notes exactly when it is that long and has no references |
| ValidateSkill.Capped | scripts/validate_skill.py:450-456 | the pass alone exactly when there are no issues; otherwise only warnings: the first three issues after the prefix, in order, then one "... and N more issues" warning exactly when there are more than three |
| ValidateSkill.WritingNotes | scripts/validate_skill.py:371-387 | writing style never adds an error; it adds one note, a pass exactly when no second-person instruction was counted |
| ValidateSkill.ExampleNotes | scripts/validate_skill.py:412-426 | the examples check never adds an error; it adds one note, a pass exactly when the body has an example heading or a code fence |
| ValidateSkill.IssueWarnings | scripts/validate_skill.py:450-456 | one warning per issue, behind the prefix, in order |
| ValidateSkill.FreedomNotes | scripts/validate_skill.py:458-489 | the degrees-of-freedom check never adds an error and adds one or two notes |
| ValidateSkill.EvaluationNotes | scripts/validate_skill.py:537-554 | the evaluation check never adds an error and adds one note |
| ValidateSkill.HasErrorAppend | scripts/validate_skill.py:48-50 | a log holds an error exactly when one of its two parts does |
| ValidateSkill.FrontmatterErrors | scripts/validate_skill.py:213-256 | the frontmatter check adds an error exactly when the frontmatter is empty, lacks a name or a description, or the name is over 64 or the description over 1024 characters |
| ValidateSkill.ReferenceErrors | scripts/validate_skill.py:290-310 | the reference check adds an error exactly when some non-http link names a file that does not exist |
| ValidateSkill.DirectoriesNeverFail | scripts/validate_skill.py:258-288 | the directory check only adds passes and warnings |
| ValidateSkill.StructureErrors | scripts/validate_skill.py:101-119 | the structure checks after initialisation add an error exactly when the frontmatter is invalid or a local link is broken |
| ValidateSkill.VagueNeverFails | scripts/validate_skill.py:318-329 | the vague-term warnings add no error |
| ValidateSkill.CappedNeverFails | scripts/validate_skill.py:450-456 | a capped list of issue warnings, or its pass, adds no error |
| ValidateSkill.DescriptionNeverFails | scripts/validate_skill.py:312-346 | the description-quality check adds no error |
| ValidateSkill.DisclosureNeverFails | scripts/validate_skill.py:389-410 | the progressive-disclosure check adds no error |
| ValidateSkill.ContentNeverFails | scripts/validate_skill.py:121-151 | the content checks after the structure checks never add an error |
| ValidateSkill.InitErrors | scripts/validate_skill.py:78-99 | the initialisation check adds an error exactly when the skill directory or its SKILL.md is missing |
| ValidateSkill.StructureVerdict | scripts/validate_skill.py:101-119 | the structure check on a new result reports an error exactly when the directory or SKILL.md is missing, the frontmatter is invalid or a local link is broken |
| ValidateSkill.FullCheckVerdict | scripts/validate_skill.py:121-174 | the content check and the full check on a new result report an error exactly when the structure check does |
| ValidateSkill.SkillValidator.constructor | scripts/validate_skill.py:73-76 | a validator for the directory with a new, empty result |
| ValidateSkill.SkillValidator.CheckInit | scripts/validate_skill.py:78-99 | the directory and SKILL.md checks, stopping at the first missing one, then the directory notes |
| ValidateSkill.SkillValidator.CheckStructureBasic | scripts/validate_skill.py:198-211 | one pass for each of scripts/, references/ and assets/ that exists |
| ValidateSkill.SkillValidator.NoteFound | scripts/validate_skill.py:206-211 | a pass when the directory exists, nothing otherwise |
| ValidateSkill.SkillValidator.CheckStructure | scripts/validate_skill.py:101-119 | the initialisation check, and the frontmatter, directory and reference checks only when it added no error |
| ValidateSkill.SkillValidator.CheckContent | scripts/validate_skill.py:121-151 | the structure check, and the nine content checks in order only when no error was reported |
| ValidateSkill.SkillValidator.RunContentChecks | scripts/validate_skill.py:134-149 | the nine content checks in the source's order |
| ValidateSkill.SkillValidator.FullCheck | scripts/validate_skill.py:153-174 | the full check logs the same as the content check |
| ValidateSkill.SkillValidator.CheckFrontmatter | scripts/validate_skill.py:213-256 | an error for an empty frontmatter; otherwise a pass, then the name and description checks |
| ValidateSkill.SkillValidator.CheckName | scripts/validate_skill.py:224-241 | an error without a name; otherwise the 64-character limit and the lowercase-hyphen format |
| ValidateSkill.SkillValidator.CheckDescriptionLength | scripts/validate_skill.py:243-256 | an error without a description; otherwise an error over 1024 characters, a warning under 50, a pass in between |
| ValidateSkill.SkillValidator.CheckDirectory | scripts/validate_skill.py:263-288 | nothing when the directory is absent, a pass with the file count when it has files, a warning when it is empty |
| ValidateSkill.SkillValidator.CheckDirectories | scripts/validate_skill.py:258-288 | the scripts/, references/ and assets/ notes in that order |
| ValidateSkill.SkillValidator.CheckFileReferences | scripts/validate_skill.py:290-310 | for each link in order: nothing for an http or https link, an error when the file is missing, a pass when it exists |
| ValidateSkill.SkillValidator.CheckDescriptionQuality | scripts/validate_skill.py:312-346 | the vague-term warnings, the voice note and the trigger note of the description |
| ValidateSkill.SkillValidator.WarnVagueTerms | scripts/validate_skill.py:318-329 | one warning per vague term the description holds, in the order of the terms |
| ValidateSkill.SkillValidator.CheckNaming | scripts/validate_skill.py:348-369 | the gerund pass or hint for the name |
| ValidateSkill.SkillValidator.CheckWritingStyle | scripts/validate_skill.py:371-387 | the writing-style note for the number of second-person instructions |
| ValidateSkill.SkillValidator.CheckProgressiveDisclosure | scripts/validate_skill.py:389-410 | the body-length note, and the references/ warning for a long body without references |
| ValidateSkill.SkillValidator.CheckExamples | scripts/validate_skill.py:412-426 | the examples pass or warning |
| ValidateSkill.SkillValidator.ReportIssues | scripts/validate_skill.py:450-456 | at most three issue warnings and a count of the rest, or the pass when there are none |
| ValidateSkill.SkillValidator.WarnAll | scripts/validate_skill.py:482-489 | one warning per issue, in order |
| ValidateSkill.SkillValidator.CheckConciseness | scripts/validate_skill.py:428-456 | the verbosity warnings of the body, or the pass |
| ValidateSkill.SkillValidator.CheckDegreesOfFreedom | scripts/validate_skill.py:458-489 | the freedom warnings, or the pass |
| ValidateSkill.SkillValidator.CheckScriptErrorHandling | scripts/validate_skill.py:491-535 | the script-quality warnings of the Python scripts, or the pass |
| ValidateSkill.SkillValidator.CheckEvaluationReferences | scripts/validate_skill.py:537-554 | the evaluation pass or warning |
| ValidateSkill.CollectScriptIssues | scripts/validate_skill.py:499-523 | per script in order: unguarded file operations, a bare except, exceptions without an error mark |
| ValidateSkill.FoundVerbosity | scripts/validate_skill.py:433-449 | the message of each verbosity pattern the body mentions, in the order of the patterns |
| ValidateSkill.RunCheck | scripts/validate_skill.py:610-643 | exit code 1 exactly when the chosen check reported an error: for the initialisation check when the directory or SKILL.md is missing, for every other check when the skill fails |
| QuickValidate.QuickFrontmatter | scripts/quick_validate.py:27-31 | the frontmatter group: the text starts with "---\n", the group and "\n---", and the group holds no "\n---" (the lazy match stops at the first closing) |
| QuickValidate.NotBefore | scripts/quick_validate.py:27 | a group that ends at the first closing holds no closing |
| QuickValidate.LineEnd | scripts/quick_validate.py:40 | the end of the `.+` run: the first newline from j, or the end of the text |
| QuickValidate.NameRulesAgree | scripts/quick_validate.py:44-47 | the quick name check accepts exactly the names the initialiser's full-match rule accepts (init_skill.py line 325) |
| QuickValidate.PassesIff | scripts/quick_validate.py:12-57 | the skill passes exactly when the message is "Skill is valid!", and exactly when SKILL.md exists, starts with a frontmatter holding "name:" and "description:", the name found is hyphen-case and the description found has no angle brackets |
| QuickValidate.SearchSkips | scripts/quick_validate.py:40 | the search skips the places where the key does not occur |
| QuickValidate.WrittenLayout | scripts/init_skill.py:39-42 | the layout of the `name:` and `description:` frontmatter lines a skill is written with |
| QuickValidate.FindsFrontmatter | scripts/quick_validate.py:27-31 | the regex finds the frontmatter of a text written as dashes, frontmatter, dashes and body when the frontmatter holds no "\n---" |
| QuickValidate.NoCloseInWritten | scripts/init_skill.py:39-42 | written name and description lines hold no closing "\n---" |
| QuickValidate.FindsWrittenName | scripts/quick_validate.py:40-42 | the name search on written lines finds the name |
| QuickValidate.NoEarlyDescriptionKey | scripts/quick_validate.py:50 | the description key does not occur inside the name line |
| QuickValidate.FindsWrittenDescription | scripts/quick_validate.py:50-52 | the description search on written lines finds the stripped description |
| QuickValidate.DescriptionValue | scripts/quick_validate.py:50-52 | the value after the description key is the stripped description |
| QuickValidate.WrittenSkillPasses | scripts/init_skill.py:39-42 | a SKILL.md written with a valid name and a one-line description without angle brackets passes the quick check (quick_validate.py lines 12-57) |
| InitSkill.AcceptsIff | scripts/init_skill.py:325 | the scanner for `[a-z0-9]+(?:-[a-z0-9]+)*` accepts exactly the hyphen-separated runs of name characters |
| InitSkill.SkillNameRule | scripts/init_skill.py:323-328 | a name is valid exactly when it is non-empty, holds only lowercase letters, digits and hyphens, does not start or end with a hyphen and has no two hyphens in a row |
| InitSkill.JoinedWordsAreValid | scripts/init_skill.py:325 | non-empty words of name characters joined by hyphens form a valid name |
| InitSkill.WordAccepts | scripts/init_skill.py:325 | a word followed by nothing or by a hyphen and a valid name is accepted |
| InitSkill.RunAccepts | scripts/init_skill.py:325 | a run of name characters before an accepted position is accepted |
| InitSkill.AcceptsSuffix | scripts/init_skill.py:325 | acceptance from a position depends only on the text from there on |
| InitSkill.Capitalize | scripts/init_skill.py:212 | `str.capitalize`: same length, first character upper-cased, the rest lower-cased |
| InitSkill.CapitalizeAll | scripts/init_skill.py:212 | one capitalised word per word |
| InitSkill.TitleFrom | scripts/init_skill.py:217 | `str.title` keeps the length |
| InitSkill.DisplayNamesAgreeFrom | scripts/init_skill.py:210-217 | on letters and hyphens, capitalising the hyphen-separated words and title-casing the text with spaces give the same text |
| InitSkill.DisplayNamesAgree | scripts/init_skill.py:210-217 | on a slug of letters and hyphens the two display-name functions agree |
| InitSkill.OneWord | scripts/init_skill.py:212 | a text without a hyphen splits into itself |
| InitSkill.DisplayNamesDifferOnDigits | scripts/init_skill.py:210-217 | the two functions differ on digits: "a2b" gives "A2b" and "A2B" |
| InitSkill.Labels | scripts/init_skill.py:239-243 | the labels of the triples, in order |
| InitSkill.MissingAreLabels | scripts/init_skill.py:239-243 | the missing labels are labels of some of the triples, each at most once and in the triples' order |
| InitSkill.NothingToReplace | scripts/init_skill.py:239-243 | when no placeholder occurs the text is unchanged and every label is reported |
| InitSkill.OnePlaceholder | scripts/init_skill.py:239-241 | a placeholder that occurs is replaced at its first occurrence only, and no label is reported |
| InitSkill.ApplyReplacements | scripts/init_skill.py:220-248 | a missing file gives one "File not found" entry; otherwise the triples are applied in order, the missing labels are reported, and the file is written exactly when its text changed |
| InitSkill.NoTodosLeft | scripts/init_skill.py:301-320 | the count is 0 exactly when no readable file holds a `[TODO:` marker |
| InitSkill.CountTodos | scripts/init_skill.py:301-320 | the loop adds the markers of each readable file and skips unreadable ones |
| SkillMdGenerator.JoinLineCount | scripts/skill_md_generator.py:49 | joining parts with newlines gives as many lines as the parts have together |
| SkillMdGenerator.CompiledLineCount | scripts/skill_md_generator.py:30-49 | the compiled SKILL.md has the lines of its eight sections plus the seven blank separator lines |
| SkillMdGenerator.CompileSplits | scripts/skill_md_generator.py:30-49 | the compiled text is the frontmatter, a newline, and the other sections joined by newlines |
| SkillMdGenerator.SkillName | scripts/skill_md_generator.py:243 | the skill name has the tool name's length; each character is lower-cased, and a space or underscore becomes a hyphen |
| SkillMdGenerator.NameCharOf | scripts/skill_md_generator.py:243 | a character gives a name character exactly when it is a letter or digit, and a hyphen exactly when it is a space, underscore or hyphen |
| SkillMdGenerator.SkillNameValidIff | scripts/skill_md_generator.py:243 | the generated skill name passes the initialiser's name rule exactly when the tool name holds only letters, digits and separators, does not start or end with one and has no two in a row |
| SkillMdGenerator.IntroEndsWithPeriod | scripts/skill_md_generator.py:264-271 | every type's intro sentence ends with a period |
| SkillMdGenerator.IntroParts | scripts/skill_md_generator.py:264-271 | the intro is the type's prefix, the tool name and the type's tail |
| SkillMdGenerator.SentenceShape | scripts/skill_md_generator.py:273-281 | the description starts with the intro, holds both clauses and ends with a period; with no clause after an intro that ends with a period it ends with two |
| SkillMdGenerator.DescriptionClauses | scripts/skill_md_generator.py:255-283 | the description starts with the type's intro, ends with a period, names the workflow count when there are workflows and the pitfall count when there are pitfalls, and ends in ".." when there are neither |
| SkillMdGenerator.IntroIsPlain | scripts/skill_md_generator.py:264-271 | for a plain tool name the intro is plain, non-empty and starts with a non-blank character |
| SkillMdGenerator.DescriptionIsPlain | scripts/skill_md_generator.py:255-283 | for a plain tool name the description is plain, non-empty and starts with a non-blank character |
| SkillMdGenerator.FollowingItemIff | scripts/skill_md_generator.py:296-304 | the "Following workflows" item is listed exactly when there are workflows, second, and the other items are those listed without workflows |
| SkillMdGenerator.QuickStartShowsFirstExample | scripts/skill_md_generator.py:329-362 | the quick start shows the first example fenced when it has code, and the note that points to `templates/` otherwise |
| SkillMdGenerator.NumberedStepsAt | scripts/skill_md_generator.py:383-384 | one numbered line per step, numbered from 1 |
| SkillMdGenerator.NumberSteps | scripts/skill_md_generator.py:383-384 | the loop numbers the first five steps from 1 |
| SkillMdGenerator.GenerateWorkflowsSection | scripts/skill_md_generator.py:364-389 | the loop builds the section of the first five workflows: a numbered heading each, the description when there is one, the numbered steps when there are some, or the fallback text when there is no workflow |
| SkillMdGenerator.BlockHeadings | scripts/skill_md_generator.py:376-385 | a workflow block holds exactly one heading, its own |
| SkillMdGenerator.NumberedHeadingsAt | scripts/skill_md_generator.py:371-376 | one heading per workflow, numbered from 1 |
| SkillMdGenerator.HeadingsNumbered | scripts/skill_md_generator.py:371-385 | when no description looks like a heading, the headings of the items are the workflows' headings numbered from 1, in order |
| SkillMdGenerator.SectionHeadings | scripts/skill_md_generator.py:371-385 | the section has one heading for each of the first five workflows, numbered from 1 |
| SkillMdGenerator.WorkflowFallbackIff | scripts/skill_md_generator.py:387 | the fallback text is used exactly when there is no workflow |
| SkillMdGenerator.ItemsStart | scripts/skill_md_generator.py:376 | the items start with the first workflow's heading |
| SkillMdGenerator.GenerateTemplatesReference | scripts/skill_md_generator.py:391-409 | the loop builds the list of the first ten templates, with the two fallback texts |
| SkillMdGenerator.TemplateItemsAt | scripts/skill_md_generator.py:400-405 | one item per template, in order |
| SkillMdGenerator.TemplateLines | scripts/skill_md_generator.py:396-407 | when every template is one line, the list has one line per template up to ten, each that template's item |
| SkillMdGenerator.TemplateFallbacks | scripts/skill_md_generator.py:396-407 | the "available in templates/" text exactly when there is no template data, the "check templates/" text exactly when the data lists no template |
| SkillMdGenerator.TreeCount | scripts/skill_md_generator.py:426 | the tree count is the pitfall count capped at 10 |
| SkillMdGenerator.GuardrailsCountIff | scripts/skill_md_generator.py:411-419 | two guardrails sections are equal exactly when their pitfall counts are |
| SkillMdGenerator.TreeCountIff | scripts/skill_md_generator.py:421-428 | two troubleshooting sections are equal exactly when their capped tree counts are |
| SkillMdGenerator.GenerateSkillMd | scripts/skill_md_generator.py:140-221 | the SKILL.md record of the analysis: tool name and type with their defaults, then each section from its generator, in order |
| SkillMdGenerator.FrontmatterSplits | scripts/skill_md_generator.py:30-58 | a compiled SKILL.md is the dashes, the name and description lines, the dashes and the other sections |
| SkillMdGenerator.FrontmatterFirstLine | scripts/skill_md_generator.py:30-58 | the first line of a compiled SKILL.md is "---" |
| SkillMdGenerator.GeneratedNameWritable | scripts/skill_md_generator.py:223-283 | a cleanly hyphenating tool name gives a valid skill name and a plain one-line description |
| SkillMdGenerator.FrontmatterPasses | scripts/skill_md_generator.py:30-58 | a compiled SKILL.md with a writable name and description passes the quick check (quick_validate.py lines 12-57) |
| SkillMdGenerator.GeneratedSkillPasses | scripts/skill_md_generator.py:140-283 | every SKILL.md generated for a cleanly hyphenating tool name passes the quick check (quick_validate.py lines 12-57) |
| AssetGenerator.ProblemIsFirstSentence | scripts/asset_generator.py:247 | the problem is the description up to its first period, or the whole description when it has none |
| AssetGenerator.SymptomLines | scripts/asset_generator.py:280-296 | one symptom per keyword the lower-cased description mentions (error, fail, not found, permission), then the context when there is one, and nothing else |
| AssetGenerator.Symptoms | scripts/asset_generator.py:280-298 | the fallback symptom exactly when no keyword occurs and there is no context; otherwise the symptom lines joined |
| AssetGenerator.DiagnosisOf | scripts/asset_generator.py:300-325 | the first matching branch: installation for "not found", permissions for "permission", credentials for "api" or "key", the generic review otherwise |
| AssetGenerator.FirstStepsDiffer | scripts/asset_generator.py:305-323 | the four branches open with different first steps |
| AssetGenerator.DiagnosisLines | scripts/asset_generator.py:300-325 | every branch has at least three lines and opens with its first step |
| AssetGenerator.DiagnosisOpensWith | scripts/asset_generator.py:300-327 | the diagnosis text opens with the first step of the branch the description selects |
| AssetGenerator.SolutionLines | scripts/asset_generator.py:329-347 | two fixes per keyword (install, config, permission), each fix present exactly when its keyword occurs, and the two fallback fixes when none does |
| AssetGenerator.SolutionFallbackIff | scripts/asset_generator.py:345-347 | the documentation fallback appears exactly when no solution keyword occurs |
| AssetGenerator.PreventionLines | scripts/asset_generator.py:351-364 | the two fixed tips first, then the configuration tip exactly when "config" occurs and the setup tip exactly when "install" occurs |
| AssetGenerator.TreeText | scripts/asset_generator.py:77-93 | a decision tree opens with its problem heading and symptoms |
| AssetGenerator.GenerateTroubleshootingTree | scripts/asset_generator.py:223-278 | the guide holds the decision trees of the first ten pitfalls, in order |
| AssetGenerator.BuildTrees | scripts/asset_generator.py:241-269 | the loop yields one decision tree per pitfall, in the pitfalls' order |
| AssetGenerator.GuideTrees | scripts/asset_generator.py:241-269 | the guide has one tree for each of the first ten pitfalls, and tree k opens with pitfall k's problem and symptoms |
| AssetGenerator.FirstCommandIndex | scripts/asset_generator.py:448-454 | the index of the first line that strips to a non-empty text not starting with "#", or the number of lines when there is none |
| AssetGenerator.CommandEntries | scripts/asset_generator.py:440-454 | at most two entries per example, each a fenced command or an emphasized title; there are entries exactly when the language is bash, shell or sh and one of the first three lines is a command |
| AssetGenerator.CommandEntriesBound | scripts/asset_generator.py:440-454 | the examples give at most two entries each |
| AssetGenerator.ExtractedCommandsShape | scripts/asset_generator.py:432-456 | between one and ten entries; the "no command examples" entry alone exactly when none of the first five examples gives a command |
| AssetGenerator.FindCommand | scripts/asset_generator.py:448-454 | the loop stops at the first command line |
| AssetGenerator.ExampleCommands | scripts/asset_generator.py:441-454 | the loop body gives the entries of one example |
| AssetGenerator.ExtractCommands | scripts/asset_generator.py:432-456 | the loop gives the entries of the first five examples, in order, or the "no command examples" entry |
| AssetGenerator.QuickBlockShape | scripts/asset_generator.py:388-400 | a workflow block is its heading, the description when there is one, and up to three steps each numbered "1." between "**Steps:**" and a blank line |
| AssetGenerator.QuickWorkflowItemsCover | scripts/asset_generator.py:386-402 | there are items exactly when there are workflows, and each of the first five workflows has its heading among them |
| AssetGenerator.QuickCommandsJoined | scripts/asset_generator.py:405-406 | the commands text is always the joined entries: the "see examples" note is never used, since the extraction is never empty |
| AssetGenerator.ConfigQuickRef | scripts/asset_generator.py:458-479 | the environment text exactly for api and library, the CLI text exactly for cli, the note that points to the configuration template otherwise |
| AssetGenerator.QuickWorkflowBlock | scripts/asset_generator.py:388-400 | the loop body gives the block of one workflow |
| AssetGenerator.GenerateQuickReference | scripts/asset_generator.py:366-430 | the loops build the reference from the workflow blocks, the command entries, the configuration text and the tips |
| AssetGenerator.ConfigSections | scripts/asset_generator.py:498-533 | two or three sections, general first and advanced last, the API section exactly for api and library, the CLI section exactly for cli |
| AssetGenerator.GenerateConfigTemplate | scripts/asset_generator.py:481-542 | the template holds the sections of the tool type; the examples do not change it |
| AssetGenerator.BasicItemsCover | scripts/asset_generator.py:562-575 | there are basic items exactly when one of the first two examples is basic, and each such example's heading and fenced code are among them |
| AssetGenerator.NumberedSteps | scripts/asset_generator.py:591-592 | one numbered line per step |
| AssetGenerator.NumberedStepsAt | scripts/asset_generator.py:591-592 | step k is numbered k + 1 |
| AssetGenerator.WorkflowExampleShape | scripts/asset_generator.py:580-601 | a workflow example is its heading, the description when there is one, every step numbered from 1 between "**Steps:**" and a blank line, and the first example's fenced code when it has code |
| AssetGenerator.WorkflowExampleItemsCover | scripts/asset_generator.py:578-603 | there are items exactly when there are workflows, and each of the first three has its heading among them |
| AssetGenerator.AdvancedItemsCover | scripts/asset_generator.py:606-616 | there are advanced items exactly when some example is advanced, and each such example's heading and fenced code are among them |
| AssetGenerator.BasicExampleLines | scripts/asset_generator.py:564-573 | the loop body gives the lines of one basic example |
| AssetGenerator.WorkflowExampleLines | scripts/asset_generator.py:580-601 | the loop body gives the lines of one workflow, its steps numbered by the inner loop |
| AssetGenerator.AdvancedExampleLines | scripts/asset_generator.py:608-614 | the loop body gives the lines of one advanced example |
| AssetGenerator.NumberSteps | scripts/asset_generator.py:591-592 | the inner loop numbers every step from one, in order (each line `k. step` by NumberedStepsAt) |
| AssetGenerator.BasicSection | scripts/asset_generator.py:562-573 | the basic-example loop collects the blocks of the basic examples it is given, in order |
| AssetGenerator.WorkflowSection | scripts/asset_generator.py:578-601 | the workflow loop collects one example block per workflow it is given, in order |
| AssetGenerator.AdvancedSection | scripts/asset_generator.py:606-614 | the advanced-example loop collects the blocks of every advanced example, in order |
| AssetGenerator.GenerateExamplesDoc | scripts/asset_generator.py:544-637 | the three loops build the document from the basic items, the workflow examples, the advanced items and the tips |

## Left out

- Reading and writing files is left out: every `save_*` method, `extract_from_markdown`, `_extract_markdown_file`'s file reading, `save_raw_docs`, `load_state`, `save_state`, `create_output_dir`, `init_from_template`, `init_skill`, `create_research_log`, and the directory walks of `count_todos` and the validator. What these steps read is a parameter instead: file texts, a `Layout`, or `None` for a file that is missing or unreadable.
- The validator's "Could not read" warning for an unreadable script is left out, because reading scripts is file-system work.
- Fetching pages over the network is left out, along with the Perplexity and crawl4ai researchers. Only the fallback researcher is modelled.
- Clock values are left out: extraction dates, error and finding timestamps, and the timestamps in generated assets. Where a timestamp becomes part of a text it is a `generated` or `now` parameter.
- Logging, printing, `print_summary`, `print_results`, the `argparse` front ends and the summary line of `full_check` are left out. They do not affect results.
- `generate_assets` and the `metadata` dictionaries of templates, assets, findings and SKILL.md are left out. Each bundles the modelled texts with a clock value.
- `SkillMdGenerator.GenerateSkillMd`: the SKILL.md record is a value built in one step rather than an object whose fields are assigned one by one. The `guardrails` and `assets` arguments are omitted because the source never reads them.
- The warning `save_skill_md` logs for a SKILL.md over 500 lines is left out because it is logging. The line count it is based on is modelled (`CompiledLineCount`).
- Unicode character semantics are left out. `lower`, `upper`, `capitalize`, `title`, `isalnum`, `\w`, `\s` and `\d` are modelled on ASCII only.
- Regexes are not modelled as a general engine. The model hand-writes scanners for:
  - the fence pattern;
  - the URL pattern;
  - the `${NAME}` token;
  - the two frontmatter patterns;
  - the quick validator's `name:`/`description:` searches;
  - the skill-name rule.

  The file-path pattern of `add_default_values` is a function parameter. The validator's case-insensitive word-boundary patterns are given as `Matchers`.
- Only the URL pass of `_generalize_code` is modelled. Its e-mail, API-key, Python-variable and JavaScript-variable substitutions depend on word-boundary regexes.
- `generate_usage_example` is left out. Its text depends only on a template's fields and is written out by `save_templates`.
- The confidence is a real number. Its percentage formatting in `summary()` is left out.
- The `severity` argument of `_generate_diagnosis_steps` and `_generate_solutions` is accepted and ignored, as in the source, which never reads it.
- The `examples` argument of `generate_config_template` is accepted but unused, as in the source.
- `scripts/analyze_conciseness.py` and `scripts/package_skill.py` are not part of this model. The first estimates tokens with floating point or an external tokenizer; the second builds zip archives.
- The guardrail generator is not part of this model, because its source is not available.
- `GapResearch.ManualAnswerIsSpecific` does not compute the relevance of the fallback answer outright. It proves that the answer holds a task-specific indicator, so the answer could be rated "general" only if it held two general indicators.
- `GapResearch.ResearchAll`: the researcher never returns nothing here, since the fallback always answers and the Perplexity stub itself falls back. So no query is marked "failed", and the path of a researcher that raises is not modelled.
