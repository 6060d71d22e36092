# Patent translation core, modelled in Dafny

This project models the deterministic core of a patent-translation tool that
translates English patent documents into Korean. It covers five parts:

- **QA checker** (`qa_checker.py`). It applies ten rule checks to a
  translation: formatting, forbidden terms, antecedent basis (`상기`), claim
  structure, punctuation, domain mistranslations, standard terminology,
  numerical expressions, transitional phrases, and method-claim noun phrases.
  It also tallies severities, gives a pass/fail verdict and renders a text
  report.
- **Section parser** (`section_parser.py`). It splits a document into title,
  abstract, claims and specification sections, and numbered claims. It
  reassembles translated sections in line order, with Korean headers.
- **Translation memory** (`tm_manager.py`). It stores translations keyed by
  the hash of the source text, answers exact and fuzzy look-ups, and
  produces statistics.
- **Pipeline** (`pipeline.py`). It runs analysis, memory look-up,
  translation, QA, and storage when QA passed.
- **Analyzer** (`analyzer.py`). It identifies the domain, filters extracted
  terms, and merges the term mapping from the domain glossary, the general
  glossary and the AI suggestions.

Files:

| file | module | contents |
|---|---|---|
| `options.dfy` | `Options` | `Option` |
| `text.dfy` | `Text` | Python string operations: `lower`, `upper`, `strip`, `in`, `startswith`, `split`, `join`, slicing |
| `qa_rules.dfy` | `QaRules` | violations, rule tables, and each check as a specification function |
| `qa_checker.dfy` | `QaChecker` | class `PatentQAChecker`, whose scanning loops are proved against `QaRules` |
| `qa_properties.dfy` | `QaProperties` | lemmas about the checks and the verdict |
| `section_parser.dfy` | `SectionParser` | header detection, the parse loop over the class `SectionLists`, and reconstruction |
| `section_properties.dfy` | `SectionProperties`, `ReconstructProperties` | invariants of the parse, and properties of the sort and the layout |
| `translation_memory.dfy` | `TmManager` | class `TranslationMemory`: `Add`, `Search` and `GetStats` |
| `analyzer.dfy` | `Analyzer` | domain vote, term-mapping merge, and the term filter |
| `pipeline.dfy` | `Pipeline` | class `TranslationPipeline`: the control flow of `translate_document` |

The methods follow the source's loops:

- The six scanning checks (`CheckFormatting`, `CheckTerminology`,
  `CheckAntecedentBasis`, `CheckPunctuation`, `CheckDomainTerms` and
  `CheckStandardTerminology`) build their lists in the `while` loops of
  `ScanPositions` and `ScanTable`. Each is proved equal to its specification
  function in `QaRules`.
- The other four checks have no loop in the source. Their methods return the
  value of the `QaRules` function.
- `ParseDocument` walks the lines, filing sections into a mutable
  `SectionLists` object, and is proved to equal the functional `Parse`.
- `TranslationMemory` holds the table as a `map` from hash to entry. `Add`
  and `Search` work on that map.

The lemmas then state what the source promises about those functions.

## Model

| member | source | states |
|---|---|---|
| QaRules.ToDict | src/qa_checker.py:28-36 | the dictionary carries the violation's rule id, its severity string, its found text and its correction |
| QaRules.UnitAt | src/qa_checker.py:105-131 | a report at p exactly when a `(\d+)\s*<unit>` match starts at p and its digits and unit are not separated by exactly one whitespace; the found text is the whole match, from the digits to the unit, and the suggestion is the digits, one space and the unit |
| QaRules.SeqIdAt | src/qa_checker.py:145-157 | a report at p exactly when a `서열\s?번호\s?:?\s?(\d+)` match starts at p and differs from `서열번호 <digits>`; the found text is the match and the suggestion that canonical spelling |
| QaRules.ClaimEndingViolations | src/qa_checker.py:133-143 | a report exactly when the document is a claim and its stripped text does not end with `.`; at most one report, a claim_ending violation carrying the last 20 characters |
| QaRules.FormattingViolations | src/qa_checker.py:100-159 | all reports belong to check 1, and the claim_ending reports are exactly those of the final-period test |
| QaRules.ForbiddenAt | src/qa_checker.py:166-178 | the j-th forbidden Korean term of an entry is reported iff it occurs in the translation, as a forbidden-term violation for that English term with that Korean term as found text |
| QaRules.TerminologyViolations | src/qa_checker.py:161-180 | every report is a forbidden-term violation whose Korean term occurs in the translation; all belong to check 2 |
| QaRules.TheNounMatches | src/qa_checker.py:187-189 | `the\s+(noun)` matches at p in the lower-cased source iff the result is a noun, and that noun is the first alternative occurring after the whitespace |
| QaRules.AntecedentAt | src/qa_checker.py:190-214 | a report is an antecedent-basis violation whose noun occurs in the translation and never after `상기` and whitespace |
| QaRules.AntecedentViolations | src/qa_checker.py:182-216 | every report is an antecedent-basis violation whose noun occurs without `상기`; all belong to check 3 |
| QaRules.ClaimStructureViolations | src/qa_checker.py:218-239 | a report exactly when the document is a claim and no allowed noun-phrase ending closes the stripped translation; all are noun-phrase-ending violations of check 4 |
| QaRules.FirstParticleColonAt | src/qa_checker.py:247 | the first of the particles 로서, 에서, 에, 를, 을, 이, 가, in that order, that starts at p and is followed by whitespace and `:`; none iff no particle is |
| QaRules.ColonAt | src/qa_checker.py:247-256 | a report at p exactly when some particle followed by whitespace and `:` starts at p; it carries the text matched by the first matching alternative and suggests that particle followed by `,` |
| QaRules.ColonViolations | src/qa_checker.py:245-256 | every report is a colon-after-particle violation |
| QaRules.SemicolonViolations | src/qa_checker.py:258-268 | the one semicolon violation is reported exactly when the stripped translation ends with `;` |
| QaRules.PunctuationViolations | src/qa_checker.py:241-270 | all reports belong to check 5, and a non-claim gets at most the semicolon rule |
| QaRules.DomainWrongAt | src/qa_checker.py:283-290 | the j-th wrong term of a rule is reported iff it occurs in the translation, with the rule's term, context and correction |
| QaRules.DomainViolations | src/qa_checker.py:272-292 | all reports belong to check 6 |
| QaRules.EmbodimentAt | src/qa_checker.py:298-309 | the j-th forbidden rendering of `embodiment` is reported iff it occurs in the translation |
| QaRules.StandardTermViolations | src/qa_checker.py:294-323 | each of `실시태양`, `실시예`, `구현예` is reported iff it occurs in the translation, `주제` is reported iff it occurs, and nothing else is reported; all reports belong to check 7 |
| QaRules.NumericalViolations | src/qa_checker.py:325-353 | the `more than one` and `less than two` violations are each reported iff their source phrase and wrong rendering occur; at most two reports, all of check 8 |
| QaRules.TransitionalViolations | src/qa_checker.py:355-371 | either nothing or the single critical adapted_to violation, the latter exactly when `adapted to` is in the lower-cased source and `적합화된` or `적응된` in the translation |
| QaRules.MethodPreambleViolations | src/qa_checker.py:381-391 | a report exactly when the text has neither `방법으로서,` nor `방법에\s*있어서,` |
| QaRules.MethodEndingViolations | src/qa_checker.py:393-411 | a report exactly when the stripped text ends with `방법.` and no proper ending pattern closes the text |
| QaRules.ClaimNounPhraseViolations | src/qa_checker.py:373-413 | reports only for a claim that mentions `방법`; all belong to check 10 |
| QaChecker.PatentQAChecker.constructor | src/qa_checker.py:42-51 | the checker starts with no violations and the given forbidden-term table |
| QaChecker.PatentQAChecker.CheckFormatting | src/qa_checker.py:100-159 | the scanning loops return exactly the formatting violations |
| QaChecker.PatentQAChecker.CheckTerminology | src/qa_checker.py:161-180 | the table loops return exactly the forbidden-term violations |
| QaChecker.PatentQAChecker.CheckAntecedentBasis | src/qa_checker.py:182-216 | the match loop returns exactly the antecedent violations |
| QaChecker.PatentQAChecker.CheckClaimStructure | src/qa_checker.py:218-239 | returns exactly the claim-structure violations |
| QaChecker.PatentQAChecker.CheckPunctuation | src/qa_checker.py:241-270 | returns exactly the punctuation violations |
| QaChecker.PatentQAChecker.CheckDomainTerms | src/qa_checker.py:272-292 | the rule-table loop returns exactly the domain violations |
| QaChecker.PatentQAChecker.CheckStandardTerminology | src/qa_checker.py:294-323 | returns exactly the standard-terminology violations |
| QaChecker.PatentQAChecker.CheckNumericalExpressions | src/qa_checker.py:325-353 | returns exactly the numerical violations |
| QaChecker.PatentQAChecker.CheckTransitionalPhrases | src/qa_checker.py:355-371 | returns exactly the transitional-phrase violations |
| QaChecker.PatentQAChecker.CheckClaimNounPhraseStructure | src/qa_checker.py:373-413 | returns exactly the method-claim violations |
| QaChecker.PatentQAChecker.CountSeverities | src/qa_checker.py:469-477 | the tally loop counts each severity of the list |
| QaChecker.PatentQAChecker.CheckAll | src/qa_checker.py:415-490 | the field is replaced by the ten checks' lists in order, and the result is their verdict |
| QaChecker.ViolationBlock | src/qa_checker.py:535-541 | the block of one violation has five lines, or six with the `수정` line exactly when the correction is non-empty, and ends with a blank line |
| QaChecker.PatentQAChecker.RenderViolations | src/qa_checker.py:529-541 | the blocks of all violations, numbered from 1, in list order |
| QaChecker.PatentQAChecker.GenerateReport | src/qa_checker.py:492-545 | the report is the header, the counts, the verdict line and the blocks, joined by newlines |
| QaProperties.ViolationsInCheckOrder | src/qa_checker.py:422-466 | the violations of check_all come grouped by check, in the order 1 to 10 |
| QaProperties.NonClaimSkipsClaimRules | src/qa_checker.py:415-466 | for a non-claim document no claim-only rule is reported |
| QaProperties.ClaimEndingReportedIff | src/qa_checker.py:133-143 | for a claim, check_all reports claim_ending iff the stripped translation does not end with `.`, and then exactly once |
| QaProperties.SeqIdReports | src/qa_checker.py:145-157 | for any document type, a sequence-number violation is in check_all's list iff it is the report of a match in the translation not spelled `서열번호 <N>` |
| QaProperties.ColonReports | src/qa_checker.py:244-256 | for a claim, a colon-after-particle violation is in check_all's list iff it is the report, with the first matching alternative, of a particle-colon match in the translation |
| QaProperties.ParticleColonReported | src/qa_checker.py:244-256 | in a claim, every particle followed by whitespace and `:` gets a colon-after-particle violation at its position |
| QaProperties.CountsSumToTotal | src/qa_checker.py:469-477 | the four severity counts add up to the number of violations |
| QaProperties.CountZeroIff | src/qa_checker.py:469-477 | a severity's count is 0 iff no violation has that severity |
| QaProperties.VerdictIff | src/qa_checker.py:469-490 | the counts sum to the total, and passed iff no violation is critical or major |
| QaProperties.CriticalCountIsAdaptedTo | src/qa_checker.py:355-371 | the critical count is 1 exactly on the `adapted to` mistranslation and 0 otherwise; that input never passes |
| QaProperties.TransitionalCriticalCount | src/qa_checker.py:359-369 | check 9 has one critical violation exactly on the `adapted to` mistranslation |
| QaProperties.TerminologyReports | src/qa_checker.py:166-178 | a violation is reported iff it is the report of some (English term, forbidden Korean) pair found in the translation, and it occurs once for each such pair |
| QaProperties.DomainReports | src/qa_checker.py:276-290 | a violation is reported iff it is the report of some rule whose English term is in the source and whose wrong term is in the translation |
| QaProperties.AntecedentReports | src/qa_checker.py:187-214 | a violation is reported iff some `the <noun>` of the source has its Korean noun in the translation and never after `상기`, and it occurs once for each such match |
| QaProperties.UnitCorrectionIsClean | src/qa_checker.py:105-131 | the suggested temperature or percent correction is itself free of that violation |
| QaProperties.AntecedentCorrectionHasSanggi | src/qa_checker.py:205-213 | the suggested antecedent correction introduces the noun with `상기` |
| QaProperties.ReportListsViolation | src/qa_checker.py:529-541 | for each violation i, the report is the header, the details heading, the blocks of the violations before i, the block of i numbered i+1, the blocks after it, and the closing rule |
| QaProperties.MissingPreambleReported | src/qa_checker.py:381-391 | a claim that mentions `방법` without a preamble gets the major preamble violation |
| QaProperties.MajorFails | src/qa_checker.py:489 | a list with a major violation does not pass |
| QaProperties.MethodClaimWithoutPreambleFails | src/qa_checker.py:381-391 | such a claim fails check_all whatever else it gets right |
| QaProperties.ExampleClaimLacksPreamble | src/qa_checker.py:383 | `상기 화합물을 포함하는 방법.` mentions `방법` but has neither accepted preamble |
| QaProperties.ModuleExampleAntecedent | src/qa_checker.py:552-556 | in the module's own example, `the compound` is reported because `화합물` appears without `상기` |
| QaProperties.ModuleExampleFails | src/qa_checker.py:552-556 | the module's own example reports antecedent_basis and does not pass |
| QaProperties.AntecedentFails | src/qa_checker.py:433-489 | a missing `상기` found by check 3 is in the full list for any document type, and the result does not pass |
| SectionParser.Collapsed | src/section_parser.py:26-58 | background, summary, description and drawings patterns all give `specification`; every group gives a section key |
| SectionParser.DetectFrom | src/section_parser.py:164-172 | none iff no remaining pattern matches; otherwise the type of the first matching pattern in table order |
| SectionParser.DetectSectionHeader | src/section_parser.py:160-172 | a detected header names one of the four lists |
| SectionParser.Classify | src/section_parser.py:88-119 | a blank line iff the stripped line is empty; a header carries its stripped text and a section key |
| SectionParser.Kinds | src/section_parser.py:87-97 | one classification per line, in order |
| SectionParser.SectionRecord | src/section_parser.py:174-197 | a saved section is filed under its own key, and any other type is filed as specification |
| SectionParser.SectionLists.constructor | src/section_parser.py:76-81 | the four lists start empty |
| SectionParser.SectionLists.SaveSection | src/section_parser.py:174-197 | empty content is dropped; otherwise the section is appended to its list |
| SectionParser.SectionLists.SaveClaim | src/section_parser.py:199-209 | empty content is dropped; otherwise a claim with an empty heading is appended to the claims |
| SectionParser.ParseLine | src/section_parser.py:89-137 | one loop iteration performs the state transition Step and keeps the lists equal to the sections saved so far |
| SectionParser.ParseLines | src/section_parser.py:83-137 | the loop leaves the state of Run over all lines |
| SectionParser.FinishSections | src/section_parser.py:139-156 | the final save files the open section as Finish does |
| SectionParser.ParseDocument | src/section_parser.py:63-158 | the lists returned are exactly Parse(text) |
| SectionParser.DocumentTypeFromSection | src/section_parser.py:211-220 | `claim` iff the type is claim or claims, `abstract` iff abstract, otherwise `specification` |
| SectionParser.TranslateFrom | src/section_parser.py:264-267 | the Korean name of the first table key in the upper-cased header, or the header unchanged when none occurs |
| SectionParser.CollectPairs | src/section_parser.py:228-231 | the pairs of every list, in dictionary order |
| SectionParser.RenderPairs | src/section_parser.py:234-245 | the lines are the blocks of the pairs in order: the translated heading and a blank line when there is a heading, then the text and a blank line |
| SectionParser.ReconstructDocument | src/section_parser.py:222-245 | the document is the layout of the pairs sorted by start line |
| SectionProperties.SavedSectionsGood | src/section_parser.py:97-156 | every saved section is well formed: non-empty stripped content taken from the lines after its header, no header inside, heading as the source sets it; sections do not overlap, in order |
| SectionProperties.ParsedSectionsGood | src/section_parser.py:63-158 | every section in the four lists is well formed in that sense |
| SectionProperties.RunInv | src/section_parser.py:89-137 | the loop invariant holds after every prefix of the lines |
| SectionProperties.StepInv | src/section_parser.py:89-137 | each kind of line preserves the invariant |
| SectionProperties.FinishGood | src/section_parser.py:139-156 | the final save keeps every section well formed and ordered |
| SectionProperties.BeforeFirstHeaderDropped | src/section_parser.py:136-137 | no saved section starts before the first header |
| SectionProperties.NoHeaderNoSections | src/section_parser.py:76-81 | a document without headers yields four empty lists |
| SectionProperties.HeaderBeforeClaimNumber | src/section_parser.py:97-117 | a header line is classified as a header and never as a claim number |
| SectionProperties.NumberedLineOpensClaim | src/section_parser.py:117-131 | a claim number line read inside the claims section starts a section of the claims list on that line, whose content is the stripped text from that line to the section's end |
| SectionProperties.ContentLineKept | src/section_parser.py:87-156 | every line after the first header that is neither blank nor a header lies in a saved section, at or after the first line of its content: no content after the first header is lost |
| SectionProperties.GroupedMembers | src/section_parser.py:174-209 | a section is in a list iff it was saved with that list's type; claims and claim items share the claims list |
| ReconstructProperties.SortSorted | src/section_parser.py:232 | the sort orders the pairs by start line |
| ReconstructProperties.SortPermutes | src/section_parser.py:232 | the sort is a permutation |
| ReconstructProperties.SortStable | src/section_parser.py:232 | the sort is stable: pairs with equal start lines keep their order |
| ReconstructProperties.LaidOutOrder | src/section_parser.py:228-232 | the emitted pairs are all the pairs, sorted and stable |
| ReconstructProperties.RenderedHoldsBlock | src/section_parser.py:234-245 | each pair's block appears in the output after the blocks of those before it |
| ReconstructProperties.DrawingsNeverTranslated | src/section_parser.py:251-262 | the drawings entry can never be chosen, because the description key comes first and is a substring of it |
| TmManager.TranslationMemory.constructor | src/tm_manager.py:19-50 | the memory starts with the given rows, hash and similarity |
| TmManager.TranslationMemory.Add | src/tm_manager.py:60-78 | True and the hash's entry replaced by the new values (the count grows only for a new hash), or False and the store unchanged when storage fails |
| TmManager.TranslationMemory.Search | src/tm_manager.py:80-143 | an exact row gives exactly one exact match; otherwise sorted fuzzy matches at or above the threshold, in the domain when one is given, from the 100 best-quality candidates, at most max_results and 100 |
| TmManager.TranslationMemory.GetStats | src/tm_manager.py:145-173 | the total is the number of entries; each count is the number of entries with that domain or type, the keys are exactly the values present, and the counts sum to the total |
| TmManager.TopByQuality | src/tm_manager.py:107-124 | the keys are distinct, at most the limit, none of higher quality left out |
| TmManager.GroupCount | src/tm_manager.py:154-167 | the `GROUP BY` counts: keys exactly the values present, each count the number of rows with it, and the counts sum to the number of rows |
| TmManager.CollectHits | src/tm_manager.py:127-138 | the loop keeps exactly the candidates at or above the threshold, in order, as fuzzy matches |
| TmManager.FuzzyResultsHold | src/tm_manager.py:127-143 | results are sorted, at most max_results, fuzzy, at or above the threshold, and each comes from a candidate |
| TmManager.SortBySimilarityPermutes | src/tm_manager.py:141 | the sort is a permutation |
| TmManager.SortSorted | src/tm_manager.py:141 | the sort orders by non-increasing similarity |
| TmManager.SearchFacts | src/tm_manager.py:105-143 | the fuzzy results are within the domain filter and bounded by 100 and max_results |
| TmManager.ThresholdMonotone | src/tm_manager.py:127-138 | raising the threshold never increases the number of fuzzy results |
| Analyzer.Score | src/analyzer.py:62 | a score counts distinct keywords, at most their number, and is 0 iff none occurs |
| Analyzer.ArgMax | src/analyzer.py:63 | the index of a maximal score, earlier scores strictly smaller (ties to the first) |
| Analyzer.GeneralIffNoKeyword | src/analyzer.py:61-63 | the result is `general` iff no keyword of any domain occurs |
| Analyzer.DomainHasBestScore | src/analyzer.py:55-63 | a non-general result is a domain with a positive, maximal score, and every earlier domain scores less |
| Analyzer.DomainKeywordsHaveNoGeneral | src/analyzer.py:55-60 | the table has four domains, none named `general` |
| Analyzer.IdentifyGeneralIff | src/analyzer.py:53-63 | identify_domain gives `general` iff no keyword occurs in the lower-cased text |
| Analyzer.UpperKeywordsNeverCount | src/analyzer.py:59-62 | the biotech score equals the score without `DNA` and `RNA` |
| Analyzer.BuildTermMapping | src/analyzer.py:152-170 | the two loops compute the merged mapping |
| Analyzer.GeneralPassFacts | src/analyzer.py:159-163 | the general pass adds exactly the general hits, with the general value, and leaves other keys alone |
| Analyzer.AiPassFacts | src/analyzer.py:165-169 | the AI pass never overwrites a key; a new key gets its first suggestion |
| Analyzer.MergePriority | src/analyzer.py:155-170 | every domain term is in the result; a general hit overwrites; AI terms only fill missing keys; and nothing else is in the result |
| Analyzer.KeptFacts | src/analyzer.py:73-74 | the filter keeps exactly the non-stopword terms longer than 2, in order |
| Analyzer.FilterTermsFacts | src/analyzer.py:73-75 | at most top_n terms, each from the input, not a stopword and longer than 2, count order kept |
| Pipeline.StoredQuality | src/pipeline.py:113 | for a passing result the stored score is 10 iff there are no violations, and 7 iff all violations are minor or neutral |
| Pipeline.TranslationPipeline.constructor | src/pipeline.py:18-25 | the pipeline holds the given memory, checker and translators |
| Pipeline.TranslationPipeline.TranslateDocument | src/pipeline.py:43-137 | an exact hit returns the stored target with no further call and no change; otherwise the search results are fuzzy, at or above 0.95 and in the domain, and the rest runs as TranslateAndReview states |
| Pipeline.TranslationPipeline.TranslateAndReview | src/pipeline.py:76-137 | the translator picked by the self-review flag runs; a failure returns unchanged with no QA and no write; a success is checked, stored with score 10 or 7 iff saving was asked and QA passed, and returned with the QA result |

## Left out

- Console output (`print`), logging, the `__main__` driver and the closing of
  the database connection are not modelled.
- Regular expressions are written as explicit scans over character positions.
  How Python's `re` module matches is not part of this model.
- Case changes and `\d` are ASCII only; `\s` and `strip()` use the set of
  characters for which Python's `str.isspace` holds. Python's Unicode case
  mapping and Unicode digit classes are not modelled.
- MD5, in `_calculate_hash`, is a function parameter of `TranslationMemory`.
  No collision-freedom is assumed.
- `SequenceMatcher.ratio`, in `_calculate_similarity`, is a function
  parameter into the reals. Floating-point values are modelled as `real`.
- SQLite is a map from hash to entry. Left out: the autoincrement `id`,
  `created_at`, the index DDL, the order among rows of equal
  `quality_score`, and the key order of the `GROUP BY` dictionaries.
- The storage failure that `add` catches is a Boolean parameter
  (`storageFails`).
- The analysis dictionary is an input to `TranslateDocument`. `analyze` is
  not part of this model, and neither are the LLM analysis, the regex term
  extraction, `Counter.most_common` and `identify_patterns`.
- The filter of `extract_technical_terms` takes the already ranked
  `most_common(top_n * 2)` list as its input.
- Line 42 of `pipeline.py` calls `analyze(source_text, use_claude=False)`.
  `analyze` (`analyzer.py`, line 127) has no `use_claude` parameter; its
  parameter is `use_ai`. So as written the call raises `TypeError`, and
  `translate_document` never reaches the memory search at line 43.
  `TranslateDocument` models the method from line 43 on, with the analysis
  result (domain and term mapping) supplied as an input.
- The two translator calls are function parameters of the pipeline. The LLM
  prompts and agents behind them are not part of this model.
- The AI `domain_specific_terms` dictionary is a sequence of pairs in
  insertion order. A repeated key keeps its first value, as `if eng not in
  mapping` does.
- Configuration loading is not modelled; the style guide and terminology
  are typed parameters. That means the two JSON files, and the forbidden
  table given to the checker's constructor.
- The `transitional_phrases` table and `standard_terms['aspect']` are
  declared but never read by any check, so no member models them.
- The claim `상기 화합물을 포함하는 방법.` contains neither `방법으로서,` nor
  `방법에 있어서,`, so check_claim_noun_phrase_structure reports
  method_claim_preamble for it even though it reads as a well-formed claim.
  The model follows the code (`QaProperties.ExampleClaimLacksPreamble`).
- The `BRIEF DESCRIPTION OF THE DRAWINGS` entry of `_translate_header` is
  unreachable, because `DESCRIPTION` is checked first. The model keeps the
  table as written (`ReconstructProperties.DrawingsNeverTranslated`).
- A section closed by a header gets that next header's stripped text as its
  `heading`. That is what line 108 does, and the model keeps it.
- Section types are an enumeration, rendered by `SectionParser.TypeName`.
- Dictionaries whose iteration order matters are sequences in insertion
  order: rule tables, section patterns, header translations and the domain
  keyword table.
- TmManager.TranslationMemory.Search: does not model that the similarity is
  symmetric or equals 1 exactly on equal strings. The contract holds for
  any similarity function, so a fuzzy match scoring 1.0 also short-circuits
  the pipeline, as the code would.
