# psy-R report pipeline, modelled in Dafny

This project models the core of psy-R, a desktop tool that fills a DOCX
psychological-report template. The model covers these parts of the tool:

- **Score classification** (module `Classifier`, with `Classification`,
  `ResultWrites`, `ScoreText` and `Numbers`).
  - Raw test scores are read as numbers: `%` is dropped and a decimal comma is accepted.
  - Each score is clamped into the range of its instrument's rule table. The first
    closed interval in declaration order that contains it gives the classification text.
  - A missing WISC total (QIT) or BPA general-attention score is filled with the mean
    of the components that are present.
  - Every derived field is written only where the dictionary holds nothing, None or
    a blank string.
- **Placeholders** (`Placeholders`, `Extractor`, `Replacer`, `TemplateProcessor`).
  - A placeholder is `{name}`, where the name is `[A-Za-z0-9_]+`. It is found in a
    paragraph's full text, the concatenation of its runs.
  - Extraction collects the names used in the body, the tables, the headers and the
    footers.
  - Replacement works in place, last match first. The first run a match reaches
    receives the value, the runs inside the match are emptied, and the last run keeps
    its text after the match.
- **Naming convention and required fields** (`FieldValidator`, `TemplateValidator`).
  - A name is checked against nine anchored patterns. The first pattern that matches
    names the category.
  - The required-field check sorts the names into missing and unfilled.
- **Mappings for replacement** (`FieldMapper`, `DataModel`). Both flatten the collected
  groups into a map from placeholder name to text. `FieldMapper` also writes every
  alias from its translation table, and uses `setdefault` for test aliases.
  `DataModel` is the stateful store with merge-update setters.
- **Small services**:
  - the score tables' loader, with comment stripping, key derivation and cache (`TablesLoader`);
  - the template-fields loader (`FieldsLoader`);
  - the patient's first name and age (`PatientService`);
  - the review summary text (`ReportSummary`);
  - the screen navigation state machine, whose callbacks are recorded as an event trace
    (`Navigation`).

Shared modules:

- `Values` models Python values: truthiness, `str()`, JSON values.
- `Strings` models the parts of `str` that the core uses.
- `Docx` is an abstract python-docx document. A paragraph is an `array<string>` of run
  texts. A document holds body paragraphs, tables (rows, cells, paragraphs) and
  sections (a header and a footer, each with paragraphs and tables).

Things the source gets from its environment are parameters of the model:

- the directory listing and the JSON parser of the tables loader;
- the parsed configuration file of the fields loader;
- "today" for the age;
- the stacked widget's screens for navigation.

## Model

| member | source | states |
|---|---|---|
| Classification.FloatOf | src/app/services/test_result_classifier.py:286-289 | `float()` of a missing value, null, a list or an object is None, the TypeError the loop skips; true and false are 1.0 and 0.0 |
| Classification.Range | src/app/services/test_result_classifier.py:283-294 | None exactly when no rule's bounds parse. Otherwise the least lower bound and the greatest upper bound bound every parsed rule, and each is attained by some rule |
| Classification.FirstFrom | src/app/services/test_result_classifier.py:297-311 | the rule found contains the value and no earlier rule does; None only when no rule from there contains it |
| Classification.ClampWithinRange | src/app/services/test_result_classifier.py:292-295 | with consistent bounds the clamped value lies in [global_min, global_max], and a value already inside is unchanged |
| Classification.OutOfRangeIsBoundary | src/app/services/test_result_classifier.py:292-316 | a value below the range is classified like the least bound, one above it like the greatest bound |
| Classification.FirstContainingRuleDecides | src/app/services/test_result_classifier.py:297-316 | the first rule in declaration order whose closed interval holds the clamped value gives the text; a later rule sharing a boundary never does |
| Classification.FoundTextComesFromFirstContainingRule | src/app/services/test_result_classifier.py:297-316 | a text is found only in the first rule that holds the clamped value, and only when that rule has a string text |
| Classification.Lookup | src/app/services/test_result_classifier.py:297-316 | a text is found only when some rule's interval holds the clamped value (which rule: FoundTextComesFromFirstContainingRule; none found: GapHasNoClassification) |
| Classification.Classify | src/app/services/test_result_classifier.py:258-316 | an instrument without a table has no classification (no truthy table or rule list: NoRulesNoClassification) |
| Classification.GapHasNoClassification | src/app/services/test_result_classifier.py:297-316 | a clamped value that falls in no interval has no classification |
| Classification.TextSelection | src/app/services/test_result_classifier.py:305-310 | a non-empty string under `text_key` (default "texto") is the text. A falsy one falls back to "interpretacao". A truthy non-string gives None |
| Classification.NoRulesNoClassification | src/app/services/test_result_classifier.py:267-281 | without a truthy table, or without a truthy rule list, the result is None |
| Classification.ClassificationKeyPreferred | src/app/services/test_result_classifier.py:272-277 | the `classification_key` list is used whenever it is truthy; otherwise the choice is the one made without it ("classificacoes") |
| Classifier.TestResultClassifier.constructor | src/app/services/test_result_classifier.py:18-20 | the classifier holds the tables the loader returned |
| Classifier.TestResultClassifier.ClassifyResults | src/app/services/test_result_classifier.py:23-39 | the result is the copy after every instrument's writes, in source order. An empty dictionary comes back unchanged. Every input key survives, and every value that is neither None nor blank is unchanged |
| Classifier.TestResultClassifier.ClassifyValue | src/app/services/test_result_classifier.py:258-316 | the two loops give the lookup's answer: clamp into the parsed range, take the first containing rule, return its text, post-processed when asked |
| Classifier.TestResultClassifier.StoreClassifications | src/app/services/test_result_classifier.py:115-122 | the dictionary after each item's classify-and-store-if-empty write, in item order |
| Classifier.TestResultClassifier.StoreClassification | src/app/services/test_result_classifier.py:116-122 | one item: nothing without a score or a classification, otherwise a store-if-empty under its field |
| Classifier.TestResultClassifier.ApplyWisc | src/app/services/test_result_classifier.py:42-107 | the dictionary after the WISC writes: the QIT composite, each index's classification and sentence, then the eight subtests |
| Classifier.TestResultClassifier.StoreComposite | src/app/services/test_result_classifier.py:53-58 | the QIT score is QIT_WISC's number, or the mean of the present index scores. QIT_WISC, when absent, gets the rounded mean only when the mean was taken |
| Classifier.TestResultClassifier.StoreIndex | src/app/services/test_result_classifier.py:60-79 | an index without a score writes nothing; one with a score makes the scored-index writes |
| Classifier.TestResultClassifier.StoreScoredIndex | src/app/services/test_result_classifier.py:65-79 | the prefix-stripped classification is stored under `<prefix>_out`. The analysis sentence, when built, is stored under QIT_conclusao or `<prefix>_text_out`. Both writes are store-if-empty |
| Classifier.TestResultClassifier.ApplyRavlt | src/app/services/test_result_classifier.py:109-122 | the five RAVLT percentiles classified into their `_out` fields |
| Classifier.TestResultClassifier.ApplyBpa | src/app/services/test_result_classifier.py:124-165 | the general-attention writes, then AA, AC and AD, as the BPA write list gives them |
| Classifier.TestResultClassifier.StoreGeneral | src/app/services/test_result_classifier.py:136-165 | the general score (AG_BPA, or the mean of the present components) is classified into AG_conclusao and AG_out. Its rounded value goes to AG_BPA when generated, and to AG_pontuacao |
| Classifier.TestResultClassifier.ApplyFdt | src/app/services/test_result_classifier.py:167-184 | CI and FC classified into CI_out and FC_out |
| Classifier.TestResultClassifier.ApplySrs | src/app/services/test_result_classifier.py:186-209 | the band in SRS_ESCORE_T_FAIXA. SRS_NIVEL is "band: interpretation" with SRS_INTERPRETACAO when the table has a non-empty interpretation, and the band alone otherwise |
| Classifier.TestResultClassifier.ApplyEtdah | src/app/services/test_result_classifier.py:211-228 | F1 to F4 and TOTAL classified. TOTAL is read from TOTAL_ETADH when TOTAL_ETDAH is missing or None |
| Classifier.TestResultClassifier.ApplyCars | src/app/services/test_result_classifier.py:230-242 | the "interpretacao" text of the CARS score in CARS_INTERPRETACAO |
| Classifier.TestResultClassifier.ApplyNeupsilin | src/app/services/test_result_classifier.py:244-255 | the task percentile classified into TASK_out |
| ResultWrites.StoreIfEmpty | src/app/services/test_result_classifier.py:373-377 | an absent, None or blank key gets the value; a filled key is left as it is; every other key is untouched |
| ResultWrites.StoreIfEmptyIdempotent | src/app/services/test_result_classifier.py:373-377 | storing the same value twice is storing it once |
| ResultWrites.PerformKeeps | src/app/services/test_result_classifier.py:57-58 | guarded writes, store-if-empty or set-if-absent, never lose a key nor change a value that is neither None nor blank |
| ResultWrites.PerformElsewhere | src/app/services/test_result_classifier.py:374-377 | a key that no write names keeps its presence and its value |
| ResultWrites.ClassifiedAllKeys | src/app/services/test_result_classifier.py:115-122 | the writes for a list of items name only the items' output fields |
| ResultWrites.PresentScores | src/app/services/test_result_classifier.py:140-144 | the list of present components is empty exactly when no raw value is a number |
| ResultWrites.IndexListSteps | src/app/services/test_result_classifier.py:74-79 | an index's writes are the classification, then the sentence when there is one |
| ResultWrites.IndexWritesKeys | src/app/services/test_result_classifier.py:60-79 | the index writes name only the indexes' `_out` and sentence fields |
| ResultWrites.IndexWriteKeys | src/app/services/test_result_classifier.py:74-79 | one index names only its own `_out` field and its sentence field |
| ResultWrites.IndexListKeys | src/app/services/test_result_classifier.py:74-79 | the classification-and-sentence writes name only those two fields |
| ResultWrites.GeneralSteps | src/app/services/test_result_classifier.py:158-165 | the general-attention writes, step by step: AG_conclusao, AG_out, then AG_BPA if generated and absent, then AG_pontuacao if absent |
| ResultWrites.SrsSteps | src/app/services/test_result_classifier.py:200-209 | the SRS writes, step by step, for both outcomes of the interpretation lookup |
| ResultWrites.SrsListKeys | src/app/services/test_result_classifier.py:200-209 | the SRS writes name only its three fields |
| ResultWrites.SimpleWritesKeys | src/app/services/test_result_classifier.py:115-122 | the single-table instruments name only their own output fields |
| ResultWrites.WiscDerivedKeys | src/app/services/test_result_classifier.py:60-107 | the WISC index and subtest writes name only WISC output fields other than QIT_WISC |
| ResultWrites.WiscWritesKeys | src/app/services/test_result_classifier.py:42-107 | WISC writes name only WISC output fields |
| ResultWrites.CompositeKeys | src/app/services/test_result_classifier.py:57-58 | the composite names only QIT_WISC |
| ResultWrites.BpaWritesKeys | src/app/services/test_result_classifier.py:150-165 | BPA's general writes name only the four AG fields; its component writes name AA_out, AC_out and AD_out; all are BPA output fields |
| ResultWrites.GeneralWritesKeys | src/app/services/test_result_classifier.py:158-165 | the general-attention writes name only AG_conclusao, AG_out, AG_BPA and AG_pontuacao |
| ResultWrites.SrsWritesKeys | src/app/services/test_result_classifier.py:186-209 | SRS names only SRS_ESCORE_T_FAIXA, SRS_NIVEL and SRS_INTERPRETACAO |
| ResultWrites.AfterBpaKeys | src/app/services/test_result_classifier.py:167-255 | FDT, SRS, ETDAH, CARS and NEUPSILIN name only their output fields |
| ResultWrites.AfterWiscKeys | src/app/services/test_result_classifier.py:109-255 | the instruments after WISC name only their output fields |
| ResultWrites.InputValuesKept | src/app/services/test_result_classifier.py:25-39 | every input key survives `classify_results`, and every input value that is neither None nor blank is unchanged |
| ResultWrites.OnlyDerivedKeysWritten | src/app/services/test_result_classifier.py:23-39 | a key outside the derived output fields is present and valued exactly as in the input |
| ResultWrites.QitWiscWrittenOnce | src/app/services/test_result_classifier.py:57-58 | after the composite, no later write of `classify_results` names QIT_WISC |
| ResultWrites.WiscCompositeIsMean | src/app/services/test_result_classifier.py:53-58 | with no QIT score but some index scores, an absent QIT_WISC becomes `int(round(mean))` of the index scores |
| ResultWrites.CompositeFirst | src/app/services/test_result_classifier.py:30-31 | when the composite is taken it is the first write of `classify_results` |
| ResultWrites.GeneralEffect | src/app/services/test_result_classifier.py:158-165 | what the general-attention writes leave under each of the four AG keys |
| ResultWrites.BpaGeneralOutputs | src/app/services/test_result_classifier.py:136-165 | with the general score classified as c: blank AG_conclusao and AG_out both become c; an absent AG_pontuacao becomes the rounded score; an absent AG_BPA becomes the rounded mean of the components |
| Numbers.RoundHalfEven | src/app/services/test_result_classifier.py:58 | `round(x)` is within 0.5 of x, and a tie goes to the even integer |
| Numbers.RoundIsNearest | src/app/services/test_result_classifier.py:162 | no integer is nearer to x than `round(x)` |
| Numbers.MeanBetween | src/app/services/test_result_classifier.py:56 | the mean of the components lies between their least and their greatest |
| Numbers.ParseIntegerText | src/app/services/test_result_classifier.py:389-391 | `float(str(i)) == i` for every integer |
| Numbers.BlankTextHasNoScore | src/app/services/test_result_classifier.py:386-388 | a blank text is no score |
| Numbers.IntegerTextScores | src/app/services/test_result_classifier.py:385-393 | the text of an integer is read back as that integer |
| Numbers.ToNumber | src/app/services/test_result_classifier.py:380-394 | a boolean, integer or float always scores, a boolean as 0 or 1 (text: TextToNumber) |
| Numbers.TextToNumber | src/app/services/test_result_classifier.py:385-393 | a blank text is no score (integer text: IntegerTextScores; decimal comma: PercentWithDecimalComma) |
| Numbers.PercentWithDecimalComma | src/app/services/test_result_classifier.py:386-391 | " 12,5% " is the score 12.5 |
| ScoreText.Capitalized | src/app/services/test_result_classifier.py:324 | the empty text stays empty; otherwise only the first character is upper-cased |
| ScoreText.PrefixDroppedInAnyCase | src/app/services/test_result_classifier.py:319-324 | "Pontuação média" and "PONTUAÇÃO média" both become "Média" |
| ScoreText.StripPontuacaoPrefix | src/app/services/test_result_classifier.py:319-324 | carries no ensures of its own: its contract is PrefixDroppedInAnyCase, LeadInDropped, OtherTextsOnlyCapitalized and NoLowerCaseStart |
| ScoreText.LeadInDropped | src/app/services/test_result_classifier.py:319-324 | a lead-in whose lower-case form is "pontuação " is dropped and the rest capitalised |
| ScoreText.OtherTextsOnlyCapitalized | src/app/services/test_result_classifier.py:319-324 | any other text only has its first character changed |
| ScoreText.NoLowerCaseStart | src/app/services/test_result_classifier.py:324 | a non-empty result never starts with a lower-case ASCII letter |
| ScoreText.CollapsedIsNormal | src/app/services/test_result_classifier.py:366 | `" ".join(s.split())` has single spaces between non-empty words and no whitespace at either end |
| ScoreText.WiscTextIsNormal | src/app/services/test_result_classifier.py:360-371 | every ICV, IOP, IMO and IVP sentence built is non-empty and whitespace-normal (the QIT sentence: QitTextLeadsWithClassification) |
| ScoreText.QitTextLeadsWithClassification | src/app/services/test_result_classifier.py:368-371 | the QIT sentence starts with the classification, then ". " and the body when there is one. It is None only when both are empty |
| ScoreText.BuildWiscText | src/app/services/test_result_classifier.py:326-371 | a sentence is never empty, and the QIT sentence starts with the classification (details: WiscTextIsNormal, QitTextLeadsWithClassification, NoTemplateNoText) |
| ScoreText.NoTemplateNoText | src/app/services/test_result_classifier.py:327-343 | without a WISC table, or for a prefix without a template key, there is no sentence |
| Placeholders.TokensFrom | src/app/services/template/extractor.py:58 | the matches of the scan are well-formed `{name}` spans, in text order and not overlapping |
| Placeholders.NamesIffOccurs | src/app/services/template/extractor.py:10 | a name is found in a text exactly when `{name}` occurs somewhere in it |
| Placeholders.ScanReaches | src/app/services/template/extractor.py:58 | every occurrence of `{name}` is one of the scan's matches |
| Placeholders.InterleaveTokens | src/app/services/template/replacer.py:76-89 | splicing every match's value into the text gives the left-to-right reference replacement |
| Placeholders.NoPlaceholderSurvives | src/app/services/template/replacer.py:82-89 | with values free of `{`, and with every `{` of the text opening a placeholder, the replaced text has no placeholder left |
| Extractor.NamesOfMember | src/app/services/template/extractor.py:22-48 | a name is among the names of a paragraph list exactly when one of the paragraphs uses it |
| Extractor.ExtractFromParagraph | src/app/services/template/extractor.py:52-61 | a name is extracted exactly when `{name}` occurs in the paragraph's full text, whichever runs hold its characters |
| Extractor.ExtractFromParagraphs | src/app/services/template/extractor.py:23-24 | the union of the paragraphs' names |
| Extractor.ExtractFromCells | src/app/services/template/extractor.py:68-71 | the union of the names of the cells' paragraphs |
| Extractor.ExtractFromTable | src/app/services/template/extractor.py:63-73 | the union of the names of every paragraph of every cell, row by row |
| Extractor.ExtractFromTables | src/app/services/template/extractor.py:27-28 | the union over the tables |
| Extractor.ExtractFromPart | src/app/services/template/extractor.py:32-38 | a header's or footer's paragraphs, then its tables |
| Extractor.ExtractFromSections | src/app/services/template/extractor.py:30-48 | every section's header, or every section's footer |
| Extractor.ExtractFields | src/app/services/template/extractor.py:12-50 | none for a missing document. Otherwise a name is reported exactly when `{name}` occurs in the text of some body, table, header or footer paragraph |
| Extractor.NamesOfOccurs | src/app/services/template/extractor.py:52-59 | a name is among a paragraph list's names exactly when `{name}` occurs in one of their texts |
| Extractor.NamesOf | src/app/services/template/extractor.py:52-59 | every paragraph's names are among the list's names (the converse: NamesOfMember) |
| Replacer.SpliceWithin | src/app/services/template/replacer.py:113-118 | a match inside one run makes it prefix + replacement + suffix |
| Replacer.Spliced | src/app/services/template/replacer.py:93-130 | replacing a match never changes the number of runs |
| Replacer.ConcatSpliced | src/app/services/template/replacer.py:93-130 | replacing run by run gives the same paragraph text as replacing the span in the full text |
| Replacer.SpliceOutside | src/app/services/template/replacer.py:105-108 | a run that the match does not reach keeps its text |
| Replacer.CollectRunsData | src/app/services/template/replacer.py:95-103 | one entry per run, holding the run's start and end offsets in the paragraph text |
| Replacer.CollectTargetRuns | src/app/services/template/replacer.py:105-108 | exactly the runs that overlap the match, in run order |
| Replacer.ReplaceFieldInRuns | src/app/services/template/replacer.py:93-130 | every run becomes its spliced text, and the paragraph text becomes the full text with the span replaced |
| Replacer.FirstTargetSplice | src/app/services/template/replacer.py:120-122 | over two runs or more, the first run keeps its text before the match, followed by the replacement |
| Replacer.InnerTargetSplice | src/app/services/template/replacer.py:124-125 | runs between the first and the last target lie inside the match and are emptied |
| Replacer.LastTargetSplice | src/app/services/template/replacer.py:127-130 | the last run keeps only its text after the match |
| Replacer.ReplaceAcrossRuns | src/app/services/template/replacer.py:119-130 | the branch for two target runs or more leaves exactly the spliced runs |
| Replacer.ClearRuns | src/app/services/template/replacer.py:124-125 | the runs listed between the first and last target are "", and every other run is unchanged |
| Replacer.AcrossRunsResult | src/app/services/template/replacer.py:119-130 | first run cut and extended, inner runs emptied, last run cut, the rest kept: together these are the spliced runs |
| Replacer.ReplaceInParagraph | src/app/services/template/replacer.py:66-91 | the count is the number of matches, known and unknown alike. The new text is the reference replacement, and an unknown name becomes "". A paragraph without matches is unchanged |
| Replacer.ReplaceStep | src/app/services/template/replacer.py:76-89 | replacing matches last-first keeps the earlier offsets valid: each step extends the replaced suffix by one match |
| Replacer.ReplaceInParagraphs | src/app/services/template/replacer.py:26-28 | for paragraphs listed once, the sum of their counts, and each paragraph replaced |
| Replacer.ReplaceFields | src/app/services/template/replacer.py:12-64 | a missing document is the ValueError. Otherwise the count is the number of matches over body, table, header and footer paragraphs, and each paragraph's text is replaced |
| Replacer.SecondPassCountsNothing | src/app/services/template/replacer.py:66-72 | under the brace conditions, replaced texts hold no placeholder, so a second pass counts 0 |
| TemplateProcessor.TemplateProcessor.constructor | src/app/services/template_processor.py:19-21 | the processor holds the document it was given, if any |
| TemplateProcessor.TemplateProcessor.SetDocument | src/app/services/template_processor.py:27-29 | the bound document is replaced, and nothing else changes |
| TemplateProcessor.TemplateProcessor.Chosen | src/app/services/template_processor.py:33 | the explicit document when one is given, else the bound one |
| TemplateProcessor.TemplateProcessor.ExtractFields | src/app/services/template_processor.py:31-34 | the names of the chosen document: none without one, otherwise exactly the names whose `{name}` occurs in one of its paragraphs |
| TemplateProcessor.TemplateProcessor.ValidateFields | src/app/services/template_processor.py:36-39 | the convention partition of the chosen document's names: the valid ones, and every other name with its reason |
| TemplateProcessor.TemplateProcessor.CheckRequiredFields | src/app/services/template_processor.py:41-43 | exactly the validator's missing and unfilled names |
| TemplateProcessor.TemplateProcessor.ReplaceFields | src/app/services/template_processor.py:45-53 | with no document at all, the ValueError. Otherwise the same document comes back, with each paragraph's text replaced |
| FieldValidator.ValidateFieldName | src/app/services/field_validator.py:22-37 | valid exactly when some pattern matches. The reason names the first matching pattern in declaration order, or quotes the rejected name |
| FieldValidator.Accepted | src/app/services/field_validator.py:50-60 | a name is in the result exactly when it is an input name that passes the convention |
| FieldValidator.Invalid | src/app/services/field_validator.py:50-60 | a name is in the result exactly when it is an input name that fails the convention |
| FieldValidator.PartitionSizes | src/app/services/field_validator.py:50-60 | every input name lands in exactly one of the two lists, as often as it occurs |
| FieldValidator.ValidateFields | src/app/services/field_validator.py:40-60 | the loop builds the valid names, and the invalid names each with its reason |
| FieldValidator.FixedNamesAccepted | src/app/services/field_validator.py:10-14 | the fixed patient, respondent, psychologist and conclusion names are accepted |
| FieldValidator.UpperOutputsAccepted | src/app/services/field_validator.py:15-18 | any `[A-Z0-9_]+` name ending in `_out`, `_conclusao` or `_text_out` is accepted |
| FieldValidator.RejectsMalformedNames | src/app/services/field_validator.py:36-37 | "123field", "field-with-dash", "field.with.dot", "field with space" and "" are rejected |
| FieldValidator.RejectsLowerCase | src/app/services/field_validator.py:9-19 | a lower-case name outside the listed families is rejected |
| FieldValidator.RejectsUnlistedLowerCaseNames | src/app/services/field_validator.py:36-37 | "invalid_field", "patient", "test_field", "random_name" and "bad_field" are rejected |
| FieldValidator.GenericTestOutputs | src/app/services/field_validator.py:15-18 | AG_out and SRS_NIVEL_out match the generic test pattern; AG_out matches neither the WISC nor the ETDAH one |
| TemplateValidator.ListOf | src/app/services/template/validator.py:13 | `list(fields)`: each element of the set exactly once |
| TemplateValidator.ValidateFields | src/app/services/template/validator.py:7-13 | the field validator's partition of the set in some order. Each name is valid or listed once with its reason |
| TemplateValidator.UnfilledText | src/app/services/template/validator.py:27 | a text value is unfilled exactly when it is all whitespace |
| TemplateValidator.UnfilledConstants | src/app/services/template/validator.py:27 | None, False and 0 are unfilled; True is not |
| TemplateValidator.CheckRequiredFields | src/app/services/template/validator.py:15-30 | missing holds exactly the names without an entry; empty holds exactly the names whose entry is unfilled. No name is repeated, and a filled name is in neither list |
| FieldMapper.Assign | src/app/services/field_mapper.py:54-56 | every listed name gets the value, and every other name keeps its text |
| FieldMapper.SetDefaults | src/app/services/field_mapper.py:75-77 | `setdefault` for each name: mapped names keep their text, new ones get the value |
| FieldMapper.FieldMapperService.constructor | src/app/services/field_mapper.py:6-34 | the service's two translation tables, as declared |
| FieldMapper.FieldMapperService.Corrected | src/app/services/field_mapper.py:9 | the service with `primeiro_nome_paciente` taken out of patient_name's aliases |
| FieldMapper.FieldMapperService.GetFieldMapping | src/app/services/field_mapper.py:36-88 | the mapping of the translation tables and the data: groups, first name, tests, conclusion, template fields |
| FieldMapper.Mapping | src/app/services/field_mapper.py:36-88 | carries no ensures of its own: its contract is TemplateFieldsWin, ConclusionNames, ExplicitScoreWins, FirstNameIsFullName and FirstNameIsFirstToken |
| FieldMapper.FieldMapperService.AddFieldsTo | src/app/services/field_mapper.py:49-56 | the nested `add_fields` loop: every item under its key and each of its aliases |
| FieldMapper.FieldMapperService.AddTestsTo | src/app/services/field_mapper.py:71-77 | the test loop: every result under its key, and a default for each alias |
| FieldMapper.SetFirstName | src/app/services/field_mapper.py:63-69 | the first token of the stripped full name, as a default, when the full name is mapped |
| FieldMapper.WriteFields | src/app/services/field_mapper.py:84-86 | each custom template field under its own key only |
| FieldMapper.AssignAll | src/app/services/field_mapper.py:54-56 | the alias loop writes the value under every alias |
| FieldMapper.SetDefaultsAll | src/app/services/field_mapper.py:76-77 | the alias loop of the tests writes a default under every alias |
| FieldMapper.AddFieldsLookup | src/app/services/field_mapper.py:49-61 | a name holds the text of the last item that writes it, under its key or as an alias; without such an item it keeps what it had |
| FieldMapper.AddTestsUntouched | src/app/services/field_mapper.py:71-77 | test items leave alone every name that is neither their key nor an alias of it |
| FieldMapper.AddTestsKeeps | src/app/services/field_mapper.py:75-77 | a mapped name keeps its text through test items whose key is another name |
| FieldMapper.ExplicitTestKeyWins | src/app/services/field_mapper.py:72-77 | a test result's own key shows its own text, whatever items come before or after it |
| FieldMapper.ScoreAliasSource | src/app/services/field_mapper.py:32-34 | only AG_BPA and AG_pontuacao itself write AG_pontuacao among the tests |
| FieldMapper.GeneratedScore | src/app/services/field_mapper.py:72-77 | without an explicit AG_pontuacao, it takes the first AG_BPA's text |
| FieldMapper.TemplateFieldsWin | src/app/services/field_mapper.py:84-86 | a custom template field's text replaces whatever was mapped under its name |
| FieldMapper.ConclusionNames | src/app/services/field_mapper.py:79-82 | conclusion_text and conclusao_text both hold the conclusion, unless a template field takes the name |
| FieldMapper.ExplicitScoreWins | src/app/services/field_mapper.py:71-86 | an explicit AG_pontuacao result is what the mapping shows, in either order of AG_BPA and AG_pontuacao |
| FieldMapper.FirstNameFollowsFullName | src/app/services/field_mapper.py:9 | under the table as written, the first-name placeholder is written exactly where the full name is |
| FieldMapper.FirstNameIsFullName | src/app/services/field_mapper.py:63-69 | as written, the first-name placeholder always shows the whole full name; the first-token default never applies |
| FieldMapper.FirstNameIsFirstToken | src/app/services/field_mapper.py:63-69 | with the corrected table, the first-name placeholder shows the first token of the full name |
| FieldMapper.FirstNameExampleAsWritten | src/app/services/field_mapper.py:9 | for the patient "Ana Souza" the first-name placeholder is "Ana Souza" |
| FieldMapper.FirstNameExampleCorrected | src/app/services/field_mapper.py:66-69 | with the corrected table it is "Ana" |
| DataModel.LaudoDataModel.constructor | src/app/models/data_model.py:8-47 | no template loaded; the default patient, respondent and psychologist groups; no test results; an empty conclusion |
| DataModel.LaudoDataModel.GetAllData | src/app/models/data_model.py:78-88 | the seven entries are the model's fields |
| DataModel.LaudoDataModel.ToDict | src/app/models/data_model.py:123-125 | `to_dict()` equals `get_all_data()` |
| DataModel.LaudoDataModel.SetTemplate | src/app/models/data_model.py:49-52 | path and document set, so `is_template_loaded()` holds; no group changes |
| DataModel.LaudoDataModel.IsTemplateLoaded | src/app/models/data_model.py:127-129 | carries no ensures of its own: it holds exactly when both a template path and a document are held, as SetTemplate's and the constructor's ensures use it |
| DataModel.LaudoDataModel.SetPatientData | src/app/models/data_model.py:54-56 | the given keys take the new values and all others keep theirs; nothing else changes |
| DataModel.LaudoDataModel.SetResp1Data | src/app/models/data_model.py:58-60 | the same merge-update, on the first respondent |
| DataModel.LaudoDataModel.SetResp2Data | src/app/models/data_model.py:62-64 | the same merge-update, on the second respondent |
| DataModel.LaudoDataModel.SetTestResults | src/app/models/data_model.py:66-68 | the same merge-update, on the test results |
| DataModel.LaudoDataModel.SetConclusionText | src/app/models/data_model.py:70-72 | the conclusion is replaced; nothing else changes |
| DataModel.LaudoDataModel.SetPsychologistData | src/app/models/data_model.py:74-76 | the same merge-update, on the psychologist |
| DataModel.LaudoDataModel.GetFieldMapping | src/app/models/data_model.py:90-121 | the mapping of the model's data, groups in source order |
| DataModel.WriteAll | src/app/models/data_model.py:99-100 | one group's loop: the group's values as text, None as "", over what was mapped |
| DataModel.FieldMappingLookup | src/app/models/data_model.py:96-121 | a name is mapped exactly when some group has it, and then to the text of the last group that has it. The order is patient, resp1, resp2, tests, conclusion, psychologist |
| DataModel.FieldMappingKeys | src/app/models/data_model.py:96-121 | the mapped names are every group's keys and conclusao_text |
| DataModel.FieldMapping | src/app/models/data_model.py:96-121 | conclusao_text and every psychologist key are mapped (all keys: FieldMappingKeys; values: FieldMappingLookup) |
| DataModel.ConclusionMapped | src/app/models/data_model.py:115-119 | conclusao_text maps to the conclusion unless the psychologist group uses the name |
| DataModel.DefaultsShowFreshText | src/app/models/data_model.py:14-47 | every default shows as "" except the respondent ages, which show as "0" |
| DataModel.FreshMapping | src/app/models/data_model.py:8-47 | a fresh model maps every name to "", except the respondent ages, which are "0" |
| Strings.CutAt | src/app/services/test_tables_loader.py:26 | the longest prefix of the line in which the pattern does not start; when shorter than the line, the pattern starts right after it |
| TablesLoader.Lines | src/app/services/test_tables_loader.py:22 | the lines hold no line break, and only the empty text has none |
| TablesLoader.StripComment | src/app/services/test_tables_loader.py:23-27 | a line without "//" is unchanged. Otherwise it is cut just before its first "//", and what is left has no "//" |
| TablesLoader.StrippedLines | src/app/services/test_tables_loader.py:22-27 | one stripped line per line, in order |
| TablesLoader.CleanJsonc | src/app/services/test_tables_loader.py:21-28 | the loop's cleaned text is the stripped lines joined by "\n" |
| TablesLoader.StripLine | src/app/services/test_tables_loader.py:23-26 | one pass of the loop is the comment cut |
| TablesLoader.CleanKeepsLines | src/app/services/test_tables_loader.py:21-28 | the cleaned text has one line per input line, each that line without its comment |
| TablesLoader.CommentInsideString | src/app/services/test_tables_loader.py:24-26 | "//" is cut even inside a JSON string: `"http://x"` becomes `"http:` |
| TablesLoader.KeyOfTableStem | src/app/services/test_tables_loader.py:39 | the stem `name_table`, with no other "_table" in it, gives the key `name` |
| TablesLoader.KeyOf | src/app/services/test_tables_loader.py:39 | carries no ensures of its own: its contract is KeyOfTableStem |
| TablesLoader.Glob | src/app/services/test_tables_loader.py:35 | exactly the listed files whose stem ends in "_table" |
| TablesLoader.TestTablesLoader.constructor | src/app/services/test_tables_loader.py:13-16 | an empty cache |
| TablesLoader.TestTablesLoader.LoadJsonc | src/app/services/test_tables_loader.py:18-29 | read, strip comments, parse; None where reading or parsing fails |
| TablesLoader.TestTablesLoader.LoadAll | src/app/services/test_tables_loader.py:31-45 | a non-empty cache is returned unchanged; an empty one is filled from the matched files that parse |
| TablesLoader.TestTablesLoader.Get | src/app/services/test_tables_loader.py:47-50 | loads only while the cache is empty; None for an unknown key |
| TablesLoader.LoadedLookup | src/app/services/test_tables_loader.py:36-43 | a key is cached exactly when some matched file with that key parses, and then holds the last such file's table |
| TablesLoader.UnparsedFileSkipped | src/app/services/test_tables_loader.py:41-43 | a file that fails is skipped, and the others are cached as if it were absent |
| TablesLoader.LoadAllSettles | src/app/services/test_tables_loader.py:32-33 | once the cache is non-empty, `load_all` changes nothing |
| TablesLoader.EmptyScanRescans | src/app/services/test_tables_loader.py:32-35 | a scan that caches nothing leaves the cache empty, so the next call scans again |
| FieldsLoader.TemplateFieldsLoader.constructor | src/app/services/template_fields_loader.py:9-12 | nothing cached |
| FieldsLoader.TemplateFieldsLoader.LoadConfig | src/app/services/template_fields_loader.py:14-19 | the file is read only while nothing is cached; the cache is what is returned |
| FieldsLoader.TemplateFieldsLoader.GetAllFields | src/app/services/template_fields_loader.py:21-28 | the fields of the current configuration, by name |
| FieldsLoader.TemplateFieldsLoader.IterSections | src/app/services/template_fields_loader.py:30-33 | the sections of the current configuration, in order |
| FieldsLoader.CollectFields | src/app/services/template_fields_loader.py:25-27 | the nested loops give the named fields, or the KeyError of a field without a name |
| FieldsLoader.UnnamedField | src/app/services/template_fields_loader.py:27 | one field without a name makes the whole request fail |
| FieldsLoader.NamedLookup | src/app/services/template_fields_loader.py:25-27 | every field name has an entry, holding the last field with that name; no other name has one |
| FieldsLoader.NoSectionsNoFields | src/app/services/template_fields_loader.py:25 | a configuration without "sections" yields no fields and no sections |
| FieldsLoader.CacheIsKept | src/app/services/template_fields_loader.py:16-19 | once cached, every later request works on the cached configuration, whatever the file holds then |
| PatientService.FirstNameIsLeadingWord | src/app/services/patient_service.py:8-12 | "" exactly for a non-string or blank name. Otherwise the longest whitespace-free prefix of the stripped name, which is non-empty |
| PatientService.ExtractFirstName | src/app/services/patient_service.py:8-12 | the first name is a single word, with no whitespace (which word: FirstNameIsLeadingWord) |
| PatientService.ParseDate | src/app/services/patient_service.py:22 | a parsed date is a date that exists |
| PatientService.AgeIsCompletedYears | src/app/services/patient_service.py:24 | for a birth date not after today, the age is the number of completed years: non-negative, with its anniversary not after today and the next one after it |
| PatientService.NoTextNoAge | src/app/services/patient_service.py:17-18 | a non-string or empty value has no age |
| PatientService.ParseFormatted | src/app/services/patient_service.py:22 | every existing date written DD/MM/YYYY parses back to itself |
| PatientService.AgeOfFormattedDate | src/app/services/patient_service.py:20-25 | the age of a date written DD/MM/YYYY is its number of whole years |
| PatientService.CalculateAge | src/app/services/patient_service.py:15-27 | an age exactly for a text that parses as a valid DD/MM/YYYY date, None otherwise (its value: AgeOfFormattedDate) |
| PatientService.NonexistentDayHasNoAge | src/app/services/patient_service.py:26-27 | a day past the end of its month (31/04, 29/02 of a common year) has no age |
| ReportSummary.ItemLine | src/app/services/report_summary_service.py:40-56 | Quati gets a line exactly when its classification is truthy. Any other item gets one exactly when its percentile or classification is truthy. Every line starts with "- test (label):" |
| ReportSummary.LayoutText | src/app/services/report_summary_service.py:63 | the text has no whitespace at either end |
| ReportSummary.BuildSummaryText | src/app/services/report_summary_service.py:29-63 | the loops build the layout's summary |
| ReportSummary.LayoutLines | src/app/services/report_summary_service.py:33-61 | the blocks of the categories that have lines, in layout order |
| ReportSummary.LinesOf | src/app/services/report_summary_service.py:35-56 | a category's item lines, in order |
| ReportSummary.LineOf | src/app/services/report_summary_service.py:40-56 | the loop body builds the item's line |
| ReportSummary.ItemLineReadsItsKeys | src/app/services/report_summary_service.py:40-41 | an item's line depends only on its two keys |
| ReportSummary.IgnoresOtherKeys | src/app/services/report_summary_service.py:35-41 | keys the layout does not name never change the summary |
| ReportSummary.EmptyWithoutData | src/app/services/report_summary_service.py:33-61 | with no truthy value under the layout's keys there are no lines |
| ReportSummary.NoDataNoSummary | src/app/services/report_summary_service.py:29-63 | results without any layout data give "" |
| ReportSummary.HeaderOnlyWithLines | src/app/services/report_summary_service.py:58-61 | a category header is emitted exactly when some category of that name has an item line |
| ReportSummary.LinesAreItemLines | src/app/services/report_summary_service.py:46-56 | every item line is non-empty and starts with "-" |
| ReportSummary.LayoutHeaders | src/app/services/report_summary_service.py:58-61 | each category of the layout has its header exactly when it has an item line |
| ReportSummary.LayoutCategoriesDistinct | src/app/services/report_summary_service.py:7-27 | the layout's categories are distinct |
| ReportSummary.QuatiHasNoPercentile | src/app/services/report_summary_service.py:44-47 | Quati never reads a percentile, and its line is its classification alone |
| Navigation.IndexOf | src/app/controllers/navigation_controller.py:57 | the widget's first position, or -1 exactly when it is not in the stack |
| Navigation.NavigationController.constructor | src/app/controllers/navigation_controller.py:7-10 | no callbacks registered, nothing fired |
| Navigation.NavigationController.RegisterBeforeNavigation | src/app/controllers/navigation_controller.py:12-14 | a later registration for a screen replaces the earlier one; nothing else changes |
| Navigation.NavigationController.RegisterAfterNavigation | src/app/controllers/navigation_controller.py:16-18 | likewise for entering callbacks |
| Navigation.NavigationController.FireBefore | src/app/controllers/navigation_controller.py:25-26 | fires the leaving callback when one is registered |
| Navigation.NavigationController.FireAfter | src/app/controllers/navigation_controller.py:32-33 | fires the entering callback when one is registered |
| Navigation.NavigationController.SetCurrentIndex | src/app/controllers/navigation_controller.py:35 | the index changes and the change is recorded |
| Navigation.NavigationController.NextScreen | src/app/controllers/navigation_controller.py:20-35 | before(current) always fires. When a next screen exists, after(next) fires and the index moves; otherwise it stays. The index stays in range |
| Navigation.NavigationController.PreviousScreen | src/app/controllers/navigation_controller.py:37-52 | symmetric: before(current) fires even at index 0; the index moves only when above 0 |
| Navigation.NavigationController.GoToScreen | src/app/controllers/navigation_controller.py:54-70 | nothing for a widget not in the stack or already shown; otherwise before, after, then the index |
| Navigation.MovesStayInRange | src/app/controllers/navigation_controller.py:28-52 | moving forwards or backwards keeps an index the widget can show |
| Navigation.NextThenPrevious | src/app/controllers/navigation_controller.py:28-52 | forwards then backwards returns to the screen, except from the last one |
| Navigation.PreviousThenNext | src/app/controllers/navigation_controller.py:28-52 | backwards then forwards returns to the screen, except from the first one |
| Navigation.MovesAreOrdered | src/app/controllers/navigation_controller.py:20-70 | every move fires leaving before entering, and changes the index last |
| Navigation.ShownIffMoved | src/app/controllers/navigation_controller.py:28-52 | the index changes exactly when the move records a change |
| Navigation.GoToShownDoesNothing | src/app/controllers/navigation_controller.py:59-60 | `go_to_screen` on a widget not in the stack, or on the shown one, fires nothing |

## Left out

- Qt, files and JSON. Views, file reading, globbing and JSON parsing are not modelled.
  The tables loader takes the directory listing (stem and text of each `.jsonc` file)
  and a parser function. The fields loader takes the configuration the file would
  give. A read or parse failure is None.
- `date.today()` is a parameter of the age, and `print` in `replace_fields` is left out.
- Python floats are exact reals. `float()` of text accepts only a plain decimal:
  an optional sign, digits, an optional point, and surrounding ASCII whitespace.
  Exponents, inf/nan, underscores and non-ASCII digits are not modelled, and neither is
  `str()` of a float, which is carried as text in the value.
- Whitespace is ASCII only, as `str.isspace` gives it on ASCII. Upper and lower case
  cover ASCII and Latin-1 letters only.
- `splitlines()` treats only "\n" as a line break.
- `strptime` accepts ASCII digits only. Its acceptance of leading spaces in `%d`/`%m`
  follows the CPython regexes for those directives.
- Classifier.TestResultClassifier.ClassifyResults: a non-dictionary argument is not
  modelled, because the typed model always receives a dictionary.
- Classifier.TestResultClassifier.ClassifyResults: requires all eight instrument tables
  to be well formed, whatever the scores. Well formed means every truthy table is an
  object, and its selected rule list is a list of objects. The source reads a table
  only to classify a score that is present (test_result_classifier.py:267-286). It
  therefore tolerates a malformed table while that instrument's scores are absent,
  and the model does not describe that case. Classifying a present score against a
  malformed table raises in the source: AttributeError for a table or rule that is
  not an object, TypeError for a rule list that is not iterable (line 279).
- Replacer.ReplaceFields: its count and per-paragraph texts are stated only for
  documents that list each paragraph once. python-docx gives merged table cells the
  same paragraph objects, and a paragraph replaced twice is not described.
- Replacer.ReplaceInParagraphs: the same condition; the count and the texts are stated
  only for lists that hold each paragraph once.
- TemplateProcessor.TemplateProcessor.ReplaceFields: the same condition, inherited
  from Replacer.ReplaceFields; the texts are stated only for a chosen document that
  lists each paragraph once.
- The document model is abstract. A paragraph is its run texts, and formatting is not
  modelled.
- FieldMapper: a source dictionary is its list of items in insertion order, since the
  order decides clashes. The `template_fields` entry of `all_data` is taken when given;
  the data model's `get_all_data` does not provide it.
- Navigation: the screens are a fixed widget list given at construction. A callback is
  an event in the trace, and its own effects are not modelled.
- The template-fields configuration is typed. Sections and fields are records with an
  optional "sections", "fields" or "name" entry; other shapes raise in the source.
- DataModel: `conclusion_text` is modelled as a string. The dictionaries returned by
  `get_all_data` alias the model's own in the source; here they are copies.
- FieldValidator: `get_expected_field_categories` is a fixed display table, not used
  in validation.
- TemplateProcessor: `save_document` and `convert_to_pdf` are file I/O.
- The regex `$` also matches before a final "\n". This is modelled in `Matches`, but
  the rejection lemmas state only names without a newline.
- The source's tests expect unmatched names to be accepted. The code rejects them, and
  the model follows the code.

## Findings

| source | as written | input that shows it | evidently intended | confidence | as-written member | corrected member |
|---|---|---|---|---|---|---|
| src/app/services/field_mapper.py:9 | `patient_name` lists `primeiro_nome_paciente` among its aliases. The alias is written together with the full name, so the `setdefault` of the first token at line 69 never applies, and the first-name placeholder shows the whole name | patient_name "Ana Souza" | the first-name placeholder shows the first token, "Ana" | not executed | FieldMapper.FirstNameIsFullName, FieldMapper.FirstNameExampleAsWritten | FieldMapper.FirstNameIsFirstToken, FieldMapper.FirstNameExampleCorrected |
