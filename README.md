# smartsop: the document builder, the feedback store and their helpers

This project models the back-end logic of smartsop, a tool that writes Standard
Operating Procedures (SOPs) and batch records and learns from user feedback:

- `WordDocumentGenerator` (module `WordGenerator`, with `Sections`,
  `NkTemplate` and `Docx`). It builds an SOP document. Free text is cut at its
  numbered section and subsection headings into `Heading 1`, `Heading 2` and
  plain paragraphs. The text `nk_cell_thawing` as template type selects a fixed
  NK-cell thawing template instead. The document gets a title, an information
  table and a footer, and its file name is the slugged title plus a timestamp.
  The document is a value: a sequence of elements (`Para(style, text)`,
  `Step(number, text)`, `Table(rows)`, `Title`, `Break`) plus a header table and
  footer lines. The generator's helpers are methods that append to it in loops,
  each proved against a function that specifies what it appends.
- `DataCollector` (module `Collector`). It keeps each generated document as a
  JSON record in one of two directories, adds feedback to a record, draws the
  records with feedback as training data and counts statistics. A directory is
  a map from file name to record.
- `SOPModel` (module `SopModel`). It keeps the list of training examples and its
  file, turns the list into a dataset of formatted texts, guards fine-tuning and
  formats the generation prompt.
- `SecurityManager.is_domain_allowed` and `DataProtection.sanitize_training_data`
  (module `Security`).
- The `lineBreaks` display pipe of the web front end (module `LineBreaks`).

Supporting modules:
- `Text` models the Python string operations used: `strip`, `split`, `lower`,
  substring search and whitespace.
- `Clock` models the `strftime` renderings of one instant.
- `Paths` models `os.path.join` and `basename`.
- `Json` and `Wrappers` hold the JSON values and the `Option` and `Result` types.

The central results about the free-text parser (`Sections`) are these:
- it drops nothing but whitespace;
- every paragraph it emits is non-empty and stripped, and every heading carries
  its heading number;
- it never emits a `Heading 2` before the first `Heading 1`;
- every chunk after the first opens with a heading;
- text without heading lines becomes one paragraph per non-blank line.

`ParserExample` works the six-line example document through the parser.

## Model

| member | source | states |
|---|---|---|
| Sections.OnlyWhitespaceDropped | ml_model/word_generator.py:166-217 | the texts the general-content parser emits, with whitespace removed, are the content with whitespace removed, in order |
| Sections.ContentClean | ml_model/word_generator.py:172-217 | every element the parser emits is a paragraph with non-empty stripped text; a `Heading 1` carries a `N.` number and a `Heading 2` a `N.M` number (no capital letter required) |
| Sections.NoSubheadingBeforeHeading | ml_model/word_generator.py:169-212 | every `Heading 2` the parser emits has a `Heading 1` before it |
| Sections.LaterPiecesOpenWithHeading | ml_model/word_generator.py:169 | every piece of `re.split(r'\n\s*(?=…)')` after the first opens with the heading pattern of that level |
| Sections.FirstPieceOpensWithHeading | ml_model/word_generator.py:169 | text that opens with a heading keeps it at the start of its first piece |
| Sections.SplitKeepsText | ml_model/word_generator.py:169 | splitting at heading lines drops only the whitespace separators |
| Sections.NextBoundaryFound | ml_model/word_generator.py:169 | the split point found is a `\n\s*` followed by a heading |
| Sections.NextBoundaryFirst | ml_model/word_generator.py:169 | no split point lies before the one found, so the leftmost match splits first |
| Sections.FlatText | ml_model/word_generator.py:169-179 | text without a numbered heading line becomes exactly the paragraphs of its lines |
| Sections.NoSplitWithoutHeadingLine | ml_model/word_generator.py:169 | without a heading line the split yields the whole text as one piece |
| Sections.ParagraphsPerLine | ml_model/word_generator.py:176-178 | one `Normal` paragraph per non-blank line, holding that line stripped, in order |
| Sections.LineParasPerLine | ml_model/word_generator.py:176-178 | the same, over lines already cut at the newlines |
| Sections.ParagraphsKeepText | ml_model/word_generator.py:176-178 | the paragraphs of a text hold all its non-whitespace characters in order |
| Sections.HeadingTitle | ml_model/word_generator.py:182 | the heading match is a prefix of the piece that reaches past its heading number |
| Sections.StrippedHeading | ml_model/word_generator.py:184 | stripping such a prefix leaves a non-empty prefix of the piece with the same heading number |
| Sections.HeadingClean | ml_model/word_generator.py:182-186 | a matched heading gives a clean `Heading 1` or `Heading 2` |
| Sections.GeneralContent | ml_model/word_generator.py:166-217 | what `_add_general_content` appends: the chunks of the section split, each by the branch that fits it; it has no contract of its own, and ContentClean, OnlyWhitespaceDropped and NoSubheadingBeforeHeading state its properties |
| Sections.SplitAtHeadings | ml_model/word_generator.py:169 | `re.split` at every `\n\s*` followed by a heading of the level gives at least one piece; SplitKeepsText, FirstPieceOpensWithHeading and LaterPiecesOpenWithHeading state what the pieces are |
| Sections.HeadingLine | ml_model/word_generator.py:182 | a match of `(\d+\.\s+[^\n]+)` (or its `N.M` form) is a prefix of the piece, which opens with a number of that level |
| Sections.Paragraphs | ml_model/word_generator.py:176-178 | every paragraph of `for line in text.split('\n')` is `Normal` with non-empty stripped text; ParagraphsPerLine states which lines give one |
| Sections.ChunkElements | ml_model/word_generator.py:173-217 | one chunk: the paragraphs of its lines when it is the leading chunk without a heading or has no heading match, else its `Heading 1` and its section body; it has no contract of its own, and ChunkClean and ChunkKeepsText state its properties |
| Sections.SubsectionElements | ml_model/word_generator.py:196-212 | every element of one subsection is clean: a non-empty stripped `Normal` paragraph, or a `Heading 2` that opens with an `N.M` number |
| Sections.SectionBody | ml_model/word_generator.py:189-212 | every element of a section body, cut at its subsection headings, is clean |
| Sections.ChunkClean | ml_model/word_generator.py:172-217 | every element of one chunk is clean |
| Sections.ChunkKeepsText | ml_model/word_generator.py:172-217 | one chunk's elements keep its non-whitespace text |
| Sections.SubsectionKeepsText | ml_model/word_generator.py:194-212 | one subsection's elements keep its non-whitespace text |
| Sections.SectionBodyKeepsText | ml_model/word_generator.py:189-212 | a section body's elements keep its non-whitespace text |
| Sections.IndexOf | ml_model/word_generator.py:174 | `sections.index(section)` is the first position holding an equal piece |
| ParserExample.WorkedExample | ml_model/word_generator.py:169-207 | `1. Purpose / Do X. / 2. Scope / Do Y. / 2.1 Detail / Do Z.` gives H1, P, H1, P, H2, P with those texts |
| ParserExample.TwoSections | ml_model/word_generator.py:169-207 | the same for any document of that shape: two section heading lines `D. C…`, each followed by a capitalised line, then a subsection heading line `D.D C…` and a capitalised line |
| ParserExample.SplitBeforeHeading | ml_model/word_generator.py:169 | a line followed by a heading line is split off as a piece of its own |
| ParserExample.JoinLine | ml_model/word_generator.py:169 | a line followed by anything but a heading joins the first piece of the rest |
| ParserExample.OneLine | ml_model/word_generator.py:169 | a single line is never split |
| ParserExample.HeadingLineIs | ml_model/word_generator.py:182 | the heading match on a heading line followed by more lines is that whole line |
| ParserExample.SubsectionStart | ml_model/word_generator.py:192-196 | `D.D C…` opens a subsection heading and no section heading |
| WordGenerator.WordDocumentGenerator.constructor | ml_model/word_generator.py:15-16 | the output directory is the one given |
| WordGenerator.WordDocumentGenerator.GenerateSopDocument | ml_model/word_generator.py:20-77 | the path is the output directory joined with the file name of the resolved title; the saved body is the preamble then the template or the parsed content; header and footer as written |
| WordGenerator.FindFrom | ml_model/word_generator.py:44 | the result is the first occurrence of the pattern at or after the start, or none when there is none |
| WordGenerator.ResolveTitle | ml_model/word_generator.py:43-48 | a given non-empty title is kept as it is; otherwise the title is stripped and holds no line break (the `Title:` line or the default); TitleRoundTrip states the `Title:` case |
| WordGenerator.UsesTemplate | ml_model/word_generator.py:61 | `template_type and template_type.lower() == "nk_cell_thawing"`; it has no contract of its own, and TemplateDocument and GeneralDocument state what each answer selects |
| WordGenerator.SopBody | ml_model/word_generator.py:50-65 | the body `generate_sop_document` builds; it has no contract of its own, and TemplateDocument, GeneralDocument and GeneralContentKept state its properties |
| WordGenerator.TitleFound | ml_model/word_generator.py:43-48 | a title is taken from the content exactly when `Title:` occurs in it |
| WordGenerator.TitleRoundTrip | ml_model/word_generator.py:43-48 | with no title or an empty one, a `Title: t` first line, `t` holding no line break and some non-blank character, names the document `t.strip()` |
| WordGenerator.ExtractTitle | ml_model/word_generator.py:44-46 | the captured title holds no line break |
| WordGenerator.KeepSafe | ml_model/word_generator.py:72 | `re.sub(r'[^\w\s-]', '', s)` leaves only word characters, whitespace and `-` |
| WordGenerator.Underscores | ml_model/word_generator.py:72 | `replace(' ', '_')` keeps the length, leaves no space and every other character as it was |
| WordGenerator.Slug | ml_model/word_generator.py:72 | the slug holds only word characters, whitespace other than space, and `-`, and is stripped |
| WordGenerator.SlugIdempotent | ml_model/word_generator.py:72 | slugging a slug changes nothing |
| WordGenerator.FileName | ml_model/word_generator.py:71-73 | the file name is non-empty, holds no `/` or `\`, ends in `.docx`, and its only `.` is that of `.docx`, so it holds no `..` |
| WordGenerator.FileNameInjective | ml_model/word_generator.py:71-73 | two file names agree exactly when the slugs agree and the instants are the same second |
| WordGenerator.SavedUnderFileName | ml_model/word_generator.py:73-76 | the saved path's base name is the file name |
| WordGenerator.InfoRows | ml_model/word_generator.py:135-154 | the information table is four rows of two cells |
| WordGenerator.HeaderRows | ml_model/word_generator.py:115-130 | the one-row header table `COMPANY LOGO` and the document type; it has no contract of its own, and AddHeader states where it goes |
| WordGenerator.FooterLines | ml_model/word_generator.py:370-380 | `Page ` and the `Generated on … \| CONFIDENTIAL` line; it has no contract of its own, and DatesAgree states its date |
| WordGenerator.DatesAgree | ml_model/word_generator.py:142-146 | the default ID is `SOP-` and the timestamp's date; the effective date and the footer's date are the same ISO date |
| WordGenerator.TemplateDocument | ml_model/word_generator.py:61-62 | with the template type, the body's headings, step numbers, bullets and tables are the template's, whatever the content |
| WordGenerator.GeneralDocument | ml_model/word_generator.py:63-65 | otherwise the body is title, information table (its only table) and the parsed content |
| WordGenerator.GeneralContentKept | ml_model/word_generator.py:63-65 | otherwise the content part keeps all non-whitespace text and puts no `Heading 2` first |
| WordGenerator.WordDocumentGenerator.AddHeader | ml_model/word_generator.py:109-133 | the header table is set and one line break is appended |
| WordGenerator.WordDocumentGenerator.AddDocumentInfoTable | ml_model/word_generator.py:135-164 | the information table and an empty paragraph are appended |
| WordGenerator.WordDocumentGenerator.AddGeneralContent | ml_model/word_generator.py:166-217 | appends exactly the parsed content and changes nothing else |
| WordGenerator.WordDocumentGenerator.AddChunks | ml_model/word_generator.py:172-217 | the loop over chunks appends each chunk's elements in order |
| WordGenerator.WordDocumentGenerator.AddChunk | ml_model/word_generator.py:173-217 | one chunk: its paragraphs, or its heading and its subsections |
| WordGenerator.WordDocumentGenerator.AddSectionBody | ml_model/word_generator.py:189-192 | a section body cut at its subsection headings |
| WordGenerator.WordDocumentGenerator.AddSubsections | ml_model/word_generator.py:194-212 | the loop over subsections appends each one's elements in order |
| WordGenerator.WordDocumentGenerator.AddSubsection | ml_model/word_generator.py:196-212 | one subsection: its heading and lines, or its lines |
| WordGenerator.WordDocumentGenerator.AddLines | ml_model/word_generator.py:176-178 | one stripped paragraph per non-blank line |
| WordGenerator.WordDocumentGenerator.AddLineList | ml_model/word_generator.py:176-178 | the same loop over lines already cut |
| WordGenerator.WordDocumentGenerator.AddNkCellThawingTemplate | ml_model/word_generator.py:219-362 | appends exactly the filled template; the content is not read |
| WordGenerator.WordDocumentGenerator.AddBullets | ml_model/word_generator.py:254-256 | one `List Bullet` paragraph per item, in order |
| WordGenerator.WordDocumentGenerator.AddSteps | ml_model/word_generator.py:271-274 | one step per item, numbered `prefix1 `, `prefix2 `, … |
| WordGenerator.WordDocumentGenerator.AddFooter | ml_model/word_generator.py:364-381 | the footer gets `Page ` and the generation-date line |
| NkTemplate.FillOutline | ml_model/word_generator.py:222-345 | the template's headings are `1. PURPOSE` … `8. REVISION HISTORY` with `5.1`–`5.4` as `Heading 2` inside section 5, in order |
| NkTemplate.FillSteps | ml_model/word_generator.py:259-325 | the step numbers are `5.k.i ` with `i` running from 1 in each subsection |
| NkTemplate.FillBullets | ml_model/word_generator.py:238-256 | the bullets are the materials followed by the references |
| NkTemplate.FillTables | ml_model/word_generator.py:348-362 | the template holds one table, the revision history |
| NkTemplate.RevisionRows | ml_model/word_generator.py:348-362 | the revision table is 2×4 |
| NkTemplate.NkStepCounts | ml_model/word_generator.py:263-320 | the four subsections hold 5, 12, 5 and 4 steps |
| NkTemplate.NkListCounts | ml_model/word_generator.py:238-338 | 13 materials and 3 references |
| NkTemplate.StepsNumbers | ml_model/word_generator.py:271-274 | `enumerate(steps, 1)` numbers the steps consecutively from 1 |
| NkTemplate.LabelsDistinct | ml_model/word_generator.py:271-274 | no two steps of a subsection share a number |
| NkTemplate.BulletsListItems | ml_model/word_generator.py:254-256 | the bullets' texts are the items |
| NkTemplate.Fill | ml_model/word_generator.py:219-362 | the filled template: opening, procedure and closing in order; it has no contract of its own, and FillOutline, FillSteps, FillBullets and FillTables state its properties |
| NkTemplate.Opening | ml_model/word_generator.py:221-256 | sections 1 to 4 with the materials list; no contract of its own, FillOutline and FillBullets state it |
| NkTemplate.Procedure | ml_model/word_generator.py:259-325 | section 5 with its four subsections of numbered steps; no contract of its own, FillOutline and FillSteps state it |
| NkTemplate.Closing | ml_model/word_generator.py:327-362 | sections 6 to 8 with the references and the revision table; no contract of its own, FillOutline, FillBullets and FillTables state it |
| NkTemplate.Steps | ml_model/word_generator.py:271-274 | one step per item; StepsNumbers states the numbering |
| NkTemplate.Bullets | ml_model/word_generator.py:254-256 | one bullet per item; BulletsListItems states their texts |
| Clock.StampInjective | ml_model/word_generator.py:71 | two instants give the same `%Y%m%d_%H%M%S` stamp exactly when they are the same second |
| Clock.IsoFromCompact | ml_model/word_generator.py:142-146 | `%Y-%m-%d` is `%Y%m%d` with dashes after the year and the month |
| Clock.Stamp | ml_model/word_generator.py:71 | `%Y%m%d_%H%M%S` is fifteen characters, digits with `_` at position 8; StampInjective states that it tells seconds apart |
| Clock.CompactDate | ml_model/word_generator.py:142 | `%Y%m%d` is eight characters |
| Clock.IsoDate | ml_model/word_generator.py:146 | `%Y-%m-%d` is ten characters with dashes at positions 4 and 7 |
| Text.Strip | ml_model/word_generator.py:177 | `strip()` gives a text that neither begins nor ends with whitespace, is the input after its leading whitespace with only whitespace after it, and is empty exactly when the input is all whitespace |
| Text.SplitOn | ml_model/word_generator.py:176 | `split('\n')` gives at least one piece and no piece holds the separator; JoinSplit states that joining gives the text back |
| Text.Lower | ml_model/data_collector.py:39 | `lower()` keeps the length and lowers each character |
| Text.StripLeading | ml_model/word_generator.py:44-46 | stripping ignores the leading whitespace that was already skipped |
| Paths.JoinPath | ml_model/word_generator.py:74 | `os.path.join`; it has no contract of its own, and BasenameOfJoin states the round trip |
| Paths.Basename | ml_model/data_collector.py:55 | the base name of a path holds no `/` |
| Docx.Document.constructor | ml_model/word_generator.py:33-34 | a new document is empty |
| Docx.Document.AddParagraph | ml_model/word_generator.py:178 | one paragraph is appended; the header and the footer stay as they were |
| Docx.Document.AddStep | ml_model/word_generator.py:272-274 | one numbered step is appended; the header and the footer stay as they were |
| Docx.Document.AddTitle | ml_model/word_generator.py:51-55 | the title is appended; the header and the footer stay as they were |
| Docx.Document.AddBreak | ml_model/word_generator.py:133 | one line break is appended; the header and the footer stay as they were |
| Docx.Document.AddTable | ml_model/word_generator.py:137-154 | one table is appended; the header and the footer stay as they were |
| Docx.Document.SetHeaderTable | ml_model/word_generator.py:115-130 | the header table is set; the body and the footer stay as they were |
| Docx.Document.AddFooterParagraph | ml_model/word_generator.py:370-380 | one footer paragraph is appended; the body and the header stay as they were |
| Paths.BasenameOfJoin | ml_model/word_generator.py:74 | joining a file name without `/` to a directory and taking the base name gives the name back |
| Collector.DataCollector.constructor | ml_model/data_collector.py:7-18 | the two directories are `sops` and `batch_records` under the data directory |
| Collector.NewRecord | ml_model/data_collector.py:28-36 | a new record carries no feedback, so it is neither drawn nor counted as having feedback until `add_feedback`; it keeps the input, the content and the timestamp |
| Collector.FileKey | ml_model/data_collector.py:42 | the file name ends in `.json`, so the listing loops read it, and opens with the timestamp; FileKeyCollision states when two agree |
| Collector.DataCollector.SaveDocument | ml_model/data_collector.py:20-48 | the new record goes under `<timestamp>_<lowertype>.json` in `sops` exactly when the lowered type is `sop`, else in `batch_records`, replacing a same-named one; the other directory is unchanged |
| Collector.FileKeyCollision | ml_model/data_collector.py:26-42 | two saves share a file exactly when they happen in the same second with the same lowered type |
| Collector.WithFeedback | ml_model/data_collector.py:63-67 | only `feedback` changes, to the new score, text and timestamp; `feedback_timestamp` stays as it was |
| Collector.DataCollector.AddFeedback | ml_model/data_collector.py:50-71 | a path that is not the exact path of a record (as `save_document` spells it) gives `FileNotFoundError` and changes nothing; otherwise only that record's feedback is replaced |
| Collector.DataCollector.Locate | ml_model/data_collector.py:55 | a found path is, as a string, the join of that directory with a file name in it |
| Collector.DataCollector.LocateExactly | ml_model/data_collector.py:55 | a path is found exactly when it names a file of one of the two directories |
| Collector.DataCollector.GetTrainingData | ml_model/data_collector.py:73-103 | the examples drawn from the SOP directory, then those from the batch-record directory |
| Collector.ProcessDirectory | ml_model/data_collector.py:78-97 | the loop appends what one directory gives |
| Collector.Drawn | ml_model/data_collector.py:78-97 | at most one example per file, each typed by its directory |
| Collector.DrawnExactly | ml_model/data_collector.py:80-97 | an example is drawn exactly when it comes from a listed `.json` file whose record has feedback with a score at least the minimum |
| Collector.DrawnFromEveryQualifying | ml_model/data_collector.py:80-97 | every qualifying record of a directory is drawn |
| Collector.DrawnMonotone | ml_model/data_collector.py:90 | a higher minimum never draws more |
| Collector.Qualifies | ml_model/data_collector.py:86-90 | `data.get('feedback')` and the minimum; it has no contract of its own, and DrawnExactly states it |
| Collector.Draw | ml_model/data_collector.py:80-97 | what one file adds; it has no contract of its own, and DrawnExactly states it |
| Collector.DataCollector.GetStatistics | ml_model/data_collector.py:105-140 | the statistics of the two listed directories |
| Collector.CountDirectory | ml_model/data_collector.py:118-130 | the loop counts the `.json` files, those with feedback, and collects their scores |
| Collector.Tally | ml_model/data_collector.py:118-130 | with feedback ≤ total ≤ number of files |
| Collector.Scores | ml_model/data_collector.py:127-130 | the collected scores; no contract of its own, AverageOverFedScores and StatisticsAverageBounds state them |
| Collector.Average | ml_model/data_collector.py:136-138 | `sum / len` or 0; no contract of its own, AverageBounds states it |
| Collector.StatisticsOf | ml_model/data_collector.py:105-140 | what `get_statistics` reports; no contract of its own, StatisticsConsistent and StatisticsAverageBounds state it |
| Collector.StatisticsConsistent | ml_model/data_collector.py:107-134 | the totals are the sums of the per-type counts, each type has no more with feedback than in total, and the number with feedback is the size of `get_training_data()` |
| Collector.FeedbackCountIsTrainingSize | ml_model/data_collector.py:86-130 | per directory, the count with feedback is the number of examples drawn without a minimum |
| Collector.AverageOverFedScores | ml_model/data_collector.py:136-138 | the average is taken over one score per document with feedback |
| Collector.AverageBounds | ml_model/data_collector.py:136-138 | the average lies between the lowest and the highest score |
| Collector.StatisticsAverageBounds | ml_model/data_collector.py:136-138 | the reported average is 0 when no document has feedback, and otherwise lies between any lower and upper bound of the feedback scores in the two directories |
| SopModel.SOPModel.constructor | ml_model/model.py:10-21 | the list is the saved one, or empty when no file exists |
| SopModel.SOPModel.LoadTrainingData | ml_model/model.py:23-29 | the saved list, or the empty list when the file is absent; files unchanged |
| SopModel.SOPModel.SaveTrainingData | ml_model/model.py:31-34 | the file holds the whole list, so loading afterwards gives it back |
| SopModel.SOPModel.AddTrainingExample | ml_model/model.py:36-45 | exactly one example is appended at the end and the whole list is saved |
| SopModel.ExampleFor | ml_model/model.py:38-43 | the example's type is the input's `type`, `sop` when absent |
| SopModel.SOPModel.PrepareDataset | ml_model/model.py:47-65 | the dataset of the current list |
| SopModel.DatasetRows | ml_model/model.py:49-63 | the dataset exists exactly when every input has `steps` and `roles`; it then has one row per example in order, scored with its feedback score |
| SopModel.DatasetFirstError | ml_model/model.py:53-55 | an input without `steps` raises `KeyError('steps')` |
| SopModel.DatasetStopsAtError | ml_model/model.py:51-58 | once a prefix fails the whole dataset fails the same way |
| SopModel.RowFor | ml_model/model.py:52-63 | one example's text and score; no contract of its own, DatasetRows and DatasetFirstError state it |
| SopModel.Dataset | ml_model/model.py:47-65 | the dataset or the first error; no contract of its own, DatasetRows and DatasetStopsAtError state it |
| SopModel.GenerationPrompt | ml_model/model.py:100-104 | the generation prompt; no contract of its own, PromptLines and DefaultPrompt state it |
| SopModel.SOPModel.FineTune | ml_model/model.py:67-72 | fewer than ten examples raise `ValueError` before any dataset is built |
| SopModel.PromptLines | ml_model/model.py:100-104 | the prompt is five lines: type, steps, roles, notes, then the fixed instruction |
| SopModel.DefaultPrompt | ml_model/model.py:100-104 | with none of the keys the prompt is `Type: sop` and three empty fields |
| Security.SecurityManager.constructor | ml_model/security.py:11 | `ALLOWED_DOMAINS` defaults to `[]` |
| Security.SecurityManager.IsDomainAllowed | ml_model/security.py:38-43 | false for an empty address or one without `@`; otherwise true exactly when the domain is a substring of the raw allowed-domains string |
| Security.Domain | ml_model/security.py:42 | the domain holds no `@` |
| Security.DomainBetween | ml_model/security.py:42 | the domain is the text between the first `@` and the next one or the end |
| Security.DefaultDomains | ml_model/security.py:11-43 | with the default `[]`, `user@` is allowed and `user@x.com` is not |
| Security.Redact | ml_model/security.py:53-54 | one field: the keys stay the same, a present field becomes `[REDACTED]`, every other value is unchanged |
| Security.RedactAll | ml_model/security.py:52-54 | the loop over the fields; no contract of its own, RedactAllMeaning states it |
| Security.RedactAllMeaning | ml_model/security.py:49-54 | the same keys; each present sensitive field becomes `[REDACTED]`; every other value is unchanged |
| Security.SanitizeTrainingData | ml_model/security.py:47-56 | the loop over the three fields computes the redaction of a copy; the input is a value and stays unchanged |
| Security.SanitizeIdempotent | ml_model/security.py:47-56 | sanitising twice is sanitising once |
| LineBreaks.Transform | src/app/shared/line-breaks.pipe.ts:8-11 | a missing or empty value gives the empty string |
| LineBreaks.ReplaceNewlines | src/app/shared/line-breaks.pipe.ts:10 | `replace(/\n/g, '<br>')`; no contract of its own, NoNewlineLeft, LengthGrowth and ReplaceIsSplitJoin state it |
| LineBreaks.NoNewlineLeft | src/app/shared/line-breaks.pipe.ts:10 | no line feed survives |
| LineBreaks.LengthGrowth | src/app/shared/line-breaks.pipe.ts:10 | the length grows by three per line feed |
| LineBreaks.NoNewlineUnchanged | src/app/shared/line-breaks.pipe.ts:10 | text without a line feed is unchanged |
| LineBreaks.ReplaceIsSplitJoin | src/app/shared/line-breaks.pipe.ts:10 | the rewrite is splitting at line feeds and joining with `<br>`, so every other character is kept in order |
| LineBreaks.CarriageReturnKept | src/app/shared/line-breaks.pipe.ts:10 | `\r\n` becomes `\r<br>` |
| LineBreaks.TransformIdempotent | src/app/shared/line-breaks.pipe.ts:8-11 | applying the pipe twice is applying it once |

## Left out

- Styling and layout: fonts, sizes, alignment, bold runs and `_setup_document_styles` are not modelled. Each element keeps only its style name and text, and a step keeps its bold number apart from its text.
- Saving the document file: `doc.save` is modelled as returning what is written (body, header table, footer lines).
- The clock: `datetime.now()` is one instant passed in as a parameter. The code reads the clock several times, so across a second boundary its dates could differ, and the model does not capture that. The year is taken to have four digits.
- The filesystem: `os.makedirs` is not modelled. Each directory is a map from file name to record, and `os.listdir` is a list of the directory's names in an order given as a parameter. The only files present are records; a non-record file in a directory is not modelled.
- JSON: `json.dump` and `json.load` are identity on records, and a float score is an exact `real`, so the statistics average is exact division.
- `str()` rendering of a JSON value in `model.py` is a parameter `show`. The language model, tokenizer and trainer (`from_pretrained`, `Trainer`, `generate`) are not modelled, so `FineTune` returns the dataset the trainer would receive.
- `SecurityManager`'s Fernet encryption, JWT tokens and `audit_log` are not modelled. The constructor reads only `ALLOWED_DOMAINS`.
- Regular expressions: `\d`, `\w` and `lower()` are taken over ASCII only, while `\s` and `strip()` follow Python's whitespace.
- The NK-cell template's texts are one constant record that the generator holds. The template lemmas hold for any texts, and only `NkStepCounts` and `NkListCounts` read the constants.
- Collector.DataCollector.Locate compares paths as strings: only the spelling `save_document` returns (`JoinPath(directory, name)`) finds a record. `os.path.exists` also accepts other spellings of the same file (`./collected_data/sops/x.json`, `dir/../sops/x.json`, an absolute path) and any existing file outside the two directories; those paths are reported as not found. The directory path itself raises `IsADirectoryError` in the code and is reported as not found here.
- Collector.DataCollector.AddFeedback inherits this: a record named by another spelling of its path gets no feedback and the result is `FileNotFound`, where the code would update it.
- `app.py`, `test_word_generator.py` and the Angular front end other than the line-break pipe are not part of this model.
