# Humanizer and export engine — a verified model

This project models three pieces of an AI content-builder web application:

- **The text humanizer** (`src/utils/humanizer.ts`). `humanizeText` threads one
  running text through up to seven rewrite stages, each switched on by an
  option flag:
  - two deterministic, whole-word, case-insensitive table substitutions
    (contractions, then formal-to-casual words); these are on unless their
    flag is explicitly `false`;
  - three stages that prefix a phrase to randomly chosen `". "`-separated
    sentences or `"\n\n"`-separated paragraphs (personal touches,
    personal experiences, emotions);
  - a filler-word stage that inserts `filler + ","` into chosen sentences;
  - an informal-spelling stage gated per table entry.
  
  The module also covers the five presets and `quickHumanize`. Each random
  decision (`Math.random() < p`, and the index behind
  `Math.floor(Math.random() * n)`) is an input of the model, given as a
  `Chance` record of per-slot draws.
- **The export engine** (`src/utils/exportUtils.ts`):
  - the field normalisers and their fallbacks, and `formatDate`;
  - the file-name stem;
  - the DOCX, HTML, Markdown and plain-text builders;
  - the PDF exporter's layout loops (content lines that start new pages,
    then one "Page i of N" footer per page);
  - the `exportProject` dispatcher;
  - the newest-first export history capped at fifty entries.
  
  Saving a file is modelled by returning the `Download` (file name, MIME
  type, payload) that would be handed to the browser.
- **The export-centre panel** (`src/components/export/ExportCenter.tsx`):
  - the per-line Markdown-heading-to-HTML conversion shared by its PDF, Word
    and HTML exporters;
  - the Markdown template;
  - `toggleFormat`;
  - the `handleExport` loop with its empty-selection guard.

Modules:

- `StringOps`: JavaScript `split`/`join`, `repeat`, ASCII lower-casing and the
  `trim` whitespace set over `seq<char>`.
- `WordRegex`: `replace(/\bword\b/gi, rep)`.
- `Humanizer`.
- `PdfLayout`: where each `pdf.text` call lands.
- `ExportUtils`.
- `ExportHistory`: a class holding the storage slot.
- `ExportCenter`: a class holding the panel's state.

Imperative source code is modelled as methods with loops or `+=` steps, and
each method is proved equal to a specification function. This covers the
`forEach` over a table, the `+=` text builders, the two PDF loops, the
history `unshift`/`slice`, and the export loop. The properties are then
proved about those functions.

Three behaviours of the code that a reader might not expect:

- A chosen sentence or paragraph is lower-cased in full by
  `toLowerCase()`, not only its first letter.
- The empty text is not always returned unchanged. `"".split(". ")` is `[""]`,
  so with `addPersonalTouch` on, a chosen slot turns `""` into
  `phrase + " "` (`Humanizer.PersonalTouchOnEmpty`).
- The file-name stem replaces characters one for one rather than collapsing
  runs, so "Q3 b!" gives "q3_b_" (`ExportUtils.FileStemExample`).

## Model

| member | source | states |
|---|---|---|
| StringOps.JoinSplit | src/utils/humanizer.ts:172-180 | splitting on a separator and joining with the same separator gives the text back, so unchosen pieces are reproduced verbatim |
| StringOps.Split | src/utils/humanizer.ts:172 | `split` with a non-empty separator always gives at least one piece; JoinSplit (the pieces rejoin to the text), SplitPrefix and SplitLeftmost (cut at the leftmost occurrence, no piece holds the separator) and, for one-character separators, SplitCount state the rest of its meaning |
| StringOps.SplitAround | src/components/export/ExportCenter.tsx:198 | splitting around one occurrence of a one-character separator gives the pieces before it followed by the pieces after it |
| StringOps.SplitPrefix | src/utils/humanizer.ts:172 | the first piece of `split` is a prefix of the text and, when the text was cut, the separator follows it immediately |
| StringOps.SplitLeftmost | src/utils/humanizer.ts:172 | for any non-empty separator (`'. '`, `'\n\n'` as well as one character) no piece contains the separator, and in a piece followed by the separator no occurrence starts before the one that ends the piece: the cut is at the leftmost occurrence |
| StringOps.Join | src/utils/humanizer.ts:180 | `join`: no contract of its own; JoinSplit states that it inverts Split for the same separator, and FillerInsertion what it builds from spliced words |
| StringOps.SplitCount | src/components/export/ExportCenter.tsx:198 | splitting on one character gives one piece more than the character's occurrences |
| StringOps.Repeat | src/utils/exportUtils.ts:248 | `'='.repeat(n)` has length n and every character is the repeated one |
| WordRegex.ReplaceWordNoMatch | src/utils/humanizer.ts:157-158 | text in which the pattern never matches as a whole word (including inside longer words) is returned unchanged by the global case-insensitive replace |
| WordRegex.ReplaceWordSingle | src/utils/humanizer.ts:157-158 | a single whole-word match is replaced by the replacement and the text before and after it is kept verbatim |
| WordRegex.ReplaceWord | src/utils/humanizer.ts:157-158 | `replace(/\bword\b/gi, rep)`: no contract of its own; ReplaceWordAll states that every whole-word match of the left-to-right scan is replaced and the text between matches is kept, ReplaceWordNoMatch and ReplaceWordSingle the no-match and one-match cases |
| WordRegex.ReplaceWordAll | src/utils/humanizer.ts:157-158 | for every input the `g` flag's result is the text between the scan's whole-word matches joined with the replacement, and that scan always exists |
| WordRegex.ReplaceFromScan | src/utils/humanizer.ts:157-158 | along any left-to-right scan of non-overlapping whole-word matches, each match is replaced and each stretch between matches is copied verbatim |
| WordRegex.MatchPositionsScan | src/utils/humanizer.ts:157-158 | the positions the global replace resumes at form a scan: each is a whole-word match, no match starts in the stretch before it, and none after the last before the end |
| WordRegex.ReplaceFromMatch | src/utils/humanizer.ts:157-158 | the next match of the scan: the stretch before it is copied and the match is replaced, then the replace resumes after the match |
| WordRegex.ReplaceWordTwice | src/utils/humanizer.ts:157-158 | with the `g` flag both occurrences in "do not, do not" become "don't", not only the first |
| Humanizer.ApplyRulesNoMatch | src/utils/humanizer.ts:155-168 | a table stage leaves text without any whole-word occurrence of its entries unchanged |
| Humanizer.ApplyRulesClosed | src/utils/humanizer.ts:226-233 | when no entry of the informal-spelling table is drawn, the stage changes nothing |
| Humanizer.ApplyRulesOneHit | src/utils/humanizer.ts:155-160 | when exactly one table entry occurs, the table rewrites exactly that entry's occurrences |
| Humanizer.ApplyRules | src/utils/humanizer.ts:155-159 | the `forEach` over a table as a fold in table order: no contract of its own; ApplyRulesNoMatch, ApplyRulesClosed and ApplyRulesOneHit state its meaning, and RewriteEach is proved equal to it |
| Humanizer.RewriteEach | src/utils/humanizer.ts:156-159 | the `forEach` that reassigns the running text applies the gated entries in table order |
| Humanizer.ContractionExample | src/utils/humanizer.ts:41-74 | the first contraction table entry is "do not" → "don't", and that one entry's whole-word replace turns "I do not know" into "I don't know" |
| Humanizer.WordBoundaryExample | src/utils/humanizer.ts:157-158 | "Undo nothing" is not rewritten by "do not": no word boundary before "do" |
| Humanizer.CaseExample | src/utils/humanizer.ts:157-158 | the `i` flag: "DO NOT stop" becomes "don't stop" |
| Humanizer.CasualExample | src/utils/humanizer.ts:114-135 | the first casual table entry is "utilize" → "use", and that one entry's whole-word replace turns "We utilize this" into "We use this" |
| Humanizer.TypoExample | src/utils/humanizer.ts:138-149 | the informal table searches for the formal phrase: the "going to" entry's whole-word replace turns "I am going to" into "I am gonna" |
| Humanizer.Inject | src/utils/humanizer.ts:173-179 | the map keeps the piece count; an eligible chosen piece becomes phrase + " " + the piece lower-cased, every other piece is kept |
| Humanizer.TouchSentences | src/utils/humanizer.ts:171-181 | personal touches only reach sentences 0–2; unchosen sentences are unchanged |
| Humanizer.ExperienceParagraphs | src/utils/humanizer.ts:184-194 | paragraph 0 never receives an experience; unchosen paragraphs are unchanged |
| Humanizer.EmotionSentences | src/utils/humanizer.ts:213-223 | sentences 0 and 1 never receive an emotion; unchosen sentences are unchanged |
| Humanizer.InjectNoneChosen | src/utils/humanizer.ts:172-180 | a prefixing stage that chooses no piece returns its input |
| Humanizer.PersonalTouchOnEmpty | src/utils/humanizer.ts:171-181 | on "" the personal-touch stage gives phrase + " " when slot 0 is chosen, else "" |
| Humanizer.FillerPosition | src/utils/humanizer.ts:203 | the insertion index is at least 1, is 1 for a one-word sentence, and otherwise is at most the last word's index |
| Humanizer.InsertFiller | src/utils/humanizer.ts:202-205 | the splice of `filler + ","` into the sentence's words: no contract of its own; FillerInsertion states exactly which characters it adds and where |
| Humanizer.FillerInsertion | src/utils/humanizer.ts:202-205 | the filler stage inserts exactly " " + filler + "," at a space after the first word (or at the end) and keeps everything else |
| Humanizer.FillerSentences | src/utils/humanizer.ts:197-210 | chosen sentences get one filler; others are unchanged; the sentence count is kept |
| Humanizer.RewriteLexical | src/utils/humanizer.ts:154-168 | the two table stages run unless their flag is `false` |
| Humanizer.HumanizeText | src/utils/humanizer.ts:151-236 | the running text passes through the enabled stages in source order |
| Humanizer.Lexical | src/utils/humanizer.ts:154-168 | the two table stages, each unless its flag is `false`: no contract of its own; RewriteLexical is proved equal to it, LexicalNoMatch and SubtleIsLexicalOnly state its meaning |
| Humanizer.Humanized | src/utils/humanizer.ts:151-236 | the seven stages in source order: no contract of its own; HumanizeText is proved equal to it, and AllOffIsIdentity, NothingDrawnIsLexical and QuickHumanize state its meaning |
| Humanizer.AllOffIsIdentity | src/utils/humanizer.ts:151-236 | with every flag `false` the text is returned unchanged |
| Humanizer.LexicalNoMatch | src/utils/humanizer.ts:154-168 | text without a whole-word contraction or casual key passes both lexical stages unchanged |
| Humanizer.NothingDrawnIsLexical | src/utils/humanizer.ts:170-233 | when no random slot fires, the result is the lexical stages' output |
| Humanizer.ProfileOptions | src/utils/humanizer.ts:239-285 | every preset sets all seven flags, sets contractions and casual language alike, and only the subtle preset leaves out personal touches |
| Humanizer.SubtleIsLexicalOnly | src/utils/humanizer.ts:240-248 | the subtle profile runs only contractions and casual language |
| Humanizer.ProfessionalSkipsLexical | src/utils/humanizer.ts:267-275 | the professional profile disables both lexical stages |
| Humanizer.QuickHumanize | src/utils/humanizer.ts:288-290 | quickHumanize is humanizeText with the profile's flags, moderate by default |
| PdfLayout.Flow | src/utils/exportUtils.ts:88-95 | the content loop draws one text call per wrapped line |
| PdfLayout.Footers | src/utils/exportUtils.ts:99-103 | the footer loop makes one call per page |
| PdfLayout.LayOut | src/utils/exportUtils.ts:65-103 | the title, the optional metadata, the content loop with its page breaks and the footer loop produce exactly the header, the flow and the footers; the page count is the page current after the loop |
| PdfLayout.Header | src/utils/exportUtils.ts:64-78 | the title call first, in bold; when metadata is requested, then "Type: " followed by the product type and below it "Created: " followed by the date, both in normal weight; all on page 1 at the left margin, above where content starts |
| PdfLayout.FinalPage | src/utils/exportUtils.ts:86-98 | the page count after the content loop is at least the starting page and at most one more page per line |
| PdfLayout.FlowWithinMargins | src/utils/exportUtils.ts:88-95 | given pageHeight ≥ 2·margin, every content line is drawn with margin ≤ y ≤ pageHeight − margin |
| PdfLayout.FlowDrawsLines | src/utils/exportUtils.ts:93 | line k is drawn as line k, at the left margin, in the content font |
| PdfLayout.FlowSteps | src/utils/exportUtils.ts:89-94 | y advances by 7, and the next line starts a new page at the top margin exactly when the advanced y exceeds pageHeight − margin |
| PdfLayout.FlowFirstLine | src/utils/exportUtils.ts:71-92 | the first line is drawn at the cursor's y on the cursor's page, unless that y already exceeds pageHeight − margin, in which case on a new page at the top margin |
| PdfLayout.FlowPages | src/utils/exportUtils.ts:88-98 | lines lie on pages from the start page to the final page, and the last line is on the final page |
| PdfLayout.FootersOnStamped | src/utils/exportUtils.ts:99-103 | the footer loop stamps page p exactly once if 1 ≤ p ≤ N, and never otherwise |
| PdfLayout.OneFooterPerPage | src/utils/exportUtils.ts:97-103 | in the finished document each page 1..N carries exactly one footer, "Page i of N", and no other page carries one |
| ExportUtils.Normalize | src/utils/exportUtils.ts:34-49 | a placeholder becomes the fallback and any other value is kept; the result is never a placeholder |
| ExportUtils.GetProjectType | src/utils/exportUtils.ts:34-37 | "Digital Product" exactly for null, "", "undefined", "null"; any other type is kept |
| ExportUtils.GetProjectTitle | src/utils/exportUtils.ts:40-43 | "Untitled Project" exactly for the placeholders; any other title is kept |
| ExportUtils.GetProjectContent | src/utils/exportUtils.ts:46-49 | "No content available" exactly for the placeholders; any other content is kept |
| ExportUtils.NormalizersIdempotent | src/utils/exportUtils.ts:34-49 | normalising a normalised value changes nothing |
| ExportUtils.FormatDate | src/utils/exportUtils.ts:20-31 | "Unknown Date" for a missing or empty date, "Invalid Date" when the time is NaN, the locale rendering otherwise |
| ExportUtils.Sanitize | src/utils/exportUtils.ts:60-63 | the safe title, content and type are never placeholders |
| ExportUtils.FallbacksForPlaceholders | src/utils/exportUtils.ts:60-63 | a project of placeholders with an unparseable date renders with the three fallbacks and "Invalid Date" |
| ExportUtils.UnderscoreNonAlnum | src/utils/exportUtils.ts:106 | each character outside `[a-z0-9]` (any case) becomes '_', one for one |
| ExportUtils.FileStem | src/utils/exportUtils.ts:106 | the stem has the title's length, only `[a-z0-9_]` characters, '_' exactly where the title had a character outside `[A-Za-z0-9]`, and elsewhere the title's character lower-cased |
| ExportUtils.FileStemIdempotent | src/utils/exportUtils.ts:106 | deriving the stem of a stem changes nothing |
| ExportUtils.FileStemExample | src/utils/exportUtils.ts:106 | "Q3 b!" gives "q3_b_" |
| ExportUtils.DocxText | src/utils/exportUtils.ts:123-130 | the DOCX text: no contract of its own; BuildDocx is proved equal to it, and ContentIsVerbatimSuffix and MetadataBlockIff state its meaning |
| ExportUtils.MarkdownText | src/utils/exportUtils.ts:219-227 | the Markdown text: no contract of its own; BuildMarkdown is proved equal to it, and MarkdownIsHeadedDocx and MetadataBlockIff state its meaning |
| ExportUtils.PlainText | src/utils/exportUtils.ts:248-255 | the plain text: no contract of its own; BuildPlainText is proved equal to it, and PlainTextIsUnderlinedDocx and MetadataBlockIff state its meaning |
| ExportUtils.HtmlPage | src/utils/exportUtils.ts:151-198 | the HTML template around a given style block: no contract of its own; HtmlMetadataIff and HtmlTitleTwice state its meaning |
| ExportUtils.HtmlText | src/utils/exportUtils.ts:151-198 | the HTML document with the fixed style sheet: no contract of its own; ExportToHtml saves it, and HtmlMetadataIff and HtmlTitleTwice hold of it |
| ExportUtils.BuildDocx | src/utils/exportUtils.ts:123-130 | the `+=` steps build title + "\n\n", the optional Type/Created lines, and the content |
| ExportUtils.BuildMarkdown | src/utils/exportUtils.ts:219-227 | the `+=` steps build "# " + title + "\n\n", the optional `**Type:**`/`**Created:**` block and rule, and the content |
| ExportUtils.BuildPlainText | src/utils/exportUtils.ts:248-255 | the `+=` steps build title + "\n", a line of "=" as long as the title, "\n\n", the optional lines, and the content |
| ExportUtils.ContentIsVerbatimSuffix | src/utils/exportUtils.ts:219-227 | the DOCX, Markdown and plain-text outputs all end with the content verbatim |
| ExportUtils.MarkdownIsHeadedDocx | src/utils/exportUtils.ts:219-227 | without metadata the Markdown text is "# " followed by the DOCX text |
| ExportUtils.PlainTextIsUnderlinedDocx | src/utils/exportUtils.ts:248-255 | the plain text is the DOCX text with a "=" underline as long as the title inserted after the title line |
| ExportUtils.MetadataBlockIff | src/utils/exportUtils.ts:123-130 | metadata adds exactly its block after the title block and before the content: the Type/Created lines in DOCX and plain text, the bold Type/Created lines and a rule in Markdown |
| ExportUtils.HtmlMetadataIff | src/utils/exportUtils.ts:189-196 | the metadata div appears between the heading and the content exactly when requested |
| ExportUtils.HtmlTitleTwice | src/utils/exportUtils.ts:157-189 | the title appears right after `<title>` and again as the `<h1>` text |
| ExportUtils.NewlinesToBrIsSplitJoin | src/utils/exportUtils.ts:196 | `replace(/\n/g, '<br>')` is splitting on "\n" and joining with "<br>" |
| ExportUtils.NewlinesToBrRemovesNewlines | src/utils/exportUtils.ts:196 | no newline survives, and text without a newline is kept |
| ExportUtils.NewlinesToBr | src/utils/exportUtils.ts:196 | `replace(/\n/g, '<br>')`: no contract of its own; NewlinesToBrIsSplitJoin and NewlinesToBrRemovesNewlines state its meaning |
| ExportUtils.ParseFormat | src/utils/exportUtils.ts:279-292 | the `switch` cases: no contract of its own; ParseFormatNames states both directions for each name |
| ExportUtils.ParseFormatNames | src/utils/exportUtils.ts:279-292 | exactly "pdf", "docx", "html", "markdown" and "text" are accepted, each as its own format |
| ExportUtils.ExportToPdf | src/utils/exportUtils.ts:52-113 | the PDF is laid out from the wrapped content and saved as stem + ".pdf", with the success message |
| ExportUtils.ExportToDocx | src/utils/exportUtils.ts:116-141 | saves the DOCX text as stem + ".docx" with the Word MIME type, with the success message |
| ExportUtils.ExportToHtml | src/utils/exportUtils.ts:144-209 | saves the HTML document as stem + ".html", text/html, with the success message |
| ExportUtils.ExportToMarkdown | src/utils/exportUtils.ts:212-238 | saves the Markdown text as stem + ".md", text/markdown, with the success message |
| ExportUtils.ExportToText | src/utils/exportUtils.ts:241-266 | saves the plain text as stem + ".txt", text/plain, with the success message |
| ExportUtils.RunExporter | src/utils/exportUtils.ts:279-289 | exactly the exporter that matches the format runs |
| ExportUtils.ExportProjectAs | src/utils/exportUtils.ts:269-293 | a missing project gives {false, "No project data provided"}; an unknown format gives {false, "Unsupported export format"}; otherwise the matching exporter's file and message; a file is produced iff success |
| ExportHistory.Read | src/utils/exportUtils.ts:296-304 | an absent or unparseable slot reads as the empty history |
| ExportHistory.Saved | src/utils/exportUtils.ts:316-319 | after a save the new entry is at index 0, the length is min(old + 1, 50), and entries 1.. are the old prefix in order |
| ExportHistory.SavedWithinLimit | src/utils/exportUtils.ts:317-319 | a save never grows the history past fifty; below the limit nothing is dropped, at the limit only the oldest |
| ExportHistory.SaveAllKeepsNewest | src/utils/exportUtils.ts:307-324 | a run of saves leaves the newest entries first, followed by as much of the old history as fits in fifty |
| ExportHistory.ManySavesKeepLatestFifty | src/utils/exportUtils.ts:318-319 | after fifty or more saves the history is exactly the latest fifty, newest first |
| ExportHistory.HistoryStore.GetExportHistory | src/utils/exportUtils.ts:296-304 | returns the stored list, or [] when the slot is absent or unparseable |
| ExportHistory.HistoryStore.SaveExportToHistory | src/utils/exportUtils.ts:307-324 | the slot is overwritten with the new entry followed by the previous history, cut to fifty |
| ExportCenter.LineToHtml | src/components/export/ExportCenter.tsx:250-256 | "# " → h1 with 2 characters stripped, "## " → h2 with 3, "### " → h3 with 4, another non-blank line → `<p>line</p>`, and `<br>` exactly for a blank non-heading line |
| ExportCenter.HeadingPrefixesExclusive | src/components/export/ExportCenter.tsx:251-253 | the three prefix tests never hold together |
| ExportCenter.ConvertLinesAppend | src/components/export/ExportCenter.tsx:250-256 | converting joined runs of lines is concatenating their conversions, with no separator |
| ExportCenter.SingleLineBody | src/components/export/ExportCenter.tsx:250-256 | content without a newline converts as one line |
| ExportCenter.ConvertBodyLines | src/components/export/ExportCenter.tsx:198-213 | the body is made of newlines + 1 lines, and they re-join to the content |
| ExportCenter.ConvertBodyNewline | src/components/export/ExportCenter.tsx:198-213 | each line converts on its own: converting a + "\n" + b is converting a, then b, with nothing between |
| ExportCenter.HashtagIsParagraph | src/components/export/ExportCenter.tsx:251-254 | "#tag" is not a heading: it becomes `<p>#tag</p>` |
| ExportCenter.SpacesAreBreak | src/components/export/ExportCenter.tsx:254-255 | a whitespace-only line becomes `<br>` |
| ExportCenter.ConvertLines | src/components/export/ExportCenter.tsx:250-256 | `map(...).join('')` over lines: no contract of its own; ConvertLinesAppend states that it distributes over concatenation |
| ExportCenter.ConvertBody | src/components/export/ExportCenter.tsx:198-213 | the body conversion: no contract of its own; SingleLineBody, ConvertBodyLines and ConvertBodyNewline state its meaning |
| ExportCenter.MarkdownFileContent | src/components/export/ExportCenter.tsx:358-370 | the Markdown file starts with "# " + title, holds the content verbatim after the fixed head, and ends with the fixed generator footer |
| ExportCenter.MarkdownFile | src/components/export/ExportCenter.tsx:358-370 | the Markdown template: no contract of its own; MarkdownFileContent states where the title, content and footer sit |
| ExportCenter.Without | src/components/export/ExportCenter.tsx:80 | the filter removes every copy of the id, keeps every other id, and never lengthens the list |
| ExportCenter.Toggled | src/components/export/ExportCenter.tsx:77-83 | the id ends up selected iff it was not, an unselected id is appended at the end, and other ids keep their membership |
| ExportCenter.WithoutAbsent | src/components/export/ExportCenter.tsx:80 | filtering out an absent id changes nothing |
| ExportCenter.ToggledKeepsOthersInOrder | src/components/export/ExportCenter.tsx:77-83 | toggling never reorders the other ids |
| ExportCenter.WithoutAppend | src/components/export/ExportCenter.tsx:80 | the filter keeps order: filtering s + [x] is filtering s, followed by x unless x is the removed id |
| ExportCenter.ToggleTwice | src/components/export/ExportCenter.tsx:77-83 | toggling an unselected id twice restores the selection |
| ExportCenter.ReportedName | src/components/export/ExportCenter.tsx:403-416 | the loop's filename is empty exactly for ids no `case` handles |
| ExportCenter.CenterDownload | src/components/export/ExportCenter.tsx:222-376 | the PDF and HTML exports download text/html, the PDF, Word and HTML exports all carry the converted body, the Markdown export carries the Markdown template, and the file name is the title's stem followed by `.html` (PDF, HTML), `.docx` (Word) or `.md` (Markdown) |
| ExportCenter.ExportedNames | src/components/export/ExportCenter.tsx:395-421 | at most one name per selected id, and never an empty name |
| ExportCenter.Downloads | src/components/export/ExportCenter.tsx:398-421 | exactly one download per recorded name |
| ExportCenter.ExportedNamesInOrder | src/components/export/ExportCenter.tsx:398-421 | with only handled ids selected, one name is recorded per id, in selection order |
| ExportCenter.UnknownFormatsExportNothing | src/components/export/ExportCenter.tsx:402-420 | unhandled ids record no name |
| ExportCenter.ExportCenterState.constructor | src/components/export/ExportCenter.tsx:64-68 | the panel starts with ["pdf"] selected, nothing exported and no export running |
| ExportCenter.ExportCenterState.ToggleFormat | src/components/export/ExportCenter.tsx:77-83 | the selection becomes its toggled value and nothing else changes |
| ExportCenter.ExportCenterState.HandleExport | src/components/export/ExportCenter.tsx:383-443 | an empty selection only shows the warning toast and changes nothing; otherwise the handled formats are exported in selection order, their names recorded, and their count announced |

## Left out

- Probabilities: the thresholds 0.3, 0.2, 0.15, 0.1 and 0.05 and the
  floating-point index arithmetic are not modelled. Each decision and index
  is an input; `Math.floor(Math.random() * n)` is an arbitrary input reduced
  modulo n, which reaches the same indices.
- Unicode: `toLowerCase` and the regex `i` flag are modelled on ASCII
  letters only, and `\b` uses the ASCII word class `[A-Za-z0-9_]`. Other
  letters are left unchanged by the model.
- UnderscoreNonAlnum: a string here is a sequence of code points, while the
  source's `replace(/[^a-z0-9]/gi, '_')` (no `u` flag) works on UTF-16 code
  units. A character outside the Basic Multilingual Plane is two code units
  there and becomes two `_`; the model writes one.
- FileStem: for the same reason, its promise that the stem is as long as the
  title holds in code units only for titles within the Basic Multilingual
  Plane. A title with such a character gets one `_` fewer per character than
  the source gives ("📘 Plan" gives "__plan" here and "___plan" there).
- BuildPlainText: the underline has one `=` per code point of the title,
  while `'='.repeat(safeTitle.length)` counts UTF-16 code units. A title
  with a character outside the Basic Multilingual Plane gets one `=` fewer
  per such character than the source gives.
- `Humanizer.RewriteLexical`, `ExportUtils.RunExporter`: these are helper
  splits of `humanizeText` and `exportProject` made to keep the proofs
  small, not functions of the source.
- Table order: the object tables are given in source order, which is the
  order `Object.entries` uses for these string keys.
- jsPDF is left out:
  - the page size in millimetres is a pair of integer inputs;
  - `splitTextToSize` is an input function;
  - font setting is recorded as size and weight on each text call;
  - `addPage`, `setPage` and `save` become the page number carried by each
    call and the returned download.
- `Blob`, `saveAs`, object URLs and anchor clicks: represented by the
  returned file name, MIME type and content.
- `localStorage`, `JSON.parse` and `JSON.stringify`: the slot is a field
  holding an absent, unparseable or parsed value. A stored empty string
  reads as absent, as `history ? … : []` does. Stored JSON that parses to a
  non-array, and `setItem` failures, are not modelled.
- Exceptions: the `try`/`catch` failure results of the exporters
  ("Failed to export …: message") and of `handleExport` ("Export Error")
  come only from foreign calls that throw, which are not modelled.
- Dates: `new Date(text)` and `toLocaleDateString()` are runtime- and
  locale-dependent, so they are inputs (`DateServices`).
- The export-centre templates: their CSS and surrounding markup, the cover
  page, the section images (`<img>` after an `<h2>` in the PDF template and
  the index arithmetic behind it), the AI image calls, the one-second delay
  and the progress percentages are not modelled. For the PDF, Word and HTML
  exports only the converted body of the page is kept. The HTML exporter's
  description meta tag is also not modelled.
- No HTML escaping is performed by the source: titles and content are
  inserted raw, and the model does the same.
- Concurrency: the read-modify-write race between overlapping history
  saves is not modelled.
