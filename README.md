# Markdown notes to documents: a verified model

The system turns Markdown lecture notes into styled documents and translations.

- **Translation skeleton.** It classifies every Markdown line as a `(kind, prefix, text)` triple, sends the non-empty texts to a translation provider, and rebuilds each line around its translated text. This is done by `translation_pipeline.py` and by the standalone DeepL script `translate_md_deepl.py`.
- **Translation providers.** DeepL and Azure each send their texts in consecutive batches. A fallback translator tries the providers in order, and a factory builds one from the environment (`translators.py`).
- **Word writer.** A line-by-line state machine turns the notes into Word paragraphs and tables (`document_generator.py`). It recognises headings, lists, code fences, tables, quotes and rules; applies spacing fixes to the last paragraph; handles right-to-left languages; and parses inline `***`/`**`/`*`/code/link markup into runs. `make_notes.py` is an older, smaller variant with bold-before-colon list items.
- **Google Docs writer** (`google_docs_manager.py`). It concatenates the block texts into one string while tracking offsets, records block and inline ranges into that string, and builds the ordered request list sent to the Docs API.

## How the model is organised

| module | file | what it holds |
|---|---|---|
| `Wrappers` | wrappers.dfy | `Option` and `Result` |
| `Text` | text.dfy | Python `str` operations: `isspace`, `strip`, `rstrip`, `lstrip`, `find`, `split`/`join`, ASCII `lower`/`upper` |
| `InlineSpans` | inline.dfy | a hand-written scanner with the semantics of `_INLINE_RE.finditer`, and both consumers of its matches |
| `Classifier` | classifier.dfy | the line regexes, classification into triples, extraction and rebuilding |
| `Translators` | translators.dfy | the provider classes as values; HTTP is a `Service` function from requests to replies |
| `TranslationPipeline` | translation_pipeline.dfy | the language loop of the translation front end |
| `TranslateMdDeepl` | translate_md_deepl.dfy | the standalone DeepL script: its batching and its language loop |
| `DocModel` | docmodel.dfy | abstract paragraph, run and table records; the spacing fixes on the last paragraph |
| `DocxLayout` | docx_layout.dfy | the typography and paragraph-building helpers of the Word writer |
| `DocxConverter` | docx_converter.dfy | the class `Converter`: one field per local of `convert_markdown_to_docx`, one method per branch, each against a step function |
| `DocxConverterProps`, `DocxConverterRules` | docx_converter_props.dfy, docx_converter_rules.dfy | what the Word writer guarantees |
| `MakeNotes`, `MakeNotesProps` | make_notes.dfy, make_notes_props.dfy | the same for `make_notes.py` (class `NotesConverter`) |
| `GoogleDocs`, `GoogleDocsProps` | google_docs.dfy, google_docs_props.dfy | the class `Uploader` over the locals of `upload_markdown_content`, the request list as a datatype, and its properties |

Units are scaled integers:

- points for spacing;
- line spacing as a percentage (1.2 is 120);
- millimetres for indents (1.5 cm + 0.5 cm per level with a 0.4 cm hanging indent is 15 + 5·level with -4).

Fonts, style names and colours are strings or enumerations.

Each imperative loop of the source becomes a `method` with a loop or a branch-per-method class. Its `ensures` ties the result, or the new state, to a specification function. The lemmas then prove what the source promises about that function: order, counts, the markup round trip, offsets staying inside the text, nothing already written being lost, at most one title, and so on.

## Model

| member | source | states |
|---|---|---|
| Text.Strip | src/translation_pipeline.py:127 | `strip()` returns the input minus its whitespace at both ends: the result is trimmed, is a slice of the input after its leading whitespace, only whitespace follows it, and it is empty exactly when the input is all whitespace |
| Text.StripSurrounded | src/translation_pipeline.py:111-113 | stripping a trimmed text surrounded by whitespace gives back exactly that text |
| Text.RStripChar | src/translation_pipeline.py:101 | `rstrip("\n")` keeps a prefix of the input, drops only that character, and leaves no trailing copy of it |
| Text.LStripChars | src/document_generator.py:784 | `lstrip(" \t")` removes exactly the leading characters from the set: what it drops are all set members, and what it keeps is a suffix that does not start with one |
| Text.RStripChars | src/google_docs_manager.py:332 | `rstrip(chars)` removes exactly the trailing characters from the set: what it drops are all set members, and what it keeps is a prefix that does not end with one |
| Text.FindFrom | src/document_generator.py:821 | the search finds the leftmost occurrence of the pattern at or after the start, and reports none only when there is none |
| Text.Split | src/document_generator.py:822 | `split(sep)` yields at least one piece, and no piece contains the separator |
| Text.JoinSplit | src/document_generator.py:822 | joining the pieces of `split(sep)` with `sep` gives the string back: splitting loses nothing |
| Text.SplitCount | src/document_generator.py:702 | `split(c)` on one character yields one piece more than the string has copies of `c` |
| Text.SplitAt | src/google_docs_manager.py:339-341 | `split` cuts at the first occurrence of the separator and splits the rest the same way |
| Text.Lower | src/translators.py:186 | `lower()` maps each character on its own and keeps the length |
| Text.Upper | src/translators.py:105 | `upper()` maps each character on its own and keeps the length |
| Text.NatToString | src/google_docs_manager.py:466 | `str(n)` of a natural number: digits whose decimal value is `n`, with no leading zero, and the single digit of `n` below ten |
| InlineSpans.LazyCloseFacts | src/document_generator.py:48-50 | the lazy `.+?` before a closing star run ends at the first closing run with no newline before it, and there is none only when every later closing run has a newline in between |
| InlineSpans.TryStarsFacts | src/document_generator.py:48-50 | a star alternative matches at a position exactly when a match of its shape exists there, and it then ends at the first closing run (the shortest inner group) |
| InlineSpans.TryCodeFacts | src/document_generator.py:51 | the code alternative `` `[^`]+` `` matches exactly when a backtick-free non-empty group closes, and then at the first closing backtick |
| InlineSpans.TryLinkFacts | src/document_generator.py:52 | the link alternative `[text](url)` matches exactly when a link of that shape exists, and is that one |
| InlineSpans.MatchAt | src/document_generator.py:47-53 | a match found at a position starts there and lies inside the text |
| InlineSpans.MatchAtWellFormed | src/document_generator.py:47-53 | a match spans its markup around its inner group |
| InlineSpans.MatchAtFirst | src/document_generator.py:47-53 | alternation order: the match is the one its own alternative gives, and every earlier alternative (`***`, `**`, `*`, then code, then link) fails at that position |
| InlineSpans.NoMatchAt | src/document_generator.py:47-53 | nothing matches at a position exactly when all five alternatives fail there |
| InlineSpans.NextMatchLeftmost | src/document_generator.py:405 | `finditer` finds the leftmost match: no position it skips holds a match, and when it finds none, no later position holds one |
| InlineSpans.Matches | src/document_generator.py:405 | the matches form a chain: each is the next leftmost match found from the end of the one before |
| InlineSpans.MatchesWellFormed | src/document_generator.py:405 | every match `finditer` yields spans its markup around its inner group |
| InlineSpans.Styled | src/document_generator.py:413-437 | a match's segment is its inner group. Bold-italic sets both flags, code sets only its own flag, and only a link carries a URL, which is not part of the text |
| InlineSpans.InlineSegments | src/document_generator.py:447-452 | the segment list is never empty, and `""` gives a single plain `""` segment |
| InlineSpans.ParseInlineFormatting | src/document_generator.py:396-454 | the loop over the matches, tracking `last_end`, builds exactly `InlineSegments(text)` |
| InlineSpans.SegmentsLoop | src/document_generator.py:402-446 | from any chain of matches, the loop emits each gap before a match, then the match's segment, then the trailing gap |
| InlineSpans.MarkupRoundTrip | src/document_generator.py:402-454 | the segments lose nothing: written back as Markdown they give the input exactly, the gaps verbatim and each match as its own markup |
| InlineSpans.PlainSegmentsAreGaps | src/document_generator.py:407-411 | plain segments are exactly the unmatched gaps: none is empty, and no two are adjacent |
| InlineSpans.StripInlineMarkers | src/google_docs_manager.py:284-314 | `_strip_inline_markers` returns exactly the markup-free text `Clean(text)` and the ranges `Ranges(text)` |
| InlineSpans.StripLoop | src/google_docs_manager.py:288-313 | from any chain of matches, the loop grows the clean text and adds one range per match, as `RangesOf` defines |
| InlineSpans.RangesSound | src/google_docs_manager.py:284-314 | there is one range per match. Range k holds, inside the clean text, exactly match k's inner group and carries its style. The ranges are non-empty, increasing and disjoint |
| InlineSpans.ChainRangesSound | src/google_docs_manager.py:288-313 | the same holds for any chain of matches from the start of the text |
| InlineSpans.SegmentTextsAreClean | src/google_docs_manager.py:284-314 | the two consumers agree: the Word segments' texts, concatenated, are the Google Docs clean text, which is the input with its matched markup removed |
| Classifier.ClassifyLineFacts | src/translation_pipeline.py:100-127 | blank exactly for an all-whitespace line; `("hr","---","")` exactly for `---` between whitespace; heading, bullet and number texts are one-line, trimmed and non-empty; a body's text is the stripped line; a text is non-empty exactly for the translatable kinds |
| Classifier.Structure | src/translation_pipeline.py:111-127 | after blank and rule are excluded: the first structural regex that matches gives a trimmed text, and a body is the stripped line with an empty prefix |
| Classifier.MatchHeadingShape | src/translation_pipeline.py:82 | a line the heading regex matches is its hashes, whitespace, the captured text and trailing whitespace |
| Classifier.MatchBulletShape | src/translation_pipeline.py:83 | a line the bullet regex matches is its indentation, `-`, whitespace, the text and trailing whitespace |
| Classifier.MatchNumberShape | src/translation_pipeline.py:84 | a line the number regex matches is its indentation with digits and `.` (the prefix), whitespace, the text and trailing whitespace |
| Classifier.ClassifiedCapture | src/translation_pipeline.py:111-125 | each structural triple carries what its own regex captures |
| Classifier.RebuiltUpToAll | src/translation_pipeline.py:139-155 | appending the rebuilt lines one triple at a time rebuilds each triple around the translated text at its own count of translatable triples |
| Classifier.RebuiltUpToWhole | src/translation_pipeline.py:139-157 | rebuilding every triple gives the whole rebuild |
| Classifier.RebuildLines | src/translation_pipeline.py:132-157 | one line per triple, consuming the translated texts strictly in order. `None` (the `IndexError`) is returned exactly when there are fewer translated texts than translatable triples. The same loop is `rebuild_lines` at src/translate_md_deepl.py:155-178 |
| Classifier.Parsed | src/translation_pipeline.py:98-129 | one triple per input line |
| Classifier.ClassifyRaw | src/translation_pipeline.py:101-127 | the loop body, branch by branch, gives the line's classification |
| Classifier.ParseLines | src/translate_md_deepl.py:119-152 | one triple per input line, in input order, each the line's classification. The same loop is `parse_markdown_lines` at src/translation_pipeline.py:90-129 |
| Classifier.ParsedWellFormed | src/translation_pipeline.py:232 | in a parsed document the text is non-empty exactly for headings, bullets, numbers and bodies |
| Classifier.ExtractedTexts | src/translation_pipeline.py:232 | the extracted list has one entry per translatable triple, and the triple with k translatable triples before it has its text at position k |
| Classifier.SolidLine | src/translation_pipeline.py:101-109 | a line ending in a non-blank character survives `rstrip("\n")` and is not blank, and it is no rule unless it starts with `--` |
| Classifier.HeadingLine | src/translation_pipeline.py:111-113 | one to six `#`, a space and a trimmed one-line text classify as that heading |
| Classifier.ReclassifyHeading | src/translation_pipeline.py:144-145 | a heading rebuilt as `prefix + " " + text` classifies as the same heading |
| Classifier.BulletLine | src/translation_pipeline.py:116-118 | indentation, `- ` and a trimmed one-line text classify as that bullet |
| Classifier.BulletMatch | src/translation_pipeline.py:83 | the bullet regex on such a line captures the indentation and the text |
| Classifier.ReclassifyBullet | src/translation_pipeline.py:147-148 | a bullet rebuilt as `prefix + "- " + text` classifies as the same bullet, with the same indentation |
| Classifier.NumberLine | src/translation_pipeline.py:121-124 | indentation, digits, `.`, a space and a trimmed one-line text classify as that numbered item |
| Classifier.NumberMatch | src/translation_pipeline.py:84 | the number regex on such a line captures the digits with their `.` and the text |
| Classifier.ReclassifyNumber | src/translation_pipeline.py:150-151 | a numbered item rebuilt as `prefix + " " + text` classifies as the same item: the numbering is never changed |
| Classifier.Reclassify | src/translation_pipeline.py:139-155 | whatever a heading, bullet or numbered line is translated to, as long as the translation is one trimmed non-empty line, the rebuilt line classifies as the same kind with the same prefix and exactly the translated text |
| Classifier.ReclassifyBlankAndRule | src/translation_pipeline.py:140-143 | blank lines and rules rebuild to lines that classify exactly as the original |
| Classifier.IdentityRoundTrip | src/translation_pipeline.py:100-157 | feeding the extracted texts straight back keeps the rebuild in bounds. Every blank, rule, heading, bullet and numbered line rebuilds to a line that classifies exactly as the original. A body rebuilds to its stripped text |
| Classifier.BodyDoesNotRoundTrip | src/translation_pipeline.py:127 | a body does not survive in general: `" # x"` is a body, and its rebuilt text `"# x"` classifies as a heading |
| Classifier.HashIsHeading | src/translation_pipeline.py:111-113 | `"# x"` is a level-one heading with text `x` |
| Classifier.SpacedHashIsBody | src/translation_pipeline.py:127 | `" # x"` matches none of the structural regexes and is a body |
| Translators.DeepLBaseUrl | src/translators.py:46-49 | a key ending in `:fx` selects the free-plan host; any other key selects the paid host |
| Translators.NewDeepL | src/translators.py:40-52 | an empty key raises `TranslationError("DEEPL_API_KEY not found in .env")`; otherwise the translator keeps the key and its host follows the `:fx` rule |
| Translators.NewAzure | src/translators.py:89-99 | an empty key raises `TranslationError("AZURE_TRANSLATOR_KEY not found in .env")`; otherwise the translator keeps key and region |
| Translators.NewFallback | src/translators.py:160-163 | an empty provider list raises `ValueError`; otherwise the providers are kept in order |
| Translators.MapLangCode | src/translators.py:101-110 | `EN-GB` in any case maps to `en-GB`, `ZH` in any case to `zh-Hans`, and every other code to its lower case |
| Translators.MapLangCodeIgnoresCase | src/translators.py:101-110 | the mapping ignores case: lower- or upper-casing the code first changes nothing |
| Translators.MapDefaultLangs | src/translators.py:7-13 | the default languages map to `en-GB`, `fr`, `ar` and `zh-Hans` |
| Translators.DeepLOutcome | src/translators.py:72-82 | a reply gives translations exactly when it is a translation. 456 raises the quota error, other HTTP and network failures raise `DeepL API request failed: …`, and a malformed body raises an error other than `TranslationError` |
| Translators.AzureOutcome | src/translators.py:136-152 | the same for Azure: 403 gives the tier or quota message, other failures give `Azure API request failed: …` with the response text, and a malformed body raises another error |
| Translators.DeepLTranslate | src/translators.py:54-84 | the batch loop returns what sending the batches from the first text gives: empty input needs no request; otherwise the batches of 50 are sent in order and their results appended, or the first error is raised |
| Translators.AzureTranslate | src/translators.py:112-154 | the same with batches of 100 and the language code mapped once before the loop |
| Translators.BatchesCover | src/translators.py:65-66 | the batches are non-empty, hold at most the batch size each, and their concatenation is the input: consecutive slices covering it |
| Translators.Mapped | src/translators.py:33 | translating text by text keeps the length, and the translation of text j is at position j |
| Translators.MappedConcat | src/translators.py:79-80 | appending each batch's results is translating the concatenation |
| Translators.BatchingPreservesOrder | src/translators.py:63-84 | batching is invisible: with a service that translates text by text, DeepL and Azure return the translation of every input text, in input order |
| Translators.FirstFailingBatch | src/translators.py:65-82 | once every earlier batch succeeded, a failing batch ends the translation with its error |
| Translators.Translate | src/translators.py:24-35 | dispatching `translate` on any translator gives the outcome its class defines (`TranslateSpec`) |
| Translators.FallbackTranslate | src/translators.py:165-176 | the provider loop with its error list gives exactly the fallback outcome `TranslateSpec` defines |
| Translators.FallbackSkips | src/translators.py:167-173 | providers that raise `TranslationError` are skipped, and their `Name: message` entries are logged in order |
| Translators.FallbackFirstSuccess | src/translators.py:167-169 | after providers that all raised `TranslationError`, the first provider that succeeds gives the result |
| Translators.FallbackOtherErrorPropagates | src/translators.py:168-170 | an exception other than `TranslationError` propagates at once |
| Translators.FallbackAllFail | src/translators.py:174-176 | when every provider raises `TranslationError`, one is raised naming each provider's failure in order |
| Translators.EmptyInput | src/translators.py:55-56 | with nothing to translate, every well-formed translator returns `[]` whatever its service does |
| Translators.GetTranslator | src/translators.py:179-216 | the provider name is lower-cased. In `auto` mode, DeepL and then Azure are used when their keys are set: none raises `TranslationError`, one is returned unwrapped, and two are wrapped in a fallback. `deepl` and `azure` build that provider. Any other name raises `ValueError`. A returned translator is well-formed |
| TranslationPipeline.ShortCode | src/translation_pipeline.py:270 | the short code is the `LANG_MAP` entry, or else the lower-cased code up to its first `-` |
| TranslationPipeline.FirstPiece | src/translation_pipeline.py:270 | the first piece of `split(c)` is everything before the first `c` |
| TranslationPipeline.DefaultShortCodes | src/translators.py:7-12 | the default languages are named `en`, `fr`, `ar` and `zh` |
| TranslationPipeline.TranslateAndRebuild | src/translation_pipeline.py:274-281 | translate then rebuild; either error is caught and the language is skipped with its message |
| TranslationPipeline.TranslateDocument | src/translation_pipeline.py:228-281 | nothing happens when no line carries text; otherwise there is one outcome per target language, in order, named by its short code |
| TranslationPipeline.LanguageLoop | src/translation_pipeline.py:269-281 | one outcome per language, in order |
| TranslationPipeline.LengthPreservingInBounds | src/translation_pipeline.py:232 | a translator returning as many texts as it was given keeps the rebuild in bounds |
| TranslationPipeline.ProviderTranslatesEveryLine | src/translation_pipeline.py:274-276 | with a provider that translates text by text, every language yields a document with one line per input line, each rebuilt around the translation of its own text |
| TranslateMdDeepl.DeepLBase | src/translate_md_deepl.py:42-46 | the script's host is the free one exactly for a `:fx` key |
| TranslateMdDeepl.AgreesWithProviders | src/translate_md_deepl.py:55-60 | the script and the provider classes have the same language table and choose the same DeepL host |
| TranslateMdDeepl.BatchOutcome | src/translate_md_deepl.py:102-107 | a reply gives its texts, or raises its error uncaught |
| TranslateMdDeepl.TranslateBatch | src/translate_md_deepl.py:78-109 | no texts give `[]`; a missing key exits; otherwise the batches of 50 are sent in order and their results appended, and the first error ends the run |
| TranslateMdDeepl.GlueGlue | src/translate_md_deepl.py:106-107 | appending batch results regroups freely |
| TranslateMdDeepl.BatchMatchesProvider | src/translate_md_deepl.py:78-109 | with a service that translates text by text, the script's batches return every translation in order, and exactly what `DeepLTranslator.translate` returns for the same key |
| TranslateMdDeepl.ShortCodesAgree | src/translate_md_deepl.py:221 | the script names its files as the pipeline names its folders |
| TranslateMdDeepl.WriteLanguages | src/translate_md_deepl.py:220-231 | one file per language, in order, until the first language that fails, which ends the run with its error |
| TranslateMdDeepl.ProcessFile | src/translate_md_deepl.py:197-231 | nothing happens when no line carries text; otherwise each file written holds its language's rebuild, and either every language is written or the first failure, at the next language, ends the run |
| TranslateMdDeepl.EveryLanguageWritten | src/translate_md_deepl.py:207-228 | with a key and an order- and length-preserving service, the rebuild stays in bounds: every language is written, each line rebuilt around the translation of its own text |
| DocModel.NewPara | src/document_generator.py:365 | a new paragraph has style "Normal" and nothing else set |
| DocModel.TextRuns | src/document_generator.py:388 | `add_paragraph(text)` makes one run of the text, or none for `""` |
| DocModel.LastPara | src/document_generator.py:263 | `doc.paragraphs[-1]` is the last paragraph block, with only tables after it; there is none only when the body holds no paragraph |
| DocModel.SetLastSpaceAfter | src/document_generator.py:750-751 | setting the last paragraph's space after changes that field of that paragraph and nothing else, and does nothing without a paragraph |
| DocModel.SetLastSpaceBefore | src/document_generator.py:757 | the same for the space before |
| DocModel.Skeleton | src/document_generator.py:259-286 | the body with paragraph spacing forgotten, block by block |
| DocModel.SameSkeletonExtends | src/document_generator.py:259-286 | a re-spaced body and the original extend each other |
| DocModel.ExtendsRespaced | src/document_generator.py:675-676 | re-spacing a body and then appending to it extends the original |
| DocModel.TitleCountConcat | src/document_generator.py:744-746 | title counts of a concatenation add up |
| DocModel.SpacingKeepsSkeleton | src/document_generator.py:259-286 | the spacing fixes (`reduce_spacing_before_heading`, `reduce_spacing_before_list`, `ensure_spacing_after_list`) change one paragraph's spacing and nothing else |
| DocModel.SpacingKeepsTitles | src/document_generator.py:259-286 | the spacing fixes keep the number of titles |
| DocModel.LastParaAppend | src/document_generator.py:754-757 | an appended paragraph becomes `doc.paragraphs[-1]` |
| DocModel.SpacingKeepsLastPara | src/document_generator.py:259-286 | the spacing fixes keep a last paragraph where there is one |
| DocxLayout.FontChoice | src/document_generator.py:39-62 | exactly Chinese and Arabic get a font of their own; Arabic gets Amiri |
| DocxLayout.ApplyRtl | src/document_generator.py:172-180 | in a right-to-left language the paragraph is marked right-to-left and right-aligned; otherwise it is unchanged |
| DocxLayout.FormatBody | src/document_generator.py:213-232 | style "Normal" and nothing before. Right-to-left: right-aligned, 1.3 lines, 8pt after. Otherwise: justified, 1.2 lines, 6pt after. Runs are reset to body type in the language's font; indents are kept |
| DocxLayout.FormatHeading | src/document_generator.py:235-256 | right-aligned in a right-to-left language, else left-aligned; spacing by level; runs not bold and black; style and content unchanged |
| DocxLayout.HeadingRank | src/document_generator.py:380-381 | Word level `min(max(1, md_level - 1), 9)`, always between 1 and 9 |
| DocxLayout.ListIndent | src/document_generator.py:483-496 | a first-line hanging indent of 4 mm, and 15 + 5·level mm on the right (left reset to 0) in a right-to-left language, or on the left (right reset to 0) otherwise; nothing else changes |
| DocxLayout.SegmentRun | src/document_generator.py:462-480 | a segment's run has its text and its bold and italic flags. Code is in the monospace font at 11pt and shaded. A link is blue and underlined. Anything else is in the body font at 12pt |
| DocxLayout.SegmentRunsText | src/document_generator.py:462-463 | the runs spell the segments' texts in order |
| DocxLayout.BodyRunsText | src/document_generator.py:226-230 | the body formatting pass changes how runs look, not what they say |
| DocxLayout.HeadingRunsText | src/document_generator.py:252-254 | nor does the heading pass |
| DocxLayout.RunsSpell | src/document_generator.py:457-463 | every paragraph spells the text of its content: Markdown text is stripped and loses its inline markup, whatever pass reset its runs, and always yields at least one run |
| DocxLayout.ResetRuns | src/document_generator.py:226-254 | after the body pass every run is in the body font at 12pt, not bold and black; after the heading pass every run is not bold and black |
| DocxLayout.BodyRunsAbsorb | src/document_generator.py:226-230 | a second body pass, or a body pass after the heading pass, is the body pass alone |
| DocxLayout.HeadingRunsAbsorb | src/document_generator.py:252-254 | the heading pass after either pass changes nothing more |
| DocxLayout.FormatBodyRuns | src/document_generator.py:226-230 | the body pass acts on whatever runs are already there |
| DocxLayout.FormatHeadingRuns | src/document_generator.py:252-254 | the heading pass acts on whatever runs are already there |
| DocxLayout.TitlePara | src/document_generator.py:362-375 | the title is a centred (right-aligned in a right-to-left language) "Normal" paragraph of one 26pt run of the stripped text, with 36pt after |
| DocxLayout.HeadingPara | src/document_generator.py:378-383 | a heading of Word level `HeadingRank(md_level)`, in that level's style and spacing, showing the stripped text verbatim |
| DocxLayout.BulletPara | src/document_generator.py:499-518 | a list item with 0pt before and 6pt after in the level's "List Bullet" style, left-aligned. In a right-to-left language it is a right-aligned "Normal" paragraph whose text starts with `• ` |
| DocxLayout.NumberedPara | src/document_generator.py:521-536 | the same with the "List Number" styles and no bullet character |
| DocxLayout.AlphaPara | src/document_generator.py:539-553 | a "Normal" list paragraph with list spacing, its label and a space before the text |
| DocxLayout.QuotePara | src/document_generator.py:560-589 | a quote indented 15 mm, with 4pt before and after and 1.2 lines |
| DocxLayout.CodePara | src/document_generator.py:592-595 | a code line is a body-formatted paragraph showing the line verbatim, with no inline markup read |
| DocxLayout.BufferPara | src/document_generator.py:674-685 | the flushed paragraph. A list continuation gets list spacing, a hanging first line and the indent of the last list level. Otherwise it is exactly a formatted body paragraph of the joined text |
| DocxLayout.CodeParaText | src/document_generator.py:592-595 | a code line shows exactly its text |
| DocxLayout.BufferParaText | src/document_generator.py:676-677 | a flushed paragraph shows the joined text, stripped and without its inline markup |
| DocxLayout.BodyHasNoBold | src/document_generator.py:685 | a body paragraph keeps no bold, because the body pass resets every run after the inline runs are added |
| DocxLayout.CellsShape | src/document_generator.py:702 | `[c.strip() for c in row.strip("\|").split("\|")]` gives one cell more than the row has inner `\|` separators after its outer ones are stripped, and every cell is trimmed and contains no `\|` |
| DocxLayout.CellsArePieces | src/document_generator.py:702 | cell k is the stripped k-th piece between the inner separators: the pieces contain no `\|` and, joined back with `\|`, give the row without its outer `\|` characters |
| DocxLayout.TableRow | src/document_generator.py:616-625 | a data row is as wide as the header: each cell is stripped, cells beyond the header width are dropped, and missing cells are empty |
| DocxLayout.SimpleTable | src/document_generator.py:598-625 | a "Table Grid" table whose header cells are the stripped header entries with bold runs, one row per data row cut or padded to the header width, and every cell's run in the language's font at 11 points |
| DocxLayout.QuoteText | src/document_generator.py:633 | `^>\s?(.*)` matches exactly the lines starting with `>`. The capture starts after `>` and one optional blank, and runs up to the first newline or the end of the line |
| DocxLayout.MatchAlpha | src/document_generator.py:804 | a lettered item's label is the line's first two characters, a letter followed by `)` or `.`, and its text is one trimmed non-empty line |
| DocxLayout.MatchAlphaShape | src/document_generator.py:804 | a line the lettered-item regex matches is its label, at least one blank, the captured text and trailing blanks |
| DocxLayout.AlphaMatch | src/document_generator.py:804 | conversely, a letter with `)` or `.`, blanks and a one-line trimmed text are matched, with that label and exactly that text |
| DocxLayout.ListLevel | src/document_generator.py:783-788 | the list level is half the indentation width (tabs count as four spaces), capped at 2 |
| DocxLayout.Pieces | src/document_generator.py:822 | `[p.strip() for p in parts if p.strip()]` keeps at most one item per piece. Every item is trimmed and non-empty, and every non-blank piece gives its stripped self |
| DocxLayout.PiecesConcat | src/document_generator.py:822 | filtering the pieces distributes over concatenation |
| DocxLayout.PiecesOne | src/document_generator.py:822 | a single piece gives its stripped self exactly when it is not blank |
| DocxLayout.PiecesInOrder | src/document_generator.py:822 | the items keep the pieces' order: a piece contributes its stripped self, exactly when it is not blank, between the items of the pieces before and after it |
| DocxLayout.BulletContent | src/document_generator.py:816-819 | the content after `- ` of a stripped bullet line is trimmed, never empty, and gives at least one item |
| DocxLayout.BulletItems | src/document_generator.py:821-828 | a bullet line's content gives at least one item, each trimmed and non-empty; content without ` - ` is its own single item |
| DocxLayout.DropDashTrimmed | src/document_generator.py:824-825 | dropping a leading `- ` from a piece leaves it trimmed and non-empty |
| DocxLayout.BulletParas | src/document_generator.py:823-826 | one bullet paragraph per piece, in order |
| DocxConverter.CodeParas | src/document_generator.py:687-691 | one code paragraph per collected line, in order |
| DocxConverter.ListItemsOf | src/document_generator.py:792-831 | a line without its indentation is a list line exactly when the numbered regex, the lettered regex or a leading `- ` matches it. A numbered or lettered line gives one item, and a stripped list line at least one. Every paragraph is a list item |
| DocxConverter.CollectData | src/document_generator.py:703-708 | the data loop skips separator rows and splits every other row into cells |
| DocxConverter.Converter.constructor | src/document_generator.py:660-667 | the loop starts with no title, no heading, type NORMAL, level 0, and empty buffer, code and table lists |
| DocxConverter.Converter.FlushBuffer | src/document_generator.py:669-685 | `flush_buffer` changes the state exactly as its step function says; see DocxConverterRules.FlushRules |
| DocxConverter.Converter.FlushCodeBlock | src/document_generator.py:687-691 | `flush_code_block` appends one paragraph per collected line and empties the list |
| DocxConverter.Converter.FlushTable | src/document_generator.py:693-711 | `flush_table` changes the state exactly as its step function says; see DocxConverterRules.TableRule |
| DocxConverter.Converter.WriteTable | src/document_generator.py:701-711 | with two or more pending rows, the first row gives the header cells, the data rows follow it with separator rows skipped, and a table is added only when a data row remains; the pending rows are cleared in every case |
| DocxConverter.Converter.Heading | src/document_generator.py:738-759 | a heading line flushes the buffer, then writes the title or the heading with its spacing fixes |
| DocxConverter.Converter.ListItems | src/document_generator.py:794-831 | a list line flushes, trims a "Normal" paragraph before the list, appends its items and records the list and its level |
| DocxConverter.Converter.ListOrBody | src/document_generator.py:782-845 | list detection, then continuation, then body, in the source's order |
| DocxConverter.Converter.Other | src/document_generator.py:761-845 | blank, quote, rule, then list or body, in the source's order |
| DocxConverter.Converter.Blank | src/document_generator.py:764-767 | a blank line flushes and resets the element type to NORMAL |
| DocxConverter.Converter.Quote | src/document_generator.py:770-774 | a quote line flushes and appends a quote paragraph |
| DocxConverter.Converter.Rule | src/document_generator.py:777-780 | a rule line flushes and then starts the buffer with the line |
| DocxConverter.Converter.ProcessLine | src/document_generator.py:713-845 | the loop body: fence, code line, table row, pending table, then heading or the rest |
| DocxConverter.Converter.Fence | src/document_generator.py:715-722 | a fence closes an open block by writing its lines, or flushes the buffer and opens one |
| DocxConverter.Converter.TableRowLine | src/document_generator.py:728-733 | the first table row flushes the buffer; each row is collected and clears the heading flag |
| DocxConverter.Converter.Plain | src/document_generator.py:734-845 | a pending table is flushed, then the heading or the other branches run |
| DocxConverter.Converter.FinalFlush | src/document_generator.py:847-852 | after the loop: an open code block, then a pending table, then the buffer |
| DocxConverter.ConvertMarkdownToDocx | src/document_generator.py:639-853 | the loop over the file's lines plus the final flushes gives the body of the saved document |
| DocxConverterProps.BufferFlushedExtends | src/document_generator.py:669-685 | flushing the buffer only appends and re-spaces |
| DocxConverterProps.TableFlushedExtends | src/document_generator.py:693-711 | flushing a table only appends |
| DocxConverterProps.HeadingStepExtends | src/document_generator.py:738-759 | a heading only appends and re-spaces |
| DocxConverterProps.ListStepExtends | src/document_generator.py:794-831 | a list line only appends and re-spaces |
| DocxConverterProps.ListOrBodyExtends | src/document_generator.py:782-845 | a list-or-body line only appends and re-spaces |
| DocxConverterProps.ChoiceExtends | src/document_generator.py:782-845 | each of the three outcomes of a list-or-body line only appends and re-spaces |
| DocxConverterProps.OtherExtends | src/document_generator.py:761-845 | blank, quote, rule, list and body lines only append and re-space |
| DocxConverterProps.LineStepExtends | src/document_generator.py:713-845 | one line never removes, reorders or rewrites a written block; at most it re-spaces paragraphs |
| DocxConverterProps.FinishedExtends | src/document_generator.py:847-852 | the final flushes only append and re-space |
| DocxConverterProps.StateAfterSnoc | src/document_generator.py:713 | the state after one more line is that line's step from the state before |
| DocxConverterProps.OneMoreLineExtends | src/document_generator.py:713-845 | one more line keeps every block already written, up to spacing |
| DocxConverterProps.MoreLinesExtend | src/document_generator.py:713-845 | reading more lines keeps every block already written, in place, up to spacing |
| DocxConverterProps.WrittenIsKept | src/document_generator.py:713-852 | every block written after the first lines is in the finished document at the same place with the same content; only its spacing can have changed |
| DocxConverterProps.AppendPlain | src/document_generator.py:754 | appending non-title blocks keeps the title count and a last paragraph |
| DocxConverterProps.BufferFlushedSound | src/document_generator.py:669-685 | flushing the buffer keeps the loop invariant: one title exactly when the title flag is set, a paragraph behind the heading flag, no code lines outside a block, a list level ≤ 2 |
| DocxConverterProps.FlushedParaSound | src/document_generator.py:675-676 | appending a non-title paragraph after the list spacing fix keeps the invariant |
| DocxConverterProps.CodeFlushedSound | src/document_generator.py:687-691 | flushing a code block keeps the invariant |
| DocxConverterProps.TableFlushedSound | src/document_generator.py:693-711 | flushing a table keeps the invariant |
| DocxConverterProps.TableBlockSound | src/document_generator.py:709-711 | writing a table, or not, and emptying the rows keeps the invariant |
| DocxConverterProps.HeadingStepSound | src/document_generator.py:738-759 | a heading keeps the invariant |
| DocxConverterProps.TitleStepSound | src/document_generator.py:744-746 | the first level-1 heading becomes the only title and sets the flag |
| DocxConverterProps.StackedHeadingSound | src/document_generator.py:748-757 | a heading straight after a heading keeps the invariant |
| DocxConverterProps.FirstHeadingSound | src/document_generator.py:752-754 | any other heading keeps the invariant |
| DocxConverterProps.ListStepSound | src/document_generator.py:794-831 | a list line keeps the invariant |
| DocxConverterProps.BodyStepSound | src/document_generator.py:841-845 | a body line keeps the invariant |
| DocxConverterProps.ListOrBodySound | src/document_generator.py:782-845 | a list-or-body line keeps the invariant |
| DocxConverterProps.OtherSound | src/document_generator.py:761-845 | blank, quote, rule, list and body lines keep the invariant |
| DocxConverterProps.LineStepSound | src/document_generator.py:713-845 | every line keeps the invariant |
| DocxConverterProps.SoundAfter | src/document_generator.py:713-845 | the invariant holds after any number of lines |
| DocxConverterProps.FinishedKeepsTitleFlag | src/document_generator.py:847-852 | the final flushes leave the title flag alone |
| DocxConverterProps.FinishedSound | src/document_generator.py:847-852 | the final flushes keep the invariant |
| DocxConverterProps.TitleAtMostOnce | src/document_generator.py:744-746 | the finished document holds at most one title, and holds one exactly when a level-1 heading was read: only the first such heading becomes the title |
| DocxConverterProps.ListOrBodyKeepsHeadingFlag | src/document_generator.py:782-845 | list and body lines leave the heading flag as the line before set it |
| DocxConverterProps.ChoiceKeepsHeadingFlag | src/document_generator.py:782-845 | the same for each of the three outcomes |
| DocxConverterProps.PlainHeadingFlag | src/document_generator.py:738-761 | after a line outside code and tables, the heading flag is set exactly when the line was a heading |
| DocxConverterProps.OtherKeepsHeadingFlag | src/document_generator.py:763-845 | the other branches leave the heading flag as line 761 cleared it |
| DocxConverterProps.HeadingState | src/document_generator.py:715-761 | outside a code block the state says "after a heading" exactly when the line was a heading that is not a table row; every other line, a blank one included, resets it. Fences and code lines leave it as it was |
| DocxConverterRules.NoListWithoutParagraph | src/document_generator.py:281-285 | with no paragraph the style name is empty, so there is no list to close |
| DocxConverterRules.FlushRules | src/document_generator.py:669-685 | the buffer is always emptied and only the body changes. A paragraph is written exactly when the joined lines are not blank: a continuation when the buffer continued a list item, else a body paragraph. It shows the joined text without its inline markup |
| DocxConverterRules.FlushClosesList | src/document_generator.py:279-286 | prose after a list: a last paragraph whose style names a list gets 12pt after once a paragraph is written |
| DocxConverterRules.ContinuationIndent | src/document_generator.py:678-683 | a continuation hangs at the indent of the list level it continues (15 + 5·level mm on the start side, first line 4 mm out), with list spacing |
| DocxConverterRules.FlushedAt | src/document_generator.py:674-685 | a flushed buffer is one paragraph appended after the body, built from the joined lines |
| DocxConverterRules.BodyLayout | src/document_generator.py:217-224 | body text is "Normal" with nothing before. It is justified with 1.2 lines and 6pt after, or right-aligned with 1.3 lines and 8pt after in a right-to-left language |
| DocxConverterRules.TitleRule | src/document_generator.py:744-746 | the first level-1 heading is appended as the title paragraph and raises the title and heading flags |
| DocxConverterRules.HeadingRule | src/document_generator.py:747-758 | any other heading is appended once, as a heading of Word level `HeadingRank(level)` with its level's space after, showing the stripped text |
| DocxConverterRules.ConsecutiveHeadingRule | src/document_generator.py:748-757 | straight after a heading, the previous paragraph gets 4pt after and the new heading 6pt before |
| DocxConverterRules.SeparateHeadingRule | src/document_generator.py:752-754 | otherwise the heading keeps its level's space before, and a "Normal" paragraph before it is trimmed to 2pt after |
| DocxConverterRules.ListRule | src/document_generator.py:794-831 | a list line writes its items after everything flushed, records the list context and its level, and trims a "Normal" paragraph before it to 0pt after; no other paragraph changes |
| DocxConverterRules.ListItemsLayout | src/document_generator.py:483-553 | every item of a list line has list spacing (0pt before, 6pt after), the level's indent on the start side and a hanging first line |
| DocxConverterRules.ContinuationRule | src/document_generator.py:834-839 | an indented line after a list item that is no list item itself is collected for a continuation and writes nothing yet |
| DocxConverterRules.NoDataRows | src/document_generator.py:704-709 | a table has no data exactly when every row after the header is a separator |
| DocxConverterRules.TableRule | src/document_generator.py:693-711 | fewer than two rows go back to the buffer as text. Otherwise a table is written after everything before it only when a data row is left, the table being `insert_simple_table` of the first row's cells and the data rows, so its header is exactly the first row's cells and every data row is as wide as the header. The rows are emptied either way |
| DocxConverterRules.CodeLinesShown | src/document_generator.py:687-691 | every line of a code block becomes one paragraph showing exactly that line |
| DocxConverterRules.UnterminatedFence | src/document_generator.py:848-849 | a code block still open at the end of input is written anyway, after the body so far |
| DocxConverterRules.NothingPending | src/document_generator.py:847-852 | after the final flushes no buffered line, table row or code line is left |
| MakeNotes.NotesFontChoice | src/make_notes.py:25-37 | exactly Chinese and Arabic get a font of their own; Arabic gets Traditional Arabic |
| MakeNotes.ColonRuns | src/make_notes.py:303-324 | with a colon: a bold run, then a plain run. Without one: a single plain run. Every run is in the font at 12pt and black |
| MakeNotes.FirstColon | src/make_notes.py:306 | `split(":", 1)` cuts at the first colon, with no colon before it |
| MakeNotes.ColonRunsAt | src/make_notes.py:306-314 | the bold run is the stripped text before the first colon plus `:`, and the runs spell that, a space and the stripped rest |
| MakeNotes.ColonSplit | src/make_notes.py:303-324 | what the runs say: with a colon, the stripped head, the colon, one space and the stripped rest; without one, the stripped text |
| MakeNotes.NotesTitle | src/make_notes.py:272-284 | the title is a centred "Normal" paragraph of one 26pt run of the stripped text, with 36pt after (right-aligned in a right-to-left language) |
| MakeNotes.NotesHeading | src/make_notes.py:287-291 | a heading of Word level `HeadingRank(md_level)` with that level's spacing, left-aligned (right-aligned in a right-to-left language), runs not bold and black |
| MakeNotes.NotesBody | src/make_notes.py:294-296 | one run of the right-stripped text; justified, 1.2 lines, nothing before and 10pt after, runs in body type; right-aligned in a right-to-left language |
| MakeNotes.NotesListIndent | src/make_notes.py:327-336 | 15 + 5·level mm with a 4 mm hanging first line, on the right only in a right-to-left language and on the left only otherwise |
| MakeNotes.NotesItem | src/make_notes.py:339-362 | the level's list style, 1.2 lines, 0pt before and 6pt after, the list indent and the bold-before-colon runs |
| MakeNotes.NotesBullets | src/make_notes.py:444-451 | one bullet paragraph per piece, in order |
| MakeNotes.NotesItemsOf | src/make_notes.py:429-452 | a line without its indentation is a list line exactly when the numbered regex or a leading `- ` matches it (there are no lettered items). A numbered line gives one item, and a stripped list line at least one. Every paragraph is a list item |
| MakeNotes.NotesConverter.constructor | src/make_notes.py:389-390 | no title yet and an empty buffer |
| MakeNotes.NotesConverter.FlushBuffer | src/make_notes.py:392-398 | `flush_buffer` changes the state as its step function says; see MakeNotesProps.NotesFlushRule |
| MakeNotes.NotesConverter.Heading | src/make_notes.py:401-413 | a heading line flushes, then writes the title or the trimmed-before heading |
| MakeNotes.NotesConverter.ListItems | src/make_notes.py:429-452 | a list line flushes, trims and appends its items |
| MakeNotes.NotesConverter.ProcessLine | src/make_notes.py:400-454 | the loop body: heading, blank, numbered, bullet, else buffered |
| MakeNotes.MdToDocx | src/make_notes.py:372-457 | the loop over the file's lines plus the final flush gives the body of the saved document |
| MakeNotesProps.NotesFlushedExtends | src/make_notes.py:392-398 | flushing only appends and re-spaces |
| MakeNotesProps.NotesHeadingExtends | src/make_notes.py:401-413 | a heading only appends and re-spaces |
| MakeNotesProps.NotesListExtends | src/make_notes.py:429-452 | a list line only appends and re-spaces |
| MakeNotesProps.NotesStepExtends | src/make_notes.py:400-454 | one line never removes, reorders or rewrites a block |
| MakeNotesProps.NotesAfterSnoc | src/make_notes.py:400 | the state after one more line is that line's step |
| MakeNotesProps.NotesOneMoreLine | src/make_notes.py:400-454 | one more line keeps every block already written, up to spacing |
| MakeNotesProps.NotesMoreLines | src/make_notes.py:400-454 | more lines keep every block already written, in place, up to spacing |
| MakeNotesProps.NotesWrittenIsKept | src/make_notes.py:400-456 | every block written after the first lines is in the saved document at the same place with the same content |
| MakeNotesProps.NoTitleAppended | src/make_notes.py:410-412 | appending non-title blocks keeps the title count |
| MakeNotesProps.NotesFlushedSound | src/make_notes.py:392-398 | flushing keeps "one title exactly when the flag is set" and the flag |
| MakeNotesProps.NotesHeadingSound | src/make_notes.py:401-413 | a heading keeps the title invariant |
| MakeNotesProps.NotesListSound | src/make_notes.py:429-452 | a list line keeps the title invariant |
| MakeNotesProps.NotesStepSound | src/make_notes.py:400-454 | every line keeps the title invariant |
| MakeNotesProps.NotesSoundAfter | src/make_notes.py:400-454 | the invariant holds after any number of lines |
| MakeNotesProps.NotesTitleAtMostOnce | src/make_notes.py:407-409 | the saved document holds at most one title, and holds one exactly when a level-1 heading was read |
| MakeNotesProps.RStripTrimmed | src/make_notes.py:295 | the joined buffer is already trimmed, so `rstrip` leaves it alone |
| MakeNotesProps.NotesFlushRule | src/make_notes.py:392-398 | the buffer is emptied and the title flag kept. A paragraph is written exactly when the joined lines are not blank, and it shows exactly the joined text |
| MakeNotesProps.NotesHeadingRule | src/make_notes.py:410-412 | every heading but the title is appended after a "Normal" paragraph before it is trimmed to 2pt. A heading before it keeps its spacing, and the new heading has its level's spacing: there is no consecutive-heading fix |
| MakeNotesProps.ProseIsBuffered | src/make_notes.py:454 | every line other than a heading, a blank, a numbered item or a `- ` bullet (a fence, a quote or a table row included) is kept for the next body paragraph and writes nothing yet |
| MakeNotesProps.BlankRule | src/make_notes.py:415-417 | a blank line only ends the paragraph being collected |
| MakeNotesProps.NotesListStyles | src/make_notes.py:340-353 | both list styles, at every level, have names containing "List" |
| MakeNotesProps.NotesItemLayout | src/make_notes.py:339-362 | an item paragraph has a list style, list spacing, the start-side indent only and one or two runs |
| MakeNotesProps.NotesItemsLayout | src/make_notes.py:429-452 | every paragraph of a list line is laid out as a list item: 0pt before and 6pt after, a 4 mm hanging indent at the level's indent on the start side only, one or two runs |
| MakeNotesProps.NotesListRule | src/make_notes.py:429-452 | a list line writes its items after everything flushed before it, with the buffer empty, and trims a "Normal" paragraph before the list to 0pt after |
| MakeNotesProps.NotesFlushClosesList | src/make_notes.py:187-193 | prose after a list: the last list paragraph gets 12pt after once a body paragraph is written |
| GoogleDocs.Shifted | src/google_docs_manager.py:347-348 | each range of a block is moved by the block's start and keeps its style |
| GoogleDocs.ShiftRanges | src/google_docs_manager.py:347-348 | the `for fs, fe, style in fmt_ranges` loop moves each range by the block's start, in order |
| GoogleDocs.Uploader.constructor | src/google_docs_manager.py:264-273 | empty text, formats and inline ranges, offset 0, not in a code block, no previous type |
| GoogleDocs.Uploader.AddBlock | src/google_docs_manager.py:342-349 | a block with inline markup appends its clean text plus a newline, records its range and shifted inline ranges, and advances the offset |
| GoogleDocs.Uploader.Plain | src/google_docs_manager.py:331-405 | a line outside a code block, in the source's branch order: heading, quote, rule, bullet, number, prose |
| GoogleDocs.Uploader.ProcessLine | src/google_docs_manager.py:316-405 | the loop body. It returns `false` where the source raises (a code line before `start` is bound) and otherwise changes the state as the step function says |
| GoogleDocs.Uploader.BuildRequests | src/google_docs_manager.py:407-587 | steps 1 to 4 build the request list from the collected state |
| GoogleDocs.FailureSticks | src/google_docs_manager.py:323-329 | once a line has raised, the whole upload has raised |
| GoogleDocs.UploadMarkdownContent | src/google_docs_manager.py:260-591 | the request list the upload would send, or the error it raises |
| GoogleDocsProps.ShiftedWithin | src/google_docs_manager.py:347-348 | the shifted ranges of a block end before its newline |
| GoogleDocsProps.EmittedSound | src/google_docs_manager.py:336-349 | a block keeps the upload invariant: the text is as long as the offset, every block range is inside the text, the non-code block ranges are in order and disjoint, and inline ranges lie inside the text. Blocks need not be contiguous, since code lines add text without a block; where each block starts is GoogleDocsProps.EmittedRule's |
| GoogleDocsProps.PlainSound | src/google_docs_manager.py:331-405 | every kind of non-code line keeps the invariant |
| GoogleDocsProps.StepSound | src/google_docs_manager.py:316-405 | every line that does not raise keeps the invariant |
| GoogleDocsProps.SoundAfter | src/google_docs_manager.py:316-405 | the invariant holds after any lines that do not raise |
| GoogleDocsProps.EmittedRule | src/google_docs_manager.py:336-349 | a block at `1 + current_offset` appends exactly its markup-free text and a newline, is recorded over exactly that text, keeps the offset equal to the text length, keeps the earlier inline ranges and adds one per match |
| GoogleDocsProps.EmittedInlines | src/google_docs_manager.py:347-348 | each inline range covers, inside its block and before the newline, exactly the text of its match's group, with the match's style |
| GoogleDocsProps.RangeK | src/google_docs_manager.py:290-311 | range k holds match k's group inside the clean text, with its style |
| GoogleDocsProps.HeadingSplit | src/google_docs_manager.py:339-341 | a heading splits at its first space: the marker before it gives the level and the rest is the text; without a space the level is the whole line and the text is empty |
| GoogleDocsProps.BlankLineRule | src/google_docs_manager.py:332-334 | outside a code block, a line that is blank after `rstrip` adds nothing and leaves `prev_type` alone |
| GoogleDocsProps.BlanksChangeNothing | src/google_docs_manager.py:332-334 | a run of blank lines outside a code block changes nothing |
| GoogleDocsProps.ConsecutiveAcrossBlanks | src/google_docs_manager.py:345 | headings stay consecutive across blank lines: a heading after blanks is consecutive exactly when the last block before them was a heading |
| GoogleDocsProps.RuleLineRule | src/google_docs_manager.py:361-366 | a rule line is written as the four characters `---\n`, as one plain block with no inline range |
| GoogleDocsProps.ContinuationRule | src/google_docs_manager.py:388-401 | an indented line after a bullet, number or continuation is a continuation; anything else is plain prose |
| GoogleDocsProps.CodeFirstRaises | src/google_docs_manager.py:323-329 | a code line before any other non-blank line reads `start` unbound, and the upload raises |
| GoogleDocsProps.AllFormatRequestsConcat | src/google_docs_manager.py:464 | the block requests of consecutive block lists concatenate |
| GoogleDocsProps.AllFormatRequestsAt | src/google_docs_manager.py:464-558 | the requests of block k sit between those of the blocks before and after it: block requests follow document order |
| GoogleDocsProps.RtlBulletsFollowed | src/google_docs_manager.py:532-558 | in a right-to-left language, every bullet or numbered block's `createParagraphBullets` (its preset by kind) is followed at once by a right-to-left, end-aligned paragraph request over the same range |
| GoogleDocsProps.NamedStyleRule | src/google_docs_manager.py:466 | the named style is `TITLE` exactly for level 1. Levels 2 to 7 get `HEADING_1` to `HEADING_6`, and deeper levels get `HEADING_6` |
| GoogleDocsProps.HeadingRequestsRule | src/google_docs_manager.py:465-492 | a heading gets a paragraph request with its named style. It is centred exactly at level 1, and otherwise aligned to the end in a right-to-left language and to the start in any other. It is spaced 4 below and 6 above when consecutive, else 36/0 at level 1 and 8/36 below it. Then comes its font request |
| GoogleDocsProps.AllInDocumentConcat | src/google_docs_manager.py:407-587 | requests inside the document stay inside when lists are joined |
| GoogleDocsProps.FormatRequestsInDocument | src/google_docs_manager.py:464-558 | a block inside the text gets only requests inside the text |
| GoogleDocsProps.AllFormatRequestsInDocument | src/google_docs_manager.py:464-558 | every block request names a range inside the inserted text |
| GoogleDocsProps.InlineRequestsInDocument | src/google_docs_manager.py:561-587 | every inline request names a range inside the inserted text |
| GoogleDocsProps.RequestsRule | src/google_docs_manager.py:407-587 | the list starts with inserting the whole text at index 1, then the font and the paragraph style over all of it, then the block requests, and last the inline ones. Every range any request names lies inside the inserted text |
| GoogleDocsProps.UploadStaysInDocument | src/google_docs_manager.py:260-591 | whatever the lines, a successful upload opens with inserting its text and sends only requests inside that text |

## Left out

- python-docx itself: XML elements (`w:bidi`, `w:shd`, borders), margins, base styles, the header image and the page-number footer. Paragraphs are abstract records carrying only the style name, alignment, spacing, indents, right-to-left flag and runs. Run colours are an enumeration, and quote borders and shading are not modelled.
- Floating point: line spacing, centimetres and RGB fractions are scaled integers or enumerations. The Google Docs paragraph fields 115 and 130 are kept as given.
- The Google APIs: OAuth, Drive search, `create_document`, `setup_document_layout`, image upload and delete, and `batchUpdate(...).execute()`. The request list is a value returned to the caller.
- Google Docs indices count UTF-16 code units; the model counts characters.
- HTTP in the translators: each request goes to a `Service` function that returns a translation, an HTTP refusal with its status, a network failure, or a malformed body. Timeouts and JSON shapes are not modelled.
- Environment variables are an `Env` parameter. `load_dotenv` is not modelled.
- The Python regex engine: the patterns are hand-written scanners. Whitespace is the `str.isspace` set. Digits, letters and case mapping are ASCII only; Python's Unicode `isdigit` and `lower` are wider.
- Classifier.RebuildLines: returns `None` where the source raises `IndexError`; the error message is not modelled.
- GoogleDocs.Uploader.ProcessLine: a code line reached after another block records the previous block's stale `start`, as the source does. A code line reached before any block is reported as the `UnboundLocalError` it raises.
- File reading and writing, `shutil.copy2`, DOCX and PDF generation after translation, the `soffice` conversion, the spinner thread, `print` messages, `argparse` and `main`.
- The `generated_links` attribute and the Google Docs upload inside `process_source_file`.
- `FallbackTranslator.translate` prints each failure to standard error. The model keeps the error log, not the printed text.
