# Appendix generator: a Dafny model of its core

The application is a single-page form that helps a teacher fill in the
administrative lesson-plan appendices (Phụ lục I and Phụ lục III). The teacher
types or uploads the lesson material, ticks the cross-curricular topics to
integrate, and asks a hosted language model to produce the appendix table as
HTML. The result streams into a preview and can be exported as a Word
document.

This project models the sequential logic under that form, in four modules:

- `Strings` holds the JavaScript string behaviour the code relies on:
  - the ECMAScript whitespace class shared by `trim()` and the regular
    expression `\s`;
  - `trim`;
  - `Array.prototype.join`;
  - `endsWith`;
  - the global whitespace replacement.
- `Catalog` transcribes the `GenerationConfig` record, the `AppendixType` enum
  and the integration-topic catalog, and adds the grade labels the grade
  selector offers.
- `GeminiService` models the generation client:
  - the competency level derived from the grade label;
  - the resolution of selected topic keys to labels;
  - the values spliced into the system instruction and the user prompt;
  - the request that is sent;
  - the loop that folds the streamed chunks into one text, reporting the
    running total after each chunk.
- `App` models the UI shell:
  - the topic toggle;
  - the upload handler's suffix dispatch and PDF page loop;
  - the generate handler's two guards and its state updates;
  - the export file name and document body.

  The component's state is a class, `AppState`, whose handlers are methods.
  Its `Valid()` predicate says that no handler is in progress and that the
  selection holds distinct catalog keys. The model runs the handlers one at a
  time, each to completion, so every handler starts from a `Valid()` state.
  The page itself does not guarantee this: only the generate button is
  disabled while a handler runs (App.tsx:267). The topic checkboxes and the
  file input stay active during a generation or an upload.

The external parts are parameters:

- The language-model endpoint is a `Response`. Either building the client
  throws, with the thrown error's message (`ClientFailure`), or the request is
  sent and the endpoint delivers chunks, each with or without text, and then
  completes or fails (`Stream`).
- The three file readers (the Word extractor, the PDF reader and the browser's
  plain-text read) are the fields of an `UploadedFile`. A reader that throws
  is `None`.

PDF text: each page's text items are joined with single spaces and the page
ends with a newline, so two one-item pages "A" and "B" give "A\nB\n". There is
no space before the newline. The model follows the code here.

## Model

| member | source | states |
|---|---|---|
| `Strings.IsWhitespace` | App.tsx:84 | the ECMAScript WhiteSpace and LineTerminator characters, the one set that both `trim()` here and the `\s` of App.tsx:123 use: TAB, VT, FF, SPACE, NBSP, ZWNBSP (U+FEFF), the other Unicode space separators, LF, CR, U+2028 and U+2029 |
| `Strings.EndsWith` | App.tsx:57-61 | `String.prototype.endsWith`: the suffix fits in the text and equals its last characters, compared case-sensitively |
| `Strings.Trim` | App.tsx:84 | `s.trim()` is no longer than `s`, and it is empty or neither starts nor ends with whitespace |
| `Strings.TrimOffset` | App.tsx:84 | the offset where the trimmed text starts leaves room for the whole trimmed text inside `s` |
| `Strings.TrimIsCore` | App.tsx:84 | `s.trim()` is the run of `s` that starts at `TrimOffset(s)`, and everything before and after that run is whitespace |
| `Strings.TrimEmptyIff` | App.tsx:84 | `s.trim()` is empty exactly when every character of `s` is ECMAScript whitespace |
| `Strings.IsBlank` | App.tsx:84 | the "no source text" test holds exactly when the text is empty or whitespace only |
| `Strings.Join` | services/geminiService.ts:35 | `items.join(sep)`, used for the label list (here and at line 77) and for a PDF page's items (App.tsx:68): "" for no items, the item itself for one, and the items separated by `sep` otherwise. Its properties are stated by `JoinContainsItem` and `JoinAvoids` |
| `Strings.ConcatIsJoin` | services/geminiService.ts:30-79 | filling a template by concatenating its pieces is joining them with the empty separator |
| `Strings.JoinContainsItem` | services/geminiService.ts:35 | every item occurs in the joined text |
| `Strings.ReplaceWhitespace` | App.tsx:123 | `replace(/\s/g, c)` keeps the length, puts `c` at every whitespace position and keeps every other character in place |
| `Catalog.AppendixType.Name` | types.ts:2-5 | each appendix kind's string value is non-empty and has no whitespace |
| `Catalog.IntegrationKeysListCatalog` | constants.tsx:31-40 | the key list is exactly the catalog's key set, with no key twice |
| `GeminiService.LabelTableMatchesCatalog` | services/geminiService.ts:17-26 | the service's label table has the catalog's keys, and each label equals the catalog label of the same key |
| `GeminiService.LabelsInjective` | services/geminiService.ts:17-26 | no two topics share a label |
| `GeminiService.TcLevel` | services/geminiService.ts:11-15 | the level is "TC1" or "TC2". It is "TC1" exactly when the grade label contains '6' or '7', so a label with no grade digit gets "TC2" |
| `GeminiService.GradeOptionsAdvertiseTheirLevel` | App.tsx:210-213 | each of the four grade options ends with "(Mức L)", where L is the level the service derives from that option |
| `GeminiService.LabelOf` | services/geminiService.ts:28 | `integrationLabels[key]`: the table's label for a key in the table, and undefined (`None`) for any other key. `LabelOfCatalogKey` and `LabelOfDistinct` state its values on catalog keys |
| `GeminiService.LabelOfCatalogKey` | services/geminiService.ts:17-28 | a catalog key's label is the catalog label of that key |
| `GeminiService.LabelOfDistinct` | services/geminiService.ts:17-28 | two different catalog keys have different labels |
| `GeminiService.SelectedLabels` | services/geminiService.ts:28 | one label per selected key, in selection order; element i is key i's table label, or undefined for a key outside the table |
| `GeminiService.SelectedLabelsAreCatalogLabels` | services/geminiService.ts:28 | for a selection of catalog keys, element i is the catalog label of key i |
| `GeminiService.UnselectedLabelsAbsent` | services/geminiService.ts:28-36 | the label of a catalog topic that is not selected does not appear among the selected labels |
| `GeminiService.JoinLabels` | services/geminiService.ts:35 | `selectedLabels.join(", ")`, where an undefined label is written as "". `JoinLabelsContainsLabels` states what it contains |
| `GeminiService.JoinLabelsContainsLabels` | services/geminiService.ts:35 | every defined label occurs in the joined list |
| `GeminiService.AllowedList` | services/geminiService.ts:35 | the bracketed label list spliced into both prompts (here and at line 77) starts with "[" and ends with "]" |
| `GeminiService.AllowedListNamesSelection` | services/geminiService.ts:28-35 | the catalog label of every selected topic occurs in the bracketed list |
| `GeminiService.SystemInstruction` | services/geminiService.ts:30-61 | the system instruction: the allowed list, the textbook series, the AI codes, the competency code and its example with the derived level, and the appendix kind, in that order, between the template's fixed pieces. Its contents are stated by `PromptsListAllowedLabels` and `PromptsCarryCodes` |
| `GeminiService.UserPrompt` | services/geminiService.ts:63-79 | the user prompt: the quoted source text, the subject, grade, series and appendix kind, the allowed list and the AI code list, in that order, between the template's fixed pieces. Its contents are stated by `UserPromptQuotesInput`, `PromptsListAllowedLabels` and `PromptsCarryCodes` |
| `GeminiService.BuildRequest` | services/geminiService.ts:82-89 | the request names the fixed model and temperature 0.1 |
| `GeminiService.PromptsListAllowedLabels` | services/geminiService.ts:35-77 | both the system instruction (line 35) and the user prompt (line 77) contain "[" + the selected labels joined by ", " + "]" |
| `GeminiService.PromptsCarryCodes` | services/geminiService.ts:49-78 | the system instruction contains the competency code and its example, both carrying the derived level, and the four AI codes; the user prompt contains the AI code list (line 78) |
| `GeminiService.UserPromptQuotesInput` | services/geminiService.ts:63-67 | the user prompt contains the source text verbatim between triple quotes |
| `GeminiService.AiOnlyGradeEight` | services/geminiService.ts:11-35 | with only the AI topic selected and grade "Khối 8", the allowed list is "[Trí tuệ nhân tạo (AI)]" and the level is TC2 |
| `GeminiService.ChunkText` | services/geminiService.ts:92 | `chunk.text \|\| ""`: a chunk without text counts as "" |
| `GeminiService.Accumulated` | services/geminiService.ts:91-94 | the running buffer after the given chunks, each chunk's text appended in turn. `AccumulatedAppend` and `AccumulatedIsConcatenation` state its properties |
| `GeminiService.Concatenation` | services/geminiService.ts:91-97 | the chunk texts concatenated in stream order: the independent reference `AccumulatedIsConcatenation` proves the buffer equal to |
| `GeminiService.Updates` | services/geminiService.ts:92-95 | the callback receives exactly one value per chunk |
| `GeminiService.Reports` | services/geminiService.ts:9-95 | the callback values of a call: one per chunk of a stream, and none when building the client throws |
| `GeminiService.Outcome` | services/geminiService.ts:9-101 | a call throws exactly when building the client throws or the request or stream fails |
| `GeminiService.AccumulatedAppend` | services/geminiService.ts:91-94 | the running buffer after two runs of chunks is the buffer of the first followed by the buffer of the second |
| `GeminiService.AccumulatedIsConcatenation` | services/geminiService.ts:91-97 | the buffer built chunk by chunk is the chunk texts concatenated in stream order, with a missing text counted as "" |
| `GeminiService.UpdatesAreRunningTotals` | services/geminiService.ts:92-95 | the k-th callback value is the buffer after the first k+1 chunks |
| `GeminiService.UpdatesGrowToResult` | services/geminiService.ts:92-97 | each callback value is a prefix of the next, and the last one equals the returned text |
| `GeminiService.GenerateAppendix` | services/geminiService.ts:5-101 | a client that cannot be built throws its own error, with no request and no callback value. Otherwise the request is built from the config. Callback values are reported only when a callback is given, and they are the running totals. The result is the concatenation of all chunk texts, or the one fixed AI error when the request or stream fails |
| `App.RemoveAll` | App.tsx:44 | filtering out a key leaves no occurrence of it, keeps every other key as often as before, and changes nothing when the key is absent |
| `App.RemoveAllAppend` | App.tsx:44 | filtering distributes over concatenation, so the kept keys stay in their original order |
| `App.Toggle` | App.tsx:42-47 | after a toggle the key is selected exactly when it was not before, and every other key occurs as often as before |
| `App.ToggleTwice` | App.tsx:43-46 | toggling an unselected key twice restores the selection exactly |
| `App.ToggleKeepsSelectionWellFormed` | App.tsx:40-49 | toggling a catalog key keeps a selection of distinct catalog keys one |
| `App.ToggledConfig` | App.tsx:41-48 | the state updater changes only the selection, and flips the key's membership |
| `App.KindOf` | App.tsx:57-72 | a name ending in ".docx" or ".doc" goes to the Word reader, one ending in ".pdf" to the PDF reader, and any other name to the plain-text read |
| `App.PageText` | App.tsx:68-69 | one page's text items joined with single spaces, followed by a newline |
| `App.PdfText` | App.tsx:64-70 | the page texts in page order. `PdfTextAppend`, `PdfTextNewlines` and `PdfTextExamples` state its properties |
| `App.PdfTextAppend` | App.tsx:64-70 | the text of two runs of pages is the text of the first followed by the text of the second |
| `App.PdfTextNewlines` | App.tsx:64-70 | when no item contains a newline, the text has exactly one newline per page and ends with one |
| `App.PdfTextExamples` | App.tsx:64-70 | the pages "A" and "B" give "A\nB\n"; the items of one page are separated by one space; no pages give "" |
| `App.ExtractPdfText` | App.tsx:64-70 | the page loop, running over pages 1 to numPages, produces the PDF text of the pages |
| `App.ExtractedText` | App.tsx:57-75 | the text an upload yields: the Word reader's text for ".docx"/".doc", the PDF text for ".pdf", the plain-text read otherwise, and nothing when the chosen reader throws |
| `App.ReadUpload` | App.tsx:56-75 | running the reader the suffix selects, with the PDF page loop, yields exactly `ExtractedText` of the file |
| `App.ErrorText` | App.tsx:100 | the error shown after a failed generation is never empty |
| `App.Rejection` | App.tsx:84-91 | the first guard refuses exactly a blank source text, with the "tải lên" message; the second refuses exactly a non-blank text with an empty selection, with the "chọn ít nhất" message; otherwise the generation goes ahead |
| `App.GenerationError` | App.tsx:99-100 | the banner shows an error exactly when building the client throws or the request or stream fails. The text is never empty. A stream failure shows the fixed AI error, and a client failure shows its own message when that is not empty |
| `App.Progress` | App.tsx:92-98 | the form's states during a generation: one more than the callback values, the first with the output cleared, then one per value with that value as the output, and in every one no error and loading on |
| `App.ExportFileName` | App.tsx:123 | the file name has no whitespace and ends in ".doc". It starts with the appendix kind and "_". Every non-whitespace character of the grade label stays in its place |
| `App.ExportContent` | App.tsx:118 | the exported markup is the preview's inner HTML or the generated HTML. It is empty only when the generated HTML is, because `\|\|` also falls back on an empty preview |
| `App.ExportDocument` | App.tsx:119 | the file text: the byte-order mark, the document header, the content and the closing tags. `ExportRoundTrip` states that the content reads back out of it |
| `App.ExportRoundTrip` | App.tsx:117-119 | reading the body back out of an exported document gives exactly the exported markup, and only exported documents read back |
| `App.AppState.constructor` | App.tsx:12-28 | the application starts from the default configuration, with no output and no error |
| `App.AppState.ToggleIntegration` | App.tsx:40-49 | a checkbox click applies the toggle to the configuration, keeps the selection well formed, and leaves the output and the error alone |
| `App.AppState.HandleFileUpload` | App.tsx:51-81 | a dismissed picker changes nothing. A readable file replaces the source text and clears the error. An unreadable file keeps the source text and shows the fixed read error. The output and the selection are unchanged, and processing has ended |
| `App.AppState.HandleGenerate` | App.tsx:83-104 | a guard that refuses shows its message, sends no request, records no intermediate state and leaves the output alone. Otherwise the request built from the configuration is sent unless the client cannot be built. The fields pass through the `Progress` states, as recorded by `ApplyUpdates`: output cleared, then each running total, always with no error and loading on. The final output is the last of them, and the error is `GenerationError` of the response. Loading has ended and the configuration is unchanged |
| `App.AppState.ShowError` | App.tsx:85-90 | a guard's message goes to the banner, and the configuration and output are unchanged |
| `App.AppState.RunGeneration` | App.tsx:92-103 | after the guards: loading is switched on, the error cleared and the output emptied (the precondition of `ApplyUpdates` depends on all three writes). The request is as in `HandleGenerate`. The recorded states are the `Progress` states of the callback values, the last output stays, the error is `GenerationError` of the response, and loading is cleared on both paths |
| `App.AppState.ApplyUpdates` | App.tsx:96-98 | starting from loading on, no error and an empty output, each callback value replaces the output in turn. The states of the fields before the first value and after each one are exactly the `Progress` states, and loading, the error and the configuration are untouched |
| `App.AppState.ExportToWord` | App.tsx:106-125 | the exported file has the derived name and the Word MIME type. Its body reads back as the preview markup, or as the generated HTML when the preview is missing or empty |

## Left out

- The language-model client, its API key and the network call. The endpoint is the `Response` parameter. Building the client is kept only as its outcome: it succeeds, or it throws with a message (`ClientFailure`). A request that fails outright is a failed `Stream` with no chunks. The `console.error` call is not modelled.
- The Word extractor, the internals of the PDF reader and the browser's plain-text read. They are the fields of `UploadedFile`. A PDF text item without a string (`item.str` undefined) is not modelled: items are strings.
- The MathJax typesetting effect with its timer (App.tsx:31-38): a foreign typesetter driven by a timer.
- The DOM query for the preview, `Blob`, the object URL, the anchor click and `window.print`. The preview's inner HTML is the `previewHtml` parameter, and only the file name, MIME type and text of the export are kept.
- JSX rendering and styling. This includes the form's single-field setters (App.tsx:150-259: appendix kind, subject, grade, series, year, source text and the demo-text button). Each replaces one field of the configuration and does not touch the selection.
- React's asynchronous state batching, and handlers that overlap: a checkbox click or an upload while a generation is still streaming. Each handler is one sequential method that starts from a state where no handler is running.
- The natural-language wording of the two prompt templates. Short stand-in constants replace it. The spliced values, the triple quotes and line breaks around the source text, the context field names, the brackets around the label list, the competency-code template and the AI codes are exact.
- The description under each catalog entry (constants.tsx:32-39): it is display text that nothing in the logic reads, so `Catalog.Topic` keeps only the label.
- The unused grade flags for 8 and 9 (services/geminiService.ts:13-14) and the unused `GeneratedContent` interface (types.ts:20-23).
- `GeminiService.LabelOf` treats every key outside the table as undefined. A JavaScript lookup of an inherited property name such as "constructor" would yield a function instead. Selections only ever hold catalog keys, so this does not arise.
- `GeminiService.BuildRequest` states only the fixed model and temperature. The prompt contents are stated by `PromptsListAllowedLabels`, `PromptsCarryCodes` and `UserPromptQuotesInput`.
- `App.ToggleTwice` covers a key that starts unselected. For a selected key, toggling twice moves it to the end of the selection.
