# Sheet data pipeline — a Dafny model

This project models the data core of a small web app. The app shows a Google Sheet as a searchable table and lets an assistant answer questions about it:

- **SheetService** (`services/sheetService.ts`, `fetchSheetData` once the HTTP text is in hand). It cuts the JSON object out of the Google Visualization ("gviz") callback wrapper, from the first `{` through the last `}`. It rejects a response whose status is `error`. It keeps the columns that have a label. It builds one label-keyed row per raw row. Cell *i* of a row goes under the *i*-th surviving column. The formatted text `f` replaces the raw value `v` only in `date`/`datetime` columns.
- **DataTable** (`components/DataTable.tsx`). A case-insensitive substring search over every value of a row, where `null` reads as the text `"null"`. Pages of 10 rows with `ceil` page count and `slice` pages. `handlePrev`/`handleNext` clamp the page, and a new search term resets the page to 1. The class `DataTableState` holds the component's `currentPage` and `searchTerm`.
- **GeminiService** (`services/geminiService.ts`). It builds the assistant's system instruction from the total row count, the comma-joined column labels and the first 100 rows. The class `ChatService` holds the module-level `aiClient` and `chatSession`; every successful `initializeChat` replaces the session. `sendMessageToGemini` never throws: every outcome becomes a reply text.
- **ChatWidget** (`components/ChatWidget.tsx`). The transcript state `messages`/`input`/`isThinking`. `handleSend` is split at its `await` into `BeginSend` and `CompleteSend`.
- **SheetTypes** mirrors `types.ts`. **Strings** gives the JavaScript string operations used above. **Wrappers** holds `Option` and `Result`.

The model follows the code as written, including these behaviours a reader might not expect:

- `f` is preferred only for `date`/`datetime` columns, not for every column.
- A table whose columns all lack a label is returned with no columns; nothing rejects it.
- `null` is searched as the text `"null"`, not as the empty string.
- A row with no values matches no term, not even the empty one.
- `totalPages` is 0 when nothing matches.
- `handleNext` then moves to page 0, which shows no rows.

Inputs the model takes as parameters:

- the response text;
- `JSON.parse` (`parse: string -> Option<GvizResponse>`);
- `JSON.stringify` of the sample (`stringify`);
- the configured API key (`envKey`, `""` when unset);
- whether the provider's `chats.create` returned;
- the provider's reply or failure for a send.

## Model

| member | source | states |
|---|---|---|
| Strings.IndexOf | services/sheetService.ts:25 | -1 exactly when the character is absent; otherwise a position holding it with none earlier |
| Strings.LastIndexOf | services/sheetService.ts:26 | -1 exactly when the character is absent; otherwise a position holding it with none later |
| Strings.TrimStart | components/ChatWidget.tsx:24 | the suffix left after dropping leading whitespace, all of it whitespace, and it starts with a non-blank |
| Strings.TrimEnd | components/ChatWidget.tsx:24 | the prefix left after dropping trailing whitespace, all of it whitespace, and it ends with a non-blank |
| Strings.Trim | components/ChatWidget.tsx:24-26 | the result is the input with its leading and trailing whitespace removed: it occurs at some position with only whitespace before and after it; it is empty exactly when the input is all whitespace; otherwise it starts and ends with a non-blank |
| Strings.Lower | components/DataTable.tsx:18 | same length, each character lower-cased (ASCII) |
| Strings.LowerIdempotent | components/DataTable.tsx:18 | lower-casing twice is lower-casing once |
| Strings.ContainsEmpty | components/DataTable.tsx:18 | every string includes the empty string |
| Strings.NatToString | services/geminiService.ts:49 | a non-empty run of decimal digits with no leading zero unless the number is 0 |
| Strings.NatToStringRoundTrip | services/geminiService.ts:41-49 | reading the digits back gives the number |
| Strings.LeadingDigits | services/geminiService.ts:49 | the longest run of digits at the start of the text: digits only, a prefix, and not followed by a digit |
| Strings.LeadingDigitsOfDigits | services/geminiService.ts:49 | digits followed by a non-digit read back as exactly those digits |
| Strings.Join | services/geminiService.ts:42 | an empty list joins to the empty string; a one-element list joins to that element |
| Strings.JoinLength | services/geminiService.ts:42 | the length of the join is the parts' total length plus one separator per neighbouring pair |
| Strings.JoinConcat | services/geminiService.ts:42 | joining two lists is joining each with one separator between |
| SheetService.ExtractJson | services/sheetService.ts:25-32 | NotPublished exactly when there is no `{` or no `}`; success exactly when some `{` precedes some `}`; the payload starts with `{`, ends with `}`, and occurs in the text with no `{` before it and no `}` after it |
| SheetService.ExtractJsonUnwraps | services/sheetService.ts:23-32 | for any wrapper text without `{` before and without `}` after, extraction returns exactly the braced payload |
| SheetService.ParseResponse | services/sheetService.ts:25-33 | extraction's error is passed on unchanged; a parse failure is InvalidJson; succeeds exactly when extraction and parsing both succeed, with the value the parser returned |
| SheetService.ErrorDetail | services/sheetService.ts:36 | the first error's message when it is non-empty, otherwise 'Lỗi không xác định'; never empty |
| SheetService.NormalizeColumns | services/sheetService.ts:42-48 | no more columns than the raw ones, and every kept label is non-empty |
| SheetService.NormalizeColumnsAppend | services/sheetService.ts:42-48 | normalising a concatenation is concatenating the normalised parts, so the original order is kept |
| SheetService.NormalizeColumnsMembership | services/sheetService.ts:42-48 | a column is kept exactly when a raw column with a non-empty label copies to it field by field |
| SheetService.NormalizeColumnsAllLabelled | services/sheetService.ts:42-48 | when every raw column is labelled, all survive in order with id, label and type copied verbatim |
| SheetService.CellValue | services/sheetService.ts:58-64 | a missing cell or a missing `v` gives null; a non-date column stores `v` even when `f` is present; a date/datetime column with non-empty `f` stores `f` |
| SheetService.RowOfKeys | services/sheetService.ts:53-65 | a row's keys are exactly the labels of the surviving columns that have a cell |
| SheetService.RowOfValue | services/sheetService.ts:53-65 | cell i is stored under the label of surviving column i unless a later cell writes the same label |
| SheetService.RowOfDropsExtraCells | services/sheetService.ts:53-55 | cells at index past the column count change nothing |
| SheetService.MaterializeRow | services/sheetService.ts:52-68 | the loop's row is the label-keyed row of the cells |
| SheetService.MaterializeRows | services/sheetService.ts:51-69 | succeeds exactly when every raw row has `c`, otherwise fails on `c`; one row per raw row, in order |
| SheetService.FetchSheetData | services/sheetService.ts:25-71 | succeeds exactly when the text parses, the status is not `error` and `table`, `cols`, `rows` and every row's `c` are present; extraction and parse errors propagate; status `error` fails with 'Lỗi Google Sheet API: ' plus the detail; otherwise the first missing field, in the order `table`, `cols`, `rows`, `c`, is the one reported; on success the columns are the normalised columns and row i is materialised from raw row i |
| DataTable.FilterRows | components/DataTable.tsx:16-20 | no more rows than the input; every kept row matches and comes from the input |
| DataTable.FilterAppend | components/DataTable.tsx:16-20 | filtering a concatenation concatenates the filtered parts, so the result keeps the rows' order |
| DataTable.FilterMembership | components/DataTable.tsx:16-20 | a row is kept exactly when it is in the input and some value's lower-cased text contains the lower-cased term |
| DataTable.FilterKeepsMatching | components/DataTable.tsx:16-20 | a list of matching rows filters to itself |
| DataTable.FilterIdempotent | components/DataTable.tsx:16-20 | filtering the filtered rows again with the same term changes nothing |
| DataTable.EmptyTermMatches | components/DataTable.tsx:16-20 | the empty term matches a row exactly when the row has at least one value |
| DataTable.FilterEmptyTerm | components/DataTable.tsx:16-20 | with the empty term, rows that all hold a value are all kept, in order |
| DataTable.TotalPages | components/DataTable.tsx:23 | the ceiling of n/10: enough pages of 10 for n rows, and one page fewer would not be; 0 for no rows |
| DataTable.SliceIndex | components/DataTable.tsx:25 | the index `slice` resolves to lies between 0 and the length |
| DataTable.PageRows | components/DataTable.tsx:24-25 | at most 10 rows; page p is rows [(p-1)*10, min(p*10, n)); page 0 and pages past the last are empty |
| DataTable.AllPagesPrefix | components/DataTable.tsx:24-25 | the first k pages together are the first min(10k, n) rows |
| DataTable.PagesPartition | components/DataTable.tsx:23-25 | pages 1..totalPages together give back the filtered rows exactly, with no gap or overlap |
| DataTable.PageInRangeNonEmpty | components/DataTable.tsx:23-25 | every page from 1 to totalPages shows at least one row |
| DataTable.RangeLabelMatchesPage | components/DataTable.tsx:120-122 | on a page in range the label runs from startIndex+1 to min(startIndex+10, n) of n and names exactly the rows the page shows |
| DataTable.DataTableState.constructor | components/DataTable.tsx:12-13 | page 1, empty search term, page in range |
| DataTable.DataTableState.SetSearchTerm | components/DataTable.tsx:50-53 | the term is stored and the page is reset to 1 |
| DataTable.DataTableState.HandlePrev | components/DataTable.tsx:27 | page becomes max(1, p-1): never below 1, and the page stays in range |
| DataTable.DataTableState.HandleNext | components/DataTable.tsx:28 | page becomes min(totalPages, p+1): never above totalPages, and the page stays in range |
| DataTable.DataTableState.CurrentPageShowsRows | components/DataTable.tsx:23-25 | while the search has results, the current page is not empty and the label counts its rows |
| GeminiService.Sample | services/geminiService.ts:40 | the first min(100, n) rows, in order |
| GeminiService.Labels | services/geminiService.ts:42 | the column labels, in column order |
| GeminiService.ColumnListConcat | services/geminiService.ts:42 | the column list of two runs of columns is theirs joined by ", " |
| GeminiService.BuildInstruction | services/geminiService.ts:40-62 | the total read back from the instruction is the full row count; the instruction has the template's layout: head, total, the note, the column list, the sample heading, the serialised sample and the rules, each right after the previous one and nothing else |
| GeminiService.TemplateSlots | services/geminiService.ts:44-62 | in a filled template the digits after the head read back as the total, and every part sits at its offset |
| GeminiService.LayoutIsConcatenation | services/geminiService.ts:44-62 | a text has the template's layout exactly when it is the seven parts concatenated, so the layout fixes the whole instruction |
| GeminiService.SampleBoundedTotalExact | services/geminiService.ts:40-49 | above 100 rows the sample holds exactly 100 rows while the stated total is still the full count |
| GeminiService.ChatService.constructor | services/geminiService.ts:4-5 | no client and no session at module load |
| GeminiService.ChatService.GetClient | services/geminiService.ts:7-33 | the client is built once, with the configured key or the 'MISSING_API_KEY' placeholder, and reused afterwards |
| GeminiService.ChatService.InitializeChat | services/geminiService.ts:35-73 | a client that existed is kept; otherwise the client is built with the configured key or the 'MISSING_API_KEY' placeholder; when creation returns, the single session is replaced by a new one bound to the built instruction, and it is the latest created; when creation throws, the old session stays |
| GeminiService.ChatService.SendMessage | services/geminiService.ts:75-95 | never empty, never throws: missing-key text with no session and no or placeholder key; not-ready text with no session otherwise; the reply or the no-response text; the invalid-key text for an 'API key not valid' failure; the apology for any other failure |
| ChatWidget.CompletionTurn | components/ChatWidget.tsx:31-35 | a model turn carrying the reply, or the connection apology when the call threw |
| ChatWidget.ChatWidgetState.constructor | components/ChatWidget.tsx:8-12 | exactly one model greeting turn, empty input, not thinking |
| ChatWidget.ChatWidgetState.SetInput | components/ChatWidget.tsx:117 | only the input changes |
| ChatWidget.ChatWidgetState.BeginSend | components/ChatWidget.tsx:23-29 | no-op when the trimmed input is empty or a send is outstanding; otherwise one user turn with the trimmed input is appended, the input is cleared and thinking starts; turns alternate after the greeting |
| ChatWidget.ChatWidgetState.CompleteSend | components/ChatWidget.tsx:31-38 | exactly one model turn is appended and thinking stops; earlier turns are unchanged and turns still alternate |
| ChatWidget.SendTwiceBeforeReply | components/ChatWidget.tsx:24-37 | a second send made before the first completes is refused, and only the first user turn is appended |

## Left out

- The HTTP request, the URL and the `response.ok` check (services/sheetService.ts:13-21) are network I/O. The response text is an input.
- `JSON.parse` is a parameter. The model reads only the fields `fetchSheetData` uses. A `null` entry in `cols` or `rows`, or a field of an unexpected JSON type, is not modelled.
- `RowOf`, `MaterializeRow`, `RowOfKeys`: every label is treated as an ordinary key. In the source a row is a plain object, so a column labelled `__proto__` calls the prototype setter: no own key is created, and `Object.values` and `JSON.stringify` never see that column. The model stores such a label as an ordinary key, and the search then reads its value.
- The Vietnamese message text of the NotPublished error (services/sheetService.ts:29) is not carried; the error is identified by its kind.
- The message of the TypeError JavaScript throws for a missing `table`, `cols`, `rows` or `c` depends on the engine. The model records only which field was missing.
- When the last `}` precedes the first `{`, the source parses text holding no brace. That text cannot be the object `fetchSheetData` reads. The model reports it as InvalidJson.
- The `console.error` logging and the re-throw in `fetchSheetData` are left out.
- Numbers are integers in this model. JavaScript's floating-point numbers, and their `String` form with fractions and exponents, are not modelled.
- `Lower`: only ASCII letters are lower-cased. Unicode `toLowerCase`, such as for Vietnamese capitals, is not modelled. So a search that differs from the data only in non-ASCII letter case does not match in the model.
- `JSON.stringify` of the sample is an abstract parameter. The model does not fix key order or the text a `null` becomes.
- The Gemini SDK is left out: the client, `chats.create`, `sendMessage` and the session's own turn history. Only the client's key, the session and its instruction, and an abstract reply or failure remain. The model name `gemini-2.5-flash` is not modelled.
- The environment-variable lookup in `getClient` (services/geminiService.ts:9-22) is the parameter `envKey`.
- All rendering is left out: JSX, markdown, scrolling, the disabled attributes on the chat input and button (components/ChatWidget.tsx:119,123) and on the Prev/Next buttons (components/DataTable.tsx:104,111), the "no data" view shown for a table without columns (components/DataTable.tsx:30-32), and the pagination bar being shown only when `totalPages > 1`. `SetInput` and the handlers stay callable in any state. The guard inside `handleSend` is what the model proves on.
- App.tsx (loading state, settings form), index.tsx and vite.config.ts are not part of this model. One fact from App.tsx is used: App mounts DataTable afresh after each load, so the table a `DataTableState` shows never changes (`data` is a `const`).
- `async`/`await` is modelled as two steps, `BeginSend` and `CompleteSend`, not as concurrency.
