# disabilityweb in Dafny

A model of the logic at the heart of the disabilityweb services and pages, with proofs of
what that logic promises. The model covers:

- **The task prioritizer** (`taskprioritizer/server.js`, `taskprioritizer/public/index.js`):
  - the line parser that turns the language model's reply into subtasks;
  - the `allTasks` accumulator of the `/breakdown` handler;
  - the sort by Eisenhower quadrant and by the energy-dependent tie rule;
  - the case-sensitive server `getQuadrant` and the case-insensitive browser `getQuadrant`;
  - the browser's split of the sorted tasks into four quadrant buckets, and the task cards.
- **The accommodation table** (`updated-accomodation-generator/server.js`):
  - the CSV loader over the file's text, including the lookahead field pattern exactly as written;
  - the nested disability → limitation → accommodations table and the insertion-ordered set of disabilities;
  - the `/diseases` and `/accommodations` routes, and the letter with its numbered list.
- **The two letter services** (`server.js`, `accomodation-generator/server.js`):
  - required-field validation;
  - removal of code fences from the model's reply;
  - the fallback list extractor used when the reply is not JSON;
  - the error sentinels of one service and the rethrown error of the other;
  - the letters with their bulleted and numbered lists.
- **The upload filter** `allowed_file` of `textospeech/app.py`.
- **The three catalogue searches:** course modules, resources and assistive tools.

JavaScript's string primitives are defined in `js_text.dfy`:

- `trim` and the ECMAScript white-space set;
- ASCII `toLowerCase`;
- `split` and `join`;
- `includes` and `startsWith`;
- `parseInt`.

`Array.prototype.sort` is in `stable_sort.dfy`. It is a stable insertion sort: a method sorts
an array in place, proved equal to a recursive specification whose permutation, order and
stability properties are proved as lemmas.

State that the source updates in place is a class:

- `TaskPrioritizer.TaskBoard` holds `allTasks`;
- `TaskMatrix.TaskMatrixView` holds the page's `tasks` and its rendered matrix;
- `AccommodationTable.AccommodationStore` holds `accommodationsData` and `diseases`.

The loops of the source are methods with loop invariants:

- `TaskParser.ParseTextResponse`;
- `TaskMatrix.Bucket`;
- `AccommodationTable.AccommodationStore.LoadFromCSV`;
- `StableSort.SortInPlace` and `StableSort.InsertInPlace`.

Everything else is functions and lemmas.

Some inputs from the outside world are parameters:

- the model's reply text, and whether the request failed;
- the result of `JSON.parse`, an oracle function from text to array, other value or syntax error;
- the date string;
- whether the API key is set;
- the CSV file's text, or its absence.

## Model

| member | source | states |
|---|---|---|
| Quadrants.Weight | taskprioritizer/server.js:122-127 | The quadrant weights lie between 1 and 4. |
| Quadrants.WeightInjective | taskprioritizer/server.js:122-135 | Two quadrants have the same weight exactly when they are the same quadrant, so the comparator's first key separates the quadrants. |
| Quadrants.ServerQuadrantByLevels | taskprioritizer/server.js:153-158 | The server classifier is total. Two recognised levels ("high"/"low") give the quadrant of those axes. Anything else (missing, mixed case, other words) gives delete. Outside delete, importance and urgency are exactly "high". |
| Quadrants.ClientIsServerOnLowered | taskprioritizer/public/index.js:92-107 | The browser classifier is the server classifier applied to the lower-cased fields. |
| Quadrants.ClientIgnoresCase | taskprioritizer/public/index.js:94-95 | Fields that lower-case alike classify alike in the browser. |
| Quadrants.ClientAgreesOnLowerCase | taskprioritizer/public/index.js:92-107 | On lower-case fields the browser and server classifiers agree. |
| Quadrants.MixedCaseExample | taskprioritizer/public/index.js:94-98 | "HIGH"/"High" is "do" in the browser and "delete" on the server. |
| TaskParser.HandleLine | taskprioritizer/server.js:84-98 | The body of the per-line callback produces exactly the state of the step function `Step`: a dash line closes the open subtask and opens one with the trimmed text after the dash; a labelled line sets its field, only while a subtask is open. |
| TaskParser.ParseTextResponse | taskprioritizer/server.js:75-110 | The loop over the lines returns exactly `Parsed`: the fold of the steps, the last subtask closed, then the filter on the four key fields; a non-string reply gives []. |
| TaskParser.KindsAppend | taskprioritizer/server.js:84 | Classifying the lines of a concatenation classifies each part. |
| TaskParser.RunAppend | taskprioritizer/server.js:84-99 | Running the steps over a concatenation runs them over each part in turn. |
| TaskParser.RunCountsDashLines | taskprioritizer/server.js:86-89 | Each dash line closes or opens exactly one subtask; no other line changes the count. |
| TaskParser.ParsedAtMostDashLines | taskprioritizer/server.js:76-109 | A non-string reply parses to no subtask; a string reply to at most one subtask per dash line. |
| TaskParser.LinesBeforeFirstDashIgnored | taskprioritizer/server.js:86-89 | Lines before the first dash line change nothing. |
| TaskParser.DashLineKind | taskprioritizer/server.js:85-86 | A line is classified as a dash line exactly when its trimmed form starts with '-'. |
| TaskParser.ClassifyIsNormal | taskprioritizer/server.js:94-96 | The importance or urgency a line carries is lower-cased. |
| TaskParser.RunStaysNormal | taskprioritizer/server.js:84-99 | Every subtask, open or closed, carries the request's task and lower-case levels. |
| TaskParser.ParsedSubtasksComplete | taskprioritizer/server.js:101-109 | Every returned subtask has its four key fields set, carries `mainTask`, and has lower-case importance and urgency. |
| TaskParser.LaterLabelWins | taskprioritizer/server.js:93-94 | Of two importance lines, the later one decides the field. |
| TaskParser.LabelValueOf | taskprioritizer/server.js:92 | The text between the first and second colon of "tag: v", trimmed, is v. |
| TaskParser.ClassifyLabelled | taskprioritizer/server.js:90-97 | A labelled line is judged by the first tag its lower-cased form includes, in the order estimated time, importance, urgency. |
| TaskParser.ClassifyDashLine | taskprioritizer/server.js:86-88 | "- d" opens a subtask described by d. |
| TaskParser.ClassifyTimeLine | taskprioritizer/server.js:91-92 | "Estimated time: v" sets the estimated time to v. |
| TaskParser.ClassifyImportanceLine | taskprioritizer/server.js:93-94 | "Importance: v" sets the importance to v. |
| TaskParser.ClassifyUrgencyLine | taskprioritizer/server.js:95-96 | "Urgency: v" sets the urgency to v. |
| TaskParser.RunBlocks | taskprioritizer/server.js:84-101 | The blocks of filled subtasks, run in order, close exactly those subtasks. |
| TaskParser.ParseEmptyReply | taskprioritizer/server.js:81-109 | The empty reply parses to no subtask. |
| TaskParser.ParseFormattedReply | taskprioritizer/server.js:34-42 | Round trip: a reply written in the format the prompt asks for (a dash line and three labelled lines per subtask) parses back to exactly those subtasks. |
| StableSort.SortInPlace | taskprioritizer/server.js:120-150 | Sorting the array in place leaves exactly the recursive insertion sort of its old contents. |
| StableSort.InsertInPlace | taskprioritizer/server.js:120-150 | Moving one element left into the sorted prefix produces the insertion of that element and leaves the suffix alone. |
| StableSort.InsertAt | taskprioritizer/server.js:120-150 | The insertion puts an element right after the last element the comparator does not put after it. |
| StableSort.SortPermutation | taskprioritizer/server.js:120 | Sorting keeps every element as often as it occurs. |
| StableSort.SortKeyDescending | taskprioritizer/server.js:133-135 | A comparator that orders by a key first yields a result that descends by that key. |
| StableSort.SortOrdered | taskprioritizer/server.js:120-150 | With a consistent comparator, no element is put after a later one. |
| StableSort.SortStable | taskprioritizer/server.js:148-149 | Elements the comparator never separates keep their input order. |
| TaskPrioritizer.RankedPermutation | taskprioritizer/server.js:112-120 | The prioritized list is a permutation of the flattened subtasks. |
| TaskPrioritizer.CompareRespectsPriority | taskprioritizer/server.js:129-135 | The comparator sorts by descending quadrant weight first. |
| TaskPrioritizer.RankedByQuadrant | taskprioritizer/server.js:122-135 | The result descends by quadrant weight: do, decide, delegate, delete. |
| TaskPrioritizer.CompareAntisymmetric | taskprioritizer/server.js:133-149 | Swapping the arguments negates the comparison. |
| TaskPrioritizer.CompareTransitive | taskprioritizer/server.js:133-149 | At medium energy, or when all three times parse, the comparator is transitive. |
| TaskPrioritizer.CompareConsistent | taskprioritizer/server.js:133-149 | Under the same conditions, the comparator is consistent on the list. |
| TaskPrioritizer.NaNBreaksTransitivity | taskprioritizer/server.js:138-143 | An unparseable time ties with everything at low energy, so the comparator is not transitive. |
| TaskPrioritizer.MinutesOf | taskprioritizer/server.js:138-139 | A decimal numeral parses to its value. |
| TaskPrioritizer.TieRule | taskprioritizer/server.js:137-147 | With every time parsed, tasks of one quadrant come shortest first at energy ≤ 3 and longest first at energy ≥ 8. |
| TaskPrioritizer.MediumEnergyKeepsOrder | taskprioritizer/server.js:148-149 | At energy 4 to 7 the tasks of each quadrant keep their input order. |
| TaskPrioritizer.EqualTimesKeepOrder | taskprioritizer/server.js:120-150 | Where the comparator is consistent (energy 4 to 7, or every time parses), tasks of one quadrant with equal parsed minutes keep their input order. |
| TaskPrioritizer.FlattenAppend | taskprioritizer/server.js:113-118 | Flattening distributes over concatenation of groups. |
| TaskPrioritizer.FlattenMainTasks | taskprioritizer/server.js:113-118 | Every flattened subtask carries its group's task as `mainTask`. |
| TaskPrioritizer.FlattenLowered | taskprioritizer/server.js:113-118 | Retagging keeps subtasks complete and in lower case. |
| TaskPrioritizer.RankedLowered | taskprioritizer/server.js:120 | Sorting keeps subtasks complete and in lower case. |
| TaskPrioritizer.TaskBoard.constructor | taskprioritizer/server.js:15 | The accumulator starts empty. |
| TaskPrioritizer.TaskBoard.Add | taskprioritizer/server.js:21 | The group is appended to `allTasks`; a group of parsed (lower-cased) subtasks keeps every accumulated subtask lower-cased. |
| TaskPrioritizer.TaskBoard.Prioritize | taskprioritizer/server.js:112-151 | Returns the sorted flattening of `allTasks`. The result is a permutation of it and descends by quadrant weight. Nothing changes. |
| TaskPrioritizer.TaskBoard.HandleBreakdown | taskprioritizer/server.js:17-28 | A failed model request answers 500 with the processing error and leaves `allTasks` alone. A reply appends the parsed group and answers the sorted flattening of all groups. Every subtask answered is complete and lower-case. |
| TaskPrioritizer.RankedMainTasks | taskprioritizer/server.js:112-120 | Every prioritized subtask carries the task of one of the accumulated groups. |
| TaskPrioritizer.BreakdownAddsGroup | taskprioritizer/server.js:21-22 | After a request, the breakdown holds the earlier subtasks plus the new group's, retagged. |
| TaskPrioritizer.LowEnergyExample | taskprioritizer/server.js:129-143 | At energy 2, [skip (delete), long do, short do] is sorted to [short, long, skip]. |
| TaskMatrix.Bucket | taskprioritizer/public/index.js:47-54 | The loop pushes each task onto the bucket of its browser quadrant. Each bucket is the in-order filter of the tasks of that quadrant. |
| TaskMatrix.QuadrantPartition | taskprioritizer/public/index.js:51-54 | Under any total classifier, the four quadrant filters together hold every element exactly as often as it occurs. |
| TaskMatrix.QuadrantRuns | taskprioritizer/public/index.js:51-54 | A sequence descending by weight is the concatenation of its four quadrant filters. |
| TaskMatrix.BucketsPartition | taskprioritizer/public/index.js:47-54 | Every task lands in exactly one bucket, and the bucket sizes sum to the number of tasks. |
| TaskMatrix.ClientAgreesWithServer | taskprioritizer/public/index.js:92-107 | On a parsed subtask, the browser's quadrant is the server's. |
| TaskMatrix.BucketsFollowServerOrder | taskprioritizer/public/index.js:51-54 | For a server breakdown, the buckets read in page order are the server's list. |
| TaskMatrix.ParsedCardHasNoPlaceholder | taskprioritizer/public/index.js:81-89 | A parsed subtask's card shows its own description, time and levels. Only its task title can fall back to the "No main task" placeholder. |
| TaskMatrix.RenderAppend | taskprioritizer/public/index.js:81-89 | One card per task, in order: rendering distributes over concatenation. |
| TaskMatrix.MatrixShowsServerOrder | taskprioritizer/public/index.js:58-77 | The four sections' cards, read in order, are the cards of the server's list. |
| TaskMatrix.ServerBreakdownClassifiable | taskprioritizer/public/index.js:94-95 | A server breakdown never makes the browser's `toLowerCase` throw. |
| TaskMatrix.TaskMatrixView.constructor | taskprioritizer/public/index.js:7 | The page starts with no tasks and renders four empty sections. |
| TaskMatrix.TaskMatrixView.RenderTaskMatrix | taskprioritizer/public/index.js:45-79 | The matrix is rendered from the tasks, which are not changed. |
| TaskMatrix.TaskMatrixView.ReceiveBreakdown | taskprioritizer/public/index.js:152-160 | An array breakdown replaces the tasks and re-renders. Anything else changes nothing. |
| AccommodationTable.WordRun | updated-accomodation-generator/server.js:38 | The greedy `[^",\s]+` run is the longest prefix of word characters. |
| AccommodationTable.CloseQuote | updated-accomodation-generator/server.js:38 | The lazy quoted alternative ends after the start position. |
| AccommodationTable.MatchField | updated-accomodation-generator/server.js:38 | A match is non-empty and lies within the text. |
| AccommodationTable.MatchCsvField | updated-accomodation-generator/server.js:38 | A CSV field followed by a comma or by the end of the row is matched exactly. |
| AccommodationTable.CommaSkipped | updated-accomodation-generator/server.js:38 | A comma never starts a match. |
| AccommodationTable.FieldsOfCsvRow | updated-accomodation-generator/server.js:38 | Matching a row of CSV fields joined by commas gives the fields back. |
| AccommodationTable.UnfinishedWordSkipped | updated-accomodation-generator/server.js:38 | A word followed by white space and more text is not a field. |
| AccommodationTable.MultiWordFieldKeepsLastWord | updated-accomodation-generator/server.js:38 | An unquoted two-word field yields only its last word. |
| AccommodationTable.StripQuotes | updated-accomodation-generator/server.js:44 | At most one leading and one trailing quote go, and text without quotes at its ends is unchanged. |
| AccommodationTable.StripQuotesOfQuoted | updated-accomodation-generator/server.js:44 | Quoting any text and stripping the quotes gives it back. |
| AccommodationTable.Clean | updated-accomodation-generator/server.js:44 | A cleaned field is trimmed. |
| AccommodationTable.Rows | updated-accomodation-generator/server.js:29 | Every row is a non-blank, already trimmed line of the file, and every line that is not blank once trimmed is a row. |
| AccommodationTable.RowEntry | updated-accomodation-generator/server.js:38-46 | A row yields an entry only with at least three fields, and then all three parts are non-empty. |
| AccommodationTable.EntriesOf | updated-accomodation-generator/server.js:32-58 | Each data row yields at most one entry. |
| AccommodationTable.HeaderNeverContributes | updated-accomodation-generator/server.js:29-36 | The first non-blank line is a header and contributes nothing. |
| AccommodationTable.MultiWordRow | updated-accomodation-generator/server.js:38-46 | An unquoted row of three two-word fields yields only their last words. |
| AccommodationTable.EntriesOfAppend | updated-accomodation-generator/server.js:39-58 | A short or incomplete row adds nothing; any other adds exactly its entry. |
| AccommodationTable.CsvRowEntry | updated-accomodation-generator/server.js:38-46 | A CSV row of three or more fields yields the first three, cleaned. |
| AccommodationTable.AddEntry | updated-accomodation-generator/server.js:47-53 | Storing an entry adds its disability to the keys and appends its accommodation to exactly its own list. |
| AccommodationTable.AddDisease | updated-accomodation-generator/server.js:54 | Adding to the set holds exactly the old members and the new one. |
| AccommodationTable.BuildAppends | updated-accomodation-generator/server.js:47-53 | Every list gets the matching accommodations appended in file order, duplicates kept. |
| AccommodationTable.BuildKeys | updated-accomodation-generator/server.js:47-49 | The table's disabilities are the old ones and those the entries mention. |
| AccommodationTable.RegisterKeys | updated-accomodation-generator/server.js:47-54 | The disease list and the table's keys stay the same set. |
| AccommodationTable.RegisterAppends | updated-accomodation-generator/server.js:54 | The list stays free of duplicates and only grows at its end. |
| AccommodationTable.RegisterNew | updated-accomodation-generator/server.js:54 | Added disabilities were not there before and are named by some entry. |
| AccommodationTable.RegisterOrder | updated-accomodation-generator/server.js:54 | Added disabilities are listed in the order of their first mention in the file. |
| AccommodationTable.RegisterMentioned | updated-accomodation-generator/server.js:54 | Every mentioned disability is listed. |
| AccommodationTable.BuildStep | updated-accomodation-generator/server.js:46-58 | One more row is one more step of the table and of the list. |
| AccommodationTable.AccommodationStore.constructor | updated-accomodation-generator/server.js:12-13 | The store starts with an empty table and an empty set. |
| AccommodationTable.AccommodationStore.LoadFromCSV | updated-accomodation-generator/server.js:15-68 | A missing file changes nothing. A file's rows are folded into the table and the set, keeping them in step. |
| AccommodationTable.AccommodationStore.StoreRow | updated-accomodation-generator/server.js:37-58 | A rejected row changes nothing. An accepted row adds its entry to the table and its disability to the list; the list stays free of duplicates and holds exactly the table's disabilities. |
| AccommodationTable.AccommodationStore.DiseaseList | updated-accomodation-generator/server.js:72-77 | `/diseases` lists each disability of the table exactly once. |
| AccommodationTable.AccommodationStore.Lookup | updated-accomodation-generator/server.js:79-87 | A known disease gives its limitation map. Anything else gives 404 with the fixed error. |
| AccommodationTable.LoadedTable | updated-accomodation-generator/server.js:15-68 | After loading into a fresh store, a disability is listed exactly when the file mentions it, exactly when the table has it. Each list is the file's matching accommodations in order. |
| Letters.BulletListLines | server.js:103 | The bullet list splits back into one "- acc" line per accommodation, in order. |
| Letters.NumberedListLines | accomodation-generator/server.js:101 | The numbered list splits back into one line per accommodation. Line i is "i+1. acc" and its leading number parses to i+1. |
| Letters.ListInLetter | server.js:94-115 | The trimmed template keeps the whole list. |
| Letters.ServerLetterHoldsList | server.js:92-116 | The letter of server.js contains its bullet list. |
| Letters.GeneratorLetterHoldsList | accomodation-generator/server.js:87-118 | The letter of accomodation-generator/server.js contains its numbered list. |
| Letters.UpdatedLetterHoldsList | updated-accomodation-generator/server.js:95-123 | The updated service's letter contains its numbered list. |
| Letters.UpdatedGenerateLetter | updated-accomodation-generator/server.js:89-93 | Fails exactly when `accommodations` is not an array; otherwise the letter contains the numbered list. |
| ReplyCleanup.RemoveFences | server.js:64 | Fence removal never lengthens the text. |
| ReplyCleanup.StripFences | server.js:64 | The cleaned reply is trimmed. |
| ReplyCleanup.RemoveFencesSubsequence | server.js:64 | Fence removal only deletes characters. |
| ReplyCleanup.KeepsFirst | server.js:64 | A character at which no fence starts is kept. |
| ReplyCleanup.RemoveFencesPlain | server.js:64 | Text without backticks passes through untouched. |
| ReplyCleanup.NoFencesUntouched | server.js:64 | A reply without a backtick is unchanged. |
| ReplyCleanup.ClosingFenceRemoved | server.js:64 | "\n```" is removed whole. |
| ReplyCleanup.JsonFencedReply | server.js:64 | A reply fenced with "```json" comes out as its trimmed body. |
| ReplyCleanup.BareFencedReply | server.js:64 | A reply fenced with "```" comes out as its trimmed body. |
| ReplyCleanup.NewlineBeforeJsonFence | server.js:64 | "\n```json" loses only "\n```", so "json" stays in the text. |
| ReplyCleanup.DropMarker | server.js:81 | Dropping the marker never lengthens the line. |
| ReplyCleanup.DropTrailing | server.js:81 | At most one trailing quote or comma goes. |
| ReplyCleanup.CleanSuggestion | server.js:81 | A cleaned suggestion is trimmed. |
| ReplyCleanup.Fallback | server.js:78-84 | The fallback never yields an empty list. With no list-like line it yields the "Unable to parse" sentinel alone. |
| ReplyCleanup.CleanBullet | server.js:79-81 | "- a" is a suggestion line and cleans back to a. |
| ReplyCleanup.BulletReplyRoundTrip | server.js:78-84 | Round trip: a bulleted reply of clean one-line items gives back exactly those items. |
| ReplyCleanup.QuotedItemKeepsQuote | server.js:81 | `"x",` loses its comma but keeps its closing quote. |
| ReplyCleanup.IndentedMarkerStays | server.js:79-81 | An indented "- a" is kept but keeps its marker. |
| ReplyCleanup.FromReply | server.js:64-85 | The result is empty exactly when the reply parses to an empty array. A parsed array is returned unchanged. |
| ReplyCleanup.ParseOutcomes | server.js:66-84 | Non-array JSON gives the "Unexpected response format" sentinel. Non-JSON goes to the fallback and yields at least one item. |
| ReplyCleanup.GenerateAccommodations | server.js:38-90 | The result is empty only for an empty JSON array. A failed request gives the "Please try again" sentinel. |
| ReplyCleanup.GenerateAccommodationsOrThrow | accomodation-generator/server.js:35-85 | It throws exactly when the request fails, with the prefixed message. Otherwise it returns what server.js returns. |
| ReplyCleanup.RethrownMessage | accomodation-generator/server.js:81-84 | The rethrown message starts with "Error generating accommodations: ". |
| ReplyCleanup.ServerGenerateLetter | server.js:22-36 | 400 with "Missing required fields" exactly when a field is falsy. Otherwise it sends the generated accommodations and a letter containing their bullet list. |
| ReplyCleanup.GeneratorGenerateLetter | accomodation-generator/server.js:11-33 | 400 for a falsy field. Then 500 for a missing key. Then 500 with the rethrown message for a failed request. A sent letter contains its numbered list. |
| ReplyCleanup.GeneratorAnswersReply | accomodation-generator/server.js:22-24 | With valid fields, a key and a reply, the route sends the generated accommodations. |
| Upload.LastDot | textospeech/app.py:16 | None exactly when there is no dot. Otherwise it is the position of a dot with no dot after it. |
| Upload.Extension | textospeech/app.py:16 | The extension holds no dot. |
| Upload.LastDotOf | textospeech/app.py:16 | In stem + "." + ext with a dot-free ext, the last dot is the one before ext. |
| Upload.AllowedFileByExtension | textospeech/app.py:11-16 | A name is accepted exactly when its last extension, lower-cased, is txt, pdf or docx. |
| Upload.CaseDoesNotMatter | textospeech/app.py:16 | Lower-casing the name never changes the verdict. |
| Upload.NoDotRefused | textospeech/app.py:16 | A name without a dot is refused. |
| Upload.LastExtensionRefused | textospeech/app.py:16 | "a.pdf.exe" is refused. |
| Upload.LastExtensionAccepted | textospeech/app.py:16 | "a.exe.pdf" is accepted. |
| Upload.UpperCaseExtension | textospeech/app.py:16 | "REPORT.PDF" is accepted. |
| Upload.DotAtEitherEnd | textospeech/app.py:16 | "notes." is refused and ".txt" is accepted. |
| Catalogue.MatchesEmpty | web/src/app/curriculum/page.tsx:58-60 | An empty query matches every text. |
| Catalogue.SearchModules | web/src/app/curriculum/page.tsx:57-61 | The result is an in-order subsequence of the modules. A module is kept exactly when its title, description or some topic holds the query, ignoring case. |
| Catalogue.EmptySearchListsEveryModule | web/src/app/curriculum/page.tsx:57-61 | An empty query keeps every module. |
| Catalogue.ModuleSearchIgnoresCase | web/src/app/curriculum/page.tsx:58-60 | Queries differing only in letter case find the same modules. |
| Catalogue.ReadingsNotSearched | web/src/app/curriculum/page.tsx:57-61 | Changing videos and readings changes no search result. |
| Catalogue.SearchResources | web/src/app/resources/page.tsx:48-52 | The result is an in-order subsequence of the resources. A resource is kept exactly when its name or description holds the query and its category is selected. The result is the category filter of the text filter. |
| Catalogue.ResourcesOnFirstLoad | web/src/app/resources/page.tsx:42-52 | "All" with an empty query lists all five resources. |
| Catalogue.ResourceSearchIgnoresCase | web/src/app/resources/page.tsx:49-50 | Queries differing only in letter case find the same resources. |
| Catalogue.SearchTools | websitedis/src/components/Tools.tsx:21-25 | The result is an in-order subsequence of the tools. A tool is kept exactly when its category is selected and its name or description holds the query. The result is the text filter of the category filter. |
| Catalogue.ByCategory | websitedis/src/components/Tools.tsx:22 | Only tools of the selected category ('All' selects all) remain. |
| Catalogue.EmptySearchOnlyCategory | websitedis/src/components/Tools.tsx:21-25 | With an empty query only the category decides. |
| Catalogue.ToolsOnFirstLoad | websitedis/src/components/Tools.tsx:8-25 | "All" with an empty query lists all six tools. |
| Catalogue.ToolCategories | websitedis/src/components/Tools.tsx:8-15 | The six tools' categories are Visual, Visual, Motor, Auditory, Cognitive, Motor. |
| Catalogue.MotorTools | websitedis/src/components/Tools.tsx:11-25 | "Motor" with an empty query lists exactly GestureControl and NavigateEase, in that order. |
| JsText.Trim | taskprioritizer/server.js:85 | `trim()` leaves no white space at either end and never lengthens the text. |
| JsText.LowerChar | taskprioritizer/public/index.js:94-95 | A character of `toLowerCase()` is never an upper-case ASCII letter; an upper-case letter becomes a lower-case one and every other character is kept. |
| JsText.ToLowerIdempotent | taskprioritizer/public/index.js:94-95 | `toLowerCase()` of a lower-cased text changes nothing. |
| JsText.ToLowerAppend | taskprioritizer/public/index.js:94-95 | `toLowerCase()` of a concatenation is the concatenation of the lower-cased parts. |
| JsText.TrimIdempotent | updated-accomodation-generator/server.js:29 | `trim()` of a trimmed text changes nothing. |
| JsText.SplitJoin | taskprioritizer/server.js:84 | Joining the pieces of `split` with the separator gives the text back. |
| JsText.ParseIntNumeral | taskprioritizer/server.js:138-139 | `parseInt` of a decimal numeral, possibly followed by a non-digit, gives its value. |

## Left out

- Network and services: HTTP routing, body parsing, `app.listen`, the port retry of server.js (lines 118-129) and the OpenAI requests. A reply is a parameter: its text, or a failure with its description.
- Parsing: `JSON.parse` is a parameter of type string → array of strings, other JSON, or syntax error. Arrays whose elements are not strings are not modelled.
- Clock and locale: the date of the letters is a parameter string.
- File system: `existsSync` and `readFileSync` are replaced by an optional text. A missing file and a read error both change nothing, as the source's early return and its `catch` do.
- server.js exits at start-up when the API key is missing (lines 17-20). This is process control. In the model, the route of server.js therefore always has a key.
- ReplyCleanup.ServerGenerateLetter: the `catch` that answers 500 is not modelled. Once the fields are strings, nothing in the modelled route throws: the sentinel lists replace every failure.
- ReplyCleanup.GeneratorGenerateLetter: the 500 response's `stack` field (an error stack trace or the production placeholder) is left out.
- Logging: `console.log`, `console.error` and `app.logger`.
- Dead code in taskprioritizer: the second `/breakdown` handler (taskprioritizer/server.js:164-183) is never reached, because the first one always answers. The first `addTask` of taskprioritizer/public/index.js is overridden by the second. The `fetch` calls and DOM updates are left out; the reply handling of the second `addTask` is modelled by `ReceiveBreakdown`.
- The energy level is an integer. The source compares whatever JSON value arrives, which may be a fraction or not a number.
- `parseInt`: leading white space, an optional sign, a `0x` prefix and the longest run of digits are read as the standard says, but the value is an unbounded integer where JavaScript returns a double. So the model differs in four ways. NaN is `None`, which the comparator's subtraction turns into a tie. `-0` is the integer 0. A numeral above 2^53 is not rounded: "9007199254740993" and "9007199254740992" tie in JavaScript but are ordered by the model at energy ≤ 3 or ≥ 8. A numeral beyond about 1.8e308 is not Infinity: in JavaScript two such times subtract to NaN, a tie, while the model orders them.
- TaskPrioritizer.EqualTimesKeepOrder, TaskPrioritizer.RankedByQuadrant and the `KeyDescending` ensures of TaskPrioritizer.TaskBoard.Prioritize: when a time does not parse at energy ≤ 3 or ≥ 8 the comparator is not consistent, and the standard then leaves the order of `Array.prototype.sort` to the implementation. There the model's stable insertion sort fixes one order, and these clauses describe that order, not one every engine must produce. `EqualTimesKeepOrder` requires the consistent case; the other two are stated for the model's sort at every energy.
- TaskPrioritizer.TieRule: proved only when every time parses. With an unparseable time the comparator is not consistent (see `NaNBreaksTransitivity`), and the standard leaves the sort order to the implementation.
- Letter case: `toLowerCase` and Python's `lower()` are modelled on ASCII only. Other Unicode case mappings are left out.
- Object keys: a table key that collides with an `Object.prototype` property (such as "constructor") is not modelled. A missing `disease` query parameter is the key "undefined". A repeated query parameter (an array) is not modelled.
- Task cards and pages: the HTML around the cards and the matrix sections is markup and is left out. The React pages' rendering, animations and state hooks are left out; their search filters are modelled as functions of the query and the selected category.
- The rest of textospeech: `secure_filename`, saving the file, `document_processor.py`, `formula_interpreter.py` and speech generation.
- `getQuadrant` of the browser throws on a missing field. The model makes that a precondition (`Classifiable`), and `ServerBreakdownClassifiable` shows that a server breakdown always meets it.
