# File-upload progress pipeline and BookStack connector, modelled in Dafny

This project models five pieces of the Onyx code base and proves properties of them.

- **Progress tracker** (`useFileUploadProgress`, module `UploadProgress`). A class holds the hook's state: the progress snapshot, `isPolling`, `isComplete` and `error`. It also holds the closure state the effect keeps: the ids, whether the 3000 ms interval is armed, the queries issued and the fetches in flight. Start, tick, poll success, poll failure and cleanup are its methods. The query string and the failure message are modelled as text, with round trips proved.
- **Progress view** (`FileUploadProgress`, module `ProgressView`). A pure function maps the tracker's four fields to the variant the widget shows: error, ready, no data, the OCR view of one file, or the averaged view. The page percentage, minutes left, unit label and mean percentage are exact integer and real arithmetic.
- **Upload submitter** (`FileUploader`, module `FileUploader`). A class with `isUploading`, `uploadedFileIds` and `uploadError`. It builds the multipart form part by part, takes the server's answer as an input, resets the ids on completion, and decides whether the tracker is shown.
- **Backend progress helpers** (`progress_helpers.py`, modules `ProgressHelpers` and `LogPatterns`):
  - the batch percentage;
  - the guards of the completion estimate;
  - the left-to-right scan of processing logs for OCR information.
  The five regular expressions are matched by a small hand-written matcher. It is proved sound and complete against a relational definition of matching and returns the leftmost match, as `re.search` does.
- **BookStack connector** (`connector.py`, module `BookstackConnector`):
  - batch requests;
  - the pagination loop over the four endpoints;
  - document ids and titles;
  - page documents with their attachment sections;
  - the mapping of validation failures.
  The BookStack instance is an abstract server that answers list requests with consistent slices.

Modules `Wrappers` (Option, Outcome) and `Text` (decimal rendering and parsing, prefix and substring tests, split and join) are shared helpers.

Numbers: JavaScript and Python floats are exact `real`s. `Math.round(a / b)` is `RoundDiv`, `Math.ceil` is `Ceil`, and Python's `int(x / y)` truncates toward zero (`TruncDiv`). JavaScript truthiness is spelled out: `0`, `null` and `""` are false. A snapshot is a `map<FileId, FileProgress>` with `FileId = nat`. JavaScript enumerates integer-like keys in ascending order, so "the first value" is the entry of the least id.

Where the system's design description and the code differ, the model follows the code:
- An empty poll response counts as complete. `every` over no values is true.
- Completion and poll errors do not stop the interval. Only cleanup does, so `Tick` keeps querying while the interval is armed.
- `isComplete` and `error` are reset only by a new `Start`. A later poll that is not all done leaves `isComplete` true.

## Model

| member | source | states |
|---|---|---|
| UploadProgress.ProgressTracker.constructor | web/src/hooks/useFileUploadProgress.ts:19-22 | initial state: empty progress, not polling, not complete, no error, nothing armed or issued |
| UploadProgress.ProgressTracker.Start | web/src/hooks/useFileUploadProgress.ts:27-82 | empty ids change nothing and issue no query; otherwise polling on, complete and error cleared, exactly one query for the ids issued, then the interval armed |
| UploadProgress.ProgressTracker.Tick | web/src/hooks/useFileUploadProgress.ts:82 | an armed interval issues one more query for the same ids and changes nothing else; a disarmed one does nothing |
| UploadProgress.ProgressTracker.PollOk | web/src/hooks/useFileUploadProgress.ts:54-69 | progress is replaced wholesale by the response; if every entry is indexed or SUCCESS (an empty response included), polling stops and complete is set; otherwise both flags are untouched |
| UploadProgress.ProgressTracker.PollFail | web/src/hooks/useFileUploadProgress.ts:70-74 | error becomes the failure's message and polling stops; progress and completion are unchanged |
| UploadProgress.ProgressTracker.Cleanup | web/src/hooks/useFileUploadProgress.ts:84-88 | the interval is disarmed and polling is off; nothing else changes |
| UploadProgress.ProgressTracker.ChangeIds | web/src/hooks/useFileUploadProgress.ts:24-89 | a change of ids runs the previous cleanup, then starts anew: an empty list leaves the ids, queries, results and fetches in flight as they were; otherwise exactly one query for the new ids is issued and in flight, with the interval armed |
| UploadProgress.CleanupTwice | web/src/hooks/useFileUploadProgress.ts:84-88 | cleanup run twice leaves the same state as once: disarmed, not polling, every other field (ids included) unchanged |
| UploadProgress.IdParamRoundTrip | web/src/hooks/useFileUploadProgress.ts:40 | a `file_ids=<id>` parameter holds no '&' and parses back to its id |
| UploadProgress.ParseIdParamsOf | web/src/hooks/useFileUploadProgress.ts:40 | the list of parameters parses back to the id list |
| UploadProgress.QueryParamsRoundTrip | web/src/hooks/useFileUploadProgress.ts:40-41 | the query string of a non-empty id list is read back as exactly those ids, in order: one parameter per id |
| Text.SplitJoin | web/src/hooks/useFileUploadProgress.ts:40 | splitting a join of separator-free parts on the separator gives the parts back |
| UploadProgress.HttpFailureStatus | web/src/hooks/useFileUploadProgress.ts:48-52 | the message of a non-ok response carries its status code, which can be read back |
| UploadProgress.HttpFailureText | web/src/hooks/useFileUploadProgress.ts:51 | the message contains " statusText - " and ends with " - body" |
| ProgressView.Derive | web/src/components/FileUploadProgress.tsx:27-96 | an error shows iff it is non-empty; ready iff no error, not polling and complete; no data iff additionally not complete and progress empty; the OCR view iff none of these and some entry is in OCR, showing the entry of the least such id with that entry's page percentage, minutes left and unit label; otherwise the mean of all entries, one row per entry in id order, and the first entry's non-empty estimate |
| ProgressView.SortedKeys | web/src/components/FileUploadProgress.tsx:40 | the keys in enumeration order: exactly the snapshot's keys, each once |
| ProgressView.SortedKeysAscending | web/src/components/FileUploadProgress.tsx:40 | the enumeration order is strictly ascending by id |
| ProgressView.MinKey | web/src/components/FileUploadProgress.tsx:45 | the least id of a non-empty set |
| ProgressView.OcrFilesHead | web/src/components/FileUploadProgress.tsx:40-42 | the filter is empty iff no entry is in OCR; otherwise its head is the first OCR entry in order |
| ProgressView.OcrChoice | web/src/components/FileUploadProgress.tsx:40-45 | the first OCR file in value order is the entry of the least OCR id |
| ProgressView.RoundDiv | web/src/components/FileUploadProgress.tsx:47-49 | Math.round of a quotient: the result is within half a unit of the exact value, halves rounded up |
| ProgressView.Ceil | web/src/components/FileUploadProgress.tsx:55 | the least integer not below the value |
| ProgressView.PageProgressExamples | web/src/components/FileUploadProgress.tsx:47-49 | 3/10 gives 30; missing or zero counters count as 1, so none/none and 0/0 give 100, 3/none gives 300; 11/10 gives 110 (not clamped) |
| ProgressView.PageProgressBounds | web/src/components/FileUploadProgress.tsx:47-49 | for positive counters the percentage is in [0, 100] when current ≤ total, and at least 100 otherwise |
| ProgressView.MinutesLeftMeaning | web/src/components/FileUploadProgress.tsx:51-55 | minutes are present iff the estimate exists and is non-zero, and then are the ceiling of seconds / 60 |
| ProgressView.OcrScenario | web/src/components/FileUploadProgress.tsx:44-78 | page 3 of 10 at 12 s per page shows 30 % and "~2 minutes remaining" |
| ProgressView.RemainingUnit | web/src/components/FileUploadProgress.tsx:76-78 | the label shows iff the minutes are truthy; the unit is "minute" iff the count is exactly 1 |
| ProgressView.Rows | web/src/components/FileUploadProgress.tsx:104-108 | one row per entry, in order, with its name and percentage |
| ProgressView.SumPercentBounds | web/src/components/FileUploadProgress.tsx:86 | with percentages in [0, 100] (missing as 0), the sum lies in [0, 100·n] |
| ProgressView.OverallProgressMean | web/src/components/FileUploadProgress.tsx:85-87 | an empty map gives 0; otherwise the figure is the mean rounded to the nearest integer |
| ProgressView.OverallProgressBounds | web/src/components/FileUploadProgress.tsx:85-96 | with percentages in [0, 100] the overall figure is in [0, 100] |
| ProgressView.AverageScenario | web/src/components/FileUploadProgress.tsx:85-96 | entries at 40 and 60 give 50 |
| FileUploader.BuildForm | web/src/app/chat/my-documents/components/FileUploader.tsx:22-29 | the loop appends one `files` part per file, then the folder part |
| FileUploader.FormRoundTrip | web/src/app/chat/my-documents/components/FileUploader.tsx:22-29 | a reader of the form gets back exactly the selected files in order, and the folder id iff one was given (0 included) |
| FileUploader.FilePartsRoundTrip | web/src/app/chat/my-documents/components/FileUploader.tsx:23-29 | the file parts carry the files in order, and the folder part is the only folder id in the form |
| FileUploader.IdsOf | web/src/app/chat/my-documents/components/FileUploader.tsx:44 | the ids of the response, same length and order |
| FileUploader.Uploader.constructor | web/src/app/chat/my-documents/components/FileUploader.tsx:10-13 | not uploading, no ids, no error |
| FileUploader.Uploader.HandleFileUpload | web/src/app/chat/my-documents/components/FileUploader.tsx:15-35 | an absent or empty selection changes nothing and sends nothing; otherwise uploading is set, the error cleared, and exactly the built form is sent |
| FileUploader.Uploader.ReceiveResponse | web/src/app/chat/my-documents/components/FileUploader.tsx:37-57 | uploading ends either way; success sets the ids from the response and hands the records to a present callback; failure records "Upload failed: statusText" (or the thrown message, or "Upload failed") and leaves the ids and the callback alone |
| FileUploader.Uploader.HandleUploadComplete | web/src/app/chat/my-documents/components/FileUploader.tsx:60-63 | the ids are emptied, so the tracker is no longer shown; nothing else changes |
| FileUploader.Uploader.ShowsTracker | web/src/app/chat/my-documents/components/FileUploader.tsx:102-108 | the tracker is rendered iff there are uploaded ids |
| LogPatterns.SearchFrom | backend/onyx/utils/progress_helpers.py:92-118 | the reported start is a match and no earlier start matches; none means no start matches |
| LogPatterns.MatchAtSound | backend/onyx/utils/progress_helpers.py:92-118 | whatever the matcher returns is a match of the pattern with those captures |
| LogPatterns.MatchAtComplete | backend/onyx/utils/progress_helpers.py:92-118 | for a well-separated pattern, any match at a position is the one the matcher returns |
| LogPatterns.SearchLeftmost | backend/onyx/utils/progress_helpers.py:92-118 | if the pattern matches anywhere, the search finds a match starting there or further left, with that match's captures when at the same place |
| LogPatterns.CapturesCounted | backend/onyx/utils/progress_helpers.py:92-118 | a match has one capture per group of the pattern |
| ProgressHelpers.ProgressPercentageCases | backend/onyx/utils/progress_helpers.py:14-22 | 0 when the status is not found or has no total; 100 exactly when the total is 0 |
| ProgressHelpers.ProgressPercentageRange | backend/onyx/utils/progress_helpers.py:22 | with batches to do and completed ≥ 0, the percentage is in [0, 99] and does not decrease as batches complete |
| ProgressHelpers.TruncDiv | backend/onyx/utils/progress_helpers.py:22 | `int(a / b)` for non-negative a and positive b is the floor quotient |
| ProgressHelpers.EstimateAsWrittenRaises | backend/onyx/utils/progress_helpers.py:24-33 | every input that passes the guards reaches the `datetime.timezone` call and raises |
| ProgressHelpers.EstimateCompletionTime | backend/onyx/utils/progress_helpers.py:24-46 | no estimate when the status is not found, the total is missing, there is no start time or no batch is done |
| ProgressHelpers.EstimateMeaning | backend/onyx/utils/progress_helpers.py:36-46 | past 5 s with work done there is an estimate; it is not before now when completed ≤ total, and it is now when all batches are done |
| ProgressHelpers.EstimateDiscrepancy | backend/onyx/utils/progress_helpers.py:33-46 | 5 of 10 batches after 20 s: the code raises, the intended estimate is 20 s from now |
| ProgressHelpers.PatternsWellSeparated | backend/onyx/utils/progress_helpers.py:103-118 | the page-count, current-page and file-name patterns meet the matcher's completeness condition |
| ProgressHelpers.TimestampPatternWellSeparated | backend/onyx/utils/progress_helpers.py:92 | the timestamp pattern meets the matcher's completeness condition |
| ProgressHelpers.PageTimePatternWellSeparated | backend/onyx/utils/progress_helpers.py:113 | the page-time pattern meets the matcher's completeness condition |
| ProgressHelpers.TotalPagesOfLine | backend/onyx/utils/progress_helpers.py:103-105 | "PDF has N pages" yields N |
| ProgressHelpers.CurrentPageOfLine | backend/onyx/utils/progress_helpers.py:108-110 | "Processing page C/T" yields C |
| ProgressHelpers.FileNameOfLine | backend/onyx/utils/progress_helpers.py:118-120 | "Creating TextSection for NAME with link" yields NAME for a space-free name |
| ProgressHelpers.FileNameIn | backend/onyx/utils/progress_helpers.py:118-120 | a file name found is never empty |
| ProgressHelpers.PageTimeCaptures | backend/onyx/utils/progress_helpers.py:113-115 | a page-time match has four groups, the last two all digits |
| ProgressHelpers.PageTimeOfLine | backend/onyx/utils/progress_helpers.py:113-115 | "Page P: Extracted C characters in W.Fs" yields the decimal W.F |
| ProgressHelpers.DecimalSecondsOfNat | backend/onyx/utils/progress_helpers.py:115 | W.F is read as exactly W + F / 10^k, where k is the number of digits of F |
| ProgressHelpers.LastOf | backend/onyx/utils/progress_helpers.py:103-110 | the value comes from a line with a match and no later line has one; none iff no line has one |
| ProgressHelpers.FirstOf | backend/onyx/utils/progress_helpers.py:93-120 | the value comes from a line with a match and no earlier line has one; none iff no line has one |
| ProgressHelpers.FirstOfSnoc | backend/onyx/utils/progress_helpers.py:93-120 | one more line changes a first-match field only while it is still unset |
| ProgressHelpers.LastOfSnoc | backend/onyx/utils/progress_helpers.py:103-110 | one more line with a match overrides a last-match field |
| ProgressHelpers.PageTimesSnoc | backend/onyx/utils/progress_helpers.py:113-115 | one more line appends its page time, if any |
| ProgressHelpers.AnyMarkerSnoc | backend/onyx/utils/progress_helpers.py:88-89 | once set, the OCR flag stays set |
| ProgressHelpers.ScanMarker | backend/onyx/utils/progress_helpers.py:88-100 | a marker line sets the OCR flag and, while no start is known, offers a timestamp that parses |
| ProgressHelpers.ScanLine | backend/onyx/utils/progress_helpers.py:87-120 | one loop pass updates each field as its rule says and leaves the average alone |
| ProgressHelpers.ScannedSnoc | backend/onyx/utils/progress_helpers.py:87-120 | one loop pass keeps every field equal to its definition over the lines read so far |
| ProgressHelpers.ExtractOcrInfoFromLogs | backend/onyx/utils/progress_helpers.py:74-126 | OCR iff some line has a marker; page counters from the last matching line; start and file name from the first; page times in log order; average = sum / count iff there are times; no logs give the defaults |
| BookstackConnector.BatchParamsKeys | backend/onyx/connectors/bookstack/connector.py:57-71 | count, offset and sort "+id" always; each date filter iff its bound is truthy; no other keys |
| BookstackConnector.BatchWindowRecovered | backend/onyx/connectors/bookstack/connector.py:57-61 | the server reads back exactly the requested count and offset |
| BookstackConnector.GetDocBatch | backend/onyx/connectors/bookstack/connector.py:47-76 | one request with the batch parameters; the documents are those of the answered items; the count is their number, at most the batch size |
| BookstackConnector.GetDocBatchItems | backend/onyx/connectors/bookstack/connector.py:47-76 | one document per returned item, in order; a full batch while enough items remain, else all that remain |
| BookstackConnector.ParseDocId | backend/onyx/connectors/bookstack/connector.py:89 | a parsed id is the id rebuilt from its kind and item id |
| BookstackConnector.DocIdRoundTrip | backend/onyx/connectors/bookstack/connector.py:89-238 | the four id prefixes are unambiguous: every document id gives back its kind and item id |
| BookstackConnector.DocIdInjective | backend/onyx/connectors/bookstack/connector.py:89-238 | two documents share an id only if kind and item id agree |
| BookstackConnector.ItemIdRecovered | backend/onyx/connectors/bookstack/connector.py:89-238 | the numeric item id is recovered from the document id |
| BookstackConnector.ContainerToDocument | backend/onyx/connectors/bookstack/connector.py:78-151 | a book, chapter or shelf gives one document with its kind's id and title prefixes and one section of name and description |
| BookstackConnector.AttachmentFileName | backend/onyx/connectors/bookstack/connector.py:184-186 | ".ext" is appended iff the extension is non-empty and the name does not already end with it; the result starts with the name and ends with ".ext" |
| BookstackConnector.AttachmentFileNameIdempotent | backend/onyx/connectors/bookstack/connector.py:184-186 | applying the rule twice gives the same name |
| BookstackConnector.AttachmentSection | backend/onyx/connectors/bookstack/connector.py:174-221 | an attachment gives a section iff its details arrived and it is external or has content that decodes to non-empty text; the section links to the attachment |
| BookstackConnector.AttachmentSections | backend/onyx/connectors/bookstack/connector.py:169-223 | at most one section per attachment |
| BookstackConnector.AttachmentSectionsAppend | backend/onyx/connectors/bookstack/connector.py:174-221 | sections follow the listing's order |
| BookstackConnector.AttachmentSectionsMembers | backend/onyx/connectors/bookstack/connector.py:174-221 | a section appears iff some attachment gives it |
| BookstackConnector.PageDocument | backend/onyx/connectors/bookstack/connector.py:153-244 | a page gives a "page:" document titled "Page: " + name whose first section is the page itself, followed only by attachment sections |
| BookstackConnector.PageToDocument | backend/onyx/connectors/bookstack/connector.py:153-244 | the loop appends the attachment sections one by one and yields that document |
| BookstackConnector.ToDocument | backend/onyx/connectors/bookstack/connector.py:258-265 | every endpoint's transformer gives a document of its kind whose id names the item |
| BookstackConnector.DocChunksFlatten | backend/onyx/connectors/bookstack/connector.py:267-284 | the batches of one endpoint together hold every item's document once, in order |
| BookstackConnector.DocChunksShape | backend/onyx/connectors/bookstack/connector.py:280-284 | no batch is empty or larger than the batch size, and all but the last are full |
| BookstackConnector.EndpointRequestsOffsets | backend/onyx/connectors/bookstack/connector.py:268-279 | the k-th request of an endpoint asks from offset k·batch size |
| BookstackConnector.EndpointRequestsCount | backend/onyx/connectors/bookstack/connector.py:279-284 | requests stop at the first whose window reaches past the items |
| BookstackConnector.PolledBatchesFlatten | backend/onyx/connectors/bookstack/connector.py:258-284 | polling yields every document of books, then chapters, shelves and pages, each once and in order |
| BookstackConnector.PollEndpoint | backend/onyx/connectors/bookstack/connector.py:268-286 | the loop over one endpoint yields exactly its batches and makes exactly its requests |
| BookstackConnector.ValidationOutcome | backend/onyx/connectors/bookstack/connector.py:288-322 | no client gives a missing credential; 401 gives expired credentials; 403 gives insufficient permissions; any other status or error gives a validation error; success passes |
| BookstackConnector.UnexpectedStatusReported | backend/onyx/connectors/bookstack/connector.py:314-317 | an unexpected status can be read back from the error message |
| BookstackConnector.Connector.constructor | backend/onyx/connectors/bookstack/connector.py:32-37 | the batch size is stored and there is no client |
| BookstackConnector.Connector.LoadCredentials | backend/onyx/connectors/bookstack/connector.py:39-45 | a client is set |
| BookstackConnector.Connector.PollSource | backend/onyx/connectors/bookstack/connector.py:252-286 | without a client it fails with a missing credential; otherwise it yields all endpoints' batches and makes their requests, in endpoint order |
| BookstackConnector.Connector.LoadFromState | backend/onyx/connectors/bookstack/connector.py:246-250 | a poll without date filters |
| BookstackConnector.Connector.ValidateConnectorSettings | backend/onyx/connectors/bookstack/connector.py:288-322 | the probe asks `/books` for one item from offset 0, and is made iff a client is loaded; the outcome is the validation outcome for the loaded client and the probe's result |

## Left out

- Logging (`console.log`, `logger`), `time.sleep` and React rendering markup are not modelled. The view is modelled up to the values it displays.
- The network is an input. Progress responses, upload responses, the BookStack server, the credential probe and attachment fetches are parameters or an abstract `Server` value.
- Malformed progress responses are not modelled. A JSON `null` body or a `null` entry makes `setProgress(data)` (web/src/hooks/useFileUploadProgress.ts:56) replace the snapshot before `Object.values` or the field access throws (:59-60), so the error is set as well. `PollOk` takes a well-formed snapshot and `PollFail` keeps the snapshot, so neither produces that combined state.
- `Tick` and the two poll outcomes are separate events, so fetches that overlap or arrive out of order are possible but are not reasoned about. Nothing cancels a fetch still in flight after cleanup.
- ProgressView.SortedKeys: ids are `nat`. JavaScript orders integer-like keys only below 2^32 − 1, so larger ids are not modelled.
- The `onComplete` effect of the progress widget (web/src/components/FileUploadProgress.tsx:14-18) is React scheduling. Its effect on the uploader is `HandleUploadComplete`.
- `formatDistanceToNow` of the estimated completion is not modelled. The view carries the raw estimate text.
- FileUploader.Uploader.HandleFileUpload: requires that no upload is in progress, because the file input is disabled while uploading (FileUploader.tsx:79, 85). Overlapping uploads are not modelled.
- Floating point is modelled as exact `real` arithmetic. `CalculateProgressPercentage` computes `100 · completed / total` exactly, where Python first divides and then multiplies by 100 in floating point. The two can differ by one at exact multiples.
- Regular expressions: `\d` is ASCII digits only (Python also accepts other Unicode digits). The matcher is proved to agree with a regex match only for the five patterns used, which are well separated. The current-page pattern `Processing page (\d+)/(\d+)` is matched in the form `Processing page (\d+)/` followed by one digit. Only its first group is read, and both forms match at the same places with the same first group; the equivalence itself is argued, not proved.
- `datetime.strptime` is modelled by `ValidTimestamp`: month 1–12, a real day of the month, year ≥ 1, hour 1–12, minutes and seconds ≤ 59. The parsed datetime is represented by its text.
- ProgressHelpers.EstimateCompletionTime: the wall clock is a parameter `now` in seconds. The result is seconds, not a datetime.
- `get_processing_logs` is a database query and is not part of this model. backend/onyx/file_processing/ollama_ocr.py is not part of this model either.
- BookStack: several things are foreign and are inputs:
  - `build_app_url` is `AppLink(path)`;
  - the HTML parse of a page is its `parsedText`;
  - base64 decoding is the `decodes` flag;
  - text extraction is the `extracted` option;
  - `time_str_to_utc` and `utcfromtimestamp(...).strftime(...)` are left out, and the filter values carry the epoch seconds.
- BookStack JSON fields that are present but `null` (where Python would raise on string concatenation) are not modelled. A field is either absent, which means the default, or a string.
- Errors raised by the BookStack client during polling, which would abort the generator, are not modelled.
- The BookStack server's own cap on `count` is not modelled.
- BookstackConnector.Connector.PollSource: requires a positive batch size. With a batch size of 0 or less, the loop would not end against a slicing server.
- BookstackConnector.Connector.LoadFromState: requires a positive batch size, for the same reason.
- BookstackConnector.PollEndpoint: requires a positive batch size, for the same reason.

## Findings

| source | as written | input that shows it | evidently intended | confidence | as-written member | corrected member |
|---|---|---|---|---|---|---|
| backend/onyx/utils/progress_helpers.py:33 | `datetime.now(datetime.timezone.utc)` looks up `timezone` on the `datetime` class, which has no such attribute. Every call that passes the guards raises `AttributeError`, so no estimate is ever returned | status found, 10 batches, 5 completed, started at 100.0 s, now 120.0 s | `datetime.now(timezone.utc)`: the estimate is now + remaining / rate = 140.0 s | high (not executed) | ProgressHelpers.EstimateAsWrittenRaises | ProgressHelpers.EstimateMeaning |
