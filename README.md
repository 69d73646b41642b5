# App Monitor: health rules, record filters and settings page in Dafny

App Monitor keeps a list of application records, such as name, `_id`, `prodUrl`, `domain`, `technicalOwner` and `status`. It probes each record's production URL to mark it `up` or `down`. This project models and proves the small rule-based core of the system:

- **Backend health rules** (`backend/server.js`), in `health.dfy`:
  - A probe outcome is classified as `up` or `down`.
  - `checkBulkHealth` is an in-place loop over an `array` of records, proved against the function `AnnotateAll`.
  - Three routes are modelled: the bulk-upload route, the update route (strips `_id`, recomputes status) and the delete route, with their 400/404/200/201/500 decisions.
- **Dashboard filter and option lists** (`frontend/src/components/Dashboard.jsx`), in `dashboard.dfy`:
  - search on name or id, combined by AND with status, domain and technical-owner filters;
  - the de-duplicated `allDomains` / `allTechnicalOwners` lists.
- **Applications page search** (`frontend/src/pages/ApplicationsPage.jsx`), in `applications_page.dfy`.
- **Summary cards** (`frontend/src/components/SummaryCards.jsx`), in `summary_cards.dfy`: the total, up and down counts.
- **CSV export** (`handleExport` in `frontend/src/components/FilterControls.jsx`), in `csv_export.dfy`.
  - The CSV text is proved against a small CSV reader.
  - Quoting round-trips, as rule 7 of section 2 of RFC 4180 requires.
- **Account settings page** (`frontend/src/pages/SettingsPage.jsx`), in `settings.dfy`:
  - The page is a class whose fields are the component's state.
  - Each handler is a method proved equal to a pure step function on a `PageState` snapshot.
  - The step functions carry the page's rules: the image-source chain, the 2 MiB limit, the password-confirmation guard and the no-file guard.
  - An invariant over any sequence of events proves that no picture over 2 MiB is ever uploaded.

`js_values.dfy` holds the JavaScript semantics these rules rely on:

- truthiness;
- `String()` for the value kinds used;
- ASCII `toLowerCase` and `includes`;
- records as insertion-ordered property lists, with `r[k]`, `r[k] = v` and `{ k, ...rest }`.

Everything outside the program is a parameter:

- the outcome each HTTP probe would give;
- MongoDB's answers;
- what `ObjectId.isValid` says;
- every `fetch` reply;
- the file the browser hands over and its object URL.

## Model

| member | source | states |
|---|---|---|
| Health.Classify | backend/server.js:21-28 | the status is `up` exactly when the probe answered with status 200; a thrown error or any other code gives `down` |
| Health.AnnotateAll | backend/server.js:31-39 | the batch keeps its length and order; element i is input record i annotated with its own probe outcome |
| Health.CheckBulkHealth | backend/server.js:31-39 | the in-place loop leaves the array equal to `AnnotateAll` of its old contents and reports the probed indices |
| Health.AnnotatedStatus | backend/server.js:24-26 | after annotation the status is `up` or `down`, `up` iff prodUrl is truthy and the probe gave 200, `down` without probing for a falsy prodUrl, and no other property changes (a `status` key is added at the end when missing) |
| Health.UnprobedIgnoresOutcome | backend/server.js:33-37 | a record with a falsy prodUrl is marked `down` whatever its probe would have said, so no probe matters for it |
| Health.AnnotateSplits | backend/server.js:32-39 | annotating a batch in two parts gives the same records as annotating it whole: each record depends only on itself and its own probe |
| Health.AnnotateIdempotent | backend/server.js:32-39 | annotating an annotated batch again with the same outcomes changes nothing |
| Health.ProbedExactly | backend/server.js:33-34 | the probed indices are exactly the records with a truthy prodUrl, in increasing order |
| Health.BulkUpload | backend/server.js:88-108 | a non-array or empty body gets 400 with no probe and no insert; otherwise the annotated batch is inserted, and the reply is 201 with the inserted count, or 500 for an unacknowledged or failed insert |
| Health.UpdateDoc | backend/server.js:117-130 | the `$set` document never holds `_id`; status is recomputed from the probe only when prodUrl is truthy, otherwise left as sent; every other property is the body's |
| Health.UpdateApplication | backend/server.js:111-150 | an invalid id gives 400 before any probe or database call; 404 iff the update matched nothing; 200 iff it matched and was acknowledged; every other case is 500 |
| Health.DeleteApplication | backend/server.js:153-177 | an invalid id gives 400 and no database call; 404 iff nothing was deleted; 200 iff a deletion was acknowledged; every other case is 500 |
| Dashboard.NameTextAsWritten | frontend/src/components/Dashboard.jsx:25 | lower-casing the name fails exactly when the name is truthy and not a string |
| Dashboard.AsWrittenAgrees | frontend/src/components/Dashboard.jsx:24-35 | the filter as written throws iff some record's name throws, and otherwise gives the same list as the corrected filter `Select` |
| Dashboard.NumericNameCrashes | frontend/src/components/Dashboard.jsx:25 | a record whose name is the number 42 makes the filter as written throw even with default filters, while the corrected filter keeps it |
| Dashboard.NameTextAgrees | frontend/src/components/Dashboard.jsx:25 | for any name that does not throw, the as-written and corrected name texts agree |
| Dashboard.SelectIsSubseq | frontend/src/components/Dashboard.jsx:24-35 | the filtered list is a subsequence of the input |
| Dashboard.SelectCounts | frontend/src/components/Dashboard.jsx:24-35 | a record passing all four tests occurs in the result exactly as often as in the input, and any other record not at all; with the subsequence property this fixes the result as the filtered list |
| Dashboard.SelectMembers | frontend/src/components/Dashboard.jsx:24-35 | a record is in the result iff it is in the input and passes all four tests |
| Dashboard.DefaultsKeepAll | frontend/src/components/Dashboard.jsx:25-34 | an empty search with all three filters at "All" keeps every record |
| Dashboard.SearchSemantics | frontend/src/components/Dashboard.jsx:25-29 | the search matches iff the lower-cased name or id contains the lower-cased term; a missing name or id reads as '' |
| Dashboard.SelectedMatchFilters | frontend/src/components/Dashboard.jsx:30-32 | with status s not "All", every kept record's status is lowercase(s); the same holds for domain and technicalOwner with their filter values |
| Dashboard.NarrowingShrinks | frontend/src/components/Dashboard.jsx:30-34 | replacing filter values "All" with specific values gives a subsequence of the earlier result |
| Dashboard.NotAnArrayFiltersToNothing | frontend/src/components/Dashboard.jsx:22 | a non-array `applications` prop filters to the empty list |
| Dashboard.DedupFacts | frontend/src/components/Dashboard.jsx:45-46 | de-duplication gives distinct values, drops no value, and keeps first-appearance order (the result for any prefix is a prefix of the result) |
| Dashboard.OptionListFacts | frontend/src/components/Dashboard.jsx:45-46 | the option list starts with "All" and continues with the distinct property values found among the records, exactly; a non-array prop gives just "All" |
| ApplicationsPage.SearchIsDashboardFilter | frontend/src/pages/ApplicationsPage.jsx:11-17 | the page's search equals the Dashboard filter with status, domain and owner at "All" |
| ApplicationsPage.SearchAsWrittenIsDashboardFilter | frontend/src/pages/ApplicationsPage.jsx:11-17 | the same holds for the two filters as written, including when a name throws |
| ApplicationsPage.SearchIsSubseq | frontend/src/pages/ApplicationsPage.jsx:11-17 | the result is a subsequence of `applications` |
| ApplicationsPage.EmptyTermKeepsAll | frontend/src/pages/ApplicationsPage.jsx:14-16 | an empty or undefined search term keeps every record |
| ApplicationsPage.SearchMembers | frontend/src/pages/ApplicationsPage.jsx:12-16 | a record is kept iff it is in the input and its lower-cased name or id contains the lower-cased term |
| SummaryCards.CountStatus | frontend/src/components/SummaryCards.jsx:11-12 | a status count never exceeds the number of records |
| SummaryCards.Summarize | frontend/src/components/SummaryCards.jsx:8-12 | total is the list length, up the number of records whose status is 'up', down the number whose status is 'down' (the count `CountSplits` pins down); up and down are at most the total; a non-array prop gives three zeros |
| SummaryCards.CountSplits | frontend/src/components/SummaryCards.jsx:11-12 | counting adds up over concatenation and counts one record exactly when its status equals the one asked for, so the count is the number of records with that status |
| SummaryCards.UpPlusDownAtMostTotal | frontend/src/components/SummaryCards.jsx:10-12 | upApps + downApps <= totalApps |
| SummaryCards.UpPlusDownIsTotal | frontend/src/components/SummaryCards.jsx:10-12 | when every status is `up` or `down`, upApps + downApps == totalApps |
| SummaryCards.UpFilterCounts | frontend/src/components/SummaryCards.jsx:10-12 | on the Dashboard's list filtered with status "Up", the cards show every record as up and none as down |
| SummaryCards.AllWithStatus | frontend/src/components/SummaryCards.jsx:11 | when every record has the status, the count is the list length |
| SummaryCards.NoneWithStatus | frontend/src/components/SummaryCards.jsx:12 | when every record has another status, the count is 0 |
| CsvExport.ReadQuoted | frontend/src/components/FilterControls.jsx:35 | the reader for a quoted field always consumes input, so parsing a row terminates |
| CsvExport.ReadQuotedDoubled | frontend/src/components/FilterControls.jsx:35 | reading a field with doubled quotes gives back the original text and the rest of the line |
| CsvExport.QuoteRoundTrip | frontend/src/components/FilterControls.jsx:35 | unquoting a quoted text and halving its inner `""` gives back the text (rule 7 of section 2 of RFC 4180) |
| CsvExport.Cell | frontend/src/components/FilterControls.jsx:31-35 | a non-null object is written as its JSON text; any other value, `null` included, is a quoted field that unquotes to String(value) |
| CsvExport.Cells | frontend/src/components/FilterControls.jsx:29-35 | a row has exactly one cell per header, in header order, each the cell of that header's value |
| CsvExport.Rows | frontend/src/components/FilterControls.jsx:29-36 | one row per record, in input order |
| CsvExport.Split | frontend/src/components/FilterControls.jsx:36 | splitting a text on a character always gives at least one piece |
| CsvExport.SplitJoin | frontend/src/components/FilterControls.jsx:28-36 | joining lines that hold no separator and then splitting gives the lines back |
| CsvExport.ParseQuotedFields | frontend/src/components/FilterControls.jsx:29-36 | a comma-joined list of quoted fields parses back into exactly those fields |
| CsvExport.RowRoundTrip | frontend/src/components/FilterControls.jsx:29-35 | a row of non-object values parses back into String() of each header's value, in header order |
| CsvExport.MissingKeyCell | frontend/src/components/FilterControls.jsx:26-35 | a header missing from a record renders as `"undefined"` |
| CsvExport.EmptyExportsNothing | frontend/src/components/FilterControls.jsx:21-24 | an empty list produces no CSV at all |
| CsvExport.DoubleQuotesKeeps | frontend/src/components/FilterControls.jsx:35 | doubling quotes introduces no other character, in particular no newline |
| CsvExport.JoinKeeps | frontend/src/components/FilterControls.jsx:28-36 | joining introduces no character that is in neither the parts nor the separator |
| CsvExport.RowKeepsNewlines | frontend/src/components/FilterControls.jsx:29-36 | a row contains no newline when none of its values' texts does |
| CsvExport.ExportIsLines | frontend/src/components/FilterControls.jsx:26-36 | the export is the data-URI prefix, then the header line and one line per record joined by '\n' |
| CsvExport.ExportLines | frontend/src/components/FilterControls.jsx:26-36 | when no key or value text holds a newline, the output starts with the data-URI prefix and its lines are exactly the header line and the rows, so it has |records| + 1 lines |
| Settings.SizeLimitBoundary | frontend/src/pages/SettingsPage.jsx:134-142 | a file of exactly 2 MiB passes and one byte more fails; the check passes iff size <= 2097152 |
| Settings.ImageSource | frontend/src/pages/SettingsPage.jsx:185-191 | a truthy preview wins; otherwise a profilePicUrl starting with "http" is used unchanged; otherwise a non-empty profilePicUrl is joined to the API base with '/'; there is no image iff neither is truthy |
| Settings.SettingsPage.CurrentImageSource | frontend/src/pages/SettingsPage.jsx:185-191 | the page's image is `ImageSource` of its preview, its stored picture URL and its API base, so the preview / "http" / API-base chain applies to the page's own fields; it has no image iff neither the preview nor the stored URL is truthy |
| Settings.PreviewThenUpload | frontend/src/pages/SettingsPage.jsx:185-191 | a chosen file's preview hides any stored picture, and a null preview and an empty-string preview resolve the same way, both falling through to the stored URL |
| Settings.OrEmpty | frontend/src/pages/SettingsPage.jsx:41-45 | `x \|\| ''` keeps a present string and turns a missing one into '' |
| Settings.ErrorText | frontend/src/pages/SettingsPage.jsx:117-127 | the alert text of a failed request is the body's message when it has one, the fallback when it has none, and the error's own message for a thrown request |
| Settings.ProfileLoadStep | frontend/src/pages/SettingsPage.jsx:24-50 | a 401 logs out; a loaded profile sets the names and the picture URL, each defaulting to ''; a failure raises the load alert; loading ends in every case and nothing else changes |
| Settings.SettingsPage.LoadProfile | frontend/src/pages/SettingsPage.jsx:24-50 | the page's new state is `ProfileLoadStep` of its old state |
| Settings.PasswordEditStep | frontend/src/pages/SettingsPage.jsx:90-93 | the named input takes the value; the other inputs and the rest of the state are unchanged |
| Settings.SettingsPage.EditPasswordField | frontend/src/pages/SettingsPage.jsx:90-93 | the page's new state is `PasswordEditStep` of its old state |
| Settings.PasswordChangeStep | frontend/src/pages/SettingsPage.jsx:95-129 | a request is sent iff the two new passwords agree, and it carries the old and the new password; a mismatch only raises an alert; on success all three inputs become '', the success alert is raised, logout is scheduled and nothing else changes; on failure only the alert changes |
| Settings.SettingsPage.ChangePassword | frontend/src/pages/SettingsPage.jsx:95-129 | the page's new state is `PasswordChangeStep` of its old state |
| Settings.FileChangeStep | frontend/src/pages/SettingsPage.jsx:132-150 | no file clears the selection and preview; a file over 2 MiB raises an alert, empties the input and keeps the old selection; any other file is selected and previewed; no request is sent |
| Settings.SettingsPage.ChooseFile | frontend/src/pages/SettingsPage.jsx:132-150 | the page's new state is `FileChangeStep` of its old state |
| Settings.PictureSubmitStep | frontend/src/pages/SettingsPage.jsx:152-182 | with no file selected, it only raises an alert and sends nothing; otherwise it uploads exactly the selected file and clears the selection and preview whatever the answer, and takes the new picture URL only on success |
| Settings.SettingsPage.SubmitPicture | frontend/src/pages/SettingsPage.jsx:152-182 | the page's new state is `PictureSubmitStep` of its old state |
| Settings.SettingsPage.constructor | frontend/src/pages/SettingsPage.jsx:7-16 | the page starts in the initial useState values |
| Settings.PictureSubmitKeepsLimit | frontend/src/pages/SettingsPage.jsx:152-164 | uploading keeps every sent picture within 2 MiB, because the file sent is the selected one |
| Settings.PasswordChangeKeepsLimit | frontend/src/pages/SettingsPage.jsx:95-114 | a password request keeps the upload invariant |
| Settings.StepKeepsLimit | frontend/src/pages/SettingsPage.jsx:132-164 | every handler keeps the invariant that the selected file and every uploaded picture are within 2 MiB |
| Settings.RunKeepsLimit | frontend/src/pages/SettingsPage.jsx:132-164 | the invariant holds after any sequence of events |
| Settings.NoOversizeUpload | frontend/src/pages/SettingsPage.jsx:134-164 | starting from the initial state, no picture the page ever uploads is over 2 MiB |
| JsValues.Lower | frontend/src/components/Dashboard.jsx:25-27 | `toLowerCase` keeps the length and lower-cases each ASCII letter, leaving other characters alone |
| JsValues.ContainsAt | frontend/src/components/Dashboard.jsx:29 | `includes` holds iff the term occurs at some position |
| JsValues.GetAssign | backend/server.js:34 | after `r[k] = v`, reading k gives v and every other key reads as before |
| JsValues.AssignKeys | backend/server.js:34 | assigning keeps the key order and appends a new key at the end |
| JsValues.AssignTwice | backend/server.js:34 | assigning the same value to the same key twice is the same as assigning it once |
| JsValues.GetOmit | backend/server.js:117 | `{ _id, ...rest }` leaves `_id` out of rest and every other key as it was |

## Left out

- The HTTP probe itself (axios, its 5000 ms timeout, redirects): the probe is an oracle, one outcome per record.
- `Promise.all` concurrency: the probes run as a sequential loop. Each probe reads and writes only its own record, so the result is the same.
- MongoDB calls (`insertMany`, `updateOne`, `deleteOne`): their results are inputs. A rejected `updateOne` or `deleteOne` is one case, whatever the reason.
- `ObjectId.isValid`: it is a library call, so it is a boolean input.
- The GET and single-record POST routes of backend/server.js (lines 51-86), Express and CORS setup, and `startServer`: these are outside the modelled rules.
- Numbers are integers. Floating-point values, NaN and `String()` of non-integers are not modelled.
- `toLowerCase` covers ASCII only.
- The `_id` toString is the text carried by an object value.
- `Object.keys` order is insertion order. The rule that integer-like keys come first is not modelled.
- Array elements are records. A `null` element, where `app.status` would throw, is not modelled.
- An array in the Dashboard's option lists is one value. `new Set` compares by identity, but this model compares values structurally.
- `Dashboard.OptionListFacts`: a record whose domain or owner is the string "All" makes "All" appear twice in the list. The lemma describes the list as the source builds it and does not claim the whole list is distinct.
- `JSON.stringify` of an object is treated as an opaque string carried by the value.
- `encodeURI`, the DOM download link and the "No data to export." browser alert: HandleExport returns `None` for an empty list instead.
- The export deviates from RFC 4180 in two ways: lines end in '\n', not CRLF, and object cells are not quoted. The model follows the code.
- Header keys are not quoted or escaped, as in the code, so `CsvExport.ExportLines` assumes no key or value text contains a newline.
- `CsvExport.RowRoundTrip` covers only rows without object values, because a JSON cell is written unquoted and may contain commas.
- In `fetchUserData`, `response.json()` runs before the 401 check. A 401 whose body is not JSON takes the error path, which the model folds into `Refused`/`Failed` of `ProfileReply.Answered`.
- Non-string `firstName`, `lastName` and `profilePicUrl` values in the user data are not modelled.
- `handleProfileChange`, `handleProfileUpdate`, `localStorage` and the JSX rendering of SettingsPage.jsx are not modelled.
- The 1500 ms logout timer is a flag, `logoutScheduled`.
- `URL.createObjectURL` is a parameter of `ChooseFile`.
- `Settings.ImageSource` follows the code, where a truthy preview wins. An empty-string preview falls through to the stored URL; it does not count as set just for being non-null.

## Findings

| source | as written | input that shows it | evidently intended | confidence | as-written member | corrected member |
|---|---|---|---|---|---|---|
| frontend/src/components/Dashboard.jsx:25 (same expression at frontend/src/pages/ApplicationsPage.jsx:12) | `(app?.name \|\| '').toLowerCase()` calls toLowerCase on a truthy non-string name, which throws a TypeError, so the whole filter throws and no record is shown | one record `{ name: 42 }`, for example from a spreadsheet upload, with every filter at its default | the name is converted to a string before lower-casing, so the record is searched by "42" and kept | medium, not executed | Dashboard.FilterAsWritten / Dashboard.NumericNameCrashes | Dashboard.Select (agreement with the as-written filter on all other inputs: Dashboard.AsWrittenAgrees) |
