# n8n workflow dashboard: a Dafny model of its core

The dashboard is a Next.js application. Users sign in, store the address and API
token of their own n8n automation engine, browse a catalogue of template
workflows kept in a GitHub repository, install templates on their engine, upload
workflow files to a personal library, and mark favourites. Its server routes sit
between the browser, a Supabase database/storage back end and the engine's REST
API.

This project models the logic inside that plumbing:

- **String helpers** (`Text`, `WorkflowCard`, `SettingsPage`, `FileUpload`):
  - the template title formatter and the description table;
  - host-URL normalisation and the default display name of an uploaded file;
  - `trim`, the trailing-slash strip and the `/api/v1/workflows` URL.
- **Route handlers** as functions from their inputs to an `Exchange`:
  - the inputs are the session, the request fields, the stored settings and the outcome of each outgoing HTTP call;
  - the `Exchange` holds the response (status and body) and the requests the handler sent, in order.

  This covers settings test, install, stats, status, installed list and GitHub listing. It lets the contracts say which requests are sent, to which URL, with which headers and payload, and that none is sent before validation passes.
- **Stateful parts** as classes with `modifies` clauses:
  - the settings table (`SettingsRoute.SettingsTable`, a map keyed by user);
  - the favourite table (`FavoriteRoute.FavouriteTable`, a row sequence);
  - the storage bucket together with the workflow table (`UploadRoute.WorkflowLibrary`);
  - the settings form (`SettingsPage.SettingsForm`) and the upload form (`FileUpload.UploadForm`).

  Database and storage failures are parameters of the methods.

Modules: `Common` (Option, parsed JSON, responses, `Array.filter`), `Text`,
`Remote` (outgoing calls, fetch outcomes, the settings query), and one module
per source file.

Parameters stand in for everything outside the code:

- an external call's outcome is `FetchOutcome` = `Ok(body)`, `HttpError(status, statusText, text)`, `NetworkError(message)` (the platform's `TypeError`) or `OtherError(message)` (timeouts, bodies that are not JSON, any other thrown error);
- the clock is a `timestamp`/`now` parameter;
- ids the database assigns are a `newId` parameter;
- the server's environment variables are `Option<string>` parameters.

## Model

| member | source | states |
|---|---|---|
| Common.OrElse | app/api/workflows/installed/route.ts:26-27 | `a \|\| b` on optional strings: the result is present iff either operand is; a present first operand wins, otherwise the second is taken |
| Common.Field | components/dashboard/file-upload.tsx:56 | a property read on parsed JSON is defined exactly when the value is an object holding the key, and then yields the value stored under that key |
| Common.Filter | app/api/workflows/github/route.ts:33-38 | `Array.filter`: never longer than the input; an element is in the result iff it is in the input and satisfies the predicate |
| Common.FilterIsSubsequence | app/api/workflows/github/route.ts:33-38 | filtering keeps the surviving elements in their original order (an order-preserving subsequence) |
| Common.FilterMultiset | app/api/workflows/github/route.ts:33-38 | filtering keeps every qualifying element as many times as it occurs in the input and drops every other element entirely: the result is the input's multiset restricted to the qualifying elements |
| Common.FilterKeepsAllOrNone | app/api/n8n-stats/route.ts:57 | the filtered sequence is empty iff no element qualifies, and as long as the input iff every element qualifies |
| Common.Positions | app/api/n8n-stats/route.ts:57 | the set of indices whose element satisfies the predicate, and no other index |
| Common.FilterCount | app/api/n8n-stats/route.ts:57 | the length of a filtered sequence is the number of positions whose element qualifies |
| Common.FilterSnoc | app/api/n8n-stats/route.ts:57 | filtering a non-empty sequence counts the filtered prefix plus one for the last element if it qualifies |
| Common.PositionsSnoc | app/api/n8n-stats/route.ts:57 | the qualifying positions of a non-empty sequence are those of its prefix plus the last position if its element qualifies |
| Common.FilterAppend | app/api/workflows/favorite/route.ts:26-31 | filtering distributes over concatenated sequences, so a delete treats rows added later independently |
| Text.UpperAscii | components/dashboard/workflow-card.tsx:32 | upper-casing a `\w` character keeps it a word character, changes exactly the lower-case letters, and lower-casing undoes it |
| Text.LowerAscii | components/dashboard/workflow-card.tsx:47 | lower-casing leaves no capital, leaves every non-capital as it is, and maps each capital to the small letter the same distance from 'a' |
| Text.CaseRoundTrip | components/dashboard/workflow-card.tsx:32 | upper-casing undoes lower-casing on capitals, and lower-casing undoes upper-casing on small letters |
| Text.Lower | components/dashboard/workflow-card.tsx:47 | `toLowerCase` keeps the length and lower-cases position by position |
| Text.LowerAppend | components/dashboard/workflow-card.tsx:47 | lower-casing distributes over concatenation |
| Text.LowerIdempotent | components/dashboard/workflow-card.tsx:47 | lower-casing twice equals lower-casing once |
| Text.LowerOfLowerCase | components/dashboard/workflow-card.tsx:47 | a string with no capitals is its own lower case |
| Text.StripJsonSuffix | components/dashboard/workflow-card.tsx:30 | `replace(/\.json$/, '')` removes exactly one trailing ".json" (the result plus ".json" is the input) and otherwise returns the input; the result is always a prefix of the input |
| Text.DashToSpace | components/dashboard/workflow-card.tsx:31 | a '-' or '_' becomes a space, and every other character is kept, so the result is never '-' or '_' |
| Text.DashesToSpaces | components/dashboard/workflow-card.tsx:31 | `replace(/[-_]/g, ' ')` keeps the length and maps each position through DashToSpace |
| Text.DashesToSpacesIdentity | components/dashboard/workflow-card.tsx:31 | text without '-' or '_' is unchanged by the replacement |
| Text.CapitalizeFrom | components/dashboard/workflow-card.tsx:32 | the left-to-right `\b\w` scan upper-cases exactly the word characters that start a word and keeps every other character |
| Text.CapitalizeWords | components/dashboard/workflow-card.tsx:32 | `replace(/\b\w/g, toUpperCase)` keeps the length; position i is upper-cased iff a word starts there |
| Text.CapitalizeWordsIdempotent | components/dashboard/workflow-card.tsx:32 | capitalising twice equals capitalising once |
| Text.SkipWhitespace | app/api/settings/route.ts:69-70 | the first index at or after the start that holds no white space: everything skipped is white space and the index found is not |
| Text.SkipWhitespaceBack | app/api/settings/route.ts:69-70 | walking back from the end, not below the lower bound: everything passed is white space and the character before the index found is not |
| Text.Trim | app/api/settings/route.ts:69-70 | `trim()` is the contiguous slice of the input starting at TrimStart; everything before and after that slice is white space; a non-empty result starts and ends with a non-white-space character; the result is empty iff the input is all white space |
| Text.TrimIdempotent | components/dashboard/file-upload.tsx:62-63 | trimming twice equals trimming once |
| Text.StripTrailingSlash | app/api/n8n-stats/route.ts:33 | `replace(/\/$/, '')` removes at most one trailing '/' (the result plus "/" is the input) and otherwise returns the input |
| Text.Decimal | app/api/workflows/user/upload/route.ts:38-39 | a number printed in a template literal is a non-empty run of digits with no leading zero |
| Text.DecimalRoundTrip | app/api/workflows/user/upload/route.ts:38-39 | reading the printed digits back gives the number |
| WorkflowCard.FormatWorkflowName | components/dashboard/workflow-card.tsx:28-33 | the title is the name's length, less 5 when the name ends in ".json"; it contains no '-' or '_' and does not end in ".json" |
| WorkflowCard.CapitalizedHasNoJsonSuffix | components/dashboard/workflow-card.tsx:30-32 | after capitalisation a ".json" cannot end the text, because the 'j' after '.' starts a word |
| WorkflowCard.FormatWorkflowNameAt | components/dashboard/workflow-card.tsx:29-32 | position by position, the title shows a space for '-'/'_', the upper case of a word-starting character, and any other character unchanged |
| WorkflowCard.FormatWorkflowNameIdempotent | components/dashboard/workflow-card.tsx:28-33 | formatting a title again changes nothing |
| WorkflowCard.DescriptionKey | components/dashboard/workflow-card.tsx:47 | the key is the lower-cased name less one trailing ".json" (the key plus ".json" is the lower-cased name) when it has one, and the whole lower-cased name otherwise; it holds no capital letters |
| WorkflowCard.GetWorkflowDescription | components/dashboard/workflow-card.tsx:35-49 | the description is never empty; it is the table entry of the key when there is one, and the fixed default otherwise |
| WorkflowCard.DescriptionIgnoresCase | components/dashboard/workflow-card.tsx:47 | the description of a name equals that of its lower case |
| WorkflowCard.DescriptionIgnoresExtension | components/dashboard/workflow-card.tsx:47 | appending ".json", in any case, to a name without one does not change its description |
| WorkflowCard.LookupAsWritten | components/dashboard/workflow-card.tsx:36-48 | indexing the object literal yields the own entry for the eight keys, an inherited prototype member for "constructor"/"__proto__", and undefined for any other key |
| WorkflowCard.GetWorkflowDescriptionAsWritten | components/dashboard/workflow-card.tsx:35-49 | `descriptions[key] \|\| default` as written never yields undefined, and agrees with the corrected lookup on every key that is not a prototype member |
| WorkflowCard.ConstructorNameGetsNoText | components/dashboard/workflow-card.tsx:47-48 | "constructor.json" has no table entry, but the lookup as written returns the inherited `constructor` instead of the default text |
| WorkflowCard.ConstructorKey | components/dashboard/workflow-card.tsx:47 | the key of "constructor.json" is "constructor" |
| SettingsPage.FormatHostUrl | app/dashboard/settings/page.tsx:106-112 | "" stays ""; a URL with "http://" or "https://" is unchanged; any other URL gets "https://" in front; every non-empty result has a scheme and ends with the typed text |
| SettingsPage.FormatHostUrlIdempotent | app/dashboard/settings/page.tsx:106-112 | formatting a formatted host changes nothing |
| SettingsPage.TestButtonDisabled | app/dashboard/settings/page.tsx:244 | the test button is enabled iff no test is running and both host and token are non-empty |
| SettingsPage.TestToast | app/dashboard/settings/page.tsx:93-100 | the toast is a success iff the reply was ok; a failed reply shows its `error` or a non-empty fallback; a failed request shows its message |
| SettingsPage.SettingsForm.EditHost | app/dashboard/settings/page.tsx:181-184 | a host edit stores the formatted text, which is empty or has a scheme; nothing else changes |
| SettingsPage.SettingsForm.EditToken | app/dashboard/settings/page.tsx:200-203 | a token edit stores the text verbatim; nothing else changes |
| SettingsPage.SettingsForm.TestDisabled | app/dashboard/settings/page.tsx:244 | the button is only enabled when both fields are filled |
| SettingsPage.SettingsForm.TestConnection | app/dashboard/settings/page.tsx:75-104 | a request is made iff host and token are both non-empty; without one, the "provide both" toast shows and `testing` is untouched; with one, the reply's toast shows and `testing` ends lowered; the fields never change |
| FileUpload.DefaultDisplayName | components/dashboard/file-upload.tsx:29 | the default name is the file name less one trailing ".json", with every '-'/'_' shown as a space, so it contains neither |
| FileUpload.HasNodesArray | components/dashboard/file-upload.tsx:56 | the parsed content passes iff it is an object whose `nodes` field is an array |
| FileUpload.PrepareUpload | components/dashboard/file-upload.tsx:43-63 | the form is submitted iff there is a file, the trimmed display name is non-empty and the content parses with an array `nodes`; the submission carries the trimmed name and description; a missing file or blank name gives the "select a file" refusal |
| FileUpload.ReplyOutcome | components/dashboard/file-upload.tsx:70-82 | the upload counts as done iff the reply was ok; a failed reply shows its `error`, or "Failed to upload workflow" without one; a failed reply whose body is not JSON shows "Invalid JSON file format"; a failed request shows its own message |
| FileUpload.UploadForm.OnDrop | components/dashboard/file-upload.tsx:24-32 | an empty drop changes nothing; otherwise the first file is taken, and the display name is defaulted from it only when it was empty |
| FileUpload.UploadForm.EditDisplayName | components/dashboard/file-upload.tsx:152 | stores the typed display name; nothing else changes |
| FileUpload.UploadForm.EditDescription | components/dashboard/file-upload.tsx:163 | stores the typed description; nothing else changes |
| FileUpload.UploadForm.RemoveFile | components/dashboard/file-upload.tsx:88-92 | file, display name and description are reset to empty |
| FileUpload.UploadForm.UploadDisabled | components/dashboard/file-upload.tsx:174 | the button is enabled iff no upload is running and the trimmed display name is non-empty |
| FileUpload.UploadForm.HandleUpload | components/dashboard/file-upload.tsx:43-86 | a submission is sent iff PrepareUpload accepts the form, and it is exactly that submission; the reported outcome follows the reply; the fields are untouched; `uploading` is untouched when the first check fails and ends lowered otherwise |
| Remote.WorkflowsUrl | app/api/n8n-stats/route.ts:33 | the URL ends in "/api/v1/workflows" and what precedes it is the host less at most one trailing '/' |
| Remote.ApiHeaders | app/api/n8n-stats/route.ts:37-40 | the engine calls carry exactly the API-key header with the token and the JSON content type |
| Remote.Configured | app/api/n8n-stats/route.ts:23 | the settings count as configured iff the query found a row whose host and token are both present and non-empty |
| Remote.ListWorkflowsCall | app/api/n8n-stats/route.ts:33-42 | the listing request is a GET of WorkflowsUrl of the host, ending in "/api/v1/workflows", with the API headers of the token and no body |
| Remote.ListedWorkflows | app/api/n8n-stats/route.ts:54 | `data.data \|\| []`: the listed workflows are the body's `data` array when present and [] otherwise |
| Remote.StatusLine | app/api/n8n-status/route.ts:42 | the status line is the printed status, one space, then the status text: it starts with the digits, has a ' ' right after them, ends with the status text and is exactly that long |
| SettingsRoute.SelectSettings | app/api/settings/route.ts:17-21 | the query yields the caller's row, the reported error, or PGRST116 when the caller has no row |
| SettingsRoute.GetSettings | app/api/settings/route.ts:4-40 | no session gives 401; status 200 iff the row was found or the error is PGRST116, which reads as empty host and token; any other error gives 500 |
| SettingsRoute.Upserted | app/api/settings/route.ts:65-74 | the upsert writes only the caller's row, with the given host, token and update time; other users' rows are unchanged; an existing row keeps its id and creation time |
| SettingsRoute.SaveThenGet | app/api/settings/route.ts:65-74 | reading the settings back after a save yields 200 with the saved host and token, trimmed |
| SettingsRoute.SettingsTable.Get | app/api/settings/route.ts:4-40 | GET reads the caller's row from the table and answers as GetSettings |
| SettingsRoute.SettingsTable.Post | app/api/settings/route.ts:42-88 | no session gives 401, a missing field 400, a database error 500, each leaving the table unchanged; otherwise the table becomes the upsert with trimmed host and token, keeping every row filed under its own user and no two rows with the same `user_id` |
| SettingsTestRoute.UpstreamErrorMessage | app/api/settings/test/route.ts:38-46 | status 401 maps to "Invalid API token", 404 to the endpoint-not-found text, any other status to "N8N API error: <status> <statusText>" |
| SettingsTestRoute.TestConnection | app/api/settings/test/route.ts:4-71 | 401 iff there is no session and a missing field 400, both without a request; otherwise exactly one GET of the workflows URL with the API headers; 200 iff it succeeds, reporting the listed count; after validation every non-ok outcome is 400: an HTTP error with UpstreamErrorMessage, a network error with the cannot-connect text, any other error with its own message |
| StatsRoute.CountActive | app/api/n8n-stats/route.ts:57 | the active count equals the number of positions holding an active workflow; it never exceeds the number of workflows; it is 0 iff none is active and the full count iff all are |
| StatsRoute.IsActive | app/api/n8n-stats/route.ts:57 | a listed workflow is active iff it is an object whose `active` field is truthy |
| StatsRoute.GetStats | app/api/n8n-stats/route.ts:4-80 | no session gives 401; after sign-in always 200 with active ≤ total; missing settings give zeros without a request; counts are non-zero only on success, where total is the listed count and active the count of truthy `active`; an upstream error message carries its status text |
| StatusRoute.GetStatus | app/api/n8n-status/route.ts:4-65 | `isConnected` iff signed in, configured and the listing succeeded; 401 without a session, 200 otherwise; a request is sent iff signed in and configured; upstream and network errors carry their messages |
| InstalledRoute.FromSettingsOrEnv | app/api/workflows/installed/route.ts:26-27 | a stored value is used when non-empty, otherwise the environment's; the result is present iff either is |
| InstalledRoute.GetInstalled | app/api/workflows/installed/route.ts:5-65 | no session gives 401; host and key each fall back to the environment, and 400 without a request if either is still missing; otherwise one GET of the listing with the resolved host and key; 200 iff it succeeds, returning its `data` or []; every failed listing gives 500: an HTTP error with "N8N API error: " and the body text, a network or other error with its own message |
| InstalledRoute.StoredHostWins | app/api/workflows/installed/route.ts:26 | a non-empty stored host is used whatever the environment says |
| InstallRoute.CreatePayload | app/api/workflows/install/route.ts:56-64 | the payload is never active; its name is the template's if truthy, else the requested one; nodes, connections, settings, static data and tags are copied unchanged |
| InstallRoute.PayloadIgnoresTemplateState | app/api/workflows/install/route.ts:56-64 | the payload does not depend on the template's id, active flag, meta, pinned data or version id |
| InstallRoute.CreateCall | app/api/workflows/install/route.ts:50-65 | the create request is a POST of the payload to the stored host plus "/api/v1/workflows", with no slash stripped, and the API headers |
| InstallRoute.CreatedId | app/api/workflows/install/route.ts:76 | `result.data?.id` is the `id` field of `data` when `data` is an object holding one, and undefined otherwise |
| InstallRoute.Install | app/api/workflows/install/route.ts:4-87 | 401, then 400 for a missing URL or name, then 400 for missing settings, all before any request; the requests sent are exactly nothing before validation passes, the template download alone when it fails, and the download then the create call otherwise; no payload sent is active; 200 iff both calls succeed, carrying `result.data?.id`; after validation every failed call gives 500: a failed template download "Failed to fetch workflow data", a failed create "N8N API error: " and the body text, a network or other error its own message |
| InstallRoute.InstalledInactive | app/api/workflows/install/route.ts:60 | a template that is itself active is still created inactive |
| GitHubRoute.GitHubHeaders | app/api/workflows/github/route.ts:15-22 | Accept and User-Agent are always set; Authorization "Bearer <token>" is set iff a token is configured; no other header |
| GitHubRoute.IsWorkflowFile | app/api/workflows/github/route.ts:34-37 | an entry passes iff its name ends in ".json", its type is "file" and it has a non-empty download URL |
| GitHubRoute.WorkflowFiles | app/api/workflows/github/route.ts:33-39 | a listing that is not an array gives []; otherwise the result is an order-preserving subsequence holding every workflow-file entry as often as the listing does and no other entry |
| GitHubRoute.ListTemplates | app/api/workflows/github/route.ts:3-49 | a missing repository URL gives 500 without a request; otherwise one GET with GitHubHeaders; 200 iff it succeeds, with the listing's workflow files; any failure gives 500 |
| FavoriteRoute.Unfavourited | app/api/workflows/favorite/route.ts:26-31 | the delete removes every row of this user and workflow and keeps every other row as often as it occurred, in order |
| FavoriteRoute.FavouriteThenUnfavourite | app/api/workflows/favorite/route.ts:20-31 | favouriting and then unfavouriting a workflow leaves the table as if only unfavourited |
| FavoriteRoute.FavouriteTable.Post | app/api/workflows/favorite/route.ts:5-40 | no session gives 401 and a database error 500 with its message, both leaving the table unchanged; otherwise a truthy `isFavorite` appends one (user, workflow) row and a falsy one deletes the matching rows |
| UploadRoute.StoragePath | app/api/workflows/user/upload/route.ts:38-40 | the storage path is the caller's folder "user/", the printed timestamp, "-" and the file name: it starts with "user/", ends with "-" and the name, holds the printed timestamp between them and has exactly that length |
| UploadRoute.SlashIndex | app/api/workflows/user/upload/route.ts:40 | the position of the first '/' in a path, or its length when there is none |
| UploadRoute.SlashIndexAfterUser | app/api/workflows/user/upload/route.ts:40 | in "user/..." with a user id free of '/', the first '/' follows the user id |
| UploadRoute.StoragePathNamesOwner | app/api/workflows/user/upload/route.ts:38-40 | two storage paths that are equal belong to the same user, so users never share a path |
| UploadRoute.DescriptionOrEmpty | app/api/workflows/user/upload/route.ts:20 | an absent or empty description is stored as "" |
| UploadRoute.NewRow | app/api/workflows/user/upload/route.ts:52-62 | the inserted row carries the caller as owner, the original file name, the storage path, the display name and the description |
| UploadRoute.WorkflowLibrary.Upload | app/api/workflows/user/upload/route.ts:4-82 | 401, 400 for a missing file or display name, and 400 for a non-".json" file all leave storage and table unchanged; a failed storage upload gives 500 with no change; a failed insert gives 500 and removes the new file again, which stays only if the remove fails; success adds exactly one file and one row at the same path; every row keeps pointing at a stored file in its owner's folder |

## Left out

- Rendering and UI wiring: JSX, spinners, dialogs, dropzone configuration, `useEffect` loading and the pages and components that only display data. `SettingsPage` and `FileUpload` keep only the state that decides what is sent.
- `handleSave` on the settings page: it posts the fields as they stand and has no check of its own beyond what `SettingsRoute.SettingsTable.Post` validates.
- Real network, database and storage I/O, sessions and cookies: their results are parameters (`FetchOutcome`, failure flags, `SettingsQuery`).
- Supabase client construction and its mock fallback (lib/supabase/server.ts, lib/supabase/client.ts): the behaviour depends on a library and the environment.
- `JSON.parse`, `JSON.stringify`, `FormData` and `File`: parsed values arrive as `Json` or as typed records. A request body that is not JSON, or a field that is not a string, is not modelled.
- The clock (`Date.now()`, `new Date().toISOString()`) and ids the database generates are parameters.
- Timeouts (`AbortSignal.timeout`) are one more `OtherError`.
- Floating point and locale formatting (file size, dates); JSON numbers are integers.
- Concurrency between simultaneous requests: nothing in the code coordinates them.
- The preview routes and the per-workflow user routes (app/api/workflows/preview/route.ts, app/api/workflows/user/[id]/route.ts, app/api/workflows/user/preview/[id]/route.ts) are not part of this model.
- Text.Lower: `toLowerCase` is modelled on ASCII letters only. The Unicode mapping of other characters (for instance the Kelvin sign to 'k') is left out, so a non-ASCII name that lower-cases onto a table key is not covered.
- SettingsRoute.Upserted: the upsert is taken to be keyed by `user_id`, one row per user. The conflict target is a property of the database schema, which is not part of this model.
- UploadRoute.WorkflowLibrary.Upload: the storage upload is taken to fail on an occupied path, as the storage service does without its upsert option. Any other storage failure is the `uploadFails` flag.
- StatsRoute.IsActive: a listed workflow is judged by its `active` field; an entry that is not an object counts as inactive, where JavaScript would throw on `null` entries.
- FileUpload.PrepareUpload: `file.text()` failing to read is not modelled. Content that parses to `null` is refused with the platform's TypeError message.

## Findings

| source | as written | input that shows it | evidently intended | confidence | as-written member | corrected member |
|---|---|---|---|---|---|---|
| components/dashboard/workflow-card.tsx:36-48 | `descriptions[key]` on a plain object literal also finds members inherited from `Object.prototype` | a template file named "constructor.json" (key "constructor"): the card gets the `Object` constructor function instead of a text | a key outside the eight entries gets the default description | not executed | WorkflowCard.GetWorkflowDescriptionAsWritten (shown by WorkflowCard.ConstructorNameGetsNoText) | WorkflowCard.GetWorkflowDescription |
