# Excel Analytic Platform — a Dafny model of its request-handling core

The Excel Analytic Platform is an Express/Mongoose back end with a small React front end. Users register and log in, then upload spreadsheets. Each upload is written to disk, decoded into JSON rows and stored as one record per (user, filename); the client follows the upload through realtime progress events. The file controller also defines handlers that list and delete a user's own files, but `server.js` mounts no route to them (only the upload is routed), so they are modelled as handlers that no request reaches. The platform can summarise the user's most recent file with a language model, reporting progress the same way. Administrators can list every user and file and delete a user together with all of that user's files. Account operations try to write an audit entry, and so does every authenticated request to the history routes. These writes are best-effort: nothing is written while the store is down, and as written the entries of failed registrations and of failed logins that identify no stored user are lost (see Findings).

This project models that core in Dafny, one module per source file:

| module | source |
|---|---|
| `Models` | the three schemas (`models/User.js`, `models/File.js`, `models/History.js`) |
| `Services` | the document store (class `Db`), the filesystem (class `FileSystem`), the realtime channel (class `Channel`), and the foreign libraries as uninterpreted functions |
| `Http` | responses, middleware flow (`next()` or a sent response), and the request object (class `Exchange`, whose `user` field the middleware sets) |
| `AiHelpers` | `utils/aiHelpers.js` |
| `HistoryUtils` | `utils/historyUtils.js` |
| `AuthMiddleware` | `middleware/authMiddleware.js` |
| `HistoryLogger` | `middleware/historyLogger.js` |
| `HistoryRoutes` | `routes/historyRoutes.js`, mounted behind the chain at `server.js:71` |
| `AdminRoutes` | `routes/adminRoutes.js` |
| `FileController` | `controllers/fileController.js` |
| `AdminController` | `controllers/adminController.js` |
| `AiController` | `controllers/aiController.js` |
| `AuthController` | `controllers/authController.js` |
| `ProtectedRoute` | `Frontend/src/components/ProtectedRoute.jsx` |
| `Common` | options and results, filtering and a descending sort, decimal rendering |

How the model is built:
- **State the handlers change** lives in classes whose methods carry `modifies` clauses: the store's collections, the file map, the event log, `req.user` and the browser's stored token.
- **Controllers that change state** are methods. Each is proved against a specification function of the old state (`RegisterSpec`, `Analyze`, `UploadStop`/`UploadEvents`, `Listing`, …).
- **The promised properties** are lemmas about those functions.
- **Store faults:** a store that throws is modelled by `Db.online == false`, under which every store call fails with the driver's error. Filesystem faults are the set `FileSystem.failing` of paths on which calls fail with `EACCES`. A missing path makes reads and unlinks fail with `ENOENT`.
- **Foreign code** becomes function-valued parameters: the spreadsheet codec (`XLSX.read`, `sheet_to_json`, `sheet_to_csv`, UTF-8 decoding), bcrypt, JWT signing and verification, `jwtDecode` and the language-model call.
- **The clock** is an integer parameter `now`.

Where the prose description of the system and the code disagree, the model follows the code:
- A failed upload emits a `processing_error` event carrying the message. It does not emit a 0% progress event (`controllers/fileController.js:72-79`).
- The history listing is reached through `authMiddleware`, then `logHistory`, then `authMiddleware` again (`server.js:71`, `routes/historyRoutes.js:8`). A caller's listing therefore already contains the entry logged for that same request (`HistoryRoutes.ListingShowsOwnRequest`).

## Model

| member | source | states |
|---|---|---|
| Models.NewUser | Backend/models/User.js:4-22 | a saved user keeps name, email and password as given; `isAdmin` takes the value supplied and defaults to false; both timestamps are the creation time |
| Models.CastUserId | Backend/models/History.js:5-9 | the `userId` ObjectId cast accepts exactly a document id or nothing, and fails on any other string |
| Models.Lookup | Backend/utils/aiHelpers.js:35 | `row[header]` is undefined exactly when the row has no such own key, and otherwise is the cell stored under it (inherited properties: see Left out) |
| Models.LookupAt | Backend/utils/aiHelpers.js:35 | in a row with distinct keys, as every JavaScript object has, the i-th key finds the i-th cell |
| Services.UpsertLeavesOneRecord | Backend/controllers/fileController.js:47-58 | after the upsert there is exactly one record for (uploadedBy, filename), carrying the new path, MIME type, rows and date |
| Services.UpsertKeepsOtherKeys | Backend/controllers/fileController.js:47-58 | the upsert leaves the records of every other (uploadedBy, filename) key unchanged and in order |
| Services.UpsertKeepsOneFilePerKey | Backend/models/File.js:4-30 | FileSchema has no unique index on (uploadedBy, filename); the upsert alone preserves "at most one record per key" |
| Services.Db.UpsertFile | Backend/controllers/fileController.js:47-58 | `findOneAndUpdate(..., {upsert: true, new: true})`: an existing record keeps its id and creation time, otherwise a new one is inserted; the store invariants are kept |
| Services.Db.DeleteFileById | Backend/controllers/fileController.js:127 | `deleteOne({_id})` removes the records with that id and keeps the rest |
| Services.Db.DeleteUserById | Backend/controllers/adminController.js:72 | `User.deleteOne({_id})` removes exactly that user |
| Services.Db.InsertUser | Backend/models/User.js:5-17 | a save succeeds iff the store answers, the three required fields are non-empty and the email is unused (the unique index); it appends exactly the new user |
| Services.Db.CreateHistory | Backend/models/History.js:4-12 | `History.create` appends one entry iff the store answers, the userId casts and the required action is present, storing `details` as minimized (`StoredDetails`); otherwise the log is unchanged |
| Models.MinimizedFrom | Backend/models/History.js:12 | minimizing an object's members keeps every non-object member and never lengthens the list |
| Models.MinimizedIsMinimal | Backend/models/History.js:12 | after minimizing, no object at any depth is empty |
| Models.MinimizedKeepsMinimal | Backend/models/History.js:12 | an object with no empty object inside is stored unchanged, so minimizing is idempotent |
| Models.StoredDetails | Backend/models/History.js:12 | missing details stay missing, a non-object is stored as given, `{}` is not stored at all, a stored object is non-empty and minimal, and an already minimal non-empty object is stored unchanged |
| Services.ReadOutcome | Backend/controllers/aiController.js:55 | `fs.readFile` yields the stored bytes iff the path exists and is readable, and otherwise the EACCES or ENOENT error |
| Services.FileSystem.ReadFile | Backend/controllers/aiController.js:64 | reading returns `ReadOutcome` of the current files and changes nothing |
| Services.FileSystem.Mkdir | Backend/controllers/fileController.js:31 | `fs.mkdir(dir, {recursive: true})` fails only on an inaccessible directory |
| Services.FileSystem.WriteFile | Backend/controllers/fileController.js:34 | the write stores the bytes at the path, or fails with EACCES and stores nothing |
| Services.FileSystem.Unlink | Backend/controllers/adminController.js:55 | unlink removes exactly that path, or fails (EACCES, or ENOENT for a missing file) and removes nothing |
| Services.Channel.Emit | Backend/controllers/aiController.js:22 | an emit appends exactly its event to the log |
| Services.FirstSheet | Backend/controllers/fileController.js:42-43 | `workbook.Sheets[workbook.SheetNames[0]]` exists iff there is a first sheet name and it names a sheet |
| AiHelpers.Sample | Backend/utils/aiHelpers.js:21-22 | the sample is a prefix of the input, of length min(50, n) |
| AiHelpers.CellText | Backend/utils/aiHelpers.js:35 | null and undefined cells render as "", strings as themselves |
| AiHelpers.RowCells | Backend/utils/aiHelpers.js:34-36 | a row yields one cell per header, in header order, each the text of `row[header]` |
| AiHelpers.RowLineFields | Backend/utils/aiHelpers.js:34-36 | splitting a row's line at tabs gives back exactly its cells in header order (for tab-free cells) |
| AiHelpers.FormatDataForAI | Backend/utils/aiHelpers.js:4-46 | the loop that accumulates the text computes `Formatted`; the "empty or no recognizable format" branch is unreachable |
| AiHelpers.AppendRows | Backend/utils/aiHelpers.js:34-36 | the `forEach` appends one tab-joined line per row, in row order, each ended by a newline |
| AiHelpers.FormattedNoDataIff | Backend/utils/aiHelpers.js:5-7 | the result is "No data provided." iff the input is null, undefined or empty |
| AiHelpers.FormattedStartsWithHeader | Backend/utils/aiHelpers.js:30-31 | for non-empty input the output starts with the first row's keys joined by tabs and ended by a newline |
| AiHelpers.FormattedNoteIff | Backend/utils/aiHelpers.js:38-40 | the omission note, counting n − 50 rows, ends the output iff there are more than 50 rows |
| AiHelpers.FormattedIgnoresRowsPastSample | Backend/utils/aiHelpers.js:21-22 | rows past the first 50 affect the output only through their number |
| AiHelpers.FormattedIgnoresUnlistedKeys | Backend/utils/aiHelpers.js:30-35 | keys absent from the first row never reach the output |
| HistoryUtils.OrNull | Backend/utils/historyUtils.js:10 | `userId \|\| null` maps a falsy value to null and passes anything else, "anonymous" included, unchanged |
| HistoryUtils.LoggedAsWritten | Backend/utils/historyUtils.js:4-18 | one `logAction` call as written appends at most one entry |
| HistoryUtils.NullUnlessId | Backend/utils/historyUtils.js:10 | the corrected user reference always passes the ObjectId cast and keeps a document id |
| HistoryUtils.Logged | Backend/utils/historyUtils.js:4-18 | one corrected call appends exactly one entry iff the store answers and the action is non-empty; the entry has the action verbatim, the details as the store minimizes them (none for the default `{}`) and the time; the user is null unless an id was passed |
| HistoryUtils.AnonymousEntryLost | Backend/utils/historyUtils.js:10 | an "anonymous" call appends nothing as written, and appends an entry with a null user and no details once corrected |
| HistoryUtils.LoggedAgreesOnIds | Backend/utils/historyUtils.js:10 | for a document id or a falsy user, the written and corrected calls append the same thing |
| HistoryUtils.LogAction | Backend/utils/historyUtils.js:4-18 | `logAction` never fails; it appends what `Logged` says and changes nothing else |
| AuthMiddleware.Authenticate | Backend/middleware/authMiddleware.js:7-28 | no token gives "No token, authorization denied"; a verify failure gives "Token is not valid"; otherwise the result is the decoded payload, with no store lookup |
| AuthMiddleware.Handle | Backend/middleware/authMiddleware.js:7-28 | on success `req.user` is the payload and the flow continues; on failure a 401 is sent and `req.user` is untouched |
| HistoryLogger.RequestEntries | Backend/middleware/historyLogger.js:5-9 | the appended entry has userId `req.user.id`, action `method + " " + originalUrl`, the body as the store minimizes it as details (none for an empty body), and is appended iff the store answers |
| HistoryLogger.LogHistory | Backend/middleware/historyLogger.js:3-14 | the logger always calls `next()`, never responds, and changes only the history log |
| HistoryRoutes.Listing | Backend/routes/historyRoutes.js:10-14 | the listing is the caller's entries (a permutation of them), sorted by timestamp descending; a store error gives 500 "Error retrieving history" |
| HistoryRoutes.ListingMembers | Backend/routes/historyRoutes.js:10 | an entry is listed iff it is in the log and its userId is the caller's |
| HistoryRoutes.Get | Backend/routes/historyRoutes.js:8-15 | the handler runs only after authentication succeeds; then the request is logged and the caller's listing returned; a refused request changes nothing |
| HistoryRoutes.ListingShowsOwnRequest | Backend/server.js:71 | with the store up, the listing contains the entry logged for the current request |
| ProtectedRoute.Decide | Frontend/src/components/ProtectedRoute.jsx:5-49 | the page renders iff a token exists, decodes, is unexpired and the role check passes; "/dashboard" iff only the admin check fails; the token is cleared iff decoding fails or it is expired |
| ProtectedRoute.ExpiryBeforeRole | Frontend/src/components/ProtectedRoute.jsx:22-36 | an expired non-admin token on an admin page goes to the login page, not the dashboard |
| ProtectedRoute.ExpiryBoundary | Frontend/src/components/ProtectedRoute.jsx:22-36 | for every page, at `now == exp * 1000` the token is not expired (the token is kept, and the page renders iff the role check passes); one millisecond later the guard clears the token and redirects to /login |
| ProtectedRoute.AdminsPassEverywhere | Frontend/src/components/ProtectedRoute.jsx:29-38 | "user" pages admit every valid token; an admin token renders wherever it is unexpired |
| ProtectedRoute.Guard | Frontend/src/components/ProtectedRoute.jsx:9-45 | the guard shows the decision's view and removes the stored token exactly when the decision says so |
| FileController.UploadDirInjective | Backend/controllers/fileController.js:24-25 | two different user ids always give two different upload directories "uploads/<id>". |
| FileController.Progress | Backend/controllers/fileController.js:28-63 | the first k upload events are the fixed steps 5, 15, 40, 60, 80, 95, 100 in order |
| FileController.UploadStop | Backend/controllers/fileController.js:27-58 | an upload fails at mkdir, write, decode or the store, after 1, 2, 3 or 5 events; it succeeds iff none of those fails |
| FileController.UploadEventsShape | Backend/controllers/fileController.js:28-79 | all events go to the uploader's room; progress strictly increases; success ends at 100%; failure ends with `processing_error` and never reports 100% |
| FileController.UploadFile | Backend/controllers/fileController.js:12-80 | no channel gives 500 and no file gives 400, with no store, filesystem or event effect; otherwise the pipeline runs |
| FileController.Pipeline | Backend/controllers/fileController.js:27-79 | the events are `UploadEvents`; the file is written once the write step is reached; success upserts the record under (user, filename) and answers 200 with its id; failure answers 500 and leaves the records untouched |
| FileController.SaveFile | Backend/controllers/fileController.js:28-35 | the first three steps emit their events and stop at the first filesystem error |
| FileController.Fail | Backend/controllers/fileController.js:72-79 | the catch block emits one `processing_error` and answers 500 with the error |
| FileController.Ingest | Backend/controllers/fileController.js:38-79 | a workbook that does not decode stops the upload after the third event with a 500, an unreachable store after the fifth; otherwise the record is upserted with the first sheet's rows and the answer is 200 with its id and name |
| FileController.Record | Backend/controllers/fileController.js:47-70 | an unreachable store gives a 500 and leaves the records unchanged; otherwise the record for (uploader, filename) is upserted and the 95% and 100% events follow |
| FileController.OwnFilesNewestFirst | Backend/controllers/fileController.js:103 | the caller's records, a permutation of them, ordered by uploadDate descending |
| FileController.MostRecentFile | Backend/controllers/fileController.js:83-97 | a record of the user with maximal uploadDate; null when the user has none or the store throws |
| FileController.HeadIsNewest | Backend/controllers/fileController.js:86 | the first record of a list sorted by uploadDate descending has the latest uploadDate of all |
| FileController.GetFiles | Backend/controllers/fileController.js:100-109 | corrected `getFiles`: the caller's records newest first, or 500 "Error fetching files" |
| FileController.GetFilesStoreError | Backend/controllers/fileController.js:102-107 | on a store error the handler as written sends nothing while the corrected one answers 500; otherwise they agree |
| FileController.OwnedRecord | Backend/controllers/fileController.js:116 | `findOne({_id, uploadedBy})` finds a record iff one has that id and owner |
| FileController.DeleteByIdRemovesOne | Backend/controllers/fileController.js:127 | with distinct ids, deleting by a record's id keeps every other record in its order and removes exactly that one (also as a multiset) |
| FileController.DeleteFile | Backend/controllers/fileController.js:111-134 | 404 and no change unless the caller owns a record with that id; otherwise the existing stored file is unlinked and exactly that record removed; an unlink error or store error gives 500 and keeps the record |
| FileController.DeleteFileRemovesOnlyTarget | Backend/controllers/fileController.js:116-127 | a successful delete removes the caller's record and keeps every other |
| AdminController.PublicDropsOnlyPassword | Backend/controllers/adminController.js:10 | `select('-password')` drops the password and nothing else |
| AdminController.AllUsers | Backend/controllers/adminController.js:7-16 | 200 with every user in store order, each without the password, iff the store answers; otherwise 500 |
| AdminController.UserById | Backend/controllers/adminController.js:43 | `findById` finds a user iff one has that id |
| AdminController.OwnerOf | Backend/controllers/adminController.js:23 | the populated owner is the uploader's id and email, or null when that user no longer exists |
| AdminController.AllFiles | Backend/controllers/adminController.js:19-29 | 200 with every file record in store order, each with its owner populated (the user with the record's `uploadedBy` id and that user's email, or null when no such user exists), iff the store answers; otherwise 500 |
| AdminController.CascadeRemovesExactlyOwned | Backend/controllers/adminController.js:49-67 | deleting the target's records one by one by id leaves exactly the records of everyone else |
| AdminController.DeleteUser | Backend/controllers/adminController.js:32-81 | self-delete gives 400 and unknown users 404, with no change; on success the target and all their records are gone, every other user and record is unchanged, and the target's stored files are unlinked |
| AdminController.RemoveFiles | Backend/controllers/adminController.js:51-68 | the loop deletes each file's record after trying to unlink it; an unlink failure never stops it; users are untouched, so the target exists at every step |
| AdminController.CascadeStep | Backend/controllers/adminController.js:67 | deleting file i's record after those before it leaves the records whose ids are none of the first i + 1 files' |
| AdminController.PathsStep | Backend/controllers/adminController.js:53-65 | iteration i removes file i's path from disk exactly when the path is non-empty and its unlink does not fail |
| AdminController.RemoveNext | Backend/controllers/adminController.js:51-68 | one iteration extends the removed records and the removed paths by file i's and leaves users, history and ids alone |
| AdminController.RemoveOne | Backend/controllers/adminController.js:53-67 | one iteration unlinks the stored file if it has a path and ignores any unlink error, then deletes the record |
| AiController.DecoderFor | Backend/controllers/aiController.js:54-73 | "text/csv" is read as text; exactly the two Excel MIME types are converted from the first sheet; anything else is unsupported |
| AiController.Truncate | Backend/controllers/aiController.js:80 | `substring(0, 5000)`: the first min(5000, n) characters, the whole content when shorter |
| AiController.PromptEmbedsTruncatedContent | Backend/controllers/aiController.js:77-80 | the prompt embeds exactly the truncated content, at a fixed place |
| AiController.EmitProgress | Backend/controllers/aiController.js:20-25 | one `ai_analysis_progress` event to the user's room, and nothing while the channel is unset |
| AiController.Content | Backend/controllers/aiController.js:54-69 | a read error becomes the analysis error; otherwise the text exists iff the file is CSV or the workbook parses, and is the UTF-8 decoding of the stored bytes for CSV and the first sheet as CSV for Excel; a workbook parse error becomes the analysis error |
| AiController.SummarizedProgress | Backend/controllers/aiController.js:75-97 | after reading, events go to the user's room and climb from 30%; the last is 100% iff the response is 200, and then carries the insights returned; otherwise it is 0% |
| AiController.AnalyzeProgress | Backend/controllers/aiController.js:36-97 | at least two events, all to the user's room, progress strictly increasing from 10% up to the last; the last is 100% iff the response is 200, then carrying exactly the insights returned, and 0% otherwise |
| AiController.AnalyzeSuccessSteps | Backend/controllers/aiController.js:37-90 | the analysis answers 200 iff a file of a supported type exists, its content reads and the summarizer answers; the events are then exactly 10%, 20% (Excel only), 30%, 60% and 100% with the insights |
| AiController.FoundProgress | Backend/controllers/aiController.js:54-97 | once a file is found, events go to the user's room and climb from 20% (the Excel parse step); the last is 100% iff the response is 200, and 0% otherwise |
| AiController.AnalyzeSkipsSummarizer | Backend/controllers/aiController.js:39-73 | with no file (404) or an unsupported type (400), the summarizer is never consulted |
| AiController.AnalyzeData | Backend/controllers/aiController.js:27-98 | no channel gives 500 before any lookup or event; otherwise the events and response are those of `Analyze` on the user's most recent file |
| AiController.AnalyzeRecent | Backend/controllers/aiController.js:36-97 | with the channel set: the 10% event, then a 0% event and 404 when no file was found, otherwise what `Found` says |
| AiController.AnalyzeFile | Backend/controllers/aiController.js:54-97 | for a found file: a 0% event and 400 for an unsupported type, otherwise the read and summarize events and response of `Found` |
| AiController.Summarize | Backend/controllers/aiController.js:75-97 | the rest of the try block and the catch block emit `Summarized`'s events and answer its response |
| AiController.ReadContent | Backend/controllers/aiController.js:54-69 | the read branch emits the 20% event only for Excel, and yields `Content` |
| AiController.Fail | Backend/controllers/aiController.js:93-97 | the catch block emits a 0% event with the error and answers 500 |
| AdminRoutes.IsAdmin | Backend/routes/adminRoutes.js:9-15 | `next()` iff `req.user` is set and is an admin; otherwise 403 |
| AdminRoutes.AdminGateOrder | Backend/routes/adminRoutes.js:18-24 | a missing or invalid token gives 401, never 403; a valid non-admin token gives 403; the controller runs iff the token is a valid admin token |
| AdminRoutes.Guard | Backend/routes/adminRoutes.js:9-24 | authentication then `isAdmin`: the refusal is sent, or the flow continues with `req.user` set to the admin |
| AdminRoutes.GetUsers | Backend/routes/adminRoutes.js:18 | refused requests get the gate's response; admitted ones get `getAllUsers` |
| AdminRoutes.GetFiles | Backend/routes/adminRoutes.js:21 | refused requests get the gate's response; admitted ones get `getAllFiles` |
| AdminRoutes.DeleteUser | Backend/routes/adminRoutes.js:24 | a refused request gets the gate's response and changes nothing; for an admitted one, self-delete gives 400, an unreachable store 500 and an unknown user 404, each with no change, and 200 "User deleted" holds iff the target exists; on success the target's user record and file records are gone, every other record is kept, and the target's stored files are unlinked except where unlinking fails |
| AuthController.UserByEmail | Backend/controllers/authController.js:53 | `findOne({email})` finds a user iff one has that email |
| AuthController.RegisterSpec | Backend/controllers/authController.js:7-42 | missing fields or a taken email give 400 and create no user; a user is created (201) iff the fields are present, the store answers, the email is new and the hash saves; the new user stores the hash and `isAdmin` as supplied |
| AuthController.Register | Backend/controllers/authController.js:7-42 | `register` answers `RegisterSpec`'s response, appends exactly the created user (if any), leaves the files unchanged, and appends to the history what one corrected `logAction` call writes (see Findings) |
| AuthController.LoginSpec | Backend/controllers/authController.js:44-81 | 400 with "Missing email or password", "User not found" or "Invalid credentials" on the respective failure; 200 iff the password matches; the token carries {id, isAdmin, username} with a one-day lifetime |
| AuthController.Login | Backend/controllers/authController.js:44-81 | `login` answers `LoginSpec`'s response, leaves users and files unchanged, and appends to the history what one corrected `logAction` call writes (see Findings) |
| AuthController.RegisterAuditAsWritten | Backend/controllers/authController.js:14-39 | the audit is "anonymous" iff registration fails; with `logAction` as written, a failed registration leaves no history entry and a successful one leaves the same entry as the corrected `logAction` |
| AuthController.LoginAuditAsWritten | Backend/controllers/authController.js:49-78 | the audit names the user iff the user was found (success or wrong password); with `logAction` as written, missing fields, an unknown email or a store error leave no history entry, and the other outcomes leave the same entry as the corrected `logAction` |
| AuthController.RegisterThenLogin | Backend/controllers/authController.js:26-70 | after a successful registration, logging in with the same credentials succeeds with a token for the new user |
| AuthController.UserByEmailAppend | Backend/controllers/authController.js:19 | after appending a user with a fresh email, looking that email up finds that user |

## Findings

| source | as written | input that shows it | evidently intended | confidence | as-written member | corrected member |
|---|---|---|---|---|---|---|
| Backend/utils/historyUtils.js:10 | `userId \|\| null` passes the string "anonymous" through; HistorySchema's ObjectId cast rejects it, and the error is swallowed | any failed registration or login, e.g. `register` with an empty name: `logAction('anonymous', …)` appends nothing | failures by unidentified callers are recorded with a null user, as the comment on that line says | not executed | HistoryUtils.LoggedAsWritten (HistoryUtils.AnonymousEntryLost) | HistoryUtils.Logged (HistoryUtils.LogAction) |
| Backend/controllers/fileController.js:102-107 | `userId` is declared with `const` inside `try` and read in `catch`, so the catch block throws a ReferenceError before it responds | a call of `getFiles` while the store is unreachable: the handler's promise rejects and no response is sent. No route in `server.js` reaches `getFiles`, so the defect is latent | answer 500 "Error fetching files" with the store's error | not executed | FileController.GetFilesAsWritten (FileController.GetFilesStoreError) | FileController.GetFiles |

The rest of the model uses the corrected members: the account controllers log through `HistoryUtils.LogAction`, and the file listing is `FileController.GetFiles`.

## Left out

- Mongoose id casting of request parameters: ids are natural numbers, so a malformed `:id` (a CastError, hence a 500) cannot be expressed.
- Store failures part-way through a handler: the store either answers every call of a request or none. A store that fails between the cascade's record deletions, for example, is not modelled.
- AdminController.DeleteUser: does not model a store error raised after some records were deleted, because store faults are per request.
- Concurrency: requests run one at a time. Interleavings at `await` points and last-write-wins races on the upsert are not modelled.
- Ordering of equal keys: the sorted listings and `getMostRecentFile` promise some maximal element and some descending order, but not which of several equal dates comes first.
- Models.Lookup: does not model properties a row inherits from `Object.prototype`. A row lacking a column named `constructor`, `toString` or `valueOf` yields "" in the model, where the source reads the inherited function and prints its text.
- `Object.keys` order: a row's keys are taken in stored order. JavaScript's rule that integer-like keys come first is not modelled.
- Cell rendering: numbers are integers and `toString` of a number or boolean is left abstract. Floating-point values are not modelled.
- `substring` counts UTF-16 code units; the model counts characters.
- Paths: the upload path is the relative "uploads/<id>/<name>" rather than the absolute path that `path.join(__dirname, …)` builds, and no path normalisation is applied.
- Console output, `alert` calls and the React rendering of `Navigate` are left out; the guard's result is the view it chooses.
- Socket delivery: emits are appended to an event log, and whether a client receives them is not modelled.
- The spreadsheet library, bcrypt, JWT, `jwtDecode` and the language-model call are uninterpreted function parameters. A failed hash is modelled as an empty hash that the store's validation rejects.
- AuthController.Register: records the audit through the corrected `HistoryUtils.Logged`, so a failed registration leaves a history entry with a null user. The source as written leaves none (see Findings); AuthController.RegisterAuditAsWritten states what the as-written history is.
- AuthController.Login: records the audit through the corrected `HistoryUtils.Logged`, so missing fields, an unknown email or a store error leave a history entry with a null user. The source as written leaves none (see Findings); AuthController.LoginAuditAsWritten states what the as-written history is.
- FileSchema validation: the file writes do not check the schema's required `filename`, `filepath` and `fileMimeType`, so the store accepts every file record the model writes. HistorySchema's one required field, `action`, is checked by `Services.Db.CreateHistory`.
- AuthController.RegisterSpec: does not model a store error between the email lookup and the save, because store faults are per request.
- The UI pages, the front-end services, `socket.js`, `index.js` and the process wiring of `server.js` (apart from the middleware chains at lines 71 and 74) are not part of this model.
- `routes/aiRoutes.js`, `routes/fileRoutes.js` and `services/geminiAI.js` are not part of this model: the server does not mount them.
