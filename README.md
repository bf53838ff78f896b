# Upload path of a Telegram-backed file store, in Dafny

The store keeps file contents in a Telegram channel. Each file's metadata is a
`File` document in a document database. This project models the upload path:

- **The home page's client logic.** `handleUpload` sends each selected file
  either directly to `POST /api/upload` or, above 2 GiB, through
  `splitFileAndUpload`. That function cuts the file into 1 GiB slices and posts
  them to `POST /api/upload-chunk` in index order, counts the successes,
  reports a rounded percentage, and stops at the first failure.
- **The two upload handlers.** Each one validates the request, sends a
  `sendDocument` call to Telegram, reads the reply and inserts one `File`
  document. Every early return becomes a branch of a Dafny `method`.
- **The `File` schema.** This covers the required fields, the defaults, and the
  sparse unique index on `publicShareToken`.
- **The listing** `GET /api/files`. It keeps the non-chunked documents, newest
  first, projected to four fields.

Modules, one per file:

| file | module | models |
|---|---|---|
| `basics.dfy` | `Basics` | option and result values, bytes, multipart form entries, sequence concatenation |
| `js_text.dfy` | `JsText` | JavaScript's `parseInt` (section 19.2.5 of ECMA-262) and `Number.prototype.toString` for integers |
| `file_model.dfy` | `FileModel` | the `File` document, `new File(...)` defaults, `required` validation, the unique indexes |
| `metadata_store.dfy` | `MetadataStore` | the collection as a class: `records: seq<FileRecord>`, with `Save` appending |
| `telegram.dfy` | `Telegram` | the `sendDocument` request and the parts of its reply the handlers read |
| `upload_route.dfy` | `UploadRoute` | `POST /api/upload` |
| `upload_chunk_route.dfy` | `UploadChunkRoute` | `POST /api/upload-chunk` |
| `files_route.dfy` | `FilesRoute` | `GET /api/files` |
| `chunk_planner.dfy` | `ChunkPlanner` | chunk count and byte ranges of the chunked upload |
| `home_page.dfy` | `HomePage` | `splitFileAndUpload` and `handleUpload` |
| `end_to_end.dfy` | `EndToEnd` | what the client sends against what the handlers accept |

State and effects are modelled as follows:

- **The database** is a `Store` object. Its `Save` method appends a document
  when the schema and the indexes allow it. Otherwise nothing changes, which
  models the validation or duplicate-key error `save` throws. A write that
  fails for any other reason is not modelled (see "Left out").
- **Whether `connectToDatabase` succeeds** is the parameter `connected`.
- **The Telegram call** is the function parameter `telegram`, from request to
  reply. Each handler also returns the request it sent, if any, so contracts can
  say when no call was made.
- **The client's chunk transport** is the oracle `accept`. It gives the server's
  verdict on a chunk, meaning `response.ok` with the fetch not throwing.
- **The new `_id`, the creation time and the upload session id** are
  parameters. In the source they come from the database driver, `Date.now()`
  and `Math.random()`.

In these places the model follows the code where a reader might expect
otherwise:

- `Math.ceil(0 / CHUNK_SIZE)` is 0, so an empty file would have no chunks, not
  one empty chunk. `ChunkPlanner.TotalChunks` states this. The chunked path
  only applies above 2 GiB, so this never arises.
- The chunk handler does not check `0 <= chunkIndex < totalChunks`. Any two
  integers pass (`UploadChunkRoute.ValidationIgnoresRange`).
- `POST /api/upload` ignores the `parentFolderId` the client sends. The new
  document lands in the root folder (`UploadRoute.UploadRecordShape`).
- `GET /api/files` takes no folder argument. It lists every non-chunked
  document.

## Model

| member | source | states |
|---|---|---|
| `ChunkPlanner.TotalChunks` | my-app/src/app/home/page.tsx:85 | the chunk count is the least n with n·2^30 ≥ size, so it is ceil(size / 2^30), and it is 0 exactly for an empty file |
| `ChunkPlanner.ChunkRange` | my-app/src/app/home/page.tsx:92-95 | chunk i is a non-empty range of at most `CHUNK_SIZE` bytes inside the file. The first starts at 0, each starts where the previous ended, and the last ends at the file size |
| `ChunkPlanner.ChunksDisjoint` | my-app/src/app/home/page.tsx:93-94 | ranges of different chunks do not overlap |
| `ChunkPlanner.ChunksCover` | my-app/src/app/home/page.tsx:93-94 | every byte lies in exactly one chunk's range, the one with index p / 2^30 |
| `ChunkPlanner.Slices` | my-app/src/app/home/page.tsx:92-95 | there is one `file.slice(start, end)` per chunk |
| `ChunkPlanner.SlicesPrefix` | my-app/src/app/home/page.tsx:93-95 | the first k slices, concatenated, are the first min(k·2^30, size) bytes of the file |
| `ChunkPlanner.SlicesReassemble` | my-app/src/app/home/page.tsx:93-95 | concatenating all slices in index order gives back the file exactly |
| `HomePage.FolderField` | my-app/src/app/home/page.tsx:103 | `parentFolderId \|\| 'root'`: the root folder (null) and an empty id are sent as "root", and any other id is sent unchanged |
| `HomePage.PlanRequests` | my-app/src/app/home/page.tsx:92-103 | the requests a run would send when every chunk succeeds, one per chunk |
| `HomePage.PlanFields` | my-app/src/app/home/page.tsx:97-103 | request i carries the file's name, the session id, the folder field, a chunk of 1 to 2^30 bytes, an index that parses back to i, and a total that parses back to the chunk count |
| `HomePage.PlanReassembles` | my-app/src/app/home/page.tsx:93-98 | the chunks of the requests, concatenated in order, are the file |
| `HomePage.Progress` | my-app/src/app/home/page.tsx:117 | `Math.round(uploaded / total * 100)`, computed exactly: the integer p with 2·total·p ≤ 200·uploaded + total < 2·total·(p+1), the nearest integer with halves rounded up. When 100·uploaded/total is exactly a half, this can be one more than the browser's floating-point result |
| `HomePage.ProgressBounds` | my-app/src/app/home/page.tsx:116-118 | progress lies within 0..100, is 0 before any chunk and is 100 after the last |
| `HomePage.ProgressMonotone` | my-app/src/app/home/page.tsx:116-118 | more uploaded chunks never give a lower progress |
| `HomePage.SplitFileAndUpload` | my-app/src/app/home/page.tsx:84-127 | the loop sends the planned requests in order up to and including the first rejected one. The counter equals the number of chunks accepted before it. The progress log is 0 followed by one value per success, Progress(j, total). The outcome is "all uploaded" exactly when no chunk was rejected |
| `HomePage.SentRequestsInOrder` | my-app/src/app/home/page.tsx:92-103 | the j-th request sent carries index j, the session id and the chunk count, so indexes strictly increase under one session and one total |
| `HomePage.SentRequestsVerdicts` | my-app/src/app/home/page.tsx:111-126 | after an abort at chunk k, chunks 0..k-1 were accepted, chunk k was rejected and nothing after it was sent. A complete run sent every chunk and every one was accepted |
| `HomePage.ProgressLogMonotone` | my-app/src/app/home/page.tsx:90-118 | the progress shown never goes down, stays within 0..100, and ends at 100 after a complete run of a non-empty file |
| `HomePage.SplitSpecDeterministic` | my-app/src/app/home/page.tsx:84-127 | a run is determined by the file, the folder, the session id and the server's verdicts |
| `HomePage.PathFor` | my-app/src/app/home/page.tsx:146 | a file takes the chunked path exactly when it has three or more chunks, which is exactly size > 2·1024³ |
| `HomePage.ChunkedHasThreeChunks` | my-app/src/app/home/page.tsx:146-148 | a file on the chunked path (over 2·1024³ bytes) has at least three chunks |
| `HomePage.HandleUpload` | my-app/src/app/home/page.tsx:135-179 | an empty or missing selection yields "no file selected". Otherwise every file is attempted in order: files up to 2·1024³ bytes directly, with the folder field, and larger files by a chunked run that meets the loop's specification. The k-th file uses the k-th session id |
| `EndToEnd.DirectPathWithinLimit` | my-app/src/app/home/page.tsx:146-155 | a file the client sends directly is exactly one that passes `POST /api/upload`'s validation; the server refuses every file the client chunks with the size message |
| `EndToEnd.ChunkRequestsValidate` | my-app/src/app/api/upload-chunk/route.ts:11-20 | every chunk request of a run passes the chunk handler's validation exactly when the file name is non-empty, and the server reads back the chunk, name, session id, index i and the run's total |
| `EndToEnd.ChunkLabelEchoesIndex` | my-app/src/app/api/upload-chunk/route.ts:25 | the Telegram label of chunk i is the file name, "_chunk_" and the index text the client sent |
| `EndToEnd.FolderRoundTrip` | my-app/src/app/api/upload-chunk/route.ts:53 | the folder the chunk handler records is the client's current folder, except that a folder whose id is "" or "root" becomes the root |
| `UploadRoute.ValidateUpload` | my-app/src/app/api/upload/route.ts:13-23 | the upload passes exactly when the entry is a file of at most 2 GiB, and then yields its name and bytes. No entry or a text entry gives the "no file" message; an oversized file gives the size message |
| `UploadRoute.SizeLimitInclusive` | my-app/src/app/api/upload/route.ts:19-23 | a file passes the size check exactly when it has at most 2147483648 bytes |
| `UploadRoute.ExtractFileId` | my-app/src/app/api/upload/route.ts:52-60 | when the reply has a document, its `file_id` is used. Otherwise, with a non-empty photo list, an id is found exactly when the last photo has a non-empty `file_id`, and it is that id. An empty photo list throws, and a reply with neither has no id. A found id is never empty |
| `UploadRoute.UploadRecord` | my-app/src/app/api/upload/route.ts:67-73 | the new document stores the name, the byte count, the reply's message id and the file id, is not chunked, is dated now, has no folder (root), is not shared and has no chunk fields |
| `UploadRoute.UploadRecordShape` | my-app/src/app/api/upload/route.ts:67-73 | the new document is non-chunked, in the root folder, not shared and dated now. It has the input's size, the reply's message id and the extracted file id, and it passes validation exactly when the name is non-empty and the reply had a message id |
| `UploadRoute.Post` | my-app/src/app/api/upload/route.ts:6-88 | 400 without a Telegram call for no file, a text entry, or an oversized file (and 400 only then). 500 for a database failure, a rejected reply or a missing file id. Every other failure is a 500: an `ok` reply without `result`, an empty photo list and a refused save give the catch-all "Internal Server Error during upload". The store changes exactly on success, by one appended document, which the response echoes. Success whenever every step can succeed, in a model where the Telegram call always answers and `save` fails only on validation or an index |
| `UploadChunkRoute.ValidateChunk` | my-app/src/app/api/upload-chunk/route.ts:11-20 | validation succeeds exactly when the chunk is truthy, the name and session id are non-empty, and both numbers parse; it then returns them parsed |
| `UploadChunkRoute.ValidationIgnoresRange` | my-app/src/app/api/upload-chunk/route.ts:18 | any two integers pass validation as index and total: negative, zero, or an index past the total |
| `UploadChunkRoute.ChunkLabel` | my-app/src/app/api/upload-chunk/route.ts:25 | the label is the file name, then "_chunk_", then `${chunkIndex}`: a canonical decimal numeral, with a `-` for a negative index and no leading zero or trailing text, that parses back to the chunk index |
| `UploadChunkRoute.NormaliseFolder` | my-app/src/app/api/upload-chunk/route.ts:53 | an absent, empty or "root" folder id becomes null, and any other id is kept |
| `UploadChunkRoute.ChunkRecord` | my-app/src/app/api/upload-chunk/route.ts:44-54 | the chunk document is chunked and dated now, with size 0 and message id 0 and no `telegramFileId`. It copies the name, session id, index and total, takes the chunk's message id from the reply, has the normalised folder and is not shared |
| `UploadChunkRoute.ChunkRecordShape` | my-app/src/app/api/upload-chunk/route.ts:44-54 | the chunk document is chunked, with size 0 and message id 0. It copies the name, session id, index and total, takes the chunk's message id from the reply and sets no `telegramFileId`. The schema as written rejects it; the chunk-aware schema accepts it |
| `UploadChunkRoute.Post` | my-app/src/app/api/upload-chunk/route.ts:6-64 | 400 exactly when validation fails, and then nothing is sent. The chunk goes to Telegram under its label. A rejected reply gives 500 with the store unchanged. Every failure other than 400 is a 500: an `ok` reply without `result` and a refused save give the catch-all "Internal Server Error during chunk upload". Success means an acknowledged chunk and one appended chunk document. Under the schema as written every request fails; under the chunk-aware schema every acknowledged chunk with a fresh id is saved, with the same two exceptions not modelled as for `UploadRoute.Post` |
| `FileModel.NewFile` | my-app/src/models/file.ts:19-43 | `new File(doc)` stores every field the document gives as given, including a given `isChunked`, `uploadDate` or `isPublic` |
| `FileModel.NewFileDefaults` | my-app/src/models/file.ts:24-38 | a new document gets `isChunked` false, `uploadDate` now, `parentFolderId` null and `isPublic` false unless given, and keeps every field it is given, each named |
| `FileModel.RequiredFieldsChecked` | my-app/src/models/file.ts:20-23 | the `required` validators of `Conforms`: a missing or empty name, a missing size or message id, and (as written) a missing or empty `telegramFileId` are each refused. A document with all four is accepted, and the chunk-aware schema accepts a chunk document without `telegramFileId` |
| `FileModel.SchemasAgreeOffChunks` | my-app/src/models/file.ts:20-23 | the schema as written and the chunk-aware one agree on every non-chunked document, and the chunk-aware one accepts everything the other does |
| `FileModel.AppendKeepsIndexes` | my-app/src/models/file.ts:39-43 | appending a document with a fresh `_id` and an unused (or no) share token keeps both unique indexes |
| `FileModel.TokenlessRecordsAreUnique` | my-app/src/models/file.ts:39-43 | any number of documents without a share token satisfy the sparse index |
| `FileModel.DuplicateTokenViolatesIndex` | my-app/src/models/file.ts:39-43 | two documents with the same token break the index |
| `MetadataStore.Store.Save` | my-app/src/models/file.ts:19-44 | `save` appends the document exactly when it passes the schema's required checks and both indexes; otherwise the collection is unchanged. Validity is preserved |
| `FilesRoute.Unchunked` | my-app/src/app/api/files/route.ts:11 | a document is kept exactly when it is in the store and is not chunked |
| `FilesRoute.UnchunkedCounts` | my-app/src/app/api/files/route.ts:11 | the filter keeps each non-chunked document exactly as many times as the store holds it, and no chunked one |
| `FilesRoute.Insert` | my-app/src/app/api/files/route.ts:12 | inserting into a newest-first list keeps it newest first and adds exactly the new entry |
| `FilesRoute.SortNewestFirst` | my-app/src/app/api/files/route.ts:12 | the sorted list is ordered by upload date, newest first, and is a permutation of its input |
| `FilesRoute.ListFiles` | my-app/src/app/api/files/route.ts:11-13 | the listing is newest first and has one entry per non-chunked document |
| `FilesRoute.Get` | my-app/src/app/api/files/route.ts:6-20 | the answer is 500 "Failed to fetch files" exactly when the database fails, and otherwise the listing `ListFiles` of the store |
| `FilesRoute.ListingIsSortedPermutation` | my-app/src/app/api/files/route.ts:11-13 | the listing is a permutation of the four-field summaries of the non-chunked documents, newest first. With `FilesRoute.UnchunkedCounts`, each document appears as often as the store holds it |
| `FilesRoute.ListingMembership` | my-app/src/app/api/files/route.ts:11-13 | every listed entry is the summary of a non-chunked document in the store, and every non-chunked document is listed, so chunk fragments never are |
| `JsText.NatToString` | my-app/src/app/home/page.tsx:101-102 | `n.toString()` is a canonical decimal numeral: non-empty, digits only, no superfluous leading zero |
| `JsText.ParseInt` | my-app/src/app/api/upload-chunk/route.ts:14-15 | a missing field, and any text without a decimal digit, is NaN |
| `JsText.NatToStringShape` | my-app/src/app/home/page.tsx:101-102 | `i.toString()` is a non-empty string of decimal digits, with no leading zero, whose value is i |
| `JsText.ParseIntOfNatToString` | my-app/src/app/api/upload-chunk/route.ts:14-15 | `parseInt` reads back every numeral `toString` writes for a natural number |
| `JsText.ParseIntOfIntToString` | my-app/src/app/api/upload-chunk/route.ts:14-15 | `parseInt` reads back every numeral written for an integer, negative ones included |
| `JsText.ParseIntExamples` | my-app/src/app/api/upload-chunk/route.ts:14-15 | leading whitespace and a sign are honoured and trailing text is ignored (" \t-12abc" is -12, "3.9" is 3, and "0x1F" is 31) |

## Left out

- HTTP, multipart and JSON parsing are not modelled. The handlers receive the form already split into entries, and the Telegram reply already parsed. Malformed bodies, `request.formData()` failures, and a reply whose JSON cannot be read are not modelled.
- The Telegram call and the client's `fetch` are parameters (`telegram`, `accept`), with no network, no latency and no retries. The `details` field of the 500 responses, which echoes Telegram's error body, is not modelled.
- `UploadRoute.Post` and `UploadChunkRoute.Post`: a Telegram `fetch` that throws (a network error) is not modelled, because `telegram` always returns a reply. The source answers the catch-all 500 (my-app/src/app/api/upload/route.ts:33,84-87; my-app/src/app/api/upload-chunk/route.ts:27,60-62).
- `UploadRoute.Post` and `UploadChunkRoute.Post`: a `save` that throws for a reason other than validation or a unique index is not modelled. Examples are a connection lost after `connectToDatabase`, or a write error. The source then answers the catch-all 500 after Telegram already stored the blob. `MetadataStore.Store.Save` fails only when the document is not accepted. So the handlers' "succeeds whenever every step can" holds only for this model, not for every run of the source.
- `connectToDatabase`, the driver's `_id` generation and the clock are parameters (`connected`, `newId`, `now`). Concurrent requests are not modelled: each handler runs alone against the store.
- The random session id (`Date.now()` with `Math.random()`) is a parameter. The model assumes it is non-empty, as a decimal timestamp always is.
- The cast of `parentFolderId` to an ObjectId is not modelled. A folder id that is not a valid ObjectId makes the real `save` throw. The model stores the string unchanged.
- `HomePage.Progress`: exact round-half-up rather than IEEE-754 division, multiplication and `Math.round`. The two differ when 100·uploaded/total is exactly a half. Then the double product can fall just below the half. For example, 23 of 40 chunks shows 57 in the browser and 58 here, and 29 of 200 shows 14 against 15. The model is then one higher. Bounds, monotonicity and 100 after the last chunk hold for both.
- `JsText.ParseIntOfNatToString`: integers are unbounded. `parseInt` and `toString` lose precision beyond 2^53, and write numbers of 10^21 or more in exponent form. No file size or chunk count comes close.
- `FilesRoute.SortNewestFirst`: documents with equal upload dates keep their store order. The database does not specify an order for ties.
- `UploadRoute.SizeError`: the size in the message is the exact decimal `NatToString`, which agrees with JavaScript's `${}` below 10^21.
- React state, toasts, console logging, the refresh of the listing after an upload, clearing the file input, and the outcome of a direct upload on the page. `handleUpload` goes on to the next file whatever the response was.
- `formatFileSize`: it is floating-point display code.
- The folder, share, public-link and download routes, and the older single-file page `my-app/src/app/page.tsx`.
- Reassembling a chunked file on download: no such code is part of this model.

## Findings

| source | as written | input that shows it | evidently intended | confidence | as-written member | corrected member |
|---|---|---|---|---|---|---|
| my-app/src/models/file.ts:23 | `telegramFileId` is required of every document, but the chunk handler never sets it (my-app/src/app/api/upload-chunk/route.ts:44-54). So every save of a chunk document fails validation, and the handler answers 500 after Telegram already stored the chunk | any valid chunk request that Telegram acknowledges, e.g. name "a.bin", session "s", index "0", total "3" | chunk documents are located by `telegramMessageIdForChunk`, so `telegramFileId` is required only of non-chunked documents, and an acknowledged chunk is saved | not executed | `UploadChunkRoute.ChunkRecordShape` (the as-written schema `FileModel.Schema.AsWritten` rejects every chunk document), with `UploadChunkRoute.Post` ensuring that a store of that schema always answers failure | `UploadChunkRoute.Post`: under `FileModel.Schema.ChunkAware`, every acknowledged chunk with a fresh id is saved, and `FileModel.SchemasAgreeOffChunks` shows that the corrected schema changes nothing for non-chunked documents |
