# gcs-browser-upload, modelled in Dafny

This project models the two cooperating pieces of a browser uploader that sends a file to Google Cloud
Storage in chunks and can resume an interrupted upload.

**The chunk walker.** `FileProcessor` is modelled as the class `FileProcessing.FileProcessor` in
`file_processor.dfy`, with its lemmas in `walk_properties.dfy`.
- It cuts a byte file into `ceil(size / chunkSize)` chunks.
- It walks chunk indices from a start index. It stops at the first index equal to the chunk count or to
  the end index.
- For each index it computes the chunk's checksum and hands the chunk to a handler. A result of `false`
  stops the walk, and a thrown error aborts it.
- A `paused` flag and a list of waiters let `pause`/`unpause` hold the walk between two chunks.

**The upload session.** `Upload` is modelled as the class `UploadSession.Upload` in `upload.dfy`, with its
lemmas in `upload_properties.dfy`. It follows the resumable-upload handshake of Google Cloud Storage:
- a status probe `PUT` with `Content-Range: bytes */<size>`;
- a 308 reply whose `range` header says how many bytes the server holds;
- one `PUT` per chunk with `Content-Range: bytes <start>-<end>/<size>`. This is the header syntax of
  section 4.2 of RFC 7233.

The session stores a checksum per uploaded chunk. A later session re-checks the chunks it would skip and
resumes at the smaller of the local and the remote resume index. If any check fails, it starts over.

Modelling choices:
- **Walk as a function.** The walk `processIndex` is specified by the function `FileProcessing.Walk`. It
  is generic over a handler that threads a state and returns Continue, Stop or Fail.
- **The walk recurses.** The source walks by recursion (`await processIndex(index + 1)`), not by a loop.
  So `FileProcessor.Drive` and `Upload.RunFrom` are recursive methods proved equal to `Walk`.
- **Handlers.** `FileProcessor.Run` gets its handler results as a script.
- **Upload passes.** The passes of `Upload.start` use the session's own handlers, `uploadChunk` and
  `validateChunk`. These are modelled by the functions `UploadChunkStep` and `ValidateChunkStep` over
  what the session makes observable: the meta's checksums, the requests sent and the `onChunkUpload`
  reports.
- **Transport.** The transport is a parameter `net: nat -> Reply`. It gives the reply to the k-th request.
- **Pausing is sequential.** A walk that meets the `paused` flag at its check registers a waiter (a
  number) and returns `Suspended(index)` with a `Continuation`. `Unpause` invokes and clears the waiters.
  `FileProcessor.Resume` carries a released walk on from the index it waited at, without checking the flag
  again. This matches the `if` at src/FileProcessor.js:28.
- **Checksums are per chunk.** The checksum library is an uninterpreted function `md5`. `getChecksum`
  appends the chunk to the run's single accumulator and then calls `end()`. The library's `end()` returns
  the digest and resets the accumulator. So every checksum is the digest of its own chunk alone, not of
  the run so far.
- **The `range` header is never read.** A reply from the transport is the `XMLHttpRequest` object itself,
  and that object has no `headers` field. So the code as written always takes the `!res.headers` branch
  and resumes from remote index 0. The model keeps the headers as an optional input: `None` is what the
  code sees, and `Some(h)` is the `range` parse the code intends. `HeaderlessProbeResendsEverything`
  states the consequence: a resumed upload re-sends every chunk.

## Model

| member | source | states |
|---|---|---|
| Prelude.Min | src/Upload.js:68 | `Math.min`: the result is one of the two arguments and at most each |
| Prelude.Lookup | src/Upload.js:122 | `meta.getChecksum(index)`: Some exactly when the index is stored, and then the stored value |
| Decimal.NatToString | src/Upload.js:99 | a number's decimal rendering is non-empty, all digits, with no leading zero |
| Decimal.IntToString | src/Upload.js:99 | an integer's rendering is non-empty and starts with `-` exactly when it is negative |
| Decimal.IntToStringReadsBack | src/Upload.js:99 | the rendering of an integer is its decimal digits, after a `-` when it is negative, and they read back as its magnitude |
| Decimal.DigitsValueOfNatToString | src/Upload.js:148 | `parseInt` of a number's decimal rendering gives the number back |
| FileProcessing.TotalChunks | src/FileProcessor.js:14 | `Math.ceil(size / chunkSize)`: the chunks cover the size, one chunk fewer would not, and there are none exactly when the file is empty |
| FileProcessing.ChunkBytes | src/FileProcessor.js:32-33 | the slice for chunk i has length `min(c, size - i*c)` (0 past the end), and byte k is file byte `i*c + k` |
| FileProcessing.ChunkFor | src/FileProcessor.js:15-41 | the chunk handed over at index i carries index i, that slice of the file, the digest of exactly those bytes, and `singleChunk` exactly when the file has one chunk |
| FileProcessing.AtEnd | src/FileProcessor.js:24 | the walk's end test: the index equals the chunk count or the end index (a definition; `StopIndex` and `WalkEnds` state what it implies) |
| FileProcessing.StopIndex | src/FileProcessor.js:24-27 | the walk from an index stops at the first later index equal to the chunk count or the end index |
| FileProcessing.Walk | src/FileProcessor.js:23-47 | the specification of `processIndex`: end test first, then the pause check when it applies, then read, checksum and handler call; only Continue goes on to index + 1. A definition without a contract of its own; its properties are `WalkCalls`, `WalkKeeps`, `WalkFailsAt`, `ScriptCompletes`, `ScriptHaltsAt` and the step rules below |
| FileProcessing.StopIndexStep | src/FileProcessor.js:24-27 | step rule of `Walk`: taking one step short of the end leaves the stopping index unchanged |
| FileProcessing.WalkVisit | src/FileProcessor.js:32-46 | step rule of `Walk`: an index past the end test and the pause check is read and handed over; then Stop ends the walk, Fail aborts it, and Continue walks on from index + 1 with the pause check on |
| FileProcessing.WalkHolds | src/FileProcessor.js:24-30 | step rule of `Walk`: at the end index the walk completes with no call; a paused walk at its check waits at that index with no call |
| FileProcessing.ScriptDeliver | src/FileProcessor.js:41-46 | step rule of `Walk` for scripted handler results, appended to the calls made before |
| FileProcessing.Spark.Append | src/FileProcessor.js:78 | `spark.append` adds the chunk to the accumulated bytes |
| FileProcessing.Spark.End | src/FileProcessor.js:79 | `spark.end` returns the digest of the bytes since the last reset and resets |
| FileProcessing.GetChecksum | src/FileProcessor.js:77-81 | the checksum is the digest of what was pending plus the chunk, and the accumulator is left empty |
| FileProcessing.FileProcessor.constructor | src/FileProcessor.js:5-10 | a new processor is unpaused, with no waiters, for the given file and chunk size |
| FileProcessing.FileProcessor.Pause | src/FileProcessor.js:58-60 | `pause` sets the flag |
| FileProcessing.FileProcessor.Unpause | src/FileProcessor.js:62-66 | `unpause` clears the flag, invokes exactly the registered waiters in order, and empties the list; each waiter is invoked at most once ever |
| FileProcessing.FileProcessor.WaitForUnpause | src/FileProcessor.js:49-53 | a new waiter, never registered or invoked before, is appended to the list |
| FileProcessing.FileProcessor.Next | src/FileProcessor.js:24-38 | one index: finished at the end; a registered waiter when paused at its check; otherwise the chunk for that index with its checksum |
| FileProcessing.FileProcessor.Visit | src/FileProcessor.js:23-46 | one index of `processIndex` with the handler's scripted result, proved equal to the first step of `Walk` |
| FileProcessing.FileProcessor.Drive | src/FileProcessor.js:23-47 | `processIndex(index)` makes exactly the calls, handler results and ending of `Walk`; a waiter is registered only when the walk suspends |
| FileProcessing.FileProcessor.Run | src/FileProcessor.js:12-56 | `run(fn, startIndex, endIndex)` with a fresh accumulator is `Walk` from `startIndex`; a suspended run hands back a continuation holding its waiter and index |
| FileProcessing.FileProcessor.Resume | src/FileProcessor.js:28-30 | a walk whose waiter `unpause` invoked goes on at the index it waited at without re-checking the flag, as `Walk` says |
| WalkProperties.SingleChunkIff | src/FileProcessor.js:14-15 | `singleChunk` holds exactly when `0 < size <= chunkSize` |
| WalkProperties.ChunkLengths | src/FileProcessor.js:32-33 | every chunk but the last is full, the last holds the remainder, and none is empty |
| WalkProperties.ThreeChunks | src/FileProcessor.js:14-33 | 600000 bytes in chunks of 262144 make 3 chunks of 262144, 262144 and 75712 bytes |
| WalkProperties.ChunkExtends | src/FileProcessor.js:32-33 | chunk i continues the file exactly where chunk i-1 ended |
| WalkProperties.JoinedIsPrefix | src/FileProcessor.js:32-33 | the first n chunks joined are the file's first `min(n*c, size)` bytes |
| WalkProperties.ChunksTileFile | src/FileProcessor.js:14-33 | all chunks joined in index order are the whole file |
| WalkProperties.WalkIndices | src/FileProcessor.js:32-45 | the j-th call of a walk from `start` is the chunk for index `start + j`, so the indices are consecutive and increasing |
| WalkProperties.WalkEnds | src/FileProcessor.js:24-46 | a walk never passes its stopping index; it completes exactly at it; it waits only when paused, below the stop; a Stop or Fail comes after at least one call |
| WalkProperties.WalkCalls | src/FileProcessor.js:23-47 | the two lemmas above together |
| WalkProperties.ChunkOfIndex | src/FileProcessor.js:32-38 | every call of a walk is the chunk for its own index |
| WalkProperties.ChecksumsAgreeAcrossRuns | src/FileProcessor.js:16-38 | two runs over the same file, with any handlers and bounds, hand over the same chunk and checksum at the same index |
| WalkProperties.ScriptCounts | src/FileProcessor.js:41 | the handler is called once per chunk handed over |
| WalkProperties.ScriptCompletes | src/FileProcessor.js:24-45 | with no early stop, an unpaused walk calls the handler once for every index from the start up to its stop, and completes |
| WalkProperties.ScriptHaltsAt | src/FileProcessor.js:41-46 | if the first m results continue and the next one is `false` or a throw, the walk makes exactly m + 1 calls and ends with that result |
| WalkProperties.UnrestrictedRun | src/FileProcessor.js:12-55 | `run(fn)` calls the handler on indices 0 to `ceil(size/c) - 1` in order; `run(fn, 0, 0)` makes no call |
| WalkProperties.WalkKeeps | src/FileProcessor.js:23-47 | an invariant that every continuing handler call keeps holds for the final state of a completed walk |
| WalkProperties.WalkFailsAt | src/FileProcessor.js:23-47 | if every handler call before index m continues and the call at m throws e, an unpaused walk fails with e, in a state the throwing call left |
| WalkProperties.PausedWalkWaits | src/FileProcessor.js:28-30 | a paused walk that has not reached its end waits at its first index with no call |
| WalkProperties.ReleasedWalkTakesOneIndex | src/FileProcessor.js:28-46 | a released walk handles its index even while paused again, then waits at the next index's check |
| WalkProperties.PauseUnpauseThenRun | src/FileProcessor.js:58-66 | pause then unpause, then `run`, walks as if never paused |
| WalkProperties.PauseCheckIsAnIf | src/FileProcessor.js:28-30 | paused run: waits at 0; unpause invokes one waiter; a pause before the resume does not stop chunk 0; the walk then waits at 1 |
| UploadSession.CheckResponseStatus | src/Upload.js:185-211 | returns normally exactly when the status is allowed; otherwise 308 gives UploadIncomplete, 200/201 FileAlreadyUploaded(id, url), 404 UrlNotFound(url), 500/502/503/504 UploadFailed(status), and anything else UnknownResponse |
| UploadSession.ChunkSizeRejectedAsWritten | src/Upload.js:34-36 | the chunk-size test exactly as the code writes it (a definition; `ChunkSizeCheckAdmitsNonPositive` and `ChunkSizeCheckAgreesOnPositive` compare it with the corrected test) |
| UploadSession.CheckOptions | src/Upload.js:34-40 | the chunk size is checked first, then id, url and file are required; accepted options have a positive chunk size that is a multiple of 262144 unless small chunks are allowed |
| UploadSession.ContentRange | src/Upload.js:99 | the header value `bytes <start>-<end>/<total>` (a definition; `ChunkRangesTile` and `UploadSixHundredThousandBytes` state the ranges it yields) |
| UploadSession.ChunkHeaders | src/Upload.js:95-100 | `Content-Type` is always set; `Content-Range` is `bytes start-end/total` and is present exactly when the file has more than one chunk; nothing else is set |
| UploadSession.ChunkRequest | src/Upload.js:91-108 | the `PUT` of one chunk: the session url, the chunk's bytes, and the headers `ChunkHeaders` gives for `index * chunkSize` to `index * chunkSize + byteLength - 1` (a definition; `ChunkRangesTile` and `SingleChunkHasNoRange` state its ranges) |
| UploadSession.ProbeRequest | src/Upload.js:131-135 | the status probe: an empty `PUT` to the session url with `Content-Range: bytes */<size>` (a definition) |
| UploadSession.DigitRun | src/Upload.js:147 | the digits read backwards from a position stop at a non-digit or at the start |
| UploadSession.DigitSuffixLength | src/Upload.js:147 | the longest run of digits that ends the header |
| UploadSession.RangeEnd | src/Upload.js:147-148 | `parseInt(header.match(/(\d+?)-(\d+?)$/)[2])`: the digits that end the header when a digit and `-` precede them, otherwise no match (a definition; `RangeEndReadsLastNumber` and `DigitSuffixAfterNonDigit` characterise it) |
| UploadSession.RemoteIndex | src/Upload.js:142-149 | the remote resume index: 0 when the reply has no headers, `floor((end + 1) / chunkSize)` for a well-formed `range`, none otherwise (a definition; `RemoteIndexCountsWholeChunks`, `RemoteIndexOfWholeChunks` and `HeaderlessProbeResendsEverything` characterise it) |
| UploadSession.RejectionOf | src/Upload.js:109 | the error a rejected reply throws: TransportFailed exactly for a network error, and otherwise the error `checkResponseStatus` gives for the status |
| UploadSession.UploadChunkStep | src/Upload.js:89-119 | the chunk is always sent; only an accepted status (200, 201, 308) stores its checksum at its index and reports `end + 1` bytes uploaded; otherwise it throws the reply's `RejectionOf` error with meta and reports unchanged |
| UploadSession.ValidateChunkStep | src/Upload.js:121-128 | continues, touching nothing, exactly when the stored checksum equals the new one; otherwise resets the meta and throws DifferentChunk(index, stored, new) |
| UploadSession.ProbeStep | src/Upload.js:130-150 | the probe is always sent; it yields a remote index exactly when the reply is a 308 with no headers or a well-formed `range`, and then it is the index `RemoteIndex` reads; a reply other than 308 throws its `RejectionOf` error, and a 308 with a malformed `range` throws MalformedRange |
| UploadSession.Pass | src/Upload.js:74-86 | `processor.run(fn, start, endIndex)` with `fn` the session's handler: `Walk` over the file with that handler (a definition; `AcceptedPass`, `RejectedPass` and `ValidationOutcome` state what it does) |
| UploadSession.UploadPass | src/Upload.js:81-83 | `processor.run(uploadChunk, start)` (a definition) |
| UploadSession.ValidationPass | src/Upload.js:74-75 | `processor.run(validateChunk, 0, resumeIndex)` (a definition; `ValidationOutcome` states its outcome) |
| UploadSession.Finish | src/Upload.js:163-165 | the end of `start()`: it resolves exactly when the walk completed or was stopped, and then only the meta is cleared; it is pending exactly when the walk waits; a failed walk rejects with the walk's own error; whatever does not resolve leaves everything as the walk left it |
| UploadSession.AfterValidation | src/Upload.js:73-86 | after the check: an error restarts the upload at 0, a wait stays pending, otherwise the upload goes on from the resume index (a definition; `ResumeSkipsValidatedChunks` and `ResumeRestartsOnMismatch` state its effect) |
| UploadSession.ResumeSpec | src/Upload.js:64-87 | `resumeUpload`: probe, `min(local, remote)`, check below it, then `AfterValidation` (a definition; the resume lemmas state its effect) |
| UploadSession.StartSpec | src/Upload.js:152-165 | `start()`: a finished session rejects, a resumable meta for a file of this size resumes, otherwise the upload runs from 0 (a definition; `StartFromScratch`, `StartRejectedMidway`, `ResolvedStartClearsMeta`, `StartTwice` and `StartAfterCancel` state its effect) |
| UploadSession.FileMeta.constructor | src/Upload.js:49 | the meta starts with the stored file size and checksums |
| UploadSession.FileMeta.AddChecksum | src/Upload.js:111 | stores the checksum at the index and keeps every other entry |
| UploadSession.FileMeta.Reset | src/Upload.js:125 | clears every stored checksum |
| UploadSession.NewUpload | src/Upload.js:21-51 | an absent chunk size is 262144 and an absent content type `text/plain`; `new Upload` throws exactly the error the option checks give, so with the default size it succeeds exactly when id and url are given; otherwise the session is unfinished, holds these options and the stored meta |
| UploadSession.Upload.constructor | src/Upload.js:48-50 | an accepted session is unfinished, with an unpaused processor over the same file and chunk size |
| UploadSession.Upload.UploadChunk | src/Upload.js:89-119 | changes the meta, the requests and the reports exactly as `UploadChunkStep` says |
| UploadSession.Upload.ValidateChunk | src/Upload.js:121-128 | changes the meta exactly as `ValidateChunkStep` says |
| UploadSession.Upload.GetRemoteResumeIndex | src/Upload.js:130-150 | sends the probe and reads the remote index as `ProbeStep` says |
| UploadSession.Upload.Handle | src/Upload.js:74-86 | the handler a pass calls is `validateChunk` for the validation pass and `uploadChunk` otherwise |
| UploadSession.Upload.Visit | src/FileProcessor.js:23-46 | one index of a pass with the session's handler: done with the walk's state and ending, or equal to the walk from the next index |
| UploadSession.Upload.RunFrom | src/FileProcessor.js:23-47 | a pass from an index leaves the state and ending of `Walk` with the session's handler; a waiting pass has added exactly the processor's next waiter, and any other leaves the waiters and the waiter counter untouched |
| UploadSession.Upload.RunPass | src/Upload.js:74-86 | `processor.run(handler, start, endIndex)` inside `start()` is the pass the specification function gives, with the waiters changed as for `RunFrom` |
| UploadSession.Upload.Complete | src/Upload.js:163-165 | a completed walk resets the meta and sets `finished`; an error rejects and leaves `finished` alone; a waiting walk stays pending |
| UploadSession.Upload.AfterCheck | src/Upload.js:73-86 | an error while checking restarts the upload at chunk 0; a check that passed goes on from the resume index; a pass that waits adds exactly the processor's next waiter, and otherwise the waiters are untouched |
| UploadSession.Upload.ResumeUpload | src/Upload.js:64-87 | probe, `min(local, remote)`, check below it, then go on or restart, as `ResumeSpec` says; a pending resume has added exactly the processor's next waiter, and any other leaves the waiters untouched |
| UploadSession.Upload.Start | src/Upload.js:152-165 | a finished session rejects with UploadAlreadyFinished; a resumable meta for a file of this size resumes; otherwise it uploads from 0; `finished` is set only when the upload resolves; a pending start has added exactly the processor's next waiter, and any other start leaves the waiters untouched |
| UploadSession.Upload.Pause | src/Upload.js:168-171 | pauses the processor |
| UploadSession.Upload.Unpause | src/Upload.js:173-176 | unpauses the processor and releases exactly its registered waiters, in order, adding them to those ever released |
| UploadSession.Upload.Cancel | src/Upload.js:178-182 | pauses the processor and clears the meta; `finished` is untouched |
| UploadProperties.ChunkSizeCheckAdmitsNonPositive | src/Upload.js:34-36 | the check as written accepts -262144 without small chunks and 0 with them; the corrected check rejects both |
| UploadProperties.ChunkSizeCheckAgreesOnPositive | src/Upload.js:34-36 | for positive chunk sizes, the check as written and the corrected check agree |
| UploadProperties.DigitSuffixAfterNonDigit | src/Upload.js:147 | the digits that end a header are exactly the digits written after its last non-digit |
| UploadProperties.RangeEndReadsLastNumber | src/Upload.js:147-148 | from any header ending in `a-b`, the parse reads `b` |
| UploadProperties.RemoteIndexCountsWholeChunks | src/Upload.js:145-149 | the remote index q from `range: bytes=0-b` satisfies `q*c <= b + 1 < (q+1)*c`: the whole chunks received |
| UploadProperties.RemoteIndexOfWholeChunks | src/Upload.js:145-149 | when the server holds exactly k whole chunks, the remote index is k |
| UploadProperties.ChunkRangesTile | src/Upload.js:91-100 | in a multi-chunk file, chunk i is sent with range `i*c` to `(i+1)*c - 1`, or to `size - 1` for the last chunk |
| UploadProperties.SingleChunkHasNoRange | src/Upload.js:98-100 | a file of one chunk is sent whole, with no `Content-Range` |
| UploadProperties.Requests | src/Upload.js:108 | the chunk `PUT`s for indices `start` to `stop - 1`, in order |
| UploadProperties.StoredStep | src/Upload.js:111 | storing chunk i's checksum extends the stored record from chunks below i to chunks below i + 1 |
| UploadProperties.UploadStepKeeps | src/Upload.js:108-118 | an accepted chunk `PUT` keeps the record of what the upload pass has sent, stored and reported |
| UploadProperties.UploadStepsKeep | src/Upload.js:108-118 | the same for every index of the pass, when every reply is accepted |
| UploadProperties.UploadStepsKeepTill | src/Upload.js:108-118 | the same for every index of the pass below m, when the replies to those requests are accepted |
| UploadProperties.AcceptedPass | src/Upload.js:81-119 | when every reply is accepted, an upload pass completes having sent each chunk once in order, stored each checksum and reported each chunk |
| UploadProperties.UploadedReportsWholeFile | src/Upload.js:113-118 | the last report of a completed pass says the whole file is uploaded |
| UploadProperties.RejectedAtOf | src/Upload.js:108-109 | a world that differs from the one reached at chunk m only by m's request is where a pass rejected at m stops |
| UploadProperties.UploadStepRejects | src/Upload.js:108-111 | a rejected chunk `PUT` throws the reply's error, having sent the request and stored or reported nothing for that chunk |
| UploadProperties.UploadStepRejectsAt | src/Upload.js:108-111 | the same for every world a pass can reach chunk m in |
| UploadProperties.RejectedPass | src/Upload.js:81-119 | when the replies accept chunks `start .. m-1` and reject chunk m, the pass fails with that reply's error, having sent the requests up to m, reported the chunks before m and stored their checksums |
| UploadProperties.ValidationOutcome | src/Upload.js:74-128 | the validation pass completes, leaving everything unchanged, exactly when every checksum below the resume index matches; otherwise it throws DifferentChunk for the first mismatch and clears the meta |
| UploadProperties.StartFromScratch | src/Upload.js:156-165 | a session that is not resumable sends every chunk from 0, resolves and clears the meta |
| UploadProperties.StartRejectedMidway | src/Upload.js:152-166 | an upload from scratch whose (m+1)-th chunk `PUT` is rejected rejects `start` with that reply's error, keeps the checksums of the m chunks before it in the meta; with `Upload.Start`'s contract, `finished` is then not set |
| UploadProperties.ResumeSkipsValidatedChunks | src/Upload.js:64-87 | when the chunks below `min(local, remote)` all match, `start` sends the probe and then only the chunks from that index on |
| UploadProperties.ResumeRestartsOnMismatch | src/Upload.js:73-83 | one mismatching chunk below the resume index makes `start` send the probe and then every chunk from 0 |
| UploadProperties.HeaderlessProbeResendsEverything | src/Upload.js:142-144 | a 308 with no headers gives remote index 0, so a resumed upload re-sends every chunk |
| UploadProperties.ResolvedStartClearsMeta | src/Upload.js:163-165 | whenever `start` resolves, the meta is cleared |
| UploadProperties.StartTwice | src/Upload.js:152-165 | a session that completed rejects a second `start` with UploadAlreadyFinished and sends nothing more |
| UploadProperties.UploadSixHundredThousandBytes | src/Upload.js:89-100 | 600000 bytes go out as 3 `PUT`s, the last with range `bytes 524288-599999/600000` |
| UploadProperties.StartAfterCancel | src/Upload.js:178-182 | after `cancel`, `start` of a non-empty file sends nothing, stays pending, leaves `finished` false and the meta empty |

## Left out

- The progress callback (`_onUploadProgress`, src/Upload.js:55-62) is left out: it is a floating-point `Math.round` estimate with no contract.
- `safePut` (XMLHttpRequest) and `getData` (FileReader) are browser I/O. The transport is the parameter `net`: a status, optional headers, or `NetworkError` for `onerror`. A failed file read is not modelled.
- The internals of the MD5 library are not modelled: `md5` is any function of the bytes.
- src/FileMeta.js is modelled only as `UploadSession.FileMeta`: the stored file size and a checksum map, with `addChecksum`, `getChecksum` and `reset`. Its persistence in `localStorage` is left out, and `getResumeIndex()` and `isResumable()` are inputs to `Start`.
- The error classes (src/errors.js) are not part of this model. They are the constructors of `Errors.UploadError`.
- `Errors.UploadError.UnknownResponse` holds the status, not the whole response object.
- `Errors.UploadError.MalformedRange` stands for the `TypeError` the code throws when a `range` header is missing or does not match its pattern.
- Logging (`console.log`, `console.time`) is left out. So are the `window.localStorage` default and the build configuration.
- The `onChunkUpload` callback is recorded as a list of reports. Callbacks that throw are not modelled.
- Options: an absent `id` or `url` (any falsy value) is the empty string, and the file is always present.
- `parseInt` is modelled exactly. JavaScript numbers lose precision above 2^53, and the model does not.
- Concurrency and promise scheduling are not modelled. A waiting walk returns, and `FileProcessor.Resume` continues it.
- UploadSession.Upload.Start: when a pass waits for `unpause`, the session settles `Pending`. Continuing `start()` from there is modelled only at the `FileProcessor` level.
- UploadSession.Upload.Start: when the resume index exceeds the chunk count, the source's end test is never met, and the walk goes on until the handler stops or throws. Past the end the handler gets empty chunks, and `uploadChunk` stops at the first empty-bodied `PUT` whose status is not 200, 201 or 308. The model settles `Unbounded` instead.
- FileProcessing.FileProcessor.Run: requires the start index to be at most the chunk count or the end index. From any other start the end test, an equality, is never met, and the walk goes on past the end with empty chunks until the handler stops or throws.
- FileProcessing.Walk / FileProcessing.FileProcessor.Drive: a pause issued while a walk is running, for instance during a handler call, is not modelled. The flag is read as constant for one walk, and only `Resume` continues a waiting walk.
- UploadSession.CheckOptions: the chunk size is an integer, and an accepted one is kept as the `nat` `Options.chunkSize`. With `allowSmallChunks` the source accepts any JavaScript number, including fractions (src/Upload.js:34), and fractional chunk sizes are not modelled.
- FileProcessing.FileProcessor.Run: the handler's results are a script given in advance, not a function of the chunk. The session's real handlers run through `Upload.RunFrom`.
- UploadSession.NewUpload: an option is either absent, and takes its default, or given. An option passed explicitly as `undefined` replaces its default in the source, because the spread copies it; that case is not modelled.
- UploadSession.Upload.constructor: requires accepted options. The throwing path is `UploadSession.NewUpload`.

## Findings

| source | as written | input that shows it | evidently intended | confidence | as-written member | corrected member |
|---|---|---|---|---|---|---|
| src/Upload.js:34-36 | the chunk size is rejected only when `(chunkSize % 262144 !== 0 \|\| chunkSize === 0) && !allowSmallChunks` (modelled by `UploadSession.ChunkSizeRejectedAsWritten`) | `chunkSize = -262144` with small chunks disallowed (the remainder is `-0`, which equals `0`); `chunkSize = 0` with small chunks allowed | every chunk size that is not positive is rejected (`UploadSession.ChunkSizeRejected`, used by the constructor's checks); a size of 0 makes the chunk count infinite | not executed | UploadProperties.ChunkSizeCheckAdmitsNonPositive | UploadSession.CheckOptions |
