/** The upload session of src/Upload.js, following the resumable-upload handshake of Google
    Cloud Storage: a status probe `PUT` with a `Content-Range` of `bytes *` over the file size, a 308 reply
    whose `range` header tells how many bytes the server holds, and one `PUT` per chunk
    with `Content-Range: bytes <start>-<end>/<size>` (the header syntax of section 4.2 of
    RFC 7233). A session keeps a checksum per uploaded chunk, so that a later session can
    check the bytes it would skip and resume where both sides agree. */
module UploadSession {
  import opened Prelude
  import opened Errors
  import opened Decimal
  import opened FileProcessing

  /** The granularity chunk sizes must respect unless small chunks are allowed. */
  const MIN_CHUNK_SIZE: nat := 262144

  /** The content type a session sends when its options name none. */
  const DEFAULT_CONTENT_TYPE: string := "text/plain"

  /** The options a session keeps once the constructor has accepted them. */
  datatype Options = Options(id: string, url: string, file: seq<Byte>, chunkSize: nat, contentType: string)

  type Headers = map<string, string>

  /** A `PUT` the session hands to the transport: target, body (`null` for the probe), headers. */
  datatype Request = Request(url: string, body: Option<seq<Byte>>, headers: Headers)

  /** What the transport's promise settles to: the finished request, with its status and, when
      the transport exposes them, its response headers; or a rejection. */
  datatype Reply = Reply(status: int, headers: Option<Headers>) | NetworkError

  /** The transport's answers: the reply to the `k`-th request the session sends. */
  type Network = nat -> Reply

  /** The argument of `onChunkUpload`. */
  datatype ChunkReport = ChunkReport(totalBytes: nat, uploadedBytes: int, chunkIndex: nat, chunkLength: nat)

  /** The statuses a chunk `PUT` accepts. */
  const ChunkStatuses: seq<int> := [200, 201, 308]

  /** The statuses the status probe accepts. */
  const ProbeStatuses: seq<int> := [308]

  /** `checkResponseStatus`: nothing when the status is allowed, otherwise the error it throws. */
  function CheckResponseStatus(status: int, allowed: seq<int>, id: string, url: string): (r: Option<UploadError>)
    ensures r.None? <==> status in allowed
    ensures status !in allowed && status == 308 ==> r == Some(UploadIncomplete)
    ensures status !in allowed && (status == 200 || status == 201) ==> r == Some(FileAlreadyUploaded(id, url))
    ensures status !in allowed && status == 404 ==> r == Some(UrlNotFound(url))
    ensures status !in allowed && (status == 500 || status == 502 || status == 503 || status == 504)
            ==> r == Some(UploadFailed(status))
    ensures status !in allowed && status !in {200, 201, 308, 404, 500, 502, 503, 504}
            ==> r == Some(UnknownResponse(status))
  {
    if status in allowed then None
    else if status == 308 then Some(UploadIncomplete)
    else if status == 200 || status == 201 then Some(FileAlreadyUploaded(id, url))
    else if status == 404 then Some(UrlNotFound(url))
    else if status == 500 || status == 502 || status == 503 || status == 504 then Some(UploadFailed(status))
    else Some(UnknownResponse(status))
  }

  /** The constructor's chunk-size test as the code writes it:
      `(chunkSize % 262144 !== 0 || chunkSize === 0) && !allowSmallChunks`. */
  predicate ChunkSizeRejectedAsWritten(chunkSize: int, allowSmallChunks: bool)
  {
    (chunkSize % MIN_CHUNK_SIZE != 0 || chunkSize == 0) && !allowSmallChunks
  }

  /** The test as intended: a chunk size must be positive, and a multiple of 262144 unless
      small chunks are allowed. */
  predicate ChunkSizeRejected(chunkSize: int, allowSmallChunks: bool)
  {
    chunkSize <= 0 || (chunkSize % MIN_CHUNK_SIZE != 0 && !allowSmallChunks)
  }

  /** The constructor's checks, in order: the chunk size first, then the presence of the id,
      the url and the file (`null`, `undefined` and the empty string are all absent here). */
  function CheckOptions(chunkSize: int, allowSmallChunks: bool, id: string, url: string, hasFile: bool): (r: Option<UploadError>)
    ensures r.None? <==> !ChunkSizeRejected(chunkSize, allowSmallChunks) && id != "" && url != "" && hasFile
    ensures ChunkSizeRejected(chunkSize, allowSmallChunks) ==> r == Some(InvalidChunkSize(chunkSize))
    ensures r.Some? && !ChunkSizeRejected(chunkSize, allowSmallChunks) ==> r == Some(MissingOptions)
    ensures r.None? ==> chunkSize > 0 && (allowSmallChunks || chunkSize % MIN_CHUNK_SIZE == 0)
  {
    if ChunkSizeRejected(chunkSize, allowSmallChunks) then Some(InvalidChunkSize(chunkSize))
    else if id == "" || url == "" || !hasFile then Some(MissingOptions)
    else None
  }

  /** `bytes <start>-<end>/<total>`. */
  function ContentRange(start: int, end: int, total: nat): string
  {
    "bytes " + IntToString(start) + "-" + IntToString(end) + "/" + NatToString(total)
  }

  /** The headers of a chunk `PUT`: the content type always, the byte range unless the whole
      file is one chunk. */
  function ChunkHeaders(contentType: string, singleChunk: bool, start: int, end: int, total: nat): (h: Headers)
    ensures "Content-Type" in h && h["Content-Type"] == contentType
    ensures "Content-Range" in h <==> !singleChunk
    ensures !singleChunk ==> h["Content-Range"] == ContentRange(start, end, total)
    ensures h.Keys <= {"Content-Type", "Content-Range"}
  {
    var base := map["Content-Type" := contentType];
    if singleChunk then base else base["Content-Range" := ContentRange(start, end, total)]
  }

  /** The `PUT` that uploads `chunk`: its first byte is `index * chunkSize`, its last
      `start + byteLength - 1`. */
  function ChunkRequest(opts: Options, chunk: Chunk): Request
  {
    var start := chunk.index * opts.chunkSize;
    var end := start + |chunk.bytes| - 1;
    Request(opts.url, Some(chunk.bytes), ChunkHeaders(opts.contentType, chunk.singleChunk, start, end, |opts.file|))
  }

  /** The status probe: an empty `PUT` whose `Content-Range` is `bytes *`, a slash and the file size. */
  function ProbeRequest(opts: Options): Request
  {
    Request(opts.url, None, map["Content-Range" := "bytes */" + NatToString(|opts.file|)])
  }

  /** The length of the run of decimal digits that ends at position `end` of `s`. */
  function DigitRun(s: string, end: nat): (k: nat)
    requires end <= |s|
    ensures k <= end
    ensures forall i :: end - k <= i < end ==> IsDigit(s[i])
    ensures k < end ==> !IsDigit(s[end - k - 1])
  {
    if end == 0 || !IsDigit(s[end - 1]) then 0 else DigitRun(s, end - 1) + 1
  }

  /** The length of the run of decimal digits that ends `s`. */
  function DigitSuffixLength(s: string): (k: nat)
    ensures k <= |s|
    ensures AllDigits(s[|s| - k..])
    ensures k < |s| ==> !IsDigit(s[|s| - k - 1])
  {
    var k := DigitRun(s, |s|);
    var run := s[|s| - k..];
    assert forall i :: 0 <= i < |run| ==> run[i] == s[|s| - k + i];
    k
  }

  /** The number `range.match(/(\d+?)-(\d+?)$/)[2]` reads: the digits that end the header,
      when a `-` and at least one digit come right before them; None when the pattern does
      not match (the code then reads a field of `null`). */
  function RangeEnd(range: string): Option<nat>
  {
    var k := DigitSuffixLength(range);
    var p := |range| - k;
    if k > 0 && p >= 2 && range[p - 1] == '-' && IsDigit(range[p - 2])
    then Some(DigitsValue(range[p..]))
    else None
  }

  /** The remote resume index a 308 reply gives: 0 without response headers; otherwise the
      byte count `end + 1` of its `range` header divided by the chunk size, rounded down.
      None when the header is missing or malformed (the code throws a TypeError). */
  function RemoteIndex(headers: Option<Headers>, chunkSize: nat): Option<nat>
    requires chunkSize > 0
  {
    match headers
    case None => Some(0)
    case Some(h) =>
      if "range" in h && RangeEnd(h["range"]).Some?
      then Some((RangeEnd(h["range"]).value + 1) / chunkSize)
      else None
  }

  /** What a session has done that others can observe: the checksums its meta holds, the
      requests it has sent and the chunk reports it has made. */
  datatype World = World(checksums: map<nat, Checksum>, sent: seq<Request>, reports: seq<ChunkReport>)

  predicate Accepted(reply: Reply)
  {
    reply.Reply? && reply.status in ChunkStatuses
  }

  /** The error a `PUT` fails with when its reply is not allowed: the transport's rejection
      (`onerror`), or what `checkResponseStatus` throws for a status outside `allowed`. */
  function RejectionOf(reply: Reply, allowed: seq<int>, id: string, url: string): (e: UploadError)
    requires !(reply.Reply? && reply.status in allowed)
    ensures e == TransportFailed <==> reply.NetworkError?
    ensures reply.Reply? ==> CheckResponseStatus(reply.status, allowed, id, url) == Some(e)
  {
    match reply
    case NetworkError => TransportFailed
    case Reply(status, _) => CheckResponseStatus(status, allowed, id, url).value
  }

  /** `uploadChunk`: send the chunk; only when the reply's status is accepted, store its
      checksum at its index and report `end + 1` bytes uploaded. */
  function UploadChunkStep(opts: Options, net: Network, w: World, chunk: Chunk): (r: (World, Outcome))
    ensures r.0.sent == w.sent + [ChunkRequest(opts, chunk)]
    ensures r.1 == Continue <==> Accepted(net(|w.sent|))
    ensures r.1 == Continue ==> r.0.checksums == w.checksums[chunk.index := chunk.checksum]
    ensures r.1 == Continue ==> r.0.reports == w.reports + [ChunkReport(|opts.file|, chunk.index * opts.chunkSize + |chunk.bytes|, chunk.index, |chunk.bytes|)]
    ensures r.1 != Continue ==> r.1 == Fail(RejectionOf(net(|w.sent|), ChunkStatuses, opts.id, opts.url))
    ensures r.1 != Continue ==> r.0.checksums == w.checksums && r.0.reports == w.reports
  {
    var sent := w.sent + [ChunkRequest(opts, chunk)];
    match net(|w.sent|)
    case NetworkError => (w.(sent := sent), Fail(TransportFailed))
    case Reply(status, _) =>
      match CheckResponseStatus(status, ChunkStatuses, opts.id, opts.url)
      case Some(e) => (w.(sent := sent), Fail(e))
      case None =>
        var end := chunk.index * opts.chunkSize + |chunk.bytes| - 1;
        var report := ChunkReport(|opts.file|, end + 1, chunk.index, |chunk.bytes|);
        (World(w.checksums[chunk.index := chunk.checksum], sent, w.reports + [report]), Continue)
  }

  /** `validateChunk`: the recomputed checksum must equal the stored one; otherwise the meta
      is reset and the mismatch thrown. */
  function ValidateChunkStep(w: World, chunk: Chunk): (r: (World, Outcome))
    ensures r.1 == Continue <==> chunk.index in w.checksums && w.checksums[chunk.index] == chunk.checksum
    ensures r.1 == Continue ==> r.0 == w
    ensures r.1 != Continue ==> r.0 == w.(checksums := map[])
    ensures r.1 != Continue ==> r.1 == Fail(DifferentChunk(chunk.index, Lookup(w.checksums, chunk.index), chunk.checksum))
  {
    var original := Lookup(w.checksums, chunk.index);
    if original == Some(chunk.checksum) then (w, Continue)
    else (w.(checksums := map[]), Fail(DifferentChunk(chunk.index, original, chunk.checksum)))
  }

  function UploadHandler(opts: Options, net: Network): (World, Chunk) -> (World, Outcome)
  {
    (w: World, chunk: Chunk) => UploadChunkStep(opts, net, w, chunk)
  }

  function ValidateHandler(): (World, Chunk) -> (World, Outcome)
  {
    (w: World, chunk: Chunk) => ValidateChunkStep(w, chunk)
  }

  /** The handler of a pass: `validateChunk` when `validate` holds, otherwise `uploadChunk`. */
  function PassHandler(validate: bool, opts: Options, net: Network): (World, Chunk) -> (World, Outcome)
  {
    if validate then ValidateHandler() else UploadHandler(opts, net)
  }

  /** Two walks that leave the same state and end the same way. */
  predicate SameEnd(a: Walked<World>, b: Walked<World>)
  {
    a.state == b.state && a.ending == b.ending
  }

  /** What the status probe found: the remote resume index, or the error it threw. */
  datatype Probed = Remote(index: nat) | ProbeFailed(error: UploadError)

  /** `getRemoteResumeIndex`: send the probe, require a 308, read the remote index. */
  function ProbeStep(opts: Options, net: Network, w: World): (r: (World, Probed))
    requires opts.chunkSize > 0
    ensures r.0 == w.(sent := w.sent + [ProbeRequest(opts)])
    ensures r.1.Remote? <==> net(|w.sent|).Reply? && net(|w.sent|).status == 308
                             && RemoteIndex(net(|w.sent|).headers, opts.chunkSize).Some?
    ensures r.1.Remote? ==> r.1.index == RemoteIndex(net(|w.sent|).headers, opts.chunkSize).value
    ensures !(net(|w.sent|).Reply? && net(|w.sent|).status in ProbeStatuses)
            ==> r.1 == ProbeFailed(RejectionOf(net(|w.sent|), ProbeStatuses, opts.id, opts.url))
    ensures net(|w.sent|).Reply? && net(|w.sent|).status == 308 && RemoteIndex(net(|w.sent|).headers, opts.chunkSize).None?
            ==> r.1 == ProbeFailed(MalformedRange)
  {
    var probed := w.(sent := w.sent + [ProbeRequest(opts)]);
    match net(|w.sent|)
    case NetworkError => (probed, ProbeFailed(TransportFailed))
    case Reply(status, headers) =>
      match CheckResponseStatus(status, ProbeStatuses, opts.id, opts.url)
      case Some(e) => (probed, ProbeFailed(e))
      case None =>
        match RemoteIndex(headers, opts.chunkSize)
        case None => (probed, ProbeFailed(MalformedRange))
        case Some(index) => (probed, Remote(index))
  }

  /** How the promise `start()` returns settles: fulfilled, rejected with an error, not yet
      (a walk waits for `unpause`), or never because the walk it would run has no stopping
      index (it starts past the last chunk). */
  datatype Settled = Resolved | Rejected(error: UploadError) | Pending | Unbounded

  function SourceOf(opts: Options, md5: seq<Byte> -> Checksum): Source
  {
    Source(opts.file, opts.chunkSize, md5)
  }

  /** `TotalChunks` of a session's file and chunk size, the same count as `Total` of its source. */
  function ChunkCount(opts: Options): nat
    requires opts.chunkSize > 0
  {
    TotalChunks(|opts.file|, opts.chunkSize)
  }

  /** `processor.run(fn, start, endIndex)` with `fn` the handler `PassHandler` picks, checking
      the pause flag at `start` only when `check` holds. */
  function Pass(opts: Options, md5: seq<Byte> -> Checksum, net: Network, validate: bool, w: World, start: nat,
                endIndex: Option<nat>, paused: bool, check: bool): Walked<World>
    requires opts.chunkSize > 0 && Halts(start, ChunkCount(opts), endIndex)
  {
    Walk(SourceOf(opts, md5), PassHandler(validate, opts, net), w, start, endIndex, paused, check)
  }

  /** `processor.run(uploadChunk, start)`. */
  function UploadPass(opts: Options, md5: seq<Byte> -> Checksum, net: Network, w: World, start: nat, paused: bool): Walked<World>
    requires opts.chunkSize > 0 && start <= ChunkCount(opts)
  {
    Pass(opts, md5, net, false, w, start, None, paused, true)
  }

  /** `processor.run(validateChunk, 0, resumeIndex)`. */
  function ValidationPass(opts: Options, md5: seq<Byte> -> Checksum, net: Network, w: World, resumeIndex: nat, paused: bool): Walked<World>
    requires opts.chunkSize > 0
  {
    Pass(opts, md5, net, true, w, 0, Some(resumeIndex), paused, true)
  }

  /** The end of `start()` after its last walk: a walk that ran to its end (or was stopped)
      resets the meta and fulfils; an error rejects; a waiting walk leaves it pending. */
  function Finish(p: Walked<World>): (r: (World, Settled))
    ensures r.1 == Resolved <==> p.ending.Completed? || p.ending.Stopped?
    ensures r.1 == Pending <==> p.ending.Suspended?
    ensures r.1 == Resolved ==> r.0 == p.state.(checksums := map[])
    ensures r.1 != Resolved ==> r.0 == p.state
    ensures p.ending.Failed? ==> r.1 == Rejected(p.ending.error)
  {
    match p.ending
    case Completed => (p.state.(checksums := map[]), Resolved)
    case Stopped => (p.state.(checksums := map[]), Resolved)
    case Failed(e) => (p.state, Rejected(e))
    case Suspended(_) => (p.state, Pending)
  }

  /** What `resumeUpload` does once the chunks below `resumeIndex` were checked: any error
      thrown while checking starts the upload over from chunk 0; otherwise it goes on from
      `resumeIndex`. */
  function AfterValidation(opts: Options, md5: seq<Byte> -> Checksum, net: Network, checked: Walked<World>,
                           resumeIndex: nat, paused: bool): (World, Settled)
    requires opts.chunkSize > 0
  {
    match checked.ending
    case Failed(_) => Finish(UploadPass(opts, md5, net, checked.state, 0, paused))
    case Suspended(_) => (checked.state, Pending)
    case _ =>
      if resumeIndex <= ChunkCount(opts)
      then Finish(UploadPass(opts, md5, net, checked.state, resumeIndex, paused))
      else (checked.state, Unbounded)
  }

  /** `resumeUpload`: probe, take the smaller of the local and remote resume indices, check the
      chunks below it, and go on from there. */
  function ResumeSpec(opts: Options, md5: seq<Byte> -> Checksum, net: Network, w: World, paused: bool,
                      localIndex: nat): (World, Settled)
    requires opts.chunkSize > 0
  {
    var (probed, remote) := ProbeStep(opts, net, w);
    match remote
    case ProbeFailed(e) => (probed, Rejected(e))
    case Remote(remoteIndex) =>
      var resumeIndex: nat := Min(localIndex, remoteIndex);
      AfterValidation(opts, md5, net, ValidationPass(opts, md5, net, probed, resumeIndex, paused), resumeIndex, paused)
  }

  /** `start()`: refuse a finished session; resume when the meta is resumable and was recorded
      for a file of this size; otherwise upload from chunk 0. */
  function StartSpec(opts: Options, md5: seq<Byte> -> Checksum, net: Network, w: World, finished: bool, paused: bool,
                     resumable: bool, storedSize: int, localIndex: nat): (World, Settled)
    requires opts.chunkSize > 0
  {
    if finished then (w, Rejected(UploadAlreadyFinished))
    else if resumable && storedSize == |opts.file| then ResumeSpec(opts, md5, net, w, paused, localIndex)
    else Finish(UploadPass(opts, md5, net, w, 0, paused))
  }

  /** The persisted record of an upload (FileMeta): the file size it was recorded for and a
      checksum per uploaded chunk index. */
  class FileMeta {
    const fileSize: int
    var checksums: map<nat, Checksum>

    constructor (fileSize: int, checksums: map<nat, Checksum>)
      ensures this.fileSize == fileSize && this.checksums == checksums
    {
      this.fileSize := fileSize;
      this.checksums := checksums;
    }

    function GetChecksum(index: nat): Option<Checksum>
      reads this
    {
      Lookup(checksums, index)
    }

    method AddChecksum(index: nat, checksum: Checksum)
      modifies this`checksums
      ensures checksums == old(checksums)[index := checksum]
    {
      checksums := checksums[index := checksum];
    }

    method Reset()
      modifies this`checksums
      ensures checksums == map[]
    {
      checksums := map[];
    }
  }

  /** `new Upload(args, allowSmallChunks)`: an absent chunk size is 262144 and an absent
      content type `text/plain`; the option checks throw before anything is built; otherwise
      the session starts unfinished, with the meta the store holds for this id. */
  method NewUpload(id: string, url: string, file: seq<Byte>, chunkSize: Option<int>, contentType: Option<string>,
                   allowSmallChunks: bool, md5: seq<Byte> -> Checksum, storedSize: int, storedChecksums: map<nat, Checksum>)
    returns (session: Option<Upload>, error: Option<UploadError>)
    ensures var size := if chunkSize.Some? then chunkSize.value else MIN_CHUNK_SIZE;
            error == CheckOptions(size, allowSmallChunks, id, url, true)
    ensures session.Some? <==> error.None?
    ensures chunkSize.None? ==> (session.Some? <==> id != "" && url != "")
    ensures session.Some? ==> fresh(session.value) && session.value.Valid() && !session.value.finished
    ensures session.Some? ==> session.value.opts.id == id && session.value.opts.url == url && session.value.opts.file == file
    ensures session.Some? ==> session.value.opts.chunkSize == if chunkSize.Some? then chunkSize.value else MIN_CHUNK_SIZE
    ensures session.Some? ==> session.value.opts.contentType == if contentType.Some? then contentType.value else DEFAULT_CONTENT_TYPE
    ensures session.Some? ==> session.value.meta.checksums == storedChecksums && session.value.meta.fileSize == storedSize
  {
    var size := if chunkSize.Some? then chunkSize.value else MIN_CHUNK_SIZE;
    var kind := if contentType.Some? then contentType.value else DEFAULT_CONTENT_TYPE;
    error := CheckOptions(size, allowSmallChunks, id, url, true);
    if error.Some? {
      return None, error;
    }
    var created := new Upload(id, url, file, size, kind, allowSmallChunks, md5, storedSize, storedChecksums);
    session := Some(created);
  }

  class Upload {
    const opts: Options
    const meta: FileMeta
    const processor: FileProcessor
    var finished: bool
    /** The requests handed to the transport, in order. */
    var sent: seq<Request>
    /** The `onChunkUpload` calls made, in order. */
    var reports: seq<ChunkReport>

    ghost predicate Valid()
      reads this, processor
    {
      processor.Valid() && opts.chunkSize > 0 &&
      processor.file == opts.file && processor.chunkSize == opts.chunkSize
    }

    function Observed(): World
      reads this, meta
    {
      World(meta.checksums, sent, reports)
    }

    /** The constructor, once `CheckOptions` has accepted its options; the meta holds what
        the store had recorded for this id. */
    constructor (id: string, url: string, file: seq<Byte>, chunkSize: int, contentType: string, allowSmallChunks: bool,
                 md5: seq<Byte> -> Checksum, storedSize: int, storedChecksums: map<nat, Checksum>)
      requires CheckOptions(chunkSize, allowSmallChunks, id, url, true).None?
      ensures Valid() && fresh(meta) && fresh(processor)
      ensures opts == Options(id, url, file, chunkSize, contentType) && processor.md5 == md5
      ensures !finished && !processor.paused && processor.unpauseHandlers == []
      ensures meta.fileSize == storedSize && meta.checksums == storedChecksums
      ensures sent == [] && reports == []
    {
      opts := Options(id, url, file, chunkSize, contentType);
      meta := new FileMeta(storedSize, storedChecksums);
      processor := new FileProcessor(file, chunkSize, md5);
      finished := false;
      sent := [];
      reports := [];
    }

    method UploadChunk(chunk: Chunk, net: Network) returns (outcome: Outcome)
      modifies meta`checksums, this`sent, this`reports
      ensures (Observed(), outcome) == UploadChunkStep(opts, net, old(Observed()), chunk)
    {
      var start := chunk.index * opts.chunkSize;
      var end := start + |chunk.bytes| - 1;
      var headers := ChunkHeaders(opts.contentType, chunk.singleChunk, start, end, |opts.file|);
      var reply := net(|sent|);
      sent := sent + [Request(opts.url, Some(chunk.bytes), headers)];
      if reply.NetworkError? {
        return Fail(TransportFailed);
      }
      var error := CheckResponseStatus(reply.status, ChunkStatuses, opts.id, opts.url);
      if error.Some? {
        return Fail(error.value);
      }
      meta.AddChecksum(chunk.index, chunk.checksum);
      reports := reports + [ChunkReport(|opts.file|, end + 1, chunk.index, |chunk.bytes|)];
      outcome := Continue;
    }

    method ValidateChunk(chunk: Chunk) returns (outcome: Outcome)
      modifies meta`checksums
      ensures (Observed(), outcome) == ValidateChunkStep(old(Observed()), chunk)
    {
      var original := meta.GetChecksum(chunk.index);
      if original != Some(chunk.checksum) {
        meta.Reset();
        return Fail(DifferentChunk(chunk.index, original, chunk.checksum));
      }
      outcome := Continue;
    }

    method GetRemoteResumeIndex(net: Network) returns (probed: Probed)
      requires opts.chunkSize > 0
      modifies this`sent
      ensures (Observed(), probed) == ProbeStep(opts, net, old(Observed()))
    {
      var reply := net(|sent|);
      sent := sent + [ProbeRequest(opts)];
      if reply.NetworkError? {
        return ProbeFailed(TransportFailed);
      }
      var error := CheckResponseStatus(reply.status, ProbeStatuses, opts.id, opts.url);
      if error.Some? {
        return ProbeFailed(error.value);
      }
      var remote := RemoteIndex(reply.headers, opts.chunkSize);
      if remote.None? {
        return ProbeFailed(MalformedRange);
      }
      probed := Remote(remote.value);
    }

    /** The handler of a pass: `validateChunk` when `validate` holds, otherwise `uploadChunk`. */
    method Handle(validate: bool, chunk: Chunk, net: Network) returns (outcome: Outcome)
      modifies meta`checksums, this`sent, this`reports
      ensures (Observed(), outcome) == PassHandler(validate, opts, net)(old(Observed()), chunk)
    {
      if validate {
        outcome := ValidateChunk(chunk);
      } else {
        outcome := UploadChunk(chunk, net);
      }
    }

    /** One visit of `index` in a pass: the stopping test, the pause check when `check` holds,
        then the chunk handed to the handler. Returns the ending when the pass ends here. */
    method Visit(spark: Spark, validate: bool, index: nat, endIndex: Option<nat>, check: bool, net: Network)
      returns (done: Option<Ending>)
      requires Valid() && spark.md5 == processor.md5 && spark.buffer == []
      requires Halts(index, ChunkCount(opts), endIndex)
      modifies meta`checksums, this`sent, this`reports, processor`unpauseHandlers, processor`nextWaiter, spark
      ensures Valid() && spark.buffer == []
      ensures var p := Pass(opts, processor.md5, net, validate, old(Observed()), index, endIndex, processor.paused, check);
              if done.Some?
              then Observed() == p.state && done.value == p.ending
              else !AtEnd(index, ChunkCount(opts), endIndex) && Halts(index + 1, ChunkCount(opts), endIndex) &&
                   SameEnd(p, Pass(opts, processor.md5, net, validate, Observed(), index + 1, endIndex, processor.paused, true))
      ensures done.Some? && done.value.Suspended? ==> processor.unpauseHandlers == old(processor.unpauseHandlers) + [old(processor.nextWaiter)]
      ensures done.Some? && done.value.Suspended? ==> processor.nextWaiter == old(processor.nextWaiter) + 1
      ensures !(done.Some? && done.value.Suspended?) ==> processor.unpauseHandlers == old(processor.unpauseHandlers)
      ensures !(done.Some? && done.value.Suspended?) ==> processor.nextWaiter == old(processor.nextWaiter)
    {
      var src := SourceOf(opts, processor.md5);
      assert src == processor.Src();
      var step := processor.Next(spark, index, endIndex, check);
      match step {
        case Finished =>
          return Some(Completed);
        case Waiting(w) =>
          return Some(Suspended(index));
        case Deliver(chunk) =>
          ghost var before := Observed();
          var outcome := Handle(validate, chunk, net);
          WalkVisit(src, PassHandler(validate, opts, net), before, index, endIndex, processor.paused, check, Observed(), outcome);
          match outcome {
            case Stop =>
              return Some(Stopped);
            case Fail(e) =>
              return Some(Failed(e));
            case Continue =>
              return None;
          }
      }
    }

    /** `processIndex(index)` of a pass: visit `index` and, when the handler lets it, go on
        with `index + 1`, checking the pause flag there. */
    method RunFrom(spark: Spark, validate: bool, index: nat, endIndex: Option<nat>, check: bool, net: Network)
      returns (ending: Ending)
      requires Valid() && spark.md5 == processor.md5 && spark.buffer == []
      requires Halts(index, ChunkCount(opts), endIndex)
      modifies meta`checksums, this`sent, this`reports, processor`unpauseHandlers, processor`nextWaiter, spark
      ensures Valid()
      ensures SameEnd(Walked(Observed(), [], ending),
                      Pass(opts, processor.md5, net, validate, old(Observed()), index, endIndex, processor.paused, check))
      ensures ending.Suspended? ==> processor.unpauseHandlers == old(processor.unpauseHandlers) + [old(processor.nextWaiter)]
                                    && processor.nextWaiter == old(processor.nextWaiter) + 1
      ensures !ending.Suspended? ==> processor.unpauseHandlers == old(processor.unpauseHandlers)
                                     && processor.nextWaiter == old(processor.nextWaiter)
      decreases StopIndex(index, ChunkCount(opts), endIndex) - index
    {
      var done := Visit(spark, validate, index, endIndex, check, net);
      if done.Some? {
        return done.value;
      }
      StopIndexStep(index, ChunkCount(opts), endIndex);
      ending := RunFrom(spark, validate, index + 1, endIndex, true, net);
    }

    /** `processor.run(validateChunk, start, endIndex)` when `validate` holds, otherwise
        `processor.run(uploadChunk, start, endIndex)`: a fresh accumulator, then
        `processIndex(start)`. */
    method RunPass(validate: bool, start: nat, endIndex: Option<nat>, net: Network) returns (ending: Ending)
      requires Valid() && Halts(start, ChunkCount(opts), endIndex)
      modifies meta`checksums, this`sent, this`reports, processor`unpauseHandlers, processor`nextWaiter
      ensures Valid()
      ensures var p := Pass(opts, processor.md5, net, validate, old(Observed()), start, endIndex, processor.paused, true);
              Observed() == p.state && ending == p.ending
      ensures ending.Suspended? ==> processor.unpauseHandlers == old(processor.unpauseHandlers) + [old(processor.nextWaiter)]
                                    && processor.nextWaiter == old(processor.nextWaiter) + 1
      ensures !ending.Suspended? ==> processor.unpauseHandlers == old(processor.unpauseHandlers)
                                     && processor.nextWaiter == old(processor.nextWaiter)
    {
      var spark := new Spark(processor.md5);
      ending := RunFrom(spark, validate, start, endIndex, true, net);
    }

    /** The end of `start()` after its last walk. */
    method Complete(ending: Ending) returns (settled: Settled)
      modifies this`finished, meta`checksums
      ensures (Observed(), settled) == Finish(Walked(old(Observed()), [], ending))
      ensures finished == (old(finished) || settled == Resolved)
    {
      match ending {
        case Failed(e) =>
          settled := Rejected(e);
        case Suspended(_) =>
          settled := Pending;
        case _ =>
          meta.Reset();
          finished := true;
          settled := Resolved;
      }
    }

    /** What `resumeUpload` does after checking the chunks below `resumeIndex`. */
    method AfterCheck(checked: Ending, resumeIndex: nat, net: Network) returns (settled: Settled)
      requires Valid()
      modifies this`finished, this`sent, this`reports, meta`checksums, processor`unpauseHandlers, processor`nextWaiter
      ensures Valid()
      ensures (Observed(), settled)
           == AfterValidation(opts, processor.md5, net, Walked(old(Observed()), [], checked), resumeIndex, processor.paused)
      ensures finished == (old(finished) || settled == Resolved)
      ensures settled == Pending && !checked.Suspended? ==>
                processor.unpauseHandlers == old(processor.unpauseHandlers) + [old(processor.nextWaiter)]
                && processor.nextWaiter == old(processor.nextWaiter) + 1
      ensures settled != Pending || checked.Suspended? ==>
                processor.unpauseHandlers == old(processor.unpauseHandlers) && processor.nextWaiter == old(processor.nextWaiter)
    {
      match checked {
        case Failed(_) =>
          var ending := RunPass(false, 0, None, net);
          settled := Complete(ending);
        case Suspended(_) =>
          settled := Pending;
        case _ =>
          if resumeIndex <= ChunkCount(opts) {
            var ending := RunPass(false, resumeIndex, None, net);
            settled := Complete(ending);
          } else {
            settled := Unbounded;
          }
      }
    }

    method ResumeUpload(localIndex: nat, net: Network) returns (settled: Settled)
      requires Valid()
      modifies this`finished, this`sent, this`reports, meta`checksums, processor`unpauseHandlers, processor`nextWaiter
      ensures Valid()
      ensures (Observed(), settled) == ResumeSpec(opts, processor.md5, net, old(Observed()), processor.paused, localIndex)
      ensures finished == (old(finished) || settled == Resolved)
      ensures settled == Pending ==> processor.unpauseHandlers == old(processor.unpauseHandlers) + [old(processor.nextWaiter)]
                                     && processor.nextWaiter == old(processor.nextWaiter) + 1
      ensures settled != Pending ==> processor.unpauseHandlers == old(processor.unpauseHandlers)
                                     && processor.nextWaiter == old(processor.nextWaiter)
    {
      var probed := GetRemoteResumeIndex(net);
      if probed.ProbeFailed? {
        return Rejected(probed.error);
      }
      var resumeIndex: nat := Min(localIndex, probed.index);
      var checked := RunPass(true, 0, Some(resumeIndex), net);
      settled := AfterCheck(checked, resumeIndex, net);
    }

    method Start(resumable: bool, localIndex: nat, net: Network) returns (settled: Settled)
      requires Valid()
      modifies this`finished, this`sent, this`reports, meta`checksums, processor`unpauseHandlers, processor`nextWaiter
      ensures Valid()
      ensures (Observed(), settled)
           == StartSpec(opts, processor.md5, net, old(Observed()), old(finished), processor.paused, resumable, meta.fileSize, localIndex)
      ensures finished == (old(finished) || settled == Resolved)
      ensures settled == Pending ==> processor.unpauseHandlers == old(processor.unpauseHandlers) + [old(processor.nextWaiter)]
                                     && processor.nextWaiter == old(processor.nextWaiter) + 1
      ensures settled != Pending ==> processor.unpauseHandlers == old(processor.unpauseHandlers)
                                     && processor.nextWaiter == old(processor.nextWaiter)
    {
      if finished {
        return Rejected(UploadAlreadyFinished);
      }
      if resumable && meta.fileSize == |opts.file| {
        settled := ResumeUpload(localIndex, net);
      } else {
        var ending := RunPass(false, 0, None, net);
        settled := Complete(ending);
      }
    }

    method Pause()
      modifies processor`paused
      ensures processor.paused
    {
      processor.Pause();
    }

    method Unpause() returns (invoked: seq<Waiter>)
      requires Valid()
      modifies processor`paused, processor`unpauseHandlers, processor`released
      ensures Valid()
      ensures !processor.paused && processor.unpauseHandlers == [] && invoked == old(processor.unpauseHandlers)
      ensures processor.released == old(processor.released) + invoked
    {
      invoked := processor.Unpause();
    }

    /** `cancel()`: pause the walk and forget the recorded progress; the session is not
        marked finished. */
    method Cancel()
      modifies processor`paused, meta`checksums
      ensures processor.paused && meta.checksums == map[]
    {
      processor.Pause();
      meta.Reset();
    }
  }
}
