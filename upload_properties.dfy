/** What the upload session promises: how the probe's `range` header becomes a resume index,
    how the chunk byte ranges tile the file, what an accepted upload pass leaves behind, when
    validation lets a resume go ahead, and what `start()` does end to end. */
module UploadProperties {
  import opened Prelude
  import opened Errors
  import opened Decimal
  import opened FileProcessing
  import opened WalkProperties
  import opened UploadSession

  // ---------------------------------------------------------------- the chunk-size check

  /** The check as written lets through chunk sizes no walk can use: a negative multiple of
      262144 (its remainder is `-0`, which equals `0`), and, with small chunks allowed, 0.
      The corrected check refuses both. */
  lemma ChunkSizeCheckAdmitsNonPositive()
    ensures !ChunkSizeRejectedAsWritten(-262144, false) && ChunkSizeRejected(-262144, false)
    ensures !ChunkSizeRejectedAsWritten(0, true) && ChunkSizeRejected(0, true)
  {
    assert -262144 % MIN_CHUNK_SIZE == 0;
  }

  /** On positive chunk sizes the corrected check decides exactly as the written one, so the
      correction changes nothing else. */
  lemma ChunkSizeCheckAgreesOnPositive(chunkSize: int, allowSmallChunks: bool)
    requires chunkSize > 0
    ensures ChunkSizeRejectedAsWritten(chunkSize, allowSmallChunks) <==> ChunkSizeRejected(chunkSize, allowSmallChunks)
  {
  }

  // ---------------------------------------------------------------- the range header

  lemma {:induction false} DigitSuffixAfterNonDigit(s: string, t: string)
    requires AllDigits(t) && |s| > 0 && !IsDigit(s[|s| - 1])
    ensures DigitSuffixLength(s + t) == |t|
    decreases |t|
  {
    if t == [] {
      assert s + t == s;
    } else {
      var u := s + t;
      assert u[..|u| - 1] == s + t[..|t| - 1];
      DigitSuffixAfterNonDigit(s, t[..|t| - 1]);
    }
  }

  /** The pattern reads the number after the last `-` of a header that ends `<a>-<b>`,
      whatever comes before. */
  lemma RangeEndReadsLastNumber(prefix: string, a: nat, b: nat)
    ensures RangeEnd(prefix + NatToString(a) + "-" + NatToString(b)) == Some(b)
  {
    var head := prefix + NatToString(a) + "-";
    var range := head + NatToString(b);
    assert range == prefix + NatToString(a) + "-" + NatToString(b);
    DigitSuffixAfterNonDigit(head, NatToString(b));
    var p := |range| - |NatToString(b)|;
    assert p == |head|;
    assert range[p - 1] == '-';
    assert range[p - 2] == NatToString(a)[|NatToString(a)| - 1];
    assert range[p..] == NatToString(b);
    DigitsValueOfNatToString(b);
  }

  /** `x / c` is the one `q` with `q * c <= x < (q + 1) * c`. */
  lemma DivUnique(x: nat, c: nat, q: nat)
    requires c > 0
    ensures x / c == q <==> q * c <= x < (q + 1) * c
  {
    var d := x / c;
    assert d * c <= x < d * c + c;
    assert (d + 1) * c == d * c + c;
    if q * c <= x < (q + 1) * c {
      if d < q {
        MulMono(d + 1, q, c);
      } else if q < d {
        MulMono(q + 1, d, c);
      }
    }
  }

  /** A 308 reply whose `range` header says the server holds bytes `0 ..= b` gives the number
      of whole chunks in `b + 1` bytes: the chunks before it are all on the server and the
      chunk at it is not complete there. */
  lemma RemoteIndexCountsWholeChunks(h: Headers, b: nat, chunkSize: nat)
    requires chunkSize > 0
    requires "range" in h && h["range"] == "bytes=0-" + NatToString(b)
    ensures RemoteIndex(Some(h), chunkSize).Some?
    ensures var q := RemoteIndex(Some(h), chunkSize).value;
            q * chunkSize <= b + 1 < (q + 1) * chunkSize
  {
    assert "bytes=0-" + NatToString(b) == "bytes=" + NatToString(0) + "-" + NatToString(b);
    RangeEndReadsLastNumber("bytes=", 0, b);
    assert RemoteIndex(Some(h), chunkSize) == Some((b + 1) / chunkSize);
    DivUnique(b + 1, chunkSize, (b + 1) / chunkSize);
  }

  /** When the server holds exactly `k` whole chunks, the remote index is `k`. */
  lemma RemoteIndexOfWholeChunks(h: Headers, b: nat, k: nat, chunkSize: nat)
    requires chunkSize > 0 && b + 1 == k * chunkSize
    requires "range" in h && h["range"] == "bytes=0-" + NatToString(b)
    ensures RemoteIndex(Some(h), chunkSize) == Some(k)
  {
    assert "bytes=0-" + NatToString(b) == "bytes=" + NatToString(0) + "-" + NatToString(b);
    RangeEndReadsLastNumber("bytes=", 0, b);
    assert (k + 1) * chunkSize == k * chunkSize + chunkSize;
    DivUnique(b + 1, chunkSize, k);
  }

  // ---------------------------------------------------------------- chunk byte ranges

  /** In a file of more than one chunk, chunk `i` carries `Content-Range` bytes `i * c` through
      the byte before chunk `i + 1` starts, the last one through the file's last byte: the
      ranges follow each other without gap or overlap and end at the end of the file. */
  lemma ChunkRangesTile(opts: Options, md5: seq<Byte> -> Checksum, i: nat)
    requires opts.chunkSize > 0 && i < ChunkCount(opts) && ChunkCount(opts) > 1
    ensures var headers := ChunkRequest(opts, ChunkFor(SourceOf(opts, md5), i)).headers;
            var c := opts.chunkSize;
            "Content-Range" in headers &&
            headers["Content-Range"]
            == ContentRange(i * c, if i + 1 < ChunkCount(opts) then (i + 1) * c - 1 else |opts.file| - 1, |opts.file|)
  {
    var c := opts.chunkSize;
    ChunkLengths(opts.file, c, i);
    assert (i + 1) * c == i * c + c;
  }

  /** A file that fits in one chunk goes up in one request without a `Content-Range`. */
  lemma SingleChunkHasNoRange(opts: Options, md5: seq<Byte> -> Checksum)
    requires opts.chunkSize > 0 && 0 < |opts.file| <= opts.chunkSize
    ensures var r := ChunkRequest(opts, ChunkFor(SourceOf(opts, md5), 0));
            "Content-Range" !in r.headers && r.body == Some(opts.file)
  {
    SingleChunkIff(|opts.file|, opts.chunkSize);
    ChunkLengths(opts.file, opts.chunkSize, 0);
    assert opts.file[0..|opts.file|] == opts.file;
  }

  // ---------------------------------------------------------------- an accepted upload pass

  /** The transport accepts every one of `count` requests from the `from`-th on. */
  predicate AcceptsFrom(net: Network, from: nat, count: nat)
  {
    forall k :: from <= k < from + count ==> Accepted(net(k))
  }

  /** The chunk requests for indices `start .. stop - 1`, in order. */
  function Requests(opts: Options, md5: seq<Byte> -> Checksum, start: nat, stop: nat): (r: seq<Request>)
    requires opts.chunkSize > 0
    ensures |r| == if stop <= start then 0 else stop - start
    ensures forall k :: 0 <= k < |r| ==> r[k] == ChunkRequest(opts, ChunkFor(SourceOf(opts, md5), start + k))
    decreases stop
  {
    if stop <= start then []
    else
      var before := Requests(opts, md5, start, stop - 1);
      var last := ChunkRequest(opts, ChunkFor(SourceOf(opts, md5), stop - 1));
      assert (before + [last])[|before|] == last;
      before + [last]
  }

  /** The checksum stored at `i` is the digest of the current bytes of chunk `i`. */
  predicate Matches(opts: Options, md5: seq<Byte> -> Checksum, checksums: map<nat, Checksum>, i: nat)
  {
    i in checksums && checksums[i] == md5(ChunkBytes(opts.file, opts.chunkSize, i))
  }

  /** The checksums a pass from `start` has stored by the time it reaches index `i`: the
      digest of every chunk of `start .. i - 1`, and every other checksum of `before` kept. */
  predicate Stored(opts: Options, md5: seq<Byte> -> Checksum, before: map<nat, Checksum>, start: nat,
                   after: map<nat, Checksum>, i: nat)
  {
    && (forall j :: start <= j < i ==> Matches(opts, md5, after, j))
    && (forall j :: j in before && !(start <= j < i) ==> j in after && after[j] == before[j])
    && (forall j :: j in after ==> j in before || start <= j < i)
  }

  /** Storing chunk `i`'s digest keeps `Stored` one index further on. */
  lemma StoredStep(opts: Options, md5: seq<Byte> -> Checksum, before: map<nat, Checksum>, start: nat,
                   after: map<nat, Checksum>, i: nat)
    requires start <= i && Stored(opts, md5, before, start, after, i)
    ensures Stored(opts, md5, before, start, after[i := md5(ChunkBytes(opts.file, opts.chunkSize, i))], i + 1)
  {
    var next := after[i := md5(ChunkBytes(opts.file, opts.chunkSize, i))];
    forall j | start <= j < i + 1
      ensures Matches(opts, md5, next, j)
    {
      if j < i {
        assert Matches(opts, md5, after, j);
      }
    }
  }

  /** What an accepted upload pass that began at `start` in world `w` has done by the time it
      reaches index `i`, in world `t`: sent the requests of `start .. i - 1`, reported each of
      those chunks, the last one up to the end of chunk `i - 1`, and stored their digests while
      keeping every other stored checksum. */
  predicate Uploaded(opts: Options, md5: seq<Byte> -> Checksum, w: World, start: nat, t: World, i: nat)
    requires opts.chunkSize > 0
  {
    && start <= i
    && t.sent == w.sent + Requests(opts, md5, start, i)
    && |t.reports| == |w.reports| + (i - start)
    && (start < i ==> t.reports[|t.reports| - 1].uploadedBytes
                      == (i - 1) * opts.chunkSize + |ChunkBytes(opts.file, opts.chunkSize, i - 1)|)
    && Stored(opts, md5, w.checksums, start, t.checksums, i)
  }

  /** An accepted chunk request keeps `Uploaded` one index further on. */
  lemma UploadStepKeeps(opts: Options, md5: seq<Byte> -> Checksum, net: Network, w: World, start: nat, t: World, i: nat)
    requires opts.chunkSize > 0 && Uploaded(opts, md5, w, start, t, i) && Accepted(net(|t.sent|))
    ensures var r := UploadChunkStep(opts, net, t, ChunkFor(SourceOf(opts, md5), i));
            r.1 == Continue && Uploaded(opts, md5, w, start, r.0, i + 1)
  {
    var chunk := ChunkFor(SourceOf(opts, md5), i);
    var r := UploadChunkStep(opts, net, t, chunk);
    assert r.1 == Continue;
    assert r.0.sent == w.sent + Requests(opts, md5, start, i + 1);
    assert r.0.reports[|r.0.reports| - 1].uploadedBytes == i * opts.chunkSize + |ChunkBytes(opts.file, opts.chunkSize, i)|;
    StoredStep(opts, md5, w.checksums, start, t.checksums, i);
  }

  /** Every accepted chunk request of a pass keeps `Uploaded` one index further on. */
  lemma UploadStepsKeep(opts: Options, md5: seq<Byte> -> Checksum, net: Network, w: World, start: nat)
    requires opts.chunkSize > 0 && start <= ChunkCount(opts)
    requires AcceptsFrom(net, |w.sent|, ChunkCount(opts) - start)
    ensures forall t: World, i: nat :: start <= i < ChunkCount(opts) && Uploaded(opts, md5, w, start, t, i) ==>
              && UploadChunkStep(opts, net, t, ChunkFor(SourceOf(opts, md5), i)).1 == Continue
              && Uploaded(opts, md5, w, start, UploadChunkStep(opts, net, t, ChunkFor(SourceOf(opts, md5), i)).0, i + 1)
  {
    forall t: World, i: nat | start <= i < ChunkCount(opts) && Uploaded(opts, md5, w, start, t, i)
      ensures && UploadChunkStep(opts, net, t, ChunkFor(SourceOf(opts, md5), i)).1 == Continue
              && Uploaded(opts, md5, w, start, UploadChunkStep(opts, net, t, ChunkFor(SourceOf(opts, md5), i)).0, i + 1)
    {
      assert |t.sent| == |w.sent| + (i - start);
      UploadStepKeeps(opts, md5, net, w, start, t, i);
    }
  }

  /** An upload pass from `start` that every reply accepts completes; it sends the chunk
      requests of `start .. totalChunks - 1` in order, stores each chunk's digest at its index
      and keeps every other stored checksum, and reports every chunk. */
  lemma AcceptedPass(opts: Options, md5: seq<Byte> -> Checksum, net: Network, w: World, start: nat, check: bool)
    requires opts.chunkSize > 0 && start <= ChunkCount(opts)
    requires AcceptsFrom(net, |w.sent|, ChunkCount(opts) - start)
    ensures var p := Pass(opts, md5, net, false, w, start, None, false, check);
            p.ending == Completed && Uploaded(opts, md5, w, start, p.state, ChunkCount(opts))
  {
    var src := SourceOf(opts, md5);
    var h := PassHandler(false, opts, net);
    var inv := (t: World, i: nat) => Uploaded(opts, md5, w, start, t, i);
    assert w.sent + [] == w.sent;
    assert inv(w, start);
    UploadStepsKeep(opts, md5, net, w, start);
    assert StopIndex(start, Total(src), None) == ChunkCount(opts);
    WalkKeeps(src, h, inv, w, start, None, check);
  }

  /** Once an upload pass has reached the last chunk, its last report counts every byte of
      the file. */
  lemma UploadedReportsWholeFile(opts: Options, md5: seq<Byte> -> Checksum, w: World, start: nat, t: World)
    requires opts.chunkSize > 0 && start < ChunkCount(opts)
    requires Uploaded(opts, md5, w, start, t, ChunkCount(opts))
    ensures |t.reports| > 0 && t.reports[|t.reports| - 1].uploadedBytes == |opts.file|
  {
    ChunkLengths(opts.file, opts.chunkSize, ChunkCount(opts) - 1);
  }

  /** Every accepted chunk request before index `m` keeps `Uploaded` one index further on. */
  lemma UploadStepsKeepTill(opts: Options, md5: seq<Byte> -> Checksum, net: Network, w: World, start: nat, m: nat)
    requires opts.chunkSize > 0 && start <= m
    requires AcceptsFrom(net, |w.sent|, m - start)
    ensures forall t: World, i: nat :: start <= i < m && Uploaded(opts, md5, w, start, t, i) ==>
              && UploadChunkStep(opts, net, t, ChunkFor(SourceOf(opts, md5), i)).1 == Continue
              && Uploaded(opts, md5, w, start, UploadChunkStep(opts, net, t, ChunkFor(SourceOf(opts, md5), i)).0, i + 1)
  {
    forall t: World, i: nat | start <= i < m && Uploaded(opts, md5, w, start, t, i)
      ensures && UploadChunkStep(opts, net, t, ChunkFor(SourceOf(opts, md5), i)).1 == Continue
              && Uploaded(opts, md5, w, start, UploadChunkStep(opts, net, t, ChunkFor(SourceOf(opts, md5), i)).0, i + 1)
    {
      assert |t.sent| == |w.sent| + (i - start);
      UploadStepKeeps(opts, md5, net, w, start, t, i);
    }
  }

  /** What an upload pass from `start` has done when the request for chunk `m` is rejected:
      sent the requests of `start .. m`, reported and stored the chunks before `m`. */
  predicate RejectedAt(opts: Options, md5: seq<Byte> -> Checksum, w: World, start: nat, t: World, m: nat)
    requires opts.chunkSize > 0
  {
    && t.sent == w.sent + Requests(opts, md5, start, m + 1)
    && |t.reports| == |w.reports| + (m - start)
    && Stored(opts, md5, w.checksums, start, t.checksums, m)
  }

  /** A world that differs from one reached at chunk `m` only by the request for chunk `m`
      is where a pass rejected at `m` stops. */
  lemma RejectedAtOf(opts: Options, md5: seq<Byte> -> Checksum, w: World, start: nat, t: World, m: nat, u: World)
    requires opts.chunkSize > 0 && Uploaded(opts, md5, w, start, t, m)
    requires u.sent == t.sent + [ChunkRequest(opts, ChunkFor(SourceOf(opts, md5), m))]
    requires u.checksums == t.checksums && u.reports == t.reports
    ensures RejectedAt(opts, md5, w, start, u, m)
  {
    var last := ChunkRequest(opts, ChunkFor(SourceOf(opts, md5), m));
    var before := Requests(opts, md5, start, m);
    assert Requests(opts, md5, start, m + 1) == before + [last];
    calc {
      u.sent;
      (w.sent + before) + [last];
      w.sent + (before + [last]);
    }
  }

  /** A rejected chunk request fails with the reply's error and changes nothing but the
      requests sent. */
  lemma UploadStepRejects(opts: Options, md5: seq<Byte> -> Checksum, net: Network, w: World, start: nat, t: World, m: nat)
    requires opts.chunkSize > 0 && Uploaded(opts, md5, w, start, t, m) && !Accepted(net(|t.sent|))
    ensures var r := UploadChunkStep(opts, net, t, ChunkFor(SourceOf(opts, md5), m));
            && r.1 == Fail(RejectionOf(net(|t.sent|), ChunkStatuses, opts.id, opts.url))
            && RejectedAt(opts, md5, w, start, r.0, m)
  {
    var r := UploadChunkStep(opts, net, t, ChunkFor(SourceOf(opts, md5), m));
    RejectedAtOf(opts, md5, w, start, t, m, r.0);
  }

  /** Whatever world an upload pass from `start` reaches chunk `m` in, a rejected request
      for chunk `m` fails with the reply's error. */
  lemma UploadStepRejectsAt(opts: Options, md5: seq<Byte> -> Checksum, net: Network, w: World, start: nat, m: nat)
    requires opts.chunkSize > 0 && start <= m && !Accepted(net(|w.sent| + (m - start)))
    ensures forall t: World :: Uploaded(opts, md5, w, start, t, m) ==>
              && UploadChunkStep(opts, net, t, ChunkFor(SourceOf(opts, md5), m)).1
                 == Fail(RejectionOf(net(|w.sent| + (m - start)), ChunkStatuses, opts.id, opts.url))
              && RejectedAt(opts, md5, w, start, UploadChunkStep(opts, net, t, ChunkFor(SourceOf(opts, md5), m)).0, m)
  {
    forall t: World | Uploaded(opts, md5, w, start, t, m)
      ensures && UploadChunkStep(opts, net, t, ChunkFor(SourceOf(opts, md5), m)).1
                 == Fail(RejectionOf(net(|w.sent| + (m - start)), ChunkStatuses, opts.id, opts.url))
              && RejectedAt(opts, md5, w, start, UploadChunkStep(opts, net, t, ChunkFor(SourceOf(opts, md5), m)).0, m)
    {
      assert |t.sent| == |w.sent| + (m - start);
      UploadStepRejects(opts, md5, net, w, start, t, m);
    }
  }

  /** An upload pass whose replies accept every chunk before chunk `m` and reject chunk `m`
      fails with the error that reply gives. By then it has sent the requests of
      `start .. m`, reported the chunks before `m`, and stored their digests, keeping every
      other stored checksum. */
  lemma RejectedPass(opts: Options, md5: seq<Byte> -> Checksum, net: Network, w: World, start: nat, m: nat, check: bool)
    requires opts.chunkSize > 0 && start <= m < ChunkCount(opts)
    requires AcceptsFrom(net, |w.sent|, m - start) && !Accepted(net(|w.sent| + (m - start)))
    ensures var p := Pass(opts, md5, net, false, w, start, None, false, check);
            && p.ending == Failed(RejectionOf(net(|w.sent| + (m - start)), ChunkStatuses, opts.id, opts.url))
            && RejectedAt(opts, md5, w, start, p.state, m)
  {
    var src := SourceOf(opts, md5);
    var h := PassHandler(false, opts, net);
    var e := RejectionOf(net(|w.sent| + (m - start)), ChunkStatuses, opts.id, opts.url);
    var inv := (t: World, i: nat) => Uploaded(opts, md5, w, start, t, i);
    var post := (t: World) => RejectedAt(opts, md5, w, start, t, m);
    assert w.sent + [] == w.sent;
    assert inv(w, start);
    UploadStepsKeepTill(opts, md5, net, w, start, m);
    UploadStepRejectsAt(opts, md5, net, w, start, m);
    assert StopIndex(start, Total(src), None) == ChunkCount(opts);
    WalkFailsAt(src, h, inv, post, e, w, start, None, check, m);
  }

  // ---------------------------------------------------------------- validation

  /** A validation pass over `index .. resumeIndex - 1` (the chunk count bounding it) that is
      not paused completes, leaving everything as it was, exactly when every stored checksum
      there matches the current bytes; otherwise it fails at the first index that does not
      match, with that index, the stored checksum (if any) and the new one, and the meta is
      cleared. */
  lemma {:induction false} ValidationOutcome(opts: Options, md5: seq<Byte> -> Checksum, net: Network, w: World,
                                             index: nat, resumeIndex: nat, check: bool)
    requires opts.chunkSize > 0 && index <= Min(resumeIndex, ChunkCount(opts))
    ensures var p := Pass(opts, md5, net, true, w, index, Some(resumeIndex), false, check);
            var stop := Min(resumeIndex, ChunkCount(opts));
            && (p.ending == Completed <==> forall i :: index <= i < stop ==> Matches(opts, md5, w.checksums, i))
            && (p.ending == Completed ==> p.state == w)
            && (p.ending != Completed ==>
                  && p.ending.Failed? && p.ending.error.DifferentChunk?
                  && var j := p.ending.error.chunkIndex;
                  && index <= j < stop
                  && !Matches(opts, md5, w.checksums, j)
                  && (forall i :: index <= i < j ==> Matches(opts, md5, w.checksums, i))
                  && p.ending.error == DifferentChunk(j, Lookup(w.checksums, j), md5(ChunkBytes(opts.file, opts.chunkSize, j)))
                  && p.state == w.(checksums := map[]))
    decreases ChunkCount(opts) - index
  {
    var total := ChunkCount(opts);
    var stop := Min(resumeIndex, total);
    var src := SourceOf(opts, md5);
    var h := PassHandler(true, opts, net);
    if index < stop {
      assert !AtEnd(index, total, Some(resumeIndex));
      var chunk := ChunkFor(src, index);
      var (next, outcome) := ValidateChunkStep(w, chunk);
      assert h(w, chunk) == (next, outcome);
      WalkVisit(src, h, w, index, Some(resumeIndex), false, check, next, outcome);
      if outcome == Continue {
        assert next == w && Matches(opts, md5, w.checksums, index);
        ValidationOutcome(opts, md5, net, w, index + 1, resumeIndex, true);
        var p := Pass(opts, md5, net, true, w, index + 1, Some(resumeIndex), false, true);
        if p.ending == Completed {
          forall i | index <= i < stop
            ensures Matches(opts, md5, w.checksums, i)
          {
            if i > index {
              assert index + 1 <= i < stop;
            }
          }
        }
      } else {
        assert !Matches(opts, md5, w.checksums, index);
      }
    } else {
      assert AtEnd(index, total, Some(resumeIndex));
    }
  }

  // ---------------------------------------------------------------- start()

  /** A session that is not resumable uploads every chunk in order from chunk 0 and, when
      every reply accepts, fulfils with the meta cleared. */
  lemma StartFromScratch(opts: Options, md5: seq<Byte> -> Checksum, net: Network, w: World,
                         resumable: bool, storedSize: int, localIndex: nat)
    requires opts.chunkSize > 0 && !(resumable && storedSize == |opts.file|)
    requires AcceptsFrom(net, |w.sent|, ChunkCount(opts))
    ensures var r := StartSpec(opts, md5, net, w, false, false, resumable, storedSize, localIndex);
            && r.1 == Resolved
            && r.0.checksums == map[]
            && r.0.sent == w.sent + Requests(opts, md5, 0, ChunkCount(opts))
            && |r.0.reports| == |w.reports| + ChunkCount(opts)
  {
    AcceptedPass(opts, md5, net, w, 0, true);
  }

  /** A session that is not resumable and whose replies accept chunks `0 .. m - 1` but reject
      chunk `m` rejects with that reply's error. It has sent the requests of chunks `0 .. m`
      and nothing after, and the digests of the chunks before `m` stay in the meta for a
      later resume, with every other stored checksum kept. */
  lemma StartRejectedMidway(opts: Options, md5: seq<Byte> -> Checksum, net: Network, w: World,
                            resumable: bool, storedSize: int, localIndex: nat, m: nat)
    requires opts.chunkSize > 0 && !(resumable && storedSize == |opts.file|) && m < ChunkCount(opts)
    requires AcceptsFrom(net, |w.sent|, m) && !Accepted(net(|w.sent| + m))
    ensures var r := StartSpec(opts, md5, net, w, false, false, resumable, storedSize, localIndex);
            && r.1 == Rejected(RejectionOf(net(|w.sent| + m), ChunkStatuses, opts.id, opts.url))
            && RejectedAt(opts, md5, w, 0, r.0, m)
  {
    RejectedPass(opts, md5, net, w, 0, m, true);
  }

  /** A resumable session whose probe reports `remoteIndex` whole chunks on the server, and
      whose stored checksums match the current bytes of every chunk below
      `min(localIndex, remoteIndex)`, skips exactly those chunks: after the probe it sends the
      requests of the remaining chunks only and, when every reply accepts, fulfils with the
      meta cleared. */
  lemma ResumeSkipsValidatedChunks(opts: Options, md5: seq<Byte> -> Checksum, net: Network, w: World,
                                   localIndex: nat, remoteHeaders: Option<Headers>, remoteIndex: nat)
    requires opts.chunkSize > 0
    requires net(|w.sent|) == Reply(308, remoteHeaders) && RemoteIndex(remoteHeaders, opts.chunkSize) == Some(remoteIndex)
    requires Min(localIndex, remoteIndex) <= ChunkCount(opts)
    requires forall i :: 0 <= i < Min(localIndex, remoteIndex) ==> Matches(opts, md5, w.checksums, i)
    requires AcceptsFrom(net, |w.sent| + 1, ChunkCount(opts) - Min(localIndex, remoteIndex))
    ensures var r := StartSpec(opts, md5, net, w, false, false, true, |opts.file|, localIndex);
            && r.1 == Resolved
            && r.0.checksums == map[]
            && r.0.sent == w.sent + [ProbeRequest(opts)] + Requests(opts, md5, Min(localIndex, remoteIndex), ChunkCount(opts))
  {
    var resumeIndex: nat := Min(localIndex, remoteIndex);
    var probed := w.(sent := w.sent + [ProbeRequest(opts)]);
    assert ProbeStep(opts, net, w) == (probed, Remote(remoteIndex));
    ValidationOutcome(opts, md5, net, probed, 0, resumeIndex, true);
    AcceptedPass(opts, md5, net, probed, resumeIndex, true);
  }

  /** A resumable session that finds a chunk below the resume index whose bytes no longer
      match the stored checksum starts over: after the probe and the failed check it sends
      every chunk from chunk 0 and, when every reply accepts, fulfils with the meta cleared. */
  lemma ResumeRestartsOnMismatch(opts: Options, md5: seq<Byte> -> Checksum, net: Network, w: World,
                                 localIndex: nat, remoteHeaders: Option<Headers>, remoteIndex: nat, bad: nat)
    requires opts.chunkSize > 0
    requires net(|w.sent|) == Reply(308, remoteHeaders) && RemoteIndex(remoteHeaders, opts.chunkSize) == Some(remoteIndex)
    requires bad < Min(Min(localIndex, remoteIndex), ChunkCount(opts)) && !Matches(opts, md5, w.checksums, bad)
    requires AcceptsFrom(net, |w.sent| + 1, ChunkCount(opts))
    ensures var r := StartSpec(opts, md5, net, w, false, false, true, |opts.file|, localIndex);
            && r.1 == Resolved
            && r.0.checksums == map[]
            && r.0.sent == w.sent + [ProbeRequest(opts)] + Requests(opts, md5, 0, ChunkCount(opts))
  {
    var resumeIndex: nat := Min(localIndex, remoteIndex);
    var probed := w.(sent := w.sent + [ProbeRequest(opts)]);
    assert ProbeStep(opts, net, w) == (probed, Remote(remoteIndex));
    ValidationOutcome(opts, md5, net, probed, 0, resumeIndex, true);
    var checked := ValidationPass(opts, md5, net, probed, resumeIndex, false);
    assert checked.ending.Failed?;
    AcceptedPass(opts, md5, net, checked.state, 0, true);
  }

  /** A probe reply without response headers (which is what an XMLHttpRequest object offers)
      gives remote index 0, so a resumed upload sends every chunk again. */
  lemma HeaderlessProbeResendsEverything(opts: Options, md5: seq<Byte> -> Checksum, net: Network, w: World, localIndex: nat)
    requires opts.chunkSize > 0
    requires net(|w.sent|) == Reply(308, None)
    requires AcceptsFrom(net, |w.sent| + 1, ChunkCount(opts))
    ensures var r := StartSpec(opts, md5, net, w, false, false, true, |opts.file|, localIndex);
            r.1 == Resolved && r.0.sent == w.sent + [ProbeRequest(opts)] + Requests(opts, md5, 0, ChunkCount(opts))
  {
    ResumeSkipsValidatedChunks(opts, md5, net, w, localIndex, None, 0);
  }

  /** However `start()` ends, it fulfils only with the meta cleared. */
  lemma ResolvedStartClearsMeta(opts: Options, md5: seq<Byte> -> Checksum, net: Network, w: World, finished: bool,
                                paused: bool, resumable: bool, storedSize: int, localIndex: nat)
    requires opts.chunkSize > 0
    ensures var r := StartSpec(opts, md5, net, w, finished, paused, resumable, storedSize, localIndex);
            r.1 == Resolved ==> r.0.checksums == map[]
  {
  }

  // ---------------------------------------------------------------- sessions

  /** A fresh session whose every reply accepts uploads each chunk once and fulfils; a second
      `start()` is refused with UploadAlreadyFinished and sends nothing. */
  method StartTwice(id: string, url: string, file: seq<Byte>, chunkSize: int, contentType: string, allowSmallChunks: bool,
                    md5: seq<Byte> -> Checksum, net: Network)
    returns (first: Settled, second: Settled, sent: seq<Request>)
    requires CheckOptions(chunkSize, allowSmallChunks, id, url, true).None?
    requires AcceptsFrom(net, 0, TotalChunks(|file|, chunkSize))
    ensures first == Resolved && second == Rejected(UploadAlreadyFinished)
    ensures sent == Requests(Options(id, url, file, chunkSize, contentType), md5, 0, TotalChunks(|file|, chunkSize))
  {
    var session := new Upload(id, url, file, chunkSize, contentType, allowSmallChunks, md5, -1, map[]);
    ghost var start := session.Observed();
    StartFromScratch(session.opts, md5, net, start, false, -1, 0);
    first := session.Start(false, 0, net);
    assert session.sent == Requests(session.opts, md5, 0, TotalChunks(|file|, chunkSize));
    second := session.Start(false, 0, net);
    sent := session.sent;
  }

  /** The 600000-byte file of 262144-byte chunks goes up in three requests; the last covers
      bytes 524288 through 599999. */
  method UploadSixHundredThousandBytes(file: seq<Byte>, md5: seq<Byte> -> Checksum, net: Network)
    returns (settled: Settled, sent: seq<Request>)
    requires |file| == 600000 && AcceptsFrom(net, 0, 3)
    ensures settled == Resolved && |sent| == 3
    ensures "Content-Range" in sent[2].headers && sent[2].headers["Content-Range"] == ContentRange(524288, 599999, 600000)
  {
    ThreeChunks(file);
    var session := new Upload("id", "url", file, 262144, "text/plain", false, md5, -1, map[]);
    StartFromScratch(session.opts, md5, net, session.Observed(), false, -1, 0);
    ChunkRangesTile(session.opts, md5, 2);
    settled := session.Start(false, 0, net);
    sent := session.sent;
  }

  /** `cancel()` pauses the walk and clears the meta without marking the session finished, so
      a later `start()` of a non-empty file waits at the first pause check, having sent
      nothing. */
  method StartAfterCancel(id: string, url: string, file: seq<Byte>, chunkSize: int, contentType: string,
                          allowSmallChunks: bool, md5: seq<Byte> -> Checksum, net: Network,
                          storedChecksums: map<nat, Checksum>)
    returns (settled: Settled, finished: bool, sent: seq<Request>, checksums: map<nat, Checksum>)
    requires CheckOptions(chunkSize, allowSmallChunks, id, url, true).None? && |file| > 0
    ensures settled == Pending && !finished && sent == [] && checksums == map[]
  {
    var session := new Upload(id, url, file, chunkSize, contentType, allowSmallChunks, md5, -1, storedChecksums);
    session.Cancel();
    settled := session.Start(false, 0, net);
    finished, sent, checksums := session.finished, session.sent, session.meta.checksums;
  }
}
