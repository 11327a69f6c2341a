/** What the chunk walker promises: how many chunks a file has and what they hold, which
    indices a walk hands to its handler and in what order, how a `false` result or a thrown
    error ends it, and how the pause check holds and releases it. */
module WalkProperties {
  import opened Prelude
  import opened Errors
  import opened FileProcessing

  lemma MulMono(a: int, b: int, c: nat)
    requires a <= b
    ensures a * c <= b * c
  {
    assert b * c - a * c == (b - a) * c;
  }

  lemma MulCancel(a: int, b: int, c: nat)
    requires a * c < b * c
    ensures a < b
  {
  }

  /** `singleChunk` holds exactly when the file is non-empty and fits in one chunk. */
  lemma SingleChunkIff(size: nat, chunkSize: nat)
    requires chunkSize > 0
    ensures TotalChunks(size, chunkSize) == 1 <==> 0 < size <= chunkSize
  {
    var total := TotalChunks(size, chunkSize);
    if 0 < size <= chunkSize {
      assert (total - 1) * chunkSize < 1 * chunkSize;
      MulCancel(total - 1, 1, chunkSize);
    }
  }

  /** Every chunk before the last is full, the last holds the rest, and no chunk is empty. */
  lemma ChunkLengths(file: seq<Byte>, chunkSize: nat, index: nat)
    requires chunkSize > 0 && index < TotalChunks(|file|, chunkSize)
    ensures index * chunkSize < |file|
    ensures index + 1 < TotalChunks(|file|, chunkSize) ==> |ChunkBytes(file, chunkSize, index)| == chunkSize
    ensures index + 1 == TotalChunks(|file|, chunkSize) ==> |ChunkBytes(file, chunkSize, index)| == |file| - index * chunkSize
    ensures |ChunkBytes(file, chunkSize, index)| > 0
  {
    var total := TotalChunks(|file|, chunkSize);
    MulMono(index, total - 1, chunkSize);
    assert (index + 1) * chunkSize == index * chunkSize + chunkSize;
    if index + 1 < total {
      MulMono(index + 1, total - 1, chunkSize);
    }
  }

  /** A file of 600000 bytes in chunks of 262144 has three chunks of 262144, 262144 and
      75712 bytes. */
  lemma ThreeChunks(file: seq<Byte>)
    requires |file| == 600000
    ensures TotalChunks(|file|, 262144) == 3
    ensures |ChunkBytes(file, 262144, 0)| == 262144
    ensures |ChunkBytes(file, 262144, 1)| == 262144
    ensures |ChunkBytes(file, 262144, 2)| == 75712
  {
  }

  /** The bytes of chunks `0 .. count - 1`, one after another. */
  function Joined(file: seq<Byte>, chunkSize: nat, count: nat): seq<Byte>
  {
    if count == 0 then [] else Joined(file, chunkSize, count - 1) + ChunkBytes(file, chunkSize, count - 1)
  }

  /** Chunk `index` continues the bytes before it up to the end of its range. */
  lemma ChunkExtends(file: seq<Byte>, chunkSize: nat, index: nat)
    requires chunkSize > 0 && index < TotalChunks(|file|, chunkSize)
    ensures index * chunkSize < |file|
    ensures file[..index * chunkSize] + ChunkBytes(file, chunkSize, index) == file[..Min((index + 1) * chunkSize, |file|)]
  {
    var from := index * chunkSize;
    MulMono(index, TotalChunks(|file|, chunkSize) - 1, chunkSize);
    assert from < |file|;
    assert (index + 1) * chunkSize == from + chunkSize;
    var upTo := Min(from + chunkSize, |file|);
    assert ChunkBytes(file, chunkSize, index) == file[from..upTo];
    assert file[..from] + file[from..upTo] == file[..upTo];
  }

  lemma {:induction false} JoinedIsPrefix(file: seq<Byte>, chunkSize: nat, count: nat)
    requires chunkSize > 0 && count <= TotalChunks(|file|, chunkSize)
    ensures Joined(file, chunkSize, count) == file[..Min(count * chunkSize, |file|)]
  {
    if count > 0 {
      JoinedIsPrefix(file, chunkSize, count - 1);
      ChunkExtends(file, chunkSize, count - 1);
    }
  }

  /** The chunks cover the file exactly: laid end to end they give back every byte. */
  lemma ChunksTileFile(file: seq<Byte>, chunkSize: nat)
    requires chunkSize > 0
    ensures Joined(file, chunkSize, TotalChunks(|file|, chunkSize)) == file
  {
    JoinedIsPrefix(file, chunkSize, TotalChunks(|file|, chunkSize));
  }

  /** A walk hands over consecutive indices from its start, each with that index's chunk and
      checksum. */
  lemma {:induction false} WalkIndices<S>(src: Source, h: (S, Chunk) -> (S, Outcome), s: S, index: nat,
                                          endIndex: Option<nat>, paused: bool, check: bool)
    requires src.chunkSize > 0 && Halts(index, Total(src), endIndex)
    ensures forall j :: 0 <= j < |Walk(src, h, s, index, endIndex, paused, check).calls| ==>
              Walk(src, h, s, index, endIndex, paused, check).calls[j] == ChunkFor(src, index + j)
    decreases StopIndex(index, Total(src), endIndex) - index
  {
    if !AtEnd(index, Total(src), endIndex) && !(check && paused) {
      var chunk := ChunkFor(src, index);
      var (next, outcome) := h(s, chunk);
      WalkVisit(src, h, s, index, endIndex, paused, check, next, outcome);
      if outcome.Continue? {
        StopIndexStep(index, Total(src), endIndex);
        WalkIndices(src, h, next, index + 1, endIndex, paused, true);
        var rest := Walk(src, h, next, index + 1, endIndex, paused, true).calls;
        forall j | 0 <= j < 1 + |rest|
          ensures ([chunk] + rest)[j] == ChunkFor(src, index + j)
        {
          if j > 0 {
            assert ([chunk] + rest)[j] == rest[j - 1];
          }
        }
      }
    }
  }

  /** A walk never reaches its stopping index while handing over chunks. It completes exactly
      at the stopping index, it waits only while paused and at the index after the last one
      handled, and a stop or a thrown error comes from a handler call. */
  lemma {:induction false} WalkEnds<S>(src: Source, h: (S, Chunk) -> (S, Outcome), s: S, index: nat,
                                       endIndex: Option<nat>, paused: bool, check: bool)
    requires src.chunkSize > 0 && Halts(index, Total(src), endIndex)
    ensures var w := Walk(src, h, s, index, endIndex, paused, check);
            var stop := StopIndex(index, Total(src), endIndex);
            && index + |w.calls| <= stop
            && (w.ending == Completed ==> index + |w.calls| == stop)
            && (w.ending.Suspended? ==> paused && w.ending.index == index + |w.calls| < stop)
            && (w.ending.Stopped? || w.ending.Failed? ==> |w.calls| > 0)
    decreases StopIndex(index, Total(src), endIndex) - index
  {
    if !AtEnd(index, Total(src), endIndex) && !(check && paused) {
      var (next, outcome) := h(s, ChunkFor(src, index));
      WalkVisit(src, h, s, index, endIndex, paused, check, next, outcome);
      if outcome.Continue? {
        StopIndexStep(index, Total(src), endIndex);
        WalkEnds(src, h, next, index + 1, endIndex, paused, true);
      }
    }
  }

  /** Both of the above. */
  lemma WalkCalls<S>(src: Source, h: (S, Chunk) -> (S, Outcome), s: S, index: nat,
                     endIndex: Option<nat>, paused: bool, check: bool)
    requires src.chunkSize > 0 && Halts(index, Total(src), endIndex)
    ensures var w := Walk(src, h, s, index, endIndex, paused, check);
            var stop := StopIndex(index, Total(src), endIndex);
            && (forall j :: 0 <= j < |w.calls| ==> w.calls[j] == ChunkFor(src, index + j))
            && index + |w.calls| <= stop
            && (w.ending == Completed ==> index + |w.calls| == stop)
            && (w.ending.Suspended? ==> paused && w.ending.index == index + |w.calls| < stop)
            && (w.ending.Stopped? || w.ending.Failed? ==> |w.calls| > 0)
  {
    WalkIndices(src, h, s, index, endIndex, paused, check);
    WalkEnds(src, h, s, index, endIndex, paused, check);
  }

  /** What a walk hands over at a position depends only on the index it names. */
  lemma ChunkOfIndex<S>(src: Source, h: (S, Chunk) -> (S, Outcome), s: S, index: nat,
                        endIndex: Option<nat>, paused: bool, check: bool, j: nat)
    requires src.chunkSize > 0 && Halts(index, Total(src), endIndex)
    requires j < |Walk(src, h, s, index, endIndex, paused, check).calls|
    ensures Walk(src, h, s, index, endIndex, paused, check).calls[j]
         == ChunkFor(src, Walk(src, h, s, index, endIndex, paused, check).calls[j].index)
  {
    WalkIndices(src, h, s, index, endIndex, paused, check);
  }

  /** Identical bytes give identical checksums at every index, whatever run they come from
      and whichever index that run started at. */
  lemma ChecksumsAgreeAcrossRuns<S, T>(src: Source,
                                       h1: (S, Chunk) -> (S, Outcome), s1: S, start1: nat, end1: Option<nat>, p1: bool, c1: bool,
                                       h2: (T, Chunk) -> (T, Outcome), s2: T, start2: nat, end2: Option<nat>, p2: bool, c2: bool,
                                       j1: nat, j2: nat)
    requires src.chunkSize > 0
    requires Halts(start1, Total(src), end1) && Halts(start2, Total(src), end2)
    requires j1 < |Walk(src, h1, s1, start1, end1, p1, c1).calls|
    requires j2 < |Walk(src, h2, s2, start2, end2, p2, c2).calls|
    requires Walk(src, h1, s1, start1, end1, p1, c1).calls[j1].index == Walk(src, h2, s2, start2, end2, p2, c2).calls[j2].index
    ensures Walk(src, h1, s1, start1, end1, p1, c1).calls[j1] == Walk(src, h2, s2, start2, end2, p2, c2).calls[j2]
    ensures Walk(src, h1, s1, start1, end1, p1, c1).calls[j1].checksum
         == src.md5(ChunkBytes(src.file, src.chunkSize, Walk(src, h1, s1, start1, end1, p1, c1).calls[j1].index))
  {
    ChunkOfIndex(src, h1, s1, start1, end1, p1, c1, j1);
    ChunkOfIndex(src, h2, s2, start2, end2, p2, c2, j2);
  }

  /** A scripted handler's state counts the calls. */
  lemma {:induction false} ScriptCounts(src: Source, outcomes: seq<Outcome>, n: nat, index: nat,
                                        endIndex: Option<nat>, paused: bool, check: bool)
    requires src.chunkSize > 0 && Halts(index, Total(src), endIndex)
    ensures var w := Walk<nat>(src, Script(outcomes), n, index, endIndex, paused, check);
            w.state == n + |w.calls|
    decreases StopIndex(index, Total(src), endIndex) - index
  {
    if !AtEnd(index, Total(src), endIndex) && !(check && paused) {
      ScriptDeliver(src, outcomes, [], n, index, endIndex, paused, check);
      if OutcomeAt(outcomes, n).Continue? {
        ScriptCounts(src, outcomes, n + 1, index + 1, endIndex, paused, true);
      }
    }
  }

  /** With no `false` and no error among the results, an unpaused walk calls the handler once
      for every index from its start up to its stopping index, and completes. */
  lemma {:induction false} ScriptCompletes(src: Source, outcomes: seq<Outcome>, n: nat, index: nat,
                                           endIndex: Option<nat>, check: bool)
    requires src.chunkSize > 0 && Halts(index, Total(src), endIndex)
    requires forall k :: n <= k < n + (StopIndex(index, Total(src), endIndex) - index) ==> OutcomeAt(outcomes, k) == Continue
    ensures var w := Walk<nat>(src, Script(outcomes), n, index, endIndex, false, check);
            w.ending == Completed && |w.calls| == StopIndex(index, Total(src), endIndex) - index
    decreases StopIndex(index, Total(src), endIndex) - index
  {
    if !AtEnd(index, Total(src), endIndex) {
      ScriptDeliver(src, outcomes, [], n, index, endIndex, false, check);
      StopIndexStep(index, Total(src), endIndex);
      ScriptCompletes(src, outcomes, n + 1, index + 1, endIndex, true);
    }
  }

  /** When the `m`-th result of an unpaused walk is `false` or an error and the earlier ones
      are not, the walk makes exactly `m + 1` calls, the last at index `index + m`: no later
      index is handled, and the walk ends Stopped or Failed with that error. */
  lemma {:induction false} ScriptHaltsAt(src: Source, outcomes: seq<Outcome>, n: nat, index: nat,
                                         endIndex: Option<nat>, check: bool, m: nat)
    requires src.chunkSize > 0 && Halts(index, Total(src), endIndex)
    requires index + m < StopIndex(index, Total(src), endIndex)
    requires forall k :: n <= k < n + m ==> OutcomeAt(outcomes, k) == Continue
    requires OutcomeAt(outcomes, n + m) != Continue
    ensures var w := Walk<nat>(src, Script(outcomes), n, index, endIndex, false, check);
            && |w.calls| == m + 1
            && w.calls[m].index == index + m
            && w.ending == (if OutcomeAt(outcomes, n + m) == Stop then Stopped else Failed(OutcomeAt(outcomes, n + m).error))
    decreases m
  {
    assert !AtEnd(index, Total(src), endIndex);
    var w := Walk<nat>(src, Script(outcomes), n, index, endIndex, false, check);
    var chunk := ChunkFor(src, index);
    WalkVisit<nat>(src, Script(outcomes), n, index, endIndex, false, check, n + 1, OutcomeAt(outcomes, n));
    if m > 0 {
      assert OutcomeAt(outcomes, n) == Continue;
      StopIndexStep(index, Total(src), endIndex);
      ScriptHaltsAt(src, outcomes, n + 1, index + 1, endIndex, true, m - 1);
      var rest := Walk<nat>(src, Script(outcomes), n + 1, index + 1, endIndex, false, true);
      assert w == Prepend([chunk], rest);
      assert ([chunk] + rest.calls)[m] == rest.calls[m - 1];
    } else if OutcomeAt(outcomes, n) == Stop {
      assert w == Walked(n + 1, [chunk], Stopped);
    } else {
      assert w == Walked(n + 1, [chunk], Failed(OutcomeAt(outcomes, n).error));
    }
  }

  /** `run(fn)` with no `false` and no error calls the handler `ceil(size / chunkSize)`
      times, on indices 0, 1, 2, ... in order; `run(fn, 0, 0)` calls it never. */
  lemma UnrestrictedRun(src: Source, outcomes: seq<Outcome>)
    requires src.chunkSize > 0
    requires forall k :: 0 <= k < Total(src) ==> OutcomeAt(outcomes, k) == Continue
    ensures var w := Walk<nat>(src, Script(outcomes), 0, 0, None, false, true);
            && w.ending == Completed
            && |w.calls| == TotalChunks(|src.file|, src.chunkSize)
            && forall j :: 0 <= j < |w.calls| ==> w.calls[j].index == j
    ensures Walk<nat>(src, Script(outcomes), 0, 0, Some(0), false, true) == Walked(0, [], Completed)
  {
    ScriptCompletes(src, outcomes, 0, 0, None, true);
    WalkCalls<nat>(src, Script(outcomes), 0, 0, None, false, true);
  }

  /** A property `inv` of the handler's state and the next index that every handler call on
      the way keeps, with a Continue, holds when an unpaused walk completes at its stopping
      index. */
  lemma {:induction false} WalkKeeps<S>(src: Source, h: (S, Chunk) -> (S, Outcome), inv: (S, nat) -> bool, s: S,
                                        index: nat, endIndex: Option<nat>, check: bool)
    requires src.chunkSize > 0 && Halts(index, Total(src), endIndex)
    requires inv(s, index)
    requires forall t: S, i: nat :: index <= i < StopIndex(index, Total(src), endIndex) && inv(t, i)
               ==> h(t, ChunkFor(src, i)).1 == Continue && inv(h(t, ChunkFor(src, i)).0, i + 1)
    ensures var w := Walk(src, h, s, index, endIndex, false, check);
            w.ending == Completed && inv(w.state, StopIndex(index, Total(src), endIndex))
    decreases StopIndex(index, Total(src), endIndex) - index
  {
    if !AtEnd(index, Total(src), endIndex) {
      var chunk := ChunkFor(src, index);
      var (next, outcome) := h(s, chunk);
      WalkVisit(src, h, s, index, endIndex, false, check, next, outcome);
      StopIndexStep(index, Total(src), endIndex);
      WalkKeeps(src, h, inv, next, index + 1, endIndex, true);
    }
  }

  /** A property `inv` that every handler call before index `m` keeps, with a Continue, and
      on which the call at `m` fails with `e` and leaves a state satisfying `post`: an
      unpaused walk then fails with `e` at `m`, in a state satisfying `post`. */
  lemma {:induction false} WalkFailsAt<S>(src: Source, h: (S, Chunk) -> (S, Outcome), inv: (S, nat) -> bool,
                                          post: S -> bool, e: UploadError, s: S, index: nat, endIndex: Option<nat>,
                                          check: bool, m: nat)
    requires src.chunkSize > 0 && Halts(index, Total(src), endIndex)
    requires index <= m < StopIndex(index, Total(src), endIndex)
    requires inv(s, index)
    requires forall t: S, i: nat :: index <= i < m && inv(t, i)
               ==> h(t, ChunkFor(src, i)).1 == Continue && inv(h(t, ChunkFor(src, i)).0, i + 1)
    requires forall t: S :: inv(t, m) ==> h(t, ChunkFor(src, m)).1 == Fail(e) && post(h(t, ChunkFor(src, m)).0)
    ensures var w := Walk(src, h, s, index, endIndex, false, check);
            w.ending == Failed(e) && post(w.state)
    decreases m - index
  {
    var chunk := ChunkFor(src, index);
    var (next, outcome) := h(s, chunk);
    WalkVisit(src, h, s, index, endIndex, false, check, next, outcome);
    if index < m {
      StopIndexStep(index, Total(src), endIndex);
      WalkFailsAt(src, h, inv, post, e, next, index + 1, endIndex, true, m);
    }
  }

  /** A paused walk waits at its first check, before reading anything. */
  lemma PausedWalkWaits<S>(src: Source, h: (S, Chunk) -> (S, Outcome), s: S, index: nat, endIndex: Option<nat>)
    requires src.chunkSize > 0 && Halts(index, Total(src), endIndex)
    requires !AtEnd(index, Total(src), endIndex)
    ensures Walk(src, h, s, index, endIndex, true, true) == Walked(s, [], Suspended(index))
  {
  }

  /** A walk let through by its waiter handles the index it waited at even when the flag is
      set again, and waits at the pause check of the next index. */
  lemma ReleasedWalkTakesOneIndex<S>(src: Source, h: (S, Chunk) -> (S, Outcome), s: S, index: nat, endIndex: Option<nat>)
    requires src.chunkSize > 0 && Halts(index, Total(src), endIndex)
    requires !AtEnd(index, Total(src), endIndex)
    requires h(s, ChunkFor(src, index)).1 == Continue
    requires !AtEnd(index + 1, Total(src), endIndex)
    ensures Halts(index + 1, Total(src), endIndex)
    ensures Walk(src, h, s, index, endIndex, true, false)
         == Walked(h(s, ChunkFor(src, index)).0, [ChunkFor(src, index)], Suspended(index + 1))
  {
    WalkVisit(src, h, s, index, endIndex, true, false, h(s, ChunkFor(src, index)).0, h(s, ChunkFor(src, index)).1);
  }

  /** Pausing and unpausing before a run leaves the run exactly as if neither had happened. */
  method PauseUnpauseThenRun(file: seq<Byte>, chunkSize: nat, md5: seq<Byte> -> Checksum, outcomes: seq<Outcome>)
    returns (calls: seq<Chunk>, ending: Ending)
    requires chunkSize > 0
    ensures Walked(|calls|, calls, ending) == Walk(Source(file, chunkSize, md5), Script(outcomes), 0, 0, None, false, true)
    ensures !ending.Suspended?
  {
    var processor := new FileProcessor(file, chunkSize, md5);
    processor.Pause();
    var invoked := processor.Unpause();
    var resume;
    calls, ending, resume := processor.Run(outcomes, 0, None);
    WalkCalls<nat>(processor.Src(), Script(outcomes), 0, 0, None, false, true);
  }

  /** The pause check is an `if`: a run started while paused waits at its first index; after
      `unpause` invokes its waiter, the walk goes on at that index even though the flag has
      been set again meanwhile, and waits once more at the next index. */
  method PauseCheckIsAnIf(file: seq<Byte>, chunkSize: nat, md5: seq<Byte> -> Checksum)
    returns (first: Ending, invoked: seq<Waiter>, calls: seq<Chunk>, second: Ending)
    requires chunkSize > 0 && |file| > chunkSize
    ensures first == Suspended(0)
    ensures |invoked| == 1
    ensures calls == [ChunkFor(Source(file, chunkSize, md5), 0)]
    ensures second == Suspended(1)
  {
    var processor := new FileProcessor(file, chunkSize, md5);
    var src := processor.Src();
    SingleChunkIff(|file|, chunkSize);
    assert Total(src) >= 2;
    processor.Pause();
    var none, k;
    none, first, k := processor.Run([], 0, None);
    invoked := processor.Unpause();
    processor.Pause();
    var later;
    calls, second, later := processor.Resume(k.value, []);
    ReleasedWalkTakesOneIndex<nat>(src, Script([]), 0, 0, None);
  }
}
