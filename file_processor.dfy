/** The chunk walker of src/FileProcessor.js: it splits a byte source into chunks of
    `chunkSize` bytes, walks chunk indices from a start index to the first index equal to
    the chunk count or to the end index, hands each chunk and its checksum to a handler,
    and stops at a handler result of `false` or at a thrown error. A `paused` flag and a
    list of waiters suspend the walk at the boundary between chunks.

    The asynchronous walk is modelled sequentially: a walk that meets the paused flag at
    its check registers a waiter and returns; once `Unpause` has released that waiter,
    `Resume` carries on from the same index. */
module FileProcessing {
  import opened Prelude
  import opened Errors

  /** `Math.ceil(size / chunkSize)`: the number of chunks that cover `size` bytes. */
  function TotalChunks(size: nat, chunkSize: nat): (total: nat)
    requires chunkSize > 0
    ensures total * chunkSize >= size
    ensures total > 0 ==> (total - 1) * chunkSize < size
    ensures total == 0 <==> size == 0
  {
    (size + chunkSize - 1) / chunkSize
  }

  /** The bytes `file.slice(start, start + chunkSize)` yields for chunk `index`; a slice
      is clamped to the end of the file. */
  function ChunkBytes(file: seq<Byte>, chunkSize: nat, index: nat): (bytes: seq<Byte>)
    ensures |bytes| == if index * chunkSize >= |file| then 0 else Min(chunkSize, |file| - index * chunkSize)
    ensures forall k :: 0 <= k < |bytes| ==> bytes[k] == file[index * chunkSize + k]
  {
    var start := Min(index * chunkSize, |file|);
    var stop := Min(index * chunkSize + chunkSize, |file|);
    file[start..stop]
  }

  /** The file, its chunk size and the digest function of the checksum library (MD5,
      left uninterpreted: any function of the bytes). */
  datatype Source = Source(file: seq<Byte>, chunkSize: nat, md5: seq<Byte> -> Checksum)

  /** `TotalChunks` of a source's file and chunk size: `totalChunks` in `run`. */
  function Total(src: Source): nat
    requires src.chunkSize > 0
  {
    TotalChunks(|src.file|, src.chunkSize)
  }

  /** The four arguments a handler receives: `fn(checksum, index, chunk, singleChunk)`. */
  datatype Chunk = Chunk(checksum: Checksum, index: nat, bytes: seq<Byte>, singleChunk: bool)

  /** What the handler's promise settles to: `false` (Stop), a thrown error (Fail), or any
      other value, `undefined` included (Continue). */
  datatype Outcome = Continue | Stop | Fail(error: UploadError)

  /** How a walk ended: it reached its last index, the handler stopped it, the handler
      threw, or it is waiting at the pause check of `index`. */
  datatype Ending = Completed | Stopped | Failed(error: UploadError) | Suspended(index: nat)

  /** The handler's final state, the chunks handed to the handler in order, and the ending. */
  datatype Walked<S> = Walked(state: S, calls: seq<Chunk>, ending: Ending)

  /** The chunk handed over at `index`. Every checksum is the digest of that chunk's bytes
      alone: the accumulator is fresh for each run and `end()` empties it after every chunk. */
  function ChunkFor(src: Source, index: nat): (chunk: Chunk)
    requires src.chunkSize > 0
    ensures chunk.index == index && chunk.bytes == ChunkBytes(src.file, src.chunkSize, index)
    ensures chunk.checksum == src.md5(chunk.bytes)
    ensures chunk.singleChunk <==> Total(src) == 1
  {
    var bytes := ChunkBytes(src.file, src.chunkSize, index);
    Chunk(src.md5(bytes), index, bytes, Total(src) == 1)
  }

  /** The walk's stopping test: `index === totalChunks || index === endIndex`. */
  predicate AtEnd(index: nat, total: nat, endIndex: Option<nat>)
  {
    index == total || endIndex == Some(index)
  }

  /** The stopping test is an equality, so a walk stops only if it starts at or below one
      of the two bounds. */
  predicate Halts(index: nat, total: nat, endIndex: Option<nat>)
  {
    index <= total || (endIndex.Some? && index <= endIndex.value)
  }

  /** The first index at or after `index` where the walk stops. */
  function StopIndex(index: nat, total: nat, endIndex: Option<nat>): (stop: nat)
    requires Halts(index, total, endIndex)
    ensures index <= stop && AtEnd(stop, total, endIndex)
    ensures forall j :: index <= j < stop ==> !AtEnd(j, total, endIndex)
  {
    if endIndex.Some? && index <= endIndex.value && (endIndex.value < total || total < index)
    then endIndex.value
    else total
  }

  lemma StopIndexStep(index: nat, total: nat, endIndex: Option<nat>)
    requires Halts(index, total, endIndex) && !AtEnd(index, total, endIndex)
    ensures Halts(index + 1, total, endIndex)
    ensures StopIndex(index + 1, total, endIndex) == StopIndex(index, total, endIndex)
  {
    var stop := StopIndex(index, total, endIndex);
    var next := StopIndex(index + 1, total, endIndex);
    assert index + 1 <= stop;
    if next < stop {
      assert index <= next < stop && AtEnd(next, total, endIndex);
    } else if stop < next {
      assert index + 1 <= stop < next && AtEnd(stop, total, endIndex);
    }
  }

  /** The walk `processIndex(index)` performs with handler `h` threading state `s`. At every
      index the stopping test comes first; then, when `check` holds, the pause check (an
      `if`, so a walk let through proceeds without looking again); then the chunk is read,
      its checksum computed, and the handler called. Only a Continue moves on, and every
      later index is checked for the pause. */
  function Walk<S>(src: Source, h: (S, Chunk) -> (S, Outcome), s: S, index: nat, endIndex: Option<nat>,
                   paused: bool, check: bool): Walked<S>
    requires src.chunkSize > 0
    requires Halts(index, Total(src), endIndex)
    decreases StopIndex(index, Total(src), endIndex) - index
  {
    if AtEnd(index, Total(src), endIndex) then Walked(s, [], Completed)
    else if check && paused then Walked(s, [], Suspended(index))
    else
      var chunk := ChunkFor(src, index);
      var (next, outcome) := h(s, chunk);
      match outcome
      case Stop => Walked(next, [chunk], Stopped)
      case Fail(e) => Walked(next, [chunk], Failed(e))
      case Continue =>
        StopIndexStep(index, Total(src), endIndex);
        var rest := Walk(src, h, next, index + 1, endIndex, paused, true);
        Walked(rest.state, [chunk] + rest.calls, rest.ending)
  }

  function Prepend<S>(calls: seq<Chunk>, w: Walked<S>): Walked<S>
  {
    Walked(w.state, calls + w.calls, w.ending)
  }

  lemma PrependTwice<S>(a: seq<Chunk>, b: seq<Chunk>, w: Walked<S>)
    ensures Prepend(a, Prepend(b, w)) == Prepend(a + b, w)
  {
    assert a + (b + w.calls) == (a + b) + w.calls;
  }

  /** A visit of the last index, or of one held by the pause check, hands nothing over. */
  lemma WalkHolds<S>(src: Source, h: (S, Chunk) -> (S, Outcome), s: S, index: nat, endIndex: Option<nat>,
                     paused: bool, check: bool)
    requires src.chunkSize > 0 && Halts(index, Total(src), endIndex)
    requires AtEnd(index, Total(src), endIndex) || (check && paused)
    ensures Walk(src, h, s, index, endIndex, paused, check)
         == Walked(s, [], if AtEnd(index, Total(src), endIndex) then Completed else Suspended(index))
  {
  }

  /** One visit of an index that is neither the last nor held by the pause check, with the
      handler's result given. */
  lemma WalkVisit<S>(src: Source, h: (S, Chunk) -> (S, Outcome), s: S, index: nat, endIndex: Option<nat>,
                     paused: bool, check: bool, next: S, outcome: Outcome)
    requires src.chunkSize > 0
    requires Halts(index, Total(src), endIndex) && !AtEnd(index, Total(src), endIndex)
    requires !(check && paused) && h(s, ChunkFor(src, index)) == (next, outcome)
    ensures Halts(index + 1, Total(src), endIndex)
    ensures outcome.Stop? ==> Walk(src, h, s, index, endIndex, paused, check) == Walked(next, [ChunkFor(src, index)], Stopped)
    ensures outcome.Fail? ==> Walk(src, h, s, index, endIndex, paused, check) == Walked(next, [ChunkFor(src, index)], Failed(outcome.error))
    ensures outcome.Continue? ==> Walk(src, h, s, index, endIndex, paused, check)
                                  == Prepend([ChunkFor(src, index)], Walk(src, h, next, index + 1, endIndex, paused, true))
  {
    StopIndexStep(index, Total(src), endIndex);
  }

  /** The handler's result for its `n`-th call; a script that has run out reads as `undefined`. */
  function OutcomeAt(outcomes: seq<Outcome>, n: nat): Outcome
  {
    if n < |outcomes| then outcomes[n] else Continue
  }

  /** A handler whose results are given in advance; its state counts the calls made. */
  function Script(outcomes: seq<Outcome>): (nat, Chunk) -> (nat, Outcome)
  {
    (n: nat, chunk: Chunk) => (n + 1, OutcomeAt(outcomes, n))
  }

  /** One visit of a scripted walk, followed by the walk that continues from there. */
  lemma ScriptDeliver(src: Source, outcomes: seq<Outcome>, calls: seq<Chunk>, n: nat, index: nat,
                      endIndex: Option<nat>, paused: bool, check: bool)
    requires src.chunkSize > 0
    requires Halts(index, Total(src), endIndex) && !AtEnd(index, Total(src), endIndex)
    requires !(check && paused)
    ensures Halts(index + 1, Total(src), endIndex)
    ensures var w := Prepend(calls, Walk<nat>(src, Script(outcomes), n, index, endIndex, paused, check));
            var calls' := calls + [ChunkFor(src, index)];
            match OutcomeAt(outcomes, n)
            case Stop => w == Walked(n + 1, calls', Stopped)
            case Fail(e) => w == Walked(n + 1, calls', Failed(e))
            case Continue => w == Prepend(calls', Walk<nat>(src, Script(outcomes), n + 1, index + 1, endIndex, paused, true))
  {
    var chunk := ChunkFor(src, index);
    assert Script(outcomes)(n, chunk) == (n + 1, OutcomeAt(outcomes, n));
    WalkVisit<nat>(src, Script(outcomes), n, index, endIndex, paused, check, n + 1, OutcomeAt(outcomes, n));
    PrependTwice(calls, [chunk], Walk<nat>(src, Script(outcomes), n + 1, index + 1, endIndex, paused, true));
  }

  /** The digest accumulator (`new SparkMD5.ArrayBuffer()`). `End` returns the digest of the
      bytes appended since the last reset and resets the accumulator, as the library's
      `end()` does. */
  class Spark {
    const md5: seq<Byte> -> Checksum
    var buffer: seq<Byte>

    constructor (md5: seq<Byte> -> Checksum)
      ensures this.md5 == md5 && buffer == []
    {
      this.md5 := md5;
      buffer := [];
    }

    method Append(chunk: seq<Byte>)
      modifies this
      ensures buffer == old(buffer) + chunk
    {
      buffer := buffer + chunk;
    }

    method End() returns (checksum: Checksum)
      modifies this
      ensures checksum == md5(old(buffer)) && buffer == []
    {
      checksum := md5(buffer);
      buffer := [];
    }
  }

  /** `getChecksum(spark, chunk)`: append the chunk, then end. */
  method GetChecksum(spark: Spark, chunk: seq<Byte>) returns (checksum: Checksum)
    modifies spark
    ensures checksum == spark.md5(old(spark.buffer) + chunk) && spark.buffer == []
  {
    spark.Append(chunk);
    checksum := spark.End();
  }

  /** A waiter: the `resolve` function of a promise awaiting `unpause`, known by a number. */
  type Waiter = nat

  /** What one visit of an index yields: the walk is over, it waits for `unpause`, or it
      hands this chunk to the handler. */
  datatype Step = Finished | Waiting(waiter: Waiter) | Deliver(chunk: Chunk)

  /** Everything a suspended walk needs to carry on: its accumulator, the index whose pause
      check it is waiting at, its end index, its waiter, and how many handler calls it made. */
  datatype Continuation = Continuation(spark: Spark, index: nat, endIndex: Option<nat>, waiter: Waiter, handled: nat)

  class FileProcessor {
    const file: seq<Byte>
    const chunkSize: nat
    const md5: seq<Byte> -> Checksum
    var paused: bool
    var unpauseHandlers: seq<Waiter>
    var nextWaiter: nat
    /** Every waiter `unpause` has invoked so far, in order. */
    ghost var released: seq<Waiter>

    /** A waiter is registered at most once and invoked at most once. */
    ghost predicate Valid()
      reads this
    {
      chunkSize > 0 &&
      Distinct(released + unpauseHandlers) &&
      forall w :: w in released + unpauseHandlers ==> w < nextWaiter
    }

    function Src(): Source
    {
      Source(file, chunkSize, md5)
    }

    constructor (file: seq<Byte>, chunkSize: nat, md5: seq<Byte> -> Checksum)
      requires chunkSize > 0
      ensures Valid()
      ensures this.file == file && this.chunkSize == chunkSize && this.md5 == md5
      ensures !paused && unpauseHandlers == [] && released == []
    {
      this.file := file;
      this.chunkSize := chunkSize;
      this.md5 := md5;
      paused := false;
      unpauseHandlers := [];
      nextWaiter := 0;
      released := [];
    }

    method Pause()
      modifies this`paused
      ensures paused
    {
      paused := true;
    }

    /** Clears the flag and invokes every waiter registered now, each once, in order of
        registration; waiters registered later wait for the next call. */
    method Unpause() returns (invoked: seq<Waiter>)
      requires Valid()
      modifies this`paused, this`unpauseHandlers, this`released
      ensures Valid()
      ensures !paused && unpauseHandlers == []
      ensures invoked == old(unpauseHandlers) && released == old(released) + invoked
    {
      paused := false;
      invoked := unpauseHandlers;
      released := released + unpauseHandlers;
      unpauseHandlers := [];
      assert released + unpauseHandlers == old(released) + old(unpauseHandlers);
    }

    /** `waitForUnpause`: registers a new waiter. */
    method WaitForUnpause() returns (w: Waiter)
      requires Valid()
      modifies this`unpauseHandlers, this`nextWaiter
      ensures Valid()
      ensures w == old(nextWaiter) && w !in released + old(unpauseHandlers)
      ensures unpauseHandlers == old(unpauseHandlers) + [w] && nextWaiter == w + 1
    {
      w := nextWaiter;
      assert forall v :: v in released + unpauseHandlers ==> v < w;
      DistinctAppend(released + unpauseHandlers, w);
      unpauseHandlers := unpauseHandlers + [w];
      nextWaiter := nextWaiter + 1;
      assert released + unpauseHandlers == (released + old(unpauseHandlers)) + [w];
    }

    /** One visit of `index`: the stopping test, the pause check when `check` holds, then
        reading the chunk and computing its checksum with `spark`. */
    method Next(spark: Spark, index: nat, endIndex: Option<nat>, check: bool) returns (step: Step)
      requires Valid() && spark.md5 == md5 && spark.buffer == []
      modifies this`unpauseHandlers, this`nextWaiter, spark
      ensures Valid() && spark.buffer == []
      ensures AtEnd(index, Total(Src()), endIndex) ==> step == Finished
      ensures !AtEnd(index, Total(Src()), endIndex) && check && paused ==> step == Waiting(old(nextWaiter))
      ensures !AtEnd(index, Total(Src()), endIndex) && !(check && paused) ==> step == Deliver(ChunkFor(Src(), index))
      ensures step.Waiting? ==> unpauseHandlers == old(unpauseHandlers) + [step.waiter] && nextWaiter == step.waiter + 1
      ensures !step.Waiting? ==> unpauseHandlers == old(unpauseHandlers) && nextWaiter == old(nextWaiter)
    {
      if AtEnd(index, TotalChunks(|file|, chunkSize), endIndex) {
        return Finished;
      }
      if check && paused {
        var w := WaitForUnpause();
        return Waiting(w);
      }
      var start := index * chunkSize;
      var bytes := file[Min(start, |file|)..Min(start + chunkSize, |file|)];
      var checksum := GetChecksum(spark, bytes);
      assert [] + bytes == bytes;
      step := Deliver(Chunk(checksum, index, bytes, TotalChunks(|file|, chunkSize) == 1));
    }

    /** One pass through the body of `processIndex` with the scripted handler: the visit of
        `index` and, when a chunk is handed over, the handler's `n`-th outcome. */
    method Visit(spark: Spark, index: nat, endIndex: Option<nat>, outcomes: seq<Outcome>, n: nat, check: bool)
      returns (step: Step, outcome: Outcome)
      requires Valid() && spark.md5 == md5 && spark.buffer == []
      requires Halts(index, Total(Src()), endIndex)
      modifies this`unpauseHandlers, this`nextWaiter, spark
      ensures Valid() && spark.buffer == []
      ensures step.Waiting? ==> unpauseHandlers == old(unpauseHandlers) + [old(nextWaiter)] && nextWaiter == old(nextWaiter) + 1
      ensures !step.Waiting? ==> unpauseHandlers == old(unpauseHandlers) && nextWaiter == old(nextWaiter)
      ensures !step.Deliver? ==>
                Walk<nat>(Src(), Script(outcomes), n, index, endIndex, paused, check)
                == Walked(n, [], if step.Finished? then Completed else Suspended(index))
      ensures step.Deliver? ==>
                Halts(index + 1, Total(Src()), endIndex) &&
                StopIndex(index + 1, Total(Src()), endIndex) == StopIndex(index, Total(Src()), endIndex) &&
                step.chunk == ChunkFor(Src(), index) && outcome == OutcomeAt(outcomes, n)
      ensures step.Deliver? ==>
                var w := Walk<nat>(Src(), Script(outcomes), n, index, endIndex, paused, check);
                match outcome
                case Stop => w == Walked(n + 1, [step.chunk], Stopped)
                case Fail(e) => w == Walked(n + 1, [step.chunk], Failed(e))
                case Continue => w == Prepend([step.chunk], Walk<nat>(Src(), Script(outcomes), n + 1, index + 1, endIndex, paused, true))
    {
      step := Next(spark, index, endIndex, check);
      outcome := OutcomeAt(outcomes, n);
      if !step.Deliver? {
        WalkHolds(Src(), Script(outcomes), n, index, endIndex, paused, check);
      } else {
        ScriptDeliver(Src(), outcomes, [], n, index, endIndex, paused, check);
        StopIndexStep(index, Total(Src()), endIndex);
      }
    }

    /** `processIndex(index)`: visit `index` and, when the handler lets it, carry on at the
        next index, with the handler's results scripted by `outcomes`, of which `handled`
        have been used. */
    method Drive(spark: Spark, index: nat, endIndex: Option<nat>, outcomes: seq<Outcome>, handled: nat, check: bool)
      returns (calls: seq<Chunk>, ending: Ending)
      requires Valid() && spark.md5 == md5 && spark.buffer == []
      requires Halts(index, Total(Src()), endIndex)
      modifies this`unpauseHandlers, this`nextWaiter, spark
      ensures Valid() && spark.buffer == []
      ensures Walked(handled + |calls|, calls, ending) == Walk(Src(), Script(outcomes), handled, index, endIndex, paused, check)
      ensures ending.Suspended? ==> unpauseHandlers == old(unpauseHandlers) + [old(nextWaiter)] && nextWaiter == old(nextWaiter) + 1
      ensures !ending.Suspended? ==> unpauseHandlers == old(unpauseHandlers) && nextWaiter == old(nextWaiter)
      decreases StopIndex(index, Total(Src()), endIndex) - index
    {
      var step, outcome := Visit(spark, index, endIndex, outcomes, handled, check);
      if !step.Deliver? {
        calls, ending := [], if step.Finished? then Completed else Suspended(index);
      } else if !outcome.Continue? {
        calls, ending := [step.chunk], if outcome.Stop? then Stopped else Failed(outcome.error);
      } else {
        var rest;
        rest, ending := Drive(spark, index + 1, endIndex, outcomes, handled + 1, true);
        calls := [step.chunk] + rest;
      }
    }

    /** `run(fn, startIndex, endIndex)` with a fresh accumulator and a scripted handler. */
    method Run(outcomes: seq<Outcome>, startIndex: nat, endIndex: Option<nat>)
      returns (calls: seq<Chunk>, ending: Ending, resume: Option<Continuation>)
      requires Valid() && Halts(startIndex, Total(Src()), endIndex)
      modifies this`unpauseHandlers, this`nextWaiter
      ensures Valid()
      ensures Walked(|calls|, calls, ending) == Walk(Src(), Script(outcomes), 0, startIndex, endIndex, paused, true)
      ensures resume.Some? <==> ending.Suspended?
      ensures resume.Some? ==> resume.value.index == ending.index && resume.value.endIndex == endIndex
      ensures resume.Some? ==> resume.value.waiter == old(nextWaiter) && resume.value.handled == |calls|
      ensures resume.Some? ==> fresh(resume.value.spark) && resume.value.spark.md5 == md5 && resume.value.spark.buffer == []
      ensures resume.Some? ==> unpauseHandlers == old(unpauseHandlers) + [old(nextWaiter)] && nextWaiter == old(nextWaiter) + 1
      ensures resume.None? ==> unpauseHandlers == old(unpauseHandlers) && nextWaiter == old(nextWaiter)
    {
      var spark := new Spark(md5);
      var waiter := nextWaiter;
      calls, ending := Drive(spark, startIndex, endIndex, outcomes, 0, true);
      resume := if ending.Suspended? then Some(Continuation(spark, ending.index, endIndex, waiter, |calls|)) else None;
    }

    /** The walk a released waiter lets through: it goes on at the index it waited at,
        without checking the flag there again. */
    method Resume(k: Continuation, outcomes: seq<Outcome>)
      returns (calls: seq<Chunk>, ending: Ending, resume: Option<Continuation>)
      requires Valid() && k.spark.md5 == md5 && k.spark.buffer == []
      requires k.waiter in released
      requires Halts(k.index, Total(Src()), k.endIndex)
      modifies this`unpauseHandlers, this`nextWaiter, k.spark
      ensures Valid() && k.spark.buffer == []
      ensures Walked(k.handled + |calls|, calls, ending)
           == Walk(Src(), Script(outcomes), k.handled, k.index, k.endIndex, paused, false)
      ensures resume.Some? <==> ending.Suspended?
      ensures resume.Some? ==> resume.value == Continuation(k.spark, ending.index, k.endIndex, old(nextWaiter), k.handled + |calls|)
      ensures resume.Some? ==> unpauseHandlers == old(unpauseHandlers) + [old(nextWaiter)] && nextWaiter == old(nextWaiter) + 1
      ensures resume.None? ==> unpauseHandlers == old(unpauseHandlers) && nextWaiter == old(nextWaiter)
    {
      var waiter := nextWaiter;
      calls, ending := Drive(k.spark, k.index, k.endIndex, outcomes, k.handled, false);
      resume := if ending.Suspended? then Some(Continuation(k.spark, ending.index, k.endIndex, waiter, k.handled + |calls|)) else None;
    }
  }
}
