/**
 * The older, self-contained `BqReader`: the same Python surface as the
 * current one, with the stream cursor, the VBQ reader, the block buffer and
 * its position kept as separate fields of the reader itself.  Its counts
 * always re-open the path, closed or not, and an empty VBQ file is an error on
 * the first `__next__` rather than the end of the iteration.
 */
module LegacyReaders {
  import opened Wrappers
  import opened Bytes
  import opened Binseq
  import opened Types
  import opened Sums
  import opened Shared
  import opened RecordCounters
  import opened GrepCounters
  import opened PopcntCounters
  import opened ParallelScan
  import opened ReaderVariants
  import opened BqReaders

  const OpenFileFailed := "Failed to open file"
  const VbqFileEmpty := "VBQ file is empty"
  const VbqReaderMissing := "VBQ reader not initialized"

  /**
   * The iteration fields: the VBQ reader (absent, or the number of block
   * reads it has answered), the stream cursor (absent, or the number of
   * stream items taken), the block buffer and the position in it.
   */
  datatype LegacyCursor = LegacyCursor(
    vbqReader: Option<nat>,
    streamReader: Option<nat>,
    vbqBlock: Option<seq<Record>>,
    vbqBlockPosition: nat)

  /** The fields after one `__next__` and what it raised or returned. */
  datatype LegacyStep = LegacyStep(cursor: LegacyCursor, result: Result<BqRecord, PyErr>)

  /** A variant-style result as `__next__` reports it: the end of the records is `StopIteration`. */
  function AsIteration(res: Result<Option<BqRecord>, ReaderError>): (r: Result<BqRecord, PyErr>)
    ensures r.Ok? <==> res.Ok? && res.value.Some?
    ensures r == Err(PyStopIteration) <==> res == Ok(None)
  {
    match res
    case Ok(Some(record)) => Ok(record)
    case Ok(None) => Err(PyStopIteration)
    case Err(e) => Err(ToPyErr(e))
  }

  /** The record at the buffer position, the position moved past it. */
  function LegacyTake(c: LegacyCursor): LegacyStep
    requires c.vbqBlock.Some? && c.vbqBlockPosition < |c.vbqBlock.value|
  {
    LegacyStep(c.(vbqBlockPosition := c.vbqBlockPosition + 1),
      AsIteration(Yield(c.vbqBlock.value[c.vbqBlockPosition], VbqDecodeFailed)))
  }

  /** The fields after an init helper, and the error it raised, if any. */
  datatype InitOutcome = InitOutcome(cursor: LegacyCursor, error: Option<PyErr>)

  /**
   * `init_vbq_block`: re-open the VBQ reader when it is absent, read the
   * first block into a new buffer, and keep it (position 0) only when it
   * holds records; a first block without records is "VBQ file is empty".
   */
  function VbqBlockInit(file: DiskFile, c: LegacyCursor): (o: InitOutcome)
    ensures o.cursor.streamReader == c.streamReader
    ensures o.error.None? ==>
      o.cursor.vbqReader.Some? && o.cursor.vbqBlock.Some? && o.cursor.vbqBlock.value != [] && o.cursor.vbqBlockPosition == 0
    ensures o.error.Some? ==> o.cursor.vbqBlock == c.vbqBlock && o.cursor.vbqBlockPosition == c.vbqBlockPosition
    ensures c.vbqReader.None? && !file.opensAsVbq ==> o == InitOutcome(c, Some(PyIOError(OpenVbqFailed)))
    ensures o.error.None? ==>
      var n := if c.vbqReader.Some? then c.vbqReader.value else 0;
      o.cursor.vbqReader == Some(n + 1) && ReadBlock(file.blocks, n) == Filled(o.cursor.vbqBlock.value)
  {
    var reader := if c.vbqReader.Some? then c.vbqReader else if file.opensAsVbq then Some(0) else None;
    if reader.None? then InitOutcome(c, Some(PyIOError(OpenVbqFailed)))
    else
      var n := reader.value;
      var read := c.(vbqReader := Some(n + 1));
      match ReadBlock(file.blocks, n)
      case BlockFailure => InitOutcome(read, Some(PyRuntimeError(BlockReadFailed)))
      case NoMoreData => InitOutcome(read, Some(PyRuntimeError(VbqFileEmpty)))
      case Filled(records) =>
        if records == [] then InitOutcome(read, Some(PyRuntimeError(VbqFileEmpty)))
        else InitOutcome(read.(vbqBlock := Some(records), vbqBlockPosition := 0), None)
  }

  /**
   * `init_stream_reader`: open the file and read the header; the cursor is
   * set only when both succeed.
   */
  function StreamReaderInit(file: DiskFile, c: LegacyCursor): (o: InitOutcome)
    ensures o.error.None? <==> file.stream.fileOpens && file.stream.headerValid
    ensures o.error.None? ==> o.cursor == c.(streamReader := Some(0))
    ensures o.error.Some? ==> o.cursor == c
    ensures !file.stream.fileOpens ==> o.error == Some(PyIOError(OpenFileFailed))
    ensures file.stream.fileOpens && !file.stream.headerValid ==> o.error == Some(PyRuntimeError(HeaderFailed))
  {
    if !file.stream.fileOpens then InitOutcome(c, Some(PyIOError(OpenFileFailed)))
    else if !file.stream.headerValid then InitOutcome(c, Some(PyRuntimeError(HeaderFailed)))
    else InitOutcome(c.(streamReader := Some(0)), None)
  }

  /**
   * `__next__` on a VBQ file.  Without a buffer, `init_vbq_block`; with a
   * used-up buffer, the position is reset to 0 and the next block is read
   * into the buffer (emptied first), the end of the blocks or an empty block
   * being `StopIteration`.  Then the record at the position is taken.
   */
  function LegacyVbqNext(file: DiskFile, c: LegacyCursor): (s: LegacyStep)
    ensures s.cursor.streamReader == c.streamReader
    ensures s.result.Ok? ==> s.cursor.vbqBlock.Some? && 0 < s.cursor.vbqBlockPosition <= |s.cursor.vbqBlock.value|
    ensures c.vbqBlock.Some? ==> s.cursor.vbqBlock.Some?
    ensures c.vbqReader.Some? || c.vbqBlock.None? ==> (s.cursor.vbqBlock.Some? ==> s.cursor.vbqReader.Some?)
  {
    if c.vbqBlock.None? then
      var init := VbqBlockInit(file, c);
      if init.error.Some? then LegacyStep(init.cursor, Err(init.error.value))
      else LegacyTake(init.cursor)
    else if c.vbqBlockPosition >= |c.vbqBlock.value| then
      if c.vbqReader.None? then LegacyStep(c.(vbqBlockPosition := 0), Err(PyRuntimeError(VbqReaderMissing)))
      else
        var n := c.vbqReader.value;
        match ReadBlock(file.blocks, n)
        case BlockFailure =>
          LegacyStep(c.(vbqReader := Some(n + 1), vbqBlock := Some([]), vbqBlockPosition := 0), Err(PyRuntimeError(BlockReadFailed)))
        case NoMoreData =>
          LegacyStep(c.(vbqReader := Some(n + 1), vbqBlock := Some([]), vbqBlockPosition := 0), Err(PyStopIteration))
        case Filled(records) =>
          var loaded := c.(vbqReader := Some(n + 1), vbqBlock := Some(records), vbqBlockPosition := 0);
          if records == [] then LegacyStep(loaded, Err(PyStopIteration)) else LegacyTake(loaded)
    else
      LegacyTake(c)
  }

  /**
   * `__next__` on a standard file: `init_stream_reader` when the cursor is
   * absent, then the next stream item.
   */
  function LegacyStandardNext(file: DiskFile, c: LegacyCursor): (s: LegacyStep)
    ensures s.cursor == c.(streamReader := s.cursor.streamReader)
  {
    var init := if c.streamReader.None? then StreamReaderInit(file, c) else InitOutcome(c, None);
    if init.error.Some? then LegacyStep(c, Err(init.error.value))
    else
      var p := init.cursor.streamReader.value;
      if p < |file.stream.items| then
        LegacyStep(c.(streamReader := Some(p + 1)), AsIteration(ItemResult(file.stream.items[p])))
      else LegacyStep(c.(streamReader := Some(p)), Err(PyStopIteration))
  }

  function LegacyNext(file: DiskFile, isVbq: bool, c: LegacyCursor): LegacyStep
  {
    if isVbq then LegacyVbqNext(file, c) else LegacyStandardNext(file, c)
  }

  /**
   * On a standard file the two readers agree step for step, except that the
   * older one reports a file that cannot be opened as "Failed to open file".
   */
  lemma StandardAgreesWithVariant(file: DiskFile, c: LegacyCursor)
    requires file.stream.fileOpens || c.streamReader.Some?
    ensures LegacyNext(file, false, c).result == AsIteration(NextStep(file, Standard(c.streamReader)).result)
    ensures LegacyNext(file, false, c).cursor.streamReader == NextStep(file, Standard(c.streamReader)).cursor.streamReader
  {
  }

  /**
   * An empty VBQ file (first read: no data, or a block without records) is
   * a `RuntimeError` on the first `__next__` here, where the reader variant
   * reports the end of the records.
   */
  lemma EmptyVbqIsAnError(file: DiskFile)
    requires file.opensAsVbq
    requires ReadBlock(file.blocks, 0) == NoMoreData || ReadBlock(file.blocks, 0) == Filled([])
    ensures LegacyNext(file, true, LegacyCursor(Some(0), None, None, 0)).result == Err(PyRuntimeError(VbqFileEmpty))
    ensures NextStep(file, Vbq(0, None, 0)).result == Ok(None)
    ensures AsIteration(NextStep(file, Vbq(0, None, 0)).result) == Err(PyStopIteration)
  {
  }

  // ----------------------------------------------------------------- traces

  /** The results of `steps` successive `__next__` calls on a VBQ file, and the cursor after them. */
  function LegacyVbqTrace(file: DiskFile, c: LegacyCursor, steps: nat): (t: (seq<Result<BqRecord, PyErr>>, LegacyCursor))
    ensures |t.0| == steps
    decreases steps
  {
    if steps == 0 then ([], c)
    else
      var s := LegacyVbqNext(file, c);
      var rest := LegacyVbqTrace(file, s.cursor, steps - 1);
      ([s.result] + rest.0, rest.1)
  }

  lemma {:induction false} LegacyVbqTraceAppend(file: DiskFile, c: LegacyCursor, a: nat, b: nat)
    ensures LegacyVbqTrace(file, c, a + b).0 == LegacyVbqTrace(file, c, a).0 + LegacyVbqTrace(file, LegacyVbqTrace(file, c, a).1, b).0
    ensures LegacyVbqTrace(file, c, a + b).1 == LegacyVbqTrace(file, LegacyVbqTrace(file, c, a).1, b).1
    decreases a
  {
    if a == 0 {
      assert LegacyVbqTrace(file, c, a).0 + LegacyVbqTrace(file, c, b).0 == LegacyVbqTrace(file, c, b).0;
    } else {
      var s := LegacyVbqNext(file, c);
      LegacyVbqTraceAppend(file, s.cursor, a - 1, b);
      assert a + b - 1 == (a - 1) + b;
      var head := LegacyVbqTrace(file, s.cursor, a - 1);
      var tail := LegacyVbqTrace(file, head.1, b);
      assert [s.result] + (head.0 + tail.0) == ([s.result] + head.0) + tail.0;
    }
  }

  /** The records of a block as `__next__` reports them. */
  function IterationResults(records: seq<Record>): seq<Result<BqRecord, PyErr>>
  {
    seq(|records|, i requires 0 <= i < |records| => AsIteration(Yield(records[i], VbqDecodeFailed)))
  }

  lemma IterationResultsAppend(a: seq<Record>, b: seq<Record>)
    ensures IterationResults(a + b) == IterationResults(a) + IterationResults(b)
  {
  }

  lemma {:induction false} LegacyBlockTraceFrom(file: DiskFile, c: LegacyCursor, n: nat)
    requires c.vbqBlock.Some? && c.vbqBlockPosition + n <= |c.vbqBlock.value|
    ensures LegacyVbqTrace(file, c, n) ==
      (IterationResults(c.vbqBlock.value[c.vbqBlockPosition..c.vbqBlockPosition + n]),
       c.(vbqBlockPosition := c.vbqBlockPosition + n))
    decreases n
  {
    var rs, p := c.vbqBlock.value, c.vbqBlockPosition;
    if n == 0 {
      assert |IterationResults(rs[p..p])| == 0;
    } else {
      LegacyBlockTraceFrom(file, c.(vbqBlockPosition := p + 1), n - 1);
      assert IterationResults(rs[p..p + n]) ==
        [AsIteration(Yield(rs[p], VbqDecodeFailed))] + IterationResults(rs[p + 1..p + n]);
    }
  }

  /** A used-up buffer of an open VBQ reader after n block reads. */
  predicate AtBoundary(c: LegacyCursor, n: nat)
  {
    c.vbqReader == Some(n) && c.vbqBlock.Some? && c.vbqBlockPosition >= |c.vbqBlock.value|
  }

  /** At a boundary the next call reads block n and hands out its first record. */
  lemma LegacyReadsFilledBlock(file: DiskFile, c: LegacyCursor, n: nat)
    requires AtBoundary(c, n) || (c == LegacyCursor(Some(0), c.streamReader, None, 0) && n == 0)
    requires n < |file.blocks| && file.blocks[n].Filled? && file.blocks[n].records != []
    ensures LegacyVbqNext(file, c) == LegacyTake(LegacyCursor(Some(n + 1), c.streamReader, Some(file.blocks[n].records), 0))
  {
  }

  /** Loading block n at a boundary and reading it through. */
  lemma LegacyLoadBlock(file: DiskFile, c: LegacyCursor, n: nat)
    requires AllBlocksFilled(file.blocks)
    requires AtBoundary(c, n) || (c == LegacyCursor(Some(0), c.streamReader, None, 0) && n == 0)
    requires n < |file.blocks|
    ensures LegacyVbqTrace(file, c, |file.blocks[n].records|) ==
      (IterationResults(file.blocks[n].records),
       LegacyCursor(Some(n + 1), c.streamReader, Some(file.blocks[n].records), |file.blocks[n].records|))
  {
    var rs := file.blocks[n].records;
    var s := LegacyVbqNext(file, c);
    LegacyReadsFilledBlock(file, c, n);
    LegacyBlockTraceFrom(file, s.cursor, |rs| - 1);
    assert rs[1..1 + (|rs| - 1)] == rs[1..];
    assert [s.result] + IterationResults(rs[1..]) == IterationResults(rs);
  }

  lemma {:induction false} LegacyVbqTraceFrom(file: DiskFile, c: LegacyCursor, n: nat)
    requires AllBlocksFilled(file.blocks)
    requires AtBoundary(c, n) && n <= |file.blocks|
    ensures LegacyVbqTrace(file, c, |RecordsFrom(file.blocks, n)| + 1).0 ==
      IterationResults(RecordsFrom(file.blocks, n)) + [Err(PyStopIteration)]
    decreases |file.blocks| - n
  {
    if n == |file.blocks| {
      assert LegacyVbqTrace(file, c, 1).0 == [Err(PyStopIteration)];
    } else {
      var rs := file.blocks[n].records;
      var rest := RecordsFrom(file.blocks, n + 1);
      LegacyLoadBlock(file, c, n);
      LegacyVbqTraceFrom(file, LegacyCursor(Some(n + 1), c.streamReader, Some(rs), |rs|), n + 1);
      LegacyVbqTraceAppend(file, c, |rs|, |rest| + 1);
      IterationResultsAppend(rs, rest);
    }
  }

  /**
   * Iterating a VBQ file whose blocks all hold records yields every record
   * of every block in order, then `StopIteration`: on such a file the older
   * reader behaves like the reader variant.
   */
  lemma LegacyVbqReadsAll(file: DiskFile)
    requires AllBlocksFilled(file.blocks) && file.blocks != []
    ensures LegacyVbqTrace(file, LegacyCursor(Some(0), None, None, 0), |RecordsFrom(file.blocks, 0)| + 1).0 ==
      IterationResults(RecordsFrom(file.blocks, 0)) + [Err(PyStopIteration)]
  {
    var c := LegacyCursor(Some(0), None, None, 0);
    var rs := file.blocks[0].records;
    var rest := RecordsFrom(file.blocks, 1);
    LegacyLoadBlock(file, c, 0);
    LegacyVbqTraceFrom(file, LegacyCursor(Some(1), None, Some(rs), |rs|), 1);
    LegacyVbqTraceAppend(file, c, |rs|, |rest| + 1);
    IterationResultsAppend(rs, rest);
  }

  // --------------------------------------------------------------- the reader

  /**
   * `BqReader::new` (older): the path must exist and open in the requested
   * format; only that format's reader is kept, and iteration starts lazily.
   */
  method Open(file: DiskFile, nThreads: Option<nat>, isVbq: bool) returns (r: Result<LegacyBqReader, PyErr>)
    ensures !file.present ==> r == Err(PyIOError(FileNotFound))
    ensures file.present && !Opens(file, isVbq) ==> r == Err(PyIOError(OpenFailure(isVbq)))
    ensures r.Ok? <==> file.present && Opens(file, isVbq)
    ensures r.Ok? ==> fresh(r.value) && r.value.file == file && r.value.isVbq == isVbq
    ensures r.Ok? ==> r.value.Valid() && r.value.IsOpen() && r.value.currentIndex == 0
    ensures r.Ok? ==> r.value.nThreads == (if nThreads.Some? then nThreads.value else 1)
    ensures r.Ok? ==> r.value.Cursor() == LegacyCursor(if isVbq then Some(0) else None, None, None, 0)
  {
    var n := if nThreads.Some? then nThreads.value else 1;
    if !file.present {
      return Err(PyIOError(FileNotFound));
    }
    if !Opens(file, isVbq) {
      return Err(PyIOError(OpenFailure(isVbq)));
    }
    var reader := new LegacyBqReader(file, n, isVbq);
    r := Ok(reader);
  }

  class LegacyBqReader {
    /** Whether the standard reader (`reader`) is held; only its presence matters here. */
    var hasReader: bool
    /** The VBQ reader: absent, or the number of block reads it has answered. */
    var vbqReader: Option<nat>
    const file: DiskFile
    var currentIndex: nat
    var nThreads: nat
    var streamReader: Option<nat>
    var vbqBlock: Option<seq<Record>>
    var vbqBlockPosition: nat
    const isVbq: bool

    constructor (file: DiskFile, nThreads: nat, isVbq: bool)
      ensures this.file == file && this.nThreads == nThreads && this.isVbq == isVbq
      ensures hasReader == !isVbq && currentIndex == 0
      ensures Cursor() == LegacyCursor(if isVbq then Some(0) else None, None, None, 0)
    {
      this.file := file;
      this.nThreads := nThreads;
      this.isVbq := isVbq;
      hasReader := !isVbq;
      vbqReader := if isVbq then Some(0) else None;
      currentIndex := 0;
      streamReader := None;
      vbqBlock := None;
      vbqBlockPosition := 0;
    }

    /** The iteration fields as one value. */
    function Cursor(): LegacyCursor
      reads this
    {
      LegacyCursor(vbqReader, streamReader, vbqBlock, vbqBlockPosition)
    }

    /**
     * Only the reader and the cursor of the file's own format are ever set,
     * and a block buffer exists only beside the VBQ reader that filled it.
     */
    predicate Valid()
      reads this
    {
      (isVbq ==> !hasReader && streamReader.None?) &&
      (!isVbq ==> vbqReader.None? && vbqBlock.None?) &&
      (vbqBlock.Some? ==> vbqReader.Some?)
    }

    /** `is_open`: the VBQ reader of a VBQ file, the standard reader otherwise. */
    function IsOpen(): (r: bool)
      reads this
      ensures Valid() ==> (r <==> vbqReader.Some? || hasReader)
    {
      if isVbq then vbqReader.Some? else hasReader
    }

    /** `len`: a `RecordCounter` driven over the re-opened path, open or closed. */
    method Len(run: ScanRun) returns (r: Result<nat, PyErr>)
      ensures !run.reopens ==> r == Err(PyIOError(OpenFailure(isVbq)))
      ensures run.reopens && run.readFails ==> r == Err(PyRuntimeError(ProcessingFailed))
      ensures run.reopens && !run.readFails ==> r == Ok(|Flatten(run.batches)|)
    {
      if !run.reopens {
        return Err(PyIOError(OpenFailure(isVbq)));
      }
      var counter := new RecordCounter();
      var processor := counter.Clone();
      RunRecordCounter(processor, run.batches);
      if run.readFails {
        return Err(PyRuntimeError(ProcessingFailed));
      }
      r := Ok(counter.Count());
    }

    /** `is_empty`: `len` is 0. */
    method IsEmpty(run: ScanRun) returns (r: Result<bool, PyErr>)
      ensures !run.reopens ==> r == Err(PyIOError(OpenFailure(isVbq)))
      ensures run.reopens && run.readFails ==> r == Err(PyRuntimeError(ProcessingFailed))
      ensures run.reopens && !run.readFails ==> r == Ok(Flatten(run.batches) == [])
    {
      var n := Len(run);
      if n.Err? {
        return Err(n.error);
      }
      r := Ok(n.value == 0);
    }

    /** `count_matches`: a `GrepCounter` driven over the re-opened path. */
    method CountMatches(pattern: seq<Byte>, run: ScanRun) returns (r: Result<nat, PyErr>)
      ensures !run.reopens ==> r == Err(PyIOError(OpenFailure(isVbq)))
      ensures run.reopens && (run.readFails || !AllDecode(Flatten(run.batches))) ==> r == Err(PyRuntimeError(ProcessingFailed))
      ensures run.reopens && !run.readFails && AllDecode(Flatten(run.batches)) ==> r == Ok(Hits(pattern, Flatten(run.batches)))
    {
      if !run.reopens {
        return Err(PyIOError(OpenFailure(isVbq)));
      }
      var counter := new GrepCounter(pattern);
      var processor := counter.Clone();
      var scan := RunGrep(processor, run.batches);
      if scan.Err? || run.readFails {
        return Err(PyRuntimeError(ProcessingFailed));
      }
      r := Ok(counter.Count());
    }

    /** `popcnt`: a `PopcntCounter` driven over the re-opened path. */
    method Popcnt(run: ScanRun) returns (r: Result<nat, PyErr>)
      ensures !run.reopens ==> r == Err(PyIOError(OpenFailure(isVbq)))
      ensures run.reopens && (run.readFails || !AllDecode(Flatten(run.batches))) ==> r == Err(PyRuntimeError(ProcessingFailed))
      ensures run.reopens && !run.readFails && AllDecode(Flatten(run.batches)) ==> r == Ok(SumBy(RecordBits, Flatten(run.batches)))
    {
      if !run.reopens {
        return Err(PyIOError(OpenFailure(isVbq)));
      }
      var counter := new PopcntCounter();
      var processor := counter.Clone();
      var scan := RunPopcnt(processor, run.batches);
      if scan.Err? || run.readFails {
        return Err(PyRuntimeError(ProcessingFailed));
      }
      r := Ok(counter.TotalCount());
    }

    /** `set_n_threads`: at least one worker. */
    method SetNThreads(n: nat)
      modifies this`nThreads
      ensures nThreads == if n >= 1 then n else 1
    {
      nThreads := if n >= 1 then n else 1;
    }

    /** `sequence_length` as written: it tests the standard reader, whatever the format. */
    function SequenceLength(): (r: Result<nat, PyErr>)
      reads this
      ensures r.Ok? <==> hasReader
      ensures r.Ok? ==> r.value == 0
      ensures r.Err? ==> r.error == PyRuntimeError(ReaderClosed)
    {
      if hasReader then Ok(0) else Err(PyRuntimeError(ReaderClosed))
    }

    /** `sequence_length` as evidently intended: the placeholder 0 exactly while the reader is open. */
    function SequenceLengthIntended(): (r: Result<nat, PyErr>)
      reads this
      ensures r.Ok? <==> IsOpen()
      ensures r.Ok? ==> r.value == 0
      ensures r.Err? ==> r.error == PyRuntimeError(ReaderClosed)
    {
      if IsOpen() then Ok(0) else Err(PyRuntimeError(ReaderClosed))
    }

    /** `__exit__`: drops both readers, the stream cursor and the block buffer; never suppresses. */
    method Exit() returns (r: bool)
      requires Valid()
      modifies this`hasReader, this`vbqReader, this`streamReader, this`vbqBlock
      ensures !r && Valid() && !IsOpen()
      ensures !hasReader && Cursor() == LegacyCursor(None, None, None, old(vbqBlockPosition))
    {
      hasReader := false;
      vbqReader := None;
      streamReader := None;
      vbqBlock := None;
      r := false;
    }

    /** `init_stream_reader`. */
    method InitStreamReader() returns (r: Result<(), PyErr>)
      modifies this`streamReader
      ensures var o := StreamReaderInit(file, old(Cursor()));
        Cursor() == o.cursor && (r.Err? <==> o.error.Some?) && (r.Err? ==> r.error == o.error.value)
    {
      if !file.stream.fileOpens {
        return Err(PyIOError(OpenFileFailed));
      }
      if !file.stream.headerValid {
        return Err(PyRuntimeError(HeaderFailed));
      }
      streamReader := Some(0);
      r := Ok(());
    }

    /** `init_vbq_block`. */
    method InitVbqBlock() returns (r: Result<(), PyErr>)
      modifies this`vbqReader, this`vbqBlock, this`vbqBlockPosition
      ensures var o := VbqBlockInit(file, old(Cursor()));
        Cursor() == o.cursor && (r.Err? <==> o.error.Some?) && (r.Err? ==> r.error == o.error.value)
    {
      if vbqReader.None? {
        if !file.opensAsVbq {
          return Err(PyIOError(OpenVbqFailed));
        }
        vbqReader := Some(0);
      }
      var n := vbqReader.value;
      vbqReader := Some(n + 1);
      match ReadBlock(file.blocks, n) {
        case BlockFailure =>
          return Err(PyRuntimeError(BlockReadFailed));
        case NoMoreData =>
          return Err(PyRuntimeError(VbqFileEmpty));
        case Filled(records) =>
          if records == [] {
            return Err(PyRuntimeError(VbqFileEmpty));
          }
          vbqBlock := Some(records);
          vbqBlockPosition := 0;
      }
      r := Ok(());
    }

    /** `__next__` on a VBQ file. */
    method NextVbq() returns (r: Result<BqRecord, PyErr>)
      modifies this`vbqReader, this`vbqBlock, this`vbqBlockPosition, this`currentIndex
      ensures LegacyStep(Cursor(), r) == LegacyVbqNext(file, old(Cursor()))
      ensures currentIndex == old(currentIndex) + if r.Ok? then 1 else 0
    {
      if vbqBlock.None? {
        var init := InitVbqBlock();
        if init.Err? {
          return Err(init.error);
        }
      }
      var block := vbqBlock.value;
      if vbqBlockPosition >= |block| {
        vbqBlockPosition := 0;
        if vbqReader.None? {
          return Err(PyRuntimeError(VbqReaderMissing));
        }
        var n := vbqReader.value;
        vbqReader := Some(n + 1);
        match ReadBlock(file.blocks, n) {
          case BlockFailure =>
            vbqBlock := Some([]);
            return Err(PyRuntimeError(BlockReadFailed));
          case NoMoreData =>
            vbqBlock := Some([]);
            return Err(PyStopIteration);
          case Filled(records) =>
            vbqBlock := Some(records);
            block := records;
            if records == [] {
              return Err(PyStopIteration);
            }
        }
      }
      var record := block[vbqBlockPosition];
      vbqBlockPosition := vbqBlockPosition + 1;
      var decoded := DecodePrimary(record, VbqDecodeFailed);
      if decoded.Err? {
        return Err(ToPyErr(decoded.error));
      }
      currentIndex := currentIndex + 1;
      r := Ok(decoded.value);
    }

    /** `__next__` on a standard file. */
    method NextStandard() returns (r: Result<BqRecord, PyErr>)
      modifies this`streamReader, this`currentIndex
      ensures LegacyStep(Cursor(), r) == LegacyStandardNext(file, old(Cursor()))
      ensures currentIndex == old(currentIndex) + if r.Ok? then 1 else 0
    {
      if streamReader.None? {
        var init := InitStreamReader();
        if init.Err? {
          return Err(init.error);
        }
      }
      var p := streamReader.value;
      if p >= |file.stream.items| {
        return Err(PyStopIteration);
      }
      streamReader := Some(p + 1);
      match file.stream.items[p] {
        case ReadFailure =>
          return Err(PyRuntimeError(ReadRecordFailed));
        case Item(record) =>
          var decoded := DecodePrimary(record, DecodeFailed);
          if decoded.Err? {
            return Err(ToPyErr(decoded.error));
          }
          currentIndex := currentIndex + 1;
          r := Ok(decoded.value);
      }
    }

    /**
     * `__next__`: the next record of the file, `StopIteration` at the end;
     * the index counts the records returned.
     */
    method Next() returns (r: Result<BqRecord, PyErr>)
      requires Valid()
      modifies this`vbqReader, this`vbqBlock, this`vbqBlockPosition, this`streamReader, this`currentIndex
      ensures Valid()
      ensures LegacyStep(Cursor(), r) == LegacyNext(file, isVbq, old(Cursor()))
      ensures currentIndex == old(currentIndex) + if r.Ok? then 1 else 0
    {
      if isVbq {
        r := NextVbq();
      } else {
        r := NextStandard();
      }
    }
  }

  /**
   * After `__exit__`, `__next__` on a VBQ file re-opens the path and starts
   * again from its first block, exactly as a freshly opened reader would.
   */
  lemma ExitRewindsVbq(file: DiskFile, position: nat)
    requires file.opensAsVbq
    ensures LegacyNext(file, true, LegacyCursor(None, None, None, position)).result ==
      LegacyNext(file, true, LegacyCursor(Some(0), None, None, 0)).result
  {
  }

  /**
   * `sequence_length` reports an open VBQ reader as closed: the test looks
   * at the standard reader, which a VBQ reader never holds.
   */
  lemma SequenceLengthClosedWhileOpen(reader: LegacyBqReader)
    requires reader.Valid() && reader.isVbq && reader.IsOpen()
    ensures reader.SequenceLength() == Err(PyRuntimeError(ReaderClosed))
    ensures reader.SequenceLengthIntended() == Ok(0)
  {
  }
}
