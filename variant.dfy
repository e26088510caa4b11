/**
 * `ReaderVariant`: one reader interface over the two file formats.  A
 * standard (BQ) file is read through a stream cursor that is created on the
 * first request; a VBQ file is read block by block into one reusable buffer
 * with a position cursor.  The whole-file counts re-open the path and drive a
 * fresh aggregator over it.
 */
module ReaderVariants {
  import opened Wrappers
  import opened Bytes
  import opened Binseq
  import opened Types
  import opened Sums
  import opened Shared
  import opened RecordCounters
  import opened GrepCounters
  import opened PopcntCounters
  import opened KmerTally
  import opened KmerCounters
  import opened ParallelScan

  const NucleotideA: Byte := 65
  const NucleotideC: Byte := 67
  const NucleotideG: Byte := 71
  const NucleotideT: Byte := 84

  /** The three error kinds; the messages are the fixed prefixes of the source's messages. */
  datatype ReaderError = IoError | BinseqError(message: string) | RuntimeError(message: string)

  const OpenBqFailed := "Failed to open BQ file"
  const OpenVbqFailed := "Failed to open VBQ file"
  const ProcessingFailed := "Processing failed"
  const HeaderFailed := "Failed to read BQ header"
  const ReadRecordFailed := "Error reading record"
  const BlockReadFailed := "Failed to read VBQ block"
  const DecodeFailed := "Failed to decode record"
  const VbqDecodeFailed := "Failed to decode VBQ record"

  // ------------------------------------------------------------ nucleotides

  function Nucleotide(b: Byte): char
  {
    if b == NucleotideA then 'A'
    else if b == NucleotideC then 'C'
    else if b == NucleotideG then 'G'
    else if b == NucleotideT then 'T'
    else 'N'
  }

  /**
   * `bytes_to_sequence`: one character per byte; the four nucleotide codes
   * become their letters and every other byte becomes 'N'.
   */
  function BytesToSequence(bytes: seq<Byte>): (s: string)
    ensures |s| == |bytes|
    ensures forall i :: 0 <= i < |s| ==> s[i] in "ACGTN"
    ensures forall i :: 0 <= i < |s| ==>
      (s[i] == 'A' <==> bytes[i] == 65) && (s[i] == 'C' <==> bytes[i] == 67) &&
      (s[i] == 'G' <==> bytes[i] == 71) && (s[i] == 'T' <==> bytes[i] == 84)
  {
    seq(|bytes|, i requires 0 <= i < |bytes| => Nucleotide(bytes[i]))
  }

  /** The ASCII bytes of a string of nucleotide letters. */
  function AsciiBytes(s: string): (bytes: seq<Byte>)
    requires forall i :: 0 <= i < |s| ==> s[i] in "ACGTN"
    ensures |bytes| == |s|
  {
    seq(|s|, i requires 0 <= i < |s| => s[i] as int)
  }

  /** Converting the bytes of a converted sequence gives the same sequence back. */
  lemma BytesToSequenceIdempotent(bytes: seq<Byte>)
    ensures BytesToSequence(AsciiBytes(BytesToSequence(bytes))) == BytesToSequence(bytes)
  {
    var s := BytesToSequence(bytes);
    var t := BytesToSequence(AsciiBytes(s));
    forall i | 0 <= i < |s| ensures t[i] == s[i] {
      assert s[i] in "ACGTN";
    }
  }

  // ----------------------------------------------------------------- decode

  /**
   * `decode_record` / `decode_vbq_record`: the primary sequence only; on
   * success the bytes and their nucleotide string, otherwise a runtime error
   * carrying the variant's message.
   */
  function DecodePrimary(record: Record, message: string): (r: Result<BqRecord, ReaderError>)
    ensures r.Ok? <==> record.primary.Decoded?
    ensures r.Ok? ==> r.value.encoded == record.primary.bytes
    ensures r.Ok? ==> r.value.GetSequence() == BytesToSequence(r.value.encoded)
    ensures r.Err? ==> r.error == RuntimeError(message)
  {
    match record.primary
    case Decoded(bytes) => Ok(NewRecord(BytesToSequence(bytes), bytes))
    case Malformed => Err(RuntimeError(message))
  }

  /** What `next_record` hands back for a stored record: `Ok(Some(_))` or the decode error. */
  function Yield(record: Record, message: string): Result<Option<BqRecord>, ReaderError>
  {
    match DecodePrimary(record, message)
    case Ok(r) => Ok(Some(r))
    case Err(e) => Err(e)
  }

  // ------------------------------------------------------------- the cursors

  /**
   * The mutable part of a reader.  `Standard`: the stream cursor, absent until
   * the first request, otherwise the number of stream items already taken.
   * `Vbq`: how many `read_block_into` calls the memory-mapped reader has
   * answered, the block buffer (absent until the first non-empty block) and
   * the position in it.
   */
  datatype Cursor =
    | Standard(streamReader: Option<nat>)
    | Vbq(blocksRead: nat, block: Option<seq<Record>>, blockPosition: nat)

  /** The cursor after one `next_record` call and what the call returned. */
  datatype Step = Step(cursor: Cursor, result: Result<Option<BqRecord>, ReaderError>)

  /** What one stream item becomes. */
  function ItemResult(item: StreamItem): Result<Option<BqRecord>, ReaderError>
  {
    match item
    case ReadFailure => Err(RuntimeError(ReadRecordFailed))
    case Item(record) => Yield(record, DecodeFailed)
  }

  /**
   * `next_record` on a standard file: create the stream cursor when absent
   * (open, then read the header), then take the next stream item.
   */
  function StandardNext(source: StreamSource, streamReader: Option<nat>): (s: Step)
    ensures s.cursor.Standard?
    ensures streamReader.None? && !source.fileOpens ==> s == Step(Standard(None), Err(IoError))
    ensures streamReader.None? && source.fileOpens && !source.headerValid ==>
      s == Step(Standard(None), Err(RuntimeError(HeaderFailed)))
    ensures streamReader.Some? || (source.fileOpens && source.headerValid) ==>
      var p := if streamReader.Some? then streamReader.value else 0;
      if p < |source.items| then s == Step(Standard(Some(p + 1)), ItemResult(source.items[p]))
      else s == Step(Standard(Some(p)), Ok(None))
  {
    if streamReader.None? && !source.fileOpens then Step(Standard(None), Err(IoError))
    else if streamReader.None? && !source.headerValid then Step(Standard(None), Err(RuntimeError(HeaderFailed)))
    else
      var p := if streamReader.Some? then streamReader.value else 0;
      if p < |source.items| then Step(Standard(Some(p + 1)), ItemResult(source.items[p]))
      else Step(Standard(Some(p)), Ok(None))
  }

  /** The record at `position` of a loaded block, the position moved past it. */
  function TakeFromBlock(blocksRead: nat, records: seq<Record>, position: nat): (s: Step)
    requires position < |records|
  {
    Step(Vbq(blocksRead, Some(records), position + 1), Yield(records[position], VbqDecodeFailed))
  }

  /**
   * `next_record` on a VBQ file.  Without a buffer, the first block is read
   * into a new one, which is kept only when it holds records.  With a used-up
   * buffer, the next block is read into the same buffer (emptied first) and
   * the position restarts at 0 only when the block holds records.  Then the
   * record at the position is taken.
   */
  function VbqNext(blocks: seq<BlockRead>, blocksRead: nat, block: Option<seq<Record>>, position: nat): (s: Step)
    ensures s.cursor.Vbq?
    ensures s.cursor.blocksRead == if block.Some? && position < |block.value| then blocksRead else blocksRead + 1
    ensures s.result.Ok? && s.result.value.Some? ==>
      s.cursor.block.Some? && 0 < s.cursor.blockPosition <= |s.cursor.block.value|
    ensures s.result == Ok(None) ==> s.cursor.block.None? || s.cursor.block == Some([])
  {
    if block.None? then
      match ReadBlock(blocks, blocksRead)
      case BlockFailure => Step(Vbq(blocksRead + 1, None, position), Err(RuntimeError(BlockReadFailed)))
      case NoMoreData => Step(Vbq(blocksRead + 1, None, position), Ok(None))
      case Filled(records) =>
        if records == [] then Step(Vbq(blocksRead + 1, None, position), Ok(None))
        else TakeFromBlock(blocksRead + 1, records, 0)
    else if position >= |block.value| then
      match ReadBlock(blocks, blocksRead)
      case BlockFailure => Step(Vbq(blocksRead + 1, Some([]), position), Err(RuntimeError(BlockReadFailed)))
      case NoMoreData => Step(Vbq(blocksRead + 1, Some([]), position), Ok(None))
      case Filled(records) =>
        if records == [] then Step(Vbq(blocksRead + 1, Some([]), position), Ok(None))
        else TakeFromBlock(blocksRead + 1, records, 0)
    else
      TakeFromBlock(blocksRead, block.value, position)
  }

  /** One `next_record` call on a reader opened on `file`. */
  function NextStep(file: DiskFile, c: Cursor): (s: Step)
    ensures s.cursor.Standard? <==> c.Standard?
  {
    match c
    case Standard(streamReader) => StandardNext(file.stream, streamReader)
    case Vbq(blocksRead, block, position) => VbqNext(file.blocks, blocksRead, block, position)
  }

  /** A VBQ cursor whose buffer has no record left to hand out. */
  predicate BlockUsedUp(c: Cursor)
  {
    c.Vbq? && (c.block.None? || c.blockPosition >= |c.block.value|)
  }

  /**
   * Once the block source is exhausted and the buffer used up, every further
   * call returns `Ok(None)` and leaves the cursor used up.
   */
  lemma VbqExhaustedStaysExhausted(file: DiskFile, c: Cursor)
    requires BlockUsedUp(c) && c.blocksRead >= |file.blocks|
    ensures NextStep(file, c).result == Ok(None)
    ensures BlockUsedUp(NextStep(file, c).cursor)
    ensures NextStep(file, c).cursor.blocksRead >= |file.blocks|
  {
  }

  /**
   * Inside a loaded block the records come out in index order: the call
   * returns the record at the position and moves the position by one, with
   * no block read.
   */
  lemma VbqInIndexOrder(file: DiskFile, n: nat, records: seq<Record>, position: nat)
    requires position < |records|
    ensures NextStep(file, Vbq(n, Some(records), position)) ==
      Step(Vbq(n, Some(records), position + 1), Yield(records[position], VbqDecodeFailed))
  {
  }

  /** A standard stream that has run out keeps answering `Ok(None)` in the same place. */
  lemma StandardExhaustedStaysExhausted(file: DiskFile, p: nat)
    requires p >= |file.stream.items|
    ensures NextStep(file, Standard(Some(p))) == Step(Standard(Some(p)), Ok(None))
  {
  }

  // ----------------------------------------------------------------- traces

  /** The results of `steps` successive calls and the cursor after them. */
  function Trace(file: DiskFile, c: Cursor, steps: nat): (t: (seq<Result<Option<BqRecord>, ReaderError>>, Cursor))
    ensures |t.0| == steps
    decreases steps
  {
    if steps == 0 then ([], c)
    else
      var s := NextStep(file, c);
      var rest := Trace(file, s.cursor, steps - 1);
      ([s.result] + rest.0, rest.1)
  }

  /** Running `a` calls and then `b` more is running `a + b` calls. */
  lemma {:induction false} TraceAppend(file: DiskFile, c: Cursor, a: nat, b: nat)
    ensures Trace(file, c, a + b).0 == Trace(file, c, a).0 + Trace(file, Trace(file, c, a).1, b).0
    ensures Trace(file, c, a + b).1 == Trace(file, Trace(file, c, a).1, b).1
    decreases a
  {
    if a == 0 {
      assert Trace(file, c, a).0 + Trace(file, c, b).0 == Trace(file, c, b).0;
    } else {
      var s := NextStep(file, c);
      TraceAppend(file, s.cursor, a - 1, b);
      assert a + b - 1 == (a - 1) + b;
      var head := Trace(file, s.cursor, a - 1);
      var tail := Trace(file, head.1, b);
      assert [s.result] + (head.0 + tail.0) == ([s.result] + head.0) + tail.0;
    }
  }

  /** The results of the stream items, in order. */
  function ItemResults(items: seq<StreamItem>): seq<Result<Option<BqRecord>, ReaderError>>
  {
    seq(|items|, i requires 0 <= i < |items| => ItemResult(items[i]))
  }

  /** The results of the records of a block, in order. */
  function BlockResults(records: seq<Record>): seq<Result<Option<BqRecord>, ReaderError>>
  {
    seq(|records|, i requires 0 <= i < |records| => Yield(records[i], VbqDecodeFailed))
  }

  lemma {:induction false} StandardTraceFrom(file: DiskFile, p: nat, n: nat)
    requires p + n <= |file.stream.items|
    ensures Trace(file, Standard(Some(p)), n) == (ItemResults(file.stream.items[p..p + n]), Standard(Some(p + n)))
    decreases n
  {
    if n == 0 {
      assert |ItemResults(file.stream.items[p..p])| == 0;
    } else {
      StandardTraceFrom(file, p + 1, n - 1);
      var items := file.stream.items;
      assert ItemResults(items[p..p + n]) == [ItemResult(items[p])] + ItemResults(items[p + 1..p + n]);
    }
  }

  /**
   * Iterating a standard file from a fresh reader yields every stream item
   * in order, then `Ok(None)`.
   */
  lemma StandardReadsAll(file: DiskFile)
    requires file.stream.fileOpens && file.stream.headerValid
    ensures Trace(file, Standard(None), |file.stream.items| + 1).0 == ItemResults(file.stream.items) + [Ok(None)]
  {
    var items := file.stream.items;
    var n := |items|;
    if n == 0 {
      assert Trace(file, Standard(None), 1).0 == [Ok(None)];
    } else {
      assert NextStep(file, Standard(None)) == NextStep(file, Standard(Some(0)));
      TraceAppend(file, Standard(Some(0)), n, 1);
      StandardTraceFrom(file, 0, n);
      assert items[0..n] == items;
      assert Trace(file, Standard(None), n + 1) == Trace(file, Standard(Some(0)), n + 1);
    }
  }

  lemma {:induction false} BlockTraceFrom(file: DiskFile, k: nat, records: seq<Record>, p: nat, n: nat)
    requires p + n <= |records|
    ensures Trace(file, Vbq(k, Some(records), p), n) == (BlockResults(records[p..p + n]), Vbq(k, Some(records), p + n))
    decreases n
  {
    if n == 0 {
      assert |BlockResults(records[p..p])| == 0;
    } else {
      BlockTraceFrom(file, k, records, p + 1, n - 1);
      assert BlockResults(records[p..p + n]) == [Yield(records[p], VbqDecodeFailed)] + BlockResults(records[p + 1..p + n]);
    }
  }

  /** A VBQ block script in which every read fills the buffer with at least one record. */
  predicate AllBlocksFilled(blocks: seq<BlockRead>)
  {
    forall i :: 0 <= i < |blocks| ==> blocks[i].Filled? && blocks[i].records != []
  }

  /** The records of the blocks from the n-th on, block after block. */
  function RecordsFrom(blocks: seq<BlockRead>, n: nat): seq<Record>
    requires AllBlocksFilled(blocks)
    decreases |blocks| - n
  {
    if n >= |blocks| then [] else blocks[n].records + RecordsFrom(blocks, n + 1)
  }

  lemma BlockResultsAppend(a: seq<Record>, b: seq<Record>)
    ensures BlockResults(a + b) == BlockResults(a) + BlockResults(b)
  {
  }

  /** A used-up buffer is refilled by the next block read and its first record handed out. */
  lemma VbqReadsFilledBlock(file: DiskFile, c: Cursor)
    requires BlockUsedUp(c) && c.blocksRead < |file.blocks|
    requires file.blocks[c.blocksRead].Filled? && file.blocks[c.blocksRead].records != []
    ensures var rs := file.blocks[c.blocksRead].records;
      NextStep(file, c) == Step(Vbq(c.blocksRead + 1, Some(rs), 1), Yield(rs[0], VbqDecodeFailed))
  {
  }

  /**
   * From a used-up buffer, the next block is read and its records handed out
   * one per call, leaving the cursor at the end of that block.
   */
  lemma VbqLoadBlock(file: DiskFile, c: Cursor)
    requires AllBlocksFilled(file.blocks)
    requires BlockUsedUp(c) && c.blocksRead < |file.blocks|
    ensures var rs := file.blocks[c.blocksRead].records;
      Trace(file, c, |rs|) == (BlockResults(rs), Vbq(c.blocksRead + 1, Some(rs), |rs|))
  {
    var n := c.blocksRead;
    var rs := file.blocks[n].records;
    var s := NextStep(file, c);
    VbqReadsFilledBlock(file, c);
    BlockTraceFrom(file, n + 1, rs, 1, |rs| - 1);
    var rest := Trace(file, s.cursor, |rs| - 1);
    assert Trace(file, c, |rs|) == ([s.result] + rest.0, rest.1);
    assert rs[1..1 + (|rs| - 1)] == rs[1..];
    assert [s.result] + BlockResults(rs[1..]) == BlockResults(rs);
  }

  /**
   * From a used-up buffer after n block reads, the reader hands out the
   * records of blocks n, n+1, ... in order and then `Ok(None)`.
   */
  lemma {:induction false} VbqTraceFrom(file: DiskFile, c: Cursor)
    requires AllBlocksFilled(file.blocks)
    requires BlockUsedUp(c) && c.blocksRead <= |file.blocks|
    ensures Trace(file, c, |RecordsFrom(file.blocks, c.blocksRead)| + 1).0 ==
      BlockResults(RecordsFrom(file.blocks, c.blocksRead)) + [Ok(None)]
    decreases |file.blocks| - c.blocksRead
  {
    var n := c.blocksRead;
    if n == |file.blocks| {
      assert Trace(file, c, 1).0 == [Ok(None)];
    } else {
      var rs := file.blocks[n].records;
      var rest := RecordsFrom(file.blocks, n + 1);
      VbqLoadBlock(file, c);
      VbqTraceFrom(file, Vbq(n + 1, Some(rs), |rs|));
      TraceAppend(file, c, |rs|, |rest| + 1);
      BlockResultsAppend(rs, rest);
    }
  }

  /**
   * Iterating a VBQ file whose blocks all hold records, from a fresh reader,
   * yields every record of every block in order, then `Ok(None)`.
   */
  lemma VbqReadsAll(file: DiskFile)
    requires AllBlocksFilled(file.blocks)
    ensures Trace(file, Vbq(0, None, 0), |RecordsFrom(file.blocks, 0)| + 1).0 ==
      BlockResults(RecordsFrom(file.blocks, 0)) + [Ok(None)]
  {
    VbqTraceFrom(file, Vbq(0, None, 0));
  }

  /**
   * At a block boundary, a read that yields no data or an empty block ends
   * the iteration with `Ok(None)`, even when later blocks hold records.
   */
  lemma VbqStopsAtEmptyBlock(file: DiskFile, c: Cursor)
    requires BlockUsedUp(c)
    requires ReadBlock(file.blocks, c.blocksRead) == NoMoreData || ReadBlock(file.blocks, c.blocksRead) == Filled([])
    ensures NextStep(file, c).result == Ok(None)
    ensures BlockUsedUp(NextStep(file, c).cursor) && NextStep(file, c).cursor.blocksRead == c.blocksRead + 1
  {
  }

  // ------------------------------------------------- scans and iteration

  /** A stream in which every item is a record (no read failure). */
  predicate AllItems(items: seq<StreamItem>)
  {
    forall i :: 0 <= i < |items| ==> items[i].Item?
  }

  /** A file both the scans and the iteration read through without an I/O or format error. */
  predicate Readable(file: DiskFile, isVbq: bool)
  {
    if isVbq then AllBlocksFilled(file.blocks)
    else file.stream.fileOpens && file.stream.headerValid && AllItems(file.stream.items)
  }

  /** The records of a readable file in file order: block after block, or item after item. */
  function FileRecords(file: DiskFile, isVbq: bool): (rs: seq<Record>)
    requires Readable(file, isVbq)
    ensures !isVbq ==> |rs| == |file.stream.items|
  {
    if isVbq then RecordsFrom(file.blocks, 0)
    else seq(|file.stream.items|, i requires 0 <= i < |file.stream.items| => file.stream.items[i].record)
  }

  /** The cursor of a freshly opened reader. */
  function StartCursor(isVbq: bool): (c: Cursor)
    ensures c.Vbq? <==> isVbq
  {
    if isVbq then Vbq(0, None, 0) else Standard(None)
  }

  /**
   * A whole-file scan reads a readable file completely: every record of the
   * file once, cut into batches in any way and any order.  Then the number of
   * records the scan counts is the number of `next_record` calls that return
   * a record before the first `Ok(None)`, and those calls return the file's
   * records in file order.
   */
  lemma LenMatchesIteration(file: DiskFile, isVbq: bool, run: ScanRun)
    requires Readable(file, isVbq)
    requires forall r :: r in FileRecords(file, isVbq) ==> r.primary.Decoded?
    requires multiset(Flatten(run.batches)) == multiset(FileRecords(file, isVbq))
    ensures |Flatten(run.batches)| == |FileRecords(file, isVbq)|
    ensures var n := |Flatten(run.batches)|; var t := Trace(file, StartCursor(isVbq), n + 1).0;
      forall i :: 0 <= i < n ==>
        t[i].Ok? && t[i].value.Some? && t[i].value.value.encoded == FileRecords(file, isVbq)[i].primary.bytes
    ensures var n := |Flatten(run.batches)|; Trace(file, StartCursor(isVbq), n + 1).0[n] == Ok(None)
  {
    var rs := FileRecords(file, isVbq);
    assert |Flatten(run.batches)| == |multiset(Flatten(run.batches))| == |multiset(rs)| == |rs|;
    var n := |rs|;
    var t := Trace(file, StartCursor(isVbq), n + 1).0;
    if isVbq {
      VbqReadsAll(file);
      assert t == BlockResults(rs) + [Ok(None)];
      forall i | 0 <= i < n ensures t[i] == Yield(rs[i], VbqDecodeFailed) {
      }
    } else {
      StandardReadsAll(file);
      assert t == ItemResults(file.stream.items) + [Ok(None)];
      forall i | 0 <= i < n ensures t[i] == Yield(rs[i], DecodeFailed) {
        assert file.stream.items[i] == Item(rs[i]);
      }
    }
    forall i | 0 <= i < n ensures rs[i].primary.Decoded? {
      assert rs[i] in rs;
    }
  }

  /**
   * A readable file with no records: the scan counts none, and the first
   * `next_record` call on a fresh reader already reports the end.
   */
  lemma EmptyFileScenario(file: DiskFile, isVbq: bool, run: ScanRun)
    requires Readable(file, isVbq) && FileRecords(file, isVbq) == []
    requires multiset(Flatten(run.batches)) == multiset(FileRecords(file, isVbq))
    ensures Flatten(run.batches) == []
    ensures NextStep(file, StartCursor(isVbq)).result == Ok(None)
  {
    LenMatchesIteration(file, isVbq, run);
    assert Trace(file, StartCursor(isVbq), 1).0[0] == NextStep(file, StartCursor(isVbq)).result;
  }

  // ------------------------------------------------------------- the reader

  /** The message of a failed re-open of the path for the given format. */
  function OpenFailure(isVbq: bool): string
  {
    if isVbq then OpenVbqFailed else OpenBqFailed
  }

  /** Whether `BinseqReader::new` / `VbqReader::new` accept the file. */
  predicate Opens(file: DiskFile, isVbq: bool)
  {
    if isVbq then file.opensAsVbq else file.opensAsBq
  }

  /**
   * `ReaderVariant::new`: the format's reader is opened on the path; the
   * stream cursor or block buffer is created only on the first request.
   */
  method Open(file: DiskFile, isVbq: bool) returns (r: Result<ReaderVariant, ReaderError>)
    ensures r.Ok? <==> Opens(file, isVbq)
    ensures r.Err? ==> r.error == BinseqError(OpenFailure(isVbq))
    ensures r.Ok? ==> fresh(r.value) && r.value.file == file
    ensures r.Ok? ==> r.value.cursor == if isVbq then Vbq(0, None, 0) else Standard(None)
  {
    if !Opens(file, isVbq) {
      return Err(BinseqError(OpenFailure(isVbq)));
    }
    var reader := new ReaderVariant(file, isVbq);
    r := Ok(reader);
  }

  class ReaderVariant {
    /** The file behind the path the reader was opened on. */
    const file: DiskFile
    var cursor: Cursor

    constructor (file: DiskFile, isVbq: bool)
      ensures this.file == file
      ensures cursor == if isVbq then Vbq(0, None, 0) else Standard(None)
    {
      this.file := file;
      cursor := if isVbq then Vbq(0, None, 0) else Standard(None);
    }

    function IsVbq(): bool
      reads this
    {
      cursor.Vbq?
    }

    /** `is_open`: a reader variant that exists is open, whatever its cursor. */
    function IsOpen(): (r: bool)
      ensures r
    {
      true
    }

    /** `next_record`, step by step on the cursor. */
    method NextRecord() returns (r: Result<Option<BqRecord>, ReaderError>)
      modifies this
      ensures Step(cursor, r) == NextStep(file, old(cursor))
    {
      match cursor {
        case Standard(streamReader) =>
          if streamReader.None? {
            if !file.stream.fileOpens {
              return Err(IoError);
            }
            if !file.stream.headerValid {
              return Err(RuntimeError(HeaderFailed));
            }
            cursor := Standard(Some(0));
          }
          var p := cursor.streamReader.value;
          if p >= |file.stream.items| {
            return Ok(None);
          }
          cursor := Standard(Some(p + 1));
          r := ItemResult(file.stream.items[p]);
        case Vbq(blocksRead, block, position) =>
          if block.None? {
            var read := ReadBlock(file.blocks, blocksRead);
            cursor := Vbq(blocksRead + 1, None, position);
            if read.BlockFailure? {
              return Err(RuntimeError(BlockReadFailed));
            }
            if read.NoMoreData? || read.records == [] {
              return Ok(None);
            }
            cursor := Vbq(blocksRead + 1, Some(read.records), 0);
          }
          if cursor.blockPosition >= |cursor.block.value| {
            var read := ReadBlock(file.blocks, cursor.blocksRead);
            cursor := Vbq(cursor.blocksRead + 1, Some(if read.Filled? then read.records else []), cursor.blockPosition);
            if read.BlockFailure? {
              return Err(RuntimeError(BlockReadFailed));
            }
            if cursor.block.value == [] {
              return Ok(None);
            }
            cursor := cursor.(blockPosition := 0);
          }
          var record := cursor.block.value[cursor.blockPosition];
          cursor := cursor.(blockPosition := cursor.blockPosition + 1);
          r := Yield(record, VbqDecodeFailed);
      }
    }

    /**
     * `close`: drops the stream cursor or the block buffer and nothing else;
     * the memory-mapped reader keeps its place among the blocks.
     */
    method Close()
      modifies this
      ensures old(cursor).Standard? ==> cursor == Standard(None)
      ensures old(cursor).Vbq? ==> cursor == old(cursor).(block := None)
    {
      match cursor {
        case Standard(_) => cursor := Standard(None);
        case Vbq(_, _, _) => cursor := cursor.(block := None);
      }
    }

    /** `count_records`: a fresh `RecordCounter` driven over the re-opened path. */
    method CountRecords(run: ScanRun) returns (r: Result<nat, ReaderError>)
      ensures !run.reopens ==> r == Err(BinseqError(OpenFailure(IsVbq())))
      ensures run.reopens && run.readFails ==> r == Err(RuntimeError(ProcessingFailed))
      ensures run.reopens && !run.readFails ==> r == Ok(|Flatten(run.batches)|)
    {
      var counter := new RecordCounter();
      if !run.reopens {
        return Err(BinseqError(OpenFailure(IsVbq())));
      }
      var processor := counter.Clone();
      RunRecordCounter(processor, run.batches);
      if run.readFails {
        return Err(RuntimeError(ProcessingFailed));
      }
      r := Ok(counter.Count());
    }

    /** `count_matches`: a fresh `GrepCounter` driven over the re-opened path. */
    method CountMatches(pattern: seq<Byte>, run: ScanRun) returns (r: Result<nat, ReaderError>)
      ensures !run.reopens ==> r == Err(BinseqError(OpenFailure(IsVbq())))
      ensures run.reopens && (run.readFails || !AllDecode(Flatten(run.batches))) ==> r == Err(RuntimeError(ProcessingFailed))
      ensures run.reopens && !run.readFails && AllDecode(Flatten(run.batches)) ==> r == Ok(Hits(pattern, Flatten(run.batches)))
    {
      var counter := new GrepCounter(pattern);
      if !run.reopens {
        return Err(BinseqError(OpenFailure(IsVbq())));
      }
      var processor := counter.Clone();
      var scan := RunGrep(processor, run.batches);
      if scan.Err? || run.readFails {
        return Err(RuntimeError(ProcessingFailed));
      }
      r := Ok(counter.Count());
    }

    /** `count_popbits`: a fresh `PopcntCounter` driven over the re-opened path. */
    method CountPopbits(run: ScanRun) returns (r: Result<nat, ReaderError>)
      ensures !run.reopens ==> r == Err(BinseqError(OpenFailure(IsVbq())))
      ensures run.reopens && (run.readFails || !AllDecode(Flatten(run.batches))) ==> r == Err(RuntimeError(ProcessingFailed))
      ensures run.reopens && !run.readFails && AllDecode(Flatten(run.batches)) ==> r == Ok(SumBy(RecordBits, Flatten(run.batches)))
    {
      var counter := new PopcntCounter();
      if !run.reopens {
        return Err(BinseqError(OpenFailure(IsVbq())));
      }
      var processor := counter.Clone();
      var scan := RunPopcnt(processor, run.batches);
      if scan.Err? || run.readFails {
        return Err(RuntimeError(ProcessingFailed));
      }
      r := Ok(counter.TotalCount());
    }

    /**
     * `process_parallel` with a `KmerCounter`: the caller's counter receives,
     * through the shared table, the windows of every record of the scan.
     */
    method ProcessParallelKmers(counter: KmerCounter, run: ScanRun) returns (r: Result<(), ReaderError>)
      requires counter.Valid() && counter.localKmers == map[]
      modifies counter.globalKmers
      ensures counter.Valid()
      ensures r.Ok? <==> run.reopens && !run.readFails && AllDecode(Flatten(run.batches))
      ensures !run.reopens ==> r == Err(BinseqError(OpenFailure(IsVbq()))) && counter.GetCounts() == old(counter.GetCounts())
      ensures run.reopens && r.Err? ==> r.error == RuntimeError(ProcessingFailed)
      ensures r.Ok? ==> counter.GetCounts() == Tally(old(counter.GetCounts()), AllWindows(Flatten(run.batches), counter.k))
    {
      if !run.reopens {
        return Err(BinseqError(OpenFailure(IsVbq())));
      }
      var processor := counter.Clone();
      var scan := RunKmers(processor, run.batches);
      if scan.Err? || run.readFails {
        return Err(RuntimeError(ProcessingFailed));
      }
      r := Ok(());
    }
  }
}
