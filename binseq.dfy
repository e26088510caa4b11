/**
 * The external binseq collaborator, reduced to values: a stored record and the
 * outcome of decoding it, and the two record sources as scripts of the
 * outcomes their successive calls produce.  The codec, the memory-mapped
 * reader and file access are not part of this model.
 */
module Binseq {
  import opened Bytes
  import opened Wrappers

  /** Outcome of `decode_s` / `decode_x` into a caller buffer. */
  datatype Decode = Decoded(bytes: seq<Byte>) | Malformed

  /** The error a failed decode reports. */
  datatype DecodeError = DecodeError

  /**
   * A stored record: its primary sequence and, when `is_paired()` holds, its
   * mate sequence (`mate == None` for an unpaired record).
   */
  datatype Record = Record(primary: Decode, mate: Option<Decode>)

  /** Every decode a visitor performs on `r` succeeds. */
  predicate Decodes(r: Record)
  {
    r.primary.Decoded? && (r.mate.Some? ==> r.mate.value.Decoded?)
  }

  predicate IsPaired(r: Record)
  {
    r.mate.Some?
  }

  /** What `decode_s` leaves in a cleared buffer: the bytes, or nothing on failure. */
  function PrimaryBuffer(r: Record): seq<Byte>
  {
    if r.primary.Decoded? then r.primary.bytes else []
  }

  /**
   * What the mate buffer holds after a record is processed: the mate bytes
   * for a paired record, the cleared (empty) buffer for an unpaired one.
   */
  function MateBuffer(r: Record): seq<Byte>
  {
    if r.mate.Some? && r.mate.value.Decoded? then r.mate.value.bytes else []
  }

  /** One `StreamReader::next_record` outcome: a record or a read error. */
  datatype StreamItem = Item(record: Record) | ReadFailure

  /**
   * A standard (BQ) file as a stream: whether `File::open` succeeds, whether
   * `read_header` succeeds, and the items the stream yields after the header;
   * past the last item the stream yields `None`.
   */
  datatype StreamSource = StreamSource(fileOpens: bool, headerValid: bool, items: seq<StreamItem>)

  /**
   * One `read_block_into` outcome: the block was filled with these records
   * (`Ok(true)`), no more data (`Ok(false)`), or an error.
   */
  datatype BlockRead = Filled(records: seq<Record>) | NoMoreData | BlockFailure

  /** The i-th `read_block_into` call on a VBQ reader; past the script, no more data. */
  function ReadBlock(script: seq<BlockRead>, i: nat): BlockRead
  {
    if i < |script| then script[i] else NoMoreData
  }

  /**
   * A file on disk as the readers see it: whether the path exists, whether
   * `BinseqReader::new` / `VbqReader::new` accept it, its stream view and the
   * script of its block reads.
   */
  datatype DiskFile = DiskFile(
    present: bool,
    opensAsBq: bool,
    opensAsVbq: bool,
    stream: StreamSource,
    blocks: seq<BlockRead>)

  /**
   * One whole-file parallel scan: whether re-opening the path succeeds, the
   * chunks of records the scan reads and hands to its workers, and whether
   * reading the file fails during the scan (an error of `process_parallel`
   * itself rather than of a worker).
   */
  datatype ScanRun = ScanRun(reopens: bool, batches: seq<seq<Record>>, readFails: bool)
}
