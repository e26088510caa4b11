/**
 * `GrepCounter`: counts the records whose primary or mate sequence contains a
 * fixed byte pattern as a contiguous substring.
 */
module GrepCounters {
  import opened Wrappers
  import opened Bytes
  import opened Binseq
  import opened Shared
  import opened Sums

  /** `pattern` occurs in `s` starting at offset `i`. */
  predicate OccursAt(pattern: seq<Byte>, s: seq<Byte>, i: nat)
  {
    i + |pattern| <= |s| && s[i..i + |pattern|] == pattern
  }

  /** `pattern` occurs in `s` at some offset. */
  ghost predicate IsSubstring(pattern: seq<Byte>, s: seq<Byte>)
  {
    exists i: nat :: OccursAt(pattern, s, i)
  }

  /**
   * `match_sequence`: exact substring search (memchr's `Finder`), no pattern
   * syntax; the empty pattern occurs everywhere.
   */
  function MatchSequence(pattern: seq<Byte>, s: seq<Byte>): (r: bool)
    ensures r <==> IsSubstring(pattern, s)
    decreases |s|
  {
    if |pattern| > |s| then false
    else if s[..|pattern|] == pattern then
      assert OccursAt(pattern, s, 0);
      true
    else
      var r := MatchSequence(pattern, s[1..]);
      assert r ==> IsSubstring(pattern, s) by {
        if r {
          var i: nat :| OccursAt(pattern, s[1..], i);
          assert s[i + 1..i + 1 + |pattern|] == s[1..][i..i + |pattern|];
          assert OccursAt(pattern, s, i + 1);
        }
      }
      assert IsSubstring(pattern, s) ==> r by {
        if IsSubstring(pattern, s) {
          var i: nat :| OccursAt(pattern, s, i);
          assert i != 0;
          assert s[1..][i - 1..i - 1 + |pattern|] == s[i..i + |pattern|];
          assert OccursAt(pattern, s[1..], i - 1);
        }
      }
      r
  }

  /** A record counts as one match when either buffer contains the pattern. */
  function RecordMatches(pattern: seq<Byte>, record: Record): bool
  {
    MatchSequence(pattern, PrimaryBuffer(record)) || MatchSequence(pattern, MateBuffer(record))
  }

  /** What one record adds to the count: 1 or 0, never more. */
  function Hit(pattern: seq<Byte>, record: Record): (r: nat)
    ensures r <= 1
  {
    if RecordMatches(pattern, record) then 1 else 0
  }

  /** `Hit` for a fixed pattern, as a function value. */
  function HitOf(pattern: seq<Byte>): Record -> nat
  {
    r => Hit(pattern, r)
  }

  /** The number of matching records among `records`. */
  function Hits(pattern: seq<Byte>, records: seq<Record>): nat
  {
    SumBy(HitOf(pattern), records)
  }

  class GrepCounter {
    var sbuf: seq<Byte>
    var xbuf: seq<Byte>
    var localCount: nat
    const pattern: seq<Byte>
    const count: SharedCount

    /** `GrepCounter::new`: the pattern is stored as given, both counts are zero. */
    constructor (pattern: seq<Byte>)
      ensures this.pattern == pattern && Count() == 0 && localCount == 0
      ensures sbuf == [] && xbuf == [] && fresh(count)
    {
      sbuf, xbuf := [], [];
      this.pattern := pattern;
      localCount := 0;
      count := new SharedCount();
    }

    constructor Share(sbuf: seq<Byte>, xbuf: seq<Byte>, localCount: nat, pattern: seq<Byte>, count: SharedCount)
      ensures this.sbuf == sbuf && this.xbuf == xbuf && this.localCount == localCount
      ensures this.pattern == pattern && this.count == count
    {
      this.sbuf, this.xbuf := sbuf, xbuf;
      this.localCount := localCount;
      this.pattern := pattern;
      this.count := count;
    }

    /** `#[derive(Clone)]`: private buffers and count copied, global cell shared. */
    method Clone() returns (c: GrepCounter)
      ensures fresh(c) && c.count == count && c.pattern == pattern
      ensures c.localCount == localCount && c.sbuf == sbuf && c.xbuf == xbuf
    {
      c := new GrepCounter.Share(sbuf, xbuf, localCount, pattern, count);
    }

    /** `count()`: the shared count of matching records; a worker's pending local count is not in it. */
    function Count(): (r: nat)
      reads count
      ensures r == count.value
    {
      count.value
    }

    method ClearBuffers()
      modifies this`sbuf, this`xbuf
      ensures sbuf == [] && xbuf == []
    {
      sbuf := [];
      xbuf := [];
    }

    /**
     * Both buffers are cleared, the primary (and, for a paired record, the
     * mate) decoded into them; a decode failure is returned without counting.
     */
    method ProcessRecord(record: Record) returns (r: Result<(), DecodeError>)
      modifies this`sbuf, this`xbuf, this`localCount
      ensures r.Ok? <==> Decodes(record)
      ensures sbuf == PrimaryBuffer(record)
      ensures xbuf == if record.primary.Decoded? then MateBuffer(record) else []
      ensures localCount == old(localCount) + if r.Ok? then Hit(pattern, record) else 0
    {
      ClearBuffers();
      match record.primary {
        case Malformed => return Err(DecodeError);
        case Decoded(bytes) => sbuf := bytes;
      }
      if record.mate.Some? {
        match record.mate.value {
          case Malformed => return Err(DecodeError);
          case Decoded(bytes) => xbuf := bytes;
        }
      }
      if MatchSequence(pattern, sbuf) || MatchSequence(pattern, xbuf) {
        localCount := localCount + 1;
      }
      r := Ok(());
    }

    method OnBatchComplete()
      modifies this`localCount, count
      ensures count.value == old(count.value) + old(localCount)
      ensures localCount == 0
    {
      count.value := count.value + localCount;
      localCount := 0;
    }
  }

  /**
   * An unpaired record is tested against an empty mate buffer, so for a
   * non-empty pattern only its primary sequence can match.
   */
  lemma UnpairedMatchesPrimaryOnly(pattern: seq<Byte>, record: Record)
    requires pattern != [] && !IsPaired(record)
    ensures RecordMatches(pattern, record) <==> IsSubstring(pattern, PrimaryBuffer(record))
  {
  }

  /** A paired record matches when either side does (OR, not AND). */
  lemma PairedMatchesEither(pattern: seq<Byte>, record: Record)
    requires IsPaired(record) && Decodes(record)
    ensures RecordMatches(pattern, record) <==>
      IsSubstring(pattern, record.primary.bytes) || IsSubstring(pattern, record.mate.value.bytes)
  {
  }

  /** The global count never exceeds the number of records merged into it. */
  lemma {:induction false} MatchesAtMostRecords(pattern: seq<Byte>, records: seq<Record>)
    ensures Hits(pattern, records) <= |records|
  {
    if records != [] {
      MatchesAtMostRecords(pattern, records[..|records| - 1]);
    }
  }
}
