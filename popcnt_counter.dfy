/**
 * `PopcntCounter`: sums the one bits of the decoded bytes (primary, and mate
 * when paired) of every record.  The count is taken over the decoded ASCII
 * bytes handed back by the decoder, not over the packed on-disk encoding.
 */
module PopcntCounters {
  import opened Wrappers
  import opened Bytes
  import opened Binseq
  import opened Shared

  /** What one successfully decoded record adds: primary bits plus mate bits. */
  function RecordBits(record: Record): (r: nat)
    ensures r <= 8 * (|PrimaryBuffer(record)| + |MateBuffer(record)|)
  {
    SetBits(PrimaryBuffer(record)) + SetBits(MateBuffer(record))
  }

  class PopcntCounter {
    const totalPopcnt: SharedCount
    var localPopcnt: nat

    /** `PopcntCounter::new` / `default`: both totals start at zero. */
    constructor ()
      ensures TotalCount() == 0 && localPopcnt == 0 && fresh(totalPopcnt)
    {
      totalPopcnt := new SharedCount();
      localPopcnt := 0;
    }

    constructor Share(totalPopcnt: SharedCount, localPopcnt: nat)
      ensures this.totalPopcnt == totalPopcnt && this.localPopcnt == localPopcnt
    {
      this.totalPopcnt := totalPopcnt;
      this.localPopcnt := localPopcnt;
    }

    method Clone() returns (c: PopcntCounter)
      ensures fresh(c) && c.totalPopcnt == totalPopcnt && c.localPopcnt == localPopcnt
    {
      c := new PopcntCounter.Share(totalPopcnt, localPopcnt);
    }

    /** `total_count()`: the shared total; a worker's pending local total is not in it. */
    function TotalCount(): (r: nat)
      reads totalPopcnt
      ensures r == totalPopcnt.value
    {
      totalPopcnt.value
    }

    /** `reset`: the global total becomes zero whatever it was. */
    method Reset()
      modifies totalPopcnt
      ensures TotalCount() == 0
    {
      totalPopcnt.value := 0;
    }

    /**
     * Adds the primary's bits, then, for a paired record, the mate's.  A
     * failing mate decode is reported after the primary's bits were added.
     */
    method ProcessRecord(record: Record) returns (r: Result<(), DecodeError>)
      modifies this`localPopcnt
      ensures r.Ok? <==> Decodes(record)
      ensures localPopcnt == old(localPopcnt) +
        if record.primary.Malformed? then 0 else SetBits(PrimaryBuffer(record)) + SetBits(MateBuffer(record))
    {
      var sbuf: seq<Byte>;
      match record.primary {
        case Malformed => return Err(DecodeError);
        case Decoded(bytes) => sbuf := bytes;
      }
      localPopcnt := localPopcnt + SetBits(sbuf);
      if record.mate.Some? {
        var xbuf: seq<Byte>;
        match record.mate.value {
          case Malformed => return Err(DecodeError);
          case Decoded(bytes) => xbuf := bytes;
        }
        localPopcnt := localPopcnt + SetBits(xbuf);
      }
      r := Ok(());
    }

    method OnBatchComplete()
      modifies this`localPopcnt, totalPopcnt
      ensures totalPopcnt.value == old(totalPopcnt.value) + old(localPopcnt)
      ensures localPopcnt == 0
    {
      totalPopcnt.value := totalPopcnt.value + localPopcnt;
      localPopcnt := 0;
    }
  }
}
