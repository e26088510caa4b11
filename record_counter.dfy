/** `RecordCounter`: counts every record, whatever its content. */
module RecordCounters {
  import opened Binseq
  import opened Shared

  class RecordCounter {
    /** Worker-local count, private to this clone. */
    var localCount: nat
    /** Global count, shared by all clones. */
    const count: SharedCount

    /** `RecordCounter::new`: both counts start at zero. */
    constructor ()
      ensures localCount == 0 && fresh(count) && Count() == 0
    {
      localCount := 0;
      count := new SharedCount();
    }

    /** The clone's constructor: a local count of its own, the same global cell. */
    constructor Share(localCount: nat, count: SharedCount)
      ensures this.localCount == localCount && this.count == count
    {
      this.localCount := localCount;
      this.count := count;
    }

    /** `#[derive(Clone)]`: the `Arc` is shared, the local count copied. */
    method Clone() returns (c: RecordCounter)
      ensures fresh(c) && c.count == count && c.localCount == localCount
    {
      c := new RecordCounter.Share(localCount, count);
    }

    /** `count()`: reads the global value only. */
    function Count(): (r: nat)
      reads count
      ensures r == count.value
    {
      count.value
    }

    /** One more record seen by this worker; the global count is untouched. */
    method ProcessRecord(record: Record)
      modifies this`localCount
      ensures localCount == old(localCount) + 1
    {
      localCount := localCount + 1;
    }

    /** Folds the local count into the global one and restarts the local count. */
    method OnBatchComplete()
      modifies this`localCount, count
      ensures count.value == old(count.value) + old(localCount)
      ensures localCount == 0
    {
      count.value := count.value + localCount;
      localCount := 0;
    }
  }
}
