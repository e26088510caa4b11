/**
 * The whole-file scan that binseq's `process_parallel` performs with a
 * prototype aggregator: the records are cut into batches, each batch is
 * visited by a clone of the prototype (which shares the prototype's global
 * cell), record after record, and the clone then folds its local state into
 * the global one.  The threads are replaced by running the batches one after
 * another; the batching itself is an arbitrary input, so every statement
 * below holds for whatever cut the scheduler chooses.  A record that fails to
 * decode stops the scan with its error.
 */
module ParallelScan {
  import opened Wrappers
  import opened Bytes
  import opened Binseq
  import opened Sums
  import opened Shared
  import opened RecordCounters
  import opened GrepCounters
  import opened PopcntCounters
  import opened KmerTally
  import opened KmerCounters

  /** Every record decodes (primary, and mate when paired). */
  predicate AllDecode(records: seq<Record>)
  {
    forall r :: r in records ==> Decodes(r)
  }

  lemma AllDecodeStep(records: seq<Record>, j: nat)
    requires j < |records| && AllDecode(records[..j]) && Decodes(records[j])
    ensures AllDecode(records[..j + 1])
  {
    assert records[..j + 1] == records[..j] + [records[j]];
  }

  /** `RecordCounter` over any batching: the global count grows by the number of records. */
  method RunRecordCounter(proto: RecordCounter, batches: seq<seq<Record>>)
    requires proto.localCount == 0
    modifies proto.count
    ensures proto.Count() == old(proto.Count()) + |Flatten(batches)|
  {
    var b := 0;
    while b < |batches|
      invariant 0 <= b <= |batches|
      invariant proto.count.value == old(proto.count.value) + |Flatten(batches[..b])|
    {
      var worker := proto.Clone();
      var j := 0;
      while j < |batches[b]|
        invariant 0 <= j <= |batches[b]|
        invariant worker.localCount == j
        invariant proto.count.value == old(proto.count.value) + |Flatten(batches[..b])|
      {
        worker.ProcessRecord(batches[b][j]);
        j := j + 1;
      }
      worker.OnBatchComplete();
      FlattenStep(batches, b);
      b := b + 1;
    }
    assert batches[..b] == batches;
  }

  /**
   * One worker's pass over one batch: the local count gains one per matching
   * record, up to the first record that fails to decode.
   */
  method VisitGrepBatch(worker: GrepCounter, batch: seq<Record>) returns (res: Result<(), DecodeError>)
    requires worker.localCount == 0
    modifies worker`localCount, worker`sbuf, worker`xbuf
    ensures res.Ok? <==> AllDecode(batch)
    ensures res.Ok? ==> worker.localCount == Hits(worker.pattern, batch)
  {
    var j := 0;
    while j < |batch|
      invariant 0 <= j <= |batch|
      invariant AllDecode(batch[..j])
      invariant worker.localCount == Hits(worker.pattern, batch[..j])
    {
      var r := worker.ProcessRecord(batch[j]);
      if r.Err? {
        return Err(r.error);
      }
      SumByPrefixStep(HitOf(worker.pattern), batch, j);
      AllDecodeStep(batch, j);
      j := j + 1;
    }
    assert batch[..j] == batch;
    res := Ok(());
  }

  /**
   * `GrepCounter` over any batching: the scan succeeds exactly when every
   * record decodes, and then the global count grows by the number of
   * matching records.
   */
  method RunGrep(proto: GrepCounter, batches: seq<seq<Record>>) returns (res: Result<(), DecodeError>)
    requires proto.localCount == 0
    modifies proto.count
    ensures res.Ok? <==> AllDecode(Flatten(batches))
    ensures res.Ok? ==> proto.Count() == old(proto.Count()) + Hits(proto.pattern, Flatten(batches))
  {
    var b := 0;
    while b < |batches|
      invariant 0 <= b <= |batches|
      invariant AllDecode(Flatten(batches[..b]))
      invariant proto.count.value == old(proto.count.value) + Hits(proto.pattern, Flatten(batches[..b]))
    {
      var worker := proto.Clone();
      var batch := batches[b];
      var r := VisitGrepBatch(worker, batch);
      if r.Err? {
        var x :| x in batch && !Decodes(x);
        FlattenMember(batches, b, x);
        return Err(r.error);
      }
      worker.OnBatchComplete();
      FlattenStep(batches, b);
      SumByAppend(HitOf(proto.pattern), Flatten(batches[..b]), batch);
      b := b + 1;
    }
    assert batches[..b] == batches;
    res := Ok(());
  }

  /**
   * One worker's pass over one batch: the local total gains the set bits of
   * every record, up to the first record that fails to decode.
   */
  method VisitPopcntBatch(worker: PopcntCounter, batch: seq<Record>) returns (res: Result<(), DecodeError>)
    requires worker.localPopcnt == 0
    modifies worker`localPopcnt
    ensures res.Ok? <==> AllDecode(batch)
    ensures res.Ok? ==> worker.localPopcnt == SumBy(RecordBits, batch)
  {
    var j := 0;
    while j < |batch|
      invariant 0 <= j <= |batch|
      invariant AllDecode(batch[..j])
      invariant worker.localPopcnt == SumBy(RecordBits, batch[..j])
    {
      var r := worker.ProcessRecord(batch[j]);
      if r.Err? {
        return Err(r.error);
      }
      SumByPrefixStep(RecordBits, batch, j);
      AllDecodeStep(batch, j);
      j := j + 1;
    }
    assert batch[..j] == batch;
    res := Ok(());
  }

  /**
   * `PopcntCounter` over any batching: the scan succeeds exactly when every
   * record decodes, and then the global total grows by the set bits of all
   * decoded sequences.
   */
  method RunPopcnt(proto: PopcntCounter, batches: seq<seq<Record>>) returns (res: Result<(), DecodeError>)
    requires proto.localPopcnt == 0
    modifies proto.totalPopcnt
    ensures res.Ok? <==> AllDecode(Flatten(batches))
    ensures res.Ok? ==> proto.TotalCount() == old(proto.TotalCount()) + SumBy(RecordBits, Flatten(batches))
  {
    var b := 0;
    while b < |batches|
      invariant 0 <= b <= |batches|
      invariant AllDecode(Flatten(batches[..b]))
      invariant proto.totalPopcnt.value == old(proto.totalPopcnt.value) + SumBy(RecordBits, Flatten(batches[..b]))
    {
      var worker := proto.Clone();
      var batch := batches[b];
      var r := VisitPopcntBatch(worker, batch);
      if r.Err? {
        var x :| x in batch && !Decodes(x);
        FlattenMember(batches, b, x);
        return Err(r.error);
      }
      worker.OnBatchComplete();
      FlattenStep(batches, b);
      SumByAppend(RecordBits, Flatten(batches[..b]), batch);
      b := b + 1;
    }
    assert batches[..b] == batches;
    res := Ok(());
  }

  /**
   * One worker's pass over one batch: the local table gains one count per
   * window of every record, up to the first record that fails to decode.
   */
  method VisitKmerBatch(worker: KmerCounter, batch: seq<Record>) returns (res: Result<(), DecodeError>)
    requires worker.Valid() && worker.localKmers == map[]
    modifies worker`localKmers, worker`sbuf, worker`xbuf
    ensures worker.Valid()
    ensures res.Ok? <==> AllDecode(batch)
    ensures res.Ok? ==> worker.localKmers == Tally(map[], AllWindows(batch, worker.k))
  {
    var j := 0;
    while j < |batch|
      invariant 0 <= j <= |batch|
      invariant worker.Valid()
      invariant AllDecode(batch[..j])
      invariant worker.localKmers == Tally(map[], AllWindows(batch[..j], worker.k))
    {
      var r := worker.ProcessRecord(batch[j]);
      if r.Err? {
        return Err(r.error);
      }
      AllWindowsTallyStep(map[], batch, j, worker.k);
      AllDecodeStep(batch, j);
      j := j + 1;
    }
    assert batch[..j] == batch;
    res := Ok(());
  }

  /**
   * `KmerCounter` over any batching: the scan succeeds exactly when every
   * record decodes, and then the global table has gained one count per
   * window of every decoded sequence.
   */
  method RunKmers(proto: KmerCounter, batches: seq<seq<Record>>) returns (res: Result<(), DecodeError>)
    requires proto.Valid() && proto.localKmers == map[]
    modifies proto.globalKmers
    ensures proto.Valid()
    ensures res.Ok? <==> AllDecode(Flatten(batches))
    ensures res.Ok? ==> proto.GetCounts() == Tally(old(proto.GetCounts()), AllWindows(Flatten(batches), proto.k))
  {
    ghost var g0 := proto.globalKmers.counts;
    var b := 0;
    while b < |batches|
      invariant 0 <= b <= |batches|
      invariant proto.Valid()
      invariant AllDecode(Flatten(batches[..b]))
      invariant proto.globalKmers.counts == Tally(g0, AllWindows(Flatten(batches[..b]), proto.k))
    {
      var worker := proto.Clone();
      var batch := batches[b];
      var r := VisitKmerBatch(worker, batch);
      if r.Err? {
        var x :| x in batch && !Decodes(x);
        FlattenMember(batches, b, x);
        return Err(r.error);
      }
      ghost var g := proto.globalKmers.counts;
      worker.OnBatchComplete();
      MergeTally(g, AllWindows(batch, proto.k));
      FlattenStep(batches, b);
      FlatMapAppend(WindowsOf(proto.k), Flatten(batches[..b]), batch);
      TallyAppend(g0, AllWindows(Flatten(batches[..b]), proto.k), AllWindows(batch, proto.k));
      b := b + 1;
    }
    assert batches[..b] == batches;
    res := Ok(());
  }

  /** A grep scan adds the same count for every batching and order of the same records. */
  lemma GrepScanIndependent(pattern: seq<Byte>, b1: seq<seq<Record>>, b2: seq<seq<Record>>)
    requires multiset(Flatten(b1)) == multiset(Flatten(b2))
    ensures Hits(pattern, Flatten(b1)) == Hits(pattern, Flatten(b2))
  {
    SumByPermutation(HitOf(pattern), Flatten(b1), Flatten(b2));
  }

  /** A popcount scan adds the same total for every batching and order of the same records. */
  lemma PopcntScanIndependent(b1: seq<seq<Record>>, b2: seq<seq<Record>>)
    requires multiset(Flatten(b1)) == multiset(Flatten(b2))
    ensures SumBy(RecordBits, Flatten(b1)) == SumBy(RecordBits, Flatten(b2))
  {
    SumByPermutation(RecordBits, Flatten(b1), Flatten(b2));
  }

  /** A k-mer scan yields the same table for every batching and order of the same records. */
  lemma KmerScanIndependent(g: Counts, k: nat, b1: seq<seq<Record>>, b2: seq<seq<Record>>)
    requires Positive(g)
    requires multiset(Flatten(b1)) == multiset(Flatten(b2))
    ensures Tally(g, AllWindows(Flatten(b1), k)) == Tally(g, AllWindows(Flatten(b2), k))
  {
    FlatMapPermutation(WindowsOf(k), Flatten(b1), Flatten(b2));
    TallyPermutation(g, AllWindows(Flatten(b1), k), AllWindows(Flatten(b2), k));
  }
}
