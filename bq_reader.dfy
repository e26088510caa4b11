/**
 * `BqReader` (the current Python-facing reader): an optional reader variant
 * with the path's file, the number of records handed out and the worker
 * count.  Every operation that needs the variant fails once it is closed; the
 * k-mer operations reject `k == 0` before anything else and post-process the
 * shared k-mer table (sorting, truncating, summarising).
 */
module BqReaders {
  import opened Wrappers
  import opened Bytes
  import opened Binseq
  import opened Types
  import opened Sums
  import opened PopcntCounters
  import opened GrepCounters
  import opened KmerTally
  import opened KmerCounters
  import opened ParallelScan
  import opened ReaderVariants

  /** The Python exceptions raised; the messages are the fixed prefixes of the source's messages. */
  datatype PyErr = PyIOError(message: string) | PyRuntimeError(message: string) | PyValueError(message: string) | PyStopIteration

  const FileNotFound := "File not found"
  const ReaderClosed := "Reader is closed"
  const KMustBePositive := "k must be greater than 0"

  /**
   * The conversion of reader errors: I/O and format errors become `IOError`,
   * runtime errors `RuntimeError`.  The text of an operating-system error is
   * not modelled and is left empty.
   */
  function ToPyErr(e: ReaderError): (r: PyErr)
    ensures r.PyIOError? <==> e.IoError? || e.BinseqError?
    ensures r.PyRuntimeError? <==> e.RuntimeError?
    ensures e.BinseqError? || e.RuntimeError? ==> r.message == e.message
  {
    match e
    case IoError => PyIOError("")
    case BinseqError(message) => PyIOError(message)
    case RuntimeError(message) => PyRuntimeError(message)
  }

  // ------------------------------------------------------- k-mer post-processing

  type Entry = (Kmer, nat)

  /** Non-increasing by count. */
  predicate SortedDesc(v: seq<Entry>)
  {
    forall i, j :: 0 <= i < j < |v| ==> v[i].1 >= v[j].1
  }

  /** Every pair is a key of the table with its count. */
  predicate DrawnFrom(counts: Counts, v: seq<Entry>)
  {
    forall i :: 0 <= i < |v| ==> v[i].0 in counts && counts[v[i].0] == v[i].1
  }

  predicate Listed(v: seq<Entry>, w: Kmer)
  {
    exists i :: 0 <= i < |v| && v[i].0 == w
  }

  /** No key is listed twice. */
  predicate DistinctKeys(v: seq<Entry>)
  {
    forall i, j :: 0 <= i < j < |v| ==> v[i].0 != v[j].0
  }

  /** Every key of the table appears in the list. */
  predicate Covers(counts: Counts, v: seq<Entry>)
  {
    forall w :: w in counts ==> Listed(v, w)
  }

  /**
   * `top` is a best-first selection from the table: its pairs come from the
   * table, each key at most once, in non-increasing order of count, and no
   * key left out counts more than a key taken.
   */
  predicate IsTop(counts: Counts, top: seq<Entry>)
  {
    DrawnFrom(counts, top) && DistinctKeys(top) && SortedDesc(top) &&
    forall w, i :: w in counts && !Listed(top, w) && 0 <= i < |top| ==> counts[w] <= top[i].1
  }

  /** `counts.into_iter().collect()`: every entry once, in some order. */
  method CollectEntries(counts: Counts) returns (v: seq<Entry>)
    ensures |v| == |counts| && DrawnFrom(counts, v) && DistinctKeys(v) && Covers(counts, v)
  {
    var rest := counts.Keys;
    v := [];
    while rest != {}
      invariant rest <= counts.Keys
      invariant |v| + |rest| == |counts.Keys|
      invariant DrawnFrom(counts, v) && DistinctKeys(v)
      invariant forall i :: 0 <= i < |v| ==> v[i].0 !in rest
      invariant forall w :: w in counts && w !in rest ==> Listed(v, w)
      decreases |rest|
    {
      var w :| w in rest;
      ghost var before := v;
      v := v + [(w, counts[w])];
      forall u | u in counts && u !in rest - {w} ensures Listed(v, u) {
        if u == w {
          assert v[|v| - 1].0 == u;
        } else {
          var i :| 0 <= i < |before| && before[i].0 == u;
          assert v[i].0 == u;
        }
      }
      rest := rest - {w};
    }
  }

  method Swap(a: array<Entry>, i: nat, j: nat)
    requires i < a.Length && j < a.Length
    modifies a
    ensures a[..] == old(a[..])[i := old(a[j])][j := old(a[i])]
    ensures multiset(a[..]) == multiset(old(a[..]))
  {
    a[i], a[j] := a[j], a[i];
  }

  /** `sort_by(|a, b| b.1.cmp(&a.1))`, in place: a permutation sorted by count, largest first. */
  method SortByCountDescending(a: array<Entry>)
    modifies a
    ensures SortedDesc(a[..])
    ensures multiset(a[..]) == multiset(old(a[..]))
  {
    var i := 0;
    while i < a.Length
      invariant 0 <= i <= a.Length
      invariant SortedDesc(a[..i])
      invariant multiset(a[..]) == multiset(old(a[..]))
    {
      var j := i;
      while j > 0 && a[j - 1].1 < a[j].1
        invariant 0 <= j <= i
        invariant multiset(a[..]) == multiset(old(a[..]))
        invariant forall p, q :: 0 <= p < q <= i && q != j ==> a[p].1 >= a[q].1
        invariant 0 < j < i ==> a[j - 1].1 >= a[j + 1].1
      {
        Swap(a, j - 1, j);
        j := j - 1;
      }
      i := i + 1;
    }
  }

  /** In a list with distinct keys every entry occurs at most once. */
  lemma {:induction false} DistinctKeysOnce(v: seq<Entry>)
    requires DistinctKeys(v)
    ensures forall e :: multiset(v)[e] <= 1
  {
    if v != [] {
      var init, last := v[..|v| - 1], v[|v| - 1];
      assert v == init + [last];
      DistinctKeysOnce(init);
      assert last !in multiset(init) by {
        forall i | 0 <= i < |init| ensures init[i] != last {
          assert init[i].0 == v[i].0 != v[|v| - 1].0;
        }
      }
    }
  }

  /** A list in which every entry occurs at most once has no entry at two places. */
  lemma {:induction false} OnceDistinct(u: seq<Entry>)
    requires forall e :: multiset(u)[e] <= 1
    ensures forall i, j :: 0 <= i < j < |u| ==> u[i] != u[j]
  {
    if u != [] {
      var init, last := u[..|u| - 1], u[|u| - 1];
      assert u == init + [last];
      forall e ensures multiset(init)[e] <= 1 {
        assert multiset(u)[e] == multiset(init)[e] + multiset([last])[e];
      }
      OnceDistinct(init);
      assert multiset(u)[last] == multiset(init)[last] + 1;
      forall i | 0 <= i < |init| ensures init[i] != last {
        assert init[i] in multiset(init);
      }
    }
  }

  /** A permutation of a full listing of the table is a full listing of the table. */
  lemma PermutationKeepsEntries(counts: Counts, v: seq<Entry>, u: seq<Entry>)
    requires multiset(v) == multiset(u)
    requires DrawnFrom(counts, v) && DistinctKeys(v) && Covers(counts, v)
    ensures |u| == |v| && DrawnFrom(counts, u) && DistinctKeys(u) && Covers(counts, u)
  {
    DistinctKeysOnce(v);
    OnceDistinct(u);
    assert |u| == |multiset(u)| == |multiset(v)| == |v|;
    forall i | 0 <= i < |u| ensures u[i].0 in counts && counts[u[i].0] == u[i].1 {
      assert u[i] in multiset(v);
      var j :| 0 <= j < |v| && v[j] == u[i];
    }
    forall w | w in counts ensures Listed(u, w) {
      var i :| 0 <= i < |v| && v[i].0 == w;
      assert v[i] in multiset(u);
      var j :| 0 <= j < |u| && u[j] == v[i];
    }
  }

  /** The table's entries, every one once, sorted by count, largest first. */
  method SortedEntries(counts: Counts) returns (v: seq<Entry>)
    ensures |v| == |counts| && DrawnFrom(counts, v) && DistinctKeys(v) && Covers(counts, v) && SortedDesc(v)
  {
    var collected := CollectEntries(counts);
    var a := new Entry[|collected|](i requires 0 <= i < |collected| => collected[i]);
    assert a[..] == collected;
    SortByCountDescending(a);
    v := a[..];
    PermutationKeepsEntries(counts, collected, v);
  }

  /** Any prefix of a sorted full listing is a best-first selection. */
  lemma {:induction false} PrefixIsTop(counts: Counts, v: seq<Entry>, n: nat)
    requires n <= |v| && DrawnFrom(counts, v) && DistinctKeys(v) && Covers(counts, v) && SortedDesc(v)
    ensures IsTop(counts, v[..n])
  {
    var top := v[..n];
    assert forall i :: 0 <= i < n ==> top[i] == v[i];
    assert DrawnFrom(counts, top) && DistinctKeys(top) && SortedDesc(top);
    forall w, i | w in counts && !Listed(top, w) && 0 <= i < |top| ensures counts[w] <= top[i].1 {
      var j :| 0 <= j < |v| && v[j].0 == w;
      assert forall q :: 0 <= q < n ==> top[q].0 != w;
      assert j >= n by {
        assert forall q :: 0 <= q < n ==> v[q].0 != w;
      }
    }
  }

  function Min(a: nat, b: nat): nat
  {
    if a <= b then a else b
  }

  // ---------------------------------------------------------------- the scan

  /**
   * What a k-mer operation scans, or why it fails, in the order the checks
   * are made: k, then the open reader, then re-opening the path, then the
   * scan itself.
   */
  function KmerScan(k: nat, isOpen: bool, isVbq: bool, run: ScanRun): Result<Counts, PyErr>
  {
    if k == 0 then Err(PyValueError(KMustBePositive))
    else if !isOpen then Err(PyRuntimeError(ReaderClosed))
    else if !run.reopens then Err(PyIOError(OpenFailure(isVbq)))
    else if run.readFails || !AllDecode(Flatten(run.batches)) then Err(PyRuntimeError(ProcessingFailed))
    else Ok(Tally(map[], AllWindows(Flatten(run.batches), k)))
  }

  /**
   * A successful k-mer scan counts each k-mer exactly as often as it occurs
   * among the windows of the records, added up record by record, and every
   * key is a positive count of a k-length k-mer.
   */
  lemma KmerScanCounts(k: nat, isOpen: bool, isVbq: bool, run: ScanRun, w: Kmer)
    requires KmerScan(k, isOpen, isVbq, run).Ok?
    ensures Count(KmerScan(k, isOpen, isVbq, run).value, w) == SumBy(OccurrencesOf(k, w), Flatten(run.batches))
    ensures Positive(KmerScan(k, isOpen, isVbq, run).value)
  {
    AllWindowsCount(Flatten(run.batches), k, w);
    TallyPositive(map[], AllWindows(Flatten(run.batches), k));
  }

  /** The same file scanned under two batchings gives the same k-mer table. */
  lemma KmerScanBatchingIndependent(k: nat, isOpen: bool, isVbq: bool, run1: ScanRun, run2: ScanRun)
    requires run1.reopens == run2.reopens && run1.readFails == run2.readFails
    requires multiset(Flatten(run1.batches)) == multiset(Flatten(run2.batches))
    ensures KmerScan(k, isOpen, isVbq, run1) == KmerScan(k, isOpen, isVbq, run2)
  {
    var f1, f2 := Flatten(run1.batches), Flatten(run2.batches);
    assert AllDecode(f1) <==> AllDecode(f2) by {
      forall r ensures r in f1 <==> r in f2 {
        assert r in f1 <==> r in multiset(f1);
      }
    }
    KmerScanIndependent(map[], k, run1.batches, run2.batches);
  }

  /** `kmer_stats_parallel`'s dictionary. */
  datatype KmerStats = KmerStats(uniqueKmers: nat, totalKmers: nat, mostFrequentKmer: Option<Entry>)

  /**
   * The statistics describe the table: its number of keys, the sum of its
   * counts, and a most frequent entry exactly when it is not empty.
   */
  ghost predicate StatsOf(counts: Counts, stats: KmerStats)
  {
    stats.uniqueKmers == |counts| &&
    stats.totalKmers == SumValues(counts) &&
    (stats.mostFrequentKmer.None? <==> counts == map[]) &&
    (stats.mostFrequentKmer.Some? ==> IsTop(counts, [stats.mostFrequentKmer.value]))
  }

  /** An entry of the table whose count no other count exceeds is a best-first selection of one. */
  lemma MaximumIsTop(counts: Counts, e: Entry)
    requires e.0 in counts && counts[e.0] == e.1
    requires forall w :: w in counts ==> counts[w] <= e.1
    ensures IsTop(counts, [e])
  {
  }

  /** `kmer_profile_parallel`'s dictionary, the two floating-point metrics reduced to their presence. */
  datatype KmerProfile = KmerProfile(
    k: nat,
    uniqueKmers: nat,
    totalKmers: nat,
    mostFrequentKmer: Option<Entry>,
    topKmers: seq<Entry>,
    allCounts: Option<Counts>,
    hasDiversity: bool)

  // -------------------------------------------------------------- the reader

  /**
   * `BqReader::new`: the path must exist and open in the chosen format; the
   * worker count defaults to 1 and is stored as given otherwise, even 0.
   */
  method Open(file: DiskFile, nThreads: Option<nat>, isVbq: bool) returns (r: Result<BqReader, PyErr>)
    ensures !file.present ==> r == Err(PyIOError(FileNotFound))
    ensures file.present && !Opens(file, isVbq) ==> r == Err(PyIOError(OpenFailure(isVbq)))
    ensures r.Ok? <==> file.present && Opens(file, isVbq)
    ensures r.Ok? ==> fresh(r.value) && r.value.file == file && r.value.isVbq == isVbq
    ensures r.Ok? ==> r.value.currentIndex == 0 && r.value.nThreads == (if nThreads.Some? then nThreads.value else 1)
    ensures r.Ok? ==> r.value.reader != null && fresh(r.value.reader) && r.value.reader.file == file
    ensures r.Ok? ==> r.value.reader.cursor == if isVbq then Vbq(0, None, 0) else Standard(None)
  {
    var n := if nThreads.Some? then nThreads.value else 1;
    if !file.present {
      return Err(PyIOError(FileNotFound));
    }
    var variant := ReaderVariants.Open(file, isVbq);
    if variant.Err? {
      return Err(ToPyErr(variant.error));
    }
    var reader := new BqReader(variant.value, file, n, isVbq);
    r := Ok(reader);
  }

  class BqReader {
    var reader: ReaderVariant?
    const file: DiskFile
    var currentIndex: nat
    var nThreads: nat
    const isVbq: bool

    constructor (reader: ReaderVariant, file: DiskFile, nThreads: nat, isVbq: bool)
      ensures this.reader == reader && this.file == file && this.nThreads == nThreads && this.isVbq == isVbq
      ensures currentIndex == 0
    {
      this.reader := reader;
      this.file := file;
      this.nThreads := nThreads;
      this.isVbq := isVbq;
      currentIndex := 0;
    }

    /** `get_reader` / `get_reader_mut`: the variant, or "Reader is closed". */
    function GetReader(): (r: Result<ReaderVariant, ReaderError>)
      reads this
      ensures r.Ok? <==> reader != null
      ensures r.Ok? ==> r.value == reader
      ensures r.Err? ==> r.error == RuntimeError(ReaderClosed)
    {
      if reader == null then Err(RuntimeError(ReaderClosed)) else Ok(reader)
    }

    /** `is_open`: a reader is open while it holds a variant. */
    function IsOpen(): (r: bool)
      reads this
      ensures r <==> reader != null
    {
      reader != null && reader.IsOpen()
    }

    /** `len`: the number of records, by a full scan of the re-opened path. */
    method Len(run: ScanRun) returns (r: Result<nat, PyErr>)
      ensures reader == null ==> r == Err(PyRuntimeError(ReaderClosed))
      ensures reader != null && !run.reopens ==> r == Err(PyIOError(OpenFailure(reader.IsVbq())))
      ensures reader != null && run.reopens && run.readFails ==> r == Err(PyRuntimeError(ProcessingFailed))
      ensures reader != null && run.reopens && !run.readFails ==> r == Ok(|Flatten(run.batches)|)
    {
      var variant := GetReader();
      if variant.Err? {
        return Err(ToPyErr(variant.error));
      }
      var n := variant.value.CountRecords(run);
      if n.Err? {
        return Err(ToPyErr(n.error));
      }
      r := Ok(n.value);
    }

    /** `is_empty`: true exactly when `len` is 0, failing whenever `len` fails. */
    method IsEmpty(run: ScanRun) returns (r: Result<bool, PyErr>)
      ensures reader == null ==> r == Err(PyRuntimeError(ReaderClosed))
      ensures reader != null && !run.reopens ==> r == Err(PyIOError(OpenFailure(reader.IsVbq())))
      ensures reader != null && run.reopens && run.readFails ==> r == Err(PyRuntimeError(ProcessingFailed))
      ensures reader != null && run.reopens && !run.readFails ==> r == Ok(Flatten(run.batches) == [])
    {
      var n := Len(run);
      if n.Err? {
        return Err(n.error);
      }
      r := Ok(n.value == 0);
    }

    /** `count_matches`: the number of records whose primary or mate contains the pattern. */
    method CountMatches(pattern: seq<Byte>, run: ScanRun) returns (r: Result<nat, PyErr>)
      ensures reader == null ==> r == Err(PyRuntimeError(ReaderClosed))
      ensures reader != null && !run.reopens ==> r == Err(PyIOError(OpenFailure(reader.IsVbq())))
      ensures reader != null && run.reopens && (run.readFails || !AllDecode(Flatten(run.batches))) ==> r == Err(PyRuntimeError(ProcessingFailed))
      ensures reader != null && run.reopens && !run.readFails && AllDecode(Flatten(run.batches)) ==> r == Ok(Hits(pattern, Flatten(run.batches)))
    {
      var variant := GetReader();
      if variant.Err? {
        return Err(ToPyErr(variant.error));
      }
      var n := variant.value.CountMatches(pattern, run);
      if n.Err? {
        return Err(ToPyErr(n.error));
      }
      r := Ok(n.value);
    }

    /** `popcnt`: the one bits of every decoded sequence of the file. */
    method Popcnt(run: ScanRun) returns (r: Result<nat, PyErr>)
      ensures reader == null ==> r == Err(PyRuntimeError(ReaderClosed))
      ensures reader != null && !run.reopens ==> r == Err(PyIOError(OpenFailure(reader.IsVbq())))
      ensures reader != null && run.reopens && (run.readFails || !AllDecode(Flatten(run.batches))) ==> r == Err(PyRuntimeError(ProcessingFailed))
      ensures reader != null && run.reopens && !run.readFails && AllDecode(Flatten(run.batches)) ==> r == Ok(SumBy(RecordBits, Flatten(run.batches)))
    {
      var variant := GetReader();
      if variant.Err? {
        return Err(ToPyErr(variant.error));
      }
      var n := variant.value.CountPopbits(run);
      if n.Err? {
        return Err(ToPyErr(n.error));
      }
      r := Ok(n.value);
    }

    /**
     * The shared prelude of the k-mer operations: check k, take the variant,
     * drive a fresh `KmerCounter` over the re-opened path.
     */
    method ScanKmerCounter(k: nat, run: ScanRun) returns (r: Result<KmerCounter, PyErr>)
      ensures var scan := KmerScan(k, reader != null, reader != null && reader.IsVbq(), run);
        (r.Err? <==> scan.Err?) && (r.Err? ==> r.error == scan.error) &&
        (r.Ok? ==> fresh(r.value) && fresh(r.value.globalKmers) && r.value.Valid() && r.value.GetCounts() == scan.value)
    {
      if k == 0 {
        return Err(PyValueError(KMustBePositive));
      }
      var variant := GetReader();
      if variant.Err? {
        return Err(ToPyErr(variant.error));
      }
      var counter := new KmerCounter(k);
      var scan := variant.value.ProcessParallelKmers(counter, run);
      if scan.Err? {
        return Err(ToPyErr(scan.error));
      }
      r := Ok(counter);
    }

    /** The k-mer table of the scan, or why there is none. */
    method ScanKmers(k: nat, run: ScanRun) returns (r: Result<Counts, PyErr>)
      ensures r == KmerScan(k, reader != null, reader != null && reader.IsVbq(), run)
    {
      var counter := ScanKmerCounter(k, run);
      if counter.Err? {
        return Err(counter.error);
      }
      r := Ok(counter.value.GetCounts());
    }

    /** `count_kmers_parallel`: the whole k-mer table of the file. */
    method CountKmersParallel(k: nat, run: ScanRun) returns (r: Result<Counts, PyErr>)
      ensures k == 0 ==> r == Err(PyValueError(KMustBePositive))
      ensures r == KmerScan(k, reader != null, reader != null && reader.IsVbq(), run)
    {
      r := ScanKmers(k, run);
    }

    /** `kmer_stats_parallel`: distinct k-mers, their total, and a most frequent one. */
    method KmerStatsParallel(k: nat, run: ScanRun) returns (r: Result<KmerStats, PyErr>)
      ensures k == 0 ==> r == Err(PyValueError(KMustBePositive))
      ensures var scan := KmerScan(k, reader != null, reader != null && reader.IsVbq(), run);
        (r.Err? <==> scan.Err?) && (r.Err? ==> r.error == scan.error) &&
        (r.Ok? ==> StatsOf(scan.value, r.value))
    {
      var scan := ScanKmerCounter(k, run);
      if scan.Err? {
        return Err(scan.error);
      }
      var counter := scan.value;
      var unique := counter.UniqueKmerCount();
      var total := counter.TotalKmerCount();
      var most := counter.MostFrequentKmer();
      if most.Some? {
        MaximumIsTop(counter.GetCounts(), most.value);
      }
      r := Ok(KmerStats(unique, total, most));
    }

    /** `top_kmers_parallel`: the n most frequent k-mers, largest count first. */
    method TopKmersParallel(k: nat, n: nat, run: ScanRun) returns (r: Result<seq<Entry>, PyErr>)
      ensures k == 0 ==> r == Err(PyValueError(KMustBePositive))
      ensures var scan := KmerScan(k, reader != null, reader != null && reader.IsVbq(), run);
        (r.Err? <==> scan.Err?) && (r.Err? ==> r.error == scan.error) &&
        (r.Ok? ==> |r.value| == Min(n, |scan.value|) && IsTop(scan.value, r.value))
    {
      var scan := ScanKmers(k, run);
      if scan.Err? {
        return Err(scan.error);
      }
      var entries := SortedEntries(scan.value);
      var m := Min(n, |entries|);
      PrefixIsTop(scan.value, entries, m);
      r := Ok(entries[..m]);
    }

    /**
     * `kmer_profile_parallel`: k, the distinct and total counts, the first
     * entry of the sorted table (whatever `top_n`), its first `top_n` entries,
     * the table itself on request, and the diversity metrics exactly when
     * some k-mer was counted.
     */
    method KmerProfileParallel(k: nat, includeCounts: bool, topN: nat, run: ScanRun) returns (r: Result<KmerProfile, PyErr>)
      ensures k == 0 ==> r == Err(PyValueError(KMustBePositive))
      ensures var scan := KmerScan(k, reader != null, reader != null && reader.IsVbq(), run);
        (r.Err? <==> scan.Err?) && (r.Err? ==> r.error == scan.error) &&
        (r.Ok? ==>
          r.value.k == k &&
          r.value.uniqueKmers == |scan.value| &&
          r.value.totalKmers == SumValues(scan.value) &&
          (r.value.mostFrequentKmer.None? <==> scan.value == map[]) &&
          (r.value.mostFrequentKmer.Some? ==> IsTop(scan.value, [r.value.mostFrequentKmer.value])) &&
          |r.value.topKmers| == Min(topN, |scan.value|) && IsTop(scan.value, r.value.topKmers) &&
          (r.value.topKmers != [] ==> r.value.mostFrequentKmer == Some(r.value.topKmers[0])) &&
          r.value.allCounts == (if includeCounts then Some(scan.value) else None) &&
          (r.value.hasDiversity <==> scan.value != map[]))
    {
      var scan := ScanKmers(k, run);
      if scan.Err? {
        return Err(scan.error);
      }
      var counts := scan.value;
      KmerScanCounts(k, reader != null, reader != null && reader.IsVbq(), run, []);
      var total := SumOfCounts(counts);
      SumValuesZero(counts);
      var entries := SortedEntries(counts);
      var most: Option<Entry> := None;
      var top: seq<Entry> := [];
      if entries != [] {
        most := Some(entries[0]);
        PrefixIsTop(counts, entries, 1);
        assert entries[..1] == [entries[0]];
        top := entries[..Min(topN, |entries|)];
        PrefixIsTop(counts, entries, |top|);
      } else {
        assert |counts.Keys| == 0;
        PrefixIsTop(counts, entries, 0);
      }
      r := Ok(KmerProfile(k, |counts|, total, most, top, if includeCounts then Some(counts) else None, total > 0));
    }

    /** `set_n_threads`: at least one worker. */
    method SetNThreads(n: nat)
      modifies this`nThreads
      ensures nThreads == if n >= 1 then n else 1
    {
      nThreads := if n >= 1 then n else 1;
    }

    /** `sequence_length`: a placeholder 0 while open, "Reader is closed" after. */
    function SequenceLength(): (r: Result<nat, PyErr>)
      reads this
      ensures r.Ok? <==> reader != null
      ensures r.Ok? ==> r.value == 0
      ensures r.Err? ==> r.error == PyRuntimeError(ReaderClosed)
    {
      if reader != null then Ok(0) else Err(PyRuntimeError(ReaderClosed))
    }

    /** `close_reader`: closes the variant if there is one and drops it. */
    method CloseReader()
      modifies this`reader, reader
      ensures reader == null
      ensures old(reader) != null && old(reader.cursor).Standard? ==> old(reader).cursor == Standard(None)
      ensures old(reader) != null && old(reader.cursor).Vbq? ==> old(reader).cursor == old(reader.cursor).(block := None)
    {
      if reader != null {
        reader.Close();
      }
      reader := null;
    }

    /** `__exit__`: closes the reader and never suppresses the exception. */
    method Exit() returns (suppress: bool)
      modifies this`reader, reader
      ensures reader == null && !suppress
    {
      CloseReader();
      suppress := false;
    }

    /**
     * `__next__`: the next record of the variant, counted in `current_index`;
     * the end of the records becomes `StopIteration` and leaves the index.
     */
    method Next() returns (r: Result<BqRecord, PyErr>)
      modifies this`currentIndex, reader
      ensures old(reader) == null ==> r == Err(PyRuntimeError(ReaderClosed)) && currentIndex == old(currentIndex)
      ensures old(reader) != null ==>
        var step := NextStep(reader.file, old(reader.cursor));
        reader.cursor == step.cursor &&
        (step.result.Err? ==> r == Err(ToPyErr(step.result.error)) && currentIndex == old(currentIndex)) &&
        (step.result == Ok(None) ==> r == Err(PyStopIteration) && currentIndex == old(currentIndex)) &&
        (step.result.Ok? && step.result.value.Some? ==> r == Ok(step.result.value.value) && currentIndex == old(currentIndex) + 1)
    {
      var variant := GetReader();
      if variant.Err? {
        return Err(ToPyErr(variant.error));
      }
      var next := variant.value.NextRecord();
      if next.Err? {
        return Err(ToPyErr(next.error));
      }
      match next.value {
        case None => r := Err(PyStopIteration);
        case Some(record) =>
          currentIndex := currentIndex + 1;
          r := Ok(record);
      }
    }
  }
}
