# pybq in Dafny

pybq is a Python extension written in Rust. It reads binseq files: the fixed-width BQ
format and the block-compressed VBQ format. It scans a file in parallel with four
aggregators:

- a record counter;
- a pattern counter (`GrepCounter`);
- a population-count counter;
- a k-mer counter.

It exposes a `BqReader` class that iterates records and runs those scans. The repository
holds two readers:

- `src/python/bq_reader.rs`, on top of the `ReaderVariant` enum;
- the older self-contained `src/python/reader.rs`.

This project models both readers, the variant and the aggregators. It proves what they compute.

Layout, one module per file:

- `Wrappers`: `Option` and `Result`.
- `Bytes`: bytes as integers 0..255, and the population count of a byte sequence.
- `Sums`: sums and flat maps over sequences and over a batching of records. Both are
  independent of the batching and of the visiting order.
- `Binseq`: the external binseq crate, reduced to values.
  - A `Record` is a primary sequence plus an optional mate. Each either decodes to bytes or is malformed.
  - A `DiskFile` says whether the path exists and whether each reader accepts it.
  - The stream reader is a script of the items it yields.
  - The VBQ reader is a script of what its successive `read_block_into` calls return.
  - A `ScanRun` says whether re-opening the path for a scan succeeds. It also holds the
    batches into which `process_parallel` cuts the records, and whether reading the file
    fails during the scan.
- `Types`: `BqRecord`, the decoded sequence and its bytes.
- `Shared`: the `Arc<Mutex<_>>` cell shared by an aggregator and its clones, as a heap object.
- `RecordCounters`, `GrepCounters`, `PopcntCounters`, `KmerCounters`: the four
  `ParallelProcessor` implementations as classes.
  - Each has its thread-local fields and a `const` reference to the shared cell.
  - `Clone` shares the cell, as `#[derive(Clone)]` on an `Arc` does.
- `KmerTally`: the k-mer table as a `map` from k-mers to counts, with its algebra. This covers
  sliding windows, tallies, merges and sums.
- `ParallelScan`: `process_parallel` as a sequential visit of an arbitrary batching.
  - Each batch goes to a clone, which calls `process_record` on every record and then
    `on_batch_complete`.
  - The run stops at the first failing record.
  - The results are proved independent of the batching.
- `ReaderVariants`: `ReaderVariant`.
  - The iteration state machine is the pure function `NextStep`, and the imperative
    `NextRecord` is proved equal to it.
  - Trace lemmas say what a whole iteration yields.
- `BqReaders`: the current Python `BqReader`, including the k-mer reports. Sorting is an
  in-place insertion sort on an array.
- `LegacyReaders`: the older `BqReader` from `src/python/reader.rs`. Its iteration fields
  are kept on the reader itself.

The Python-visible errors are a datatype `PyErr`. A message is the fixed prefix the source
formats, without the text of the underlying error.

## Model

| member | source | states |
|---|---|---|
| Bytes.CountOnesBelow | src/core/popcnt_counter.rs:28 | a value below 2^n has at most n one bits |
| Bytes.CountOnes | src/core/popcnt_counter.rs:28 | `u8::count_ones`: never more one bits than the value itself, and none exactly for 0 |
| Bytes.ByteCountOnes | src/core/popcnt_counter.rs:28 | `count_ones` of a byte is at most 8 |
| Bytes.SetBits | src/core/popcnt_counter.rs:26-30 | the population count of a byte sequence is at most 8 per byte |
| Bytes.SetBitsAppend | src/core/popcnt_counter.rs:26-30 | the population count of a concatenation is the sum of the two counts |
| Bytes.SetBitsExamples | src/core/popcnt_counter.rs:86-103 | `[0xFF, 0x00, 0xAA]` has 12 one bits and the empty sequence 0, as the unit tests expect |
| Sums.SumByAppend | src/core/record_counter.rs:41-46 | adding per-batch sums into the shared total is summing over the concatenated batches |
| Sums.SumByPermutation | src/python/reader/variant.rs:84-104 | a sum of per-record contributions does not depend on the order in which records are visited |
| Sums.SumByFlattenStep | src/python/reader/variant.rs:84-104 | merging one more batch adds that batch's sum to the total |
| Sums.FlatMapAppend | src/core/counters/kmer.rs:79-109 | the windows of a concatenation of records are the windows of each part, in order |
| Sums.FlatMapOccurrences | src/core/counters/kmer.rs:79-109 | a k-mer occurs in all windows of a set of records as often as in each record's windows, added up |
| Sums.FlatMapPermutation | src/python/reader/variant.rs:84-104 | permuting the records permutes the collected windows: every k-mer occurs equally often |
| Sums.FlattenMember | src/python/reader/variant.rs:84-104 | every record of every batch is among the records of the scan |
| Types.BqRecord.Shape | src/core/types.rs:41-43 | the array shape is one dimension, the data length |
| Types.BqRecord.GetSequence | src/core/types.rs:21-23 | the nucleotide string the record was made with |
| Types.BqRecord.DataLen | src/core/types.rs:36-38 | the number of stored bytes, which is also the one dimension of the shape |
| Types.BqRecord.Strides | src/core/types.rs:46-48 | the stride is one byte |
| Types.BqRecord.Dtype | src/core/types.rs:51-53 | the element type is `uint8` |
| Types.BqRecord.Popcnt | src/core/types.rs:69-73 | a record's population count is at most 8 per encoded byte |
| Types.NewRecord | src/core/types.rs:76-80 | the record keeps the sequence and bytes given; its length and shape are the byte count |
| Types.PopcntOfConcat | src/core/types.rs:69-73 | the population count of a record is additive over its encoded bytes |
| RecordCounters.RecordCounter.constructor | src/core/record_counter.rs:15-20 | a new counter has a fresh shared cell at 0 and a local count of 0 |
| RecordCounters.RecordCounter.Count | src/core/record_counter.rs:23-25 | the value of the shared cell only; a worker's local count shows up there after `on_batch_complete` |
| RecordCounters.RecordCounter.Clone | src/core/record_counter.rs:6-10 | a clone copies the local count and shares the global cell |
| RecordCounters.RecordCounter.ProcessRecord | src/core/record_counter.rs:35-39 | every record adds one to the local count |
| RecordCounters.RecordCounter.OnBatchComplete | src/core/record_counter.rs:41-46 | the local count is added to the shared count and reset to 0 |
| GrepCounters.MatchSequence | src/core/counter.rs:36-39 | true exactly when the pattern occurs as a contiguous substring, in both directions; the empty pattern occurs everywhere |
| GrepCounters.Hit | src/core/counter.rs:66-68 | a record adds at most one match, even when both sides match |
| GrepCounters.GrepCounter.constructor | src/core/counter.rs:25-33 | the pattern is kept, both buffers are empty, and both counts are 0 |
| GrepCounters.GrepCounter.Count | src/core/counter.rs:48-50 | the value of the shared cell only; a worker's local count shows up there after `on_batch_complete` |
| GrepCounters.GrepCounter.Clone | src/core/counter.rs:8-20 | a clone copies buffers, pattern and local count and shares the global cell |
| GrepCounters.GrepCounter.ClearBuffers | src/core/counter.rs:42-45 | both buffers are emptied |
| GrepCounters.GrepCounter.ProcessRecord | src/core/counter.rs:54-71 | succeeds exactly when every decode succeeds; buffers hold the decoded sides; counts one when either side contains the pattern, nothing on failure |
| GrepCounters.GrepCounter.OnBatchComplete | src/core/counter.rs:73-78 | the local count is added to the shared count and reset to 0 |
| GrepCounters.UnpairedMatchesPrimaryOnly | src/core/counter.rs:60-68 | for an unpaired record and a non-empty pattern, only the primary sequence decides the match |
| GrepCounters.PairedMatchesEither | src/core/counter.rs:65-68 | a paired record matches when the primary or the mate contains the pattern |
| GrepCounters.MatchesAtMostRecords | src/core/counter.rs:66-68 | the number of matching records never exceeds the number of records |
| PopcntCounters.RecordBits | src/core/popcnt_counter.rs:54-68 | a record contributes at most 8 bits per decoded byte of its primary and mate |
| PopcntCounters.PopcntCounter.constructor | src/core/popcnt_counter.rs:17-22 | a new counter has a fresh shared total at 0 and a local count of 0 |
| PopcntCounters.PopcntCounter.TotalCount | src/core/popcnt_counter.rs:33-35 | the value of the shared total only; a worker's local total shows up there after `on_batch_complete` |
| PopcntCounters.PopcntCounter.Clone | src/core/popcnt_counter.rs:7-12 | a clone copies the local count and shares the total |
| PopcntCounters.PopcntCounter.Reset | src/core/popcnt_counter.rs:38-40 | the shared total becomes 0 |
| PopcntCounters.PopcntCounter.ProcessRecord | src/core/popcnt_counter.rs:50-71 | succeeds exactly when every decode succeeds; adds the primary's one bits, then the mate's; a failing mate decode keeps the primary's bits already added |
| PopcntCounters.PopcntCounter.OnBatchComplete | src/core/popcnt_counter.rs:73-78 | the local count is added to the shared total and reset to 0 |
| KmerTally.Windows | src/core/counters/kmer.rs:86-91 | no window when k is 0 or longer than the sequence, otherwise `len - k + 1` windows, the i-th being `s[i..i+k]` |
| KmerTally.Merge | src/core/counters/kmer.rs:111-118 | the merged table has exactly the k-mers of both tables |
| KmerTally.MergeCount | src/core/counters/kmer.rs:114-116 | after a merge, each k-mer's count is the global count plus the local count |
| KmerTally.TallyCount | src/core/counters/kmer.rs:88-91 | after counting windows, each k-mer's count grows by its number of occurrences among them |
| KmerTally.TallyKeys | src/core/counters/kmer.rs:88-91 | counting windows adds exactly the windows seen as keys |
| KmerTally.TallyPositive | src/core/counters/kmer.rs:88-91 | a table never holds a zero count, since an entry is created only to be incremented |
| KmerTally.TallyKeysOfLength | src/core/counters/kmer.rs:86-91 | every key of the table has length k |
| KmerTally.TallyAppend | src/core/counters/kmer.rs:79-109 | counting the primary's windows then the mate's is counting their concatenation |
| KmerTally.TallyPermutation | src/core/counters/kmer.rs:88-91 | the table does not depend on the order in which windows are counted |
| KmerTally.MergeTally | src/core/counters/kmer.rs:111-118 | merging a batch's table into the global one is counting the batch's windows into it |
| KmerTally.SumValuesAdd | src/core/counters/kmer.rs:59-61 | adding n to one entry adds n to the total |
| KmerTally.TallySum | src/core/counters/kmer.rs:59-61 | the total of the table grows by the number of windows counted |
| KmerTally.MergeRemove | src/core/counters/kmer.rs:114-116 | draining one local entry into the global table is one step of the merge |
| KmerTally.MergeValid | src/core/counters/kmer.rs:111-118 | merging keeps every count positive and every key of length k |
| KmerTally.MergeSum | src/core/counters/kmer.rs:111-118 | the total after a merge is the sum of both totals |
| KmerTally.SumValuesZero | src/core/counters/kmer.rs:59-69 | the total is 0 exactly when the table is empty |
| KmerTally.CountAtMostSum | src/core/counters/kmer.rs:59-69 | no k-mer's count exceeds the total |
| KmerTally.WindowsTally | src/core/counters/kmer.rs:33-46 | a too-short sequence or k = 0 leaves the table unchanged; otherwise the total grows by `len - k + 1` |
| KmerTally.AllWindowsCount | src/core/counters/kmer.rs:79-118 | a k-mer's count after a scan is the sum over records of its occurrences in each record's windows |
| KmerTally.AllWindowsTotal | src/core/counters/kmer.rs:79-118 | the total after a scan is the sum over records of their window counts |
| KmerCounters.KmerTable.constructor | src/core/counters/kmer.rs:24 | the shared table starts empty |
| KmerCounters.KmerTable.AddAll | src/core/counters/kmer.rs:113-116 | the drain loop leaves the table equal to the merge of the old table and the local one |
| KmerCounters.SumOfCounts | src/core/counters/kmer.rs:59-61 | the loop returns the sum of all counts |
| KmerCounters.KmerCounter.constructor | src/core/counters/kmer.rs:20-28 | k is kept, the buffers and both tables are empty, and the global table is fresh |
| KmerCounters.KmerCounter.GetCounts | src/core/counters/kmer.rs:49-51 | the shared table; for a well-formed counter every count is positive and every key has length k |
| KmerCounters.KmerCounter.Clone | src/core/counters/kmer.rs:8-15 | a clone copies k, the local table and the buffers, and shares the global table |
| KmerCounters.KmerCounter.CountKmersInSequence | src/core/counters/kmer.rs:33-46 | the loop counts every window of the sequence into the local table |
| KmerCounters.KmerCounter.UniqueKmerCount | src/core/counters/kmer.rs:54-56 | the number of distinct k-mers in the global table |
| KmerCounters.KmerCounter.TotalKmerCount | src/core/counters/kmer.rs:59-61 | the sum of the global counts |
| KmerCounters.KmerCounter.MostFrequentKmer | src/core/counters/kmer.rs:64-69 | none exactly for an empty table, otherwise an entry of the table whose count is the maximum |
| KmerCounters.KmerCounter.ClearBuffers | src/core/counters/kmer.rs:72-75 | both buffers are emptied |
| KmerCounters.KmerCounter.ProcessRecord | src/core/counters/kmer.rs:79-109 | succeeds exactly when every decode succeeds; counts the windows of the primary and of the mate; a failing mate decode keeps the primary's windows |
| KmerCounters.KmerCounter.OnBatchComplete | src/core/counters/kmer.rs:111-118 | the global table becomes the merge of itself and the local table; the local table is emptied |
| KmerCounters.CountKmersExample | src/core/counters/kmer.rs:125-137 | "ATCGATCG" with k = 3 gives ATC:2, TCG:2, CGA:1, GAT:1 |
| KmerCounters.ExampleWindows | src/core/counters/kmer.rs:125-137 | the width-3 windows of "ATCGATCG" are ATC, TCG, CGA, GAT, ATC, TCG in that order |
| KmerCounters.ExampleTally | src/core/counters/kmer.rs:125-137 | counting those six windows gives ATC:2, TCG:2, CGA:1, GAT:1 |
| ParallelScan.RunRecordCounter | src/python/reader/variant.rs:84-104 | a scan adds the number of records of all batches to the shared count |
| ParallelScan.RunGrep | src/python/reader/variant.rs:84-104 | a scan fails exactly when some record does not decode; otherwise it adds the number of matching records |
| ParallelScan.RunPopcnt | src/python/reader/variant.rs:84-104 | a scan fails exactly when some record does not decode; otherwise it adds the one bits of all records |
| ParallelScan.VisitGrepBatch | src/python/reader/variant.rs:84-104 | a worker's batch fails exactly when some record does not decode; otherwise its local count is the number of matching records of the batch |
| ParallelScan.VisitPopcntBatch | src/python/reader/variant.rs:84-104 | a worker's batch fails exactly when some record does not decode; otherwise its local total is the one bits of the batch's records |
| ParallelScan.VisitKmerBatch | src/python/reader/variant.rs:84-104 | a worker's batch fails exactly when some record does not decode; otherwise its local table is the tally of the batch's windows |
| ParallelScan.RunKmers | src/python/reader/variant.rs:84-104 | a scan fails exactly when some record does not decode; otherwise the global table gains the windows of all records |
| ParallelScan.GrepScanIndependent | src/python/reader/variant.rs:84-104 | the match count does not depend on the batching or the order of records |
| ParallelScan.PopcntScanIndependent | src/python/reader/variant.rs:84-104 | the population count does not depend on the batching or the order of records |
| ParallelScan.KmerScanIndependent | src/python/reader/variant.rs:84-104 | the k-mer table does not depend on the batching or the order of records |
| ReaderVariants.BytesToSequence | src/python/reader/variant.rs:198-206 | same length; each character is A, C, G, T or N; A, C, G and T appear exactly for bytes 65, 67, 71 and 84 |
| ReaderVariants.BytesToSequenceIdempotent | src/python/reader/variant.rs:198-206 | converting the ASCII of a converted sequence gives it back unchanged |
| ReaderVariants.DecodePrimary | src/python/reader/variant.rs:178-195 | succeeds exactly when the primary decodes; the record keeps the decoded bytes and their nucleotide string; otherwise the given runtime error |
| ReaderVariants.StandardNext | src/python/reader/variant.rs:108-123 | the stream is created on the first call: an I/O error, or a header error that leaves it absent; then the next item, or end of records |
| ReaderVariants.VbqNext | src/python/reader/variant.rs:124-161 | one block read exactly when no buffered record is left; a returned record lies within the loaded block; the end leaves no block or an emptied one |
| ReaderVariants.NextStep | src/python/reader/variant.rs:106-163 | a standard cursor stays standard and a VBQ cursor stays VBQ |
| ReaderVariants.VbqExhaustedStaysExhausted | src/python/reader/variant.rs:141-147 | once the blocks are exhausted, every further call is the end of records |
| ReaderVariants.VbqInIndexOrder | src/python/reader/variant.rs:151-154 | within a block, records are returned in index order with no read |
| ReaderVariants.StandardExhaustedStaysExhausted | src/python/reader/variant.rs:115-118 | an exhausted stream stays at the end of records |
| ReaderVariants.StandardTraceFrom | src/python/reader/variant.rs:114-119 | n calls on an open stream yield the next n items in order |
| ReaderVariants.StandardReadsAll | src/python/reader/variant.rs:106-123 | iterating a valid standard file yields every item, in order, then the end |
| ReaderVariants.BlockTraceFrom | src/python/reader/variant.rs:151-154 | n calls inside a block yield its next n records in order |
| ReaderVariants.VbqReadsFilledBlock | src/python/reader/variant.rs:124-161 | with the buffer used up, a call reads the next block and returns its first record at position 1 |
| ReaderVariants.VbqLoadBlock | src/python/reader/variant.rs:124-161 | from a used-up buffer, as many calls as the next block has records yield those records in order and stop at the block's end |
| ReaderVariants.VbqTraceFrom | src/python/reader/variant.rs:124-161 | from a used-up block, iteration yields the records of all remaining blocks in order, then the end |
| ReaderVariants.VbqReadsAll | src/python/reader/variant.rs:124-161 | iterating a VBQ file whose blocks all hold records yields every record of every block in order, then the end |
| ReaderVariants.VbqStopsAtEmptyBlock | src/python/reader/variant.rs:142-147 | an empty block or no data at a boundary ends the iteration, even if later blocks hold records |
| ReaderVariants.FileRecords | src/python/reader/variant.rs:108-161 | a readable file's records in file order; for BQ one per stream item |
| ReaderVariants.LenMatchesIteration | src/python/reader/variant.rs:63-67 | a scan of a readable file's records, in any batching, counts exactly as many records as fresh `next_record` calls return before the first `Ok(None)`, and those calls return the file's records in order |
| ReaderVariants.EmptyFileScenario | src/python/reader/variant.rs:63-67 | a readable file with no records: the scan counts 0 and the first `next_record` call already reports the end |
| ReaderVariants.Open | src/python/reader/variant.rs:43-60 | opens exactly when the format's reader accepts the file, with "Failed to open BQ/VBQ file" otherwise; the cursor starts unread |
| ReaderVariants.ReaderVariant.constructor | src/python/reader/variant.rs:47-58 | the cursor starts with no stream or no block, at position 0 |
| ReaderVariants.ReaderVariant.IsOpen | src/python/reader/variant.rs:209-214 | a variant is always open |
| ReaderVariants.ReaderVariant.NextRecord | src/python/reader/variant.rs:106-163 | the new cursor and the result are those of `NextStep` on the old cursor |
| ReaderVariants.ReaderVariant.Close | src/python/reader/variant.rs:217-226 | drops the stream cursor, or the block buffer, and nothing else |
| ReaderVariants.ReaderVariant.CountRecords | src/python/reader/variant.rs:63-67 | the open error when the path does not re-open, "Processing failed" when reading the file fails during the scan, else the number of records |
| ReaderVariants.ReaderVariant.CountMatches | src/python/reader/variant.rs:70-74 | the number of matching records; "Processing failed" when a record does not decode or reading fails; the open error when the path does not re-open |
| ReaderVariants.ReaderVariant.CountPopbits | src/python/reader/variant.rs:77-81 | the one bits of all records; "Processing failed" when a record does not decode or reading fails; the open error when the path does not re-open |
| ReaderVariants.ReaderVariant.ProcessParallelKmers | src/python/reader/variant.rs:84-104 | succeeds exactly when the path re-opens, reading does not fail and every record decodes, and then the caller's table gains every window; a failed open leaves it unchanged |
| BqReaders.ToPyErr | src/python/bq_reader.rs:9-17 | I/O and binseq errors become `IOError` and runtime errors `RuntimeError`, keeping the message |
| BqReaders.CollectEntries | src/python/bq_reader.rs:183 | the list has one entry per k-mer: each entry is a table key with its count, no key is listed twice, and every key is listed |
| BqReaders.Swap | src/python/bq_reader.rs:184 | exchanges two entries and keeps the multiset |
| BqReaders.SortByCountDescending | src/python/bq_reader.rs:184 | the array ends sorted by count, descending, and is a permutation of the input |
| BqReaders.PermutationKeepsEntries | src/python/bq_reader.rs:183-184 | sorting keeps the list complete, free of repeated keys and faithful to the table |
| BqReaders.DistinctKeysOnce | src/python/bq_reader.rs:183-184 | in a list without repeated keys every entry occurs at most once |
| BqReaders.OnceDistinct | src/python/bq_reader.rs:183-184 | a list in which every entry occurs at most once has no entry at two positions |
| BqReaders.SortedEntries | src/python/bq_reader.rs:237-239 | the table as a complete list of its entries, sorted by count, descending |
| BqReaders.PrefixIsTop | src/python/bq_reader.rs:185 | any prefix of the sorted list is a top list: distinct k-mers from the table, descending, and no unlisted k-mer has a larger count than a listed one |
| BqReaders.KmerScanCounts | src/python/bq_reader.rs:90-103 | a successful scan's count of a k-mer is its number of occurrences over all records; all counts are positive |
| BqReaders.KmerScanBatchingIndependent | src/python/bq_reader.rs:90-103 | the k-mer result does not depend on how the scan batches the records |
| BqReaders.MaximumIsTop | src/core/counters/kmer.rs:64-69 | an entry with the maximum count is a top list of length one |
| BqReaders.Open | src/python/bq_reader.rs:35-58 | "File not found" when the path is missing, then the variant's open error; on success the reader is open, at index 0, with `n_threads` defaulting to 1 |
| BqReaders.BqReader.constructor | src/python/bq_reader.rs:51-57 | the reader holds the variant, the path, the thread count and the format, at index 0 |
| BqReaders.BqReader.GetReader | src/python/bq_reader.rs:353-364 | the variant when present, "Reader is closed" otherwise |
| BqReaders.BqReader.IsOpen | src/python/bq_reader.rs:408-410 | open exactly while a variant is held |
| BqReaders.BqReader.Len | src/python/bq_reader.rs:61-64 | "Reader is closed" when closed, the open error when the path does not re-open, "Processing failed" when reading fails, else the number of records |
| BqReaders.BqReader.IsEmpty | src/python/bq_reader.rs:281-283 | fails when `len` fails, otherwise true exactly when there are no records |
| BqReaders.BqReader.CountMatches | src/python/bq_reader.rs:67-71 | closed, open-failure and processing-failure errors, otherwise the number of matching records |
| BqReaders.BqReader.Popcnt | src/python/bq_reader.rs:74-77 | closed, open-failure and processing-failure errors, otherwise the one bits of all records |
| BqReaders.BqReader.ScanKmerCounter | src/python/bq_reader.rs:91-101 | fails as `KmerScan` says; on success a fresh counter whose table is the scan's |
| BqReaders.BqReader.ScanKmers | src/python/bq_reader.rs:91-103 | the k-mer table of the scan, or the first error in the order: k = 0, closed, open failure, processing failure |
| BqReaders.BqReader.CountKmersParallel | src/python/bq_reader.rs:90-104 | k = 0 is a `ValueError`; otherwise the k-mer table of all records, or the scan's error |
| BqReaders.BqReader.KmerStatsParallel | src/python/bq_reader.rs:119-153 | the distinct k-mers, their total, and an entry of maximum count, which is absent exactly for an empty table; errors as the scan |
| BqReaders.BqReader.TopKmersParallel | src/python/bq_reader.rs:167-188 | `min(n, distinct)` entries of distinct k-mers, sorted descending, drawn from the table, none beaten by an unlisted k-mer; errors as the scan |
| BqReaders.BqReader.KmerProfileParallel | src/python/bq_reader.rs:205-273 | k, distinct count, total, the first sorted entry (absent exactly when empty, and the head of the top list whenever that is non-empty), the top `top_n` as a top list, the table on request, and diversity exactly when something was counted |
| BqReaders.BqReader.SetNThreads | src/python/bq_reader.rs:296-298 | the thread count is at least 1 |
| BqReaders.BqReader.SequenceLength | src/python/bq_reader.rs:301-310 | 0 while a variant is held, "Reader is closed" otherwise |
| BqReaders.BqReader.CloseReader | src/python/bq_reader.rs:367-372 | closes the variant (dropping its stream or block) and drops it |
| BqReaders.BqReader.Exit | src/python/bq_reader.rs:320-328 | the reader is closed and the exception is not suppressed |
| BqReaders.BqReader.Next | src/python/bq_reader.rs:337-348 | "Reader is closed" when closed; otherwise the variant's step, with the end as `StopIteration` and the index counting returned records |
| LegacyReaders.AsIteration | src/python/bq_reader.rs:341-347 | a record is returned exactly for a decoded record; `StopIteration` exactly at the end of records |
| LegacyReaders.VbqBlockInit | src/python/reader.rs:371-399 | re-opens an absent VBQ reader; on success a non-empty first block at position 0; a failure leaves buffer and position; a file that will not open is an `IOError` |
| LegacyReaders.StreamReaderInit | src/python/reader.rs:348-368 | succeeds exactly when the file opens and the header reads, and only then sets the cursor; "Failed to open file" and the header error otherwise |
| LegacyReaders.LegacyVbqNext | src/python/reader.rs:240-292 | never touches the stream cursor; a returned record lies within the buffer; a buffer once created is never dropped by `__next__` |
| LegacyReaders.LegacyStandardNext | src/python/reader.rs:296-342 | only the stream cursor changes |
| LegacyReaders.StandardAgreesWithVariant | src/python/reader.rs:296-342 | on a standard file that opens, the older `__next__` returns what the variant's step returns and moves the cursor alike |
| LegacyReaders.EmptyVbqIsAnError | src/python/reader.rs:389-391 | an empty VBQ file is a "VBQ file is empty" `RuntimeError` here, while the variant reports the end of records |
| LegacyReaders.LegacyBlockTraceFrom | src/python/reader.rs:266-290 | n calls inside a buffer yield its next n records in order |
| LegacyReaders.LegacyReadsFilledBlock | src/python/reader.rs:246-263 | at a boundary, a call reads block n, stores it and returns its first record |
| LegacyReaders.LegacyLoadBlock | src/python/reader.rs:246-263 | at a boundary, a filled block is loaded and its records are yielded in order |
| LegacyReaders.LegacyVbqTraceFrom | src/python/reader.rs:240-292 | from a used-up buffer, iteration yields the records of all remaining blocks in order, then `StopIteration` |
| LegacyReaders.LegacyVbqReadsAll | src/python/reader.rs:240-292 | a fresh reader on a VBQ file whose blocks all hold records yields every record in order, then `StopIteration` |
| LegacyReaders.Open | src/python/reader.rs:30-80 | "File not found", then the format's open error; on success only the chosen format's reader is set, iteration unstarted, `n_threads` defaulting to 1 |
| LegacyReaders.LegacyBqReader.constructor | src/python/reader.rs:51-76 | the standard reader for a BQ file, the VBQ reader for a VBQ file, no cursor, no buffer, index 0 |
| LegacyReaders.LegacyBqReader.IsOpen | src/python/reader.rs:407-413 | for a well-formed reader, open exactly while one of the two readers is held |
| LegacyReaders.LegacyBqReader.Len | src/python/reader.rs:83-109 | the open error when the path does not re-open, "Processing failed" when reading fails, else the number of records; a closed reader counts too |
| LegacyReaders.LegacyBqReader.IsEmpty | src/python/reader.rs:178-180 | fails when `len` fails, otherwise true exactly when there are no records |
| LegacyReaders.LegacyBqReader.CountMatches | src/python/reader.rs:112-141 | the open error, "Processing failed" when a record does not decode or reading fails, else the number of matching records |
| LegacyReaders.LegacyBqReader.Popcnt | src/python/reader.rs:144-170 | the open error, "Processing failed" when a record does not decode or reading fails, else the one bits of all records |
| LegacyReaders.LegacyBqReader.SetNThreads | src/python/reader.rs:193-195 | the thread count is at least 1 |
| LegacyReaders.LegacyBqReader.SequenceLength | src/python/reader.rs:198-207 | 0 exactly while the standard reader is held, "Reader is closed" otherwise |
| LegacyReaders.LegacyBqReader.SequenceLengthIntended | src/python/reader.rs:198-207 | 0 exactly while the reader is open, "Reader is closed" otherwise |
| LegacyReaders.LegacyBqReader.Exit | src/python/reader.rs:217-229 | drops both readers, the stream cursor and the buffer; the reader is closed; the exception is not suppressed |
| LegacyReaders.LegacyBqReader.InitStreamReader | src/python/reader.rs:348-368 | the fields and result are those of `StreamReaderInit` |
| LegacyReaders.LegacyBqReader.InitVbqBlock | src/python/reader.rs:371-399 | the fields and result are those of `VbqBlockInit` |
| LegacyReaders.LegacyBqReader.NextVbq | src/python/reader.rs:240-292 | the fields and result are those of `LegacyVbqNext`; the index counts returned records |
| LegacyReaders.LegacyBqReader.NextStandard | src/python/reader.rs:296-342 | the fields and result are those of `LegacyStandardNext`; the index counts returned records |
| LegacyReaders.LegacyBqReader.Next | src/python/reader.rs:238-343 | keeps the reader well formed; fields and result are those of `LegacyNext`; the index counts returned records |
| LegacyReaders.ExitRewindsVbq | src/python/reader.rs:217-229 | after `__exit__`, `__next__` on a VBQ file starts again from its first block |
| LegacyReaders.SequenceLengthClosedWhileOpen | src/python/reader.rs:198-207 | an open VBQ reader reports "Reader is closed" from `sequence_length` |

## Left out

- Real threads, `Arc<Mutex<_>>` locking and `n_threads` are not modelled. A scan is one
  sequential visit of an arbitrary batching (`ScanRun.batches`), and every result is proved
  independent of the batching.
- The binseq codec, the memory-mapped VBQ reader, `File::open` and header parsing are not modelled. A
  file is a `DiskFile` value, and records either decode to bytes or are malformed.
- The text of underlying errors is not modelled. Messages are the fixed prefixes the source
  formats, and an operating-system error's text is empty.
- `process_parallel` stopping at the first failing record: the state of the shared cell
  after a failed scan is left unspecified, because the surface only reports the error.
- Integer widths (`usize`, `u64`) are modelled as unbounded `nat`, so overflow is not modelled.
- k-mer keys are the window's bytes, not a `String` made by `String::from_utf8_lossy`. The
  two agree for the ASCII bases the decoder produces; non-ASCII bytes are not modelled.
  `count_matches` takes the pattern as bytes (`pattern.as_bytes()`), so UTF-8 encoding is
  not modelled either.
- Floating point is not modelled: the Shannon entropy and Simpson index of
  `kmer_profile_parallel` (`src/python/bq_reader.rs:375-400`). `KmerProfileParallel` says only
  that they are present exactly when some k-mer was counted.
- BqReaders.BqReader.TopKmersParallel: the order among equal counts is not stated, because
  `sort_by` on a `HashMap`'s iteration order fixes no order for ties.
- The pyo3 surface is not modelled: `__enter__`, `__iter__`, `__len__` (which is `len`),
  `__array_interface__`, `get_encoded_sequence`, `data_ptr`, and the getters `path`,
  `n_threads`, `current_index` and `is_vbq`. They only return fields or `self`.
- `println!` output in the constructors is left out.
- Errors that cannot occur, given how the fields are set, are not modelled: "VBQ record not found", "VBQ block not
  initialized", "Stream reader not initialized", and the unreachable "VBQ reader not initialized"
  inside `init_vbq_block`.
  - The one in `__next__`'s reload branch of `src/python/reader.rs` is modelled.
  - `LegacyReaders.LegacyBqReader.Valid` shows it cannot be reached.
- A stream item that fails to read is modelled as consumed. What `StreamReader` does after a
  read error is part of binseq, which is not part of this model.
- A failed `read_block_into` is modelled as leaving the block buffer empty.
- A failed `decode_s` or `decode_x` is modelled as leaving the cleared buffer empty
  (`Binseq.PrimaryBuffer`, `Binseq.MateBuffer`). What the codec writes before it fails is
  part of binseq, which is not part of this model; the aggregators discard the buffer then.
- A read failure during a scan is one flag (`ScanRun.readFails`): which records were visited
  before it is not modelled, only that the scan reports "Processing failed".
- `ReaderVariants.LenMatchesIteration` relates a scan to the iteration only for a readable
  file whose records all decode; which records a binseq scan visits is stated as an input
  (the batches hold the file's records), because the memory-mapped reader is not modelled.
- The Python demo scripts and `src/python/module.rs` are not part of this model.

## Findings

| source | as written | input that shows it | evidently intended | confidence | as-written member | corrected member |
|---|---|---|---|---|---|---|
| src/python/reader.rs:198-207 | `sequence_length` tests the standard `reader` field, which a VBQ reader never sets | any VBQ reader while open: `is_open()` is true, but `sequence_length()` raises "Reader is closed" | the placeholder 0 whenever the reader is open, as `src/python/bq_reader.rs:301-310` does for both formats | medium, not executed | LegacyReaders.LegacyBqReader.SequenceLength, LegacyReaders.SequenceLengthClosedWhileOpen | LegacyReaders.LegacyBqReader.SequenceLengthIntended |
