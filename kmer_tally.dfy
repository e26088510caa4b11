/**
 * Value-level account of k-mer counting: the sliding windows of a sequence,
 * a count table (`HashMap<String, usize>`, keyed here by the window's bytes),
 * tallying windows into a table and merging two tables.
 */
module KmerTally {
  import opened Bytes
  import opened Binseq
  import opened Sums

  type Kmer = seq<Byte>
  type Counts = map<Kmer, nat>

  /** `*map.get(w).unwrap_or(&0)`. */
  function Count(m: Counts, w: Kmer): nat
  {
    if w in m then m[w] else 0
  }

  /** Entries are only ever created by adding at least one. */
  predicate Positive(m: Counts)
  {
    forall w :: w in m ==> m[w] > 0
  }

  predicate KeysOfLength(m: Counts, k: nat)
  {
    forall w :: w in m ==> |w| == k
  }

  /** `*m.entry(w).or_insert(0) += n`. */
  function Add(m: Counts, w: Kmer, n: nat): Counts
  {
    m[w := Count(m, w) + n]
  }

  /**
   * The windows of width k, sliding by one: `s[i..i+k]` for i in `0..=|s|-k`;
   * none when k is zero or exceeds the sequence.
   */
  function Windows(s: seq<Byte>, k: nat): (ws: seq<Kmer>)
    ensures |ws| == if k == 0 || k > |s| then 0 else |s| - k + 1
    ensures forall i :: 0 <= i < |ws| ==> ws[i] == s[i..i + k]
  {
    if k == 0 || k > |s| then [] else seq(|s| - k + 1, i requires 0 <= i < |s| - k + 1 => s[i..i + k])
  }

  /** Counting each window of `ws`, in order, into `m`. */
  function Tally(m: Counts, ws: seq<Kmer>): Counts
  {
    if ws == [] then m else Add(Tally(m, ws[..|ws| - 1]), ws[|ws| - 1], 1)
  }

  /** Counting one more window after a prefix. */
  lemma TallyPrefixStep(m: Counts, ws: seq<Kmer>, i: nat)
    requires i < |ws|
    ensures Tally(m, ws[..i + 1]) == Add(Tally(m, ws[..i]), ws[i], 1)
  {
    assert ws[..i + 1][..i] == ws[..i];
  }

  /** `global.entry(w).or_insert(0) += local[w]` for every local key. */
  function Merge(g: Counts, l: Counts): (r: Counts)
    ensures r.Keys == g.Keys + l.Keys
  {
    map w | w in g.Keys + l.Keys :: Count(g, w) + Count(l, w)
  }

  /** After a merge each key counts what the two tables counted together. */
  lemma MergeCount(g: Counts, l: Counts, w: Kmer)
    ensures Count(Merge(g, l), w) == Count(g, w) + Count(l, w)
  {
  }

  /** Sum of all counts: `values().sum()`. */
  ghost function SumValues(m: Counts): nat
    decreases |m|
  {
    if m == map[] then 0
    else
      var w :| w in m;
      m[w] + SumValues(m - {w})
  }

  /** The windows of a record's primary and, when paired, mate sequence. */
  function RecordWindows(record: Record, k: nat): seq<Kmer>
  {
    Windows(PrimaryBuffer(record), k) + Windows(MateBuffer(record), k)
  }

  /** `RecordWindows` for a fixed k, as a function value. */
  function WindowsOf(k: nat): Record -> seq<Kmer>
  {
    r => RecordWindows(r, k)
  }

  /** The windows of all records, record after record. */
  function AllWindows(records: seq<Record>, k: nat): seq<Kmer>
  {
    FlatMap(WindowsOf(k), records)
  }

  // ---------------------------------------------------------------- lemmas

  lemma {:induction false} TallyCount(m: Counts, ws: seq<Kmer>, w: Kmer)
    ensures Count(Tally(m, ws), w) == Count(m, w) + multiset(ws)[w]
  {
    if ws != [] {
      assert ws == ws[..|ws| - 1] + [ws[|ws| - 1]];
      TallyCount(m, ws[..|ws| - 1], w);
    }
  }

  lemma {:induction false} TallyKeys(m: Counts, ws: seq<Kmer>)
    ensures Tally(m, ws).Keys == m.Keys + set w | w in ws
  {
    if ws != [] {
      assert ws == ws[..|ws| - 1] + [ws[|ws| - 1]];
      TallyKeys(m, ws[..|ws| - 1]);
    }
  }

  lemma {:induction false} TallyPositive(m: Counts, ws: seq<Kmer>)
    requires Positive(m)
    ensures Positive(Tally(m, ws))
  {
    if ws != [] {
      TallyPositive(m, ws[..|ws| - 1]);
    }
  }

  lemma {:induction false} TallyKeysOfLength(m: Counts, ws: seq<Kmer>, k: nat)
    requires KeysOfLength(m, k)
    requires forall i :: 0 <= i < |ws| ==> |ws[i]| == k
    ensures KeysOfLength(Tally(m, ws), k)
  {
    if ws != [] {
      TallyKeysOfLength(m, ws[..|ws| - 1], k);
    }
  }

  /** Tallying a concatenation is tallying one part after the other. */
  lemma {:induction false} TallyAppend(m: Counts, a: seq<Kmer>, b: seq<Kmer>)
    ensures Tally(m, a + b) == Tally(Tally(m, a), b)
  {
    if b == [] {
      assert a + b == a;
    } else {
      assert (a + b)[..|a + b| - 1] == a + b[..|b| - 1];
      TallyAppend(m, a, b[..|b| - 1]);
    }
  }

  /** Two tables with positive entries and the same counts are the same table. */
  lemma CountsEqual(m1: Counts, m2: Counts)
    requires Positive(m1) && Positive(m2)
    requires forall w :: Count(m1, w) == Count(m2, w)
    ensures m1 == m2
  {
    assert m1.Keys == m2.Keys by {
      forall w | w in m1 ensures w in m2 {
        assert Count(m1, w) > 0;
      }
      forall w | w in m2 ensures w in m1 {
        assert Count(m2, w) > 0;
      }
    }
    forall w | w in m1 ensures m1[w] == m2[w] {
      assert Count(m1, w) == Count(m2, w);
    }
  }

  /** A tally depends only on how often each window occurs, not on their order. */
  lemma TallyPermutation(m: Counts, a: seq<Kmer>, b: seq<Kmer>)
    requires Positive(m)
    requires forall w :: multiset(a)[w] == multiset(b)[w]
    ensures Tally(m, a) == Tally(m, b)
  {
    TallyPositive(m, a);
    TallyPositive(m, b);
    forall w ensures Count(Tally(m, a), w) == Count(Tally(m, b), w) {
      TallyCount(m, a, w);
      TallyCount(m, b, w);
    }
    CountsEqual(Tally(m, a), Tally(m, b));
  }

  /** Merging a fresh tally of `ws` into `g` is tallying `ws` straight into `g`. */
  lemma MergeTally(g: Counts, ws: seq<Kmer>)
    requires Positive(g)
    ensures Merge(g, Tally(map[], ws)) == Tally(g, ws)
  {
    TallyPositive(map[], ws);
    TallyPositive(g, ws);
    forall w ensures Count(Merge(g, Tally(map[], ws)), w) == Count(Tally(g, ws), w) {
      MergeCount(g, Tally(map[], ws), w);
      TallyCount(map[], ws, w);
      TallyCount(g, ws, w);
    }
    CountsEqual(Merge(g, Tally(map[], ws)), Tally(g, ws));
  }

  lemma {:induction false} SumValuesRemove(m: Counts, w: Kmer)
    requires w in m
    ensures SumValues(m) == m[w] + SumValues(m - {w})
    decreases |m|
  {
    var v :| v in m && SumValues(m) == m[v] + SumValues(m - {v});
    if v != w {
      var mv := m - {v};
      var mw := m - {w};
      assert w in mv && v in mw;
      SumValuesRemove(mv, w);
      SumValuesRemove(mw, v);
      assert mv - {w} == mw - {v};
    }
  }

  lemma SumValuesAdd(m: Counts, w: Kmer, n: nat)
    ensures SumValues(Add(m, w, n)) == SumValues(m) + n
  {
    var m' := Add(m, w, n);
    SumValuesRemove(m', w);
    if w in m {
      SumValuesRemove(m, w);
      assert m' - {w} == m - {w};
    } else {
      assert m' - {w} == m;
    }
  }

  /** Each window tallied raises the sum of counts by exactly one. */
  lemma {:induction false} TallySum(m: Counts, ws: seq<Kmer>)
    ensures SumValues(Tally(m, ws)) == SumValues(m) + |ws|
  {
    if ws != [] {
      TallySum(m, ws[..|ws| - 1]);
      SumValuesAdd(Tally(m, ws[..|ws| - 1]), ws[|ws| - 1], 1);
    }
  }

  /** Merging one more local entry is one more `+=` on the global table. */
  lemma MergeRemove(g: Counts, l: Counts, w: Kmer)
    requires w in l
    ensures Merge(g, l) == Add(Merge(g, l - {w}), w, l[w])
  {
    var lhs, rhs := Merge(g, l), Add(Merge(g, l - {w}), w, l[w]);
    assert lhs.Keys == rhs.Keys;
    forall v | v in lhs ensures lhs[v] == rhs[v] {
      MergeCount(g, l, v);
      MergeCount(g, l - {w}, v);
    }
  }

  /** Merging keeps counts positive and keys of length k. */
  lemma MergeValid(g: Counts, l: Counts, k: nat)
    requires Positive(g) && KeysOfLength(g, k) && Positive(l) && KeysOfLength(l, k)
    ensures Positive(Merge(g, l)) && KeysOfLength(Merge(g, l), k)
  {
    var m := Merge(g, l);
    forall w | w in m ensures m[w] > 0 && |w| == k {
      MergeCount(g, l, w);
    }
  }

  /** Merging adds the two totals. */
  lemma {:induction false} MergeSum(g: Counts, l: Counts)
    ensures SumValues(Merge(g, l)) == SumValues(g) + SumValues(l)
    decreases |l|
  {
    if l == map[] {
      assert Merge(g, l) == g;
    } else {
      var w :| w in l;
      var l' := l - {w};
      SumValuesRemove(l, w);
      MergeSum(g, l');
      MergeRemove(g, l, w);
      SumValuesAdd(Merge(g, l'), w, l[w]);
    }
  }

  /** A positive table is empty exactly when its total is zero. */
  lemma {:induction false} SumValuesZero(m: Counts)
    requires Positive(m)
    ensures SumValues(m) == 0 <==> m == map[]
  {
    if m != map[] {
      var w :| w in m;
      SumValuesRemove(m, w);
    }
  }

  /** Every count is at most the total. */
  lemma CountAtMostSum(m: Counts, w: Kmer)
    ensures Count(m, w) <= SumValues(m)
  {
    if w in m {
      SumValuesRemove(m, w);
    }
  }

  /** Tallying the windows of one more record of a batch. */
  lemma AllWindowsTallyStep(m: Counts, batch: seq<Record>, j: nat, k: nat)
    requires j < |batch|
    ensures Tally(m, AllWindows(batch[..j + 1], k)) ==
      Tally(Tally(m, AllWindows(batch[..j], k)), RecordWindows(batch[j], k))
  {
    FlatMapPrefixStep(WindowsOf(k), batch, j);
    TallyAppend(m, AllWindows(batch[..j], k), RecordWindows(batch[j], k));
  }

  /**
   * Counting the windows of one sequence: nothing changes when k is zero or
   * exceeds the sequence, otherwise the counts grow by exactly `|s| - k + 1`.
   */
  lemma WindowsTally(m: Counts, s: seq<Byte>, k: nat)
    ensures k == 0 || k > |s| ==> Tally(m, Windows(s, k)) == m
    ensures SumValues(Tally(m, Windows(s, k))) == SumValues(m) + if k == 0 || k > |s| then 0 else |s| - k + 1
  {
    TallySum(m, Windows(s, k));
  }

  /** How often `w` occurs among a record's windows, as a function of the record. */
  function OccurrencesOf(k: nat, w: Kmer): Record -> nat
  {
    r => multiset(RecordWindows(r, k))[w]
  }

  /** How many windows a record has, as a function of the record. */
  function WindowCountOf(k: nat): Record -> nat
  {
    r => |RecordWindows(r, k)|
  }

  /** The count of `w` after tallying a run is the sum of its per-record occurrences. */
  lemma {:induction false} AllWindowsCount(records: seq<Record>, k: nat, w: Kmer)
    ensures Count(Tally(map[], AllWindows(records, k)), w) == SumBy(OccurrencesOf(k, w), records)
  {
    if records != [] {
      var n := |records| - 1;
      AllWindowsCount(records[..n], k, w);
      AllWindowsTallyStep(map[], records, n, k);
      assert records[..n + 1] == records;
      TallyCount(Tally(map[], AllWindows(records[..n], k)), RecordWindows(records[n], k), w);
    }
  }

  /** The total of the counts after tallying a run is the number of windows of its records. */
  lemma {:induction false} AllWindowsTotal(records: seq<Record>, k: nat)
    ensures SumValues(Tally(map[], AllWindows(records, k))) == SumBy(WindowCountOf(k), records)
  {
    if records == [] {
      SumValuesZero(map[]);
    } else {
      var n := |records| - 1;
      AllWindowsTotal(records[..n], k);
      AllWindowsTallyStep(map[], records, n, k);
      assert records[..n + 1] == records;
      TallySum(Tally(map[], AllWindows(records[..n], k)), RecordWindows(records[n], k));
    }
  }
}
