/**
 * `KmerCounter`: counts every k-length window of every decoded sequence into
 * a worker-local table and drains it into one shared table per batch.
 */
module KmerCounters {
  import opened Wrappers
  import opened Bytes
  import opened Binseq
  import opened KmerTally

  /** `Arc<Mutex<HashMap<String, usize>>>`: the table shared by all clones. */
  class KmerTable {
    var counts: Counts

    constructor ()
      ensures counts == map[]
    {
      counts := map[];
    }

    /** Adds every entry of `local` to the table, creating absent entries. */
    method AddAll(local: Counts)
      modifies this
      ensures counts == Merge(old(counts), local)
    {
      ghost var g0 := counts;
      var rest := local.Keys;
      while rest != {}
        invariant rest <= local.Keys
        invariant counts == Merge(g0, local - rest)
        decreases |rest|
      {
        var w :| w in rest;
        MergeRemove(g0, local - (rest - {w}), w);
        assert local - (rest - {w}) - {w} == local - rest;
        counts := Add(counts, w, local[w]);
        rest := rest - {w};
      }
      assert local - {} == local;
    }
  }

  /** `counts.values().sum()`: the counts added up one entry at a time. */
  method SumOfCounts(m: Counts) returns (total: nat)
    ensures total == SumValues(m)
  {
    var rest := m;
    total := 0;
    while rest != map[]
      invariant total + SumValues(rest) == SumValues(m)
      decreases |rest|
    {
      var w :| w in rest;
      SumValuesRemove(rest, w);
      total := total + rest[w];
      rest := rest - {w};
    }
  }

  class KmerCounter {
    const k: nat
    var localKmers: Counts
    const globalKmers: KmerTable
    var sbuf: seq<Byte>
    var xbuf: seq<Byte>

    /** Both tables hold positive counts of k-length keys only. */
    ghost predicate Valid()
      reads this, globalKmers
    {
      Positive(localKmers) && KeysOfLength(localKmers, k) &&
      Positive(globalKmers.counts) && KeysOfLength(globalKmers.counts, k)
    }

    /** `KmerCounter::new(k)`: empty tables, empty buffers. */
    constructor (k: nat)
      ensures Valid() && this.k == k && fresh(globalKmers)
      ensures localKmers == map[] && GetCounts() == map[] && sbuf == [] && xbuf == []
    {
      this.k := k;
      localKmers := map[];
      globalKmers := new KmerTable();
      sbuf, xbuf := [], [];
    }

    constructor Share(k: nat, localKmers: Counts, globalKmers: KmerTable, sbuf: seq<Byte>, xbuf: seq<Byte>)
      ensures this.k == k && this.localKmers == localKmers && this.globalKmers == globalKmers
      ensures this.sbuf == sbuf && this.xbuf == xbuf
    {
      this.k := k;
      this.localKmers := localKmers;
      this.globalKmers := globalKmers;
      this.sbuf, this.xbuf := sbuf, xbuf;
    }

    /** `#[derive(Clone)]`: local table and buffers copied, global table shared. */
    method Clone() returns (c: KmerCounter)
      requires Valid()
      ensures fresh(c) && c.Valid() && c.k == k && c.globalKmers == globalKmers
      ensures c.localKmers == localKmers && c.sbuf == sbuf && c.xbuf == xbuf
    {
      c := new KmerCounter.Share(k, localKmers, globalKmers, sbuf, xbuf);
    }

    /**
     * `count_kmers_in_sequence`: one increment of the local table per window
     * `sequence[i..i+k]`; nothing when k is zero or exceeds the sequence.
     */
    method CountKmersInSequence(sequence: seq<Byte>)
      requires Valid()
      modifies this`localKmers
      ensures Valid()
      ensures localKmers == Tally(old(localKmers), Windows(sequence, k))
    {
      if k == 0 || k > |sequence| {
        return;
      }
      ghost var ws := Windows(sequence, k);
      var i := 0;
      while i <= |sequence| - k
        invariant 0 <= i <= |sequence| - k + 1
        invariant localKmers == Tally(old(localKmers), ws[..i])
      {
        TallyPrefixStep(old(localKmers), ws, i);
        localKmers := Add(localKmers, sequence[i..i + k], 1);
        i := i + 1;
      }
      assert ws[..i] == ws;
      TallyPositive(old(localKmers), ws);
      TallyKeysOfLength(old(localKmers), ws, k);
    }

    /** `get_counts`: a copy of the global table. */
    function GetCounts(): (r: Counts)
      reads this, globalKmers
      ensures r == globalKmers.counts
      ensures Valid() ==> Positive(r) && KeysOfLength(r, k)
    {
      globalKmers.counts
    }

    /** `unique_kmer_count`: the number of distinct k-mers in the global table. */
    function UniqueKmerCount(): (r: nat)
      reads globalKmers
      ensures r == |GetCounts().Keys|
    {
      |globalKmers.counts|
    }

    /** `total_kmer_count`: the sum of the global counts. */
    method TotalKmerCount() returns (total: nat)
      ensures total == SumValues(GetCounts())
    {
      total := SumOfCounts(globalKmers.counts);
    }

    /**
     * `most_frequent_kmer`: none for an empty table, otherwise an entry of the
     * table whose count is at least every other count (ties: any of them).
     */
    method MostFrequentKmer() returns (r: Option<(Kmer, nat)>)
      ensures r.None? <==> GetCounts() == map[]
      ensures r.Some? ==> r.value.0 in GetCounts() && GetCounts()[r.value.0] == r.value.1
      ensures r.Some? ==> forall w :: w in GetCounts() ==> GetCounts()[w] <= r.value.1
    {
      var m := globalKmers.counts;
      var rest := m.Keys;
      r := None;
      while rest != {}
        invariant rest <= m.Keys
        invariant r.None? <==> rest == m.Keys
        invariant r.Some? ==> r.value.0 in m && m[r.value.0] == r.value.1
        invariant r.Some? ==> forall w :: w in m && w !in rest ==> m[w] <= r.value.1
        decreases |rest|
      {
        var w :| w in rest;
        if r.None? || m[w] >= r.value.1 {
          r := Some((w, m[w]));
        }
        rest := rest - {w};
      }
      assert r.None? ==> m.Keys == {};
    }

    method ClearBuffers()
      modifies this`sbuf, this`xbuf
      ensures sbuf == [] && xbuf == []
    {
      sbuf := [];
      xbuf := [];
    }

    /**
     * Counts the windows of the primary sequence and, for a paired record, of
     * the mate, into the same local table.  A failed primary decode leaves the
     * table unchanged; a failed mate decode is reported after the primary's
     * windows were counted.
     */
    method ProcessRecord(record: Record) returns (r: Result<(), DecodeError>)
      requires Valid()
      modifies this`localKmers, this`sbuf, this`xbuf
      ensures Valid()
      ensures r.Ok? <==> Decodes(record)
      ensures localKmers ==
        if record.primary.Malformed? then old(localKmers) else Tally(old(localKmers), RecordWindows(record, k))
    {
      ClearBuffers();
      match record.primary {
        case Malformed => return Err(DecodeError);
        case Decoded(bytes) => sbuf := bytes;
      }
      CountKmersInSequence(sbuf);
      TallyAppend(old(localKmers), Windows(sbuf, k), Windows(MateBuffer(record), k));
      if record.mate.Some? {
        match record.mate.value {
          case Malformed =>
            assert Windows(sbuf, k) + Windows(MateBuffer(record), k) == Windows(sbuf, k);
            return Err(DecodeError);
          case Decoded(bytes) => xbuf := bytes;
        }
        CountKmersInSequence(xbuf);
      } else {
        assert Windows(sbuf, k) + Windows(MateBuffer(record), k) == Windows(sbuf, k);
      }
      r := Ok(());
    }

    /**
     * `on_batch_complete`: drains the local table into the global one,
     * adding each local count to the global entry (created when absent).
     */
    method OnBatchComplete()
      requires Valid()
      modifies this`localKmers, globalKmers
      ensures Valid()
      ensures GetCounts() == Merge(old(GetCounts()), old(localKmers))
      ensures localKmers == map[]
    {
      MergeValid(globalKmers.counts, localKmers, k);
      globalKmers.AddAll(localKmers);
      localKmers := map[];
    }
  }

  /** The windows of "ATCGATCG" of width 3. */
  lemma ExampleWindows()
    ensures Windows([65, 84, 67, 71, 65, 84, 67, 71], 3) ==
      [[65, 84, 67], [84, 67, 71], [67, 71, 65], [71, 65, 84], [65, 84, 67], [84, 67, 71]]
  {
    var s: seq<Byte> := [65, 84, 67, 71, 65, 84, 67, 71];
    assert s[0..3] == [65, 84, 67];
    assert s[1..4] == [84, 67, 71];
    assert s[2..5] == [67, 71, 65];
    assert s[3..6] == [71, 65, 84];
    assert s[4..7] == [65, 84, 67];
    assert s[5..8] == [84, 67, 71];
  }

  /** ATC, TCG and CGA are three different k-mers. */
  lemma ExampleKmersDistinct()
    ensures [65, 84, 67] != [84, 67, 71] && [65, 84, 67] != [67, 71, 65] && [65, 84, 67] != [71, 65, 84]
    ensures [84, 67, 71] != [67, 71, 65] && [84, 67, 71] != [71, 65, 84] && [67, 71, 65] != [71, 65, 84]
  {
    var atc, tcg, cga, gat: Kmer := [65, 84, 67], [84, 67, 71], [67, 71, 65], [71, 65, 84];
    assert atc[0] == 65 && tcg[0] == 84 && cga[0] == 67 && gat[0] == 71;
  }

  /** Counting the first three windows: one each. */
  lemma ExampleTallyFirstHalf()
    ensures Tally(map[], [[65, 84, 67], [84, 67, 71], [67, 71, 65]]) ==
      map[[65, 84, 67] := 1, [84, 67, 71] := 1, [67, 71, 65] := 1]
  {
    var atc, tcg, cga: Kmer := [65, 84, 67], [84, 67, 71], [67, 71, 65];
    ExampleKmersDistinct();
    assert [atc][..0] == [atc][1..];
    assert Tally(map[], [atc]) == map[atc := 1];
    assert [atc, tcg][..1] == [atc];
    assert Tally(map[], [atc, tcg]) == map[atc := 1, tcg := 1];
    assert [atc, tcg, cga][..2] == [atc, tcg];
  }

  /** Counting the last three windows on top: GAT is new, ATC and TCG reach two. */
  lemma ExampleTallySecondHalf()
    ensures Tally(map[[65, 84, 67] := 1, [84, 67, 71] := 1, [67, 71, 65] := 1], [[71, 65, 84], [65, 84, 67], [84, 67, 71]]) ==
      map[[65, 84, 67] := 2, [84, 67, 71] := 2, [67, 71, 65] := 1, [71, 65, 84] := 1]
  {
    var atc, tcg, cga, gat: Kmer := [65, 84, 67], [84, 67, 71], [67, 71, 65], [71, 65, 84];
    var m := map[atc := 1, tcg := 1, cga := 1];
    ExampleKmersDistinct();
    assert [gat][..0] == [gat][1..];
    assert Tally(m, [gat]) == map[atc := 1, tcg := 1, cga := 1, gat := 1];
    assert [gat, atc][..1] == [gat];
    assert Tally(m, [gat, atc]) == map[atc := 2, tcg := 1, cga := 1, gat := 1];
    assert [gat, atc, tcg][..2] == [gat, atc];
  }

  /** Counting the six windows one after another. */
  lemma ExampleTally()
    ensures Tally(map[], [[65, 84, 67], [84, 67, 71], [67, 71, 65], [71, 65, 84], [65, 84, 67], [84, 67, 71]]) ==
      map[[65, 84, 67] := 2, [84, 67, 71] := 2, [67, 71, 65] := 1, [71, 65, 84] := 1]
  {
    var first: seq<Kmer> := [[65, 84, 67], [84, 67, 71], [67, 71, 65]];
    var second: seq<Kmer> := [[71, 65, 84], [65, 84, 67], [84, 67, 71]];
    assert first + second == [[65, 84, 67], [84, 67, 71], [67, 71, 65], [71, 65, 84], [65, 84, 67], [84, 67, 71]];
    TallyAppend(map[], first, second);
    ExampleTallyFirstHalf();
    ExampleTallySecondHalf();
  }

  /** The unit test: "ATCGATCG" with k = 3 gives ATC:2, TCG:2, CGA:1, GAT:1. */
  lemma CountKmersExample()
    ensures Tally(map[], Windows([65, 84, 67, 71, 65, 84, 67, 71], 3)) ==
      map[[65, 84, 67] := 2, [84, 67, 71] := 2, [67, 71, 65] := 1, [71, 65, 84] := 1]
  {
    ExampleWindows();
    ExampleTally();
  }
}
