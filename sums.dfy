/**
 * Sums of per-element contributions and the flattening of a batching.
 * The aggregators are "sum of a per-record contribution"; the lemmas here say
 * such a sum depends neither on how the records are cut into batches nor on
 * the order in which they are visited.
 */
module Sums {

  /** The records of all batches, batch after batch. */
  function Flatten<T>(batches: seq<seq<T>>): seq<T>
  {
    if batches == [] then [] else Flatten(batches[..|batches| - 1]) + batches[|batches| - 1]
  }

  /** `f(s[0]) + ... + f(s[|s|-1])`. */
  function SumBy<T>(f: T -> nat, s: seq<T>): nat
  {
    if s == [] then 0 else SumBy(f, s[..|s| - 1]) + f(s[|s| - 1])
  }

  lemma {:induction false} SumByAppend<T>(f: T -> nat, a: seq<T>, b: seq<T>)
    ensures SumBy(f, a + b) == SumBy(f, a) + SumBy(f, b)
  {
    if b == [] {
      assert a + b == a;
    } else {
      assert (a + b)[..|a + b| - 1] == a + b[..|b| - 1];
      SumByAppend(f, a, b[..|b| - 1]);
    }
  }

  /** Visiting order is irrelevant: a permutation has the same sum. */
  lemma {:induction false} SumByPermutation<T>(f: T -> nat, a: seq<T>, b: seq<T>)
    requires multiset(a) == multiset(b)
    ensures SumBy(f, a) == SumBy(f, b)
    decreases |a|
  {
    if a == [] {
      assert |multiset(b)| == 0;
    } else {
      var x := a[|a| - 1];
      var a' := a[..|a| - 1];
      assert a == a' + [x];
      assert x in multiset(b);
      var j :| 0 <= j < |b| && b[j] == x;
      var b' := b[..j] + b[j + 1..];
      assert b == b[..j] + [x] + b[j + 1..];
      assert multiset(b') == multiset(b) - multiset{x};
      assert multiset(a') == multiset(a) - multiset{x};
      SumByPermutation(f, a', b');
      SumByAppend(f, b[..j] + [x], b[j + 1..]);
      SumByAppend(f, b[..j], [x]);
      SumByAppend(f, b[..j], b[j + 1..]);
      assert SumBy(f, [x]) == f(x) by {
        assert [x][..0] == [];
      }
    }
  }

  /** Summing the flattened batches is summing the per-batch sums. */
  lemma {:induction false} SumByFlattenStep<T>(f: T -> nat, batches: seq<seq<T>>, b: nat)
    requires b < |batches|
    ensures SumBy(f, Flatten(batches[..b + 1])) == SumBy(f, Flatten(batches[..b])) + SumBy(f, batches[b])
  {
    assert batches[..b + 1][..b] == batches[..b];
    SumByAppend(f, Flatten(batches[..b]), batches[b]);
  }


  /** One more element after a prefix. */
  lemma SumByPrefixStep<T>(f: T -> nat, s: seq<T>, j: nat)
    requires j < |s|
    ensures SumBy(f, s[..j + 1]) == SumBy(f, s[..j]) + f(s[j])
  {
    assert s[..j + 1][..j] == s[..j];
  }

  /** `f(s[0]) + ... + f(s[|s|-1])` as sequences. */
  function FlatMap<T, U>(f: T -> seq<U>, s: seq<T>): seq<U>
  {
    if s == [] then [] else FlatMap(f, s[..|s| - 1]) + f(s[|s| - 1])
  }

  lemma {:induction false} FlatMapAppend<T, U>(f: T -> seq<U>, a: seq<T>, b: seq<T>)
    ensures FlatMap(f, a + b) == FlatMap(f, a) + FlatMap(f, b)
  {
    if b == [] {
      assert a + b == a;
    } else {
      assert (a + b)[..|a + b| - 1] == a + b[..|b| - 1];
      FlatMapAppend(f, a, b[..|b| - 1]);
    }
  }

  /** An element occurs in a flat map as often as it occurs in the parts, added up. */
  lemma {:induction false} FlatMapOccurrences<T, U>(f: T -> seq<U>, s: seq<T>, u: U)
    ensures multiset(FlatMap(f, s))[u] == SumBy(x => multiset(f(x))[u], s)
  {
    if s != [] {
      FlatMapOccurrences(f, s[..|s| - 1], u);
    }
  }

  /** Taking one more batch appends that batch to the flattened prefix. */
  lemma FlattenStep<T>(batches: seq<seq<T>>, b: nat)
    requires b < |batches|
    ensures Flatten(batches[..b + 1]) == Flatten(batches[..b]) + batches[b]
  {
    assert batches[..b + 1][..b] == batches[..b];
  }

  /** One more element after a prefix of a flat map. */
  lemma FlatMapPrefixStep<T, U>(f: T -> seq<U>, s: seq<T>, j: nat)
    requires j < |s|
    ensures FlatMap(f, s[..j + 1]) == FlatMap(f, s[..j]) + f(s[j])
  {
    assert s[..j + 1][..j] == s[..j];
  }

  /** Permuting the parts permutes the flat map: every element occurs as often. */
  lemma FlatMapPermutation<T, U>(f: T -> seq<U>, a: seq<T>, b: seq<T>)
    requires multiset(a) == multiset(b)
    ensures forall u :: multiset(FlatMap(f, a))[u] == multiset(FlatMap(f, b))[u]
  {
    forall u ensures multiset(FlatMap(f, a))[u] == multiset(FlatMap(f, b))[u] {
      FlatMapOccurrences(f, a, u);
      FlatMapOccurrences(f, b, u);
      SumByPermutation(x => multiset(f(x))[u], a, b);
    }
  }

  /** Every element of every batch is among the flattened records. */
  lemma {:induction false} FlattenMember<T>(batches: seq<seq<T>>, b: nat, x: T)
    requires b < |batches| && x in batches[b]
    ensures x in Flatten(batches)
  {
    if b < |batches| - 1 {
      FlattenMember(batches[..|batches| - 1], b, x);
    }
  }
}
