/**
 * Bytes and their population count (`u8::count_ones` summed over a buffer),
 * shared by `PopcntCounter::compute_popcnt_2bit` and `BqRecord::popcnt`.
 */
module Bytes {

  /** A `u8`. */
  type Byte = b: int | 0 <= b < 256

  function Pow2(n: nat): nat
  {
    if n == 0 then 1 else 2 * Pow2(n - 1)
  }

  /** Number of one bits in the binary representation of `b`. */
  function CountOnes(b: nat): (r: nat)
    ensures r <= b
    ensures r == 0 <==> b == 0
    decreases b
  {
    if b == 0 then 0 else b % 2 + CountOnes(b / 2)
  }

  /** A number below 2^n has at most n one bits. */
  lemma {:induction false} CountOnesBelow(b: nat, n: nat)
    requires b < Pow2(n)
    ensures CountOnes(b) <= n
  {
    if b != 0 {
      assert n > 0;
      CountOnesBelow(b / 2, n - 1);
    }
  }

  /** A byte has at most eight one bits. */
  lemma ByteCountOnes(b: Byte)
    ensures CountOnes(b) <= 8
  {
    assert Pow2(8) == 256;
    CountOnesBelow(b, 8);
  }

  /** Sum over the bytes of their one bits: `data.iter().map(count_ones).sum()`. */
  function SetBits(data: seq<Byte>): (r: nat)
    ensures r <= 8 * |data|
  {
    if data == [] then 0
    else
      ByteCountOnes(data[|data| - 1]);
      SetBits(data[..|data| - 1]) + CountOnes(data[|data| - 1])
  }

  /** The popcount of a concatenation is the sum of the popcounts. */
  lemma {:induction false} SetBitsAppend(a: seq<Byte>, b: seq<Byte>)
    ensures SetBits(a + b) == SetBits(a) + SetBits(b)
  {
    if b == [] {
      assert a + b == a;
    } else {
      assert (a + b)[..|a + b| - 1] == a + b[..|b| - 1];
      SetBitsAppend(a, b[..|b| - 1]);
    }
  }

  /** `0xFF` has eight one bits, counted from the top bit down. */
  lemma CountOnesAllSet()
    ensures CountOnes(0xFF) == 8
  {
    assert CountOnes(1) == 1;
    assert CountOnes(3) == 2;
    assert CountOnes(7) == 3;
    assert CountOnes(15) == 4;
    assert CountOnes(31) == 5;
    assert CountOnes(63) == 6;
    assert CountOnes(127) == 7;
  }

  /** `0xAA` (binary 10101010) has four one bits. */
  lemma CountOnesAlternating()
    ensures CountOnes(0xAA) == 4
  {
    assert CountOnes(1) == 1;
    assert CountOnes(2) == 1;
    assert CountOnes(5) == 2;
    assert CountOnes(10) == 2;
    assert CountOnes(21) == 3;
    assert CountOnes(42) == 3;
    assert CountOnes(85) == 4;
  }

  /** The two unit cases of the popcount tests: three bytes give 8 + 0 + 4, nothing gives 0. */
  lemma SetBitsExamples()
    ensures SetBits([0xFF, 0x00, 0xAA]) == 12
    ensures SetBits([]) == 0
  {
    CountOnesAllSet();
    CountOnesAlternating();
    var d1: seq<Byte> := [0xFF];
    var d2: seq<Byte> := [0xFF, 0x00];
    var d3: seq<Byte> := [0xFF, 0x00, 0xAA];
    assert d1[..0] == [];
    assert SetBits(d1) == 8;
    assert d2[..1] == d1;
    assert SetBits(d2) == 8;
    assert d3[..2] == d2;
  }
}
