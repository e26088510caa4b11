/**
 * `BqRecord`: the value handed to the caller for one decoded record, holding
 * the nucleotide string and the decoded bytes it was made from.
 */
module Types {
  import opened Bytes

  datatype BqRecord = BqRecord(sequence: string, encoded: seq<Byte>) {

    /** `get_sequence`: the nucleotide string as stored. */
    function GetSequence(): (r: string)
      ensures r == sequence
    {
      sequence
    }

    /** `data_len`: the number of stored bytes. */
    function DataLen(): (r: nat)
      ensures r == |encoded|
    {
      |encoded|
    }

    /** The one-dimensional array shape `(len,)`. */
    function Shape(): (r: seq<nat>)
      ensures |r| == 1 && r[0] == DataLen()
    {
      [|encoded|]
    }

    /** Strides `(1,)`: one byte per element, whatever the record. */
    function Strides(): (r: seq<int>)
      ensures r == [1]
    {
      [1]
    }

    function Dtype(): (r: string)
      ensures r == "uint8"
    {
      "uint8"
    }

    /** Number of one bits over the stored bytes. */
    function Popcnt(): (r: nat)
      ensures r <= 8 * DataLen()
    {
      SetBits(encoded)
    }
  }

  /** The internal constructor stores both parts unchanged. */
  function NewRecord(sequence: string, encoded: seq<Byte>): (r: BqRecord)
    ensures r.GetSequence() == sequence && r.encoded == encoded
    ensures r.DataLen() == |encoded| && r.Shape() == [|encoded|]
  {
    BqRecord(sequence, encoded)
  }

  /** `popcnt` of a record agrees with the counter's per-buffer popcount and adds up over bytes. */
  lemma PopcntOfConcat(sequence: string, a: seq<Byte>, b: seq<Byte>)
    ensures NewRecord(sequence, a + b).Popcnt() == NewRecord(sequence, a).Popcnt() + NewRecord(sequence, b).Popcnt()
  {
    SetBitsAppend(a, b);
  }
}
