/** The bit packing in the Sinsemilla hash circuit: the message bits are folded, last bit
    first, into one field element (acc doubled, plus one for a set bit), which becomes the
    single 10-bit word of the message. */
module Sinsemilla {
  import opened Plonk

  /** Bits per Sinsemilla message word. */
  const WordBits: nat := 10

  /** One step of the fold. */
  function Step(acc: int, bit: bool): int
  {
    if bit then 2 * acc + 1 else 2 * acc
  }

  function FoldLeft(acc: int, bits: seq<bool>): int
    decreases |bits|
  {
    if |bits| == 0 then acc else FoldLeft(Step(acc, bits[0]), bits[1..])
  }

  function Reverse(s: seq<bool>): (r: seq<bool>)
    ensures |r| == |s|
  {
    if |s| == 0 then [] else Reverse(s[1..]) + [s[0]]
  }

  /** The field element the circuit builds from `data`: the fold from zero over the reversed
      bits. */
  function PackBits(data: seq<bool>): int
  {
    FoldLeft(0, Reverse(data))
  }

  function BitValue(b: bool): int
  {
    if b then 1 else 0
  }

  /** Little-endian binary decoding: data[0] is the least significant bit. */
  function LittleEndian(data: seq<bool>): int
  {
    if |data| == 0 then 0 else BitValue(data[0]) + 2 * LittleEndian(data[1..])
  }

  /** Little-endian binary encoding of `v` in `len` bits. */
  function ToBits(v: nat, len: nat): (bits: seq<bool>)
    ensures |bits| == len
  {
    if len == 0 then [] else [v % 2 == 1] + ToBits(v / 2, len - 1)
  }

  /** Folding over a sequence with one more bit at the end applies one more step. */
  lemma {:induction false} FoldLeftSnoc(acc: int, bits: seq<bool>, b: bool)
    ensures FoldLeft(acc, bits + [b]) == Step(FoldLeft(acc, bits), b)
    decreases |bits|
  {
    if |bits| > 0 {
      assert (bits + [b])[1..] == bits[1..] + [b];
      FoldLeftSnoc(Step(acc, bits[0]), bits[1..], b);
    }
  }

  /** The reversed fold is little-endian decoding: data[0] is the least significant bit and the
      last bit the most significant. */
  lemma {:induction false} PackIsLittleEndian(data: seq<bool>)
    ensures PackBits(data) == LittleEndian(data)
  {
    if |data| > 0 {
      PackIsLittleEndian(data[1..]);
      FoldLeftSnoc(0, Reverse(data[1..]), data[0]);
    }
  }

  /** The last bit carries weight 2^(|data| - 1). */
  lemma {:induction false} LastBitMostSignificant(data: seq<bool>)
    requires |data| > 0
    ensures LittleEndian(data) == LittleEndian(data[..|data| - 1]) + BitValue(data[|data| - 1]) * Pow2(|data| - 1)
  {
    if |data| > 1 {
      LastBitMostSignificant(data[1..]);
      assert data[1..][..|data| - 2] == data[..|data| - 1][1..];
    }
  }

  /** Decoding n bits gives a value in [0, 2^n). */
  lemma {:induction false} LittleEndianBounds(data: seq<bool>)
    ensures 0 <= LittleEndian(data) < Pow2(|data|)
  {
    if |data| > 0 {
      LittleEndianBounds(data[1..]);
    }
  }

  /** Packing then unpacking gives the bits back. */
  lemma {:induction false} UnpackPack(data: seq<bool>)
    ensures LittleEndian(data) >= 0 && ToBits(LittleEndian(data), |data|) == data
  {
    LittleEndianBounds(data);
    if |data| > 0 {
      UnpackPack(data[1..]);
      var v := LittleEndian(data);
      assert v % 2 == BitValue(data[0]) && v / 2 == LittleEndian(data[1..]);
    }
  }

  /** Unpacking a value below 2^n into n bits and packing them gives the value back. */
  lemma {:induction false} PackUnpack(v: nat, len: nat)
    requires v < Pow2(len)
    ensures LittleEndian(ToBits(v, len)) == v
  {
    if len > 0 {
      PackUnpack(v / 2, len - 1);
      assert ToBits(v, len)[1..] == ToBits(v / 2, len - 1);
    }
  }

  /** Ten bits pack into one value of a 10-bit message word, so it never wraps in the field. */
  lemma PackFitsWord(data: seq<bool>)
    requires |data| == WordBits
    ensures 0 <= PackBits(data) < 1024
  {
    PackIsLittleEndian(data);
    LittleEndianBounds(data);
    assert Pow2(10) == 1024;
  }

  /** All-false data packs to zero. */
  lemma {:induction false} AllFalse(len: nat)
    ensures PackBits(seq(len, _ => false)) == 0
  {
    PackIsLittleEndian(seq(len, _ => false));
    ZeroBits(seq(len, _ => false));
  }

  lemma {:induction false} ZeroBits(data: seq<bool>)
    requires forall i :: 0 <= i < |data| ==> !data[i]
    ensures LittleEndian(data) == 0
  {
    if |data| > 0 {
      ZeroBits(data[1..]);
    }
  }

  /** The circuit's test data packs to 1 + 2 + 512 = 515. */
  lemma TestData(data: seq<bool>)
    requires data == [true, true, false, false, false, false, false, false, false, true]
    ensures PackBits(data) == 515
  {
    PackIsLittleEndian(data);
    assert LittleEndian(data[9..]) == 1;
    assert LittleEndian(data[8..]) == 2;
    assert LittleEndian(data[7..]) == 4;
    assert LittleEndian(data[6..]) == 8;
    assert LittleEndian(data[5..]) == 16;
    assert LittleEndian(data[4..]) == 32;
    assert LittleEndian(data[3..]) == 64;
    assert LittleEndian(data[2..]) == 128;
    assert LittleEndian(data[1..]) == 257;
  }
}
