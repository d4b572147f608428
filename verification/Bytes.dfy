/** Bytes and fixed-width little-endian numbers as struct.pack("<Q", ...) writes them. */
module Bytes {
  import opened Common

  type Byte = x: int | 0 <= x < 256 witness 0

  const SPACE: Byte := 32

  function Fill(b: Byte, n: nat): (r: seq<Byte>)
    ensures |r| == n && forall i :: 0 <= i < n ==> r[i] == b
  {
    seq(n, _ => b)
  }

  function LittleEndian(n: nat, width: nat): (r: seq<Byte>)
    ensures |r| == width
  {
    if width == 0 then [] else [n % 256] + LittleEndian(n / 256, width - 1)
  }

  function FromLittleEndian(bs: seq<Byte>): nat {
    if bs == [] then 0 else bs[0] + 256 * FromLittleEndian(bs[1..])
  }

  function Power256(width: nat): (p: nat)
    ensures p >= 1
  {
    if width == 0 then 1 else 256 * Power256(width - 1)
  }

  lemma {:induction false} LittleEndianRoundTrip(n: nat, width: nat)
    requires n < Power256(width)
    ensures FromLittleEndian(LittleEndian(n, width)) == n
  {
    if width > 0 {
      LittleEndianRoundTrip(n / 256, width - 1);
      assert LittleEndian(n, width)[1..] == LittleEndian(n / 256, width - 1);
    }
  }

  /** Byte i counts 256 to the power i. */
  lemma {:induction false} PlaceValue(bs: seq<Byte>, i: nat)
    requires i < |bs|
    ensures FromLittleEndian(bs[..i + 1]) == FromLittleEndian(bs[..i]) + bs[i] * Power256(i)
    decreases i
  {
    var low := bs[..i + 1];
    if i == 0 {
      assert low[1..] == [];
    } else {
      PlaceValue(bs[1..], i - 1);
      assert low[1..] == bs[1..][..i] && bs[..i][1..] == bs[1..][..i - 1];
      assert 256 * (bs[i] * Power256(i - 1)) == bs[i] * Power256(i);
    }
  }

  /** Eight bytes are the packed form of the number they stand for. */
  lemma {:induction false} LittleEndianOf(bs: seq<Byte>)
    ensures FromLittleEndian(bs) < Power256(|bs|)
    ensures LittleEndian(FromLittleEndian(bs), |bs|) == bs
  {
    if bs != [] { LittleEndianOf(bs[1..]); }
  }

  const TWO_TO_THE_64: nat := 0x1_0000_0000_0000_0000

  lemma Power256Of8()
    ensures Power256(8) == TWO_TO_THE_64
  {
    assert Power256(2) == 0x1_0000;
    assert Power256(4) == 0x1_0000_0000;
    assert Power256(6) == 0x1_0000_0000_0000;
  }

  /** struct.pack("<Q", n): an error for numbers that do not fit eight bytes. */
  function Pack64(n: nat): Option<seq<Byte>> {
    if n < TWO_TO_THE_64 then Some(LittleEndian(n, 8)) else None
  }

  lemma PackUnpack64(bs: seq<Byte>)
    requires |bs| == 8
    ensures Pack64(FromLittleEndian(bs)) == Some(bs)
  {
    LittleEndianOf(bs);
    Power256Of8();
  }

  /** struct.unpack("<Q", ...) undoes what was packed. */
  lemma UnpackPack64(n: nat)
    requires n < TWO_TO_THE_64
    ensures Pack64(n).Some? && |Pack64(n).value| == 8 && FromLittleEndian(Pack64(n).value) == n
  {
    Power256Of8();
    LittleEndianRoundTrip(n, 8);
  }
}
