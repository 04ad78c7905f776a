/** The big-endian integer encodings of Netty's ByteBuf (`writeLong`, `readLong`,
    `writeShort`, `readUnsignedShort`) and Java's narrowing casts,
    written out over unbounded integers. */
module Codec {
  import opened Base

  const TWO_15: int := 0x8000
  const TWO_16: int := 0x1_0000
  const TWO_31: int := 0x8000_0000
  const TWO_32: int := 0x1_0000_0000
  const TWO_63: int := 0x8000_0000_0000_0000
  const TWO_64: int := 0x1_0000_0000_0000_0000

  /** A value of Java's `long`. */
  predicate IsLong(x: int) { -TWO_63 <= x < TWO_63 }

  /** A value of Java's `int`. */
  predicate IsInt(x: int) { -TWO_31 <= x < TWO_31 }

  /** 256 to the power n: the number of values n bytes can hold. */
  function Pow256(n: nat): (p: nat)
    ensures p > 0
  {
    if n == 0 then 1 else 256 * Pow256(n - 1)
  }

  /** The unsigned value of a big-endian byte string. */
  function FromBigEndian(bs: seq<byte>): (v: nat)
    ensures v < Pow256(|bs|)
  {
    if bs == [] then 0
    else FromBigEndian(bs[..|bs| - 1]) * 256 + bs[|bs| - 1]
  }

  /** The low n bytes of v, most significant first. */
  function ToBigEndian(v: nat, n: nat): (bs: seq<byte>)
    ensures |bs| == n
  {
    if n == 0 then [] else ToBigEndian(v / 256, n - 1) + [v % 256]
  }

  lemma {:induction false} FromToBigEndian(v: nat, n: nat)
    requires v < Pow256(n)
    ensures FromBigEndian(ToBigEndian(v, n)) == v
  {
    if n > 0 {
      var bs := ToBigEndian(v, n);
      assert bs[..n - 1] == ToBigEndian(v / 256, n - 1);
      assert v / 256 < Pow256(n - 1);
      FromToBigEndian(v / 256, n - 1);
    }
  }

  lemma {:induction false} ToFromBigEndian(bs: seq<byte>)
    ensures ToBigEndian(FromBigEndian(bs), |bs|) == bs
  {
    if bs != [] {
      var init := bs[..|bs| - 1];
      var v := FromBigEndian(bs);
      assert v / 256 == FromBigEndian(init) && v % 256 == bs[|bs| - 1];
      ToFromBigEndian(init);
      assert bs == init + [bs[|bs| - 1]];
    }
  }

  /** `writeLong(x)`: the 8 bytes of the two's-complement form of a Java long. */
  function WriteLong(x: int): (bs: seq<byte>)
    requires IsLong(x)
    ensures |bs| == 8
  {
    ToBigEndian(if x < 0 then x + TWO_64 else x, 8)
  }

  /** `readLong()` over exactly 8 bytes: the signed big-endian value. */
  function ReadLong(bs: seq<byte>): (x: int)
    requires |bs| == 8
    ensures IsLong(x)
  {
    var u := FromBigEndian(bs);
    assert Pow256(8) == TWO_64;
    if u >= TWO_63 then u - TWO_64 else u
  }

  /** Reading back what `writeLong` wrote gives the same long. */
  lemma ReadWriteLong(x: int)
    requires IsLong(x)
    ensures ReadLong(WriteLong(x)) == x
  {
    assert Pow256(8) == TWO_64;
    FromToBigEndian(if x < 0 then x + TWO_64 else x, 8);
  }

  /** Writing what `readLong` read gives the same 8 bytes. */
  lemma WriteReadLong(bs: seq<byte>)
    requires |bs| == 8
    ensures WriteLong(ReadLong(bs)) == bs
  {
    ToFromBigEndian(bs);
  }

  /** `writeShort(v)`: the low 16 bits of an int, big-endian. */
  function WriteShort(v: int): (bs: seq<byte>)
    ensures |bs| == 2
  {
    ToBigEndian(v % TWO_16, 2)
  }

  /** `readUnsignedShort()` over exactly 2 bytes. */
  function ReadUnsignedShort(bs: seq<byte>): (v: int)
    requires |bs| == 2
    ensures 0 <= v < TWO_16
  {
    FromBigEndian(bs)
  }

  /** A short read back is the written value truncated to its low 16 bits. */
  lemma ReadWriteShort(v: int)
    ensures ReadUnsignedShort(WriteShort(v)) == v % TWO_16
  {
    FromToBigEndian(v % TWO_16, 2);
  }

  /** Java's `(int)` cast of a long: keep the low 32 bits, read them as signed. */
  function ToInt(x: int): (i: int)
    ensures IsInt(i) && (i - x) % TWO_32 == 0
  {
    var u := x % TWO_32;
    if u >= TWO_31 then u - TWO_32 else u
  }
}
