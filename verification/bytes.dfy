/** 32-bit integers as bytes, most significant byte first on the wire, least significant first in the resume
    file. */
module Bytes {
  import opened Metainfo

  type U32 = x: int | 0 <= x < 0x1_0000_0000

  function Pow256(width: nat): nat {
    if width == 0 then 1 else 256 * Pow256(width - 1)
  }

  /** The last `width` base-256 digits of a number, the highest first. */
  function BigEndian(x: nat, width: nat): (s: seq<Byte>)
    ensures |s| == width
  {
    if width == 0 then [] else BigEndian(x / 256, width - 1) + [x % 256]
  }

  function Number(s: seq<Byte>): (x: nat)
    ensures x < Pow256(|s|)
  {
    if s == [] then 0 else 256 * Number(s[..|s| - 1]) + s[|s| - 1]
  }

  lemma {:induction false} NumberOfDigits(x: nat, width: nat)
    requires x < Pow256(width)
    ensures Number(BigEndian(x, width)) == x
  {
    if width > 0 {
      NumberOfDigits(x / 256, width - 1);
      assert BigEndian(x, width)[..width - 1] == BigEndian(x / 256, width - 1);
    }
  }

  function ToBE(x: U32): (s: seq<Byte>)
    ensures |s| == 4
  {
    BigEndian(x, 4)
  }

  function FromBE(s: seq<Byte>): U32
    requires |s| == 4
  {
    assert Pow256(4) == 0x1_0000_0000;
    Number(s)
  }

  function Reverse<T>(s: seq<T>): (r: seq<T>)
    ensures |r| == |s|
  {
    seq(|s|, i requires 0 <= i < |s| => s[|s| - 1 - i])
  }

  function ToLE(x: U32): (s: seq<Byte>)
    ensures |s| == 4
  {
    Reverse(ToBE(x))
  }

  function FromLE(s: seq<Byte>): U32
    requires |s| == 4
  {
    FromBE(Reverse(s))
  }

  lemma NumberNext(s: seq<Byte>, n: nat)
    requires n < |s|
    ensures Number(s[..n + 1]) == 256 * Number(s[..n]) + s[n]
  {
    assert s[..n + 1][..n] == s[..n];
  }

  lemma NumberOfFour(s: seq<Byte>)
    requires |s| == 4
    ensures var a: nat, b: nat, c: nat, d: nat := s[0], s[1], s[2], s[3];
            Number(s) == 0x100_0000 * a + 0x1_0000 * b + 0x100 * c + d
  {
    NumberNext(s, 0);
    NumberNext(s, 1);
    NumberNext(s, 2);
    NumberNext(s, 3);
    assert s[..4] == s;
  }

  /** On the wire the first of four bytes counts most ... */
  lemma BigEndianValue(s: seq<Byte>)
    requires |s| == 4
    ensures var a: nat, b: nat, c: nat, d: nat := s[0], s[1], s[2], s[3];
            FromBE(s) == 0x100_0000 * a + 0x1_0000 * b + 0x100 * c + d
  {
    NumberOfFour(s);
  }

  /** ... and in the resume file the last. */
  lemma LittleEndianValue(s: seq<Byte>)
    requires |s| == 4
    ensures var a: nat, b: nat, c: nat, d: nat := s[0], s[1], s[2], s[3];
            FromLE(s) == a + 0x100 * b + 0x1_0000 * c + 0x100_0000 * d
  {
    NumberOfFour(Reverse(s));
  }

  lemma ShortNumber(x: Byte)
    ensures ToBE(x) == [0, 0, 0, x] && ToLE(x) == [x, 0, 0, 0]
  {
    assert x / 256 == 0 && BigEndian(0, 1) == [0] && BigEndian(0, 2) == [0, 0] && BigEndian(0, 3) == [0, 0, 0];
  }

  lemma BigEndianRoundTrip(x: U32)
    ensures FromBE(ToBE(x)) == x
  {
    assert Pow256(4) == 0x1_0000_0000;
    NumberOfDigits(x, 4);
  }

  lemma LittleEndianRoundTrip(x: U32)
    ensures FromLE(ToLE(x)) == x
  {
    assert Reverse(ToLE(x)) == ToBE(x);
    BigEndianRoundTrip(x);
  }
}
