/** Bitfields on the wire: eight bits a byte, the most significant bit first. */
module Bitfields {
  import opened Metainfo

  /** Bit `k` of a number, bit 0 being the least significant: `(b >> k) & 1 != 0`. */
  function Bit(b: nat, k: nat): bool {
    if k == 0 then b % 2 == 1 else Bit(b / 2, k - 1)
  }

  /** The number whose binary digits, most significant first, are the given bits. */
  function FromBits(bits: seq<bool>): nat {
    if bits == [] then 0
    else 2 * FromBits(bits[..|bits| - 1]) + (if bits[|bits| - 1] then 1 else 0)
  }

  function Pow2(k: nat): nat {
    if k == 0 then 1 else 2 * Pow2(k - 1)
  }

  lemma {:induction false} FromBitsBound(bits: seq<bool>)
    ensures FromBits(bits) < Pow2(|bits|)
  {
    if bits != [] {
      FromBitsBound(bits[..|bits| - 1]);
    }
  }

  lemma {:induction false} BitOfBits(bits: seq<bool>, k: nat)
    requires k < |bits|
    ensures Bit(FromBits(bits), k) == bits[|bits| - 1 - k]
  {
    var front := bits[..|bits| - 1];
    assert FromBits(bits) / 2 == FromBits(front);
    if k > 0 {
      BitOfBits(front, k - 1);
    }
  }

  function TopBits(b: nat, width: nat): seq<bool> {
    seq(width, k requires 0 <= k < width => Bit(b, width - 1 - k))
  }

  lemma {:induction false} BitsOfNumber(b: nat, width: nat)
    requires b < Pow2(width)
    ensures FromBits(TopBits(b, width)) == b
  {
    if width > 0 {
      var bits := TopBits(b, width);
      forall k | 0 <= k < width - 1
        ensures bits[k] == Bit(b / 2, width - 2 - k)
      {
        assert bits[k] == Bit(b, width - 1 - k);
      }
      assert bits[..width - 1] == TopBits(b / 2, width - 1);
      assert bits[width - 1] == Bit(b, 0);
      BitsOfNumber(b / 2, width - 1);
    }
  }

  function ByteCount(n: nat): nat {
    (n + 7) / 8
  }

  /** The eight bits of byte `j`; spare bits are zero. */
  function Octet(bits: seq<bool>, j: nat): (r: seq<bool>)
    ensures |r| == 8
  {
    seq(8, k requires 0 <= k < 8 => 8 * j + k < |bits| && bits[8 * j + k])
  }

  lemma EightBitsAreAByte(bits: seq<bool>)
    requires |bits| == 8
    ensures FromBits(bits) < 256
  {
    FromBitsBound(bits);
    assert Pow2(8) == 256;
  }

  function PackedByte(bits: seq<bool>, j: nat): Byte {
    EightBitsAreAByte(Octet(bits, j));
    FromBits(Octet(bits, j))
  }

  /** The payload of a bitfield message. */
  function Pack(bits: seq<bool>): (bytes: seq<Byte>)
    ensures |bytes| == ByteCount(|bits|)
  {
    seq(ByteCount(|bits|), j requires 0 <= j < ByteCount(|bits|) => PackedByte(bits, j))
  }

  /** Bit `i` of a payload is bit 7 - i mod 8 of byte i / 8. */
  function BitAt(bytes: seq<Byte>, i: nat): bool
    requires i < 8 * |bytes|
  {
    Bit(bytes[i / 8], 7 - i % 8)
  }

  function Unpack(bytes: seq<Byte>, n: nat): (bits: seq<bool>)
    requires n <= 8 * |bytes|
    ensures |bits| == n
  {
    seq(n, i requires 0 <= i < n => BitAt(bytes, i))
  }

  /** The bits of the last byte beyond the last piece are zero. */
  ghost predicate SpareBitsClear(bytes: seq<Byte>, n: nat) {
    forall i: nat {:trigger BitAt(bytes, i)} :: n <= i < 8 * |bytes| ==> !BitAt(bytes, i)
  }

  lemma PackedBit(bits: seq<bool>, i: nat)
    requires i < 8 * ByteCount(|bits|)
    ensures BitAt(Pack(bits), i) == (i < |bits| && bits[i])
  {
    var j, k := i / 8, i % 8;
    BitOfBits(Octet(bits, j), 7 - k);
    assert 8 * j + k == i;
  }

  /** Unpacking inverts packing, for every number of pieces. */
  lemma UnpackPack(bits: seq<bool>)
    ensures Unpack(Pack(bits), |bits|) == bits && SpareBitsClear(Pack(bits), |bits|)
  {
    forall i: nat | i < 8 * ByteCount(|bits|)
      ensures BitAt(Pack(bits), i) == (i < |bits| && bits[i])
    {
      PackedBit(bits, i);
    }
  }

  lemma SameByte(b: Byte, c: Byte)
    requires forall k: nat :: k < 8 ==> Bit(b, k) == Bit(c, k)
    ensures b == c
  {
    assert Pow2(8) == 256;
    BitsOfNumber(b, 8);
    BitsOfNumber(c, 8);
    assert TopBits(b, 8) == TopBits(c, 8);
  }

  lemma SameBytes(a: seq<Byte>, b: seq<Byte>)
    requires |a| == |b| && forall i: nat :: i < 8 * |a| ==> BitAt(a, i) == BitAt(b, i)
    ensures a == b
  {
    forall j | 0 <= j < |a|
      ensures a[j] == b[j]
    {
      forall k: nat | k < 8
        ensures Bit(a[j], k) == Bit(b[j], k)
      {
        var i := 8 * j + (7 - k);
        assert i / 8 == j && i % 8 == 7 - k;
        assert BitAt(a, i) == BitAt(b, i);
      }
      SameByte(a[j], b[j]);
    }
  }

  /** ... and packing inverts unpacking exactly on the payloads with clear spare bits; the parser accepts the
      others too. */
  lemma PackUnpack(bytes: seq<Byte>, n: nat)
    requires |bytes| == ByteCount(n)
    ensures Pack(Unpack(bytes, n)) == bytes <==> SpareBitsClear(bytes, n)
  {
    var bits := Unpack(bytes, n);
    forall i: nat | i < 8 * |bytes|
      ensures BitAt(Pack(bits), i) == (i < n && BitAt(bytes, i))
    {
      PackedBit(bits, i);
    }
    if SpareBitsClear(bytes, n) {
      SameBytes(Pack(bits), bytes);
    }
  }
}
