/**
 * Bytes and the fixed-width integer encodings both tool chains read and write:
 * unsigned little- and big-endian numbers, two's-complement reinterpretation
 * (the C# casts `(sbyte)`, `(ushort)`, `(uint)`, `(ulong)` and C++'s
 * `std::int32_t(...)`), and byte strings.
 */
module Bytes {

  import opened Common

  type Byte = b: nat | b < 256

  /** 256 to the power k: the number of values a k-byte field holds. */
  function Pow256(k: nat): (p: nat)
    ensures p >= 1
  {
    if k == 0 then 1 else 256 * Pow256(k - 1)
  }

  /** Unsigned value of bytes stored least significant first. */
  function LittleEndian(bs: seq<Byte>): (n: nat)
    ensures n < Pow256(|bs|)
  {
    if |bs| == 0 then 0 else bs[0] + 256 * LittleEndian(bs[1..])
  }

  /** Unsigned value of bytes stored most significant first. */
  function BigEndian(bs: seq<Byte>): (n: nat)
    ensures n < Pow256(|bs|)
  {
    if |bs| == 0 then 0 else BigEndian(bs[..|bs| - 1]) * 256 + bs[|bs| - 1]
  }

  /** The k bytes, least significant first, of n modulo 256^k. */
  function LittleEndianBytes(n: nat, k: nat): (bs: seq<Byte>)
    ensures |bs| == k
  {
    if k == 0 then [] else [n % 256] + LittleEndianBytes(n / 256, k - 1)
  }

  function Reverse<T>(s: seq<T>): (r: seq<T>)
    ensures |r| == |s|
    ensures forall i :: 0 <= i < |s| ==> r[i] == s[|s| - 1 - i]
  {
    if |s| == 0 then [] else Reverse(s[1..]) + [s[0]]
  }

  /** Writing n in k little-endian bytes and reading them back gives n, when n fits. */
  lemma {:induction false} LittleEndianOfBytes(n: nat, k: nat)
    requires n < Pow256(k)
    ensures LittleEndian(LittleEndianBytes(n, k)) == n
  {
    if k > 0 {
      var bs := LittleEndianBytes(n, k);
      assert bs[1..] == LittleEndianBytes(n / 256, k - 1);
      LittleEndianOfBytes(n / 256, k - 1);
    }
  }

  /** Reading bytes as a little-endian number and writing it back gives the same bytes. */
  lemma {:induction false} BytesOfLittleEndian(bs: seq<Byte>)
    ensures LittleEndianBytes(LittleEndian(bs), |bs|) == bs
  {
    if |bs| > 0 {
      var n := LittleEndian(bs);
      DivMod(n, 256, LittleEndian(bs[1..]), bs[0]);
      BytesOfLittleEndian(bs[1..]);
    }
  }

  /** Big-endian bytes are the little-endian bytes in the opposite order. */
  lemma {:induction false} BigEndianIsReversed(bs: seq<Byte>)
    ensures BigEndian(bs) == LittleEndian(Reverse(bs))
  {
    if |bs| > 0 {
      var init := bs[..|bs| - 1];
      BigEndianIsReversed(init);
      assert Reverse(bs)[0] == bs[|bs| - 1];
      assert Reverse(bs)[1..] == Reverse(init);
    }
  }

  /** Two's-complement reading of the unsigned k-byte value u. */
  function ToSigned(u: nat, k: nat): (i: int)
    requires k >= 1 && u < Pow256(k)
    ensures -(Pow256(k) / 2 as int) <= i < Pow256(k) / 2
  {
    var p := Pow256(k);
    var half := 128 * Pow256(k - 1);
    assert p == half + half && p / 2 == half;
    if u < half then u else u - p
  }

  /** Reinterpretation of a signed value as a k-byte unsigned one (the cast to an unsigned type). */
  function ToUnsigned(i: int, k: nat): (u: nat)
    ensures u < Pow256(k)
  {
    i % Pow256(k)
  }

  /** The unsigned cast undoes the signed reading: `(uint)(int)u == u`. */
  lemma UnsignedOfSigned(u: nat, k: nat)
    requires k >= 1 && u < Pow256(k)
    ensures ToUnsigned(ToSigned(u, k), k) == u
  {
    var p := Pow256(k);
    if u >= p / 2 {
      DivMod(u - p, p, -1, u);
    } else {
      DivMod(u, p, 0, u);
    }
  }

  /** The signed reading undoes the unsigned cast for values the signed type holds. */
  lemma SignedOfUnsigned(i: int, k: nat)
    requires k >= 1 && -(Pow256(k) / 2 as int) <= i < Pow256(k) / 2
    ensures ToSigned(ToUnsigned(i, k), k) == i
  {
    var p := Pow256(k);
    if i < 0 {
      DivMod(i, p, -1, i + p);
    } else {
      DivMod(i, p, 0, i);
    }
  }

  /** Bytes read as characters one for one (the 8-bit part of UTF-8 decoding). */
  function BytesToChars(bs: seq<Byte>): (s: string)
    ensures |s| == |bs| && forall i :: 0 <= i < |bs| ==> s[i] as int == bs[i]
  {
    seq(|bs|, i requires 0 <= i < |bs| => bs[i] as char)
  }

  predicate IsByteString(s: string)
  {
    forall i :: 0 <= i < |s| ==> (s[i] as int) < 256
  }

  /** A `std::string`: characters that are each one byte. */
  type ByteString = s: string | IsByteString(s)

  /** Characters written one byte each, as std::string stores them. */
  function CharsToBytes(s: string): (bs: seq<Byte>)
    requires IsByteString(s)
    ensures |bs| == |s|
    ensures BytesToChars(bs) == s
  {
    seq(|s|, i requires 0 <= i < |s| => s[i] as int)
  }
}
