/**
 * Little-endian two's-complement integers of a fixed byte width: the
 * decoding done by `struct.unpack` with the formats '<h' (2 bytes) and
 * '<i' (4 bytes), together with the encoding that inverts it.
 */
module Codec {

  /** A byte of the stream, as Python's `bytes` yields it: a number in [0, 256). */
  type byte = b: int | 0 <= b < 256

  /** Width in bytes of the '<h' format (a signed short). */
  const ShortWidth: nat := 2
  /** Width in bytes of the '<i' format (a signed int). */
  const IntWidth: nat := 4

  /** 256 raised to `n`: the number of distinct values of `n` bytes. */
  function Pow256(n: nat): (r: nat)
    ensures r > 0
  {
    if n == 0 then 1 else 256 * Pow256(n - 1)
  }

  /** Half the range of `width` bytes: the first value whose sign bit is set. */
  function SignBound(width: nat): (h: nat)
    requires width > 0
    ensures 2 * h == Pow256(width)
  {
    128 * Pow256(width - 1)
  }

  /** The unsigned value of `b`, least significant byte first. */
  function Unsigned(b: seq<byte>): (u: nat)
    ensures u < Pow256(|b|)
  {
    if b == [] then 0 else b[0] + 256 * Unsigned(b[1..])
  }

  /** The `width` bytes, least significant first, whose unsigned value is `u`. */
  function FromUnsigned(u: nat, width: nat): (b: seq<byte>)
    requires u < Pow256(width)
    ensures |b| == width
  {
    if width == 0 then [] else [u % 256] + FromUnsigned(u / 256, width - 1)
  }

  /** `v` lies in the range of a signed integer of `width` bytes. */
  predicate InRange(v: int, width: nat)
    requires width > 0
  {
    -(SignBound(width) as int) <= v < SignBound(width)
  }

  /** Two's-complement reading of the unsigned value `u` of `width` bytes. */
  function ToSigned(u: nat, width: nat): (v: int)
    requires width > 0 && u < Pow256(width)
    ensures InRange(v, width)
    ensures v >= 0 <==> u < SignBound(width)
  {
    if u < SignBound(width) then u else u - Pow256(width)
  }

  /** The unsigned value of `width` bytes whose two's-complement reading is `v`. */
  function ToUnsigned(v: int, width: nat): (u: nat)
    requires width > 0 && InRange(v, width)
    ensures u < Pow256(width)
    ensures ToSigned(u, width) == v
  {
    if v >= 0 then v else v + Pow256(width)
  }

  /** The signed little-endian value of `b`, as `struct.unpack` returns it. */
  function Decode(b: seq<byte>): (v: int)
    requires |b| > 0
    ensures InRange(v, |b|)
  {
    ToSigned(Unsigned(b), |b|)
  }

  /** The `width` bytes that hold `v` as a signed little-endian integer. */
  function Encode(v: int, width: nat): (b: seq<byte>)
    requires width > 0 && InRange(v, width)
    ensures |b| == width
  {
    FromUnsigned(ToUnsigned(v, width), width)
  }

  /** Reading back the bytes written for `u` gives `u`. */
  lemma {:induction false} UnsignedOfFromUnsigned(u: nat, width: nat)
    requires u < Pow256(width)
    ensures Unsigned(FromUnsigned(u, width)) == u
  {
    if width > 0 {
      var b := FromUnsigned(u, width);
      var q, rem := u / 256, u % 256;
      assert b[0] == rem && b[1..] == FromUnsigned(q, width - 1);
      UnsignedOfFromUnsigned(q, width - 1);
    }
  }

  /** The quotient and remainder of `256 * q + r` by 256, for a byte `r`. */
  lemma DivMod256(a: nat, q: nat, r: nat)
    requires r < 256 && a == 256 * q + r
    ensures a / 256 == q && a % 256 == r
  {
  }

  /** Writing the unsigned value of `b` with its own width gives `b` back. */
  lemma {:induction false} FromUnsignedOfUnsigned(b: seq<byte>)
    ensures FromUnsigned(Unsigned(b), |b|) == b
  {
    if b != [] {
      var rest := Unsigned(b[1..]);
      var u := Unsigned(b);
      DivMod256(u, rest, b[0]);
      FromUnsignedOfUnsigned(b[1..]);
      assert b == [b[0]] + b[1..];
    }
  }

  /** Decoding the encoding of `v` gives `v`: encode-then-parse is the identity. */
  lemma DecodeEncode(v: int, width: nat)
    requires width > 0 && InRange(v, width)
    ensures Decode(Encode(v, width)) == v
  {
    UnsignedOfFromUnsigned(ToUnsigned(v, width), width);
  }

  /** Encoding the decoded value of `b` gives `b` back: no two byte strings decode alike. */
  lemma EncodeDecode(b: seq<byte>)
    requires |b| > 0
    ensures Encode(Decode(b), |b|) == b
  {
    var u := Unsigned(b);
    assert ToUnsigned(ToSigned(u, |b|), |b|) == u;
    FromUnsignedOfUnsigned(b);
  }

  /** The concrete ranges of the two formats the parser uses. */
  lemma Ranges()
    ensures Pow256(ShortWidth) == 0x1_0000 && SignBound(ShortWidth) == 0x8000
    ensures Pow256(IntWidth) == 0x1_0000_0000 && SignBound(IntWidth) == 0x8000_0000
  {
  }
}
