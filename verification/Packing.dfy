/** Fixed-width big-endian numbers. */
module Packing {
  import opened Common

  type Byte = b: int | 0 <= b < 256

  /** How many values `width` bytes have. */
  function Power(width: nat): (n: nat)
    ensures n > 0 && (width > 0 ==> n % 2 == 0)
  {
    if width == 0 then 1 else 256 * Power(width - 1)
  }

  lemma PowerValues()
    ensures Power(1) == 256 && Power(4) == 0x1_0000_0000 && Power(8) == 0x1_0000_0000_0000_0000
  {
    assert Power(2) == 0x1_0000;
    assert Power(3) == 0x100_0000;
    assert Power(5) == 0x100_0000_0000;
    assert Power(6) == 0x1_0000_0000_0000;
    assert Power(7) == 0x100_0000_0000_0000;
  }

  function BigEndian(n: nat, width: nat): (bs: seq<Byte>)
    ensures |bs| == width
  {
    if width == 0 then [] else BigEndian(n / 256, width - 1) + [n % 256]
  }

  function Unsigned(bs: seq<Byte>): (n: nat)
    ensures n < Power(|bs|)
  {
    if bs == [] then 0 else 256 * Unsigned(bs[..|bs| - 1]) + bs[|bs| - 1]
  }

  lemma {:induction false} UnsignedOfBigEndian(n: nat, width: nat)
    requires n < Power(width)
    ensures Unsigned(BigEndian(n, width)) == n
  {
    if width > 0 {
      var bs := BigEndian(n, width);
      assert bs[..width - 1] == BigEndian(n / 256, width - 1);
      UnsignedOfBigEndian(n / 256, width - 1);
    }
  }

  /** The most significant byte comes first. */
  lemma MostSignificantFirst(a: Byte, b: Byte, c: Byte, d: Byte)
    ensures BigEndian(((a * 256 + b) * 256 + c) * 256 + d, 4) == [a, b, c, d]
    ensures Unsigned([a, b, c, d]) == ((a * 256 + b) * 256 + c) * 256 + d
  {
    assert BigEndian(a, 1) == [a];
    assert BigEndian(a * 256 + b, 2) == [a, b];
    assert BigEndian((a * 256 + b) * 256 + c, 3) == [a, b, c];
    assert [a][..0] == [] && Unsigned([a]) == a;
    assert [a, b][..1] == [a] && Unsigned([a, b]) == a * 256 + b;
    assert [a, b, c][..2] == [a, b] && Unsigned([a, b, c]) == (a * 256 + b) * 256 + c;
    assert [a, b, c, d][..3] == [a, b, c];
  }

  predicate FitsSigned(v: int, width: nat) {
    0 <= 2 * v + Power(width) && 2 * v < Power(width)
  }

  /** Two's complement; a value that does not fit is an error. */
  function PackSigned(v: int, width: nat): (r: Option<seq<Byte>>)
    ensures r.Some? <==> FitsSigned(v, width)
    ensures r.Some? ==> |r.value| == width
  {
    if FitsSigned(v, width) then Some(BigEndian(if v < 0 then v + Power(width) else v, width)) else None
  }

  function PackUnsigned(v: nat, width: nat): (r: Option<seq<Byte>>)
    ensures r.Some? <==> v < Power(width)
    ensures r.Some? ==> |r.value| == width
  {
    if v < Power(width) then Some(BigEndian(v, width)) else None
  }

  function UnpackSigned(bs: seq<Byte>): (v: int)
    requires bs != []
    ensures FitsSigned(v, |bs|)
  {
    if 2 * Unsigned(bs) >= Power(|bs|) then Unsigned(bs) - Power(|bs|) else Unsigned(bs)
  }

  lemma SignedRoundTrip(v: int, width: nat)
    requires width > 0 && FitsSigned(v, width)
    ensures UnpackSigned(PackSigned(v, width).value) == v
  {
    UnsignedOfBigEndian(if v < 0 then v + Power(width) else v, width);
  }

  /** Lengths are written unsigned and read signed: this is the identity below half the range. */
  lemma LengthRoundTripIff(n: nat, width: nat)
    requires width > 0 && n < Power(width)
    ensures UnpackSigned(PackUnsigned(n, width).value) == n <==> 2 * n < Power(width)
    ensures UnpackSigned(PackUnsigned(n, width).value) < 0 <==> 2 * n >= Power(width)
  {
    UnsignedOfBigEndian(n, width);
  }

  /** The last byte of a packed number. */
  lemma LowByte(n: int, width: nat)
    requires width > 0 && FitsSigned(n, width)
    ensures PackSigned(n, width).value[width - 1] == n % 256
  {
    if n < 0 {
      assert Power(width) == 256 * Power(width - 1);
      assert (n + 256 * Power(width - 1)) % 256 == n % 256;
    }
  }
}
