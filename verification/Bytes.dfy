/** Bytes, and the two's-complement big-endian integers that `Buffer` puts on the wire. */
module Bytes {

  newtype byte = x: int | 0 <= x < 256

  /** What a value of type `int8_t`, `int16_t` or `int32_t` (width 1, 2 or 4 bytes) can hold. */
  predicate IsSigned(width: nat, x: int) {
    -HalfRange(width) <= x < HalfRange(width)
  }

  function HalfRange(width: nat): (r: int)
    ensures r > 0
  {
    if width == 0 then 1 else if width == 1 then 128 else 256 * HalfRange(width - 1)
  }

  function Range(width: nat): (r: int)
    ensures r > 0
    ensures width > 0 ==> r == 2 * HalfRange(width)
  {
    if width == 0 then 1 else 256 * Range(width - 1)
  }

  /** Unsigned value of a byte string read most significant byte first. */
  function FromBigEndian(s: seq<byte>): (r: int)
    ensures 0 <= r < Range(|s|)
  {
    if s == [] then 0 else FromBigEndian(s[..|s| - 1]) * 256 + s[|s| - 1] as int
  }

  function ToBigEndian(width: nat, u: int): (s: seq<byte>)
    requires 0 <= u < Range(width)
    ensures |s| == width
  {
    if width == 0 then [] else ToBigEndian(width - 1, u / 256) + [(u % 256) as byte]
  }

  /** `htonl(static_cast<uint32_t>(x))` and its narrower forms: the bytes that reach the wire. */
  function Encode(width: nat, x: int): (s: seq<byte>)
    requires width > 0 && IsSigned(width, x)
    ensures |s| == width
  {
    ToBigEndian(width, if x < 0 then x + Range(width) else x)
  }

  /** `static_cast<int32_t>(ntohl(be32))` and its narrower forms. */
  function Decode(s: seq<byte>): (x: int)
    requires |s| > 0
    ensures IsSigned(|s|, x)
  {
    var u := FromBigEndian(s);
    if u < HalfRange(|s|) then u else u - Range(|s|)
  }

  lemma {:induction false} UnsignedRoundTrip(width: nat, u: int)
    requires 0 <= u < Range(width)
    ensures FromBigEndian(ToBigEndian(width, u)) == u
  {
    if width > 0 {
      UnsignedRoundTrip(width - 1, u / 256);
      var s := ToBigEndian(width, u);
      assert s[..|s| - 1] == ToBigEndian(width - 1, u / 256);
    }
  }

  lemma LowByte(high: int, low: int)
    requires 0 <= low < 256
    ensures (high * 256 + low) / 256 == high && (high * 256 + low) % 256 == low
  {
  }

  lemma {:induction false} BytesRoundTrip(s: seq<byte>)
    ensures ToBigEndian(|s|, FromBigEndian(s)) == s
  {
    if s != [] {
      var front, last := s[..|s| - 1], s[|s| - 1];
      BytesRoundTrip(front);
      var high := FromBigEndian(front);
      LowByte(high, last as int);
      assert FromBigEndian(s) == high * 256 + last as int;
      assert ToBigEndian(|s|, FromBigEndian(s)) == ToBigEndian(|front|, high) + [last];
    }
  }

  /** Writing then reading gives back every signed value, and reading then writing every byte string. */
  lemma {:induction false} SignedRoundTrip(width: nat, x: int, s: seq<byte>)
    requires width > 0 && IsSigned(width, x) && |s| == width
    ensures Decode(Encode(width, x)) == x
    ensures Encode(width, Decode(s)) == s
  {
    UnsignedRoundTrip(width, if x < 0 then x + Range(width) else x);
    BytesRoundTrip(s);
  }

  /** The first `width` bytes of `s` encode `x`, and no other value. */
  ghost predicate Leads(width: nat, x: int, s: seq<byte>) {
    && 0 < width <= |s| && IsSigned(width, x) && Encode(width, x) == s[..width]
    && forall y :: IsSigned(width, y) && Encode(width, y) <= s ==> y == x
  }

  /** Whatever the bytes are, their first `width` encode exactly one value. */
  lemma {:induction false} LeadingInteger(width: nat, s: seq<byte>)
    requires 0 < width <= |s|
    ensures Leads(width, Decode(s[..width]), s)
  {
    SignedRoundTrip(width, 0, s[..width]);
    forall y | IsSigned(width, y) && Encode(width, y) <= s ensures y == Decode(s[..width]) {
      var e := Encode(width, y);
      SignedRoundTrip(width, y, e);
      assert e == s[..width];
    }
  }
}
