/** Player identities and their hexadecimal rendering.
    A SpacetimeDB `Identity` is an opaque byte string (32 bytes in practice); the client
    keys every cache by `identity.toHexString()`, two lower-case hex digits per byte. */
module Identities {

  newtype Byte = x: int | 0 <= x < 256

  type Identity = seq<Byte>

  const HexDigits: string := "0123456789abcdef"

  function HexDigit(d: int): (c: char)
    requires 0 <= d < 16
  {
    HexDigits[d]
  }

  /** The two hex digits of one byte, high nibble first. */
  function ByteHex(b: Byte): (h: string)
    ensures |h| == 2
  {
    [HexDigit(b as int / 16), HexDigit(b as int % 16)]
  }

  /** `Identity.toHexString()`: the hex digits of each byte, in byte order. */
  function ToHex(id: Identity): (h: string)
    ensures |h| == 2 * |id|
  {
    if id == [] then "" else ByteHex(id[0]) + ToHex(id[1..])
  }

  lemma HexDigitInjective(a: int, b: int)
    requires 0 <= a < 16 && 0 <= b < 16
    ensures HexDigit(a) == HexDigit(b) ==> a == b
  {
  }

  lemma ByteHexInjective(a: Byte, b: Byte)
    ensures ByteHex(a) == ByteHex(b) ==> a == b
  {
    if ByteHex(a) == ByteHex(b) {
      HexDigitInjective(a as int / 16, b as int / 16);
      HexDigitInjective(a as int % 16, b as int % 16);
    }
  }

  /** Distinct identities have distinct hex strings, so a cache keyed by the hex string
      holds at most one row per identity. */
  lemma {:induction false} ToHexInjective(a: Identity, b: Identity)
    ensures ToHex(a) == ToHex(b) ==> a == b
  {
    if ToHex(a) == ToHex(b) && a != [] && b != [] {
      var ha, hb := ToHex(a), ToHex(b);
      assert ha[..2] == ByteHex(a[0]) && hb[..2] == ByteHex(b[0]);
      assert ha[2..] == ToHex(a[1..]) && hb[2..] == ToHex(b[1..]);
      ByteHexInjective(a[0], b[0]);
      ToHexInjective(a[1..], b[1..]);
      assert a == [a[0]] + a[1..];
      assert b == [b[0]] + b[1..];
    }
  }

  /** The first `2 * n` hex digits spell the first `n` bytes. */
  lemma {:induction false} ToHexPrefix(id: Identity, n: nat)
    requires n <= |id|
    ensures ToHex(id)[..2 * n] == ToHex(id[..n])
  {
    if n > 0 {
      ToHexPrefix(id[1..], n - 1);
      assert id[..n][1..] == id[1..][..n - 1];
      assert ToHex(id[..n]) == ByteHex(id[0]) + ToHex(id[1..][..n - 1]);
    }
  }
}
