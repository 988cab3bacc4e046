/** Lowercase hexadecimal digests: the encoder and the strict decoder. */
module HexCodec {
  import opened Common

  type Digest = d: seq<Byte> | |d| == 32 witness seq(32, i => 0)

  function HexDigit(n: int): Byte
    requires 0 <= n < 16
  {
    if n < 10 then 48 + n else 87 + n
  }

  predicate IsLowerHex(c: Byte) {
    48 <= c <= 57 || 97 <= c <= 102
  }

  function Nibble(c: Byte): (n: int)
    requires IsLowerHex(c)
    ensures 0 <= n < 16 && HexDigit(n) == c
  {
    if c <= 57 then c - 48 else c - 87
  }

  predicate LowerHexText(text: Text) {
    |text| % 2 == 0 && forall i :: 0 <= i < |text| ==> IsLowerHex(text[i])
  }

  /** The text of a byte string: two digits a byte, high nibble first. */
  function Hex(bytes: seq<Byte>): (text: Text)
    ensures |text| == 2 * |bytes|
  {
    seq(2 * |bytes|, k requires 0 <= k < 2 * |bytes| =>
      HexDigit(if k % 2 == 0 then bytes[k / 2] / 16 else bytes[k / 2] % 16))
  }

  function Unhex(text: Text): (bytes: seq<Byte>)
    requires LowerHexText(text)
    ensures 2 * |bytes| == |text|
  {
    seq(|text| / 2, i requires 0 <= i < |text| / 2 => 16 * Nibble(text[2 * i]) + Nibble(text[2 * i + 1]))
  }

  /** The digest a string denotes, if it is exactly 64 lowercase hexadecimal characters. */
  function HexToDigest(value: Text): Option<Digest> {
    if |value| == 64 && LowerHexText(value) then Some(Unhex(value)) else None
  }

  lemma {:induction false} HexIsLower(bytes: seq<Byte>)
    ensures LowerHexText(Hex(bytes))
  {
    forall k | 0 <= k < 2 * |bytes|
      ensures IsLowerHex(Hex(bytes)[k])
    {
    }
  }

  lemma {:induction false} UnhexHex(bytes: seq<Byte>)
    ensures LowerHexText(Hex(bytes)) && Unhex(Hex(bytes)) == bytes
  {
    HexIsLower(bytes);
    forall i | 0 <= i < |bytes|
      ensures Unhex(Hex(bytes))[i] == bytes[i]
    {
      assert Hex(bytes)[2 * i] == HexDigit(bytes[i] / 16);
      assert Hex(bytes)[2 * i + 1] == HexDigit(bytes[i] % 16);
    }
  }

  lemma {:induction false} HexUnhex(text: Text)
    requires LowerHexText(text)
    ensures Hex(Unhex(text)) == text
  {
    forall k | 0 <= k < |text|
      ensures Hex(Unhex(text))[k] == text[k]
    {
      var i := k / 2;
      assert k == 2 * i || k == 2 * i + 1;
      assert Unhex(text)[i] == 16 * Nibble(text[2 * i]) + Nibble(text[2 * i + 1]);
      NibblesOf(Nibble(text[2 * i]), Nibble(text[2 * i + 1]));
    }
  }

  lemma NibblesOf(high: int, low: int)
    requires 0 <= high < 16 && 0 <= low < 16
    ensures (16 * high + low) / 16 == high && (16 * high + low) % 16 == low
  {
  }

  /** Encoding and decoding are mutual inverses: on every digest, and on every accepted string. */
  lemma DigestTextRoundTrip(value: Text, digest: Digest)
    ensures HexToDigest(value) == Some(digest) <==> value == Hex(digest)
  {
    UnhexHex(digest);
    if HexToDigest(value).Some? {
      HexUnhex(value);
    }
  }

  method HexDigest(digest: Digest) returns (encoded: Text)
    ensures encoded == Hex(digest)
  {
    encoded := [];
    for i := 0 to 32
      invariant |encoded| == 2 * i
      invariant encoded == Hex(digest)[..2 * i]
    {
      ghost var before := encoded;
      encoded := encoded + [HexDigit(digest[i] / 16)];
      encoded := encoded + [HexDigit(digest[i] % 16)];
      assert Hex(digest)[2 * i] == HexDigit(digest[i] / 16);
      assert Hex(digest)[2 * i + 1] == HexDigit(digest[i] % 16);
      assert Hex(digest)[..2 * (i + 1)] == Hex(digest)[..2 * i] + [Hex(digest)[2 * i], Hex(digest)[2 * i + 1]];
      assert encoded == before + [Hex(digest)[2 * i], Hex(digest)[2 * i + 1]];
    }
    assert Hex(digest)[..64] == Hex(digest);
  }

  method DecodeLowercaseHex32(value: Text) returns (decoded: Option<Digest>)
    ensures decoded == HexToDigest(value)
  {
    if |value| != 64 || !(forall i :: 0 <= i < |value| ==> IsLowerHex(value[i])) {
      return None;
    }
    var bytes := new Byte[32](i => 0);
    for index := 0 to 32
      invariant forall i :: 0 <= i < index ==> bytes[i] == Unhex(value)[i]
    {
      bytes[index] := 16 * Nibble(value[index * 2]) + Nibble(value[index * 2 + 1]);
    }
    assert bytes[..] == Unhex(value);
    decoded := Some(bytes[..]);
  }
}
