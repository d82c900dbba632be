/** UTF-8 (RFC 3629, section 3), as far as the line splitter depends on it. */
module Utf8 {
  import opened Options
  import opened Sequences

  newtype Byte = b: int | 0 <= b < 0x100

  /** A Unicode scalar value. */
  newtype Scalar = c: int | 0 <= c < 0xD800 || 0xE000 <= c < 0x11_0000

  const NEWLINE: Byte := 0x0A
  const LINE_FEED: Scalar := 0x0A

  function EncodeScalar(c: Scalar): (bytes: seq<Byte>)
    ensures 1 <= |bytes| <= 4
  {
    var n := c as int;
    if n < 0x80 then [n as Byte]
    else if n < 0x800 then [(0xC0 + n / 0x40) as Byte, Trail(n)]
    else if n < 0x1_0000 then [(0xE0 + n / 0x1000) as Byte, Trail(n / 0x40), Trail(n)]
    else [(0xF0 + n / 0x4_0000) as Byte, Trail(n / 0x1000), Trail(n / 0x40), Trail(n)]
  }

  /** A continuation byte with the six lowest bits of n. */
  function Trail(n: nat): (b: Byte)
    ensures Continuation(b) && b as int == 0x80 + n % 0x40
  {
    (0x80 + n % 0x40) as Byte
  }

  predicate Continuation(b: Byte) {
    0x80 <= b < 0xC0
  }

  function Encode(text: seq<Scalar>): seq<Byte> {
    FlatMap(EncodeScalar, text)
  }

  /** The number of bytes a leading byte announces; 0 if it cannot lead. */
  function SequenceLength(lead: Byte): nat {
    if lead < 0x80 then 1
    else if 0xC2 <= lead < 0xE0 then 2
    else if 0xE0 <= lead < 0xF0 then 3
    else if 0xF0 <= lead < 0xF5 then 4
    else 0
  }

  /** The payload of a byte above the given base. */
  function Bits(b: Byte, base: int): int {
    b as int - base
  }

  /** The number that the first n bytes stand for. */
  function Value(bytes: seq<Byte>, n: nat): int
    requires 1 <= n <= 4 && n <= |bytes|
  {
    if n == 1 then bytes[0] as int
    else if n == 2 then Bits(bytes[0], 0xC0) * 0x40 + Bits(bytes[1], 0x80)
    else if n == 3 then Bits(bytes[0], 0xE0) * 0x1000 + Bits(bytes[1], 0x80) * 0x40 + Bits(bytes[2], 0x80)
    else
      Bits(bytes[0], 0xF0) * 0x4_0000 + Bits(bytes[1], 0x80) * 0x1000
        + Bits(bytes[2], 0x80) * 0x40 + Bits(bytes[3], 0x80)
  }

  /** The scalar value that the first bytes encode, in the shortest form only. */
  function DecodeScalar(bytes: seq<Byte>): Option<Scalar>
    requires bytes != []
  {
    var n := SequenceLength(bytes[0]);
    if n == 0 || n > |bytes| || exists i :: 1 <= i < n && !Continuation(bytes[i]) then None
    else
      var c := Value(bytes, n);
      if (0 <= c < 0xD800 || 0xE000 <= c < 0x11_0000) && |EncodeScalar(c as Scalar)| == n
      then Some(c as Scalar) else None
  }

  function Decode(bytes: seq<Byte>): Option<seq<Scalar>> {
    if bytes == [] then Some([])
    else
      var c := DecodeScalar(bytes);
      if c.None? then None
      else
        var n := |EncodeScalar(c.value)|;
        if n > |bytes| then None
        else
          var rest := Decode(bytes[n..]);
          if rest.None? then None else Some([c.value] + rest.value)
  }

  /** A newline byte never occurs inside a multi-byte sequence. */
  lemma NewlineStandsAlone(c: Scalar)
    ensures NEWLINE in EncodeScalar(c) <==> c == LINE_FEED
    ensures c == LINE_FEED ==> EncodeScalar(c) == [NEWLINE]
  {
  }

  lemma ThreeDigits(n: nat)
    ensures n == n / 0x1000 * 0x1000 + n / 0x40 % 0x40 * 0x40 + n % 0x40
  {
    assert n / 0x40 / 0x40 == n / 0x1000;
  }

  lemma ValueOfEncoded(c: Scalar, bytes: seq<Byte>)
    requires EncodeScalar(c) <= bytes
    ensures Value(bytes, |EncodeScalar(c)|) == c as int
  {
    var n := c as int;
    forall i | 0 <= i < |EncodeScalar(c)|
      ensures bytes[i] == EncodeScalar(c)[i]
    {
    }
    if n >= 0x800 {
      ThreeDigits(n);
      if n >= 0x1_0000 {
        ThreeDigits(n / 0x40);
        assert n / 0x40 / 0x1000 == n / 0x4_0000 && n / 0x40 / 0x40 == n / 0x1000;
      }
    }
  }

  lemma DecodeEncodeScalar(c: Scalar, rest: seq<Byte>)
    ensures DecodeScalar(EncodeScalar(c) + rest) == Some(c)
  {
    var bytes := EncodeScalar(c) + rest;
    assert EncodeScalar(c) <= bytes;
    ValueOfEncoded(c, bytes);
    assert bytes[0] == EncodeScalar(c)[0];
    assert SequenceLength(bytes[0]) == |EncodeScalar(c)|;
    forall i | 1 <= i < |EncodeScalar(c)|
      ensures Continuation(bytes[i])
    {
      assert bytes[i] == EncodeScalar(c)[i];
    }
  }

  /** Decoding undoes encoding. */
  lemma {:induction false} DecodeEncode(text: seq<Scalar>)
    ensures Decode(Encode(text)) == Some(text)
  {
    if text != [] {
      var c, rest := text[0], text[1..];
      DecodeEncode(rest);
      FlatMapConcat(EncodeScalar, [c], rest);
      FlatMapOne(EncodeScalar, c);
      assert text == [c] + rest;
      DecodeFirst(c, Encode(rest));
    }
  }

  lemma DecodeFirst(c: Scalar, rest: seq<Byte>)
    requires Decode(rest).Some?
    ensures Decode(EncodeScalar(c) + rest) == Some([c] + Decode(rest).value)
  {
    DecodeEncodeScalar(c, rest);
    assert (EncodeScalar(c) + rest)[|EncodeScalar(c)|..] == rest;
  }

  /** Examples of section 7 of RFC 3629: one, two, three and four bytes. */
  lemma EncodedExamples()
    ensures EncodeScalar(0x41) == [0x41] && EncodeScalar(0x391) == [0xCE, 0x91]
    ensures EncodeScalar(0x2262) == [0xE2, 0x89, 0xA2] && EncodeScalar(0xD55C) == [0xED, 0x95, 0x9C]
    ensures EncodeScalar(0x65E5) == [0xE6, 0x97, 0xA5] && EncodeScalar(0x233B4) == [0xF0, 0xA3, 0x8E, 0xB4]
  {
  }

  /** Sequences that section 3 of RFC 3629 forbids: an overlong form, a surrogate, and bytes that occur nowhere. */
  lemma ForbiddenSequences()
    ensures DecodeScalar([0xC0, 0x80]).None? && DecodeScalar([0xED, 0xA1, 0x8C]).None?
    ensures DecodeScalar([0xE0, 0x80, 0x80]).None?
    ensures DecodeScalar([0xFF]).None? && DecodeScalar([0x80]).None?
  {
    assert Value([0xED, 0xA1, 0x8C], 3) == 0xD84C && Value([0xE0, 0x80, 0x80], 3) == 0;
  }
}
