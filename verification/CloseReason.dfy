/**
 The reason text of a WebSocket close frame: UTF-8 (section 3 of RFC 3629), cut to the room a control frame leaves
 behind the status code (section 5.5 of RFC 6455), and decoded again with malformed bytes ignored.
 */
module CloseReason {
  import opened Wrappers

  const MAX_CLOSE_REASON_BYTES := 123

  type Byte = b: int | 0 <= b < 256

  /** A Unicode scalar value: every code point but the surrogates, which have no UTF-8 form. */
  type Scalar = c: int | 0 <= c < 0xD800 || 0xE000 <= c < 0x110000

  function EncodeScalar(c: Scalar): (bytes: seq<Byte>)
    ensures 1 <= |bytes| <= 4
  {
    if c < 0x80 then [c]
    else if c < 0x800 then [0xC0 + c / 64, 0x80 + c % 64]
    else if c < 0x10000 then [0xE0 + c / 4096, 0x80 + c / 64 % 64, 0x80 + c % 64]
    else [0xF0 + c / 262144, 0x80 + c / 4096 % 64, 0x80 + c / 64 % 64, 0x80 + c % 64]
  }

  function Encode(text: seq<Scalar>): seq<Byte> {
    if text == [] then [] else EncodeScalar(text[0]) + Encode(text[1..])
  }

  predicate Continues(b: Byte) {
    0x80 <= b < 0xC0
  }

  function Payload(b: Byte): nat
    requires Continues(b)
  {
    (b as int) - 0x80
  }

  datatype Decoded = Decoded(scalar: Scalar, length: nat)

  /** A sequence is well formed when it is the shortest one for its value and the value is a scalar. */
  function WellFormed(value: nat, least: nat, length: nat): Option<Decoded> {
    if least <= value < 0xD800 || (0xE000 <= value < 0x110000 && least <= value) then Some(Decoded(value, length)) else None
  }

  /** The character at the start of the bytes, if they start with a complete and well-formed sequence. */
  function DecodeFirst(bytes: seq<Byte>): Option<Decoded>
    requires bytes != []
  {
    var lead: int := bytes[0];
    if lead < 0x80 then Some(Decoded(lead, 1))
    else if 0xC0 <= lead < 0xE0 && |bytes| >= 2 && Continues(bytes[1]) then
      WellFormed((lead - 0xC0) * 64 + Payload(bytes[1]), 0x80, 2)
    else if 0xE0 <= lead < 0xF0 && |bytes| >= 3 && Continues(bytes[1]) && Continues(bytes[2]) then
      WellFormed((lead - 0xE0) * 4096 + Payload(bytes[1]) * 64 + Payload(bytes[2]), 0x800, 3)
    else if 0xF0 <= lead < 0xF8 && |bytes| >= 4 && Continues(bytes[1]) && Continues(bytes[2]) && Continues(bytes[3]) then
      WellFormed((lead - 0xF0) * 262144 + Payload(bytes[1]) * 4096 + Payload(bytes[2]) * 64 + Payload(bytes[3]), 0x10000, 4)
    else None
  }

  /** Decoding that ignores every byte that starts no well-formed sequence. */
  function DecodeIgnoring(bytes: seq<Byte>): seq<Scalar> {
    if bytes == [] then []
    else
      var first := DecodeFirst(bytes);
      if first.Some? && 0 < first.value.length <= |bytes|
      then [first.value.scalar] + DecodeIgnoring(bytes[first.value.length..])
      else DecodeIgnoring(bytes[1..])
  }

  function Take(bytes: seq<Byte>, limit: nat): seq<Byte> {
    if |bytes| <= limit then bytes else bytes[..limit]
  }

  function CloseReason(reason: seq<Scalar>): seq<Scalar> {
    DecodeIgnoring(Take(Encode(reason), MAX_CLOSE_REASON_BYTES))
  }

  // ----- one character -----

  /** The digits of a number to the base 64. */
  lemma Digits(c: nat)
    ensures c == c / 64 * 64 + c % 64
    ensures c / 64 == c / 4096 * 64 + c / 64 % 64
    ensures c / 4096 == c / 262144 * 64 + c / 4096 % 64
  {
  }

  /** What a byte holds beside its marker. */
  function Bits(b: Byte, marker: nat): int {
    (b as int) - marker
  }

  /**
   The table of section 3 of RFC 3629: the length goes with the range of the character, the lead byte with the length,
   continuation bytes start with the bits 10, and the payload bits are the character.
   */
  lemma EncodingIsUtf8(c: Scalar)
    ensures var b := EncodeScalar(c);
      && |b| == (if c < 0x80 then 1 else if c < 0x800 then 2 else if c < 0x10000 then 3 else 4)
      && (forall i :: 1 <= i < |b| ==> 0x80 <= b[i] <= 0xBF)
      && (|b| == 1 ==> b[0] == c)
      && (|b| == 2 ==> 0xC2 <= b[0] <= 0xDF && c == Bits(b[0], 0xC0) * 64 + Bits(b[1], 0x80))
      && (|b| == 3 ==> 0xE0 <= b[0] <= 0xEF && c == Bits(b[0], 0xE0) * 4096 + Bits(b[1], 0x80) * 64 + Bits(b[2], 0x80))
      && (|b| == 4 ==> 0xF0 <= b[0] <= 0xF4
                       && c == Bits(b[0], 0xF0) * 262144 + Bits(b[1], 0x80) * 4096 + Bits(b[2], 0x80) * 64 + Bits(b[3], 0x80))
  {
    Digits(c);
  }

  lemma DecodesWhatWasEncoded(c: Scalar, rest: seq<Byte>)
    ensures DecodeFirst(EncodeScalar(c) + rest) == Some(Decoded(c, |EncodeScalar(c)|))
  {
    var code, bytes := EncodeScalar(c), EncodeScalar(c) + rest;
    assert bytes[0] == code[0];
    if c >= 0x80 {
      Digits(c);
      assert bytes[1] == code[1];
      if c >= 0x800 {
        assert bytes[2] == code[2];
        if c >= 0x10000 {
          assert bytes[3] == code[3];
          WideValue(c);
        } else {
          ThreeByteValue(c);
        }
      }
    }
  }

  lemma ThreeByteValue(c: nat)
    ensures c / 4096 * 4096 + c / 64 % 64 * 64 + c % 64 == c
  {
    Digits(c);
  }

  lemma WideValue(c: nat)
    ensures c / 262144 * 262144 + c / 4096 % 64 * 4096 + c / 64 % 64 * 64 + c % 64 == c
  {
    Digits(c);
  }

  lemma ContinuationsAreIgnored(bytes: seq<Byte>)
    requires |bytes| <= 3 && forall i :: 0 <= i < |bytes| ==> Continues(bytes[i])
    ensures DecodeIgnoring(bytes) == []
  {
  }

  /** A character that was cut off leaves nothing. */
  lemma CutCharacterIsIgnored(c: Scalar, n: nat)
    requires n < |EncodeScalar(c)|
    ensures DecodeIgnoring(EncodeScalar(c)[..n]) == []
  {
    var cut := EncodeScalar(c)[..n];
    if n > 0 {
      assert DecodeFirst(cut).None?;
      ContinuationsAreIgnored(cut[1..]);
    }
  }

  // ----- texts -----

  /** How many characters of the text fit into `limit` bytes. */
  function Fit(text: seq<Scalar>, limit: nat): (n: nat)
    ensures n <= |text|
  {
    if text == [] || |EncodeScalar(text[0])| > limit then 0 else 1 + Fit(text[1..], limit - |EncodeScalar(text[0])|)
  }

  lemma {:induction false} CutTextKeepsWhatFits(text: seq<Scalar>, limit: nat)
    ensures DecodeIgnoring(Take(Encode(text), limit)) == text[..Fit(text, limit)]
  {
    if text != [] {
      var head, tail := EncodeScalar(text[0]), Encode(text[1..]);
      if |head| > limit {
        assert Take(head + tail, limit) == head[..limit];
        CutCharacterIsIgnored(text[0], limit);
      } else {
        var rest := Take(tail, limit - |head|);
        assert Take(head + tail, limit) == head + rest;
        DecodesWhatWasEncoded(text[0], rest);
        assert (head + rest)[|head|..] == rest;
        CutTextKeepsWhatFits(text[1..], limit - |head|);
        assert text[..Fit(text, limit)] == [text[0]] + text[1..][..Fit(text[1..], limit - |head|)];
      }
    }
  }

  /** A prefix fits exactly when it is not longer than `Fit` says. */
  lemma {:induction false} FitIsLongest(text: seq<Scalar>, limit: nat, n: nat)
    requires n <= |text|
    ensures |Encode(text[..n])| <= limit <==> n <= Fit(text, limit)
  {
    if n > 0 {
      var head := EncodeScalar(text[0]);
      assert text[..n][1..] == text[1..][..n - 1];
      if |head| <= limit {
        FitIsLongest(text[1..], limit - |head|, n - 1);
      }
    }
  }

  /**
   The reason is the longest prefix, in whole characters, whose UTF-8 form fits into 123 bytes: a prefix of the text
   fits exactly when it is not longer than the result.
   */
  lemma LongestPrefixThatFits(reason: seq<Scalar>, n: nat)
    requires n <= |reason|
    ensures CloseReason(reason) <= reason
    ensures |Encode(reason[..n])| <= 123 <==> n <= |CloseReason(reason)|
  {
    CutTextKeepsWhatFits(reason, MAX_CLOSE_REASON_BYTES);
    FitIsLongest(reason, MAX_CLOSE_REASON_BYTES, n);
  }

  /** With its two-byte status code, the close frame keeps within the 125 bytes of a control frame. */
  lemma FitsTheControlFrame(reason: seq<Scalar>)
    ensures 2 + |Encode(CloseReason(reason))| <= 125
  {
    LongestPrefixThatFits(reason, 0);
    LongestPrefixThatFits(reason, |CloseReason(reason)|);
    assert reason[..|CloseReason(reason)|] == CloseReason(reason);
  }

  /** Encoding and decoding again gives the text back. */
  lemma RoundTrip(text: seq<Scalar>)
    ensures DecodeIgnoring(Encode(text)) == text
  {
    CutTextKeepsWhatFits(text, |Encode(text)|);
    FitIsLongest(text, |Encode(text)|, |text|);
    assert text[..|text|] == text;
  }
}
