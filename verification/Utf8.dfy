/** UTF-8 (RFC 3629) as Python's strict decoder reads it: no overlong forms, no surrogates, nothing
    above U+10FFFF. */
module Utf8 {
  import opened Outcomes

  type Byte = b: nat | b < 256

  type Scalar = c: nat | c < 0x11_0000 && !(0xD800 <= c < 0xE000)

  function EncodeScalar(c: Scalar): (raw: seq<Byte>)
    ensures raw != [] && |raw| == Announced(raw[0])
    ensures forall i :: 0 < i < |raw| ==> Continuation(raw[i])
    ensures CodeOf(raw) == c && LeastCode(|raw|) <= c
  {
    if c < 0x80 then [c]
    else if c < 0x800 then [0xC0 + c / 64, 0x80 + c % 64]
    else if c < 0x1_0000 then [0xE0 + c / 64 / 64, 0x80 + c / 64 % 64, 0x80 + c % 64]
    else [0xF0 + c / 64 / 64 / 64, 0x80 + c / 64 / 64 % 64, 0x80 + c / 64 % 64, 0x80 + c % 64]
  }

  function Encode(text: seq<Scalar>): seq<Byte> {
    if text == [] then [] else EncodeScalar(text[0]) + Encode(text[1..])
  }

  predicate Continuation(b: Byte) {
    0x80 <= b < 0xC0
  }

  /** The number of bytes the first byte announces; 0 for a byte that starts nothing. */
  function Announced(b: Byte): nat {
    if b < 0x80 then 1 else if b < 0xC0 then 0 else if b < 0xE0 then 2 else if b < 0xF0 then 3 else if b < 0xF8 then 4
    else 0
  }

  /** The number a first byte and its continuation bytes stand for. */
  function CodeOf(raw: seq<Byte>): int
    requires raw != [] && |raw| == Announced(raw[0])
  {
    var b: seq<int> := raw;
    match |raw|
    case 1 => b[0]
    case 2 => (b[0] - 0xC0) * 64 + (b[1] - 0x80)
    case 3 => ((b[0] - 0xE0) * 64 + (b[1] - 0x80)) * 64 + (b[2] - 0x80)
    case _ => (((b[0] - 0xF0) * 64 + (b[1] - 0x80)) * 64 + (b[2] - 0x80)) * 64 + (b[3] - 0x80)
  }

  function LeastCode(length: nat): nat {
    if length <= 1 then 0 else if length == 2 then 0x80 else if length == 3 then 0x800 else 0x1_0000
  }

  /** The scalar at the front of `raw`, if there is one. */
  function DecodeScalar(raw: seq<Byte>): (c: Option<Scalar>)
    ensures c.Some? ==> raw != [] && 0 < Announced(raw[0]) <= |raw|
  {
    if raw == [] then None
    else
      var n := Announced(raw[0]);
      if n == 0 || |raw| < n || exists i | 0 < i < n :: !Continuation(raw[i]) then None
      else
        var code := CodeOf(raw[..n]);
        if code < LeastCode(n) || 0x11_0000 <= code || 0xD800 <= code < 0xE000 then None else Some(code)
  }

  function Decode(raw: seq<Byte>): Option<seq<Scalar>> {
    if raw == [] then Some([])
    else
      var first := DecodeScalar(raw);
      if first.None? then None
      else
        var rest := Decode(raw[Announced(raw[0])..]);
        if rest.None? then None else Some([first.value] + rest.value)
  }

  lemma DecodeEncodedScalar(c: Scalar, rest: seq<Byte>)
    ensures var raw := EncodeScalar(c) + rest;
            DecodeScalar(raw) == Some(c) && Announced(raw[0]) == |EncodeScalar(c)|
  {
    var scalar := EncodeScalar(c);
    var raw := scalar + rest;
    assert raw[..|scalar|] == scalar;
    assert forall i :: 0 < i < |scalar| ==> raw[i] == scalar[i];
  }

  lemma EncodeDecodedScalar(raw: seq<Byte>)
    requires DecodeScalar(raw).Some?
    ensures EncodeScalar(DecodeScalar(raw).value) == raw[..Announced(raw[0])]
  {
    var n := Announced(raw[0]);
    assert forall i :: 0 < i < n ==> Continuation(raw[i]);
    SameCode(raw[..n], EncodeScalar(DecodeScalar(raw).value));
  }

  /** A first byte and its continuation bytes. */
  ghost predicate Group(a: seq<Byte>) {
    && a != [] && |a| == Announced(a[0])
    && (1 < |a| ==> Continuation(a[1])) && (2 < |a| ==> Continuation(a[2])) && (3 < |a| ==> Continuation(a[3]))
  }

  lemma CodeBelowNextLength(a: seq<Byte>)
    requires Group(a)
    ensures |a| <= 4 && (|a| < 4 ==> CodeOf(a) < LeastCode(|a| + 1))
  {
  }

  /** Groups of the shortest length are told apart by the number they stand for. */
  lemma SameCode(a: seq<Byte>, b: seq<Byte>)
    requires Group(a) && Group(b) && CodeOf(a) == CodeOf(b)
    requires LeastCode(|a|) <= CodeOf(a) && LeastCode(|b|) <= CodeOf(b)
    ensures a == b
  {
    CodeBelowNextLength(a);
    CodeBelowNextLength(b);
    assert |a| == |b|;
    SameDigits(a, b);
  }

  lemma SameDigits(a: seq<Byte>, b: seq<Byte>)
    requires Group(a) && Group(b) && |a| == |b| && CodeOf(a) == CodeOf(b)
    ensures a == b
  {
  }

  /** Decoding inverts encoding, and only encodings decode. */
  lemma {:induction false} DecodeInvertsEncode(text: seq<Scalar>)
    ensures Decode(Encode(text)) == Some(text)
  {
    if text != [] {
      DecodeInvertsEncode(text[1..]);
      DecodeEncodedScalar(text[0], Encode(text[1..]));
      assert Encode(text)[|EncodeScalar(text[0])|..] == Encode(text[1..]);
      assert text == [text[0]] + text[1..];
    }
  }

  lemma {:induction false} OnlyEncodingsDecode(raw: seq<Byte>)
    requires Decode(raw).Some?
    ensures Encode(Decode(raw).value) == raw
  {
    if raw != [] {
      var n := Announced(raw[0]);
      var front, tail := raw[..n], raw[n..];
      var c, text := DecodeScalar(raw).value, Decode(tail).value;
      OnlyEncodingsDecode(tail);
      calc {
        Encode(Decode(raw).value);
        Encode([c] + text);
        { EncodeStep(c, text); }
        EncodeScalar(c) + Encode(text);
        { EncodeDecodedScalar(raw); }
        front + tail;
        raw;
      }
    }
  }

  lemma EncodeStep(c: Scalar, text: seq<Scalar>)
    ensures Encode([c] + text) == EncodeScalar(c) + Encode(text)
  {
    assert ([c] + text)[1..] == text;
  }
}
