/**
 * UTF-8 as `std::str::from_utf8` accepts it: the well-formed byte sequences of
 * RFC 3629 (no overlong forms, no surrogates, nothing above U+10FFFF). The
 * encoder is the partner that pins the decoder down: a byte sequence decodes to
 * a string exactly when it is that string's encoding.
 */
module Utf8 {
  import opened Common

  predicate IsContinuation(b: byte) {
    0x80 <= b < 0xC0
  }

  /** Bounds on the second byte of a three-byte sequence led by `b0`. */
  function SecondLow3(b0: byte): byte { if b0 == 0xE0 then 0xA0 else 0x80 }
  function SecondHigh3(b0: byte): byte { if b0 == 0xED then 0x9F else 0xBF }

  /** Bounds on the second byte of a four-byte sequence led by `b0`. */
  function SecondLow4(b0: byte): byte { if b0 == 0xF0 then 0x90 else 0x80 }
  function SecondHigh4(b0: byte): byte { if b0 == 0xF4 then 0x8F else 0xBF }

  /**
   * The scalar value at the front of `bs` and the number of bytes it takes,
   * or None when `bs` does not start with a well-formed sequence.
   */
  function DecodeFirst(bs: seq<byte>): (r: Option<(char, nat)>)
    requires |bs| > 0
    ensures r.Some? ==> 1 <= r.value.1 <= 4 && r.value.1 <= |bs|
  {
    var b0 := bs[0] as int;
    if b0 < 0x80 then
      Some((b0 as char, 1))
    else if 0xC2 <= b0 <= 0xDF then
      if |bs| >= 2 && IsContinuation(bs[1]) then
        Some((((b0 - 0xC0) * 64 + (bs[1] as int - 0x80)) as char, 2))
      else None
    else if 0xE0 <= b0 <= 0xEF then
      if |bs| >= 3 && SecondLow3(b0) <= bs[1] <= SecondHigh3(b0) && IsContinuation(bs[2]) then
        Some((((b0 - 0xE0) * 4096 + (bs[1] as int - 0x80) * 64 + (bs[2] as int - 0x80)) as char, 3))
      else None
    else if 0xF0 <= b0 <= 0xF4 then
      if |bs| >= 4 && SecondLow4(b0) <= bs[1] <= SecondHigh4(b0) && IsContinuation(bs[2]) && IsContinuation(bs[3]) then
        Some((((b0 - 0xF0) * 262144 + (bs[1] as int - 0x80) * 4096 + (bs[2] as int - 0x80) * 64 + (bs[3] as int - 0x80)) as char, 4))
      else None
    else
      None
  }

  /** `std::str::from_utf8`: the decoded text, or None for an invalid sequence. */
  function Decode(bs: seq<byte>): (r: Option<string>)
    decreases |bs|
    // every character takes at least one byte
    ensures r.Some? ==> |r.value| <= |bs|
    // ASCII is decoded byte for byte
    ensures (forall i :: 0 <= i < |bs| ==> bs[i] < 0x80) ==>
              r.Some? && |r.value| == |bs| && forall i :: 0 <= i < |bs| ==> r.value[i] == bs[i] as char
  {
    if bs == [] then Some([])
    else
      match DecodeFirst(bs)
      case None => None
      case Some((c, n)) =>
        match Decode(bs[n..])
        case None => None
        case Some(rest) => Some([c] + rest)
  }

  /** The UTF-8 encoding of one scalar value. */
  function EncodeChar(c: char): (r: seq<byte>)
    ensures 1 <= |r| <= 4
  {
    var v := c as int;
    if v < 0x80 then [v]
    else if v < 0x800 then [0xC0 + v / 64, 0x80 + v % 64]
    else if v < 0x10000 then [0xE0 + v / 64 / 64, 0x80 + v / 64 % 64, 0x80 + v % 64]
    else [0xF0 + v / 64 / 64 / 64, 0x80 + v / 64 / 64 % 64, 0x80 + v / 64 % 64, 0x80 + v % 64]
  }

  function Encode(s: string): seq<byte> {
    if s == [] then [] else EncodeChar(s[0]) + Encode(s[1..])
  }

  lemma DecodeFirstOfEncodeChar(c: char, rest: seq<byte>)
    ensures DecodeFirst(EncodeChar(c) + rest) == Some((c, |EncodeChar(c)|))
  {
    var v := c as int;
    var bs := EncodeChar(c) + rest;
    if v < 0x80 {
    } else if v < 0x800 {
      assert bs[0] == 0xC0 + v / 64 && bs[1] == 0x80 + v % 64;
    } else if v < 0x10000 {
      var q := v / 64;
      assert bs[0] == 0xE0 + q / 64 && bs[1] == 0x80 + q % 64 && bs[2] == 0x80 + v % 64;
      assert v == (q / 64) * 4096 + (q % 64) * 64 + v % 64;
    } else {
      var q := v / 64;
      var q2 := q / 64;
      assert bs[0] == 0xF0 + q2 / 64 && bs[1] == 0x80 + q2 % 64;
      assert bs[2] == 0x80 + q % 64 && bs[3] == 0x80 + v % 64;
      assert v == (q2 / 64) * 262144 + (q2 % 64) * 4096 + (q % 64) * 64 + v % 64;
    }
  }

  /** Decoding undoes encoding. */
  lemma {:induction false} DecodeEncode(s: string)
    ensures Decode(Encode(s)) == Some(s)
  {
    if s != [] {
      var e := EncodeChar(s[0]);
      var bs := Encode(s);
      assert bs == e + Encode(s[1..]);
      DecodeFirstOfEncodeChar(s[0], Encode(s[1..]));
      assert bs[|e|..] == Encode(s[1..]);
      DecodeEncode(s[1..]);
      assert [s[0]] + s[1..] == s;
    }
  }

  lemma EncodeCharOfDecodeFirst(bs: seq<byte>)
    requires |bs| > 0 && DecodeFirst(bs).Some?
    ensures EncodeChar(DecodeFirst(bs).value.0) == bs[..DecodeFirst(bs).value.1]
  {
    var b0 := bs[0] as int;
    var c := DecodeFirst(bs).value.0;
    var v := c as int;
    if b0 < 0x80 {
    } else if b0 <= 0xDF {
      assert v == (b0 - 0xC0) * 64 + (bs[1] as int - 0x80);
      assert v / 64 == b0 - 0xC0 && v % 64 == bs[1] as int - 0x80;
    } else if b0 <= 0xEF {
      var q := (b0 - 0xE0) * 64 + (bs[1] as int - 0x80);
      assert v == q * 64 + (bs[2] as int - 0x80);
      assert v / 64 == q && v % 64 == bs[2] as int - 0x80;
      assert q / 64 == b0 - 0xE0 && q % 64 == bs[1] as int - 0x80;
    } else {
      var q2 := (b0 - 0xF0) * 64 + (bs[1] as int - 0x80);
      var q := q2 * 64 + (bs[2] as int - 0x80);
      assert v == q * 64 + (bs[3] as int - 0x80);
      assert v / 64 == q && v % 64 == bs[3] as int - 0x80;
      assert q / 64 == q2 && q % 64 == bs[2] as int - 0x80;
      assert q2 / 64 == b0 - 0xF0 && q2 % 64 == bs[1] as int - 0x80;
    }
  }

  /** Decoding accepts only canonical encodings: what decodes re-encodes to the same bytes. */
  lemma {:induction false} EncodeDecode(bs: seq<byte>)
    requires Decode(bs).Some?
    ensures Encode(Decode(bs).value) == bs
  {
    if bs != [] {
      var n := DecodeFirst(bs).value.1;
      EncodeCharOfDecodeFirst(bs);
      EncodeDecode(bs[n..]);
      assert bs == bs[..n] + bs[n..];
    }
  }

  /** Both directions at once: `bs` decodes to `s` exactly when `bs` is the encoding of `s`. */
  lemma DecodeIffEncode(bs: seq<byte>, s: string)
    ensures Decode(bs) == Some(s) <==> Encode(s) == bs
  {
    if Decode(bs) == Some(s) {
      EncodeDecode(bs);
    }
    if Encode(s) == bs {
      DecodeEncode(s);
    }
  }
}
