// Strings as sequences of code points, and the strict UTF-8 codec that the signer applies to them.
// A surrogate code point stands for an unpaired one: it has no encoding.
module Utf8 {
  import opened Wrappers

  type Byte = b: int | 0 <= b < 0x100
  type CodePoint = c: int | 0 <= c < 0x11_0000
  type Bytes = seq<Byte>
  type Text = seq<CodePoint>

  predicate Scalar(c: CodePoint) {
    !(0xD800 <= c < 0xE000)
  }

  function EncodeOne(c: CodePoint): (r: Bytes)
    ensures 1 <= |r| <= 4
  {
    if c < 0x80 then [c]
    else if c < 0x800 then [0xC0 + c / 0x40, 0x80 + c % 0x40]
    else if c < 0x1_0000 then [0xE0 + c / 0x1000, 0x80 + c / 0x40 % 0x40, 0x80 + c % 0x40]
    else [0xF0 + c / 0x4_0000, 0x80 + c / 0x1000 % 0x40, 0x80 + c / 0x40 % 0x40, 0x80 + c % 0x40]
  }

  // The byte patterns of section 3 of RFC 3629, with the payload bits of each byte.
  lemma EncodeOneExactly(c: CodePoint)
    ensures var r := EncodeOne(c);
            && (forall k :: 1 <= k < |r| ==> 0x80 <= r[k] <= 0xBF)
            && (|r| == 1 ==> 0x00 <= c <= 0x7F && r[0] == c)
            && (|r| == 2 ==> 0x80 <= c <= 0x7FF && 0xC2 <= r[0] <= 0xDF && c == (r[0] as int - 0xC0) * 64 + (r[1] as int - 0x80))
            && (|r| == 3 ==> 0x800 <= c <= 0xFFFF && 0xE0 <= r[0] <= 0xEF
                             && c == (r[0] as int - 0xE0) * 4096 + (r[1] as int - 0x80) * 64 + (r[2] as int - 0x80))
            && (|r| == 4 ==> 0x10000 <= c <= 0x10FFFF && 0xF0 <= r[0] <= 0xF4
                             && c == (r[0] as int - 0xF0) * 262144 + (r[1] as int - 0x80) * 4096 + (r[2] as int - 0x80) * 64 + (r[3] as int - 0x80))
  {
    SplitDigits(c);
    SplitDigits(c / 0x40);
    SplitDigits(c / 0x1000);
  }

  predicate Trail(b: Byte) {
    0x80 <= b < 0xC0
  }

  // The first code point of `b` and its length; overlong forms, surrogates and values past 0x10FFFF are malformed.
  function DecodeOne(b: Bytes): (r: Option<(CodePoint, nat)>)
    ensures r.Some? ==> 1 <= r.value.1 <= |b| && r.value.1 <= 4
  {
    if b == [] then None
    else if b[0] < 0x80 then Some((b[0], 1))
    else if 0xC2 <= b[0] < 0xE0 && |b| >= 2 && Trail(b[1]) then
      Some(((b[0] as int - 0xC0) * 0x40 + (b[1] as int - 0x80), 2))
    else if 0xE0 <= b[0] < 0xF0 && |b| >= 3 && Trail(b[1]) && Trail(b[2]) then
      var c := (b[0] as int - 0xE0) * 0x1000 + (b[1] as int - 0x80) * 0x40 + (b[2] as int - 0x80);
      if c < 0x800 || !Scalar(c) then None else Some((c, 3))
    else if 0xF0 <= b[0] < 0xF5 && |b| >= 4 && Trail(b[1]) && Trail(b[2]) && Trail(b[3]) then
      var c := (b[0] as int - 0xF0) * 0x4_0000 + (b[1] as int - 0x80) * 0x1000 + (b[2] as int - 0x80) * 0x40 + (b[3] as int - 0x80);
      if c < 0x1_0000 || c >= 0x11_0000 then None else Some((c, 4))
    else None
  }

  function Encode(s: Text): (r: Option<Bytes>) {
    if s == [] then Some([])
    else if !Scalar(s[0]) then None
    else match Encode(s[1..])
      case None => None
      case Some(rest) => Some(EncodeOne(s[0]) + rest)
  }

  function Decode(b: Bytes): (r: Option<Text>) {
    if b == [] then Some([])
    else match DecodeOne(b)
      case None => None
      case Some((c, n)) =>
        match Decode(b[n..])
        case None => None
        case Some(rest) => Some([c] + rest)
  }

  lemma SplitDigits(c: int)
    ensures c == c / 0x40 * 0x40 + c % 0x40 && c / 0x40 / 0x40 == c / 0x1000 && c / 0x1000 / 0x40 == c / 0x4_0000
  {
  }

  lemma Join(high: int, low: int)
    requires 0 <= low < 0x40
    ensures (high * 0x40 + low) / 0x40 == high && (high * 0x40 + low) % 0x40 == low
  {
  }

  lemma DecodesEncoded(c: CodePoint, rest: Bytes)
    requires Scalar(c)
    ensures DecodeOne(EncodeOne(c) + rest) == Some((c, |EncodeOne(c)|))
  {
    SplitDigits(c);
    SplitDigits(c / 0x40);
    SplitDigits(c / 0x1000);
  }

  // The value that lead bits and trailing bytes spell, and its digits to the base 64.
  lemma TwoDigits(high: int, b1: Byte, c: int)
    requires Trail(b1) && c == high * 0x40 + (b1 as int - 0x80)
    ensures c / 0x40 == high && 0x80 + c % 0x40 == b1
  {
    Join(high, b1 as int - 0x80);
  }

  lemma EncodesDecoded(b: Bytes)
    requires DecodeOne(b).Some?
    ensures var (c, n) := DecodeOne(b).value; Scalar(c) && EncodeOne(c) == b[..n]
  {
    var (c, n) := DecodeOne(b).value;
    SplitDigits(c);
    if n == 2 {
      TwoDigits(b[0] as int - 0xC0, b[1], c);
    } else if n == 3 {
      ThreeDigits(b[0] as int - 0xE0, b[1], b[2], c);
    } else if n == 4 {
      var high := (b[0] as int - 0xF0) * 0x40 + (b[1] as int - 0x80);
      ThreeDigits(high, b[2], b[3], c);
      TwoDigits(b[0] as int - 0xF0, b[1], high);
    }
  }

  lemma ThreeDigits(high: int, b1: Byte, b2: Byte, c: int)
    requires Trail(b1) && Trail(b2) && c == high * 0x1000 + (b1 as int - 0x80) * 0x40 + (b2 as int - 0x80)
    ensures c / 0x1000 == high && 0x80 + c / 0x40 % 0x40 == b1 && 0x80 + c % 0x40 == b2
    ensures c / 0x40 == high * 0x40 + (b1 as int - 0x80)
  {
    SplitDigits(c);
    TwoDigits(high * 0x40 + (b1 as int - 0x80), b2, c);
    TwoDigits(high, b1, c / 0x40);
  }

  lemma {:induction false} DecodeEncode(s: Text)
    ensures Encode(s).Some? ==> Decode(Encode(s).value) == Some(s)
  {
    if s != [] && Encode(s).Some? {
      DecodeEncode(s[1..]);
      var rest := Encode(s[1..]).value;
      DecodesEncoded(s[0], rest);
      var b := EncodeOne(s[0]) + rest;
      assert b[|EncodeOne(s[0])|..] == rest && b != [];
      assert Encode(s) == Some(b) && Decode(b) == Some([s[0]] + s[1..]);
      assert [s[0]] + s[1..] == s;
    }
  }

  lemma DecodeStep(b: Bytes)
    requires b != [] && Decode(b).Some?
    ensures DecodeOne(b).Some? && Decode(b[DecodeOne(b).value.1..]).Some?
    ensures Decode(b).value == [DecodeOne(b).value.0] + Decode(b[DecodeOne(b).value.1..]).value
  {
    hide DecodeOne;
  }

  lemma EncodeStep(c: CodePoint, rest: Text)
    requires Scalar(c) && Encode(rest).Some?
    ensures Encode([c] + rest) == Some(EncodeOne(c) + Encode(rest).value)
  {
    hide EncodeOne;
    assert ([c] + rest)[1..] == rest;
  }

  lemma {:induction false} EncodeDecode(b: Bytes)
    ensures Decode(b).Some? ==> Encode(Decode(b).value) == Some(b)
  {
    if b != [] && Decode(b).Some? {
      DecodeStep(b);
      hide *;
      var (c, n) := DecodeOne(b).value;
      EncodesDecoded(b);
      EncodeDecode(b[n..]);
      EncodeStep(c, Decode(b[n..]).value);
      assert b == b[..n] + b[n..];
    }
  }

  // Encoding and strict decoding are inverse to each other.
  lemma {:induction false} CodecsAgree(s: Text, b: Bytes)
    ensures Encode(s) == Some(b) <==> Decode(b) == Some(s)
  {
    DecodeEncode(s);
    EncodeDecode(b);
  }

  predicate Ascii(s: Text) {
    forall k :: 0 <= k < |s| ==> s[k] < 0x80
  }

  lemma {:induction false} AsciiIsItself(s: Text)
    requires Ascii(s)
    ensures Encode(s) == Some(s)
  {
    if s != [] {
      assert EncodeOne(s[0]) == [s[0]];
      hide EncodeOne;
      AsciiIsItself(s[1..]);
      assert s == [s[0]] + s[1..];
    }
  }
}
