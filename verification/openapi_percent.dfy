// Percent coding of query components, section 2 of RFC 3986.
module Percent {
  import opened Wrappers
  import opened Utf8

  const PERCENT: Byte := '%' as int

  predicate Digit(b: int) {
    '0' as int <= b <= '9' as int
  }

  predicate Unreserved(b: Byte) {
    'a' as int <= b <= 'z' as int || 'A' as int <= b <= 'Z' as int || Digit(b)
    || b == '-' as int || b == '.' as int || b == '_' as int || b == '~' as int
  }

  // -1 for a byte that is no hexadecimal digit.
  function FromHex(b: int): (r: int)
    ensures -1 <= r < 16
  {
    if Digit(b) then b - '0' as int
    else if 'a' as int <= b <= 'f' as int then b - 'a' as int + 10
    else if 'A' as int <= b <= 'F' as int then b - 'A' as int + 10
    else -1
  }

  function UpperHex(n: int): (b: Byte)
    requires 0 <= n < 16
    ensures FromHex(b) == n && Unreserved(b)
  {
    if n < 10 then '0' as int + n else 'A' as int + n - 10
  }

  function EncodeByte(b: Byte): Bytes {
    if Unreserved(b) then [b] else [PERCENT, UpperHex(b / 16), UpperHex(b % 16)]
  }

  function EncodeBytes(bytes: Bytes): Bytes {
    if bytes == [] then [] else EncodeBytes(bytes[..|bytes| - 1]) + EncodeByte(bytes[|bytes| - 1])
  }

  // The byte that `source` starts with, and how many bytes spell it.
  function Head(source: Bytes): (r: Option<(Byte, nat)>)
    requires source != []
    ensures r.Some? ==> 1 <= r.value.1 <= |source|
  {
    if source[0] != PERCENT then Some((source[0], 1))
    else if |source| < 3 || FromHex(source[1]) < 0 || FromHex(source[2]) < 0 then None
    else Some((FromHex(source[1]) * 16 + FromHex(source[2]), 3))
  }

  function Prepend(done: Bytes, rest: Option<Bytes>): Option<Bytes> {
    if rest.Some? then Some(done + rest.value) else None
  }

  function DecodeBytes(source: Bytes): Option<Bytes> {
    if source == [] then Some([])
    else
      var head := Head(source);
      if head.None? then None else Prepend([head.value.0], DecodeBytes(source[head.value.1..]))
  }

  function DecodeQueryComponent(raw: Text): Option<Text> {
    match Encode(raw)
    case None => None
    case Some(source) =>
      match DecodeBytes(source)
      case None => None
      case Some(bytes) => Decode(bytes)
  }

  function EncodeRfc3986(value: Text): Option<Text> {
    match Encode(value)
    case None => None
    case Some(bytes) => Some(EncodeBytes(bytes))
  }

  lemma PrependTwice(done: Bytes, tail: Bytes)
    requires tail != []
    ensures Head(tail).None? ==> Prepend(done, DecodeBytes(tail)).None?
    ensures Head(tail).Some? ==>
              Prepend(done, DecodeBytes(tail)) == Prepend(done + [Head(tail).value.0], DecodeBytes(tail[Head(tail).value.1..]))
  {
    if Head(tail).Some? {
      var rest := DecodeBytes(tail[Head(tail).value.1..]);
      if rest.Some? {
        assert done + ([Head(tail).value.0] + rest.value) == done + [Head(tail).value.0] + rest.value;
      }
    }
  }

  lemma PrependEnds(done: Bytes)
    ensures Prepend(done, DecodeBytes([])) == Some(done) && Prepend([], DecodeBytes(done)) == DecodeBytes(done)
  {
    assert done + [] == done;
    assert DecodeBytes(done).Some? ==> [] + DecodeBytes(done).value == DecodeBytes(done).value;
  }

  // ---- the code: a buffer filled from an index that skips over escapes ----

  method DecodeComponent(raw: Text) returns (r: Option<Text>)
    ensures r == DecodeQueryComponent(raw)
  {
    var utf8 := Encode(raw);
    if utf8.None? {
      return None;
    }
    var source := utf8.value;
    var decoded := new Byte[|source|];
    var size, i := 0, 0;
    PrependEnds(source);
    assert decoded[..0] == [] && source[0..] == source;
    hide DecodeBytes, Prepend, Encode, Decode;
    while i < |source|
      invariant 0 <= size <= i <= |source|
      invariant DecodeBytes(source) == Prepend(decoded[..size], DecodeBytes(source[i..]))
    {
      ghost var done, tail := decoded[..size], source[i..];
      PrependTwice(done, tail);
      if source[i] != PERCENT {
        decoded[size] := source[i];
      } else {
        if i + 2 >= |source| {
          return None;
        }
        var high, low := FromHex(source[i + 1]), FromHex(source[i + 2]);
        if high < 0 || low < 0 {
          return None;
        }
        decoded[size] := high * 16 + low;
        i := i + 2;
      }
      size := size + 1;
      i := i + 1;
      assert decoded[..size] == done + [Head(tail).value.0] && source[i..] == tail[Head(tail).value.1..];
    }
    assert source[i..] == [];
    PrependEnds(decoded[..size]);
    r := Decode(decoded[..size]);
  }

  method EncodeComponent(value: Text) returns (r: Option<Text>)
    ensures r == EncodeRfc3986(value)
  {
    var utf8 := Encode(value);
    if utf8.None? {
      return None;
    }
    var bytes := utf8.value;
    var result: Bytes := [];
    for i := 0 to |bytes|
      invariant result == EncodeBytes(bytes[..i])
    {
      var c := bytes[i];
      if Unreserved(c) {
        result := result + [c];
      } else {
        result := result + [PERCENT, UpperHex(c / 16), UpperHex(c % 16)];
      }
      assert bytes[..i + 1][..i] == bytes[..i];
    }
    assert bytes[..|bytes|] == bytes;
    r := Some(result);
  }

  // ---- round trip ----

  lemma {:induction false} DecodeJoins(a: Bytes, b: Bytes)
    requires DecodeBytes(a).Some?
    ensures DecodeBytes(a + b) == Prepend(DecodeBytes(a).value, DecodeBytes(b))
  {
    if a == [] {
      assert a + b == b;
      assert DecodeBytes(b).Some? ==> [] + DecodeBytes(b).value == DecodeBytes(b).value;
    } else {
      var (byte, n) := Head(a).value;
      assert Head(a + b) == Head(a);
      hide Head;
      DecodeJoins(a[n..], b);
      assert (a + b)[n..] == a[n..] + b;
      var rest := DecodeBytes(a[n..]).value;
      assert DecodeBytes(b).Some? ==> [byte] + (rest + DecodeBytes(b).value) == [byte] + rest + DecodeBytes(b).value;
    }
  }

  lemma DecodeEncodeByte(b: Byte)
    ensures DecodeBytes(EncodeByte(b)) == Some([b])
  {
    var code := EncodeByte(b);
    assert b == b / 16 * 16 + b % 16;
    assert Head(code) == Some((b, |code|));
    assert code[|code|..] == [] && DecodeBytes([]) == Some([]);
    assert [b] + [] == [b];
  }

  lemma {:induction false} DecodeEncodeBytes(bytes: Bytes)
    ensures DecodeBytes(EncodeBytes(bytes)) == Some(bytes)
  {
    if bytes != [] {
      var n := |bytes| - 1;
      DecodeEncodeBytes(bytes[..n]);
      var last := EncodeByte(bytes[n]);
      DecodeEncodeByte(bytes[n]);
      DecodeJoins(EncodeBytes(bytes[..n]), last);
      assert bytes == bytes[..n] + [bytes[n]];
    }
  }

  // What encoded text is made of.
  predicate Plain(b: int) {
    0 <= b < 0x80 && (b == PERCENT || Unreserved(b))
  }

  lemma {:induction false} EncodedIsPlain(bytes: Bytes)
    ensures forall k :: 0 <= k < |EncodeBytes(bytes)| ==> Plain(EncodeBytes(bytes)[k])
    ensures |bytes| <= |EncodeBytes(bytes)| && (bytes != [] ==> EncodeBytes(bytes) != [])
  {
    if bytes != [] {
      EncodedIsPlain(bytes[..|bytes| - 1]);
    }
  }

  // Decoding inverts encoding on every string that has a UTF-8 form.
  lemma {:induction false} DecodeEncodeComponent(value: Text)
    requires Encode(value).Some?
    ensures EncodeRfc3986(value).Some? && DecodeQueryComponent(EncodeRfc3986(value).value) == Some(value)
  {
    var bytes := Encode(value).value;
    EncodedIsPlain(bytes);
    AsciiIsItself(EncodeBytes(bytes));
    DecodeEncodeBytes(bytes);
    DecodeEncode(value);
  }

  lemma {:induction false} DecodedIsEncodable(raw: Text)
    requires DecodeQueryComponent(raw).Some?
    ensures EncodeRfc3986(DecodeQueryComponent(raw).value).Some?
  {
    EncodeDecode(DecodeBytes(Encode(raw).value).value);
  }
}
