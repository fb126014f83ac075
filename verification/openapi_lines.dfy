// The canonical string line by line, and the requests that have one, told in numbers.
module OpenApiLines {
  import opened Wrappers
  import opened Utf8
  import opened Percent
  import opened OpenApiCanonical
  import Query
  import JsonValues

  // "UVP-HMAC-SHA256/1"
  const SCHEME: Text := [0x55, 0x56, 0x50, 0x2D, 0x48, 0x4D, 0x41, 0x43, 0x2D, 0x53, 0x48, 0x41, 0x32, 0x35, 0x36, 0x2F, 0x31]

  // "uvp_", "GET", "POST", "application/json"
  const KEY_PREFIX: Text := [0x75, 0x76, 0x70, 0x5F]
  const GET: Text := [0x47, 0x45, 0x54]
  const POST: Text := [0x50, 0x4F, 0x53, 0x54]
  const JSON_TYPE: Text := [0x61, 0x70, 0x70, 0x6C, 0x69, 0x63, 0x61, 0x74, 0x69, 0x6F, 0x6E, 0x2F, 0x6A, 0x73, 0x6F, 0x6E]

  // The hexadecimal digits in lower case.
  const LOWER_DIGITS: Text := [0x30, 0x31, 0x32, 0x33, 0x34, 0x35, 0x36, 0x37, 0x38, 0x39, 0x61, 0x62, 0x63, 0x64, 0x65, 0x66]

  predicate UpperOf(t: Text, upper: Text) {
    |upper| == |t| && forall k :: 0 <= k < |t| ==> upper[k] == if 0x61 <= t[k] <= 0x7A then t[k] - 0x20 else t[k]
  }

  predicate LowerHexOf(bytes: Bytes, t: Text) {
    |t| == 2 * |bytes| &&
    forall k :: 0 <= k < |bytes| ==> t[2 * k] == LOWER_DIGITS[bytes[k] / 16] && t[2 * k + 1] == LOWER_DIGITS[bytes[k] % 16]
  }

  lemma LiteralsAre()
    ensures Literal("UVP-HMAC-SHA256/1") == SCHEME && Literal("uvp_") == KEY_PREFIX
    ensures Literal("GET") == GET && Literal("POST") == POST && Literal("application/json") == JSON_TYPE
  {
  }

  lemma UpperIs(t: Text)
    ensures UpperOf(t, Upper(t))
  {
  }

  lemma {:induction false} HexIs(bytes: Bytes)
    ensures LowerHexOf(bytes, Hex(bytes))
  {
    if bytes != [] {
      var n := |bytes| - 1;
      HexIs(bytes[..n]);
      var front := Hex(bytes[..n]);
      assert Hex(bytes) == front + [HexDigit(bytes[n] / 16), HexDigit(bytes[n] % 16)];
      forall k | 0 <= k < |bytes|
        ensures Hex(bytes)[2 * k] == LOWER_DIGITS[bytes[k] / 16] && Hex(bytes)[2 * k + 1] == LOWER_DIGITS[bytes[k] % 16]
      {
        if k < n {
          assert bytes[..n][k] == bytes[k];
        }
      }
    }
  }

  // The eleven lines of the canonical string in their order.
  lemma {:induction false} EachLine(r: Request, sha256: Bytes -> Bytes)
    requires CanonicalString(r, sha256).Some?
    ensures var lines := Query.Split(CanonicalString(r, sha256).value, 0x0A);
            && |lines| == 11 && lines[0] == SCHEME && lines[1] == r.accessKey && lines[2] == r.timestamp && lines[3] == r.nonce
            && UpperOf(r.verb, lines[4]) && lines[5] == r.path && Some(lines[6]) == Query.Canonical(r.rawQuery)
            && lines[7] == r.contentType && LowerHexOf(sha256(r.body), lines[8]) && lines[9] == r.idempotencyKey && lines[10] == r.audience
  {
    hide Acceptable, Query.Canonical, Query.Split, Query.Join, Hex, Upper, Literal, UpperOf, LowerHexOf;
    AcceptableMeans(r);
    SplitsIntoElevenLines(r, sha256);
    LiteralsAre();
    UpperIs(r.verb);
    HexIs(sha256(r.body));
  }

  // ---- acceptance ----

  predicate IsHex(t: Text, length: nat) {
    |t| == length && forall k :: 0 <= k < |t| ==> 0x30 <= t[k] <= 0x39 || 0x61 <= t[k] <= 0x66
  }

  // The value of decimal digits.
  function DecimalValue(t: Text): int {
    if t == [] then 0 else DecimalValue(t[..|t| - 1]) * 10 + (t[|t| - 1] - 0x30 as int)
  }

  predicate GoodVerb(t: Text) {
    t != [] && forall k :: 0 <= k < |t| ==> 0x21 <= t[k] <= 0x7E
  }

  predicate GoodTime(t: Text) {
    && t != [] && (forall k :: 0 <= k < |t| ==> 0x30 <= t[k] <= 0x39) && (t[0] == 0x30 ==> |t| == 1)
    && DecimalValue(t) <= 9223372036854775807
  }

  predicate GoodAudience(t: Text) {
    && t != [] && (forall k :: 0 <= k < |t| ==> !(0xD800 <= t[k] < 0xE000))
    && (forall k :: 0 <= k < |t| ==> t[k] != 0x00 && t[k] != 0x0A && t[k] != 0x0D && t[k] != 0x7F)
  }

  predicate GoodKey(t: Text) {
    |t| <= 128 && forall k :: 0 <= k < |t| ==> 0x21 <= t[k] <= 0x7E
  }

  // A path starts with a slash, has no empty, dot or double-dot segment, and holds neither a control, a blank, a
  // percent sign nor a backslash.
  predicate GoodPath(t: Text) {
    && t != [] && t[0] == 0x2F && (forall k :: 0 <= k < |t| ==> 0x21 <= t[k] <= 0x7E && t[k] != 0x25 && t[k] != 0x5C)
    && (forall k :: 0 < k < |t| ==> !(t[k] == 0x2F && t[k - 1] == 0x2F)) && (|t| > 1 ==> t[|t| - 1] != 0x2F)
    && (forall part :: part in Query.Split(t, 0x2F) ==> part != [0x2E] && part != [0x2E, 0x2E])
  }

  lemma {:induction false} DecimalIs(t: Text)
    ensures Decimal(t) == DecimalValue(t)
  {
    if t != [] {
      DecimalIs(t[..|t| - 1]);
    }
  }

  lemma {:induction false} EncodableIs(t: Text)
    ensures Encode(t).Some? <==> forall k :: 0 <= k < |t| ==> !(0xD800 <= t[k] < 0xE000)
    decreases |t|
  {
    if t != [] {
      EncodableIs(t[1..]);
      assert t == [t[0]] + t[1..];
      if Encode(t).Some? {
        forall k | 0 <= k < |t| ensures !(0xD800 <= t[k] < 0xE000) {
          assert k > 0 ==> t[k] == t[1..][k - 1];
        }
      }
    }
  }

  lemma FieldsAre(t: Text)
    ensures ValidMethod(t) <==> GoodVerb(t)
    ensures ValidTimestamp(t) <==> GoodTime(t)
    ensures ValidLineField(t) <==> GoodAudience(t)
    ensures ValidIdempotencyKey(t) <==> GoodKey(t)
    ensures LowerHex(t, 16) <==> IsHex(t, 32)
  {
    DecimalIs(t);
    EncodableIs(t);
    hide Decimal, DecimalValue, Encode;
  }

  lemma PathIs(t: Text)
    ensures ValidPath(t) <==> GoodPath(t)
  {
    hide Query.Split;
  }

  lemma KeyIs(t: Text)
    ensures ValidAccessKey(t) <==> |t| == 36 && t[..4] == KEY_PREFIX && IsHex(t[4..], 32)
  {
    LiteralsAre();
    hide Literal;
    if |t| == 36 {
      FieldsAre(t[4..]);
    }
    hide LowerHex, IsHex;
  }

  // A request has a canonical string exactly under these conditions.
  lemma {:induction false} AcceptsExactly(r: Request, sha256: Bytes -> Bytes)
    ensures CanonicalString(r, sha256).Some? <==>
              && GoodVerb(r.verb) && |r.accessKey| == 36 && r.accessKey[..4] == KEY_PREFIX && IsHex(r.accessKey[4..], 32)
              && GoodTime(r.timestamp) && IsHex(r.nonce, 32) && GoodAudience(r.audience) && GoodKey(r.idempotencyKey)
              && GoodPath(r.path) && |r.body| <= 65536 && Query.Canonical(r.rawQuery).Some?
              && (UpperOf(r.verb, GET) ==> r.contentType == [] && r.body == [])
              && (UpperOf(r.verb, POST) ==> r.contentType == JSON_TYPE)
              && (r.contentType == [] || r.contentType == JSON_TYPE)
              && (r.contentType == JSON_TYPE && r.body != [] ==>
                    Decode(r.body).Some? && JsonValues.Parse(Decode(r.body).value).Some?)
  {
    FieldsAre(r.verb);
    FieldsAre(r.timestamp);
    FieldsAre(r.nonce);
    FieldsAre(r.audience);
    FieldsAre(r.idempotencyKey);
    PathIs(r.path);
    KeyIs(r.accessKey);
    LiteralsAre();
    UpperTells(r.verb, GET);
    UpperTells(r.verb, POST);
    hide ValidMethod, ValidTimestamp, ValidLineField, ValidIdempotencyKey, LowerHex, ValidPath, ValidAccessKey, Literal, Upper, UpperOf;
    hide GoodVerb, GoodTime, GoodAudience, GoodKey, GoodPath, IsHex, Query.Canonical, Query.Join, JsonValues.Parse, Decode;
    assert GET != POST && JSON_TYPE != [];
  }

  lemma UpperTells(t: Text, upper: Text)
    ensures UpperOf(t, upper) <==> Upper(t) == upper
  {
  }
}
