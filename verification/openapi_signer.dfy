// The signer's loops over request fields, each proved against what OpenApiCanonical says it accepts or builds.
module OpenApiSigner {
  import opened Wrappers
  import opened Utf8
  import opened Percent
  import opened OpenApiCanonical
  import opened OpenApiLines
  import Query
  import JsonParsing
  import JsonValues

  method NormalizeMethod(value: Text) returns (r: Option<Text>)
    ensures r == if ValidMethod(value) then Some(Upper(value)) else None
    ensures r.Some? <==> GoodVerb(value)
    ensures r.Some? ==> UpperOf(value, r.value)
  {
    if value == [] {
      return None;
    }
    for i := 0 to |value|
      invariant forall k :: 0 <= k < i ==> MethodChar(value[k])
    {
      var c := value[i];
      if !(c <= 0x7F && c > 0x20 && c != 0x7F) {
        return None;
      }
    }
    return Some(Upper(value));
  }

  method IsTimestamp(value: Text) returns (ok: bool)
    ensures ok == ValidTimestamp(value) == GoodTime(value)
  {
    FieldsAre(value);
    if value == [] || (|value| > 1 && value[0] == '0' as int) {
      return false;
    }
    for i := 0 to |value|
      invariant forall k :: 0 <= k < i ==> Digit(value[k])
    {
      if value[i] < '0' as int || value[i] > '9' as int {
        return false;
      }
    }
    return Decimal(value) <= MAX_LONG;
  }

  method IsLowerHex(value: Text, byteCount: nat) returns (ok: bool)
    ensures ok == LowerHex(value, byteCount) == IsHex(value, 2 * byteCount)
  {
    if |value| != byteCount * 2 {
      return false;
    }
    for i := 0 to |value|
      invariant forall k :: 0 <= k < i ==> LowerHexDigit(value[k])
    {
      if !LowerHexDigit(value[i]) {
        return false;
      }
    }
    return true;
  }

  method IsLineField(value: Text) returns (ok: bool)
    ensures ok == ValidLineField(value) == GoodAudience(value)
  {
    FieldsAre(value);
    if value == [] || Encode(value).None? {
      return false;
    }
    for i := 0 to |value|
      invariant forall k :: 0 <= k < i ==> LineChar(value[k])
    {
      var c := value[i];
      if c == 13 || c == 10 || c == 0 || c == 0x7F {
        return false;
      }
    }
    return true;
  }

  method IsIdempotencyKey(value: Text) returns (ok: bool)
    ensures ok == ValidIdempotencyKey(value) == GoodKey(value)
  {
    if value == [] {
      return true;
    }
    if |value| > 128 {
      return false;
    }
    for i := 0 to |value|
      invariant forall k :: 0 <= k < i ==> KeyChar(value[k])
    {
      if value[i] < 0x21 || value[i] > 0x7E {
        return false;
      }
    }
    return true;
  }

  method IsPath(path: Text) returns (ok: bool)
    ensures ok == ValidPath(path) == GoodPath(path)
  {
    if path == [] || path[0] != SLASH {
      return false;
    }
    for i := 0 to |path|
      invariant forall k :: 0 <= k < i ==> PathChar(path[k])
      invariant forall k :: 0 < k < i ==> !(path[k] == SLASH && path[k - 1] == SLASH)
    {
      var c := path[i];
      if c > 0x7F || c <= 0x20 || c == 0x7F || c == PERCENT || c == '\\' as int {
        return false;
      }
      if i > 0 && c == SLASH && path[i - 1] == SLASH {
        return false;
      }
    }
    if |path| > 1 && path[|path| - 1] == SLASH {
      return false;
    }
    var segments := Query.Split(path, SLASH);
    for i := 0 to |segments|
      invariant forall k :: 0 <= k < i ==> segments[k] != [DOT] && segments[k] != [DOT, DOT]
    {
      if segments[i] == [DOT] || segments[i] == [DOT, DOT] {
        assert segments[i] in segments;
        return false;
      }
    }
    return true;
  }

  method HexOf(bytes: Bytes) returns (r: Text)
    ensures r == Hex(bytes) && LowerHexOf(bytes, r)
  {
    HexIs(bytes);
    hide LowerHexOf;
    r := [];
    for i := 0 to |bytes|
      invariant r == Hex(bytes[..i])
    {
      assert bytes[..i + 1][..i] == bytes[..i];
      r := r + [HexDigit(bytes[i] / 16), HexDigit(bytes[i] % 16)];
    }
    assert bytes[..|bytes|] == bytes;
  }

  method JoinLines(values: seq<Text>) returns (result: Text)
    ensures result == Query.Join(values, LF)
  {
    result := [];
    for i := 0 to |values|
      invariant result == Query.Join(values[..i], LF)
    {
      assert values[..i + 1] == values[..i] + [values[i]];
      Query.JoinSnoc(values[..i], values[i], LF);
      if i > 0 {
        result := result + [LF];
      }
      result := result + values[i];
    }
    assert values[..|values|] == values;
  }

  method Accepts(body: Bytes) returns (ok: bool)
    ensures ok <==> Decode(body).Some? && JsonValues.Parse(Decode(body).value).Some?
  {
    var text := Decode(body);
    if text.None? {
      return false;
    }
    var parser := new JsonParsing.JsonParser(text.value);
    var value := parser.ParseDocument();
    return value.Some?;
  }

  method Canonical(input: Request, sha256: Bytes -> Bytes) returns (r: Option<Text>)
    ensures r == CanonicalString(input, sha256)
  {
    hide ValidMethod, ValidTimestamp, LowerHex, ValidLineField, ValidIdempotencyKey, ValidPath, Upper, Hex, Literal;
    hide Query.Canonical, Query.Join, JsonValues.Parse, Decode;
    var verb := NormalizeMethod(input.verb);
    if verb.None? || |input.accessKey| != 36 || input.accessKey[..4] != Literal("uvp_") {
      return None;
    }
    var accessKey := IsLowerHex(input.accessKey[4..], 16);
    var timestamp := IsTimestamp(input.timestamp);
    var nonce := IsLowerHex(input.nonce, 16);
    var audience := IsLineField(input.audience);
    var idempotencyKey := IsIdempotencyKey(input.idempotencyKey);
    var path := IsPath(input.path);
    if !accessKey || !timestamp || !nonce || !audience || !idempotencyKey || !path || |input.body| > MAX_BODY_BYTES {
      return None;
    }
    var query := Query.CanonicalQuery(input.rawQuery);
    if query.None? {
      return None;
    }
    if verb.value == Literal("GET") {
      if input.contentType != [] || input.body != [] {
        return None;
      }
    } else if verb.value == Literal("POST") {
      if input.contentType != Literal("application/json") {
        return None;
      }
    } else if input.contentType != [] && input.contentType != Literal("application/json") {
      return None;
    }
    if input.contentType == Literal("application/json") && |input.body| > 0 {
      var json := Accepts(input.body);
      if !json {
        return None;
      }
    }
    var bodyHash := HexOf(sha256(input.body));
    var result := JoinLines([Literal("UVP-HMAC-SHA256/1"), input.accessKey, input.timestamp, input.nonce, verb.value, input.path,
                             query.value, input.contentType, bodyHash, input.idempotencyKey, input.audience]);
    r := Some(result);
  }
}
