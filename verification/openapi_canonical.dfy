// The eleven-line canonical string of a signed request.
module OpenApiCanonical {
  import opened Wrappers
  import opened Utf8
  import opened Percent
  import Query
  import JsonValues

  const MAX_BODY_BYTES: nat := 65536
  const MAX_LONG: nat := 0x7FFF_FFFF_FFFF_FFFF
  const LF: CodePoint := 10
  const SLASH: CodePoint := '/' as int
  const DOT: CodePoint := '.' as int

  datatype Request = Request(verb: Text, path: Text, rawQuery: Text, contentType: Text, body: Bytes, accessKey: Text,
                             timestamp: Text, nonce: Text, idempotencyKey: Text, audience: Text)

  function Literal(s: string): Text {
    seq(|s|, k requires 0 <= k < |s| => if s[k] as int < 0x80 then s[k] as int else 0)
  }

  // ---- validators: what each loop accepts ----

  predicate MethodChar(c: CodePoint) {
    0x20 < c < 0x7F
  }

  predicate ValidMethod(t: Text) {
    t != [] && forall k :: 0 <= k < |t| ==> MethodChar(t[k])
  }

  function UpperChar(c: CodePoint): CodePoint {
    if 'a' as int <= c <= 'z' as int then c - 0x20 else c
  }

  function Upper(t: Text): Text {
    seq(|t|, k requires 0 <= k < |t| => UpperChar(t[k]))
  }

  predicate LowerHexDigit(c: CodePoint) {
    Digit(c) || 'a' as int <= c <= 'f' as int
  }

  predicate LowerHex(t: Text, bytes: nat) {
    |t| == 2 * bytes && forall k :: 0 <= k < |t| ==> LowerHexDigit(t[k])
  }

  predicate ValidAccessKey(t: Text) {
    |t| == 36 && t[..4] == Literal("uvp_") && LowerHex(t[4..], 16)
  }

  function Decimal(t: Text): int {
    if t == [] then 0 else Decimal(t[..|t| - 1]) * 10 + (t[|t| - 1] - '0' as int)
  }

  predicate ValidTimestamp(t: Text) {
    && t != [] && (|t| > 1 ==> t[0] != '0' as int)
    && (forall k :: 0 <= k < |t| ==> Digit(t[k]))
    && Decimal(t) <= MAX_LONG
  }

  predicate LineChar(c: CodePoint) {
    c != 13 && c != LF && c != 0 && c != 0x7F
  }

  predicate ValidLineField(t: Text) {
    t != [] && Encode(t).Some? && forall k :: 0 <= k < |t| ==> LineChar(t[k])
  }

  predicate KeyChar(c: CodePoint) {
    0x21 <= c <= 0x7E
  }

  predicate ValidIdempotencyKey(t: Text) {
    |t| <= 128 && forall k :: 0 <= k < |t| ==> KeyChar(t[k])
  }

  predicate PathChar(c: CodePoint) {
    0x20 < c < 0x7F && c != PERCENT && c != '\\' as int
  }

  predicate ValidPath(t: Text) {
    && t != [] && t[0] == SLASH
    && (forall k :: 0 <= k < |t| ==> PathChar(t[k]))
    && (forall k :: 0 < k < |t| ==> !(t[k] == SLASH && t[k - 1] == SLASH))
    && (|t| > 1 ==> t[|t| - 1] != SLASH)
    && (forall part :: part in Query.Split(t, SLASH) ==> part != [DOT] && part != [DOT, DOT])
  }

  // ---- the canonical string ----

  function HexDigit(n: int): CodePoint
    requires 0 <= n < 16
  {
    if n < 10 then '0' as int + n else 'a' as int + n - 10
  }

  function Hex(bytes: Bytes): Text {
    if bytes == [] then []
    else Hex(bytes[..|bytes| - 1]) + [HexDigit(bytes[|bytes| - 1] / 16), HexDigit(bytes[|bytes| - 1] % 16)]
  }

  predicate ValidContent(verb: Text, contentType: Text, body: Bytes) {
    if verb == Literal("GET") then contentType == [] && body == []
    else if verb == Literal("POST") then contentType == Literal("application/json")
    else contentType == [] || contentType == Literal("application/json")
  }

  predicate ValidBody(contentType: Text, body: Bytes) {
    contentType == Literal("application/json") && body != [] ==>
      Decode(body).Some? && JsonValues.Parse(Decode(body).value).Some?
  }

  predicate Acceptable(r: Request) {
    && ValidMethod(r.verb) && ValidAccessKey(r.accessKey) && ValidTimestamp(r.timestamp) && LowerHex(r.nonce, 16)
    && ValidLineField(r.audience) && ValidIdempotencyKey(r.idempotencyKey) && ValidPath(r.path)
    && |r.body| <= MAX_BODY_BYTES && Query.Canonical(r.rawQuery).Some?
    && ValidContent(Upper(r.verb), r.contentType, r.body) && ValidBody(r.contentType, r.body)
  }

  function Lines(r: Request, sha256: Bytes -> Bytes): (lines: seq<Text>)
    requires Query.Canonical(r.rawQuery).Some?
    ensures |lines| == 11
  {
    [Literal("UVP-HMAC-SHA256/1"), r.accessKey, r.timestamp, r.nonce, Upper(r.verb), r.path,
     Query.Canonical(r.rawQuery).value, r.contentType, Hex(sha256(r.body)), r.idempotencyKey, r.audience]
  }

  function CanonicalString(r: Request, sha256: Bytes -> Bytes): Option<Text> {
    if Acceptable(r) then Some(Query.Join(Lines(r, sha256), LF)) else None
  }

  // ---- no line holds a line feed ----

  predicate NoLf(t: Text) {
    LF !in t
  }

  lemma {:induction false} HexHasNoLf(bytes: Bytes)
    ensures NoLf(Hex(bytes)) && |Hex(bytes)| == 2 * |bytes|
  {
    if bytes != [] {
      HexHasNoLf(bytes[..|bytes| - 1]);
    }
  }

  lemma {:induction false} JoinHasNoLf(parts: seq<Text>, sep: CodePoint)
    requires sep != LF && forall k :: 0 <= k < |parts| ==> NoLf(parts[k])
    ensures NoLf(Query.Join(parts, sep))
  {
    if |parts| > 1 {
      JoinHasNoLf(parts[1..], sep);
    }
  }

  lemma QueryHasNoLf(raw: Text)
    requires Query.Canonical(raw).Some?
    ensures NoLf(Query.Canonical(raw).value)
  {
    var list := Query.SortedIsStable(raw);
    forall k | 0 <= k < |list| ensures NoLf(Query.Parts(list)[k]) {
      assert Query.Clean(list[k]);
      CleanHasNoLf(list[k]);
    }
    JoinHasNoLf(Query.Parts(list), Query.AMPERSAND);
    hide *;
    RenderIsJoin(list);
  }

  lemma CleanHasNoLf(p: Query.Pair)
    requires Query.Clean(p)
    ensures NoLf(Query.PartOf(p))
  {
  }

  lemma RenderIsJoin(list: seq<Query.Pair>)
    ensures Query.Render(list) == Query.Join(Query.Parts(list), Query.AMPERSAND)
  {
  }

  lemma TextsHaveNoLf(t: Text)
    ensures ValidMethod(t) ==> NoLf(Upper(t))
    ensures ValidTimestamp(t) ==> NoLf(t)
    ensures LowerHex(t, 16) ==> NoLf(t)
    ensures ValidLineField(t) ==> NoLf(t)
    ensures ValidIdempotencyKey(t) ==> NoLf(t)
    ensures ValidPath(t) ==> NoLf(t)
  {
    hide Encode, Decimal, Query.Split;
  }

  lemma ConstantsHaveNoLf()
    ensures NoLf(Literal("UVP-HMAC-SHA256/1")) && NoLf(Literal("application/json"))
  {
  }

  lemma LinesHaveNoLf(r: Request, sha256: Bytes -> Bytes)
    requires Acceptable(r)
    ensures forall k :: 0 <= k < 11 ==> NoLf(Lines(r, sha256)[k])
  {
    hide NoLf, Literal, ValidMethod, ValidTimestamp, LowerHex, ValidLineField, ValidIdempotencyKey, ValidPath, ValidAccessKey;
    hide Upper, Hex, ValidBody, Query.Canonical;
    ConstantsHaveNoLf();
    AccessKeyHasNoLf(r.accessKey);
    TextsHaveNoLf(r.timestamp);
    TextsHaveNoLf(r.nonce);
    TextsHaveNoLf(r.verb);
    TextsHaveNoLf(r.path);
    QueryHasNoLf(r.rawQuery);
    assert NoLf(r.contentType) by {
      EmptyHasNoLf();
    }
    HexHasNoLf(sha256(r.body));
    TextsHaveNoLf(r.idempotencyKey);
    TextsHaveNoLf(r.audience);
  }

  lemma EmptyHasNoLf()
    ensures NoLf([])
  {
  }

  lemma AccessKeyHasNoLf(t: Text)
    requires ValidAccessKey(t)
    ensures NoLf(t)
  {
    assert t == t[..4] + t[4..];
  }

  // The canonical string splits back into its eleven lines.
  lemma {:induction false} SplitsIntoElevenLines(r: Request, sha256: Bytes -> Bytes)
    requires Acceptable(r)
    ensures Query.Split(CanonicalString(r, sha256).value, LF) == Lines(r, sha256)
  {
    LinesHaveNoLf(r, sha256);
    Query.SplitJoin(Lines(r, sha256), LF);
  }

  // ---- what the signature binds ----

  // The signed content of a request: its query as the decoded key-to-value map.
  datatype Signed = Signed(accessKey: Text, timestamp: Text, nonce: Text, verb: Text, path: Text, query: map<Text, Text>,
                           contentType: Text, bodyHash: Bytes, idempotencyKey: Text, audience: Text)

  function SignedContent(r: Request, sha256: Bytes -> Bytes): Signed
    requires Query.Meaning(r.rawQuery).Some?
  {
    Signed(r.accessKey, r.timestamp, r.nonce, Upper(r.verb), r.path, Query.Meaning(r.rawQuery).value, r.contentType,
           sha256(r.body), r.idempotencyKey, r.audience)
  }

  lemma {:induction false} HexIsInjective(a: Bytes, b: Bytes)
    requires Hex(a) == Hex(b)
    ensures a == b
  {
    HexHasNoLf(a);
    HexHasNoLf(b);
    if a != [] {
      var n := |a| - 1;
      assert Hex(a)[..2 * n] == Hex(a[..n]) && Hex(b)[..2 * n] == Hex(b[..n]) by {
        HexHasNoLf(a[..n]);
        HexHasNoLf(b[..n]);
      }
      HexIsInjective(a[..n], b[..n]);
      assert Hex(a)[2 * n] == HexDigit(a[n] / 16) && Hex(a)[2 * n + 1] == HexDigit(a[n] % 16) by {
        HexHasNoLf(a[..n]);
      }
      assert Hex(b)[2 * n] == HexDigit(b[n] / 16) && Hex(b)[2 * n + 1] == HexDigit(b[n] % 16) by {
        HexHasNoLf(b[..n]);
      }
      assert a == a[..n] + [a[n]] && b == b[..n] + [b[n]];
    }
  }

  lemma AcceptableMeans(r: Request)
    ensures Acceptable(r) ==> Query.Canonical(r.rawQuery).Some? && Query.Meaning(r.rawQuery).Some?
  {
  }

  // Two accepted requests have the same canonical string exactly when they carry the same signed content.
  lemma {:induction false} CanonicalBindsContent(r1: Request, r2: Request, sha256: Bytes -> Bytes)
    requires CanonicalString(r1, sha256).Some? && CanonicalString(r2, sha256).Some?
    ensures Query.Meaning(r1.rawQuery).Some? && Query.Meaning(r2.rawQuery).Some?
    ensures CanonicalString(r1, sha256) == CanonicalString(r2, sha256) <==> SignedContent(r1, sha256) == SignedContent(r2, sha256)
  {
    hide Acceptable, Query.Canonical, Query.Meaning, Query.Join, Query.Split, Hex, Upper, Literal;
    AcceptableMeans(r1);
    AcceptableMeans(r2);
    Query.CanonicalIsComplete(r1.rawQuery, r2.rawQuery);
    if CanonicalString(r1, sha256) == CanonicalString(r2, sha256) {
      SplitsIntoElevenLines(r1, sha256);
      SplitsIntoElevenLines(r2, sha256);
      SameLines(r1, r2, sha256);
      HexIsInjective(sha256(r1.body), sha256(r2.body));
    }
  }

  lemma SameLines(r1: Request, r2: Request, sha256: Bytes -> Bytes)
    requires Query.Canonical(r1.rawQuery).Some? && Query.Canonical(r2.rawQuery).Some?
    requires Lines(r1, sha256) == Lines(r2, sha256)
    ensures r1.accessKey == r2.accessKey && r1.timestamp == r2.timestamp && r1.nonce == r2.nonce && Upper(r1.verb) == Upper(r2.verb)
    ensures r1.path == r2.path && Query.Canonical(r1.rawQuery) == Query.Canonical(r2.rawQuery) && r1.contentType == r2.contentType
    ensures Hex(sha256(r1.body)) == Hex(sha256(r2.body)) && r1.idempotencyKey == r2.idempotencyKey && r1.audience == r2.audience
  {
    hide Query.Canonical, Hex, Upper, Literal;
    var a, b := Lines(r1, sha256), Lines(r2, sha256);
    assert a[1] == b[1] && a[2] == b[2] && a[3] == b[3] && a[4] == b[4] && a[5] == b[5] && a[6] == b[6];
    assert a[7] == b[7] && a[8] == b[8] && a[9] == b[9] && a[10] == b[10];
  }
}
