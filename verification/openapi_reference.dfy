// The percent coding and the canonical query told in numbers, without the functions that compute them.
module OpenApiReference {
  import opened Wrappers
  import opened Utf8
  import opened Percent
  import Query

  // ---- percent coding, section 2 of RFC 3986 ----

  // The hexadecimal digits in upper case.
  const HEX_DIGITS: Bytes := [0x30, 0x31, 0x32, 0x33, 0x34, 0x35, 0x36, 0x37, 0x38, 0x39, 0x41, 0x42, 0x43, 0x44, 0x45, 0x46]

  // Letters, digits, hyphen, full stop, underscore and tilde stand for themselves.
  function ByteCode(b: Byte): Bytes {
    if 0x41 <= b <= 0x5A || 0x61 <= b <= 0x7A || 0x30 <= b <= 0x39 || b == 0x2D || b == 0x2E || b == 0x5F || b == 0x7E
    then [b] else [0x25, HEX_DIGITS[b / 16], HEX_DIGITS[b % 16]]
  }

  function CodeOf(bytes: Bytes): Bytes {
    if bytes == [] then [] else ByteCode(bytes[0]) + CodeOf(bytes[1..])
  }

  // The value of a hexadecimal digit of either case, or -1.
  function Nibble(c: int): int {
    if 0x30 <= c <= 0x39 then c - 0x30 else if 0x41 <= c <= 0x46 then c - 0x37 else if 0x61 <= c <= 0x66 then c - 0x57 else -1
  }

  // `t` spells the byte `b`: as itself, unless it is a percent sign, or as an escape.
  predicate Spelling(t: Bytes, b: Byte) {
    || (t == [b] && b != 0x25)
    || (|t| == 3 && t[0] == 0x25 && Nibble(t[1]) >= 0 && Nibble(t[2]) >= 0 && b == 16 * Nibble(t[1]) + Nibble(t[2]))
  }

  function Flat(ts: seq<Bytes>): Bytes {
    if ts == [] then [] else ts[0] + Flat(ts[1..])
  }

  predicate SpelledBy(source: Bytes, bytes: Bytes, ts: seq<Bytes>) {
    |ts| == |bytes| && Flat(ts) == source && forall k :: 0 <= k < |bytes| ==> Spelling(ts[k], bytes[k])
  }

  lemma ByteCodeIsCode(b: Byte)
    ensures EncodeByte(b) == ByteCode(b)
  {
  }

  lemma {:induction false} EncodeJoins(a: Bytes, b: Bytes)
    ensures EncodeBytes(a + b) == EncodeBytes(a) + EncodeBytes(b)
    decreases |b|
  {
    hide EncodeByte;
    if b == [] {
      assert a + b == a;
    } else {
      var n := |b| - 1;
      EncodeJoins(a, b[..n]);
      assert (a + b)[..|a| + n] == a + b[..n];
      assert EncodeBytes(a) + (EncodeBytes(b[..n]) + EncodeByte(b[n])) == EncodeBytes(a) + EncodeBytes(b[..n]) + EncodeByte(b[n]);
    }
  }

  // Encoding writes each byte as itself if it is unreserved, and as a percent sign with two upper-case digits if not.
  lemma {:induction false} EncodesExactly(bytes: Bytes)
    ensures EncodeBytes(bytes) == CodeOf(bytes)
    decreases |bytes|
  {
    if bytes != [] {
      EncodesExactly(bytes[1..]);
      EncodeJoins([bytes[0]], bytes[1..]);
      assert bytes == [bytes[0]] + bytes[1..];
      ByteCodeIsCode(bytes[0]);
      OneByte(bytes[0]);
      hide EncodeByte, ByteCode;
    }
  }

  lemma OneByte(b: Byte)
    ensures EncodeBytes([b]) == EncodeByte(b)
  {
    assert [b][..0] == [];
  }

  lemma HexIsNibble(c: int)
    ensures FromHex(c) == Nibble(c)
  {
  }

  lemma HeadSpells(source: Bytes)
    requires source != [] && Head(source).Some?
    ensures var (b, n) := Head(source).value; Spelling(source[..n], b)
  {
    if source[0] == PERCENT {
      HexIsNibble(source[1]);
      HexIsNibble(source[2]);
      hide Nibble, FromHex;
      assert source[..3][1] == source[1] && source[..3][2] == source[2];
    }
  }

  lemma SpellingIsHead(t: Bytes, b: Byte, rest: Bytes)
    requires Spelling(t, b)
    ensures t + rest != [] && Head(t + rest) == Some((b, |t|)) && (t + rest)[|t|..] == rest
  {
    if |t| == 3 {
      HexIsNibble(t[1]);
      HexIsNibble(t[2]);
      hide Nibble, FromHex;
    }
  }

  lemma {:induction false} DecodedIsSpelled(source: Bytes) returns (ts: seq<Bytes>)
    requires DecodeBytes(source).Some?
    ensures SpelledBy(source, DecodeBytes(source).value, ts)
    decreases |source|
  {
    if source == [] {
      ts := [];
    } else {
      HeadSpells(source);
      hide Head, Spelling, SpelledBy;
      var (b, n) := Head(source).value;
      var rest := DecodedIsSpelled(source[n..]);
      SpelledFurther(source[..n], b, source[n..], DecodeBytes(source[n..]).value, rest);
      ts := [source[..n]] + rest;
      assert source == source[..n] + source[n..];
    }
  }

  lemma SpelledFurther(t: Bytes, b: Byte, source: Bytes, bytes: Bytes, ts: seq<Bytes>)
    requires Spelling(t, b) && SpelledBy(source, bytes, ts)
    ensures SpelledBy(t + source, [b] + bytes, [t] + ts)
  {
    hide Spelling;
    assert ([t] + ts)[1..] == ts;
  }

  lemma {:induction false} SpelledIsDecoded(source: Bytes, bytes: Bytes, ts: seq<Bytes>)
    requires SpelledBy(source, bytes, ts)
    ensures DecodeBytes(source) == Some(bytes)
    decreases |ts|
  {
    if ts != [] {
      SpellingIsHead(ts[0], bytes[0], Flat(ts[1..]));
      hide Head, Spelling;
      assert SpelledBy(Flat(ts[1..]), bytes[1..], ts[1..]);
      SpelledIsDecoded(Flat(ts[1..]), bytes[1..], ts[1..]);
      assert bytes == [bytes[0]] + bytes[1..];
    }
  }

  // Decoding gives these bytes if and only if the source spells them one by one, with digits of either case.
  lemma {:induction false} DecodesExactly(source: Bytes, bytes: Bytes)
    ensures DecodeBytes(source) == Some(bytes) <==> exists ts: seq<Bytes> :: SpelledBy(source, bytes, ts)
  {
    hide SpelledBy;
    if DecodeBytes(source) == Some(bytes) {
      var ts := DecodedIsSpelled(source);
    }
    if ts: seq<Bytes> :| SpelledBy(source, bytes, ts) {
      SpelledIsDecoded(source, bytes, ts);
    }
  }

  // ---- the query ----

  // `part` is key=value with the first equals sign, without semicolons and plus signs, and with a key.
  ghost predicate PartReads(part: Text, p: Query.Pair) {
    && 0x3B !in part && 0x2B !in part && p.key != []
    && exists rawKey, rawValue: Text :: Cut(part, rawKey, rawValue)
                                        && DecodeQueryComponent(rawKey) == Some(p.key) && DecodeQueryComponent(rawValue) == Some(p.value)
  }

  predicate Cut(part: Text, rawKey: Text, rawValue: Text) {
    part == rawKey + [0x3D] + rawValue && 0x3D !in rawKey
  }

  lemma CutIsFirst(part: Text, rawKey: Text, rawValue: Text)
    requires Cut(part, rawKey, rawValue)
    ensures Query.IndexOf(part, Query.EQUALS) == |rawKey| && part[..|rawKey|] == rawKey && part[|rawKey| + 1..] == rawValue
  {
    Query.IndexOfFirst(rawKey, rawValue, 0x3D);
  }

  lemma PartExactly(part: Text, p: Query.Pair)
    ensures Query.ReadPart(part) == Some(p) <==> PartReads(part, p)
  {
    hide DecodeQueryComponent, Query.IndexOf;
    if Query.ReadPart(part) == Some(p) {
      var at := Query.IndexOf(part, Query.EQUALS);
      assert part == part[..at] + [0x3D] + part[at + 1..];
      assert Cut(part, part[..at], part[at + 1..]);
    }
    if PartReads(part, p) {
      var rawKey, rawValue: Text :| Cut(part, rawKey, rawValue)
                                    && DecodeQueryComponent(rawKey) == Some(p.key) && DecodeQueryComponent(rawValue) == Some(p.value);
      CutIsFirst(part, rawKey, rawValue);
    }
  }

  // The parts of the query and what each of them reads as; keys are distinct.
  ghost predicate PartsRead(raw: Text, parts: seq<Text>, pairs: seq<Query.Pair>) {
    && parts != [] && raw == Query.Join(parts, 0x26) && (forall k :: 0 <= k < |parts| ==> 0x26 !in parts[k])
    && |pairs| == |parts| && (forall k :: 0 <= k < |parts| ==> PartReads(parts[k], pairs[k]))
    && (forall i, j :: 0 <= i < j < |pairs| ==> pairs[i].key != pairs[j].key)
  }

  // A query of at most 8192 bytes, empty or of parts between ampersands.
  ghost predicate QueryReads(raw: Text, pairs: seq<Query.Pair>) {
    && Encode(raw).Some? && |Encode(raw).value| <= 8192
    && (if raw == [] then pairs == [] else exists parts: seq<Text> :: PartsRead(raw, parts, pairs))
  }

  lemma JoinAfterEmpty(parts: seq<Text>, sep: CodePoint)
    requires parts != []
    ensures Query.Join([[]] + parts, sep) == [sep] + Query.Join(parts, sep)
  {
    assert ([[]] + parts)[1..] == parts;
    assert [] + [sep] == [sep];
  }

  lemma JoinLonger(c: CodePoint, parts: seq<Text>, sep: CodePoint)
    requires parts != []
    ensures Query.Join([[c] + parts[0]] + parts[1..], sep) == [c] + Query.Join(parts, sep)
  {
    assert ([[c] + parts[0]] + parts[1..])[1..] == parts[1..];
    if |parts| > 1 {
      var tail := Query.Join(parts[1..], sep);
      assert [c] + parts[0] + [sep] + tail == [c] + (parts[0] + [sep] + tail);
    }
  }

  lemma {:induction false} SplitIsJoined(t: Text, sep: CodePoint)
    ensures Query.Join(Query.Split(t, sep), sep) == t
    decreases |t|
  {
    if t != [] {
      var rest := Query.Split(t[1..], sep);
      SplitIsJoined(t[1..], sep);
      JoinAfterEmpty(rest, sep);
      JoinLonger(t[0], rest, sep);
      hide Query.Join;
      assert t == [t[0]] + t[1..];
    }
  }

  lemma {:induction false} PartsHaveNone(t: Text, sep: CodePoint)
    ensures forall k :: 0 <= k < |Query.Split(t, sep)| ==> sep !in Query.Split(t, sep)[k]
    decreases |t|
  {
    if t != [] {
      PartsHaveNone(t[1..], sep);
    }
  }

  lemma ReadIsPartsRead(raw: Text, pairs: seq<Query.Pair>)
    requires Query.ReadAll(Query.Split(raw, 0x26)) == Some(pairs)
    ensures PartsRead(raw, Query.Split(raw, 0x26), pairs)
  {
    var parts := Query.Split(raw, 0x26);
    SplitIsJoined(raw, 0x26);
    PartsHaveNone(raw, 0x26);
    Query.ReadIsUnique(parts);
    hide Query.ReadPart, PartReads, Query.ReadAll, Query.Split, Query.Join;
    forall k | 0 <= k < |parts| ensures PartReads(parts[k], pairs[k]) {
      PartExactly(parts[k], pairs[k]);
    }
  }

  lemma PartsReadIsRead(raw: Text, parts: seq<Text>, pairs: seq<Query.Pair>)
    requires PartsRead(raw, parts, pairs)
    ensures Query.ReadAll(Query.Split(raw, 0x26)) == Some(pairs)
  {
    hide Query.ReadPart, PartReads, Query.ReadAll, Query.Split, Query.Join;
    Query.SplitJoin(parts, 0x26);
    forall k | 0 <= k < |parts| ensures Query.ReadPart(parts[k]) == Some(pairs[k]) {
      PartExactly(parts[k], pairs[k]);
    }
    Query.ReadAllFrom(parts, pairs);
  }

  lemma {:induction false} ReadExactly(raw: Text, pairs: seq<Query.Pair>)
    ensures Query.Read(raw) == Some(pairs) <==> QueryReads(raw, pairs)
  {
    hide PartsRead, Query.ReadAll, Query.Split, Encode;
    if Query.Read(raw) == Some(pairs) && raw != [] {
      ReadIsPartsRead(raw, pairs);
    }
    if QueryReads(raw, pairs) && raw != [] {
      var parts: seq<Text> :| PartsRead(raw, parts, pairs);
      PartsReadIsRead(raw, parts, pairs);
    }
  }

  // ---- the canonical form ----

  // `a` comes before `b` code point by code point: at the first difference, or as a proper beginning.
  ghost predicate Before(a: Text, b: Text) {
    || (|a| < |b| && a == b[..|a|])
    || exists k :: 0 <= k < |a| && k < |b| && a[..k] == b[..k] && a[k] < b[k]
  }

  lemma {:induction false} LessIsBefore(a: Text, b: Text)
    requires Query.Less(a, b)
    ensures Before(a, b)
    decreases |a|
  {
    if a != [] && a[0] == b[0] {
      LessIsBefore(a[1..], b[1..]);
      assert a == [a[0]] + a[1..] && b == [b[0]] + b[1..];
      if |a| < |b| && a[1..] == b[1..][..|a| - 1] {
        assert b[..|a|] == [b[0]] + b[1..][..|a| - 1];
      } else {
        var k :| 0 <= k < |a[1..]| && k < |b[1..]| && a[1..][..k] == b[1..][..k] && a[1..][k] < b[1..][k];
        assert a[..k + 1] == [a[0]] + a[1..][..k] && b[..k + 1] == [b[0]] + b[1..][..k];
        assert a[k + 1] < b[k + 1];
      }
    } else if a != [] {
      assert a[..0] == b[..0];
    }
  }

  // The code of a text: its UTF-8 bytes, percent-coded.
  ghost predicate CodedAs(value: Text, code: Text) {
    Encode(value).Some? && code == CodeOf(Encode(value).value)
  }

  // `list` holds the coded pairs in ascending order of their keys, each once.
  ghost predicate Lists(list: seq<Query.Pair>, pairs: seq<Query.Pair>) {
    && |list| == |pairs| && (forall i, j :: 0 <= i < j < |list| ==> Before(list[i].key, list[j].key))
    && (forall k :: 0 <= k < |pairs| ==>
          exists j :: 0 <= j < |list| && PairCodedAs(pairs[k], list[j]))
  }

  ghost predicate PairCodedAs(p: Query.Pair, q: Query.Pair) {
    CodedAs(p.key, q.key) && CodedAs(p.value, q.value)
  }

  function KeyValue(p: Query.Pair): Text {
    p.key + [0x3D] + p.value
  }

  // key=value with ampersands between them.
  function Written(list: seq<Query.Pair>): Text {
    if list == [] then [] else if |list| == 1 then KeyValue(list[0]) else KeyValue(list[0]) + [0x26] + Written(list[1..])
  }

  lemma {:induction false} RenderIsWritten(list: seq<Query.Pair>)
    ensures Query.Render(list) == Written(list)
    decreases |list|
  {
    if |list| > 1 {
      RenderIsWritten(list[1..]);
      assert Query.Parts(list)[1..] == Query.Parts(list[1..]);
    }
  }

  lemma CodeIsCodedAs(value: Text)
    requires EncodeRfc3986(value).Some?
    ensures CodedAs(value, EncodeRfc3986(value).value)
  {
    EncodesExactly(Encode(value).value);
  }

  lemma CodedIsCodedAs(p: Query.Pair, q: Query.Pair)
    requires Query.Coded(p) == Some(q)
    ensures PairCodedAs(p, q)
  {
    hide EncodeRfc3986, CodedAs;
    assert q.key == EncodeRfc3986(p.key).value;
    assert q.value == EncodeRfc3986(p.value).value;
    CodeIsCodedAs(p.key);
    CodeIsCodedAs(p.value);
  }

  lemma SortedLists(pairs: seq<Query.Pair>, coded: seq<Query.Pair>, list: seq<Query.Pair>)
    requires |pairs| == |coded| == |list| && forall k :: 0 <= k < |coded| ==> Query.Coded(pairs[k]) == Some(coded[k])
    requires Query.Ascending(list) && Query.SameSet(list, coded)
    ensures Lists(list, pairs)
  {
    hide Query.Coded, PairCodedAs, Before, Query.Less;
    forall i, j | 0 <= i < j < |list| ensures Before(list[i].key, list[j].key) {
      LessIsBefore(list[i].key, list[j].key);
    }
    forall k | 0 <= k < |pairs| ensures exists j :: 0 <= j < |list| && PairCodedAs(pairs[k], list[j]) {
      CodedIsCodedAs(pairs[k], coded[k]);
      assert coded[k] in coded && coded[k] in list;
      var j :| 0 <= j < |list| && list[j] == coded[k];
      assert PairCodedAs(pairs[k], list[j]);
    }
    assert forall i, j :: 0 <= i < j < |list| ==> Before(list[i].key, list[j].key);
    assert forall k :: 0 <= k < |pairs| ==> exists j :: 0 <= j < |list| && PairCodedAs(pairs[k], list[j]);
  }

  // A query has a canonical form exactly if it reads as pairs with distinct keys; the form then writes their codes in
  // ascending order of the coded keys.
  lemma {:induction false} CanonicalExactly(raw: Text)
    ensures Query.Canonical(raw).Some? <==> exists pairs :: QueryReads(raw, pairs)
    ensures Query.Canonical(raw).Some? ==>
              exists pairs, list :: QueryReads(raw, pairs) && Lists(list, pairs) && Query.Canonical(raw) == Some(Written(list))
  {
    hide QueryReads, Lists, Written, Query.Read, Query.Canonical;
    if Query.Read(raw).Some? {
      var pairs := Query.Read(raw).value;
      ReadExactly(raw, pairs);
      var coded := Query.CodedGives(raw);
      var list := Query.Sort(coded);
      hide Query.Coded, Query.Sort, Query.Clean, Query.CodedAll, Query.Render;
      SortedLists(pairs, coded, list);
      RenderIsWritten(list);
    } else {
      NoneRead(raw);
      forall pairs ensures !QueryReads(raw, pairs) {
        ReadExactly(raw, pairs);
      }
    }
  }

  lemma NoneRead(raw: Text)
    requires Query.Read(raw).None?
    ensures Query.Canonical(raw).None?
  {
  }
}
