// The canonical query string of a signed request.
module Query {
  import opened Wrappers
  import opened Utf8
  import opened Percent

  const MAX_QUERY_BYTES: nat := 8192
  const AMPERSAND: CodePoint := '&' as int
  const EQUALS: CodePoint := '=' as int
  const SEMICOLON: CodePoint := ';' as int
  const PLUS: CodePoint := '+' as int

  datatype Pair = Pair(key: Text, value: Text)

  // ---- strings: splitting, searching, comparing ----

  function Split(t: Text, sep: CodePoint): (parts: seq<Text>)
    ensures |parts| >= 1
  {
    if t == [] then [[]]
    else
      var rest := Split(t[1..], sep);
      if t[0] == sep then [[]] + rest else [[t[0]] + rest[0]] + rest[1..]
  }

  function Join(parts: seq<Text>, sep: CodePoint): Text {
    if parts == [] then []
    else if |parts| == 1 then parts[0]
    else parts[0] + [sep] + Join(parts[1..], sep)
  }

  lemma {:induction false} SplitPrefix(a: Text, rest: Text, sep: CodePoint)
    requires sep !in a
    ensures Split(a, sep) == [a]
    ensures Split(a + [sep] + rest, sep) == [a] + Split(rest, sep)
  {
    var t := a + [sep] + rest;
    if a == [] {
      assert t[1..] == rest;
    } else {
      SplitPrefix(a[1..], rest, sep);
      assert t[1..] == a[1..] + [sep] + rest;
      assert [a[0]] + a[1..] == a;
    }
  }

  lemma {:induction false} SplitJoin(parts: seq<Text>, sep: CodePoint)
    requires parts != [] && forall k :: 0 <= k < |parts| ==> sep !in parts[k]
    ensures Split(Join(parts, sep), sep) == parts
  {
    if |parts| == 1 {
      SplitPrefix(parts[0], [], sep);
    } else {
      SplitJoin(parts[1..], sep);
      SplitPrefix(parts[0], Join(parts[1..], sep), sep);
      assert [parts[0]] + parts[1..] == parts;
    }
  }

  // The first position of `c`, or -1.
  function IndexOf(t: Text, c: CodePoint): (i: int)
    ensures -1 <= i < |t|
    ensures i == -1 <==> c !in t
    ensures i >= 0 ==> t[i] == c && c !in t[..i]
  {
    if t == [] then -1
    else if t[0] == c then 0
    else
      var i := IndexOf(t[1..], c);
      assert i >= 0 ==> t[..i + 1] == [t[0]] + t[1..][..i];
      if i < 0 then -1 else i + 1
  }

  predicate Less(a: Text, b: Text) {
    b != [] && (a == [] || a[0] < b[0] || (a[0] == b[0] && Less(a[1..], b[1..])))
  }

  lemma {:induction false} LessIsTotal(a: Text, b: Text)
    ensures Less(a, b) || a == b || Less(b, a)
    ensures !(Less(a, b) && Less(b, a)) && !Less(a, a)
  {
    if a != [] {
      LessIsTotal(a[1..], a[1..]);
      if b != [] {
        LessIsTotal(a[1..], b[1..]);
        assert a == [a[0]] + a[1..] && b == [b[0]] + b[1..];
      }
    }
  }

  lemma {:induction false} LessIsTransitive(a: Text, b: Text, c: Text)
    requires Less(a, b) && Less(b, c)
    ensures Less(a, c)
  {
    if a != [] && a[0] == b[0] == c[0] {
      LessIsTransitive(a[1..], b[1..], c[1..]);
    }
  }

  // ---- reading one query ----

  function Coded(p: Pair): Option<Pair> {
    var key, value := EncodeRfc3986(p.key), EncodeRfc3986(p.value);
    if key.Some? && value.Some? then Some(Pair(key.value, value.value)) else None
  }

  // The decoded key and value of one part.
  function ReadPart(part: Text): Option<Pair> {
    var at := IndexOf(part, EQUALS);
    if part == [] || SEMICOLON in part || at < 0 || PLUS in part then None
    else
      var key, value := DecodeQueryComponent(part[..at]), DecodeQueryComponent(part[at + 1..]);
      if key.None? || value.None? || key.value == [] then None else Some(Pair(key.value, value.value))
  }

  predicate HasKey(pairs: seq<Pair>, key: Text) {
    exists k :: 0 <= k < |pairs| && pairs[k].key == key
  }

  function ReadAll(parts: seq<Text>): Option<seq<Pair>> {
    if parts == [] then Some([])
    else
      var n := |parts| - 1;
      var before, last := ReadAll(parts[..n]), ReadPart(parts[n]);
      if before.None? || last.None? || HasKey(before.value, last.value.key) then None else Some(before.value + [last.value])
  }

  function Read(raw: Text): Option<seq<Pair>> {
    var bytes := Encode(raw);
    if bytes.None? || |bytes.value| > MAX_QUERY_BYTES then None
    else if raw == [] then Some([])
    else ReadAll(Split(raw, AMPERSAND))
  }

  // ---- writing it ----

  function CodedAll(pairs: seq<Pair>): Option<seq<Pair>> {
    if pairs == [] then Some([])
    else
      var n := |pairs| - 1;
      var before, last := CodedAll(pairs[..n]), Coded(pairs[n]);
      if before.None? || last.None? then None else Some(before.value + [last.value])
  }

  predicate PairLess(a: Pair, b: Pair) {
    Less(a.key, b.key) || (a.key == b.key && Less(a.value, b.value))
  }

  function Insert(pairs: seq<Pair>, p: Pair): seq<Pair> {
    if pairs == [] || PairLess(p, pairs[0]) then [p] + pairs else [pairs[0]] + Insert(pairs[1..], p)
  }

  // Collections.sort with the comparator of canonicalQuery.
  function Sort(pairs: seq<Pair>): seq<Pair> {
    if pairs == [] then [] else Insert(Sort(pairs[..|pairs| - 1]), pairs[|pairs| - 1])
  }

  function PartOf(p: Pair): Text {
    p.key + [EQUALS] + p.value
  }

  function Parts(pairs: seq<Pair>): (parts: seq<Text>)
    ensures |parts| == |pairs|
    ensures forall k :: 0 <= k < |pairs| ==> parts[k] == PartOf(pairs[k])
  {
    seq(|pairs|, k requires 0 <= k < |pairs| => PartOf(pairs[k]))
  }

  function Render(pairs: seq<Pair>): Text {
    Join(Parts(pairs), AMPERSAND)
  }

  function Canonical(raw: Text): Option<Text> {
    match Read(raw)
    case None => None
    case Some(pairs) =>
      match CodedAll(pairs)
      case None => None
      case Some(coded) => Some(Render(Sort(coded)))
  }

  // ---- what a query means ----

  function MapOf(pairs: seq<Pair>): map<Text, Text> {
    if pairs == [] then map[]
    else MapOf(pairs[..|pairs| - 1])[pairs[|pairs| - 1].key := pairs[|pairs| - 1].value]
  }

  function Meaning(raw: Text): Option<map<Text, Text>> {
    match Read(raw)
    case None => None
    case Some(pairs) => Some(MapOf(pairs))
  }

  predicate UniqueKeys(pairs: seq<Pair>) {
    forall i, j :: 0 <= i < j < |pairs| ==> pairs[i].key != pairs[j].key
  }

  lemma {:induction false} ReadIsUnique(parts: seq<Text>)
    ensures ReadAll(parts).Some? ==>
              var pairs := ReadAll(parts).value;
              |pairs| == |parts| && UniqueKeys(pairs) && forall k :: 0 <= k < |parts| ==> ReadPart(parts[k]) == Some(pairs[k])
  {
    hide ReadPart;
    if parts != [] {
      ReadIsUnique(parts[..|parts| - 1]);
    }
  }

  lemma {:induction false} MapOfHas(pairs: seq<Pair>, key: Text, value: Text)
    requires UniqueKeys(pairs)
    ensures key in MapOf(pairs) && MapOf(pairs)[key] == value <==> Pair(key, value) in pairs
  {
    if pairs != [] {
      var n := |pairs| - 1;
      MapOfHas(pairs[..n], key, value);
      assert pairs == pairs[..n] + [pairs[n]];
      if pairs[n].key == key {
        assert forall k :: 0 <= k < n ==> pairs[k].key != key;
      }
    }
  }

  ghost predicate SameSet(a: seq<Pair>, b: seq<Pair>) {
    forall p :: p in a <==> p in b
  }

  lemma {:induction false} SameMeaning(a: seq<Pair>, b: seq<Pair>)
    requires UniqueKeys(a) && UniqueKeys(b)
    ensures MapOf(a) == MapOf(b) <==> SameSet(a, b)
  {
    forall p: Pair
      ensures p in a <==> p.key in MapOf(a) && MapOf(a)[p.key] == p.value
      ensures p in b <==> p.key in MapOf(b) && MapOf(b)[p.key] == p.value
    {
      MapOfHas(a, p.key, p.value);
      MapOfHas(b, p.key, p.value);
    }
    if SameSet(a, b) {
      forall key: Text
        ensures key in MapOf(a) <==> key in MapOf(b)
        ensures key in MapOf(a) && key in MapOf(b) ==> MapOf(a)[key] == MapOf(b)[key]
      {
        if key in MapOf(a) {
          assert Pair(key, MapOf(a)[key]) in b;
        }
        if key in MapOf(b) {
          assert Pair(key, MapOf(b)[key]) in a;
        }
      }
    } else if MapOf(a) == MapOf(b) {
      assert forall p: Pair :: p in a <==> p in b;
    }
  }

  // ---- coding a pair loses nothing and leaves no separator ----

  predicate Encodable(p: Pair) {
    Encode(p.key).Some? && Encode(p.value).Some? && p.key != []
  }

  predicate Clean(p: Pair) {
    && p.key != []
    && (forall k :: 0 <= k < |p.key| ==> Plain(p.key[k]))
    && (forall k :: 0 <= k < |p.value| ==> Plain(p.value[k]))
  }

  lemma CodedIsFaithful(p: Pair)
    requires Encodable(p)
    ensures Coded(p).Some? && Clean(Coded(p).value)
    ensures DecodeQueryComponent(Coded(p).value.key) == Some(p.key)
    ensures DecodeQueryComponent(Coded(p).value.value) == Some(p.value)
  {
    DecodeEncodeComponent(p.key);
    DecodeEncodeComponent(p.value);
    EncodedIsPlain(Encode(p.key).value);
    EncodedIsPlain(Encode(p.value).value);
  }

  lemma ReadIsEncodable(part: Text)
    requires ReadPart(part).Some?
    ensures Encodable(ReadPart(part).value)
  {
    var at := IndexOf(part, EQUALS);
    DecodedIsEncodable(part[..at]);
    DecodedIsEncodable(part[at + 1..]);
  }

  lemma {:induction false} CodedAllIs(pairs: seq<Pair>)
    requires forall k :: 0 <= k < |pairs| ==> Encodable(pairs[k])
    ensures CodedAll(pairs).Some? && |CodedAll(pairs).value| == |pairs|
    ensures forall k :: 0 <= k < |pairs| ==> Coded(pairs[k]) == Some(CodedAll(pairs).value[k]) && Clean(CodedAll(pairs).value[k])
  {
    hide Encodable, Clean, Coded;
    if pairs != [] {
      CodedIsFaithful(pairs[|pairs| - 1]);
      CodedAllIs(pairs[..|pairs| - 1]);
    }
  }

  // ---- the sorted list depends on the set of pairs alone ----

  predicate Ascending(pairs: seq<Pair>) {
    forall i, j :: 0 <= i < j < |pairs| ==> Less(pairs[i].key, pairs[j].key)
  }

  lemma {:induction false} InsertSorts(pairs: seq<Pair>, p: Pair)
    requires Ascending(pairs) && !HasKey(pairs, p.key)
    ensures Ascending(Insert(pairs, p)) && SameSet(Insert(pairs, p), pairs + [p]) && |Insert(pairs, p)| == |pairs| + 1
  {
    if pairs != [] {
      LessIsTotal(p.key, pairs[0].key);
      assert !HasKey(pairs[1..], p.key);
      assert pairs == [pairs[0]] + pairs[1..];
      if PairLess(p, pairs[0]) {
        forall k | 1 <= k < |pairs| ensures Less(p.key, pairs[k].key) {
          LessIsTransitive(p.key, pairs[0].key, pairs[k].key);
        }
      } else {
        InsertSorts(pairs[1..], p);
        var rest := Insert(pairs[1..], p);
        forall k | 0 <= k < |rest| ensures Less(pairs[0].key, rest[k].key) {
          assert rest[k] in pairs[1..] + [p];
        }
      }
    }
  }

  lemma {:induction false} SortSorts(pairs: seq<Pair>)
    requires UniqueKeys(pairs)
    ensures Ascending(Sort(pairs)) && SameSet(Sort(pairs), pairs) && |Sort(pairs)| == |pairs|
  {
    if pairs != [] {
      var n := |pairs| - 1;
      SortSorts(pairs[..n]);
      var sorted := Sort(pairs[..n]);
      assert pairs == pairs[..n] + [pairs[n]];
      forall k | 0 <= k < |sorted| ensures sorted[k].key != pairs[n].key {
        assert sorted[k] in sorted && sorted[k] in pairs[..n];
      }
      InsertSorts(sorted, pairs[n]);
    }
  }

  lemma {:induction false} AscendingIsUnique(a: seq<Pair>, b: seq<Pair>)
    requires Ascending(a) && Ascending(b) && SameSet(a, b)
    ensures a == b
  {
    if b != [] {
      assert b[0] in a;
    }
    if a != [] {
      assert a[0] in b;
      assert b[0] in a;
      LessIsTotal(a[0].key, b[0].key);
      assert a[0] == b[0];
      assert a == [a[0]] + a[1..] && b == [b[0]] + b[1..];
      LessIsTotal(a[0].key, a[0].key);
      forall p: Pair ensures p in a[1..] <==> p in b[1..] {
        assert a[0] !in a[1..] && b[0] !in b[1..];
        assert p in a <==> p in b;
      }
      AscendingIsUnique(a[1..], b[1..]);
    }
  }

  // ---- rendering loses nothing ----

  lemma RenderSplits(pairs: seq<Pair>)
    requires pairs != [] && forall k :: 0 <= k < |pairs| ==> Clean(pairs[k])
    ensures Split(Render(pairs), AMPERSAND) == Parts(pairs)
  {
    SplitJoin(Parts(pairs), AMPERSAND);
  }

  lemma PartCuts(p: Pair)
    requires Clean(p)
    ensures IndexOf(PartOf(p), EQUALS) == |p.key|
    ensures PartOf(p)[..|p.key|] == p.key && PartOf(p)[|p.key| + 1..] == p.value
    ensures PLUS !in PartOf(p) && SEMICOLON !in PartOf(p)
  {
    hide IndexOf;
    IndexOfFirst(p.key, p.value, EQUALS);
  }

  lemma {:induction false} IndexOfFirst(a: Text, rest: Text, c: CodePoint)
    requires c !in a
    ensures IndexOf(a + [c] + rest, c) == |a|
  {
    if a != [] {
      IndexOfFirst(a[1..], rest, c);
      assert (a + [c] + rest)[1..] == a[1..] + [c] + rest;
    }
  }

  lemma RenderIsInjective(a: seq<Pair>, b: seq<Pair>)
    requires a != [] && b != [] && Render(a) == Render(b)
    requires forall k :: 0 <= k < |a| ==> Clean(a[k])
    requires forall k :: 0 <= k < |b| ==> Clean(b[k])
    ensures a == b
  {
    RenderSplits(a);
    RenderSplits(b);
    assert Parts(a) == Parts(b);
    forall k | 0 <= k < |a| ensures a[k] == b[k] {
      assert PartOf(a[k]) == Parts(a)[k] == Parts(b)[k] == PartOf(b[k]);
      PartCuts(a[k]);
      PartCuts(b[k]);
    }
  }

  // ---- the laws of the canonical query ----

  lemma {:induction false} ReadGives(raw: Text)
    requires Read(raw).Some?
    ensures UniqueKeys(Read(raw).value) && forall k :: 0 <= k < |Read(raw).value| ==> Encodable(Read(raw).value[k])
  {
    if raw != [] {
      var parts := Split(raw, AMPERSAND);
      ReadIsUnique(parts);
      forall k | 0 <= k < |parts| ensures Encodable(ReadAll(parts).value[k]) {
        ReadIsEncodable(parts[k]);
      }
    }
  }

  // What canonicalQuery sorts: one clean pair for each pair read, the keys still distinct.
  lemma {:induction false} CodedGives(raw: Text) returns (coded: seq<Pair>)
    requires Read(raw).Some?
    ensures CodedAll(Read(raw).value) == Some(coded) && |coded| == |Read(raw).value| && UniqueKeys(coded)
    ensures forall k :: 0 <= k < |coded| ==> Clean(coded[k]) && Coded(Read(raw).value[k]) == Some(coded[k])
    ensures Ascending(Sort(coded)) && SameSet(Sort(coded), coded) && |Sort(coded)| == |coded|
    ensures Canonical(raw) == Some(Render(Sort(coded)))
    ensures forall k :: 0 <= k < |Sort(coded)| ==> Clean(Sort(coded)[k])
  {
    var pairs := Read(raw).value;
    ReadGives(raw);
    CodedAllIs(pairs);
    coded := CodedAll(pairs).value;
    hide Read, Encodable, Coded, Clean;
    forall i, j | 0 <= i < j < |coded| ensures coded[i].key != coded[j].key {
      CodedIsFaithful(pairs[i]);
      CodedIsFaithful(pairs[j]);
    }
    SortSorts(coded);
    forall k | 0 <= k < |Sort(coded)| ensures Clean(Sort(coded)[k]) {
      assert Sort(coded)[k] in coded;
    }
  }

  lemma SameSetCoded(a: seq<Pair>, b: seq<Pair>, ca: seq<Pair>, cb: seq<Pair>)
    requires |a| == |ca| && |b| == |cb|
    requires forall k :: 0 <= k < |a| ==> Encodable(a[k]) && Coded(a[k]) == Some(ca[k])
    requires forall k :: 0 <= k < |b| ==> Encodable(b[k]) && Coded(b[k]) == Some(cb[k])
    ensures SameSet(a, b) <==> SameSet(ca, cb)
  {
    hide Encodable, Coded;
    if SameSet(a, b) {
      forall p: Pair ensures p in ca <==> p in cb {
        if p in ca {
          var k :| 0 <= k < |ca| && ca[k] == p;
          assert a[k] in b;
        }
        if p in cb {
          var k :| 0 <= k < |cb| && cb[k] == p;
          assert b[k] in a;
        }
      }
    }
    if SameSet(ca, cb) {
      forall p: Pair ensures p in a <==> p in b {
        if p in a {
          var k :| 0 <= k < |a| && a[k] == p;
          assert ca[k] in cb;
          var j :| 0 <= j < |cb| && cb[j] == ca[k];
          CodedIsFaithful(a[k]);
          CodedIsFaithful(b[j]);
        }
        if p in b {
          var k :| 0 <= k < |b| && b[k] == p;
          assert cb[k] in ca;
          var j :| 0 <= j < |ca| && ca[j] == cb[k];
          CodedIsFaithful(b[k]);
          CodedIsFaithful(a[j]);
        }
      }
    }
  }

  // Two accepted queries are signed alike exactly when they decode to the same key-to-value map.
  lemma {:induction false} CanonicalIsComplete(r1: Text, r2: Text)
    requires Meaning(r1).Some? && Meaning(r2).Some?
    ensures Canonical(r1).Some? && Canonical(r2).Some?
    ensures Canonical(r1) == Canonical(r2) <==> Meaning(r1) == Meaning(r2)
  {
    var p1, p2 := Read(r1).value, Read(r2).value;
    ReadGives(r1);
    ReadGives(r2);
    var c1 := CodedGives(r1);
    var c2 := CodedGives(r2);
    SameMeaning(p1, p2);
    SameSetCoded(p1, p2, c1, c2);
    var s1, s2 := Sort(c1), Sort(c2);
    hide Read, Canonical, Encodable, Coded, Clean, MapOf, Sort, CodedAll;
    if SameSet(c1, c2) {
      AscendingIsUnique(s1, s2);
    }
    if Render(s1) == Render(s2) {
      RenderOfNothing(s1);
      RenderOfNothing(s2);
      if s1 != [] && s2 != [] {
        RenderIsInjective(s1, s2);
      }
      assert SameSet(c1, c2);
    }
  }

  lemma RenderOfNothing(pairs: seq<Pair>)
    requires forall k :: 0 <= k < |pairs| ==> Clean(pairs[k])
    ensures Render(pairs) == [] <==> pairs == []
  {
    if pairs != [] {
      RenderSplits(pairs);
      assert Parts(pairs)[0] == PartOf(pairs[0]);
      assert Split([], AMPERSAND) == [[]];
    }
  }

  // ---- canonicalising twice ----

  // A pair that reading and coding its own spelling gives back.
  predicate Stable(q: Pair) {
    var p := ReadPart(PartOf(q));
    Clean(q) && p.Some? && Coded(p.value) == Some(q) && Encodable(p.value)
  }

  lemma CodedIsStable(p: Pair)
    requires Encodable(p)
    ensures Stable(Coded(p).value)
  {
    CodedIsFaithful(p);
    PartCuts(Coded(p).value);
    hide Encode, EncodeRfc3986, DecodeQueryComponent, IndexOf;
  }

  lemma {:induction false} ReadAllFrom(parts: seq<Text>, pairs: seq<Pair>)
    requires |parts| == |pairs| && UniqueKeys(pairs)
    requires forall k :: 0 <= k < |parts| ==> ReadPart(parts[k]) == Some(pairs[k])
    ensures ReadAll(parts) == Some(pairs)
  {
    hide ReadPart;
    if parts != [] {
      var n := |parts| - 1;
      ReadAllFrom(parts[..n], pairs[..n]);
      assert pairs == pairs[..n] + [pairs[n]];
    }
  }

  lemma {:induction false} CodedAllFrom(pairs: seq<Pair>, coded: seq<Pair>)
    requires |pairs| == |coded| && forall k :: 0 <= k < |pairs| ==> Coded(pairs[k]) == Some(coded[k])
    ensures CodedAll(pairs) == Some(coded)
  {
    hide Coded;
    if pairs != [] {
      var n := |pairs| - 1;
      CodedAllFrom(pairs[..n], coded[..n]);
      assert coded == coded[..n] + [coded[n]];
    }
  }

  function Reread(q: Pair): (p: Pair)
    requires Stable(q)
    ensures ReadPart(PartOf(q)) == Some(p) && Coded(p) == Some(q)
  {
    ReadPart(PartOf(q)).value
  }

  lemma RecodeAll(list: seq<Pair>)
    requires UniqueKeys(list) && forall k :: 0 <= k < |list| ==> Stable(list[k])
    ensures ReadAll(Parts(list)).Some? && CodedAll(ReadAll(Parts(list)).value) == Some(list)
  {
    hide *;
    var pairs := seq(|list|, k requires 0 <= k < |list| => Reread(list[k]));
    forall i, j | 0 <= i < j < |pairs| ensures pairs[i].key != pairs[j].key {
      UniqueAt(list, i, j);
      SameKeySameCode(pairs[i], pairs[j]);
    }
    UniqueFrom(pairs);
    ReadAllFrom(Parts(list), pairs);
    CodedAllFrom(pairs, list);
  }

  lemma UniqueAt(pairs: seq<Pair>, i: nat, j: nat)
    requires UniqueKeys(pairs) && i < j < |pairs|
    ensures pairs[i].key != pairs[j].key
  {
  }

  lemma UniqueFrom(pairs: seq<Pair>)
    requires forall i, j :: 0 <= i < j < |pairs| ==> pairs[i].key != pairs[j].key
    ensures UniqueKeys(pairs)
  {
  }

  lemma SameKeySameCode(a: Pair, b: Pair)
    requires Coded(a).Some? && Coded(b).Some?
    ensures a.key == b.key ==> Coded(a).value.key == Coded(b).value.key
  {
  }

  lemma {:induction false} JoinIsAscii(parts: seq<Text>)
    requires forall k :: 0 <= k < |parts| ==> Ascii(parts[k])
    ensures Ascii(Join(parts, AMPERSAND))
  {
    if |parts| > 1 {
      JoinIsAscii(parts[1..]);
    }
  }

  // The canonical form is its own canonical form, unless coding made it longer than a query may be.
  lemma SortedIsStable(raw: Text) returns (list: seq<Pair>)
    requires Canonical(raw).Some?
    ensures Canonical(raw) == Some(Render(list)) && Ascending(list) && UniqueKeys(list)
    ensures forall k :: 0 <= k < |list| ==> Stable(list[k]) && Clean(list[k])
  {
    ReadGives(raw);
    var pairs := Read(raw).value;
    var coded := CodedGives(raw);
    list := Sort(coded);
    hide Read, Canonical, Stable, Clean, Encodable, Coded;
    LessIsIrreflexive(list);
    forall k | 0 <= k < |list| ensures Stable(list[k]) {
      assert list[k] in coded;
      var j :| 0 <= j < |coded| && coded[j] == list[k];
      CodedIsStable(pairs[j]);
    }
  }

  // The canonical form is its own canonical form, unless coding made it longer than a query may be.
  lemma {:induction false} CanonicalTwice(raw: Text)
    requires Canonical(raw).Some?
    ensures var c := Canonical(raw).value;
            Canonical(c) == if |c| <= MAX_QUERY_BYTES then Some(c) else None
  {
    var list := SortedIsStable(raw);
    var c := Render(list);
    RenderIsAscii(list);
    RenderOfNothing(list);
    hide *;
    ReadOf(c);
    CanonicalOf(c);
    if list == [] {
      SortOfNothing();
    } else {
      RenderSplits(list);
      RecodeAll(list);
      SortSorts(list);
      AscendingIsUnique(Sort(list), list);
    }
  }

  lemma RenderIsAscii(list: seq<Pair>)
    requires forall k :: 0 <= k < |list| ==> Clean(list[k])
    ensures Encode(Render(list)) == Some(Render(list))
  {
    forall k | 0 <= k < |list| ensures Ascii(Parts(list)[k]) {
      assert Clean(list[k]);
    }
    JoinIsAscii(Parts(list));
    AsciiIsItself(Render(list));
  }

  lemma ReadOf(c: Text)
    requires Encode(c) == Some(c)
    ensures Read(c) == if |c| > MAX_QUERY_BYTES then None else if c == [] then Some([]) else ReadAll(Split(c, AMPERSAND))
  {
  }

  lemma CanonicalOf(c: Text)
    ensures Canonical(c).Some? <==> Read(c).Some? && CodedAll(Read(c).value).Some?
    ensures Canonical(c).Some? ==> Canonical(c).value == Render(Sort(CodedAll(Read(c).value).value))
  {
  }

  lemma SortOfNothing()
    ensures CodedAll([]) == Some([]) && Sort([]) == [] && Render([]) == []
  {
  }

  lemma LessIsIrreflexive(list: seq<Pair>)
    requires Ascending(list)
    ensures UniqueKeys(list)
  {
    forall i, j | 0 <= i < j < |list| ensures list[i].key != list[j].key {
      LessIsTotal(list[i].key, list[j].key);
    }
  }

  // ---- a query at the limit whose canonical form is past it ----

  function Bangs(n: nat): (t: Text)
    ensures |t| == n
  {
    seq(n, _ => '!' as int)
  }

  lemma {:induction false} BangsCode(n: nat)
    ensures DecodeBytes(Bangs(n)) == Some(Bangs(n)) && |EncodeBytes(Bangs(n))| == 3 * n
  {
    if n > 0 {
      BangsCode(n - 1);
      assert Bangs(n)[1..] == Bangs(n - 1) == Bangs(n)[..n - 1];
      assert Bangs(n) == ['!' as int] + Bangs(n - 1);
    }
  }

  lemma BangsDecode(n: nat)
    ensures DecodeQueryComponent(Bangs(n)) == Some(Bangs(n)) && EncodeRfc3986(Bangs(n)).Some?
    ensures |EncodeRfc3986(Bangs(n)).value| == 3 * n
  {
    BangsCode(n);
    AsciiIsItself(Bangs(n));
    DecodeEncode(Bangs(n));
  }

  function BangsQuery(n: nat): (raw: Text)
    ensures |raw| == n + 2
  {
    ['a' as int] + [EQUALS] + Bangs(n)
  }

  lemma BangsLetters(n: nat)
    ensures Ascii(BangsQuery(n)) && AMPERSAND !in BangsQuery(n) && SEMICOLON !in BangsQuery(n) && PLUS !in BangsQuery(n)
    ensures BangsQuery(n)[..1] == ['a' as int] && BangsQuery(n)[2..] == Bangs(n)
  {
  }

  lemma BangsIsOnePart(n: nat)
    ensures Encode(BangsQuery(n)) == Some(BangsQuery(n)) && Split(BangsQuery(n), AMPERSAND) == [BangsQuery(n)]
  {
    BangsLetters(n);
    AsciiIsItself(BangsQuery(n));
    SplitPrefix(BangsQuery(n), [], AMPERSAND);
  }

  lemma BangsRead(n: nat) returns (q: Pair)
    ensures var p := Pair(['a' as int], Bangs(n)); ReadPart(BangsQuery(n)) == Some(p) && Coded(p) == Some(q)
    ensures |PartOf(q)| == 3 * n + 2
  {
    hide IndexOf, DecodeQueryComponent, EncodeRfc3986, Bangs;
    var key, raw := ['a' as int], BangsQuery(n);
    BangsDecode(n);
    LetterCodes();
    IndexOfFirst(key, Bangs(n), EQUALS);
    BangsLetters(n);
    q := Coded(Pair(key, Bangs(n))).value;
  }

  // a=!!!...! with 8190 exclamation marks is accepted, its canonical form is not.
  lemma {:induction false} CanonicalMayOverflow()
    ensures exists raw :: Canonical(raw).Some? && Canonical(Canonical(raw).value).None?
  {
    var n: nat := MAX_QUERY_BYTES - 2;
    assert 3 * n + 2 > MAX_QUERY_BYTES == n + 2;
    hide *;
    var raw := BangsQuery(n);
    BangsIsOnePart(n);
    var q := BangsRead(n);
    OnePart(raw, Pair(['a' as int], Bangs(n)), q);
    CanonicalTwice(raw);
  }

  lemma LetterCodes()
    ensures var key := ['a' as int]; DecodeQueryComponent(key) == Some(key) && EncodeRfc3986(key) == Some(key)
  {
    var key := ['a' as int];
    AsciiIsItself(key);
    assert key[1..] == [] && DecodeBytes(key) == Some(key);
    assert key[..0] == [] && EncodeBytes(key) == key;
    DecodeEncode(key);
  }

  lemma OnePart(raw: Text, p: Pair, q: Pair)
    requires raw != [] && Encode(raw) == Some(raw) && |raw| <= MAX_QUERY_BYTES && Split(raw, AMPERSAND) == [raw]
    requires ReadPart(raw) == Some(p) && Coded(p) == Some(q)
    ensures Canonical(raw) == Some(PartOf(q))
  {
    hide Encode, Split, ReadPart, Coded, PartOf, ReadAll, CodedAll;
    ReadAllFrom([raw], [p]);
    CodedAllFrom([p], [q]);
    assert [q][..0] == [] && Sort([q]) == [q] && Parts([q]) == [PartOf(q)];
  }

  // ---- the code ----

  lemma {:induction false} ReadAllPrefix(parts: seq<Text>, n: nat)
    requires n <= |parts| && ReadAll(parts[..n]).None?
    ensures ReadAll(parts).None?
    decreases |parts|
  {
    if n < |parts| {
      var short := parts[..|parts| - 1];
      assert parts[..n] == short[..n];
      ReadAllPrefix(short, n);
    } else {
      assert parts[..n] == parts;
    }
  }

  lemma {:induction false} JoinSnoc(parts: seq<Text>, last: Text, sep: CodePoint)
    ensures Join(parts + [last], sep) == if parts == [] then last else Join(parts, sep) + [sep] + last
  {
    if parts != [] {
      JoinSnoc(parts[1..], last, sep);
      assert (parts + [last])[1..] == parts[1..] + [last];
      if |parts| > 1 {
        var middle := Join(parts[1..], sep);
        assert parts[0] + [sep] + (middle + [sep] + last) == parts[0] + [sep] + middle + [sep] + last;
      }
    }
  }

  method RenderPairs(pairs: seq<Pair>) returns (result: Text)
    ensures result == Render(pairs)
  {
    result := [];
    for i := 0 to |pairs|
      invariant result == Render(pairs[..i])
    {
      assert Parts(pairs[..i + 1]) == Parts(pairs[..i]) + [PartOf(pairs[i])];
      JoinSnoc(Parts(pairs[..i]), PartOf(pairs[i]), AMPERSAND);
      if i > 0 {
        result := result + [AMPERSAND];
      }
      result := result + pairs[i].key + [EQUALS] + pairs[i].value;
    }
    assert pairs[..|pairs|] == pairs;
  }

  // One part, as the loop of canonicalQuery reads and recodes it.
  method RecodePart(part: Text) returns (r: Option<Pair>)
    ensures ReadPart(part).None? ==> r.None?
    ensures ReadPart(part).Some? ==> r.Some? && r == Coded(ReadPart(part).value)
  {
    hide Encode, DecodeBytes, EncodeBytes;
    if part == [] || IndexOf(part, SEMICOLON) >= 0 {
      return None;
    }
    var separator := IndexOf(part, EQUALS);
    if separator < 0 {
      return None;
    }
    var rawKey, rawValue := part[..separator], part[separator + 1..];
    assert part == rawKey + [EQUALS] + rawValue;
    if IndexOf(rawKey, PLUS) >= 0 || IndexOf(rawValue, PLUS) >= 0 {
      return None;
    }
    var decodedKey := DecodeComponent(rawKey);
    var decodedValue := DecodeComponent(rawValue);
    if decodedKey.None? || decodedValue.None? {
      return None;
    }
    DecodedIsEncodable(rawKey);
    DecodedIsEncodable(rawValue);
    EmptyKey(decodedKey.value);
    var key := EncodeComponent(decodedKey.value);
    var value := EncodeComponent(decodedValue.value);
    if key.value == [] {
      return None;
    }
    r := Some(Pair(key.value, value.value));
  }

  lemma EmptyKey(key: Text)
    requires EncodeRfc3986(key).Some?
    ensures EncodeRfc3986(key).value == [] <==> key == []
  {
    EncodedIsPlain(Encode(key).value);
  }

  lemma SameCodeSameKey(pairs: seq<Pair>, coded: seq<Pair>, p: Pair, q: Pair)
    requires |pairs| == |coded| && forall k :: 0 <= k < |pairs| ==> Encodable(pairs[k]) && Coded(pairs[k]) == Some(coded[k])
    requires Encodable(p) && Coded(p) == Some(q)
    ensures HasKey(pairs, p.key) <==> HasKey(coded, q.key)
  {
    hide Encodable, Coded;
    forall k | 0 <= k < |pairs| ensures pairs[k].key == p.key <==> coded[k].key == q.key {
      CodedIsFaithful(pairs[k]);
      CodedIsFaithful(p);
      SameKeySameCode(pairs[k], p);
    }
  }

  method CanonicalQuery(raw: Text) returns (r: Option<Text>)
    ensures r == Canonical(raw)
  {
    hide Encode, ReadPart, Coded, Encodable, Clean, Sort, Render, Split;
    var bytes := Encode(raw);
    if bytes.None? || |bytes.value| > MAX_QUERY_BYTES {
      return None;
    }
    if raw == [] {
      SortOfNothing();
      return Some([]);
    }
    var parts := Split(raw, AMPERSAND);
    var pairs: seq<Pair> := [];
    var seen: set<Text> := {};
    ghost var plain: seq<Pair> := [];
    for n := 0 to |parts|
      invariant ReadAll(parts[..n]) == Some(plain) && |pairs| == |plain| == n
      invariant forall k :: 0 <= k < n ==> Encodable(plain[k]) && Coded(plain[k]) == Some(pairs[k])
      invariant forall key :: key in seen <==> HasKey(pairs, key)
    {
      assert parts[..n + 1][..n] == parts[..n] && parts[..n + 1][n] == parts[n];
      var pair := RecodePart(parts[n]);
      if pair.None? {
        ReadAllPrefix(parts, n + 1);
        return None;
      }
      ghost var p := ReadPart(parts[n]).value;
      ReadIsEncodable(parts[n]);
      SameCodeSameKey(plain, pairs, p, pair.value);
      if pair.value.key in seen {
        ReadAllPrefix(parts, n + 1);
        return None;
      }
      seen := seen + {pair.value.key};
      pairs := pairs + [pair.value];
      plain := plain + [p];
      HasKeySnoc(pairs[..n], pair.value);
    }
    assert parts[..|parts|] == parts;
    CodedAllFrom(plain, pairs);
    var result := RenderPairs(Sort(pairs));
    r := Some(result);
  }

  lemma HasKeySnoc(pairs: seq<Pair>, p: Pair)
    ensures forall key :: HasKey(pairs + [p], key) <==> HasKey(pairs, key) || key == p.key
  {
    forall key | HasKey(pairs, key) || key == p.key ensures HasKey(pairs + [p], key) {
      if key == p.key {
        assert (pairs + [p])[|pairs|].key == key;
      } else {
        var k :| 0 <= k < |pairs| && pairs[k].key == key;
        assert (pairs + [p])[k].key == key;
      }
    }
  }
}
