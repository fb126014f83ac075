// What the characters between two quotes mean, in the numbers of section 7 of RFC 8259.
module JsonEscapes {
  import opened Wrappers
  import opened Utf8
  import opened Percent
  import opened JsonText
  import opened JsonGrammar
  import opened JsonValues

  // The value of a hexadecimal digit, or -1.
  function Nibble(c: CodePoint): int {
    if 0x30 <= c <= 0x39 then c - 0x30 else if 0x41 <= c <= 0x46 then c - 0x37 else if 0x61 <= c <= 0x66 then c - 0x57 else -1
  }

  // The text is a backslash, a u and four hexadecimal digits of value `v`.
  predicate UnicodeEscape(t: Text, v: int) {
    && |t| == 6 && t[0] == 0x5C && t[1] == 0x75
    && Nibble(t[2]) >= 0 && Nibble(t[3]) >= 0 && Nibble(t[4]) >= 0 && Nibble(t[5]) >= 0
    && v == 4096 * Nibble(t[2]) + 256 * Nibble(t[3]) + 16 * Nibble(t[4]) + Nibble(t[5])
  }

  predicate ShortEscape(letter: CodePoint, c: CodePoint) {
    || (letter == 0x22 && c == 0x22) || (letter == 0x5C && c == 0x5C) || (letter == 0x2F && c == 0x2F)
    || (letter == 0x62 && c == 8) || (letter == 0x66 && c == 12) || (letter == 0x6E && c == 10)
    || (letter == 0x72 && c == 13) || (letter == 0x74 && c == 9)
  }

  predicate SurrogatePair(t: Text, c: CodePoint) {
    |t| == 12 && exists high, low :: 0xD800 <= high < 0xDC00 && 0xDC00 <= low < 0xE000
                                     && UnicodeEscape(t[..6], high) && UnicodeEscape(t[6..], low)
                                     && c == 0x10000 + (high - 0xD800) * 0x400 + (low - 0xDC00)
  }

  // `t` is one spelling of the code point `c`: itself, a two-character escape, a \u escape or a pair of them.
  predicate Legal(t: Text, c: CodePoint) {
    || (t == [c] && c >= 0x20 && c != 0x22 && c != 0x5C)
    || (|t| == 2 && t[0] == 0x5C && ShortEscape(t[1], c))
    || (UnicodeEscape(t, c) && !(0xD800 <= c < 0xE000))
    || SurrogatePair(t, c)
  }

  function Concat(ts: seq<Text>): Text {
    if ts == [] then [] else ts[0] + Concat(ts[1..])
  }

  // `t` is the string `s` with every code point in one of its spellings.
  ghost predicate Spells(t: Text, s: Text) {
    exists ts: seq<Text> :: SpelledBy(t, s, ts)
  }

  predicate SpelledBy(t: Text, s: Text, ts: seq<Text>) {
    |ts| == |s| && Concat(ts) == t && forall k :: 0 <= k < |s| ==> Legal(ts[k], s[k])
  }

  // ---- one piece ----

  lemma HexIsNibble(c: CodePoint)
    ensures FromHex(c) == Nibble(c)
  {
  }

  lemma HexIsEscape(h: Text)
    requires |h| == 4
    ensures FourHex(h) ==> UnicodeEscape([BACKSLASH, LETTER_U] + h, HexValue(h))
    ensures (exists v :: UnicodeEscape([BACKSLASH, LETTER_U] + h, v)) ==> FourHex(h)
  {
    HexIsNibble(h[0]);
    HexIsNibble(h[1]);
    HexIsNibble(h[2]);
    HexIsNibble(h[3]);
    hide Nibble, FromHex;
    var t := [BACKSLASH, LETTER_U] + h;
    assert t[2] == h[0] && t[3] == h[1] && t[4] == h[2] && t[5] == h[3];
  }

  lemma PieceIsLegal(p: Piece)
    requires GoodPiece(p)
    ensures Legal(Spell(p), PieceMeaning(p))
  {
    match p
    case Plain(c) =>
    case Short(letter) =>
      assert ShortEscape(letter, ShortMeaning(letter));
    case Unicode(h) =>
      HexIsEscape(h);
      hide UnicodeEscape, FourHex, HexValue;
    case Paired(h, l) =>
      HexIsEscape(h);
      HexIsEscape(l);
      hide UnicodeEscape, FourHex, HexValue;
      var t := Spell(p);
      assert |h| == 4 && |l| == 4 by { FourHexLength(h); FourHexLength(l); }
      assert t[..6] == [BACKSLASH, LETTER_U] + h && t[6..] == [BACKSLASH, LETTER_U] + l;
      assert SurrogatePair(t, PieceMeaning(p));
  }

  lemma EscapeIsHex(t: Text, v: int)
    requires UnicodeEscape(t, v)
    ensures FourHex(t[2..]) && HexValue(t[2..]) == v && t == [BACKSLASH, LETTER_U] + t[2..]
  {
    HexIsNibble(t[2]);
    HexIsNibble(t[3]);
    HexIsNibble(t[4]);
    HexIsNibble(t[5]);
    hide Nibble, FromHex;
    var h := t[2..];
    assert h[0] == t[2] && h[1] == t[3] && h[2] == t[4] && h[3] == t[5];
  }

  lemma LegalIsPiece(t: Text, c: CodePoint) returns (p: Piece)
    requires Legal(t, c)
    ensures GoodPiece(p) && Spell(p) == t && PieceMeaning(p) == c
  {
    if t == [c] && c >= 0x20 && c != 0x22 && c != 0x5C {
      p := Plain(c);
      return;
    }
    if |t| == 2 && t[0] == 0x5C && ShortEscape(t[1], c) {
      p := Short(t[1]);
      return;
    }
    p := LegalIsHex(t, c);
  }

  lemma LegalIsHex(t: Text, c: CodePoint) returns (p: Piece)
    requires (UnicodeEscape(t, c) && !(0xD800 <= c < 0xE000)) || SurrogatePair(t, c)
    ensures GoodPiece(p) && Spell(p) == t && PieceMeaning(p) == c
  {
    hide ShortLetter, ShortMeaning;
    if UnicodeEscape(t, c) && !(0xD800 <= c < 0xE000) {
      EscapeIsHex(t, c);
      hide UnicodeEscape, FourHex, HexValue;
      p := Unicode(t[2..]);
    } else {
      var high, low :| 0xD800 <= high < 0xDC00 && 0xDC00 <= low < 0xE000
                       && UnicodeEscape(t[..6], high) && UnicodeEscape(t[6..], low)
                       && c == 0x10000 + (high - 0xD800) * 0x400 + (low - 0xDC00);
      EscapeIsHex(t[..6], high);
      EscapeIsHex(t[6..], low);
      hide UnicodeEscape, FourHex, HexValue;
      p := Paired(t[..6][2..], t[6..][2..]);
      assert t == t[..6] + t[6..];
    }
  }

  // ---- whole strings ----

  function Spellings(ps: seq<Piece>): (ts: seq<Text>)
    ensures |ts| == |ps| && forall k :: 0 <= k < |ps| ==> ts[k] == Spell(ps[k])
  {
    seq(|ps|, k requires 0 <= k < |ps| => Spell(ps[k]))
  }

  lemma {:induction false} SpellAllIsConcat(ps: seq<Piece>)
    ensures SpellAll(ps) == Concat(Spellings(ps))
    decreases |ps|
  {
    if ps != [] {
      SpellAllIsConcat(ps[1..]);
      assert Spellings(ps)[1..] == Spellings(ps[1..]);
      hide Spell;
    }
  }

  lemma PiecesSpell(ps: seq<Piece>)
    requires GoodPieces(ps)
    ensures Spells(SpellAll(ps), Meaning(ps))
  {
    SpellAllIsConcat(ps);
    forall k | 0 <= k < |ps| ensures Legal(Spellings(ps)[k], Meaning(ps)[k]) {
      PieceIsLegal(ps[k]);
    }
    hide Legal, Spell, SpellAll, Concat;
    assert SpelledBy(SpellAll(ps), Meaning(ps), Spellings(ps));
  }

  lemma {:induction false} SpellingsArePieces(ts: seq<Text>, s: Text) returns (ps: seq<Piece>)
    requires |ts| == |s| && forall k :: 0 <= k < |s| ==> Legal(ts[k], s[k])
    ensures GoodPieces(ps) && SpellAll(ps) == Concat(ts) && Meaning(ps) == s
    decreases |ts|
  {
    hide Legal;
    if ts == [] {
      ps := [];
    } else {
      var p := LegalIsPiece(ts[0], s[0]);
      var rest := SpellingsArePieces(ts[1..], s[1..]);
      hide Spell, GoodPiece, PieceMeaning;
      ps := [p] + rest;
      assert ps[1..] == rest;
      assert Meaning(ps) == [PieceMeaning(p)] + Meaning(rest);
      assert s == [s[0]] + s[1..];
    }
  }

  lemma ReadsQuoted(ps: seq<Piece>)
    requires GoodPieces(ps)
    ensures Parse([QUOTE] + (SpellAll(ps) + [QUOTE])) == Some(JString(Meaning(ps)))
  {
    var tree := Tree([], Str(ps));
    var t := [QUOTE] + (SpellAll(ps) + [QUOTE]);
    assert GoodTree(tree, 0) && TreeValue(tree, 0) == JString(Meaning(ps));
    assert PrintTree(tree, []) == t;
    ReadsExactly(t, tree);
    assert AllWhite([]);
    hide GoodTree, PrintTree, TreeValue, ReadTree, SpellAll, Meaning;
  }

  lemma StringTree(tree: Tree, s: Text)
    requires GoodTree(tree, 0) && TreeValue(tree, 0) == JString(s)
    ensures tree.body.Str? && GoodPieces(tree.body.pieces) && Meaning(tree.body.pieces) == s && AllWhite(tree.lead)
  {
    hide GoodChain, GoodEntries, ChainValue, EntriesValue, Meaning;
  }

  // What the parser read, and the blanks behind it.
  lemma ReadBack(doc: Text, v: Json) returns (tree: Tree, tail: Text)
    requires Parse(doc) == Some(v)
    ensures GoodTree(tree, 0) && TreeValue(tree, 0) == v && doc == PrintTree(tree, tail) && Skip(tail) == []
  {
    tree := ReadDocument(doc).value;
    tail := ReadTree(doc, 0).value.1;
    TreeSound(doc, 0);
    hide ReadTree, TreeValue, GoodTree, PrintTree, Skip;
  }

  lemma QuotedTree(t: Text, s: Text) returns (ps: seq<Piece>)
    requires Parse([QUOTE] + (t + [QUOTE])) == Some(JString(s))
    ensures GoodPieces(ps) && t == SpellAll(ps) && s == Meaning(ps)
  {
    hide Parse, TreeValue, GoodTree, Meaning, SpellAll, Skip, GoodPieces, AllWhite;
    var doc := [QUOTE] + (t + [QUOTE]);
    var tree, tail := ReadBack(doc, JString(s));
    StringTree(tree, s);
    ps := tree.body.pieces;
    TailIsWhite(tail);
    assert doc == tree.lead + ([QUOTE] + (SpellAll(ps) + ([QUOTE] + tail)));
    hide PrintTree, PrintBody, PrintString;
    NoLead(tree.lead, [QUOTE] + (SpellAll(ps) + ([QUOTE] + tail)), t);
    NoTail(SpellAll(ps), tail, t);
  }

  lemma TailIsWhite(tail: Text)
    requires Skip(tail) == []
    ensures AllWhite(tail)
  {
    assert tail == tail[..Blank(tail)] + Skip(tail);
  }

  lemma Ends(a: Text, b: Text)
    ensures a != [] ==> (a + b)[0] == a[0] && a[0] in a
    ensures b != [] ==> (a + b)[|a + b| - 1] == b[|b| - 1] && b[|b| - 1] in b
    ensures a == [] ==> a + b == b
  {
  }

  lemma WhiteIsNoQuote(t: Text)
    requires AllWhite(t)
    ensures QUOTE !in t
  {
  }

  lemma NoLead(lead: Text, rest: Text, t: Text)
    requires AllWhite(lead) && [QUOTE] + (t + [QUOTE]) == lead + rest
    ensures lead == [] && rest == [QUOTE] + (t + [QUOTE])
  {
    WhiteIsNoQuote(lead);
    Ends(lead, rest);
    hide AllWhite;
  }

  lemma NoTail(spelled: Text, tail: Text, t: Text)
    requires AllWhite(tail) && [QUOTE] + (spelled + ([QUOTE] + tail)) == [QUOTE] + (t + [QUOTE])
    ensures tail == [] && spelled == t
  {
    WhiteIsNoQuote(tail);
    hide AllWhite;
    var a, b := [QUOTE] + (spelled + ([QUOTE] + tail)), [QUOTE] + (t + [QUOTE]);
    var head := [QUOTE] + (spelled + [QUOTE]);
    assert a == head + tail;
    Ends(head, tail);
    assert b[|b| - 1] == QUOTE;
    assert tail == [];
    assert a[1..|a| - 1] == spelled && b[1..|b| - 1] == t;
  }

  // A quoted text parses to a string if and only if it spells that string, code point by code point.
  lemma {:induction false} StringsExactly(t: Text, s: Text)
    ensures Parse([0x22] + (t + [0x22])) == Some(JString(s)) <==> Spells(t, s)
  {
    hide Parse, SpellAll, Meaning, GoodPieces;
    if Parse([QUOTE] + (t + [QUOTE])) == Some(JString(s)) {
      var ps := QuotedTree(t, s);
      PiecesSpell(ps);
    }
    if Spells(t, s) {
      var ts: seq<Text> :| SpelledBy(t, s, ts);
      var ps := SpellingsArePieces(ts, s);
      ReadsQuoted(ps);
    }
  }
}
