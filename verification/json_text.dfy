// The spellings of JSON strings, section 7 of RFC 8259, and how the parser reads them from the
// front of a text.
module JsonText {
  import opened Wrappers
  import opened Utf8
  import opened Percent

  const QUOTE: CodePoint := '"' as int
  const BACKSLASH: CodePoint := '\\' as int
  const LETTER_U: CodePoint := 'u' as int

  lemma Regroup(a: Text, b: Text, c: Text)
    ensures (a + b) + c == a + (b + c)
  {
  }

  // ---- strings ----

  // One spelled character: itself, a two-character escape, or one or two \u escapes.
  datatype Piece = Plain(c: CodePoint) | Short(letter: CodePoint) | Unicode(hex: Text) | Paired(high: Text, low: Text)

  predicate ShortLetter(c: CodePoint) {
    c == QUOTE || c == BACKSLASH || c == '/' as int || c == 'b' as int || c == 'f' as int || c == 'n' as int
    || c == 'r' as int || c == 't' as int
  }

  function ShortMeaning(letter: CodePoint): CodePoint
    requires ShortLetter(letter)
  {
    if letter == 'b' as int then 8
    else if letter == 'f' as int then 12
    else if letter == 'n' as int then 10
    else if letter == 'r' as int then 13
    else if letter == 't' as int then 9
    else letter
  }

  predicate FourHex(h: Text) {
    |h| == 4 && forall k :: 0 <= k < 4 ==> FromHex(h[k]) >= 0
  }

  function HexValue(h: Text): (v: int)
    requires FourHex(h)
    ensures 0 <= v < 0x1_0000
  {
    ((FromHex(h[0]) * 16 + FromHex(h[1])) * 16 + FromHex(h[2])) * 16 + FromHex(h[3])
  }

  predicate High(v: int) {
    0xD800 <= v < 0xDC00
  }

  predicate Low(v: int) {
    0xDC00 <= v < 0xE000
  }

  predicate GoodPiece(p: Piece) {
    match p
    case Plain(c) => c >= 0x20 && c != QUOTE && c != BACKSLASH
    case Short(letter) => ShortLetter(letter)
    case Unicode(h) => FourHex(h) && !High(HexValue(h)) && !Low(HexValue(h))
    case Paired(h, l) => FourHex(h) && FourHex(l) && High(HexValue(h)) && Low(HexValue(l))
  }

  function Spell(p: Piece): Text {
    match p
    case Plain(c) => [c]
    case Short(letter) => [BACKSLASH, letter]
    case Unicode(h) => [BACKSLASH, LETTER_U] + h
    case Paired(h, l) => [BACKSLASH, LETTER_U] + h + ([BACKSLASH, LETTER_U] + l)
  }

  function PieceMeaning(p: Piece): CodePoint
    requires GoodPiece(p)
  {
    match p
    case Plain(c) => c
    case Short(letter) => ShortMeaning(letter)
    case Unicode(h) => HexValue(h)
    case Paired(h, l) => 0x1_0000 + (HexValue(h) - 0xD800) * 0x400 + (HexValue(l) - 0xDC00)
  }

  function ReadEscape(t: Text): (r: Option<Piece>)
    requires t != []
    ensures r.Some? ==> GoodPiece(r.value) && |Spell(r.value)| <= |t| + 1
  {
    if ShortLetter(t[0]) then Some(Short(t[0]))
    else if t[0] != LETTER_U || |t| < 5 || !FourHex(t[1..5]) then None
    else if High(HexValue(t[1..5])) then
      if |t| >= 11 && t[5] == BACKSLASH && t[6] == LETTER_U && FourHex(t[7..11]) && Low(HexValue(t[7..11]))
      then Some(Paired(t[1..5], t[7..11])) else None
    else if Low(HexValue(t[1..5])) then None
    else Some(Unicode(t[1..5]))
  }

  function ReadPiece(t: Text): (r: Option<Piece>)
    requires t != [] && t[0] != QUOTE
    ensures r.Some? ==> GoodPiece(r.value) && 1 <= |Spell(r.value)| <= |t|
  {
    if t[0] < 0x20 then None
    else if t[0] != BACKSLASH then Some(Plain(t[0]))
    else if |t| < 2 then None
    else ReadEscape(t[1..])
  }

  predicate GoodPieces(ps: seq<Piece>) {
    forall k :: 0 <= k < |ps| ==> GoodPiece(ps[k])
  }

  function SpellAll(ps: seq<Piece>): Text {
    if ps == [] then [] else Spell(ps[0]) + SpellAll(ps[1..])
  }

  function Meaning(ps: seq<Piece>): Text
    requires GoodPieces(ps)
  {
    seq(|ps|, k requires 0 <= k < |ps| => PieceMeaning(ps[k]))
  }

  // The pieces up to the closing quote, and what follows it.
  function ReadPieces(t: Text): (r: Option<(seq<Piece>, Text)>)
    ensures r.Some? ==> GoodPieces(r.value.0) && |r.value.1| < |t|
  {
    if t == [] then None
    else if t[0] == QUOTE then Some(([], t[1..]))
    else
      var p := ReadPiece(t);
      if p.None? then None
      else
        var rest := ReadPieces(t[|Spell(p.value)|..]);
        if rest.None? then None else Some(([p.value] + rest.value.0, rest.value.1))
  }

  lemma ReadsSpelled(p: Piece, rest: Text)
    requires GoodPiece(p)
    ensures var t := Spell(p) + rest; t != [] && t[0] != QUOTE && ReadPiece(t) == Some(p)
  {
    match p
    case Plain(_) =>
    case Short(letter) =>
    case Unicode(h) =>
      ReadsUnicode(h, rest);
    case Paired(h, l) =>
      hide ReadPiece, FourHex, HexValue;
      Regroup([BACKSLASH, LETTER_U] + h, [BACKSLASH, LETTER_U] + l, rest);
      Regroup([BACKSLASH, LETTER_U], l, rest);
      ReadsPaired(h, l, rest);
  }

  lemma ReadsUnicode(h: Text, rest: Text)
    requires GoodPiece(Unicode(h))
    ensures ReadPiece([BACKSLASH, LETTER_U] + h + rest) == Some(Unicode(h))
  {
    hide FourHex, HexValue;
    var t := [BACKSLASH, LETTER_U] + h + rest;
    assert |h| == 4 by {
      FourHexLength(h);
    }
    assert t[1..][1..5] == h;
  }

  lemma FourHexLength(h: Text)
    requires FourHex(h)
    ensures |h| == 4
  {
  }

  lemma ReadsPaired(h: Text, l: Text, rest: Text)
    requires GoodPiece(Paired(h, l))
    ensures ReadPiece([BACKSLASH, LETTER_U] + h + ([BACKSLASH, LETTER_U] + (l + rest))) == Some(Paired(h, l))
  {
    hide FourHex, HexValue;
    var t := [BACKSLASH, LETTER_U] + h + ([BACKSLASH, LETTER_U] + (l + rest));
    FourHexLength(h);
    FourHexLength(l);
    var s := t[1..];
    assert s[1..5] == h && s[5] == BACKSLASH && s[6] == LETTER_U && s[7..11] == l;
  }

  lemma SpellsRead(t: Text)
    requires t != [] && t[0] != QUOTE && ReadPiece(t).Some?
    ensures t[..|Spell(ReadPiece(t).value)|] == Spell(ReadPiece(t).value)
  {
  }

  lemma {:induction false} ReadSpellAll(ps: seq<Piece>, rest: Text)
    requires GoodPieces(ps)
    ensures ReadPieces(SpellAll(ps) + ([QUOTE] + rest)) == Some((ps, rest))
  {
    var t := SpellAll(ps) + ([QUOTE] + rest);
    if ps == [] {
      assert t[1..] == rest;
    } else {
      var tail := SpellAll(ps[1..]) + ([QUOTE] + rest);
      ReadsSpelled(ps[0], tail);
      ReadSpellAll(ps[1..], rest);
      hide Spell, GoodPiece, ReadPiece;
      Regroup(Spell(ps[0]), SpellAll(ps[1..]), [QUOTE] + rest);
      assert t == Spell(ps[0]) + tail;
      assert t[|Spell(ps[0])|..] == tail;
      assert [ps[0]] + ps[1..] == ps;
    }
  }

  lemma PiecesStep(t: Text)
    requires ReadPieces(t).Some? && t[0] != QUOTE
    ensures ReadPiece(t).Some?
    ensures var p := ReadPiece(t).value; var tail := ReadPieces(t[|Spell(p)|..]);
            tail.Some? && ReadPieces(t) == Some(([p] + tail.value.0, tail.value.1))
            && SpellAll([p] + tail.value.0) == Spell(p) + SpellAll(tail.value.0)
  {
    hide Spell, GoodPiece, ReadPiece;
    var p := ReadPiece(t).value;
    var ps := ReadPieces(t[|Spell(p)|..]).value.0;
    assert ([p] + ps)[1..] == ps;
  }

  lemma PiecesEnd(t: Text)
    requires ReadPieces(t).Some?
    ensures t != []
    ensures t[0] == QUOTE ==> ReadPieces(t) == Some(([], t[1..])) && t == SpellAll([]) + ([QUOTE] + t[1..])
  {
  }

  lemma {:induction false} SpellReadPieces(t: Text)
    requires ReadPieces(t).Some?
    ensures var (ps, rest) := ReadPieces(t).value; t == SpellAll(ps) + ([QUOTE] + rest)
  {
    hide *;
    PiecesEnd(t);
    if t[0] != QUOTE {
      PiecesStep(t);
      SpellsRead(t);
      var p := ReadPiece(t).value;
      var tail := t[|Spell(p)|..];
      SpellReadPieces(tail);
      var (ps, rest) := ReadPieces(tail).value;
      Regroup(Spell(p), SpellAll(ps), [QUOTE] + rest);
      assert t == Spell(p) + tail;
    }
  }
}
