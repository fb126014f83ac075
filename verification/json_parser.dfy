// The parser object: a text and a position that its methods advance. A failed `require`
// of the source is a result None, after which the position is of no interest.
module JsonParsing {
  import opened Wrappers
  import opened Utf8
  import opened Percent
  import opened JsonText
  import opened JsonNumbers
  import opened JsonGrammar
  import opened JsonValues

  // ---- the reading functions, with values in place of trees ----

  function ReadValue(t: Text, depth: nat): (r: Option<(Json, Text)>)
    ensures r.Some? ==> |r.value.1| < |t|
  {
    var tree := ReadTree(t, depth);
    if tree.None? then None else
      assert GoodTree(tree.value.0, depth) by { TreeSound(t, depth); }
      Some((TreeValue(tree.value.0, depth), tree.value.1))
  }

  function ReadElements(t: Text, depth: nat): Option<(seq<Json>, Text)> {
    var chain := ReadChain(t, depth);
    if chain.None? then None else
      assert GoodChain(chain.value.0, depth) by { ChainSound(t, depth); }
      Some((ChainValue(chain.value.0, depth), chain.value.1))
  }

  function ReadFields(t: Text, depth: nat, seen: set<Text>): Option<(seq<Member>, Text)> {
    var entries := ReadEntries(t, depth, seen);
    if entries.None? then None else
      assert GoodEntries(entries.value.0, depth, seen) by { EntriesSound(t, depth, seen); }
      Some((EntriesValue(entries.value.0, depth, seen), entries.value.1))
  }

  function Before<T>(done: seq<T>, r: Option<(seq<T>, Text)>): Option<(seq<T>, Text)> {
    if r.None? then None else Some((done + r.value.0, r.value.1))
  }

  lemma BeforeTwice<T>(done: seq<T>, item: T, r: Option<(seq<T>, Text)>)
    ensures Before(done, Before([item], r)) == Before(done + [item], r)
  {
    if r.Some? {
      assert done + ([item] + r.value.0) == done + [item] + r.value.0;
    }
  }

  lemma {:induction false} SkipTwice(t: Text)
    ensures Skip(Skip(t)) == Skip(t)
  {
    SkipOf([], Skip(t));
    assert [] + Skip(t) == Skip(t);
  }

  lemma ValueAfterBlanks(t: Text, depth: nat)
    ensures ReadValue(Skip(t), depth) == ReadValue(t, depth)
  {
    SkipTwice(t);
    hide ReadBody, Skip, Blank, BodyValue;
  }

  lemma ElementsUnfold(t: Text, depth: nat)
    ensures var v := ReadValue(t, depth + 1);
            ReadElements(t, depth)
            == if v.None? then None
               else if StartsWith(Skip(v.value.1), CLOSE_BRACKET) then Some(([v.value.0], Skip(v.value.1)[1..]))
               else if StartsWith(Skip(v.value.1), COMMA) then Before([v.value.0], ReadElements(Skip(v.value.1)[1..], depth))
               else None
  {
    hide ReadTree, TreeValue, Skip, GoodTree;
    if ReadTree(t, depth + 1).Some? {
      var (item, s) := ReadTree(t, depth + 1).value;
      TreeSound(t, depth + 1);
      if StartsWith(Skip(s), CLOSE_BRACKET) {
        var chain := Last(item, s[..Blank(s)]);
        assert ReadChain(t, depth) == Some((chain, Skip(s)[1..]));
        ChainSound(t, depth);
        assert ChainValue(chain, depth) == [TreeValue(item, depth + 1)];
      } else if StartsWith(Skip(s), COMMA) && ReadChain(Skip(s)[1..], depth).Some? {
        var (rest, end) := ReadChain(Skip(s)[1..], depth).value;
        var chain := More(item, s[..Blank(s)], rest);
        assert ReadChain(t, depth) == Some((chain, end));
        ChainSound(t, depth);
        assert ChainValue(chain, depth) == [TreeValue(item, depth + 1)] + ChainValue(rest, depth);
      }
    }
  }

  lemma ElementsAfterBlanks(t: Text, depth: nat)
    ensures ReadElements(Skip(t), depth) == ReadElements(t, depth)
  {
    ElementsUnfold(t, depth);
    ElementsUnfold(Skip(t), depth);
    ValueAfterBlanks(t, depth + 1);
    hide *;
  }

  // What ReadEntry leaves: the key, the value and the text at the separator.
  lemma FieldsUnfold(t: Text, depth: nat, seen: set<Text>)
    requires StartsWith(Skip(t), QUOTE)
    ensures var key := ReadPieces(Skip(t)[1..]);
            ReadFields(t, depth, seen)
            == if key.None? || Meaning(key.value.0) in seen || !StartsWith(Skip(key.value.1), COLON) then None
               else
                 var v := ReadValue(Skip(key.value.1)[1..], depth + 1);
                 if v.None? then None
                 else
                   var member := Member(Meaning(key.value.0), v.value.0);
                   if StartsWith(Skip(v.value.1), CLOSE_BRACE) then Some(([member], Skip(v.value.1)[1..]))
                   else if StartsWith(Skip(v.value.1), COMMA)
                   then Before([member], ReadFields(Skip(v.value.1)[1..], depth, seen + {member.key}))
                   else None
  {
    hide ReadTree, TreeValue, Skip, GoodTree, ReadPieces, Meaning, Blank, GoodPieces;
    EntryUnfolds(t, depth, seen);
    if ReadEntry(t, depth, seen).Some? {
      var (entry, s) := ReadEntry(t, depth, seen).value;
      var key := Meaning(entry.key);
      EntrySound(t, depth, seen);
      hide ReadEntry, ReadValue;
      if StartsWith(s, CLOSE_BRACE) {
        assert ReadEntries(t, depth, seen) == Some((LastEntry(entry), s[1..]));
        EntriesSound(t, depth, seen);
        assert EntriesValue(LastEntry(entry), depth, seen) == [Member(key, TreeValue(entry.value, depth + 1))];
      } else if StartsWith(s, COMMA) && ReadEntries(s[1..], depth, seen + {key}).Some? {
        var (rest, end) := ReadEntries(s[1..], depth, seen + {key}).value;
        assert ReadEntries(t, depth, seen) == Some((MoreEntries(entry, rest), end));
        EntriesSound(t, depth, seen);
        assert EntriesValue(MoreEntries(entry, rest), depth, seen)
            == [Member(key, TreeValue(entry.value, depth + 1))] + EntriesValue(rest, depth, seen + {key});
      }
    }
  }

  lemma EntryUnfolds(t: Text, depth: nat, seen: set<Text>)
    requires StartsWith(Skip(t), QUOTE)
    ensures var key := ReadPieces(Skip(t)[1..]);
            if key.None? || Meaning(key.value.0) in seen || !StartsWith(Skip(key.value.1), COLON)
               || ReadValue(Skip(key.value.1)[1..], depth + 1).None?
            then ReadEntry(t, depth, seen).None?
            else
              var v := ReadValue(Skip(key.value.1)[1..], depth + 1).value;
              ReadEntry(t, depth, seen).Some? &&
              var (entry, s) := ReadEntry(t, depth, seen).value;
              entry.key == key.value.0 && s == Skip(v.1) && GoodTree(entry.value, depth + 1) && TreeValue(entry.value, depth + 1) == v.0
  {
    hide ReadTree, TreeValue, Skip, GoodTree, ReadPieces, Meaning, Blank, GoodPieces;
    var key := ReadPieces(Skip(t)[1..]);
    if key.Some? && StartsWith(Skip(key.value.1), COLON) && ReadTree(Skip(key.value.1)[1..], depth + 1).Some? {
      TreeSound(Skip(key.value.1)[1..], depth + 1);
    }
  }

  lemma FieldsStart(t: Text, depth: nat, seen: set<Text>)
    ensures !StartsWith(Skip(t), QUOTE) ==> ReadFields(t, depth, seen).None?
  {
    if !StartsWith(Skip(t), QUOTE) {
      assert ReadEntry(t, depth, seen).None?;
      assert ReadEntries(t, depth, seen).None?;
    }
  }

  lemma FieldsAfterBlanks(t: Text, depth: nat, seen: set<Text>)
    ensures ReadFields(Skip(t), depth, seen) == ReadFields(t, depth, seen)
  {
    SkipTwice(t);
    FieldsStart(t, depth, seen);
    FieldsStart(Skip(t), depth, seen);
    if StartsWith(Skip(t), QUOTE) {
      FieldsUnfold(t, depth, seen);
      FieldsUnfold(Skip(t), depth, seen);
    }
    hide *;
  }

  function ReadText(t: Text): Option<(Text, Text)> {
    var pieces := ReadPieces(t);
    if pieces.None? then None else Some((Meaning(pieces.value.0), pieces.value.1))
  }

  lemma TextUnfolds(t: Text)
    requires t != [] && t[0] != QUOTE
    ensures var p := ReadPiece(t);
            ReadText(t) == if p.None? then None else Before([PieceMeaning(p.value)], ReadText(t[|Spell(p.value)|..]))
  {
    hide GoodPiece, Spell, ReadPiece, PieceMeaning;
    var p := ReadPiece(t);
    if p.Some? && ReadPieces(t[|Spell(p.value)|..]).Some? {
      var ps := ReadPieces(t[|Spell(p.value)|..]).value.0;
      assert Meaning([p.value] + ps) == [PieceMeaning(p.value)] + Meaning(ps);
    }
  }

  lemma TextEnds(t: Text)
    ensures t == [] ==> ReadText(t).None?
    ensures StartsWith(t, QUOTE) ==> ReadText(t) == Some(([], t[1..]))
  {
    if StartsWith(t, QUOTE) {
      assert ReadPieces(t) == Some(([], t[1..])) && Meaning([]) == [];
    }
  }

  // The value after an opening bracket or brace.
  function ReadArray(t: Text, depth: nat): Option<(Json, Text)> {
    if StartsWith(Skip(t), CLOSE_BRACKET) then Some((JArray([]), Skip(t)[1..]))
    else
      var items := ReadElements(t, depth);
      if items.None? then None else Some((JArray(items.value.0), items.value.1))
  }

  function ReadObject(t: Text, depth: nat): Option<(Json, Text)> {
    if StartsWith(Skip(t), CLOSE_BRACE) then Some((JObject([]), Skip(t)[1..]))
    else
      var members := ReadFields(t, depth, {});
      if members.None? then None else Some((JObject(members.value.0), members.value.1))
  }

  lemma ValueCases(t: Text, depth: nat)
    ensures var s := Skip(t);
            ReadValue(t, depth)
            == if depth > MAX_JSON_DEPTH || s == [] then None
               else if s[0] == QUOTE then
                 var text := ReadText(s[1..]);
                 if text.None? then None else Some((JString(text.value.0), text.value.1))
               else if s[0] == OPEN_BRACE then ReadObject(s[1..], depth)
               else if s[0] == OPEN_BRACKET then ReadArray(s[1..], depth)
               else if HasPrefix(s, TRUE) then Some((JBool(true), s[4..]))
               else if HasPrefix(s, FALSE) then Some((JBool(false), s[5..]))
               else if HasPrefix(s, NULL) then Some((JNull, s[4..]))
               else
                 var number := ReadNumber(s);
                 if number.None? then None else Some((JNumber(DecimalOf(number.value.0)), number.value.1))
  {
    hide ReadPieces, ReadNumber, ReadItems, ReadMembers, ReadArray, ReadObject, Meaning, Skip, Blank, GoodNumber, GoodPieces;
    hide GoodChain, GoodEntries, ChainValue, EntriesValue;
    var s := Skip(t);
    if depth <= MAX_JSON_DEPTH && s != [] {
      if ReadTree(t, depth).Some? {
        TreeSound(t, depth);
        var (body, rest) := ReadBody(s, depth).value;
        assert ReadValue(t, depth) == Some((BodyValue(body, depth), rest));
        assert body.Str? ==> BodyValue(body, depth) == JString(Meaning(body.pieces));
        assert body.Num? ==> BodyValue(body, depth) == JNumber(DecimalOf(body.number));
      }
      if s[0] == OPEN_BRACE {
        ObjectValue(s[1..], depth);
      } else if s[0] == OPEN_BRACKET {
        ArrayValue(s[1..], depth);
      }
    }
  }

  lemma ArrayValue(t: Text, depth: nat)
    ensures var items := ReadItems(t, depth);
            if items.None? then ReadArray(t, depth).None?
            else GoodBody(Arr(items.value.0), depth)
                 && ReadArray(t, depth) == Some((BodyValue(Arr(items.value.0), depth), items.value.1))
  {
    hide ReadChain, ChainValue, Skip, Blank;
    if ReadItems(t, depth).Some? {
      ItemsSound(t, depth);
    }
  }

  lemma ObjectValue(t: Text, depth: nat)
    ensures var members := ReadMembers(t, depth);
            if members.None? then ReadObject(t, depth).None?
            else GoodBody(Obj(members.value.0), depth)
                 && ReadObject(t, depth) == Some((BodyValue(Obj(members.value.0), depth), members.value.1))
  {
    hide ReadEntries, EntriesValue, Skip, Blank;
    if ReadMembers(t, depth).Some? {
      MembersSound(t, depth);
    }
  }

  lemma DocumentCases(t: Text)
    ensures var value := ReadValue(t, 0);
            Parse(t) == if value.None? || Skip(value.value.1) != [] then None else Some(value.value.0)
  {
    hide ReadTree, GoodTree, TreeValue, Skip;
  }

  lemma SkipStep(t: Text)
    ensures Skip(t) == if t != [] && White(t[0]) then Skip(t[1..]) else t
  {
    if t != [] && White(t[0]) {
      assert t[Blank(t)..] == t[1..][Blank(t[1..])..];
    }
  }

  class JsonParser {
    const text: Text
    var position: nat

    constructor (text: Text)
      ensures this.text == text && position == 0
    {
      this.text := text;
      position := 0;
    }

    predicate Valid()
      reads this
    {
      position <= |text|
    }

    function Rest(): Text
      requires Valid()
      reads this
    {
      text[position..]
    }

    method SkipWhitespace()
      requires Valid()
      modifies this`position
      ensures Valid() && position >= old(position) && Rest() == Skip(old(Rest()))
    {
      hide Skip;
      while position < |text|
        invariant Valid() && position >= old(position)
        invariant Skip(Rest()) == Skip(old(Rest()))
      {
        SkipStep(Rest());
        if !White(text[position]) {
          return;
        }
        assert Rest()[1..] == text[position + 1..];
        position := position + 1;
      }
      SkipStep(Rest());
    }

    method Consume(expected: CodePoint) returns (ok: bool)
      requires Valid()
      modifies this`position
      ensures Valid() && ok == StartsWith(old(Rest()), expected)
      ensures position == old(position) + (if ok then 1 else 0)
      ensures Rest() == if ok then old(Rest())[1..] else old(Rest())
    {
      if position < |text| && text[position] == expected {
        position := position + 1;
        return true;
      }
      return false;
    }

    method ParseUnicodeEscape() returns (r: Option<int>)
      requires Valid()
      modifies this`position
      ensures Valid() && position >= old(position)
      ensures var t := old(Rest());
              if |t| >= 4 && FourHex(t[..4]) then r == Some(HexValue(t[..4])) && Rest() == t[4..] else r == None
    {
      if position + 4 > |text| {
        return None;
      }
      ghost var h := Rest()[..4];
      var value := 0;
      for i := 0 to 4
        invariant position == old(position) + i
        invariant forall k :: 0 <= k < i ==> FromHex(h[k]) >= 0
        invariant i >= 1 ==> value == (if i == 1 then FromHex(h[0]) else if i == 2 then FromHex(h[0]) * 16 + FromHex(h[1])
                                       else if i == 3 then (FromHex(h[0]) * 16 + FromHex(h[1])) * 16 + FromHex(h[2]) else HexValue(h))
        invariant i == 0 ==> value == 0
      {
        var digit := FromHex(text[position]);
        position := position + 1;
        assert digit == FromHex(h[i]);
        if digit < 0 {
          return None;
        }
        value := value * 16 + digit;
      }
      r := Some(value);
    }

    // The switch of parseString, entered after the backslash.
    method ParseEscape() returns (r: Option<CodePoint>)
      requires Valid() && position < |text|
      modifies this`position
      ensures Valid() && position >= old(position)
      ensures var p := ReadEscape(old(Rest()));
              if p.None? then r == None else r == Some(PieceMeaning(p.value)) && Rest() == old(Rest())[|Spell(p.value)| - 1..]
    {
      hide FourHex, HexValue, ShortMeaning;
      ghost var t := Rest();
      var escaped := text[position];
      position := position + 1;
      if ShortLetter(escaped) {
        return Some(ShortMeaning(escaped));
      }
      if escaped != LETTER_U {
        return None;
      }
      assert |t| >= 5 ==> Rest()[..4] == t[1..5];
      var code := ParseUnicodeEscape();
      if code.None? {
        return None;
      }
      if High(code.value) {
        if !(position + 1 < |text| && text[position] == BACKSLASH && text[position + 1] == LETTER_U) {
          return None;
        }
        position := position + 2;
        assert |t| >= 11 ==> Rest()[..4] == t[7..11];
        var low := ParseUnicodeEscape();
        if low.None? || !Low(low.value) {
          return None;
        }
        return Some(0x1_0000 + (code.value - 0xD800) * 0x400 + (low.value - 0xDC00));
      }
      if Low(code.value) {
        return None;
      }
      return Some(code.value);
    }

    method ParseString() returns (r: Option<Text>)
      requires Valid()
      modifies this`position
      ensures Valid() && position >= old(position)
      ensures var t := old(Rest());
              var quoted := if StartsWith(t, QUOTE) then ReadText(t[1..]) else None;
              if quoted.None? then r == None else r == Some(quoted.value.0) && Rest() == quoted.value.1
    {
      hide ReadEscape, PieceMeaning, GoodPiece, Meaning, ReadText, ReadPieces;
      var started := Consume(QUOTE);
      if !started {
        return None;
      }
      var result: Text := [];
      ghost var start := Rest();
      BeforeNothing(ReadText(start));
      while position < |text|
        invariant Valid() && position >= old(position)
        invariant ReadText(start) == Before(result, ReadText(Rest()))
      {
        ghost var t := Rest();
        var current := text[position];
        position := position + 1;
        if current == QUOTE {
          TextEnds(t);
          assert result + [] == result && Rest() == t[1..];
          return Some(result);
        }
        TextUnfolds(t);
        if current < 0x20 {
          return None;
        }
        if current != BACKSLASH {
          BeforeTwice(result, current, ReadText(Rest()));
          PlainMeaning(current);
          result := result + [current];
          continue;
        }
        if position >= |text| {
          return None;
        }
        assert t[1..] == Rest();
        var c := ParseEscape();
        if c.None? {
          return None;
        }
        BeforeTwice(result, c.value, ReadText(Rest()));
        result := result + [c.value];
      }
      TextEnds(Rest());
      return None;
    }

    method SkipDigits()
      requires Valid()
      modifies this`position
      ensures Valid() && position == old(position) + Digits(old(Rest()))
    {
      while position < |text| && Digit(text[position])
        invariant Valid() && position >= old(position)
        invariant position + Digits(Rest()) == old(position) + Digits(old(Rest()))
      {
        assert Rest()[1..] == text[position + 1..];
        position := position + 1;
      }
    }

    // The digits after a full stop or an exponent: at least one.
    method SomeDigits() returns (digits: Option<Text>)
      requires Valid()
      modifies this`position
      ensures Valid() && position == old(position) + Digits(old(Rest()))
      ensures digits == if Digits(old(Rest())) == 0 then None else Some(old(Rest())[..Digits(old(Rest()))])
      ensures Rest() == old(Rest())[Digits(old(Rest()))..]
    {
      var start := position;
      ghost var t := Rest();
      assert t[0..] == t;
      if !(position < |text| && Digit(text[position])) {
        return None;
      }
      SkipDigits();
      digits := Some(text[start..position]);
      assert text[start..position] == t[..Digits(t)] && Rest() == t[Digits(t)..];
    }

    method ParseWhole() returns (r: Option<Text>)
      requires Valid()
      modifies this`position
      ensures Valid() && position >= old(position)
      ensures var whole := ReadWhole(old(Rest()));
              if whole.None? then r == None else r == Some(whole.value.0) && Rest() == whole.value.1
    {
      var start := position;
      ghost var t := Rest();
      var zero := Consume('0' as int);
      if zero {
        if position < |text| && Digit(text[position]) {
          return None;
        }
      } else {
        if !(position < |text| && '1' as int <= text[position] <= '9' as int) {
          return None;
        }
        SkipDigits();
      }
      assert text[start..position] == t[..position - start] && Rest() == t[position - start..];
      r := Some(text[start..position]);
    }

    method ParseFraction() returns (r: Option<Option<Text>>)
      requires Valid()
      modifies this`position
      ensures Valid() && position >= old(position)
      ensures var fraction := ReadFraction(old(Rest()));
              if fraction.None? then r == None else r == Some(fraction.value.0) && Rest() == fraction.value.1
    {
      var point := Consume('.' as int);
      if !point {
        return Some(None);
      }
      var digits := SomeDigits();
      if digits.None? {
        return None;
      }
      r := Some(digits);
    }

    method ParseExponent() returns (r: Option<Option<Exponent>>)
      requires Valid()
      modifies this`position
      ensures Valid() && position >= old(position)
      ensures var exponent := ReadExponent(old(Rest()));
              if exponent.None? then r == None else r == Some(exponent.value.0) && Rest() == exponent.value.1
    {
      if !(position < |text| && (text[position] == 'e' as int || text[position] == 'E' as int)) {
        return Some(None);
      }
      ghost var t := Rest();
      var letter, sign := text[position], [];
      position := position + 1;
      assert Rest() == t[1..];
      if position < |text| && (text[position] == '+' as int || text[position] == '-' as int) {
        sign := [text[position]];
        position := position + 1;
        assert Rest() == t[2..];
      }
      var digits := SomeDigits();
      if digits.None? {
        return None;
      }
      r := Some(Some(Exponent(letter, sign, digits.value)));
    }

    // The parts are read one by one; java.math.BigDecimal takes them or refuses their range.
    method ParseNumber() returns (r: Option<Decimal>)
      requires Valid()
      modifies this`position
      ensures Valid() && position >= old(position)
      ensures var number := ReadNumber(old(Rest()));
              if number.None? then r == None
              else GoodNumber(number.value.0) && r == Some(DecimalOf(number.value.0)) && Rest() == number.value.1
    {
      hide ReadWhole, ReadFraction, ReadExponent;
      var minus := Consume('-' as int);
      var whole := ParseWhole();
      if whole.None? {
        return None;
      }
      var fraction := ParseFraction();
      if fraction.None? {
        return None;
      }
      var exponent := ParseExponent();
      if exponent.None? {
        return None;
      }
      var number := Number(minus, whole.value, fraction.value, exponent.value);
      if !InRange(number) {
        return None;
      }
      r := Some(DecimalOf(number));
    }

    // A literal at the position is passed over.
    method ConsumeLiteral(word: Text) returns (ok: bool)
      requires Valid()
      modifies this`position
      ensures Valid() && ok == HasPrefix(old(Rest()), word)
      ensures ok ==> position == old(position) + |word| && Rest() == old(Rest())[|word|..]
      ensures !ok ==> position == old(position)
    {
      ok := |word| <= |text| - position && text[position..position + |word|] == word;
      assert |word| <= |text| - position ==> Rest()[..|word|] == text[position..position + |word|];
      if ok {
        ghost var before := Rest();
        position := position + |word|;
        assert Rest() == before[|word|..];
      }
    }

    method ParseValue(depth: nat) returns (r: Option<Json>)
      requires Valid()
      modifies this`position
      ensures Valid() && position >= old(position)
      ensures var value := ReadValue(old(Rest()), depth);
              if value.None? then r == None else r == Some(value.value.0) && Rest() == value.value.1 && position > old(position)
      decreases |text| - position, 1
    {
      hide ReadValue;
      ghost var t := Rest();
      if depth > MAX_JSON_DEPTH {
        ValueCases(t, depth);
        return None;
      }
      SkipWhitespace();
      ValueCases(t, depth);
      hide ReadNumber, ReadText, ReadElements, ReadFields, Skip;
      ghost var s := Rest();
      if position >= |text| {
        return None;
      }
      var current := text[position];
      if current == QUOTE {
        var quoted := ParseString();
        return if quoted.Some? then Some(JString(quoted.value)) else None;
      }
      if current == OPEN_BRACE {
        r := ParseObject(depth);
        return;
      }
      if current == OPEN_BRACKET {
        r := ParseArray(depth);
        return;
      }
      var literal := ConsumeLiteral(TRUE);
      if literal {
        return Some(JBool(true));
      }
      literal := ConsumeLiteral(FALSE);
      if literal {
        return Some(JBool(false));
      }
      literal := ConsumeLiteral(NULL);
      if literal {
        return Some(JNull);
      }
      var number := ParseNumber();
      r := if number.Some? then Some(JNumber(number.value)) else None;
    }

    method ParseArray(depth: nat) returns (r: Option<Json>)
      requires Valid() && StartsWith(Rest(), OPEN_BRACKET)
      modifies this`position
      ensures Valid() && position >= old(position)
      ensures var value := ReadArray(old(Rest())[1..], depth);
              if value.None? then r == None else r == Some(value.value.0) && Rest() == value.value.1 && position > old(position)
      decreases |text| - position, 0
    {
      hide ReadElements, ReadValue, Skip;
      position := position + 1;
      ghost var start := Rest();
      SkipWhitespace();
      var empty := Consume(CLOSE_BRACKET);
      if empty {
        return Some(JArray([]));
      }
      ElementsAfterBlanks(start, depth);
      var result: seq<Json> := [];
      BeforeNothing(ReadElements(start, depth));
      while true
        invariant Valid() && position > old(position)
        invariant ReadElements(start, depth) == Before(result, ReadElements(Rest(), depth))
        decreases |text| - position
      {
        ghost var t := Rest();
        ElementsUnfold(t, depth);
        var item := ParseValue(depth + 1);
        if item.None? {
          return None;
        }
        SkipWhitespace();
        ghost var s := Rest();
        var closed := Consume(CLOSE_BRACKET);
        if closed {
          return Some(JArray(result + [item.value]));
        }
        var comma := Consume(COMMA);
        if !comma {
          return None;
        }
        BeforeTwice(result, item.value, ReadElements(Rest(), depth));
        result := result + [item.value];
      }
    }

    method ParseObject(depth: nat) returns (r: Option<Json>)
      requires Valid() && StartsWith(Rest(), OPEN_BRACE)
      modifies this`position
      ensures Valid() && position >= old(position)
      ensures var value := ReadObject(old(Rest())[1..], depth);
              if value.None? then r == None else r == Some(value.value.0) && Rest() == value.value.1 && position > old(position)
      decreases |text| - position, 0
    {
      hide ReadFields, ReadValue, Skip, ReadPieces, Meaning;
      position := position + 1;
      ghost var start := Rest();
      SkipWhitespace();
      var empty := Consume(CLOSE_BRACE);
      if empty {
        return Some(JObject([]));
      }
      FieldsAfterBlanks(start, depth, {});
      var result: seq<Member> := [];
      var keys: set<Text> := {};
      BeforeNothing(ReadFields(start, depth, {}));
      while true
        invariant Valid() && position > old(position)
        invariant ReadFields(start, depth, {}) == Before(result, ReadFields(Rest(), depth, keys))
        decreases |text| - position
      {
        ghost var t := Rest();
        SkipWhitespace();
        FieldsStart(t, depth, keys);
        if !(position < |text| && text[position] == QUOTE) {
          return None;
        }
        FieldsUnfold(t, depth, keys);
        var key := ParseString();
        if key.None? || key.value in keys {
          return None;
        }
        SkipWhitespace();
        var colon := Consume(COLON);
        if !colon {
          return None;
        }
        var value := ParseValue(depth + 1);
        if value.None? {
          return None;
        }
        SkipWhitespace();
        var member := Member(key.value, value.value);
        var closed := Consume(CLOSE_BRACE);
        if closed {
          return Some(JObject(result + [member]));
        }
        var comma := Consume(COMMA);
        if !comma {
          return None;
        }
        BeforeTwice(result, member, ReadFields(Rest(), depth, keys + {key.value}));
        result := result + [member];
        keys := keys + {key.value};
      }
    }

    method ParseDocument() returns (r: Option<Json>)
      requires position == 0
      modifies this`position
      ensures r == Parse(text)
    {
      assert Rest() == text;
      DocumentCases(text);
      var value := ParseValue(0);
      if value.None? {
        return None;
      }
      SkipWhitespace();
      r := if position == |text| then value else None;
    }
  }

  lemma BeforeNothing<T>(r: Option<(seq<T>, Text)>)
    ensures Before([], r) == r
  {
    assert r.Some? ==> [] + r.value.0 == r.value.0;
  }

  lemma PlainMeaning(c: CodePoint)
    requires c >= 0x20 && c != QUOTE && c != BACKSLASH
    ensures GoodPiece(Plain(c)) && PieceMeaning(Plain(c)) == c
  {
  }
}
