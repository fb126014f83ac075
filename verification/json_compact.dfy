// The compact text of a value in numbers, and the limits of the parser.
module JsonCompact {
  import opened Wrappers
  import opened Utf8
  import opened Percent
  import opened JsonText
  import opened JsonNumbers
  import opened JsonGrammar
  import opened JsonValues

  // ---- a printer in code points ----

  function Quoted(s: Text): Text {
    [0x22] + (SpellAll(TidyString(s)) + [0x22])
  }

  function Compact(v: Json): Text {
    match v
    case JNull => [0x6E, 0x75, 0x6C, 0x6C]
    case JBool(b) => if b then [0x74, 0x72, 0x75, 0x65] else [0x66, 0x61, 0x6C, 0x73, 0x65]
    case JNumber(d) => PrintNumber(Spelled(d))
    case JString(s) => Quoted(s)
    case JArray(items) => [0x5B] + (if items == [] then [0x5D] else CompactItems(items))
    case JObject(members) => [0x7B] + (if members == [] then [0x7D] else CompactMembers(members))
  }

  function CompactItems(items: seq<Json>): Text
    requires items != []
  {
    Compact(items[0]) + (if |items| == 1 then [0x5D] else [0x2C] + CompactItems(items[1..]))
  }

  function CompactMembers(members: seq<Member>): Text
    requires members != []
  {
    Quoted(members[0].key) + ([0x3A] + (Compact(members[0].value) + (if |members| == 1 then [0x7D] else [0x2C] + CompactMembers(members[1..]))))
  }

  lemma QuotedIsPrinted(s: Text, rest: Text)
    ensures PrintString(TidyString(s), rest) == Quoted(s) + rest
  {
    hide SpellAll, TidyString;
    var spelled := SpellAll(TidyString(s));
    Regroup([0x22], spelled + [0x22], rest);
    Regroup(spelled, [0x22], rest);
  }

  lemma {:induction false} CompactIsPrinted(v: Json, rest: Text)
    ensures PrintTree(Tidy(v), rest) == Compact(v) + rest
    decreases v
  {
    hide PrintChain, PrintEntries, TidyChain, TidyEntries, CompactItems, CompactMembers, PrintNumber, PrintString, Quoted, SpellAll;
    assert PrintTree(Tidy(v), rest) == PrintBody(Tidy(v).body, rest);
    match v
    case JString(s) => QuotedIsPrinted(s, rest);
    case JArray(items) =>
      if items == [] {
        assert [] + ([CLOSE_BRACKET] + rest) == [CLOSE_BRACKET] + rest;
        Regroup([0x5B], [0x5D], rest);
      } else {
        ItemsArePrinted(items, rest);
        Regroup([0x5B], CompactItems(items), rest);
      }
    case JObject(members) =>
      if members == [] {
        assert [] + ([CLOSE_BRACE] + rest) == [CLOSE_BRACE] + rest;
        Regroup([0x7B], [0x7D], rest);
      } else {
        MembersArePrinted(members, rest);
        Regroup([0x7B], CompactMembers(members), rest);
      }
    case _ =>
  }

  lemma {:induction false} ItemsArePrinted(items: seq<Json>, rest: Text)
    requires items != []
    ensures PrintChain(TidyChain(items), rest) == CompactItems(items) + rest
    decreases items
  {
    hide Tidy, PrintTree, Compact;
    var after := if |items| == 1 then [CLOSE_BRACKET] + rest else [COMMA] + PrintChain(TidyChain(items[1..]), rest);
    CompactIsPrinted(items[0], after);
    assert [] + after == after;
    if |items| == 1 {
      Regroup(Compact(items[0]), [0x5D], rest);
    } else {
      ItemsArePrinted(items[1..], rest);
      Regroup([0x2C], CompactItems(items[1..]), rest);
      Regroup(Compact(items[0]), [0x2C] + CompactItems(items[1..]), rest);
    }
  }

  lemma {:induction false} MembersArePrinted(members: seq<Member>, rest: Text)
    requires members != []
    ensures PrintEntries(TidyEntries(members), rest) == CompactMembers(members) + rest
    decreases members
  {
    hide Tidy, PrintTree, Compact, PrintString, Quoted, TidyString;
    var m := members[0];
    var after := if |members| == 1 then [CLOSE_BRACE] + rest else [COMMA] + PrintEntries(TidyEntries(members[1..]), rest);
    assert PrintEntries(TidyEntries(members), rest) == PrintEntry(TidyEntries(members).entry, after);
    CompactIsPrinted(m.value, after);
    QuotedIsPrinted(m.key, [0x3A] + (Compact(m.value) + after));
    EntryIsPrinted(m, after);
    var tail := if |members| == 1 then [0x7D] else [0x2C] + CompactMembers(members[1..]);
    if |members| > 1 {
      MembersArePrinted(members[1..], rest);
      Regroup([0x2C], CompactMembers(members[1..]), rest);
    }
    assert after == tail + rest;
    Regroup(Compact(m.value), tail, rest);
    Regroup([0x3A], Compact(m.value) + tail, rest);
    Regroup(Quoted(m.key), [0x3A] + (Compact(m.value) + tail), rest);
  }

  lemma EntryIsPrinted(m: Member, after: Text)
    ensures PrintEntry(Entry([], TidyString(m.key), [], Tidy(m.value), []), after)
         == PrintString(TidyString(m.key), [0x3A] + PrintTree(Tidy(m.value), after))
  {
    hide Tidy, PrintTree, PrintString, TidyString;
    assert [] + after == after;
    var value := PrintTree(Tidy(m.value), after);
    assert [] + ([COLON] + value) == [COLON] + value;
    assert [] + PrintString(TidyString(m.key), [COLON] + value) == PrintString(TidyString(m.key), [COLON] + value);
  }

  // The parser reads every value with distinct keys, nesting at most 64 and decimals of a reachable scale from its
  // compact text, whose brackets, separators and literals are these code points.
  lemma {:induction false} ParseCompact(v: Json)
    requires Fits(v, 0)
    ensures Parse(Compact(v)) == Some(v)
  {
    CompactIsPrinted(v, []);
    assert Compact(v) + [] == Compact(v);
    hide PrintTree, Tidy, Compact, Parse, Fits;
    ParsePrint(v);
  }

  // ---- nesting ----

  function Nested(n: nat): Json {
    JArray(if n == 0 then [] else [Nested(n - 1)])
  }

  lemma {:induction false} NestedFits(n: nat, depth: nat)
    requires n + depth <= 64
    ensures Fits(Nested(n), depth)
    decreases n
  {
    if n > 0 {
      NestedFits(n - 1, depth + 1);
    }
  }

  function Brackets(n: nat): Text {
    if n == 0 then [] else [0x5B] + Brackets(n - 1)
  }

  lemma NoBlank(t: Text)
    requires StartsWith(t, OPEN_BRACKET)
    ensures Blank(t) == 0 && Skip(t) == t
  {
    assert !White(OPEN_BRACKET);
    assert t[0..] == t;
  }

  lemma {:induction false} TooDeep(n: nat, rest: Text, depth: nat)
    requires n + depth > 65
    ensures ReadTree(Brackets(n) + rest, depth).None?
    decreases n
  {
    var t := Brackets(n) + rest;
    if depth <= MAX_JSON_DEPTH {
      var inner := Brackets(n - 1) + rest;
      assert t[1..] == inner && t[0] == OPEN_BRACKET && inner[0] == OPEN_BRACKET;
      NoBlank(t);
      NoBlank(inner);
      TooDeep(n - 1, rest, depth + 1);
      hide Blank, Skip, Brackets;
      assert ReadChain(inner, depth).None?;
      assert ReadItems(inner, depth).None?;
      assert ReadBody(t, depth).None?;
    }
  }

  // Sixty-five arrays within each other are read, and no text that starts with sixty-six opening brackets is.
  lemma {:induction false} DepthLimit(rest: Text)
    ensures Parse(Compact(Nested(64))) == Some(Nested(64))
    ensures Parse(Brackets(66) + rest).None?
  {
    NestedFits(64, 0);
    ParseCompact(Nested(64));
    hide Nested, Compact, Brackets, Fits, ReadTree;
    TooDeep(66, rest, 0);
  }
}
