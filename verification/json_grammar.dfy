// The texts that JsonParser accepts, as syntax trees that keep every blank and every spelling,
// and the parser as a function from the front of a text to a tree and the rest.
module JsonGrammar {
  import opened Wrappers
  import opened Utf8
  import opened Percent
  import opened JsonText
  import opened JsonNumbers

  const MAX_JSON_DEPTH: nat := 64
  const OPEN_BRACE: CodePoint := '{' as int
  const CLOSE_BRACE: CodePoint := '}' as int
  const OPEN_BRACKET: CodePoint := '[' as int
  const CLOSE_BRACKET: CodePoint := ']' as int
  const COMMA: CodePoint := ',' as int
  const COLON: CodePoint := ':' as int
  const TRUE: Text := ['t' as int, 'r' as int, 'u' as int, 'e' as int]
  const FALSE: Text := ['f' as int, 'a' as int, 'l' as int, 's' as int, 'e' as int]
  const NULL: Text := ['n' as int, 'u' as int, 'l' as int, 'l' as int]

  // A value with the blanks before it.
  datatype Tree = Tree(lead: Text, body: Body)
  datatype Body = Null | True | False | Num(number: Number) | Str(pieces: seq<Piece>) | Arr(items: Items) | Obj(members: Members)
  datatype Items = NoItems(gap: Text) | SomeItems(chain: Chain)
  datatype Chain = Last(item: Tree, tail: Text) | More(item: Tree, tail: Text, rest: Chain)
  datatype Members = NoMembers(gap: Text) | SomeMembers(entries: Entries)
  datatype Entry = Entry(lead: Text, key: seq<Piece>, gap: Text, value: Tree, tail: Text)
  datatype Entries = LastEntry(entry: Entry) | MoreEntries(entry: Entry, rest: Entries)

  predicate White(c: CodePoint) {
    c == ' ' as int || c == '\t' as int || c == '\r' as int || c == '\n' as int
  }

  predicate AllWhite(t: Text) {
    forall k :: 0 <= k < |t| ==> White(t[k])
  }

  // ---- which trees are well formed: every value nests at most 64 deep, keys are distinct ----

  predicate GoodTree(tree: Tree, depth: nat) {
    depth <= MAX_JSON_DEPTH && AllWhite(tree.lead) && GoodBody(tree.body, depth)
  }

  predicate GoodBody(body: Body, depth: nat) {
    match body
    case Num(n) => GoodNumber(n)
    case Str(pieces) => GoodPieces(pieces)
    case Arr(NoItems(gap)) => AllWhite(gap)
    case Arr(SomeItems(chain)) => GoodChain(chain, depth)
    case Obj(NoMembers(gap)) => AllWhite(gap)
    case Obj(SomeMembers(entries)) => GoodEntries(entries, depth, {})
    case _ => true
  }

  predicate GoodChain(chain: Chain, depth: nat) {
    GoodTree(chain.item, depth + 1) && AllWhite(chain.tail) && (chain.More? ==> GoodChain(chain.rest, depth))
  }

  predicate GoodEntry(e: Entry, depth: nat, seen: set<Text>) {
    && AllWhite(e.lead) && AllWhite(e.gap) && AllWhite(e.tail)
    && GoodPieces(e.key) && Meaning(e.key) !in seen && GoodTree(e.value, depth + 1)
  }

  predicate GoodEntries(entries: Entries, depth: nat, seen: set<Text>) {
    GoodEntry(entries.entry, depth, seen)
    && (entries.MoreEntries? ==> GoodEntries(entries.rest, depth, seen + {Meaning(entries.entry.key)}))
  }

  // ---- the text of a tree, followed by `rest` ----

  function PrintTree(tree: Tree, rest: Text): Text {
    tree.lead + PrintBody(tree.body, rest)
  }

  function PrintBody(body: Body, rest: Text): Text {
    match body
    case Null => NULL + rest
    case True => TRUE + rest
    case False => FALSE + rest
    case Num(n) => PrintNumber(n) + rest
    case Str(pieces) => PrintString(pieces, rest)
    case Arr(NoItems(gap)) => [OPEN_BRACKET] + (gap + ([CLOSE_BRACKET] + rest))
    case Arr(SomeItems(chain)) => [OPEN_BRACKET] + PrintChain(chain, rest)
    case Obj(NoMembers(gap)) => [OPEN_BRACE] + (gap + ([CLOSE_BRACE] + rest))
    case Obj(SomeMembers(entries)) => [OPEN_BRACE] + PrintEntries(entries, rest)
  }

  function PrintString(pieces: seq<Piece>, rest: Text): Text {
    [QUOTE] + (SpellAll(pieces) + ([QUOTE] + rest))
  }

  function PrintChain(chain: Chain, rest: Text): Text {
    PrintTree(chain.item, chain.tail + (if chain.Last? then [CLOSE_BRACKET] + rest else [COMMA] + PrintChain(chain.rest, rest)))
  }

  function PrintEntry(e: Entry, rest: Text): Text {
    e.lead + PrintString(e.key, e.gap + ([COLON] + PrintTree(e.value, e.tail + rest)))
  }

  function PrintEntries(entries: Entries, rest: Text): Text {
    PrintEntry(entries.entry,
               if entries.LastEntry? then [CLOSE_BRACE] + rest else [COMMA] + PrintEntries(entries.rest, rest))
  }

  // ---- the parser ----

  // How many blanks `t` starts with.
  function Blank(t: Text): (n: nat)
    ensures n <= |t| && AllWhite(t[..n]) && (n < |t| ==> !White(t[n]))
  {
    if t == [] || !White(t[0]) then 0 else
      var n := Blank(t[1..]);
      assert t[..n + 1] == [t[0]] + t[1..][..n];
      n + 1
  }

  function Skip(t: Text): (s: Text)
    ensures |s| <= |t| && t == t[..Blank(t)] + s
  {
    t[Blank(t)..]
  }

  predicate HasPrefix(t: Text, prefix: Text) {
    |prefix| <= |t| && t[..|prefix|] == prefix
  }

  function ReadTree(t: Text, depth: nat): (r: Option<(Tree, Text)>)
    ensures r.Some? ==> |r.value.1| < |t|
    decreases |t|, 2
  {
    if depth > MAX_JSON_DEPTH then None
    else
      var body := ReadBody(Skip(t), depth);
      if body.None? then None else Some((Tree(t[..Blank(t)], body.value.0), body.value.1))
  }

  function ReadBody(s: Text, depth: nat): (r: Option<(Body, Text)>)
    ensures r.Some? ==> |r.value.1| < |s|
    decreases |s|, 1
  {
    if s == [] then None
    else if s[0] == QUOTE then
      var quoted := ReadPieces(s[1..]);
      if quoted.None? then None else Some((Str(quoted.value.0), quoted.value.1))
    else if s[0] == OPEN_BRACE then
      var members := ReadMembers(s[1..], depth);
      if members.None? then None else Some((Obj(members.value.0), members.value.1))
    else if s[0] == OPEN_BRACKET then
      var items := ReadItems(s[1..], depth);
      if items.None? then None else Some((Arr(items.value.0), items.value.1))
    else if HasPrefix(s, TRUE) then Some((True, s[4..]))
    else if HasPrefix(s, FALSE) then Some((False, s[5..]))
    else if HasPrefix(s, NULL) then Some((Null, s[4..]))
    else
      var number := ReadNumber(s);
      if number.None? then None else Some((Num(number.value.0), number.value.1))
  }

  function ReadItems(t: Text, depth: nat): (r: Option<(Items, Text)>)
    ensures r.Some? ==> |r.value.1| < |t|
    decreases |t|, 4
  {
    if StartsWith(Skip(t), CLOSE_BRACKET) then Some((NoItems(t[..Blank(t)]), Skip(t)[1..]))
    else
      var chain := ReadChain(t, depth);
      if chain.None? then None else Some((SomeItems(chain.value.0), chain.value.1))
  }

  function ReadChain(t: Text, depth: nat): (r: Option<(Chain, Text)>)
    ensures r.Some? ==> |r.value.1| < |t|
    decreases |t|, 3
  {
    var item := ReadTree(t, depth + 1);
    if item.None? then None
    else
      var s := item.value.1;
      var tail := s[..Blank(s)];
      if StartsWith(Skip(s), CLOSE_BRACKET) then Some((Last(item.value.0, tail), Skip(s)[1..]))
      else if StartsWith(Skip(s), COMMA) then
        var rest := ReadChain(Skip(s)[1..], depth);
        if rest.None? then None else Some((More(item.value.0, tail, rest.value.0), rest.value.1))
      else None
  }

  function ReadMembers(t: Text, depth: nat): (r: Option<(Members, Text)>)
    ensures r.Some? ==> |r.value.1| < |t|
    decreases |t|, 4
  {
    if StartsWith(Skip(t), CLOSE_BRACE) then Some((NoMembers(t[..Blank(t)]), Skip(t)[1..]))
    else
      var entries := ReadEntries(t, depth, {});
      if entries.None? then None else Some((SomeMembers(entries.value.0), entries.value.1))
  }

  // One key, colon and value, with the blanks after it; the rest starts at the separator.
  function ReadEntry(t: Text, depth: nat, seen: set<Text>): (r: Option<(Entry, Text)>)
    ensures r.Some? ==> |r.value.1| < |t| && GoodPieces(r.value.0.key)
    decreases |t|, 2
  {
    if !StartsWith(Skip(t), QUOTE) then None
    else
      var key := ReadPieces(Skip(t)[1..]);
      if key.None? || Meaning(key.value.0) in seen || !StartsWith(Skip(key.value.1), COLON) then None
      else
        var value := ReadTree(Skip(key.value.1)[1..], depth + 1);
        if value.None? then None
        else
          Some((Entry(t[..Blank(t)], key.value.0, key.value.1[..Blank(key.value.1)], value.value.0,
                      value.value.1[..Blank(value.value.1)]), Skip(value.value.1)))
  }

  function ReadEntries(t: Text, depth: nat, seen: set<Text>): (r: Option<(Entries, Text)>)
    ensures r.Some? ==> |r.value.1| < |t|
    decreases |t|, 3
  {
    var entry := ReadEntry(t, depth, seen);
    if entry.None? then None
    else if StartsWith(entry.value.1, CLOSE_BRACE) then Some((LastEntry(entry.value.0), entry.value.1[1..]))
    else if StartsWith(entry.value.1, COMMA) then
      var rest := ReadEntries(entry.value.1[1..], depth, seen + {Meaning(entry.value.0.key)});
      if rest.None? then None else Some((MoreEntries(entry.value.0, rest.value.0), rest.value.1))
    else None
  }

  function ReadDocument(t: Text): Option<Tree> {
    var tree := ReadTree(t, 0);
    if tree.None? || Skip(tree.value.1) != [] then None else Some(tree.value.0)
  }

  // ---- soundness: what is read is well formed and spells the text ----

  lemma Consumed(t: Text, c: CodePoint)
    requires StartsWith(Skip(t), c)
    ensures t == t[..Blank(t)] + ([c] + Skip(t)[1..])
  {
  }

  lemma {:induction false} TreeSound(t: Text, depth: nat)
    requires ReadTree(t, depth).Some?
    ensures var (tree, rest) := ReadTree(t, depth).value; GoodTree(tree, depth) && t == PrintTree(tree, rest)
    decreases |t|, 2
  {
    BodySound(Skip(t), depth);
    hide ReadBody, PrintBody, GoodBody;
  }

  lemma {:induction false} BodySound(s: Text, depth: nat)
    requires ReadBody(s, depth).Some?
    ensures var (body, rest) := ReadBody(s, depth).value; GoodBody(body, depth) && s == PrintBody(body, rest)
    decreases |s|, 1
  {
    hide ReadPieces, ReadNumber, ReadChain, ReadEntries, PrintChain, PrintEntries, GoodChain, GoodEntries, Skip, Blank;
    assert s == [s[0]] + s[1..];
    if s[0] == QUOTE {
      SpellReadPieces(s[1..]);
    } else if s[0] == OPEN_BRACE {
      MembersSound(s[1..], depth);
    } else if s[0] == OPEN_BRACKET {
      ItemsSound(s[1..], depth);
    } else if HasPrefix(s, TRUE) || HasPrefix(s, FALSE) || HasPrefix(s, NULL) {
      assert HasPrefix(s, TRUE) ==> s == TRUE + s[4..];
      assert HasPrefix(s, FALSE) ==> s == FALSE + s[5..];
      assert HasPrefix(s, NULL) ==> s == NULL + s[4..];
    } else {
      PrintsReadNumber(s);
    }
  }

  lemma {:induction false} ItemsSound(t: Text, depth: nat)
    requires ReadItems(t, depth).Some?
    ensures var (items, rest) := ReadItems(t, depth).value;
            GoodBody(Arr(items), depth) && [OPEN_BRACKET] + t == PrintBody(Arr(items), rest)
    decreases |t|, 4
  {
    hide ReadChain, PrintChain, GoodChain, Skip, Blank;
    if StartsWith(Skip(t), CLOSE_BRACKET) {
      Consumed(t, CLOSE_BRACKET);
    } else {
      ChainSound(t, depth);
    }
  }

  lemma {:induction false} ChainSound(t: Text, depth: nat)
    requires ReadChain(t, depth).Some?
    ensures var (chain, rest) := ReadChain(t, depth).value; GoodChain(chain, depth) && t == PrintChain(chain, rest)
    decreases |t|, 3
  {
    var (item, s) := ReadTree(t, depth + 1).value;
    TreeSound(t, depth + 1);
    hide ReadTree, PrintTree, GoodTree;
    if StartsWith(Skip(s), CLOSE_BRACKET) {
      Consumed(s, CLOSE_BRACKET);
    } else {
      Consumed(s, COMMA);
      ChainSound(Skip(s)[1..], depth);
    }
  }

  lemma {:induction false} MembersSound(t: Text, depth: nat)
    requires ReadMembers(t, depth).Some?
    ensures var (members, rest) := ReadMembers(t, depth).value;
            GoodBody(Obj(members), depth) && [OPEN_BRACE] + t == PrintBody(Obj(members), rest)
    decreases |t|, 4
  {
    hide ReadEntries, PrintEntries, GoodEntries, Skip, Blank;
    if StartsWith(Skip(t), CLOSE_BRACE) {
      Consumed(t, CLOSE_BRACE);
    } else {
      EntriesSound(t, depth, {});
    }
  }

  lemma {:induction false} EntrySound(t: Text, depth: nat, seen: set<Text>)
    requires ReadEntry(t, depth, seen).Some?
    ensures var (entry, rest) := ReadEntry(t, depth, seen).value; GoodEntry(entry, depth, seen) && t == PrintEntry(entry, rest)
    decreases |t|, 2
  {
    hide ReadTree, PrintTree, GoodTree, ReadPieces, SpellAll;
    Consumed(t, QUOTE);
    var (key, s) := ReadPieces(Skip(t)[1..]).value;
    SpellReadPieces(Skip(t)[1..]);
    Consumed(s, COLON);
    TreeSound(Skip(s)[1..], depth + 1);
  }

  lemma {:induction false} EntriesSound(t: Text, depth: nat, seen: set<Text>)
    requires ReadEntries(t, depth, seen).Some?
    ensures var (entries, rest) := ReadEntries(t, depth, seen).value;
            GoodEntries(entries, depth, seen) && t == PrintEntries(entries, rest)
    decreases |t|, 3
  {
    EntriesShape(t, depth, seen);
    EntrySound(t, depth, seen);
    hide ReadEntry, ReadEntries, PrintEntry, GoodEntry, Meaning, GoodPieces;
    var (entry, s) := ReadEntry(t, depth, seen).value;
    if !StartsWith(s, CLOSE_BRACE) {
      EntriesSound(s[1..], depth, seen + {Meaning(entry.key)});
    }
  }

  lemma EntriesShape(t: Text, depth: nat, seen: set<Text>)
    requires ReadEntries(t, depth, seen).Some?
    ensures ReadEntry(t, depth, seen).Some? && GoodPieces(ReadEntry(t, depth, seen).value.0.key)
    ensures var (entry, s) := ReadEntry(t, depth, seen).value;
            && s != [] && s == [s[0]] + s[1..]
            && if StartsWith(s, CLOSE_BRACE) then ReadEntries(t, depth, seen) == Some((LastEntry(entry), s[1..]))
               else
                 var rest := ReadEntries(s[1..], depth, seen + {Meaning(entry.key)});
                 StartsWith(s, COMMA) && rest.Some? && ReadEntries(t, depth, seen) == Some((MoreEntries(entry, rest.value.0), rest.value.1))
  {
    hide ReadEntry, Meaning, GoodPieces;
  }

  // ---- completeness: every well-formed tree is read back from its text ----

  lemma {:induction false} SkipOf(a: Text, rest: Text)
    requires AllWhite(a) && (rest == [] || !White(rest[0]))
    ensures Blank(a + rest) == |a| && Skip(a + rest) == rest && (a + rest)[..|a|] == a
  {
    if a == [] {
      assert a + rest == rest;
    } else {
      SkipOf(a[1..], rest);
      assert (a + rest)[1..] == a[1..] + rest;
    }
  }

  predicate Separator(c: CodePoint) {
    c == CLOSE_BRACKET || c == CLOSE_BRACE || c == COMMA
  }

  lemma StopsAt(tail: Text, c: CodePoint, rest: Text)
    requires AllWhite(tail) && Separator(c)
    ensures Stops(tail + ([c] + rest))
  {
  }

  lemma NumberStarts(n: Number, rest: Text)
    requires GoodNumber(n)
    ensures var t := PrintNumber(n) + rest; t != [] && (t[0] == '-' as int || Digit(t[0]))
  {
    hide PrintFraction, PrintExponent;
  }

  // A value starts with neither a blank nor a separator.
  lemma BodyStarts(body: Body, rest: Text, depth: nat)
    requires GoodBody(body, depth)
    ensures var t := PrintBody(body, rest); t != [] && !White(t[0]) && !Separator(t[0])
  {
    hide PrintNumber, GoodNumber, SpellAll, GoodPieces, GoodChain, GoodEntries, PrintChain, PrintEntries;
    if body.Num? {
      NumberStarts(body.number, rest);
    }
  }

  lemma {:induction false} TreeComplete(tree: Tree, rest: Text, depth: nat)
    requires GoodTree(tree, depth) && Stops(rest)
    ensures ReadTree(PrintTree(tree, rest), depth) == Some((tree, rest))
    decreases tree
  {
    var s := PrintBody(tree.body, rest);
    BodyStarts(tree.body, rest, depth);
    SkipOf(tree.lead, s);
    BodyComplete(tree.body, rest, depth);
    hide ReadBody, PrintBody, GoodBody, Skip, Blank, Stops;
  }

  lemma {:induction false} BodyComplete(body: Body, rest: Text, depth: nat)
    requires GoodBody(body, depth) && Stops(rest)
    ensures ReadBody(PrintBody(body, rest), depth) == Some((body, rest))
    decreases body
  {
    hide ReadPieces, ReadNumber, ReadItems, ReadMembers, PrintChain, PrintEntries, GoodChain, GoodEntries, Stops, SpellAll;
    hide PrintNumber, GoodNumber, Skip, Blank;
    var s := PrintBody(body, rest);
    match body
    case Null =>
      assert s[4..] == rest;
    case True =>
      assert s[4..] == rest;
    case False =>
      assert s[5..] == rest;
    case Num(n) =>
      NumberStarts(n, rest);
      ReadsNumber(n, rest);
    case Str(pieces) =>
      ReadSpellAll(pieces, rest);
      assert s[1..] == SpellAll(pieces) + ([QUOTE] + rest);
    case Arr(items) =>
      ItemsComplete(items, rest, depth);
      assert s == [OPEN_BRACKET] + s[1..];
    case Obj(members) =>
      MembersComplete(members, rest, depth);
      assert s == [OPEN_BRACE] + s[1..];
  }

  lemma {:induction false} ItemsComplete(items: Items, rest: Text, depth: nat)
    requires GoodBody(Arr(items), depth)
    ensures ReadItems(PrintBody(Arr(items), rest)[1..], depth) == Some((items, rest))
    decreases items
  {
    hide ReadChain, GoodChain, PrintChain, Skip, Blank;
    var t := PrintBody(Arr(items), rest)[1..];
    match items
    case NoItems(gap) =>
      SkipOf(gap, [CLOSE_BRACKET] + rest);
      assert t == gap + ([CLOSE_BRACKET] + rest);
    case SomeItems(chain) =>
      assert t == PrintChain(chain, rest);
      ChainStarts(chain, rest, depth);
      ChainComplete(chain, rest, depth);
  }

  lemma ChainStarts(chain: Chain, rest: Text, depth: nat)
    requires GoodChain(chain, depth)
    ensures !StartsWith(Skip(PrintChain(chain, rest)), CLOSE_BRACKET)
  {
    var after := chain.tail + (if chain.Last? then [CLOSE_BRACKET] + rest else [COMMA] + PrintChain(chain.rest, rest));
    BodyStarts(chain.item.body, after, depth + 1);
    SkipOf(chain.item.lead, PrintBody(chain.item.body, after));
    hide PrintBody, GoodBody, Skip, Blank;
  }

  lemma {:induction false} ChainComplete(chain: Chain, rest: Text, depth: nat)
    requires GoodChain(chain, depth)
    ensures ReadChain(PrintChain(chain, rest), depth) == Some((chain, rest))
    decreases chain
  {
    hide ReadTree, PrintTree, GoodTree, Skip, Blank, Stops;
    if chain.Last? {
      StopsAt(chain.tail, CLOSE_BRACKET, rest);
      TreeComplete(chain.item, chain.tail + ([CLOSE_BRACKET] + rest), depth + 1);
      SkipOf(chain.tail, [CLOSE_BRACKET] + rest);
    } else {
      var more := PrintChain(chain.rest, rest);
      StopsAt(chain.tail, COMMA, more);
      TreeComplete(chain.item, chain.tail + ([COMMA] + more), depth + 1);
      SkipOf(chain.tail, [COMMA] + more);
      ChainComplete(chain.rest, rest, depth);
      assert ([COMMA] + more)[1..] == more;
    }
  }

  lemma {:induction false} MembersComplete(members: Members, rest: Text, depth: nat)
    requires GoodBody(Obj(members), depth)
    ensures ReadMembers(PrintBody(Obj(members), rest)[1..], depth) == Some((members, rest))
    decreases members
  {
    hide ReadEntries, GoodEntries, PrintEntries, Skip, Blank;
    var t := PrintBody(Obj(members), rest)[1..];
    match members
    case NoMembers(gap) =>
      SkipOf(gap, [CLOSE_BRACE] + rest);
      assert t == gap + ([CLOSE_BRACE] + rest);
    case SomeMembers(entries) =>
      assert t == PrintEntries(entries, rest);
      EntriesStart(entries, rest, depth, {});
      EntriesComplete(entries, rest, depth, {});
  }

  lemma EntriesStart(entries: Entries, rest: Text, depth: nat, seen: set<Text>)
    requires GoodEntries(entries, depth, seen)
    ensures !StartsWith(Skip(PrintEntries(entries, rest)), CLOSE_BRACE)
  {
    hide PrintTree, SpellAll, Skip, Blank;
    var e := entries.entry;
    var after := if entries.LastEntry? then [CLOSE_BRACE] + rest else [COMMA] + PrintEntries(entries.rest, rest);
    SkipOf(e.lead, PrintString(e.key, e.gap + ([COLON] + PrintTree(e.value, e.tail + after))));
  }

  lemma {:induction false} EntryComplete(e: Entry, c: CodePoint, rest: Text, depth: nat, seen: set<Text>)
    requires GoodEntry(e, depth, seen) && Separator(c)
    ensures ReadEntry(PrintEntry(e, [c] + rest), depth, seen) == Some((e, [c] + rest))
    decreases e
  {
    hide ReadTree, PrintTree, GoodTree, SpellAll, ReadPieces, Skip, Blank, Stops, Meaning, GoodPieces;
    var value := PrintTree(e.value, e.tail + ([c] + rest));
    var gap := e.gap + ([COLON] + value);
    StopsAt(e.tail, c, rest);
    SkipOf(e.lead, PrintString(e.key, gap));
    ReadSpellAll(e.key, gap);
    assert PrintString(e.key, gap)[1..] == SpellAll(e.key) + ([QUOTE] + gap);
    SkipOf(e.gap, [COLON] + value);
    assert ([COLON] + value)[1..] == value;
    TreeComplete(e.value, e.tail + ([c] + rest), depth + 1);
    SkipOf(e.tail, [c] + rest);
  }

  lemma {:induction false} EntriesComplete(entries: Entries, rest: Text, depth: nat, seen: set<Text>)
    requires GoodEntries(entries, depth, seen)
    ensures ReadEntries(PrintEntries(entries, rest), depth, seen) == Some((entries, rest))
    decreases entries
  {
    hide ReadEntry, PrintEntry, GoodEntry;
    if entries.LastEntry? {
      EntryComplete(entries.entry, CLOSE_BRACE, rest, depth, seen);
      assert ([CLOSE_BRACE] + rest)[1..] == rest;
    } else {
      var more := PrintEntries(entries.rest, rest);
      EntryComplete(entries.entry, COMMA, more, depth, seen);
      EntriesComplete(entries.rest, rest, depth, seen + {Meaning(entries.entry.key)});
      assert ([COMMA] + more)[1..] == more;
    }
  }

  // ---- the accepted texts ----

  lemma {:induction false} ReadsExactly(t: Text, tree: Tree)
    ensures ReadDocument(t) == Some(tree) <==> exists tail :: GoodTree(tree, 0) && AllWhite(tail) && t == PrintTree(tree, tail)
  {
    hide ReadTree, PrintTree, GoodTree;
    if ReadDocument(t) == Some(tree) {
      var tail := ReadTree(t, 0).value.1;
      TreeSound(t, 0);
      assert tail == tail[..Blank(tail)] + Skip(tail);
      assert AllWhite(tail);
    }
    if tail :| GoodTree(tree, 0) && AllWhite(tail) && t == PrintTree(tree, tail) {
      TreeComplete(tree, tail, 0);
      SkipOf(tail, []);
      assert tail + [] == tail;
    }
  }
}
