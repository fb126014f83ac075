// The values that JsonParser builds, and a printer that it inverts.
module JsonValues {
  import opened Wrappers
  import opened Utf8
  import opened Percent
  import opened JsonText
  import opened JsonNumbers
  import opened JsonGrammar

  // Object members keep the order in which they were put.
  datatype Json =
    | JNull
    | JBool(b: bool)
    | JNumber(value: Decimal)
    | JString(s: Text)
    | JArray(items: seq<Json>)
    | JObject(members: seq<Member>)

  datatype Member = Member(key: Text, value: Json)

  // ---- the value of a tree ----

  function TreeValue(tree: Tree, depth: nat): Json
    requires GoodTree(tree, depth)
  {
    BodyValue(tree.body, depth)
  }

  function BodyValue(body: Body, depth: nat): Json
    requires GoodBody(body, depth)
  {
    match body
    case Null => JNull
    case True => JBool(true)
    case False => JBool(false)
    case Num(n) => JNumber(DecimalOf(n))
    case Str(pieces) => JString(Meaning(pieces))
    case Arr(NoItems(_)) => JArray([])
    case Arr(SomeItems(chain)) => JArray(ChainValue(chain, depth))
    case Obj(NoMembers(_)) => JObject([])
    case Obj(SomeMembers(entries)) => JObject(EntriesValue(entries, depth, {}))
  }

  function ChainValue(chain: Chain, depth: nat): (items: seq<Json>)
    requires GoodChain(chain, depth)
    ensures items != []
  {
    [TreeValue(chain.item, depth + 1)] + (if chain.Last? then [] else ChainValue(chain.rest, depth))
  }

  function EntriesValue(entries: Entries, depth: nat, seen: set<Text>): (members: seq<Member>)
    requires GoodEntries(entries, depth, seen)
    ensures members != []
  {
    assert GoodEntry(entries.entry, depth, seen);
    var key := Meaning(entries.entry.key);
    [Member(key, TreeValue(entries.entry.value, depth + 1))]
    + (if entries.LastEntry? then [] else EntriesValue(entries.rest, depth, seen + {key}))
  }

  function Parse(t: Text): Option<Json> {
    var tree := ReadDocument(t);
    if tree.None? then None else
      assert GoodTree(tree.value, 0) by { TreeSound(t, 0); }
      Some(TreeValue(tree.value, 0))
  }

  // ---- which values there are ----

  predicate Fits(v: Json, depth: nat)
    decreases v
  {
    && depth <= MAX_JSON_DEPTH
    && (v.JNumber? ==> Reachable(v.value))
    && (v.JArray? ==> forall k :: 0 <= k < |v.items| ==> Fits(v.items[k], depth + 1))
    && (v.JObject? ==> UniqueKeys(v.members) && forall k :: 0 <= k < |v.members| ==> Fits(v.members[k].value, depth + 1))
  }

  predicate UniqueKeys(members: seq<Member>) {
    forall i, j :: 0 <= i < j < |members| ==> members[i].key != members[j].key
  }

  lemma {:induction false} TreeFits(tree: Tree, depth: nat)
    requires GoodTree(tree, depth)
    ensures Fits(TreeValue(tree, depth), depth)
    decreases tree
  {
    hide GoodChain, GoodEntries, ChainValue, EntriesValue, Meaning;
    match tree.body
    case Arr(SomeItems(chain)) =>
      ChainFits(chain, depth);
      assert TreeValue(tree, depth) == JArray(ChainValue(chain, depth));
    case Obj(SomeMembers(entries)) =>
      EntriesFit(entries, depth, {});
    case Num(n) =>
      GoodIsReachable(n);
    case _ =>
  }

  lemma {:induction false} ChainFits(chain: Chain, depth: nat)
    requires GoodChain(chain, depth)
    ensures forall k :: 0 <= k < |ChainValue(chain, depth)| ==> Fits(ChainValue(chain, depth)[k], depth + 1)
    decreases chain
  {
    hide GoodTree, TreeValue, Fits;
    TreeFits(chain.item, depth + 1);
    if chain.More? {
      ChainFits(chain.rest, depth);
    }
  }

  lemma {:induction false} EntriesFit(entries: Entries, depth: nat, seen: set<Text>)
    requires GoodEntries(entries, depth, seen)
    ensures var members := EntriesValue(entries, depth, seen);
            UniqueKeys(members) && forall k :: 0 <= k < |members| ==> members[k].key !in seen && Fits(members[k].value, depth + 1)
    decreases entries
  {
    hide GoodTree, TreeValue, Fits, Meaning, GoodPieces;
    TreeFits(entries.entry.value, depth + 1);
    if entries.MoreEntries? {
      EntriesFit(entries.rest, depth, seen + {Meaning(entries.entry.key)});
    }
  }

  // ---- a printer without blanks ----

  function TidyChar(c: CodePoint): (p: Piece)
    ensures GoodPiece(p) && PieceMeaning(p) == c
  {
    if c == QUOTE || c == BACKSLASH then Short(c)
    else if c < 0x20 then Unicode(['0' as int, '0' as int, UpperHex(c / 16), UpperHex(c % 16)])
    else Plain(c)
  }

  function TidyString(s: Text): (ps: seq<Piece>)
    ensures GoodPieces(ps) && Meaning(ps) == s
  {
    seq(|s|, k requires 0 <= k < |s| => TidyChar(s[k]))
  }

  function Tidy(v: Json): Tree {
    Tree([], match v
             case JNull => Null
             case JBool(b) => if b then True else False
             case JNumber(d) => Num(Spelled(d))
             case JString(s) => Str(TidyString(s))
             case JArray(items) => Arr(if items == [] then NoItems([]) else SomeItems(TidyChain(items)))
             case JObject(members) => Obj(if members == [] then NoMembers([]) else SomeMembers(TidyEntries(members))))
  }

  function TidyChain(items: seq<Json>): Chain
    requires items != []
  {
    if |items| == 1 then Last(Tidy(items[0]), []) else More(Tidy(items[0]), [], TidyChain(items[1..]))
  }

  function TidyEntries(members: seq<Member>): Entries
    requires members != []
  {
    var entry := Entry([], TidyString(members[0].key), [], Tidy(members[0].value), []);
    if |members| == 1 then LastEntry(entry) else MoreEntries(entry, TidyEntries(members[1..]))
  }

  lemma {:induction false} TidyIsGood(v: Json, depth: nat)
    requires Fits(v, depth)
    ensures GoodTree(Tidy(v), depth) && TreeValue(Tidy(v), depth) == v
    decreases v
  {
    hide TidyChain, TidyEntries, GoodChain, GoodEntries, ChainValue, EntriesValue, TidyString, Meaning, GoodNumber, DecimalOf, Spelled;
    match v
    case JNumber(d) => SpelledIsGood(d);
    case JArray(items) => if items != [] { TidyChainIsGood(items, depth); }
    case JObject(members) => if members != [] { TidyEntriesAreGood(members, depth, {}); }
    case _ =>
  }

  lemma {:induction false} TidyChainIsGood(items: seq<Json>, depth: nat)
    requires items != [] && forall k :: 0 <= k < |items| ==> Fits(items[k], depth + 1)
    ensures GoodChain(TidyChain(items), depth) && ChainValue(TidyChain(items), depth) == items
    decreases items
  {
    hide Fits, Tidy, GoodTree, TreeValue;
    TidyIsGood(items[0], depth + 1);
    assert items == [items[0]] + items[1..];
    if |items| > 1 {
      TidyChainIsGood(items[1..], depth);
    }
  }

  lemma {:induction false} TidyEntriesAreGood(members: seq<Member>, depth: nat, seen: set<Text>)
    requires members != [] && UniqueKeys(members)
    requires forall k :: 0 <= k < |members| ==> members[k].key !in seen && Fits(members[k].value, depth + 1)
    ensures GoodEntries(TidyEntries(members), depth, seen) && EntriesValue(TidyEntries(members), depth, seen) == members
    decreases members
  {
    hide Fits, Tidy, GoodTree, TreeValue, TidyString, Meaning;
    TidyIsGood(members[0].value, depth + 1);
    assert members == [members[0]] + members[1..];
    if |members| > 1 {
      TidyEntriesAreGood(members[1..], depth, seen + {members[0].key});
    }
  }

  // The parser inverts the printer on every value with distinct keys that nests at most 64 deep,
  // and builds no other value.
  lemma {:induction false} ParsePrint(v: Json)
    requires Fits(v, 0)
    ensures Parse(PrintTree(Tidy(v), [])) == Some(v)
  {
    TidyIsGood(v, 0);
    ReadsExactly(PrintTree(Tidy(v), []), Tidy(v));
    assert AllWhite([]);
  }

  lemma {:induction false} ParsedFits(t: Text)
    ensures Parse(t).Some? ==> Fits(Parse(t).value, 0)
  {
    if Parse(t).Some? {
      TreeSound(t, 0);
      TreeFits(ReadDocument(t).value, 0);
    }
  }
}
