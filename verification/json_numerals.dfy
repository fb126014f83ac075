// The numbers and the blanks that the parser reads, in the numbers of sections 2 and 6 of RFC 8259.
module JsonNumerals {
  import opened Wrappers
  import opened Utf8
  import opened Percent
  import opened JsonText
  import opened JsonNumbers
  import opened JsonGrammar
  import opened JsonValues
  import opened JsonEscapes
  import opened JsonCompact

  predicate Blanks(t: Text) {
    forall k :: 0 <= k < |t| ==> t[k] in {0x20, 0x09, 0x0A, 0x0D}
  }

  predicate Decimals(t: Text) {
    t != [] && forall k :: 0 <= k < |t| ==> 0x30 <= t[k] <= 0x39
  }

  // The number that the digits of `t` write to the base ten.
  function Written(t: Text): int {
    if t == [] then 0 else 10 * Written(t[..|t| - 1]) + (t[|t| - 1] as int - 0x30)
  }

  function Power(e: Option<Exponent>): int {
    if e.None? then 0 else if e.value.sign == [0x2D] then -Written(e.value.digits) else Written(e.value.digits)
  }

  // `t` is a numeral with these parts, and its value is unscaled / 10^scale, both exponent and scale within 32 bits.
  predicate DenotedBy(t: Text, d: Decimal, n: Number) {
    var fraction := if n.fraction.Some? then n.fraction.value else [];
    && Decimals(n.whole) && (n.whole[0] == 0x30 ==> |n.whole| == 1)
    && (n.fraction.Some? ==> Decimals(n.fraction.value))
    && (n.exponent.Some? ==>
          n.exponent.value.letter in {0x65, 0x45} && n.exponent.value.sign in {[], [0x2B], [0x2D]} && Decimals(n.exponent.value.digits))
    && t == (if n.minus then [0x2D] else [])
            + (n.whole
               + ((if n.fraction.Some? then [0x2E] + n.fraction.value else [])
                  + (if n.exponent.Some? then [n.exponent.value.letter] + n.exponent.value.sign + n.exponent.value.digits else [])))
    && d.unscaled == (if n.minus then -Written(n.whole + fraction) else Written(n.whole + fraction))
    && d.scale == |fraction| - Power(n.exponent)
    && -0x8000_0000 <= Power(n.exponent) <= 0x7FFF_FFFF && -0x8000_0000 <= d.scale <= 0x7FFF_FFFF
  }

  ghost predicate Denotes(t: Text, d: Decimal) {
    exists n :: DenotedBy(t, d, n)
  }

  // ---- the grammar's parts, in numbers ----

  lemma BlanksAreWhite(t: Text)
    ensures Blanks(t) <==> AllWhite(t)
  {
    assert forall c: CodePoint :: White(c) <==> c in {0x20, 0x09, 0x0A, 0x0D};
  }

  lemma DecimalsAreDigits(t: Text)
    ensures Decimals(t) <==> GoodDigits(t)
  {
  }

  lemma {:induction false} WrittenIsValue(t: Text)
    requires AllDigits(t)
    ensures Written(t) == DigitsValue(t)
  {
    if t != [] {
      WrittenIsValue(t[..|t| - 1]);
    }
  }

  lemma PowerIsExponent(n: Number)
    requires WellSpelled(n)
    ensures Power(n.exponent) == ExponentValue(n)
  {
    if n.exponent.Some? {
      WrittenIsValue(n.exponent.value.digits);
    }
  }

  lemma SpelledInNumbers(n: Number)
    ensures WellSpelled(n) <==>
              && Decimals(n.whole) && (n.whole[0] == 0x30 ==> |n.whole| == 1)
              && (n.fraction.Some? ==> Decimals(n.fraction.value))
              && (n.exponent.Some? ==>
                    n.exponent.value.letter in {0x65, 0x45} && n.exponent.value.sign in {[], [0x2B], [0x2D]}
                    && Decimals(n.exponent.value.digits))
  {
    DecimalsAreDigits(n.whole);
    if n.fraction.Some? {
      DecimalsAreDigits(n.fraction.value);
    }
    if n.exponent.Some? {
      DecimalsAreDigits(n.exponent.value.digits);
    }
  }

  lemma DigitsAreAll(n: Number)
    requires WellSpelled(n)
    ensures AllDigits(n.whole + FractionDigits(n))
  {
  }

  lemma DenotedExactly(t: Text, d: Decimal, n: Number)
    ensures DenotedBy(t, d, n) <==> GoodNumber(n) && t == PrintNumber(n) && d == DecimalOf(n)
  {
    SpelledInNumbers(n);
    if WellSpelled(n) {
      DigitsAreAll(n);
      PowerIsExponent(n);
      WrittenIsValue(n.whole + FractionDigits(n));
    }
    hide WellSpelled, Decimals, Written, DigitsValue, Power, ExponentValue, AllDigits;
  }

  // ---- documents ----

  // The document is a numeral of this value between blanks.
  ghost predicate Padded(t: Text, d: Decimal, lead: Text, numeral: Text, tail: Text) {
    Blanks(lead) && Blanks(tail) && t == lead + (numeral + tail) && Denotes(numeral, d)
  }

  lemma NumberTree(tree: Tree, d: Decimal)
    requires GoodTree(tree, 0) && TreeValue(tree, 0) == JNumber(d)
    ensures tree.body.Num? && GoodNumber(tree.body.number) && d == DecimalOf(tree.body.number) && AllWhite(tree.lead)
  {
    hide GoodChain, GoodEntries, ChainValue, EntriesValue, GoodNumber, DecimalOf;
  }

  // A document parses to a number if and only if it is a numeral of that value between blanks.
  lemma {:induction false} NumbersExactly(t: Text, d: Decimal)
    ensures Parse(t) == Some(JNumber(d)) <==> exists lead, numeral, tail :: Padded(t, d, lead, numeral, tail)
  {
    hide Parse, PrintNumber, GoodNumber, DecimalOf, DenotedBy, AllWhite, Blanks, ReadDocument;
    if Parse(t) == Some(JNumber(d)) {
      var tree, tail := ReadNumberBack(t, d);
      var n := tree.body.number;
      DenotedExactly(PrintNumber(n), d, n);
      BlanksAreWhite(tree.lead);
      BlanksAreWhite(tail);
      assert Padded(t, d, tree.lead, PrintNumber(n), tail);
    }
    if lead, numeral, tail :| Padded(t, d, lead, numeral, tail) {
      var n :| DenotedBy(numeral, d, n);
      DenotedExactly(numeral, d, n);
      BlanksAreWhite(lead);
      BlanksAreWhite(tail);
      ReadsPadded(lead, n, tail);
    }
  }

  lemma ReadNumberBack(t: Text, d: Decimal) returns (tree: Tree, tail: Text)
    requires Parse(t) == Some(JNumber(d))
    ensures tree.body.Num? && GoodNumber(tree.body.number) && d == DecimalOf(tree.body.number) && AllWhite(tree.lead) && AllWhite(tail)
    ensures t == tree.lead + (PrintNumber(tree.body.number) + tail)
  {
    hide Parse, PrintNumber, GoodNumber, DecimalOf, GoodTree, TreeValue, Skip, AllWhite;
    tree, tail := ReadBack(t, JNumber(d));
    NumberTree(tree, d);
    TailIsWhite(tail);
  }

  lemma NumberIsTree(lead: Text, n: Number)
    requires GoodNumber(n) && AllWhite(lead)
    ensures GoodTree(Tree(lead, Num(n)), 0) && TreeValue(Tree(lead, Num(n)), 0) == JNumber(DecimalOf(n))
  {
  }

  lemma ReadsPadded(lead: Text, n: Number, tail: Text)
    requires GoodNumber(n) && AllWhite(lead) && AllWhite(tail)
    ensures Parse(lead + (PrintNumber(n) + tail)) == Some(JNumber(DecimalOf(n)))
  {
    hide PrintNumber, GoodNumber, DecimalOf, AllWhite, ReadDocument;
    var tree := Tree(lead, Num(n));
    var t := lead + (PrintNumber(n) + tail);
    NumberIsTree(lead, n);
    assert PrintTree(tree, tail) == t;
    hide PrintTree, GoodTree, TreeValue;
    ReadsExactly(t, tree);
  }

  // Blanks around a document do not change its value, and no other single character before it is a blank.
  lemma {:induction false} BlanksAround(lead: Text, v: Json, tail: Text, c: CodePoint)
    requires Fits(v, 0) && Blanks(lead) && Blanks(tail)
    ensures Parse(lead + (Compact(v) + tail)) == Some(v)
    ensures Parse([c] + Compact(JNull)) == Some(JNull) <==> c in {0x20, 0x09, 0x0A, 0x0D}
  {
    ReadsAround(lead, v, tail);
    if c in {0x20, 0x09, 0x0A, 0x0D} {
      ReadsAround([c], JNull, []);
      assert Compact(JNull) + [] == Compact(JNull);
    } else {
      NoOtherBlank(c);
    }
    hide Parse, Compact;
  }

  lemma ReadsAround(lead: Text, v: Json, tail: Text)
    requires Fits(v, 0) && Blanks(lead) && Blanks(tail)
    ensures Parse(lead + (Compact(v) + tail)) == Some(v)
  {
    BlanksAreWhite(lead);
    BlanksAreWhite(tail);
    TidyIsGood(v, 0);
    CompactIsPrinted(v, tail);
    hide Compact, Fits, AllWhite, Blanks, GoodBody, BodyValue, PrintBody;
    var tree := Tidy(v).(lead := lead);
    var t := lead + (Compact(v) + tail);
    assert Tidy(v).lead == [];
    assert PrintTree(Tidy(v), tail) == PrintBody(tree.body, tail);
    ReadsExactly(t, tree);
    hide ReadTree;
    assert ReadDocument(t) == Some(tree);
  }

  lemma NoOtherBlank(c: CodePoint)
    requires c !in {0x20, 0x09, 0x0A, 0x0D}
    ensures Parse([c] + Compact(JNull)) != Some(JNull)
  {
    hide Parse, PrintTree, Skip;
    var t := [c] + Compact(JNull);
    if Parse(t) == Some(JNull) {
      var tree, tail := ReadBack(t, JNull);
      NullTree(tree);
      BlanksAreWhite(tree.lead);
      NullPrints(tree, tail);
      NullLead(c, tree.lead, tail);
      hide GoodTree, TreeValue, AllWhite;
    }
  }

  lemma NullLead(c: CodePoint, lead: Text, tail: Text)
    ensures [c] + NULL == lead + (NULL + tail) ==> lead != [] && lead[0] == c
  {
    var t, s := [c] + NULL, lead + (NULL + tail);
    assert t[0] == c && t[1] == 0x6E;
    assert lead != [] ==> s[0] == lead[0];
    assert lead == [] ==> s[1] == 0x75;
  }

  lemma NullTree(tree: Tree)
    requires GoodTree(tree, 0) && TreeValue(tree, 0) == JNull
    ensures tree.body.Null? && AllWhite(tree.lead)
  {
    hide GoodChain, GoodEntries, ChainValue, EntriesValue, GoodNumber, DecimalOf;
  }

  lemma NullPrints(tree: Tree, tail: Text)
    requires tree.body.Null?
    ensures PrintTree(tree, tail) == tree.lead + (NULL + tail)
  {
  }
}
