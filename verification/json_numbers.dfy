// The spellings of JSON numbers, section 6 of RFC 8259, how the parser reads them from the front of
// a text, and the value that it builds from them.
module JsonNumbers {
  import opened Wrappers
  import opened Utf8
  import opened Percent
  import opened JsonText

  datatype Exponent = Exponent(letter: CodePoint, sign: Text, digits: Text)

  datatype Number = Number(minus: bool, whole: Text, fraction: Option<Text>, exponent: Option<Exponent>)

  predicate AllDigits(t: Text) {
    forall k :: 0 <= k < |t| ==> Digit(t[k])
  }

  predicate GoodWhole(t: Text) {
    t == ['0' as int] || (t != [] && AllDigits(t) && t[0] != '0' as int)
  }

  predicate GoodDigits(t: Text) {
    t != [] && AllDigits(t)
  }

  predicate GoodExponent(e: Exponent) {
    && (e.letter == 'e' as int || e.letter == 'E' as int)
    && (e.sign == [] || e.sign == ['+' as int] || e.sign == ['-' as int])
    && GoodDigits(e.digits)
  }

  predicate WellSpelled(n: Number) {
    && GoodWhole(n.whole)
    && (n.fraction.Some? ==> GoodDigits(n.fraction.value))
    && (n.exponent.Some? ==> GoodExponent(n.exponent.value))
  }

  // ---- the value, as java.math.BigDecimal holds it: unscaled / 10^scale with a 32-bit scale ----

  const MAX_INT: int := 0x7FFF_FFFF
  const MIN_INT: int := -0x8000_0000

  datatype Decimal = Decimal(unscaled: int, scale: int)

  function DigitsValue(t: Text): nat
    requires AllDigits(t)
  {
    if t == [] then 0 else 10 * DigitsValue(t[..|t| - 1]) + (t[|t| - 1] - '0' as int)
  }

  function FractionDigits(n: Number): Text {
    if n.fraction.Some? then n.fraction.value else []
  }

  function ExponentValue(n: Number): int
    requires WellSpelled(n)
  {
    if n.exponent.None? then 0
    else
      var value: int := DigitsValue(n.exponent.value.digits);
      if n.exponent.value.sign == ['-' as int] then -value else value
  }

  function ScaleOf(n: Number): int
    requires WellSpelled(n)
  {
    |FractionDigits(n)| - ExponentValue(n)
  }

  // The constructor refuses an exponent or a scale that does not fit 32 bits.
  predicate InRange(n: Number)
    requires WellSpelled(n)
  {
    MIN_INT <= ExponentValue(n) <= MAX_INT && MIN_INT <= ScaleOf(n) <= MAX_INT
  }

  predicate GoodNumber(n: Number) {
    WellSpelled(n) && InRange(n)
  }

  function DecimalOf(n: Number): Decimal
    requires GoodNumber(n)
  {
    var digits: int := DigitsValue(n.whole + FractionDigits(n));
    Decimal(if n.minus then -digits else digits, ScaleOf(n))
  }

  // ---- reading ----

  function PrintExponent(e: Option<Exponent>): Text {
    if e.Some? then [e.value.letter] + e.value.sign + e.value.digits else []
  }

  function PrintFraction(f: Option<Text>): Text {
    if f.Some? then ['.' as int] + f.value else []
  }

  function PrintMinus(minus: bool): Text {
    if minus then ['-' as int] else []
  }

  function PrintNumber(n: Number): Text {
    PrintMinus(n.minus) + (n.whole + (PrintFraction(n.fraction) + PrintExponent(n.exponent)))
  }

  // How many digits `t` starts with.
  function Digits(t: Text): (n: nat)
    ensures n <= |t| && AllDigits(t[..n]) && (n < |t| ==> !Digit(t[n]))
  {
    if t == [] || !Digit(t[0]) then 0 else
      var n := Digits(t[1..]);
      assert t[..n + 1] == [t[0]] + t[1..][..n];
      n + 1
  }

  predicate StartsWith(t: Text, c: CodePoint) {
    t != [] && t[0] == c
  }

  function ReadWhole(t: Text): (r: Option<(Text, Text)>)
    ensures r.Some? ==> GoodWhole(r.value.0) && t == r.value.0 + r.value.1
  {
    if StartsWith(t, '0' as int) then
      if |t| > 1 && Digit(t[1]) then None else Some((t[..1], t[1..]))
    else if Digits(t) == 0 then None
    else Some((t[..Digits(t)], t[Digits(t)..]))
  }

  // A fraction is read only after a full stop, which must be followed by a digit.
  function ReadFraction(t: Text): (r: Option<(Option<Text>, Text)>)
    ensures r.Some? ==> t == PrintFraction(r.value.0) + r.value.1 && (r.value.0.Some? ==> GoodDigits(r.value.0.value))
  {
    if !StartsWith(t, '.' as int) then Some((None, t))
    else
      var s := t[1..];
      if Digits(s) == 0 then None
      else
        assert t == ['.' as int] + s[..Digits(s)] + s[Digits(s)..];
        Some((Some(s[..Digits(s)]), s[Digits(s)..]))
  }

  function ReadExponent(t: Text): (r: Option<(Option<Exponent>, Text)>)
    ensures r.Some? ==> t == PrintExponent(r.value.0) + r.value.1 && (r.value.0.Some? ==> GoodExponent(r.value.0.value))
  {
    if !StartsWith(t, 'e' as int) && !StartsWith(t, 'E' as int) then Some((None, t))
    else
      var signed := StartsWith(t[1..], '+' as int) || StartsWith(t[1..], '-' as int);
      var sign := if signed then [t[1]] else [];
      var s := if signed then t[2..] else t[1..];
      if Digits(s) == 0 then None
      else
        assert t == [t[0]] + sign + s[..Digits(s)] + s[Digits(s)..];
        Some((Some(Exponent(t[0], sign, s[..Digits(s)])), s[Digits(s)..]))
  }

  function ReadNumber(t: Text): (r: Option<(Number, Text)>)
    ensures r.Some? ==> GoodNumber(r.value.0) && |r.value.1| < |t|
  {
    var minus := StartsWith(t, '-' as int);
    var whole := ReadWhole(if minus then t[1..] else t);
    if whole.None? then None
    else
      var fraction := ReadFraction(whole.value.1);
      if fraction.None? then None
      else
        var exponent := ReadExponent(fraction.value.1);
        if exponent.None? then None
        else
          var n := Number(minus, whole.value.0, fraction.value.0, exponent.value.0);
          if InRange(n) then Some((n, exponent.value.1)) else None
  }

  lemma PrintsReadNumber(t: Text)
    requires ReadNumber(t).Some?
    ensures var (n, rest) := ReadNumber(t).value; t == PrintNumber(n) + rest
  {
    hide ReadWhole, ReadFraction, ReadExponent, PrintFraction, PrintExponent, GoodNumber;
    var (n, rest) := ReadNumber(t).value;
    var s := if n.minus then t[1..] else t;
    assert t == PrintMinus(n.minus) + s;
    Regroup(PrintFraction(n.fraction), PrintExponent(n.exponent), rest);
    Regroup(n.whole, PrintFraction(n.fraction) + PrintExponent(n.exponent), rest);
    Regroup(PrintMinus(n.minus), n.whole + (PrintFraction(n.fraction) + PrintExponent(n.exponent)), rest);
  }

  // What may follow a number: nothing that could extend it.
  predicate Stops(t: Text) {
    t == [] || (!Digit(t[0]) && t[0] != '.' as int && t[0] != 'e' as int && t[0] != 'E' as int)
  }

  lemma {:induction false} DigitsOf(a: Text, rest: Text)
    requires AllDigits(a) && (rest == [] || !Digit(rest[0]))
    ensures Digits(a + rest) == |a|
  {
    if a == [] {
      assert a + rest == rest;
    } else {
      DigitsOf(a[1..], rest);
      assert (a + rest)[1..] == a[1..] + rest;
    }
  }

  lemma ReadsWhole(whole: Text, rest: Text)
    requires GoodWhole(whole) && (rest == [] || !Digit(rest[0]))
    ensures ReadWhole(whole + rest) == Some((whole, rest))
  {
    DigitsOf(whole, rest);
    assert (whole + rest)[..|whole|] == whole && (whole + rest)[|whole|..] == rest;
  }

  lemma ReadsFraction(f: Option<Text>, rest: Text)
    requires f.Some? ==> GoodDigits(f.value)
    requires rest == [] || (!Digit(rest[0]) && rest[0] != '.' as int)
    ensures ReadFraction(PrintFraction(f) + rest) == Some((f, rest))
  {
    var t := PrintFraction(f) + rest;
    if f.Some? {
      assert t[1..] == f.value + rest;
      DigitsOf(f.value, rest);
      assert t[1..][..|f.value|] == f.value && t[1..][|f.value|..] == rest;
    } else {
      assert t == rest;
    }
  }

  // After the letter: an optional sign, then the digits.
  lemma SignAndDigits(sign: Text, digits: Text, rest: Text)
    requires sign == [] || sign == ['+' as int] || sign == ['-' as int]
    requires GoodDigits(digits) && Stops(rest)
    ensures var u := sign + (digits + rest);
            var signed := StartsWith(u, '+' as int) || StartsWith(u, '-' as int);
            && u != [] && (signed <==> sign != []) && (signed ==> [u[0]] == sign)
            && (if signed then u[1..] else u) == digits + rest
            && Digits(digits + rest) == |digits| && (digits + rest)[..|digits|] == digits && (digits + rest)[|digits|..] == rest
  {
    DigitsOf(digits, rest);
    hide Digits, AllDigits;
    assert (digits + rest)[0] == digits[0] && Digit(digits[0]) by {
      FirstDigit(digits);
    }
    if sign == [] {
      assert sign + (digits + rest) == digits + rest;
    }
  }

  lemma FirstDigit(t: Text)
    requires GoodDigits(t)
    ensures t != [] && Digit(t[0])
  {
  }

  lemma ReadsExponent(e: Option<Exponent>, rest: Text)
    requires (e.Some? ==> GoodExponent(e.value)) && Stops(rest)
    ensures ReadExponent(PrintExponent(e) + rest) == Some((e, rest))
  {
    if e.None? {
      assert PrintExponent(e) + rest == rest;
    } else {
      var Exponent(letter, sign, digits) := e.value;
      SignAndDigits(sign, digits, rest);
      Regroup(sign, digits, rest);
      Regroup([letter], sign + digits, rest);
      Regroup([letter], sign, digits);
      var u := sign + (digits + rest);
      var t := [letter] + u;
      assert PrintExponent(e) + rest == t;
      hide Digits, GoodDigits, PrintExponent, Stops;
      assert t[0] == letter && t[1..] == u;
      assert sign != [] ==> t[1] == u[0] && t[2..] == u[1..];
    }
  }

  // Maximal munch gives the number back.
  lemma ReadsNumber(n: Number, rest: Text)
    requires GoodNumber(n) && Stops(rest)
    ensures ReadNumber(PrintNumber(n) + rest) == Some((n, rest))
  {
    assert InRange(n);
    hide InRange;
    var tail := PrintExponent(n.exponent) + rest;
    ReadsExponent(n.exponent, rest);
    var middle := PrintFraction(n.fraction) + tail;
    TailStops(n.exponent, rest);
    ReadsFraction(n.fraction, tail);
    MiddleStops(n.fraction, tail);
    ReadsWhole(n.whole, middle);
    assert StartsWith(n.whole + middle, '-' as int) == false;
    hide ReadWhole, ReadFraction, ReadExponent, PrintFraction, PrintExponent, GoodWhole, GoodDigits, GoodExponent;
    Regroup(PrintFraction(n.fraction), PrintExponent(n.exponent), rest);
    Regroup(n.whole, PrintFraction(n.fraction) + PrintExponent(n.exponent), rest);
    Regroup(PrintMinus(n.minus), n.whole + (PrintFraction(n.fraction) + PrintExponent(n.exponent)), rest);
    var t := PrintMinus(n.minus) + (n.whole + middle);
    assert PrintNumber(n) + rest == t;
    if n.minus {
      assert t[1..] == n.whole + middle;
    } else {
      assert t == n.whole + middle;
    }
  }

  lemma TailStops(e: Option<Exponent>, rest: Text)
    requires (e.Some? ==> GoodExponent(e.value)) && Stops(rest)
    ensures var t := PrintExponent(e) + rest; t == [] || (!Digit(t[0]) && t[0] != '.' as int)
  {
  }

  lemma MiddleStops(f: Option<Text>, tail: Text)
    requires tail == [] || !Digit(tail[0])
    ensures var t := PrintFraction(f) + tail; t == [] || !Digit(t[0])
  {
  }

  // ---- the value is the one that the digits spell ----

  ghost function PowerOfTen(k: int): (p: real)
    ensures p > 0.0
    decreases if k < 0 then -k else k
  {
    if k == 0 then 1.0 else if k > 0 then 10.0 * PowerOfTen(k - 1) else PowerOfTen(k + 1) / 10.0
  }

  // A product by name: the proofs below use its laws only.
  ghost function Times(x: real, y: real): real {
    x * y
  }

  // The digits before the full stop, those after it as a fraction, and the power of ten.
  ghost function SpelledValue(n: Number): real
    requires WellSpelled(n)
  {
    var fraction := FractionDigits(n);
    var digits := DigitsValue(n.whole) as real + Times(DigitsValue(fraction) as real, PowerOfTen(-|fraction|));
    Times(if n.minus then -digits else digits, PowerOfTen(ExponentValue(n)))
  }

  ghost function ValueOf(d: Decimal): real {
    Times(d.unscaled as real, PowerOfTen(-d.scale))
  }

  lemma PowersStep(k: int)
    ensures PowerOfTen(k + 1) == 10.0 * PowerOfTen(k)
  {
  }

  lemma TimesLaws(x: real, y: real)
    ensures 10.0 * Times(x, y) == Times(x, 10.0 * y) && Times(x, 1.0) == x && Times(-x, y) == -Times(x, y)
  {
  }

  lemma {:induction false} PowersAdd(a: int, b: int)
    ensures PowerOfTen(a + b) == Times(PowerOfTen(a), PowerOfTen(b))
    decreases if b < 0 then -b else b
  {
    hide Times;
    if b == 0 {
      TimesLaws(PowerOfTen(a), 1.0);
      assert PowerOfTen(b) == 1.0;
    } else {
      var c := if b > 0 then b - 1 else b;
      PowersAdd(a, if b > 0 then b - 1 else b + 1);
      PowersStep(a + c);
      PowersStep(c);
      hide PowerOfTen;
      TimesLaws(PowerOfTen(a), PowerOfTen(c));
      assert a + c + 1 == a + (c + 1);
    }
  }

  lemma ShiftDigit(w: real, p: real, q: real, front: real, digit: real, all: real)
    requires q == 10.0 * p && all == 10.0 * (Times(w, p) + front) + digit
    ensures all == Times(w, q) + (10.0 * front + digit)
  {
    TimesLaws(w, p);
    hide Times;
  }

  lemma {:induction false} DigitsJoin(a: Text, b: Text)
    requires AllDigits(a) && AllDigits(b)
    ensures AllDigits(a + b)
    ensures DigitsValue(a + b) as real == Times(DigitsValue(a) as real, PowerOfTen(|b|)) + DigitsValue(b) as real
    decreases |b|
  {
    if b == [] {
      assert a + b == a;
      TimesLaws(DigitsValue(a) as real, 1.0);
      assert PowerOfTen(0) == 1.0;
      hide Times;
    } else {
      var n := |b| - 1;
      DigitsJoin(a, b[..n]);
      assert (a + b)[..|a| + n] == a + b[..n] && (a + b)[|a| + n] == b[n];
      PowersStep(n);
      var last := (b[n] - '0' as int) as real;
      assert DigitsValue(a + b) as real == 10.0 * DigitsValue(a + b[..n]) as real + last;
      assert DigitsValue(b) as real == 10.0 * DigitsValue(b[..n]) as real + last;
      hide DigitsValue, PowerOfTen, AllDigits, Times;
      ShiftDigit(DigitsValue(a) as real, PowerOfTen(n), PowerOfTen(n + 1), DigitsValue(b[..n]) as real, last, DigitsValue(a + b) as real);
    }
  }

  lemma ScalesBack(u: real, p: real, w: real, f: real, up: real, down: real, e: real)
    requires u == Times(w, up) + f && p == Times(e, down) && Times(up, down) == 1.0
    ensures Times(u, p) == Times(w + Times(f, down), e)
  {
    assert (w * up) * (e * down) == w * (up * down) * e;
    assert f * (e * down) == (f * down) * e;
  }

  // What BigDecimal holds is the number that the text spells.
  lemma {:induction false} ValueIsSpelled(n: Number)
    requires GoodNumber(n)
    ensures ValueOf(DecimalOf(n)) == SpelledValue(n)
  {
    var k, e := |FractionDigits(n)|, ExponentValue(n);
    var u := DigitsValue(n.whole + FractionDigits(n)) as real;
    var w, f := DigitsValue(n.whole) as real, DigitsValue(FractionDigits(n)) as real;
    DigitsJoin(n.whole, FractionDigits(n));
    PowersAdd(k, -k);
    PowersAdd(e, -k);
    assert -ScaleOf(n) == e + -k && PowerOfTen(k + -k) == 1.0;
    hide DigitsValue, PowerOfTen, GoodNumber, FractionDigits, ExponentValue, ScaleOf, Times;
    ScalesBack(u, PowerOfTen(e + -k), w, f, PowerOfTen(k), PowerOfTen(-k), PowerOfTen(e));
    TimesLaws(u, PowerOfTen(e + -k));
    TimesLaws(w + Times(f, PowerOfTen(-k)), PowerOfTen(e));
  }

  // ---- a spelling for every value ----

  function DecimalText(n: nat): (t: Text)
    ensures GoodWhole(t) && GoodDigits(t) && (n > 0 ==> t[0] != '0' as int)
  {
    if n < 10 then [n + '0' as int]
    else
      var front := DecimalText(n / 10);
      front + [n % 10 + '0' as int]
  }

  lemma {:induction false} DecimalTextValue(n: nat)
    ensures DigitsValue(DecimalText(n)) == n
  {
    if n >= 10 {
      DecimalTextValue(n / 10);
      var t := DecimalText(n);
      assert t[..|t| - 1] == DecimalText(n / 10);
    } else {
      assert DecimalText(n)[..0] == [];
    }
  }

  // Every scale that some text reaches.
  predicate Reachable(d: Decimal) {
    -MAX_INT <= d.scale <= MAX_INT
  }

  function Spelled(d: Decimal): Number {
    Number(d.unscaled < 0, DecimalText(if d.unscaled < 0 then -d.unscaled else d.unscaled), None,
           if d.scale == 0 then None
           else Some(Exponent('e' as int, if d.scale > 0 then ['-' as int] else [], DecimalText(if d.scale < 0 then -d.scale else d.scale))))
  }

  lemma SpelledScale(d: Decimal)
    ensures var n := Spelled(d);
            WellSpelled(n) && FractionDigits(n) == [] && ExponentValue(n) == -d.scale && ScaleOf(n) == d.scale
  {
    DecimalTextValue(if d.scale < 0 then -d.scale else d.scale);
    hide DecimalText, DigitsValue, AllDigits, GoodWhole, GoodDigits;
  }

  lemma SpelledIsGood(d: Decimal)
    requires Reachable(d)
    ensures GoodNumber(Spelled(d)) && DecimalOf(Spelled(d)) == d
  {
    var n := Spelled(d);
    SpelledScale(d);
    DecimalTextValue(if d.unscaled < 0 then -d.unscaled else d.unscaled);
    assert n.whole + FractionDigits(n) == n.whole;
    hide DecimalText, DigitsValue, AllDigits, WellSpelled, ExponentValue, ScaleOf, FractionDigits;
  }

  lemma GoodIsReachable(n: Number)
    requires GoodNumber(n)
    ensures Reachable(DecimalOf(n))
  {
  }

  // A power of ten is accepted exactly if its exponent is at most 2147483647, with either sign.
  lemma PowersInRange(exponent: nat, negative: bool)
    ensures var n := Number(false, [0x31], None, Some(Exponent(0x65, if negative then [0x2D] else [], DecimalText(exponent))));
            WellSpelled(n) && (GoodNumber(n) <==> exponent <= 2147483647)
  {
    OneIsWhole();
    hide DecimalText, DigitsValue, AllDigits, GoodDigits, GoodWhole;
    DecimalTextValue(exponent);
    var n := Number(false, [0x31], None, Some(Exponent(0x65, if negative then [0x2D] else [], DecimalText(exponent))));
    assert FractionDigits(n) == [] && WellSpelled(n);
    var e: int := exponent;
    assert ExponentValue(n) == if negative then -e else e;
  }

  lemma OneIsWhole()
    ensures GoodWhole([0x31])
  {
    assert Digit(0x31);
  }
}
