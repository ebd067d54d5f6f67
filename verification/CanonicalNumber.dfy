// mcptest/jsonvalue.go: one spelling for every number, and for the numbers of a whole document.
module CanonicalNumber {
  import opened Wrappers
  import opened Decimal

  const BOUND: int := 0x4000_0000

  // ----- The canonical literal -----

  // The digits without the zeros behind them, and the power that makes up for those.
  function Stripped(digits: string, power: int): (string, int) {
    if digits != "" && digits[|digits| - 1] == '0' then Stripped(digits[..|digits| - 1], power + 1)
    else (digits, power)
  }

  function PowerLiteral(power: int): Exponent {
    if power < 0 then Exponent('e', Some('-'), Itoa(-power)) else Exponent('e', None, Itoa(power))
  }

  const ZERO := Literal(false, "0", None, None)

  function Scaled(negative: bool, digits: string, power: int): Literal {
    if digits == "" then ZERO else Literal(negative, digits, None, Some(PowerLiteral(power)))
  }

  function Rest(l: Literal): (string, int) {
    Stripped(TrimLeft(l.whole + Fraction(l)), Power(l) - |Fraction(l)|)
  }

  function Normal(l: Literal): Literal {
    Scaled(l.negative, Rest(l).0, Rest(l).1)
  }

  predicate Bounded(l: Literal) {
    -BOUND <= Power(l) <= BOUND
  }

  function CanonicalLiteral(l: Literal): Literal {
    if Bounded(l) then Normal(l) else l
  }

  // ----- The value is kept -----

  lemma LastDigit(n: int, d: int)
    requires 0 < d < 10
    ensures (10 * n + d) % 10 != 0
  {
  }

  lemma {:induction false} StrippedDigits(digits: string, power: int)
    requires AllDigits(digits)
    ensures var d := Stripped(digits, power).0;
            AllDigits(d) && (d != "" ==> d[0] == digits[0] && Number(d) % 10 != 0)
  {
    if digits == "" {
    } else {
      var front := digits[..|digits| - 1];
      if digits[|digits| - 1] == '0' {
        StrippedDigits(front, power + 1);
      } else {
        LastDigit(Number(front), Digit(digits[|digits| - 1]));
      }
    }
  }

  lemma {:induction false} StrippedValue(digits: string, power: int, negative: bool)
    ensures Scale(Signed(negative, Number(Stripped(digits, power).0)), Stripped(digits, power).1)
         == Scale(Signed(negative, Number(digits)), power)
  {
    if digits != "" && digits[|digits| - 1] == '0' {
      var front := digits[..|digits| - 1];
      StrippedValue(front, power + 1, negative);
      ScaleStep(Signed(negative, Number(front)), power);
      assert Number(digits) == 10 * Number(front);
    }
  }

  lemma PowerLiteralProper(power: int)
    ensures ProperExponent(PowerLiteral(power))
    ensures forall negative, digits :: Power(Literal(negative, digits, None, Some(PowerLiteral(power)))) == power
  {
  }

  lemma DigitsProper(l: Literal)
    requires Proper(l)
    ensures AllDigits(l.whole + Fraction(l))
  {
  }

  predicate InNormalForm(l: Literal) {
    l == ZERO ||
    (&& IsDigits(l.whole) && l.whole[0] != '0' && Number(l.whole) % 10 != 0
     && l.fraction == None && l.exponent == Some(PowerLiteral(Power(l))))
  }

  lemma RestDigits(l: Literal)
    requires Proper(l)
    ensures AllDigits(Rest(l).0)
    ensures Rest(l).0 != "" ==> Rest(l).0[0] != '0' && Number(Rest(l).0) % 10 != 0
  {
    DigitsProper(l);
    var all := TrimLeft(l.whole + Fraction(l));
    StrippedDigits(all, Power(l) - |Fraction(l)|);
  }

  lemma NormalProper(l: Literal)
    requires Proper(l)
    ensures InNormalForm(Normal(l))
  {
    RestDigits(l);
    PowerLiteralProper(Rest(l).1);
  }

  lemma NormalFormProper(l: Literal)
    requires InNormalForm(l)
    ensures WellFormed(l)
  {
    PowerLiteralProper(Power(l));
  }

  lemma ZeroNumber()
    ensures Number("0") == 0
  {
    assert Number("0") == 10 * Number("") + 0;
  }

  lemma WholeDenotes(l: Literal)
    requires l.fraction.None?
    ensures Denotes(l) == Scale(Signed(l.negative, Number(l.whole)), Power(l))
  {
    assert l.whole + Fraction(l) == l.whole;
  }

  lemma ZeroDenotes()
    ensures Denotes(ZERO) == 0.0
  {
    WholeDenotes(ZERO);
    ZeroNumber();
    ScaleZero(0, 0);
  }

  lemma ScaledDenotes(negative: bool, digits: string, power: int)
    ensures Denotes(Scaled(negative, digits, power)) == Scale(Signed(negative, Number(digits)), power)
  {
    if digits == "" {
      ZeroDenotes();
      ScaleZero(0, power);
    } else {
      PowerLiteralProper(power);
      WholeDenotes(Literal(negative, digits, None, Some(PowerLiteral(power))));
    }
  }

  lemma NormalKeepsValue(l: Literal)
    requires Proper(l)
    ensures Denotes(Normal(l)) == Denotes(l)
  {
    StrippedValue(TrimLeft(l.whole + Fraction(l)), Power(l) - |Fraction(l)|, l.negative);
    TrimLeftNumber(l.whole + Fraction(l));
    ScaledDenotes(l.negative, Rest(l).0, Rest(l).1);
  }

  // Every number keeps its value, whatever its exponent.
  lemma ValueKept(l: Literal)
    requires Proper(l)
    ensures Proper(CanonicalLiteral(l)) && Denotes(CanonicalLiteral(l)) == Denotes(l)
  {
    NormalProper(l);
    NormalFormProper(Normal(l));
    NormalKeepsValue(l);
  }

  // ----- One spelling for one value -----

  lemma TensEnd(n: int, p: int)
    ensures (n * (10 * p)) % 10 == 0
  {
    assert n * (10 * p) == 10 * (n * p);
  }

  lemma ScaledApart(m: int, e: int, n: int, f: int)
    requires m % 10 != 0 && e < f
    ensures Scale(m, e) != Scale(n, f)
  {
    var k := f - e;
    ScaleSteps(n, e, k);
    ScaleCancels(m, n * Pow10(k), e);
    TensEnd(n, Pow10(k - 1));
  }

  lemma SameScale(m: int, e: int, n: int, f: int)
    requires m % 10 != 0 && n % 10 != 0 && Scale(m, e) == Scale(n, f)
    ensures m == n && e == f
  {
    if e < f {
      ScaledApart(m, e, n, f);
    } else if f < e {
      ScaledApart(n, f, m, e);
    } else {
      ScaleCancels(m, n, e);
    }
  }

  lemma ZeroAlone(l: Literal)
    requires InNormalForm(l)
    ensures Denotes(l) == 0.0 <==> l == ZERO
  {
    if l == ZERO {
      ZeroDenotes();
    } else {
      WholeDenotes(l);
      ScaleZero(Signed(l.negative, Number(l.whole)), Power(l));
    }
  }

  lemma SignApart(negative: bool, n: nat, minus: bool, m: nat)
    requires n > 0 && Signed(negative, n) == Signed(minus, m)
    ensures negative == minus && n == m
  {
  }

  lemma SignedEnd(negative: bool, n: int)
    requires n % 10 != 0
    ensures Signed(negative, n) % 10 != 0
  {
  }

  lemma NormalFormsApart(l: Literal, k: Literal)
    requires InNormalForm(l) && InNormalForm(k) && l != ZERO && k != ZERO && Denotes(l) == Denotes(k)
    ensures l == k
  {
    WholeDenotes(l);
    WholeDenotes(k);
    SignedEnd(l.negative, Number(l.whole));
    SignedEnd(k.negative, Number(k.whole));
    SameScale(Signed(l.negative, Number(l.whole)), Power(l), Signed(k.negative, Number(k.whole)), Power(k));
    NumberBounds(l.whole);
    NumberBounds(k.whole);
    SignApart(l.negative, Number(l.whole), k.negative, Number(k.whole));
    SpelledAlike(l.whole, k.whole);
  }

  lemma NormalUnique(l: Literal, k: Literal)
    requires Proper(l) && Proper(k) && Denotes(l) == Denotes(k)
    ensures Normal(l) == Normal(k)
  {
    NormalProper(l);
    NormalProper(k);
    NormalKeepsValue(l);
    NormalKeepsValue(k);
    ZeroAlone(Normal(l));
    ZeroAlone(Normal(k));
    if Denotes(l) != 0.0 {
      NormalFormsApart(Normal(l), Normal(k));
    }
  }

  // A literal the canonical form reads, or leaves alone without harm.
  predicate Tame(l: Literal) {
    Bounded(l) || InNormalForm(l)
  }

  lemma InFormIsNormal(l: Literal)
    requires Proper(l) && InNormalForm(l)
    ensures Normal(l) == l
  {
    NormalProper(l);
    NormalKeepsValue(l);
    ZeroAlone(l);
    ZeroAlone(Normal(l));
    if l != ZERO {
      NormalFormsApart(Normal(l), l);
    }
  }

  // What is left as it was written is no number in the form.
  lemma CanonicalApart(l: Literal)
    requires Proper(l)
    ensures Tame(l) ==> CanonicalLiteral(l) == Normal(l) && InNormalForm(Normal(l))
    ensures !Tame(l) ==> CanonicalLiteral(l) == l && !InNormalForm(l)
  {
    NormalProper(l);
    if Tame(l) && !Bounded(l) {
      InFormIsNormal(l);
    }
  }

  lemma SameLiteral(l: Literal, k: Literal)
    requires Proper(l) && Proper(k)
    ensures CanonicalLiteral(l) == CanonicalLiteral(k)
       <==> Denotes(l) == Denotes(k) && ((Tame(l) && Tame(k)) || l == k)
  {
    CanonicalApart(l);
    CanonicalApart(k);
    if Tame(l) && Tame(k) {
      NormalKeepsValue(l);
      NormalKeepsValue(k);
      if Denotes(l) == Denotes(k) {
        NormalUnique(l, k);
      }
    }
  }

  // Two tame literals are rewritten alike exactly when they denote one value; any other literal is
  // told apart from everything but itself.
  lemma SameSpelling(l: Literal, k: Literal)
    requires Proper(l) && Proper(k)
    ensures Spell(CanonicalLiteral(l)) == Spell(CanonicalLiteral(k))
       <==> Denotes(l) == Denotes(k) && ((Tame(l) && Tame(k)) || l == k)
  {
    ValueKept(l);
    ValueKept(k);
    if Spell(CanonicalLiteral(l)) == Spell(CanonicalLiteral(k)) {
      SpellInjective(CanonicalLiteral(l), CanonicalLiteral(k));
    }
    SameLiteral(l, k);
  }

  lemma TenDigits()
    ensures "1" + "0" == "10" && Number("1") == 1 && Number("10") == 10
  {
    assert Number("1") == 10 * Number("") + 1;
    assert "10"[..1] == "1";
  }

  // One and one point nought are one value at any power.
  lemma OneWithNought(x: Exponent)
    requires ProperExponent(x)
    ensures var l, k := Literal(false, "1", None, Some(x)), Literal(false, "1", Some("0"), Some(x));
            WellFormed(l) && WellFormed(k) && Power(l) == Power(k) && Denotes(l) == Denotes(k)
  {
    var l := Literal(false, "1", None, Some(x));
    WholeDenotes(l);
    TenDigits();
    ScaleStep(1, Power(l) - 1);
  }

  // The bound is felt: two spellings of one value beyond it stay two.
  lemma BeyondTheBound(power: nat)
    requires power > BOUND
    ensures var x := Some(PowerLiteral(power));
            var l, k := Literal(false, "1", None, x), Literal(false, "1", Some("0"), x);
            && WellFormed(l) && WellFormed(k) && Denotes(l) == Denotes(k)
            && Spell(CanonicalLiteral(l)) != Spell(CanonicalLiteral(k))
  {
    var x := PowerLiteral(power);
    var l, k := Literal(false, "1", None, Some(x)), Literal(false, "1", Some("0"), Some(x));
    PowerLiteralProper(power);
    OneWithNought(x);
    SameSpelling(l, k);
  }

  // ----- The rewriting itself -----

  lemma BoundedScaled(l: Literal, all: string, power: int, digits: string, exponent: int)
    requires Bounded(l) && all == l.whole + Fraction(l) && power == Power(l) - |Fraction(l)|
    requires (digits, exponent) == Stripped(TrimLeft(all), power)
    ensures CanonicalLiteral(l) == Scaled(l.negative, digits, exponent)
  {
  }

  lemma SpellScaled(negative: bool, digits: string, power: int)
    ensures Spell(Scaled(negative, digits, power))
         == if digits == "" then "0" else SignOf(negative) + digits + "e" + DecimalText(power)
  {
    if digits == "" {
      assert Mantissa(ZERO) == "0";
    } else {
      assert PowerText(PowerLiteral(power)) == DecimalText(power);
      assert digits + "" == digits;
      var text := SignOf(negative) + digits;
      assert text + ("e" + DecimalText(power)) == text + "e" + DecimalText(power);
    }
  }

  lemma SpellCanonical(l: Literal, all: string, power: int, sign: string, digits: string, exponent: int)
    requires Bounded(l) && sign == SignOf(l.negative)
    requires all == l.whole + Fraction(l) && power == Power(l) - |Fraction(l)|
    requires (digits, exponent) == Stripped(TrimLeft(all), power)
    ensures (if digits == "" then "0" else sign + digits + "e" + DecimalText(exponent)) == Spell(CanonicalLiteral(l))
  {
    BoundedScaled(l, all, power, digits, exponent);
    SpellScaled(l.negative, digits, exponent);
  }

  method DropTrailingZeros(all: string, power: int) returns (digits: string, exponent: int)
    ensures (digits, exponent) == Stripped(all, power)
  {
    digits, exponent := all, power;
    while digits != "" && digits[|digits| - 1] == '0'
      invariant Stripped(digits, exponent) == Stripped(all, power)
      decreases |digits|
    {
      digits := digits[..|digits| - 1];
      exponent := exponent + 1;
    }
  }

  lemma PowerTail(tail: string)
    requires tail != ""
    ensures PowerOf(tail).Some? && PowerText(PowerOf(tail).value) == tail[1..]
  {
    if |tail| > 1 && tail[1] in SIGNS {
      assert [tail[1]] + tail[2..] == tail[1..];
    }
  }

  lemma PowerRead(text: string, body: string, i: nat)
    requires IsNumber(text) && body == Unsigned(text) && i == Find(body, E_MARKS) && i < |body|
    ensures var parsed := Atoi(body[i + 1..]);
            && (Bounded(TakeApart(text)) <==> parsed.Some? && -BOUND <= parsed.value <= BOUND)
            && (Bounded(TakeApart(text)) ==> parsed.value == Power(TakeApart(text)))
  {
    var tail := From(body, E_MARKS);
    PowerTail(tail);
    AtoiPower(TakeApart(text));
  }

  lemma LeftAsWritten(text: string, body: string, i: nat)
    requires IsNumber(text) && body == Unsigned(text) && i == Find(body, E_MARKS) && i < |body|
    requires Atoi(body[i + 1..]) == None || !(-BOUND <= Atoi(body[i + 1..]).value <= BOUND)
    ensures text == Spell(CanonicalLiteral(TakeApart(text)))
  {
    PowerRead(text, body, i);
    Reassembled(text);
  }

  lemma NoPower(text: string, body: string)
    requires body == Unsigned(text) && Find(body, E_MARKS) == |body|
    ensures Bounded(TakeApart(text)) && Power(TakeApart(text)) == 0
  {
  }

  lemma MantissaRead(text: string, mantissa: string, j: nat)
    requires mantissa == Before(Unsigned(text), E_MARKS) && j == Find(mantissa, DOT)
    ensures var l := TakeApart(text);
            if j < |mantissa| then
              l.whole + Fraction(l) == mantissa[..j] + mantissa[j + 1..] && |Fraction(l)| == |mantissa[j + 1..]|
            else
              l.whole + Fraction(l) == mantissa && |Fraction(l)| == 0
  {
  }

  method CanonicalNumber(literal: string) returns (r: string)
    requires IsNumber(literal)
    ensures r == Spell(CanonicalLiteral(TakeApart(literal)))
  {
    ghost var l := TakeApart(literal);
    var digits := literal;
    var sign := "";
    if digits != "" && digits[0] == '-' {
      sign, digits := "-", digits[1..];
    }
    assert digits == Unsigned(literal) && sign == SignOf(l.negative);
    var exponent := 0;
    var i := Find(digits, E_MARKS);
    if i < |digits| {
      var parsed := Atoi(digits[i + 1..]);
      if parsed.None? || parsed.value > BOUND || parsed.value < -BOUND {
        LeftAsWritten(literal, digits, i);
        return literal;
      }
      PowerRead(literal, digits, i);
      exponent := parsed.value;
      digits := digits[..i];
    } else {
      NoPower(literal, digits);
    }
    assert Bounded(l) && exponent == Power(l);
    assert digits == Before(Unsigned(literal), E_MARKS);
    var j := Find(digits, DOT);
    MantissaRead(literal, digits, j);
    if j < |digits| {
      var fraction := digits[j + 1..];
      digits := digits[..j] + fraction;
      exponent := exponent - |fraction|;
    }
    ghost var all, power := digits, exponent;
    digits, exponent := DropTrailingZeros(TrimLeft(digits), exponent);
    SpellCanonical(l, all, power, sign, digits, exponent);
    if digits == "" {
      return "0";
    }
    return sign + digits + "e" + DecimalText(exponent);
  }

  // ----- Whole documents -----

  datatype Document =
    | Plain(text: string)
    | Numeric(literal: Literal)
    | Elements(elements: seq<Document>)
    | Members(members: map<string, Document>)

  function NormaliseNumbers(d: Document): Document {
    match d
    case Plain(_) => d
    case Numeric(l) => Numeric(CanonicalLiteral(l))
    case Elements(es) => Elements(seq(|es|, i requires 0 <= i < |es| => NormaliseNumbers(es[i])))
    case Members(ms) => Members(map k | k in ms :: NormaliseNumbers(ms[k]))
  }

  predicate Readable(d: Document) {
    match d
    case Plain(_) => true
    case Numeric(l) => Proper(l) && Tame(l)
    case Elements(es) => forall i :: 0 <= i < |es| ==> Readable(es[i])
    case Members(ms) => forall k :: k in ms ==> Readable(ms[k])
  }

  // The same document: alike in everything but the spelling of its numbers.
  predicate SameDocument(d: Document, e: Document) {
    if d.Numeric? then e.Numeric? && Denotes(d.literal) == Denotes(e.literal)
    else if d.Elements? then
      && e.Elements? && |d.elements| == |e.elements|
      && forall i :: 0 <= i < |d.elements| ==> SameDocument(d.elements[i], e.elements[i])
    else if d.Members? then
      && e.Members? && d.members.Keys == e.members.Keys
      && forall k :: k in d.members ==> k in e.members && SameDocument(d.members[k], e.members[k])
    else d == e
  }

  lemma {:induction false} NormalisedAlike(d: Document, e: Document)
    requires Readable(d) && Readable(e)
    ensures NormaliseNumbers(d) == NormaliseNumbers(e) <==> SameDocument(d, e)
    decreases d, 1
  {
    if d.Numeric? && e.Numeric? {
      SameSpelling(d.literal, e.literal);
      ValueKept(d.literal);
      ValueKept(e.literal);
      if CanonicalLiteral(d.literal) == CanonicalLiteral(e.literal) {
      } else if Spell(CanonicalLiteral(d.literal)) == Spell(CanonicalLiteral(e.literal)) {
        SpellInjective(CanonicalLiteral(d.literal), CanonicalLiteral(e.literal));
      }
    } else if d.Elements? && e.Elements? && |d.elements| == |e.elements| {
      ElementsAlike(d, e);
    } else if d.Members? && e.Members? && d.members.Keys == e.members.Keys {
      MembersAlike(d, e);
    } else if d.Elements? && e.Elements? {
      assert |NormaliseNumbers(d).elements| == |d.elements|;
      assert |NormaliseNumbers(e).elements| == |e.elements|;
    } else if d.Members? && e.Members? {
      assert NormaliseNumbers(d).members.Keys == d.members.Keys;
      assert NormaliseNumbers(e).members.Keys == e.members.Keys;
    }
  }

  lemma {:induction false} ElementsAlike(d: Document, e: Document)
    requires Readable(d) && Readable(e) && d.Elements? && e.Elements? && |d.elements| == |e.elements|
    ensures NormaliseNumbers(d) == NormaliseNumbers(e) <==> SameDocument(d, e)
    decreases d, 0
  {
    var ds, es := NormaliseNumbers(d).elements, NormaliseNumbers(e).elements;
    forall i | 0 <= i < |d.elements| ensures ds[i] == es[i] <==> SameDocument(d.elements[i], e.elements[i]) {
      NormalisedAlike(d.elements[i], e.elements[i]);
    }
    if SameDocument(d, e) {
      assert ds == es;
    }
  }

  lemma {:induction false} MembersAlike(d: Document, e: Document)
    requires Readable(d) && Readable(e) && d.Members? && e.Members? && d.members.Keys == e.members.Keys
    ensures NormaliseNumbers(d) == NormaliseNumbers(e) <==> SameDocument(d, e)
    decreases d, 0
  {
    var ds, es := NormaliseNumbers(d).members, NormaliseNumbers(e).members;
    forall k | k in d.members ensures ds[k] == es[k] <==> SameDocument(d.members[k], e.members[k]) {
      NormalisedAlike(d.members[k], e.members[k]);
    }
    if SameDocument(d, e) {
      assert ds == es;
    }
  }
}
