// JSON number literals (section 6 of RFC 8259) and the values they denote.
module Decimal {
  import opened Wrappers

  // ----- Powers of ten -----

  function Pow10(n: nat): (r: nat)
    ensures r >= 1
  {
    if n == 0 then 1 else 10 * Pow10(n - 1)
  }

  function Ten(e: int): (r: real)
    ensures r > 0.0
    decreases if e < 0 then -e else e
  {
    if e == 0 then 1.0 else if e > 0 then 10.0 * Ten(e - 1) else Ten(e + 1) / 10.0
  }

  // m times ten to the power e.
  function Scale(m: int, e: int): real {
    m as real * Ten(e)
  }

  lemma Regroup(x: real, t: real)
    ensures (10.0 * x) * t == x * (10.0 * t)
  {
  }

  lemma ScaleStep(m: int, e: int)
    ensures Scale(10 * m, e) == Scale(m, e + 1)
  {
    assert Ten(e + 1) == 10.0 * Ten(e);
    assert (10 * m) as real == 10.0 * (m as real);
    Regroup(m as real, Ten(e));
  }

  lemma {:induction false} ScaleSteps(m: int, e: int, k: nat)
    ensures Scale(m * Pow10(k), e) == Scale(m, e + k)
    decreases k
  {
    if k == 0 {
    } else {
      ScaleSteps(m, e + 1, k - 1);
      ScaleStep(m * Pow10(k - 1), e);
      assert m * Pow10(k) == 10 * (m * Pow10(k - 1));
    }
  }

  lemma Cancels(x: real, y: real, t: real)
    requires t > 0.0
    ensures x * t == y * t <==> x == y
  {
    if x * t == y * t {
      assert (x - y) * t == 0.0;
    }
  }

  lemma ScaleCancels(m: int, n: int, e: int)
    ensures Scale(m, e) == Scale(n, e) <==> m == n
  {
    Cancels(m as real, n as real, Ten(e));
  }

  lemma ScaleZero(m: int, e: int)
    ensures Scale(m, e) == 0.0 <==> m == 0
  {
    ScaleCancels(m, 0, e);
    Cancels(0.0, 0.0, Ten(e));
  }

  // A scaled integer is a whole number exactly when its trailing digits allow it.
  lemma WholeUp(m: int, k: nat)
    ensures Scale(m, k) == (m * Pow10(k)) as real
  {
    ScaleSteps(m, 0, k);
  }

  lemma WholeDown(m: int, k: nat, e: int, v: int)
    requires e == 0 - k
    ensures Scale(m, e) == v as real <==> m == v * Pow10(k)
  {
    ScaleSteps(v, e, k);
    ScaleCancels(m, v * Pow10(k), e);
    assert Scale(v, 0) == v as real;
  }

  // ----- Digit strings -----

  predicate IsDigit(c: char) {
    '0' <= c <= '9'
  }

  predicate AllDigits(s: string) {
    forall i :: 0 <= i < |s| ==> IsDigit(s[i])
  }

  predicate IsDigits(s: string) {
    s != "" && AllDigits(s)
  }

  function Digit(c: char): int {
    c as int - '0' as int
  }

  function Number(s: string): int {
    if s == "" then 0 else 10 * Number(s[..|s| - 1]) + Digit(s[|s| - 1])
  }

  lemma {:induction false} NumberBounds(s: string)
    requires AllDigits(s)
    ensures 0 <= Number(s) < Pow10(|s|)
  {
    if s == "" {
    } else {
      NumberBounds(s[..|s| - 1]);
    }
  }

  lemma {:induction false} NumberConcat(s: string, t: string)
    ensures Number(s + t) == Number(s) * Pow10(|t|) + Number(t)
  {
    if t == "" {
      assert s + t == s;
    } else {
      var n := |t| - 1;
      assert (s + t)[..|s + t| - 1] == s + t[..n];
      NumberConcat(s, t[..n]);
      assert 10 * (Number(s) * Pow10(n)) == Number(s) * Pow10(n + 1);
    }
  }

  function Zeros(n: nat): (r: string)
    ensures |r| == n && AllDigits(r)
  {
    if n == 0 then "" else Zeros(n - 1) + "0"
  }

  lemma {:induction false} NumberZeros(n: nat)
    ensures Number(Zeros(n)) == 0
  {
    if n == 0 {
    } else {
      NumberZeros(n - 1);
      assert Zeros(n)[..n - 1] == Zeros(n - 1);
    }
  }

  // The digits left once the zeros in front are gone.
  function TrimLeft(s: string): (r: string)
    ensures |r| <= |s| && (r != "" ==> r[0] != '0')
    ensures AllDigits(s) ==> AllDigits(r)
  {
    if s != "" && s[0] == '0' then TrimLeft(s[1..]) else s
  }

  lemma {:induction false} TrimLeftNumber(s: string)
    ensures Number(TrimLeft(s)) == Number(s)
  {
    if s != "" && s[0] == '0' {
      TrimLeftNumber(s[1..]);
      NumberConcat("0", s[1..]);
      assert "0" + s[1..] == s;
      assert Number("0") == 0;
    }
  }

  // A number written without a zero in front has all its digits' worth.
  lemma {:induction false} LeadingDigit(s: string)
    requires IsDigits(s) && s[0] != '0'
    ensures Number(s) >= Pow10(|s| - 1)
  {
    if |s| > 1 {
      LeadingDigit(s[..|s| - 1]);
    } else {
      assert Number(s) == 10 * Number("") + Digit(s[0]);
    }
  }

  lemma SameLast(m: int, d: int, n: int, e: int)
    requires 0 <= d < 10 && 0 <= e < 10 && 10 * m + d == 10 * n + e
    ensures m == n && d == e
  {
  }

  lemma FrontAndLast(s: string)
    requires s != ""
    ensures s == s[..|s| - 1] + [s[|s| - 1]]
  {
  }

  lemma {:induction false} NumberInjective(s: string, t: string)
    requires AllDigits(s) && AllDigits(t) && |s| == |t| && Number(s) == Number(t)
    ensures s == t
  {
    if s == "" {
    } else {
      var n := |s| - 1;
      SameLast(Number(s[..n]), Digit(s[n]), Number(t[..n]), Digit(t[n]));
      NumberInjective(s[..n], t[..n]);
      FrontAndLast(s);
      FrontAndLast(t);
    }
  }

  lemma {:induction false} PowMonotone(a: nat, b: nat)
    requires a <= b
    ensures Pow10(a) <= Pow10(b)
  {
    if a == b {
    } else {
      PowMonotone(a, b - 1);
    }
  }

  lemma LongerIsMore(s: string, t: string)
    requires AllDigits(s) && IsDigits(t) && t[0] != '0' && |s| < |t|
    ensures Number(s) < Number(t)
  {
    NumberBounds(s);
    LeadingDigit(t);
    PowMonotone(|s|, |t| - 1);
  }

  // Two numbers written without a zero in front are one only when spelled alike.
  lemma SpelledAlike(s: string, t: string)
    requires IsDigits(s) && s[0] != '0' && IsDigits(t) && t[0] != '0'
    requires Number(s) == Number(t)
    ensures s == t
  {
    if |s| < |t| {
      LongerIsMore(s, t);
    } else if |t| < |s| {
      LongerIsMore(t, s);
    } else {
      NumberInjective(s, t);
    }
  }

  function Itoa(n: nat): (r: string)
    ensures IsDigits(r) && Number(r) == n && (n > 0 ==> r[0] != '0')
  {
    var last := ['0' as int as char + (n % 10) as char];
    if n < 10 then
      assert Number(last) == 10 * Number("") + n;
      last
    else
      var front := Itoa(n / 10);
      assert (front + last)[..|front|] == front;
      front + last
  }

  function DecimalText(n: int): string {
    if n < 0 then "-" + Itoa(-n) else Itoa(n)
  }

  // ----- Literals -----

  datatype Exponent = Exponent(mark: char, sign: Option<char>, digits: string)

  // A number as its text is cut apart.
  datatype Literal = Literal(negative: bool, whole: string, fraction: Option<string>, exponent: Option<Exponent>)

  const E_MARKS := {'e', 'E'}
  const DOT := {'.'}
  const SIGNS := {'+', '-'}

  predicate ProperExponent(x: Exponent) {
    x.mark in E_MARKS && (x.sign.Some? ==> x.sign.value in SIGNS) && IsDigits(x.digits)
  }

  // Digits where digits belong: the grammar, but for a zero in front of others.
  predicate Proper(l: Literal) {
    && IsDigits(l.whole)
    && (l.fraction.Some? ==> IsDigits(l.fraction.value))
    && (l.exponent.Some? ==> ProperExponent(l.exponent.value))
  }

  // A number by the grammar of section 6 of RFC 8259.
  predicate WellFormed(l: Literal) {
    Proper(l) && (l.whole[0] == '0' ==> |l.whole| == 1)
  }

  function SignOf(negative: bool): string {
    if negative then "-" else ""
  }

  function FractionText(l: Literal): string {
    if l.fraction.Some? then "." + l.fraction.value else ""
  }

  function Mantissa(l: Literal): string {
    l.whole + FractionText(l)
  }

  function PowerText(x: Exponent): string {
    (if x.sign.Some? then [x.sign.value] else "") + x.digits
  }

  function ExponentText(l: Literal): string {
    if l.exponent.Some? then [l.exponent.value.mark] + PowerText(l.exponent.value) else ""
  }

  function Spell(l: Literal): string {
    SignOf(l.negative) + Mantissa(l) + ExponentText(l)
  }

  function Fraction(l: Literal): string {
    if l.fraction.Some? then l.fraction.value else ""
  }

  function Power(l: Literal): int {
    if l.exponent.None? then 0
    else if l.exponent.value.sign == Some('-') then -Number(l.exponent.value.digits)
    else Number(l.exponent.value.digits)
  }

  function Signed(negative: bool, n: int): int {
    if negative then -n else n
  }

  // The value a literal denotes.
  function Denotes(l: Literal): real {
    Scale(Signed(l.negative, Number(l.whole + Fraction(l))), Power(l) - |Fraction(l)|)
  }

  // ----- Taking a text apart -----

  function Find(s: string, marks: set<char>): (i: nat)
    ensures i <= |s|
    ensures i < |s| ==> s[i] in marks
  {
    if s == "" || s[0] in marks then 0 else 1 + Find(s[1..], marks)
  }

  predicate Free(s: string, marks: set<char>) {
    forall i :: 0 <= i < |s| ==> s[i] !in marks
  }

  lemma {:induction false} FindJoin(a: string, b: string, marks: set<char>)
    requires Free(a, marks) && (b == "" || b[0] in marks)
    ensures Find(a + b, marks) == |a|
    ensures (a + b)[..|a|] == a && (a + b)[|a|..] == b
  {
    if a != "" {
      FindJoin(a[1..], b, marks);
      assert (a + b)[1..] == a[1..] + b;
    } else {
      assert a + b == b;
    }
  }

  function PowerOf(tail: string): Option<Exponent> {
    if tail == "" then None
    else if |tail| > 1 && tail[1] in SIGNS then Some(Exponent(tail[0], Some(tail[1]), tail[2..]))
    else Some(Exponent(tail[0], None, tail[1..]))
  }

  function FractionOf(tail: string): Option<string> {
    if tail == "" then None else Some(tail[1..])
  }

  predicate Minus(text: string) {
    text != "" && text[0] == '-'
  }

  function Unsigned(text: string): string {
    if Minus(text) then text[1..] else text
  }

  function Before(s: string, marks: set<char>): string {
    s[..Find(s, marks)]
  }

  function From(s: string, marks: set<char>): string {
    s[Find(s, marks)..]
  }

  function Apart(negative: bool, mantissa: string, tail: string): Literal {
    Literal(negative, Before(mantissa, DOT), FractionOf(From(mantissa, DOT)), PowerOf(tail))
  }

  function TakeApart(text: string): Literal {
    Apart(Minus(text), Before(Unsigned(text), E_MARKS), From(Unsigned(text), E_MARKS))
  }

  predicate IsNumber(text: string) {
    Proper(TakeApart(text))
  }

  lemma PowerWhole(tail: string)
    ensures (if PowerOf(tail).Some? then [PowerOf(tail).value.mark] + PowerText(PowerOf(tail).value) else "") == tail
  {
    if |tail| > 1 && tail[1] in SIGNS {
      assert [tail[0]] + ([tail[1]] + tail[2..]) == tail;
    }
  }

  lemma FractionWhole(tail: string)
    requires tail != "" ==> tail[0] == '.'
    ensures (if FractionOf(tail).Some? then "." + FractionOf(tail).value else "") == tail
  {
  }

  lemma Rejoined(s: string, marks: set<char>)
    ensures Before(s, marks) + From(s, marks) == s
  {
  }

  lemma ApartWhole(negative: bool, mantissa: string, tail: string)
    ensures Spell(Apart(negative, mantissa, tail)) == SignOf(negative) + mantissa + tail
  {
    FractionWhole(From(mantissa, DOT));
    PowerWhole(tail);
    Rejoined(mantissa, DOT);
  }

  lemma Resigned(text: string, mantissa: string, tail: string)
    requires mantissa + tail == Unsigned(text)
    ensures SignOf(Minus(text)) + mantissa + tail == text
  {
    assert SignOf(Minus(text)) + mantissa + tail == SignOf(Minus(text)) + (mantissa + tail);
  }

  // Whatever the text, the parts it is cut into spell it again.
  lemma Reassembled(text: string)
    ensures Spell(TakeApart(text)) == text
  {
    Rejoined(Unsigned(text), E_MARKS);
    Resigned(text, Before(Unsigned(text), E_MARKS), From(Unsigned(text), E_MARKS));
    ApartWhole(Minus(text), Before(Unsigned(text), E_MARKS), From(Unsigned(text), E_MARKS));
  }

  lemma MantissaApart(l: Literal)
    requires Proper(l)
    ensures Find(Mantissa(l), DOT) == |l.whole|
    ensures Mantissa(l)[..|l.whole|] == l.whole
    ensures FractionOf(Mantissa(l)[|l.whole|..]) == l.fraction
  {
    FindJoin(l.whole, FractionText(l), DOT);
    if l.fraction.Some? {
      assert FractionText(l)[1..] == l.fraction.value;
    }
  }

  lemma MantissaUnmarked(l: Literal)
    requires Proper(l)
    ensures Free(Mantissa(l), E_MARKS) && Mantissa(l) != "" && Mantissa(l)[0] != '-'
  {
    var m := Mantissa(l);
    forall k | 0 <= k < |m| ensures m[k] !in E_MARKS {
      if k > |l.whole| {
        assert m[k] == l.fraction.value[k - |l.whole| - 1];
      }
    }
    assert m[0] == l.whole[0];
  }

  lemma PowerApart(l: Literal)
    requires Proper(l)
    ensures PowerOf(ExponentText(l)) == l.exponent
  {
    if l.exponent.Some? {
      var x := l.exponent.value;
      var tail := ExponentText(l);
      assert tail[1..] == PowerText(x);
      if x.sign.Some? {
        assert tail[2..] == x.digits;
      } else {
        assert PowerText(x) == x.digits;
        assert IsDigit(tail[1]);
      }
    }
  }

  lemma SignedText(negative: bool, body: string)
    requires body != "" && body[0] != '-'
    ensures Minus(SignOf(negative) + body) == negative && Unsigned(SignOf(negative) + body) == body
  {
    assert negative ==> (SignOf(negative) + body)[1..] == body;
    assert !negative ==> SignOf(negative) + body == body;
  }

  lemma Regrouped(a: string, b: string, c: string)
    ensures a + b + c == a + (b + c)
  {
  }

  lemma SpellUnsigned(l: Literal)
    requires Proper(l)
    ensures Minus(Spell(l)) == l.negative && Unsigned(Spell(l)) == Mantissa(l) + ExponentText(l)
  {
    MantissaUnmarked(l);
    Regrouped(SignOf(l.negative), Mantissa(l), ExponentText(l));
    SignedText(l.negative, Mantissa(l) + ExponentText(l));
  }

  lemma TakenApart(l: Literal)
    requires Proper(l)
    ensures TakeApart(Spell(l)) == l
  {
    SpellUnsigned(l);
    MantissaUnmarked(l);
    FindJoin(Mantissa(l), ExponentText(l), E_MARKS);
    MantissaApart(l);
    PowerApart(l);
  }

  // A text spells one literal.
  lemma SpellInjective(l: Literal, k: Literal)
    requires Proper(l) && Proper(k) && Spell(l) == Spell(k)
    ensures l == k
  {
    TakenApart(l);
    TakenApart(k);
  }

  // ----- Machine integers -----

  const MAX_INT: int := 0x7FFF_FFFF_FFFF_FFFF
  const MIN_INT: int := -0x8000_0000_0000_0000

  // A decimal integer with an optional sign, refused beyond what a machine int holds.
  function Atoi(text: string): Option<int> {
    var signed := text != "" && (text[0] == '+' || text[0] == '-');
    var digits := if signed then text[1..] else text;
    if !IsDigits(digits) then None
    else
      var v := Signed(signed && text[0] == '-', Number(digits));
      if MIN_INT <= v <= MAX_INT then Some(v) else None
  }

  // The power of a literal parses exactly when a machine int holds it.
  lemma AtoiPower(l: Literal)
    requires Proper(l) && l.exponent.Some?
    ensures Atoi(PowerText(l.exponent.value)) == if MIN_INT <= Power(l) <= MAX_INT then Some(Power(l)) else None
  {
    var x := l.exponent.value;
    var text := PowerText(x);
    assert IsDigit(x.digits[0]);
    if x.sign.Some? {
      assert text[1..] == x.digits;
    } else {
      assert text == x.digits;
    }
  }
}
