// client/mirrored.go and client/caching.go: reading a whole number off its digits, in machine integers.
module IntegralNumber {
  import opened Wrappers
  import opened Decimal

  ghost predicate Holds(l: Literal, v: int) {
    Proper(l) && Denotes(l) == v as real && -MAX_INT <= v <= MAX_INT
  }

  // A text that is a number and denotes v, which a machine int holds with its sign turned too.
  ghost predicate States(text: string, v: int) {
    Holds(TakeApart(text), v)
  }

  // ----- What the digits and the point say -----

  predicate AllZeros(s: string) {
    forall i :: 0 <= i < |s| ==> s[i] == '0'
  }

  // The digits in front of the point, none but zeros behind it.
  function Standing(digits: string, point: int): Option<int> {
    if point <= 0 then None
    else if point < |digits| then
      if AllZeros(digits[point..]) then Some(Number(digits[..point])) else None
    else Some(Number(digits + Zeros(point - |digits|)))
  }

  lemma {:induction false} ZerosAlone(s: string)
    requires AllDigits(s)
    ensures Number(s) == 0 <==> AllZeros(s)
  {
    if s == "" {
    } else {
      ZerosAlone(s[..|s| - 1]);
      NumberBounds(s[..|s| - 1]);
    }
  }

  lemma Distribute(v: int, front: int, p: int)
    ensures (v - front) * p == v * p - front * p
  {
  }

  lemma AtLeast(d: int, p: int)
    requires d >= 1 && p >= 0
    ensures d * p >= p && (-d) * p <= -p
  {
  }

  lemma QuotientUnique(v: int, front: int, back: int, p: int)
    requires 0 <= back < p && front * p + back == v * p
    ensures v == front && back == 0
  {
    var d := v - front;
    Distribute(v, front, p);
    assert d * p == back;
    if d >= 1 {
      AtLeast(d, p);
    } else if d < 0 {
      AtLeast(-d, p);
    }
  }

  lemma DivisibleEnd(digits: string, point: nat, n: int)
    requires AllDigits(digits) && point <= |digits|
    ensures Number(digits) == n * Pow10(|digits| - point)
       <==> AllZeros(digits[point..]) && n == Number(digits[..point])
  {
    var front, back := digits[..point], digits[point..];
    assert front + back == digits;
    NumberConcat(front, back);
    NumberBounds(back);
    ZerosAlone(back);
    if Number(digits) == n * Pow10(|back|) {
      QuotientUnique(n, Number(front), Number(back), Pow10(|back|));
    }
  }

  // A number with its point among its digits is whole only when zeros follow the point.
  lemma PointWithin(digits: string, point: nat, n: int)
    requires AllDigits(digits) && point <= |digits|
    ensures Scale(Number(digits), point - |digits|) == n as real
       <==> AllZeros(digits[point..]) && n == Number(digits[..point])
  {
    WholeDown(Number(digits), |digits| - point, point - |digits|, n);
    DivisibleEnd(digits, point, n);
  }

  // A number all of whose digits stand behind the point is no whole number.
  lemma PointBefore(digits: string, point: int, n: int)
    requires IsDigits(digits) && digits[0] != '0' && point <= 0
    ensures Scale(Number(digits), point - |digits|) != n as real
  {
    var k := |digits| - point;
    WholeDown(Number(digits), k, point - |digits|, n);
    NumberBounds(digits);
    LeadingDigit(digits);
    PowMonotone(|digits|, k);
    if Number(digits) == n * Pow10(k) {
      QuotientUnique(n, 0, Number(digits), Pow10(k));
    }
  }

  lemma PointBehind(digits: string, point: int, n: int)
    requires AllDigits(digits) && |digits| <= point
    ensures Scale(Number(digits), point - |digits|) == n as real <==> n == Number(digits + Zeros(point - |digits|))
  {
    var k := point - |digits|;
    WholeUp(Number(digits), k);
    NumberConcat(digits, Zeros(k));
    NumberZeros(k);
  }

  // The point read off the digits tells exactly which whole number, if any, is denoted.
  lemma StandingExact(digits: string, point: int, n: int)
    requires IsDigits(digits) && digits[0] != '0'
    ensures Scale(Number(digits), point - |digits|) == n as real <==> Standing(digits, point) == Some(n)
  {
    if point <= 0 {
      PointBefore(digits, point, n);
    } else if point < |digits| {
      PointWithin(digits, point, n);
    } else {
      PointBehind(digits, point, n);
    }
  }

  lemma Nineteen()
    ensures Pow10(19) > MAX_INT
  {
    assert Pow10(5) == 100000;
    assert Pow10(10) == 10000000000;
    assert Pow10(15) == 1000000000000000;
  }

  // With its point further out than nineteen digits a number is out of range.
  lemma PointBeyond(digits: string, point: int)
    requires IsDigits(digits) && digits[0] != '0' && point > 19
    ensures Standing(digits, point).Some? ==> Standing(digits, point).value > MAX_INT
  {
    Nineteen();
    PowMonotone(19, point - 1);
    if point < |digits| {
      LeadingDigit(digits[..point]);
    } else {
      LeadingDigit(digits + Zeros(point - |digits|));
    }
  }

  // ----- The sign -----

  lemma Negated(x: real, t: real)
    ensures (-x) * t == -(x * t)
  {
  }

  lemma ScaleNegated(m: int, e: int)
    ensures Scale(-m, e) == -Scale(m, e)
  {
    Negated(m as real, Ten(e));
  }

  lemma SignedValue(l: Literal, digits: string, v: int)
    requires digits == TrimLeft(l.whole + Fraction(l))
    ensures Denotes(l) == v as real
       <==> Scale(Number(digits), Power(l) - |Fraction(l)|) == Signed(l.negative, v) as real
  {
    TrimLeftNumber(l.whole + Fraction(l));
    ScaleNegated(Number(digits), Power(l) - |Fraction(l)|);
  }

  lemma TrimmedDigits(l: Literal)
    requires Proper(l)
    ensures AllDigits(TrimLeft(l.whole + Fraction(l)))
  {
    assert AllDigits(l.whole + Fraction(l));
  }

  // What a literal holds, by its significant digits and its point.
  lemma HoldsStanding(l: Literal, digits: string, point: int, v: int)
    requires Proper(l) && digits == TrimLeft(l.whole + Fraction(l)) && digits != ""
    requires point == |digits| + Power(l) - |Fraction(l)|
    ensures Holds(l, v) <==> Standing(digits, point) == Some(Signed(l.negative, v)) && -MAX_INT <= v <= MAX_INT
  {
    SignedValue(l, digits, v);
    TrimmedDigits(l);
    StandingExact(digits, point, Signed(l.negative, v));
  }

  lemma HoldsZero(l: Literal, v: int)
    requires Proper(l) && TrimLeft(l.whole + Fraction(l)) == ""
    ensures Holds(l, v) <==> v == 0
  {
    SignedValue(l, "", v);
    ScaleCancels(0, 0, Power(l) - |Fraction(l)|);
  }

  // ----- The machine -----

  const WORD: int := 0x1_0000_0000_0000_0000

  // What a machine int keeps of a sum.
  function Wrapped(x: int): int {
    (x - MIN_INT) % WORD + MIN_INT
  }

  // Where the wrapped point differs from the true one, neither leaves a number to accept.
  lemma WrapHarmless(digits: string, exponent: int, behind: nat)
    requires IsDigits(digits) && digits[0] != '0'
    requires MIN_INT <= exponent <= MAX_INT && |digits| < MAX_INT && behind < MAX_INT - 20
    ensures var point := |digits| + exponent - behind;
            && (point > MAX_INT ==> Wrapped(point) < 0)
            && (point < MIN_INT ==> Wrapped(point) > 19 && Wrapped(point) >= |digits|)
            && (MIN_INT <= point <= MAX_INT ==> Wrapped(point) == point)
  {
  }

  // The number read with the point where the machine puts it.
  function Read(digits: string, point: int): Option<int>
    requires digits != ""
  {
    var tail := if point < 0 then 0 else point;
    if point < |digits| && !AllZeros(digits[tail..]) then None
    else if point > 19 then None
    else
      var kept := if point < |digits| then digits[..tail] else digits;
      Atoi(kept + Zeros(if point < |kept| then 0 else point - |kept|))
  }

  lemma AtoiDigits(s: string)
    requires IsDigits(s)
    ensures Atoi(s) == if Number(s) <= MAX_INT then Some(Number(s)) else None
  {
    NumberBounds(s);
  }

  lemma ReadStands(digits: string, point: int)
    requires IsDigits(digits) && digits[0] != '0'
    ensures Read(digits, point)
         == if Standing(digits, point).Some? && Standing(digits, point).value <= MAX_INT then Standing(digits, point) else None
  {
    if point <= 0 {
      assert digits[0..][0] == digits[0];
    } else if point > 19 {
      PointBeyond(digits, point);
    } else if point < |digits| {
      assert digits[..point] + Zeros(0) == digits[..point];
      AtoiDigits(digits[..point]);
    } else {
      AtoiDigits(digits + Zeros(point - |digits|));
    }
  }

  // The machine's point is as good as the true one.
  lemma ReadExact(digits: string, exponent: int, behind: nat)
    requires IsDigits(digits) && digits[0] != '0'
    requires MIN_INT <= exponent <= MAX_INT && |digits| < MAX_INT && behind < MAX_INT - 20
    ensures Read(digits, Wrapped(|digits| + exponent - behind)) == Read(digits, |digits| + exponent - behind)
  {
    var point := |digits| + exponent - behind;
    WrapHarmless(digits, exponent, behind);
    ReadStands(digits, point);
    if point > MAX_INT {
      PointBeyond(digits, point);
    }
  }

  // A power no machine int holds leaves no number to accept either.
  lemma PowerBeyond(digits: string, power: int, behind: nat)
    requires IsDigits(digits) && digits[0] != '0' && |digits| < MAX_INT && behind < MAX_INT - 20
    requires power < MIN_INT || power > MAX_INT
    ensures Read(digits, |digits| + power - behind) == None
  {
    var point := |digits| + power - behind;
    ReadStands(digits, point);
    if point > 19 {
      PointBeyond(digits, point);
    }
  }

  lemma StandingPositive(digits: string, point: int)
    requires IsDigits(digits)
    ensures Standing(digits, point).Some? ==> Standing(digits, point).value >= 0
  {
    if 0 < point < |digits| {
      NumberBounds(digits[..point]);
    } else if point > 0 {
      NumberBounds(digits + Zeros(point - |digits|));
    }
  }

  lemma ReadHolds(l: Literal, digits: string, point: int, v: int)
    requires Proper(l) && digits == TrimLeft(l.whole + Fraction(l)) && digits != ""
    requires point == |digits| + Power(l) - |Fraction(l)|
    ensures Holds(l, v) <==> Read(digits, point) == Some(Signed(l.negative, v))
  {
    TrimmedDigits(l);
    HoldsStanding(l, digits, point, v);
    ReadStands(digits, point);
    StandingPositive(digits, point);
  }

  predicate IsSignedDigits(s: string) {
    IsDigits(if s != "" && s[0] in SIGNS then s[1..] else s)
  }

  lemma PowerCut(text: string, body: string, i: nat)
    requires body == Unsigned(text) && i == Find(body, E_MARKS)
    ensures var x := TakeApart(text).exponent;
            && (x.Some? <==> i < |body|)
            && (x.Some? ==> (ProperExponent(x.value) <==> IsSignedDigits(body[i + 1..])) && PowerText(x.value) == body[i + 1..])
  {
    var tail := body[i..];
    if |tail| > 1 {
      assert tail[1..] == body[i + 1..];
      if tail[1] in SIGNS {
        assert tail[2..] == tail[1..][1..];
        assert [tail[1]] + tail[2..] == tail[1..];
      }
    }
  }

  predicate Cut(l: Literal, digits: string, power: string, behind: nat) {
    && digits == TrimLeft(l.whole + Fraction(l)) && behind == |Fraction(l)|
    && power == if l.exponent.Some? then PowerText(l.exponent.value) else ""
  }

  lemma CutShorter(text: string)
    ensures var l := TakeApart(text); |l.whole + Fraction(l)| <= |text|
  {
    Reassembled(text);
  }

  // The digits, the power and the count of digits behind the point, for a text that is a number.
  method CutApart(text: string) returns (ok: bool, digits: string, power: string, behind: nat)
    ensures ok == IsNumber(text)
    ensures ok ==> Cut(TakeApart(text), digits, power, behind)
  {
    var rest := if text != "" && text[0] == '-' then text[1..] else text;
    var mantissa := rest;
    power := "";
    var i := Find(rest, E_MARKS);
    PowerCut(text, rest, i);
    if i < |rest| {
      mantissa, power := rest[..i], rest[i + 1..];
      if !IsSignedDigits(power) {
        return false, "", "", 0;
      }
    }
    assert mantissa == Before(rest, E_MARKS);
    var whole, fraction := mantissa, "";
    var j := Find(mantissa, DOT);
    if j < |mantissa| {
      whole, fraction := mantissa[..j], mantissa[j + 1..];
    }
    ghost var l := TakeApart(text);
    assert whole == l.whole && fraction == Fraction(l);
    if !IsDigits(whole) || (j < |mantissa| && !IsDigits(fraction)) {
      return false, "", "", 0;
    }
    return true, TrimLeft(whole + fraction), power, |fraction|;
  }

  function PowerValue(power: string): Option<int> {
    if power == "" then Some(0) else Atoi(power)
  }

  function Placed(digits: string, exponent: Option<int>, behind: nat): Option<int>
    requires digits != ""
  {
    if exponent.Some? then Read(digits, Wrapped(|digits| + exponent.value - behind)) else None
  }

  lemma PowerValueExact(l: Literal)
    requires Proper(l)
    ensures PowerValue(if l.exponent.Some? then PowerText(l.exponent.value) else "")
         == if MIN_INT <= Power(l) <= MAX_INT then Some(Power(l)) else None
  {
    if l.exponent.Some? {
      AtoiPower(l);
      assert |PowerText(l.exponent.value)| > 0;
    }
  }

  // What is read where the machine puts the point is what is read at the true one.
  lemma PlacedTruly(digits: string, power: int, behind: nat)
    requires IsDigits(digits) && digits[0] != '0' && |digits| < MAX_INT && behind < MAX_INT - 20
    ensures Placed(digits, if MIN_INT <= power <= MAX_INT then Some(power) else None, behind)
         == Read(digits, |digits| + power - behind)
  {
    if MIN_INT <= power <= MAX_INT {
      ReadExact(digits, power, behind);
    } else {
      PowerBeyond(digits, power, behind);
    }
  }

  lemma MachineReads(l: Literal, digits: string, power: string, behind: nat, v: int)
    requires Proper(l) && |l.whole + Fraction(l)| < MAX_INT - 20
    requires Cut(l, digits, power, behind) && digits != ""
    ensures Holds(l, v) <==> Placed(digits, PowerValue(power), behind) == Some(Signed(l.negative, v))
  {
    TrimmedDigits(l);
    PowerValueExact(l);
    PlacedTruly(digits, Power(l), behind);
    ReadHolds(l, digits, |digits| + Power(l) - behind, v);
  }

  function SignedResult(negative: bool, r: Option<int>): Option<int> {
    if r.Some? then Some(Signed(negative, r.value)) else None
  }

  function Result(negative: bool, digits: string, power: string, behind: nat): Option<int> {
    if digits == "" then Some(0)
    else
      SignedResult(negative, Placed(digits, PowerValue(power), behind))
  }

  lemma SignedBack(negative: bool, r: Option<int>, v: int)
    ensures SignedResult(negative, r) == Some(v) <==> r == Some(Signed(negative, v))
  {
  }

  lemma ResultExact(l: Literal, digits: string, power: string, behind: nat, v: int)
    requires Proper(l) && |l.whole + Fraction(l)| < MAX_INT - 20 && Cut(l, digits, power, behind)
    ensures Result(l.negative, digits, power, behind) == Some(v) <==> Holds(l, v)
  {
    if digits == "" {
      HoldsZero(l, v);
    } else {
      SignedBack(l.negative, Placed(digits, PowerValue(power), behind), v);
      MachineReads(l, digits, power, behind, v);
    }
  }

  lemma ResultStates(text: string, digits: string, power: string, behind: nat)
    requires |text| < MAX_INT - 20 && IsNumber(text) && Cut(TakeApart(text), digits, power, behind)
    ensures forall v :: Result(Minus(text), digits, power, behind) == Some(v) <==> States(text, v)
  {
    CutShorter(text);
    forall v ensures Result(Minus(text), digits, power, behind) == Some(v) <==> States(text, v) {
      ResultExact(TakeApart(text), digits, power, behind, v);
    }
  }

  method ReadDigits(all: string, point: int) returns (r: Option<int>)
    requires all != "" && all[0] != '0'
    ensures r == Read(all, point)
  {
    var digits := all;
    if point < |digits| {
      var tail := if point < 0 then 0 else point;
      if !AllZeros(digits[tail..]) {
        return None;
      }
      digits := digits[..tail];
    }
    if point > 19 {
      return None;
    }
    return Atoi(digits + Zeros(point - |digits|));
  }

  method Place(digits: string, power: string, behind: nat) returns (r: Option<int>)
    requires digits != "" && digits[0] != '0'
    ensures r == Placed(digits, PowerValue(power), behind)
  {
    var exponent := 0;
    if power != "" {
      var parsed := Atoi(power);
      if parsed.None? {
        return None;
      }
      exponent := parsed.value;
    }
    r := ReadDigits(digits, Wrapped(|digits| + exponent - behind));
  }

  // Every number the digits and the exponent state, and no other: neither the size of the exponent
  // nor the point wrapping round lets a wrong one through or keeps a right one out.
  method IntegralNumber(text: string) returns (r: Option<int>)
    requires |text| < MAX_INT - 20
    ensures forall v :: r == Some(v) <==> States(text, v)
  {
    var negative := text != "" && text[0] == '-';
    var ok, digits, power, behind := CutApart(text);
    if !ok {
      return None;
    }
    ResultStates(text, digits, power, behind);
    if digits == "" {
      return Some(0);
    }
    var placed := Place(digits, power, behind);
    if placed.None? {
      return None;
    }
    return Some(Signed(negative, placed.value));
  }

  // ----- What is made of it -----

  const SAFE: int := 0x1F_FFFF_FFFF_FFFF

  // Digits a machine int holds are a number of that value.
  lemma IntegerStates(text: string)
    requires Atoi(text).Some? && text[0] != '+'
    ensures IsNumber(text) && Denotes(TakeApart(text)) == Atoi(text).value as real
  {
    var negative := text[0] == '-';
    var l := Literal(negative, if negative then text[1..] else text, None, None);
    assert Mantissa(l) == l.whole;
    assert Spell(l) == text;
    TakenApart(l);
    assert l.whole + "" == l.whole;
  }

  // An integer goes into a header exactly when it is whole and safe, and then as its decimal digits.
  method MirroredInteger(number: string) returns (r: Option<string>)
    requires |number| < MAX_INT - 20 && IsNumber(number)
    ensures forall v :: States(number, v) && -SAFE <= v <= SAFE ==> r == Some(DecimalText(v))
    ensures r.Some? ==> exists v :: States(number, v) && -SAFE <= v <= SAFE
  {
    var parsed := Atoi(number);
    if parsed.Some? {
      IntegerStates(number);
    } else {
      parsed := IntegralNumber(number);
      if parsed.None? {
        return None;
      }
    }
    var v := parsed.value;
    if v < -SAFE || v > SAFE {
      return None;
    }
    assert States(number, v);
    return Some(DecimalText(v));
  }

  const MILLISECOND := 1_000_000

  // The nanoseconds a result stays fresh: its milliseconds when they are whole and more than none,
  // held to the longest duration rather than wrapped round.
  method LifetimeOf(text: string) returns (r: int)
    requires |text| < MAX_INT - 20 && (text != "" ==> text[0] != '+')
    ensures 0 <= r <= MAX_INT
    ensures forall v :: States(text, v) && v > 0 ==> r == if v * MILLISECOND <= MAX_INT then v * MILLISECOND else MAX_INT
    ensures r > 0 ==> exists v :: States(text, v) && v > 0
  {
    var milliseconds := 0;
    var parsed := Atoi(text);
    if parsed.Some? {
      IntegerStates(text);
      milliseconds := parsed.value;
    } else {
      var whole := IntegralNumber(text);
      if whole.None? {
        return 0;
      }
      milliseconds := whole.value;
    }
    if milliseconds <= 0 {
      return 0;
    }
    assert States(text, milliseconds);
    if milliseconds > MAX_INT / MILLISECOND {
      return MAX_INT;
    }
    return milliseconds * MILLISECOND;
  }
}
