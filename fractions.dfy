/** `Fraction` of the C# and Java FMI 3.0 example models: the decimal text of
    a clock interval or shift becomes a counter and a resolution, the digits
    over the matching power of ten reduced by their greatest common divisor. */
module Fractions {
  import opened Wrappers

  // -------------------------------------------------------------- arithmetic

  /** Euclid's greatest common divisor (`BigInteger.GreatestCommonDivisor`,
      `BigInteger.gcd`: of the absolute values, and Gcd(0, 0) = 0). */
  function Gcd(a: nat, b: nat): (g: nat)
    ensures a > 0 || b > 0 ==> g > 0
    decreases b
  {
    if b == 0 then a else Gcd(b, a % b)
  }
  function Pow10(n: nat): (p: nat)
    ensures p >= 1
  {
    if n == 0 then 1 else 10 * Pow10(n - 1)
  }

  lemma MulPos(c: int, x: int)
    requires c > 0 && x >= 1
    ensures c * x >= c
  {
    assert c * x == c * (x - 1) + c;
    assert c * (x - 1) >= 0;
  }
  /** A multiple of c leaves no remainder. */
  lemma MultipleMod(c: nat, m: nat)
    requires c > 0
    ensures (c * m) % c == 0
  {
    var q, r := (c * m) / c, (c * m) % c;
    assert c * m == c * q + r;
    assert c * (m - q) == r;
    if m - q >= 1 {
      MulPos(c, m - q);
    } else if m - q <= -1 {
      MulPos(c, q - m);
    }
  }
  /** A sum of multiples of c is a multiple of c. */
  lemma CombinationMod(a: nat, b: nat, k: nat, c: nat)
    requires c > 0 && a % c == 0 && b % c == 0
    ensures (k * a + b) % c == 0
  {
    var p, q := a / c, b / c;
    assert a == c * p && b == c * q;
    assert k * a + b == c * (k * p + q);
    MultipleMod(c, k * p + q);
  }
  /** The remainder a - (a / b) * b of multiples of c is one. */
  lemma RemainderMod(a: nat, b: nat, c: nat)
    requires b > 0 && c > 0 && a % c == 0 && b % c == 0
    ensures (a % b) % c == 0
  {
    var p, q := a / c, b / c;
    assert a == c * p && b == c * q;
    var k := a / b;
    assert a % b == a - k * b;
    assert k * b == c * (k * q);
    var m := p - k * q;
    assert a % b == c * m;
    if m < 0 { MulPos(c, -m); }
    MultipleMod(c, m);
  }
  /** The gcd of two numbers, not both zero, divides both. */
  lemma {:induction false} GcdDivides(a: nat, b: nat)
    requires a > 0 || b > 0
    ensures a % Gcd(a, b) == 0 && b % Gcd(a, b) == 0
    decreases b
  {
    if b > 0 {
      GcdDivides(b, a % b);
      var g := Gcd(b, a % b);
      assert a == (a / b) * b + a % b;
      CombinationMod(b, a % b, a / b, g);
    }
  }
  /** Every common divisor of a and b divides their gcd. */
  lemma {:induction false} GcdGreatest(a: nat, b: nat, c: nat)
    requires c > 0 && a % c == 0 && b % c == 0
    ensures Gcd(a, b) % c == 0
    decreases b
  {
    if b > 0 {
      RemainderMod(a, b, c);
      GcdGreatest(b, a % b, c);
    }
  }
  /** x is g times its quotient by g when g divides it. */
  lemma Quotient(x: nat, g: nat)
    requires g > 0 && x % g == 0
    ensures x == g * (x / g)
  {
  }
  /** g = g * h * k forces h = 1. */
  lemma UnitProduct(g: nat, h: nat, k: nat)
    requires g > 0 && h > 0 && g == (g * h) * k
    ensures h == 1
  {
    assert g * (h * k) == g * 1;
    assert g * (h * k - 1) == 0;
    if h * k - 1 >= 1 { MulPos(g, h * k - 1); }
    else if h * k - 1 <= -1 { MulPos(g, 1 - h * k); }
    assert h * k == 1;
    if h >= 2 {
      if k >= 1 { MulPos(k, h); }
    }
  }
  /** If g divides a and h divides a / g, then g * h divides a. */
  lemma DividesThrough(a: nat, g: nat, h: nat)
    requires g > 0 && h > 0 && a % g == 0 && (a / g) % h == 0
    ensures a % (g * h) == 0
  {
    var x := a / g;
    var x' := x / h;
    Quotient(a, g);
    Quotient(x, h);
    assert a == (g * h) * x' by { assert g * x == g * (h * x'); }
    MultipleMod(g * h, x');
  }
  /** Dividing both numbers by their gcd leaves numbers whose gcd is 1. */
  lemma Reduced(a: nat, b: nat)
    requires b > 0
    ensures Gcd(a / Gcd(a, b), b / Gcd(a, b)) == 1
  {
    GcdDivides(a, b);
    var g := Gcd(a, b);
    var x, y := a / g, b / g;
    Quotient(b, g);
    assert y > 0;
    GcdDivides(x, y);
    var h := Gcd(x, y);
    DividesThrough(a, g, h);
    DividesThrough(b, g, h);
    GcdGreatest(a, b, g * h);
    Quotient(g, g * h);
    UnitProduct(g, h, g / (g * h));
  }

  // ------------------------------------------------------------ decimal text

  predicate IsDigit(c: char) { '0' <= c <= '9' }

  predicate AllDigits(s: string) { forall i | 0 <= i < |s| :: IsDigit(s[i]) }

  /** The number written by a run of decimal digits. */
  function DigitsValue(s: string): nat
    requires AllDigits(s)
  {
    if |s| == 0 then 0 else 10 * DigitsValue(s[..|s| - 1]) + (s[|s| - 1] as int - '0' as int)
  }

  /** The first position of c in s, if any (`IndexOf`). */
  function IndexOf(s: string, c: char): (r: Option<nat>)
    ensures r.Some? ==> r.value < |s| && s[r.value] == c && c !in s[..r.value]
    ensures r.None? ==> c !in s
  {
    if |s| == 0 then None
    else if s[0] == c then Some(0)
    else match IndexOf(s[1..], c)
      case None => None
      case Some(i) => Some(i + 1)
  }

  /** A decimal number as its digits and the count of them after the point:
      the value is unscaled / 10^scale. */
  datatype Decimal = Decimal(unscaled: int, scale: int)

  /** Digits with an optional point: `ddd`, `ddd.`, `ddd.ddd` or `.ddd`. */
  function PointedDigits(s: string): (r: Option<Decimal>)
    ensures r.Some? ==> r.value.unscaled >= 0 && r.value.scale >= 0
  {
    match IndexOf(s, '.')
    case None =>
      if |s| > 0 && AllDigits(s) then Some(Decimal(DigitsValue(s), 0)) else None
    case Some(i) =>
      var whole, frac := s[..i], s[i + 1..];
      if |whole + frac| > 0 && AllDigits(whole + frac)
      then Some(Decimal(DigitsValue(whole + frac), |frac|))
      else None
  }

  /** `Decimal.Parse` in the forms `double.ToString` produces: an optional
      minus sign before pointed digits; no exponent. */
  function ParseDotNetDecimal(s: string): (r: Option<Decimal>)
    ensures r.Some? ==> r.value.scale >= 0
  {
    var negative := |s| > 0 && s[0] == '-';
    match PointedDigits(if negative then s[1..] else s)
    case None => None
    case Some(d) => Some(if negative then Decimal(-d.unscaled, d.scale) else d)
  }

  /** `GetScale`: the number of characters after the first '.', else 0. */
  function CharactersAfterPoint(s: string): (n: nat)
    ensures n <= |s|
  {
    match IndexOf(s, '.')
    case None => 0
    case Some(i) => |s| - i - 1
  }

  /** Why a fraction could not be formed: text the parser refuses, a part
      that does not fit the target integer, or a negative power of ten. */
  datatype FractionError = FormatError | OverflowError | ArithmeticError

  /** The numerator and denominator of a decimal reduced by the gcd, before
      any narrowing; the sign stays on the numerator. */
  function ReducedParts(unscaled: int, scale: nat): (r: (int, nat))
    ensures r.1 > 0
  {
    var den := Pow10(scale);
    var magnitude := if unscaled < 0 then -unscaled else unscaled;
    var g := Gcd(magnitude, den);
    GcdDivides(magnitude, den);
    Quotient(den, g);
    (if unscaled < 0 then -(magnitude / g) else magnitude / g, den / g)
  }

  /** Dividing m and d by their gcd keeps the ratio m / d. */
  lemma CrossMultiply(m: nat, d: nat)
    requires d > 0
    ensures (m / Gcd(m, d)) * d == m * (d / Gcd(m, d))
  {
    GcdDivides(m, d);
    var g := Gcd(m, d);
    var x, y := m / g, d / g;
    Quotient(m, g);
    Quotient(d, g);
    calc {
      x * d;
      x * (g * y);
      (g * x) * y;
      m * y;
    }
  }

  /** The reduced parts have the decimal's value and gcd 1. */
  lemma ReducedPartsExact(unscaled: int, scale: nat)
    ensures var (n, d) := ReducedParts(unscaled, scale);
      n * Pow10(scale) == unscaled * d
      && Gcd(if n < 0 then -n else n, d) == 1
  {
    var den := Pow10(scale);
    var magnitude: nat := if unscaled < 0 then -unscaled else unscaled;
    Reduced(magnitude, den);
    CrossMultiply(magnitude, den);
    var g := Gcd(magnitude, den);
    var x, y := magnitude / g, den / g;
    assert ReducedParts(unscaled, scale) == (if unscaled < 0 then -x else x, y);
    if unscaled < 0 {
      Negated(x, den, magnitude, y);
    }
  }

  lemma Negated(x: int, d: int, m: int, y: int)
    requires x * d == m * y
    ensures (-x) * d == (-m) * y
  {
  }

  /** The C# `Fraction(string)`: `Decimal.Parse`, scale from the characters
      after the point, both parts divided by the gcd, then cast to `ulong`,
      which throws for a negative or too large part. */
  function CSharpFraction(s: string): (r: Result<(nat, nat), FractionError>)
    ensures r.Failure? ==> r.error != ArithmeticError
    ensures r.Success? ==>
      r.value.1 > 0 && r.value.0 < 0x1_0000_0000_0000_0000 && r.value.1 < 0x1_0000_0000_0000_0000
  {
    match ParseDotNetDecimal(s)
    case None => Failure(FormatError)
    case Some(d) =>
      var (n, den) := ReducedParts(d.unscaled, CharactersAfterPoint(s));
      if n < 0 || n >= 0x1_0000_0000_0000_0000 || den >= 0x1_0000_0000_0000_0000
      then Failure(OverflowError)
      else Success((n, den))
  }

  /** A C# fraction is the decimal's value in lowest terms: its counter over
      its resolution equals the parsed digits over 10^scale. */
  lemma CSharpFractionExact(s: string)
    requires CSharpFraction(s).Success?
    ensures var d := ParseDotNetDecimal(s).value;
      var (n, den) := CSharpFraction(s).value;
      n * Pow10(d.scale) == d.unscaled * den && Gcd(n, den) == 1
  {
    var d := ParseDotNetDecimal(s).value;
    assert CharactersAfterPoint(s) == d.scale by {
      var negative := |s| > 0 && s[0] == '-';
      var body := if negative then s[1..] else s;
      var i := IndexOf(body, '.');
      if negative {
        assert s == [s[0]] + body;
        assert IndexOf(s, '.') == if i.Some? then Some(i.value + 1) else None;
      }
    }
    ReducedPartsExact(d.unscaled, CharactersAfterPoint(s));
  }

  /** Examples of the test suite: 1.5 is 3/2 and 2.5 is 5/2. */
  lemma CSharpFractionExamples()
    ensures CSharpFraction("1.5") == Success((3, 2))
    ensures CSharpFraction("2.5") == Success((5, 2))
  {
    assert DigitsValue("15") == 15 by { assert "15"[..1] == "1"; assert "1"[..0] == ""; }
    assert DigitsValue("25") == 25 by { assert "25"[..1] == "2"; assert "2"[..0] == ""; }
    assert IndexOf("1.5", '.') == Some(1);
    assert IndexOf("2.5", '.') == Some(1);
    assert "1.5"[..1] + "1.5"[2..] == "15";
    assert "2.5"[..1] + "2.5"[2..] == "25";
    assert Gcd(15, 10) == 5;
    assert Gcd(25, 10) == 5;
  }

  // ------------------------------------------------------------- Java text

  /** `new BigDecimal(String)`: an optional sign, pointed digits and an
      optional exponent `e` or `E` with an optional sign; the scale is the
      digits after the point minus the exponent, and may be negative. */
  function ParseBigDecimal(s: string): Option<Decimal>
  {
    var negative := |s| > 0 && s[0] == '-';
    var signed := |s| > 0 && (s[0] == '-' || s[0] == '+');
    var body := if signed then s[1..] else s;
    var e := match IndexOf(body, 'e') case Some(i) => Some(i) case None => IndexOf(body, 'E');
    var (mantissa, exponent) :=
      match e
      case None => (PointedDigits(body), Some(0))
      case Some(i) => (PointedDigits(body[..i]), SignedDigits(body[i + 1..]));
    if mantissa.None? || exponent.None? then None
    else
      var d := mantissa.value;
      Some(Decimal(if negative then -d.unscaled else d.unscaled, d.scale - exponent.value))
  }

  /** An exponent: an optional sign and at least one digit. */
  function SignedDigits(s: string): Option<int>
  {
    var negative := |s| > 0 && s[0] == '-';
    var signed := |s| > 0 && (s[0] == '-' || s[0] == '+');
    var digits := if signed then s[1..] else s;
    if |digits| > 0 && AllDigits(digits)
    then Some(if negative then -(DigitsValue(digits) as int) else DigitsValue(digits))
    else None
  }

  /** Java's `long` narrowing of a `BigInteger` (`longValue`): the low 64
      bits as a two's complement number. */
  function LongValue(x: int): (r: int)
    ensures -0x8000_0000_0000_0000 <= r < 0x8000_0000_0000_0000
    ensures -0x8000_0000_0000_0000 <= x < 0x8000_0000_0000_0000 ==> r == x
  {
    var low := x % 0x1_0000_0000_0000_0000;
    if low >= 0x8000_0000_0000_0000 then low - 0x1_0000_0000_0000_0000 else low
  }

  /** The Java `Fraction(String)`: `BigInteger.TEN.pow(scale)` throws for a
      negative scale (an exponent larger than the digits after the point);
      otherwise both parts are divided by the gcd and narrowed with
      `longValue`, which wraps instead of throwing. */
  function JavaFraction(s: string): (r: Result<(int, int), FractionError>)
    ensures r.Failure? ==> r.error != OverflowError
  {
    match ParseBigDecimal(s)
    case None => Failure(FormatError)
    case Some(d) =>
      if d.scale < 0 then Failure(ArithmeticError)
      else
        var (n, den) := ReducedParts(d.unscaled, d.scale);
        Success((LongValue(n), LongValue(den)))
  }

  /** When both reduced parts fit in a `long`, the Java fraction is the
      decimal's value in lowest terms. */
  lemma JavaFractionExact(s: string)
    requires ParseBigDecimal(s).Some? && ParseBigDecimal(s).value.scale >= 0
    requires var d := ParseBigDecimal(s).value; var (n, den) := ReducedParts(d.unscaled, d.scale);
      -0x8000_0000_0000_0000 <= n < 0x8000_0000_0000_0000 && den < 0x8000_0000_0000_0000
    ensures JavaFraction(s).Success?
    ensures var d := ParseBigDecimal(s).value;
      var (n, den) := JavaFraction(s).value;
      den > 0 && n * Pow10(d.scale) == d.unscaled * den && Gcd(if n < 0 then -n else n, den) == 1
  {
    var d := ParseBigDecimal(s).value;
    ReducedPartsExact(d.unscaled, d.scale);
  }

  /** Java's `String.valueOf` of 1.0E7 has a negative scale, so the Java
      fraction of that interval throws. */
  lemma JavaFractionNegativeScale()
    ensures JavaFraction("1.0E7") == Failure(ArithmeticError)
  {
    ExponentPosition();
    assert "1.0E7"[..3] == "1.0" && "1.0E7"[4..] == "7";
    OneWithPoint();
    SevenDigits();
    assert ParseBigDecimal("1.0E7") == Some(Decimal(10, -6));
  }

  lemma ExponentPosition()
    ensures IndexOf("1.0E7", 'e') == None && IndexOf("1.0E7", 'E') == Some(3)
  {
    assert "1.0E7"[1..][1..][1..] == "E7";
  }

  lemma OneWithPoint()
    ensures PointedDigits("1.0") == Some(Decimal(10, 1))
  {
    assert IndexOf("1.0", '.') == Some(1);
    assert "1.0"[..1] + "1.0"[2..] == "10";
    assert AllDigits("10");
    assert "10"[..1] == "1";
    assert "1"[..0] == "";
  }

  lemma SevenDigits()
    ensures SignedDigits("7") == Some(7)
  {
    assert AllDigits("7");
    assert "7"[..0] == "";
  }
}
