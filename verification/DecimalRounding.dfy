/** What the digit-level rounding code computes, as a function of the exact quotient. */
module DecimalRounding {
  import opened Reals
  import opened Decimals

  // ------------------------------------------- the reference is what it claims

  /** The half modes return a nearest integer; only ties are decided by the mode. */
  lemma RoundedIsNearest(mode: RoundingMode, x: real, m: int)
    requires mode == HALF_UP || mode == HALF_EVEN
    ensures var n := Rounded(mode, x);
            && AbsReal(x - n as real) <= AbsReal(x - m as real)
            && (n != m && AbsReal(x - n as real) == AbsReal(x - m as real) ==>
                  if mode == HALF_EVEN then n % 2 == 0 else AbsReal(n as real) > AbsReal(m as real))
  {}

  /** The directed modes return the closest integer on their own side. */
  lemma RoundedIsDirected(x: real)
    ensures Rounded(FLOOR, x) as real <= x < Rounded(FLOOR, x) as real + 1.0
    ensures Rounded(CEIL, x) as real - 1.0 < x <= Rounded(CEIL, x) as real
    ensures AbsReal(Rounded(DOWN, x) as real) <= AbsReal(x) < AbsReal(Rounded(DOWN, x) as real) + 1.0
    ensures AbsReal(Rounded(UP, x) as real) - 1.0 < AbsReal(x) <= AbsReal(Rounded(UP, x) as real) || x == 0.0
    ensures x * Rounded(DOWN, x) as real >= 0.0 && x * Rounded(UP, x) as real >= 0.0
  {}

  // ------------------------------------------------------ exact quotients

  // An exact quotient a/b is a real x with x * b == a; stating it by multiplication keeps
  // every proof below free of division.

  lemma CastProduct(a: int, b: int)
    ensures (a * b) as real == a as real * b as real
  {}

  lemma ScaleOrder(x: real, y: real, k: real)
    requires k > 0.0
    ensures x >= y <==> x * k >= y * k
    ensures x <= y <==> x * k <= y * k
  {
    if x > y { assert (x - y) * k > 0.0; }
    if x < y { assert (y - x) * k > 0.0; }
  }

  lemma HalfMark(r: real, b: real, f: real)
    requires b > 0.0 && f * b == r
    ensures (f >= 0.5 <==> 2.0 * r >= b) && (f <= 0.5 <==> 2.0 * r <= b)
  {
    ScaleOrder(f, 0.5, b);
  }

  lemma OneMark(r: real, b: real, f: real)
    requires b > 0.0 && f * b == r
    ensures f >= 1.0 <==> r >= b
  {
    ScaleOrder(f, 1.0, b);
  }

  lemma ZeroMark(r: real, b: real, f: real)
    requires b > 0.0 && f * b == r
    ensures (f >= 0.0 <==> r >= 0.0) && (f <= 0.0 <==> r <= 0.0)
  {
    ScaleOrder(f, 0.0, b);
  }

  lemma NegateProduct(f: real, b: real, r: real)
    requires f * b == r
    ensures (-f) * b == -r
  {}

  /** The quotient f of r by b compared with -1, -1/2, 0, 1/2 and 1. */
  lemma FractionMarks(r: real, b: real, f: real)
    requires b > 0.0 && f * b == r
    ensures (f >= 0.5 <==> 2.0 * r >= b) && (f <= 0.5 <==> 2.0 * r <= b)
    ensures (f >= -0.5 <==> 2.0 * r >= -b) && (f <= -0.5 <==> 2.0 * r <= -b)
    ensures (f >= 1.0 <==> r >= b) && (f <= -1.0 <==> r <= -b)
    ensures (f >= 0.0 <==> r >= 0.0) && (f <= 0.0 <==> r <= 0.0)
  {
    HalfMark(r, b, f);
    OneMark(r, b, f);
    ZeroMark(r, b, f);
    NegateProduct(f, b, r);
    HalfMark(-r, b, -f);
    OneMark(-r, b, -f);
  }

  // -------------------------------------------------- truncating division

  lemma TruncDivRemainder(a: int, b: int)
    requires b > 0
    ensures var r := a - TruncDiv(a, b) * b;
            (a >= 0 ==> 0 <= r < b) && (a <= 0 ==> -b < r <= 0)
  {
    if a >= 0 {
      assert a == b * (a / b) + a % b;
    } else {
      assert -a == b * (-a / b) + (-a) % b;
      assert TruncDiv(a, b) * b == -((-a / b) * b);
    }
  }

  lemma RemainderQuotient(a: int, b: int, q: int, x: real)
    requires x * b as real == a as real
    ensures (x - q as real) * b as real == (a - q * b) as real
  {
    CastProduct(q, b);
  }

  /** BigInt division truncates the exact quotient. */
  lemma TruncDivIsTruncation(a: int, b: int, x: real)
    requires b > 0 && x * b as real == a as real
    ensures TruncDiv(a, b) == Truncated(x)
  {
    TruncDivRemainder(a, b);
    var q := TruncDiv(a, b);
    var r := a - q * b;
    RemainderQuotient(a, b, q, x);
    FractionMarks(r as real, b as real, x - q as real);
    ZeroMark(a as real, b as real, x);
  }

  // -------------------------------------------- what ApplyRounding computes

  /** The units the code returns for the exact quotient x: the reference rounding, except
      that UP looks at the truncated quotient for a sign and so sends (-1,0) to +1. */
  ghost function CodedUnits(mode: RoundingMode, x: real): int {
    if mode == UP && -1.0 < x < 0.0 then 1 else Rounded(mode, x)
  }

  lemma ApplyRoundingMeaning(num: int, den: int, mode: RoundingMode, x: real)
    requires den > 0 && x * den as real == num as real
    ensures var q := TruncDiv(num, den);
            ApplyRounding(q, num - q * den, den, num < 0, mode, false) == CodedUnits(mode, x)
  {
    var q := TruncDiv(num, den);
    var r := num - q * den;
    TruncDivIsTruncation(num, den, x);
    RemainderQuotient(num, den, q, x);
    FractionMarks(r as real, den as real, x - q as real);
    ZeroMark(num as real, den as real, x);
    FromParts(q, r, den, num < 0, mode, x, x - q as real);
  }

  /** The case split behind ApplyRoundingMeaning, free of division. */
  lemma FromParts(q: int, r: int, den: int, negative: bool, mode: RoundingMode, x: real, f: real)
    requires den > 0 && x == q as real + f && q == Truncated(x) && (negative <==> x < 0.0)
    requires (f >= 0.5 <==> 2 * r >= den) && (f <= 0.5 <==> 2 * r <= den)
    requires (f >= -0.5 <==> 2 * r >= -den) && (f <= -0.5 <==> 2 * r <= -den)
    requires (f >= 0.0 <==> r >= 0) && (f <= 0.0 <==> r <= 0)
    ensures ApplyRounding(q, r, den, negative, mode, false) == CodedUnits(mode, x)
  {
  }

  /** Guarded division keeps one extra digit and a flag. For each mode, the exact quotients x
      (in units of the target scale) on which that is not enough. */
  ghost predicate GuardDigitTooShort(mode: RoundingMode, x: real) {
    match mode
    case DOWN | HALF_UP => false
    case UP => -1.0 < x < 0.0
    case FLOOR | CEIL => -0.1 < x < 0.0
    case HALF_EVEN =>
      var t := Truncated(x);
      t % 2 == 0 && 0.5 < AbsReal(x - t as real) < 0.6
  }

  /** The units guarded division returns for the exact quotient x. */
  ghost function DividedUnits(mode: RoundingMode, x: real): int {
    if !GuardDigitTooShort(mode, x) then Rounded(mode, x)
    else match mode
      case UP | CEIL => 1
      case FLOOR => 0
      case _ => Truncated(x)
  }

  lemma GuardedRounding(y: real, g: int, mode: RoundingMode)
    requires g == Truncated(y)
    ensures var q := TruncDiv(g, 10);
            ApplyRounding(q, g - q * 10, 10, g < 0, mode, y != g as real) == DividedUnits(mode, y / 10.0)
  {
    var x := y / 10.0;
    var q := TruncDiv(g, 10);
    var r := g - q * 10;
    assert q == Truncated(x);
    assert x == q as real + (r as real + (y - g as real)) / 10.0;
  }
}
