/** The laws of Decimal, stated on the numbers the decimals denote. */
module DecimalLaws {
  import opened Results
  import opened Decimals
  import opened DecimalRounding

  // ------------------------------------------------------------- alignment

  lemma {:induction false} TenfoldCoefficient(c: int, s: nat)
    ensures Decimal(10 * c, s).Value() == 10.0 * Decimal(c, s).Value()
  {
    if s > 0 { TenfoldCoefficient(c, s - 1); }
  }

  /** Raising the coefficient and the scale together keeps the value. */
  lemma {:induction false} RaiseTo(d: Decimal, scale: nat)
    requires scale >= d.s
    ensures Decimal(d.Raised(scale), scale).Value() == d.Value()
    decreases scale
  {
    if scale > d.s {
      RaiseTo(d, scale - 1);
      RaisedStep(d, scale);
      TenfoldCoefficient(d.Raised(scale - 1), scale);
    }
  }

  lemma RaisedStep(d: Decimal, scale: nat)
    requires scale > d.s
    ensures d.Raised(scale) == 10 * d.Raised(scale - 1)
  {
    var p := Pow10(scale - 1 - d.s);
    assert d.c * (10 * p) == 10 * (d.c * p);
  }

  lemma AlignValue(a: Decimal, b: Decimal)
    ensures var (ca, cb, scale) := a.Align(b);
            && scale >= a.s && scale >= b.s
            && Decimal(ca, scale).Value() == a.Value()
            && Decimal(cb, scale).Value() == b.Value()
  {
    RaiseTo(a, a.Align(b).2);
    RaiseTo(b, a.Align(b).2);
  }

  lemma {:induction false} ScaledValue(d: Decimal)
    ensures d.Value() * Pow10(d.s) as real == d.c as real
    decreases d.s
  {
    if d.s > 0 {
      var e := Decimal(d.c, d.s - 1);
      ScaledValue(e);
      assert e.Value() / 10.0 * (10.0 * Pow10(e.s) as real) == e.Value() * Pow10(e.s) as real;
    }
  }

  lemma {:induction false} SignOfValue(d: Decimal)
    ensures d.c < 0 <==> d.Value() < 0.0
    ensures d.c > 0 <==> d.Value() > 0.0
    decreases d.s
  {
    if d.s > 0 { SignOfValue(Decimal(d.c, d.s - 1)); }
  }

  /** The sign is that of the value. */
  lemma SignIsTheValues(d: Decimal)
    ensures d.Sign() == if d.Value() < 0.0 then -1 else if d.Value() > 0.0 then 1 else 0
  {
    SignOfValue(d);
  }

  // --------------------------------------------------- exact arithmetic laws

  lemma {:induction false} SameScaleSum(a: int, b: int, s: nat)
    ensures Decimal(a + b, s).Value() == Decimal(a, s).Value() + Decimal(b, s).Value()
    ensures Decimal(a - b, s).Value() == Decimal(a, s).Value() - Decimal(b, s).Value()
  {
    if s > 0 { SameScaleSum(a, b, s - 1); }
  }

  lemma {:induction false} ProductValue(a: Decimal, b: Decimal)
    ensures a.Mul(b).Value() == a.Value() * b.Value()
    decreases a.s + b.s
  {
    if a.s > 0 {
      var a' := Decimal(a.c, a.s - 1);
      ProductValue(a', b);
      assert a'.Value() / 10.0 * b.Value() == (a'.Value() * b.Value()) / 10.0;
    } else if b.s > 0 {
      var b' := Decimal(b.c, b.s - 1);
      ProductValue(a, b');
      assert a.Value() * (b'.Value() / 10.0) == (a.Value() * b'.Value()) / 10.0;
    } else {
      CastProduct(a.c, b.c);
    }
  }

  /** Addition, subtraction, multiplication and negation are exact. */
  lemma ArithmeticIsExact(a: Decimal, b: Decimal)
    ensures a.Add(b).Value() == a.Value() + b.Value()
    ensures a.Sub(b).Value() == a.Value() - b.Value()
    ensures a.Mul(b).Value() == a.Value() * b.Value()
    ensures a.Neg().Value() == -a.Value()
  {
    var (ca, cb, scale) := a.Align(b);
    AlignValue(a, b);
    SameScaleSum(ca, cb, scale);
    ProductValue(a, b);
    SameScaleSum(0, 0, a.s);
    SameScaleSum(0, a.c, a.s);
  }

  /** Comparison orders the values, whatever the representations. */
  lemma CompareOrdersValues(a: Decimal, b: Decimal)
    ensures a.Compare(b) == -1 <==> a.Value() < b.Value()
    ensures a.Compare(b) == 0 <==> a.Value() == b.Value()
    ensures a.Compare(b) == 1 <==> a.Value() > b.Value()
  {
    var (ca, cb, scale) := a.Align(b);
    AlignValue(a, b);
    SameScaleSum(ca, cb, scale);
    SignOfValue(Decimal(ca - cb, scale));
  }

  // ------------------------------------------------------- rounding to a step

  /** x is the exact quotient of the two values. */
  ghost predicate IsQuotient(x: real, a: Decimal, b: Decimal) {
    x * b.Value() == a.Value()
  }

  /** n whole steps. */
  ghost function Multiple(n: int, step: Decimal): real {
    n as real * step.Value()
  }

  /** A real number in units of a decimal scale. */
  ghost function AtScale(x: real, scale: nat): real {
    x * Pow10(scale) as real
  }

  lemma Regroup(x: real, b: real, p: real, a: real)
    requires x * b == a
    ensures x * (b * p) == a * p
  {}

  lemma CoefficientQuotient(x: real, ca: int, cb: int, scale: nat)
    requires x * Decimal(cb, scale).Value() == Decimal(ca, scale).Value()
    ensures x * cb as real == ca as real
  {
    var va, vb := Decimal(ca, scale).Value(), Decimal(cb, scale).Value();
    ScaledValue(Decimal(ca, scale));
    ScaledValue(Decimal(cb, scale));
    Regroup(x, vb, Pow10(scale) as real, va);
  }

  lemma SameSign(a: Decimal, b: Decimal)
    requires a.Value() == b.Value()
    ensures (a.c < 0 <==> b.c < 0) && (a.c > 0 <==> b.c > 0)
  {
    SignOfValue(a);
    SignOfValue(b);
  }

  lemma AlignedQuotient(a: Decimal, b: Decimal, x: real)
    requires b.c > 0 && IsQuotient(x, a, b)
    ensures var (ca, cb, _) := a.Align(b);
            && cb > 0 && x * cb as real == ca as real
            && (ca < 0 <==> a.c < 0)
  {
    hide Decimal.Value, Decimal.Align, Decimal.Raised, Pow10;
    var (ca, cb, scale) := a.Align(b);
    AlignValue(a, b);
    SameSign(a, Decimal(ca, scale));
    SameSign(b, Decimal(cb, scale));
    CoefficientQuotient(x, ca, cb, scale);
  }

  lemma StepUnitsMeaning(d: Decimal, step: Decimal, mode: RoundingMode, x: real)
    requires step.c > 0 && IsQuotient(x, d, step)
    ensures d.StepUnits(step, mode) == CodedUnits(mode, x)
  {
    hide Decimal.Value, Pow10, CodedUnits, TruncDiv, ApplyRounding;
    AlignedQuotient(d, step, x);
    var (ca, cb, _) := d.Align(step);
    ApplyRoundingMeaning(ca, cb, mode, x);
  }

  lemma {:induction false} WholeSteps(units: int, step: Decimal)
    ensures Decimal(units * step.c, step.s).Value() == Multiple(units, step)
    decreases step.s
  {
    if step.s == 0 {
      CastProduct(units, step.c);
    } else {
      var step' := Decimal(step.c, step.s - 1);
      WholeSteps(units, step');
      assert units as real * (step'.Value() / 10.0) == (units as real * step'.Value()) / 10.0;
    }
  }

  /** RoundToStep returns a whole number of steps, and that number is a function of the exact
      quotient of the two values: the representation of either operand is irrelevant. */
  lemma RoundToStepMeaning(d: Decimal, step: Decimal, mode: RoundingMode, x: real)
    requires step.c > 0 && IsQuotient(x, d, step)
    ensures d.RoundToStep(step, mode).Success?
    ensures d.RoundToStep(step, mode).value.Value() == Multiple(CodedUnits(mode, x), step)
  {
    hide Decimal.Value, Pow10, CodedUnits, Decimal.StepUnits;
    StepUnitsMeaning(d, step, mode, x);
    WholeSteps(d.StepUnits(step, mode), step);
  }

  /** Exact quotients exist. */
  lemma ExactQuotient(a: Decimal, b: Decimal) returns (x: real)
    requires b.c != 0
    ensures IsQuotient(x, a, b)
  {
    SignOfValue(b);
    x := a.Value() / b.Value();
  }

  lemma OrderedMultiples(m: int, n: int, step: Decimal)
    requires step.c > 0
    ensures Multiple(m, step) == Multiple(n, step) <==> m == n
    ensures Multiple(m, step) <= Multiple(n, step) <==> m <= n
  {
    hide Decimal.Value;
    SignOfValue(step);
    ScaleOrder(m as real, n as real, step.Value());
    ScaleOrder(n as real, m as real, step.Value());
  }

  /** RoundToStep is correctly rounded except, in mode UP, strictly between -step and zero. */
  lemma RoundToStepCorrectIff(d: Decimal, step: Decimal, mode: RoundingMode, x: real)
    requires step.c > 0 && IsQuotient(x, d, step)
    ensures d.RoundToStep(step, mode).Success?
    ensures d.RoundToStep(step, mode).value.Value() == Multiple(Rounded(mode, x), step)
            <==> !(mode == UP && -step.Value() < d.Value() < 0.0)
  {
    hide Decimal.Value, Decimal.RoundToStep, Pow10, IsQuotient, Multiple;
    RoundToStepMeaning(d, step, mode, x);
    OneAndZero(d, step, x);
    OrderedMultiples(CodedUnits(mode, x), Rounded(mode, x), step);
  }

  lemma OneAndZero(d: Decimal, step: Decimal, x: real)
    requires step.c > 0 && IsQuotient(x, d, step)
    ensures -step.Value() < d.Value() < 0.0 <==> -1.0 < x < 0.0
    ensures d.Value() == 0.0 <==> x == 0.0
  {
    hide Decimal.Value;
    SignOfValue(step);
    FractionMarks(d.Value(), step.Value(), x);
  }

  /** Rounding an already rounded value changes nothing, in every mode. */
  lemma RoundToStepIdempotent(d: Decimal, step: Decimal, mode: RoundingMode, again: RoundingMode)
    requires step.c > 0
    ensures var r := d.RoundToStep(step, mode);
            && r.Success? && r.value.RoundToStep(step, again).Success?
            && r.value.RoundToStep(step, again).value.Value() == r.value.Value()
  {
    hide Decimal.Value, Decimal.RoundToStep, Pow10;
    var x := ExactQuotient(d, step);
    RoundToStepMeaning(d, step, mode, x);
    var n := CodedUnits(mode, x);
    RoundToStepMeaning(d.RoundToStep(step, mode).value, step, again, n as real);
    assert CodedUnits(again, n as real) == n;
  }

  /** The code's units are ordered like their arguments, with one exception in mode UP. */
  lemma CodedUnitsMonotone(mode: RoundingMode, x: real, y: real)
    requires x <= y
    ensures Rounded(mode, x) <= Rounded(mode, y)
    ensures CodedUnits(mode, x) <= CodedUnits(mode, y) <==> !(mode == UP && -1.0 < x < 0.0 && y == 0.0)
  {}

  lemma OrderedQuotients(d: Decimal, e: Decimal, step: Decimal) returns (x: real, y: real)
    requires step.c > 0 && d.Value() <= e.Value()
    ensures IsQuotient(x, d, step) && IsQuotient(y, e, step) && x <= y
  {
    hide Decimal.Value;
    x := ExactQuotient(d, step);
    y := ExactQuotient(e, step);
    SignOfValue(step);
    ScaleOrder(x, y, step.Value());
  }

  /** Rounding to a step keeps the order of its arguments; in mode UP exactly the pairs of a
      value strictly between -step and zero with zero itself are put in the wrong order. */
  lemma RoundToStepMonotone(d: Decimal, e: Decimal, step: Decimal, mode: RoundingMode)
    requires step.c > 0 && d.Value() <= e.Value()
    ensures d.RoundToStep(step, mode).Success? && e.RoundToStep(step, mode).Success?
    ensures d.RoundToStep(step, mode).value.Value() <= e.RoundToStep(step, mode).value.Value()
            <==> !(mode == UP && -step.Value() < d.Value() < 0.0 && e.Value() == 0.0)
  {
    hide *;
    var x, y := OrderedQuotients(d, e, step);
    RoundToStepMeaning(d, step, mode, x);
    RoundToStepMeaning(e, step, mode, y);
    OneAndZero(d, step, x);
    OneAndZero(e, step, y);
    CodedUnitsMonotone(mode, x, y);
    OrderedMultiples(CodedUnits(mode, x), CodedUnits(mode, y), step);
  }

  /** 2.5 and 2.50 round alike, whichever way step and operand are written. */
  lemma RoundToStepIgnoresRepresentation(d: Decimal, d': Decimal, step: Decimal, step': Decimal, mode: RoundingMode)
    requires d.Eq(d') && step.Eq(step') && step.c > 0
    ensures step'.c > 0
    ensures d.RoundToStep(step, mode).Success? && d'.RoundToStep(step', mode).Success?
    ensures d.RoundToStep(step, mode).value.Eq(d'.RoundToStep(step', mode).value)
  {
    hide Decimal.Value, Decimal.RoundToStep, Pow10, CodedUnits, Decimal.Compare;
    CompareOrdersValues(d, d');
    CompareOrdersValues(step, step');
    SameSign(step, step');
    var x := ExactQuotient(d, step);
    RoundToStepMeaning(d, step, mode, x);
    RoundToStepMeaning(d', step', mode, x);
    CompareOrdersValues(d.RoundToStep(step, mode).value, d'.RoundToStep(step', mode).value);
  }

  // ------------------------------------------------------ rounding to a scale

  /** Dropping digits: the quotient by 10^k is the value in units of the kept scale. */
  lemma DroppedDigits(d: Decimal, scale: nat, x: real)
    requires scale < d.s && x == AtScale(d.Value(), scale)
    ensures x * Pow10(d.s - scale) as real == d.c as real
  {
    hide Decimal.Value;
    var k := d.s - scale;
    ScaledValue(d);
    Pow10Sum(scale, k);
    assert Pow10(d.s) == Pow10(scale) * Pow10(k);
    CastProduct(Pow10(scale), Pow10(k));
    RegroupProduct(d.Value(), Pow10(scale) as real, Pow10(k) as real);
  }

  lemma RegroupProduct(a: real, b: real, c: real)
    ensures (a * b) * c == a * (b * c)
  {}

  lemma DropDigits(d: Decimal, scale: nat, mode: RoundingMode, extra: bool)
    requires scale < d.s
    ensures var p := Pow10(d.s - scale);
            var q := TruncDiv(d.c, p);
            d.RoundToScale(scale, mode, extra).c == ApplyRounding(q, d.c - q * p, p, d.c < 0, mode, extra)
  {
    hide TruncDiv, ApplyRounding, Pow10;
  }

  lemma WholeIsExact(mode: RoundingMode, n: int)
    ensures CodedUnits(mode, n as real) == n
  {}

  /** A scale is a step: RoundToScale keeps the coded rounding of value * 10^scale units. */
  lemma RoundToScaleMeaning(d: Decimal, scale: nat, mode: RoundingMode)
    ensures d.RoundToScale(scale, mode).s == scale
    ensures d.RoundToScale(scale, mode).c == CodedUnits(mode, AtScale(d.Value(), scale))
  {
    hide Decimal.Value, CodedUnits, TruncDiv, ApplyRounding, Decimal.Raised;
    var x := AtScale(d.Value(), scale);
    if scale >= d.s {
      var c' := d.Raised(scale);
      RaiseTo(d, scale);
      ScaledValue(Decimal(c', scale));
      assert x == c' as real;
      WholeIsExact(mode, c');
    } else {
      hide AtScale;
      DroppedDigits(d, scale, x);
      ApplyRoundingMeaning(d.c, Pow10(d.s - scale), mode, x);
      DropDigits(d, scale, mode, false);
    }
  }

  // ----------------------------------------------------------------- division

  lemma TruncDivNegate(a: int, b: int)
    requires b < 0
    ensures TruncDiv(a, b) == TruncDiv(-a, -b)
  {
    var n, m := Abs(a), -b;
    assert n == m * (n / m) + n % m;
    assert n == b * (n / b) + n % b;
    SameQuotient(n, m, n / m, n % m, -(n / b), n % b);
  }

  lemma SameQuotient(n: int, m: int, q: int, r: int, q': int, r': int)
    requires m > 0 && 0 <= r < m && 0 <= r' < m
    requires n == m * q + r && n == m * q' + r'
    ensures q == q'
  {
    assert m * (q - q') == r' - r;
    if q > q' { AtLeastOnce(m, q - q'); }
    if q < q' { assert m * (q' - q) == r - r'; AtLeastOnce(m, q' - q); }
  }

  lemma {:induction false} AtLeastOnce(m: int, k: int)
    requires m > 0 && k > 0
    ensures m * k >= m
    decreases k
  {
    if k > 1 { AtLeastOnce(m, k - 1); }
  }

  /** The truncated quotient and its inexactness flag, for a divisor of either sign. */
  lemma TruncDivInexact(a: int, b: int, y: real)
    requires b != 0 && y * b as real == a as real
    ensures TruncDiv(a, b) == Truncated(y)
    ensures a - TruncDiv(a, b) * b != 0 <==> y != TruncDiv(a, b) as real
  {
    hide TruncDiv, Truncated;
    if b > 0 {
      TruncDivIsTruncation(a, b, y);
    } else {
      TruncDivNegate(a, b);
      NegateProduct(b as real, y, a as real);
      TruncDivIsTruncation(-a, -b, y);
    }
    var q := TruncDiv(a, b);
    RemainderQuotient(a, b, q, y);
    NoZeroDivisors(y - q as real, b as real);
  }

  lemma NoZeroDivisors(x: real, b: real)
    requires b != 0.0
    ensures x * b == 0.0 <==> x == 0.0
  {
    if x > 0.0 && b > 0.0 { assert x * b > 0.0; }
    if x > 0.0 && b < 0.0 { assert x * -b > 0.0; }
    if x < 0.0 && b > 0.0 { assert -x * b > 0.0; }
    if x < 0.0 && b < 0.0 { assert -x * -b > 0.0; }
  }

  /** The guarded ratio is the exact quotient in units of the guard scale. */
  lemma GuardRatioValue(a: Decimal, b: Decimal, scale: nat, x: real)
    requires b.c != 0 && IsQuotient(x, a, b)
    ensures var (num, den) := a.GuardRatio(b, scale);
            (x * Pow10(scale + 1) as real) * den as real == num as real
  {
    hide Decimal.Value, Pow10;
    ScaledValue(a);
    ScaledValue(b);
    var g := scale + 1;
    var shift := g + b.s - a.s;
    if shift >= 0 {
      Pow10Sum(a.s, shift);
      Pow10Sum(g, b.s);
      assert Pow10(a.s) * Pow10(shift) == Pow10(g) * Pow10(b.s) by { assert a.s + shift == g + b.s; }
      CastProduct(Pow10(a.s), Pow10(shift));
      CastProduct(Pow10(g), Pow10(b.s));
      CastProduct(a.c, Pow10(shift));
      GuardUp(x, b.Value(), Pow10(a.s) as real, Pow10(b.s) as real, Pow10(g) as real, Pow10(shift) as real);
    } else {
      var k := -shift;
      Pow10Sum(g, b.s);
      Pow10Sum(g + b.s, k);
      assert Pow10(a.s) == (Pow10(g) * Pow10(b.s)) * Pow10(k) by { assert a.s == (g + b.s) + k; }
      CastProduct(Pow10(g) * Pow10(b.s), Pow10(k));
      CastProduct(Pow10(g), Pow10(b.s));
      CastProduct(b.c, Pow10(k));
      GuardDown(x, b.Value(), Pow10(a.s) as real, Pow10(b.s) as real, Pow10(g) as real, Pow10(k) as real);
    }
  }

  lemma GuardUp(x: real, b: real, pa: real, pb: real, pg: real, ps: real)
    requires pa * ps == pg * pb
    ensures (x * pg) * (b * pb) == ((x * b) * pa) * ps
  {
    calc {
      (x * pg) * (b * pb);
      (x * b) * (pg * pb);
      (x * b) * (pa * ps);
      ((x * b) * pa) * ps;
    }
  }

  lemma GuardDown(x: real, b: real, pa: real, pb: real, pg: real, pk: real)
    requires pa == (pg * pb) * pk
    ensures (x * pg) * ((b * pb) * pk) == (x * b) * pa
  {
    calc {
      (x * pg) * ((b * pb) * pk);
      (x * b) * ((pg * pb) * pk);
      (x * b) * pa;
    }
  }

  lemma TenthOf(x: real, p: int)
    ensures x * (10 * p) as real / 10.0 == x * p as real
  {
    assert (10 * p) as real == 10.0 * p as real;
  }

  /** Division, as a function of the exact quotient x: the result has the asked-for scale and
      its coefficient is what guarded rounding makes of x in units of that scale. */
  lemma DivMeaning(a: Decimal, b: Decimal, scale: nat, mode: RoundingMode, x: real)
    requires b.c != 0 && IsQuotient(x, a, b)
    ensures a.Div(b, scale, mode).Success?
    ensures a.Div(b, scale, mode).value.s == scale
    ensures a.Div(b, scale, mode).value.c == DividedUnits(mode, AtScale(x, scale))
  {
    hide Decimal.Value, DividedUnits, TruncDiv, Truncated, ApplyRounding, Decimal.GuardRatio, IsQuotient;
    GuardRatioValue(a, b, scale, x);
    a.GuardDenominator(b, scale);
    var (num, den) := a.GuardRatio(b, scale);
    var y := x * Pow10(scale + 1) as real;
    TruncDivInexact(num, den, y);
    GuardedRounding(y, TruncDiv(num, den), mode);
    PowerStep(scale);
    TenthOf(x, Pow10(scale));
    assert y / 10.0 == AtScale(x, scale);
    var q := TruncDiv(num, den);
    DropDigits(Decimal(q, scale + 1), scale, mode, num - q * den != 0);
    assert Pow10(scale + 1 - scale) == 10;
    hide AtScale, Decimal.RoundToScale;
  }

  lemma PowerStep(scale: nat)
    ensures Pow10(scale + 1) == 10 * Pow10(scale) && Pow10(1) == 10
  {
    assert Pow10(1) == 10 * Pow10(0);
  }

  /** Division is correctly rounded exactly when the guard digit suffices: on every quotient
      for DOWN and HALF_UP, and on every quotient >= 0 for FLOOR, CEIL and UP. */
  lemma DivCorrectIff(a: Decimal, b: Decimal, scale: nat, mode: RoundingMode, x: real)
    requires b.c != 0 && IsQuotient(x, a, b)
    ensures a.Div(b, scale, mode).Success?
    ensures var units := AtScale(x, scale);
            && (a.Div(b, scale, mode).value.c == Rounded(mode, units) <==> !GuardDigitTooShort(mode, units))
            && (units >= 0.0 && mode != HALF_EVEN ==> !GuardDigitTooShort(mode, units))
            && (mode == DOWN || mode == HALF_UP ==> !GuardDigitTooShort(mode, units))
  {
    hide Decimal.Value, Pow10, Decimal.Div, DividedUnits, Rounded, GuardDigitTooShort, IsQuotient, AtScale;
    DivMeaning(a, b, scale, mode, x);
    DividedUnitsCorrectIff(mode, AtScale(x, scale));
  }

  lemma DividedUnitsCorrectIff(mode: RoundingMode, x: real)
    ensures DividedUnits(mode, x) == Rounded(mode, x) <==> !GuardDigitTooShort(mode, x)
    ensures x >= 0.0 && mode != HALF_EVEN ==> !GuardDigitTooShort(mode, x)
    ensures mode == DOWN || mode == HALF_UP ==> !GuardDigitTooShort(mode, x)
  {}

  /** Quotients of equal values are the same decimal. */
  lemma DivIgnoresRepresentation(a: Decimal, a': Decimal, b: Decimal, b': Decimal, scale: nat, mode: RoundingMode)
    requires a.Eq(a') && b.Eq(b')
    ensures a.Div(b, scale, mode) == a'.Div(b', scale, mode)
  {
    CompareOrdersValues(a, a');
    CompareOrdersValues(b, b');
    SignOfValue(b);
    SignOfValue(b');
    hide Decimal.Value, Pow10, DividedUnits;
    if b.c != 0 {
      var x := ExactQuotient(a, b);
      DivMeaning(a, b, scale, mode, x);
      DivMeaning(a', b', scale, mode, x);
    }
  }

  /** Concrete inputs on which the guard digit is too short: -0.01 and 0.51 to whole units. */
  lemma GuardDigitCounterexamples()
    ensures Decimal(-1, 0).Div(Decimal(100, 0), 0, FLOOR) == Success(Decimal(0, 0))
    ensures Decimal(-1, 0).Div(Decimal(100, 0), 0, CEIL) == Success(Decimal(1, 0))
    ensures Decimal(51, 0).Div(Decimal(100, 0), 0, HALF_EVEN) == Success(Decimal(0, 0))
  {
    hide Decimal.Div;
    HundredthsToUnits(-1, FLOOR);
    HundredthsToUnits(-1, CEIL);
    HundredthsToUnits(51, HALF_EVEN);
  }

  /** A whole number of hundredths in units: one guard digit is computed, then dropped. */
  lemma HundredthsToUnits(n: int, mode: RoundingMode)
    ensures var tenths := TruncDiv(10 * n, 100);
            var units := TruncDiv(tenths, 10);
            Decimal(n, 0).Div(Decimal(100, 0), 0, mode) == Success(Decimal(
              ApplyRounding(units, tenths - units * 10, 10, tenths < 0, mode, 10 * n - tenths * 100 != 0), 0))
  {
    PowerStep(0);
    hide Pow10, TruncDiv, ApplyRounding;
    assert Decimal(n, 0).GuardRatio(Decimal(100, 0), 0) == (10 * n, 100);
  }

  /** A concrete input on which mode UP rounds -0.5 to +1. */
  lemma UpCounterexample()
    ensures Decimal(-5, 1).RoundToStep(Decimal(1, 0), UP) == Success(Decimal(1, 0))
  {
    PowerStep(0);
    assert Decimal(-5, 1).Align(Decimal(1, 0)) == (-5, 10, 1);
  }
}
