/** Exact order sizing and P&L on Decimals. */
module Money {
  import opened Decimals
  import opened DecimalRounding
  import opened DecimalLaws

  datatype PositionSide = LONG | SHORT

  /** Base quantity a notional buys at a price, rounded down to the step. */
  function QuantityForNotional(notional: Decimal, price: Decimal, step: Decimal): Decimal {
    if price.Sign() <= 0 || notional.Sign() <= 0 || step.Sign() <= 0 then Decimal(0, 0)
    else notional.Div(price, step.s + 8, DOWN).value.RoundToStep(step, DOWN).value
  }

  function GrossPnl(side: PositionSide, size: Decimal, entry: Decimal, exit: Decimal): Decimal {
    var delta := exit.Sub(entry);
    (if side == LONG then delta else delta.Neg()).Mul(size)
  }

  function RoundTripFees(size: Decimal, entry: Decimal, exit: Decimal, feeRate: Decimal): Decimal {
    entry.Mul(size).Add(exit.Mul(size)).Mul(feeRate)
  }

  function NetPnl(side: PositionSide, size: Decimal, entry: Decimal, exit: Decimal, feeRate: Decimal): Decimal {
    GrossPnl(side, size, entry, exit).Sub(RoundTripFees(size, entry, exit, feeRate))
  }

  // -------------------------------------------------------- nested truncation

  /** A real compared with a decimal, in units of the decimal's own scale. */
  lemma CompareAtScale(x: real, d: Decimal)
    ensures AtScale(x, d.s) >= d.c as real <==> x >= d.Value()
    ensures AtScale(x, d.s) <= d.c as real <==> x <= d.Value()
  {
    hide Decimal.Value;
    ScaledValue(d);
    ScaleOrder(x, d.Value(), Pow10(d.s) as real);
  }

  lemma FloorGap(y: real, n: int, m: int)
    requires y >= 0.0 && n == Truncated(y)
    ensures n as real <= y && (y < m as real <==> n < m)
  {}

  /** Truncating at a scale keeps the order with every decimal of no finer scale. */
  lemma TruncationKeepsOrder(x: real, raw: Decimal, d: Decimal)
    requires x >= 0.0 && raw.s >= d.s && raw.c == Truncated(AtScale(x, raw.s))
    ensures raw.Value() <= x
    ensures raw.Value() < d.Value() <==> x < d.Value()
  {
    hide Decimal.Value, AtScale, Truncated, Decimal.Raised;
    var e := Decimal(d.Raised(raw.s), raw.s);
    RaiseTo(d, raw.s);
    var y := AtScale(x, raw.s);
    NonNegativeAtScale(x, raw.s);
    FloorGap(y, raw.c, e.c);
    CompareAtScale(x, raw);
    CompareAtScale(x, e);
    SameScaleSum(raw.c, e.c, raw.s);
    SignOfValue(Decimal(raw.c - e.c, raw.s));
  }

  lemma NonNegativeAtScale(x: real, scale: nat)
    requires x >= 0.0
    ensures AtScale(x, scale) >= 0.0
  {
    ScaleOrder(x, 0.0, Pow10(scale) as real);
  }

  lemma FloorSteps(v: real, w: real, x: real)
    requires w > 0.0 && v >= 0.0 && x * w == v
    ensures var k := Truncated(x); k >= 0 && k as real * w <= v < (k + 1) as real * w
  {
    ZeroMark(v, w, x);
    var k := Truncated(x);
    BetweenScaled(x, k as real, (k + 1) as real, v, w);
  }

  lemma BetweenScaled(x: real, lo: real, hi: real, v: real, w: real)
    requires lo <= x < hi && w > 0.0 && x * w == v
    ensures lo * w <= v < hi * w
  {
    assert (x - lo) * w >= 0.0;
    assert (hi - x) * w > 0.0;
  }

  /** Truncation to whole steps: the largest multiple not above a non-negative value. */
  lemma TruncatedSteps(d: Decimal, step: Decimal, x: real)
    requires step.c > 0 && d.Value() >= 0.0 && IsQuotient(x, d, step)
    ensures var k := Truncated(x); k >= 0 && Multiple(k, step) <= d.Value() < Multiple(k + 1, step)
  {
    SignOfValue(step);
    hide Truncated;
    FloorSteps(d.Value(), step.Value(), x);
  }

  /** The quantity is the whole number of steps that the exact quotient n/p contains, in spite
      of the guard digit, the working scale and the step each truncating once. */
  lemma QuantitySteps(n: Decimal, p: Decimal, step: Decimal, x: real) returns (k: int)
    requires n.c > 0 && p.c > 0 && step.c > 0 && IsQuotient(x, n, p)
    ensures k >= 0 && QuantityForNotional(n, p, step).Value() == Multiple(k, step)
    ensures Multiple(k, step) <= x < Multiple(k + 1, step)
  {
    hide Decimal.Value, IsQuotient, AtScale, Truncated, Decimal.Div, Decimal.RoundToStep, Multiple;
    var working := step.s + 8;
    DivMeaning(n, p, working, DOWN, x);
    var raw := n.Div(p, working, DOWN).value;
    PositiveQuotient(n, p, x);
    NonNegativeAtScale(x, working);
    assert raw.c == Truncated(AtScale(x, working)) && raw.c >= 0 by {
      FloorGap(AtScale(x, working), Truncated(AtScale(x, working)), 0);
    }
    SignOfValue(raw);
    var y := ExactQuotient(raw, step);
    RoundToStepMeaning(raw, step, DOWN, y);
    k := Truncated(y);
    TruncatedSteps(raw, step, y);
    WholeSteps(k + 1, step);
    TruncationKeepsOrder(x, raw, Decimal((k + 1) * step.c, step.s));
  }

  lemma PositiveQuotient(n: Decimal, p: Decimal, x: real)
    requires n.c > 0 && p.c > 0 && IsQuotient(x, n, p)
    ensures x > 0.0
  {
    hide Decimal.Value;
    SignOfValue(n);
    SignOfValue(p);
    ZeroMark(n.Value(), p.Value(), x);
  }

  /** The order-sizing theorem: the quantity is a whole number of steps, costs no more than the
      notional, and one more step would cost more. */
  lemma QuantityIsMaximal(n: Decimal, p: Decimal, step: Decimal) returns (k: int)
    requires n.c > 0 && p.c > 0 && step.c > 0
    ensures k >= 0 && QuantityForNotional(n, p, step).Value() == Multiple(k, step)
    ensures var q := QuantityForNotional(n, p, step);
            q.Value() * p.Value() <= n.Value() < (q.Value() + step.Value()) * p.Value()
  {
    hide Decimal.Value, QuantityForNotional;
    var x := ExactQuotient(n, p);
    k := QuantitySteps(n, p, step, x);
    SignOfValue(p);
    ScaleOrder(Multiple(k, step), x, p.Value());
    ScaleOrder(Multiple(k + 1, step), x, p.Value());
  }

  /** Hence it is the largest: every multiple of the step that the notional buys is no larger. */
  lemma QuantityIsLargest(n: Decimal, p: Decimal, step: Decimal, m: int)
    requires n.c > 0 && p.c > 0 && step.c > 0
    ensures Multiple(m, step) * p.Value() <= n.Value()
            <==> Multiple(m, step) <= QuantityForNotional(n, p, step).Value()
  {
    hide Decimal.Value, QuantityForNotional, Multiple;
    var x := ExactQuotient(n, p);
    var k := QuantitySteps(n, p, step, x);
    SignOfValue(p);
    ScaleOrder(Multiple(m, step), x, p.Value());
    OrderedMultiples(m, k, step);
    OrderedMultiples(k + 1, m, step);
  }

  /** Anything that is not a positive notional, price and step sizes to zero. */
  lemma NoQuantityWithoutCapital(n: Decimal, p: Decimal, step: Decimal)
    ensures QuantityForNotional(n, p, step).Value() >= 0.0
    ensures n.c <= 0 || p.c <= 0 || step.c <= 0 ==> QuantityForNotional(n, p, step) == Decimal(0, 0)
  {
    if n.c > 0 && p.c > 0 && step.c > 0 {
      var x := ExactQuotient(n, p);
      var k := QuantitySteps(n, p, step, x);
      OrderedMultiples(0, k, step);
    }
  }

  // --------------------------------------------------------------------- P&L

  /** Net P&L is the signed price move times the size, less the fee on both notionals. */
  lemma NetPnlValue(side: PositionSide, size: Decimal, entry: Decimal, exit: Decimal, feeRate: Decimal)
    ensures NetPnl(side, size, entry, exit, feeRate).Value()
            == (if side == LONG then exit.Value() - entry.Value() else entry.Value() - exit.Value()) * size.Value()
               - (entry.Value() * size.Value() + exit.Value() * size.Value()) * feeRate.Value()
  {
    hide Decimal.Value, Decimal.Add, Decimal.Sub, Decimal.Mul, Decimal.Neg;
    var delta := exit.Sub(entry);
    var gross, fees := GrossPnl(side, size, entry, exit), RoundTripFees(size, entry, exit, feeRate);
    ArithmeticIsExact(exit, entry);
    ArithmeticIsExact(delta, size);
    ArithmeticIsExact(delta.Neg(), size);
    ArithmeticIsExact(entry, size);
    ArithmeticIsExact(exit, size);
    ArithmeticIsExact(entry.Mul(size), exit.Mul(size));
    ArithmeticIsExact(entry.Mul(size).Add(exit.Mul(size)), feeRate);
    ArithmeticIsExact(gross, fees);
  }
}
