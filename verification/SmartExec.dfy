/** TWAP and iceberg planning: which smaller orders work an intent, how large, and when. */
module SmartExec {
  import opened Results
  import opened Reals
  import opened Decimals
  import opened DecimalRounding
  import opened DecimalLaws
  import opened OrderStates
  import opened Engines

  datatype ChildOrder = ChildOrder(at: int, qty: real, price: Option<real>, postOnly: bool, slice: nat)

  /** Rounding to a step; a step that is not positive rounds nothing. */
  function RoundStep(value: real, step: real, mode: RoundingMode): real {
    if step <= 0.0 then value else Rounded(mode, value / step) as real * step
  }

  /** The nearest whole millisecond, halves upwards. */
  function RoundTime(t: real): int {
    (t + 0.5).Floor
  }

  ghost predicate IsMultiple(x: real, step: real) {
    exists k: int :: Whole(k, step) == x
  }

  function Whole(k: int, step: real): real {
    k as real * step
  }

  function SumQty(children: seq<ChildOrder>): real {
    if children == [] then 0.0 else SumQty(children[..|children| - 1]) + children[|children| - 1].qty
  }

  // ------------------------------------------------------------------- TWAP

  function PerSlice(qty: real, slices: int, step: real): real
    requires slices > 0
  {
    RoundStep(qty / slices as real, step, DOWN)
  }

  function Gap(windowMs: int, slices: int): real {
    if slices > 1 then windowMs as real / (slices - 1) as real else 0.0
  }

  function SliceTime(startAt: int, windowMs: int, slices: int, i: int): int {
    RoundTime(startAt as real + i as real * Gap(windowMs, slices))
  }

  /** The remainder after all slices but the last. */
  function LastSlice(qty: real, slices: int, step: real): real
    requires slices > 0
  {
    RoundStep(qty - Whole(slices - 1, PerSlice(qty, slices, step)), step, HALF_UP)
  }

  predicate IsTwapPlan(intent: OrderIntent, startAt: int, step: real, children: seq<ChildOrder>) {
    if !intent.style.Twap? || intent.style.slices <= 0 || intent.style.windowMs < 0 then children == []
    else
      var windowMs, slices := intent.style.windowMs, intent.style.slices;
      var perSlice := PerSlice(intent.qty, slices, step);
      if perSlice <= 0.0 then children == [ChildOrder(startAt, intent.qty, None, false, 0)]
      else
        && |children| == slices
        && forall i :: 0 <= i < slices ==>
             children[i] == ChildOrder(SliceTime(startAt, windowMs, slices, i),
                                       if i < slices - 1 then perSlice else LastSlice(intent.qty, slices, step),
                                       None, false, i)
  }

  method PlanTwap(intent: OrderIntent, startAt: int, qtyStep: real) returns (children: seq<ChildOrder>)
    ensures IsTwapPlan(intent, startAt, qtyStep, children)
  {
    hide PerSlice, Gap, RoundStep;
    if !intent.style.Twap? { return []; }
    var windowMs, slices := intent.style.windowMs, intent.style.slices;
    if slices <= 0 || windowMs < 0 { return []; }
    var perSlice := PerSlice(intent.qty, slices, qtyStep);
    if perSlice <= 0.0 { return [ChildOrder(startAt, intent.qty, None, false, 0)]; }
    LastSliceIsLargest(intent.qty, slices, qtyStep);
    children := [];
    var worked := 0.0;
    var gap := Gap(windowMs, slices);
    for i := 0 to slices
      invariant |children| == i
      invariant i < slices ==> worked == Whole(i, perSlice)
      invariant forall j :: 0 <= j < i ==>
        children[j] == ChildOrder(SliceTime(startAt, windowMs, slices, j),
                                  if j < slices - 1 then perSlice else LastSlice(intent.qty, slices, qtyStep),
                                  None, false, j)
    {
      var isLast := i == slices - 1;
      var qty := if isLast then RoundStep(intent.qty - worked, qtyStep, HALF_UP) else perSlice;
      if qty <= 0.0 { continue; }
      OneMore(i, perSlice);
      worked := worked + qty;
      children := children + [ChildOrder(RoundTime(startAt as real + i as real * gap), qty, None, false, i)];
    }
  }

  lemma OneMore(i: int, x: real)
    ensures Whole(0, x) == 0.0 && Whole(i + 1, x) == Whole(i, x) + x
  {}

  // -------------------------------------------------------- rounding to steps

  lemma ShiftedQuotient(v: real, k: int, step: real)
    requires step > 0.0
    ensures (v + Whole(k, step)) / step == v / step + k as real
  {
    var x := v / step;
    assert (x + k as real) * step == v + Whole(k, step);
  }

  lemma RoundStepIsWhole(v: real, step: real, mode: RoundingMode) returns (k: int)
    requires step > 0.0
    ensures k == Rounded(mode, v / step) && RoundStep(v, step, mode) == Whole(k, step)
            && IsMultiple(RoundStep(v, step, mode), step)
  {
    k := Rounded(mode, v / step);
  }

  /** Adding whole steps commutes with rounding, as long as no sign changes. */
  lemma RoundStepShifts(v: real, k: int, step: real, mode: RoundingMode)
    requires step > 0.0 && v >= 0.0 && v + Whole(k, step) >= 0.0 && (mode == HALF_UP || mode == DOWN)
    ensures RoundStep(v + Whole(k, step), step, mode) == RoundStep(v, step, mode) + Whole(k, step)
  {
    hide Whole;
    ShiftedQuotient(v, k, step);
    QuotientSign(v, step);
    QuotientSign(v + Whole(k, step), step);
    RoundedShifts(v / step, k, mode);
    WholeRounds(v, step, mode);
    WholeRounds(v + Whole(k, step), step, mode);
    WholesAdd(Rounded(mode, v / step), k, step);
    hide Rounded, RoundStep;
  }

  lemma WholesAdd(a: int, b: int, step: real)
    ensures Whole(a + b, step) == Whole(a, step) + Whole(b, step)
  {}

  lemma WholeRounds(v: real, step: real, mode: RoundingMode)
    requires step > 0.0
    ensures RoundStep(v, step, mode) == Whole(Rounded(mode, v / step), step)
  {}

  lemma QuotientSign(v: real, step: real)
    requires step > 0.0
    ensures v >= 0.0 <==> v / step >= 0.0
  {
    ScaleOrder(0.0, v / step, step);
  }

  lemma RoundedShifts(x: real, k: int, mode: RoundingMode)
    requires x >= 0.0 && x + k as real >= 0.0 && (mode == HALF_UP || mode == DOWN)
    ensures Rounded(mode, x + k as real) == Rounded(mode, x) + k
  {}

  lemma RoundsZero(step: real, mode: RoundingMode)
    requires step > 0.0
    ensures RoundStep(0.0, step, mode) == 0.0
  {
    assert 0.0 / step == 0.0;
  }

  /** A value is left alone exactly when it is a multiple of the step. */
  lemma RoundStepFixesMultiples(v: real, step: real, mode: RoundingMode)
    requires step > 0.0 && (mode == HALF_UP || mode == DOWN)
    ensures RoundStep(v, step, mode) == v <==> IsMultiple(v, step)
  {
    var r := RoundStepIsWhole(v, step, mode);
    if IsMultiple(v, step) {
      var k: int :| Whole(k, step) == v;
      SameFactor(v / step, k as real, step);
      assert Rounded(mode, k as real) == k;
      hide Rounded, Whole, RoundStep;
    } else {
      hide Rounded, Whole, RoundStep;
    }
  }

  lemma SameFactor(x: real, y: real, step: real)
    requires step > 0.0 && x * step == y * step
    ensures x == y
  {
    ScaleOrder(x, y, step);
    ScaleOrder(y, x, step);
  }

  /** Rounding down stays below, and stays within a step. */
  lemma RoundDownBounds(v: real, step: real)
    requires step > 0.0 && v >= 0.0
    ensures 0.0 <= RoundStep(v, step, DOWN) <= v < RoundStep(v, step, DOWN) + step
  {
    hide RoundStep, Whole;
    QuotientSign(v, step);
    var k := Rounded(DOWN, v / step);
    TruncationTimes(v / step, k, step);
    WholeRounds(v, step, DOWN);
  }

  lemma TruncationTimes(x: real, k: int, step: real)
    requires step > 0.0 && 0 <= k && k as real <= x < k as real + 1.0
    ensures 0.0 <= Whole(k, step) <= x * step < Whole(k, step) + step
  {
    BelowNext(x, k as real, step, x * step, Whole(k, step));
  }

  lemma BelowNext(x: real, y: real, step: real, xs: real, ys: real)
    requires step > 0.0 && 0.0 <= y <= x < y + 1.0 && xs == x * step && ys == y * step
    ensures 0.0 <= ys <= xs < ys + step
  {
    var up := y + 1.0 - x;
    assert up * step > 0.0;
    assert up * step == ys + step - xs;
    assert (x - y) * step == xs - ys;
  }

  /** The planners' rounding is what the exact decimal rounding computes. */
  lemma RoundStepIsDecimalRounding(d: Decimal, step: Decimal, mode: RoundingMode)
    requires step.c > 0 && (mode == HALF_UP || mode == DOWN)
    ensures d.RoundToStep(step, mode).Success?
    ensures d.RoundToStep(step, mode).value.Value() == RoundStep(d.Value(), step.Value(), mode)
  {
    hide Decimal.Value, Decimal.RoundToStep, IsQuotient, Rounded;
    SignOfValue(step);
    QuotientHolds(d, step);
    RoundToStepCorrectIff(d, step, mode, d.Value() / step.Value());
  }

  lemma QuotientHolds(d: Decimal, step: Decimal)
    requires step.Value() > 0.0
    ensures IsQuotient(d.Value() / step.Value(), d, step)
  {
    hide Decimal.Value;
  }

  // --------------------------------------------------------- what TWAP promises

  /** The last slice takes the remainder: it is no smaller than the others, and with them makes up
      the parent rounded to the step. */
  lemma LastSliceIsLargest(qty: real, slices: int, step: real)
    requires slices > 0 && PerSlice(qty, slices, step) > 0.0
    ensures LastSlice(qty, slices, step) >= PerSlice(qty, slices, step)
    ensures Whole(slices - 1, PerSlice(qty, slices, step)) + LastSlice(qty, slices, step)
            == RoundStep(qty, step, HALF_UP)
  {
    hide Whole, Rounded;
    var perSlice, each := PerSlice(qty, slices, step), qty / slices as real;
    if step > 0.0 {
      PositiveSlice(each, step);
      RoundDownBounds(each, step);
      var k := RoundStepIsWhole(each, step, DOWN);
      LeftForLast(qty, slices, each, perSlice);
      SlicesOf(qty, slices, perSlice, k, step);
    } else {
      LeftForLast(qty, slices, each, perSlice);
    }
  }

  lemma LeftForLast(qty: real, slices: int, each: real, perSlice: real)
    requires slices > 0 && each * slices as real == qty && perSlice <= each
    ensures qty - Whole(slices - 1, perSlice) >= perSlice
  {
    var n := slices as real;
    assert (slices - 1) as real == n - 1.0;
    assert (n - 1.0) * perSlice == n * perSlice - perSlice;
    assert n * (each - perSlice) >= 0.0;
  }

  lemma SlicesOf(qty: real, slices: int, perSlice: real, k: int, step: real)
    requires step > 0.0 && slices > 0 && perSlice == Whole(k, step) > 0.0
    requires qty - Whole(slices - 1, perSlice) >= perSlice
    ensures var last := RoundStep(qty - Whole(slices - 1, perSlice), step, HALF_UP);
            last >= perSlice && Whole(slices - 1, perSlice) + last == RoundStep(qty, step, HALF_UP)
  {
    hide RoundStep;
    WholeTimes(slices - 1, k, step);
    ScaleOrder(0.0, perSlice, 1.0);
    hide Whole;
    SlicesAddUp(qty - Whole(slices - 1, perSlice), perSlice, (slices - 1) * k, k, step);
  }

  lemma PositiveSlice(each: real, step: real)
    requires step > 0.0 && RoundStep(each, step, DOWN) > 0.0
    ensures each >= 0.0
  {
    QuotientSign(each, step);
    ScaleOrder(Truncated(each / step) as real, 0.0, step);
  }

  lemma WholeTimes(n: int, k: int, step: real)
    ensures Whole(n, Whole(k, step)) == Whole(n * k, step)
  {
    assert (n * k) as real == n as real * k as real;
  }

  lemma SlicesAddUp(rest: real, perSlice: real, m: int, k: int, step: real)
    requires step > 0.0 && rest >= perSlice > 0.0 && perSlice == Whole(k, step) && Whole(m, step) >= 0.0
    ensures RoundStep(rest + Whole(m, step), step, HALF_UP) == RoundStep(rest, step, HALF_UP) + Whole(m, step)
    ensures RoundStep(rest, step, HALF_UP) >= perSlice
  {
    hide RoundStep;
    RoundStepShifts(rest, m, step, HALF_UP);
    var over := rest - perSlice;
    RoundStepShifts(over, k, step, HALF_UP);
    RoundNonNegative(over, step);
  }

  lemma RoundNonNegative(v: real, step: real)
    requires step > 0.0 && v >= 0.0
    ensures RoundStep(v, step, HALF_UP) >= 0.0
  {
    QuotientSign(v, step);
    ScaleOrder(0.0, Rounded(HALF_UP, v / step) as real, step);
  }

  /** A plan's children are positive and make up the parent, rounded to the step when it is sliced. */
  lemma TwapWorksTheParent(intent: OrderIntent, startAt: int, step: real, children: seq<ChildOrder>)
    requires IsTwapPlan(intent, startAt, step, children) && intent.qty > 0.0 && children != []
    ensures forall i :: 0 <= i < |children| ==> children[i].qty > 0.0
    ensures var sliced := PerSlice(intent.qty, intent.style.slices, step) > 0.0;
            SumQty(children) == if sliced then RoundStep(intent.qty, step, HALF_UP) else intent.qty
  {
    hide PerSlice, RoundStep, Whole, LastSlice;
    var slices := intent.style.slices;
    var perSlice := PerSlice(intent.qty, slices, step);
    if perSlice > 0.0 {
      LastSliceIsLargest(intent.qty, slices, step);
      var equal := children[..slices - 1];
      SumOfEqual(equal, perSlice);
    } else {
      assert children[..0] == [];
    }
  }

  lemma {:induction false} SumOfEqual(children: seq<ChildOrder>, qty: real)
    requires forall i :: 0 <= i < |children| ==> children[i].qty == qty
    ensures SumQty(children) == Whole(|children|, qty)
  {
    OneMore(|children| - 1, qty);
    if children != [] { SumOfEqual(children[..|children| - 1], qty); }
  }

  /** So for a positive step, a sliced plan works exactly the parent if and only if the parent is a
      multiple of the step; its children are multiples always. */
  lemma TwapSumsToParentIff(intent: OrderIntent, startAt: int, step: real, children: seq<ChildOrder>)
    requires IsTwapPlan(intent, startAt, step, children) && intent.qty > 0.0 && children != []
    requires step > 0.0 && PerSlice(intent.qty, intent.style.slices, step) > 0.0
    ensures SumQty(children) == intent.qty <==> IsMultiple(intent.qty, step)
    ensures forall i :: 0 <= i < |children| ==> IsMultiple(children[i].qty, step)
  {
    var qty, slices := intent.qty, intent.style.slices;
    TwapWorksTheParent(intent, startAt, step, children);
    RoundStepFixesMultiples(qty, step, HALF_UP);
    var _ := RoundStepIsWhole(qty / slices as real, step, DOWN);
    var _ := RoundStepIsWhole(qty - Whole(slices - 1, PerSlice(qty, slices, step)), step, HALF_UP);
    hide RoundStep, IsMultiple, Whole, SumQty;
  }

  /** Children are sent in order, from the start of the window to exactly its end. */
  lemma TwapKeepsTheWindow(intent: OrderIntent, startAt: int, step: real, children: seq<ChildOrder>)
    requires IsTwapPlan(intent, startAt, step, children) && children != []
    ensures children[0].at == startAt
    ensures |children| > 1 ==> children[|children| - 1].at == startAt + intent.style.windowMs
    ensures forall i, j :: 0 <= i <= j < |children| ==>
              startAt <= children[i].at <= children[j].at <= startAt + intent.style.windowMs
  {
    hide PerSlice, LastSlice, SliceTime;
    var windowMs, slices := intent.style.windowMs, intent.style.slices;
    forall i, j | 0 <= i <= j < slices
      ensures startAt <= SliceTime(startAt, windowMs, slices, i) <= SliceTime(startAt, windowMs, slices, j)
              <= startAt + windowMs
    {
      SlicesInOrder(startAt, windowMs, slices, 0, i);
      SlicesInOrder(startAt, windowMs, slices, i, j);
      SlicesInOrder(startAt, windowMs, slices, j, slices - 1);
      SliceEnds(startAt, windowMs, slices);
    }
    SliceEnds(startAt, windowMs, slices);
  }

  /** Slice i is sent at the whole millisecond nearest to i equal parts of the window, halves upwards. */
  lemma SlicesAreEvenlySpaced(startAt: int, windowMs: int, slices: int, i: int)
    requires slices > 1 && 0 <= i < slices
    ensures var late := SliceTime(startAt, windowMs, slices, i) - startAt;
            2 * i * windowMs < (2 * late + 1) * (slices - 1) <= 2 * i * windowMs + 2 * (slices - 1)
  {
    var parts, gap := (slices - 1) as real, Gap(windowMs, slices);
    var late := SliceTime(startAt, windowMs, slices, i) - startAt;
    var exact := i as real * gap;
    assert late as real <= exact + 0.5 < late as real + 1.0;
    assert gap * parts == windowMs as real;
    assert exact * parts == i as real * windowMs as real;
    ScaleOrder(2.0 * late as real + 1.0, 2.0 * exact, parts);
    ScaleOrder(2.0 * exact + 2.0, 2.0 * late as real + 1.0, parts);
  }

  lemma SlicesInOrder(startAt: int, windowMs: int, slices: int, i: int, j: int)
    requires windowMs >= 0 && 0 <= i <= j < slices
    ensures SliceTime(startAt, windowMs, slices, i) <= SliceTime(startAt, windowMs, slices, j)
  {
    var gap := Gap(windowMs, slices);
    GapSpans(windowMs, slices);
    assert (j - i) as real * gap == j as real * gap - i as real * gap;
  }

  lemma GapSpans(windowMs: int, slices: int)
    requires windowMs >= 0
    ensures Gap(windowMs, slices) >= 0.0
    ensures slices > 1 ==> (slices - 1) as real * Gap(windowMs, slices) == windowMs as real
  {
    if slices > 1 {
      QuotientSign(windowMs as real, (slices - 1) as real);
    }
  }

  lemma SliceEnds(startAt: int, windowMs: int, slices: int)
    requires windowMs >= 0 && slices >= 1
    ensures SliceTime(startAt, windowMs, slices, 0) == startAt
    ensures SliceTime(startAt, windowMs, slices, slices - 1) == startAt + if slices > 1 then windowMs else 0
  {
    GapSpans(windowMs, slices);
    assert 0.0 * Gap(windowMs, slices) == 0.0;
  }

  /** Every slice but the last is the largest multiple of the step within an equal share. */
  lemma SliceIsLargestShare(qty: real, slices: int, step: real)
    requires qty >= 0.0 && slices > 0 && step > 0.0
    ensures var perSlice := PerSlice(qty, slices, step);
            IsMultiple(perSlice, step) && perSlice <= qty / slices as real < perSlice + step
  {
    QuotientSign(qty, slices as real);
    RoundDownBounds(qty / slices as real, step);
    var _ := RoundStepIsWhole(qty / slices as real, step, DOWN);
  }

  // ---------------------------------------------------------------- iceberg

  function Display(intent: OrderIntent, step: real): real
    requires intent.style.Iceberg?
  {
    RoundStep(intent.style.displayQty, step, DOWN)
  }

  /** Clips of the display size, the last one whatever is left of the total. */
  /** A clip is the largest multiple of the step within the quantity to be shown. */
  lemma DisplayIsLargestShown(intent: OrderIntent, step: real)
    requires intent.style.Iceberg? && intent.style.displayQty >= 0.0
    ensures step > 0.0 ==> IsMultiple(Display(intent, step), step)
                           && Display(intent, step) <= intent.style.displayQty < Display(intent, step) + step
    ensures step <= 0.0 ==> Display(intent, step) == intent.style.displayQty
  {
    if step > 0.0 {
      RoundDownBounds(intent.style.displayQty, step);
      var _ := RoundStepIsWhole(intent.style.displayQty, step, DOWN);
    }
  }

  ghost predicate AreClips(children: seq<ChildOrder>, display: real, total: real, startAt: int, price: real) {
    var n := |children|;
    && n > 0
    && (forall i :: 0 <= i < n ==> children[i] == ChildOrder(startAt, children[i].qty, Some(price), true, i))
    && (forall i :: 0 <= i < n - 1 ==> children[i].qty == display)
    && 0.0 < children[n - 1].qty <= display
    && Whole(n - 1, display) + children[n - 1].qty == total
  }

  lemma DisplayIsSettled(intent: OrderIntent, step: real)
    requires intent.style.Iceberg?
    ensures Settled(Display(intent, step), step)
  {
    if step > 0.0 { RoundStepSettles(intent.style.displayQty, step, DOWN); }
  }

  method PlanIceberg(intent: OrderIntent, startAt: int, price: real, qtyStep: real) returns (children: seq<ChildOrder>)
    ensures !intent.style.Iceberg? ==> children == []
    ensures intent.style.Iceberg? ==>
              var display := Display(intent, qtyStep);
              if display <= 0.0 || display >= intent.qty
              then children == [ChildOrder(startAt, intent.qty, Some(price), true, 0)]
              else AreClips(children, display, RoundStep(intent.qty, qtyStep, HALF_UP), startAt, price)
  {
    hide RoundStep, Whole;
    if !intent.style.Iceberg? { return []; }
    var display := Display(intent, qtyStep);
    if display <= 0.0 || display >= intent.qty {
      return [ChildOrder(startAt, intent.qty, Some(price), true, 0)];
    }
    ghost var total := RoundStep(intent.qty, qtyStep, HALF_UP);
    children := [];
    var remaining := intent.qty;
    var slice := 0;
    OneMore(0, display);
    DisplayIsSettled(intent, qtyStep);
    while remaining > 0.0
      invariant |children| == slice
      invariant InProgress(children, display, total, remaining, qtyStep, startAt, price)
      decreases ClipsAhead(remaining, display, qtyStep)
    {
      OneClip(remaining, display, qtyStep);
      ClipsCountDown(remaining, display, qtyStep);
      OneMore(slice, display);
      var qty := RoundStep(MinReal(display, remaining), qtyStep, HALF_UP);
      if qty <= 0.0 { break; }
      children := children + [ChildOrder(startAt, qty, Some(price), true, slice)];
      remaining := RoundStep(remaining - qty, qtyStep, HALF_UP);
      slice := slice + 1;
    }
  }

  /** Rounding leaves the value alone. */
  predicate Settled(x: real, step: real) {
    RoundStep(x, step, HALF_UP) == x
  }

  /** Either only full clips so far, with the rest still to come, or finished. */
  ghost predicate InProgress(children: seq<ChildOrder>, display: real, total: real, remaining: real, step: real,
                             startAt: int, price: real) {
    if remaining > 0.0 then
      && (forall i :: 0 <= i < |children| ==> children[i] == ChildOrder(startAt, display, Some(price), true, i))
      && Whole(|children|, display) + RoundStep(remaining, step, HALF_UP) == total
      && Clippable(remaining, display, step)
    else remaining == 0.0 && AreClips(children, display, total, startAt, price)
  }

  predicate Clippable(remaining: real, display: real, step: real) {
    display > 0.0 && Settled(display, step) && remaining > 0.0 && (remaining > display || Settled(remaining, step))
  }

  /** One turn takes a full clip, or all that is left when that is less. */
  lemma OneClip(remaining: real, display: real, step: real)
    requires Clippable(remaining, display, step)
    ensures var qty := RoundStep(MinReal(display, remaining), step, HALF_UP);
            var left := RoundStep(remaining - qty, step, HALF_UP);
            && 0.0 < qty <= display && left >= 0.0
            && left == RoundStep(remaining, step, HALF_UP) - qty
            && (left > 0.0 ==> qty == display && Settled(left, step))
            && (remaining > display ==> qty == display)
  {
    if step > 0.0 {
      if remaining > display {
        WholeClip(remaining, display, step);
      } else {
        RoundsZero(step, HALF_UP);
      }
    }
  }

  lemma WholeClip(remaining: real, display: real, step: real)
    requires step > 0.0 && remaining > display > 0.0 && Settled(display, step)
    ensures var left := RoundStep(remaining - display, step, HALF_UP);
            left == RoundStep(remaining, step, HALF_UP) - display && left >= 0.0 && Settled(left, step)
  {
    hide RoundStep, Whole;
    var k := RoundStepIsWhole(display, step, HALF_UP);
    RoundStepShifts(remaining - display, k, step, HALF_UP);
    RoundNonNegative(remaining - display, step);
    RoundStepSettles(remaining - display, step, HALF_UP);
  }

  lemma RoundStepSettles(v: real, step: real, mode: RoundingMode)
    requires step > 0.0
    ensures Settled(RoundStep(v, step, mode), step)
  {
    var k := RoundStepIsWhole(v, step, mode);
    RoundStepFixesMultiples(RoundStep(v, step, mode), step, HALF_UP);
  }

  function ClipsAhead(remaining: real, display: real, step: real): int {
    if remaining <= 0.0 || display <= 0.0 then 0 else (RoundStep(remaining, step, HALF_UP) / display).Floor + 1
  }

  lemma ClipsCountDown(remaining: real, display: real, step: real)
    requires Clippable(remaining, display, step)
    ensures var qty := RoundStep(MinReal(display, remaining), step, HALF_UP);
            0 <= ClipsAhead(RoundStep(remaining - qty, step, HALF_UP), display, step)
            < ClipsAhead(remaining, display, step)
  {
    hide RoundStep;
    OneClip(remaining, display, step);
    var rounded := RoundStep(remaining, step, HALF_UP);
    ShiftedQuotient(rounded, -1, display);
    QuotientSign(rounded, display);
    QuotientSign(rounded - display, display);
  }

  // --------------------------------------------------- what iceberg promises

  lemma {:induction false} SumOfClips(children: seq<ChildOrder>, display: real)
    requires children != [] && forall i :: 0 <= i < |children| - 1 ==> children[i].qty == display
    ensures SumQty(children) == Whole(|children| - 1, display) + children[|children| - 1].qty
  {
    SumOfEqual(children[..|children| - 1], display);
  }

  /** Clips sum to the total, and there are ceil(total / display) of them. */
  lemma ClipsAreTheCeiling(children: seq<ChildOrder>, display: real, total: real, startAt: int, price: real)
    requires display > 0.0 && AreClips(children, display, total, startAt, price)
    ensures SumQty(children) == total
    ensures |children| == Ceiling(total / display)
  {
    hide Whole;
    SumOfClips(children, display);
    var n, last := |children|, children[|children| - 1].qty;
    ShiftedQuotient(last, n - 1, display);
    PartOfOne(last, display);
  }

  lemma PartOfOne(part: real, all: real)
    requires 0.0 < part <= all
    ensures 0.0 < part / all <= 1.0
  {
    ScaleOrder(part / all, 1.0, all);
    ScaleOrder(part / all, 0.0, all);
  }

  /** So a split parent is worked exactly if and only if it is a multiple of a positive step; with a
      step that is not positive, always. */
  lemma IcebergSumsToParentIff(intent: OrderIntent, startAt: int, price: real, step: real, children: seq<ChildOrder>)
    requires intent.style.Iceberg? && 0.0 < Display(intent, step) < intent.qty
    requires AreClips(children, Display(intent, step), RoundStep(intent.qty, step, HALF_UP), startAt, price)
    ensures SumQty(children) == intent.qty <==> step <= 0.0 || IsMultiple(intent.qty, step)
    ensures |children| == Ceiling(SumQty(children) / Display(intent, step))
  {
    ClipsAreTheCeiling(children, Display(intent, step), RoundStep(intent.qty, step, HALF_UP), startAt, price);
    if step > 0.0 { RoundStepFixesMultiples(intent.qty, step, HALF_UP); }
  }

  /** Concretely: with a step of 2, a parent of 5 in two slices is worked as 2 and 4. */
  lemma TwapOverworksAnOddParent()
    ensures var intent := OrderIntent("", "X", Buy, 5.0, Twap(1000, 2), false, None, "");
            var plan := [ChildOrder(0, 2.0, None, false, 0), ChildOrder(1000, 4.0, None, false, 1)];
            IsTwapPlan(intent, 0, 2.0, plan) && SumQty(plan) == 6.0
  {
    var first, second := ChildOrder(0, 2.0, None, false, 0), ChildOrder(1000, 4.0, None, false, 1);
    assert PerSlice(5.0, 2, 2.0) == 2.0 && Whole(1, 2.0) == 2.0;
    assert LastSlice(5.0, 2, 2.0) == 4.0;
    assert SliceTime(0, 1000, 2, 0) == 0 && SliceTime(0, 1000, 2, 1) == 1000;
    hide PerSlice, LastSlice, SliceTime;
    assert [first, second][..1] == [first] && [first][..0] == [];
  }

  /** And with a display of 2 it is worked as three clips of 2. */
  lemma IcebergOverworksAnOddParent()
    ensures var intent := OrderIntent("", "X", Buy, 5.0, Iceberg(2.0), false, None, "");
            var clips := seq(3, i requires 0 <= i < 3 => ChildOrder(0, 2.0, Some(100.0), true, i));
            && Display(intent, 2.0) == 2.0
            && AreClips(clips, 2.0, RoundStep(5.0, 2.0, HALF_UP), 0, 100.0) && SumQty(clips) == 6.0
  {
    var clips := seq(3, i requires 0 <= i < 3 => ChildOrder(0, 2.0, Some(100.0), true, i));
    assert RoundStep(5.0, 2.0, HALF_UP) == 6.0 && Whole(2, 2.0) == 4.0 && Whole(3, 2.0) == 6.0;
    SumOfEqual(clips, 2.0);
  }
}
