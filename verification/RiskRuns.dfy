/** Whole runs of the risk engine: the order rate, the exposure caps, and the frozen book. */
module RiskRuns {
  import opened Results
  import opened Reals
  import opened OrderStates
  import opened Sums
  import opened Engines
  import opened Breakers
  import opened RiskEngines

  // --------------------------------------------------------------- the rate

  datatype RiskOp =
    | CheckOp(intent: OrderIntent, ctx: RiskContext)
    | WatchOp(portfolio: Portfolio, at: int)
    | BreakerCall(op: BreakerOp)

  ghost function StepRisk(limits: RiskLimits, s: RiskState, op: RiskOp): RiskState {
    match op
    case CheckOp(intent, ctx) => Checked(limits, s, intent, ctx)
    case WatchOp(p, at) => s.(breaker := Watched(limits, s.breaker, p, at))
    case BreakerCall(b) => s.(breaker := StepBreaker(s.breaker, b))
  }

  const FRESH_RISK := RiskState(CLOSED_BREAKER, [], [])

  ghost function RunRisk(limits: RiskLimits, ops: seq<RiskOp>): RiskState {
    if ops == [] then FRESH_RISK else StepRisk(limits, RunRisk(limits, ops[..|ops| - 1]), ops[|ops| - 1])
  }

  ghost predicate Accepts(limits: RiskLimits, s: RiskState, op: RiskOp) {
    op.CheckOp? && Veto(limits, s, op.intent, op.ctx).None?
  }

  /** When the intents accepted over the whole run were accepted. */
  ghost function AcceptTimes(limits: RiskLimits, ops: seq<RiskOp>): seq<int> {
    if ops == [] then []
    else
      var before, op := ops[..|ops| - 1], ops[|ops| - 1];
      AcceptTimes(limits, before) + if Accepts(limits, RunRisk(limits, before), op) then [op.ctx.at] else []
  }

  function CountWithin(times: seq<int>, lo: int, hi: int): nat {
    if times == [] then 0
    else CountWithin(times[..|times| - 1], lo, hi) + if lo <= times[|times| - 1] <= hi then 1 else 0
  }

  /** Event times never go back. */
  predicate TimesForward(ops: seq<RiskOp>) {
    forall i, j :: 0 <= i <= j < |ops| && ops[i].CheckOp? && ops[j].CheckOp? ==> ops[i].ctx.at <= ops[j].ctx.at
  }

  lemma {:induction false} CountSplits(a: seq<int>, b: seq<int>, lo: int, hi: int)
    ensures CountWithin(a + b, lo, hi) == CountWithin(a, lo, hi) + CountWithin(b, lo, hi)
  {
    if b == [] {
      assert a + b == a;
    } else {
      CountSplits(a, b[..|b| - 1], lo, hi);
      assert (a + b)[..|a + b| - 1] == a + b[..|b| - 1];
    }
  }

  lemma {:induction false} CountOfAll(times: seq<int>, lo: int, hi: int)
    ensures CountWithin(times, lo, hi) <= |times|
    ensures (forall i :: 0 <= i < |times| ==> lo <= times[i] <= hi) ==> CountWithin(times, lo, hi) == |times|
    ensures (forall i :: 0 <= i < |times| ==> times[i] < lo) ==> CountWithin(times, lo, hi) == 0
  {
    if times != [] { CountOfAll(times[..|times| - 1], lo, hi); }
  }

  lemma {:induction false} CountNarrows(times: seq<int>, lo: int, hi: int, lo': int, hi': int)
    requires lo' <= lo && forall i :: 0 <= i < |times| && times[i] <= hi ==> times[i] <= hi'
    ensures CountWithin(times, lo, hi) <= CountWithin(times, lo', hi')
  {
    if times != [] { CountNarrows(times[..|times| - 1], lo, hi, lo', hi'); }
  }

  /** What the window remembers: everything accepted but for a forgotten, expired beginning. */
  ghost predicate Remembers(limits: RiskLimits, accepted: seq<int>, recent: seq<int>, now: int) {
    && |recent| <= |accepted| && recent == accepted[|accepted| - |recent|..]
    && (forall i :: 0 <= i < |accepted| - |recent| ==> accepted[i] < now - limits.rateWindowMs)
    && (forall i, j :: 0 <= i <= j < |accepted| ==> accepted[i] <= accepted[j])
    && (forall i :: 0 <= i < |accepted| ==> accepted[i] <= now)
  }

  lemma {:induction false} PruneIsDropping(recent: seq<int>, cutoff: int) returns (k: nat)
    requires forall i, j :: 0 <= i <= j < |recent| ==> recent[i] <= recent[j]
    ensures k <= |recent| && Prune(recent, cutoff) == recent[k..]
    ensures forall i :: 0 <= i < k ==> recent[i] < cutoff
    ensures forall i :: k <= i < |recent| ==> recent[i] >= cutoff
  {
    k := 0;
    if recent != [] && recent[0] < cutoff {
      var k1 := PruneIsDropping(recent[1..], cutoff);
      k := k1 + 1;
      assert recent[1..][k1..] == recent[k..];
      forall i | k <= i < |recent|
        ensures recent[i] >= cutoff
      {
        assert recent[i] == recent[1..][i - 1];
      }
    }
  }

  lemma CountOfTail(accepted: seq<int>, k: nat, lo: int, hi: int)
    requires k <= |accepted|
    requires forall i :: 0 <= i < k ==> accepted[i] < lo
    requires forall i :: k <= i < |accepted| ==> lo <= accepted[i] <= hi
    ensures CountWithin(accepted, lo, hi) == |accepted| - k
  {
    assert accepted == accepted[..k] + accepted[k..];
    CountSplits(accepted[..k], accepted[k..], lo, hi);
    CountOfAll(accepted[..k], lo, hi);
    CountOfAll(accepted[k..], lo, hi);
  }

  /** What survives pruning is exactly what was accepted in the closed window ending now. */
  lemma PrunedIsTheWindow(limits: RiskLimits, accepted: seq<int>, recent: seq<int>, now: int, at: int)
    requires Remembers(limits, accepted, recent, now) && now <= at
    ensures var kept := Prune(recent, at - limits.rateWindowMs);
            && Remembers(limits, accepted, kept, at)
            && |kept| == CountWithin(accepted, at - limits.rateWindowMs, at)
  {
    hide Prune, CountWithin;
    var lo, n := at - limits.rateWindowMs, |accepted| - |recent|;
    assert forall i :: 0 <= i < |recent| ==> recent[i] == accepted[n + i];
    var k := PruneIsDropping(recent, lo);
    assert recent[k..] == accepted[n + k..];
    forall i | 0 <= i < |accepted|
      ensures i < n + k ==> accepted[i] < lo
      ensures i >= n + k ==> accepted[i] >= lo
    {
      if i >= n { assert accepted[i] == recent[i - n]; }
    }
    CountOfTail(accepted, n + k, lo, at);
  }

  lemma CheckedRate(limits: RiskLimits, s: RiskState, intent: OrderIntent, ctx: RiskContext)
    ensures var s', kept := Checked(limits, s, intent, ctx), Prune(s.recent, ctx.at - limits.rateWindowMs);
            && (Veto(limits, s, intent, ctx).None? ==>
                  |kept| < limits.maxOrdersPerWindow && s'.recent == kept + [ctx.at])
            && (Veto(limits, s, intent, ctx).Some? ==> s'.recent == kept || s'.recent == s.recent)
  {
    hide SizeVeto, OutsideBand;
  }

  /** The closed window starting at `lo` holds no more accepted intents than the limit. */
  predicate WindowHolds(limits: RiskLimits, accepted: seq<int>, lo: int) {
    CountWithin(accepted, lo, lo + limits.rateWindowMs) <= if limits.maxOrdersPerWindow > 0
        then limits.maxOrdersPerWindow else 0
  }

  ghost predicate WindowsHold(limits: RiskLimits, accepted: seq<int>) {
    forall lo :: WindowHolds(limits, accepted, lo)
  }

  lemma AcceptKeepsWindows(limits: RiskLimits, accepted: seq<int>, at: int)
    requires WindowsHold(limits, accepted) && forall i :: 0 <= i < |accepted| ==> accepted[i] <= at
    requires CountWithin(accepted, at - limits.rateWindowMs, at) < limits.maxOrdersPerWindow
    ensures WindowsHold(limits, accepted + [at])
  {
    forall lo
      ensures WindowHolds(limits, accepted + [at], lo)
    {
      var hi := lo + limits.rateWindowMs;
      CountAppended(accepted, at, lo, hi);
      assert WindowHolds(limits, accepted, lo);
      if lo <= at <= hi { CountNarrows(accepted, lo, hi, at - limits.rateWindowMs, at); }
      hide CountWithin;
    }
  }

  lemma CountAppended(accepted: seq<int>, at: int, lo: int, hi: int)
    ensures CountWithin(accepted + [at], lo, hi) == CountWithin(accepted, lo, hi) + if lo <= at <= hi then 1 else 0
  {
    assert (accepted + [at])[..|accepted|] == accepted;
  }

  lemma {:induction false} WindowAfterRun(limits: RiskLimits, ops: seq<RiskOp>, now: int)
    requires TimesForward(ops)
    requires forall i :: 0 <= i < |ops| && ops[i].CheckOp? ==> ops[i].ctx.at <= now
    ensures Remembers(limits, AcceptTimes(limits, ops), RunRisk(limits, ops).recent, now)
    ensures WindowsHold(limits, AcceptTimes(limits, ops))
  {
    hide Veto, Checked, Remembers, WindowsHold, Watched;
    if ops == [] {
      NothingYet(limits, now);
    } else {
      var before, op := ops[..|ops| - 1], ops[|ops| - 1];
      var s, accepted := RunRisk(limits, before), AcceptTimes(limits, before);
      assert forall i :: 0 <= i < |before| ==> before[i] == ops[i];
      if op.CheckOp? {
        WindowAfterRun(limits, before, op.ctx.at);
        CheckKeepsWindow(limits, s, accepted, op, now);
      } else {
        WindowAfterRun(limits, before, now);
        assert accepted + [] == accepted;
      }
    }
  }

  lemma NothingYet(limits: RiskLimits, now: int)
    ensures Remembers(limits, [], [], now) && WindowsHold(limits, [])
  {}

  lemma LaterStillRemembers(limits: RiskLimits, accepted: seq<int>, recent: seq<int>, at: int, now: int)
    requires Remembers(limits, accepted, recent, at) && at <= now
    ensures Remembers(limits, accepted, recent, now)
  {}

  lemma AcceptedIsRemembered(limits: RiskLimits, accepted: seq<int>, recent: seq<int>, at: int)
    requires Remembers(limits, accepted, recent, at)
    ensures Remembers(limits, accepted + [at], recent + [at], at)
  {}

  lemma CheckKeepsWindow(limits: RiskLimits, s: RiskState, accepted: seq<int>, op: RiskOp, now: int)
    requires op.CheckOp? && Remembers(limits, accepted, s.recent, op.ctx.at) && WindowsHold(limits, accepted)
             && op.ctx.at <= now
    ensures var accepted' := accepted + if Accepts(limits, s, op) then [op.ctx.at] else [];
            Remembers(limits, accepted', StepRisk(limits, s, op).recent, now) && WindowsHold(limits, accepted')
  {
    hide Veto, Checked;
    var at := op.ctx.at;
    var kept := Prune(s.recent, at - limits.rateWindowMs);
    CheckedRate(limits, s, op.intent, op.ctx);
    PrunedIsTheWindow(limits, accepted, s.recent, at, at);
    assert accepted + [] == accepted;
    assert forall i :: 0 <= i < |accepted| ==> accepted[i] <= at;
    hide Remembers, WindowsHold;
    if Accepts(limits, s, op) {
      AcceptedIsRemembered(limits, accepted, kept, at);
      AcceptKeepsWindows(limits, accepted, at);
      LaterStillRemembers(limits, accepted + [at], kept + [at], at, now);
    } else {
      LaterStillRemembers(limits, accepted, kept, at, now);
      LaterStillRemembers(limits, accepted, s.recent, at, now);
    }
  }

  /** Over a whole run, however much history the window has forgotten: no closed window of its length
      holds more accepted intents than the limit. */
  lemma RateNeverExceeded(limits: RiskLimits, ops: seq<RiskOp>, lo: int)
    requires TimesForward(ops)
    ensures CountWithin(AcceptTimes(limits, ops), lo, lo + limits.rateWindowMs)
            <= if limits.maxOrdersPerWindow > 0 then limits.maxOrdersPerWindow else 0
  {
    var now := LastTime(ops);
    WindowAfterRun(limits, ops, now);
    assert WindowHolds(limits, AcceptTimes(limits, ops), lo);
  }

  lemma LastTime(ops: seq<RiskOp>) returns (now: int)
    requires TimesForward(ops)
    ensures forall i :: 0 <= i < |ops| && ops[i].CheckOp? ==> ops[i].ctx.at <= now
  {
    if ops == [] {
      now := 0;
    } else {
      var last := |ops| - 1;
      if ops[last].CheckOp? {
        now := ops[last].ctx.at;
      } else {
        now := LastTime(ops[..last]);
        assert forall i :: 0 <= i < last ==> ops[..last][i] == ops[i];
      }
    }
  }

  /** An intent that reaches the rate check is refused by it exactly when the closed window ending at
      its own time already holds the limit; refused intents use up nothing. */
  lemma RateDenialIff(limits: RiskLimits, ops: seq<RiskOp>, intent: OrderIntent, ctx: RiskContext)
    requires TimesForward(ops + [CheckOp(intent, ctx)])
    ensures var s := RunRisk(limits, ops);
            ReachesRateCheck(s.breaker.current, intent, ctx) ==>
              (Veto(limits, s, intent, ctx) == Some(ORDER_RATE)
               <==> CountWithin(AcceptTimes(limits, ops), ctx.at - limits.rateWindowMs,
                                ctx.at) >= limits.maxOrdersPerWindow)
  {
    var all := ops + [CheckOp(intent, ctx)];
    assert forall i :: 0 <= i < |ops| ==> all[i] == ops[i];
    assert all[|ops|].CheckOp? && all[|ops|].ctx == ctx;
    WindowAfterRun(limits, ops, ctx.at);
    hide *;
    RateVetoIff(limits, AcceptTimes(limits, ops), RunRisk(limits, ops), intent, ctx);
  }

  lemma RateVetoIff(limits: RiskLimits, accepted: seq<int>, s: RiskState, intent: OrderIntent, ctx: RiskContext)
    requires Remembers(limits, accepted, s.recent, ctx.at)
    ensures ReachesRateCheck(s.breaker.current, intent, ctx) ==>
              (Veto(limits, s, intent, ctx) == Some(ORDER_RATE)
               <==> CountWithin(accepted, ctx.at - limits.rateWindowMs, ctx.at) >= limits.maxOrdersPerWindow)
  {
    PrunedIsTheWindow(limits, accepted, s.recent, ctx.at, ctx.at);
    hide OutsideBand, Prune, CountWithin, Remembers, PortfolioNotional, CorrelatedNotional, Held;
  }

  // ----------------------------------------------------------- the exposure

  datatype Desk = Desk(engine: RiskState, portfolio: Portfolio)

  /** A trade is a check and, when allowed, a fill of part of it booked before the next step. */
  datatype DeskStep =
    | Trade(intent: OrderIntent, at: int, filled: real)
    | Watch(at: int)
    | Trip(to: BreakerState, why: string, at: int)
    | OperatorReset(why: string, at: int)

  function Context(d: Desk, symbol: string, at: int): RiskContext {
    RiskContext(d.portfolio, At(d.portfolio.marks, symbol), at)
  }

  function Booked(p: Portfolio, intent: OrderIntent, filled: real): Portfolio {
    p.(positions := p.positions[intent.symbol := At(p.positions, intent.symbol) + Signed(intent.side, filled)])
  }

  ghost predicate TradeAllowed(limits: RiskLimits, d: Desk, step: DeskStep) {
    step.Trade? && Veto(limits, d.engine, step.intent, Context(d, step.intent.symbol, step.at)).None?
  }

  ghost function StepDesk(limits: RiskLimits, d: Desk, step: DeskStep): Desk {
    match step
    case Trade(intent, at, filled) =>
      Desk(Checked(limits, d.engine, intent, Context(d, intent.symbol, at)),
           if TradeAllowed(limits, d, step) then Booked(d.portfolio, intent, filled) else d.portfolio)
    case Watch(at) => d.(engine := d.engine.(breaker := Watched(limits, d.engine.breaker, d.portfolio, at)))
    case Trip(to, why, at) => d.(engine := d.engine.(breaker := Escalated(d.engine.breaker, to, why, at)))
    case OperatorReset(why, at) => d.(engine := d.engine.(breaker := ResetBreaker(d.engine.breaker, why, at)))
  }

  ghost function RunDesk(limits: RiskLimits, d: Desk, steps: seq<DeskStep>): Desk {
    if steps == [] then d else StepDesk(limits, RunDesk(limits, d, steps[..|steps| - 1]), steps[|steps| - 1])
  }

  /** The venue fills no more than was ordered, of a symbol that has a mark. */
  ghost predicate FillsWithinOrder(limits: RiskLimits, d: Desk, step: DeskStep) {
    TradeAllowed(limits, d, step) ==>
      step.intent.symbol in d.portfolio.marks && 0.0 <= step.filled <= step.intent.qty
  }

  /** A fill against a position, of at most twice its size, or none at all. */
  predicate AgainstPosition(held: real, side: Side, filled: real) {
    filled == 0.0 || (if side == Buy then filled <= -2.0 * held else filled <= 2.0 * held)
  }

  /** The fill of a reduce-only order faces the position; the gate looks at the flag alone. */
  ghost predicate HonoursReduceOnly(limits: RiskLimits, d: Desk, step: DeskStep) {
    TradeAllowed(limits, d, step) && step.intent.reduceOnly ==>
      AgainstPosition(At(d.portfolio.positions, step.intent.symbol), step.intent.side, step.filled)
  }

  ghost predicate Plausible(limits: RiskLimits, d: Desk, step: DeskStep) {
    FillsWithinOrder(limits, d, step) && HonoursReduceOnly(limits, d, step)
  }

  ghost predicate PlausibleRun(limits: RiskLimits, d: Desk, steps: seq<DeskStep>) {
    forall i :: 0 <= i < |steps| ==> Plausible(limits, RunDesk(limits, d, steps[..i]), steps[i])
  }

  /** Every position is valued, and none of the three caps is exceeded. */
  ghost predicate WithinCaps(limits: RiskLimits, p: Portfolio) {
    && p.positions.Keys <= p.marks.Keys
    && (forall symbol :: symbol in p.positions ==>
          Held(p.positions[symbol], p.marks[symbol]) <= limits.maxPositionNotional)
    && PortfolioNotional(p) <= limits.maxAggregateNotional
    && (p.equity > 0.0 ==> PortfolioNotional(p) <= LeverageCap(limits, p.equity))
  }

  function LeverageCap(limits: RiskLimits, equity: real): real {
    limits.maxLeverage * equity
  }

  lemma BookingMovesTheTotal(p: Portfolio, intent: OrderIntent, filled: real)
    requires intent.symbol in p.marks
    ensures var p', mark := Booked(p, intent, filled), p.marks[intent.symbol];
            PortfolioNotional(p') == PortfolioNotional(p) - Held(At(p.positions, intent.symbol), mark)
                                 + Held(p'.positions[intent.symbol], mark)
  {
    var p', symbol, mark := Booked(p, intent, filled), intent.symbol, p.marks[intent.symbol];
    var before, after := Notionals(p, p.positions.Keys), Notionals(p', p'.positions.Keys);
    assert after == before[symbol := Held(p'.positions[symbol], mark)];
    SumUpdate(before, symbol, Held(p'.positions[symbol], mark));
    assert Held(0.0, mark) == 0.0;
  }

  lemma FillGrowsHeldAtMost(held: real, side: Side, filled: real, qty: real, mark: real)
    requires 0.0 <= filled <= qty && mark > 0.0
    ensures Held(held + Signed(side, filled), mark) <= Held(held, mark) + qty * mark
  {
    var grown := AbsReal(held + Signed(side, filled));
    assert grown <= AbsReal(held) + qty;
    var was := AbsReal(held);
    assert (was + qty - grown) * mark >= 0.0;
    assert Held(held, mark) == was * mark && Held(held + Signed(side, filled), mark) == grown * mark;
  }

  lemma ShrinkingHeld(a: real, b: real, mark: real)
    requires AbsReal(a) <= AbsReal(b) && mark > 0.0
    ensures Held(a, mark) <= Held(b, mark)
  {
    var x, y := AbsReal(a), AbsReal(b);
    assert Held(a, mark) == x * mark && Held(b, mark) == y * mark;
    assert (y - x) * mark >= 0.0;
  }

  lemma RevaluedWithinCaps(limits: RiskLimits, p: Portfolio, symbol: string, size: real)
    requires WithinCaps(limits, p) && symbol in p.marks
    requires Held(size, p.marks[symbol]) <= limits.maxPositionNotional
    requires var total := PortfolioNotional(p.(positions := p.positions[symbol := size]));
             total <= limits.maxAggregateNotional && (p.equity > 0.0 ==> total <= LeverageCap(limits, p.equity))
    ensures WithinCaps(limits, p.(positions := p.positions[symbol := size]))
  {
    hide Held, PortfolioNotional, LeverageCap;
  }

  lemma ReducingShrinks(p: Portfolio, intent: OrderIntent, filled: real)
    requires intent.symbol in p.marks && p.marks[intent.symbol] > 0.0
    requires var held := At(p.positions, intent.symbol); AbsReal(held + Signed(intent.side, filled)) <= AbsReal(held)
    ensures var mark, p' := p.marks[intent.symbol], Booked(p, intent, filled);
            && Held(p'.positions[intent.symbol], mark) <= Held(At(p.positions, intent.symbol), mark)
            && PortfolioNotional(p') <= PortfolioNotional(p)
  {
    hide Held, PortfolioNotional, AbsReal, Signed;
    BookingMovesTheTotal(p, intent, filled);
    ShrinkingHeld(At(p.positions, intent.symbol) + Signed(intent.side, filled), At(p.positions, intent.symbol),
                  p.marks[intent.symbol]);
  }

  lemma HeldWithinCap(limits: RiskLimits, p: Portfolio, symbol: string)
    requires limits.maxPositionNotional >= 0.0 && WithinCaps(limits, p) && symbol in p.marks
    ensures Held(At(p.positions, symbol), p.marks[symbol]) <= limits.maxPositionNotional
  {
    assert Held(0.0, p.marks[symbol]) == 0.0;
    hide Held, PortfolioNotional, LeverageCap;
  }

  lemma ReducingKeepsCaps(limits: RiskLimits, p: Portfolio, intent: OrderIntent, filled: real)
    requires limits.maxPositionNotional >= 0.0 && WithinCaps(limits, p) && intent.symbol in p.marks
    requires p.marks[intent.symbol] > 0.0
    requires var held := At(p.positions, intent.symbol); AbsReal(held + Signed(intent.side, filled)) <= AbsReal(held)
    ensures WithinCaps(limits, Booked(p, intent, filled))
  {
    hide Held, PortfolioNotional, AbsReal, Signed, LeverageCap;
    ReducingShrinks(p, intent, filled);
    HeldWithinCap(limits, p, intent.symbol);
    RevaluedWithinCaps(limits, p, intent.symbol, At(p.positions, intent.symbol) + Signed(intent.side, filled));
  }

  lemma AddingGrowsBy(p: Portfolio, intent: OrderIntent, filled: real, notional: real)
    requires intent.symbol in p.marks && 0.0 <= filled <= intent.qty && p.marks[intent.symbol] > 0.0
    requires notional == intent.qty * p.marks[intent.symbol]
    ensures var mark, p' := p.marks[intent.symbol], Booked(p, intent, filled);
            && Held(p'.positions[intent.symbol], mark) <= Held(At(p.positions, intent.symbol), mark) + notional
            && PortfolioNotional(p') <= PortfolioNotional(p) + notional
  {
    hide Held, PortfolioNotional, AbsReal, Signed;
    BookingMovesTheTotal(p, intent, filled);
    FillGrowsHeldAtMost(At(p.positions, intent.symbol), intent.side, filled, intent.qty, p.marks[intent.symbol]);
  }

  lemma AddingKeepsCaps(limits: RiskLimits, p: Portfolio, intent: OrderIntent, filled: real, notional: real)
    requires WithinCaps(limits, p) && intent.symbol in p.marks && 0.0 <= filled <= intent.qty
    requires p.marks[intent.symbol] > 0.0 && notional == intent.qty * p.marks[intent.symbol]
    requires && Held(At(p.positions, intent.symbol), p.marks[intent.symbol]) + notional <= limits.maxPositionNotional
             && PortfolioNotional(p) + notional <= limits.maxAggregateNotional
             && (p.equity > 0.0 ==> PortfolioNotional(p) + notional <= LeverageCap(limits, p.equity))
    ensures WithinCaps(limits, Booked(p, intent, filled))
  {
    hide WithinCaps, Held, PortfolioNotional, AbsReal, Signed, LeverageCap;
    AddingGrowsBy(p, intent, filled, notional);
    RevaluedWithinCaps(limits, p, intent.symbol, At(p.positions, intent.symbol) + Signed(intent.side, filled));
  }

  lemma AllowedRoom(limits: RiskLimits, s: RiskState, intent: OrderIntent, ctx: RiskContext)
    requires Veto(limits, s, intent, ctx).None?
    ensures intent.qty > 0.0 && ctx.mark > 0.0
    ensures var p, notional := ctx.portfolio, intent.qty * ctx.mark;
            !intent.reduceOnly ==>
              && Held(At(p.positions, intent.symbol), ctx.mark) + notional <= limits.maxPositionNotional
              && PortfolioNotional(p) + notional <= limits.maxAggregateNotional
              && (p.equity > 0.0 ==> PortfolioNotional(p) + notional <= LeverageCap(limits, p.equity))
  {
    hide Veto, Held, PortfolioNotional, CorrelatedNotional, Value, TotalValue, ClusterValue;
    HeldIsValue(At(ctx.portfolio.positions, intent.symbol), ctx.mark);
    TotalsAreValues(ctx.portfolio, intent.symbol, limits.correlationThreshold);
    AllowedIff(limits, s, intent, ctx);
  }

  lemma TradeKeepsCaps(limits: RiskLimits, d: Desk, step: DeskStep)
    requires limits.maxPositionNotional >= 0.0
    requires WithinCaps(limits, d.portfolio) && Plausible(limits, d, step) && TradeAllowed(limits, d, step)
    ensures WithinCaps(limits, StepDesk(limits, d, step).portfolio)
  {
    hide WithinCaps, Veto, Checked, Held, PortfolioNotional, LeverageCap, AbsReal, Booked, AgainstPosition;
    KeepsSizeIff(At(d.portfolio.positions, step.intent.symbol), step.intent.side, step.filled);
    AllowedRoom(limits, d.engine, step.intent, Context(d, step.intent.symbol, step.at));
    if step.intent.reduceOnly {
      ReducingKeepsCaps(limits, d.portfolio, step.intent, step.filled);
    } else {
      AddingKeepsCaps(limits, d.portfolio, step.intent, step.filled,
                      step.intent.qty * d.portfolio.marks[step.intent.symbol]);
    }
  }

  /** Within the caps at the start, within the caps after every run: fills are booked before the next
      check, breaker calls and portfolio watches come in anywhere. */
  lemma {:induction false} CapsHoldAlways(limits: RiskLimits, d: Desk, steps: seq<DeskStep>)
    requires limits.maxPositionNotional >= 0.0
    requires WithinCaps(limits, d.portfolio) && PlausibleRun(limits, d, steps)
    ensures WithinCaps(limits, RunDesk(limits, d, steps).portfolio)
  {
    hide WithinCaps, Plausible, TradeAllowed, Checked, Watched;
    if steps != [] {
      var before, step := steps[..|steps| - 1], steps[|steps| - 1];
      PrefixIsPlausible(limits, d, steps);
      CapsHoldAlways(limits, d, before);
      var d1 := RunDesk(limits, d, before);
      if TradeAllowed(limits, d1, step) {
        TradeKeepsCaps(limits, d1, step);
      } else {
      }
    }
  }

  lemma PrefixIsPlausible(limits: RiskLimits, d: Desk, steps: seq<DeskStep>)
    requires steps != [] && PlausibleRun(limits, d, steps)
    ensures var before := steps[..|steps| - 1];
            PlausibleRun(limits, d, before) && Plausible(limits, RunDesk(limits, d, before), steps[|steps| - 1])
  {
    hide RunDesk, Plausible;
    var before := steps[..|steps| - 1];
    forall i | 0 <= i < |before|
      ensures Plausible(limits, RunDesk(limits, d, before[..i]), before[i])
    {
      assert before[..i] == steps[..i] && before[i] == steps[i];
    }
  }

  // -------------------------------------------------------- the frozen book

  predicate NoReset(steps: seq<DeskStep>) {
    forall i :: 0 <= i < |steps| ==> !steps[i].OperatorReset?
  }

  ghost predicate NoLarger(p': Portfolio, p: Portfolio) {
    && p'.marks == p.marks
    && forall symbol :: AbsReal(At(p'.positions, symbol)) <= AbsReal(At(p.positions, symbol))
  }

  lemma KeepsSizeIff(held: real, side: Side, filled: real)
    requires filled >= 0.0
    ensures AbsReal(held + Signed(side, filled)) <= AbsReal(held) <==> AgainstPosition(held, side, filled)
  {}

  /** A tripped step keeps the breaker tripped, and enlarges no position exactly when the venue honours
      the reduce-only flag, which is all it can have been allowed on. */
  lemma TrippedStepIff(limits: RiskLimits, d: Desk, step: DeskStep)
    requires d.engine.breaker.current != NORMAL && !step.OperatorReset? && FillsWithinOrder(limits, d, step)
    ensures var d' := StepDesk(limits, d, step);
            && Severity(d'.engine.breaker.current) >= Severity(d.engine.breaker.current)
            && (NoLarger(d'.portfolio, d.portfolio) <==> HonoursReduceOnly(limits, d, step))
  {
    hide SizeVeto, OutsideBand;
    if TradeAllowed(limits, d, step) {
      assert step.intent.reduceOnly;
      var symbol, held := step.intent.symbol, At(d.portfolio.positions, step.intent.symbol);
      KeepsSizeIff(held, step.intent.side, step.filled);
      var p' := Booked(d.portfolio, step.intent, step.filled);
      assert forall other :: other != symbol ==> At(p'.positions, other) == At(d.portfolio.positions, other);
      assert At(p'.positions, symbol) == held + Signed(step.intent.side, step.filled);
    }
  }

  /** Once tripped, without a reset, the breaker stays tripped and its severity never falls. */
  lemma {:induction false} StaysTripped(limits: RiskLimits, d: Desk, steps: seq<DeskStep>)
    requires d.engine.breaker.current != NORMAL && NoReset(steps)
    ensures Severity(RunDesk(limits, d, steps).engine.breaker.current) >= Severity(d.engine.breaker.current)
  {
    hide Veto, Booked, TradeAllowed;
    if steps != [] { StaysTripped(limits, d, steps[..|steps| - 1]); }
  }

  predicate KeepsSize(held: real, side: Side, filled: real) {
    AbsReal(held + Signed(side, filled)) <= AbsReal(held)
  }

  /** No fill of an order can enlarge a position exactly when the whole order faces it and is at most
      twice its size. */
  lemma OrderKeepsSizeIff(held: real, side: Side, qty: real)
    requires qty >= 0.0
    ensures (forall filled :: 0.0 <= filled <= qty ==> KeepsSize(held, side, filled))
            <==> AgainstPosition(held, side, qty)
  {
    KeepsSizeIff(held, side, qty);
    forall filled | 0.0 <= filled <= qty && AgainstPosition(held, side, qty) ensures KeepsSize(held, side, filled) {
      KeepsSizeIff(held, side, filled);
    }
    if !AgainstPosition(held, side, qty) { assert !KeepsSize(held, side, qty); }
  }

  /** Whatever of it the venue fills, the step enlarges no position. */
  ghost predicate CannotGrow(limits: RiskLimits, d: Desk, step: DeskStep) {
    step.Trade? ==>
      forall filled :: 0.0 <= filled <= step.intent.qty ==>
        NoLarger(StepDesk(limits, d, Trade(step.intent, step.at, filled)).portfolio, d.portfolio)
  }

  /** What the gate could check of an order before letting it through a tripped breaker. */
  ghost predicate FacesPosition(limits: RiskLimits, d: Desk, step: DeskStep) {
    TradeAllowed(limits, d, step) ==>
      AgainstPosition(At(d.portfolio.positions, step.intent.symbol), step.intent.side, step.intent.qty)
  }

  lemma NoLargerIff(limits: RiskLimits, d: Desk, step: DeskStep)
    requires step.Trade?
    ensures NoLarger(StepDesk(limits, d, step).portfolio, d.portfolio)
            <==> !TradeAllowed(limits, d, step)
                 || KeepsSize(At(d.portfolio.positions, step.intent.symbol), step.intent.side, step.filled)
  {
    hide Veto, Checked, AbsReal;
    var p' := Booked(d.portfolio, step.intent, step.filled);
    assert forall other :: other != step.intent.symbol ==> At(p'.positions, other) == At(d.portfolio.positions, other);
    assert At(p'.positions, step.intent.symbol)
           == At(d.portfolio.positions, step.intent.symbol) + Signed(step.intent.side, step.filled);
  }

  lemma TrippedOrderIff(limits: RiskLimits, d: Desk, step: DeskStep)
    requires d.engine.breaker.current != NORMAL
    ensures CannotGrow(limits, d, step) <==> FacesPosition(limits, d, step)
  {
    if TradeAllowed(limits, d, step) {
      AllowedIff(limits, d.engine, step.intent, Context(d, step.intent.symbol, step.at));
      var held := At(d.portfolio.positions, step.intent.symbol);
      OrderKeepsSizeIff(held, step.intent.side, step.intent.qty);
      hide StepDesk, NoLarger, Veto, KeepsSize, AgainstPosition;
      forall filled | 0.0 <= filled <= step.intent.qty
        ensures NoLarger(StepDesk(limits, d, Trade(step.intent, step.at, filled)).portfolio, d.portfolio)
                <==> KeepsSize(held, step.intent.side, filled)
      {
        NoLargerIff(limits, d, Trade(step.intent, step.at, filled));
      }
    } else if step.Trade? {
      hide StepDesk, NoLarger, Veto, KeepsSize;
      forall filled ensures NoLarger(StepDesk(limits, d, Trade(step.intent, step.at, filled)).portfolio, d.portfolio) {
        NoLargerIff(limits, d, Trade(step.intent, step.at, filled));
      }
    }
  }

  /** From the moment the breaker leaves NORMAL until an operator resets it, no order can enlarge any
      position, whatever is filled of it, if and only if every order let through faces its position and
      is at most twice its size. The gate itself looks at the reduce-only flag alone. */
  lemma TrippedBookOnlyShrinksIff(limits: RiskLimits, d: Desk, steps: seq<DeskStep>)
    requires d.engine.breaker.current != NORMAL && NoReset(steps)
    ensures (forall i :: 0 <= i < |steps| ==> CannotGrow(limits, RunDesk(limits, d, steps[..i]), steps[i]))
            <==> (forall i :: 0 <= i < |steps| ==> FacesPosition(limits, RunDesk(limits, d, steps[..i]), steps[i]))
  {
    hide CannotGrow, FacesPosition, RunDesk;
    forall i | 0 <= i < |steps|
      ensures CannotGrow(limits, RunDesk(limits, d, steps[..i]), steps[i])
              <==> FacesPosition(limits, RunDesk(limits, d, steps[..i]), steps[i])
    {
      StaysTripped(limits, d, steps[..i]);
      TrippedOrderIff(limits, RunDesk(limits, d, steps[..i]), steps[i]);
    }
  }

  /** Concretely: with the breaker at HALT and a flat book, a reduce-only buy of 1 is let through, and
      once filled the book holds 1. */
  lemma ReduceOnlyOpensAPosition()
    ensures var limits := RiskLimits(1000.0, 5000.0, 5.0, 0.05, 0.15, 2000.0, 0.8, 20, 60000, 0.05);
            var p := Portfolio(map[], map["X" := 1.0], 100.0, 0.0, 0.0, 0.0, map[]);
            var d := Desk(RiskState(Breaker(HALT, Some("Drawdown"), []), [], []), p);
            var step := Trade(OrderIntent("", "X", Buy, 1.0, Market, true, None, ""), 0, 1.0);
            TradeAllowed(limits, d, step) && At(StepDesk(limits, d, step).portfolio.positions, "X") == 1.0
  {
    assert Prune([], -60000) == [];
  }

  /** So while the flag is honoured, the whole book only shrinks from the trip on. */
  lemma {:induction false} TrippedBookOnlyShrinks(limits: RiskLimits, d: Desk, steps: seq<DeskStep>)
    requires d.engine.breaker.current != NORMAL && NoReset(steps) && PlausibleRun(limits, d, steps)
    ensures var d' := RunDesk(limits, d, steps);
            && Severity(d'.engine.breaker.current) >= Severity(d.engine.breaker.current)
            && NoLarger(d'.portfolio, d.portfolio)
  {
    hide FillsWithinOrder, HonoursReduceOnly, StepDesk;
    if steps != [] {
      var before, step := steps[..|steps| - 1], steps[|steps| - 1];
      PrefixIsPlausible(limits, d, steps);
      TrippedBookOnlyShrinks(limits, d, before);
      TrippedStepIff(limits, RunDesk(limits, d, before), step);
    }
  }

  // ------------------------------------------ what the aggregate cap can see

  /** A pricing of every symbol that keeps the marks the portfolio has. */
  ghost predicate Prices(marks: map<string, real>, p: Portfolio) {
    && p.positions.Keys + p.marks.Keys <= marks.Keys
    && (forall symbol :: symbol in p.marks ==> marks[symbol] == p.marks[symbol])
    && (forall symbol :: symbol in marks ==> marks[symbol] >= 0.0)
  }

  predicate MarkedOrFlat(p: Portfolio) {
    forall symbol :: symbol in p.positions ==> symbol in p.marks || p.positions[symbol] == 0.0
  }

  /** Flat positions add nothing to a sum of notionals. */
  lemma {:induction false} FlatAddNothing(m: map<string, real>, m': map<string, real>)
    requires m.Keys <= m'.Keys && forall k :: k in m' ==> m'[k] == At(m, k)
    ensures SumOf(m') == SumOf(m)
    decreases |m'|
  {
    if m' != map[] {
      var k :| k in m';
      SumRemove(m', k);
      if k in m {
        SumRemove(m, k);
      } else {
        assert m - {k} == m;
      }
      FlatAddNothing(m - {k}, m' - {k});
    } else {
      assert m == map[];
    }
  }

  lemma PricingFlats(p: Portfolio, marks: map<string, real>)
    requires MarkedOrFlat(p) && Prices(marks, p)
    ensures PortfolioNotional(p.(marks := marks)) == PortfolioNotional(p)
  {
    var m, m' := Notionals(p, p.positions.Keys), Notionals(p.(marks := marks), p.positions.Keys);
    assert forall k :: k in m' ==> m'[k] == At(m, k);
    FlatAddNothing(m, m');
  }

  lemma PricedHigh(size: real, limit: real) returns (mark: real)
    requires size != 0.0
    ensures mark >= 0.0 && Held(size, mark) > limit
  {
    mark := (AbsReal(limit) + 1.0) / AbsReal(size);
    assert mark * AbsReal(size) == AbsReal(limit) + 1.0;
  }

  lemma SomethingUnseen(p: Portfolio, limit: real) returns (marks: map<string, real>)
    requires !MarkedOrFlat(p) && forall symbol :: symbol in p.marks ==> p.marks[symbol] >= 0.0
    ensures Prices(marks, p) && PortfolioNotional(p.(marks := marks)) > limit
  {
    var unseen :| unseen in p.positions && unseen !in p.marks && p.positions[unseen] != 0.0;
    var mark := PricedHigh(p.positions[unseen], limit);
    marks := map symbol | symbol in p.positions.Keys + p.marks.Keys ::
               if symbol in p.marks then p.marks[symbol] else if symbol == unseen then mark else 0.0;
    var m := Notionals(p.(marks := marks), p.positions.Keys);
    assert forall k :: k in m ==> m[k] >= 0.0;
    SumNonNegative(m);
    assert m[unseen] == Held(p.positions[unseen], mark);
  }

  /** An exposure-adding intent was allowed. The aggregate it was allowed on bounds the account's true
      aggregate, however the unmarked symbols are priced, exactly when every position is marked or flat. */
  lemma AggregateCapSeesAllIff(limits: RiskLimits, s: RiskState, intent: OrderIntent, ctx: RiskContext)
    requires Veto(limits, s, intent, ctx).None? && !intent.reduceOnly
    requires forall symbol :: symbol in ctx.portfolio.marks ==> ctx.portfolio.marks[symbol] >= 0.0
    ensures (forall marks :: Prices(marks, ctx.portfolio) ==>
               PortfolioNotional(ctx.portfolio.(marks := marks)) + intent.qty * ctx.mark <= limits.maxAggregateNotional)
            <==> MarkedOrFlat(ctx.portfolio)
  {
    var p, notional := ctx.portfolio, intent.qty * ctx.mark;
    AllowedIff(limits, s, intent, ctx);
    TotalsAreValues(p, intent.symbol, limits.correlationThreshold);
    hide PortfolioNotional, Veto, CorrelatedNotional, Held, Prices, MarkedOrFlat, Value, TotalValue, ClusterValue;
    if MarkedOrFlat(p) {
      forall marks | Prices(marks, p)
        ensures PortfolioNotional(p.(marks := marks)) + notional <= limits.maxAggregateNotional
      {
        PricingFlats(p, marks);
      }
    } else {
      var marks := SomethingUnseen(p, limits.maxAggregateNotional - notional);
      assert Prices(marks, p) && PortfolioNotional(p.(marks := marks)) + notional > limits.maxAggregateNotional;
    }
  }

  /** Concretely: with a limit of 10, an intent is allowed although the account already holds 50 of a
      symbol that carries no mark in the portfolio. */
  lemma UnmarkedPositionEscapesTheCap()
    ensures var limits := RiskLimits(1000.0, 10.0, 5.0, 0.05, 0.15, 100.0, 0.8, 20, 60000, 0.05);
            var intent := OrderIntent("", "X", Buy, 1.0, Market, false, None, "");
            var ctx := RiskContext(Portfolio(map["X" := 50.0], map[], 0.0, 0.0, 0.0, 0.0, map[]), 1.0, 0);
            && Veto(limits, FRESH_RISK, intent, ctx).None?
            && Held(ctx.portfolio.positions["X"], ctx.mark) > limits.maxAggregateNotional
  {
    var limits := RiskLimits(1000.0, 10.0, 5.0, 0.05, 0.15, 100.0, 0.8, 20, 60000, 0.05);
    var intent := OrderIntent("", "X", Buy, 1.0, Market, false, None, "");
    var p := Portfolio(map["X" := 50.0], map[], 0.0, 0.0, 0.0, 0.0, map[]);
    assert Notionals(p, p.positions.Keys) == map[];
    assert Notionals(p, Correlates(p, "X", 0.8)) == map[];
    assert Prune([], -60000) == [];
    AllowedIff(limits, FRESH_RISK, intent, RiskContext(p, 1.0, 0));
  }
}
