/** The risk engine every intent passes: its checks, its order-rate window, its portfolio watch. */
module RiskEngines {
  import opened Results
  import opened Reals
  import opened Sums
  import opened Engines
  import opened Breakers

  datatype RiskLimits = RiskLimits(
    maxPositionNotional: real, maxAggregateNotional: real, maxLeverage: real,
    maxDailyLossPct: real, maxDrawdownPct: real, maxCorrelatedNotional: real, correlationThreshold: real,
    maxOrdersPerWindow: int, rateWindowMs: int, maxPriceDeviationPct: real)

  datatype Portfolio = Portfolio(
    positions: map<string, real>, marks: map<string, real>, equity: real, dayStartEquity: real,
    highWaterMark: real, realisedPnlToday: real, correlations: map<string, real>)

  datatype RiskCheck =
    | BREAKER | POSITION_NOTIONAL | AGGREGATE_NOTIONAL | LEVERAGE | CORRELATION | ORDER_RATE | PRICE_BAND | SANITY

  datatype RiskDecision = Allowed(intent: OrderIntent) | Denied(check: RiskCheck, intent: OrderIntent)

  datatype RiskContext = RiskContext(portfolio: Portfolio, mark: real, at: int)

  datatype RiskState = RiskState(breaker: Breaker, recent: seq<int>, decisions: seq<RiskDecision>)

  /** What a position is worth at a mark, whichever way it faces. */
  function Held(size: real, mark: real): real {
    AbsReal(size) * mark
  }

  // --------------------------------------------------------------- notional

  predicate TextBeforeOrSame(a: string, b: string) {
    a == [] || (b != [] && (a[0] < b[0] || (a[0] == b[0] && TextBeforeOrSame(a[1..], b[1..]))))
  }

  function CorrelationKey(a: string, b: string): string {
    if TextBeforeOrSame(a, b) then a + "|" + b else b + "|" + a
  }

  lemma {:induction false} TextOrderIsTotal(a: string, b: string)
    ensures TextBeforeOrSame(a, b) || TextBeforeOrSame(b, a)
    ensures TextBeforeOrSame(a, b) && TextBeforeOrSame(b, a) ==> a == b
  {
    if a != [] && b != [] && a[0] == b[0] {
      TextOrderIsTotal(a[1..], b[1..]);
      assert a == [a[0]] + a[1..] && b == [b[0]] + b[1..];
    }
  }

  /** A pair of symbols has one key, whichever is named first. */
  lemma CorrelationKeyIsSymmetric(a: string, b: string)
    ensures CorrelationKey(a, b) == CorrelationKey(b, a)
  {
    TextOrderIsTotal(a, b);
  }

  /** It joins the two names with a bar, the one that sorts first in front. */
  lemma KeyNamesTheFirstFirst(a: string, b: string)
    ensures CorrelationKey(a, b) == a + "|" + b || CorrelationKey(a, b) == b + "|" + a
    ensures a != [] && b != [] && a[0] < b[0] ==> CorrelationKey(a, b) == a + "|" + b
    ensures CorrelationKey("ETH", "BTC") == CorrelationKey("BTC", "ETH") == "BTC|ETH"
  {}

  predicate Marked(p: Portfolio, symbol: string) {
    symbol in p.positions && symbol in p.marks
  }

  predicate SameTrade(p: Portfolio, symbol: string, held: string, threshold: real) {
    || held == symbol
    || (CorrelationKey(symbol, held) in p.correlations
        && AbsReal(p.correlations[CorrelationKey(symbol, held)]) >= threshold)
  }

  predicate CountsAsCorrelated(p: Portfolio, symbol: string, held: string, threshold: real) {
    Marked(p, held) && p.positions[held] != 0.0 && SameTrade(p, symbol, held, threshold)
  }

  /** The notional of every marked position among `symbols`. */
  ghost function Notionals(p: Portfolio, symbols: set<string>): map<string, real> {
    map symbol | symbol in symbols && Marked(p, symbol) :: Held(p.positions[symbol], p.marks[symbol])
  }

  ghost function PortfolioNotional(p: Portfolio): real {
    SumOf(Notionals(p, p.positions.Keys))
  }

  ghost function Correlates(p: Portfolio, symbol: string, threshold: real): set<string> {
    set held | held in p.positions && CountsAsCorrelated(p, symbol, held, threshold)
  }

  ghost function CorrelatedNotional(p: Portfolio, symbol: string, threshold: real): real {
    SumOf(Notionals(p, Correlates(p, symbol, threshold)))
  }

  lemma NotionalsWith(p: Portfolio, symbols: set<string>, symbol: string)
    requires symbol in p.positions && symbol !in symbols
    ensures SumOf(Notionals(p, symbols + {symbol})) ==
            SumOf(Notionals(p, symbols)) + if symbol in p.marks then Held(p.positions[symbol], p.marks[symbol]) else 0.0
  {
    var before, after := Notionals(p, symbols), Notionals(p, symbols + {symbol});
    if symbol in p.marks {
      assert after == before[symbol := Held(p.positions[symbol], p.marks[symbol])];
      SumUpdate(before, symbol, Held(p.positions[symbol], p.marks[symbol]));
    } else {
      assert after == before;
    }
  }

  method ComputeTotalNotional(p: Portfolio) returns (total: real)
    ensures total == PortfolioNotional(p)
  {
    hide Held;
    total := 0.0;
    var todo := p.positions.Keys;
    ghost var done: set<string> := {};
    while todo != {}
      invariant todo !! done && todo + done == p.positions.Keys
      invariant total == SumOf(Notionals(p, done))
      decreases |todo|
    {
      var symbol :| symbol in todo;
      NotionalsWith(p, done, symbol);
      if symbol in p.marks { total := total + Held(p.positions[symbol], p.marks[symbol]); }
      todo, done := todo - {symbol}, done + {symbol};
    }
  }

  method ComputeCorrelatedNotional(p: Portfolio, symbol: string, threshold: real) returns (total: real)
    ensures total == CorrelatedNotional(p, symbol, threshold)
  {
    hide Held, CountsAsCorrelated;
    total := 0.0;
    var todo := p.positions.Keys;
    ghost var done: set<string> := {};
    ghost var all := Correlates(p, symbol, threshold);
    while todo != {}
      invariant todo !! done && todo + done == p.positions.Keys
      invariant total == SumOf(Notionals(p, done * all))
      decreases |todo|
    {
      var held :| held in todo;
      if CountsAsCorrelated(p, symbol, held, threshold) {
        NotionalsWith(p, done * all, held);
        MarkedWhenCorrelated(p, symbol, held, threshold);
        total := total + Held(p.positions[held], p.marks[held]);
        assert (done + {held}) * all == done * all + {held};
      } else {
        assert (done + {held}) * all == done * all;
      }
      todo, done := todo - {held}, done + {held};
    }
    assert done * all == all;
  }

  lemma MarkedWhenCorrelated(p: Portfolio, symbol: string, held: string, threshold: real)
    ensures CountsAsCorrelated(p, symbol, held, threshold) ==> held in p.positions && held in p.marks
  {}

  // ---------------------------------------------------------------- deciding

  function Prune(recent: seq<int>, cutoff: int): seq<int> {
    if recent != [] && recent[0] < cutoff then Prune(recent[1..], cutoff) else recent
  }

  predicate Sane(intent: OrderIntent, ctx: RiskContext) {
    intent.qty > 0.0 && ctx.mark > 0.0
  }

  predicate OutsideBand(limits: RiskLimits, intent: OrderIntent, mark: real)
    requires mark > 0.0
  {
    intent.style.Limit? && AbsReal(intent.style.price - mark) / mark > limits.maxPriceDeviationPct
  }

  /** The checks on exposure, in order; the first that fails vetoes. */
  ghost function SizeVeto(limits: RiskLimits, intent: OrderIntent, ctx: RiskContext): Option<RiskCheck> {
    var p := ctx.portfolio;
    CapVeto(limits, Held(At(p.positions, intent.symbol), ctx.mark), PortfolioNotional(p),
            CorrelatedNotional(p, intent.symbol, limits.correlationThreshold), p.equity, intent.qty * ctx.mark)
  }

  /** The exposure caps, on what is held already and the notional that would come on top. */
  function CapVeto(limits: RiskLimits, existing: real, total: real, correlated: real, equity: real,
                   notional: real): Option<RiskCheck>
  {
    if existing + notional > limits.maxPositionNotional then Some(POSITION_NOTIONAL)
    else if total + notional > limits.maxAggregateNotional then Some(AGGREGATE_NOTIONAL)
    else if equity > 0.0 && (total + notional) / equity > limits.maxLeverage then Some(LEVERAGE)
    else if correlated + notional > limits.maxCorrelatedNotional then Some(CORRELATION)
    else None
  }

  predicate ReachesRateCheck(breaker: BreakerState, intent: OrderIntent, ctx: RiskContext) {
    Sane(intent, ctx) && (!BlocksNewRisk(breaker) || intent.reduceOnly)
  }

  ghost function Veto(limits: RiskLimits, s: RiskState, intent: OrderIntent, ctx: RiskContext): Option<RiskCheck> {
    if !Sane(intent, ctx) then Some(SANITY)
    else if !ReachesRateCheck(s.breaker.current, intent, ctx) then Some(BREAKER)
    else if |Prune(s.recent, ctx.at - limits.rateWindowMs)| >= limits.maxOrdersPerWindow then Some(ORDER_RATE)
    else if OutsideBand(limits, intent, ctx.mark) then Some(PRICE_BAND)
    else if intent.reduceOnly then None
    else SizeVeto(limits, intent, ctx)
  }

  /** The window forgets only once the rate check is reached; only an accepted intent enters it. */
  ghost function Checked(limits: RiskLimits, s: RiskState, intent: OrderIntent, ctx: RiskContext): RiskState {
    var veto := Veto(limits, s, intent, ctx);
    var kept := if ReachesRateCheck(s.breaker.current, intent, ctx)
                then Prune(s.recent, ctx.at - limits.rateWindowMs) else s.recent;
    RiskState(s.breaker,
              if veto.None? then kept + [ctx.at] else kept,
              s.decisions + [if veto.None? then Allowed(intent) else Denied(veto.value, intent)])
  }

  function Watched(limits: RiskLimits, b: Breaker, p: Portfolio, at: int): Breaker {
    var b1 := if p.dayStartEquity > 0.0 && -p.realisedPnlToday / p.dayStartEquity >= limits.maxDailyLossPct
              then Escalated(b, HALT, "Daily loss", at) else b;
    if p.highWaterMark > 0.0 && (p.highWaterMark - p.equity) / p.highWaterMark >= limits.maxDrawdownPct
    then Escalated(b1, HALT, "Drawdown", at) else b1
  }

  class RiskEngine {
    const limits: RiskLimits
    const breaker: CircuitBreaker
    var recentOrders: seq<int>
    var decisions: seq<RiskDecision>

    ghost function State(): RiskState
      reads this, breaker
    {
      RiskState(breaker.State(), recentOrders, decisions)
    }

    constructor (limits: RiskLimits)
      ensures this.limits == limits && fresh(breaker)
      ensures State() == RiskState(CLOSED_BREAKER, [], [])
    {
      this.limits := limits;
      breaker := new CircuitBreaker();
      recentOrders, decisions := [], [];
    }

    method EvaluatePortfolio(p: Portfolio, at: int) returns (now: BreakerState)
      modifies breaker
      ensures breaker.State() == Watched(limits, old(breaker.State()), p, at) && now == breaker.current
    {
      if p.dayStartEquity > 0.0 {
        var lossPct := -p.realisedPnlToday / p.dayStartEquity;
        if lossPct >= limits.maxDailyLossPct {
          var _ := breaker.Escalate(HALT, "Daily loss", at);
        }
      }
      if p.highWaterMark > 0.0 {
        var drawdown := (p.highWaterMark - p.equity) / p.highWaterMark;
        if drawdown >= limits.maxDrawdownPct {
          var _ := breaker.Escalate(HALT, "Drawdown", at);
        }
      }
      now := breaker.current;
    }

    method Check(intent: OrderIntent, ctx: RiskContext) returns (d: RiskDecision)
      modifies this
      ensures State() == Checked(limits, old(State()), intent, ctx)
      ensures decisions == old(decisions) + [d]
      ensures d == match Veto(limits, old(State()), intent, ctx)
                   case None => Allowed(intent)
                   case Some(check) => Denied(check, intent)
      ensures d.Allowed? ==> recentOrders != [] && recentOrders[|recentOrders| - 1] == ctx.at
      ensures d == State().decisions[|old(decisions)|]
      ensures breaker.State() == old(breaker.State())
    {
      d := Evaluate(intent, ctx);
      decisions := decisions + [d];
      if d.Allowed? { recentOrders := recentOrders + [ctx.at]; }
    }

    method Evaluate(intent: OrderIntent, ctx: RiskContext) returns (d: RiskDecision)
      modifies this`recentOrders
      ensures breaker.State() == old(breaker.State())
      ensures recentOrders == if ReachesRateCheck(breaker.current, intent, ctx)
                              then Prune(old(recentOrders), ctx.at - limits.rateWindowMs) else old(recentOrders)
      ensures var veto := Veto(limits, old(State()), intent, ctx);
              d == if veto.None? then Allowed(intent) else Denied(veto.value, intent)
    {
      if intent.qty <= 0.0 { return Denied(SANITY, intent); }
      if ctx.mark <= 0.0 { return Denied(SANITY, intent); }
      if BlocksNewRisk(breaker.current) && !intent.reduceOnly { return Denied(BREAKER, intent); }
      PruneRateWindow(ctx.at);
      if |recentOrders| >= limits.maxOrdersPerWindow { return Denied(ORDER_RATE, intent); }
      if intent.style.Limit? {
        var deviation := AbsReal(intent.style.price - ctx.mark) / ctx.mark;
        if deviation > limits.maxPriceDeviationPct { return Denied(PRICE_BAND, intent); }
      }
      if intent.reduceOnly { return Allowed(intent); }
      var veto := SizeChecks(intent, ctx);
      d := if veto.None? then Allowed(intent) else Denied(veto.value, intent);
    }

    method SizeChecks(intent: OrderIntent, ctx: RiskContext) returns (veto: Option<RiskCheck>)
      ensures veto == SizeVeto(limits, intent, ctx)
    {
      hide Held, PortfolioNotional, CorrelatedNotional;
      var p := ctx.portfolio;
      var notional := intent.qty * ctx.mark;
      var existing := Held(At(p.positions, intent.symbol), ctx.mark);
      assert SizeVeto(limits, intent, ctx)
          == CapVeto(limits, existing, PortfolioNotional(p),
                     CorrelatedNotional(p, intent.symbol, limits.correlationThreshold), p.equity, notional);
      hide SizeVeto;
      if existing + notional > limits.maxPositionNotional { return Some(POSITION_NOTIONAL); }
      var total := ComputeTotalNotional(p);
      var aggregate := total + notional;
      if aggregate > limits.maxAggregateNotional { return Some(AGGREGATE_NOTIONAL); }
      if p.equity > 0.0 {
        var leverage := aggregate / p.equity;
        if leverage > limits.maxLeverage { return Some(LEVERAGE); }
      }
      var correlated := ComputeCorrelatedNotional(p, intent.symbol, limits.correlationThreshold);
      if correlated + notional > limits.maxCorrelatedNotional { return Some(CORRELATION); }
      veto := None;
    }

    method PruneRateWindow(at: int)
      modifies this`recentOrders
      ensures recentOrders == Prune(old(recentOrders), at - limits.rateWindowMs)
    {
      var cutoff := at - limits.rateWindowMs;
      var i := 0;
      while i < |recentOrders| && recentOrders[i] < cutoff
        invariant 0 <= i <= |recentOrders|
        invariant Prune(recentOrders, cutoff) == Prune(recentOrders[i..], cutoff)
      {
        assert recentOrders[i..][1..] == recentOrders[i + 1..];
        i := i + 1;
      }
      if i > 0 { recentOrders := recentOrders[i..]; }
    }
  }

  // --------------------------------------------------- what a verdict means

  lemma RatioExceeds(a: real, b: real, limit: real)
    requires b > 0.0
    ensures a / b > limit <==> a > limit * b
    ensures a / b >= limit <==> a >= limit * b
  {
    var q := a / b;
    assert q * b == a;
    assert q > limit ==> (q - limit) * b > 0.0;
    assert q < limit ==> (limit - q) * b > 0.0;
  }

  /** The value of a position, long or short. */
  function Value(size: real, mark: real): real {
    if size >= 0.0 then size * mark else -(size * mark)
  }

  /** The value of all positions that have a mark. */
  ghost function TotalValue(p: Portfolio): real {
    SumOf(map held | held in p.positions && held in p.marks :: Value(p.positions[held], p.marks[held]))
  }

  /** The pair has a correlation at or beyond the threshold, in either direction. */
  predicate MovesWith(p: Portfolio, a: string, b: string, threshold: real) {
    && CorrelationKey(a, b) in p.correlations
    && var c := p.correlations[CorrelationKey(a, b)];
    c >= threshold || c <= -threshold
  }

  /** The value of the marked positions in the symbol itself and in whatever moves with it. */
  ghost function ClusterValue(p: Portfolio, symbol: string, threshold: real): real {
    SumOf(map held | held in p.positions && held in p.marks && p.positions[held] != 0.0
                     && (held == symbol || MovesWith(p, symbol, held, threshold)) ::
            Value(p.positions[held], p.marks[held]))
  }

  lemma HeldIsValue(size: real, mark: real)
    ensures Held(size, mark) == Value(size, mark)
  {
    assert (-size) * mark == -(size * mark);
  }

  lemma TotalsAreValues(p: Portfolio, symbol: string, threshold: real)
    ensures PortfolioNotional(p) == TotalValue(p)
    ensures CorrelatedNotional(p, symbol, threshold) == ClusterValue(p, symbol, threshold)
  {
    forall held | held in p.positions && held in p.marks
      ensures Held(p.positions[held], p.marks[held]) == Value(p.positions[held], p.marks[held])
    {
      HeldIsValue(p.positions[held], p.marks[held]);
    }
    forall held ensures held in Correlates(p, symbol, threshold) <==>
      && held in p.positions && held in p.marks && p.positions[held] != 0.0
      && (held == symbol || MovesWith(p, symbol, held, threshold))
    {}
    hide Held, Value;
    assert Notionals(p, p.positions.Keys)
        == map held | held in p.positions && held in p.marks :: Value(p.positions[held], p.marks[held]);
    assert Notionals(p, Correlates(p, symbol, threshold))
        == map held | held in p.positions && held in p.marks && p.positions[held] != 0.0
                      && (held == symbol || MovesWith(p, symbol, held, threshold)) ::
             Value(p.positions[held], p.marks[held]);
  }

  /** A lower threshold never leaves a position out of the cluster, and its own position is always in it. */
  lemma LowerThresholdSeesMore(p: Portfolio, symbol: string, lower: real, higher: real)
    requires lower <= higher
    ensures Correlates(p, symbol, higher) <= Correlates(p, symbol, lower)
    ensures Marked(p, symbol) && p.positions[symbol] != 0.0 ==> symbol in Correlates(p, symbol, higher)
  {}

  /** An intent is allowed exactly when it is sane, the breaker permits it, the window has room, the
      price is near the mark, and, unless it only reduces, every exposure cap still holds with it. */
  lemma AllowedIff(limits: RiskLimits, s: RiskState, intent: OrderIntent, ctx: RiskContext)
    ensures var p := ctx.portfolio;
            var notional := intent.qty * ctx.mark;
            Veto(limits, s, intent, ctx).None?
            <==>
            && intent.qty > 0.0 && ctx.mark > 0.0
            && (s.breaker.current == NORMAL || intent.reduceOnly)
            && |Prune(s.recent, ctx.at - limits.rateWindowMs)| < limits.maxOrdersPerWindow
            && (intent.style.Limit? ==>
                  -limits.maxPriceDeviationPct * ctx.mark <= intent.style.price - ctx.mark
                  <= limits.maxPriceDeviationPct * ctx.mark)
            && (!intent.reduceOnly ==>
                  && Value(At(p.positions, intent.symbol), ctx.mark) + notional <= limits.maxPositionNotional
                  && TotalValue(p) + notional <= limits.maxAggregateNotional
                  && (p.equity > 0.0 ==> TotalValue(p) + notional <= limits.maxLeverage * p.equity)
                  && ClusterValue(p, intent.symbol, limits.correlationThreshold) + notional
                     <= limits.maxCorrelatedNotional)
  {
    HeldIsValue(At(ctx.portfolio.positions, intent.symbol), ctx.mark);
    TotalsAreValues(ctx.portfolio, intent.symbol, limits.correlationThreshold);
    hide PortfolioNotional, CorrelatedNotional, Held, Value, TotalValue, ClusterValue;
    if ctx.mark > 0.0 && intent.style.Limit? {
      RatioExceeds(AbsReal(intent.style.price - ctx.mark), ctx.mark, limits.maxPriceDeviationPct);
    }
    if ctx.portfolio.equity > 0.0 {
      RatioExceeds(PortfolioNotional(ctx.portfolio) + intent.qty * ctx.mark, ctx.portfolio.equity, limits.maxLeverage);
    }
  }

  /** A refusal names the first check that fails, in this order. */
  lemma RefusalNamesTheFirst(limits: RiskLimits, s: RiskState, intent: OrderIntent, ctx: RiskContext)
    ensures var p, notional := ctx.portfolio, intent.qty * ctx.mark;
            var room := |Prune(s.recent, ctx.at - limits.rateWindowMs)| < limits.maxOrdersPerWindow;
            match Veto(limits, s, intent, ctx)
            case Some(SANITY) => intent.qty <= 0.0 || ctx.mark <= 0.0
            case Some(BREAKER) =>
              intent.qty > 0.0 && ctx.mark > 0.0 && s.breaker.current != NORMAL && !intent.reduceOnly
            case Some(ORDER_RATE) => !room && (s.breaker.current == NORMAL || intent.reduceOnly)
            case Some(PRICE_BAND) =>
              && room && intent.style.Limit?
              && (|| intent.style.price - ctx.mark > limits.maxPriceDeviationPct * ctx.mark
                  || ctx.mark - intent.style.price > limits.maxPriceDeviationPct * ctx.mark)
            case Some(POSITION_NOTIONAL) =>
              room && !intent.reduceOnly && Value(At(p.positions, intent.symbol), ctx.mark) + notional
                                            > limits.maxPositionNotional
            case Some(AGGREGATE_NOTIONAL) =>
              && room && !intent.reduceOnly && TotalValue(p) + notional > limits.maxAggregateNotional
              && Value(At(p.positions, intent.symbol), ctx.mark) + notional <= limits.maxPositionNotional
            case Some(LEVERAGE) =>
              && room && !intent.reduceOnly
              && p.equity > 0.0 && TotalValue(p) + notional > limits.maxLeverage * p.equity
              && TotalValue(p) + notional <= limits.maxAggregateNotional
            case Some(CORRELATION) =>
              && room && !intent.reduceOnly && TotalValue(p) + notional <= limits.maxAggregateNotional
              && ClusterValue(p, intent.symbol, limits.correlationThreshold) + notional > limits.maxCorrelatedNotional
              && (p.equity > 0.0 ==> TotalValue(p) + notional <= limits.maxLeverage * p.equity)
            case None => true
  {
    hide PortfolioNotional, CorrelatedNotional, Held, Value, TotalValue, ClusterValue;
    HeldIsValue(At(ctx.portfolio.positions, intent.symbol), ctx.mark);
    TotalsAreValues(ctx.portfolio, intent.symbol, limits.correlationThreshold);
    if ctx.mark > 0.0 && intent.style.Limit? {
      RatioExceeds(AbsReal(intent.style.price - ctx.mark), ctx.mark, limits.maxPriceDeviationPct);
    }
    if ctx.portfolio.equity > 0.0 {
      RatioExceeds(PortfolioNotional(ctx.portfolio) + intent.qty * ctx.mark, ctx.portfolio.equity, limits.maxLeverage);
    }
  }

  /** Watching the portfolio halts exactly on the daily loss or the drawdown, and otherwise leaves
      the breaker as it was. */
  lemma WatchHaltsIff(limits: RiskLimits, b: Breaker, p: Portfolio, at: int)
    ensures var b' := Watched(limits, b, p, at);
            var lost := p.dayStartEquity > 0.0 && -p.realisedPnlToday >= limits.maxDailyLossPct * p.dayStartEquity;
            var drawn := p.highWaterMark > 0.0 && p.highWaterMark - p.equity >= limits.maxDrawdownPct * p.highWaterMark;
            && (b'.current == HALT <==> b.current == HALT || lost || drawn)
            && (b' == b <==> b.current == HALT || !(lost || drawn))
  {
    if p.dayStartEquity > 0.0 { RatioExceeds(-p.realisedPnlToday, p.dayStartEquity, limits.maxDailyLossPct); }
    if p.highWaterMark > 0.0 { RatioExceeds(p.highWaterMark - p.equity, p.highWaterMark, limits.maxDrawdownPct); }
    assert b.current != HALT ==> |Moved(b, HALT, "Daily loss", at).history| == |b.history| + 1;
  }
}
