/** The server's position gate: hard denials, then sizing clamped to the tightest ceiling. */
module RiskSizing {
  import opened Results
  import opened Reals
  import opened Decimals
  import opened DecimalRounding
  import opened DecimalLaws
  import opened Money

  /** A position or an open trade row. */
  datatype OpenRow = OpenRow(symbol: string, entryPrice: Decimal, size: Decimal)

  datatype SizingLimits = SizingLimits(pairs: seq<string>, maxTradesPerDay: int, maxOpenPositions: int,
                                       maxPositionSize: Decimal, globalRiskCap: Decimal)

  datatype Instrument = Instrument(qtyStep: Decimal, minOrderQty: Decimal, maxOrderQty: Decimal, minNotional: Decimal)

  /** One request; `requested` is the notional the strategy's sizing mode asks for. */
  datatype Entry = Entry(symbol: string, price: Decimal, requested: Decimal, accountEquity: Decimal, openedToday: int,
                         instrument: Instrument)

  datatype Refusal =
    | PairNotAllowed | DailyTradeCap | AlreadyOpen | TooManyPositions | RiskCapReached
    | NoCapital | BelowMinimumSize | BelowMinimumValue | AboveMaximumSize

  datatype Verdict = Approved(notional: Decimal, quantity: Decimal) | Refused(reason: Refusal)

  function SymbolsOf(rows: seq<OpenRow>): set<string> {
    set row | row in rows :: row.symbol
  }

  function Booked(positions: seq<OpenRow>, trades: seq<OpenRow>): set<string> {
    SymbolsOf(positions) + SymbolsOf(trades)
  }

  function Exposure(rows: seq<OpenRow>): Decimal {
    if rows == [] then Decimal(0, 0)
    else Exposure(rows[..|rows| - 1]).Add(rows[|rows| - 1].entryPrice.Mul(rows[|rows| - 1].size))
  }

  function WithoutSymbols(rows: seq<OpenRow>, symbols: set<string>): seq<OpenRow> {
    if rows == [] then []
    else
      var last := rows[|rows| - 1];
      WithoutSymbols(rows[..|rows| - 1], symbols) + if last.symbol in symbols then [] else [last]
  }

  /** A trade row counts only where the exchange reports no position of its symbol. */
  function CurrentExposure(positions: seq<OpenRow>, trades: seq<OpenRow>): Decimal {
    Exposure(positions).Add(Exposure(WithoutSymbols(trades, SymbolsOf(positions))))
  }

  function Tightest(limits: SizingLimits, entry: Entry, headroom: Decimal): Decimal {
    var n := entry.requested.Min(limits.maxPositionSize).Min(headroom);
    if entry.accountEquity.Sign() > 0 then n.Min(entry.accountEquity) else n
  }

  function AssessRisk(limits: SizingLimits, entry: Entry, positions: seq<OpenRow>, trades: seq<OpenRow>): Verdict {
    var booked := Booked(positions, trades);
    var exposure := CurrentExposure(positions, trades);
    if entry.symbol !in limits.pairs then Refused(PairNotAllowed)
    else if limits.maxTradesPerDay > 0 && entry.openedToday >= limits.maxTradesPerDay then Refused(DailyTradeCap)
    else if entry.symbol in booked then Refused(AlreadyOpen)
    else if limits.maxOpenPositions > 0 && |booked| >= limits.maxOpenPositions then Refused(TooManyPositions)
    else if !exposure.Lt(limits.globalRiskCap) then Refused(RiskCapReached)
    else Sized(entry, Tightest(limits, entry, limits.globalRiskCap.Sub(exposure)))
  }

  function Sized(entry: Entry, notional: Decimal): Verdict {
    var quantity := QuantityForNotional(notional, entry.price, entry.instrument.qtyStep);
    var actual := quantity.Mul(entry.price);
    if notional.Sign() <= 0 then Refused(NoCapital)
    else if quantity.Lt(entry.instrument.minOrderQty) then Refused(BelowMinimumSize)
    else if actual.Lt(entry.instrument.minNotional) then Refused(BelowMinimumValue)
    else if quantity.Gt(entry.instrument.maxOrderQty) then Refused(AboveMaximumSize)
    else Approved(actual, quantity)
  }

  // ---------------------------------------------------------------- the value

  /** What rows are worth. */
  ghost function Worth(rows: seq<OpenRow>): real {
    if rows == [] then 0.0 else Worth(rows[..|rows| - 1]) + RowWorth(rows[|rows| - 1])
  }

  ghost function RowWorth(row: OpenRow): real {
    row.entryPrice.Value() * row.size.Value()
  }

  lemma {:induction false} ExposureIsWorth(rows: seq<OpenRow>)
    ensures Exposure(rows).Value() == Worth(rows)
  {
    hide Decimal.Value, Decimal.Add, Decimal.Mul, RowWorth;
    if rows == [] {
      SignOfValue(Decimal(0, 0));
    } else {
      var last := rows[|rows| - 1];
      ExposureIsWorth(rows[..|rows| - 1]);
      RowIsExact(last);
      SumIsExact(Exposure(rows[..|rows| - 1]), last.entryPrice.Mul(last.size));
    }
  }

  lemma RowIsExact(row: OpenRow)
    ensures row.entryPrice.Mul(row.size).Value() == RowWorth(row)
  {
    hide Decimal.Value, Decimal.Mul;
    ArithmeticIsExact(row.entryPrice, row.size);
  }

  lemma SumIsExact(a: Decimal, b: Decimal)
    ensures a.Add(b).Value() == a.Value() + b.Value() && a.Sub(b).Value() == a.Value() - b.Value()
  {
    hide Decimal.Value, Decimal.Add, Decimal.Sub;
    ArithmeticIsExact(a, b);
  }

  /** What the gate takes to be at risk. */
  ghost function AtRisk(positions: seq<OpenRow>, trades: seq<OpenRow>): real {
    Worth(positions) + WorthElsewhere(trades, positions)
  }

  /** What the trade rows are worth whose symbol the exchange reports no position of. */
  ghost function WorthElsewhere(trades: seq<OpenRow>, positions: seq<OpenRow>): real {
    if trades == [] then 0.0
    else
      var last := trades[|trades| - 1];
      WorthElsewhere(trades[..|trades| - 1], positions)
      + if exists row :: row in positions && row.symbol == last.symbol then 0.0 else RowWorth(last)
  }

  lemma {:induction false} KeptIsElsewhere(trades: seq<OpenRow>, positions: seq<OpenRow>)
    ensures Worth(WithoutSymbols(trades, SymbolsOf(positions))) == WorthElsewhere(trades, positions)
  {
    hide RowWorth;
    if trades != [] {
      var before, last := trades[..|trades| - 1], trades[|trades| - 1];
      KeptIsElsewhere(before, positions);
      var kept := WithoutSymbols(before, SymbolsOf(positions));
      assert (kept + [last])[..|kept|] == kept && kept + [] == kept;
      assert last.symbol in SymbolsOf(positions) <==> exists row :: row in positions && row.symbol == last.symbol;
    }
  }

  lemma ExposureIsExact(positions: seq<OpenRow>, trades: seq<OpenRow>)
    ensures CurrentExposure(positions, trades).Value() == AtRisk(positions, trades)
  {
    hide Decimal.Value, Decimal.Add;
    KeptIsElsewhere(trades, positions);
    var others := WithoutSymbols(trades, SymbolsOf(positions));
    ExposureIsWorth(positions);
    ExposureIsWorth(others);
    SumIsExact(Exposure(positions), Exposure(others));
  }

  /** A notional is within every ceiling of a request. */
  ghost predicate WithinCeilings(limits: SizingLimits, entry: Entry, atRisk: real, notional: real) {
    && notional <= entry.requested.Value()
    && notional <= limits.maxPositionSize.Value()
    && atRisk + notional <= limits.globalRiskCap.Value()
    && (entry.accountEquity.Value() > 0.0 ==> notional <= entry.accountEquity.Value())
  }

  lemma MinIsLess(a: Decimal, b: Decimal, x: real)
    ensures x <= a.Min(b).Value() <==> x <= a.Value() && x <= b.Value()
  {
    hide Decimal.Value, Decimal.Compare;
    CompareOrdersValues(a, b);
  }

  lemma TightestIsTheCeiling(limits: SizingLimits, entry: Entry, exposure: Decimal, x: real)
    ensures x <= Tightest(limits, entry, limits.globalRiskCap.Sub(exposure)).Value()
            <==> WithinCeilings(limits, entry, exposure.Value(), x)
  {
    hide Decimal.Value, Decimal.Min, Decimal.Sub;
    var headroom := limits.globalRiskCap.Sub(exposure);
    var two := entry.requested.Min(limits.maxPositionSize);
    SumIsExact(limits.globalRiskCap, exposure);
    MinIsLess(entry.requested, limits.maxPositionSize, x);
    MinIsLess(two, headroom, x);
    MinIsLess(two.Min(headroom), entry.accountEquity, x);
    SignOfValue(entry.accountEquity);
  }

  /** A sized quantity's cost lies between zero and the notional. */
  lemma SizedCost(notional: Decimal, price: Decimal, step: Decimal)
    requires notional.c > 0
    ensures var q := QuantityForNotional(notional, price, step);
            q.Value() >= 0.0 && 0.0 <= q.Mul(price).Value() <= notional.Value()
  {
    hide Decimal.Value, QuantityForNotional, Decimal.Mul;
    var q := QuantityForNotional(notional, price, step);
    RowIsExact(OpenRow("", q, price));
    SignOfValue(notional);
    NoQuantityWithoutCapital(notional, price, step);
    if price.c > 0 && step.c > 0 {
      var _ := QuantityIsMaximal(notional, price, step);
      SignOfValue(price);
    } else {
      SignOfValue(Decimal(0, 0));
    }
  }

  /** What is approved is worth quantity times price, is not negative, and is within the notional
      and within the exchange's bounds. */
  lemma SizedWithin(entry: Entry, notional: Decimal)
    requires Sized(entry, notional).Approved?
    ensures var v := Sized(entry, notional);
            && v.notional == v.quantity.Mul(entry.price)
            && v.quantity.Value() >= 0.0 && 0.0 <= v.notional.Value() <= notional.Value()
            && v.quantity == QuantityForNotional(notional, entry.price, entry.instrument.qtyStep)
            && entry.instrument.minOrderQty.Value() <= v.quantity.Value() <= entry.instrument.maxOrderQty.Value()
            && entry.instrument.minNotional.Value() <= v.notional.Value()
  {
    hide Decimal.Value, QuantityForNotional, Decimal.Mul, Decimal.Compare;
    var v := Sized(entry, notional);
    CompareOrdersValues(v.quantity, entry.instrument.minOrderQty);
    CompareOrdersValues(v.notional, entry.instrument.minNotional);
    CompareOrdersValues(v.quantity, entry.instrument.maxOrderQty);
    SizedCost(notional, entry.price, entry.instrument.qtyStep);
  }

  /** What passes the denials is sized from a notional that is exactly the tightest ceiling. */
  lemma PassedIsSized(limits: SizingLimits, entry: Entry, positions: seq<OpenRow>, trades: seq<OpenRow>,
                      x: real) returns (notional: Decimal)
    requires AssessRisk(limits, entry, positions, trades).Approved?
    ensures AssessRisk(limits, entry, positions, trades) == Sized(entry, notional)
    ensures x <= notional.Value() <==> WithinCeilings(limits, entry, AtRisk(positions, trades), x)
    ensures entry.symbol !in Booked(positions, trades)
    ensures limits.maxOpenPositions > 0 ==> |Booked(positions, trades)| < limits.maxOpenPositions
  {
    hide Decimal.Value, Sized, Tightest, AtRisk, CurrentExposure, WithinCeilings, Decimal.Sub, Decimal.Compare, Booked;
    var exposure := CurrentExposure(positions, trades);
    notional := Tightest(limits, entry, limits.globalRiskCap.Sub(exposure));
    ExposureIsExact(positions, trades);
    TightestIsTheCeiling(limits, entry, exposure, x);
  }

  /** An approved order's quantity times price exceeds no ceiling: not what was asked for, not the
      position size, not the room left under the global cap, not a known equity. */
  lemma ApprovedWithinEveryCeiling(limits: SizingLimits, entry: Entry, positions: seq<OpenRow>, trades: seq<OpenRow>)
    requires AssessRisk(limits, entry, positions, trades).Approved?
    ensures var v := AssessRisk(limits, entry, positions, trades);
            && v.notional.Value() == RowWorth(OpenRow(entry.symbol, entry.price, v.quantity)) >= 0.0
            && v.quantity.Value() >= 0.0
            && WithinCeilings(limits, entry, AtRisk(positions, trades), v.notional.Value())
            && entry.instrument.minOrderQty.Value() <= v.quantity.Value() <= entry.instrument.maxOrderQty.Value()
            && entry.instrument.minNotional.Value() <= v.notional.Value()
    ensures entry.symbol !in Booked(positions, trades)
    ensures limits.maxOpenPositions > 0 ==> |Booked(positions, trades)| < limits.maxOpenPositions
  {
    hide Decimal.Value, Sized, AtRisk, WithinCeilings, AssessRisk, Booked, Decimal.Mul;
    var v := AssessRisk(limits, entry, positions, trades);
    var notional := PassedIsSized(limits, entry, positions, trades, v.notional.Value());
    SizedWithin(entry, notional);
    ProductIsWorth(entry.symbol, v.quantity, entry.price);
  }

  lemma ProductIsWorth(symbol: string, quantity: Decimal, price: Decimal)
    ensures quantity.Mul(price).Value() == RowWorth(OpenRow(symbol, price, quantity))
  {
    hide Decimal.Value, Decimal.Mul;
    ArithmeticIsExact(quantity, price);
  }

  /** And it is the largest such order: a whole number of steps costs no more than every ceiling
      exactly when it is no more than the approved quantity. */
  lemma ApprovedIsLargest(limits: SizingLimits, entry: Entry, positions: seq<OpenRow>, trades: seq<OpenRow>, m: int)
    requires AssessRisk(limits, entry, positions, trades).Approved?
    requires entry.price.c > 0 && entry.instrument.qtyStep.c > 0
    ensures WithinCeilings(limits, entry, AtRisk(positions, trades),
                           Multiple(m, entry.instrument.qtyStep) * entry.price.Value())
            <==> Multiple(m, entry.instrument.qtyStep) <= AssessRisk(limits, entry, positions, trades).quantity.Value()
  {
    hide Decimal.Value, AtRisk, WithinCeilings, AssessRisk, Multiple, QuantityForNotional, Decimal.Compare, Decimal.Mul;
    var cost := Multiple(m, entry.instrument.qtyStep) * entry.price.Value();
    var notional := PassedIsSized(limits, entry, positions, trades, cost);
    SizedWithin(entry, notional);
    QuantityIsLargest(notional, entry.price, entry.instrument.qtyStep, m);
  }

  // --------------------------------------------------------- when it is approved

  /** What is asked of a request before it is sized. */
  ghost predicate Permitted(limits: SizingLimits, entry: Entry, positions: seq<OpenRow>, trades: seq<OpenRow>) {
    && entry.symbol in limits.pairs
    && (limits.maxTradesPerDay > 0 ==> entry.openedToday < limits.maxTradesPerDay)
    && (forall row :: row in positions || row in trades ==> row.symbol != entry.symbol)
    && (limits.maxOpenPositions > 0 ==>
          |set row | row in positions + trades :: row.symbol| < limits.maxOpenPositions)
    && AtRisk(positions, trades) < limits.globalRiskCap.Value()
  }

  /** k is the largest whole number of steps whose cost is within every ceiling. */
  ghost predicate IsMost(limits: SizingLimits, entry: Entry, atRisk: real, k: int) {
    forall m :: WithinCeilings(limits, entry, atRisk, Cost(entry, m)) <==> m <= k
  }

  ghost function Cost(entry: Entry, m: int): real {
    Multiple(m, entry.instrument.qtyStep) * entry.price.Value()
  }

  lemma PermittedIff(limits: SizingLimits, entry: Entry, positions: seq<OpenRow>, trades: seq<OpenRow>)
    ensures var v := AssessRisk(limits, entry, positions, trades);
            var early := {PairNotAllowed, DailyTradeCap, AlreadyOpen, TooManyPositions, RiskCapReached};
            && (Permitted(limits, entry, positions, trades) <==> !(v.Refused? && v.reason in early))
            && (Permitted(limits, entry, positions, trades) ==>
                  v == Sized(entry, Tightest(limits, entry,
                                             limits.globalRiskCap.Sub(CurrentExposure(positions, trades)))))
            && (v == Refused(PairNotAllowed) <==> entry.symbol !in limits.pairs)
            && (v == Refused(AlreadyOpen) ==> exists row :: row in positions + trades && row.symbol == entry.symbol)
            && (v == Refused(RiskCapReached) ==> AtRisk(positions, trades) >= limits.globalRiskCap.Value())
  {
    hide Decimal.Value, AtRisk, CurrentExposure, Decimal.Sub, Decimal.Compare, Booked, Tightest, QuantityForNotional;
    hide Decimal.Mul;
    BookedIsEverySymbol(positions, trades, entry.symbol);
    ExposureIsExact(positions, trades);
    CompareOrdersValues(CurrentExposure(positions, trades), limits.globalRiskCap);
  }

  lemma BookedIsEverySymbol(positions: seq<OpenRow>, trades: seq<OpenRow>, symbol: string)
    ensures Booked(positions, trades) == set row | row in positions + trades :: row.symbol
    ensures symbol in Booked(positions, trades) <==> exists row :: row in positions + trades && row.symbol == symbol
  {}

  lemma SomeCapitalIff(limits: SizingLimits, entry: Entry, exposure: Decimal)
    requires exposure.Value() < limits.globalRiskCap.Value()
    ensures Tightest(limits, entry, limits.globalRiskCap.Sub(exposure)).Value() > 0.0
            <==> entry.requested.Value() > 0.0 && limits.maxPositionSize.Value() > 0.0
  {
    hide Decimal.Value, Tightest, Decimal.Sub;
    var tightest := Tightest(limits, entry, limits.globalRiskCap.Sub(exposure)).Value();
    TightestIsTheCeiling(limits, entry, exposure, tightest);
    var least := MinReal(MinReal(entry.requested.Value(), limits.maxPositionSize.Value()),
                         limits.globalRiskCap.Value() - exposure.Value());
    var some := if entry.accountEquity.Value() > 0.0 then MinReal(least, entry.accountEquity.Value()) else least;
    TightestIsTheCeiling(limits, entry, exposure, some);
  }

  /** The quantity sized is the most that fits. */
  lemma SizedIsMost(limits: SizingLimits, entry: Entry, exposure: Decimal, k: int)
    requires entry.price.c > 0 && entry.instrument.qtyStep.c > 0 && IsMost(limits, entry, exposure.Value(), k)
    ensures var notional := Tightest(limits, entry, limits.globalRiskCap.Sub(exposure));
            notional.c > 0 ==>
              QuantityForNotional(notional, entry.price, entry.instrument.qtyStep).Value()
              == Multiple(k, entry.instrument.qtyStep)
  {
    hide Decimal.Value, Tightest, Decimal.Sub, QuantityForNotional, WithinCeilings, IsQuotient, Multiple;
    var notional := Tightest(limits, entry, limits.globalRiskCap.Sub(exposure));
    if notional.c > 0 {
      var x := ExactQuotient(notional, entry.price);
      var n := QuantitySteps(notional, entry.price, entry.instrument.qtyStep, x);
      FitsIff(limits, entry, exposure, n, n);
      FitsIff(limits, entry, exposure, n, k);
      hide Cost;
      assert WithinCeilings(limits, entry, exposure.Value(), Cost(entry, n)) <==> n <= k;
      assert WithinCeilings(limits, entry, exposure.Value(), Cost(entry, k)) <==> k <= k;
    }
  }

  lemma FitsIff(limits: SizingLimits, entry: Entry, exposure: Decimal, n: int, m: int)
    requires entry.price.c > 0 && entry.instrument.qtyStep.c > 0
    requires Tightest(limits, entry, limits.globalRiskCap.Sub(exposure)).c > 0
    requires QuantityForNotional(Tightest(limits, entry, limits.globalRiskCap.Sub(exposure)), entry.price,
                                 entry.instrument.qtyStep).Value() == Multiple(n, entry.instrument.qtyStep)
    ensures WithinCeilings(limits, entry, exposure.Value(), Cost(entry, m)) <==> m <= n
  {
    hide Decimal.Value, Tightest, Decimal.Sub, QuantityForNotional, WithinCeilings, Multiple;
    var notional := Tightest(limits, entry, limits.globalRiskCap.Sub(exposure));
    TightestIsTheCeiling(limits, entry, exposure, Cost(entry, m));
    QuantityIsLargest(notional, entry.price, entry.instrument.qtyStep, m);
    OrderedMultiples(m, n, entry.instrument.qtyStep);
  }

  /** A request is approved exactly when it is permitted, something was asked for and may be held, and the most
      that fits under every ceiling is within the exchange's bounds. Where price or step is not positive, that
      is nothing. */
  lemma ApprovedIff(limits: SizingLimits, entry: Entry, positions: seq<OpenRow>, trades: seq<OpenRow>, k: int)
    requires entry.price.c > 0 && entry.instrument.qtyStep.c > 0 ==>
               IsMost(limits, entry, AtRisk(positions, trades), k)
    ensures var rules := entry.instrument;
            var most := if entry.price.c > 0 && rules.qtyStep.c > 0 then Multiple(k, rules.qtyStep) else 0.0;
            AssessRisk(limits, entry, positions, trades).Approved?
            <==>
            && Permitted(limits, entry, positions, trades)
            && entry.requested.Value() > 0.0 && limits.maxPositionSize.Value() > 0.0
            && rules.minOrderQty.Value() <= most <= rules.maxOrderQty.Value()
            && rules.minNotional.Value() <= most * entry.price.Value()
  {
    PermittedIff(limits, entry, positions, trades);
    if Permitted(limits, entry, positions, trades) {
      var exposure := CurrentExposure(positions, trades);
      var notional := Tightest(limits, entry, limits.globalRiskCap.Sub(exposure));
      ExposureIsExact(positions, trades);
      hide Decimal.Value, AtRisk, Tightest, Permitted, AssessRisk, IsMost, CurrentExposure, Decimal.Sub, Multiple;
      SomeCapitalIff(limits, entry, exposure);
      SignOfValue(notional);
      if notional.c > 0 { SizedIff(limits, entry, exposure, k); }
    } else {
      hide AssessRisk, IsMost;
    }
  }

  lemma SizedIff(limits: SizingLimits, entry: Entry, exposure: Decimal, k: int)
    requires entry.price.c > 0 && entry.instrument.qtyStep.c > 0 ==> IsMost(limits, entry, exposure.Value(), k)
    requires Tightest(limits, entry, limits.globalRiskCap.Sub(exposure)).c > 0
    ensures var rules := entry.instrument;
            var most := if entry.price.c > 0 && rules.qtyStep.c > 0 then Multiple(k, rules.qtyStep) else 0.0;
            Sized(entry, Tightest(limits, entry, limits.globalRiskCap.Sub(exposure))).Approved?
            <==> rules.minOrderQty.Value() <= most <= rules.maxOrderQty.Value()
                 && rules.minNotional.Value() <= most * entry.price.Value()
  {
    hide Decimal.Value, Tightest, IsMost, Decimal.Sub, Decimal.Mul, Decimal.Compare, QuantityForNotional, Multiple;
    hide Sized;
    var notional, rules := Tightest(limits, entry, limits.globalRiskCap.Sub(exposure)), entry.instrument;
    SizedVerdict(entry, notional);
    NoQuantityWithoutCapital(notional, entry.price, rules.qtyStep);
    SignOfValue(Decimal(0, 0));
    if entry.price.c > 0 && rules.qtyStep.c > 0 { SizedIsMost(limits, entry, exposure, k); }
  }

  lemma SizedVerdict(entry: Entry, notional: Decimal)
    requires notional.c > 0
    ensures var rules := entry.instrument;
            var quantity := QuantityForNotional(notional, entry.price, rules.qtyStep);
            Sized(entry, notional).Approved?
            <==> rules.minOrderQty.Value() <= quantity.Value() <= rules.maxOrderQty.Value()
                 && rules.minNotional.Value() <= quantity.Value() * entry.price.Value()
  {
    hide Decimal.Value, Decimal.Mul, Decimal.Compare, QuantityForNotional;
    var quantity, rules := QuantityForNotional(notional, entry.price, entry.instrument.qtyStep), entry.instrument;
    ArithmeticIsExact(quantity, entry.price);
    CompareOrdersValues(quantity, rules.minOrderQty);
    CompareOrdersValues(quantity.Mul(entry.price), rules.minNotional);
    CompareOrdersValues(quantity, rules.maxOrderQty);
  }

  // --------------------------------------------------------- what was asked

  datatype SizingMode = PERCENT_EQUITY | RISK_BASED | FIXED_NOTIONAL

  datatype SizingRule = SizingRule(mode: SizingMode, equityPct: real, riskPerTradePct: real, stopLossPct: real,
                                   maxPositionSize: real)

  /** The notional a sizing mode wants before any clamping. */
  function IntendedNotional(rule: SizingRule, equity: real): real {
    match rule.mode
    case PERCENT_EQUITY => if equity > 0.0 then equity * (rule.equityPct / 100.0) else rule.maxPositionSize
    case RISK_BASED =>
      if equity <= 0.0 || rule.stopLossPct <= 0.0 then rule.maxPositionSize
      else equity * (rule.riskPerTradePct / 100.0) / (rule.stopLossPct / 100.0)
    case FIXED_NOTIONAL => rule.maxPositionSize
  }

  /** Sized by a share of equity a request asks for that share of it; sized by risk, for what loses the chosen share
      at the stop; without a known equity, and with a fixed notional, for the largest position. */
  lemma AsksForTheShare(rule: SizingRule, equity: real)
    ensures var asked := IntendedNotional(rule, equity);
            && (rule.mode == PERCENT_EQUITY && equity > 0.0 ==> asked * 100.0 == equity * rule.equityPct)
            && (rule.mode == RISK_BASED && equity > 0.0 && rule.stopLossPct > 0.0 ==>
                  LossAt(asked, rule.stopLossPct) * 100.0 == equity * rule.riskPerTradePct)
            && (rule.mode == FIXED_NOTIONAL || equity <= 0.0 || (rule.mode == RISK_BASED && rule.stopLossPct <= 0.0) ==>
                  asked == rule.maxPositionSize)
  {
    if rule.mode == RISK_BASED && equity > 0.0 && rule.stopLossPct > 0.0 { MostAtStop(rule, equity); }
  }

  /** Sized by risk, an approved order loses no more than the chosen share of equity at any stop no wider
      than the configured one it was sized by. */
  lemma ApprovedRiskIsBounded(limits: SizingLimits, entry: Entry, positions: seq<OpenRow>, trades: seq<OpenRow>,
                              rule: SizingRule, stopPct: real)
    requires AssessRisk(limits, entry, positions, trades).Approved?
    requires rule.mode == RISK_BASED && stopPct <= rule.stopLossPct && rule.stopLossPct > 0.0
    requires entry.accountEquity.Value() > 0.0
    requires entry.requested.Value() <= IntendedNotional(rule, entry.accountEquity.Value())
    ensures LossAt(AssessRisk(limits, entry, positions, trades).notional.Value(), stopPct)
            <= entry.accountEquity.Value() * (rule.riskPerTradePct / 100.0)
  {
    hide AssessRisk, Decimal.Value, AtRisk, Booked, RowWorth, IntendedNotional, LossAt;
    ApprovedWithinEveryCeiling(limits, entry, positions, trades);
    LossWithinShareIff(rule, entry.accountEquity.Value(), stopPct);
    assert WithinShare(rule, entry.accountEquity.Value(), stopPct,
                       AssessRisk(limits, entry, positions, trades).notional.Value());
  }

  /** What a position of this notional loses when its price moves against it by so many percent. */
  function LossAt(notional: real, stopPct: real): real {
    notional * (stopPct / 100.0)
  }

  /** If the notional is one the mode may ask for, its loss is within the chosen share. */
  predicate WithinShare(rule: SizingRule, equity: real, stopPct: real, notional: real) {
    0.0 <= notional <= IntendedNotional(rule, equity)
    ==> LossAt(notional, stopPct) <= equity * (rule.riskPerTradePct / 100.0)
  }

  /** With another stop in the configured one's place, as the volatility stop is after sizing, the share
      bounds every loss exactly when that stop is no wider. */
  lemma LossWithinShareIff(rule: SizingRule, equity: real, stopPct: real)
    requires rule.mode == RISK_BASED && rule.stopLossPct > 0.0 && equity > 0.0
    ensures (forall notional :: WithinShare(rule, equity, stopPct, notional))
            <==> stopPct <= rule.stopLossPct || rule.riskPerTradePct <= 0.0
  {
    var most := IntendedNotional(rule, equity);
    MostAtStop(rule, equity);
    hide IntendedNotional;
    forall notional
      ensures stopPct <= rule.stopLossPct || rule.riskPerTradePct <= 0.0
              ==> WithinShare(rule, equity, stopPct, notional)
    {
      if 0.0 <= notional <= most && stopPct <= rule.stopLossPct {
        LossGrows(notional, most, stopPct, rule.stopLossPct);
      }
    }
    if stopPct > rule.stopLossPct && rule.riskPerTradePct > 0.0 {
      LossGrows(most, most, rule.stopLossPct, stopPct);
      assert !WithinShare(rule, equity, stopPct, most);
    }
  }

  /** Concretely: 1% of 100 at a stop of 2% asks for 50, and at a stop of 4% that loses 2. */
  lemma WiderStopRisksMore()
    ensures var rule := SizingRule(RISK_BASED, 0.0, 1.0, 2.0, 0.0);
            IntendedNotional(rule, 100.0) == 50.0 && LossAt(50.0, 4.0) == 2.0 && !WithinShare(rule, 100.0, 4.0, 50.0)
  {}

  /** The notional asked for loses exactly the chosen share at the configured stop. */
  lemma MostAtStop(rule: SizingRule, equity: real)
    requires rule.mode == RISK_BASED && rule.stopLossPct > 0.0 && equity > 0.0
    ensures var most := IntendedNotional(rule, equity);
            && LossAt(most, rule.stopLossPct) == equity * (rule.riskPerTradePct / 100.0)
            && (most > 0.0 <==> rule.riskPerTradePct > 0.0)
  {
    var risk, stop := rule.riskPerTradePct / 100.0, rule.stopLossPct / 100.0;
    ScaleOrder(0.0, IntendedNotional(rule, equity), stop);
    ScaleOrder(IntendedNotional(rule, equity), 0.0, stop);
    ScaleOrder(0.0, risk, equity);
    ScaleOrder(risk, 0.0, equity);
    assert risk * equity == equity * risk;
    var whole := equity * risk / stop;
    assert whole * stop == equity * risk;
  }

  lemma LossGrows(n: real, m: real, a: real, b: real)
    requires 0.0 <= n <= m && a <= b && 0.0 <= b
    ensures LossAt(n, a) <= LossAt(m, b)
    ensures n == m > 0.0 && a < b ==> LossAt(n, a) < LossAt(m, b)
  {
    var x, y := a / 100.0, b / 100.0;
    assert m * y - n * x == (m - n) * y + n * (y - x);
    assert (m - n) * y >= 0.0 && n * (y - x) >= 0.0;
    if n > 0.0 && a < b { assert n * (y - x) > 0.0; }
  }

  // -------------------------------------------------------------- conviction

  /** The size that is opened: conviction may scale the approved notional, unless the exchange would
      refuse what is left. */
  function OpenedQuantity(entry: Entry, v: Verdict, multiplier: Option<Decimal>): Decimal
    requires v.Approved?
  {
    match multiplier
    case None => v.quantity
    case Some(m) =>
      var scaled := QuantityForNotional(v.notional.Mul(m), entry.price, entry.instrument.qtyStep);
      if !scaled.Lt(entry.instrument.minOrderQty)
          && !scaled.Mul(entry.price).Lt(entry.instrument.minNotional) then scaled
      else v.quantity
  }

  ghost predicate Shrinks(multiplier: Option<Decimal>) {
    multiplier.Some? ==> 0.0 <= multiplier.value.Value() <= 1.0
  }

  lemma ShrunkProduct(x: real, m: real)
    requires x >= 0.0 && 0.0 <= m <= 1.0
    ensures 0.0 <= x * m <= x
  {
    assert x * (1.0 - m) == x - x * m;
  }

  /** What a smaller notional buys costs between nothing and that notional. */
  lemma ScaledCost(notional: Decimal, m: Decimal, price: Decimal, step: Decimal)
    requires notional.Value() >= 0.0 && 0.0 <= m.Value() <= 1.0
    ensures var q := QuantityForNotional(notional.Mul(m), price, step);
            q.Value() >= 0.0 && 0.0 <= q.Mul(price).Value() <= notional.Value()
  {
    hide Decimal.Value, QuantityForNotional, Decimal.Mul;
    var scaled := notional.Mul(m);
    ArithmeticIsExact(notional, m);
    ShrunkProduct(notional.Value(), m.Value());
    SignOfValue(scaled);
    NoQuantityWithoutCapital(scaled, price, step);
    if scaled.c > 0 {
      SizedCost(scaled, price, step);
    } else {
      ProductIsWorth("", Decimal(0, 0), price);
      SignOfValue(Decimal(0, 0));
    }
  }

  /** Conviction can only shrink what was approved: the opened row is worth at least nothing and at
      most the approved notional. */
  lemma ConvictionNeverGrows(limits: SizingLimits, entry: Entry, positions: seq<OpenRow>, trades: seq<OpenRow>,
                             multiplier: Option<Decimal>)
    requires AssessRisk(limits, entry, positions, trades).Approved? && Shrinks(multiplier)
    ensures var v := AssessRisk(limits, entry, positions, trades);
            0.0 <= RowWorth(OpenRow(entry.symbol, entry.price,
                                    OpenedQuantity(entry, v, multiplier))) <= v.notional.Value()
  {
    hide AssessRisk, Decimal.Value, QuantityForNotional, Decimal.Mul, Decimal.Compare, RowWorth, AtRisk, Booked,
        WithinCeilings;
    var v := AssessRisk(limits, entry, positions, trades);
    ApprovedWithinEveryCeiling(limits, entry, positions, trades);
    if multiplier.Some? {
      ScaledCost(v.notional, multiplier.value, entry.price, entry.instrument.qtyStep);
      ProductIsWorth(entry.symbol, OpenedQuantity(entry, v, multiplier), entry.price);
    }
  }

  /** What is opened is the most that the scaled notional affords, unless that is below the exchange's minima:
      then it is what was approved. */
  lemma OpensTheScaledShare(entry: Entry, v: Verdict, share: Decimal, m: int)
    requires v.Approved? && v.notional.c > 0 && share.c >= 0 && entry.price.c > 0 && entry.instrument.qtyStep.c > 0
    requires forall k :: Cost(entry, k) <= v.notional.Value() * share.Value() <==> k <= m
    ensures var rules, quantity := entry.instrument, OpenedQuantity(entry, v, Some(share));
            if Multiple(m, rules.qtyStep) >= rules.minOrderQty.Value() && Cost(entry, m) >= rules.minNotional.Value()
            then quantity.Value() == Multiple(m, rules.qtyStep)
            else quantity == v.quantity
    ensures OpenedQuantity(entry, v, None) == v.quantity
  {
    hide Decimal.Value, Decimal.Mul, Decimal.Compare, QuantityForNotional, Multiple, Cost;
    ScaledNotional(v.notional, share);
    MostIsSized(entry, v.notional.Mul(share), m);
    OpenedIff(entry, v, share);
    CostOfMost(entry, m, QuantityForNotional(v.notional.Mul(share), entry.price, entry.instrument.qtyStep));
    hide OpenedQuantity;
  }

  lemma CostOfMost(entry: Entry, m: int, quantity: Decimal)
    requires quantity.Value() == Multiple(m, entry.instrument.qtyStep)
    ensures quantity.Value() * entry.price.Value() == Cost(entry, m)
  {
    hide Decimal.Value, Multiple;
  }

  lemma OpenedIff(entry: Entry, v: Verdict, share: Decimal)
    requires v.Approved?
    ensures var scaled := QuantityForNotional(v.notional.Mul(share), entry.price, entry.instrument.qtyStep);
            OpenedQuantity(entry, v, Some(share))
            == if && scaled.Value() >= entry.instrument.minOrderQty.Value()
                  && scaled.Value() * entry.price.Value() >= entry.instrument.minNotional.Value()
               then scaled else v.quantity
  {
    hide Decimal.Value, Decimal.Mul, Decimal.Compare, QuantityForNotional;
    var scaled := QuantityForNotional(v.notional.Mul(share), entry.price, entry.instrument.qtyStep);
    CompareOrdersValues(scaled, entry.instrument.minOrderQty);
    CompareOrdersValues(scaled.Mul(entry.price), entry.instrument.minNotional);
    ArithmeticIsExact(scaled, entry.price);
  }

  lemma ScaledNotional(notional: Decimal, share: Decimal)
    requires notional.c > 0 && share.c >= 0
    ensures notional.Mul(share).c >= 0 && notional.Mul(share).Value() == notional.Value() * share.Value()
  {
    hide Decimal.Value;
    ArithmeticIsExact(notional, share);
    PositiveProduct(notional.c, share.c);
  }

  /** The quantity sized from a notional is the most it affords. */
  lemma MostIsSized(entry: Entry, notional: Decimal, m: int)
    requires notional.c >= 0 && entry.price.c > 0 && entry.instrument.qtyStep.c > 0
    requires forall k :: Cost(entry, k) <= notional.Value() <==> k <= m
    ensures QuantityForNotional(notional, entry.price, entry.instrument.qtyStep).Value()
            == Multiple(m, entry.instrument.qtyStep)
  {
    if notional.c > 0 {
      MostAffords(entry, notional, m);
    } else {
      SignOfValue(notional);
      SignOfValue(Decimal(0, 0));
      NoQuantityWithoutCapital(notional, entry.price, entry.instrument.qtyStep);
      hide Decimal.Value, QuantityForNotional;
      CostOrder(entry, 0);
      CostOrder(entry, 1);
      hide Cost, Multiple;
      assert Cost(entry, 0) <= notional.Value() <==> 0 <= m;
      assert Cost(entry, 1) <= notional.Value() <==> 1 <= m;
    }
  }

  lemma CostOrder(entry: Entry, k: int)
    requires entry.price.c > 0 && entry.instrument.qtyStep.c > 0
    ensures (Cost(entry, k) > 0.0 <==> k > 0) && Multiple(0, entry.instrument.qtyStep) == 0.0
  {
    SignOfValue(entry.price);
    SignOfValue(entry.instrument.qtyStep);
    hide Decimal.Value;
    ScaleOrder(k as real, 0.0, entry.instrument.qtyStep.Value());
    ScaleOrder(k as real * entry.instrument.qtyStep.Value(), 0.0, entry.price.Value());
  }

  lemma MostAffords(entry: Entry, notional: Decimal, m: int)
    requires notional.c > 0 && entry.price.c > 0 && entry.instrument.qtyStep.c > 0
    requires forall k :: Cost(entry, k) <= notional.Value() <==> k <= m
    ensures QuantityForNotional(notional, entry.price, entry.instrument.qtyStep).Value()
            == Multiple(m, entry.instrument.qtyStep)
  {
    hide Decimal.Value, QuantityForNotional, IsQuotient, Multiple;
    var x := ExactQuotient(notional, entry.price);
    var n := QuantitySteps(notional, entry.price, entry.instrument.qtyStep, x);
    AffordsIff(entry, notional, n, n);
    AffordsIff(entry, notional, n, m);
    hide Cost;
    assert Cost(entry, n) <= notional.Value() <==> n <= m;
    assert Cost(entry, m) <= notional.Value() <==> m <= m;
  }

  lemma AffordsIff(entry: Entry, notional: Decimal, n: int, m: int)
    requires notional.c > 0 && entry.price.c > 0 && entry.instrument.qtyStep.c > 0
    requires QuantityForNotional(notional, entry.price, entry.instrument.qtyStep).Value()
             == Multiple(n, entry.instrument.qtyStep)
    ensures Cost(entry, m) <= notional.Value() <==> m <= n
  {
    hide Decimal.Value, QuantityForNotional, Multiple;
    QuantityIsLargest(notional, entry.price, entry.instrument.qtyStep, m);
    OrderedMultiples(m, n, entry.instrument.qtyStep);
  }

  lemma PositiveProduct(a: int, b: int)
    requires a > 0 && b >= 0
    ensures a * b >= 0
  {}

  // ------------------------------------------------------------- paper runs

  /** In paper mode the exchange reports nothing: only trade rows are at risk. */
  datatype PaperStep = OpenTrade(entry: Entry, multiplier: Option<Decimal>) | CloseTrade(index: nat)

  function StepPaper(limits: SizingLimits, trades: seq<OpenRow>, step: PaperStep): seq<OpenRow> {
    match step
    case OpenTrade(entry, multiplier) =>
      var v := AssessRisk(limits, entry, [], trades);
      if v.Approved? then trades + [OpenRow(entry.symbol, entry.price, OpenedQuantity(entry, v, multiplier))]
          else trades
    case CloseTrade(k) => if k < |trades| then trades[..k] + trades[k + 1..] else trades
  }

  function RunPaper(limits: SizingLimits, steps: seq<PaperStep>): seq<OpenRow> {
    if steps == [] then [] else StepPaper(limits, RunPaper(limits, steps[..|steps| - 1]), steps[|steps| - 1])
  }

  /** One trade a symbol, no more trades than allowed, none larger than allowed, and never more at
      risk than the global cap. */
  ghost predicate Contained(limits: SizingLimits, trades: seq<OpenRow>) {
    && (forall i, j :: 0 <= i < j < |trades| ==> trades[i].symbol != trades[j].symbol)
    && (limits.maxOpenPositions > 0 ==> |trades| <= limits.maxOpenPositions)
    && (forall i :: 0 <= i < |trades| ==> 0.0 <= RowWorth(trades[i]) <= limits.maxPositionSize.Value())
    && (trades != [] ==> Worth(trades) <= limits.globalRiskCap.Value())
  }

  lemma {:induction false} WorthSplits(a: seq<OpenRow>, b: seq<OpenRow>)
    ensures Worth(a + b) == Worth(a) + Worth(b)
  {
    hide RowWorth;
    if b == [] {
      assert a + b == a;
    } else {
      WorthSplits(a, b[..|b| - 1]);
      assert (a + b)[..|a + b| - 1] == a + b[..|b| - 1];
    }
  }

  lemma {:induction false} NothingElsewhere(trades: seq<OpenRow>)
    ensures AtRisk([], trades) == Worth(trades)
  {
    hide RowWorth;
    if trades != [] { NothingElsewhere(trades[..|trades| - 1]); }
  }

  lemma {:induction false} DistinctSymbols(trades: seq<OpenRow>)
    requires forall i, j :: 0 <= i < j < |trades| ==> trades[i].symbol != trades[j].symbol
    ensures |Booked([], trades)| == |trades|
    ensures forall i :: 0 <= i < |trades| ==> trades[i].symbol in Booked([], trades)
  {
    if trades == [] {
      assert Booked([], trades) == {};
    } else {
      var before, last := trades[..|trades| - 1], trades[|trades| - 1];
      DistinctSymbols(before);
      assert trades == before + [last];
      assert Booked([], trades) == Booked([], before) + {last.symbol};
      assert last.symbol !in Booked([], before);
    }
  }

  lemma OpeningStaysContained(limits: SizingLimits, trades: seq<OpenRow>, entry: Entry, multiplier: Option<Decimal>)
    requires Contained(limits, trades) && Shrinks(multiplier)
    ensures Contained(limits, StepPaper(limits, trades, OpenTrade(entry, multiplier)))
  {
    hide AssessRisk, Decimal.Value, Booked, RowWorth, AtRisk, WithinCeilings, OpenedQuantity;
    var v := AssessRisk(limits, entry, [], trades);
    if v.Approved? {
      ApprovedWithinEveryCeiling(limits, entry, [], trades);
      DistinctSymbols(trades);
      PaperCeilings(limits, entry, trades, v.notional.Value());
      ConvictionNeverGrows(limits, entry, [], trades, multiplier);
      OneMoreContained(limits, trades, OpenRow(entry.symbol, entry.price, OpenedQuantity(entry, v, multiplier)));
    }
  }

  lemma PaperCeilings(limits: SizingLimits, entry: Entry, trades: seq<OpenRow>, notional: real)
    requires WithinCeilings(limits, entry, AtRisk([], trades), notional)
    ensures notional <= limits.maxPositionSize.Value() && Worth(trades) + notional <= limits.globalRiskCap.Value()
  {
    hide Decimal.Value;
    NothingElsewhere(trades);
  }

  lemma OneMoreContained(limits: SizingLimits, trades: seq<OpenRow>, row: OpenRow)
    requires Contained(limits, trades) && forall i :: 0 <= i < |trades| ==> trades[i].symbol != row.symbol
    requires limits.maxOpenPositions > 0 ==> |trades| < limits.maxOpenPositions
    requires 0.0 <= RowWorth(row) <= limits.maxPositionSize.Value()
    requires Worth(trades) + RowWorth(row) <= limits.globalRiskCap.Value()
    ensures Contained(limits, trades + [row])
  {
    hide Decimal.Value, RowWorth, Worth;
    WorthAppend(trades, row);
    assert forall i :: 0 <= i < |trades| ==> (trades + [row])[i] == trades[i];
  }

  lemma WorthAppend(trades: seq<OpenRow>, row: OpenRow)
    ensures Worth(trades + [row]) == Worth(trades) + RowWorth(row)
  {
    hide RowWorth;
    assert (trades + [row])[..|trades|] == trades;
  }

  lemma WorthWithout(trades: seq<OpenRow>, k: nat)
    requires k < |trades|
    ensures Worth(trades[..k] + trades[k + 1..]) == Worth(trades) - RowWorth(trades[k])
  {
    hide Worth, RowWorth;
    assert trades == (trades[..k] + [trades[k]]) + trades[k + 1..];
    WorthBetween(trades[..k], trades[k], trades[k + 1..]);
  }

  lemma WorthBetween(before: seq<OpenRow>, row: OpenRow, after: seq<OpenRow>)
    ensures Worth((before + [row]) + after) == Worth(before + after) + RowWorth(row)
  {
    hide Worth, RowWorth;
    WorthSplits(before + [row], after);
    WorthSplits(before, [row]);
    WorthSplits(before, after);
    WorthOfOne(row);
  }

  lemma WorthOfOne(row: OpenRow)
    ensures Worth([row]) == RowWorth(row)
  {
    hide RowWorth;
    assert [row][..0] == [];
  }

  lemma ClosingStaysContained(limits: SizingLimits, trades: seq<OpenRow>, k: nat)
    requires Contained(limits, trades) && k < |trades|
    ensures Contained(limits, trades[..k] + trades[k + 1..])
  {
    hide RowWorth, Decimal.Value, Worth;
    var kept := trades[..k] + trades[k + 1..];
    assert forall i :: 0 <= i < |kept| ==> kept[i] == trades[if i < k then i else i + 1];
    WorthWithout(trades, k);
  }

  /** Over every run of requests and closes, in any order, at any prices and convictions. */
  lemma {:induction false} PaperRunsStayContained(limits: SizingLimits, steps: seq<PaperStep>)
    requires forall i :: 0 <= i < |steps| && steps[i].OpenTrade? ==> Shrinks(steps[i].multiplier)
    ensures Contained(limits, RunPaper(limits, steps))
  {
    assert Contained(limits, []);
    hide AssessRisk, Contained, OpenedQuantity, Shrinks;
    if steps != [] {
      PaperRunsStayContained(limits, steps[..|steps| - 1]);
      var trades := RunPaper(limits, steps[..|steps| - 1]);
      match steps[|steps| - 1]
      case OpenTrade(entry, multiplier) => OpeningStaysContained(limits, trades, entry, multiplier);
      case CloseTrade(k) => if k < |trades| { ClosingStaysContained(limits, trades, k); }
    }
  }
}
