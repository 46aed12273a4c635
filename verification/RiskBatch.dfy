/** Several intents of one event: each is checked against the same positions, then all may fill. */
module RiskBatches {
  import opened Results
  import opened Reals
  import opened OrderStates
  import opened Sums
  import opened Engines
  import opened RiskEngines
  import opened RiskRuns

  /** Orders of marked symbols and of no negative quantity, any number of them for one symbol. */
  predicate Batch(p: Portfolio, intents: seq<OrderIntent>) {
    forall i :: 0 <= i < |intents| ==>
      intents[i].symbol in p.marks && p.marks[intents[i].symbol] > 0.0 && intents[i].qty >= 0.0
  }

  predicate FillsOf(intents: seq<OrderIntent>, fills: seq<real>) {
    |fills| == |intents| && forall i :: 0 <= i < |fills| ==> 0.0 <= fills[i] <= intents[i].qty
  }

  function BookedAll(p: Portfolio, intents: seq<OrderIntent>, fills: seq<real>): Portfolio
    requires |fills| == |intents|
  {
    if intents == [] then p
    else
      var n := |intents| - 1;
      Booked(BookedAll(p, intents[..n], fills[..n]), intents[n], fills[n])
  }

  /** All that is ordered of a symbol on one side. */
  function Ordered(intents: seq<OrderIntent>, symbol: string, side: Side): (total: real) {
    if intents == [] then 0.0
    else
      var last := intents[|intents| - 1];
      Ordered(intents[..|intents| - 1], symbol, side) + if last.symbol == symbol
          && last.side == side then last.qty else 0.0
  }

  function Net(intents: seq<OrderIntent>, fills: seq<real>, symbol: string): real
    requires |fills| == |intents|
  {
    if intents == [] then 0.0
    else
      var n := |intents| - 1;
      Net(intents[..n], fills[..n], symbol) + if intents[n].symbol == symbol
          then Signed(intents[n].side, fills[n]) else 0.0
  }

  function Symbols(intents: seq<OrderIntent>): set<string> {
    set i | 0 <= i < |intents| :: intents[i].symbol
  }

  /** Of a symbol, filling every buy and no sell leaves more than filling every sell and no buy. */
  predicate BuysAreWorse(p: Portfolio, intents: seq<OrderIntent>, symbol: string) {
    var held := At(p.positions, symbol);
    AbsReal(held + Ordered(intents, symbol, Buy)) >= AbsReal(held - Ordered(intents, symbol, Sell))
  }

  function WorstSize(p: Portfolio, intents: seq<OrderIntent>, symbol: string): real {
    var held := At(p.positions, symbol);
    if BuysAreWorse(p, intents, symbol) then held
        + Ordered(intents, symbol, Buy) else held - Ordered(intents, symbol, Sell)
  }

  /** The book with every symbol at its worse end. */
  function WorstBook(p: Portfolio, intents: seq<OrderIntent>): Portfolio {
    p.(positions := map symbol | symbol in p.positions.Keys + Symbols(intents) :: WorstSize(p, intents, symbol))
  }

  // ---------------------------------------------------------- what fills do

  lemma {:induction false} BookedAllSizes(p: Portfolio, intents: seq<OrderIntent>, fills: seq<real>)
    requires |fills| == |intents|
    ensures var p' := BookedAll(p, intents, fills);
            && p' == p.(positions := p'.positions) && p'.positions.Keys == p.positions.Keys + Symbols(intents)
            && forall symbol :: At(p'.positions, symbol) == At(p.positions, symbol) + Net(intents, fills, symbol)
  {
    if intents != [] {
      var n := |intents| - 1;
      BookedAllSizes(p, intents[..n], fills[..n]);
      assert Symbols(intents) == Symbols(intents[..n]) + {intents[n].symbol};
    }
  }

  lemma {:induction false} NetWithin(intents: seq<OrderIntent>, fills: seq<real>, symbol: string)
    requires FillsOf(intents, fills)
    ensures -Ordered(intents, symbol, Sell) <= Net(intents, fills, symbol) <= Ordered(intents, symbol, Buy)
  {
    if intents != [] { NetWithin(intents[..|intents| - 1], fills[..|intents| - 1], symbol); }
  }

  /** Every buy of the symbols where buys are chosen, every sell of the others. */
  function Chosen(intents: seq<OrderIntent>, buys: string -> bool): seq<real> {
    seq(|intents|, i requires 0 <= i < |intents| =>
      if buys(intents[i].symbol) == (intents[i].side == Buy) then intents[i].qty else 0.0)
  }

  lemma {:induction false} NetOfChosen(intents: seq<OrderIntent>, buys: string -> bool, symbol: string)
    ensures Net(intents, Chosen(intents, buys), symbol)
            == if buys(symbol) then Ordered(intents, symbol, Buy) else -Ordered(intents, symbol, Sell)
  {
    if intents != [] {
      var n := |intents| - 1;
      NetOfChosen(intents[..n], buys, symbol);
      assert Chosen(intents, buys)[..n] == Chosen(intents[..n], buys);
    }
  }

  /** The worst book is one the fills can reach. */
  lemma WorstIsReached(p: Portfolio, intents: seq<OrderIntent>) returns (fills: seq<real>)
    requires Batch(p, intents)
    ensures FillsOf(intents, fills) && BookedAll(p, intents, fills) == WorstBook(p, intents)
  {
    var buys := symbol => BuysAreWorse(p, intents, symbol);
    fills := Chosen(intents, buys);
    BookedAllSizes(p, intents, fills);
    hide BuysAreWorse, Net, BookedAll, Chosen;
    var p', worst := BookedAll(p, intents, fills), WorstBook(p, intents);
    forall symbol | symbol in p'.positions ensures p'.positions[symbol] == worst.positions[symbol] {
      NetOfChosen(intents, buys, symbol);
      assert At(p'.positions, symbol) == p'.positions[symbol];
    }
    assert p'.positions == worst.positions;
  }

  lemma NotTraded(intents: seq<OrderIntent>, symbol: string)
    requires symbol !in Symbols(intents)
    ensures Ordered(intents, symbol, Buy) == Ordered(intents, symbol, Sell) == 0.0
  {
    if intents != [] {
      assert intents[|intents| - 1].symbol in Symbols(intents);
      assert Symbols(intents[..|intents| - 1]) <= Symbols(intents);
      NotTraded(intents[..|intents| - 1], symbol);
    }
  }

  /** No fills leave more of any symbol than its worse end. */
  lemma WorstIsWorst(p: Portfolio, intents: seq<OrderIntent>, fills: seq<real>, symbol: string)
    requires Batch(p, intents) && FillsOf(intents, fills) && symbol in p.marks
    ensures Held(At(BookedAll(p, intents, fills).positions, symbol), p.marks[symbol])
            <= Held(WorstSize(p, intents, symbol), p.marks[symbol])
  {
    var size, worst := At(BookedAll(p, intents, fills).positions, symbol), WorstSize(p, intents, symbol);
    BookedAllSizes(p, intents, fills);
    NetWithin(intents, fills, symbol);
    assert AbsReal(size) <= AbsReal(worst);
    if symbol in Symbols(intents) {
      ShrinkingHeld(size, worst, p.marks[symbol]);
    } else {
      NotTraded(intents, symbol);
    }
  }

  // ------------------------------------------------------------- joint caps

  /** Whatever the orders of one event do to a symbol: its cap survives every fill exactly when it survives both
      ends, all buys filled and all sells filled. */
  lemma JointPositionCapIff(p: Portfolio, intents: seq<OrderIntent>, symbol: string, cap: real)
    requires Batch(p, intents) && symbol in p.marks && p.marks[symbol] > 0.0
    ensures var held, mark := At(p.positions, symbol), p.marks[symbol];
            (forall fills | FillsOf(intents, fills) ::
               Held(At(BookedAll(p, intents, fills).positions, symbol), mark) <= cap)
            <==> Held(held + Ordered(intents, symbol, Buy), mark) <= cap
                 && Held(held - Ordered(intents, symbol, Sell), mark) <= cap
  {
    var mark := p.marks[symbol];
    forall fills | FillsOf(intents, fills)
      ensures Held(At(BookedAll(p, intents, fills).positions, symbol), mark)
              <= Held(WorstSize(p, intents, symbol), mark)
    {
      WorstIsWorst(p, intents, fills, symbol);
    }
    WorseEnd(p, intents, symbol, cap);
    var fills := WorstIsReached(p, intents);
    WorstSizeInBook(p, intents, symbol);
    hide Held, BookedAll, Ordered, WorstSize, WorstBook;
  }

  lemma WorseEnd(p: Portfolio, intents: seq<OrderIntent>, symbol: string, cap: real)
    requires symbol in p.marks && p.marks[symbol] > 0.0
    ensures var held, mark := At(p.positions, symbol), p.marks[symbol];
            Held(WorstSize(p, intents, symbol), mark) <= cap
            <==> Held(held + Ordered(intents, symbol, Buy), mark) <= cap
                 && Held(held - Ordered(intents, symbol, Sell), mark) <= cap
  {
    var held, mark := At(p.positions, symbol), p.marks[symbol];
    var up, down := held + Ordered(intents, symbol, Buy), held - Ordered(intents, symbol, Sell);
    if AbsReal(up) >= AbsReal(down) { ShrinkingHeld(down, up, mark); } else { ShrinkingHeld(up, down, mark); }
    hide Held, Ordered;
  }

  lemma WorstSizeInBook(p: Portfolio, intents: seq<OrderIntent>, symbol: string)
    ensures At(WorstBook(p, intents).positions, symbol) == WorstSize(p, intents, symbol)
  {
    if symbol !in Symbols(intents) { NotTraded(intents, symbol); }
  }

  /** A portfolio no symbol of which is worth more is within every cap the other is within. */
  lemma DominatedKeepsCaps(limits: RiskLimits, p: Portfolio, q: Portfolio)
    requires WithinCaps(limits, q) && p == q.(positions := p.positions) && p.positions.Keys == q.positions.Keys
    requires forall symbol :: symbol in p.positions ==>
               Held(p.positions[symbol], p.marks[symbol]) <= Held(q.positions[symbol], q.marks[symbol])
    ensures WithinCaps(limits, p)
  {
    SumMonotone(Notionals(p, p.positions.Keys), Notionals(q, q.positions.Keys));
    hide Held, LeverageCap, SumOf;
  }

  /** However the orders of one event fill, the book stays within the position cap of every symbol, the
      aggregate cap and the leverage cap, if and only if the book with every symbol at its worse end does. */
  lemma JointCapsIff(limits: RiskLimits, p: Portfolio, intents: seq<OrderIntent>)
    requires Batch(p, intents)
    ensures (forall fills :: FillsOf(intents, fills) ==> WithinCaps(limits, BookedAll(p, intents, fills)))
            <==> WithinCaps(limits, WorstBook(p, intents))
  {
    var worst := WorstBook(p, intents);
    if WithinCaps(limits, worst) {
      forall fills | FillsOf(intents, fills) ensures WithinCaps(limits, BookedAll(p, intents, fills)) {
        FillsStayWithin(limits, p, intents, fills);
      }
    }
    var fills := WorstIsReached(p, intents);
  }

  lemma FillsStayWithin(limits: RiskLimits, p: Portfolio, intents: seq<OrderIntent>, fills: seq<real>)
    requires Batch(p, intents) && FillsOf(intents, fills) && WithinCaps(limits, WorstBook(p, intents))
    ensures WithinCaps(limits, BookedAll(p, intents, fills))
  {
    var p', worst := BookedAll(p, intents, fills), WorstBook(p, intents);
    BookedAllSizes(p, intents, fills);
    assert worst.positions.Keys <= p.marks.Keys;
    forall symbol | symbol in p'.positions
      ensures Held(p'.positions[symbol], p'.marks[symbol]) <= Held(worst.positions[symbol], worst.marks[symbol])
    {
      WorstIsWorst(p, intents, fills, symbol);
    }
    hide Held, BookedAll, WithinCaps, WorstBook;
    DominatedKeepsCaps(limits, p', worst);
  }

  // --------------------------------------------------------- what the gate does

  /** The gate does not look at that. Two intents of one event for different symbols are each allowed
      against a flat book, and both filled they hold 12 where the aggregate limit is 10. */
  lemma AllowedApartNotTogether()
    ensures var limits := RiskLimits(1000.0, 10.0, 5.0, 0.05, 0.15, 100.0, 0.8, 20, 60000, 0.05);
            var p := Portfolio(map[], map["X" := 1.0, "Y" := 1.0], 0.0, 0.0, 0.0, 0.0, map[]);
            var x := OrderIntent("1", "X", Buy, 6.0, Market, false, None, "");
            var y := OrderIntent("2", "Y", Buy, 6.0, Market, false, None, "");
            BothAllowed(limits, p, x, y) && PortfolioNotional(BookedAll(p, [x, y], [6.0, 6.0])) == 12.0
  {
    var limits := RiskLimits(1000.0, 10.0, 5.0, 0.05, 0.15, 100.0, 0.8, 20, 60000, 0.05);
    var p := Portfolio(map[], map["X" := 1.0, "Y" := 1.0], 0.0, 0.0, 0.0, 0.0, map[]);
    var x := OrderIntent("1", "X", Buy, 6.0, Market, false, None, "");
    var y := OrderIntent("2", "Y", Buy, 6.0, Market, false, None, "");
    FlatBookAllows(limits, p, x, y);
    hide BothAllowed, PortfolioNotional, BookedAll;
    BookedTwo(p, x, y, 6.0, 6.0);
    TwoHoldTwelve(p.(positions := map["X" := 6.0, "Y" := 6.0]));
  }

  lemma TwoHoldTwelve(p: Portfolio)
    requires p.positions == map["X" := 6.0, "Y" := 6.0] && p.marks == map["X" := 1.0, "Y" := 1.0]
    ensures PortfolioNotional(p) == 12.0
  {
    assert Notionals(p, p.positions.Keys) == map["X" := 6.0, "Y" := 6.0];
    SumUpdate(map["X" := 6.0], "Y", 6.0);
    SumUpdate(map[], "X", 6.0);
  }

  /** And two for the same symbol, which together hold 12 of it where the position limit is 10. */
  lemma SameSymbolBreaksThePositionCap()
    ensures var limits := RiskLimits(10.0, 1000.0, 5.0, 0.05, 0.15, 100.0, 0.8, 20, 60000, 0.05);
            var p := Portfolio(map[], map["X" := 1.0], 0.0, 0.0, 0.0, 0.0, map[]);
            var x := OrderIntent("1", "X", Buy, 6.0, Market, false, None, "");
            var y := OrderIntent("2", "X", Buy, 6.0, Market, false, None, "");
            BothAllowed(limits, p, x, y) && Held(At(BookedAll(p, [x, y], [6.0, 6.0]).positions, "X"), 1.0) == 12.0
  {
    var limits := RiskLimits(10.0, 1000.0, 5.0, 0.05, 0.15, 100.0, 0.8, 20, 60000, 0.05);
    var p := Portfolio(map[], map["X" := 1.0], 0.0, 0.0, 0.0, 0.0, map[]);
    var x := OrderIntent("1", "X", Buy, 6.0, Market, false, None, "");
    var y := OrderIntent("2", "X", Buy, 6.0, Market, false, None, "");
    FlatBookAllows(limits, p, x, y);
    BookedTwo(p, x, y, 6.0, 6.0);
  }

  /** Checked one after the other by a new gate, against the same portfolio at a mark of 1. */
  ghost predicate BothAllowed(limits: RiskLimits, p: Portfolio, x: OrderIntent, y: OrderIntent) {
    var ctx := RiskContext(p, 1.0, 0);
    Veto(limits, FRESH_RISK, x, ctx).None? && Veto(limits, Checked(limits, FRESH_RISK, x, ctx), y, ctx).None?
  }

  lemma FlatBookAllows(limits: RiskLimits, p: Portfolio, x: OrderIntent, y: OrderIntent)
    requires p.positions == map[] && p.equity == 0.0 && x.qty == y.qty == 6.0 && x.style.Market? && y.style.Market?
    requires limits.maxPositionNotional >= 6.0 && limits.maxAggregateNotional >= 6.0
             && limits.maxCorrelatedNotional >= 6.0
    requires limits.maxOrdersPerWindow == 20 && limits.rateWindowMs == 60000
    ensures BothAllowed(limits, p, x, y)
  {
    var ctx := RiskContext(p, 1.0, 0);
    forall symbol ensures Notionals(p, Correlates(p, symbol, limits.correlationThreshold)) == map[] {}
    assert Notionals(p, p.positions.Keys) == map[];
    assert Prune([], -60000) == [] && Prune([0], -60000) == [0];
    AllowedIff(limits, FRESH_RISK, x, ctx);
    AllowedIff(limits, Checked(limits, FRESH_RISK, x, ctx), y, ctx);
  }

  lemma BookedTwo(p: Portfolio, x: OrderIntent, y: OrderIntent, a: real, b: real)
    ensures BookedAll(p, [x, y], [a, b]) == Booked(Booked(p, x, a), y, b)
  {
    hide Booked;
    assert [x, y][..1] == [x] && [a, b][..1] == [a] && [x][..0] == [] && [a][..0] == [];
    assert BookedAll(p, [], []) == p;
    assert BookedAll(p, [x], [a]) == Booked(BookedAll(p, [x][..0], [a][..0]), x, a);
  }
}
