/** What the emitted bars say about the trades: each is the batch summary of the trades routed to it. */
module BarRuns {
  import opened Results
  import opened Bars

  // ------------------------------------------------------------- reference

  /** One bucket's trades in arrival order. */
  datatype Batch = Batch(openTime: int, trades: seq<Trade>)

  function Volume(trades: seq<Trade>): real {
    if trades == [] then 0.0 else Volume(trades[..|trades| - 1]) + trades[|trades| - 1].size
  }

  function BuyVolume(trades: seq<Trade>): real {
    if trades == [] then 0.0
    else BuyVolume(trades[..|trades| - 1]) + if trades[|trades| - 1].takerBuys then trades[|trades| - 1].size else 0.0
  }

  /** The open-high-low-close-volume summary of a whole batch. */
  predicate Summarises(bar: Bar, batch: Batch) {
    var trades, n := batch.trades, |batch.trades|;
    && n > 0
    && bar.openTime == batch.openTime && bar.trades == n
    && bar.open == trades[0].price && bar.close == trades[n - 1].price
    && (forall i :: 0 <= i < n ==> bar.low <= trades[i].price <= bar.high)
    && (exists i :: 0 <= i < n && trades[i].price == bar.high)
    && (exists i :: 0 <= i < n && trades[i].price == bar.low)
    && bar.volume == Volume(trades) && bar.buyVolume == BuyVolume(trades)
  }

  /** A batch has one summary. */
  lemma SummaryIsUnique(a: Bar, b: Bar, batch: Batch)
    requires Summarises(a, batch) && Summarises(b, batch)
    ensures a == b.(symbol := a.symbol, interval := a.interval, closed := a.closed)
  {}

  /** Where the trades of one symbol went. */
  datatype Routing = Routing(done: seq<Batch>, forming: Option<Batch>, dropped: seq<Trade>)

  function RouteStep(width: int, r: Routing, op: BarOp, symbol: string): Routing
    requires width > 0
  {
    match op
    case CloseOp(now) =>
      if r.forming.Some? && r.forming.value.openTime < BucketOf(width, now)
      then r.(done := r.done + [r.forming.value], forming := None) else r
    case TradeOp(t) =>
      var bucket := BucketOf(width, t.at);
      if t.symbol != symbol then r
      else if r.forming.None? then r.(forming := Some(Batch(bucket, [t])))
      else
        var batch := r.forming.value;
        if bucket > batch.openTime then r.(done := r.done + [batch], forming := Some(Batch(bucket, [t])))
        else if bucket < batch.openTime then r.(dropped := r.dropped + [t])
        else r.(forming := Some(batch.(trades := batch.trades + [t])))
  }

  function Route(width: int, ops: seq<BarOp>, symbol: string): Routing
    requires width > 0
  {
    if ops == [] then Routing([], None, [])
    else RouteStep(width, Route(width, ops[..|ops| - 1], symbol), ops[|ops| - 1], symbol)
  }

  function Own(bars: seq<Bar>, symbol: string): seq<Bar> {
    if bars == [] then []
    else
      var last := bars[|bars| - 1];
      Own(bars[..|bars| - 1], symbol) + if last.symbol == symbol then [last] else []
  }

  ghost predicate IsRun(width: int, interval: string, trace: seq<Aggregate>, ops: seq<BarOp>)
    requires width > 0
  {
    && |trace| == |ops| + 1 && trace[0] == Aggregate(map[], [])
    && forall i :: 0 <= i < |ops| ==> Next(width, interval, trace[i], ops[i], trace[i + 1])
  }

  // ------------------------------------------------- bars summarise batches

  predicate BarOf(bar: Bar, symbol: string, interval: string, closed: bool, batch: Batch) {
    Summarises(bar, batch) && bar.symbol == symbol && bar.interval == interval && bar.closed == closed
  }

  /** The aggregator's bars of a symbol, against the routing of its trades. */
  ghost predicate Reports(interval: string, s: Aggregate, symbol: string, r: Routing) {
    var own := Own(s.emitted, symbol);
    && |own| == |r.done|
    && (forall i :: 0 <= i < |own| ==> BarOf(own[i], symbol, interval, true, r.done[i]))
    && (symbol in s.current <==> r.forming.Some?)
    && (symbol in s.current ==> BarOf(s.current[symbol], symbol, interval, false, r.forming.value))
  }

  /** Bars sit under their own symbol. */
  predicate Keyed(s: Aggregate) {
    forall symbol :: symbol in s.current ==> s.current[symbol].symbol == symbol
  }

  lemma OwnAppend(bars: seq<Bar>, bar: Bar, symbol: string)
    ensures Own(bars + [bar], symbol) == Own(bars, symbol) + if bar.symbol == symbol then [bar] else []
  {
    assert (bars + [bar])[..|bars|] == bars;
  }

  lemma StartSummarises(interval: string, bucket: int, t: Trade)
    ensures BarOf(StartBar(interval, bucket, t), t.symbol, interval, false, Batch(bucket, [t]))
  {
    assert [t][..0] == [];
    assert [t][0] == t;
  }

  lemma ExtendSummarises(bar: Bar, batch: Batch, t: Trade, interval: string)
    requires BarOf(bar, t.symbol, interval, false, batch)
    ensures BarOf(ExtendBar(bar, t), t.symbol, interval, false, batch.(trades := batch.trades + [t]))
  {
    var trades, all := batch.trades, batch.trades + [t];
    assert all[..|trades|] == trades && all[|trades|] == t;
    assert forall i :: 0 <= i < |trades| ==> all[i] == trades[i];
    var hi :| 0 <= hi < |trades| && trades[hi].price == bar.high;
    var lo :| 0 <= lo < |trades| && trades[lo].price == bar.low;
    assert all[if bar.high >= t.price then hi else |trades|].price == ExtendBar(bar, t).high;
    assert all[if bar.low <= t.price then lo else |trades|].price == ExtendBar(bar, t).low;
  }

  lemma TradeReports(width: int, interval: string, s: Aggregate, t: Trade, symbol: string, r: Routing)
    requires width > 0 && Keyed(s) && Reports(interval, s, symbol, r)
    ensures Keyed(Traded(width, interval, s, t))
    ensures Reports(interval, Traded(width, interval, s, t), symbol, RouteStep(width, r, TradeOp(t), symbol))
  {
    hide Summarises, BucketOf;
    StartSummarises(interval, BucketOf(width, t.at), t);
    if t.symbol in s.current {
      var bar := s.current[t.symbol];
      OwnAppend(s.emitted, bar.(closed := true), symbol);
      if t.symbol == symbol {
        ExtendSummarises(bar, r.forming.value, t, interval);
        ClosingKeepsSummary(bar, r.forming.value);
      } else {
        assert Own(s.emitted, symbol) + [] == Own(s.emitted, symbol);
      }
    }
  }

  lemma ClosingKeepsSummary(bar: Bar, batch: Batch)
    ensures Summarises(bar, batch) <==> Summarises(bar.(closed := true), batch)
    ensures Summarises(bar, batch) ==> bar.openTime == batch.openTime
  {}

  function Finished(r: Routing): Routing
    requires r.forming.Some?
  {
    r.(done := r.done + [r.forming.value], forming := None)
  }

  lemma CloseOneReports(interval: string, s: Aggregate, other: string, symbol: string, r: Routing)
    requires Keyed(s) && Reports(interval, s, symbol, r) && other in s.current
    ensures Reports(interval, CloseOne(s, other), symbol, if other == symbol then Finished(r) else r)
  {
    hide Summarises;
    var bar := s.current[other];
    OwnAppend(s.emitted, bar.(closed := true), symbol);
    if other == symbol {
      ClosingKeepsSummary(bar, r.forming.value);
    } else {
      assert Own(s.emitted, symbol) + [] == Own(s.emitted, symbol);
    }
  }

  lemma {:induction false} CloseLeaves(s: Aggregate, symbols: seq<string>)
    ensures CloseEach(s, symbols).current == s.current - (set other | other in symbols)
  {
    if symbols == [] {
      assert (set other | other in symbols) == {};
    } else {
      var before, last := symbols[..|symbols| - 1], symbols[|symbols| - 1];
      CloseLeaves(s, before);
      assert symbols == before + [last];
      assert (set other | other in symbols) == (set other | other in before) + {last};
    }
  }

  /** After some of the symbols have been closed. */
  lemma {:induction false} CloseReports(interval: string, s: Aggregate, symbols: seq<string>, symbol: string,
                                        r: Routing)
    requires Keyed(s) && Reports(interval, s, symbol, r)
    requires forall i, j :: 0 <= i < j < |symbols| ==> symbols[i] != symbols[j]
    requires forall other :: other in symbols ==> other in s.current
    requires symbol in symbols ==> r.forming.Some?
    ensures Keyed(CloseEach(s, symbols))
    ensures Reports(interval, CloseEach(s, symbols), symbol, if symbol in symbols then Finished(r) else r)
  {
    hide Reports, Own, CloseOne;
    CloseLeaves(s, symbols);
    if symbols != [] {
      var before, last := symbols[..|symbols| - 1], symbols[|symbols| - 1];
      assert symbols == before + [last] && last !in before;
      CloseReports(interval, s, before, symbol, r);
      CloseLeaves(s, before);
      CloseOneReports(interval, CloseEach(s, before), last, symbol, if symbol in before then Finished(r) else r);
    }
  }

  lemma StepReports(width: int, interval: string, s: Aggregate, op: BarOp, s': Aggregate, symbol: string, r: Routing)
    requires width > 0 && Keyed(s) && Reports(interval, s, symbol, r) && Next(width, interval, s, op, s')
    ensures Keyed(s') && Reports(interval, s', symbol, RouteStep(width, r, op, symbol))
  {
    hide BucketOf, Reports;
    match op
    case TradeOp(t) => TradeReports(width, interval, s, t, symbol, r);
    case CloseOp(now) =>
      var symbols :| ClosesExpired(width, s, now, symbols, s');
      ClosesWhenRouted(width, interval, s, now, symbol, r);
      CloseReports(interval, s, symbols, symbol, r);
  }

  lemma ClosesWhenRouted(width: int, interval: string, s: Aggregate, now: int, symbol: string, r: Routing)
    requires width > 0 && Reports(interval, s, symbol, r)
    ensures Expired(width, s, symbol, now) <==> r.forming.Some? && r.forming.value.openTime < BucketOf(width, now)
  {
    hide BucketOf;
  }

  /** In every run of trades and timer closes, a symbol's emitted bars are, one for one and in order,
      the batch summaries of the trades routed to them, and its pending bar that of the forming batch. */
  lemma {:induction false} BarsSummariseTheirTrades(width: int, interval: string, trace: seq<Aggregate>,
                                                    ops: seq<BarOp>, symbol: string)
    requires width > 0 && IsRun(width, interval, trace, ops)
    ensures Keyed(trace[|ops|])
    ensures Reports(interval, trace[|ops|], symbol, Route(width, ops, symbol))
  {
    hide Reports, Keyed;
    if ops == [] {
      NothingRouted(1, interval, symbol, 0);
    } else {
      var n := |ops| - 1;
      assert IsRun(width, interval, trace[..|ops|], ops[..n]);
      BarsSummariseTheirTrades(width, interval, trace[..|ops|], ops[..n], symbol);
      assert Next(width, interval, trace[n], ops[n], trace[n + 1]);
      StepReports(width, interval, trace[n], ops[n], trace[n + 1], symbol, Route(width, ops[..n], symbol));
    }
  }

  /** Before anything has happened. */
  lemma NothingRouted(width: int, interval: string, symbol: string, now: int)
    requires width > 0
    ensures var start, nothing := Aggregate(map[], []), Routing([], None, []);
            && Keyed(start) && Reports(interval, start, symbol, nothing)
            && RoutedVolume(nothing) == 0.0 && Opens(nothing) == [] && InStep(width, [], symbol, nothing, now)
  {}

  // ----------------------------------------------------------- conservation

  function BatchVolumes(batches: seq<Batch>): real {
    if batches == [] then 0.0 else BatchVolumes(batches[..|batches| - 1]) + Volume(batches[|batches| - 1].trades)
  }

  function BarVolumes(bars: seq<Bar>): real {
    if bars == [] then 0.0 else BarVolumes(bars[..|bars| - 1]) + bars[|bars| - 1].volume
  }

  function TradesOf(ops: seq<BarOp>, symbol: string): seq<Trade> {
    if ops == [] then []
    else
      var last := ops[|ops| - 1];
      TradesOf(ops[..|ops| - 1], symbol) + if last.TradeOp? && last.trade.symbol == symbol then [last.trade] else []
  }

  lemma VolumeAppend(trades: seq<Trade>, t: Trade)
    ensures Volume(trades + [t]) == Volume(trades) + t.size
  {
    assert (trades + [t])[..|trades|] == trades;
  }

  lemma VolumesAppend(batches: seq<Batch>, b: Batch)
    ensures BatchVolumes(batches + [b]) == BatchVolumes(batches) + Volume(b.trades)
  {
    assert (batches + [b])[..|batches|] == batches;
  }

  function RoutedVolume(r: Routing): real {
    BatchVolumes(r.done) + (if r.forming.Some? then Volume(r.forming.value.trades) else 0.0) + Volume(r.dropped)
  }

  lemma RouteStepVolume(width: int, r: Routing, op: BarOp, symbol: string)
    requires width > 0
    ensures RoutedVolume(RouteStep(width, r, op, symbol)) ==
            RoutedVolume(r) + if op.TradeOp? && op.trade.symbol == symbol then op.trade.size else 0.0
  {
    hide BucketOf;
    if op.TradeOp? {
      VolumeAppend(r.dropped, op.trade);
      VolumeAppend([], op.trade);
      assert [] + [op.trade] == [op.trade];
    }
    if r.forming.Some? {
      VolumesAppend(r.done, r.forming.value);
      if op.TradeOp? { VolumeAppend(r.forming.value.trades, op.trade); }
    }
    assert Volume([]) == 0.0;
    hide Volume, BatchVolumes;
  }

  lemma {:induction false} RoutingKeepsVolume(width: int, ops: seq<BarOp>, symbol: string)
    requires width > 0
    ensures RoutedVolume(Route(width, ops, symbol)) == Volume(TradesOf(ops, symbol))
  {
    hide RouteStep, RoutedVolume;
    if ops == [] {
      NothingRouted(1, "", symbol, 0);
    } else {
      var before, last := ops[..|ops| - 1], ops[|ops| - 1];
      RoutingKeepsVolume(width, before, symbol);
      RouteStepVolume(width, Route(width, before, symbol), last, symbol);
      if last.TradeOp? { VolumeAppend(TradesOf(before, symbol), last.trade); }
      assert TradesOf(before, symbol) + [] == TradesOf(before, symbol);
    }
  }

  lemma {:induction false} SummedVolumes(interval: string, bars: seq<Bar>, batches: seq<Batch>, symbol: string)
    requires |bars| == |batches|
    requires forall i :: 0 <= i < |bars| ==> BarOf(bars[i], symbol, interval, true, batches[i])
    ensures BarVolumes(bars) == BatchVolumes(batches)
  {
    if bars != [] {
      var n := |bars| - 1;
      assert BarOf(bars[n], symbol, interval, true, batches[n]);
      SummedVolumes(interval, bars[..n], batches[..n], symbol);
    }
  }

  /** No traded size is lost or counted twice: emitted, pending and late-dropped make up the total. */
  lemma VolumeIsConserved(width: int, interval: string, trace: seq<Aggregate>, ops: seq<BarOp>, symbol: string)
    requires width > 0 && IsRun(width, interval, trace, ops)
    ensures var s := trace[|ops|];
            BarVolumes(Own(s.emitted, symbol)) + (if symbol in s.current then s.current[symbol].volume else 0.0)
            + Volume(Route(width, ops, symbol).dropped)
            == Volume(TradesOf(ops, symbol))
  {
    BarsSummariseTheirTrades(width, interval, trace, ops, symbol);
    RoutingKeepsVolume(width, ops, symbol);
    hide IsRun, Route, Own, TradesOf;
    SummedVolumes(interval, Own(trace[|ops|].emitted, symbol), Route(width, ops, symbol).done, symbol);
  }

  // ------------------------------------------------------ order of open times

  function Opens(r: Routing): seq<int> {
    seq(|r.done|, i requires 0 <= i < |r.done| => r.done[i].openTime)
    + if r.forming.Some? then [r.forming.value.openTime] else []
  }

  predicate Increasing(xs: seq<int>) {
    forall i, j :: 0 <= i < j < |xs| ==> xs[i] < xs[j]
  }

  /** A trade that starts a bar no later than one already emitted. */
  predicate Reopens(width: int, r: Routing, op: BarOp, symbol: string)
    requires width > 0
  {
    && op.TradeOp? && op.trade.symbol == symbol && r.forming.None? && r.done != []
    && BucketOf(width, op.trade.at) <= r.done[|r.done| - 1].openTime
  }

  predicate NeverReopens(width: int, ops: seq<BarOp>, symbol: string)
    requires width > 0
  {
    forall i :: 0 <= i < |ops| ==> !Reopens(width, Route(width, ops[..i], symbol), ops[i], symbol)
  }

  lemma RouteStepOpens(width: int, r: Routing, op: BarOp, symbol: string)
    requires width > 0
    ensures Increasing(Opens(RouteStep(width, r, op, symbol)))
            <==> Increasing(Opens(r)) && !Reopens(width, r, op, symbol)
  {
    hide BucketOf;
    var r' := RouteStep(width, r, op, symbol);
    var before, after := Opens(r), Opens(r');
    if after == before {
    } else if r.forming.None? {
      assert after == before + [after[|before|]];
      assert before != [] ==> before[|before| - 1] == r.done[|r.done| - 1].openTime;
      IncreasingAppend(before, after[|before|]);
    } else {
      assert after == before + [after[|before|]];
      assert before[|before| - 1] == r.forming.value.openTime;
      IncreasingAppend(before, after[|before|]);
    }
  }

  lemma IncreasingAppend(xs: seq<int>, x: int)
    ensures Increasing(xs + [x]) <==> Increasing(xs) && (xs == [] || xs[|xs| - 1] < x)
  {
    var all := xs + [x];
    assert all[|xs|] == x && forall i :: 0 <= i < |xs| ==> all[i] == xs[i];
    if Increasing(all) && xs != [] { assert all[|xs| - 1] < all[|xs|]; }
  }

  /** A symbol's open times, pending bar included, strictly increase exactly when no trade ever
      starts a bar at or before one already emitted. */
  lemma {:induction false} OpensIncreaseIff(width: int, ops: seq<BarOp>, symbol: string)
    requires width > 0
    ensures Increasing(Opens(Route(width, ops, symbol))) <==> NeverReopens(width, ops, symbol)
  {
    hide RouteStep, Reopens, Opens;
    if ops == [] {
      NothingRouted(width, "", symbol, 0);
    } else {
      var n := |ops| - 1;
      OpensIncreaseIff(width, ops[..n], symbol);
      RouteStepOpens(width, Route(width, ops[..n], symbol), ops[n], symbol);
      assert forall i :: 0 <= i < n ==> ops[..n][i] == ops[i] && ops[..n][..i] == ops[..i];
    }
  }

  lemma {:induction false} NoCloseNeverEmpties(width: int, ops: seq<BarOp>, symbol: string)
    requires width > 0 && forall i :: 0 <= i < |ops| ==> ops[i].TradeOp?
    ensures Route(width, ops, symbol).forming.None? ==> Route(width, ops, symbol).done == []
  {
    if ops != [] { NoCloseNeverEmpties(width, ops[..|ops| - 1], symbol); }
  }

  /** Without timer closes, open times strictly increase whatever the order of the trades. */
  lemma OpensIncreaseWithoutCloses(width: int, interval: string, trace: seq<Aggregate>, ops: seq<BarOp>, symbol: string)
    requires width > 0 && IsRun(width, interval, trace, ops) && forall i :: 0 <= i < |ops| ==> ops[i].TradeOp?
    ensures var own := Own(trace[|ops|].emitted, symbol);
            forall i, j :: 0 <= i < j < |own| ==> own[i].openTime < own[j].openTime
  {
    forall i | 0 <= i < |ops|
      ensures !Reopens(width, Route(width, ops[..i], symbol), ops[i], symbol)
    {
      NoCloseNeverEmpties(width, ops[..i], symbol);
    }
    OpensIncreaseIff(width, ops, symbol);
    BarsSummariseTheirTrades(width, interval, trace, ops, symbol);
    EmittedOpens(interval, trace[|ops|], symbol, Route(width, ops, symbol));
  }

  lemma EmittedOpens(interval: string, s: Aggregate, symbol: string, r: Routing)
    requires Reports(interval, s, symbol, r) && Increasing(Opens(r))
    ensures var own := Own(s.emitted, symbol);
            forall i, j :: 0 <= i < j < |own| ==> own[i].openTime < own[j].openTime
  {
    var own := Own(s.emitted, symbol);
    forall i, j | 0 <= i < j < |own|
      ensures own[i].openTime < own[j].openTime
    {
      assert BarOf(own[i], symbol, interval, true, r.done[i]) && BarOf(own[j], symbol, interval, true, r.done[j]);
      assert Opens(r)[i] == r.done[i].openTime && Opens(r)[j] == r.done[j].openTime;
    }
  }

  /** With timer closes it can fail: a late trade reopens a bucket whose bar is already out, and the
      same bucket is emitted twice. */
  lemma ReopenedBucketCounterexample()
    ensures var t := Ingestion.TradePrint("X", 1.0, 1.0, true, 5);
            Route(10, [TradeOp(t), CloseOp(10), TradeOp(t), CloseOp(10)], "X")
            == Routing([Batch(0, [t]), Batch(0, [t])], None, [])
  {
    var t := Ingestion.TradePrint("X", 1.0, 1.0, true, 5);
    var ops := [TradeOp(t), CloseOp(10), TradeOp(t), CloseOp(10)];
    var ops3, ops2, ops1 := ops[..3], ops[..2], ops[..1];
    assert ops3[..2] == ops2 && ops2[..1] == ops1 && ops1[..0] == [];
    assert Route(10, ops1, "X") == Routing([], Some(Batch(0, [t])), []);
    assert Route(10, ops2, "X") == Routing([Batch(0, [t])], None, []);
    assert Route(10, ops3, "X") == Routing([Batch(0, [t])], Some(Batch(0, [t])), []);
    assert Route(10, ops, "X") == Routing([Batch(0, [t])] + [Batch(0, [t])], None, []);
  }

  // ---------------------------------------------------- times that go forward

  function TimeOf(op: BarOp): int {
    match op
    case TradeOp(t) => t.at
    case CloseOp(now) => now
  }

  predicate Concerns(op: BarOp, symbol: string) {
    op.CloseOp? || op.trade.symbol == symbol
  }

  predicate Forward(ops: seq<BarOp>, symbol: string) {
    forall i, j :: 0 <= i <= j < |ops| && Concerns(ops[i], symbol) && Concerns(ops[j], symbol)
        ==> TimeOf(ops[i]) <= TimeOf(ops[j])
  }

  /** All of a symbol's trades whose time falls into one bucket. */
  function BucketTrades(width: int, ops: seq<BarOp>, symbol: string, bucket: int): seq<Trade>
    requires width > 0
  {
    if ops == [] then []
    else
      var last := ops[|ops| - 1];
      BucketTrades(width, ops[..|ops| - 1], symbol, bucket)
      + if last.TradeOp? && last.trade.symbol == symbol
          && BucketOf(width, last.trade.at) == bucket then [last.trade] else []
  }

  lemma FactorSign(k: int, width: int)
    requires width > 0
    ensures k * width < 0 <==> k < 0
  {}

  lemma BucketsAreMonotone(width: int, a: int, b: int)
    requires width > 0 && a <= b
    ensures BucketOf(width, a) <= BucketOf(width, b)
  {
    var x, y := a / width, b / width;
    assert (x - y - 1) * width == x * width - y * width - width;
    FactorSign(x - y - 1, width);
    FactorSign(y - x, width);
    assert (y - x) * width == y * width - x * width;
  }

  /** Nothing dropped; every batch, and only those, holds its bucket's trades; the next trade from
      time `now` on belongs to the forming bucket or a later one. */
  ghost predicate InStep(width: int, ops: seq<BarOp>, symbol: string, r: Routing, now: int)
    requires width > 0
  {
    && r.dropped == []
    && (forall i :: 0 <= i < |r.done| ==> r.done[i].trades == BucketTrades(width, ops, symbol, r.done[i].openTime))
    && (forall i, j :: 0 <= i < j < |r.done| ==> r.done[i].openTime < r.done[j].openTime)
    && match r.forming
       case Some(batch) =>
         && batch.openTime <= BucketOf(width, now) && batch.trades == BucketTrades(width, ops, symbol, batch.openTime)
         && (forall i :: 0 <= i < |r.done| ==> r.done[i].openTime < batch.openTime)
         && (forall bucket :: bucket > batch.openTime ==> BucketTrades(width, ops, symbol, bucket) == [])
       case None =>
         && (forall i :: 0 <= i < |r.done| ==> r.done[i].openTime < BucketOf(width, now))
         && (forall bucket :: bucket >= BucketOf(width, now) ==> BucketTrades(width, ops, symbol, bucket) == [])
  }

  lemma BucketTradesAppend(width: int, ops: seq<BarOp>, op: BarOp, symbol: string, bucket: int)
    requires width > 0
    ensures BucketTrades(width, ops + [op], symbol, bucket) ==
            BucketTrades(width, ops, symbol, bucket)
            + if op.TradeOp? && op.trade.symbol == symbol
                && BucketOf(width, op.trade.at) == bucket then [op.trade] else []
  {
    assert (ops + [op])[..|ops|] == ops;
  }

  lemma LaterInStep(width: int, ops: seq<BarOp>, symbol: string, r: Routing, now: int, later: int)
    requires width > 0 && InStep(width, ops, symbol, r, now) && now <= later
    ensures InStep(width, ops, symbol, r, later)
  {
    BucketsAreMonotone(width, now, later);
    hide BucketOf, BucketTrades;
  }

  lemma CloseStaysInStep(width: int, ops: seq<BarOp>, symbol: string, r: Routing, now: int)
    requires width > 0 && InStep(width, ops, symbol, r, now)
    ensures InStep(width, ops + [CloseOp(now)], symbol, RouteStep(width, r, CloseOp(now), symbol), now)
  {
    forall bucket
      ensures BucketTrades(width, ops + [CloseOp(now)], symbol, bucket) == BucketTrades(width, ops, symbol, bucket)
    {
      BucketTradesAppend(width, ops, CloseOp(now), symbol, bucket);
    }
    hide BucketOf, BucketTrades;
  }

  /** Appending a trade adds it to its own bucket's trades and to no other's. */
  ghost predicate AddsToBucket(width: int, ops: seq<BarOp>, symbol: string, t: Trade)
    requires width > 0
  {
    forall bucket :: BucketTrades(width, ops + [TradeOp(t)], symbol, bucket) ==
                     BucketTrades(width, ops, symbol, bucket) + if BucketOf(width, t.at) == bucket then [t] else []
  }

  lemma TradeStaysInStep(width: int, ops: seq<BarOp>, symbol: string, r: Routing, t: Trade)
    requires width > 0 && InStep(width, ops, symbol, r, t.at) && t.symbol == symbol
    ensures InStep(width, ops + [TradeOp(t)], symbol, RouteStep(width, r, TradeOp(t), symbol), t.at)
  {
    forall bucket
      ensures BucketTrades(width, ops + [TradeOp(t)], symbol, bucket) ==
              BucketTrades(width, ops, symbol, bucket) + if BucketOf(width, t.at) == bucket then [t] else []
    {
      BucketTradesAppend(width, ops, TradeOp(t), symbol, bucket);
      hide InStep, RouteStep;
    }
    if r.forming.Some? && r.forming.value.openTime == BucketOf(width, t.at) {
      TradeExtendsBucket(width, ops, symbol, r, t);
    } else {
      TradeStartsBucket(width, ops, symbol, r, t);
    }
    hide InStep, RouteStep;
  }

  lemma TradeExtendsBucket(width: int, ops: seq<BarOp>, symbol: string, r: Routing, t: Trade)
    requires width > 0 && InStep(width, ops, symbol, r, t.at) && t.symbol == symbol
    requires AddsToBucket(width, ops, symbol, t)
    requires r.forming.Some? && r.forming.value.openTime == BucketOf(width, t.at)
    ensures InStep(width, ops + [TradeOp(t)], symbol, RouteStep(width, r, TradeOp(t), symbol), t.at)
  {
    hide BucketOf, BucketTrades;
  }

  lemma TradeStartsBucket(width: int, ops: seq<BarOp>, symbol: string, r: Routing, t: Trade)
    requires width > 0 && InStep(width, ops, symbol, r, t.at) && t.symbol == symbol
    requires AddsToBucket(width, ops, symbol, t)
    requires r.forming.Some? ==> r.forming.value.openTime != BucketOf(width, t.at)
    ensures InStep(width, ops + [TradeOp(t)], symbol, RouteStep(width, r, TradeOp(t), symbol), t.at)
  {
    hide BucketOf, BucketTrades;
    assert BucketTrades(width, ops, symbol, BucketOf(width, t.at)) == [];
  }

  lemma InStepAdvances(width: int, ops: seq<BarOp>, symbol: string, r: Routing, op: BarOp)
    requires width > 0 && InStep(width, ops, symbol, r, TimeOf(op)) && Concerns(op, symbol)
    ensures InStep(width, ops + [op], symbol, RouteStep(width, r, op, symbol), TimeOf(op))
  {
    hide InStep, RouteStep;
    match op
    case CloseOp(now) => CloseStaysInStep(width, ops, symbol, r, now);
    case TradeOp(t) => TradeStaysInStep(width, ops, symbol, r, t);
  }

  lemma {:induction false} ForwardRunsAreInStep(width: int, ops: seq<BarOp>, symbol: string, now: int)
    requires width > 0 && Forward(ops, symbol)
    requires forall i :: 0 <= i < |ops| && Concerns(ops[i], symbol) ==> TimeOf(ops[i]) <= now
    ensures InStep(width, ops, symbol, Route(width, ops, symbol), now)
  {
    hide RouteStep, InStep;
    if ops == [] {
      NothingRouted(width, "", symbol, now);
    } else {
      var before, op := ops[..|ops| - 1], ops[|ops| - 1];
      assert forall i :: 0 <= i < |before| ==> before[i] == ops[i];
      assert ops == before + [op];
      if Concerns(op, symbol) {
        ForwardRunsAreInStep(width, before, symbol, TimeOf(op));
        InStepAdvances(width, before, symbol, Route(width, before, symbol), op);
        LaterInStep(width, ops, symbol, Route(width, ops, symbol), TimeOf(op), now);
      } else {
        ForwardRunsAreInStep(width, before, symbol, now);
        OthersKeepStep(width, before, symbol, Route(width, before, symbol), op, now);
      }
    }
  }

  lemma OthersKeepStep(width: int, ops: seq<BarOp>, symbol: string, r: Routing, op: BarOp, now: int)
    requires width > 0 && InStep(width, ops, symbol, r, now) && !Concerns(op, symbol)
    ensures InStep(width, ops + [op], symbol, RouteStep(width, r, op, symbol), now)
  {
    forall bucket
      ensures BucketTrades(width, ops + [op], symbol, bucket) == BucketTrades(width, ops, symbol, bucket)
    {
      BucketTradesAppend(width, ops, op, symbol, bucket);
    }
    hide BucketOf, BucketTrades;
  }

  /** When times never go back, timer closes included, nothing is dropped and every emitted bar is the
      summary of all the trades that ever fall into its bucket, whenever they come. */
  lemma ForwardBarsAreWholeBuckets(width: int, interval: string, trace: seq<Aggregate>, ops: seq<BarOp>, symbol: string,
                                   k: nat)
    requires width > 0 && IsRun(width, interval, trace, ops) && Forward(ops, symbol)
    requires k < |Own(trace[|ops|].emitted, symbol)|
    ensures Route(width, ops, symbol).dropped == []
    ensures var bar := Own(trace[|ops|].emitted, symbol)[k];
            Summarises(bar, Batch(bar.openTime, BucketTrades(width, ops, symbol, bar.openTime)))
  {
    BarsSummariseTheirTrades(width, interval, trace, ops, symbol);
    var now := LastTime(ops, symbol);
    ForwardRunsAreInStep(width, ops, symbol, now);
    var r := Route(width, ops, symbol);
    var bar := Own(trace[|ops|].emitted, symbol)[k];
    assert BarOf(bar, symbol, interval, true, r.done[k]);
    assert r.done[k] == Batch(bar.openTime, BucketTrades(width, ops, symbol, bar.openTime));
  }

  lemma LastTime(ops: seq<BarOp>, symbol: string) returns (now: int)
    requires Forward(ops, symbol)
    ensures forall i :: 0 <= i < |ops| && Concerns(ops[i], symbol) ==> TimeOf(ops[i]) <= now
  {
    if ops == [] {
      now := 0;
    } else {
      var last := |ops| - 1;
      if Concerns(ops[last], symbol) {
        now := TimeOf(ops[last]);
      } else {
        assert forall i :: 0 <= i < last ==> ops[..last][i] == ops[i];
        now := LastTime(ops[..last], symbol);
      }
    }
  }
}
