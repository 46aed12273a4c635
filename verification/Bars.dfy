/** Trades aggregated into fixed-width bars, one forming bar per symbol. */
module Bars {
  import opened Reals
  import Ingestion

  type Trade = Ingestion.TradePrint

  datatype Bar = Bar(symbol: string, interval: string, openTime: int, open: real, high: real, low: real, close: real,
                     volume: real, trades: nat, buyVolume: real, closed: bool)

  datatype Aggregate = Aggregate(current: map<string, Bar>, emitted: seq<Bar>)

  datatype BarOp = TradeOp(trade: Trade) | CloseOp(now: int)

  /** Bucket start of a time; division floors. */
  function BucketOf(width: int, at: int): int
    requires width > 0
  {
    at / width * width
  }

  /** A bucket opens at the one multiple of the width that is at or before the time, and less than a width before. */
  lemma BucketIsTheMultiple(width: int, at: int, open: int)
    requires width > 0
    ensures open == BucketOf(width, at) <==> open <= at < open + width && exists k :: Spans(width, k) == open
  {
    assert Spans(width, at / width) == BucketOf(width, at);
    if open <= at < open + width && exists k :: Spans(width, k) == open {
      var k :| Spans(width, k) == open;
      SameBucket(width, k, at);
    }
  }

  function Spans(width: int, k: int): int {
    k * width
  }

  lemma SameBucket(width: int, k: int, at: int)
    requires width > 0 && k * width <= at < (k + 1) * width
    ensures at / width == k
  {
    var q := at / width;
    assert (q + 1 - k) * width == (q + 1) * width - k * width && (k + 1 - q) * width == (k + 1) * width - q * width;
    PositiveFactor(q + 1 - k, width);
    PositiveFactor(k + 1 - q, width);
  }

  lemma PositiveFactor(x: int, width: int)
    requires width > 0 && x * width > 0
    ensures x > 0
  {}

  function StartBar(interval: string, openTime: int, t: Trade): Bar {
    Bar(t.symbol, interval, openTime, t.price, t.price, t.price, t.price, t.size, 1,
        if t.takerBuys then t.size else 0.0, false)
  }

  function ExtendBar(bar: Bar, t: Trade): Bar {
    bar.(high := MaxReal(bar.high, t.price), low := MinReal(bar.low, t.price), close := t.price,
         volume := bar.volume + t.size, trades := bar.trades + 1,
         buyVolume := if t.takerBuys then bar.buyVolume + t.size else bar.buyVolume)
  }

  /** A later bucket closes the forming bar, the same bucket extends it, an older one is dropped. */
  function Traded(width: int, interval: string, s: Aggregate, t: Trade): Aggregate
    requires width > 0
  {
    var bucket := BucketOf(width, t.at);
    var started := s.(current := s.current[t.symbol := StartBar(interval, bucket, t)]);
    if t.symbol !in s.current then started
    else
      var bar := s.current[t.symbol];
      if bucket > bar.openTime then started.(emitted := s.emitted + [bar.(closed := true)])
      else if bucket < bar.openTime then s
      else s.(current := s.current[t.symbol := ExtendBar(bar, t)])
  }

  function CloseOne(s: Aggregate, symbol: string): Aggregate {
    if symbol !in s.current then s
    else Aggregate(s.current - {symbol}, s.emitted + [s.current[symbol].(closed := true)])
  }

  function CloseEach(s: Aggregate, symbols: seq<string>): Aggregate {
    if symbols == [] then s else CloseOne(CloseEach(s, symbols[..|symbols| - 1]), symbols[|symbols| - 1])
  }

  predicate Expired(width: int, s: Aggregate, symbol: string, now: int)
    requires width > 0
  {
    symbol in s.current && s.current[symbol].openTime < BucketOf(width, now)
  }

  /** Every expired bar is closed once, in an order left to the map. */
  ghost predicate ClosesExpired(width: int, s: Aggregate, now: int, symbols: seq<string>, s': Aggregate)
    requires width > 0
  {
    && (forall i, j :: 0 <= i < j < |symbols| ==> symbols[i] != symbols[j])
    && (forall symbol :: symbol in symbols <==> Expired(width, s, symbol, now))
    && s' == CloseEach(s, symbols)
  }

  ghost predicate Next(width: int, interval: string, s: Aggregate, op: BarOp, s': Aggregate)
    requires width > 0
  {
    match op
    case TradeOp(t) => s' == Traded(width, interval, s, t)
    case CloseOp(now) => exists symbols :: ClosesExpired(width, s, now, symbols, s')
  }

  class BarAggregator {
    const intervalMs: int
    const intervalLabel: string
    var current: map<string, Bar>
    /** What the listener has been given. */
    var emitted: seq<Bar>

    ghost function State(): Aggregate
      reads this
    {
      Aggregate(current, emitted)
    }

    constructor (intervalMs: int, intervalLabel: string)
      ensures this.intervalMs == intervalMs && this.intervalLabel == intervalLabel && State() == Aggregate(map[], [])
    {
      this.intervalMs, this.intervalLabel := intervalMs, intervalLabel;
      current, emitted := map[], [];
    }

    method OnTrade(t: Trade)
      requires intervalMs > 0
      modifies this
      ensures Next(intervalMs, intervalLabel, old(State()), TradeOp(t), State())
    {
      var bucket := BucketOf(intervalMs, t.at);
      if t.symbol in current && current[t.symbol].openTime != bucket {
        var existing := current[t.symbol];
        if bucket > existing.openTime {
          EmitClosed(existing);
          current := current[t.symbol := StartBar(intervalLabel, bucket, t)];
        }
        return;
      }
      if t.symbol !in current {
        current := current[t.symbol := StartBar(intervalLabel, bucket, t)];
        return;
      }
      current := current[t.symbol := ExtendBar(current[t.symbol], t)];
    }

    /** Anything that is not a trade is ignored. */
    method OnEvent(event: Ingestion.MarketEvent)
      requires intervalMs > 0
      modifies this
      ensures if event.TradeEvent? then Next(intervalMs, intervalLabel, old(State()), TradeOp(event.trade), State())
              else State() == old(State())
    {
      if event.TradeEvent? { OnTrade(event.trade); }
    }

    method CloseExpired(now: int)
      requires intervalMs > 0
      modifies this
      ensures Next(intervalMs, intervalLabel, old(State()), CloseOp(now), State())
    {
      var currentBucket := BucketOf(intervalMs, now);
      ghost var s := State();
      ghost var order: seq<string> := [];
      var todo := current.Keys;
      while todo != {}
        invariant State() == CloseEach(s, order)
        invariant todo <= current.Keys <= s.current.Keys
        invariant forall symbol :: symbol in current ==> current[symbol] == s.current[symbol]
        invariant forall symbol :: symbol in order <==> symbol !in todo && Expired(intervalMs, s, symbol, now)
        invariant forall i, j :: 0 <= i < j < |order| ==> order[i] != order[j]
        decreases |todo|
      {
        var symbol :| symbol in todo;
        if current[symbol].openTime < currentBucket {
          EmitClosed(current[symbol]);
          current := current - {symbol};
          assert (order + [symbol])[..|order|] == order;
          order := order + [symbol];
        }
        todo := todo - {symbol};
      }
      assert ClosesExpired(intervalMs, s, now, order, State());
    }

    method EmitClosed(bar: Bar)
      modifies this`emitted
      ensures emitted == old(emitted) + [bar.(closed := true)]
    {
      emitted := emitted + [bar.(closed := true)];
    }
  }
}
