/** Order book snapshots and the price of sweeping them. */
module Events {
  import opened Results
  import opened Reals
  import opened OrderStates

  datatype PriceLevel = PriceLevel(price: real, size: real)

  /** Best level first on both sides. */
  datatype OrderBookSnapshot = OrderBookSnapshot(bids: seq<PriceLevel>, asks: seq<PriceLevel>)

  const BPS_EPSILON: real := 0.000001

  datatype Top = Top(bid: Option<real>, ask: Option<real>, mid: Option<real>)

  function TopOfBook(book: OrderBookSnapshot): Top {
    var bid := if book.bids == [] then None else Some(book.bids[0].price);
    var ask := if book.asks == [] then None else Some(book.asks[0].price);
    Top(bid, ask, if bid.Some? && ask.Some? then Some((bid.value + ask.value) / 2.0) else None)
  }

  predicate ExceedsLimitBps(actual: real, limitBps: real) {
    actual > limitBps + BPS_EPSILON
  }

  function Notional(qty: real, price: real): real {
    qty * price
  }

  /** What is left of qty after walking the levels, and what the walk cost. */
  function Swept(levels: seq<PriceLevel>, qty: real): (real, real) {
    if levels == [] then (qty, 0.0)
    else
      var take := MinReal(qty, levels[0].size);
      var cost := Notional(take, levels[0].price);
      if qty - take <= 0.0 then (qty - take, cost)
      else
        var (rest, restCost) := Swept(levels[1..], qty - take);
        (rest, cost + restCost)
  }

  function SideLevels(book: OrderBookSnapshot, side: Side): seq<PriceLevel> {
    if side == Buy then book.asks else book.bids
  }

  /** Size-weighted price of taking qty from the book; None when the book cannot fill it. */
  function SweepPrice(book: OrderBookSnapshot, side: Side, qty: real): Option<real> {
    if qty <= 0.0 then None
    else
      var (remaining, notional) := Swept(SideLevels(book, side), qty);
      if remaining > 0.0 then None else Some(notional / qty)
  }

  lemma SweptStep(levels: seq<PriceLevel>, i: nat, remaining: real)
    requires i < |levels|
    ensures var take := MinReal(remaining, levels[i].size);
            var cost := Notional(take, levels[i].price);
            Swept(levels[i..], remaining)
              == if remaining - take <= 0.0 then (remaining - take, cost)
                 else (Swept(levels[i + 1..], remaining - take).0, cost + Swept(levels[i + 1..], remaining - take).1)
  {
    hide Notional, MinReal;
    assert levels[i..][1..] == levels[i + 1..];
  }

  method ComputeSweepPrice(book: OrderBookSnapshot, side: Side, qty: real) returns (r: Option<real>)
    ensures r == SweepPrice(book, side, qty)
  {
    hide Notional, MinReal;
    if qty <= 0.0 { return None; }
    var levels := SideLevels(book, side);
    var remaining, notional := qty, 0.0;
    var i := 0;
    while i < |levels|
      invariant 0 <= i <= |levels| && remaining > 0.0
      invariant Swept(levels, qty)
                == (Swept(levels[i..], remaining).0, notional + Swept(levels[i..], remaining).1)
    {
      SweptStep(levels, i, remaining);
      var take := MinReal(remaining, levels[i].size);
      notional := notional + Notional(take, levels[i].price);
      remaining := remaining - take;
      i := i + 1;
      if remaining <= 0.0 {
        return Some(notional / qty);
      }
    }
    r := None;
  }

  // ------------------------------------------------------------ depth

  predicate NonNegativeSizes(levels: seq<PriceLevel>) {
    forall i :: 0 <= i < |levels| ==> levels[i].size >= 0.0
  }

  function Depth(levels: seq<PriceLevel>): real {
    if levels == [] then 0.0 else levels[0].size + Depth(levels[1..])
  }

  lemma {:induction false} SweptLeavesTheShortfall(levels: seq<PriceLevel>, qty: real)
    requires NonNegativeSizes(levels) && qty > 0.0
    ensures Depth(levels) >= 0.0
    ensures Swept(levels, qty).0 == if Depth(levels) >= qty then 0.0 else qty - Depth(levels)
  {
    if levels != [] {
      DepthNonNegative(levels[1..]);
      if levels[0].size < qty { SweptLeavesTheShortfall(levels[1..], qty - levels[0].size); }
    }
  }

  lemma {:induction false} DepthNonNegative(levels: seq<PriceLevel>)
    requires NonNegativeSizes(levels)
    ensures Depth(levels) >= 0.0
  {
    if levels != [] { DepthNonNegative(levels[1..]); }
  }

  /** A sweep has no price exactly when nothing is asked for or the visible depth is short of it. */
  lemma SweepRefusedIffShort(book: OrderBookSnapshot, side: Side, qty: real)
    requires NonNegativeSizes(SideLevels(book, side))
    ensures SweepPrice(book, side, qty) == None <==> qty <= 0.0 || Depth(SideLevels(book, side)) < qty
  {
    if qty > 0.0 { SweptLeavesTheShortfall(SideLevels(book, side), qty); }
  }

  // ------------------------------------------------------- what a sweep pays

  /** What a sweep takes from one level: what the levels before it leave, up to its size. */
  function TakenFrom(levels: seq<PriceLevel>, qty: real, i: nat): real
    requires i < |levels|
  {
    var left := qty - Depth(levels[..i]);
    if left <= 0.0 then 0.0 else if left <= levels[i].size then left else levels[i].size
  }

  /** All that is taken from level i on, and what it costs level by level. */
  function TakenSince(levels: seq<PriceLevel>, qty: real, i: nat): (real, real)
    requires i <= |levels|
    decreases |levels| - i
  {
    if i == |levels| then (0.0, 0.0)
    else
      var taken, (later, cost) := TakenFrom(levels, qty, i), TakenSince(levels, qty, i + 1);
      (taken + later, Notional(taken, levels[i].price) + cost)
  }

  lemma {:induction false} TakenAfterFirst(levels: seq<PriceLevel>, qty: real, i: nat)
    requires 1 <= i <= |levels|
    ensures TakenSince(levels, qty, i) == TakenSince(levels[1..], qty - levels[0].size, i - 1)
    decreases |levels| - i
  {
    if i < |levels| {
      TakenAfterFirst(levels, qty, i + 1);
      assert levels[..i][1..] == levels[1..][..i - 1];
      hide Notional;
    }
  }

  lemma {:induction false} NothingAfterAll(levels: seq<PriceLevel>, qty: real, i: nat)
    requires NonNegativeSizes(levels) && i <= |levels| && Depth(levels[..i]) >= qty
    ensures TakenSince(levels, qty, i) == (0.0, 0.0)
    decreases |levels| - i
  {
    if i < |levels| {
      DepthGrows(levels, i);
      NothingAfterAll(levels, qty, i + 1);
    }
  }

  lemma {:induction false} DepthGrows(levels: seq<PriceLevel>, i: nat)
    requires NonNegativeSizes(levels) && i < |levels|
    ensures Depth(levels[..i + 1]) == Depth(levels[..i]) + levels[i].size
  {
    if i > 0 {
      DepthGrows(levels[1..], i - 1);
      assert levels[..i + 1][1..] == levels[1..][..i] && levels[..i][1..] == levels[1..][..i - 1];
    } else {
      assert levels[..1][1..] == [];
    }
  }

  lemma {:induction false} SweptIsTaken(levels: seq<PriceLevel>, qty: real)
    requires NonNegativeSizes(levels) && qty > 0.0
    ensures TakenSince(levels, qty, 0) == (qty - Swept(levels, qty).0, Swept(levels, qty).1)
  {
    if levels != [] {
      hide Notional;
      assert levels[..0] == [] && levels[..1] == [levels[0]] && [levels[0]][1..] == [];
      if qty <= levels[0].size {
        NothingAfterAll(levels, qty, 1);
      } else {
        SweptIsTaken(levels[1..], qty - levels[0].size);
        TakenAfterFirst(levels, qty, 1);
      }
    }
  }

  lemma ShareTimesWhole(cost: real, qty: real)
    requires qty != 0.0
    ensures qty * (cost / qty) == cost
  {}

  /** A buy sweeps the asks and a sell the bids. Its price times its quantity is the cost of what it takes from
      each level in turn, and that is the whole quantity. */
  lemma SweepPaysWhatItTakes(book: OrderBookSnapshot, side: Side, qty: real)
    requires qty > 0.0 && SweepPrice(book, side, qty).Some?
    requires NonNegativeSizes(match side case Buy => book.asks case Sell => book.bids)
    ensures TakenSince(match side case Buy => book.asks case Sell => book.bids, qty, 0)
            == (qty, qty * SweepPrice(book, side, qty).value)
  {
    var levels := match side case Buy => book.asks case Sell => book.bids;
    SweptIsTaken(levels, qty);
    SweptLeavesTheShortfall(levels, qty);
    var cost := Swept(levels, qty).1;
    assert SweepPrice(book, side, qty) == Some(cost / qty) && Swept(levels, qty).0 == 0.0;
    ShareTimesWhole(cost, qty);
    assert TakenSince(levels, qty, 0) == (qty, cost);
    assert qty * SweepPrice(book, side, qty).value == cost;
  }

  // ------------------------------------------------------- price bounds

  /** Prices never improve going down the ladder of asks. */
  predicate Ascending(levels: seq<PriceLevel>) {
    forall i, j :: 0 <= i < j < |levels| ==> levels[i].price <= levels[j].price
  }

  /** Price of the last level a sweep of qty takes from. */
  function LastPrice(levels: seq<PriceLevel>, qty: real): real
    requires levels != []
  {
    if |levels| == 1 || qty <= levels[0].size then levels[0].price
    else LastPrice(levels[1..], qty - levels[0].size)
  }

  lemma {:induction false} CostAtLeast(levels: seq<PriceLevel>, qty: real, price: real)
    requires NonNegativeSizes(levels) && 0.0 < qty <= Depth(levels)
    requires forall i :: 0 <= i < |levels| ==> price <= levels[i].price
    ensures Swept(levels, qty).1 >= price * qty
  {
    var p, size := levels[0].price, levels[0].size;
    if size < qty {
      CostAtLeast(levels[1..], qty - size, price);
      ScaledCost(price, p, size);
    } else {
      ScaledCost(price, p, qty);
    }
  }

  lemma ScaledCost(a: real, b: real, k: real)
    requires a <= b && k >= 0.0
    ensures k * a <= Notional(k, b) && Notional(k, a) <= k * b
  {
    Scaled(a, b, k);
  }

  lemma Scaled(a: real, b: real, k: real)
    requires a <= b && k >= 0.0
    ensures a * k <= b * k && k * a <= k * b
  {
    assert (b - a) * k >= 0.0;
  }

  lemma {:induction false} CostAtMost(levels: seq<PriceLevel>, qty: real)
    requires NonNegativeSizes(levels) && Ascending(levels) && 0.0 < qty <= Depth(levels)
    ensures levels[0].price <= LastPrice(levels, qty)
    ensures Swept(levels, qty).1 <= LastPrice(levels, qty) * qty
  {
    if levels[0].size < qty {
      var rest, left, last := levels[1..], qty - levels[0].size, LastPrice(levels, qty);
      CostAtMost(rest, left);
      ScaledCost(levels[0].price, last, levels[0].size);
    }
  }

  /** Every further unit costs at least the last price paid so far. */
  lemma {:induction false} CostGrows(levels: seq<PriceLevel>, less: real, more: real)
    requires NonNegativeSizes(levels) && Ascending(levels) && 0.0 < less <= more <= Depth(levels)
    ensures Swept(levels, more).1 - Swept(levels, less).1 >= LastPrice(levels, less) * (more - less)
  {
    hide Swept, LastPrice, Depth, Notional;
    FirstLevel(levels, less);
    FirstLevel(levels, more);
    var p, size, rest := levels[0].price, levels[0].size, levels[1..];
    if size < less {
      CostGrows(rest, less - size, more - size);
      assert more - size - (less - size) == more - less;
    } else if size < more {
      CostAtLeast(rest, more - size, p);
      DistributeCost(p, size, more - size, less);
    } else {
      DistributeCost(p, more, 0.0, less);
    }
  }

  lemma DistributeCost(p: real, a: real, b: real, c: real)
    ensures Notional(a, p) + p * b - Notional(c, p) == p * (a + b - c)
  {}

  /** A sweep either ends in the first level or exhausts it. */
  lemma FirstLevel(levels: seq<PriceLevel>, qty: real)
    requires NonNegativeSizes(levels) && 0.0 < qty <= Depth(levels)
    ensures levels != []
    ensures var p, size, rest := levels[0].price, levels[0].size, levels[1..];
            if size < qty
            then && rest != [] && 0.0 < qty - size <= Depth(rest)
                 && Swept(levels, qty).1 == Notional(size, p) + Swept(rest, qty - size).1
                 && LastPrice(levels, qty) == LastPrice(rest, qty - size)
            else Swept(levels, qty).1 == Notional(qty, p) && LastPrice(levels, qty) == p
  {
    hide Notional;
    if |levels| == 1 { assert Depth(levels[1..]) == 0.0; }
  }

  lemma MeanGrows(c1: real, c2: real, q1: real, q2: real, last: real)
    requires 0.0 < q1 <= q2 && c1 <= last * q1 && c2 - c1 >= last * (q2 - q1)
    ensures c1 / q1 <= c2 / q2
  {
    var more := q2 - q1;
    Scaled(c1, last * q1, more);
    Scaled(c1 + last * more, c2, q1);
    assert c1 * q2 == c1 * q1 + c1 * more;
    assert (c1 + last * more) * q1 == c1 * q1 + (last * q1) * more;
    CrossMeans(c1, q1, c2, q2);
  }

  lemma CrossMeans(c1: real, q1: real, c2: real, q2: real)
    requires q1 > 0.0 && q2 > 0.0 && c1 * q2 <= c2 * q1
    ensures c1 / q1 <= c2 / q2
  {
    var x, y := c1 / q1, c2 / q2;
    assert x * q1 == c1 && y * q2 == c2;
    var w := q1 * q2;
    assert x * w == c1 * q2 && y * w == c2 * q1;
    OrderedBy(x, y, w);
  }

  lemma OrderedBy(x: real, y: real, w: real)
    requires w > 0.0
    ensures x * w <= y * w <==> x <= y
  {
    if x > y { assert (x - y) * w > 0.0; }
  }

  // -------------------------------------------- the bid side by reflection

  /** Negating prices turns a descending ladder of bids into an ascending one. */
  function Mirror(levels: seq<PriceLevel>): (m: seq<PriceLevel>)
    ensures |m| == |levels|
    ensures forall i :: 0 <= i < |m| ==> m[i] == PriceLevel(-levels[i].price, levels[i].size)
  {
    seq(|levels|, i requires 0 <= i < |levels| => PriceLevel(-levels[i].price, levels[i].size))
  }

  lemma {:induction false} MirrorSweeps(levels: seq<PriceLevel>, qty: real)
    ensures Depth(Mirror(levels)) == Depth(levels)
    ensures Swept(Mirror(levels), qty) == (Swept(levels, qty).0, -Swept(levels, qty).1)
    ensures levels != [] ==> LastPrice(Mirror(levels), qty) == -LastPrice(levels, qty)
  {
    if levels != [] {
      var take := MinReal(qty, levels[0].size);
      assert Notional(take, -levels[0].price) == -Notional(take, levels[0].price);
      hide Notional;
      assert Mirror(levels)[1..] == Mirror(levels[1..]);
      MirrorSweeps(levels[1..], qty - take);
      MirrorSweeps(levels[1..], qty - levels[0].size);
    }
  }

  /** Best level first: asks ascending, bids descending. */
  predicate Sorted(book: OrderBookSnapshot) {
    Ascending(book.asks) && Ascending(Mirror(book.bids))
  }

  lemma AscendingSweep(levels: seq<PriceLevel>, q1: real, q2: real)
    requires NonNegativeSizes(levels) && Ascending(levels) && 0.0 < q1 <= q2 <= Depth(levels)
    ensures levels[0].price <= Swept(levels, q1).1 / q1 <= LastPrice(levels, q1)
    ensures Swept(levels, q1).1 / q1 <= Swept(levels, q2).1 / q2
  {
    hide Swept, LastPrice, Depth;
    assert levels != [] by { EmptyHasNoDepth(levels); }
    CostAtLeast(levels, q1, levels[0].price);
    CostAtMost(levels, q1);
    CostGrows(levels, q1, q2);
    MeanBetween(Swept(levels, q1).1, q1, levels[0].price, LastPrice(levels, q1));
    MeanGrows(Swept(levels, q1).1, Swept(levels, q2).1, q1, q2, LastPrice(levels, q1));
  }

  lemma EmptyHasNoDepth(levels: seq<PriceLevel>)
    requires Depth(levels) > 0.0
    ensures levels != []
  {}

  lemma MeanBetween(c: real, q: real, lo: real, hi: real)
    requires q > 0.0 && lo * q <= c <= hi * q
    ensures lo <= c / q <= hi
  {
    var x := c / q;
    assert x * q == c;
    OrderedBy(lo, x, q);
    OrderedBy(x, hi, q);
  }

  /** The swept price lies between the best price and the last price touched, and a larger order
      never gets a better price: dearer or equal for buys, cheaper or equal for sells. */
  lemma SweepPriceBoundsAndMonotone(book: OrderBookSnapshot, side: Side, q1: real, q2: real)
    requires Sorted(book) && NonNegativeSizes(SideLevels(book, side)) && 0.0 < q1 <= q2
    requires SweepPrice(book, side, q2).Some?
    ensures SweepPrice(book, side, q1).Some?
    ensures var levels, p := SideLevels(book, side), SweepPrice(book, side, q1).value;
            && levels != []
            && (side == Buy ==> levels[0].price <= p <= LastPrice(levels, q1))
            && (side == Sell ==> LastPrice(levels, q1) <= p <= levels[0].price)
    ensures var p1, p2 := SweepPrice(book, side, q1).value, SweepPrice(book, side, q2).value;
            if side == Buy then p1 <= p2 else p2 <= p1
  {
    hide Swept, LastPrice, Depth;
    var levels := SideLevels(book, side);
    SweepRefusedIffShort(book, side, q1);
    SweepRefusedIffShort(book, side, q2);
    EmptyHasNoDepth(levels);
    if side == Buy {
      AscendingSweep(levels, q1, q2);
    } else {
      MirrorSweeps(levels, q1);
      MirrorSweeps(levels, q2);
      AscendingSweep(Mirror(levels), q1, q2);
      NegatedMean(Swept(levels, q1).1, q1);
      NegatedMean(Swept(levels, q2).1, q2);
    }
  }

  lemma NegatedMean(c: real, q: real)
    requires q > 0.0
    ensures -c / q == -(c / q)
  {}
}
