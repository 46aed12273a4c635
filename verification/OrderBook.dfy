/** Rebuilding a venue's order book from a snapshot and a stream of deltas. */
module OrderBooks {
  import opened Results
  import opened Events

  /** A number as the venue sends it: parsed, or not a finite number at all. */
  datatype RawNumber = Finite(value: real) | NotFinite

  datatype RawLevel = RawLevel(price: RawNumber, size: RawNumber)

  datatype BookHealth = EMPTY | HEALTHY | STALE

  datatype BookUpdate = BookUpdate(isSnapshot: bool, u: int, seqNo: Option<int>,
                                   bids: seq<RawLevel>, asks: seq<RawLevel>, exchangeTs: int)

  datatype Stats = Stats(snapshots: nat, deltas: nat, gaps: nat, crossed: nat, rejected: nat)

  datatype Gap = Gap(expected: int, received: int)

  datatype ApplyResult = ApplyResult(applied: bool, gap: Option<Gap>)

  type Levels = map<real, real>

  /** Size zero removes the level; values that are not finite are skipped. */
  function SetLevel(levels: Levels, raw: RawLevel): Levels {
    if raw.price.NotFinite? || raw.size.NotFinite? then levels
    else if raw.size.value == 0.0 then levels - {raw.price.value}
    else levels[raw.price.value := raw.size.value]
  }

  function SetLevels(levels: Levels, raws: seq<RawLevel>): Levels {
    if raws == [] then levels else SetLevel(SetLevels(levels, raws[..|raws| - 1]), raws[|raws| - 1])
  }

  // ------------------------------------------------- what an update states

  /** The size an update states for a price, the last one counting; entries that are not numbers state nothing. */
  function LastStated(raws: seq<RawLevel>, price: real): Option<real> {
    if raws == [] then None
    else
      var last := raws[|raws| - 1];
      if last.price == Finite(price) && last.size.Finite? then Some(last.size.value)
      else LastStated(raws[..|raws| - 1], price)
  }

  /** One side after an update: prices it does not state are as they were, those it states are there with
      the stated size, or not at all if that is zero. */
  ghost predicate Restated(before: Levels, raws: seq<RawLevel>, after: Levels) {
    forall price ::
      match LastStated(raws, price)
      case None => (price in after <==> price in before) && (price in before ==> after[price] == before[price])
      case Some(size) => if size == 0.0 then price !in after else price in after && after[price] == size
  }

  /** The code's loop leaves just that, and nothing else would be that. */
  lemma {:induction false} LevelsAreRestated(before: Levels, raws: seq<RawLevel>, after: Levels)
    ensures Restated(before, raws, after) <==> after == SetLevels(before, raws)
  {
    LevelsFollow(before, raws);
    if Restated(before, raws, after) { OneRestatement(before, raws, after, SetLevels(before, raws)); }
  }

  lemma {:induction false} LevelsFollow(before: Levels, raws: seq<RawLevel>)
    ensures Restated(before, raws, SetLevels(before, raws))
  {
    if raws != [] { LevelsFollow(before, raws[..|raws| - 1]); }
  }

  lemma OneRestatement(before: Levels, raws: seq<RawLevel>, a: Levels, b: Levels)
    requires Restated(before, raws, a) && Restated(before, raws, b)
    ensures a == b
  {
    forall price ensures (price in a <==> price in b) && (price in a ==> a[price] == b[price]) {
      var _ := LastStated(raws, price);
    }
  }

  /** The best bid is at or above the best ask. */
  ghost predicate Crossed(bids: Levels, asks: Levels) {
    exists bid, ask :: bid in bids && ask in asks && bid >= ask
  }

  datatype BookState = BookState(bids: Levels, asks: Levels, lastU: int, lastSeq: int, health: BookHealth,
                                 lastUpdateTs: int, stats: Stats)

  const NO_BOOK: BookState := BookState(map[], map[], -1, -1, EMPTY, 0, Stats(0, 0, 0, 0, 0))

  // ------------------------------------------------------------ transitions

  ghost function Validated(st: BookState): (BookState, ApplyResult) {
    if Crossed(st.bids, st.asks)
    then (st.(health := STALE, stats := st.stats.(crossed := st.stats.crossed + 1)), ApplyResult(false, None))
    else (st, ApplyResult(true, None))
  }

  ghost function SnapshotApplied(st: BookState, m: BookUpdate): (BookState, ApplyResult) {
    Validated(BookState(SetLevels(map[], m.bids), SetLevels(map[], m.asks), m.u, m.seqNo.GetOr(-1), HEALTHY,
                        m.exchangeTs, st.stats.(snapshots := st.stats.snapshots + 1)))
  }

  ghost function DeltaApplied(st: BookState, m: BookUpdate): (BookState, ApplyResult) {
    if st.health != HEALTHY then (st.(stats := st.stats.(rejected := st.stats.rejected + 1)), ApplyResult(false, None))
    else if m.u <= st.lastU then (st, ApplyResult(false, None))
    else if m.u != st.lastU + 1 then
      (st.(health := STALE, stats := st.stats.(gaps := st.stats.gaps + 1)),
       ApplyResult(false, Some(Gap(st.lastU + 1, m.u))))
    else
      Validated(st.(bids := SetLevels(st.bids, m.bids), asks := SetLevels(st.asks, m.asks), lastU := m.u,
                    lastSeq := m.seqNo.GetOr(st.lastSeq), lastUpdateTs := m.exchangeTs,
                    stats := st.stats.(deltas := st.stats.deltas + 1)))
  }

  ghost function Applied(st: BookState, m: BookUpdate): (BookState, ApplyResult) {
    if m.isSnapshot then SnapshotApplied(st, m) else DeltaApplied(st, m)
  }

  function Invalidated(st: BookState): BookState {
    if st.health != EMPTY then st.(health := STALE) else st
  }

  function Cleared(st: BookState): BookState {
    NO_BOOK.(lastUpdateTs := st.lastUpdateTs, stats := st.stats)
  }

  // ------------------------------------------------------------ sorted views

  predicate Better(a: real, b: real, descending: bool) {
    if descending then a > b else a < b
  }

  predicate StrictlySorted(view: seq<PriceLevel>, descending: bool) {
    forall i, j :: 0 <= i < j < |view| ==> Better(view[i].price, view[j].price, descending)
  }

  /** The levels, best first, each exactly once. */
  ghost predicate SortedView(levels: Levels, descending: bool, view: seq<PriceLevel>) {
    && StrictlySorted(view, descending)
    && |view| == |levels|
    && forall level :: level in view <==> level.price in levels && levels[level.price] == level.size
  }

  /** There is only one way to sort the levels of a book. */
  lemma {:induction false} SortedViewIsUnique(levels: Levels, descending: bool, v: seq<PriceLevel>, w: seq<PriceLevel>)
    requires SortedView(levels, descending, v) && SortedView(levels, descending, w)
    ensures v == w
    decreases |v|
  {
    if v != [] {
      FirstIsBest(levels, descending, v);
      FirstIsBest(levels, descending, w);
      assert v[0] in w && w[0] in v;
      assert v[0] == w[0];
      var rest := levels - {v[0].price};
      RestIsSorted(levels, descending, v);
      RestIsSorted(levels, descending, w);
      SortedViewIsUnique(rest, descending, v[1..], w[1..]);
      assert v == [v[0]] + v[1..] && w == [w[0]] + w[1..];
    }
  }

  lemma FirstIsBest(levels: Levels, descending: bool, v: seq<PriceLevel>)
    requires SortedView(levels, descending, v) && v != []
    ensures forall level :: level in v ==> level == v[0] || Better(v[0].price, level.price, descending)
  {}

  lemma RestIsSorted(levels: Levels, descending: bool, v: seq<PriceLevel>)
    requires SortedView(levels, descending, v) && v != []
    ensures SortedView(levels - {v[0].price}, descending, v[1..])
  {
    var rest, tail := levels - {v[0].price}, v[1..];
    assert v[0] in v;
    assert levels.Keys - {v[0].price} == rest.Keys;
    forall level
      ensures level in tail <==> level.price in rest && rest[level.price] == level.size
    {
      if level in tail {
        var i :| 0 <= i < |tail| && tail[i] == level;
        assert v[i + 1] == level && level in v && Better(v[0].price, v[i + 1].price, descending);
      }
      if level.price in rest && rest[level.price] == level.size {
        assert level in v;
        var i :| 0 <= i < |v| && v[i] == level;
        assert i > 0 && tail[i - 1] == level;
      }
    }
  }

  /** The best `depth` levels: sorted, taken from the book, and none left out is better. */
  ghost predicate BestLevels(levels: Levels, descending: bool, depth: nat, view: seq<PriceLevel>) {
    && StrictlySorted(view, descending)
    && |view| == (if depth <= |levels| then depth else |levels|)
    && (forall level :: level in view ==> level.price in levels && levels[level.price] == level.size)
    && (forall price :: price in levels && PriceLevel(price, levels[price]) !in view ==>
          forall level :: level in view ==> Better(level.price, price, descending))
  }

  lemma CutIsBest(levels: Levels, descending: bool, depth: nat, view: seq<PriceLevel>)
    requires SortedView(levels, descending, view)
    ensures BestLevels(levels, descending, depth, if depth <= |view| then view[..depth] else view)
  {
    var cut := if depth <= |view| then view[..depth] else view;
    assert forall k :: 0 <= k < |cut| ==> cut[k] == view[k] && cut[k] in cut;
    assert forall level :: level in cut ==> level in view;
    forall price, level | price in levels && PriceLevel(price, levels[price]) !in cut && level in cut
      ensures Better(level.price, price, descending)
    {
      LeftOutIsWorse(levels, descending, view, |cut|, price, level);
    }
  }

  lemma LeftOutIsWorse(levels: Levels, descending: bool, view: seq<PriceLevel>, n: nat, price: real, level: PriceLevel)
    requires SortedView(levels, descending, view) && n <= |view|
    requires price in levels && PriceLevel(price, levels[price]) !in view[..n] && level in view[..n]
    ensures Better(level.price, price, descending)
  {
    var worse := PriceLevel(price, levels[price]);
    assert worse in view;
    var j :| 0 <= j < |view| && view[j] == worse;
    var i :| 0 <= i < n && view[i] == level;
    assert forall k :: 0 <= k < n ==> view[k] in view[..n];
  }

  // -------------------------------------------------------------- the class

  lemma NoMembers(prices: set<real>)
    requires forall price: real :: price !in prices
    ensures prices == {}
  {
    forall price | price in prices ensures false {}
  }

  lemma HasMember(prices: set<real>)
    requires prices != {}
    ensures exists price: real :: price in prices
  {
    if forall price: real :: price !in prices { NoMembers(prices); }
  }

  /** Some element of a set: the iteration order of a map is left open. */
  method AnyOf(prices: set<real>) returns (price: real)
    requires prices != {}
    ensures price in prices
  {
    HasMember(prices);
    price :| price in prices;
  }

  method SortLevels(levels: Levels, descending: bool) returns (out: seq<PriceLevel>)
    ensures SortedView(levels, descending, out)
  {
    hide StrictlySorted;
    out := [];
    var prices := levels.Keys;
    ghost var done: Levels := map[];
    assert SortedView(done, descending, out) by { EmptyView(descending); }
    while prices != {}
      invariant prices <= levels.Keys && done == levels - prices
      invariant SortedView(done, descending, out)
      decreases |prices|
    {
      hide SortedView;
      var price := AnyOf(prices);
      assert price !in done;
      out := InsertLevel(done, out, PriceLevel(price, levels[price]), descending);
      PutBack(levels, prices, price);
      prices := prices - {price};
      done := done[price := levels[price]];
    }
    assert levels - {} == levels;
  }

  lemma PutBack(levels: Levels, prices: set<real>, price: real)
    requires price in prices && prices <= levels.Keys
    ensures (levels - prices)[price := levels[price]] == levels - (prices - {price})
  {}

  lemma EmptyView(descending: bool)
    ensures SortedView(map[], descending, [])
  {}

  method InsertLevel(ghost levels: Levels, view: seq<PriceLevel>, level: PriceLevel,
                     descending: bool)
    returns (out: seq<PriceLevel>)
    requires SortedView(levels, descending, view) && level.price !in levels
    ensures SortedView(levels[level.price := level.size], descending, out)
  {
    var i := 0;
    while i < |view| && Better(view[i].price, level.price, descending)
      invariant 0 <= i <= |view|
      invariant forall k :: 0 <= k < i ==> Better(view[k].price, level.price, descending)
    {
      i := i + 1;
    }
    out := view[..i] + [level] + view[i..];
    InsertedView(levels, view, level, descending, i, out);
  }

  lemma InsertedView(levels: Levels, view: seq<PriceLevel>, level: PriceLevel, descending: bool, i: nat,
                     out: seq<PriceLevel>)
    requires SortedView(levels, descending, view) && level.price !in levels
    requires i <= |view| && out == view[..i] + [level] + view[i..]
    requires forall k :: 0 <= k < i ==> Better(view[k].price, level.price, descending)
    requires i < |view| ==> !Better(view[i].price, level.price, descending)
    ensures SortedView(levels[level.price := level.size], descending, out)
  {
    assert forall k :: 0 <= k < |view| ==> view[k] in view && view[k].price != level.price;
    InsertedOrder(view, level, descending, i);
    hide StrictlySorted, Better;
    var all := levels[level.price := level.size];
    assert all.Keys == levels.Keys + {level.price} && |all| == |levels| + 1;
    forall other
      ensures other in out <==> other.price in all && all[other.price] == other.size
    {
      InsertedMember(levels, view, level, i, other);
    }
  }

  lemma InsertedMember(levels: Levels, view: seq<PriceLevel>, level: PriceLevel, i: nat, other: PriceLevel)
    requires other in view <==> other.price in levels && levels[other.price] == other.size
    requires i <= |view| && level.price !in levels
    ensures var all := levels[level.price := level.size];
            other in view[..i] + [level] + view[i..] <==> other.price in all && all[other.price] == other.size
  {
    MembersOfInsertion(view, level, i, other);
    if other.price == level.price && other.size == level.size { assert other == level; }
  }

  lemma InsertedOrder(view: seq<PriceLevel>, level: PriceLevel, descending: bool, i: nat)
    requires StrictlySorted(view, descending) && i <= |view|
    requires forall k :: 0 <= k < |view| ==> view[k].price != level.price
    requires forall k :: 0 <= k < i ==> Better(view[k].price, level.price, descending)
    requires i < |view| ==> !Better(view[i].price, level.price, descending)
    ensures StrictlySorted(view[..i] + [level] + view[i..], descending)
  {
    var out := view[..i] + [level] + view[i..];
    assert forall k :: i <= k < |view| ==> Better(level.price, view[k].price, descending);
    forall a, b | 0 <= a < b < |out|
      ensures Better(out[a].price, out[b].price, descending)
    {
      assert out[a] == if a < i then view[a] else if a == i then level else view[a - 1];
      assert out[b] == if b < i then view[b] else if b == i then level else view[b - 1];
    }
  }

  lemma MembersOfInsertion(view: seq<PriceLevel>, level: PriceLevel, i: nat, other: PriceLevel)
    requires i <= |view|
    ensures other in view[..i] + [level] + view[i..] <==> other in view || other == level
  {
    assert view == view[..i] + view[i..];
  }

  class OrderBook {
    const depth: nat
    var bidLevels: Levels
    var askLevels: Levels
    var lastU: int
    var lastSeq: int
    var health: BookHealth
    var lastUpdateTs: int
    var stats: Stats

    ghost function State(): BookState
      reads this
    {
      BookState(bidLevels, askLevels, lastU, lastSeq, health, lastUpdateTs, stats)
    }

    constructor (depth: nat)
      ensures State() == NO_BOOK && this.depth == depth
    {
      this.depth := depth;
      bidLevels, askLevels, lastU, lastSeq, health := map[], map[], -1, -1, EMPTY;
      lastUpdateTs, stats := 0, Stats(0, 0, 0, 0, 0);
    }

    /** The only read path for prices: nothing unless the book is healthy. */
    method Snapshot() returns (view: Option<OrderBookSnapshot>)
      ensures view.Some? <==> health == HEALTHY
      ensures view.Some? ==> ShowsBook(State(), depth, view.value)
    {
      if health != HEALTHY { return None; }
      var bids := SortLevels(bidLevels, true);
      var asks := SortLevels(askLevels, false);
      CutIsBest(bidLevels, true, depth, bids);
      CutIsBest(askLevels, false, depth, asks);
      view := Some(OrderBookSnapshot(if depth <= |bids| then bids[..depth] else bids,
                                     if depth <= |asks| then asks[..depth] else asks));
    }

    method Apply(m: BookUpdate) returns (r: ApplyResult)
      modifies this
      ensures (State(), r) == Applied(old(State()), m)
    {
      if m.isSnapshot { r := ApplySnapshot(m); } else { r := ApplyDelta(m); }
    }

    method ApplySnapshot(m: BookUpdate) returns (r: ApplyResult)
      modifies this
      ensures (State(), r) == SnapshotApplied(old(State()), m)
      ensures Restated(map[], m.bids, bidLevels) && Restated(map[], m.asks, askLevels)
      ensures lastU == m.u && lastUpdateTs == m.exchangeTs && lastSeq == m.seqNo.GetOr(-1)
      ensures health == if Crossed(bidLevels, askLevels) then STALE else HEALTHY
      ensures r == ApplyResult(health == HEALTHY, None)
      ensures stats == old(stats).(snapshots := old(stats).snapshots + 1,
                                   crossed := old(stats).crossed + if health == STALE then 1 else 0)
    {
      LevelsFollow(map[], m.bids);
      LevelsFollow(map[], m.asks);
      bidLevels := WriteLevels(map[], m.bids);
      askLevels := WriteLevels(map[], m.asks);
      lastU, lastSeq, lastUpdateTs := m.u, m.seqNo.GetOr(-1), m.exchangeTs;
      stats := stats.(snapshots := stats.snapshots + 1);
      health := HEALTHY;
      r := Validate();
    }

    method ApplyDelta(m: BookUpdate) returns (r: ApplyResult)
      modifies this
      ensures (State(), r) == DeltaApplied(old(State()), m)
      ensures old(health) != HEALTHY ==>
                && r == ApplyResult(false, None)
                && State() == old(State()).(stats := old(stats).(rejected := old(stats).rejected + 1))
      ensures old(health) == HEALTHY && m.u <= old(lastU) ==> r == ApplyResult(false, None) && State() == old(State())
      ensures old(health) == HEALTHY && m.u > old(lastU) + 1 ==>
                && r == ApplyResult(false, Some(Gap(old(lastU) + 1, m.u)))
                && State() == old(State()).(health := STALE, stats := old(stats).(gaps := old(stats).gaps + 1))
      ensures old(health) == HEALTHY && m.u == old(lastU) + 1 ==>
                && Restated(old(bidLevels), m.bids, bidLevels) && Restated(old(askLevels), m.asks, askLevels)
                && lastU == m.u && lastUpdateTs == m.exchangeTs && lastSeq == m.seqNo.GetOr(old(lastSeq))
                && health == (if Crossed(bidLevels, askLevels) then STALE else HEALTHY)
                && r == ApplyResult(health == HEALTHY, None)
                && stats == old(stats).(deltas := old(stats).deltas + 1,
                                        crossed := old(stats).crossed + if health == STALE then 1 else 0)
    {
      LevelsFollow(bidLevels, m.bids);
      LevelsFollow(askLevels, m.asks);
      hide Restated, Crossed;
      if health == EMPTY || health == STALE {
        stats := stats.(rejected := stats.rejected + 1);
        return ApplyResult(false, None);
      }
      var expected := lastU + 1;
      if m.u != expected {
        if m.u <= lastU { return ApplyResult(false, None); }
        stats := stats.(gaps := stats.gaps + 1);
        health := STALE;
        return ApplyResult(false, Some(Gap(expected, m.u)));
      }
      bidLevels := WriteLevels(bidLevels, m.bids);
      askLevels := WriteLevels(askLevels, m.asks);
      lastU, lastUpdateTs := m.u, m.exchangeTs;
      if m.seqNo.Some? { lastSeq := m.seqNo.value; }
      stats := stats.(deltas := stats.deltas + 1);
      r := Validate();
    }

    method Validate() returns (r: ApplyResult)
      modifies this`health, this`stats
      ensures (State(), r) == Validated(old(State()))
    {
      var bestBid := BestKey(bidLevels, true);
      var bestAsk := BestKey(askLevels, false);
      if bestBid.Some? && bestAsk.Some? && bestBid.value >= bestAsk.value {
        stats := stats.(crossed := stats.crossed + 1);
        health := STALE;
        return ApplyResult(false, None);
      }
      r := ApplyResult(true, None);
    }

    method Invalidate()
      modifies this`health
      ensures State() == Invalidated(old(State()))
      ensures health == if old(health) == EMPTY then EMPTY else STALE
    {
      if health != EMPTY { health := STALE; }
    }

    method Reset()
      modifies this
      ensures State() == Cleared(old(State()))
      ensures bidLevels == map[] && askLevels == map[] && lastU == lastSeq == -1 && health == EMPTY
      ensures lastUpdateTs == old(lastUpdateTs) && stats == old(stats)
    {
      bidLevels, askLevels, lastU, lastSeq, health := map[], map[], -1, -1, EMPTY;
    }
  }

  method WriteLevels(levels: Levels, raws: seq<RawLevel>) returns (out: Levels)
    ensures out == SetLevels(levels, raws) && Restated(levels, raws, out)
  {
    LevelsFollow(levels, raws);
    out := levels;
    for i := 0 to |raws|
      invariant out == SetLevels(levels, raws[..i])
    {
      assert raws[..i + 1][..i] == raws[..i];
      out := SetLevel(out, raws[i]);
    }
    assert raws[..|raws|] == raws;
  }

  ghost predicate IsExtreme(levels: Levels, best: real, largest: bool, among: set<real>) {
    best in levels && forall price :: price in among ==> if largest then price <= best else price >= best
  }

  lemma NoKeys(levels: Levels)
    ensures levels.Keys == {} <==> levels == map[]
  {}

  lemma ExtremeStep(levels: Levels, best: Option<real>, price: real, largest: bool, left: set<real>)
    requires left <= levels.Keys && price in left
    requires best.None? ==> left == levels.Keys
    requires best.Some? ==> IsExtreme(levels, best.value, largest, levels.Keys - left)
    ensures IsExtreme(levels, if best.None? || Better(price, best.value, largest) then price else best.value, largest,
                      levels.Keys - (left - {price}))
  {
    assert levels.Keys - (left - {price}) == levels.Keys - left + {price};
  }

  /** Largest or smallest price, None for an empty side. */
  method BestKey(levels: Levels, largest: bool) returns (best: Option<real>)
    ensures best.None? <==> levels == map[]
    ensures best.Some? ==> IsExtreme(levels, best.value, largest, levels.Keys)
  {
    NoKeys(levels);
    hide IsExtreme, Better;
    best := None;
    var prices := levels.Keys;
    while prices != {}
      invariant prices <= levels.Keys
      invariant best.None? ==> prices == levels.Keys
      invariant best.Some? ==> best.value in levels
      invariant best.Some? ==> IsExtreme(levels, best.value, largest, levels.Keys - prices)
      decreases |prices|
    {
      var price := AnyOf(prices);
      ExtremeStep(levels, best, price, largest, prices);
      if best.None? || Better(price, best.value, largest) { best := Some(price); }
      prices := prices - {price};
    }
    assert levels.Keys - {} == levels.Keys;
  }

  /** What a consumer sees of a state: the best levels of each side. */
  ghost predicate ShowsBook(st: BookState, depth: nat, view: OrderBookSnapshot) {
    BestLevels(st.bids, true, depth, view.bids) && BestLevels(st.asks, false, depth, view.asks)
  }
}
