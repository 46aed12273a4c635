/** Diffing local order and position state against the exchange's own view. */
module Reconcilers {
  import opened OrderStates
  import opened Sums

  datatype ExchangeOrder = ExchangeOrder(orderLinkId: string, symbol: string)

  /** size is signed: positive long, negative short. */
  datatype ExchangePosition = ExchangePosition(symbol: string, size: real)

  datatype Drift =
    | PhantomOrder(orderLinkId: string)
    | UntrackedOrder(orderLinkId: string, symbol: string)
    | PositionMismatch(symbol: string, localSize: real, exchangeSize: real)

  const SIZE_EPSILON: real := 0.00000001

  predicate SameSize(a: real, b: real) {
    -SIZE_EPSILON <= a - b <= SIZE_EPSILON
  }

  /** Two sizes are within the tolerance of each other, whichever is the larger. */
  predicate Near(a: real, b: real) {
    a <= b + SIZE_EPSILON && b <= a + SIZE_EPSILON
  }

  /** Venue size per symbol; a later row of the same symbol replaces an earlier one. */
  function BySymbol(rows: seq<ExchangePosition>): map<string, real> {
    if rows == [] then map[]
    else BySymbol(rows[..|rows| - 1])[rows[|rows| - 1].symbol := rows[|rows| - 1].size]
  }

  /** The size the venue lists for a symbol: that of its last row, and nothing where it has none. */
  function VenueSize(rows: seq<ExchangePosition>, symbol: string): real {
    if rows == [] then 0.0
    else if rows[|rows| - 1].symbol == symbol then rows[|rows| - 1].size
    else VenueSize(rows[..|rows| - 1], symbol)
  }

  predicate IsListed(rows: seq<ExchangePosition>, symbol: string) {
    exists i :: 0 <= i < |rows| && rows[i].symbol == symbol
  }

  lemma {:induction false} LastRowCounts(rows: seq<ExchangePosition>, i: nat)
    requires i < |rows| && forall j :: i < j < |rows| ==> rows[j].symbol != rows[i].symbol
    ensures VenueSize(rows, rows[i].symbol) == rows[i].size
  {
    if i < |rows| - 1 { LastRowCounts(rows[..|rows| - 1], i); }
  }

  lemma {:induction false} UnlistedIsFlat(rows: seq<ExchangePosition>, symbol: string)
    requires !IsListed(rows, symbol)
    ensures VenueSize(rows, symbol) == 0.0
  {
    if rows != [] { UnlistedIsFlat(rows[..|rows| - 1], symbol); }
  }

  /** The code's map holds exactly the listed symbols, each under that size. */
  lemma {:induction false} IndexedSizes(rows: seq<ExchangePosition>, symbol: string)
    ensures symbol in BySymbol(rows) <==> IsListed(rows, symbol)
    ensures At(BySymbol(rows), symbol) == VenueSize(rows, symbol)
  {
    if rows != [] {
      var front := rows[..|rows| - 1];
      IndexedSizes(front, symbol);
      assert forall i :: 0 <= i < |front| ==> front[i] == rows[i];
      if rows[|rows| - 1].symbol == symbol {
        assert IsListed(rows, symbol);
      } else if IsListed(rows, symbol) {
        var i :| 0 <= i < |rows| && rows[i].symbol == symbol;
        assert front[i].symbol == symbol;
      }
    }
  }

  function ExchangeIds(orders: seq<ExchangeOrder>): set<string> {
    set i | 0 <= i < |orders| :: orders[i].orderLinkId
  }

  // ------------------------------------------------------- what drift means

  /** Exactly the disagreements between the two views. */
  ghost predicate IsDrift(d: Drift, orders: map<string, OrderRecord>, local: map<string, real>,
                          exchangeOrders: seq<ExchangeOrder>, rows: seq<ExchangePosition>)
  {
    match d
    case PhantomOrder(id) =>
      && id in orders && orders[id].state !in {FILLED, CANCELLED, REJECTED, EXPIRED}
      && forall o :: o in exchangeOrders ==> o.orderLinkId != id
    case UntrackedOrder(id, symbol) =>
      && ExchangeOrder(id, symbol) in exchangeOrders
      && (id in orders ==> orders[id].state in {FILLED, CANCELLED, REJECTED, EXPIRED})
    case PositionMismatch(symbol, localSize, exchangeSize) =>
      && (symbol in local || IsListed(rows, symbol))
      && localSize == At(local, symbol) && exchangeSize == VenueSize(rows, symbol)
      && (localSize - exchangeSize > SIZE_EPSILON || exchangeSize - localSize > SIZE_EPSILON)
  }

  function MismatchSymbols(drift: seq<Drift>): set<string> {
    set i | 0 <= i < |drift| && drift[i].PositionMismatch? :: drift[i].symbol
  }

  /** The drift list contains exactly the disagreements, each mismatched symbol once. */
  ghost predicate Diffs(drift: seq<Drift>, orders: map<string, OrderRecord>, local: map<string, real>,
                        exchangeOrders: seq<ExchangeOrder>, rows: seq<ExchangePosition>)
  {
    && (forall d :: d in drift <==> IsDrift(d, orders, local, exchangeOrders, rows))
    && (forall i, j :: 0 <= i < j < |drift| && drift[i].PositionMismatch? && drift[j].PositionMismatch? ==>
          drift[i].symbol != drift[j].symbol)
  }

  method Reconcile(orders: map<string, OrderRecord>, local: map<string, real>,
                   exchangeOrders: seq<ExchangeOrder>, rows: seq<ExchangePosition>)
    returns (drift: seq<Drift>, clean: bool)
    ensures Diffs(drift, orders, local, exchangeOrders, rows)
    ensures clean <==> drift == []
  {
    var phantoms := FindPhantoms(orders, ExchangeIds(exchangeOrders));
    var untracked := FindUntracked(orders, exchangeOrders);
    var venue := IndexBySymbol(rows);
    var mismatches := FindMismatches(local, venue);
    drift := phantoms + untracked + mismatches;
    forall d
      ensures d in drift <==> IsDrift(d, orders, local, exchangeOrders, rows)
    {
      assert d in drift <==> d in phantoms || d in untracked || d in mismatches;
      if d.PositionMismatch? { IndexedSizes(rows, d.symbol); }
      if d.PhantomOrder? { NotListedIff(exchangeOrders, d.orderLinkId); }
    }
    var base := |phantoms| + |untracked|;
    assert forall i :: 0 <= i < base ==> drift[i] in phantoms || drift[i] in untracked;
    assert forall i :: base <= i < |drift| ==> drift[i] == mismatches[i - base];
    clean := drift == [];
  }

  lemma NotListedIff(exchangeOrders: seq<ExchangeOrder>, id: string)
    ensures id !in ExchangeIds(exchangeOrders) <==> forall o :: o in exchangeOrders ==> o.orderLinkId != id
  {}

  method FindPhantoms(orders: map<string, OrderRecord>, exchangeIds: set<string>) returns (drift: seq<Drift>)
    ensures forall d :: d in drift <==> d.PhantomOrder? && d.orderLinkId in orders && IsLive(orders[d.orderLinkId])
                                        && d.orderLinkId !in exchangeIds
  {
    drift := [];
    var ids := orders.Keys;
    while ids != {}
      invariant ids <= orders.Keys
      invariant forall d :: d in drift <==> d.PhantomOrder? && d.orderLinkId in orders.Keys - ids
                                            && IsLive(orders[d.orderLinkId]) && d.orderLinkId !in exchangeIds
      decreases |ids|
    {
      var id :| id in ids;
      ids := ids - {id};
      if IsLive(orders[id]) && id !in exchangeIds { drift := drift + [PhantomOrder(id)]; }
    }
  }

  method FindUntracked(orders: map<string, OrderRecord>, exchangeOrders: seq<ExchangeOrder>) returns (drift: seq<Drift>)
    ensures forall d :: d in drift <==> d.UntrackedOrder? && ExchangeOrder(d.orderLinkId, d.symbol) in exchangeOrders
                                        && !(d.orderLinkId in orders && IsLive(orders[d.orderLinkId]))
  {
    drift := [];
    for i := 0 to |exchangeOrders|
      invariant forall d :: d in drift <==> d.UntrackedOrder?
                                            && ExchangeOrder(d.orderLinkId, d.symbol) in exchangeOrders[..i]
                                            && !(d.orderLinkId in orders && IsLive(orders[d.orderLinkId]))
    {
      var o := exchangeOrders[i];
      assert exchangeOrders[..i + 1] == exchangeOrders[..i] + [o];
      if !(o.orderLinkId in orders && IsLive(orders[o.orderLinkId])) {
        drift := drift + [UntrackedOrder(o.orderLinkId, o.symbol)];
      }
    }
    assert exchangeOrders[..|exchangeOrders|] == exchangeOrders;
  }

  method IndexBySymbol(rows: seq<ExchangePosition>) returns (venue: map<string, real>)
    ensures venue == BySymbol(rows)
  {
    venue := map[];
    for i := 0 to |rows|
      invariant venue == BySymbol(rows[..i])
    {
      assert rows[..i + 1][..i] == rows[..i];
      venue := venue[rows[i].symbol := rows[i].size];
    }
    assert rows[..|rows|] == rows;
  }

  method FindMismatches(local: map<string, real>, venue: map<string, real>) returns (drift: seq<Drift>)
    ensures forall d :: d in drift <==> d.PositionMismatch? && d.symbol in local.Keys + venue.Keys
                                        && d.localSize == At(local, d.symbol) && d.exchangeSize == At(venue, d.symbol)
                                        && !SameSize(d.localSize, d.exchangeSize)
    ensures forall i, j :: 0 <= i < j < |drift| ==> drift[i].symbol != drift[j].symbol
  {
    drift := [];
    var all := local.Keys + venue.Keys;
    var symbols := all;
    while symbols != {}
      invariant symbols <= all
      invariant forall d :: d in drift <==> d.PositionMismatch? && d.symbol in all - symbols
                                            && d.localSize == At(local, d.symbol)
                                            && d.exchangeSize == At(venue, d.symbol)
                                            && !SameSize(d.localSize, d.exchangeSize)
      invariant forall i, j :: 0 <= i < j < |drift| ==> drift[i].symbol != drift[j].symbol
      decreases |symbols|
    {
      var symbol :| symbol in symbols;
      symbols := symbols - {symbol};
      var l, e := At(local, symbol), At(venue, symbol);
      if !SameSize(l, e) {
        assert forall d :: d in drift ==> d.symbol != symbol;
        drift := drift + [PositionMismatch(symbol, l, e)];
      }
    }
  }

  /** The overrides to apply: every mismatched symbol to the venue's size. */
  method PositionCorrections(drift: seq<Drift>) returns (corrections: map<string, real>)
    requires forall i, j :: 0 <= i < j < |drift| && drift[i].PositionMismatch? && drift[j].PositionMismatch? ==>
               drift[i].symbol != drift[j].symbol
    ensures corrections.Keys == MismatchSymbols(drift)
    ensures forall d :: d in drift && d.PositionMismatch? ==> corrections[d.symbol] == d.exchangeSize
  {
    corrections := map[];
    for i := 0 to |drift|
      invariant corrections.Keys == set k | 0 <= k < i && drift[k].PositionMismatch? :: drift[k].symbol
      invariant forall k :: 0 <= k < i && drift[k].PositionMismatch? ==>
                  corrections[drift[k].symbol] == drift[k].exchangeSize
    {
      if drift[i].PositionMismatch? { corrections := corrections[drift[i].symbol := drift[i].exchangeSize]; }
    }
  }

  /** A symbol is overridden exactly when it is tracked by either side and the sizes differ. */
  lemma CorrectedSymbols(drift: seq<Drift>, orders: map<string, OrderRecord>, local: map<string, real>,
                         exchangeOrders: seq<ExchangeOrder>, rows: seq<ExchangePosition>, symbol: string)
    requires Diffs(drift, orders, local, exchangeOrders, rows)
    ensures symbol in MismatchSymbols(drift)
            <==> (symbol in local || IsListed(rows, symbol)) && !SameSize(At(local, symbol), VenueSize(rows, symbol))
  {
    var d := PositionMismatch(symbol, At(local, symbol), VenueSize(rows, symbol));
    assert d in drift <==> IsDrift(d, orders, local, exchangeOrders, rows);
    if symbol in MismatchSymbols(drift) {
      var i :| 0 <= i < |drift| && drift[i].PositionMismatch? && drift[i].symbol == symbol;
      assert drift[i] in drift;
    }
  }
}
