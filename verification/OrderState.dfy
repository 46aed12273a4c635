/** The order state machine: (record, event) -> record or error. */
module OrderStates {
  import opened Results

  datatype Side = Buy | Sell

  datatype OrderState = NEW | SUBMITTED | ACK | PARTIAL | FILLED | CANCELLED | REJECTED | EXPIRED

  datatype OrderEvent =
    | Submit
    | Ack(exchangeOrderId: string)
    | Fill(qty: real, price: real, fee: real, isMaker: bool)
    | Cancel
    | Reject(reason: string)
    | Expire

  const QTY_EPSILON: real := 0.000000001

  predicate IsTerminal(state: OrderState) {
    state in {FILLED, CANCELLED, REJECTED, EXPIRED}
  }

  function Legal(from: OrderState): set<OrderState> {
    match from
    case NEW => {SUBMITTED, REJECTED}
    case SUBMITTED => {ACK, PARTIAL, FILLED, REJECTED, CANCELLED, EXPIRED}
    case ACK => {PARTIAL, FILLED, CANCELLED, EXPIRED, REJECTED}
    case PARTIAL => {PARTIAL, FILLED, CANCELLED, EXPIRED}
    case _ => {}
  }

  predicate CanTransition(from: OrderState, to: OrderState) {
    to in Legal(from)
  }

  datatype OrderRecord = OrderRecord(
    orderLinkId: string, exchangeOrderId: Option<string>, symbol: string, side: Side,
    qty: real, filledQty: real, avgPrice: real, feesPaid: real,
    state: OrderState, rejectReason: Option<string>, revision: nat)

  function NewOrder(id: string, symbol: string, side: Side, qty: real): OrderRecord {
    OrderRecord(id, None, symbol, side, qty, 0.0, 0.0, 0.0, NEW, None, 0)
  }

  datatype OrderError =
    | FillOnTerminal
    | NonPositiveFill
    | Overfill
    | IllegalTransition(from: OrderState, to: OrderState)

  datatype ApplyResult =
    | Ok(order: OrderRecord, transitioned: bool)
    | Err(error: OrderError, order: OrderRecord)

  /** Moves to `to`, taking the patched fields, if the table allows it. */
  function Transition(order: OrderRecord, to: OrderState, patched: OrderRecord): ApplyResult {
    if CanTransition(order.state, to)
    then Ok(patched.(state := to, revision := order.revision + 1), true)
    else Err(IllegalTransition(order.state, to), order)
  }

  function ApplyOrderEvent(order: OrderRecord, event: OrderEvent): ApplyResult {
    if IsTerminal(order.state) then
      if event.Fill? then Err(FillOnTerminal, order) else Ok(order, false)
    else
      match event
      case Submit => Transition(order, SUBMITTED, order)
      case Ack(exchangeId) =>
        if order.state == PARTIAL then Ok(order.(exchangeOrderId := Some(exchangeId)), false)
        else Transition(order, ACK, order.(exchangeOrderId := Some(exchangeId)))
      case Fill(qty, price, fee, _) =>
        if qty <= 0.0 then Err(NonPositiveFill, order)
        else
          var filledQty := order.filledQty + qty;
          if filledQty > order.qty + QTY_EPSILON then Err(Overfill, order)
          else
            var avgPrice := if filledQty > 0.0
                            then (order.avgPrice * order.filledQty + price * qty) / filledQty
                            else 0.0;
            var complete := filledQty >= order.qty - QTY_EPSILON;
            Transition(order, if complete then FILLED else PARTIAL,
                       order.(filledQty := filledQty, avgPrice := avgPrice, feesPaid := order.feesPaid + fee))
      case Cancel => Transition(order, CANCELLED, order)
      case Reject(reason) => Transition(order, REJECTED, order.(rejectReason := Some(reason)))
      case Expire => Transition(order, EXPIRED, order)
  }

  function RemainingQty(order: OrderRecord): real {
    if order.qty - order.filledQty > 0.0 then order.qty - order.filledQty else 0.0
  }

  predicate IsLive(order: OrderRecord) {
    !IsTerminal(order.state)
  }

  // ------------------------------------------------------------ whole runs

  /** The record after a sequence of events; a refused event leaves it as it was. */
  function Run(order: OrderRecord, events: seq<OrderEvent>): OrderRecord {
    if events == [] then order
    else ApplyOrderEvent(Run(order, events[..|events| - 1]), events[|events| - 1]).order
  }

  /** The fills the machine accepted along a run, in order. */
  function AcceptedFills(order: OrderRecord, events: seq<OrderEvent>): (fills: seq<OrderEvent>)
    ensures forall i :: 0 <= i < |fills| ==> fills[i].Fill?
  {
    if events == [] then []
    else
      var before, last := events[..|events| - 1], events[|events| - 1];
      AcceptedFills(order, before)
        + (if last.Fill? && ApplyOrderEvent(Run(order, before), last).Ok? then [last] else [])
  }

  function TotalQty(fills: seq<OrderEvent>): real
    requires forall i :: 0 <= i < |fills| ==> fills[i].Fill?
  {
    if fills == [] then 0.0 else TotalQty(fills[..|fills| - 1]) + fills[|fills| - 1].qty
  }

  function CostOf(price: real, qty: real): real {
    price * qty
  }

  function TotalNotional(fills: seq<OrderEvent>): real
    requires forall i :: 0 <= i < |fills| ==> fills[i].Fill?
  {
    if fills == [] then 0.0
    else TotalNotional(fills[..|fills| - 1]) + CostOf(fills[|fills| - 1].price, fills[|fills| - 1].qty)
  }

  function TotalFees(fills: seq<OrderEvent>): real
    requires forall i :: 0 <= i < |fills| ==> fills[i].Fill?
  {
    if fills == [] then 0.0 else TotalFees(fills[..|fills| - 1]) + fills[|fills| - 1].fee
  }

  /** Average price times quantity: what the fills cost. */
  function FilledNotional(o: OrderRecord): real {
    CostOf(o.avgPrice, o.filledQty)
  }

  /** What every record reachable from a new order satisfies on its own. */
  predicate Sound(o: OrderRecord) {
    && o.filledQty >= 0.0
    && (o.state in {NEW, SUBMITTED, ACK, REJECTED} ==> o.filledQty == 0.0)
    && (o.state in {PARTIAL, CANCELLED, EXPIRED} && o.filledQty > 0.0 ==> o.filledQty < o.qty - QTY_EPSILON)
    && (o.state == PARTIAL ==> o.filledQty > 0.0)
    && (o.state == FILLED ==> o.qty - QTY_EPSILON <= o.filledQty <= o.qty + QTY_EPSILON && o.filledQty > 0.0)
    && (o.filledQty == 0.0 ==> o.avgPrice == 0.0 && o.feesPaid == 0.0)
  }

  lemma SoundStep(o: OrderRecord, event: OrderEvent)
    requires Sound(o)
    ensures var r := ApplyOrderEvent(o, event);
            && Sound(r.order)
            && r.order.(state := o.state, filledQty := o.filledQty, avgPrice := o.avgPrice, feesPaid := o.feesPaid,
                        exchangeOrderId := o.exchangeOrderId, rejectReason := o.rejectReason,
                            revision := o.revision) == o
            && r.order.revision == o.revision + (if r.Ok? && r.transitioned then 1 else 0)
            && (event.Fill? && r.Ok? ==>
                  && r.order.filledQty == o.filledQty + event.qty <= o.qty + QTY_EPSILON && event.qty > 0.0
                  && FilledNotional(r.order) == FilledNotional(o) + CostOf(event.price, event.qty)
                  && r.order.feesPaid == o.feesPaid + event.fee)
            && (!(event.Fill? && r.Ok?) ==>
                  r.order.filledQty == o.filledQty && FilledNotional(r.order) == FilledNotional(o)
                  && r.order.feesPaid == o.feesPaid)
  {}

  /** A new order is unsent, unfilled and as asked for. */
  lemma NewOrderIsBlank(id: string, symbol: string, side: Side, qty: real)
    ensures var o := NewOrder(id, symbol, side, qty);
            && (o.orderLinkId, o.symbol, o.side, o.qty, o.state, o.revision) == (id, symbol, side, qty, NEW, 0)
            && o.filledQty == o.avgPrice == o.feesPaid == 0.0 && o.exchangeOrderId.None? && o.rejectReason.None?
  {}

  /** Which events move an order, from where. */
  predicate Moves(o: OrderRecord, event: OrderEvent) {
    match event
    case Submit => o.state == NEW
    case Ack(_) => o.state == SUBMITTED
    case Fill(qty, _, _, _) =>
      o.state in {SUBMITTED, ACK, PARTIAL} && qty > 0.0 && o.filledQty + qty <= o.qty + QTY_EPSILON
    case Cancel => o.state in {SUBMITTED, ACK, PARTIAL}
    case Reject(_) => o.state in {NEW, SUBMITTED, ACK}
    case Expire => o.state in {SUBMITTED, ACK, PARTIAL}
  }

  /** And where to. */
  function MovesTo(o: OrderRecord, event: OrderEvent): OrderState {
    match event
    case Submit => SUBMITTED
    case Ack(_) => ACK
    case Fill(qty, _, _, _) => if o.qty - (o.filledQty + qty) <= QTY_EPSILON then FILLED else PARTIAL
    case Cancel => CANCELLED
    case Reject(_) => REJECTED
    case Expire => EXPIRED
  }

  /** The whole table: an event moves an order as just said; a repeated acknowledgement of a partly filled order
      only brings its exchange id; a finished order ignores everything but a fill, which is an error; and every
      other event is an error that leaves the record as it was. */
  lemma EventTable(o: OrderRecord, event: OrderEvent)
    ensures var r := ApplyOrderEvent(o, event);
            && (Moves(o, event) ==>
                  && r.Ok? && r.transitioned && r.order.state == MovesTo(o, event)
                  && r.order.exchangeOrderId == (if event.Ack? then Some(event.exchangeOrderId) else o.exchangeOrderId)
                  && r.order.rejectReason == (if event.Reject? then Some(event.reason) else o.rejectReason))
            && (!Moves(o, event) ==>
                  if o.state in {FILLED, CANCELLED, REJECTED, EXPIRED} && !event.Fill? then r == Ok(o, false)
                  else if o.state == PARTIAL && event.Ack?
                  then r == Ok(o.(exchangeOrderId := Some(event.exchangeOrderId)), false)
                  else r.Err? && r.order == o)
            && (r.Err? ==>
                  && (r.error == FillOnTerminal <==> event.Fill? && o.state in {FILLED, CANCELLED, REJECTED, EXPIRED})
                  && (r.error.IllegalTransition? ==> r.error == IllegalTransition(o.state, MovesTo(o, event))))
    ensures IsLive(o) <==> o.state in {NEW, SUBMITTED, ACK, PARTIAL}
  {}

  /** Accounting over every event sequence: the record agrees with the list of accepted fills. */
  lemma {:induction false} RunAccounts(id: string, symbol: string, side: Side, qty: real, events: seq<OrderEvent>)
    ensures var o := NewOrder(id, symbol, side, qty);
            var r, fills := Run(o, events), AcceptedFills(o, events);
            && Sound(r)
            && (r.orderLinkId, r.symbol, r.side, r.qty) == (id, symbol, side, qty)
            && r.filledQty == TotalQty(fills)
            && (r.filledQty <= qty + QTY_EPSILON || fills == [])
            && FilledNotional(r) == TotalNotional(fills)
            && r.feesPaid == TotalFees(fills)
  {
    if events != [] {
      hide ApplyOrderEvent, Sound, FilledNotional, CostOf;
      var o := NewOrder(id, symbol, side, qty);
      var before, last := events[..|events| - 1], events[|events| - 1];
      RunAccounts(id, symbol, side, qty, before);
      SoundStep(Run(o, before), last);
      var fills := AcceptedFills(o, before);
      assert (fills + [last])[..|fills|] == fills && fills + [] == fills;
      assert Run(o, events) == ApplyOrderEvent(Run(o, before), last).order;
    }
  }

  /** A fill is accepted exactly when the order is at the venue, still open, and has room. */
  lemma FillAcceptedIff(o: OrderRecord, fill: OrderEvent)
    requires Sound(o) && fill.Fill?
    ensures ApplyOrderEvent(o, fill).Ok?
            <==> && o.state in {SUBMITTED, ACK, PARTIAL}
                 && fill.qty > 0.0 && o.filledQty + fill.qty <= o.qty + QTY_EPSILON
  {}

  /** Of an order of no negative quantity still open at the venue, exactly the fills of at most the
      remaining quantity, give or take the tolerance, are accepted. */
  lemma RemainingIsWhatFits(o: OrderRecord, fill: OrderEvent)
    requires Sound(o) && fill.Fill? && o.qty >= 0.0 && o.state in {SUBMITTED, ACK, PARTIAL}
    ensures ApplyOrderEvent(o, fill).Ok? <==> 0.0 < fill.qty <= RemainingQty(o) + QTY_EPSILON
    ensures ApplyOrderEvent(o, fill).Ok? && RemainingQty(ApplyOrderEvent(o, fill).order) > QTY_EPSILON
            ==> ApplyOrderEvent(o, fill).order.state == PARTIAL
  {}

  /** What remains is what is not filled, and never below zero. */
  lemma RemainingIsUnfilled(o: OrderRecord)
    ensures RemainingQty(o) == if o.filledQty <= o.qty then o.qty - o.filledQty else 0.0
  {}

  /** Terminal records never change, whatever arrives later. */
  lemma {:induction false} TerminalForever(o: OrderRecord, events: seq<OrderEvent>)
    requires IsTerminal(o.state)
    ensures Run(o, events) == o
  {
    if events != [] { TerminalForever(o, events[..|events| - 1]); }
  }

  /** The average price never leaves the range of the fill prices. */
  lemma {:induction false} AveragePriceWithinFills(id: string, symbol: string, side: Side, qty: real,
                                                   events: seq<OrderEvent>, lo: real, hi: real)
    requires var fills := AcceptedFills(NewOrder(id, symbol, side, qty), events);
             fills != [] && forall i :: 0 <= i < |fills| ==> lo <= fills[i].price <= hi
    ensures lo <= Run(NewOrder(id, symbol, side, qty), events).avgPrice <= hi
  {
    hide Run, AcceptedFills, TotalQty, TotalNotional, TotalFees, Sound, ApplyOrderEvent, CostOf;
    var o := NewOrder(id, symbol, side, qty);
    var r, fills := Run(o, events), AcceptedFills(o, events);
    RunAccounts(id, symbol, side, qty, events);
    FillsArePositive(o, events);
    NotionalWithin(fills, lo, hi);
    MeanWithin(r.avgPrice, r.filledQty, lo, hi);
  }

  lemma MeanWithin(mean: real, weight: real, lo: real, hi: real)
    requires weight > 0.0 && CostOf(lo, weight) <= CostOf(mean, weight) <= CostOf(hi, weight)
    ensures lo <= mean <= hi
  {}

  lemma {:induction false} FillsArePositive(o: OrderRecord, events: seq<OrderEvent>)
    ensures forall i :: 0 <= i < |AcceptedFills(o, events)| ==> AcceptedFills(o, events)[i].qty > 0.0
  {
    if events != [] { FillsArePositive(o, events[..|events| - 1]); }
  }

  lemma {:induction false} NotionalWithin(fills: seq<OrderEvent>, lo: real, hi: real)
    requires forall i :: 0 <= i < |fills| ==> fills[i].Fill? && fills[i].qty > 0.0 && lo <= fills[i].price <= hi
    ensures CostOf(lo, TotalQty(fills)) <= TotalNotional(fills) <= CostOf(hi, TotalQty(fills))
    ensures TotalQty(fills) >= 0.0 && (fills != [] ==> TotalQty(fills) > 0.0)
  {
    assert CostOf(lo, 0.0) == CostOf(hi, 0.0) == 0.0;
    hide CostOf;
    if fills != [] {
      var front, f := fills[..|fills| - 1], fills[|fills| - 1];
      NotionalWithin(front, lo, hi);
      WeightedPrice(lo, f.price, hi, f.qty, TotalQty(front));
    }
  }

  lemma WeightedPrice(lo: real, price: real, hi: real, qty: real, total: real)
    requires lo <= price <= hi && qty > 0.0
    ensures CostOf(lo, qty) <= CostOf(price, qty) <= CostOf(hi, qty)
    ensures CostOf(lo, total + qty) == CostOf(lo, total) + CostOf(lo, qty)
    ensures CostOf(hi, total + qty) == CostOf(hi, total) + CostOf(hi, qty)
  {
    assert (price - lo) * qty >= 0.0 && (hi - price) * qty >= 0.0;
  }
}
