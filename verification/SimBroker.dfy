/** The simulated venue: latency, book depth, fees and queue position. */
module SimBrokers {
  import opened Results
  import opened OrderStates
  import opened Events
  import opened Engines

  datatype SimConfig = SimConfig(latencyMs: int, makerFeeRate: real, takerFeeRate: real,
                                 queueAheadFactor: real, maxSlippageBps: real)

  datatype PendingOrder = PendingOrder(
    orderLinkId: string, symbol: string, side: Side, qty: real, filled: real,
    limitPrice: Option<real>, postOnly: bool, visibleAt: int, queueAhead: real, acked: bool)

  /** `queue` lists the pending ids in insertion order, the order in which `Step` visits them. */
  datatype SimState = SimState(
    pending: map<string, PendingOrder>, queue: seq<string>, outbox: seq<BrokerEvent>,
    books: map<string, OrderBookSnapshot>, seen: set<string>)

  const EMPTY: SimState := SimState(map[], [], [], map[], {})

  const PRICE_EPSILON: real := 0.000000001

  predicate AtPrice(a: real, b: real) {
    -PRICE_EPSILON < a - b < PRICE_EPSILON
  }

  // ----------------------------------------------------------------- submit

  function NearTouch(book: OrderBookSnapshot, side: Side): Option<real> {
    if side == Buy then TopOfBook(book).bid else TopOfBook(book).ask
  }

  function LimitPriceOf(style: ExecutionStyle, book: OrderBookSnapshot, side: Side): Option<real> {
    match style
    case Limit(price, _) => Some(price)
    case Passive(_) => NearTouch(book, side)
    case _ => None
  }

  function PostOnly(style: ExecutionStyle): bool {
    style.Passive? || (style.Limit? && style.postOnly)
  }

  function SizeAt(levels: seq<PriceLevel>, price: real): real {
    if levels == [] then 0.0
    else if AtPrice(levels[0].price, price) then levels[0].size
    else SizeAt(levels[1..], price)
  }

  /** How much other size stands before a resting order, scaled by the configured factor. */
  function QueueAheadAt(cfg: SimConfig, book: OrderBookSnapshot, side: Side, price: real): real {
    SizeAt(if side == Buy then book.bids else book.asks, price) * cfg.queueAheadFactor
  }

  /** Why a marketable order is refused against the current book. */
  function MarketRefusal(cfg: SimConfig, book: OrderBookSnapshot, intent: OrderIntent): Option<string> {
    var swept := SweepPrice(book, intent.side, intent.qty);
    if swept.None? then Some("Insufficient book depth")
    else
      var mid := TopOfBook(book).mid;
      if mid.Some? && mid.value > 0.0 then
        var signed := if intent.side == Buy then swept.value - mid.value else mid.value - swept.value;
        if ExceedsLimitBps(signed / mid.value * 10000.0, intent.maxSlippageBps.GetOr(cfg.maxSlippageBps))
        then Some("Projected slippage exceeds the limit") else None
      else None
  }

  function Refused(reason: string, duplicate: bool): SubmitAck {
    SubmitAck(false, None, Some(reason), duplicate)
  }

  function PendingFor(cfg: SimConfig, book: OrderBookSnapshot, intent: OrderIntent, at: int): PendingOrder {
    var limit := LimitPriceOf(intent.style, book, intent.side);
    PendingOrder(intent.id, intent.symbol, intent.side, intent.qty, 0.0, limit, PostOnly(intent.style),
                 at + cfg.latencyMs, if limit.None? then 0.0 else QueueAheadAt(cfg, book, intent.side, limit.value),
                     false)
  }

  function Submitted(st: SimState, cfg: SimConfig, intent: OrderIntent, at: int): (SimState, SubmitAck) {
    if intent.id in st.seen then (st, Refused("Duplicate orderLinkId", true))
    else
      var st1 := st.(seen := st.seen + {intent.id});
      if intent.symbol !in st.books then (st1, Refused("No book for symbol", false))
      else
        var book := st.books[intent.symbol];
        var refusal := if LimitPriceOf(intent.style, book, intent.side).None?
            then MarketRefusal(cfg, book, intent) else None;
        if refusal.Some? then (st1, Refused(refusal.value, false))
        else
          (st1.(pending := st.pending[intent.id := PendingFor(cfg, book, intent, at)], queue := st.queue + [intent.id]),
           SubmitAck(true, Some("sim-" + intent.id), None, false))
  }

  // ----------------------------------------------------------------- cancel

  function Without(queue: seq<string>, id: string): seq<string> {
    if queue == [] then []
    else if queue[0] == id then queue[1..]
    else [queue[0]] + Without(queue[1..], id)
  }

  function Emit(st: SimState, e: BrokerEvent): SimState {
    st.(outbox := st.outbox + [e])
  }

  /** Drops a pending order and emits its last event. */
  function Close(st: SimState, id: string, e: BrokerEvent): SimState {
    Emit(st.(pending := st.pending - {id}, queue := Without(st.queue, id)), e)
  }

  function Cancelled(st: SimState, cfg: SimConfig, id: string, at: int): SimState {
    if id in st.pending then Close(st, id, BrokerEvent(id, Cancel, at + cfg.latencyMs)) else st
  }

  function CancelledEach(st: SimState, cfg: SimConfig, ids: seq<string>, at: int): SimState {
    if ids == [] then st else Cancelled(CancelledEach(st, cfg, ids[..|ids| - 1], at), cfg, ids[|ids| - 1], at)
  }

  // ------------------------------------------------------------------- step

  /** What a step tells the venue about the market. */
  datatype Tape = Tape(now: int, symbol: string, book: OrderBookSnapshot, tradedVolume: real, tradePrice: Option<real>)

  function Acked(st: SimState, id: string, now: int): SimState
    requires id in st.pending
  {
    if st.pending[id].acked then st
    else Emit(st.(pending := st.pending[id := st.pending[id].(acked := true)]),
              BrokerEvent(id, Ack("sim-" + id), now))
  }

  function FeeOn(qty: real, price: real, rate: real): real {
    qty * price * rate
  }

  function FilledMarket(st: SimState, cfg: SimConfig, id: string, tape: Tape): SimState
    requires id in st.pending
  {
    var order := st.pending[id];
    var remaining := order.qty - order.filled;
    var price := SweepPrice(tape.book, order.side, remaining);
    if price.None? then st
    else Close(st, id, BrokerEvent(id, Fill(remaining, price.value, FeeOn(remaining, price.value, cfg.takerFeeRate),
                                            false), tape.now))
  }

  predicate TradedThrough(order: PendingOrder, limit: real, bid: real, ask: real) {
    if order.side == Buy then ask < limit else bid > limit
  }

  predicate TradedAt(limit: real, tape: Tape) {
    tape.tradePrice.Some? && AtPrice(tape.tradePrice.value, limit) && tape.tradedVolume > 0.0
  }

  function FilledLimit(st: SimState, cfg: SimConfig, id: string, tape: Tape): SimState
    requires id in st.pending && st.pending[id].limitPrice.Some?
  {
    var order := st.pending[id];
    var limit := order.limitPrice.value;
    var top := TopOfBook(tape.book);
    if top.bid.None? || top.ask.None? then st
    else
      var through := TradedThrough(order, limit, top.bid.value, top.ask.value);
      if !through && !TradedAt(limit, tape) then st
      else
        var ahead := if through then order.queueAhead else order.queueAhead - tape.tradedVolume;
        var st1 := st.(pending := st.pending[id := order.(queueAhead := ahead)]);
        if !through && ahead > 0.0 then st1
        else
          var remaining := order.qty - order.filled;
          Close(st1, id, BrokerEvent(id, Fill(remaining, limit, FeeOn(remaining, limit, cfg.makerFeeRate), true),
                                     tape.now))
  }

  function Visited(st: SimState, cfg: SimConfig, id: string, tape: Tape): SimState {
    if id !in st.pending || st.pending[id].symbol != tape.symbol || tape.now < st.pending[id].visibleAt then st
    else
      var st1 := Acked(st, id, tape.now);
      if st1.pending[id].limitPrice.None? then FilledMarket(st1, cfg, id, tape) else FilledLimit(st1, cfg, id, tape)
  }

  function VisitedEach(st: SimState, cfg: SimConfig, ids: seq<string>, tape: Tape): SimState {
    if ids == [] then st else Visited(VisitedEach(st, cfg, ids[..|ids| - 1], tape), cfg, ids[|ids| - 1], tape)
  }

  function Stepped(st: SimState, cfg: SimConfig, tape: Tape): SimState {
    VisitedEach(st.(books := st.books[tape.symbol := tape.book]), cfg, st.queue, tape)
  }

  // -------------------------------------------------------------- the class

  class SimBroker {
    const config: SimConfig
    var pending: map<string, PendingOrder>
    var queue: seq<string>
    var outbox: seq<BrokerEvent>
    var books: map<string, OrderBookSnapshot>
    var seenLinkIds: set<string>

    ghost function State(): SimState
      reads this
    {
      SimState(pending, queue, outbox, books, seenLinkIds)
    }

    constructor (config: SimConfig)
      ensures State() == EMPTY && this.config == config
    {
      this.config := config;
      pending, queue, outbox, books, seenLinkIds := map[], [], [], map[], {};
    }

    method UpdateBook(symbol: string, book: OrderBookSnapshot)
      modifies this`books
      ensures books == old(books)[symbol := book]
    {
      books := books[symbol := book];
    }

    method Submit(intent: OrderIntent, at: int) returns (ack: SubmitAck)
      modifies this
      ensures (State(), ack) == Submitted(old(State()), config, intent, at)
    {
      if intent.id in seenLinkIds { return Refused("Duplicate orderLinkId", true); }
      seenLinkIds := seenLinkIds + {intent.id};
      if intent.symbol !in books { return Refused("No book for symbol", false); }
      var book := books[intent.symbol];
      var limit := LimitPriceOf(intent.style, book, intent.side);
      if limit.None? {
        var refusal := MarketRefusal(config, book, intent);
        if refusal.Some? { return Refused(refusal.value, false); }
      }
      pending := pending[intent.id := PendingFor(config, book, intent, at)];
      queue := queue + [intent.id];
      ack := SubmitAck(true, Some("sim-" + intent.id), None, false);
    }

    method CancelOrder(id: string, at: int) returns (accepted: bool)
      modifies this`pending, this`queue, this`outbox
      ensures State() == Cancelled(old(State()), config, id, at)
      ensures pending == old(pending) - {id}
      ensures outbox == old(outbox)
                + if id in old(pending) then [BrokerEvent(id, Cancel, at + config.latencyMs)] else []
      ensures accepted <==> id in old(pending)
    {
      if id !in pending { return false; }
      pending := pending - {id};
      queue := Without(queue, id);
      outbox := outbox + [BrokerEvent(id, Cancel, at + config.latencyMs)];
      accepted := true;
    }

    method CancelAll(at: int) returns (cancelled: nat)
      modifies this`pending, this`queue, this`outbox
      ensures State() == CancelledEach(old(State()), config, old(queue), at)
      ensures cancelled == |old(queue)|
    {
      var ids := queue;
      for i := 0 to |ids|
        invariant State() == CancelledEach(old(State()), config, ids[..i], at)
      {
        assert ids[..i + 1][..i] == ids[..i];
        var _ := CancelOrder(ids[i], at);
      }
      assert ids[..|ids|] == ids;
      cancelled := |ids|;
    }

    method DrainEvents() returns (events: seq<BrokerEvent>)
      modifies this`outbox
      ensures events == old(outbox) && State() == old(State()).(outbox := [])
    {
      events := outbox;
      outbox := [];
    }

    method FillMarket(id: string, tape: Tape)
      requires id in pending
      modifies this`pending, this`queue, this`outbox
      ensures State() == FilledMarket(old(State()), config, id, tape)
    {
      hide FeeOn, SweepPrice;
      var order := pending[id];
      var remaining := order.qty - order.filled;
      var price := ComputeSweepPrice(tape.book, order.side, remaining);
      if price.Some? {
        pending := pending - {id};
        queue := Without(queue, id);
        outbox := outbox
          + [BrokerEvent(id, Fill(remaining, price.value, FeeOn(remaining, price.value, config.takerFeeRate), false),
                         tape.now)];
      }
    }

    method FillLimit(id: string, tape: Tape)
      requires id in pending && pending[id].limitPrice.Some?
      modifies this`pending, this`queue, this`outbox
      ensures State() == FilledLimit(old(State()), config, id, tape)
    {
      hide FeeOn, TradedThrough, TradedAt;
      var order := pending[id];
      var limit := order.limitPrice.value;
      var top := TopOfBook(tape.book);
      if top.bid.None? || top.ask.None? { return; }
      var through := TradedThrough(order, limit, top.bid.value, top.ask.value);
      if !through {
        if !TradedAt(limit, tape) { return; }
        order := order.(queueAhead := order.queueAhead - tape.tradedVolume);
        pending := pending[id := order];
        if order.queueAhead > 0.0 { return; }
      }
      var remaining := order.qty - order.filled;
      assert pending - {id} == old(pending)[id := order] - {id};
      pending := pending - {id};
      queue := Without(queue, id);
      outbox := outbox + [BrokerEvent(id, Fill(remaining, limit, FeeOn(remaining, limit, config.makerFeeRate), true),
                                      tape.now)];
    }

    method Step(tape: Tape)
      modifies this`pending, this`queue, this`outbox, this`books
      ensures State() == Stepped(old(State()), config, tape)
    {
      books := books[tape.symbol := tape.book];
      ghost var start := State();
      var ids := queue;
      for i := 0 to |ids|
        invariant State() == VisitedEach(start, config, ids[..i], tape)
      {
        var id := ids[i];
        assert ids[..i + 1][..i] == ids[..i];
        if id in pending && pending[id].symbol == tape.symbol && tape.now >= pending[id].visibleAt {
          if !pending[id].acked {
            pending := pending[id := pending[id].(acked := true)];
            outbox := outbox + [BrokerEvent(id, Ack("sim-" + id), tape.now)];
          }
          if pending[id].limitPrice.None? { FillMarket(id, tape); } else { FillLimit(id, tape); }
        }
      }
      assert ids[..|ids|] == ids;
    }
  }
}
