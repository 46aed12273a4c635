/** At what price the simulated venue fills an order, and what the market must have done before. */
module SimFills {
  import opened Results
  import opened OrderStates
  import opened Events
  import opened Engines
  import opened SimBrokers
  import opened SimLedger

  // --------------------------------------------------- the queue of pending ids

  predicate Distinct(ids: seq<string>) {
    forall i, j :: 0 <= i < j < |ids| ==> ids[i] != ids[j]
  }

  /** The visiting order lists every pending id once; no pending id can be submitted again. */
  ghost predicate Queued(st: SimState) {
    && Distinct(st.queue)
    && (forall id :: id in st.queue <==> id in st.pending)
    && st.pending.Keys <= st.seen
  }

  lemma {:induction false} WithoutDrops(queue: seq<string>, id: string)
    requires Distinct(queue)
    ensures Distinct(Without(queue, id))
    ensures forall other :: other in Without(queue, id) <==> other in queue && other != id
  {
    if queue != [] && queue[0] != id {
      var rest := Without(queue[1..], id);
      WithoutDrops(queue[1..], id);
      assert queue == [queue[0]] + queue[1..];
      assert Without(queue, id) == [queue[0]] + rest;
      assert queue[0] !in rest;
    } else if queue != [] {
      assert queue == [queue[0]] + queue[1..];
    }
  }

  lemma CloseKeepsQueued(st: SimState, id: string, e: BrokerEvent)
    requires Queued(st) && id in st.pending
    ensures Queued(Close(st, id, e))
  {
    WithoutDrops(st.queue, id);
  }

  lemma VisitKeepsQueued(st: SimState, cfg: SimConfig, id: string, tape: Tape)
    requires Queued(st)
    ensures Queued(Visited(st, cfg, id, tape))
  {
    hide Without, SweepPrice, TopOfBook, FeeOn;
    WithoutDrops(st.queue, id);
  }

  lemma {:induction false} VisitEachKeepsQueued(st: SimState, cfg: SimConfig, ids: seq<string>, tape: Tape)
    requires Queued(st)
    ensures Queued(VisitedEach(st, cfg, ids, tape))
  {
    hide Queued, Visited;
    if ids != [] {
      VisitEachKeepsQueued(st, cfg, ids[..|ids| - 1], tape);
      VisitKeepsQueued(VisitedEach(st, cfg, ids[..|ids| - 1], tape), cfg, ids[|ids| - 1], tape);
    }
  }

  lemma {:induction false} CancelEachKeepsQueued(st: SimState, cfg: SimConfig, ids: seq<string>, at: int)
    requires Queued(st)
    ensures Queued(CancelledEach(st, cfg, ids, at))
  {
    hide Queued, Close;
    if ids != [] {
      var before, id := CancelledEach(st, cfg, ids[..|ids| - 1], at), ids[|ids| - 1];
      CancelEachKeepsQueued(st, cfg, ids[..|ids| - 1], at);
      if id in before.pending { CloseKeepsQueued(before, id, BrokerEvent(id, Cancel, at + cfg.latencyMs)); }
    }
  }

  lemma SubmitKeepsQueued(st: SimState, cfg: SimConfig, intent: OrderIntent, at: int)
    requires Queued(st)
    ensures Queued(Submitted(st, cfg, intent, at).0)
  {
    hide PendingFor, MarketRefusal, LimitPriceOf;
    assert intent.id !in st.seen ==> intent.id !in st.queue;
  }

  lemma {:induction false} RunsAreQueued(cfg: SimConfig, calls: seq<BrokerCall>)
    ensures Queued(RunCalls(cfg, calls).st)
  {
    assert Queued(EMPTY);
    hide Queued, Submitted, Close, Visited;
    if calls != [] {
      var st := RunCalls(cfg, calls[..|calls| - 1]).st;
      RunsAreQueued(cfg, calls[..|calls| - 1]);
      match calls[|calls| - 1]
      case SubmitCall(intent, at) => SubmitKeepsQueued(st, cfg, intent, at);
      case CancelCall(id, at) => CancelEachKeepsQueued(st, cfg, [id], at); OneCancel(st, cfg, id, at);
      case CancelAllCall(at) => CancelEachKeepsQueued(st, cfg, st.queue, at);
      case UpdateBookCall(symbol, book) => SameQueue(st, st.(books := st.books[symbol := book]));
      case DrainCall => SameQueue(st, st.(outbox := []));
      case StepCall(tape) =>
        SameQueue(st, st.(books := st.books[tape.symbol := tape.book]));
        VisitEachKeepsQueued(st.(books := st.books[tape.symbol := tape.book]), cfg, st.queue, tape);
    }
  }

  lemma SameQueue(st: SimState, st': SimState)
    requires Queued(st) && st'.queue == st.queue && st'.pending == st.pending && st'.seen == st.seen
    ensures Queued(st')
  {}

  lemma OneCancel(st: SimState, cfg: SimConfig, id: string, at: int)
    ensures CancelledEach(st, cfg, [id], at) == Cancelled(st, cfg, id, at)
  {
    assert [id][..0] == [];
  }

  // ------------------------------------------------ the order of submission

  /** The accepted ids, in the order of their submission. */
  function AcceptedOrder(cfg: SimConfig, calls: seq<BrokerCall>): seq<string> {
    if calls == [] then []
    else
      var front, last := calls[..|calls| - 1], calls[|calls| - 1];
      AcceptedOrder(cfg, front)
      + if last.SubmitCall? && Submitted(RunCalls(cfg, front).st, cfg, last.intent, last.at).1.accepted
        then [last.intent.id] else []
  }

  /** Those of the ids that are in the set, in their order. */
  function Among(ids: seq<string>, some: set<string>): seq<string> {
    if ids == [] then [] else (if ids[0] in some then [ids[0]] else []) + Among(ids[1..], some)
  }

  lemma {:induction false} AmongAll(ids: seq<string>, some: set<string>)
    requires forall id :: id in ids ==> id in some
    ensures Among(ids, some) == ids
  {
    if ids != [] { AmongAll(ids[1..], some); }
  }

  lemma {:induction false} AmongAmong(ids: seq<string>, some: set<string>, fewer: set<string>)
    requires fewer <= some
    ensures Among(Among(ids, some), fewer) == Among(ids, fewer)
  {
    if ids != [] {
      AmongAmong(ids[1..], some, fewer);
      var first, rest := if ids[0] in some then [ids[0]] else [], Among(ids[1..], some);
      assert Among(ids, some) == first + rest;
      if ids[0] in some { assert (first + rest)[1..] == rest; } else { assert first + rest == rest; }
    }
  }

  lemma {:induction false} AmongAppend(ids: seq<string>, id: string, some: set<string>)
    ensures Among(ids + [id], some) == Among(ids, some) + if id in some then [id] else []
  {
    var all := ids + [id];
    if ids == [] {
      assert all == [id] && all[1..] == [] && Among(all[1..], some) == [];
    } else {
      AmongAppend(ids[1..], id, some);
      assert all[1..] == ids[1..] + [id];
    }
  }

  lemma {:induction false} WithoutIsAmong(ids: seq<string>, id: string, some: set<string>)
    requires Distinct(ids) && forall other :: other in ids ==> other in some
    ensures Without(ids, id) == Among(ids, some - {id})
  {
    if ids != [] {
      assert forall other :: other in ids[1..] ==> other in ids && other != ids[0];
      if ids[0] == id { AmongAll(ids[1..], some - {id}); } else { WithoutIsAmong(ids[1..], id, some); }
    }
  }

  /** The queue only loses what is no longer pending. */
  predicate OnlyLoses(st: SimState, st': SimState) {
    st'.pending.Keys <= st.pending.Keys && st'.queue == Among(st.queue, st'.pending.Keys)
  }

  lemma VisitOnlyLoses(st: SimState, cfg: SimConfig, id: string, tape: Tape)
    requires Queued(st)
    ensures OnlyLoses(st, Visited(st, cfg, id, tape))
  {
    hide Without, Among, Visited;
    AmongAll(st.queue, st.pending.Keys);
    WithoutIsAmong(st.queue, id, st.pending.Keys);
    VisitClosesOrNot(st, cfg, id, tape);
  }

  lemma VisitClosesOrNot(st: SimState, cfg: SimConfig, id: string, tape: Tape)
    ensures var st' := Visited(st, cfg, id, tape);
            || (st'.queue == st.queue && st'.pending.Keys == st.pending.Keys)
            || (st'.queue == Without(st.queue, id) && st'.pending.Keys == st.pending.Keys - {id})
  {
    hide SweepPrice, TopOfBook, FeeOn, AtPrice, Without;
    if id in st.pending { assert Acked(st, id, tape.now).pending.Keys == st.pending.Keys; }
  }

  lemma StillOnlyLoses(st: SimState, st1: SimState, st2: SimState)
    requires OnlyLoses(st, st1) && OnlyLoses(st1, st2)
    ensures OnlyLoses(st, st2)
  {
    AmongAmong(st.queue, st1.pending.Keys, st2.pending.Keys);
  }

  lemma {:induction false} RoundOnlyLoses(st: SimState, cfg: SimConfig, ids: seq<string>, tape: Tape)
    requires Queued(st)
    ensures OnlyLoses(st, VisitedEach(st, cfg, ids, tape))
  {
    hide Visited, Queued, OnlyLoses;
    if ids == [] {
      NothingLost(st);
    } else {
      var before := VisitedEach(st, cfg, ids[..|ids| - 1], tape);
      RoundOnlyLoses(st, cfg, ids[..|ids| - 1], tape);
      VisitEachKeepsQueued(st, cfg, ids[..|ids| - 1], tape);
      VisitOnlyLoses(before, cfg, ids[|ids| - 1], tape);
      StillOnlyLoses(st, before, Visited(before, cfg, ids[|ids| - 1], tape));
    }
  }

  lemma NothingLost(st: SimState)
    requires Queued(st)
    ensures OnlyLoses(st, st)
  {
    AmongAll(st.queue, st.pending.Keys);
  }

  lemma {:induction false} CancelsOnlyLose(st: SimState, cfg: SimConfig, ids: seq<string>, at: int)
    requires Queued(st)
    ensures OnlyLoses(st, CancelledEach(st, cfg, ids, at))
  {
    NothingLost(st);
    if ids != [] {
      var before, id := CancelledEach(st, cfg, ids[..|ids| - 1], at), ids[|ids| - 1];
      CancelsOnlyLose(st, cfg, ids[..|ids| - 1], at);
      CancelEachKeepsQueued(st, cfg, ids[..|ids| - 1], at);
      NothingLost(before);
      WithoutIsAmong(before.queue, id, before.pending.Keys);
      hide CancelledEach;
      StillOnlyLoses(st, before, Cancelled(before, cfg, id, at));
    }
  }

  /** In every run the venue visits its pending orders in the order of their submission. */
  lemma {:induction false} QueueIsInSubmissionOrder(cfg: SimConfig, calls: seq<BrokerCall>)
    ensures var st := RunCalls(cfg, calls).st;
            && st.queue == Among(AcceptedOrder(cfg, calls), st.pending.Keys)
            && forall id :: id in AcceptedOrder(cfg, calls) ==> id in st.seen
  {
    if calls != [] {
      hide Visited, Queued, Submitted, Among, OnlyLoses;
      var front, last := calls[..|calls| - 1], calls[|calls| - 1];
      var st, st' := RunCalls(cfg, front).st, RunCalls(cfg, calls).st;
      var order := AcceptedOrder(cfg, front);
      QueueIsInSubmissionOrder(cfg, front);
      RunsAreQueued(cfg, front);
      match last {
        case SubmitCall(intent, at) => SubmissionQueues(st, cfg, intent, at, order);
        case CancelCall(id, at) =>
          CancelsOnlyLose(st, cfg, [id], at);
          CancelEffect(st, cfg, [id], at, id);
          OneCancel(st, cfg, id, at);
          LossesKeepOrder(st, st', order);
        case CancelAllCall(at) =>
          CancelsOnlyLose(st, cfg, st.queue, at);
          CancelEffect(st, cfg, st.queue, at, "");
          LossesKeepOrder(st, st', order);
        case StepCall(tape) =>
          var seen := st.(books := st.books[tape.symbol := tape.book]);
          SameQueue(st, seen);
          RoundOnlyLoses(seen, cfg, st.queue, tape);
          RoundKeepsSeen(seen, cfg, st.queue, tape);
          LossesKeepOrder(seen, st', order);
        case _ =>
      }
      if !last.SubmitCall? { assert AcceptedOrder(cfg, calls) == order; }
    }
  }

  lemma LossesKeepOrder(st: SimState, st': SimState, order: seq<string>)
    requires OnlyLoses(st, st') && st.queue == Among(order, st.pending.Keys)
    ensures st'.queue == Among(order, st'.pending.Keys)
  {
    AmongAmong(order, st.pending.Keys, st'.pending.Keys);
  }

  lemma SubmissionQueues(st: SimState, cfg: SimConfig, intent: OrderIntent, at: int, order: seq<string>)
    requires st.queue == Among(order, st.pending.Keys) && forall id :: id in order ==> id in st.seen
    ensures var (st', ack) := Submitted(st, cfg, intent, at);
            && st'.queue == Among(order + (if ack.accepted then [intent.id] else []), st'.pending.Keys)
            && (ack.accepted ==> intent.id in st'.seen) && st.seen <= st'.seen
  {
    hide PendingFor, MarketRefusal, LimitPriceOf, Among;
    var (st', ack) := Submitted(st, cfg, intent, at);
    assert order + [] == order;
    if ack.accepted {
      assert st'.pending.Keys == st.pending.Keys + {intent.id};
      AmongAppend(order, intent.id, st'.pending.Keys);
      NewIdIsNotAmong(order, st.pending.Keys, intent.id);
    }
  }

  lemma {:induction false} NewIdIsNotAmong(ids: seq<string>, some: set<string>, id: string)
    requires id !in ids
    ensures Among(ids, some + {id}) == Among(ids, some)
  {
    if ids != [] { NewIdIsNotAmong(ids[1..], some, id); }
  }

  // ------------------------------------------------------ what a submission does

  predicate WithinTick(price: real, limit: real) {
    limit - PRICE_EPSILON < price < limit + PRICE_EPSILON
  }

  /** The first level of a side that shows this price. */
  predicate IsLevelAt(levels: seq<PriceLevel>, price: real, i: int) {
    && 0 <= i < |levels| && WithinTick(levels[i].price, price)
    && forall j :: 0 <= j < i ==> !WithinTick(levels[j].price, price)
  }

  lemma {:induction false} SizeAtIsTheLevels(levels: seq<PriceLevel>, price: real)
    ensures forall i :: IsLevelAt(levels, price, i) ==> SizeAt(levels, price) == levels[i].size
    ensures (forall i :: 0 <= i < |levels| ==> !WithinTick(levels[i].price, price)) ==> SizeAt(levels, price) == 0.0
  {
    if levels != [] {
      SizeAtIsTheLevels(levels[1..], price);
      forall i | IsLevelAt(levels, price, i) ensures SizeAt(levels, price) == levels[i].size {
        if i > 0 {
          assert !WithinTick(levels[0].price, price);
          assert IsLevelAt(levels[1..], price, i - 1);
        }
      }
    }
  }

  /** The price an order rests at: its own limit, or for a passive one the best price of its own side, the
      bids for a buy and the asks for a sell. Other orders, and passive ones where that side is empty, are
      marketable. */
  function RestsAt(intent: OrderIntent, book: OrderBookSnapshot): Option<real> {
    match (intent.style, intent.side)
    case (Limit(price, _), _) => Some(price)
    case (Passive(_), Buy) => if book.bids == [] then None else Some(book.bids[0].price)
    case (Passive(_), Sell) => if book.asks == [] then None else Some(book.asks[0].price)
    case _ => None
  }

  function OwnSide(side: Side, book: OrderBookSnapshot): seq<PriceLevel> {
    match side
    case Buy => book.bids
    case Sell => book.asks
  }

  /** An accepted order is pending, unseen by the market until the latency has passed, behind the size its own
      side shows at its price, times the configured factor. */
  lemma AcceptedOrderIsPlaced(st: SimState, cfg: SimConfig, intent: OrderIntent, at: int)
    requires Submitted(st, cfg, intent, at).1.accepted
    ensures intent.symbol in st.books && intent.id in Submitted(st, cfg, intent, at).0.pending
    ensures var book, p := st.books[intent.symbol], Submitted(st, cfg, intent, at).0.pending[intent.id];
            && (p.symbol, p.side, p.qty, p.filled) == (intent.symbol, intent.side, intent.qty, 0.0)
            && p.visibleAt == at + cfg.latencyMs && !p.acked && p.limitPrice == RestsAt(intent, book)
            && (p.postOnly <==> intent.style.Passive? || (intent.style.Limit? && intent.style.postOnly))
            && (p.limitPrice.None? ==> p.queueAhead == 0.0)
            && (p.limitPrice.Some? ==>
                  var levels := OwnSide(intent.side, book);
                  && (forall i :: IsLevelAt(levels, p.limitPrice.value, i) ==>
                        p.queueAhead == levels[i].size * cfg.queueAheadFactor)
                  && ((forall i :: 0 <= i < |levels| ==> !WithinTick(levels[i].price, p.limitPrice.value)) ==>
                        p.queueAhead == 0.0))
  {
    hide MarketRefusal, IsLevelAt, QueueAheadAt;
    var book, limit := st.books[intent.symbol], RestsAt(intent, st.books[intent.symbol]);
    assert limit == LimitPriceOf(intent.style, book, intent.side);
    if limit.Some? { QueueAheadIsTheLevels(cfg, book, intent.side, limit.value); }
    hide LimitPriceOf, RestsAt, OwnSide, WithinTick;
  }

  lemma QueueAheadIsTheLevels(cfg: SimConfig, book: OrderBookSnapshot, side: Side, price: real)
    ensures var levels, ahead := OwnSide(side, book), QueueAheadAt(cfg, book, side, price);
            && (forall i :: IsLevelAt(levels, price, i) ==> ahead == levels[i].size * cfg.queueAheadFactor)
            && ((forall i :: 0 <= i < |levels| ==> !WithinTick(levels[i].price, price)) ==> ahead == 0.0)
  {
    SizeAtIsTheLevels(OwnSide(side, book), price);
    hide SizeAt, WithinTick, IsLevelAt;
  }

  /** Buying above the middle of the book, or selling below it, by more basis points than allowed. */
  predicate SlipsTooFar(book: OrderBookSnapshot, side: Side, price: real, bps: real) {
    && book.bids != [] && book.asks != []
    && var mid := (book.bids[0].price + book.asks[0].price) / 2.0;
    && mid > 0.0
    && BpsOf(match side case Buy => price - mid case Sell => mid - price, mid) > bps + BPS_EPSILON
  }

  function BpsOf(part: real, whole: real): real
    requires whole > 0.0
  {
    part * 10000.0 / whole
  }

  /** A submission is refused exactly when its id was used, its symbol has no book, or it is marketable and the
      book cannot fill it whole or only at too far a price. Refused, it leaves nothing pending. */
  lemma SubmissionRefusedIff(st: SimState, cfg: SimConfig, intent: OrderIntent, at: int)
    ensures var (st', ack) := Submitted(st, cfg, intent, at);
            && (!ack.accepted <==>
                  || intent.id in st.seen || intent.symbol !in st.books
                  || (var book := st.books[intent.symbol];
                      var price := SweepPrice(book, intent.side, intent.qty);
                      && RestsAt(intent, book).None?
                      && (price.None? || SlipsTooFar(book, intent.side, price.value,
                                                     intent.maxSlippageBps.GetOr(cfg.maxSlippageBps)))))
            && (!ack.accepted ==> st' == st.(seen := st.seen + {intent.id}))
            && (!ack.accepted ==> ack.exchangeOrderId.None? && ack.reason.Some?)
            && (ack.accepted ==> ack == SubmitAck(true, Some("sim-" + intent.id), None, false))
            && (ack.duplicate <==> intent.id in st.seen)
  {
    hide SweepPrice;
    if intent.symbol in st.books {
      var book := st.books[intent.symbol];
      var price, mid := SweepPrice(book, intent.side, intent.qty), TopOfBook(book).mid;
      if price.Some? && mid.Some? && mid.value > 0.0 {
        SameBps(if intent.side == Buy then price.value - mid.value else mid.value - price.value, mid.value);
      }
    }
    if intent.id in st.seen { assert st.seen + {intent.id} == st.seen; }
  }

  lemma SameBps(part: real, whole: real)
    requires whole > 0.0
    ensures BpsOf(part, whole) == part / whole * 10000.0
  {
    var share := part / whole;
    assert share * whole == part;
    assert share * 10000.0 * whole == part * 10000.0;
  }

  // ------------------------------------------------------- what a fill needs

  /** A resting order whose level the tape trades at, but not through. */
  predicate TradesAtOrder(p: PendingOrder, tape: Tape) {
    && tape.symbol == p.symbol && tape.now >= p.visibleAt
    && p.limitPrice.Some? && tape.book.bids != [] && tape.book.asks != []
    && !TradesThroughOrder(p, tape)
    && tape.tradePrice.Some? && tape.tradedVolume > 0.0
    && WithinTick(tape.tradePrice.value, p.limitPrice.value)
  }

  /** The market has passed a resting order: nothing is offered as high as a buy's limit any more, or
      bid as low as a sell's. */
  predicate TradesThroughOrder(p: PendingOrder, tape: Tape) {
    && p.limitPrice.Some? && tape.book.bids != [] && tape.book.asks != []
    && (match p.side
        case Buy => tape.book.asks[0].price < p.limitPrice.value
        case Sell => tape.book.bids[0].price > p.limitPrice.value)
  }

  function VolumeAt(p: PendingOrder, tape: Tape): real {
    if TradesAtOrder(p, tape) then tape.tradedVolume else 0.0
  }

  /** Volume executed at an order's own price, once it was visible. */
  function VolumeSeen(p: PendingOrder, calls: seq<BrokerCall>): real {
    if calls == [] then 0.0
    else
      var last := calls[|calls| - 1];
      VolumeSeen(p, calls[..|calls| - 1]) + if last.StepCall? then VolumeAt(p, last.tape) else 0.0
  }

  /** A fill of a pending order on one tape: its size, price, fee and reason. */
  predicate Earned(p: PendingOrder, cfg: SimConfig, tape: Tape, e: BrokerEvent) {
    && e.event.Fill? && e.event.qty == p.qty - p.filled
    && e.at == tape.now >= p.visibleAt && tape.symbol == p.symbol
    && if p.limitPrice.None? then
         && SweepPrice(tape.book, p.side, e.event.qty) == Some(e.event.price)
         && e.event.fee == FeeOn(e.event.qty, e.event.price, cfg.takerFeeRate) && !e.event.isMaker
       else
         && e.event.price == p.limitPrice.value
         && e.event.fee == FeeOn(e.event.qty, e.event.price, cfg.makerFeeRate) && e.event.isMaker
         && (TradesThroughOrder(p, tape) || (TradesAtOrder(p, tape) && p.queueAhead <= tape.tradedVolume))
  }

  /** Pending still, an order differs from what was accepted only in the volume that passed. */
  predicate Waits(p: PendingOrder, p0: PendingOrder, volume: real) {
    p == p0.(queueAhead := p0.queueAhead - volume, acked := p.acked)
  }

  function Find(st: SimState, id: string): Option<PendingOrder> {
    if id in st.pending then Some(st.pending[id]) else None
  }

  /** What one visit of one order may do: it touches no other order, and fills its own as earned or
      consumes its queue. */
  ghost predicate VisitDoes(st: SimState, cfg: SimConfig, id: string, tape: Tape, st': SimState,
                            block: seq<BrokerEvent>)
  {
    && st'.outbox == st.outbox + block
    && (forall e :: e in block ==> e.orderLinkId == id)
    && (forall other :: other != id ==> Find(st', other) == Find(st, other))
    && (forall e :: e in block && e.event.Fill? ==>
          e.orderLinkId == id && id in st.pending && Earned(st.pending[id], cfg, tape, e))
    && (id in st'.pending ==>
          id in st.pending && Waits(st'.pending[id], st.pending[id], VolumeAt(st.pending[id], tape)))
  }

  predicate Visible(st: SimState, id: string, tape: Tape) {
    id in st.pending && st.pending[id].symbol == tape.symbol && tape.now >= st.pending[id].visibleAt
  }

  lemma MarketEffect(st: SimState, cfg: SimConfig, id: string, tape: Tape) returns (block: seq<BrokerEvent>)
    requires Visible(st, id, tape) && st.pending[id].limitPrice.None?
    ensures VisitDoes(st, cfg, id, tape, FilledMarket(st, cfg, id, tape), block)
  {
    hide SweepPrice, FeeOn, Without;
    var order := st.pending[id];
    var remaining := order.qty - order.filled;
    var price := SweepPrice(tape.book, order.side, remaining);
    block := if price.None? then []
             else [BrokerEvent(id, Fill(remaining, price.value, FeeOn(remaining, price.value, cfg.takerFeeRate), false),
                               tape.now)];
  }

  lemma LimitEffect(st: SimState, cfg: SimConfig, id: string, tape: Tape) returns (block: seq<BrokerEvent>)
    requires Visible(st, id, tape) && st.pending[id].limitPrice.Some?
    ensures VisitDoes(st, cfg, id, tape, FilledLimit(st, cfg, id, tape), block)
  {
    hide FeeOn, Without;
    var order := st.pending[id];
    var remaining, limit := order.qty - order.filled, order.limitPrice.value;
    block := if id in FilledLimit(st, cfg, id, tape).pending then []
             else [BrokerEvent(id, Fill(remaining, limit, FeeOn(remaining, limit, cfg.makerFeeRate), true), tape.now)];
  }

  lemma VisitEffect(st: SimState, cfg: SimConfig, id: string, tape: Tape) returns (block: seq<BrokerEvent>)
    ensures VisitDoes(st, cfg, id, tape, Visited(st, cfg, id, tape), block)
  {
    hide FilledMarket, FilledLimit;
    if !Visible(st, id, tape) {
      block := [];
    } else {
      var acked := Acked(st, id, tape.now);
      var ack := if st.pending[id].acked then [] else [BrokerEvent(id, Ack("sim-" + id), tape.now)];
      var fill;
      if st.pending[id].limitPrice.None? {
        fill := MarketEffect(acked, cfg, id, tape);
      } else {
        fill := LimitEffect(acked, cfg, id, tape);
      }
      block := ack + fill;
      AckedFirst(st, cfg, id, tape, acked, ack, Visited(st, cfg, id, tape), fill);
    }
  }

  lemma AckedFirst(st: SimState, cfg: SimConfig, id: string, tape: Tape, acked: SimState, ack: seq<BrokerEvent>,
                   st': SimState, fill: seq<BrokerEvent>)
    requires VisitDoes(acked, cfg, id, tape, st', fill) && id in st.pending
    requires acked.pending == st.pending[id := st.pending[id].(acked := true)] && acked.outbox == st.outbox + ack
    requires forall e :: e in ack ==> e.event.Ack? && e.orderLinkId == id
    ensures VisitDoes(st, cfg, id, tape, st', ack + fill)
  {
    hide SweepPrice, TopOfBook, FeeOn, AtPrice;
    forall other | other != id
      ensures Find(st', other) == Find(st, other)
    {
      assert Find(acked, other) == Find(st, other);
    }
  }

  /** Events come in the order in which their ids are listed. */
  ghost predicate InTurn(ids: seq<string>, block: seq<BrokerEvent>) {
    forall i, j :: 0 <= i < j < |block| ==> ComesFirst(ids, block[i].orderLinkId, block[j].orderLinkId)
  }

  ghost predicate ComesFirst(ids: seq<string>, a: string, b: string) {
    exists p, q :: 0 <= p <= q < |ids| && ids[p] == a && ids[q] == b
  }

  lemma TurnsGrow(before: seq<string>, last: string, first: seq<BrokerEvent>, second: seq<BrokerEvent>)
    requires InTurn(before, first) && forall e :: e in first ==> e.orderLinkId in before
    requires forall e :: e in second ==> e.orderLinkId == last
    ensures InTurn(before + [last], first + second)
  {
    var ids, block, n := before + [last], first + second, |before|;
    forall i, j | 0 <= i < j < |block|
      ensures ComesFirst(ids, block[i].orderLinkId, block[j].orderLinkId)
    {
      if j < |first| {
        assert ComesFirst(before, first[i].orderLinkId, first[j].orderLinkId);
        var p, q :| 0 <= p <= q < n && before[p] == first[i].orderLinkId && before[q] == first[j].orderLinkId;
        assert ids[p] == before[p] && ids[q] == before[q];
      } else {
        assert block[j] == second[j - |first|] && second[j - |first|] in second;
        if i < |first| {
          assert block[i] == first[i] && first[i] in first;
          var p :| 0 <= p < n && before[p] == block[i].orderLinkId;
          assert ids[p] == before[p] && ids[n] == last;
        } else {
          assert block[i] == second[i - |first|] && second[i - |first|] in second && ids[n] == last;
        }
      }
    }
  }

  /** A round of visits: every order is judged by the state it had at the start of the round. */
  lemma {:induction false} RoundEffect(st: SimState, cfg: SimConfig, ids: seq<string>,
                                       tape: Tape) returns (block: seq<BrokerEvent>)
    requires Distinct(ids)
    ensures var st' := VisitedEach(st, cfg, ids, tape);
            && st'.outbox == st.outbox + block
            && (forall id :: id !in ids ==> Find(st', id) == Find(st, id))
            && (forall id :: id in st'.pending ==> id in st.pending)
            && (forall id :: id in ids && id in st'.pending ==>
                  Waits(st'.pending[id], st.pending[id], VolumeAt(st.pending[id], tape)))
    ensures (forall e :: e in block ==> e.orderLinkId in ids) && InTurn(ids, block)
    ensures forall e :: e in block && e.event.Fill? ==>
              e.orderLinkId in st.pending && Earned(st.pending[e.orderLinkId], cfg, tape, e)
  {
    hide Visited, Earned, VolumeAt;
    if ids == [] {
      block := [];
    } else {
      var before, last := ids[..|ids| - 1], ids[|ids| - 1];
      var first := RoundEffect(st, cfg, before, tape);
      var middle := VisitedEach(st, cfg, before, tape);
      var second := VisitEffect(middle, cfg, last, tape);
      block := first + second;
      TurnsGrow(before, last, first, second);
      assert ids == before + [last] && last !in before;
      assert Find(middle, last) == Find(st, last);
      var st' := VisitedEach(st, cfg, ids, tape);
      assert forall id :: id != last ==> Find(st', id) == Find(middle, id);
      forall id | id in st'.pending
        ensures id in st.pending
        ensures id in ids ==> Waits(st'.pending[id], st.pending[id], VolumeAt(st.pending[id], tape))
      {
        if id != last { assert Find(st', id) == Find(middle, id); }
      }
    }
  }

  // ------------------------------------------------------- when it must fill

  /** What a pending order asks of a tape: a marketable one that the book holds its quantity, a resting one
      that it is passed, or that the volume at its price reaches the queue ahead of it. */
  predicate FillsOn(p: PendingOrder, tape: Tape) {
    if p.limitPrice.None? then SweepPrice(tape.book, p.side, p.qty - p.filled).Some?
    else TradesThroughOrder(p, tape) || (TradesAtOrder(p, tape) && p.queueAhead <= tape.tradedVolume)
  }

  lemma VisitFillsIff(st: SimState, cfg: SimConfig, id: string, tape: Tape)
    requires Visible(st, id, tape)
    ensures id !in Visited(st, cfg, id, tape).pending <==> FillsOn(st.pending[id], tape)
  {
    hide SweepPrice, FeeOn, Without;
    var p := Acked(st, id, tape.now).pending[id];
    assert p == st.pending[id].(acked := true);
    assert FillsOn(p, tape) <==> FillsOn(st.pending[id], tape);
    if p.limitPrice.Some? { LimitFillsIff(Acked(st, id, tape.now), cfg, id, tape); }
  }

  lemma LimitFillsIff(st: SimState, cfg: SimConfig, id: string, tape: Tape)
    requires Visible(st, id, tape) && st.pending[id].limitPrice.Some?
    ensures id !in FilledLimit(st, cfg, id, tape).pending <==> FillsOn(st.pending[id], tape)
  {
    hide FeeOn, Without;
  }

  lemma {:induction false} RoundFillsIff(st: SimState, cfg: SimConfig, ids: seq<string>, tape: Tape, id: string)
    requires Distinct(ids) && id in ids && Visible(st, id, tape)
    ensures id !in VisitedEach(st, cfg, ids, tape).pending <==> FillsOn(st.pending[id], tape)
  {
    hide Visited, FillsOn;
    var before, last := ids[..|ids| - 1], ids[|ids| - 1];
    var middle := VisitedEach(st, cfg, before, tape);
    var _ := RoundEffect(st, cfg, before, tape);
    assert ids == before + [last];
    if last == id {
      assert Find(middle, id) == Find(st, id);
      VisitFillsIff(middle, cfg, id, tape);
    } else {
      RoundFillsIff(st, cfg, before, tape, id);
      var _ := VisitEffect(middle, cfg, last, tape);
      assert Find(VisitedEach(st, cfg, ids, tape), id) == Find(middle, id);
    }
  }

  /** In every run a step fills, and so takes from the venue, exactly those visible orders of its symbol
      that ask for no more than it brings. */
  lemma StepFillsIff(cfg: SimConfig, calls: seq<BrokerCall>, tape: Tape, id: string)
    requires Visible(RunCalls(cfg, calls).st, id, tape)
    ensures id !in Stepped(RunCalls(cfg, calls).st, cfg, tape).pending
            <==> FillsOn(RunCalls(cfg, calls).st.pending[id], tape)
  {
    var st := RunCalls(cfg, calls).st;
    RunsAreQueued(cfg, calls);
    hide Visited, FillsOn, RunCalls;
    RoundFillsIff(st.(books := st.books[tape.symbol := tape.book]), cfg, st.queue, tape, id);
  }

  /** In every run what a step reports comes in the order of the venue's queue, which is that of submission. */
  lemma StepSpeaksInTurn(cfg: SimConfig, calls: seq<BrokerCall>, tape: Tape)
    ensures var st, st' := RunCalls(cfg, calls).st, Stepped(RunCalls(cfg, calls).st, cfg, tape);
            && |st.outbox| <= |st'.outbox| && st'.outbox[..|st.outbox|] == st.outbox
            && InTurn(st.queue, st'.outbox[|st.outbox|..])
            && st.queue == Among(AcceptedOrder(cfg, calls), st.pending.Keys)
  {
    var st := RunCalls(cfg, calls).st;
    RunsAreQueued(cfg, calls);
    QueueIsInSubmissionOrder(cfg, calls);
    hide Visited, InTurn, RunCalls, AcceptedOrder, Among;
    var block := RoundEffect(st.(books := st.books[tape.symbol := tape.book]), cfg, st.queue, tape);
    assert (st.outbox + block)[|st.outbox|..] == block;
  }

  // ------------------------------------------------------------- whole runs

  lemma {:induction false} CancelEffect(st: SimState, cfg: SimConfig, ids: seq<string>, at: int, id: string)
    ensures var st' := CancelledEach(st, cfg, ids, at);
            st'.seen == st.seen && (Find(st', id).Some? ==> Find(st', id) == Find(st, id))
  {
    if ids != [] { CancelEffect(st, cfg, ids[..|ids| - 1], at, id); }
  }

  lemma {:induction false} RoundKeepsSeen(st: SimState, cfg: SimConfig, ids: seq<string>, tape: Tape)
    ensures VisitedEach(st, cfg, ids, tape).seen == st.seen
  {
    hide SweepPrice, TopOfBook, FeeOn, AtPrice;
    if ids != [] { RoundKeepsSeen(st, cfg, ids[..|ids| - 1], tape); }
  }

  /** From one call to the next, a waiting order waits on or is gone for good. */
  lemma CallKeepsWaiting(l: Ledger, cfg: SimConfig, call: BrokerCall, id: string, p0: PendingOrder, volume: real)
    requires Queued(l.st) && id in l.st.seen
    requires id in l.st.pending ==> Waits(l.st.pending[id], p0, volume)
    ensures var l' := Call(l, cfg, call);
            && id in l'.st.seen
            && (id in l'.st.pending ==>
                  id in l.st.pending && Waits(l'.st.pending[id], p0,
                                              volume + if call.StepCall? then VolumeAt(p0, call.tape) else 0.0))
  {
    hide Visited, PendingFor, MarketRefusal, LimitPriceOf, TradesAtOrder;
    match call
    case SubmitCall(intent, at) =>
    case UpdateBookCall(symbol, book) =>
    case DrainCall =>
    case CancelCall(other, at) => CancelEffect(l.st, cfg, [other], at, id); OneCancel(l.st, cfg, other, at);
    case CancelAllCall(at) => CancelEffect(l.st, cfg, l.st.queue, at, id);
    case StepCall(tape) =>
      var st := l.st.(books := l.st.books[tape.symbol := tape.book]);
      RoundKeepsSeen(st, cfg, l.st.queue, tape);
      var _ := RoundEffect(st, cfg, l.st.queue, tape);
      if id in l.st.pending { SameTrades(l.st.pending[id], p0, volume, tape); }
  }

  lemma SameTrades(p: PendingOrder, p0: PendingOrder, volume: real, tape: Tape)
    requires Waits(p, p0, volume)
    ensures VolumeAt(p, tape) == VolumeAt(p0, tape) && (TradesThroughOrder(p, tape) <==> TradesThroughOrder(p0, tape))
    ensures TradesAtOrder(p, tape) <==> TradesAtOrder(p0, tape)
  {
    hide TopOfBook;
  }

  lemma SubmissionWaits(l: Ledger, cfg: SimConfig, intent: OrderIntent, at: int)
    requires Submitted(l.st, cfg, intent, at).1.accepted
    ensures intent.symbol in l.st.books
    ensures var st := Call(l, cfg, SubmitCall(intent, at)).st;
            && intent.id in st.seen && intent.id in st.pending
            && Waits(st.pending[intent.id], PendingFor(cfg, l.st.books[intent.symbol], intent, at), 0.0)
  {}

  /** As long as an accepted order is pending, its place in the queue is the place it was given less
      the volume that has traded at its price since it became visible. */
  lemma {:induction false} QueueIsConsumed(cfg: SimConfig, before: seq<BrokerCall>, intent: OrderIntent, at: int,
                                           later: seq<BrokerCall>)
    requires Submitted(RunCalls(cfg, before).st, cfg, intent, at).1.accepted
    ensures intent.symbol in RunCalls(cfg, before).st.books
    ensures var p0 := PendingFor(cfg, RunCalls(cfg, before).st.books[intent.symbol], intent, at);
            var st := RunCalls(cfg, before + [SubmitCall(intent, at)] + later).st;
            && intent.id in st.seen
            && (intent.id in st.pending ==> Waits(st.pending[intent.id], p0, VolumeSeen(p0, later)))
  {
    hide Submitted, PendingFor, Waits, VolumeAt, Queued, Call;
    var submitted := before + [SubmitCall(intent, at)];
    assert submitted[..|submitted| - 1] == before;
    SubmissionWaits(RunCalls(cfg, before), cfg, intent, at);
    var p0 := PendingFor(cfg, RunCalls(cfg, before).st.books[intent.symbol], intent, at);
    if later == [] {
      assert submitted + later == submitted;
    } else {
      var n := |later| - 1;
      var all := submitted + later;
      assert all[..|all| - 1] == submitted + later[..n] && all[|all| - 1] == later[n];
      QueueIsConsumed(cfg, before, intent, at, later[..n]);
      RunsAreQueued(cfg, submitted + later[..n]);
      CallKeepsWaiting(RunCalls(cfg, submitted + later[..n]), cfg, later[n], intent.id, p0, VolumeSeen(p0, later[..n]));
    }
  }

  /** In every run, whenever a step fills an accepted order: a marketable one fills whole at the swept
      price of the step's own book, with the taker fee; a resting one fills whole at its own limit, with
      the maker fee, and only once the market trades through that limit or the volume traded at it since
      the order became visible has reached the queue that was ahead of it. */
  lemma FillsAreEarned(cfg: SimConfig, before: seq<BrokerCall>, intent: OrderIntent, at: int, later: seq<BrokerCall>,
                       tape: Tape, e: BrokerEvent)
    requires Submitted(RunCalls(cfg, before).st, cfg, intent, at).1.accepted
    requires var l := RunCalls(cfg, before + [SubmitCall(intent, at)] + later);
             var outbox := Call(l, cfg, StepCall(tape)).st.outbox;
             |l.st.outbox| <= |outbox| && e in outbox[|l.st.outbox|..] && e.orderLinkId == intent.id && e.event.Fill?
    ensures intent.symbol in RunCalls(cfg, before).st.books
    ensures var p0 := PendingFor(cfg, RunCalls(cfg, before).st.books[intent.symbol], intent, at);
            && e.event.qty == intent.qty && e.at == tape.now >= at + cfg.latencyMs && tape.symbol == intent.symbol
            && if p0.limitPrice.None? then
                 && SweepPrice(tape.book, intent.side, intent.qty) == Some(e.event.price)
                 && e.event.fee == intent.qty * e.event.price * cfg.takerFeeRate && !e.event.isMaker
               else
                 && e.event.price == p0.limitPrice.value
                 && e.event.fee == intent.qty * e.event.price * cfg.makerFeeRate && e.event.isMaker
                 && (TradesThroughOrder(p0, tape) || VolumeSeen(p0, later + [StepCall(tape)]) >= p0.queueAhead)
  {
    hide Submitted, Distinct, VisitedEach, TopOfBook, SweepPrice, TradesThroughOrder, TradesAtOrder, LimitPriceOf;
    var l := RunCalls(cfg, before + [SubmitCall(intent, at)] + later);
    QueueIsConsumed(cfg, before, intent, at, later);
    RunsAreQueued(cfg, before + [SubmitCall(intent, at)] + later);
    var p0 := PendingFor(cfg, RunCalls(cfg, before).st.books[intent.symbol], intent, at);
    var st := l.st.(books := l.st.books[tape.symbol := tape.book]);
    var block := RoundEffect(st, cfg, l.st.queue, tape);
    assert (l.st.outbox + block)[|l.st.outbox|..] == block;
    SameTrades(l.st.pending[intent.id], p0, VolumeSeen(p0, later), tape);
    assert (later + [StepCall(tape)])[..|later|] == later;
  }
}
