/** What the simulated venue emits for each order, over every sequence of calls. */
module SimLedger {
  import opened Results
  import opened OrderStates
  import opened Events
  import opened Engines
  import opened SimBrokers

  datatype BrokerCall =
    | UpdateBookCall(symbol: string, book: OrderBookSnapshot)
    | SubmitCall(intent: OrderIntent, at: int)
    | CancelCall(id: string, at: int)
    | CancelAllCall(at: int)
    | DrainCall
    | StepCall(tape: Tape)

  datatype Acceptance = Acceptance(qty: real, at: int)

  /** The venue, everything already drained from it, and the submissions it accepted. */
  datatype Ledger = Ledger(st: SimState, drained: seq<BrokerEvent>, accepted: map<string, Acceptance>)
  {
    function History(): seq<BrokerEvent> {
      drained + st.outbox
    }
  }

  function Call(l: Ledger, cfg: SimConfig, call: BrokerCall): Ledger {
    match call
    case UpdateBookCall(symbol, book) => l.(st := l.st.(books := l.st.books[symbol := book]))
    case SubmitCall(intent, at) =>
      var (st, ack) := Submitted(l.st, cfg, intent, at);
      l.(st := st, accepted := if ack.accepted then l.accepted[intent.id := Acceptance(intent.qty, at)] else l.accepted)
    case CancelCall(id, at) => l.(st := Cancelled(l.st, cfg, id, at))
    case CancelAllCall(at) => l.(st := CancelledEach(l.st, cfg, l.st.queue, at))
    case DrainCall => Ledger(l.st.(outbox := []), l.drained + l.st.outbox, l.accepted)
    case StepCall(tape) => l.(st := Stepped(l.st, cfg, tape))
  }

  function RunCalls(cfg: SimConfig, calls: seq<BrokerCall>): Ledger {
    if calls == [] then Ledger(EMPTY, [], map[])
    else Call(RunCalls(cfg, calls[..|calls| - 1]), cfg, calls[|calls| - 1])
  }

  // --------------------------------------------------------------- the shape

  /** The events of one order, in emission order. */
  function EventsOf(history: seq<BrokerEvent>, id: string): seq<BrokerEvent> {
    if history == [] then []
    else
      var last := history[|history| - 1];
      EventsOf(history[..|history| - 1], id) + (if last.orderLinkId == id then [last] else [])
  }

  predicate IsAck(e: BrokerEvent, cfg: SimConfig, a: Acceptance) {
    e.event == Ack("sim-" + e.orderLinkId) && e.at >= a.at + cfg.latencyMs
  }

  predicate IsFullFill(e: BrokerEvent, cfg: SimConfig, a: Acceptance) {
    e.event.Fill? && e.event.qty == a.qty && e.at >= a.at + cfg.latencyMs
  }

  /** A finished order: cancelled unacknowledged, or acknowledged once and then filled once for
      its whole quantity or cancelled once. */
  predicate Finished(h: seq<BrokerEvent>, cfg: SimConfig, a: Acceptance) {
    || (|h| == 1 && h[0].event.Cancel?)
    || (|h| == 2 && IsAck(h[0], cfg, a) && (IsFullFill(h[1], cfg, a) || h[1].event.Cancel?))
  }

  ghost predicate Shape(l: Ledger, cfg: SimConfig, id: string) {
    var h := EventsOf(l.History(), id);
    if id !in l.accepted then h == []
    else
      var a := l.accepted[id];
      if id !in l.st.pending then Finished(h, cfg, a)
      else if l.st.pending[id].acked then |h| == 1 && IsAck(h[0], cfg, a)
      else h == []
  }

  ghost predicate PendingMatches(l: Ledger, cfg: SimConfig, id: string)
    requires id in l.st.pending
  {
    var p := l.st.pending[id];
    && id in l.accepted
    && p.filled == 0.0 && p.qty == l.accepted[id].qty && p.visibleAt == l.accepted[id].at + cfg.latencyMs
  }

  ghost predicate LedgerOk(l: Ledger, cfg: SimConfig) {
    && l.accepted.Keys <= l.st.seen
    && (forall id :: id in l.st.pending ==> PendingMatches(l, cfg, id))
    && (forall id :: Shape(l, cfg, id))
  }

  // --------------------------------------------------------------- the proof

  lemma HistoryGrows(l: Ledger, e: BrokerEvent, id: string)
    ensures var l' := l.(st := Emit(l.st, e));
            EventsOf(l'.History(), id) == EventsOf(l.History(), id) + (if e.orderLinkId == id then [e] else [])
  {
    var h := l.History();
    assert l.(st := Emit(l.st, e)).History() == h + [e];
    assert (h + [e])[..|h|] == h;
  }

  /** Closing a pending order with its fill or its cancel finishes its history. */
  lemma CloseKeepsLedger(l: Ledger, cfg: SimConfig, id: string, e: BrokerEvent)
    requires LedgerOk(l, cfg) && id in l.st.pending && e.orderLinkId == id
    requires e.event.Cancel? || (l.st.pending[id].acked && IsFullFill(e, cfg, l.accepted[id]))
    ensures LedgerOk(l.(st := Close(l.st, id, e)), cfg)
  {
    var l1 := l.(st := l.st.(pending := l.st.pending - {id}, queue := Without(l.st.queue, id)));
    var l' := l.(st := Close(l.st, id, e));
    forall other ensures Shape(l', cfg, other) {
      HistoryGrows(l1, e, other);
      assert Shape(l, cfg, other);
      assert l1.History() == l.History();
    }
    forall other | other in l'.st.pending ensures PendingMatches(l', cfg, other) {
      assert PendingMatches(l, cfg, other);
    }
  }

  /** Replacing a pending order by one with the same terms keeps the ledger. */
  lemma UpdateKeepsLedger(l: Ledger, cfg: SimConfig, id: string, p: PendingOrder)
    requires LedgerOk(l, cfg) && id in l.st.pending
    requires p == l.st.pending[id].(queueAhead := p.queueAhead)
    ensures LedgerOk(l.(st := l.st.(pending := l.st.pending[id := p])), cfg)
  {
    var l' := l.(st := l.st.(pending := l.st.pending[id := p]));
    forall other ensures Shape(l', cfg, other) {
      assert Shape(l, cfg, other);
      assert l'.History() == l.History();
    }
    forall other | other in l'.st.pending ensures PendingMatches(l', cfg, other) {
      assert PendingMatches(l, cfg, other);
    }
  }

  lemma AckKeepsLedger(l: Ledger, cfg: SimConfig, id: string, now: int)
    requires LedgerOk(l, cfg) && id in l.st.pending && now >= l.st.pending[id].visibleAt
    ensures LedgerOk(l.(st := Acked(l.st, id, now)), cfg)
  {
    if !l.st.pending[id].acked {
      var e := BrokerEvent(id, Ack("sim-" + id), now);
      var l1 := l.(st := l.st.(pending := l.st.pending[id := l.st.pending[id].(acked := true)]));
      var l' := l.(st := Acked(l.st, id, now));
      assert PendingMatches(l, cfg, id);
      forall other ensures Shape(l', cfg, other) {
        HistoryGrows(l1, e, other);
        assert Shape(l, cfg, other);
        assert l1.History() == l.History();
      }
      forall other | other in l'.st.pending ensures PendingMatches(l', cfg, other) {
        assert PendingMatches(l, cfg, other);
      }
    }
  }

  lemma VisitKeepsLedger(l: Ledger, cfg: SimConfig, id: string, tape: Tape)
    requires LedgerOk(l, cfg)
    ensures LedgerOk(l.(st := Visited(l.st, cfg, id, tape)), cfg)
  {
    if id in l.st.pending && l.st.pending[id].symbol == tape.symbol && tape.now >= l.st.pending[id].visibleAt {
      AckKeepsLedger(l, cfg, id, tape.now);
      var l1 := l.(st := Acked(l.st, id, tape.now));
      var order := l1.st.pending[id];
      assert PendingMatches(l1, cfg, id) && order.acked;
      if order.limitPrice.None? {
        var price := SweepPrice(tape.book, order.side, order.qty - order.filled);
        if price.Some? {
          CloseKeepsLedger(l1, cfg, id, BrokerEvent(id,
            Fill(order.qty - order.filled, price.value, FeeOn(order.qty - order.filled, price.value, cfg.takerFeeRate),
                 false), tape.now));
        }
      } else {
        LimitKeepsLedger(l1, cfg, id, tape);
      }
    }
  }

  lemma LimitKeepsLedger(l: Ledger, cfg: SimConfig, id: string, tape: Tape)
    requires LedgerOk(l, cfg) && id in l.st.pending && l.st.pending[id].limitPrice.Some?
    requires l.st.pending[id].acked && tape.now >= l.st.pending[id].visibleAt
    ensures LedgerOk(l.(st := FilledLimit(l.st, cfg, id, tape)), cfg)
  {
    var order := l.st.pending[id];
    var limit := order.limitPrice.value;
    var top := TopOfBook(tape.book);
    assert PendingMatches(l, cfg, id);
    if top.bid.Some? && top.ask.Some? {
      var through := TradedThrough(order, limit, top.bid.value, top.ask.value);
      if through || TradedAt(limit, tape) {
        var ahead := if through then order.queueAhead else order.queueAhead - tape.tradedVolume;
        var p := order.(queueAhead := ahead);
        UpdateKeepsLedger(l, cfg, id, p);
        var l1 := l.(st := l.st.(pending := l.st.pending[id := p]));
        if through || ahead <= 0.0 {
          var remaining := order.qty - order.filled;
          var fill := Fill(remaining, limit, FeeOn(remaining, limit, cfg.makerFeeRate), true);
          CloseKeepsLedger(l1, cfg, id, BrokerEvent(id, fill, tape.now));
        }
      }
    }
  }

  lemma {:induction false} VisitEachKeepsLedger(l: Ledger, cfg: SimConfig, ids: seq<string>, tape: Tape)
    requires LedgerOk(l, cfg)
    ensures LedgerOk(l.(st := VisitedEach(l.st, cfg, ids, tape)), cfg)
  {
    if ids != [] {
      var front := ids[..|ids| - 1];
      VisitEachKeepsLedger(l, cfg, front, tape);
      VisitKeepsLedger(l.(st := VisitedEach(l.st, cfg, front, tape)), cfg, ids[|ids| - 1], tape);
    }
  }

  lemma {:induction false} CancelEachKeepsLedger(l: Ledger, cfg: SimConfig, ids: seq<string>, at: int)
    requires LedgerOk(l, cfg)
    ensures LedgerOk(l.(st := CancelledEach(l.st, cfg, ids, at)), cfg)
  {
    if ids != [] {
      var front, id := ids[..|ids| - 1], ids[|ids| - 1];
      CancelEachKeepsLedger(l, cfg, front, at);
      CancelKeepsLedger(l.(st := CancelledEach(l.st, cfg, front, at)), cfg, id, at);
    }
  }

  lemma CancelKeepsLedger(l: Ledger, cfg: SimConfig, id: string, at: int)
    requires LedgerOk(l, cfg)
    ensures LedgerOk(l.(st := Cancelled(l.st, cfg, id, at)), cfg)
  {
    if id in l.st.pending { CloseKeepsLedger(l, cfg, id, BrokerEvent(id, Cancel, at + cfg.latencyMs)); }
  }

  lemma BooksKeepLedger(l: Ledger, cfg: SimConfig, books: map<string, OrderBookSnapshot>)
    requires LedgerOk(l, cfg)
    ensures LedgerOk(l.(st := l.st.(books := books)), cfg)
  {
    var l' := l.(st := l.st.(books := books));
    forall id ensures Shape(l', cfg, id) {
      assert Shape(l, cfg, id);
      assert l'.History() == l.History();
    }
    forall id | id in l'.st.pending ensures PendingMatches(l', cfg, id) {
      assert PendingMatches(l, cfg, id);
    }
  }

  lemma SubmitKeepsLedger(l: Ledger, cfg: SimConfig, intent: OrderIntent, at: int)
    requires LedgerOk(l, cfg)
    ensures LedgerOk(Call(l, cfg, SubmitCall(intent, at)), cfg)
  {
    var l' := Call(l, cfg, SubmitCall(intent, at));
    assert l'.History() == l.History();
    forall id ensures Shape(l', cfg, id) {
      assert Shape(l, cfg, id);
      assert id in l.st.pending ==> PendingMatches(l, cfg, id);
    }
    forall id | id in l'.st.pending ensures PendingMatches(l', cfg, id) {
      assert id in l.st.pending ==> PendingMatches(l, cfg, id);
    }
  }

  lemma CallKeepsLedger(l: Ledger, cfg: SimConfig, call: BrokerCall)
    requires LedgerOk(l, cfg)
    ensures LedgerOk(Call(l, cfg, call), cfg)
  {
    match call
    case UpdateBookCall(symbol, book) => BooksKeepLedger(l, cfg, l.st.books[symbol := book]);
    case SubmitCall(intent, at) => SubmitKeepsLedger(l, cfg, intent, at);
    case CancelCall(id, at) => CancelKeepsLedger(l, cfg, id, at);
    case CancelAllCall(at) => CancelEachKeepsLedger(l, cfg, l.st.queue, at);
    case DrainCall =>
      var l' := Call(l, cfg, DrainCall);
      assert l'.History() == l.History();
      forall id ensures Shape(l', cfg, id) { assert Shape(l, cfg, id); }
      forall id | id in l'.st.pending ensures PendingMatches(l', cfg, id) { assert PendingMatches(l, cfg, id); }
    case StepCall(tape) =>
      BooksKeepLedger(l, cfg, l.st.books[tape.symbol := tape.book]);
      VisitEachKeepsLedger(l.(st := l.st.(books := l.st.books[tape.symbol := tape.book])), cfg, l.st.queue, tape);
  }

  /** Over every sequence of calls, duplicate ids included: an order the venue refused emits
      nothing; an accepted one emits at most one ack, then at most one fill for exactly its
      quantity or one cancel, and nothing after; no ack and no fill is stamped earlier than the
      submission plus the latency. */
  lemma {:induction false} EventsOfEveryOrder(cfg: SimConfig, calls: seq<BrokerCall>)
    ensures LedgerOk(RunCalls(cfg, calls), cfg)
  {
    if calls == [] {
      var l := RunCalls(cfg, calls);
      forall id ensures Shape(l, cfg, id) { assert l.History() == []; }
    } else {
      EventsOfEveryOrder(cfg, calls[..|calls| - 1]);
      CallKeepsLedger(RunCalls(cfg, calls[..|calls| - 1]), cfg, calls[|calls| - 1]);
    }
  }
}
