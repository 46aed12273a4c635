/** The engine running against the simulated venue. */
module SimRuns {
  import opened Results
  import opened OrderStates
  import opened Events
  import opened Engines
  import opened SimBrokers

  /** One order intent: open it locally, submit it, book the reply. */
  function PlaceOrder(es: EngineState, br: SimState, cfg: SimConfig, intent: OrderIntent,
                      veto: Option<string>): (EngineState, SimState)
  {
    if veto.Some? then (LogOrder(es, intent, VetoedOrder, veto.value), br)
    else
      var (br', ack) := Submitted(br, cfg, intent, es.now);
      (Answer(Open(es, intent), intent, ack), br')
  }

  datatype SimStep =
    | MarketStep(tape: Tape)
    | FeedBook(symbol: string, book: OrderBookSnapshot)
    | Tick(ts: int)
    | DrainStep
    | Place(intent: OrderIntent, veto: Option<string>)
    | CancelStep(target: string, symbol: string, reason: string)
    | CancelAllStep(at: int)

  /** What a strategy may ask for. */
  datatype Intent = OrderWanted(order: OrderIntent) | CancelWanted(target: string, symbol: string, reason: string)

  datatype Session = Session(es: EngineState, br: SimState)

  function StepSession(s: Session, cfg: SimConfig, step: SimStep): Session {
    match step
    case MarketStep(tape) => s.(br := Stepped(s.br, cfg, tape))
    case FeedBook(symbol, book) => s.(br := s.br.(books := s.br.books[symbol := book]))
    case Tick(ts) => s.(es := AdvanceTo(s.es, ts))
    case DrainStep => Session(Drain(s.es, s.br.outbox), s.br.(outbox := []))
    case Place(intent, veto) =>
      var (es, br) := PlaceOrder(s.es, s.br, cfg, intent, veto);
      Session(es, br)
    case CancelStep(target, symbol, reason) =>
      Session(ProcessCancel(s.es, target, symbol, if target in s.br.pending then reason else "Unknown order"),
              Cancelled(s.br, cfg, target, s.es.now))
    case CancelAllStep(at) => s.(br := CancelledEach(s.br, cfg, s.br.queue, at))
  }

  function RunSession(cfg: SimConfig, steps: seq<SimStep>): Session {
    if steps == [] then Session(FRESH, EMPTY)
    else StepSession(RunSession(cfg, steps[..|steps| - 1]), cfg, steps[|steps| - 1])
  }

  /** Every order placed has a positive quantity and an id neither side has seen. */
  ghost predicate ProperSteps(cfg: SimConfig, steps: seq<SimStep>) {
    forall i :: 0 <= i < |steps| && steps[i].Place? ==>
      && steps[i].intent.qty > 0.0
      && steps[i].intent.id !in RunSession(cfg, steps[..i]).es.orders
      && steps[i].intent.id !in RunSession(cfg, steps[..i]).br.seen
  }

  // -------------------------------------------------------------- the class

  class SimEngine {
    const engine: Engine
    const broker: SimBroker

    constructor (config: SimConfig)
      ensures engine.State() == FRESH && broker.State() == EMPTY && broker.config == config
      ensures fresh(engine) && fresh(broker)
    {
      engine := new Engine();
      broker := new SimBroker(config);
    }

    /** One order intent, after the gate's verdict. */
    method PlaceIntent(intent: OrderIntent, veto: Option<string>)
      modifies engine, broker
      ensures (engine.State(), broker.State())
              == PlaceOrder(old(engine.State()), old(broker.State()), broker.config, intent, veto)
    {
      if veto.Some? {
        engine.Veto(intent, veto.value);
      } else {
        engine.OpenOrder(intent);
        var ack := broker.Submit(intent, engine.now);
        engine.BookAnswer(intent, ack);
      }
    }

    /** One cancel intent: ask the venue, then log its answer. */
    method CancelIntent(target: string, symbol: string, reason: string)
      modifies engine, broker
      ensures Session(engine.State(), broker.State())
              == StepSession(old(Session(engine.State(), broker.State())), broker.config,
                             SimStep.CancelStep(target, symbol, reason))
      ensures broker.pending == old(broker.pending) - {target} && engine.orders == old(engine.orders)
      ensures engine.decisions == old(engine.decisions)
                + [Decision(engine.now, |old(engine.decisions)|, CancelledOrder, target, symbol, 0.0,
                            if target in old(broker.pending) then reason else "Unknown order")]
    {
      var accepted := broker.CancelOrder(target, engine.now);
      engine.BookCancel(target, symbol, if accepted then reason else "Unknown order");
    }

    /** One event: advance the clock, drain the broker, then act on what the strategy asked for. */
    method Handle(ts: int, intents: seq<Intent>, vetoes: seq<Option<string>>)
      requires |intents| == |vetoes|
      modifies engine, broker
      ensures Session(engine.State(), broker.State())
              == Handled(old(Session(engine.State(), broker.State())), broker.config, ts, intents, vetoes)
    {
      engine.AdvanceClock(ts);
      var batch := broker.DrainEvents();
      engine.DrainBroker(batch);
      ghost var s0 := Session(engine.State(), broker.State());
      for i := 0 to |intents|
        invariant Session(engine.State(), broker.State()) == ActedEach(s0, broker.config, intents[..i], vetoes[..i])
      {
        assert intents[..i + 1][..i] == intents[..i] && vetoes[..i + 1][..i] == vetoes[..i];
        match intents[i]
        case OrderWanted(intent) => PlaceIntent(intent, vetoes[i]);
        case CancelWanted(target, symbol, reason) => CancelIntent(target, symbol, reason);
      }
      assert intents[..|intents|] == intents && vetoes[..|intents|] == vetoes;
    }
  }

  /** What one intent makes of a session; the gate's verdict concerns orders only. */
  function ActOn(intent: Intent, veto: Option<string>): SimStep {
    match intent
    case OrderWanted(order) => Place(order, veto)
    case CancelWanted(target, symbol, reason) => SimStep.CancelStep(target, symbol, reason)
  }

  function ActedEach(s: Session, cfg: SimConfig, intents: seq<Intent>, vetoes: seq<Option<string>>): Session
    requires |intents| == |vetoes|
  {
    if intents == [] then s
    else
      var n := |intents| - 1;
      StepSession(ActedEach(s, cfg, intents[..n], vetoes[..n]), cfg, ActOn(intents[n], vetoes[n]))
  }

  function Handled(s: Session, cfg: SimConfig, ts: int, intents: seq<Intent>, vetoes: seq<Option<string>>): Session
    requires |intents| == |vetoes|
  {
    ActedEach(StepSession(StepSession(s, cfg, SimStep.Tick(ts)), cfg, DrainStep), cfg, intents, vetoes)
  }

  // --------------------------------------------- the two sides stay in step

  /** Draining the batch logs no refused event. */
  predicate CleanDrain(es: EngineState, batch: seq<BrokerEvent>) {
    batch == []
    || (var front, last := batch[..|batch| - 1], batch[|batch| - 1];
        CleanDrain(es, front) && DrainOne(Drain(es, front), last).decisions == Drain(es, front).decisions)
  }

  lemma {:induction false} CleanDrainLogsNothing(es: EngineState, batch: seq<BrokerEvent>)
    requires CleanDrain(es, batch)
    ensures Drain(es, batch).decisions == es.decisions
  {
    if batch != [] { CleanDrainLogsNothing(es, batch[..|batch| - 1]); }
  }

  /** A pending order and the engine's record of it once the outbox is drained. */
  predicate InStep(o: OrderRecord, p: PendingOrder) {
    && o.state == (if p.acked then ACK else SUBMITTED)
    && o.filledQty == 0.0 && p.filled == 0.0
    && o.qty == p.qty > 0.0
  }

  ghost predicate Synced(s: Session) {
    && CleanDrain(s.es, s.br.outbox)
    && s.br.pending.Keys <= s.br.seen
    && (forall i :: 0 <= i < |s.br.outbox| ==> s.br.outbox[i].orderLinkId in s.br.seen)
    && (forall id :: id in s.br.pending ==>
          && id in Drain(s.es, s.br.outbox).orders
          && InStep(Drain(s.es, s.br.outbox).orders[id], s.br.pending[id]))
  }

  /** Emitting an event that the drained record accepts keeps the drain clean. */
  lemma EmitOne(es: EngineState, outbox: seq<BrokerEvent>, e: BrokerEvent)
    requires CleanDrain(es, outbox)
    requires e.orderLinkId in Drain(es, outbox).orders
    requires ApplyOrderEvent(Drain(es, outbox).orders[e.orderLinkId], e.event).Ok?
    ensures CleanDrain(es, outbox + [e])
    ensures Drain(es, outbox + [e]).orders
            == Drain(es, outbox).orders[
                 e.orderLinkId := ApplyOrderEvent(Drain(es, outbox).orders[e.orderLinkId], e.event).order]
  {
    assert (outbox + [e])[..|outbox|] == outbox;
  }

  lemma CloseKeepsStep(s: Session, id: string, e: BrokerEvent)
    requires Synced(s) && id in s.br.pending && e.orderLinkId == id
    requires e.event.Cancel? || (s.br.pending[id].acked && e.event.Fill? && e.event.qty == s.br.pending[id].qty)
    ensures Synced(s.(br := Close(s.br, id, e)))
  {
    EmitOne(s.es, s.br.outbox, e);
  }

  lemma AckKeepsStep(s: Session, id: string, now: int)
    requires Synced(s) && id in s.br.pending
    ensures Synced(s.(br := Acked(s.br, id, now)))
  {
    if !s.br.pending[id].acked {
      EmitOne(s.es, s.br.outbox, BrokerEvent(id, Ack("sim-" + id), now));
    }
  }

  lemma VisitKeepsStep(s: Session, cfg: SimConfig, id: string, tape: Tape)
    requires Synced(s)
    ensures Synced(s.(br := Visited(s.br, cfg, id, tape)))
  {
    hide CleanDrain, Drain, ApplyOrderEvent, Without, FeeOn, SweepPrice;
    if id in s.br.pending && s.br.pending[id].symbol == tape.symbol && tape.now >= s.br.pending[id].visibleAt {
      AckKeepsStep(s, id, tape.now);
      var s1 := s.(br := Acked(s.br, id, tape.now));
      var order := s1.br.pending[id];
      var remaining := order.qty - order.filled;
      if order.limitPrice.None? {
        var price := SweepPrice(tape.book, order.side, remaining);
        if price.Some? {
          var fill := Fill(remaining, price.value, FeeOn(remaining, price.value, cfg.takerFeeRate), false);
          CloseKeepsStep(s1, id, BrokerEvent(id, fill, tape.now));
        }
      } else {
        LimitKeepsStep(s1, cfg, id, tape);
      }
    }
  }

  lemma LimitKeepsStep(s: Session, cfg: SimConfig, id: string, tape: Tape)
    requires Synced(s) && id in s.br.pending && s.br.pending[id].limitPrice.Some? && s.br.pending[id].acked
    ensures Synced(s.(br := FilledLimit(s.br, cfg, id, tape)))
  {
    hide CleanDrain, Drain, ApplyOrderEvent, Without, FeeOn, TradedThrough, TradedAt;
    var order := s.br.pending[id];
    var limit := order.limitPrice.value;
    var top := TopOfBook(tape.book);
    if top.bid.Some? && top.ask.Some? {
      var through := TradedThrough(order, limit, top.bid.value, top.ask.value);
      if through || TradedAt(limit, tape) {
        var ahead := if through then order.queueAhead else order.queueAhead - tape.tradedVolume;
        var s1 := s.(br := s.br.(pending := s.br.pending[id := order.(queueAhead := ahead)]));
        assert Synced(s1);
        if through || ahead <= 0.0 {
          var remaining := order.qty - order.filled;
          var fill := Fill(remaining, limit, FeeOn(remaining, limit, cfg.makerFeeRate), true);
          CloseKeepsStep(s1, id, BrokerEvent(id, fill, tape.now));
        }
      }
    }
  }

  lemma {:induction false} VisitEachKeepsStep(s: Session, cfg: SimConfig, ids: seq<string>, tape: Tape)
    requires Synced(s)
    ensures Synced(s.(br := VisitedEach(s.br, cfg, ids, tape)))
  {
    if ids != [] {
      var front := ids[..|ids| - 1];
      VisitEachKeepsStep(s, cfg, front, tape);
      VisitKeepsStep(s.(br := VisitedEach(s.br, cfg, front, tape)), cfg, ids[|ids| - 1], tape);
    }
  }

  lemma CancelKeepsStep(s: Session, cfg: SimConfig, id: string, at: int)
    requires Synced(s)
    ensures Synced(s.(br := Cancelled(s.br, cfg, id, at)))
  {
    if id in s.br.pending { CloseKeepsStep(s, id, BrokerEvent(id, Cancel, at + cfg.latencyMs)); }
  }

  lemma {:induction false} CancelEachKeepsStep(s: Session, cfg: SimConfig, ids: seq<string>, at: int)
    requires Synced(s)
    ensures Synced(s.(br := CancelledEach(s.br, cfg, ids, at)))
  {
    if ids != [] {
      var front := ids[..|ids| - 1];
      CancelEachKeepsStep(s, cfg, front, at);
      CancelKeepsStep(s.(br := CancelledEach(s.br, cfg, front, at)), cfg, ids[|ids| - 1], at);
    }
  }

  /** Records the batch does not mention do not affect whether it drains cleanly. */
  lemma {:induction false} CleanDrainFrame(es: EngineState, es': EngineState, batch: seq<BrokerEvent>, id: string,
                                           order: OrderRecord)
    requires CleanDrain(es, batch)
    requires es'.orders == es.orders[id := order] && es'.positions == es.positions
    requires forall i :: 0 <= i < |batch| ==> batch[i].orderLinkId != id
    ensures CleanDrain(es', batch)
  {
    if batch != [] {
      hide ApplyOrderEvent;
      var front := batch[..|batch| - 1];
      CleanDrainFrame(es, es', front, id, order);
      DrainFrame(es, es', front, id, order);
    }
  }

  /** Neither does what was logged before. */
  lemma {:induction false} CleanDrainIgnoresLog(es: EngineState, es': EngineState, batch: seq<BrokerEvent>)
    requires CleanDrain(es, batch)
    requires es'.orders == es.orders && es'.positions == es.positions
    ensures CleanDrain(es', batch)
    ensures Drain(es', batch).orders == Drain(es, batch).orders
  {
    hide ApplyOrderEvent;
    DrainIgnoresLog(es, es', batch);
    if batch != [] {
      var front := batch[..|batch| - 1];
      CleanDrainIgnoresLog(es, es', front);
      DrainIgnoresLog(es, es', front);
    }
  }

  lemma PlaceKeepsStep(s: Session, cfg: SimConfig, intent: OrderIntent, veto: Option<string>)
    requires Synced(s) && intent.qty > 0.0
    requires intent.id !in s.es.orders && intent.id !in s.br.seen
    ensures Synced(StepSession(s, cfg, Place(intent, veto)))
  {
    var s' := StepSession(s, cfg, Place(intent, veto));
    if veto.Some? {
      CleanDrainIgnoresLog(s.es, s'.es, s.br.outbox);
    } else {
      PlacedSession(s, cfg, intent);
      NewOrderKeepsStep(s, s', intent.id);
    }
  }

  /** What placing a new order leaves: its record beside the others, in step with the venue if pending there. */
  predicate AddsOrder(s: Session, s': Session, id: string) {
    && id in s'.es.orders && s'.es.orders == s.es.orders[id := s'.es.orders[id]]
    && s'.es.positions == s.es.positions
    && s'.br.outbox == s.br.outbox && s'.br.seen == s.br.seen + {id}
    && (s'.br.pending == s.br.pending
        || (id in s'.br.pending && s'.br.pending == s.br.pending[id := s'.br.pending[id]]
            && InStep(s'.es.orders[id], s'.br.pending[id])))
  }

  lemma PlacedSession(s: Session, cfg: SimConfig, intent: OrderIntent)
    requires intent.qty > 0.0 && intent.id !in s.es.orders && intent.id !in s.br.seen
    ensures AddsOrder(s, StepSession(s, cfg, Place(intent, None)), intent.id)
  {
    hide LimitPriceOf, MarketRefusal;
  }

  lemma NewOrderKeepsStep(s: Session, s': Session, id: string)
    requires Synced(s) && AddsOrder(s, s', id) && id !in s.br.seen
    ensures Synced(s')
  {
    var order := s'.es.orders[id];
    CleanDrainFrame(s.es, s'.es, s.br.outbox, id, order);
    DrainFrame(s.es, s'.es, s.br.outbox, id, order);
    hide CleanDrain, Drain, InStep;
  }

  /** In every run with fresh ids and positive quantities, draining the venue never logs a
      refused event, and each position then held is the signed sum of what the orders filled. */
  lemma {:induction false} NeverAnIllegalTransition(cfg: SimConfig, steps: seq<SimStep>)
    requires ProperSteps(cfg, steps)
    ensures Synced(RunSession(cfg, steps))
    ensures var s := RunSession(cfg, steps);
            && Drain(s.es, s.br.outbox).decisions == s.es.decisions
            && PositionsFollowFills(s.es) && PositionsFollowFills(Drain(s.es, s.br.outbox))
  {
    if steps != [] {
      var front, last := steps[..|steps| - 1], steps[|steps| - 1];
      assert forall i :: 0 <= i < |front| ==> front[..i] == steps[..i] && front[i] == steps[i];
      NeverAnIllegalTransition(cfg, front);
      StepKeepsStep(RunSession(cfg, front), cfg, last);
      StepFollowsFills(RunSession(cfg, front), cfg, last);
    } else {
      PositionsFollowFillsAlways([]);
    }
    var s := RunSession(cfg, steps);
    CleanDrainLogsNothing(s.es, s.br.outbox);
    DrainFollowsFills(s.es, s.br.outbox);
  }

  lemma StepFollowsFills(s: Session, cfg: SimConfig, step: SimStep)
    requires PositionsFollowFills(s.es)
    requires step.Place? ==> step.intent.id !in s.es.orders
    ensures PositionsFollowFills(StepSession(s, cfg, step).es)
  {
    match step
    case DrainStep => DrainFollowsFills(s.es, s.br.outbox);
    case Place(intent, veto) =>
      var (_, ack) := Submitted(s.br, cfg, intent, s.es.now);
      OrderFollowsFillsIff(s.es, intent, veto, ack);
    case _ =>
  }

  lemma StepKeepsStep(s: Session, cfg: SimConfig, step: SimStep)
    requires Synced(s)
    requires step.Place? ==> step.intent.qty > 0.0 && step.intent.id !in s.es.orders && step.intent.id !in s.br.seen
    ensures Synced(StepSession(s, cfg, step))
  {
    match step
    case MarketStep(tape) =>
      VisitEachKeepsStep(s.(br := s.br.(books := s.br.books[tape.symbol := tape.book])), cfg, s.br.queue, tape);
    case FeedBook(_, _) =>
    case Tick(ts) => CleanDrainIgnoresLog(s.es, AdvanceTo(s.es, ts), s.br.outbox);
    case DrainStep =>
    case Place(intent, veto) => PlaceKeepsStep(s, cfg, intent, veto);
    case CancelStep(target, symbol, reason) =>
      var es := StepSession(s, cfg, step).es;
      CleanDrainIgnoresLog(s.es, es, s.br.outbox);
      CancelKeepsStep(s.(es := es), cfg, target, s.es.now);
    case CancelAllStep(at) => CancelEachKeepsStep(s, cfg, s.br.queue, at);
  }
}
