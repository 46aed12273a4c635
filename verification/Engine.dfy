/** The execution engine: it drains broker events into order records and positions, and turns
    intents into orders. Replies of the broker and of the risk gate are parameters. */
module Engines {
  import opened Results
  import opened OrderStates
  import opened Sums
  import opened Prefixes

  datatype ExecutionStyle =
    | Market
    | Limit(price: real, postOnly: bool)
    | Passive(maxRepegs: int)
    | Twap(windowMs: int, slices: int)
    | Iceberg(displayQty: real)

  /** An order request; `id` is the deterministic orderLinkId of its key. */
  datatype OrderIntent = OrderIntent(
    id: string, symbol: string, side: Side, qty: real, style: ExecutionStyle,
    reduceOnly: bool, maxSlippageBps: Option<real>, rationale: string)

  datatype SubmitAck = SubmitAck(accepted: bool, exchangeOrderId: Option<string>, reason: Option<string>,
                                 duplicate: bool)

  datatype BrokerEvent = BrokerEvent(orderLinkId: string, event: OrderEvent, at: int)

  datatype DecisionKind =
    | SubmittedOrder
    | VetoedOrder
    | RefusedOrder
    | RejectedEvent(error: OrderError)
    | CancelledOrder

  datatype Decision = Decision(at: int, seqNo: nat, kind: DecisionKind, orderLinkId: string, symbol: string,
                               qty: real, detail: string)

  datatype EngineState = EngineState(
    now: int, orders: map<string, OrderRecord>, positions: map<string, real>, decisions: seq<Decision>)
  {
    function PositionOf(symbol: string): real {
      At(positions, symbol)
    }
  }

  const FRESH: EngineState := EngineState(0, map[], map[], [])

  function Signed(side: Side, qty: real): real {
    if side == Buy then qty else -qty
  }

  // ------------------------------------------------------------ transitions

  function AdvanceTo(es: EngineState, ts: int): EngineState {
    if ts > es.now then es.(now := ts) else es
  }

  /** Applies one broker event: unknown ids are skipped, refused events are logged. */
  function DrainOne(es: EngineState, e: BrokerEvent): EngineState {
    if e.orderLinkId !in es.orders then es
    else
      var existing := es.orders[e.orderLinkId];
      var result := ApplyOrderEvent(existing, e.event);
      if result.Err? then
        es.(decisions := es.decisions
          + [Decision(e.at, |es.decisions|, RejectedEvent(result.error), e.orderLinkId, existing.symbol, existing.qty,
                      "")])
      else
        es.(orders := es.orders[e.orderLinkId := result.order],
            positions := if e.event.Fill?
                         then es.positions[existing.symbol := es.PositionOf(existing.symbol)
                                           + Signed(existing.side, e.event.qty)]
                         else es.positions)
  }

  function Drain(es: EngineState, batch: seq<BrokerEvent>): EngineState {
    if batch == [] then es else DrainOne(Drain(es, batch[..|batch| - 1]), batch[|batch| - 1])
  }

  /** The record created for an intent, already marked as submitted. */
  function SubmittedRecord(intent: OrderIntent): OrderRecord {
    ApplyOrderEvent(NewOrder(intent.id, intent.symbol, intent.side, intent.qty), Submit).order
  }

  function LogOrder(es: EngineState, intent: OrderIntent, kind: DecisionKind, detail: string): EngineState {
    es.(decisions := es.decisions
      + [Decision(es.now, |es.decisions|, kind, intent.id, intent.symbol, intent.qty, detail)])
  }

  function Open(es: EngineState, intent: OrderIntent): EngineState {
    es.(orders := es.orders[intent.id := SubmittedRecord(intent)])
  }

  /** Books the broker's reply; a refusal also rejects the local record. */
  function Answer(es: EngineState, intent: OrderIntent, ack: SubmitAck): EngineState {
    if ack.accepted then LogOrder(es, intent, SubmittedOrder, intent.rationale)
    else
      var logged := LogOrder(es, intent, RefusedOrder, ack.reason.GetOr("rejected"));
      if intent.id !in es.orders then logged
      else
        var rejected := ApplyOrderEvent(es.orders[intent.id], Reject(ack.reason.GetOr("rejected")));
        if rejected.Ok? then logged.(orders := es.orders[intent.id := rejected.order]) else logged
  }

  /** One order intent end to end, given the verdict of the gate and the reply of the broker. */
  function ProcessOrder(es: EngineState, intent: OrderIntent, veto: Option<string>, ack: SubmitAck): EngineState {
    if veto.Some? then LogOrder(es, intent, VetoedOrder, veto.value)
    else Answer(Open(es, intent), intent, ack)
  }

  function ProcessCancel(es: EngineState, target: string, symbol: string, reason: string): EngineState {
    es.(decisions := es.decisions + [Decision(es.now, |es.decisions|, CancelledOrder, target, symbol, 0.0, reason)])
  }

  function Override(positions: map<string, real>, symbol: string, size: real): map<string, real> {
    if size == 0.0 then positions - {symbol} else positions[symbol := size]
  }

  // -------------------------------------------------------------- the class

  class Engine {
    var now: int
    var orders: map<string, OrderRecord>
    var positions: map<string, real>
    var decisions: seq<Decision>
    var intentSeq: nat

    ghost function State(): EngineState
      reads this
    {
      EngineState(now, orders, positions, decisions)
    }

    constructor ()
      ensures State() == FRESH && intentSeq == 0
    {
      now, orders, positions, decisions, intentSeq := 0, map[], map[], [], 0;
    }

    method NextIntentSeq() returns (n: nat)
      modifies this`intentSeq
      ensures n == old(intentSeq) && intentSeq == n + 1
    {
      n := intentSeq;
      intentSeq := intentSeq + 1;
    }

    method AdvanceClock(ts: int)
      modifies this`now
      ensures State() == AdvanceTo(old(State()), ts) && now == if old(now) <= ts then ts else old(now)
    {
      if ts > now { now := ts; }
    }

    method DrainBroker(batch: seq<BrokerEvent>)
      modifies this`orders, this`positions, this`decisions
      ensures State() == Drain(old(State()), batch)
    {
      for i := 0 to |batch|
        invariant State() == Drain(old(State()), batch[..i])
      {
        var e := batch[i];
        assert batch[..i + 1][..i] == batch[..i];
        if e.orderLinkId in orders {
          var existing := orders[e.orderLinkId];
          var result := ApplyOrderEvent(existing, e.event);
          if result.Err? {
            decisions := decisions
              + [Decision(e.at, |decisions|, RejectedEvent(result.error), e.orderLinkId, existing.symbol, existing.qty,
                          "")];
          } else {
            orders := orders[e.orderLinkId := result.order];
            if e.event.Fill? {
              positions := positions[existing.symbol := At(positions, existing.symbol)
                                     + Signed(existing.side, e.event.qty)];
            }
          }
        }
      }
      assert batch[..|batch|] == batch;
    }

    method OpenOrder(intent: OrderIntent)
      modifies this`orders
      ensures State() == Open(old(State()), intent)
      ensures orders == old(orders)[intent.id := OrderRecord(intent.id, None, intent.symbol, intent.side, intent.qty,
                                                             0.0, 0.0, 0.0, SUBMITTED, None, 1)]
    {
      var submitted := ApplyOrderEvent(NewOrder(intent.id, intent.symbol, intent.side, intent.qty), Submit);
      if submitted.Ok? { orders := orders[intent.id := submitted.order]; }
    }

    method Veto(intent: OrderIntent, reason: string)
      modifies this`decisions
      ensures State() == LogOrder(old(State()), intent, VetoedOrder, reason)
      ensures decisions == old(decisions) + [Decision(now, |old(decisions)|, VetoedOrder, intent.id, intent.symbol,
                                                      intent.qty, reason)]
    {
      decisions := decisions + [Decision(now, |decisions|, VetoedOrder, intent.id, intent.symbol, intent.qty, reason)];
    }

    method BookAnswer(intent: OrderIntent, ack: SubmitAck)
      modifies this`orders, this`decisions
      ensures State() == Answer(old(State()), intent, ack)
      ensures decisions == old(decisions)
                + [Decision(now, |old(decisions)|, if ack.accepted then SubmittedOrder else RefusedOrder, intent.id,
                            intent.symbol, intent.qty,
                            if ack.accepted then intent.rationale else ack.reason.GetOr("rejected"))]
      ensures ack.accepted || intent.id !in old(orders) || old(orders)[intent.id].state !in {NEW, SUBMITTED, ACK} ==>
                orders == old(orders)
      ensures !ack.accepted && intent.id in old(orders) && old(orders)[intent.id].state in {NEW, SUBMITTED, ACK} ==>
                var o := old(orders)[intent.id];
                orders == old(orders)[intent.id := o.(state := REJECTED, revision := o.revision + 1,
                                                      rejectReason := Some(ack.reason.GetOr("rejected")))]
    {
      decisions := decisions
        + [Decision(now, |decisions|, if ack.accepted then SubmittedOrder else RefusedOrder, intent.id, intent.symbol,
                    intent.qty,
                    if ack.accepted then intent.rationale else ack.reason.GetOr("rejected"))];
      if !ack.accepted && intent.id in orders {
        var rejected := ApplyOrderEvent(orders[intent.id], Reject(ack.reason.GetOr("rejected")));
        if rejected.Ok? { orders := orders[intent.id := rejected.order]; }
      }
    }

    method BookCancel(target: string, symbol: string, reason: string)
      modifies this`decisions
      ensures State() == ProcessCancel(old(State()), target, symbol, reason)
      ensures decisions == old(decisions)
                + [Decision(now, |old(decisions)|, CancelledOrder, target, symbol, 0.0, reason)]
    {
      decisions := decisions + [Decision(now, |decisions|, CancelledOrder, target, symbol, 0.0, reason)];
    }

    method OverridePosition(symbol: string, size: real)
      modifies this`positions
      ensures positions == Override(old(positions), symbol, size)
      ensures forall other :: At(positions, other) == if other == symbol then size else At(old(positions), other)
      ensures symbol in positions <==> size != 0.0
    {
      if size == 0.0 { positions := positions - {symbol}; } else { positions := positions[symbol := size]; }
    }

    method RestoreOrders(recovered: map<string, OrderRecord>)
      modifies this`orders
      ensures orders == old(orders) + recovered
    {
      var ids := recovered.Keys;
      while ids != {}
        invariant ids <= recovered.Keys
        invariant orders == old(orders) + map id | id in recovered.Keys - ids :: recovered[id]
        decreases |ids|
      {
        var id :| id in ids;
        orders := orders[id := recovered[id]];
        ids := ids - {id};
      }
      assert recovered.Keys - ids == recovered.Keys;
      assert (map id | id in recovered.Keys :: recovered[id]) == recovered;
    }
  }

  // ------------------------------------------------------ what a drain reads

  /** Records the batch does not mention are carried through a drain untouched. */
  lemma {:induction false} DrainFrame(es: EngineState, es': EngineState, batch: seq<BrokerEvent>, id: string,
                                      order: OrderRecord)
    requires es'.orders == es.orders[id := order] && es'.positions == es.positions
    requires forall i :: 0 <= i < |batch| ==> batch[i].orderLinkId != id
    ensures Drain(es', batch).orders == Drain(es, batch).orders[id := order]
    ensures Drain(es', batch).positions == Drain(es, batch).positions
  {
    hide ApplyOrderEvent;
    if batch != [] { DrainFrame(es, es', batch[..|batch| - 1], id, order); }
  }

  /** Neither the log nor the clock affects the records and positions a drain produces. */
  lemma {:induction false} DrainIgnoresLog(es: EngineState, es': EngineState, batch: seq<BrokerEvent>)
    requires es'.orders == es.orders && es'.positions == es.positions
    ensures Drain(es', batch).orders == Drain(es, batch).orders
    ensures Drain(es', batch).positions == Drain(es, batch).positions
  {
    hide ApplyOrderEvent;
    if batch != [] { DrainIgnoresLog(es, es', batch[..|batch| - 1]); }
  }

  // ---------------------------------------------- positions follow the fills

  /** Signed filled quantity of each order of a symbol. */
  function SignedFills(orders: map<string, OrderRecord>, symbol: string): map<string, real> {
    map id | id in orders && orders[id].symbol == symbol :: Signed(orders[id].side, orders[id].filledQty)
  }

  /** Each position is the signed sum of what that symbol's orders have filled. */
  ghost predicate FillsExplain(orders: map<string, OrderRecord>, positions: map<string, real>) {
    && (forall id :: id in orders ==> Sound(orders[id]))
    && (forall symbol :: At(positions, symbol) == SumOf(SignedFills(orders, symbol)))
  }

  ghost predicate PositionsFollowFills(es: EngineState) {
    FillsExplain(es.orders, es.positions)
  }

  /** Booking an accepted event of an order in both places keeps the two in agreement. */
  lemma EventKeepsExplained(orders: map<string, OrderRecord>, positions: map<string, real>, id: string,
                            event: OrderEvent)
    requires FillsExplain(orders, positions) && id in orders && ApplyOrderEvent(orders[id], event).Ok?
    ensures var o, symbol := ApplyOrderEvent(orders[id], event).order, orders[id].symbol;
            FillsExplain(orders[id := o],
                         if event.Fill? then positions[symbol := At(positions, symbol)
                                                       + Signed(orders[id].side, event.qty)]
                         else positions)
  {
    hide ApplyOrderEvent, Sound, FilledNotional, SignedFills;
    var was, o := orders[id], ApplyOrderEvent(orders[id], event).order;
    SoundStep(was, event);
    var positions' := if event.Fill? then positions[was.symbol := At(positions, was.symbol)
                                                    + Signed(was.side, event.qty)]
                      else positions;
    forall symbol
      ensures At(positions', symbol) == SumOf(SignedFills(orders[id := o], symbol))
    {
      ReplacedRecord(orders, id, o, symbol);
    }
  }

  function FillUnder(orders: map<string, OrderRecord>, id: string, symbol: string): real {
    if id in orders && orders[id].symbol == symbol then Signed(orders[id].side, orders[id].filledQty) else 0.0
  }

  /** Replacing one record takes its old fill out of the sums and puts its new one in. */
  lemma ReplacedRecord(orders: map<string, OrderRecord>, id: string, order: OrderRecord, symbol: string)
    ensures SumOf(SignedFills(orders[id := order], symbol))
            == SumOf(SignedFills(orders, symbol)) - FillUnder(orders, id, symbol)
                + FillUnder(orders[id := order], id, symbol)
  {
    var m, m' := SignedFills(orders, symbol), SignedFills(orders[id := order], symbol);
    if order.symbol == symbol {
      assert m' == m[id := Signed(order.side, order.filledQty)];
      SumUpdate(m, id, Signed(order.side, order.filledQty));
    } else if id in m {
      assert m' == m - {id};
      SumRemove(m, id);
    } else {
      assert m' == m;
    }
  }

  /** An id is free for an order when it is new, or its record has filled nothing. */
  predicate Unfilled(orders: map<string, OrderRecord>, id: string) {
    id !in orders || orders[id].filledQty == 0.0
  }

  /** Putting an unfilled record under an id keeps positions explained exactly when nothing filled is
      thrown away. */
  lemma ReplacingKeepsExplainedIff(orders: map<string, OrderRecord>, positions: map<string, real>, id: string,
                                   order: OrderRecord)
    requires FillsExplain(orders, positions) && Sound(order) && order.filledQty == 0.0
    ensures FillsExplain(orders[id := order], positions) <==> Unfilled(orders, id)
  {
    hide Sound, SignedFills;
    forall symbol
      ensures SumOf(SignedFills(orders[id := order], symbol)) == At(positions, symbol) - FillUnder(orders, id, symbol)
    {
      ReplacedRecord(orders, id, order, symbol);
    }
    if !Unfilled(orders, id) {
      assert FillUnder(orders, id, orders[id].symbol) != 0.0;
    }
  }

  lemma DrainOneFollowsFills(es: EngineState, e: BrokerEvent)
    requires PositionsFollowFills(es)
    ensures PositionsFollowFills(DrainOne(es, e))
  {
    hide FillsExplain, ApplyOrderEvent;
    if e.orderLinkId in es.orders && ApplyOrderEvent(es.orders[e.orderLinkId], e.event).Ok? {
      EventKeepsExplained(es.orders, es.positions, e.orderLinkId, e.event);
    }
  }

  lemma {:induction false} DrainFollowsFills(es: EngineState, batch: seq<BrokerEvent>)
    requires PositionsFollowFills(es)
    ensures PositionsFollowFills(Drain(es, batch))
  {
    if batch != [] {
      DrainFollowsFills(es, batch[..|batch| - 1]);
      DrainOneFollowsFills(Drain(es, batch[..|batch| - 1]), batch[|batch| - 1]);
    }
  }

  /** One order intent keeps positions explained exactly when the gate stops it or its id is free. */
  lemma OrderFollowsFillsIff(es: EngineState, intent: OrderIntent, veto: Option<string>, ack: SubmitAck)
    requires PositionsFollowFills(es)
    ensures PositionsFollowFills(ProcessOrder(es, intent, veto, ack)) <==> veto.Some? || Unfilled(es.orders, intent.id)
  {
    if veto.None? {
      var last := ProcessOrder(es, intent, veto, ack);
      var order := last.orders[intent.id];
      assert last.orders == es.orders[intent.id := order] && last.positions == es.positions;
      ReplacingKeepsExplainedIff(es.orders, es.positions, intent.id, order);
    }
  }

  /** Everything that can happen to an engine whose positions nobody overrides. */
  datatype EngineStep =
    | Tick(ts: int)
    | Batch(events: seq<BrokerEvent>)
    | Order(intent: OrderIntent, veto: Option<string>, ack: SubmitAck)
    | CancelStep(target: string, symbol: string, reason: string)

  function StepEngine(es: EngineState, step: EngineStep): EngineState {
    match step
    case Tick(ts) => AdvanceTo(es, ts)
    case Batch(events) => Drain(es, events)
    case Order(intent, veto, ack) => ProcessOrder(es, intent, veto, ack)
    case CancelStep(target, symbol, reason) => ProcessCancel(es, target, symbol, reason)
  }

  function RunEngine(steps: seq<EngineStep>): EngineState {
    if steps == [] then FRESH else StepEngine(RunEngine(steps[..|steps| - 1]), steps[|steps| - 1])
  }

  /** No order intent reuses an id the engine already holds. */
  /** One event of the broker: an unknown id changes nothing; an event its record refuses is only logged; an
      accepted one replaces the record, and a fill moves its symbol's position by what was bought or sold. */
  lemma OneEventOnly(es: EngineState, e: BrokerEvent)
    ensures var es' := DrainOne(es, e);
            if e.orderLinkId !in es.orders then es' == es
            else
              var o, r := es.orders[e.orderLinkId], ApplyOrderEvent(es.orders[e.orderLinkId], e.event);
              if r.Err? then
                && (es'.now, es'.orders, es'.positions) == (es.now, es.orders, es.positions)
                && es'.decisions == es.decisions
                     + [Decision(e.at, |es.decisions|, RejectedEvent(r.error), e.orderLinkId, o.symbol, o.qty, "")]
              else
                && (es'.now, es'.decisions) == (es.now, es.decisions)
                && es'.orders == es.orders[e.orderLinkId := r.order]
                && forall symbol :: At(es'.positions, symbol) - At(es.positions, symbol)
                                    == if !e.event.Fill? || symbol != o.symbol then 0.0
                                       else match o.side case Buy => e.event.qty case Sell => -e.event.qty
  {
    hide ApplyOrderEvent;
  }

  predicate Numbered(log: seq<Decision>) {
    forall i :: 0 <= i < |log| ==> log[i].seqNo == i
  }

  /** In every run the log is numbered from zero, without a gap. */
  lemma {:induction false} LogIsNumbered(steps: seq<EngineStep>)
    ensures Numbered(RunEngine(steps).decisions)
  {
    if steps != [] {
      hide ApplyOrderEvent, DrainOne;
      var es, last := RunEngine(steps[..|steps| - 1]), steps[|steps| - 1];
      LogIsNumbered(steps[..|steps| - 1]);
      match last
      case Batch(events) => DrainKeepsNumbers(es, events);
      case Order(intent, veto, ack) => assert Numbered(LogOrder(es, intent, VetoedOrder, "").decisions);
      case _ =>
    }
  }

  lemma {:induction false} DrainKeepsNumbers(es: EngineState, batch: seq<BrokerEvent>)
    requires Numbered(es.decisions)
    ensures Numbered(Drain(es, batch).decisions)
  {
    hide ApplyOrderEvent;
    if batch != [] {
      var front := Drain(es, batch[..|batch| - 1]);
      DrainKeepsNumbers(es, batch[..|batch| - 1]);
      assert Drain(es, batch) == DrainOne(front, batch[|batch| - 1]);
    }
  }

  /** In every run the clock shows the latest event time seen, and no time before it began. */
  lemma {:induction false} ClockIsTheLatest(steps: seq<EngineStep>)
    ensures RunEngine(steps).now >= 0
    ensures forall i :: 0 <= i < |steps| && steps[i].Tick? ==> steps[i].ts <= RunEngine(steps).now
    ensures RunEngine(steps).now == 0 || exists i :: 0 <= i < |steps| && steps[i] == Tick(RunEngine(steps).now)
  {
    hide ApplyOrderEvent;
    if steps != [] {
      var front, last := steps[..|steps| - 1], steps[|steps| - 1];
      ClockIsTheLatest(front);
      if last.Batch? { DrainKeepsTheClock(RunEngine(front), last.events); }
      if RunEngine(steps).now == RunEngine(front).now != 0 {
        var i :| 0 <= i < |front| && front[i] == Tick(RunEngine(front).now);
        assert steps[i] == front[i];
      } else if RunEngine(steps).now != 0 {
        assert steps[|steps| - 1] == Tick(RunEngine(steps).now);
      }
    }
  }

  lemma {:induction false} DrainKeepsTheClock(es: EngineState, batch: seq<BrokerEvent>)
    ensures Drain(es, batch).now == es.now
  {
    hide ApplyOrderEvent;
    if batch != [] { DrainKeepsTheClock(es, batch[..|batch| - 1]); }
  }

  ghost predicate FreshIds(steps: seq<EngineStep>) {
    forall i :: 0 <= i < |steps| && steps[i].Order? ==> steps[i].intent.id !in RunEngine(steps[..i]).orders
  }

  /** An order that passes the gate under an id whose record already holds a fill. */
  predicate HidesAFill(es: EngineState, step: EngineStep) {
    step.Order? && step.veto.None? && !Unfilled(es.orders, step.intent.id)
  }

  lemma StepFollowsFillsIff(es: EngineState, step: EngineStep)
    requires PositionsFollowFills(es)
    ensures PositionsFollowFills(StepEngine(es, step)) <==> !HidesAFill(es, step)
  {
    hide FillsExplain;
    match step
    case Batch(events) => DrainFollowsFills(es, events);
    case Order(intent, veto, ack) => OrderFollowsFillsIff(es, intent, veto, ack);
    case _ =>
  }

  lemma NothingToExplain()
    ensures FillsExplain(map[], map[]) && PositionsFollowFills(FRESH)
  {
    forall symbol ensures SumOf(SignedFills(map[], symbol)) == 0.0 {
      assert SignedFills(map[], symbol) == map[];
    }
  }

  /** In every run, whatever the broker sends and in whatever order: each position is the signed sum
      of the fills of its symbol's orders all along, if and only if no order passing the gate ever
      reuses an id that holds a fill. */
  lemma PositionsFollowFillsIff(steps: seq<EngineStep>)
    ensures (forall k :: 0 <= k <= |steps| ==> PositionsFollowFills(RunEngine(steps[..k])))
            <==> (forall i :: 0 <= i < |steps| ==> !HidesAFill(RunEngine(steps[..i]), steps[i]))
  {
    NothingToExplain();
    hide PositionsFollowFills, HidesAFill, StepEngine;
    forall i | 0 <= i < |steps| && PositionsFollowFills(RunEngine(steps[..i]))
      ensures PositionsFollowFills(RunEngine(steps[..i + 1])) <==> !HidesAFill(RunEngine(steps[..i]), steps[i])
    {
      assert steps[..i + 1][..i] == steps[..i];
      StepFollowsFillsIff(RunEngine(steps[..i]), steps[i]);
    }
    HoldsAllAlongIff(steps, run => PositionsFollowFills(RunEngine(run)),
                     (run, step) => !HidesAFill(RunEngine(run), step));
  }

  /** In particular with fresh ids, at the end of every run. */
  lemma PositionsFollowFillsAlways(steps: seq<EngineStep>)
    requires FreshIds(steps)
    ensures PositionsFollowFills(RunEngine(steps))
  {
    PositionsFollowFillsIff(steps);
    hide PositionsFollowFills;
    assert steps[..|steps|] == steps;
  }

  /** Concretely: reusing the id of a filled order hides its fill. */
  lemma ReusedIdLosesFills()
    ensures var intent := OrderIntent("zt-1", "BTC", Buy, 1.0, Market, false, None, "");
            var steps := [Order(intent, None, SubmitAck(true, None, None, false)),
                          Batch([BrokerEvent("zt-1", Fill(1.0, 100.0, 0.0, false), 0)]),
                          Order(intent, None, SubmitAck(false, None, None, true))];
            && RunEngine(steps).PositionOf("BTC") == 1.0
            && RunEngine(steps).orders["zt-1"].filledQty == 0.0
            && !PositionsFollowFills(RunEngine(steps))
  {
    var intent := OrderIntent("zt-1", "BTC", Buy, 1.0, Market, false, None, "");
    var ack, dup := SubmitAck(true, None, None, false), SubmitAck(false, None, None, true);
    var fill := BrokerEvent("zt-1", Fill(1.0, 100.0, 0.0, false), 0);
    var s1, s2, s3 := Order(intent, None, ack), Batch([fill]), Order(intent, None, dup);
    assert [s1, s2, s3][..2] == [s1, s2] && [s1, s2][..1] == [s1] && [s1][..0] == [];
    var e1 := RunEngine([s1]);
    assert RunEngine([]) == FRESH && e1 == StepEngine(RunEngine([s1][..0]), [s1][0]);
    assert [fill][..0] == [];
    assert Drain(e1, [fill]) == DrainOne(e1, fill);
    var e2 := RunEngine([s1, s2]);
    assert e2 == DrainOne(e1, fill) && e2.PositionOf("BTC") == 1.0;
    var e3 := RunEngine([s1, s2, s3]);
    assert [s1, s2, s3][2] == s3;
    assert e3 == StepEngine(e2, s3);
    assert Open(e2, intent).orders["zt-1"] == SubmittedRecord(intent);
    assert e3.orders["zt-1"].filledQty == 0.0 && e3.orders.Keys == {"zt-1"};
    var m := SignedFills(e3.orders, "BTC");
    assert m == map["zt-1" := 0.0];
    SumUpdate(map[], "zt-1", 0.0);
  }
}
