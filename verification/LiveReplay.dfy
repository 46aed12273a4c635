/** The live pipeline, session after session: intents, account events, drains, and what the journal
    written along the way replays to. */
module LiveReplay {
  import opened Results
  import opened OrderStates
  import opened Sums
  import opened Engines
  import opened Prefixes
  import opened Journals

  /** Engine, broker outbox, journal, and the ids that already have an opening entry. */
  datatype LiveState = LiveState(es: EngineState, outbox: seq<BrokerEvent>, journal: seq<JournalEntry>,
                                 opens: set<string>)

  /** A session starts from what its journal replays to. Flat positions are dropped on loading. */
  function Restarted(past: seq<JournalEntry>): LiveState {
    var r := Replay(WithSubmits(past));
    LiveState(EngineState(0, r.orders, WithoutFlats(r.positions), []), [], past, {})
  }

  function WithoutFlats(positions: map<string, real>): map<string, real> {
    map symbol | symbol in positions && positions[symbol] != 0.0 :: positions[symbol]
  }

  function Flats(past: seq<JournalEntry>): set<string> {
    var positions := Replay(WithSubmits(past)).positions;
    set symbol | symbol in positions && positions[symbol] == 0.0
  }

  /** Journals the event, with an opening entry the first time the order is seen, and only then
      queues it for the engine. */
  function AccountEvent(s: LiveState, id: string, event: OrderEvent, at: int): LiveState {
    var known := id in s.es.orders && id !in s.opens;
    var opening := if known then OpeningFor(s.es.orders[id], id, at) else [];
    s.(outbox := s.outbox + [BrokerEvent(id, event, at)],
       journal := s.journal + opening + [Recorded(at, id, event)],
       opens := if known then s.opens + {id} else s.opens)
  }

  function OpeningFor(order: OrderRecord, id: string, at: int): seq<JournalEntry> {
    [Opened(at, id, order.symbol, order.side, order.qty)]
  }

  datatype LiveStep =
    | PlaceStep(intent: OrderIntent, veto: Option<string>, ack: SubmitAck)
    | AccountStep(id: string, event: OrderEvent, at: int)
    | DrainStep(ts: int)
    | CancelStep(target: string, symbol: string, reason: string)

  function StepLive(s: LiveState, step: LiveStep): LiveState {
    match step
    case PlaceStep(intent, veto, ack) => s.(es := ProcessOrder(s.es, intent, veto, ack))
    case AccountStep(id, event, at) => AccountEvent(s, id, event, at)
    case DrainStep(ts) => s.(es := Drain(AdvanceTo(s.es, ts), s.outbox), outbox := [])
    case CancelStep(target, symbol, reason) => s.(es := ProcessCancel(s.es, target, symbol, reason))
  }

  function RunLive(past: seq<JournalEntry>, steps: seq<LiveStep>): LiveState {
    if steps == [] then Restarted(past) else StepLive(RunLive(past, steps[..|steps| - 1]), steps[|steps| - 1])
  }

  /** The first session starts from nothing. */
  lemma FirstStart()
    ensures Restarted([]) == LiveState(FRESH, [], [], {}) && Flats([]) == {} && Replay(WithSubmits([])) == NOTHING
  {}

  /** Ids of the orders the venue accepted in this session. */
  function AcceptedIds(steps: seq<LiveStep>): set<string> {
    if steps == [] then {}
    else
      var last := steps[|steps| - 1];
      AcceptedIds(steps[..|steps| - 1])
        + (if last.PlaceStep? && last.veto.None? && last.ack.accepted then {last.intent.id} else {})
  }

  /** Intents use ids the engine does not hold; account events concern orders it holds, new or restored,
      accepted by the venue or not, and are never `submit`s. */
  ghost predicate Orderly(past: seq<JournalEntry>, steps: seq<LiveStep>) {
    forall i :: 0 <= i < |steps| ==>
      && (steps[i].PlaceStep? ==> steps[i].intent.id !in RunLive(past, steps[..i]).es.orders)
      && (steps[i].AccountStep? ==> steps[i].id in RunLive(past, steps[..i]).es.orders && !steps[i].event.Submit?)
  }

  /** The engine once everything still queued for it has been drained. */
  function Settled(s: LiveState): EngineState {
    Drain(s.es, s.outbox)
  }

  lemma SettledAppend(s: LiveState, e: BrokerEvent)
    ensures Drain(s.es, s.outbox + [e]) == DrainOne(Settled(s), e)
  {
    assert (s.outbox + [e])[..|s.outbox|] == s.outbox;
  }

  lemma OrderlyUpTo(past: seq<JournalEntry>, steps: seq<LiveStep>, k: nat)
    requires Orderly(past, steps) && k <= |steps|
    ensures Orderly(past, steps[..k])
  {
    assert forall i :: 0 <= i < k ==> steps[..k][..i] == steps[..i] && steps[..k][i] == steps[i];
  }

  // --------------------------------- journals with the submission recorded

  /** The journal with each opening followed by the local submission. */
  function WithSubmits(journal: seq<JournalEntry>): seq<JournalEntry> {
    if journal == [] then []
    else
      var last := journal[|journal| - 1];
      WithSubmits(journal[..|journal| - 1])
        + (if last.Opened? then [last, Recorded(last.at, last.orderLinkId, Submit)] else [last])
  }

  lemma ReplayWithSubmits(journal: seq<JournalEntry>, entry: JournalEntry)
    ensures var r := Replay(WithSubmits(journal));
            Replay(WithSubmits(journal + [entry]))
              == if entry.Opened? then ReplayOne(ReplayOne(r, entry), Recorded(entry.at, entry.orderLinkId, Submit))
                 else ReplayOne(r, entry)
  {
    assert (journal + [entry])[..|journal|] == journal;
    var w := WithSubmits(journal);
    ReplayAppend(w, entry);
    if entry.Opened? {
      var submit := Recorded(entry.at, entry.orderLinkId, Submit);
      ReplayAppend(w + [entry], submit);
      assert w + [entry, submit] == w + [entry] + [submit];
    }
  }

  function JustSubmitted(order: OrderRecord, id: string): OrderRecord {
    ApplyOrderEvent(NewOrder(id, order.symbol, order.side, order.qty), Submit).order
  }

  // ------------------------------------------------ records along a session

  /** The account events of one order, in arrival order. */
  function EventsFor(steps: seq<LiveStep>, id: string): seq<OrderEvent> {
    if steps == [] then []
    else
      var last := steps[|steps| - 1];
      EventsFor(steps[..|steps| - 1], id) + (if last.AccountStep? && last.id == id then [last.event] else [])
  }

  /** The record an order has when the venue has answered its submission. */
  function Placed(intent: OrderIntent, ack: SubmitAck): OrderRecord {
    if ack.accepted then SubmittedRecord(intent)
    else ApplyOrderEvent(SubmittedRecord(intent), Reject(ack.reason.GetOr("rejected"))).order
  }

  /** The record each order entered the session with: as restored, or as its submission left it. */
  function Entered(past: seq<JournalEntry>, steps: seq<LiveStep>): map<string, OrderRecord> {
    if steps == [] then Restarted(past).es.orders
    else
      var last := steps[|steps| - 1];
      var before := Entered(past, steps[..|steps| - 1]);
      if last.PlaceStep? && last.veto.None? then before[last.intent.id := Placed(last.intent, last.ack)] else before
  }

  /** A record the venue refused on submission: rejected straight away, with the reason booked. */
  predicate IsRefused(o: OrderRecord, id: string) {
    && o.rejectReason.Some?
    && o == ApplyOrderEvent(JustSubmitted(o, id), Reject(o.rejectReason.value)).order
  }

  function Lookup(orders: map<string, OrderRecord>, id: string): Option<OrderRecord> {
    if id in orders then Some(orders[id]) else None
  }

  /** One order: as recovered at the start, as it entered the session, as the engine holds it, as it will
      be once the queue is drained, and as it replays. */
  datatype OrderView = OrderView(recovered: Option<OrderRecord>, entered: Option<OrderRecord>,
                                 held: Option<OrderRecord>,
                                 settled: Option<OrderRecord>, replayed: Option<OrderRecord>, journaled: bool,
                                 events: seq<OrderEvent>)

  ghost function ViewOf(past: seq<JournalEntry>, s: LiveState, steps: seq<LiveStep>, id: string): OrderView {
    OrderView(Lookup(Replay(WithSubmits(past)).orders, id), Lookup(Entered(past, steps), id), Lookup(s.es.orders, id),
              Lookup(Settled(s).orders, id), Lookup(Replay(WithSubmits(s.journal)).orders, id), id in s.opens,
              EventsFor(steps, id))
  }

  /** The engine applies an order's events to the record it entered with. Once one has come in, replay
      applies the same events to a record submitted anew; until then it recovers what it did before. */
  predicate OrderTracked(v: OrderView, id: string) {
    && v.held.Some? == v.settled.Some? == v.entered.Some? && (v.journaled ==> v.entered.Some?)
    && (v.recovered.Some? ==> v.entered.Some?)
    && (v.entered.Some? ==>
          && v.settled.value == Run(v.entered.value, v.events)
          && JustSubmitted(v.held.value, id) == JustSubmitted(v.settled.value, id)
              == JustSubmitted(v.entered.value, id))
    && (if v.journaled then v.replayed == Some(Run(JustSubmitted(v.entered.value, id), v.events))
        else v.events == [] && v.replayed == v.recovered && (v.recovered.Some? ==> v.entered == v.recovered))
  }

  /** How engine, queue and journal hang together, order by order. */
  ghost predicate Tracks(past: seq<JournalEntry>, s: LiveState, steps: seq<LiveStep>) {
    && (forall i :: 0 <= i < |s.outbox| ==> s.outbox[i].orderLinkId in s.opens)
    && (forall id :: OrderTracked(ViewOf(past, s, steps, id), id))
  }

  lemma OpenedThenSubmitted(r: Recovered, opening: JournalEntry)
    requires opening.Opened?
    ensures var order := NewOrder(opening.orderLinkId, opening.symbol, opening.side, opening.qty);
            ReplayOne(ReplayOne(r, opening), Recorded(opening.at, opening.orderLinkId, Submit))
              == r.(orders := r.orders[opening.orderLinkId := ApplyOrderEvent(order, Submit).order])
  {}

  lemma OpenThenRecord(s: LiveState, id: string, event: OrderEvent, at: int)
    requires id in s.es.orders
    ensures var r := Replay(WithSubmits(s.journal));
            var r1 := if id in s.opens then r else r.(orders := r.orders[id := JustSubmitted(s.es.orders[id], id)]);
            Replay(WithSubmits(AccountEvent(s, id, event, at).journal)) == ReplayOne(r1, Recorded(at, id, event))
  {
    var record := Recorded(at, id, event);
    hide ReplayOne, Replay, WithSubmits;
    if id in s.opens {
      assert s.journal + [] + [record] == s.journal + [record];
      ReplayWithSubmits(s.journal, record);
    } else {
      var opening := OpeningFor(s.es.orders[id], id, at)[0];
      assert s.journal + [opening] + [record] == (s.journal + [opening]) + [record];
      ReplayWithSubmits(s.journal, opening);
      ReplayWithSubmits(s.journal + [opening], record);
      OpenedThenSubmitted(Replay(WithSubmits(s.journal)), opening);
    }
  }

  lemma ReplayedRecord(r: Recovered, id: string, event: OrderEvent, at: int)
    requires id in r.orders
    ensures ReplayOne(r, Recorded(at, id, event)).orders == r.orders[id := ApplyOrderEvent(r.orders[id], event).order]
  {}

  lemma DrainedRecord(es: EngineState, id: string, event: OrderEvent, at: int)
    requires id in es.orders
    ensures DrainOne(es, BrokerEvent(id, event, at)).orders
            == es.orders[id := ApplyOrderEvent(es.orders[id], event).order]
  {}

  lemma SameTerms(o: OrderRecord, event: OrderEvent, id: string)
    ensures JustSubmitted(ApplyOrderEvent(o, event).order, id) == JustSubmitted(o, id)
  {}

  lemma AccountTracks(past: seq<JournalEntry>, s: LiveState, front: seq<LiveStep>, id: string, event: OrderEvent,
                      at: int)
    requires Tracks(past, s, front) && id in s.es.orders
    ensures Tracks(past, AccountEvent(s, id, event, at), front + [AccountStep(id, event, at)])
  {
    hide ApplyOrderEvent, WithSubmits, Replay, Drain, DrainOne, ReplayOne, JustSubmitted, OrderTracked, Run;
    var s', steps := AccountEvent(s, id, event, at), front + [AccountStep(id, event, at)];
    assert steps[..|front|] == front;
    assert Entered(past, steps) == Entered(past, front);
    var p, r := Settled(s), Replay(WithSubmits(s.journal));
    SettledAppend(s, BrokerEvent(id, event, at));
    OpenThenRecord(s, id, event, at);
    var v, v' := ViewOf(past, s, front, id), ViewOf(past, s', steps, id);
    assert OrderTracked(v, id);
    OpenedByThen(v, id);
    var r1 := if id in s.opens then r else r.(orders := r.orders[id := JustSubmitted(s.es.orders[id], id)]);
    DrainedRecord(p, id, event, at);
    ReplayedRecord(r1, id, event, at);
    forall other ensures OrderTracked(ViewOf(past, s', steps, other), other) {
      assert OrderTracked(ViewOf(past, s, front, other), other);
      if other != id {
        assert EventsFor(front, other) + [] == EventsFor(front, other);
        assert ViewOf(past, s', steps, other) == ViewOf(past, s, front, other);
      } else {
        var before := if id in s.opens then r.orders[id] else JustSubmitted(s.es.orders[id], id);
        assert v' == v.(settled := Some(ApplyOrderEvent(v.settled.value, event).order),
                        replayed := Some(ApplyOrderEvent(before, event).order), journaled := true,
                        events := v.events + [event]);
        EventTracked(v, id, event, before);
      }
    }
  }

  lemma OpenedByThen(v: OrderView, id: string)
    requires OrderTracked(v, id)
    ensures v.settled.Some? == v.held.Some? && (v.journaled ==> v.replayed.Some? && v.held.Some?)
  {}

  lemma EventTracked(v: OrderView, id: string, event: OrderEvent, before: OrderRecord)
    requires OrderTracked(v, id) && v.held.Some?
    requires before == if v.journaled then v.replayed.value else JustSubmitted(v.held.value, id)
    ensures OrderTracked(v.(settled := Some(ApplyOrderEvent(v.settled.value, event).order),
                            replayed := Some(ApplyOrderEvent(before, event).order), journaled := true,
                            events := v.events + [event]), id)
  {
    hide ApplyOrderEvent, JustSubmitted, Run;
    SameTerms(v.settled.value, event, id);
    RunOneMore(v.entered.value, v.events, event);
    RunOneMore(JustSubmitted(v.entered.value, id), v.events, event);
  }

  lemma RunOneMore(o: OrderRecord, events: seq<OrderEvent>, event: OrderEvent)
    ensures Run(o, []) == o && Run(o, events + [event]) == ApplyOrderEvent(Run(o, events), event).order
  {
    assert (events + [event])[..|events|] == events;
  }

  lemma PlaceTracks(past: seq<JournalEntry>, s: LiveState, front: seq<LiveStep>, intent: OrderIntent,
                    veto: Option<string>, ack: SubmitAck)
    requires Tracks(past, s, front) && intent.id !in s.es.orders
    ensures Tracks(past, StepLive(s, PlaceStep(intent, veto, ack)), front + [PlaceStep(intent, veto, ack)])
    ensures Settled(StepLive(s, PlaceStep(intent, veto, ack))).positions == Settled(s).positions
  {
    var s', steps := StepLive(s, PlaceStep(intent, veto, ack)), front + [PlaceStep(intent, veto, ack)];
    assert steps[..|front|] == front;
    SameEvents(front, PlaceStep(intent, veto, ack));
    if veto.Some? {
      DrainIgnoresLog(s.es, s'.es, s.outbox);
      SameViews(past, s, s', front, steps);
    } else {
      var order := Placed(intent, ack);
      PlacedRecord(s.es, intent, ack);
      assert OrderTracked(ViewOf(past, s, front, intent.id), intent.id);
      DrainFrame(s.es, s'.es, s.outbox, intent.id, order);
      hide ApplyOrderEvent, JustSubmitted, Drain, WithSubmits, Replay, EventsFor, Run, Placed, ProcessOrder,
          OrderTracked;
      forall id ensures OrderTracked(ViewOf(past, s', steps, id), id) {
        var v := ViewOf(past, s, front, id);
        assert OrderTracked(v, id);
        if id != intent.id {
          assert ViewOf(past, s', steps, id) == v;
        } else {
          assert ViewOf(past, s', steps, id) == v.(entered := Some(order), held := Some(order), settled := Some(order));
          EnteringTracked(v, id, order);
        }
      }
    }
  }

  lemma EnteringTracked(v: OrderView, id: string, o: OrderRecord)
    requires OrderTracked(v, id) && v.held.None?
    ensures OrderTracked(v.(entered := Some(o), held := Some(o), settled := Some(o)), id)
  {
    RunOneMore(o, [], Submit);
    hide JustSubmitted, Run;
  }

  lemma PlacedRecord(es: EngineState, intent: OrderIntent, ack: SubmitAck)
    ensures ProcessOrder(es, intent, None, ack).orders == es.orders[intent.id := Placed(intent, ack)]
    ensures ProcessOrder(es, intent, None, ack).positions == es.positions
    ensures var o := Placed(intent, ack);
            if ack.accepted then o == JustSubmitted(o, intent.id) else IsRefused(o, intent.id)
  {}

  /** Nothing an order's tracking looks at has changed. */
  lemma SameViews(past: seq<JournalEntry>, s: LiveState, s': LiveState, front: seq<LiveStep>, steps: seq<LiveStep>)
    requires Tracks(past, s, front) && s'.outbox == s.outbox && s'.opens == s.opens && s'.journal == s.journal
    requires s'.es.orders == s.es.orders && Settled(s').orders == Settled(s).orders
    requires Entered(past, steps) == Entered(past, front) && forall id :: EventsFor(steps, id) == EventsFor(front, id)
    ensures Tracks(past, s', steps)
  {
    hide Drain, Replay, WithSubmits, OrderTracked, EventsFor, Entered, Settled;
    forall id ensures OrderTracked(ViewOf(past, s', steps, id), id) {
      assert OrderTracked(ViewOf(past, s, front, id), id);
      assert ViewOf(past, s', steps, id) == ViewOf(past, s, front, id);
    }
  }

  lemma SameEvents(front: seq<LiveStep>, step: LiveStep)
    requires !step.AccountStep?
    ensures forall id :: EventsFor(front + [step], id) == EventsFor(front, id)
  {
    assert (front + [step])[..|front|] == front;
    forall id ensures EventsFor(front + [step], id) == EventsFor(front, id) {
      assert EventsFor(front, id) + [] == EventsFor(front, id);
    }
  }

  lemma QuietTracks(past: seq<JournalEntry>, s: LiveState, front: seq<LiveStep>, step: LiveStep)
    requires Tracks(past, s, front) && (step.DrainStep? || step.CancelStep?)
    ensures Tracks(past, StepLive(s, step), front + [step])
    ensures Settled(StepLive(s, step)).positions == Settled(s).positions
  {
    assert (front + [step])[..|front|] == front;
    assert Entered(past, front + [step]) == Entered(past, front);
    SameEvents(front, step);
    hide Tracks;
    match step
    case DrainStep(ts) =>
      DrainIgnoresLog(s.es, AdvanceTo(s.es, ts), s.outbox);
      DrainedTracks(past, s, StepLive(s, step), front, front + [step]);
    case CancelStep(target, symbol, reason) =>
      DrainIgnoresLog(s.es, ProcessCancel(s.es, target, symbol, reason), s.outbox);
      SameViews(past, s, StepLive(s, step), front, front + [step]);
  }

  /** Once drained, what is held is what had been settled. */
  lemma DrainedTracks(past: seq<JournalEntry>, s: LiveState, s': LiveState, front: seq<LiveStep>, steps: seq<LiveStep>)
    requires Tracks(past, s, front) && s'.outbox == [] && s'.opens == s.opens && s'.journal == s.journal
    requires s'.es.orders == Settled(s).orders
    requires Entered(past, steps) == Entered(past, front) && forall id :: EventsFor(steps, id) == EventsFor(front, id)
    ensures Tracks(past, s', steps)
  {
    assert Settled(s') == s'.es;
    hide Drain, Replay, WithSubmits, EventsFor, Entered, JustSubmitted, Run, Settled;
    forall id ensures OrderTracked(ViewOf(past, s', steps, id), id) {
      var v := ViewOf(past, s, front, id);
      assert OrderTracked(v, id);
      assert ViewOf(past, s', steps, id) == v.(held := v.settled);
    }
  }

  /** In every orderly session, from whatever journal it started. */
  lemma {:induction false} RunsTrack(past: seq<JournalEntry>, steps: seq<LiveStep>)
    requires Orderly(past, steps)
    ensures Tracks(past, RunLive(past, steps), steps)
  {
    hide Tracks;
    if steps == [] {
      NothingTracked(past);
    } else {
      var front, last := steps[..|steps| - 1], steps[|steps| - 1];
      OrderlyUpTo(past, steps, |steps| - 1);
      RunsTrack(past, front);
      assert steps == front + [last];
      match last
      case PlaceStep(intent, veto, ack) => PlaceTracks(past, RunLive(past, front), front, intent, veto, ack);
      case AccountStep(id, event, at) => AccountTracks(past, RunLive(past, front), front, id, event, at);
      case _ => QuietTracks(past, RunLive(past, front), front, last);
    }
  }

  lemma NothingTracked(past: seq<JournalEntry>)
    ensures Tracks(past, Restarted(past), [])
  {
    hide Replay, WithSubmits;
  }

  // ----------------------------------------------- when the positions agree

  /** Two position maps show every symbol the same size, one they do not list being flat. */
  ghost predicate SameSizes(p: map<string, real>, r: map<string, real>) {
    forall symbol :: At(r, symbol) == At(p, symbol)
  }

  /** The journal recovers the size of every position; symbols flat at the start of the session are the
      only ones it may list and the engine not. */
  ghost predicate PositionsAgree(past: seq<JournalEntry>, s: LiveState) {
    var p, r := Settled(s).positions, Replay(WithSubmits(s.journal)).positions;
    SameSizes(p, r) && r.Keys == p.Keys + Flats(past)
  }

  /** A fill that the record the engine holds and the record submitted anew do not both accept or both
      refuse. */
  predicate FillsApart(past: seq<JournalEntry>, front: seq<LiveStep>, step: LiveStep) {
    && step.AccountStep? && step.id in Entered(past, front)
    && var o, events := Entered(past, front)[step.id], EventsFor(front, step.id);
    && TakesFill(Run(o, events), step.event) != TakesFill(Run(JustSubmitted(o, step.id), events), step.event)
  }

  lemma AccountPositionsIff(past: seq<JournalEntry>, s: LiveState, front: seq<LiveStep>, step: LiveStep)
    requires Tracks(past, s, front) && PositionsAgree(past, s) && step.AccountStep? && step.id in s.es.orders
    ensures PositionsAgree(past, AccountEvent(s, step.id, step.event, step.at)) <==> !FillsApart(past, front, step)
  {
    var id, event, at := step.id, step.event, step.at;
    assert OrderTracked(ViewOf(past, s, front, id), id);
    SettledOfAccount(s, id, event, at);
    OpenThenRecord(s, id, event, at);
    var p, r := Settled(s), Replay(WithSubmits(s.journal));
    var r1 := if id in s.opens then r else r.(orders := r.orders[id := JustSubmitted(s.es.orders[id], id)]);
    BothRecords(ViewOf(past, s, front, id), id, r1);
    hide WithSubmits, Replay, Drain, JustSubmitted, AccountEvent, EventsFor, Run, Entered, Flats, Tracks, OrderTracked,
         TakesFill, DrainOne, ReplayOne, Settled, SameSizes;
    OneEventBothSides(p, r1, id, event, at);
    var p', r' := DrainOne(p, BrokerEvent(id, event, at)), ReplayOne(r1, Recorded(at, id, event));
    if !FillsApart(past, front, step) {
      SameAdditions(p.positions.Keys, r.positions.Keys, Flats(past), p'.positions.Keys, r'.positions.Keys,
                    if TakesFill(p.orders[id], event) then {p.orders[id].symbol} else {});
    }
  }

  /** The two records an event meets, before it. */
  lemma BothRecords(v: OrderView, id: string, r1: Recovered)
    requires OrderTracked(v, id) && v.held.Some? && id in r1.orders
    requires r1.orders[id] == if v.journaled then v.replayed.value else JustSubmitted(v.held.value, id)
    ensures v.settled.value == Run(v.entered.value, v.events)
    ensures r1.orders[id] == Run(JustSubmitted(v.entered.value, id), v.events)
    ensures (r1.orders[id].symbol, r1.orders[id].side) == (v.settled.value.symbol, v.settled.value.side)
  {
    RunOneMore(JustSubmitted(v.entered.value, id), [], Submit);
    RunKeepsTerms(v.entered.value, v.events);
    RunKeepsTerms(JustSubmitted(v.entered.value, id), v.events);
    SubmittedTerms(v.entered.value, id);
    hide Run, JustSubmitted;
  }

  /** One event, applied to a settled engine and a replayed state that agree so far on the sizes. */
  lemma OneEventBothSides(es: EngineState, r: Recovered, id: string, event: OrderEvent, at: int)
    requires id in es.orders && id in r.orders
    requires (r.orders[id].symbol, r.orders[id].side) == (es.orders[id].symbol, es.orders[id].side)
    requires SameSizes(es.positions, r.positions)
    ensures var p', r' := DrainOne(es, BrokerEvent(id, event, at)).positions,
                          ReplayOne(r, Recorded(at, id, event)).positions;
            var byEngine, byReplay := TakesFill(es.orders[id], event), TakesFill(r.orders[id], event);
            && (SameSizes(p', r') <==> byEngine == byReplay)
            && p'.Keys == es.positions.Keys + (if byEngine then {es.orders[id].symbol} else {})
            && r'.Keys == r.positions.Keys + (if byReplay then {es.orders[id].symbol} else {})
  {
    var o, x := es.orders[id], r.orders[id];
    if TakesFill(o, event) { AcceptedFillIsPositive(o, event); }
    if TakesFill(x, event) { AcceptedFillIsPositive(x, event); }
    assert TakesFill(o, event) || TakesFill(x, event) ==> event.Fill? && event.qty > 0.0;
    hide ApplyOrderEvent;
    var p', r' := DrainOne(es, BrokerEvent(id, event, at)).positions, ReplayOne(r, Recorded(at, id, event)).positions;
    assert p' == if TakesFill(o, event) then es.positions[o.symbol := At(es.positions, o.symbol)
                                                          + Signed(o.side, event.qty)]
                 else es.positions;
    assert r' == if TakesFill(x, event) then r.positions[o.symbol := At(r.positions, o.symbol)
                                                         + Signed(o.side, event.qty)]
                 else r.positions;
    hide TakesFill;
    assert At(r.positions, o.symbol) == At(es.positions, o.symbol);
    if TakesFill(o, event) == TakesFill(x, event) {
      forall symbol ensures At(r', symbol) == At(p', symbol) {
        assert At(r.positions, symbol) == At(es.positions, symbol);
      }
    } else {
      assert At(r', o.symbol) != At(p', o.symbol);
    }
  }

  lemma SameAdditions(p: set<string>, r: set<string>, flats: set<string>, p': set<string>, r': set<string>,
                      added: set<string>)
    requires r == p + flats && p' == p + added && r' == r + added
    ensures r' == p' + flats
  {}

  predicate TakesFill(o: OrderRecord, event: OrderEvent) {
    event.Fill? && ApplyOrderEvent(o, event).Ok?
  }

  lemma {:induction false} RunKeepsTerms(o: OrderRecord, events: seq<OrderEvent>)
    ensures (Run(o, events).symbol, Run(o, events).side, Run(o, events).qty) == (o.symbol, o.side, o.qty)
  {
    if events != [] { RunKeepsTerms(o, events[..|events| - 1]); }
  }

  lemma SubmittedTerms(o: OrderRecord, id: string)
    ensures var j := JustSubmitted(o, id);
            (j.symbol, j.side, j.qty) == (o.symbol, o.side, o.qty) && j.state == SUBMITTED && j.revision == 1
  {}

  lemma SettledOfAccount(s: LiveState, id: string, event: OrderEvent, at: int)
    ensures Settled(AccountEvent(s, id, event, at)) == DrainOne(Settled(s), BrokerEvent(id, event, at))
  {
    SettledAppend(s, BrokerEvent(id, event, at));
  }

  lemma AcceptedFillIsPositive(o: OrderRecord, event: OrderEvent)
    requires event.Fill? && ApplyOrderEvent(o, event).Ok?
    ensures event.qty > 0.0
  {}

  lemma StepPositionsIff(past: seq<JournalEntry>, front: seq<LiveStep>, step: LiveStep)
    requires Orderly(past, front + [step])
    requires Tracks(past, RunLive(past, front), front) && PositionsAgree(past, RunLive(past, front))
    ensures PositionsAgree(past, StepLive(RunLive(past, front), step)) <==> !FillsApart(past, front, step)
  {
    hide Tracks, WithSubmits, Replay, Drain, ProcessOrder, AccountEvent, ProcessCancel, Flats, Entered;
    var s := RunLive(past, front);
    assert (front + [step])[|front|] == step && (front + [step])[..|front|] == front;
    match step
    case PlaceStep(intent, veto, ack) => PlaceTracks(past, s, front, intent, veto, ack);
    case AccountStep(_, _, _) => AccountPositionsIff(past, s, front, step);
    case _ => QuietTracks(past, s, front, step);
  }

  /** In every orderly session, whatever journal it was restarted from: the journal recovers the settled
      engine's positions all along, if and only if every fill is accepted or refused alike by the record
      the engine holds and by the record submitted anew. */
  lemma ReplayedPositionsIff(past: seq<JournalEntry>, steps: seq<LiveStep>)
    requires Orderly(past, steps)
    ensures (forall k :: 0 <= k <= |steps| ==> PositionsAgree(past, RunLive(past, steps[..k])))
            <==> (forall i :: 0 <= i < |steps| ==> !FillsApart(past, steps[..i], steps[i]))
  {
    RestartedAgrees(past);
    hide Tracks, PositionsAgree, FillsApart, StepLive, Orderly, Restarted;
    forall i | 0 <= i < |steps| && PositionsAgree(past, RunLive(past, steps[..i]))
      ensures PositionsAgree(past, RunLive(past, steps[..i + 1])) <==> !FillsApart(past, steps[..i], steps[i])
    {
      OrderlyUpTo(past, steps, i);
      OrderlyUpTo(past, steps, i + 1);
      RunsTrack(past, steps[..i]);
      assert steps[..i + 1] == steps[..i] + [steps[i]] && steps[..i + 1][..i] == steps[..i];
      StepPositionsIff(past, steps[..i], steps[i]);
    }
    HoldsAllAlongIff(steps, run => PositionsAgree(past, RunLive(past, run)),
                     (run, step) => !FillsApart(past, run, step));
  }

  lemma RestartedAgrees(past: seq<JournalEntry>)
    ensures PositionsAgree(past, Restarted(past))
  {
    hide Replay, WithSubmits;
  }

  // ------------------------------------------------- when the records agree

  /** A journaled order replays to the settled engine's record exactly when the record it entered with
      and a record submitted anew come to the same under its events; one not journaled since the restart
      is recovered as it was. */
  lemma RecordAgreesIff(past: seq<JournalEntry>, steps: seq<LiveStep>, id: string)
    requires Orderly(past, steps) && id in Entered(past, steps)
    ensures var s, o, events := RunLive(past, steps), Entered(past, steps)[id], EventsFor(steps, id);
            var p, r := Settled(s).orders, Replay(WithSubmits(s.journal)).orders;
            && id in p
            && (id in s.opens ==> id in r && (r[id] == p[id] <==> Run(o, events) == Run(JustSubmitted(o, id), events)))
            && (id !in s.opens && id in r ==> r[id] == p[id] == o)
  {
    RunsTrack(past, steps);
    assert OrderTracked(ViewOf(past, RunLive(past, steps), steps, id), id);
    hide WithSubmits, Replay, Drain, RunLive, Entered, EventsFor, JustSubmitted;
  }

  /** As long as no fill falls apart, an order journaled since the restart replays short by exactly what
      it had filled before: it agrees only if that was nothing. */
  lemma ReopenedFillIsLost(past: seq<JournalEntry>, steps: seq<LiveStep>, id: string)
    requires Orderly(past, steps) && id in Entered(past, steps) && id in RunLive(past, steps).opens
    requires forall i :: 0 <= i < |steps| ==> !FillsApart(past, steps[..i], steps[i])
    ensures var s := RunLive(past, steps);
            && id in Settled(s).orders && id in Replay(WithSubmits(s.journal)).orders
            && Settled(s).orders[id].filledQty
               == Replay(WithSubmits(s.journal)).orders[id].filledQty + Entered(past, steps)[id].filledQty
  {
    RunsTrack(past, steps);
    assert OrderTracked(ViewOf(past, RunLive(past, steps), steps, id), id);
    SameFillsAdded(past, steps, id);
    hide WithSubmits, Replay, Drain, RunLive, Entered, EventsFor, JustSubmitted, Run;
  }

  lemma {:induction false} SameFillsAdded(past: seq<JournalEntry>, steps: seq<LiveStep>, id: string)
    requires id in Entered(past, steps) && Orderly(past, steps)
    requires forall i :: 0 <= i < |steps| ==> !FillsApart(past, steps[..i], steps[i])
    ensures var o, events := Entered(past, steps)[id], EventsFor(steps, id);
            Run(o, events).filledQty == Run(JustSubmitted(o, id), events).filledQty + o.filledQty
  {
    hide ApplyOrderEvent, Restarted, RunLive;
    if steps == [] {
      NothingFilledYet(Entered(past, steps)[id], id);
    } else {
      var n := |steps| - 1;
      var front, last := steps[..n], steps[n];
      assert forall i :: 0 <= i < n ==> front[..i] == steps[..i] && front[i] == steps[i];
      OrderlyUpTo(past, steps, n);
      if id in Entered(past, front) {
        SameFillsAdded(past, front, id);
      }
      assert steps == front + [last];
      NextFillAdded(past, front, last, id);
    }
  }

  lemma NothingFilledYet(o: OrderRecord, id: string)
    ensures Run(o, []) == o && Run(JustSubmitted(o, id), []).filledQty == 0.0
  {}

  lemma FillChange(o: OrderRecord, event: OrderEvent)
    ensures var r := ApplyOrderEvent(o, event);
            r.order.filledQty == o.filledQty + if event.Fill? && r.Ok? then event.qty else 0.0
  {}

  lemma NextFillAdded(past: seq<JournalEntry>, front: seq<LiveStep>, last: LiveStep, id: string)
    requires Orderly(past, front + [last]) && id in Entered(past, front + [last]) && !FillsApart(past, front, last)
    requires id in Entered(past, front) ==>
               var o, events := Entered(past, front)[id], EventsFor(front, id);
               Run(o, events).filledQty == Run(JustSubmitted(o, id), events).filledQty + o.filledQty
    ensures var o, events := Entered(past, front + [last])[id], EventsFor(front + [last], id);
            Run(o, events).filledQty == Run(JustSubmitted(o, id), events).filledQty + o.filledQty
  {
    var steps := front + [last];
    assert steps[..|front|] == front && steps[|front|] == last;
    OrderlyUpTo(past, steps, |front|);
    RunsTrack(past, front);
    assert OrderTracked(ViewOf(past, RunLive(past, front), front, id), id);
    var events := EventsFor(front, id);
    assert events + [] == events;
    if last.PlaceStep? && last.veto.None? && last.intent.id == id {
      PlacedIsUnfilled(last.intent, last.ack);
      NothingFilledYet(Placed(last.intent, last.ack), id);
      hide Run, JustSubmitted, Placed;
    } else if last.AccountStep? && last.id == id {
      var o := Entered(past, front)[id];
      var x, y := Run(o, events), Run(JustSubmitted(o, id), events);
      RunOneMore(o, events, last.event);
      RunOneMore(JustSubmitted(o, id), events, last.event);
      FillChange(x, last.event);
      FillChange(y, last.event);
      hide Run, JustSubmitted, ApplyOrderEvent;
    }
  }

  lemma PlacedIsUnfilled(intent: OrderIntent, ack: SubmitAck)
    ensures Placed(intent, ack).filledQty == 0.0
  {}

  /** The first event a record accepts. */
  function FirstAccepted(o: OrderRecord, events: seq<OrderEvent>): Option<OrderEvent> {
    if events == [] then None
    else
      var earlier, last := FirstAccepted(o, events[..|events| - 1]), events[|events| - 1];
      if earlier.Some? then earlier else if ApplyOrderEvent(o, last).Ok? then Some(last) else None
  }

  /** How far a record has come from a submitted one, judged by the first event it accepted. */
  predicate CameFrom(o: OrderRecord, x: OrderRecord, first: Option<OrderEvent>) {
    match first
    case None => x == o
    case Some(event) =>
      && ApplyOrderEvent(o, event).Ok? && x.revision >= 2
      && (if event.Reject? then x == ApplyOrderEvent(o, event).order else x.revision == 2 ==> x.state != REJECTED)
  }

  lemma CameFromStep(o: OrderRecord, x: OrderRecord, first: Option<OrderEvent>, event: OrderEvent)
    requires o.state == SUBMITTED && o.revision == 1 && CameFrom(o, x, first)
    ensures CameFrom(o, ApplyOrderEvent(x, event).order,
                     if first.Some? then first else if ApplyOrderEvent(o, event).Ok? then Some(event) else None)
  {}

  lemma {:induction false} RunCameFrom(o: OrderRecord, events: seq<OrderEvent>)
    requires o.state == SUBMITTED && o.revision == 1
    ensures CameFrom(o, Run(o, events), FirstAccepted(o, events))
  {
    hide CameFrom, ApplyOrderEvent;
    if events == [] {
      CameFromItself(o);
    } else {
      var n := |events| - 1;
      RunCameFrom(o, events[..n]);
      CameFromStep(o, Run(o, events[..n]), FirstAccepted(o, events[..n]), events[n]);
    }
  }

  lemma CameFromItself(o: OrderRecord)
    ensures CameFrom(o, o, None)
  {}

  /** A submitted record ends up as a rejection at once exactly when that is the first thing it accepts. */
  lemma RejectedAtOnceIff(o: OrderRecord, events: seq<OrderEvent>, reason: string)
    requires o.state == SUBMITTED && o.revision == 1
    ensures Run(o, events) == ApplyOrderEvent(o, Reject(reason)).order
            <==> FirstAccepted(o, events) == Some(Reject(reason))
  {
    RunCameFrom(o, events);
    hide Run, FirstAccepted;
  }

  // ------------------------------------------------------- the first session

  /** In the first session every order was accepted or refused on submission, and entered as that left it. */
  lemma {:induction false} EnteredFirst(steps: seq<LiveStep>, id: string)
    requires Orderly([], steps)
    ensures AcceptedIds(steps) <= Entered([], steps).Keys
            && RunLive([], steps).es.orders.Keys == Entered([], steps).Keys
    ensures id in Entered([], steps) ==>
              var o := Entered([], steps)[id];
              if id in AcceptedIds(steps) then o == JustSubmitted(o, id) else IsRefused(o, id)
  {
    hide JustSubmitted, IsRefused, Placed;
    if steps == [] {
      FirstStart();
    } else {
      var front, last := steps[..|steps| - 1], steps[|steps| - 1];
      OrderlyUpTo([], steps, |steps| - 1);
      EnteredFirst(front, id);
      var s := RunLive([], front);
      if last.PlaceStep? { PlacedRecord(s.es, last.intent, last.ack); }
      if last.DrainStep? { DrainKeepsIds(AdvanceTo(s.es, last.ts), s.outbox); }
      hide ApplyOrderEvent, Drain;
    }
  }

  lemma {:induction false} DrainKeepsIds(es: EngineState, batch: seq<BrokerEvent>)
    ensures Drain(es, batch).orders.Keys == es.orders.Keys
    ensures forall id :: id in es.orders && (forall i :: 0 <= i < |batch| ==> batch[i].orderLinkId != id) ==>
              Drain(es, batch).orders[id] == es.orders[id]
  {
    hide ApplyOrderEvent;
    if batch != [] {
      var front := batch[..|batch| - 1];
      DrainKeepsIds(es, front);
      forall id | id in es.orders && (forall i :: 0 <= i < |batch| ==> batch[i].orderLinkId != id)
        ensures Drain(es, batch).orders[id] == es.orders[id]
      {
        assert batch[|batch| - 1].orderLinkId != id;
        assert forall i :: 0 <= i < |front| ==> front[i] == batch[i];
      }
    }
  }

  /** An account event that fills an order the venue had refused, on the strength of the record as it
      replays so far. */
  predicate FillsARefused(front: seq<LiveStep>, step: LiveStep) {
    && step.AccountStep? && step.event.Fill? && step.id in Entered([], front) && step.id !in AcceptedIds(front)
    && ApplyOrderEvent(Run(JustSubmitted(Entered([], front)[step.id], step.id), EventsFor(front, step.id)),
                       step.event).Ok?
  }

  lemma ApartIffRefused(front: seq<LiveStep>, step: LiveStep)
    requires Orderly([], front)
    ensures FillsApart([], front, step) <==> FillsARefused(front, step)
  {
    if step.AccountStep? && step.event.Fill? && step.id in Entered([], front) {
      var o, events := Entered([], front)[step.id], EventsFor(front, step.id);
      EnteredFirst(front, step.id);
      if step.id !in AcceptedIds(front) {
        TerminalForever(o, events);
      }
      hide Run, JustSubmitted, Entered, EventsFor, AcceptedIds;
    }
  }

  /** In every orderly first session the replayed positions equal those of the settled engine all along,
      if and only if no account event fills an order the venue had refused. */
  lemma FirstSessionPositionsIff(steps: seq<LiveStep>)
    requires Orderly([], steps)
    ensures (forall k :: 0 <= k <= |steps| ==> PositionMapsEqual(RunLive([], steps[..k])))
            <==> (forall i :: 0 <= i < |steps| ==> !FillsARefused(steps[..i], steps[i]))
  {
    ReplayedPositionsIff([], steps);
    FirstStart();
    forall k | 0 <= k <= |steps|
      ensures PositionMapsEqual(RunLive([], steps[..k])) <==> PositionsAgree([], RunLive([], steps[..k]))
    {
      EqualIffAgree(RunLive([], steps[..k]));
    }
    forall i | 0 <= i < |steps|
      ensures FillsApart([], steps[..i], steps[i]) <==> FillsARefused(steps[..i], steps[i])
    {
      OrderlyUpTo([], steps, i);
      ApartIffRefused(steps[..i], steps[i]);
    }
    hide PositionMapsEqual, PositionsAgree, FillsApart, FillsARefused, RunLive;
  }

  ghost predicate PositionMapsEqual(s: LiveState) {
    Replay(WithSubmits(s.journal)).positions == Settled(s).positions
  }

  lemma EqualIffAgree(s: LiveState)
    ensures PositionMapsEqual(s) <==> PositionsAgree([], s)
  {
    FirstStart();
    hide Replay, WithSubmits, Drain, Flats;
    var p, r := Settled(s).positions, Replay(WithSubmits(s.journal)).positions;
    if PositionsAgree([], s) {
      forall symbol | symbol in r ensures symbol in p && r[symbol] == p[symbol] {
        assert At(r, symbol) == At(p, symbol);
      }
      assert r == p;
    }
  }

  /** A journaled order the venue had refused replays to the engine's record exactly when the first
      event its replayed record accepts is a rejection, for the reason already booked. */
  lemma RefusedRecordAgreesIff(steps: seq<LiveStep>, id: string)
    requires Orderly([], steps) && id in RunLive([], steps).opens && id !in AcceptedIds(steps)
    ensures var s := RunLive([], steps);
            && id in Entered([], steps) && id in Settled(s).orders && id in Replay(WithSubmits(s.journal)).orders
            && var o := Entered([], steps)[id];
            && o.rejectReason.Some?
            && (Replay(WithSubmits(s.journal)).orders[id] == Settled(s).orders[id]
                <==> FirstAccepted(JustSubmitted(o, id), EventsFor(steps, id)) == Some(Reject(o.rejectReason.value)))
  {
    JournaledEntered([], steps, id);
    EnteredFirst(steps, id);
    RecordAgreesIff([], steps, id);
    hide WithSubmits, Replay, Settled, RunLive, AcceptedIds, EventsFor, Entered, FirstAccepted, Run, Orderly;
    RefusedComesToTheSameIff(Entered([], steps)[id], EventsFor(steps, id), id);
  }

  lemma JournaledEntered(past: seq<JournalEntry>, steps: seq<LiveStep>, id: string)
    requires Orderly(past, steps) && id in RunLive(past, steps).opens
    ensures id in Entered(past, steps)
  {
    RunsTrack(past, steps);
    assert OrderTracked(ViewOf(past, RunLive(past, steps), steps, id), id);
  }

  lemma RefusedComesToTheSameIff(o: OrderRecord, events: seq<OrderEvent>, id: string)
    requires IsRefused(o, id)
    ensures Run(o, events) == Run(JustSubmitted(o, id), events)
            <==> FirstAccepted(JustSubmitted(o, id), events) == Some(Reject(o.rejectReason.value))
  {
    SubmittedTerms(o, id);
    RejectedAtOnceIff(JustSubmitted(o, id), events, o.rejectReason.value);
    TerminalForever(o, events);
    hide Run, FirstAccepted;
  }

  /** A journaled order the venue had accepted always replays to the settled engine's record. */
  lemma AcceptedRecordAgrees(steps: seq<LiveStep>, id: string)
    requires Orderly([], steps) && id in RunLive([], steps).opens && id in AcceptedIds(steps)
    ensures var s := RunLive([], steps);
            && id in Settled(s).orders && id in Replay(WithSubmits(s.journal)).orders
            && Replay(WithSubmits(s.journal)).orders[id] == Settled(s).orders[id]
  {
    JournaledEntered([], steps, id);
    EnteredFirst(steps, id);
    RecordAgreesIff([], steps, id);
    hide WithSubmits, Replay, Drain, RunLive, Run, EventsFor, Entered;
  }

  ghost predicate ConcernsAccepted(steps: seq<LiveStep>) {
    forall i :: 0 <= i < |steps| && steps[i].AccountStep? ==> steps[i].id in AcceptedIds(steps[..i])
  }

  /** Replaying the journal gives the settled engine, order for order and position for position. */
  ghost predicate ReplayAgrees(s: LiveState, accepted: set<string>) {
    var p, r := Settled(s), Replay(WithSubmits(s.journal));
    && s.opens <= accepted <= s.es.orders.Keys && p.orders.Keys == s.es.orders.Keys
    && (forall i :: 0 <= i < |s.outbox| ==> s.outbox[i].orderLinkId in s.opens)
    && r.orders.Keys == s.opens
    && (forall id :: id in s.opens ==> r.orders[id] == p.orders[id])
    && (forall id :: id in accepted - s.opens ==> p.orders[id] == JustSubmitted(s.es.orders[id], id))
    && (forall id :: id in accepted - s.opens ==> s.es.orders[id] == JustSubmitted(s.es.orders[id], id))
    && r.positions == p.positions
  }

  ghost predicate OrderAgrees(s: LiveState, accepted: set<string>, id: string) {
    var p, r := Settled(s), Replay(WithSubmits(s.journal));
    && (id in p.orders <==> id in s.es.orders) && (id in r.orders <==> id in s.opens)
    && (id in s.opens ==> id in p.orders && r.orders[id] == p.orders[id])
    && (id in accepted ==> id in s.es.orders)
    && (id in accepted - s.opens ==> s.es.orders[id] == p.orders[id] == JustSubmitted(s.es.orders[id], id))
  }

  lemma TrackedAgrees(steps: seq<LiveStep>, id: string)
    requires Orderly([], steps) && RunLive([], steps).opens <= AcceptedIds(steps)
    ensures OrderAgrees(RunLive([], steps), AcceptedIds(steps), id)
  {
    RunsTrack([], steps);
    EnteredFirst(steps, id);
    FirstStart();
    var s := RunLive([], steps);
    var v := ViewOf([], s, steps, id);
    assert OrderTracked(v, id);
    if id in s.opens { AcceptedRecordAgrees(steps, id); }
    if id in AcceptedIds(steps) - s.opens { HeldAsEntered([], steps, id); }
    hide WithSubmits, Replay, Drain, RunLive, AcceptedIds, EventsFor, JustSubmitted, Entered, Settled;
  }

  lemma EveryOrderAgrees(s: LiveState, accepted: set<string>)
    requires forall id :: OrderAgrees(s, accepted, id)
    requires s.opens <= accepted && PositionMapsEqual(s)
    requires forall i :: 0 <= i < |s.outbox| ==> s.outbox[i].orderLinkId in s.opens
    ensures ReplayAgrees(s, accepted)
  {
    hide Settled, Replay, WithSubmits, JustSubmitted;
    var p, r := Settled(s), Replay(WithSubmits(s.journal));
    forall id
      ensures (id in p.orders <==> id in s.es.orders) && (id in r.orders <==> id in s.opens)
      ensures (id in s.opens ==> id in p.orders && r.orders[id] == p.orders[id])
      ensures id in accepted ==> id in s.es.orders
      ensures id in accepted - s.opens ==> s.es.orders[id] == p.orders[id] == JustSubmitted(s.es.orders[id], id)
    {
      assert OrderAgrees(s, accepted, id);
    }
  }

  /** An order no account event has mentioned is held as it entered. */
  lemma {:induction false} HeldAsEntered(past: seq<JournalEntry>, steps: seq<LiveStep>, id: string)
    requires Orderly(past, steps) && id in Entered(past, steps) && id !in RunLive(past, steps).opens
    ensures var s, o := RunLive(past, steps), Entered(past, steps)[id];
            id in s.es.orders && id in Settled(s).orders && s.es.orders[id] == Settled(s).orders[id] == o
  {
    RunsTrack(past, steps);
    var s := RunLive(past, steps);
    assert OrderTracked(ViewOf(past, s, steps, id), id);
    DrainKeepsIds(s.es, s.outbox);
    hide Drain, RunLive, Entered, EventsFor, JustSubmitted, WithSubmits, Replay;
    assert forall i :: 0 <= i < |s.outbox| ==> s.outbox[i].orderLinkId != id;
  }

  lemma {:induction false} OpensAreAccepted(steps: seq<LiveStep>)
    requires ConcernsAccepted(steps)
    ensures RunLive([], steps).opens <= AcceptedIds(steps)
  {
    hide Drain, ProcessOrder, ProcessCancel;
    if steps == [] {
      FirstStart();
    } else {
      var front := steps[..|steps| - 1];
      assert forall i :: 0 <= i < |front| ==> front[..i] == steps[..i] && front[i] == steps[i];
      OpensAreAccepted(front);
    }
  }

  /** In every orderly first session whose account events concern accepted orders, replaying the journal
      (with each submission after its opening) gives, for every order an account event has mentioned,
      exactly the engine's record once its queue is drained, and exactly its positions; accepted orders
      not yet mentioned are untouched. */
  lemma ReplayEqualsSettledEngine(steps: seq<LiveStep>)
    requires Orderly([], steps) && ConcernsAccepted(steps)
    ensures ReplayAgrees(RunLive([], steps), AcceptedIds(steps))
  {
    RunsTrack([], steps);
    FirstSessionPositionsIff(steps);
    OpensAreAccepted(steps);
    var s := RunLive([], steps);
    assert forall i :: 0 <= i < |s.outbox| ==> s.outbox[i].orderLinkId in s.opens;
    hide Tracks, RunLive, AcceptedIds, Orderly, OrderAgrees, PositionMapsEqual, ReplayAgrees;
    assert forall i :: 0 <= i < |steps| ==> !FillsARefused(steps[..i], steps[i]);
    assert steps[..|steps|] == steps;
    forall id ensures OrderAgrees(s, AcceptedIds(steps), id) { TrackedAgrees(steps, id); }
    hide FillsARefused;
    EveryOrderAgrees(s, AcceptedIds(steps));
  }

  /** Concretely: a submission answered by a network error is rejected locally, and if it did land its
      fill is refused by the engine but replayed by the journal. */
  lemma RefusedYetFilledCounterexample()
    ensures var intent := OrderIntent("zt-1", "BTC", Buy, 1.0, Market, false, None, "");
            var steps := [PlaceStep(intent, None, SubmitAck(false, None, Some("Network error"), false)),
                          AccountStep("zt-1", Fill(1.0, 100.0, 0.0, false), 5)];
            var s := RunLive([], steps);
            && Settled(s).PositionOf("BTC") == 0.0
            && At(Replay(WithSubmits(s.journal)).positions, "BTC") == 1.0
  {
    var intent := OrderIntent("zt-1", "BTC", Buy, 1.0, Market, false, None, "");
    var fill := Fill(1.0, 100.0, 0.0, false);
    var s1 := PlaceStep(intent, None, SubmitAck(false, None, Some("Network error"), false));
    RunOfTwo([], s1, AccountStep("zt-1", fill, 5));
    FirstStart();
    var a := StepLive(Restarted([]), s1);
    RefusedAtOnce(intent, "Network error");
    hide RunLive, StepLive, AccountEvent, Drain, Replay, WithSubmits, Restarted;
    SettledOfAccount(a, "zt-1", fill, 5);
    OpenThenRecord(a, "zt-1", fill, 5);
    FillOfSubmitted(intent, fill);
  }

  lemma RefusedAtOnce(intent: OrderIntent, reason: string)
    ensures var a := StepLive(Restarted([]), PlaceStep(intent, None, SubmitAck(false, None, Some(reason), false)));
            && intent.id in a.es.orders && IsRefused(a.es.orders[intent.id], intent.id)
            && JustSubmitted(a.es.orders[intent.id], intent.id) == SubmittedRecord(intent)
            && a.outbox == [] && a.journal == [] && a.opens == {} && a.es.positions == map[] && Settled(a) == a.es
  {
    FirstStart();
    hide Restarted;
  }

  lemma FillOfSubmitted(intent: OrderIntent, fill: OrderEvent)
    requires fill.Fill? && 0.0 < fill.qty <= intent.qty
    ensures ApplyOrderEvent(SubmittedRecord(intent), fill).Ok?
    ensures SubmittedRecord(intent).symbol == intent.symbol && SubmittedRecord(intent).side == intent.side
  {}

  lemma RunOfTwo(past: seq<JournalEntry>, s1: LiveStep, s2: LiveStep)
    ensures RunLive(past, []) == Restarted(past) && RunLive(past, [s1]) == StepLive(Restarted(past), s1)
    ensures RunLive(past, [s1, s2]) == StepLive(StepLive(Restarted(past), s1), s2)
    ensures s2.AccountStep? ==>
              RunLive(past, [s1, s2]) == AccountEvent(StepLive(Restarted(past), s1), s2.id, s2.event, s2.at)
  {
    hide AccountEvent, ProcessOrder, Drain, Restarted;
    assert [s1][..0] == [] && [s1, s2][..1] == [s1];
    assert RunLive(past, [s1]) == StepLive(RunLive(past, [s1][..0]), [s1][0]);
    assert RunLive(past, [s1, s2]) == StepLive(RunLive(past, [s1, s2][..1]), [s1, s2][1]);
  }

  // ------------------------------------------------------------ after a restart

  /** Concretely: one session buys 1 and sees it filled. The next one, restarted from its journal, holds 1;
      the venue reports the fill again, the engine refuses it, and the journal, in which the order has
      been opened anew, now recovers 2. */
  lemma RedeliveredFillCounterexample()
    ensures var intent := OrderIntent("zt-1", "BTC", Buy, 1.0, Market, false, None, "");
            var fill := Fill(1.0, 100.0, 0.0, false);
            var first := RunLive([], [PlaceStep(intent, None, SubmitAck(true, None, None, false)),
                                      AccountStep("zt-1", fill, 5)]);
            var second := RunLive(first.journal, [AccountStep("zt-1", fill, 9)]);
            && Orderly(first.journal, [AccountStep("zt-1", fill, 9)])
            && Settled(first).PositionOf("BTC") == 1.0 && Settled(second).PositionOf("BTC") == 1.0
            && At(Replay(WithSubmits(second.journal)).positions, "BTC") == 2.0
  {
    var intent := OrderIntent("zt-1", "BTC", Buy, 1.0, Market, false, None, "");
    var fill := Fill(1.0, 100.0, 0.0, false);
    var s1, again := PlaceStep(intent, None, SubmitAck(true, None, None, false)), AccountStep("zt-1", fill, 9);
    RunOfTwo([], s1, AccountStep("zt-1", fill, 5));
    AcceptedAtOnce(intent);
    var first := AccountEvent(StepLive(Restarted([]), s1), "zt-1", fill, 5);
    hide RunLive, Drain, Replay, WithSubmits, StepLive, ApplyOrderEvent, AccountEvent, Restarted;
    FirstFill(StepLive(Restarted([]), s1), intent, fill);
    RunOfTwo(first.journal, again, again);
    RestartedFilled(first.journal, intent, fill);
    SecondOpening(Restarted(first.journal), intent, fill);
    OneStepOrderly(first.journal, again);
  }

  lemma FirstFill(a: LiveState, intent: OrderIntent, fill: OrderEvent)
    requires fill.Fill? && 0.0 < fill.qty == intent.qty && intent.side == Buy
    requires intent.id in a.es.orders && a.es.orders[intent.id] == SubmittedRecord(intent)
    requires JustSubmitted(a.es.orders[intent.id], intent.id) == SubmittedRecord(intent)
    requires a.outbox == [] && a.journal == [] && a.opens == {} && a.es.positions == map[] && Settled(a) == a.es
    ensures var s := AccountEvent(a, intent.id, fill, 5);
            Settled(s).PositionOf(intent.symbol) == intent.qty && RecoversFilled(s.journal, intent, fill)
  {
    hide Drain, Replay, WithSubmits, ApplyOrderEvent, JustSubmitted;
    FillOfSubmitted(intent, fill);
    FirstStart();
    SettledOfAccount(a, intent.id, fill, 5);
    OpenThenRecord(a, intent.id, fill, 5);
    FilledWhole(intent, fill);
  }

  /** A journal recovers one order, filled whole, and its position. */
  predicate RecoversFilled(journal: seq<JournalEntry>, intent: OrderIntent, fill: OrderEvent) {
    var r := Replay(WithSubmits(journal));
    && intent.id in r.orders && r.orders[intent.id] == ApplyOrderEvent(SubmittedRecord(intent), fill).order
    && r.positions == map[intent.symbol := intent.qty]
  }

  lemma RestartedFilled(journal: seq<JournalEntry>, intent: OrderIntent, fill: OrderEvent)
    requires RecoversFilled(journal, intent, fill) && intent.qty > 0.0
    ensures var b, r := Restarted(journal), Replay(WithSubmits(journal));
            && b.journal == journal && b.opens == {} && b.outbox == [] && r.orders == b.es.orders
                && intent.id in r.orders
            && r.orders[intent.id] == ApplyOrderEvent(SubmittedRecord(intent), fill).order
            && At(r.positions, intent.symbol) == At(b.es.positions, intent.symbol) == intent.qty
  {
    hide Replay, WithSubmits, ApplyOrderEvent;
  }

  lemma AcceptedAtOnce(intent: OrderIntent)
    ensures var a := StepLive(Restarted([]), PlaceStep(intent, None, SubmitAck(true, None, None, false)));
            && intent.id in a.es.orders && a.es.orders[intent.id] == SubmittedRecord(intent)
            && JustSubmitted(a.es.orders[intent.id], intent.id) == SubmittedRecord(intent)
            && a.outbox == [] && a.journal == [] && a.opens == {} && a.es.positions == map[] && Settled(a) == a.es
  {
    FirstStart();
    hide Restarted;
  }

  lemma FilledWhole(intent: OrderIntent, fill: OrderEvent)
    requires fill.Fill? && 0.0 < fill.qty == intent.qty
    ensures var o := ApplyOrderEvent(SubmittedRecord(intent), fill).order;
            && (o.symbol, o.side, o.qty) == (intent.symbol, intent.side, intent.qty)
            && ApplyOrderEvent(o, fill).Err? && JustSubmitted(o, intent.id) == SubmittedRecord(intent)
  {}

  lemma SecondOpening(b: LiveState, intent: OrderIntent, fill: OrderEvent)
    requires fill.Fill? && 0.0 < fill.qty == intent.qty && intent.side == Buy && b.opens == {} && b.outbox == []
    requires intent.id in b.es.orders && b.es.orders[intent.id] == ApplyOrderEvent(SubmittedRecord(intent), fill).order
    requires var r := Replay(WithSubmits(b.journal));
             && r.orders == b.es.orders && At(r.positions, intent.symbol) == At(b.es.positions, intent.symbol)
                 == intent.qty
    ensures var s := StepLive(b, AccountStep(intent.id, fill, 9));
            && Settled(s).PositionOf(intent.symbol) == intent.qty
            && At(Replay(WithSubmits(s.journal)).positions, intent.symbol) == intent.qty + intent.qty
  {
    FilledWhole(intent, fill);
    FillOfSubmitted(intent, fill);
    assert Settled(b) == b.es;
    hide Drain, Replay, WithSubmits, ApplyOrderEvent;
    SettledOfAccount(b, intent.id, fill, 9);
    OpenThenRecord(b, intent.id, fill, 9);
    SubmittedTerms(NewOrder(intent.id, intent.symbol, intent.side, intent.qty), intent.id);
  }

  lemma OneStepOrderly(past: seq<JournalEntry>, step: LiveStep)
    requires step.AccountStep? && !step.event.Submit? && step.id in Restarted(past).es.orders
    ensures Orderly(past, [step])
  {
    assert [step][..0] == [];
  }
}
