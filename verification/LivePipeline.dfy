/** The live pipeline: durable journaling of account events, reconciliation and cold start. */
module LivePipelines {
  import opened Results
  import opened Reals
  import opened OrderStates
  import opened Sums
  import opened Engines
  import opened Journals
  import opened LiveReplay
  import opened WrittenJournals
  import opened Reconcilers

  /** A position as the venue lists it: a size, and whether it was sold. */
  datatype VenuePosition = VenuePosition(symbol: string, sold: bool, size: real)

  /** What one pull of the venue returns. */
  datatype VenuePull = VenuePull(orders: seq<ExchangeOrder>, positions: seq<VenuePosition>) {
    /** Its positions with signed sizes. */
    function Rows(): seq<ExchangePosition> {
      seq(|positions|, i requires 0 <= i < |positions| =>
        ExchangePosition(positions[i].symbol, if positions[i].sold then -positions[i].size else positions[i].size))
    }
  }

  /** Everything the exchange reports plus everything tracked locally. */
  function TrackedSymbols(orders: map<string, OrderRecord>, streamed: set<string>, pull: VenuePull): set<string> {
    (set p | p in pull.positions :: p.symbol) + (set id | id in orders :: orders[id].symbol) + streamed
  }

  /** The venue's own size of a symbol, as its last listed position has it: long above zero, short below. */
  lemma LastPositionCounts(pull: VenuePull, i: nat)
    requires i < |pull.positions|
    requires forall j :: i < j < |pull.positions| ==> pull.positions[j].symbol != pull.positions[i].symbol
    ensures VenueSize(pull.Rows(), pull.positions[i].symbol)
            == if pull.positions[i].sold then -pull.positions[i].size else pull.positions[i].size
  {
    LastRowCounts(pull.Rows(), i);
  }

  lemma UnlistedPositionIsFlat(pull: VenuePull, symbol: string)
    requires forall p :: p in pull.positions ==> p.symbol != symbol
    ensures VenueSize(pull.Rows(), symbol) == 0.0
  {
    UnlistedIsFlat(pull.Rows(), symbol);
  }

  lemma ListedAreTracked(orders: map<string, OrderRecord>, streamed: set<string>, pull: VenuePull, symbol: string)
    requires IsListed(pull.Rows(), symbol)
    ensures symbol in TrackedSymbols(orders, streamed, pull)
  {
    var i :| 0 <= i < |pull.Rows()| && pull.Rows()[i].symbol == symbol;
    assert pull.positions[i] in pull.positions;
  }

  /** Positions after a reconciliation pass: tracked symbols that disagree take the venue's size. */
  ghost predicate CorrectedTo(before: map<string, real>, after: map<string, real>, tracked: set<string>,
                              rows: seq<ExchangePosition>)
  {
    forall symbol ::
      At(after, symbol) == if symbol in tracked && !SameSize(At(before, symbol), VenueSize(rows, symbol))
                           then VenueSize(rows, symbol) else At(before, symbol)
  }

  /** Positions loaded from a replayed journal on top of what the engine holds. */
  ghost predicate Loaded(before: map<string, real>, after: map<string, real>, recovered: map<string, real>) {
    forall symbol :: At(after, symbol) == if symbol in recovered then recovered[symbol] else At(before, symbol)
  }

  /** The two views disagree on nothing: no order, and no tracked symbol. */
  ghost predicate NothingDrifts(orders: map<string, OrderRecord>, positions: map<string, real>, tracked: set<string>,
                                pull: VenuePull)
  {
    && (forall id :: id in orders && IsLive(orders[id]) ==> exists o :: o in pull.orders && o.orderLinkId == id)
    && (forall o :: o in pull.orders ==> o.orderLinkId in orders && IsLive(orders[o.orderLinkId]))
    && (forall symbol :: symbol in tracked ==> SameSize(At(positions, symbol), VenueSize(pull.Rows(), symbol)))
  }

  /** An empty drift list says just that. */
  lemma EmptyDriftIff(drift: seq<Drift>, orders: map<string, OrderRecord>, positions: map<string, real>,
                      tracked: set<string>,
                      pull: VenuePull)
    requires forall symbol :: IsListed(pull.Rows(), symbol) ==> symbol in tracked
    requires Diffs(drift, orders, map symbol | symbol in tracked :: At(positions, symbol), pull.orders, pull.Rows())
    ensures drift == [] <==> NothingDrifts(orders, positions, tracked, pull)
  {
    var local := map symbol | symbol in tracked :: At(positions, symbol);
    var rows := pull.Rows();
    hide VenueSize;
    if drift == [] {
      forall id | id in orders && IsLive(orders[id]) ensures exists o :: o in pull.orders && o.orderLinkId == id {
        assert IsDrift(PhantomOrder(id), orders, local, pull.orders, rows) ==> PhantomOrder(id) in drift;
      }
      forall o | o in pull.orders ensures o.orderLinkId in orders && IsLive(orders[o.orderLinkId]) {
        assert o == ExchangeOrder(o.orderLinkId, o.symbol);
        var d := UntrackedOrder(o.orderLinkId, o.symbol);
        assert IsDrift(d, orders, local, pull.orders, rows) ==> d in drift;
      }
      forall symbol | symbol in tracked ensures SameSize(At(positions, symbol), VenueSize(rows, symbol)) {
        var d := PositionMismatch(symbol, At(positions, symbol), VenueSize(rows, symbol));
        assert IsDrift(d, orders, local, pull.orders, rows) ==> d in drift;
      }
    } else {
      assert drift[0] in drift;
      assert IsDrift(drift[0], orders, local, pull.orders, rows);
    }
  }

  class LiveBroker {
    var outbox: seq<BrokerEvent>
    /** The venue's own id of an order, as its latest acknowledgement gave it. */
    var exchangeIds: map<string, string>

    constructor ()
      ensures outbox == [] && exchangeIds == map[]
    {
      outbox, exchangeIds := [], map[];
    }

    method IngestOrderEvent(id: string, event: OrderEvent, at: int)
      modifies this
      ensures outbox == old(outbox) + [BrokerEvent(id, event, at)]
      ensures exchangeIds == if event.Ack? then old(exchangeIds)[id := event.exchangeOrderId] else old(exchangeIds)
    {
      if event.Ack? { exchangeIds := exchangeIds[id := event.exchangeOrderId]; }
      outbox := outbox + [BrokerEvent(id, event, at)];
    }

    method DrainEvents() returns (events: seq<BrokerEvent>)
      modifies this
      ensures events == old(outbox) && outbox == [] && exchangeIds == old(exchangeIds)
    {
      events := outbox;
      outbox := [];
    }
  }

  class LivePipeline {
    const engine: Engine
    const broker: LiveBroker
    const journal: MemoryJournal
    const gate: RecoveryGate
    var journaledOpens: set<string>
    /** Signed sizes as the private stream last reported them. */
    var streamedPositions: map<string, real>

    ghost function State(): LiveState
      reads this, engine, broker, journal
    {
      LiveState(engine.State(), broker.outbox, journal.entries, journaledOpens)
    }

    constructor (journal: MemoryJournal)
      ensures this.journal == journal && fresh(engine) && fresh(broker) && fresh(gate)
      ensures engine.State() == FRESH && broker.outbox == [] && !gate.canTrade
      ensures journaledOpens == {} && streamedPositions == map[]
    {
      engine := new Engine();
      broker := new LiveBroker();
      this.journal := journal;
      gate := new RecoveryGate();
      journaledOpens, streamedPositions := {}, map[];
    }

    /** Journal first, then queue for the engine. */
    method HandleAccountEvent(id: string, event: OrderEvent, at: int)
      modifies this`journaledOpens, journal, broker
      ensures State() == AccountEvent(old(State()), id, event, at)
      ensures broker.outbox == old(broker.outbox) + [BrokerEvent(id, event, at)]
      ensures id in engine.orders && id !in old(journaledOpens) ==>
                var o := engine.orders[id];
                && journaledOpens == old(journaledOpens) + {id}
                && journal.entries == old(journal.entries) + [Opened(at, id, o.symbol, o.side, o.qty),
                                                              Recorded(at, id, event)]
      ensures id !in engine.orders || id in old(journaledOpens) ==>
                && journaledOpens == old(journaledOpens)
                && journal.entries == old(journal.entries) + [Recorded(at, id, event)]
    {
      if id in engine.orders && id !in journaledOpens {
        var record := engine.orders[id];
        journal.Append(Opened(at, id, record.symbol, record.side, record.qty));
        journaledOpens := journaledOpens + {id};
      }
      journal.Append(Recorded(at, id, event));
      broker.IngestOrderEvent(id, event, at);
    }

    /** The engine's tick: drain what the account stream queued. */
    method Tick(ts: int)
      modifies engine, broker
      ensures State() == StepLive(old(State()), DrainStep(ts))
    {
      engine.AdvanceClock(ts);
      var batch := broker.DrainEvents();
      engine.DrainBroker(batch);
    }

    /** A streamed position is kept signed, and makes its symbol one to reconcile. */
    method OnStreamedPosition(symbol: string, size: real, sold: bool)
      modifies this`streamedPositions
      ensures streamedPositions == old(streamedPositions)[symbol := if sold then -AbsReal(size) else AbsReal(size)]
    {
      var signed := if sold then -AbsReal(size) else AbsReal(size);
      streamedPositions := streamedPositions[symbol := signed];
    }

    /** One pass against a pull of the venue; true when nothing disagreed. */
    method RunReconciliation(pull: VenuePull) returns (clean: bool)
      modifies engine`positions
      ensures CorrectedTo(old(engine.positions), engine.positions,
                          TrackedSymbols(engine.orders, streamedPositions.Keys, pull), pull.Rows())
      ensures forall symbol ::
                if || symbol in streamedPositions
                   || (exists id :: id in engine.orders && engine.orders[id].symbol == symbol)
                   || (exists p :: p in pull.positions && p.symbol == symbol)
                then Near(At(engine.positions, symbol), VenueSize(pull.Rows(), symbol))
                else At(engine.positions, symbol) == At(old(engine.positions), symbol)
      ensures clean ==> engine.positions == old(engine.positions)
      ensures clean <==> NothingDrifts(engine.orders, old(engine.positions),
                                       TrackedSymbols(engine.orders, streamedPositions.Keys, pull), pull)
    {
      var tracked := TrackedSymbols(engine.orders, streamedPositions.Keys, pull);
      var local := map symbol | symbol in tracked :: At(engine.positions, symbol);
      var drift: seq<Drift>;
      drift, clean := Reconcile(engine.orders, local, pull.orders, pull.Rows());
      forall symbol | IsListed(pull.Rows(), symbol) ensures symbol in tracked {
        ListedAreTracked(engine.orders, streamedPositions.Keys, pull, symbol);
      }
      EmptyDriftIff(drift, engine.orders, engine.positions, tracked, pull);
      if !clean {
        var corrections := PositionCorrections(drift);
        ApplyCorrections(corrections);
      }
      ghost var rows := pull.Rows();
      forall symbol
        ensures At(engine.positions, symbol)
                == if symbol in tracked && !SameSize(At(old(engine.positions), symbol), VenueSize(rows, symbol))
                   then VenueSize(rows, symbol) else At(old(engine.positions), symbol)
      {
        CorrectedSymbols(drift, engine.orders, local, pull.orders, rows, symbol);
        if symbol in MismatchSymbols(drift) {
          var i :| 0 <= i < |drift| && drift[i].PositionMismatch? && drift[i].symbol == symbol;
          assert drift[i] in drift;
        }
      }
    }

    method ApplyCorrections(corrections: map<string, real>)
      modifies engine`positions
      ensures Loaded(old(engine.positions), engine.positions, corrections)
    {
      var symbols := corrections.Keys;
      while symbols != {}
        invariant symbols <= corrections.Keys
        invariant forall symbol :: At(engine.positions, symbol)
                    == if symbol in corrections.Keys - symbols
                        then corrections[symbol] else At(old(engine.positions), symbol)
        decreases |symbols|
      {
        var symbol :| symbol in symbols;
        engine.OverridePosition(symbol, corrections[symbol]);
        symbols := symbols - {symbol};
      }
    }

    /** Rebuild from the journal, reconcile, and only then open the gate. `pull` is None when the
        venue could not be reached. */
    method ColdStart(pull: Option<VenuePull>, now: int) returns (reconciled: bool)
      modifies engine`orders, engine`positions, journal, gate
      ensures reconciled <==> pull.Some?
      ensures gate.canTrade <==> pull.Some?
      ensures engine.orders == old(engine.orders) + Replay(old(journal.entries)).orders
      ensures pull.None? ==> Loaded(old(engine.positions), engine.positions, Replay(old(journal.entries)).positions)
      ensures pull.Some? ==>
        exists loaded ::
          && Loaded(old(engine.positions), loaded, Replay(old(journal.entries)).positions)
          && var tracked := TrackedSymbols(engine.orders, streamedPositions.Keys, pull.value);
          && CorrectedTo(loaded, engine.positions, tracked, pull.value.Rows())
          && journal.entries == old(journal.entries)
             + if NothingDrifts(engine.orders, loaded, tracked, pull.value)
                 then [Reconciled(now, "cold start reconciled")] else []
      ensures pull.None? ==> journal.entries == old(journal.entries)
    {
      gate.Block();
      var recovered := RecoverState(journal.entries);
      engine.RestoreOrders(recovered.orders);
      ApplyCorrections(recovered.positions);
      if pull.None? { return false; }
      ghost var loaded := engine.positions;
      var clean := RunReconciliation(pull.value);
      gate.MarkReconciled();
      if clean { journal.Append(Reconciled(now, "cold start reconciled")); }
      assert old(journal.entries) + [] == old(journal.entries);
      reconciled := true;
    }
  }

  // ------------------------------------------------------- cold start theorems

  /** Every symbol's local size is within tolerance of the venue's, of zero where it lists none. */
  ghost predicate AgreesWithVenue(positions: map<string, real>, pull: VenuePull) {
    forall symbol :: Near(At(positions, symbol), VenueSize(pull.Rows(), symbol))
  }

  /** The engine as a successful cold start of a fresh engine leaves it. */
  ghost predicate ColdStarted(entries: seq<JournalEntry>, pull: VenuePull, streamed: set<string>,
                              orders: map<string, OrderRecord>, positions: map<string, real>)
  {
    var r := Replay(entries);
    && orders == r.orders
    && exists loaded ::
         && Loaded(map[], loaded, r.positions)
         && CorrectedTo(loaded, positions, TrackedSymbols(orders, streamed, pull), pull.Rows())
  }

  /** A new process: a pipeline over the journal left behind, cold-started against one pull of the venue. */
  method StartFrom(journal: MemoryJournal, pull: VenuePull, now: int) returns (pipeline: LivePipeline)
    modifies journal
    ensures fresh(pipeline) && pipeline.journal == journal && pipeline.gate.canTrade
    ensures ColdStarted(old(journal.entries), pull, {}, pipeline.engine.orders, pipeline.engine.positions)
  {
    pipeline := new LivePipeline(journal);
    var reconciled := pipeline.ColdStart(Some(pull), now);
    assert map[] + Replay(old(journal.entries)).orders == Replay(old(journal.entries)).orders;
  }

  /** After a cold start of a fresh engine every symbol agrees with the venue exactly when each
      recovered position either belongs to a tracked symbol or is within tolerance of flat. */
  lemma ColdStartAgreesIff(entries: seq<JournalEntry>, pull: VenuePull, streamed: set<string>,
                           orders: map<string, OrderRecord>, positions: map<string, real>)
    requires ColdStarted(entries, pull, streamed, orders, positions)
    ensures AgreesWithVenue(positions, pull)
            <==> forall symbol :: symbol in Replay(entries).positions ==>
                   symbol in TrackedSymbols(orders, streamed, pull) || Near(Replay(entries).positions[symbol], 0.0)
  {
    var r, rows, tracked := Replay(entries), pull.Rows(), TrackedSymbols(orders, streamed, pull);
    var loaded :| Loaded(map[], loaded, r.positions) && CorrectedTo(loaded, positions, tracked, rows);
    hide VenuePull.Rows, VenueSize, TrackedSymbols;
    forall symbol
      ensures Near(At(positions, symbol), VenueSize(rows, symbol))
              <==> symbol in tracked || symbol !in r.positions || Near(r.positions[symbol], 0.0)
    {
      assert At(loaded, symbol) == if symbol in r.positions then r.positions[symbol] else 0.0;
      if symbol !in tracked {
        if IsListed(pull.Rows(), symbol) { ListedAreTracked(orders, streamed, pull, symbol); }
        UnlistedIsFlat(rows, symbol);
      }
    }
    if AgreesWithVenue(positions, pull) {
      forall symbol | symbol in r.positions
        ensures symbol in tracked || Near(r.positions[symbol], 0.0)
      {
        assert Near(At(positions, symbol), VenueSize(rows, symbol));
      }
    }
  }

  /** When the journal opens every id under one symbol, a cold start leaves every symbol within
      tolerance of the venue, and a second pass over the same pull finds no position mismatch. */
  lemma ColdStartReachesTheVenue(entries: seq<JournalEntry>, pull: VenuePull, streamed: set<string>,
                                 orders: map<string, OrderRecord>, positions: map<string, real>, drift: seq<Drift>)
    requires OpeningsAgree(entries) && ColdStarted(entries, pull, streamed, orders, positions)
    requires Diffs(drift, orders, map symbol | symbol in TrackedSymbols(orders, streamed, pull) ::
                   At(positions, symbol),
                   pull.orders, pull.Rows())
    ensures AgreesWithVenue(positions, pull)
    ensures MismatchSymbols(drift) == {}
  {
    RecoveredPositionsHaveOrders(entries);
    forall symbol | symbol in Replay(entries).positions
      ensures symbol in TrackedSymbols(orders, streamed, pull)
    {
      var id :| id in orders && orders[id].symbol == symbol;
    }
    ColdStartAgreesIff(entries, pull, streamed, orders, positions);
    var tracked := TrackedSymbols(orders, streamed, pull);
    var local := map symbol | symbol in tracked :: At(positions, symbol);
    forall symbol ensures symbol !in MismatchSymbols(drift) {
      CorrectedSymbols(drift, orders, local, pull.orders, pull.Rows(), symbol);
      assert Near(At(positions, symbol), VenueSize(pull.Rows(), symbol));
      if IsListed(pull.Rows(), symbol) { ListedAreTracked(orders, streamed, pull, symbol); }
    }
  }

  /** A journal of the pipeline's own holds no submission. A cold start from one always ends within
      tolerance of the venue on every symbol, whatever ids it opens again and under whatever symbols. */
  lemma WrittenJournalReachesTheVenue(entries: seq<JournalEntry>, pull: VenuePull, streamed: set<string>,
                                      orders: map<string, OrderRecord>, positions: map<string, real>)
    requires HoldsNoSubmit(entries) && ColdStarted(entries, pull, streamed, orders, positions)
    ensures AgreesWithVenue(positions, pull)
  {
    AsWrittenReplay(entries);
    ColdStartAgreesIff(entries, pull, streamed, orders, positions);
  }

  function ForeignJournal(): seq<JournalEntry> {
    [Opened(1, "zt-1", "BTC", Buy, 1.0), Recorded(2, "zt-1", Submit),
     Recorded(3, "zt-1", Fill(1.0, 100.0, 0.0, false)), Opened(4, "zt-1", "ETH", Buy, 1.0)]
  }

  /** With a journal from elsewhere, holding the submissions, an id opened again under another symbol
      leaves the old position behind. */
  lemma ForeignReopeningIsNotReconciled()
    ensures var journal := ForeignJournal();
            var r, flat := Replay(journal), VenuePull([], []);
            && At(r.positions, "BTC") == 1.0 && "BTC" !in TrackedSymbols(r.orders, {}, flat)
            && forall positions :: ColdStarted(journal, flat, {}, r.orders, positions)
                ==> !AgreesWithVenue(positions, flat)
  {
    var r := ForeignReplay();
    var journal, flat := ForeignJournal(), VenuePull([], []);
    hide Replay;
    forall positions | ColdStarted(journal, flat, {}, r.orders, positions)
      ensures !AgreesWithVenue(positions, flat)
    {
      ColdStartAgreesIff(journal, flat, {}, r.orders, positions);
      hide ColdStarted, AgreesWithVenue;
      assert "BTC" in r.positions;
    }
  }

  lemma ForeignReplay() returns (r: Recovered)
    ensures r == Replay(ForeignJournal()) && r.positions == map["BTC" := 1.0]
    ensures r.orders.Keys == {"zt-1"} && r.orders["zt-1"].symbol == "ETH"
  {
    var e1, e2 := Opened(1, "zt-1", "BTC", Buy, 1.0), Recorded(2, "zt-1", Submit);
    var e3, e4 := Recorded(3, "zt-1", Fill(1.0, 100.0, 0.0, false)), Opened(4, "zt-1", "ETH", Buy, 1.0);
    assert [e1, e2, e3, e4][..3] == [e1, e2, e3] && [e1, e2, e3][..2] == [e1, e2] && [e1, e2][..1] == [e1];
    assert [e1][..0] == [];
    var r1 := ReplayOne(NOTHING, e1);
    var r2 := ReplayOne(r1, e2);
    var r3 := ReplayOne(r2, e3);
    r := ReplayOne(r3, e4);
    assert r3.positions == map["BTC" := 1.0];
    hide ReplayOne;
    assert Replay([e1]) == r1;
    assert Replay([e1, e2]) == r2;
    assert Replay([e1, e2, e3]) == r3;
  }
}
