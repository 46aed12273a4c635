/** What the journal the live pipeline actually writes replays to: it lacks the local submission. */
module WrittenJournals {
  import opened Results
  import opened OrderStates
  import opened Engines
  import opened Journals
  import opened LiveReplay
  import opened Prefixes

  predicate HoldsNoSubmit(entries: seq<JournalEntry>) {
    forall i :: 0 <= i < |entries| && entries[i].Recorded? ==> !entries[i].event.Submit?
  }

  /** Without the submission an order replays as created, or as rejected if a reject arrived. */
  ghost predicate ReplaysUnsubmitted(r: Recovered) {
    && r.positions == map[]
    && (forall id :: id in r.orders ==>
          || (r.orders[id].state == NEW && r.orders[id].revision == 0)
          || (r.orders[id].state == REJECTED && r.orders[id].revision == 1))
  }

  lemma {:induction false} AsWrittenReplay(entries: seq<JournalEntry>)
    requires HoldsNoSubmit(entries)
    ensures ReplaysUnsubmitted(Replay(entries))
  {
    if entries != [] {
      AsWrittenReplay(entries[..|entries| - 1]);
    }
  }

  lemma {:induction false} PipelineWritesNoSubmit(steps: seq<LiveStep>)
    requires Orderly([], steps)
    ensures HoldsNoSubmit(RunLive([], steps).journal)
  {
    if steps != [] {
      OrderlyUpTo([], steps, |steps| - 1);
      PipelineWritesNoSubmit(steps[..|steps| - 1]);
      var last := steps[|steps| - 1];
      assert last.AccountStep? ==> !last.event.Submit?;
      hide Orderly;
      StepWritesNoSubmit(RunLive([], steps[..|steps| - 1]), last);
    }
  }

  lemma StepWritesNoSubmit(s: LiveState, step: LiveStep)
    requires HoldsNoSubmit(s.journal) && (step.AccountStep? ==> !step.event.Submit?)
    ensures HoldsNoSubmit(StepLive(s, step).journal)
  {
    hide Placed, Drain;
  }

  /** A record the engine holds has left NEW, and only a just-submitted one has revision 1. */
  predicate LeftNew(o: OrderRecord) {
    o.revision >= 1 && o.state != NEW && (o.revision == 1 ==> o.state == SUBMITTED)
  }

  ghost predicate AllLeftNew(orders: map<string, OrderRecord>) {
    forall id :: id in orders ==> LeftNew(orders[id])
  }

  lemma {:induction false} DrainLeavesNew(es: EngineState, batch: seq<BrokerEvent>)
    requires AllLeftNew(es.orders)
    ensures AllLeftNew(Drain(es, batch).orders)
  {
    if batch != [] { DrainLeavesNew(es, batch[..|batch| - 1]); }
  }

  lemma {:induction false} EngineRecordsLeftNew(steps: seq<LiveStep>)
    ensures AllLeftNew(RunLive([], steps).es.orders)
  {
    if steps != [] {
      var front := steps[..|steps| - 1];
      EngineRecordsLeftNew(front);
      var s := RunLive([], front);
      match steps[|steps| - 1]
      case DrainStep(ts) => DrainLeavesNew(AdvanceTo(s.es, ts), s.outbox);
      case _ =>
    }
  }

  // ------------------------------------------------ which runs it recovers

  /** An account event the engine will book as a fill. */
  predicate FillsTheEngine(front: seq<LiveStep>, step: LiveStep) {
    var p := Settled(RunLive([], front));
    && step.AccountStep? && step.event.Fill? && step.id in p.orders
        && ApplyOrderEvent(p.orders[step.id], step.event).Ok?
  }

  lemma StepFillsIff(front: seq<LiveStep>, step: LiveStep)
    requires Orderly([], front + [step])
    ensures Settled(StepLive(RunLive([], front), step)).positions == map[]
            <==> Settled(RunLive([], front)).positions == map[] && !FillsTheEngine(front, step)
  {
    var s := RunLive([], front);
    assert (front + [step])[|front|] == step && (front + [step])[..|front|] == front;
    OrderlyUpTo([], front + [step], |front|);
    RunsTrack([], front);
    hide Tracks, RunLive, Drain, ProcessOrder, ProcessCancel, AccountEvent, ApplyOrderEvent;
    match step
    case PlaceStep(intent, veto, ack) => PlaceTracks([], s, front, intent, veto, ack);
    case AccountStep(id, event, at) => SettledOfAccount(s, id, event, at);
    case _ => QuietTracks([], s, front, step);
  }

  predicate NeverFilled(steps: seq<LiveStep>) {
    forall i :: 0 <= i < |steps| ==> !FillsTheEngine(steps[..i], steps[i])
  }

  /** The engine holds no position exactly when no account event ever filled an order of it. */
  lemma NoPositionIffNeverFilled(steps: seq<LiveStep>)
    requires Orderly([], steps)
    ensures Settled(RunLive([], steps)).positions == map[] <==> NeverFilled(steps)
  {
    StartsEmpty();
    hide FillsTheEngine, StepLive, Orderly, Settled;
    forall i | 0 <= i < |steps|
      ensures Settled(RunLive([], steps[..i + 1])).positions == map[]
              <==> Settled(RunLive([], steps[..i])).positions == map[] && !FillsTheEngine(steps[..i], steps[i])
    {
      OrderlyUpTo([], steps, i + 1);
      assert steps[..i + 1] == steps[..i] + [steps[i]] && steps[..i + 1][..i] == steps[..i];
      StepFillsIff(steps[..i], steps[i]);
    }
    HoldsAtTheEndIff(steps, run => Settled(RunLive([], run)).positions == map[],
                     (run, step) => !FillsTheEngine(run, step));
  }

  predicate NoAccountEvents(steps: seq<LiveStep>) {
    forall i :: 0 <= i < |steps| ==> !steps[i].AccountStep?
  }

  /** The journal holds an order exactly for every id with an opening, and one as soon as any event
      has come in. */
  lemma {:induction false} JournaledOrders(steps: seq<LiveStep>)
    requires Orderly([], steps)
    ensures Replay(RunLive([], steps).journal).orders.Keys == RunLive([], steps).opens
    ensures RunLive([], steps).opens == {} <==> NoAccountEvents(steps)
  {
    hide Replay, Drain, ProcessOrder, ProcessCancel, Orderly;
    if steps == [] {
      StartsEmpty();
    } else {
      var front, last := steps[..|steps| - 1], steps[|steps| - 1];
      OrderlyUpTo([], steps, |steps| - 1);
      JournaledOrders(front);
      assert Known(steps, last) by { OrderlyKnows(steps); }
      assert forall i :: 0 <= i < |front| ==> front[i] == steps[i];
      if last.AccountStep? { JournaledStep(RunLive([], front), last.id, last.event, last.at); }
    }
  }

  predicate Known(steps: seq<LiveStep>, last: LiveStep)
    requires steps != []
  {
    last.AccountStep? ==> last.id in RunLive([], steps[..|steps| - 1]).es.orders
  }

  lemma OrderlyKnows(steps: seq<LiveStep>)
    requires Orderly([], steps) && steps != []
    ensures Known(steps, steps[|steps| - 1])
  {}

  lemma JournaledStep(s: LiveState, id: string, event: OrderEvent, at: int)
    requires Replay(s.journal).orders.Keys == s.opens && id in s.es.orders
    ensures Replay(AccountEvent(s, id, event, at).journal).orders.Keys == s.opens + {id}
  {
    hide ApplyOrderEvent;
    var record := Recorded(at, id, event);
    if id in s.opens {
      assert s.journal + [] + [record] == s.journal + [record];
      ReplayAppend(s.journal, record);
    } else {
      var opening := OpeningFor(s.es.orders[id], id, at)[0];
      assert s.journal + [opening] + [record] == (s.journal + [opening]) + [record];
      ReplayAppend(s.journal, opening);
      ReplayAppend(s.journal + [opening], record);
    }
  }

  /** The journal the pipeline writes recovers no position at all and no order as the engine holds it.
      So its positions are the engine's exactly when no account event ever filled an order, and its
      orders are the engine's exactly when no account event came in at all. */
  lemma AsWrittenAgreesIff(steps: seq<LiveStep>)
    requires Orderly([], steps)
    ensures var s := RunLive([], steps);
            var p, r := Settled(s), Replay(s.journal);
            && r.positions == map[]
            && (forall id :: id in r.orders && id in p.orders ==> r.orders[id] != p.orders[id])
            && (r.positions == p.positions <==> NeverFilled(steps))
            && ((forall id :: id in r.orders ==> id in p.orders && r.orders[id] == p.orders[id])
                <==> NoAccountEvents(steps))
  {
    var s := RunLive([], steps);
    PipelineWritesNoSubmit(steps);
    AsWrittenReplay(s.journal);
    EngineRecordsLeftNew(steps);
    DrainLeavesNew(s.es, s.outbox);
    NoPositionIffNeverFilled(steps);
    JournaledOrders(steps);
    hide Replay, Drain, RunLive, NeverFilled, NoAccountEvents;
    assert s.opens != {} ==> exists id :: id in Replay(s.journal).orders;
  }

  /** Concretely: one buy of 1 accepted, then filled; the engine holds 1, the journal recovers none. */
  lemma AsWrittenCounterexample()
    ensures var intent := OrderIntent("zt-1", "BTC", Buy, 1.0, Market, false, None, "");
            var steps := [PlaceStep(intent, None, SubmitAck(true, None, None, false)),
                          AccountStep("zt-1", Fill(1.0, 100.0, 0.0, false), 5)];
            && Orderly([], steps)
            && Settled(RunLive([], steps)).PositionOf("BTC") == 1.0
            && Replay(RunLive([], steps).journal).positions == map[]
  {
    var intent := OrderIntent("zt-1", "BTC", Buy, 1.0, Market, false, None, "");
    var fill := Fill(1.0, 100.0, 0.0, false);
    var s1, s2 := PlaceStep(intent, None, SubmitAck(true, None, None, false)), AccountStep("zt-1", fill, 5);
    RunOfTwo([], s1, s2);
    var a := StepLive(Restarted([]), s1);
    assert a.es.orders["zt-1"] == SubmittedRecord(intent) && a.outbox == [] && a.es.positions == map[];
    assert Drain(a.es, []) == a.es;
    assert DrainOne(a.es, BrokerEvent("zt-1", fill, 5)).PositionOf("BTC") == 1.0;
    hide RunLive, StepLive, AccountEvent, Drain, DrainOne, Replay, ApplyOrderEvent;
    SettledOfAccount(a, "zt-1", fill, 5);
    assert [s1, s2][..1] == [s1] && [s1, s2][..0] == [];
    assert Orderly([], [s1, s2]) by { StartsEmpty(); }
    AsWrittenAgreesIff([s1, s2]);
  }

  lemma StartsEmpty()
    ensures RunLive([], []) == LiveState(FRESH, [], [], {}) && Settled(RunLive([], [])).positions == map[]
    ensures Replay([]) == NOTHING
  {
    FirstStart();
    hide Restarted;
  }
}
