/** The append-only journal, its replay, and the gate that replay opens. */
module Journals {
  import opened Results
  import opened OrderStates
  import opened Sums
  import opened Engines
  import opened Prefixes

  datatype JournalEntry =
    | Opened(at: int, orderLinkId: string, symbol: string, side: Side, qty: real)
    | Recorded(at: int, orderLinkId: string, event: OrderEvent)
    | Reconciled(at: int, detail: string)

  datatype Recovered = Recovered(orders: map<string, OrderRecord>, positions: map<string, real>,
                                 lastReconciledAt: Option<int>)

  const NOTHING: Recovered := Recovered(map[], map[], None)

  /** Replays one entry; events of unknown orders and refused events leave the state alone. */
  function ReplayOne(r: Recovered, entry: JournalEntry): Recovered {
    match entry
    case Reconciled(at, _) => r.(lastReconciledAt := Some(at))
    case Opened(_, id, symbol, side, qty) => r.(orders := r.orders[id := NewOrder(id, symbol, side, qty)])
    case Recorded(_, id, event) =>
      if id !in r.orders then r
      else
        var existing := r.orders[id];
        var result := ApplyOrderEvent(existing, event);
        if result.Err? then r
        else
          r.(orders := r.orders[id := result.order],
             positions := if event.Fill?
                          then r.positions[existing.symbol := At(r.positions, existing.symbol)
                                           + Signed(existing.side, event.qty)]
                          else r.positions)
  }

  function Replay(entries: seq<JournalEntry>): Recovered {
    if entries == [] then NOTHING else ReplayOne(Replay(entries[..|entries| - 1]), entries[|entries| - 1])
  }

  method RecoverState(entries: seq<JournalEntry>) returns (r: Recovered)
    ensures r == Replay(entries)
  {
    var orders: map<string, OrderRecord> := map[];
    var positions: map<string, real> := map[];
    var lastReconciledAt: Option<int> := None;
    for i := 0 to |entries|
      invariant Recovered(orders, positions, lastReconciledAt) == Replay(entries[..i])
    {
      assert entries[..i + 1][..i] == entries[..i];
      match entries[i] {
        case Reconciled(at, _) => lastReconciledAt := Some(at);
        case Opened(_, id, symbol, side, qty) => orders := orders[id := NewOrder(id, symbol, side, qty)];
        case Recorded(_, id, event) =>
          if id in orders {
            var existing := orders[id];
            var result := ApplyOrderEvent(existing, event);
            if result.Ok? {
              orders := orders[id := result.order];
              if event.Fill? {
                positions := positions[existing.symbol := At(positions, existing.symbol)
                                       + Signed(existing.side, event.qty)];
              }
            }
          }
      }
    }
    assert entries[..|entries|] == entries;
    r := Recovered(orders, positions, lastReconciledAt);
  }

  class MemoryJournal {
    var entries: seq<JournalEntry>

    constructor ()
      ensures entries == []
    {
      entries := [];
    }

    method Append(entry: JournalEntry)
      modifies this
      ensures entries == old(entries) + [entry]
    {
      entries := entries + [entry];
    }
  }

  /** Closed until reconciliation opens it. */
  class RecoveryGate {
    var canTrade: bool

    constructor ()
      ensures !canTrade
    {
      canTrade := false;
    }

    method MarkReconciled()
      modifies this
      ensures canTrade
    {
      canTrade := true;
    }

    method Block()
      modifies this
      ensures !canTrade
    {
      canTrade := false;
    }
  }

  // ------------------------------------------------------------ replay laws

  /** What an entry does: an opening makes a blank record, an event does to records and positions what the engine
      does on draining it, and a reconciliation is only noted. */
  lemma ReplayDrains(r: Recovered, entry: JournalEntry, now: int, log: seq<Decision>)
    ensures var r' := ReplayOne(r, entry);
            match entry
            case Opened(_, id, symbol, side, qty) =>
              r' == r.(orders := r.orders[id := OrderRecord(id, None, symbol, side, qty, 0.0, 0.0, 0.0, NEW, None, 0)])
            case Recorded(at, id, event) =>
              var es := DrainOne(EngineState(now, r.orders, r.positions, log), BrokerEvent(id, event, at));
              r' == r.(orders := es.orders, positions := es.positions)
            case Reconciled(at, _) => r' == r.(lastReconciledAt := Some(at))
  {
    hide ApplyOrderEvent;
  }

  lemma ReplayAppend(entries: seq<JournalEntry>, entry: JournalEntry)
    ensures Replay(entries + [entry]) == ReplayOne(Replay(entries), entry)
  {
    assert (entries + [entry])[..|entries|] == entries;
  }

  /** Two openings of one id name one symbol. */
  predicate OpeningsAgree(entries: seq<JournalEntry>) {
    forall i, j :: 0 <= i < |entries| && 0 <= j < |entries| && SameOpening(entries[i], entries[j]) ==>
      entries[i].symbol == entries[j].symbol
  }

  predicate SameOpening(a: JournalEntry, b: JournalEntry) {
    a.Opened? && b.Opened? && a.orderLinkId == b.orderLinkId
  }

  /** A recovered position belongs to a recovered order of its symbol. */
  ghost predicate PositionsHaveOrders(r: Recovered) {
    forall symbol :: symbol in r.positions ==> exists id :: id in r.orders && r.orders[id].symbol == symbol
  }

  /** An opening of this id under this symbol was journaled. */
  ghost predicate WasOpened(entries: seq<JournalEntry>, id: string, symbol: string) {
    exists i :: 0 <= i < |entries| && entries[i].Opened? && entries[i].orderLinkId == id && entries[i].symbol == symbol
  }

  lemma {:induction false} RecoveredPositionsHaveOrders(entries: seq<JournalEntry>)
    requires OpeningsAgree(entries)
    ensures PositionsHaveOrders(Replay(entries))
    ensures forall id :: id in Replay(entries).orders ==> WasOpened(entries, id, Replay(entries).orders[id].symbol)
  {
    if entries != [] {
      var n := |entries| - 1;
      RecoveredPositionsHaveOrders(entries[..n]);
      hide ReplayOne;
      var r := Replay(entries[..n]);
      RecordsWereOpened(entries, r);
      OneMoreHasOrders(entries, r);
    }
  }

  lemma RecordsWereOpened(entries: seq<JournalEntry>, r: Recovered)
    requires entries != []
    requires forall id :: id in r.orders ==> WasOpened(entries[..|entries| - 1], id, r.orders[id].symbol)
    ensures var r' := ReplayOne(r, entries[|entries| - 1]);
            forall id :: id in r'.orders ==> WasOpened(entries, id, r'.orders[id].symbol)
  {
    var last := entries[|entries| - 1];
    var r' := ReplayOne(r, last);
    forall id | id in r'.orders
      ensures WasOpened(entries, id, r'.orders[id].symbol)
    {
      if last.Opened? && last.orderLinkId == id {
        assert entries[|entries| - 1] == last;
      } else {
        OpenedEarlier(entries, id, r.orders[id].symbol);
      }
    }
  }

  lemma OneMoreHasOrders(entries: seq<JournalEntry>, r: Recovered)
    requires entries != [] && OpeningsAgree(entries) && PositionsHaveOrders(r)
    requires forall id :: id in r.orders ==> WasOpened(entries[..|entries| - 1], id, r.orders[id].symbol)
    ensures PositionsHaveOrders(ReplayOne(r, entries[|entries| - 1]))
  {
    var last := entries[|entries| - 1];
    var r' := ReplayOne(r, last);
    ReplayKeepsSymbols(r, last);
    hide ReplayOne;
    forall symbol | symbol in r'.positions
      ensures exists id :: id in r'.orders && r'.orders[id].symbol == symbol
    {
      if symbol in r.positions {
        var id :| id in r.orders && r.orders[id].symbol == symbol;
        OpenedEarlier(entries, id, symbol);
        var i :| 0 <= i < |entries| && entries[i].Opened? && entries[i].orderLinkId == id
            && entries[i].symbol == symbol;
        assert SameOpening(last, entries[i]) ==> last.symbol == symbol;
        assert id in r'.orders && r'.orders[id].symbol == symbol;
      } else {
        assert r'.orders[last.orderLinkId].symbol == symbol;
      }
    }
  }

  /** An entry drops no record, changes no symbol but that of a record it opens, and adds no position
      but its record's. */
  lemma ReplayKeepsSymbols(r: Recovered, e: JournalEntry)
    ensures var r' := ReplayOne(r, e);
            && (forall id :: id in r.orders ==> id in r'.orders)
            && (forall id :: id in r.orders && !(e.Opened? && e.orderLinkId == id)
                 ==> r'.orders[id].symbol == r.orders[id].symbol)
            && (e.Opened? ==> e.orderLinkId in r'.orders && r'.orders[e.orderLinkId].symbol == e.symbol)
            && (forall symbol :: symbol in r'.positions && symbol !in r.positions
                 ==> e.Recorded? && e.orderLinkId in r'.orders && r'.orders[e.orderLinkId].symbol == symbol)
  {}

  lemma OpenedEarlier(entries: seq<JournalEntry>, id: string, symbol: string)
    requires entries != [] && WasOpened(entries[..|entries| - 1], id, symbol)
    ensures WasOpened(entries, id, symbol)
  {
    var front := entries[..|entries| - 1];
    var i :| 0 <= i < |front| && front[i].Opened? && front[i].orderLinkId == id && front[i].symbol == symbol;
    assert entries[i] == front[i];
  }

  // -------------------------------------- recovered positions follow the fills

  /** An opening of an id whose replayed record already holds a fill. */
  predicate DropsAFill(r: Recovered, entry: JournalEntry) {
    entry.Opened? && !Unfilled(r.orders, entry.orderLinkId)
  }

  lemma ReplayOneFollowsFillsIff(r: Recovered, entry: JournalEntry)
    requires FillsExplain(r.orders, r.positions)
    ensures FillsExplain(ReplayOne(r, entry).orders, ReplayOne(r, entry).positions) <==> !DropsAFill(r, entry)
  {
    match entry
    case Reconciled(_, _) =>
    case Opened(_, id, symbol, side, qty) =>
      ReplacingKeepsExplainedIff(r.orders, r.positions, id, NewOrder(id, symbol, side, qty));
    case Recorded(_, id, event) =>
      hide FillsExplain, ApplyOrderEvent;
      if id in r.orders && ApplyOrderEvent(r.orders[id], event).Ok? {
        EventKeepsExplained(r.orders, r.positions, id, event);
      }
  }

  ghost predicate RecoversFills(entries: seq<JournalEntry>) {
    FillsExplain(Replay(entries).orders, Replay(entries).positions)
  }

  /** At every prefix of a journal the recovered positions are the signed sums of the recovered orders'
      fills, if and only if no opening ever meets an id whose replayed record holds a fill. */
  lemma RecoveredPositionsFollowFillsIff(entries: seq<JournalEntry>)
    ensures (forall k :: 0 <= k <= |entries| ==> RecoversFills(entries[..k]))
            <==> (forall i :: 0 <= i < |entries| ==> !DropsAFill(Replay(entries[..i]), entries[i]))
  {
    NothingToExplain();
    hide FillsExplain, DropsAFill, ReplayOne;
    forall i | 0 <= i < |entries| && RecoversFills(entries[..i])
      ensures RecoversFills(entries[..i + 1]) <==> !DropsAFill(Replay(entries[..i]), entries[i])
    {
      assert entries[..i + 1][..i] == entries[..i];
      ReplayOneFollowsFillsIff(Replay(entries[..i]), entries[i]);
    }
    HoldsAllAlongIff(entries, past => RecoversFills(past), (past, entry) => !DropsAFill(Replay(past), entry));
  }

  /** Concretely: re-opening an id, as a restarted process would, discards its replayed fill. */
  lemma ReopeningLosesFills()
    ensures var journal := [Opened(1, "zt-1", "BTC", Buy, 1.0), Recorded(2, "zt-1", Submit),
                            Recorded(3, "zt-1", Fill(1.0, 100.0, 0.0, false)), Opened(4, "zt-1", "BTC", Buy, 1.0)];
            Replay(journal).orders["zt-1"].filledQty == 0.0 && At(Replay(journal).positions, "BTC") == 1.0
  {
    var e1, e2 := Opened(1, "zt-1", "BTC", Buy, 1.0), Recorded(2, "zt-1", Submit);
    var e3, e4 := Recorded(3, "zt-1", Fill(1.0, 100.0, 0.0, false)), Opened(4, "zt-1", "BTC", Buy, 1.0);
    ReplayAppend([], e1);
    ReplayAppend([e1], e2);
    ReplayAppend([e1, e2], e3);
    ReplayAppend([e1, e2, e3], e4);
    assert [] + [e1] == [e1] && [e1] + [e2] == [e1, e2];
    assert [e1, e2] + [e3] == [e1, e2, e3] && [e1, e2, e3] + [e4] == [e1, e2, e3, e4];
  }
}
