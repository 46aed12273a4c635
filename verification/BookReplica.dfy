/** The rebuilt book against the venue's own history, over a channel that may drop, repeat and
    reorder messages and may break. */
module BookReplicas {
  import opened Results
  import opened Events
  import opened OrderBooks

  datatype VenueBook = VenueBook(bids: Levels, asks: Levels)

  /** The venue's book after each update id, starting at `base`. */
  datatype Venue = Venue(base: int, books: seq<VenueBook>) {
    predicate Knows(u: int) {
      base <= u < base + |books|
    }

    function At(u: int): VenueBook
      requires Knows(u)
    {
      books[u - base]
    }
  }

  /** A message the venue really published: a snapshot is its whole book at u, a delta turns its
      book at u - 1 into its book at u. */
  ghost predicate Genuine(v: Venue, m: BookUpdate) {
    && v.Knows(m.u) && (m.isSnapshot || v.Knows(m.u - 1))
    && var before := if m.isSnapshot then VenueBook(map[], map[]) else v.At(m.u - 1);
    Restated(before.bids, m.bids, v.At(m.u).bids) && Restated(before.asks, m.asks, v.At(m.u).asks)
  }

  lemma GenuineIsWritten(v: Venue, m: BookUpdate)
    requires Genuine(v, m)
    ensures var before := if m.isSnapshot then VenueBook(map[], map[]) else v.At(m.u - 1);
            v.At(m.u) == VenueBook(SetLevels(before.bids, m.bids), SetLevels(before.asks, m.asks))
  {
    var before := if m.isSnapshot then VenueBook(map[], map[]) else v.At(m.u - 1);
    LevelsAreRestated(before.bids, m.bids, v.At(m.u).bids);
    LevelsAreRestated(before.asks, m.asks, v.At(m.u).asks);
  }

  datatype BookStep = Receive(m: BookUpdate) | Disconnect | ResetBook

  ghost function StepBook(st: BookState, step: BookStep): BookState {
    match step
    case Receive(m) => Applied(st, m).0
    case Disconnect => Invalidated(st)
    case ResetBook => Cleared(st)
  }

  ghost function RunBook(steps: seq<BookStep>): BookState {
    if steps == [] then NO_BOOK else StepBook(RunBook(steps[..|steps| - 1]), steps[|steps| - 1])
  }

  /** A healthy replica is the venue's book at its update id, and is not crossed. */
  ghost predicate Faithful(v: Venue, st: BookState) {
    st.health == HEALTHY ==>
      v.Knows(st.lastU) && v.At(st.lastU) == VenueBook(st.bids, st.asks) && !Crossed(st.bids, st.asks)
  }

  lemma StepKeepsFaith(v: Venue, st: BookState, step: BookStep)
    requires Faithful(v, st) && (step.Receive? ==> Genuine(v, step.m))
    ensures Faithful(v, StepBook(st, step))
  {
    hide Crossed, SetLevels, Restated;
    if step.Receive? { GenuineIsWritten(v, step.m); }
  }

  /** Whatever the channel loses, repeats or reorders and whenever it breaks: a healthy book is
      the venue's book at its update id, uncrossed. */
  lemma {:induction false} HealthyBookIsTheVenues(v: Venue, steps: seq<BookStep>)
    requires forall i :: 0 <= i < |steps| && steps[i].Receive? ==> Genuine(v, steps[i].m)
    ensures Faithful(v, RunBook(steps))
  {
    if steps != [] {
      HealthyBookIsTheVenues(v, steps[..|steps| - 1]);
      StepKeepsFaith(v, RunBook(steps[..|steps| - 1]), steps[|steps| - 1]);
    }
  }

  /** So what a consumer reads is the venue's own book, sorted and cut to the best levels; from a
      book that is not healthy it reads nothing. */
  lemma ServedPricesAreTheVenues(v: Venue, steps: seq<BookStep>, depth: nat, view: OrderBookSnapshot)
    requires forall i :: 0 <= i < |steps| && steps[i].Receive? ==> Genuine(v, steps[i].m)
    requires RunBook(steps).health == HEALTHY && ShowsBook(RunBook(steps), depth, view)
    ensures var u := RunBook(steps).lastU;
            && v.Knows(u)
            && BestLevels(v.At(u).bids, true, depth, view.bids)
            && BestLevels(v.At(u).asks, false, depth, view.asks)
            && (depth > 0 && view.bids != [] && view.asks != [] ==> view.bids[0].price < view.asks[0].price)
    ensures var book := v.At(RunBook(steps).lastU);
            && (forall i, j :: 0 <= i < j < |view.bids| ==> view.bids[i].price > view.bids[j].price)
            && (forall i, j :: 0 <= i < j < |view.asks| ==> view.asks[i].price < view.asks[j].price)
            && (forall price, shown :: price in book.bids && shown in view.bids
                  ==> price <= shown.price || PriceLevel(price, book.bids[price]) in view.bids)
            && (forall price, shown :: price in book.asks && shown in view.asks
                  ==> price >= shown.price || PriceLevel(price, book.asks[price]) in view.asks)
  {
    HealthyBookIsTheVenues(v, steps);
    if view.bids != [] && view.asks != [] {
      assert view.bids[0] in view.bids && view.asks[0] in view.asks;
    }
  }

  // --------------------------------------------------- when it is served

  /** A healthy replica stays healthy on a genuine delta exactly when the delta is old, or is the
      next one and leaves the venue's book uncrossed; a gap is reported exactly when one is. */
  lemma DeltaKeepsHealthIff(v: Venue, st: BookState, m: BookUpdate)
    requires Faithful(v, st) && st.health == HEALTHY && Genuine(v, m) && !m.isSnapshot
    ensures var (st', r) := Applied(st, m);
            && (st'.health == HEALTHY
                <==> m.u <= st.lastU || (m.u == st.lastU + 1 && !Crossed(v.At(m.u).bids, v.At(m.u).asks)))
            && (r.applied <==> st'.health == HEALTHY && st'.lastU == m.u && m.u == st.lastU + 1)
            && (r.gap.Some? <==> m.u > st.lastU + 1)
            && (m.u <= st.lastU ==> st' == st)
  {
    hide Crossed, SetLevels, Restated;
    GenuineIsWritten(v, m);
  }

  /** Messages u+1, u+2, ... in order. */
  predicate Contiguous(after: int, ms: seq<BookUpdate>) {
    forall i :: 0 <= i < |ms| ==> !ms[i].isSnapshot && ms[i].u == after + 1 + i
  }

  ghost function RunFrom(st: BookState, ms: seq<BookUpdate>): BookState {
    if ms == [] then st else Applied(RunFrom(st, ms[..|ms| - 1]), ms[|ms| - 1]).0
  }

  /** Nothing is refused without need: after any past, a snapshot followed by every delta in order
      leaves the replica healthy at the last of them, as long as the venue itself was uncrossed. */
  lemma {:induction false} UnbrokenStreamIsServed(v: Venue, st: BookState, snapshot: BookUpdate,
                                                  deltas: seq<BookUpdate>)
    requires snapshot.isSnapshot && Genuine(v, snapshot) && Contiguous(snapshot.u, deltas)
    requires forall i :: 0 <= i < |deltas| ==> Genuine(v, deltas[i])
    requires forall u :: snapshot.u <= u <= snapshot.u + |deltas| && v.Knows(u) ==> !Crossed(v.At(u).bids, v.At(u).asks)
    ensures var st' := RunFrom(Applied(st, snapshot).0, deltas);
            Faithful(v, st') && st'.health == HEALTHY && st'.lastU == snapshot.u + |deltas|
  {
    hide Crossed, SetLevels, Restated;
    GenuineIsWritten(v, snapshot);
    if deltas != [] {
      var front, last := deltas[..|deltas| - 1], deltas[|deltas| - 1];
      assert forall i :: 0 <= i < |front| ==> front[i] == deltas[i];
      UnbrokenStreamIsServed(v, st, snapshot, front);
      DeltaKeepsHealthIff(v, RunFrom(Applied(st, snapshot).0, front), last);
      StepKeepsFaith(v, RunFrom(Applied(st, snapshot).0, front), Receive(last));
      assert Genuine(v, last) && v.Knows(last.u);
    }
  }

  /** A book that is not healthy serves nothing and asks for nothing until a snapshot arrives:
      deltas are refused without a gap report, so no resubscription follows from them. */
  lemma {:induction false} OnlyASnapshotRecovers(st: BookState, ms: seq<BookUpdate>, last: BookUpdate)
    requires st.health != HEALTHY && !last.isSnapshot
    requires forall i :: 0 <= i < |ms| ==> !ms[i].isSnapshot
    ensures RunFrom(st, ms).health == st.health
    ensures Applied(RunFrom(st, ms), last).1 == ApplyResult(false, None)
  {
    if ms != [] {
      var front := ms[..|ms| - 1];
      assert forall i :: 0 <= i < |front| ==> front[i] == ms[i];
      OnlyASnapshotRecovers(st, front, ms[|ms| - 1]);
    }
  }

  /** In particular a crossed book goes stale without a gap report and stays so: recovery is not
      requested for it. */
  lemma CrossedBookIsNotReRequested(st: BookState, crossing: BookUpdate, later: seq<BookUpdate>, last: BookUpdate)
    requires st.health == HEALTHY && !crossing.isSnapshot && crossing.u == st.lastU + 1
    requires Crossed(SetLevels(st.bids, crossing.bids), SetLevels(st.asks, crossing.asks))
    requires !last.isSnapshot && forall i :: 0 <= i < |later| ==> !later[i].isSnapshot
    ensures var (st', r) := Applied(st, crossing);
            && r == ApplyResult(false, None) && st'.health == STALE
            && RunFrom(st', later).health == STALE
            && Applied(RunFrom(st', later), last).1 == ApplyResult(false, None)
  {
    OnlyASnapshotRecovers(Applied(st, crossing).0, later, last);
  }

  /** Concretely: a book of bid 100 and ask 101 to which a bid of 102 is added goes stale, and the update
      after that is refused without a gap. */
  lemma CrossedBookExample()
    ensures var one := Finite(1.0);
            var bid, ask := RawLevel(Finite(100.0), one), RawLevel(Finite(101.0), one);
            var snapshot := BookUpdate(true, 7, None, [bid], [ask], 0);
            var crossing := BookUpdate(false, 8, None, [RawLevel(Finite(102.0), one)], [], 1);
            var next := BookUpdate(false, 9, None, [], [RawLevel(Finite(101.0), Finite(0.0))], 2);
            var (st, r) := Applied(Applied(NO_BOOK, snapshot).0, crossing);
            && Applied(NO_BOOK, snapshot).0.health == HEALTHY
            && st.health == STALE && r == ApplyResult(false, None) && Applied(st, next).1 == ApplyResult(false, None)
  {
    var bid, ask, higher := RawLevel(Finite(100.0), Finite(1.0)), RawLevel(Finite(101.0), Finite(1.0)),
        RawLevel(Finite(102.0), Finite(1.0));
    OneLevel(map[], bid);
    OneLevel(map[], ask);
    OneLevel(map[100.0 := 1.0], higher);
    assert !Crossed(map[100.0 := 1.0], map[101.0 := 1.0]);
    assert 102.0 in map[100.0 := 1.0, 102.0 := 1.0] && 101.0 in map[101.0 := 1.0];
    assert Crossed(map[100.0 := 1.0, 102.0 := 1.0], map[101.0 := 1.0]);
    assert SetLevels(map[101.0 := 1.0], []) == map[101.0 := 1.0];
  }

  lemma OneLevel(levels: Levels, raw: RawLevel)
    ensures SetLevels(levels, [raw]) == SetLevel(levels, raw)
  {
    assert [raw][..0] == [];
  }
}
