/** The public-stream ingestion: frames in, numbered market events and subscriptions out. */
module Ingestion {
  import opened Results
  import opened Events
  import opened OrderBooks
  import opened BookReplicas

  datatype Prices = Prices(last: real, mark: real, index: real)

  datatype TradePrint = TradePrint(symbol: string, price: real, size: real, takerBuys: bool, at: int)

  datatype Kline = Kline(interval: string, open: real, high: real, low: real, close: real, volume: real, closed: bool)

  /** A frame after transport, JSON and schema handling. */
  datatype Frame =
    | Malformed
    | ControlFrame
    | BookFrame(symbol: string, update: BookUpdate)
    | TradesFrame(trades: seq<TradePrint>)
    | TickerFrame(symbol: string, last: Option<real>, mark: Option<real>, index: Option<real>, funding: Option<real>)
    | KlinesFrame(symbol: string, klines: seq<Kline>)

  datatype MarketEvent =
    | BookEvent(symbol: string, view: OrderBookSnapshot, seqNo: nat)
    | TradeEvent(trade: TradePrint, seqNo: nat)
    | TickerEvent(symbol: string, prices: Prices, seqNo: nat)
    | FundingEvent(symbol: string, rate: real, seqNo: nat)
    | KlineEvent(symbol: string, kline: Kline, seqNo: nat)

  datatype Command = SubscribeAll | UnsubscribeBook(symbol: string) | SubscribeBook(symbol: string)

  datatype State = State(books: map<string, BookState>, tickers: map<string, Prices>, seqNo: nat, connected: bool,
                         emitted: seq<MarketEvent>, sent: seq<Command>)

  datatype Input = SocketOpened | SocketClosed | Arrived(frame: Frame)

  const DEPTH: nat := 50

  // ------------------------------------------------------------ normalising

  /** Unchanged fields are omitted by the venue and taken from the last known prices. */
  function MergeTicker(frame: Frame, previous: Option<Prices>): Option<Prices>
    requires frame.TickerFrame?
  {
    var last := if frame.last.Some? then frame.last else if previous.Some? then Some(previous.value.last) else None;
    var mark := if frame.mark.Some? then frame.mark else if previous.Some? then Some(previous.value.mark) else last;
    var index := if frame.index.Some? then frame.index else if previous.Some? then Some(previous.value.index) else last;
    if last.None? || mark.None? || index.None? then None else Some(Prices(last.value, mark.value, index.value))
  }

  function TradeEvents(trades: seq<TradePrint>, from: nat): seq<MarketEvent> {
    seq(|trades|, i requires 0 <= i < |trades| => TradeEvent(trades[i], from + i))
  }

  function KlineEvents(symbol: string, klines: seq<Kline>, from: nat): seq<MarketEvent> {
    seq(|klines|, i requires 0 <= i < |klines| => KlineEvent(symbol, klines[i], from + i))
  }

  // -------------------------------------------------------------- one input

  function Sent(s: State, commands: seq<Command>): State {
    if s.connected then s.(sent := s.sent + commands) else s
  }

  function AllInvalidated(books: map<string, BookState>): map<string, BookState> {
    map symbol | symbol in books :: Invalidated(books[symbol])
  }

  /** A gap re-requests the book; a refusal emits nothing; an applied update of a book left
      healthy emits its best levels. */
  ghost predicate NextBook(s: State, symbol: string, m: BookUpdate, s': State) {
    if symbol !in s.books then s' == s
    else
      var (book, r) := Applied(s.books[symbol], m);
      var s1 := s.(books := s.books[symbol := book]);
      if r.gap.Some? then s' == Sent(s1, [UnsubscribeBook(symbol), SubscribeBook(symbol)])
      else if !r.applied || book.health != HEALTHY then s' == s1
      else exists view :: ShowsBook(book, DEPTH, view)
                          && s' == s1.(emitted := s.emitted + [BookEvent(symbol, view, s.seqNo)], seqNo := s.seqNo + 1)
  }

  /** Both event slots of a ticker frame use up a number, whether or not they emit. */
  function TickerHandled(s: State, frame: Frame): State
    requires frame.TickerFrame?
  {
    var previous := if frame.symbol in s.tickers then Some(s.tickers[frame.symbol]) else None;
    var merged := MergeTicker(frame, previous);
    var s1 := if merged.None? then s
              else s.(tickers := s.tickers[frame.symbol := merged.value],
                      emitted := s.emitted + [TickerEvent(frame.symbol, merged.value, s.seqNo)]);
    var s2 := if frame.funding.None? then s1
              else s1.(emitted := s1.emitted + [FundingEvent(frame.symbol, frame.funding.value, s.seqNo + 1)]);
    s2.(seqNo := s.seqNo + 2)
  }

  ghost predicate Next(s: State, input: Input, s': State) {
    match input
    case SocketOpened => s' == Sent(s.(connected := true), [SubscribeAll])
    case SocketClosed => s' == s.(connected := false, books := AllInvalidated(s.books))
    case Arrived(frame) =>
      match frame
      case Malformed | ControlFrame => s' == s
      case BookFrame(symbol, m) => NextBook(s, symbol, m, s')
      case TradesFrame(trades) =>
        s' == s.(emitted := s.emitted + TradeEvents(trades, s.seqNo), seqNo := s.seqNo + |trades|)
      case TickerFrame(_, _, _, _, _) => s' == TickerHandled(s, frame)
      case KlinesFrame(symbol, klines) =>
        s' == s.(emitted := s.emitted + KlineEvents(symbol, klines, s.seqNo), seqNo := s.seqNo + |klines|)
  }

  // -------------------------------------------------------------- the class

  class BybitIngestion {
    const books: map<string, OrderBook>
    var tickerState: map<string, Prices>
    var seqNo: nat
    var connected: bool
    var emitted: seq<MarketEvent>
    var sent: seq<Command>

    ghost predicate Valid()
      reads this, books.Values
    {
      && (forall a, b :: a in books && b in books && a != b ==> books[a] != books[b])
      && (forall a :: a in books ==> books[a].depth == DEPTH)
    }

    ghost function BookStates(): map<string, BookState>
      reads books.Values
    {
      map symbol | symbol in books :: books[symbol].State()
    }

    ghost function Abstract(): State
      reads this, books.Values
    {
      State(BookStates(), tickerState, seqNo, connected, emitted, sent)
    }

    constructor (books: map<string, OrderBook>)
      requires forall a, b :: a in books && b in books && a != b ==> books[a] != books[b]
      requires forall a :: a in books ==> books[a].depth == DEPTH && books[a].State() == NO_BOOK
      ensures Valid() && this.books == books
      ensures tickerState == map[] && seqNo == 0 && !connected && emitted == [] && sent == []
    {
      this.books := books;
      tickerState, seqNo, connected, emitted, sent := map[], 0, false, [], [];
    }

    method OnOpen()
      requires Valid()
      modifies this`connected, this`sent
      ensures Valid() && Next(old(Abstract()), SocketOpened, Abstract())
      ensures connected && sent == old(sent) + [SubscribeAll]
    {
      connected := true;
      sent := sent + [SubscribeAll];
    }

    method OnClose()
      requires Valid()
      modifies this`connected, books.Values
      ensures Valid() && Next(old(Abstract()), SocketClosed, Abstract()) && !connected
    {
      hide Invalidated, NextBook, TickerHandled, TradeEvents, KlineEvents;
      connected := false;
      var symbols := books.Keys;
      while symbols != {}
        invariant symbols <= books.Keys && Valid() && !connected
        invariant forall a :: a in books ==>
          books[a].State() == if a in symbols then old(books[a].State()) else Invalidated(old(books[a].State()))
        modifies books.Values
        decreases |symbols|
      {
        var symbol :| symbol in symbols;
        books[symbol].Invalidate();
        symbols := symbols - {symbol};
      }
      assert BookStates() == AllInvalidated(old(BookStates()));
    }

    /** Applies an update to one book; nothing else changes. */
    method ApplyTo(symbol: string, m: BookUpdate) returns (r: ApplyResult)
      requires Valid() && symbol in books
      modifies books[symbol]
      ensures Valid()
      ensures Abstract()
              == old(Abstract()).(books := old(Abstract()).books[symbol := Applied(old(Abstract()).books[symbol], m).0])
      ensures r == Applied(old(Abstract()).books[symbol], m).1
    {
      hide Applied;
      r := books[symbol].Apply(m);
      assert BookStates() == old(BookStates())[symbol := books[symbol].State()];
    }

    method HandleBook(symbol: string, m: BookUpdate)
      requires Valid()
      modifies this`seqNo, this`emitted, this`sent, books.Values
      ensures Valid() && NextBook(old(Abstract()), symbol, m, Abstract())
    {
      hide Applied, ShowsBook, Invalidated;
      if symbol !in books { return; }
      ghost var s := Abstract();
      var r := ApplyTo(symbol, m);
      ghost var s1 := Abstract();
      if r.gap.Some? {
        if connected { sent := sent + [UnsubscribeBook(symbol), SubscribeBook(symbol)]; }
        assert Abstract() == Sent(s1, [UnsubscribeBook(symbol), SubscribeBook(symbol)]);
      } else if r.applied {
        var view := books[symbol].Snapshot();
        if view.Some? {
          emitted := emitted + [BookEvent(symbol, view.value, seqNo)];
          seqNo := seqNo + 1;
          EmitsView(s, symbol, m, s1, view.value, Abstract());
        }
      }
    }

    lemma EmitsView(s: State, symbol: string, m: BookUpdate, s1: State, view: OrderBookSnapshot, s': State)
      requires symbol in s.books
      requires var (book, r) := Applied(s.books[symbol], m);
               && s1 == s.(books := s.books[symbol := book]) && r.gap.None? && r.applied && book.health == HEALTHY
               && ShowsBook(book, DEPTH, view)
      requires s' == s1.(emitted := s.emitted + [BookEvent(symbol, view, s.seqNo)], seqNo := s.seqNo + 1)
      ensures NextBook(s, symbol, m, s')
    {
      hide Applied, ShowsBook;
    }

    method HandleTrades(trades: seq<TradePrint>)
      requires Valid()
      modifies this`seqNo, this`emitted
      ensures Valid() && Next(old(Abstract()), Arrived(TradesFrame(trades)), Abstract())
      ensures seqNo == old(seqNo) + |trades| && |emitted| == |old(emitted)| + |trades|
      ensures old(emitted) <= emitted
      ensures forall i :: 0 <= i < |trades| ==> emitted[|old(emitted)| + i] == TradeEvent(trades[i], old(seqNo) + i)
    {
      emitted := emitted + TradeEvents(trades, seqNo);
      seqNo := seqNo + |trades|;
    }

    method HandleTicker(frame: Frame)
      requires Valid() && frame.TickerFrame?
      modifies this`seqNo, this`emitted, this`tickerState
      ensures Valid() && Next(old(Abstract()), Arrived(frame), Abstract()) && seqNo == old(seqNo) + 2
    {
      hide MergeTicker, NextBook, AllInvalidated, TradeEvents, KlineEvents;
      var merged := MergeTicker(frame, if frame.symbol in tickerState then Some(tickerState[frame.symbol]) else None);
      if merged.Some? {
        tickerState := tickerState[frame.symbol := merged.value];
        emitted := emitted + [TickerEvent(frame.symbol, merged.value, seqNo)];
      }
      seqNo := seqNo + 1;
      if frame.funding.Some? { emitted := emitted + [FundingEvent(frame.symbol, frame.funding.value, seqNo)]; }
      seqNo := seqNo + 1;
      assert Abstract() == TickerHandled(old(Abstract()), frame);
    }

    method HandleKlines(symbol: string, klines: seq<Kline>)
      requires Valid()
      modifies this`seqNo, this`emitted
      ensures Valid() && Next(old(Abstract()), Arrived(KlinesFrame(symbol, klines)), Abstract())
      ensures seqNo == old(seqNo) + |klines| && |emitted| == |old(emitted)| + |klines|
      ensures old(emitted) <= emitted
      ensures forall i :: 0 <= i < |klines| ==>
                emitted[|old(emitted)| + i] == KlineEvent(symbol, klines[i], old(seqNo) + i)
    {
      emitted := emitted + KlineEvents(symbol, klines, seqNo);
      seqNo := seqNo + |klines|;
    }
  }

  // ------------------------------------------------------------- whole runs

  ghost predicate Starts(s: State) {
    s.emitted == [] && s.seqNo == 0 && s.tickers == map[] && !s.connected && s.sent == []
    && forall symbol :: symbol in s.books ==> s.books[symbol] == NO_BOOK
  }

  ghost predicate IsRun(trace: seq<State>, inputs: seq<Input>) {
    && |trace| == |inputs| + 1 && Starts(trace[0])
    && forall i :: 0 <= i < |inputs| ==> Next(trace[i], inputs[i], trace[i + 1])
  }

  lemma RunPrefix(trace: seq<State>, inputs: seq<Input>)
    requires IsRun(trace, inputs) && inputs != []
    ensures IsRun(trace[..|inputs|], inputs[..|inputs| - 1])
  {}

  /** Numbers of emitted events strictly increase and stay below the next number. */
  ghost predicate Numbered(s: State) {
    && (forall i, j :: 0 <= i < j < |s.emitted| ==> s.emitted[i].seqNo < s.emitted[j].seqNo)
    && (forall i :: 0 <= i < |s.emitted| ==> s.emitted[i].seqNo < s.seqNo)
  }

  /** Across all streams and symbols, every emitted event has a number larger than all before. */
  lemma {:induction false} EventsAreNumbered(trace: seq<State>, inputs: seq<Input>)
    requires IsRun(trace, inputs)
    ensures Numbered(trace[|inputs|])
  {
    if inputs != [] {
      var n := |inputs| - 1;
      RunPrefix(trace, inputs);
      EventsAreNumbered(trace[..|inputs|], inputs[..n]);
      assert Next(trace[n], inputs[n], trace[n + 1]);
      NumberedStep(trace[n], inputs[n], trace[n + 1]);
    }
  }

  /** The events one input emits: numbered from the next free number, below the new one. */
  ghost predicate Appends(s: State, block: seq<MarketEvent>, s': State) {
    && s'.emitted == s.emitted + block && s.seqNo <= s'.seqNo
    && (forall i, j :: 0 <= i < j < |block| ==> block[i].seqNo < block[j].seqNo)
    && (forall i :: 0 <= i < |block| ==> s.seqNo <= block[i].seqNo < s'.seqNo)
  }

  lemma AppendKeepsNumbers(s: State, block: seq<MarketEvent>, s': State)
    requires Numbered(s) && Appends(s, block, s')
    ensures Numbered(s')
  {}

  lemma BlockOf(s: State, input: Input, s': State) returns (block: seq<MarketEvent>)
    requires Next(s, input, s')
    ensures Appends(s, block, s')
  {
    hide Applied, ShowsBook;
    match input
    case Arrived(TradesFrame(trades)) => block := TradeEvents(trades, s.seqNo);
    case Arrived(KlinesFrame(symbol, klines)) => block := KlineEvents(symbol, klines, s.seqNo);
    case Arrived(TickerFrame(_, _, _, _, _)) => block := TickerBlock(s, input.frame);
    case Arrived(BookFrame(symbol, m)) =>
      if s'.emitted == s.emitted {
        block := [];
        assert s.emitted + [] == s.emitted;
      } else {
        block := [s'.emitted[|s.emitted|]];
      }
    case _ =>
      block := [];
      assert s.emitted + [] == s.emitted;
  }

  lemma TickerBlock(s: State, frame: Frame) returns (block: seq<MarketEvent>)
    requires frame.TickerFrame?
    ensures Appends(s, block, TickerHandled(s, frame))
  {
    hide MergeTicker;
    var previous := if frame.symbol in s.tickers then Some(s.tickers[frame.symbol]) else None;
    var merged := MergeTicker(frame, previous);
    var ticker := if merged.None? then [] else [TickerEvent(frame.symbol, merged.value, s.seqNo)];
    var funding := if frame.funding.None? then [] else [FundingEvent(frame.symbol, frame.funding.value, s.seqNo + 1)];
    block := ticker + funding;
    assert s.emitted + block == s.emitted + ticker + funding;
    assert s.emitted + [] == s.emitted;
  }

  lemma NumberedStep(s: State, input: Input, s': State)
    requires Numbered(s) && Next(s, input, s')
    ensures Numbered(s')
  {
    hide *;
    var block := BlockOf(s, input, s');
    AppendKeepsNumbers(s, block, s');
  }

  // ------------------------------------------------------- the latest prices

  /** The ticker frames of one symbol, in order of arrival. */
  function TickersOf(inputs: seq<Input>, symbol: string): (frames: seq<Frame>)
    ensures forall i :: 0 <= i < |frames| ==> frames[i].TickerFrame?
  {
    if inputs == [] then []
    else
      var last := inputs[|inputs| - 1];
      TickersOf(inputs[..|inputs| - 1], symbol)
      + if last.Arrived? && last.frame.TickerFrame? && last.frame.symbol == symbol then [last.frame] else []
  }

  /** The last price stated last; a default where none is stated. */
  function LatestLast(frames: seq<Frame>, default: real): real
    requires forall i :: 0 <= i < |frames| ==> frames[i].TickerFrame?
  {
    if frames == [] then default
    else if frames[|frames| - 1].last.Some? then frames[|frames| - 1].last.value
    else LatestLast(frames[..|frames| - 1], default)
  }

  function LatestMark(frames: seq<Frame>, default: real): real
    requires forall i :: 0 <= i < |frames| ==> frames[i].TickerFrame?
  {
    if frames == [] then default
    else if frames[|frames| - 1].mark.Some? then frames[|frames| - 1].mark.value
    else LatestMark(frames[..|frames| - 1], default)
  }

  function LatestIndex(frames: seq<Frame>, default: real): real
    requires forall i :: 0 <= i < |frames| ==> frames[i].TickerFrame?
  {
    if frames == [] then default
    else if frames[|frames| - 1].index.Some? then frames[|frames| - 1].index.value
    else LatestIndex(frames[..|frames| - 1], default)
  }

  /** The position of the first frame that states a last price, or the number of frames. */
  function FirstPriced(frames: seq<Frame>): (k: nat)
    requires forall i :: 0 <= i < |frames| ==> frames[i].TickerFrame?
    ensures k <= |frames| && (k < |frames| ==> frames[k].last.Some?)
    ensures forall i :: 0 <= i < k ==> frames[i].last.None?
  {
    if frames == [] then 0
    else
      var k := FirstPriced(frames[..|frames| - 1]);
      if k < |frames| - 1 || frames[|frames| - 1].last.Some? then k else |frames|
  }

  /** What the frames of a symbol have told: nothing before the first last price; since then each price as it
      was stated last, the mark and the index being that first last price until they are stated. */
  function KnownPrices(frames: seq<Frame>): Option<Prices>
    requires forall i :: 0 <= i < |frames| ==> frames[i].TickerFrame?
  {
    var k := FirstPriced(frames);
    if k == |frames| then None
    else
      var since, first := frames[k..], frames[k].last.value;
      Some(Prices(LatestLast(since, first), LatestMark(since, first), LatestIndex(since, first)))
  }

  lemma OneMoreFrame(frames: seq<Frame>, frame: Frame)
    requires frame.TickerFrame? && forall i :: 0 <= i < |frames| ==> frames[i].TickerFrame?
    ensures KnownPrices(frames + [frame]) == MergeTicker(frame, KnownPrices(frames))
  {
    var all := frames + [frame];
    assert all[..|frames|] == frames;
    var k := FirstPriced(frames);
    if k < |frames| {
      assert FirstPriced(all) == k && all[k] == frames[k] && all[k..] == frames[k..] + [frame];
      OneMoreStated(frames[k..], frame, frames[k].last.value);
    } else if frame.last.Some? {
      assert FirstPriced(all) == k && all[k] == frame && all[k..] == [] + [frame];
      OneMoreStated([], frame, frame.last.value);
    }
    hide LatestLast, LatestMark, LatestIndex, FirstPriced;
  }

  lemma OneMoreStated(frames: seq<Frame>, frame: Frame, default: real)
    requires frame.TickerFrame? && forall i :: 0 <= i < |frames| ==> frames[i].TickerFrame?
    ensures var all := frames + [frame];
            && LatestLast(all, default) == frame.last.GetOr(LatestLast(frames, default))
            && LatestMark(all, default) == frame.mark.GetOr(LatestMark(frames, default))
            && LatestIndex(all, default) == frame.index.GetOr(LatestIndex(frames, default))
  {
    assert (frames + [frame])[..|frames|] == frames;
  }

  /** In every run the prices kept for a symbol are what its frames have told. */
  lemma {:induction false} TickersAreTheLatest(trace: seq<State>, inputs: seq<Input>, symbol: string)
    requires IsRun(trace, inputs)
    ensures var known := KnownPrices(TickersOf(inputs, symbol));
            && (symbol in trace[|inputs|].tickers <==> known.Some?)
            && (known.Some? ==> trace[|inputs|].tickers[symbol] == known.value)
  {
    hide KnownPrices, MergeTicker, NextBook, TradeEvents, KlineEvents, AllInvalidated;
    if inputs == [] {
      OnlyWhatWasTold([]);
    } else {
      var n := |inputs| - 1;
      RunPrefix(trace, inputs);
      TickersAreTheLatest(trace[..|inputs|], inputs[..n], symbol);
      assert Next(trace[n], inputs[n], trace[n + 1]);
      TickersStep(trace[n], inputs[n], trace[n + 1]);
      hide Next;
      var frames := TickersOf(inputs[..n], symbol);
      if inputs[n].Arrived? && inputs[n].frame.TickerFrame? && inputs[n].frame.symbol == symbol {
        OneMoreFrame(frames, inputs[n].frame);
        if KnownPrices(frames).Some? { StaysKnown(inputs[n].frame, KnownPrices(frames)); }
      } else {
        assert TickersOf(inputs, symbol) == frames;
      }
    }
  }

  lemma OnlyWhatWasTold(frames: seq<Frame>)
    requires forall i :: 0 <= i < |frames| ==> frames[i].TickerFrame?
    ensures KnownPrices(frames).Some? <==> exists i :: 0 <= i < |frames| && frames[i].last.Some?
  {}

  lemma StaysKnown(frame: Frame, previous: Option<Prices>)
    requires frame.TickerFrame? && previous.Some?
    ensures MergeTicker(frame, previous).Some?
  {}

  lemma TickersStep(s: State, input: Input, s': State)
    requires Next(s, input, s')
    ensures s'.tickers == match input
                          case Arrived(TickerFrame(_, _, _, _, _)) => TickerHandled(s, input.frame).tickers
                          case _ => s.tickers
  {
    hide Applied, ShowsBook, MergeTicker;
  }

  /** And a ticker frame emits them, if there are any yet, and then the funding rate if it brings one. */
  lemma EmittedTickersAreTheLatest(trace: seq<State>, inputs: seq<Input>, n: nat)
    requires IsRun(trace, inputs) && n < |inputs| && inputs[n].Arrived? && inputs[n].frame.TickerFrame?
    ensures var symbol, funding := inputs[n].frame.symbol, inputs[n].frame.funding;
            var known, seqNo := KnownPrices(TickersOf(inputs[..n + 1], symbol)), trace[n].seqNo;
            trace[n + 1].emitted
            == trace[n].emitted
               + (if known.Some? then [TickerEvent(symbol, known.value, seqNo)] else [])
               + (if funding.Some? then [FundingEvent(symbol, funding.value, seqNo + 1)] else [])
  {
    var frame := inputs[n].frame;
    TickersBefore(trace, inputs, n, frame.symbol);
    assert Next(trace[n], inputs[n], trace[n + 1]);
    assert inputs[..n + 1][..n] == inputs[..n];
    OneMoreFrame(TickersOf(inputs[..n], frame.symbol), frame);
    TickerEmits(trace[n], frame);
    hide KnownPrices, MergeTicker, TickerHandled, NextBook, TradeEvents, KlineEvents, AllInvalidated;
  }

  lemma TickersBefore(trace: seq<State>, inputs: seq<Input>, n: nat, symbol: string)
    requires IsRun(trace, inputs) && n < |inputs|
    ensures KnownPrices(TickersOf(inputs[..n], symbol))
            == if symbol in trace[n].tickers then Some(trace[n].tickers[symbol]) else None
  {
    assert IsRun(trace[..n + 1], inputs[..n]);
    hide IsRun, KnownPrices;
    TickersAreTheLatest(trace[..n + 1], inputs[..n], symbol);
  }

  lemma TickerEmits(s: State, frame: Frame)
    requires frame.TickerFrame?
    ensures var merged := MergeTicker(frame, if frame.symbol in s.tickers then Some(s.tickers[frame.symbol]) else None);
            TickerHandled(s, frame).emitted
            == s.emitted
               + (if merged.Some? then [TickerEvent(frame.symbol, merged.value, s.seqNo)] else [])
               + (if frame.funding.Some? then [FundingEvent(frame.symbol, frame.funding.value, s.seqNo + 1)] else [])
  {
    hide MergeTicker;
    assert s.emitted + [] == s.emitted;
  }

  /** Every book update received for a symbol is one its venue published. */
  ghost predicate GenuineInputs(venues: map<string, Venue>, inputs: seq<Input>) {
    forall i :: 0 <= i < |inputs| && inputs[i].Arrived? && inputs[i].frame.BookFrame? ==>
      inputs[i].frame.symbol in venues && Genuine(venues[inputs[i].frame.symbol], inputs[i].frame.update)
  }

  ghost predicate AllFaithful(venues: map<string, Venue>, s: State) {
    forall symbol :: symbol in s.books && symbol in venues ==> Faithful(venues[symbol], s.books[symbol])
  }

  lemma BooksStep(s: State, input: Input, s': State)
    requires Next(s, input, s')
    ensures s'.books == (match input
                         case SocketClosed => AllInvalidated(s.books)
                         case Arrived(BookFrame(symbol, m)) =>
                           if symbol in s.books then s.books[symbol := Applied(s.books[symbol], m).0] else s.books
                         case _ => s.books)
  {}

  lemma {:induction false} BooksStayFaithful(venues: map<string, Venue>, trace: seq<State>, inputs: seq<Input>)
    requires IsRun(trace, inputs) && GenuineInputs(venues, inputs)
    ensures AllFaithful(venues, trace[|inputs|])
  {
    if inputs != [] {
      var n := |inputs| - 1;
      RunPrefix(trace, inputs);
      BooksStayFaithful(venues, trace[..|inputs|], inputs[..n]);
      var s, s' := trace[n], trace[n + 1];
      assert Next(s, inputs[n], s');
      BooksStep(s, inputs[n], s');
      hide Faithful, Applied, Next;
      forall symbol | symbol in s'.books && symbol in venues
        ensures Faithful(venues[symbol], s'.books[symbol])
      {
        var step := match inputs[n]
                    case SocketClosed => Disconnect
                    case Arrived(BookFrame(other, m)) => if other == symbol then Receive(m) else Disconnect
                    case _ => Disconnect;
        StepKeepsFaith(venues[symbol], s.books[symbol], step);
      }
    }
  }

  /** A book event is emitted only by a book frame of its symbol, and shows the venue's own book at
      that frame's update id, sorted and cut to the best 50 levels a side. */
  lemma EmittedBooksAreTheVenues(venues: map<string, Venue>, trace: seq<State>, inputs: seq<Input>, n: nat,
                                 e: MarketEvent)
    requires IsRun(trace, inputs) && GenuineInputs(venues, inputs) && n < |inputs|
    requires e.BookEvent? && e !in trace[n].emitted && e in trace[n + 1].emitted
    ensures inputs[n].Arrived? && inputs[n].frame.BookFrame? && inputs[n].frame.symbol == e.symbol && e.symbol in venues
    ensures var v, u := venues[e.symbol], inputs[n].frame.update.u;
            && v.Knows(u)
            && BestLevels(v.At(u).bids, true, DEPTH, e.view.bids)
            && BestLevels(v.At(u).asks, false, DEPTH, e.view.asks)
            && !Crossed(v.At(u).bids, v.At(u).asks)
  {
    var s, s' := trace[n], trace[n + 1];
    assert Next(s, inputs[n], s');
    assert inputs[n].Arrived? && inputs[n].frame.BookFrame? && inputs[n].frame.symbol == e.symbol by {
      OnlyBookFramesEmitBooks(s, inputs[n], s', e);
    }
    assert IsRun(trace[..n + 2], inputs[..n + 1]);
    BooksStayFaithful(venues, trace[..n + 2], inputs[..n + 1]);
    AppliedAtItsId(s.books[e.symbol], inputs[n].frame.update);
  }

  lemma OnlyBookFramesEmitBooks(s: State, input: Input, s': State, e: MarketEvent)
    requires Next(s, input, s') && e.BookEvent? && e !in s.emitted && e in s'.emitted
    ensures input.Arrived? && input.frame.BookFrame? && input.frame.symbol == e.symbol && e.symbol in s.books
    ensures var (book, r) := Applied(s.books[e.symbol], input.frame.update);
            r.applied && book.health == HEALTHY && s'.books[e.symbol] == book && ShowsBook(book, DEPTH, e.view)
  {}

  lemma AppliedAtItsId(st: BookState, m: BookUpdate)
    ensures Applied(st, m).1.applied ==> Applied(st, m).0.lastU == m.u
  {}

  /** After a disconnect no book event of a symbol is emitted until a snapshot of that symbol has
      arrived: no price from before the break survives it. */
  lemma {:induction false} NoStalePricesAfterDisconnect(trace: seq<State>, inputs: seq<Input>, closed: nat,
                                                        symbol: string)
    requires IsRun(trace, inputs) && closed < |inputs| && inputs[closed] == SocketClosed
    requires forall i ::
               (closed < i < |inputs| && inputs[i].Arrived? && inputs[i].frame.BookFrame?
                && inputs[i].frame.symbol == symbol)
               ==> !inputs[i].frame.update.isSnapshot
    ensures symbol in trace[|inputs|].books ==> trace[|inputs|].books[symbol].health != HEALTHY
    ensures forall e :: e in trace[|inputs|].emitted && e.BookEvent? && e.symbol == symbol ==>
              e in trace[closed].emitted
    decreases |inputs|
  {
    var n := |inputs| - 1;
    var s, s' := trace[n], trace[n + 1];
    assert Next(s, inputs[n], s');
    BooksStep(s, inputs[n], s');
    if n > closed {
      RunPrefix(trace, inputs);
      NoStalePricesAfterDisconnect(trace[..|inputs|], inputs[..n], closed, symbol);
    }
    forall e | e in s'.emitted && e.BookEvent? && e.symbol == symbol
      ensures e in trace[closed].emitted
    {
      if e !in s.emitted { OnlyBookFramesEmitBooks(s, inputs[n], s', e); }
    }
  }

  /** While connected, a book is re-requested exactly when a gap is found in it. */
  lemma GapReRequestsTheBook(s: State, symbol: string, m: BookUpdate, s': State)
    requires NextBook(s, symbol, m, s') && symbol in s.books && s.connected
    ensures var book := s.books[symbol];
            (s'.sent == s.sent + [UnsubscribeBook(symbol), SubscribeBook(symbol)] && s'.books[symbol].health == STALE
             && s'.emitted == s.emitted)
            <==> !m.isSnapshot && book.health == HEALTHY && m.u > book.lastU + 1
    ensures s'.sent == s.sent || s'.sent == s.sent + [UnsubscribeBook(symbol), SubscribeBook(symbol)]
  {}
}
