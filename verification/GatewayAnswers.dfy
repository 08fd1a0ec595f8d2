/** How the gateway answers each call, told from the calls so far. */
module GatewayAnswers {
  import opened Orders
  import opened FillAccounts
  import opened EngineModel
  import opened EngineInvariants
  import opened EngineSteps
  import opened EngineBooks
  import opened GatewayModel
  import opened GatewayRuns
  import opened GatewayPromises
  import opened GatewayTerms

  // --- The book behind the gateway -------------------------------------------------------------

  /** The last snapshot of an instrument among these calls. */
  function LastShown(calls: seq<Call>, key: string): Option<Book> {
    if calls == [] then None
    else
      var last := calls[|calls| - 1];
      if last.SnapshotCall? && Key(last.book.exchange, last.book.symbol) == key then Some(last.book)
      else LastShown(calls[..|calls| - 1], key)
  }

  ghost predicate Knows(books: map<string, Book>, calls: seq<Call>) {
    forall key: string :: KnowsAt(books, calls, key)
  }

  predicate KnowsAt(books: map<string, Book>, calls: seq<Call>, key: string) {
    var last := LastShown(calls, key);
    (key in books <==> last.Some?) && (key in books ==> books[key] == last.value)
  }

  lemma {:induction false} PlaceBooks(g: Gate, o: Order)
    ensures Place(g, o).engine.books == g.engine.books && Place(g, o).rejected == g.rejected
  {
    hide Submit, NewlyDelivered, PublishAll;
    var s := Submit(g.engine, o, NO_LATENCY);
    StepBooks(g.engine, SubmitIn(o), NO_LATENCY);
    PublishAllEngine(g.(engine := s), NewlyDelivered(g.engine, s));
  }

  lemma {:induction false} CancelEachBooks(g: Gate, ids: seq<nat>, venue: Venue, instrument: nat)
    ensures CancelEach(g, ids, venue, instrument).engine.books == g.engine.books
    decreases |ids|
  {
    hide Cancel;
    if ids != [] {
      if ids[0] in g.live {
        CancelBooks(g.engine, VenueName(g.live[ids[0]].venue), g.live[ids[0]].symbol, ids[0]);
      }
      CancelEachBooks(SendCancel(g, ids[0], venue, instrument), ids[1..], venue, instrument);
    }
  }

  lemma {:induction false} CallBooks(g: Gate, call: Call)
    ensures GateStep(g, call).engine.books
         == if call.SnapshotCall? then g.engine.books[Key(call.book.exchange, call.book.symbol) := call.book]
            else g.engine.books
  {
    hide Place, Refused, Cancel, PublishAll, OnSnapshot, OnTrade, NewlyDelivered, EngineOrder, CancelEach;
    match call
    case NewCall(o) =>
      if WellFormed(o) {
        var order := EngineOrder(o.id, NewLive(o), KindOf(o.wire, o.postOnly));
        PlaceBooks(g.(live := if o.id in g.live then g.live else g.live[o.id := NewLive(o)]), order);
      }
    case CancelCall(id, venue, instrument) =>
      if id in g.live { CancelBooks(g.engine, VenueName(g.live[id].venue), g.live[id].symbol, id); }
    case CancelAllCall(venue, instrument, listing) => CancelEachBooks(g, listing, venue, instrument);
    case ModifyCall(id, price, quantity) =>
      if id in g.live {
        var lo := g.live[id].(price := price, quantity := quantity);
        CancelBooks(g.engine, VenueName(lo.venue), lo.symbol, id);
        var s := Cancel(g.engine, VenueName(lo.venue), lo.symbol, id).0;
        PlaceBooks(g.(engine := s, live := g.live[id := lo]),
                   EngineOrder(id, lo, if lo.postOnly then PostOnly else Limit));
      }
    case SnapshotCall(book) =>
      var s := OnSnapshot(g.engine, book, NO_LATENCY);
      StepBooks(g.engine, SnapshotIn(book), NO_LATENCY);
      PublishAllEngine(g.(engine := s), NewlyDelivered(g.engine, s));
    case TradeCall(t) =>
      var s := OnTrade(g.engine, t, NO_LATENCY);
      StepBooks(g.engine, TradeIn(t), NO_LATENCY);
      PublishAllEngine(g.(engine := s), NewlyDelivered(g.engine, s));
  }

  lemma {:induction false} KnowsSnoc(books: map<string, Book>, calls: seq<Call>, call: Call)
    requires Knows(books, calls)
    ensures Knows(if call.SnapshotCall? then books[Key(call.book.exchange, call.book.symbol) := call.book] else books,
                  calls + [call])
  {
    var after := if call.SnapshotCall? then books[Key(call.book.exchange, call.book.symbol) := call.book] else books;
    assert (calls + [call])[..|calls|] == calls;
    forall key: string ensures KnowsAt(after, calls + [call], key) {
      assert KnowsAt(books, calls, key);
    }
  }

  lemma {:induction false} BooksAfter(past: seq<Call>, g: Gate, calls: seq<Call>)
    requires Knows(g.engine.books, past)
    ensures Knows(GateRun(g, calls).engine.books, past + calls)
    decreases |calls|
  {
    hide Knows, GateStep;
    if calls == [] {
      assert past + calls == past;
    } else {
      CallBooks(g, calls[0]);
      KnowsSnoc(g.engine.books, past, calls[0]);
      BooksAfter(past + [calls[0]], GateStep(g, calls[0]), calls[1..]);
      assert past + calls == past + [calls[0]] + calls[1..];
    }
  }

  /** Over every run the engine behind the gateway knows of each instrument exactly
      the last snapshot. */
  lemma {:induction false} BooksOfCalls(calls: seq<Call>)
    ensures Knows(GateRun(GATE_INITIAL, calls).engine.books, calls)
  {
    hide GateRun;
    assert forall key: string :: KnowsAt(map[], [], key);
    BooksAfter([], GATE_INITIAL, calls);
    assert [] + calls == calls;
  }

  // --- New orders -------------------------------------------------------------------------------

  /** The order would trade at once with the last snapshot of its instrument. */
  predicate MeetsLast(calls: seq<Call>, o: NewOrder) {
    match LastShown(calls, Key(ExchangeOf(o.venue), o.symbol))
    case None => false
    case Some(book) =>
      match o.side
      case Buy => 0 < book.asks[0].px <= o.price
      case Sell => 0 < book.bids[0].px && o.price <= book.bids[0].px
  }

  /** A new order is taken if and only if it has a quantity and a symbol, a price if
      it is a limit order, and is not a post-only order that would trade at once
      with the last snapshot of its instrument. If not, nothing is reported. */
  lemma {:induction false} TakenIff(calls: seq<Call>, o: NewOrder)
    requires GateValidRun(GATE_INITIAL, calls) && GateValid(GateRun(GATE_INITIAL, calls), NewCall(o))
    ensures var g := GateRun(GATE_INITIAL, calls);
            var (g', taken) := SendNew(g, o);
            && (taken <==> o.quantity > 0 && o.symbol != "" && (o.wire == LimitWire ==> o.price > 0)
                           && !(o.postOnly && MeetsLast(calls, o)))
            && (!taken ==> g'.sent == g.sent && g'.live == g.live && g'.booked == g.booked)
            && g'.rejected == g.rejected + (if !taken && WellFormed(o) then 1 else 0)
  {
    hide GateOk, GateRun, GateValidRun, Place, Refused, Knows, LastShown, Of;
    var g := GateRun(GATE_INITIAL, calls);
    GateInitialOk();
    GateRunKeeps(GATE_INITIAL, calls);
    NewKeeps(g, o);
    BooksOfCalls(calls);
    PlaceBooks(g.(live := g.live[o.id := NewLive(o)]), EngineOrder(o.id, NewLive(o), KindOf(o.wire, o.postOnly)));
    RefusedIff(g.engine, EngineOrder(o.id, NewLive(o), KindOf(o.wire, o.postOnly)));
    assert KnowsAt(g.engine.books, calls, Key(ExchangeOf(o.venue), o.symbol)) by {
      KnowsHere(g.engine.books, calls, Key(ExchangeOf(o.venue), o.symbol));
    }
  }

  lemma {:induction false} KnowsHere(books: map<string, Book>, calls: seq<Call>, key: string)
    requires Knows(books, calls)
    ensures KnowsAt(books, calls, key)
  {
  }

  /** What a new order that is taken is told: its fills, and then, if it is still
      live and not all reported as filled, an acknowledgement that repeats it and
      says what remains. */
  lemma {:induction false} NewAnswered(calls: seq<Call>, o: NewOrder)
    requires GateValidRun(GATE_INITIAL, calls) && GateValid(GateRun(GATE_INITIAL, calls), NewCall(o))
    requires SendNew(GateRun(GATE_INITIAL, calls), o).1
    ensures var g := GateRun(GATE_INITIAL, calls);
            var g' := SendNew(g, o).0;
            exists told ::
              && MoreFills(g.sent, told)
              && var filled := FilledSum(Of(told, o.id));
                 g'.sent == told + if o.id in g'.live && filled < o.quantity
                                   then [Exec(o.id, o.venue, o.instrument, Acked, o.side, o.wire, o.price, 0,
                                              o.quantity - filled)]
                                   else []
  {
    hide GateOk, GateRun, GateValidRun, Place, Refused, Of, MoreFills, EngineOrder, FilledSum;
    var g := GateRun(GATE_INITIAL, calls);
    GateInitialOk();
    GateRunKeeps(GATE_INITIAL, calls);
    NewPlaced(g, o);
    var order := EngineOrder(o.id, NewLive(o), KindOf(o.wire, o.postOnly));
    var g1 := Place(g.(live := g.live[o.id := NewLive(o)]), order);
    assert g1.sent + [] == g1.sent;
  }

  lemma {:induction false} NewPlaced(g: Gate, o: NewOrder)
    requires GateOk(g) && o.id !in g.live && Of(g.sent, o.id) == [] && SendNew(g, o).1
    ensures var g1 := Place(g.(live := g.live[o.id := NewLive(o)]),
                            EngineOrder(o.id, NewLive(o), KindOf(o.wire, o.postOnly)));
            && MoreFills(g.sent, g1.sent)
            && (o.id in g1.live ==> g1.live[o.id].cum == FilledSum(Of(g1.sent, o.id)))
  {
    hide Inv, Refused, Mirrors, MirrorsBut, Lives, Place, Unfinished, Open, Submitted, EngineOrder, Of, MoreFills;
    hide Settled, FilledSum;
    var lo := NewLive(o);
    var order := EngineOrder(o.id, lo, KindOf(o.wire, o.postOnly));
    var g0 := g.(live := g.live[o.id := lo]);
    NewMirrors(g, o, lo);
    NewSubmitted(o);
    SubmittedBlank(o.id, lo, KindOf(o.wire, o.postOnly));
    OpenIsUnfinished(g.engine.log, o.id);
    PlaceKeeps(g0, order, o.id, lo);
    LivesAt(Place(g0, order).sent, Place(g0, order).live, o.id);
  }

  lemma {:induction false} LivesAt(sent: seq<Exec>, live: map<nat, Live>, id: nat)
    requires Lives(sent, live)
    ensures id in live ==> live[id].cum == FilledSum(Of(sent, id))
  {
    assert Life(Of(sent, id), live, id);
  }

  // --- Cancels ------------------------------------------------------------------------------------

  /** A cancel of a live order, unless it is what is left of a market order, is
      answered with one report: the order's side and kind, the price last asked
      for, and the quantity last asked for less what has been reported as filled. */
  lemma {:induction false} CancelAnswered(calls: seq<Call>, id: nat, venue: Venue, instrument: nat)
    requires GateValidRun(GATE_INITIAL, calls)
    ensures var g := GateRun(GATE_INITIAL, calls);
            var g' := SendCancel(g, id, venue, instrument);
            if id in g.live && !MarketRest(g, id) then
              && SentOrder(calls, id).Some? && LastAsked(calls, id).Some?
              && var (o, asked, filled) :=
                   (SentOrder(calls, id).value, LastAsked(calls, id).value, FilledSum(Of(g.sent, id)));
                 && g'.sent == g.sent + [Exec(id, venue, instrument, Cancelled, o.side, o.wire, asked.price, 0,
                                              if asked.quantity > filled then asked.quantity - filled else 0)]
                 && g'.live == g.live - {id}
            else g'.sent == g.sent && g'.live == g.live
  {
    hide GateRun, GateValidRun, Cancel, MarketRest, Of, FilledSum, SentOrder, LastAsked, Inv, Mirrors, Lives, Settled,
         AllKnown;
    var g := GateRun(GATE_INITIAL, calls);
    GateInitialOk();
    GateRunKeeps(GATE_INITIAL, calls);
    TermsOfRun(calls);
    CancelEnds(g, id, venue, instrument);
    LivesAt(g.sent, g.live, id);
    assert Remembered(calls, g.engine.log, g.live, id);
    if id in g.live {
      var lo := g.live[id];
      var c := Cancel(g.engine, VenueName(lo.venue), lo.symbol, id);
      if !MarketRest(g, id) {
        assert id !in SendCancel(g, id, venue, instrument).live;
        assert c.1;
      } else {
        assert id in SendCancel(g, id, venue, instrument).live;
        assert !c.1;
      }
    }
  }

  // --- Modifies -----------------------------------------------------------------------------------

  /** A modify of a live order to more than is filled is answered by its fills
      alone, but if the order is post-only and would trade at once at its new
      price: then by one report that ends it. */
  lemma {:induction false} ModifyAnswered(calls: seq<Call>, id: nat, price: int, quantity: nat)
    requires GateValidRun(GATE_INITIAL, calls) && id in GateRun(GATE_INITIAL, calls).live
    requires quantity > GateRun(GATE_INITIAL, calls).live[id].cum
    ensures SentOrder(calls, id).Some?
    ensures var g, o := GateRun(GATE_INITIAL, calls), SentOrder(calls, id).value;
            var g', filled := SendModify(g, id, price, quantity), FilledSum(Of(g.sent, id));
            if o.postOnly && MeetsLast(calls, o.(price := price)) then
              && g'.sent == g.sent + [Exec(id, o.venue, o.instrument, Cancelled, o.side, o.wire, price, 0,
                                           if quantity > filled then quantity - filled else 0)]
              && g'.live == g.live - {id}
            else MoreFills(g.sent, g'.sent)
  {
    hide GateRun, GateValidRun, Cancel, Of, FilledSum, SentOrder, LastAsked, Sound, Coupled, AllKnown, Knows, LastShown,
         Refused, MoreFills, Place, EngineOrder;
    var g := GateRun(GATE_INITIAL, calls);
    GateInitialOk();
    GateRunKeeps(GATE_INITIAL, calls);
    TermsOfRun(calls);
    assert Remembered(calls, g.engine.log, g.live, id);
    CoupledLives(g, id);
    var o := SentOrder(calls, id).value;
    var lo := g.live[id].(price := price, quantity := quantity);
    var order := EngineOrder(id, lo, if lo.postOnly then PostOnly else Limit);
    var s := Cancel(g.engine, VenueName(lo.venue), lo.symbol, id).0;
    CancelBooks(g.engine, VenueName(lo.venue), lo.symbol, id);
    BooksOfCalls(calls);
    KnowsHere(s.books, calls, Key(ExchangeOf(o.venue), o.symbol));
    RefusedIff(s, order);
    OrderTerms(id, lo, if lo.postOnly then PostOnly else Limit);
    ModifyPlaced(g, id, price, quantity);
  }

  lemma {:induction false} CoupledLives(g: Gate, id: nat)
    requires Coupled(g.engine.log, g)
    ensures id in g.live ==> g.live[id].cum == FilledSum(Of(g.sent, id))
  {
    LivesAt(g.sent, g.live, id);
  }

  lemma {:induction false} OrderTerms(id: nat, lo: Live, kind: Kind)
    ensures var o := EngineOrder(id, lo, kind);
            o.kind == kind && o.side == lo.side && o.price == lo.price && o.symbol == lo.symbol
            && o.exchange == ExchangeOf(lo.venue)
  {
  }

  lemma {:induction false} ModifyPlaced(g: Gate, id: nat, price: int, quantity: nat)
    requires GateOk(g) && id in g.live && quantity > g.live[id].cum
    ensures var lo := g.live[id].(price := price, quantity := quantity);
            var order := EngineOrder(id, lo, if lo.postOnly then PostOnly else Limit);
            var s := Cancel(g.engine, VenueName(lo.venue), lo.symbol, id).0;
            var g0 := g.(engine := s, live := g.live[id := lo]);
            if Refused(s, order) then Place(g0, order) == g0 else MoreFills(g.sent, Place(g0, order).sent)
  {
    hide Inv, Cancel, Refused, Mirrors, MirrorsBut, Lives, Place, Open, Submitted, EngineOrder, Of, MoreFills, Settled;
    var lo := g.live[id].(price := price, quantity := quantity);
    var kind := if lo.postOnly then PostOnly else Limit;
    var order := EngineOrder(id, lo, kind);
    var s := Cancel(g.engine, VenueName(lo.venue), lo.symbol, id).0;
    CancelledMirrors(g, id, lo);
    CancelledNotOpen(g, id);
    SameLives(g.sent, g.live, id, lo);
    ModifySubmitted(id, lo);
    SubmittedBlank(id, lo, kind);
    PlaceKeeps(g.(engine := s, live := g.live[id := lo]), order, id, lo);
  }
}
