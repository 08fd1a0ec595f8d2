/** A snapshot as one step of the engine: how every queue stands to what the book
    displays, and which orders it picks up. */
module EngineSnapshots {
  import opened Orders
  import opened SlotQueues
  import opened CancelSpread
  import opened CancelForms
  import opened BookWalk
  import opened LatencyLegs
  import opened EngineModel
  import opened EngineInvariants
  import opened EngineSteps
  import opened EngineSchedule
  import opened EngineSeeding

  // --- Reconciling ----------------------------------------------------------------------------

  /** The sizes that a side displays at a price. */
  function Displayed(levels: seq<Quote>, price: int): seq<real> {
    if levels == [] then []
    else
      (if 0 < price == levels[0].px && levels[0].sz > 0.0 then [levels[0].sz] else []) + Displayed(levels[1..], price)
  }

  /** `after` is `before` brought in line with a displayed size. Growth of the
      venue volume joins at the back; shrinkage is attributed to the venue slots as
      cancels and may leave, of what was to be cancelled, dust or half, and may
      lose a tolerance per slot; own slots stay as they are. */
  ghost predicate Stands(before: seq<Slot>, after: seq<Slot>, size: real) {
    var delta := size - VenueTotal(before);
    && Own(after) == Own(before)
    && (delta > EPS ==> after == before + [Slot(delta, None)])
    && (-EPS <= delta <= EPS ==> after == before)
    && (delta < -EPS ==>
          && Total(before) > 0.0 && Attributed(before, after, -delta)
          && size - |before| as real * EPS <= VenueTotal(after)
          && (VenueTotal(after) <= size + EPS || VenueTotal(after) <= size - delta / 2.0))
  }

  /** Brought in line with one displayed size after the other. */
  ghost predicate StandsAll(before: seq<Slot>, after: seq<Slot>, sizes: seq<real>)
    decreases |sizes|
  {
    if sizes == [] then after == before
    else exists mid :: Stands(before, mid, sizes[0]) && Positive(mid) && StandsAll(mid, after, sizes[1..])
  }

  lemma {:induction false} ReconciledStands(q: seq<Slot>, size: real)
    requires Positive(q) && size > 0.0
    ensures Stands(q, Reconciled(q, size), size) && Positive(Reconciled(q, size))
  {
    hide Own, Distribute, Attributed;
    ReconciledKeeps(q, size);
    ReconciledVenue(q, size);
    if size - VenueTotal(q) < -EPS { DistributeForm(q, VenueTotal(q) - size); }
  }

  lemma {:induction false} StandsOne(before: seq<Slot>, after: seq<Slot>, size: real, sizes: seq<real>)
    requires Stands(before, after, size) && Positive(after) && sizes == [size]
    ensures StandsAll(before, after, sizes)
  {
    hide Stands;
    assert StandsAll(after, after, sizes[1..]);
  }

  lemma {:induction false} StandsCons(a: seq<Slot>, b: seq<Slot>, c: seq<Slot>, first: seq<real>, rest: seq<real>)
    requires |first| <= 1 && StandsAll(a, b, first) && StandsAll(b, c, rest)
    ensures StandsAll(a, c, first + rest)
  {
    hide Stands, Positive;
    if first == [] {
      assert first + rest == rest;
    } else {
      var mid :| Stands(a, mid, first[0]) && Positive(mid) && StandsAll(mid, b, first[1..]);
      assert mid == b;
      assert (first + rest)[1..] == rest;
    }
  }

  /** One displayed level changes only its own queue. */
  lemma {:induction false} QuoteStands(s: State, key: string, side: Side, quote: Quote, level: Level)
    requires Positive(QueueAt(s, level))
    ensures var s' := ReconcileQuote(s, key, side, quote);
            StandsAll(QueueAt(s, level), QueueAt(s', level),
                      if level.key == key && level.side == side then Displayed([quote], level.price) else [])
            && Positive(QueueAt(s', level))
  {
    hide Stands, Positive, Reconciled;
    var s' := ReconcileQuote(s, key, side, quote);
    OneDisplayed(quote, level.price);
    if level == Level(key, side, quote.px) && quote.px > 0 && quote.sz > 0.0 {
      ReconciledStands(QueueAt(s, level), quote.sz);
      StandsOne(QueueAt(s, level), QueueAt(s', level), quote.sz, [quote.sz]);
    } else {
      assert QueueAt(s', level) == QueueAt(s, level);
    }
  }

  lemma {:induction false} OneDisplayed(quote: Quote, price: int)
    ensures Displayed([quote], price) == if 0 < price == quote.px && quote.sz > 0.0 then [quote.sz] else []
  {
    assert [quote][1..] == [] && Displayed([], price) == [];
  }

  lemma {:induction false} DisplayedFrom(levels: seq<Quote>, i: nat, price: int)
    requires i < |levels|
    ensures Displayed(levels[i..], price) == Displayed([levels[i]], price) + Displayed(levels[i + 1..], price)
  {
    OneDisplayed(levels[i], price);
    assert levels[i..][1..] == levels[i + 1..];
  }

  /** The side of a book. */
  function SideOf(book: Book, side: Side): Ladder {
    match side
    case Buy => book.bids
    case Sell => book.asks
  }

  lemma {:induction false} ReconcileStands(s: State, key: string, book: Book, lvl: nat, level: Level)
    requires lvl <= BOOK_DEPTH && Positive(QueueAt(s, level))
    ensures var after := QueueAt(ReconcileFrom(s, key, book, lvl), level);
            StandsAll(QueueAt(s, level), after,
                      if level.key == key then Displayed(SideOf(book, level.side)[lvl..], level.price) else [])
    decreases BOOK_DEPTH - lvl
  {
    hide Stands, Positive, ReconcileQuote, StandsAll;
    var q := QueueAt(s, level);
    if lvl == BOOK_DEPTH {
      NoneDisplayed(q, level.price);
      assert SideOf(book, level.side)[lvl..] == [];
    } else {
      var s1 := ReconcileQuote(s, key, Buy, book.bids[lvl]);
      var s2 := ReconcileQuote(s1, key, Sell, book.asks[lvl]);
      QuoteStands(s, key, Buy, book.bids[lvl], level);
      QuoteStands(s1, key, Sell, book.asks[lvl], level);
      ReconcileStands(s2, key, book, lvl + 1, level);
      OneDisplayed(book.bids[lvl], level.price);
      OneDisplayed(book.asks[lvl], level.price);
      DisplayedFrom(SideOf(book, level.side), lvl, level.price);
      var after := QueueAt(ReconcileFrom(s2, key, book, lvl + 1), level);
      var rest := if level.key == key then Displayed(SideOf(book, level.side)[lvl + 1..], level.price) else [];
      var first := if level.key == key && level.side == Buy then Displayed([book.bids[lvl]], level.price) else [];
      var second := if level.key == key && level.side == Sell then Displayed([book.asks[lvl]], level.price) else [];
      StandsCons(QueueAt(s1, level), QueueAt(s2, level), after, second, rest);
      StandsCons(q, QueueAt(s1, level), after, first, second + rest);
      assert [] + ([] + rest) == rest && first + ([] + rest) == first + rest && [] + (second + rest) == second + rest;
    }
  }

  lemma {:induction false} NoneDisplayed(q: seq<Slot>, price: int)
    ensures StandsAll(q, q, []) && Displayed([], price) == []
  {
  }

  // --- The step -----------------------------------------------------------------------------------

  /** A snapshot, in any reachable state: what is due is matched first; then every
      level that the book displays stands to its displayed size, on its own side,
      and every other queue, of this or any other book, is as it was. */
  lemma {:induction false} SnapshotStands(s: State, book: Book, latency: Latency, level: Level)
    requires Sound(s)
    ensures var before := QueueAt(DrainSubmits(s, book.ts, latency), level);
            var after := QueueAt(Step(s, SnapshotIn(book), latency), level);
            StandsAll(before, after,
                      if level.key == Key(book.exchange, book.symbol)
                      then Displayed(if level.side == Buy then book.bids else book.asks, level.price) else [])
  {
    hide Inv, StandsAll, DrainSubmits, ReconcileFrom, Schedule, Serve, FillCrossing, Displayed;
    var s0, key := DrainSubmits(s, book.ts, latency), Key(book.exchange, book.symbol);
    DrainSubmitsKeeps(s, book.ts, latency);
    SoundQueue(s0, level);
    var s1 := ReconcileFrom(s0.(now := book.ts), key, book, 0);
    ReconcileStands(s0.(now := book.ts), key, book, 0, level);
    assert SideOf(book, level.side)[0..] == if level.side == Buy then book.bids else book.asks;
    var (s2, reports) := TakeSnapshot(s0, book);
    CrossingQueues(s1.(books := s1.books[key := book]), book);
    ScheduleOnlyFills(s2, reports, latency);
  }

  lemma {:induction false} SoundQueue(s: State, level: Level)
    requires Sound(s)
    ensures Positive(QueueAt(s, level))
  {
    assert LevelOk(s, level);
  }

  lemma {:induction false} CrossingQueues(s: State, book: Book)
    ensures FillCrossing(s, book).0.queues == s.queues
  {
  }

  /** A level that is displayed once stands to the size displayed there. */
  lemma {:induction false} SnapshotStandsOnce(s: State, book: Book, latency: Latency, level: Level, i: nat)
    requires Sound(s) && level.key == Key(book.exchange, book.symbol) && i < BOOK_DEPTH
    requires var levels := if level.side == Buy then book.bids else book.asks;
             && levels[i].px == level.price > 0 && levels[i].sz > 0.0
             && forall j :: 0 <= j < BOOK_DEPTH && j != i ==> levels[j].px != level.price
    ensures var levels := if level.side == Buy then book.bids else book.asks;
            Stands(QueueAt(DrainSubmits(s, book.ts, latency), level),
                   QueueAt(Step(s, SnapshotIn(book), latency), level), levels[i].sz)
  {
    hide Inv, Stands, DrainSubmits, Step, Displayed;
    var levels: seq<Quote> := if level.side == Buy then book.bids else book.asks;
    SnapshotStands(s, book, latency, level);
    DisplayedOnce(levels, level.price, i);
    StandsOneMeans(QueueAt(DrainSubmits(s, book.ts, latency), level),
                   QueueAt(Step(s, SnapshotIn(book), latency), level), levels[i].sz);
  }

  lemma {:induction false} StandsOneMeans(before: seq<Slot>, after: seq<Slot>, size: real)
    requires StandsAll(before, after, [size])
    ensures Stands(before, after, size)
  {
    hide Stands;
    var mid :| Stands(before, mid, size) && Positive(mid) && StandsAll(mid, after, [size][1..]);
    assert [size][1..] == [] && mid == after;
  }

  lemma {:induction false} DisplayedNowhere(levels: seq<Quote>, price: int)
    requires forall j :: 0 <= j < |levels| ==> levels[j].px != price
    ensures Displayed(levels, price) == []
  {
    if levels != [] { DisplayedNowhere(levels[1..], price); }
  }

  lemma {:induction false} DisplayedOnce(levels: seq<Quote>, price: int, i: nat)
    requires i < |levels| && levels[i].px == price > 0 && levels[i].sz > 0.0
    requires forall j :: 0 <= j < |levels| && j != i ==> levels[j].px != price
    ensures Displayed(levels, price) == [levels[i].sz]
  {
    if i == 0 {
      DisplayedNowhere(levels[1..], price);
    } else {
      DisplayedOnce(levels[1..], price, i - 1);
    }
  }

  // --- Orders without a slot --------------------------------------------------------------------------

  /** The touch that fills a waiting order: of the asks for a buyer, of the bids
      for a seller. */
  function TouchFor(o: Order, book: Book): int {
    match o.side
    case Buy => book.asks[0].px
    case Sell => book.bids[0].px
  }

  /** A limit order without a slot whose limit the touch has reached. */
  predicate PickedUp(o: Order, book: Book) {
    && o.kind == Limit && !o.seeded && TouchFor(o, book) > 0
    && if o.side == Buy then TouchFor(o, book) <= o.price else o.price <= TouchFor(o, book)
  }

  /** One report for every order picked up, in the order they wait: all that it
      has left, at the touch. */
  predicate FillsPicked(orders: seq<Order>, book: Book, reports: seq<Report>) {
    if orders == [] then reports == []
    else if !PickedUp(orders[0], book) then FillsPicked(orders[1..], book, reports)
    else
      && reports != []
      && reports[0].orderId == orders[0].id && reports[0].lastQty == Remaining(orders[0])
      && reports[0].lastPrice == TouchFor(orders[0], book) && reports[0].full && reports[0].ts == book.ts
      && FillsPicked(orders[1..], book, reports[1..])
  }

  function LeftWaiting(orders: seq<Order>, book: Book): seq<Order> {
    if orders == [] then []
    else if PickedUp(orders[0], book) then LeftWaiting(orders[1..], book)
    else [orders[0]] + LeftWaiting(orders[1..], book)
  }

  lemma {:induction false} BackstopPicks(orders: seq<Order>, book: Book)
    ensures FillsPicked(orders, book, Backstop(orders, book, book.ts).1)
    ensures Backstop(orders, book, book.ts).0 == LeftWaiting(orders, book)
  {
    if orders != [] {
      BackstopPicks(orders[1..], book);
      assert BackstopFills(orders[0], book) <==> PickedUp(orders[0], book);
      var rest := Backstop(orders[1..], book, book.ts).1;
      assert ([BackstopReport(orders[0], book, book.ts)] + rest)[1..] == rest;
    }
  }

  lemma {:induction false} NonePicked(orders: seq<Order>, book: Book)
    requires book.asks[0].px <= 0 && book.bids[0].px <= 0
    ensures FillsPicked(orders, book, []) && LeftWaiting(orders, book) == orders
  {
    if orders != [] { NonePicked(orders[1..], book); }
  }

  /** A snapshot fills, of the orders that wait without a slot in its own book,
      exactly those that its touch has reached, and leaves every other order of
      every book. */
  lemma {:induction false} SnapshotPicks(s: State, book: Book, latency: Latency, key: string)
    ensures var s0, s' := DrainSubmits(s, book.ts, latency), Step(s, SnapshotIn(book), latency);
            var own := Key(book.exchange, book.symbol);
            && OrdersAt(s', key) == (if key == own then LeftWaiting(OrdersAt(s0, key), book) else OrdersAt(s0, key))
            && exists reports :: FillsPicked(OrdersAt(s0, own), book, reports)
                                 && FilledIn(s'.log) == FilledIn(s0.log) + reports
  {
    hide DrainSubmits, TakeSnapshot, Schedule, Serve, Backstop, FilledIn, AcceptedIn, FillsPicked, LeftWaiting,
         StampedAt;
    var s0, own := DrainSubmits(s, book.ts, latency), Key(book.exchange, book.symbol);
    var (s1, reports) := TakeSnapshot(s0, book);
    SnapshotOrders(s0, book, key);
    SnapshotOrders(s0, book, own);
    SnapshotReports(s0, book);
    ScheduleOnlyFills(s1, reports, latency);
    if HasTouch(book) {
      BackstopPicks(OrdersAt(s0, own), book);
    } else {
      NonePicked(OrdersAt(s0, own), book);
      NothingReported(s0, book);
    }
  }

  lemma {:induction false} NothingReported(s: State, book: Book)
    requires !HasTouch(book)
    ensures TakeSnapshot(s, book).1 == []
  {
  }
}
