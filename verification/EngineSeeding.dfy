/** Which resting orders have a slot: those whose book was known when they were
    matched, and only those. An order without a slot waits, untouched, for a
    cancel or for one fill of everything it has left. */
module EngineSeeding {
  import opened Orders
  import opened SlotQueues
  import opened PrintMatching
  import opened FillAccounts
  import opened BookWalk
  import opened LatencyLegs
  import opened EngineModel
  import opened EngineInvariants
  import opened EngineSteps
  import opened EngineRuns

  // --- Joining ----------------------------------------------------------------------------

  /** `after` is `before` with newcomers at the end, seeded iff the book is known. */
  ghost predicate Adds(before: seq<Order>, after: seq<Order>, known: bool, ids: set<nat>) {
    && |before| <= |after| && after[..|before|] == before
    && forall i :: |before| <= i < |after| ==> after[i].id in ids && (after[i].seeded <==> known)
  }

  lemma {:induction false} AddsNothing(orders: seq<Order>, known: bool, ids: set<nat>)
    ensures Adds(orders, orders, known, ids)
  {
  }

  lemma {:induction false} AddsTransitive(a: seq<Order>, b: seq<Order>, c: seq<Order>, known: bool,
                                          few: set<nat>, more: set<nat>, ids: set<nat>)
    requires Adds(a, b, known, few) && Adds(b, c, known, more) && few <= ids && more <= ids
    ensures Adds(a, c, known, ids)
  {
    assert c[..|a|] == c[..|b|][..|a|];
    forall i | |a| <= i < |c| ensures c[i].id in ids && (c[i].seeded <==> known) {
      if i < |b| { assert c[i] == c[..|b|][i]; }
    }
  }

  /** An order that rests after its match is seeded iff its book was known. */
  lemma {:induction false} MatchSeedsIff(s: State, o: Order, key: string)
    requires !o.seeded
    ensures Adds(OrdersAt(s, key), OrdersAt(Match(s, o).0, key), key in s.books, {o.id})
  {
    hide Walk, Joined, SizeAt, Crosses;
    if KeyOf(o) in s.books { CrossKeeps(o, s.books[KeyOf(o)], s.now); }
  }

  /** A price that the book does not show is no reason to go without a slot. */
  lemma {:induction false} InvisiblePriceIsSeeded(s: State, o: Order)
    requires KeyOf(o) in s.books && o.kind != Market && Remaining(o) > EPS
    requires var book := s.books[KeyOf(o)];
             !Crosses(book, o.side, o.price) && SizeAt(NearSide(book, o.side), o.price) == 0.0
    ensures o.(seeded := true) in OrdersAt(Match(s, o).0, KeyOf(o))
  {
    hide Crosses, SizeAt;
  }

  lemma {:induction false} MatchAllAdds(s: State, ready: seq<Timed<Order>>, key: string)
    requires forall i :: 0 <= i < |ready| ==> !ready[i].item.seeded
    ensures Adds(OrdersAt(s, key), OrdersAt(MatchAll(s, ready).0, key), key in s.books, Ids(Items(ready)))
    decreases |ready|
  {
    hide Match, Adds, Ids;
    if ready == [] {
      AddsNothing(OrdersAt(s, key), key in s.books, Ids(Items(ready)));
    } else {
      var s1 := s.(now := Later(s.now, ready[0].due));
      var s2 := Match(s1, ready[0].item).0;
      MatchSeedsIff(s1, ready[0].item, key);
      MatchBooks(s1, ready[0].item);
      MatchAllAdds(s2, ready[1..], key);
      FirstIds(ready);
      AddsTransitive(OrdersAt(s, key), OrdersAt(s2, key), OrdersAt(MatchAll(s2, ready[1..]).0, key), key in s.books,
                     {ready[0].item.id}, Ids(Items(ready[1..])), Ids(Items(ready)));
    }
  }

  lemma {:induction false} MatchBooks(s: State, o: Order)
    ensures Match(s, o).0.books == s.books
  {
  }

  lemma {:induction false} FirstIds(ready: seq<Timed<Order>>)
    requires ready != []
    ensures Ids(Items(ready)) == {ready[0].item.id} + Ids(Items(ready[1..]))
  {
    assert Items(ready) == [ready[0].item] + Items(ready[1..]);
    FlightIds(ready[0].item, Items(ready[1..]));
  }

  /** Matching what is due only adds orders at the end of the books. */
  lemma {:induction false} DrainAdds(s: State, upto: nat, latency: Latency, key: string)
    requires Sound(s)
    ensures var s' := DrainSubmits(s, upto, latency);
            Adds(OrdersAt(s, key), OrdersAt(s', key), key in s.books, Ids(Items(s.submits.waiting)))
            && s'.books == s.books
  {
    hide MatchAll, Schedule, Serve, Ready, Adds, LevelOk, Accounted, NoneLost, AllOrdersOk, BooksDisjoint;
    var ready := Ready(s.submits, upto);
    var s0 := s.(submits := Serve(s.submits, upto, s.now));
    ReadyUnseeded(s, upto);
    MatchAllAdds(s0, ready, key);
    MatchAllLegs(s0, ready);
    var m := MatchAll(s0, ready);
    ScheduleOnlyFills(m.0, m.1, latency);
    AddsNothing(OrdersAt(m.0, key), key in s.books, {});
    AddsTransitive(OrdersAt(s, key), OrdersAt(m.0, key), OrdersAt(m.0, key), key in s.books,
                   Ids(Items(ready)), {}, Ids(Items(s.submits.waiting)));
  }

  lemma {:induction false} ReadyUnseeded(s: State, upto: nat)
    requires Sound(s)
    ensures var ready := Ready(s.submits, upto);
            (forall i :: 0 <= i < |ready| ==> !ready[i].item.seeded)
            && Ids(Items(ready)) <= Ids(Items(s.submits.waiting))
  {
    hide Ready, SlotsMatchOrders, Accounted, NoneLost, AllOrdersOk, BooksDisjoint;
    ReadyFlight(s, upto);
    var ready := Ready(s.submits, upto);
    var flight := Items(s.submits.waiting);
    ItemsIndex(ready);
    forall i | 0 <= i < |ready| ensures !ready[i].item.seeded {
      assert Items(ready)[i] in flight;
      var j :| 0 <= j < |flight| && flight[j] == Items(ready)[i];
    }
    SameItemsIds(Items(ready), flight);
  }

  lemma {:induction false} SameItemsIds(a: seq<Order>, b: seq<Order>)
    requires forall o :: o in a ==> o in b
    ensures Ids(a) <= Ids(b)
  {
  }

  // --- Leaving -------------------------------------------------------------------------------

  /** `x` is `y`, later: with or without its slot as before, and the very same
      if it has none. */
  predicate Same(y: Order, x: Order) {
    x.id == y.id && x.seeded == y.seeded && (!y.seeded ==> x == y)
  }

  /** Everything in `after` was in `before`. */
  ghost predicate Stays(before: seq<Order>, after: seq<Order>) {
    forall x :: x in after ==> exists y :: y in before && Same(y, x)
  }

  lemma {:induction false} SameStays(orders: seq<Order>)
    ensures Stays(orders, orders)
  {
    forall x | x in orders ensures exists y :: y in orders && Same(y, x) { assert Same(x, x); }
  }

  lemma {:induction false} SublistStays(after: seq<Order>, before: seq<Order>)
    requires Sublist(after, before)
    ensures Stays(before, after)
  {
    forall x | x in after ensures exists y :: y in before && Same(y, x) {
      SublistMembers(after, before, x);
      assert Same(x, x);
    }
  }

  lemma {:induction false} SnapshotOrders(s: State, book: Book, key: string)
    ensures var s' := TakeSnapshot(s, book).0;
            OrdersAt(s', key)
            == if key == Key(book.exchange, book.symbol) && HasTouch(book)
               then Backstop(OrdersAt(s, key), book, book.ts).0 else OrdersAt(s, key)
    ensures key == Key(book.exchange, book.symbol) && HasTouch(book) ==>
              TakeSnapshot(s, book).1 == Backstop(OrdersAt(s, key), book, book.ts).1
  {
    hide Backstop;
    ReconcileLegs(s.(now := book.ts), Key(book.exchange, book.symbol), book, 0);
    BackstopOfNone(book, book.ts);
  }

  lemma {:induction false} SnapshotStays(s: State, book: Book, key: string)
    ensures Stays(OrdersAt(s, key), OrdersAt(TakeSnapshot(s, book).0, key))
  {
    hide TakeSnapshot, Stays;
    SnapshotOrders(s, book, key);
    SameStays(OrdersAt(s, key));
    BackstopKeeps(OrdersAt(s, key), book, book.ts);
    SublistStays(Backstop(OrdersAt(s, key), book, book.ts).0, OrdersAt(s, key));
  }

  lemma {:induction false} PrintPending(s: State, t: Trade, key: string)
    ensures var hit := PrintLevel(t);
            var orders := OrdersAt(s, key);
            OrdersAt(TakePrint(s, t).0, key) == orders
            || (key == hit.key
                && OrdersAt(TakePrint(s, t).0, key)
                   == DropDone(Consume(QueueAt(s, hit), orders, t.quantity, t.ts).orders))
  {
    hide Consume, DropDone;
  }

  /** A print keeps every order without a slot as it is, and seeds none. */
  lemma {:induction false} PrintOrders(s: State, flight: seq<Order>, t: Trade, key: string)
    requires Inv(s, flight)
    ensures Stays(OrdersAt(s, key), OrdersAt(TakePrint(s, t).0, key))
    ensures forall x :: x in OrdersAt(s, key) && !x.seeded ==> x in OrdersAt(TakePrint(s, t).0, key)
  {
    hide TakePrint, Consume, DropDone, Own, Resting, Stays, OrdersOk, OnlyRestingChanged, LevelOk;
    hide Accounted, NoneLost, FlightOk, BooksDisjoint;
    var hit := PrintLevel(t);
    PrintPending(s, t, key);
    SameStays(OrdersAt(s, key));
    if key == hit.key {
      assert LevelOk(s, hit) && OrdersOk(key, OrdersAt(s, key));
      PrintAtLevel(s, hit, t);
    }
  }

  lemma {:induction false} PrintAtLevel(s: State, hit: Level, t: Trade)
    requires LevelOk(s, hit) && OrdersOk(hit.key, OrdersAt(s, hit.key))
    ensures var orders := OrdersAt(s, hit.key);
            var after := DropDone(Consume(QueueAt(s, hit), orders, t.quantity, t.ts).orders);
            Stays(orders, after) && forall x :: x in orders && !x.seeded ==> x in after
  {
    hide Consume, DropDone, Own, Resting, Stays, OnlyRestingChanged;
    var q, orders := QueueAt(s, hit), OrdersAt(s, hit.key);
    OrdersOkParts(hit.key, orders);
    PrintKeepsClaims(q, orders, t.quantity, t.ts, hit.side, hit.price);
    PrintStays(orders, Consume(q, orders, t.quantity, t.ts).orders, hit.side, hit.price);
  }

  lemma {:induction false} PrintStays(before: seq<Order>, after: seq<Order>, side: Side, price: int)
    requires OnlyRestingChanged(before, after, side, price)
    ensures Stays(before, DropDone(after))
    ensures forall x :: x in before && !x.seeded ==> x in DropDone(after)
  {
    DropDoneKeeps(after);
    forall x | x in DropDone(after) ensures exists y :: y in before && Same(y, x) {
      var i :| 0 <= i < |after| && after[i] == x;
      assert Same(before[i], x);
    }
    forall x | x in before && !x.seeded ensures x in DropDone(after) {
      var i :| 0 <= i < |before| && before[i] == x;
      assert after[i] == before[i];
    }
  }

  lemma {:induction false} CancelPending(s: State, exchange: string, symbol: string, id: nat, key: string)
    ensures var s' := Cancel(s, exchange, symbol, id).0;
            var orders := OrdersAt(s, key);
            var i := IndexOfId(orders, id);
            && s'.books == s.books
            && OrdersAt(s', key) == if key == Key(exchange, symbol) && i < |orders|
                                    then orders[..i] + orders[i + 1..] else orders
  {
    hide WithoutOwner, Key, IndexOfId, IndexOfSubmit;
  }

  lemma {:induction false} CancelOrders(s: State, exchange: string, symbol: string, id: nat, key: string)
    ensures var s' := Cancel(s, exchange, symbol, id).0;
            && Stays(OrdersAt(s, key), OrdersAt(s', key))
            && (forall x :: x in OrdersAt(s, key) ==>
                  x in OrdersAt(s', key) || (x.id == id && key == Key(exchange, symbol)))
            && s'.books == s.books
  {
    hide Cancel, Stays, Key, IndexOfId;
    var orders := OrdersAt(s, key);
    var i := IndexOfId(orders, id);
    CancelPending(s, exchange, symbol, id, key);
    SameStays(orders);
    if i < |orders| { RemoveStays(orders, i); }
  }

  lemma {:induction false} RemoveStays(orders: seq<Order>, i: nat)
    requires i < |orders|
    ensures Stays(orders, orders[..i] + orders[i + 1..])
    ensures forall x :: x in orders && x != orders[i] ==> x in orders[..i] + orders[i + 1..]
  {
    var rest := orders[..i] + orders[i + 1..];
    forall x | x in rest ensures exists y :: y in orders && Same(y, x) { assert Same(x, x); }
    forall x | x in orders && x != orders[i] ensures x in rest {
      var j :| 0 <= j < |orders| && orders[j] == x;
      if j < i { assert rest[j] == x; } else { assert rest[j - 1] == x; }
    }
  }

  // --- One step ----------------------------------------------------------------------------------

  /** `x` rested before the step, with or without a slot as now, or it is a
      newcomer, seeded iff its book was known. */
  ghost predicate SeededRight(before: seq<Order>, known: bool, x: Order) {
    if x.id in Ids(before) then exists y :: y in before && Same(y, x) else x.seeded <==> known
  }

  ghost predicate AllSeededRight(before: seq<Order>, known: bool, after: seq<Order>) {
    forall x :: x in after ==> SeededRight(before, known, x)
  }

  lemma {:induction false} AddedRight(before: seq<Order>, after: seq<Order>, known: bool, ids: set<nat>)
    requires Adds(before, after, known, ids) && ids !! Ids(before)
    ensures AllSeededRight(before, known, after)
    ensures forall x :: x in before ==> x in after
  {
    forall x | x in after ensures SeededRight(before, known, x) {
      var i :| 0 <= i < |after| && after[i] == x;
      if i < |before| {
        assert before[i] == after[..|before|][i] == x;
        assert x in before && Same(x, x);
      }
    }
    forall x | x in before ensures x in after {
      var i :| 0 <= i < |before| && before[i] == x;
      assert after[..|before|][i] == after[i];
    }
  }

  lemma {:induction false} StayedRight(a: seq<Order>, b: seq<Order>, c: seq<Order>, known: bool)
    requires AllSeededRight(a, known, b) && Stays(b, c)
    ensures AllSeededRight(a, known, c)
  {
    forall x | x in c ensures SeededRight(a, known, x) {
      var y :| y in b && Same(y, x);
      assert SeededRight(a, known, y);
      if y.id in Ids(a) {
        var z :| z in a && Same(z, y);
        assert Same(z, x);
      }
    }
  }

  lemma {:induction false} DrainRight(s: State, upto: nat, latency: Latency, key: string)
    requires Sound(s)
    ensures AllSeededRight(OrdersAt(s, key), key in s.books, OrdersAt(DrainSubmits(s, upto, latency), key))
    ensures forall x :: x in OrdersAt(s, key) ==> x in OrdersAt(DrainSubmits(s, upto, latency), key)
  {
    hide DrainSubmits, Adds, AllSeededRight, LevelOk, Accounted, NoneLost, AllOrdersOk, BooksDisjoint;
    DrainAdds(s, upto, latency, key);
    assert Ids(Items(s.submits.waiting)) !! Ids(OrdersAt(s, key));
    AddedRight(OrdersAt(s, key), OrdersAt(DrainSubmits(s, upto, latency), key), key in s.books,
               Ids(Items(s.submits.waiting)));
  }

  lemma {:induction false} AcceptSound(s: State, order: Order, latency: Latency)
    requires Sound(s) && Fresh(s, Items(s.submits.waiting), order)
    ensures Sound(Accept(s, Stamped(s, order), latency))
  {
    hide Inv;
    var o, waiting := Stamped(s, order), s.submits.waiting;
    var s1 := Accept(s, o, latency);
    AcceptKeeps(s, Items(waiting), o, latency);
    ItemsAppend(waiting, [s1.submits.waiting[|waiting|]]);
    assert Items([s1.submits.waiting[|waiting|]]) == [o];
  }

  /** Reports on their way do not matter to the books. */
  lemma {:induction false} ReportsApart(s: State, reports: seq<Report>, upto: nat, latency: Latency)
    ensures var s' := DrainFills(Schedule(s, reports, latency), upto); s'.pending == s.pending && s'.books == s.books
  {
    ScheduleOnlyFills(s, reports, latency);
  }

  /** One step of any kind: the orders that rest after it rested before it,
      with or without a slot as before, or join, seeded iff their book was
      known before the step. */
  lemma {:induction false} StepSeeds(s: State, input: Input, latency: Latency, key: string)
    requires Sound(s) && Valid(s, input)
    ensures AllSeededRight(OrdersAt(s, key), key in s.books, OrdersAt(Step(s, input, latency), key))
  {
    hide Inv, DrainSubmits, TakeSnapshot, TakePrint, Schedule, Serve, Cancel, Fresh, AllSeededRight, Stays;
    match input
    case SnapshotIn(book) =>
      var s1 := DrainSubmits(s, book.ts, latency);
      DrainRight(s, book.ts, latency, key);
      SnapshotStays(s1, book, key);
      var (s2, reports) := TakeSnapshot(s1, book);
      ReportsApart(s2, reports, book.ts, latency);
      StayedRight(OrdersAt(s, key), OrdersAt(s1, key), OrdersAt(s2, key), key in s.books);
    case TradeIn(t) =>
      var s1 := DrainSubmits(s, t.ts, latency);
      DrainRight(s, t.ts, latency, key);
      DrainSubmitsKeeps(s, t.ts, latency);
      PrintOrders(s1, Items(s1.submits.waiting), t, key);
      var (s2, reports) := TakePrint(s1, t);
      ReportsApart(s2, reports, t.ts, latency);
      StayedRight(OrdersAt(s, key), OrdersAt(s1, key), OrdersAt(s2, key), key in s.books);
    case SubmitIn(order) =>
      if Refused(s, order) {
        NothingJoins(OrdersAt(s, key), key in s.books);
      } else {
        AcceptSound(s, order, latency);
        DrainRight(Accept(s, Stamped(s, order), latency), s.now, latency, key);
      }
    case CancelIn(exchange, symbol, id) =>
      CancelOrders(s, exchange, symbol, id, key);
      NothingJoins(OrdersAt(s, key), key in s.books);
      StayedRight(OrdersAt(s, key), OrdersAt(s, key), OrdersAt(Cancel(s, exchange, symbol, id).0, key), key in s.books);
  }

  lemma {:induction false} NothingJoins(orders: seq<Order>, known: bool)
    ensures AllSeededRight(orders, known, orders)
  {
    forall x | x in orders ensures SeededRight(orders, known, x) { assert Same(x, x); }
  }

  // --- Runs ------------------------------------------------------------------------------------------

  /** `id` rests in the book before and after every step of the run. */
  ghost predicate RestsOn(s: State, inputs: seq<Input>, latency: Latency, key: string, id: nat)
    decreases |inputs|
  {
    id in Ids(OrdersAt(s, key))
    && (inputs == [] || RestsOn(Step(s, inputs[0], latency), inputs[1..], latency, key, id))
  }

  /** `id` came to rest in some step of the run, when its book was `known`, and
      has rested since. */
  ghost predicate CameToRest(s: State, inputs: seq<Input>, latency: Latency, key: string, id: nat, known: bool)
    decreases |inputs|
  {
    inputs != []
    && var s' := Step(s, inputs[0], latency);
       (id !in Ids(OrdersAt(s, key)) && (known <==> key in s.books) && RestsOn(s', inputs[1..], latency, key, id))
       || CameToRest(s', inputs[1..], latency, key, id, known)
  }

  lemma {:induction false} RestsSince(s: State, inputs: seq<Input>, latency: Latency, key: string, x: Order)
    requires Sound(s) && ValidRun(s, inputs, latency) && x in OrdersAt(Run(s, inputs, latency), key)
    ensures (RestsOn(s, inputs, latency, key, x.id)
             && exists y :: y in OrdersAt(s, key) && y.id == x.id && y.seeded == x.seeded)
            || CameToRest(s, inputs, latency, key, x.id, x.seeded)
    decreases |inputs|
  {
    hide Inv, Step, Valid;
    if inputs != [] {
      var s' := Step(s, inputs[0], latency);
      StepKeeps(s, inputs[0], latency);
      StepSeeds(s, inputs[0], latency, key);
      RestsSince(s', inputs[1..], latency, key, x);
      if !CameToRest(s', inputs[1..], latency, key, x.id, x.seeded) {
        var y :| y in OrdersAt(s', key) && y.id == x.id && y.seeded == x.seeded;
        assert SeededRight(OrdersAt(s, key), key in s.books, y);
      }
    }
  }

  /** In every run, an order that rests has a slot if and only if its book was
      known when it came to rest. */
  lemma {:induction false} SeededIffBookKnown(inputs: seq<Input>, latency: Latency, key: string, x: Order)
    requires ValidRun(INITIAL, inputs, latency) && x in OrdersAt(Run(INITIAL, inputs, latency), key)
    ensures CameToRest(INITIAL, inputs, latency, key, x.id, x.seeded)
  {
    hide Inv, Step, Valid, CameToRest;
    InitialSound();
    RestsSince(INITIAL, inputs, latency, key, x);
  }

  // --- The fate of an order without a slot --------------------------------------------------------------

  /** The report fills all that `x` has left, at the touch. */
  predicate FillsWhole(x: Order, book: Book, r: Report) {
    && r.orderId == x.id && r.lastQty == Remaining(x) && r.full && r.role == Maker
    && r.lastPrice == BackstopPrice(x, book) > 0
  }

  /** The two ways in which an order without a slot ends: it is cancelled, or it
      is a limit order and a snapshot of its book fills it whole. */
  ghost predicate Ends(s: State, input: Input, latency: Latency, key: string, x: Order) {
    x.id !in Ids(OrdersAt(Step(s, input, latency), key))
    && match input
       case CancelIn(exchange, symbol, id) => id == x.id && Key(exchange, symbol) == key
       case SnapshotIn(book) =>
         Key(book.exchange, book.symbol) == key && x.kind == Limit
         && exists r :: r in TakeSnapshot(DrainSubmits(s, book.ts, latency), book).1 && FillsWhole(x, book, r)
       case TradeIn(_) => false
       case SubmitIn(_) => false
  }

  lemma {:induction false} BackstopSplits(orders: seq<Order>, book: Book, now: nat, x: Order)
    requires x in orders
    ensures if BackstopFills(x, book) then BackstopReport(x, book, now) in Backstop(orders, book, now).1
            else x in Backstop(orders, book, now).0
    ensures forall y :: y in Backstop(orders, book, now).0 ==> y in orders && !BackstopFills(y, book)
  {
    hide BackstopFills, BackstopReport;
    if x in orders[1..] {
      BackstopSplits(orders[1..], book, now, x);
    } else {
      BackstopLeaves(orders[1..], book, now);
    }
  }

  lemma {:induction false} BackstopLeaves(orders: seq<Order>, book: Book, now: nat)
    ensures forall y :: y in Backstop(orders, book, now).0 ==> y in orders && !BackstopFills(y, book)
  {
    hide BackstopFills, BackstopReport;
    if orders != [] { BackstopLeaves(orders[1..], book, now); }
  }

  /** A snapshot leaves an order without a slot as it is, or fills it whole. */
  lemma {:induction false} SnapshotFate(s: State, flight: seq<Order>, book: Book, key: string, x: Order)
    requires Inv(s, flight) && x in OrdersAt(s, key)
    ensures var (s', reports) := TakeSnapshot(s, book);
            x in OrdersAt(s', key)
            || (key == Key(book.exchange, book.symbol) && x.kind == Limit && x.id !in Ids(OrdersAt(s', key))
                && exists r :: r in reports && FillsWhole(x, book, r))
  {
    hide TakeSnapshot, Backstop, LevelOk, Accounted, NoneLost, FlightOk, BooksDisjoint;
    var orders := OrdersAt(s, key);
    SnapshotOrders(s, book, key);
    assert OrdersOk(key, orders);
    BackstopSplits(orders, book, book.ts, x);
    if key == Key(book.exchange, book.symbol) && HasTouch(book) && BackstopFills(x, book) {
      assert FillsWhole(x, book, BackstopReport(x, book, book.ts));
      GoneById(orders, Backstop(orders, book, book.ts).0, x);
    }
  }

  /** A snapshot picks up an order without a slot if and only if it is of the
      order's book, the order is a limit order, and the touch is at its limit or
      better. */
  lemma {:induction false} PickedUpIff(s: State, flight: seq<Order>, book: Book, key: string, x: Order)
    requires Inv(s, flight) && x in OrdersAt(s, key) && !x.seeded
    ensures x.id !in Ids(OrdersAt(TakeSnapshot(s, book).0, key))
            <==> key == Key(book.exchange, book.symbol) && x.kind == Limit && BackstopPrice(x, book) > 0
  {
    hide TakeSnapshot, Backstop, LevelOk, Accounted, NoneLost, FlightOk, BooksDisjoint;
    var orders := OrdersAt(s, key);
    SnapshotOrders(s, book, key);
    assert OrdersOk(key, orders);
    BackstopSplits(orders, book, book.ts, x);
    if key == Key(book.exchange, book.symbol) && HasTouch(book) && BackstopFills(x, book) {
      GoneById(orders, Backstop(orders, book, book.ts).0, x);
    } else {
      assert x in OrdersAt(TakeSnapshot(s, book).0, key);
    }
  }

  lemma {:induction false} GoneById(before: seq<Order>, after: seq<Order>, x: Order)
    requires DistinctIds(before) && x in before && x !in after && forall y :: y in after ==> y in before
    ensures x.id !in Ids(after)
  {
    forall y | y in after ensures y.id != x.id {
      var i :| 0 <= i < |before| && before[i] == x;
      var j :| 0 <= j < |before| && before[j] == y;
      assert i < j || j < i;
    }
  }

  lemma {:induction false} CancelledById(s: State, exchange: string, symbol: string, x: Order)
    requires Sound(s) && x in OrdersAt(s, Key(exchange, symbol))
    ensures x.id !in Ids(OrdersAt(Cancel(s, exchange, symbol, x.id).0, Key(exchange, symbol)))
  {
    hide LevelOk, Accounted, NoneLost, FlightOk, BooksDisjoint, WithoutOwner;
    var key := Key(exchange, symbol);
    var orders := OrdersAt(s, key);
    assert OrdersOk(key, orders);
    var i := IndexOfId(orders, x.id);
    var j :| 0 <= j < |orders| && orders[j] == x;
    RemovedId(orders, i);
  }

  /** One step leaves an order without a slot exactly as it is, or ends it. */
  lemma {:induction false} UnseededStep(s: State, input: Input, latency: Latency, key: string, x: Order)
    requires Sound(s) && Valid(s, input) && x in OrdersAt(s, key) && !x.seeded
    ensures x in OrdersAt(Step(s, input, latency), key) || Ends(s, input, latency, key, x)
  {
    hide Inv, DrainSubmits, TakeSnapshot, TakePrint, Schedule, Serve, Cancel, Fresh, Stays, FillsWhole,
         AllSeededRight, Ids;
    match input
    case SnapshotIn(book) =>
      var s1 := DrainSubmits(s, book.ts, latency);
      DrainRight(s, book.ts, latency, key);
      DrainSubmitsKeeps(s, book.ts, latency);
      SnapshotFate(s1, Items(s1.submits.waiting), book, key, x);
      var (s2, reports) := TakeSnapshot(s1, book);
      ReportsApart(s2, reports, book.ts, latency);
    case TradeIn(t) =>
      var s1 := DrainSubmits(s, t.ts, latency);
      DrainRight(s, t.ts, latency, key);
      DrainSubmitsKeeps(s, t.ts, latency);
      PrintOrders(s1, Items(s1.submits.waiting), t, key);
      var (s2, reports) := TakePrint(s1, t);
      ReportsApart(s2, reports, t.ts, latency);
    case SubmitIn(order) =>
      if !Refused(s, order) {
        AcceptSound(s, order, latency);
        DrainRight(Accept(s, Stamped(s, order), latency), s.now, latency, key);
      }
    case CancelIn(exchange, symbol, id) =>
      CancelOrders(s, exchange, symbol, id, key);
      if x.id == id && key == Key(exchange, symbol) { CancelledById(s, exchange, symbol, x); }
  }

  /** `x` rests unchanged up to the end of the run, or up to the step that ends
      it. */
  ghost predicate Fate(s: State, inputs: seq<Input>, latency: Latency, key: string, x: Order)
    decreases |inputs|
  {
    x in OrdersAt(s, key)
    && (inputs == [] || Ends(s, inputs[0], latency, key, x)
        || Fate(Step(s, inputs[0], latency), inputs[1..], latency, key, x))
  }

  /** In every run, an order that rests without a slot never gets one and is
      never touched, until it is cancelled or, a limit order, filled whole by
      one snapshot of its book; a post-only order is never filled at all. */
  lemma {:induction false} UnseededFate(s: State, inputs: seq<Input>, latency: Latency, key: string, x: Order)
    requires Sound(s) && ValidRun(s, inputs, latency) && x in OrdersAt(s, key) && !x.seeded
    ensures Fate(s, inputs, latency, key, x)
    decreases |inputs|
  {
    hide Inv, Step, Valid, Ends;
    if inputs != [] && !Ends(s, inputs[0], latency, key, x) {
      StepKeeps(s, inputs[0], latency);
      UnseededStep(s, inputs[0], latency, key, x);
      UnseededFate(Step(s, inputs[0], latency), inputs[1..], latency, key, x);
    }
  }
}
