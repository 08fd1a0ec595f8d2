/** Whole runs of the engine: any sequence of snapshots, prints, submits and
    cancels, under any latency draws. */
module EngineRuns {
  import opened Orders
  import opened SlotQueues
  import opened PrintMatching
  import opened FillAccounts
  import opened LatencyLegs
  import opened EngineModel
  import opened EngineInvariants
  import opened EngineSteps

  /** What the engine demands of its callers: event times do not go back, and
      a submitted order is unfinished and under an id that is not live. */
  ghost predicate Valid(s: State, input: Input) {
    match input
    case SnapshotIn(book) => book.ts >= s.now
    case TradeIn(t) => t.ts >= s.now
    case SubmitIn(o) => Fresh(s, Items(s.submits.waiting), o)
    case CancelIn(_, _, _) => true
  }

  ghost predicate ValidRun(s: State, inputs: seq<Input>, latency: Latency)
    decreases |inputs|
  {
    inputs == [] || (Valid(s, inputs[0]) && ValidRun(Step(s, inputs[0], latency), inputs[1..], latency))
  }

  // --- Coupling and accounts over runs -------------------------------------------

  lemma {:induction false} SnapshotLegs(s: State, book: Book)
    ensures var s' := TakeSnapshot(s, book).0;
            s'.submits == s.submits && s'.fills == s.fills && s'.draws == s.draws && s'.now == book.ts
  {
    ReconcileLegs(s.(now := book.ts), Key(book.exchange, book.symbol), book, 0);
  }

  lemma {:induction false} ReconcileLegs(s: State, key: string, book: Book, lvl: nat)
    requires lvl <= BOOK_DEPTH
    ensures var s' := ReconcileFrom(s, key, book, lvl);
            s' == s.(queues := s'.queues)
    decreases BOOK_DEPTH - lvl
  {
    if lvl < BOOK_DEPTH {
      var s1 := ReconcileQuote(s, key, Buy, book.bids[lvl]);
      ReconcileLegs(ReconcileQuote(s1, key, Sell, book.asks[lvl]), key, book, lvl + 1);
    }
  }

  lemma {:induction false} PrintLegs(s: State, t: Trade)
    ensures var s' := TakePrint(s, t).0;
            s'.submits == s.submits && s'.fills == s.fills && s'.draws == s.draws && s'.now == t.ts
  {
  }

  lemma {:induction false} AfterEvent(s: State, flight: seq<Order>, reports: seq<Report>, upto: nat, latency: Latency)
    requires Inv(s, flight)
    ensures var s' := DrainFills(Schedule(s, reports, latency), upto);
            Inv(s', flight) && s'.submits == s.submits
  {
    hide Inv, Schedule;
    ScheduleOnlyFills(s, reports, latency);
    ClockAndBooks(s, flight, DrainFills(Schedule(s, reports, latency), upto));
  }

  lemma {:induction false} SubmitKeeps(s: State, order: Order, latency: Latency)
    requires Sound(s) && Fresh(s, Items(s.submits.waiting), order)
    ensures Sound(Submit(s, order, latency))
  {
    hide Inv, DrainSubmits, Serve;
    var o := Stamped(s, order);
    if !Refused(s, order) {
      var waiting := s.submits.waiting;
      var s1 := Accept(s, o, latency);
      AcceptKeeps(s, Items(waiting), o, latency);
      ItemsAppend(waiting, [s1.submits.waiting[|waiting|]]);
      assert Items([s1.submits.waiting[|waiting|]]) == [o];
      DrainSubmitsKeeps(s1, s.now, latency);
      var s2 := DrainSubmits(s1, s.now, latency);
      ClockAndBooks(s2, Items(s2.submits.waiting), DrainFills(s2, s2.now));
    }
  }

  lemma {:induction false} StepKeeps(s: State, input: Input, latency: Latency)
    requires Sound(s) && Valid(s, input)
    ensures Sound(Step(s, input, latency))
  {
    hide Inv, DrainSubmits, TakeSnapshot, TakePrint, Schedule, Cancel, Submit;
    match input
    case SnapshotIn(book) =>
      DrainSubmitsKeeps(s, book.ts, latency);
      var s0 := DrainSubmits(s, book.ts, latency);
      TakeSnapshotKeeps(s0, Items(s0.submits.waiting), book);
      SnapshotLegs(s0, book);
      var (s1, reports) := TakeSnapshot(s0, book);
      AfterEvent(s1, Items(s0.submits.waiting), reports, book.ts, latency);
    case TradeIn(t) =>
      DrainSubmitsKeeps(s, t.ts, latency);
      var s0 := DrainSubmits(s, t.ts, latency);
      TakePrintKeeps(s0, Items(s0.submits.waiting), t);
      PrintLegs(s0, t);
      var (s1, reports) := TakePrint(s0, t);
      AfterEvent(s1, Items(s0.submits.waiting), reports, t.ts, latency);
    case SubmitIn(o) => SubmitKeeps(s, o, latency);
    case CancelIn(exchange, symbol, id) => CancelKeeps(s, exchange, symbol, id);
  }

  lemma {:induction false} InitialSound()
    ensures Sound(INITIAL)
  {
  }

  /** Every state reached by a valid run is sound. */
  lemma {:induction false} RunKeeps(s: State, inputs: seq<Input>, latency: Latency)
    requires Sound(s) && ValidRun(s, inputs, latency)
    ensures Sound(Run(s, inputs, latency))
    decreases |inputs|
  {
    hide Sound, Valid, Step;
    if inputs != [] {
      StepKeeps(s, inputs[0], latency);
      RunKeeps(Step(s, inputs[0], latency), inputs[1..], latency);
    }
  }

  // --- What soundness means ----------------------------------------------------------

  /** A seeded resting order has exactly one own slot, at its own level, holding
      exactly what it has left. */
  lemma {:induction false} OrderHasSlot(s: State, key: string, i: nat)
    requires Sound(s) && i < |OrdersAt(s, key)| && OrdersAt(s, key)[i].seeded
    ensures var o := OrdersAt(s, key)[i];
            var q := QueueAt(s, Level(key, o.side, o.price));
            exists k :: 0 <= k < |q| && q[k] == Slot(Remaining(o), Some(o.id))
              && forall j :: 0 <= j < |q| && j != k ==> q[j].owner != Some(o.id)
  {
    var o := OrdersAt(s, key)[i];
    var level := Level(key, o.side, o.price);
    var q := QueueAt(s, level);
    assert LevelOk(s, level) && OrdersOk(key, OrdersAt(s, key));
    RestingComplete(OrdersAt(s, key), o.side, o.price, i);
    OwnSource(q, Claim(o.id, Remaining(o)));
    var k :| 0 <= k < |q| && q[k] == Slot(Remaining(o), Some(o.id));
    forall j | 0 <= j < |q| && j != k ensures q[j].owner != Some(o.id) {
      if q[j].owner.Some? {
        if j < k { SlotsAreDistinct(s, level, j, k); } else { SlotsAreDistinct(s, level, k, j); }
      }
    }
  }

  /** An own slot belongs to exactly one resting order, which rests at that
      level with exactly the slot's quantity, more than dust, left. */
  lemma {:induction false} SlotHasOrder(s: State, level: Level, k: nat)
    requires Sound(s) && k < |QueueAt(s, level)| && QueueAt(s, level)[k].owner.Some?
    ensures var slot := QueueAt(s, level)[k];
            slot.qty > EPS
            && exists i :: 0 <= i < |OrdersAt(s, level.key)|
                 && Rests(OrdersAt(s, level.key)[i], level.side, level.price)
                 && OrdersAt(s, level.key)[i].id == slot.owner.value
                 && Remaining(OrdersAt(s, level.key)[i]) == slot.qty
                 && forall j :: 0 <= j < |OrdersAt(s, level.key)| && j != i
                      ==> OrdersAt(s, level.key)[j].id != slot.owner.value
  {
    var slot := QueueAt(s, level)[k];
    var orders := OrdersAt(s, level.key);
    assert LevelOk(s, level) && OrdersOk(level.key, orders);
    OwnComplete(QueueAt(s, level), k);
    RestingSource(orders, level.side, level.price, Claim(slot.owner.value, slot.qty));
    var i :| 0 <= i < |orders| && Rests(orders[i], level.side, level.price)
             && orders[i].id == slot.owner.value && Remaining(orders[i]) == slot.qty;
    forall j | 0 <= j < |orders| && j != i ensures orders[j].id != slot.owner.value {
      assert j < i || i < j;
    }
  }

  /** No two own slots of a level belong to the same order. */
  lemma {:induction false} SlotsAreDistinct(s: State, level: Level, i: nat, j: nat)
    requires Sound(s) && i < j < |QueueAt(s, level)|
    requires QueueAt(s, level)[i].owner.Some? && QueueAt(s, level)[j].owner.Some?
    ensures QueueAt(s, level)[i].owner != QueueAt(s, level)[j].owner
  {
    var q, orders := QueueAt(s, level), OrdersAt(s, level.key);
    assert LevelOk(s, level) && OrdersOk(level.key, orders);
    RestingIdsDistinct(orders, level.side, level.price);
    OwnIdsDistinct(q, i, j);
  }

  predicate ClaimsDistinct(claims: seq<Claim>) {
    forall i, j :: 0 <= i < j < |claims| ==> claims[i].id != claims[j].id
  }

  lemma {:induction false} RestingIdsDistinct(orders: seq<Order>, side: Side, price: int)
    requires DistinctIds(orders)
    ensures ClaimsDistinct(Resting(orders, side, price))
  {
    if orders != [] {
      var rest := Resting(orders[1..], side, price);
      RestingIdsDistinct(orders[1..], side, price);
      forall c | c in rest ensures c.id != orders[0].id {
        RestingSource(orders[1..], side, price, c);
        var i :| 0 <= i < |orders[1..]| && Rests(orders[1..][i], side, price)
                 && orders[1..][i].id == c.id && Remaining(orders[1..][i]) == c.qty;
        assert orders[i + 1] == orders[1..][i];
      }
    }
  }

  lemma {:induction false} OwnIdsDistinct(q: seq<Slot>, i: nat, j: nat)
    requires ClaimsDistinct(Own(q)) && i < j < |q| && q[i].owner.Some? && q[j].owner.Some?
    ensures q[i].owner != q[j].owner
  {
    var rest := q[1..];
    assert ClaimsDistinct(Own(rest)) by {
      if q[0].owner.Some? { assert Own(q)[1..] == Own(rest); }
    }
    if i == 0 {
      OwnComplete(rest, j - 1);
      assert Own(q) == [Claim(q[0].owner.value, q[0].qty)] + Own(rest);
      var c := Claim(q[j].owner.value, q[j].qty);
      assert rest[j - 1] == q[j] && c in Own(rest);
      var k :| 0 <= k < |Own(rest)| && Own(rest)[k] == c;
      assert Own(q)[0].id != Own(q)[k + 1].id;
    } else {
      OwnIdsDistinct(rest, i - 1, j - 1);
    }
  }

  /** Lifetime accounts. However an order was filled - crossing the book, by
      prints, by the backstop, over any number of calls - the quantities of its
      reports since acceptance add up to the growth of its filled quantity and
      stay within it; cumulative quantities climb strictly; only the last
      report can be the closing one, and then the engine holds no order under
      that id, neither resting nor on its way in. */
  lemma {:induction false} LifetimeAccounts(s: State, id: nat)
    requires Sound(s) && Origin(s.log, id).Some?
    ensures var org, fills := Origin(s.log, id).value, Fills(s.log, id);
            && LastQtySum(fills) == Cum(org, fills) - org.filled
            && (fills != [] ==> org.filled < Cum(org, fills) <= org.quantity)
            && (forall i, j :: 0 <= i < j < |fills| ==> fills[i].cumQty < fills[j].cumQty)
            && (forall i :: 0 <= i < |fills| && fills[i].full ==>
                  && i == |fills| - 1
                  && (forall key: string :: id !in Ids(OrdersAt(s, key)))
                  && id !in Ids(Items(s.submits.waiting)))
  {
    hide LevelOk, OrdersOk;
    var org, fills := Origin(s.log, id).value, Fills(s.log, id);
    assert AccountOk(s.log, id);
    ChainTotals(org, fills);
    forall i | 0 <= i < |fills| && fills[i].full
      ensures forall key: string :: id !in Ids(OrdersAt(s, key))
      ensures id !in Ids(Items(s.submits.waiting))
    {
      assert org.quantity - Cum(org, fills) <= EPS;
      forall key: string ensures id !in Ids(OrdersAt(s, key)) {
        if id in Ids(OrdersAt(s, key)) { LiveOrderOpen(s, key, id); }
      }
      if id in Ids(Items(s.submits.waiting)) { WaitingOrderUntried(s, id); }
    }
  }

  /** In every reachable state the reports of an order carry the order's own
      kind if and only if it is not post-only; a post-only order is reported as
      a limit order. */
  lemma {:induction false} ReportedKinds(s: State, id: nat)
    requires Sound(s) && Origin(s.log, id).Some?
    ensures forall i :: 0 <= i < |Fills(s.log, id)| ==>
              (Fills(s.log, id)[i].kind == Origin(s.log, id).value.kind
               <==> Origin(s.log, id).value.kind != PostOnly)
  {
    hide Chain, LevelOk, OrdersOk;
    assert AccountOk(s.log, id);
    ChainKinds(Origin(s.log, id).value, Fills(s.log, id));
  }

  /** In every reachable state, what an order took comes before what it made; a
      post-only order took nothing, a market order made nothing; and all of it is
      reported under the limit it was submitted with. */
  lemma {:induction false} ReportedRoles(s: State, id: nat)
    requires Sound(s) && Origin(s.log, id).Some?
    ensures var org, fills := Origin(s.log, id).value, Fills(s.log, id);
            && (forall i, j :: 0 <= i < j < |fills| && fills[j].role == Taker ==> fills[i].role == Taker)
            && (forall i :: 0 <= i < |fills| ==>
                  && (fills[i].role == Taker ==> org.kind != PostOnly)
                  && (fills[i].role == Maker ==> org.kind != Market)
                  && (org.kind != Market ==> fills[i].orderPrice == org.price))
  {
    hide Chain, LevelOk, OrdersOk;
    assert AccountOk(s.log, id);
    ChainRoles(Origin(s.log, id).value, Fills(s.log, id));
  }

  /** A resting order is open in its account: filled as far as its reports say,
      with more than dust to go. */
  lemma {:induction false} LiveOrderOpen(s: State, key: string, id: nat)
    requires Sound(s) && id in Ids(OrdersAt(s, key)) && Origin(s.log, id).Some?
    ensures var org, fills := Origin(s.log, id).value, Fills(s.log, id);
            org.quantity - Cum(org, fills) > EPS
  {
    var orders := OrdersAt(s, key);
    var o :| o in orders && o.id == id;
    var i :| 0 <= i < |orders| && orders[i] == o;
    assert OrdersOk(key, orders) && AllTracked(s.log, orders);
    assert Tracks(s.log, orders[i]);
  }

  lemma {:induction false} WaitingOrderUntried(s: State, id: nat)
    requires Sound(s) && id in Ids(Items(s.submits.waiting))
    ensures Fills(s.log, id) == []
  {
    var flight := Items(s.submits.waiting);
    var o :| o in flight && o.id == id;
    var i :| 0 <= i < |flight| && flight[i] == o;
    assert Untried(s.log, flight[i]);
  }

  /** What a resting order has filled is what its reports since acceptance add
      up to, on top of what it came in with. */
  lemma {:induction false} RestingFilled(s: State, key: string, i: nat)
    requires Sound(s) && i < |OrdersAt(s, key)|
    ensures var o := OrdersAt(s, key)[i];
            Origin(s.log, o.id).Some?
            && o.filled == Origin(s.log, o.id).value.filled + LastQtySum(Fills(s.log, o.id))
  {
    var o := OrdersAt(s, key)[i];
    assert AllTracked(s.log, OrdersAt(s, key));
    assert Tracks(s.log, o);
    assert AccountOk(s.log, o.id);
    ChainTotals(Origin(s.log, o.id).value, Fills(s.log, o.id));
  }

  /** No order is lost. An order that can rest is held by the engine - resting
      in its book or still on its way - exactly while its account is open: from
      acceptance until it is filled to within dust or cancelled. */
  lemma {:induction false} HeldWhileOpen(s: State, id: nat)
    requires Sound(s)
    ensures Open(s.log, id)
            <==> (exists o :: o in Items(s.submits.waiting) && o.id == id && o.kind != Market)
                 || (exists key: string :: id in Ids(OrdersAt(s, key)))
  {
    var flight := Items(s.submits.waiting);
    if Open(s.log, id) {
      assert Held(s, flight, id);
      if id in Ids(flight) {
        var o :| o in flight && o.id == id;
        var i :| 0 <= i < |flight| && flight[i] == o;
        assert Untried(s.log, flight[i]);
      }
    }
    forall o | o in flight && o.id == id && o.kind != Market ensures Open(s.log, id) {
      var i :| 0 <= i < |flight| && flight[i] == o;
      assert Untried(s.log, flight[i]);
    }
    forall key: string | id in Ids(OrdersAt(s, key)) ensures Open(s.log, id) {
      var orders := OrdersAt(s, key);
      var o :| o in orders && o.id == id;
      var i :| 0 <= i < |orders| && orders[i] == o;
      assert OrdersOk(key, orders) && AllTracked(s.log, orders);
      assert Tracks(s.log, orders[i]);
      TrackedOpen(s.log, orders[i]);
    }
  }

  /** A print fills only orders resting on the side opposite to the aggressor,
      at exactly the print's price, and at their own limit. */
  lemma {:induction false} PrintFillsItsLevel(s: State, t: Trade)
    requires Sound(s)
    ensures forall r :: r in TakePrint(s, t).1 ==>
              r.side != t.taker && r.lastPrice == t.price == r.orderPrice && r.role == Maker
  {
    var level := PrintLevel(t);
    assert LevelOk(s, level) && OrdersOk(level.key, OrdersAt(s, level.key));
    if QueueAt(s, level) != [] {
      PrintReportsAtLevel(QueueAt(s, level), OrdersAt(s, level.key), t.quantity, t.ts, level.side, level.price);
      ReportsAtLimit(QueueAt(s, level), OrdersAt(s, level.key), t.quantity, t.ts);
    }
  }

  /** Makers are reported at their own limit price. */
  lemma {:induction false} ReportsAtLimit(q: seq<Slot>, orders: seq<Order>, size: real, now: nat)
    ensures forall r :: r in Consume(q, orders, size, now).reports ==> r.lastPrice == r.orderPrice
    decreases |q|, if size > 0.0 then 1 else 0
  {
    if size > 0.0 && q != [] {
      var take := Min(size, q[0].qty);
      if q[0].owner.Some? { CreditAtLimit(orders, q[0].owner.value, take, now); }
      ReportsAtLimit(Shorten(q, take), CreditFront(q[0], orders, take, now).0, size - take, now);
    }
  }

  lemma {:induction false} CreditAtLimit(orders: seq<Order>, id: nat, take: real, now: nat)
    ensures forall r :: r in Credit(orders, id, take, now).1 ==> r.lastPrice == r.orderPrice
  {
    if orders != [] && orders[0].id != id { CreditAtLimit(orders[1..], id, take, now); }
  }
}
