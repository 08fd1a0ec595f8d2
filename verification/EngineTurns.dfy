/** Orders of a level are filled in turn: a print reaches an order only once
    every order in front of it is filled or cancelled. */
module EngineTurns {
  import opened Orders
  import opened SlotQueues
  import opened PrintMatching
  import opened FillAccounts
  import opened LatencyLegs
  import opened EngineModel
  import opened EngineInvariants
  import opened EngineSteps
  import opened EngineRuns
  import opened EngineQuiet
  import opened EnginePriority
  import opened EngineSeeding

  // --- One print ------------------------------------------------------------------------------

  /** Every report for `other` comes after a closing report for `id`. */
  predicate ClosedBefore(reports: seq<Report>, id: nat, other: nat) {
    forall j :: 0 <= j < |reports| && reports[j].orderId == other ==>
      exists i :: 0 <= i < j && reports[i].orderId == id && reports[i].full
  }

  lemma {:induction false} ClosedBeforeCons(front: seq<Report>, rest: seq<Report>, id: nat, other: nat)
    requires forall r :: r in front ==> r.orderId != other
    requires ClosedBefore(rest, id, other) || exists r :: r in front && r.orderId == id && r.full
    ensures ClosedBefore(front + rest, id, other)
  {
    var all := front + rest;
    forall j | 0 <= j < |front| ensures all[j].orderId != other { assert front[j] in front; }
    forall j | |front| <= j < |all| && all[j].orderId == other
      ensures exists i :: 0 <= i < j && all[i].orderId == id && all[i].full
    {
      if r :| r in front && r.orderId == id && r.full {
        var i :| 0 <= i < |front| && front[i] == r;
        assert all[i] == r;
      } else {
        assert rest[j - |front|].orderId == other;
        var i :| 0 <= i < j - |front| && rest[i].orderId == id && rest[i].full;
        assert all[|front| + i] == rest[i];
      }
    }
  }

  /** The report of an own slot at the front: closing if the slot is eaten. */
  lemma {:induction false} FrontReport(q: seq<Slot>, orders: seq<Order>, take: real, now: nat, side: Side, price: int)
    requires q != [] && q[0].owner.Some? && DistinctIds(orders) && Own(q) == Resting(orders, side, price)
    ensures var rs := CreditFront(q[0], orders, take, now).1;
            |rs| == 1 && rs[0].orderId == q[0].owner.value && (take == q[0].qty ==> rs[0].full)
  {
    hide Own, Resting;
    var k := FrontOrder(q, orders, side, price);
    CreditAt(orders, q[0].owner.value, take, now, k);
  }

  lemma {:induction false} NothingClosed(q: seq<Slot>, orders: seq<Order>, size: real, now: nat, id: nat, other: nat)
    requires size <= 0.0
    ensures ClosedBefore(Consume(q, orders, size, now).reports, id, other)
  {
  }

  /** A print reports the order behind only after it has closed the order in
      front. */
  lemma {:induction false} PrintInTurn(q: seq<Slot>, orders: seq<Order>, size: real, now: nat, side: Side, price: int,
                                       id: nat, other: nat)
    requires DistinctIds(orders) && Own(q) == Resting(orders, side, price)
    requires InFront(q, id, other) && id != other
    ensures ClosedBefore(Consume(q, orders, size, now).reports, id, other)
    decreases |q|, if size > 0.0 then 1 else 0
  {
    hide CreditFront, Own, Resting, DistinctIds, OnlyRestingChanged, ClosedBefore;
    if size <= 0.0 {
      NothingClosed(q, orders, size, now, id, other);
    } else {
      var take := Min(size, q[0].qty);
      var front := CreditFront(q[0], orders, take, now);
      var rest := Consume(Shorten(q, take), front.0, size - take, now).reports;
      FrontKeepsClaims(q, orders, take, now, side, price);
      if q[0].owner.Some? {
        FrontReport(q, orders, take, now, side, price);
      } else {
        VenueReports(q[0], orders, take, now);
      }
      if take == size {
        NothingClosed(Shorten(q, take), front.0, size - take, now, id, other);
      } else if q[0].owner != Some(id) {
        PrintInTurn(q[1..], front.0, size - take, now, side, price, id, other);
      }
      ClosedBeforeCons(front.1, rest, id, other);
    }
  }

  lemma {:induction false} VenueReports(s: Slot, orders: seq<Order>, take: real, now: nat)
    requires s.owner.None?
    ensures CreditFront(s, orders, take, now).1 == []
  {
  }

  /** In any reachable state, a print fills the order behind only once it has
      filled the order in front. */
  lemma {:induction false} TradeInTurn(s: State, t: Trade, id: nat, other: nat)
    requires Sound(s) && InFront(QueueAt(s, PrintLevel(t)), id, other) && id != other
    ensures ClosedBefore(TakePrint(s, t).1, id, other)
  {
    hide ClosedBefore, Consume;
    var level := PrintLevel(t);
    assert LevelOk(s, level) && OrdersOk(level.key, OrdersAt(s, level.key));
    PrintInTurn(QueueAt(s, level), OrdersAt(s, level.key), t.quantity, t.ts, level.side, level.price, id, other);
  }

  // --- How an order leaves its level -------------------------------------------------------------

  /** The seeded order behind an own slot. */
  lemma {:induction false} OwnerRests(s: State, level: Level, id: nat) returns (x: Order)
    requires Sound(s) && Owns(QueueAt(s, level), id)
    ensures x in OrdersAt(s, level.key) && x.id == id && Rests(x, level.side, level.price)
  {
    hide Inv;
    var q, orders := QueueAt(s, level), OrdersAt(s, level.key);
    var k :| 0 <= k < |q| && q[k].owner == Some(id);
    SlotHasOrder(s, level, k);
    var i :| 0 <= i < |orders| && Rests(orders[i], level.side, level.price) && orders[i].id == id;
    x := orders[i];
  }

  /** A seeded resting order owns a slot. */
  lemma {:induction false} RestingOwns(s: State, level: Level, x: Order)
    requires Sound(s) && x in OrdersAt(s, level.key) && x.seeded && x.side == level.side && x.price == level.price
    ensures Owns(QueueAt(s, level), x.id)
  {
    hide Inv;
    var orders := OrdersAt(s, level.key);
    var i :| 0 <= i < |orders| && orders[i] == x;
    OrderHasSlot(s, level.key, i);
  }

  /** Matching on arrival takes no slot away. */
  lemma {:induction false} DrainKeepsOwner(s: State, upto: nat, latency: Latency, level: Level, id: nat)
    requires Sound(s) && Owns(QueueAt(s, level), id)
    ensures Owns(QueueAt(DrainSubmits(s, upto, latency), level), id)
  {
    hide Inv, DrainSubmits, AllSeededRight;
    var x := OwnerRests(s, level, id);
    DrainRight(s, upto, latency, level.key);
    DrainSubmitsKeeps(s, upto, latency);
    RestingOwns(DrainSubmits(s, upto, latency), level, x);
  }

  // --- What one step does to an account -----------------------------------------------------------

  lemma {:induction false} OriginOfReports(log: seq<Entry>, reports: seq<Report>, id: nat)
    ensures Origin(log + Entries(reports), id) == Origin(log, id)
    decreases |reports|
  {
    if reports == [] {
      assert log + Entries(reports) == log;
    } else {
      assert log + Entries(reports) == (log + [Filled(reports[0])]) + Entries(reports[1..]);
      OriginOfReports(log + [Filled(reports[0])], reports[1..], id);
      LogSnoc(log, Filled(reports[0]), id);
    }
  }

  lemma {:induction false} MatchAllLog(s: State, ready: seq<Timed<Order>>)
    ensures var (s', reports) := MatchAll(s, ready); s'.log == s.log + Entries(reports)
    decreases |ready|
  {
    hide Match;
    if ready == [] {
      assert s.log + Entries([]) == s.log;
    } else {
      var s1 := s.(now := Later(s.now, ready[0].due));
      MatchLog(s1, ready[0].item);
      var m := Match(s1, ready[0].item);
      MatchAllLog(m.0, ready[1..]);
      EntriesAppend(m.1, MatchAll(m.0, ready[1..]).1);
      assert s.log + (Entries(m.1) + Entries(MatchAll(m.0, ready[1..]).1))
          == (s.log + Entries(m.1)) + Entries(MatchAll(m.0, ready[1..]).1);
    }
  }

  /** Orders in flight stay in flight or are matched; nothing joins them, and no
      account is opened or ended. */
  lemma {:induction false} DrainAccounts(s: State, upto: nat, latency: Latency, id: nat)
    ensures var s' := DrainSubmits(s, upto, latency);
            && Origin(s'.log, id) == Origin(s.log, id)
            && forall o :: o in Items(s'.submits.waiting) ==> o in Items(s.submits.waiting)
  {
    hide MatchAll, Schedule, StableSort, DueCount, Served, Items;
    var s0, ready := s.(submits := Serve(s.submits, upto, s.now)), Ready(s.submits, upto);
    MatchAllLegs(s0, ready);
    MatchAllLog(s0, ready);
    var m := MatchAll(s0, ready);
    ScheduleOnlyFills(m.0, m.1, latency);
    OriginOfReports(s.log, m.1, id);
    var sorted := StableSort(s.submits.waiting);
    var n := DueCount(sorted, upto);
    SortItems(s.submits.waiting);
    assert sorted == sorted[..n] + sorted[n..];
    ItemsAppend(sorted[..n], sorted[n..]);
    forall o | o in Items(sorted[n..]) ensures o in Items(s.submits.waiting) {
      assert o in Items(sorted) && o in multiset(Items(sorted));
    }
  }

  lemma {:induction false} CancelAccounts(s: State, exchange: string, symbol: string, id: nat, other: nat)
    ensures var s' := Cancel(s, exchange, symbol, other).0;
            && (s' == s || Origin(s'.log, id) == if other == id then None else Origin(s.log, id))
            && forall o :: o in Items(s'.submits.waiting) ==> o in Items(s.submits.waiting)
  {
    hide Items, Origin;
    LogSnoc(s.log, Withdrawn(other), id);
    var w, j := s.submits.waiting, IndexOfSubmit(s.submits.waiting, exchange, symbol, other);
    if j < |w| { DropItems(w, j); }
  }

  /** The account of a resting order, after one step: no order under its id is
      in flight, and its terms are as they were, or it is cancelled. */
  lemma {:induction false} StepAccounts(s: State, input: Input, latency: Latency, id: nat)
    requires Sound(s) && Valid(s, input) && id !in Ids(Items(s.submits.waiting))
    requires exists key: string :: id in Ids(OrdersAt(s, key))
    ensures var s' := Step(s, input, latency);
            && id !in Ids(Items(s'.submits.waiting))
            && (Origin(s'.log, id) == Origin(s.log, id) || Origin(s'.log, id) == None)
  {
    hide Inv, DrainSubmits, TakeSnapshot, TakePrint, Schedule, Serve, Cancel, Origin, Items;
    match input
    case SnapshotIn(book) =>
      DrainAccounts(s, book.ts, latency, id);
      var s0 := DrainSubmits(s, book.ts, latency);
      SnapshotLegs(s0, book);
      SnapshotLog(s0, book);
      var (s1, reports) := TakeSnapshot(s0, book);
      OriginOfReports(s0.log, reports, id);
      ScheduleOnlyFills(s1, reports, latency);
    case TradeIn(t) =>
      DrainAccounts(s, t.ts, latency, id);
      var s0 := DrainSubmits(s, t.ts, latency);
      PrintLegs(s0, t);
      PrintLog(s0, t);
      var (s1, reports) := TakePrint(s0, t);
      OriginOfReports(s0.log, reports, id);
      ScheduleOnlyFills(s1, reports, latency);
    case SubmitIn(order) =>
      if !Refused(s, order) {
        var s1 := Accept(s, Stamped(s, order), latency);
        DrainAccounts(s1, s.now, latency, id);
        LogSnoc(s.log, Accepted(Stamped(s, order)), id);
        ItemsAppend(s.submits.waiting, [s1.submits.waiting[|s.submits.waiting|]]);
        OneItem(s1.submits.waiting[|s.submits.waiting|]);
      }
    case CancelIn(exchange, symbol, other) =>
      CancelAccounts(s, exchange, symbol, id, other);
  }

  lemma {:induction false} OneItem<T>(e: Timed<T>)
    ensures Items([e]) == [e.item]
  {
    assert [e][1..] == [];
  }

  lemma {:induction false} NotInFlight(s: State, key: string, x: Order)
    requires Sound(s) && x in OrdersAt(s, key)
    ensures x.id !in Ids(Items(s.submits.waiting)) && x.id in Ids(OrdersAt(s, key))
  {
    hide LevelOk, Accounted, NoneLost, AllOrdersOk, BooksDisjoint;
    assert Ids(Items(s.submits.waiting)) !! Ids(OrdersAt(s, key));
  }

  /** The resting order under this id is the one that rested before. */
  lemma {:induction false} SameOwner(s: State, input: Input, latency: Latency, level: Level, x: Order, y: Order)
    requires Sound(s) && Valid(s, input) && x in OrdersAt(s, level.key) && Rests(x, level.side, level.price)
    requires y in OrdersAt(Step(s, input, latency), level.key) && y.id == x.id
    ensures y.seeded
  {
    hide LevelOk, Step, Valid, Accounted, FlightOk, NoneLost, BooksDisjoint;
    StepSeeds(s, input, latency, level.key);
    var orders := OrdersAt(s, level.key);
    assert SeededRight(orders, level.key in s.books, y) && OrdersOk(level.key, orders);
    var z :| z in orders && Same(z, y);
    var i :| 0 <= i < |orders| && orders[i] == x;
    var j :| 0 <= j < |orders| && orders[j] == z;
    assert i == j by { if i < j {} else if j < i {} }
  }

  /** The terms of a resting order are those of its account. */
  lemma {:induction false} TermsOf(s: State, key: string, x: Order)
    requires Sound(s) && x in OrdersAt(s, key)
    ensures Origin(s.log, x.id).Some?
    ensures var org := Origin(s.log, x.id).value; org.side == x.side && org.price == x.price && KeyOf(org) == key
  {
    hide LevelOk, FlightOk, NoneLost, BooksDisjoint;
    var orders := OrdersAt(s, key);
    var i :| 0 <= i < |orders| && orders[i] == x;
    assert AllTracked(s.log, orders) && OrdersOk(key, orders);
    assert Tracks(s.log, orders[i]);
  }

  /** A slot goes only when its order is done: filled to within dust, or
      cancelled. */
  lemma {:induction false} LeavesWhenDone(s: State, input: Input, latency: Latency, level: Level, id: nat)
    requires Sound(s) && Valid(s, input) && Owns(QueueAt(s, level), id)
    requires !Owns(QueueAt(Step(s, input, latency), level), id)
    ensures !Open(Step(s, input, latency).log, id)
  {
    hide Inv, Valid, Step, Open, Owns;
    var s' := Step(s, input, latency);
    var x := OwnerRests(s, level, id);
    NotInFlight(s, level.key, x);
    StepKeeps(s, input, latency);
    StepAccounts(s, input, latency, id);
    if Open(s'.log, id) {
      HeldWhileOpen(s', id);
      var key: string :| id in Ids(OrdersAt(s', key));
      var y :| y in OrdersAt(s', key) && y.id == id;
      TermsOf(s, level.key, x);
      TermsOf(s', key, y);
      SameOwner(s, input, latency, level, x, y);
      RestingOwns(s', level, y);
    }
  }

  // --- Whole runs -----------------------------------------------------------------------------------

  /** At some state of the run the account of `id` is done: filled to within
      dust, or cancelled. */
  ghost predicate DoneIn(s: State, inputs: seq<Input>, latency: Latency, id: nat)
    decreases |inputs|
  {
    !Open(s.log, id) || (inputs != [] && DoneIn(Step(s, inputs[0], latency), inputs[1..], latency, id))
  }

  /** Matching what is due and then taking the print. */
  lemma {:induction false} PrintStepInTurn(s: State, t: Trade, latency: Latency, id: nat, other: nat)
    requires Sound(s) && InFront(QueueAt(s, PrintLevel(t)), id, other) && id != other
    requires Owns(QueueAt(s, PrintLevel(t)), id) && Owns(QueueAt(s, PrintLevel(t)), other)
    ensures ClosedBefore(TakePrint(DrainSubmits(s, t.ts, latency), t).1, id, other)
  {
    hide Inv, InFront, ClosedBefore, TakePrint, DrainSubmits, Owns, Advances, OwnersDistinct, NoneInFlight;
    var level, s0 := PrintLevel(t), DrainSubmits(s, t.ts, latency);
    assert AreOwnersAt(s, level, {id, other});
    OwnersNotInFlight(s, level, {id, other});
    DrainSubmitsAdvances(s, t.ts, latency, level, {id, other});
    DrainSubmitsKeeps(s, t.ts, latency);
    DrainKeepsOwner(s, t.ts, latency, level, id);
    DrainKeepsOwner(s, t.ts, latency, level, other);
    AdvancesInFront(QueueAt(s, level), QueueAt(s0, level), {id, other}, id, other);
    TradeInTurn(s0, t, id, other);
  }

  /** Time priority over any run: take two orders queued at one level and any
      inputs during which the one behind keeps its place. A print after them
      fills the one behind only if the one in front is done before, or is closed
      by that print first. */
  lemma {:induction false} FilledInTurn(s: State, inputs: seq<Input>, latency: Latency, t: Trade, id: nat, other: nat)
    requires Sound(s) && ValidRun(s, inputs, latency) && id != other
    requires InFront(QueueAt(s, PrintLevel(t)), id, other) && Owns(QueueAt(s, PrintLevel(t)), id)
    requires RestsThroughout(s, inputs, latency, PrintLevel(t), other)
    ensures DoneIn(s, inputs, latency, id)
            || ClosedBefore(TakePrint(DrainSubmits(Run(s, inputs, latency), t.ts, latency), t).1, id, other)
    decreases |inputs|
  {
    hide Inv, InFront, ClosedBefore, TakePrint, DrainSubmits, Owns, Step, Valid, Advances, OwnersDistinct, Open;
    var level := PrintLevel(t);
    if inputs == [] {
      PrintStepInTurn(s, t, latency, id, other);
    } else {
      var s1 := Step(s, inputs[0], latency);
      StepKeeps(s, inputs[0], latency);
      if Owns(QueueAt(s1, level), id) {
        SoundLevel(s, level, {id, other});
        StepAdvances(s, inputs[0], latency, level, {id, other});
        AdvancesInFront(QueueAt(s, level), QueueAt(s1, level), {id, other}, id, other);
        FilledInTurn(s1, inputs[1..], latency, t, id, other);
      } else {
        LeavesWhenDone(s, inputs[0], latency, level, id);
        DoneNext(s, inputs, latency, id);
      }
    }
  }

  lemma {:induction false} DoneNext(s: State, inputs: seq<Input>, latency: Latency, id: nat)
    requires inputs != [] && !Open(Step(s, inputs[0], latency).log, id)
    ensures DoneIn(s, inputs, latency, id)
  {
    hide Open, Step;
    assert DoneIn(Step(s, inputs[0], latency), inputs[1..], latency, id);
  }
}
