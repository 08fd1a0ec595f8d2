/** A print as one step of the engine: which level it eats, what every slot
    there loses, who is reported, and what stays as it was. */
module EnginePrints {
  import opened Orders
  import opened SlotQueues
  import opened PrintMatching
  import opened FillAccounts
  import opened LatencyLegs
  import opened EngineModel
  import opened EngineInvariants
  import opened EngineSteps
  import opened EngineRuns
  import opened EngineSchedule
  import opened EnginePriority
  import opened EngineSeeding
  import opened EngineTurns

  /** A buyer's print eats the asks at its price, a seller's the bids. */
  function Eats(t: Trade): Level {
    match t.taker
    case Buy => Level(Key(t.exchange, t.symbol), Sell, t.price)
    case Sell => Level(Key(t.exchange, t.symbol), Buy, t.price)
  }

  /** `after` is `before` after a print of `t`, which made these reports. At the
      level it eats, every slot has lost max(0, min(its size, the print less what
      is queued ahead of it)), apart from the dust of at most one slot; the
      reports are exactly the own slots reached, in queue order, each with what
      it lost. No other level and no other book changes. */
  ghost predicate Printed(before: State, after: State, t: Trade, reports: seq<Report>) {
    && LeftOver(QueueAt(before, Eats(t)), QueueAt(after, Eats(t)), t.quantity)
    && ReportClaims(reports) == OwnEaten(QueueAt(before, Eats(t)), 0.0, t.quantity)
    && (forall level: Level :: level != Eats(t) ==> QueueAt(after, level) == QueueAt(before, level))
    && (forall key: string :: key != Eats(t).key ==> OrdersAt(after, key) == OrdersAt(before, key))
    && FilledIn(after.log) == FilledIn(before.log) + reports
    && after.books == before.books && after.now == t.ts
  }

  lemma {:induction false} TakePrintEats(s: State, flight: seq<Order>, t: Trade)
    requires Inv(s, flight)
    ensures Printed(s, TakePrint(s, t).0, t, TakePrint(s, t).1)
  {
    hide LeftOver, Consume, OwnEaten, DropDone, ReportClaims, FilledIn, AcceptedIn, Own, Resting, Ids;
    hide Accounted, NoneLost, FlightOk, BooksDisjoint, StampedAt;
    var level, q := Eats(t), QueueAt(s, Eats(t));
    var orders := OrdersAt(s, level.key);
    assert LevelOk(s, level) && OrdersOk(level.key, orders);
    PrintReportsLogged(s, t);
    if q == [] {
      NothingThere(t.quantity);
    } else {
      PrintClosedForm(q, orders, t.quantity, t.ts);
      PrintReports(q, orders, t.quantity, t.ts, level.side, level.price);
    }
  }

  lemma {:induction false} NothingThere(size: real)
    ensures LeftOver([], [], size) && ReportClaims([]) == OwnEaten([], 0.0, size)
  {
  }

  lemma {:induction false} PrintedThen(s: State, after: State, t: Trade, reports: seq<Report>, latency: Latency)
    requires Printed(s, after, t, reports)
    ensures Printed(s, DrainFills(Schedule(after, reports, latency), t.ts), t, reports)
  {
    hide LeftOver, OwnEaten, ReportClaims, FilledIn, Schedule;
    ScheduleOnlyFills(after, reports, latency);
  }

  /** A print, of either aggressor, in any reachable state: what is due is
      matched first, then the print eats. */
  lemma {:induction false} PrintStep(s: State, t: Trade, latency: Latency)
    requires Sound(s)
    ensures exists reports :: Printed(DrainSubmits(s, t.ts, latency), Step(s, TradeIn(t), latency), t, reports)
  {
    hide Inv, Printed, DrainSubmits, TakePrint, Schedule, DrainFills;
    var s0 := DrainSubmits(s, t.ts, latency);
    DrainSubmitsKeeps(s, t.ts, latency);
    TakePrintEats(s0, Items(s0.submits.waiting), t);
    var (s1, reports) := TakePrint(s0, t);
    PrintedThen(s0, s1, t, reports, latency);
    assert Step(s, TradeIn(t), latency) == DrainFills(Schedule(s1, reports, latency), t.ts);
  }

  // --- One order ------------------------------------------------------------------------------

  lemma {:induction false} NoClaim(q: seq<Slot>, ahead: real, size: real, id: nat)
    requires !Owns(q, id)
    ensures forall c :: c in OwnEaten(q, ahead, size) ==> c.id != id
  {
    if q != [] {
      OwnsCons(q, id);
      NoClaim(q[1..], ahead + q[0].qty, size, id);
    }
  }

  lemma {:induction false} OwnerUnique(q: seq<Slot>, i: nat, j: nat, id: nat)
    requires OwnersDistinct(q) && i < |q| && j < |q| && q[i].owner == Some(id) == q[j].owner
    ensures i == j
  {
  }

  /** The own slot of an order: reached iff the print is larger than what is
      ahead of it, and then it loses what reaches it. */
  lemma {:induction false} ClaimOf(q: seq<Slot>, ahead: real, size: real, id: nat, k: nat)
    requires Positive(q) && OwnersDistinct(q) && k < |q| && q[k].owner == Some(id)
    ensures var reach := size - ahead - AheadOfOrder(q, id);
            && ((exists c :: c in OwnEaten(q, ahead, size) && c.id == id) <==> reach > 0.0)
            && (forall c :: c in OwnEaten(q, ahead, size) && c.id == id ==> c.qty == Min(q[k].qty, reach))
  {
    hide OwnersDistinct, OwnEaten, Clip;
    OwnsTail(q, id);
    OwnEatenCons(q, ahead, size);
    var rest := OwnEaten(q[1..], ahead + q[0].qty, size);
    if q[0].owner == Some(id) {
      OwnerUnique(q, 0, k, id);
      NoClaim(q[1..], ahead + q[0].qty, size, id);
      ClipIs(q[0].qty, size - ahead);
      var c := Claim(id, Clip(q[0].qty, size - ahead));
      assert size > ahead ==> c in OwnEaten(q, ahead, size) && c.id == id;
    } else {
      ClaimOf(q[1..], ahead + q[0].qty, size, id, k - 1);
    }
  }

  lemma {:induction false} OwnEatenCons(q: seq<Slot>, ahead: real, size: real)
    requires q != []
    ensures var eaten := Clip(q[0].qty, size - ahead);
            var rest := OwnEaten(q[1..], ahead + q[0].qty, size);
            forall c :: c in OwnEaten(q, ahead, size)
                        <==> c in rest || (q[0].owner.Some? && eaten > 0.0 && c == Claim(q[0].owner.value, eaten))
  {
    hide Clip;
    var eaten := Clip(q[0].qty, size - ahead);
    var rest := OwnEaten(q[1..], ahead + q[0].qty, size);
    assert OwnEaten(q, ahead, size)
        == (if q[0].owner.Some? && eaten > 0.0 then [Claim(q[0].owner.value, eaten)] else []) + rest;
  }

  lemma {:induction false} ClipIs(qty: real, x: real)
    requires qty > 0.0
    ensures Clip(qty, x) > 0.0 <==> x > 0.0
    ensures x > 0.0 ==> Clip(qty, x) == Min(qty, x)
  {
  }

  /** The print reports `x` iff it reaches past what is ahead of it, and then with
      what reaches it, at most all that `x` has left. */
  ghost predicate Reached(reports: seq<Report>, x: Order, reach: real) {
    && ((exists r :: r in reports && r.orderId == x.id) <==> reach > 0.0)
    && forall r :: r in reports && r.orderId == x.id ==> r.lastQty == Min(Remaining(x), reach)
  }

  lemma {:induction false} ClaimsOfReports(reports: seq<Report>)
    ensures |ReportClaims(reports)| == |reports|
    ensures forall i :: 0 <= i < |reports| ==> ReportClaims(reports)[i] == Claim(reports[i].orderId, reports[i].lastQty)
  {
    if reports != [] { ClaimsOfReports(reports[1..]); }
  }

  lemma {:induction false} ReachedByClaims(q: seq<Slot>, reports: seq<Report>, size: real, x: Order, k: nat)
    requires Positive(q) && OwnersDistinct(q) && k < |q| && q[k] == Slot(Remaining(x), Some(x.id))
    requires ReportClaims(reports) == OwnEaten(q, 0.0, size)
    ensures Reached(reports, x, size - AheadOfOrder(q, x.id))
  {
    hide Positive, OwnersDistinct, AheadOfOrder, OwnEaten, ReportClaims;
    ClaimOf(q, 0.0, size, x.id, k);
    ClaimsOfReports(reports);
    var claims := OwnEaten(q, 0.0, size);
    forall r | r in reports ensures Claim(r.orderId, r.lastQty) in claims {
      var i :| 0 <= i < |reports| && reports[i] == r;
      assert claims[i] == Claim(r.orderId, r.lastQty);
    }
    forall c | c in claims ensures exists r :: r in reports && r.orderId == c.id {
      var i :| 0 <= i < |claims| && claims[i] == c;
      assert reports[i] in reports;
    }
  }

  /** A resting order and a print at its price by the other side, in any reachable
      state. The order is reported iff the print is larger than what is queued
      ahead of it, with what reaches it; and what is due before the print adds
      nothing ahead of it. */
  lemma {:induction false} PrintReaches(s: State, t: Trade, latency: Latency, x: Order)
    requires Sound(s) && x in OrdersAt(s, Eats(t).key) && Rests(x, Eats(t).side, t.price)
    ensures var s0 := DrainSubmits(s, t.ts, latency);
            var ahead := AheadOfOrder(QueueAt(s0, Eats(t)), x.id);
            && ahead <= AheadOfOrder(QueueAt(s, Eats(t)), x.id)
            && exists reports :: Printed(s0, Step(s, TradeIn(t), latency), t, reports)
                                 && Reached(reports, x, t.quantity - ahead)
  {
    hide Inv, DrainSubmits, AheadOfOrder, Reached, Step, AllSeededRight, Advances, Owns, OwnersDistinct, Positive;
    hide NoneInFlight, LeftOver, OwnEaten, ReportClaims, FilledIn;
    var s0, level := DrainSubmits(s, t.ts, latency), Eats(t);
    RestingOwns(s, level, x);
    SoundLevel(s, level, {x.id});
    OwnersNotInFlight(s, level, {x.id});
    DrainSubmitsAdvances(s, t.ts, latency, level, {x.id});
    DrainSubmitsKeeps(s, t.ts, latency);
    DrainRight(s, t.ts, latency, level.key);
    RestingOwns(s0, level, x);
    AdvancesAhead(QueueAt(s, level), QueueAt(s0, level), {x.id}, x.id);
    SoundLevel(s0, level, {x.id});
    PrintStep(s, t, latency);
    var reports :| Printed(s0, Step(s, TradeIn(t), latency), t, reports);
    var k := SlotOf(s0, level, x);
    ReachedByClaims(QueueAt(s0, level), reports, t.quantity, x, k);
  }

  lemma {:induction false} SlotOf(s: State, level: Level, x: Order) returns (k: nat)
    requires Sound(s) && x in OrdersAt(s, level.key) && Rests(x, level.side, level.price)
    ensures k < |QueueAt(s, level)| && QueueAt(s, level)[k] == Slot(Remaining(x), Some(x.id))
  {
    hide Inv;
    var orders := OrdersAt(s, level.key);
    var i :| 0 <= i < |orders| && orders[i] == x;
    OrderHasSlot(s, level.key, i);
    k :| 0 <= k < |QueueAt(s, level)| && QueueAt(s, level)[k] == Slot(Remaining(x), Some(x.id));
  }
}
