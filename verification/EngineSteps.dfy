/** Every step of the engine keeps the invariant of EngineInvariants.dfy. */
module EngineSteps {
  import opened Orders
  import opened SlotQueues
  import opened CancelSpread
  import opened PrintMatching
  import opened FillAccounts
  import opened BookWalk
  import opened LatencyLegs
  import opened EngineModel
  import opened EngineInvariants

  // --- Matching one order ------------------------------------------------------------

  /** The ids a step on behalf of `o` may touch are nobody else's. */
  lemma {:induction false} UsedByOrder(s: State, o: Order, rest: seq<Order>)
    requires Inv(s, [o] + rest)
    ensures var used := Ids(OrdersAt(s, KeyOf(o))) + {o.id};
            && (forall other: string :: other != KeyOf(o) ==> used !! Ids(OrdersAt(s, other)))
            && used !! Ids(rest)
            && DistinctIds(rest)
    ensures Remaining(o) > EPS && !o.seeded && Untried(s.log, o)
    ensures forall key: string :: o.id !in Ids(OrdersAt(s, key))
  {
    var flight := [o] + rest;
    assert flight[0] == o && flight[1..] == rest;
    assert o in flight;
    assert o.id in Ids(flight);
    forall i | 0 <= i < |rest| ensures rest[i] == flight[i + 1] && rest[i].id != o.id && rest[i].id in Ids(flight) {
      assert flight[i + 1] in flight;
    }
    assert Ids(rest) <= Ids(flight);
    assert o.id !in Ids(rest);
    assert Ids(flight) !! Ids(OrdersAt(s, KeyOf(o)));
    forall key: string ensures o.id !in Ids(OrdersAt(s, key)) {
      assert Ids(flight) !! Ids(OrdersAt(s, key));
    }
  }

  /** An order that leaves without resting. */
  lemma {:induction false} LeaveKeeps(s: State, o: Order, rest: seq<Order>, log: seq<Entry>)
    requires Inv(s, [o] + rest) && AccountsOk(log) && OthersSame(s.log, log, {o.id}) && !Open(log, o.id)
    ensures Inv(s.(log := log), rest)
  {
    hide OrdersOk, Own, Resting, AccountsOk, Untried, Tracks, Open, Held;
    var key := KeyOf(o);
    var s' := s.(log := log);
    var used := Ids(OrdersAt(s, key)) + {o.id};
    UsedByOrder(s, o, rest);
    OthersSameWiden(s.log, log, {o.id}, used);
    OrderNotAmong(s, o);
    AllTrackedElsewhere(s.log, log, {o.id}, OrdersAt(s, key));
    assert forall level: Level :: level.key == key ==> LevelOk(s, level) ==> LevelOk(s', level);
    assert OrdersOk(key, OrdersAt(s, key));
    FlightIds(o, rest);
    forall id | id in used && Open(log, id) ensures Held(s', rest, id) {
      TrackedHeld(s', key, rest, id);
    }
    Rebuild(s, s', key, [o] + rest, rest, used);
  }

  lemma {:induction false} FlightIds(o: Order, rest: seq<Order>)
    ensures Ids([o] + rest) == {o.id} + Ids(rest)
  {
    assert forall x :: x in [o] + rest <==> x == o || x in rest;
  }

  lemma {:induction false} OrderNotAmong(s: State, o: Order)
    requires forall key: string :: o.id !in Ids(OrdersAt(s, key))
    requires forall key: string :: AllTracked(s.log, OrdersAt(s, key))
    ensures AllTracked(s.log, OrdersAt(s, KeyOf(o)))
    ensures forall i :: 0 <= i < |OrdersAt(s, KeyOf(o))| ==> OrdersAt(s, KeyOf(o))[i].id !in {o.id}
  {
    var orders := OrdersAt(s, KeyOf(o));
    forall i | 0 <= i < |orders| ensures orders[i].id != o.id {
      assert orders[i].id in Ids(orders);
    }
  }

  /** The list of a book with one more order. */
  lemma {:induction false} AppendOrder(orders: seq<Order>, o: Order, key: string, log: seq<Entry>)
    requires OrdersOk(key, orders) && AllTracked(log, orders) && Tracks(log, o)
    requires KeyOf(o) == key && Remaining(o) > EPS && o.kind != Market && o.id !in Ids(orders)
    ensures OrdersOk(key, orders + [o]) && AllTracked(log, orders + [o])
    ensures Ids(orders + [o]) == Ids(orders) + {o.id}
  {
    var all := orders + [o];
    forall i | 0 <= i < |orders| ensures orders[i].id != o.id { assert orders[i].id in Ids(orders); }
    assert forall x :: x in all <==> x in orders || x == o;
  }

  lemma {:induction false} UnseededKeeps(s: State, o: Order, rest: seq<Order>)
    requires Inv(s, [o] + rest) && o.kind != Market
    ensures Inv(RestUnseeded(s, o), rest)
  {
    hide OrdersOk, Own, AccountsOk, AllTracked, Ids, Open, Held;
    var key := KeyOf(o);
    var s' := RestUnseeded(s, o);
    var orders := OrdersAt(s, key);
    var used := Ids(orders) + {o.id};
    UsedByOrder(s, o, rest);
    assert OrdersOk(key, orders) && AllTracked(s.log, orders);
    assert Tracks(s.log, o);
    AppendOrder(orders, o, key, s.log);
    assert OrdersAt(s', key) == orders + [o];
    SameLog(s.log, used);
    forall level: Level | level.key == key ensures LevelOk(s', level) {
      assert LevelOk(s, level);
      assert QueueAt(s', level) == QueueAt(s, level);
      RestingAppend(orders, [o], level.side, level.price);
    }
    FlightIds(o, rest);
    forall id | id in used && Open(s.log, id) ensures Held(s', rest, id) {
      TrackedHeld(s', key, rest, id);
    }
    Rebuild(s, s', key, [o] + rest, rest, used);
  }

  lemma {:induction false} JoinedOwn(q: seq<Slot>, venue: real, id: nat, remaining: real)
    requires Positive(q) && remaining > 0.0
    ensures Own(Joined(q, venue, id, remaining)) == Own(q) + [Claim(id, remaining)]
    ensures Positive(Joined(q, venue, id, remaining))
  {
    var base := if venue > 0.0 && !HasVenue(q) then q + [Slot(venue, None)] else q;
    OwnAppend(q, [Slot(venue, None)]);
    OwnAppend(base, [Slot(remaining, Some(id))]);
    assert Own([Slot(remaining, Some(id))]) == [Claim(id, remaining)];
    assert Own([Slot(venue, None)]) == [];
  }

  /** One level of the book an order is placed in. */
  lemma {:induction false} PlacedLevel(s: State, s': State, o: Order, book: Book, level: Level)
    requires LevelOk(s, level) && level.key == KeyOf(o) && Remaining(o) > EPS && o.kind != Market
    requires OrdersAt(s', level.key) == OrdersAt(s, level.key) + [o.(seeded := true)]
    requires QueueAt(s', level) ==
             if level == LevelOf(o) then
               Joined(QueueAt(s, level), SizeAt(NearSide(book, o.side), o.price), o.id, Remaining(o))
             else QueueAt(s, level)
    ensures LevelOk(s', level)
  {
    hide Own, Resting, Joined, Positive;
    RestingAppend(OrdersAt(s, level.key), [o.(seeded := true)], level.side, level.price);
    RestingOne(o.(seeded := true), level.side, level.price);
    if level == LevelOf(o) {
      JoinedOwn(QueueAt(s, level), SizeAt(NearSide(book, o.side), o.price), o.id, Remaining(o));
    }
  }

  /** `o` has been matched down to `o'` and now takes a slot. */
  lemma {:induction false} SeededKeeps(s: State, o: Order, rest: seq<Order>, o': Order, book: Book, log: seq<Entry>)
    requires Inv(s, [o] + rest) && o.kind != Market
    requires AccountsOk(log) && OthersSame(s.log, log, {o.id}) && Tracks(log, o')
    requires o' == o.(filled := o'.filled) && Remaining(o') > EPS
    ensures Inv(RestSeeded(s.(log := log), o', book), rest)
  {
    hide OrdersOk, LevelOk, AccountsOk, AllTracked, Ids, Joined, Open, Held;
    var key := KeyOf(o);
    var s' := RestSeeded(s.(log := log), o', book);
    var orders := OrdersAt(s, key);
    var used := Ids(orders) + {o.id};
    UsedByOrder(s, o, rest);
    OthersSameWiden(s.log, log, {o.id}, used);
    OrderNotAmong(s, o);
    AllTrackedElsewhere(s.log, log, {o.id}, orders);
    assert OrdersOk(key, orders);
    var placed := o'.(seeded := true);
    assert Tracks(log, placed);
    AppendOrder(orders, placed, key, log);
    assert OrdersAt(s', key) == orders + [placed];
    forall level: Level | level.key == key ensures LevelOk(s', level) {
      assert LevelOk(s, level);
      PlacedLevel(s, s', o', book, level);
    }
    FlightIds(o, rest);
    forall id | id in used && Open(log, id) ensures Held(s', rest, id) {
      TrackedHeld(s', key, rest, id);
    }
    Rebuild(s, s', key, [o] + rest, rest, used);
  }

  lemma {:induction false} RestingOne(o: Order, side: Side, price: int)
    ensures Resting([o], side, price) == if Rests(o, side, price) then [Claim(o.id, Remaining(o))] else []
  {
    assert [o][1..] == [];
  }

  lemma {:induction false} CrossKeeps(o: Order, book: Book, now: nat)
    ensures var o' := Cross(o, book, now).0; o' == o.(filled := o'.filled)
  {
    hide Crosses, Acceptable;
    WalkKeepsTerms(o, FarSide(book, o.side), None, now);
    WalkKeepsTerms(o, FarSide(book, o.side), Some(o.price), now);
  }

  lemma {:induction false} CrossSteps(o: Order, book: Book, now: nat)
    requires Remaining(o) > EPS
    ensures var (o', reports) := Cross(o, book, now);
            Steps(o, reports, o') && o' == o.(filled := o'.filled) && AllTakers(reports)
  {
    CrossKeeps(o, book, now);
    if o.kind == Market {
      WalkSteps(o, FarSide(book, o.side), None, now);
    } else if o.kind == Limit && Crosses(book, o.side, o.price) {
      WalkSteps(o, FarSide(book, o.side), Some(o.price), now);
    }
  }

  lemma {:induction false} MatchKeeps(s: State, o: Order, rest: seq<Order>)
    requires Inv(s, [o] + rest)
    ensures Inv(Match(s, o).0, rest)
  {
    hide Inv, Cross, Steps, Tracks, AccountsOk, RestSeeded, RestUnseeded, OthersSame, Open;
    InFlight(s, o, rest);
    if KeyOf(o) !in s.books {
      if o.kind == Market {
        SameLog(s.log, {o.id});
        MarketNotOpen(s.log, o);
        LeaveKeeps(s, o, rest, s.log);
        assert s.(log := s.log) == s;
      } else {
        UnseededKeeps(s, o, rest);
      }
    } else {
      var book := s.books[KeyOf(o)];
      var (o', reports) := Cross(o, book, s.now);
      CrossSteps(o, book, s.now);
      EmitSteps(s.log, o, reports, o');
      var log := s.log + Entries(reports);
      if o.kind != Market && Remaining(o') > EPS {
        SeededKeeps(s, o, rest, o', book, log);
      } else {
        if o.kind == Market { MarketNotOpen(log, o'); } else { TrackedOpen(log, o'); }
        LeaveKeeps(s, o, rest, log);
      }
    }
  }

  lemma {:induction false} MarketNotOpen(log: seq<Entry>, o: Order)
    requires Tracks(log, o) && o.kind == Market
    ensures !Open(log, o.id)
  {
  }

  lemma {:induction false} InFlight(s: State, o: Order, rest: seq<Order>)
    requires Inv(s, [o] + rest)
    ensures Remaining(o) > EPS && AccountsOk(s.log) && Tracks(s.log, o) && Fills(s.log, o.id) == []
  {
    var flight := [o] + rest;
    assert flight[0] == o;
    assert Untried(s.log, flight[0]);
  }

  // --- Snapshots -----------------------------------------------------------------------

  lemma {:induction false} ReconciledKeeps(q: seq<Slot>, observed: real)
    requires Positive(q) && observed > 0.0
    ensures Own(Reconciled(q, observed)) == Own(q) && Positive(Reconciled(q, observed))
  {
    var delta := observed - VenueTotal(q);
    if delta > EPS {
      OwnAppend(q, [Slot(delta, None)]);
      assert Own([Slot(delta, None)]) == [];
    } else if delta < -EPS {
      DistributeKeeps(q, -delta);
    }
  }

  /** Where reconciliation leaves the venue part of a queue: on growth at the
      displayed size; on shrinkage at the displayed size or above it by the
      cancels that found no slot - dust, or at most half of the shrinkage -
      apart from dust dropped. */
  lemma {:induction false} ReconciledVenue(q: seq<Slot>, observed: real)
    requires Positive(q) && observed > 0.0
    ensures var before, after := VenueTotal(q), VenueTotal(Reconciled(q, observed));
            && (observed - before > EPS ==> after == observed)
            && (-EPS <= observed - before <= EPS ==> after == before)
            && (before - observed > EPS ==>
                  && observed - |q| as real * EPS <= after
                  && (after <= observed + EPS || after <= observed + (before - observed) / 2.0))
  {
    var delta := observed - VenueTotal(q);
    if delta > EPS {
      TotalAppend(q, [Slot(delta, None)]);
      assert [Slot(delta, None)][1..] == [];
    } else if delta < -EPS {
      SpreadBounds(q, -delta);
      var r := Spread(q, -delta).0;
      assert NonNegative(r);
      DropDustLoses(r);
    }
  }

  /** The ids resting in one book rest in no other and are not in flight. */
  lemma {:induction false} UsedByBook(s: State, flight: seq<Order>, key: string)
    requires Inv(s, flight)
    ensures var used := Ids(OrdersAt(s, key));
            && (forall other: string :: other != key ==> used !! Ids(OrdersAt(s, other)))
            && used !! Ids(flight)
            && DistinctIds(flight)
  {
  }

  lemma {:induction false} QuoteKeeps(s: State, flight: seq<Order>, key: string, side: Side, quote: Quote)
    requires Inv(s, flight)
    ensures Inv(ReconcileQuote(s, key, side, quote), flight)
  {
    hide OrdersOk, Own, Positive, AccountsOk, AllTracked, Ids, Reconciled, Open, Held;
    if quote.px > 0 && quote.sz > 0.0 {
      var s' := ReconcileQuote(s, key, side, quote);
      var orders := OrdersAt(s, key);
      UsedByBook(s, flight, key);
      SameLog(s.log, Ids(orders));
      assert OrdersOk(key, orders) && AllTracked(s.log, orders);
      forall level: Level | level.key == key ensures LevelOk(s', level) {
        assert LevelOk(s, level);
        ReconciledKeeps(QueueAt(s, level), quote.sz);
      }
      forall id | id in Ids(orders) && Open(s.log, id) ensures Held(s', flight, id) {
        TrackedHeld(s', key, flight, id);
      }
      Rebuild(s, s', key, flight, flight, Ids(orders));
    }
  }

  lemma {:induction false} ReconcileKeeps(s: State, flight: seq<Order>, key: string, book: Book, lvl: nat)
    requires Inv(s, flight) && lvl <= BOOK_DEPTH
    ensures Inv(ReconcileFrom(s, key, book, lvl), flight)
    decreases BOOK_DEPTH - lvl
  {
    hide Inv, ReconcileQuote;
    if lvl < BOOK_DEPTH {
      var s1 := ReconcileQuote(s, key, Buy, book.bids[lvl]);
      var s2 := ReconcileQuote(s1, key, Sell, book.asks[lvl]);
      QuoteKeeps(s, flight, key, Buy, book.bids[lvl]);
      QuoteKeeps(s1, flight, key, Sell, book.asks[lvl]);
      ReconcileKeeps(s2, flight, key, book, lvl + 1);
    }
  }

  lemma {:induction false} SublistIds(a: seq<Order>, b: seq<Order>)
    requires Sublist(a, b)
    ensures Ids(a) <= Ids(b)
  {
    forall id | id in Ids(a) ensures id in Ids(b) {
      var o :| o in a && o.id == id;
      SublistMembers(a, b, o);
    }
  }

  lemma {:induction false} SublistOk(a: seq<Order>, b: seq<Order>, key: string)
    requires Sublist(a, b) && OrdersOk(key, b)
    ensures OrdersOk(key, a)
  {
    SublistDistinct(a, b);
    forall i | 0 <= i < |a| ensures KeyOf(a[i]) == key && Remaining(a[i]) > EPS && a[i].kind != Market {
      SublistMembers(a, b, a[i]);
      var j :| 0 <= j < |b| && b[j] == a[i];
    }
  }

  lemma {:induction false} SublistTracked(a: seq<Order>, b: seq<Order>, log: seq<Entry>)
    requires Sublist(a, b) && AllTracked(log, b)
    ensures AllTracked(log, a)
  {
    forall i | 0 <= i < |a| ensures Tracks(log, a[i]) {
      SublistMembers(a, b, a[i]);
      var j :| 0 <= j < |b| && b[j] == a[i];
      assert Tracks(log, b[j]);
    }
  }

  lemma {:induction false} FillCrossingKeeps(s: State, flight: seq<Order>, book: Book)
    requires Inv(s, flight)
    ensures Inv(FillCrossing(s, book).0, flight)
  {
    hide OrdersOk, LevelOk, AccountsOk, AllTracked, OthersSame, Sublist, Open, Held, Backstop;
    var key := Key(book.exchange, book.symbol);
    if HasTouch(book) {
      var orders := OrdersAt(s, key);
      var (kept, reports) := Backstop(orders, book, s.now);
      var s' := FillCrossing(s, book).0;
      assert OrdersOk(key, orders) && AllTracked(s.log, orders);
      OrdersOkParts(key, orders);
      BackstopAccounts(s.log, orders, book, s.now);
      BackstopKeeps(orders, book, s.now);
      SublistOk(kept, orders, key);
      SublistIds(kept, orders);
      UsedByBook(s, flight, key);
      if key !in s.pending { SublistOfNone(kept, orders); }
      assert OrdersAt(s', key) == kept;
      forall level: Level | level.key == key ensures LevelOk(s', level) {
        assert LevelOk(s, level);
        BackstopLevel(s, s', book, level);
      }
      forall id | id in Ids(orders) && Open(s'.log, id) ensures Held(s', flight, id) {
        var o :| o in orders && o.id == id;
        assert o in kept;
        TrackedHeld(s', key, flight, id);
      }
      Rebuild(s, s', key, flight, flight, Ids(orders));
    }
  }

  lemma {:induction false} SublistOfNone(a: seq<Order>, b: seq<Order>)
    requires Sublist(a, b) && b == []
    ensures a == b
  {
  }

  lemma {:induction false} BackstopLevel(s: State, s': State, book: Book, level: Level)
    requires LevelOk(s, level) && QueueAt(s', level) == QueueAt(s, level)
    requires OrdersAt(s', level.key) == Backstop(OrdersAt(s, level.key), book, s.now).0
    ensures LevelOk(s', level)
  {
    hide Own, Resting, Positive;
    BackstopClaims(OrdersAt(s, level.key), book, s.now, level.side, level.price);
  }

  lemma {:induction false} OrdersOkParts(key: string, orders: seq<Order>)
    requires OrdersOk(key, orders)
    ensures DistinctIds(orders)
    ensures forall i :: 0 <= i < |orders| ==>
              Remaining(orders[i]) > EPS && KeyOf(orders[i]) == key && orders[i].kind != Market
  {
  }

  /** Neither the clock nor the stored books matter to the invariant. */
  lemma {:induction false} ClockAndBooks(s: State, flight: seq<Order>, s': State)
    requires Inv(s, flight)
    requires s'.pending == s.pending && s'.queues == s.queues && s'.log == s.log
    ensures Inv(s', flight)
  {
    assert forall key: string :: OrdersAt(s', key) == OrdersAt(s, key);
    assert forall level: Level :: QueueAt(s', level) == QueueAt(s, level);
    assert forall level: Level :: LevelOk(s, level) ==> LevelOk(s', level);
    assert forall id: nat :: Held(s, flight, id) ==> Held(s', flight, id);
  }

  lemma {:induction false} TakeSnapshotKeeps(s: State, flight: seq<Order>, book: Book)
    requires Inv(s, flight)
    ensures Inv(TakeSnapshot(s, book).0, flight)
  {
    hide Inv;
    var key := Key(book.exchange, book.symbol);
    var s0 := s.(now := book.ts);
    ClockAndBooks(s, flight, s0);
    ReconcileKeeps(s0, flight, key, book, 0);
    var s1 := ReconcileFrom(s0, key, book, 0);
    var s2 := s1.(books := s1.books[key := book]);
    ClockAndBooks(s1, flight, s2);
    FillCrossingKeeps(s2, flight, book);
  }

  // --- Prints ------------------------------------------------------------------------------

  /** Crediting fills changes neither ids, books nor kinds. */
  lemma {:induction false} DropDoneOk(before: seq<Order>, after: seq<Order>, side: Side, price: int, key: string)
    requires OrdersOk(key, before) && OnlyRestingChanged(before, after, side, price)
    ensures OrdersOk(key, DropDone(after)) && Ids(DropDone(after)) <= Ids(before)
  {
    assert DistinctIds(after);
    DropDoneKeeps(after);
    var kept := DropDone(after);
    SublistDistinct(kept, after);
    forall i | 0 <= i < |kept|
      ensures KeyOf(kept[i]) == key && Remaining(kept[i]) > EPS && kept[i].kind != Market && kept[i].id in Ids(before)
    {
      SublistMembers(kept, after, kept[i]);
      var j :| 0 <= j < |after| && after[j] == kept[i];
      assert after[j] == before[j].(filled := after[j].filled);
      assert before[j] in before;
      assert !Done(kept[i]);
      if !kept[i].seeded { assert !Rests(before[j], side, price); }
    }
  }

  lemma {:induction false} PrintClaimsElsewhere(before: seq<Order>, after: seq<Order>, side: Side, price: int,
                                                side2: Side, price2: int)
    requires OnlyRestingChanged(before, after, side, price) && (side2 != side || price2 != price)
    ensures Resting(DropDone(after), side2, price2) == Resting(before, side2, price2)
  {
    SameClaims(before, after, side2, price2);
    DropDoneClaims(after, side2, price2);
  }

  /** The level a print hits, and the other levels of its book. */
  lemma {:induction false} PrintLevels(s: State, s': State, hit: Level, size: real, now: nat, level: Level)
    requires LevelOk(s, hit) && LevelOk(s, level) && level.key == hit.key && DistinctIds(OrdersAt(s, hit.key))
    requires var r := Consume(QueueAt(s, hit), OrdersAt(s, hit.key), size, now);
             && OrdersAt(s', hit.key) == DropDone(r.orders)
             && QueueAt(s', hit) == r.queue
             && (level != hit ==> QueueAt(s', level) == QueueAt(s, level))
    ensures LevelOk(s', level)
  {
    hide Own, Resting, Consume, DropDone, Positive, DistinctIds, OnlyRestingChanged;
    var q, orders := QueueAt(s, hit), OrdersAt(s, hit.key);
    var r := Consume(q, orders, size, now);
    PrintKeepsClaims(q, orders, size, now, hit.side, hit.price);
    if level == hit {
      ConsumePositive(q, orders, size, now);
      DropDoneClaims(r.orders, hit.side, hit.price);
    } else {
      PrintClaimsElsewhere(orders, r.orders, hit.side, hit.price, level.side, level.price);
    }
  }

  lemma {:induction false} TakePrintKeeps(s: State, flight: seq<Order>, t: Trade)
    requires Inv(s, flight)
    ensures Inv(TakePrint(s, t).0, flight)
  {
    hide OrdersOk, LevelOk, AccountsOk, AllTracked, Ids, OthersSame, OnlyRestingChanged, Sublist, Consume, DropDone;
    hide Open, Held;
    var hit := PrintLevel(t);
    var key := hit.key;
    var q, orders := QueueAt(s, hit), OrdersAt(s, key);
    ClockAndBooks(s, flight, s.(now := t.ts));
    if q != [] {
      var r := Consume(q, orders, t.quantity, t.ts);
      var s' := TakePrint(s, t).0;
      assert LevelOk(s, hit);
      assert OrdersOk(key, orders) && AllTracked(s.log, orders);
      OrdersOkParts(key, orders);
      PrintEffects(s, hit, t.quantity, t.ts);
      UsedByBook(s, flight, key);
      assert OrdersAt(s', key) == DropDone(r.orders);
      forall level: Level | level.key == key ensures LevelOk(s', level) {
        assert LevelOk(s, level);
        PrintLevels(s, s', hit, t.quantity, t.ts, level);
      }
      forall id | id in Ids(orders) && Open(s'.log, id) ensures Held(s', flight, id) {
        TrackedHeld(s', key, flight, id);
      }
      Rebuild(s, s', key, flight, flight, Ids(orders));
    }
  }

  /** What a print does to its book's orders and to their accounts. */
  lemma {:induction false} PrintEffects(s: State, hit: Level, size: real, now: nat)
    requires LevelOk(s, hit) && AccountsOk(s.log)
    requires var orders := OrdersAt(s, hit.key); OrdersOk(hit.key, orders) && AllTracked(s.log, orders)
    ensures var orders := OrdersAt(s, hit.key);
            var r := Consume(QueueAt(s, hit), orders, size, now);
            var log := s.log + Entries(r.reports);
            && OrdersOk(hit.key, DropDone(r.orders)) && Ids(DropDone(r.orders)) <= Ids(orders)
            && AccountsOk(log) && AllTracked(log, DropDone(r.orders)) && OthersSame(s.log, log, Ids(orders))
            && (hit.key !in s.pending ==> DropDone(r.orders) == orders)
            && (forall id :: id in Ids(orders) && Open(log, id) ==> id in Ids(DropDone(r.orders)))
  {
    hide Own, Resting, Consume, DropDone, OnlyRestingChanged, AccountsOk, AllTracked, OthersSame, Sublist, Ids;
    var q, orders := QueueAt(s, hit), OrdersAt(s, hit.key);
    var r := Consume(q, orders, size, now);
    PrintKeepsClaims(q, orders, size, now, hit.side, hit.price);
    PrintAccounts(s.log, q, orders, size, now, hit.side, hit.price);
    DropDoneOk(orders, r.orders, hit.side, hit.price, hit.key);
    DropDoneKeeps(r.orders);
    SublistTracked(DropDone(r.orders), r.orders, s.log + Entries(r.reports));
    if hit.key !in s.pending { NoOrders(orders, r.orders, hit.side, hit.price); }
    OpenStay(orders, r.orders, s.log + Entries(r.reports), hit.side, hit.price, hit.key);
  }

  /** Orders with an open account survive the clean-up after a print. */
  lemma {:induction false} OpenStay(before: seq<Order>, after: seq<Order>, log: seq<Entry>,
                                    side: Side, price: int, key: string)
    requires OrdersOk(key, before) && OnlyRestingChanged(before, after, side, price) && AllTracked(log, after)
    ensures forall id :: id in Ids(before) && Open(log, id) ==> id in Ids(DropDone(after))
  {
    hide Open, Tracks;
    DropDoneKeeps(after);
    forall id | id in Ids(before) && Open(log, id) ensures id in Ids(DropDone(after)) {
      var o :| o in before && o.id == id;
      var i :| 0 <= i < |before| && before[i] == o;
      var a := after[i];
      assert a == before[i].(filled := a.filled);
      assert Tracks(log, after[i]);
      TrackedOpen(log, a);
      assert a in after && !Done(a);
      assert a in DropDone(after);
    }
  }

  lemma {:induction false} NoOrders(before: seq<Order>, after: seq<Order>, side: Side, price: int)
    requires before == [] && OnlyRestingChanged(before, after, side, price)
    ensures DropDone(after) == before
  {
  }

  // --- Order entry -------------------------------------------------------------------------

  /** The caller's duty: a live order of more than dust under an unused id. */
  ghost predicate Fresh(s: State, flight: seq<Order>, o: Order) {
    && Remaining(o) > EPS && !o.seeded
    && o.id !in Ids(flight)
    && forall key: string :: o.id !in Ids(OrdersAt(s, key))
  }

  lemma {:induction false} AcceptKeeps(s: State, flight: seq<Order>, o: Order, latency: Latency)
    requires Inv(s, flight) && Fresh(s, flight, o)
    ensures Inv(Accept(s, o, latency), flight + [o])
  {
    hide OrdersOk, AccountsOk, Untried, Tracks, Open;
    var s' := Accept(s, o, latency);
    var all := flight + [o];
    AcceptAccounts(s.log, o);
    assert forall key: string :: OrdersAt(s', key) == OrdersAt(s, key);
    assert forall level: Level :: QueueAt(s', level) == QueueAt(s, level);
    assert forall level: Level :: LevelOk(s, level) ==> LevelOk(s', level);
    forall i | 0 <= i < |flight| ensures flight[i].id != o.id { assert flight[i].id in Ids(flight); }
    assert forall x :: x in all <==> x in flight || x == o;
    assert Ids(all) == Ids(flight) + {o.id};
    forall key: string ensures AllTracked(s'.log, OrdersAt(s', key)) {
      var orders := OrdersAt(s, key);
      assert AllTracked(s.log, orders);
      forall i | 0 <= i < |orders| ensures orders[i].id !in {o.id} { assert orders[i].id in Ids(orders); }
      AllTrackedElsewhere(s.log, s'.log, {o.id}, orders);
    }
    forall i | 0 <= i < |all| ensures Untried(s'.log, all[i]) {
      if i < |flight| {
        assert Untried(s.log, flight[i]);
        assert SameAccount(s.log, s'.log, flight[i].id);
        SameAccountTracks(s.log, s'.log, flight[i]);
      }
    }
    forall id: nat | Open(s'.log, id) ensures Held(s', all, id) {
      if id != o.id {
        assert SameAccount(s.log, s'.log, id);
        SameAccountOpen(s.log, s'.log, id);
        assert Held(s, flight, id);
      }
    }
  }

  lemma {:induction false} SameAccountOpen(before: seq<Entry>, after: seq<Entry>, id: nat)
    requires SameAccount(before, after, id)
    ensures Open(after, id) == Open(before, id)
  {
  }

  function DropClaim(claims: seq<Claim>, id: nat): seq<Claim> {
    if claims == [] then []
    else if claims[0].id == id then DropClaim(claims[1..], id)
    else [claims[0]] + DropClaim(claims[1..], id)
  }

  lemma {:induction false} WithoutOwnerClaims(q: seq<Slot>, id: nat)
    requires Positive(q)
    ensures Own(WithoutOwner(q, id)) == DropClaim(Own(q), id)
    ensures Positive(WithoutOwner(q, id))
  {
    if q != [] {
      WithoutOwnerClaims(q[1..], id);
      if q[0].owner.Some? { assert Own(q)[1..] == Own(q[1..]); }
      if q[0].owner != Some(id) {
        assert WithoutOwner(q, id)[1..] == WithoutOwner(q[1..], id);
      }
    }
  }

  lemma {:induction false} DropAbsentClaim(orders: seq<Order>, id: nat, side: Side, price: int)
    requires forall i :: 0 <= i < |orders| ==> orders[i].id != id
    ensures DropClaim(Resting(orders, side, price), id) == Resting(orders, side, price)
  {
    if orders != [] {
      assert orders[0].id != id;
      DropAbsentClaim(orders[1..], id, side, price);
      if Rests(orders[0], side, price) {
        assert Resting(orders, side, price)[1..] == Resting(orders[1..], side, price);
      }
    }
  }

  /** Removing an order from the list removes its claim and no other. */
  lemma {:induction false} RemoveOrderClaims(orders: seq<Order>, i: nat, side: Side, price: int)
    requires i < |orders| && DistinctIds(orders)
    ensures Resting(orders[..i] + orders[i + 1..], side, price)
         == DropClaim(Resting(orders, side, price), orders[i].id)
    ensures !Rests(orders[i], side, price) ==>
              Resting(orders[..i] + orders[i + 1..], side, price) == Resting(orders, side, price)
  {
    var rest := orders[..i] + orders[i + 1..];
    if Rests(orders[0], side, price) {
      assert Resting(orders, side, price)[1..] == Resting(orders[1..], side, price);
    }
    if i == 0 {
      assert rest == orders[1..];
      DropAbsentClaim(orders[1..], orders[0].id, side, price);
    } else {
      assert orders[0].id != orders[i].id;
      assert rest[1..] == orders[1..][..i - 1] + orders[1..][i..];
      RemoveOrderClaims(orders[1..], i - 1, side, price);
    }
  }

  lemma {:induction false} RemoveOrderOk(orders: seq<Order>, i: nat, key: string, log: seq<Entry>)
    requires i < |orders| && OrdersOk(key, orders) && AllTracked(log, orders)
    ensures var rest := orders[..i] + orders[i + 1..];
            OrdersOk(key, rest) && AllTracked(log, rest) && Ids(rest) <= Ids(orders)
  {
    var rest := orders[..i] + orders[i + 1..];
    forall k | 0 <= k < |rest| ensures rest[k] == if k < i then orders[k] else orders[k + 1] {}
    assert forall o :: o in rest ==> o in orders;
  }

  /** A seeded resting order has its level. */
  lemma {:induction false} SeededHasLevel(s: State, key: string, i: nat)
    requires i < |OrdersAt(s, key)|
    requires var o := OrdersAt(s, key)[i]; Rests(o, o.side, o.price) && LevelOk(s, Level(key, o.side, o.price))
    ensures var o := OrdersAt(s, key)[i]; Level(key, o.side, o.price) in s.queues
  {
    var o := OrdersAt(s, key)[i];
    RestingComplete(OrdersAt(s, key), o.side, o.price, i);
  }

  lemma {:induction false} CancelRestingKeeps(s: State, flight: seq<Order>, key: string, i: nat)
    requires Inv(s, flight) && i < |OrdersAt(s, key)|
    ensures var orders := OrdersAt(s, key);
            Inv(Withdraw(SetOrders(Unseed(s, key, orders[i]), key, orders[..i] + orders[i + 1..]), orders[i].id),
                flight)
  {
    hide OrdersOk, LevelOk, AccountsOk, AllTracked, OthersSame, Open, Held;
    var orders := OrdersAt(s, key);
    var o := orders[i];
    var rest := orders[..i] + orders[i + 1..];
    var s' := Withdraw(SetOrders(Unseed(s, key, o), key, rest), o.id);
    assert OrdersOk(key, orders) && AllTracked(s.log, orders) && LevelOk(s, Level(key, o.side, o.price));
    OrdersOkParts(key, orders);
    RemoveOrderOk(orders, i, key, s.log);
    if o.seeded { SeededHasLevel(s, key, i); }
    UsedByBook(s, flight, key);
    WithdrawAccounts(s.log, o.id);
    assert o in orders;
    OthersSameWiden(s.log, s'.log, {o.id}, Ids(orders));
    RemovedId(orders, i);
    AllTrackedElsewhere(s.log, s'.log, {o.id}, rest);
    assert OrdersAt(s', key) == rest;
    forall level: Level | level.key == key ensures LevelOk(s', level) {
      assert LevelOk(s, level);
      CancelLevel(s, s', key, i, level);
    }
    forall id | id in Ids(orders) && Open(s'.log, id) ensures Held(s', flight, id) {
      WithdrawnNotOpen(s.log, o.id);
      assert id in Ids(rest);
      TrackedHeld(s', key, flight, id);
    }
    Rebuild(s, s', key, flight, flight, Ids(orders));
  }

  lemma {:induction false} WithdrawnNotOpen(log: seq<Entry>, id: nat)
    ensures !Open(log + [Withdrawn(id)], id)
  {
    LogSnoc(log, Withdrawn(id), id);
  }

  lemma {:induction false} RemovedId(orders: seq<Order>, i: nat)
    requires i < |orders| && DistinctIds(orders)
    ensures var rest := orders[..i] + orders[i + 1..];
            (forall k :: 0 <= k < |rest| ==> rest[k].id !in {orders[i].id}) && Ids(rest) + {orders[i].id} == Ids(orders)
  {
    var rest := orders[..i] + orders[i + 1..];
    forall k | 0 <= k < |rest| ensures rest[k].id != orders[i].id {
      assert rest[k] == if k < i then orders[k] else orders[k + 1];
    }
    assert orders == orders[..i] + [orders[i]] + orders[i + 1..];
    assert forall o :: o in orders <==> o in rest || o == orders[i];
  }

  /** One level of the book an order is cancelled from. */
  lemma {:induction false} CancelLevel(s: State, s': State, key: string, i: nat, level: Level)
    requires i < |OrdersAt(s, key)| && DistinctIds(OrdersAt(s, key)) && LevelOk(s, level) && level.key == key
    requires OrdersAt(s', key) == OrdersAt(s, key)[..i] + OrdersAt(s, key)[i + 1..]
    requires var o := OrdersAt(s, key)[i];
             && (o.seeded ==> Level(key, o.side, o.price) in s.queues)
             && s'.queues == Unseed(s, key, o).queues
    ensures LevelOk(s', level)
  {
    hide Own, Resting, Positive, DistinctIds;
    var o := OrdersAt(s, key)[i];
    RemoveOrderClaims(OrdersAt(s, key), i, level.side, level.price);
    if o.seeded && level == Level(key, o.side, o.price) {
      WithoutOwnerClaims(QueueAt(s, level), o.id);
    } else {
      assert !Rests(o, level.side, level.price);
      assert QueueAt(s', level) == QueueAt(s, level);
    }
  }

  /** The same orders in flight, in another order. */
  lemma {:induction false} FlightReorders(s: State, flight: seq<Order>, flight': seq<Order>)
    requires Inv(s, flight) && DistinctIds(flight') && multiset(flight) == multiset(flight')
    ensures Inv(s, flight')
  {
    hide OrdersOk, LevelOk, AllTracked, AccountsOk, Untried, Open;
    SameBag(flight', flight);
    SameBag(flight, flight');
    FlightSublist(s, flight, flight');
    assert Ids(flight') == Ids(flight);
    forall id: nat | Open(s.log, id) ensures Held(s, flight', id) {
      assert Held(s, flight, id);
    }
  }

  lemma {:induction false} FlightSublist(s: State, flight: seq<Order>, flight': seq<Order>)
    requires FlightOk(s, flight) && DistinctIds(flight') && forall o :: o in flight' ==> o in flight
    requires forall i :: 0 <= i < |flight| ==> Untried(s.log, flight[i])
    ensures FlightOk(s, flight')
    ensures forall i :: 0 <= i < |flight'| ==> Untried(s.log, flight'[i])
  {
    hide Untried;
    forall i | 0 <= i < |flight'|
      ensures Remaining(flight'[i]) > EPS && !flight'[i].seeded && Untried(s.log, flight'[i])
    {
      assert flight'[i] in flight;
      var j :| 0 <= j < |flight| && flight[j] == flight'[i];
      assert Untried(s.log, flight[j]);
    }
    assert Ids(flight') <= Ids(flight);
    forall key: string ensures Ids(flight') !! Ids(OrdersAt(s, key)) {
      assert Ids(flight) !! Ids(OrdersAt(s, key));
    }
  }

  /** An order cancelled in flight. */
  lemma {:induction false} CancelFlightKeeps(s: State, flight: seq<Order>, j: nat)
    requires Inv(s, flight) && j < |flight|
    ensures Inv(Withdraw(s, flight[j].id), flight[..j] + flight[j + 1..])
  {
    hide OrdersOk, AccountsOk, Untried, Tracks, Open;
    var id := flight[j].id;
    var s', rest := Withdraw(s, id), flight[..j] + flight[j + 1..];
    WithdrawAccounts(s.log, id);
    DistinctKept(flight, rest, j);
    RemovedId(flight, j);
    FlightSublist(s, flight, rest);
    assert flight[j] in flight && id in Ids(flight);
    assert forall key: string :: OrdersAt(s', key) == OrdersAt(s, key);
    assert forall level: Level :: QueueAt(s', level) == QueueAt(s, level);
    assert forall level: Level :: LevelOk(s, level) ==> LevelOk(s', level);
    forall key: string ensures AllTracked(s'.log, OrdersAt(s', key)) {
      var orders := OrdersAt(s, key);
      assert AllTracked(s.log, orders) && Ids(flight) !! Ids(orders);
      forall i | 0 <= i < |orders| ensures orders[i].id !in {id} { assert orders[i].id in Ids(orders); }
      AllTrackedElsewhere(s.log, s'.log, {id}, orders);
    }
    forall i | 0 <= i < |rest| ensures Untried(s'.log, rest[i]) {
      assert SameAccount(s.log, s'.log, rest[i].id);
      SameAccountTracks(s.log, s'.log, rest[i]);
    }
    forall k: nat | Open(s'.log, k) ensures Held(s', rest, k) {
      WithdrawnNotOpen(s.log, id);
      assert SameAccount(s.log, s'.log, k);
      SameAccountOpen(s.log, s'.log, k);
      assert Held(s, flight, k);
    }
  }

  // --- Calls -----------------------------------------------------------------------------------

  /** The invariant between calls: exactly the waiting submits are in flight. */
  ghost predicate Sound(s: State) {
    Inv(s, Items(s.submits.waiting))
  }

  lemma {:induction false} CancelKeeps(s: State, exchange: string, symbol: string, id: nat)
    requires Sound(s)
    ensures Sound(Cancel(s, exchange, symbol, id).0)
  {
    hide Inv, Unseed;
    var key := Key(exchange, symbol);
    var orders := OrdersAt(s, key);
    var waiting := s.submits.waiting;
    var i := IndexOfId(orders, id);
    var j := IndexOfSubmit(waiting, exchange, symbol, id);
    if i < |orders| {
      CancelRestingKeeps(s, Items(waiting), key, i);
      UnseedLegs(s, key, orders[i]);
    } else if j < |waiting| {
      ItemsIndex(waiting);
      CancelFlightKeeps(s, Items(waiting), j);
      DropItems(waiting, j);
      ClockAndBooks(Withdraw(s, id), Items(waiting[..j] + waiting[j + 1..]),
                    Withdraw(s.(submits := Drop(s.submits, j)), id));
    }
  }

  lemma {:induction false} UnseedLegs(s: State, key: string, o: Order)
    ensures Unseed(s, key, o).submits == s.submits
  {
  }

  lemma {:induction false} DistinctFlight(s: State, flight: seq<Order>)
    requires Inv(s, flight)
    ensures DistinctIds(flight)
  {
  }

  lemma {:induction false} DropItems(q: seq<Timed<Order>>, j: nat)
    requires j < |q|
    ensures Items(q[..j] + q[j + 1..]) == Items(q)[..j] + Items(q)[j + 1..]
  {
    ItemsIndex(q);
    ItemsIndex(q[..j] + q[j + 1..]);
  }

  lemma {:induction false} DistinctKept(a: seq<Order>, b: seq<Order>, j: nat)
    requires j < |a| && DistinctIds(a) && b == a[..j] + a[j + 1..]
    ensures DistinctIds(b) && forall o :: o in b ==> o in a
  {
    forall k | 0 <= k < |b| ensures b[k] == if k < j then a[k] else a[k + 1] {}
  }

  /** Matching does not touch the legs or the draw counter. */
  lemma {:induction false} MatchAllLegs(s: State, ready: seq<Timed<Order>>)
    ensures var s' := MatchAll(s, ready).0;
            s'.submits == s.submits && s'.fills == s.fills && s'.draws == s.draws && s'.books == s.books
    decreases |ready|
  {
    if ready != [] {
      MatchAllLegs(Match(s.(now := Later(s.now, ready[0].due)), ready[0].item).0, ready[1..]);
    }
  }

  lemma {:induction false} ScheduleOnlyFills(s: State, reports: seq<Report>, latency: Latency)
    ensures var s' := Schedule(s, reports, latency);
            s' == s.(fills := s'.fills, draws := s'.draws)
    decreases |reports|
  {
    if reports != [] {
      ScheduleOnlyFills(s.(fills := Push(s.fills, reports[0], reports[0].ts + latency(s.draws)), draws := s.draws + 1),
                        reports[1..], latency);
    }
  }

  lemma {:induction false} MatchAllKeeps(s: State, ready: seq<Timed<Order>>, rest: seq<Order>)
    requires Inv(s, Items(ready) + rest)
    ensures Inv(MatchAll(s, ready).0, rest)
    decreases |ready|
  {
    hide Inv, Match;
    if ready == [] {
      assert Items(ready) + rest == rest;
    } else {
      var s1 := s.(now := Later(s.now, ready[0].due));
      ClockAndBooks(s, Items(ready) + rest, s1);
      assert Items(ready) + rest == [ready[0].item] + (Items(ready[1..]) + rest);
      MatchKeeps(s1, ready[0].item, Items(ready[1..]) + rest);
      MatchAllKeeps(Match(s1, ready[0].item).0, ready[1..], rest);
    }
  }

  /** Distinctness does not depend on the order of a list. */
  lemma {:induction false} DistinctPermuted(a: seq<Order>, b: seq<Order>)
    requires DistinctIds(a) && multiset(a) == multiset(b)
    ensures DistinctIds(b)
  {
    forall i, j | 0 <= i < j < |b| ensures b[i].id != b[j].id {
      if b[i].id == b[j].id {
        assert b[i] in multiset(b) && b[j] in multiset(b);
        var k :| 0 <= k < |a| && a[k] == b[i];
        var l :| 0 <= l < |a| && a[l] == b[j];
        assert k == l;
        TwiceInBag(b, i, j);
        OnceInBag(a, k);
      }
    }
  }

  lemma {:induction false} TwiceInBag(b: seq<Order>, i: nat, j: nat)
    requires i < j < |b| && b[i] == b[j]
    ensures multiset(b)[b[i]] >= 2
  {
    assert b == b[..i] + [b[i]] + b[i + 1..j] + [b[j]] + b[j + 1..];
  }

  lemma {:induction false} OnceInBag(a: seq<Order>, k: nat)
    requires k < |a| && DistinctIds(a)
    ensures multiset(a)[a[k]] == 1
  {
    var x := a[k];
    assert a == a[..k] + [x] + a[k + 1..];
    forall i | 0 <= i < k ensures a[..k][i] != x { assert a[i].id != a[k].id; }
    var tail := a[k + 1..];
    forall i | 0 <= i < |tail| ensures tail[i] != x { assert a[k + 1 + i].id != a[k].id; }
    assert x !in multiset(a[..k]) && x !in multiset(a[k + 1..]);
  }

  /** Serving the submit leg splits what is in flight into what is matched now
      and what goes on waiting. */
  lemma {:induction false} ReadyFlight(s: State, upto: nat)
    requires Sound(s)
    ensures var s0 := s.(submits := Serve(s.submits, upto, s.now));
            Inv(s0, Items(Ready(s.submits, upto)) + Items(s0.submits.waiting))
    ensures forall o :: o in Items(Ready(s.submits, upto)) ==> o in Items(s.submits.waiting)
  {
    hide Inv, StableSort, DueCount, Items;
    var waiting := s.submits.waiting;
    var sorted := StableSort(waiting);
    var n := DueCount(sorted, upto);
    var s0 := s.(submits := Serve(s.submits, upto, s.now));
    SortItems(waiting);
    DistinctFlight(s, Items(waiting));
    DistinctPermuted(Items(waiting), Items(sorted));
    SameBag(Items(sorted), Items(waiting));
    FlightReorders(s, Items(waiting), Items(sorted));
    assert sorted == sorted[..n] + sorted[n..];
    ItemsAppend(sorted[..n], sorted[n..]);
    ClockAndBooks(s, Items(sorted), s0);
  }

  lemma {:induction false} DrainSubmitsKeeps(s: State, upto: nat, latency: Latency)
    requires Sound(s)
    ensures Sound(DrainSubmits(s, upto, latency))
  {
    hide Inv, Schedule, MatchAll, Serve, Ready, Items;
    var s0 := s.(submits := Serve(s.submits, upto, s.now));
    var ready, rest := Ready(s.submits, upto), Items(s0.submits.waiting);
    ReadyFlight(s, upto);
    MatchAllKeeps(s0, ready, rest);
    MatchAllLegs(s0, ready);
    var s1 := MatchAll(s0, ready).0;
    var reports := MatchAll(s0, ready).1;
    ScheduleOnlyFills(s1, reports, latency);
    ClockAndBooks(s1, rest, Schedule(s1, reports, latency));
  }

  lemma {:induction false} SameBag<T>(a: seq<T>, b: seq<T>)
    requires multiset(a) == multiset(b)
    ensures forall o :: o in a ==> o in b
  {
    forall o | o in a ensures o in b { assert o in multiset(a); }
  }
}
