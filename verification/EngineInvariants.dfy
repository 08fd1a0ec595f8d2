/** What holds in every reachable state of the engine: own slots and resting
    orders are in one-to-one correspondence, and the history of every order's
    fills adds up. */
module EngineInvariants {
  import opened Orders
  import opened SlotQueues
  import opened FillAccounts
  import opened EngineModel

  // --- The invariant --------------------------------------------------------------

  /** At every level the own slots of the queue are, one for one and in the same
      order, the seeded orders resting at that level, each with exactly what the
      order has left. */
  ghost predicate SlotsMatchOrders(s: State) {
    forall level: Level :: LevelOk(s, level)
  }

  predicate LevelOk(s: State, level: Level) {
    Own(QueueAt(s, level)) == Resting(OrdersAt(s, level.key), level.side, level.price)
    && Positive(QueueAt(s, level))
  }

  /** Resting orders are filed under their book, have more than dust left, and
      are never market orders. */
  predicate OrdersOk(key: string, orders: seq<Order>) {
    DistinctIds(orders)
    && forall i :: 0 <= i < |orders| ==>
         KeyOf(orders[i]) == key && Remaining(orders[i]) > EPS && orders[i].kind != Market
  }

  ghost predicate AllOrdersOk(s: State) {
    forall key: string :: OrdersOk(key, OrdersAt(s, key))
  }

  /** No id rests in two books. */
  ghost predicate BooksDisjoint(s: State) {
    forall key: string, other: string :: key != other ==> Ids(OrdersAt(s, key)) !! Ids(OrdersAt(s, other))
  }

  /** The orders on their way in: distinct, unfinished, not resting. */
  ghost predicate FlightOk(s: State, flight: seq<Order>) {
    && DistinctIds(flight)
    && (forall i :: 0 <= i < |flight| ==> Remaining(flight[i]) > EPS && !flight[i].seeded)
    && (forall key: string :: Ids(flight) !! Ids(OrdersAt(s, key)))
  }

  /** The history explains every live order. */
  ghost predicate Accounted(s: State, flight: seq<Order>) {
    && AccountsOk(s.log)
    && (forall key: string :: AllTracked(s.log, OrdersAt(s, key)))
    && (forall i :: 0 <= i < |flight| ==> Untried(s.log, flight[i]))
  }

  /** No order is lost: one that was accepted, can rest, and has neither been
      filled nor cancelled is still on its way or rests in its book. */
  ghost predicate NoneLost(s: State, flight: seq<Order>) {
    forall id: nat :: Open(s.log, id) ==> Held(s, flight, id)
  }

  predicate Held(s: State, flight: seq<Order>, id: nat) {
    id in Ids(flight)
    || (Origin(s.log, id).Some? && id in Ids(OrdersAt(s, KeyOf(Origin(s.log, id).value))))
  }

  /** `flight` lists the accepted orders that have not been matched yet. */
  ghost predicate Inv(s: State, flight: seq<Order>) {
    && SlotsMatchOrders(s)
    && AllOrdersOk(s)
    && BooksDisjoint(s)
    && FlightOk(s, flight)
    && Accounted(s, flight)
    && NoneLost(s, flight)
  }

  // --- Changes at one book ------------------------------------------------------------

  /** Nothing but the queues and orders of one book differs. */
  ghost predicate OnlyBook(s: State, s': State, key: string) {
    && (forall other: string :: other != key ==> OrdersAt(s', other) == OrdersAt(s, other))
    && (forall level: Level :: level.key != key ==> QueueAt(s', level) == QueueAt(s, level))
  }

  /** The changed book is in order. */
  ghost predicate BookOk(s: State, key: string) {
    && OrdersOk(key, OrdersAt(s, key))
    && AllTracked(s.log, OrdersAt(s, key))
    && forall level: Level :: level.key == key ==> LevelOk(s, level)
  }

  lemma {:induction false} RebuildLevels(s: State, s': State, key: string)
    requires SlotsMatchOrders(s) && OnlyBook(s, s', key) && BookOk(s', key)
    ensures SlotsMatchOrders(s')
  {
    hide Own, Resting, Positive, OrdersOk;
    forall level: Level ensures LevelOk(s', level) {
      if level.key != key {
        assert LevelOk(s, level);
        assert QueueAt(s', level) == QueueAt(s, level) && OrdersAt(s', level.key) == OrdersAt(s, level.key);
      }
    }
  }

  lemma {:induction false} RebuildOrders(s: State, s': State, key: string, used: set<nat>)
    requires AllOrdersOk(s) && BooksDisjoint(s) && OnlyBook(s, s', key)
    requires OrdersOk(key, OrdersAt(s', key)) && Ids(OrdersAt(s', key)) <= used
    requires forall other: string :: other != key ==> used !! Ids(OrdersAt(s, other))
    ensures AllOrdersOk(s') && BooksDisjoint(s')
  {
    hide OrdersOk, Ids;
    forall k: string ensures OrdersOk(k, OrdersAt(s', k)) {
      assert OrdersOk(k, OrdersAt(s, k));
    }
    forall k: string, other: string | k != other ensures Ids(OrdersAt(s', k)) !! Ids(OrdersAt(s', other)) {
      assert Ids(OrdersAt(s, k)) !! Ids(OrdersAt(s, other));
    }
  }

  lemma {:induction false} RebuildAccounts(s: State, s': State, key: string, flight: seq<Order>, flight': seq<Order>,
                                           used: set<nat>)
    requires Accounted(s, flight) && OnlyBook(s, s', key)
    requires AccountsOk(s'.log) && AllTracked(s'.log, OrdersAt(s', key))
    requires OthersSame(s.log, s'.log, used)
    requires forall other: string :: other != key ==> used !! Ids(OrdersAt(s, other))
    requires used !! Ids(flight') && forall o :: o in flight' ==> o in flight
    ensures Accounted(s', flight')
  {
    hide Tracks, Untried;
    forall k: string ensures AllTracked(s'.log, OrdersAt(s', k)) {
      if k != key {
        assert AllTracked(s.log, OrdersAt(s, k));
        assert used !! Ids(OrdersAt(s, k));
        forall i | 0 <= i < |OrdersAt(s, k)| ensures OrdersAt(s, k)[i].id !in used {
          assert OrdersAt(s, k)[i].id in Ids(OrdersAt(s, k));
        }
        AllTrackedElsewhere(s.log, s'.log, used, OrdersAt(s, k));
      }
    }
    forall i | 0 <= i < |flight'| ensures Untried(s'.log, flight'[i]) {
      var o := flight'[i];
      assert o in flight' && o in flight && o.id in Ids(flight');
      var j :| 0 <= j < |flight| && flight[j] == o;
      assert Untried(s.log, flight[j]);
      assert SameAccount(s.log, s'.log, o.id);
      SameAccountTracks(s.log, s'.log, o);
    }
  }

  lemma {:induction false} RebuildHeld(s: State, s': State, key: string, flight: seq<Order>, flight': seq<Order>,
                                       used: set<nat>)
    requires NoneLost(s, flight) && OnlyBook(s, s', key) && OthersSame(s.log, s'.log, used)
    requires Ids(OrdersAt(s, key)) <= used && Ids(flight) <= Ids(flight') + used
    requires forall id :: id in used && Open(s'.log, id) ==> Held(s', flight', id)
    ensures NoneLost(s', flight')
  {
    forall id: nat | Open(s'.log, id) ensures Held(s', flight', id) {
      if id !in used {
        assert SameAccount(s.log, s'.log, id);
        assert Open(s.log, id) && Held(s, flight, id);
      }
    }
  }

  /** A step that changes one book, touches only accounts of ids that are
      `used` there, and takes no order into flight, keeps the invariant. */
  lemma {:induction false} Rebuild(s: State, s': State, key: string, flight: seq<Order>, flight': seq<Order>,
                                   used: set<nat>)
    requires Inv(s, flight) && OnlyBook(s, s', key) && BookOk(s', key)
    requires AccountsOk(s'.log) && OthersSame(s.log, s'.log, used)
    requires Ids(OrdersAt(s', key)) <= used
    requires forall other: string :: other != key ==> used !! Ids(OrdersAt(s, other))
    requires DistinctIds(flight') && used !! Ids(flight') && forall o :: o in flight' ==> o in flight
    requires Ids(OrdersAt(s, key)) <= used && Ids(flight) <= Ids(flight') + used
    requires forall id :: id in used && Open(s'.log, id) ==> Held(s', flight', id)
    ensures Inv(s', flight')
  {
    hide OrdersOk, LevelOk, AllTracked, AccountsOk, OthersSame, Untried, Open, Held;
    RebuildHeld(s, s', key, flight, flight', used);
    RebuildLevels(s, s', key);
    RebuildOrders(s, s', key, used);
    RebuildAccounts(s, s', key, flight, flight', used);
    forall k: string ensures Ids(flight') !! Ids(OrdersAt(s', k)) {
      forall id | id in Ids(flight') ensures id !in Ids(OrdersAt(s', k)) {
        var o :| o in flight' && o.id == id;
        assert o in flight && id in Ids(flight);
        assert Ids(flight) !! Ids(OrdersAt(s, k));
      }
    }
    forall i | 0 <= i < |flight'| ensures Remaining(flight'[i]) > EPS && !flight'[i].seeded {
      assert flight'[i] in flight;
      var j :| 0 <= j < |flight| && flight[j] == flight'[i];
    }
  }

  /** Tracked orders of a book that are open are held there. */
  lemma {:induction false} TrackedHeld(s: State, key: string, flight: seq<Order>, id: nat)
    requires OrdersOk(key, OrdersAt(s, key)) && AllTracked(s.log, OrdersAt(s, key)) && id in Ids(OrdersAt(s, key))
    ensures Held(s, flight, id)
  {
    var orders := OrdersAt(s, key);
    var o :| o in orders && o.id == id;
    var i :| 0 <= i < |orders| && orders[i] == o;
    assert Tracks(s.log, orders[i]);
  }
}
