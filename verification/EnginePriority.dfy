/** Queue priority: from resting until fill or cancel, what is queued ahead of
    an own slot never grows, and own slots of a level never overtake each
    other. */
module EnginePriority {
  import opened Orders
  import opened SlotQueues
  import opened CancelSpread
  import opened PrintMatching
  import opened FillAccounts
  import opened BookWalk
  import opened LatencyLegs
  import opened EngineModel
  import opened EngineInvariants
  import opened EngineSteps
  import opened EngineRuns

  // --- What is ahead of an order ---------------------------------------------------

  /** Quantity queued ahead of the first slot of `id`. */
  function AheadOfOrder(q: seq<Slot>, id: nat): real {
    if q == [] || q[0].owner == Some(id) then 0.0 else q[0].qty + AheadOfOrder(q[1..], id)
  }

  /** The first slot of `id` is in front of every slot of `other`. */
  predicate InFront(q: seq<Slot>, id: nat, other: nat) {
    q != [] && (q[0].owner == Some(id) || (q[0].owner != Some(other) && InFront(q[1..], id, other)))
  }

  /** `after` is `before` with slots shrunk or gone, followed by newcomers, none
      of which belongs to an id in `ids`. */
  ghost predicate Advances(before: seq<Slot>, after: seq<Slot>, ids: set<nat>)
    decreases |before|
  {
    if before == [] then NoOwnerIn(after, ids)
    else
      || (after != [] && after[0].owner == before[0].owner && 0.0 <= after[0].qty <= before[0].qty
          && Advances(before[1..], after[1..], ids))
      || Advances(before[1..], after, ids)
  }

  predicate NoOwnerIn(q: seq<Slot>, ids: set<nat>) {
    forall i :: 0 <= i < |q| && q[i].owner.Some? ==> q[i].owner.value !in ids
  }

  /** No id owns two slots. */
  predicate OwnersDistinct(q: seq<Slot>) {
    forall i, j :: 0 <= i < j < |q| && q[i].owner.Some? ==> q[i].owner != q[j].owner
  }

  lemma {:induction false} OwnsCons(q: seq<Slot>, id: nat)
    requires q != []
    ensures Owns(q, id) <==> q[0].owner == Some(id) || Owns(q[1..], id)
  {
    forall i | 1 <= i < |q| ensures q[1..][i - 1] == q[i] {}
    if Owns(q[1..], id) {
      var i :| 0 <= i < |q[1..]| && q[1..][i].owner == Some(id);
      assert q[i + 1].owner == Some(id);
    }
  }

  /** An id that does not own a slot before owns none after. */
  lemma {:induction false} AdvancesAbsent(before: seq<Slot>, after: seq<Slot>, ids: set<nat>, id: nat)
    requires Advances(before, after, ids) && id in ids && !Owns(before, id)
    ensures !Owns(after, id)
    decreases |before|
  {
    if before != [] {
      OwnsCons(before, id);
      if after != [] && after[0].owner == before[0].owner && 0.0 <= after[0].qty <= before[0].qty
         && Advances(before[1..], after[1..], ids) {
        AdvancesAbsent(before[1..], after[1..], ids, id);
        OwnsCons(after, id);
      } else {
        AdvancesAbsent(before[1..], after, ids, id);
      }
    }
  }

  lemma {:induction false} OwnsTail(q: seq<Slot>, id: nat)
    requires q != [] && OwnersDistinct(q)
    ensures OwnersDistinct(q[1..])
    ensures q[0].owner == Some(id) ==> !Owns(q[1..], id)
    ensures q[0].owner != Some(id) ==> (Owns(q, id) <==> Owns(q[1..], id))
  {
    assert forall i :: 0 <= i < |q[1..]| ==> q[1..][i] == q[i + 1];
    if i :| 0 <= i < |q| && q[i].owner == Some(id) {
      if i > 0 { assert q[1..][i - 1].owner == Some(id); }
    }
  }

  /** A surviving own slot has no more ahead of it than before. */
  lemma {:induction false} AdvancesAhead(before: seq<Slot>, after: seq<Slot>, ids: set<nat>, id: nat)
    requires Advances(before, after, ids) && id in ids && OwnersDistinct(before) && Positive(before)
    requires Owns(after, id)
    ensures Owns(before, id) && AheadOfOrder(after, id) <= AheadOfOrder(before, id)
    decreases |before|
  {
    if before == [] {
      assert false;
    } else {
      OwnsTail(before, id);
      if after != [] && after[0].owner == before[0].owner && 0.0 <= after[0].qty <= before[0].qty
         && Advances(before[1..], after[1..], ids) {
        if after[0].owner != Some(id) {
          var i :| 0 <= i < |after| && after[i].owner == Some(id);
          assert after[1..][i - 1].owner == Some(id);
          AdvancesAhead(before[1..], after[1..], ids, id);
        }
      } else {
        if before[0].owner == Some(id) { AdvancesAbsent(before[1..], after, ids, id); }
        AdvancesAhead(before[1..], after, ids, id);
      }
    }
  }

  /** Two surviving own slots keep their order. */
  lemma {:induction false} AdvancesInFront(before: seq<Slot>, after: seq<Slot>, ids: set<nat>, id: nat, other: nat)
    requires Advances(before, after, ids) && id in ids && other in ids && id != other
    requires OwnersDistinct(before) && InFront(before, id, other)
    requires Owns(after, id) && Owns(after, other)
    ensures InFront(after, id, other)
    decreases |before|
  {
    OwnsTail(before, id);
    OwnsTail(before, other);
    if after != [] && after[0].owner == before[0].owner && 0.0 <= after[0].qty <= before[0].qty
       && Advances(before[1..], after[1..], ids) {
      if after[0].owner != Some(id) {
        var i :| 0 <= i < |after| && after[i].owner == Some(id);
        assert after[1..][i - 1].owner == Some(id);
        var j :| 0 <= j < |after| && after[j].owner == Some(other);
        assert after[1..][j - 1].owner == Some(other);
        AdvancesInFront(before[1..], after[1..], ids, id, other);
      }
    } else {
      if before[0].owner == Some(id) { AdvancesAbsent(before[1..], after, ids, id); }
      AdvancesInFront(before[1..], after, ids, id, other);
    }
  }

  // --- The relation composes -----------------------------------------------------------

  lemma {:induction false} AdvancesRefl(q: seq<Slot>, ids: set<nat>)
    requires NonNegative(q)
    ensures Advances(q, q, ids)
  {
    if q != [] { AdvancesRefl(q[1..], ids); }
  }

  lemma {:induction false} AdvancesNoOwner(before: seq<Slot>, after: seq<Slot>, ids: set<nat>)
    requires Advances(before, after, ids) && NoOwnerIn(before, ids)
    ensures NoOwnerIn(after, ids)
  {
    forall i | 0 <= i < |after| && after[i].owner.Some? ensures after[i].owner.value !in ids {
      if after[i].owner.value in ids { AdvancesAbsent(before, after, ids, after[i].owner.value); }
    }
  }

  lemma {:induction false} AdvancesTrans(a: seq<Slot>, b: seq<Slot>, c: seq<Slot>, ids: set<nat>)
    requires Advances(a, b, ids) && Advances(b, c, ids)
    ensures Advances(a, c, ids)
    decreases |a| + |b|
  {
    if a == [] {
      AdvancesNoOwner(b, c, ids);
    } else if b != [] && b[0].owner == a[0].owner && 0.0 <= b[0].qty <= a[0].qty && Advances(a[1..], b[1..], ids) {
      if c != [] && c[0].owner == b[0].owner && 0.0 <= c[0].qty <= b[0].qty && Advances(b[1..], c[1..], ids) {
        AdvancesTrans(a[1..], b[1..], c[1..], ids);
      } else {
        AdvancesTrans(a[1..], b[1..], c, ids);
      }
    } else {
      AdvancesTrans(a[1..], b, c, ids);
    }
  }

  // --- Every change to a queue advances it ----------------------------------------------

  lemma {:induction false} AppendAdvances(q: seq<Slot>, tail: seq<Slot>, ids: set<nat>)
    requires NonNegative(q) && NoOwnerIn(tail, ids)
    ensures Advances(q, q + tail, ids)
  {
    if q == [] {
      assert q + tail == tail;
    } else {
      assert (q + tail)[1..] == q[1..] + tail;
      AppendAdvances(q[1..], tail, ids);
    }
  }

  lemma {:induction false} JoinedAdvances(q: seq<Slot>, venue: real, id: nat, remaining: real, ids: set<nat>)
    requires NonNegative(q) && id !in ids
    ensures Advances(q, Joined(q, venue, id, remaining), ids)
  {
    var own := [Slot(remaining, Some(id))];
    if venue > 0.0 && !HasVenue(q) {
      assert Joined(q, venue, id, remaining) == q + ([Slot(venue, None)] + own);
      AppendAdvances(q, [Slot(venue, None)] + own, ids);
    } else {
      AppendAdvances(q, own, ids);
    }
  }

  lemma {:induction false} TrimmedAdvances(q: seq<Slot>, r: seq<Slot>, ids: set<nat>)
    requires Trimmed(q, r)
    ensures Advances(q, r, ids)
  {
    if q != [] {
      assert r[0].owner == q[0].owner && 0.0 <= r[0].qty <= q[0].qty;
      assert Trimmed(q[1..], r[1..]);
      TrimmedAdvances(q[1..], r[1..], ids);
    }
  }

  lemma {:induction false} DropDustAdvances(q: seq<Slot>, ids: set<nat>)
    requires NonNegative(q)
    ensures Advances(q, DropDust(q), ids)
  {
    if q != [] {
      DropDustAdvances(q[1..], ids);
      if !VenueDust(q[0]) { assert DropDust(q)[1..] == DropDust(q[1..]); }
    }
  }

  lemma {:induction false} ReconciledAdvances(q: seq<Slot>, observed: real, ids: set<nat>)
    requires Positive(q) && observed > 0.0
    ensures Advances(q, Reconciled(q, observed), ids)
  {
    hide Advances;
    var delta := observed - VenueTotal(q);
    if delta > EPS {
      AppendAdvances(q, [Slot(delta, None)], ids);
    } else if delta < -EPS {
      SpreadBounds(q, -delta);
      var r := Spread(q, -delta).0;
      TrimmedAdvances(q, r, ids);
      DropDustAdvances(r, ids);
      AdvancesTrans(q, r, DropDust(r), ids);
    } else {
      AdvancesRefl(q, ids);
    }
  }

  lemma {:induction false} ShortenAdvances(q: seq<Slot>, take: real, ids: set<nat>)
    requires Positive(q) && q != [] && 0.0 < take
    ensures Advances(q, Shorten(q, take), ids)
  {
    AdvancesRefl(q[1..], ids);
    if q[0].qty - take > EPS { assert Shorten(q, take)[1..] == q[1..]; }
  }

  lemma {:induction false} ShortenPositive(q: seq<Slot>, take: real)
    requires Positive(q) && q != []
    ensures Positive(Shorten(q, take))
  {
  }

  lemma {:induction false} ConsumeAdvances(q: seq<Slot>, orders: seq<Order>, size: real, now: nat, ids: set<nat>)
    requires Positive(q)
    ensures Advances(q, Consume(q, orders, size, now).queue, ids)
    decreases |q|, if size > 0.0 then 1 else 0
  {
    hide Advances, CreditFront, Positive;
    if size <= 0.0 || q == [] {
      PositiveNonNegative(q);
      AdvancesRefl(q, ids);
    } else {
      var take := FrontTake(q, size);
      var front := CreditFront(q[0], orders, take, now);
      ShortenAdvances(q, take, ids);
      ShortenPositive(q, take);
      ConsumeAdvances(Shorten(q, take), front.0, size - take, now, ids);
      AdvancesTrans(q, Shorten(q, take), Consume(q, orders, size, now).queue, ids);
    }
  }

  lemma {:induction false} PositiveNonNegative(q: seq<Slot>)
    requires Positive(q)
    ensures NonNegative(q)
  {
  }

  lemma {:induction false} FrontTake(q: seq<Slot>, size: real) returns (take: real)
    requires Positive(q) && q != [] && 0.0 < size
    ensures take == Min(size, q[0].qty) && 0.0 < take
  {
    take := Min(size, q[0].qty);
  }

  lemma {:induction false} WithoutOwnerAdvances(q: seq<Slot>, id: nat, ids: set<nat>)
    requires NonNegative(q)
    ensures Advances(q, WithoutOwner(q, id), ids)
  {
    if q != [] {
      WithoutOwnerAdvances(q[1..], id, ids);
      if q[0].owner != Some(id) { assert WithoutOwner(q, id)[1..] == WithoutOwner(q[1..], id); }
    }
  }

  // --- Every step advances every level ----------------------------------------------------

  /** No order in flight is among `ids`. */
  predicate NoneInFlight(flight: seq<Order>, ids: set<nat>) {
    forall i :: 0 <= i < |flight| ==> flight[i].id !in ids
  }

  ghost predicate LevelAdvances(s: State, s': State, level: Level, ids: set<nat>) {
    Advances(QueueAt(s, level), QueueAt(s', level), ids)
  }

  lemma {:induction false} SameLevel(s: State, s': State, level: Level, ids: set<nat>)
    requires LevelOk(s, level) && QueueAt(s', level) == QueueAt(s, level)
    ensures LevelAdvances(s, s', level, ids)
  {
    AdvancesRefl(QueueAt(s, level), ids);
  }

  lemma {:induction false} LevelTrans(s: State, s1: State, s2: State, level: Level, ids: set<nat>)
    requires LevelAdvances(s, s1, level, ids) && LevelAdvances(s1, s2, level, ids)
    ensures LevelAdvances(s, s2, level, ids)
  {
    AdvancesTrans(QueueAt(s, level), QueueAt(s1, level), QueueAt(s2, level), ids);
  }

  lemma {:induction false} MatchAdvances(s: State, o: Order, level: Level, ids: set<nat>)
    requires LevelOk(s, level) && o.id !in ids
    ensures LevelAdvances(s, Match(s, o).0, level, ids)
  {
    hide Advances, Own, Resting, Walk, Joined;
    var s' := Match(s, o).0;
    if QueueAt(s', level) == QueueAt(s, level) {
      SameLevel(s, s', level, ids);
    } else {
      var book := s.books[KeyOf(o)];
      var o' := Cross(o, book, s.now).0;
      CrossKeeps(o, book, s.now);
      JoinedAdvances(QueueAt(s, level), SizeAt(NearSide(book, o'.side), o'.price), o'.id, Remaining(o'), ids);
    }
  }

  lemma {:induction false} LevelOkOf(s: State, flight: seq<Order>, level: Level)
    requires Inv(s, flight)
    ensures LevelOk(s, level) && Positive(QueueAt(s, level))
  {
  }

  lemma {:induction false} MatchAllAdvances(s: State, ready: seq<Timed<Order>>, rest: seq<Order>,
                                            level: Level, ids: set<nat>)
    requires Inv(s, Items(ready) + rest) && NoneInFlight(Items(ready), ids)
    ensures LevelAdvances(s, MatchAll(s, ready).0, level, ids)
    decreases |ready|
  {
    hide Inv, Match, Advances, LevelOk;
    if ready == [] {
      LevelOkOf(s, Items(ready) + rest, level);
      SameLevel(s, s, level, ids);
    } else {
      var s1 := s.(now := Later(s.now, ready[0].due));
      var tail := Items(ready[1..]) + rest;
      ClockAndBooks(s, Items(ready) + rest, s1);
      assert Items(ready) + rest == [ready[0].item] + tail;
      assert Items(ready)[0] == ready[0].item && Items(ready)[1..] == Items(ready[1..]);
      MatchKeeps(s1, ready[0].item, tail);
      LevelOkOf(s1, [ready[0].item] + tail, level);
      MatchAdvances(s1, ready[0].item, level, ids);
      var s2 := Match(s1, ready[0].item).0;
      MatchAllAdvances(s2, ready[1..], rest, level, ids);
      LevelTrans(s, s2, MatchAll(s, ready).0, level, ids);
    }
  }

  lemma {:induction false} DrainSubmitsAdvances(s: State, upto: nat, latency: Latency, level: Level, ids: set<nat>)
    requires Sound(s) && NoneInFlight(Items(s.submits.waiting), ids)
    ensures LevelAdvances(s, DrainSubmits(s, upto, latency), level, ids)
  {
    hide Inv, Schedule, MatchAll, Serve, Ready, Items, Advances;
    var s0 := s.(submits := Serve(s.submits, upto, s.now));
    var ready, rest := Ready(s.submits, upto), Items(s0.submits.waiting);
    ReadyFlight(s, upto);
    forall i | 0 <= i < |Items(ready)| ensures Items(ready)[i].id !in ids {
      assert Items(ready)[i] in Items(ready);
      var j :| 0 <= j < |Items(s.submits.waiting)| && Items(s.submits.waiting)[j] == Items(ready)[i];
    }
    MatchAllAdvances(s0, ready, rest, level, ids);
    MatchAllLegs(s0, ready);
    var m := MatchAll(s0, ready);
    ScheduleOnlyFills(m.0, m.1, latency);
  }

  lemma {:induction false} QuoteAdvances(s: State, key: string, side: Side, quote: Quote, level: Level, ids: set<nat>)
    requires LevelOk(s, level)
    ensures LevelAdvances(s, ReconcileQuote(s, key, side, quote), level, ids)
  {
    hide Advances, Own, Resting, Reconciled;
    var s' := ReconcileQuote(s, key, side, quote);
    if QueueAt(s', level) == QueueAt(s, level) {
      SameLevel(s, s', level, ids);
    } else {
      ReconciledAdvances(QueueAt(s, level), quote.sz, ids);
    }
  }

  lemma {:induction false} ReconcileAdvances(s: State, flight: seq<Order>, key: string, book: Book, lvl: nat,
                                             level: Level, ids: set<nat>)
    requires Inv(s, flight) && lvl <= BOOK_DEPTH
    ensures LevelAdvances(s, ReconcileFrom(s, key, book, lvl), level, ids)
    decreases BOOK_DEPTH - lvl
  {
    hide Inv, ReconcileQuote, Advances, LevelOk;
    LevelOkOf(s, flight, level);
    if lvl == BOOK_DEPTH {
      SameLevel(s, s, level, ids);
    } else {
      var s1 := ReconcileQuote(s, key, Buy, book.bids[lvl]);
      var s2 := ReconcileQuote(s1, key, Sell, book.asks[lvl]);
      QuoteKeeps(s, flight, key, Buy, book.bids[lvl]);
      QuoteKeeps(s1, flight, key, Sell, book.asks[lvl]);
      LevelOkOf(s1, flight, level);
      QuoteAdvances(s, key, Buy, book.bids[lvl], level, ids);
      QuoteAdvances(s1, key, Sell, book.asks[lvl], level, ids);
      LevelTrans(s, s1, s2, level, ids);
      ReconcileAdvances(s2, flight, key, book, lvl + 1, level, ids);
      LevelTrans(s, s2, ReconcileFrom(s2, key, book, lvl + 1), level, ids);
    }
  }

  lemma {:induction false} SnapshotAdvances(s: State, flight: seq<Order>, book: Book, level: Level, ids: set<nat>)
    requires Inv(s, flight)
    ensures LevelAdvances(s, TakeSnapshot(s, book).0, level, ids)
  {
    hide Inv, Advances, Backstop;
    var key := Key(book.exchange, book.symbol);
    var s0 := s.(now := book.ts);
    ClockAndBooks(s, flight, s0);
    ReconcileAdvances(s0, flight, key, book, 0, level, ids);
    assert QueueAt(TakeSnapshot(s, book).0, level) == QueueAt(ReconcileFrom(s0, key, book, 0), level);
  }

  lemma {:induction false} PrintAdvances(s: State, flight: seq<Order>, t: Trade, level: Level, ids: set<nat>)
    requires Inv(s, flight)
    ensures LevelAdvances(s, TakePrint(s, t).0, level, ids)
  {
    hide Inv, Advances, Consume, LevelOk;
    LevelOkOf(s, flight, level);
    var s' := TakePrint(s, t).0;
    if QueueAt(s', level) == QueueAt(s, level) {
      SameLevel(s, s', level, ids);
    } else {
      ConsumeAdvances(QueueAt(s, level), OrdersAt(s, level.key), t.quantity, t.ts, ids);
    }
  }

  lemma {:induction false} CancelAdvances(s: State, exchange: string, symbol: string, id: nat,
                                          level: Level, ids: set<nat>)
    requires Sound(s)
    ensures LevelAdvances(s, Cancel(s, exchange, symbol, id).0, level, ids)
  {
    hide Inv, Advances, WithoutOwner, LevelOk;
    LevelOkOf(s, Items(s.submits.waiting), level);
    var s' := Cancel(s, exchange, symbol, id).0;
    if QueueAt(s', level) == QueueAt(s, level) {
      SameLevel(s, s', level, ids);
    } else {
      WithoutOwnerAdvances(QueueAt(s, level), id, ids);
    }
  }

  /** The ids that own a slot at a level. */
  ghost predicate AreOwnersAt(s: State, level: Level, ids: set<nat>) {
    forall id :: id in ids ==> Owns(QueueAt(s, level), id)
  }

  lemma {:induction false} OwnersNotInFlight(s: State, level: Level, ids: set<nat>)
    requires Sound(s) && AreOwnersAt(s, level, ids)
    ensures NoneInFlight(Items(s.submits.waiting), ids)
    ensures OwnersDistinct(QueueAt(s, level))
    ensures forall id :: id in ids ==> id in Ids(OrdersAt(s, level.key))
  {
    hide LevelOk;
    var flight, q, orders := Items(s.submits.waiting), QueueAt(s, level), OrdersAt(s, level.key);
    forall id | id in ids ensures id in Ids(orders) {
      var k :| 0 <= k < |q| && q[k].owner == Some(id);
      SlotHasOrder(s, level, k);
      var i :| 0 <= i < |orders| && orders[i].id == id;
      assert orders[i] in orders;
    }
    forall i | 0 <= i < |flight| ensures flight[i].id !in ids {
      assert flight[i] in flight && flight[i].id in Ids(flight);
    }
    forall i, j | 0 <= i < j < |q| && q[i].owner.Some? ensures q[i].owner != q[j].owner {
      if q[j].owner.Some? { SlotsAreDistinct(s, level, i, j); }
    }
  }

  lemma {:induction false} StepAdvances(s: State, input: Input, latency: Latency, level: Level, ids: set<nat>)
    requires Sound(s) && Valid(s, input) && AreOwnersAt(s, level, ids)
    ensures LevelAdvances(s, Step(s, input, latency), level, ids)
  {
    hide Inv, Advances, DrainSubmits, TakeSnapshot, TakePrint, Schedule, Cancel, Serve, LevelOk, Owns;
    OwnersNotInFlight(s, level, ids);
    var flight := Items(s.submits.waiting);
    LevelOkOf(s, flight, level);
    match input
    case SnapshotIn(book) =>
      DrainSubmitsAdvances(s, book.ts, latency, level, ids);
      DrainSubmitsKeeps(s, book.ts, latency);
      var s0 := DrainSubmits(s, book.ts, latency);
      SnapshotAdvances(s0, Items(s0.submits.waiting), book, level, ids);
      var (s1, reports) := TakeSnapshot(s0, book);
      ScheduleOnlyFills(s1, reports, latency);
      LevelTrans(s, s0, s1, level, ids);
    case TradeIn(t) =>
      DrainSubmitsAdvances(s, t.ts, latency, level, ids);
      DrainSubmitsKeeps(s, t.ts, latency);
      var s0 := DrainSubmits(s, t.ts, latency);
      PrintAdvances(s0, Items(s0.submits.waiting), t, level, ids);
      var (s1, reports) := TakePrint(s0, t);
      ScheduleOnlyFills(s1, reports, latency);
      LevelTrans(s, s0, s1, level, ids);
    case SubmitIn(order) => SubmitAdvances(s, order, latency, level, ids);
    case CancelIn(exchange, symbol, id) => CancelAdvances(s, exchange, symbol, id, level, ids);
  }

  lemma {:induction false} SubmitAdvances(s: State, order: Order, latency: Latency, level: Level, ids: set<nat>)
    requires Sound(s) && Fresh(s, Items(s.submits.waiting), order) && AreOwnersAt(s, level, ids)
    ensures LevelAdvances(s, Submit(s, order, latency), level, ids)
  {
    hide Inv, Advances, DrainSubmits, Serve, LevelOk;
    OwnersNotInFlight(s, level, ids);
    LevelOkOf(s, Items(s.submits.waiting), level);
    var o := Stamped(s, order);
    if Refused(s, order) {
      SameLevel(s, s, level, ids);
    } else {
      var waiting := s.submits.waiting;
      var s1 := Accept(s, o, latency);
      AcceptKeeps(s, Items(waiting), o, latency);
      ItemsAppend(waiting, [s1.submits.waiting[|waiting|]]);
      assert Items([s1.submits.waiting[|waiting|]]) == [o];
      forall i | 0 <= i < |Items(waiting) + [o]| ensures (Items(waiting) + [o])[i].id !in ids {
        if i == |waiting| { assert o.id !in Ids(OrdersAt(s, level.key)); }
      }
      DrainSubmitsAdvances(s1, s.now, latency, level, ids);
      assert QueueAt(s1, level) == QueueAt(s, level);
    }
  }

  // --- Whole runs ------------------------------------------------------------------------------

  /** `id` owns a slot at the level before and after every step of the run. */
  ghost predicate RestsThroughout(s: State, inputs: seq<Input>, latency: Latency, level: Level, id: nat)
    decreases |inputs|
  {
    Owns(QueueAt(s, level), id)
    && (inputs != [] ==> RestsThroughout(Step(s, inputs[0], latency), inputs[1..], latency, level, id))
  }

  /** While an order rests at a level, the quantity ahead of it never grows. */
  lemma {:induction false} PriorityNeverLost(s: State, inputs: seq<Input>, latency: Latency, level: Level, id: nat)
    requires Sound(s) && ValidRun(s, inputs, latency) && RestsThroughout(s, inputs, latency, level, id)
    ensures AheadOfOrder(QueueAt(Run(s, inputs, latency), level), id) <= AheadOfOrder(QueueAt(s, level), id)
    decreases |inputs|
  {
    hide Sound, Valid, Step, Owns, AheadOfOrder, Advances, LevelOk, OwnersDistinct;
    if inputs != [] {
      var s1 := Step(s, inputs[0], latency);
      SoundLevel(s, level, {id});
      StepAdvances(s, inputs[0], latency, level, {id});
      StepKeeps(s, inputs[0], latency);
      AdvancesAhead(QueueAt(s, level), QueueAt(s1, level), {id}, id);
      PriorityNeverLost(s1, inputs[1..], latency, level, id);
    }
  }

  lemma {:induction false} SoundLevel(s: State, level: Level, ids: set<nat>)
    requires Sound(s) && forall id :: id in ids ==> Owns(QueueAt(s, level), id)
    ensures AreOwnersAt(s, level, ids) && OwnersDistinct(QueueAt(s, level)) && Positive(QueueAt(s, level))
  {
    OwnersNotInFlight(s, level, ids);
    LevelOkOf(s, Items(s.submits.waiting), level);
  }

  /** While two orders rest at a level, neither overtakes the other. */
  lemma {:induction false} NoOvertaking(s: State, inputs: seq<Input>, latency: Latency, level: Level,
                                        id: nat, other: nat)
    requires Sound(s) && ValidRun(s, inputs, latency) && id != other
    requires RestsThroughout(s, inputs, latency, level, id) && RestsThroughout(s, inputs, latency, level, other)
    requires InFront(QueueAt(s, level), id, other)
    ensures InFront(QueueAt(Run(s, inputs, latency), level), id, other)
    decreases |inputs|
  {
    hide Sound, Valid, Step, Owns, InFront, Advances, LevelOk, OwnersDistinct;
    if inputs != [] {
      var s1 := Step(s, inputs[0], latency);
      SoundLevel(s, level, {id, other});
      StepAdvances(s, inputs[0], latency, level, {id, other});
      StepKeeps(s, inputs[0], latency);
      AdvancesInFront(QueueAt(s, level), QueueAt(s1, level), {id, other}, id, other);
      NoOvertaking(s1, inputs[1..], latency, level, id, other);
    }
  }
}
