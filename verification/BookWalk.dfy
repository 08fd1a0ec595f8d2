/** Orders that meet the far side of the book: the level walk of market and
    crossing limit orders, and the backstop for limit orders that rest without
    a queue slot (fill_book_until, fill_crossing_limits in
    matching_engine_fills.cpp). */
module BookWalk {
  import opened Orders
  import opened FillAccounts
  import opened SlotQueues

  /** A level at `px` is within the cap; a market order has none. */
  predicate Acceptable(side: Side, px: int, cap: Option<int>) {
    match cap
    case None => true
    case Some(limit) => if side == Buy then px <= limit else px >= limit
  }

  function TakerReport(o: Order, take: real, px: int, now: nat): Report {
    Report(o.id, o.clientId, o.exchange, o.symbol, if o.kind == Market then Market else Limit, o.side, Taker,
           o.quantity, if o.kind == Market then 0 else o.price, take, px, o.filled, Remaining(o) <= EPS, now)
  }

  /** The walk over the levels, best first. `o` is credited level by level. */
  function Walk(o: Order, levels: seq<Quote>, cap: Option<int>, now: nat): (Order, seq<Report>)
    decreases |levels|
  {
    if levels == [] || Remaining(o) <= EPS then (o, [])
    else if levels[0].px <= 0 || levels[0].sz <= 0.0 || !Acceptable(o.side, levels[0].px, cap) then (o, [])
    else
      var take := Min(Remaining(o), levels[0].sz);
      var o' := o.(filled := o.filled + take);
      var rest := Walk(o', levels[1..], cap, now);
      (rest.0, [TakerReport(o', take, levels[0].px, now)] + rest.1)
  }

  /** The ladder an order of this side trades against. */
  function FarSide(book: Book, side: Side): Ladder {
    if side == Buy then book.asks else book.bids
  }

  /** The ladder an order of this side rests on. */
  function NearSide(book: Book, side: Side): Ladder {
    if side == Buy then book.bids else book.asks
  }

  /** Quantity that can be had within the cap before the walk stops. */
  function Reachable(side: Side, levels: seq<Quote>, cap: Option<int>): real {
    if levels == [] || levels[0].px <= 0 || levels[0].sz <= 0.0 || !Acceptable(side, levels[0].px, cap) then 0.0
    else levels[0].sz + Reachable(side, levels[1..], cap)
  }

  /** The walk fills all it can reach, and nothing but `filled` changes. */
  lemma {:induction false} WalkFills(o: Order, levels: seq<Quote>, cap: Option<int>, now: nat)
    requires 0.0 <= Remaining(o)
    ensures var o2 := Walk(o, levels, cap, now).0;
            var most := Reachable(o.side, levels, cap);
            && o2 == o.(filled := o2.filled)
            && 0.0 <= most
            && o2.filled - o.filled <= Min(Remaining(o), most)
            && Min(Remaining(o), most) - EPS <= o2.filled - o.filled
            && (Remaining(o2) > EPS ==> o2.filled - o.filled == most)
    decreases |levels|
  {
    hide Acceptable, TakerReport, Min;
    if levels == [] || levels[0].px <= 0 || levels[0].sz <= 0.0 || !Acceptable(o.side, levels[0].px, cap) {
      AtMost(Remaining(o), 0.0);
    } else {
      ReachableNonNegative(o.side, levels[1..], cap);
      var rest := Reachable(o.side, levels[1..], cap);
      AtMost(Remaining(o), levels[0].sz + rest);
      if Remaining(o) > EPS {
        var take := Min(Remaining(o), levels[0].sz);
        AtMost(Remaining(o), levels[0].sz);
        var o' := o.(filled := o.filled + take);
        WalkFills(o', levels[1..], cap, now);
        TakeMore(Remaining(o), levels[0].sz, rest, Walk(o', levels[1..], cap, now).0.filled - o'.filled);
      }
    }
  }

  lemma {:induction false} AtMost(a: real, b: real)
    ensures Min(a, b) <= a && Min(a, b) <= b && (Min(a, b) == a || Min(a, b) == b)
  {
  }

  /** What one level and the rest give together. */
  lemma {:induction false} TakeMore(need: real, size: real, rest: real, got: real)
    requires 0.0 < size && 0.0 <= rest && EPS < need
    requires var left := need - Min(need, size);
             Min(left, rest) - EPS <= got <= Min(left, rest) && (left - got > EPS ==> got == rest)
    ensures var all, most := Min(need, size) + got, Min(need, size + rest);
            most - EPS <= all <= most && (need - all > EPS ==> all == size + rest)
  {
  }

  lemma {:induction false} WalkKeepsTerms(o: Order, levels: seq<Quote>, cap: Option<int>, now: nat)
    ensures var o' := Walk(o, levels, cap, now).0; o' == o.(filled := o'.filled)
    decreases |levels|
  {
    hide Acceptable, TakerReport;
    if levels == [] || Remaining(o) <= EPS {
    } else if levels[0].px <= 0 || levels[0].sz <= 0.0 || !Acceptable(o.side, levels[0].px, cap) {
    } else {
      WalkKeepsTerms(o.(filled := o.filled + Min(Remaining(o), levels[0].sz)), levels[1..], cap, now);
    }
  }

  lemma {:induction false} ReachableNonNegative(side: Side, levels: seq<Quote>, cap: Option<int>)
    ensures 0.0 <= Reachable(side, levels, cap)
  {
    if levels != [] { ReachableNonNegative(side, levels[1..], cap); }
  }

  /** Every report of the walk is a correct next fill. */
  lemma {:induction false} WalkSteps(o: Order, levels: seq<Quote>, cap: Option<int>, now: nat)
    requires o.kind != PostOnly && (o.kind != Market ==> cap == Some(o.price))
    ensures var (o2, reports) := Walk(o, levels, cap, now);
            Steps(o, reports, o2) && AllTakers(reports)
    decreases |levels|
  {
    hide Acceptable, TakerReport, Follows;
    if levels == [] || Remaining(o) <= EPS {
    } else if levels[0].px <= 0 || levels[0].sz <= 0.0 || !Acceptable(o.side, levels[0].px, cap) {
    } else {
      var take := Min(Remaining(o), levels[0].sz);
      var o' := o.(filled := o.filled + take);
      WalkSteps(o', levels[1..], cap, now);
      var r := TakerReport(o', take, levels[0].px, now);
      TakerFollows(o, take, levels[0].px, cap, now);
      assert ([r] + Walk(o', levels[1..], cap, now).1)[1..] == Walk(o', levels[1..], cap, now).1;
    }
  }

  lemma {:induction false} TakerFollows(o: Order, take: real, px: int, cap: Option<int>, now: nat)
    requires o.kind != PostOnly && (o.kind != Market ==> cap == Some(o.price))
    requires Remaining(o) > EPS && 0.0 < take <= Remaining(o) && Acceptable(o.side, px, cap)
    ensures var r := TakerReport(o.(filled := o.filled + take), take, px, now);
            Follows(o, o.filled, r) && r.cumQty == o.filled + take && r.role == Taker
  {
  }

  /** One report per level, best level first; every level but the last is
      taken whole. */
  lemma {:induction false} WalkShape(o: Order, levels: seq<Quote>, cap: Option<int>, now: nat)
    ensures var reports := Walk(o, levels, cap, now).1;
            && |reports| <= |levels|
            && forall i :: 0 <= i < |reports| ==>
                 && reports[i].lastPrice == levels[i].px
                 && reports[i].role == Taker
                 && Acceptable(o.side, levels[i].px, cap)
                 && reports[i].lastQty <= levels[i].sz
                 && (i + 1 < |reports| ==> reports[i].lastQty == levels[i].sz)
    decreases |levels|
  {
    hide Acceptable;
    if levels == [] || Remaining(o) <= EPS {
    } else if levels[0].px <= 0 || levels[0].sz <= 0.0 || !Acceptable(o.side, levels[0].px, cap) {
    } else {
      var take := Min(Remaining(o), levels[0].sz);
      var o' := o.(filled := o.filled + take);
      WalkShape(o', levels[1..], cap, now);
      var r, rest := TakerReport(o', take, levels[0].px, now), Walk(o', levels[1..], cap, now).1;
      assert take < levels[0].sz ==> rest == [];
      forall i | 1 <= i <= |rest| ensures ([r] + rest)[i] == rest[i - 1] && levels[i] == levels[1..][i - 1] {}
    }
  }

  // --- Backstop for unseeded limit orders -------------------------------------

  /** The touch price that fills an unseeded order, or 0. */
  function BackstopPrice(o: Order, book: Book): int {
    if o.side == Buy then
      if book.asks[0].px > 0 && book.asks[0].px <= o.price then book.asks[0].px else 0
    else
      if book.bids[0].px > 0 && book.bids[0].px >= o.price then book.bids[0].px else 0
  }

  predicate BackstopFills(o: Order, book: Book) {
    o.kind == Limit && !o.seeded && BackstopPrice(o, book) > 0
  }

  function BackstopReport(o: Order, book: Book, now: nat): Report {
    Report(o.id, o.clientId, book.exchange, book.symbol, Limit, o.side, Maker, o.quantity, o.price,
           Remaining(o), BackstopPrice(o, book), o.quantity, true, now)
  }

  /** Fills and removes the unseeded limit orders that the book now crosses. */
  function Backstop(orders: seq<Order>, book: Book, now: nat): (seq<Order>, seq<Report>) {
    if orders == [] then ([], [])
    else
      var rest := Backstop(orders[1..], book, now);
      if BackstopFills(orders[0], book) then (rest.0, [BackstopReport(orders[0], book, now)] + rest.1)
      else ([orders[0]] + rest.0, rest.1)
  }

  lemma {:induction false} BackstopFollows(o: Order, book: Book, now: nat)
    requires BackstopFills(o, book) && Remaining(o) > EPS && KeyOf(o) == Key(book.exchange, book.symbol)
    ensures Follows(o, o.filled, BackstopReport(o, book, now)) && BackstopReport(o, book, now).role == Maker
  {
  }

  /** The backstop keeps the accounts of the orders that leave, which are all
      closed, and of those that stay. */
  lemma {:induction false} BackstopAccounts(log: seq<Entry>, orders: seq<Order>, book: Book, now: nat)
    requires AccountsOk(log) && DistinctIds(orders) && AllTracked(log, orders)
    requires forall i :: 0 <= i < |orders| ==>
               Remaining(orders[i]) > EPS && KeyOf(orders[i]) == Key(book.exchange, book.symbol)
    ensures var (kept, reports) := Backstop(orders, book, now);
            var log' := log + Entries(reports);
            && AccountsOk(log') && AllTracked(log', kept) && OthersSame(log, log', Ids(orders))
            && forall o :: o in orders && o !in kept ==> !Open(log', o.id)
    decreases |orders|
  {
    hide Tracks, Follows, AccountsOk, OthersSame, BackstopReport, BackstopFills, Open;
    var (kept, reports) := Backstop(orders, book, now);
    if orders == [] {
      assert log + Entries(reports) == log;
      SameLog(log, Ids(orders));
    } else {
      var o, rest := orders[0], orders[1..];
      assert Ids(orders) == {o.id} + Ids(rest);
      assert forall i :: 0 <= i < |rest| ==> rest[i] == orders[i + 1];
      assert o.id !in Ids(rest);
      if BackstopFills(o, book) {
        BackstopHit(log, o, rest, book, now);
        var log1 := log + [Filled(BackstopReport(o, book, now))];
        BackstopAccounts(log1, rest, book, now);
        var log2 := log + Entries(reports);
        assert log2 == log1 + Entries(reports[1..]);
        OthersSameWiden(log, log1, {o.id}, Ids(orders));
        OpenElsewhere(log1, log2, Ids(rest), o.id);
        OthersSameWiden(log1, log2, Ids(rest), Ids(orders));
        OthersSameTransitive(log, log1, log2, Ids(orders));
      } else {
        BackstopAccounts(log, rest, book, now);
        OthersSameWiden(log, log + Entries(reports), Ids(rest), Ids(orders));
        AllTrackedElsewhere(log, log + Entries(reports), Ids(rest), [o]);
        assert Tracks(log + Entries(reports), [o][0]);
      }
    }
  }

  lemma {:induction false} OpenElsewhere(before: seq<Entry>, after: seq<Entry>, ids: set<nat>, id: nat)
    requires OthersSame(before, after, ids) && id !in ids
    ensures Open(after, id) == Open(before, id)
  {
    assert SameAccount(before, after, id);
  }

  /** One order that the backstop fills. */
  lemma {:induction false} BackstopHit(log: seq<Entry>, o: Order, rest: seq<Order>, book: Book, now: nat)
    requires AccountsOk(log) && Tracks(log, o) && AllTracked(log, rest) && BackstopFills(o, book)
    requires Remaining(o) > EPS && KeyOf(o) == Key(book.exchange, book.symbol)
    requires forall i :: 0 <= i < |rest| ==> rest[i].id != o.id
    ensures var log1 := log + [Filled(BackstopReport(o, book, now))];
            AccountsOk(log1) && AllTracked(log1, rest) && OthersSame(log, log1, {o.id}) && !Open(log1, o.id)
  {
    hide AccountsOk, Tracks, OthersSame, Follows, BackstopReport, Open;
    var r := BackstopReport(o, book, now);
    BackstopFollows(o, book, now);
    EmitOne(log, o, r);
    AllTrackedElsewhere(log, log + [Filled(r)], {o.id}, rest);
    BackstopDone(o, book, now);
    TrackedOpen(log + [Filled(r)], o.(filled := r.cumQty));
  }

  lemma {:induction false} BackstopDone(o: Order, book: Book, now: nat)
    requires BackstopFills(o, book)
    ensures o.kind == Limit && BackstopReport(o, book, now).cumQty == o.quantity
  {
  }

  lemma {:induction false} BackstopOfNone(book: Book, now: nat)
    ensures Backstop([], book, now) == ([], [])
  {
  }

  lemma {:induction false} BackstopKeeps(orders: seq<Order>, book: Book, now: nat)
    ensures Sublist(Backstop(orders, book, now).0, orders)
  {
    if orders != [] { BackstopKeeps(orders[1..], book, now); }
  }

  /** No own slot loses its order to the backstop. */
  lemma {:induction false} BackstopClaims(orders: seq<Order>, book: Book, now: nat, side: Side, price: int)
    ensures Resting(Backstop(orders, book, now).0, side, price) == Resting(orders, side, price)
  {
    if orders != [] { BackstopClaims(orders[1..], book, now, side, price); }
  }
}
