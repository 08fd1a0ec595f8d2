/** What becomes of an order when it is matched: which levels of which side it
    takes, how much, and where it queues with what is left. */
module EngineArrivals {
  import opened Orders
  import opened SlotQueues
  import opened FillAccounts
  import opened BookWalk
  import opened EngineModel
  import opened EngineSteps

  // --- Taking -------------------------------------------------------------------------------

  /** The level can be taken: it shows a price and a size, and the price is
      within the limit of an order that has one. */
  predicate Usable(o: Order, quote: Quote) {
    && quote.px > 0 && quote.sz > 0.0
    && (o.kind != Market ==> if o.side == Buy then quote.px <= o.price else quote.px >= o.price)
  }

  function SizeSum(levels: seq<Quote>): real {
    if levels == [] then 0.0 else levels[0].sz + SizeSum(levels[1..])
  }

  /** The order takes from these levels: one report per level, best level first,
      at its price and for at most its size, every level before the last taken
      whole; and as much in all as it has left or the leading levels it can take
      show, whichever is less, apart from dust. */
  ghost predicate TakesFrom(o: Order, levels: seq<Quote>, reports: seq<Report>) {
    exists n: nat :: Leading(o, levels, n) && TakesTo(o, levels, reports, n)
  }

  /** The first `n` levels are those that can be taken. */
  predicate Leading(o: Order, levels: seq<Quote>, n: nat) {
    && n <= |levels|
    && (forall i :: 0 <= i < n ==> Usable(o, levels[i]))
    && (n < |levels| ==> !Usable(o, levels[n]))
  }

  predicate TakesTo(o: Order, levels: seq<Quote>, reports: seq<Report>, n: nat)
    requires n <= |levels|
  {
    && |reports| <= n
    && (forall i :: 0 <= i < |reports| ==> TakesLevel(reports, levels, i))
    && LastQtySum(reports) <= Min(Remaining(o), SizeSum(levels[..n])) <= LastQtySum(reports) + EPS
  }

  predicate TakesLevel(reports: seq<Report>, levels: seq<Quote>, i: nat)
    requires i < |reports| <= |levels|
  {
    && reports[i].lastPrice == levels[i].px
    && 0.0 < reports[i].lastQty <= levels[i].sz
    && (i + 1 < |reports| ==> reports[i].lastQty == levels[i].sz)
  }

  lemma {:induction false} LastQtyCons(r: Report, rest: seq<Report>)
    ensures LastQtySum([r] + rest) == r.lastQty + LastQtySum(rest)
  {
    var all := [r] + rest;
    if rest != [] {
      LastQtyCons(r, rest[..|rest| - 1]);
      assert all[..|all| - 1] == [r] + rest[..|rest| - 1];
    } else {
      assert all[..0] == [];
    }
  }

  lemma {:induction false} NothingTaken()
    ensures LastQtySum([]) == 0.0
  {
  }

  lemma {:induction false} NothingToTake(o: Order, levels: seq<Quote>, reports: seq<Report>)
    requires reports == [] && 0.0 <= Remaining(o)
    requires levels == [] || !Usable(o, levels[0])
    ensures TakesFrom(o, levels, reports)
  {
    assert SizeSum(levels[..0]) == 0.0 && LastQtySum(reports) == 0.0;
    assert Leading(o, levels, 0) && TakesTo(o, levels, reports, 0);
  }

  lemma {:induction false} LeadingSize(o: Order, levels: seq<Quote>) returns (n: nat)
    ensures n <= |levels| && (forall i :: 0 <= i < n ==> Usable(o, levels[i]))
    ensures (n < |levels| ==> !Usable(o, levels[n])) && 0.0 <= SizeSum(levels[..n])
  {
    if levels == [] || !Usable(o, levels[0]) {
      n := 0;
    } else {
      var k := LeadingSize(o, levels[1..]);
      n := k + 1;
      assert levels[..n][1..] == levels[1..][..k];
      forall i | 0 <= i < n ensures Usable(o, levels[i]) {
        if i > 0 { assert levels[i] == levels[1..][i - 1]; }
      }
    }
  }

  /** At most dust left: nothing more is taken. */
  lemma {:induction false} DoneTaking(o: Order, levels: seq<Quote>, reports: seq<Report>)
    requires reports == [] && 0.0 <= Remaining(o) <= EPS
    ensures TakesFrom(o, levels, reports)
  {
    var n := LeadingSize(o, levels);
    assert LastQtySum(reports) == 0.0;
    assert Leading(o, levels, n) && TakesTo(o, levels, reports, n);
  }

  lemma {:induction false} SizeSumCons(levels: seq<Quote>, n: nat)
    requires 1 <= n <= |levels|
    ensures SizeSum(levels[..n]) == levels[0].sz + SizeSum(levels[1..][..n - 1])
  {
    assert levels[..n][1..] == levels[1..][..n - 1];
  }

  lemma {:induction false} TakesLevelCons(r: Report, rest: seq<Report>, levels: seq<Quote>)
    requires |rest| < |levels| && r.lastPrice == levels[0].px && 0.0 < r.lastQty <= levels[0].sz
    requires rest != [] ==> r.lastQty == levels[0].sz
    requires forall i :: 0 <= i < |rest| ==> TakesLevel(rest, levels[1..], i)
    ensures forall i :: 0 <= i <= |rest| ==> TakesLevel([r] + rest, levels, i)
  {
    forall i | 0 <= i <= |rest| ensures TakesLevel([r] + rest, levels, i) {
      if i > 0 { assert TakesLevel(rest, levels[1..], i - 1); }
    }
  }

  /** The first level, then the rest of them. */
  lemma {:induction false} TakeOneMore(o: Order, take: real, levels: seq<Quote>, r: Report, rest: seq<Report>)
    requires levels != [] && Usable(o, levels[0]) && take == Min(Remaining(o), levels[0].sz) && 0.0 < take
    requires r.lastPrice == levels[0].px && r.lastQty == take
    requires TakesFrom(o.(filled := o.filled + take), levels[1..], rest)
    requires rest == [] || take < Remaining(o)
    ensures TakesFrom(o, levels, [r] + rest)
  {
    hide TakesTo, Usable;
    var o', tail := o.(filled := o.filled + take), levels[1..];
    var m: nat :| Leading(o', tail, m) && TakesTo(o', tail, rest, m);
    LeadingCons(o, o', levels, m);
    TakesToCons(o, take, levels, r, rest, m);
  }

  lemma {:induction false} LeadingCons(o: Order, o': Order, levels: seq<Quote>, m: nat)
    requires levels != [] && Usable(o, levels[0]) && o' == o.(filled := o'.filled) && Leading(o', levels[1..], m)
    ensures Leading(o, levels, m + 1)
    ensures 0.0 <= SizeSum(levels[1..][..m])
  {
    hide Usable;
    SameUsable(o, o', levels);
    UsableSizes(o', levels[1..], m);
    forall i | 0 <= i < m + 1 ensures Usable(o, levels[i]) {
      if i > 0 { assert levels[1..][i - 1] == levels[i]; }
    }
    assert m + 1 < |levels| ==> levels[m + 1] == levels[1..][m];
  }

  lemma {:induction false} TakesToCons(o: Order, take: real, levels: seq<Quote>, r: Report, rest: seq<Report>, m: nat)
    requires levels != [] && m <= |levels[1..]| && take == Min(Remaining(o), levels[0].sz) && 0.0 < take
    requires r.lastPrice == levels[0].px && r.lastQty == take && (rest == [] || take < Remaining(o))
    requires TakesTo(o.(filled := o.filled + take), levels[1..], rest, m) && 0.0 <= SizeSum(levels[1..][..m])
    ensures TakesTo(o, levels, [r] + rest, m + 1)
  {
    hide TakesLevel, SizeSum, LastQtySum;
    LastQtyCons(r, rest);
    SizeSumCons(levels, m + 1);
    TakesLevelCons(r, rest, levels);
  }

  lemma {:induction false} SameUsable(o: Order, o': Order, levels: seq<Quote>)
    requires o' == o.(filled := o'.filled)
    ensures forall i :: 0 <= i < |levels| ==> (Usable(o', levels[i]) <==> Usable(o, levels[i]))
  {
  }

  lemma {:induction false} UsableSizes(o: Order, levels: seq<Quote>, n: nat)
    requires n <= |levels| && forall i :: 0 <= i < n ==> Usable(o, levels[i])
    ensures 0.0 <= SizeSum(levels[..n])
  {
    if n > 0 {
      assert levels[..n][1..] == levels[1..][..n - 1];
      UsableSizes(o, levels[1..], n - 1);
    }
  }

  lemma {:induction false} WalkTakes(o: Order, levels: seq<Quote>, cap: Option<int>, now: nat)
    requires 0.0 <= Remaining(o) && cap == (if o.kind == Market then None else Some(o.price))
    ensures TakesFrom(o, levels, Walk(o, levels, cap, now).1)
    decreases |levels|
  {
    hide TakesFrom;
    if Remaining(o) <= EPS {
      DoneTaking(o, levels, []);
    } else if levels == [] || !Usable(o, levels[0]) {
      NothingToTake(o, levels, []);
    } else {
      var take := Min(Remaining(o), levels[0].sz);
      var o' := o.(filled := o.filled + take);
      WalkTakes(o', levels[1..], cap, now);
      TakeOneMore(o, take, levels, TakerReport(o', take, levels[0].px, now), Walk(o', levels[1..], cap, now).1);
    }
  }

  /** An order for a known book takes, at most to its limit, from the asks if it
      buys and from the bids if it sells; a post-only order takes nothing. */
  lemma {:induction false} MatchTakes(s: State, o: Order)
    requires Key(o.exchange, o.symbol) in s.books && Remaining(o) > EPS
    ensures var book, reports := s.books[Key(o.exchange, o.symbol)], Match(s, o).1;
            if o.kind == PostOnly then reports == []
            else TakesFrom(o, if o.side == Buy then book.asks else book.bids, reports)
  {
    hide TakesFrom, Walk;
    var book := s.books[Key(o.exchange, o.symbol)];
    var levels: seq<Quote> := if o.side == Buy then book.asks else book.bids;
    if o.kind == Market {
      WalkTakes(o, levels, None, s.now);
    } else if o.kind == Limit {
      if Crosses(book, o.side, o.price) {
        WalkTakes(o, levels, Some(o.price), s.now);
      } else {
        NothingToTake(o, levels, []);
      }
    }
  }

  /** An order whose book has not been seen takes nothing. */
  lemma {:induction false} MatchTakesNothing(s: State, o: Order)
    requires Key(o.exchange, o.symbol) !in s.books
    ensures Match(s, o).1 == []
  {
  }

  // --- Queueing -----------------------------------------------------------------------------

  /** `size` is what these levels show at a price: the size of the first level
      there, 0 if there is none. */
  predicate Displays(levels: seq<Quote>, price: int, size: real) {
    if price > 0 && exists i :: 0 <= i < |levels| && levels[i].px == price
    then exists i :: 0 <= i < |levels| && levels[i].px == price && levels[i].sz == size
                     && forall j :: 0 <= j < i ==> levels[j].px != price
    else size == 0.0
  }

  lemma {:induction false} SizeAtDisplays(levels: seq<Quote>, price: int)
    ensures Displays(levels, price, SizeAt(levels, price))
  {
    if levels != [] && !(levels[0].px > 0 && levels[0].px == price) {
      SizeAtDisplays(levels[1..], price);
      assert forall i :: 0 <= i < |levels[1..]| ==> levels[1..][i] == levels[i + 1];
      if price > 0 && exists i :: 0 <= i < |levels| && levels[i].px == price {
        var i :| 0 <= i < |levels| && levels[i].px == price;
        assert levels[1..][i - 1].px == price;
        var k :| 0 <= k < |levels[1..]| && levels[1..][k].px == price && levels[1..][k].sz == SizeAt(levels[1..], price)
                 && forall j :: 0 <= j < k ==> levels[1..][j].px != price;
        forall j | 0 <= j < k + 1 ensures levels[j].px != price {
          if j > 0 { assert levels[1..][j - 1].px != price; }
        }
        assert levels[k + 1].px == price;
      }
    }
  }

  lemma {:induction false} DisplaysOnce(levels: seq<Quote>, price: int, a: real, b: real)
    requires Displays(levels, price, a) && Displays(levels, price, b)
    ensures a == b
  {
  }

  /** `o` has joined the back of its queue with `left` to fill. Ahead of it are the
      slots that were there, and, if none of them was venue volume, what the book
      displays at the order's own side and price. */
  ghost predicate Joins(before: State, after: State, o: Order, book: Book, left: real) {
    var level := Level(Key(o.exchange, o.symbol), o.side, o.price);
    var q := QueueAt(before, level);
    && (forall size :: Displays(if o.side == Buy then book.bids else book.asks, o.price, size) ==>
          QueueAt(after, level)
          == (if size > 0.0 && forall i :: 0 <= i < |q| ==> q[i].owner.Some? then q + [Slot(size, None)] else q)
             + [Slot(left, Some(o.id))])
    && (forall other: Level :: other != level ==> QueueAt(after, other) == QueueAt(before, other))
  }

  ghost predicate SameQueues(before: State, after: State) {
    forall level: Level :: QueueAt(after, level) == QueueAt(before, level)
  }

  /** `o` has been added to its book. */
  ghost predicate Rested(before: State, after: State, o: Order) {
    forall key: string ::
      OrdersAt(after, key) == OrdersAt(before, key) + if key == Key(o.exchange, o.symbol) then [o] else []
  }

  ghost predicate SameOrders(before: State, after: State) {
    forall key: string :: OrdersAt(after, key) == OrdersAt(before, key)
  }

  /** The queue after `o` has been filled to `o'` and rested. */
  lemma {:induction false} RestSeededJoins(s: State, before: State, o: Order, o': Order, book: Book)
    requires before.queues == s.queues && o' == o.(filled := o'.filled)
    ensures Joins(s, RestSeeded(before, o', book), o, book, Remaining(o'))
  {
    hide SizeAt, Displays;
    var near: seq<Quote> := if o.side == Buy then book.bids else book.asks;
    var shown, level := SizeAt(near, o.price), Level(Key(o.exchange, o.symbol), o.side, o.price);
    var after, q := RestSeeded(before, o', book), QueueAt(s, level);
    SizeAtDisplays(near, o.price);
    assert QueueAt(before, level) == q;
    assert QueueAt(after, level) == Joined(q, shown, o.id, Remaining(o'));
    assert HasVenue(q) <==> !forall i :: 0 <= i < |q| ==> q[i].owner.Some?;
    forall size | Displays(near, o.price, size)
      ensures QueueAt(after, level)
              == (if size > 0.0 && forall i :: 0 <= i < |q| ==> q[i].owner.Some? then q + [Slot(size, None)] else q)
                 + [Slot(Remaining(o'), Some(o.id))]
    {
      DisplaysOnce(near, o.price, size, shown);
    }
    forall other: Level | other != level ensures QueueAt(after, other) == QueueAt(s, other) {}
  }

  lemma {:induction false} StepsFill(o: Order, reports: seq<Report>, o2: Order)
    requires Steps(o, reports, o2)
    ensures LastQtySum(reports) == o2.filled - o.filled
    decreases |reports|
  {
    if reports != [] {
      StepsFill(o.(filled := reports[0].cumQty), reports[1..], o2);
      LastQtyCons(reports[0], reports[1..]);
      assert reports == [reports[0]] + reports[1..];
    }
  }

  lemma {:induction false} CrossFills(o: Order, book: Book, now: nat)
    requires Remaining(o) > EPS
    ensures var (o', reports) := Cross(o, book, now); LastQtySum(reports) == o'.filled - o.filled
  {
    hide Cross, LastQtySum, Steps;
    CrossSteps(o, book, now);
    StepsFill(o, Cross(o, book, now).1, Cross(o, book, now).0);
  }

  lemma {:induction false} RestSeededRests(s: State, before: State, o: Order, book: Book)
    requires before.pending == s.pending
    ensures Rested(s, RestSeeded(before, o, book), o.(seeded := true))
    ensures RestSeeded(before, o, book).books == before.books
  {
    hide Joined, SizeAt;
  }

  /** What is left of an order after it has taken: a market order's rest is gone;
      more than dust of any other joins its queue; if its book has not been seen
      it waits without a slot. */
  lemma {:induction false} MatchRests(s: State, o: Order)
    requires Remaining(o) > EPS
    ensures var (s', reports) := Match(s, o);
            var key := Key(o.exchange, o.symbol);
            var left := Remaining(o) - LastQtySum(reports);
            && s'.books == s.books
            && if o.kind == Market || (key in s.books && left <= EPS) then SameQueues(s, s') && SameOrders(s, s')
               else if key in s.books then
                 Joins(s, s', o, s.books[key], left)
                 && Rested(s, s', o.(filled := o.quantity - left, seeded := true))
               else SameQueues(s, s') && Rested(s, s', o)
  {
    hide Joins, Walk, LastQtySum, RestSeeded;
    var (s', reports) := Match(s, o);
    if KeyOf(o) in s.books {
      var book := s.books[KeyOf(o)];
      var o' := Cross(o, book, s.now).0;
      CrossKeeps(o, book, s.now);
      CrossFills(o, book, s.now);
      RestSeededJoins(s, Emit(s, reports), o, o', book);
      RestSeededRests(s, Emit(s, reports), o', book);
    } else {
      NothingTaken();
    }
  }
}
