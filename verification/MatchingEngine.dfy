/** The matching engine as a class: the loops of matching_engine.cpp,
    matching_engine_book.cpp and matching_engine_fills.cpp, each proved against
    the state functions of EngineModel.dfy. */
module MatchingEngine {
  import opened Orders
  import opened SlotQueues
  import opened CancelSpread
  import opened PrintMatching
  import opened FillAccounts
  import opened BookWalk
  import opened LatencyLegs
  import opened EngineModel
  import opened EngineSteps
  import opened EngineSchedule

  lemma {:induction false} TotalSnoc(q: seq<Slot>, i: nat)
    requires i < |q|
    ensures Total(q[..i + 1]) == Total(q[..i]) + q[i].qty
    ensures VenueTotal(q[..i + 1]) == VenueTotal(q[..i]) + (if q[i].owner.None? then q[i].qty else 0.0)
  {
    assert q[..i + 1] == q[..i] + [q[i]];
    TotalAppend(q[..i], [q[i]]);
    assert [q[i]][1..] == [];
  }

  /** Matching does not read the submit leg. */
  lemma {:induction false} MatchIgnoresSubmits(s: State, o: Order, leg: Leg<Order>)
    ensures var (s1, r1) := Match(s, o);
            Match(s.(submits := leg), o) == (s1.(submits := leg), r1)
  {
  }

  method VenueQuantity(q: seq<Slot>) returns (total: real)
    ensures total == VenueTotal(q)
  {
    total := 0.0;
    for i := 0 to |q|
      invariant total == VenueTotal(q[..i])
    {
      TotalSnoc(q, i);
      if q[i].owner.None? {
        total := total + q[i].qty;
      }
    }
    assert q[..|q|] == q;
  }

  // Each loop below keeps a "goal": what the specification makes of the whole
  // input is what has been produced so far, followed by what the specification
  // makes of the rest.

  ghost predicate DepthGoal(goal: (seq<Slot>, real), done: seq<Slot>, rest: seq<Slot>,
                            cancels: real, depth: real, n2: real, left: real)
    requires n2 > 0.0
  {
    var w := Weighted(rest, Shares(rest, cancels, depth, n2), left);
    goal.0 == done + w.0 && goal.1 == w.1
  }

  lemma {:induction false} WeightedUnfold(q: seq<Slot>, cancels: real, depth: real, n2: real, left: real)
    requires n2 > 0.0 && q != [] && left > 0.0
    ensures var below := depth + q[0].qty;
            var cut := Cut(q[0], Share(cancels, depth, below, n2), left);
            var w := Weighted(q[1..], Shares(q[1..], cancels, below, n2), left - cut);
            Weighted(q, Shares(q, cancels, depth, n2), left) == ([q[0].(qty := q[0].qty - cut)] + w.0, w.1)
  {
    hide Share, Cut;
    var below := depth + q[0].qty;
    var rest := Shares(q[1..], cancels, below, n2);
    assert Shares(q, cancels, depth, n2) == [Share(cancels, depth, below, n2)] + rest;
    assert Shares(q, cancels, depth, n2)[1..] == rest;
  }

  lemma {:induction false} DepthStep(goal: (seq<Slot>, real), done: seq<Slot>, rest: seq<Slot>,
                                     cancels: real, depth: real, n2: real, left: real)
    requires n2 > 0.0 && rest != [] && left > 0.0 && DepthGoal(goal, done, rest, cancels, depth, n2, left)
    ensures var below := depth + rest[0].qty;
            var cut := Cut(rest[0], Share(cancels, depth, below, n2), left);
            DepthGoal(goal, done + [rest[0].(qty := rest[0].qty - cut)], rest[1..], cancels, below, n2, left - cut)
  {
    hide Share, Cut, Weighted, Shares;
    WeightedUnfold(rest, cancels, depth, n2, left);
    var below := depth + rest[0].qty;
    var cut := Cut(rest[0], Share(cancels, depth, below, n2), left);
    Regroup(done, [rest[0].(qty := rest[0].qty - cut)],
            Weighted(rest[1..], Shares(rest[1..], cancels, below, n2), left - cut).0);
  }

  lemma {:induction false} Regroup<T>(a: seq<T>, b: seq<T>, c: seq<T>)
    ensures a + (b + c) == (a + b) + c
  {
  }

  lemma {:induction false} DepthEnd(goal: (seq<Slot>, real), done: seq<Slot>, rest: seq<Slot>,
                                    cancels: real, depth: real, n2: real, left: real)
    requires n2 > 0.0 && (rest == [] || left <= 0.0) && DepthGoal(goal, done, rest, cancels, depth, n2, left)
    ensures goal == (done + rest, left)
  {
  }

  /** First loop of the attribution: end-weighted shares. */
  method CancelByDepth(queue: seq<Slot>, cancels: real, total: real) returns (q: seq<Slot>, left: real)
    requires total == Total(queue) > 0.0
    ensures (q, left) == FirstPass(queue, cancels)
  {
    hide Weighted, Shares, Share, Square;
    var n2 := Square(total);
    var depth := 0.0;
    var i := 0;
    q, left := queue, cancels;
    ghost var goal := FirstPass(queue, cancels);
    assert queue[0..] == queue && queue[..0] == [];
    assert [] + goal.0 == goal.0;
    while i < |queue| && left > 0.0
      invariant 0 <= i <= |queue| == |q|
      invariant q[i..] == queue[i..]
      invariant DepthGoal(goal, q[..i], queue[i..], cancels, depth, n2, left)
    {
      var slot := q[i];
      assert queue[i..][0] == slot && queue[i..][1..] == queue[i + 1..];
      DepthStep(goal, q[..i], queue[i..], cancels, depth, n2, left);
      var below := depth + slot.qty;
      ghost var before := q;
      if slot.owner.None? {
        var cut := Share(cancels, depth, below, n2);
        if cut > slot.qty { cut := slot.qty; }
        if cut > left { cut := left; }
        q := q[i := slot.(qty := slot.qty - cut)];
        left := left - cut;
      }
      assert q[..i + 1] == before[..i] + [q[i]];
      depth := below;
      i := i + 1;
    }
    DepthEnd(goal, q[..i], queue[i..], cancels, depth, n2, left);
    assert q[..i] + q[i..] == q;
  }

  ghost predicate RemainderGoal(goal: (seq<Slot>, real), done: seq<Slot>, rest: seq<Slot>, avail: real, left: real)
    requires avail > 0.0
  {
    var p := Proportional(rest, Fractions(rest, avail), left);
    goal.0 == done + p.0 && goal.1 == p.1
  }

  lemma {:induction false} ProportionalUnfold(q: seq<Slot>, avail: real, left: real)
    requires avail > 0.0 && q != [] && left > 0.0
    ensures var cut := if q[0].owner.Some? then 0.0
                       else Min(Portion(left, Fraction(q[0].qty, avail)), q[0].qty);
            var p := Proportional(q[1..], Fractions(q[1..], avail), left - cut);
            Proportional(q, Fractions(q, avail), left) == ([q[0].(qty := q[0].qty - cut)] + p.0, p.1)
  {
    hide Portion, Fraction, Min;
    var rest := Fractions(q[1..], avail);
    assert Fractions(q, avail) == [Fraction(q[0].qty, avail)] + rest;
    assert Fractions(q, avail)[1..] == rest;
  }

  lemma {:induction false} RemainderStep(goal: (seq<Slot>, real), done: seq<Slot>, rest: seq<Slot>,
                                         avail: real, left: real)
    requires avail > 0.0 && rest != [] && left > 0.0 && RemainderGoal(goal, done, rest, avail, left)
    ensures var cut := if rest[0].owner.Some? then 0.0
                       else Min(Portion(left, Fraction(rest[0].qty, avail)), rest[0].qty);
            RemainderGoal(goal, done + [rest[0].(qty := rest[0].qty - cut)], rest[1..], avail, left - cut)
  {
    hide Portion, Fraction, Min, Proportional, Fractions;
    ProportionalUnfold(rest, avail, left);
    var cut := if rest[0].owner.Some? then 0.0
               else Min(Portion(left, Fraction(rest[0].qty, avail)), rest[0].qty);
    Regroup(done, [rest[0].(qty := rest[0].qty - cut)],
            Proportional(rest[1..], Fractions(rest[1..], avail), left - cut).0);
  }

  lemma {:induction false} RemainderEnd(goal: (seq<Slot>, real), done: seq<Slot>, rest: seq<Slot>,
                                        avail: real, left: real)
    requires avail > 0.0 && (rest == [] || left <= 0.0) && RemainderGoal(goal, done, rest, avail, left)
    ensures goal == (done + rest, left)
  {
  }

  /** Second loop: the residual in proportion to what is left. */
  method CancelByRemainder(queue: seq<Slot>, residual: real) returns (q: seq<Slot>, left: real)
    ensures (q, left) == SecondPass(queue, residual)
  {
    hide Proportional, Fractions, Fraction, Portion;
    q, left := queue, residual;
    if left <= EPS { return; }
    var avail := VenueQuantity(queue);
    if avail <= 0.0 { return; }
    var i := 0;
    ghost var goal := SecondPass(queue, residual);
    assert queue[0..] == queue && queue[..0] == [];
    assert [] + goal.0 == goal.0;
    while i < |queue| && left > 0.0
      invariant 0 <= i <= |queue| == |q|
      invariant q[i..] == queue[i..]
      invariant RemainderGoal(goal, q[..i], queue[i..], avail, left)
    {
      var slot := q[i];
      assert queue[i..][0] == slot && queue[i..][1..] == queue[i + 1..];
      RemainderStep(goal, q[..i], queue[i..], avail, left);
      ghost var before := q;
      if slot.owner.None? {
        var cut := Portion(left, Fraction(slot.qty, avail));
        if cut > slot.qty { cut := slot.qty; }
        q := q[i := slot.(qty := slot.qty - cut)];
        left := left - cut;
      }
      assert q[..i + 1] == before[..i] + [q[i]];
      i := i + 1;
    }
    RemainderEnd(goal, q[..i], queue[i..], avail, left);
    assert q[..i] + q[i..] == q;
  }

  method DistributeCancels(queue: seq<Slot>, cancels: real) returns (q: seq<Slot>)
    ensures q == Distribute(queue, cancels)
  {
    q := queue;
    if cancels <= 0.0 || |queue| == 0 { return; }
    var total := 0.0;
    for i := 0 to |queue|
      invariant total == Total(queue[..i])
    {
      TotalSnoc(queue, i);
      total := total + queue[i].qty;
    }
    assert queue[..|queue|] == queue;
    if total <= 0.0 { return; }
    var first, residual := CancelByDepth(queue, cancels, total);
    var second, _ := CancelByRemainder(first, residual);
    q := DropDust(second);
  }

  method BookQtyAtPrice(levels: seq<Quote>, price: int) returns (size: real)
    ensures size == SizeAt(levels, price)
  {
    assert levels[0..] == levels;
    for i := 0 to |levels|
      invariant SizeAt(levels, price) == SizeAt(levels[i..], price)
    {
      assert levels[i..][0] == levels[i] && levels[i..][1..] == levels[i + 1..];
      if levels[i].px > 0 && levels[i].px == price { return levels[i].sz; }
    }
    return 0.0;
  }

  /** Walks the levels until the order is done, the book is or the cap bites. */
  method FillBookUntil(order: Order, levels: seq<Quote>, cap: Option<int>, now: nat)
      returns (o: Order, out: seq<Report>)
    ensures (o, out) == Walk(order, levels, cap, now)
  {
    o, out := order, [];
    var remaining := order.quantity - order.filled;
    var lvl := 0;
    ghost var goal := Walk(order, levels, cap, now);
    assert levels[0..] == levels;
    while lvl < |levels| && remaining > EPS
      invariant 0 <= lvl <= |levels|
      invariant remaining == Remaining(o)
      invariant o.side == order.side
      invariant var w := Walk(o, levels[lvl..], cap, now); goal.0 == w.0 && goal.1 == out + w.1
    {
      var quote := levels[lvl];
      assert levels[lvl..][0] == quote && levels[lvl..][1..] == levels[lvl + 1..];
      if quote.px <= 0 || quote.sz <= 0.0 { break; }
      if !Acceptable(order.side, quote.px, cap) { break; }
      var take := Min(remaining, quote.sz);
      o := o.(filled := o.filled + take);
      remaining := remaining - take;
      var report := TakerReport(o, take, quote.px, now);
      ghost var tail := Walk(o, levels[lvl + 1..], cap, now);
      assert out + ([report] + tail.1) == (out + [report]) + tail.1;
      out := out + [report];
      lvl := lvl + 1;
    }
    assert out + [] == out;
  }

  ghost predicate CreditGoal(goal: (seq<Order>, seq<Report>), done: seq<Order>, rest: seq<Order>,
                             id: nat, take: real, now: nat)
  {
    var c := Credit(rest, id, take, now);
    goal.0 == done + c.0 && goal.1 == c.1
  }

  lemma {:induction false} CreditStep(goal: (seq<Order>, seq<Report>), done: seq<Order>, rest: seq<Order>,
                                      id: nat, take: real, now: nat)
    requires CreditGoal(goal, done, rest, id, take, now) && rest != [] && rest[0].id != id
    ensures CreditGoal(goal, done + [rest[0]], rest[1..], id, take, now)
  {
    var c := Credit(rest[1..], id, take, now);
    assert done + ([rest[0]] + c.0) == (done + [rest[0]]) + c.0;
  }

  lemma {:induction false} CreditHit(goal: (seq<Order>, seq<Report>), done: seq<Order>, rest: seq<Order>,
                                     id: nat, take: real, now: nat)
    requires CreditGoal(goal, done, rest, id, take, now) && rest != [] && rest[0].id == id
    ensures var o := rest[0].(filled := rest[0].filled + take);
            goal == (done + ([o] + rest[1..]), [MakerReport(o, take, now)])
  {
  }

  lemma {:induction false} CreditStart(orders: seq<Order>, id: nat, take: real, now: nat)
    ensures CreditGoal(Credit(orders, id, take, now), orders[..0], orders[0..], id, take, now)
  {
    assert orders[0..] == orders && orders[..0] + Credit(orders, id, take, now).0 == Credit(orders, id, take, now).0;
  }

  /** Credits a resting order with its part of a print. */
  method CreditOrder(orders: seq<Order>, id: nat, take: real, now: nat)
      returns (os: seq<Order>, out: seq<Report>)
    ensures (os, out) == Credit(orders, id, take, now)
  {
    hide Credit, MakerReport, CreditGoal;
    os, out := orders, [];
    ghost var goal := Credit(orders, id, take, now);
    CreditStart(orders, id, take, now);
    for j := 0 to |orders|
      invariant os == orders && out == []
      invariant CreditGoal(goal, orders[..j], orders[j..], id, take, now)
    {
      assert orders[j..][0] == orders[j] && orders[j..][1..] == orders[j + 1..];
      if orders[j].id == id {
        var o := orders[j].(filled := orders[j].filled + take);
        os := orders[j := o];
        out := [MakerReport(o, take, now)];
        CreditHit(goal, orders[..j], orders[j..], id, take, now);
        assert os == orders[..j] + ([o] + orders[j + 1..]);
        return;
      }
      CreditStep(goal, orders[..j], orders[j..], id, take, now);
      assert orders[..j] + [orders[j]] == orders[..j + 1];
    }
    CreditNone(goal, orders, orders[|orders|..], id, take, now);
  }

  lemma {:induction false} CreditNone(goal: (seq<Order>, seq<Report>), orders: seq<Order>, rest: seq<Order>,
                                      id: nat, take: real, now: nat)
    requires rest == [] && CreditGoal(goal, orders[..|orders|], rest, id, take, now)
    ensures goal == (orders, [])
  {
    assert orders[..|orders|] + [] == orders;
  }

  ghost predicate BackstopGoal(goal: (seq<Order>, seq<Report>), orders: seq<Order>, book: Book, now: nat,
                               kept: seq<Order>, out: seq<Report>)
  {
    var b := Backstop(orders, book, now);
    goal.0 == kept + b.0 && goal.1 == out + b.1
  }

  lemma {:induction false} BackstopStep(goal: (seq<Order>, seq<Report>), orders: seq<Order>, i: nat, book: Book,
                                        now: nat, kept: seq<Order>, out: seq<Report>)
    requires i < |orders| && BackstopGoal(goal, orders[i..], book, now, kept, out)
    ensures if BackstopFills(orders[i], book) then
              BackstopGoal(goal, orders[i + 1..], book, now, kept, out + [BackstopReport(orders[i], book, now)])
            else BackstopGoal(goal, orders[i + 1..], book, now, kept + [orders[i]], out)
  {
    hide BackstopFills, BackstopReport;
    assert orders[i..][0] == orders[i] && orders[i..][1..] == orders[i + 1..];
    var b := Backstop(orders[i + 1..], book, now);
    Regroup(out, [BackstopReport(orders[i], book, now)], b.1);
    Regroup(kept, [orders[i]], b.0);
  }

  /** Splits the orders of a book into those the touch fills and the rest. */
  method FillUnseeded(orders: seq<Order>, book: Book, now: nat) returns (kept: seq<Order>, out: seq<Report>)
    ensures (kept, out) == Backstop(orders, book, now)
  {
    hide Backstop, BackstopReport, BackstopPrice;
    kept, out := [], [];
    ghost var goal := Backstop(orders, book, now);
    assert orders[0..] == orders && [] + goal.0 == goal.0 && [] + goal.1 == goal.1;
    for i := 0 to |orders|
      invariant BackstopGoal(goal, orders[i..], book, now, kept, out)
    {
      BackstopStep(goal, orders, i, book, now, kept, out);
      var o := orders[i];
      if o.kind == Limit && !o.seeded && BackstopPrice(o, book) > 0 {
        out := out + [BackstopReport(o, book, now)];
      } else {
        kept := kept + [o];
      }
    }
    BackstopOfNone(book, now);
    assert orders[|orders|..] == [] && kept + [] == kept && out + [] == out;
    assert goal == (kept, out);
  }

  ghost predicate EatGoal(goal: Consumed, q: seq<Slot>, orders: seq<Order>, left: real, now: nat, out: seq<Report>) {
    var c := Consume(q, orders, left, now);
    goal.queue == c.queue && goal.orders == c.orders && goal.reports == out + c.reports
  }

  lemma {:induction false} EatStep(goal: Consumed, q: seq<Slot>, orders: seq<Order>, left: real, now: nat,
                                   out: seq<Report>)
    requires EatGoal(goal, q, orders, left, now, out) && left > 0.0 && q != []
    ensures var take := Min(left, q[0].qty);
            var front := CreditFront(q[0], orders, take, now);
            EatGoal(goal, Shorten(q, take), front.0, left - take, now, out + front.1)
  {
    hide CreditFront, Shorten;
    var take := Min(left, q[0].qty);
    var front := CreditFront(q[0], orders, take, now);
    Regroup(out, front.1, Consume(Shorten(q, take), front.0, left - take, now).reports);
  }

  lemma {:induction false} EatEnd(goal: Consumed, q: seq<Slot>, orders: seq<Order>, left: real, now: nat,
                                  out: seq<Report>)
    requires EatGoal(goal, q, orders, left, now, out) && (left <= 0.0 || q == [])
    ensures goal == Consumed(q, orders, out)
  {
    assert out + [] == out;
  }

  /** Eats a slot queue from the front. */
  method EatQueue(queue: seq<Slot>, resting: seq<Order>, size: real, now: nat)
      returns (q: seq<Slot>, orders: seq<Order>, out: seq<Report>)
    ensures Consumed(q, orders, out) == Consume(queue, resting, size, now)
  {
    hide Consume, Credit;
    q, orders, out := queue, resting, [];
    var left := size;
    ghost var goal := Consume(queue, resting, size, now);
    assert [] + goal.reports == goal.reports;
    while left > 0.0 && |q| > 0
      invariant EatGoal(goal, q, orders, left, now, out)
      decreases |q|, if left > 0.0 then 1 else 0
    {
      EatStep(goal, q, orders, left, now, out);
      var slot := q[0];
      var take := Min(left, slot.qty);
      left := left - take;
      slot := slot.(qty := slot.qty - take);
      if slot.owner.Some? {
        var reports;
        orders, reports := CreditOrder(orders, slot.owner.value, take, now);
        out := out + reports;
      } else {
        assert out + [] == out;
      }
      if slot.qty <= EPS { q := q[1..]; } else { q := [slot] + q[1..]; }
    }
    EatEnd(goal, q, orders, left, now, out);
  }

  ghost predicate MatchGoal(goal: (State, seq<Report>), s: State, ready: seq<Timed<Order>>, out: seq<Report>) {
    var m := MatchAll(s, ready);
    goal.0 == m.0 && goal.1 == out + m.1
  }

  lemma {:induction false} MatchStep(goal: (State, seq<Report>), s: State, leg: Leg<Order>,
                                     ready: seq<Timed<Order>>, i: nat, out: seq<Report>)
    requires i < |ready| && MatchGoal(goal, s.(submits := leg), ready[i..], out)
    ensures var m := Match(s.(now := Later(s.now, ready[i].due)), ready[i].item);
            MatchGoal(goal, m.0.(submits := leg), ready[i + 1..], out + m.1)
  {
    hide Match;
    assert ready[i..][0] == ready[i] && ready[i..][1..] == ready[i + 1..];
    var s1 := s.(now := Later(s.now, ready[i].due));
    MatchIgnoresSubmits(s1, ready[i].item, leg);
    var m := Match(s1, ready[i].item);
    assert s.(submits := leg).(now := Later(s.now, ready[i].due)) == s1.(submits := leg);
    Regroup(out, m.1, MatchAll(m.0.(submits := leg), ready[i + 1..]).1);
  }

  lemma {:induction false} MatchEnd(goal: (State, seq<Report>), s: State, out: seq<Report>)
    requires MatchGoal(goal, s, [], out)
    ensures goal == (s, out)
  {
    assert out + [] == out;
  }

  class Engine {
    var books: map<string, Book>
    var pending: map<string, seq<Order>>
    var queues: map<Level, seq<Slot>>
    var submits: Leg<Order>
    var fills: Leg<Report>
    var now: nat
    var draws: nat
    const latency: Latency
    ghost var log: seq<Entry>

    ghost function State(): State
      reads this
    {
      EngineModel.State.State(books, pending, queues, submits, fills, now, draws, log)
    }

    constructor (latency: Latency)
      ensures State() == INITIAL && this.latency == latency
    {
      books, pending, queues := map[], map[], map[];
      submits, fills := EmptyLeg(), EmptyLeg();
      now, draws := 0, 0;
      this.latency := latency;
      log := [];
    }

    // --- Public calls ---------------------------------------------------------------

    /** Handles an L2 snapshot; the reports that are due are handed out. */
    method OnOrderBook(book: Book) returns (deliveries: seq<Report>)
      modifies this
      ensures State() == OnSnapshot(old(State()), book, latency)
      ensures deliveries == NewlyDelivered(old(State()), State())
    {
      hide DrainSubmits, ReconcileFrom, FillCrossing, Schedule, Serve, Ready, Items, NewlyDelivered;
      DrainPendingSubmits(book.ts);
      var key := Key(book.exchange, book.symbol);
      now := book.ts;
      ReconcileL2Snapshot(key, book);
      books := books[key := book];
      var out := FillCrossingLimits(book);
      ghost var matched := State();
      ScheduleFills(out);
      ScheduleServes(matched, out, latency);
      ghost var scheduled := State();
      deliveries := DrainPendingFills(now);
      HandedOut(old(State()), scheduled, book.ts);
    }

    /** Handles a trade print; the reports that are due are handed out. */
    method OnPrint(t: Trade) returns (deliveries: seq<Report>)
      modifies this
      ensures State() == OnTrade(old(State()), t, latency)
      ensures deliveries == NewlyDelivered(old(State()), State())
    {
      hide DrainSubmits, TakePrint, Schedule, Serve, Ready, Items, NewlyDelivered;
      DrainPendingSubmits(t.ts);
      PrintClock(State(), t);
      now := t.ts;
      var out := FillAgainstTrade(t);
      ghost var matched := State();
      ScheduleFills(out);
      ScheduleServes(matched, out, latency);
      ghost var scheduled := State();
      deliveries := DrainPendingFills(now);
      HandedOut(old(State()), scheduled, t.ts);
    }

    /** Accepts or refuses an order; returns it as stamped. */
    method SubmitOrder(order: Order) returns (ack: Order, deliveries: seq<Report>)
      modifies this
      ensures State() == Submit(old(State()), order, latency)
      ensures ack == Stamped(old(State()), order)
      ensures deliveries == NewlyDelivered(old(State()), State())
    {
      hide DrainSubmits, Serve, Ready, Items, NewlyDelivered, Crosses;
      ack := order.(submittedTs := now);
      deliveries := [];
      if ack.kind == PostOnly {
        var key := KeyOf(ack);
        if key in books && Crosses(books[key], ack.side, ack.price) {
          ack := ack.(rejected := true);
          NothingHandedOut(State());
          return;
        }
      }
      var delay := latency(draws);
      submits := Push(submits, ack, now + delay);
      draws := draws + 1;
      log := log + [Accepted(ack)];
      DrainPendingSubmits(now);
      ghost var drained := State();
      deliveries := DrainPendingFills(now);
      HandedOut(old(State()), drained, drained.now);
    }

    /** Removes a resting order and its slot, or an order still on its way. */
    method CancelOrder(exchange: string, symbol: string, id: nat) returns (found: bool)
      modifies this
      ensures (State(), found) == Cancel(old(State()), exchange, symbol, id)
    {
      var key := Key(exchange, symbol);
      if key in pending {
        var orders := pending[key];
        var i := IndexOfId(orders, id);
        if i < |orders| {
          var o := orders[i];
          var level := Level(key, o.side, o.price);
          if o.seeded && level in queues {
            queues := queues[level := WithoutOwner(queues[level], id)];
          }
          pending := pending[key := orders[..i] + orders[i + 1..]];
          log := log + [Withdrawn(id)];
          return true;
        }
      }
      var j := IndexOfSubmit(submits.waiting, exchange, symbol, id);
      if j < |submits.waiting| {
        submits := Drop(submits, j);
        log := log + [Withdrawn(id)];
        return true;
      }
      return false;
    }

    // --- Scheduler --------------------------------------------------------------------

    /** Matches every submit due by `upto`, in due order. */
    method DrainPendingSubmits(upto: nat)
      modifies this
      ensures State() == DrainSubmits(old(State()), upto, latency)
      ensures fills.served == old(fills.served)
    {
      hide StableSort, Served, DueCount, MatchAll, Match, Schedule;
      var sorted := StableSort(submits.waiting);
      var clock := now;
      var out := [];
      var i := 0;
      ghost var n := DueCount(sorted, upto);
      ghost var ready := sorted[..n];
      ghost var leg := Serve(submits, upto, now);
      ghost var goal := MatchAll(State().(submits := leg), ready);
      assert sorted[0..] == sorted && ready[0..] == ready;
      assert [] + goal.1 == goal.1;
      MatchAllLegs(State().(submits := leg), ready);
      while i < |sorted| && sorted[i].due <= upto
        invariant 0 <= i <= n
        invariant n == i + DueCount(sorted[i..], upto)
        invariant submits == old(submits) && fills == old(fills) && draws == old(draws)
        invariant MatchGoal(goal, State().(submits := leg), ready[i..], out)
      {
        DueCountFrom(sorted, i, upto);
        MatchStep(goal, State(), leg, ready, i, out);
        if sorted[i].due > now { now := sorted[i].due; }
        var reports := ProcessPendingSubmit(sorted[i].item);
        out := out + reports;
        i := i + 1;
      }
      DueCountFrom(sorted, i, upto);
      assert ready[i..] == [];
      MatchEnd(goal, State().(submits := leg), out);
      submits := submits.(waiting := sorted[i..],
                          served := submits.served + Served(sorted[..i], clock),
                          horizon := upto);
      ghost var matched := State();
      ScheduleFills(out);
      ScheduleServes(matched, out, latency);
    }

    /** Matches one order against the book and rests what is left of it. */
    method ProcessPendingSubmit(order: Order) returns (out: seq<Report>)
      modifies this
      ensures (State(), out) == Match(old(State()), order)
      ensures submits == old(submits) && fills == old(fills) && draws == old(draws) && now == old(now)
    {
      hide Walk, Entries, Crosses, RestSeeded;
      out := [];
      var key := KeyOf(order);
      if key !in books {
        if order.kind != Market {
          var resting := if key in pending then pending[key] else [];
          pending := pending[key := resting + [order]];
        }
        return;
      }
      var book := books[key];
      var far := if order.side == Buy then book.asks else book.bids;
      var o := order;
      if order.kind == Market {
        o, out := FillBookUntil(order, far, None, now);
        log := log + Entries(out);
        return;
      }
      if Crosses(book, order.side, order.price) && order.kind == Limit {
        o, out := FillBookUntil(order, far, Some(order.price), now);
      }
      log := log + Entries(out);
      if o.filled < o.quantity - EPS {
        RestWithSlot(o, book);
      }
    }

    /** Puts an order at the back of its level, behind displayed venue volume. */
    method RestWithSlot(o: Order, book: Book)
      modifies this`queues, this`pending
      ensures State() == RestSeeded(old(State()), o, book)
    {
      hide SizeAt;
      var key := KeyOf(o);
      var near := if o.side == Buy then book.bids else book.asks;
      var venue := BookQtyAtPrice(near, o.price);
      var level := Level(key, o.side, o.price);
      var q := if level in queues then queues[level] else [];
      if venue > 0.0 {
        var hasVenue := false;
        for i := 0 to |q|
          invariant State() == old(State())
          invariant hasVenue <==> exists k :: 0 <= k < i && q[k].owner.None?
        {
          if q[i].owner.None? { hasVenue := true; }
        }
        if !hasVenue { q := q + [Slot(venue, None)]; }
      }
      queues := queues[level := q + [Slot(o.quantity - o.filled, Some(o.id))]];
      var resting := if key in pending then pending[key] else [];
      pending := pending[key := resting + [o.(seeded := true)]];
    }

    /** Sends reports on their way back. */
    method ScheduleFills(reports: seq<Report>)
      modifies this`fills, this`draws
      ensures State() == Schedule(old(State()), reports, latency)
    {
      hide Schedule, Push;
      assert reports[0..] == reports;
      for i := 0 to |reports|
        invariant Schedule(State(), reports[i..], latency) == Schedule(old(State()), reports, latency)
      {
        ScheduleStep(State(), reports, i, latency);
        var delay := latency(draws);
        fills := Push(fills, reports[i], reports[i].ts + delay);
        draws := draws + 1;
      }
      ScheduleNone(State(), reports[|reports|..], latency);
    }

    /** Hands out every report due by `upto`, in due order. */
    method DrainPendingFills(upto: nat) returns (out: seq<Report>)
      modifies this`fills
      ensures State() == DrainFills(old(State()), upto)
      ensures out == Items(Ready(old(fills), upto))
    {
      hide StableSort, DueCount, Served;
      var sorted := StableSort(fills.waiting);
      out := [];
      var i := 0;
      ghost var n := DueCount(sorted, upto);
      assert sorted[0..] == sorted && sorted[..0] == [];
      while i < |sorted| && sorted[i].due <= upto
        invariant 0 <= i <= n
        invariant n == i + DueCount(sorted[i..], upto)
        invariant out == Items(sorted[..i])
        invariant fills == old(fills)
      {
        DueCountFrom(sorted, i, upto);
        assert sorted[..i + 1] == sorted[..i] + [sorted[i]];
        ItemsAppend(sorted[..i], [sorted[i]]);
        assert [sorted[i]][1..] == [];
        out := out + [sorted[i].item];
        i := i + 1;
      }
      DueCountFrom(sorted, i, upto);
      fills := fills.(waiting := sorted[i..], served := fills.served + Served(sorted[..i], upto), horizon := upto);
    }

    // --- Book and prints ------------------------------------------------------------------

    /** Reconciles one displayed level. */
    method ReconcileOne(key: string, side: Side, quote: Quote)
      modifies this`queues
      ensures State() == ReconcileQuote(old(State()), key, side, quote)
    {
      if quote.px <= 0 || quote.sz <= 0.0 { return; }
      var level := Level(key, side, quote.px);
      var q := if level in queues then queues[level] else [];
      var expected := VenueQuantity(q);
      var delta := quote.sz - expected;
      if delta > EPS {
        q := q + [Slot(delta, None)];
      } else if delta < -EPS {
        q := DistributeCancels(q, -delta);
      }
      queues := queues[level := q];
    }

    method ReconcileL2Snapshot(key: string, book: Book)
      modifies this`queues
      ensures State() == ReconcileFrom(old(State()), key, book, 0)
    {
      for lvl := 0 to BOOK_DEPTH
        invariant ReconcileFrom(State(), key, book, lvl) == ReconcileFrom(old(State()), key, book, 0)
      {
        ReconcileOne(key, Buy, book.bids[lvl]);
        ReconcileOne(key, Sell, book.asks[lvl]);
      }
    }

    /** The backstop: fills unseeded limit orders that the touch now crosses. */
    method FillCrossingLimits(book: Book) returns (out: seq<Report>)
      modifies this`pending, this`log
      ensures (State(), out) == FillCrossing(old(State()), book)
    {
      hide Backstop, Entries;
      out := [];
      if book.bids[0].px <= 0 && book.asks[0].px <= 0 { return; }
      var key := Key(book.exchange, book.symbol);
      if key !in pending {
        BackstopOfNone(book, now);
        NoEntries();
        assert log + [] == log;
        return;
      }
      var kept;
      kept, out := FillUnseeded(pending[key], book, now);
      pending := pending[key := kept];
      log := log + Entries(out);
    }

    /** Applies a print to the slot queue at its price and to its orders. */
    method FillAgainstTrade(t: Trade) returns (out: seq<Report>)
      requires now == t.ts
      modifies this`pending, this`queues, this`log
      ensures (State(), out) == TakePrint(old(State()), t)
    {
      hide Consume, DropDone, Entries;
      out := [];
      var key := Key(t.exchange, t.symbol);
      var level := Level(key, if t.taker == Sell then Buy else Sell, t.price);
      if level !in queues || |queues[level]| == 0 { return; }
      var orders := if key in pending then pending[key] else [];
      var q, credited;
      q, credited, out := EatQueue(queues[level], orders, t.quantity, now);
      queues := queues[level := q];
      if key in pending { pending := pending[key := DropDone(credited)]; }
      log := log + Entries(out);
    }
  }
}
