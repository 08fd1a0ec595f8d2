/** Short runs, from the initial state, in which what the source's comments say
    of a report is not so. */
module ExampleRuns {
  import opened Orders
  import opened SlotQueues
  import opened PrintMatching
  import opened FillAccounts
  import opened BookWalk
  import opened EngineModel
  import opened EngineRuns
  import opened EngineQuiet
  import opened EngineSeeding
  import opened GatewayModel
  import opened GatewayRuns

  const NO_QUOTE := Quote(0, 0.0)

  const NO_QUOTES: Ladder := [NO_QUOTE, NO_QUOTE, NO_QUOTE, NO_QUOTE, NO_QUOTE]

  /** A snapshot that shows nothing. */
  const BLANK := Book(0, "OKX", "BTC", NO_QUOTES, NO_QUOTES)

  /** A seller prints at 100. */
  function Print(size: real): Trade {
    Trade(0, 100, size, Sell, "OKX", "BTC")
  }

  const KEY := Key("OKX", "BTC")

  /** The bids at 100. */
  const BIDS := Level(KEY, Buy, 100)

  function Bid(kind: Kind, quantity: real): Order {
    Order(7, 7, "OKX", "BTC", kind, Buy, 100, quantity, 0.0, 0, false, false)
  }

  // --- The steps ------------------------------------------------------------------------

  /** The book is known, and nothing rests in it. */
  predicate Bare(s: State) {
    Quiet(s) && s.books == map[KEY := BLANK] && s.pending == map[] && s.queues == map[] && s.now == 0
  }

  lemma {:induction false} BlankReconciles(s: State, lvl: nat)
    requires lvl <= BOOK_DEPTH
    ensures ReconcileFrom(s, KEY, BLANK, lvl) == s
    decreases BOOK_DEPTH - lvl
  {
    if lvl < BOOK_DEPTH {
      assert BLANK.bids[lvl] == NO_QUOTE && BLANK.asks[lvl] == NO_QUOTE;
      BlankReconciles(s, lvl + 1);
    }
  }

  lemma {:induction false} AfterBlank()
    ensures var s := OnSnapshot(INITIAL, BLANK, NO_LATENCY);
            Bare(s) && s.log == [] && NewlyDelivered(INITIAL, s) == []
  {
    hide ReconcileFrom, OnSnapshot, NewlyDelivered;
    QuietSnapshot(INITIAL, BLANK);
    var s := OnSnapshot(INITIAL, BLANK, NO_LATENCY);
    BlankReconciles(INITIAL.(submits := s.submits, now := 0), 0);
    assert !HasTouch(BLANK);
  }

  /** One bid rests alone in the book. */
  predicate Alone(s: State, o: Order) {
    && Quiet(s) && s.now == 0
    && QueueAt(s, BIDS) == [Slot(Remaining(o), Some(o.id))] && OrdersAt(s, KEY) == [o]
  }

  lemma {:induction false} AfterBid(s: State, kind: Kind, quantity: real)
    requires Bare(s) && kind != Market && quantity > EPS
    ensures var o := Bid(kind, quantity);
            var s' := Submit(s, o, NO_LATENCY);
            && !Refused(s, o) && NewlyDelivered(s, s') == []
            && Alone(s', o.(seeded := true)) && s'.log == s.log + [Accepted(o)]
  {
    hide Submit, NewlyDelivered;
    var o := Bid(kind, quantity);
    assert !Refused(s, o) && Stamped(s, o) == o;
    QuietSubmit(s, o);
    var s1 := Arrived(s, o);
    assert Cross(o, BLANK, 0) == (o, []);
    assert SizeAt(BLANK.bids, 100) == 0.0 by { BlankShowsNothing(BLANK.bids); }
    assert Emit(s1, []).log == s1.log;
    assert Entries([]) == [];
  }

  lemma {:induction false} BlankShowsNothing(levels: seq<Quote>)
    requires forall i :: 0 <= i < |levels| ==> levels[i] == NO_QUOTE
    ensures SizeAt(levels, 100) == 0.0
  {
    if levels != [] { BlankShowsNothing(levels[1..]); }
  }

  function Credited(o: Order, size: real): Order {
    o.(filled := o.filled + size)
  }

  lemma {:induction false} AfterPrint(s: State, o: Order, size: real)
    requires Alone(s, o) && 0.0 < size <= Remaining(o) && o.seeded
    ensures var s' := OnTrade(s, Print(size), NO_LATENCY);
            var r := MakerReport(Credited(o, size), size, 0);
            && Quiet(s') && NewlyDelivered(s, s') == [r] && s'.log == s.log + [Filled(r)]
            && (Remaining(o) - size > EPS ==> Alone(s', Credited(o, size)))
  {
    hide OnTrade, NewlyDelivered, Consume;
    QuietTrade(s, Print(size));
    assert PrintLevel(Print(size)) == BIDS;
    ConsumeOne(o, size);
    OneEntry(MakerReport(Credited(o, size), size, 0));
    if Remaining(o) - size > EPS { NotDone(Credited(o, size)); }
  }

  lemma {:induction false} NotDone(o: Order)
    requires Remaining(o) > EPS
    ensures DropDone([o]) == [o]
  {
    assert [o][1..] == [] && DropDone([]) == [] && [o] + [] == [o];
  }

  lemma {:induction false} ConsumeOne(o: Order, size: real)
    requires 0.0 < size <= Remaining(o)
    ensures var c := Consume([Slot(Remaining(o), Some(o.id))], [o], size, 0);
            && c.orders == [Credited(o, size)] && c.reports == [MakerReport(Credited(o, size), size, 0)]
            && (Remaining(o) - size > EPS ==> c.queue == [Slot(Remaining(o) - size, Some(o.id))])
  {
    var q, o' := [Slot(Remaining(o), Some(o.id))], Credited(o, size);
    var r := MakerReport(o', size, 0);
    assert CreditFront(q[0], [o], size, 0) == ([o'], [r]) by { assert [o'] + [o][1..] == [o']; }
    PrintNothing(Shorten(q, size), [o'], 0.0, 0);
    assert q[1..] == [] && [r] + [] == [r];
  }

  // --- The runs ----------------------------------------------------------------------------

  lemma {:induction false} ThreeSteps(s: State, a: Input, b: Input, c: Input)
    ensures var (s1, inputs) := (Step(s, a, NO_LATENCY), [a, b, c]);
            var s2 := Step(s1, b, NO_LATENCY);
            && Run(s, inputs, NO_LATENCY) == Step(s2, c, NO_LATENCY)
            && (ValidRun(s, inputs, NO_LATENCY) <==> Valid(s, a) && Valid(s1, b) && Valid(s2, c))
  {
    hide Step, Valid;
    var s1 := Step(s, a, NO_LATENCY);
    TwoSteps(s1, b, c);
    assert [a, b, c][1..] == [b, c];
  }

  lemma {:induction false} TwoSteps(s: State, a: Input, b: Input)
    ensures var (s1, inputs) := (Step(s, a, NO_LATENCY), [a, b]);
            && Run(s, inputs, NO_LATENCY) == Step(s1, b, NO_LATENCY)
            && (ValidRun(s, inputs, NO_LATENCY) <==> Valid(s, a) && Valid(s1, b))
  {
    hide Step, Valid;
    var s1 := Step(s, a, NO_LATENCY);
    var s2 := Step(s1, b, NO_LATENCY);
    assert [a, b][1..] == [b] && [b][1..] == [];
    assert Run(s2, [], NO_LATENCY) == s2 && ValidRun(s2, [], NO_LATENCY);
    assert Run(s1, [b], NO_LATENCY) == s2;
  }

  lemma {:induction false} AllValid(s: State, o: Order, s': State, size: real)
    requires Bare(s) && Alone(s', o.(seeded := true)) && Remaining(o) > EPS && !o.seeded
    ensures Valid(INITIAL, SnapshotIn(BLANK)) && Valid(s, SubmitIn(o)) && Valid(s', TradeIn(Print(size)))
  {
  }

  /** A post-only order that a print fills is reported as a limit order. */
  lemma {:induction false} PostOnlyReportedAsLimit()
    ensures var inputs := [SnapshotIn(BLANK), SubmitIn(Bid(PostOnly, 1.0)), TradeIn(Print(1.0))];
            var s := Run(INITIAL, inputs, NO_LATENCY);
            && ValidRun(INITIAL, inputs, NO_LATENCY)
            && |s.log| == 2 && s.log[0] == Accepted(Bid(PostOnly, 1.0))
            && s.log[1].Filled? && s.log[1].report.orderId == 7 && s.log[1].report.kind == Limit
  {
    hide OnSnapshot, Submit, OnTrade, NewlyDelivered, Bare, Alone, Valid, ValidRun, Run, Refused, Quiet;
    var o := Bid(PostOnly, 1.0);
    ThreeSteps(INITIAL, SnapshotIn(BLANK), SubmitIn(o), TradeIn(Print(1.0)));
    AfterBlank();
    var s1 := OnSnapshot(INITIAL, BLANK, NO_LATENCY);
    AfterBid(s1, PostOnly, 1.0);
    AllValid(s1, o, Submit(s1, o, NO_LATENCY), 1.0);
    AfterPrint(Submit(s1, o, NO_LATENCY), o.(seeded := true), 1.0);
  }

  /** A snapshot that offers one unit at 90. */
  const OFFER := Book(0, "OKX", "BTC", NO_QUOTES, [Quote(90, 1.0), NO_QUOTE, NO_QUOTE, NO_QUOTE, NO_QUOTE])

  lemma {:induction false} AfterEarlyBid(kind: Kind)
    requires kind != Market
    ensures var o := Bid(kind, 1.0);
            var s := Submit(INITIAL, o, NO_LATENCY);
            Quiet(s) && OrdersAt(s, KEY) == [o] && s.now == 0 && s.log == [Accepted(o)]
  {
    hide Submit, NewlyDelivered;
    var o := Bid(kind, 1.0);
    QuietSubmit(INITIAL, o);
    assert Stamped(INITIAL, o) == o;
    assert Entries([]) == [];
  }

  /** A resting limit order is filled as a maker, below its limit. */
  lemma {:induction false} MakerBelowLimit()
    ensures var inputs := [SubmitIn(Bid(Limit, 1.0)), SnapshotIn(OFFER)];
            var s := Run(INITIAL, inputs, NO_LATENCY);
            && ValidRun(INITIAL, inputs, NO_LATENCY)
            && |s.log| == 2 && s.log[1].Filled?
            && var r := s.log[1].report; r.role == Maker && r.orderPrice == 100 && r.lastPrice == 90
  {
    hide OnSnapshot, Submit, NewlyDelivered, TakeSnapshot;
    var o := Bid(Limit, 1.0);
    TwoSteps(INITIAL, SubmitIn(o), SnapshotIn(OFFER));
    AfterEarlyBid(Limit);
    var s1 := Submit(INITIAL, o, NO_LATENCY);
    QuietSnapshot(s1, OFFER);
    var s2 := OnSnapshot(s1, OFFER, NO_LATENCY);
    SnapshotOrders(s1.(submits := s2.submits), OFFER, KEY);
    var r := BackstopReport(o, OFFER, 0);
    assert Backstop([o], OFFER, 0).1 == [r] by { BackstopOfNone(OFFER, 0); assert [o][1..] == []; }
    OneEntry(r);
  }

  /** A post-only order is not picked up by the same snapshot. */
  lemma {:induction false} PostOnlyNotPickedUp()
    ensures var inputs := [SubmitIn(Bid(PostOnly, 1.0)), SnapshotIn(OFFER)];
            var s := Run(INITIAL, inputs, NO_LATENCY);
            && ValidRun(INITIAL, inputs, NO_LATENCY)
            && s.log == [Accepted(Bid(PostOnly, 1.0))] && OrdersAt(s, KEY) == [Bid(PostOnly, 1.0)]
  {
    hide OnSnapshot, Submit, NewlyDelivered, TakeSnapshot;
    var o := Bid(PostOnly, 1.0);
    TwoSteps(INITIAL, SubmitIn(o), SnapshotIn(OFFER));
    AfterEarlyBid(PostOnly);
    var s1 := Submit(INITIAL, o, NO_LATENCY);
    QuietSnapshot(s1, OFFER);
    var s2 := OnSnapshot(s1, OFFER, NO_LATENCY);
    SnapshotOrders(s1.(submits := s2.submits), OFFER, KEY);
    assert Backstop([o], OFFER, 0) == ([o], []) by {
      BackstopOfNone(OFFER, 0);
      assert [o][1..] == [] && [o] + [] == [o];
    }
    assert Entries([]) == [];
  }

  // --- Runs of the gateway -------------------------------------------------------------------

  function BidOf(quantity: nat): NewOrder {
    NewOrder(7, Okx, 1, Buy, LimitWire, 100, quantity, false, "BTC")
  }

  lemma {:induction false} OneCall(g: Gate, call: Call, rest: seq<Call>)
    ensures GateRun(g, [call] + rest) == GateRun(GateStep(g, call), rest)
    ensures GateValidRun(g, [call] + rest) <==> GateValid(g, call) && GateValidRun(GateStep(g, call), rest)
  {
    hide GateStep, GateValid;
    assert ([call] + rest)[1..] == rest;
  }

  lemma {:induction false} NoCall(g: Gate)
    ensures GateRun(g, []) == g && GateValidRun(g, [])
  {
  }

  lemma {:induction false} GateBlank()
    ensures var g := GateStep(GATE_INITIAL, SnapshotCall(BLANK));
            && GateValid(GATE_INITIAL, SnapshotCall(BLANK))
            && Bare(g.engine) && g.live == map[] && g.sent == []
  {
    hide OnSnapshot, NewlyDelivered;
    AfterBlank();
    PublishNothing(GATE_INITIAL.(engine := OnSnapshot(INITIAL, BLANK, NO_LATENCY)));
  }

  lemma {:induction false} GateBid(g: Gate, quantity: nat)
    requires Bare(g.engine) && g.live == map[] && g.sent == [] && quantity > 0
    ensures var o := BidOf(quantity);
            var g' := GateStep(g, NewCall(o));
            && GateValid(g, NewCall(o))
            && Alone(g'.engine, Bid(Limit, Units(quantity)).(seeded := true)) && g'.live == map[7 := NewLive(o)]
            && g'.sent == [StatusReport(7, Okx, 1, Acked, NewLive(o))]
  {
    hide Submit, NewlyDelivered, Refused, Units;
    var o := BidOf(quantity);
    var order := EngineOrder(7, NewLive(o), Limit);
    UnitsOfNothing();
    UnitsPositive(quantity, 0);
    assert order == Bid(Limit, Units(quantity));
    AfterBid(g.engine, Limit, Units(quantity));
    PublishNothing(g.(engine := Submit(g.engine, order, NO_LATENCY), live := g.live[7 := NewLive(o)]));
  }

  lemma {:induction false} UnitsOfNothing()
    ensures Units(0) == 0.0
  {
  }

  lemma {:induction false} GatePrint(g: Gate, order: Order, lo: Live, size: real)
    requires Alone(g.engine, order) && order.id == 7 && order.seeded && g.live == map[7 := lo]
    requires 0.0 < size <= Remaining(order)
    ensures var g' := GateStep(g, TradeCall(Print(size)));
            var r, cum := MakerReport(Credited(order, size), size, 0), lo.cum + Scaled(size);
            && GateValid(g, TradeCall(Print(size)))
            && g'.sent == g.sent + [FillExec(r, lo.(cum := cum), Scaled(size), cum)]
            && (Remaining(order) - size > EPS ==>
                  Alone(g'.engine, Credited(order, size)) && g'.live == map[7 := lo.(cum := cum)])
  {
    hide OnTrade, NewlyDelivered, Scaled, FillExec;
    AfterPrint(g.engine, order, size);
    var r := MakerReport(Credited(order, size), size, 0);
    var g0 := g.(engine := OnTrade(g.engine, Print(size), NO_LATENCY));
    PublishNothing(Publish(g0, r));
    assert PublishAll(g0, [r]) == Publish(g0, r) by { assert [r][1..] == []; }
  }

  /** Half of an order filled, and the report that says that nothing remains. */
  lemma {:induction false} PartialFillSaysNothingRemains()
    ensures var calls := [SnapshotCall(BLANK), NewCall(BidOf(200000000)), TradeCall(Print(1.0))];
            var g := GateRun(GATE_INITIAL, calls);
            && GateValidRun(GATE_INITIAL, calls)
            && 7 in g.live && g.live[7].quantity == 2 * g.live[7].cum
            && |g.sent| == 2 && g.sent[1].status == PartlyFilled && g.sent[1].remainingQty == 0
  {
    hide GateStep, GateValid;
    var o := BidOf(200000000);
    var a, b, c := SnapshotCall(BLANK), NewCall(o), TradeCall(Print(1.0));
    var g1 := GateStep(GATE_INITIAL, a);
    var g2 := GateStep(g1, b);
    GateBlank();
    GateBid(g1, 200000000);
    GatePrint(g2, Bid(Limit, 2.0).(seeded := true), NewLive(o), 1.0);
    assert [a, b, c] == [a] + ([b] + ([c] + []));
    OneCall(GATE_INITIAL, a, [b] + ([c] + []));
    OneCall(g1, b, [c] + []);
    OneCall(g2, c, []);
    NoCall(GateStep(g2, c));
    assert Scaled(1.0) == 100000000;
  }

  /** An order of one wire unit, filled in two halves: each is reported as a
      whole unit. */
  lemma {:induction false} HalvesReportedWhole()
    ensures var half := Units(1) / 2.0;
            var calls := [SnapshotCall(BLANK), NewCall(BidOf(1)), TradeCall(Print(half)), TradeCall(Print(half))];
            var g := GateRun(GATE_INITIAL, calls);
            && GateValidRun(GATE_INITIAL, calls)
            && Finished(Of(g.sent, 7)) && FilledSum(Of(g.sent, 7)) == 2
  {
    hide GateStep, GateValid, Of, FilledSum, FillExec, StatusReport;
    var o, half := BidOf(1), Units(1) / 2.0;
    var a, b, c := SnapshotCall(BLANK), NewCall(o), TradeCall(Print(half));
    var order, lo := Bid(Limit, Units(1)).(seeded := true), NewLive(o);
    var g1 := GateStep(GATE_INITIAL, a);
    var g2 := GateStep(g1, b);
    var g3 := GateStep(g2, c);
    assert Scaled(half) == 1;
    GateBlank();
    GateBid(g1, 1);
    GatePrint(g2, order, lo, half);
    GatePrint(g3, Credited(order, half), lo.(cum := 1), half);
    assert [a, b, c, c] == [a] + ([b] + ([c] + ([c] + [])));
    OneCall(GATE_INITIAL, a, [b] + ([c] + ([c] + [])));
    OneCall(g1, b, [c] + ([c] + []));
    OneCall(g2, c, [c] + []);
    OneCall(g3, c, []);
    NoCall(GateStep(g3, c));
    ReportFields(order, lo, half);
    ReportFields(Credited(order, half), lo.(cum := 1), half);
    var g4 := GateStep(g3, c);
    assert g4.sent == [g2.sent[0], g3.sent[1], g4.sent[2]];
    TwoFills(g2.sent[0], g3.sent[1], g4.sent[2]);
  }

  lemma {:induction false} ReportFields(order: Order, lo: Live, size: real)
    requires order.id == 7
    ensures var cum := lo.cum + Scaled(size);
            var e := FillExec(MakerReport(Credited(order, size), size, 0), lo.(cum := cum), Scaled(size), cum);
            && e.id == 7 && e.filledQty == Scaled(size)
            && e.status == if Remaining(order) - size <= EPS then FullyFilled else PartlyFilled
    ensures StatusReport(7, Okx, 1, Acked, lo).id == 7 && StatusReport(7, Okx, 1, Acked, lo).filledQty == 0
  {
    hide Scaled;
  }

  lemma {:induction false} TwoFills(ack: Exec, first: Exec, second: Exec)
    requires ack.id == first.id == second.id == 7
    ensures Of([ack, first, second], 7) == [ack, first, second]
    ensures FilledSum([ack, first, second]) == ack.filledQty + first.filledQty + second.filledQty
  {
    hide Of, FilledSum;
    assert [ack, first, second] == (([] + [ack]) + [first]) + [second];
    OfSnoc([], ack, 7);
    OfSnoc([] + [ack], first, 7);
    OfSnoc([] + [ack] + [first], second, 7);
    FilledSnoc([], ack);
    FilledSnoc([] + [ack], first);
    FilledSnoc([] + [ack] + [first], second);
    NothingSent();
  }

  lemma {:induction false} NothingSent()
    ensures Of([], 7) == [] && FilledSum([]) == 0
  {
  }
}
