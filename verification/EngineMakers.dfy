/** Where the maker reports of a run come from and what price they carry. A
    print fills an order at its own limit. The backstop reports a maker too, but
    at the touch. */
module EngineMakers {
  import opened Orders
  import opened FillAccounts
  import opened BookWalk
  import opened LatencyLegs
  import opened EngineModel
  import opened EngineInvariants
  import opened EngineSteps
  import opened EngineRuns
  import opened EngineSchedule

  // --- What one step reports ----------------------------------------------------------------

  lemma {:induction false} CrossTakes(o: Order, book: Book, now: nat)
    ensures AllTakers(Cross(o, book, now).1)
  {
    hide Crosses, Acceptable;
    WalkShape(o, FarSide(book, o.side), None, now);
    WalkShape(o, FarSide(book, o.side), Some(o.price), now);
  }

  lemma {:induction false} MatchTakes(s: State, o: Order)
    ensures AllTakers(Match(s, o).1)
  {
    hide Cross, AllTakers;
    NoneTaken();
    if KeyOf(o) in s.books { CrossTakes(o, s.books[KeyOf(o)], s.now); }
  }

  lemma {:induction false} NoneTaken()
    ensures AllTakers([])
  {
  }

  lemma {:induction false} MatchAllTakes(s: State, ready: seq<Timed<Order>>)
    ensures AllTakers(MatchAll(s, ready).1)
    decreases |ready|
  {
    hide Match;
    if ready != [] {
      var s1 := s.(now := Later(s.now, ready[0].due));
      MatchTakes(s1, ready[0].item);
      MatchAllTakes(Match(s1, ready[0].item).0, ready[1..]);
    }
  }

  /** Matching on arrival adds taker reports only. */
  lemma {:induction false} DrainTakes(s: State, upto: nat, latency: Latency)
    requires Punctual(s) && upto >= s.now
    ensures exists taken :: AllTakers(taken)
              && FilledIn(DrainSubmits(s, upto, latency).log) == FilledIn(s.log) + taken
  {
    hide LegOk, MatchAll, Schedule, Serve, Ready, AllTakers, StampedFrom, FilledIn, AcceptedIn;
    var ready := Ready(s.submits, upto);
    var s0 := s.(submits := Serve(s.submits, upto, s.now));
    TiesOf(s.submits);
    ReadyDue(s.submits, upto);
    MatchAllReports(s0, ready, upto);
    MatchAllTakes(s0, ready);
    var (s1, reports) := MatchAll(s0, ready);
    ScheduleOnlyFills(s1, reports, latency);
  }

  /** The far touch of the order that a report is for. */
  function TouchOf(book: Book, r: Report): int {
    FarSide(book, r.side)[0].px
  }

  lemma {:induction false} BackstopAtTouch(orders: seq<Order>, book: Book, now: nat)
    ensures forall r :: r in Backstop(orders, book, now).1 ==>
              r.role == Maker && r.lastPrice == TouchOf(book, r) > 0
              && (if r.side == Buy then r.lastPrice <= r.orderPrice else r.lastPrice >= r.orderPrice)
  {
    if orders != [] { BackstopAtTouch(orders[1..], book, now); }
  }

  /** A snapshot reports makers, at the touch, which is at their limit or
      better. */
  lemma {:induction false} SnapshotAtTouch(s: State, book: Book)
    ensures forall r :: r in TakeSnapshot(s, book).1 ==>
              r.role == Maker && r.lastPrice == TouchOf(book, r) > 0
              && (if r.side == Buy then r.lastPrice <= r.orderPrice else r.lastPrice >= r.orderPrice)
  {
    hide ReconcileFrom, Backstop, TouchOf;
    var key := Key(book.exchange, book.symbol);
    var s1 := ReconcileFrom(s.(now := book.ts), key, book, 0);
    var s2 := s1.(books := s1.books[key := book]);
    BackstopAtTouch(OrdersAt(s2, key), book, s2.now);
  }

  // --- Whole runs -----------------------------------------------------------------------------

  /** The step is a print, and it makes this report. */
  predicate PrintMakes(s: State, input: Input, latency: Latency, r: Report) {
    input.TradeIn? && r in TakePrint(DrainSubmits(s, input.trade.ts, latency), input.trade).1
  }

  /** The step is a snapshot, and it makes this report. */
  predicate SnapshotMakes(s: State, input: Input, latency: Latency, r: Report) {
    input.SnapshotIn? && r in TakeSnapshot(DrainSubmits(s, input.book.ts, latency), input.book).1
  }

  /** A print of the run made this report. */
  ghost predicate Printed(s: State, inputs: seq<Input>, latency: Latency, r: Report)
    decreases |inputs|
  {
    inputs != []
    && (PrintMakes(s, inputs[0], latency, r) || Printed(Step(s, inputs[0], latency), inputs[1..], latency, r))
  }

  /** A snapshot of the run made this report, and its touch was at the order's
      limit iff `atLimit`. */
  ghost predicate Backstopped(s: State, inputs: seq<Input>, latency: Latency, r: Report, atLimit: bool)
    decreases |inputs|
  {
    inputs != []
    && ((SnapshotMakes(s, inputs[0], latency, r) && (atLimit <==> TouchOf(inputs[0].book, r) == r.orderPrice))
        || Backstopped(Step(s, inputs[0], latency), inputs[1..], latency, r, atLimit))
  }

  /** What one step adds to the reports: what is taken on arrival, then what its
      own event fills. */
  lemma {:induction false} StepMakes(s: State, input: Input, latency: Latency, r: Report)
    requires Punctual(s) && Prompt(s) && Valid(s, input)
    requires r in FilledIn(Step(s, input, latency).log) && r !in FilledIn(s.log) && r.role == Maker
    ensures PrintMakes(s, input, latency, r) || SnapshotMakes(s, input, latency, r)
  {
    hide LegOk, DrainSubmits, TakeSnapshot, TakePrint, Schedule, Serve, Fresh, NoneDue, FilledIn, AcceptedIn,
         StampedAt, Cancel;
    match input
    case SnapshotIn(book) =>
      DrainTakes(s, book.ts, latency);
      var s0 := DrainSubmits(s, book.ts, latency);
      SnapshotReports(s0, book);
      var (s1, reports) := TakeSnapshot(s0, book);
      ScheduleOnlyFills(s1, reports, latency);
    case TradeIn(t) =>
      DrainTakes(s, t.ts, latency);
      var s0 := DrainSubmits(s, t.ts, latency);
      PrintReportsLogged(s0, t);
      var (s1, reports) := TakePrint(s0, t);
      ScheduleOnlyFills(s1, reports, latency);
    case SubmitIn(order) =>
      if !Refused(s, order) {
        var s1 := Accept(s, Stamped(s, order), latency);
        AcceptPunctual(s, Stamped(s, order), latency);
        DrainTakes(s1, s.now, latency);
        OneMore(s.log, Accepted(Stamped(s, order)));
      }
    case CancelIn(exchange, symbol, id) =>
      OneMore(s.log, Withdrawn(id));
      CancelLegs(s, exchange, symbol, id);
  }

  lemma {:induction false} OneMore(log: seq<Entry>, e: Entry)
    requires !e.Filled?
    ensures FilledIn(log + [e]) == FilledIn(log)
  {
    LogAppend(log, [e]);
    assert [e][1..] == [];
  }

  /** Over any run, every maker report was made by a print or by a snapshot. */
  lemma {:induction false} MakersOfRun(s: State, inputs: seq<Input>, latency: Latency, r: Report)
    requires Punctual(s) && Prompt(s) && ValidRun(s, inputs, latency)
    requires r in FilledIn(Run(s, inputs, latency).log) && r !in FilledIn(s.log) && r.role == Maker
    ensures Printed(s, inputs, latency, r) || exists b :: Backstopped(s, inputs, latency, r, b)
    decreases |inputs|
  {
    hide Punctual, Prompt, Valid, Step, FilledIn, PrintMakes, DrainSubmits, TakeSnapshot, TouchOf;
    if inputs != [] {
      var s' := Step(s, inputs[0], latency);
      StepPunctual(s, inputs[0], latency);
      if r in FilledIn(s'.log) {
        StepMakes(s, inputs[0], latency, r);
        if SnapshotMakes(s, inputs[0], latency, r) {
          assert Backstopped(s, inputs, latency, r, TouchOf(inputs[0].book, r) == r.orderPrice);
        }
      } else {
        MakersOfRun(s', inputs[1..], latency, r);
        if b :| Backstopped(s', inputs[1..], latency, r, b) { assert Backstopped(s, inputs, latency, r, b); }
      }
    }
  }

  lemma {:induction false} PrintedAtLimit(s: State, inputs: seq<Input>, latency: Latency, r: Report)
    requires Sound(s) && ValidRun(s, inputs, latency) && Printed(s, inputs, latency, r)
    ensures r.lastPrice == r.orderPrice
    decreases |inputs|
  {
    hide Inv, Valid, Step, DrainSubmits, TakePrint;
    if PrintMakes(s, inputs[0], latency, r) {
      DrainSubmitsKeeps(s, inputs[0].trade.ts, latency);
      PrintFillsItsLevel(DrainSubmits(s, inputs[0].trade.ts, latency), inputs[0].trade);
    } else {
      StepKeeps(s, inputs[0], latency);
      PrintedAtLimit(Step(s, inputs[0], latency), inputs[1..], latency, r);
    }
  }

  lemma {:induction false} BackstoppedAt(s: State, inputs: seq<Input>, latency: Latency, r: Report, atLimit: bool)
    requires Backstopped(s, inputs, latency, r, atLimit)
    ensures atLimit <==> r.lastPrice == r.orderPrice
    decreases |inputs|
  {
    hide Step, DrainSubmits, TakeSnapshot, TouchOf;
    if SnapshotMakes(s, inputs[0], latency, r) && (atLimit <==> TouchOf(inputs[0].book, r) == r.orderPrice) {
      SnapshotAtTouch(DrainSubmits(s, inputs[0].book.ts, latency), inputs[0].book);
    } else {
      BackstoppedAt(Step(s, inputs[0], latency), inputs[1..], latency, r, atLimit);
    }
  }

  /** In every run, a maker report carries its order's limit as its price if and
      only if a print made it, or a snapshot whose touch was at that limit. */
  lemma {:induction false} MakerAtLimitIff(inputs: seq<Input>, latency: Latency, r: Report)
    requires ValidRun(INITIAL, inputs, latency)
    requires r in FilledIn(Run(INITIAL, inputs, latency).log) && r.role == Maker
    ensures r.lastPrice == r.orderPrice
            <==> Printed(INITIAL, inputs, latency, r) || Backstopped(INITIAL, inputs, latency, r, true)
  {
    hide Inv, Valid, Step, Run, Printed, Backstopped, ValidRun;
    InitialSound();
    InitialPunctual();
    MakersOfRun(INITIAL, inputs, latency, r);
    if Printed(INITIAL, inputs, latency, r) { PrintedAtLimit(INITIAL, inputs, latency, r); }
    forall b | Backstopped(INITIAL, inputs, latency, r, b) ensures b <==> r.lastPrice == r.orderPrice {
      BackstoppedAt(INITIAL, inputs, latency, r, b);
    }
  }
}
