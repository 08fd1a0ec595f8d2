/** Which book an order is matched and checked against: the last snapshot of its
    instrument, and no other. */
module EngineBooks {
  import opened Orders
  import opened PrintMatching
  import opened FillAccounts
  import opened BookWalk
  import opened LatencyLegs
  import opened EngineModel
  import opened EngineInvariants
  import opened EngineSteps
  import opened EngineRuns
  import opened EngineSchedule
  import opened EngineQuiet
  import opened EngineTurns
  import opened EngineArrivals

  // --- The last book --------------------------------------------------------------------------

  /** The input is a snapshot of this instrument. */
  predicate Shows(input: Input, key: string) {
    input.SnapshotIn? && Key(input.book.exchange, input.book.symbol) == key
  }

  /** The last snapshot of an instrument among these inputs. */
  function LastBook(inputs: seq<Input>, key: string): Option<Book> {
    if inputs == [] then None
    else
      var last := inputs[|inputs| - 1];
      if Shows(last, key) then Some(last.book) else LastBook(inputs[..|inputs| - 1], key)
  }

  /** The time of the last snapshot or print among these inputs, or `before`. */
  function LastTime(inputs: seq<Input>, before: nat): nat {
    if inputs == [] then before
    else
      match inputs[|inputs| - 1]
      case SnapshotIn(book) => book.ts
      case TradeIn(t) => t.ts
      case SubmitIn(_) => LastTime(inputs[..|inputs| - 1], before)
      case CancelIn(_, _, _) => LastTime(inputs[..|inputs| - 1], before)
  }

  lemma {:induction false} LastBookCons(input: Input, rest: seq<Input>, key: string)
    ensures LastBook([input] + rest, key)
         == if LastBook(rest, key).Some? then LastBook(rest, key)
            else if Shows(input, key) then Some(input.book) else None
  {
    var all := [input] + rest;
    if rest == [] {
      assert all[..0] == [] && all == [input];
    } else {
      LastBookCons(input, rest[..|rest| - 1], key);
      assert all[..|all| - 1] == [input] + rest[..|rest| - 1];
    }
  }

  lemma {:induction false} LastTimeCons(input: Input, rest: seq<Input>, before: nat)
    ensures LastTime([input] + rest, before) == LastTime(rest, LastTime([input], before))
  {
    var all := [input] + rest;
    if rest == [] {
      assert all == [input];
    } else {
      LastTimeCons(input, rest[..|rest| - 1], before);
      assert all[..|all| - 1] == [input] + rest[..|rest| - 1];
    }
  }

  lemma {:induction false} DrainBooks(s: State, upto: nat, latency: Latency)
    ensures DrainSubmits(s, upto, latency).books == s.books
  {
    hide MatchAll, Schedule, Serve, Ready;
    var s0 := s.(submits := Serve(s.submits, upto, s.now));
    MatchAllLegs(s0, Ready(s.submits, upto));
    var m := MatchAll(s0, Ready(s.submits, upto));
    ScheduleOnlyFills(m.0, m.1, latency);
  }

  lemma {:induction false} SnapshotBooks(s: State, book: Book)
    ensures TakeSnapshot(s, book).0.books == s.books[Key(book.exchange, book.symbol) := book]
  {
    hide Backstop, HasTouch;
    ReconcileLegs(s.(now := book.ts), Key(book.exchange, book.symbol), book, 0);
  }

  /** A snapshot replaces its own book; nothing else touches the books. */
  lemma {:induction false} StepBooks(s: State, input: Input, latency: Latency)
    ensures Step(s, input, latency).books
         == if input.SnapshotIn? then s.books[Key(input.book.exchange, input.book.symbol) := input.book] else s.books
  {
    hide DrainSubmits, TakeSnapshot, TakePrint, Schedule, Serve, Cancel;
    match input
    case SnapshotIn(book) =>
      DrainBooks(s, book.ts, latency);
      SnapshotBooks(DrainSubmits(s, book.ts, latency), book);
      var (s1, reports) := TakeSnapshot(DrainSubmits(s, book.ts, latency), book);
      ScheduleOnlyFills(s1, reports, latency);
    case TradeIn(t) =>
      DrainBooks(s, t.ts, latency);
      PrintBooks(DrainSubmits(s, t.ts, latency), t);
      var (s1, reports) := TakePrint(DrainSubmits(s, t.ts, latency), t);
      ScheduleOnlyFills(s1, reports, latency);
    case SubmitIn(order) =>
      DrainBooks(Accept(s, Stamped(s, order), latency), s.now, latency);
    case CancelIn(exchange, symbol, id) => CancelBooks(s, exchange, symbol, id);
  }

  lemma {:induction false} PrintBooks(s: State, t: Trade)
    ensures TakePrint(s, t).0.books == s.books
  {
    hide Consume, DropDone;
  }

  lemma {:induction false} CancelBooks(s: State, exchange: string, symbol: string, id: nat)
    ensures Cancel(s, exchange, symbol, id).0.books == s.books
  {
    hide IndexOfId, IndexOfSubmit, WithoutOwner;
  }

  lemma {:induction false} BooksFrom(s: State, inputs: seq<Input>, latency: Latency, key: string)
    ensures var books, last := Run(s, inputs, latency).books, LastBook(inputs, key);
            && (key in books <==> last.Some? || key in s.books)
            && (key in books ==> books[key] == if last.Some? then last.value else s.books[key])
    decreases |inputs|
  {
    hide Step;
    if inputs != [] {
      StepBooks(s, inputs[0], latency);
      BooksFrom(Step(s, inputs[0], latency), inputs[1..], latency, key);
      LastBookCons(inputs[0], inputs[1..], key);
      assert inputs == [inputs[0]] + inputs[1..];
    }
  }

  /** Over every run, the engine knows of each instrument exactly the last
      snapshot, and of no other instrument anything. */
  lemma {:induction false} BooksOfRun(inputs: seq<Input>, latency: Latency, key: string)
    ensures var books, last := Run(INITIAL, inputs, latency).books, LastBook(inputs, key);
            (key in books <==> last.Some?) && (key in books ==> books[key] == last.value)
  {
    hide Run;
    BooksFrom(INITIAL, inputs, latency, key);
  }

  // --- The clock ------------------------------------------------------------------------------

  lemma {:induction false} StepClock(s: State, input: Input, latency: Latency)
    requires Punctual(s) && Valid(s, input)
    ensures Step(s, input, latency).now == LastTime([input], s.now)
  {
    hide LegOk, DrainSubmits, TakeSnapshot, TakePrint, Schedule, Serve, Cancel, Fresh, NoneDue;
    match input
    case SnapshotIn(book) =>
      var s0 := DrainSubmits(s, book.ts, latency);
      SnapshotLegs(s0, book);
      var (s1, reports) := TakeSnapshot(s0, book);
      ScheduleOnlyFills(s1, reports, latency);
    case TradeIn(t) =>
      var s0 := DrainSubmits(s, t.ts, latency);
      PrintLegs(s0, t);
      var (s1, reports) := TakePrint(s0, t);
      ScheduleOnlyFills(s1, reports, latency);
    case SubmitIn(order) =>
      assert [input][..0] == [];
      if !Refused(s, order) {
        AcceptPunctual(s, Stamped(s, order), latency);
        DrainSubmitsPunctual(Accept(s, Stamped(s, order), latency), s.now, latency);
      }
    case CancelIn(exchange, symbol, id) =>
      assert [input][..0] == [];
      CancelLegs(s, exchange, symbol, id);
  }

  /** Over every run, the engine's clock is the time of the last snapshot or
      print. */
  lemma {:induction false} ClockOfRun(s: State, inputs: seq<Input>, latency: Latency)
    requires Punctual(s) && Prompt(s) && ValidRun(s, inputs, latency)
    ensures Run(s, inputs, latency).now == LastTime(inputs, s.now)
    decreases |inputs|
  {
    hide Punctual, Prompt, Valid, Step;
    if inputs != [] {
      StepClock(s, inputs[0], latency);
      StepPunctual(s, inputs[0], latency);
      ClockOfRun(Step(s, inputs[0], latency), inputs[1..], latency);
      LastTimeCons(inputs[0], inputs[1..], s.now);
      assert inputs == [inputs[0]] + inputs[1..];
    }
  }

  // --- Post-only orders -------------------------------------------------------------------------

  /** The book would trade with the order at once. */
  predicate Meets(o: Order, book: Book) {
    match o.side
    case Buy => 0 < book.asks[0].px <= o.price
    case Sell => 0 < book.bids[0].px && o.price <= book.bids[0].px
  }

  /** Over every run, an order is turned away if and only if it is post-only and
      meets the last snapshot of its instrument; then nothing changes. Any other
      is accepted, stamped with the clock. */
  lemma {:induction false} AcceptedIff(inputs: seq<Input>, latency: Latency, o: Order)
    ensures var s := Run(INITIAL, inputs, latency);
            var s' := Step(s, SubmitIn(o), latency);
            var last := LastBook(inputs, Key(o.exchange, o.symbol));
            if o.kind == PostOnly && last.Some? && Meets(o, last.value) then s' == s && Stamped(s, o).rejected
            else AcceptedIn(s'.log) == AcceptedIn(s.log) + [o.(submittedTs := s.now)]
                 && Stamped(s, o) == o.(submittedTs := s.now)
  {
    hide Run, DrainSubmits, Serve, AcceptedIn, FilledIn;
    var s := Run(INITIAL, inputs, latency);
    BooksOfRun(inputs, latency, Key(o.exchange, o.symbol));
    RefusedIff(s, o);
    if !Refused(s, o) {
      AcceptedLog(s, o, latency);
    }
  }

  lemma {:induction false} RefusedIff(s: State, o: Order)
    ensures var key := Key(o.exchange, o.symbol);
            Refused(s, o) <==> o.kind == PostOnly && key in s.books && Meets(o, s.books[key])
  {
  }

  lemma {:induction false} AcceptedLog(s: State, o: Order, latency: Latency)
    requires !Refused(s, o)
    ensures AcceptedIn(Submit(s, o, latency).log) == AcceptedIn(s.log) + [o.(submittedTs := s.now)]
  {
    hide MatchAll, Serve, Ready, Schedule, AcceptedIn, FilledIn;
    var s1 := Accept(s, Stamped(s, o), latency);
    var s2 := s1.(submits := Serve(s1.submits, s.now, s.now));
    var ready := Ready(s1.submits, s.now);
    MatchAllLog(s2, ready);
    var m := MatchAll(s2, ready);
    ScheduleOnlyFills(m.0, m.1, latency);
    LogEntries(s1.log, m.1);
    LogAppend(s.log, [Accepted(Stamped(s, o))]);
    OneAccepted(Stamped(s, o));
  }

  lemma {:induction false} OneAccepted(o: Order)
    ensures AcceptedIn([Accepted(o)]) == [o]
  {
    assert [Accepted(o)][1..] == [];
  }

  // --- Orders that are due --------------------------------------------------------------------

  /** What an order takes, given what is known of its book. */
  ghost predicate TakesGiven(o: Order, known: Option<Book>, reports: seq<Report>) {
    match known
    case None => reports == []
    case Some(book) =>
      if o.kind == PostOnly then reports == []
      else TakesFrom(o, if o.side == Buy then book.asks else book.bids, reports)
  }

  lemma {:induction false} MatchTakesGiven(s: State, o: Order, known: Option<Book>)
    requires Remaining(o) > EPS
    requires var key := Key(o.exchange, o.symbol);
             (key in s.books <==> known.Some?) && (key in s.books ==> s.books[key] == known.value)
    ensures TakesGiven(o, known, Match(s, o).1)
  {
    hide TakesFrom, Match;
    if known.Some? { MatchTakes(s, o); } else { MatchTakesNothing(s, o); }
  }

  lemma {:induction false} MatchAllSnoc(s: State, ready: seq<Timed<Order>>)
    requires ready != []
    ensures var n := |ready| - 1;
            var before := MatchAll(s, ready[..n]).0;
            var last := Match(before.(now := Later(before.now, ready[n].due)), ready[n].item);
            MatchAll(s, ready) == (last.0, MatchAll(s, ready[..n]).1 + last.1)
    decreases |ready|
  {
    hide Match;
    var n := |ready| - 1;
    if n == 0 {
      assert ready[..0] == [] && ready[1..] == [];
      var m := Match(s.(now := Later(s.now, ready[0].due)), ready[0].item);
      assert MatchAll(m.0, []) == (m.0, []) && m.1 + [] == m.1 && [] + m.1 == m.1;
    } else {
      var first := Match(s.(now := Later(s.now, ready[0].due)), ready[0].item);
      var rest := ready[1..];
      MatchAllSnoc(first.0, rest);
      assert ready[..n][0] == ready[0] && ready[..n][1..] == rest[..n - 1] && rest[n - 1] == ready[n];
      var most := MatchAll(first.0, rest[..n - 1]);
      assert MatchAll(s, ready[..n]) == (most.0, first.1 + most.1);
      var last := Match(most.0.(now := Later(most.0.now, ready[n].due)), ready[n].item);
      assert first.1 + (most.1 + last.1) == (first.1 + most.1) + last.1;
    }
  }

  /** What a drain fills is what its due orders take, one after the other. */
  lemma {:induction false} DrainFilled(s: State, upto: nat, latency: Latency)
    ensures var s0 := s.(submits := Serve(s.submits, upto, s.now));
            FilledIn(DrainSubmits(s, upto, latency).log)
            == FilledIn(s.log) + MatchAll(s0, Ready(s.submits, upto)).1
  {
    hide MatchAll, Serve, Ready, Schedule, FilledIn, AcceptedIn;
    var s0, ready := s.(submits := Serve(s.submits, upto, s.now)), Ready(s.submits, upto);
    MatchAllLog(s0, ready);
    var m := MatchAll(s0, ready);
    ScheduleOnlyFills(m.0, m.1, latency);
    LogEntries(s.log, m.1);
  }

  /** Every order that comes due after these inputs takes from the last snapshot
      of its instrument, at the later of the clock and its own time. */
  lemma {:induction false} DueTakes(inputs: seq<Input>, latency: Latency, upto: nat, k: nat)
    requires ValidRun(INITIAL, inputs, latency)
    requires k < |Ready(Run(INITIAL, inputs, latency).submits, upto)|
    ensures var s := Run(INITIAL, inputs, latency);
            var ready := Ready(s.submits, upto);
            var s0 := s.(submits := Serve(s.submits, upto, s.now));
            var o := ready[k].item;
            exists reports ::
              && MatchAll(s0, ready[..k + 1]).1 == MatchAll(s0, ready[..k]).1 + reports
              && TakesGiven(o, LastBook(inputs, Key(o.exchange, o.symbol)), reports)
  {
    hide Inv, Run, ValidRun, MatchAll, Match, Serve, Ready, TakesGiven;
    var s := Run(INITIAL, inputs, latency);
    InitialSound();
    RunKeeps(INITIAL, inputs, latency);
    var ready := Ready(s.submits, upto);
    var s0 := s.(submits := Serve(s.submits, upto, s.now));
    var o := ready[k].item;
    ReadyUnfinished(s, upto, k);
    assert ready[..k + 1][..k] == ready[..k];
    MatchAllSnoc(s0, ready[..k + 1]);
    MatchAllLegs(s0, ready[..k]);
    var before := MatchAll(s0, ready[..k]).0;
    BooksOfRun(inputs, latency, Key(o.exchange, o.symbol));
    MatchTakesGiven(before.(now := Later(before.now, ready[k].due)), o, LastBook(inputs, Key(o.exchange, o.symbol)));
  }

  lemma {:induction false} ReadyUnfinished(s: State, upto: nat, k: nat)
    requires Sound(s) && k < |Ready(s.submits, upto)|
    ensures Remaining(Ready(s.submits, upto)[k].item) > EPS
  {
    hide Ready, SlotsMatchOrders, Accounted, NoneLost, AllOrdersOk, BooksDisjoint;
    ReadyFlight(s, upto);
    var ready, flight := Ready(s.submits, upto), Items(s.submits.waiting);
    ItemsIndex(ready);
    assert Items(ready)[k] in flight;
    var j :| 0 <= j < |flight| && flight[j] == Items(ready)[k];
  }

  /** Without latency an accepted order is matched before the submit returns:
      what is handed out is what it takes from the last snapshot. */
  lemma {:induction false} SubmitTakes(inputs: seq<Input>, o: Order)
    requires Quiet(Run(INITIAL, inputs, NO_LATENCY)) && Remaining(o) > EPS
    ensures var s := Run(INITIAL, inputs, NO_LATENCY);
            var last := LastBook(inputs, Key(o.exchange, o.symbol));
            var reports := NewlyDelivered(s, Submit(s, o, NO_LATENCY));
            if o.kind == PostOnly then reports == [] else TakesGiven(o, last, reports)
  {
    hide Run, Submit, NewlyDelivered, TakesFrom, Match, Quiet, Serve;
    var s := Run(INITIAL, inputs, NO_LATENCY);
    var last := LastBook(inputs, Key(o.exchange, o.symbol));
    BooksOfRun(inputs, NO_LATENCY, Key(o.exchange, o.symbol));
    QuietSubmit(s, o);
    RefusedIff(s, o);
    if !Refused(s, o) {
      MatchTakesGiven(Arrived(s, o), Stamped(s, o), last);
      if last.Some? && o.kind != PostOnly {
        SameTakes(o, Stamped(s, o), if o.side == Buy then last.value.asks else last.value.bids,
                  NewlyDelivered(s, Submit(s, o, NO_LATENCY)));
      }
    }
  }

  lemma {:induction false} SameTakes(o: Order, o': Order, levels: seq<Quote>, reports: seq<Report>)
    requires o' == o.(submittedTs := o'.submittedTs, rejected := o'.rejected) && TakesFrom(o', levels, reports)
    ensures TakesFrom(o, levels, reports)
  {
    hide TakesLevel;
    var n: nat :| Leading(o', levels, n) && TakesTo(o', levels, reports, n);
    assert forall i :: 0 <= i < |levels| ==> (Usable(o, levels[i]) <==> Usable(o', levels[i]));
    assert Leading(o, levels, n) && TakesTo(o, levels, reports, n);
  }
}
