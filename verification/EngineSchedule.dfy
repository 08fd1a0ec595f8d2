/** The two latency legs over whole runs: nothing is lost, duplicated or early,
    and everything happens in due order. */
module EngineSchedule {
  import opened Orders
  import opened SlotQueues
  import opened PrintMatching
  import opened FillAccounts
  import opened BookWalk
  import opened LatencyLegs
  import opened EngineModel
  import opened EngineSteps
  import opened EngineRuns

  // --- The legs and the history ------------------------------------------------------

  function AcceptedIn(log: seq<Entry>): seq<Order> {
    if log == [] then []
    else if log[0].Accepted? then [log[0].order] + AcceptedIn(log[1..])
    else AcceptedIn(log[1..])
  }

  function FilledIn(log: seq<Entry>): seq<Report> {
    if log == [] then []
    else if log[0].Filled? then [log[0].report] + FilledIn(log[1..])
    else FilledIn(log[1..])
  }

  lemma {:induction false} LogAppend(a: seq<Entry>, b: seq<Entry>)
    ensures AcceptedIn(a + b) == AcceptedIn(a) + AcceptedIn(b)
    ensures FilledIn(a + b) == FilledIn(a) + FilledIn(b)
  {
    if a == [] {
      assert a + b == b;
    } else {
      assert (a + b)[1..] == a[1..] + b;
      LogAppend(a[1..], b);
    }
  }

  lemma {:induction false} LogEntries(log: seq<Entry>, reports: seq<Report>)
    ensures AcceptedIn(log + Entries(reports)) == AcceptedIn(log)
    ensures FilledIn(log + Entries(reports)) == FilledIn(log) + reports
    decreases |reports|
  {
    LogAppend(log, Entries(reports));
    if reports != [] {
      LogEntries([], reports[1..]);
      assert [] + Entries(reports[1..]) == Entries(reports[1..]);
      assert Entries(reports)[1..] == Entries(reports[1..]);
    }
  }

  /** Every accepted order went into the submit leg, every report of a fill
      into the report leg, in the order they came about. */
  ghost predicate Logged(s: State, unscheduled: seq<Report>) {
    && AcceptedIn(s.log) == Items(s.submits.pushed)
    && FilledIn(s.log) == Items(s.fills.pushed) + unscheduled
  }

  /** The invariant of the scheduler between calls. */
  ghost predicate Punctual(s: State) {
    && LegOk(s.submits) && LegOk(s.fills)
    && s.submits.horizon <= s.now && s.fills.horizon <= s.now
    && s.fills.dropped == []
    && Logged(s, [])
  }

  /** Between calls nothing waits that is due. */
  predicate Prompt(s: State) {
    NoneDue(s.submits.waiting, s.now) && NoneDue(s.fills.waiting, s.now)
  }

  // --- What matching reports ------------------------------------------------------------

  predicate StampedFrom(reports: seq<Report>, now: nat) {
    forall i :: 0 <= i < |reports| ==> reports[i].ts >= now
  }

  predicate StampedAt(reports: seq<Report>, now: nat) {
    forall i :: 0 <= i < |reports| ==> reports[i].ts == now
  }

  lemma {:induction false} AtIsFrom(reports: seq<Report>, now: nat)
    requires StampedAt(reports, now)
    ensures StampedFrom(reports, now)
  {
  }

  lemma {:induction false} WalkStamps(o: Order, levels: seq<Quote>, cap: Option<int>, now: nat)
    ensures StampedAt(Walk(o, levels, cap, now).1, now)
    decreases |levels|
  {
    if levels == [] || Remaining(o) <= EPS {
    } else if levels[0].px <= 0 || levels[0].sz <= 0.0 || !Acceptable(o.side, levels[0].px, cap) {
    } else {
      WalkStamps(o.(filled := o.filled + Min(Remaining(o), levels[0].sz)), levels[1..], cap, now);
    }
  }

  lemma {:induction false} BackstopStamps(orders: seq<Order>, book: Book, now: nat)
    ensures StampedAt(Backstop(orders, book, now).1, now)
  {
    if orders != [] { BackstopStamps(orders[1..], book, now); }
  }

  lemma {:induction false} CreditStamps(orders: seq<Order>, id: nat, take: real, now: nat)
    ensures StampedAt(Credit(orders, id, take, now).1, now)
  {
    if orders != [] && orders[0].id != id { CreditStamps(orders[1..], id, take, now); }
  }

  lemma {:induction false} ConsumeStamps(q: seq<Slot>, orders: seq<Order>, size: real, now: nat)
    ensures StampedAt(Consume(q, orders, size, now).reports, now)
    decreases |q|, if size > 0.0 then 1 else 0
  {
    if size > 0.0 && q != [] {
      var take := Min(size, q[0].qty);
      var front := CreditFront(q[0], orders, take, now);
      if q[0].owner.Some? { CreditStamps(orders, q[0].owner.value, take, now); }
      ConsumeStamps(Shorten(q, take), front.0, size - take, now);
    }
  }

  /** Matching stamps its reports with the clock, logs what it reports, and
      leaves the legs alone. */
  lemma {:induction false} MatchReports(s: State, o: Order)
    ensures var (s', reports) := Match(s, o);
            && StampedAt(reports, s.now)
            && AcceptedIn(s'.log) == AcceptedIn(s.log)
            && FilledIn(s'.log) == FilledIn(s.log) + reports
            && s'.submits == s.submits && s'.fills == s.fills && s'.now == s.now && s'.draws == s.draws
  {
    if KeyOf(o) in s.books {
      var book := s.books[KeyOf(o)];
      WalkStamps(o, FarSide(book, o.side), None, s.now);
      WalkStamps(o, FarSide(book, o.side), Some(o.price), s.now);
      LogEntries(s.log, Cross(o, book, s.now).1);
    }
  }

  lemma {:induction false} MatchAllReports(s: State, ready: seq<Timed<Order>>, upto: nat)
    requires s.now <= upto && forall i :: 0 <= i < |ready| ==> ready[i].due <= upto
    ensures var (s', reports) := MatchAll(s, ready);
            && StampedFrom(reports, s.now)
            && AcceptedIn(s'.log) == AcceptedIn(s.log)
            && FilledIn(s'.log) == FilledIn(s.log) + reports
            && s'.submits == s.submits && s'.fills == s.fills && s.now <= s'.now <= upto
    decreases |ready|
  {
    hide Match;
    if ready != [] {
      var s1 := s.(now := Later(s.now, ready[0].due));
      MatchReports(s1, ready[0].item);
      var (s2, first) := Match(s1, ready[0].item);
      MatchAllReports(s2, ready[1..], upto);
      var rest := MatchAll(s2, ready[1..]).1;
      forall i | 0 <= i < |first + rest| ensures (first + rest)[i].ts >= s.now {
        if i < |first| { assert first[i].ts == s1.now; } else { assert rest[i - |first|].ts >= s2.now; }
      }
    }
  }

  /** Scheduling pushes every report once, not due before the horizon. */
  lemma {:induction false} ScheduleKeeps(s: State, reports: seq<Report>, latency: Latency)
    requires LegOk(s.fills) && StampedFrom(reports, s.fills.horizon) && Logged(s, reports)
    ensures var s' := Schedule(s, reports, latency);
            && LegOk(s'.fills) && Logged(s', [])
            && s'.fills.horizon == s.fills.horizon && s'.fills.dropped == s.fills.dropped
    decreases |reports|
  {
    hide LegOk;
    if reports != [] {
      var due := reports[0].ts + latency(s.draws);
      var s1 := s.(fills := Push(s.fills, reports[0], due), draws := s.draws + 1);
      PushKeeps(s.fills, reports[0], due);
      PushedItems(s.fills, reports[0], due);
      assert Items(s.fills.pushed) + reports == Items(s1.fills.pushed) + reports[1..];
      forall i | 0 <= i < |reports[1..]| ensures reports[1..][i].ts >= s.fills.horizon {
        assert reports[1..][i] == reports[i + 1];
      }
      ScheduleKeeps(s1, reports[1..], latency);
    }
  }

  lemma {:induction false} PushedItems<T>(leg: Leg<T>, item: T, due: nat)
    ensures Items(Push(leg, item, due).pushed) == Items(leg.pushed) + [item]
  {
    var e := Timed(item, due, |leg.pushed|);
    ItemsAppend(leg.pushed, [e]);
    assert Items([e]) == [item];
  }

  lemma {:induction false} ReadyDue<T>(leg: Leg<T>, upto: nat)
    requires TiesInOrder(leg.waiting)
    ensures forall i :: 0 <= i < |Ready(leg, upto)| ==> Ready(leg, upto)[i].due <= upto
  {
    SortInOrder(leg.waiting);
    DueCountSplits(StableSort(leg.waiting), upto);
  }

  /** Draining the submits: the clock stays within the time drained up to. */
  lemma {:induction false} DrainSubmitsPunctual(s: State, upto: nat, latency: Latency)
    requires Punctual(s) && upto >= s.now
    ensures var s' := DrainSubmits(s, upto, latency);
            && LegOk(s'.submits) && LegOk(s'.fills) && Logged(s', []) && s'.fills.dropped == []
            && s'.submits.horizon == upto && s'.fills.horizon <= s.now <= s'.now <= upto
            && NoneDue(s'.submits.waiting, upto)
  {
    hide LegOk, MatchAll, Schedule, Serve, Ready, StampedFrom;
    var ready := Ready(s.submits, upto);
    var s0 := s.(submits := Serve(s.submits, upto, s.now));
    TiesOf(s.submits);
    ReadyDue(s.submits, upto);
    ServeKeeps(s.submits, upto, s.now);
    ServePushed(s.submits, upto, s.now);
    MatchAllReports(s0, ready, upto);
    var (s1, reports) := MatchAll(s0, ready);
    EarlierStamps(reports, s.now, s.fills.horizon);
    ScheduleKeeps(s1, reports, latency);
    ScheduleOnlyFills(s1, reports, latency);
  }

  lemma {:induction false} TiesOf<T>(leg: Leg<T>)
    requires LegOk(leg)
    ensures TiesInOrder(leg.waiting)
  {
  }

  lemma {:induction false} ServePushed<T>(leg: Leg<T>, upto: nat, clock: nat)
    ensures Serve(leg, upto, clock).pushed == leg.pushed && Serve(leg, upto, clock).dropped == leg.dropped
  {
  }

  lemma {:induction false} EarlierStamps(reports: seq<Report>, now: nat, earlier: nat)
    requires StampedFrom(reports, now) && earlier <= now
    ensures StampedFrom(reports, earlier)
  {
  }

  /** A market event's own reports, then the deliveries. */
  lemma {:induction false} EventPunctual(s: State, reports: seq<Report>, latency: Latency)
    requires LegOk(s.submits) && LegOk(s.fills) && Logged(s, reports) && s.fills.dropped == []
    requires s.submits.horizon <= s.now && s.fills.horizon <= s.now && StampedFrom(reports, s.now)
    ensures Punctual(DrainFills(Schedule(s, reports, latency), s.now))
    ensures NoneDue(DrainFills(Schedule(s, reports, latency), s.now).fills.waiting, s.now)
    ensures DrainFills(Schedule(s, reports, latency), s.now).submits == s.submits
    ensures DrainFills(Schedule(s, reports, latency), s.now).now == s.now
  {
    hide LegOk, Schedule, Serve, StampedFrom;
    EarlierStamps(reports, s.now, s.fills.horizon);
    ScheduleKeeps(s, reports, latency);
    ScheduleOnlyFills(s, reports, latency);
    var s1 := Schedule(s, reports, latency);
    ServeKeeps(s1.fills, s.now, s.now);
    ServePushed(s1.fills, s.now, s.now);
  }

  lemma {:induction false} SnapshotReports(s: State, book: Book)
    ensures var (s', reports) := TakeSnapshot(s, book);
            && StampedAt(reports, book.ts)
            && AcceptedIn(s'.log) == AcceptedIn(s.log)
            && FilledIn(s'.log) == FilledIn(s.log) + reports
  {
    var key := Key(book.exchange, book.symbol);
    var s1 := ReconcileFrom(s.(now := book.ts), key, book, 0);
    ReconcileLegs(s.(now := book.ts), key, book, 0);
    BackstopStamps(OrdersAt(s1, key), book, book.ts);
    LogEntries(s.log, Backstop(OrdersAt(s1, key), book, book.ts).1);
  }

  lemma {:induction false} PrintReportsLogged(s: State, t: Trade)
    ensures var (s', reports) := TakePrint(s, t);
            && StampedAt(reports, t.ts)
            && AcceptedIn(s'.log) == AcceptedIn(s.log)
            && FilledIn(s'.log) == FilledIn(s.log) + reports
  {
    var level := PrintLevel(t);
    ConsumeStamps(QueueAt(s, level), OrdersAt(s, level.key), t.quantity, t.ts);
    LogEntries(s.log, Consume(QueueAt(s, level), OrdersAt(s, level.key), t.quantity, t.ts).reports);
  }

  lemma {:induction false} AcceptPunctual(s: State, o: Order, latency: Latency)
    requires Punctual(s)
    ensures Punctual(Accept(s, o, latency))
  {
    hide LegOk;
    PushKeeps(s.submits, o, s.now + latency(s.draws));
    PushedItems(s.submits, o, s.now + latency(s.draws));
    LogAppend(s.log, [Accepted(o)]);
    assert [Accepted(o)][1..] == [];
  }

  lemma {:induction false} SubmitPunctual(s: State, order: Order, latency: Latency)
    requires Punctual(s) && Prompt(s)
    ensures Punctual(Submit(s, order, latency)) && Prompt(Submit(s, order, latency))
  {
    hide LegOk, DrainSubmits, Serve, NoneDue;
    var o := Stamped(s, order);
    if !Refused(s, order) {
      var s1 := Accept(s, o, latency);
      AcceptPunctual(s, o, latency);
      DrainSubmitsPunctual(s1, s.now, latency);
      var s2 := DrainSubmits(s1, s.now, latency);
      ServeKeeps(s2.fills, s2.now, s2.now);
      ServePushed(s2.fills, s2.now, s2.now);
    }
  }

  lemma {:induction false} CancelLegs(s: State, exchange: string, symbol: string, id: nat)
    ensures var s' := Cancel(s, exchange, symbol, id).0;
            var j := IndexOfSubmit(s.submits.waiting, exchange, symbol, id);
            && s'.fills == s.fills && s'.now == s.now
            && (s'.log == s.log || s'.log == s.log + [Withdrawn(id)])
            && (s'.submits == s.submits || (j < |s.submits.waiting| && s'.submits == Drop(s.submits, j)))
  {
    hide IndexOfSubmit, IndexOfId, WithoutOwner, Drop;
  }

  lemma {:induction false} CancelPunctual(s: State, exchange: string, symbol: string, id: nat)
    requires Punctual(s) && Prompt(s)
    ensures Punctual(Cancel(s, exchange, symbol, id).0) && Prompt(Cancel(s, exchange, symbol, id).0)
  {
    hide LegOk, NoneDue, Cancel, IndexOfSubmit;
    CancelLegs(s, exchange, symbol, id);
    var j := IndexOfSubmit(s.submits.waiting, exchange, symbol, id);
    if j < |s.submits.waiting| {
      DropKeeps(s.submits, j);
      DropNoneDue(s.submits, j, s.now);
    }
    LogAppend(s.log, [Withdrawn(id)]);
    assert [Withdrawn(id)][1..] == [];
  }

  lemma {:induction false} DropNoneDue<T>(leg: Leg<T>, i: nat, now: nat)
    requires i < |leg.waiting| && NoneDue(leg.waiting, now)
    ensures NoneDue(Drop(leg, i).waiting, now)
  {
  }

  lemma {:induction false} StepPunctual(s: State, input: Input, latency: Latency)
    requires Punctual(s) && Prompt(s) && Valid(s, input)
    ensures Punctual(Step(s, input, latency)) && Prompt(Step(s, input, latency))
  {
    hide NoneDue, LegOk, DrainSubmits, TakeSnapshot, TakePrint, Schedule, Serve, Cancel, Submit, Fresh,
         StampedAt, StampedFrom;
    match input
    case SnapshotIn(book) =>
      DrainSubmitsPunctual(s, book.ts, latency);
      var s0 := DrainSubmits(s, book.ts, latency);
      SnapshotLegs(s0, book);
      SnapshotReports(s0, book);
      var (s1, reports) := TakeSnapshot(s0, book);
      AtIsFrom(reports, s1.now);
      EventPunctual(s1, reports, latency);
    case TradeIn(t) =>
      DrainSubmitsPunctual(s, t.ts, latency);
      var s0 := DrainSubmits(s, t.ts, latency);
      PrintLegs(s0, t);
      PrintReportsLogged(s0, t);
      var (s1, reports) := TakePrint(s0, t);
      AtIsFrom(reports, s1.now);
      EventPunctual(s1, reports, latency);
    case SubmitIn(o) => SubmitPunctual(s, o, latency);
    case CancelIn(exchange, symbol, id) => CancelPunctual(s, exchange, symbol, id);
  }

  lemma {:induction false} InitialPunctual()
    ensures Punctual(INITIAL) && Prompt(INITIAL)
  {
  }

  lemma {:induction false} RunPunctual(s: State, inputs: seq<Input>, latency: Latency)
    requires Punctual(s) && Prompt(s) && ValidRun(s, inputs, latency)
    ensures Punctual(Run(s, inputs, latency)) && Prompt(Run(s, inputs, latency))
    decreases |inputs|
  {
    hide Punctual, Prompt, Valid, Step;
    if inputs != [] {
      StepPunctual(s, inputs[0], latency);
      RunPunctual(Step(s, inputs[0], latency), inputs[1..], latency);
    }
  }

  // --- Handing out -----------------------------------------------------------------------------

  /** Draining hands out exactly what is ready. */
  lemma {:induction false} HandedOut(before: State, s: State, upto: nat)
    requires s.fills.served == before.fills.served
    ensures NewlyDelivered(before, DrainFills(s, upto)) == Items(Ready(s.fills, upto))
  {
    var sorted := StableSort(s.fills.waiting);
    var ready := sorted[..DueCount(sorted, upto)];
    ServedShape(ready, upto);
    assert (before.fills.served + Served(ready, upto))[|before.fills.served|..] == Served(ready, upto);
  }

  lemma {:induction false} ScheduleStep(s: State, reports: seq<Report>, i: nat, latency: Latency)
    requires i < |reports|
    ensures Schedule(s, reports[i..], latency)
         == Schedule(s.(fills := Push(s.fills, reports[i], reports[i].ts + latency(s.draws)), draws := s.draws + 1),
                     reports[i + 1..], latency)
  {
    hide Push;
    assert reports[i..][0] == reports[i] && reports[i..][1..] == reports[i + 1..];
  }

  lemma {:induction false} ScheduleNone(s: State, reports: seq<Report>, latency: Latency)
    requires reports == []
    ensures Schedule(s, reports, latency) == s
  {
  }

  lemma {:induction false} NothingHandedOut(s: State)
    ensures NewlyDelivered(s, s) == []
  {
    assert s.fills.served[|s.fills.served|..] == [];
  }

  /** A print sets the clock itself. */
  lemma {:induction false} PrintClock(s: State, t: Trade)
    ensures TakePrint(s.(now := t.ts), t) == TakePrint(s, t)
  {
  }

  lemma {:induction false} ScheduleServes(s: State, reports: seq<Report>, latency: Latency)
    ensures Schedule(s, reports, latency).fills.served == s.fills.served
    decreases |reports|
  {
    if reports != [] {
      ScheduleServes(s.(fills := Push(s.fills, reports[0], reports[0].ts + latency(s.draws)), draws := s.draws + 1),
                     reports[1..], latency);
    }
  }

  // --- What punctuality means ---------------------------------------------------------------

  /** A served record in due order, ties in push order, all of it due by now and
      served between its due time and now. */
  predicate InDueOrder<T>(record: seq<Service<T>>, now: nat) {
    && (forall i, j :: 0 <= i < j < |record| ==>
          record[i].entry.due < record[j].entry.due
          || (record[i].entry.due == record[j].entry.due && record[i].entry.ticket < record[j].entry.ticket))
    && (forall i :: 0 <= i < |record| ==> record[i].entry.due <= record[i].at <= now)
  }

  lemma {:induction false} LegMeans<T>(leg: Leg<T>, now: nat)
    requires LegOk(leg) && leg.horizon <= now
    ensures InDueOrder(leg.served, now)
    ensures multiset(leg.pushed)
         == multiset(ServedEntries(leg.served)) + multiset(leg.waiting) + multiset(leg.dropped)
  {
    hide Conserved;
    forall i, j | 0 <= i < j < |leg.served| ensures Before(leg.served[i].entry, leg.served[j].entry) {}
    ConservedMeans(leg);
  }

  lemma {:induction false} ConservedMeans<T>(leg: Leg<T>)
    requires Conserved(leg)
    ensures multiset(leg.pushed)
         == multiset(ServedEntries(leg.served)) + multiset(leg.waiting) + multiset(leg.dropped)
  {
  }

  /** Every report of a fill is delivered or still on its way, exactly once;
      the deliveries of the whole run are in order of their scheduled times,
      ties in the order of the fills; and after every call the delivered ones
      are exactly those that are due: none comes early, none is kept back. */
  lemma {:induction false} DeliveriesOfRun(inputs: seq<Input>, latency: Latency)
    requires ValidRun(INITIAL, inputs, latency)
    ensures var s := Run(INITIAL, inputs, latency);
            && FilledIn(s.log) == Items(s.fills.pushed)
            && multiset(s.fills.pushed) == multiset(ServedEntries(s.fills.served)) + multiset(s.fills.waiting)
            && InDueOrder(s.fills.served, s.now)
            && (forall i :: 0 <= i < |s.fills.waiting| ==> s.fills.waiting[i].due > s.now)
  {
    hide LegOk, Run, ValidRun;
    InitialPunctual();
    RunPunctual(INITIAL, inputs, latency);
    LegMeans(Run(INITIAL, inputs, latency).fills, Run(INITIAL, inputs, latency).now);
  }

  /** Every accepted order is matched, still on its way or dropped in flight,
      exactly once; over the whole run orders are matched in order of their
      scheduled times, ties in the order they were submitted; and after every
      call those that are still on their way are exactly those that are not due:
      none is matched before its time or left behind. */
  lemma {:induction false} MatchesOfRun(inputs: seq<Input>, latency: Latency)
    requires ValidRun(INITIAL, inputs, latency)
    ensures var s := Run(INITIAL, inputs, latency);
            && AcceptedIn(s.log) == Items(s.submits.pushed)
            && multiset(s.submits.pushed)
               == multiset(ServedEntries(s.submits.served)) + multiset(s.submits.waiting) + multiset(s.submits.dropped)
            && InDueOrder(s.submits.served, s.now)
            && (forall i :: 0 <= i < |s.submits.waiting| ==> s.submits.waiting[i].due > s.now)
  {
    hide LegOk, Run, ValidRun;
    InitialPunctual();
    RunPunctual(INITIAL, inputs, latency);
    LegMeans(Run(INITIAL, inputs, latency).submits, Run(INITIAL, inputs, latency).now);
  }

  /** The recorded match time of each order is the engine's clock when it is
      matched. */
  lemma {:induction false} MatchClock(s: State, ready: seq<Timed<Order>>, k: nat)
    requires InOrder(ready) && k < |ready|
    ensures MatchAll(s, ready[..k + 1]).0.now == Served(ready, s.now)[k].at
  {
    ServedShape(ready, s.now);
    var first := ready[..k + 1];
    forall i, j | 0 <= i < j < |first| ensures Before(first[i], first[j]) {
      assert Before(ready[i], ready[j]);
    }
    ClockAfter(s, first);
  }

  lemma {:induction false} ClockAfter(s: State, ready: seq<Timed<Order>>)
    requires ready != [] && forall i, j :: 0 <= i < j < |ready| ==> Before(ready[i], ready[j])
    ensures MatchAll(s, ready).0.now == Later(s.now, ready[|ready| - 1].due)
    decreases |ready|
  {
    hide Match;
    var s1 := s.(now := Later(s.now, ready[0].due));
    MatchReports(s1, ready[0].item);
    if |ready| > 1 {
      var rest := ready[1..];
      forall i, j | 0 <= i < j < |rest| ensures Before(rest[i], rest[j]) {
        assert Before(ready[i + 1], ready[j + 1]);
      }
      ClockAfter(Match(s1, ready[0].item).0, rest);
      assert Before(ready[0], ready[|ready| - 1]);
    }
  }

  /** Only a cancel takes an order out of flight. */
  lemma {:induction false} OnlyCancelDrops(s: State, input: Input, latency: Latency)
    requires !input.CancelIn?
    ensures Step(s, input, latency).submits.dropped == s.submits.dropped
  {
    match input
    case SnapshotIn(book) =>
      DrainSubmitsDrops(s, book.ts, latency);
      SnapshotLegs(DrainSubmits(s, book.ts, latency), book);
      var (s1, reports) := TakeSnapshot(DrainSubmits(s, book.ts, latency), book);
      ScheduleOnlyFills(s1, reports, latency);
    case TradeIn(t) =>
      DrainSubmitsDrops(s, t.ts, latency);
      PrintLegs(DrainSubmits(s, t.ts, latency), t);
      var (s1, reports) := TakePrint(DrainSubmits(s, t.ts, latency), t);
      ScheduleOnlyFills(s1, reports, latency);
    case SubmitIn(order) =>
      DrainSubmitsDrops(Accept(s, Stamped(s, order), latency), s.now, latency);
  }

  lemma {:induction false} DrainSubmitsDrops(s: State, upto: nat, latency: Latency)
    ensures DrainSubmits(s, upto, latency).submits.dropped == s.submits.dropped
  {
    var s0 := s.(submits := Serve(s.submits, upto, s.now));
    MatchAllLegs(s0, Ready(s.submits, upto));
    var (s1, reports) := MatchAll(s0, Ready(s.submits, upto));
    ScheduleOnlyFills(s1, reports, latency);
  }
}
