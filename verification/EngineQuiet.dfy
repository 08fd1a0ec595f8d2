/** The engine without a latency model: every call finishes its own business.
    Nothing is left waiting, and what a call hands out is exactly what it
    filled. */
module EngineQuiet {
  import opened Orders
  import opened FillAccounts
  import opened BookWalk
  import opened PrintMatching
  import opened LatencyLegs
  import opened EngineModel
  import opened EngineSteps
  import opened EngineRuns
  import opened EngineSchedule

  /** Between calls nothing waits on either leg. */
  predicate Quiet(s: State) {
    s.submits.waiting == [] && s.fills.waiting == []
  }

  predicate AllDueAt<T>(q: seq<Timed<T>>, due: nat) {
    forall i :: 0 <= i < |q| ==> q[i].due == due
  }

  /** Entries that are due together are served as they stand. */
  lemma {:induction false} SortTogether<T>(q: seq<Timed<T>>, due: nat)
    requires AllDueAt(q, due)
    ensures StableSort(q) == q && DueCount(q, due) == |q|
  {
    if q != [] {
      SortTogether(q[1..], due);
      assert q == [q[0]] + q[1..];
    }
  }

  lemma {:induction false} ServeTogether<T>(leg: Leg<T>, due: nat, clock: nat)
    requires AllDueAt(leg.waiting, due)
    ensures Ready(leg, due) == leg.waiting && Serve(leg, due, clock).waiting == []
  {
    SortTogether(leg.waiting, due);
    assert leg.waiting[..|leg.waiting|] == leg.waiting;
  }

  lemma {:induction false} ServeNothing<T>(leg: Leg<T>, upto: nat, clock: nat)
    requires leg.waiting == []
    ensures Ready(leg, upto) == [] && Serve(leg, upto, clock).waiting == []
  {
  }

  /** Without latency a report is due the moment it is made. */
  lemma {:induction false} ScheduleNow(s: State, reports: seq<Report>, now: nat)
    requires StampedAt(reports, now) && AllDueAt(s.fills.waiting, now)
    ensures var waiting := Schedule(s, reports, NO_LATENCY).fills.waiting;
            AllDueAt(waiting, now) && Items(waiting) == Items(s.fills.waiting) + reports
    decreases |reports|
  {
    if reports == [] {
      assert Items(s.fills.waiting) + [] == Items(s.fills.waiting);
    } else {
      var e := Timed(reports[0], reports[0].ts + NO_LATENCY(s.draws), |s.fills.pushed|);
      var s1 := s.(fills := Push(s.fills, reports[0], e.due), draws := s.draws + 1);
      ItemsAppend(s.fills.waiting, [e]);
      assert Items([e]) == [reports[0]];
      forall i | 0 <= i < |reports[1..]| ensures reports[1..][i].ts == now {
        assert reports[1..][i] == reports[i + 1];
      }
      ScheduleNow(s1, reports[1..], now);
      assert Items(s.fills.waiting) + reports == Items(s1.fills.waiting) + reports[1..];
    }
  }

  /** A batch of reports made now is handed out now, in the order it was made. */
  lemma {:induction false} HandOutNow(before: State, s: State, reports: seq<Report>, now: nat)
    requires StampedAt(reports, now) && s.fills.waiting == [] && s.submits.waiting == []
    requires s.fills.served == before.fills.served
    ensures var s' := DrainFills(Schedule(s, reports, NO_LATENCY), now);
            && Quiet(s') && s'.log == s.log && NewlyDelivered(before, s') == reports
            && s' == s.(fills := s'.fills, draws := s'.draws)
  {
    hide Schedule, Serve, Ready, Items, NewlyDelivered;
    var s1 := Schedule(s, reports, NO_LATENCY);
    NoItems();
    ScheduleNow(s, reports, now);
    assert [] + reports == reports;
    ScheduleOnlyFills(s, reports, NO_LATENCY);
    ScheduleServes(s, reports, NO_LATENCY);
    HandedOut(before, s1, now);
    ServeTogether(s1.fills, now, now);
  }

  lemma {:induction false} NoItems()
    ensures Items<Report>([]) == []
  {
  }

  lemma {:induction false} QuietDrain(s: State, upto: nat)
    requires Quiet(s)
    ensures var s' := DrainSubmits(s, upto, NO_LATENCY);
            s' == s.(submits := s'.submits) && s'.submits.waiting == []
  {
    ServeNothing(s.submits, upto, s.now);
  }

  lemma {:induction false} SnapshotLog(s: State, book: Book)
    ensures var (s', reports) := TakeSnapshot(s, book);
            s'.log == s.log + Entries(reports) && StampedAt(reports, book.ts)
  {
    hide ReconcileFrom, Backstop, StampedAt;
    var key := Key(book.exchange, book.symbol);
    ReconcileLegs(s.(now := book.ts), key, book, 0);
    var s1 := ReconcileFrom(s.(now := book.ts), key, book, 0);
    assert s.log + [] == s.log;
    SnapshotReports(s, book);
  }

  lemma {:induction false} PrintLog(s: State, t: Trade)
    ensures var (s', reports) := TakePrint(s, t);
            s'.log == s.log + Entries(reports) && StampedAt(reports, t.ts)
  {
    hide Consume, StampedAt;
    assert s.log + [] == s.log;
    PrintReportsLogged(s, t);
  }

  lemma {:induction false} MatchLog(s: State, o: Order)
    ensures Match(s, o).0.log == s.log + Entries(Match(s, o).1)
  {
    hide Cross;
    assert s.log + [] == s.log;
  }

  /** `s` and what was handed out are the outcome of an event or a match. */
  predicate Outcome(s: State, reports: seq<Report>, taken: (State, seq<Report>)) {
    s == taken.0.(fills := s.fills, draws := s.draws) && reports == taken.1
  }

  /** A snapshot hands out exactly what it filled. */
  lemma {:induction false} QuietSnapshot(s: State, book: Book)
    requires Quiet(s)
    ensures var s' := OnSnapshot(s, book, NO_LATENCY);
            && Quiet(s') && s'.log == s.log + Entries(NewlyDelivered(s, s'))
            && Outcome(s', NewlyDelivered(s, s'), TakeSnapshot(s.(submits := s'.submits), book))
  {
    hide DrainSubmits, TakeSnapshot, Schedule, Serve, StampedAt, NewlyDelivered;
    QuietDrain(s, book.ts);
    var s0 := DrainSubmits(s, book.ts, NO_LATENCY);
    SnapshotLegs(s0, book);
    SnapshotLog(s0, book);
    var (s1, reports) := TakeSnapshot(s0, book);
    HandOutNow(s, s1, reports, book.ts);
  }

  /** So does a print. */
  lemma {:induction false} QuietTrade(s: State, t: Trade)
    requires Quiet(s)
    ensures var s' := OnTrade(s, t, NO_LATENCY);
            && Quiet(s') && s'.log == s.log + Entries(NewlyDelivered(s, s'))
            && Outcome(s', NewlyDelivered(s, s'), TakePrint(s.(submits := s'.submits), t))
  {
    hide DrainSubmits, TakePrint, Schedule, Serve, StampedAt, NewlyDelivered;
    QuietDrain(s, t.ts);
    var s0 := DrainSubmits(s, t.ts, NO_LATENCY);
    PrintLegs(s0, t);
    PrintLog(s0, t);
    var (s1, reports) := TakePrint(s0, t);
    HandOutNow(s, s1, reports, t.ts);
  }

  /** The state in which an accepted order is matched. */
  function Arrived(s: State, order: Order): State {
    var s1 := Accept(s, Stamped(s, order), NO_LATENCY);
    s1.(submits := Serve(s1.submits, s.now, s.now))
  }

  /** An accepted order is matched at once, and what that fills is handed out. */
  lemma {:induction false} QuietSubmit(s: State, order: Order)
    requires Quiet(s)
    ensures var s' := Submit(s, order, NO_LATENCY);
            Quiet(s')
            && if Refused(s, order) then s' == s && NewlyDelivered(s, s') == []
               else s'.log == s.log + [Accepted(Stamped(s, order))] + Entries(NewlyDelivered(s, s'))
                    && Outcome(s', NewlyDelivered(s, s'), Match(Arrived(s, order), Stamped(s, order)))
  {
    hide Match, Schedule, Serve, Ready, StampedAt, NewlyDelivered, StableSort;
    var o := Stamped(s, order);
    if Refused(s, order) {
      NothingHandedOut(s);
    } else {
      var s1 := Accept(s, o, NO_LATENCY);
      var e := s1.submits.waiting[0];
      assert s1.submits.waiting == [e] && e.due == s.now;
      ServeTogether(s1.submits, s.now, s.now);
      var s2 := s1.(submits := Serve(s1.submits, s.now, s.now));
      MatchOne(s2, e);
      MatchReports(s2, o);
      MatchLog(s2, o);
      var (s3, reports) := Match(s2, o);
      ScheduleOnlyFills(s3, reports, NO_LATENCY);
      HandOutNow(s, s3, reports, s.now);
    }
  }

  lemma {:induction false} MatchOne(s: State, e: Timed<Order>)
    requires e.due == s.now
    ensures MatchAll(s, [e]) == Match(s, e.item)
  {
    hide Match;
    var m := Match(s, e.item);
    assert s.(now := Later(s.now, e.due)) == s;
    assert [e][1..] == [] && MatchAll(m.0, []) == (m.0, []);
    assert m.1 + [] == m.1;
  }

  lemma {:induction false} QuietCancel(s: State, exchange: string, symbol: string, id: nat)
    requires Quiet(s)
    ensures var (s', found) := Cancel(s, exchange, symbol, id);
            Quiet(s') && s'.log == (if found then s.log + [Withdrawn(id)] else s.log)
            && (found <==> id in Ids(OrdersAt(s, Key(exchange, symbol))))
            && (!found ==> s' == s)
  {
    IndexFinds(OrdersAt(s, Key(exchange, symbol)), id);
  }

  lemma {:induction false} IndexFinds(orders: seq<Order>, id: nat)
    ensures IndexOfId(orders, id) < |orders| <==> id in Ids(orders)
  {
    if orders != [] && orders[0].id != id {
      IndexFinds(orders[1..], id);
      assert Ids(orders) == {orders[0].id} + Ids(orders[1..]) by {
        assert orders == [orders[0]] + orders[1..];
      }
    } else if orders != [] {
      assert orders[0] in orders;
    }
  }
}
