/** When things are due: every order and every report gets a delay of its own, on
    top of the time at which it was accepted or made. And what a cancel takes
    away. */
module EngineDelays {
  import opened Orders
  import opened SlotQueues
  import opened FillAccounts
  import opened LatencyLegs
  import opened EngineModel
  import opened EngineInvariants
  import opened EngineSteps
  import opened EngineRuns
  import opened EnginePriority

  // --- Delays ---------------------------------------------------------------------------------

  predicate Increasing(draws: seq<nat>, below: nat) {
    && (forall i, j :: 0 <= i < j < |draws| ==> draws[i] < draws[j])
    && forall i :: 0 <= i < |draws| ==> draws[i] < below
  }

  /** The delays drawn so far are those of the orders (`ins`) and of the reports
      (`outs`), each drawn for one of them, in turn: an order is due at its
      acceptance, a report at its fill, plus its own delay. */
  ghost predicate Drawn(s: State, latency: Latency, ins: seq<nat>, outs: seq<nat>) {
    && |ins| == |s.submits.pushed| && |outs| == |s.fills.pushed| && |ins| + |outs| == s.draws
    && Increasing(ins, s.draws) && Increasing(outs, s.draws)
    && (forall i, j :: 0 <= i < |ins| && 0 <= j < |outs| ==> ins[i] != outs[j])
    && (forall i :: 0 <= i < |ins| ==>
          s.submits.pushed[i].due == s.submits.pushed[i].item.submittedTs + latency(ins[i]))
    && (forall i :: 0 <= i < |outs| ==> s.fills.pushed[i].due == s.fills.pushed[i].item.ts + latency(outs[i]))
  }

  ghost predicate AllDrawn(s: State, latency: Latency) {
    exists ins, outs :: Drawn(s, latency, ins, outs)
  }

  lemma {:induction false} AcceptDrawn(s: State, o: Order, latency: Latency)
    requires AllDrawn(s, latency) && o.submittedTs == s.now
    ensures AllDrawn(Accept(s, o, latency), latency)
  {
    var ins, outs :| Drawn(s, latency, ins, outs);
    assert Drawn(Accept(s, o, latency), latency, ins + [s.draws], outs);
  }

  lemma {:induction false} ScheduleDrawn(s: State, reports: seq<Report>, latency: Latency)
    requires AllDrawn(s, latency)
    ensures AllDrawn(Schedule(s, reports, latency), latency)
    decreases |reports|
  {
    if reports != [] {
      var s1 := s.(fills := Push(s.fills, reports[0], reports[0].ts + latency(s.draws)), draws := s.draws + 1);
      assert AllDrawn(s1, latency) by {
        var ins, outs :| Drawn(s, latency, ins, outs);
        assert Drawn(s1, latency, ins, outs + [s.draws]);
      }
      ScheduleDrawn(s1, reports[1..], latency);
    }
  }

  lemma {:induction false} SameDrawn(s: State, s': State, latency: Latency)
    requires AllDrawn(s, latency) && s'.draws == s.draws
    requires s'.submits.pushed == s.submits.pushed && s'.fills.pushed == s.fills.pushed
    ensures AllDrawn(s', latency)
  {
    var ins, outs :| Drawn(s, latency, ins, outs);
    assert Drawn(s', latency, ins, outs);
  }

  lemma {:induction false} DrainDrawn(s: State, upto: nat, latency: Latency)
    requires AllDrawn(s, latency)
    ensures AllDrawn(DrainSubmits(s, upto, latency), latency)
  {
    hide AllDrawn, MatchAll, Schedule, Ready, StableSort, DueCount, Served;
    var s0 := s.(submits := Serve(s.submits, upto, s.now));
    var (s1, reports) := MatchAll(s0, Ready(s.submits, upto));
    MatchAllLegs(s0, Ready(s.submits, upto));
    SameDrawn(s, s1, latency);
    ScheduleDrawn(s1, reports, latency);
  }

  lemma {:induction false} EventDrawn(s: State, reports: seq<Report>, upto: nat, latency: Latency)
    requires AllDrawn(s, latency)
    ensures AllDrawn(DrainFills(Schedule(s, reports, latency), upto), latency)
  {
    hide AllDrawn, Schedule, StableSort, DueCount, Served;
    ScheduleDrawn(s, reports, latency);
    var s1 := Schedule(s, reports, latency);
    SameDrawn(s1, DrainFills(s1, upto), latency);
  }

  lemma {:induction false} StepDrawn(s: State, input: Input, latency: Latency)
    requires AllDrawn(s, latency)
    ensures AllDrawn(Step(s, input, latency), latency)
  {
    hide AllDrawn, DrainSubmits, TakeSnapshot, TakePrint, Schedule, StableSort, DueCount, Served, Cancel;
    match input
    case SnapshotIn(book) =>
      DrainDrawn(s, book.ts, latency);
      var s0 := DrainSubmits(s, book.ts, latency);
      var (s1, reports) := TakeSnapshot(s0, book);
      SnapshotLegs(s0, book);
      SameDrawn(s0, s1, latency);
      EventDrawn(s1, reports, book.ts, latency);
    case TradeIn(t) =>
      DrainDrawn(s, t.ts, latency);
      var s0 := DrainSubmits(s, t.ts, latency);
      var (s1, reports) := TakePrint(s0, t);
      PrintLegs(s0, t);
      SameDrawn(s0, s1, latency);
      EventDrawn(s1, reports, t.ts, latency);
    case SubmitIn(order) =>
      if !Refused(s, order) {
        var s1 := Accept(s, Stamped(s, order), latency);
        AcceptDrawn(s, Stamped(s, order), latency);
        DrainDrawn(s1, s.now, latency);
        var s2 := DrainSubmits(s1, s.now, latency);
        SameDrawn(s2, DrainFills(s2, s2.now), latency);
      }
    case CancelIn(exchange, symbol, id) =>
      CancelDraws(s, exchange, symbol, id);
      SameDrawn(s, Cancel(s, exchange, symbol, id).0, latency);
  }

  lemma {:induction false} CancelDraws(s: State, exchange: string, symbol: string, id: nat)
    ensures var s' := Cancel(s, exchange, symbol, id).0;
            s'.draws == s.draws && s'.submits.pushed == s.submits.pushed && s'.fills.pushed == s.fills.pushed
  {
    hide IndexOfSubmit, IndexOfId, WithoutOwner;
  }

  lemma {:induction false} DrawnFrom(s: State, inputs: seq<Input>, latency: Latency)
    requires AllDrawn(s, latency)
    ensures AllDrawn(Run(s, inputs, latency), latency)
    decreases |inputs|
  {
    hide AllDrawn, Step;
    if inputs != [] {
      StepDrawn(s, inputs[0], latency);
      DrawnFrom(Step(s, inputs[0], latency), inputs[1..], latency);
    }
  }

  /** Over every run: as many delays are drawn as orders are accepted and reports
      made; each order is due at its acceptance plus a delay of its own, each
      report at its fill plus a delay of its own. */
  lemma {:induction false} DelaysOfRun(inputs: seq<Input>, latency: Latency)
    ensures exists ins, outs :: Drawn(Run(INITIAL, inputs, latency), latency, ins, outs)
  {
    hide Run;
    assert Drawn(INITIAL, latency, [], []);
    DrawnFrom(INITIAL, inputs, latency);
  }

  /** The delay of an accepted order is the next one drawn. */
  lemma {:induction false} SubmitDue(s: State, o: Order, latency: Latency)
    requires !Refused(s, o)
    ensures var pushed := Submit(s, o, latency).submits.pushed;
            && |pushed| == |s.submits.pushed| + 1
            && pushed[|s.submits.pushed|].item == o.(submittedTs := s.now)
            && pushed[|s.submits.pushed|].due == s.now + latency(s.draws)
  {
    hide MatchAll, Schedule, Ready, StableSort, DueCount, Served;
    var s1 := Accept(s, Stamped(s, o), latency);
    var s2 := s1.(submits := Serve(s1.submits, s.now, s.now));
    MatchAllLegs(s2, Ready(s1.submits, s.now));
    var m := MatchAll(s2, Ready(s1.submits, s.now));
    ScheduleOnlyFills(m.0, m.1, latency);
  }

  // --- Cancels ----------------------------------------------------------------------------------

  /** `after` is `before` without the entry at `k`. */
  predicate Without<T(==)>(before: seq<T>, after: seq<T>, k: nat) {
    k < |before| && after == before[..k] + before[k + 1..]
  }

  lemma {:induction false} WithoutAbsent(q: seq<Slot>, id: nat)
    requires !Owns(q, id)
    ensures WithoutOwner(q, id) == q
  {
    if q != [] {
      OwnsCons(q, id);
      WithoutAbsent(q[1..], id);
    }
  }

  lemma {:induction false} WithoutOne(q: seq<Slot>, id: nat, k: nat)
    requires OwnersDistinct(q) && k < |q| && q[k].owner == Some(id)
    ensures Without(q, WithoutOwner(q, id), k)
  {
    hide OwnersDistinct, Owns, Without;
    OwnsTail(q, id);
    if k == 0 {
      WithoutAbsent(q[1..], id);
      WithoutFirst(q);
    } else {
      OwnsIndex(q[1..], k - 1, id);
      WithoutOne(q[1..], id, k - 1);
      WithoutCons(q, WithoutOwner(q[1..], id), k);
    }
  }

  lemma {:induction false} OwnsIndex(q: seq<Slot>, k: nat, id: nat)
    requires k < |q| && q[k].owner == Some(id)
    ensures Owns(q, id)
  {
  }

  lemma {:induction false} WithoutFirst(q: seq<Slot>)
    requires q != []
    ensures Without(q, q[1..], 0)
  {
    assert q[..0] + q[1..] == q[1..];
  }

  lemma {:induction false} WithoutCons(q: seq<Slot>, rest: seq<Slot>, k: nat)
    requires 0 < k < |q| && Without(q[1..], rest, k - 1)
    ensures Without(q, [q[0]] + rest, k)
  {
    assert q[..k] == [q[0]] + q[1..][..k - 1] && q[1..][k..] == q[k + 1..];
  }

  /** An order of this book has been taken out, with its slot if it had one;
      nothing else has changed. */
  ghost predicate TakenOut(s: State, after: State, key: string, id: nat) {
    exists i :: 0 <= i < |OrdersAt(s, key)| && OrdersAt(s, key)[i].id == id
      && Without(OrdersAt(s, key), OrdersAt(after, key), i)
      && (forall other: string :: other != key ==> OrdersAt(after, other) == OrdersAt(s, other))
      && SlotTakenOut(s, after, key, OrdersAt(s, key)[i])
      && after.submits == s.submits
  }

  ghost predicate SlotTakenOut(s: State, after: State, key: string, x: Order) {
    var level := Level(key, x.side, x.price);
    && (if x.seeded then
          exists k :: 0 <= k < |QueueAt(s, level)| && QueueAt(s, level)[k] == Slot(Remaining(x), Some(x.id))
            && Without(QueueAt(s, level), QueueAt(after, level), k)
        else QueueAt(after, level) == QueueAt(s, level))
    && forall other: Level :: other != level ==> QueueAt(after, other) == QueueAt(s, other)
  }

  /** An order on its way to this book has been taken out; nothing else has
      changed. */
  predicate Recalled(s: State, after: State, exchange: string, symbol: string, id: nat) {
    exists j :: 0 <= j < |s.submits.waiting| && Sought(s.submits.waiting[j].item, exchange, symbol, id)
      && Without(s.submits.waiting, after.submits.waiting, j)
      && after.pending == s.pending && after.queues == s.queues
  }

  predicate Sought(o: Order, exchange: string, symbol: string, id: nat) {
    o.exchange == exchange && o.symbol == symbol && o.id == id
  }

  lemma {:induction false} SubmitSought(waiting: seq<Timed<Order>>, exchange: string, symbol: string, id: nat)
    ensures var j := IndexOfSubmit(waiting, exchange, symbol, id);
            if j < |waiting| then Sought(waiting[j].item, exchange, symbol, id)
            else forall i :: 0 <= i < |waiting| ==> !Sought(waiting[i].item, exchange, symbol, id)
  {
    if waiting != [] && !Sought(waiting[0].item, exchange, symbol, id) {
      SubmitSought(waiting[1..], exchange, symbol, id);
      forall i | 1 <= i < |waiting| ensures waiting[i] == waiting[1..][i - 1] {}
    }
  }

  /** What a cancel does, in any reachable state. It takes out the order that rests
      in the book under that id, or else the one that is on its way there; if there
      is neither it changes nothing and says so. */
  lemma {:induction false} CancelTakesOut(s: State, exchange: string, symbol: string, id: nat)
    requires Sound(s)
    ensures var key, (after, found) := Key(exchange, symbol), Cancel(s, exchange, symbol, id);
            && after.books == s.books && after.fills == s.fills && after.now == s.now && after.draws == s.draws
            && after.log == (if found then s.log + [Withdrawn(id)] else s.log)
            && if exists o :: o in OrdersAt(s, key) && o.id == id then found && TakenOut(s, after, key, id)
               else if exists e :: e in s.submits.waiting && Sought(e.item, exchange, symbol, id) then
                 found && Recalled(s, after, exchange, symbol, id)
               else !found && after == s
  {
    hide Inv, IndexOfSubmit, IndexOfId, WithoutOwner, Without, TakenOut, Recalled, Sought;
    var key := Key(exchange, symbol);
    var orders, waiting := OrdersAt(s, key), s.submits.waiting;
    var i, j := IndexOfId(orders, id), IndexOfSubmit(waiting, exchange, symbol, id);
    SubmitSought(waiting, exchange, symbol, id);
    if i < |orders| {
      assert orders[i] in orders;
      RestingTakenOut(s, exchange, symbol, id);
    } else {
      forall o | o in orders ensures o.id != id {
        var k :| 0 <= k < |orders| && orders[k] == o;
      }
      if j < |waiting| {
        assert waiting[j] in waiting;
        FlyingRecalled(s, exchange, symbol, id);
      } else {
        forall e | e in waiting ensures !Sought(e.item, exchange, symbol, id) {
          var k :| 0 <= k < |waiting| && waiting[k] == e;
        }
      }
    }
  }

  /** What a cancel makes of the orders and queues when it finds a resting order. */
  lemma {:induction false} RestingCancelled(s: State, exchange: string, symbol: string, id: nat)
    requires IndexOfId(OrdersAt(s, Key(exchange, symbol)), id) < |OrdersAt(s, Key(exchange, symbol))|
    ensures var key, after := Key(exchange, symbol), Cancel(s, exchange, symbol, id).0;
            var orders := OrdersAt(s, key);
            var i := IndexOfId(orders, id);
            var level := Level(key, orders[i].side, orders[i].price);
            && (forall other: string ::
                  OrdersAt(after, other) == if other == key then orders[..i] + orders[i + 1..] else OrdersAt(s, other))
            && (forall other: Level ::
                  QueueAt(after, other)
                  == if other == level && orders[i].seeded then WithoutOwner(QueueAt(s, other), id)
                     else QueueAt(s, other))
            && after.submits == s.submits
  {
    hide IndexOfSubmit, IndexOfId;
  }

  lemma {:induction false} SlotGone(s: State, after: State, key: string, x: Order, i: nat)
    requires Sound(s) && i < |OrdersAt(s, key)| && OrdersAt(s, key)[i] == x
    requires forall other: Level ::
               QueueAt(after, other)
               == if other == Level(key, x.side, x.price) && x.seeded then WithoutOwner(QueueAt(s, other), x.id)
                  else QueueAt(s, other)
    ensures SlotTakenOut(s, after, key, x)
  {
    hide Inv, WithoutOwner, Without, OwnersDistinct, QueueAt, OrdersAt;
    if x.seeded {
      var level := Level(key, x.side, x.price);
      var q := QueueAt(s, level);
      OrderHasSlot(s, key, i);
      var k :| 0 <= k < |q| && q[k] == Slot(Remaining(x), Some(x.id));
      OwnsIndex(q, k, x.id);
      assert AreOwnersAt(s, level, {x.id});
      OwnersNotInFlight(s, level, {x.id});
      WithoutOne(q, x.id, k);
    }
  }

  lemma {:induction false} RestingTakenOut(s: State, exchange: string, symbol: string, id: nat)
    requires Sound(s) && IndexOfId(OrdersAt(s, Key(exchange, symbol)), id) < |OrdersAt(s, Key(exchange, symbol))|
    ensures TakenOut(s, Cancel(s, exchange, symbol, id).0, Key(exchange, symbol), id)
  {
    hide Inv, IndexOfId, WithoutOwner, Cancel, QueueAt, OrdersAt, SlotTakenOut;
    var key := Key(exchange, symbol);
    var i := IndexOfId(OrdersAt(s, key), id);
    RestingCancelled(s, exchange, symbol, id);
    SlotGone(s, Cancel(s, exchange, symbol, id).0, key, OrdersAt(s, key)[i], i);
  }

  lemma {:induction false} FlyingRecalled(s: State, exchange: string, symbol: string, id: nat)
    requires IndexOfId(OrdersAt(s, Key(exchange, symbol)), id) == |OrdersAt(s, Key(exchange, symbol))|
    requires IndexOfSubmit(s.submits.waiting, exchange, symbol, id) < |s.submits.waiting|
    ensures Recalled(s, Cancel(s, exchange, symbol, id).0, exchange, symbol, id)
  {
    hide IndexOfSubmit, IndexOfId, Sought;
    SubmitSought(s.submits.waiting, exchange, symbol, id);
  }
}
