/** Gateway, engine and results collector together: what the collector's numbers
    say about the fills the engine made. */
module BacktestRuns {
  import opened Orders
  import opened AverageCost
  import opened MapSums
  import opened ResultsModel
  import opened ResultsRuns
  import Schedule = EngineSchedule
  import Gateway = GatewayModel
  import Runs = GatewayRuns
  import Promises = GatewayPromises

  /** Quote units per tick. */
  const TICK: real := 0.00000001

  /** A report as the collector takes it. */
  function FillOf(r: Report): Fill {
    Fill(r.exchange, r.symbol, r.orderId, r.kind, r.side, r.role, r.lastQty, r.lastPrice as real * TICK, r.ts)
  }

  /** The fills among the events are these reports, in order; snapshots may come
      anywhere between them, or not at all. */
  predicate Feeds(events: seq<Event>, reports: seq<Report>) {
    var fills := FillsOf(events);
    |fills| == |reports| && forall i :: 0 <= i < |fills| ==> fills[i] == FillOf(reports[i])
  }

  // --- The engine's own account of its fills -------------------------------------------------

  function SignedQty(r: Report): real {
    if r.side == Buy then r.lastQty else -r.lastQty
  }

  /** Quantity of one instrument bought less sold. */
  function Net(reports: seq<Report>, key: string): real {
    if reports == [] then 0.0
    else
      var n := |reports| - 1;
      var r := reports[n];
      Net(reports[..n], key) + if Key(r.exchange, r.symbol) == key then SignedQty(r) else 0.0
  }

  /** What the fills gained over their own prices. */
  function Gains(reports: seq<Report>, mids: map<string, real>): real {
    if reports == [] then 0.0
    else
      var n := |reports| - 1;
      var r := reports[n];
      Gains(reports[..n], mids) + SignedQty(r) * (At(mids, Key(r.exchange, r.symbol)) - r.lastPrice as real * TICK)
  }

  /** What the fills at one venue came to, in one role. */
  function TurnoverOf(reports: seq<Report>, exchange: string, role: Role): real {
    if reports == [] then 0.0
    else
      var n := |reports| - 1;
      var r := reports[n];
      TurnoverOf(reports[..n], exchange, role)
      + if r.exchange == exchange && r.role == role then r.lastQty * (r.lastPrice as real * TICK) else 0.0
  }

  /** The charge of every venue that has rates on its taker and maker turnover. */
  function FeesBy(reports: seq<Report>, fees: map<string, Rates>): map<string, real> {
    map v | v in fees :: Charge(TurnoverOf(reports, v, Taker), TurnoverOf(reports, v, Maker), fees[v])
  }

  ghost function FeesOn(reports: seq<Report>, fees: map<string, Rates>): real {
    Sum(FeesBy(reports, fees))
  }

  // --- The collector agrees --------------------------------------------------------------------

  lemma {:induction false} FeedsPrefix(events: seq<Event>, reports: seq<Report>)
    requires Feeds(events, reports) && events != []
    ensures var n, e := |events| - 1, events[|events| - 1];
            if e.TouchEvent? then Feeds(events[..n], reports)
            else reports != [] && Feeds(events[..n], reports[..|reports| - 1])
                 && e.fill == FillOf(reports[|reports| - 1])
  {
  }

  lemma {:induction false} FeedIsProper(events: seq<Event>, reports: seq<Report>)
    requires Feeds(events, reports) && forall r :: r in reports ==> r.lastQty > 0.0
    ensures Proper(events)
  {
    hide FillsOf;
    if events != [] {
      var n := |events| - 1;
      FeedsPrefix(events, reports);
      if events[n].TouchEvent? {
        FeedIsProper(events[..n], reports);
      } else {
        FeedIsProper(events[..n], reports[..|reports| - 1]);
      }
    }
  }

  lemma {:induction false} SameTurnover(events: seq<Event>, reports: seq<Report>, exchange: string, role: Role)
    requires Feeds(events, reports)
    ensures Turnover(events, exchange, role) == TurnoverOf(reports, exchange, role)
  {
    hide Feeds;
    if events == [] {
      NoReports(events, reports);
    } else {
      var n := |events| - 1;
      FeedsPrefix(events, reports);
      if events[n].TouchEvent? {
        SameTurnover(events[..n], reports, exchange, role);
      } else {
        SameTurnover(events[..n], reports[..|reports| - 1], exchange, role);
      }
    }
  }

  lemma {:induction false} SameFees(events: seq<Event>, reports: seq<Report>, fees: map<string, Rates>)
    requires Feeds(events, reports)
    ensures Fees(events, fees) == FeesOn(reports, fees)
  {
    hide Feeds, Turnover, TurnoverOf, Sum;
    forall v: string, role: Role ensures Turnover(events, v, role) == TurnoverOf(reports, v, role) {
      SameTurnover(events, reports, v, role);
    }
    assert VenueFees(events, fees) == FeesBy(reports, fees) by {
      hide Charge;
      forall v | v in fees ensures VenueFees(events, fees)[v] == FeesBy(reports, fees)[v] {}
    }
  }

  /** Quantities and marks are those of the engine's fills. */
  lemma {:induction false} SameSums(events: seq<Event>, reports: seq<Report>, key: string, mids: map<string, real>)
    requires Feeds(events, reports)
    ensures Bought(Deals(events, key)) == Net(reports, key)
    ensures MarkedFills(events, mids) == Gains(reports, mids)
  {
    hide Feeds, At;
    if events == [] {
      NoReports(events, reports);
    } else {
      var n := |events| - 1;
      FeedsPrefix(events, reports);
      if events[n].TouchEvent? {
        SameSums(events[..n], reports, key, mids);
      } else {
        var most := reports[..|reports| - 1];
        SameSums(events[..n], most, key, mids);
        if Concerns(events[n], key) { BoughtSnoc(Deals(events[..n], key), DealOf(events[n].fill)); }
      }
    }
  }

  lemma {:induction false} NoReports(events: seq<Event>, reports: seq<Report>)
    requires Feeds(events, reports) && events == []
    ensures reports == []
  {
  }

  lemma {:induction false} BoughtSnoc(deals: seq<Deal>, d: Deal)
    ensures Bought(deals + [d]) == Bought(deals) + Signed(d)
  {
    assert (deals + [d])[..|deals|] == deals;
  }

  /** From the engine to the results. Over any run of the gateway, a collector
      that is fed what the gateway books, with whatever snapshots in between,
      ends with the equity of the engine's own fills: the starting capital, each
      fill marked to mid, less the fees, plus the deviations; and it holds of
      each instrument what the engine's fills bought less what they sold, as
      long as that was never dust on the way. */
  lemma {:induction false} ResultsOfRun(calls: seq<Gateway.Call>, capital: real, fees: map<string, Rates>,
                                        events: seq<Event>)
    requires Runs.GateValidRun(Gateway.GATE_INITIAL, calls)
    requires Feeds(events, Gateway.GateRun(Gateway.GATE_INITIAL, calls).booked)
    ensures Proper(events)
    ensures var filled := Schedule.FilledIn(Gateway.GateRun(Gateway.GATE_INITIAL, calls).engine.log);
            var b := Collect(EmptyBooks(capital, fees), events);
            && Equity(b) == capital + Gains(filled, b.mids) + Sum(Deviations(events, b.mids)) - FeesOn(filled, fees)
            && forall key: string :: Clear(Deals(events, key)) ==> PositionAt(b, key).net == Net(filled, key)
  {
    hide Collect, Sum, Deviations, Feeds, FeesOn, Fees, Gateway.GateRun, Runs.GateValidRun, Equity, Clear, Deals,
         FillsOf;
    Promises.FillsAllBooked(calls);
    var filled := Gateway.GateRun(Gateway.GATE_INITIAL, calls).booked;
    FeedIsProper(events, filled);
    var b := Collect(EmptyBooks(capital, fees), events);
    EquityOfRun(capital, fees, events);
    SameSums(events, filled, "", b.mids);
    SameFees(events, filled, fees);
    forall key: string | Clear(Deals(events, key)) ensures PositionAt(b, key).net == Net(filled, key) {
      PositionsFollow(EmptyBooks(capital, fees), events, key);
      ClearNoDust(Deals(events, key));
      SameSums(events, filled, key, b.mids);
    }
  }

  /** Nothing but fills is fed. */
  predicate OnlyFills(events: seq<Event>) {
    forall i :: 0 <= i < |events| ==> events[i].FillEvent?
  }

  /** The harness feeds fills and no snapshots. Then nothing is marked to
      market: equity is capital and realized profit less fees, and no markout is
      ever taken. */
  lemma {:induction false} WithoutSnapshots(capital: real, fees: map<string, Rates>, events: seq<Event>)
    requires Proper(events) && OnlyFills(events)
    ensures var b := Collect(EmptyBooks(capital, fees), events);
            && b.mids == map[]
            && Equity(b) == capital + Sum(Realized(b.positions)) - Fees(events, fees)
            && forall i :: 0 <= i < |b.rows| ==> b.rows[i].markouts == UNMARKED
  {
    hide Handle, Sum, Realized, BookDeal, FeeOf, Unrealized, Fees;
    var b0 := EmptyBooks(capital, fees);
    var b := Collect(b0, events);
    CollectKeeps(b0, events);
    NoPaper(b0, events);
    NothingUnrealized(b.positions);
  }

  lemma {:induction false} NoPaper(b0: Books, events: seq<Event>)
    requires Proper(events) && OnlyFills(events) && b0.mids == map[] && b0.rows == []
    ensures var b := Collect(b0, events);
            b.mids == map[] && forall i :: 0 <= i < |b.rows| ==> b.rows[i].markouts == UNMARKED
  {
    hide Handle;
    if events != [] {
      var n := |events| - 1;
      NoPaper(b0, events[..n]);
      var b := Collect(b0, events[..n]);
      FillHandled(b, events[n]);
      MidsStay(b, events[n]);
      forall i | 0 <= i < |b.rows| ensures Handle(b, events[n]).rows[i] == b.rows[i] {
        assert Handle(b, events[n]).rows[..|b.rows|][i] == b.rows[i];
      }
    }
  }

  lemma {:induction false} MidsStay(b: Books, x: Event)
    requires x.FillEvent? && x.fill.qty > 0.0
    ensures Handle(b, x).mids == b.mids
  {
    hide BookDeal, Equity, FeeOf;
    BookDealPositions(b, x.fill);
  }

  lemma {:induction false} NothingUnrealized(positions: map<string, Position>)
    ensures Sum(Unrealized(positions, map[])) == 0.0
  {
    SumZeros(Unrealized(positions, map[]));
  }
}
