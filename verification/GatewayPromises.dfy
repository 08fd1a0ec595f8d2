/** What the coupling of gateway and engine means for the strategy that trades
    through them. */
module GatewayPromises {
  import opened Orders
  import opened FillAccounts
  import opened EngineModel
  import opened EngineInvariants
  import opened EngineSteps
  import opened EngineRuns
  import opened EngineSchedule
  import opened EngineQuiet
  import opened GatewayModel
  import opened GatewayRuns

  /** The order rests in its book, on the terms the gateway remembers. */
  predicate RestsAs(s: State, id: nat, lo: Live, rounded: nat) {
    var orders := OrdersAt(s, Key(VenueName(lo.venue), lo.symbol));
    exists i :: 0 <= i < |orders|
      && orders[i].id == id && orders[i].side == lo.side && orders[i].price == lo.price
      && orders[i].quantity == Units(lo.quantity)
      && Agrees(lo.cum, orders[i].filled, rounded)
  }

  /** The live map mirrors the engine. The ids that rest in the engine are
      exactly the live ids, but for what a market order could not fill; and
      each rests on the terms the gateway remembers. */
  lemma {:induction false} LiveIsResting(g: Gate, id: nat)
    requires GateOk(g)
    ensures id in g.live ==> Origin(g.engine.log, id).Some?
    ensures (exists key: string :: id in Ids(OrdersAt(g.engine, key)))
            <==> id in g.live && Origin(g.engine.log, id).value.kind != Market
    ensures id in g.live && Origin(g.engine.log, id).value.kind != Market ==>
              RestsAs(g.engine, id, g.live[id], Rounded(Fills(g.engine.log, id)))
    ensures id in g.live && (g.live[id].postOnly || g.live[id].wire == LimitWire) ==>
              Origin(g.engine.log, id).value.kind != Market
  {
    hide Inv, Agrees, Units;
    var s := g.engine;
    assert Mirrored(s.log, g.live, id);
    OpenIsUnfinished(s.log, id);
    HeldWhileOpen(s, id);
    OpenRests(s, id);
    if Open(s.log, id) {
      var key := KeyOf(Origin(s.log, id).value);
      RestingTracked(s, key, id);
      assert key == Key(VenueName(g.live[id].venue), g.live[id].symbol);
    }
  }

  lemma {:induction false} RestingTracked(s: State, key: string, id: nat)
    requires Sound(s) && id in Ids(OrdersAt(s, key))
    ensures exists i :: 0 <= i < |OrdersAt(s, key)| && OrdersAt(s, key)[i].id == id
              && Tracks(s.log, OrdersAt(s, key)[i])
  {
    var orders := OrdersAt(s, key);
    var o :| o in orders && o.id == id;
    var i :| 0 <= i < |orders| && orders[i] == o;
    assert AllTracked(s.log, orders);
  }

  /** Reports of one order over any run: only the last can be final, so nothing
      follows a complete fill or a cancel; the order is live exactly while it
      has been reported on and no final report has come; and the reported fills
      add up to what the gateway counts. */
  lemma {:induction false} LifecycleOfRun(calls: seq<Call>, id: nat)
    requires GateValidRun(GATE_INITIAL, calls)
    ensures var g := GateRun(GATE_INITIAL, calls);
            var h := Of(g.sent, id);
            && (forall i :: 0 <= i < |h| - 1 ==> !Final(h[i]))
            && (id in g.live <==> h != [] && !Final(h[|h| - 1]))
            && (id in g.live ==> FilledSum(h) == g.live[id].cum)
  {
    hide Sound, Mirrors, Of, FilledSum, GateRun, GateValidRun;
    GateInitialOk();
    GateRunKeeps(GATE_INITIAL, calls);
    var g := GateRun(GATE_INITIAL, calls);
    assert Life(Of(g.sent, id), g.live, id);
  }

  /** The reports of a completely filled order, over any run, add up to the
      quantity it was last submitted for, to half a wire unit for every fill that
      was not a whole number of them, and exactly if all were. */
  lemma {:induction false} FilledTotalOfRun(calls: seq<Call>, id: nat)
    requires GateValidRun(GATE_INITIAL, calls) && Finished(Of(GateRun(GATE_INITIAL, calls).sent, id))
    ensures var g := GateRun(GATE_INITIAL, calls);
            var total, fills := FilledSum(Of(g.sent, id)), Fills(g.engine.log, id);
            && Origin(g.engine.log, id).Some?
            && var asked := Scaled(Origin(g.engine.log, id).value.quantity);
               && Origin(g.engine.log, id).value.quantity == Units(asked)
               && 2 * total <= 2 * asked + Rounded(fills) && 2 * asked <= 2 * total + Rounded(fills)
               && ((forall i :: 0 <= i < |fills| ==> Whole(fills[i].lastQty)) ==> total == asked)
  {
    hide Sound, Mirrors, Lives, Of, FilledSum, GateRun, GateValidRun, Finished, Totals, Scaled;
    GateInitialOk();
    GateRunKeeps(GATE_INITIAL, calls);
    var g := GateRun(GATE_INITIAL, calls);
    assert SettledAt(g.engine.log, Of(g.sent, id), id);
    var org, fills := Origin(g.engine.log, id).value, Fills(g.engine.log, id);
    TotalNear(org, fills, FilledSum(Of(g.sent, id)));
    if forall i :: 0 <= i < |fills| ==> Whole(fills[i].lastQty) { NoneRounded(fills); }
  }

  /** Dust is far less than half a wire unit. */
  lemma {:induction false} TotalNear(org: Order, fills: seq<Report>, total: nat)
    requires Totals(org, fills, total)
    ensures var asked := Scaled(org.quantity);
            && org.quantity == Units(asked)
            && 2 * total <= 2 * asked + Rounded(fills) && 2 * asked <= 2 * total + Rounded(fills)
  {
    hide Cum, Rounded, Scaled;
    var asked, cum := Scaled(org.quantity), Cum(org, fills);
    assert Units(asked) * QTY_SCALE == asked as real;
    assert (org.quantity - EPS) * QTY_SCALE <= cum * QTY_SCALE <= org.quantity * QTY_SCALE;
  }

  lemma {:induction false} NoneRounded(fills: seq<Report>)
    requires forall i :: 0 <= i < |fills| ==> Whole(fills[i].lastQty)
    ensures Rounded(fills) == 0
  {
    hide Whole;
    if fills != [] { NoneRounded(fills[..|fills| - 1]); }
  }

  /** Every fill the engine makes reaches the results collector, once and in
      the order it was made: none meets an order the gateway has forgotten. */
  lemma {:induction false} FillsAllBooked(calls: seq<Call>)
    requires GateValidRun(GATE_INITIAL, calls)
    ensures var g := GateRun(GATE_INITIAL, calls);
            g.booked == FilledIn(g.engine.log) && forall r :: r in g.booked ==> r.lastQty > 0.0
  {
    hide Sound, Mirrors, Lives, GateRun, GateValidRun;
    GateInitialOk();
    GateRunKeeps(GATE_INITIAL, calls);
  }

  // --- Acknowledgements ---------------------------------------------------------------------

  function Acks(sent: seq<Exec>, id: nat): nat {
    if sent == [] then 0
    else
      var e := sent[|sent| - 1];
      Acks(sent[..|sent| - 1], id) + if e.id == id && e.status == Acked then 1 else 0
  }

  ghost predicate AckedOnce(sent: seq<Exec>) {
    forall id: nat :: Acks(sent, id) <= 1
  }

  lemma {:induction false} AcksSnoc(sent: seq<Exec>, e: Exec, id: nat)
    ensures Acks(sent + [e], id) == Acks(sent, id) + if e.id == id && e.status == Acked then 1 else 0
  {
    assert (sent + [e])[..|sent|] == sent;
  }

  lemma {:induction false} AcksUnreported(sent: seq<Exec>, id: nat)
    requires Of(sent, id) == []
    ensures Acks(sent, id) == 0
  {
    if sent != [] { AcksUnreported(sent[..|sent| - 1], id); }
  }

  lemma {:induction false} AcksOfFills(before: seq<Exec>, after: seq<Exec>, id: nat)
    requires MoreFills(before, after)
    ensures Acks(after, id) == Acks(before, id)
    decreases |after|
  {
    if |before| < |after| {
      AcksOfFills(before, after[..|after| - 1], id);
    } else {
      assert before == after;
    }
  }

  /** A fill report says how much remains if and only if nothing does: when the
      count after the fill has reached the order's quantity. */
  lemma {:induction false} RemainingRightIff(g: Gate, r: Report)
    requires r.orderId in g.live
    ensures var lo, g' := g.live[r.orderId], Publish(g, r);
            var cum := lo.cum + Scaled(r.lastQty);
            && |g'.sent| == |g.sent| + 1
            && (g'.sent[|g.sent|].remainingQty == Less(lo.quantity, cum) <==> cum >= lo.quantity)
  {
  }

  lemma {:induction false} PublishAllFills(g: Gate, reports: seq<Report>)
    ensures MoreFills(g.sent, PublishAll(g, reports).sent)
    decreases |reports|
  {
    if reports != [] { PublishAllFills(Publish(g, reports[0]), reports[1..]); }
  }

  /** A call adds fills and at most one other report; only a new order is
      acknowledged, with its own id. */
  lemma {:induction false} StepAcks(g: Gate, call: Call, id: nat)
    requires !call.CancelAllCall?
    ensures Acks(GateStep(g, call).sent, id)
         <= Acks(g.sent, id) + if call.NewCall? && call.order.id == id then 1 else 0
  {
    hide Acks, MoreFills, PublishAll, Submit, Cancel, OnSnapshot, OnTrade, NewlyDelivered, Refused;
    match call
    case NewCall(o) =>
      var lo := NewLive(o);
      var order := EngineOrder(o.id, lo, KindOf(o.wire, o.postOnly));
      var g0 := g.(live := if o.id in g.live then g.live else g.live[o.id := lo]);
      PlaceFills(g0, order, id);
      var g1 := Place(g0, order);
      if o.id in g1.live {
        AcksSnoc(g1.sent, StatusReport(o.id, o.venue, o.instrument, Acked, NewLive(o).(cum := g1.live[o.id].cum)), id);
      }
    case CancelCall(k, venue, instrument) =>
      if k in g.live { AcksSnoc(g.sent, StatusReport(k, venue, instrument, Cancelled, g.live[k]), id); }
    case ModifyCall(k, price, quantity) =>
      if k in g.live {
        var lo := g.live[k].(price := price, quantity := quantity);
        var order := EngineOrder(k, lo, if lo.postOnly then PostOnly else Limit);
        var s := Cancel(g.engine, VenueName(lo.venue), lo.symbol, k).0;
        var g0 := g.(engine := s, live := g.live[k := lo]);
        PlaceFills(g0, order, id);
        AcksSnoc(Place(g0, order).sent, StatusReport(k, lo.venue, lo.instrument, Cancelled, lo), id);
      }
    case SnapshotCall(book) =>
      var s := OnSnapshot(g.engine, book, NO_LATENCY);
      PublishAllFills(g.(engine := s), NewlyDelivered(g.engine, s));
      AcksOfFills(g.sent, GateStep(g, call).sent, id);
    case TradeCall(t) =>
      var s := OnTrade(g.engine, t, NO_LATENCY);
      PublishAllFills(g.(engine := s), NewlyDelivered(g.engine, s));
      AcksOfFills(g.sent, GateStep(g, call).sent, id);
  }

  lemma {:induction false} PlaceFills(g: Gate, o: Order, id: nat)
    ensures Acks(Place(g, o).sent, id) == Acks(g.sent, id)
  {
    hide Acks, MoreFills, PublishAll, Submit, NewlyDelivered;
    var s := Submit(g.engine, o, NO_LATENCY);
    PublishAllFills(g.(engine := s), NewlyDelivered(g.engine, s));
    AcksOfFills(g.sent, Place(g, o).sent, id);
  }

  lemma {:induction false} CancelEachAcks(g: Gate, ids: seq<nat>, venue: Venue, instrument: nat, id: nat)
    ensures Acks(CancelEach(g, ids, venue, instrument).sent, id) <= Acks(g.sent, id)
    decreases |ids|
  {
    hide Acks, SendCancel;
    if ids != [] {
      StepAcks(g, CancelCall(ids[0], venue, instrument), id);
      CancelEachAcks(SendCancel(g, ids[0], venue, instrument), ids[1..], venue, instrument, id);
    }
  }

  /** No order is acknowledged twice. */
  lemma {:induction false} AckedOnceOverRun(g: Gate, calls: seq<Call>)
    requires GateValidRun(g, calls) && AckedOnce(g.sent)
    ensures AckedOnce(GateRun(g, calls).sent)
    decreases |calls|
  {
    hide Acks, GateStep, Of;
    if calls != [] {
      var call := calls[0];
      forall id: nat ensures Acks(GateStep(g, call).sent, id) <= 1 {
        if call.CancelAllCall? {
          CancelAllAcks(g, call, id);
        } else {
          StepAcks(g, call, id);
          if call.NewCall? && call.order.id == id { AcksUnreported(g.sent, id); }
        }
      }
      AckedOnceOverRun(GateStep(g, call), calls[1..]);
    }
  }

  lemma {:induction false} CancelAllAcks(g: Gate, call: Call, id: nat)
    requires call.CancelAllCall?
    ensures Acks(GateStep(g, call).sent, id) <= Acks(g.sent, id)
  {
    CancelEachAcks(g, call.listing, call.venue, call.instrument, id);
  }

  // --- Cancelling everything --------------------------------------------------------------------

  /** What is left of a market order: live, but not resting in the engine. */
  ghost predicate MarketRest(g: Gate, id: nat) {
    id in g.live && forall key: string :: id !in Ids(OrdersAt(g.engine, key))
  }

  lemma {:induction false} MarketRestIff(g: Gate, id: nat)
    requires GateOk(g)
    ensures MarketRest(g, id)
            <==> id in g.live && Origin(g.engine.log, id).Some? && Origin(g.engine.log, id).value.kind == Market
  {
    hide GateOk, Agrees, RestsAs, Units;
    LiveIsResting(g, id);
  }

  /** A cancel ends a live order unless it is what is left of a market order,
      which no cancel can reach. */
  lemma {:induction false} CancelEnds(g: Gate, id: nat, venue: Venue, instrument: nat)
    requires GateOk(g)
    ensures var g' := SendCancel(g, id, venue, instrument);
            && g'.live == (if MarketRest(g, id) then g.live else g.live - {id})
            && (forall k: nat :: k in g'.live ==> (MarketRest(g', k) <==> MarketRest(g, k)))
  {
    hide GateOk, SendCancel, MarketRest;
    var g' := SendCancel(g, id, venue, instrument);
    SendCancelKeeps(g, id, venue, instrument);
    CancelEffect(g, id, venue, instrument);
    MarketRestIff(g, id);
    forall k: nat | k in g'.live ensures MarketRest(g', k) <==> MarketRest(g, k) {
      MarketRestIff(g, k);
      MarketRestIff(g', k);
    }
  }

  lemma {:induction false} CancelEffect(g: Gate, id: nat, venue: Venue, instrument: nat)
    requires GateOk(g)
    ensures var g' := SendCancel(g, id, venue, instrument);
            && g'.live == (if id in g.live && Origin(g.engine.log, id).Some?
                              && Origin(g.engine.log, id).value.kind != Market
                           then g.live - {id} else g.live)
            && (forall k: nat :: k in g'.live ==> Origin(g'.engine.log, k) == Origin(g.engine.log, k))
            && (id in g.live ==> Origin(g.engine.log, id).Some?)
  {
    hide Inv, Cancel, Agrees, Lives, AllKnown;
    if id in g.live {
      LiveIsFound(g, id);
      QuietCancel(g.engine, VenueName(g.live[id].venue), g.live[id].symbol, id);
      var g' := SendCancel(g, id, venue, instrument);
      forall k: nat | k in g'.live ensures Origin(g'.engine.log, k) == Origin(g.engine.log, k) {
        LogSnoc(g.engine.log, Withdrawn(id), k);
      }
    }
  }

  lemma {:induction false} CancelEachEnds(g: Gate, ids: seq<nat>, venue: Venue, instrument: nat)
    requires GateOk(g)
    ensures var g' := CancelEach(g, ids, venue, instrument);
            forall k: nat :: (k in g'.live <==> k in g.live && (k !in ids || MarketRest(g, k)))
              && (k in g'.live ==> g'.live[k] == g.live[k])
    decreases |ids|
  {
    hide GateOk, SendCancel, MarketRest;
    if ids != [] {
      var g1 := SendCancel(g, ids[0], venue, instrument);
      CancelEnds(g, ids[0], venue, instrument);
      SendCancelKeeps(g, ids[0], venue, instrument);
      CancelEachEnds(g1, ids[1..], venue, instrument);
    }
  }

  /** Cancel-all, in whatever order it works through its targets, ends exactly
      the live orders of the instrument that are not left over from a market
      order, and leaves every other order as it was. */
  lemma {:induction false} CancelAllEnds(g: Gate, venue: Venue, instrument: nat, listing: seq<nat>)
    requires GateOk(g) && Lists(listing, Targets(g.live, venue, instrument))
    ensures var g' := GateStep(g, CancelAllCall(venue, instrument, listing));
            forall k: nat ::
              && (k in g'.live <==>
                  k in g.live && (g.live[k].venue == venue && g.live[k].instrument == instrument ==> MarketRest(g, k)))
              && (k in g'.live ==> g'.live[k] == g.live[k])
  {
    hide GateOk, MarketRest;
    CancelEachEnds(g, listing, venue, instrument);
  }

  // --- Modifying below what is filled -----------------------------------------------------------------

  lemma {:induction false} NothingToMatch(s: State, o: Order)
    requires Remaining(o) <= EPS
    ensures Match(s, o).1 == []
  {
  }

  /** Submitting what is already filled: the engine accepts and forgets it. */
  lemma {:induction false} SubmitFinished(s: State, order: Order)
    requires Quiet(s) && !Refused(s, order) && Remaining(order) <= EPS
    ensures var s' := Submit(s, order, NO_LATENCY);
            NewlyDelivered(s, s') == [] && s'.log == s.log + [Accepted(Stamped(s, order))]
  {
    hide Submit, Match, NewlyDelivered, Refused;
    QuietSubmit(s, order);
    NothingToMatch(Arrived(s, order), Stamped(s, order));
    assert s.log + [Accepted(Stamped(s, order))] + [] == s.log + [Accepted(Stamped(s, order))];
  }

  /** A modify to a quantity that is already filled breaks the mirror: the order
      stays live in the gateway with nothing open in the engine. */
  lemma {:induction false} ModifyStrands(g: Gate, id: nat, price: int, quantity: nat)
    requires GateOk(g) && id in g.live && quantity <= g.live[id].cum
    requires !ModifyRefused(g, id, price, quantity)
    ensures var g' := SendModify(g, id, price, quantity);
            id in g'.live && !Unfinished(g'.engine.log, id) && !GateOk(g')
  {
    hide Inv, Cancel, Submit, Refused, NewlyDelivered, Units;
    var lo := g.live[id].(price := price, quantity := quantity);
    var order := EngineOrder(id, lo, if lo.postOnly then PostOnly else Limit);
    CancelledMirrors(g, id, lo);
    var s := Cancel(g.engine, VenueName(lo.venue), lo.symbol, id).0;
    UnitsPositive(quantity, lo.cum);
    SubmitFinished(s, order);
    var g' := SendModify(g, id, price, quantity);
    PublishNothing(g.(engine := Submit(s, order, NO_LATENCY), live := g.live[id := lo]));
    LogSnoc(s.log, Accepted(Stamped(s, order)), id);
    assert !Mirrored(g'.engine.log, g'.live, id);
  }

  /** The first order of a run, modified to a quantity of 0. */
  lemma {:induction false} ModifyStrandsAtOnce()
    ensures var call := NewCall(NewOrder(7, Okx, 1, Buy, LimitWire, 100, 100000000, false, "BTC"));
            var g := GateStep(GATE_INITIAL, call);
            GateValid(GATE_INITIAL, call) && GateOk(g) && 7 in g.live && !GateOk(SendModify(g, 7, 100, 0))
  {
    hide GateOk, SendModify, ModifyRefused, Place;
    var o := NewOrder(7, Okx, 1, Buy, LimitWire, 100, 100000000, false, "BTC");
    var g := SendNew(GATE_INITIAL, o).0;
    GateInitialOk();
    NewKeeps(GATE_INITIAL, o);
    FirstOrderRests(o);
    LimitNotRefused(g, 7, 100, 0);
    ModifyKeepsIff(g, 7, 100, 0);
  }

  /** Before any book is seen an order is accepted and nothing of it fills. */
  lemma {:induction false} FirstOrderRests(o: NewOrder)
    requires WellFormed(o)
    ensures var g := SendNew(GATE_INITIAL, o).0;
            o.id in g.live && g.live[o.id] == NewLive(o)
  {
    hide Submit, Match, NewlyDelivered;
    var lo := NewLive(o);
    var order := EngineOrder(o.id, lo, KindOf(o.wire, o.postOnly));
    QuietSubmit(INITIAL, order);
    NoBookNoFill(Arrived(INITIAL, order), Stamped(INITIAL, order));
    var s := Submit(INITIAL, order, NO_LATENCY);
    PublishNothing(GATE_INITIAL.(engine := s, live := map[o.id := lo]));
    assert GATE_INITIAL.live[o.id := lo] == map[o.id := lo];
  }

  lemma {:induction false} NoBookNoFill(s: State, o: Order)
    requires KeyOf(o) !in s.books
    ensures Match(s, o).1 == []
  {
  }

  lemma {:induction false} LimitNotRefused(g: Gate, id: nat, price: int, quantity: nat)
    requires id in g.live && !g.live[id].postOnly
    ensures !ModifyRefused(g, id, price, quantity)
  {
    hide Cancel;
  }

  /** A modify of a live order keeps gateway and engine coupled if and only if
      it asks for more than is filled, or the engine refuses it. */
  lemma {:induction false} ModifyKeepsIff(g: Gate, id: nat, price: int, quantity: nat)
    requires GateOk(g) && id in g.live
    ensures GateOk(SendModify(g, id, price, quantity))
            <==> quantity > g.live[id].cum || ModifyRefused(g, id, price, quantity)
  {
    hide GateOk, SendModify, ModifyRefused;
    if ModifyRefused(g, id, price, quantity) {
      RefusedModifyKeeps(g, id, price, quantity);
    } else if quantity > g.live[id].cum {
      ModifyKeeps(g, id, price, quantity);
    } else {
      ModifyStrands(g, id, price, quantity);
    }
  }
}
