/** What the execution reports of a run say, told from the calls and from the
    engine's fills alone. */
module GatewayReports {
  import opened Orders
  import opened EngineModel
  import opened EngineSchedule
  import opened GatewayModel
  import opened GatewayRuns
  import opened GatewayPromises

  // --- The reports of fills -------------------------------------------------------------------

  predicate OfFill(e: Exec) {
    e.status == PartlyFilled || e.status == FullyFilled
  }

  function FillReports(sent: seq<Exec>): seq<Exec> {
    if sent == [] then []
    else
      var n := |sent| - 1;
      FillReports(sent[..n]) + if OfFill(sent[n]) then [sent[n]] else []
  }

  /** The report of a fill: its order and side, the price it filled at, its quantity
      in wire units to the nearest, and whether it completed the order. */
  predicate Tells(e: Exec, r: Report) {
    && e.id == r.orderId && e.side == r.side && e.price == r.lastPrice
    && (r.lastQty >= 0.0 ==> -0.5 <= e.filledQty as real - r.lastQty * 100000000.0 <= 0.5)
    && (e.status == FullyFilled <==> r.full)
    && e.wire == (match r.kind case Market => MarketWire case Limit => LimitWire case PostOnly => LimitWire)
  }

  predicate TellsAll(es: seq<Exec>, reports: seq<Report>) {
    |es| == |reports| && forall i :: 0 <= i < |es| ==> Tells(es[i], reports[i])
  }

  lemma {:induction false} FillReportsSnoc(sent: seq<Exec>, e: Exec)
    ensures FillReports(sent + [e]) == FillReports(sent) + if OfFill(e) then [e] else []
  {
    assert (sent + [e])[..|sent|] == sent;
  }

  lemma {:induction false} FillTells(r: Report, lo: Live)
    ensures var cum := lo.cum + Scaled(r.lastQty);
            var e := FillExec(r, lo.(cum := cum), Scaled(r.lastQty), cum);
            Tells(e, r) && OfFill(e)
  {
    if r.lastQty >= 0.0 { ScaledNearest(r.lastQty); }
  }

  /** What the gateway has reported of fills is what it has booked. */
  predicate InStep(g: Gate) {
    TellsAll(FillReports(g.sent), g.booked)
  }

  lemma {:induction false} PublishInStep(g: Gate, r: Report)
    requires InStep(g)
    ensures InStep(Publish(g, r))
  {
    hide Tells, FillReports, FillExec, Scaled, OfFill;
    if r.orderId in g.live {
      FillTells(r, g.live[r.orderId]);
      FillReportsSnoc(g.sent, Publish(g, r).sent[|g.sent|]);
    }
  }

  lemma {:induction false} PublishAllInStep(g: Gate, reports: seq<Report>)
    requires InStep(g)
    ensures InStep(PublishAll(g, reports))
    decreases |reports|
  {
    hide Publish, InStep;
    if reports != [] {
      PublishInStep(g, reports[0]);
      PublishAllInStep(Publish(g, reports[0]), reports[1..]);
    }
  }

  lemma {:induction false} SameInStep(g: Gate, g': Gate)
    requires InStep(g) && g'.sent == g.sent && g'.booked == g.booked
    ensures InStep(g')
  {
  }

  lemma {:induction false} StatusInStep(g: Gate, g': Gate, e: Exec)
    requires InStep(g) && g'.sent == g.sent + [e] && g'.booked == g.booked && !OfFill(e)
    ensures InStep(g')
  {
    FillReportsSnoc(g.sent, e);
  }

  lemma {:induction false} PlaceInStep(g: Gate, o: Order)
    requires InStep(g)
    ensures InStep(Place(g, o))
  {
    hide Submit, NewlyDelivered, PublishAll, InStep;
    var s := Submit(g.engine, o, NO_LATENCY);
    SameInStep(g, g.(engine := s));
    PublishAllInStep(g.(engine := s), NewlyDelivered(g.engine, s));
  }

  lemma {:induction false} NewInStep(g: Gate, o: NewOrder)
    requires InStep(g)
    ensures InStep(SendNew(g, o).0)
  {
    hide Place, InStep, Refused;
    if WellFormed(o) {
      var lo := NewLive(o);
      var order := EngineOrder(o.id, lo, KindOf(o.wire, o.postOnly));
      var g0 := g.(live := if o.id in g.live then g.live else g.live[o.id := lo]);
      SameInStep(g, g0);
      PlaceInStep(g0, order);
      var g1 := Place(g0, order);
      if Refused(g.engine, order) {
        SameInStep(g1, SendNew(g, o).0);
      } else if o.id in g1.live && g1.live[o.id].cum < o.quantity {
        StatusInStep(g1, SendNew(g, o).0,
                     StatusReport(o.id, o.venue, o.instrument, Acked, lo.(cum := g1.live[o.id].cum)));
      }
    }
  }

  lemma {:induction false} CancelInStep(g: Gate, id: nat, venue: Venue, instrument: nat)
    requires InStep(g)
    ensures InStep(SendCancel(g, id, venue, instrument))
  {
    hide Cancel, InStep;
    if id in g.live {
      var g' := SendCancel(g, id, venue, instrument);
      if g'.sent == g.sent {
        SameInStep(g, g');
      } else {
        StatusInStep(g, g', StatusReport(id, venue, instrument, Cancelled, g.live[id]));
      }
    }
  }

  lemma {:induction false} CancelEachInStep(g: Gate, ids: seq<nat>, venue: Venue, instrument: nat)
    requires InStep(g)
    ensures InStep(CancelEach(g, ids, venue, instrument))
    decreases |ids|
  {
    hide SendCancel, InStep;
    if ids != [] {
      CancelInStep(g, ids[0], venue, instrument);
      CancelEachInStep(SendCancel(g, ids[0], venue, instrument), ids[1..], venue, instrument);
    }
  }

  lemma {:induction false} ModifyInStep(g: Gate, id: nat, price: int, quantity: nat)
    requires InStep(g)
    ensures InStep(SendModify(g, id, price, quantity))
  {
    hide Place, InStep, Refused, Cancel;
    if id in g.live {
      var lo := g.live[id].(price := price, quantity := quantity);
      var order := EngineOrder(id, lo, if lo.postOnly then PostOnly else Limit);
      var s := Cancel(g.engine, VenueName(lo.venue), lo.symbol, id).0;
      var g0 := g.(engine := s, live := g.live[id := lo]);
      SameInStep(g, g0);
      PlaceInStep(g0, order);
      if Refused(s, order) {
        StatusInStep(Place(g0, order), SendModify(g, id, price, quantity),
                     StatusReport(id, lo.venue, lo.instrument, Cancelled, lo));
      }
    }
  }

  lemma {:induction false} StepInStep(g: Gate, call: Call)
    requires InStep(g)
    ensures InStep(GateStep(g, call))
  {
    hide InStep, SendNew, SendCancel, SendModify, CancelEach, PublishAll, OnSnapshot, OnTrade, NewlyDelivered;
    match call
    case NewCall(o) => NewInStep(g, o);
    case CancelCall(id, venue, instrument) => CancelInStep(g, id, venue, instrument);
    case CancelAllCall(venue, instrument, listing) => CancelEachInStep(g, listing, venue, instrument);
    case ModifyCall(id, price, quantity) => ModifyInStep(g, id, price, quantity);
    case SnapshotCall(book) =>
      var s := OnSnapshot(g.engine, book, NO_LATENCY);
      SameInStep(g, g.(engine := s));
      PublishAllInStep(g.(engine := s), NewlyDelivered(g.engine, s));
    case TradeCall(t) =>
      var s := OnTrade(g.engine, t, NO_LATENCY);
      SameInStep(g, g.(engine := s));
      PublishAllInStep(g.(engine := s), NewlyDelivered(g.engine, s));
  }

  lemma {:induction false} RunInStep(g: Gate, calls: seq<Call>)
    requires InStep(g)
    ensures InStep(GateRun(g, calls))
    decreases |calls|
  {
    hide InStep, GateStep;
    if calls != [] {
      StepInStep(g, calls[0]);
      RunInStep(GateStep(g, calls[0]), calls[1..]);
    }
  }

  /** Over every run, the reports of fills are in step with the engine's fills, one
      for one and in order: the same order and side, the fill's own price, its
      quantity to the nearest wire unit, complete iff the fill was. */
  lemma {:induction false} FillsReported(calls: seq<Call>)
    requires GateValidRun(GATE_INITIAL, calls)
    ensures var g := GateRun(GATE_INITIAL, calls);
            var filled := FilledIn(g.engine.log);
            TellsAll(FillReports(g.sent), filled) && forall i :: 0 <= i < |filled| ==> filled[i].lastQty > 0.0
  {
    hide GateRun, GateValidRun, TellsAll, FillReports;
    FillsAllBooked(calls);
    NothingTold();
    RunInStep(GATE_INITIAL, calls);
  }

  lemma {:induction false} NothingTold()
    ensures InStep(GATE_INITIAL)
  {
  }
}
