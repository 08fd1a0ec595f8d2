/** The in-process order gateway as a class in front of the matching engine
    (inprocess_order_gateway_client.cpp), each method proved against
    GatewayModel.dfy. */
module OrderGateway {
  import opened Orders
  import opened EngineModel
  import opened MatchingEngine
  import opened GatewayModel
  import opened GatewayRuns

  lemma {:induction false} PublishFrom(g: Gate, reports: seq<Report>, i: nat)
    requires i < |reports|
    ensures PublishAll(g, reports[i..]) == PublishAll(Publish(g, reports[i]), reports[i + 1..])
  {
    assert reports[i..][0] == reports[i] && reports[i..][1..] == reports[i + 1..];
  }

  lemma {:induction false} CancelFrom(g: Gate, ids: seq<nat>, id: nat, venue: Venue, instrument: nat)
    ensures CancelEach(g, ids + [id], venue, instrument)
         == SendCancel(CancelEach(g, ids, venue, instrument), id, venue, instrument)
    decreases |ids|
  {
    hide SendCancel;
    if ids == [] {
      assert ids + [id] == [id] && [id][1..] == [];
    } else {
      assert (ids + [id])[1..] == ids[1..] + [id];
      CancelFrom(SendCancel(g, ids[0], venue, instrument), ids[1..], id, venue, instrument);
    }
  }

  class Gateway {
    const engine: Engine
    var live: map<nat, Live>
    var sent: seq<Exec>
    var booked: seq<Report>
    var rejected: nat

    ghost predicate Wired() {
      engine.latency == NO_LATENCY
    }

    ghost function Abs(): Gate
      reads this, engine
    {
      Gate(engine.State(), live, sent, booked, rejected)
    }

    constructor (engine: Engine)
      ensures this.engine == engine && Abs() == Gate(engine.State(), map[], [], [], 0)
    {
      this.engine := engine;
      live, sent, booked, rejected := map[], [], [], 0;
    }

    /** Books a fill and reports it, unless its order is unknown. */
    method PublishFill(r: Report)
      modifies this
      ensures Abs() == Publish(old(Abs()), r)
    {
      var id := r.orderId;
      if id !in live { return; }
      booked := booked + [r];
      var qty := Scaled(r.lastQty);
      var lo := live[id];
      lo := lo.(cum := lo.cum + qty);
      live := live[id := lo];
      sent := sent + [FillExec(r, lo, qty, lo.cum)];
      if r.full {
        live := live - {id};
        assert live == old(live) - {id};
      }
    }

    /** The engine's fill callback, for everything one call hands out. */
    method PublishFills(reports: seq<Report>)
      modifies this
      ensures Abs() == PublishAll(old(Abs()), reports)
    {
      hide Publish;
      assert reports[0..] == reports;
      for i := 0 to |reports|
        invariant PublishAll(Abs(), reports[i..]) == PublishAll(old(Abs()), reports)
      {
        PublishFrom(Abs(), reports, i);
        PublishFill(reports[i]);
      }
    }

    method SendNewOrder(o: NewOrder) returns (ok: bool)
      requires Wired()
      modifies this, engine
      ensures (Abs(), ok) == SendNew(old(Abs()), o)
    {
      hide Submit, PublishAll, NewlyDelivered, Refused, EngineOrder, Acknowledge;
      if o.quantity == 0 { return false; }
      if o.wire != MarketWire && o.price <= 0 { return false; }
      if o.symbol == "" { return false; }
      var lo := NewLive(o);
      if o.id !in live { live := live[o.id := lo]; }
      SubmittedBlank(o.id, lo, KindOf(o.wire, o.postOnly));
      var ack, deliveries := engine.SubmitOrder(EngineOrder(o.id, lo, KindOf(o.wire, o.postOnly)));
      PublishFills(deliveries);
      if ack.rejected {
        rejected := rejected + 1;
        live := live - {o.id};
        return false;
      }
      AcknowledgeOrder(o);
      return true;
    }

    method AcknowledgeOrder(o: NewOrder)
      modifies this`sent
      ensures Abs() == Acknowledge(old(Abs()), o)
    {
      if o.id in live && live[o.id].cum < o.quantity {
        var lo := NewLive(o).(cum := live[o.id].cum);
        sent := sent + [StatusReport(o.id, o.venue, o.instrument, Acked, lo)];
      }
    }

    method CancelOrder(id: nat, venue: Venue, instrument: nat)
      modifies this, engine
      ensures Abs() == SendCancel(old(Abs()), id, venue, instrument)
    {
      hide Cancel;
      if id !in live { return; }
      var lo := live[id];
      var ok := engine.CancelOrder(VenueName(lo.venue), lo.symbol, id);
      if ok {
        sent := sent + [StatusReport(id, venue, instrument, Cancelled, lo)];
        live := live - {id};
      }
    }

    /** Cancels every live order of an instrument, in no particular order; the
        order taken is returned. */
    method CancelAll(venue: Venue, instrument: nat) returns (listing: seq<nat>)
      modifies this, engine
      ensures Lists(listing, Targets(old(live), venue, instrument))
      ensures Abs() == CancelEach(old(Abs()), listing, venue, instrument)
    {
      hide SendCancel;
      ghost var targets := Targets(live, venue, instrument);
      var rest := Targets(live, venue, instrument);
      listing := [];
      while rest != {}
        invariant forall id :: id in targets <==> id in listing || id in rest
        invariant Abs() == CancelEach(old(Abs()), listing, venue, instrument)
        decreases |rest|
      {
        var id :| id in rest;
        rest := rest - {id};
        CancelFrom(old(Abs()), listing, id, venue, instrument);
        CancelOrder(id, venue, instrument);
        listing := listing + [id];
      }
    }

    method Modify(id: nat, price: int, quantity: nat)
      requires Wired()
      modifies this, engine
      ensures Abs() == SendModify(old(Abs()), id, price, quantity)
    {
      hide Cancel, Submit, PublishAll, NewlyDelivered, Refused, EngineOrder;
      if id !in live { return; }
      var lo := live[id];
      var _ := engine.CancelOrder(VenueName(lo.venue), lo.symbol, id);
      lo := lo.(price := price, quantity := quantity);
      live := live[id := lo];
      SubmittedBlank(id, lo, if lo.postOnly then PostOnly else Limit);
      var ack, deliveries := engine.SubmitOrder(EngineOrder(id, lo, if lo.postOnly then PostOnly else Limit));
      PublishFills(deliveries);
      if ack.rejected {
        sent := sent + [StatusReport(id, lo.venue, lo.instrument, Cancelled, lo)];
        live := live - {id};
      }
    }

    /** A snapshot goes to the engine; what it fills comes back through the
        callback. */
    method OnOrderBook(book: Book)
      requires Wired()
      modifies this, engine
      ensures Abs() == OnSnapshotEvent(old(Abs()), book)
    {
      hide OnSnapshot, PublishAll, NewlyDelivered;
      var deliveries := engine.OnOrderBook(book);
      PublishFills(deliveries);
    }

    method OnPrint(t: Trade)
      requires Wired()
      modifies this, engine
      ensures Abs() == OnTradeEvent(old(Abs()), t)
    {
      hide OnTrade, PublishAll, NewlyDelivered;
      var deliveries := engine.OnPrint(t);
      PublishFills(deliveries);
    }
  }
}
