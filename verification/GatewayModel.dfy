/** The in-process order gateway on values: what each call does to the map of
    live orders, to the engine behind it and to the stream of execution reports
    (inprocess_order_gateway_client.cpp). The engine runs without latency, the
    way the strategy harness wires it. */
module GatewayModel {
  import opened Orders
  import opened EngineModel

  /** Wire quantities are integers of this many parts of a unit. */
  const QTY_SCALE: real := 100000000.0

  datatype Venue = AllVenues | Binance | Okx | Hyperliquid | Deribit

  datatype Wire = MarketWire | LimitWire

  datatype NewOrder = NewOrder(
    id: nat,
    venue: Venue,
    instrument: nat,
    side: Side,
    wire: Wire,
    price: int,
    quantity: nat,
    postOnly: bool,
    symbol: string)

  /** What the gateway remembers of an order. */
  datatype Live = Live(
    venue: Venue,
    instrument: nat,
    side: Side,
    wire: Wire,
    price: int,
    quantity: nat,
    symbol: string,
    postOnly: bool,
    cum: nat)

  datatype Status = Acked | PartlyFilled | FullyFilled | Cancelled

  datatype Exec = Exec(
    id: nat,
    venue: Venue,
    instrument: nat,
    status: Status,
    side: Side,
    wire: Wire,
    price: int,
    filledQty: nat,
    remainingQty: nat)

  /** `sent` is the stream of execution reports, `booked` the fills passed on to
      the results collector. */
  datatype Gate = Gate(engine: State, live: map<nat, Live>, sent: seq<Exec>, booked: seq<Report>, rejected: nat)

  const GATE_INITIAL := Gate(INITIAL, map[], [], [], 0)

  function VenueName(v: Venue): string {
    match v
    case Binance => "BINANCE"
    case Okx => "OKX"
    case Hyperliquid => "HYPERLIQUID"
    case Deribit => "DERIBIT"
    case AllVenues => ""
  }

  function KindOf(wire: Wire, postOnly: bool): Kind {
    if postOnly then PostOnly else if wire == MarketWire then Market else Limit
  }

  function WireOf(kind: Kind): Wire {
    if kind == Market then MarketWire else LimitWire
  }

  /** Engine quantity of a wire quantity. */
  function Units(n: nat): real {
    n as real / QTY_SCALE
  }

  /** Wire quantity nearest to an engine quantity. */
  function Scaled(x: real): nat {
    var y := x * QTY_SCALE + 0.5;
    if y < 1.0 then 0 else y.Floor
  }

  function Less(a: nat, b: nat): nat {
    if a > b then a - b else 0
  }

  function EngineOrder(id: nat, lo: Live, kind: Kind): Order {
    Order(id, id, VenueName(lo.venue), lo.symbol, kind, lo.side, lo.price, Units(lo.quantity), Units(lo.cum),
          0, false, false)
  }

  // --- Execution reports --------------------------------------------------------------

  /** A report that is not a fill. */
  function StatusReport(id: nat, venue: Venue, instrument: nat, status: Status, lo: Live): Exec {
    Exec(id, venue, instrument, status, lo.side, lo.wire, lo.price, 0, Less(lo.quantity, lo.cum))
  }

  /** The report of a fill of `qty` that brings the order to `cum`. */
  function FillExec(r: Report, lo: Live, qty: nat, cum: nat): Exec {
    Exec(r.orderId, lo.venue, lo.instrument, if r.full then FullyFilled else PartlyFilled, r.side, WireOf(r.kind),
         r.lastPrice, qty, Less(qty, cum))
  }

  function Publish(g: Gate, r: Report): Gate {
    var id := r.orderId;
    if id !in g.live then g
    else
      var qty := Scaled(r.lastQty);
      var lo := g.live[id].(cum := g.live[id].cum + qty);
      g.(booked := g.booked + [r],
         sent := g.sent + [FillExec(r, lo, qty, lo.cum)],
         live := if r.full then g.live - {id} else g.live[id := lo])
  }

  function PublishAll(g: Gate, reports: seq<Report>): Gate
    decreases |reports|
  {
    if reports == [] then g else PublishAll(Publish(g, reports[0]), reports[1..])
  }

  // --- Calls ------------------------------------------------------------------------------

  function NewLive(o: NewOrder): Live {
    Live(o.venue, o.instrument, o.side, o.wire, o.price, o.quantity, o.symbol, o.postOnly, 0)
  }

  predicate WellFormed(o: NewOrder) {
    o.quantity > 0 && (o.wire == LimitWire ==> o.price > 0) && o.symbol != ""
  }

  /** Passes an order to the engine and publishes what it fills. */
  function Place(g: Gate, o: Order): Gate {
    var s := Submit(g.engine, o, NO_LATENCY);
    PublishAll(g.(engine := s), NewlyDelivered(g.engine, s))
  }

  /** An accepted order that still has something to fill is acknowledged. */
  function Acknowledge(g: Gate, o: NewOrder): Gate {
    if o.id in g.live && g.live[o.id].cum < o.quantity then
      var lo := NewLive(o).(cum := g.live[o.id].cum);
      g.(sent := g.sent + [StatusReport(o.id, o.venue, o.instrument, Acked, lo)])
    else g
  }

  function SendNew(g: Gate, o: NewOrder): (Gate, bool) {
    if !WellFormed(o) then (g, false)
    else
      var lo := NewLive(o);
      var order := EngineOrder(o.id, lo, KindOf(o.wire, o.postOnly));
      var g1 := Place(g.(live := if o.id in g.live then g.live else g.live[o.id := lo]), order);
      if Refused(g.engine, order) then (g1.(rejected := g1.rejected + 1, live := g1.live - {o.id}), false)
      else (Acknowledge(g1, o), true)
  }

  function SendCancel(g: Gate, id: nat, venue: Venue, instrument: nat): Gate {
    if id !in g.live then g
    else
      var lo := g.live[id];
      var c := Cancel(g.engine, VenueName(lo.venue), lo.symbol, id);
      if c.1 then
        g.(engine := c.0,
           sent := g.sent + [StatusReport(id, venue, instrument, Cancelled, lo)],
           live := g.live - {id})
      else g.(engine := c.0)
  }

  /** The live orders of one instrument. */
  function Targets(live: map<nat, Live>, venue: Venue, instrument: nat): set<nat> {
    set id | id in live && live[id].venue == venue && live[id].instrument == instrument
  }

  function CancelEach(g: Gate, ids: seq<nat>, venue: Venue, instrument: nat): Gate
    decreases |ids|
  {
    if ids == [] then g else CancelEach(SendCancel(g, ids[0], venue, instrument), ids[1..], venue, instrument)
  }

  /** A modify cancels in the engine and submits again under the same id. */
  function SendModify(g: Gate, id: nat, price: int, quantity: nat): Gate {
    if id !in g.live then g
    else
      var prior := g.live[id];
      var lo := prior.(price := price, quantity := quantity);
      var order := EngineOrder(id, lo, if lo.postOnly then PostOnly else Limit);
      var s := Cancel(g.engine, VenueName(lo.venue), lo.symbol, id).0;
      var g1 := Place(g.(engine := s, live := g.live[id := lo]), order);
      if Refused(s, order) then
        g1.(sent := g1.sent + [StatusReport(id, lo.venue, lo.instrument, Cancelled, lo)], live := g1.live - {id})
      else g1
  }

  function OnSnapshotEvent(g: Gate, book: Book): Gate {
    var s := OnSnapshot(g.engine, book, NO_LATENCY);
    PublishAll(g.(engine := s), NewlyDelivered(g.engine, s))
  }

  function OnTradeEvent(g: Gate, t: Trade): Gate {
    var s := OnTrade(g.engine, t, NO_LATENCY);
    PublishAll(g.(engine := s), NewlyDelivered(g.engine, s))
  }

  // --- Runs ---------------------------------------------------------------------------------

  /** `CancelAllCall` carries the order in which the hash map lists its
      targets. */
  datatype Call =
    | NewCall(order: NewOrder)
    | CancelCall(id: nat, venue: Venue, instrument: nat)
    | CancelAllCall(venue: Venue, instrument: nat, listing: seq<nat>)
    | ModifyCall(id: nat, price: int, quantity: nat)
    | SnapshotCall(book: Book)
    | TradeCall(trade: Trade)

  function GateStep(g: Gate, call: Call): Gate {
    match call
    case NewCall(o) => SendNew(g, o).0
    case CancelCall(id, venue, instrument) => SendCancel(g, id, venue, instrument)
    case CancelAllCall(venue, instrument, listing) => CancelEach(g, listing, venue, instrument)
    case ModifyCall(id, price, quantity) => SendModify(g, id, price, quantity)
    case SnapshotCall(book) => OnSnapshotEvent(g, book)
    case TradeCall(t) => OnTradeEvent(g, t)
  }

  function GateRun(g: Gate, calls: seq<Call>): Gate
    decreases |calls|
  {
    if calls == [] then g else GateRun(GateStep(g, calls[0]), calls[1..])
  }
}
