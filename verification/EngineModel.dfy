/** The matching engine as a state machine on values: what each public call
    does to the state (matching_engine.cpp, matching_engine_book.cpp,
    matching_engine_fills.cpp). The class in MatchingEngine.dfy is proved
    against these functions; the properties of whole runs are proved about
    them. */
module EngineModel {
  import opened Orders
  import opened SlotQueues
  import opened CancelSpread
  import opened PrintMatching
  import opened FillAccounts
  import opened BookWalk
  import opened LatencyLegs

  /** One price level of one side of one book. */
  datatype Level = Level(key: string, side: Side, price: int)

  /** `log` is the history of acceptances, fills and cancels; nothing reads it. `draws`
      counts the latency draws made so far. */
  datatype State = State(
    books: map<string, Book>,
    pending: map<string, seq<Order>>,
    queues: map<Level, seq<Slot>>,
    submits: Leg<Order>,
    fills: Leg<Report>,
    now: nat,
    draws: nat,
    log: seq<Entry>)

  /** The n-th delay drawn, whatever venue and leg it is drawn for. */
  type Latency = nat -> nat

  /** The engine without a latency model. */
  const NO_LATENCY: Latency := (n: nat) => 0

  const INITIAL := State(map[], map[], map[], EmptyLeg(), EmptyLeg(), 0, 0, [])

  function OrdersAt(s: State, key: string): seq<Order> {
    if key in s.pending then s.pending[key] else []
  }

  function QueueAt(s: State, level: Level): seq<Slot> {
    if level in s.queues then s.queues[level] else []
  }

  function LevelOf(o: Order): Level {
    Level(KeyOf(o), o.side, o.price)
  }

  /** Replaces the order list of a book that has one. */
  function SetOrders(s: State, key: string, orders: seq<Order>): State {
    if key in s.pending then s.(pending := s.pending[key := orders]) else s
  }

  function Emit(s: State, reports: seq<Report>): State {
    s.(log := s.log + Entries(reports))
  }

  // --- Matching an order whose time has come --------------------------------------

  /** Displayed size at a price, 0 if the price is not displayed. */
  function SizeAt(levels: seq<Quote>, price: int): real {
    if levels == [] then 0.0
    else if levels[0].px > 0 && levels[0].px == price then levels[0].sz
    else SizeAt(levels[1..], price)
  }

  predicate HasVenue(q: seq<Slot>) {
    exists i :: 0 <= i < |q| && q[i].owner.None?
  }

  /** An order joins the back of its queue, behind the displayed venue volume
      if the queue has no venue slot yet. */
  function Joined(q: seq<Slot>, venue: real, id: nat, remaining: real): seq<Slot> {
    (if venue > 0.0 && !HasVenue(q) then q + [Slot(venue, None)] else q) + [Slot(remaining, Some(id))]
  }

  /** Rests an order with a slot. */
  function RestSeeded(s: State, o: Order, book: Book): State {
    var level := LevelOf(o);
    var q := Joined(QueueAt(s, level), SizeAt(NearSide(book, o.side), o.price), o.id, Remaining(o));
    s.(queues := s.queues[level := q],
       pending := s.pending[KeyOf(o) := OrdersAt(s, KeyOf(o)) + [o.(seeded := true)]])
  }

  /** Rests an order for a book that has not been seen yet. */
  function RestUnseeded(s: State, o: Order): State {
    s.(pending := s.pending[KeyOf(o) := OrdersAt(s, KeyOf(o)) + [o]])
  }

  /** The part of an order that trades on arrival. */
  function Cross(o: Order, book: Book, now: nat): (Order, seq<Report>) {
    if o.kind == Market then Walk(o, FarSide(book, o.side), None, now)
    else if o.kind == Limit && Crosses(book, o.side, o.price) then
      Walk(o, FarSide(book, o.side), Some(o.price), now)
    else (o, [])
  }

  function Match(s: State, o: Order): (State, seq<Report>) {
    if KeyOf(o) !in s.books then
      (if o.kind == Market then s else RestUnseeded(s, o), [])
    else
      var book := s.books[KeyOf(o)];
      var c := Cross(o, book, s.now);
      var s' := Emit(s, c.1);
      (if o.kind != Market && Remaining(c.0) > EPS then RestSeeded(s', c.0, book) else s', c.1)
  }

  function MatchAll(s: State, ready: seq<Timed<Order>>): (State, seq<Report>)
    decreases |ready|
  {
    if ready == [] then (s, [])
    else
      var first := Match(s.(now := Later(s.now, ready[0].due)), ready[0].item);
      var rest := MatchAll(first.0, ready[1..]);
      (rest.0, first.1 + rest.1)
  }

  /** Puts reports on the way back, each with its own delay. */
  function Schedule(s: State, reports: seq<Report>, latency: Latency): State
    decreases |reports|
  {
    if reports == [] then s
    else
      var s' := s.(fills := Push(s.fills, reports[0], reports[0].ts + latency(s.draws)), draws := s.draws + 1);
      Schedule(s', reports[1..], latency)
  }

  function DrainSubmits(s: State, upto: nat, latency: Latency): State {
    var matched := MatchAll(s.(submits := Serve(s.submits, upto, s.now)), Ready(s.submits, upto));
    Schedule(matched.0, matched.1, latency)
  }

  /** Delivers the reports that are due: they move to the service record. */
  function DrainFills(s: State, upto: nat): State {
    s.(fills := Serve(s.fills, upto, upto))
  }

  // --- Market events -----------------------------------------------------------------

  /** Brings the venue part of a queue in line with the displayed size: growth
      joins at the back, shrinkage is taken as cancels. */
  function Reconciled(q: seq<Slot>, observed: real): seq<Slot> {
    var delta := observed - VenueTotal(q);
    if delta > EPS then q + [Slot(delta, None)]
    else if delta < -EPS then Distribute(q, -delta)
    else q
  }

  function ReconcileQuote(s: State, key: string, side: Side, quote: Quote): State {
    if quote.px > 0 && quote.sz > 0.0 then
      var level := Level(key, side, quote.px);
      s.(queues := s.queues[level := Reconciled(QueueAt(s, level), quote.sz)])
    else s
  }

  function ReconcileFrom(s: State, key: string, book: Book, lvl: nat): State
    requires lvl <= BOOK_DEPTH
    decreases BOOK_DEPTH - lvl
  {
    if lvl == BOOK_DEPTH then s
    else
      var s1 := ReconcileQuote(s, key, Buy, book.bids[lvl]);
      var s2 := ReconcileQuote(s1, key, Sell, book.asks[lvl]);
      ReconcileFrom(s2, key, book, lvl + 1)
  }

  /** A book without a touch fills nothing. */
  predicate HasTouch(book: Book) {
    book.bids[0].px > 0 || book.asks[0].px > 0
  }

  function FillCrossing(s: State, book: Book): (State, seq<Report>) {
    var key := Key(book.exchange, book.symbol);
    if !HasTouch(book) then (s, [])
    else
      var b := Backstop(OrdersAt(s, key), book, s.now);
      (Emit(SetOrders(s, key, b.0), b.1), b.1)
  }

  function TakeSnapshot(s: State, book: Book): (State, seq<Report>) {
    var key := Key(book.exchange, book.symbol);
    var s1 := ReconcileFrom(s.(now := book.ts), key, book, 0);
    FillCrossing(s1.(books := s1.books[key := book]), book)
  }

  /** The queue a print eats: a seller's print eats the bids. */
  function PrintLevel(t: Trade): Level {
    Level(Key(t.exchange, t.symbol), if t.taker == Sell then Buy else Sell, t.price)
  }

  function TakePrint(s: State, t: Trade): (State, seq<Report>) {
    var level := PrintLevel(t);
    var s1 := s.(now := t.ts);
    var q := QueueAt(s1, level);
    if q == [] then (s1, [])
    else
      var r := Consume(q, OrdersAt(s1, level.key), t.quantity, s1.now);
      var s2 := SetOrders(s1.(queues := s1.queues[level := r.queue]), level.key, DropDone(r.orders));
      (Emit(s2, r.reports), r.reports)
  }

  function OnSnapshot(s: State, book: Book, latency: Latency): State {
    var taken := TakeSnapshot(DrainSubmits(s, book.ts, latency), book);
    DrainFills(Schedule(taken.0, taken.1, latency), book.ts)
  }

  function OnTrade(s: State, t: Trade, latency: Latency): State {
    var taken := TakePrint(DrainSubmits(s, t.ts, latency), t);
    DrainFills(Schedule(taken.0, taken.1, latency), t.ts)
  }

  // --- Order entry -----------------------------------------------------------------------

  /** A post-only order that would trade at once is refused. */
  predicate Refused(s: State, o: Order) {
    o.kind == PostOnly && KeyOf(o) in s.books && Crosses(s.books[KeyOf(o)], o.side, o.price)
  }

  /** The order as the engine stamps it. */
  function Stamped(s: State, o: Order): Order {
    o.(submittedTs := s.now, rejected := o.rejected || Refused(s, o))
  }

  function Accept(s: State, o: Order, latency: Latency): State {
    s.(submits := Push(s.submits, o, s.now + latency(s.draws)),
       draws := s.draws + 1,
       log := s.log + [Accepted(o)])
  }

  function Submit(s: State, order: Order, latency: Latency): State {
    if Refused(s, order) then s
    else
      var s' := DrainSubmits(Accept(s, Stamped(s, order), latency), s.now, latency);
      DrainFills(s', s'.now)
  }

  function IndexOfId(orders: seq<Order>, id: nat): (i: nat)
    ensures i <= |orders|
    ensures i < |orders| ==> orders[i].id == id
    ensures forall j :: 0 <= j < i ==> orders[j].id != id
  {
    if orders == [] || orders[0].id == id then 0 else 1 + IndexOfId(orders[1..], id)
  }

  function IndexOfSubmit(waiting: seq<Timed<Order>>, exchange: string, symbol: string, id: nat): (i: nat)
    ensures i <= |waiting|
    ensures i < |waiting| ==> waiting[i].item.id == id
  {
    if waiting == [] then 0
    else
      var o := waiting[0].item;
      if o.exchange == exchange && o.symbol == symbol && o.id == id then 0
      else 1 + IndexOfSubmit(waiting[1..], exchange, symbol, id)
  }

  /** Removes an order's own slots from a queue. */
  function WithoutOwner(q: seq<Slot>, id: nat): seq<Slot> {
    if q == [] then []
    else if q[0].owner == Some(id) then WithoutOwner(q[1..], id)
    else [q[0]] + WithoutOwner(q[1..], id)
  }

  /** Removes a slot from its level, if the level exists. */
  function Unseed(s: State, key: string, o: Order): State {
    var level := Level(key, o.side, o.price);
    if o.seeded && level in s.queues then s.(queues := s.queues[level := WithoutOwner(s.queues[level], o.id)])
    else s
  }

  function Withdraw(s: State, id: nat): State {
    s.(log := s.log + [Withdrawn(id)])
  }

  /** The new state, and whether there was an order to cancel. */
  function Cancel(s: State, exchange: string, symbol: string, id: nat): (State, bool) {
    var key := Key(exchange, symbol);
    var orders := OrdersAt(s, key);
    var i := IndexOfId(orders, id);
    var j := IndexOfSubmit(s.submits.waiting, exchange, symbol, id);
    if i < |orders| then
      (Withdraw(SetOrders(Unseed(s, key, orders[i]), key, orders[..i] + orders[i + 1..]), id), true)
    else if j < |s.submits.waiting| then
      (Withdraw(s.(submits := Drop(s.submits, j)), id), true)
    else (s, false)
  }

  /** The reports handed out between two states. */
  function NewlyDelivered(before: State, after: State): seq<Report> {
    var n := |before.fills.served|;
    if n <= |after.fills.served| then Items(ServedEntries(after.fills.served[n..])) else []
  }

  // --- Runs --------------------------------------------------------------------------------

  datatype Input =
    | SnapshotIn(book: Book)
    | TradeIn(trade: Trade)
    | SubmitIn(order: Order)
    | CancelIn(exchange: string, symbol: string, id: nat)

  function Step(s: State, input: Input, latency: Latency): State {
    match input
    case SnapshotIn(book) => OnSnapshot(s, book, latency)
    case TradeIn(t) => OnTrade(s, t, latency)
    case SubmitIn(o) => Submit(s, o, latency)
    case CancelIn(exchange, symbol, id) => Cancel(s, exchange, symbol, id).0
  }

  function Run(s: State, inputs: seq<Input>, latency: Latency): State
    decreases |inputs|
  {
    if inputs == [] then s else Run(Step(s, inputs[0], latency), inputs[1..], latency)
  }
}
