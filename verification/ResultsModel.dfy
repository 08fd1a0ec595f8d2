/** What the results collector keeps and what each event does to it
    (results_collector.cpp). */
module ResultsModel {
  import opened Orders
  import opened AverageCost
  import opened MapSums

  datatype Rates = Rates(makerBps: real, takerBps: real)

  datatype Fill = Fill(
    exchange: string,
    symbol: string,
    orderId: nat,
    kind: Kind,
    side: Side,
    role: Role,
    qty: real,
    price: real,
    ts: nat)

  /** The best prices of a snapshot. */
  datatype Touch = Touch(ts: nat, exchange: string, symbol: string, bid: real, ask: real)

  datatype Event = FillEvent(fill: Fill) | TouchEvent(touch: Touch)

  datatype Trip = Trip(openTs: nat, closeTs: nat, realized: real)

  /** Time after a fill at which its markouts are taken: 50 ms, 1 s, 5 s, 30 s. */
  const HORIZONS: seq<nat> := [50000000, 1000000000, 5000000000, 30000000000]

  type Marks = m: seq<real> | |m| == |HORIZONS|
    witness [0.0, 0.0, 0.0, 0.0]

  const UNRESOLVED: real := -1000000000000000000.0

  const UNMARKED: Marks := [UNRESOLVED, UNRESOLVED, UNRESOLVED, UNRESOLVED]

  datatype Row = Row(fill: Fill, realized: real, fee: real, equity: real, markouts: Marks)

  datatype Pending = Pending(row: nat, horizon: nat, target: nat)

  datatype Books = Books(
    capital: real,
    fees: map<string, Rates>,
    positions: map<string, Position>,
    mids: map<string, real>,
    open: map<string, real>,
    feesPaid: real,
    rows: seq<Row>,
    curve: seq<(nat, real)>,
    trips: seq<Trip>,
    pending: seq<Pending>)

  function EmptyBooks(capital: real, fees: map<string, Rates>): Books {
    Books(capital, fees, map[], map[], map[], 0.0, [], [(0, capital)], [], [])
  }

  function KeyOfFill(f: Fill): string {
    Key(f.exchange, f.symbol)
  }

  function DealOf(f: Fill): Deal {
    Deal(f.side, f.qty, f.price)
  }

  // --- Equity ------------------------------------------------------------------------------

  ghost function Realized(positions: map<string, Position>): map<string, real> {
    map k | k in positions :: positions[k].realized
  }

  function Paper(pos: Position, mids: map<string, real>, key: string): real {
    if Abs(pos.net) < EPS || key !in mids then 0.0 else pos.net * (mids[key] - pos.avg)
  }

  ghost function Unrealized(positions: map<string, Position>, mids: map<string, real>): map<string, real> {
    map k | k in positions :: Paper(positions[k], mids, k)
  }

  ghost function Equity(b: Books): real {
    b.capital + Sum(Realized(b.positions)) + Sum(Unrealized(b.positions, b.mids)) - b.feesPaid
  }

  // --- Fills ---------------------------------------------------------------------------------

  function RateBps(fees: map<string, Rates>, f: Fill): real {
    if f.exchange !in fees then 0.0
    else if f.role == Taker then fees[f.exchange].takerBps
    else fees[f.exchange].makerBps
  }

  function FeeOf(fees: map<string, Rates>, f: Fill): real {
    f.qty * f.price * RateBps(fees, f) * 0.0001
  }

  function PositionAt(b: Books, key: string): Position {
    if key in b.positions then b.positions[key] else FLAT
  }

  predicate IsFlat(net: real) {
    Abs(net) < EPS
  }

  /** Books a fill in its position and follows the round trip. */
  function BookDeal(b: Books, f: Fill): (Books, real)
    requires f.qty > 0.0
  {
    var key := KeyOfFill(f);
    var pos := PositionAt(b, key);
    var (p, gain) := ApplyFill(pos, DealOf(f));
    var open := At(b.open, key) + gain;
    var b1 := b.(feesPaid := b.feesPaid + FeeOf(b.fees, f));
    if IsFlat(pos.net) && !IsFlat(p.net) then
      (b1.(positions := b.positions[key := p.(openTs := f.ts)], open := b.open[key := 0.0]), gain)
    else if !IsFlat(pos.net) && IsFlat(p.net) then
      (b1.(positions := b.positions[key := p.(openTs := 0)], open := b.open[key := 0.0],
           trips := b.trips + [Trip(p.openTs, f.ts, open)]), gain)
    else (b1.(positions := b.positions[key := p], open := b.open[key := open]), gain)
  }

  function Markouts(row: nat, ts: nat): seq<Pending> {
    [Pending(row, 0, ts + HORIZONS[0]), Pending(row, 1, ts + HORIZONS[1]),
     Pending(row, 2, ts + HORIZONS[2]), Pending(row, 3, ts + HORIZONS[3])]
  }

  /** Adds the row of a fill and schedules its markouts. */
  ghost function Record(b: Books, f: Fill, gain: real): Books {
    var eq := Equity(b);
    b.(curve := b.curve + [(f.ts, eq)],
       rows := b.rows + [Row(f, gain, FeeOf(b.fees, f), eq, UNMARKED)],
       pending := b.pending + Markouts(|b.rows|, f.ts))
  }

  ghost function OnFill(b: Books, f: Fill): Books
    requires f.qty > 0.0
  {
    var r := BookDeal(b, f);
    Record(r.0, f, r.1)
  }

  // --- Market events ---------------------------------------------------------------------------

  function MidsAfter(mids: map<string, real>, t: Touch): map<string, real> {
    if t.bid > 0.0 && t.ask > 0.0 then mids[Key(t.exchange, t.symbol) := (t.bid + t.ask) * 0.5] else mids
  }

  /** Price move in basis points of the fill price, positive when the move was
      in the fill's favour. */
  function Bps(f: Fill, mid: real): real
    requires f.price > 0.0
  {
    var bps := (mid - f.price) / f.price * 10000.0;
    if f.side == Sell then -bps else bps
  }

  /** Takes the markout of a pending entry if there is a mid to take. */
  function Resolve(rows: seq<Row>, p: Pending, mids: map<string, real>): (r: seq<Row>)
    ensures |r| == |rows|
  {
    if p.row < |rows| && p.horizon < |HORIZONS| && KeyOfFill(rows[p.row].fill) in mids && rows[p.row].fill.price > 0.0
    then
      var row := rows[p.row];
      rows[p.row := row.(markouts := row.markouts[p.horizon := Bps(row.fill, mids[KeyOfFill(row.fill)])])]
    else rows
  }

  function ResolveDue(rows: seq<Row>, pending: seq<Pending>, mids: map<string, real>, ts: nat): (r: seq<Row>)
    ensures |r| == |rows|
  {
    if pending == [] then rows
    else
      var n := |pending| - 1;
      var r := ResolveDue(rows, pending[..n], mids, ts);
      if ts < pending[n].target then r else Resolve(r, pending[n], mids)
  }

  function NotDue(pending: seq<Pending>, ts: nat): seq<Pending> {
    if pending == [] then []
    else
      var n := |pending| - 1;
      NotDue(pending[..n], ts) + if ts < pending[n].target then [pending[n]] else []
  }

  function OnTouch(b: Books, t: Touch): Books {
    var mids := MidsAfter(b.mids, t);
    b.(mids := mids, rows := ResolveDue(b.rows, b.pending, mids, t.ts), pending := NotDue(b.pending, t.ts))
  }

  // --- Runs ----------------------------------------------------------------------------------------

  /** Fills have positive size. */
  predicate Proper(events: seq<Event>) {
    forall i :: 0 <= i < |events| && events[i].FillEvent? ==> events[i].fill.qty > 0.0
  }

  ghost function Handle(b: Books, e: Event): Books
    requires e.FillEvent? ==> e.fill.qty > 0.0
  {
    match e
    case FillEvent(f) => OnFill(b, f)
    case TouchEvent(t) => OnTouch(b, t)
  }

  ghost function Collect(b: Books, events: seq<Event>): Books
    requires Proper(events)
  {
    if events == [] then b
    else Handle(Collect(b, events[..|events| - 1]), events[|events| - 1])
  }
}
