/** Value types of the backtest matching engine: orders, fill reports, books
    and prints (open_order.h, orderbook_record.h, trade_record.h).

    Quantities are exact reals. Prices are integer ticks of 1e-8 quote units,
    the scale the order gateway uses; they are coarser than the engine's 1e-9
    price tolerances, so every tolerant price comparison of the engine is an
    exact comparison of ticks here. A tick value <= 0 means "no price". */
module Orders {
  datatype Option<+T> = None | Some(value: T)

  /** Quantities of at most this size count as nothing left. */
  const EPS: real := 0.000000000001

  /** Levels per side of an L2 snapshot. */
  const BOOK_DEPTH: nat := 5

  datatype Kind = Market | Limit | PostOnly

  datatype Side = Buy | Sell

  datatype Role = Maker | Taker

  datatype Order = Order(
    id: nat,
    clientId: nat,
    exchange: string,
    symbol: string,
    kind: Kind,
    side: Side,
    price: int,
    quantity: real,
    filled: real,
    submittedTs: nat,
    seeded: bool,
    rejected: bool)

  datatype Report = Report(
    orderId: nat,
    clientId: nat,
    exchange: string,
    symbol: string,
    kind: Kind,
    side: Side,
    role: Role,
    originalQty: real,
    orderPrice: int,
    lastQty: real,
    lastPrice: int,
    cumQty: real,
    full: bool,
    ts: nat)

  datatype Quote = Quote(px: int, sz: real)

  type Ladder = qs: seq<Quote> | |qs| == BOOK_DEPTH
    witness [Quote(0, 0.0), Quote(0, 0.0), Quote(0, 0.0), Quote(0, 0.0), Quote(0, 0.0)]

  datatype Book = Book(ts: nat, exchange: string, symbol: string, bids: Ladder, asks: Ladder)

  /** `taker` is the aggressor's side. */
  datatype Trade = Trade(ts: nat, price: int, quantity: real, taker: Side, exchange: string, symbol: string)

  function Key(exchange: string, symbol: string): string {
    exchange + ":" + symbol
  }

  function KeyOf(o: Order): string {
    Key(o.exchange, o.symbol)
  }

  function Min(a: real, b: real): real {
    if b < a then b else a
  }

  function Max(a: real, b: real): real {
    if a < b then b else a
  }

  /** What an order still has to fill. */
  function Remaining(o: Order): real {
    o.quantity - o.filled
  }

  /** The touch of `book` on the far side of `side` is at or through `price`. */
  predicate Crosses(book: Book, side: Side, price: int) {
    match side
    case Buy => book.asks[0].px > 0 && price >= book.asks[0].px
    case Sell => book.bids[0].px > 0 && price <= book.bids[0].px
  }

  /** No two orders of a list share an id. */
  predicate DistinctIds(orders: seq<Order>) {
    forall i, j :: 0 <= i < j < |orders| ==> orders[i].id != orders[j].id
  }
}
