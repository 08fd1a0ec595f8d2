/** What the collector's numbers mean over whole runs: equity is the cash and
    the holdings marked to mid, whatever path led there; round trips, rows and
    open profit add up; markouts are taken once, at the first chance. */
module ResultsRuns {
  import opened Orders
  import opened AverageCost
  import opened MapSums
  import opened Reals
  import opened ResultsModel

  // --- The fills of one instrument -------------------------------------------------------

  predicate Concerns(e: Event, key: string) {
    e.FillEvent? && KeyOfFill(e.fill) == key
  }

  function Deals(events: seq<Event>, key: string): seq<Deal> {
    if events == [] then []
    else
      var n := |events| - 1;
      if Concerns(events[n], key) then Deals(events[..n], key) + [DealOf(events[n].fill)] else Deals(events[..n], key)
  }

  lemma {:induction false} DealsPositive(events: seq<Event>, key: string)
    requires Proper(events)
    ensures AllPositive(Deals(events, key))
  {
    if events != [] { DealsPositive(events[..|events| - 1], key); }
  }

  /** Same books, whenever they were opened. */
  predicate SameBooks(p: Position, q: Position) {
    p == q.(openTs := p.openTs)
  }

  lemma {:induction false} ApplyIgnoresTime(p: Position, q: Position, d: Deal)
    requires SameBooks(p, q) && d.qty > 0.0
    ensures SameBooks(ApplyFill(p, d).0, ApplyFill(q, d).0) && ApplyFill(p, d).1 == ApplyFill(q, d).1
  {
  }

  /** What booking a fill does to the positions: only its own key changes, to
      the average-cost books of the fill. */
  lemma {:induction false} BookDealPositions(b: Books, f: Fill)
    requires f.qty > 0.0
    ensures var b' := BookDeal(b, f).0;
            var key := KeyOfFill(f);
            && key in b'.positions
            && b'.positions == b.positions[key := b'.positions[key]]
            && SameBooks(b'.positions[key], ApplyFill(PositionAt(b, key), DealOf(f)).0)
            && b'.mids == b.mids && b'.feesPaid == b.feesPaid + FeeOf(b.fees, f)
            && b'.capital == b.capital && b'.fees == b.fees && b'.rows == b.rows && b'.pending == b.pending
            && BookDeal(b, f).1 == ApplyFill(PositionAt(b, key), DealOf(f)).1
  {
    hide ApplyFill;
  }

  /** Every position is the average-cost books of its instrument's fills. */
  lemma {:induction false} PositionsFollow(b: Books, events: seq<Event>, key: string)
    requires Proper(events) && b.positions == map[]
    ensures AllPositive(Deals(events, key))
    ensures key in Collect(b, events).positions <==> Deals(events, key) != []
    ensures SameBooks(PositionAt(Collect(b, events), key), After(Deals(events, key)))
  {
    hide ApplyFill, BookDeal, After, Sum, Realized, Unrealized;
    DealsPositive(events, key);
    if events == [] {
      NothingIsFlat(Deals(events, key));
    } else {
      var n := |events| - 1;
      var e := events[n];
      PositionsFollow(b, events[..n], key);
      var b1 := Collect(b, events[..n]);
      if e.FillEvent? {
        BookDealPositions(b1, e.fill);
        if Concerns(e, key) {
          ApplyIgnoresTime(PositionAt(b1, key), After(Deals(events[..n], key)), DealOf(e.fill));
          AfterSnoc(Deals(events[..n], key), DealOf(e.fill));
        }
      }
    }
  }

  lemma {:induction false} NothingIsFlat(deals: seq<Deal>)
    requires deals == []
    ensures After(deals) == FLAT
  {
  }

  lemma {:induction false} AfterSnoc(deals: seq<Deal>, d: Deal)
    requires AllPositive(deals + [d])
    ensures AllPositive(deals) && After(deals + [d]) == ApplyFill(After(deals), d).0
    ensures Cash(deals + [d]) == Cash(deals) + CashOf(d)
    ensures Bought(deals + [d]) == Bought(deals) + Signed(d)
  {
    hide ApplyFill;
    forall i | 0 <= i < |deals| ensures deals[i].qty > 0.0 { assert (deals + [d])[i] == deals[i]; }
    assert (deals + [d])[..|deals|] == deals;
  }

  // --- Equity --------------------------------------------------------------------------------

  function Traded(events: seq<Event>): set<string> {
    if events == [] then {}
    else
      var n := |events| - 1;
      Traded(events[..n]) + if events[n].FillEvent? then {KeyOfFill(events[n].fill)} else {}
  }

  lemma {:induction false} TradedHasDeals(events: seq<Event>, key: string)
    ensures key in Traded(events) <==> Deals(events, key) != []
  {
    if events != [] { TradedHasDeals(events[..|events| - 1], key); }
  }

  /** The running holding of every instrument is flat or more than dust. */
  ghost predicate AllClear(events: seq<Event>) {
    forall key: string :: Clear(Deals(events, key))
  }

  /** Cash received for the fills of an instrument and its holding at `mid`. */
  function Worth(deals: seq<Deal>, mid: real): real {
    Cash(deals) + Bought(deals) * mid
  }

  function Worths(events: seq<Event>, mids: map<string, real>): map<string, real> {
    map k | k in Traded(events) :: Worth(Deals(events, k), At(mids, k))
  }

  /** Every fill marked to mid: what it gained over its own price. */
  function MarkedFill(f: Fill, mids: map<string, real>): real {
    Signed(DealOf(f)) * (At(mids, KeyOfFill(f)) - f.price)
  }

  function MarkedFills(events: seq<Event>, mids: map<string, real>): real {
    if events == [] then 0.0
    else
      var n := |events| - 1;
      MarkedFills(events[..n], mids) + if events[n].FillEvent? then MarkedFill(events[n].fill, mids) else 0.0
  }

  /** What the fills at one venue came to, in one role. */
  function Turnover(events: seq<Event>, exchange: string, role: Role): real {
    if events == [] then 0.0
    else
      var n := |events| - 1;
      var e := events[n];
      Turnover(events[..n], exchange, role)
      + if e.FillEvent? && e.fill.exchange == exchange && e.fill.role == role then e.fill.qty * e.fill.price else 0.0
  }

  /** The fees of each venue that has rates. */
  function VenueFees(events: seq<Event>, fees: map<string, Rates>): map<string, real> {
    map v | v in fees :: Charge(Turnover(events, v, Taker), Turnover(events, v, Maker), fees[v])
  }

  /** Taker turnover at the taker rate and maker turnover at the maker rate, in
      basis points. */
  function Charge(taker: real, maker: real, rates: Rates): real {
    (taker * rates.takerBps + maker * rates.makerBps) / 10000.0
  }

  /** The fees of a run, venue by venue; a venue without rates charges nothing. */
  ghost function Fees(events: seq<Event>, fees: map<string, Rates>): real {
    Sum(VenueFees(events, fees))
  }

  lemma {:induction false} NoFees(events: seq<Event>, fees: map<string, Rates>)
    requires events == []
    ensures Fees(events, fees) == 0.0
  {
    SumZeros(VenueFees(events, fees));
  }

  lemma {:induction false} TurnoverMoves(taker: real, maker: real, x: real, rates: Rates, role: Role)
    ensures (if role == Taker then Charge(taker + x, maker, rates) else Charge(taker, maker + x, rates))
         == Charge(taker, maker, rates) + x * (if role == Taker then rates.takerBps else rates.makerBps) * 0.0001
  {
    MulDistributes(taker, x, rates.takerBps);
    MulDistributes(maker, x, rates.makerBps);
  }

  lemma {:induction false} FeeAtRate(f: Fill, fees: map<string, Rates>)
    requires f.exchange in fees
    ensures FeeOf(fees, f)
         == f.qty * f.price * (if f.role == Taker then fees[f.exchange].takerBps else fees[f.exchange].makerBps)
            * 0.0001
  {
  }

  lemma {:induction false} TurnoverSnoc(most: seq<Event>, f: Fill)
    ensures forall v: string, role: Role ::
              Turnover(most + [FillEvent(f)], v, role)
              == Turnover(most, v, role) + if f.exchange == v && f.role == role then f.qty * f.price else 0.0
  {
    assert (most + [FillEvent(f)])[..|most|] == most;
  }

  lemma {:induction false} VenueFeesUpdate(most: seq<Event>, f: Fill, fees: map<string, Rates>)
    requires f.exchange in fees
    ensures VenueFees(most + [FillEvent(f)], fees)
         == var before := VenueFees(most, fees); before[f.exchange := before[f.exchange] + FeeOf(fees, f)]
  {
    hide Charge, FeeOf, Turnover;
    var events, v := most + [FillEvent(f)], f.exchange;
    var before, after := VenueFees(most, fees), VenueFees(events, fees);
    TurnoverMoves(Turnover(most, v, Taker), Turnover(most, v, Maker), f.qty * f.price, fees[v], f.role);
    FeeAtRate(f, fees);
    TurnoverSnoc(most, f);
    assert after[v] == before[v] + FeeOf(fees, f);
    forall k | k in fees && k != v ensures after[k] == before[k] {}
  }

  /** Summed venue by venue or fill by fill. */
  lemma {:induction false} FeesSnoc(most: seq<Event>, e: Event, fees: map<string, Rates>)
    ensures Fees(most + [e], fees)
         == Fees(most, fees) + if e.FillEvent? then FeeOf(fees, e.fill) else 0.0
  {
    hide Sum, Turnover;
    if e.FillEvent? && e.fill.exchange in fees {
      hide FeeOf;
      VenueFeesUpdate(most, e.fill, fees);
      var before := VenueFees(most, fees);
      SumUpdate(before, e.fill.exchange, before[e.fill.exchange] + FeeOf(fees, e.fill));
    } else {
      SameVenueFees(most, e, fees);
    }
  }

  lemma {:induction false} SameVenueFees(most: seq<Event>, e: Event, fees: map<string, Rates>)
    requires e.FillEvent? ==> e.fill.exchange !in fees
    ensures VenueFees(most + [e], fees) == VenueFees(most, fees)
    ensures e.FillEvent? ==> FeeOf(fees, e.fill) == 0.0
  {
    hide Charge;
    assert (most + [e])[..|most|] == most;
  }

  lemma {:induction false} WorthSnoc(deals: seq<Deal>, d: Deal, mid: real)
    ensures Worth(deals + [d], mid) == Worth(deals, mid) + Signed(d) * (mid - d.price)
  {
    assert (deals + [d])[..|deals|] == deals;
    assert (Bought(deals) + Signed(d)) * mid == Bought(deals) * mid + Signed(d) * mid;
    assert Signed(d) * (mid - d.price) == Signed(d) * mid - Signed(d) * d.price;
    MinusTimes(Signed(d), d.price);
  }

  /** Summed instrument by instrument or fill by fill. */
  lemma {:induction false} WorthsByFill(events: seq<Event>, mids: map<string, real>)
    ensures Sum(Worths(events, mids)) == MarkedFills(events, mids)
  {
    hide Sum, Worth, MarkedFill;
    if events == [] {
      NoWorths(events, mids);
    } else {
      var n := |events| - 1;
      var e := events[n];
      var most := events[..n];
      WorthsByFill(most, mids);
      if e.FillEvent? {
        WorthsOfFill(most, e, mids);
        assert most + [e] == events;
      } else {
        assert Worths(events, mids) == Worths(most, mids);
      }
    }
  }

  lemma {:induction false} NoWorths(events: seq<Event>, mids: map<string, real>)
    requires events == []
    ensures Sum(Worths(events, mids)) == 0.0
  {
    assert Worths(events, mids) == map[];
  }

  /** A fill changes the worth of its own instrument and of no other. */
  lemma {:induction false} WorthsUpdate(most: seq<Event>, e: Event, mids: map<string, real>)
    requires e.FillEvent?
    ensures var key := KeyOfFill(e.fill);
            Worths(most + [e], mids)
            == Worths(most, mids)[key := Worth(Deals(most, key) + [DealOf(e.fill)], At(mids, key))]
  {
    hide Worth, At;
    var events, key := most + [e], KeyOfFill(e.fill);
    assert events[..|most|] == most;
    assert Traded(events) == Traded(most) + {key};
    forall k: string
      ensures Deals(events, k) == if k == key then Deals(most, k) + [DealOf(e.fill)] else Deals(most, k)
    {
    }
  }

  lemma {:induction false} WorthsOfFill(most: seq<Event>, e: Event, mids: map<string, real>)
    requires e.FillEvent?
    ensures Sum(Worths(most + [e], mids)) == Sum(Worths(most, mids)) + MarkedFill(e.fill, mids)
  {
    hide Sum, Worth, Deals, Traded;
    var key := KeyOfFill(e.fill);
    var deals := Deals(most, key);
    WorthsUpdate(most, e, mids);
    WorthSnoc(deals, DealOf(e.fill), At(mids, key));
    TradedHasDeals(most, key);
    NothingIsWorthless(At(mids, key));
    SumUpdate(Worths(most, mids), key, Worth(deals + [DealOf(e.fill)], At(mids, key)));
  }

  lemma {:induction false} NothingIsWorthless(mid: real)
    ensures Worth([], mid) == 0.0
  {
  }

  /** The price at which the collector carries a holding: the mid, or the
      holding's own cost if it has no mid or is dust. */
  function Carried(pos: Position, mids: map<string, real>, key: string): real {
    if Abs(pos.net) < EPS || key !in mids then pos.avg else mids[key]
  }

  /** How far an instrument's part of the equity is from its fills marked to
      mid (to 0 if it has none). */
  function Deviation(deals: seq<Deal>, mids: map<string, real>, key: string): real
    requires AllPositive(deals)
  {
    var pos := After(deals);
    Dust(deals) + pos.net * Carried(pos, mids, key) - Bought(deals) * At(mids, key)
  }

  lemma {:induction false} DealsAllPositive(events: seq<Event>)
    requires Proper(events)
    ensures forall key: string :: AllPositive(Deals(events, key))
  {
    forall key: string ensures AllPositive(Deals(events, key)) { DealsPositive(events, key); }
  }

  ghost function Deviations(events: seq<Event>, mids: map<string, real>): map<string, real>
    requires Proper(events)
  {
    DealsAllPositive(events);
    map k | k in Traded(events) :: Deviation(Deals(events, k), mids, k)
  }

  /** One instrument: realized profit and paper profit are the cash and the
      holding at mid, and the deviation. */
  lemma {:induction false} PositionWorth(pos: Position, deals: seq<Deal>, mids: map<string, real>, key: string)
    requires AllPositive(deals) && SameBooks(pos, After(deals))
    ensures pos.realized + Paper(pos, mids, key) == Worth(deals, At(mids, key)) + Deviation(deals, mids, key)
  {
    hide After, Dust, Cash, Bought;
    BooksFollowCash(deals);
    if key in mids { Distribute3(pos.net, mids[key], pos.avg); }
  }

  /** What the deviation is. An instrument without a mid contributes its
      realized profit. One with a mid deviates by the dust it dropped, valued at
      its fills less at mid, and by the paper profit of a dust holding, which
      the collector skips; not at all if its running holding was never dust. */
  lemma {:induction false} DeviationMeans(deals: seq<Deal>, mids: map<string, real>, key: string)
    requires AllPositive(deals)
    ensures key !in mids ==>
              Worth(deals, At(mids, key)) + Deviation(deals, mids, key) == After(deals).realized
    ensures key in mids ==>
              var pos := After(deals);
              Deviation(deals, mids, key)
              == Dust(deals) - (Bought(deals) - pos.net) * mids[key]
                 - (if Abs(pos.net) < EPS then pos.net * (mids[key] - pos.avg) else 0.0)
    ensures key in mids && Clear(deals) ==> Deviation(deals, mids, key) == 0.0
  {
    hide After, Dust, NetRight, Cash, Bought;
    var pos := After(deals);
    BooksFollowCash(deals);
    if key in mids {
      Distribute3(pos.net, mids[key], pos.avg);
      assert (Bought(deals) - pos.net) * mids[key] == Bought(deals) * mids[key] - pos.net * mids[key];
      if Clear(deals) {
        ClearNoDust(deals);
        NetFollows(deals);
        assert ClearAt(deals, |deals|) && deals[..|deals|] == deals;
      }
    }
  }

  lemma {:induction false} SumZeros(m: map<string, real>)
    requires forall k :: k in m ==> m[k] == 0.0
    ensures Sum(m) == 0.0
    decreases |m|
  {
    if m != map[] {
      var k :| k in m;
      SumRemove(m, k);
      SumZeros(m - {k});
    }
  }

  lemma {:induction false} CollectKeeps(b: Books, events: seq<Event>)
    requires Proper(events)
    ensures var b' := Collect(b, events);
            && b'.capital == b.capital && b'.fees == b.fees
            && b'.feesPaid == b.feesPaid + Fees(events, b.fees)
  {
    hide BookDeal, FeeOf, Sum, Realized, Unrealized, Fees;
    if events == [] {
      NoFees(events, b.fees);
    } else {
      var n := |events| - 1;
      CollectKeeps(b, events[..n]);
      FeesSnoc(events[..n], events[n], b.fees);
      assert events[..n] + [events[n]] == events;
      if events[n].FillEvent? { BookDealPositions(Collect(b, events[..n]), events[n].fill); }
    }
  }

  lemma {:induction false} WorthsAndDeviations(b0: Books, events: seq<Event>)
    requires Proper(events) && b0.positions == map[] && b0.mids == map[]
    ensures var b := Collect(b0, events);
            Sum(Realized(b.positions)) + Sum(Unrealized(b.positions, b.mids))
            == Sum(Worths(events, b.mids)) + Sum(Deviations(events, b.mids))
  {
    hide Collect, Sum, Clear, Worth, Deals, Paper, Deviation, Carried;
    var b := Collect(b0, events);
    var realized, paper := Realized(b.positions), Unrealized(b.positions, b.mids);
    var worths, deviations := Worths(events, b.mids), Deviations(events, b.mids);
    var both := map k | k in worths :: worths[k] + deviations[k];
    forall key: string
      ensures key in b.positions <==> key in worths
      ensures key in worths ==> both[key] == realized[key] + paper[key]
    {
      PositionsFollow(b0, events, key);
      TradedHasDeals(events, key);
      if key in worths { PositionWorth(b.positions[key], Deals(events, key), b.mids, key); }
    }
    assert realized.Keys == paper.Keys == both.Keys == worths.Keys == deviations.Keys;
    SumPointwise(realized, paper, both);
    SumPointwise(worths, deviations, both);
  }

  /** Equity, for any fills and snapshots: the starting capital, plus every fill
      marked to mid, less the fees, plus each instrument's deviation (see
      DeviationMeans). */
  lemma {:induction false} EquityOfRun(capital: real, fees: map<string, Rates>, events: seq<Event>)
    requires Proper(events)
    ensures var b := Collect(EmptyBooks(capital, fees), events);
            Equity(b)
            == capital + MarkedFills(events, b.mids) + Sum(Deviations(events, b.mids)) - Fees(events, fees)
  {
    hide Collect, Sum, Worths, Deviations, Realized, Unrealized, MarkedFills, Fees;
    var b0 := EmptyBooks(capital, fees);
    CollectKeeps(b0, events);
    WorthsAndDeviations(b0, events);
    WorthsByFill(events, Collect(b0, events).mids);
  }

  /** The fees paid over any run. */
  lemma {:induction false} FeesOfRun(capital: real, fees: map<string, Rates>, events: seq<Event>)
    requires Proper(events)
    ensures Collect(EmptyBooks(capital, fees), events).feesPaid == Sum(VenueFees(events, fees))
    ensures VenueFees(events, fees).Keys == fees.Keys
    ensures forall v :: v in fees ==>
              VenueFees(events, fees)[v]
              == (Turnover(events, v, Taker) * fees[v].takerBps + Turnover(events, v, Maker) * fees[v].makerBps)
                 / 10000.0
  {
    hide Collect, Sum, Turnover;
    CollectKeeps(EmptyBooks(capital, fees), events);
  }

  /** Equity does not depend on the path. If no running holding was dust and
      every instrument traded has a mid, it is the starting capital, plus every
      fill marked to mid, less the fees. */
  lemma {:induction false} EquityWhenClear(capital: real, fees: map<string, Rates>, events: seq<Event>)
    requires Proper(events) && AllClear(events)
    requires forall key :: key in Traded(events) ==> key in Collect(EmptyBooks(capital, fees), events).mids
    ensures var b := Collect(EmptyBooks(capital, fees), events);
            Equity(b) == capital + MarkedFills(events, b.mids) - Fees(events, fees)
  {
    hide Collect, Sum, Clear, Deviation, MarkedFills, Fees, Deals, Equity;
    var b := Collect(EmptyBooks(capital, fees), events);
    EquityOfRun(capital, fees, events);
    var deviations := Deviations(events, b.mids);
    forall key | key in deviations ensures deviations[key] == 0.0 {
      DealsPositive(events, key);
      DeviationMeans(Deals(events, key), b.mids, key);
    }
    SumZeros(deviations);
  }

  // --- Round trips and rows ----------------------------------------------------------------------

  function TripSum(trips: seq<Trip>): real {
    if trips == [] then 0.0 else TripSum(trips[..|trips| - 1]) + trips[|trips| - 1].realized
  }

  function RowSum(rows: seq<Row>): real {
    if rows == [] then 0.0 else RowSum(rows[..|rows| - 1]) + rows[|rows| - 1].realized
  }

  /** Nothing is open where nothing is held. */
  ghost predicate OpenOk(b: Books) {
    forall key: string :: IsFlat(PositionAt(b, key).net) ==> At(b.open, key) == 0.0
  }

  lemma {:induction false} FlatGainsNothing(pos: Position, d: Deal)
    requires d.qty > 0.0 && pos.net == 0.0
    ensures ApplyFill(pos, d).1 == 0.0
  {
  }

  lemma {:induction false} RealizedUpdate(positions: map<string, Position>, key: string, p: Position)
    ensures Sum(Realized(positions[key := p]))
         == Sum(Realized(positions)) - (if key in positions then positions[key].realized else 0.0) + p.realized
  {
    hide Sum;
    SumUpdate(Realized(positions), key, p.realized);
    assert Realized(positions[key := p]) == Realized(positions)[key := p.realized];
  }

  /** The fill finds its instrument flat or holding more than dust. */
  predicate FindsClear(b: Books, f: Fill) {
    var net := PositionAt(b, KeyOfFill(f)).net;
    net == 0.0 || Abs(net) > EPS
  }

  lemma {:induction false} OpenStep(b: Books, f: Fill)
    requires f.qty > 0.0 && OpenOk(b) && FindsClear(b, f)
    ensures OpenOk(BookDeal(b, f).0)
  {
    hide ApplyFill, FeeOf;
    var key := KeyOfFill(f);
    var pos := PositionAt(b, key);
    var b' := BookDeal(b, f).0;
    if IsFlat(pos.net) { FlatGainsNothing(pos, DealOf(f)); }
    forall k: string | IsFlat(PositionAt(b', k).net) ensures At(b'.open, k) == 0.0 {
      if k != key { assert PositionAt(b', k) == PositionAt(b, k); }
    }
  }

  /** What a fill forgets: the open profit that is reset when a holding is
      opened. */
  function ForgottenAt(b: Books, f: Fill): real
    requires f.qty > 0.0
  {
    var pos := PositionAt(b, KeyOfFill(f));
    var (p, gain) := ApplyFill(pos, DealOf(f));
    if IsFlat(pos.net) && !IsFlat(p.net) then At(b.open, KeyOfFill(f)) + gain else 0.0
  }

  /** What the fill adds to the open profit of its instrument, to the closed
      trips and to what is forgotten is what it realizes. */
  lemma {:induction false} OpenMoves(b: Books, f: Fill)
    requires f.qty > 0.0
    ensures var key := KeyOfFill(f);
            var (b', gain) := BookDeal(b, f);
            && key in b'.open && b'.open == b.open[key := b'.open[key]]
            && TripSum(b'.trips) + b'.open[key] + ForgottenAt(b, f) == TripSum(b.trips) + At(b.open, key) + gain
  {
    hide ApplyFill, FeeOf, TripSum;
    var key := KeyOfFill(f);
    var pos := PositionAt(b, key);
    var (p, gain) := ApplyFill(pos, DealOf(f));
    TripSnoc(b.trips, Trip(p.openTs, f.ts, At(b.open, key) + gain));
  }

  lemma {:induction false} NothingForgotten(b: Books, f: Fill)
    requires f.qty > 0.0 && OpenOk(b) && FindsClear(b, f)
    ensures ForgottenAt(b, f) == 0.0
  {
    hide ApplyFill;
    var pos := PositionAt(b, KeyOfFill(f));
    if IsFlat(pos.net) { FlatGainsNothing(pos, DealOf(f)); }
  }

  lemma {:induction false} TripSnoc(trips: seq<Trip>, trip: Trip)
    ensures TripSum(trips + [trip]) == TripSum(trips) + trip.realized
  {
    assert (trips + [trip])[..|trips|] == trips;
  }

  /** A fill keeps round trips, open profit and what is forgotten adding up. */
  lemma {:induction false} TripStep(b: Books, f: Fill)
    requires f.qty > 0.0
    ensures var b' := BookDeal(b, f).0;
            TripSum(b'.trips) + Sum(b'.open) + ForgottenAt(b, f) - Sum(Realized(b'.positions))
            == TripSum(b.trips) + Sum(b.open) - Sum(Realized(b.positions))
  {
    hide BookDeal, ApplyFill, Sum, Realized, ForgottenAt;
    OpenMoves(b, f);
    BookDealPositions(b, f);
    var key, b' := KeyOfFill(f), BookDeal(b, f).0;
    FillMovesCash(PositionAt(b, key), DealOf(f));
    SumUpdate(b.open, key, b'.open[key]);
    RealizedUpdate(b.positions, key, b'.positions[key]);
  }

  /** All that the fills of a run forget. */
  ghost function Forgotten(b: Books, events: seq<Event>): real
    requires Proper(events)
  {
    if events == [] then 0.0
    else
      var n := |events| - 1;
      Forgotten(b, events[..n])
      + if events[n].FillEvent? then ForgottenAt(Collect(b, events[..n]), events[n].fill) else 0.0
  }

  lemma {:induction false} ClearPrefix(events: seq<Event>)
    requires AllClear(events) && events != []
    ensures AllClear(events[..|events| - 1])
  {
    var most := events[..|events| - 1];
    forall key: string ensures Clear(Deals(most, key)) {
      assert Clear(Deals(events, key));
      var d := Deals(most, key);
      forall k | 0 <= k <= |d| ensures ClearAt(d, k) {
        assert ClearAt(Deals(events, key), k);
        assert Deals(events, key)[..k] == d[..k];
      }
    }
  }

  /** Round trips, for any fills: the closed ones, what is open and what was
      forgotten when a holding was opened on top of dust come to the total
      realized profit. */
  lemma {:induction false} TripsOfRun(capital: real, fees: map<string, Rates>, events: seq<Event>)
    requires Proper(events)
    ensures var b := Collect(EmptyBooks(capital, fees), events);
            TripSum(b.trips) + Sum(b.open) + Forgotten(EmptyBooks(capital, fees), events)
            == Sum(Realized(b.positions))
  {
    hide BookDeal, Sum, Realized, Unrealized, ResolveDue, NotDue, ForgottenAt;
    var b0 := EmptyBooks(capital, fees);
    if events == [] {
      NothingRealized(b0);
    } else {
      var n := |events| - 1;
      TripsOfRun(capital, fees, events[..n]);
      if events[n].FillEvent? { TripStep(Collect(b0, events[..n]), events[n].fill); }
    }
  }

  /** Nothing is forgotten as long as no running holding was dust, and nothing
      is open where nothing is held: closed trips and open profit come to the
      total. */
  lemma {:induction false} TripsWhenClear(capital: real, fees: map<string, Rates>, events: seq<Event>)
    requires Proper(events) && AllClear(events)
    ensures var b := Collect(EmptyBooks(capital, fees), events);
            && TripSum(b.trips) + Sum(b.open) == Sum(Realized(b.positions)) && OpenOk(b)
            && Forgotten(EmptyBooks(capital, fees), events) == 0.0
  {
    hide BookDeal, Sum, Realized, Unrealized, After, ResolveDue, NotDue, ForgottenAt, TripSum;
    TripsOfRun(capital, fees, events);
    var b0 := EmptyBooks(capital, fees);
    if events != [] {
      var n := |events| - 1;
      var most, e := events[..n], events[n];
      ClearPrefix(events);
      TripsWhenClear(capital, fees, most);
      if e.FillEvent? {
        var key := KeyOfFill(e.fill);
        PositionsFollow(b0, most, key);
        ClearNow(Deals(most, key));
        OpenStep(Collect(b0, most), e.fill);
        NothingForgotten(Collect(b0, most), e.fill);
      }
    }
  }

  lemma {:induction false} NothingRealized(b: Books)
    requires b.positions == map[] && b.open == map[]
    ensures Sum(b.open) == 0.0 == Sum(Realized(b.positions))
  {
    assert Realized(b.positions) == map[];
  }

  lemma {:induction false} ClearNow(deals: seq<Deal>)
    requires AllPositive(deals) && Clear(deals)
    ensures After(deals).net == 0.0 || Abs(After(deals).net) > EPS
  {
    ClearNoDust(deals);
    assert ClearAt(deals, |deals|) && deals[..|deals|] == deals;
  }

  lemma {:induction false} ResolveKeeps(rows: seq<Row>, pending: seq<Pending>, mids: map<string, real>, ts: nat, i: nat)
    requires i < |rows|
    ensures var r := ResolveDue(rows, pending, mids, ts);
            r[i] == rows[i].(markouts := r[i].markouts)
  {
    if pending != [] {
      ResolveKeeps(rows, pending[..|pending| - 1], mids, ts, i);
    }
  }

  lemma {:induction false} SameRowSum(a: seq<Row>, b: seq<Row>)
    requires |a| == |b| && forall i :: 0 <= i < |a| ==> a[i].realized == b[i].realized
    ensures RowSum(a) == RowSum(b)
  {
    if a != [] { SameRowSum(a[..|a| - 1], b[..|b| - 1]); }
  }

  function FillsOf(events: seq<Event>): seq<Fill> {
    if events == [] then []
    else
      var n := |events| - 1;
      FillsOf(events[..n]) + if events[n].FillEvent? then [events[n].fill] else []
  }

  lemma {:induction false} FillHandled(b: Books, x: Event)
    requires x.FillEvent? && x.fill.qty > 0.0
    ensures var b' := Handle(b, x);
            && |b'.rows| == |b.rows| + 1 && b'.rows[..|b.rows|] == b.rows
            && b'.pending == b.pending + Markouts(|b.rows|, x.fill.ts)
            && b'.rows[|b.rows|].fill == x.fill && b'.rows[|b.rows|].markouts == UNMARKED
            && b'.rows[|b.rows|].fee == FeeOf(b.fees, x.fill)
  {
    hide BookDeal, Equity, FeeOf;
    BookDealPositions(b, x.fill);
  }

  lemma {:induction false} TouchHandled(b: Books, x: Event)
    requires x.TouchEvent?
    ensures var b', mids := Handle(b, x), MidsAfter(b.mids, x.touch);
            && b'.rows == ResolveDue(b.rows, b.pending, mids, x.touch.ts)
            && b'.pending == NotDue(b.pending, x.touch.ts)
            && b'.mids == mids
  {
    hide MidsAfter, ResolveDue, NotDue;
  }

  lemma {:induction false} RowSumSnoc(rows: seq<Row>, after: seq<Row>)
    requires |after| == |rows| + 1 && after[..|rows|] == rows
    ensures RowSum(after) == RowSum(rows) + after[|rows|].realized
  {
  }

  lemma {:induction false} FillRow(b: Books, x: Event)
    requires x.FillEvent? && x.fill.qty > 0.0
    ensures var b' := Handle(b, x);
            RowSum(b'.rows) - Sum(Realized(b'.positions)) == RowSum(b.rows) - Sum(Realized(b.positions))
  {
    hide BookDeal, ApplyFill, Equity, FeeOf, Sum, Realized, RowSum;
    var key := KeyOfFill(x.fill);
    BookDealPositions(b, x.fill);
    FillMovesCash(PositionAt(b, key), DealOf(x.fill));
    RealizedUpdate(b.positions, key, BookDeal(b, x.fill).0.positions[key]);
    FillHandled(b, x);
    RowSumSnoc(b.rows, Handle(b, x).rows);
  }

  lemma {:induction false} TouchRows(b: Books, x: Event)
    requires x.TouchEvent?
    ensures var b' := Handle(b, x);
            && RowSum(b'.rows) == RowSum(b.rows) && b'.positions == b.positions && |b'.rows| == |b.rows|
            && forall i :: 0 <= i < |b.rows| ==>
                 b'.rows[i].fill == b.rows[i].fill && b'.rows[i].fee == b.rows[i].fee
  {
    hide ResolveDue, NotDue, MidsAfter;
    var b', mids := Handle(b, x), MidsAfter(b.mids, x.touch);
    forall i | 0 <= i < |b.rows| ensures b'.rows[i] == b.rows[i].(markouts := b'.rows[i].markouts) {
      ResolveKeeps(b.rows, b.pending, mids, x.touch.ts, i);
    }
    SameRowSum(b.rows, b'.rows);
  }

  /** A fill pays its venue's rate for its role on what it came to; nothing where
      there are no rates. */
  predicate Pays(f: Fill, fees: map<string, Rates>, fee: real) {
    if f.exchange !in fees then fee == 0.0
    else
      match f.role
      case Taker => fee == f.qty * f.price * fees[f.exchange].takerBps / 10000.0
      case Maker => fee == f.qty * f.price * fees[f.exchange].makerBps / 10000.0
  }

  lemma {:induction false} FeePays(f: Fill, fees: map<string, Rates>)
    ensures Pays(f, fees, FeeOf(fees, f))
  {
  }

  /** One row per fill, in order, each with its fee, and the rows' profits add up
      to the total, dust or no dust. */
  lemma {:induction false} RowsOfRun(capital: real, fees: map<string, Rates>, events: seq<Event>)
    requires Proper(events)
    ensures var b := Collect(EmptyBooks(capital, fees), events);
            && RowSum(b.rows) == Sum(Realized(b.positions))
            && |b.rows| == |FillsOf(events)|
            && (forall i :: 0 <= i < |b.rows| ==> b.rows[i].fill == FillsOf(events)[i])
            && forall i :: 0 <= i < |b.rows| ==> Pays(b.rows[i].fill, fees, b.rows[i].fee)
  {
    hide Handle, Sum, Realized, RowSum, Pays;
    var b0 := EmptyBooks(capital, fees);
    if events == [] {
      NothingRealized(b0);
      NoRows();
    } else {
      var n := |events| - 1;
      var b := Collect(b0, events[..n]);
      RowsOfRun(capital, fees, events[..n]);
      if events[n].FillEvent? {
        FillHandled(b, events[n]);
        FillRow(b, events[n]);
        CollectKeeps(b0, events[..n]);
        FeePays(events[n].fill, fees);
        forall i | 0 <= i < |b.rows| ensures Handle(b, events[n]).rows[i] == b.rows[i] {
          assert Handle(b, events[n]).rows[..|b.rows|][i] == b.rows[i];
        }
      } else {
        TouchRows(b, events[n]);
      }
    }
  }

  lemma {:induction false} NoRows()
    ensures RowSum([]) == 0.0
  {
  }

  // --- Equity along the way ---------------------------------------------------------------------

  /** Recording a fill moves no money. */
  lemma {:induction false} RecordedEquity(b: Books, x: Event)
    requires x.FillEvent? && x.fill.qty > 0.0
    ensures var b' := Handle(b, x);
            && |b'.rows| == |b.rows| + 1 && b'.rows[|b.rows|].equity == Equity(b')
            && b'.curve == b.curve + [(x.fill.ts, Equity(b'))]
  {
    hide BookDeal, FeeOf, Sum, Realized, Unrealized;
    BookDealPositions(b, x.fill);
    var r := BookDeal(b, x.fill);
    assert Handle(b, x) == Record(r.0, x.fill, r.1);
    assert r.0.curve == b.curve by { BookDealCurve(b, x.fill); }
  }

  lemma {:induction false} BookDealCurve(b: Books, f: Fill)
    requires f.qty > 0.0
    ensures BookDeal(b, f).0.curve == b.curve
  {
    hide ApplyFill, FeeOf;
  }

  lemma {:induction false} TouchCurve(b: Books, x: Event)
    requires x.TouchEvent?
    ensures var b' := Handle(b, x);
            && b'.curve == b.curve && |b'.rows| == |b.rows|
            && forall i :: 0 <= i < |b.rows| ==> b'.rows[i].equity == b.rows[i].equity
  {
    hide ResolveDue, NotDue, MidsAfter;
    var mids := MidsAfter(b.mids, x.touch);
    forall i | 0 <= i < |b.rows| ensures Handle(b, x).rows[i].equity == b.rows[i].equity {
      ResolveKeeps(b.rows, b.pending, mids, x.touch.ts, i);
    }
  }

  /** The row of fill event `e`, and its point on the curve, carry the equity as it
      was once that fill was booked. */
  ghost predicate CurveOk(b: Books, capital: real, fees: map<string, Rates>, events: seq<Event>, e: nat)
    requires Proper(events) && e < |events| && events[e].FillEvent?
  {
    var i, now := |FillsOf(events[..e])|, Equity(Collect(EmptyBooks(capital, fees), events[..e + 1]));
    && i < |b.rows| && b.rows[i].equity == now
    && i + 1 < |b.curve| && b.curve[i + 1] == (events[e].fill.ts, now)
  }

  /** The equity curve of any run: it starts at time 0 with the capital, has one
      point for every fill, in order, and each is the equity at that fill. */
  lemma {:induction false} CurveOfRun(capital: real, fees: map<string, Rates>, events: seq<Event>)
    requires Proper(events)
    ensures var b := Collect(EmptyBooks(capital, fees), events);
            && |b.curve| == |FillsOf(events)| + 1 == |b.rows| + 1 && b.curve[0] == (0, capital)
            && forall e :: 0 <= e < |events| && events[e].FillEvent? ==> CurveOk(b, capital, fees, events, e)
  {
    hide Handle, Equity;
    var b0 := EmptyBooks(capital, fees);
    if events != [] {
      var n := |events| - 1;
      var most, x := events[..n], events[n];
      var b := Collect(b0, most);
      CurveOfRun(capital, fees, most);
      if x.FillEvent? { RecordedEquity(b, x); FillHandled(b, x); } else { TouchCurve(b, x); }
      forall e | 0 <= e < |events| && events[e].FillEvent?
        ensures CurveOk(Collect(b0, events), capital, fees, events, e)
      {
        assert events[..e] == most[..e];
        if e < n {
          assert CurveOk(b, capital, fees, most, e);
          assert events[..e + 1] == most[..e + 1];
          CurveStays(b, x, |FillsOf(events[..e])|);
        } else {
          assert events[..e + 1] == events && most[..e] == most;
        }
      }
    }
  }

  lemma {:induction false} CurveStays(b: Books, x: Event, i: nat)
    requires (x.FillEvent? ==> x.fill.qty > 0.0) && i < |b.rows| && i + 1 < |b.curve|
    ensures var b' := Handle(b, x);
            i < |b'.rows| && b'.rows[i].equity == b.rows[i].equity
            && i + 1 < |b'.curve| && b'.curve[i + 1] == b.curve[i + 1]
  {
    hide Handle, Equity;
    if x.FillEvent? {
      RecordedEquity(b, x);
      FillHandled(b, x);
      assert Handle(b, x).rows[..|b.rows|][i] == b.rows[i];
    } else {
      TouchCurve(b, x);
    }
  }

  // --- Markouts ---------------------------------------------------------------------------------------

  /** The mid of an instrument after these events: of its last two-sided
      snapshot. */
  function MidOf(events: seq<Event>, key: string): Option<real> {
    if events == [] then None
    else
      var n := |events| - 1;
      var e := events[n];
      if e.TouchEvent? && Key(e.touch.exchange, e.touch.symbol) == key && e.touch.bid > 0.0 && e.touch.ask > 0.0
      then Some((e.touch.bid + e.touch.ask) * 0.5)
      else MidOf(events[..n], key)
  }

  /** The first snapshot, of any instrument, at or after `target`. */
  function FirstAt(events: seq<Event>, from: nat, target: nat): (j: nat)
    requires from <= |events|
    ensures from <= j <= |events|
    ensures j < |events| ==> events[j].TouchEvent? && events[j].touch.ts >= target
    ensures forall k :: from <= k < j && events[k].TouchEvent? ==> events[k].touch.ts < target
    decreases |events| - from
  {
    if from == |events| || (events[from].TouchEvent? && events[from].touch.ts >= target) then from
    else FirstAt(events, from + 1, target)
  }

  /** How far the mid has moved from the fill's price, in basis points of that
      price: up for a buyer, down for a seller. */
  function Move(f: Fill, mid: real): real
    requires f.price > 0.0
  {
    match f.side
    case Buy => 10000.0 * (mid - f.price) / f.price
    case Sell => 10000.0 * (f.price - mid) / f.price
  }

  lemma {:induction false} BpsIsMove(f: Fill, mid: real)
    requires f.price > 0.0
    ensures Bps(f, mid) == Move(f, mid)
  {
    var d, p := mid - f.price, f.price;
    assert d / p * 10000.0 == 10000.0 * d / p;
    assert -(10000.0 * d / p) == 10000.0 * (-d) / p;
  }

  /** The markout a fill should carry, by definition. */
  function Markout(events: seq<Event>, e: nat, h: nat): real
    requires e < |events| && events[e].FillEvent? && h < |HORIZONS|
  {
    var f := events[e].fill;
    var j := FirstAt(events, e + 1, f.ts + HORIZONS[h]);
    if j == |events| then UNRESOLVED
    else
      match MidOf(events[..j + 1], KeyOfFill(f))
      case Some(mid) => if f.price > 0.0 then Move(f, mid) else UNRESOLVED
      case None => UNRESOLVED
  }

  lemma {:induction false} MidsFollow(b: Books, events: seq<Event>, key: string)
    requires Proper(events) && b.mids == map[]
    ensures var mids := Collect(b, events).mids;
            (key in mids <==> MidOf(events, key).Some?) && (key in mids ==> MidOf(events, key) == Some(mids[key]))
  {
    hide BookDeal, Sum, Realized, Unrealized, ResolveDue, NotDue;
    if events != [] {
      var n := |events| - 1;
      MidsFollow(b, events[..n], key);
      if events[n].FillEvent? { BookDealPositions(Collect(b, events[..n]), events[n].fill); }
    }
  }

  lemma {:induction false} FirstSnoc(most: seq<Event>, x: Event, from: nat, target: nat)
    requires from <= |most|
    ensures FirstAt(most + [x], from, target)
         == var j := FirstAt(most, from, target);
            if j < |most| || (x.TouchEvent? && x.touch.ts >= target) then j else |most| + 1
    decreases |most| - from
  {
    if from < |most| && !(most[from].TouchEvent? && most[from].touch.ts >= target) {
      FirstSnoc(most, x, from + 1, target);
    }
  }

  /** Every entry that waits belongs to a row and waits for its horizon. */
  predicate PendingOk(b: Books) {
    forall p :: p in b.pending ==>
      p.row < |b.rows| && p.horizon < |HORIZONS| && p.target == b.rows[p.row].fill.ts + HORIZONS[p.horizon]
  }

  lemma {:induction false} NotDueIn(pending: seq<Pending>, ts: nat, p: Pending)
    ensures p in NotDue(pending, ts) <==> p in pending && ts < p.target
  {
    if pending != [] {
      NotDueIn(pending[..|pending| - 1], ts, p);
      assert pending == pending[..|pending| - 1] + [pending[|pending| - 1]];
    }
  }

  /** One pass over the pending entries, seen from one row and horizon. */
  lemma {:induction false} ResolveAt(rows: seq<Row>, pending: seq<Pending>, mids: map<string, real>, ts: nat,
                                     i: nat, h: nat)
    requires i < |rows| && h < |HORIZONS|
    requires forall p :: p in pending && p.row == i && p.horizon == h ==> p.target == rows[i].fill.ts + HORIZONS[h]
    ensures var f := rows[i].fill;
            var due := Pending(i, h, f.ts + HORIZONS[h]) in pending && ts >= f.ts + HORIZONS[h];
            ResolveDue(rows, pending, mids, ts)[i].markouts[h]
            == if due && KeyOfFill(f) in mids && f.price > 0.0 then Bps(f, mids[KeyOfFill(f)])
               else rows[i].markouts[h]
  {
    hide Bps;
    if pending != [] {
      var n := |pending| - 1;
      var most, p := pending[..n], pending[n];
      assert pending == most + [p];
      ResolveAt(rows, most, mids, ts, i, h);
      ResolveKeeps(rows, most, mids, ts, i);
    }
  }

  lemma {:induction false} PendingStep(b: Books, e: Event)
    requires (e.FillEvent? ==> e.fill.qty > 0.0) && PendingOk(b)
    ensures PendingOk(Handle(b, e))
  {
    hide BookDeal, Sum, Realized, Unrealized, MidsAfter, FeeOf;
    if e.FillEvent? {
      BookDealPositions(b, e.fill);
    } else {
      var b' := Handle(b, e);
      forall p | p in b'.pending
        ensures p.row < |b'.rows| && p.horizon < |HORIZONS| && p.target == b'.rows[p.row].fill.ts + HORIZONS[p.horizon]
      {
        NotDueIn(b.pending, e.touch.ts, p);
        ResolveKeeps(b.rows, b.pending, MidsAfter(b.mids, e.touch), e.touch.ts, p.row);
      }
    }
  }

  lemma {:induction false} PendingOfRun(b: Books, events: seq<Event>)
    requires Proper(events) && b.pending == []
    ensures PendingOk(Collect(b, events))
  {
    hide Handle;
    if events != [] {
      PendingOfRun(b, events[..|events| - 1]);
      PendingStep(Collect(b, events[..|events| - 1]), events[|events| - 1]);
    }
  }

  /** Which row a fill event made. */
  function RowOf(events: seq<Event>, e: nat): nat
    requires e < |events|
  {
    |FillsOf(events[..e])|
  }

  /** The row of fill event `e` carries the markout it should, and waits for it
      exactly until the first snapshot at or after its target. */
  predicate MarkoutOk(b: Books, events: seq<Event>, e: nat, h: nat)
    requires e < |events| && events[e].FillEvent? && h < |HORIZONS|
  {
    var f, i := events[e].fill, RowOf(events, e);
    var target := f.ts + HORIZONS[h];
    && i < |b.rows| && b.rows[i].fill == f
    && b.rows[i].markouts[h] == Markout(events, e, h)
    && (Pending(i, h, target) in b.pending <==> FirstAt(events, e + 1, target) == |events|)
  }

  lemma {:induction false} NewEntries(row: nat, ts: nat)
    ensures forall p :: p in Markouts(row, ts) ==> p.row == row
    ensures forall h :: 0 <= h < |HORIZONS| ==> Pending(row, h, ts + HORIZONS[h]) in Markouts(row, ts)
  {
    var all := Markouts(row, ts);
    forall h | 0 <= h < |HORIZONS| ensures Pending(row, h, ts + HORIZONS[h]) in all {
      assert all[h] == Pending(row, h, ts + HORIZONS[h]);
    }
  }

  /** A later fill does not move a markout. */
  lemma {:induction false} MarkoutStays(most: seq<Event>, x: Event, e: nat, h: nat)
    requires x.FillEvent? && e < |most| && most[e].FillEvent? && h < |HORIZONS|
    ensures var target := most[e].fill.ts + HORIZONS[h];
            FirstAt(most + [x], e + 1, target) == |most| + 1 <==> FirstAt(most, e + 1, target) == |most|
    ensures Markout(most + [x], e, h) == Markout(most, e, h)
  {
    hide FirstAt, MidOf, Move;
    FirstSnoc(most, x, e + 1, most[e].fill.ts + HORIZONS[h]);
    var j := FirstAt(most, e + 1, most[e].fill.ts + HORIZONS[h]);
    if j < |most| { assert (most + [x])[..j + 1] == most[..j + 1]; }
  }

  /** A later fill changes nothing. */
  lemma {:induction false} MarkoutAfterFill(b: Books, most: seq<Event>, x: Event, e: nat, h: nat)
    requires x.FillEvent? && x.fill.qty > 0.0
    requires e < |most| && most[e].FillEvent? && h < |HORIZONS| && MarkoutOk(b, most, e, h)
    ensures MarkoutOk(Handle(b, x), most + [x], e, h)
  {
    hide Handle, Markout, FillsOf, FirstAt, Markouts;
    FillHandled(b, x);
    MarkoutStays(most, x, e, h);
    NewEntries(|b.rows|, x.fill.ts);
    assert (most + [x])[..e] == most[..e];
    var i := RowOf(most, e);
    assert Handle(b, x).rows[i] == Handle(b, x).rows[..|b.rows|][i];
  }

  /** A new fill waits. */
  lemma {:induction false} MarkoutOfNew(b: Books, most: seq<Event>, x: Event, h: nat)
    requires x.FillEvent? && x.fill.qty > 0.0 && h < |HORIZONS| && |b.rows| == |FillsOf(most)|
    ensures MarkoutOk(Handle(b, x), most + [x], |most|, h)
  {
    hide Handle, MidOf, Move;
    FillHandled(b, x);
    NewEntries(|b.rows|, x.fill.ts);
    assert (most + [x])[..|most|] == most;
  }

  /** A snapshot takes the markouts that are due. */
  lemma {:induction false} MarkoutAfterTouch(b: Books, most: seq<Event>, x: Event, e: nat, h: nat)
    requires x.TouchEvent? && PendingOk(b)
    requires e < |most| && most[e].FillEvent? && h < |HORIZONS| && MarkoutOk(b, most, e, h)
    requires var key := KeyOfFill(most[e].fill);
             var mids := MidsAfter(b.mids, x.touch);
             (key in mids <==> MidOf(most + [x], key).Some?)
             && (key in mids ==> MidOf(most + [x], key) == Some(mids[key]))
    ensures MarkoutOk(Handle(b, x), most + [x], e, h)
  {
    hide Handle, MidOf, Bps, Move, MidsAfter, ResolveDue, NotDue, FirstAt, FillsOf;
    TouchHandled(b, x);
    var events, f, i := most + [x], most[e].fill, RowOf(most, e);
    if f.price > 0.0 && KeyOfFill(f) in MidsAfter(b.mids, x.touch) {
      BpsIsMove(f, MidsAfter(b.mids, x.touch)[KeyOfFill(f)]);
    }
    var target := f.ts + HORIZONS[h];
    var mids := MidsAfter(b.mids, x.touch);
    FirstSnoc(most, x, e + 1, target);
    var j := FirstAt(most, e + 1, target);
    ResolveAt(b.rows, b.pending, mids, x.touch.ts, i, h);
    ResolveKeeps(b.rows, b.pending, mids, x.touch.ts, i);
    NotDueIn(b.pending, x.touch.ts, Pending(i, h, target));
    assert events[..e] == most[..e];
    if j < |most| {
      assert events[..j + 1] == most[..j + 1];
    } else {
      assert events[..|most| + 1] == events;
    }
  }

  /** Markouts. Over any run, the markout of a fill at a horizon is taken once,
      by the first snapshot - of any instrument - at or after its target time,
      against the fill's own instrument's mid at that moment; if there is none
      then, the markout stays unresolved for good. */
  lemma {:induction false} MarkoutsOfRun(capital: real, fees: map<string, Rates>, events: seq<Event>, e: nat, h: nat)
    requires Proper(events) && e < |events| && events[e].FillEvent? && h < |HORIZONS|
    ensures MarkoutOk(Collect(EmptyBooks(capital, fees), events), events, e, h)
  {
    hide Handle, MarkoutOk, FillsOf;
    var b0 := EmptyBooks(capital, fees);
    var n := |events| - 1;
    var most, x := events[..n], events[n];
    assert most + [x] == events;
    var b := Collect(b0, most);
    if e < n {
      MarkoutsOfRun(capital, fees, most, e, h);
      if x.FillEvent? {
        MarkoutAfterFill(b, most, x, e, h);
      } else {
        PendingOfRun(b0, most);
        MidsFollow(b0, events, KeyOfFill(most[e].fill));
        TouchHandled(b, x);
        MarkoutAfterTouch(b, most, x, e, h);
      }
    } else {
      RowsOfRun(capital, fees, most);
      MarkoutOfNew(b, most, x, h);
    }
  }
}
