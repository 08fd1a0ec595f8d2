/** Two short runs in which dust shows in the collector's numbers. */
module ResultsExamples {
  import opened Orders
  import opened AverageCost
  import opened MapSums
  import opened ResultsModel
  import opened ResultsRuns

  const KEY := Key("OKX", "BTC")

  function DealAt(side: Side, qty: real, price: real): Fill {
    Fill("OKX", "BTC", 7, Limit, side, Maker, qty, price, 0)
  }

  // --- A holding opened on top of dust ------------------------------------------------------

  const BOUGHT := DealAt(Buy, 1.0, 1.0)

  /** All but half of the tolerance is sold again, which closes the trip. */
  const SOLD := DealAt(Sell, 1.0 - EPS / 2.0, 2.0)

  const SOLD_MORE := DealAt(Sell, 1.0, 3.0)

  lemma {:induction false} FillBooks(b: Books, f: Fill)
    requires f.qty > 0.0
    ensures var (b', d) := (Handle(b, FillEvent(f)), BookDeal(b, f).0);
            b'.positions == d.positions && b'.open == d.open
  {
    hide BookDeal, Equity, FeeOf;
  }

  predicate Holds(b: Books, net: real, avg: real, open: real) {
    var pos := PositionAt(b, KEY);
    pos.net == net && (net != 0.0 ==> pos.avg == avg) && At(b.open, KEY) == open
  }

  lemma {:induction false} AfterBuying(b: Books)
    requires Holds(b, 0.0, 0.0, 0.0)
    ensures Holds(Handle(b, FillEvent(BOUGHT)), 1.0, 1.0, 0.0) && ForgottenAt(b, BOUGHT) == 0.0
  {
    hide Handle, FeeOf;
    FillBooks(b, BOUGHT);
    assert Blend(PositionAt(b, KEY).avg, 0.0, 1.0, 1.0, 1.0) == 1.0;
  }

  lemma {:induction false} AfterSelling(b: Books)
    requires Holds(b, 1.0, 1.0, 0.0)
    ensures Holds(Handle(b, FillEvent(SOLD)), EPS / 2.0, 1.0, 0.0) && ForgottenAt(b, SOLD) == 0.0
  {
    hide Handle, FeeOf;
    FillBooks(b, SOLD);
  }

  lemma {:induction false} SellingOnDust(b: Books)
    requires Holds(b, EPS / 2.0, 1.0, 0.0)
    ensures ForgottenAt(b, SOLD_MORE) == EPS
  {
    hide Handle;
  }

  /** A trip closed on half a tolerance of dust, and a short opened on top of
      it: the profit of closing the dust is forgotten. */
  lemma {:induction false} ProfitForgotten()
    ensures var events := [FillEvent(BOUGHT), FillEvent(SOLD), FillEvent(SOLD_MORE)];
            Proper(events) && Forgotten(EmptyBooks(0.0, map[]), events) == EPS
  {
    hide Handle, ForgottenAt;
    var b0 := EmptyBooks(0.0, map[]);
    var e1, e2, e3 := FillEvent(BOUGHT), FillEvent(SOLD), FillEvent(SOLD_MORE);
    assert [e1, e2, e3][..2] == [e1, e2] && [e1, e2][..1] == [e1] && [e1][..0] == [];
    var b1 := Handle(b0, e1);
    var b2 := Handle(b1, e2);
    AfterBuying(b0);
    AfterSelling(b1);
    SellingOnDust(b2);
    assert Collect(b0, []) == b0 && Collect(b0, [e1]) == b1 && Collect(b0, [e1, e2]) == b2;
    assert Forgotten(b0, []) == 0.0 && Forgotten(b0, [e1]) == 0.0 && Forgotten(b0, [e1, e2]) == 0.0;
  }

  // --- Dust dropped by a flip ------------------------------------------------------------------

  lemma {:induction false} FlipOfDust(pos: Position, d: Deal)
    requires pos.net == 1.0 && d == Deal(Sell, 1.0 + EPS, 2.0)
    ensures ApplyFill(pos, d).0.net == 0.0 && DustValue(pos.net, d) == -EPS * 2.0
  {
  }

  lemma {:induction false} OneBought(d: Deal)
    requires d == Deal(Buy, 1.0, 2.0)
    ensures AllPositive([d]) && After([d]).net == 1.0 && Bought([d]) == 1.0 && Dust([d]) == 0.0
  {
    hide Blend;
    assert [d][..0] == [];
    assert After([]) == FLAT && Dust([]) == 0.0 && Bought([]) == 0.0;
  }

  lemma {:induction false} DustDeals(buy: Deal, sell: Deal)
    requires buy == Deal(Buy, 1.0, 2.0) && sell == Deal(Sell, 1.0 + EPS, 2.0)
    ensures AllPositive([buy, sell]) && After([buy, sell]).net == 0.0
    ensures Bought([buy, sell]) == -EPS && Dust([buy, sell]) == -EPS * 2.0
  {
    hide ApplyFill, DustValue;
    OneBought(buy);
    FlipOfDust(After([buy]), sell);
    assert [buy, sell][..1] == [buy];
  }

  /** One unit bought, a unit and a dust more sold at the same price: flat books,
      and an equity that is off by the dust's move to the mid. */
  lemma {:induction false} EquityDeviates()
    ensures var events := [TouchEvent(Touch(0, "OKX", "BTC", 3.0, 3.0)),
                           FillEvent(DealAt(Buy, 1.0, 2.0)), FillEvent(DealAt(Sell, 1.0 + EPS, 2.0))];
            var b := Collect(EmptyBooks(0.0, map[]), events);
            Proper(events) && KEY in b.mids && Sum(Deviations(events, b.mids)) == EPS
  {
    hide Sum, Deals, Deviation, Collect, Traded, After, Dust, Bought;
    var b0 := EmptyBooks(0.0, map[]);
    var e1, e2, e3 := TouchEvent(Touch(0, "OKX", "BTC", 3.0, 3.0)),
                      FillEvent(DealAt(Buy, 1.0, 2.0)), FillEvent(DealAt(Sell, 1.0 + EPS, 2.0));
    var events := [e1, e2, e3];
    MidsThen(b0, e1, e2, e3);
    var mids := Collect(b0, events).mids;
    DealsThen(e1, e2, e3);
    DustDeviates(Deals(events, KEY), mids);
    assert Deviations(events, mids) == map[][KEY := EPS];
    NothingSummed();
    SumUpdate(map[], KEY, EPS);
  }

  lemma {:induction false} NothingSummed()
    ensures Sum(map[]) == 0.0
  {
  }

  lemma {:induction false} MidsThen(b0: Books, e1: Event, e2: Event, e3: Event)
    requires e1 == TouchEvent(Touch(0, "OKX", "BTC", 3.0, 3.0)) && e2.FillEvent? && e3.FillEvent?
    requires e2.fill.qty > 0.0 && e3.fill.qty > 0.0 && b0.mids == map[]
    ensures Proper([e1, e2, e3]) && Collect(b0, [e1, e2, e3]).mids == map[KEY := 3.0]
  {
    hide BookDeal, Equity, FeeOf, ResolveDue, NotDue;
    assert [e1, e2, e3][..2] == [e1, e2] && [e1, e2][..1] == [e1] && [e1][..0] == [];
    var b1 := Handle(b0, e1);
    var b2 := Handle(b1, e2);
    BookDealPositions(b1, e2.fill);
    BookDealPositions(b2, e3.fill);
    assert Collect(b0, []) == b0 && Collect(b0, [e1]) == b1 && Collect(b0, [e1, e2]) == b2;
  }

  lemma {:induction false} DealsThen(e1: Event, e2: Event, e3: Event)
    requires e1.TouchEvent? && Concerns(e2, KEY) && Concerns(e3, KEY)
    ensures Traded([e1, e2, e3]) == {KEY}
    ensures Deals([e1, e2, e3], KEY) == [DealOf(e2.fill), DealOf(e3.fill)]
  {
    assert [e1, e2, e3][..2] == [e1, e2] && [e1, e2][..1] == [e1] && [e1][..0] == [];
    assert Traded([e1]) == {} && Traded([e1, e2]) == {KEY};
    hide DealOf;
    assert Deals([], KEY) == [] && Deals([e1], KEY) == [];
    assert [] + [DealOf(e2.fill)] == [DealOf(e2.fill)];
    assert Deals([e1, e2], KEY) == Deals([e1], KEY) + [DealOf(e2.fill)];
  }

  lemma {:induction false} DustDeviates(deals: seq<Deal>, mids: map<string, real>)
    requires deals == [Deal(Buy, 1.0, 2.0), Deal(Sell, 1.0 + EPS, 2.0)] && mids == map[KEY := 3.0]
    ensures AllPositive(deals) && Deviation(deals, mids, KEY) == EPS
  {
    hide After, Dust, Bought;
    DustDeals(deals[0], deals[1]);
    assert deals == [deals[0], deals[1]];
  }
}
