/** What the fill reports of one order must add up to, told from the engine's
history of acceptances, fills and cancels. */
module FillAccounts {
  import opened Orders

  /** The engine's history, oldest first. */
  datatype Entry = Accepted(order: Order) | Filled(report: Report) | Withdrawn(id: nat)

  /** The entry starts or ends the account of this id. */
  predicate Resets(e: Entry, id: nat) {
    (e.Accepted? && e.order.id == id) || (e.Withdrawn? && e.id == id)
  }

  /** The order last accepted under this id, as it was accepted, unless it has
      been cancelled since. */
  function Origin(log: seq<Entry>, id: nat): Option<Order> {
    if log == [] then None
    else
      var e := log[|log| - 1];
      if Resets(e, id) then (if e.Accepted? then Some(e.order) else None)
      else Origin(log[..|log| - 1], id)
  }

  /** The reports for this id since it was last accepted. */
  function Fills(log: seq<Entry>, id: nat): seq<Report> {
    if log == [] then []
    else
      var e := log[|log| - 1];
      if Resets(e, id) then []
      else if e.Filled? && e.report.orderId == id then Fills(log[..|log| - 1], id) + [e.report]
      else Fills(log[..|log| - 1], id)
  }

  function Entries(reports: seq<Report>): seq<Entry> {
    if reports == [] then [] else [Filled(reports[0])] + Entries(reports[1..])
  }

  /** Filled quantity of an order that was accepted as `o` and has these fills. */
  function Cum(o: Order, fills: seq<Report>): real {
    if fills == [] then o.filled else fills[|fills| - 1].cumQty
  }

  /** A limit is a limit. */
  predicate PriceHonoured(o: Order, px: int) {
    o.kind == Market || (o.side == Buy && px <= o.price) || (o.side == Sell && px >= o.price)
  }

  /** The kind that reports of an order carry: post-only orders are reported as
      limit orders. */
  function ReportedKind(kind: Kind): Kind {
    if kind == Market then Market else Limit
  }

  /** `r` is a correct next report for an order with `cum` already filled and
      more than dust to go. */
  predicate Follows(o: Order, cum: real, r: Report) {
    && o.quantity - cum > EPS
    && r.orderId == o.id && r.clientId == o.clientId && r.side == o.side
    && Key(r.exchange, r.symbol) == KeyOf(o)
    && r.kind == ReportedKind(o.kind) && r.originalQty == o.quantity
    && r.orderPrice == (if o.kind == Market then 0 else o.price)
    && o.kind != (if r.role == Taker then PostOnly else Market)
    && 0.0 < r.lastQty
    && r.cumQty == cum + r.lastQty <= o.quantity
    && (r.full <==> o.quantity - r.cumQty <= EPS)
    && PriceHonoured(o, r.lastPrice)
  }

  predicate AllTakers(fills: seq<Report>) {
    forall i :: 0 <= i < |fills| ==> fills[i].role == Taker
  }

  /** An order takes before it makes. */
  predicate InTurn(fills: seq<Report>, r: Report) {
    r.role == Taker ==> AllTakers(fills)
  }

  /** The fills of one order, each following the one before. */
  predicate Chain(o: Order, fills: seq<Report>) {
    fills == []
    || var n := |fills| - 1;
       Chain(o, fills[..n]) && Follows(o, Cum(o, fills[..n]), fills[n]) && InTurn(fills[..n], fills[n])
  }

  function LastQtySum(fills: seq<Report>): real {
    if fills == [] then 0.0 else LastQtySum(fills[..|fills| - 1]) + fills[|fills| - 1].lastQty
  }

  /** What a chain of fills amounts to: the quantities add up to the growth of
      the filled quantity, which climbs strictly and stays within the order;
      only the last report can be the closing one, and it is iff at most dust
      is left. */
  lemma {:induction false} ChainTotals(o: Order, fills: seq<Report>)
    requires Chain(o, fills)
    ensures LastQtySum(fills) == Cum(o, fills) - o.filled
    ensures fills != [] ==> o.filled < Cum(o, fills) <= o.quantity
    ensures forall i, j :: 0 <= i < j < |fills| ==> fills[i].cumQty < fills[j].cumQty
    ensures forall i :: 0 <= i < |fills| ==> o.filled < fills[i].cumQty <= o.quantity
    ensures forall i :: 0 <= i < |fills| ==>
              (fills[i].full <==> i == |fills| - 1 && o.quantity - Cum(o, fills) <= EPS)
  {
    if fills != [] {
      var n := |fills| - 1;
      ChainTotals(o, fills[..n]);
    }
  }

  /** Reports carry their order's kind if and only if it is not post-only. */
  lemma {:induction false} ChainKinds(o: Order, fills: seq<Report>)
    requires Chain(o, fills)
    ensures forall i :: 0 <= i < |fills| ==> (fills[i].kind == o.kind <==> o.kind != PostOnly)
  {
    if fills != [] {
      ChainKinds(o, fills[..|fills| - 1]);
    }
  }

  /** An order's taker reports come before its maker reports; a post-only order
      has none of the former, a market order none of the latter; and every report
      names the order's own limit. */
  lemma {:induction false} ChainRoles(o: Order, fills: seq<Report>)
    requires Chain(o, fills)
    ensures forall i, j :: 0 <= i < j < |fills| && fills[j].role == Taker ==> fills[i].role == Taker
    ensures forall i :: 0 <= i < |fills| ==>
              && (fills[i].role == Taker ==> o.kind != PostOnly)
              && (fills[i].role == Maker ==> o.kind != Market)
              && (o.kind != Market ==> fills[i].orderPrice == o.price)
  {
    if fills != [] {
      ChainRoles(o, fills[..|fills| - 1]);
    }
  }

  // --- Keeping the accounts ----------------------------------------------------

  /** `o` is the order accepted as `org`, later. */
  predicate SameTerms(org: Order, o: Order) {
    o == org.(filled := o.filled, seeded := o.seeded)
  }

  /** The history explains the filled quantity of the live order `o`. */
  predicate Tracks(log: seq<Entry>, o: Order) {
    var org := Origin(log, o.id);
    org.Some? && SameTerms(org.value, o) && Cum(org.value, Fills(log, o.id)) == o.filled
  }

  /** `o` has been accepted and nothing has happened to it since. */
  predicate Untried(log: seq<Entry>, o: Order) {
    Origin(log, o.id) == Some(o) && Fills(log, o.id) == []
  }

  /** The account of an order that can rest and has more than dust to fill. */
  predicate Open(log: seq<Entry>, id: nat) {
    var org := Origin(log, id);
    org.Some? && org.value.kind != Market && org.value.quantity - Cum(org.value, Fills(log, id)) > EPS
  }

  predicate AccountOk(log: seq<Entry>, id: nat) {
    match Origin(log, id)
    case Some(org) => org.id == id && Chain(org, Fills(log, id))
    case None => Fills(log, id) == []
  }

  ghost predicate AccountsOk(log: seq<Entry>) {
    forall id: nat :: AccountOk(log, id)
  }

  predicate SameAccount(before: seq<Entry>, after: seq<Entry>, id: nat) {
    Origin(after, id) == Origin(before, id) && Fills(after, id) == Fills(before, id)
  }

  /** Only accounts of these ids differ. */
  ghost predicate OthersSame(before: seq<Entry>, after: seq<Entry>, ids: set<nat>) {
    forall id: nat :: id !in ids ==> SameAccount(before, after, id)
  }

  lemma {:induction false} OthersSameTransitive(a: seq<Entry>, b: seq<Entry>, c: seq<Entry>, ids: set<nat>)
    requires OthersSame(a, b, ids) && OthersSame(b, c, ids)
    ensures OthersSame(a, c, ids)
  {
    forall id: nat | id !in ids ensures SameAccount(a, c, id) {
      assert SameAccount(a, b, id) && SameAccount(b, c, id);
    }
  }

  lemma {:induction false} OthersSameWiden(a: seq<Entry>, b: seq<Entry>, small: set<nat>, ids: set<nat>)
    requires OthersSame(a, b, small) && small <= ids
    ensures OthersSame(a, b, ids)
  {
  }

  /** A run of reports that takes `o` to `o2`. */
  predicate Steps(o: Order, reports: seq<Report>, o2: Order)
    decreases |reports|
  {
    if reports == [] then o2 == o
    else Follows(o, o.filled, reports[0])
         && Steps(o.(filled := reports[0].cumQty), reports[1..], o2)
  }

  lemma {:induction false} LogSnoc(log: seq<Entry>, e: Entry, id: nat)
    ensures Origin(log + [e], id) ==
            if Resets(e, id) then (if e.Accepted? then Some(e.order) else None) else Origin(log, id)
    ensures Fills(log + [e], id) ==
            if Resets(e, id) then []
            else if e.Filled? && e.report.orderId == id then Fills(log, id) + [e.report]
            else Fills(log, id)
  {
    assert (log + [e])[..|log|] == log;
  }

  /** Withdrawing an order closes its account and leaves the others alone. */
  lemma {:induction false} WithdrawAccounts(log: seq<Entry>, id: nat)
    requires AccountsOk(log)
    ensures AccountsOk(log + [Withdrawn(id)]) && Origin(log + [Withdrawn(id)], id) == None
    ensures OthersSame(log, log + [Withdrawn(id)], {id})
  {
    var log' := log + [Withdrawn(id)];
    forall k: nat
      ensures AccountOk(log', k)
      ensures k != id ==> SameAccount(log, log', k)
    {
      LogSnoc(log, Withdrawn(id), k);
      assert AccountOk(log, k);
    }
    LogSnoc(log, Withdrawn(id), id);
  }

  /** Accepting an order opens a fresh account and leaves the others alone. */
  lemma {:induction false} AcceptAccounts(log: seq<Entry>, o: Order)
    requires AccountsOk(log)
    ensures AccountsOk(log + [Accepted(o)]) && Untried(log + [Accepted(o)], o)
    ensures OthersSame(log, log + [Accepted(o)], {o.id})
  {
    var log' := log + [Accepted(o)];
    forall id: nat
      ensures AccountOk(log', id)
      ensures id != o.id ==> SameAccount(log, log', id)
    {
      LogSnoc(log, Accepted(o), id);
      assert AccountOk(log, id);
    }
    LogSnoc(log, Accepted(o), o.id);
  }

  /** One correct report extends its own account... */
  lemma {:induction false} EmitOwn(log: seq<Entry>, o: Order, r: Report)
    requires AccountOk(log, o.id) && Tracks(log, o) && Follows(o, o.filled, r) && InTurn(Fills(log, o.id), r)
    ensures AccountOk(log + [Filled(r)], o.id) && Tracks(log + [Filled(r)], o.(filled := r.cumQty))
  {
    hide Follows, Origin, Fills, Chain, InTurn;
    var org := Origin(log, o.id).value;
    var fills := Fills(log, o.id);
    FollowsTerms(org, o, r);
    LogSnoc(log, Filled(r), o.id);
    ChainSnoc(org, fills, r);
  }

  lemma {:induction false} ChainSnoc(org: Order, fills: seq<Report>, r: Report)
    ensures Chain(org, fills + [r]) <==> Chain(org, fills) && Follows(org, Cum(org, fills), r) && InTurn(fills, r)
    ensures Cum(org, fills + [r]) == r.cumQty
  {
    hide Follows, InTurn;
    assert (fills + [r])[..|fills|] == fills;
  }

  lemma {:induction false} FollowsTerms(org: Order, o: Order, r: Report)
    requires SameTerms(org, o) && Follows(o, o.filled, r)
    ensures Follows(org, o.filled, r) && r.orderId == o.id
  {
  }

  /** ... and leaves the others alone. */
  lemma {:induction false} EmitOne(log: seq<Entry>, o: Order, r: Report)
    requires AccountsOk(log) && Tracks(log, o) && Follows(o, o.filled, r) && InTurn(Fills(log, o.id), r)
    ensures AccountsOk(log + [Filled(r)]) && Tracks(log + [Filled(r)], o.(filled := r.cumQty))
    ensures OthersSame(log, log + [Filled(r)], {o.id})
  {
    hide Follows, Tracks, InTurn;
    var log' := log + [Filled(r)];
    assert AccountOk(log, o.id);
    EmitOwn(log, o, r);
    FollowsId(o, r);
    forall id: nat
      ensures AccountOk(log', id)
      ensures id != o.id ==> SameAccount(log, log', id)
    {
      LogSnoc(log, Filled(r), id);
      assert AccountOk(log, id);
    }
  }

  lemma {:induction false} FollowsId(o: Order, r: Report)
    requires Follows(o, o.filled, r)
    ensures r.orderId == o.id
  {
  }

  lemma {:induction false} TakerInTurn(fills: seq<Report>, r: Report)
    requires AllTakers(fills)
    ensures InTurn(fills, r)
  {
  }

  lemma {:induction false} TakersNext(log: seq<Entry>, id: nat, reports: seq<Report>)
    requires reports != [] && AllTakers(Fills(log, id)) && AllTakers(reports)
    ensures AllTakers(Fills(log + [Filled(reports[0])], id)) && AllTakers(reports[1..])
  {
    LogSnoc(log, Filled(reports[0]), id);
  }

  /** What an order takes on arrival. */
  lemma {:induction false} EmitSteps(log: seq<Entry>, o: Order, reports: seq<Report>, o2: Order)
    requires AccountsOk(log) && Tracks(log, o) && Steps(o, reports, o2)
    requires AllTakers(Fills(log, o.id)) && AllTakers(reports)
    ensures AccountsOk(log + Entries(reports)) && Tracks(log + Entries(reports), o2)
    ensures OthersSame(log, log + Entries(reports), {o.id})
    decreases |reports|
  {
    hide AccountsOk, Tracks, Follows, OthersSame, AllTakers, Origin, Fills;
    if reports == [] {
      assert log + Entries(reports) == log;
      SameLog(log, {o.id});
    } else {
      var r := reports[0];
      FollowsId(o, r);
      TakerInTurn(Fills(log, o.id), r);
      EmitOne(log, o, r);
      TakersNext(log, o.id, reports);
      EmitSteps(log + [Filled(r)], o.(filled := r.cumQty), reports[1..], o2);
      assert log + Entries(reports) == (log + [Filled(r)]) + Entries(reports[1..]);
      OthersSameTransitive(log, log + [Filled(r)], log + Entries(reports), {o.id});
    }
  }

  lemma {:induction false} EntriesAppend(a: seq<Report>, b: seq<Report>)
    ensures Entries(a + b) == Entries(a) + Entries(b)
  {
    if a == [] {
      assert a + b == b;
    } else {
      assert (a + b)[1..] == a[1..] + b;
      EntriesAppend(a[1..], b);
    }
  }

  lemma {:induction false} SameAccountTracks(before: seq<Entry>, after: seq<Entry>, o: Order)
    requires SameAccount(before, after, o.id)
    ensures Tracks(before, o) ==> Tracks(after, o)
    ensures Untried(before, o) ==> Untried(after, o)
  {
  }

  function Ids(orders: seq<Order>): set<nat> {
    set o | o in orders :: o.id
  }

  /** Every listed order is accounted for. */
  predicate AllTracked(log: seq<Entry>, orders: seq<Order>) {
    forall i :: 0 <= i < |orders| ==> Tracks(log, orders[i])
  }

  lemma {:induction false} AllTrackedElsewhere(before: seq<Entry>, after: seq<Entry>, ids: set<nat>, orders: seq<Order>)
    requires AllTracked(before, orders) && OthersSame(before, after, ids)
    requires forall i :: 0 <= i < |orders| ==> orders[i].id !in ids
    ensures AllTracked(after, orders)
  {
    forall i | 0 <= i < |orders| ensures Tracks(after, orders[i]) {
      assert SameAccount(before, after, orders[i].id);
      assert Tracks(before, orders[i]);
    }
  }

  lemma {:induction false} SameLog(log: seq<Entry>, ids: set<nat>)
    ensures OthersSame(log, log, ids)
  {
  }

  /** A tracked order's account is open exactly while it has more than dust to
      fill. */
  lemma {:induction false} TrackedOpen(log: seq<Entry>, o: Order)
    requires Tracks(log, o) && o.kind != Market
    ensures Open(log, o.id) <==> Remaining(o) > EPS
  {
  }
}
