/** What holds between the gateway and the engine after every call: the live
    map mirrors the engine's accounts, and the execution reports of every order
    follow a lifecycle. */
module GatewayRuns {
  import opened Orders
  import opened FillAccounts
  import opened LatencyLegs
  import opened EngineModel
  import opened EngineInvariants
  import opened EngineSteps
  import opened EngineRuns
  import opened EngineSchedule
  import opened EngineQuiet
  import opened GatewayModel

  // --- The live map and the engine's accounts ---------------------------------------------

  /** The account has been opened and has more than dust to fill. */
  predicate Unfinished(log: seq<Entry>, id: nat) {
    var org := Origin(log, id);
    org.Some? && org.value.quantity - Cum(org.value, Fills(log, id)) > EPS
  }

  /** The quantity is a whole number of wire units. */
  predicate Whole(x: real) {
    (x * QTY_SCALE).Floor as real == x * QTY_SCALE
  }

  /** How many of the fills are rounded on the wire. */
  function Rounded(fills: seq<Report>): nat {
    if fills == [] then 0
    else Rounded(fills[..|fills| - 1]) + if Whole(fills[|fills| - 1].lastQty) then 0 else 1
  }

  /** Wire and engine agree on what is filled up to half a unit per rounded
      fill. */
  predicate Agrees(cum: nat, filled: real, rounded: nat) {
    var drift := cum as real - filled * QTY_SCALE;
    -(rounded as real) * 0.5 <= drift <= rounded as real * 0.5
  }

  /** A live order was submitted to the engine on the terms the gateway
      remembers. */
  predicate SameOrder(org: Order, fills: seq<Report>, lo: Live) {
    && org.exchange == VenueName(lo.venue) && org.symbol == lo.symbol
    && org.side == lo.side && org.price == lo.price && org.quantity == Units(lo.quantity)
    && (lo.postOnly <==> org.kind == PostOnly)
    && (org.kind == Market ==> lo.wire == MarketWire)
    && Agrees(lo.cum, Cum(org, fills), Rounded(fills))
  }

  predicate Mirrored(log: seq<Entry>, live: map<nat, Live>, id: nat) {
    && (id in live <==> Unfinished(log, id))
    && (id in live ==> SameOrder(Origin(log, id).value, Fills(log, id), live[id]))
  }

  ghost predicate Mirrors(log: seq<Entry>, live: map<nat, Live>) {
    forall id: nat :: Mirrored(log, live, id)
  }

  // --- The lifecycle of an order's reports -----------------------------------------------------

  function Of(sent: seq<Exec>, id: nat): seq<Exec> {
    if sent == [] then []
    else
      var n := |sent| - 1;
      if sent[n].id == id then Of(sent[..n], id) + [sent[n]] else Of(sent[..n], id)
  }

  function FilledSum(h: seq<Exec>): nat {
    if h == [] then 0 else FilledSum(h[..|h| - 1]) + h[|h| - 1].filledQty
  }

  predicate Final(e: Exec) {
    e.status == FullyFilled || e.status == Cancelled
  }

  /** Only the last report can be final; an order is live until it has come;
      the reported fills add up. */
  predicate Life(h: seq<Exec>, live: map<nat, Live>, id: nat) {
    && (forall i :: 0 <= i < |h| - 1 ==> !Final(h[i]))
    && (id in live ==> (h == [] || !Final(h[|h| - 1])) && FilledSum(h) == live[id].cum)
    && (id !in live ==> h == [] || Final(h[|h| - 1]))
  }

  ghost predicate Lives(sent: seq<Exec>, live: map<nat, Live>) {
    forall id: nat :: Life(Of(sent, id), live, id)
  }

  /** Every live order has been reported on. */
  ghost predicate AllKnown(sent: seq<Exec>, live: map<nat, Live>) {
    forall id: nat :: id in live ==> Of(sent, id) != []
  }

  /** Every fill of the engine has been booked, once, in order. */
  predicate Booked(log: seq<Entry>, booked: seq<Report>) {
    booked == FilledIn(log) && forall i :: 0 <= i < |booked| ==> booked[i].lastQty > 0.0
  }

  /** The last report is of a complete fill. */
  predicate Finished(h: seq<Exec>) {
    h != [] && h[|h| - 1].status == FullyFilled
  }

  /** The reported total of a finished order agrees with what the engine filled,
      which is the whole order but for dust. */
  predicate Totals(org: Order, fills: seq<Report>, total: nat) {
    && org.quantity - EPS <= Cum(org, fills) <= org.quantity == Units(Scaled(org.quantity))
    && Agrees(total, Cum(org, fills), Rounded(fills))
  }

  predicate SettledAt(log: seq<Entry>, h: seq<Exec>, id: nat) {
    Finished(h) ==>
      Origin(log, id).Some? && Totals(Origin(log, id).value, Fills(log, id), FilledSum(h))
  }

  ghost predicate Settled(log: seq<Entry>, sent: seq<Exec>) {
    forall id: nat :: SettledAt(log, Of(sent, id), id)
  }

  ghost predicate Coupled(log: seq<Entry>, g: Gate) {
    Mirrors(log, g.live) && Lives(g.sent, g.live) && Booked(log, g.booked) && Settled(log, g.sent)
  }

  /** The invariant between calls. */
  ghost predicate GateOk(g: Gate) {
    && Sound(g.engine) && Quiet(g.engine)
    && Coupled(g.engine.log, g)
    && AllKnown(g.sent, g.live)
  }

  // --- Histories ------------------------------------------------------------------------------

  lemma {:induction false} OfSnoc(sent: seq<Exec>, e: Exec, id: nat)
    ensures Of(sent + [e], id) == if e.id == id then Of(sent, id) + [e] else Of(sent, id)
  {
    assert (sent + [e])[..|sent|] == sent;
  }

  lemma {:induction false} FilledSnoc(h: seq<Exec>, e: Exec)
    ensures FilledSum(h + [e]) == FilledSum(h) + e.filledQty
  {
    assert (h + [e])[..|h|] == h;
  }

  /** An account that is in order was in order before its last fill, which was
      then due. */
  lemma {:induction false} BeforeFill(log: seq<Entry>, r: Report)
    requires AccountsOk(log + [Filled(r)])
    ensures AccountsOk(log) && Origin(log, r.orderId).Some?
    ensures var org := Origin(log, r.orderId).value;
            Follows(org, Cum(org, Fills(log, r.orderId)), r)
  {
    hide Follows;
    var log' := log + [Filled(r)];
    forall id: nat ensures AccountOk(log, id) {
      LogSnoc(log, Filled(r), id);
      assert AccountOk(log', id);
      if id == r.orderId {
        var fills := Fills(log, id);
        assert (fills + [r])[..|fills|] == fills;
      }
    }
    LogSnoc(log, Filled(r), r.orderId);
    assert AccountOk(log', r.orderId);
    var fills := Fills(log, r.orderId);
    assert (fills + [r])[..|fills|] == fills;
  }

  lemma {:induction false} BeforeFills(log: seq<Entry>, reports: seq<Report>)
    requires AccountsOk(log + Entries(reports))
    ensures AccountsOk(log)
    decreases |reports|
  {
    if reports == [] {
      assert log + Entries(reports) == log;
    } else {
      assert log + Entries(reports) == (log + [Filled(reports[0])]) + Entries(reports[1..]);
      BeforeFills(log + [Filled(reports[0])], reports[1..]);
      BeforeFill(log, reports[0]);
    }
  }

  // --- Publishing fills --------------------------------------------------------------------------

  /** The nearest integer is at most a half away, and a whole quantity is its
      own. */
  lemma {:induction false} ScaledNearest(x: real)
    requires 0.0 <= x
    ensures -0.5 <= Scaled(x) as real - x * QTY_SCALE <= 0.5
    ensures Whole(x) ==> Scaled(x) as real == x * QTY_SCALE
  {
    NearestOf(x * QTY_SCALE);
  }

  lemma {:induction false} NearestOf(y: real)
    requires 0.0 <= y
    ensures var n := if y + 0.5 < 1.0 then 0 else (y + 0.5).Floor;
            -0.5 <= n as real - y <= 0.5 && (y.Floor as real == y ==> n as real == y)
  {
    if y.Floor as real == y { assert (y.Floor as real + 0.5).Floor == y.Floor; }
  }

  lemma {:induction false} AgreesNext(cum: nat, filled: real, rounded: nat, x: real)
    requires Agrees(cum, filled, rounded) && 0.0 <= x
    ensures Agrees(cum + Scaled(x), filled + x, rounded + if Whole(x) then 0 else 1)
  {
    ScaledNearest(x);
    assert (filled + x) * QTY_SCALE == filled * QTY_SCALE + x * QTY_SCALE;
  }

  lemma {:induction false} PublishMirrors(log: seq<Entry>, g: Gate, r: Report)
    requires AccountsOk(log + [Filled(r)]) && Mirrors(log, g.live)
    ensures r.orderId in g.live
    ensures Mirrors(log + [Filled(r)], Publish(g, r).live)
  {
    hide Mirrored, Publish;
    var id, log', g' := r.orderId, log + [Filled(r)], Publish(g, r);
    BeforeFill(log, r);
    PublishOwn(log, g, r);
    forall k: nat ensures Mirrored(log', g'.live, k) {
      assert Mirrored(log, g.live, k);
      if k != id { PublishOther(log, g, r, k); }
    }
  }

  lemma {:induction false} PublishOwn(log: seq<Entry>, g: Gate, r: Report)
    requires Origin(log, r.orderId).Some? && Mirrored(log, g.live, r.orderId)
    requires var org := Origin(log, r.orderId).value; Follows(org, Cum(org, Fills(log, r.orderId)), r)
    ensures r.orderId in g.live
    ensures Mirrored(log + [Filled(r)], Publish(g, r).live, r.orderId)
  {
    hide Agrees, Scaled, Origin, Fills, Chain, Whole;
    var id := r.orderId;
    var org, fills := Origin(log, id).value, Fills(log, id);
    LogSnoc(log, Filled(r), id);
    AgreesNext(g.live[id].cum, Cum(org, fills), Rounded(fills), r.lastQty);
    assert (fills + [r])[..|fills|] == fills;
  }

  lemma {:induction false} PublishOther(log: seq<Entry>, g: Gate, r: Report, k: nat)
    requires k != r.orderId && Mirrored(log, g.live, k)
    ensures Mirrored(log + [Filled(r)], Publish(g, r).live, k)
  {
    hide SameOrder, Scaled, Origin, Fills, Cum;
    LogSnoc(log, Filled(r), k);
  }

  lemma {:induction false} PublishLives(g: Gate, r: Report)
    requires Lives(g.sent, g.live) && r.orderId in g.live
    ensures Lives(Publish(g, r).sent, Publish(g, r).live)
  {
    hide Scaled, Of, FilledSum;
    var id, g' := r.orderId, Publish(g, r);
    var e := g'.sent[|g.sent|];
    assert g'.sent == g.sent + [e];
    forall k: nat ensures Life(Of(g'.sent, k), g'.live, k) {
      assert Life(Of(g.sent, k), g.live, k);
      OfSnoc(g.sent, e, k);
      FilledSnoc(Of(g.sent, k), e);
    }
  }

  lemma {:induction false} ScaledUnits(n: nat)
    ensures Scaled(Units(n)) == n
  {
  }

  /** The fill that completes an order settles it. */
  lemma {:induction false} PublishSettlesOwn(log: seq<Entry>, g: Gate, r: Report)
    requires Origin(log, r.orderId).Some? && Mirrored(log, g.live, r.orderId)
    requires var org := Origin(log, r.orderId).value; Follows(org, Cum(org, Fills(log, r.orderId)), r)
    requires r.orderId in g.live && Life(Of(g.sent, r.orderId), g.live, r.orderId)
    ensures SettledAt(log + [Filled(r)], Of(Publish(g, r).sent, r.orderId), r.orderId)
  {
    hide Scaled, Origin, Fills, Of, FilledSum, SameOrder, Totals, Follows, Unfinished, Cum;
    var id, g' := r.orderId, Publish(g, r);
    var org, fills, e := Origin(log, id).value, Fills(log, id), g'.sent[|g.sent|];
    LogSnoc(log, Filled(r), id);
    assert g'.sent == g.sent + [e];
    OfSnoc(g.sent, e, id);
    FilledSnoc(Of(g.sent, id), e);
    if r.full { TotalsNext(org, fills, g.live[id], r); }
  }

  lemma {:induction false} TotalsNext(org: Order, fills: seq<Report>, lo: Live, r: Report)
    requires SameOrder(org, fills, lo) && Follows(org, Cum(org, fills), r) && r.full
    ensures Totals(org, fills + [r], lo.cum + Scaled(r.lastQty))
  {
    hide Agrees, Scaled, Units, Whole;
    ScaledUnits(lo.quantity);
    AgreesNext(lo.cum, Cum(org, fills), Rounded(fills), r.lastQty);
    assert (fills + [r])[..|fills|] == fills;
  }

  lemma {:induction false} PublishSettles(log: seq<Entry>, g: Gate, r: Report)
    requires AccountsOk(log + [Filled(r)]) && Coupled(log, g)
    ensures Settled(log + [Filled(r)], Publish(g, r).sent)
  {
    hide Mirrored, Life, SettledAt, FillExec;
    BeforeFill(log, r);
    PublishMirrors(log, g, r);
    PublishSettlesOwn(log, g, r);
    var id, g' := r.orderId, Publish(g, r);
    var e := g'.sent[|g.sent|];
    assert g'.sent == g.sent + [e] && e.id == id by { ExecOf(r, g); }
    forall k: nat ensures SettledAt(log + [Filled(r)], Of(g'.sent, k), k) {
      if k != id {
        OfSnoc(g.sent, e, k);
        SettledElsewhere(log, Filled(r), Of(g.sent, k), k);
      }
    }
  }

  lemma {:induction false} ExecOf(r: Report, g: Gate)
    requires r.orderId in g.live
    ensures Publish(g, r).sent[..|g.sent|] == g.sent && |Publish(g, r).sent| == |g.sent| + 1
    ensures Publish(g, r).sent[|g.sent|].id == r.orderId
  {
  }

  /** An entry settles nothing but its own order. */
  lemma {:induction false} SettledElsewhere(log: seq<Entry>, e: Entry, h: seq<Exec>, k: nat)
    requires SettledAt(log, h, k)
    requires Finished(h) ==> !Resets(e, k) && (e.Filled? ==> e.report.orderId != k)
    ensures SettledAt(log + [e], h, k)
  {
    hide Totals;
    LogSnoc(log, e, k);
  }

  /** Accepting or withdrawing an order that has not been filled completely. */
  lemma {:induction false} ResetSettles(log: seq<Entry>, sent: seq<Exec>, e: Entry, id: nat)
    requires Settled(log, sent) && !e.Filled? && !Finished(Of(sent, id))
    requires forall k: nat :: k != id ==> !Resets(e, k)
    ensures Settled(log + [e], sent)
  {
    hide SettledAt, Finished;
    forall k: nat ensures SettledAt(log + [e], Of(sent, k), k) {
      assert SettledAt(log, Of(sent, k), k);
      SettledElsewhere(log, e, Of(sent, k), k);
    }
  }

  /** A report that is not a fill. */
  lemma {:induction false} StatusSettles(log: seq<Entry>, sent: seq<Exec>, e: Exec)
    requires Settled(log, sent) && e.status != FullyFilled
    ensures Settled(log, sent + [e])
  {
    hide Totals;
    forall k: nat ensures SettledAt(log, Of(sent + [e], k), k) {
      assert SettledAt(log, Of(sent, k), k);
      OfSnoc(sent, e, k);
    }
  }

  lemma {:induction false} LiveUnfinished(sent: seq<Exec>, live: map<nat, Live>, id: nat)
    requires Lives(sent, live) && id in live
    ensures !Finished(Of(sent, id))
  {
    assert Life(Of(sent, id), live, id);
  }

  /** A fill of the engine always finds its order live; publishing it keeps the
      gateway coupled. */
  lemma {:induction false} PublishKeeps(log: seq<Entry>, g: Gate, r: Report)
    requires AccountsOk(log + [Filled(r)]) && Coupled(log, g)
    ensures r.orderId in g.live && Coupled(log + [Filled(r)], Publish(g, r))
  {
    hide Mirrors, Lives, Settled;
    BeforeFill(log, r);
    PublishSettles(log, g, r);
    PublishMirrors(log, g, r);
    PublishLives(g, r);
    LogAppend(log, [Filled(r)]);
    assert FilledIn([Filled(r)]) == [r] by { assert [Filled(r)][1..] == []; }
  }

  predicate FillReport(e: Exec) {
    (e.status == PartlyFilled || e.status == FullyFilled) && e.remainingQty == 0
  }

  /** Only reports of fills are added. Each of them says that nothing remains,
      even after a partial fill: the remaining quantity is computed from the
      quantity of the fill. */
  predicate MoreFills(before: seq<Exec>, after: seq<Exec>) {
    before <= after && forall i :: |before| <= i < |after| ==> FillReport(after[i])
  }

  lemma {:induction false} PublishAllKeeps(log: seq<Entry>, g: Gate, reports: seq<Report>)
    requires AccountsOk(log + Entries(reports)) && Coupled(log, g)
    ensures var g' := PublishAll(g, reports);
            && Coupled(log + Entries(reports), g') && g'.engine == g.engine
            && MoreFills(g.sent, g'.sent) && g'.rejected == g.rejected
    decreases |reports|
  {
    hide Publish, AccountsOk, Coupled;
    if reports == [] {
      assert log + Entries(reports) == log;
    } else {
      var r := reports[0];
      assert log + Entries(reports) == (log + [Filled(r)]) + Entries(reports[1..]);
      BeforeFills(log + [Filled(r)], reports[1..]);
      PublishKeeps(log, g, r);
      PublishAllKeeps(log + [Filled(r)], Publish(g, r), reports[1..]);
      PublishShape(g, r);
    }
  }

  lemma {:induction false} PublishShape(g: Gate, r: Report)
    ensures Publish(g, r).engine == g.engine && Publish(g, r).rejected == g.rejected
    ensures MoreFills(g.sent, Publish(g, r).sent)
  {
  }

  // --- After the reports are out ------------------------------------------------------------------

  lemma {:induction false} PublishAllNarrows(g: Gate, reports: seq<Report>)
    ensures PublishAll(g, reports).live.Keys <= g.live.Keys
    decreases |reports|
  {
    if reports != [] { PublishAllNarrows(Publish(g, reports[0]), reports[1..]); }
  }

  lemma {:induction false} OfGrows(before: seq<Exec>, after: seq<Exec>, id: nat)
    requires before <= after && Of(before, id) != []
    ensures Of(after, id) != []
    decreases |after|
  {
    if |before| < |after| {
      OfGrows(before, after[..|after| - 1], id);
    } else {
      assert before == after;
    }
  }

  lemma {:induction false} KnownGrows(before: seq<Exec>, after: seq<Exec>, live: map<nat, Live>, live': map<nat, Live>)
    requires AllKnown(before, live) && before <= after && live'.Keys <= live.Keys
    ensures AllKnown(after, live')
  {
    forall id: nat | id in live' ensures Of(after, id) != [] {
      assert id in live.Keys;
      OfGrows(before, after, id);
    }
  }

  // --- Market events ----------------------------------------------------------------------------------

  lemma {:induction false} EventKeeps(g: Gate, s: State, reports: seq<Report>)
    requires GateOk(g) && Sound(s) && Quiet(s) && s.log == g.engine.log + Entries(reports)
    ensures GateOk(PublishAll(g.(engine := s), reports))
  {
    hide Inv, Mirrors, Lives, AllKnown, MoreFills, Settled;
    var g0 := g.(engine := s);
    SoundAccounts(s);
    assert Coupled(g.engine.log, g0);
    PublishAllKeeps(g.engine.log, g0, reports);
    PublishAllNarrows(g0, reports);
    MoreIsPrefix(g0.sent, PublishAll(g0, reports).sent);
    KnownGrows(g.sent, PublishAll(g0, reports).sent, g.live, PublishAll(g0, reports).live);
  }

  lemma {:induction false} MoreIsPrefix(before: seq<Exec>, after: seq<Exec>)
    requires MoreFills(before, after)
    ensures before <= after
  {
  }

  lemma {:induction false} SoundAccounts(s: State)
    requires Sound(s)
    ensures AccountsOk(s.log)
  {
  }

  // --- New orders ----------------------------------------------------------------------------------------

  /** An id whose account is not open is not in the engine. */
  lemma {:induction false} NotOpenIsFresh(s: State, o: Order)
    requires Sound(s) && Quiet(s) && !Open(s.log, o.id) && Remaining(o) > EPS && !o.seeded
    ensures Fresh(s, Items(s.submits.waiting), o)
  {
    hide Inv;
    forall key: string ensures o.id !in Ids(OrdersAt(s, key)) {
      if o.id in Ids(OrdersAt(s, key)) {
        HeldWhileOpen(s, o.id);
        assert false;
      }
    }
  }

  lemma {:induction false} OpenIsUnfinished(log: seq<Entry>, id: nat)
    ensures Open(log, id) <==> Unfinished(log, id) && Origin(log, id).value.kind != Market
  {
  }

  lemma {:induction false} UnitsPositive(quantity: nat, cum: nat)
    ensures quantity > cum <==> Units(quantity) - Units(cum) > EPS
  {
    assert Units(quantity) - Units(cum) == (quantity - cum) as real / QTY_SCALE;
  }

  /** The gateway's terms of an order it submits. */
  predicate Submitted(o: Order, id: nat, lo: Live) {
    && o.id == id && o.exchange == VenueName(lo.venue) && o.symbol == lo.symbol && o.side == lo.side
    && o.price == lo.price && o.quantity == Units(lo.quantity) && o.filled == Units(lo.cum)
    && (lo.postOnly <==> o.kind == PostOnly) && (o.kind == Market ==> lo.wire == MarketWire)
    && lo.quantity > lo.cum
  }

  lemma {:induction false} UnitsAgree(cum: nat)
    ensures Agrees(cum, Units(cum), 0)
  {
  }

  /** Everything but one id is mirrored. */
  ghost predicate MirrorsBut(log: seq<Entry>, live: map<nat, Live>, id: nat) {
    forall k: nat :: k != id ==> Mirrored(log, live, k)
  }

  lemma {:induction false} AcceptMirrors(log: seq<Entry>, live: map<nat, Live>, o: Order, id: nat, lo: Live)
    requires AccountsOk(log) && MirrorsBut(log, live, id) && Submitted(o, id, lo)
    ensures Mirrors(log + [Accepted(o)], live[id := lo])
  {
    hide Agrees, Units;
    var log', live' := log + [Accepted(o)], live[id := lo];
    UnitsAgree(lo.cum);
    UnitsPositive(lo.quantity, lo.cum);
    forall k: nat ensures Mirrored(log', live', k) {
      LogSnoc(log, Accepted(o), k);
      if k != id { assert Mirrored(log, live, k); }
    }
  }

  /** Placing an order: the engine accepts it, and what it fills is published;
      or the engine refuses, and nothing happens. */
  lemma {:induction false} PlaceKeeps(g: Gate, o: Order, id: nat, lo: Live)
    requires Sound(g.engine) && Quiet(g.engine) && !Open(g.engine.log, id)
    requires MirrorsBut(g.engine.log, g.live, id) && id in g.live && g.live[id] == lo
    requires Lives(g.sent, g.live) && Booked(g.engine.log, g.booked) && Settled(g.engine.log, g.sent)
    requires Submitted(o, id, lo) && !o.seeded
    ensures var g' := Place(g, o);
            && Sound(g'.engine) && Quiet(g'.engine) && g'.rejected == g.rejected
            && if Refused(g.engine, o) then g' == g
               else Coupled(g'.engine.log, g') && MoreFills(g.sent, g'.sent) && g'.live.Keys <= g.live.Keys
  {
    hide Inv, Submit, Refused, Mirrors, MirrorsBut, Lives, MoreFills, NewlyDelivered, PublishAll, Open, AccountsOk;
    hide Settled, Finished;
    var s, s' := g.engine, Submit(g.engine, o, NO_LATENCY);
    UnitsPositive(lo.quantity, lo.cum);
    NotOpenIsFresh(s, o);
    SubmitKeeps(s, o, NO_LATENCY);
    QuietSubmit(s, o);
    PublishNothing(g);
    if !Refused(s, o) {
      var reports, log1, g1 := NewlyDelivered(s, s'), s.log + [Accepted(Stamped(s, o))], g.(engine := s');
      SoundAccounts(s);
      SoundAccounts(s');
      assert g.live[id := lo] == g.live;
      AcceptMirrors(s.log, g.live, Stamped(s, o), id, lo);
      LiveUnfinished(g.sent, g.live, id);
      ResetSettles(s.log, g.sent, Accepted(Stamped(s, o)), id);
      LogAppend(s.log, [Accepted(Stamped(s, o))]);
      assert FilledIn([Accepted(Stamped(s, o))]) == [] by { assert [Accepted(Stamped(s, o))][1..] == []; }
      PublishAllKeeps(log1, g1, reports);
      PublishAllNarrows(g1, reports);
    }
  }

  lemma {:induction false} PublishNothing(g: Gate)
    ensures PublishAll(g, []) == g
  {
  }

  /** What the caller of the gateway owes: order ids are not used twice, a
      cancel-all lists its targets, a modify asks for more than is filled, and
      market time does not go back. */
  ghost predicate GateValid(g: Gate, call: Call) {
    match call
    case NewCall(o) => o.id !in g.live && Of(g.sent, o.id) == []
    case CancelCall(_, _, _) => true
    case CancelAllCall(venue, instrument, listing) => Lists(listing, Targets(g.live, venue, instrument))
    case ModifyCall(id, _, quantity) => id in g.live ==> quantity > g.live[id].cum
    case SnapshotCall(book) => book.ts >= g.engine.now
    case TradeCall(t) => t.ts >= g.engine.now
  }

  /** `listing` enumerates `ids`. */
  ghost predicate Lists(listing: seq<nat>, ids: set<nat>) {
    forall id :: id in listing <==> id in ids
  }

  lemma {:induction false} NewMirrors(g: Gate, o: NewOrder, lo: Live)
    requires GateOk(g) && o.id !in g.live && Of(g.sent, o.id) == [] && lo.cum == 0
    ensures var live := g.live[o.id := lo];
            && MirrorsBut(g.engine.log, live, o.id) && !Unfinished(g.engine.log, o.id)
            && Lives(g.sent, live)
  {
    hide Inv, Unfinished, SameOrder;
    var live := g.live[o.id := lo];
    assert Mirrored(g.engine.log, g.live, o.id);
    forall k: nat | k != o.id ensures Mirrored(g.engine.log, live, k) {
      assert Mirrored(g.engine.log, g.live, k);
    }
    forall k: nat ensures Life(Of(g.sent, k), live, k) {
      assert Life(Of(g.sent, k), g.live, k);
    }
  }

  lemma {:induction false} NewSubmitted(o: NewOrder)
    requires WellFormed(o)
    ensures Submitted(EngineOrder(o.id, NewLive(o), KindOf(o.wire, o.postOnly)), o.id, NewLive(o))
  {
  }

  /** A status report that keeps the order live. */
  lemma {:induction false} AckLives(sent: seq<Exec>, live: map<nat, Live>, e: Exec)
    requires Lives(sent, live) && e.id in live && !Final(e) && e.filledQty == 0
    ensures Lives(sent + [e], live)
  {
    hide Of, FilledSum;
    forall k: nat ensures Life(Of(sent + [e], k), live, k) {
      assert Life(Of(sent, k), live, k);
      OfSnoc(sent, e, k);
      FilledSnoc(Of(sent, k), e);
    }
  }

  /** A status report that ends the order. */
  lemma {:induction false} EndLives(sent: seq<Exec>, live: map<nat, Live>, e: Exec)
    requires Lives(sent, live) && e.id in live && Final(e)
    ensures Lives(sent + [e], live - {e.id})
  {
    hide Of, FilledSum;
    forall k: nat ensures Life(Of(sent + [e], k), live - {e.id}, k) {
      assert Life(Of(sent, k), live, k);
      OfSnoc(sent, e, k);
    }
  }

  /** After an accepted order only that order can still lack a report, and then
      nothing of it is filled. */
  lemma {:induction false} KnownBut(before: seq<Exec>, after: seq<Exec>, live: map<nat, Live>, live': map<nat, Live>,
                                    id: nat)
    requires AllKnown(before, live) && before <= after && live'.Keys <= live.Keys + {id} && Lives(after, live')
    ensures forall k: nat :: k in live' && k != id ==> Of(after, k) != []
    ensures id in live' && Of(after, id) == [] ==> live'[id].cum == 0
  {
    forall k: nat | k in live' && k != id ensures Of(after, k) != [] {
      assert k in live.Keys;
      OfGrows(before, after, k);
    }
    assert Life(Of(after, id), live', id);
  }

  lemma {:induction false} OfEnds(sent: seq<Exec>, e: Exec)
    ensures Of(sent + [e], e.id) != []
    ensures forall k: nat :: Of(sent, k) != [] ==> Of(sent + [e], k) != []
  {
    OfSnoc(sent, e, e.id);
    forall k: nat | Of(sent, k) != [] ensures Of(sent + [e], k) != [] {
      OfSnoc(sent, e, k);
    }
  }

  /** A new order: refused, malformed or accepted, the invariant holds after. A
      refusal leaves nothing behind but the counter. */
  lemma {:induction false} NewKeeps(g: Gate, o: NewOrder)
    requires GateOk(g) && o.id !in g.live && Of(g.sent, o.id) == []
    ensures GateOk(SendNew(g, o).0)
    ensures !SendNew(g, o).1 ==> SendNew(g, o).0 == g.(rejected := SendNew(g, o).0.rejected)
  {
    hide Inv, Refused, Mirrors, MirrorsBut, Lives, Place, Unfinished, Open, Submitted, EngineOrder, Of, MoreFills;
    hide Settled;
    if WellFormed(o) {
      var lo := NewLive(o);
      var order := EngineOrder(o.id, lo, KindOf(o.wire, o.postOnly));
      var g0 := g.(live := g.live[o.id := lo]);
      NewMirrors(g, o, lo);
      NewSubmitted(o);
      SubmittedBlank(o.id, lo, KindOf(o.wire, o.postOnly));
      OpenIsUnfinished(g.engine.log, o.id);
      PlaceKeeps(g0, order, o.id, lo);
      var g1 := Place(g0, order);
      if Refused(g.engine, order) {
        assert g.live[o.id := lo] - {o.id} == g.live;
      } else {
        MoreIsPrefix(g0.sent, g1.sent);
        KnownBut(g.sent, g1.sent, g.live, g1.live, o.id);
        if o.id in g1.live && g1.live[o.id].cum < o.quantity {
          var e := StatusReport(o.id, o.venue, o.instrument, Acked, NewLive(o).(cum := g1.live[o.id].cum));
          AckLives(g1.sent, g1.live, e);
          StatusSettles(g1.engine.log, g1.sent, e);
          OfEnds(g1.sent, e);
        }
      }
    }
  }

  lemma {:induction false} SubmittedBlank(id: nat, lo: Live, kind: Kind)
    ensures !EngineOrder(id, lo, kind).seeded && !EngineOrder(id, lo, kind).rejected
  {
  }

  // --- Cancels and modifies ----------------------------------------------------------------------------------

  lemma {:induction false} WithdrawMirrors(log: seq<Entry>, live: map<nat, Live>, id: nat)
    requires Mirrors(log, live)
    ensures Mirrors(log + [Withdrawn(id)], live - {id})
    ensures !Unfinished(log + [Withdrawn(id)], id)
  {
    hide SameOrder;
    forall k: nat ensures Mirrored(log + [Withdrawn(id)], live - {id}, k) {
      LogSnoc(log, Withdrawn(id), k);
      assert Mirrored(log, live, k);
    }
    LogSnoc(log, Withdrawn(id), id);
  }

  lemma {:induction false} WithdrawBooked(log: seq<Entry>, id: nat)
    ensures FilledIn(log + [Withdrawn(id)]) == FilledIn(log)
  {
    LogAppend(log, [Withdrawn(id)]);
    assert FilledIn([Withdrawn(id)]) == [] by { assert [Withdrawn(id)][1..] == []; }
  }

  /** The engine cancels a live order that is not the rest of a market order. */
  lemma {:induction false} LiveIsFound(g: Gate, id: nat)
    requires GateOk(g) && id in g.live
    ensures Origin(g.engine.log, id).Some?
    ensures Origin(g.engine.log, id).value.kind != Market
            <==> Cancel(g.engine, VenueName(g.live[id].venue), g.live[id].symbol, id).1
  {
    hide Cancel, Agrees;
    var s, lo := g.engine, g.live[id];
    var key := Key(VenueName(lo.venue), lo.symbol);
    assert Mirrored(s.log, g.live, id);
    QuietCancel(s, VenueName(lo.venue), lo.symbol, id);
    OpenIsUnfinished(s.log, id);
    HeldWhileOpen(s, id);
    OpenRests(s, id);
  }

  /** Without latency an open order rests in its book. */
  lemma {:induction false} OpenRests(s: State, id: nat)
    requires Sound(s) && Quiet(s)
    ensures Open(s.log, id) ==> id in Ids(OrdersAt(s, KeyOf(Origin(s.log, id).value)))
  {
    if Open(s.log, id) { assert Held(s, Items(s.submits.waiting), id); }
  }

  lemma {:induction false} SendCancelKeeps(g: Gate, id: nat, venue: Venue, instrument: nat)
    requires GateOk(g)
    ensures GateOk(SendCancel(g, id, venue, instrument))
    ensures SendCancel(g, id, venue, instrument).live.Keys <= g.live.Keys
  {
    hide Inv, Cancel, Mirrors, Lives, Of, Settled, Finished;
    if id in g.live {
      var lo := g.live[id];
      CancelKeeps(g.engine, VenueName(lo.venue), lo.symbol, id);
      QuietCancel(g.engine, VenueName(lo.venue), lo.symbol, id);
      var e := StatusReport(id, venue, instrument, Cancelled, lo);
      WithdrawMirrors(g.engine.log, g.live, id);
      WithdrawBooked(g.engine.log, id);
      LiveUnfinished(g.sent, g.live, id);
      ResetSettles(g.engine.log, g.sent, Withdrawn(id), id);
      StatusSettles(g.engine.log + [Withdrawn(id)], g.sent, e);
      EndLives(g.sent, g.live, e);
      OfEnds(g.sent, e);
    }
  }

  lemma {:induction false} CancelEachKeeps(g: Gate, ids: seq<nat>, venue: Venue, instrument: nat)
    requires GateOk(g)
    ensures GateOk(CancelEach(g, ids, venue, instrument))
    decreases |ids|
  {
    hide GateOk, SendCancel;
    if ids != [] {
      SendCancelKeeps(g, ids[0], venue, instrument);
      CancelEachKeeps(SendCancel(g, ids[0], venue, instrument), ids[1..], venue, instrument);
    }
  }

  /** After the engine's cancel the id is out of its books. */
  lemma {:induction false} CancelledMirrors(g: Gate, id: nat, lo: Live)
    requires GateOk(g) && id in g.live
    ensures var s := Cancel(g.engine, VenueName(g.live[id].venue), g.live[id].symbol, id).0;
            && Sound(s) && Quiet(s) && FilledIn(s.log) == FilledIn(g.engine.log)
            && MirrorsBut(s.log, g.live[id := lo], id) && Settled(s.log, g.sent)
  {
    hide Inv, Cancel, Unfinished, SameOrder, Settled, Finished;
    LiveUnfinished(g.sent, g.live, id);
    ResetSettles(g.engine.log, g.sent, Withdrawn(id), id);
    var venue, symbol := VenueName(g.live[id].venue), g.live[id].symbol;
    CancelKeeps(g.engine, venue, symbol, id);
    QuietCancel(g.engine, venue, symbol, id);
    WithdrawMirrors(g.engine.log, g.live, id);
    WithdrawBooked(g.engine.log, id);
    var s := Cancel(g.engine, venue, symbol, id).0;
    var live := g.live[id := lo];
    forall k: nat | k != id ensures Mirrored(s.log, live, k) {
      assert Mirrored(g.engine.log, g.live, k) && Mirrored(g.engine.log + [Withdrawn(id)], g.live - {id}, k);
    }
  }

  lemma {:induction false} ModifySubmitted(id: nat, lo: Live)
    requires lo.quantity > lo.cum
    ensures Submitted(EngineOrder(id, lo, if lo.postOnly then PostOnly else Limit), id, lo)
  {
  }

  lemma {:induction false} SameLives(sent: seq<Exec>, live: map<nat, Live>, id: nat, lo: Live)
    requires Lives(sent, live) && id in live && lo.cum == live[id].cum
    ensures Lives(sent, live[id := lo])
  {
    var live' := live[id := lo];
    forall k: nat ensures Life(Of(sent, k), live', k) {
      assert Life(Of(sent, k), live, k);
    }
  }

  /** After the engine's cancel the account is not open; if the order was
      post-only it was found, and the other orders are mirrored without it. */
  lemma {:induction false} CancelledNotOpen(g: Gate, id: nat)
    requires GateOk(g) && id in g.live
    ensures var s := Cancel(g.engine, VenueName(g.live[id].venue), g.live[id].symbol, id).0;
            !Open(s.log, id) && (g.live[id].postOnly ==> Mirrors(s.log, g.live - {id}))
  {
    hide Inv, Cancel, Agrees, Lives;
    var venue, symbol := VenueName(g.live[id].venue), g.live[id].symbol;
    LiveIsFound(g, id);
    QuietCancel(g.engine, venue, symbol, id);
    WithdrawMirrors(g.engine.log, g.live, id);
    assert Mirrored(g.engine.log, g.live, id);
    OpenIsUnfinished(g.engine.log, id);
    OpenIsUnfinished(g.engine.log + [Withdrawn(id)], id);
  }

  lemma {:induction false} RefusedIsPostOnly(s: State, o: Order)
    requires Refused(s, o)
    ensures o.kind == PostOnly
  {
  }

  /** The engine refuses the order that a modify submits. */
  predicate ModifyRefused(g: Gate, id: nat, price: int, quantity: nat)
    requires id in g.live
  {
    var lo := g.live[id].(price := price, quantity := quantity);
    Refused(Cancel(g.engine, VenueName(lo.venue), lo.symbol, id).0,
            EngineOrder(id, lo, if lo.postOnly then PostOnly else Limit))
  }

  /** A refused modify ends the order, whatever it asked for. */
  lemma {:induction false} RefusedModifyKeeps(g: Gate, id: nat, price: int, quantity: nat)
    requires GateOk(g) && id in g.live && ModifyRefused(g, id, price, quantity)
    ensures GateOk(SendModify(g, id, price, quantity))
    ensures SendModify(g, id, price, quantity).live == g.live - {id}
  {
    hide Inv, Cancel, Submit, Refused, Mirrors, MirrorsBut, Lives, Of, NewlyDelivered, PublishAll, Settled;
    var lo := g.live[id].(price := price, quantity := quantity);
    var order := EngineOrder(id, lo, if lo.postOnly then PostOnly else Limit);
    var s := Cancel(g.engine, VenueName(lo.venue), lo.symbol, id).0;
    var g0 := g.(engine := s, live := g.live[id := lo]);
    CancelledMirrors(g, id, lo);
    CancelledNotOpen(g, id);
    SameLives(g.sent, g.live, id, lo);
    QuietSubmit(s, order);
    PublishNothing(g0);
    RefusedIsPostOnly(s, order);
    var e := StatusReport(id, lo.venue, lo.instrument, Cancelled, lo);
    EndLives(g0.sent, g0.live, e);
    StatusSettles(g0.engine.log, g0.sent, e);
    OfEnds(g0.sent, e);
    assert g0.live - {id} == g.live - {id};
  }

  lemma {:induction false} ModifyKeeps(g: Gate, id: nat, price: int, quantity: nat)
    requires GateOk(g) && (id in g.live ==> quantity > g.live[id].cum)
    ensures GateOk(SendModify(g, id, price, quantity))
  {
    hide Inv, Cancel, Refused, Mirrors, MirrorsBut, Lives, Place, Open, Submitted, EngineOrder, Of, MoreFills;
    hide Settled;
    if id in g.live && ModifyRefused(g, id, price, quantity) {
      RefusedModifyKeeps(g, id, price, quantity);
    } else if id in g.live {
      var lo := g.live[id].(price := price, quantity := quantity);
      var kind := if lo.postOnly then PostOnly else Limit;
      var order := EngineOrder(id, lo, kind);
      var s := Cancel(g.engine, VenueName(lo.venue), lo.symbol, id).0;
      var g0 := g.(engine := s, live := g.live[id := lo]);
      CancelledMirrors(g, id, lo);
      CancelledNotOpen(g, id);
      SameLives(g.sent, g.live, id, lo);
      ModifySubmitted(id, lo);
      SubmittedBlank(id, lo, kind);
      PlaceKeeps(g0, order, id, lo);
      var g1 := Place(g0, order);
      MoreIsPrefix(g0.sent, g1.sent);
      KnownGrows(g.sent, g1.sent, g.live, g1.live);
    }
  }

  // --- Runs -------------------------------------------------------------------------------------------------------

  lemma {:induction false} GateStepKeeps(g: Gate, call: Call)
    requires GateOk(g) && GateValid(g, call)
    ensures GateOk(GateStep(g, call))
  {
    hide Inv, Coupled, AllKnown, SendNew, SendCancel, SendModify, CancelEach, PublishAll, OnSnapshot, OnTrade,
         NewlyDelivered, Of;
    match call
    case NewCall(o) => NewKeeps(g, o);
    case CancelCall(id, venue, instrument) => SendCancelKeeps(g, id, venue, instrument);
    case CancelAllCall(venue, instrument, listing) => CancelEachKeeps(g, listing, venue, instrument);
    case ModifyCall(id, price, quantity) => ModifyKeeps(g, id, price, quantity);
    case SnapshotCall(book) =>
      StepKeeps(g.engine, SnapshotIn(book), NO_LATENCY);
      QuietSnapshot(g.engine, book);
      var s := OnSnapshot(g.engine, book, NO_LATENCY);
      EventKeeps(g, s, NewlyDelivered(g.engine, s));
    case TradeCall(t) =>
      StepKeeps(g.engine, TradeIn(t), NO_LATENCY);
      QuietTrade(g.engine, t);
      var s := OnTrade(g.engine, t, NO_LATENCY);
      EventKeeps(g, s, NewlyDelivered(g.engine, s));
  }

  ghost predicate GateValidRun(g: Gate, calls: seq<Call>)
    decreases |calls|
  {
    calls == [] || (GateValid(g, calls[0]) && GateValidRun(GateStep(g, calls[0]), calls[1..]))
  }

  lemma {:induction false} GateInitialOk()
    ensures GateOk(GATE_INITIAL)
  {
    InitialSound();
  }

  lemma {:induction false} GateRunKeeps(g: Gate, calls: seq<Call>)
    requires GateOk(g) && GateValidRun(g, calls)
    ensures GateOk(GateRun(g, calls))
    decreases |calls|
  {
    hide GateOk, GateValid, GateStep;
    if calls != [] {
      GateStepKeeps(g, calls[0]);
      GateRunKeeps(GateStep(g, calls[0]), calls[1..]);
    }
  }
}
