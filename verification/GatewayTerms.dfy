/** The terms of orders and reports over a run of the gateway, told from the calls
    alone: what was sent, what it was last changed to, and what book it met. */
module GatewayTerms {
  import opened Orders
  import opened FillAccounts
  import opened EngineModel
  import opened EngineSteps
  import opened EngineQuiet
  import opened EngineTurns
  import opened GatewayModel
  import opened GatewayRuns

  // --- What was asked for ---------------------------------------------------------------------

  /** The order last sent under an id. */
  function SentOrder(calls: seq<Call>, id: nat): Option<NewOrder> {
    if calls == [] then None
    else
      var last := calls[|calls| - 1];
      if last.NewCall? && last.order.id == id then Some(last.order) else SentOrder(calls[..|calls| - 1], id)
  }

  /** What the engine was last asked for under an id. */
  datatype Asked = Asked(price: int, quantity: nat, kind: Kind)

  function AskedBy(o: NewOrder): Asked {
    Asked(o.price, o.quantity,
          if o.postOnly then PostOnly else match o.wire case MarketWire => Market case LimitWire => Limit)
  }

  /** A modify resubmits as a limit order whatever is not post-only. */
  function LastAsked(calls: seq<Call>, id: nat): Option<Asked> {
    if calls == [] then None
    else
      var before, last := LastAsked(calls[..|calls| - 1], id), calls[|calls| - 1];
      if last.NewCall? && last.order.id == id then Some(AskedBy(last.order))
      else if last.ModifyCall? && last.id == id && before.Some? then
        Some(Asked(last.price, last.quantity, if before.value.kind == PostOnly then PostOnly else Limit))
      else before
  }

  function ExchangeOf(v: Venue): string {
    match v
    case Binance => "BINANCE"
    case Okx => "OKX"
    case Hyperliquid => "HYPERLIQUID"
    case Deribit => "DERIBIT"
    case AllVenues => ""
  }

  // --- Live orders ------------------------------------------------------------------------------

  /** The gateway remembers the order that was sent, on the terms last asked for;
      and that is what the engine last accepted under its id. */
  predicate Remembered(calls: seq<Call>, log: seq<Entry>, live: map<nat, Live>, id: nat) {
    id in live ==>
      && SentOrder(calls, id).Some? && LastAsked(calls, id).Some? && Origin(log, id).Some?
      && var (lo, o, asked, org) :=
           (live[id], SentOrder(calls, id).value, LastAsked(calls, id).value, Origin(log, id).value);
         && lo.venue == o.venue && lo.instrument == o.instrument && lo.side == o.side && lo.wire == o.wire
         && lo.symbol == o.symbol && lo.postOnly == o.postOnly
         && lo.price == asked.price && lo.quantity == asked.quantity
         && (lo.postOnly <==> asked.kind == PostOnly)
         && Accepts(org, o, asked)
  }

  /** The order as the engine takes it. */
  predicate Accepts(org: Order, o: NewOrder, asked: Asked) {
    && org.id == o.id && org.clientId == o.id && org.exchange == ExchangeOf(o.venue) && org.symbol == o.symbol
    && org.side == o.side && org.kind == asked.kind && org.price == asked.price
    && org.quantity == asked.quantity as real / 100000000.0
  }

  ghost predicate AllRemembered(calls: seq<Call>, log: seq<Entry>, live: map<nat, Live>) {
    forall id: nat :: Remembered(calls, log, live, id)
  }

  /** A report names the venue and the instrument its order was sent with, but for
      a cancel, which names those the caller gave; an acknowledgement repeats the
      order. */
  predicate Named(calls: seq<Call>, e: Exec) {
    && SentOrder(calls, e.id).Some?
    && var o := SentOrder(calls, e.id).value;
       && (e.status != Cancelled ==> e.venue == o.venue && e.instrument == o.instrument)
       && (e.status == Acked ==> e.side == o.side && e.wire == o.wire && e.price == o.price && e.filledQty == 0)
       && (e.status == Cancelled ==> e.side == o.side && e.wire == o.wire && e.filledQty == 0)
  }

  predicate AllNamed(calls: seq<Call>, sent: seq<Exec>) {
    forall i :: 0 <= i < |sent| ==> Named(calls, sent[i])
  }

  /** What holds after the calls so far. */
  ghost predicate TermsOk(calls: seq<Call>, g: Gate) {
    AllRemembered(calls, g.engine.log, g.live) && AllNamed(calls, g.sent)
  }

  // --- Fills ----------------------------------------------------------------------------------

  lemma {:induction false} PublishTerms(calls: seq<Call>, log: seq<Entry>, g: Gate, r: Report)
    requires AllRemembered(calls, log, g.live) && AllNamed(calls, g.sent)
    ensures AllRemembered(calls, log, Publish(g, r).live) && AllNamed(calls, Publish(g, r).sent)
  {
    hide SentOrder, LastAsked, Origin, Accepts, Scaled;
    var g' := Publish(g, r);
    assert Remembered(calls, log, g.live, r.orderId);
    forall id: nat ensures Remembered(calls, log, g'.live, id) {
      assert Remembered(calls, log, g.live, id);
    }
  }

  lemma {:induction false} PublishAllTerms(calls: seq<Call>, log: seq<Entry>, g: Gate, reports: seq<Report>)
    requires AllRemembered(calls, log, g.live) && AllNamed(calls, g.sent)
    ensures var g' := PublishAll(g, reports);
            AllRemembered(calls, log, g'.live) && AllNamed(calls, g'.sent)
    decreases |reports|
  {
    hide Publish, AllRemembered, AllNamed;
    if reports != [] {
      PublishTerms(calls, log, g, reports[0]);
      PublishAllTerms(calls, log, Publish(g, reports[0]), reports[1..]);
    }
  }

  lemma {:induction false} SameOrigins(calls: seq<Call>, log: seq<Entry>, log': seq<Entry>, live: map<nat, Live>)
    requires AllRemembered(calls, log, live) && forall id: nat :: id in live ==> Origin(log', id) == Origin(log, id)
    ensures AllRemembered(calls, log', live)
  {
    hide SentOrder, LastAsked, Origin, Accepts;
    forall id: nat ensures Remembered(calls, log', live, id) {
      assert Remembered(calls, log, live, id);
    }
  }

  /** Nothing but fills has happened in the engine. */
  lemma {:induction false} EventTerms(calls: seq<Call>, g: Gate, s: State, reports: seq<Report>)
    requires TermsOk(calls, g) && s.log == g.engine.log + Entries(reports)
    ensures TermsOk(calls, PublishAll(g.(engine := s), reports))
  {
    hide AllRemembered, AllNamed, Origin, Entries;
    forall id: nat | id in g.live ensures Origin(s.log, id) == Origin(g.engine.log, id) {
      OriginOfReports(g.engine.log, reports, id);
    }
    SameOrigins(calls, g.engine.log, s.log, g.live);
    PublishAllTerms(calls, s.log, g.(engine := s), reports);
    PublishAllEngine(g.(engine := s), reports);
  }

  lemma {:induction false} PublishAllEngine(g: Gate, reports: seq<Report>)
    ensures PublishAll(g, reports).engine == g.engine && PublishAll(g, reports).rejected == g.rejected
    decreases |reports|
  {
    if reports != [] { PublishAllEngine(Publish(g, reports[0]), reports[1..]); }
  }

  // --- A call more --------------------------------------------------------------------------------

  lemma {:induction false} CallsSnoc(calls: seq<Call>, call: Call, id: nat)
    ensures SentOrder(calls + [call], id)
         == if call.NewCall? && call.order.id == id then Some(call.order) else SentOrder(calls, id)
    ensures LastAsked(calls + [call], id)
         == if call.NewCall? && call.order.id == id then Some(AskedBy(call.order))
            else if call.ModifyCall? && call.id == id && LastAsked(calls, id).Some? then
              Some(Asked(call.price, call.quantity,
                         if LastAsked(calls, id).value.kind == PostOnly then PostOnly else Limit))
            else LastAsked(calls, id)
  {
    assert (calls + [call])[..|calls|] == calls;
  }

  /** A call about one order says nothing about the others. */
  lemma {:induction false} TermsOfOthers(calls: seq<Call>, call: Call, g: Gate, live: map<nat, Live>, id: nat)
    requires TermsOk(calls, g) && (call.NewCall? ==> call.order.id == id && Of(g.sent, id) == [])
    requires call.ModifyCall? ==> call.id == id
    requires forall k: nat :: k in live && k != id ==> k in g.live && live[k] == g.live[k]
    ensures AllNamed(calls + [call], g.sent)
    ensures forall k: nat :: k != id ==> Remembered(calls + [call], g.engine.log, live, k)
  {
    hide SentOrder, LastAsked, Origin, Accepts;
    forall i | 0 <= i < |g.sent| ensures Named(calls + [call], g.sent[i]) {
      CallsSnoc(calls, call, g.sent[i].id);
      if g.sent[i].id == id && call.NewCall? { Reported(g.sent, i); }
      assert Named(calls, g.sent[i]);
    }
    forall k: nat | k != id ensures Remembered(calls + [call], g.engine.log, live, k) {
      CallsSnoc(calls, call, k);
      assert Remembered(calls, g.engine.log, g.live, k);
    }
  }

  lemma {:induction false} Reported(sent: seq<Exec>, i: nat)
    requires i < |sent|
    ensures Of(sent, sent[i].id) != []
  {
    if i < |sent| - 1 {
      Reported(sent[..|sent| - 1], i);
    }
  }

  /** A call that is about no order in particular. */
  lemma {:induction false} TermsSame(calls: seq<Call>, call: Call, g: Gate)
    requires TermsOk(calls, g) && !call.NewCall? && !call.ModifyCall?
    ensures TermsOk(calls + [call], g)
  {
    hide SentOrder, LastAsked, Origin, Accepts;
    forall i | 0 <= i < |g.sent| ensures Named(calls + [call], g.sent[i]) {
      CallsSnoc(calls, call, g.sent[i].id);
      assert Named(calls, g.sent[i]);
    }
    forall k: nat ensures Remembered(calls + [call], g.engine.log, g.live, k) {
      CallsSnoc(calls, call, k);
      assert Remembered(calls, g.engine.log, g.live, k);
    }
  }

  lemma {:induction false} FewerRemembered(calls: seq<Call>, log: seq<Entry>, live: map<nat, Live>, id: nat)
    requires forall k: nat :: k != id ==> Remembered(calls, log, live, k)
    ensures AllRemembered(calls, log, live - {id})
  {
    hide SentOrder, LastAsked, Origin, Accepts;
    forall k: nat ensures Remembered(calls, log, live - {id}, k) {
      if k != id { assert Remembered(calls, log, live, k); }
    }
  }

  // --- Placing ----------------------------------------------------------------------------------

  /** The gateway has entered `id` in its map, for the engine to take as `order`. */
  ghost predicate Entered(calls: seq<Call>, g: Gate, id: nat, order: Order) {
    && AllNamed(calls, g.sent)
    && (forall k: nat :: k != id ==> Remembered(calls, g.engine.log, g.live, k))
    && id in g.live && SentOrder(calls, id).Some? && LastAsked(calls, id).Some?
    && var (lo, o, asked) := (g.live[id], SentOrder(calls, id).value, LastAsked(calls, id).value);
       && lo.venue == o.venue && lo.instrument == o.instrument && lo.side == o.side && lo.wire == o.wire
       && lo.symbol == o.symbol && lo.postOnly == o.postOnly
       && lo.price == asked.price && lo.quantity == asked.quantity
       && (lo.postOnly <==> asked.kind == PostOnly)
       && Accepts(order, o, asked)
  }

  lemma {:induction false} PlaceTerms(calls: seq<Call>, g: Gate, id: nat, order: Order)
    requires Entered(calls, g, id, order) && order.id == id && Quiet(g.engine)
    ensures var g' := Place(g, order);
            if Refused(g.engine, order) then g' == g else TermsOk(calls, g')
  {
    hide SentOrder, LastAsked, Submit, NewlyDelivered, Refused, AllNamed, Origin, PublishAll, Entries, Match, Arrived;
    var s, s' := g.engine, Submit(g.engine, order, NO_LATENCY);
    QuietSubmit(s, order);
    PublishNothing(g);
    if !Refused(s, order) {
      var o' := Stamped(s, order);
      var log1, g1 := s.log + [Accepted(o')], g.(engine := s');
      forall k: nat ensures Remembered(calls, s'.log, g.live, k) {
        LogSnoc(s.log, Accepted(o'), k);
        OriginOfReports(log1, NewlyDelivered(s, s'), k);
        if k != id { assert Remembered(calls, s.log, g.live, k); }
      }
      PublishAllTerms(calls, s'.log, g1, NewlyDelivered(s, s'));
      PublishAllEngine(g1, NewlyDelivered(s, s'));
    }
  }

  lemma {:induction false} NamedSnoc(calls: seq<Call>, sent: seq<Exec>, e: Exec)
    requires AllNamed(calls, sent) && Named(calls, e)
    ensures AllNamed(calls, sent + [e])
  {
    hide Named;
  }

  lemma {:induction false} ScaleIs()
    ensures QTY_SCALE == 100000000.0
  {
  }

  lemma {:induction false} NewEntered(calls: seq<Call>, g: Gate, o: NewOrder)
    requires TermsOk(calls, g) && o.id !in g.live && Of(g.sent, o.id) == []
    ensures var g0 := g.(live := g.live[o.id := NewLive(o)]);
            Entered(calls + [NewCall(o)], g0, o.id, EngineOrder(o.id, NewLive(o), KindOf(o.wire, o.postOnly)))
  {
    hide SentOrder, LastAsked, AllNamed, Remembered;
    TermsOfOthers(calls, NewCall(o), g, g.live[o.id := NewLive(o)], o.id);
    CallsSnoc(calls, NewCall(o), o.id);
  }

  lemma {:induction false} NewTerms(calls: seq<Call>, g: Gate, o: NewOrder)
    requires TermsOk(calls, g) && Quiet(g.engine) && o.id !in g.live && Of(g.sent, o.id) == []
    ensures TermsOk(calls + [NewCall(o)], SendNew(g, o).0)
  {
    hide Place, Refused, AllRemembered, AllNamed, SentOrder, LastAsked, Remembered, Entered, EngineOrder, Of;
    var past := calls + [NewCall(o)];
    var lo := NewLive(o);
    var order := EngineOrder(o.id, lo, KindOf(o.wire, o.postOnly));
    var g0 := g.(live := g.live[o.id := lo]);
    NewEntered(calls, g, o);
    if !WellFormed(o) {
      TermsOfOthers(calls, NewCall(o), g, g.live, o.id);
      FewerRemembered(past, g.engine.log, g.live, o.id);
      assert g.live - {o.id} == g.live;
    } else {
      OrderId(o.id, lo, KindOf(o.wire, o.postOnly));
      PlaceTerms(past, g0, o.id, order);
      var g1 := Place(g0, order);
      if Refused(g.engine, order) {
        EnteredOthers(past, g0, o.id, order);
        FewerRemembered(past, g.engine.log, g0.live, o.id);
      } else if o.id in g1.live && g1.live[o.id].cum < o.quantity {
        var e := StatusReport(o.id, o.venue, o.instrument, Acked, lo.(cum := g1.live[o.id].cum));
        CallsSnoc(calls, NewCall(o), o.id);
        AckNamed(past, o, e);
        NamedSnoc(past, g1.sent, e);
      }
    }
  }

  lemma {:induction false} EnteredOthers(calls: seq<Call>, g: Gate, id: nat, order: Order)
    requires Entered(calls, g, id, order)
    ensures AllNamed(calls, g.sent) && forall k: nat :: k != id ==> Remembered(calls, g.engine.log, g.live, k)
  {
  }

  lemma {:induction false} OrderId(id: nat, lo: Live, kind: Kind)
    ensures EngineOrder(id, lo, kind).id == id
  {
  }

  lemma {:induction false} AckNamed(calls: seq<Call>, o: NewOrder, e: Exec)
    requires SentOrder(calls, o.id) == Some(o)
    requires exists cum: nat :: e == StatusReport(o.id, o.venue, o.instrument, Acked, NewLive(o).(cum := cum))
    ensures Named(calls, e)
  {
  }

  /** The report of a cancel. */
  lemma {:induction false} CancelNamed(calls: seq<Call>, log: seq<Entry>, live: map<nat, Live>, id: nat, e: Exec)
    requires Remembered(calls, log, live, id) && id in live && e.id == id && e.status == Cancelled
    requires e.side == live[id].side && e.wire == live[id].wire && e.filledQty == 0
    ensures Named(calls, e)
  {
  }

  lemma {:induction false} CancelTerms(calls: seq<Call>, g: Gate, id: nat, venue: Venue, instrument: nat)
    requires TermsOk(calls, g) && Quiet(g.engine)
    ensures TermsOk(calls, SendCancel(g, id, venue, instrument))
  {
    hide Cancel, AllNamed, SentOrder, LastAsked, Remembered, Origin;
    if id in g.live {
      var lo := g.live[id];
      QuietCancel(g.engine, VenueName(lo.venue), lo.symbol, id);
      var g' := SendCancel(g, id, venue, instrument);
      if g'.live != g.live {
        var e := StatusReport(id, venue, instrument, Cancelled, lo);
        CancelNamed(calls, g.engine.log, g.live, id, e);
        NamedSnoc(calls, g.sent, e);
        forall k: nat | k != id ensures Remembered(calls, g'.engine.log, g.live, k) {
          assert Remembered(calls, g.engine.log, g.live, k);
          OriginStays(calls, g.engine.log, Withdrawn(id), g.live, k);
        }
        FewerRemembered(calls, g'.engine.log, g.live, id);
      }
    }
  }

  lemma {:induction false} OriginStays(calls: seq<Call>, log: seq<Entry>, e: Entry, live: map<nat, Live>, k: nat)
    requires Remembered(calls, log, live, k) && !Resets(e, k)
    ensures Remembered(calls, log + [e], live, k)
  {
    hide SentOrder, LastAsked, Accepts;
    LogSnoc(log, e, k);
  }

  lemma {:induction false} CancelEachTerms(calls: seq<Call>, g: Gate, ids: seq<nat>, venue: Venue, instrument: nat)
    requires TermsOk(calls, g) && GateOk(g)
    ensures TermsOk(calls, CancelEach(g, ids, venue, instrument))
    decreases |ids|
  {
    hide TermsOk, SendCancel, Sound, Coupled, AllKnown;
    if ids != [] {
      CancelTerms(calls, g, ids[0], venue, instrument);
      SendCancelKeeps(g, ids[0], venue, instrument);
      CancelEachTerms(calls, SendCancel(g, ids[0], venue, instrument), ids[1..], venue, instrument);
    }
  }

  // --- Modifying ----------------------------------------------------------------------------------

  lemma {:induction false} SentUnder(calls: seq<Call>, id: nat)
    requires SentOrder(calls, id).Some?
    ensures SentOrder(calls, id).value.id == id
  {
    if !(calls[|calls| - 1].NewCall? && calls[|calls| - 1].order.id == id) {
      SentUnder(calls[..|calls| - 1], id);
    }
  }

  lemma {:induction false} EngineTakes(lo: Live, o: NewOrder, asked: Asked)
    requires lo.venue == o.venue && lo.side == o.side && lo.symbol == o.symbol
    requires lo.price == asked.price && lo.quantity == asked.quantity
    ensures Accepts(EngineOrder(o.id, lo, asked.kind), o, asked)
  {
  }

  lemma {:induction false} ModifyEntered(calls: seq<Call>, g: Gate, id: nat, price: int, quantity: nat)
    requires TermsOk(calls, g) && Quiet(g.engine) && id in g.live
    ensures var lo := g.live[id].(price := price, quantity := quantity);
            var s := Cancel(g.engine, VenueName(lo.venue), lo.symbol, id).0;
            && Quiet(s)
            && Entered(calls + [ModifyCall(id, price, quantity)], g.(engine := s, live := g.live[id := lo]), id,
                       EngineOrder(id, lo, if lo.postOnly then PostOnly else Limit))
  {
    hide Cancel, SentOrder, LastAsked, AllNamed, Origin;
    var call := ModifyCall(id, price, quantity);
    var lo := g.live[id].(price := price, quantity := quantity);
    var live := g.live[id := lo];
    assert Remembered(calls, g.engine.log, g.live, id);
    CallsSnoc(calls, call, id);
    TermsOfOthers(calls, call, g, live, id);
    QuietCancel(g.engine, VenueName(lo.venue), lo.symbol, id);
    var s := Cancel(g.engine, VenueName(lo.venue), lo.symbol, id).0;
    forall k: nat | k != id ensures Remembered(calls + [call], s.log, live, k) {
      assert Remembered(calls + [call], g.engine.log, live, k);
      if s.log != g.engine.log { OriginStays(calls + [call], g.engine.log, Withdrawn(id), live, k); }
    }
    SentUnder(calls, id);
    EngineTakes(lo, SentOrder(calls, id).value, LastAsked(calls + [call], id).value);
  }

  lemma {:induction false} ModifyTerms(calls: seq<Call>, g: Gate, id: nat, price: int, quantity: nat)
    requires TermsOk(calls, g) && Quiet(g.engine)
    ensures TermsOk(calls + [ModifyCall(id, price, quantity)], SendModify(g, id, price, quantity))
  {
    hide Place, Refused, Cancel, AllRemembered, AllNamed, SentOrder, LastAsked, Remembered, Entered, EngineOrder, Quiet;
    var call := ModifyCall(id, price, quantity);
    var past := calls + [call];
    if id !in g.live {
      TermsOfOthers(calls, call, g, g.live, id);
      FewerRemembered(past, g.engine.log, g.live, id);
      assert g.live - {id} == g.live;
    } else {
      var lo := g.live[id].(price := price, quantity := quantity);
      var kind := if lo.postOnly then PostOnly else Limit;
      var order := EngineOrder(id, lo, kind);
      var s := Cancel(g.engine, VenueName(lo.venue), lo.symbol, id).0;
      var g0 := g.(engine := s, live := g.live[id := lo]);
      ModifyEntered(calls, g, id, price, quantity);
      OrderId(id, lo, kind);
      PlaceTerms(past, g0, id, order);
      if Refused(s, order) {
        EnteredOthers(past, g0, id, order);
        FewerRemembered(past, s.log, g0.live, id);
        var e := StatusReport(id, lo.venue, lo.instrument, Cancelled, lo);
        EndNamed(past, g0, id, order, e);
        NamedSnoc(past, g0.sent, e);
      }
    }
  }

  lemma {:induction false} EndNamed(calls: seq<Call>, g: Gate, id: nat, order: Order, e: Exec)
    requires Entered(calls, g, id, order) && e.id == id && e.status == Cancelled
    requires e.side == g.live[id].side && e.wire == g.live[id].wire && e.filledQty == 0
    ensures Named(calls, e)
  {
  }

  // --- Runs -----------------------------------------------------------------------------------------

  lemma {:induction false} StepTerms(calls: seq<Call>, g: Gate, call: Call)
    requires TermsOk(calls, g) && GateOk(g) && GateValid(g, call)
    ensures TermsOk(calls + [call], GateStep(g, call))
  {
    hide TermsOk, Sound, Coupled, AllKnown, SendNew, SendCancel, SendModify, CancelEach, PublishAll, OnSnapshot,
         OnTrade, NewlyDelivered, Of, Lists;
    match call
    case NewCall(o) => NewTerms(calls, g, o);
    case CancelCall(id, venue, instrument) =>
      TermsSame(calls, call, g);
      CancelTerms(calls + [call], g, id, venue, instrument);
    case CancelAllCall(venue, instrument, listing) =>
      TermsSame(calls, call, g);
      CancelEachTerms(calls + [call], g, listing, venue, instrument);
    case ModifyCall(id, price, quantity) => ModifyTerms(calls, g, id, price, quantity);
    case SnapshotCall(book) =>
      TermsSame(calls, call, g);
      QuietSnapshot(g.engine, book);
      var s := OnSnapshot(g.engine, book, NO_LATENCY);
      EventTerms(calls + [call], g, s, NewlyDelivered(g.engine, s));
    case TradeCall(t) =>
      TermsSame(calls, call, g);
      QuietTrade(g.engine, t);
      var s := OnTrade(g.engine, t, NO_LATENCY);
      EventTerms(calls + [call], g, s, NewlyDelivered(g.engine, s));
  }

  lemma {:induction false} TermsFrom(past: seq<Call>, g: Gate, calls: seq<Call>)
    requires TermsOk(past, g) && GateOk(g) && GateValidRun(g, calls)
    ensures TermsOk(past + calls, GateRun(g, calls))
    decreases |calls|
  {
    hide TermsOk, GateOk, GateValid, GateStep;
    if calls == [] {
      assert past + calls == past;
    } else {
      StepTerms(past, g, calls[0]);
      GateStepKeeps(g, calls[0]);
      TermsFrom(past + [calls[0]], GateStep(g, calls[0]), calls[1..]);
      assert past + calls == past + [calls[0]] + calls[1..];
    }
  }

  /** Over every run: a live order is the one last sent under its id, on the terms
      last asked for, and on those the engine holds it; and every report names the
      venue and instrument its order was sent with, a cancel those its caller
      gave. */
  lemma {:induction false} TermsOfRun(calls: seq<Call>)
    requires GateValidRun(GATE_INITIAL, calls)
    ensures var g := GateRun(GATE_INITIAL, calls);
            && (forall id: nat :: Remembered(calls, g.engine.log, g.live, id))
            && forall i :: 0 <= i < |g.sent| ==> Named(calls, g.sent[i])
  {
    hide GateOk, GateValidRun, GateRun, Remembered, Named;
    GateInitialOk();
    NothingAsked();
    TermsFrom([], GATE_INITIAL, calls);
    assert [] + calls == calls;
  }

  lemma {:induction false} NothingAsked()
    ensures TermsOk([], GATE_INITIAL)
  {
  }
}
