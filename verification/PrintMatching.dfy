/** A trade print eats a slot queue from the front (fill_against_trade in
    matching_engine_fills.cpp). */
module PrintMatching {
  import opened Orders
  import opened SlotQueues
  import opened FillAccounts

  datatype Consumed = Consumed(queue: seq<Slot>, orders: seq<Order>, reports: seq<Report>)

  /** The report of `take` against the resting order `o`, already credited. */
  function MakerReport(o: Order, take: real, now: nat): Report {
    Report(o.id, o.clientId, o.exchange, o.symbol, Limit, o.side, Maker, o.quantity,
           o.price, take, o.price, o.filled, o.filled >= o.quantity - EPS, now)
  }

  /** Credits `take` to the first order with this id and reports it. */
  function Credit(orders: seq<Order>, id: nat, take: real, now: nat): (seq<Order>, seq<Report>) {
    if orders == [] then ([], [])
    else if orders[0].id == id then
      var o := orders[0].(filled := orders[0].filled + take);
      ([o] + orders[1..], [MakerReport(o, take, now)])
    else
      var rest := Credit(orders[1..], id, take, now);
      ([orders[0]] + rest.0, rest.1)
  }

  /** What becomes of the queue when its front slot loses `take`. */
  function Shorten(q: seq<Slot>, take: real): seq<Slot>
    requires q != []
  {
    var left := q[0].qty - take;
    if left <= EPS then q[1..] else [q[0].(qty := left)] + q[1..]
  }

  /** Only an own slot has an order to credit. */
  function CreditFront(s: Slot, orders: seq<Order>, take: real, now: nat): (seq<Order>, seq<Report>) {
    if s.owner.Some? then Credit(orders, s.owner.value, take, now) else (orders, [])
  }

  function Consume(q: seq<Slot>, orders: seq<Order>, size: real, now: nat): Consumed
    decreases |q|, if size > 0.0 then 1 else 0
  {
    if size <= 0.0 || q == [] then Consumed(q, orders, [])
    else
      var take := Min(size, q[0].qty);
      var front := CreditFront(q[0], orders, take, now);
      var rest := Consume(Shorten(q, take), front.0, size - take, now);
      Consumed(rest.queue, rest.orders, front.1 + rest.reports)
  }

  predicate Done(o: Order) {
    o.seeded && o.filled >= o.quantity - EPS
  }

  /** Drops the seeded orders that have nothing left. */
  function DropDone(orders: seq<Order>): seq<Order> {
    if orders == [] then []
    else if Done(orders[0]) then DropDone(orders[1..])
    else [orders[0]] + DropDone(orders[1..])
  }

  // --- Closed form -----------------------------------------------------------

  /** How much of `x` falls into a slot of size `qty`. */
  function Clip(qty: real, x: real): real {
    Max(0.0, Min(qty, x))
  }

  /** What a print takes from slot i: the part of it that reaches past the
      quantity queued ahead. */
  function Eaten(q: seq<Slot>, i: nat, size: real): real
    requires i < |q|
  {
    Clip(q[i].qty, size - Total(q[..i]))
  }

  /** The own slots a print reaches, with what it takes from each. */
  function OwnEaten(q: seq<Slot>, ahead: real, size: real): seq<Claim> {
    if q == [] then []
    else
      var eaten := Clip(q[0].qty, size - ahead);
      (if q[0].owner.Some? && eaten > 0.0 then [Claim(q[0].owner.value, eaten)] else [])
      + OwnEaten(q[1..], ahead + q[0].qty, size)
  }

  function ReportClaims(reports: seq<Report>): seq<Claim> {
    if reports == [] then []
    else [Claim(reports[0].orderId, reports[0].lastQty)] + ReportClaims(reports[1..])
  }

  lemma {:induction false} ReportClaimsAppend(a: seq<Report>, b: seq<Report>)
    ensures ReportClaims(a + b) == ReportClaims(a) + ReportClaims(b)
  {
    if a == [] {
      assert a + b == b;
    } else {
      assert (a + b)[1..] == a[1..] + b;
      ReportClaimsAppend(a[1..], b);
    }
  }

  lemma {:induction false} PrintNothing(q: seq<Slot>, orders: seq<Order>, size: real, now: nat)
    requires size <= 0.0
    ensures Consume(q, orders, size, now) == Consumed(q, orders, [])
  {
  }

  /** `s` is what is left of slot i, more than dust if the print touched it. */
  predicate Kept(q: seq<Slot>, i: nat, s: Slot, size: real)
    requires i < |q|
  {
    && s.owner == q[i].owner
    && s.qty == q[i].qty - Eaten(q, i, size) > 0.0
    && (Eaten(q, i, size) > 0.0 ==> s.qty > EPS)
  }

  /** `r` is what is left of `q` once every slot has lost its eaten part: the
      slot at index i of `r` is the slot at index k + i of `q`, where the first
      k slots are gone with at most dust left in the last of them. */
  ghost predicate LeftOver(q: seq<Slot>, r: seq<Slot>, size: real) {
    var k := |q| - |r|;
    && 0 <= k
    && (forall i :: 0 <= i < k ==> q[i].qty - Eaten(q, i, size) <= EPS)
    && (forall i :: 0 <= i < k - 1 ==> Eaten(q, i, size) == q[i].qty)
    && (forall i :: 0 <= i < |r| ==> Kept(q, k + i, r[i], size))
  }

  lemma {:induction false} EatenShift(q: seq<Slot>, i: nat, size: real)
    requires 1 <= i < |q|
    ensures Eaten(q, i, size) == Eaten(q[1..], i - 1, size - q[0].qty)
  {
    assert q[..i][1..] == q[1..][..i - 1];
  }

  lemma {:induction false} EatenPast(q: seq<Slot>, i: nat, size: real)
    requires Positive(q) && i < |q|
    requires size <= 0.0 || (1 <= i && size <= q[0].qty)
    ensures Eaten(q, i, size) == 0.0
  {
    AheadNonNegative(q, i);
    if 1 <= i { AheadGrows(q, i); }
  }

  lemma {:induction false} LeftOverAll(q: seq<Slot>, size: real)
    requires Positive(q) && (size <= 0.0 || q == [])
    ensures LeftOver(q, q, size)
  {
    forall i | 0 <= i < |q| ensures Eaten(q, i, size) == 0.0 { EatenPast(q, i, size); }
  }

  lemma {:induction false} LeftOverFront(q: seq<Slot>, size: real)
    requires Positive(q) && q != [] && 0.0 < size && q[0].qty - size > EPS
    ensures LeftOver(q, [q[0].(qty := q[0].qty - size)] + q[1..], size)
  {
    assert q[..0] == [];
    forall i | 1 <= i < |q| ensures Eaten(q, i, size) == 0.0 { EatenPast(q, i, size); }
  }

  lemma {:induction false} EatenFirst(q: seq<Slot>, size: real)
    requires Positive(q) && q != [] && 0.0 < size
    ensures Eaten(q, 0, size) == Min(size, q[0].qty)
  {
    assert q[..0] == [];
  }

  lemma {:induction false} KeptShift(q: seq<Slot>, i: nat, s: Slot, size: real)
    requires Positive(q) && 1 <= i < |q|
    requires if size < q[0].qty then s == q[i] else Kept(q[1..], i - 1, s, size - q[0].qty)
    ensures Kept(q, i, s, size)
  {
    EatenShift(q, i, size);
    if size < q[0].qty { EatenPast(q, i, size); }
    assert q[1..][i - 1] == q[i];
  }

  lemma {:induction false} LeftOverPop(q: seq<Slot>, r: seq<Slot>, size: real)
    requires Positive(q) && q != [] && 0.0 < size
    requires q[0].qty - size <= EPS
    requires if size < q[0].qty then r == q[1..] else LeftOver(q[1..], r, size - q[0].qty)
    ensures LeftOver(q, r, size)
  {
    hide Eaten, Kept;
    EatenFirst(q, size);
    var k := |q| - |r|;
    forall i | 0 <= i < |r| ensures Kept(q, k + i, r[i], size) {
      KeptShift(q, k + i, r[i], size);
    }
    forall i | 0 <= i < k
      ensures q[i].qty - Eaten(q, i, size) <= EPS
      ensures i < k - 1 ==> Eaten(q, i, size) == q[i].qty
    {
      if i > 0 {
        EatenShift(q, i, size);
        assert q[1..][i - 1] == q[i];
      }
    }
  }

  lemma {:induction false} PrintClosedForm(q: seq<Slot>, orders: seq<Order>, size: real, now: nat)
    requires Positive(q)
    ensures LeftOver(q, Consume(q, orders, size, now).queue, size)
    decreases |q|
  {
    hide CreditFront, LeftOver;
    if size <= 0.0 || q == [] {
      LeftOverAll(q, size);
    } else {
      var take := Min(size, q[0].qty);
      var credited := CreditFront(q[0], orders, take, now).0;
      if q[0].qty - take > EPS {
        PrintNothing(Shorten(q, take), credited, size - take, now);
        LeftOverFront(q, size);
      } else {
        if size < q[0].qty {
          PrintNothing(q[1..], credited, size - take, now);
        } else {
          PrintClosedForm(q[1..], credited, size - take, now);
        }
        LeftOverPop(q, Consume(q, orders, size, now).queue, size);
      }
    }
  }

  lemma {:induction false} AheadNonNegative(q: seq<Slot>, i: nat)
    requires Positive(q) && i <= |q|
    ensures Total(q[..i]) >= 0.0
  {
    TotalsNonNegative(q[..i]);
  }

  lemma {:induction false} AheadGrows(q: seq<Slot>, i: nat)
    requires Positive(q) && 1 <= i <= |q|
    ensures Total(q[..i]) >= q[0].qty
  {
    assert q[..i][1..] == q[1..][..i - 1];
    AheadNonNegative(q[1..], i - 1);
  }

  /** A print of this size takes min(size, level total) from the level, apart from the
      dust of at most one slot. */
  lemma {:induction false} PrintConserves(q: seq<Slot>, orders: seq<Order>, size: real, now: nat)
    requires Positive(q)
    ensures var taken := Max(0.0, Min(size, Total(q)));
            taken <= Total(q) - Total(Consume(q, orders, size, now).queue) <= taken + EPS
    decreases |q|
  {
    hide CreditFront;
    TotalsNonNegative(q);
    if size > 0.0 && q != [] {
      var take := Min(size, q[0].qty);
      var credited := CreditFront(q[0], orders, take, now).0;
      TotalsNonNegative(q[1..]);
      if size < q[0].qty {
        PrintNothing(Shorten(q, take), credited, size - take, now);
      } else {
        PrintConserves(q[1..], credited, size - take, now);
      }
    }
  }

  // --- Coupling with the resting orders ---------------------------------------

  /** With distinct ids, crediting updates the one order with that id. */
  lemma {:induction false} CreditAt(orders: seq<Order>, id: nat, take: real, now: nat, k: nat)
    requires DistinctIds(orders) && k < |orders| && orders[k].id == id
    ensures var o := orders[k].(filled := orders[k].filled + take);
            Credit(orders, id, take, now) == (orders[k := o], [MakerReport(o, take, now)])
  {
    if k > 0 {
      assert orders[0].id != orders[k].id;
      CreditAt(orders[1..], id, take, now, k - 1);
      var o := orders[k].(filled := orders[k].filled + take);
      assert orders[k := o] == [orders[0]] + orders[1..][k - 1 := o];
    } else {
      var o := orders[0].(filled := orders[0].filled + take);
      assert orders[0 := o] == [o] + orders[1..];
    }
  }

  /** Taking from the front claim of a level takes the same amount from the
      front claim of that level's resting orders, and leaves the claims at
      every other level alone. */
  lemma {:induction false} CreditClaims(orders: seq<Order>, id: nat, take: real, now: nat, side: Side, price: int)
    requires DistinctIds(orders)
    requires var a := Resting(orders, side, price); a != [] && a[0].id == id
    ensures var os := Credit(orders, id, take, now).0;
            var a := Resting(orders, side, price);
            && Resting(os, side, price)
               == (if a[0].qty - take > EPS then [Claim(id, a[0].qty - take)] else []) + a[1..]
  {
    var a := Resting(orders, side, price);
    var os := Credit(orders, id, take, now).0;
    if Rests(orders[0], side, price) {
      assert orders[0].id == id;
      assert a[1..] == Resting(orders[1..], side, price);
      assert os[1..] == orders[1..];
    } else {
      RestingSource(orders, side, price, a[0]);
      assert orders[0].id != id;
      CreditClaims(orders[1..], id, take, now, side, price);
      assert os == [orders[0]] + Credit(orders[1..], id, take, now).0;
      assert os[1..] == Credit(orders[1..], id, take, now).0;
    }
  }

  lemma {:induction false} CreditElsewhere(orders: seq<Order>, id: nat, take: real, now: nat, side: Side, price: int)
    requires forall i :: 0 <= i < |orders| && orders[i].id == id ==>
               orders[i].side != side || orders[i].price != price
    ensures Resting(Credit(orders, id, take, now).0, side, price) == Resting(orders, side, price)
  {
    if orders != [] {
      var os := Credit(orders, id, take, now).0;
      if orders[0].id == id {
        assert os[1..] == orders[1..];
      } else {
        CreditElsewhere(orders[1..], id, take, now, side, price);
        assert os[1..] == Credit(orders[1..], id, take, now).0;
      }
    }
  }

  /** What a print may do to the list of resting orders. */
  predicate OnlyFilledChanged(before: seq<Order>, after: seq<Order>) {
    |before| == |after| && forall i :: 0 <= i < |before| ==> after[i] == before[i].(filled := after[i].filled)
  }

  /** Outside the level's resting orders nothing changes. */
  predicate OnlyRestingChanged(before: seq<Order>, after: seq<Order>, side: Side, price: int) {
    && OnlyFilledChanged(before, after)
    && forall i :: 0 <= i < |before| && !Rests(before[i], side, price) ==> after[i] == before[i]
  }

  /** The order behind an own slot at the front of the queue. */
  lemma {:induction false} FrontOrder(q: seq<Slot>, orders: seq<Order>, side: Side, price: int) returns (k: nat)
    requires q != [] && q[0].owner.Some? && Own(q) == Resting(orders, side, price)
    ensures k < |orders| && Rests(orders[k], side, price)
    ensures orders[k].id == q[0].owner.value && Remaining(orders[k]) == q[0].qty
  {
    var c := Claim(q[0].owner.value, q[0].qty);
    assert Own(q)[0] == c;
    RestingSource(orders, side, price, c);
    k :| 0 <= k < |orders| && Rests(orders[k], side, price)
         && orders[k].id == c.id && Remaining(orders[k]) == c.qty;
  }

  lemma {:induction false} FilledOnly(orders: seq<Order>, k: nat, filled: real, side: Side, price: int)
    requires DistinctIds(orders) && k < |orders| && Rests(orders[k], side, price)
    ensures var os := orders[k := orders[k].(filled := filled)];
            DistinctIds(os) && OnlyRestingChanged(orders, os, side, price)
  {
  }

  lemma {:induction false} ShortenClaims(q: seq<Slot>, orders: seq<Order>, take: real, now: nat, side: Side, price: int)
    requires q != [] && DistinctIds(orders) && q[0].owner.Some?
    requires Own(q) == Resting(orders, side, price)
    ensures Own(Shorten(q, take)) == Resting(Credit(orders, q[0].owner.value, take, now).0, side, price)
  {
    var id := q[0].owner.value;
    assert Own(q) == [Claim(id, q[0].qty)] + Own(q[1..]);
    CreditClaims(orders, id, take, now, side, price);
    if q[0].qty - take > EPS { assert Shorten(q, take)[1..] == q[1..]; }
  }

  /** One slot of a print. */
  lemma {:induction false} FrontKeepsClaims(q: seq<Slot>, orders: seq<Order>, take: real, now: nat,
                                            side: Side, price: int)
    requires q != [] && DistinctIds(orders)
    requires Own(q) == Resting(orders, side, price)
    ensures var (os, rs) := CreditFront(q[0], orders, take, now);
            && Own(Shorten(q, take)) == Resting(os, side, price)
            && OnlyRestingChanged(orders, os, side, price)
            && DistinctIds(os)
            && ReportClaims(rs) == if q[0].owner.Some? then [Claim(q[0].owner.value, take)] else []
  {
    if q[0].owner.Some? {
      ShortenClaims(q, orders, take, now, side, price);
      var k := FrontOrder(q, orders, side, price);
      var o := orders[k].(filled := orders[k].filled + take);
      CreditAt(orders, q[0].owner.value, take, now, k);
      FilledOnly(orders, k, o.filled, side, price);
      OneReport(MakerReport(o, take, now));
    } else {
      ShortenVenue(q, take);
    }
  }

  lemma {:induction false} OneReport(r: Report)
    ensures ReportClaims([r]) == [Claim(r.orderId, r.lastQty)]
  {
    assert [r][1..] == [];
  }

  lemma {:induction false} ShortenVenue(q: seq<Slot>, take: real)
    requires q != [] && q[0].owner.None?
    ensures Own(Shorten(q, take)) == Own(q)
  {
    if q[0].qty - take > EPS { assert Shorten(q, take)[1..] == q[1..]; }
  }

  lemma {:induction false} OnlyRestingTransitive(a: seq<Order>, b: seq<Order>, c: seq<Order>, side: Side, price: int)
    requires OnlyRestingChanged(a, b, side, price) && OnlyRestingChanged(b, c, side, price)
    ensures OnlyRestingChanged(a, c, side, price)
  {
  }

  /** The print keeps own slots and resting orders in step at its own level,
      and touches no other order. */
  lemma {:induction false} PrintKeepsClaims(q: seq<Slot>, orders: seq<Order>, size: real, now: nat,
                                            side: Side, price: int)
    requires DistinctIds(orders)
    requires Own(q) == Resting(orders, side, price)
    ensures var r := Consume(q, orders, size, now);
            && Own(r.queue) == Resting(r.orders, side, price)
            && OnlyRestingChanged(orders, r.orders, side, price)
            && Own(r.queue) == Resting(DropDone(r.orders), side, price)
            && (forall o :: o in DropDone(r.orders) <==> o in r.orders && !Done(o))
    decreases |q|, if size > 0.0 then 1 else 0
  {
    hide CreditFront;
    DropDoneClaims(Consume(q, orders, size, now).orders, side, price);
    DropDoneKeeps(Consume(q, orders, size, now).orders);
    if size > 0.0 && q != [] {
      var take := Min(size, q[0].qty);
      var credited := CreditFront(q[0], orders, take, now).0;
      FrontKeepsClaims(q, orders, take, now, side, price);
      PrintKeepsClaims(Shorten(q, take), credited, size - take, now, side, price);
      OnlyRestingTransitive(orders, credited, Consume(q, orders, size, now).orders, side, price);
    }
  }

  lemma {:induction false} SameClaims(before: seq<Order>, after: seq<Order>, side: Side, price: int)
    requires OnlyFilledChanged(before, after)
    requires forall i :: 0 <= i < |before| && before[i].side == side && before[i].price == price ==>
               after[i] == before[i]
    ensures Resting(after, side, price) == Resting(before, side, price)
  {
    if before != [] {
      assert after[0] == before[0].(filled := after[0].filled);
      SameClaims(before[1..], after[1..], side, price);
    }
  }

  lemma {:induction false} DropDoneClaims(orders: seq<Order>, side: Side, price: int)
    ensures Resting(DropDone(orders), side, price) == Resting(orders, side, price)
  {
    if orders != [] { DropDoneClaims(orders[1..], side, price); }
  }

  /** A print reports exactly the own slots it reaches, in queue order, each
      with the quantity the closed form gives it: no own slot is eaten in
      silence and no report is made up. */
  lemma {:induction false} PrintReports(q: seq<Slot>, orders: seq<Order>, size: real, now: nat,
                                        side: Side, price: int)
    requires Positive(q) && DistinctIds(orders)
    requires Own(q) == Resting(orders, side, price)
    ensures ReportClaims(Consume(q, orders, size, now).reports) == OwnEaten(q, 0.0, size)
    decreases |q|
  {
    hide CreditFront, OwnEaten, ReportClaims, Own, Resting, DistinctIds, OnlyRestingChanged;
    if size <= 0.0 || q == [] {
      NothingEaten(q, 0.0, size);
    } else {
      var take := Min(size, q[0].qty);
      var q', front := Shorten(q, take), CreditFront(q[0], orders, take, now);
      FrontKeepsClaims(q, orders, take, now, side, price);
      ReportClaimsAppend(front.1, Consume(q', front.0, size - take, now).reports);
      OwnEatenFront(q, size);
      if size < q[0].qty {
        PrintNothing(q', front.0, size - take, now);
        NothingEaten(q[1..], 0.0, size - q[0].qty);
      } else {
        PrintReports(q[1..], front.0, size - take, now, side, price);
      }
    }
  }

  lemma {:induction false} NothingEaten(q: seq<Slot>, ahead: real, size: real)
    requires Positive(q) && (size <= ahead || q == [])
    ensures OwnEaten(q, ahead, size) == []
    ensures ReportClaims([]) == []
  {
    if q != [] { NothingEaten(q[1..], ahead + q[0].qty, size); }
  }

  lemma {:induction false} OwnEatenFront(q: seq<Slot>, size: real)
    requires Positive(q) && q != [] && size > 0.0
    ensures OwnEaten(q, 0.0, size)
         == (if q[0].owner.Some? then [Claim(q[0].owner.value, Min(size, q[0].qty))] else [])
            + OwnEaten(q[1..], 0.0, size - q[0].qty)
  {
    var ahead := q[0].qty;
    OwnEatenShift(q[1..], ahead, size);
    assert Clip(q[0].qty, size - 0.0) == Min(size, q[0].qty) > 0.0;
    assert OwnEaten(q[1..], 0.0 + q[0].qty, size) == OwnEaten(q[1..], ahead, size);
  }

  lemma {:induction false} OwnEatenShift(q: seq<Slot>, ahead: real, size: real)
    ensures OwnEaten(q, ahead, size) == OwnEaten(q, 0.0, size - ahead)
  {
    if q != [] {
      OwnEatenShift(q[1..], ahead + q[0].qty, size);
      OwnEatenShift(q[1..], q[0].qty, size - ahead);
      assert size - (ahead + q[0].qty) == (size - ahead) - q[0].qty;
    }
  }

  lemma {:induction false} DropDoneKeeps(orders: seq<Order>)
    ensures Sublist(DropDone(orders), orders)
    ensures forall o :: o in DropDone(orders) <==> o in orders && !Done(o)
  {
    if orders != [] { DropDoneKeeps(orders[1..]); }
  }

  // --- Accounts ------------------------------------------------------------------

  lemma {:induction false} MakerFollows(o: Order, take: real, now: nat)
    requires o.kind != Market && Remaining(o) > EPS && 0.0 < take <= Remaining(o)
    ensures Follows(o, o.filled, MakerReport(o.(filled := o.filled + take), take, now))
  {
  }

  /** Crediting one order keeps every account. */
  lemma {:induction false} CreditAccounts(log: seq<Entry>, orders: seq<Order>, k: nat, take: real, now: nat)
    requires AccountsOk(log) && DistinctIds(orders) && AllTracked(log, orders) && k < |orders|
    requires orders[k].kind != Market && Remaining(orders[k]) > EPS && 0.0 < take <= Remaining(orders[k])
    ensures var o := orders[k].(filled := orders[k].filled + take);
            var os, log' := orders[k := o], log + [Filled(MakerReport(o, take, now))];
            AccountsOk(log') && AllTracked(log', os) && OthersSame(log, log', Ids(orders)) && Ids(os) == Ids(orders)
  {
    hide AccountsOk, Tracks, Follows, OthersSame;
    var o := orders[k].(filled := orders[k].filled + take);
    var r := MakerReport(o, take, now);
    var os, log' := orders[k := o], log + [Filled(r)];
    assert Tracks(log, orders[k]);
    MakerFollows(orders[k], take, now);
    EmitOne(log, orders[k], r);
    assert orders[k] in orders && o.id in Ids(orders);
    OthersSameWiden(log, log', {o.id}, Ids(orders));
    forall i | 0 <= i < |os| ensures Tracks(log', os[i]) {
      if i != k {
        assert orders[i].id != o.id by { if i < k {} else { assert k < i; } }
        assert Tracks(log, orders[i]);
        TrackedElsewhere(log, log', o.id, orders[i]);
      }
    }
    SameIds(orders, os);
  }

  lemma {:induction false} TrackedElsewhere(before: seq<Entry>, after: seq<Entry>, id: nat, o: Order)
    requires Tracks(before, o) && OthersSame(before, after, {id}) && o.id != id
    ensures Tracks(after, o)
  {
    assert SameAccount(before, after, o.id);
  }

  /** One slot of a print keeps the accounts. */
  lemma {:induction false} FrontAccounts(log: seq<Entry>, q: seq<Slot>, orders: seq<Order>, take: real, now: nat,
                                         side: Side, price: int)
    requires AccountsOk(log) && DistinctIds(orders) && AllTracked(log, orders)
    requires q != [] && Own(q) == Resting(orders, side, price) && 0.0 < take <= q[0].qty
    ensures var (os, rs) := CreditFront(q[0], orders, take, now);
            var log' := log + Entries(rs);
            AccountsOk(log') && AllTracked(log', os) && OthersSame(log, log', Ids(orders)) && Ids(os) == Ids(orders)
  {
    hide AccountsOk, AllTracked, OthersSame, Ids, DistinctIds, Own, Resting, Credit;
    if q[0].owner.Some? {
      var k := FrontOrder(q, orders, side, price);
      CreditAt(orders, q[0].owner.value, take, now, k);
      CreditAccounts(log, orders, k, take, now);
      OneEntry(MakerReport(orders[k].(filled := orders[k].filled + take), take, now));
    } else {
      NoEntries();
      assert log + [] == log;
      SameLog(log, Ids(orders));
    }
  }

  lemma {:induction false} OneEntry(r: Report)
    ensures Entries([r]) == [Filled(r)]
  {
    assert [r][1..] == [];
  }

  lemma {:induction false} SameIds(a: seq<Order>, b: seq<Order>)
    requires |a| == |b| && forall i :: 0 <= i < |a| ==> a[i].id == b[i].id
    ensures Ids(a) == Ids(b)
  {
    forall id | id in Ids(a) ensures id in Ids(b) {
      var i :| 0 <= i < |a| && a[i].id == id;
      assert b[i] in b;
    }
    forall id | id in Ids(b) ensures id in Ids(a) {
      var i :| 0 <= i < |b| && b[i].id == id;
      assert a[i] in a;
    }
  }

  /** A print keeps the accounts of the level's orders and touches no other. */
  lemma {:induction false} PrintAccounts(log: seq<Entry>, q: seq<Slot>, orders: seq<Order>, size: real, now: nat,
                                         side: Side, price: int)
    requires AccountsOk(log) && DistinctIds(orders) && AllTracked(log, orders)
    requires Positive(q) && Own(q) == Resting(orders, side, price)
    ensures var r := Consume(q, orders, size, now);
            var log' := log + Entries(r.reports);
            AccountsOk(log') && AllTracked(log', r.orders) && OthersSame(log, log', Ids(orders))
    decreases |q|, if size > 0.0 then 1 else 0
  {
    hide CreditFront, AccountsOk, AllTracked, OthersSame, Entries, Own, Resting, DistinctIds, OnlyRestingChanged;
    if size <= 0.0 || q == [] {
      NoEntries();
      assert log + [] == log;
      SameLog(log, Ids(orders));
    } else {
      var take := Min(size, q[0].qty);
      var front := CreditFront(q[0], orders, take, now);
      FrontKeepsClaims(q, orders, take, now, side, price);
      FrontAccounts(log, q, orders, take, now, side, price);
      var log1 := log + Entries(front.1);
      PrintAccounts(log1, Shorten(q, take), front.0, size - take, now, side, price);
      var rest := Consume(Shorten(q, take), front.0, size - take, now);
      EntriesAppend(front.1, rest.reports);
      var log2 := log1 + Entries(rest.reports);
      assert log2 == log + Entries(front.1 + rest.reports);
      OthersSameTransitive(log, log1, log2, Ids(orders));
    }
  }

  lemma {:induction false} NoEntries()
    ensures Entries([]) == []
  {
  }

  lemma {:induction false} ConsumePositive(q: seq<Slot>, orders: seq<Order>, size: real, now: nat)
    requires Positive(q)
    ensures Positive(Consume(q, orders, size, now).queue)
  {
    var r := Consume(q, orders, size, now).queue;
    PrintClosedForm(q, orders, size, now);
    var k := |q| - |r|;
    forall i | 0 <= i < |r| ensures r[i].qty > 0.0 {
      assert Kept(q, k + i, r[i], size);
    }
  }

  /** Every report of a print is a maker fill at the level's own side and
      price. */
  lemma {:induction false} PrintReportsAtLevel(q: seq<Slot>, orders: seq<Order>, size: real, now: nat,
                                               side: Side, price: int)
    requires DistinctIds(orders) && Own(q) == Resting(orders, side, price)
    ensures forall r :: r in Consume(q, orders, size, now).reports ==>
              r.side == side && r.lastPrice == price && r.role == Maker
    decreases |q|, if size > 0.0 then 1 else 0
  {
    hide CreditFront, Own, Resting, DistinctIds, OnlyRestingChanged;
    if size > 0.0 && q != [] {
      var take := Min(size, q[0].qty);
      FrontKeepsClaims(q, orders, take, now, side, price);
      FrontReports(q, orders, take, now, side, price);
      PrintReportsAtLevel(Shorten(q, take), CreditFront(q[0], orders, take, now).0, size - take, now, side, price);
    }
  }

  lemma {:induction false} FrontReports(q: seq<Slot>, orders: seq<Order>, take: real, now: nat, side: Side, price: int)
    requires q != [] && DistinctIds(orders) && Own(q) == Resting(orders, side, price)
    ensures forall r :: r in CreditFront(q[0], orders, take, now).1 ==>
              r.side == side && r.lastPrice == price && r.role == Maker
  {
    hide Own, Resting;
    if q[0].owner.Some? {
      var k := FrontOrder(q, orders, side, price);
      CreditAt(orders, q[0].owner.value, take, now, k);
    }
  }
}
