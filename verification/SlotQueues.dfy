/** The synthetic L3 queue of one price level: a FIFO of slots, each either
    inferred venue volume or one of our resting orders (matching_engine.h,
    struct Slot). The slot's timestamp is written but never read by the
    engine and is not part of this model. */
module SlotQueues {
  import opened Orders

  datatype Slot = Slot(qty: real, owner: Option<nat>)

  /** An own slot seen from outside: which order, how much. */
  datatype Claim = Claim(id: nat, qty: real)

  function Total(q: seq<Slot>): real {
    if q == [] then 0.0 else q[0].qty + Total(q[1..])
  }

  function VenueTotal(q: seq<Slot>): real {
    if q == [] then 0.0
    else (if q[0].owner.None? then q[0].qty else 0.0) + VenueTotal(q[1..])
  }

  /** The own slots of a queue, front to back. */
  function Own(q: seq<Slot>): seq<Claim> {
    if q == [] then []
    else if q[0].owner.Some? then [Claim(q[0].owner.value, q[0].qty)] + Own(q[1..])
    else Own(q[1..])
  }

  predicate Positive(q: seq<Slot>) {
    forall i :: 0 <= i < |q| ==> q[i].qty > 0.0
  }

  predicate NonNegative(q: seq<Slot>) {
    forall i :: 0 <= i < |q| ==> q[i].qty >= 0.0
  }

  predicate Owns(q: seq<Slot>, id: nat) {
    exists i :: 0 <= i < |q| && q[i].owner == Some(id)
  }

  /** A seeded order resting at (side, price) with more than dust left. Market
      orders never rest. */
  predicate Rests(o: Order, side: Side, price: int) {
    o.seeded && o.kind != Market && o.side == side && o.price == price && Remaining(o) > EPS
  }

  /** The claims that a list of orders makes on the queue at (side, price). */
  function Resting(orders: seq<Order>, side: Side, price: int): seq<Claim> {
    if orders == [] then []
    else if Rests(orders[0], side, price) then
      [Claim(orders[0].id, Remaining(orders[0]))] + Resting(orders[1..], side, price)
    else Resting(orders[1..], side, price)
  }

  lemma {:induction false} OwnAppend(a: seq<Slot>, b: seq<Slot>)
    ensures Own(a + b) == Own(a) + Own(b)
  {
    if a == [] {
      assert a + b == b;
    } else {
      assert (a + b)[1..] == a[1..] + b;
      OwnAppend(a[1..], b);
    }
  }

  lemma {:induction false} TotalAppend(a: seq<Slot>, b: seq<Slot>)
    ensures Total(a + b) == Total(a) + Total(b)
    ensures VenueTotal(a + b) == VenueTotal(a) + VenueTotal(b)
  {
    if a == [] {
      assert a + b == b;
    } else {
      assert (a + b)[1..] == a[1..] + b;
      TotalAppend(a[1..], b);
    }
  }

  lemma {:induction false} TotalsNonNegative(q: seq<Slot>)
    requires NonNegative(q)
    ensures 0.0 <= VenueTotal(q) <= Total(q)
  {
    if q != [] { TotalsNonNegative(q[1..]); }
  }

  lemma {:induction false} RestingAppend(a: seq<Order>, b: seq<Order>, side: Side, price: int)
    ensures Resting(a + b, side, price) == Resting(a, side, price) + Resting(b, side, price)
  {
    if a == [] {
      assert a + b == b;
    } else {
      assert (a + b)[1..] == a[1..] + b;
      RestingAppend(a[1..], b, side, price);
    }
  }

  /** A claim comes from one of the orders. */
  lemma {:induction false} RestingSource(orders: seq<Order>, side: Side, price: int, c: Claim)
    requires c in Resting(orders, side, price)
    ensures exists i :: 0 <= i < |orders| && Rests(orders[i], side, price)
                        && orders[i].id == c.id && Remaining(orders[i]) == c.qty
  {
    if Rests(orders[0], side, price) && c == Claim(orders[0].id, Remaining(orders[0])) {
    } else {
      RestingSource(orders[1..], side, price, c);
      var i :| 0 <= i < |orders[1..]| && Rests(orders[1..][i], side, price)
               && orders[1..][i].id == c.id && Remaining(orders[1..][i]) == c.qty;
      assert orders[i + 1] == orders[1..][i];
    }
  }

  /** Every order that rests makes its claim. */
  lemma {:induction false} RestingComplete(orders: seq<Order>, side: Side, price: int, i: nat)
    requires i < |orders| && Rests(orders[i], side, price)
    ensures Claim(orders[i].id, Remaining(orders[i])) in Resting(orders, side, price)
  {
    if i > 0 { RestingComplete(orders[1..], side, price, i - 1); }
  }

  lemma {:induction false} OwnSource(q: seq<Slot>, c: Claim)
    requires c in Own(q)
    ensures exists i :: 0 <= i < |q| && q[i] == Slot(c.qty, Some(c.id))
  {
    if q[0] == Slot(c.qty, Some(c.id)) {
    } else {
      OwnSource(q[1..], c);
      var i :| 0 <= i < |q[1..]| && q[1..][i] == Slot(c.qty, Some(c.id));
      assert q[i + 1] == q[1..][i];
    }
  }

  lemma {:induction false} OwnComplete(q: seq<Slot>, i: nat)
    requires i < |q| && q[i].owner.Some?
    ensures Claim(q[i].owner.value, q[i].qty) in Own(q)
  {
    if i > 0 { OwnComplete(q[1..], i - 1); }
  }

  // --- Lists with elements left out ---------------------------------------------

  /** `a` is `b` with some orders left out. */
  predicate Sublist(a: seq<Order>, b: seq<Order>) {
    if b == [] then a == []
    else (a != [] && a[0] == b[0] && Sublist(a[1..], b[1..])) || Sublist(a, b[1..])
  }

  lemma {:induction false} SublistMembers(a: seq<Order>, b: seq<Order>, o: Order)
    requires Sublist(a, b) && o in a
    ensures o in b
  {
    if a != [] && a[0] == b[0] && Sublist(a[1..], b[1..]) {
      if o != a[0] { SublistMembers(a[1..], b[1..], o); }
    } else {
      SublistMembers(a, b[1..], o);
    }
  }

  lemma {:induction false} SublistDistinct(a: seq<Order>, b: seq<Order>)
    requires Sublist(a, b) && DistinctIds(b)
    ensures DistinctIds(a)
  {
    if b != [] {
      if a != [] && a[0] == b[0] && Sublist(a[1..], b[1..]) {
        SublistDistinct(a[1..], b[1..]);
        forall j | 1 <= j < |a| ensures a[0].id != a[j].id {
          assert a[j] == a[1..][j - 1];
          SublistMembers(a[1..], b[1..], a[j]);
        }
        forall i, j | 1 <= i < j < |a| ensures a[i].id != a[j].id {
          assert a[i] == a[1..][i - 1] && a[j] == a[1..][j - 1];
        }
      } else {
        SublistDistinct(a, b[1..]);
      }
    }
  }
}
