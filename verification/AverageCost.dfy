/** Average-cost position accounting, twice: the results collector's apply_fill
    (results_collector.cpp) and the bridge's PositionTracker
    (position_tracker.cpp). Both are tied to the cash the fills moved, and to
    each other. */
module AverageCost {
  import opened Orders

  /** `openTs` is the time of the fill that opened the current holding. */
  datatype Position = Position(net: real, avg: real, realized: real, openTs: nat)

  const FLAT := Position(0.0, 0.0, 0.0, 0)

  /** One fill of one instrument. */
  datatype Deal = Deal(side: Side, qty: real, price: real)

  function Signed(d: Deal): real {
    if d.side == Buy then d.qty else -d.qty
  }

  function Abs(x: real): real {
    if x < 0.0 then -x else x
  }

  /** Cash received for a fill. */
  function CashOf(d: Deal): real {
    -Signed(d) * d.price
  }

  /** Profit of `qty` that moved from `avg` to `price`. */
  function Gain(price: real, avg: real, qty: real): real {
    (price - avg) * qty
  }

  /** Average price of what is held and what is added. */
  function Blend(avg: real, held: real, price: real, qty: real, total: real): real
    requires total != 0.0
  {
    (avg * held + price * qty) / total
  }

  /** The new position and the profit realized by the closed part. */
  function ApplyFill(pos: Position, d: Deal): (Position, real)
    requires d.qty > 0.0
  {
    if d.side == Buy then
      if pos.net >= 0.0 then
        var qty := pos.net + d.qty;
        (pos.(avg := Blend(pos.avg, pos.net, d.price, d.qty, qty), net := qty), 0.0)
      else
        var close := Min(d.qty, -pos.net);
        var gain := Gain(pos.avg, d.price, close);
        var left := d.qty - close;
        var p := pos.(net := pos.net + close, realized := pos.realized + gain);
        (if left > EPS then p.(avg := d.price, net := left) else p, gain)
    else
      if pos.net <= 0.0 then
        var short := -pos.net + d.qty;
        (pos.(avg := Blend(pos.avg, -pos.net, d.price, d.qty, short), net := -short), 0.0)
      else
        var close := Min(d.qty, pos.net);
        var gain := Gain(d.price, pos.avg, close);
        var left := d.qty - close;
        var p := pos.(net := pos.net - close, realized := pos.realized + gain);
        (if left > EPS then p.(avg := d.price, net := -left) else p, gain)
  }

  // --- What a single fill does ----------------------------------------------------------

  /** How far a fill goes past flat: positive when it flips the position. */
  function Overshoot(net: real, d: Deal): real {
    if (d.side == Buy && net < 0.0) || (d.side == Sell && net > 0.0) then d.qty - Abs(net) else 0.0
  }

  /** A flip so small that the new position is dropped as dust. */
  predicate LosesDust(net: real, d: Deal) {
    0.0 < Overshoot(net, d) <= EPS
  }

  /** The value of the position a fill drops as dust. */
  function DustValue(net: real, d: Deal): real {
    if !LosesDust(net, d) then 0.0
    else if d.side == Buy then Overshoot(net, d) * d.price
    else -Overshoot(net, d) * d.price
  }

  /** What the books say has been paid in: realized profit less the cost of
      what is held. */
  function BookCash(pos: Position): real {
    pos.realized - pos.net * pos.avg
  }

  lemma {:induction false} WeightedAverage(total: real, cost: real)
    requires total != 0.0
    ensures total * (cost / total) == cost
  {
  }

  lemma {:induction false} Distribute3(a: real, b: real, c: real)
    ensures a * (b - c) == a * b - a * c
  {
  }

  lemma {:induction false} MinusTimes(a: real, b: real)
    ensures (-a) * b == -(a * b)
  {
  }

  lemma {:induction false} ExtendMovesCash(pos: Position, d: Deal)
    requires d.qty > 0.0 && ((d.side == Buy && pos.net >= 0.0) || (d.side == Sell && pos.net <= 0.0))
    ensures var p := ApplyFill(pos, d).0;
            BookCash(p) == BookCash(pos) + CashOf(d) && p.realized == pos.realized
    ensures ApplyFill(pos, d).1 == 0.0 == DustValue(pos.net, d)
  {
    hide Gain;
    var p := ApplyFill(pos, d).0;
    MinusTimes(d.qty, d.price);
    MinusTimes(pos.net, pos.avg);
    if d.side == Buy {
      WeightedAverage(p.net, pos.avg * pos.net + d.price * d.qty);
    } else {
      WeightedAverage(-p.net, pos.avg * -pos.net + d.price * d.qty);
      MinusTimes(-p.net, p.avg);
    }
  }

  lemma {:induction false} CloseMovesCash(pos: Position, d: Deal)
    requires d.qty > 0.0 && !((d.side == Buy && pos.net >= 0.0) || (d.side == Sell && pos.net <= 0.0))
    ensures var p := ApplyFill(pos, d).0;
            BookCash(p) == BookCash(pos) + CashOf(d) + DustValue(pos.net, d)
    ensures ApplyFill(pos, d).0.realized == pos.realized + ApplyFill(pos, d).1
  {
    hide Blend;
    var size := Abs(pos.net);
    var close := Min(d.qty, size);
    MinusTimes(d.qty, d.price);
    MinusTimes(size, pos.avg);
    Distribute3(close, pos.avg, d.price);
    Distribute3(close, d.price, pos.avg);
    CloseParts(size, close, d.qty, pos.avg, d.price);
  }

  /** The books follow the cash: a fill moves them by exactly the cash it moved,
      plus the value of any dust it drops. */
  lemma {:induction false} FillMovesCash(pos: Position, d: Deal)
    requires d.qty > 0.0
    ensures var p := ApplyFill(pos, d).0;
            BookCash(p) == BookCash(pos) + CashOf(d) + DustValue(pos.net, d)
    ensures ApplyFill(pos, d).0.realized == pos.realized + ApplyFill(pos, d).1
  {
    hide ApplyFill, BookCash, CashOf, DustValue;
    if (d.side == Buy && pos.net >= 0.0) || (d.side == Sell && pos.net <= 0.0) {
      ExtendMovesCash(pos, d);
    } else {
      CloseMovesCash(pos, d);
    }
  }

  /** The three things a fill can do. Adding to a holding realizes nothing, and
      the cost of the holding grows by the cost of the fill. Taking from it leaves
      the average as it is and realizes the quantity's move from there. Going
      through flat realizes the whole holding's move, and what is left over is
      held at the fill's price, unless it is dust. */
  lemma {:induction false} FillCases(pos: Position, d: Deal)
    requires d.qty > 0.0
    ensures var (p, gain) := ApplyFill(pos, d);
            var long := d.side == Buy;
            var held := if long then -pos.net else pos.net;
            && p.realized == pos.realized + gain
            && if held <= 0.0 then
                 gain == 0.0 && p.net == pos.net + (if long then d.qty else -d.qty)
                 && p.net * p.avg == pos.net * pos.avg + (if long then d.qty else -d.qty) * d.price
               else if d.qty <= held then
                 p.net == pos.net + (if long then d.qty else -d.qty) && p.avg == pos.avg
                 && gain == d.qty * (if long then pos.avg - d.price else d.price - pos.avg)
               else
                 gain == held * (if long then pos.avg - d.price else d.price - pos.avg)
                 && if d.qty - held <= EPS then p.net == 0.0
                    else p.avg == d.price && p.net == if long then d.qty - held else held - d.qty
  {
    hide Gain, Blend;
    var held := if d.side == Buy then -pos.net else pos.net;
    if held <= 0.0 {
      ExtendCost(pos, d);
      ExtendRealizesNothing(pos, d);
    } else {
      GainSwaps(pos.avg, d.price, held);
      GainSwaps(pos.avg, d.price, d.qty);
    }
  }

  lemma {:induction false} GainSwaps(a: real, b: real, qty: real)
    ensures Gain(a, b, qty) == qty * (a - b) && Gain(b, a, qty) == qty * (b - a)
  {
  }

  lemma {:induction false} ExtendCost(pos: Position, d: Deal)
    requires d.qty > 0.0 && (if d.side == Buy then pos.net >= 0.0 else pos.net <= 0.0)
    ensures var p := ApplyFill(pos, d).0; p.net * p.avg == pos.net * pos.avg + Signed(d) * d.price
  {
    hide ApplyFill, DustValue;
    ExtendRealizesNothing(pos, d);
    FillMovesCash(pos, d);
    MinusTimes(Signed(d), d.price);
  }

  lemma {:induction false} ExtendRealizesNothing(pos: Position, d: Deal)
    requires d.qty > 0.0 && (if d.side == Buy then pos.net >= 0.0 else pos.net <= 0.0)
    ensures ApplyFill(pos, d).0.realized == pos.realized && DustValue(pos.net, d) == 0.0
  {
    hide Blend;
  }

  /** Splitting a fill at the close. */
  lemma {:induction false} CloseParts(size: real, close: real, qty: real, avg: real, price: real)
    ensures (size - close) * avg == size * avg - close * avg
    ensures (qty - close) * price == qty * price - close * price
    ensures (close - size) * avg == -(size * avg) + close * avg
    ensures (-(qty - close)) * price == -(qty * price) + close * price
  {
  }

  /** The position moves by the fill, unless dust is dropped. */
  lemma {:induction false} FillMovesNet(pos: Position, d: Deal)
    requires d.qty > 0.0
    ensures ApplyFill(pos, d).0.net == if LosesDust(pos.net, d) then 0.0 else pos.net + Signed(d)
  {
  }

  // --- Sequences of fills -------------------------------------------------------------------

  predicate AllPositive(deals: seq<Deal>) {
    forall i :: 0 <= i < |deals| ==> deals[i].qty > 0.0
  }

  function After(deals: seq<Deal>): Position
    requires AllPositive(deals)
  {
    if deals == [] then FLAT else ApplyFill(After(deals[..|deals| - 1]), deals[|deals| - 1]).0
  }

  function Cash(deals: seq<Deal>): real {
    if deals == [] then 0.0 else Cash(deals[..|deals| - 1]) + CashOf(deals[|deals| - 1])
  }

  /** Quantity bought less quantity sold. */
  function Bought(deals: seq<Deal>): real {
    if deals == [] then 0.0 else Bought(deals[..|deals| - 1]) + Signed(deals[|deals| - 1])
  }

  /** The value of all the dust dropped on the way. */
  function Dust(deals: seq<Deal>): real
    requires AllPositive(deals)
  {
    if deals == [] then 0.0
    else
      var n := |deals| - 1;
      Dust(deals[..n]) + DustValue(After(deals[..n]).net, deals[n])
  }

  /** For any fills whatever: realized profit is the cash received plus the cost
      of what is held plus the dust dropped. */
  lemma {:induction false} BooksFollowCash(deals: seq<Deal>)
    requires AllPositive(deals)
    ensures var pos := After(deals);
            pos.realized == Cash(deals) + pos.net * pos.avg + Dust(deals)
  {
    hide ApplyFill, DustValue, CashOf;
    if deals != [] {
      var n := |deals| - 1;
      BooksFollowCash(deals[..n]);
      FillMovesCash(After(deals[..n]), deals[n]);
    }
  }

  /** No fill on the way drops dust. */
  predicate NoDust(deals: seq<Deal>)
    requires AllPositive(deals)
  {
    forall k :: 0 <= k < |deals| ==> !LosesDust(After(deals[..k]).net, deals[k])
  }

  lemma {:induction false} NoDustPrefix(deals: seq<Deal>)
    requires AllPositive(deals) && deals != []
    ensures var n := |deals| - 1;
            NoDust(deals) <==> NoDust(deals[..n]) && !LosesDust(After(deals[..n]).net, deals[n])
  {
    hide After, LosesDust;
    var n := |deals| - 1;
    forall k | 0 <= k < n ensures deals[..n][..k] == deals[..k] && deals[..n][k] == deals[k] {}
  }

  /** The books hold what was bought less what was sold, all along the way, if
      and only if no dust is dropped. */
  lemma {:induction false} NetFollows(deals: seq<Deal>)
    requires AllPositive(deals)
    ensures NoDust(deals) <==> forall k :: 0 <= k <= |deals| ==> NetRight(deals, k)
    ensures NoDust(deals) ==> Dust(deals) == 0.0
  {
    hide ApplyFill, LosesDust, NoDust, NetRight, After;
    if deals == [] {
      NothingHeld(deals);
    } else {
      var n := |deals| - 1;
      var most := deals[..n];
      NetFollows(most);
      NoDustPrefix(deals);
      forall k | 0 <= k <= n ensures NetRight(deals, k) <==> NetRight(most, k) {
        NetRightPrefix(deals, k);
      }
      if NetRight(deals, n) { NetRightStep(deals); }
    }
  }

  lemma {:induction false} NothingHeld(deals: seq<Deal>)
    requires deals == []
    ensures NetRight(deals, 0) && NoDust(deals)
  {
    assert deals[..0] == [];
  }

  lemma {:induction false} NetRightPrefix(deals: seq<Deal>, k: nat)
    requires AllPositive(deals) && k < |deals|
    ensures NetRight(deals, k) <==> NetRight(deals[..|deals| - 1], k)
  {
    assert deals[..|deals| - 1][..k] == deals[..k];
  }

  lemma {:induction false} NetRightStep(deals: seq<Deal>)
    requires AllPositive(deals) && deals != [] && NetRight(deals, |deals| - 1)
    ensures NetRight(deals, |deals|) <==> !LosesDust(After(deals[..|deals| - 1]).net, deals[|deals| - 1])
  {
    hide ApplyFill;
    var n := |deals| - 1;
    FillMovesNet(After(deals[..n]), deals[n]);
    OvershootNonZero(After(deals[..n]).net, deals[n]);
    assert deals[..n + 1] == deals;
  }

  /** Two fills that drop dust: one unit bought, a unit and a dust more sold. */
  lemma {:induction false} DustIsDropped()
    ensures var deals := [Deal(Buy, 1.0, 2.0), Deal(Sell, 1.0 + EPS, 2.0)];
            AllPositive(deals) && !NoDust(deals) && After(deals).net == 0.0 != Bought(deals)
  {
    var buy, sell := Deal(Buy, 1.0, 2.0), Deal(Sell, 1.0 + EPS, 2.0);
    var deals := [buy, sell];
    assert deals[..1] == [buy] && [buy][..0] == [];
    assert After([buy]) == ApplyFill(FLAT, buy).0 && Bought([buy]) == 1.0;
    assert Bought(deals) == 1.0 - (1.0 + EPS);
    assert LosesDust(After(deals[..1]).net, deals[1]);
  }

  predicate NetRight(deals: seq<Deal>, k: nat)
    requires AllPositive(deals) && k <= |deals|
  {
    After(deals[..k]).net == Bought(deals[..k])
  }

  lemma {:induction false} OvershootNonZero(net: real, d: Deal)
    ensures LosesDust(net, d) ==> net + Signed(d) != 0.0
  {
  }

  /** A running position that is never dust: flat or more than EPS. */
  predicate Clear(deals: seq<Deal>) {
    forall k :: 0 <= k <= |deals| ==> ClearAt(deals, k)
  }

  predicate ClearAt(deals: seq<Deal>, k: nat)
    requires k <= |deals|
  {
    Bought(deals[..k]) == 0.0 || Abs(Bought(deals[..k])) > EPS
  }

  /** If the quantity held is never dust, none is ever dropped. */
  lemma {:induction false} ClearNoDust(deals: seq<Deal>)
    requires AllPositive(deals) && Clear(deals)
    ensures NoDust(deals)
    ensures After(deals).net == Bought(deals)
  {
    hide ApplyFill;
    if deals == [] {
    } else {
      var n := |deals| - 1;
      var most := deals[..n];
      forall k | 0 <= k <= n ensures ClearAt(most, k) {
        assert most[..k] == deals[..k] && ClearAt(deals, k);
      }
      ClearNoDust(most);
      NoDustPrefix(deals);
      assert deals[..n + 1] == deals && ClearAt(deals, n + 1);
      FillMovesNet(After(most), deals[n]);
    }
  }

  // --- The bridge's tracker ---------------------------------------------------------------------

  datatype Track = Track(net: real, avg: real, total: real)

  const UNTRACKED := Track(0.0, 0.0, 0.0)

  function ApplyTrack(tr: Track, d: Deal): (Track, real) {
    var next := tr.net + Signed(d);
    var gain :=
      if tr.net == 0.0 then 0.0
      else if (tr.net > 0.0 && next < 0.0) || (tr.net < 0.0 && next > 0.0) then Gain(d.price, tr.avg, tr.net)
      else if Abs(next) > Abs(tr.net) then 0.0
      else
        var closed := Abs(tr.net) - Abs(next);
        Gain(d.price, tr.avg, if tr.net > 0.0 then closed else -closed);
    var avg :=
      if next == 0.0 then 0.0
      else if tr.net == 0.0 then d.price
      else if (tr.net > 0.0 && next < 0.0) || (tr.net < 0.0 && next > 0.0) then d.price
      else if Abs(next) > Abs(tr.net) then Blend(tr.avg, Abs(tr.net), d.price, d.qty, Abs(next))
      else tr.avg;
    (Track(next, avg, tr.total + gain), gain)
  }

  function Tracked(deals: seq<Deal>): Track {
    if deals == [] then UNTRACKED else ApplyTrack(Tracked(deals[..|deals| - 1]), deals[|deals| - 1]).0
  }

  /** The tracker's books follow the cash too, and it never drops dust. */
  lemma {:induction false} TrackMovesCash(tr: Track, d: Deal)
    requires d.qty > 0.0
    ensures var t := ApplyTrack(tr, d).0;
            t.total - t.net * t.avg == tr.total - tr.net * tr.avg + CashOf(d)
  {
    var (t, gain) := ApplyTrack(tr, d);
    var next := tr.net + Signed(d);
    MinusTimes(Signed(d), d.price);
    if next == 0.0 {
      assert (d.price - tr.avg) * tr.net == d.price * tr.net - tr.avg * tr.net;
      assert Signed(d) * d.price == -(tr.net * d.price);
    } else if tr.net == 0.0 {
    } else if (tr.net > 0.0 && next < 0.0) || (tr.net < 0.0 && next > 0.0) {
      assert (d.price - tr.avg) * tr.net == d.price * tr.net - tr.avg * tr.net;
      assert next * d.price == tr.net * d.price + Signed(d) * d.price;
    } else if Abs(next) > Abs(tr.net) {
      WeightedAverage(Abs(next), tr.avg * Abs(tr.net) + d.price * d.qty);
      MinusTimes(Abs(next), t.avg);
      MinusTimes(d.qty, d.price);
      MinusTimes(Abs(tr.net), tr.avg);
    } else {
      assert gain == (d.price - tr.avg) * -Signed(d);
      assert (d.price - tr.avg) * -Signed(d) == -(Signed(d) * d.price) + tr.avg * Signed(d);
      assert next * tr.avg == tr.net * tr.avg + Signed(d) * tr.avg;
    }
  }

  lemma {:induction false} TrackNet(tr: Track, d: Deal)
    ensures ApplyTrack(tr, d).0.net == tr.net + Signed(d)
  {
    hide Gain, Blend;
  }

  lemma {:induction false} TrackFollowsCash(deals: seq<Deal>)
    requires AllPositive(deals)
    ensures Tracked(deals).total == Cash(deals) + Tracked(deals).net * Tracked(deals).avg
    ensures Tracked(deals).net == Bought(deals)
  {
    hide CashOf, ApplyTrack;
    if deals != [] {
      var n := |deals| - 1;
      TrackNet(Tracked(deals[..n]), deals[n]);
      TrackFollowsCash(deals[..n]);
      TrackMovesCash(Tracked(deals[..n]), deals[n]);
    }
  }

  // --- The two agree ---------------------------------------------------------------------------------

  /** Same holding, same profit, and the same average wherever there is one. */
  predicate Agree(pos: Position, tr: Track) {
    pos.net == tr.net && pos.realized == tr.total && (pos.net != 0.0 ==> pos.avg == tr.avg)
  }

  /** Is the fill on the side of what is held? */
  predicate Extends(net: real, d: Deal) {
    (d.side == Buy && net >= 0.0) || (d.side == Sell && net <= 0.0)
  }

  lemma {:induction false} OpenAgrees(pos: Position, tr: Track, d: Deal)
    requires d.qty > 0.0 && Agree(pos, tr) && pos.net == 0.0
    ensures ApplyFill(pos, d).1 == ApplyTrack(tr, d).1
    ensures Agree(ApplyFill(pos, d).0, ApplyTrack(tr, d).0)
  {
    assert pos.net * pos.avg == 0.0 && -pos.net * pos.avg == 0.0;
    assert (d.qty * d.price) / d.qty == d.price;
  }

  lemma {:induction false} ExtendAgrees(pos: Position, tr: Track, d: Deal)
    requires d.qty > 0.0 && Agree(pos, tr) && pos.net != 0.0 && Extends(pos.net, d)
    ensures ApplyFill(pos, d).1 == ApplyTrack(tr, d).1
    ensures Agree(ApplyFill(pos, d).0, ApplyTrack(tr, d).0)
  {
    hide Gain, Blend;
  }

  lemma {:induction false} ReduceAgrees(pos: Position, tr: Track, d: Deal)
    requires d.qty > 0.0 && Agree(pos, tr) && !Extends(pos.net, d)
    ensures ApplyFill(pos, d).1 == ApplyTrack(tr, d).1
    ensures Agree(ApplyFill(pos, d).0, ApplyTrack(tr, d).0) <==> !LosesDust(pos.net, d)
  {
    hide Gain, Blend;
    var close := Min(d.qty, Abs(pos.net));
    GainReversed(d.price, pos.avg, close);
  }

  lemma {:induction false} GainReversed(price: real, avg: real, qty: real)
    ensures Gain(price, avg, -qty) == Gain(avg, price, qty)
  {
  }

  /** From agreeing books a fill realizes the same profit in both, and they
      agree again if and only if the collector drops no dust. */
  lemma {:induction false} FillAgrees(pos: Position, tr: Track, d: Deal)
    requires d.qty > 0.0 && Agree(pos, tr)
    ensures ApplyFill(pos, d).1 == ApplyTrack(tr, d).1
    ensures Agree(ApplyFill(pos, d).0, ApplyTrack(tr, d).0) <==> !LosesDust(pos.net, d)
  {
    hide ApplyFill, ApplyTrack, Agree;
    if !Extends(pos.net, d) {
      ReduceAgrees(pos, tr, d);
    } else if pos.net == 0.0 {
      OpenAgrees(pos, tr, d);
    } else {
      ExtendAgrees(pos, tr, d);
    }
  }

  /** On any fills the two trackers agree at every step if and only if no dust
      is dropped; the profit they realize is then the same fill by fill. */
  lemma {:induction false} TrackersAgree(deals: seq<Deal>)
    requires AllPositive(deals)
    ensures NoDust(deals) <==> forall k :: 0 <= k <= |deals| ==> AgreeAt(deals, k)
    ensures NoDust(deals) ==> forall k :: 0 <= k < |deals| ==> SameGain(deals, k)
  {
    hide NoDust, AgreeAt, SameGain;
    if deals == [] {
      NoneAgree(deals);
    } else {
      var n := |deals| - 1;
      TrackersAgree(deals[..n]);
      NoDustPrefix(deals);
      forall k | 0 <= k <= n
        ensures AgreeAt(deals, k) <==> AgreeAt(deals[..n], k)
        ensures k < n ==> (SameGain(deals, k) <==> SameGain(deals[..n], k))
      {
        AgreePrefix(deals, k);
      }
      if AgreeAt(deals, n) { AgreeStep(deals); }
    }
  }

  lemma {:induction false} NoneAgree(deals: seq<Deal>)
    requires deals == []
    ensures NoDust(deals) && AgreeAt(deals, 0)
  {
    assert deals[..0] == [];
  }

  lemma {:induction false} AgreePrefix(deals: seq<Deal>, k: nat)
    requires AllPositive(deals) && k < |deals|
    ensures AgreeAt(deals, k) <==> AgreeAt(deals[..|deals| - 1], k)
    ensures k < |deals| - 1 ==> (SameGain(deals, k) <==> SameGain(deals[..|deals| - 1], k))
  {
    hide ApplyFill, ApplyTrack, Agree, After, Tracked;
    assert deals[..|deals| - 1][..k] == deals[..k];
  }

  lemma {:induction false} AgreeStep(deals: seq<Deal>)
    requires AllPositive(deals) && deals != [] && AgreeAt(deals, |deals| - 1)
    ensures AgreeAt(deals, |deals|) <==> !LosesDust(After(deals[..|deals| - 1]).net, deals[|deals| - 1])
    ensures SameGain(deals, |deals| - 1)
  {
    hide ApplyFill, ApplyTrack, Agree, LosesDust;
    var n := |deals| - 1;
    FillAgrees(After(deals[..n]), Tracked(deals[..n]), deals[n]);
    assert deals[..n + 1] == deals;
  }

  predicate AgreeAt(deals: seq<Deal>, k: nat)
    requires AllPositive(deals) && k <= |deals|
  {
    Agree(After(deals[..k]), Tracked(deals[..k]))
  }

  predicate SameGain(deals: seq<Deal>, k: nat)
    requires AllPositive(deals) && k < |deals|
  {
    ApplyFill(After(deals[..k]), deals[k]).1 == ApplyTrack(Tracked(deals[..k]), deals[k]).1
  }

  /** The bridge's tracker, updated in place. */
  class PositionTracker {
    var netQty: real
    var avgEntry: real
    var cumulativePnl: real

    ghost function State(): Track
      reads this
    {
      Track(netQty, avgEntry, cumulativePnl)
    }

    constructor ()
      ensures State() == UNTRACKED
    {
      netQty, avgEntry, cumulativePnl := 0.0, 0.0, 0.0;
    }

    method Apply(d: Deal) returns (realized: real)
      modifies this
      ensures (State(), realized) == ApplyTrack(old(State()), d)
    {
      hide Gain, Blend;
      var prev := netQty;
      var next := prev + Signed(d);
      realized := 0.0;
      if prev == 0.0 {
        avgEntry := d.price;
      } else if (prev > 0.0 && next < 0.0) || (prev < 0.0 && next > 0.0) {
        realized := Gain(d.price, avgEntry, prev);
        avgEntry := d.price;
      } else if Abs(next) > Abs(prev) {
        avgEntry := Blend(avgEntry, Abs(prev), d.price, d.qty, Abs(next));
      } else {
        var closed := Abs(prev) - Abs(next);
        realized := Gain(d.price, avgEntry, if prev > 0.0 then closed else -closed);
      }
      if next == 0.0 {
        avgEntry := 0.0;
      }
      netQty := next;
      cumulativePnl := cumulativePnl + realized;
    }
  }
}
