/** What the attribution of cancels does to each slot, in closed form. */
module CancelForms {
  import opened Orders
  import opened SlotQueues
  import opened Reals
  import opened CancelSpread

  /** The end-weighted share of slot i: the cancels, times the difference of the
      squares of what is queued up to its end and up to its front, over the square
      of the whole. */
  function EndWeighted(q: seq<Slot>, i: nat, cancels: real): real
    requires i < |q| && Total(q) > 0.0
  {
    var front := Total(q[..i]);
    var end := front + q[i].qty;
    TimesPositive(Total(q), Total(q));
    cancels * ((end * end - front * front) / Times(Total(q), Total(q)))
  }

  /** The first pass takes of every venue slot its end-weighted share, or all of
      it if that is less. */
  ghost predicate FirstForm(q: seq<Slot>, p: seq<Slot>, cancels: real)
    requires Total(q) > 0.0
  {
    && |p| == |q|
    && forall i :: 0 <= i < |q| ==>
         p[i] == if q[i].owner.Some? then q[i]
                 else q[i].(qty := q[i].qty - Min(q[i].qty, EndWeighted(q, i, cancels)))
  }

  /** The second pass takes of every venue slot, front to back, the fraction of
      what is still to be cancelled that the slot is of all venue volume. */
  ghost predicate SecondForm(p: seq<Slot>, r: seq<Slot>, left: real)
    requires VenueTotal(p) > 0.0
  {
    && |r| == |p|
    && forall i :: 0 <= i < |p| ==>
         r[i] == if p[i].owner.Some? then p[i]
                 else p[i].(qty := p[i].qty - (left - (VenueTotal(p[..i]) - VenueTotal(r[..i])))
                                              * (p[i].qty / VenueTotal(p)))
  }

  /** What is left of `r` without venue slots of at most dust. */
  ghost predicate WithoutDust(r: seq<Slot>, after: seq<Slot>)
    decreases |r|
  {
    if r == [] then after == []
    else if r[0].owner.None? && r[0].qty <= EPS then WithoutDust(r[1..], after)
    else after != [] && after[0] == r[0] && WithoutDust(r[1..], after[1..])
  }

  /** `after` is `q` once these cancels are attributed to it. */
  ghost predicate Attributed(q: seq<Slot>, after: seq<Slot>, cancels: real)
    requires Total(q) > 0.0
  {
    exists p, r ::
      && FirstForm(q, p, cancels)
      && (var left := cancels - (VenueTotal(q) - VenueTotal(p));
          if left > EPS && VenueTotal(p) > 0.0 then SecondForm(p, r, left) else r == p)
      && WithoutDust(r, after)
  }

  // --- First pass ---------------------------------------------------------------------------

  lemma {:induction false} SharesAt(q: seq<Slot>, cancels: real, depth: real, n2: real, i: nat)
    requires n2 > 0.0 && i < |q|
    ensures var front := depth + Total(q[..i]);
            Shares(q, cancels, depth, n2)[i] == Share(cancels, front, front + q[i].qty, n2)
  {
    hide Share;
    if i == 0 {
      assert q[..0] == [];
      assert depth + Total(q[..0]) == depth;
    } else {
      SharesAt(q[1..], cancels, depth + q[0].qty, n2, i - 1);
      assert q[..i][1..] == q[1..][..i - 1];
      assert depth + Total(q[..i]) == depth + q[0].qty + Total(q[1..][..i - 1]);
    }
  }

  /** As long as the shares come to no more than is left, none is cut short. */
  lemma {:induction false} WeightedForm(q: seq<Slot>, shares: seq<real>, left: real)
    requires NonNegative(q) && |shares| == |q| && AllNonNegative(shares) && Sum(shares) <= left
    ensures var r := Weighted(q, shares, left).0;
            |r| == |q|
            && forall i :: 0 <= i < |q| ==>
                 r[i] == if q[i].owner.Some? then q[i] else q[i].(qty := q[i].qty - Min(q[i].qty, shares[i]))
  {
    SumNonNegative(shares);
    if q == [] {
    } else if left <= 0.0 {
      AllZero(shares);
    } else {
      SumNonNegative(shares[1..]);
      var cut := Cut(q[0], shares[0], left);
      WeightedForm(q[1..], shares[1..], left - cut);
      forall i | 1 <= i < |q| ensures q[i] == q[1..][i - 1] && shares[i] == shares[1..][i - 1] {}
    }
  }

  lemma {:induction false} FirstPassForm(q: seq<Slot>, cancels: real)
    requires NonNegative(q) && 0.0 < cancels <= Total(q) && Total(q) > 0.0
    ensures FirstForm(q, FirstPass(q, cancels).0, cancels)
  {
    hide Total, Weighted, Shares, Sum;
    var n2 := Square(Total(q));
    var shares := Shares(q, cancels, 0.0, n2);
    SharesNonNegative(q, cancels, 0.0, n2);
    SharesSum(q, cancels, 0.0, n2);
    assert 0.0 + Total(q) == Total(q);
    FullShare(cancels, Total(q));
    WeightedForm(q, shares, cancels);
    forall i | 0 <= i < |q| ensures shares[i] == EndWeighted(q, i, cancels) {
      SharesAt(q, cancels, 0.0, n2, i);
      assert 0.0 + Total(q[..i]) == Total(q[..i]);
    }
  }

  // --- Second pass ---------------------------------------------------------------------------

  /** Each venue slot loses the portion of what is left that its fraction says. */
  ghost predicate Portioned(p: seq<Slot>, r: seq<Slot>, xs: seq<real>, left: real)
    requires |xs| == |p|
  {
    && |r| == |p|
    && forall i :: 0 <= i < |p| ==> PortionedAt(p, r, xs, left, i)
  }

  predicate PortionedAt(p: seq<Slot>, r: seq<Slot>, xs: seq<real>, left: real, i: nat)
    requires |xs| == |p| == |r| && i < |p|
  {
    r[i] == if p[i].owner.Some? then p[i]
            else p[i].(qty := p[i].qty - Portion(left - (VenueTotal(p[..i]) - VenueTotal(r[..i])), xs[i]))
  }

  lemma {:induction false} VenueCons(q: seq<Slot>, i: nat)
    requires 1 <= i <= |q|
    ensures VenueTotal(q[..i]) == (if q[0].owner.None? then q[0].qty else 0.0) + VenueTotal(q[1..][..i - 1])
  {
    assert q[..i][1..] == q[1..][..i - 1];
  }

  lemma {:induction false} NothingPortioned(p: seq<Slot>, xs: seq<real>, left: real)
    requires |xs| == |p| && (left == 0.0 || p == [])
    ensures Portioned(p, p, xs, left)
  {
  }

  lemma {:induction false} UncappedForm(p: seq<Slot>, xs: seq<real>, left: real)
    requires |xs| == |p| && 0.0 <= left && AllAtMostOne(p, xs)
    ensures Portioned(p, Uncapped(p, xs, left).0, xs, left)
  {
    hide Portion, VenueTotal, Portioned;
    if left <= 0.0 || p == [] {
      NothingPortioned(p, xs, left);
    } else {
      var cut := if p[0].owner.Some? then 0.0 else Portion(left, xs[0]);
      if p[0].owner.None? { CutLeaves(left, xs[0]); }
      UncappedForm(p[1..], xs[1..], left - cut);
      PortionedCons(p, xs, left, cut, Uncapped(p[1..], xs[1..], left - cut).0);
    }
  }

  predicate AllAtMostOne(p: seq<Slot>, xs: seq<real>)
    requires |xs| == |p|
  {
    forall i :: 0 <= i < |p| && p[i].owner.None? ==> 0.0 <= xs[i] <= 1.0
  }

  lemma {:induction false} CutLeaves(left: real, x: real)
    requires 0.0 <= left && 0.0 <= x <= 1.0
    ensures Portion(left, x) <= left
  {
    MulMonotone(x, 1.0, left);
  }

  lemma {:induction false} PortionedCons(p: seq<Slot>, xs: seq<real>, left: real, cut: real, rest: seq<Slot>)
    requires |xs| == |p| && p != [] && cut == if p[0].owner.Some? then 0.0 else Portion(left, xs[0])
    requires Portioned(p[1..], rest, xs[1..], left - cut)
    ensures Portioned(p, [p[0].(qty := p[0].qty - cut)] + rest, xs, left)
  {
    hide Portion, VenueTotal;
    var r := [p[0].(qty := p[0].qty - cut)] + rest;
    forall i | 0 <= i < |p| ensures PortionedAt(p, r, xs, left, i) {
      if i == 0 {
        assert p[..0] == r[..0];
      } else {
        assert PortionedAt(p[1..], rest, xs[1..], left - cut, i - 1);
        VenueCons(p, i);
        VenueCons(r, i);
        assert r[1..] == rest;
      }
    }
  }

  lemma {:induction false} FractionsAt(p: seq<Slot>, avail: real, i: nat)
    requires avail > 0.0 && i < |p|
    ensures Fractions(p, avail)[i] == p[i].qty / avail
  {
    if i > 0 { FractionsAt(p[1..], avail, i - 1); }
  }

  lemma {:induction false} VenueAtMostAll(p: seq<Slot>, i: nat)
    requires NonNegative(p) && i < |p| && p[i].owner.None?
    ensures p[i].qty <= VenueTotal(p)
  {
    TotalsNonNegative(p[1..]);
    if i > 0 { VenueAtMostAll(p[1..], i - 1); }
  }

  lemma {:induction false} FractionsAtMostOne(p: seq<Slot>, avail: real)
    requires NonNegative(p) && 0.0 < avail == VenueTotal(p)
    ensures AllAtMostOne(p, Fractions(p, avail))
  {
    hide VenueTotal, Fractions;
    forall i | 0 <= i < |p| && p[i].owner.None? ensures 0.0 <= Fractions(p, avail)[i] <= 1.0 {
      FractionsAt(p, avail, i);
      VenueAtMostAll(p, i);
      DivNonNegative(p[i].qty, avail);
      DivAtMost(p[i].qty, 1.0, avail);
    }
  }

  lemma {:induction false} PortionedIs(p: seq<Slot>, r: seq<Slot>, left: real)
    requires 0.0 < VenueTotal(p) && Portioned(p, r, Fractions(p, VenueTotal(p)), left)
    ensures SecondForm(p, r, left)
  {
    hide VenueTotal, Fractions;
    var avail := VenueTotal(p);
    forall i | 0 <= i < |p|
      ensures r[i] == if p[i].owner.Some? then p[i]
                      else p[i].(qty := p[i].qty - (left - (VenueTotal(p[..i]) - VenueTotal(r[..i])))
                                                   * (p[i].qty / avail))
    {
      assert PortionedAt(p, r, Fractions(p, avail), left, i);
      FractionsAt(p, avail, i);
    }
  }

  lemma {:induction false} SecondPassForm(p: seq<Slot>, left: real)
    requires NonNegative(p) && EPS < left <= VenueTotal(p)
    ensures SecondForm(p, SecondPass(p, left).0, left)
  {
    hide VenueTotal, Uncapped, Proportional, Portioned;
    var avail := VenueTotal(p);
    var xs := Fractions(p, avail);
    FractionsAre(p, avail);
    NeverCapped(p, xs, left, avail);
    FractionsAtMostOne(p, avail);
    UncappedForm(p, xs, left);
    PortionedIs(p, SecondPass(p, left).0, left);
  }

  // --- The attribution -------------------------------------------------------------------------

  lemma {:induction false} DropDustForm(r: seq<Slot>)
    ensures WithoutDust(r, DropDust(r))
  {
    if r != [] {
      DropDustForm(r[1..]);
      if !VenueDust(r[0]) { assert DropDust(r)[1..] == DropDust(r[1..]); }
    }
  }

  lemma {:induction false} NotEmpty(q: seq<Slot>)
    requires Total(q) > 0.0
    ensures q != []
  {
  }

  /** Cancels that a level's venue volume covers are attributed in two passes: to
      every venue slot its end-weighted share, then what found no slot in
      proportion to what is left. */
  lemma {:induction false} DistributeForm(q: seq<Slot>, cancels: real)
    requires NonNegative(q) && 0.0 < cancels <= VenueTotal(q)
    ensures Total(q) > 0.0 && Attributed(q, Distribute(q, cancels), cancels)
  {
    hide FirstForm, SecondForm, WithoutDust, FirstPass, VenueTotal, Total;
    TotalsNonNegative(q);
    NotEmpty(q);
    var (p, left) := FirstPass(q, cancels);
    FirstPassForm(q, cancels);
    FirstPassTrims(q, cancels);
    var r := SecondPass(p, left).0;
    if left > EPS && VenueTotal(p) > 0.0 {
      SecondPassForm(p, left);
    }
    DropDustForm(r);
    assert Distribute(q, cancels) == DropDust(r);
  }
}
