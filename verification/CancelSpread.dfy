/** Attribution of inferred cancels to the slots of a queue
    (distribute_cancels in matching_engine_book.cpp). */
module CancelSpread {
  import opened Orders
  import opened SlotQueues
  import opened Reals

  /** End-weighted share of the cancels that falls between two depths, where
      n2 is the square of the level's total quantity. */
  function Share(cancels: real, from: real, to: real, n2: real): real
    requires n2 > 0.0
  {
    cancels * ((to * to - from * from) / n2)
  }

  /** The end-weighted share of every slot of a queue that starts at `depth`. */
  function Shares(q: seq<Slot>, cancels: real, depth: real, n2: real): (shares: seq<real>)
    requires n2 > 0.0
    ensures |shares| == |q|
  {
    if q == [] then []
    else
      var below := depth + q[0].qty;
      [Share(cancels, depth, below, n2)] + Shares(q[1..], cancels, below, n2)
  }

  /** What a slot loses when `wanted` is asked of it and `left` is still to be
      cancelled. */
  function Cut(s: Slot, wanted: real, left: real): real {
    if s.owner.Some? then 0.0 else Min(Min(wanted, s.qty), left)
  }

  /** First pass: each venue slot loses its share, capped by its own size and
      by what is left to cancel. */
  function Weighted(q: seq<Slot>, shares: seq<real>, left: real): (seq<Slot>, real)
    requires |shares| == |q|
  {
    if left <= 0.0 || q == [] then (q, left)
    else
      var cut := Cut(q[0], shares[0], left);
      var rest := Weighted(q[1..], shares[1..], left - cut);
      ([q[0].(qty := q[0].qty - cut)] + rest.0, rest.1)
  }

  function Fraction(qty: real, avail: real): real
    requires avail > 0.0
  {
    qty / avail
  }

  /** The fraction of the available venue volume that each slot holds. */
  function Fractions(q: seq<Slot>, avail: real): (xs: seq<real>)
    requires avail > 0.0
    ensures |xs| == |q|
  {
    if q == [] then []
    else [Fraction(q[0].qty, avail)] + Fractions(q[1..], avail)
  }

  function Portion(left: real, x: real): real {
    left * x
  }

  /** Second pass: the residual is spread over the venue slots in proportion
      to what they have left. */
  function Proportional(q: seq<Slot>, xs: seq<real>, left: real): (seq<Slot>, real)
    requires |xs| == |q|
  {
    if left <= 0.0 || q == [] then (q, left)
    else
      var cut := if q[0].owner.Some? then 0.0 else Min(Portion(left, xs[0]), q[0].qty);
      var rest := Proportional(q[1..], xs[1..], left - cut);
      ([q[0].(qty := q[0].qty - cut)] + rest.0, rest.1)
  }

  /** The second pass without its per-slot cap: every venue slot loses its plain
      proportion of what is left. */
  function Uncapped(q: seq<Slot>, xs: seq<real>, left: real): (seq<Slot>, real)
    requires |xs| == |q|
  {
    if left <= 0.0 || q == [] then (q, left)
    else
      var cut := if q[0].owner.Some? then 0.0 else Portion(left, xs[0]);
      var rest := Uncapped(q[1..], xs[1..], left - cut);
      ([q[0].(qty := q[0].qty - cut)] + rest.0, rest.1)
  }

  predicate VenueDust(s: Slot) {
    s.owner.None? && s.qty <= EPS
  }

  function DropDust(q: seq<Slot>): seq<Slot> {
    if q == [] then []
    else if VenueDust(q[0]) then DropDust(q[1..])
    else [q[0]] + DropDust(q[1..])
  }

  function Square(x: real): (n2: real)
    requires 0.0 < x
    ensures 0.0 < n2
  {
    TimesPositive(x, x);
    Times(x, x)
  }

  function FirstPass(q: seq<Slot>, cancels: real): (seq<Slot>, real)
    requires Total(q) > 0.0
  {
    Weighted(q, Shares(q, cancels, 0.0, Square(Total(q))), cancels)
  }

  /** Runs only on a residual that is more than dust. */
  function SecondPass(q: seq<Slot>, left: real): (seq<Slot>, real) {
    if left > EPS && VenueTotal(q) > 0.0 then Proportional(q, Fractions(q, VenueTotal(q)), left)
    else (q, left)
  }

  /** Both passes, before dust is dropped: the queue and the cancels that
      found no slot. */
  function Spread(q: seq<Slot>, cancels: real): (seq<Slot>, real)
    requires Total(q) > 0.0
  {
    var first := FirstPass(q, cancels);
    SecondPass(first.0, first.1)
  }

  function Distribute(q: seq<Slot>, cancels: real): seq<Slot> {
    if cancels <= 0.0 || q == [] || Total(q) <= 0.0 then q
    else DropDust(Spread(q, cancels).0)
  }

  // --- What the passes keep ---------------------------------------------------

  /** Same slots in the same places; venue slots may have shrunk, own slots
      have not changed. */
  ghost predicate Trimmed(q: seq<Slot>, r: seq<Slot>) {
    && |r| == |q|
    && forall i :: 0 <= i < |q| ==>
         && r[i].owner == q[i].owner
         && 0.0 <= r[i].qty <= q[i].qty
         && (q[i].owner.Some? ==> r[i] == q[i])
  }

  lemma {:induction false} TrimmedTransitive(p: seq<Slot>, q: seq<Slot>, r: seq<Slot>)
    requires Trimmed(p, q) && Trimmed(q, r)
    ensures Trimmed(p, r)
  {
  }

  /** One step of either pass. */
  lemma {:induction false} CutTrims(q: seq<Slot>, cut: real, left: real, rest: seq<Slot>, end: real)
    requires q != [] && NonNegative(q) && 0.0 <= cut <= left && cut <= q[0].qty
    requires q[0].owner.Some? ==> cut == 0.0
    requires Trimmed(q[1..], rest) && 0.0 <= end <= left - cut
    requires VenueTotal(q[1..]) - VenueTotal(rest) == left - cut - end
    ensures var r := [q[0].(qty := q[0].qty - cut)] + rest;
            Trimmed(q, r) && 0.0 <= end <= left && VenueTotal(q) - VenueTotal(r) == left - end
  {
    var r := [q[0].(qty := q[0].qty - cut)] + rest;
    forall i | 1 <= i < |q| ensures q[i] == q[1..][i - 1] && r[i] == rest[i - 1] {}
    assert r[1..] == rest;
  }

  predicate AllNonNegative(xs: seq<real>) {
    forall i :: 0 <= i < |xs| ==> xs[i] >= 0.0
  }

  lemma {:induction false} TrimmedItself(q: seq<Slot>)
    ensures NonNegative(q) ==> Trimmed(q, q)
  {
  }

  lemma {:induction false} CutFits(s: Slot, wanted: real, left: real)
    requires 0.0 <= wanted && 0.0 <= left && 0.0 <= s.qty
    ensures 0.0 <= Cut(s, wanted, left) <= left && Cut(s, wanted, left) <= s.qty
    ensures s.owner.Some? ==> Cut(s, wanted, left) == 0.0
  {
  }

  lemma {:induction false} WeightedTrims(q: seq<Slot>, shares: seq<real>, left: real)
    requires NonNegative(q) && |shares| == |q| && AllNonNegative(shares) && left >= 0.0
    ensures var (r, end) := Weighted(q, shares, left);
            && Trimmed(q, r)
            && 0.0 <= end <= left
            && VenueTotal(q) - VenueTotal(r) == left - end
  {
    hide Trimmed, VenueTotal, Cut;
    TrimmedItself(q);
    if left > 0.0 && q != [] {
      var cut := Cut(q[0], shares[0], left);
      CutFits(q[0], shares[0], left);
      WeightedTrims(q[1..], shares[1..], left - cut);
      var (rest, end) := Weighted(q[1..], shares[1..], left - cut);
      CutTrims(q, cut, left, rest, end);
    }
  }

  lemma {:induction false} ShareNonNegative(cancels: real, from: real, to: real, n2: real)
    requires n2 > 0.0 && 0.0 <= from <= to && 0.0 <= cancels
    ensures Share(cancels, from, to, n2) >= 0.0
  {
    MulMonotone(from, to, from);
    MulMonotone(from, to, to);
    DivNonNegative(to * to - from * from, n2);
    MulNonNegative(cancels, (to * to - from * from) / n2);
  }

  lemma {:induction false} SharesNonNegative(q: seq<Slot>, cancels: real, depth: real, n2: real)
    requires NonNegative(q) && n2 > 0.0 && 0.0 <= depth && 0.0 <= cancels
    ensures AllNonNegative(Shares(q, cancels, depth, n2))
  {
    if q != [] {
      var below := depth + q[0].qty;
      ShareNonNegative(cancels, depth, below, n2);
      SharesNonNegative(q[1..], cancels, below, n2);
    }
  }

  /** The part of a residual that survives the second pass. */
  function Survive(q: seq<Slot>, xs: seq<real>): real
    requires |xs| == |q|
  {
    if q == [] then 1.0
    else if q[0].owner.Some? then Survive(q[1..], xs[1..])
    else Times(1.0 - xs[0], Survive(q[1..], xs[1..]))
  }

  /** Each x is the fraction qty / avail of its slot. */
  ghost predicate AreFractions(q: seq<Slot>, xs: seq<real>, avail: real) {
    && |xs| == |q|
    && forall i :: 0 <= i < |q| ==> 0.0 <= xs[i] && Portion(avail, xs[i]) == q[i].qty
  }

  lemma {:induction false} FractionIs(qty: real, avail: real)
    requires avail > 0.0 && 0.0 <= qty
    ensures 0.0 <= Fraction(qty, avail) && Portion(avail, Fraction(qty, avail)) == qty
  {
    DivNonNegative(qty, avail);
  }

  lemma {:induction false} FractionsAre(q: seq<Slot>, avail: real)
    requires NonNegative(q) && avail > 0.0
    ensures AreFractions(q, Fractions(q, avail), avail)
  {
    if q != [] {
      hide Portion, Fraction;
      FractionIs(q[0].qty, avail);
      FractionsAre(q[1..], avail);
    }
  }

  /** A proportional portion never exceeds the slot. */
  lemma {:induction false} PortionFits(left: real, x: real, avail: real, size: real)
    requires 0.0 <= left <= avail && avail > 0.0 && 0.0 <= x && Portion(avail, x) == size <= avail
    ensures 0.0 <= Portion(left, x) <= size
    ensures Portion(left, x) <= left
    ensures left - Portion(left, x) == Portion(left, 1.0 - x)
  {
    MulNonNegative(left, x);
    MulMonotone(left, avail, x);
    if x > 1.0 {
      MulPositive(x - 1.0, avail);
      assert (x - 1.0) * avail == avail * x - avail;
    }
    MulMonotone(x, 1.0, left);
    assert left * (1.0 - x) == left - left * x;
  }

  /** The second pass never hits its per-slot cap: without it, the outcome is
      the same. */
  lemma {:induction false} NeverCapped(q: seq<Slot>, xs: seq<real>, left: real, avail: real)
    requires NonNegative(q) && AreFractions(q, xs, avail)
    requires avail > 0.0 && 0.0 <= left <= avail && VenueTotal(q) <= avail
    ensures Proportional(q, xs, left) == Uncapped(q, xs, left)
  {
    hide Portion;
    if left > 0.0 && q != [] {
      TotalsNonNegative(q[1..]);
      var cut := if q[0].owner.Some? then 0.0 else Portion(left, xs[0]);
      if q[0].owner.None? { PortionFits(left, xs[0], avail, q[0].qty); }
      NeverCapped(q[1..], xs[1..], left - cut, avail);
    }
  }

  /** The second pass only trims venue slots, by what it places. */
  lemma {:induction false} ProportionalTrims(q: seq<Slot>, xs: seq<real>, left: real, avail: real)
    requires NonNegative(q) && AreFractions(q, xs, avail)
    requires avail > 0.0 && 0.0 <= left <= avail && VenueTotal(q) <= avail
    ensures var (r, end) := Proportional(q, xs, left);
            && Trimmed(q, r)
            && 0.0 <= end <= left
            && VenueTotal(q) - VenueTotal(r) == left - end
  {
    hide Portion;
    if left > 0.0 && q != [] {
      TotalsNonNegative(q[1..]);
      var cut := if q[0].owner.Some? then 0.0 else Portion(left, xs[0]);
      if q[0].owner.None? { PortionFits(left, xs[0], avail, q[0].qty); }
      ProportionalTrims(q[1..], xs[1..], left - cut, avail);
      var (rest, end) := Proportional(q[1..], xs[1..], left - cut);
      CutTrims(q, cut, left, rest, end);
    }
  }

  /** Each slot loses its plain proportion, so the residual shrinks by exactly
      the factor Survive. */
  lemma {:induction false} ProportionalResidual(q: seq<Slot>, xs: seq<real>, left: real, avail: real)
    requires NonNegative(q) && AreFractions(q, xs, avail)
    requires avail > 0.0 && 0.0 <= left <= avail && VenueTotal(q) <= avail
    ensures Proportional(q, xs, left).1 == Portion(left, Survive(q, xs))
  {
    hide Portion, Times;
    if q == [] || left <= 0.0 {
      PortionTrivial(left, Survive(q, xs));
    } else {
      TotalsNonNegative(q[1..]);
      if q[0].owner.Some? {
        ProportionalResidual(q[1..], xs[1..], left, avail);
      } else {
        PortionFits(left, xs[0], avail, q[0].qty);
        ProportionalResidual(q[1..], xs[1..], left - Portion(left, xs[0]), avail);
        PortionCompose(left, xs[0], Survive(q[1..], xs[1..]));
      }
    }
  }

  lemma {:induction false} PortionTrivial(left: real, s: real)
    ensures left == 0.0 || s == 0.0 ==> Portion(left, s) == 0.0
    ensures s == 1.0 ==> Portion(left, s) == left
  {
  }

  lemma {:induction false} PortionCompose(left: real, x: real, s: real)
    ensures Portion(left - Portion(left, x), s) == Portion(left, Times(1.0 - x, s))
  {
    MulDistributes(1.0, -x, left);
    MulAssociates(left, 1.0 - x, s);
  }

  /** Sum of the fractions of the venue slots. */
  function VenueSum(q: seq<Slot>, xs: seq<real>): real
    requires |xs| == |q|
  {
    if q == [] then 0.0
    else (if q[0].owner.Some? then 0.0 else xs[0]) + VenueSum(q[1..], xs[1..])
  }

  lemma {:induction false} VenueSumScales(q: seq<Slot>, xs: seq<real>, avail: real)
    requires AreFractions(q, xs, avail)
    ensures 0.0 <= VenueSum(q, xs)
    ensures Portion(avail, VenueSum(q, xs)) == VenueTotal(q)
  {
    if q != [] {
      hide Portion;
      VenueSumScales(q[1..], xs[1..], avail);
      PortionSum(avail, xs[0], VenueSum(q[1..], xs[1..]));
    } else {
      PortionTrivial(avail, 0.0);
    }
  }

  lemma {:induction false} PortionSum(c: real, x: real, y: real)
    ensures Portion(c, x + y) == Portion(c, x) + Portion(c, y)
  {
    MulDistributes(x, y, c);
  }

  /** (1 - x1)...(1 - xn) <= 1 / (1 + x1 + ... + xn). */
  lemma {:induction false} SurviveBound(q: seq<Slot>, xs: seq<real>)
    requires |xs| == |q| && AllNonNegative(xs) && VenueSum(q, xs) <= 1.0
    ensures 0.0 <= VenueSum(q, xs)
    ensures 0.0 <= Survive(q, xs) <= 1.0
    ensures Survive(q, xs) * (1.0 + VenueSum(q, xs)) <= 1.0
  {
    hide Times;
    if q != [] {
      SurviveBound(q[1..], xs[1..]);
      if q[0].owner.None? {
        ShrinkFactor(xs[0], VenueSum(q[1..], xs[1..]), Survive(q[1..], xs[1..]));
      }
    }
  }

  lemma {:induction false} ShrinkFactor(x: real, y: real, s: real)
    requires 0.0 <= x <= 1.0 && 0.0 <= y && 0.0 <= s <= 1.0 && s * (1.0 + y) <= 1.0
    ensures 0.0 <= Times(1.0 - x, s) <= 1.0
    ensures Times(1.0 - x, s) * (1.0 + (x + y)) <= 1.0
  {
    MulNonNegative(1.0 - x, s);
    MulMonotone(1.0 - x, 1.0, s);
    // (1 - x)(1 + x + y) = (1 + y) - x(x + y) <= 1 + y
    var f := (1.0 - x) * (1.0 + (x + y));
    MulNonNegative(x, x + y);
    assert f == (1.0 + y) - x * (x + y);
    MulMonotone(f, 1.0 + y, s);
    MulAssociates(s, 1.0 - x, 1.0 + (x + y));
  }

  // --- The attribution as a whole ---------------------------------------------

  /** At most half of a residual survives the second pass. */
  lemma {:induction false} SecondPassHalves(q: seq<Slot>, left: real)
    requires NonNegative(q) && EPS < left <= VenueTotal(q)
    ensures var (r, end) := SecondPass(q, left);
            && Trimmed(q, r)
            && VenueTotal(q) - VenueTotal(r) == left - end
            && 0.0 <= end <= left / 2.0
  {
    var avail := VenueTotal(q);
    var xs := Fractions(q, avail);
    FractionsAre(q, avail);
    ProportionalTrims(q, xs, left, avail);
    ProportionalResidual(q, xs, left, avail);
    SurviveHalf(q, xs, avail);
    PortionHalf(left, Survive(q, xs));
  }

  lemma {:induction false} PortionHalf(left: real, s: real)
    requires 0.0 <= left && 0.0 <= s <= 0.5
    ensures 0.0 <= Portion(left, s) <= left / 2.0
  {
    MulNonNegative(left, s);
    MulMonotone(s, 0.5, left);
  }

  lemma {:induction false} SurviveHalf(q: seq<Slot>, xs: seq<real>, avail: real)
    requires avail > 0.0 && AreFractions(q, xs, avail) && VenueTotal(q) == avail
    ensures 0.0 <= Survive(q, xs) <= 0.5
  {
    VenueSumScales(q, xs, avail);
    WholeFractionIff(VenueSum(q, xs), avail);
    SurviveBound(q, xs);
  }

  lemma {:induction false} WholeFractionIff(x: real, c: real)
    requires c > 0.0
    ensures Portion(c, x) == c <==> x == 1.0
  {
    MulZeroIff(x - 1.0, c);
    MulDistributes(x, -1.0, c);
  }

  lemma {:induction false} FirstPassTrims(q: seq<Slot>, cancels: real)
    requires NonNegative(q) && 0.0 < cancels <= VenueTotal(q) <= Total(q)
    ensures var (r, end) := FirstPass(q, cancels);
            && Trimmed(q, r)
            && 0.0 <= end <= cancels
            && VenueTotal(q) - VenueTotal(r) == cancels - end
  {
    SharesNonNegative(q, cancels, 0.0, Square(Total(q)));
    WeightedTrims(q, Shares(q, cancels, 0.0, Square(Total(q))), cancels);
  }

  /** The attribution never cancels more than asked for, leaves own slots
      alone, and keeps every slot non-negative. What it fails to place is at
      most half of what the first pass could not place, or dust. */
  lemma {:induction false} SpreadBounds(q: seq<Slot>, cancels: real)
    requires NonNegative(q) && 0.0 < cancels <= VenueTotal(q)
    ensures Total(q) > 0.0
    ensures var first := FirstPass(q, cancels).1;
            var (r, missed) := Spread(q, cancels);
            && Trimmed(q, r)
            && VenueTotal(q) - VenueTotal(r) == cancels - missed
            && 0.0 <= missed <= first <= cancels
            && (missed <= EPS || missed <= first / 2.0)
  {
    TotalsNonNegative(q);
    var (p, first) := FirstPass(q, cancels);
    FirstPassTrims(q, cancels);
    if first > EPS {
      SecondPassHalves(p, first);
      TrimmedTransitive(q, p, SecondPass(p, first).0);
    }
  }

  lemma {:induction false} PortionZeroIff(left: real, s: real)
    ensures Portion(left, s) == 0.0 <==> left == 0.0 || s == 0.0
  {
    MulZeroIff(left, s);
  }

  /** The second pass places a whole residual iff one venue slot holds all the
      venue volume that is left. */
  lemma {:induction false} SecondPassExactIff(q: seq<Slot>, left: real)
    requires NonNegative(q) && EPS < left <= VenueTotal(q)
    ensures SecondPass(q, left).1 == 0.0
            <==> exists i :: 0 <= i < |q| && q[i].owner.None? && q[i].qty == VenueTotal(q)
  {
    var avail := VenueTotal(q);
    var xs := Fractions(q, avail);
    FractionsAre(q, avail);
    ProportionalResidual(q, xs, left, avail);
    SurviveZeroIff(q, xs, avail);
    PortionZeroIff(left, Survive(q, xs));
  }

  /** One venue slot holds everything. */
  predicate OneHolds(q: seq<Slot>, avail: real) {
    exists i :: 0 <= i < |q| && q[i].owner.None? && q[i].qty == avail
  }

  lemma {:induction false} OneHoldsCons(q: seq<Slot>, avail: real)
    requires q != []
    ensures OneHolds(q, avail) <==> (q[0].owner.None? && q[0].qty == avail) || OneHolds(q[1..], avail)
  {
    if i :| 0 <= i < |q| && q[i].owner.None? && q[i].qty == avail {
      if i > 0 { assert q[1..][i - 1] == q[i]; }
    }
    if i :| 0 <= i < |q[1..]| && q[1..][i].owner.None? && q[1..][i].qty == avail {
      assert q[i + 1] == q[1..][i];
    }
  }

  lemma {:induction false} SurviveZeroIff(q: seq<Slot>, xs: seq<real>, avail: real)
    requires avail > 0.0 && AreFractions(q, xs, avail)
    ensures Survive(q, xs) == 0.0 <==> OneHolds(q, avail)
  {
    hide OneHolds, Times, Portion;
    if q == [] {
      NoneHolds(q, avail);
    } else {
      SurviveZeroIff(q[1..], xs[1..], avail);
      TimesZeroIff(1.0 - xs[0], Survive(q[1..], xs[1..]));
      WholeFractionIff(xs[0], avail);
      OneHoldsCons(q, avail);
    }
  }

  lemma {:induction false} NoneHolds(q: seq<Slot>, avail: real)
    requires q == []
    ensures !OneHolds(q, avail)
  {
  }

  lemma {:induction false} TimesZeroIff(x: real, y: real)
    ensures Times(x, y) == 0.0 <==> x == 0.0 || y == 0.0
  {
    MulZeroIff(x, y);
  }

  /** One venue slot: both passes together place everything but dust. */
  lemma {:induction false} SpreadExactOneVenueSlot(q: seq<Slot>, cancels: real, k: nat)
    requires NonNegative(q) && 0.0 < cancels <= VenueTotal(q)
    requires k < |q| && q[k].owner.None? && forall i :: 0 <= i < |q| && i != k ==> q[i].owner.Some?
    ensures Total(q) > 0.0 && Spread(q, cancels).1 <= EPS
  {
    TotalsNonNegative(q);
    var (p, first) := FirstPass(q, cancels);
    FirstPassTrims(q, cancels);
    if first > EPS {
      OneVenueSlot(p, k);
      SecondPassExactIff(p, first);
    }
  }

  lemma {:induction false} OneVenueSlot(q: seq<Slot>, k: nat)
    requires k < |q| && q[k].owner.None? && forall i :: 0 <= i < |q| && i != k ==> q[i].owner.Some?
    ensures VenueTotal(q) == q[k].qty
  {
    if k == 0 {
      NoVenueSlot(q[1..]);
    } else {
      OneVenueSlot(q[1..], k - 1);
    }
  }

  lemma {:induction false} NoVenueSlot(q: seq<Slot>)
    requires forall i :: 0 <= i < |q| ==> q[i].owner.Some?
    ensures VenueTotal(q) == 0.0
  {
    if q != [] { NoVenueSlot(q[1..]); }
  }

  function Sum(xs: seq<real>): real {
    if xs == [] then 0.0 else xs[0] + Sum(xs[1..])
  }

  /** Every slot has lost exactly its share. */
  predicate Reduced(q: seq<Slot>, shares: seq<real>, r: seq<Slot>) {
    |shares| == |q| == |r| && forall i :: 0 <= i < |q| ==> r[i] == q[i].(qty := q[i].qty - shares[i])
  }

  /** Shares that fit their slots and add up to the whole are all paid out. */
  lemma {:induction false} WeightedExact(q: seq<Slot>, shares: seq<real>, left: real)
    requires |shares| == |q| && AllNonNegative(shares) && Sum(shares) == left
    requires forall i :: 0 <= i < |q| ==> q[i].owner.None? && shares[i] <= q[i].qty
    ensures Weighted(q, shares, left).1 == 0.0
    ensures Reduced(q, shares, Weighted(q, shares, left).0)
  {
    if q != [] {
      SumNonNegative(shares[1..]);
      if left > 0.0 {
        WeightedExact(q[1..], shares[1..], left - shares[0]);
      } else {
        SumNonNegative(shares);
        AllZero(shares);
      }
    }
  }

  lemma {:induction false} AllZero(xs: seq<real>)
    requires AllNonNegative(xs) && Sum(xs) <= 0.0
    ensures forall i :: 0 <= i < |xs| ==> xs[i] == 0.0
  {
    if xs != [] {
      SumNonNegative(xs[1..]);
      AllZero(xs[1..]);
    }
  }

  lemma {:induction false} SumNonNegative(xs: seq<real>)
    requires AllNonNegative(xs)
    ensures Sum(xs) >= 0.0
  {
    if xs != [] { SumNonNegative(xs[1..]); }
  }

  /** The shares of a whole queue telescope. */
  lemma {:induction false} SharesSum(q: seq<Slot>, cancels: real, depth: real, n2: real)
    requires n2 > 0.0
    ensures Sum(Shares(q, cancels, depth, n2)) == Share(cancels, depth, depth + Total(q), n2)
  {
    if q == [] {
      assert Share(cancels, depth, depth, n2) == 0.0;
    } else {
      var below := depth + q[0].qty;
      SharesSum(q[1..], cancels, below, n2);
      ShareSplit(cancels, depth, below, depth + Total(q), n2);
    }
  }

  lemma {:induction false} ShareSplit(cancels: real, a: real, b: real, c: real, n2: real)
    requires n2 > 0.0
    ensures Share(cancels, a, c, n2) == Share(cancels, a, b, n2) + Share(cancels, b, c, n2)
  {
    var x, y := b * b - a * a, c * c - b * b;
    DivSum(x, y, n2);
    assert x + y == c * c - a * a;
    MulDistributes(x / n2, y / n2, cancels);
  }

  /** When at most half of the queue cancels, no share exceeds its slot. */
  lemma {:induction false} SharesFit(q: seq<Slot>, cancels: real, depth: real, total: real)
    requires NonNegative(q) && total > 0.0 && 0.0 <= depth && depth + Total(q) <= total
    requires 0.0 <= cancels && 2.0 * cancels <= total
    ensures forall i :: 0 <= i < |q| ==> Shares(q, cancels, depth, Square(total))[i] <= q[i].qty
  {
    if q != [] {
      TotalsNonNegative(q[1..]);
      ShareFits(cancels, depth, q[0].qty, total);
      SharesFit(q[1..], cancels, depth + q[0].qty, total);
    }
  }

  lemma {:induction false} ShareFits(cancels: real, depth: real, size: real, total: real)
    requires total > 0.0 && 0.0 <= depth && 0.0 <= size && depth + size <= total
    requires 0.0 <= cancels && 2.0 * cancels <= total
    ensures Share(cancels, depth, depth + size, Square(total)) <= size
  {
    var w := 2.0 * depth + size;
    WeightBound(cancels, w, total);
    SquareDifference(depth, size);
    RatioBound(cancels, size, w, Square(total));
  }

  lemma {:induction false} WeightBound(c: real, w: real, total: real)
    requires 0.0 <= c && 2.0 * c <= total && w <= 2.0 * total && 0.0 < total
    ensures w * c <= Square(total)
  {
    MulMonotone(w, 2.0 * total, c);
    MulMonotone(2.0 * c, total, total);
  }

  lemma {:induction false} SquareDifference(a: real, b: real)
    ensures (a + b) * (a + b) - a * a == b * (2.0 * a + b)
  {
  }

  lemma {:induction false} RatioBound(c: real, size: real, w: real, t: real)
    requires t > 0.0 && 0.0 <= size && w * c <= t
    ensures c * ((size * w) / t) <= size
  {
    MulMonotone(w * c, t, size);
    MulDiv(c, size * w, t);
    assert c * (size * w) == (w * c) * size;
    DivAtMost(c * (size * w), size, t);
  }

  /** No own slots and at most half of the queue cancelled: the first pass
      alone places everything, every slot losing exactly its share. */
  lemma {:induction false} SpreadExactNoOwn(q: seq<Slot>, cancels: real)
    requires NonNegative(q) && 0.0 < cancels && 2.0 * cancels <= Total(q)
    requires forall i :: 0 <= i < |q| ==> q[i].owner.None?
    ensures FirstPass(q, cancels).1 == 0.0 && Spread(q, cancels) == FirstPass(q, cancels)
    ensures Reduced(q, Shares(q, cancels, 0.0, Square(Total(q))), Spread(q, cancels).0)
  {
    SharesExact(q, cancels);
    WeightedExact(q, Shares(q, cancels, 0.0, Square(Total(q))), cancels);
  }

  lemma {:induction false} SharesExact(q: seq<Slot>, cancels: real)
    requires NonNegative(q) && 0.0 < cancels && 2.0 * cancels <= Total(q)
    ensures var shares := Shares(q, cancels, 0.0, Square(Total(q)));
            AllNonNegative(shares) && Sum(shares) == cancels
            && forall i :: 0 <= i < |q| ==> shares[i] <= q[i].qty
  {
    var total := Total(q);
    SharesNonNegative(q, cancels, 0.0, Square(total));
    SharesFit(q, cancels, 0.0, total);
    SharesSum(q, cancels, 0.0, Square(total));
    assert 0.0 + total == total;
    FullShare(cancels, total);
  }

  lemma {:induction false} FullShare(cancels: real, total: real)
    requires total > 0.0
    ensures Share(cancels, 0.0, total, Square(total)) == cancels
  {
    assert (total * total - 0.0 * 0.0) / Square(total) == 1.0;
  }

  // --- Dust -------------------------------------------------------------------

  lemma {:induction false} DropDustKeeps(q: seq<Slot>)
    requires NonNegative(q)
    requires forall i :: 0 <= i < |q| && q[i].owner.Some? ==> q[i].qty > 0.0
    ensures Own(DropDust(q)) == Own(q)
    ensures Positive(DropDust(q))
  {
    if q != [] { DropDustKeeps(q[1..]); }
  }

  lemma {:induction false} TrimmedOwn(q: seq<Slot>, r: seq<Slot>)
    requires Trimmed(q, r)
    ensures Own(r) == Own(q)
  {
    if q != [] {
      assert r[0].owner == q[0].owner;
      TrimmedOwn(q[1..], r[1..]);
    }
  }

  /** What reconciliation relies on: own slots come out as they went in and no
      empty slot is left behind. */
  lemma {:induction false} DistributeKeeps(q: seq<Slot>, cancels: real)
    requires Positive(q) && 0.0 < cancels <= VenueTotal(q)
    ensures Own(Distribute(q, cancels)) == Own(q)
    ensures Positive(Distribute(q, cancels))
  {
    SpreadBounds(q, cancels);
    var r := Spread(q, cancels).0;
    TrimmedOwn(q, r);
    forall i | 0 <= i < |r| && r[i].owner.Some? ensures r[i].qty > 0.0 { assert r[i] == q[i]; }
    DropDustKeeps(r);
  }

  /** Dust costs at most EPS a slot. */
  lemma {:induction false} DropDustLoses(q: seq<Slot>)
    requires NonNegative(q)
    ensures 0.0 <= VenueTotal(q) - VenueTotal(DropDust(q)) <= |q| as real * EPS
  {
    if q != [] {
      DropDustLoses(q[1..]);
      assert |q| as real * EPS == |q[1..]| as real * EPS + EPS;
    }
  }
}
