/** The two-sample Kolmogorov-Smirnov distance (scripts/validate_lib/metrics.py):
    the merge walk over the sorted samples against its definition, the largest
    gap between the two empirical distributions. */
module KsDistance {
  import opened Reals

  // --- Definition -----------------------------------------------------------------------

  function CountUpTo(s: seq<real>, x: real): (n: nat)
    ensures n <= |s|
  {
    if s == [] then 0 else (if s[0] <= x then 1 else 0) + CountUpTo(s[1..], x)
  }

  function Share(n: nat, total: nat): real
    requires total > 0
  {
    n as real / total as real
  }

  /** Empirical distribution: the share of the sample that is at most `x`. */
  function Cdf(s: seq<real>, x: real): real
    requires s != []
  {
    Share(CountUpTo(s, x), |s|)
  }

  function Distance(p: real, q: real): real {
    if p < q then q - p else p - q
  }

  function Gap(a: seq<real>, b: seq<real>, x: real): real
    requires a != [] && b != []
  {
    Distance(Cdf(a, x), Cdf(b, x))
  }

  /** `ks` bounds the gap everywhere and is attained somewhere. */
  ghost predicate IsSupremum(a: seq<real>, b: seq<real>, ks: real)
    requires a != [] && b != []
  {
    (forall x: real :: Gap(a, b, x) <= ks) && exists x: real :: Gap(a, b, x) == ks
  }

  /** What the distance of two samples is. */
  ghost predicate IsKs(a: seq<real>, b: seq<real>, ks: real) {
    if a == [] && b == [] then ks == 0.0
    else if a == [] || b == [] then ks == 1.0
    else IsSupremum(a, b, ks)
  }

  // --- What the distance tells ---------------------------------------------------------------

  lemma {:induction false} ShareRange(n: nat, total: nat)
    requires n <= total && total > 0
    ensures 0.0 <= Share(n, total) <= 1.0
    ensures Share(n, total) == 0.0 <==> n == 0
    ensures Share(n, total) == 1.0 <==> n == total
  {
    var n', t := n as real, total as real;
    DivNonNegative(n', t);
    DivAtMost(n', 1.0, t);
    Whole(n', t);
  }

  lemma {:induction false} Whole(n: real, t: real)
    requires t > 0.0
    ensures n / t == 0.0 <==> n == 0.0
    ensures n / t == 1.0 <==> n == t
  {
    assert (n / t) * t == n;
  }

  lemma {:induction false} CdfRange(s: seq<real>, x: real)
    requires s != []
    ensures 0.0 <= Cdf(s, x) <= 1.0
    ensures Cdf(s, x) == 0.0 <==> forall i :: 0 <= i < |s| ==> s[i] > x
    ensures Cdf(s, x) == 1.0 <==> forall i :: 0 <= i < |s| ==> s[i] <= x
  {
    hide Share;
    ShareRange(CountUpTo(s, x), |s|);
    CountExtremes(s, x);
  }

  lemma {:induction false} CountExtremes(s: seq<real>, x: real)
    ensures CountUpTo(s, x) == 0 <==> forall i :: 0 <= i < |s| ==> s[i] > x
    ensures CountUpTo(s, x) == |s| <==> forall i :: 0 <= i < |s| ==> s[i] <= x
  {
    if s != [] {
      CountExtremes(s[1..], x);
      assert forall i :: 0 <= i < |s| ==> s[i] == if i == 0 then s[0] else s[1..][i - 1];
      assert forall i :: 0 <= i < |s[1..]| ==> s[1..][i] == s[i + 1];
    }
  }

  /** The distance lies between 0 and 1. */
  lemma {:induction false} InUnitInterval(a: seq<real>, b: seq<real>, ks: real)
    requires IsKs(a, b, ks)
    ensures 0.0 <= ks <= 1.0
  {
    hide Cdf;
    if a != [] && b != [] {
      var x: real :| Gap(a, b, x) == ks;
      CdfRange(a, x);
      CdfRange(b, x);
    }
  }

  lemma {:induction false} Symmetric(a: seq<real>, b: seq<real>, ks: real)
    ensures IsKs(a, b, ks) <==> IsKs(b, a, ks)
  {
    if a != [] && b != [] {
      hide Cdf;
      forall x: real ensures Gap(a, b, x) == Gap(b, a, x) {}
      if IsKs(a, b, ks) {
        var x: real :| Gap(a, b, x) == ks;
        assert Gap(b, a, x) == ks;
      }
      if IsKs(b, a, ks) {
        var x: real :| Gap(b, a, x) == ks;
        assert Gap(a, b, x) == ks;
      }
    }
  }

  /** There is only one distance. */
  lemma {:induction false} Unique(a: seq<real>, b: seq<real>, k1: real, k2: real)
    requires IsKs(a, b, k1) && IsKs(a, b, k2)
    ensures k1 == k2
  {
    hide Gap;
  }

  /** It is 0 exactly when the empirical distributions coincide. */
  lemma {:induction false} ZeroIff(a: seq<real>, b: seq<real>, ks: real)
    requires a != [] && b != [] && IsKs(a, b, ks)
    ensures ks == 0.0 <==> forall x: real :: Cdf(a, x) == Cdf(b, x)
  {
    hide Cdf;
    if ks == 0.0 {
      forall x: real ensures Cdf(a, x) == Cdf(b, x) { assert Gap(a, b, x) <= ks; }
    }
    if forall x: real :: Cdf(a, x) == Cdf(b, x) {
      var x: real :| Gap(a, b, x) == ks;
    }
  }

  /** All of `a` lies below all of `b`. */
  predicate Below(a: seq<real>, b: seq<real>) {
    forall i, j :: 0 <= i < |a| && 0 <= j < |b| ==> a[i] < b[j]
  }

  function Largest(s: seq<real>): (m: real)
    requires s != []
    ensures m in s && forall i :: 0 <= i < |s| ==> s[i] <= m
  {
    var n := |s| - 1;
    if n == 0 then s[0]
    else
      var m := Largest(s[..n]);
      assert forall i :: 0 <= i < n ==> s[..n][i] == s[i];
      if m < s[n] then s[n] else m
  }

  lemma {:induction false} BelowGivesOne(a: seq<real>, b: seq<real>)
    requires a != [] && b != [] && Below(a, b)
    ensures exists x: real :: Gap(a, b, x) == 1.0
  {
    hide Cdf;
    var x := Largest(a);
    CdfRange(a, x);
    CdfRange(b, x);
    assert Gap(a, b, x) == 1.0;
  }

  /** It is 1 exactly when one sample lies wholly below the other. Supports that
      are merely disjoint do not suffice: see InterleavedIsNotOne. */
  lemma {:induction false} OneIff(a: seq<real>, b: seq<real>, ks: real)
    requires a != [] && b != [] && IsKs(a, b, ks)
    ensures ks == 1.0 <==> Below(a, b) || Below(b, a)
  {
    hide Cdf;
    if ks == 1.0 {
      var x: real :| Gap(a, b, x) == 1.0;
      CdfRange(a, x);
      CdfRange(b, x);
    }
    if Below(a, b) || Below(b, a) {
      InUnitInterval(a, b, ks);
      if Below(a, b) {
        BelowGivesOne(a, b);
        var x: real :| Gap(a, b, x) == 1.0;
      } else {
        BelowGivesOne(b, a);
        var x: real :| Gap(b, a, x) == 1.0;
        assert Gap(a, b, x) == 1.0;
      }
    }
  }

  /** Disjoint supports with a distance below 1. */
  lemma {:induction false} InterleavedIsNotOne(ks: real)
    requires IsKs([1.0, 3.0], [2.0], ks)
    ensures ks < 1.0
  {
    var a, b := [1.0, 3.0], [2.0];
    InUnitInterval(a, b, ks);
    OneIff(a, b, ks);
    assert a[1] > b[0] && a[0] < b[0];
  }

  // --- The walk ---------------------------------------------------------------------------------

  predicate Ordered(s: seq<real>) {
    forall i, j :: 0 <= i < j < |s| ==> s[i] <= s[j]
  }

  function Insert(x: real, s: seq<real>): seq<real> {
    if s == [] || x <= s[0] then [x] + s else [s[0]] + Insert(x, s[1..])
  }

  /** Python's sorted(). */
  function SortedCopy(s: seq<real>): seq<real> {
    if s == [] then [] else Insert(s[0], SortedCopy(s[1..]))
  }

  lemma {:induction false} InsertCounts(v: real, s: seq<real>, x: real)
    ensures CountUpTo(Insert(v, s), x) == CountUpTo(s, x) + if v <= x then 1 else 0
    ensures |Insert(v, s)| == |s| + 1
  {
    if s == [] || v <= s[0] {
      assert ([v] + s)[1..] == s;
    } else {
      InsertCounts(v, s[1..], x);
      assert ([s[0]] + Insert(v, s[1..]))[1..] == Insert(v, s[1..]);
    }
  }

  lemma {:induction false} InsertOrdered(v: real, s: seq<real>)
    requires Ordered(s)
    ensures Ordered(Insert(v, s))
    ensures forall i :: 0 <= i < |Insert(v, s)| ==> Insert(v, s)[i] == v || Insert(v, s)[i] in s
  {
    if s == [] || v <= s[0] {
    } else {
      var rest := Insert(v, s[1..]);
      InsertOrdered(v, s[1..]);
      assert forall y :: y in s[1..] ==> y in s && s[0] <= y;
      assert forall i :: 0 <= i < |rest| ==> s[0] <= rest[i];
    }
  }

  lemma {:induction false} SortCounts(s: seq<real>, x: real)
    ensures CountUpTo(SortedCopy(s), x) == CountUpTo(s, x) && |SortedCopy(s)| == |s|
  {
    if s != [] {
      SortCounts(s[1..], x);
      InsertCounts(s[0], SortedCopy(s[1..]), x);
    }
  }

  lemma {:induction false} SortOrders(s: seq<real>)
    ensures Ordered(SortedCopy(s))
  {
    if s != [] {
      SortOrders(s[1..]);
      InsertOrdered(s[0], SortedCopy(s[1..]));
    }
  }

  /** In an ordered sample the count is where the values pass `x`. */
  lemma {:induction false} CountAt(s: seq<real>, i: nat, x: real)
    requires Ordered(s) && i <= |s|
    requires forall k :: 0 <= k < i ==> s[k] <= x
    requires i < |s| ==> x < s[i]
    ensures CountUpTo(s, x) == i
  {
    if i > 0 {
      CountAt(s[1..], i - 1, x);
    } else {
      CountExtremes(s, x);
    }
  }

  /** The samples are consumed up to `i` and `j`: everything consumed lies
      strictly below everything left. */
  predicate Cut(sa: seq<real>, sb: seq<real>, i: nat, j: nat) {
    i <= |sa| && j <= |sb|
    && (i < |sa| ==> (forall k :: 0 <= k < i ==> sa[k] < sa[i]) && forall k :: 0 <= k < j ==> sb[k] < sa[i])
    && (j < |sb| ==> (forall k :: 0 <= k < j ==> sb[k] < sb[j]) && forall k :: 0 <= k < i ==> sa[k] < sb[j])
  }

  /** `x` lies below everything left. */
  predicate Passed(sa: seq<real>, sb: seq<real>, i: nat, j: nat, x: real) {
    (i < |sa| ==> x < sa[i]) && (j < |sb| ==> x < sb[j])
  }

  /** The gap has been bounded for everything passed, and attained. */
  ghost predicate Bounded(sa: seq<real>, sb: seq<real>, i: nat, j: nat, ks: real)
    requires sa != [] && sb != []
  {
    (forall x: real :: Passed(sa, sb, i, j, x) ==> Gap(sa, sb, x) <= ks)
    && exists x: real :: Gap(sa, sb, x) == ks
  }

  /** Consumes the values equal to `v`. */
  method Skip(s: seq<real>, i0: nat, v: real, cdf0: real) returns (i: nat, cdf: real)
    requires s != [] && i0 <= |s| && cdf0 == Share(i0, |s|)
    ensures i0 <= i <= |s| && cdf == Share(i, |s|)
    ensures forall k :: i0 <= k < i ==> s[k] == v
    ensures i < |s| ==> s[i] != v
  {
    i, cdf := i0, cdf0;
    while i < |s| && s[i] == v
      invariant i0 <= i <= |s| && cdf == Share(i, |s|)
      invariant forall k :: i0 <= k < i ==> s[k] == v
    {
      i := i + 1;
      cdf := i as real / |s| as real;
    }
  }

  /** Between one step and the next the gap is the one measured. */
  lemma {:induction false} GapBetween(sa: seq<real>, sb: seq<real>, i: nat, j: nat, v: real, x: real)
    requires sa != [] && sb != [] && Ordered(sa) && Ordered(sb) && i <= |sa| && j <= |sb|
    requires forall k :: 0 <= k < i ==> sa[k] <= v
    requires forall k :: 0 <= k < j ==> sb[k] <= v
    requires v <= x && Passed(sa, sb, i, j, x)
    ensures Gap(sa, sb, x) == Distance(Share(i, |sa|), Share(j, |sb|))
  {
    hide Share;
    CountAt(sa, i, x);
    CountAt(sb, j, x);
  }

  /** Everything consumed by a step is `v`, and everything left is above it. */
  predicate Stepped(s: seq<real>, i0: nat, i: nat, v: real) {
    i0 <= i <= |s| && (forall k :: i0 <= k < i ==> s[k] == v) && (i < |s| ==> v < s[i])
  }

  lemma {:induction false} CutStep(sa: seq<real>, sb: seq<real>, i0: nat, j0: nat, i: nat, j: nat, v: real)
    requires Ordered(sa) && Ordered(sb) && Cut(sa, sb, i0, j0)
    requires Stepped(sa, i0, i, v) && Stepped(sb, j0, j, v) && (i0 < i || j0 < j)
    ensures Cut(sa, sb, i, j)
    ensures forall k :: 0 <= k < i ==> sa[k] <= v
    ensures forall k :: 0 <= k < j ==> sb[k] <= v
  {
  }

  /** The gap measured after a step bounds everything the step has passed. */
  lemma {:induction false} BoundStep(sa: seq<real>, sb: seq<real>, i0: nat, j0: nat, i: nat, j: nat, v: real,
                                     ks0: real, ks: real)
    requires sa != [] && sb != [] && Ordered(sa) && Ordered(sb) && Bounded(sa, sb, i0, j0, ks0)
    requires i0 <= i <= |sa| && j0 <= j <= |sb| && Passed(sa, sb, i, j, v)
    requires i0 < |sa| ==> v <= sa[i0]
    requires j0 < |sb| ==> v <= sb[j0]
    requires forall k :: 0 <= k < i ==> sa[k] <= v
    requires forall k :: 0 <= k < j ==> sb[k] <= v
    requires ks == Larger(Distance(Share(i, |sa|), Share(j, |sb|)), ks0)
    ensures Bounded(sa, sb, i, j, ks)
  {
    hide Share, Distance, Gap;
    forall x: real | Passed(sa, sb, i, j, x) ensures Gap(sa, sb, x) <= ks {
      if x >= v {
        GapBetween(sa, sb, i, j, v, x);
      } else {
        assert Passed(sa, sb, i0, j0, x);
      }
    }
    GapBetween(sa, sb, i, j, v, v);
    assert Gap(sa, sb, v) == ks || ks == ks0;
  }

  function Larger(a: real, b: real): real {
    if a > b then a else b
  }

  lemma {:induction false} WalkStart(sa: seq<real>, sb: seq<real>)
    requires sa != [] && sb != [] && Ordered(sa) && Ordered(sb)
    ensures Cut(sa, sb, 0, 0) && Bounded(sa, sb, 0, 0, 0.0)
    ensures Share(0, |sa|) == 0.0 == Share(0, |sb|)
  {
    hide Share;
    ShareRange(0, |sa|);
    ShareRange(0, |sb|);
    var low := (if sa[0] < sb[0] then sa[0] else sb[0]) - 1.0;
    forall x: real | Passed(sa, sb, 0, 0, x) ensures Gap(sa, sb, x) == 0.0 { GapBetween(sa, sb, 0, 0, x, x); }
    assert Passed(sa, sb, 0, 0, low) && Gap(sa, sb, low) == 0.0;
  }

  lemma {:induction false} OfSorted(a: seq<real>, b: seq<real>, ks: real)
    requires a != [] && b != []
    requires var sa, sb := SortedCopy(a), SortedCopy(b);
             |sa| == |a| && |sb| == |b| && Bounded(sa, sb, |a|, |b|, ks)
    ensures IsKs(a, b, ks)
  {
    hide Share, Distance;
    var sa, sb := SortedCopy(a), SortedCopy(b);
    forall x: real ensures Gap(a, b, x) == Gap(sa, sb, x) {
      SortCounts(a, x);
      SortCounts(b, x);
    }
    forall x: real ensures Gap(a, b, x) <= ks { assert Passed(sa, sb, |a|, |b|, x); }
    var x: real :| Gap(sa, sb, x) == ks;
    assert Gap(a, b, x) == ks;
  }

  /** The merge walk computes the distance. */
  method KsOf(a: seq<real>, b: seq<real>) returns (ks: real)
    ensures IsKs(a, b, ks)
  {
    hide Share, Distance, Cut, Bounded, Ordered, IsSupremum;
    if |a| == 0 && |b| == 0 { return 0.0; }
    if |a| == 0 || |b| == 0 { return 1.0; }
    var sa, sb := SortedCopy(a), SortedCopy(b);
    SortCounts(a, 0.0);
    SortCounts(b, 0.0);
    SortOrders(a);
    SortOrders(b);
    WalkStart(sa, sb);
    var na, nb := |sa|, |sb|;
    var i, j := 0, 0;
    var cdfA, cdfB := 0.0, 0.0;
    ks := 0.0;
    while i < na || j < nb
      invariant i <= na && j <= nb
      invariant cdfA == Share(i, na) && cdfB == Share(j, nb)
      invariant Cut(sa, sb, i, j) && Bounded(sa, sb, i, j, ks)
      decreases na - i + nb - j
    {
      ghost var i0, j0, ks0 := i, j, ks;
      var v;
      if i < na && (j >= nb || sa[i] <= sb[j]) {
        v := sa[i];
        i, cdfA := Skip(sa, i, v, cdfA);
        j, cdfB := Skip(sb, j, v, cdfB);
      } else {
        v := sb[j];
        j, cdfB := Skip(sb, j, v, cdfB);
        i, cdfA := Skip(sa, i, v, cdfA);
      }
      var gap := Distance(cdfA, cdfB);
      if gap > ks { ks := gap; }
      NextAbove(sa, i0, i, v);
      NextAbove(sb, j0, j, v);
      CutStep(sa, sb, i0, j0, i, j, v);
      BoundStep(sa, sb, i0, j0, i, j, v, ks0, ks);
    }
    OfSorted(a, b, ks);
  }

  /** After skipping the values equal to `v`, the next one is above it. */
  lemma {:induction false} NextAbove(s: seq<real>, i0: nat, i: nat, v: real)
    requires Ordered(s) && i0 <= i <= |s|
    requires i0 < |s| ==> v <= s[i0]
    requires i < |s| ==> s[i] != v
    ensures i < |s| ==> v < s[i]
  {
  }
}
