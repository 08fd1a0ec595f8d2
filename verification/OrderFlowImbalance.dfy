/** The rolling order-flow imbalance (bpt-features/src/ofi.cpp): the running
    sums over the window against a value computed afresh from all snapshots. */
module OrderFlowImbalance {
  import opened Reals

  datatype Level = Level(price: real, qty: real)

  datatype Snapshot = Snapshot(bids: seq<Level>, asks: seq<Level>, ts: nat)

  datatype Sample = Sample(ts: nat, contribution: real, depth: real)

  const ABSENT := Level(0.0, 0.0)

  // --- One update --------------------------------------------------------------------------

  function LevelEvent(now: Level, prev: Level, isBid: bool): real {
    if prev.price <= 0.0 && now.price <= 0.0 then 0.0
    else if prev.price <= 0.0 then now.qty
    else if now.price <= 0.0 then -prev.qty
    else if (if isBid then now.price > prev.price else now.price < prev.price) then now.qty
    else if (if isBid then now.price < prev.price else now.price > prev.price) then -prev.qty
    else now.qty - prev.qty
  }

  function At(side: seq<Level>, k: nat): Level {
    if k < |side| then side[k] else ABSENT
  }

  function Levels(s: Snapshot, maxLevels: int): nat {
    var most := if |s.bids| < |s.asks| then |s.asks| else |s.bids|;
    if maxLevels < 0 then 0 else if most < maxLevels then most else maxLevels
  }

  function Weight(k: nat): real {
    1.0 / (k + 1) as real
  }

  /** Weighted level events of the first `n` levels. */
  function Contribution(now: Snapshot, prev: Snapshot, n: nat): real {
    if n == 0 then 0.0
    else
      var k := n - 1;
      Contribution(now, prev, k)
      + Weight(k) * (LevelEvent(At(now.bids, k), At(prev.bids, k), true)
                     - LevelEvent(At(now.asks, k), At(prev.asks, k), false))
  }

  /** Quantity shown on the first `n` levels. */
  function Depth(now: Snapshot, n: nat): real {
    if n == 0 then 0.0 else Depth(now, n - 1) + (At(now.bids, n - 1).qty + At(now.asks, n - 1).qty)
  }

  function SampleOf(now: Snapshot, prev: Snapshot, maxLevels: int): Sample {
    var n := Levels(now, maxLevels);
    Sample(now.ts, Contribution(now, prev, n), Depth(now, n))
  }

  function Cutoff(ts: nat, windowNs: nat): nat {
    if ts > windowNs then ts - windowNs else 0
  }

  /** The bid of a level has not got worse. */
  predicate BidHolds(now: Level, prev: Level) {
    prev.price <= 0.0
    || (now.price > 0.0 && now.price >= prev.price && (now.price == prev.price ==> now.qty >= prev.qty))
  }

  /** The ask of a level has not got better. */
  predicate AskYields(now: Level, prev: Level) {
    now.price <= 0.0
    || (prev.price > 0.0 && now.price >= prev.price && (now.price == prev.price ==> now.qty <= prev.qty))
  }

  predicate AllNonNegative(side: seq<Level>) {
    forall k :: 0 <= k < |side| ==> side[k].qty >= 0.0
  }

  /** Bids rising or growing and asks rising or shrinking are buy pressure: the
      contribution is not negative. */
  lemma {:induction false} BuyPressure(now: Snapshot, prev: Snapshot, n: nat)
    requires AllNonNegative(now.bids) && AllNonNegative(now.asks)
    requires AllNonNegative(prev.bids) && AllNonNegative(prev.asks)
    requires forall k :: 0 <= k < n ==> BidHolds(At(now.bids, k), At(prev.bids, k))
    requires forall k :: 0 <= k < n ==> AskYields(At(now.asks, k), At(prev.asks, k))
    ensures Contribution(now, prev, n) >= 0.0
  {
    hide LevelEvent, BidHolds, AskYields;
    if n > 0 {
      var k := n - 1;
      BuyPressure(now, prev, k);
      assert BidHolds(At(now.bids, k), At(prev.bids, k)) && AskYields(At(now.asks, k), At(prev.asks, k));
      var bidEvent := LevelEvent(At(now.bids, k), At(prev.bids, k), true);
      var askEvent := LevelEvent(At(now.asks, k), At(prev.asks, k), false);
      BidPressure(At(now.bids, k), At(prev.bids, k));
      AskPressure(At(now.asks, k), At(prev.asks, k));
      DivNonNegative(1.0, (k + 1) as real);
      MulNonNegative(Weight(k), bidEvent - askEvent);
    }
  }

  lemma {:induction false} BidPressure(now: Level, prev: Level)
    requires now.qty >= 0.0 && prev.qty >= 0.0 && BidHolds(now, prev)
    ensures LevelEvent(now, prev, true) >= 0.0
  {
  }

  lemma {:induction false} AskPressure(now: Level, prev: Level)
    requires now.qty >= 0.0 && prev.qty >= 0.0 && AskYields(now, prev)
    ensures LevelEvent(now, prev, false) <= 0.0
  {
  }

  /** The quantity that a level adds if its price is at least as good as `price`;
      an absent level is worse than any price. */
  function AddedAt(now: Level, price: Level, isBid: bool): real {
    if now.price <= 0.0 then 0.0
    else if price.price <= 0.0 || (if isBid then now.price >= price.price else now.price <= price.price) then now.qty
    else 0.0
  }

  /** A level event: the quantity now, if the price has not got worse, less the
      quantity before, if the price has not got better. */
  lemma {:induction false} LevelEventIs(now: Level, prev: Level, isBid: bool)
    ensures LevelEvent(now, prev, isBid) == AddedAt(now, prev, isBid) - AddedAt(prev, now, isBid)
  {
  }

  /** Only level `k` of one side differs. */
  ghost predicate OneMoves(now: Snapshot, prev: Snapshot, k: nat, isBid: bool) {
    && (forall j: nat :: j != k || !isBid ==> At(now.bids, j) == At(prev.bids, j))
    && (forall j: nat :: j != k || isBid ==> At(now.asks, j) == At(prev.asks, j))
  }

  /** A single level that moves contributes its event, over its depth in the book
      counted from 1; up for a bid, down for an ask. */
  lemma {:induction false} OneLevelContributes(now: Snapshot, prev: Snapshot, n: nat, k: nat, isBid: bool)
    requires OneMoves(now, prev, k, isBid)
    ensures Contribution(now, prev, n)
         == if k >= n then 0.0
            else if isBid then
              1.0 / (k + 1) as real * (AddedAt(At(now.bids, k), At(prev.bids, k), true)
                                       - AddedAt(At(prev.bids, k), At(now.bids, k), true))
            else
              1.0 / (k + 1) as real * (AddedAt(At(prev.asks, k), At(now.asks, k), false)
                                       - AddedAt(At(now.asks, k), At(prev.asks, k), false))
  {
    hide LevelEvent, AddedAt, At;
    if n > 0 {
      var j := n - 1;
      OneLevelContributes(now, prev, j, k, isBid);
      LevelEventIs(At(now.bids, j), At(prev.bids, j), true);
      LevelEventIs(At(now.asks, j), At(prev.asks, j), false);
    }
  }

  // --- From scratch ----------------------------------------------------------------------------

  /** A sample for every snapshot but the first. */
  function Samples(history: seq<Snapshot>, maxLevels: int): seq<Sample> {
    if |history| <= 1 then []
    else
      var n := |history| - 1;
      Samples(history[..n], maxLevels) + [SampleOf(history[n], history[n - 1], maxLevels)]
  }

  /** The samples not older than `cutoff`. */
  function Recent(samples: seq<Sample>, cutoff: nat): seq<Sample> {
    if samples == [] then []
    else if samples[0].ts >= cutoff then [samples[0]] + Recent(samples[1..], cutoff)
    else Recent(samples[1..], cutoff)
  }

  function ContributionSum(samples: seq<Sample>): real {
    if samples == [] then 0.0 else samples[0].contribution + ContributionSum(samples[1..])
  }

  function DepthSum(samples: seq<Sample>): real {
    if samples == [] then 0.0 else samples[0].depth + DepthSum(samples[1..])
  }

  const TINY: real := 0.000000001

  function Normalised(contribution: real, depth: real, n: nat): real {
    if n == 0 || depth / n as real <= TINY then 0.0 else contribution / (depth / n as real)
  }

  lemma {:induction false} RecentIs(samples: seq<Sample>, cutoff: nat, x: Sample)
    ensures x in Recent(samples, cutoff) <==> x in samples && x.ts >= cutoff
  {
    if samples != [] {
      RecentIs(samples[1..], cutoff, x);
      assert samples == [samples[0]] + samples[1..];
    }
  }

  /** The window holds the samples that are at most its length older than the last
      snapshot. */
  lemma {:induction false} WindowIs(history: seq<Snapshot>, maxLevels: int, windowNs: nat, x: Sample)
    requires history != []
    ensures x in Window(history, maxLevels, windowNs)
            <==> x in Samples(history, maxLevels) && history[|history| - 1].ts <= x.ts + windowNs
  {
    hide Samples, Recent;
    RecentIs(Samples(history, maxLevels), Cutoff(history[|history| - 1].ts, windowNs), x);
  }

  /** A level counts if it is among the first `maxLevels` and on either side of the
      book. */
  lemma {:induction false} LevelsIs(s: Snapshot, maxLevels: int, k: nat)
    ensures k < Levels(s, maxLevels) <==> k < maxLevels && (k < |s.bids| || k < |s.asks|)
  {
  }

  /** Quantity on the first `n` levels of a side. */
  function SideDepth(side: seq<Level>, n: nat): real {
    if side == [] || n == 0 then 0.0 else side[0].qty + SideDepth(side[1..], n - 1)
  }

  lemma {:induction false} SideDepthNext(side: seq<Level>, n: nat)
    ensures SideDepth(side, n + 1) == SideDepth(side, n) + At(side, n).qty
  {
    if side != [] && n > 0 { SideDepthNext(side[1..], n - 1); }
  }

  /** The depth of a snapshot is that of both sides. */
  lemma {:induction false} DepthIs(now: Snapshot, n: nat)
    ensures Depth(now, n) == SideDepth(now.bids, n) + SideDepth(now.asks, n)
  {
    if n > 0 {
      DepthIs(now, n - 1);
      SideDepthNext(now.bids, n - 1);
      SideDepthNext(now.asks, n - 1);
    }
  }

  /** The imbalance, times the average depth of the window, is what the window
      contributed; and it is 0 where there is next to no depth. */
  lemma {:induction false} ImbalanceIs(history: seq<Snapshot>, maxLevels: int, windowNs: nat)
    ensures var w, value := Window(history, maxLevels, windowNs), Imbalance(history, maxLevels, windowNs);
            if w == [] || DepthSum(w) <= 0.000000001 * |w| as real then value == 0.0
            else value * DepthSum(w) == ContributionSum(w) * |w| as real
  {
    hide Window, DepthSum, ContributionSum;
    var w := Window(history, maxLevels, windowNs);
    if w != [] { NormalisedIs(ContributionSum(w), DepthSum(w), |w|); }
  }

  lemma {:induction false} NormalisedIs(contribution: real, depth: real, n: nat)
    requires n > 0
    ensures var value := Normalised(contribution, depth, n);
            if depth <= TINY * n as real then value == 0.0 else value * depth == contribution * n as real
  {
    var k, average := n as real, depth / n as real;
    assert average * k == depth;
    if depth <= TINY * k {
      DivAtMost(depth, TINY, k);
    } else {
      if average <= TINY { MulMonotone(average, TINY, k); }
      assert (contribution / average) * average == contribution;
      assert (contribution / average) * (average * k) == ((contribution / average) * average) * k;
    }
  }

  /** The window the last snapshot sees. */
  function Window(history: seq<Snapshot>, maxLevels: int, windowNs: nat): seq<Sample> {
    if history == [] then []
    else Recent(Samples(history, maxLevels), Cutoff(history[|history| - 1].ts, windowNs))
  }

  /** The imbalance after these snapshots, by definition. */
  function Imbalance(history: seq<Snapshot>, maxLevels: int, windowNs: nat): real {
    var w := Window(history, maxLevels, windowNs);
    Normalised(ContributionSum(w), DepthSum(w), |w|)
  }

  predicate InOrder(history: seq<Snapshot>) {
    forall i, j :: 0 <= i < j < |history| ==> history[i].ts <= history[j].ts
  }

  // --- Evicting ----------------------------------------------------------------------------------

  function Evict(samples: seq<Sample>, cutoff: nat): seq<Sample> {
    if samples == [] || samples[0].ts >= cutoff then samples else Evict(samples[1..], cutoff)
  }

  predicate SamplesInOrder(samples: seq<Sample>) {
    forall i, j :: 0 <= i < j < |samples| ==> samples[i].ts <= samples[j].ts
  }

  lemma {:induction false} AllRecent(samples: seq<Sample>, cutoff: nat)
    requires forall i :: 0 <= i < |samples| ==> samples[i].ts >= cutoff
    ensures Recent(samples, cutoff) == samples
  {
    if samples != [] {
      AllRecent(samples[1..], cutoff);
    }
  }

  /** Evicting from the front of what was recent leaves what is recent now. */
  lemma {:induction false} EvictIsRecent(samples: seq<Sample>, earlier: nat, cutoff: nat)
    requires SamplesInOrder(samples) && earlier <= cutoff
    ensures Evict(Recent(samples, earlier), cutoff) == Recent(samples, cutoff)
  {
    if samples != [] {
      EvictIsRecent(samples[1..], earlier, cutoff);
      if samples[0].ts >= cutoff {
        AllRecent(samples, cutoff);
        AllRecent(samples, earlier);
      } else if samples[0].ts >= earlier {
        assert Recent(samples, earlier)[1..] == Recent(samples[1..], earlier);
      }
    }
  }

  lemma {:induction false} RecentSnoc(samples: seq<Sample>, s: Sample, cutoff: nat)
    ensures Recent(samples + [s], cutoff) == Recent(samples, cutoff) + if s.ts >= cutoff then [s] else []
  {
    if samples == [] {
      assert samples + [s] == [s] && [s][1..] == [];
    } else {
      assert (samples + [s])[1..] == samples[1..] + [s];
      RecentSnoc(samples[1..], s, cutoff);
    }
  }

  lemma {:induction false} SumsSnoc(samples: seq<Sample>, s: Sample)
    ensures ContributionSum(samples + [s]) == ContributionSum(samples) + s.contribution
    ensures DepthSum(samples + [s]) == DepthSum(samples) + s.depth
  {
    if samples == [] {
      assert samples + [s] == [s] && [s][1..] == [];
    } else {
      assert (samples + [s])[1..] == samples[1..] + [s];
      SumsSnoc(samples[1..], s);
    }
  }

  lemma {:induction false} SamplesOrdered(history: seq<Snapshot>, maxLevels: int)
    requires InOrder(history)
    ensures SamplesInOrder(Samples(history, maxLevels))
    ensures forall i :: 0 <= i < |Samples(history, maxLevels)| ==>
              history != [] && Samples(history, maxLevels)[i].ts <= history[|history| - 1].ts
  {
    if |history| > 1 { SamplesOrdered(history[..|history| - 1], maxLevels); }
  }

  /** How the window moves with one more snapshot. */
  lemma {:induction false} WindowMoves(history: seq<Snapshot>, now: Snapshot, maxLevels: int, windowNs: nat)
    requires history != [] && InOrder(history + [now])
    ensures Window(history + [now], maxLevels, windowNs)
         == Evict(Window(history, maxLevels, windowNs), Cutoff(now.ts, windowNs))
            + [SampleOf(now, history[|history| - 1], maxLevels)]
  {
    var all, last := history + [now], history[|history| - 1];
    assert all[..|history|] == history && all[|history| - 1] == last && all[|history|] == now;
    assert InOrder(history) by {
      forall i, j | 0 <= i < j < |history| ensures history[i].ts <= history[j].ts {
        assert all[i].ts <= all[j].ts;
      }
    }
    SamplesOrdered(history, maxLevels);
    var samples := Samples(history, maxLevels);
    assert all[|history| - 1].ts <= all[|history|].ts;
    EvictIsRecent(samples, Cutoff(last.ts, windowNs), Cutoff(now.ts, windowNs));
    RecentSnoc(samples, SampleOf(now, last, maxLevels), Cutoff(now.ts, windowNs));
  }

  // --- The calculator --------------------------------------------------------------------------------

  class Calculator {
    const maxLevels: int
    const windowNs: nat
    var prevBids: seq<Level>
    var prevAsks: seq<Level>
    var window: seq<Sample>
    var runningContrib: real
    var runningDepth: real
    var lastValue: real
    var warm: bool
    /** Every snapshot since the last reset. */
    ghost var history: seq<Snapshot>

    ghost predicate Valid()
      reads this
    {
      && (warm <==> history != [])
      && (warm ==> prevBids == history[|history| - 1].bids && prevAsks == history[|history| - 1].asks)
      && (history == [] ==> window == [] && lastValue == 0.0)
      && runningContrib == ContributionSum(window) && runningDepth == DepthSum(window)
      && (InOrder(history) ==> window == Window(history, maxLevels, windowNs)
                               && lastValue == Imbalance(history, maxLevels, windowNs))
    }

    constructor (maxLevels: int, windowNs: nat)
      ensures Valid() && history == [] && this.maxLevels == maxLevels && this.windowNs == windowNs
    {
      this.maxLevels, this.windowNs := maxLevels, windowNs;
      prevBids, prevAsks, window := [], [], [];
      runningContrib, runningDepth, lastValue := 0.0, 0.0, 0.0;
      warm := false;
      history := [];
    }

    /** Takes a snapshot. As long as timestamps do not go back, the value is the
        one computed from all snapshots. */
    method Update(s: Snapshot) returns (value: real)
      requires Valid()
      modifies this
      ensures Valid() && history == old(history) + [s] && value == lastValue
      ensures InOrder(history) ==> value == Imbalance(history, maxLevels, windowNs)
    {
      hide Contribution, Depth, Samples, Normalised, ContributionSum, DepthSum, Evict, Window, Levels;
      if !warm {
        prevBids, prevAsks, warm := s.bids, s.asks, true;
        history := [s];
        FirstSnapshot(s, maxLevels, windowNs);
        return 0.0;
      }
      ghost var was, before := window, history[|history| - 1];
      if InOrder(history + [s]) { OrderBefore(history, s); WindowMoves(history, s, maxLevels, windowNs); }
      var sample := Measure(s);
      ghost var cutoff := Cutoff(s.ts, windowNs);
      EvictOld(Cutoff(s.ts, windowNs));
      SumsSnoc(window, sample);
      window := window + [sample];
      runningContrib := runningContrib + sample.contribution;
      runningDepth := runningDepth + sample.depth;
      prevBids, prevAsks := s.bids, s.asks;
      history := history + [s];
      lastValue := Normalised(runningContrib, runningDepth, |window|);
      return lastValue;
    }

    /** Sums the level events against the previous snapshot. */
    method Measure(s: Snapshot) returns (sample: Sample)
      requires Valid() && warm
      ensures sample == SampleOf(s, history[|history| - 1], maxLevels)
    {
      hide Weight, LevelEvent;
      ghost var prev := history[|history| - 1];
      var contribution, depth := 0.0, 0.0;
      for k := 0 to Levels(s, maxLevels)
        invariant contribution == Contribution(s, prev, k)
        invariant depth == Depth(s, k)
      {
        var bid, ask := At(s.bids, k), At(s.asks, k);
        var bidEvent := LevelEvent(bid, At(prevBids, k), true);
        var askEvent := LevelEvent(ask, At(prevAsks, k), false);
        contribution := contribution + Weight(k) * (bidEvent - askEvent);
        depth := depth + (bid.qty + ask.qty);
      }
      return Sample(s.ts, contribution, depth);
    }

    /** Drops the samples before `cutoff` from the front of the window. */
    method EvictOld(cutoff: nat)
      requires runningContrib == ContributionSum(window) && runningDepth == DepthSum(window)
      modifies this`window, this`runningContrib, this`runningDepth
      ensures window == Evict(old(window), cutoff)
      ensures runningContrib == ContributionSum(window) && runningDepth == DepthSum(window)
    {
      while |window| > 0 && window[0].ts < cutoff
        invariant Evict(window, cutoff) == Evict(old(window), cutoff)
        invariant runningContrib == ContributionSum(window) && runningDepth == DepthSum(window)
        decreases |window|
      {
        runningContrib := runningContrib - window[0].contribution;
        runningDepth := runningDepth - window[0].depth;
        window := window[1..];
      }
    }

    method Reset()
      modifies this
      ensures Valid() && history == []
    {
      prevBids, prevAsks, window := [], [], [];
      runningContrib, runningDepth, lastValue := 0.0, 0.0, 0.0;
      warm := false;
      history := [];
    }
  }

  lemma {:induction false} OrderBefore(history: seq<Snapshot>, s: Snapshot)
    requires InOrder(history + [s])
    ensures InOrder(history)
  {
    var all := history + [s];
    forall i, j | 0 <= i < j < |history| ensures history[i].ts <= history[j].ts { assert all[i].ts <= all[j].ts; }
  }

  lemma {:induction false} FirstSnapshot(s: Snapshot, maxLevels: int, windowNs: nat)
    ensures Window([s], maxLevels, windowNs) == [] && Imbalance([s], maxLevels, windowNs) == 0.0
  {
  }
}
