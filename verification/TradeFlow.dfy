/** The decayed signed trade flow (bpt-research/ic/features.py): one running
    state per trade and a look-up of the last trade, against the direct sum over
    all trades so far. The exponential is a parameter. */
module TradeFlow {

  /** `side` is 0 for a buyer's print, 1 for a seller's, 255 for unknown. */
  datatype Print = Print(ts: int, qty: real, side: nat)

  /** A print with a known aggressor; positive when the buyer was. */
  datatype Flow = Flow(ts: int, signed: real)

  /** What the decay has to satisfy: a factor per elapsed time. */
  ghost predicate Decay(e: nat -> real) {
    e(0) == 1.0 && forall a: nat, b: nat :: e(a + b) == Product(e(a), e(b))
  }

  function Product(x: real, y: real): real {
    x * y
  }

  function FlowOf(p: Print): Flow {
    Flow(p.ts, if p.side == 0 then p.qty else -p.qty)
  }

  /** What is left of a flow at time `t`. */
  function Left(x: Flow, t: int, e: nat -> real): real {
    if x.ts <= t then Product(x.signed, e(t - x.ts)) else 0.0
  }

  /** Drops the prints of unknown side and signs the rest. */
  function Flows(prints: seq<Print>): seq<Flow> {
    if prints == [] then []
    else
      var n := |prints| - 1;
      if prints[n].side < 2 then Flows(prints[..n]) + [FlowOf(prints[n])] else Flows(prints[..n])
  }

  predicate InOrder(flows: seq<Flow>) {
    forall i, j :: 0 <= i < j < |flows| ==> flows[i].ts <= flows[j].ts
  }

  /** The feature by definition: every flow up to `t`, decayed since it came. */
  function FlowAt(prints: seq<Print>, t: int, e: nat -> real): real {
    if prints == [] then 0.0
    else
      var n := |prints| - 1;
      var p := prints[n];
      FlowAt(prints[..n], t, e)
      + if p.ts > t || p.side > 1 then 0.0
        else Product(if p.side == 0 then p.qty else -p.qty, e(t - p.ts))
  }

  // --- The running state ----------------------------------------------------------------

  /** The first `n` flows decayed to time `t`, none of them later. */
  function DecayedTo(flows: seq<Flow>, n: nat, t: int, e: nat -> real): real
    requires n <= |flows| && forall i :: 0 <= i < n ==> flows[i].ts <= t
  {
    if n == 0 then 0.0 else DecayedTo(flows, n - 1, t, e) + Product(flows[n - 1].signed, e(t - flows[n - 1].ts))
  }

  /** Decaying a sum further decays every part of it. */
  lemma {:induction false} DecayFurther(flows: seq<Flow>, n: nat, t: int, later: int, e: nat -> real)
    requires n <= |flows| && (forall i :: 0 <= i < n ==> flows[i].ts <= t) && t <= later && Decay(e)
    ensures Product(DecayedTo(flows, n, t, e), e(later - t)) == DecayedTo(flows, n, later, e)
  {
    hide Product, Decay;
    var f := e(later - t);
    if n == 0 {
      Distribute(0.0, 0.0, f);
    } else {
      var x := flows[n - 1];
      DecayFurther(flows, n - 1, t, later, e);
      Distribute(DecayedTo(flows, n - 1, t, e), Product(x.signed, e(t - x.ts)), f);
      DecayOne(x.signed, t - x.ts, later - t, e);
    }
  }

  lemma {:induction false} DecayOne(x: real, a: nat, b: nat, e: nat -> real)
    requires Decay(e)
    ensures Product(Product(x, e(a)), e(b)) == Product(x, e(a + b))
  {
    hide Product;
    Reassociate(x, e(a), e(b));
    assert e(a + b) == Product(e(a), e(b));
  }

  lemma {:induction false} Distribute(a: real, b: real, c: real)
    ensures Product(a + b, c) == Product(a, c) + Product(b, c)
    ensures Product(0.0, c) == 0.0
  {
  }

  lemma {:induction false} Reassociate(a: real, b: real, c: real)
    ensures Product(Product(a, b), c) == Product(a, Product(b, c))
  {
  }

  /** numpy's searchsorted from the right: how many flows are at or before `t`. */
  function UpTo(flows: seq<Flow>, t: int): (n: nat)
    requires InOrder(flows)
    ensures n <= |flows|
    ensures forall i :: 0 <= i < n ==> flows[i].ts <= t
    ensures forall i :: n <= i < |flows| ==> flows[i].ts > t
  {
    if flows == [] then 0
    else
      var k := |flows| - 1;
      assert InOrder(flows[..k]);
      if flows[k].ts <= t then k + 1 else UpTo(flows[..k], t)
  }

  lemma {:induction false} UpToSnoc(rest: seq<Flow>, x: Flow, t: int)
    requires InOrder(rest + [x])
    ensures InOrder(rest)
    ensures x.ts <= t ==> UpTo(rest + [x], t) == |rest| + 1 && UpTo(rest, t) == |rest|
    ensures x.ts > t ==> UpTo(rest + [x], t) == UpTo(rest, t)
  {
    var flows := rest + [x];
    assert flows[..|rest|] == rest;
    forall i, j | 0 <= i < j < |rest| ensures rest[i].ts <= rest[j].ts { assert flows[i].ts <= flows[j].ts; }
    forall i | 0 <= i < |rest| ensures rest[i].ts <= x.ts { assert flows[i].ts <= flows[|rest|].ts; }
  }

  /** The flows up to `t`, decayed to `t`, are the feature. */
  lemma {:induction false} DecayedIsFlow(prints: seq<Print>, t: int, e: nat -> real)
    requires InOrder(Flows(prints))
    ensures var flows := Flows(prints);
            DecayedTo(flows, UpTo(flows, t), t, e) == FlowAt(prints, t, e)
  {
    hide Product, UpTo, InOrder, DecayedTo;
    if prints == [] {
      NothingDecayed([], t, e);
    } else {
      var n := |prints| - 1;
      if prints[n].side < 2 {
        CountOne(Flows(prints[..n]), FlowOf(prints[n]), t, e);
      }
      DecayedIsFlow(prints[..n], t, e);
    }
  }

  lemma {:induction false} CountOne(rest: seq<Flow>, x: Flow, t: int, e: nat -> real)
    requires InOrder(rest + [x])
    ensures InOrder(rest)
    ensures DecayedTo(rest + [x], UpTo(rest + [x], t), t, e) == DecayedTo(rest, UpTo(rest, t), t, e) + Left(x, t, e)
  {
    hide Product, UpTo, InOrder;
    UpToSnoc(rest, x, t);
    DecayedPrefix(rest + [x], rest, UpTo(rest, t), t, e);
  }

  lemma {:induction false} DecayedPrefix(flows: seq<Flow>, rest: seq<Flow>, n: nat, t: int, e: nat -> real)
    requires n <= |rest| && rest <= flows && forall i :: 0 <= i < n ==> flows[i].ts <= t
    ensures DecayedTo(flows, n, t, e) == DecayedTo(rest, n, t, e)
  {
    hide Product;
    if n > 0 { DecayedPrefix(flows, rest, n - 1, t, e); }
  }

  lemma {:induction false} DecayNow(flows: seq<Flow>, n: nat, e: nat -> real)
    requires n < |flows| && InOrder(flows) && Decay(e)
    ensures DecayedTo(flows, n + 1, flows[n].ts, e) == DecayedTo(flows, n, flows[n].ts, e) + flows[n].signed
  {
  }

  /** Samples the feature at the given times. */
  method TradeFlowEwma(times: seq<int>, prints: seq<Print>, e: nat -> real) returns (out: array<real>)
    requires InOrder(Flows(prints)) && Decay(e)
    ensures fresh(out) && out.Length == |times|
    ensures forall k :: 0 <= k < |times| ==> out[k] == FlowAt(prints, times[k], e)
  {
    hide Product, Decay, DecayedTo, FlowAt, Flows, UpTo;
    var flows := Flows(prints);
    var states := States(flows, e);
    out := new real[|times|](_ => 0.0);
    for k := 0 to |times|
      invariant fresh(out) && out.Length == |times|
      invariant forall j :: 0 <= j < k ==> out[j] == FlowAt(prints, times[j], e)
      invariant forall j :: k <= j < |times| ==> out[j] == 0.0
    {
      var n := UpTo(flows, times[k]);
      DecayedIsFlow(prints, times[k], e);
      if n > 0 {
        DecayFurther(flows, n, flows[n - 1].ts, times[k], e);
        out[k] := Product(states[n - 1], e(times[k] - flows[n - 1].ts));
      } else {
        NothingDecayed(flows, times[k], e);
      }
    }
  }

  lemma {:induction false} NothingDecayed(flows: seq<Flow>, t: int, e: nat -> real)
    ensures DecayedTo(flows, 0, t, e) == 0.0
  {
  }

  /** The decayed sum right after each flow. */
  method States(flows: seq<Flow>, e: nat -> real) returns (states: seq<real>)
    requires InOrder(flows) && Decay(e)
    ensures |states| == |flows|
    ensures forall i :: 0 <= i < |flows| ==> states[i] == DecayedTo(flows, i + 1, flows[i].ts, e)
  {
    hide Product, Decay, DecayedTo;
    states := [];
    var state := 0.0;
    var last := if |flows| > 0 then flows[0].ts else 0;
    for i := 0 to |flows|
      invariant |states| == i
      invariant i == 0 ==> state == 0.0 && (|flows| > 0 ==> last == flows[0].ts)
      invariant i > 0 ==> last == flows[i - 1].ts && state == DecayedTo(flows, i, last, e)
      invariant forall j :: 0 <= j < i ==> states[j] == DecayedTo(flows, j + 1, flows[j].ts, e)
    {
      if i > 0 {
        DecayFurther(flows, i, last, flows[i].ts, e);
        state := Product(state, e(flows[i].ts - last));
        last := flows[i].ts;
      } else {
        NothingDecayed(flows, last, e);
      }
      DecayNow(flows, i, e);
      state := state + flows[i].signed;
      states := states + [state];
    }
  }
}
