/** The realized-volatility estimator (bpt-features/src/realized_vol.cpp): a
    ring buffer with running sums against the window of sampled returns. The
    logarithm and the square root are parameters. */
module RealizedVol {
  import opened Reals

  const WORD: nat := 18446744073709551616

  /** Difference of two unsigned 64-bit times. */
  function Elapsed(now: nat, before: nat): nat
    requires now < WORD && before < WORD
  {
    if now >= before then now - before else now + WORD - before
  }

  /** The time from `before` to `now`, around the end of the word if need be. */
  lemma {:induction false} ElapsedIs(now: nat, before: nat)
    requires now < WORD && before < WORD
    ensures (before + Elapsed(now, before)) % WORD == now && Elapsed(now, before) < WORD
  {
    if now < before { assert before + Elapsed(now, before) == now + WORD; }
  }

  // --- What is sampled --------------------------------------------------------------------

  /** The last sampled price and time, and every return sampled so far. A price
      of 0 means that none has been seen. */
  datatype Feed = Feed(price: real, ts: nat, sampled: seq<real>)

  const NO_FEED := Feed(0.0, 0, [])

  function Observe(f: Feed, mid: real, ts: nat, interval: nat, ln: real -> real): Feed
    requires ts < WORD && f.ts < WORD
  {
    if mid <= 0.0 then f
    else if f.price <= 0.0 then Feed(mid, ts, f.sampled)
    else if Elapsed(ts, f.ts) < interval then f
    else Feed(mid, ts, f.sampled + [ln(mid / f.price)])
  }

  /** The last `n` values, or all of them if there are fewer. */
  function Last(s: seq<real>, n: nat): seq<real> {
    if |s| <= n then s else s[|s| - n..]
  }

  function Sum(s: seq<real>): real {
    if s == [] then 0.0 else s[0] + Sum(s[1..])
  }

  function Square(x: real): real {
    x * x
  }

  function SumSquares(s: seq<real>): real {
    if s == [] then 0.0 else Square(s[0]) + SumSquares(s[1..])
  }

  lemma {:induction false} SumsSnoc(s: seq<real>, x: real)
    ensures Sum(s + [x]) == Sum(s) + x
    ensures SumSquares(s + [x]) == SumSquares(s) + Square(x)
  {
    hide Square;
    if s == [] {
      assert s + [x] == [x] && [x][1..] == [];
    } else {
      assert (s + [x])[1..] == s[1..] + [x];
      SumsSnoc(s[1..], x);
    }
  }

  /** How the window moves when a return is sampled. */
  lemma {:induction false} WindowMoves(h: seq<real>, x: real, w: nat)
    requires w > 0
    ensures var before, after := Last(h, w), Last(h + [x], w);
            if |h| < w then after == before + [x]
            else before != [] && before[0] == h[|h| - w] && after == before[1..] + [x]
  {
  }

  // --- Variance ---------------------------------------------------------------------------------

  /** Sum of squared distances from `x`. */
  function Spread(s: seq<real>, x: real): real {
    if s == [] then 0.0 else Square(s[0] - x) + Spread(s[1..], x)
  }

  lemma {:induction false} SquareNonNegative(x: real)
    ensures Square(x) >= 0.0
  {
    if x >= 0.0 { MulNonNegative(x, x); } else { MulNonNegative(-x, -x); }
  }

  lemma {:induction false} SquareOfDifference(a: real, x: real)
    ensures Square(a - x) == Square(a) - 2.0 * Times(x, a) + Square(x)
  {
    assert (a - x) * (a - x) == a * a - 2.0 * (x * a) + x * x;
  }

  lemma {:induction false} TimesSum(x: real, a: real, b: real)
    ensures Times(x, a + b) == Times(x, a) + Times(x, b)
  {
  }

  lemma {:induction false} SpreadExpands(s: seq<real>, x: real)
    ensures Spread(s, x) >= 0.0
    ensures Spread(s, x) == SumSquares(s) - 2.0 * Times(x, Sum(s)) + Times(|s| as real, Square(x))
  {
    hide Square, Times;
    if s == [] {
      NoTimes(x, Square(x));
    } else {
      SpreadExpands(s[1..], x);
      SquareNonNegative(s[0] - x);
      SquareOfDifference(s[0], x);
      TimesSum(x, s[0], Sum(s[1..]));
      OneMore(|s[1..]|, Square(x));
    }
  }

  lemma {:induction false} NoTimes(x: real, y: real)
    ensures Times(x, 0.0) == 0.0 == Times(0.0, y)
  {
  }

  lemma {:induction false} OneMore(n: nat, y: real)
    ensures Times((n + 1) as real, y) == Times(n as real, y) + y
  {
    assert (n + 1) as real == n as real + 1.0;
  }

  /** The square of the sum of `n` values is at most `n` times the sum of their
      squares. */
  lemma {:induction false} CauchySchwarz(s: seq<real>)
    ensures Square(Sum(s)) <= Times(|s| as real, SumSquares(s))
  {
    if s == [] {
    } else {
      hide Square, Times;
      var rest, x := s[1..], s[0];
      var n := |rest|;
      CauchySchwarz(rest);
      SpreadExpands(rest, x);
      SquareOfSum(x, Sum(rest));
      OneMore(n, Square(x) + SumSquares(rest));
      TimesSum(n as real, Square(x), SumSquares(rest));
    }
  }

  lemma {:induction false} SquareOfSum(x: real, y: real)
    ensures Square(x + y) == Square(x) + 2.0 * Times(x, y) + Square(y)
  {
    assert (x + y) * (x + y) == x * x + 2.0 * (x * y) + y * y;
  }

  /** Variance from running sums. */
  function Variance(sum: real, squares: real, n: real): real
    requires n > 0.0
  {
    squares / n - Square(sum / n)
  }

  /** In exact arithmetic the variance is never negative, so clamping it at 0
      changes nothing. */
  lemma {:induction false} VarianceNonNegative(s: seq<real>)
    requires s != []
    ensures Variance(Sum(s), SumSquares(s), |s| as real) >= 0.0
  {
    var n, a, b := |s| as real, Sum(s), SumSquares(s);
    CauchySchwarz(s);
    var v := Variance(a, b, n);
    MulNonNegative(n, n);
    VarianceScaled(a, b, n);
    if v < 0.0 { MulPositive(-v, n * n) by { MulPositive(n, n); } }
  }

  lemma {:induction false} VarianceScaled(sum: real, squares: real, n: real)
    requires n > 0.0
    ensures Variance(sum, squares, n) * (n * n) == Times(n, squares) - Square(sum)
  {
    var m, q := sum / n, squares / n;
    assert m * n == sum && q * n == squares;
    assert (q - m * m) * (n * n) == (q * n) * n - (m * n) * (m * n);
  }

  /** It is the mean squared distance from the mean. */
  lemma {:induction false} VarianceIs(s: seq<real>)
    requires s != []
    ensures var n := |s| as real;
            Variance(Sum(s), SumSquares(s), n) * n == Spread(s, Sum(s) / n)
  {
    hide Square, Times, Sum, SumSquares, Spread;
    var n, a, b := |s| as real, Sum(s), SumSquares(s);
    var m := a / n;
    MeanTimes(a, n);
    SpreadExpands(s, m);
    assert m * n == a;
    SquareTimes(m, n);
    assert Times(m, a) == Square(m) * n;
    MeanLess(b, n, Square(m));
    assert Variance(a, b, n) == b / n - Square(m);
  }

  lemma {:induction false} MeanTimes(a: real, n: real)
    requires n != 0.0
    ensures (a / n) * n == a
  {
  }

  lemma {:induction false} MeanLess(b: real, n: real, x: real)
    requires n != 0.0
    ensures (b / n - x) * n == b - x * n
  {
    MeanTimes(b, n);
    assert (b / n - x) * n == (b / n) * n - x * n;
  }

  lemma {:induction false} SquareTimes(m: real, n: real)
    ensures Times(m, m * n) == Times(n, Square(m)) == Square(m) * n
  {
  }

  // --- What is sampled, told from the prices ----------------------------------------------------

  /** A mid price and the time at which it came. */
  datatype Tick = Tick(mid: real, ts: nat)

  /** The ticks that are taken: the first with a price, and then each with a price
      that comes at least an interval after the last one taken. */
  function Taken(ticks: seq<Tick>, interval: nat): (taken: seq<Tick>)
    requires forall i :: 0 <= i < |ticks| ==> ticks[i].ts < WORD
    ensures forall i :: 0 <= i < |taken| ==> taken[i].ts < WORD && taken[i].mid > 0.0
  {
    if ticks == [] then []
    else
      var n := |ticks| - 1;
      var before, t := Taken(ticks[..n], interval), ticks[n];
      if t.mid > 0.0 && (before == [] || Elapsed(t.ts, before[|before| - 1].ts) >= interval) then before + [t]
      else before
  }

  /** What an estimator has seen after these ticks. */
  function Observed(ticks: seq<Tick>, interval: nat, ln: real -> real): (f: Feed)
    requires forall i :: 0 <= i < |ticks| ==> ticks[i].ts < WORD
    ensures f.ts < WORD
  {
    if ticks == [] then NO_FEED
    else
      var n := |ticks| - 1;
      Observe(Observed(ticks[..n], interval, ln), ticks[n].mid, ticks[n].ts, interval, ln)
  }

  /** Over any ticks, what is sampled is the logarithm of the ratio of each price
      taken to the one taken before. */
  lemma {:induction false} ReturnsOfTicks(ticks: seq<Tick>, interval: nat, ln: real -> real)
    requires forall i :: 0 <= i < |ticks| ==> ticks[i].ts < WORD
    ensures var f, taken := Observed(ticks, interval, ln), Taken(ticks, interval);
            && (forall i :: 0 <= i < |taken| ==> taken[i].mid > 0.0)
            && (if taken == [] then f == NO_FEED
                else f.price == taken[|taken| - 1].mid && f.ts == taken[|taken| - 1].ts
                     && |f.sampled| == |taken| - 1
                     && forall i :: 0 <= i < |f.sampled| ==> f.sampled[i] == ln(taken[i + 1].mid / taken[i].mid))
  {
    if ticks != [] {
      var n := |ticks| - 1;
      ReturnsOfTicks(ticks[..n], interval, ln);
    }
  }

  // --- The estimator --------------------------------------------------------------------------------

  lemma {:induction false} MultipleGrows(w: nat, d: int)
    ensures d >= 1 ==> w * d >= w
    ensures d <= -1 ==> w * d + w <= 0
    ensures d == 0 ==> w * d == 0
  {
  }

  lemma {:induction false} ModUnique(n: nat, w: nat, q: int, r: nat)
    requires r < w && n == w * q + r
    ensures n % w == r
  {
    MultipleGrows(w, q - n / w);
    assert n % w - r == w * (q - n / w) by { assert w * (q - n / w) == w * q - w * (n / w); }
  }

  lemma {:induction false} SlotsDiffer(m: nat, k: nat, w: nat)
    requires m < k < m + w
    ensures m % w != k % w
  {
    MultipleGrows(w, k / w - m / w);
    assert k - m == w * (k / w - m / w) + (k % w - m % w) by {
      assert w * (k / w - m / w) == w * (k / w) - w * (m / w);
    }
  }

  lemma {:induction false} NextSlot(k: nat, w: nat)
    requires w > 0
    ensures (k % w + 1) % w == (k + 1) % w
    ensures k >= w ==> (k - w) % w == k % w
  {
    var q, r := k / w, k % w;
    assert k == w * q + r;
    if r + 1 < w {
      ModUnique(k + 1, w, q, r + 1);
      ModUnique(r + 1, w, 0, r + 1);
    } else {
      assert k + 1 == w * (q + 1) + 0;
      ModUnique(k + 1, w, q + 1, 0);
      ModUnique(w, w, 1, 0);
    }
    if k >= w {
      assert k - w == w * (q - 1) + r;
      ModUnique(k - w, w, q - 1, r);
    }
  }

  class Estimator {
    const window: nat
    const interval: nat
    const ln: real -> real
    const sqrt: real -> real
    const annualization: real
    const ring: array<real>
    var head: nat
    var count: nat
    var sum: real
    var sumSq: real
    var lastPrice: real
    var lastTs: nat
    /** Every return sampled since the last reset. */
    ghost var history: seq<real>

    ghost function State(): Feed
      reads this
    {
      Feed(lastPrice, lastTs, history)
    }

    /** The buffer holds the window in ring order, and the sums are its sums. */
    ghost predicate Valid()
      reads this, ring
    {
      && window > 0 && ring.Length == window && lastTs < WORD
      && count == |Last(history, window)|
      && head == |history| % window
      && (forall m :: |history| - count <= m < |history| ==> ring[m % window] == history[m])
      && sum == Sum(Last(history, window))
      && sumSq == SumSquares(Last(history, window))
    }

    constructor (window: nat, interval: nat, ln: real -> real, sqrt: real -> real, annualization: real)
      requires window > 0
      ensures Valid() && State() == NO_FEED && fresh(ring)
      ensures this.window == window && this.interval == interval && this.ln == ln && this.sqrt == sqrt
      ensures this.annualization == annualization
    {
      this.window, this.interval, this.ln, this.sqrt := window, interval, ln, sqrt;
      this.annualization := annualization;
      ring := new real[window](_ => 0.0);
      head, count, sum, sumSq, lastPrice, lastTs := 0, 0, 0.0, 0.0, 0.0, 0;
      history := [];
    }

    predicate Ready()
      reads this
    {
      count >= window / 2
    }

    /** Takes a mid price: ignored, recorded or sampled. */
    method Update(mid: real, ts: nat) returns (ready: bool)
      requires Valid() && ts < WORD
      modifies this, ring
      ensures Valid() && State() == Observe(old(State()), mid, ts, interval, ln)
      ensures ready <==> |Last(history, window)| >= window / 2 && (mid <= 0.0 || old(lastPrice) > 0.0)
    {
      if mid <= 0.0 { return Ready(); }
      if lastPrice <= 0.0 {
        lastPrice := mid;
        lastTs := ts;
        return false;
      }
      if Elapsed(ts, lastTs) < interval { return Ready(); }
      var logReturn := ln(mid / lastPrice);
      lastPrice := mid;
      lastTs := ts;
      Push(logReturn);
      return Ready();
    }

    /** Puts a return into the ring, over the oldest one if the ring is full. */
    method Push(x: real)
      requires Valid()
      modifies this`head, this`count, this`sum, this`sumSq, this`history, ring
      ensures Valid() && history == old(history) + [x]
    {
      hide Square, Sum, SumSquares;
      ghost var k, was := |history|, Last(history, window);
      WindowMoves(history, x, window);
      NextSlot(k, window);
      if count == window {
        var oldest := ring[head];
        assert oldest == history[k - window] == was[0];
        sum := sum - oldest;
        sumSq := sumSq - Square(oldest);
        SumsOfRest(was);
        SumsSnoc(was[1..], x);
      } else {
        count := count + 1;
        SumsSnoc(was, x);
      }
      forall m | k - window < m < k && m >= 0 ensures m % window != head { SlotsDiffer(m, k, window); }
      ring[head] := x;
      sum := sum + x;
      sumSq := sumSq + Square(x);
      head := (head + 1) % window;
      history := history + [x];
    }

    /** Annualized volatility of the window; the clamp never acts. */
    method Volatility() returns (vol: real)
      requires Valid()
      ensures var s := Last(history, window);
              if |s| < 2 then vol == 0.0
              else vol == sqrt(Variance(Sum(s), SumSquares(s), |s| as real)) * annualization
    {
      if count < 2 { return 0.0; }
      var n := count as real;
      var mean := sum / n;
      var variance := sumSq / n - Square(mean);
      VarianceNonNegative(Last(history, window));
      return sqrt(if variance < 0.0 then 0.0 else variance) * annualization;
    }

    method Reset()
      requires Valid()
      modifies this, ring
      ensures Valid() && State() == NO_FEED
    {
      head, count, sum, sumSq, lastPrice, lastTs := 0, 0, 0.0, 0.0, 0.0, 0;
      history := [];
      forall i | 0 <= i < ring.Length { ring[i] := 0.0; }
    }
  }

  lemma {:induction false} SumsOfRest(s: seq<real>)
    requires s != []
    ensures Sum(s[1..]) == Sum(s) - s[0] && SumSquares(s[1..]) == SumSquares(s) - Square(s[0])
  {
  }
}
