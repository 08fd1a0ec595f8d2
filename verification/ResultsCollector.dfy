/** The results collector as a class (results_collector.cpp), each method proved
    against ResultsModel.dfy. */
module ResultsCollector {
  import opened Orders
  import opened AverageCost
  import opened MapSums
  import opened ResultsModel

  /** Cumulative profit after the first `k` rows. */
  function Cumulative(rows: seq<Row>, k: nat): real
    requires k <= |rows|
  {
    if k == 0 then 0.0 else Cumulative(rows, k - 1) + rows[k - 1].realized
  }

  /** The fall from one point of the profit curve to a later one. */
  function Drop(rows: seq<Row>, i: nat, j: nat): real
    requires i <= j <= |rows|
  {
    Cumulative(rows, i) - Cumulative(rows, j)
  }

  lemma {:induction false} DropOver(a: real, b: real, c: real)
    requires c > 0.0
    ensures a / c <= b / c <==> a <= b
    ensures a / c >= 0.0 <==> a >= 0.0
  {
    assert a / c * c == a && b / c * c == b;
  }

  lemma {:induction false} RealizedOfRest(rest: map<string, Position>, k: string)
    requires k in rest
    ensures Sum(Realized(rest)) == rest[k].realized + Sum(Realized(rest - {k}))
  {
    SumRemove(Realized(rest), k);
    assert Realized(rest) - {k} == Realized(rest - {k});
  }

  lemma {:induction false} UnrealizedOfRest(rest: map<string, Position>, mids: map<string, real>, k: string)
    requires k in rest
    ensures Sum(Unrealized(rest, mids)) == Paper(rest[k], mids, k) + Sum(Unrealized(rest - {k}, mids))
  {
    hide Paper;
    SumRemove(Unrealized(rest, mids), k);
    assert Unrealized(rest, mids) - {k} == Unrealized(rest - {k}, mids);
  }

  lemma {:induction false} NothingSums(rest: map<string, Position>, mids: map<string, real>)
    requires rest == map[]
    ensures Sum(Realized(rest)) == 0.0 && Sum(Unrealized(rest, mids)) == 0.0
  {
    assert Realized(rest) == map[] && Unrealized(rest, mids) == map[];
  }

  lemma {:induction false} NotDueSnoc(pending: seq<Pending>, i: nat, ts: nat)
    requires i < |pending|
    ensures NotDue(pending[..i + 1], ts)
         == NotDue(pending[..i], ts) + if ts < pending[i].target then [pending[i]] else []
    ensures |NotDue(pending[..i], ts)| <= i
  {
    assert pending[..i + 1][..i] == pending[..i];
    NotDueShorter(pending[..i], ts);
  }

  lemma {:induction false} NotDueShorter(pending: seq<Pending>, ts: nat)
    ensures |NotDue(pending, ts)| <= |pending|
  {
    if pending != [] { NotDueShorter(pending[..|pending| - 1], ts); }
  }

  lemma {:induction false} ResolveSnoc(rows: seq<Row>, pending: seq<Pending>, mids: map<string, real>, ts: nat, i: nat)
    requires i < |pending|
    ensures ResolveDue(rows, pending[..i + 1], mids, ts)
         == var r := ResolveDue(rows, pending[..i], mids, ts);
            if ts < pending[i].target then r else Resolve(r, pending[i], mids)
  {
    hide Resolve;
    assert pending[..i + 1][..i] == pending[..i];
  }

  lemma {:induction false} NothingDue(rows: seq<Row>, mids: map<string, real>, ts: nat)
    ensures NotDue([], ts) == [] && ResolveDue(rows, [], mids, ts) == rows
  {
  }

  /** Moving an entry to the front leaves the entries after it alone. */
  lemma {:induction false} Compacted(pending: seq<Pending>, all: seq<Pending>, write: nat, i: nat)
    requires write <= i < |pending| == |all| && pending[i..] == all[i..]
    ensures pending[i] == all[i]
    ensures var moved := pending[write := pending[i]];
            && moved[..write + 1] == pending[..write] + [all[i]]
            && moved[i + 1..] == all[i + 1..] == pending[i + 1..]
            && (write == i ==> moved == pending)
  {
    assert pending[i] == pending[i..][0] == all[i..][0] == all[i];
    assert pending[i + 1..] == pending[i..][1..] && all[i + 1..] == all[i..][1..];
  }

  class Collector {
    const capital: real
    const fees: map<string, Rates>
    var positions: map<string, Position>
    var mids: map<string, real>
    var openRealized: map<string, real>
    var totalFeesPaid: real
    var rows: seq<Row>
    var equityCurve: seq<(nat, real)>
    var roundTrips: seq<Trip>
    var pendingMarkouts: seq<Pending>

    ghost function State(): Books
      reads this
    {
      Books(capital, fees, positions, mids, openRealized, totalFeesPaid, rows, equityCurve, roundTrips,
            pendingMarkouts)
    }

    constructor (capital: real, fees: map<string, Rates>)
      ensures State() == EmptyBooks(capital, fees)
    {
      this.capital, this.fees := capital, fees;
      positions, mids, openRealized := map[], map[], map[];
      totalFeesPaid := 0.0;
      rows, equityCurve, roundTrips, pendingMarkouts := [], [(0, capital)], [], [];
    }

    /** Books one fill in a position; returns the profit of the closed part. */
    static method BookFill(pos: Position, d: Deal) returns (p: Position, realized: real)
      requires d.qty > 0.0
      ensures (p, realized) == ApplyFill(pos, d)
    {
      hide Gain, Blend;
      p, realized := pos, 0.0;
      if d.side == Buy {
        if p.net >= 0.0 {
          var qty := p.net + d.qty;
          p := p.(avg := Blend(p.avg, p.net, d.price, d.qty, qty), net := qty);
        } else {
          var close := Min(d.qty, -p.net);
          realized := Gain(p.avg, d.price, close);
          p := p.(net := p.net + close);
          var left := d.qty - close;
          if left > EPS {
            p := p.(avg := d.price, net := left);
          }
        }
      } else {
        if p.net <= 0.0 {
          var short := -p.net + d.qty;
          p := p.(avg := Blend(p.avg, -p.net, d.price, d.qty, short), net := -short);
        } else {
          var close := Min(d.qty, p.net);
          realized := Gain(d.price, p.avg, close);
          p := p.(net := p.net - close);
          var left := d.qty - close;
          if left > EPS {
            p := p.(avg := d.price, net := -left);
          }
        }
      }
      p := p.(realized := p.realized + realized);
    }

    method TotalRealized() returns (sum: real)
      ensures sum == Sum(Realized(positions))
    {
      hide Sum;
      sum := 0.0;
      var rest := positions;
      while rest != map[]
        invariant sum + Sum(Realized(rest)) == Sum(Realized(positions))
        decreases |rest|
      {
        var k :| k in rest;
        RealizedOfRest(rest, k);
        sum := sum + rest[k].realized;
        rest := rest - {k};
      }
      NothingSums(rest, mids);
    }

    method TotalUnrealized() returns (sum: real)
      ensures sum == Sum(Unrealized(positions, mids))
    {
      hide Sum, Unrealized;
      sum := 0.0;
      var rest := positions;
      while rest != map[]
        invariant sum + Sum(Unrealized(rest, mids)) == Sum(Unrealized(positions, mids))
        decreases |rest|
      {
        var k :| k in rest;
        UnrealizedOfRest(rest, mids, k);
        var pos := rest[k];
        rest := rest - {k};
        if Abs(pos.net) >= EPS && k in mids {
          sum := sum + pos.net * (mids[k] - pos.avg);
        }
      }
      NothingSums(rest, mids);
    }

    method CurrentEquity() returns (equity: real)
      ensures equity == Equity(State())
    {
      var realized := TotalRealized();
      var unrealized := TotalUnrealized();
      equity := capital + realized + unrealized - totalFeesPaid;
    }

    /** Books a fill, follows its round trip, and charges its fee. */
    method Book(f: Fill) returns (realized: real)
      requires f.qty > 0.0
      modifies this`positions, this`openRealized, this`totalFeesPaid, this`roundTrips
      ensures (State(), realized) == BookDeal(old(State()), f)
    {
      hide ApplyFill, FeeOf;
      var key := KeyOfFill(f);
      var pos := if key in positions then positions[key] else FLAT;
      var pre := pos.net;
      pos, realized := BookFill(pos, DealOf(f));
      totalFeesPaid := totalFeesPaid + FeeOf(fees, f);
      var open := (if key in openRealized then openRealized[key] else 0.0) + realized;
      var wasFlat, isFlat := IsFlat(pre), IsFlat(pos.net);
      if wasFlat && !isFlat {
        pos := pos.(openTs := f.ts);
        open := 0.0;
      } else if !wasFlat && isFlat {
        roundTrips := roundTrips + [Trip(pos.openTs, f.ts, open)];
        pos := pos.(openTs := 0);
        open := 0.0;
      }
      positions := positions[key := pos];
      openRealized := openRealized[key := open];
    }

    method HandleFill(f: Fill)
      requires f.qty > 0.0
      modifies this
      ensures State() == OnFill(old(State()), f)
    {
      hide BookDeal, Equity, FeeOf;
      var realized := Book(f);
      ghost var booked := State();
      var equity := CurrentEquity();
      equityCurve := equityCurve + [(f.ts, equity)];
      var row := |rows|;
      rows := rows + [Row(f, realized, FeeOf(fees, f), equity, UNMARKED)];
      ghost var recorded := State();
      for h := 0 to |HORIZONS|
        invariant pendingMarkouts == recorded.pending + Markouts(row, f.ts)[..h]
        invariant State() == recorded.(pending := pendingMarkouts)
      {
        pendingMarkouts := pendingMarkouts + [Pending(row, h, f.ts + HORIZONS[h])];
      }
    }

    /** Updates the mid and takes the markouts that are due. The entries that
        are not due are moved to the front and the rest is cut off. */
    method HandleTouch(t: Touch)
      modifies this
      ensures State() == OnTouch(old(State()), t)
    {
      hide Resolve, Bps, ResolveDue, NotDue;
      var key := Key(t.exchange, t.symbol);
      if t.bid > 0.0 && t.ask > 0.0 {
        mids := mids[key := (t.bid + t.ask) * 0.5];
      }
      ghost var before := State();
      ghost var all := pendingMarkouts;
      var write := 0;
      assert all[..0] == [];
      NothingDue(rows, mids, t.ts);
      for i := 0 to |pendingMarkouts|
        invariant |pendingMarkouts| == |all|
        invariant write == |NotDue(all[..i], t.ts)| <= i
        invariant pendingMarkouts[..write] == NotDue(all[..i], t.ts)
        invariant pendingMarkouts[i..] == all[i..]
        invariant rows == ResolveDue(before.rows, all[..i], mids, t.ts)
        invariant State() == before.(rows := rows, pending := pendingMarkouts)
      {
        NotDueSnoc(all, i, t.ts);
        ResolveSnoc(before.rows, all, mids, t.ts, i);
        Compacted(pendingMarkouts, all, write, i);
        var p := pendingMarkouts[i];
        if t.ts < p.target {
          if write != i { pendingMarkouts := pendingMarkouts[write := p]; }
          write := write + 1;
        } else {
          ResolveEntry(p);
        }
      }
      assert all[..|all|] == all;
      pendingMarkouts := pendingMarkouts[..write];
    }

    /** Takes one markout, unless its instrument has no mid. */
    method ResolveEntry(p: Pending)
      modifies this`rows
      ensures rows == Resolve(old(rows), p, mids)
    {
      if p.row < |rows| && p.horizon < |HORIZONS| {
        var row := rows[p.row];
        var key := KeyOfFill(row.fill);
        if key !in mids || row.fill.price <= 0.0 { return; }
        var bps := (mids[key] - row.fill.price) / row.fill.price * 10000.0;
        if row.fill.side == Sell { bps := -bps; }
        rows := rows[p.row := row.(markouts := row.markouts[p.horizon := bps])];
      }
    }

    /** The largest fall of the cumulative profit from an earlier high, as a
        share of the starting capital. */
    method MaxDrawdown() returns (dd: real)
      requires capital != 0.0
      ensures capital > 0.0 ==>
                && (forall i, j :: 0 <= i <= j <= |rows| ==> Drop(rows, i, j) / capital <= dd)
                && exists i, j :: 0 <= i <= j <= |rows| && dd == Drop(rows, i, j) / capital
      ensures capital < 0.0 ==> dd == 0.0
    {
      hide Cumulative;
      dd := 0.0;
      var cum, peak := 0.0, 0.0;
      ghost var top, from, to := 0, 0, 0;
      CumulativeStart(rows);
      for k := 0 to |rows|
        invariant cum == Cumulative(rows, k)
        invariant 0 <= top <= k && peak == Cumulative(rows, top)
        invariant forall i :: 0 <= i <= k ==> Cumulative(rows, i) <= peak
        invariant 0 <= from <= to <= k
        invariant capital > 0.0 ==> dd == Drop(rows, from, to) / capital
        invariant capital > 0.0 ==> forall i, j :: 0 <= i <= j <= k ==> Drop(rows, i, j) / capital <= dd
        invariant capital < 0.0 ==> dd == 0.0
      {
        CumulativeStep(rows, k);
        cum := cum + rows[k].realized;
        if cum > peak {
          peak := cum;
          top := k + 1;
        }
        var fall := (peak - cum) / capital;
        ghost var prior := dd;
        if fall > dd {
          dd := fall;
          from, to := top, k + 1;
        }
        forall i, j | 0 <= i <= j <= k + 1 && capital > 0.0 ensures Drop(rows, i, j) / capital <= dd {
          if j == k + 1 { DropOver(Drop(rows, i, j), peak - cum, capital); }
        }
        NegativeShare(peak - cum, capital);
      }
    }
  }

  lemma {:induction false} CumulativeStart(rows: seq<Row>)
    ensures Cumulative(rows, 0) == 0.0
  {
  }

  lemma {:induction false} CumulativeStep(rows: seq<Row>, k: nat)
    requires k < |rows|
    ensures Cumulative(rows, k + 1) == Cumulative(rows, k) + rows[k].realized
  {
  }

  lemma {:induction false} NegativeShare(a: real, c: real)
    requires a >= 0.0 && c != 0.0
    ensures c < 0.0 ==> a / c <= 0.0
  {
    assert a / c * c == a;
  }
}
