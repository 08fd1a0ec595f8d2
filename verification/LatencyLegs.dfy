/** One leg of the latency scheduler: items wait until their due time and are
    then served in due order, ties in the order they were pushed
    (pending_submits_ and pending_fills_ in matching_engine.cpp).

    A leg also remembers what went through it. `ticket`, `pushed`, `served`,
    `dropped` and `horizon` are this history; serving never looks at them. */
module LatencyLegs {
  datatype Timed<T> = Timed(item: T, due: nat, ticket: nat)

  /** `entry` was handed over at time `at`. */
  datatype Service<T> = Service(entry: Timed<T>, at: nat)

  datatype Leg<T> = Leg(
    waiting: seq<Timed<T>>,
    pushed: seq<Timed<T>>,
    served: seq<Service<T>>,
    dropped: seq<Timed<T>>,
    horizon: nat)

  function EmptyLeg<T>(): Leg<T> {
    Leg([], [], [], [], 0)
  }

  // --- Operations ----------------------------------------------------------------

  function Push<T>(leg: Leg<T>, item: T, due: nat): Leg<T> {
    var e := Timed(item, due, |leg.pushed|);
    leg.(waiting := leg.waiting + [e], pushed := leg.pushed + [e])
  }

  /** Puts `e` in front of the entries that are not due earlier. */
  function Insert<T>(e: Timed<T>, q: seq<Timed<T>>): seq<Timed<T>> {
    if q == [] || q[0].due >= e.due then [e] + q
    else [q[0]] + Insert(e, q[1..])
  }

  /** Stable sort by due time. */
  function StableSort<T>(q: seq<Timed<T>>): seq<Timed<T>> {
    if q == [] then [] else Insert(q[0], StableSort(q[1..]))
  }

  /** How many leading entries are due. */
  function DueCount<T>(q: seq<Timed<T>>, upto: nat): (n: nat)
    ensures n <= |q|
  {
    if q == [] || q[0].due > upto then 0 else 1 + DueCount(q[1..], upto)
  }

  /** The entries due by `upto`, in the order they are served. */
  function Ready<T>(leg: Leg<T>, upto: nat): seq<Timed<T>> {
    var sorted := StableSort(leg.waiting);
    sorted[..DueCount(sorted, upto)]
  }

  function Later(a: nat, b: nat): nat {
    if a < b then b else a
  }

  function Served<T>(ready: seq<Timed<T>>, clock: nat): (record: seq<Service<T>>)
    ensures |record| == |ready|
  {
    if ready == [] then []
    else [Service(ready[0], Later(clock, ready[0].due))] + Served(ready[1..], clock)
  }

  /** Serves everything due by `upto`, starting with the clock at `clock`. */
  function Serve<T>(leg: Leg<T>, upto: nat, clock: nat): Leg<T> {
    var sorted := StableSort(leg.waiting);
    var n := DueCount(sorted, upto);
    leg.(waiting := sorted[n..], served := leg.served + Served(sorted[..n], clock), horizon := upto)
  }

  function Drop<T>(leg: Leg<T>, i: nat): Leg<T>
    requires i < |leg.waiting|
  {
    leg.(waiting := leg.waiting[..i] + leg.waiting[i + 1..], dropped := leg.dropped + [leg.waiting[i]])
  }

  // --- Invariant -------------------------------------------------------------------

  /** Due order, ties by ticket. */
  predicate Before<T>(a: Timed<T>, b: Timed<T>) {
    a.due < b.due || (a.due == b.due && a.ticket < b.ticket)
  }

  /** Entries due at the same time wait in ticket order. */
  predicate TiesInOrder<T>(q: seq<Timed<T>>) {
    forall i, j :: 0 <= i < j < |q| && q[i].due == q[j].due ==> q[i].ticket < q[j].ticket
  }

  predicate InOrder<T>(q: seq<Timed<T>>) {
    forall i, j :: 0 <= i < j < |q| ==> Before(q[i], q[j])
  }

  function ServedEntries<T>(s: seq<Service<T>>): seq<Timed<T>> {
    if s == [] then [] else [s[0].entry] + ServedEntries(s[1..])
  }

  /** Whatever was pushed waits, has been served or has been dropped, once. */
  ghost predicate Conserved<T>(leg: Leg<T>) {
    multiset(leg.pushed) == multiset(leg.waiting) + multiset(ServedEntries(leg.served)) + multiset(leg.dropped)
  }

  predicate Numbered<T>(leg: Leg<T>) {
    forall i :: 0 <= i < |leg.pushed| ==> leg.pushed[i].ticket == i
  }

  /** The whole service record is in due order. */
  predicate RecordInOrder<T>(served: seq<Service<T>>) {
    forall i, j :: 0 <= i < j < |served| ==> Before(served[i].entry, served[j].entry)
  }

  /** All that was served comes before all that still waits. */
  predicate AheadOf<T>(served: seq<Service<T>>, waiting: seq<Timed<T>>) {
    forall i, j :: 0 <= i < |served| && 0 <= j < |waiting| ==> Before(served[i].entry, waiting[j])
  }

  /** Everything served was due when it was served, within the horizon. */
  predicate OnTime<T>(served: seq<Service<T>>, horizon: nat) {
    forall i :: 0 <= i < |served| ==> served[i].entry.due <= served[i].at <= horizon
  }

  /** Nothing waits that is due. */
  predicate NoneDue<T>(waiting: seq<Timed<T>>, now: nat) {
    forall i :: 0 <= i < |waiting| ==> waiting[i].due > now
  }

  ghost predicate LegOk<T>(leg: Leg<T>) {
    && Conserved(leg)
    && Numbered(leg)
    && TiesInOrder(leg.waiting)
    && RecordInOrder(leg.served)
    && AheadOf(leg.served, leg.waiting)
    && OnTime(leg.served, leg.horizon)
  }

  // --- Sorting ---------------------------------------------------------------------

  lemma {:induction false} InsertMembers<T>(e: Timed<T>, q: seq<Timed<T>>)
    ensures multiset(Insert(e, q)) == multiset{e} + multiset(q)
  {
    if q == [] || q[0].due >= e.due {
    } else {
      InsertMembers(e, q[1..]);
      assert q == [q[0]] + q[1..];
    }
  }

  lemma {:induction false} SortMembers<T>(q: seq<Timed<T>>)
    ensures multiset(StableSort(q)) == multiset(q)
    ensures |StableSort(q)| == |q|
  {
    if q != [] {
      SortMembers(q[1..]);
      InsertMembers(q[0], StableSort(q[1..]));
      assert q == [q[0]] + q[1..];
      assert |StableSort(q)| == |multiset(StableSort(q))| == |multiset(q)|;
    }
  }

  lemma {:induction false} InsertInOrder<T>(e: Timed<T>, q: seq<Timed<T>>)
    requires InOrder(q)
    requires forall i :: 0 <= i < |q| && q[i].due == e.due ==> e.ticket < q[i].ticket
    ensures InOrder(Insert(e, q))
  {
    if q == [] {
    } else if q[0].due >= e.due {
      var r := Insert(e, q);
      forall i, j | 0 <= i < j < |r| ensures Before(r[i], r[j]) {
        assert r[j] == q[j - 1];
        if i == 0 {
          assert j == 1 || Before(q[0], q[j - 1]);
        } else {
          assert r[i] == q[i - 1];
        }
      }
    } else {
      InsertInOrder(e, q[1..]);
      var r, rest := Insert(e, q), Insert(e, q[1..]);
      InsertMembers(e, q[1..]);
      forall i, j | 0 <= i < j < |r| ensures Before(r[i], r[j]) {
        assert r[j] == rest[j - 1];
        if i == 0 {
          assert rest[j - 1] in multiset(rest);
          if rest[j - 1] != e {
            assert rest[j - 1] in q[1..];
            var k :| 0 <= k < |q[1..]| && q[1..][k] == rest[j - 1];
            assert Before(q[0], q[k + 1]);
          }
        } else {
          assert r[i] == rest[i - 1];
        }
      }
    }
  }

  lemma {:induction false} SortInOrder<T>(q: seq<Timed<T>>)
    requires TiesInOrder(q)
    ensures InOrder(StableSort(q))
  {
    if q != [] {
      var rest := StableSort(q[1..]);
      SortInOrder(q[1..]);
      SortMembers(q[1..]);
      forall i | 0 <= i < |rest| && rest[i].due == q[0].due ensures q[0].ticket < rest[i].ticket {
        assert rest[i] in multiset(rest);
        var k :| 0 <= k < |q[1..]| && q[1..][k] == rest[i];
        assert q[k + 1] == rest[i];
      }
      InsertInOrder(q[0], rest);
    }
  }

  lemma {:induction false} DueCountSplits<T>(q: seq<Timed<T>>, upto: nat)
    requires InOrder(q)
    ensures forall i :: 0 <= i < DueCount(q, upto) ==> q[i].due <= upto
    ensures forall i :: DueCount(q, upto) <= i < |q| ==> q[i].due > upto
  {
    if q == [] {
    } else if q[0].due > upto {
      forall i | 0 <= i < |q| ensures q[i].due > upto {
        assert i == 0 || Before(q[0], q[i]);
      }
    } else {
      assert InOrder(q[1..]);
      DueCountSplits(q[1..], upto);
    }
  }

  /** One more entry of a scan over the due ones. */
  lemma {:induction false} DueCountFrom<T>(q: seq<Timed<T>>, i: nat, upto: nat)
    requires i <= |q|
    ensures DueCount(q[i..], upto) ==
            if i < |q| && q[i].due <= upto then 1 + DueCount(q[i + 1..], upto) else 0
  {
    if i < |q| {
      assert q[i..][0] == q[i] && q[i..][1..] == q[i + 1..];
    } else {
      assert q[i..] == [];
    }
  }

  lemma {:induction false} ServedShape<T>(ready: seq<Timed<T>>, clock: nat)
    ensures |Served(ready, clock)| == |ready|
    ensures forall i :: 0 <= i < |ready| ==> Served(ready, clock)[i] == Service(ready[i], Later(clock, ready[i].due))
    ensures ServedEntries(Served(ready, clock)) == ready
  {
    if ready != [] { ServedShape(ready[1..], clock); }
  }

  lemma {:induction false} ServedEntriesAppend<T>(a: seq<Service<T>>, b: seq<Service<T>>)
    ensures ServedEntries(a + b) == ServedEntries(a) + ServedEntries(b)
  {
    if a == [] {
      assert a + b == b;
    } else {
      assert (a + b)[1..] == a[1..] + b;
      ServedEntriesAppend(a[1..], b);
    }
  }

  lemma {:induction false} ServedEntriesIndex<T>(s: seq<Service<T>>, i: nat)
    requires i < |s|
    ensures s[i].entry in ServedEntries(s)
  {
    if i > 0 { ServedEntriesIndex(s[1..], i - 1); }
  }

  // --- Preservation ------------------------------------------------------------------

  /** Every ticket handed out so far is below the next one. */
  lemma {:induction false} TicketsBelow<T>(leg: Leg<T>)
    requires Conserved(leg) && Numbered(leg)
    ensures forall i :: 0 <= i < |leg.waiting| ==> leg.waiting[i].ticket < |leg.pushed|
    ensures forall i :: 0 <= i < |leg.served| ==> leg.served[i].entry.ticket < |leg.pushed|
  {
    hide ServedEntries, Numbered;
    forall i | 0 <= i < |leg.waiting| ensures leg.waiting[i].ticket < |leg.pushed| {
      assert leg.waiting[i] in multiset(leg.waiting);
      TicketOf(leg, leg.waiting[i]);
    }
    forall i | 0 <= i < |leg.served| ensures leg.served[i].entry.ticket < |leg.pushed| {
      ServedEntriesIndex(leg.served, i);
      assert leg.served[i].entry in multiset(ServedEntries(leg.served));
      TicketOf(leg, leg.served[i].entry);
    }
  }

  lemma {:induction false} TicketOf<T>(leg: Leg<T>, e: Timed<T>)
    requires Numbered(leg) && e in multiset(leg.pushed)
    ensures e.ticket < |leg.pushed|
  {
    var k :| 0 <= k < |leg.pushed| && leg.pushed[k] == e;
  }

  lemma {:induction false} PushConserves<T>(leg: Leg<T>, item: T, due: nat)
    requires Conserved(leg) && Numbered(leg)
    ensures Conserved(Push(leg, item, due)) && Numbered(Push(leg, item, due))
  {
  }

  /** Pushing something that is not due before the horizon. */
  lemma {:induction false} PushKeeps<T>(leg: Leg<T>, item: T, due: nat)
    requires LegOk(leg) && due >= leg.horizon
    ensures LegOk(Push(leg, item, due))
  {
    hide Conserved, Numbered;
    PushConserves(leg, item, due);
    TicketsBelow(leg);
  }

  lemma {:induction false} SortSplits<T>(q: seq<Timed<T>>, n: nat)
    requires n <= |StableSort(q)|
    ensures multiset(q) == multiset(StableSort(q)[..n]) + multiset(StableSort(q)[n..])
  {
    SortMembers(q);
    assert StableSort(q) == StableSort(q)[..n] + StableSort(q)[n..];
  }

  lemma {:induction false} ServedJoins<T>(served: seq<Service<T>>, ready: seq<Timed<T>>, clock: nat)
    ensures multiset(ServedEntries(served + Served(ready, clock)))
         == multiset(ServedEntries(served)) + multiset(ready)
  {
    ServedShape(ready, clock);
    ServedEntriesAppend(served, Served(ready, clock));
  }

  lemma {:induction false} ServeConserves<T>(leg: Leg<T>, upto: nat, clock: nat)
    requires Conserved(leg)
    ensures Conserved(Serve(leg, upto, clock))
  {
    hide StableSort, Served, ServedEntries, DueCount;
    var sorted := StableSort(leg.waiting);
    var n := DueCount(sorted, upto);
    SortSplits(leg.waiting, n);
    ServedJoins(leg.served, sorted[..n], clock);
    Regroup(multiset(leg.pushed), multiset(sorted[..n]), multiset(sorted[n..]),
            multiset(ServedEntries(leg.served)), multiset(leg.dropped));
  }

  lemma {:induction false} Regroup<T>(pushed: multiset<T>, ready: multiset<T>, rest: multiset<T>,
                                      served: multiset<T>, dropped: multiset<T>)
    requires pushed == (ready + rest) + served + dropped
    ensures pushed == rest + (served + ready) + dropped
  {
  }

  /** What is ahead of a queue is ahead of the sorted queue. */
  lemma {:induction false} SortStaysBehind<T>(served: seq<Service<T>>, q: seq<Timed<T>>)
    requires AheadOf(served, q)
    ensures AheadOf(served, StableSort(q))
  {
    var sorted := StableSort(q);
    forall i, j | 0 <= i < |served| && 0 <= j < |sorted| ensures Before(served[i].entry, sorted[j]) {
      SortMembers(q);
      assert sorted[j] in multiset(sorted);
      var k :| 0 <= k < |q| && q[k] == sorted[j];
    }
  }

  lemma {:induction false} ServedInOrder<T>(served: seq<Service<T>>, ready: seq<Timed<T>>, rest: seq<Timed<T>>,
                                            clock: nat, upto: nat)
    requires RecordInOrder(served) && OnTime(served, upto) && AheadOf(served, ready + rest) && InOrder(ready + rest)
    requires clock <= upto && forall i :: 0 <= i < |ready| ==> ready[i].due <= upto
    ensures var all := served + Served(ready, clock);
            RecordInOrder(all) && OnTime(all, upto) && AheadOf(all, rest)
  {
    ServedShape(ready, clock);
    var m, all, q := |served|, served + Served(ready, clock), ready + rest;
    forall i | m <= i < |all| ensures all[i].entry == q[i - m] {}
    forall i, j | 0 <= i < j < |all| ensures Before(all[i].entry, all[j].entry) {
      if i < m <= j { assert Before(served[i].entry, q[j - m]); }
      if m <= i { assert Before(q[i - m], q[j - m]); }
    }
    forall i, j | 0 <= i < |all| && 0 <= j < |rest| ensures Before(all[i].entry, rest[j]) {
      assert rest[j] == q[|ready| + j];
      if i < m {
        assert Before(served[i].entry, q[|ready| + j]);
      } else {
        assert Before(q[i - m], q[|ready| + j]);
      }
    }
  }

  /** Serving keeps the order of the whole record, and only what is due later
      still waits. */
  lemma {:induction false} ServeKeeps<T>(leg: Leg<T>, upto: nat, clock: nat)
    requires LegOk(leg) && upto >= leg.horizon && upto >= clock
    ensures LegOk(Serve(leg, upto, clock)) && Serve(leg, upto, clock).horizon == upto
    ensures NoneDue(Serve(leg, upto, clock).waiting, upto)
  {
    hide Conserved, RecordInOrder, AheadOf, StableSort, Served, DueCount, Before, InOrder, TiesInOrder, OnTime;
    var sorted := StableSort(leg.waiting);
    var n := DueCount(sorted, upto);
    SortInOrder(leg.waiting);
    DueCountSplits(sorted, upto);
    ServeConserves(leg, upto, clock);
    SortStaysBehind(leg.served, leg.waiting);
    LaterHorizon(leg.served, leg.horizon, upto);
    assert sorted == sorted[..n] + sorted[n..];
    ServedInOrder(leg.served, sorted[..n], sorted[n..], clock, upto);
    RestInOrder(sorted, n);
  }

  lemma {:induction false} LaterHorizon<T>(served: seq<Service<T>>, horizon: nat, upto: nat)
    requires OnTime(served, horizon) && horizon <= upto
    ensures OnTime(served, upto)
  {
  }

  lemma {:induction false} RestInOrder<T>(q: seq<Timed<T>>, n: nat)
    requires InOrder(q) && n <= |q|
    ensures TiesInOrder(q[n..])
  {
    forall i, j | 0 <= i < j < |q[n..]| ensures Before(q[n..][i], q[n..][j]) {
      assert Before(q[n + i], q[n + j]);
    }
  }

  lemma {:induction false} DropConserves<T>(leg: Leg<T>, i: nat)
    requires Conserved(leg) && i < |leg.waiting|
    ensures Conserved(Drop(leg, i))
  {
    var w := leg.waiting;
    assert w == w[..i] + [w[i]] + w[i + 1..];
    assert multiset(w) == multiset(w[..i] + w[i + 1..]) + multiset{w[i]};
  }

  lemma {:induction false} DropKeeps<T>(leg: Leg<T>, i: nat)
    requires LegOk(leg) && i < |leg.waiting|
    ensures LegOk(Drop(leg, i))
  {
    hide Conserved, RecordInOrder, OnTime;
    DropConserves(leg, i);
    var w, rest := leg.waiting, Drop(leg, i).waiting;
    forall b | 0 <= b < |rest| ensures rest[b] == if b < i then w[b] else w[b + 1] {}
    assert TiesInOrder(rest);
    assert AheadOf(leg.served, rest);
  }

  // --- Items ---------------------------------------------------------------------------

  function Items<T>(q: seq<Timed<T>>): (items: seq<T>)
    ensures |items| == |q|
  {
    if q == [] then [] else [q[0].item] + Items(q[1..])
  }

  lemma {:induction false} ItemsAppend<T>(a: seq<Timed<T>>, b: seq<Timed<T>>)
    ensures Items(a + b) == Items(a) + Items(b)
  {
    if a == [] {
      assert a + b == b;
    } else {
      assert (a + b)[1..] == a[1..] + b;
      ItemsAppend(a[1..], b);
    }
  }

  lemma {:induction false} ItemsIndex<T>(q: seq<Timed<T>>)
    ensures forall i :: 0 <= i < |q| ==> Items(q)[i] == q[i].item
  {
    if q != [] { ItemsIndex(q[1..]); }
  }

  lemma {:induction false} InsertItems<T>(e: Timed<T>, q: seq<Timed<T>>)
    ensures multiset(Items(Insert(e, q))) == multiset{e.item} + multiset(Items(q))
  {
    if q == [] || q[0].due >= e.due {
      assert Items([e] + q) == [e.item] + Items(q) by { assert ([e] + q)[1..] == q; }
    } else {
      InsertItems(e, q[1..]);
      assert Insert(e, q)[1..] == Insert(e, q[1..]);
      assert Items(q) == [q[0].item] + Items(q[1..]);
    }
  }

  lemma {:induction false} SortItems<T>(q: seq<Timed<T>>)
    ensures multiset(Items(StableSort(q))) == multiset(Items(q))
  {
    if q != [] {
      SortItems(q[1..]);
      InsertItems(q[0], StableSort(q[1..]));
      assert Items(q) == [q[0].item] + Items(q[1..]);
    }
  }
}
