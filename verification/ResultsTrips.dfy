/** The round trips of a run, told from the fills alone: when a holding was opened
    and closed, and what it made in between. */
module ResultsTrips {
  import opened AverageCost
  import opened MapSums
  import opened ResultsModel
  import opened ResultsRuns

  /** The average-cost books of an instrument after these events. */
  function Held(events: seq<Event>, key: string): Position
    requires Proper(events)
  {
    DealsPositive(events, key);
    After(Deals(events, key))
  }

  /** The last event is a fill that takes its instrument from flat to held... */
  predicate Opens(events: seq<Event>, key: string)
    requires Proper(events)
  {
    events != [] && Concerns(events[|events| - 1], key)
    && IsFlat(Held(events[..|events| - 1], key).net) && !IsFlat(Held(events, key).net)
  }

  /** ... or from held to flat. */
  predicate Closes(events: seq<Event>, key: string)
    requires Proper(events)
  {
    events != [] && Concerns(events[|events| - 1], key)
    && !IsFlat(Held(events[..|events| - 1], key).net) && IsFlat(Held(events, key).net)
  }

  /** When the holding of an instrument was last opened. */
  function OpenedAt(events: seq<Event>, key: string): nat
    requires Proper(events)
  {
    if events == [] then 0
    else
      var n := |events| - 1;
      if Opens(events, key) then events[n].fill.ts else OpenedAt(events[..n], key)
  }

  /** What has been realized since the holding was opened, or since the last one
      was closed. */
  function ProfitSince(events: seq<Event>, key: string): real
    requires Proper(events)
  {
    if events == [] || Opens(events, key) || Closes(events, key) then 0.0
    else
      var n := |events| - 1;
      ProfitSince(events[..n], key) + (Held(events, key).realized - Held(events[..n], key).realized)
  }

  /** The round trips, in the order in which they were closed. */
  function ClosedTrips(events: seq<Event>): seq<Trip>
    requires Proper(events)
  {
    if events == [] then []
    else
      var n := |events| - 1;
      var most, e := events[..n], events[n];
      if e.FillEvent? && Closes(events, KeyOfFill(e.fill)) then
        var key := KeyOfFill(e.fill);
        ClosedTrips(most)
        + [Trip(OpenedAt(most, key), e.fill.ts,
                ProfitSince(most, key) + (Held(events, key).realized - Held(most, key).realized))]
      else ClosedTrips(most)
  }

  /** What the collector knows of an instrument. */
  predicate Follows(b: Books, events: seq<Event>, key: string)
    requires Proper(events)
  {
    var pos := PositionAt(b, key);
    && SameBooks(pos, Held(events, key))
    && At(b.open, key) == ProfitSince(events, key)
    && (!IsFlat(pos.net) ==> pos.openTs == OpenedAt(events, key))
  }

  lemma {:induction false} HeldSnoc(most: seq<Event>, x: Event, key: string)
    requires Proper(most) && Proper(most + [x])
    ensures Concerns(x, key) ==> Held(most + [x], key) == ApplyFill(Held(most, key), DealOf(x.fill)).0
    ensures !Concerns(x, key) ==> Held(most + [x], key) == Held(most, key)
  {
    hide ApplyFill, After;
    assert (most + [x])[..|most|] == most;
    DealsPositive(most, key);
    DealsPositive(most + [x], key);
    if Concerns(x, key) { AfterSnoc(Deals(most, key), DealOf(x.fill)); }
  }

  lemma {:induction false} GainIsRealized(pos: Position, d: Deal)
    requires d.qty > 0.0
    ensures var (p, gain) := ApplyFill(pos, d); p.realized == pos.realized + gain && p.openTs == pos.openTs
  {
  }

  /** A fill of the instrument. */
  lemma {:induction false} FillFollows(b: Books, most: seq<Event>, x: Event)
    requires x.FillEvent? && x.fill.qty > 0.0 && Proper(most) && Proper(most + [x])
    requires Follows(b, most, KeyOfFill(x.fill)) && b.trips == ClosedTrips(most)
    ensures var b' := BookDeal(b, x.fill).0;
            Follows(b', most + [x], KeyOfFill(x.fill)) && b'.trips == ClosedTrips(most + [x])
  {
    hide ApplyFill, Held, FeeOf, Deals;
    var key, d, pos := KeyOfFill(x.fill), DealOf(x.fill), PositionAt(b, KeyOfFill(x.fill));
    assert (most + [x])[..|most|] == most;
    HeldSnoc(most, x, key);
    ApplyIgnoresTime(pos, Held(most, key), d);
    GainIsRealized(pos, d);
    GainIsRealized(Held(most, key), d);
  }

  /** Other instruments. */
  lemma {:induction false} OtherFollows(b: Books, b': Books, most: seq<Event>, x: Event, key: string)
    requires Proper(most) && Proper(most + [x]) && !Concerns(x, key) && Follows(b, most, key)
    requires PositionAt(b', key) == PositionAt(b, key) && At(b'.open, key) == At(b.open, key)
    ensures Follows(b', most + [x], key)
  {
    hide Held;
    assert (most + [x])[..|most|] == most;
    HeldSnoc(most, x, key);
  }

  lemma {:induction false} HandleBooks(b: Books, x: Event)
    requires x.FillEvent? ==> x.fill.qty > 0.0
    ensures var b' := Handle(b, x);
            if x.FillEvent? then
              var d := BookDeal(b, x.fill).0; b'.positions == d.positions && b'.open == d.open && b'.trips == d.trips
            else b'.positions == b.positions && b'.open == b.open && b'.trips == b.trips
  {
    hide BookDeal, Equity, FeeOf, ResolveDue, NotDue, MidsAfter;
  }

  lemma {:induction false} BookDealOthers(b: Books, f: Fill, key: string)
    requires f.qty > 0.0 && key != KeyOfFill(f)
    ensures var b' := BookDeal(b, f).0;
            PositionAt(b', key) == PositionAt(b, key) && At(b'.open, key) == At(b.open, key)
  {
    hide ApplyFill, FeeOf;
  }

  lemma {:induction false} StepFollows(b: Books, most: seq<Event>, x: Event, key: string)
    requires Proper(most) && Proper(most + [x]) && (x.FillEvent? ==> x.fill.qty > 0.0)
    requires Follows(b, most, key) && (x.FillEvent? ==> Follows(b, most, KeyOfFill(x.fill)))
    requires b.trips == ClosedTrips(most)
    ensures Follows(Handle(b, x), most + [x], key) && Handle(b, x).trips == ClosedTrips(most + [x])
  {
    hide Handle, BookDeal, Follows;
    HandleBooks(b, x);
    assert (most + [x])[..|most|] == most;
    if x.FillEvent? {
      FillFollows(b, most, x);
      SameFollows(BookDeal(b, x.fill).0, Handle(b, x), most + [x], KeyOfFill(x.fill));
      if key != KeyOfFill(x.fill) {
        BookDealOthers(b, x.fill, key);
        OtherFollows(b, BookDeal(b, x.fill).0, most, x, key);
        SameFollows(BookDeal(b, x.fill).0, Handle(b, x), most + [x], key);
      }
    } else {
      OtherFollows(b, Handle(b, x), most, x, key);
    }
  }

  lemma {:induction false} SameFollows(b: Books, b': Books, events: seq<Event>, key: string)
    requires Proper(events) && Follows(b, events, key) && b'.positions == b.positions && b'.open == b.open
    ensures Follows(b', events, key)
  {
  }

  lemma {:induction false} NothingFollows(b: Books, events: seq<Event>, key: string)
    requires events == [] && b.positions == map[] && b.open == map[]
    ensures Follows(b, events, key)
  {
    assert Deals(events, key) == [];
  }

  /** Round trips over any run: the collector's trips are those that the fills
      make, each with the time at which its holding was opened, the time at which
      it was closed, and what was realized in between; and what is open is what
      has been realized since. */
  lemma {:induction false} TripsOfFills(capital: real, fees: map<string, Rates>, events: seq<Event>, key: string)
    requires Proper(events)
    ensures var b := Collect(EmptyBooks(capital, fees), events);
            && b.trips == ClosedTrips(events)
            && At(b.open, key) == ProfitSince(events, key)
            && (!IsFlat(PositionAt(b, key).net) ==> PositionAt(b, key).openTs == OpenedAt(events, key))
    ensures Follows(Collect(EmptyBooks(capital, fees), events), events, key)
  {
    hide Handle, ClosedTrips, Held, ProfitSince, OpenedAt;
    var b0 := EmptyBooks(capital, fees);
    if events == [] {
      NothingFollows(b0, events, key);
      NoTrips(events);
    } else {
      var n := |events| - 1;
      var most, x := events[..n], events[n];
      assert most + [x] == events;
      TripsOfFills(capital, fees, most, key);
      if x.FillEvent? { TripsOfFills(capital, fees, most, KeyOfFill(x.fill)); }
      StepFollows(Collect(b0, most), most, x, key);
    }
  }

  lemma {:induction false} NoTrips(events: seq<Event>)
    requires events == []
    ensures ClosedTrips(events) == []
  {
  }
}
