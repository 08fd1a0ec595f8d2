/** The k-way merge of `.canon` files (merge_main.cpp), from input bytes to
    output bytes. */
module CanonMerge {
  import opened Orders
  import opened CanonFormat
  import opened CanonFiles

  // --- The merge of record lists ----------------------------------------------------------

  /** A record and the input it came from. */
  datatype Sourced = Sourced(from: nat, record: Record)

  /** The first input with the smallest head, or the number of inputs if all are
      empty. */
  function Pick(lists: seq<seq<Record>>): (p: nat)
    ensures p <= |lists|
    ensures p < |lists| ==> lists[p] != []
  {
    if lists == [] then 0
    else
      var n := |lists| - 1;
      var p := Pick(lists[..n]);
      if lists[n] == [] then (if p == n then n + 1 else p)
      else if p == n || lists[n][0].ts < lists[p][0].ts then n
      else p
  }

  lemma {:induction false} PickIsFirstSmallest(lists: seq<seq<Record>>)
    ensures var p := Pick(lists);
            && (p == |lists| ==> forall i :: 0 <= i < |lists| ==> lists[i] == [])
            && (p < |lists| ==>
                  forall i :: 0 <= i < |lists| && lists[i] != [] ==>
                    lists[p][0].ts <= lists[i][0].ts && (i < p ==> lists[p][0].ts < lists[i][0].ts))
  {
    if lists != [] {
      var n := |lists| - 1;
      PickIsFirstSmallest(lists[..n]);
      assert forall i :: 0 <= i < n ==> lists[..n][i] == lists[i];
    }
  }

  function Size(lists: seq<seq<Record>>): nat {
    if lists == [] then 0 else Size(lists[..|lists| - 1]) + |lists[|lists| - 1]|
  }

  /** The inputs after the head of one has been taken. */
  function Advance(lists: seq<seq<Record>>, p: nat): (r: seq<seq<Record>>)
    requires p < |lists| && lists[p] != []
    ensures |r| == |lists|
  {
    lists[p := lists[p][1..]]
  }

  lemma {:induction false} AdvanceShrinks(lists: seq<seq<Record>>, p: nat)
    requires p < |lists| && lists[p] != []
    ensures Size(Advance(lists, p)) == Size(lists) - 1
  {
    var n := |lists| - 1;
    if p < n {
      AdvanceShrinks(lists[..n], p);
      assert Advance(lists, p)[..n] == Advance(lists[..n], p);
    } else {
      assert Advance(lists, p)[..n] == lists[..n];
    }
  }

  function Merged(lists: seq<seq<Record>>): seq<Sourced>
    decreases Size(lists)
  {
    var p := Pick(lists);
    if p == |lists| then []
    else
      AdvanceShrinks(lists, p);
      [Sourced(p, lists[p][0])] + Merged(Advance(lists, p))
  }

  function Records(m: seq<Sourced>): (rs: seq<Record>)
    ensures |rs| == |m| && forall i :: 0 <= i < |m| ==> rs[i] == m[i].record
  {
    if m == [] then [] else [m[0].record] + Records(m[1..])
  }

  /** The records that came from one input. */
  function PartOf(m: seq<Sourced>, i: nat): seq<Record> {
    if m == [] then []
    else if m[0].from == i then [m[0].record] + PartOf(m[1..], i)
    else PartOf(m[1..], i)
  }

  /** An interleaving: every input is there whole and in order, nothing is
      lost, nothing invented. */
  lemma {:induction false} MergeKeepsInputs(lists: seq<seq<Record>>)
    ensures forall i :: 0 <= i < |lists| ==> PartOf(Merged(lists), i) == lists[i]
    ensures |Merged(lists)| == Size(lists)
    ensures forall k :: 0 <= k < |Merged(lists)| ==> Merged(lists)[k].from < |lists|
    decreases Size(lists)
  {
    var p := Pick(lists);
    PickIsFirstSmallest(lists);
    if p == |lists| {
      EmptySize(lists);
    } else {
      var rest := Advance(lists, p);
      AdvanceShrinks(lists, p);
      MergeKeepsInputs(rest);
      assert Merged(lists)[1..] == Merged(rest);
      forall i | 0 <= i < |lists| ensures PartOf(Merged(lists), i) == lists[i] {
        assert PartOf(Merged(rest), i) == rest[i];
        if i == p { assert lists[p] == [lists[p][0]] + lists[p][1..]; }
      }
    }
  }

  lemma {:induction false} EmptySize(lists: seq<seq<Record>>)
    requires forall i :: 0 <= i < |lists| ==> lists[i] == []
    ensures Size(lists) == 0
  {
    if lists != [] { EmptySize(lists[..|lists| - 1]); }
  }

  predicate Sorted(rs: seq<Record>) {
    forall i, j :: 0 <= i < j < |rs| ==> rs[i].ts <= rs[j].ts
  }

  lemma {:induction false} PartHas(m: seq<Sourced>, k: nat)
    requires k < |m|
    ensures m[k].record in PartOf(m, m[k].from)
  {
    if k > 0 { PartHas(m[1..], k - 1); }
  }

  /** Earlier time first; at equal times, earlier input first. */
  predicate InMergeOrder(m: seq<Sourced>) {
    forall a, b :: 0 <= a < b < |m| ==>
      m[a].record.ts < m[b].record.ts || (m[a].record.ts == m[b].record.ts && m[a].from <= m[b].from)
  }

  /** If every input is sorted, the output is, and ties go to the earlier
      input. */
  lemma {:induction false} MergeSorts(lists: seq<seq<Record>>)
    requires forall i :: 0 <= i < |lists| ==> Sorted(lists[i])
    ensures InMergeOrder(Merged(lists))
    decreases Size(lists)
  {
    var p := Pick(lists);
    if p < |lists| {
      var rest := Advance(lists, p);
      AdvanceShrinks(lists, p);
      forall i | 0 <= i < |rest| ensures Sorted(rest[i]) {
        if i == p { assert forall j :: 0 <= j < |rest[p]| ==> rest[p][j] == lists[p][j + 1]; }
      }
      MergeSorts(rest);
      var m, tail := Merged(lists), Merged(rest);
      forall b | 0 <= b < |tail|
        ensures m[0].record.ts < tail[b].record.ts || (m[0].record.ts == tail[b].record.ts && p <= tail[b].from)
      {
        HeadIsFirst(lists, b);
      }
      forall a, b | 0 <= a < b < |m|
        ensures m[a].record.ts < m[b].record.ts || (m[a].record.ts == m[b].record.ts && m[a].from <= m[b].from)
      {
        assert m[b] == tail[b - 1];
        if a > 0 { assert m[a] == tail[a - 1]; }
      }
    }
  }

  /** The head picked goes before everything that is merged later. */
  lemma {:induction false} HeadIsFirst(lists: seq<seq<Record>>, b: nat)
    requires forall i :: 0 <= i < |lists| ==> Sorted(lists[i])
    requires Pick(lists) < |lists| && b < |Merged(Advance(lists, Pick(lists)))|
    ensures var p := Pick(lists);
            var s := Merged(Advance(lists, p))[b];
            lists[p][0].ts < s.record.ts || (lists[p][0].ts == s.record.ts && p <= s.from)
  {
    hide Merged, Pick;
    var p := Pick(lists);
    var rest := Advance(lists, p);
    var s := Merged(rest)[b];
    MergeKeepsInputs(rest);
    PartHas(Merged(rest), b);
    PickIsFirstSmallest(lists);
    assert s.record in rest[s.from];
    var k :| 0 <= k < |rest[s.from]| && rest[s.from][k] == s.record;
    if s.from == p {
      assert lists[p][k + 1] == s.record;
    } else {
      assert lists[s.from][k] == s.record;
      assert k == 0 || lists[s.from][0].ts <= lists[s.from][k].ts;
    }
  }

  /** The output is sorted exactly when every input is. */
  lemma {:induction false} SortedIff(lists: seq<seq<Record>>)
    ensures Sorted(Records(Merged(lists))) <==> forall i :: 0 <= i < |lists| ==> Sorted(lists[i])
  {
    hide Merged, Sorted, Records;
    if forall i :: 0 <= i < |lists| ==> Sorted(lists[i]) {
      MergeSorts(lists);
      InOrderSorted(Merged(lists));
    }
    if Sorted(Records(Merged(lists))) {
      MergeKeepsInputs(lists);
      SortedInOrder(Merged(lists));
      forall i | 0 <= i < |lists| ensures Sorted(lists[i]) { PartSorted(Merged(lists), i); }
    }
  }

  predicate TimesInOrder(m: seq<Sourced>) {
    forall a, b :: 0 <= a < b < |m| ==> m[a].record.ts <= m[b].record.ts
  }

  lemma {:induction false} InOrderSorted(m: seq<Sourced>)
    requires InMergeOrder(m)
    ensures Sorted(Records(m))
  {
  }

  lemma {:induction false} SortedInOrder(m: seq<Sourced>)
    requires Sorted(Records(m))
    ensures TimesInOrder(m)
  {
    forall a, b | 0 <= a < b < |m| ensures m[a].record.ts <= m[b].record.ts {
      assert Records(m)[a].ts <= Records(m)[b].ts;
    }
  }

  lemma {:induction false} PartSorted(m: seq<Sourced>, i: nat)
    requires TimesInOrder(m)
    ensures Sorted(PartOf(m, i))
    ensures forall r :: r in PartOf(m, i) ==> m != [] && r.ts >= m[0].record.ts
  {
    if m != [] {
      PartSorted(m[1..], i);
      if |m| > 1 { assert m[0].record.ts <= m[1].record.ts; }
    }
  }

  // --- The merge of files ---------------------------------------------------------------------

  const MERGE_BUFFER: nat := 4194304

  function VenueOf(file: seq<Byte>): Byte
    requires Readable(file)
  {
    HeaderOf(file[..FILE_HEADER_BYTES]).venue
  }

  function DateOf(file: seq<Byte>): nat
    requires Readable(file)
  {
    HeaderOf(file[..FILE_HEADER_BYTES]).date
  }

  function RecordsOf(file: seq<Byte>): seq<Record>
    requires Readable(file)
  {
    ReadAll(file[FILE_HEADER_BYTES..])
  }

  /** The inputs can be merged: all readable, all of one venue. */
  predicate Mergeable(files: seq<seq<Byte>>) {
    (forall i :: 0 <= i < |files| ==> Readable(files[i]))
    && forall i :: 0 <= i < |files| ==> VenueOf(files[i]) == VenueOf(files[0])
  }

  function Inputs(files: seq<seq<Byte>>): (lists: seq<seq<Record>>)
    requires Mergeable(files)
    ensures |lists| == |files| && forall i :: 0 <= i < |files| ==> lists[i] == RecordsOf(files[i])
  {
    seq(|files|, i requires 0 <= i < |files| => RecordsOf(files[i]))
  }

  /** Venue and date of the first input are stamped on the output. */
  function MergeConfig(files: seq<seq<Byte>>, kind: seq<Byte>, sha: seq<Byte>): Config
    requires files != [] && Mergeable(files)
  {
    Config(kind, sha, VenueOf(files[0]), DateOf(files[0]), MERGE_BUFFER)
  }

  /** What reader and head together still hold. */
  ghost function Held(head: Option<Record>, rest: seq<Record>): seq<Record> {
    if head.Some? then [head.value] + rest else rest
  }

  ghost predicate HeadsOk(readers: seq<Reader>, heads: seq<Option<Record>>, lists: seq<seq<Record>>)
    reads set r | r in readers
  {
    && |readers| == |heads| == |lists|
    && (forall i, j :: 0 <= i < j < |readers| ==> readers[i] != readers[j])
    && (forall i :: 0 <= i < |readers| ==> readers[i].Valid())
    && (forall i :: 0 <= i < |readers| ==> lists[i] == Held(heads[i], readers[i].Rest()))
    && (forall i :: 0 <= i < |readers| && heads[i].None? ==> lists[i] == [])
  }

  lemma {:induction false} PickSnoc(lists: seq<seq<Record>>, i: nat)
    requires i < |lists|
    ensures Pick(lists[..i + 1]) ==
            var p := Pick(lists[..i]);
            if lists[i] == [] then (if p == i then i + 1 else p)
            else if p == i || lists[i][0].ts < lists[p][0].ts then i
            else p
  {
    assert lists[..i + 1][..i] == lists[..i];
  }

  /** Scans the heads for the first smallest; the number of heads if there is
      none left. */
  method FindPick(heads: seq<Option<Record>>, ghost lists: seq<seq<Record>>) returns (pick: nat)
    requires |heads| == |lists|
    requires forall i :: 0 <= i < |heads| ==> (heads[i].Some? <==> lists[i] != [])
    requires forall i :: 0 <= i < |heads| && heads[i].Some? ==> heads[i].value == lists[i][0]
    ensures pick == Pick(lists)
  {
    hide Pick;
    pick := |heads|;
    var bestTs := 0;
    NoPick(lists[..0]);
    for i := 0 to |heads|
      invariant pick == if Pick(lists[..i]) == i then |heads| else Pick(lists[..i])
      invariant pick < |heads| ==> pick < i && lists[pick] != [] && bestTs == lists[pick][0].ts
    {
      PickSnoc(lists, i);
      if heads[i].None? { continue; }
      var ts := heads[i].value.ts;
      if pick == |heads| || ts < bestTs {
        pick := i;
        bestTs := ts;
      }
    }
    assert lists[..|heads|] == lists;
  }

  lemma {:induction false} NoPick(lists: seq<seq<Record>>)
    requires lists == []
    ensures Pick(lists) == 0
  {
  }

  lemma {:induction false} MergedUnfold(lists: seq<seq<Record>>)
    ensures var p := Pick(lists);
            Records(Merged(lists)) == if p == |lists| then []
              else [lists[p][0]] + Records(Merged(Advance(lists, p)))
  {
    hide Pick;
    var p := Pick(lists);
    if p < |lists| { assert Merged(lists)[1..] == Merged(Advance(lists, p)); }
  }

  lemma {:induction false} ListsFit(lists: seq<seq<Record>>, p: nat)
    requires p < |lists| && lists[p] != [] && forall i :: 0 <= i < |lists| ==> AllFit(lists[i])
    ensures Fits(lists[p][0])
    ensures forall i :: 0 <= i < |lists| ==> AllFit(Advance(lists, p)[i])
  {
    forall i | 0 <= i < |lists| ensures AllFit(Advance(lists, p)[i]) {
      if i == p {
        assert forall j :: 0 <= j < |lists[p][1..]| ==> lists[p][1..][j] == lists[p][j + 1];
      }
    }
  }

  lemma {:induction false} HeadsAppend(readers: seq<Reader>, heads: seq<Option<Record>>, lists: seq<seq<Record>>,
                                       r: Reader, head: Option<Record>, list: seq<Record>)
    requires HeadsOk(readers, heads, lists) && r !in readers && r.Valid()
    requires list == Held(head, r.Rest()) && (head.None? ==> list == [])
    ensures HeadsOk(readers + [r], heads + [head], lists + [list])
  {
    hide ReadAll, Readable, HeaderOf, Held;
  }

  /** Opens one more input and reads its first record. */
  method AddInput(file: seq<Byte>, readers0: seq<Reader>, heads0: seq<Option<Record>>, ghost lists0: seq<seq<Record>>)
      returns (ok: bool, h: Option<Header>, readers: seq<Reader>, heads: seq<Option<Record>>)
    requires HeadsOk(readers0, heads0, lists0)
    ensures ok <==> Readable(file)
    ensures ok ==> h.Some? && h.value.venue == VenueOf(file) && h.value.date == DateOf(file)
    ensures ok ==> HeadsOk(readers, heads, lists0 + [RecordsOf(file)])
    ensures ok ==> exists r :: fresh(r) && readers == readers0 + [r]
  {
    hide HeaderOf, ReadAll, Readable, HeadsOk;
    readers, heads := readers0, heads0;
    var r := new Reader(file);
    ok, h := r.openOk, r.header;
    if !ok { return; }
    var head := r.Next();
    HeadsAppend(readers0, heads0, lists0, r, head, RecordsOf(file));
    readers, heads := readers0 + [r], heads0 + [head];
  }

  /** Replaces the head of one input by its next record. */
  method NextHead(readers: seq<Reader>, heads0: seq<Option<Record>>, ghost lists: seq<seq<Record>>, p: nat)
      returns (heads: seq<Option<Record>>)
    requires HeadsOk(readers, heads0, lists) && p < |lists| && lists[p] != []
    modifies readers[p]
    ensures HeadsOk(readers, heads, Advance(lists, p))
  {
    hide ReadAll, Readable, HeaderOf;
    ghost var rest := readers[p].Rest();
    var head := readers[p].Next();
    heads := heads0[p := head];
    assert lists[p][1..] == rest;
    forall i | 0 <= i < |readers| && i != p ensures readers[i].Valid() && readers[i].Rest() == old(readers[i].Rest()) {
      assert readers[i] != readers[p] by { assert i < p || p < i; }
    }
  }

  lemma {:induction false} HeadsShow(readers: seq<Reader>, heads: seq<Option<Record>>, lists: seq<seq<Record>>)
    requires HeadsOk(readers, heads, lists)
    ensures |readers| == |heads| == |lists|
    ensures forall i :: 0 <= i < |heads| ==> (heads[i].Some? <==> lists[i] != [])
    ensures forall i :: 0 <= i < |heads| && heads[i].Some? ==> heads[i].value == lists[i][0]
  {
  }

  /** Merges canon files, or refuses: if an input is not readable or of another
      venue than the first. */
  method MergeFiles(files: seq<seq<Byte>>, kind: seq<Byte>, sha: seq<Byte>) returns (out: Option<seq<Byte>>)
    requires files != []
    ensures out.Some? <==> Mergeable(files)
    ensures out.Some? ==> out.value == FileOf(MergeConfig(files, kind, sha), Records(Merged(Inputs(files))))
  {
    hide HeaderOf, Merged, Records, ReadAll, RecordsBytes, HeaderBytes, Readable, HeadsOk, AllFit;
    var readers: seq<Reader>, heads: seq<Option<Record>> := [], [];
    ghost var lists: seq<seq<Record>> := [];
    var venue: Byte, date: nat := 0, 0;
    NoHeads();
    for i := 0 to |files|
      invariant |readers| == i && forall k :: 0 <= k < i ==> fresh(readers[k])
      invariant HeadsOk(readers, heads, lists) && |lists| == i
      invariant forall k :: 0 <= k < i ==> Readable(files[k]) && lists[k] == RecordsOf(files[k])
      invariant i > 0 ==> venue == VenueOf(files[0]) && date == DateOf(files[0])
      invariant forall k :: 0 <= k < i ==> VenueOf(files[k]) == venue
    {
      var ok, h;
      ok, h, readers, heads := AddInput(files[i], readers, heads, lists);
      if !ok { return None; }
      if i == 0 {
        venue, date := h.value.venue, h.value.date;
      } else if h.value.venue != venue {
        return None;
      }
      lists := lists + [RecordsOf(files[i])];
    }
    assert lists == Inputs(files);
    InputsFit(files);
    var file := MergeHeads(readers, heads, lists, Config(kind, sha, venue, date, MERGE_BUFFER));
    return Some(file);
  }

  lemma {:induction false} InputsFit(files: seq<seq<Byte>>)
    requires Mergeable(files)
    ensures forall i :: 0 <= i < |files| ==> AllFit(Inputs(files)[i])
  {
    hide AllFit, ReadAll, HeaderOf, Accepts;
    forall i | 0 <= i < |files| ensures AllFit(Inputs(files)[i]) { ReadIsPrefix(files[i][FILE_HEADER_BYTES..]); }
  }

  lemma {:induction false} NoHeads()
    ensures HeadsOk([], [], [])
  {
  }

  lemma {:induction false} Regroup(a: seq<Record>, r: Record, b: seq<Record>)
    ensures a + ([r] + b) == (a + [r]) + b
  {
  }

  /** Writes the head of one input and replaces it by the input's next record. */
  method TakeHead(readers: seq<Reader>, heads0: seq<Option<Record>>, ghost lists: seq<seq<Record>>, p: nat,
                  writer: Writer)
      returns (heads: seq<Option<Record>>)
    requires HeadsOk(readers, heads0, lists) && p < |lists| && lists[p] != [] && Fits(lists[p][0])
    requires writer.Valid() && writer.isOpen
    modifies readers[p], writer`file, writer`bufferPos, writer`eventsWritten, writer`bytesWritten, writer`events,
             writer.buffer
    ensures HeadsOk(readers, heads, Advance(lists, p))
    ensures writer.Valid() && writer.events == old(writer.events) + [lists[p][0]]
  {
    hide ReadAll, Readable, HeadsOk, Advance, RecordBytes;
    HeadsShow(readers, heads0, lists);
    var rec := heads0[p].value;
    var _ := writer.WriteEvent(rec.ts, rec.event, rec.sbe);
    heads := NextHead(readers, heads0, lists, p);
  }

  /** The merge loop. */
  method MergeHeads(readers: seq<Reader>, heads0: seq<Option<Record>>, ghost lists0: seq<seq<Record>>, c: Config)
      returns (file: seq<Byte>)
    requires HeadsOk(readers, heads0, lists0) && forall i :: 0 <= i < |lists0| ==> AllFit(lists0[i])
    modifies readers
    ensures file == FileOf(c, Records(Merged(lists0)))
  {
    hide Merged, Records, Pick, FileOf, RecordBytes, ReadAll, Readable, HeadsOk, AllFit, Size, Advance;
    var heads := heads0;
    ghost var lists := lists0;
    var writer := new Writer(c);
    var _ := writer.Open();
    ghost var goal := Records(Merged(lists0));
    assert [] + goal == goal;
    while true
      invariant writer.Valid() && writer.isOpen && fresh(writer) && fresh(writer.buffer) && writer.config == c
      invariant HeadsOk(readers, heads, lists) && forall i :: 0 <= i < |lists| ==> AllFit(lists[i])
      invariant goal == writer.events + Records(Merged(lists))
      decreases Size(lists)
    {
      HeadsShow(readers, heads, lists);
      var pick := FindPick(heads, lists);
      MergedUnfold(lists);
      if pick == |readers| { break; }
      ListsFit(lists, pick);
      AdvanceShrinks(lists, pick);
      Regroup(writer.events, lists[pick][0], Records(Merged(Advance(lists, pick))));
      heads := TakeHead(readers, heads, lists, pick, writer);
      lists := Advance(lists, pick);
    }
    assert writer.events + [] == writer.events;
    writer.Flush();
    writer.Close();
    file := writer.file;
  }

  lemma {:induction false} MergedFit(lists: seq<seq<Record>>)
    requires forall i :: 0 <= i < |lists| ==> AllFit(lists[i])
    ensures AllFit(Records(Merged(lists)))
  {
    hide Merged, Fits;
    var m := Merged(lists);
    MergeKeepsInputs(lists);
    forall k | 0 <= k < |m| ensures Fits(Records(m)[k]) {
      PartHas(m, k);
      var part := PartOf(m, m[k].from);
      assert part == lists[m[k].from];
      var j :| 0 <= j < |part| && part[j] == m[k].record;
    }
  }

  /** End to end: reading the merged file gives the merge of what the inputs
      read as. */
  lemma {:induction false} MergedFileReads(files: seq<seq<Byte>>, kind: seq<Byte>, sha: seq<Byte>)
    requires files != [] && Mergeable(files)
    ensures var file := FileOf(MergeConfig(files, kind, sha), Records(Merged(Inputs(files))));
            && Readable(file) && VenueOf(file) == VenueOf(files[0])
            && RecordsOf(file) == Records(Merged(Inputs(files)))
  {
    hide HeaderOf, Merged, Records, ReadAll, RecordsBytes, HeaderBytes, Accepts, AllFit, HeaderFits, Pow256;
    var lists, c := Inputs(files), MergeConfig(files, kind, sha);
    InputsFit(files);
    MergedFit(lists);
    DateFits(files[0][..FILE_HEADER_BYTES]);
    var rs := Records(Merged(lists));
    HeaderForFits(c);
    HeaderRoundTrip(HeaderFor(c));
    FileReadsBack(c, rs, |FileOf(c, rs)|);
  }

  lemma {:induction false} DateFits(b: seq<Byte>)
    requires |b| == FILE_HEADER_BYTES
    ensures HeaderOf(b).date < Pow256(4)
  {
    EncodeDecode(b[10..14]);
  }
}
