/** The bridge's WebSocket broadcast with snapshot replay (ws_server.cpp), as
    steps of the server's single IO thread: publishing, joining, completed and
    failed writes, leaving. */
module WsProtocol {
  import opened Orders

  datatype MsgKind = Session | Status | Tick | Fill | Position | OrderEvent | Toxicity | MarketColor

  datatype Message = Message(kind: MsgKind, text: string)

  const MAX_FILLS: nat := 500

  /** What a late joiner is sent. Order events are not kept. */
  datatype Snapshot = Snapshot(
    session: Option<Message>,
    status: Option<Message>,
    tick: Option<Message>,
    position: Option<Message>,
    toxicity: Option<Message>,
    color: Option<Message>,
    fills: seq<Message>)

  const NO_SNAPSHOT := Snapshot(None, None, None, None, None, None, [])

  function Last(fills: seq<Message>): seq<Message> {
    if |fills| <= MAX_FILLS then fills else fills[|fills| - MAX_FILLS..]
  }

  function Update(s: Snapshot, m: Message): Snapshot {
    match m.kind
    case Session => s.(session := Some(m))
    case Status => s.(status := Some(m))
    case Tick => s.(tick := Some(m))
    case Position => s.(position := Some(m))
    case Toxicity => s.(toxicity := Some(m))
    case MarketColor => s.(color := Some(m))
    case Fill => s.(fills := Last(s.fills + [m]))
    case OrderEvent => s
  }

  function Present(m: Option<Message>): seq<Message> {
    match m
    case Some(v) => [v]
    case None => []
  }

  function Replay(s: Snapshot): seq<Message> {
    Present(s.session) + Present(s.status) + Present(s.tick) + s.fills + Present(s.position)
    + Present(s.toxicity) + Present(s.color)
  }

  // --- Sessions ------------------------------------------------------------------------------

  /** One connection. `sent`, `enqueued`, `failed` and `joined` are history:
      what has been written, everything ever queued, whether a write failed, and
      how many messages had been published when it joined. */
  datatype Client = Client(
    queue: seq<Message>,
    writing: bool,
    sent: seq<Message>,
    enqueued: seq<Message>,
    failed: bool,
    joined: nat)

  function NewClient(joined: nat): Client {
    Client([], false, [], [], false, joined)
  }

  /** Queues a message; the first in the queue starts a write. */
  function Enqueue(c: Client, m: Message): Client {
    c.(queue := c.queue + [m], writing := c.writing || |c.queue| == 0, enqueued := c.enqueued + [m])
  }

  function EnqueueAll(c: Client, ms: seq<Message>): Client
    decreases |ms|
  {
    if ms == [] then c else EnqueueAll(Enqueue(c, ms[0]), ms[1..])
  }

  /** A write has completed: the next one starts. */
  function Written(c: Client): Client
    requires c.queue != []
  {
    c.(queue := c.queue[1..], writing := |c.queue| > 1, sent := c.sent + [c.queue[0]])
  }

  // --- The server --------------------------------------------------------------------------------

  /** `K` names the sessions; `live` are those that are broadcast to. */
  datatype Net<K(==)> = Net(
    snapshot: Snapshot,
    published: seq<Message>,
    live: set<K>,
    clients: map<K, Client>)

  datatype Event<K(==)> =
    | Publish(m: Message)
    | Join(k: K)
    | WriteDone(k: K)
    | WriteFailed(k: K)
    | Leave(k: K)

  /** What a broadcast does to one session. */
  function Heard(c: Client, m: Message, live: bool): Client {
    if live then Enqueue(c, m) else c
  }

  function Broadcast<K(==)>(n: Net<K>, m: Message): Net<K> {
    n.(snapshot := Update(n.snapshot, m),
       published := n.published + [m],
       clients := map k | k in n.clients :: Heard(n.clients[k], m, k in n.live))
  }

  /** The snapshot is queued before the session joins the broadcast. */
  function AddSession<K(==)>(n: Net<K>, k: K): Net<K> {
    n.(clients := n.clients[k := EnqueueAll(NewClient(|n.published|), Replay(n.snapshot))], live := n.live + {k})
  }

  /** What can happen: a session joins once, and a write completes or fails
      only while it is under way. */
  predicate CanHappen<K(==)>(n: Net<K>, e: Event<K>) {
    match e
    case Publish(_) => true
    case Join(k) => k !in n.clients
    case WriteDone(k) => k in n.clients && n.clients[k].writing && n.clients[k].queue != []
    case WriteFailed(k) => k in n.clients && n.clients[k].writing
    case Leave(k) => true
  }

  function Happen<K(==)>(n: Net<K>, e: Event<K>): Net<K>
    requires CanHappen(n, e)
  {
    match e
    case Publish(m) => Broadcast(n, m)
    case Join(k) => AddSession(n, k)
    case WriteDone(k) => n.(clients := n.clients[k := Written(n.clients[k])])
    case WriteFailed(k) =>
      n.(clients := n.clients[k := n.clients[k].(writing := false, failed := true)], live := n.live - {k})
    case Leave(k) => n.(live := n.live - {k})
  }

  // --- Snapshots as folds ------------------------------------------------------------------------

  function Fold(s: Snapshot, ms: seq<Message>): Snapshot {
    if ms == [] then s else Update(Fold(s, ms[..|ms| - 1]), ms[|ms| - 1])
  }

  /** The snapshot after these messages. Folding what a client has received in
      the same way gives its view. */
  function SnapshotOf(ms: seq<Message>): Snapshot {
    Fold(NO_SNAPSHOT, ms)
  }

  lemma {:induction false} FoldAppend(s: Snapshot, a: seq<Message>, b: seq<Message>)
    ensures Fold(s, a + b) == Fold(Fold(s, a), b)
  {
    hide Update;
    if b == [] {
      assert a + b == a;
    } else {
      assert (a + b)[..|a + b| - 1] == a + b[..|b| - 1];
      FoldAppend(s, a, b[..|b| - 1]);
    }
  }

  /** The last message of a kind. */
  function LastOf(ms: seq<Message>, kind: MsgKind): Option<Message> {
    if ms == [] then None
    else if ms[|ms| - 1].kind == kind then Some(ms[|ms| - 1])
    else LastOf(ms[..|ms| - 1], kind)
  }

  function FillsIn(ms: seq<Message>): seq<Message> {
    if ms == [] then []
    else
      var n := |ms| - 1;
      if ms[n].kind == Fill then FillsIn(ms[..n]) + [ms[n]] else FillsIn(ms[..n])
  }

  lemma {:induction false} LastSnoc(fills: seq<Message>, m: Message)
    ensures Last(Last(fills) + [m]) == Last(fills + [m])
  {
  }

  /** What the snapshot holds: the latest message of every kind kept that way,
      and the last 500 fills. */
  lemma {:induction false} SnapshotMeans(ms: seq<Message>)
    ensures SnapshotOf(ms) == Snapshot(
              LastOf(ms, Session), LastOf(ms, Status), LastOf(ms, Tick), LastOf(ms, Position),
              LastOf(ms, Toxicity), LastOf(ms, MarketColor), Last(FillsIn(ms)))
  {
    hide Last;
    if ms == [] {
      LastOfNothing();
    } else {
      var n := |ms| - 1;
      SnapshotMeans(ms[..n]);
      LastSnoc(FillsIn(ms[..n]), ms[n]);
    }
  }

  lemma {:induction false} LastOfNothing()
    ensures Last([]) == []
  {
  }

  predicate Keeps(o: Option<Message>, kind: MsgKind) {
    o.Some? ==> o.value.kind == kind
  }

  predicate FillsOk(fills: seq<Message>) {
    |fills| <= MAX_FILLS && forall i :: 0 <= i < |fills| ==> fills[i].kind == Fill
  }

  predicate SnapshotOk(s: Snapshot) {
    && Keeps(s.session, Session) && Keeps(s.status, Status) && Keeps(s.tick, Tick)
    && Keeps(s.position, Position) && Keeps(s.toxicity, Toxicity) && Keeps(s.color, MarketColor)
    && FillsOk(s.fills)
  }

  lemma {:induction false} FillKeepsOk(fills: seq<Message>, m: Message)
    requires FillsOk(fills) && m.kind == Fill
    ensures FillsOk(Last(fills + [m]))
  {
  }

  lemma {:induction false} UpdateKeepsOk(s: Snapshot, m: Message)
    requires SnapshotOk(s)
    ensures SnapshotOk(Update(s, m))
  {
    hide Last, FillsOk;
    assert Keeps(Some(m), m.kind);
    if m.kind == Fill { FillKeepsOk(s.fills, m); }
  }

  lemma {:induction false} FoldKeepsOk(s: Snapshot, ms: seq<Message>)
    requires SnapshotOk(s)
    ensures SnapshotOk(Fold(s, ms))
  {
    hide SnapshotOk, Update;
    if ms != [] {
      FoldKeepsOk(s, ms[..|ms| - 1]);
      UpdateKeepsOk(Fold(s, ms[..|ms| - 1]), ms[|ms| - 1]);
    }
  }

  lemma {:induction false} FoldFills(s: Snapshot, fills: seq<Message>)
    requires s.fills == [] && FillsOk(fills)
    ensures Fold(s, fills) == s.(fills := fills)
  {
    if fills != [] {
      var n := |fills| - 1;
      FoldFills(s, fills[..n]);
      assert fills[..n] + [fills[n]] == fills;
    }
  }

  lemma {:induction false} FoldPresent(s: Snapshot, m: Option<Message>)
    ensures Fold(s, Present(m)) == if m.Some? then Update(s, m.value) else s
  {
    if m.Some? { assert [m.value][..0] == []; }
  }

  /** Replaying a snapshot to a newcomer gives it exactly that snapshot. */
  lemma {:induction false} ReplayRestores(s: Snapshot)
    requires SnapshotOk(s)
    ensures SnapshotOf(Replay(s)) == s
  {
    hide Fold, Present;
    var head := Present(s.session) + Present(s.status) + Present(s.tick);
    var s0 := NO_SNAPSHOT;
    FoldPresent(s0, s.session);
    FoldAppend(s0, Present(s.session), Present(s.status));
    var s1 := Fold(s0, Present(s.session));
    FoldPresent(s1, s.status);
    FoldAppend(s0, Present(s.session) + Present(s.status), Present(s.tick));
    var s2 := Fold(s1, Present(s.status));
    FoldPresent(s2, s.tick);
    var s3 := Fold(s2, Present(s.tick));
    FoldAppend(s0, head, s.fills);
    FoldFills(s3, s.fills);
    var s4 := Fold(s3, s.fills);
    FoldAppend(s0, head + s.fills, Present(s.position));
    FoldPresent(s4, s.position);
    var s5 := Fold(s4, Present(s.position));
    FoldAppend(s0, head + s.fills + Present(s.position), Present(s.toxicity));
    FoldPresent(s5, s.toxicity);
    var s6 := Fold(s5, Present(s.toxicity));
    FoldAppend(s0, head + s.fills + Present(s.position) + Present(s.toxicity), Present(s.color));
    FoldPresent(s6, s.color);
  }

  /** Whenever it joins, a client that has received the replay and everything
      published since has the view of one that was there from the start. */
  lemma {:induction false} LateJoinerCatchesUp(before: seq<Message>, since: seq<Message>)
    ensures SnapshotOf(Replay(SnapshotOf(before)) + since) == SnapshotOf(before + since)
  {
    hide Replay, Update;
    FoldKeepsOk(NO_SNAPSHOT, before);
    ReplayRestores(SnapshotOf(before));
    FoldAppend(NO_SNAPSHOT, Replay(SnapshotOf(before)), since);
    FoldAppend(NO_SNAPSHOT, before, since);
  }

  // --- The invariant ------------------------------------------------------------------------------

  /** Everything a session that joined then is due. */
  function DueTo(published: seq<Message>, joined: nat): seq<Message>
    requires joined <= |published|
  {
    Replay(SnapshotOf(published[..joined])) + published[joined..]
  }

  predicate ClientOk(c: Client, published: seq<Message>, live: bool) {
    && c.sent + c.queue == c.enqueued
    && (!c.failed ==> (c.writing <==> c.queue != []))
    && (c.failed ==> !c.writing && !live)
    && c.joined <= |published|
    && c.enqueued <= DueTo(published, c.joined)
    && (live ==> c.enqueued == DueTo(published, c.joined))
  }

  ghost predicate NetOk<K>(n: Net<K>) {
    && n.snapshot == SnapshotOf(n.published)
    && n.live <= n.clients.Keys
    && forall k :: k in n.clients ==> ClientOk(n.clients[k], n.published, k in n.live)
  }

  lemma {:induction false} DueGrows(published: seq<Message>, m: Message, joined: nat)
    requires joined <= |published|
    ensures DueTo(published + [m], joined) == DueTo(published, joined) + [m]
  {
    hide Replay, SnapshotOf;
    assert (published + [m])[..joined] == published[..joined];
    assert (published + [m])[joined..] == published[joined..] + [m];
  }

  lemma {:induction false} EnqueueKeeps(c: Client, published: seq<Message>, m: Message)
    requires ClientOk(c, published, true)
    ensures ClientOk(Enqueue(c, m), published + [m], true)
  {
    hide DueTo;
    DueGrows(published, m, c.joined);
    assert c.sent + (c.queue + [m]) == (c.sent + c.queue) + [m];
  }

  lemma {:induction false} IgnoreKeeps(c: Client, published: seq<Message>, m: Message)
    requires ClientOk(c, published, false)
    ensures ClientOk(c, published + [m], false)
  {
    hide DueTo;
    DueGrows(published, m, c.joined);
  }

  lemma {:induction false} HeardKeeps(c: Client, published: seq<Message>, m: Message, live: bool)
    requires ClientOk(c, published, live)
    ensures ClientOk(Heard(c, m, live), published + [m], live)
  {
    hide ClientOk, Enqueue;
    if live { EnqueueKeeps(c, published, m); } else { IgnoreKeeps(c, published, m); }
  }

  lemma {:induction false} SnapshotSnoc(published: seq<Message>, m: Message)
    ensures SnapshotOf(published + [m]) == Update(SnapshotOf(published), m)
  {
    hide Update;
    assert (published + [m])[..|published|] == published;
  }

  lemma {:induction false} BroadcastKeeps<K>(n: Net<K>, m: Message)
    requires NetOk(n)
    ensures NetOk(Broadcast(n, m))
  {
    hide ClientOk, Heard, Update, SnapshotOf;
    var n' := Broadcast(n, m);
    SnapshotSnoc(n.published, m);
    assert n'.clients.Keys == n.clients.Keys;
    forall k | k in n'.clients ensures ClientOk(n'.clients[k], n'.published, k in n'.live) {
      HeardKeeps(n.clients[k], n.published, m, k in n.live);
    }
  }

  lemma {:induction false} EnqueueAllShape(c: Client, ms: seq<Message>)
    ensures EnqueueAll(c, ms) == c.(queue := c.queue + ms, enqueued := c.enqueued + ms,
                                    writing := c.writing || (c.queue == [] && ms != []))
    decreases |ms|
  {
    if ms == [] {
      assert c.queue + ms == c.queue && c.enqueued + ms == c.enqueued;
    } else {
      EnqueueAllShape(Enqueue(c, ms[0]), ms[1..]);
      assert c.queue + [ms[0]] + ms[1..] == c.queue + ms;
      assert c.enqueued + [ms[0]] + ms[1..] == c.enqueued + ms;
    }
  }

  lemma {:induction false} JoinKeeps<K>(n: Net<K>, k: K)
    requires NetOk(n) && k !in n.clients
    ensures NetOk(AddSession(n, k))
  {
    hide Replay, SnapshotOf;
    var n' := AddSession(n, k);
    var c, p := NewClient(|n.published|), n.published;
    EnqueueAllShape(c, Replay(n.snapshot));
    assert p[..|p|] == p && p[|p|..] == [];
    assert [] + Replay(n.snapshot) == Replay(n.snapshot) == Replay(n.snapshot) + [];
    assert ClientOk(n'.clients[k], p, true);
    forall j | j in n'.clients && j != k ensures ClientOk(n'.clients[j], p, j in n'.live) {
      assert ClientOk(n.clients[j], p, j in n.live);
    }
  }

  lemma {:induction false} WrittenKeeps(c: Client, published: seq<Message>, live: bool)
    requires ClientOk(c, published, live) && c.writing && c.queue != []
    ensures ClientOk(Written(c), published, live)
  {
    hide DueTo;
    assert (c.sent + [c.queue[0]]) + c.queue[1..] == c.sent + c.queue;
  }

  lemma {:induction false} HappenKeeps<K>(n: Net<K>, e: Event<K>)
    requires NetOk(n) && CanHappen(n, e)
    ensures NetOk(Happen(n, e))
  {
    hide DueTo, SnapshotOf, Written;
    match e
    case Publish(m) => BroadcastKeeps(n, m);
    case Join(k) => JoinKeeps(n, k);
    case WriteDone(k) =>
      WrittenKeeps(n.clients[k], n.published, k in n.live);
      OthersKeep(n, Happen(n, e), k);
    case WriteFailed(k) => OthersKeep(n, Happen(n, e), k);
    case Leave(k) => OthersKeep(n, Happen(n, e), k);
  }

  lemma {:induction false} OthersKeep<K>(n: Net<K>, n': Net<K>, k: K)
    requires NetOk(n) && n'.snapshot == n.snapshot && n'.published == n.published
    requires n'.live <= n.live && n'.clients.Keys == n.clients.Keys
    requires forall j :: j in n.clients && j != k ==> n'.clients[j] == n.clients[j] && (j in n'.live <==> j in n.live)
    requires k in n.clients ==> ClientOk(n'.clients[k], n'.published, k in n'.live)
    ensures NetOk(n')
  {
    hide ClientOk, SnapshotOf;
  }

  // --- Runs -----------------------------------------------------------------------------------------

  ghost predicate CanRun<K>(n: Net<K>, events: seq<Event<K>>)
    decreases |events|
  {
    events == [] || (CanHappen(n, events[0]) && CanRun(Happen(n, events[0]), events[1..]))
  }

  function Run<K(==)>(n: Net<K>, events: seq<Event<K>>): Net<K>
    requires CanRun(n, events)
    decreases |events|
  {
    if events == [] then n else Run(Happen(n, events[0]), events[1..])
  }

  function Start<K(==)>(): Net<K> {
    Net(NO_SNAPSHOT, [], {}, map[])
  }

  lemma {:induction false} StartOk<K>()
    ensures NetOk(Start<K>())
  {
  }

  /** In every interleaving: after any steps that can happen, every session has
      been sent the beginning of what it is due, in order and without gaps; its
      queue is the rest of what was queued for it; and a write is under way
      exactly while the queue of a session that has not failed is not empty. */
  lemma {:induction false} RunKeeps<K>(n: Net<K>, events: seq<Event<K>>)
    requires NetOk(n) && CanRun(n, events)
    ensures NetOk(Run(n, events))
    decreases |events|
  {
    hide NetOk, CanHappen, Happen;
    if events != [] {
      HappenKeeps(n, events[0]);
      RunKeeps(Happen(n, events[0]), events[1..]);
    }
  }

  /** Convergence: a session that is still broadcast to and whose queue has
      drained has exactly the server's view - the latest message of every kind
      kept that way, and the last 500 fills - whenever it joined. */
  lemma {:induction false} Converges<K>(events: seq<Event<K>>, k: K)
    requires CanRun(Start<K>(), events)
    ensures var n := Run(Start<K>(), events);
            k in n.live ==>
              k in n.clients
              && SnapshotOf(n.clients[k].sent + n.clients[k].queue) == n.snapshot == SnapshotOf(n.published)
              && (n.clients[k].queue == [] ==> SnapshotOf(n.clients[k].sent) == n.snapshot)
  {
    hide Run, SnapshotOf, Replay;
    StartOk<K>();
    RunKeeps(Start<K>(), events);
    var n := Run(Start<K>(), events);
    if k in n.live {
      assert k in n.clients.Keys;
      var c, p := n.clients[k], n.published;
      assert ClientOk(c, p, true);
      LateJoinerCatchesUp(p[..c.joined], p[c.joined..]);
      assert p[..c.joined] + p[c.joined..] == p;
      assert c.queue == [] ==> c.sent + c.queue == c.sent;
    }
  }

  /** `n` completed writes of one session. */
  function Writes<K(==)>(k: K, n: nat): seq<Event<K>> {
    if n == 0 then [] else [WriteDone(k)] + Writes(k, n - 1)
  }

  lemma {:induction false} WriteOne<K>(n: Net<K>, k: K)
    requires NetOk(n) && k in n.clients && !n.clients[k].failed && n.clients[k].queue != []
    ensures CanHappen(n, WriteDone(k))
    ensures var n' := Happen(n, WriteDone(k));
            && k in n'.clients && n'.clients[k] == Written(n.clients[k]) && NetOk(n')
  {
    assert ClientOk(n.clients[k], n.published, k in n.live);
    HappenKeeps(n, WriteDone(k));
  }

  /** A session that has not failed can always drain: as many completed writes
      as it has messages queued empty its queue. */
  lemma {:induction false} Drains<K>(n: Net<K>, k: K)
    requires NetOk(n) && k in n.clients && !n.clients[k].failed
    ensures var writes := Writes(k, |n.clients[k].queue|);
            && CanRun(n, writes)
            && k in Run(n, writes).clients
            && Run(n, writes).clients[k].queue == []
            && Run(n, writes).clients[k].sent == n.clients[k].sent + n.clients[k].queue
    decreases |n.clients[k].queue|
  {
    hide NetOk, CanHappen, Happen;
    var c := n.clients[k];
    if c.queue == [] {
      assert c.sent + c.queue == c.sent;
    } else {
      WriteOne(n, k);
      var n1 := Happen(n, WriteDone(k));
      Drains(n1, k);
      var writes := Writes(k, |c.queue|);
      assert writes[1..] == Writes(k, |n1.clients[k].queue|);
      assert (c.sent + [c.queue[0]]) + c.queue[1..] == c.sent + c.queue;
    }
  }

  /** A session whose write has failed: no write under way, not broadcast to. */
  predicate Gone<K(==)>(n: Net<K>, k: K) {
    k in n.clients && n.clients[k].failed && !n.clients[k].writing && k !in n.live
  }

  lemma {:induction false} GoneStays<K>(n: Net<K>, e: Event<K>, k: K)
    requires Gone(n, k) && CanHappen(n, e)
    ensures Gone(Happen(n, e), k) && Happen(n, e).clients[k].sent == n.clients[k].sent
  {
  }

  lemma {:induction false} GoneIsSilent<K>(n: Net<K>, events: seq<Event<K>>, k: K)
    requires Gone(n, k) && CanRun(n, events)
    ensures Gone(Run(n, events), k) && Run(n, events).clients[k].sent == n.clients[k].sent
    decreases |events|
  {
    hide CanHappen, Happen, Gone;
    if events != [] {
      GoneStays(n, events[0], k);
      GoneIsSilent(Happen(n, events[0]), events[1..], k);
    }
  }

  /** After a failed write nothing more is sent, whatever happens. */
  lemma {:induction false} FailedIsSilent<K>(n: Net<K>, events: seq<Event<K>>, k: K)
    requires NetOk(n) && CanRun(n, events) && k in n.clients && n.clients[k].failed
    ensures k in Run(n, events).clients && Run(n, events).clients[k].sent == n.clients[k].sent
  {
    hide DueTo, SnapshotOf, Run, CanRun;
    assert ClientOk(n.clients[k], n.published, k in n.live);
    GoneIsSilent(n, events, k);
  }
}
