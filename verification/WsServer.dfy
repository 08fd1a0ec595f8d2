/** The broadcast server and its sessions as classes (ws_server.cpp), each
    handler proved against a step of WsProtocol.dfy. */
module WsServer {
  import opened Orders
  import opened WsProtocol

  class WsSession {
    var queue: seq<Message>
    ghost var writing: bool
    ghost var sent: seq<Message>
    ghost var enqueued: seq<Message>
    ghost var failed: bool
    ghost var joined: nat

    ghost function Value(): Client
      reads this
    {
      Client(queue, writing, sent, enqueued, failed, joined)
    }

    constructor ()
      ensures Value() == NewClient(0)
    {
      queue, writing, sent, enqueued, failed, joined := [], false, [], [], false, 0;
    }

    /** Hands the front of the queue to the socket. */
    method DoWrite()
      requires |queue| > 0
      modifies this`writing
      ensures writing
    {
      writing := true;
    }

    method Push(m: Message)
      modifies this
      ensures Value() == Enqueue(old(Value()), m)
    {
      queue := queue + [m];
      enqueued := enqueued + [m];
      if |queue| == 1 { DoWrite(); }
    }

    /** The socket has taken the front of the queue. */
    method OnWritten()
      requires writing && |queue| > 0
      modifies this
      ensures Value() == Written(old(Value()))
    {
      sent := sent + [queue[0]];
      queue := queue[1..];
      writing := false;
      if |queue| > 0 { DoWrite(); }
    }
  }

  lemma {:induction false} QueueAllSnoc(c: Client, ms: seq<Message>, m: Message)
    ensures EnqueueAll(c, ms + [m]) == Enqueue(EnqueueAll(c, ms), m)
  {
    EnqueueAllShape(c, ms);
    EnqueueAllShape(c, ms + [m]);
    assert c.queue + (ms + [m]) == (c.queue + ms) + [m];
    assert c.enqueued + (ms + [m]) == (c.enqueued + ms) + [m];
  }

  class Server {
    var snapshot: Snapshot
    var sessions: set<WsSession>
    ghost var published: seq<Message>
    /** Every session that ever joined. */
    ghost var known: set<WsSession>

    ghost function State(): Net<WsSession>
      reads this, known
    {
      Net(snapshot, published, sessions, map s | s in known :: s.Value())
    }

    ghost predicate Valid()
      reads this, known
    {
      sessions <= known && NetOk(State())
    }

    constructor ()
      ensures Valid() && State() == Start() && known == {}
    {
      snapshot := NO_SNAPSHOT;
      sessions := {};
      published := [];
      known := {};
      new;
      StartOk<WsSession>();
    }

    /** Keeps what a late joiner needs. */
    method UpdateSnapshot(m: Message)
      modifies this`snapshot
      ensures snapshot == Update(old(snapshot), m)
    {
      match m.kind
      case Session => snapshot := snapshot.(session := Some(m));
      case Status => snapshot := snapshot.(status := Some(m));
      case Tick => snapshot := snapshot.(tick := Some(m));
      case Position => snapshot := snapshot.(position := Some(m));
      case Toxicity => snapshot := snapshot.(toxicity := Some(m));
      case MarketColor => snapshot := snapshot.(color := Some(m));
      case OrderEvent => {}
      case Fill =>
        var fills := snapshot.fills + [m];
        ghost var all := fills;
        while |fills| > MAX_FILLS
          invariant |fills| <= |all| && fills == all[|all| - |fills|..]
          invariant |fills| >= MAX_FILLS || fills == all
          decreases |fills|
        {
          fills := fills[1..];
        }
        snapshot := snapshot.(fills := fills);
    }

    /** Queues a message for a set of sessions, in no particular order. */
    static method PushToAll(live: set<WsSession>, m: Message)
      modifies live
      ensures forall s :: s in live ==> s.Value() == Enqueue(old(s.Value()), m)
    {
      hide Enqueue;
      var rest := live;
      while rest != {}
        invariant rest <= live
        invariant forall s :: s in rest ==> s.Value() == old(s.Value())
        invariant forall s :: s in live && s !in rest ==> s.Value() == Enqueue(old(s.Value()), m)
        decreases |rest|
      {
        var s :| s in rest;
        rest := rest - {s};
        s.Push(m);
      }
    }

    /** Stores the message and queues it for every session. */
    method Publish(m: Message)
      requires Valid()
      modifies this, sessions
      ensures Valid() && State() == Broadcast(old(State()), m)
      ensures known == old(known) && sessions == old(sessions)
    {
      hide Enqueue, Update, NetOk;
      ghost var before := State();
      BroadcastKeeps(before, m);
      UpdateSnapshot(m);
      published := published + [m];
      PushToAll(sessions, m);
      assert State().clients == Broadcast(before, m).clients;
    }

    /** Queues one part of the snapshot, if there is one. */
    static method ReplayOne(s: WsSession, m: Option<Message>, ghost c: Client, ghost done: seq<Message>)
      requires s.Value() == EnqueueAll(c, done)
      modifies s
      ensures s.Value() == EnqueueAll(c, done + Present(m))
    {
      hide Enqueue;
      if m.Some? {
        QueueAllSnoc(c, done, m.value);
        s.Push(m.value);
      } else {
        assert done + [] == done;
      }
    }

    static method ReplayFills(s: WsSession, fills: seq<Message>, ghost c: Client, ghost done: seq<Message>)
      requires s.Value() == EnqueueAll(c, done)
      modifies s
      ensures s.Value() == EnqueueAll(c, done + fills)
    {
      hide Enqueue;
      assert done + fills[..0] == done;
      for i := 0 to |fills|
        invariant s.Value() == EnqueueAll(c, done + fills[..i])
      {
        QueueAllSnoc(c, done + fills[..i], fills[i]);
        assert done + fills[..i + 1] == done + fills[..i] + [fills[i]];
        s.Push(fills[i]);
      }
      assert fills[..|fills|] == fills;
    }

    /** Queues the snapshot for a newcomer: session, status, tick, fills,
        position, toxicity, market colour. */
    method ReplayTo(s: WsSession)
      modifies s
      ensures s.Value() == EnqueueAll(old(s.Value()), Replay(snapshot))
    {
      hide Enqueue, Present, EnqueueAll;
      ghost var c := s.Value();
      NothingQueued(c);
      ghost var done := [];
      ReplayOne(s, snapshot.session, c, done);
      done := done + Present(snapshot.session);
      ReplayOne(s, snapshot.status, c, done);
      done := done + Present(snapshot.status);
      ReplayOne(s, snapshot.tick, c, done);
      done := done + Present(snapshot.tick);
      ReplayFills(s, snapshot.fills, c, done);
      done := done + snapshot.fills;
      ReplayOne(s, snapshot.position, c, done);
      done := done + Present(snapshot.position);
      ReplayOne(s, snapshot.toxicity, c, done);
      done := done + Present(snapshot.toxicity);
      ReplayOne(s, snapshot.color, c, done);
      assert done + Present(snapshot.color) == Replay(snapshot);
    }

    /** The handshake of a session is done: it is sent the snapshot and joins
        the broadcast. */
    method AddSession(s: WsSession)
      requires Valid() && s !in known && s.Value() == NewClient(0)
      modifies this, s
      ensures Valid() && State() == WsProtocol.AddSession(old(State()), s)
      ensures known == old(known) + {s}
    {
      hide NetOk, Replay, EnqueueAll;
      ghost var before := State();
      JoinKeeps(before, s);
      s.joined := |published|;
      ReplayTo(s);
      sessions := sessions + {s};
      known := known + {s};
      assert State().clients == WsProtocol.AddSession(before, s).clients;
    }

    /** A session is gone: it is not broadcast to any more. */
    method RemoveSession(s: WsSession)
      requires Valid()
      modifies this`sessions
      ensures Valid() && State() == Happen(old(State()), Leave(s))
    {
      hide NetOk;
      ghost var before := State();
      HappenKeeps(before, Leave(s));
      sessions := sessions - {s};
      assert State().clients == before.clients;
    }

    /** The completion handler of a write. After an error the session is removed
        and its queue is left as it is. */
    method WriteCompleted(s: WsSession, error: bool)
      requires Valid() && s in known && s.writing && |s.queue| > 0
      modifies this`sessions, s
      ensures Valid() && known == old(known)
      ensures State() == Happen(old(State()), if error then WriteFailed(s) else WriteDone(s))
    {
      hide NetOk;
      ghost var before := State();
      HappenKeeps(before, if error then WriteFailed(s) else WriteDone(s));
      if error {
        sessions := sessions - {s};
        s.writing, s.failed := false, true;
      } else {
        s.OnWritten();
      }
      assert State().clients == Happen(before, if error then WriteFailed(s) else WriteDone(s)).clients;
    }
  }

  lemma {:induction false} NothingQueued(c: Client)
    ensures EnqueueAll(c, []) == c
  {
  }
}
