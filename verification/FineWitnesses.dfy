/**
 Reachable states of the interleaved server that show where a guarantee stops: a refused row that is marked
 all the same, a send that panics, a status that falls, a notice that overtakes, and a pair with two chats.
 */
module FineWitnesses {
  import opened ChatTypes
  import opened HubSpec
  import opened DbSpec
  import opened Interleaving
  import opened Scenes
  import EntryPhases
  import InterleavedHub
  import InterleavedReceipts
  import Store
  import StoreRuns

  // ---- a backlog whose last row is refused

  const CLIENT: Key := (0, 0)

  /** Messages of user 1 to user 2, the first d of them delivered. */
  function Rows(r: nat, d: nat): seq<DbSpec.Row> {
    seq(r, k => DbSpec.Row(0, 1, "hi", if k < d then Delivered else Sent, k))
  }

  function Tables(r: nat, d: nat): Db {
    Db(1, {(0, 1), (0, 2)}, Rows(r, d))
  }

  /** User 1 has written r messages to user 2, who has not connected yet. */
  ghost predicate Backlogged(f: Fine, r: nat) {
    && Alive(f) && f.db == Tables(r, 0) && f.hubs[0] == EMPTY_HUB
    && f.own == map[] && f.others == map[] && f.readAt == map[]
  }

  lemma FirstChat() returns (f: Fine)
    ensures Backlogged(f, 0)
  {
    var a := InitAlive();
    var b := Starts(a, [FindChat(1, 2, 0, "hi")]);
    assert Matches(EMPTY_DB, 1, 2) == {};
    assert [FindChat(1, 2, 0, "hi")] + [] == [FindChat(1, 2, 0, "hi")];
    hide Alive;
    var c := Takes(b, 0, FindChat(1, 2, 0, "hi"), [], ANY);
    f := Takes(c, 0, MakeChat(1, 2, 0, "hi", b.clock), [], ANY);
    assert f.db.members == {(0, 1), (0, 2)};
    assert Rows(0, 0) == [];
  }

  lemma OneMore(f: Fine, r: nat) returns (g: Fine)
    requires Backlogged(f, r)
    ensures Backlogged(g, r + 1)
  {
    var t := |f.threads|;
    var b := Starts(f, [FindChat(1, 2, 0, "hi")]);
    assert 0 in Matches(f.db, 1, 2);
    var find, insert := FindChat(1, 2, 0, "hi"), Insert(0, 1, 2, 0, "hi");
    assert [find] + [] == [find] && [insert] + [] == [insert];
    hide Alive, Matches, Rows;
    var c := Takes(b, t, find, [], ANY);
    g := Takes(c, t, insert, [], Choice(0, [], r, true));
    assert g.db.rows == Rows(r + 1, 0) by { RowsGrow(r); }
  }

  lemma RowsGrow(r: nat)
    ensures Rows(r, 0) + [DbSpec.Row(0, 1, "hi", Sent, r)] == Rows(r + 1, 0)
  {}

  lemma {:induction false} Backlog(r: nat) returns (f: Fine)
    ensures Backlogged(f, r)
  {
    if r == 0 {
      f := FirstChat();
    } else {
      var a := Backlog(r - 1);
      f := OneMore(a, r - 1);
    }
  }

  /** One open connection, of user 2, with n packets on its queue and no copy of a row from d on in the log. */
  predicate Holds(h: HubState, n: nat, d: nat) {
    && h.clients == map[2 := 0] && |h.chans| == 1 && h.chans[0].user == 2
    && !h.chans[0].closed && |h.chans[0].queue| == n
    && NoCopyFrom(h.log, d)
  }

  predicate NoCopyFrom(log: seq<Accept>, d: nat) {
    forall k | 0 <= k < |log| && log[k].packet.Message? :: log[k].packet.mid < d
  }

  /** User 2's hook waits for its query while q other packets have been queued. */
  ghost predicate Filling(f: Fine, t: nat, r: nat, q: nat) {
    && Alive(f) && f.db == Tables(r, 0) && Holds(f.hubs[0], q, 0)
    && t < |f.threads| && f.threads[t].todo == [QueryPending(2, 0)]
    && f.readAt == map[] && Get(f.own, CLIENT) == 0 && Get(f.others, CLIENT) == q
  }

  lemma HookWaits(f: Fine, r: nat) returns (g: Fine)
    requires Backlogged(f, r)
    ensures Filling(g, |f.threads|, r, 0)
  {
    g := Registers(f, 2);
    assert map[][2 := 0] == map[2 := 0];
  }

  lemma EnqueueHolds(h: HubState, n: nat, d: nat, p: Packet, d': nat)
    requires Holds(h, n, d) && n < CAPACITY && d <= d' && (p.Message? ==> p.mid < d')
    ensures Offer(h, 0) == Accepted && Holds(HubSpec.Enqueue(h, 0, p), n + 1, d')
  {}

  /** Any other send to user 2: typing, presence, a receipt, a group message. */
  lemma OneMorePacket(f: Fine, t: nat, r: nat, q: nat) returns (g: Fine)
    requires Filling(f, t, r, q) && q < CAPACITY
    ensures Filling(g, t, r, q + 1)
  {
    var n := |f.threads|;
    var send := Lookup(2, Other(Pong), Plain);
    var a := Starts(f, [send]);
    assert [send] + [] == [send];
    hide Alive, Holds, HubSpec.Enqueue, Rows;
    HoldsMap(f.hubs[0], q, 0);
    var b := TakesLookup(a, n, 2, Other(Pong), Plain, []);
    EnqueueHolds(b.hubs[0], q, 0, Other(Pong), 0);
    g := TakesEnqueue(b, n, 0, Other(Pong), Plain, a.clock, []);
  }

  lemma HoldsMap(h: HubState, n: nat, d: nat)
    requires Holds(h, n, d)
    ensures 2 in h.clients && h.clients[2] == 0 && |h.chans| == 1
  {}

  lemma {:induction false} Fill(f: Fine, t: nat, r: nat, q: nat) returns (g: Fine)
    requires Filling(f, t, r, 0) && q <= CAPACITY
    ensures Filling(g, t, r, q)
    decreases q
  {
    if q == 0 {
      g := f;
    } else {
      var a := Fill(f, t, r, q - 1);
      g := OneMorePacket(a, t, r, q - 1);
    }
  }

  function Ids(d: nat, r: nat): seq<MsgId>
    requires d <= r
  {
    seq(r - d, k => d + k)
  }

  /** The hook has offered and marked d rows. */
  ghost predicate Looping(f: Fine, t: nat, r: nat, q: nat, d: nat, since: nat) {
    && d <= r && Alive(f) && f.db == Tables(r, d) && Holds(f.hubs[0], q + d, d)
    && t < |f.threads| && f.readAt == map[] && Get(f.own, CLIENT) == d && Get(f.others, CLIENT) == q
    && f.threads[t].todo == [HookLoop(0, 2, Ids(d, r), since)]
  }

  lemma RowPends(r: nat, m: int)
    ensures IsPending(Tables(r, 0), 2, m) <==> 0 <= m < r
  {}

  lemma AllPend(r: nat)
    requires r <= PENDING_LIMIT
    ensures ValidIds(Tables(r, 0), Ids(0, r)) && IsPendingBatch(Tables(r, 0), 2, Ids(0, r))
  {
    var db, ids := Tables(r, 0), Ids(0, r);
    forall m: int ensures IsPending(db, 2, m) <==> 0 <= m < r { RowPends(r, m); }
    hide IsPending;
    forall m: int ensures m in Pending(db, 2) <==> m in Upto(r) {}
    assert Pending(db, 2) == Upto(r);
    forall m | 0 <= m < r ensures m in ids { assert ids[m] == m; }
  }

  function Upto(r: nat): (s: set<int>)
    ensures |s| == r && forall k :: k in s <==> 0 <= k < r
  {
    if r == 0 then {} else Upto(r - 1) + {r - 1}
  }

  lemma Queries(f: Fine, t: nat, r: nat, q: nat) returns (g: Fine)
    requires Filling(f, t, r, q) && r <= PENDING_LIMIT
    ensures Looping(g, t, r, q, 0, f.clock)
  {
    AllPend(r);
    hide Alive, Holds, IsPendingBatch, Tables, Ids;
    HoldsMap(f.hubs[0], q, 0);
    g := TakesQuery(f, t, 2, 0, Ids(0, r));
  }

  lemma IdsRest(d: nat, r: nat)
    requires d < r
    ensures Ids(d, r) != [] && Ids(d, r)[0] == d && Ids(d, r)[1..] == Ids(d + 1, r)
    ensures ValidIds(Tables(r, d), Ids(d, r))
  {}

  lemma RowMarked(r: nat, d: nat)
    requires d < r
    ensures UpdateStatus(Tables(r, d), d, Delivered) == Tables(r, d + 1)
    ensures PacketOf(Tables(r, d), d) == Message(d, 1, "hi", d)
  {
    assert Rows(r, d)[d := Rows(r, d)[d].(status := Delivered)] == Rows(r, d + 1);
  }

  /** The hook turns to the next row and looks its user up. */
  lemma TurnsTo(f: Fine, t: nat, r: nat, q: nat, d: nat, since: nat) returns (g: Fine, at: nat)
    requires Looping(f, t, r, q, d, since) && d < r
    ensures Alive(g) && SameRest(f, g) && t < |g.threads|
    ensures g.threads[t].todo == [Enqueue(0, Message(d, 1, "hi", d), Replay(0, d), at)]
                               + [Mark(d, Delivered, since), HookLoop(0, 2, Ids(d + 1, r), since)]
  {
    hide Alive, Tables, Ids, Holds, ValidIds, PacketOf;
    IdsRest(d, r);
    RowMarked(r, d);
    AliveIs(f);
    HoldsMap(f.hubs[0], q + d, d);
    var a := TakesLoop(f, t, 0, 2, Ids(d, r), since);
    at := a.clock;
    var rest := [Mark(d, Delivered, since), HookLoop(0, 2, Ids(d + 1, r), since)];
    g := TakesLookup(a, t, 2, Message(d, 1, "hi", d), Replay(0, d), rest);
  }

  /** A row with room for it: offered, then marked. */
  lemma AcceptedRow(f: Fine, t: nat, p: Packet, row: MsgId, at: nat, since: nat, loop: Op) returns (g: Fine)
    requires Alive(f) && t < |f.threads| && |f.hubs[0].chans| == 1 && Offer(f.hubs[0], 0) == Accepted
    requires f.threads[t].todo == [Enqueue(0, p, Replay(0, row), at)] + [Mark(row, Delivered, since), loop]
    ensures Alive(g) && t < |g.threads| && g.threads[t].todo == [loop]
    ensures g.db == UpdateStatus(f.db, row, Delivered) && g.readAt == f.readAt
    ensures g.hubs[0] == HubSpec.Enqueue(f.hubs[0], 0, p)
    ensures Get(g.own, CLIENT) == Get(f.own, CLIENT) + 1 && g.others == f.others
  {
    hide Alive, UpdateStatus, HubSpec.Enqueue, Get;
    AliveIs(f);
    var mark := Mark(row, Delivered, since);
    assert [] + [mark, loop] == [mark] + [loop];
    var b := TakesEnqueue(f, t, 0, p, Replay(0, row), at, [mark, loop]);
    assert Get(b.own, CLIENT) == Get(f.own, CLIENT) + 1 by { BumpGet(f.own, CLIENT); }
    g := TakesMark(b, t, row, Delivered, since, [loop]);
  }

  lemma BumpGet(m: map<Key, nat>, k: Key)
    ensures Get(Bump(m, k), k) == Get(m, k) + 1
  {}

  /** The same where the queue has room, the rest of the scene kept. */
  lemma RowTaken(f: Fine, t: nat, n: nat, p: Packet, d: nat, at: nat, since: nat, loop: Op) returns (g: Fine)
    requires Alive(f) && t < |f.threads| && |f.hubs| == 1 && Holds(f.hubs[0], n, d) && n < CAPACITY
    requires p.Message? && p.mid == d
    requires f.threads[t].todo == [Enqueue(0, p, Replay(0, d), at)] + [Mark(d, Delivered, since), loop]
    ensures Alive(g) && t < |g.threads| && |g.hubs| == 1 && g.threads[t].todo == [loop]
    ensures Holds(g.hubs[0], n + 1, d + 1)
    ensures g.db == UpdateStatus(f.db, d, Delivered) && g.readAt == f.readAt
    ensures Get(g.own, CLIENT) == Get(f.own, CLIENT) + 1 && g.others == f.others
  {
    hide Alive, Holds, HubSpec.Enqueue, UpdateStatus, Get;
    EnqueueHolds(f.hubs[0], n, d, p, d + 1);
    HoldsMap(f.hubs[0], n, d);
    g := AcceptedRow(f, t, p, d, at, since, loop);
    AliveIs(g);
  }

  /** The hook has found its connection for row d. */
  ghost predicate Turned(f: Fine, t: nat, r: nat, q: nat, d: nat, since: nat, at: nat) {
    && d < r && Alive(f) && |f.hubs| == 1 && f.db == Tables(r, d) && Holds(f.hubs[0], q + d, d)
    && t < |f.threads| && f.readAt == map[] && Get(f.own, CLIENT) == d && Get(f.others, CLIENT) == q
    && f.threads[t].todo == [Enqueue(0, Message(d, 1, "hi", d), Replay(0, d), at)]
                          + [Mark(d, Delivered, since), HookLoop(0, 2, Ids(d + 1, r), since)]
  }

  lemma RowTurned(f: Fine, t: nat, r: nat, q: nat, d: nat, since: nat) returns (g: Fine, at: nat)
    requires Looping(f, t, r, q, d, since) && d < r
    ensures Turned(g, t, r, q, d, since, at)
  {
    hide Alive, Tables, Ids, Holds, Get;
    g, at := TurnsTo(f, t, r, q, d, since);
    AliveIs(g);
  }

  lemma OneMoreRow(f: Fine, t: nat, r: nat, q: nat, d: nat, since: nat, at: nat) returns (g: Fine)
    requires Turned(f, t, r, q, d, since, at) && q + d < CAPACITY
    ensures Looping(g, t, r, q, d + 1, since)
  {
    hide Alive, Tables, Ids, Holds, UpdateStatus, Get;
    g := RowTaken(f, t, q + d, Message(d, 1, "hi", d), d, at, since, HookLoop(0, 2, Ids(d + 1, r), since));
    RowMarked(r, d);
  }

  lemma {:induction false} LoopTo(f: Fine, t: nat, r: nat, q: nat, d: nat, since: nat) returns (g: Fine)
    requires Looping(f, t, r, q, 0, since) && d <= r && q + d <= CAPACITY
    ensures Looping(g, t, r, q, d, since)
    decreases d
  {
    hide Looping, Turned;
    if d == 0 {
      g := f;
    } else {
      var a := LoopTo(f, t, r, q, d - 1, since);
      var b, at := RowTurned(a, t, r, q, d - 1, since);
      g := OneMoreRow(b, t, r, q, d - 1, since, at);
    }
  }

  /**
   The last of r rows was offered once, by its receiver's only hook, after q other packets had been offered to
   that connection. No queue took it, nobody acknowledged it, and it is no longer pending.
   */
  ghost predicate Unseen(f: Fine, r: nat, q: nat) {
    && Reachable(f) && |f.hubs| == 1 && |f.db.rows| == r > 0
    && Get(f.own, CLIENT) == r && Get(f.others, CLIENT) == q
    && f.db.rows[r - 1].status == Delivered && f.readAt == map[]
    && NoCopyFrom(f.hubs[0].log, r - 1)
  }

  /** A row refused by a full queue: the connection is closed, and the row is marked all the same. */
  lemma RefusedRow(f: Fine, t: nat, p: Packet, row: MsgId, at: nat, since: nat, loop: Op) returns (g: Fine)
    requires Alive(f) && t < |f.threads| && |f.hubs[0].chans| == 1 && Offer(f.hubs[0], 0) == Full
    requires f.threads[t].todo == [Enqueue(0, p, Replay(0, row), at)] + [Mark(row, Delivered, since), loop]
    ensures Alive(g) && g.db == UpdateStatus(f.db, row, Delivered) && g.readAt == f.readAt
    ensures g.hubs[0].log == f.hubs[0].log
    ensures Get(g.own, CLIENT) == Get(f.own, CLIENT) + 1 && g.others == f.others
  {
    hide Alive, UpdateStatus, Unregister, Get;
    AliveIs(f);
    var mark := Mark(row, Delivered, since);
    var b := TakesRefused(f, t, p, row, at, [mark, loop]);
    AliveIs(b);
    var c := Takes(b, t, Evict(0), [mark, loop], ANY);
    AliveIs(c);
    assert [mark, loop] == [mark] + [loop];
    g := TakesMark(c, t, row, Delivered, since, [loop]);
    EvictLog(b.hubs[0]);
  }

  lemma LastRefused(f: Fine, t: nat, r: nat, q: nat, since: nat) returns (g: Fine)
    requires 0 < r && Looping(f, t, r, q, r - 1, since) && q + r - 1 == CAPACITY
    ensures Unseen(g, r, q)
  {
    hide Alive, Tables, Ids, Holds, UpdateStatus, NoCopyFrom;
    var d := r - 1;
    var a, at := TurnsTo(f, t, r, q, d, since);
    AliveIs(a);
    HoldsFull(a.hubs[0], d);
    g := RefusedRow(a, t, Message(d, 1, "hi", d), d, at, since, HookLoop(0, 2, Ids(r, r), since));
    RowMarked(r, d);
    AliveIs(g);
    LastMarked(r);
  }

  lemma HoldsFull(h: HubState, d: nat)
    requires Holds(h, CAPACITY, d)
    ensures |h.chans| == 1 && Offer(h, 0) == Full && NoCopyFrom(h.log, d)
  {}

  lemma TakesRefused(f: Fine, t: nat, p: Packet, row: MsgId, at: nat, rest: seq<Op>) returns (g: Fine)
    requires Alive(f) && t < |f.threads| && f.threads[t].todo == [Enqueue(0, p, Replay(0, row), at)] + rest
    requires |f.hubs[0].chans| == 1 && Offer(f.hubs[0], 0) == Full
    ensures Alive(g) && OthersWait(f, g, t) && g.db == f.db && g.readAt == f.readAt && g.hubs[0] == f.hubs[0]
    ensures g.threads[t].todo == [Evict(0)] + rest
    ensures Get(g.own, CLIENT) == Get(f.own, CLIENT) + 1 && g.others == f.others
  {
    hide Alive, Get;
    BumpGet(f.own, CLIENT);
    g := Takes(f, t, Enqueue(0, p, Replay(0, row), at), rest, ANY);
    assert [Evict(0)] + [] + rest == [Evict(0)] + rest;
  }

  lemma EvictLog(h: HubState)
    requires |h.chans| == 1
    ensures Unregister(h, 0).log == h.log
  {}

  lemma AliveIs(f: Fine)
    requires Alive(f)
    ensures Reachable(f) && |f.hubs| == 1
  {}

  lemma LastMarked(r: nat)
    requires r > 0
    ensures |Tables(r, r).rows| == r && Tables(r, r).rows[r - 1].status == Delivered
  {}

  /**
   The bound on the other sends is exact: for each backlog of at most a hundred rows there is a run with 257 - r
   other sends (157 for a full batch) that leaves the last row marked delivered though no queue ever took it.
   */
  lemma RefusedAndMarked(r: nat)
    requires 0 < r <= PENDING_LIMIT
    ensures exists f, q :: q + r == CAPACITY + 1 && Unseen(f, r, q)
  {
    hide Filling, Looping, Unseen, Backlogged;
    var q := CAPACITY + 1 - r;
    var a := Backlog(r);
    var b := HookWaits(a, r);
    var t := |a.threads|;
    var c := Fill(b, t, r, q);
    var d := Queries(c, t, r, q);
    var e := LoopTo(d, t, r, q, r - 1, c.clock);
    var f := LastRefused(e, t, r, q, c.clock);
  }

  // ---- a send that panics

  lemma NoRowsPending(user: UserId)
    ensures Pending(EMPTY_DB, user) == {}
  {}

  lemma OneConnected(user: UserId) returns (f: Fine)
    ensures Alive(f) && f.db == EMPTY_DB && f.hubs[0] == Idle(user)
  {
    hide Alive, Idle;
    var a := InitAlive();
    AliveIs(a);
    NoRowsPending(user);
    FirstIsIdle(user);
    f := Connects(a, user);
  }

  /** Thread t is about to send on a queue that is closed. */
  ghost predicate Panicking(f: Fine, t: nat) {
    && Alive(f) && t < |f.threads| && f.threads[t].todo != [] && InRange(f.hubs[0], f.db, f.threads[t].todo[0])
    && Kills(f.hubs[0], f.db, f.threads[t].todo)
  }

  /** A send to the user has found his connection. */
  ghost predicate Found(f: Fine, t: nat, user: UserId, todo: seq<Op>) {
    Alive(f) && f.db == EMPTY_DB && f.hubs[0] == Idle(user) && t < |f.threads| && f.threads[t].todo == todo
  }

  lemma SendFound(user: UserId) returns (f: Fine, t: nat, at: nat)
    ensures Found(f, t, user, [Enqueue(0, Other(Pong), Plain, at)])
  {
    hide Alive;
    var a := OneConnected(user);
    AliveIs(a);
    t := |a.threads|;
    var send := Lookup(user, Other(Pong), Plain);
    assert [send] + [] == [send];
    var b := Starts(a, [send]);
    at := b.clock;
    f := TakesLookup(b, t, user, Other(Pong), Plain, []);
    assert [Enqueue(0, Other(Pong), Plain, at)] + [] == [Enqueue(0, Other(Pong), Plain, at)];
  }

  /** The reader of the connection ends before its enqueue. */
  lemma CloseUnderSend(f: Fine, t: nat, user: UserId, op: Op) returns (g: Fine)
    requires Found(f, t, user, [op]) && op.Enqueue? && op.client == 0
    ensures Panicking(g, t)
  {
    hide Alive, OthersWait, EndReader, Idle;
    AliveIs(f);
    var end := EndRead(0);
    assert [end] + [] == [end];
    IdleEnds(user);
    var d := Starts(f, [end]);
    g := Takes(d, |f.threads|, end, [], ANY);
    Waits(d, g, |f.threads|);
    AliveIs(g);
    AliveIs(d);
  }

  lemma IdleEnds(user: UserId)
    ensures |Idle(user).chans| == 1 && Idle(user).chans[0].reader == Running
    ensures |EndReader(Idle(user), 0).chans| == 1 && EndReader(Idle(user), 0).chans[0].closed
  {}

  lemma Waits(f: Fine, g: Fine, t: nat)
    requires OthersWait(f, g, t)
    ensures |g.threads| == |f.threads| && forall u | 0 <= u < |f.threads| && u != t :: g.threads[u] == f.threads[u]
  {}

  /** A run in which a send panics and ends the instance, the hub's lock notwithstanding. */
  lemma SendCanPanic()
    ensures exists es :: FineRun(FineInit(1), es).dead == {0}
  {
    hide Alive;
    var a, t, at := SendFound(1);
    var f := CloseUnderSend(a, t, 1, Enqueue(0, Other(Pong), Plain, at));
    AliveIs(f);
    LastPanics(f, t);
    var es :| FineRun(FineInit(1), es) == f;
    RunThenStep(FineInit(1), es, Take(t, ANY));
    hide FineStep, FineRun;
    assert FineRun(FineInit(1), es + [Take(t, ANY)]).dead == {0};
  }

  lemma LastPanics(f: Fine, t: nat)
    requires Panicking(f, t)
    ensures FineStep(f, Take(t, ANY)).dead == {0}
  {
    hide Reachable, HookOf;
    assert f.threads[t].todo == [f.threads[t].todo[0]] + f.threads[t].todo[1..];
    assert Ready(f, t, ANY);
    assert {} + {0} == {0};
  }

  // ---- a late status write, and a notice that overtakes

  const COPY := Message(0, 1, "hi", 0)
  const NOTICE := ReadNotice(0)
  const ACK := SentAck(0, 7)

  predicate Open(ch: Channel, user: UserId, queue: seq<Packet>, written: seq<Packet>) {
    && ch.user == user && ch.queue == queue && ch.written == written
    && !ch.closed && ch.writer == Running && ch.reader == Running
  }

  /** Users 1 and 2 are connected and their hooks are done. */
  predicate Two(h: HubState, queue: seq<Packet>, queue2: seq<Packet>, written2: seq<Packet>) {
    && 1 in h.clients && 2 in h.clients && h.clients[1] == 0 && h.clients[2] == 1 && |h.chans| == 2
    && Open(h.chans[0], 1, queue, []) && Open(h.chans[1], 2, queue2, written2)
  }

  const MADE := Db(1, {(0, 1), (0, 2)}, [])

  function Single(status: Status): Db {
    MADE.(rows := [DbSpec.Row(0, 1, "hi", status, 0)])
  }

  lemma TwoConnected() returns (f: Fine)
    ensures Alive(f) && f.db == EMPTY_DB && Two(f.hubs[0], [], [], [])
  {
    hide Alive, Idle;
    var a := OneConnected(1);
    AliveIs(a);
    NoRowsPending(2);
    f := Connects(a, 2);
    IdleAndSecond();
  }

  lemma IdleAndSecond()
    ensures |Idle(1).chans| == 1 && Two(StartPumps(Register(Idle(1), 2), 1), [], [], [])
  {}

  /** User 1 has begun to write to user 2, up to the given steps. */
  ghost predicate Writing(f: Fine, t: nat, db: Db, queue: seq<Packet>, queue2: seq<Packet>, written2: seq<Packet>,
                          todo: seq<Op>)
  {
    && Alive(f) && f.db == db && Two(f.hubs[0], queue, queue2, written2)
    && t < |f.threads| && f.threads[t].todo == todo
  }

  lemma ChatMade(f: Fine) returns (g: Fine, t: nat)
    requires Alive(f) && f.db == EMPTY_DB && Two(f.hubs[0], [], [], [])
    ensures Writing(g, t, MADE, [], [], [], [Insert(0, 1, 2, 7, "hi")])
  {
    hide Alive, Two;
    AliveIs(f);
    t := |f.threads|;
    var find := FindChat(1, 2, 7, "hi");
    var a := Starts(f, [find]);
    AliveIs(a);
    var make := MakeChat(1, 2, 7, "hi", a.clock);
    assert Matches(EMPTY_DB, 1, 2) == {};
    hide Matches;
    var insert := Insert(0, 1, 2, 7, "hi");
    assert [find] + [] == [find] && [make] + [] == [make] && [insert] + [] == [insert];
    var b := Takes(a, t, find, [], ANY);
    AliveIs(b);
    g := Takes(b, t, make, [], ANY);
    AliveIs(g);
    assert {} + {(0, 1), (0, 2)} == {(0, 1), (0, 2)};
  }

  lemma RowInserted(f: Fine, t: nat) returns (g: Fine, since: nat)
    requires Writing(f, t, MADE, [], [], [], [Insert(0, 1, 2, 7, "hi")])
    ensures Writing(g, t, Single(Sent), [], [], [], [Lookup(2, COPY, DmCopy(0, since)), Lookup(1, ACK, Plain)])
  {
    hide Alive, Two;
    AliveIs(f);
    var insert := Insert(0, 1, 2, 7, "hi");
    since := f.clock;
    assert [insert] + [] == [insert];
    g := Takes(f, t, insert, [], ANY);
    AliveIs(g);
    assert [] + [DbSpec.Row(0, 1, "hi", Sent, 0)] == [DbSpec.Row(0, 1, "hi", Sent, 0)];
  }

  lemma CopyQueued(f: Fine, t: nat, since: nat) returns (g: Fine)
    requires Writing(f, t, Single(Sent), [], [], [], [Lookup(2, COPY, DmCopy(0, since)), Lookup(1, ACK, Plain)])
    ensures Writing(g, t, Single(Sent), [], [COPY], [], [Mark(0, Delivered, since), Lookup(1, ACK, Plain)])
  {
    hide Alive, Two, HubSpec.Enqueue, OthersWait;
    AliveIs(f);
    TwoFinds(f.hubs[0], [], [], []);
    var rest := [Lookup(1, ACK, Plain)];
    assert [Lookup(2, COPY, DmCopy(0, since)), Lookup(1, ACK, Plain)] == [Lookup(2, COPY, DmCopy(0, since))] + rest;
    var a := TakesLookup(f, t, 2, COPY, DmCopy(0, since), rest);
    Waits(f, a, t);
    AliveIs(a);
    g := CopyAccepted(a, t, since, f.clock, rest);
    assert [] + [COPY] == [COPY];
  }

  lemma CopyAccepted(f: Fine, t: nat, since: nat, at: nat, rest: seq<Op>) returns (g: Fine)
    requires Alive(f) && t < |f.threads| && f.threads[t].todo == [Enqueue(1, COPY, DmCopy(0, since), at)] + rest
    requires |f.hubs| == 1 && |f.hubs[0].chans| == 2 && Offer(f.hubs[0], 1) == Accepted && |rest| == 1
    ensures Alive(g) && g.db == f.db && |g.hubs| == 1 && g.hubs[0] == HubSpec.Enqueue(f.hubs[0], 1, COPY)
    ensures t < |g.threads| && g.threads[t].todo == [Mark(0, Delivered, since), rest[0]]
  {
    hide Alive, HubSpec.Enqueue, OthersWait;
    g := TakesEnqueue(f, t, 1, COPY, DmCopy(0, since), at, rest);
    Waits(f, g, t);
    AliveIs(g);
    assert [Mark(0, Delivered, since)] + rest == [Mark(0, Delivered, since), rest[0]];
  }

  lemma TwoFinds(h: HubState, queue: seq<Packet>, queue2: seq<Packet>, written2: seq<Packet>)
    requires Two(h, queue, queue2, written2) && |queue| < 2 && |queue2| < 2
    ensures 1 in h.clients && h.clients[1] == 0 && 2 in h.clients && h.clients[2] == 1 && |h.chans| == 2
    ensures Offer(h, 0) == Accepted && Offer(h, 1) == Accepted
    ensures forall p :: Two(HubSpec.Enqueue(h, 0, p), queue + [p], queue2, written2)
    ensures forall p :: Two(HubSpec.Enqueue(h, 1, p), queue, queue2 + [p], written2)
  {}

  lemma TwoWrites(h: HubState, p: Packet)
    requires Two(h, [], [p], [])
    ensures CanWrite(h, 1) && Two(Write(h, 1, true), [], [], [p])
  {
    assert [p][1..] == [] && [] + [p] == [p];
  }

  /** The copy is on its way to the receiver before the handler has marked the row. */
  lemma CopyWritten(f: Fine, t: nat, since: nat) returns (g: Fine)
    requires Writing(f, t, Single(Sent), [], [COPY], [], [Mark(0, Delivered, since), Lookup(1, ACK, Plain)])
    ensures Writing(g, t, Single(Sent), [], [], [COPY], [Mark(0, Delivered, since), Lookup(1, ACK, Plain)])
  {
    hide Alive, Two, Write, CanWrite;
    AliveIs(f);
    TwoWrites(f.hubs[0], COPY);
    g := Drains(f, 1);
  }

  /** The receiver acknowledges it, and the sender is notified. */
  lemma AckedEarly(f: Fine, t: nat, since: nat) returns (g: Fine)
    requires Writing(f, t, Single(Sent), [], [], [COPY], [Mark(0, Delivered, since), Lookup(1, ACK, Plain)])
    ensures Writing(g, t, Single(Read), [NOTICE], [], [COPY], [Mark(0, Delivered, since), Lookup(1, ACK, Plain)])
  {
    hide Alive, Two;
    AliveIs(f);
    var u := |f.threads|;
    var mark, look := Mark(0, Read, 0), Lookup(1, NOTICE, Plain);
    var a := Starts(f, [mark, look]);
    assert [mark, look] == [mark] + [look] && [look] == [look] + [];
    var b := TakesMark(a, u, 0, Read, 0, [look]);
    assert b.db == Single(Read) by {
      assert Single(Sent).rows[0 := Single(Sent).rows[0].(status := Read)] == Single(Read).rows;
    }
    g := NoticeQueued(b, u, t);
  }

  lemma NoticeQueued(f: Fine, u: nat, t: nat) returns (g: Fine)
    requires Alive(f) && u < |f.threads| && f.threads[u].todo == [Lookup(1, NOTICE, Plain)] && t < u
    requires |f.hubs| == 1 && Two(f.hubs[0], [], [], [COPY])
    ensures Alive(g) && g.db == f.db && |g.hubs| == 1 && Two(g.hubs[0], [NOTICE], [], [COPY])
    ensures t < |g.threads| && g.threads[t] == f.threads[t]
  {
    hide Alive, Two, HubSpec.Enqueue, OthersWait;
    TwoFinds(f.hubs[0], [], [], [COPY]);
    assert [Lookup(1, NOTICE, Plain)] + [] == [Lookup(1, NOTICE, Plain)];
    var a := TakesLookup(f, u, 1, NOTICE, Plain, []);
    Waits(f, a, u);
    AliveIs(a);
    g := PlainQueued(a, u, NOTICE, f.clock);
    Waits(a, g, u);
    assert [] + [NOTICE] == [NOTICE];
  }

  lemma PlainQueued(f: Fine, u: nat, p: Packet, at: nat) returns (g: Fine)
    requires Alive(f) && u < |f.threads| && f.threads[u].todo == [Enqueue(0, p, Plain, at)] + []
    requires |f.hubs| == 1 && |f.hubs[0].chans| > 0 && Offer(f.hubs[0], 0) == Accepted
    ensures Alive(g) && g.db == f.db && |g.hubs| == 1 && g.hubs[0] == HubSpec.Enqueue(f.hubs[0], 0, p)
    ensures OthersWait(f, g, u)
  {
    hide Alive, HubSpec.Enqueue, OthersWait;
    g := TakesEnqueue(f, u, 0, p, Plain, at, []);
    AliveIs(g);
  }

  /** The acknowledgement has been handled, the handler's status write has not. */
  lemma LateWrite() returns (f: Fine, t: nat, since: nat)
    ensures Writing(f, t, Single(Read), [NOTICE], [], [COPY], [Mark(0, Delivered, since), Lookup(1, ACK, Plain)])
  {
    hide Writing;
    var a := TwoConnected();
    var b, t1 := ChatMade(a);
    t := t1;
    var c, s1 := RowInserted(b, t);
    since := s1;
    var d := CopyQueued(c, t, since);
    var e := CopyWritten(d, t, since);
    f := AckedEarly(e, t, since);
  }

  /**
   In a reachable state where both users are connected and the copy was written to the receiver's socket, the
   next step of thread t takes row m from `read` to `delivered`.
   */
  ghost predicate Falls(f: Fine, t: nat, m: nat) {
    && Reachable(f) && |f.hubs| == 1 && Ready(f, t, ANY)
    && |f.hubs[0].chans| == 2 && f.hubs[0].chans[1].reader == Running && COPY in f.hubs[0].chans[1].written
    && m < |f.db.rows| && f.db.rows[m].status == Read
    && m < |Exec(f, t, ANY).db.rows| && Exec(f, t, ANY).db.rows[m].status == Delivered
  }

  lemma LateFalls(f: Fine, t: nat, since: nat)
    requires Writing(f, t, Single(Read), [NOTICE], [], [COPY], [Mark(0, Delivered, since), Lookup(1, ACK, Plain)])
    ensures Falls(f, t, 0)
  {
    hide Reachable;
    assert Ready(f, t, ANY);
    assert f.threads[t].todo[0] == Mark(0, Delivered, since);
  }

  /** A run after which a handler's late write makes a row fall from `read` to `delivered`. */
  lemma StatusCanFall()
    ensures exists f, t :: Falls(f, t, 0)
  {
    hide Writing, Falls;
    var f, t, since := LateWrite();
    LateFalls(f, t, since);
  }

  /** The sender's connection shows the notice of his acknowledged message before its `sent`. */
  ghost predicate Overtaken(f: Fine) {
    && |f.hubs| == 1 && |f.hubs[0].chans| == 2
    && Open(f.hubs[0].chans[0], 1, [NOTICE, ACK], [])
    && |f.db.rows| == 1 && f.db.rows[0].sender == 1
  }

  lemma AckAfterNotice(f: Fine, t: nat, since: nat) returns (g: Fine)
    requires Writing(f, t, Single(Read), [NOTICE], [], [COPY], [Mark(0, Delivered, since), Lookup(1, ACK, Plain)])
    ensures Reachable(g) && Overtaken(g)
  {
    hide Alive, HubSpec.Enqueue;
    AliveIs(f);
    var look := Lookup(1, ACK, Plain);
    assert [Mark(0, Delivered, since), look] == [Mark(0, Delivered, since)] + [look] && [look] == [look] + [];
    var a := TakesMark(f, t, 0, Delivered, since, [look]);
    TwoFinds(a.hubs[0], [NOTICE], [], [COPY]);
    hide Two;
    var b := TakesLookup(a, t, 1, ACK, Plain, []);
    g := TakesEnqueue(b, t, 0, ACK, Plain, a.clock, []);
    AliveIs(g);
    assert [NOTICE] + [ACK] == [NOTICE, ACK];
    TwoOpen(g.hubs[0], [NOTICE, ACK], [], [COPY]);
  }

  lemma TwoOpen(h: HubState, queue: seq<Packet>, queue2: seq<Packet>, written2: seq<Packet>)
    requires Two(h, queue, queue2, written2)
    ensures |h.chans| == 2 && Open(h.chans[0], 1, queue, [])
  {}

  lemma OvertakenStream(es: seq<FineEvent>)
    requires Overtaken(FineRun(FineInit(1), es))
    ensures InterleavedReceipts.StreamOf(FineRun(FineInit(1), es), 0, 0) == [NOTICE, ACK]
  {
    var f := FineRun(FineInit(1), es);
    InterleavedReceipts.InitReceipts(1);
    InterleavedReceipts.RunKeepsReceipts(FineInit(1), es);
    InterleavedHub.HubOfFine(f, 0);
    WrittenIsPrefix(f.hubs[0], 0);
    hide FineRun, FineInit, HubOk, Project, InterleavedHub.HubInv;
    assert [] + [NOTICE, ACK] == [NOTICE, ACK];
  }

  /** By the exact condition, the notice was queued while the handler had its acknowledgement to send. */
  lemma OvertakenInGap(es: seq<FineEvent>)
    requires Overtaken(FineRun(FineInit(1), es))
    ensures InterleavedReceipts.NoticedWhileHeld(1, es, 0, 0, 0) && 0 in FineRun(FineInit(1), es).readAt
  {
    OvertakenStream(es);
    hide FineRun, FineInit, Overtaken, InterleavedReceipts.StreamOf;
    assert [NOTICE, ACK][0] == NOTICE && InterleavedReceipts.IsAck([NOTICE, ACK][1], 0);
    InterleavedReceipts.WrongIsNoticedWhileHeld(1, es, 0, 0, 0);
    var k :| InterleavedReceipts.NoticeAt(1, es, k, 0, 0, 0);
    assert 0 <= k < |es| by { InterleavedReceipts.QueuesInRun(1, es, k, 0, 0, NOTICE); }
    InterleavedReceipts.NoticeQueuedWasRead(1, es, k, 0, 0, 0);
    InterleavedReceipts.BeforeOk(1, es, k);
    InterleavedReceipts.RunKeepsReceipts(InterleavedReceipts.Before(1, es, k), es[k..]);
  }

  /** The sender's browser holds the message as composed, under its client id 7. */
  ghost predicate Composed(c: StoreRuns.Session, i: nat, k: nat) {
    && StoreRuns.StoreOk(c.store) && EntryPhases.OnlyAt(c.store, i, k, Store.Local(7))
    && EntryPhases.Nowhere(c.store, Store.Row(0))
  }

  function Arriving(ps: seq<Packet>): seq<StoreRuns.ClientEvent> {
    seq(|ps|, j requires 0 <= j < |ps| => StoreRuns.Arrives(ps[j]))
  }

  predicate StaysDelivered(s: Store.Conversations, i: nat, k: nat) {
    i < |s| && k < |s[i].msgs| && s[i].msgs[k].id == Store.Row(0) && s[i].msgs[k].status == Delivered
  }

  /** Any composed entry that takes the packets queued for connection 0, in their order, stays `delivered`. */
  ghost predicate ShowsDelivered(f: Fine) {
    && |f.hubs| == 1 && |f.hubs[0].chans| > 0
    && forall c: StoreRuns.Session, me, i: nat, k: nat | Composed(c, i, k) ::
         StaysDelivered(StoreRuns.ClientRun(c, me, Arriving(f.hubs[0].chans[0].queue)).store, i, k)
  }

  lemma NoticeFirst(c: StoreRuns.Session, me: UserId, i: nat, k: nat)
    requires Composed(c, i, k)
    ensures StaysDelivered(StoreRuns.ClientRun(c, me, Arriving([NOTICE, ACK])).store, i, k)
  {
    var es := Arriving([NOTICE, ACK]);
    var last := [StoreRuns.Arrives(ACK)];
    assert es == [StoreRuns.Arrives(NOTICE), StoreRuns.Arrives(ACK)];
    assert es[1..] == last && last[1..] == [];
    assert EntryPhases.Arrivals(last) == [ACK];
    assert EntryPhases.Arrivals(es) == [NOTICE] + EntryPhases.Arrivals(last) == [NOTICE, ACK];
    hide EntryPhases.Arrivals, EntryPhases.OnlyAt, EntryPhases.Nowhere, StoreRuns.ClientRun, StoreRuns.StoreOk,
      Arriving;
    EntryPhases.EntryEndsReadIff(c, me, es, i, k, 7, 0);
  }

  lemma OvertakenShows(f: Fine)
    requires Overtaken(f)
    ensures ShowsDelivered(f)
  {
    hide StaysDelivered, Composed, StoreRuns.ClientRun, Arriving;
    forall c: StoreRuns.Session, me, i: nat, k: nat | Composed(c, i, k)
      ensures StaysDelivered(StoreRuns.ClientRun(c, me, Arriving(f.hubs[0].chans[0].queue)).store, i, k)
    {
      NoticeFirst(c, me, i, k);
    }
  }

  /**
   The causal order of receipts needs one-step handlers. Some run of handlers cut at their locks has the row
   acknowledged and its notice queued while the storing handler had its `sent` to send; the sender's connection
   shows the notice first, and an entry that takes what that connection was given stays `delivered`.
   */
  lemma NoticeCanOvertake()
    ensures exists es :: var f := FineRun(FineInit(1), es);
              Overtaken(f) && 0 in f.readAt && InterleavedReceipts.NoticedWhileHeld(1, es, 0, 0, 0) && ShowsDelivered(f)
  {
    hide Writing, Overtaken, ShowsDelivered, FineRun, FineInit;
    var a, t, since := LateWrite();
    var f := AckAfterNotice(a, t, since);
    var es :| FineRun(FineInit(1), es) == f;
    OvertakenInGap(es);
    OvertakenShows(f);
  }

  // ---- racing lookups

  /** Two users look for their chat before either has made it. */
  ghost predicate Racing(f: Fine, db: Db, hers: Op, his: Op) {
    && Alive(f) && f.db == db && |f.threads| == 2
    && f.threads[0].todo == [hers] && f.threads[1].todo == [his]
  }

  lemma RaceStarts() returns (f: Fine)
    ensures Racing(f, EMPTY_DB, FindChat(1, 2, 7, "hi"), FindChat(2, 1, 8, "ho"))
  {
    hide Alive;
    var a := InitAlive();
    AliveIs(a);
    var b := Starts(a, [FindChat(1, 2, 7, "hi")]);
    AliveIs(b);
    f := Starts(b, [FindChat(2, 1, 8, "ho")]);
    AliveIs(f);
  }

  lemma RaceLooks(f: Fine, hers: Op, his: Op, t: nat) returns (g: Fine, make: Op)
    requires Racing(f, EMPTY_DB, hers, his) && t < 2
    requires var op := if t == 0 then hers else his; op.FindChat? && op.from != op.to
    ensures var op := if t == 0 then hers else his;
            make.MakeChat? && make.from == op.from && make.to == op.to
    ensures Racing(g, EMPTY_DB, if t == 0 then make else hers, if t == 1 then make else his)
  {
    hide Alive;
    AliveIs(f);
    var op := if t == 0 then hers else his;
    make := MakeChat(op.from, op.to, op.clientId, op.body, f.clock);
    assert Matches(EMPTY_DB, op.from, op.to) == {};
    assert [op] + [] == [op] && [make] + [] == [make];
    g := Takes(f, t, op, [], ANY);
  }

  lemma RaceMakes(f: Fine, db: Db, hers: Op, his: Op, t: nat) returns (g: Fine, insert: Op)
    requires Racing(f, db, hers, his) && t < 2
    requires var op := if t == 0 then hers else his; op.MakeChat? && op.from != op.to
    ensures var op := if t == 0 then hers else his;
            Racing(g, CreateChat(db, op.from, op.to).db, if t == 0 then insert else hers,
                   if t == 1 then insert else his)
  {
    hide Alive;
    AliveIs(f);
    var op := if t == 0 then hers else his;
    insert := Insert(db.chatCount, op.from, op.to, op.clientId, op.body);
    assert [op] + [] == [op] && [insert] + [] == [insert];
    g := Takes(f, t, op, [], ANY);
  }

  function OneChat(): Db {
    CreateChat(EMPTY_DB, 1, 2).db
  }

  function TwoChats(): Db {
    CreateChat(OneChat(), 2, 1).db
  }

  /** A reachable state in which one pair has two chats, each with exactly the two members. */
  lemma LookupsCanRace()
    ensures exists f ::
              Reachable(f) && MembersOf(f.db, 0) == {1, 2} && MembersOf(f.db, 1) == {1, 2} && f.db.chatCount == 2
  {
    hide Racing, OneChat, TwoChats, MembersOf;
    var hers, his := FindChat(1, 2, 7, "hi"), FindChat(2, 1, 8, "ho");
    var a := RaceStarts();
    var b, make := RaceLooks(a, hers, his, 0);
    var c, make2 := RaceLooks(b, make, his, 1);
    var d, insert := RaceMakes(c, EMPTY_DB, make, make2, 0);
    ChatsAre();
    var e, insert2 := RaceMakes(d, OneChat(), insert, make2, 1);
    RaceTables();
    RaceIs(e, TwoChats(), insert, insert2);
  }

  lemma RaceIs(f: Fine, db: Db, hers: Op, his: Op)
    requires Racing(f, db, hers, his)
    ensures Reachable(f) && f.db == db
  {}

  lemma ChatsAre()
    ensures CreateChat(EMPTY_DB, 1, 2) == DbSpec.Found(OneChat(), 0)
    ensures CreateChat(OneChat(), 2, 1) == DbSpec.Found(TwoChats(), 1)
  {}

  lemma RaceTables()
    ensures MembersOf(TwoChats(), 0) == {1, 2} && MembersOf(TwoChats(), 1) == {1, 2} && TwoChats().chatCount == 2
  {
    var db := TwoChats();
    forall u ensures u in MembersOf(db, 0) <==> u in {1, 2} { MemberIff(db, 0, u); }
    forall u ensures u in MembersOf(db, 1) <==> u in {1, 2} { MemberIff(db, 1, u); }
  }
}
