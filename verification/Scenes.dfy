/** Reachable states of one instance under lock-sized steps, built one step at a time. */
module Scenes {
  import opened ChatTypes
  import opened HubSpec
  import opened DbSpec
  import opened Interleaving

  const ANY := Choice(0, [], 0, true)

  ghost predicate Reachable(f: Fine) {
    exists es :: FineRun(FineInit(1), es) == f
  }

  lemma {:induction false} RunThenStep(f: Fine, es: seq<FineEvent>, e: FineEvent)
    ensures FineRun(f, es + [e]) == FineStep(FineRun(f, es), e)
    decreases |es|
  {
    hide FineStep;
    if es == [] {
      assert [] + [e] == [e] && [e][1..] == [];
    } else {
      RunThenStep(FineStep(f, es[0]), es[1..], e);
      assert (es + [e])[1..] == es[1..] + [e];
    }
  }

  lemma ReachStep(f: Fine, e: FineEvent)
    requires Reachable(f)
    ensures Reachable(FineStep(f, e))
  {
    hide FineStep;
    var es :| FineRun(FineInit(1), es) == f;
    RunThenStep(FineInit(1), es, e);
  }

  /** A reachable state of one live instance. */
  ghost predicate Alive(f: Fine) {
    && Reachable(f) && |f.hubs| == 1 && f.dead == {}
    && forall t | 0 <= t < |f.threads| :: f.threads[t].inst == 0
  }

  /** Everything a scene looks at but the threads. */
  predicate SameRest(f: Fine, g: Fine) {
    && g.db == f.db && g.to == f.to && g.hubs == f.hubs && g.readAt == f.readAt
    && g.own == f.own && g.others == f.others
  }

  lemma InitAlive() returns (f: Fine)
    ensures Alive(f) && f.db == EMPTY_DB && f.to == [] && f.hubs[0] == EMPTY_HUB && f.threads == []
    ensures f.own == map[] && f.others == map[] && f.readAt == map[]
  {
    f := FineInit(1);
    assert FineRun(FineInit(1), []) == f;
  }

  lemma Starts(f: Fine, todo: seq<Op>) returns (g: Fine)
    requires Alive(f) && Startable(f, Thread(0, todo))
    ensures Alive(g) && SameRest(f, g) && g.threads == f.threads + [Thread(0, todo)]
  {
    hide Reachable, Startable;
    g := FineStep(f, Spawn(Thread(0, todo)));
    ReachStep(f, Spawn(Thread(0, todo)));
  }

  /** The others' steps left are as they were. */
  predicate OthersWait(f: Fine, g: Fine, t: nat) {
    |g.threads| == |f.threads| && forall u | 0 <= u < |f.threads| && u != t :: g.threads[u] == f.threads[u]
  }

  /** The next step of thread t. */
  lemma Takes(f: Fine, t: nat, op: Op, rest: seq<Op>, ch: Choice) returns (g: Fine)
    requires Alive(f) && t < |f.threads| && f.threads[t].todo == [op] + rest
    requires InRange(f.hubs[0], f.db, op) && ChoiceOk(f.db, op, ch) && !Crashes(f.hubs[0], f.db, op)
    ensures Alive(g) && OthersWait(f, g, t)
    ensures g.db == NextDb(f.db, op, ch) && g.hubs[0] == NextHub(f.hubs[0], f.db, op)
    ensures g.to == if op.Insert? then f.to + [op.to] else f.to
    ensures g.threads[t].todo == NextTodo(f.hubs[0], f.db, f.clock, op, rest, ch)
    ensures g.readAt == NextReadAt(f.readAt, f.clock, op)
    ensures g.own == NextOwn(f.own, 0, op) && g.others == NextOthers(f.others, 0, op)
  {
    hide NextDb, NextHub, NextTodo, NextOwn, NextOthers, NextReadAt, NextHook, NextReplaced, NextMadeAt, NextClosedAt,
         InRange, ChoiceOk, Crashes, Closes, Reachable, HookOf;
    assert ([op] + rest)[1..] == rest;
    assert Ready(f, t, ch);
    g := FineStep(f, Take(t, ch));
    ReachStep(f, Take(t, ch));
  }

  lemma Drains(f: Fine, c: ClientId) returns (g: Fine)
    requires Alive(f) && CanWrite(f.hubs[0], c)
    ensures Alive(g) && g.hubs[0] == Write(f.hubs[0], c, true) && SameRest(f, g.(hubs := f.hubs))
    ensures g.threads == f.threads
  {
    hide Reachable, Write, CanWrite;
    g := FineStep(f, Drain(0, c, true));
    ReachStep(f, Drain(0, c, true));
  }

  // ---- single steps, spelled out

  lemma TakesLookup(f: Fine, t: nat, u: UserId, p: Packet, why: Why, rest: seq<Op>) returns (g: Fine)
    requires Alive(f) && t < |f.threads| && f.threads[t].todo == [Lookup(u, p, why)] + rest
    requires u in f.hubs[0].clients
    ensures Alive(g) && OthersWait(f, g, t) && SameRest(f, g)
    ensures g.threads[t].todo == [Enqueue(f.hubs[0].clients[u], p, why, f.clock)] + rest
  {
    hide Alive, OthersWait;
    g := Takes(f, t, Lookup(u, p, why), rest, ANY);
    assert |f.hubs| == 1 && |g.hubs| == 1 by { OneHub(f); OneHub(g); }
  }

  lemma OneHub(f: Fine)
    requires Alive(f)
    ensures |f.hubs| == 1
  {}

  lemma TakesEnqueue(f: Fine, t: nat, c: ClientId, p: Packet, why: Why, at: nat, rest: seq<Op>) returns (g: Fine)
    requires Alive(f) && t < |f.threads| && f.threads[t].todo == [Enqueue(c, p, why, at)] + rest
    requires c < |f.hubs[0].chans| && Offer(f.hubs[0], c) == Accepted
    ensures Alive(g) && OthersWait(f, g, t) && g.db == f.db && g.to == f.to && g.readAt == f.readAt
    ensures g.hubs[0] == HubSpec.Enqueue(f.hubs[0], c, p)
    ensures g.threads[t].todo == AfterAccepted(why) + rest
    ensures g.own == NextOwn(f.own, 0, Enqueue(c, p, why, at))
    ensures g.others == NextOthers(f.others, 0, Enqueue(c, p, why, at))
  {
    hide Alive, OthersWait, HubSpec.Enqueue, NextOwn, NextOthers;
    g := Takes(f, t, Enqueue(c, p, why, at), rest, ANY);
  }

  lemma TakesMark(f: Fine, t: nat, m: MsgId, status: Status, since: nat, rest: seq<Op>) returns (g: Fine)
    requires Alive(f) && t < |f.threads| && f.threads[t].todo == [Mark(m, status, since)] + rest
    ensures Alive(g) && OthersWait(f, g, t) && g.to == f.to && g.hubs == f.hubs && g.own == f.own
    ensures g.others == f.others
    ensures g.db == UpdateStatus(f.db, m, status) && g.threads[t].todo == rest
    ensures g.readAt == NextReadAt(f.readAt, f.clock, Mark(m, status, since))
  {
    hide Alive, OthersWait, UpdateStatus, NextReadAt;
    g := Takes(f, t, Mark(m, status, since), rest, ANY);
    assert |f.hubs| == 1 && |g.hubs| == 1 by { OneHub(f); OneHub(g); }
  }

  /** Register, up to the query for pending rows. */
  lemma Registers(f: Fine, u: UserId) returns (g: Fine)
    requires Alive(f)
    ensures Alive(g) && SameRest(f, g.(hubs := f.hubs)) && |g.hubs| == 1 && g.hubs[0] == Register(f.hubs[0], u)
    ensures g.threads == f.threads + [Thread(0, [QueryPending(u, |f.hubs[0].chans|)])]
  {
    var t := |f.threads|;
    var a := Starts(f, [RegisterUser(u)]);
    assert a.threads[t].todo == [RegisterUser(u)] + [];
    hide Register, Reachable;
    g := Takes(a, t, RegisterUser(u), [], ANY);
    assert g.threads[t].inst == 0;
    assert g.threads == f.threads + [g.threads[t]];
  }

  lemma TakesQuery(f: Fine, t: nat, u: UserId, c: ClientId, batch: seq<MsgId>) returns (g: Fine)
    requires Alive(f) && t < |f.threads| && f.threads[t].todo == [QueryPending(u, c)] && c < |f.hubs[0].chans|
    requires ValidIds(f.db, batch) && IsPendingBatch(f.db, u, batch)
    ensures Alive(g) && OthersWait(f, g, t) && SameRest(f, g) && g.threads[t].todo == [HookLoop(c, u, batch, f.clock)]
  {
    hide Alive, OthersWait, IsPendingBatch;
    assert [QueryPending(u, c)] + [] == [QueryPending(u, c)];
    g := Takes(f, t, QueryPending(u, c), [], Choice(0, batch, 0, true));
    assert |f.hubs| == 1 && |g.hubs| == 1 by { OneHub(f); OneHub(g); }
  }

  /** One turn of the replay loop. */
  lemma TakesLoop(f: Fine, t: nat, c: ClientId, u: UserId, ms: seq<MsgId>, since: nat) returns (g: Fine)
    requires Alive(f) && t < |f.threads| && f.threads[t].todo == [HookLoop(c, u, ms, since)] && c < |f.hubs[0].chans|
    requires ms != [] && ValidIds(f.db, ms)
    ensures Alive(g) && OthersWait(f, g, t) && SameRest(f, g)
    ensures g.threads[t].todo
         == [Lookup(u, PacketOf(f.db, ms[0]), Replay(c, ms[0]))]
            + [Mark(ms[0], Delivered, since), HookLoop(c, u, ms[1..], since)]
  {
    var op := HookLoop(c, u, ms, since);
    assert [op] + [] == [op];
    LoopIs(f.hubs[0], f.db, f.clock, c, u, ms, since);
    hide Alive, OthersWait, PacketOf, NextTodo, NextDb, NextHub, ValidIds;
    g := Takes(f, t, op, [], ANY);
    assert |f.hubs| == 1 && |g.hubs| == 1 by { OneHub(f); OneHub(g); }
  }

  lemma LoopIs(h: HubState, db: Db, clock: nat, c: ClientId, u: UserId, ms: seq<MsgId>, since: nat)
    requires c < |h.chans| && ms != [] && ValidIds(db, ms)
    ensures InRange(h, db, HookLoop(c, u, ms, since))
    ensures NextTodo(h, db, clock, HookLoop(c, u, ms, since), [], ANY)
         == [Lookup(u, PacketOf(db, ms[0]), Replay(c, ms[0]))]
            + [Mark(ms[0], Delivered, since), HookLoop(c, u, ms[1..], since)]
    ensures NextDb(db, HookLoop(c, u, ms, since), ANY) == db && NextHub(h, db, HookLoop(c, u, ms, since)) == h
  {
    hide PacketOf;
    var a := Lookup(u, PacketOf(db, ms[0]), Replay(c, ms[0]));
    var b, d := Mark(ms[0], Delivered, since), HookLoop(c, u, ms[1..], since);
    assert [a] + [b, d] == [a, b, d];
  }

  /** The end of the loop starts both pumps. */
  lemma TakesLoopEnd(f: Fine, t: nat, c: ClientId, u: UserId, since: nat) returns (g: Fine)
    requires Alive(f) && t < |f.threads| && f.threads[t].todo == [HookLoop(c, u, [], since)] && c < |f.hubs[0].chans|
    ensures Alive(g) && OthersWait(f, g, t) && SameRest(f, g.(hubs := f.hubs)) && |g.hubs| == 1
    ensures g.hubs[0] == StartPumps(f.hubs[0], c) && g.threads[t].todo == []
  {
    hide Alive, OthersWait, StartPumps;
    var op := HookLoop(c, u, [], since);
    assert [op] + [] == [op];
    g := Takes(f, t, op, [], ANY);
    assert |f.hubs| == 1 && |g.hubs| == 1 by { OneHub(f); OneHub(g); }
  }

  /** Threads that were there keep their steps. */
  predicate ThreadsStay(f: Fine, g: Fine) {
    |f.threads| < |g.threads| && g.threads[..|f.threads|] == f.threads
  }

  /** The rest of a connect hook that finds nothing pending. */
  lemma EndsHook(f: Fine, t: nat, u: UserId, c: ClientId) returns (g: Fine)
    requires Alive(f) && t < |f.threads| && f.threads[t].todo == [QueryPending(u, c)] && |f.hubs| == 1
    requires c < |f.hubs[0].chans|
    requires Pending(f.db, u) == {}
    ensures Alive(g) && SameRest(f, g.(hubs := f.hubs)) && |g.hubs| == 1
    ensures g.hubs[0] == StartPumps(f.hubs[0], c) && OthersWait(f, g, t)
  {
    hide Alive, StartPumps, IsPendingBatch, Pending;
    NothingPends(f.db, u);
    var b := TakesQuery(f, t, u, c, []);
    g := TakesLoopEnd(b, t, c, u, f.clock);
  }

  /** A whole connect without a backlog. */
  lemma Connects(f: Fine, u: UserId) returns (g: Fine)
    requires Alive(f) && Pending(f.db, u) == {}
    ensures Alive(g) && SameRest(f, g.(hubs := f.hubs)) && |g.hubs| == 1
    ensures g.hubs[0] == StartPumps(Register(f.hubs[0], u), |f.hubs[0].chans|)
    ensures ThreadsStay(f, g)
  {
    OneHub(f);
    hide Alive, StartPumps, Register, Pending;
    var a := Registers(f, u);
    RegisterAdds(f.hubs[0], u);
    g := EndsHook(a, |f.threads|, u, |f.hubs[0].chans|);
  }

  lemma RegisterAdds(h: HubState, u: UserId)
    ensures |Register(h, u).chans| == |h.chans| + 1
  {}

  lemma NothingPends(db: Db, u: UserId)
    requires Pending(db, u) == {}
    ensures IsPendingBatch(db, u, [])
  {}

  /** The hub of one user whose connect hook is done. */
  function Idle(user: UserId): HubState {
    Hub(map[user := 0], [NewChannel(user).(writer := Running, reader := Running)], [])
  }

  lemma FirstIsIdle(user: UserId)
    ensures StartPumps(Register(EMPTY_HUB, user), 0) == Idle(user)
  {
    assert map[][user := 0] == map[user := 0];
    assert [] + [NewChannel(user)] == [NewChannel(user)];
    assert Register(EMPTY_HUB, user).chans == [NewChannel(user)];
  }
}
