/** Hub safety under every interleaving of lock-sized steps. */
module InterleavedHub {
  import opened ChatTypes
  import opened HubSpec
  import opened DbSpec
  import opened Interleaving

  predicate Closed(f: Fine, i: nat, c: ClientId) {
    i < |f.hubs| && c < |f.hubs[i].chans| && f.hubs[i].chans[c].closed
  }

  /** A handle looked up earlier was open then: if its queue is closed now, that happened since. */
  predicate EnqueueTimed(f: Fine, i: nat, op: Op) {
    op.Enqueue? ==> op.at < f.clock && ((i, op.client) in f.closedAt ==> op.at < f.closedAt[(i, op.client)])
  }

  /** A connect hook runs on one thread, and the pumps of its connection have not started. */
  predicate HookPlaced(f: Fine, t: nat, i: nat, op: Op)
    requires i < |f.hubs|
  {
    match HookClient(op)
    case None => true
    case Some(c) =>
      && c < |f.hubs[i].chans| && f.hubs[i].chans[c].writer == NotStarted
      && (i, c) in f.hook && f.hook[(i, c)] == t
  }

  predicate OpOk(f: Fine, t: nat, i: nat, op: Op) {
    && i < |f.hubs|
    && InRange(f.hubs[i], f.db, op)
    && EnqueueTimed(f, i, op)
    && HookPlaced(f, t, i, op)
  }

  predicate TodoOk(f: Fine, t: nat, th: Thread) {
    && (forall k | 0 <= k < |th.todo| :: OpOk(f, t, th.inst, th.todo[k]))
    && (forall k | 0 <= k < |th.todo| - 1 :: HookClient(th.todo[k]) == None)
  }

  ghost predicate ClosedRecorded(f: Fine) {
    && (forall i: nat, c: ClientId :: Closed(f, i, c) <==> (i, c) in f.closedAt)
    && (forall k | k in f.closedAt :: f.closedAt[k] < f.clock)
  }

  predicate HooksRegistered(f: Fine) {
    forall k | k in f.hook :: k.0 < |f.hubs| && k.1 < |f.hubs[k.0].chans|
  }

  predicate HubsOk(f: Fine) {
    forall i | 0 <= i < |f.hubs| :: HubOk(f.hubs[i])
  }

  predicate TodosOk(f: Fine) {
    forall t | 0 <= t < |f.threads| :: TodoOk(f, t, f.threads[t])
  }

  ghost predicate HubInv(f: Fine) {
    HubsOk(f) && ClosedRecorded(f) && HooksRegistered(f) && TodosOk(f)
  }

  // ---- what a step may change for the operations of a thread

  /** Connections stay. A writer starts only where `starts` says so. */
  predicate HubGrows(h: HubState, h': HubState, starts: Option<ClientId>) {
    && |h.chans| <= |h'.chans|
    && forall c | 0 <= c < |h.chans| && h.chans[c].writer == NotStarted && starts != Some(c) ::
          h'.chans[c].writer == NotStarted
  }

  predicate HubsGrow(hubs: seq<HubState>, hubs': seq<HubState>, i: nat, starts: Option<ClientId>) {
    && |hubs'| == |hubs|
    && forall j | 0 <= j < |hubs| :: HubGrows(hubs[j], hubs'[j], if j == i then starts else None)
  }

  predicate TimesGrow(closedAt: map<Key, nat>, closedAt': map<Key, nat>, clock: nat) {
    forall k | k in closedAt' :: (k in closedAt && closedAt'[k] == closedAt[k]) || closedAt'[k] == clock
  }

  predicate HooksGrow(hook: map<Key, nat>, hook': map<Key, nat>) {
    forall k | k in hook :: k in hook' && hook'[k] == hook[k]
  }

  predicate Frame(f: Fine, f': Fine, i: nat, starts: Option<ClientId>) {
    && HubsGrow(f.hubs, f'.hubs, i, starts)
    && |f.db.rows| <= |f'.db.rows|
    && f.clock < f'.clock
    && TimesGrow(f.closedAt, f'.closedAt, f.clock)
    && HooksGrow(f.hook, f'.hook)
  }

  lemma OpStaysOk(f: Fine, f': Fine, i: nat, starts: Option<ClientId>, t: nat, j: nat, op: Op)
    requires Frame(f, f', i, starts) && OpOk(f, t, j, op)
    requires starts.Some? && j == i ==> HookClient(op) != starts
    ensures OpOk(f', t, j, op)
  {
    assert HubGrows(f.hubs[j], f'.hubs[j], if j == i then starts else None);
  }

  /** Threads other than the one that starts a connection's pumps keep their operations. */
  lemma TodoStaysOk(f: Fine, f': Fine, i: nat, starts: Option<ClientId>, t: nat, th: Thread)
    requires Frame(f, f', i, starts) && TodoOk(f, t, th)
    requires starts.Some? ==> (i, starts.value) in f.hook && f.hook[(i, starts.value)] != t
    ensures TodoOk(f', t, th)
  {
    forall k | 0 <= k < |th.todo| ensures OpOk(f', t, th.inst, th.todo[k]) {
      assert OpOk(f, t, th.inst, th.todo[k]);
      OpStaysOk(f, f', i, starts, t, th.inst, th.todo[k]);
    }
  }

  function Starts(op: Op): Option<ClientId> {
    if op.HookLoop? && op.pending == [] then Some(op.client) else None
  }

  lemma NextHubKeeps(h: HubState, db: Db, op: Op)
    requires HubOk(h) && InRange(h, db, op)
    requires Starts(op).Some? ==> h.chans[op.client].writer == NotStarted
    ensures HubOk(NextHub(h, db, op))
  {
    hide HubOk;
    match op
    case Enqueue(c, p, _, _) => if Offer(h, c) == Accepted { EnqueueKeepsHub(h, c, p); }
    case Evict(c) => UnregisterKeepsHub(h, c);
    case RegisterUser(u) => RegisterKeepsHub(h, u);
    case HookLoop(c, _, ms, _) => if ms == [] { StartPumpsKeepsHub(h, c); }
    case EndRead(c) => EndReaderKeepsHub(h, c);
    case _ =>
  }

  lemma NextHubGrows(h: HubState, db: Db, op: Op)
    requires InRange(h, db, op)
    ensures HubGrows(h, NextHub(h, db, op), Starts(op))
  {}

  lemma NextDbGrows(db: Db, op: Op, ch: Choice)
    ensures |db.rows| <= |NextDb(db, op, ch).rows|
    ensures !op.Insert? ==> |NextDb(db, op, ch).rows| == |db.rows|
  {}

  lemma PutHubGrows(hubs: seq<HubState>, i: nat, h: HubState, starts: Option<ClientId>)
    requires i < |hubs| && HubGrows(hubs[i], h, starts)
    ensures HubsGrow(hubs, hubs[i := h], i, starts)
  {
    hide HubGrows;
    forall j | 0 <= j < |hubs| ensures HubGrows(hubs[j], hubs[i := h][j], if j == i then starts else None) {
      SameHubGrows(hubs[j]);
    }
  }

  lemma SameHubGrows(h: HubState)
    ensures HubGrows(h, h, None)
  {}

  lemma NewHookGrows(f: Fine, i: nat, op: Op, t: nat)
    requires HooksRegistered(f) && i < |f.hubs|
    ensures HooksGrow(f.hook, NextHook(f.hook, i, f.hubs[i], op, t))
  {
    if (i, |f.hubs[i].chans|) in f.hook {
      assert false;
    }
  }

  lemma NewTimesGrow(closedAt: map<Key, nat>, clock: nat, i: nat, closes: Option<ClientId>)
    ensures TimesGrow(closedAt, NextClosedAt(closedAt, clock, i, closes), clock)
  {}

  lemma ExecFrame(f: Fine, t: nat, ch: Choice)
    requires Ready(f, t, ch) && HooksRegistered(f)
    ensures Frame(f, Exec(f, t, ch), f.threads[t].inst, Starts(f.threads[t].todo[0]))
  {
    hide ChoiceOk, NextHub, NextDb, NextTodo, HubGrows, HubsGrow, TimesGrow, HooksGrow, NextHook, NextClosedAt,
      HooksRegistered;
    var i := f.threads[t].inst;
    var op := f.threads[t].todo[0];
    NextHubGrows(f.hubs[i], f.db, op);
    PutHubGrows(f.hubs, i, NextHub(f.hubs[i], f.db, op), Starts(op));
    NextDbGrows(f.db, op, ch);
    NewHookGrows(f, i, op, t);
    NewTimesGrow(f.closedAt, f.clock, i, Closes(f.hubs[i], f.db, op));
  }

  // ---- closing

  predicate HubCloses(h: HubState, h': HubState, closes: Option<ClientId>) {
    && |h.chans| <= |h'.chans|
    && (forall c | 0 <= c < |h.chans| :: h'.chans[c].closed <==> h.chans[c].closed || closes == Some(c))
    && (forall c | |h.chans| <= c < |h'.chans| :: !h'.chans[c].closed)
    && (closes.Some? ==> closes.value < |h.chans|)
  }

  function RemovalOf(h: HubState, c: ClientId): Option<ClientId>
    requires c < |h.chans|
  {
    if Current(h, c) then Some(c) else None
  }

  lemma UnregisterCloses(h: HubState, c: ClientId)
    requires MapOk(h) && c < |h.chans|
    ensures HubCloses(h, Unregister(h, c), RemovalOf(h, c)) && (Current(h, c) ==> !h.chans[c].closed)
  {
    var h' := Unregister(h, c);
    assert |h'.chans| == |h.chans|;
    forall d | 0 <= d < |h.chans| ensures h'.chans[d].closed <==> h.chans[d].closed || RemovalOf(h, c) == Some(d) {}
  }

  lemma StopCloses(h: HubState, h1: HubState, c: ClientId, closes: Option<ClientId>)
    requires HubCloses(h, h1, closes) && c < |h1.chans|
    ensures HubCloses(h, StopReader(h1, c), closes)
  {
    var h2 := StopReader(h1, c);
    assert forall d | 0 <= d < |h1.chans| :: h2.chans[d].closed == h1.chans[d].closed;
  }

  lemma RemovalCloses(h: HubState, c: ClientId)
    requires HubOk(h) && c < |h.chans|
    ensures HubCloses(h, Unregister(h, c), RemovalOf(h, c)) && HubCloses(h, EndReader(h, c), RemovalOf(h, c))
    ensures Current(h, c) ==> !h.chans[c].closed
  {
    UnregisterCloses(h, c);
    hide HubCloses, RemovalOf, LogOk, MapOk, ChannelOk;
    StopCloses(h, Unregister(h, c), c, RemovalOf(h, c));
  }

  lemma NextHubCloses(h: HubState, db: Db, op: Op)
    requires HubOk(h) && InRange(h, db, op)
    ensures HubCloses(h, NextHub(h, db, op), Closes(h, db, op))
    ensures Closes(h, db, op).Some? ==> !h.chans[Closes(h, db, op).value].closed
  {
    hide HubOk, Unregister, EndReader, Current;
    match op
    case Evict(c) => RemovalCloses(h, c);
    case EndRead(c) => RemovalCloses(h, c);
    case _ =>
  }

  lemma PutClosedAt(f: Fine, i: nat, h': HubState, closes: Option<ClientId>, f': Fine, j: nat, c: ClientId)
    requires i < |f.hubs| && f'.hubs == f.hubs[i := h'] && HubCloses(f.hubs[i], h', closes)
    ensures Closed(f', j, c) <==> Closed(f, j, c) || (j == i && closes == Some(c))
  {
    if j == i && c < |f.hubs[i].chans| {
      assert h'.chans[c].closed <==> f.hubs[i].chans[c].closed || closes == Some(c);
    }
  }

  lemma PutClosed(f: Fine, i: nat, h': HubState, closes: Option<ClientId>, f': Fine)
    requires ClosedRecorded(f) && i < |f.hubs| && f'.hubs == f.hubs[i := h'] && f.clock < f'.clock
    requires f'.closedAt == NextClosedAt(f.closedAt, f.clock, i, closes) && HubCloses(f.hubs[i], h', closes)
    ensures ClosedRecorded(f')
  {
    hide Closed, HubCloses;
    forall j: nat, c: ClientId ensures Closed(f', j, c) <==> (j, c) in f'.closedAt {
      PutClosedAt(f, i, h', closes, f', j, c);
      assert Closed(f, j, c) <==> (j, c) in f.closedAt;
    }
    hide NextClosedAt;
    ClosedTimes(f.closedAt, f.clock, i, closes);
  }

  lemma ClosedTimes(closedAt: map<Key, nat>, clock: nat, i: nat, closes: Option<ClientId>)
    requires forall k | k in closedAt :: closedAt[k] < clock
    ensures forall k | k in NextClosedAt(closedAt, clock, i, closes) ::
              NextClosedAt(closedAt, clock, i, closes)[k] <= clock
  {}

  lemma ExecClosed(f: Fine, t: nat, ch: Choice)
    requires Ready(f, t, ch) && HubsOk(f) && ClosedRecorded(f)
    ensures ClosedRecorded(Exec(f, t, ch))
  {
    hide ChoiceOk, NextHub, NextDb, NextTodo, HubOk, Closes, ClosedRecorded, NextClosedAt;
    var i := f.threads[t].inst;
    var op := f.threads[t].todo[0];
    NextHubCloses(f.hubs[i], f.db, op);
    PutClosed(f, i, NextHub(f.hubs[i], f.db, op), Closes(f.hubs[i], f.db, op), Exec(f, t, ch));
  }

  // ---- the thread that moved

  lemma TailOk(f: Fine, t: nat, th: Thread)
    requires TodoOk(f, t, th) && th.todo != []
    ensures TodoOk(f, t, Thread(th.inst, th.todo[1..]))
    ensures HookClient(th.todo[0]).Some? ==> th.todo[1..] == []
    ensures OpOk(f, t, th.inst, th.todo[0])
  {
    forall k | 0 <= k < |th.todo[1..]| ensures OpOk(f, t, th.inst, th.todo[1..][k]) {
      assert th.todo[1..][k] == th.todo[k + 1];
    }
  }

  /** Steps put in front of a thread's rest. */
  lemma PrefixOk(f: Fine, t: nat, i: nat, front: seq<Op>, rest: seq<Op>)
    requires TodoOk(f, t, Thread(i, rest))
    requires forall k | 0 <= k < |front| :: OpOk(f, t, i, front[k])
    requires forall k | 0 <= k < |front| :: HookClient(front[k]) == None || (rest == [] && k == |front| - 1)
    ensures TodoOk(f, t, Thread(i, front + rest))
  {
    var todo := front + rest;
    forall k | 0 <= k < |todo| ensures OpOk(f, t, i, todo[k]) {
      if k < |front| {
        assert todo[k] == front[k];
      } else {
        assert todo[k] == rest[k - |front|];
        assert Thread(i, rest).todo[k - |front|] == todo[k];
      }
    }
  }

  /** The steps a thread gets in front of what it had left. */
  function Front(h: HubState, db: Db, clock: nat, op: Op, ch: Choice): seq<Op>
    requires InRange(h, db, op)
  {
    NextTodo(h, db, clock, op, [], ch)
  }

  lemma TodoSplits(h: HubState, db: Db, clock: nat, op: Op, rest: seq<Op>, ch: Choice)
    requires InRange(h, db, op) && (HookClient(op).Some? ==> rest == [])
    ensures NextTodo(h, db, clock, op, rest, ch) == Front(h, db, clock, op, ch) + rest
         || NextTodo(h, db, clock, op, rest, ch) == Front(h, db, clock, op, ch)
  {
    hide Matches, CreateChat, Offer;
    match op
    case Publish => assert [] + rest == rest;
    case Lookup(u, p, why) =>
      if u !in h.clients { assert AfterRefused(why) + [] == AfterRefused(why); }
    case Enqueue(c, _, why, _) =>
      assert AfterAccepted(why) + [] == AfterAccepted(why);
      assert [Evict(c)] + AfterRefused(why) + [] == [Evict(c)] + AfterRefused(why);
    case _ => assert [] + rest == rest && rest + [] == rest;
  }

  /** Operations that carry no handle and no time are always in order. */
  predicate Bare(op: Op) {
    op.FindChat? || op.MakeChat? || op.Insert? || op.Lookup? || op.Publish? || op.Mark? || op.RegisterUser?
  }

  lemma BareOk(f: Fine, t: nat, i: nat, op: Op)
    requires Bare(op) && i < |f.hubs|
    ensures OpOk(f, t, i, op) && HookClient(op) == None
  {}

  lemma LookupFindsOpen(f: Fine, i: nat, u: UserId)
    requires HubsOk(f) && ClosedRecorded(f) && i < |f.hubs| && u in f.hubs[i].clients
    ensures (i, f.hubs[i].clients[u]) !in f.closedAt
  {
    assert HubOk(f.hubs[i]);
    assert !Closed(f, i, f.hubs[i].clients[u]);
  }

  /** What the moving thread's new steps can rely on in the state after the step. */
  predicate Moved(f: Fine, f': Fine, i: nat, t: nat, op: Op, ch: Choice)
    requires i < |f.hubs| && InRange(f.hubs[i], f.db, op)
  {
    && f'.hubs == f.hubs[i := NextHub(f.hubs[i], f.db, op)]
    && f'.db == NextDb(f.db, op, ch)
    && f'.clock == f.clock + 1
    && f'.closedAt == NextClosedAt(f.closedAt, f.clock, i, Closes(f.hubs[i], f.db, op))
    && f'.hook == NextHook(f.hook, i, f.hubs[i], op, t)
  }

  lemma LookupFrontOk(f: Fine, f': Fine, i: nat, t: nat, op: Op, ch: Choice, k: nat)
    requires op.Lookup? && HubsOk(f) && ClosedRecorded(f) && i < |f.hubs| && InRange(f.hubs[i], f.db, op)
    requires Moved(f, f', i, t, op, ch) && k < |Front(f.hubs[i], f.db, f.clock, op, ch)|
    ensures OpOk(f', t, i, Front(f.hubs[i], f.db, f.clock, op, ch)[k])
  {
    if op.user in f.hubs[i].clients {
      LookupFindsOpen(f, i, op.user);
    }
    hide HubsOk, ClosedRecorded, HubOk;
  }

  lemma HandleFrontOk(f: Fine, f': Fine, i: nat, t: nat, op: Op, ch: Choice, k: nat)
    requires op.Enqueue? || op.RegisterUser?
    requires i < |f.hubs| && InRange(f.hubs[i], f.db, op)
    requires Moved(f, f', i, t, op, ch) && k < |Front(f.hubs[i], f.db, f.clock, op, ch)|
    ensures OpOk(f', t, i, Front(f.hubs[i], f.db, f.clock, op, ch)[k])
  {}

  lemma HookFrontOk(f: Fine, f': Fine, i: nat, t: nat, op: Op, ch: Choice, k: nat)
    requires op.QueryPending? || op.HookLoop?
    requires OpOk(f, t, i, op) && ChoiceOk(f.db, op, ch)
    requires Moved(f, f', i, t, op, ch) && k < |Front(f.hubs[i], f.db, f.clock, op, ch)|
    ensures OpOk(f', t, i, Front(f.hubs[i], f.db, f.clock, op, ch)[k])
  {
    hide IsPendingBatch, Register, Unregister, EndReader, UpdateStatus, CreateChat, InsertMessage;
  }

  lemma FrontOk(f: Fine, t: nat, ch: Choice, k: nat)
    requires Ready(f, t, ch) && HubInv(f)
    requires var th := f.threads[t]; k < |Front(f.hubs[th.inst], f.db, f.clock, th.todo[0], ch)|
    ensures var th := f.threads[t];
            OpOk(Exec(f, t, ch), t, th.inst, Front(f.hubs[th.inst], f.db, f.clock, th.todo[0], ch)[k])
  {
    hide HubsOk, ClosedRecorded, HooksRegistered, TodosOk, NextHub, NextDb, NextTodo, OpOk;
    var th := f.threads[t];
    var i, h, op := th.inst, f.hubs[th.inst], th.todo[0];
    var f' := Exec(f, t, ch);
    assert Moved(f, f', i, t, op, ch);
    TodoOf(f, t);
    TailOk(f, t, th);
    hide TodoOk, Moved, Exec, InRange, Front, ChoiceOk;
    match op
    case Lookup(_, _, _) => LookupFrontOk(f, f', i, t, op, ch, k);
    case Enqueue(_, _, _, _) => HandleFrontOk(f, f', i, t, op, ch, k);
    case RegisterUser(_) => HandleFrontOk(f, f', i, t, op, ch, k);
    case QueryPending(_, _) => HookFrontOk(f, f', i, t, op, ch, k);
    case HookLoop(_, _, _, _) => HookFrontOk(f, f', i, t, op, ch, k);
    case _ => BareFrontOk(f, f', i, t, op, ch, k);
  }

  lemma BareFrontOk(f: Fine, f': Fine, i: nat, t: nat, op: Op, ch: Choice, k: nat)
    requires !(op.Lookup? || op.Enqueue? || op.RegisterUser? || op.QueryPending? || op.HookLoop?)
    requires i < |f.hubs| && InRange(f.hubs[i], f.db, op) && |f'.hubs| == |f.hubs|
    requires k < |Front(f.hubs[i], f.db, f.clock, op, ch)|
    ensures OpOk(f', t, i, Front(f.hubs[i], f.db, f.clock, op, ch)[k])
  {
    hide Matches, CreateChat;
    BareOk(f', t, i, Front(f.hubs[i], f.db, f.clock, op, ch)[k]);
  }

  lemma TodoOf(f: Fine, t: nat)
    requires HubInv(f) && t < |f.threads|
    ensures TodoOk(f, t, f.threads[t])
  {
    hide TodoOk, HubsOk, ClosedRecorded, HooksRegistered;
  }

  /** Only the last step of a front may belong to a hook, and then the thread had nothing else left. */
  lemma FrontHooks(h: HubState, db: Db, clock: nat, op: Op, rest: seq<Op>, ch: Choice, k: nat)
    requires InRange(h, db, op) && k < |Front(h, db, clock, op, ch)|
    requires HookClient(op).Some? ==> rest == []
    ensures HookClient(Front(h, db, clock, op, ch)[k]).Some? ==>
              && k == |Front(h, db, clock, op, ch)| - 1
              && NextTodo(h, db, clock, op, rest, ch) == Front(h, db, clock, op, ch)
  {
    hide Matches, CreateChat, Offer;
  }

  lemma MovedTodoOk(f: Fine, t: nat, ch: Choice)
    requires Ready(f, t, ch) && HubInv(f)
    ensures TodoOk(Exec(f, t, ch), t, Exec(f, t, ch).threads[t])
  {
    var th := f.threads[t];
    var i, h, op, rest := th.inst, f.hubs[th.inst], th.todo[0], th.todo[1..];
    var f' := Exec(f, t, ch);
    var front := Front(h, f.db, f.clock, op, ch);
    TodoOf(f, t);
    TailOk(f, t, th);
    assert HooksRegistered(f);
    hide HubInv, TodoOk, OpOk, NextTodo, Front, ChoiceOk, InRange, Frame;
    ExecFrame(f, t, ch);
    forall k | 0 <= k < |front|
      ensures OpOk(f', t, i, front[k])
      ensures HookClient(front[k]).Some? ==> k == |front| - 1 && f'.threads[t].todo == front
    {
      FrontOk(f, t, ch, k);
      FrontHooks(h, f.db, f.clock, op, rest, ch, k);
    }
    TodoSplits(h, f.db, f.clock, op, rest, ch);
    assert f'.threads[t] == Thread(i, NextTodo(h, f.db, f.clock, op, rest, ch));
    hide Exec, Ready;
    if f'.threads[t].todo == front {
      assert TodoOk(f', t, Thread(i, [])) by { EmptyOk(f', t, i); }
      PrefixOk(f', t, i, front, []);
      assert front + [] == front;
    } else {
      RestStaysOk(f, f', i, Starts(op), t, Thread(i, rest), op);
      PrefixOk(f', t, i, front, rest);
    }
  }

  lemma EmptyOk(f: Fine, t: nat, i: nat)
    ensures TodoOk(f, t, Thread(i, []))
  {}

  /** The rest of the moving thread: when it starts pumps, it has nothing left. */
  lemma RestStaysOk(f: Fine, f': Fine, i: nat, starts: Option<ClientId>, t: nat, th: Thread, op: Op)
    requires Frame(f, f', i, starts) && TodoOk(f, t, th) && starts == Starts(op)
    requires HookClient(op).Some? ==> th.todo == []
    ensures TodoOk(f', t, th)
  {
    forall k | 0 <= k < |th.todo| ensures OpOk(f', t, th.inst, th.todo[k]) {
      assert OpOk(f, t, th.inst, th.todo[k]);
      OpStaysOk(f, f', i, starts, t, th.inst, th.todo[k]);
    }
  }

  lemma StartsIsHooked(f: Fine, t: nat)
    requires HubInv(f) && t < |f.threads| && f.threads[t].todo != []
    ensures var th := f.threads[t];
            Starts(th.todo[0]).Some? ==>
              && th.inst < |f.hubs| && Starts(th.todo[0]).value < |f.hubs[th.inst].chans|
              && f.hubs[th.inst].chans[Starts(th.todo[0]).value].writer == NotStarted
              && (th.inst, Starts(th.todo[0]).value) in f.hook && f.hook[(th.inst, Starts(th.todo[0]).value)] == t
  {
    hide HubsOk, ClosedRecorded, HooksRegistered;
    TodoOf(f, t);
    TailOk(f, t, f.threads[t]);
  }

  lemma ExecTodosOk(f: Fine, t: nat, ch: Choice)
    requires Ready(f, t, ch) && HubInv(f)
    ensures TodosOk(Exec(f, t, ch))
  {
    var f' := Exec(f, t, ch);
    StartsIsHooked(f, t);
    MovedTodoOk(f, t, ch);
    assert HooksRegistered(f);
    ExecFrame(f, t, ch);
    var i, starts := f.threads[t].inst, Starts(f.threads[t].todo[0]);
    assert |f'.threads| == |f.threads| && forall s | 0 <= s < |f.threads| && s != t :: f'.threads[s] == f.threads[s];
    hide Exec, Ready, TodoOk, Frame, Starts, ClosedRecorded, HooksRegistered, HubsOk;
    forall s | 0 <= s < |f'.threads| ensures TodoOk(f', s, f'.threads[s]) {
      if s != t {
        assert TodoOk(f, s, f.threads[s]);
        TodoStaysOk(f, f', i, starts, s, f.threads[s]);
      }
    }
  }

  lemma ExecHubsOk(f: Fine, t: nat, ch: Choice)
    requires Ready(f, t, ch) && HubInv(f)
    ensures HubsOk(Exec(f, t, ch)) && HooksRegistered(Exec(f, t, ch))
  {
    var i := f.threads[t].inst;
    var h, op := f.hubs[i], f.threads[t].todo[0];
    StartsIsHooked(f, t);
    assert HubOk(h) && HubsOk(f) && HooksRegistered(f) by { hide HubOk, TodosOk, ClosedRecorded; }
    NextHubKeeps(h, f.db, op);
    NextHubGrows(h, f.db, op);
    hide HubInv, HubOk, HubsOk, NextHub, NextTodo, NextDb, ChoiceOk;
    var f' := Exec(f, t, ch);
    PutHubsOk(f, i, NextHub(h, f.db, op), f');
    NewHooksRegistered(f, i, t, op, f');
  }

  lemma NextHubAdds(h: HubState, db: Db, op: Op)
    requires InRange(h, db, op)
    ensures |h.chans| + (if op.RegisterUser? then 1 else 0) <= |NextHub(h, db, op).chans|
  {
  }

  lemma NewHooksRegistered(f: Fine, i: nat, t: nat, op: Op, f': Fine)
    requires HooksRegistered(f) && i < |f.hubs| && InRange(f.hubs[i], f.db, op)
    requires f'.hubs == f.hubs[i := NextHub(f.hubs[i], f.db, op)] && f'.hook == NextHook(f.hook, i, f.hubs[i], op, t)
    ensures HooksRegistered(f')
  {
    hide NextHub, HubGrows, InRange;
    NextHubAdds(f.hubs[i], f.db, op);
    forall k | k in f'.hook ensures k.0 < |f'.hubs| && k.1 < |f'.hubs[k.0].chans| {
      if k in f.hook {
        assert k.0 < |f.hubs| && k.1 < |f.hubs[k.0].chans|;
      }
    }
  }

  // ---- starting threads, and writers

  lemma SpawnKeepsHubs(f: Fine, th: Thread)
    requires HubInv(f) && Startable(f, th)
    ensures HubInv(FineStep(f, Spawn(th)))
  {
    hide HubOk;
    var f' := FineStep(f, Spawn(th));
    forall i: nat, c: ClientId ensures Closed(f', i, c) <==> (i, c) in f'.closedAt {
      assert Closed(f, i, c) <==> (i, c) in f.closedAt;
    }
    hide ClosedRecorded, HubsOk, HooksRegistered;
    forall t | 0 <= t < |f'.threads| ensures TodoOk(f', t, f'.threads[t]) {
      if t < |f.threads| {
        assert TodoOk(f, t, f.threads[t]);
        SameStateSameTodo(f, f', t, f.threads[t]);
      }
    }
  }

  lemma SameStateSameTodo(f: Fine, f': Fine, t: nat, th: Thread)
    requires TodoOk(f, t, th) && f'.hubs == f.hubs && f'.db == f.db && f'.closedAt == f.closedAt && f'.hook == f.hook
    requires f.clock <= f'.clock
    ensures TodoOk(f', t, th)
  {
    forall k | 0 <= k < |th.todo| ensures OpOk(f', t, th.inst, th.todo[k]) {
      assert OpOk(f, t, th.inst, th.todo[k]);
    }
  }

  lemma WriteGrows(h: HubState, c: ClientId, ok: bool)
    requires CanWrite(h, c)
    ensures HubGrows(h, Write(h, c, ok), None)
    ensures HubCloses(h, Write(h, c, ok), None)
  {}

  lemma DrainFrame(f: Fine, i: nat, h': HubState, f': Fine)
    requires i < |f.hubs| && HubGrows(f.hubs[i], h', None) && f' == f.(hubs := f.hubs[i := h'], clock := f.clock + 1)
    ensures Frame(f, f', i, None)
    ensures HooksRegistered(f) ==> HooksRegistered(f')
  {
    PutHubGrows(f.hubs, i, h', None);
  }

  lemma DrainKeepsTodos(f: Fine, i: nat, f': Fine)
    requires TodosOk(f) && Frame(f, f', i, None) && f'.threads == f.threads
    ensures TodosOk(f')
  {
    hide Frame, TodoOk;
    forall t | 0 <= t < |f'.threads| ensures TodoOk(f', t, f'.threads[t]) {
      assert TodoOk(f, t, f.threads[t]);
      TodoStaysOk(f, f', i, None, t, f.threads[t]);
    }
  }

  lemma DrainKeepsHubs(f: Fine, i: nat, c: ClientId, ok: bool)
    requires HubInv(f) && i < |f.hubs| && i !in f.dead && CanWrite(f.hubs[i], c)
    ensures HubInv(FineStep(f, Drain(i, c, ok)))
  {
    HubOfFine(f, i);
    hide HubOk, Write, CanWrite, Frame, ClosedRecorded, HooksRegistered, HubGrows, HubCloses, TodosOk;
    var h' := Write(f.hubs[i], c, ok);
    var f' := f.(hubs := f.hubs[i := h'], clock := f.clock + 1);
    assert f' == FineStep(f, Drain(i, c, ok));
    WriteKeepsHub(f.hubs[i], c, ok);
    WriteGrows(f.hubs[i], c, ok);
    DrainFrame(f, i, h', f');
    PutClosed(f, i, h', None, f');
    DrainKeepsTodos(f, i, f');
    hide HubsOk, HubInv;
    PutHubsOk(f, i, h', f');
    HubInvFrom(f');
  }

  lemma PutHubsOk(f: Fine, i: nat, h': HubState, f': Fine)
    requires HubInv(f) && i < |f.hubs| && HubOk(h') && f'.hubs == f.hubs[i := h']
    ensures HubsOk(f')
  {
    hide HubOk, ClosedRecorded, HooksRegistered, TodosOk;
    forall j | 0 <= j < |f'.hubs| ensures HubOk(f'.hubs[j]) {
      if j != i {
        assert f'.hubs[j] == f.hubs[j];
      }
    }
  }

  lemma HubInvFrom(f: Fine)
    requires HubsOk(f) && ClosedRecorded(f) && HooksRegistered(f) && TodosOk(f)
    ensures HubInv(f)
  {
    hide HubsOk, ClosedRecorded, HooksRegistered, TodosOk;
  }

  lemma StepKeepsHubs(f: Fine, e: FineEvent)
    requires HubInv(f)
    ensures HubInv(FineStep(f, e))
  {
    match e
    case Spawn(th) => hide HubInv; if Startable(f, th) { SpawnKeepsHubs(f, th); }
    case Drain(i, c, ok) =>
      hide HubInv;
      if i < |f.hubs| && i !in f.dead && CanWrite(f.hubs[i], c) { DrainKeepsHubs(f, i, c, ok); }
    case Take(t, ch) =>
      hide HubsOk, ClosedRecorded, HooksRegistered, TodosOk, Exec, Ready;
      if Ready(f, t, ch) {
        ExecHubsOk(f, t, ch);
        ExecClosed(f, t, ch);
        ExecTodosOk(f, t, ch);
      }
  }

  lemma {:induction false} RunKeepsHubs(f: Fine, es: seq<FineEvent>)
    requires HubInv(f)
    ensures HubInv(FineRun(f, es))
    decreases |es|
  {
    hide HubInv, FineStep;
    if es != [] {
      StepKeepsHubs(f, es[0]);
      RunKeepsHubs(FineStep(f, es[0]), es[1..]);
    }
  }

  lemma FineInitOk(n: nat)
    ensures HubInv(FineInit(n))
  {
    forall i: nat, c: ClientId ensures !Closed(FineInit(n), i, c) {}
  }

  // ---- the guarantees

  /**
   Under every interleaving each hub stays sound: a mapped connection is open and keyed by its own user,
   and what a connection's writer took plus what is queued is exactly what it accepted, at most 256 waiting.
   */
  lemma HubsStaySound(n: nat, es: seq<FineEvent>, i: nat)
    requires i < |FineRun(FineInit(n), es).hubs|
    ensures var h := FineRun(FineInit(n), es).hubs[i];
            && (forall u | u in h.clients :: h.chans[h.clients[u]].user == u && !h.chans[h.clients[u]].closed)
            && (forall c | 0 <= c < |h.chans| ::
                  && |h.chans[c].queue| <= CAPACITY
                  && h.chans[c].written + h.chans[c].failed + h.chans[c].queue == Project(h.log, c))
  {
    FineInitOk(n);
    RunKeepsHubs(FineInit(n), es);
    var f := FineRun(FineInit(n), es);
    assert HubOk(f.hubs[i]) by { hide HubOk, FineRun; }
    hide FineRun, HubInv;
    forall c | 0 <= c < |f.hubs[i].chans|
      ensures |f.hubs[i].chans[c].queue| <= CAPACITY
      ensures f.hubs[i].chans[c].written + f.hubs[i].chans[c].failed + f.hubs[i].chans[c].queue
           == Project(f.hubs[i].log, c)
    {
      assert ChannelOk(f.hubs[i], c);
    }
  }

  /** A queue that is closed stays closed, and no step closes it again. */
  lemma QueuesCloseOnce(n: nat, es: seq<FineEvent>, t: nat, ch: Choice, c: ClientId)
    requires Ready(FineRun(FineInit(n), es), t, ch)
    ensures var f := FineRun(FineInit(n), es);
            var i := f.threads[t].inst;
            var h, op := f.hubs[i], f.threads[t].todo[0];
            var h' := NextHub(h, f.db, op);
            && Exec(f, t, ch).hubs == f.hubs[i := h']
            && (Closes(h, f.db, op) == Some(c) ==>
                  c < |h.chans| <= |h'.chans| && !h.chans[c].closed && h'.chans[c].closed)
            && (c < |h.chans| && h.chans[c].closed ==> c < |h'.chans| && h'.chans[c].closed)
            && (forall u | u in h.clients && Closes(h, f.db, op) != Some(h.clients[u])
                           && !(op.RegisterUser? && op.user == u) ::
                  u in h'.clients && h'.clients[u] == h.clients[u])
  {
    hide FineRun, NextTodo, NextDb, HubInv, ChoiceOk, NextHub, Closes, HubOk, FineInit;
    FineInitOk(n);
    RunKeepsHubs(FineInit(n), es);
    var f := FineRun(FineInit(n), es);
    var i := f.threads[t].inst;
    HubOfFine(f, i);
    NextHubCloses(f.hubs[i], f.db, f.threads[t].todo[0]);
    NextHubKeepsEntries(f.hubs[i], f.db, f.threads[t].todo[0]);
  }

  lemma HubOfFine(f: Fine, i: nat)
    requires HubInv(f) && i < |f.hubs|
    ensures HubOk(f.hubs[i])
  {
    hide HubOk;
  }

  /** A step removes the entry of the connection it closes and overwrites that of the user it registers, no other. */
  lemma NextHubKeepsEntries(h: HubState, db: Db, op: Op)
    requires HubOk(h) && InRange(h, db, op)
    ensures forall u | u in h.clients && Closes(h, db, op) != Some(h.clients[u])
                       && !(op.RegisterUser? && op.user == u) ::
              u in NextHub(h, db, op).clients && NextHub(h, db, op).clients[u] == h.clients[u]
  {
    match op
    case Evict(c) => UnregisterKeepsHub(h, c);
    case EndRead(c) => UnregisterKeepsHub(h, c);
    case _ =>
  }

  /** A send panics exactly when that very connection was unregistered between its lookup and its enqueue. */
  lemma PanicIffClosedSinceLookup(n: nat, es: seq<FineEvent>, t: nat, ch: Choice)
    requires Ready(FineRun(FineInit(n), es), t, ch)
    requires FineRun(FineInit(n), es).threads[t].todo[0].Enqueue?
    ensures var f := FineRun(FineInit(n), es);
            var th := f.threads[t];
            var k := (th.inst, th.todo[0].client);
            && Crashes(f.hubs[th.inst], f.db, th.todo[0]) == (k in f.closedAt)
            && (k in f.closedAt ==> th.todo[0].at < f.closedAt[k] < f.clock)
  {
    FineInitOk(n);
    RunKeepsHubs(FineInit(n), es);
    var f := FineRun(FineInit(n), es);
    hide FineRun;
    TodoOf(f, t);
    TailOk(f, t, f.threads[t]);
    hide HubsOk, TodosOk, HooksRegistered;
    var k := (f.threads[t].inst, f.threads[t].todo[0].client);
    assert Closed(f, k.0, k.1) <==> k in f.closedAt;
  }
}
