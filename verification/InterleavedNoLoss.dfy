/**
 No message is lost unseen under any interleaving of lock-sized steps: a row that is no longer pending was
 acknowledged, or taken by a queue of its addressee, or marked by a hook that could not rely on its queue.
 */
module InterleavedNoLoss {
  import opened ChatTypes
  import opened HubSpec
  import opened DbSpec
  import opened Interleaving
  import InterleavedHub
  import InterleavedStatus
  import ReplayFits
  import Scenes

  // ---- what a thread's steps carry

  predicate LogTakes(log: seq<Accept>, m: MsgId, user: UserId) {
    exists k :: 0 <= k < |log| && log[k].user == user && ReplayFits.CopyOf(log[k].packet, m)
  }

  /** Some queue of the message's addressee accepted a copy of it. */
  ghost predicate Taken(f: Fine, m: MsgId) {
    0 <= m < |f.to| && exists i :: 0 <= i < |f.hubs| && LogTakes(f.hubs[i].log, m, f.to[m])
  }

  /** A row between two users is for this user. */
  predicate IsFor(f: Fine, m: MsgId, user: UserId) {
    && 0 <= m < |f.to| && |f.to| == |f.db.rows|
    && (f.to[m] != f.db.rows[m].sender ==> f.to[m] == user)
  }

  /** The user whose pending rows a thread replays. */
  function HookUser(todo: seq<Op>): Option<UserId> {
    if todo == [] then None
    else
      match todo[|todo| - 1]
      case QueryPending(u, _) => Some(u)
      case HookLoop(_, u, _, _) => Some(u)
      case _ => None
  }

  ghost predicate OpOk(f: Fine, i: nat, hook: Option<UserId>, op: Op) {
    && i < |f.hubs|
    && match op
       case Lookup(u, p, DmCopy(m, _)) => 0 <= m < |f.to| && u == f.to[m] && ReplayFits.CopyOf(p, m)
       case Enqueue(c, p, DmCopy(m, _), _) =>
         0 <= m < |f.to| && ReplayFits.CopyOf(p, m) && c < |f.hubs[i].chans| && f.hubs[i].chans[c].user == f.to[m]
       case Mark(m, Delivered, _) => Taken(f, m) || (hook.Some? && IsFor(f, m, hook.value))
       case HookLoop(_, u, ms, _) => forall j | 0 <= j < |ms| :: IsFor(f, ms[j], u)
       case _ => true
  }

  ghost predicate TodoOk(f: Fine, i: nat, hook: Option<UserId>, todo: seq<Op>) {
    forall k | 0 <= k < |todo| :: OpOk(f, i, hook, todo[k])
  }

  ghost predicate ThreadOk(f: Fine, th: Thread) {
    TodoOk(f, th.inst, HookUser(th.todo), th.todo)
  }

  ghost predicate ThreadsOk(f: Fine) {
    forall t | 0 <= t < |f.threads| :: ThreadOk(f, f.threads[t])
  }

  // ---- what a step leaves alone

  predicate HubFrame(h: HubState, h': HubState) {
    && h.log <= h'.log && |h.chans| <= |h'.chans|
    && forall c | 0 <= c < |h.chans| :: h'.chans[c].user == h.chans[c].user
  }

  predicate HubsFrame(hubs: seq<HubState>, hubs': seq<HubState>) {
    |hubs'| == |hubs| && forall i | 0 <= i < |hubs| :: HubFrame(hubs[i], hubs'[i])
  }

  predicate RowsFrame(f: Fine, f': Fine) {
    && |f.to| == |f.db.rows| && |f'.to| == |f'.db.rows| && f.to <= f'.to
    && forall m | 0 <= m < |f.to| :: f'.db.rows[m] == f.db.rows[m].(status := f'.db.rows[m].status)
  }

  predicate Frame(f: Fine, f': Fine) {
    HubsFrame(f.hubs, f'.hubs) && RowsFrame(f, f')
  }

  lemma TakenStays(f: Fine, f': Fine, m: MsgId)
    requires Frame(f, f') && Taken(f, m)
    ensures Taken(f', m)
  {
    var i :| 0 <= i < |f.hubs| && LogTakes(f.hubs[i].log, m, f.to[m]);
    assert HubFrame(f.hubs[i], f'.hubs[i]);
    var log, log' := f.hubs[i].log, f'.hubs[i].log;
    var k :| 0 <= k < |log| && log[k].user == f.to[m] && ReplayFits.CopyOf(log[k].packet, m);
    assert log'[k] == log[k];
    assert LogTakes(log', m, f'.to[m]);
  }

  lemma ForStays(f: Fine, f': Fine, m: MsgId, u: UserId)
    requires RowsFrame(f, f') && IsFor(f, m, u)
    ensures IsFor(f', m, u)
  {}

  lemma OpStays(f: Fine, f': Fine, i: nat, hook: Option<UserId>, op: Op)
    requires Frame(f, f') && OpOk(f, i, hook, op)
    ensures OpOk(f', i, hook, op)
  {
    hide Taken, IsFor;
    match op
    case Mark(m, Delivered, _) =>
      if Taken(f, m) { TakenStays(f, f', m); } else { ForStays(f, f', m, hook.value); }
    case HookLoop(_, u, ms, _) =>
      forall j | 0 <= j < |ms| ensures IsFor(f', ms[j], u) { ForStays(f, f', ms[j], u); }
    case Enqueue(_, _, _, _) => assert HubFrame(f.hubs[i], f'.hubs[i]);
    case _ =>
  }

  lemma TodoStays(f: Fine, f': Fine, i: nat, hook: Option<UserId>, todo: seq<Op>)
    requires Frame(f, f') && TodoOk(f, i, hook, todo)
    ensures TodoOk(f', i, hook, todo)
  {
    hide Frame, OpOk;
    forall k | 0 <= k < |todo| ensures OpOk(f', i, hook, todo[k]) {
      OpStays(f, f', i, hook, todo[k]);
    }
  }

  lemma HubItself(h: HubState)
    ensures HubFrame(h, h)
  {}

  lemma NextHubFrame(h: HubState, db: Db, op: Op)
    requires InRange(h, db, op)
    ensures HubFrame(h, NextHub(h, db, op))
  {}

  lemma PutHubFrame(hubs: seq<HubState>, i: nat, h: HubState)
    requires i < |hubs| && HubFrame(hubs[i], h)
    ensures HubsFrame(hubs, hubs[i := h])
  {
    hide HubFrame;
    forall j | 0 <= j < |hubs| ensures HubFrame(hubs[j], hubs[i := h][j]) { HubItself(hubs[j]); }
  }

  lemma NextRowsFrame(f: Fine, f': Fine, op: Op, ch: Choice)
    requires |f.to| == |f.db.rows| && f'.db == NextDb(f.db, op, ch)
    requires f'.to == if op.Insert? then f.to + [op.to] else f.to
    ensures RowsFrame(f, f')
  {}

  lemma ExecFrame(f: Fine, t: nat, ch: Choice)
    requires Ready(f, t, ch) && |f.to| == |f.db.rows|
    ensures Frame(f, Exec(f, t, ch))
  {
    hide NextHub, NextDb, NextTodo, HubFrame, RowsFrame, ChoiceOk, HubsFrame, NextHook, NextClosedAt, HookOf;
    var i, op := f.threads[t].inst, f.threads[t].todo[0];
    NextHubFrame(f.hubs[i], f.db, op);
    PutHubFrame(f.hubs, i, NextHub(f.hubs[i], f.db, op));
    NextRowsFrame(f, Exec(f, t, ch), op, ch);
  }

  // ---- the thread that moved

  lemma MapFindsUser(h: HubState, u: UserId)
    requires MapOk(h) && u in h.clients
    ensures h.chans[h.clients[u]].user == u
  {}

  lemma BatchIsFor(f: Fine, f': Fine, u: UserId, batch: seq<MsgId>)
    requires InterleavedStatus.RowsOk(f) && IsPendingBatch(f.db, u, batch) && RowsFrame(f, f')
    ensures forall j | 0 <= j < |batch| :: IsFor(f', batch[j], u)
  {
    forall j | 0 <= j < |batch| ensures IsFor(f', batch[j], u) {
      var m := batch[j];
      InterleavedStatus.PendingUnread(f.db, u, batch, j);
      if f.to[m] != f.db.rows[m].sender {
        InterleavedStatus.PendingIsFor(f, m, u);
      }
      hide InterleavedStatus.RowsOk, IsPendingBatch;
      ForStays(f, f', m, u);
    }
  }

  lemma CopyTaken(f: Fine, f': Fine, i: nat, hook: Option<UserId>, op: Op, ch: Choice)
    requires i < |f.hubs| && InRange(f.hubs[i], f.db, op) && op.Enqueue? && op.why.DmCopy? && OpOk(f, i, hook, op)
    requires Offer(f.hubs[i], op.client) == Accepted
    requires f'.hubs == f.hubs[i := NextHub(f.hubs[i], f.db, op)] && f.to <= f'.to
    ensures Taken(f', op.why.mid)
  {
    var h' := f'.hubs[i];
    assert h'.log == f.hubs[i].log + [Accept(op.client, f.to[op.why.mid], op.packet)];
    assert h'.log[|f.hubs[i].log|].packet == op.packet;
    assert LogTakes(h'.log, op.why.mid, f'.to[op.why.mid]);
  }

  /** What the moving thread's new steps can rely on. */
  ghost predicate Moved(f: Fine, f': Fine, i: nat, op: Op, ch: Choice)
    requires i < |f.hubs| && InRange(f.hubs[i], f.db, op)
  {
    && f'.hubs == f.hubs[i := NextHub(f.hubs[i], f.db, op)]
    && f'.db == NextDb(f.db, op, ch)
    && f'.to == (if op.Insert? then f.to + [op.to] else f.to)
    && Frame(f, f')
  }

  lemma LookupFrontOk(f: Fine, f': Fine, i: nat, hook: Option<UserId>, op: Op, ch: Choice, hook': Option<UserId>)
    requires i < |f.hubs| && op.Lookup? && InRange(f.hubs[i], f.db, op) && Moved(f, f', i, op, ch) && MapOk(f.hubs[i])
    requires OpOk(f, i, hook, op)
    ensures TodoOk(f', i, hook', NextTodo(f.hubs[i], f.db, f.clock, op, [], ch))
  {
    if op.user in f.hubs[i].clients { MapFindsUser(f.hubs[i], op.user); }
    ToGrows(f, f');
    hide MapOk, Frame;
  }

  lemma EnqueueFront(h: HubState, db: Db, clock: nat, op: Op, ch: Choice)
    requires op.Enqueue? && InRange(h, db, op)
    ensures NextTodo(h, db, clock, op, [], ch)
         == match Offer(h, op.client)
            case Accepted => AfterAccepted(op.why)
            case Full => [Evict(op.client)] + AfterRefused(op.why)
            case Panics => []
  {
    hide Offer;
    assert AfterAccepted(op.why) + [] == AfterAccepted(op.why);
    assert [Evict(op.client)] + AfterRefused(op.why) + [] == [Evict(op.client)] + AfterRefused(op.why);
  }

  lemma EnqueueFrontOk(f: Fine, f': Fine, i: nat, hook: Option<UserId>, op: Op, ch: Choice, hook': Option<UserId>)
    requires i < |f.hubs| && op.Enqueue? && InRange(f.hubs[i], f.db, op) && Moved(f, f', i, op, ch)
    requires OpOk(f, i, hook, op)
    ensures TodoOk(f', i, hook', NextTodo(f.hubs[i], f.db, f.clock, op, [], ch))
  {
    ToGrows(f, f');
    assert i < |f'.hubs|;
    if Offer(f.hubs[i], op.client) == Accepted && op.why.DmCopy? { CopyTaken(f, f', i, hook, op, ch); }
    EnqueueFront(f.hubs[i], f.db, f.clock, op, ch);
    hide Moved, InRange, NextTodo, Taken, RowsFrame, Offer, IsFor, TodoOk, OpOk, AfterAccepted, AfterRefused;
    match Offer(f.hubs[i], op.client)
    case Accepted => AcceptedOk(f', i, hook', op.why);
    case Full => RefusedOk(f', i, hook', op.client, op.why);
    case Panics => NothingOk(f', i, hook');
  }

  lemma AcceptedOk(f: Fine, i: nat, hook: Option<UserId>, why: Why)
    requires i < |f.hubs| && (why.DmCopy? ==> Taken(f, why.mid))
    ensures TodoOk(f, i, hook, AfterAccepted(why))
  {
    hide Taken, IsFor;
  }

  lemma RefusedOk(f: Fine, i: nat, hook: Option<UserId>, c: ClientId, why: Why)
    requires i < |f.hubs|
    ensures TodoOk(f, i, hook, [Evict(c)] + AfterRefused(why))
  {
    hide Taken, IsFor;
    assert [Evict(c)] + [] == [Evict(c)];
  }

  lemma NothingOk(f: Fine, i: nat, hook: Option<UserId>)
    ensures TodoOk(f, i, hook, [])
  {}

  lemma InsertFrontOk(f: Fine, f': Fine, i: nat, hook: Option<UserId>, op: Op, ch: Choice, hook': Option<UserId>)
    requires i < |f.hubs| && op.Insert? && InRange(f.hubs[i], f.db, op) && Moved(f, f', i, op, ch)
    requires |f.to| == |f.db.rows|
    ensures TodoOk(f', i, hook', NextTodo(f.hubs[i], f.db, f.clock, op, [], ch))
  {
    hide Frame, Taken, InsertMessage;
  }

  lemma QueryFrontOk(f: Fine, f': Fine, i: nat, op: Op, ch: Choice, hook': Option<UserId>)
    requires i < |f.hubs| && op.QueryPending? && InRange(f.hubs[i], f.db, op) && Moved(f, f', i, op, ch)
    requires InterleavedStatus.RowsOk(f) && ChoiceOk(f.db, op, ch)
    ensures TodoOk(f', i, hook', NextTodo(f.hubs[i], f.db, f.clock, op, [], ch))
  {
    ToGrows(f, f');
    BatchIsFor(f, f', op.user, ch.batch);
    hide Frame, Taken, IsFor, IsPendingBatch, InterleavedStatus.RowsOk;
  }

  /** The steps put in front. */
  lemma FrontOk(f: Fine, f': Fine, i: nat, hook: Option<UserId>, op: Op, ch: Choice, hook': Option<UserId>)
    requires i < |f.hubs| && InRange(f.hubs[i], f.db, op) && Moved(f, f', i, op, ch) && MapOk(f.hubs[i])
    requires InterleavedStatus.RowsOk(f) && ChoiceOk(f.db, op, ch) && OpOk(f, i, hook, op)
    requires op.HookLoop? ==> hook' == Some(op.user)
    ensures TodoOk(f', i, hook', NextTodo(f.hubs[i], f.db, f.clock, op, [], ch))
  {
    RowsSize(f);
    hide *;
    match op
    case Lookup(_, _, _) => LookupFrontOk(f, f', i, hook, op, ch, hook');
    case Enqueue(_, _, _, _) => EnqueueFrontOk(f, f', i, hook, op, ch, hook');
    case QueryPending(_, _) => QueryFrontOk(f, f', i, op, ch, hook');
    case HookLoop(_, _, _, _) => LoopFrontOk(f, f', i, hook, op, ch, hook');
    case Insert(_, _, _, _, _) => InsertFrontOk(f, f', i, hook, op, ch, hook');
    case _ => BareFrontOk(f, f', i, op, ch, hook');
  }

  lemma BareFrontOk(f: Fine, f': Fine, i: nat, op: Op, ch: Choice, hook': Option<UserId>)
    requires i < |f.hubs| && InRange(f.hubs[i], f.db, op) && Moved(f, f', i, op, ch)
    requires !op.Lookup? && !op.Enqueue? && !op.QueryPending? && !op.HookLoop? && !op.Insert?
    ensures TodoOk(f', i, hook', NextTodo(f.hubs[i], f.db, f.clock, op, [], ch))
  {
    hide Taken, IsFor, Frame, NextDb, NextHub, Matches, CreateChat;
  }

  lemma ToGrows(f: Fine, f': Fine)
    requires Frame(f, f')
    ensures f.to <= f'.to && RowsFrame(f, f')
  {}

  lemma RowsSize(f: Fine)
    requires InterleavedStatus.RowsOk(f)
    ensures |f.to| == |f.db.rows|
  {}

  lemma LoopFrontOk(f: Fine, f': Fine, i: nat, hook: Option<UserId>, op: Op, ch: Choice, hook': Option<UserId>)
    requires i < |f.hubs| && op.HookLoop? && InRange(f.hubs[i], f.db, op) && Moved(f, f', i, op, ch)
    requires OpOk(f, i, hook, op)
    requires hook' == Some(op.user)
    ensures TodoOk(f', i, hook', NextTodo(f.hubs[i], f.db, f.clock, op, [], ch))
  {
    if op.pending != [] {
      ToGrows(f, f');
      forall j | 0 <= j < |op.pending|
        ensures IsFor(f', op.pending[j], op.user)
      {
        ForStays(f, f', op.pending[j], op.user);
      }
      hide Frame, IsFor, Taken, StartPumps;
    }
  }

  lemma HookUserTail(front: seq<Op>, rest: seq<Op>)
    requires rest != []
    ensures HookUser(front + rest) == HookUser(rest)
  {}

  lemma TodoSum(f: Fine, i: nat, hook: Option<UserId>, a: seq<Op>, b: seq<Op>)
    requires TodoOk(f, i, hook, a) && TodoOk(f, i, hook, b)
    ensures TodoOk(f, i, hook, a + b)
  {
    hide OpOk;
  }

  lemma ExecMoved(f: Fine, t: nat, ch: Choice)
    requires Ready(f, t, ch) && |f.to| == |f.db.rows|
    ensures Moved(f, Exec(f, t, ch), f.threads[t].inst, f.threads[t].todo[0], ch)
  {
    ExecFrame(f, t, ch);
    hide NextHub, NextDb, NextTodo, Frame, ChoiceOk, NextHook, NextClosedAt, HookOf;
  }

  lemma HeadOk(f: Fine, th: Thread)
    requires ThreadOk(f, th) && th.todo != []
    ensures OpOk(f, th.inst, HookUser(th.todo), th.todo[0])
  {
    hide OpOk, HookUser;
  }

  /** The moved thread's steps: what was put in front, and perhaps what was left. */
  lemma NewTodoOk(f: Fine, f': Fine, i: nat, todo: seq<Op>, front: seq<Op>, todo': seq<Op>)
    requires todo != [] && Frame(f, f') && TodoOk(f, i, HookUser(todo), todo)
    requires TodoOk(f', i, HookUser(todo'), front) && (todo' == front + todo[1..] || todo' == front)
    ensures TodoOk(f', i, HookUser(todo'), todo')
  {
    var rest := todo[1..];
    if rest != [] && todo' == front + rest {
      HookUserTail(front, rest);
      HookUserTail([todo[0]], rest);
      assert todo == [todo[0]] + rest;
      hide TodoOk, HookUser, Frame;
      RestStays(f, f', i, todo);
      TodoSum(f', i, HookUser(todo'), front, rest);
    } else {
      assert rest == [] ==> front + rest == front;
    }
  }

  lemma MovedTodo(f: Fine, t: nat, ch: Choice)
    requires Ready(f, t, ch) && InterleavedStatus.RowsOk(f) && MapOk(f.hubs[f.threads[t].inst])
    requires ThreadOk(f, f.threads[t])
    requires HookClient(f.threads[t].todo[0]).Some? ==> f.threads[t].todo[1..] == []
    ensures ThreadOk(Exec(f, t, ch), Exec(f, t, ch).threads[t])
  {
    var th, f' := f.threads[t], Exec(f, t, ch);
    var i, op, rest := th.inst, th.todo[0], th.todo[1..];
    RowsSize(f);
    ExecMoved(f, t, ch);
    ExecFrame(f, t, ch);
    ReplayFits.TodoAfter(f, t, ch);
    HeadOk(f, th);
    hide Exec, NextTodo, MapOk, InterleavedStatus.RowsOk, ChoiceOk, OpOk, Moved, InRange, HookUser, HookClient,
      Frame, TodoOk;
    var front := NextTodo(f.hubs[i], f.db, f.clock, op, [], ch);
    var todo' := NextTodo(f.hubs[i], f.db, f.clock, op, rest, ch);
    InterleavedHub.TodoSplits(f.hubs[i], f.db, f.clock, op, rest, ch);
    if op.HookLoop? { LoopTodoOk(f, t, ch); } else {
      FrontOk(f, f', i, HookUser(th.todo), op, ch, HookUser(todo'));
      NewTodoOk(f, f', i, th.todo, front, todo');
    }
  }

  lemma LoopTodoOk(f: Fine, t: nat, ch: Choice)
    requires Ready(f, t, ch) && InterleavedStatus.RowsOk(f) && MapOk(f.hubs[f.threads[t].inst])
    requires ThreadOk(f, f.threads[t])
    requires f.threads[t].todo[0].HookLoop? && f.threads[t].todo[1..] == []
    ensures ThreadOk(Exec(f, t, ch), Exec(f, t, ch).threads[t])
  {
    var th, f' := f.threads[t], Exec(f, t, ch);
    var i, op := th.inst, th.todo[0];
    RowsSize(f);
    ExecMoved(f, t, ch);
    ReplayFits.TodoAfter(f, t, ch);
    HeadOk(f, th);
    HookEnds(f.hubs[i], f.db, f.clock, op, ch);
    hide Exec, NextTodo, MapOk, InterleavedStatus.RowsOk, ChoiceOk, OpOk, Moved, InRange, HookUser;
    if op.pending != [] {
      FrontOk(f, f', i, HookUser(th.todo), op, ch, Some(op.user));
    }
  }

  lemma RestStays(f: Fine, f': Fine, i: nat, todo: seq<Op>)
    requires todo != [] && Frame(f, f') && TodoOk(f, i, HookUser(todo), todo)
    ensures TodoOk(f', i, HookUser(todo), todo[1..])
  {
    hide Frame, OpOk, HookUser;
    TodoStays(f, f', i, HookUser(todo), todo);
  }

  /** A hook that goes on keeps its last step. */
  lemma HookEnds(h: HubState, db: Db, clock: nat, op: Op, ch: Choice)
    requires InRange(h, db, op) && op.HookLoop?
    ensures op.pending == [] ==> NextTodo(h, db, clock, op, [], ch) == []
    ensures op.pending != [] ==> HookUser(NextTodo(h, db, clock, op, [], ch)) == Some(op.user)
  {}

  // ---- every step

  lemma OtherThreadOk(f: Fine, f': Fine, th: Thread)
    requires Frame(f, f') && ThreadOk(f, th)
    ensures ThreadOk(f', th)
  {
    hide TodoOk, Frame, HookUser;
    TodoStays(f, f', th.inst, HookUser(th.todo), th.todo);
  }

  lemma AllThreadsOk(f: Fine)
    requires forall t | 0 <= t < |f.threads| :: ThreadOk(f, f.threads[t])
    ensures ThreadsOk(f)
  {}

  lemma ThreadOf(f: Fine, t: nat)
    requires ThreadsOk(f) && t < |f.threads|
    ensures ThreadOk(f, f.threads[t])
  {
    hide ThreadOk;
  }

  lemma TakeKeepsThreads(f: Fine, t: nat, ch: Choice)
    requires Ready(f, t, ch) && InterleavedStatus.RowsOk(f) && InterleavedHub.HubInv(f) && ThreadsOk(f)
    ensures ThreadsOk(Exec(f, t, ch))
  {
    var f' := Exec(f, t, ch);
    RowsSize(f);
    ExecFrame(f, t, ch);
    ReplayFits.TodoAfter(f, t, ch);
    ReplayFits.MapOfFine(f, f.threads[t].inst);
    InterleavedHub.TodoOf(f, t);
    InterleavedHub.TailOk(f, t, f.threads[t]);
    ThreadOf(f, t);
    hide Exec, NextTodo, MapOk, InterleavedStatus.RowsOk, ThreadOk, InterleavedHub.HubInv, InterleavedHub.TodoOk,
      InterleavedHub.OpOk, Frame, InRange, ChoiceOk;
    MovedTodo(f, t, ch);
    forall s | 0 <= s < |f'.threads| ensures ThreadOk(f', f'.threads[s]) {
      if s != t {
        ThreadOf(f, s);
        OtherThreadOk(f, f', f.threads[s]);
      }
    }
    AllThreadsOk(f');
  }

  lemma SameFrame(f: Fine, f': Fine)
    requires f'.hubs == f.hubs && f'.db == f.db && f'.to == f.to && |f.to| == |f.db.rows|
    ensures Frame(f, f')
  {
    forall i | 0 <= i < |f.hubs| ensures HubFrame(f.hubs[i], f'.hubs[i]) { HubItself(f.hubs[i]); }
  }

  lemma StartedOk(f: Fine, th: Thread)
    requires Startable(f, th)
    ensures ThreadOk(f, th)
  {
    hide Taken, IsFor;
  }

  lemma WriteFrame(h: HubState, c: ClientId, ok: bool)
    requires CanWrite(h, c)
    ensures HubFrame(h, Write(h, c, ok))
  {}

  lemma ThreadsStay(f: Fine, f': Fine)
    requires ThreadsOk(f) && Frame(f, f') && f'.threads == f.threads
    ensures ThreadsOk(f')
  {
    hide ThreadOk, Frame;
    forall t | 0 <= t < |f'.threads| ensures ThreadOk(f', f'.threads[t]) {
      ThreadOf(f, t);
      OtherThreadOk(f, f', f.threads[t]);
    }
  }

  lemma SpawnKeepsThreads(f: Fine, th: Thread)
    requires |f.to| == |f.db.rows| && ThreadsOk(f) && Startable(f, th)
    ensures ThreadsOk(FineStep(f, Spawn(th))) && Frame(f, FineStep(f, Spawn(th)))
  {
    var f' := FineStep(f, Spawn(th));
    SameFrame(f, f');
    StartedOk(f, th);
    OtherThreadOk(f, f', th);
    hide ThreadOk, Frame, Startable;
    forall t | 0 <= t < |f'.threads| ensures ThreadOk(f', f'.threads[t]) {
      if t < |f.threads| {
        ThreadOf(f, t);
        OtherThreadOk(f, f', f.threads[t]);
      }
    }
    AllThreadsOk(f');
  }

  lemma DrainKeepsThreads(f: Fine, i: nat, c: ClientId, ok: bool)
    requires |f.to| == |f.db.rows| && ThreadsOk(f) && i < |f.hubs| && i !in f.dead && CanWrite(f.hubs[i], c)
    ensures ThreadsOk(FineStep(f, Drain(i, c, ok))) && Frame(f, FineStep(f, Drain(i, c, ok)))
  {
    var f' := FineStep(f, Drain(i, c, ok));
    WriteFrame(f.hubs[i], c, ok);
    hide ThreadOk, CanWrite, Write, HubFrame, ThreadsOk, HubsFrame;
    PutHubFrame(f.hubs, i, Write(f.hubs[i], c, ok));
    DrainFrame(f, f');
    ThreadsStay(f, f');
  }

  lemma OtherKeepsThreads(f: Fine, e: FineEvent)
    requires InterleavedStatus.RowsOk(f) && ThreadsOk(f) && !e.Take?
    ensures ThreadsOk(FineStep(f, e)) && Frame(f, FineStep(f, e))
  {
    RowsSize(f);
    hide ThreadsOk, Frame, Startable, CanWrite, Write, InterleavedStatus.RowsOk;
    match e
    case Spawn(th) => if Startable(f, th) { SpawnKeepsThreads(f, th); } else { SameFrame(f, f); }
    case Drain(i, c, ok) =>
      if i < |f.hubs| && i !in f.dead && CanWrite(f.hubs[i], c) {
        DrainKeepsThreads(f, i, c, ok);
      } else {
        SameFrame(f, f);
      }
  }

  lemma DrainFrame(f: Fine, f': Fine)
    requires HubsFrame(f.hubs, f'.hubs) && f'.db == f.db && f'.to == f.to && |f.to| == |f.db.rows|
    ensures Frame(f, f')
  {}

  ghost predicate LossInv(f: Fine) {
    ReplayFits.ReplayInv(f) && InterleavedStatus.StatusInv(f) && ThreadsOk(f)
  }

  lemma StepKeepsLoss(f: Fine, e: FineEvent)
    requires LossInv(f)
    ensures LossInv(FineStep(f, e)) && Frame(f, FineStep(f, e))
  {
    hide InterleavedStatus.StatusInv, ReplayFits.ReplayInv, ThreadsOk, Exec, Frame, Ready;
    ReplayFits.StepKeepsReplay(f, e);
    InterleavedStatus.StepKeepsStatus(f, e);
    assert InterleavedStatus.RowsOk(f) && InterleavedHub.HubInv(f) by { InvParts(f); }
    RowsSize(f);
    match e
    case Take(t, ch) =>
      if Ready(f, t, ch) {
        TakeKeepsThreads(f, t, ch);
        ExecFrame(f, t, ch);
      } else {
        SameFrame(f, f);
      }
    case _ => OtherKeepsThreads(f, e);
  }

  lemma InvParts(f: Fine)
    requires LossInv(f)
    ensures InterleavedStatus.RowsOk(f) && InterleavedHub.HubInv(f) && ThreadsOk(f)
  {
    hide InterleavedStatus.RowsOk, InterleavedHub.HubInv, ThreadsOk;
  }

  // ---- why a row is no longer pending

  /**
   Thread t is about to mark row m for its addressee at the end of an offer of a hook that could not rely on
   its queue: more than 156 other sends had been tried on the connection, or it had been replaced.
   */
  ghost predicate MarksUnsafely(f: Fine, t: nat, m: MsgId) {
    exists c: ClientId ::
      && ReplayFits.RunsHook(f, t, c) && 0 <= m < |f.to|
      && f.threads[t].todo[0].Mark? && f.threads[t].todo[0].mid == m && f.threads[t].todo[0].status == Delivered
      && f.hubs[f.threads[t].inst].chans[c].user == f.to[m]
      && ReplayFits.Disturbed(ReplayFits.ConnOf(f, f.threads[t].inst, c))
  }

  /** Event k of the run is such a mark. */
  ghost predicate UnsafeAt(n: nat, es: seq<FineEvent>, k: int, m: MsgId) {
    && 0 <= k < |es| && es[k].Take?
    && Ready(FineRun(FineInit(n), es[..k]), es[k].thread_index, es[k].choice)
    && MarksUnsafely(FineRun(FineInit(n), es[..k]), es[k].thread_index, m)
  }

  ghost predicate MarkedUnsafely(n: nat, es: seq<FineEvent>, m: MsgId) {
    exists k :: UnsafeAt(n, es, k, m)
  }

  ghost predicate Explained(n: nat, es: seq<FineEvent>, f: Fine, m: nat) {
    m in f.readAt || Taken(f, m) || MarkedUnsafely(n, es, m)
  }

  ghost predicate RowSettled(n: nat, es: seq<FineEvent>, m: nat) {
    var f := FineRun(FineInit(n), es);
    m < |f.to| && |f.to| == |f.db.rows| && f.to[m] != f.db.rows[m].sender && f.db.rows[m].status != Sent ==>
      Explained(n, es, f, m)
  }

  lemma ExplainedStays(n: nat, es: seq<FineEvent>, e: FineEvent, f: Fine, f': Fine, m: nat)
    requires Explained(n, es, f, m) && Frame(f, f') && forall x | x in f.readAt :: x in f'.readAt
    ensures Explained(n, es + [e], f', m)
  {
    hide Taken, MarkedUnsafely, Frame;
    if Taken(f, m) { TakenStays(f, f', m); }
    if MarkedUnsafely(n, es, m) { UnsafeStays(n, es, e, m); }
  }

  lemma MarkExplained(n: nat, es: seq<FineEvent>, t: nat, ch: Choice, f: Fine, f': Fine, m: nat)
    requires f == FineRun(FineInit(n), es) && Frame(f, f') && (Taken(f, m) || MarksUnsafely(f, t, m))
    requires Ready(f, t, ch)
    ensures Explained(n, es + [Take(t, ch)], f', m)
  {
    hide Taken, MarkedUnsafely, MarksUnsafely, Frame, FineRun;
    if Taken(f, m) { TakenStays(f, f', m); } else { UnsafeNow(n, es, t, ch, m); }
  }

  lemma UnsafeStays(n: nat, es: seq<FineEvent>, e: FineEvent, m: MsgId)
    requires MarkedUnsafely(n, es, m)
    ensures MarkedUnsafely(n, es + [e], m)
  {
    hide MarksUnsafely, FineRun;
    var k :| UnsafeAt(n, es, k, m);
    assert (es + [e])[..k] == es[..k];
    assert UnsafeAt(n, es + [e], k, m);
  }

  lemma UnsafeNow(n: nat, es: seq<FineEvent>, t: nat, ch: Choice, m: MsgId)
    requires Ready(FineRun(FineInit(n), es), t, ch)
    requires MarksUnsafely(FineRun(FineInit(n), es), t, m)
    ensures MarkedUnsafely(n, es + [Take(t, ch)], m)
  {
    hide MarksUnsafely, FineRun;
    assert (es + [Take(t, ch)])[..|es|] == es;
    assert UnsafeAt(n, es + [Take(t, ch)], |es|, m);
  }

  /** A thread that marks a row nobody is known to have taken runs the hook of the row's addressee. */
  lemma MarkerIsHook(f: Fine, t: nat, m: nat)
    requires ThreadsOk(f) && t < |f.threads| && f.threads[t].todo != []
    requires f.threads[t].todo[0].Mark? && f.threads[t].todo[0].mid == m && f.threads[t].todo[0].status == Delivered
    requires m < |f.to| == |f.db.rows| && f.to[m] != f.db.rows[m].sender && !Taken(f, m)
    ensures HookUser(f.threads[t].todo) == Some(f.to[m]) && HookOf(f.threads[t].todo).Some?
  {
    ThreadOf(f, t);
    HeadOk(f, f.threads[t]);
    hide ThreadsOk, ThreadOk, Taken;
  }

  lemma HookPlaced(f: Fine, t: nat, c: ClientId)
    requires ReplayFits.ReplayInv(f) && t < |f.threads| && HookOf(f.threads[t].todo) == Some(c)
    ensures ReplayFits.RunsHook(f, t, c)
    ensures f.threads[t].todo != []
    ensures ReplayFits.HookOk(ReplayFits.ConnOf(f, f.threads[t].inst, c), t, f.threads[t].todo, c)
  {
    hide InterleavedHub.HubInv, ReplayFits.ConnsOk, ReplayFits.KeysRegistered, ReplayFits.HookOk, ReplayFits.ConnOf,
      ReplayFits.RemovalsOk;
    assert ReplayFits.ThreadOk(f, t, f.threads[t]);
  }

  /** A thread whose next step marks a row: a queue of the addressee took it, or the mark is unsafe. */
  lemma MarkIsSettled(f: Fine, t: nat, m: nat)
    requires LossInv(f) && t < |f.threads| && f.threads[t].todo != []
    requires f.threads[t].todo[0].Mark? && f.threads[t].todo[0].mid == m && f.threads[t].todo[0].status == Delivered
    requires m < |f.to| == |f.db.rows| && f.to[m] != f.db.rows[m].sender
    ensures Taken(f, m) || MarksUnsafely(f, t, m)
  {
    hide InterleavedStatus.StatusInv, ReplayFits.ReplayInv, ThreadsOk, Taken, MarksUnsafely, ReplayFits.HookOk,
      ReplayFits.ConnOf, HookOf, HookUser;
    if !Taken(f, m) {
      MarkerIsHook(f, t, m);
      var c := HookOf(f.threads[t].todo).value;
      HookPlaced(f, t, c);
      HookMarks(f, t, c, f.to[m], m);
    }
  }

  lemma HookMarks(f: Fine, t: nat, c: ClientId, u: UserId, m: nat)
    requires ReplayFits.ReplayInv(f) && t < |f.threads| && ReplayFits.RunsHook(f, t, c) && f.threads[t].todo != []
    requires ReplayFits.HookOk(ReplayFits.ConnOf(f, f.threads[t].inst, c), t, f.threads[t].todo, c)
    requires f.threads[t].todo[0].Mark? && f.threads[t].todo[0].mid == m && f.threads[t].todo[0].status == Delivered
    requires HookUser(f.threads[t].todo) == Some(u) && m < |f.to| && f.to[m] == u
    ensures Taken(f, m) || MarksUnsafely(f, t, m)
  {
    var i, todo := f.threads[t].inst, f.threads[t].todo;
    var v := ReplayFits.ConnOf(f, i, c);
    ReplayFits.ConnIsSeen(f, i, c);
    ReplayFits.HookShape(v, t, todo, c);
    hide ReplayFits.ConnOf, ReplayFits.Disturbed, ReplayFits.Accepted, ReplayFits.ConnsOk, ReplayFits.ThreadsOk,
      ReplayFits.KeysRegistered;
    assert todo[..1][0] == todo[0];
    if !ReplayFits.Disturbed(v) {
      assert ReplayFits.Accepted(f.hubs[i].log, c, m);
      InterleavedHub.HubOfFine(f, i);
      AcceptedTakes(f, i, c, m);
    }
  }

  lemma AcceptedTakes(f: Fine, i: nat, c: ClientId, m: nat)
    requires i < |f.hubs| && HubOk(f.hubs[i]) && c < |f.hubs[i].chans| && ReplayFits.Accepted(f.hubs[i].log, c, m)
    requires m < |f.to| && f.hubs[i].chans[c].user == f.to[m]
    ensures Taken(f, m)
  {
    var log := f.hubs[i].log;
    var k :| 0 <= k < |log| && log[k].client == c && ReplayFits.CopyOf(log[k].packet, m);
    assert LogTakes(log, m, f.to[m]);
  }

  /** What a step may do to the status of one row. */
  predicate StatusStep(f: Fine, f': Fine, op: Op, m: nat) {
    && |f.to| == |f.db.rows| && |f'.to| == |f'.db.rows| && |f.db.rows| <= |f'.db.rows|
    && (forall x | x in f.readAt :: x in f'.readAt)
    && (|f.db.rows| <= m < |f'.db.rows| ==> f'.db.rows[m].status == Sent)
    && (m < |f.db.rows| && f'.db.rows[m].status != f.db.rows[m].status ==>
          op.Mark? && op.mid == m && f'.db.rows[m].status == op.status && (op.status == Read ==> m in f'.readAt))
  }

  lemma StatusMoves(f: Fine, t: nat, ch: Choice, m: nat)
    requires Ready(f, t, ch) && |f.to| == |f.db.rows|
    ensures StatusStep(f, Exec(f, t, ch), f.threads[t].todo[0], m)
  {
    hide NextHub, NextTodo, ChoiceOk, NextHook, NextClosedAt, HookOf, Kills;
  }

  lemma TakeExplains(n: nat, es: seq<FineEvent>, t: nat, ch: Choice, f: Fine, f': Fine, m: nat)
    requires f == FineRun(FineInit(n), es) && LossInv(f) && t < |f.threads| && f.threads[t].todo != []
    requires Ready(f, t, ch)
    requires Frame(f, f') && StatusStep(f, f', f.threads[t].todo[0], m)
    requires m < |f.to| && f.to[m] != f.db.rows[m].sender && f'.db.rows[m].status != Sent
    requires f.db.rows[m].status != Sent ==> Explained(n, es, f, m)
    ensures Explained(n, es + [Take(t, ch)], f', m)
  {
    hide FineRun, LossInv, Explained, Frame, MarksUnsafely, Taken;
    var op := f.threads[t].todo[0];
    if f.db.rows[m].status != Sent {
      ExplainedStays(n, es, Take(t, ch), f, f', m);
    } else if op.status == Delivered {
      MarkIsSettled(f, t, m);
      MarkExplained(n, es, t, ch, f, f', m);
    } else {
      ReadExplains(n, es + [Take(t, ch)], f', m);
    }
  }

  lemma TakeSettles(n: nat, es: seq<FineEvent>, t: nat, ch: Choice, m: nat)
    requires var f := FineRun(FineInit(n), es);
             LossInv(f) && Ready(f, t, ch) && RowSettled(n, es, m)
    ensures RowSettled(n, es + [Take(t, ch)], m)
  {
    var f := FineRun(FineInit(n), es);
    var f' := Exec(f, t, ch);
    Scenes.RunThenStep(FineInit(n), es, Take(t, ch));
    InvParts(f);
    RowsSize(f);
    StatusMoves(f, t, ch, m);
    ExecFrame(f, t, ch);
    hide FineRun, Exec, LossInv, InterleavedStatus.RowsOk, InterleavedHub.HubInv, Explained, HubsFrame, ThreadsOk;
    hide InRange, ChoiceOk;
    if m < |f.to| && f.to[m] != f.db.rows[m].sender && f'.db.rows[m].status != Sent {
      TakeExplains(n, es, t, ch, f, f', m);
    }
  }

  lemma ReadExplains(n: nat, es: seq<FineEvent>, f: Fine, m: nat)
    requires m in f.readAt
    ensures Explained(n, es, f, m)
  {}

  lemma OtherSettles(n: nat, es: seq<FineEvent>, e: FineEvent, m: nat)
    requires var f := FineRun(FineInit(n), es);
             LossInv(f) && RowSettled(n, es, m) && Same(f, FineStep(f, e)) && Frame(f, FineStep(f, e))
    ensures RowSettled(n, es + [e], m)
  {
    var f := FineRun(FineInit(n), es);
    var f' := FineStep(f, e);
    Scenes.RunThenStep(FineInit(n), es, e);
    InvParts(f);
    RowsSize(f);
    hide FineRun, FineStep, LossInv, InterleavedStatus.RowsOk, InterleavedHub.HubInv, Explained, Frame, ThreadsOk;
    if m < |f.to| && Explained(n, es, f, m) { ExplainedStays(n, es, e, f, f', m); }
  }

  predicate Same(f: Fine, f': Fine) {
    f'.db == f.db && f'.to == f.to && f'.readAt == f.readAt
  }

  lemma NothingStored(f: Fine, e: FineEvent)
    requires e.Take? ==> !Ready(f, e.thread_index, e.choice)
    ensures Same(f, FineStep(f, e))
  {
    hide Exec, Ready, Startable, CanWrite, Write;
  }

  lemma StepSettles(n: nat, es: seq<FineEvent>, e: FineEvent, m: nat)
    requires LossInv(FineRun(FineInit(n), es)) && RowSettled(n, es, m)
    ensures RowSettled(n, es + [e], m)
  {
    hide FineRun, LossInv, RowSettled, FineStep, Ready, Frame, Same;
    var f := FineRun(FineInit(n), es);
    StepKeepsLoss(f, e);
    if e.Take? && Ready(f, e.thread_index, e.choice) {
      TakeSettles(n, es, e.thread_index, e.choice, m);
    } else {
      NothingStored(f, e);
      OtherSettles(n, es, e, m);
    }
  }

  lemma InitLoss(n: nat, m: nat)
    ensures LossInv(FineInit(n)) && RowSettled(n, [], m)
  {
    ReplayFits.FineInitReplays(n);
    InterleavedStatus.InitStatus(n);
    hide ReplayFits.ReplayInv, InterleavedStatus.StatusInv, Taken, MarkedUnsafely;
  }

  lemma {:induction false} RunSettles(n: nat, es: seq<FineEvent>, m: nat)
    ensures LossInv(FineRun(FineInit(n), es)) && RowSettled(n, es, m)
    decreases |es|
  {
    hide LossInv, RowSettled, FineStep, FineInit;
    if es == [] {
      InitLoss(n, m);
    } else {
      var front, e := es[..|es| - 1], es[|es| - 1];
      RunSettles(n, front, m);
      hide FineRun;
      StepSettles(n, front, e, m);
      StepKeepsLoss(FineRun(FineInit(n), front), e);
      Scenes.RunThenStep(FineInit(n), front, e);
      assert front + [e] == es;
    }
  }

  /**
   No loss under any interleaving, any number of instances: a stored message between two users is still
   pending for its receiver, or was acknowledged, or was accepted by a queue of its receiver, or some step of
   the run marked it at the end of an offer by a connect hook of its receiver that more than 156 other sends
   or a replacement of its connection had disturbed.
   */
  lemma NoMessageIsLostUnseen(n: nat, es: seq<FineEvent>, m: nat)
    requires m < |FineRun(FineInit(n), es).db.rows|
    ensures var f := FineRun(FineInit(n), es);
            && |f.to| == |f.db.rows|
            && (f.to[m] != f.db.rows[m].sender ==>
                  || m in Pending(f.db, f.to[m])
                  || m in f.readAt
                  || Taken(f, m)
                  || MarkedUnsafely(n, es, m))
  {
    RunSettles(n, es, m);
    InterleavedStatus.PendingIsExactWhenLookupsRace(n, es, m, FineRun(FineInit(n), es).to[m]);
    var f := FineRun(FineInit(n), es);
    InvParts(f);
    RowsSize(f);
    hide FineRun, LossInv, Taken, MarkedUnsafely, InterleavedStatus.RowsOk, InterleavedHub.HubInv, ThreadsOk;
  }
}
