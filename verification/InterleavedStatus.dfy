/** Message status and the pending query under every interleaving of lock-sized steps. */
module InterleavedStatus {
  import opened ChatTypes
  import opened HubSpec
  import opened DbSpec
  import opened Interleaving
  import Backlog

  /** A later write of `delivered` was decided at `since`: if the row is read by now, the read came after that. */
  predicate ClaimOk(f: Fine, m: MsgId, since: nat) {
    && 0 <= m < |f.db.rows|
    && since < f.clock
    && (f.db.rows[m].status == Read ==> m in f.readAt && since < f.readAt[m])
  }

  predicate WhyOk(f: Fine, why: Why) {
    why.DmCopy? ==> ClaimOk(f, why.mid, why.since)
  }

  predicate OpOk(f: Fine, op: Op) {
    match op
    case Insert(chat, from, to, _, _) => (chat, from) in f.db.members && (chat, to) in f.db.members
    case Lookup(_, _, why) => WhyOk(f, why)
    case Enqueue(_, _, why, _) => WhyOk(f, why)
    case Mark(m, status, since) => status != Sent && (status == Delivered ==> ClaimOk(f, m, since))
    case HookLoop(_, _, ms, since) => forall j | 0 <= j < |ms| :: ClaimOk(f, ms[j], since)
    case _ => true
  }

  predicate TodoOk(f: Fine, todo: seq<Op>) {
    forall k | 0 <= k < |todo| :: OpOk(f, todo[k])
  }

  ghost predicate RowsOk(f: Fine) {
    && DbOk(f.db)
    && |f.to| == |f.db.rows|
    && (forall m | 0 <= m < |f.to| :: (f.db.rows[m].chat, f.to[m]) in f.db.members)
    && (forall m | m in f.readAt :: f.readAt[m] < f.clock)
  }

  ghost predicate StatusInv(f: Fine) {
    && RowsOk(f)
    && (forall t | 0 <= t < |f.threads| :: TodoOk(f, f.threads[t].todo))
  }

  /** What a step may do to claims held anywhere. */
  predicate Frame(f: Fine, f': Fine) {
    && |f.db.rows| <= |f'.db.rows|
    && f.db.members <= f'.db.members
    && f.clock < f'.clock
    && (forall m | m in f.readAt :: m in f'.readAt && f.readAt[m] <= f'.readAt[m])
    && (forall m | 0 <= m < |f.db.rows| && f'.db.rows[m].status == Read ::
          f.db.rows[m].status == Read || (m in f'.readAt && f'.readAt[m] == f.clock))
  }

  lemma ClaimStays(f: Fine, f': Fine, m: MsgId, since: nat)
    requires Frame(f, f') && ClaimOk(f, m, since)
    ensures ClaimOk(f', m, since)
  {}

  lemma OpStays(f: Fine, f': Fine, op: Op)
    requires Frame(f, f') && OpOk(f, op)
    ensures OpOk(f', op)
  {
    hide Frame, ClaimOk;
    match op
    case Insert(_, _, _, _, _) => MembersGrow(f, f');
    case Lookup(_, _, why) => if why.DmCopy? { ClaimStays(f, f', why.mid, why.since); }
    case Enqueue(_, _, why, _) => if why.DmCopy? { ClaimStays(f, f', why.mid, why.since); }
    case Mark(m, status, since) => if status == Delivered { ClaimStays(f, f', m, since); }
    case HookLoop(_, _, ms, since) =>
      forall j | 0 <= j < |ms| ensures ClaimOk(f', ms[j], since) {
        ClaimStays(f, f', ms[j], since);
      }
    case _ =>
  }

  lemma MembersGrow(f: Fine, f': Fine)
    requires Frame(f, f')
    ensures f.db.members <= f'.db.members
  {}

  lemma TodoStays(f: Fine, f': Fine, todo: seq<Op>)
    requires Frame(f, f') && TodoOk(f, todo)
    ensures TodoOk(f', todo)
  {
    hide Frame, OpOk;
    forall k | 0 <= k < |todo| ensures OpOk(f', todo[k]) {
      OpStays(f, f', todo[k]);
    }
  }

  predicate DbMoved(f: Fine, f': Fine, op: Op, ch: Choice) {
    && f'.db == NextDb(f.db, op, ch)
    && f'.to == (if op.Insert? then f.to + [op.to] else f.to)
    && f'.clock == f.clock + 1
    && f'.readAt == NextReadAt(f.readAt, f.clock, op)
  }

  lemma MakeChatMoves(f: Fine, f': Fine, op: Op, ch: Choice)
    requires RowsOk(f) && op.MakeChat? && DbMoved(f, f', op, ch)
    ensures RowsOk(f') && Frame(f, f')
  {
    if op.from != op.to { CreateKeepsTables(f.db, op.from, op.to); }
    hide DbOk;
  }

  lemma InsertMoves(f: Fine, f': Fine, op: Op, ch: Choice)
    requires RowsOk(f) && op.Insert? && OpOk(f, op) && DbMoved(f, f', op, ch)
    ensures RowsOk(f') && Frame(f, f')
  {
    InsertKeepsTables(f.db, op.chat, op.from, op.body, ch.now);
    hide DbOk;
  }

  lemma MarkMoves(f: Fine, f': Fine, op: Op, ch: Choice)
    requires RowsOk(f) && op.Mark? && OpOk(f, op) && DbMoved(f, f', op, ch)
    ensures RowsOk(f') && Frame(f, f')
  {
    UpdateKeepsTables(f.db, op.mid, op.status);
    hide DbOk;
  }

  lemma ExecDb(f: Fine, t: nat, ch: Choice)
    requires Ready(f, t, ch) && RowsOk(f) && OpOk(f, f.threads[t].todo[0])
    ensures RowsOk(Exec(f, t, ch)) && Frame(f, Exec(f, t, ch))
  {
    hide NextHub, NextTodo, RowsOk, ChoiceOk, InRange, OpOk, Frame;
    var op := f.threads[t].todo[0];
    var f' := Exec(f, t, ch);
    assert DbMoved(f, f', op, ch);
    if op.MakeChat? {
      MakeChatMoves(f, f', op, ch);
    } else if op.Insert? {
      InsertMoves(f, f', op, ch);
    } else if op.Mark? {
      MarkMoves(f, f', op, ch);
    } else {
      SameRows(f, f');
    }
  }

  /** The new steps of the thread that moved. */
  lemma MovedTodo(f: Fine, t: nat, ch: Choice)
    requires Ready(f, t, ch) && RowsOk(f) && TodoOk(f, f.threads[t].todo)
    ensures TodoOk(Exec(f, t, ch), Exec(f, t, ch).threads[t].todo)
  {
    var th := f.threads[t];
    var op, rest := th.todo[0], th.todo[1..];
    var f' := Exec(f, t, ch);
    assert OpOk(f, op) && TodoOk(f, rest);
    ExecDb(f, t, ch);
    TodoStays(f, f', rest);
    OpStays(f, f', op);
    assert f'.threads[t].todo == NextTodo(f.hubs[th.inst], f.db, f.clock, op, rest, ch);
    assert f'.db == NextDb(f.db, op, ch) && f'.clock == f.clock + 1 && f'.readAt == NextReadAt(f.readAt, f.clock, op);
    hide Exec, DbOk, Frame, RowsOk;
    if op.FindChat? || op.MakeChat? {
      hide NextTodo, OpOk, NextReadAt;
      ChatTodo(f, f', f.hubs[th.inst], op, rest, ch);
    } else {
      hide FindOrCreateChat, CreateChat, Matches;
      OtherTodo(f, f', f.hubs[th.inst], op, rest, ch);
    }
  }

  lemma ChatTodo(f: Fine, f': Fine, h: HubState, op: Op, rest: seq<Op>, ch: Choice)
    requires op.FindChat? || op.MakeChat?
    requires InRange(h, f.db, op) && ChoiceOk(f.db, op, ch) && f'.db == NextDb(f.db, op, ch)
    requires TodoOk(f', rest)
    ensures TodoOk(f', NextTodo(h, f.db, f.clock, op, rest, ch))
  {}

  lemma OtherTodo(f: Fine, f': Fine, h: HubState, op: Op, rest: seq<Op>, ch: Choice)
    requires !op.FindChat? && !op.MakeChat?
    requires InRange(h, f.db, op) && ChoiceOk(f.db, op, ch)
    requires f'.db == NextDb(f.db, op, ch) && f'.clock == f.clock + 1 && f'.readAt == NextReadAt(f.readAt, f.clock, op)
    requires TodoOk(f', rest) && OpOk(f', op)
    ensures TodoOk(f', NextTodo(h, f.db, f.clock, op, rest, ch))
  {
    hide CreateChat, Matches, IsPendingBatch;
    match op
    case QueryPending(u, c) =>
      forall j | 0 <= j < |ch.batch| ensures ClaimOk(f', ch.batch[j], f.clock) {
        PendingUnread(f.db, u, ch.batch, j);
      }
    case _ =>
  }

  lemma PendingUnread(db: Db, u: UserId, batch: seq<MsgId>, j: nat)
    requires IsPendingBatch(db, u, batch) && j < |batch|
    ensures IsPending(db, u, batch[j])
  {}

  lemma ExecKeepsStatus(f: Fine, t: nat, ch: Choice)
    requires Ready(f, t, ch) && StatusInv(f)
    ensures StatusInv(Exec(f, t, ch)) && Frame(f, Exec(f, t, ch))
  {
    var f' := Exec(f, t, ch);
    assert TodoOk(f, f.threads[t].todo);
    assert OpOk(f, f.threads[t].todo[0]);
    ExecDb(f, t, ch);
    MovedTodo(f, t, ch);
    assert |f'.threads| == |f.threads| && forall s | 0 <= s < |f.threads| && s != t :: f'.threads[s] == f.threads[s];
    hide Exec, Ready, RowsOk, Frame, TodoOk, OpOk;
    forall s | 0 <= s < |f'.threads| ensures TodoOk(f', f'.threads[s].todo) {
      if s != t {
        TodoStays(f, f', f.threads[s].todo);
      }
    }
  }

  lemma SameRows(f: Fine, f': Fine)
    requires RowsOk(f) && f'.db == f.db && f'.to == f.to && f'.readAt == f.readAt && f.clock < f'.clock
    ensures RowsOk(f') && Frame(f, f')
  {
    hide DbOk;
  }

  lemma StartOk(f: Fine, th: Thread)
    requires Startable(f, th)
    ensures TodoOk(f, th.todo)
  {}

  lemma StepKeepsStatus(f: Fine, e: FineEvent)
    requires StatusInv(f)
    ensures StatusInv(FineStep(f, e))
  {
    hide Exec, Ready, RowsOk, TodoOk, Startable, Frame, CanWrite;
    var f' := FineStep(f, e);
    match e
    case Take(t, ch) => if Ready(f, t, ch) { ExecKeepsStatus(f, t, ch); }
    case Spawn(th) =>
      if Startable(f, th) {
        SameRows(f, f');
        StartOk(f, th);
        TodoStays(f, f', th.todo);
        forall t | 0 <= t < |f'.threads| ensures TodoOk(f', f'.threads[t].todo) {
          if t < |f.threads| { TodoStays(f, f', f.threads[t].todo); }
        }
      }
    case Drain(i, c, ok) =>
      if f' != f {
        SameRows(f, f');
        forall t | 0 <= t < |f'.threads| ensures TodoOk(f', f'.threads[t].todo) {
          TodoStays(f, f', f.threads[t].todo);
        }
      }
  }

  lemma {:induction false} RunKeepsStatus(f: Fine, es: seq<FineEvent>)
    requires StatusInv(f)
    ensures StatusInv(FineRun(f, es))
    decreases |es|
  {
    hide StatusInv, FineStep;
    if es != [] {
      StepKeepsStatus(f, es[0]);
      RunKeepsStatus(FineStep(f, es[0]), es[1..]);
    }
  }

  // ---- the guarantees

  lemma NextDbStatus(f: Fine, op: Op, ch: Choice, m: nat)
    requires OpOk(f, op) && m < |f.db.rows|
    ensures var db' := NextDb(f.db, op, ch);
            && m < |db'.rows|
            && (db'.rows[m].status == Sent ==> f.db.rows[m].status == Sent)
            && (Rank(db'.rows[m].status) < Rank(f.db.rows[m].status) <==>
                  op.Mark? && op.mid == m && op.status == Delivered && f.db.rows[m].status == Read)
  {}

  /**
   Status under every interleaving: no row returns to `sent`, so none becomes pending again. A status falls
   exactly when a handler's late write of `delivered` finds the row read, and then an acknowledgement
   marked it read after that handler had stored the row or listed it as pending.
   */
  lemma StatusFallsOnlyByLateWrite(n: nat, es: seq<FineEvent>, t: nat, ch: Choice, m: nat)
    requires Ready(FineRun(FineInit(n), es), t, ch) && m < |FineRun(FineInit(n), es).db.rows|
    ensures var f := FineRun(FineInit(n), es);
            var f' := Exec(f, t, ch);
            var op := f.threads[t].todo[0];
            && m < |f'.db.rows|
            && (f'.db.rows[m].status == Sent ==> f.db.rows[m].status == Sent)
            && (Rank(f'.db.rows[m].status) < Rank(f.db.rows[m].status) <==>
                  op.Mark? && op.mid == m && op.status == Delivered && f.db.rows[m].status == Read)
            && (op.Mark? && op.status == Delivered && f.db.rows[m].status == Read && op.mid == m ==>
                  m in f.readAt && op.since < f.readAt[m] < f.clock)
  {
    hide FineRun, NextHub, NextTodo, DbOk;
    InitStatus(n);
    RunKeepsStatus(FineInit(n), es);
    var f := FineRun(FineInit(n), es);
    assert TodoOk(f, f.threads[t].todo);
    assert OpOk(f, f.threads[t].todo[0]);
    NextDbStatus(f, f.threads[t].todo[0], ch, m);
    hide NextDb;
  }

  lemma InitStatus(n: nat)
    ensures StatusInv(FineInit(n))
  {}

  /** The tables stay well-formed. */
  lemma TablesInRun(n: nat, es: seq<FineEvent>)
    ensures DbOk(FineRun(FineInit(n), es).db)
  {
    InitStatus(n);
    RunKeepsStatus(FineInit(n), es);
    hide DbOk, FineRun, FineInit;
  }

  /** A row pending for a user was addressed to him. */
  lemma PendingIsFor(f: Fine, m: MsgId, user: UserId)
    requires RowsOk(f) && IsPending(f.db, user, m) && f.to[m] != f.db.rows[m].sender
    ensures f.to[m] == user
  {
    Backlog.PendingIsExact(f.db, f.to[m], user, m);
    assert m in Pending(f.db, user);
  }

  /** The pending query stays exact even when racing lookups create two chats for one pair. */
  lemma PendingIsExactWhenLookupsRace(n: nat, es: seq<FineEvent>, m: nat, user: UserId)
    requires m < |FineRun(FineInit(n), es).db.rows|
    ensures var f := FineRun(FineInit(n), es);
            && |f.to| == |f.db.rows|
            && (f.to[m] != f.db.rows[m].sender ==>
                  (m in Pending(f.db, user) <==> f.db.rows[m].status == Sent && user == f.to[m]))
  {
    hide FineRun, DbOk;
    InitStatus(n);
    RunKeepsStatus(FineInit(n), es);
    var f := FineRun(FineInit(n), es);
    hide TodoOk;
    if f.to[m] != f.db.rows[m].sender {
      Backlog.PendingIsExact(f.db, f.to[m], user, m);
    }
  }
}
