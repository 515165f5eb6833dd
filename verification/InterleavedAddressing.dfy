/** Where packets go under every interleaving: copies to their addressee only, acknowledgements to the sender only. */
module InterleavedAddressing {
  import opened ChatTypes
  import opened HubSpec
  import opened DbSpec
  import opened Interleaving
  import opened InterleavedNoLoss
  import InterleavedHub
  import InterleavedReceipts
  import InterleavedStatus

  /** A copy is for the addressee of its row, an acknowledgement for its sender. */
  predicate Suits(f: Fine, p: Packet, user: UserId) {
    && (p.Message? ==> IsFor(f, p.mid, user) && IsCopy(f.db.rows, p))
    && (p.SentAck? ==> 0 <= p.mid < |f.db.rows| && f.db.rows[p.mid].sender == user)
  }

  predicate OpSuits(f: Fine, i: nat, op: Op) {
    && i < |f.hubs|
    && match op
       case Lookup(u, p, _) => Suits(f, p, u)
       case Enqueue(c, p, _, _) => c < |f.hubs[i].chans| && Suits(f, p, f.hubs[i].chans[c].user)
       case HookLoop(_, u, ms, _) => forall j | 0 <= j < |ms| :: IsFor(f, ms[j], u)
       case _ => true
  }

  predicate TodoSuits(f: Fine, i: nat, todo: seq<Op>) {
    forall k | 0 <= k < |todo| :: OpSuits(f, i, todo[k])
  }

  predicate LogSuits(f: Fine, log: seq<Accept>) {
    forall k | 0 <= k < |log| :: Suits(f, log[k].packet, log[k].user)
  }

  ghost predicate AllSuit(f: Fine) {
    && (forall t | 0 <= t < |f.threads| :: TodoSuits(f, f.threads[t].inst, f.threads[t].todo))
    && (forall i | 0 <= i < |f.hubs| :: LogSuits(f, f.hubs[i].log))
  }

  lemma SuitsStays(f: Fine, f': Fine, p: Packet, user: UserId)
    requires RowsFrame(f, f') && Suits(f, p, user)
    ensures Suits(f', p, user)
  {}

  lemma TodoSuitsStays(f: Fine, f': Fine, i: nat, todo: seq<Op>)
    requires Frame(f, f') && TodoSuits(f, i, todo)
    ensures TodoSuits(f', i, todo)
  {
    forall k | 0 <= k < |todo| ensures OpSuits(f', i, todo[k]) {
      assert OpSuits(f, i, todo[k]);
      OpSuitsStays(f, f', i, todo[k]);
    }
  }

  lemma OpSuitsStays(f: Fine, f': Fine, i: nat, op: Op)
    requires Frame(f, f') && OpSuits(f, i, op)
    ensures OpSuits(f', i, op)
  {
    hide Suits, IsFor, RowsFrame;
    match op
    case Lookup(u, p, _) => SuitsStays(f, f', p, u);
    case Enqueue(c, p, _, _) =>
      assert HubFrame(f.hubs[i], f'.hubs[i]);
      SuitsStays(f, f', p, f.hubs[i].chans[c].user);
    case HookLoop(_, u, ms, _) =>
      forall j | 0 <= j < |ms| ensures IsFor(f', ms[j], u) { ForStays(f, f', ms[j], u); }
    case _ =>
  }

  lemma LogSuitsStays(f: Fine, f': Fine, log: seq<Accept>)
    requires RowsFrame(f, f') && LogSuits(f, log)
    ensures LogSuits(f', log)
  {
    hide Suits, RowsFrame;
    forall k | 0 <= k < |log| ensures Suits(f', log[k].packet, log[k].user) {
      SuitsStays(f, f', log[k].packet, log[k].user);
    }
  }

  // ---- the thread that moved

  lemma FrontSuits(f: Fine, f': Fine, i: nat, op: Op, ch: Choice)
    requires i < |f.hubs| && InRange(f.hubs[i], f.db, op) && Moved(f, f', i, op, ch) && MapOk(f.hubs[i])
    requires InterleavedStatus.RowsOk(f) && ChoiceOk(f.db, op, ch) && OpSuits(f, i, op)
    ensures TodoSuits(f', i, NextTodo(f.hubs[i], f.db, f.clock, op, [], ch))
  {
    RowsSize(f);
    ToGrows(f, f');
    assert i < |f'.hubs| && HubFrame(f.hubs[i], f'.hubs[i]);
    hide *;
    match op
    case Lookup(_, _, _) => LookupSuits(f, f', i, op, ch);
    case QueryPending(_, _) => QuerySuits(f, f', i, op, ch);
    case HookLoop(_, _, _, _) => LoopSuits(f, f', i, op, ch);
    case Insert(_, _, _, _, _) => InsertSuits(f, f', i, op, ch);
    case _ => BareSuits(f, f', i, op, ch);
  }

  lemma LookupSuits(f: Fine, f': Fine, i: nat, op: Op, ch: Choice)
    requires i < |f.hubs| && i < |f'.hubs| && op.Lookup? && InRange(f.hubs[i], f.db, op) && OpSuits(f, i, op)
    requires MapOk(f.hubs[i]) && RowsFrame(f, f') && HubFrame(f.hubs[i], f'.hubs[i])
    ensures TodoSuits(f', i, NextTodo(f.hubs[i], f.db, f.clock, op, [], ch))
  {
    SuitsStays(f, f', op.packet, op.user);
    if op.user in f.hubs[i].clients { MapFindsUser(f.hubs[i], op.user); }
    hide Suits, RowsFrame, MapOk;
  }

  lemma QuerySuits(f: Fine, f': Fine, i: nat, op: Op, ch: Choice)
    requires i < |f.hubs| && i < |f'.hubs| && op.QueryPending? && InRange(f.hubs[i], f.db, op)
    requires InterleavedStatus.RowsOk(f) && ChoiceOk(f.db, op, ch) && RowsFrame(f, f')
    ensures TodoSuits(f', i, NextTodo(f.hubs[i], f.db, f.clock, op, [], ch))
  {
    BatchIsFor(f, f', op.user, ch.batch);
    hide IsFor, IsPendingBatch, InterleavedStatus.RowsOk, RowsFrame;
  }

  lemma LoopSuits(f: Fine, f': Fine, i: nat, op: Op, ch: Choice)
    requires i < |f.hubs| && i < |f'.hubs| && op.HookLoop? && InRange(f.hubs[i], f.db, op) && OpSuits(f, i, op)
    requires RowsFrame(f, f')
    ensures TodoSuits(f', i, NextTodo(f.hubs[i], f.db, f.clock, op, [], ch))
  {
    if op.pending != [] {
      forall j | 0 <= j < |op.pending|
        ensures IsFor(f', op.pending[j], op.user)
      {
        ForStays(f, f', op.pending[j], op.user);
      }
      assert Suits(f', PacketOf(f.db, op.pending[0]), op.user);
      hide IsFor, Suits, RowsFrame, PacketOf;
    }
  }

  lemma InsertSuits(f: Fine, f': Fine, i: nat, op: Op, ch: Choice)
    requires i < |f.hubs| && i < |f'.hubs| && op.Insert? && InRange(f.hubs[i], f.db, op) && Moved(f, f', i, op, ch)
    requires |f.to| == |f.db.rows|
    ensures TodoSuits(f', i, NextTodo(f.hubs[i], f.db, f.clock, op, [], ch))
  {
    hide Frame;
  }

  lemma BareSuits(f: Fine, f': Fine, i: nat, op: Op, ch: Choice)
    requires i < |f.hubs| && i < |f'.hubs| && InRange(f.hubs[i], f.db, op)
    requires !op.Lookup? && !op.QueryPending? && !op.HookLoop? && !op.Insert?
    ensures TodoSuits(f', i, NextTodo(f.hubs[i], f.db, f.clock, op, [], ch))
  {
    hide Suits, IsFor, Offer, Matches, CreateChat;
  }

  lemma SuitsSum(f: Fine, i: nat, a: seq<Op>, b: seq<Op>)
    requires TodoSuits(f, i, a) && TodoSuits(f, i, b)
    ensures TodoSuits(f, i, a + b)
  {
    hide OpSuits;
  }

  lemma SuitsTail(f: Fine, i: nat, todo: seq<Op>)
    requires todo != [] && TodoSuits(f, i, todo)
    ensures TodoSuits(f, i, todo[1..]) && OpSuits(f, i, todo[0])
  {
    hide OpSuits;
  }

  lemma MovedSuits(f: Fine, t: nat, ch: Choice)
    requires Ready(f, t, ch) && InterleavedStatus.RowsOk(f) && InterleavedHub.HubInv(f)
    requires TodoSuits(f, f.threads[t].inst, f.threads[t].todo)
    ensures TodoSuits(Exec(f, t, ch), f.threads[t].inst, Exec(f, t, ch).threads[t].todo)
  {
    var f', i, todo := Exec(f, t, ch), f.threads[t].inst, f.threads[t].todo;
    RowsSize(f);
    ExecMoved(f, t, ch);
    ExecFrame(f, t, ch);
    InterleavedReceipts.ExecMoves(f, t, ch);
    InterleavedHub.HubOfFine(f, i);
    assert MapOk(f.hubs[i]);
    SuitsTail(f, i, todo);
    hide Exec, NextTodo, MapOk, HubOk, InterleavedStatus.RowsOk, InterleavedHub.HubInv, ChoiceOk, OpSuits, TodoSuits,
      Moved, InRange, Frame;
    FrontSuits(f, f', i, todo[0], ch);
    TodoSuitsStays(f, f', i, todo[1..]);
    SuitsSum(f', i, InterleavedReceipts.FrontOf(f, t, ch), todo[1..]);
  }

  lemma ExecLogs(f: Fine, t: nat, ch: Choice, j: nat)
    requires Ready(f, t, ch) && |f.to| == |f.db.rows| && j < |f.hubs|
    requires OpSuits(f, f.threads[t].inst, f.threads[t].todo[0]) && LogSuits(f, f.hubs[j].log)
    ensures LogSuits(Exec(f, t, ch), Exec(f, t, ch).hubs[j].log)
  {
    var f', i, op := Exec(f, t, ch), f.threads[t].inst, f.threads[t].todo[0];
    ExecFrame(f, t, ch);
    ToGrows(f, f');
    LogSuitsStays(f, f', f.hubs[j].log);
    if j == i {
      InterleavedReceipts.NextLog(f.hubs[i], f.db, op);
      assert f'.hubs[i] == NextHub(f.hubs[i], f.db, op);
      hide Exec, NextHub, Frame, InRange, ChoiceOk, InterleavedReceipts.Pushes, RowsFrame;
      if op.Enqueue? {
        SuitsStays(f, f', op.packet, f.hubs[i].chans[op.client].user);
        hide Suits;
      }
    } else {
      assert f'.hubs[j] == f.hubs[j];
    }
  }

  lemma TakeSuits(f: Fine, t: nat, ch: Choice)
    requires Ready(f, t, ch) && InterleavedStatus.RowsOk(f) && InterleavedHub.HubInv(f) && AllSuit(f)
    ensures AllSuit(Exec(f, t, ch))
  {
    var f' := Exec(f, t, ch);
    RowsSize(f);
    MovedSuits(f, t, ch);
    ExecFrame(f, t, ch);
    InterleavedReceipts.ExecMoves(f, t, ch);
    SuitsTail(f, f.threads[t].inst, f.threads[t].todo);
    assert |f'.hubs| == |f.hubs|;
    forall i | 0 <= i < |f'.hubs| ensures LogSuits(f', f'.hubs[i].log) { ExecLogs(f, t, ch, i); }
    hide Exec, InterleavedStatus.RowsOk, InterleavedHub.HubInv, ChoiceOk, OpSuits, TodoSuits, InRange, Frame, LogSuits;
    forall s | 0 <= s < |f'.threads| ensures TodoSuits(f', f'.threads[s].inst, f'.threads[s].todo) {
      if s != t { TodoSuitsStays(f, f', f.threads[s].inst, f.threads[s].todo); }
    }
  }

  lemma StartSuits(f: Fine, th: Thread)
    requires Startable(f, th) && |f.to| == |f.db.rows|
    ensures TodoSuits(f, th.inst, th.todo)
  {}

  lemma OtherSuits(f: Fine, e: FineEvent)
    requires e.Take? ==> !Ready(f, e.thread_index, e.choice)
    requires AllSuit(f) && |f.to| == |f.db.rows| && Frame(f, FineStep(f, e))
    ensures AllSuit(FineStep(f, e))
  {
    var f' := FineStep(f, e);
    InterleavedReceipts.OtherIsQuiet(f, e);
    ToGrows(f, f');
    hide FineStep, Ready, TodoSuits, LogSuits, RowsFrame;
    if e.Spawn? && Startable(f, e.thread) { StartSuits(f, e.thread); }
    hide Startable, Frame;
    forall i | 0 <= i < |f'.hubs| ensures LogSuits(f', f'.hubs[i].log) { LogSuitsStays(f, f', f.hubs[i].log); }
    forall t | 0 <= t < |f'.threads| ensures TodoSuits(f', f'.threads[t].inst, f'.threads[t].todo) {
      if t < |f.threads| { TodoSuitsStays(f, f', f.threads[t].inst, f.threads[t].todo); }
      else { TodoSuitsStays(f, f', e.thread.inst, e.thread.todo); }
    }
  }

  lemma StepSuits(f: Fine, e: FineEvent)
    requires LossInv(f) && AllSuit(f)
    ensures AllSuit(FineStep(f, e))
  {
    StepKeepsLoss(f, e);
    InvParts(f);
    RowsSize(f);
    hide LossInv, AllSuit, InterleavedStatus.RowsOk, InterleavedHub.HubInv, ThreadsOk, Exec, Ready, Frame;
    if e.Take? && Ready(f, e.thread_index, e.choice) {
      TakeSuits(f, e.thread_index, e.choice);
    } else {
      OtherSuits(f, e);
    }
  }

  lemma {:induction false} RunSuits(f: Fine, es: seq<FineEvent>)
    requires LossInv(f) && AllSuit(f)
    ensures LossInv(FineRun(f, es)) && AllSuit(FineRun(f, es))
    decreases |es|
  {
    hide LossInv, AllSuit, FineStep, Frame;
    if es != [] {
      StepSuits(f, es[0]);
      StepKeepsLoss(f, es[0]);
      RunSuits(FineStep(f, es[0]), es[1..]);
    }
  }

  /**
   Under every interleaving a queue that accepted a copy of a message between two users is a queue of its
   addressee, and one that accepted its acknowledgement is a queue of its sender. Every copy carries its row.
   */
  lemma PacketsReachOnlyTheirUser(n: nat, es: seq<FineEvent>, i: nat, k: nat)
    requires i < |FineRun(FineInit(n), es).hubs| && k < |FineRun(FineInit(n), es).hubs[i].log|
    ensures var f := FineRun(FineInit(n), es);
            var a := f.hubs[i].log[k];
            && |f.to| == |f.db.rows|
            && (a.packet.Message? ==>
                  && 0 <= a.packet.mid < |f.to|
                  && (f.to[a.packet.mid] != f.db.rows[a.packet.mid].sender ==> a.user == f.to[a.packet.mid])
                  && var row := f.db.rows[a.packet.mid];
                     a.packet == Message(a.packet.mid, row.sender, row.body, row.createdAt))
            && (a.packet.SentAck? ==>
                  0 <= a.packet.mid < |f.db.rows| && a.user == f.db.rows[a.packet.mid].sender)
  {
    InitLoss(n, 0);
    RunSuits(FineInit(n), es);
    var f := FineRun(FineInit(n), es);
    InvParts(f);
    RowsSize(f);
    hide FineRun, FineInit, LossInv, ThreadsOk, InterleavedStatus.RowsOk, InterleavedHub.HubInv;
    assert LogSuits(f, f.hubs[i].log);
    assert Suits(f, f.hubs[i].log[k].packet, f.hubs[i].log[k].user);
  }
}
