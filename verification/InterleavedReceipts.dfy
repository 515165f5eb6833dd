/**
 The order of receipts under every interleaving of lock-sized steps: a `read` notice overtakes the `sent`
 acknowledgement of its message exactly if it is queued while the handler that stored the message still has
 the acknowledgement to send.
 */
module InterleavedReceipts {
  import opened ChatTypes
  import opened HubSpec
  import opened DbSpec
  import opened Interleaving
  import InterleavedHub
  import Scenes

  // ---- where an acknowledgement is

  predicate IsAck(p: Packet, m: MsgId) { p.SentAck? && p.mid == m }

  /** The step is on its way to queue the packet. */
  predicate Loads(op: Op, p: Packet) {
    (op.Lookup? || op.Enqueue?) && op.packet == p
  }

  predicate AckOp(op: Op, m: MsgId) {
    (op.Lookup? || op.Enqueue?) && IsAck(op.packet, m)
  }

  /** What was accepted for a connection, in order. */
  function StreamOf(f: Fine, i: nat, c: ClientId): seq<Packet> {
    if i < |f.hubs| then Project(f.hubs[i].log, c) else []
  }

  /** A step some thread has left, or a packet accepted for some connection. */
  datatype Place = Todo(t: nat, k: nat) | Stream(i: nat, c: ClientId, k: nat)

  predicate StandsAt(f: Fine, p: Place, m: MsgId) {
    match p
    case Todo(t, k) => t < |f.threads| && k < |f.threads[t].todo| && AckOp(f.threads[t].todo[k], m)
    case Stream(i, c, k) => k < |StreamOf(f, i, c)| && IsAck(StreamOf(f, i, c)[k], m)
  }

  /** Some handler still has the acknowledgement to send. */
  ghost predicate Held(f: Fine, m: MsgId) {
    exists t: nat, k: nat :: StandsAt(f, Todo(t, k), m)
  }

  ghost predicate AcksOnce(f: Fine) {
    forall p, q, m | StandsAt(f, p, m) && StandsAt(f, q, m) :: p == q
  }

  ghost predicate AcksStored(f: Fine) {
    forall p, m | StandsAt(f, p, m) :: 0 <= m < |f.db.rows|
  }

  // ---- one step

  /** The packet a step puts on a connection's queue. */
  predicate Pushes(h: HubState, op: Op, c: ClientId) {
    op.Enqueue? && op.client == c && c < |h.chans| && Offer(h, c) == Accepted
  }

  lemma NextLog(h: HubState, db: Db, op: Op)
    requires InRange(h, db, op)
    ensures NextHub(h, db, op).log
         == h.log + if op.Enqueue? && Pushes(h, op, op.client)
                    then [Accept(op.client, h.chans[op.client].user, op.packet)] else []
  {
    assert h.log + [] == h.log;
  }

  lemma NextProject(h: HubState, db: Db, op: Op, c: ClientId)
    requires InRange(h, db, op)
    ensures Project(NextHub(h, db, op).log, c) == Project(h.log, c) + if Pushes(h, op, c) then [op.packet] else []
  {
    NextLog(h, db, op);
    hide NextHub;
    assert h.log + [] == h.log && Project(h.log, c) + [] == Project(h.log, c);
    if op.Enqueue? && Pushes(h, op, op.client) {
      ProjectAppend(h.log, Accept(op.client, h.chans[op.client].user, op.packet), c);
    }
  }

  /** The thread that moves, before and after. */
  predicate Moves(f: Fine, f': Fine, t: nat, front: seq<Op>) {
    && t < |f.threads| && f.threads[t].todo != [] && |f'.threads| == |f.threads|
    && f'.threads[t].inst == f.threads[t].inst
    && (forall s | 0 <= s < |f.threads| && s != t :: f'.threads[s] == f.threads[s])
    && (f'.threads[t].todo == front + f.threads[t].todo[1..] || f'.threads[t].todo == front)
  }

  function FrontOf(f: Fine, t: nat, ch: Choice): seq<Op>
    requires t < |f.threads| && f.threads[t].inst < |f.hubs| && f.threads[t].todo != []
    requires InRange(f.hubs[f.threads[t].inst], f.db, f.threads[t].todo[0])
  {
    NextTodo(f.hubs[f.threads[t].inst], f.db, f.clock, f.threads[t].todo[0], [], ch)
  }

  lemma ExecMoves(f: Fine, t: nat, ch: Choice)
    requires Ready(f, t, ch) && InterleavedHub.HubInv(f)
    ensures Moves(f, Exec(f, t, ch), t, FrontOf(f, t, ch))
  {
    var th := f.threads[t];
    InterleavedHub.TodoOf(f, t);
    InterleavedHub.TailOk(f, t, th);
    InterleavedHub.TodoSplits(f.hubs[th.inst], f.db, f.clock, th.todo[0], th.todo[1..], ch);
    hide NextTodo, NextHub, NextDb, InRange, ChoiceOk, InterleavedHub.HubInv, InterleavedHub.TodoOk,
      InterleavedHub.OpOk, HookOf, HookClient, Kills, NextHook, NextClosedAt;
  }

  /** New steps with an acknowledgement: that of the row just stored, or the one just looked up for. */
  lemma FrontAcks(h: HubState, db: Db, clock: nat, op: Op, ch: Choice, k: nat, m: MsgId)
    requires InRange(h, db, op) && k < |NextTodo(h, db, clock, op, [], ch)|
    requires AckOp(NextTodo(h, db, clock, op, [], ch)[k], m)
    ensures (op.Insert? && k == 1 && m == |db.rows|) || (op.Lookup? && k == 0 && AckOp(op, m))
  {
    hide Matches, CreateChat, Offer, PacketOf;
    if op.HookLoop? { LoopFront(h, db, clock, op, ch, k); }
  }

  lemma LoopFront(h: HubState, db: Db, clock: nat, op: Op, ch: Choice, k: nat)
    requires op.HookLoop? && InRange(h, db, op) && k < |NextTodo(h, db, clock, op, [], ch)|
    ensures var x := NextTodo(h, db, clock, op, [], ch)[k]; !x.Enqueue? && (x.Lookup? ==> x.packet.Message?)
  {}

  lemma ExecStream(f: Fine, t: nat, ch: Choice, i: nat, c: ClientId)
    requires Ready(f, t, ch)
    ensures var op := f.threads[t].todo[0];
            StreamOf(Exec(f, t, ch), i, c) == StreamOf(f, i, c)
              + if i == f.threads[t].inst && Pushes(f.hubs[i], op, c) then [op.packet] else []
  {
    var th := f.threads[t];
    NextProject(f.hubs[th.inst], f.db, th.todo[0], c);
    hide NextHub, NextTodo, NextDb, InRange, ChoiceOk, HookOf, Kills, NextHook, NextClosedAt, Pushes, Project;
    assert StreamOf(f, i, c) + [] == StreamOf(f, i, c);
  }

  /** Where a place comes from. */
  function Back(f: Fine, t: nat, front: seq<Op>, p: Place): Place {
    match p
    case Todo(s, k) => if s != t then p else Todo(t, if k < |front| then 0 else k - |front| + 1)
    case Stream(i, c, k) => if k < |StreamOf(f, i, c)| then p else Todo(t, 0)
  }

  /** The moved thread's places, seen from its lists of steps alone. */
  lemma ListBack(todo: seq<Op>, front: seq<Op>, todo': seq<Op>, k: nat)
    requires todo != [] && (todo' == front + todo[1..] || todo' == front) && k < |todo'|
    ensures if k < |front| then todo'[k] == front[k]
            else k - |front| + 1 < |todo| && todo'[k] == todo[k - |front| + 1]
  {}

  lemma TodoBack(f: Fine, t: nat, ch: Choice, s: nat, k: nat, m: MsgId)
    requires Ready(f, t, ch) && InterleavedHub.HubInv(f) && StandsAt(Exec(f, t, ch), Todo(s, k), m)
    ensures var op, front := f.threads[t].todo[0], FrontOf(f, t, ch);
            || (op.Insert? && s == t && k == 1 < |front| && m == |f.db.rows|)
            || (StandsAt(f, Back(f, t, front, Todo(s, k)), m) && (s == t && k < |front| ==> op.Lookup? && k == 0))
  {
    ExecMoves(f, t, ch);
    hide Exec, NextTodo, InRange, ChoiceOk, InterleavedHub.HubInv, FrontOf, AckOp;
    if s == t { OwnBack(f, t, ch, Exec(f, t, ch), k, m); }
  }

  lemma OwnBack(f: Fine, t: nat, ch: Choice, f': Fine, k: nat, m: MsgId)
    requires Ready(f, t, ch) && Moves(f, f', t, FrontOf(f, t, ch)) && StandsAt(f', Todo(t, k), m)
    ensures var op, front := f.threads[t].todo[0], FrontOf(f, t, ch);
            || (op.Insert? && k == 1 < |front| && m == |f.db.rows|)
            || (StandsAt(f, Back(f, t, front, Todo(t, k)), m) && (k < |front| ==> op.Lookup? && k == 0))
  {
    var front := FrontOf(f, t, ch);
    hide InRange, ChoiceOk, FrontOf, AckOp;
    ListBack(f.threads[t].todo, front, f'.threads[t].todo, k);
    if k < |front| { FrontBack(f, t, ch, k, m); }
  }

  lemma FrontBack(f: Fine, t: nat, ch: Choice, k: nat, m: MsgId)
    requires Ready(f, t, ch) && k < |FrontOf(f, t, ch)| && AckOp(FrontOf(f, t, ch)[k], m)
    ensures var op := f.threads[t].todo[0];
            (op.Insert? && k == 1 && m == |f.db.rows|) || (op.Lookup? && k == 0 && AckOp(op, m))
  {
    FrontAcks(f.hubs[f.threads[t].inst], f.db, f.clock, f.threads[t].todo[0], ch, k, m);
    hide NextTodo, InRange, ChoiceOk, AckOp;
  }

  lemma StreamBack(f: Fine, t: nat, ch: Choice, i: nat, c: ClientId, k: nat, m: MsgId)
    requires Ready(f, t, ch) && StandsAt(Exec(f, t, ch), Stream(i, c, k), m)
    ensures StandsAt(f, Back(f, t, FrontOf(f, t, ch), Stream(i, c, k)), m)
    ensures k >= |StreamOf(f, i, c)| ==>
              k == |StreamOf(f, i, c)| && f.threads[t].todo[0].Enqueue? && c == f.threads[t].todo[0].client
              && i == f.threads[t].inst
  {
    ExecStream(f, t, ch, i, c);
    hide Exec, StreamOf, Offer, InRange, ChoiceOk;
  }

  lemma PlaceBack(f: Fine, t: nat, ch: Choice, p: Place, m: MsgId)
    requires Ready(f, t, ch) && InterleavedHub.HubInv(f) && StandsAt(Exec(f, t, ch), p, m)
    ensures || (p == Todo(t, 1) && m == |f.db.rows| && f.threads[t].todo[0].Insert?)
            || StandsAt(f, Back(f, t, FrontOf(f, t, ch), p), m)
  {
    hide StandsAt, Exec, InterleavedHub.HubInv, Back, InRange, ChoiceOk;
    match p
    case Todo(s, k) => TodoBack(f, t, ch, s, k, m);
    case Stream(i, c, k) => StreamBack(f, t, ch, i, c, k, m);
  }

  /** Two places do not come from one. */
  lemma BackIsOne(f: Fine, t: nat, ch: Choice, p: Place, q: Place, m: MsgId)
    requires Ready(f, t, ch) && InterleavedHub.HubInv(f)
    requires StandsAt(Exec(f, t, ch), p, m) && StandsAt(Exec(f, t, ch), q, m)
    requires m < |f.db.rows| && Back(f, t, FrontOf(f, t, ch), p) == Back(f, t, FrontOf(f, t, ch), q)
    ensures p == q
  {
    if p.Todo? { TodoBack(f, t, ch, p.t, p.k, m); } else { StreamBack(f, t, ch, p.i, p.c, p.k, m); }
    if q.Todo? { TodoBack(f, t, ch, q.t, q.k, m); } else { StreamBack(f, t, ch, q.i, q.c, q.k, m); }
    hide StandsAt, Exec, InterleavedHub.HubInv, FrontOf, InRange, ChoiceOk, StreamOf;
  }

  lemma ExecRows(f: Fine, t: nat, ch: Choice)
    requires Ready(f, t, ch)
    ensures |Exec(f, t, ch).db.rows| == |f.db.rows| + if f.threads[t].todo[0].Insert? then 1 else 0
    ensures Exec(f, t, ch).readAt == NextReadAt(f.readAt, f.clock, f.threads[t].todo[0])
  {
    hide NextHub, NextTodo, InRange, ChoiceOk, HookOf, Kills, NextHook, NextClosedAt;
  }

  lemma ExecAcks(f: Fine, t: nat, ch: Choice)
    requires Ready(f, t, ch) && InterleavedHub.HubInv(f) && AcksOnce(f) && AcksStored(f)
    ensures AcksOnce(Exec(f, t, ch)) && AcksStored(Exec(f, t, ch))
  {
    var f' := Exec(f, t, ch);
    ExecRows(f, t, ch);
    hide Exec, StandsAt, InterleavedHub.HubInv, InRange, ChoiceOk, NextReadAt, FrontOf, Back;
    forall p, m | StandsAt(f', p, m) ensures 0 <= m < |f'.db.rows| { PlaceBack(f, t, ch, p, m); }
    forall p, q, m | StandsAt(f', p, m) && StandsAt(f', q, m) ensures p == q {
      PlaceBack(f, t, ch, p, m);
      PlaceBack(f, t, ch, q, m);
      if m < |f.db.rows| { BackIsOne(f, t, ch, p, q, m); }
    }
  }

  // ---- notices

  /** A notice on its way names an acknowledged row, unless the status write comes right before it. */
  predicate NoticeOk(f: Fine, todo: seq<Op>, k: nat)
    requires k < |todo|
  {
    && ((todo[k].Lookup? || todo[k].Enqueue?) && todo[k].packet.ReadNotice? ==>
          || todo[k].packet.mid in f.readAt
          || (k == 1 && todo[0].Mark? && todo[0].status == Read && todo[0].mid == todo[k].packet.mid))
    && (todo[k].Mark? && todo[k].status == Read ==> todo[k].mid < |f.db.rows|)
  }

  predicate NoticesOk(f: Fine, todo: seq<Op>) {
    forall k | 0 <= k < |todo| :: NoticeOk(f, todo, k)
  }

  predicate ReadsStored(f: Fine) {
    forall m | m in f.readAt :: m < |f.db.rows|
  }

  ghost predicate NoticeInv(f: Fine) {
    ReadsStored(f) && forall t | 0 <= t < |f.threads| :: NoticesOk(f, f.threads[t].todo)
  }

  predicate Older(f: Fine, f': Fine) {
    |f.db.rows| <= |f'.db.rows| && forall m | m in f.readAt :: m in f'.readAt
  }

  lemma NoticesStay(f: Fine, f': Fine, todo: seq<Op>)
    requires NoticesOk(f, todo) && Older(f, f')
    ensures NoticesOk(f', todo)
  {
    forall k | 0 <= k < |todo| ensures NoticeOk(f', todo, k) { assert NoticeOk(f, todo, k); }
  }

  /** New steps with a notice: the one just looked up for. */
  lemma FrontNotices(h: HubState, db: Db, clock: nat, op: Op, ch: Choice, k: nat)
    requires InRange(h, db, op) && k < |NextTodo(h, db, clock, op, [], ch)|
    ensures var x := NextTodo(h, db, clock, op, [], ch)[k];
            && !(x.Mark? && x.status == Read)
            && ((x.Lookup? || x.Enqueue?) && x.packet.ReadNotice? ==> op.Lookup? && x.packet == op.packet)
  {
    hide Matches, CreateChat, Offer, PacketOf;
    if op.HookLoop? { LoopFront(h, db, clock, op, ch, k); }
  }

  lemma MarkHasNoFront(h: HubState, db: Db, clock: nat, op: Op, ch: Choice)
    requires InRange(h, db, op) && op.Mark?
    ensures NextTodo(h, db, clock, op, [], ch) == []
  {}

  /** What the steps put in front carry. */
  predicate FrontQuiet(front: seq<Op>, op: Op) {
    && (op.Mark? ==> front == [])
    && forall k | 0 <= k < |front| ::
         && !(front[k].Mark? && front[k].status == Read)
         && ((front[k].Lookup? || front[k].Enqueue?) && front[k].packet.ReadNotice? ==>
               op.Lookup? && front[k].packet == op.packet)
  }

  lemma FrontIsQuiet(f: Fine, t: nat, ch: Choice)
    requires Ready(f, t, ch)
    ensures FrontQuiet(FrontOf(f, t, ch), f.threads[t].todo[0])
  {
    var i, op, front := f.threads[t].inst, f.threads[t].todo[0], FrontOf(f, t, ch);
    if op.Mark? { MarkHasNoFront(f.hubs[i], f.db, f.clock, op, ch); }
    hide NextTodo, InRange, ChoiceOk;
    forall k | 0 <= k < |front|
      ensures && !(front[k].Mark? && front[k].status == Read)
              && ((front[k].Lookup? || front[k].Enqueue?) && front[k].packet.ReadNotice? ==>
                    op.Lookup? && front[k].packet == op.packet)
    {
      FrontNotices(f.hubs[i], f.db, f.clock, op, ch, k);
    }
  }

  lemma ListNotices(f: Fine, f': Fine, todo: seq<Op>, front: seq<Op>, todo': seq<Op>)
    requires todo != [] && (todo' == front + todo[1..] || todo' == front)
    requires NoticesOk(f, todo) && FrontQuiet(front, todo[0]) && Older(f, f')
    requires todo[0].Mark? && todo[0].status == Read ==> todo[0].mid in f'.readAt
    ensures NoticesOk(f', todo')
  {
    assert NoticeOk(f, todo, 0);
    forall k | 0 <= k < |todo'| ensures NoticeOk(f', todo', k) {
      ListBack(todo, front, todo', k);
      if k >= |front| { assert NoticeOk(f, todo, k - |front| + 1); }
    }
  }

  lemma ReadsStay(f: Fine, f': Fine, op: Op)
    requires ReadsStored(f) && |f.db.rows| <= |f'.db.rows| && f'.readAt == NextReadAt(f.readAt, f.clock, op)
    requires op.Mark? && op.status == Read ==> op.mid < |f.db.rows|
    ensures ReadsStored(f') && Older(f, f') && (op.Mark? && op.status == Read ==> op.mid in f'.readAt)
  {}

  lemma MovedNotices(f: Fine, t: nat, ch: Choice)
    requires Ready(f, t, ch) && InterleavedHub.HubInv(f) && ReadsStored(f) && NoticesOk(f, f.threads[t].todo)
    ensures NoticesOk(Exec(f, t, ch), Exec(f, t, ch).threads[t].todo) && ReadsStored(Exec(f, t, ch))
    ensures Older(f, Exec(f, t, ch))
  {
    var f', todo := Exec(f, t, ch), f.threads[t].todo;
    ExecMoves(f, t, ch);
    ExecRows(f, t, ch);
    assert NoticeOk(f, todo, 0);
    hide Exec, NextTodo, InterleavedHub.HubInv, InRange, ChoiceOk, FrontOf, FrontQuiet, NoticesOk, ReadsStored, Older,
      NextReadAt;
    FrontIsQuiet(f, t, ch);
    ReadsStay(f, f', todo[0]);
    ListNotices(f, f', todo, FrontOf(f, t, ch), f'.threads[t].todo);
  }

  // ---- the invariant over runs

  ghost predicate ReceiptInv(f: Fine) {
    InterleavedHub.HubInv(f) && AcksOnce(f) && AcksStored(f) && NoticeInv(f)
  }

  lemma ExecNotices(f: Fine, t: nat, ch: Choice)
    requires Ready(f, t, ch) && InterleavedHub.HubInv(f) && NoticeInv(f)
    ensures NoticeInv(Exec(f, t, ch)) && Older(f, Exec(f, t, ch))
  {
    var f' := Exec(f, t, ch);
    assert NoticesOk(f, f.threads[t].todo);
    MovedNotices(f, t, ch);
    ExecMoves(f, t, ch);
    hide Exec, InterleavedHub.HubInv, InRange, ChoiceOk, FrontOf, NoticesOk, Older;
    forall s | 0 <= s < |f'.threads| ensures NoticesOk(f', f'.threads[s].todo) {
      if s != t { NoticesStay(f, f', f.threads[s].todo); }
    }
  }

  lemma StartsClean(f: Fine, th: Thread)
    requires Startable(f, th)
    ensures NoticesOk(f, th.todo) && forall k, m | 0 <= k < |th.todo| :: !AckOp(th.todo[k], m)
  {}

  /** A step that queues nothing and takes none from a thread. */
  predicate Quiet(f: Fine, f': Fine) {
    && f'.db == f.db && f'.readAt == f.readAt && |f'.hubs| == |f.hubs|
    && forall i | 0 <= i < |f.hubs| :: f'.hubs[i].log == f.hubs[i].log
  }

  lemma WriteLog(h: HubState, c: ClientId, ok: bool)
    requires CanWrite(h, c)
    ensures Write(h, c, ok).log == h.log
  {}

  lemma PutQuiet(f: Fine, f': Fine, i: nat, h: HubState)
    requires i < |f.hubs| && h.log == f.hubs[i].log && f'.hubs == f.hubs[i := h]
    requires f'.db == f.db && f'.readAt == f.readAt
    ensures Quiet(f, f')
  {}

  lemma DrainIsQuiet(f: Fine, i: nat, c: ClientId, ok: bool)
    ensures Quiet(f, FineStep(f, Drain(i, c, ok))) && FineStep(f, Drain(i, c, ok)).threads == f.threads
  {
    hide CanWrite, Write, Quiet;
    if i < |f.hubs| && i !in f.dead && CanWrite(f.hubs[i], c) {
      WriteLog(f.hubs[i], c, ok);
      PutQuiet(f, FineStep(f, Drain(i, c, ok)), i, Write(f.hubs[i], c, ok));
    } else {
      NothingIsQuiet(f);
    }
  }

  lemma NothingIsQuiet(f: Fine)
    ensures Quiet(f, f)
  {}

  lemma OtherIsQuiet(f: Fine, e: FineEvent)
    requires e.Take? ==> !Ready(f, e.thread_index, e.choice)
    ensures Quiet(f, FineStep(f, e))
    ensures FineStep(f, e).threads == f.threads
         || (e.Spawn? && Startable(f, e.thread) && FineStep(f, e).threads == f.threads + [e.thread])
  {
    if e.Drain? {
      hide *;
      DrainIsQuiet(f, e.inst, e.client, e.ok);
    } else {
      hide Exec, Ready, Startable;
    }
  }

  lemma QuietBack(f: Fine, e: FineEvent, p: Place, m: MsgId)
    requires e.Take? ==> !Ready(f, e.thread_index, e.choice)
    requires StandsAt(FineStep(f, e), p, m)
    ensures StandsAt(f, p, m)
  {
    var f' := FineStep(f, e);
    OtherIsQuiet(f, e);
    hide FineStep, Ready;
    if e.Spawn? && Startable(f, e.thread) { StartsClean(f, e.thread); }
    hide Startable, AckOp, IsAck, Project;
  }

  lemma QuietNotices(f: Fine, e: FineEvent)
    requires e.Take? ==> !Ready(f, e.thread_index, e.choice)
    requires NoticeInv(f)
    ensures NoticeInv(FineStep(f, e)) && Older(f, FineStep(f, e))
  {
    var f' := FineStep(f, e);
    OtherIsQuiet(f, e);
    hide FineStep, Ready;
    if e.Spawn? && Startable(f, e.thread) { StartsClean(f, e.thread); }
    hide Startable, NoticesOk;
    forall t | 0 <= t < |f'.threads| ensures NoticesOk(f', f'.threads[t].todo) {
      if t < |f.threads| { NoticesStay(f, f', f.threads[t].todo); } else { NoticesStay(f, f', e.thread.todo); }
    }
  }

  lemma StepKeepsReceipts(f: Fine, e: FineEvent)
    requires ReceiptInv(f)
    ensures ReceiptInv(FineStep(f, e)) && Older(f, FineStep(f, e))
  {
    InterleavedHub.StepKeepsHubs(f, e);
    hide InterleavedHub.HubInv, NoticeInv, Ready, Exec, Older;
    if e.Take? && Ready(f, e.thread_index, e.choice) {
      hide AcksOnce, AcksStored;
      ExecAcks(f, e.thread_index, e.choice);
      ExecNotices(f, e.thread_index, e.choice);
    } else {
      QuietNotices(f, e);
      QuietAcks(f, e);
    }
  }

  lemma QuietAcks(f: Fine, e: FineEvent)
    requires e.Take? ==> !Ready(f, e.thread_index, e.choice)
    requires AcksOnce(f) && AcksStored(f)
    ensures AcksOnce(FineStep(f, e)) && AcksStored(FineStep(f, e))
  {
    var f' := FineStep(f, e);
    OtherIsQuiet(f, e);
    hide FineStep, Ready, StandsAt;
    forall p, m | StandsAt(f', p, m) ensures StandsAt(f, p, m) { QuietBack(f, e, p, m); }
  }

  lemma {:induction false} RunKeepsReceipts(f: Fine, es: seq<FineEvent>)
    requires ReceiptInv(f)
    ensures ReceiptInv(FineRun(f, es)) && Older(f, FineRun(f, es))
    decreases |es|
  {
    hide ReceiptInv, FineStep;
    if es != [] {
      StepKeepsReceipts(f, es[0]);
      RunKeepsReceipts(FineStep(f, es[0]), es[1..]);
    }
  }

  lemma InitReceipts(n: nat)
    ensures ReceiptInv(FineInit(n))
  {
    InterleavedHub.FineInitOk(n);
    hide InterleavedHub.HubInv;
    forall p, m ensures !StandsAt(FineInit(n), p, m) {}
  }

  // ---- what runs keep of acknowledgements and streams

  lemma StreamGrows(f: Fine, e: FineEvent, i: nat, c: ClientId)
    ensures StreamOf(f, i, c) <= StreamOf(FineStep(f, e), i, c)
  {
    if e.Take? && Ready(f, e.thread_index, e.choice) {
      ExecStream(f, e.thread_index, e.choice, i, c);
      hide Exec, StreamOf, Pushes, Ready;
    } else {
      OtherIsQuiet(f, e);
      hide FineStep, Project, Ready;
    }
  }

  lemma {:induction false} RunStreamGrows(f: Fine, es: seq<FineEvent>, i: nat, c: ClientId)
    ensures StreamOf(f, i, c) <= StreamOf(FineRun(f, es), i, c)
    decreases |es|
  {
    hide FineStep, StreamOf;
    if es != [] {
      StreamGrows(f, es[0], i, c);
      RunStreamGrows(FineStep(f, es[0]), es[1..], i, c);
    }
  }

  /** Nobody takes up the acknowledgement of a stored row anew. */
  lemma HeldBefore(f: Fine, e: FineEvent, m: MsgId)
    requires ReceiptInv(f) && m < |f.db.rows| && Held(FineStep(f, e), m)
    ensures Held(f, m)
  {
    var f' := FineStep(f, e);
    var t: nat, k: nat :| StandsAt(f', Todo(t, k), m);
    hide InterleavedHub.HubInv, AcksOnce, AcksStored, NoticeInv, StandsAt, Exec, Ready;
    if e.Take? && Ready(f, e.thread_index, e.choice) {
      PlaceBack(f, e.thread_index, e.choice, Todo(t, k), m);
    } else {
      QuietBack(f, e, Todo(t, k), m);
    }
  }

  lemma {:induction false} RunHeldBefore(f: Fine, es: seq<FineEvent>, m: MsgId)
    requires ReceiptInv(f) && m < |f.db.rows| && Held(FineRun(f, es), m)
    ensures Held(f, m)
    decreases |es|
  {
    hide ReceiptInv, FineStep, Held;
    if es != [] {
      StepKeepsReceipts(f, es[0]);
      RunHeldBefore(FineStep(f, es[0]), es[1..], m);
      HeldBefore(f, es[0], m);
    }
  }

  lemma {:induction false} RunSplits(f: Fine, a: seq<FineEvent>, b: seq<FineEvent>)
    ensures FineRun(f, a + b) == FineRun(FineRun(f, a), b)
    decreases |a|
  {
    hide FineStep;
    if a == [] {
      assert a + b == b;
    } else {
      RunSplits(FineStep(f, a[0]), a[1..], b);
      assert (a + b)[1..] == a[1..] + b;
    }
  }

  /** The state before event k of a run. */
  ghost function Before(n: nat, es: seq<FineEvent>, k: nat): Fine
    requires k <= |es|
  {
    FineRun(FineInit(n), es[..k])
  }

  lemma BeforeOk(n: nat, es: seq<FineEvent>, k: nat)
    requires k <= |es|
    ensures ReceiptInv(Before(n, es, k))
    ensures FineRun(FineInit(n), es) == FineRun(Before(n, es, k), es[k..])
  {
    hide FineRun, FineInit, ReceiptInv, Older;
    InitReceipts(n);
    RunKeepsReceipts(FineInit(n), es[..k]);
    RunSplits(FineInit(n), es[..k], es[k..]);
    assert es[..k] + es[k..] == es;
  }

  lemma BeforeThen(n: nat, es: seq<FineEvent>, j: nat, k: nat)
    requires j <= k <= |es|
    ensures Before(n, es, k) == FineRun(Before(n, es, j), es[j..k])
  {
    RunSplits(FineInit(n), es[..j], es[j..k]);
    assert es[..j] + es[j..k] == es[..k];
    hide FineRun, FineInit;
  }

  /** Event k of the run puts the packet on the connection's queue. */
  ghost predicate Queues(n: nat, es: seq<FineEvent>, k: int, i: nat, c: ClientId, p: Packet) {
    && 0 <= k < |es| && es[k].Take?
    && var g, t := Before(n, es, k), es[k].thread_index;
       && Ready(g, t, es[k].choice) && g.threads[t].inst == i
       && Pushes(g.hubs[i], g.threads[t].todo[0], c) && g.threads[t].todo[0].packet == p
  }

  lemma QueuesNext(n: nat, es: seq<FineEvent>, k: nat, i: nat, c: ClientId, p: Packet)
    requires Queues(n, es, k, i, c, p)
    ensures StreamOf(Before(n, es, k + 1), i, c) == StreamOf(Before(n, es, k), i, c) + [p]
  {
    hide FineRun, FineInit, Exec, Ready, StreamOf, Pushes;
    var g := Before(n, es, k);
    NextState(n, es, k);
    ExecStream(g, es[k].thread_index, es[k].choice, i, c);
  }

  lemma NextState(n: nat, es: seq<FineEvent>, k: nat)
    requires k < |es|
    ensures Before(n, es, k + 1) == FineStep(Before(n, es, k), es[k])
  {
    hide FineRun, FineInit, FineStep;
    Scenes.RunThenStep(FineInit(n), es[..k], es[k]);
    assert es[..k] + [es[k]] == es[..k + 1];
  }

  /** Every packet of a stream was queued by one event, when just those before it were there. */
  lemma {:induction false} QueuedBy(n: nat, es: seq<FineEvent>, i: nat, c: ClientId, j: nat) returns (k: nat)
    requires j < |StreamOf(FineRun(FineInit(n), es), i, c)|
    ensures Queues(n, es, k, i, c, StreamOf(FineRun(FineInit(n), es), i, c)[j])
    ensures |StreamOf(Before(n, es, k), i, c)| == j
    decreases |es|
  {
    if es == [] {
      assert false;
    } else {
      var last := |es| - 1;
      var front, e := es[..last], es[last];
      var g := FineRun(FineInit(n), front);
      Scenes.RunThenStep(FineInit(n), front, e);
      assert front + [e] == es;
      hide FineRun, FineInit, Exec;
      StreamGrows(g, e, i, c);
      if j < |StreamOf(g, i, c)| {
        k := QueuedBy(n, front, i, c, j);
        QueuesStays(n, front, e, k, i, c, StreamOf(g, i, c)[j]);
      } else {
        k := last;
        QueuedNow(n, es, i, c, j);
      }
    }
  }

  lemma QueuesStays(n: nat, es: seq<FineEvent>, e: FineEvent, k: nat, i: nat, c: ClientId, p: Packet)
    requires Queues(n, es, k, i, c, p)
    ensures Queues(n, es + [e], k, i, c, p) && Before(n, es + [e], k) == Before(n, es, k)
  {
    hide FineRun, FineInit, Ready, Pushes;
    assert (es + [e])[..k] == es[..k];
  }

  lemma QueuedNow(n: nat, es: seq<FineEvent>, i: nat, c: ClientId, j: nat)
    requires es != [] && var k := |es| - 1;
             |StreamOf(Before(n, es, k), i, c)| <= j < |StreamOf(FineStep(Before(n, es, k), es[k]), i, c)|
    ensures var k := |es| - 1;
            && Queues(n, es, k, i, c, StreamOf(FineStep(Before(n, es, k), es[k]), i, c)[j])
            && |StreamOf(Before(n, es, k), i, c)| == j
  {
    var k := |es| - 1;
    var g, e := Before(n, es, k), es[k];
    if e.Take? && Ready(g, e.thread_index, e.choice) {
      ExecStream(g, e.thread_index, e.choice, i, c);
      hide FineRun, FineInit, Exec, Ready, StreamOf, Pushes;
    } else {
      OtherIsQuiet(g, e);
      hide FineStep, FineRun, FineInit, Project, Ready;
    }
  }

  // ---- the guarantees

  /**
   An acknowledgement is in one place: over every run it is either one step some handler has left, or one
   packet accepted for one connection, and it names a stored row.
   */
  lemma AcknowledgedOnce(n: nat, es: seq<FineEvent>, p: Place, q: Place, m: MsgId)
    requires StandsAt(FineRun(FineInit(n), es), p, m) && StandsAt(FineRun(FineInit(n), es), q, m)
    ensures p == q && 0 <= m < |FineRun(FineInit(n), es).db.rows|
  {
    InitReceipts(n);
    RunKeepsReceipts(FineInit(n), es);
    hide FineRun, FineInit, StandsAt, InterleavedHub.HubInv, NoticeInv;
  }

  /** A notice of the row stands before its acknowledgement. */
  predicate WrongOrder(ps: seq<Packet>, m: MsgId) {
    exists a, b | 0 <= a < b < |ps| :: ps[a] == ReadNotice(m) && IsAck(ps[b], m)
  }

  predicate HasAck(ps: seq<Packet>, m: MsgId) {
    exists b | 0 <= b < |ps| :: IsAck(ps[b], m)
  }

  /** Event k queues a notice of the row for the connection while a handler has its acknowledgement to send. */
  ghost predicate NoticeAt(n: nat, es: seq<FineEvent>, k: int, i: nat, c: ClientId, m: MsgId) {
    Queues(n, es, k, i, c, ReadNotice(m)) && Held(Before(n, es, k), m)
  }

  ghost predicate NoticedWhileHeld(n: nat, es: seq<FineEvent>, i: nat, c: ClientId, m: MsgId) {
    exists k :: NoticeAt(n, es, k, i, c, m)
  }

  /** The step that queues a packet is a step left before. */
  lemma AckQueuedWasHeld(n: nat, es: seq<FineEvent>, k: nat, i: nat, c: ClientId, p: Packet, m: MsgId)
    requires Queues(n, es, k, i, c, p) && IsAck(p, m)
    ensures Held(Before(n, es, k), m)
  {
    var g := Before(n, es, k);
    hide FineRun, FineInit, InRange, ChoiceOk, Offer;
    assert StandsAt(g, Todo(es[k].thread_index, 0), m);
  }

  /** A notice that is queued names an acknowledged row. */
  lemma NoticeQueuedWasRead(n: nat, es: seq<FineEvent>, k: nat, i: nat, c: ClientId, m: MsgId)
    requires Queues(n, es, k, i, c, ReadNotice(m))
    ensures var g := Before(n, es, k); m in g.readAt && m < |g.db.rows|
  {
    var g := Before(n, es, k);
    BeforeOk(n, es, k);
    hide FineRun, FineInit, InRange, ChoiceOk, Offer, InterleavedHub.HubInv, AcksOnce, AcksStored;
    assert NoticesOk(g, g.threads[es[k].thread_index].todo);
    assert NoticeOk(g, g.threads[es[k].thread_index].todo, 0);
  }

  lemma EarlierEvent(n: nat, es: seq<FineEvent>, j: nat, k: nat, i: nat, c: ClientId)
    requires j <= |es| && k <= |es| && |StreamOf(Before(n, es, j), i, c)| < |StreamOf(Before(n, es, k), i, c)|
    ensures j < k
  {
    if k <= j {
      BeforeThen(n, es, k, j);
      RunStreamGrows(Before(n, es, k), es[k..j], i, c);
    }
    hide Before, StreamOf;
  }

  lemma WrongIsNoticedWhileHeld(n: nat, es: seq<FineEvent>, i: nat, c: ClientId, m: MsgId)
    requires WrongOrder(StreamOf(FineRun(FineInit(n), es), i, c), m)
    ensures HasAck(StreamOf(FineRun(FineInit(n), es), i, c), m) && NoticedWhileHeld(n, es, i, c, m)
  {
    var ps := StreamOf(FineRun(FineInit(n), es), i, c);
    var a, b :| 0 <= a < b < |ps| && ps[a] == ReadNotice(m) && IsAck(ps[b], m);
    hide FineRun, FineInit, StreamOf, Queues, Held, ReceiptInv, Before, IsAck;
    var j := QueuedBy(n, es, i, c, a);
    var k := QueuedBy(n, es, i, c, b);
    assert 0 <= j < |es| && 0 <= k < |es| by { QueuesInRun(n, es, j, i, c, ps[a]); QueuesInRun(n, es, k, i, c, ps[b]); }
    EarlierEvent(n, es, j, k, i, c);
    AckQueuedWasHeld(n, es, k, i, c, ps[b], m);
    NoticeQueuedWasRead(n, es, j, i, c, m);
    BeforeOk(n, es, j);
    BeforeThen(n, es, j, k);
    RunHeldBefore(Before(n, es, j), es[j..k], m);
    assert NoticeAt(n, es, j, i, c, m);
  }

  lemma QueuesInRun(n: nat, es: seq<FineEvent>, k: int, i: nat, c: ClientId, p: Packet)
    requires Queues(n, es, k, i, c, p)
    ensures 0 <= k < |es|
  {}

  lemma HeldIsNotSent(f: Fine, i: nat, c: ClientId, b: nat, m: MsgId)
    requires AcksOnce(f) && Held(f, m) && b < |StreamOf(f, i, c)|
    ensures !IsAck(StreamOf(f, i, c)[b], m)
  {
    var t: nat, k: nat :| StandsAt(f, Todo(t, k), m);
    if IsAck(StreamOf(f, i, c)[b], m) {
      assert StandsAt(f, Stream(i, c, b), m);
    }
  }

  lemma NoticedWhileHeldIsWrong(n: nat, es: seq<FineEvent>, i: nat, c: ClientId, m: MsgId)
    requires HasAck(StreamOf(FineRun(FineInit(n), es), i, c), m) && NoticedWhileHeld(n, es, i, c, m)
    ensures WrongOrder(StreamOf(FineRun(FineInit(n), es), i, c), m)
  {
    var ps := StreamOf(FineRun(FineInit(n), es), i, c);
    var b :| 0 <= b < |ps| && IsAck(ps[b], m);
    var k :| NoticeAt(n, es, k, i, c, m);
    hide FineRun, FineInit, StreamOf, Queues, Held, Before, IsAck, InterleavedHub.HubInv, AcksOnce, AcksStored,
      NoticeInv;
    assert 0 <= k < |es| by { QueuesInRun(n, es, k, i, c, ReadNotice(m)); }
    QueuesNext(n, es, k, i, c, ReadNotice(m));
    BeforeOk(n, es, k);
    BeforeOk(n, es, k + 1);
    RunStreamGrows(Before(n, es, k + 1), es[k + 1..], i, c);
    var qs := StreamOf(Before(n, es, k), i, c);
    assert qs + [ReadNotice(m)] <= ps;
    assert ps[|qs|] == (qs + [ReadNotice(m)])[|qs|] == ReadNotice(m);
    if b < |qs| {
      assert ps[b] == (qs + [ReadNotice(m)])[b] == qs[b];
      HeldIsNotSent(Before(n, es, k), i, c, b, m);
    }
    assert b != |qs| by { NoticeIsNoAck(m); }
  }

  lemma NoticeIsNoAck(m: MsgId)
    ensures !IsAck(ReadNotice(m), m)
  {}

  /**
   The order of receipts, exactly: on a connection that was given the `sent` acknowledgement of a message, a
   `read` notice of it stands before that acknowledgement if and only if some notice was queued there while
   the handler that stored the message still had the acknowledgement to send.
   */
  lemma NoticeFirstIff(n: nat, es: seq<FineEvent>, i: nat, c: ClientId, m: MsgId)
    ensures var ps := StreamOf(FineRun(FineInit(n), es), i, c);
            WrongOrder(ps, m) <==> HasAck(ps, m) && NoticedWhileHeld(n, es, i, c, m)
  {
    hide FineRun, FineInit, StreamOf, NoticedWhileHeld, HasAck;
    var ps := StreamOf(FineRun(FineInit(n), es), i, c);
    if WrongOrder(ps, m) { WrongIsNoticedWhileHeld(n, es, i, c, m); }
    if HasAck(ps, m) && NoticedWhileHeld(n, es, i, c, m) { NoticedWhileHeldIsWrong(n, es, i, c, m); }
  }

  /** The handler that stored the row is past its acknowledgement, and nobody has acknowledged the row yet. */
  ghost predicate Finished(f: Fine, m: MsgId) {
    0 <= m < |f.db.rows| && !Held(f, m) && m !in f.readAt
  }

  /**
   What a caller can check: if the receipt of a message is handled only after the handler that stored it is
   past its acknowledgement, no later state shows the notice first, on any connection of any instance.
   */
  lemma InOrderOnceFinished(n: nat, es: seq<FineEvent>, more: seq<FineEvent>, i: nat, c: ClientId, m: MsgId)
    requires Finished(FineRun(FineInit(n), es), m)
    ensures !WrongOrder(StreamOf(FineRun(FineInit(n), es + more), i, c), m)
  {
    var all := es + more;
    hide FineRun, FineInit, StreamOf, Queues, Held, Before, ReceiptInv, WrongOrder;
    if WrongOrder(StreamOf(FineRun(FineInit(n), all), i, c), m) {
      WrongIsNoticedWhileHeld(n, all, i, c, m);
      var k :| NoticeAt(n, all, k, i, c, m);
      assert 0 <= k < |all| by { QueuesInRun(n, all, k, i, c, ReadNotice(m)); }
      assert Before(n, all, |es|) == FineRun(FineInit(n), es) by { BeforeIs(n, es, more); }
      if |es| <= k {
        BeforeOk(n, all, |es|);
        BeforeThen(n, all, |es|, k);
        RunHeldBefore(Before(n, all, |es|), all[|es|..k], m);
      } else {
        NoticeQueuedWasRead(n, all, k, i, c, m);
        BeforeOk(n, all, k);
        BeforeThen(n, all, k, |es|);
        RunKeepsReceipts(Before(n, all, k), all[k..|es|]);
      }
    }
  }

  lemma BeforeIs(n: nat, es: seq<FineEvent>, more: seq<FineEvent>)
    ensures Before(n, es + more, |es|) == FineRun(FineInit(n), es)
  {
    assert (es + more)[..|es|] == es;
    hide FineRun, FineInit;
  }
}
