/**
 The handlers cut into lock-sized steps. A thread is the list of steps it still has to take; any
 thread of any live instance may take the next step. Publication is not followed: every copy it
 causes is one of the plain sends that may start at any time.
 */
module Interleaving {
  import opened ChatTypes
  import opened HubSpec
  import opened DbSpec

  /** What a send is for, as far as its outcome matters to the handler. */
  datatype Why =
    | DmCopy(mid: MsgId, since: nat)
    | Replay(owner: ClientId, row: MsgId)
    | Plain

  datatype Op =
    | FindChat(from: UserId, to: UserId, clientId: nat, body: string)
    | MakeChat(from: UserId, to: UserId, clientId: nat, body: string, since: nat)
    | Insert(chat: ChatId, from: UserId, to: UserId, clientId: nat, body: string)
    | Lookup(user: UserId, packet: Packet, why: Why)
    | Enqueue(client: ClientId, packet: Packet, why: Why, at: nat)
    | Evict(client: ClientId)
    | Publish
    | Mark(mid: MsgId, status: Status, since: nat)
    | RegisterUser(user: UserId)
    | QueryPending(user: UserId, client: ClientId)
    | HookLoop(client: ClientId, user: UserId, pending: seq<MsgId>, since: nat)
    | EndRead(client: ClientId)

  datatype Thread = Thread(inst: nat, todo: seq<Op>)

  /** A connection of an instance. */
  type Key = (nat, ClientId)

  /**
   `madeAt`, `closedAt` and `readAt` record when a chat was made, a queue closed and a row last marked read.
   `own` and `others` count the enqueues tried on a connection by its own connect hook and by anyone else.
   `hook` names the thread that runs a connection's hook, `replaced` the connections whose map entry was overwritten.
   */
  datatype Fine = Fine(
    db: Db,
    to: seq<UserId>,
    hubs: seq<HubState>,
    threads: seq<Thread>,
    clock: nat,
    dead: set<nat>,
    madeAt: seq<nat>,
    readAt: map<MsgId, nat>,
    closedAt: map<Key, nat>,
    own: map<Key, nat>,
    others: map<Key, nat>,
    hook: map<Key, nat>,
    replaced: set<Key>)

  function FineInit(n: nat): Fine {
    Fine(EMPTY_DB, [], seq(n, _ => EMPTY_HUB), [], 0, {}, [], map[], map[], map[], map[], map[], {})
  }

  function Get(m: map<Key, nat>, k: Key): nat {
    if k in m then m[k] else 0
  }

  /** Answers of the engine, the clock and Redis to one step. */
  datatype Choice = Choice(pick: ChatId, batch: seq<MsgId>, now: int, pubOk: bool)

  /** Handles name registered connections and ids name rows. */
  predicate InRange(h: HubState, db: Db, op: Op) {
    match op
    case Enqueue(c, _, _, _) => c < |h.chans|
    case Evict(c) => c < |h.chans|
    case QueryPending(_, c) => c < |h.chans|
    case HookLoop(c, _, ms, _) => c < |h.chans| && ValidIds(db, ms)
    case EndRead(c) => c < |h.chans|
    case _ => true
  }

  ghost predicate ChoiceOk(db: Db, op: Op, ch: Choice) {
    match op
    case FindChat(from, to, _, _) => ValidPick(db, from, to, ch.pick)
    case QueryPending(u, _) => ValidIds(db, ch.batch) && IsPendingBatch(db, u, ch.batch)
    case _ => true
  }

  function NextDb(db: Db, op: Op, ch: Choice): Db {
    match op
    case MakeChat(from, to, _, _, _) =>
      (match CreateChat(db, from, to)
       case Found(db', _) => db'
       case DuplicateMember => db)
    case Insert(chat, from, _, _, body) => InsertMessage(db, chat, from, body, ch.now)
    case Mark(m, status, _) => UpdateStatus(db, m, status)
    case _ => db
  }

  function NextHub(h: HubState, db: Db, op: Op): HubState
    requires InRange(h, db, op)
  {
    match op
    case Enqueue(c, p, _, _) => if Offer(h, c) == Accepted then HubSpec.Enqueue(h, c, p) else h
    case Evict(c) => Unregister(h, c)
    case RegisterUser(u) => Register(h, u)
    case HookLoop(c, _, ms, _) => if ms == [] then StartPumps(h, c) else h
    case EndRead(c) => EndReader(h, c)
    case _ => h
  }

  function AfterAccepted(why: Why): seq<Op> {
    match why
    case DmCopy(m, since) => [Mark(m, Delivered, since)]
    case _ => []
  }

  function AfterRefused(why: Why): seq<Op> {
    match why
    case DmCopy(_, _) => [Publish]
    case _ => []
  }

  /** The steps a thread has left after its first one. */
  function NextTodo(h: HubState, db: Db, clock: nat, op: Op, rest: seq<Op>, ch: Choice): seq<Op>
    requires InRange(h, db, op)
  {
    match op
    case FindChat(from, to, id, body) =>
      [if Matches(db, from, to) != {} then Insert(ch.pick, from, to, id, body)
       else MakeChat(from, to, id, body, clock)] + rest
    case MakeChat(from, to, id, body, _) =>
      (match CreateChat(db, from, to)
       case Found(_, chat) => [Insert(chat, from, to, id, body)] + rest
       case DuplicateMember => [])
    case Insert(_, from, to, id, body) =>
      var m := |db.rows|;
      [Lookup(to, Message(m, from, body, ch.now), DmCopy(m, clock)), Lookup(from, SentAck(m, id), Plain)] + rest
    case Lookup(u, p, why) =>
      if u in h.clients then [Enqueue(h.clients[u], p, why, clock)] + rest else AfterRefused(why) + rest
    case Enqueue(c, _, why, _) =>
      (match Offer(h, c)
       case Accepted => AfterAccepted(why) + rest
       case Full => [Evict(c)] + AfterRefused(why) + rest
       case Panics => [])
    case Publish => if ch.pubOk then rest else []
    case RegisterUser(u) => [QueryPending(u, |h.chans|)]
    case QueryPending(u, c) => [HookLoop(c, u, ch.batch, clock)]
    case HookLoop(c, u, ms, since) =>
      if ms == [] then []
      else [Lookup(u, PacketOf(db, ms[0]), Replay(c, ms[0])), Mark(ms[0], Delivered, since),
            HookLoop(c, u, ms[1..], since)]
    case _ => rest
  }

  /** The connection a step closes, if any. */
  function Closes(h: HubState, db: Db, op: Op): Option<ClientId>
    requires InRange(h, db, op)
  {
    match op
    case Evict(c) => if Current(h, c) then Some(c) else None
    case EndRead(c) => if Current(h, c) then Some(c) else None
    case _ => None
  }

  function Bump(m: map<Key, nat>, k: Key): map<Key, nat> {
    m[k := Get(m, k) + 1]
  }

  ghost predicate Ready(f: Fine, t: nat, ch: Choice) {
    && t < |f.threads|
    && f.threads[t].todo != []
    && f.threads[t].inst < |f.hubs|
    && f.threads[t].inst !in f.dead
    && InRange(f.hubs[f.threads[t].inst], f.db, f.threads[t].todo[0])
    && ChoiceOk(f.db, f.threads[t].todo[0], ch)
  }

  function NextClosedAt(closedAt: map<Key, nat>, clock: nat, i: nat, closes: Option<ClientId>): map<Key, nat> {
    match closes
    case Some(c) => closedAt[(i, c) := clock]
    case None => closedAt
  }

  function NextHook(hook: map<Key, nat>, i: nat, h: HubState, op: Op, t: nat): map<Key, nat> {
    if op.RegisterUser? then hook[(i, |h.chans|) := t] else hook
  }

  function NextReplaced(replaced: set<Key>, i: nat, h: HubState, op: Op): set<Key> {
    if op.RegisterUser? && op.user in h.clients then replaced + {(i, h.clients[op.user])} else replaced
  }

  /** An enqueue by the hook of the very connection it is made on. */
  predicate OwnTry(op: Op) {
    op.Enqueue? && op.why.Replay? && op.why.owner == op.client
  }

  function NextOwn(own: map<Key, nat>, i: nat, op: Op): map<Key, nat> {
    if OwnTry(op) then Bump(own, (i, op.client)) else own
  }

  function NextOthers(others: map<Key, nat>, i: nat, op: Op): map<Key, nat> {
    if op.Enqueue? && !OwnTry(op) then Bump(others, (i, op.client)) else others
  }

  function NextReadAt(readAt: map<MsgId, nat>, clock: nat, op: Op): map<MsgId, nat> {
    if op.Mark? && op.status == Read then readAt[op.mid := clock] else readAt
  }

  predicate Crashes(h: HubState, db: Db, op: Op)
    requires InRange(h, db, op)
  {
    op.Enqueue? && Offer(h, op.client) == Panics
  }

  /** The connection whose hook an operation belongs to. */
  function HookClient(op: Op): Option<ClientId> {
    match op
    case QueryPending(_, c) => Some(c)
    case HookLoop(c, _, _, _) => Some(c)
    case _ => None
  }

  /** The connection whose hook a thread runs. */
  function HookOf(todo: seq<Op>): Option<ClientId> {
    if todo == [] then None else HookClient(todo[|todo| - 1])
  }

  /**
   A panic ends the process, and with it the instance, unless it happens in a connect hook: that runs inside
   the HTTP handler, whose recovery ends the handler alone.
   */
  predicate Kills(h: HubState, db: Db, todo: seq<Op>)
    requires todo != [] && InRange(h, db, todo[0])
  {
    Crashes(h, db, todo[0]) && HookOf(todo) == None
  }

  function NextMadeAt(madeAt: seq<nat>, clock: nat, op: Op): seq<nat> {
    if op.MakeChat? && op.from != op.to then madeAt + [clock] else madeAt
  }

  ghost function Exec(f: Fine, t: nat, ch: Choice): Fine
    requires Ready(f, t, ch)
  {
    var i := f.threads[t].inst;
    var h := f.hubs[i];
    var op, rest := f.threads[t].todo[0], f.threads[t].todo[1..];
    Fine(
      NextDb(f.db, op, ch),
      if op.Insert? then f.to + [op.to] else f.to,
      f.hubs[i := NextHub(h, f.db, op)],
      f.threads[t := Thread(i, NextTodo(h, f.db, f.clock, op, rest, ch))],
      f.clock + 1,
      if Kills(h, f.db, f.threads[t].todo) then f.dead + {i} else f.dead,
      NextMadeAt(f.madeAt, f.clock, op),
      NextReadAt(f.readAt, f.clock, op),
      NextClosedAt(f.closedAt, f.clock, i, Closes(h, f.db, op)),
      NextOwn(f.own, i, op),
      NextOthers(f.others, i, op),
      NextHook(f.hook, i, h, op, t),
      NextReplaced(f.replaced, i, h, op))
  }

  /**
   What may be sent to a user outside a direct message's own handler: a published copy of a row to its
   addressee, a published notice of an acknowledged row, anything that is no receipt. Nobody publishes a `sent`.
   */
  predicate Forwardable(f: Fine, user: UserId, p: Packet) {
    match p
    case Message(m, _, _, _) => 0 <= m < |f.to| && m < |f.db.rows| && user == f.to[m] && p == PacketOf(f.db, m)
    case SentAck(_, _) => false
    case ReadNotice(m) => m in f.readAt
    case Other(_) => true
  }

  /** The notice a read receipt sends after its status write, if it names a user. */
  predicate NoticeOf(op: Op, m: MsgId) {
    op.Lookup? && op.why == Plain && op.packet == ReadNotice(m)
  }

  /** How a thread may begin: a handler, the connect of a user, any other send, or the end of a running reader. */
  predicate Startable(f: Fine, th: Thread) {
    && th.inst < |f.hubs|
    && |th.todo| > 0
    && match th.todo[0]
       case FindChat(_, _, _, _) => |th.todo| == 1
       case RegisterUser(_) => |th.todo| == 1
       case Lookup(u, p, why) => |th.todo| == 1 && why == Plain && Forwardable(f, u, p)
       case Mark(m, status, _) =>
         && status == Read && m < |f.db.rows|
         && (|th.todo| == 1 || (|th.todo| == 2 && NoticeOf(th.todo[1], m)))
       case EndRead(c) => |th.todo| == 1 && c < |f.hubs[th.inst].chans| && f.hubs[th.inst].chans[c].reader == Running
       case _ => false
  }

  datatype FineEvent =
    | Spawn(thread: Thread)
    | Take(thread_index: nat, choice: Choice)
    | Drain(inst: nat, client: ClientId, ok: bool)

  ghost function FineStep(f: Fine, e: FineEvent): Fine {
    match e
    case Spawn(th) => if Startable(f, th) then f.(threads := f.threads + [th], clock := f.clock + 1) else f
    case Take(t, ch) => if Ready(f, t, ch) then Exec(f, t, ch) else f
    case Drain(i, c, ok) =>
      if i < |f.hubs| && i !in f.dead && CanWrite(f.hubs[i], c) then
        f.(hubs := f.hubs[i := Write(f.hubs[i], c, ok)], clock := f.clock + 1)
      else f
  }

  ghost function FineRun(f: Fine, es: seq<FineEvent>): Fine
    decreases |es|
  {
    if es == [] then f else FineRun(FineStep(f, es[0]), es[1..])
  }
}
