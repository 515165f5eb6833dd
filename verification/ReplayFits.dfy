/**
 Whether the offline replay fits the queue of its connection, under every interleaving. The connection is
 registered before its hook and drained only after it, so the queue counts exactly the enqueues tried on it.
 */
module ReplayFits {
  import opened ChatTypes
  import opened HubSpec
  import opened DbSpec
  import opened Interleaving
  import InterleavedHub

  /** What the replay depends on in the state of one connection. */
  datatype Conn = Conn(
    user: UserId,
    closed: bool,
    waiting: bool,  // its writer has not started
    reading: bool,
    queued: nat,
    current: bool,
    own: nat,
    others: nat,
    replaced: bool,
    hook: Option<nat>,
    log: seq<Accept>)

  function ConnIn(h: HubState, c: ClientId, own: nat, others: nat, replaced: bool, hook: Option<nat>): Conn
    requires c < |h.chans|
  {
    var ch := h.chans[c];
    Conn(ch.user, ch.closed, ch.writer == NotStarted, ch.reader == Running, |ch.queue|, Current(h, c),
         own, others, replaced, hook, h.log)
  }

  function HookFor(hook: map<Key, nat>, k: Key): Option<nat> {
    if k in hook then Some(hook[k]) else None
  }

  function ConnOf(f: Fine, i: nat, c: ClientId): Conn
    requires i < |f.hubs| && c < |f.hubs[i].chans|
  {
    ConnIn(f.hubs[i], c, Get(f.own, (i, c)), Get(f.others, (i, c)), (i, c) in f.replaced, HookFor(f.hook, (i, c)))
  }

  /** While it waits, an open queue counts the enqueues tried on it, up to its capacity; a closed one overflowed. */
  predicate ConnOk(v: Conn) {
    && (v.waiting && !v.closed ==> v.queued == Min(CAPACITY, v.own + v.others))
    && (v.waiting && v.closed ==> CAPACITY < v.own + v.others)
    && (v.current || v.replaced || v.closed)
    && (v.current ==> !v.closed)
    && (v.reading ==> !v.waiting)
  }

  /** The replay can no longer be relied on: too many other sends, or the connection was replaced. */
  predicate Disturbed(v: Conn) {
    CAPACITY - PENDING_LIMIT < v.others || v.replaced
  }

  predicate Accepted(log: seq<Accept>, c: ClientId, m: MsgId) {
    exists k :: 0 <= k < |log| && log[k].client == c && CopyOf(log[k].packet, m)
  }

  predicate CopyOf(p: Packet, m: MsgId) { p.Message? && p.mid == m }

  predicate IsReplay(op: Op) {
    (op.Lookup? || op.Enqueue?) && op.why.Replay?
  }

  /** The step the hook of connection c is at; `left` rows are still behind it. */
  predicate HeadOk(v: Conn, c: ClientId, head: seq<Op>, left: nat) {
    if head == [] then v.own + left <= PENDING_LIMIT
    else if |head| == 1 then
      && head[0].Mark? && head[0].status == Delivered && v.own + left <= PENDING_LIMIT
      && (Disturbed(v) || Accepted(v.log, c, head[0].mid))
    else
      && |head| == 2 && head[1].Mark? && head[1].status == Delivered
      && match head[0]
         case Lookup(u, p, why) =>
           && why == Replay(c, head[1].mid) && u == v.user && CopyOf(p, head[1].mid)
           && v.own + 1 + left <= PENDING_LIMIT
         case Enqueue(x, p, why, _) =>
           && why == Replay(c, head[1].mid) && CopyOf(p, head[1].mid)
           && v.own + 1 + left <= PENDING_LIMIT
           && (x == c || v.replaced || v.closed)
         case Evict(_) => v.own + left <= PENDING_LIMIT && Disturbed(v)
         case _ => false
  }

  predicate HookOk(v: Conn, t: nat, todo: seq<Op>, c: ClientId)
    requires todo != []
  {
    var n := |todo| - 1;
    && v.waiting && v.hook == Some(t)
    && match todo[n]
       case QueryPending(u, x) => n == 0 && x == c && v.user == u && v.own == 0
       case HookLoop(x, u, ms, _) => x == c && v.user == u && HeadOk(v, c, todo[..n], |ms|)
       case _ => false
  }

  /** What a removal of a connection relies on. */
  predicate RemovalOk(f: Fine, i: nat, op: Op)
    requires i < |f.hubs|
  {
    match op
    case Evict(c) => c < |f.hubs[i].chans| &&
      (ConnOf(f, i, c).waiting ==> CAPACITY < ConnOf(f, i, c).own + ConnOf(f, i, c).others)
    case EndRead(c) => c < |f.hubs[i].chans| && !ConnOf(f, i, c).waiting
    case _ => true
  }

  predicate RemovalsOk(f: Fine, i: nat, todo: seq<Op>)
    requires i < |f.hubs|
  {
    forall k | 0 <= k < |todo| :: RemovalOk(f, i, todo[k])
  }

  predicate PlainOp(op: Op) {
    !IsReplay(op) && HookClient(op) == None
  }

  predicate PlainTodo(todo: seq<Op>) {
    forall k | 0 <= k < |todo| :: PlainOp(todo[k])
  }

  predicate ThreadOk(f: Fine, t: nat, th: Thread) {
    && th.inst < |f.hubs|
    && RemovalsOk(f, th.inst, th.todo)
    && match HookOf(th.todo)
       case None => PlainTodo(th.todo)
       case Some(c) => c < |f.hubs[th.inst].chans| && HookOk(ConnOf(f, th.inst, c), t, th.todo, c)
  }

  predicate Counted(f: Fine, i: nat, c: ClientId)
    requires i < |f.hubs| && c < |f.hubs[i].chans|
  {
    ConnOk(ConnOf(f, i, c))
  }

  predicate ConnsOk(f: Fine) {
    forall i, c | 0 <= i < |f.hubs| && 0 <= c < |f.hubs[i].chans| :: Counted(f, i, c)
  }

  predicate Registered(hubs: seq<HubState>, k: Key) {
    k.0 < |hubs| && k.1 < |hubs[k.0].chans|
  }

  predicate KeysRegistered(f: Fine) {
    && (forall k | k in f.own :: Registered(f.hubs, k))
    && (forall k | k in f.others :: Registered(f.hubs, k))
    && (forall k | k in f.replaced :: Registered(f.hubs, k))
  }

  predicate ThreadsOk(f: Fine) {
    forall t | 0 <= t < |f.threads| :: ThreadOk(f, t, f.threads[t])
  }

  ghost predicate ReplayInv(f: Fine) {
    InterleavedHub.HubInv(f) && ConnsOk(f) && KeysRegistered(f) && ThreadsOk(f)
  }

  // ---- one connection over one step

  /** A connection after a step of its instance, the log aside. */
  function ConnAfter(v: Conn, c: ClientId, op: Op, log: seq<Accept>): Conn {
    match op
    case Enqueue(x, _, _, _) =>
      if x != c then v.(log := log)
      else v.(log := log,
              queued := if !v.closed && v.queued < CAPACITY then v.queued + 1 else v.queued,
              own := if OwnTry(op) then v.own + 1 else v.own,
              others := if OwnTry(op) then v.others else v.others + 1)
    case Evict(x) => if x == c then v.(closed := v.closed || v.current, current := false) else v
    case EndRead(x) => if x == c then v.(closed := v.closed || v.current, current := false, reading := false) else v
    case RegisterUser(u) => if v.current && v.user == u then v.(current := false, replaced := true) else v
    case HookLoop(x, _, ms, _) => if x == c && ms == [] then v.(waiting := false, reading := true) else v
    case _ => v
  }

  /** A connection as its hub alone shows it. */
  function HubView(h: HubState, c: ClientId): Conn
    requires c < |h.chans|
  {
    ConnIn(h, c, 0, 0, false, None)
  }

  lemma EnqueueView(h: HubState, x: ClientId, p: Packet, c: ClientId)
    requires x < |h.chans| && c < |h.chans| && Offer(h, x) == HubSpec.Accepted
    ensures var h' := HubSpec.Enqueue(h, x, p);
            var v, v' := HubView(h, c), HubView(h', c);
            && |h'.chans| == |h.chans| && h.log <= h'.log
            && v' == v.(log := h'.log, queued := if x == c then v.queued + 1 else v.queued)
  {}

  lemma UnregisterView(h: HubState, x: ClientId, c: ClientId)
    requires x < |h.chans| && c < |h.chans|
    ensures var h' := Unregister(h, x);
            var v, v' := HubView(h, c), HubView(h', c);
            && |h'.chans| == |h.chans| && h'.log == h.log
            && v' == if x == c then v.(closed := v.closed || v.current, current := false) else v
  {}

  lemma StopView(h: HubState, x: ClientId, c: ClientId)
    requires x < |h.chans| && c < |h.chans|
    ensures |StopReader(h, x).chans| == |h.chans|
    ensures HubView(StopReader(h, x), c) == HubView(h, c).(reading := HubView(h, c).reading && x != c)
  {}

  lemma RegisterView(h: HubState, u: UserId, c: ClientId)
    requires c < |h.chans|
    ensures var h' := Register(h, u);
            var v, v' := HubView(h, c), HubView(h', c);
            && |h'.chans| == |h.chans| + 1 && h'.log == h.log
            && v' == v.(current := v.current && v.user != u)
  {}

  lemma StartView(h: HubState, x: ClientId, c: ClientId)
    requires x < |h.chans| && c < |h.chans|
    ensures var h' := StartPumps(h, x);
            && |h'.chans| == |h.chans| && h'.log == h.log
            && HubView(h', c) == HubView(h, c).(waiting := HubView(h, c).waiting && x != c,
                                                reading := HubView(h, c).reading || x == c)
  {}

  function WithRecords(v: Conn, own: nat, others: nat, replaced: bool, hook: Option<nat>): Conn {
    v.(own := own, others := others, replaced := replaced, hook := hook)
  }

  /** How the hub's view of a connection follows from the step. */
  predicate ViewMoves(h: HubState, h': HubState, c: ClientId, op: Op) {
    && c < |h.chans| <= |h'.chans| && h.log <= h'.log
    && HubView(h', c) == WithRecords(ConnAfter(HubView(h, c), c, op, h'.log), 0, 0, false, None)
  }

  lemma EnqueueMovesView(h: HubState, db: Db, op: Op, c: ClientId)
    requires InRange(h, db, op) && op.Enqueue? && c < |h.chans|
    ensures ViewMoves(h, NextHub(h, db, op), c, op)
  {
    if Offer(h, op.client) == HubSpec.Accepted { EnqueueView(h, op.client, op.packet, c); }
    hide HubSpec.Enqueue;
  }

  lemma RemovalMovesView(h: HubState, db: Db, op: Op, c: ClientId)
    requires InRange(h, db, op) && (op.Evict? || op.EndRead?) && c < |h.chans|
    ensures ViewMoves(h, NextHub(h, db, op), c, op)
  {
    UnregisterView(h, op.client, c);
    hide HubView, Unregister, StopReader;
    if op.EndRead? { StopView(Unregister(h, op.client), op.client, c); }
  }

  lemma RegisterMovesView(h: HubState, db: Db, op: Op, c: ClientId)
    requires InRange(h, db, op) && op.RegisterUser? && c < |h.chans|
    ensures ViewMoves(h, NextHub(h, db, op), c, op)
  {
    RegisterView(h, op.user, c);
    hide Register;
  }

  lemma StartMovesView(h: HubState, db: Db, op: Op, c: ClientId)
    requires InRange(h, db, op) && op.HookLoop? && c < |h.chans|
    ensures ViewMoves(h, NextHub(h, db, op), c, op)
  {
    if op.pending == [] { StartView(h, op.client, c); }
    hide StartPumps;
  }

  lemma HubConn(h: HubState, db: Db, op: Op, c: ClientId)
    requires InRange(h, db, op) && c < |h.chans|
    ensures ViewMoves(h, NextHub(h, db, op), c, op)
  {
    if op.Enqueue? { EnqueueMovesView(h, db, op, c); }
    else if op.Evict? || op.EndRead? { RemovalMovesView(h, db, op, c); }
    else if op.RegisterUser? { RegisterMovesView(h, db, op, c); }
    else if op.HookLoop? { StartMovesView(h, db, op, c); }
  }

  lemma NotNewHook(hook: map<Key, nat>, i: nat, t: nat, h: HubState, op: Op, c: ClientId)
    requires c < |h.chans|
    ensures HookFor(NextHook(hook, i, h, op, t), (i, c)) == HookFor(hook, (i, c))
  {
    assert (i, c) != (i, |h.chans|);
  }

  lemma NowReplaced(replaced: set<Key>, i: nat, h: HubState, op: Op, c: ClientId)
    requires c < |h.chans| && MapOk(h)
    ensures (i, c) in NextReplaced(replaced, i, h, op)
       <==> (i, c) in replaced || (op.RegisterUser? && Current(h, c) && h.chans[c].user == op.user)
  {}

  lemma NowCounted(own: map<Key, nat>, others: map<Key, nat>, i: nat, op: Op, c: ClientId)
    ensures var mine := op.Enqueue? && op.client == c;
            && Get(NextOwn(own, i, op), (i, c)) == Get(own, (i, c)) + (if mine && OwnTry(op) then 1 else 0)
            && Get(NextOthers(others, i, op), (i, c)) == Get(others, (i, c)) + (if mine && !OwnTry(op) then 1 else 0)
  {}

  /** The fields of the state after a step that connections are read from. */
  predicate Moved(f: Fine, f': Fine, i: nat, t: nat, op: Op)
    requires i < |f.hubs| && InRange(f.hubs[i], f.db, op)
  {
    && f'.hubs == f.hubs[i := NextHub(f.hubs[i], f.db, op)]
    && f'.own == NextOwn(f.own, i, op)
    && f'.others == NextOthers(f.others, i, op)
    && f'.hook == NextHook(f.hook, i, f.hubs[i], op, t)
    && f'.replaced == NextReplaced(f.replaced, i, f.hubs[i], op)
  }

  lemma ExecMoves(f: Fine, t: nat, ch: Choice)
    requires Ready(f, t, ch)
    ensures Moved(f, Exec(f, t, ch), f.threads[t].inst, t, f.threads[t].todo[0])
  {
    hide NextDb, NextTodo, ChoiceOk, NextHub, NextOwn, NextOthers, NextReplaced, NextHook, InRange, Kills, Closes;
  }

  /** What the counters and records say of a connection after a step of its instance. */
  lemma Recorded(f: Fine, f': Fine, i: nat, t: nat, op: Op, c: ClientId)
    requires i < |f.hubs| && InRange(f.hubs[i], f.db, op) && Moved(f, f', i, t, op)
    requires c < |f.hubs[i].chans| && MapOk(f.hubs[i])
    ensures var k := (i, c);
            var mine := op.Enqueue? && op.client == c;
            && Get(f'.own, k) == Get(f.own, k) + (if mine && OwnTry(op) then 1 else 0)
            && Get(f'.others, k) == Get(f.others, k) + (if mine && !OwnTry(op) then 1 else 0)
            && HookFor(f'.hook, k) == HookFor(f.hook, k)
            && (k in f'.replaced <==>
                  || k in f.replaced
                  || (op.RegisterUser? && Current(f.hubs[i], c) && f.hubs[i].chans[c].user == op.user))
  {
    hide NextHub, NextOwn, NextOthers, NextReplaced, NextHook, Get, HookFor, MapOk, Current, OwnTry, InRange;
    NotNewHook(f.hook, i, t, f.hubs[i], op, c);
    NowReplaced(f.replaced, i, f.hubs[i], op, c);
    NowCounted(f.own, f.others, i, op, c);
  }

  lemma AfterJoins(v: Conn, own: nat, others: nat, replaced: bool, hook: Option<nat>, c: ClientId, op: Op,
                   log: seq<Accept>)
    ensures var mine := op.Enqueue? && op.client == c;
            ConnAfter(WithRecords(v, own, others, replaced, hook), c, op, log)
            == WithRecords(ConnAfter(v, c, op, log),
                           own + (if mine && OwnTry(op) then 1 else 0),
                           others + (if mine && !OwnTry(op) then 1 else 0),
                           replaced || (op.RegisterUser? && v.current && v.user == op.user),
                           hook)
  {}

  lemma ConnSplits(f: Fine, i: nat, c: ClientId)
    requires i < |f.hubs| && c < |f.hubs[i].chans|
    ensures ConnOf(f, i, c) == WithRecords(HubView(f.hubs[i], c), Get(f.own, (i, c)), Get(f.others, (i, c)),
                                           (i, c) in f.replaced, HookFor(f.hook, (i, c)))
    ensures HubView(f.hubs[i], c).current == Current(f.hubs[i], c)
    ensures HubView(f.hubs[i], c).user == f.hubs[i].chans[c].user
    ensures ConnOf(f, i, c).log == f.hubs[i].log
  {}

  lemma ConnMoves(f: Fine, f': Fine, i: nat, t: nat, op: Op, c: ClientId)
    requires i < |f.hubs| && InRange(f.hubs[i], f.db, op) && Moved(f, f', i, t, op)
    requires c < |f.hubs[i].chans| && MapOk(f.hubs[i])
    ensures |f'.hubs| == |f.hubs| && |f.hubs[i].chans| <= |f'.hubs[i].chans| && f.hubs[i].log <= f'.hubs[i].log
    ensures ConnOf(f, i, c).log <= f'.hubs[i].log
    ensures ConnOf(f', i, c) == ConnAfter(ConnOf(f, i, c), c, op, f'.hubs[i].log)
  {
    hide NextHub, NextOwn, NextOthers, NextReplaced, NextHook, Get, HookFor, MapOk, Current, OwnTry, InRange;
    Recorded(f, f', i, t, op, c);
    HubConn(f.hubs[i], f.db, op, c);
    ConnSplits(f, i, c);
    ConnSplits(f', i, c);
    hide ConnOf, HubView, ConnAfter, Moved;
    AfterJoins(HubView(f.hubs[i], c), Get(f.own, (i, c)), Get(f.others, (i, c)), (i, c) in f.replaced,
               HookFor(f.hook, (i, c)), c, op, f'.hubs[i].log);
  }

  // ---- connections stay counted

  lemma ConnStaysOk(v: Conn, c: ClientId, op: Op, log: seq<Accept>)
    requires ConnOk(v)
    requires op.Evict? && op.client == c && v.waiting ==> CAPACITY < v.own + v.others
    requires op.EndRead? && op.client == c ==> !v.waiting
    ensures ConnOk(ConnAfter(v, c, op, log))
  {}

  /** A step leaves the connections of other instances alone. */
  lemma OthersStay(f: Fine, f': Fine, i: nat, t: nat, op: Op, j: nat, c: ClientId)
    requires i < |f.hubs| && InRange(f.hubs[i], f.db, op) && Moved(f, f', i, t, op)
    requires j < |f.hubs| && j != i && c < |f.hubs[j].chans|
    ensures |f'.hubs| == |f.hubs| && f'.hubs[j] == f.hubs[j] && ConnOf(f', j, c) == ConnOf(f, j, c)
  {
    hide NextHub, InRange, ConnIn;
  }

  /** A new connection starts empty, uncounted and in the map. */
  lemma FreshConn(f: Fine, f': Fine, i: nat, t: nat, u: UserId)
    requires i < |f.hubs| && Moved(f, f', i, t, RegisterUser(u)) && KeysRegistered(f)
    requires MapOk(f.hubs[i])
    ensures var c := |f.hubs[i].chans|;
            && |f'.hubs| == |f.hubs| && |f'.hubs[i].chans| == c + 1
            && ConnOf(f', i, c) == Conn(u, false, true, false, 0, true, 0, 0, false, Some(t), f.hubs[i].log)
  {
    var c := |f.hubs[i].chans|;
    assert (i, c) !in f.own && (i, c) !in f.others && (i, c) !in f.replaced;
    assert (i, c) !in f'.replaced;
  }

  lemma StaysRegistered(hubs: seq<HubState>, i: nat, h': HubState, k: Key)
    requires i < |hubs| && |hubs[i].chans| <= |h'.chans| && Registered(hubs, k)
    ensures Registered(hubs[i := h'], k)
  {}

  lemma CountedKeys(hubs: seq<HubState>, m: map<Key, nat>, i: nat, c: ClientId)
    requires i < |hubs| && c < |hubs[i].chans| && forall k | k in m :: Registered(hubs, k)
    ensures forall k | k in Bump(m, (i, c)) :: Registered(hubs, k)
  {}

  lemma ReplacedKeys(hubs: seq<HubState>, replaced: set<Key>, i: nat, op: Op)
    requires i < |hubs| && forall k | k in replaced :: Registered(hubs, k)
    ensures forall k | k in NextReplaced(replaced, i, hubs[i], op) :: Registered(hubs, k)
  {
    forall k | k in NextReplaced(replaced, i, hubs[i], op) ensures Registered(hubs, k) {
      if k !in replaced {
        assert k == (i, hubs[i].clients[op.user]);
      }
    }
  }

  lemma KeysStay(f: Fine, f': Fine, i: nat, t: nat, op: Op)
    requires i < |f.hubs| && InRange(f.hubs[i], f.db, op) && Moved(f, f', i, t, op) && KeysRegistered(f)
    requires |f.hubs[i].chans| <= |NextHub(f.hubs[i], f.db, op).chans|
    ensures KeysRegistered(f')
  {
    if op.Enqueue? {
      CountedKeys(f.hubs, f.own, i, op.client);
      CountedKeys(f.hubs, f.others, i, op.client);
    }
    ReplacedKeys(f.hubs, f.replaced, i, op);
    hide Bump, NextHub, NextReplaced, NextHook, InRange, Registered, OwnTry;
    forall k | k in f'.own || k in f'.others || k in f'.replaced ensures Registered(f'.hubs, k) {
      assert Registered(f.hubs, k);
      StaysRegistered(f.hubs, i, NextHub(f.hubs[i], f.db, op), k);
    }
  }

  /** How a connection may change while other threads move. */
  predicate Grows(v: Conn, v': Conn) {
    && v'.user == v.user && v'.hook == v.hook
    && v.own <= v'.own && v.others <= v'.others
    && (v.replaced ==> v'.replaced) && (v.closed ==> v'.closed)
    && (v'.waiting ==> v.waiting)
    && v.log <= v'.log
  }

  lemma StillAccepted(log: seq<Accept>, log': seq<Accept>, c: ClientId, m: MsgId)
    requires log <= log' && Accepted(log, c, m)
    ensures Accepted(log', c, m)
  {
    var k :| 0 <= k < |log| && log[k].client == c && CopyOf(log[k].packet, m);
    assert log'[k] == log[k];
  }

  lemma HookStays(v: Conn, v': Conn, t: nat, todo: seq<Op>, c: ClientId)
    requires todo != [] && HookOk(v, t, todo, c) && Grows(v, v') && v'.own == v.own && v'.waiting == v.waiting
    ensures HookOk(v', t, todo, c)
  {
    hide Accepted, CopyOf;
    var n := |todo| - 1;
    if todo[n].HookLoop? && |todo[..n]| == 1 && Accepted(v.log, c, todo[0].mid) {
      StillAccepted(v.log, v'.log, c, todo[0].mid);
    }
  }

  // ---- threads that do not move

  /** What a thread other than the moving one needs of a connection. */
  predicate KeepsFor(v: Conn, v': Conn, t: nat) {
    Grows(v, v') && (v.hook == Some(t) ==> v'.own == v.own && v'.waiting == v.waiting)
  }

  predicate ConnKeepsFor(f: Fine, f': Fine, i: nat, c: ClientId, t: nat) {
    && i < |f.hubs| && i < |f'.hubs| && c < |f.hubs[i].chans| && c < |f'.hubs[i].chans|
    && KeepsFor(ConnOf(f, i, c), ConnOf(f', i, c), t)
  }

  predicate HubKeepsFor(f: Fine, f': Fine, i: nat, t: nat) {
    && i < |f.hubs| && |f'.hubs| == |f.hubs|
    && forall c | 0 <= c < |f.hubs[i].chans| :: ConnKeepsFor(f, f', i, c, t)
  }

  lemma RemovalsStay(f: Fine, f': Fine, i: nat, t: nat, todo: seq<Op>)
    requires HubKeepsFor(f, f', i, t) && RemovalsOk(f, i, todo)
    ensures RemovalsOk(f', i, todo)
  {
    hide ConnOf;
    forall k | 0 <= k < |todo| ensures RemovalOk(f', i, todo[k]) {
      assert RemovalOk(f, i, todo[k]);
      if todo[k].Evict? || todo[k].EndRead? { assert ConnKeepsFor(f, f', i, todo[k].client, t); }
    }
  }

  lemma ThreadStays(f: Fine, f': Fine, t: nat, th: Thread)
    requires ThreadOk(f, t, th) && HubKeepsFor(f, f', th.inst, t)
    ensures ThreadOk(f', t, th)
  {
    RemovalsStay(f, f', th.inst, t, th.todo);
    hide ConnOf, RemovalsOk, HookOk;
    if HookOf(th.todo).Some? {
      var c := HookOf(th.todo).value;
      assert ConnKeepsFor(f, f', th.inst, c, t);
      assert ConnOf(f, th.inst, c).hook == Some(t) by { HookIsNamed(ConnOf(f, th.inst, c), t, th.todo, c); }
      HookStays(ConnOf(f, th.inst, c), ConnOf(f', th.inst, c), t, th.todo, c);
    }
  }

  lemma HookIsNamed(v: Conn, t: nat, todo: seq<Op>, c: ClientId)
    requires todo != [] && HookOk(v, t, todo, c)
    ensures v.hook == Some(t) && v.waiting
  {}

  /** A step that is its connection's own enqueue, or the end of its hook, belongs to thread t. */
  predicate OwnedBy(f: Fine, i: nat, op: Op, t: nat) {
    OwnTry(op) || op.HookLoop? ==>
      i < |f.hubs| && op.client < |f.hubs[i].chans| && ConnOf(f, i, op.client).hook == Some(t)
  }

  /** Only the thread that runs a hook enqueues for it or ends it. */
  lemma MoverOwns(f: Fine, t: nat, th: Thread)
    requires ThreadOk(f, t, th) && th.todo != []
    ensures OwnedBy(f, th.inst, th.todo[0], t)
    ensures OwnTry(th.todo[0]) || th.todo[0].HookLoop? ==> HookOf(th.todo) == Some(th.todo[0].client)
  {
    hide ConnOf, RemovalsOk, Accepted, Disturbed;
    var op := th.todo[0];
    if HookOf(th.todo) == None {
      assert PlainOp(op);
    } else {
      assert |th.todo| > 1 ==> th.todo[..|th.todo| - 1][0] == op;
    }
  }

  lemma AfterKeepsFor(v: Conn, c: ClientId, op: Op, log: seq<Accept>, t: nat, s: nat)
    requires v.log <= log && s != t
    requires (OwnTry(op) || op.HookLoop?) && op.client == c ==> v.hook == Some(t)
    ensures KeepsFor(v, ConnAfter(v, c, op, log), s)
  {}

  lemma MoveKeepsFor(f: Fine, f': Fine, i: nat, t: nat, op: Op, s: nat, j: nat, c: ClientId)
    requires i < |f.hubs| && InRange(f.hubs[i], f.db, op) && Moved(f, f', i, t, op) && MapOk(f.hubs[i])
    requires OwnedBy(f, i, op, t) && s != t && j < |f.hubs| && c < |f.hubs[j].chans|
    ensures |f'.hubs| == |f.hubs| && ConnKeepsFor(f, f', j, c, s)
  {
    hide InRange, MapOk, Moved, ConnOf, Grows, OwnTry;
    if j == i {
      ConnMoves(f, f', i, t, op, c);
      hide ConnAfter;
      AfterKeepsFor(ConnOf(f, i, c), c, op, f'.hubs[i].log, t, s);
    } else {
      OthersStay(f, f', i, t, op, j, c);
      SameGrows(ConnOf(f, j, c));
    }
  }

  lemma ExecKeepsFor(f: Fine, t: nat, ch: Choice, s: nat, j: nat)
    requires Ready(f, t, ch) && MapOk(f.hubs[f.threads[t].inst]) && ThreadOk(f, t, f.threads[t])
    requires s != t && j < |f.hubs|
    ensures HubKeepsFor(f, Exec(f, t, ch), j, s)
  {
    var th, f' := f.threads[t], Exec(f, t, ch);
    MoverOwns(f, t, th);
    ExecMoves(f, t, ch);
    assert |f'.hubs| == |f.hubs|;
    hide ThreadOk, Exec, Moved, ConnKeepsFor, MapOk, InRange, ChoiceOk, OwnedBy;
    forall c | 0 <= c < |f.hubs[j].chans| ensures ConnKeepsFor(f, f', j, c, s) {
      MoveKeepsFor(f, f', th.inst, t, th.todo[0], s, j, c);
    }
  }

  lemma SameGrows(v: Conn)
    ensures Grows(v, v)
  {}

  lemma MapOfFine(f: Fine, i: nat)
    requires InterleavedHub.HubInv(f) && i < |f.hubs|
    ensures MapOk(f.hubs[i])
  {
    InterleavedHub.HubOfFine(f, i);
  }

  // ---- the thread that moved

  /** What the hub says of a connection, as a thread's step sees it. */
  predicate SeenIn(h: HubState, c: ClientId, v: Conn) {
    && c < |h.chans|
    && v.user == h.chans[c].user && v.closed == h.chans[c].closed
    && v.queued == |h.chans[c].queue| && v.current == Current(h, c) && v.log == h.log
  }

  lemma ConnIsSeen(f: Fine, i: nat, c: ClientId)
    requires i < |f.hubs| && c < |f.hubs[i].chans|
    ensures SeenIn(f.hubs[i], c, ConnOf(f, i, c))
  {}

  lemma HookShape(v: Conn, t: nat, todo: seq<Op>, c: ClientId)
    requires todo != [] && HookOk(v, t, todo, c)
    ensures todo[0].QueryPending? || todo[0].HookLoop? <==> |todo| == 1
    ensures todo[0].Mark? <==> |todo| == 2
    ensures |todo| != 1 && |todo| != 2 ==> |todo| == 3 && todo[..2] == [todo[0], todo[1]]
    ensures |todo| == 3 ==> todo[0].Lookup? || todo[0].Enqueue? || todo[0].Evict?
  {
    hide Accepted, Disturbed;
    assert |todo| > 1 ==> todo[..|todo| - 1][0] == todo[0];
  }

  /** Steps of the hook, one lemma each. `v` and `v'` are its connection before and after the step. */
  lemma QueryMoves(h: HubState, db: Db, clock: nat, v: Conn, v': Conn, t: nat, todo: seq<Op>, c: ClientId, ch: Choice)
    requires todo != [] && todo[0].QueryPending? && HookOk(v, t, todo, c) && InRange(h, db, todo[0])
    requires ChoiceOk(db, todo[0], ch)
    requires v' == v
    ensures var todo' := NextTodo(h, db, clock, todo[0], todo[1..], ch);
            HookOf(todo') == Some(c) && HookOk(v', t, todo', c)
  {
    hide Accepted, Disturbed;
    HookShape(v, t, todo, c);
    BatchFits(db, todo[0].user, ch.batch);
    var todo' := NextTodo(h, db, clock, todo[0], todo[1..], ch);
    assert todo'[..0] == [];
  }

  lemma LoopMoves(h: HubState, db: Db, clock: nat, v: Conn, v': Conn, t: nat, todo: seq<Op>, c: ClientId, ch: Choice)
    requires todo != [] && todo[0].HookLoop? && HookOk(v, t, todo, c) && InRange(h, db, todo[0])
    requires v' == ConnAfter(v, c, todo[0], v'.log)
    ensures var todo' := NextTodo(h, db, clock, todo[0], todo[1..], ch);
            todo' != [] ==> HookOf(todo') == Some(c) && HookOk(v', t, todo', c)
  {
    hide Accepted, Disturbed;
    HookShape(v, t, todo, c);
    var ms := todo[0].pending;
    if ms != [] {
      var todo' := NextTodo(h, db, clock, todo[0], todo[1..], ch);
      assert todo'[..2] == [Lookup(todo[0].user, PacketOf(db, ms[0]), Replay(c, ms[0])),
                            Mark(ms[0], Delivered, todo[0].since)];
    }
  }

  /** The replay of one row looks for the hook's own connection. */
  lemma LookupMoves(h: HubState, db: Db, clock: nat, v: Conn, v': Conn, t: nat, todo: seq<Op>, c: ClientId, ch: Choice)
    requires todo != [] && todo[0].Lookup? && HookOk(v, t, todo, c) && ConnOk(v) && SeenIn(h, c, v) && v' == v
    ensures var todo' := NextTodo(h, db, clock, todo[0], todo[1..], ch);
            HookOf(todo') == Some(c) && HookOk(v', t, todo', c)
    ensures !Disturbed(v) ==> todo[0].user in h.clients && h.clients[todo[0].user] == c
  {
    hide Accepted;
    HookShape(v, t, todo, c);
    var todo' := NextTodo(h, db, clock, todo[0], todo[1..], ch);
    if todo[0].user in h.clients {
      assert todo' == [todo'[0], todo[1], todo[2]] && todo'[..2] == [todo'[0], todo[1]];
    } else {
      assert todo' == [todo[1], todo[2]] && todo'[..1] == [todo[1]];
    }
  }

  /** The enqueue of a row on the hook's connection is refused only when the connection was disturbed. */
  lemma EnqueueMoves(h: HubState, db: Db, clock: nat, v: Conn, v': Conn, t: nat, todo: seq<Op>, c: ClientId, ch: Choice)
    requires todo != [] && todo[0].Enqueue? && HookOk(v, t, todo, c) && ConnOk(v) && SeenIn(h, c, v)
    requires InRange(h, db, todo[0])
    requires v' == ConnAfter(v, c, todo[0], NextHub(h, db, todo[0]).log) && v.log <= v'.log
    ensures var todo' := NextTodo(h, db, clock, todo[0], todo[1..], ch);
            todo' != [] ==> HookOf(todo') == Some(c) && HookOk(v', t, todo', c)
    ensures !Disturbed(v) ==> todo[0].client == c && Offer(h, c) == HubSpec.Accepted
    ensures todo[0].client == c ==> (Offer(h, c) == HubSpec.Accepted <==> v.own + v.others < CAPACITY)
  {
    HookShape(v, t, todo, c);
    var x, h' := todo[0].client, NextHub(h, db, todo[0]);
    var todo' := NextTodo(h, db, clock, todo[0], todo[1..], ch);
    match Offer(h, x) {
      case Accepted =>
        assert todo' == [todo[1], todo[2]] && todo'[..1] == [todo[1]];
        assert h'.log[|h.log|] == Accept(x, h.chans[x].user, todo[0].packet);
      case Full =>
        assert todo' == [Evict(x), todo[1], todo[2]] && todo'[..2] == [Evict(x), todo[1]];
      case Panics =>
    }
  }

  lemma EvictMoves(h: HubState, db: Db, clock: nat, v: Conn, v': Conn, t: nat, todo: seq<Op>, c: ClientId, ch: Choice)
    requires todo != [] && todo[0].Evict? && HookOk(v, t, todo, c) && InRange(h, db, todo[0])
    requires v' == ConnAfter(v, c, todo[0], v'.log)
    ensures var todo' := NextTodo(h, db, clock, todo[0], todo[1..], ch);
            HookOf(todo') == Some(c) && HookOk(v', t, todo', c)
  {
    hide Accepted;
    HookShape(v, t, todo, c);
    assert todo[1..] == [todo[1], todo[2]] && todo[1..][..1] == [todo[1]];
  }

  lemma MarkMoves(h: HubState, db: Db, clock: nat, v: Conn, v': Conn, t: nat, todo: seq<Op>, c: ClientId, ch: Choice)
    requires todo != [] && todo[0].Mark? && HookOk(v, t, todo, c) && v' == v
    ensures var todo' := NextTodo(h, db, clock, todo[0], todo[1..], ch);
            HookOf(todo') == Some(c) && HookOk(v', t, todo', c)
    ensures !Disturbed(v) ==> Accepted(v.log, c, todo[0].mid)
  {
    hide Accepted;
    HookShape(v, t, todo, c);
    assert todo[1..] == [todo[1]] && todo[1..][..0] == [];
  }

  /** A hook's thread goes on as one, until its loop has ended. */
  lemma HookMoves(h: HubState, db: Db, clock: nat, v: Conn, v': Conn, t: nat, todo: seq<Op>, c: ClientId, ch: Choice)
    requires todo != [] && HookOk(v, t, todo, c) && ConnOk(v) && SeenIn(h, c, v)
    requires InRange(h, db, todo[0]) && ChoiceOk(db, todo[0], ch)
    requires v' == ConnAfter(v, c, todo[0], NextHub(h, db, todo[0]).log) && v.log <= v'.log
    ensures var todo' := NextTodo(h, db, clock, todo[0], todo[1..], ch);
            todo' != [] ==> HookOf(todo') == Some(c) && HookOk(v', t, todo', c)
  {
    HookShape(v, t, todo, c);
    hide HookOk, NextTodo, SeenIn, InRange, ChoiceOk;
    match todo[0]
    case QueryPending(_, _) => QueryMoves(h, db, clock, v, v', t, todo, c, ch);
    case HookLoop(_, _, _, _) => LoopMoves(h, db, clock, v, v', t, todo, c, ch);
    case Lookup(_, _, _) => LookupMoves(h, db, clock, v, v', t, todo, c, ch);
    case Enqueue(_, _, _, _) => EnqueueMoves(h, db, clock, v, v', t, todo, c, ch);
    case Evict(_) => EvictMoves(h, db, clock, v, v', t, todo, c, ch);
    case Mark(_, _, _) => MarkMoves(h, db, clock, v, v', t, todo, c, ch);
    case _ =>
  }

  lemma PlainFront(h: HubState, db: Db, clock: nat, op: Op, ch: Choice)
    requires InRange(h, db, op) && PlainOp(op) && !op.RegisterUser?
    ensures PlainTodo(InterleavedHub.Front(h, db, clock, op, ch))
  {
    hide Matches, CreateChat, Offer;
  }

  /** Threads that run no hook stay so, but for a registration. */
  lemma PlainMoves(h: HubState, db: Db, clock: nat, todo: seq<Op>, ch: Choice)
    requires todo != [] && PlainTodo(todo) && !todo[0].RegisterUser? && InRange(h, db, todo[0])
    ensures var todo' := NextTodo(h, db, clock, todo[0], todo[1..], ch);
            HookOf(todo') == None && PlainTodo(todo')
  {
    var op := todo[0];
    assert PlainOp(op);
    PlainFront(h, db, clock, op, ch);
    InterleavedHub.TodoSplits(h, db, clock, op, todo[1..], ch);
    hide NextTodo, InterleavedHub.Front, InRange;
  }

  /** An eviction put in front follows a full queue. */
  lemma FullIsCounted(f: Fine, f': Fine, i: nat, t: nat, op: Op, x: ClientId)
    requires i < |f.hubs| && InRange(f.hubs[i], f.db, op) && Moved(f, f', i, t, op) && MapOk(f.hubs[i])
    requires op.Enqueue? && op.client == x && x < |f.hubs[i].chans| && ConnOk(ConnOf(f, i, x))
    requires Offer(f.hubs[i], x) == Full
    ensures RemovalOk(f', i, Evict(x))
  {
    hide InRange, Moved, MapOk;
    ConnIsSeen(f, i, x);
    ConnMoves(f, f', i, t, op, x);
    hide ConnOf;
  }

  /** Only a full queue puts a removal in front of a thread's rest. */
  lemma FrontEvicts(h: HubState, db: Db, clock: nat, op: Op, ch: Choice, k: nat)
    requires InRange(h, db, op) && k < |InterleavedHub.Front(h, db, clock, op, ch)|
    ensures var x := InterleavedHub.Front(h, db, clock, op, ch)[k];
            && !x.EndRead?
            && (x.Evict? ==> op.Enqueue? && x.client == op.client && Offer(h, op.client) == Full)
  {
    hide Matches, CreateChat, Offer;
  }

  lemma FrontRemovals(f: Fine, f': Fine, i: nat, t: nat, op: Op, ch: Choice)
    requires i < |f.hubs| && InRange(f.hubs[i], f.db, op) && Moved(f, f', i, t, op) && MapOk(f.hubs[i]) && ConnsOk(f)
    requires i < |f'.hubs|
    ensures RemovalsOk(f', i, InterleavedHub.Front(f.hubs[i], f.db, f.clock, op, ch))
  {
    if op.Enqueue? && Offer(f.hubs[i], op.client) == Full {
      assert Counted(f, i, op.client);
      FullIsCounted(f, f', i, t, op, op.client);
    }
    hide Offer, Moved, MapOk, ConnsOk, ConnOf, InRange, InterleavedHub.Front;
    var front := InterleavedHub.Front(f.hubs[i], f.db, f.clock, op, ch);
    forall k | 0 <= k < |front| ensures RemovalOk(f', i, front[k]) {
      FrontEvicts(f.hubs[i], f.db, f.clock, op, ch, k);
    }
  }

  lemma TodoAfter(f: Fine, t: nat, ch: Choice)
    requires Ready(f, t, ch)
    ensures var th := f.threads[t];
            && |Exec(f, t, ch).hubs| == |f.hubs|
            && Exec(f, t, ch).threads
               == f.threads[t := Thread(th.inst, NextTodo(f.hubs[th.inst], f.db, f.clock, th.todo[0], th.todo[1..],
                                                          ch))]
  {
    hide NextDb, NextTodo, ChoiceOk, NextHub, NextOwn, NextOthers, NextReplaced, NextHook, InRange, Kills, Closes;
  }

  lemma BothRemovals(f: Fine, i: nat, front: seq<Op>, rest: seq<Op>)
    requires i < |f.hubs| && RemovalsOk(f, i, front) && RemovalsOk(f, i, rest)
    ensures RemovalsOk(f, i, front + rest)
  {
    hide RemovalOk;
  }

  lemma RestRemovals(f: Fine, i: nat, todo: seq<Op>)
    requires i < |f.hubs| && todo != [] && RemovalsOk(f, i, todo)
    ensures RemovalsOk(f, i, todo[1..])
  {
    hide RemovalOk;
  }

  lemma MovedRemovals(f: Fine, t: nat, ch: Choice)
    requires Ready(f, t, ch) && MapOk(f.hubs[f.threads[t].inst]) && ConnsOk(f) && ThreadOk(f, t, f.threads[t])
    requires HookClient(f.threads[t].todo[0]).Some? ==> f.threads[t].todo[1..] == []
    ensures var i := f.threads[t].inst;
            i < |Exec(f, t, ch).hubs| && RemovalsOk(Exec(f, t, ch), i, Exec(f, t, ch).threads[t].todo)
  {
    hide ConnsOk, MapOk, Moved, InRange, ChoiceOk, NextTodo, Exec, RemovalsOk, HookOf, HookOk, PlainTodo, HubKeepsFor;
    var th := f.threads[t];
    var i, h, op, rest := th.inst, f.hubs[th.inst], th.todo[0], th.todo[1..];
    TodoAfter(f, t, ch);
    ExecMoves(f, t, ch);
    ExecKeepsFor(f, t, ch, t + 1, i);
    RestRemovals(f, i, th.todo);
    RemovalsStay(f, Exec(f, t, ch), i, t + 1, rest);
    FrontRemovals(f, Exec(f, t, ch), i, t, op, ch);
    InterleavedHub.TodoSplits(h, f.db, f.clock, op, rest, ch);
    hide ThreadOk, Ready, InterleavedHub.Front, HookClient;
    BothRemovals(Exec(f, t, ch), i, InterleavedHub.Front(h, f.db, f.clock, op, ch), rest);
  }

  lemma MovedHook(f: Fine, t: nat, ch: Choice)
    requires Ready(f, t, ch) && MapOk(f.hubs[f.threads[t].inst]) && ConnsOk(f) && KeysRegistered(f)
    requires ThreadOk(f, t, f.threads[t])
    ensures var f' := Exec(f, t, ch);
            var i, todo' := f.threads[t].inst, f'.threads[t].todo;
            && i < |f'.hubs|
            && match HookOf(todo')
               case None => PlainTodo(todo')
               case Some(c) => c < |f'.hubs[i].chans| && HookOk(ConnOf(f', i, c), t, todo', c)
  {
    var th, f' := f.threads[t], Exec(f, t, ch);
    var i, h, op, rest := th.inst, f.hubs[th.inst], th.todo[0], th.todo[1..];
    ExecMoves(f, t, ch);
    assert f'.threads[t].todo == NextTodo(h, f.db, f.clock, op, rest, ch) && f'.hubs[i] == NextHub(h, f.db, op);
    hide Exec, RemovalsOk, MapOk, Moved, InRange, ChoiceOk, HookOk, ConnOf, NextHub, KeysRegistered, PlainTodo;
    if HookOf(th.todo).Some? {
      var c := HookOf(th.todo).value;
      assert Counted(f, i, c) by { hide ConnOk; }
      ConnIsSeen(f, i, c);
      ConnMoves(f, f', i, t, op, c);
      hide NextTodo, ConnOk, ConnsOk, SeenIn, ConnAfter;
      HookMoves(h, f.db, f.clock, ConnOf(f, i, c), ConnOf(f', i, c), t, th.todo, c, ch);
    } else if op.RegisterUser? {
      FreshConn(f, f', i, t, op.user);
      FreshHook(t, op.user, |h.chans|, h.log);
    } else {
      hide NextTodo;
      PlainMoves(h, f.db, f.clock, th.todo, ch);
    }
  }

  lemma FreshHook(t: nat, u: UserId, c: ClientId, log: seq<Accept>)
    ensures HookOk(Conn(u, false, true, false, 0, true, 0, 0, false, Some(t), log), t, [QueryPending(u, c)], c)
    ensures HookOf([QueryPending(u, c)]) == Some(c)
  {}

  // ---- every step keeps the invariant

  lemma ChansAfter(h: HubState, db: Db, op: Op)
    requires InRange(h, db, op)
    ensures |NextHub(h, db, op).chans| == |h.chans| + (if op.RegisterUser? then 1 else 0)
  {}

  lemma OldConnOk(f: Fine, f': Fine, i: nat, t: nat, op: Op, c: ClientId)
    requires i < |f.hubs| && InRange(f.hubs[i], f.db, op) && Moved(f, f', i, t, op) && MapOk(f.hubs[i])
    requires ConnsOk(f) && KeysRegistered(f) && RemovalOk(f, i, op)
    requires i < |f'.hubs| && c < |f.hubs[i].chans| && c < |f'.hubs[i].chans|
    ensures Counted(f', i, c)
  {
    hide MapOk, ConnOf, NextHub, KeysRegistered, InRange;
    assert Counted(f, i, c);
    ConnMoves(f, f', i, t, op, c);
    ConnStaysOk(ConnOf(f, i, c), c, op, f'.hubs[i].log);
  }

  lemma OtherConnOk(f: Fine, f': Fine, i: nat, t: nat, op: Op, j: nat, c: ClientId)
    requires i < |f.hubs| && InRange(f.hubs[i], f.db, op) && Moved(f, f', i, t, op) && ConnsOk(f)
    requires j != i && j < |f'.hubs| && c < |f'.hubs[j].chans|
    ensures Counted(f', j, c)
  {
    hide ConnOf, NextHub, InRange, ConnOk, NextOwn, NextOthers, NextHook, NextReplaced;
    assert Counted(f, j, c);
    OthersStay(f, f', i, t, op, j, c);
  }

  lemma NewConnOk(f: Fine, f': Fine, i: nat, t: nat, op: Op, c: ClientId)
    requires i < |f.hubs| && op.RegisterUser? && Moved(f, f', i, t, op) && MapOk(f.hubs[i]) && KeysRegistered(f)
    requires i < |f'.hubs| && c == |f.hubs[i].chans| < |f'.hubs[i].chans|
    ensures Counted(f', i, c)
  {
    hide MapOk, ConnOf, KeysRegistered, Register;
    FreshConn(f, f', i, t, op.user);
  }

  lemma MovedHub(f: Fine, f': Fine, i: nat, t: nat, op: Op)
    requires i < |f.hubs| && InRange(f.hubs[i], f.db, op) && Moved(f, f', i, t, op)
    ensures |f'.hubs| == |f.hubs| && |f'.hubs[i].chans| == |f.hubs[i].chans| + (if op.RegisterUser? then 1 else 0)
  {
    ChansAfter(f.hubs[i], f.db, op);
    hide NextHub, InRange, NextOwn, NextOthers, NextHook, NextReplaced;
  }

  lemma MoveConnOk(f: Fine, f': Fine, i: nat, t: nat, op: Op, j: nat, c: ClientId)
    requires i < |f.hubs| && InRange(f.hubs[i], f.db, op) && Moved(f, f', i, t, op) && MapOk(f.hubs[i])
    requires ConnsOk(f) && KeysRegistered(f) && RemovalOk(f, i, op)
    requires j < |f'.hubs| && c < |f'.hubs[j].chans|
    ensures Counted(f', j, c)
  {
    hide MapOk, Moved, Counted, ConnsOk, KeysRegistered, InRange, RemovalOk;
    MovedHub(f, f', i, t, op);
    if j != i {
      OtherConnOk(f, f', i, t, op, j, c);
    } else if c < |f.hubs[i].chans| {
      OldConnOk(f, f', i, t, op, c);
    } else {
      NewConnOk(f, f', i, t, op, c);
    }
  }

  lemma ExecKeepsConns(f: Fine, t: nat, ch: Choice)
    requires Ready(f, t, ch) && MapOk(f.hubs[f.threads[t].inst])
    requires ConnsOk(f) && KeysRegistered(f) && RemovalOk(f, f.threads[t].inst, f.threads[t].todo[0])
    ensures ConnsOk(Exec(f, t, ch)) && KeysRegistered(Exec(f, t, ch))
  {
    var i, op, f' := f.threads[t].inst, f.threads[t].todo[0], Exec(f, t, ch);
    ExecMoves(f, t, ch);
    ChansAfter(f.hubs[i], f.db, op);
    hide Exec, MapOk, Counted, NextHub, KeysRegistered, InRange, ConnsOk, RemovalOk, Moved, ChoiceOk;
    KeysStay(f, f', i, t, op);
    forall j, c | 0 <= j < |f'.hubs| && 0 <= c < |f'.hubs[j].chans| ensures Counted(f', j, c) {
      MoveConnOk(f, f', i, t, op, j, c);
    }
    AllConnsOk(f');
  }

  lemma AllConnsOk(f: Fine)
    requires forall i, c | 0 <= i < |f.hubs| && 0 <= c < |f.hubs[i].chans| :: Counted(f, i, c)
    ensures ConnsOk(f)
  {
    hide Counted;
  }

  lemma ExecKeepsThreads(f: Fine, t: nat, ch: Choice)
    requires Ready(f, t, ch) && MapOk(f.hubs[f.threads[t].inst]) && ConnsOk(f) && KeysRegistered(f) && ThreadsOk(f)
    requires HookClient(f.threads[t].todo[0]).Some? ==> f.threads[t].todo[1..] == []
    ensures ThreadsOk(Exec(f, t, ch))
  {
    var f' := Exec(f, t, ch);
    TodoAfter(f, t, ch);
    assert ThreadOk(f, t, f.threads[t]) by { hide ThreadOk; }
    hide Exec, ThreadOk, MapOk, ConnsOk, KeysRegistered, NextTodo, InRange, ChoiceOk, HookClient;
    forall s | 0 <= s < |f'.threads| ensures ThreadOk(f', s, f'.threads[s]) {
      if s == t {
        MovedThreadOk(f, t, ch);
      } else {
        assert ThreadOk(f, s, f.threads[s]);
        assert f.threads[s].inst < |f.hubs| by { InstOf(f, s, f.threads[s]); }
        ExecKeepsFor(f, t, ch, s, f.threads[s].inst);
        hide HubKeepsFor;
        ThreadStays(f, f', s, f.threads[s]);
      }
    }
  }

  lemma InstOf(f: Fine, t: nat, th: Thread)
    requires ThreadOk(f, t, th)
    ensures th.inst < |f.hubs| && RemovalsOk(f, th.inst, th.todo)
  {}

  lemma MovedThreadOk(f: Fine, t: nat, ch: Choice)
    requires Ready(f, t, ch) && MapOk(f.hubs[f.threads[t].inst]) && ConnsOk(f) && KeysRegistered(f)
    requires ThreadOk(f, t, f.threads[t])
    requires HookClient(f.threads[t].todo[0]).Some? ==> f.threads[t].todo[1..] == []
    ensures ThreadOk(Exec(f, t, ch), t, Exec(f, t, ch).threads[t])
  {
    MovedRemovals(f, t, ch);
    MovedHook(f, t, ch);
    TodoAfter(f, t, ch);
    hide Exec, HookOk, HookOf, MapOk, ConnsOk, KeysRegistered, NextTodo, InRange, ChoiceOk, ConnOf, PlainTodo,
      RemovalsOk;
  }

  lemma TakeKeepsReplay(f: Fine, t: nat, ch: Choice)
    requires ReplayInv(f) && Ready(f, t, ch)
    ensures ReplayInv(Exec(f, t, ch))
  {
    InterleavedHub.StepKeepsHubs(f, Take(t, ch));
    MapOfFine(f, f.threads[t].inst);
    InterleavedHub.TodoOf(f, t);
    InterleavedHub.TailOk(f, t, f.threads[t]);
    assert ThreadOk(f, t, f.threads[t]) by { hide ThreadOk; }
    InstOf(f, t, f.threads[t]);
    hide Exec, ConnsOk, KeysRegistered, ThreadsOk, ThreadOk, InterleavedHub.HubInv, MapOk, InRange, ChoiceOk,
      InterleavedHub.TodoOk, InterleavedHub.OpOk, RemovalOk;
    ExecKeepsConns(f, t, ch);
    ExecKeepsThreads(f, t, ch);
  }

  // ---- starting threads, and writers

  lemma SpawnKeepsReplay(f: Fine, th: Thread)
    requires ReplayInv(f) && Startable(f, th)
    ensures ReplayInv(FineStep(f, Spawn(th)))
  {
    hide InterleavedHub.HubInv, Startable, ConnsOk, ThreadOk, KeysRegistered, ThreadsOk;
    InterleavedHub.SpawnKeepsHubs(f, th);
    var f' := FineStep(f, Spawn(th));
    assert f' == f.(threads := f.threads + [th], clock := f.clock + 1);
    hide FineStep;
    SameConns(f, f');
    NewThreadOk(f, th);
    SpawnThreads(f, f', th);
  }

  lemma SameConns(f: Fine, f': Fine)
    requires ConnsOk(f) && KeysRegistered(f) && f'.hubs == f.hubs && f'.own == f.own && f'.others == f.others
    requires f'.hook == f.hook && f'.replaced == f.replaced
    ensures ConnsOk(f') && KeysRegistered(f')
  {
    forall i, c | 0 <= i < |f'.hubs| && 0 <= c < |f'.hubs[i].chans| ensures Counted(f', i, c) {
      assert Counted(f, i, c);
    }
  }

  lemma SpawnThreads(f: Fine, f': Fine, th: Thread)
    requires ThreadsOk(f) && ThreadOk(f, |f.threads|, th) && f' == f.(threads := f.threads + [th], clock := f.clock + 1)
    ensures ThreadsOk(f')
  {
    hide ThreadOk;
    forall t | 0 <= t < |f'.threads| ensures ThreadOk(f', t, f'.threads[t]) {
      assert t < |f.threads| ==> f'.threads[t] == f.threads[t] && ThreadOk(f, t, f.threads[t]);
      SameThread(f, f', t, f'.threads[t]);
    }
  }

  lemma SameThread(f: Fine, f': Fine, t: nat, th: Thread)
    requires ThreadOk(f, t, th) && f'.hubs == f.hubs && f'.own == f.own && f'.others == f.others
    requires f'.hook == f.hook && f'.replaced == f.replaced
    ensures ThreadOk(f', t, th)
  {
    hide HookOk;
    forall k | 0 <= k < |th.todo| ensures RemovalOk(f', th.inst, th.todo[k]) {
      assert RemovalOk(f, th.inst, th.todo[k]);
    }
  }

  lemma NewThreadOk(f: Fine, th: Thread)
    requires ConnsOk(f) && Startable(f, th)
    ensures ThreadOk(f, |f.threads|, th)
  {
    if th.todo[0].EndRead? {
      assert Counted(f, th.inst, th.todo[0].client);
    }
    hide ConnsOk, ConnOk;
  }

  /** A writer takes packets only from connections whose pumps run. */
  predicate QueueMoves(v: Conn, v': Conn) {
    v' == v.(queued := v'.queued) && (v.waiting ==> v'.queued == v.queued)
  }

  lemma WriteView(h: HubState, x: ClientId, ok: bool, c: ClientId)
    requires CanWrite(h, x) && c < |h.chans|
    ensures |Write(h, x, ok).chans| == |h.chans| && QueueMoves(HubView(h, c), HubView(Write(h, x, ok), c))
  {}

  lemma WriteLength(h: HubState, x: ClientId, ok: bool)
    requires CanWrite(h, x)
    ensures |Write(h, x, ok).chans| == |h.chans|
  {}

  lemma RecordsMove(v: Conn, v': Conn, own: nat, others: nat, replaced: bool, hook: Option<nat>)
    requires QueueMoves(v, v')
    ensures QueueMoves(WithRecords(v, own, others, replaced, hook), WithRecords(v', own, others, replaced, hook))
  {}

  lemma DrainConn(f: Fine, i: nat, h': HubState, f': Fine, j: nat, c: ClientId)
    requires i < |f.hubs| && j < |f.hubs| && c < |f.hubs[j].chans| && |h'.chans| == |f.hubs[i].chans|
    requires f' == f.(hubs := f.hubs[i := h'], clock := f.clock + 1)
    requires j == i ==> QueueMoves(HubView(f.hubs[i], c), HubView(h', c))
    ensures |f'.hubs[j].chans| == |f.hubs[j].chans| && QueueMoves(ConnOf(f, j, c), ConnOf(f', j, c))
  {
    hide ConnOf, HubView, Current, QueueMoves, WithRecords, HookFor, Get;
    ConnSplits(f, j, c);
    ConnSplits(f', j, c);
    if j == i {
      RecordsMove(HubView(f.hubs[j], c), HubView(h', c), Get(f.own, (j, c)), Get(f.others, (j, c)),
                  (j, c) in f.replaced, HookFor(f.hook, (j, c)));
    } else {
      NothingMoves(ConnOf(f, j, c));
    }
  }

  lemma NothingMoves(v: Conn)
    ensures QueueMoves(v, v)
  {}

  lemma DrainConns(f: Fine, i: nat, x: ClientId, ok: bool, f': Fine, j: nat, c: ClientId)
    requires i < |f.hubs| && CanWrite(f.hubs[i], x) && j < |f.hubs| && c < |f.hubs[j].chans|
    requires f' == f.(hubs := f.hubs[i := Write(f.hubs[i], x, ok)], clock := f.clock + 1)
    ensures |f'.hubs[j].chans| == |f.hubs[j].chans| && QueueMoves(ConnOf(f, j, c), ConnOf(f', j, c))
  {
    hide Write, CanWrite, ConnOf, HubView, QueueMoves;
    WriteLength(f.hubs[i], x, ok);
    if j == i { WriteView(f.hubs[i], x, ok, c); }
    DrainConn(f, i, Write(f.hubs[i], x, ok), f', j, c);
  }

  lemma DrainKeepsReplay(f: Fine, i: nat, x: ClientId, ok: bool)
    requires ReplayInv(f) && i < |f.hubs| && i !in f.dead && CanWrite(f.hubs[i], x)
    ensures ReplayInv(FineStep(f, Drain(i, x, ok)))
  {
    hide InterleavedHub.HubInv, ConnsOk, ThreadsOk, KeysRegistered, ThreadOk, CanWrite, Write;
    InterleavedHub.DrainKeepsHubs(f, i, x, ok);
    var f' := FineStep(f, Drain(i, x, ok));
    assert f' == f.(hubs := f.hubs[i := Write(f.hubs[i], x, ok)], clock := f.clock + 1);
    hide FineStep;
    DrainKeepsConns(f, i, x, ok, f');
    forall t | 0 <= t < |f'.threads| ensures ThreadOk(f', t, f'.threads[t]) {
      DrainThread(f, i, x, ok, f', t);
    }
    AllThreadsOk(f');
  }

  lemma AllThreadsOk(f: Fine)
    requires forall t | 0 <= t < |f.threads| :: ThreadOk(f, t, f.threads[t])
    ensures ThreadsOk(f)
  {}

  lemma DrainCounted(f: Fine, i: nat, x: ClientId, ok: bool, f': Fine, j: nat, c: ClientId)
    requires i < |f.hubs| && CanWrite(f.hubs[i], x) && j < |f.hubs| && c < |f.hubs[j].chans| && Counted(f, j, c)
    requires f' == f.(hubs := f.hubs[i := Write(f.hubs[i], x, ok)], clock := f.clock + 1)
    ensures c < |f'.hubs[j].chans| && Counted(f', j, c)
  {
    hide Write, CanWrite, ConnOf;
    DrainConns(f, i, x, ok, f', j, c);
  }

  lemma DrainKeepsConns(f: Fine, i: nat, x: ClientId, ok: bool, f': Fine)
    requires ConnsOk(f) && KeysRegistered(f) && i < |f.hubs| && CanWrite(f.hubs[i], x)
    requires f' == f.(hubs := f.hubs[i := Write(f.hubs[i], x, ok)], clock := f.clock + 1)
    ensures ConnsOk(f') && KeysRegistered(f')
  {
    hide Write, CanWrite, Counted;
    WriteLength(f.hubs[i], x, ok);
    DrainKeys(f, i, Write(f.hubs[i], x, ok), f');
    hide KeysRegistered;
    forall j, c | 0 <= j < |f'.hubs| && 0 <= c < |f'.hubs[j].chans| ensures Counted(f', j, c) {
      assert c < |f.hubs[j].chans|;
      assert Counted(f, j, c);
      DrainCounted(f, i, x, ok, f', j, c);
    }
    AllConnsOk(f');
  }

  lemma DrainKeys(f: Fine, i: nat, h': HubState, f': Fine)
    requires KeysRegistered(f) && i < |f.hubs| && |h'.chans| == |f.hubs[i].chans|
    requires f' == f.(hubs := f.hubs[i := h'], clock := f.clock + 1)
    ensures KeysRegistered(f')
  {
    hide Registered;
    forall k | Registered(f.hubs, k) ensures Registered(f'.hubs, k) { StaysRegistered(f.hubs, i, h', k); }
  }

  lemma DrainKeepsConn(f: Fine, i: nat, x: ClientId, ok: bool, f': Fine, j: nat, c: ClientId, t: nat)
    requires i < |f.hubs| && CanWrite(f.hubs[i], x) && j < |f.hubs| && c < |f.hubs[j].chans|
    requires f' == f.(hubs := f.hubs[i := Write(f.hubs[i], x, ok)], clock := f.clock + 1)
    ensures ConnKeepsFor(f, f', j, c, t)
  {
    hide Write, CanWrite, ConnOf, KeepsFor;
    DrainConns(f, i, x, ok, f', j, c);
    DrainGrows(ConnOf(f, j, c), ConnOf(f', j, c), t);
  }

  lemma DrainKeepsFor(f: Fine, i: nat, x: ClientId, ok: bool, f': Fine, j: nat, t: nat)
    requires i < |f.hubs| && CanWrite(f.hubs[i], x) && j < |f.hubs|
    requires f' == f.(hubs := f.hubs[i := Write(f.hubs[i], x, ok)], clock := f.clock + 1)
    ensures HubKeepsFor(f, f', j, t)
  {
    hide Write, CanWrite, ConnKeepsFor;
    forall c | 0 <= c < |f.hubs[j].chans| ensures ConnKeepsFor(f, f', j, c, t) {
      DrainKeepsConn(f, i, x, ok, f', j, c, t);
    }
  }

  lemma DrainThread(f: Fine, i: nat, x: ClientId, ok: bool, f': Fine, t: nat)
    requires ThreadsOk(f) && i < |f.hubs| && CanWrite(f.hubs[i], x) && t < |f.threads|
    requires f' == f.(hubs := f.hubs[i := Write(f.hubs[i], x, ok)], clock := f.clock + 1)
    ensures ThreadOk(f', t, f'.threads[t])
  {
    hide Write, CanWrite, ThreadOk, HubKeepsFor, RemovalsOk;
    assert ThreadOk(f, t, f.threads[t]);
    InstOf(f, t, f.threads[t]);
    DrainKeepsFor(f, i, x, ok, f', f.threads[t].inst, t);
    ThreadStays(f, f', t, f.threads[t]);
  }

  lemma DrainGrows(v: Conn, v': Conn, t: nat)
    requires QueueMoves(v, v')
    ensures KeepsFor(v, v', t)
  {}

  lemma StepKeepsReplay(f: Fine, e: FineEvent)
    requires ReplayInv(f)
    ensures ReplayInv(FineStep(f, e))
  {
    hide ReplayInv, Exec, Ready, Startable, CanWrite;
    match e
    case Spawn(th) => if Startable(f, th) { SpawnKeepsReplay(f, th); }
    case Take(t, ch) => if Ready(f, t, ch) { TakeKeepsReplay(f, t, ch); }
    case Drain(i, c, ok) => if i < |f.hubs| && i !in f.dead && CanWrite(f.hubs[i], c) { DrainKeepsReplay(f, i, c, ok); }
  }

  lemma {:induction false} RunKeepsReplay(f: Fine, es: seq<FineEvent>)
    requires ReplayInv(f)
    ensures ReplayInv(FineRun(f, es))
    decreases |es|
  {
    hide ReplayInv, FineStep;
    if es != [] {
      StepKeepsReplay(f, es[0]);
      RunKeepsReplay(FineStep(f, es[0]), es[1..]);
    }
  }

  lemma FineInitReplays(n: nat)
    ensures ReplayInv(FineInit(n))
  {
    InterleavedHub.FineInitOk(n);
    hide InterleavedHub.HubInv;
  }

  // ---- the guarantees

  /** The connection thread t runs the hook of, at the end of a run. */
  predicate RunsHook(f: Fine, t: nat, c: ClientId) {
    && t < |f.threads| && f.threads[t].inst < |f.hubs| && c < |f.hubs[f.threads[t].inst].chans|
    && HookOf(f.threads[t].todo) == Some(c)
  }

  lemma HookInRun(n: nat, es: seq<FineEvent>, t: nat, c: ClientId)
    requires RunsHook(FineRun(FineInit(n), es), t, c)
    ensures var f := FineRun(FineInit(n), es);
            var v := ConnOf(f, f.threads[t].inst, c);
            f.threads[t].todo != [] && HookOk(v, t, f.threads[t].todo, c) && ConnOk(v)
            && SeenIn(f.hubs[f.threads[t].inst], c, v) && v.waiting
  {
    hide FineRun, FineInit, InterleavedHub.HubInv, HookOk, ConnOk, ConnOf, KeysRegistered, RemovalsOk;
    FineInitReplays(n);
    RunKeepsReplay(FineInit(n), es);
    var f := FineRun(FineInit(n), es);
    assert ThreadOk(f, t, f.threads[t]);
    assert Counted(f, f.threads[t].inst, c);
    ConnIsSeen(f, f.threads[t].inst, c);
    HookIsNamed(ConnOf(f, f.threads[t].inst, c), t, f.threads[t].todo, c);
  }

  /**
   The replay fits the queue. While at most 156 other sends were tried on a connection and it was not
   replaced, every lookup its hook makes finds it, every enqueue its hook makes is accepted, and a row
   the hook is about to mark delivered was accepted by its queue.
   */
  lemma ReplayFitsTheQueue(n: nat, es: seq<FineEvent>, t: nat, c: ClientId)
    requires RunsHook(FineRun(FineInit(n), es), t, c)
    requires var f := FineRun(FineInit(n), es); var k := (f.threads[t].inst, c);
             Get(f.others, k) <= CAPACITY - PENDING_LIMIT && k !in f.replaced
    ensures var f := FineRun(FineInit(n), es);
            var h, op := f.hubs[f.threads[t].inst], f.threads[t].todo[0];
            match op
            case Lookup(u, _, _) => u in h.clients && h.clients[u] == c
            case Enqueue(x, _, _, _) => x == c && Offer(h, c) == HubSpec.Accepted
            case Mark(m, _, _) => Accepted(h.log, c, m)
            case Evict(_) => false
            case _ => true
  {
    var f := FineRun(FineInit(n), es);
    HookInRun(n, es, t, c);
    hide FineRun, FineInit, Current;
    var todo := f.threads[t].todo;
    HookShape(ConnOf(f, f.threads[t].inst, c), t, todo, c);
    hide Accepted;
  }

  /**
   Exactly when an enqueue of the hook on its own connection is accepted: fewer than 256 were tried on it,
   its own and those of others. So the hundredth pending row is lost on it when 157 others came first; the
   hook then evicts the connection and still marks the row delivered.
   */
  lemma ReplayAcceptedIff(n: nat, es: seq<FineEvent>, t: nat, c: ClientId, ch: Choice)
    requires RunsHook(FineRun(FineInit(n), es), t, c)
    requires var op := FineRun(FineInit(n), es).threads[t].todo[0]; op.Enqueue? && op.client == c
    ensures var f := FineRun(FineInit(n), es);
            var i, todo := f.threads[t].inst, f.threads[t].todo;
            var tried := Get(f.own, (i, c)) + Get(f.others, (i, c));
            && (Offer(f.hubs[i], c) == HubSpec.Accepted <==> tried < CAPACITY)
            && (Offer(f.hubs[i], c) == Full ==>
                  NextTodo(f.hubs[i], f.db, f.clock, todo[0], todo[1..], ch) == [Evict(c)] + todo[1..]
                  && todo[1].Mark? && todo[1].status == Delivered)
  {
    var f := FineRun(FineInit(n), es);
    HookInRun(n, es, t, c);
    hide FineRun, FineInit, Current, Accepted, Disturbed;
    var todo := f.threads[t].todo;
    HookShape(ConnOf(f, f.threads[t].inst, c), t, todo, c);
    assert [Evict(c)] + [] + todo[1..] == [Evict(c)] + todo[1..];
  }
}
