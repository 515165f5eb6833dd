/** One server instance in place: the handlers, the router and the tables, each proved against the protocol. */
module Server {
  import opened ChatTypes
  import opened HubSpec
  import opened DbSpec
  import BusSpec
  import Protocol
  import ProtocolSteps
  import Hub
  import Limiter
  import Presence
  import Groups
  import GroupsSpec
  import opened Requests

  /** Redis publish/subscribe, shared by all instances. */
  class PubSub {
    var bus: BusSpec.BusState

    constructor ()
      ensures bus == BusSpec.EMPTY_BUS
    {
      bus := BusSpec.EMPTY_BUS;
    }

    method Subscribe(inst: nat, user: UserId) returns (sub: nat)
      modifies this
      ensures bus == BusSpec.Subscribe(old(bus), inst, user) && sub == |old(bus).subs|
    {
      sub := |bus.subs|;
      bus := BusSpec.Subscribe(bus, inst, user);
    }

    method Close(sub: nat)
      modifies this
      ensures bus == BusSpec.Close(old(bus), sub)
    {
      bus := BusSpec.Close(bus, sub);
    }

    /** `ok` is whether Redis takes the publication. */
    method Publish(user: UserId, p: Packet, ok: bool)
      modifies this
      ensures bus == if ok then BusSpec.Publish(old(bus), user, p) else old(bus)
    {
      if ok {
        bus := BusSpec.Publish(bus, user, p);
      }
    }
  }

  /** The map from user to subscription of one instance. */
  class Router {
    const rdb: PubSub
    const inst: nat
    var subs: map<UserId, nat>

    constructor (rdb: PubSub, inst: nat)
      ensures this.rdb == rdb && this.inst == inst && subs == map[]
    {
      this.rdb, this.inst, subs := rdb, inst, map[];
    }

    /** Overwrites the user's entry. An earlier subscription is not closed. */
    method Subscribe(user: UserId)
      modifies this, rdb
      ensures rdb.bus == BusSpec.Subscribe(old(rdb.bus), inst, user)
      ensures subs == old(subs)[user := |old(rdb.bus).subs|]
    {
      var sub := rdb.Subscribe(inst, user);
      subs := subs[user := sub];
    }

    method Unsubscribe(user: UserId)
      modifies this, rdb
      ensures user in old(subs) ==>
                subs == old(subs) - {user} && rdb.bus == BusSpec.Close(old(rdb.bus), old(subs)[user])
      ensures user !in old(subs) ==> subs == old(subs) && rdb.bus == old(rdb.bus)
    {
      if user in subs {
        var sub := subs[user];
        subs := subs - {user};
        rdb.Close(sub);
      }
    }

    method Publish(user: UserId, p: Packet, ok: bool)
      modifies rdb
      ensures rdb.bus == if ok then BusSpec.Publish(old(rdb.bus), user, p) else old(rdb.bus)
    {
      rdb.Publish(user, p, ok);
    }
  }

  datatype PendingMessage = PendingMessage(mid: MsgId, row: Row)

  /** The rows of a result, in its order. */
  predicate Fetched(msgs: seq<PendingMessage>, db: Db, batch: seq<MsgId>) {
    && ValidIds(db, batch) && |msgs| == |batch|
    && forall k | 0 <= k < |batch| :: msgs[k] == PendingMessage(batch[k], db.rows[batch[k]])
  }

  /** The connection pool. What the SQL engine chooses is passed in. */
  class Pool {
    var db: Db

    constructor ()
      ensures db == EMPTY_DB
    {
      db := EMPTY_DB;
    }

    /** The chat of two users, made when the query finds none. `ok` is false when the insert breaks the key. */
    method FindOrCreateChat(a: UserId, b: UserId, pick: ChatId) returns (chat: ChatId, ok: bool)
      requires ValidPick(db, a, b, pick)
      modifies this
      ensures match DbSpec.FindOrCreateChat(old(db), a, b, pick)
              case Found(db', c) => ok && chat == c && db == db'
              case DuplicateMember => !ok && db == old(db)
    {
      if Matches(db, a, b) != {} {
        return pick, true;
      }
      chat := db.chatCount;
      if a == b {
        return chat, false;  // both member rows have the same key, so the transaction rolls back
      }
      db := Db(chat + 1, db.members + {(chat, a), (chat, b)}, db.rows);
      return chat, true;
    }

    method InsertMessage(chat: ChatId, sender: UserId, body: string, now: int) returns (m: MsgId)
      modifies this
      ensures db == DbSpec.InsertMessage(old(db), chat, sender, body, now) && m == |old(db).rows|
    {
      m := |db.rows|;
      db := db.(rows := db.rows + [Row(chat, sender, body, Sent, now)]);
    }

    /** Reads the rows of the result one by one. */
    method GetPendingMessages(user: UserId, batch: seq<MsgId>) returns (msgs: seq<PendingMessage>)
      requires ValidIds(db, batch)
      ensures Fetched(msgs, db, batch)
    {
      msgs := [];
      for i := 0 to |batch|
        invariant |msgs| == i
        invariant forall k | 0 <= k < i :: msgs[k] == PendingMessage(batch[k], db.rows[batch[k]])
      {
        msgs := msgs + [PendingMessage(batch[i], db.rows[batch[i]])];
      }
    }

    method UpdateMessageStatus(m: MsgId, status: Status)
      modifies this
      ensures db == UpdateStatus(old(db), m, status)
    {
      if 0 <= m < |db.rows| {
        db := db.(rows := db.rows[m := db.rows[m].(status := status)]);
      }
    }
  }

  /** What a handler returns: an error ends it early. */
  datatype Handled = Done | Error

  /** A row fetched by the hook still gives the packet the row would give now. */
  predicate SamePacket(pm: PendingMessage, db: Db, m: MsgId) {
    0 <= m < |db.rows| && pm.mid == m && Message(m, pm.row.sender, pm.row.body, pm.row.createdAt) == PacketOf(db, m)
  }

  predicate SamePackets(pending: seq<PendingMessage>, db: Db, batch: seq<MsgId>) {
    |pending| == |batch| && forall k | 0 <= k < |batch| :: SamePacket(pending[k], db, batch[k])
  }

  lemma StillSamePackets(pending: seq<PendingMessage>, db: Db, batch: seq<MsgId>, m: MsgId)
    requires SamePackets(pending, db, batch)
    ensures SamePackets(pending, UpdateStatus(db, m, Delivered), batch)
  {
    forall k | 0 <= k < |batch| ensures SamePacket(pending[k], UpdateStatus(db, m, Delivered), batch[k]) {
      assert SamePacket(pending[k], db, batch[k]);
    }
  }

  /** The effect of the hook's loop over the pending rows. */
  predicate Replayed(h: HubState, db: Db, user: UserId, batch: seq<MsgId>, h': HubState, db': Db) {
    ValidIds(db, batch) && h' == Protocol.Replay(h, db, user, batch).0 && db' == Protocol.Replay(h, db, user, batch).1
  }

  /** After the first i rows, the rest of the replay leads to where the whole leads. */
  predicate ReplayLeft(h: HubState, db: Db, user: UserId, batch: seq<MsgId>, i: nat, h0: HubState, db0: Db) {
    && i <= |batch| && ValidIds(db, batch[i..]) && ValidIds(db0, batch)
    && Protocol.Replay(h, db, user, batch[i..]).0 == Protocol.Replay(h0, db0, user, batch).0
    && Protocol.Replay(h, db, user, batch[i..]).1 == Protocol.Replay(h0, db0, user, batch).1
  }

  lemma PushStarts(h: HubState, db: Db, user: UserId, batch: seq<MsgId>, pending: seq<PendingMessage>)
    requires Fetched(pending, db, batch)
    ensures |pending| == |batch| && SamePackets(pending, db, batch) && ReplayLeft(h, db, user, batch, 0, h, db)
  {
    assert batch[0..] == batch;
    hide Protocol.Replay;
    forall k | 0 <= k < |batch| ensures SamePacket(pending[k], db, batch[k]) {}
  }

  function PacketFor(m: PendingMessage): Packet {
    Message(m.mid, m.row.sender, m.row.body, m.row.createdAt)
  }

  lemma PushStep(h: HubState, db: Db, user: UserId, batch: seq<MsgId>, i: nat, h0: HubState, db0: Db,
                 pending: seq<PendingMessage>)
    requires ReplayLeft(h, db, user, batch, i, h0, db0) && SamePackets(pending, db, batch) && i < |batch|
    ensures var db' := UpdateStatus(db, pending[i].mid, Delivered);
            && SamePackets(pending, db', batch)
            && ReplayLeft(Send(h, user, PacketFor(pending[i])).hub, db', user, batch, i + 1, h0, db0)
  {
    StillSamePackets(pending, db, batch, batch[i]);
    assert SamePacket(pending[i], db, batch[i]);
    assert batch[i..][0] == batch[i] && batch[i..][1..] == batch[i + 1..];
    hide SamePackets, Send;
  }

  lemma PushEnds(h: HubState, db: Db, user: UserId, batch: seq<MsgId>, h0: HubState, db0: Db)
    requires ReplayLeft(h, db, user, batch, |batch|, h0, db0)
    ensures Replayed(h0, db0, user, batch, h, db)
  {
    assert batch[|batch|..] == [];
    NothingLeft(h, db, user);
    hide Protocol.Replay;
  }

  lemma NothingLeft(h: HubState, db: Db, user: UserId)
    ensures Protocol.Replay(h, db, user, []).0 == h && Protocol.Replay(h, db, user, []).1 == db
  {}

  predicate Waiting(h: HubState, c: ClientId) {
    c < |h.chans| && h.chans[c].writer == NotStarted
  }

  lemma StillWaiting(h: HubState, h': HubState, c: ClientId)
    requires SameConnections(h, h') && Waiting(h, c)
    ensures Waiting(h', c)
  {
    assert SameEnds(h.chans[c], h'.chans[c]);
  }

  /** A connection whose registration and hook are done still waits for its pumps. */
  lemma JoinWaits(h: HubState, db: Db, user: UserId, batch: seq<MsgId>, h': HubState, db': Db)
    requires HubOk(h) && Replayed(HubSpec.Register(h, user), db, user, batch, h', db')
    ensures Waiting(h', |h.chans|)
  {
    RegisterKeepsHub(h, user);
    ReplayKeepsPumps(HubSpec.Register(h, user), db, user, batch);
    assert Waiting(HubSpec.Register(h, user), |h.chans|);
    hide HubOk, Protocol.Replay, HubSpec.Register, SameConnections;
    StillWaiting(HubSpec.Register(h, user), h', |h.chans|);
  }

  /** The world once the pumps of a connection have started. */
  function Pumping(w: Protocol.World, c: ClientId): Protocol.World
    requires c < |w.node.hub.chans|
  {
    w.(node := w.node.(hub := HubSpec.StartPumps(w.node.hub, c)))
  }

  /** The steps of a new connection make up the protocol's connect. */
  lemma ConnectIs(w: Protocol.World, inst: nat, user: UserId, batch: seq<MsgId>, joined: Protocol.World)
    requires Replayed(HubSpec.Register(w.node.hub, user), w.db, user, batch, joined.node.hub, joined.db)
    requires joined.bus == BusSpec.Subscribe(w.bus, inst, user) && joined.hist == w.hist
    requires joined.node.subs == w.node.subs[user := |w.bus.subs|]
    requires |w.node.hub.chans| < |joined.node.hub.chans|
    ensures Pumping(joined, |w.node.hub.chans|) == Protocol.Connect(w, inst, user, batch)
  {
    hide HubSpec.Register, HubSpec.StartPumps, Protocol.Replay;
  }

  lemma HubKeepsMap(h: HubState)
    requires HubOk(h)
    ensures MapOk(h)
  {}

  lemma HubSize(hub: Hub.Hub)
    requires hub.Valid()
    ensures |hub.view.chans| == |hub.all|
  {}

  lemma {:induction false} ReplayKeepsPumps(h: HubState, db: Db, user: UserId, batch: seq<MsgId>)
    requires HubOk(h) && ValidIds(db, batch)
    ensures SameConnections(h, Protocol.Replay(h, db, user, batch).0)
    decreases |batch|
  {
    hide HubOk, Send;
    if batch != [] {
      var h1 := Send(h, user, PacketOf(db, batch[0])).hub;
      SendEffect(h, user, PacketOf(db, batch[0]));
      ReplayKeepsPumps(h1, UpdateStatus(db, batch[0], Delivered), user, batch[1..]);
      hide SameConnections;
      ProtocolSteps.SameConnectionsTwice(h, h1, Protocol.Replay(h, db, user, batch).0);
    }
  }

  /** A direct message errs when its chat cannot be made, or when its copy can be neither queued nor published. */
  predicate DmFails(w: Protocol.World, from: UserId, to: UserId, body: string, now: int, pick: ChatId, pubOk: bool) {
    match DbSpec.FindOrCreateChat(w.db, from, to, pick)
    case DuplicateMember => true
    case Found(db, _) => !Protocol.Accepts(w.(db := db), to, Message(|db.rows|, from, body, now)) && !pubOk
  }

  /** The world once a message is stored and before its copy is offered. */
  function Stored(w: Protocol.World, chat: ChatId, from: UserId, to: UserId, body: string, now: int,
                  pubOk: bool): Protocol.World {
    var p := Message(|w.db.rows|, from, body, now);
    w.(db := DbSpec.InsertMessage(w.db, chat, from, body, now),
       hist := w.hist.(dms := w.hist.dms + [Protocol.DmRecord(to, Protocol.RouteOf(w, to, p, pubOk))]))
  }

  lemma StoredThenOffered(w: Protocol.World, chat: ChatId, from: UserId, to: UserId, body: string, now: int,
                          pubOk: bool)
    ensures var w1 := Stored(w, chat, from, to, body, now, pubOk);
            var p := Message(|w.db.rows|, from, body, now);
            var route := Protocol.RouteOf(w, to, p, pubOk);
            && Protocol.FirstCopy(w, chat, from, to, body, now, pubOk) == Protocol.SendOrPublish(w1, to, p, pubOk)
            && Protocol.Accepts(w1, to, p) == Protocol.Accepts(w, to, p)
            && (Protocol.Accepts(w, to, p) <==> route == Protocol.Local)
            && (!Protocol.Accepts(w, to, p) && !pubOk <==> route == Protocol.Unpublished)
  {}

  class Instance {
    const inst: nat
    const hub: Hub.Hub
    const router: Router
    const pool: Pool
    const limiter: Limiter.Gate
    const presence: Presence.Store
    const groups: Groups.Handlers
    ghost var hist: Protocol.History

    constructor (inst: nat, hub: Hub.Hub, router: Router, pool: Pool, limiter: Limiter.Gate,
                 presence: Presence.Store, groups: Groups.Handlers, hist: Protocol.History)
      ensures this.inst == inst && this.hub == hub && this.router == router && this.pool == pool
      ensures this.limiter == limiter && this.presence == presence && this.groups == groups && this.hist == hist
    {
      this.inst, this.hub, this.router, this.pool := inst, hub, router, pool;
      this.limiter, this.presence, this.groups, this.hist := limiter, presence, groups, hist;
    }

    ghost predicate Valid()
      reads this, hub, hub.all, router
    {
      hub.Valid() && HubOk(hub.view) && router.inst == inst && groups.hub == hub
    }

    ghost function View(): Protocol.World
      reads this, hub, router, router.rdb, pool
    {
      Protocol.World(pool.db, router.rdb.bus, Protocol.Node(hub.view, router.subs), hist)
    }

    /** The queue of a user connected here. */
    method Send(user: UserId, p: Packet) returns (ok: bool)
      requires Valid()
      modifies hub`clients, hub`view, hub.all
      ensures Valid() && View() == Protocol.SendTo(old(View()), user, p)
      ensures ok == Protocol.Accepts(old(View()), user, p)
    {
      hide HubSpec.Send, HubOk, SameConnections;
      SendEffect(hub.view, user, p);
      assert MapOk(hub.view) by { HubKeepsMap(hub.view); }
      ok := hub.Send(user, p);
    }

    /** The local queue first, the user's channel when that does not take the packet. */
    method SendOrPublish(user: UserId, p: Packet, pubOk: bool) returns (delivered: bool)
      requires Valid()
      modifies hub`clients, hub`view, hub.all, router.rdb
      ensures Valid() && View() == Protocol.SendOrPublish(old(View()), user, p, pubOk)
      ensures delivered == Protocol.Accepts(old(View()), user, p)
    {
      hide HubOk;
      delivered := Send(user, p);
      if !delivered {
        router.Publish(user, p, pubOk);
      }
    }

    /** The end of a direct message: mark a local delivery, then acknowledge to the sender. */
    method MarkAndAck(m: MsgId, delivered: bool, ghost route: Protocol.Route, from: UserId, clientId: nat)
      requires Valid() && route != Protocol.Unpublished && (delivered <==> route == Protocol.Local)
      modifies hub`clients, hub`view, hub.all, pool
      ensures Valid() && View() == Protocol.Finish(old(View()), m, route, from, clientId)
    {
      if delivered {
        pool.UpdateMessageStatus(m, Delivered);
      }
      var _ := Send(from, SentAck(m, clientId));
    }

    /** A direct message: store it, try the local queue, publish otherwise, then acknowledge. */
    method HandleDM(from: UserId, to: UserId, clientId: nat, body: string, now: int, pick: ChatId, pubOk: bool)
      returns (r: Handled)
      requires Valid() && ValidPick(pool.db, from, to, pick)
      modifies this`hist, hub`clients, hub`view, hub.all, router.rdb, pool
      ensures Valid() && View() == Protocol.HandleDm(old(View()), from, to, clientId, body, now, pick, pubOk)
      ensures r == Error <==> DmFails(old(View()), from, to, body, now, pick, pubOk)
    {
      hide HubOk, HubSpec.Send, Matches, CreateChat, BusSpec.Publish, BusSpec.LiveCount;
      var chat, found := pool.FindOrCreateChat(from, to, pick);
      if !found {
        return Error;
      }
      ghost var w := View();
      var m := pool.InsertMessage(chat, from, body, now);
      var p := Message(m, from, body, now);
      ghost var route := Protocol.RouteOf(w, to, p, pubOk);
      hist := hist.(dms := hist.dms + [Protocol.DmRecord(to, route)]);
      assert DmFails(old(View()), from, to, body, now, pick, pubOk) <==> !Protocol.Accepts(w, to, p) && !pubOk;
      hide DmFails;
      assert View() == Stored(w, chat, from, to, body, now, pubOk);
      StoredThenOffered(w, chat, from, to, body, now, pubOk);
      hide Protocol.FirstCopy, Protocol.RouteOf, Protocol.Accepts, Protocol.SendOrPublish, Valid, Stored,
        DbSpec.InsertMessage, DbSpec.FindOrCreateChat;
      var delivered := SendOrPublish(to, p, pubOk);
      ghost var w' := View();
      if !delivered && !pubOk {
        return Error;
      }
      MarkAndAck(m, delivered, route, from, clientId);
      assert View() == Protocol.Finish(w', m, route, from, clientId);
      return Done;
    }

    /** A read receipt: mark the row, then notify the named sender. */
    method HandleAck(reader: UserId, m: MsgId, notify: Option<UserId>, pubOk: bool)
      requires Valid()
      modifies this`hist, hub`clients, hub`view, hub.all, router.rdb, pool
      ensures Valid() && View() == Protocol.HandleAck(old(View()), reader, m, notify, pubOk)
    {
      pool.UpdateMessageStatus(m, Read);
      hist := hist.(acks := hist.acks + {(m, reader)});
      if notify.Some? {
        var _ := SendOrPublish(notify.value, ReadNotice(m), pubOk);
      }
    }

    /** The connect hook: presence, subscription, then every pending row is offered and marked. */
    method OnConnect(user: UserId, now: int, batch: seq<MsgId>, redisOk: bool)
      requires Valid() && ValidIds(pool.db, batch)
      modifies hub`clients, hub`view, hub.all, router, router.rdb, pool, presence
      ensures Valid() && Replayed(old(hub.view), old(pool.db), user, batch, hub.view, pool.db)
      ensures router.rdb.bus == BusSpec.Subscribe(old(router.rdb.bus), inst, user)
      ensures router.subs == old(router.subs)[user := |old(router.rdb.bus).subs|]
      ensures presence.keys == if redisOk then Presence.After(old(presence.keys), Presence.Refresh(user, now))
                               else old(presence.keys)
    {
      hide HubOk, HubSpec.Send, Replayed, Presence.After, Fetched;
      presence.SetOnline(user, now, redisOk);
      router.Subscribe(user);
      var pending := pool.GetPendingMessages(user, batch);
      PushAll(user, batch, pending);
    }

    method PushAll(user: UserId, batch: seq<MsgId>, pending: seq<PendingMessage>)
      requires Valid() && Fetched(pending, pool.db, batch)
      modifies hub`clients, hub`view, hub.all, pool
      ensures Valid() && Replayed(old(hub.view), old(pool.db), user, batch, hub.view, pool.db)
    {
      hide HubOk, HubSpec.Send, Valid, UpdateStatus, SamePackets, ReplayLeft, Replayed, PacketFor, Protocol.Replay,
        Fetched;
      ghost var h, db := hub.view, pool.db;
      PushStarts(h, db, user, batch, pending);
      for i := 0 to |pending|
        invariant Valid() && SamePackets(pending, pool.db, batch)
        invariant ReplayLeft(hub.view, pool.db, user, batch, i, h, db)
      {
        PushStep(hub.view, pool.db, user, batch, i, h, db, pending);
        PushOne(user, pending[i]);
      }
      PushEnds(hub.view, pool.db, user, batch, h, db);
    }

    method PushOne(user: UserId, m: PendingMessage)
      requires Valid()
      modifies hub`clients, hub`view, hub.all, pool
      ensures Valid() && pool.db == UpdateStatus(old(pool.db), m.mid, Delivered)
      ensures hub.view == HubSpec.Send(old(hub.view), user, PacketFor(m)).hub
    {
      hide HubOk, HubSpec.Send;
      var _ := Send(user, PacketFor(m));
      pool.UpdateMessageStatus(m.mid, Delivered);
    }

    /** A new connection up to the end of its hook. Its pumps have not started. */
    method Join(user: UserId, now: int, batch: seq<MsgId>, redisOk: bool) returns (c: Hub.Client)
      requires Valid() && ValidIds(pool.db, batch)
      modifies hub, hub.all, router, router.rdb, pool, presence
      ensures Valid() && fresh(c) && c.user == user && hub.all == old(hub.all) + [c]
      ensures Waiting(hub.view, |old(hub.view).chans|) && |old(hub.view).chans| == |old(hub.all)|
      ensures Replayed(HubSpec.Register(old(hub.view), user), old(pool.db), user, batch, hub.view, pool.db)
      ensures router.rdb.bus == BusSpec.Subscribe(old(router.rdb.bus), inst, user)
      ensures router.subs == old(router.subs)[user := |old(router.rdb.bus).subs|]
      ensures presence.keys == if redisOk then Presence.After(old(presence.keys), Presence.Refresh(user, now))
                               else old(presence.keys)
    {
      hide HubOk, Replayed, Waiting, HubSpec.Register, BusSpec.Subscribe, Hub.Hub.Valid, Presence.After;
      RegisterKeepsHub(hub.view, user);
      HubSize(hub);
      ghost var h, db, bus, subs := hub.view, pool.db, router.rdb.bus, router.subs;
      c := new Hub.Client(user);
      assert hub.Valid() && c !in hub.all;
      hub.Register(c);
      assert router.rdb.bus == bus && router.subs == subs && pool.db == db;
      OnConnect(user, now, batch, redisOk);
      JoinWaits(h, db, user, batch, hub.view, pool.db);
    }

    method StartPumps(c: Hub.Client, ghost k: nat)
      requires Valid() && k < |hub.all| && hub.all[k] == c && Waiting(hub.view, k)
      modifies hub`view, c
      ensures Valid() && hub.all == old(hub.all) && View() == Pumping(old(View()), k)
    {
      hide HubOk, HubSpec.StartPumps, Hub.Hub.Valid;
      StartPumpsKeepsHub(hub.view, k);
      hub.StartPumps(c, k);
    }

    /** A new connection: register it, run the hook, then start its pumps. */
    method ServeWS(user: UserId, now: int, batch: seq<MsgId>, redisOk: bool) returns (c: Hub.Client)
      requires Valid() && ValidIds(pool.db, batch)
      modifies hub, hub.all, router, router.rdb, pool, presence
      ensures Valid() && fresh(c) && hub.all == old(hub.all) + [c]
      ensures View() == Protocol.Connect(old(View()), inst, user, batch)
      ensures presence.keys == if redisOk then Presence.After(old(presence.keys), Presence.Refresh(user, now))
                               else old(presence.keys)
    {
      hide HubOk, HubSpec.Register, Replayed, HubSpec.StartPumps, BusSpec.Subscribe, Protocol.Connect, Hub.Hub.Valid,
        Presence.After, Pumping, Waiting;
      ghost var w, k := View(), |hub.all|;
      c := Join(user, now, batch, redisOk);
      ghost var joined := View();
      HubSize(hub);
      assert hub.all[k] == c && k == |w.node.hub.chans|;
      StartPumps(c, k);
      ConnectIs(w, inst, user, batch, joined);
    }

    /** The end of a connection's reader, and the disconnect hook. */
    method ReaderEnds(c: Hub.Client, ghost k: nat, redisOk: bool, now: int)
      requires Valid() && k < |hub.all| && hub.all[k] == c && c.user == hub.view.chans[k].user
      modifies hub`clients, hub`view, c`chan, router, router.rdb, presence
      ensures Valid() && k < |old(hub.view).chans| && View() == Protocol.Disconnect(old(View()), k)
      ensures presence.keys == if redisOk then Presence.After(old(presence.keys), Presence.Drop(c.user, now))
                               else old(presence.keys)
    {
      hide HubOk, HubSpec.EndReader, Presence.After, Hub.Hub.Valid, BusSpec.Close;
      HubSize(hub);
      EndReaderKeepsHub(hub.view, k);
      hub.EndReader(c, k);
      presence.SetOffline(c.user, now, redisOk);
      router.Unsubscribe(c.user);
    }

    /** A forwarder loop takes one copy off its subscription. */
    method Forward(user: UserId, p: Packet)
      requires Valid()
      modifies hub`clients, hub`view, hub.all
      ensures Valid() && View() == Protocol.SendTo(old(View()), user, p)
    {
      var _ := Send(user, p);
    }

    /** A request for the groups touches their tables and the hub only. */
    method DispatchGroup(from: UserId, msg: Inbound, a: Answers)
      requires Valid() && ForGroups(msg)
      modifies hub`clients, hub`view, hub.all, groups.pool
      ensures Valid() && groups.View() == HandleGroup(old(groups.View()), from, msg, a)
    {
      hide HubOk, Hub.Hub.Valid, Groups.HandlePost, Groups.HandleCreate, Groups.HandleAdd, Groups.HandleLeave,
        Groups.FanOut;
      match msg {
        case GroupPost(g, body) => groups.HandleGroupMessage(from, g, body);
        case CreateGroup(name) => groups.HandleCreateGroup(from, name);
        case AddMember(g, u) => groups.HandleAddMember(from, g, u);
        case LeaveGroup(g) => groups.HandleLeaveGroup(from, g);
        case Typing(chat, members) =>
          if a.redisOk {
            groups.FanOutTo(members, from, Other(TypingIs(from, chat)));
          }
      }
    }

    method CheckPresence(from: UserId, users: seq<UserId>, a: Answers)
      requires Valid()
      modifies hub`clients, hub`view, hub.all
      ensures Valid() && View() == Reports(old(View()), from, users, presence.keys, a)
    {
      hide HubOk, HubSpec.Send, Hub.Hub.Valid, Reports, Protocol.SendTo, Presence.Online, Valid;
      ghost var start := View();
      assert users[0..] == users;
      for i := 0 to |users|
        invariant Valid()
        invariant Reports(View(), from, users[i..], presence.keys, a) == Reports(start, from, users, presence.keys, a)
      {
        ReportsFrom(View(), from, users, i, presence.keys, a);
        var online := presence.IsOnline(users[i], a.now, a.redisOk);
        var _ := Send(from, Other(PresenceIs(users[i], online)));
      }
      ReportsNothing(View(), from, users, presence.keys, a);
    }

    method DispatchRest(from: UserId, msg: Inbound, a: Answers)
      requires Valid() && !ForGroups(msg) && (msg.Direct? ==> ValidPick(pool.db, from, msg.to, a.pick))
      modifies this`hist, hub`clients, hub`view, hub.all, router.rdb, pool, presence
      ensures Valid() && View() == Handle(old(View()), old(presence.keys), from, msg, a)
      ensures presence.keys == if msg.Ping? && a.redisOk
                               then Presence.After(old(presence.keys), Presence.Refresh(from, a.now))
                               else old(presence.keys)
    {
      hide HubOk, HubSpec.Send, Hub.Hub.Valid, Protocol.HandleDm, Protocol.HandleAck, ValidPick, Presence.After;
      match msg {
        case Direct(to, id, body) =>
          var _ := HandleDM(from, to, id, body, a.now, a.pick, a.pubOk);
        case Ack(m, notify) =>
          HandleAck(from, m, notify, a.pubOk);
        case Ping =>
          presence.SetOnline(from, a.now, a.redisOk);
          var _ := Send(from, Other(Pong));
        case PresenceCheck(users) =>
          CheckPresence(from, users, a);
        case Relay(target, payload) =>
          var _ := SendOrPublish(target, Other(Relayed(from, payload)), a.pubOk);
      }
    }

    /**
     Routes one request. Direct and group messages pass the limiter first, and one it refuses comes to nothing
     but an answer. Any other does what its kind does, to the tables, the wire and every user u. A heartbeat
     alone refreshes presence.
     */
    method Dispatch(from: UserId, msg: Inbound, a: Answers)
      requires Valid() && (msg.Direct? ==> ValidPick(pool.db, from, msg.to, a.pick))
      modifies this`hist, hub`clients, hub`view, hub.all, router.rdb, pool, limiter.rdb, presence, groups.pool
      ensures Valid()
      ensures limiter.rdb.counters == CountersAfter(old(limiter.rdb.counters), limiter.window, from, msg, a)
      ensures presence.keys == if msg.Ping? && a.redisOk
                               then Presence.After(old(presence.keys), Presence.Refresh(from, a.now))
                               else old(presence.keys)
      ensures !Admitted(old(limiter.rdb.counters), limiter.max, from, msg, a) ==>
                groups.pool.t == old(groups.pool.t) && forall u :: Refused(old(View()), View(), from, u)
      ensures Admitted(old(limiter.rdb.counters), limiter.max, from, msg, a) && !ForGroups(msg) ==>
                && groups.pool.t == old(groups.pool.t)
                && forall u :: Meets(old(View()), View(), old(presence.keys), from, msg, a, u)
      ensures Admitted(old(limiter.rdb.counters), limiter.max, from, msg, a) && ForGroups(msg) ==>
                && pool.db == old(pool.db) && router.rdb.bus == old(router.rdb.bus) && hist == old(hist)
                && (GroupsSpec.TablesOk(old(groups.pool.t)) ==>
                      forall u :: GroupMeets(old(groups.View()), groups.View(), from, msg, a, u))
    {
      hide HubOk, HubSpec.Send, Hub.Hub.Valid, Handle, HandleGroup, ValidPick, Limiter.Allowed, Limiter.After, Meets,
        GroupMeets, Refused, Presence.After, GroupsSpec.TablesOk, Protocol.SendTo;
      ghost var w, r, keys := View(), groups.View(), presence.keys;
      if Limited(msg) {
        var ok := limiter.Allow(from, a.now, a.limiter);
        if !ok {
          forall u ensures Refused(w, Protocol.SendTo(w, from, Other(RateLimited)), from, u) {
            RefusalTells(w, from, u);
          }
          var _ := Send(from, Other(RateLimited));
          return;
        }
      }
      if ForGroups(msg) {
        DispatchGroup(from, msg, a);
        if GroupsSpec.TablesOk(r.tables) {
          forall u ensures GroupMeets(r, groups.View(), from, msg, a, u) { GroupRequestDoes(r, from, msg, a, u); }
        }
      } else {
        DispatchRest(from, msg, a);
        forall u ensures Meets(w, View(), keys, from, msg, a, u) { RequestDoes(w, keys, from, msg, a, u); }
      }
    }
  }
}
