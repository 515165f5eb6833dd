/** What each handler keeps, and exactly what it adds to the hub's log and to the wire. */
module ProtocolSteps {
  import opened ChatTypes
  import opened HubSpec
  import opened DbSpec
  import opened BusSpec
  import opened Protocol

  /** The row id a packet names, or -1. */
  function MidOf(p: Packet): MsgId {
    match p
    case Message(m, _, _, _) => m
    case SentAck(m, _) => m
    case ReadNotice(m) => m
    case Other(_) => -1
  }

  /** No packet anywhere names a row that does not exist yet. */
  predicate FreshLog(log: seq<Accept>, n: nat) {
    forall k | 0 <= k < |log| :: MidOf(log[k].packet) < n
  }

  predicate FreshWire(wire: seq<Flight>, n: nat) {
    forall k | 0 <= k < |wire| :: MidOf(wire[k].packet) < n
  }

  ghost predicate TablesOk(db: Db, hist: History) {
    && DbOk(db)
    && OneChatPerPair(db)
    && |hist.dms| == |db.rows|
    && forall m | 0 <= m < |db.rows| && hist.dms[m].to != db.rows[m].sender ::
          (db.rows[m].chat, hist.dms[m].to) in db.members
  }

  predicate SubsOk(bus: BusState, subs: map<UserId, nat>, inst: nat) {
    forall u | u in subs :: subs[u] < |bus.subs| && bus.subs[subs[u]] == Subscription(inst, u, true)
  }

  ghost predicate WorldOk(w: World, inst: nat) {
    && HubOk(w.node.hub)
    && TablesOk(w.db, w.hist)
    && SubsOk(w.bus, w.node.subs, inst)
    && FreshLog(w.node.hub.log, |w.db.rows|)
    && FreshWire(w.bus.wire, |w.db.rows|)
  }

  ghost predicate SysOk(s: Sys) {
    && TablesOk(s.db, s.hist)
    && FreshWire(s.bus.wire, |s.db.rows|)
    && (forall k | 0 <= k < |s.bus.subs| :: s.bus.subs[k].inst < |s.nodes|)
    && forall i | 0 <= i < |s.nodes| :: WorldOk(At(s, i), i)
  }

  /** What a handler on `inst` may do to the parts other instances share with it. */
  predicate Evolves(w: World, w': World, inst: nat) {
    && |w.db.rows| <= |w'.db.rows|
    && |w.bus.subs| <= |w'.bus.subs|
    && w.node.hub.log <= w'.node.hub.log
    && w.hist.acks <= w'.hist.acks
    && (forall k | 0 <= k < |w.bus.subs| :: w'.bus.subs[k].inst == w.bus.subs[k].inst
                                           && (w.bus.subs[k] != w'.bus.subs[k] ==> w.bus.subs[k].inst == inst))
    && (forall k | |w.bus.subs| <= k < |w'.bus.subs| :: w'.bus.subs[k].inst == inst)
  }

  lemma HubOf(s: Sys, i: nat)
    requires SysOk(s) && i < |s.nodes|
    ensures HubOk(s.nodes[i].hub)
  {
    assert WorldOk(At(s, i), i);
  }

  lemma WorldOf(s: Sys, i: nat)
    requires SysOk(s) && i < |s.nodes|
    ensures WorldOk(At(s, i), i)
  {
    hide WorldOk, TablesOk;
  }

  /** A step of one instance leaves another's subscriptions as they were. */
  lemma OtherKeepsSubs(w: World, w': World, inst: nat, subs: map<UserId, nat>, other: nat)
    requires Evolves(w, w', inst) && SubsOk(w.bus, subs, other) && other != inst
    ensures SubsOk(w'.bus, subs, other)
  {
    forall u | u in subs ensures w'.bus.subs[subs[u]] == Subscription(other, u, true) {
      assert w.bus.subs[subs[u]].inst == other;
    }
  }

  lemma OtherKeepsLog(w: World, w': World, inst: nat, log: seq<Accept>)
    requires Evolves(w, w', inst) && FreshLog(log, |w.db.rows|)
    ensures FreshLog(log, |w'.db.rows|)
  {}

  lemma PutKeepsSubInsts(s: Sys, i: nat, w: World)
    requires i < |s.nodes| && Evolves(At(s, i), w, i)
    requires forall k | 0 <= k < |s.bus.subs| :: s.bus.subs[k].inst < |s.nodes|
    ensures forall k | 0 <= k < |w.bus.subs| :: w.bus.subs[k].inst < |s.nodes|
  {
    forall k | 0 <= k < |w.bus.subs| ensures w.bus.subs[k].inst < |s.nodes| {
      if k < |s.bus.subs| {
        assert s.bus.subs[k].inst < |s.nodes|;
      }
    }
  }

  lemma PutKeepsSys(s: Sys, i: nat, w: World)
    requires SysOk(s) && i < |s.nodes| && WorldOk(w, i) && Evolves(At(s, i), w, i)
    ensures SysOk(Put(s, i, w))
  {
    hide HubOk, TablesOk, Evolves, SubsOk, FreshLog, FreshWire;
    var s' := Put(s, i, w);
    PutKeepsSubInsts(s, i, w);
    forall j | 0 <= j < |s'.nodes| ensures WorldOk(At(s', j), j) {
      if j == i {
        assert At(s', j) == w;
      } else {
        assert WorldOk(At(s, j), j);
        OtherKeepsSubs(At(s, i), w, i, s.nodes[j].subs, j);
        OtherKeepsLog(At(s, i), w, i, s.nodes[j].hub.log);
      }
    }
  }

  lemma SendToKeeps(w: World, inst: nat, user: UserId, p: Packet)
    requires WorldOk(w, inst) && MidOf(p) < |w.db.rows|
    ensures WorldOk(SendTo(w, user, p), inst) && Evolves(w, SendTo(w, user, p), inst)
  {
    SendEffect(w.node.hub, user, p);
  }

  lemma PublishKeeps(w: World, inst: nat, user: UserId, p: Packet)
    requires WorldOk(w, inst) && MidOf(p) < |w.db.rows|
    ensures var w' := w.(bus := Publish(w.bus, user, p)); WorldOk(w', inst) && Evolves(w, w', inst)
  {}

  lemma SendOrPublishKeeps(w: World, inst: nat, user: UserId, p: Packet, pubOk: bool)
    requires WorldOk(w, inst) && MidOf(p) < |w.db.rows|
    ensures WorldOk(SendOrPublish(w, user, p, pubOk), inst)
    ensures Evolves(w, SendOrPublish(w, user, p, pubOk), inst)
  {
    SendToKeeps(w, inst, user, p);
    PublishKeeps(SendTo(w, user, p), inst, user, p);
  }

  lemma EvolvesTwice(w0: World, w1: World, w2: World, inst: nat)
    requires Evolves(w0, w1, inst) && Evolves(w1, w2, inst)
    ensures Evolves(w0, w2, inst)
  {}

  lemma EvolvesNot(w: World, inst: nat)
    ensures Evolves(w, w, inst)
  {}

  lemma AddsNothing(log: seq<Accept>, from: UserId, m: MsgId, clientId: nat)
    ensures LogAddsAck(log, log, from, m, clientId)
  {}

  /** The log entry of a local copy, if there is one. */
  function LocalCopy(w: World, to: UserId, p: Packet, route: Route): seq<Accept> {
    if route == Local && to in w.node.hub.clients then [Accept(w.node.hub.clients[to], to, p)] else []
  }

  function WireCopies(w: World, to: UserId, p: Packet, route: Route): seq<Flight> {
    if route.Published? then Copies(w.bus.subs, to, p) else []
  }

  /** A direct message: one row, at most one local copy, the published copies, at most one ack. */
  ghost predicate DmAdds(w: World, w': World, chat: ChatId, from: UserId, to: UserId, clientId: nat,
                         body: string, now: int, pubOk: bool)
  {
    var m := |w.db.rows|;
    var p := Message(m, from, body, now);
    var route := RouteOf(w, to, p, pubOk);
    && w'.db.rows == w.db.rows + [Row(chat, from, body, if route == Local then Delivered else Sent, now)]
    && w'.hist == w.hist.(dms := w.hist.dms + [DmRecord(to, route)])
    && w'.bus.wire == w.bus.wire + WireCopies(w, to, p, route)
    && (route == Local ==> to in w.node.hub.clients)
    && LogAddsAck(w.node.hub.log + LocalCopy(w, to, p, route), w'.node.hub.log, from, m, clientId)
  }

  ghost predicate LogAddsAck(log: seq<Accept>, log': seq<Accept>, from: UserId, m: MsgId, clientId: nat) {
    || log' == log
    || exists c: ClientId :: log' == log + [Accept(c, from, SentAck(m, clientId))]
  }

  lemma InsertKeeps(w: World, inst: nat, chat: ChatId, from: UserId, to: UserId, body: string, now: int, route: Route)
    requires WorldOk(w, inst) && (chat, from) in w.db.members && (chat, to) in w.db.members
    ensures var w' := w.(db := InsertMessage(w.db, chat, from, body, now),
                         hist := w.hist.(dms := w.hist.dms + [DmRecord(to, route)]));
            WorldOk(w', inst) && Evolves(w, w', inst)
  {
    hide HubOk;
    InsertKeepsTables(w.db, chat, from, body, now);
    SameMembers(w.db, InsertMessage(w.db, chat, from, body, now));
  }

  lemma StatusKeeps(w: World, inst: nat, m: MsgId, status: Status)
    requires WorldOk(w, inst)
    ensures var w' := w.(db := UpdateStatus(w.db, m, status)); WorldOk(w', inst) && Evolves(w, w', inst)
  {
    hide HubOk;
    UpdateKeepsTables(w.db, m, status);
    SameMembers(w.db, UpdateStatus(w.db, m, status));
  }

  lemma FirstCopyKeeps(w: World, inst: nat, chat: ChatId, from: UserId, to: UserId,
                       body: string, now: int, pubOk: bool)
    requires WorldOk(w, inst) && (chat, from) in w.db.members && (chat, to) in w.db.members
    ensures var w' := FirstCopy(w, chat, from, to, body, now, pubOk);
            var p := Message(|w.db.rows|, from, body, now);
            var route := RouteOf(w, to, p, pubOk);
            && WorldOk(w', inst) && Evolves(w, w', inst)
            && w'.node.hub.log == w.node.hub.log + LocalCopy(w, to, p, route)
            && (route == Local ==> to in w.node.hub.clients)
  {
    hide HubOk, DbOk, OneChatPerPair, Send, Evolves, TablesOk;
    var p := Message(|w.db.rows|, from, body, now);
    var route := RouteOf(w, to, p, pubOk);
    InsertKeeps(w, inst, chat, from, to, body, now, route);
    var w1 := w.(db := InsertMessage(w.db, chat, from, body, now),
                 hist := w.hist.(dms := w.hist.dms + [DmRecord(to, route)]));
    SendOrPublishKeeps(w1, inst, to, p, pubOk);
    EvolvesTwice(w, w1, FirstCopy(w, chat, from, to, body, now, pubOk), inst);
    SendEffect(w.node.hub, to, p);
    assert w.node.hub.log + [] == w.node.hub.log;
  }

  lemma SendToAddsAck(w: World, inst: nat, from: UserId, m: MsgId, clientId: nat)
    requires WorldOk(w, inst) && 0 <= m < |w.db.rows|
    ensures var w' := SendTo(w, from, SentAck(m, clientId));
            WorldOk(w', inst) && Evolves(w, w', inst) && LogAddsAck(w.node.hub.log, w'.node.hub.log, from, m, clientId)
  {
    hide HubOk, DbOk, Evolves, Send;
    SendToKeeps(w, inst, from, SentAck(m, clientId));
    SendEffect(w.node.hub, from, SentAck(m, clientId));
    assert w.node.hub.log + [] == w.node.hub.log;
  }

  lemma FinishKeeps(w: World, inst: nat, m: MsgId, route: Route, from: UserId, clientId: nat)
    requires WorldOk(w, inst) && 0 <= m < |w.db.rows|
    ensures var w' := Finish(w, m, route, from, clientId);
            && WorldOk(w', inst) && Evolves(w, w', inst)
            && LogAddsAck(w.node.hub.log, w'.node.hub.log, from, m, clientId)
  {
    hide WorldOk, Evolves, SendTo, LogAddsAck;
    match route
    case Unpublished =>
      assert Evolves(w, w, inst) by { EvolvesNot(w, inst); }
      assert LogAddsAck(w.node.hub.log, w.node.hub.log, from, m, clientId) by {
        AddsNothing(w.node.hub.log, from, m, clientId);
      }
    case Published(_) => SendToAddsAck(w, inst, from, m, clientId);
    case Local =>
      StatusKeeps(w, inst, m, Delivered);
      var w1 := w.(db := UpdateStatus(w.db, m, Delivered));
      SendToAddsAck(w1, inst, from, m, clientId);
      EvolvesTwice(w, w1, Finish(w, m, route, from, clientId), inst);
  }

  lemma DeliverDmKeeps(w: World, inst: nat, chat: ChatId, from: UserId, to: UserId, clientId: nat,
                       body: string, now: int, pubOk: bool)
    requires WorldOk(w, inst) && (chat, from) in w.db.members && (chat, to) in w.db.members
    ensures var w' := DeliverDm(w, chat, from, to, clientId, body, now, pubOk);
            && WorldOk(w', inst) && Evolves(w, w', inst)
            && w'.db.members == w.db.members && w'.db.chatCount == w.db.chatCount
            && DmAdds(w, w', chat, from, to, clientId, body, now, pubOk)
  {
    hide WorldOk, Evolves, Send, LogAddsAck, LocalCopy;
    var w1 := FirstCopy(w, chat, from, to, body, now, pubOk);
    var m := |w.db.rows|;
    var p := Message(m, from, body, now);
    FirstCopyKeeps(w, inst, chat, from, to, body, now, pubOk);
    FinishKeeps(w1, inst, m, RouteOf(w, to, p, pubOk), from, clientId);
    EvolvesTwice(w, w1, DeliverDm(w, chat, from, to, clientId, body, now, pubOk), inst);
  }

  /** What the pair lookup may do to the tables. */
  lemma LookupKeeps(w: World, inst: nat, a: UserId, b: UserId, pick: ChatId)
    requires WorldOk(w, inst) && ValidPick(w.db, a, b, pick)
    ensures match FindOrCreateChat(w.db, a, b, pick)
            case DuplicateMember => true
            case Found(db, chat) =>
              && WorldOk(w.(db := db), inst) && Evolves(w, w.(db := db), inst)
              && db.rows == w.db.rows && w.db.members <= db.members
              && (chat, a) in db.members && (chat, b) in db.members
  {
    hide HubOk;
    LookupIsRightIffUsersDiffer(w.db, a, b, pick);
    LookupKeepsOneChatPerPair(w.db, a, b, pick);
  }

  lemma HandleDmKeeps(w: World, inst: nat, from: UserId, to: UserId, clientId: nat, body: string, now: int,
                      pick: ChatId, pubOk: bool)
    requires WorldOk(w, inst) && ValidPick(w.db, from, to, pick)
    ensures var w' := HandleDm(w, from, to, clientId, body, now, pick, pubOk);
            && WorldOk(w', inst) && Evolves(w, w', inst)
            && (match FindOrCreateChat(w.db, from, to, pick)
                case DuplicateMember => w' == w
                case Found(db, chat) =>
                  && DmAdds(w, w', chat, from, to, clientId, body, now, pubOk)
                  && w'.db.members == db.members && db.rows == w.db.rows)
  {
    hide WorldOk, DmAdds, DeliverDm, FindOrCreateChat;
    LookupKeeps(w, inst, from, to, pick);
    match FindOrCreateChat(w.db, from, to, pick)
    case DuplicateMember =>
    case Found(db, chat) =>
      var w1 := w.(db := db);
      DeliverDmKeeps(w1, inst, chat, from, to, clientId, body, now, pubOk);
      DmAddsSame(w, db, DeliverDm(w1, chat, from, to, clientId, body, now, pubOk), chat, from, to, clientId, body,
                 now, pubOk);
  }

  lemma DmAddsSame(w: World, db: Db, w': World, chat: ChatId, from: UserId, to: UserId, clientId: nat,
                   body: string, now: int, pubOk: bool)
    requires db.rows == w.db.rows
    ensures DmAdds(w.(db := db), w', chat, from, to, clientId, body, now, pubOk)
       <==> DmAdds(w, w', chat, from, to, clientId, body, now, pubOk)
  {
    hide Send, LogAddsAck;
  }

  /** An acknowledgement: one status write, at most one local notice or its published copies. */
  ghost predicate AckAdds(w: World, w': World, reader: UserId, m: MsgId) {
    && w'.db == UpdateStatus(w.db, m, Read)
    && w'.hist == w.hist.(acks := w.hist.acks + {(m, reader)})
    && w'.node.subs == w.node.subs
    && w'.bus.subs == w.bus.subs
    && (|| w'.node.hub.log == w.node.hub.log
        || exists c: ClientId, u: UserId :: w'.node.hub.log == w.node.hub.log + [Accept(c, u, ReadNotice(m))])
    && w.bus.wire <= w'.bus.wire
    && (forall k | |w.bus.wire| <= k < |w'.bus.wire| :: w'.bus.wire[k].packet == ReadNotice(m))
  }

  lemma AckRecorded(w: World, inst: nat, reader: UserId, m: MsgId)
    requires WorldOk(w, inst)
    ensures var w1 := w.(db := UpdateStatus(w.db, m, Read), hist := w.hist.(acks := w.hist.acks + {(m, reader)}));
            WorldOk(w1, inst) && Evolves(w, w1, inst) && HubOk(w1.node.hub)
  {
    hide HubOk, DbOk, OneChatPerPair;
    StatusKeeps(w, inst, m, Read);
  }

  lemma HandleAckKeeps(w: World, inst: nat, reader: UserId, m: MsgId, notify: Option<UserId>, pubOk: bool)
    requires WorldOk(w, inst) && m < |w.db.rows|
    ensures var w' := HandleAck(w, reader, m, notify, pubOk);
            WorldOk(w', inst) && Evolves(w, w', inst) && AckAdds(w, w', reader, m)
  {
    hide HubOk, DbOk, OneChatPerPair, Evolves, Send, UpdateStatus;
    var w1 := w.(db := UpdateStatus(w.db, m, Read), hist := w.hist.(acks := w.hist.acks + {(m, reader)}));
    AckRecorded(w, inst, reader, m);
    if notify.Some? {
      hide WorldOk;
      SendOrPublishKeeps(w1, inst, notify.value, ReadNotice(m), pubOk);
      SendEffect(w1.node.hub, notify.value, ReadNotice(m));
      EvolvesTwice(w, w1, HandleAck(w, reader, m, notify, pubOk), inst);
    }
  }

  function Noted(h: HubState, user: UserId, p: Packet): seq<Accept> {
    if HasRoom(h, user) then [Accept(h.clients[user], user, p)] else []
  }

  lemma SendNotes(h: HubState, user: UserId, p: Packet)
    requires HubOk(h)
    ensures Send(h, user, p).hub.log == h.log + Noted(h, user, p) && (Send(h, user, p).ok <==> HasRoom(h, user))
    ensures HubOk(Send(h, user, p).hub)
  {
    hide HubOk, Send;
    SendEffect(h, user, p);
  }

  /** A copy where the receiver has room, and the sender's acknowledgement where he has room after it. */
  function DmLog(h: HubState, copy: Packet, from: UserId, to: UserId, clientId: nat, pubOk: bool): seq<Accept>
    requires copy.Message?
  {
    var h1 := Send(h, to, copy).hub;
    h.log + Noted(h, to, copy) + if HasRoom(h, to) || pubOk then Noted(h1, from, SentAck(copy.mid, clientId)) else []
  }

  /**
   The hub's log after a direct message, exactly: a copy if the receiver had room here, then the sender's
   acknowledgement if the copy was queued or published and the sender has room after it.
   */
  lemma DmAcksIff(w: World, inst: nat, from: UserId, to: UserId, clientId: nat, body: string, now: int,
                  pick: ChatId, pubOk: bool)
    requires WorldOk(w, inst) && FindOrCreateChat(w.db, from, to, pick).Found?
    ensures HandleDm(w, from, to, clientId, body, now, pick, pubOk).node.hub.log
         == DmLog(w.node.hub, Message(|FindOrCreateChat(w.db, from, to, pick).db.rows|, from, body, now), from, to,
                  clientId, pubOk)
  {
    hide Send, FindOrCreateChat, HubOk, TablesOk, Noted, HasRoom;
    var r := FindOrCreateChat(w.db, from, to, pick);
    var h, m := w.node.hub, |r.db.rows|;
    var copy := Message(m, from, body, now);
    SendNotes(h, to, copy);
    SendNotes(Send(h, to, copy).hub, from, SentAck(m, clientId));
  }

  /**
   The notice of a read receipt, exactly: none without a named sender; for a named one with room here a
   single entry of his; otherwise one copy for each live subscription of his, if Redis takes the publication.
   */
  lemma AckNotifiesIff(w: World, inst: nat, reader: UserId, m: MsgId, notify: Option<UserId>, pubOk: bool)
    requires WorldOk(w, inst)
    ensures var w' := HandleAck(w, reader, m, notify, pubOk);
            match notify
            case None => w'.node == w.node && w'.bus == w.bus
            case Some(u) =>
              && w'.node.hub.log == w.node.hub.log + Noted(w.node.hub, u, ReadNotice(m))
              && w'.bus.wire == w.bus.wire +
                   (if HasRoom(w.node.hub, u) || !pubOk then [] else Copies(w.bus.subs, u, ReadNotice(m)))
              && |Copies(w.bus.subs, u, ReadNotice(m))| == LiveCount(w.bus.subs, u)
  {
    hide Send, HubOk, TablesOk, Noted, HasRoom, UpdateStatus, Copies, LiveCount;
    if notify.Some? {
      SendNotes(w.node.hub, notify.value, ReadNotice(m));
      CopiesCount(w.bus.subs, notify.value, ReadNotice(m));
      assert w.bus.wire + [] == w.bus.wire;
    }
  }

  function SelfStatus(w: World, a: UserId, body: string, now: int): Status {
    if Accepts(w, a, Message(|w.db.rows|, a, body, now)) then Delivered else Sent
  }

  lemma SelfStored(w: World, a: UserId, clientId: nat, body: string, now: int, pick: ChatId, pubOk: bool)
    requires ValidPick(w.db, a, a, pick) && Matches(w.db, a, a) != {}
    ensures HandleDm(w, a, a, clientId, body, now, pick, pubOk).db
         == w.db.(rows := w.db.rows + [Row(pick, a, body, SelfStatus(w, a, body, now), now)])
  {
    hide Send, Matches;
    var m := |w.db.rows|;
    var row := Row(pick, a, body, Sent, now);
    assert (w.db.rows + [row])[m := row.(status := Delivered)] == w.db.rows + [row.(status := Delivered)];
  }

  /**
   A message to oneself, exactly: it becomes pending for another user v if and only if the lookup found a chat,
   v is the other member of it, and the writer's own queue here did not take the copy.
   */
  lemma SelfMessagePendsIff(w: World, inst: nat, a: UserId, v: UserId, clientId: nat, body: string, now: int,
                            pick: ChatId, pubOk: bool)
    requires WorldOk(w, inst) && ValidPick(w.db, a, a, pick) && v != a
    ensures |w.db.rows| in Pending(HandleDm(w, a, a, clientId, body, now, pick, pubOk).db, v)
       <==> Matches(w.db, a, a) != {} && IsPair(w.db, pick, a, v) && !HasRoom(w.node.hub, a)
  {
    var m := |w.db.rows|;
    SendNotes(w.node.hub, a, Message(m, a, body, now));
    if Matches(w.db, a, a) != {} {
      SelfStored(w, a, clientId, body, now, pick, pubOk);
      MemberIff(w.db, pick, v);
      assert (pick, a) in w.db.members by { assert pick in Matches(w.db, a, a); }
      if (pick, v) in w.db.members { OtherMember(w.db, pick, a, v); }
      hide HandleDm, HubOk, Send, HasRoom, Noted, Matches, DbOk, OneChatPerPair;
    }
  }

  function CopyOfRow(m: MsgId, r: Row): Packet {
    Message(m, r.sender, r.body, r.createdAt)
  }

  /** The log entries of a replay whose every send succeeds: each row's own author, text and time. */
  function ReplayLog(db: Db, c: ClientId, user: UserId, batch: seq<MsgId>): seq<Accept>
    requires ValidIds(db, batch)
  {
    seq(|batch|, j requires 0 <= j < |batch| => Accept(c, user, CopyOfRow(batch[j], db.rows[batch[j]])))
  }

  predicate MarksExactly(db: Db, db': Db, batch: seq<MsgId>) {
    && db'.members == db.members && db'.chatCount == db.chatCount
    && |db'.rows| == |db.rows|
    && forall k | 0 <= k < |db.rows| ::
          db'.rows[k] == if k in batch then db.rows[k].(status := Delivered) else db.rows[k]
  }

  lemma ReplayLogStep(db: Db, c: ClientId, user: UserId, batch: seq<MsgId>)
    requires batch != [] && ValidIds(db, batch)
    ensures ReplayLog(db, c, user, batch)
         == [Accept(c, user, PacketOf(db, batch[0]))]
            + ReplayLog(UpdateStatus(db, batch[0], Delivered), c, user, batch[1..])
  {
    var db1 := UpdateStatus(db, batch[0], Delivered);
    var l, r := ReplayLog(db, c, user, batch), ReplayLog(db1, c, user, batch[1..]);
    forall k | 0 <= k < |batch| ensures l[k] == ([Accept(c, user, PacketOf(db, batch[0]))] + r)[k] {
      if k > 0 {
        assert PacketOf(db1, batch[1..][k - 1]) == PacketOf(db, batch[k]);
      }
    }
  }

  lemma ReplayNothing(hub: HubState, db: Db, c: ClientId, user: UserId)
    ensures SameConnections(hub, hub) && hub.log + ReplayLog(db, c, user, []) == hub.log
  {
    assert ReplayLog(db, c, user, []) == [];
  }

  lemma {:induction false} ReplayMarks(hub: HubState, db: Db, user: UserId, batch: seq<MsgId>)
    requires ValidIds(db, batch)
    ensures MarksExactly(db, Replay(hub, db, user, batch).1, batch)
    decreases |batch|
  {
    hide Send;
    if batch != [] {
      var m := batch[0];
      var hub1 := Send(hub, user, PacketOf(db, m)).hub;
      var db1 := UpdateStatus(db, m, Delivered);
      ReplayMarks(hub1, db1, user, batch[1..]);
      var db' := Replay(hub1, db1, user, batch[1..]).1;
      forall k | 0 <= k < |db.rows|
        ensures db'.rows[k] == if k in batch then db.rows[k].(status := Delivered) else db.rows[k]
      {
        assert k in batch <==> k == m || k in batch[1..];
      }
    }
  }

  lemma SameConnectionsTwice(h0: HubState, h1: HubState, h2: HubState)
    requires SameConnections(h0, h1) && SameConnections(h1, h2)
    ensures SameConnections(h0, h2)
  {}

  /** A send that finds room, and nothing more than its callers need. */
  lemma SendWithRoom(h: HubState, user: UserId, p: Packet)
    requires HubOk(h) && user in h.clients && |h.chans[h.clients[user]].queue| < CAPACITY
    ensures var h' := Send(h, user, p).hub;
            && HubOk(h') && h'.clients == h.clients && SameConnections(h, h')
            && h'.log == h.log + [Accept(h.clients[user], user, p)]
            && |h'.chans[h.clients[user]].queue| == |h.chans[h.clients[user]].queue| + 1
  {
    SendEffect(h, user, p);
  }

  /** While the queue has room for the whole batch, every replayed copy is accepted, in order. */
  lemma {:induction false} ReplayEffect(hub: HubState, db: Db, user: UserId, batch: seq<MsgId>)
    requires HubOk(hub) && user in hub.clients
    requires |hub.chans[hub.clients[user]].queue| + |batch| <= CAPACITY
    requires ValidIds(db, batch)
    ensures var hub' := Replay(hub, db, user, batch).0;
            && HubOk(hub') && hub'.clients == hub.clients && SameConnections(hub, hub')
            && hub'.log == hub.log + ReplayLog(db, hub.clients[user], user, batch)
    decreases |batch|
  {
    hide HubOk, Send, SameConnections, ReplayLog;
    var c := hub.clients[user];
    if batch == [] {
      assert SameConnections(hub, hub) && hub.log + ReplayLog(db, c, user, batch) == hub.log by {
        ReplayNothing(hub, db, c, user);
      }
    } else {
      var m := batch[0];
      var p := PacketOf(db, m);
      SendWithRoom(hub, user, p);
      var hub1 := Send(hub, user, p).hub;
      var db1 := UpdateStatus(db, m, Delivered);
      ReplayEffect(hub1, db1, user, batch[1..]);
      ReplayLogStep(db, c, user, batch);
      SameConnectionsTwice(hub, hub1, Replay(hub, db, user, batch).0);
    }
  }

  lemma MarksKeepTables(db: Db, db': Db, hist: History, batch: seq<MsgId>)
    requires TablesOk(db, hist) && MarksExactly(db, db', batch)
    ensures TablesOk(db', hist)
  {
    SameMembers(db, db');
  }

  /** A connect on the hub: one fresh connection that accepts the whole batch, in order. */
  predicate HubConnects(h: HubState, h': HubState, db: Db, user: UserId, batch: seq<MsgId>)
    requires ValidIds(db, batch)
  {
    var c := |h.chans|;
    && h'.clients == h.clients[user := c]
    && h'.log == h.log + ReplayLog(db, c, user, batch)
    && |h'.chans| == c + 1
    && h'.chans[c].user == user && h'.chans[c].reader == Running
    && KeepsEarlier(h, h')
  }

  predicate SameUser(a: Channel, b: Channel) {
    a.user == b.user && a.reader == b.reader
  }

  predicate KeepsEarlier(h: HubState, h': HubState) {
    && |h.chans| <= |h'.chans|
    && forall d | 0 <= d < |h.chans| :: SameUser(h.chans[d], h'.chans[d])
  }

  lemma StartedShape(h: HubState, user: UserId, h2: HubState)
    requires h2.clients == Register(h, user).clients && SameConnections(Register(h, user), h2)
    ensures var h' := StartPumps(h2, |h.chans|);
            && h'.clients == h.clients[user := |h.chans|] && h'.log == h2.log && |h'.chans| == |h.chans| + 1
            && h'.chans[|h.chans|].user == user && h'.chans[|h.chans|].reader == Running
  {
    assert SameEnds(Register(h, user).chans[|h.chans|], h2.chans[|h.chans|]);
  }

  lemma StartedKeepsEarlier(h: HubState, user: UserId, h2: HubState)
    requires SameConnections(Register(h, user), h2)
    ensures KeepsEarlier(h, StartPumps(h2, |h.chans|))
  {
    var registered := Register(h, user);
    forall d | 0 <= d < |h.chans| ensures SameUser(h.chans[d], StartPumps(h2, |h.chans|).chans[d]) {
      assert SameEnds(registered.chans[d], h2.chans[d]);
    }
  }

  lemma ConnectHubEffect(h: HubState, db: Db, user: UserId, batch: seq<MsgId>)
    requires HubOk(h) && ValidIds(db, batch) && |batch| <= CAPACITY
    ensures HubOk(ConnectHub(h, db, user, batch)) && HubConnects(h, ConnectHub(h, db, user, batch), db, user, batch)
  {
    var c := |h.chans|;
    var registered := Register(h, user);
    assert HubOk(registered) && registered.clients[user] == c && registered.chans[c] == NewChannel(user)
           && registered.log == h.log by {
      RegisterKeepsHub(h, user);
    }
    var h2 := Replay(registered, db, user, batch).0;
    assert HubOk(h2) && h2.clients == registered.clients && SameConnections(registered, h2)
           && h2.log == h.log + ReplayLog(db, c, user, batch) by {
      hide HubOk, Register, ReplayLog, SameConnections;
      ReplayEffect(registered, db, user, batch);
    }
    hide HubOk, ReplayLog, SameConnections, Replay, StartPumps, Register, KeepsEarlier;
    assert h2.chans[c].writer == NotStarted by {
      SameWriter(registered, h2, c);
    }
    StartPumpsKeepsHub(h2, c);
    StartedShape(h, user, h2);
    StartedKeepsEarlier(h, user, h2);
  }

  lemma SameWriter(h: HubState, h': HubState, c: ClientId)
    requires SameConnections(h, h') && c < |h.chans|
    ensures h'.chans[c].writer == h.chans[c].writer
  {}

  /** A connect: the batch accepted by the fresh connection, exactly those rows marked, one subscription. */
  ghost predicate ConnectAdds(w: World, w': World, inst: nat, user: UserId, batch: seq<MsgId>)
    requires ValidIds(w.db, batch)
  {
    && MarksExactly(w.db, w'.db, batch)
    && w'.hist == w.hist
    && w'.bus == BusSpec.Subscribe(w.bus, inst, user)
    && w'.node.subs == w.node.subs[user := |w.bus.subs|]
    && HubConnects(w.node.hub, w'.node.hub, w.db, user, batch)
  }

  lemma ReplayLogFresh(db: Db, c: ClientId, user: UserId, batch: seq<MsgId>, log: seq<Accept>)
    requires ValidIds(db, batch) && FreshLog(log, |db.rows|)
    ensures FreshLog(log + ReplayLog(db, c, user, batch), |db.rows|)
  {}

  lemma SubscribeKeepsSubs(bus: BusState, subs: map<UserId, nat>, inst: nat, user: UserId)
    requires SubsOk(bus, subs, inst)
    ensures SubsOk(BusSpec.Subscribe(bus, inst, user), subs[user := |bus.subs|], inst)
  {}

  lemma ConnectKeeps(w: World, inst: nat, user: UserId, batch: seq<MsgId>)
    requires WorldOk(w, inst) && ValidIds(w.db, batch) && IsPendingBatch(w.db, user, batch)
    ensures var w' := Connect(w, inst, user, batch);
            WorldOk(w', inst) && Evolves(w, w', inst) && ConnectAdds(w, w', inst, user, batch)
  {
    hide IsPendingBatch, HubOk, TablesOk, ConnectHub, ConnectDb, SubsOk, FreshLog, MarksExactly;
    BatchFits(w.db, user, batch);
    var h := w.node.hub;
    var w' := Connect(w, inst, user, batch);
    ConnectHubEffect(h, w.db, user, batch);
    assert MarksExactly(w.db, w'.db, batch) && |w'.db.rows| == |w.db.rows| by {
      ConnectMarks(h, w.db, user, batch);
    }
    MarksKeepTables(w.db, w'.db, w.hist, batch);
    ReplayLogFresh(w.db, |h.chans|, user, batch, h.log);
    SubscribeKeepsSubs(w.bus, w.node.subs, inst, user);
  }

  lemma ConnectMarks(h: HubState, db: Db, user: UserId, batch: seq<MsgId>)
    requires ValidIds(db, batch)
    ensures MarksExactly(db, ConnectDb(h, db, user, batch), batch)
  {
    ReplayMarks(Register(h, user), db, user, batch);
  }

  lemma UnsubscribeKeeps(w: World, inst: nat, user: UserId)
    requires WorldOk(w, inst)
    ensures WorldOk(UnsubscribeUser(w, user), inst) && Evolves(w, UnsubscribeUser(w, user), inst)
  {
    hide HubOk, TablesOk, FreshLog;
  }

  ghost predicate DisconnectAdds(w: World, w': World) {
    && w'.db == w.db && w'.hist == w.hist && w'.bus.wire == w.bus.wire
    && w'.node.hub.log == w.node.hub.log
    && |w'.bus.subs| == |w.bus.subs|
  }

  lemma DisconnectKeeps(w: World, inst: nat, c: ClientId)
    requires WorldOk(w, inst) && c < |w.node.hub.chans|
    ensures WorldOk(Disconnect(w, c), inst) && Evolves(w, Disconnect(w, c), inst) && DisconnectAdds(w, Disconnect(w, c))
  {
    hide HubOk, TablesOk, FreshLog, FreshWire, SubsOk;
    EndReaderKeepsHub(w.node.hub, c);
    var w1 := w.(node := w.node.(hub := EndReader(w.node.hub, c)));
    assert w1.node.hub.log == w.node.hub.log;
    UnsubscribeKeeps(w1, inst, w.node.hub.chans[c].user);
  }

  lemma WriteKeeps(w: World, inst: nat, c: ClientId, ok: bool)
    requires WorldOk(w, inst) && CanWrite(w.node.hub, c)
    ensures var w' := w.(node := w.node.(hub := Write(w.node.hub, c, ok)));
            WorldOk(w', inst) && Evolves(w, w', inst)
  {
    WriteKeepsHub(w.node.hub, c, ok);
  }

  /** Packets leave the wire without touching anything else. */
  lemma RemoveKeeps(s: Sys, k: nat)
    requires SysOk(s) && k < |s.bus.wire|
    ensures SysOk(s.(bus := Remove(s.bus, k)))
  {
    var s' := s.(bus := Remove(s.bus, k));
    forall i | 0 <= i < |s'.nodes| ensures WorldOk(At(s', i), i) {
      assert WorldOk(At(s, i), i);
    }
  }
}
