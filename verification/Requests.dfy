/** What each request of a client does, to the tables, the wire and what every user is told. */
module Requests {
  import opened ChatTypes
  import opened HubSpec
  import opened DbSpec
  import opened HubTells
  import BusSpec
  import Protocol
  import ProtocolSteps
  import Limiter
  import Presence
  import Groups
  import GroupsSpec
  import NoLoss

  /** What a client may ask for. */
  datatype Inbound =
    | Direct(to: UserId, clientId: nat, body: string)
    | GroupPost(group: nat, body: string)
    | CreateGroup(name: string)
    | AddMember(group: nat, user: UserId)
    | LeaveGroup(group: nat)
    | Typing(chat: ChatId, members: seq<UserId>)
    | Ack(mid: MsgId, notify: Option<UserId>)
    | Ping
    | PresenceCheck(users: seq<UserId>)
    | Relay(target: UserId, payload: nat)

  predicate Limited(msg: Inbound) { msg.Direct? || msg.GroupPost? }

  /** Answers of the engines to one request. */
  datatype Answers = Answers(now: int, limiter: Limiter.Outcome, pick: ChatId, pubOk: bool, redisOk: bool)

  /** Whether a request gets past the limiter. */
  predicate Admitted(counters: Limiter.Keys, max: int, from: UserId, msg: Inbound, a: Answers) {
    Limited(msg) ==> Limiter.Allowed(counters, from, a.now, max, a.limiter)
  }

  function CountersAfter(counters: Limiter.Keys, window: int, from: UserId, msg: Inbound, a: Answers): Limiter.Keys {
    if Limited(msg) then Limiter.After(counters, from, a.now, window, a.limiter) else counters
  }

  /** The requests that go to the groups' handlers or over their fan-out. */
  predicate ForGroups(msg: Inbound) {
    msg.GroupPost? || msg.CreateGroup? || msg.AddMember? || msg.LeaveGroup? || msg.Typing?
  }

  /** One answer for each id listed, in that order, to the user who asks. A Redis error counts as offline. */
  function Reports(w: Protocol.World, from: UserId, users: seq<UserId>, keys: Presence.Keys, a: Answers):
    Protocol.World
    decreases |users|
  {
    if users == [] then w
    else
      var p := Other(PresenceIs(users[0], a.redisOk && Presence.Online(keys, users[0], a.now)));
      Reports(Protocol.SendTo(w, from, p), from, users[1..], keys, a)
  }

  lemma ReportsFrom(w: Protocol.World, from: UserId, users: seq<UserId>, i: nat, keys: Presence.Keys, a: Answers)
    requires i < |users|
    ensures var p := Other(PresenceIs(users[i], a.redisOk && Presence.Online(keys, users[i], a.now)));
            Reports(w, from, users[i..], keys, a) == Reports(Protocol.SendTo(w, from, p), from, users[i + 1..], keys, a)
  {
    assert users[i..][0] == users[i] && users[i..][1..] == users[i + 1..];
  }

  lemma ReportsNothing(w: Protocol.World, from: UserId, users: seq<UserId>, keys: Presence.Keys, a: Answers)
    ensures Reports(w, from, users[|users|..], keys, a) == w
  {}

  /** What any other request does to the world. */
  function Handle(w: Protocol.World, keys: Presence.Keys, from: UserId, msg: Inbound, a: Answers): Protocol.World {
    match msg
    case Direct(to, id, body) => Protocol.HandleDm(w, from, to, id, body, a.now, a.pick, a.pubOk)
    case Ack(m, notify) => Protocol.HandleAck(w, from, m, notify, a.pubOk)
    case Ping => Protocol.SendTo(w, from, Other(Pong))
    case PresenceCheck(users) => Reports(w, from, users, keys, a)
    case Relay(target, payload) => Protocol.SendOrPublish(w, target, Other(Relayed(from, payload)), a.pubOk)
    case _ => w
  }

  /** What a request for the groups does to their tables and to the hub. A typing notice goes to those it lists. */
  function HandleGroup(r: Groups.Room, from: UserId, msg: Inbound, a: Answers): Groups.Room {
    match msg
    case GroupPost(g, body) => Groups.HandlePost(r, from, g, body)
    case CreateGroup(name) => Groups.HandleCreate(r, from, name)
    case AddMember(g, u) => Groups.HandleAdd(r, from, g, u)
    case LeaveGroup(g) => Groups.HandleLeave(r, from, g)
    case Typing(chat, members) =>
      if a.redisOk then r.(hub := Groups.FanOut(r.hub, members, from, Other(TypingIs(from, chat)))) else r
    case _ => r
  }

  // ---- what a request comes to

  /** Nothing but the hub is touched. */
  predicate OnlyHub(w: Protocol.World, w': Protocol.World) {
    w'.db == w.db && w'.bus == w.bus && w'.hist == w.hist && w'.node.subs == w.node.subs
  }

  /** The packet on the wire for each live subscription of a user with no room here, if Redis takes it. */
  predicate Published(w: Protocol.World, w': Protocol.World, user: UserId, p: Packet, pubOk: bool) {
    && w'.bus.subs == w.bus.subs && w'.node.subs == w.node.subs
    && w'.bus.wire == w.bus.wire
         + if HasRoom(w.node.hub, user) || !pubOk then [] else BusSpec.Copies(w.bus.subs, user, p)
  }

  /** The chat of two users: the one the query keeps, or the next one. */
  function ChatFor(db: Db, a: UserId, b: UserId, pick: ChatId): ChatId {
    if Matches(db, a, b) != {} then pick else db.chatCount
  }

  /** The message is a new row of the chat of the two, and the only change to the tables, but for a new chat. */
  predicate StoredAs(db: Db, db': Db, row: Row, from: UserId, to: UserId) {
    && db'.rows == db.rows + [row]
    && db'.members == db.members + {(row.chat, from), (row.chat, to)}
    && db'.chatCount == if row.chat == db.chatCount then db.chatCount + 1 else db.chatCount
  }

  /** How the copy of a stored message leaves its handler: the local queue, the wire, or not at all. */
  function RouteTo(w: Protocol.World, to: UserId, pubOk: bool): Protocol.Route {
    if HasRoom(w.node.hub, to) then Protocol.Local
    else if pubOk then Protocol.Published(BusSpec.LiveCount(w.bus.subs, to))
    else Protocol.Unpublished
  }

  /** A direct message, from one world to the next, and what user u is told of it. */
  predicate DirectDone(w: Protocol.World, w': Protocol.World, from: UserId, to: UserId, id: nat, body: string,
                       a: Answers, u: UserId)
  {
    if from == to && Matches(w.db, from, from) == {} then w' == w
    else
      var m, here := |w.db.rows|, HasRoom(w.node.hub, to);
      var copy := Message(m, from, body, a.now);
      var status := if here then Delivered else Sent;
      && StoredAs(w.db, w'.db, Row(ChatFor(w.db, from, to, a.pick), from, body, status, a.now), from, to)
      && Published(w, w', to, copy, a.pubOk)
      && w'.hist == w.hist.(dms := w.hist.dms + [Protocol.DmRecord(to, RouteTo(w, to, a.pubOk))])
      && Told(w.node.hub, w'.node.hub, u,
              (if u == to then [copy] else []) + (if u == from && (here || a.pubOk) then [SentAck(m, id)] else []))
  }

  /** A read receipt: one status, one record, and the notice for whom it names. */
  predicate AckDone(w: Protocol.World, w': Protocol.World, from: UserId, m: MsgId, notify: Option<UserId>, a: Answers,
                  u: UserId)
  {
    && |w'.db.rows| == |w.db.rows| && w'.db.chatCount == w.db.chatCount && w'.db.members == w.db.members
    && (forall k | 0 <= k < |w.db.rows| ::
          w'.db.rows[k] == if k == m then w.db.rows[k].(status := Read) else w.db.rows[k])
    && w'.hist.dms == w.hist.dms && w'.hist.acks == w.hist.acks + {(m, from)}
    && (if notify.Some? then Published(w, w', notify.value, ReadNotice(m), a.pubOk)
        else w'.bus == w.bus && w'.node.subs == w.node.subs)
    && Told(w.node.hub, w'.node.hub, u, if notify == Some(u) then [ReadNotice(m)] else [])
  }

  /** Whether a user is shown as online: Redis answers, and his key lives. */
  function Shown(keys: Presence.Keys, user: UserId, a: Answers): Notice {
    PresenceIs(user, a.redisOk && user in keys && a.now < keys[user])
  }

  function AllShown(keys: Presence.Keys, users: seq<UserId>, a: Answers): seq<Packet> {
    seq(|users|, k requires 0 <= k < |users| => Other(Shown(keys, users[k], a)))
  }

  /** What each request that is not for the groups does, and what user u is told of it. */
  predicate Meets(w: Protocol.World, w': Protocol.World, keys: Presence.Keys, from: UserId, msg: Inbound, a: Answers,
                 u: UserId)
  {
    match msg
    case Direct(to, id, body) => DirectDone(w, w', from, to, id, body, a, u)
    case Ack(m, notify) => AckDone(w, w', from, m, notify, a, u)
    case Ping => OnlyHub(w, w') && Told(w.node.hub, w'.node.hub, u, Groups.AnswerTo(from, u, Pong))
    case PresenceCheck(users) =>
      OnlyHub(w, w') && Told(w.node.hub, w'.node.hub, u, if u == from then AllShown(keys, users, a) else [])
    case Relay(target, payload) =>
      && w'.db == w.db && w'.hist == w.hist && Published(w, w', target, Other(Relayed(from, payload)), a.pubOk)
      && Told(w.node.hub, w'.node.hub, u, if u == target then [Other(Relayed(from, payload))] else [])
    case _ => false
  }

  lemma OfferedOrPublished(w: Protocol.World, user: UserId, p: Packet, pubOk: bool, u: UserId)
    requires HubOk(w.node.hub)
    ensures var w' := Protocol.SendOrPublish(w, user, p, pubOk);
            && HubOk(w'.node.hub) && w'.db == w.db && w'.hist == w.hist && Published(w, w', user, p, pubOk)
            && Told(w.node.hub, w'.node.hub, u, if u == user then [p] else [])
            && (Protocol.Accepts(w, user, p) <==> HasRoom(w.node.hub, user))
  {
    SendTells(w.node.hub, user, p, u);
    ProtocolSteps.SendNotes(w.node.hub, user, p);
    hide HubOk, HubSpec.Send, Told, HasRoom, BusSpec.Copies;
    assert w.bus.wire + [] == w.bus.wire;
  }

  lemma {:induction false} ReportsTell(w: Protocol.World, from: UserId, users: seq<UserId>, keys: Presence.Keys,
                                       a: Answers, u: UserId)
    requires HubOk(w.node.hub)
    ensures var w' := Reports(w, from, users, keys, a);
            OnlyHub(w, w') && Told(w.node.hub, w'.node.hub, u, if u == from then AllShown(keys, users, a) else [])
    decreases |users|
  {
    hide HubOk, Told, HubSpec.Send;
    if users == [] {
      ToldNothing(w.node.hub, u);
      assert AllShown(keys, users, a) == [];
    } else {
      var p := Other(Shown(keys, users[0], a));
      var w1 := Protocol.SendTo(w, from, p);
      SendTells(w.node.hub, from, p, u);
      ReportsTell(w1, from, users[1..], keys, a, u);
      assert [p] + AllShown(keys, users[1..], a) == AllShown(keys, users, a);
      var one, rest := if u == from then [p] else [], if u == from then AllShown(keys, users[1..], a) else [];
      var w' := Reports(w, from, users, keys, a);
      assert w' == Reports(w1, from, users[1..], keys, a);
      assert one + rest == if u == from then AllShown(keys, users, a) else [];
      assert OnlyHub(w, w');
      hide *;
      ToldThen(w.node.hub, w1.node.hub, w'.node.hub, u, one, rest);
    }
  }

  lemma AckDoes(w: Protocol.World, from: UserId, m: MsgId, notify: Option<UserId>, a: Answers, u: UserId)
    requires HubOk(w.node.hub)
    ensures AckDone(w, Protocol.HandleAck(w, from, m, notify, a.pubOk), from, m, notify, a, u)
  {
    ToldNothing(w.node.hub, u);
    var w1 := w.(db := UpdateStatus(w.db, m, Read), hist := w.hist.(acks := w.hist.acks + {(m, from)}));
    hide HubOk, Told, HubSpec.Send, Protocol.SendOrPublish, HasRoom;
    if notify.Some? { OfferedOrPublished(w1, notify.value, ReadNotice(m), a.pubOk, u); }
  }

  lemma LookupIs(db: Db, from: UserId, to: UserId, pick: ChatId)
    requires ValidPick(db, from, to, pick)
    ensures var r, chat := FindOrCreateChat(db, from, to, pick), ChatFor(db, from, to, pick);
            && (r.Found? <==> !(from == to && Matches(db, from, from) == {}))
            && (r.Found? ==> r.chat == chat && r.db.rows == db.rows
                             && r.db.members == db.members + {(chat, from), (chat, to)}
                             && r.db.chatCount == if chat == db.chatCount then db.chatCount + 1 else db.chatCount)
  {
    if Matches(db, from, to) != {} {
      assert pick in Matches(db, from, to);
      assert db.members + {(pick, from), (pick, to)} == db.members;
    }
  }

  lemma DirectDoes(w: Protocol.World, from: UserId, to: UserId, id: nat, body: string, a: Answers, u: UserId)
    requires HubOk(w.node.hub) && ValidPick(w.db, from, to, a.pick)
    ensures DirectDone(w, Protocol.HandleDm(w, from, to, id, body, a.now, a.pick, a.pubOk), from, to, id, body, a, u)
  {
    LookupIs(w.db, from, to, a.pick);
    hide HubOk, Told, HubSpec.Send, HasRoom, Matches, FindOrCreateChat, BusSpec.Copies, BusSpec.LiveCount, ValidPick,
      ChatFor, Protocol.DeliverDm;
    if FindOrCreateChat(w.db, from, to, a.pick).Found? {
      DeliverDoes(w.(db := FindOrCreateChat(w.db, from, to, a.pick).db), ChatFor(w.db, from, to, a.pick), from, to, id,
                  body, a, u);
    }
  }

  lemma DeliverDoes(w: Protocol.World, chat: ChatId, from: UserId, to: UserId, id: nat, body: string, a: Answers,
                    u: UserId)
    requires HubOk(w.node.hub)
    ensures var w', here, m := Protocol.DeliverDm(w, chat, from, to, id, body, a.now, a.pubOk), HasRoom(w.node.hub, to),
                               |w.db.rows|;
            var copy := Message(m, from, body, a.now);
            && w'.db.rows == w.db.rows + [Row(chat, from, body, if here then Delivered else Sent, a.now)]
            && w'.db.members == w.db.members && w'.db.chatCount == w.db.chatCount
            && Published(w, w', to, copy, a.pubOk)
            && w'.hist == w.hist.(dms := w.hist.dms + [Protocol.DmRecord(to, RouteTo(w, to, a.pubOk))])
            && Told(w.node.hub, w'.node.hub, u,
                    (if u == to then [copy] else [])
                    + (if u == from && (here || a.pubOk) then [SentAck(m, id)] else []))
  {
    var m := |w.db.rows|;
    var copy := Message(m, from, body, a.now);
    var w1 := Protocol.FirstCopy(w, chat, from, to, body, a.now, a.pubOk);
    var route := RouteTo(w, to, a.pubOk);
    var w' := Protocol.Finish(w1, m, route, from, id);
    CopyDoes(w, chat, from, to, body, a, u);
    FinishDoes(w1, m, route, from, id, u);
    assert w' == Protocol.DeliverDm(w, chat, from, to, id, body, a.now, a.pubOk);
    hide *;
    LastMarked(w.db, chat, from, body, a.now);
    DeliverTells(w, w1, w', from, to, copy, id, a, u);
    PublishedSame(w, w1, w', to, copy, a.pubOk);
    RouteIs(w, to, a.pubOk);
  }

  lemma RouteIs(w: Protocol.World, to: UserId, pubOk: bool)
    ensures RouteTo(w, to, pubOk).Local? <==> HasRoom(w.node.hub, to)
    ensures RouteTo(w, to, pubOk).Unpublished? <==> !HasRoom(w.node.hub, to) && !pubOk
  {}

  lemma DeliverTells(w: Protocol.World, w1: Protocol.World, w': Protocol.World, from: UserId, to: UserId, copy: Packet,
                     id: nat, a: Answers, u: UserId)
    requires Told(w.node.hub, w1.node.hub, u, if u == to then [copy] else []) && copy.Message?
    requires Told(w1.node.hub, w'.node.hub, u,
                  if u == from && !RouteTo(w, to, a.pubOk).Unpublished? then [SentAck(copy.mid, id)] else [])
    ensures Told(w.node.hub, w'.node.hub, u,
                 (if u == to then [copy] else [])
                 + (if u == from && (HasRoom(w.node.hub, to) || a.pubOk) then [SentAck(copy.mid, id)] else []))
  {
    RouteIs(w, to, a.pubOk);
    hide *;
    ToldThen(w.node.hub, w1.node.hub, w'.node.hub, u, if u == to then [copy] else [],
             if u == from && (HasRoom(w.node.hub, to) || a.pubOk) then [SentAck(copy.mid, id)] else []);
  }

  /** The row just stored, once it is marked. */
  lemma LastMarked(db: Db, chat: ChatId, from: UserId, body: string, now: int)
    ensures var db' := db.(rows := db.rows + [Row(chat, from, body, Sent, now)]);
            UpdateStatus(db', |db.rows|, Delivered)
            == db.(rows := db.rows + [Row(chat, from, body, Delivered, now)])
  {}

  lemma PublishedSame(w: Protocol.World, w1: Protocol.World, w': Protocol.World, user: UserId, p: Packet, pubOk: bool)
    requires Published(w, w1, user, p, pubOk) && w'.bus == w1.bus && w'.node.subs == w1.node.subs
    ensures Published(w, w', user, p, pubOk)
  {}

  lemma FinishDoes(w: Protocol.World, m: MsgId, route: Protocol.Route, from: UserId, id: nat, u: UserId)
    requires HubOk(w.node.hub)
    ensures var w' := Protocol.Finish(w, m, route, from, id);
            && w'.db == (if route.Local? then UpdateStatus(w.db, m, Delivered) else w.db)
            && w'.bus == w.bus && w'.hist == w.hist && w'.node.subs == w.node.subs
            && Told(w.node.hub, w'.node.hub, u, if u == from && !route.Unpublished? then [SentAck(m, id)] else [])
  {
    ToldNothing(w.node.hub, u);
    SendTells(w.node.hub, from, SentAck(m, id), u);
    hide HubOk, Told, HubSpec.Send, UpdateStatus;
  }

  lemma CopyDoes(w: Protocol.World, chat: ChatId, from: UserId, to: UserId, body: string, a: Answers, u: UserId)
    requires HubOk(w.node.hub)
    ensures var w1, m := Protocol.FirstCopy(w, chat, from, to, body, a.now, a.pubOk), |w.db.rows|;
            var copy := Message(m, from, body, a.now);
            var route := Protocol.RouteOf(w, to, copy, a.pubOk);
            && HubOk(w1.node.hub)
            && w1.db == w.db.(rows := w.db.rows + [Row(chat, from, body, Sent, a.now)])
            && w1.hist == w.hist.(dms := w.hist.dms + [Protocol.DmRecord(to, RouteTo(w, to, a.pubOk))])
            && Published(w, w1, to, copy, a.pubOk)
            && Told(w.node.hub, w1.node.hub, u, if u == to then [copy] else [])
            && route == RouteTo(w, to, a.pubOk)
  {
    var m := |w.db.rows|;
    var copy := Message(m, from, body, a.now);
    var w0 := w.(db := InsertMessage(w.db, chat, from, body, a.now),
                 hist := w.hist.(dms := w.hist.dms + [Protocol.DmRecord(to, Protocol.RouteOf(w, to, copy, a.pubOk))]));
    OfferedOrPublished(w0, to, copy, a.pubOk, u);
    hide HubOk, Told, HubSpec.Send, HasRoom, BusSpec.Copies, BusSpec.LiveCount;
  }

  /**
   Every request that is not for the groups does exactly what is said of it above, to the tables, the wire and
   every user, whatever the engines answer.
   */
  lemma RequestDoes(w: Protocol.World, keys: Presence.Keys, from: UserId, msg: Inbound, a: Answers, u: UserId)
    requires HubOk(w.node.hub) && !ForGroups(msg) && (msg.Direct? ==> ValidPick(w.db, from, msg.to, a.pick))
    ensures Meets(w, Handle(w, keys, from, msg, a), keys, from, msg, a, u)
  {
    hide HubOk, Told, HubSpec.Send, HasRoom, Protocol.HandleDm, Protocol.HandleAck, DirectDone, AckDone, ValidPick,
      BusSpec.Copies;
    match msg
    case Direct(to, id, body) => DirectDoes(w, from, to, id, body, a, u);
    case Ack(m, notify) => AckDoes(w, from, m, notify, a, u);
    case Ping => SendTells(w.node.hub, from, Other(Pong), u);
    case PresenceCheck(users) => ReportsTell(w, from, users, keys, a, u);
    case Relay(target, payload) => OfferedOrPublished(w, target, Other(Relayed(from, payload)), a.pubOk, u);
  }

  /** What each request for the groups does, and what user u is told of it. */
  ghost predicate GroupMeets(r: Groups.Room, r': Groups.Room, from: UserId, msg: Inbound, a: Answers, u: UserId) {
    match msg
    case GroupPost(g, body) => Groups.Posted(r, r', from, g, body, u)
    case CreateGroup(name) => Groups.Created(r, r', from, name, u)
    case AddMember(g, v) => Groups.AddedTo(r, r', from, g, v, u)
    case LeaveGroup(g) => Groups.LeftBy(r, r', from, g, u)
    case Typing(chat, members) =>
      && r'.tables == r.tables
      && Told(r.hub, r'.hub, u,
              Groups.Repeated(Other(TypingIs(from, chat)),
                              if a.redisOk && u != from then Groups.Listed(members, u) else 0))
    case _ => false
  }

  lemma GroupRequestDoes(r: Groups.Room, from: UserId, msg: Inbound, a: Answers, u: UserId)
    requires HubOk(r.hub) && GroupsSpec.TablesOk(r.tables) && ForGroups(msg)
    ensures GroupMeets(r, HandleGroup(r, from, msg, a), from, msg, a, u)
  {
    hide HubOk, Told, Groups.Posted, Groups.Created, Groups.AddedTo, Groups.LeftBy, Groups.Listed, Groups.FanOut,
      GroupsSpec.TablesOk, Groups.HandlePost, Groups.HandleCreate, Groups.HandleAdd, Groups.HandleLeave;
    match msg
    case GroupPost(g, body) => Groups.PostReachesEachMember(r, from, g, body, u);
    case CreateGroup(name) => Groups.CreationIsAnswered(r, from, name, u);
    case AddMember(g, v) => Groups.AdditionIsAnswered(r, from, g, v, u);
    case LeaveGroup(g) => Groups.LeavingIsAnswered(r, from, g, u);
    case Typing(chat, members) =>
      var p := Other(TypingIs(from, chat));
      if a.redisOk {
        Groups.FanOutTells(r.hub, members, from, p, u);
      } else {
        ToldNothing(r.hub, u);
        assert Groups.Repeated(p, 0) == [];
      }
  }

  /** A refused request does nothing but tell its sender so. */
  predicate Refused(w: Protocol.World, w': Protocol.World, from: UserId, u: UserId) {
    OnlyHub(w, w') && Told(w.node.hub, w'.node.hub, u, Groups.AnswerTo(from, u, RateLimited))
  }

  lemma RefusalTells(w: Protocol.World, from: UserId, u: UserId)
    requires HubOk(w.node.hub)
    ensures Refused(w, Protocol.SendTo(w, from, Other(RateLimited)), from, u)
  {
    hide HubOk, HubSpec.Send, Told;
    SendTells(w.node.hub, from, Other(RateLimited), u);
  }

  // ---- which requests are limited

  /** A direct or group message is refused exactly if Redis answers and the window has had its requests. */
  lemma RefusedIff(counters: Limiter.Keys, max: int, from: UserId, msg: Inbound, a: Answers)
    ensures !Admitted(counters, max, from, msg, a)
       <==> && (msg.Direct? || msg.GroupPost?) && a.limiter.Answered?
            && Limiter.CountAt(counters, from, a.now) >= max
  {}

  /** Direct and group messages count, unless the transaction was not applied. Nothing else does. */
  lemma CountsIff(counters: Limiter.Keys, window: int, from: UserId, msg: Inbound, a: Answers, u: UserId)
    requires 0 < window
    ensures var after := CountersAfter(counters, window, from, msg, a);
            Limiter.CountAt(after, u, a.now) == Limiter.CountAt(counters, u, a.now)
              + if u == from && (msg.Direct? || msg.GroupPost?) && a.limiter != Limiter.Failed(false) then 1 else 0
  {}
}
