/**
 The delivery protocol over any number of instances, one step per handler. Each handler is a
 function on what one instance sees (`World`); the system lifts it to the instance it runs on.
 */
module Protocol {
  import opened ChatTypes
  import opened HubSpec
  import opened DbSpec
  import opened BusSpec

  /** One server instance: its hub, and its router's map from user to subscription. */
  datatype Node = Node(hub: HubState, subs: map<UserId, nat>)

  /** How the copy of a stored message first left its handler. */
  datatype Route = Local | Published(live: nat) | Unpublished

  datatype DmRecord = DmRecord(to: UserId, route: Route)

  /** History the tables do not hold: the addressee of each row, and who acknowledged which id. */
  datatype History = History(dms: seq<DmRecord>, acks: set<(MsgId, UserId)>)

  datatype World = World(db: Db, bus: BusState, node: Node, hist: History)

  function SendTo(w: World, user: UserId, p: Packet): World {
    w.(node := w.node.(hub := Send(w.node.hub, user, p).hub))
  }

  function Accepts(w: World, user: UserId, p: Packet): bool {
    Send(w.node.hub, user, p).ok
  }

  /** Local queue first, the user's channel otherwise. */
  function SendOrPublish(w: World, user: UserId, p: Packet, pubOk: bool): World {
    var w' := SendTo(w, user, p);
    if Accepts(w, user, p) || !pubOk then w' else w'.(bus := Publish(w.bus, user, p))
  }

  function RouteOf(w: World, user: UserId, p: Packet, pubOk: bool): Route {
    if Accepts(w, user, p) then Local
    else if pubOk then Published(LiveCount(w.bus.subs, user))
    else Unpublished
  }

  /** A direct message up to its copy: store the row, then the receiver's queue or channel. */
  function FirstCopy(w: World, chat: ChatId, from: UserId, to: UserId, body: string, now: int, pubOk: bool): World {
    var p := Message(|w.db.rows|, from, body, now);
    SendOrPublish(w.(db := InsertMessage(w.db, chat, from, body, now),
                     hist := w.hist.(dms := w.hist.dms + [DmRecord(to, RouteOf(w, to, p, pubOk))])),
                  to, p, pubOk)
  }

  /** The rest of the handler: mark a local delivery, then acknowledge to the sender. */
  function Finish(w: World, m: MsgId, route: Route, from: UserId, clientId: nat): World {
    match route
    case Unpublished => w  // the publish error ends the handler before the sender's ack
    case Published(_) => SendTo(w, from, SentAck(m, clientId))
    case Local => SendTo(w.(db := UpdateStatus(w.db, m, Delivered)), from, SentAck(m, clientId))
  }

  function DeliverDm(w: World, chat: ChatId, from: UserId, to: UserId, clientId: nat,
                     body: string, now: int, pubOk: bool): World
  {
    var m := |w.db.rows|;
    Finish(FirstCopy(w, chat, from, to, body, now, pubOk), m,
           RouteOf(w, to, Message(m, from, body, now), pubOk), from, clientId)
  }

  function HandleDm(w: World, from: UserId, to: UserId, clientId: nat, body: string, now: int,
                    pick: ChatId, pubOk: bool): World
  {
    match FindOrCreateChat(w.db, from, to, pick)
    case DuplicateMember => w
    case Found(db, chat) => DeliverDm(w.(db := db), chat, from, to, clientId, body, now, pubOk)
  }

  /** The read receipt: any id, from any user. The named sender, if any, is notified. */
  function HandleAck(w: World, reader: UserId, m: MsgId, notify: Option<UserId>, pubOk: bool): World {
    var w' := w.(db := UpdateStatus(w.db, m, Read), hist := w.hist.(acks := w.hist.acks + {(m, reader)}));
    match notify
    case None => w'
    case Some(user) => SendOrPublish(w', user, ReadNotice(m), pubOk)
  }

  /** The loop over the pending rows: offer, ignore the answer, mark delivered. */
  function Replay(hub: HubState, db: Db, user: UserId, batch: seq<MsgId>): (r: (HubState, Db))
    requires ValidIds(db, batch)
    ensures |r.1.rows| == |db.rows| && |r.0.chans| == |hub.chans|
    decreases |batch|
  {
    if batch == [] then (hub, db)
    else
      Replay(Send(hub, user, PacketOf(db, batch[0])).hub, UpdateStatus(db, batch[0], Delivered), user, batch[1..])
  }

  function SubscribeUser(w: World, inst: nat, user: UserId): World {
    w.(bus := BusSpec.Subscribe(w.bus, inst, user), node := w.node.(subs := w.node.subs[user := |w.bus.subs|]))
  }

  function UnsubscribeUser(w: World, user: UserId): World {
    if user in w.node.subs then
      w.(bus := Close(w.bus, w.node.subs[user]), node := w.node.(subs := w.node.subs - {user}))
    else w
  }

  /** Register, offer the pending rows, start both pumps. */
  function ConnectHub(h: HubState, db: Db, user: UserId, batch: seq<MsgId>): HubState
    requires ValidIds(db, batch)
  {
    StartPumps(Replay(Register(h, user), db, user, batch).0, |h.chans|)
  }

  function ConnectDb(h: HubState, db: Db, user: UserId, batch: seq<MsgId>): Db
    requires ValidIds(db, batch)
  {
    Replay(Register(h, user), db, user, batch).1
  }

  /** A whole connect. The hook subscribes before it reads the pending rows. */
  function Connect(w: World, inst: nat, user: UserId, batch: seq<MsgId>): World
    requires ValidIds(w.db, batch)
  {
    var h := w.node.hub;
    SubscribeUser(w.(db := ConnectDb(h, w.db, user, batch), node := w.node.(hub := ConnectHub(h, w.db, user, batch))),
                  inst, user)
  }

  /** The end of a reader: unregister that connection, then close the user's subscription. */
  function Disconnect(w: World, c: ClientId): World
    requires c < |w.node.hub.chans|
  {
    UnsubscribeUser(w.(node := w.node.(hub := EndReader(w.node.hub, c))), w.node.hub.chans[c].user)
  }

  datatype Sys = Sys(db: Db, bus: BusState, nodes: seq<Node>, hist: History)

  function Init(n: nat): Sys {
    Sys(EMPTY_DB, EMPTY_BUS, seq(n, _ => Node(EMPTY_HUB, map[])), History([], {}))
  }

  function At(s: Sys, i: nat): World
    requires i < |s.nodes|
  {
    World(s.db, s.bus, s.nodes[i], s.hist)
  }

  function Put(s: Sys, i: nat, w: World): Sys
    requires i < |s.nodes|
  {
    Sys(w.db, w.bus, s.nodes[i := w.node], w.hist)
  }

  datatype Event =
    | ConnectEv(inst: nat, user: UserId, batch: seq<MsgId>)
    | DisconnectEv(inst: nat, client: ClientId)
    | DmEv(inst: nat, from: UserId, to: UserId, clientId: nat, body: string, now: int, pick: ChatId, pubOk: bool)
    | AckEv(inst: nat, reader: UserId, mid: MsgId, notify: Option<UserId>, pubOk: bool)
    | HistoryEv(me: UserId, partner: UserId, chatPick: ChatId)
    | ForwardEv(flight: nat)
    | LoseEv(flight: nat)
    | WriteEv(inst: nat, client: ClientId, ok: bool)
    | MiscEv(inst: nat, to: UserId, notice: Notice, relay: bool)

  ghost predicate Enabled(s: Sys, e: Event) {
    match e
    case ConnectEv(i, u, batch) => i < |s.nodes| && ValidIds(s.db, batch) && IsPendingBatch(s.db, u, batch)
    case DisconnectEv(i, c) => i < |s.nodes| && c < |s.nodes[i].hub.chans| && s.nodes[i].hub.chans[c].reader == Running
    case DmEv(i, from, to, _, _, _, pick, _) => i < |s.nodes| && ValidPick(s.db, from, to, pick)
    case AckEv(i, _, m, _, _) => i < |s.nodes| && m < |s.db.rows|
    case HistoryEv(a, b, pick) => ValidPick(s.db, a, b, pick)
    case ForwardEv(k) => CanForward(s.bus, k) && s.bus.subs[s.bus.wire[k].sub].inst < |s.nodes|
    case LoseEv(k) => k < |s.bus.wire|
    case WriteEv(i, c, _) => i < |s.nodes| && CanWrite(s.nodes[i].hub, c)
    case MiscEv(i, _, _, _) => i < |s.nodes|
  }

  ghost function Apply(s: Sys, e: Event): Sys
    requires Enabled(s, e)
  {
    match e
    case ConnectEv(i, u, batch) => Put(s, i, Connect(At(s, i), i, u, batch))
    case DisconnectEv(i, c) => Put(s, i, Disconnect(At(s, i), c))
    case DmEv(i, from, to, clientId, body, now, pick, pubOk) =>
      Put(s, i, HandleDm(At(s, i), from, to, clientId, body, now, pick, pubOk))
    case AckEv(i, reader, m, notify, pubOk) => Put(s, i, HandleAck(At(s, i), reader, m, notify, pubOk))
    case HistoryEv(a, b, pick) =>
      (match FindOrCreateChat(s.db, a, b, pick)
       case Found(db, _) => s.(db := db)
       case DuplicateMember => s)
    case ForwardEv(k) =>
      var f := s.bus.wire[k];
      var sub := s.bus.subs[f.sub];
      var s' := s.(bus := Remove(s.bus, k));
      Put(s', sub.inst, SendTo(At(s', sub.inst), sub.user, f.packet))
    case LoseEv(k) => s.(bus := Remove(s.bus, k))
    case WriteEv(i, c, ok) =>
      s.(nodes := s.nodes[i := s.nodes[i].(hub := Write(s.nodes[i].hub, c, ok))])
    case MiscEv(i, u, notice, relay) => Put(s, i, SendOrPublish(At(s, i), u, Other(notice), relay))
  }

  /** An event whose guard does not hold changes nothing, so every sequence of events is a run. */
  ghost function Step(s: Sys, e: Event): Sys {
    if Enabled(s, e) then Apply(s, e) else s
  }

  ghost function Run(s: Sys, es: seq<Event>): Sys
    decreases |es|
  {
    if es == [] then s else Run(Step(s, es[0]), es[1..])
  }
}
