/** Accounting for a router's subscriptions over runs of connects and disconnects. */
module Subscriptions {
  import opened ChatTypes
  import opened HubSpec
  import opened DbSpec
  import opened BusSpec
  import opened Protocol
  import opened ProtocolSteps
  import opened NoLoss

  /** The live subscriptions of a user on one instance. */
  function LiveSet(b: BusState, i: nat, u: UserId): set<nat> {
    set k: nat | k < |b.subs| && b.subs[k] == Subscription(i, u, true)
  }

  function Mapped(s: Sys, i: nat, u: UserId): nat {
    if i < |s.nodes| && u in s.nodes[i].subs then 1 else 0
  }

  /** Hub changes that only sends and socket writes make: no new connection, no reader touched. */
  predicate KeepsReaders(h: HubState, h': HubState) {
    && |h'.chans| == |h.chans|
    && (forall c | 0 <= c < |h.chans| :: SameUser(h.chans[c], h'.chans[c]))
    && (forall u | u in h'.clients :: u in h.clients && h'.clients[u] == h.clients[u])
  }

  predicate NodeKeeps(n: Node, n': Node) {
    n'.subs == n.subs && KeepsReaders(n.hub, n'.hub)
  }

  predicate KeepsSubs(w: World, w': World) {
    w'.bus.subs == w.bus.subs && NodeKeeps(w.node, w'.node)
  }

  lemma SendKeepsReaders(h: HubState, user: UserId, p: Packet)
    requires HubOk(h)
    ensures KeepsReaders(h, Send(h, user, p).hub) && HubOk(Send(h, user, p).hub)
  {
    SendEffect(h, user, p);
    hide HubOk, Send;
    var h' := Send(h, user, p).hub;
    forall c | 0 <= c < |h.chans| ensures SameUser(h.chans[c], h'.chans[c]) {
      assert SameEnds(h.chans[c], h'.chans[c]);
    }
  }

  lemma SendKeepsSubs(w: World, user: UserId, p: Packet, pubOk: bool)
    requires HubOk(w.node.hub)
    ensures KeepsSubs(w, SendOrPublish(w, user, p, pubOk)) && HubOk(SendOrPublish(w, user, p, pubOk).node.hub)
    ensures KeepsSubs(w, SendTo(w, user, p)) && HubOk(SendTo(w, user, p).node.hub)
  {
    hide HubOk, Send, KeepsReaders, Copies;
    SendKeepsReaders(w.node.hub, user, p);
  }

  lemma KeepsSubsTwice(w0: World, w1: World, w2: World)
    requires KeepsSubs(w0, w1) && KeepsSubs(w1, w2)
    ensures KeepsSubs(w0, w2)
  {
    forall c | 0 <= c < |w0.node.hub.chans| ensures SameUser(w0.node.hub.chans[c], w2.node.hub.chans[c]) {
      assert SameUser(w0.node.hub.chans[c], w1.node.hub.chans[c]);
    }
  }

  lemma FirstCopyKeepsSubs(w: World, chat: ChatId, from: UserId, to: UserId, body: string, now: int, pubOk: bool)
    requires HubOk(w.node.hub)
    ensures var w' := FirstCopy(w, chat, from, to, body, now, pubOk); KeepsSubs(w, w') && HubOk(w'.node.hub)
  {
    hide HubOk, KeepsSubs, SendOrPublish, SendTo, RouteOf;
    var p := Message(|w.db.rows|, from, body, now);
    var w1 := w.(db := InsertMessage(w.db, chat, from, body, now),
                 hist := w.hist.(dms := w.hist.dms + [DmRecord(to, RouteOf(w, to, p, pubOk))]));
    SameHubKeepsSubs(w, w1);
    SendKeepsSubs(w1, to, p, pubOk);
    KeepsSubsTwice(w, w1, SendOrPublish(w1, to, p, pubOk));
  }

  lemma FinishKeepsSubs(w: World, m: MsgId, route: Route, from: UserId, clientId: nat)
    requires HubOk(w.node.hub)
    ensures KeepsSubs(w, Finish(w, m, route, from, clientId))
  {
    hide HubOk, KeepsSubs, SendOrPublish, SendTo;
    var w1 := w.(db := UpdateStatus(w.db, m, Delivered));
    NoChangeKeepsSubs(w);
    SendKeepsSubs(w, from, SentAck(m, clientId), false);
    SendKeepsSubs(w1, from, SentAck(m, clientId), false);
    SameHubKeepsSubs(w, w1);
    KeepsSubsTwice(w, w1, SendTo(w1, from, SentAck(m, clientId)));
  }

  lemma DmKeepsSubs(w: World, from: UserId, to: UserId, clientId: nat, body: string, now: int, pick: ChatId,
                    pubOk: bool)
    requires HubOk(w.node.hub)
    ensures KeepsSubs(w, HandleDm(w, from, to, clientId, body, now, pick, pubOk))
  {
    hide HubOk, KeepsSubs, FirstCopy, Finish, RouteOf, FindOrCreateChat;
    match FindOrCreateChat(w.db, from, to, pick)
    case DuplicateMember => NoChangeKeepsSubs(w);
    case Found(db, chat) =>
      var w1 := w.(db := db);
      var w2 := FirstCopy(w1, chat, from, to, body, now, pubOk);
      var w3 := HandleDm(w, from, to, clientId, body, now, pick, pubOk);
      SameHubKeepsSubs(w, w1);
      FirstCopyKeepsSubs(w1, chat, from, to, body, now, pubOk);
      FinishKeepsSubs(w2, |db.rows|, RouteOf(w1, to, Message(|db.rows|, from, body, now), pubOk), from, clientId);
      KeepsSubsTwice(w, w1, w2);
      KeepsSubsTwice(w, w2, w3);
  }

  lemma NoChangeKeepsSubs(w: World)
    ensures KeepsSubs(w, w)
  {}

  lemma SameHubKeepsSubs(w: World, w': World)
    requires w'.bus.subs == w.bus.subs && w'.node == w.node
    ensures KeepsSubs(w, w')
  {}

  lemma AckKeepsSubs(w: World, reader: UserId, m: MsgId, notify: Option<UserId>, pubOk: bool)
    requires HubOk(w.node.hub)
    ensures KeepsSubs(w, HandleAck(w, reader, m, notify, pubOk))
  {
    hide HubOk, KeepsSubs, SendOrPublish;
    var w1 := w.(db := UpdateStatus(w.db, m, Read), hist := w.hist.(acks := w.hist.acks + {(m, reader)}));
    SameHubKeepsSubs(w, w1);
    if notify.Some? {
      SendKeepsSubs(w1, notify.value, ReadNotice(m), pubOk);
      KeepsSubsTwice(w, w1, HandleAck(w, reader, m, notify, pubOk));
    }
  }

  /** A step that neither connects nor disconnects. */
  predicate SameSubs(s: Sys, s': Sys) {
    && |s'.nodes| == |s.nodes|
    && s'.bus.subs == s.bus.subs
    && forall i | 0 <= i < |s.nodes| :: NodeKeeps(s.nodes[i], s'.nodes[i])
  }

  lemma NodeKeepsSame(n: Node)
    ensures NodeKeeps(n, n)
  {}

  lemma PutSameSubs(s: Sys, i: nat, w: World)
    requires i < |s.nodes| && KeepsSubs(At(s, i), w)
    ensures SameSubs(s, Put(s, i, w))
  {
    hide NodeKeeps;
    var s' := Put(s, i, w);
    forall j | 0 <= j < |s.nodes| ensures NodeKeeps(s.nodes[j], s'.nodes[j]) {
      NodeKeepsSame(s.nodes[j]);
    }
  }

  lemma WriteKeepsSubs(w: World, c: ClientId, ok: bool)
    requires CanWrite(w.node.hub, c)
    ensures KeepsSubs(w, w.(node := w.node.(hub := Write(w.node.hub, c, ok))))
  {}

  lemma OtherKeepsSubsMap(s: Sys, e: Event)
    requires SysOk(s) && Enabled(s, e) && !e.ConnectEv? && !e.DisconnectEv?
    ensures SameSubs(s, Apply(s, e))
  {
    hide SysOk, HubOk, SendOrPublish, SendTo, HandleDm, HandleAck, Write, KeepsSubs, SameSubs, FindOrCreateChat,
      ValidPick;
    match e
    case DmEv(i, from, to, clientId, body, now, pick, pubOk) =>
      HubOf(s, i);
      DmKeepsSubs(At(s, i), from, to, clientId, body, now, pick, pubOk);
      PutSameSubs(s, i, HandleDm(At(s, i), from, to, clientId, body, now, pick, pubOk));
    case AckEv(i, reader, m, notify, pubOk) =>
      HubOf(s, i);
      AckKeepsSubs(At(s, i), reader, m, notify, pubOk);
      PutSameSubs(s, i, HandleAck(At(s, i), reader, m, notify, pubOk));
    case MiscEv(i, u, notice, relay) =>
      HubOf(s, i);
      SendKeepsSubs(At(s, i), u, Other(notice), relay);
      PutSameSubs(s, i, SendOrPublish(At(s, i), u, Other(notice), relay));
    case WriteEv(i, c, ok) =>
      WriteKeepsSubs(At(s, i), c, ok);
      PutSameSubs(s, i, At(s, i).(node := s.nodes[i].(hub := Write(s.nodes[i].hub, c, ok))));
    case ForwardEv(k) =>
      var sub := s.bus.subs[s.bus.wire[k].sub];
      var s1 := s.(bus := Remove(s.bus, k));
      HubOf(s, sub.inst);
      SendKeepsSubs(At(s1, sub.inst), sub.user, s.bus.wire[k].packet, false);
      SameHubKeepsSubs(At(s, sub.inst), At(s1, sub.inst));
      KeepsSubsTwice(At(s, sub.inst), At(s1, sub.inst), SendTo(At(s1, sub.inst), sub.user, s.bus.wire[k].packet));
      PutSameSubs(s, sub.inst, SendTo(At(s1, sub.inst), sub.user, s.bus.wire[k].packet));
    case LoseEv(_) => SameNodesSameSubs(s, Apply(s, e));
    case HistoryEv(_, _, _) => SameNodesSameSubs(s, Apply(s, e));
    case ConnectEv(_, _, _) =>
    case DisconnectEv(_, _) =>
  }

  lemma SameNodesSameSubs(s: Sys, s': Sys)
    requires s'.nodes == s.nodes && s'.bus.subs == s.bus.subs
    ensures SameSubs(s, s')
  {}

  /** How often a connect of the user found an entry already in the map, and so lost track of a subscription. */
  ghost function Overwrites(s: Sys, es: seq<Event>, i: nat, u: UserId): nat
    decreases |es|
  {
    if es == [] then 0
    else
      (if Enabled(s, es[0]) && es[0].ConnectEv? && es[0].inst == i && es[0].user == u then Mapped(s, i, u) else 0)
      + Overwrites(Step(s, es[0]), es[1..], i, u)
  }

  lemma LiveAppend(b: BusState, j: nat, v: UserId, i: nat, u: UserId)
    ensures LiveSet(BusSpec.Subscribe(b, j, v), i, u)
         == LiveSet(b, i, u) + if i == j && u == v then {|b.subs|} else {}
  {
    var b' := BusSpec.Subscribe(b, j, v);
    forall k: nat ensures k in LiveSet(b', i, u) <==> k in LiveSet(b, i, u) || (i == j && u == v && k == |b.subs|) {
      if k < |b.subs| {
        assert b'.subs[k] == b.subs[k];
      }
    }
  }

  lemma LiveClose(b: BusState, x: nat, i: nat, u: UserId)
    requires x < |b.subs|
    ensures LiveSet(Close(b, x), i, u) == LiveSet(b, i, u) - {x}
  {
    var b' := Close(b, x);
    forall k: nat ensures k in LiveSet(b', i, u) <==> k in LiveSet(b, i, u) && k != x {
      if k < |b.subs| && k != x {
        assert b'.subs[k] == b.subs[k];
      }
    }
  }

  lemma ConnectCounts(s: Sys, j: nat, v: UserId, w': World, batch: seq<MsgId>, i: nat, u: UserId)
    requires j < |s.nodes| && ValidIds(s.db, batch) && ConnectAdds(At(s, j), w', j, v, batch)
    ensures var s' := Put(s, j, w');
            if i == j && u == v
            then |LiveSet(s'.bus, i, u)| == |LiveSet(s.bus, i, u)| + 1 && Mapped(s', i, u) == 1
            else |LiveSet(s'.bus, i, u)| == |LiveSet(s.bus, i, u)| && Mapped(s', i, u) == Mapped(s, i, u)
  {
    LiveAppend(s.bus, j, v, i, u);
    assert |s.bus.subs| !in LiveSet(s.bus, i, u);
    hide HubConnects, MarksExactly, LiveSet, ValidIds, BusSpec.Subscribe;
    if i == j {
      assert Put(s, j, w').nodes[i].subs == s.nodes[j].subs[v := |s.bus.subs|];
    }
  }

  lemma UnsubscribeCounts(w: World, j: nat, v: UserId, i: nat, u: UserId)
    requires SubsOk(w.bus, w.node.subs, j)
    ensures var w' := UnsubscribeUser(w, v);
            && |LiveSet(w'.bus, i, u)| + (if i == j && u == v && v in w.node.subs then 1 else 0)
                == |LiveSet(w.bus, i, u)|
            && w'.node.subs == w.node.subs - {v}
  {
    if v in w.node.subs {
      var k := w.node.subs[v];
      assert w.bus.subs[k] == Subscription(j, v, true);
      LiveClose(w.bus, k, i, u);
      assert k in LiveSet(w.bus, i, u) <==> i == j && u == v;
      hide LiveSet, Close, SubsOk;
    } else {
      assert w.node.subs - {v} == w.node.subs;
    }
  }

  lemma DisconnectCounts(s: Sys, j: nat, c: ClientId, i: nat, u: UserId)
    requires j < |s.nodes| && c < |s.nodes[j].hub.chans| && SubsOk(s.bus, s.nodes[j].subs, j)
    ensures var s' := Put(s, j, Disconnect(At(s, j), c));
            && |LiveSet(s'.bus, i, u)| + Mapped(s, i, u) == |LiveSet(s.bus, i, u)| + Mapped(s', i, u)
            && (u in s'.nodes[j].subs <==> u in s.nodes[j].subs && u != s.nodes[j].hub.chans[c].user)
  {
    hide EndReader, LiveSet, UnsubscribeUser, SubsOk, Mapped;
    var v := s.nodes[j].hub.chans[c].user;
    var w := At(s, j).(node := s.nodes[j].(hub := EndReader(s.nodes[j].hub, c)));
    UnsubscribeCounts(w, j, v, i, u);
    MappedAfter(s, j, Disconnect(At(s, j), c), v, i, u);
  }

  lemma MappedAfter(s: Sys, j: nat, w: World, v: UserId, i: nat, u: UserId)
    requires j < |s.nodes| && w.node.subs == s.nodes[j].subs - {v}
    ensures Mapped(Put(s, j, w), i, u) + (if i == j && u == v && v in s.nodes[j].subs then 1 else 0) == Mapped(s, i, u)
  {
    if i < |s.nodes| && i != j {
      assert Put(s, j, w).nodes[i] == s.nodes[i];
    }
  }

  lemma StepCounts(s: Sys, e: Event, i: nat, u: UserId)
    requires SysOk(s)
    ensures var s' := Step(s, e);
            |LiveSet(s'.bus, i, u)| + Mapped(s, i, u)
            == |LiveSet(s.bus, i, u)| + Mapped(s', i, u) + Overwrites(s, [e], i, u)
  {
    hide SysOk, Apply, LiveSet, SameSubs;
    assert [e][1..] == [];
    if Enabled(s, e) {
      var s' := Apply(s, e);
      if e.ConnectEv? {
        hide ConnectAdds;
        ConnectShape(s, e);
        ConnectCounts(s, e.inst, e.user, At(s', e.inst), e.batch, i, u);
      } else if e.DisconnectEv? {
        SubsOf(s, e.inst);
        DisconnectCounts(s, e.inst, e.client, i, u);
        assert s' == Put(s, e.inst, Disconnect(At(s, e.inst), e.client)) by { DisconnectApplies(s, e); }
      } else {
        OtherKeepsSubsMap(s, e);
        SameSubsCount(s, s', i, u);
      }
    }
  }

  lemma DisconnectApplies(s: Sys, e: Event)
    requires Enabled(s, e) && e.DisconnectEv?
    ensures Apply(s, e) == Put(s, e.inst, Disconnect(At(s, e.inst), e.client))
  {
    hide Disconnect;
  }

  lemma SubsOf(s: Sys, i: nat)
    requires SysOk(s) && i < |s.nodes|
    ensures SubsOk(s.bus, s.nodes[i].subs, i)
  {
    hide HubOk, TablesOk;
    WorldOf(s, i);
  }

  lemma SameSubsCount(s: Sys, s': Sys, i: nat, u: UserId)
    requires SameSubs(s, s')
    ensures LiveSet(s'.bus, i, u) == LiveSet(s.bus, i, u) && Mapped(s', i, u) == Mapped(s, i, u)
  {
    if i < |s.nodes| {
      assert NodeKeeps(s.nodes[i], s'.nodes[i]);
    }
  }

  lemma {:induction false} RunCounts(s: Sys, es: seq<Event>, i: nat, u: UserId)
    requires SysOk(s)
    ensures var s' := Run(s, es);
            |LiveSet(s'.bus, i, u)| + Mapped(s, i, u)
            == |LiveSet(s.bus, i, u)| + Mapped(s', i, u) + Overwrites(s, es, i, u)
    decreases |es|
  {
    hide SysOk, Step, Enabled, LiveSet, Mapped;
    if es != [] {
      StepCounts(s, es[0], i, u);
      StepKeepsSys(s, es[0]);
      RunCounts(Step(s, es[0]), es[1..], i, u);
      assert [es[0]][1..] == [];
    }
  }

  /**
   Subscription accounting: after every run, a user's live subscriptions on an instance are the mapped one,
   if any, and one leaked for each connect that found an entry already present.
   */
  lemma LiveSubscriptionsAreAccountedFor(n: nat, es: seq<Event>, i: nat, u: UserId)
    ensures var s := Run(Init(n), es);
            |LiveSet(s.bus, i, u)| == Mapped(s, i, u) + Overwrites(Init(n), es, i, u)
  {
    hide Run, SysOk, Overwrites;
    InitOk(n);
    RunCounts(Init(n), es, i, u);
    assert LiveSet(Init(n).bus, i, u) == {};
  }

  // ---- at most one connection per user and instance

  predicate Reading(h: HubState, c: ClientId, u: UserId) {
    c < |h.chans| && h.chans[c].user == u && h.chans[c].reader == Running
  }

  ghost predicate HasReader(h: HubState, u: UserId) {
    exists c: ClientId :: Reading(h, c, u)
  }

  /** Along the run, a user connects to an instance only when none of his readers there still runs. */
  ghost predicate OneAtATime(s: Sys, es: seq<Event>)
    decreases |es|
  {
    es != [] ==>
      && (Enabled(s, es[0]) && es[0].ConnectEv? ==> !HasReader(s.nodes[es[0].inst].hub, es[0].user))
      && OneAtATime(Step(s, es[0]), es[1..])
  }

  /** One reader per user, a subscription exactly while it runs, and no hub entry without it. */
  ghost predicate NodeSingle(n: Node) {
    && (forall c: ClientId, d: ClientId, u | Reading(n.hub, c, u) && Reading(n.hub, d, u) :: c == d)
    && (forall u :: u in n.subs <==> HasReader(n.hub, u))
    && (forall u | u in n.hub.clients :: Reading(n.hub, n.hub.clients[u], u))
  }

  ghost predicate Single(s: Sys) {
    forall i | 0 <= i < |s.nodes| :: NodeSingle(s.nodes[i])
  }

  lemma KeepsReading(h: HubState, h': HubState)
    requires KeepsReaders(h, h')
    ensures forall c: ClientId, u :: Reading(h', c, u) <==> Reading(h, c, u)
    ensures forall u :: HasReader(h', u) <==> HasReader(h, u)
  {
    forall c: ClientId, u ensures Reading(h', c, u) <==> Reading(h, c, u) {
      if c < |h.chans| {
        assert SameUser(h.chans[c], h'.chans[c]);
      }
    }
    hide Reading;
    forall u ensures HasReader(h', u) <==> HasReader(h, u) {
      if HasReader(h, u) {
        var c: ClientId :| Reading(h, c, u);
        assert Reading(h', c, u);
      }
      if HasReader(h', u) {
        var c: ClientId :| Reading(h', c, u);
        assert Reading(h, c, u);
      }
    }
  }

  lemma SameSubsKeepsSingle(n: Node, n': Node)
    requires NodeSingle(n) && n'.subs == n.subs && KeepsReaders(n.hub, n'.hub)
    ensures NodeSingle(n')
  {
    KeepsReading(n.hub, n'.hub);
    hide Reading, HasReader;
    assert forall u | u in n'.hub.clients :: u in n.hub.clients && n'.hub.clients[u] == n.hub.clients[u];
  }

  lemma ConnectReading(h: HubState, h': HubState, db: Db, user: UserId, batch: seq<MsgId>, c: ClientId, u: UserId)
    requires ValidIds(db, batch) && HubConnects(h, h', db, user, batch)
    ensures Reading(h', c, u) <==> Reading(h, c, u) || (c == |h.chans| && u == user)
  {
    if c < |h.chans| {
      assert SameUser(h.chans[c], h'.chans[c]);
    }
  }

  lemma ConnectKeepsSingle(n: Node, n': Node, db: Db, user: UserId, batch: seq<MsgId>, sub: nat)
    requires NodeSingle(n) && !HasReader(n.hub, user)
    requires ValidIds(db, batch) && HubConnects(n.hub, n'.hub, db, user, batch) && n'.subs == n.subs[user := sub]
    ensures NodeSingle(n')
  {
    var k := |n.hub.chans|;
    forall c: ClientId, u ensures Reading(n'.hub, c, u) <==> Reading(n.hub, c, u) || (c == k && u == user) {
      ConnectReading(n.hub, n'.hub, db, user, batch, c, u);
    }
    assert n'.hub.clients == n.hub.clients[user := k];
    hide Reading, HubConnects;
    assert forall c: ClientId :: !Reading(n.hub, c, user);
    forall u ensures u in n'.subs <==> HasReader(n'.hub, u) {
      if u == user {
        assert Reading(n'.hub, k, user);
      } else if HasReader(n.hub, u) {
        var c: ClientId :| Reading(n.hub, c, u);
        assert Reading(n'.hub, c, u);
      }
    }
  }

  lemma EndReading(h: HubState, c: ClientId, d: ClientId, u: UserId)
    requires c < |h.chans|
    ensures Reading(EndReader(h, c), d, u) <==> Reading(h, d, u) && d != c
  {}

  lemma EndReaderClients(h: HubState, c: ClientId, u: UserId)
    requires c < |h.chans|
    ensures u in EndReader(h, c).clients <==> u in h.clients && !(h.chans[c].user == u && h.clients[u] == c)
    ensures u in EndReader(h, c).clients ==> EndReader(h, c).clients[u] == h.clients[u]
  {}

  lemma EndKeepsReaders(h: HubState, c: ClientId)
    requires c < |h.chans|
    ensures forall d: ClientId, u :: Reading(EndReader(h, c), d, u) <==> Reading(h, d, u) && d != c
  {
    forall d: ClientId, u ensures Reading(EndReader(h, c), d, u) <==> Reading(h, d, u) && d != c {
      EndReading(h, c, d, u);
    }
  }

  lemma EndKeepsMapped(h: HubState, c: ClientId)
    requires c < |h.chans| && forall u | u in h.clients :: Reading(h, h.clients[u], u)
    ensures forall u | u in EndReader(h, c).clients :: Reading(EndReader(h, c), EndReader(h, c).clients[u], u)
  {
    EndKeepsReaders(h, c);
    forall u | u in EndReader(h, c).clients ensures Reading(EndReader(h, c), EndReader(h, c).clients[u], u) {
      EndReaderClients(h, c, u);
    }
  }

  lemma DisconnectKeepsSingle(n: Node, n': Node, c: ClientId)
    requires NodeSingle(n) && c < |n.hub.chans| && n.hub.chans[c].reader == Running
    requires n'.hub == EndReader(n.hub, c)
    requires forall u :: u in n'.subs <==> u in n.subs && u != n.hub.chans[c].user
    ensures NodeSingle(n')
  {
    var v := n.hub.chans[c].user;
    assert Reading(n.hub, c, v);
    assert forall u | Reading(n.hub, c, u) :: u == v;
    hide EndReader, Reading;
    EndKeepsReaders(n.hub, c);
    EndKeepsMapped(n.hub, c);
    DisconnectedReaders(n, n', c, v);
  }

  lemma DisconnectedReaders(n: Node, n': Node, c: ClientId, v: UserId)
    requires NodeSingle(n) && Reading(n.hub, c, v)
    requires forall u | Reading(n.hub, c, u) :: u == v
    requires forall d: ClientId, u :: Reading(n'.hub, d, u) <==> Reading(n.hub, d, u) && d != c
    requires forall u :: u in n'.subs <==> u in n.subs && u != v
    ensures forall u :: u in n'.subs <==> HasReader(n'.hub, u)
  {
    hide Reading;
    forall u ensures u in n'.subs <==> HasReader(n'.hub, u) {
      if HasReader(n'.hub, u) {
        var d: ClientId :| Reading(n'.hub, d, u);
        assert Reading(n.hub, d, u);
      }
      if u != v && HasReader(n.hub, u) {
        var d: ClientId :| Reading(n.hub, d, u);
        assert Reading(n'.hub, d, u);
      }
    }
  }

  lemma StepKeepsSingle(s: Sys, e: Event)
    requires SysOk(s) && Single(s)
    requires Enabled(s, e) && e.ConnectEv? ==> !HasReader(s.nodes[e.inst].hub, e.user)
    ensures Single(Step(s, e))
  {
    hide SysOk, Apply, NodeSingle, HasReader, SubsOk, KeepsReaders, HubConnects, MarksExactly, IsPendingBatch;
    if Enabled(s, e) {
      var s' := Apply(s, e);
      if e.ConnectEv? {
        ConnectShape(s, e);
        ConnectKeepsSingle(s.nodes[e.inst], s'.nodes[e.inst], s.db, e.user, e.batch, |s.bus.subs|);
      } else if e.DisconnectEv? {
        SubsOf(s, e.inst);
        DisconnectApplies(s, e);
        forall u
          ensures u in s'.nodes[e.inst].subs
             <==> u in s.nodes[e.inst].subs && u != s.nodes[e.inst].hub.chans[e.client].user
        {
          DisconnectCounts(s, e.inst, e.client, e.inst, u);
        }
        DisconnectHub(At(s, e.inst), e.client);
        DisconnectKeepsSingle(s.nodes[e.inst], s'.nodes[e.inst], e.client);
      } else {
        OtherKeepsSubsMap(s, e);
        forall i | 0 <= i < |s'.nodes| ensures NodeSingle(s'.nodes[i]) {
          assert NodeKeeps(s.nodes[i], s'.nodes[i]);
          SameSubsKeepsSingle(s.nodes[i], s'.nodes[i]);
        }
      }
    }
  }

  lemma DisconnectHub(w: World, c: ClientId)
    requires c < |w.node.hub.chans|
    ensures Disconnect(w, c).node.hub == EndReader(w.node.hub, c)
  {
    hide EndReader;
  }

  lemma {:induction false} RunKeepsSingle(s: Sys, es: seq<Event>, i: nat, u: UserId)
    requires SysOk(s) && Single(s) && OneAtATime(s, es)
    ensures Single(Run(s, es)) && Overwrites(s, es, i, u) == 0
    decreases |es|
  {
    hide SysOk, Single, Apply, Enabled, HasReader;
    if es != [] {
      var e := es[0];
      StepKeepsSingle(s, e);
      StepKeepsSys(s, e);
      RunKeepsSingle(Step(s, e), es[1..], i, u);
      if Enabled(s, e) && e.ConnectEv? && e.inst == i && e.user == u {
        EnabledInst(s, e);
        NoReaderNoEntry(s, i, u);
      }
    }
  }

  lemma EnabledInst(s: Sys, e: Event)
    requires Enabled(s, e) && e.ConnectEv?
    ensures e.inst < |s.nodes|
  {}

  lemma NoReaderNoEntry(s: Sys, i: nat, u: UserId)
    requires Single(s) && i < |s.nodes| && !HasReader(s.nodes[i].hub, u)
    ensures Mapped(s, i, u) == 0
  {
    assert NodeSingle(s.nodes[i]);
  }

  /**
   With never more than one connection per user and instance, no subscription leaks and every
   user in a hub has exactly one live subscription there.
   */
  lemma OneConnectionNoLeak(n: nat, es: seq<Event>, i: nat, u: UserId)
    requires OneAtATime(Init(n), es)
    ensures var s := Run(Init(n), es);
            && |LiveSet(s.bus, i, u)| == Mapped(s, i, u)
            && (i < |s.nodes| && u in s.nodes[i].hub.clients ==> |LiveSet(s.bus, i, u)| == 1)
  {
    hide Run, SysOk, Single, OneAtATime, LiveSet, Init;
    InitOk(n);
    InitSingle(n);
    RunKeepsSingle(Init(n), es, i, u);
    LiveSubscriptionsAreAccountedFor(n, es, i, u);
    var s := Run(Init(n), es);
    if i < |s.nodes| && u in s.nodes[i].hub.clients {
      SingleHasEntry(s, i, u);
    }
  }

  lemma InitSingle(n: nat)
    ensures Single(Init(n))
  {}

  lemma SingleHasEntry(s: Sys, i: nat, u: UserId)
    requires Single(s) && i < |s.nodes| && u in s.nodes[i].hub.clients
    ensures Mapped(s, i, u) == 1
  {
    assert NodeSingle(s.nodes[i]);
    assert Reading(s.nodes[i].hub, s.nodes[i].hub.clients[u], u);
  }
}
