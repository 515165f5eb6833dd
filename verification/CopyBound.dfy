/** How often one direct message can be enqueued in a whole run: local delivery, published copies and replays. */
module CopyBound {
  import opened ChatTypes
  import opened HubSpec
  import opened DbSpec
  import opened BusSpec
  import opened Protocol
  import opened ProtocolSteps
  import opened NoLoss

  function One(p: Packet, m: MsgId): nat {
    if p.Message? && p.mid == m then 1 else 0
  }

  /** Copies of row m that queues of one hub accepted. */
  function CountLog(log: seq<Accept>, m: MsgId): nat {
    if log == [] then 0 else CountLog(log[..|log| - 1], m) + One(log[|log| - 1].packet, m)
  }

  /** Copies of row m on their way to a forwarder. */
  function CountWire(wire: seq<Flight>, m: MsgId): nat {
    if wire == [] then 0 else CountWire(wire[..|wire| - 1], m) + One(wire[|wire| - 1].packet, m)
  }

  /** Copies of row m enqueued so far, over all instances. */
  function Enqueued(nodes: seq<Node>, m: MsgId): nat {
    if nodes == [] then 0
    else Enqueued(nodes[..|nodes| - 1], m) + CountLog(nodes[|nodes| - 1].hub.log, m)
  }

  lemma {:induction false} CountLogConcat(a: seq<Accept>, b: seq<Accept>, m: MsgId)
    ensures CountLog(a + b, m) == CountLog(a, m) + CountLog(b, m)
  {
    if b == [] {
      assert a + b == a;
    } else {
      var k := |b| - 1;
      CountLogConcat(a, b[..k], m);
      assert (a + b)[..|a + b| - 1] == a + b[..k];
    }
  }

  lemma {:induction false} CountWireConcat(a: seq<Flight>, b: seq<Flight>, m: MsgId)
    ensures CountWire(a + b, m) == CountWire(a, m) + CountWire(b, m)
  {
    if b == [] {
      assert a + b == a;
    } else {
      var k := |b| - 1;
      CountWireConcat(a, b[..k], m);
      assert (a + b)[..|a + b| - 1] == a + b[..k];
    }
  }

  lemma CountRemove(wire: seq<Flight>, k: nat, m: MsgId)
    requires k < |wire|
    ensures CountWire(wire, m) == CountWire(wire[..k] + wire[k + 1..], m) + One(wire[k].packet, m)
  {
    assert wire == wire[..k] + ([wire[k]] + wire[k + 1..]);
    CountWireConcat(wire[..k], [wire[k]] + wire[k + 1..], m);
    CountWireConcat([wire[k]], wire[k + 1..], m);
    CountWireConcat(wire[..k], wire[k + 1..], m);
  }

  lemma {:induction false} EnqueuedPut(nodes: seq<Node>, i: nat, node: Node, m: MsgId)
    requires i < |nodes|
    ensures Enqueued(nodes[i := node], m) + CountLog(nodes[i].hub.log, m)
         == Enqueued(nodes, m) + CountLog(node.hub.log, m)
  {
    var last := |nodes| - 1;
    if i == last {
      assert nodes[i := node][..last] == nodes[..last];
    } else {
      EnqueuedPut(nodes[..last], i, node, m);
      assert nodes[i := node][..last] == nodes[..last][i := node];
    }
  }

  lemma {:induction false} FreshCount(log: seq<Accept>, wire: seq<Flight>, n: nat, m: MsgId)
    requires FreshLog(log, n) && FreshWire(wire, n) && n <= m
    ensures CountLog(log, m) == 0 && CountWire(wire, m) == 0
    decreases |log| + |wire|
  {
    if log != [] {
      assert MidOf(log[|log| - 1].packet) < n;
      FreshCount(log[..|log| - 1], [], n, m);
    }
    if wire != [] {
      assert MidOf(wire[|wire| - 1].packet) < n;
      FreshCount([], wire[..|wire| - 1], n, m);
    }
  }

  lemma {:induction false} FreshEnqueued(nodes: seq<Node>, n: nat, m: MsgId)
    requires forall i | 0 <= i < |nodes| :: FreshLog(nodes[i].hub.log, n)
    requires n <= m
    ensures Enqueued(nodes, m) == 0
  {
    if nodes != [] {
      FreshCount(nodes[|nodes| - 1].hub.log, [], n, m);
      FreshEnqueued(nodes[..|nodes| - 1], n, m);
    }
  }

  lemma {:induction false} CopiesCarry(subs: seq<Subscription>, user: UserId, p: Packet, m: MsgId)
    ensures CountWire(Copies(subs, user, p), m) == if One(p, m) == 1 then LiveCount(subs, user) else 0
  {
    if subs != [] {
      var k := |subs| - 1;
      CopiesCarry(subs[..k], user, p, m);
      if subs[k].live && subs[k].user == user {
        CountWireConcat(Copies(subs[..k], user, p), [Flight(k, p)], m);
      } else {
        assert Copies(subs[..k], user, p) + [] == Copies(subs[..k], user, p);
      }
    }
  }

  lemma {:induction false} ReplayCopies(db: Db, c: ClientId, user: UserId, batch: seq<MsgId>, m: MsgId)
    requires ValidIds(db, batch) && Distinct(batch)
    ensures CountLog(ReplayLog(db, c, user, batch), m) == if m in batch then 1 else 0
    decreases |batch|
  {
    if batch != [] {
      var k := |batch| - 1;
      var log := ReplayLog(db, c, user, batch);
      assert log[..k] == ReplayLog(db, c, user, batch[..k]);
      ReplayCopies(db, c, user, batch[..k], m);
      assert batch == batch[..k] + [batch[k]];
      if m == batch[k] {
        assert m !in batch[..k];
      }
    }
  }

  // ---- the potential of a row: copies enqueued, copies in flight, and one replay while it is pending

  function Potential(s: Sys, m: nat): nat
    requires m < |s.db.rows|
  {
    Enqueued(s.nodes, m) + CountWire(s.bus.wire, m) + if s.db.rows[m].status == Sent then 1 else 0
  }

  function Bound(route: Route): nat {
    match route
    case Local => 1
    case Unpublished => 1
    case Published(live) => live + 1
  }

  predicate RowBounded(s: Sys, m: nat)
    requires m < |s.db.rows| && |s.hist.dms| == |s.db.rows|
  {
    && Potential(s, m) <= Bound(s.hist.dms[m].route)
    && (s.hist.dms[m].route == Local ==> 1 <= Enqueued(s.nodes, m))
  }

  predicate Bounded(s: Sys) {
    |s.hist.dms| == |s.db.rows| && forall m: nat | m < |s.db.rows| :: RowBounded(s, m)
  }

  /** A step may only lower a row's potential, and never un-enqueues a copy. */
  predicate Spends(s: Sys, s': Sys, m: nat)
    requires m < |s.db.rows| <= |s'.db.rows|
  {
    Potential(s', m) <= Potential(s, m) && Enqueued(s.nodes, m) <= Enqueued(s'.nodes, m)
  }

  lemma {:induction false} NoCopies(log: seq<Accept>, wire: seq<Flight>, m: MsgId)
    requires forall k | 0 <= k < |log| :: One(log[k].packet, m) == 0
    requires forall k | 0 <= k < |wire| :: One(wire[k].packet, m) == 0
    ensures CountLog(log, m) == 0 && CountWire(wire, m) == 0
    decreases |log| + |wire|
  {
    if log != [] {
      NoCopies(log[..|log| - 1], [], m);
    }
    if wire != [] {
      NoCopies([], wire[..|wire| - 1], m);
    }
  }

  /** The copies a direct message leaves behind are copies of its own row. */
  lemma LocalCopyCounts(w: World, to: UserId, p: Packet, route: Route, m: MsgId)
    requires p.Message? && (route == Local ==> to in w.node.hub.clients)
    ensures CountLog(LocalCopy(w, to, p, route), m) == if m == p.mid && route == Local then 1 else 0
  {
    var copy := LocalCopy(w, to, p, route);
    if copy != [] {
      assert copy[..0] == [];
    }
  }

  lemma AckCounts(log: seq<Accept>, log': seq<Accept>, from: UserId, n: MsgId, clientId: nat, m: MsgId)
    requires LogAddsAck(log, log', from, n, clientId)
    ensures CountLog(log', m) == CountLog(log, m)
  {
    if log' != log {
      var c: ClientId :| log' == log + [Accept(c, from, SentAck(n, clientId))];
      CountLogConcat(log, [Accept(c, from, SentAck(n, clientId))], m);
    }
  }

  lemma DmAddsCopies(w: World, w': World, chat: ChatId, from: UserId, to: UserId, clientId: nat,
                     body: string, now: int, pubOk: bool, m: nat)
    requires DmAdds(w, w', chat, from, to, clientId, body, now, pubOk) && m <= |w.db.rows|
    ensures |w'.db.rows| == |w.db.rows| + 1 && |w'.hist.dms| == |w.hist.dms| + 1
    ensures m < |w.db.rows| ==> w'.db.rows[m] == w.db.rows[m]
    ensures var n := |w.db.rows|;
            var route := w'.hist.dms[|w.hist.dms|].route;
            && w'.hist.dms == w.hist.dms + [DmRecord(to, route)]
            && (w'.db.rows[n].status == Sent <==> route != Local)
            && CountLog(w'.node.hub.log, m) == CountLog(w.node.hub.log, m) + (if m == n && route == Local then 1 else 0)
            && CountWire(w'.bus.wire, m)
                == CountWire(w.bus.wire, m) + (if m == n && route.Published? then route.live else 0)
  {
    hide Send, LogAddsAck, LocalCopy, CountLog, CountWire;
    var n := |w.db.rows|;
    var p := Message(n, from, body, now);
    var route := RouteOf(w, to, p, pubOk);
    var copy := LocalCopy(w, to, p, route);
    CountLogConcat(w.node.hub.log, copy, m);
    LocalCopyCounts(w, to, p, route, m);
    AckCounts(w.node.hub.log + copy, w'.node.hub.log, from, n, clientId, m);
    CountWireConcat(w.bus.wire, WireCopies(w, to, p, route), m);
    WireCounts(w, to, p, route, m);
  }

  lemma WireCounts(w: World, to: UserId, p: Packet, route: Route, m: nat)
    requires p.Message? && 0 <= p.mid && (route.Published? ==> route.live == LiveCount(w.bus.subs, to))
    ensures CountWire(WireCopies(w, to, p, route), m) == if m == p.mid && route.Published? then route.live else 0
  {
    CopiesCarry(w.bus.subs, to, p, m);
  }

  lemma DmKeepsRow(s: Sys, i: nat, w': World, chat: ChatId, from: UserId, to: UserId, clientId: nat,
                   body: string, now: int, pubOk: bool, m: nat)
    requires i < |s.nodes| && DmAdds(At(s, i), w', chat, from, to, clientId, body, now, pubOk)
    requires |s.hist.dms| == |s.db.rows| && m <= |s.db.rows| && (m < |s.db.rows| ==> RowBounded(s, m))
    requires m == |s.db.rows| ==> Enqueued(s.nodes, m) == 0 && CountWire(s.bus.wire, m) == 0
    ensures |w'.hist.dms| == |w'.db.rows| == |s.db.rows| + 1
    ensures RowBounded(Put(s, i, w'), m)
  {
    hide DmAdds, Enqueued, CountLog, CountWire;
    DmAddsCopies(At(s, i), w', chat, from, to, clientId, body, now, pubOk, m);
    EnqueuedPut(s.nodes, i, w'.node, m);
  }

  lemma FreshRow(s: Sys)
    requires SysOk(s)
    ensures Enqueued(s.nodes, |s.db.rows|) == 0 && CountWire(s.bus.wire, |s.db.rows|) == 0
  {
    forall j | 0 <= j < |s.nodes| ensures FreshLog(s.nodes[j].hub.log, |s.db.rows|) {
      assert WorldOk(At(s, j), j);
    }
    hide HubOk, TablesOk;
    FreshEnqueued(s.nodes, |s.db.rows|, |s.db.rows|);
    FreshCount([], s.bus.wire, |s.db.rows|, |s.db.rows|);
  }

  lemma DmSpends(s: Sys, e: Event)
    requires SysOk(s) && Enabled(s, e) && e.DmEv? && Bounded(s)
    ensures Bounded(Apply(s, e))
  {
    hide DmAdds, SysOk, Apply, Enabled;
    DmShape(s, e);
    FreshRow(s);
    var s' := Apply(s, e);
    match FindOrCreateChat(s.db, e.from, e.to, e.pick)
    case DuplicateMember =>
    case Found(db, chat) =>
      var w' := At(s', e.inst);
      DmKeepsRow(s, e.inst, w', chat, e.from, e.to, e.clientId, e.body, e.now, e.pubOk, |s.db.rows|);
      forall m: nat | m < |s'.db.rows| ensures RowBounded(s', m) {
        DmKeepsRow(s, e.inst, w', chat, e.from, e.to, e.clientId, e.body, e.now, e.pubOk, m);
      }
  }

  /** Logs and wire that gain no copy of the row leave its count alone. */
  lemma SilentStep(s: Sys, s': Sys, i: nat, m: MsgId)
    requires i < |s.nodes| && |s'.nodes| == |s.nodes| && s'.nodes == s.nodes[i := s'.nodes[i]]
    requires s.nodes[i].hub.log <= s'.nodes[i].hub.log && s.bus.wire <= s'.bus.wire
    requires forall k | |s.nodes[i].hub.log| <= k < |s'.nodes[i].hub.log| :: One(s'.nodes[i].hub.log[k].packet, m) == 0
    requires forall k | |s.bus.wire| <= k < |s'.bus.wire| :: One(s'.bus.wire[k].packet, m) == 0
    ensures Enqueued(s'.nodes, m) == Enqueued(s.nodes, m) && CountWire(s'.bus.wire, m) == CountWire(s.bus.wire, m)
  {
    var log, wire := s'.nodes[i].hub.log[|s.nodes[i].hub.log|..], s'.bus.wire[|s.bus.wire|..];
    assert s'.nodes[i].hub.log == s.nodes[i].hub.log + log && s'.bus.wire == s.bus.wire + wire;
    NoCopies(log, wire, m);
    EnqueuedPut(s.nodes, i, s'.nodes[i], m);
    CountLogConcat(s.nodes[i].hub.log, log, m);
    CountWireConcat(s.bus.wire, wire, m);
  }

  lemma AckIsSilent(w: World, w': World, reader: UserId, m: MsgId, x: MsgId)
    requires AckAdds(w, w', reader, m)
    ensures w.node.hub.log <= w'.node.hub.log && w.bus.wire <= w'.bus.wire
    ensures forall k | |w.node.hub.log| <= k < |w'.node.hub.log| :: One(w'.node.hub.log[k].packet, x) == 0
    ensures forall k | |w.bus.wire| <= k < |w'.bus.wire| :: One(w'.bus.wire[k].packet, x) == 0
  {}

  lemma AckSpendsAt(s: Sys, i: nat, w': World, reader: UserId, mid: MsgId, m: nat)
    requires i < |s.nodes| && AckAdds(At(s, i), w', reader, mid) && m < |s.db.rows|
    ensures |w'.db.rows| == |s.db.rows| && Spends(s, Put(s, i, w'), m)
  {
    hide AckAdds, Enqueued, CountWire;
    AckIsSilent(At(s, i), w', reader, mid, m);
    SilentStep(s, Put(s, i, w'), i, m);
    AckDb(At(s, i), w', reader, mid);
  }

  lemma AckSpends(s: Sys, e: Event, m: nat)
    requires SysOk(s) && Enabled(s, e) && e.AckEv? && m < |s.db.rows|
    ensures |Apply(s, e).db.rows| == |s.db.rows| && Spends(s, Apply(s, e), m)
  {
    hide AckAdds, SysOk, Apply, Enabled, Spends;
    AckShape(s, e);
    AckSpendsAt(s, e.inst, At(Apply(s, e), e.inst), e.reader, e.mid, m);
  }

  lemma AckDb(w: World, w': World, reader: UserId, m: MsgId)
    requires AckAdds(w, w', reader, m)
    ensures w'.db == UpdateStatus(w.db, m, Read)
  {}

  lemma ConnectSpendsAt(s: Sys, i: nat, w': World, user: UserId, batch: seq<MsgId>, m: nat)
    requires i < |s.nodes| && ValidIds(s.db, batch) && ConnectAdds(At(s, i), w', i, user, batch)
    requires m < |s.db.rows| && Distinct(batch) && (m in batch ==> IsPending(s.db, user, m))
    ensures |w'.db.rows| == |s.db.rows| && Spends(s, Put(s, i, w'), m)
  {
    hide Enqueued, CountLog, ReplayLog, Distinct;
    var h := s.nodes[i].hub;
    var log := ReplayLog(s.db, |h.chans|, user, batch);
    ReplayCopies(s.db, |h.chans|, user, batch, m);
    EnqueuedPut(s.nodes, i, w'.node, m);
    CountLogConcat(h.log, log, m);
    assert w'.db.rows[m] == if m in batch then s.db.rows[m].(status := Delivered) else s.db.rows[m];
  }

  lemma ConnectSpends(s: Sys, e: Event, m: nat)
    requires SysOk(s) && Enabled(s, e) && e.ConnectEv? && m < |s.db.rows|
    ensures |Apply(s, e).db.rows| == |s.db.rows| && Spends(s, Apply(s, e), m)
  {
    hide SysOk, Apply, Spends, ConnectAdds, IsPending, Distinct, IsPendingBatch;
    BatchPends(s.db, e.user, e.batch, m);
    ConnectShape(s, e);
    ConnectSpendsAt(s, e.inst, At(Apply(s, e), e.inst), e.user, e.batch, m);
  }

  lemma DisconnectSpendsAt(s: Sys, i: nat, w': World, m: nat)
    requires i < |s.nodes| && DisconnectAdds(At(s, i), w') && m < |s.db.rows|
    ensures |w'.db.rows| == |s.db.rows| && Spends(s, Put(s, i, w'), m)
  {
    SilentStep(s, Put(s, i, w'), i, m);
  }

  lemma DisconnectSpends(s: Sys, e: Event, m: nat)
    requires SysOk(s) && Enabled(s, e) && e.DisconnectEv? && m < |s.db.rows|
    ensures |Apply(s, e).db.rows| == |s.db.rows| && Spends(s, Apply(s, e), m)
  {
    hide SysOk, WorldOk, Spends, DisconnectAdds, Disconnect, Evolves;
    WorldOf(s, e.inst);
    DisconnectKeeps(At(s, e.inst), e.inst, e.client);
    DisconnectSpendsAt(s, e.inst, Disconnect(At(s, e.inst), e.client), m);
  }

  lemma SendCount(h: HubState, user: UserId, p: Packet, m: MsgId)
    requires HubOk(h)
    ensures CountLog(h.log, m) <= CountLog(Send(h, user, p).hub.log, m) <= CountLog(h.log, m) + One(p, m)
  {
    SendEffect(h, user, p);
    var d := if Send(h, user, p).ok then [Accept(h.clients[user], user, p)] else [];
    CountLogConcat(h.log, d, m);
    assert CountLog(d, m) <= One(p, m) by {
      if d != [] {
        assert d[..0] == [];
      }
    }
  }

  lemma ForwardSpendsAt(s: Sys, k: nat, i: nat, user: UserId, m: nat)
    requires k < |s.bus.wire| && i < |s.nodes| && HubOk(s.nodes[i].hub) && m < |s.db.rows|
    ensures var s1 := s.(bus := Remove(s.bus, k));
            Spends(s, Put(s1, i, SendTo(At(s1, i), user, s.bus.wire[k].packet)), m)
  {
    hide HubOk, Send, Enqueued, CountLog, CountWire;
    var p := s.bus.wire[k].packet;
    SendCount(s.nodes[i].hub, user, p, m);
    CountRemove(s.bus.wire, k, m);
    var node := s.nodes[i].(hub := Send(s.nodes[i].hub, user, p).hub);
    EnqueuedPut(s.nodes, i, node, m);
    var s1 := s.(bus := Remove(s.bus, k));
    assert Put(s1, i, SendTo(At(s1, i), user, p)) == s1.(nodes := s.nodes[i := node]);
  }

  lemma ForwardSpends(s: Sys, k: nat, m: nat)
    requires SysOk(s) && Enabled(s, ForwardEv(k)) && m < |s.db.rows|
    ensures var s' := Apply(s, ForwardEv(k)); |s'.db.rows| == |s.db.rows| && Spends(s, s', m)
  {
    hide SysOk, Spends, SendTo, HubOk;
    var sub := s.bus.subs[s.bus.wire[k].sub];
    HubOf(s, sub.inst);
    ForwardSpendsAt(s, k, sub.inst, sub.user, m);
    SendToKeepsDb(At(s.(bus := Remove(s.bus, k)), sub.inst), sub.user, s.bus.wire[k].packet);
  }

  lemma SendToKeepsDb(w: World, user: UserId, p: Packet)
    ensures SendTo(w, user, p).db == w.db
  {}

  lemma MiscSpendsAt(s: Sys, i: nat, user: UserId, notice: Notice, relay: bool, m: nat)
    requires i < |s.nodes| && HubOk(s.nodes[i].hub) && m < |s.db.rows|
    ensures Spends(s, Put(s, i, SendOrPublish(At(s, i), user, Other(notice), relay)), m)
  {
    var p := Other(notice);
    SendCount(s.nodes[i].hub, user, p, m);
    CopiesCarry(s.bus.subs, user, p, m);
    CountWireConcat(s.bus.wire, Copies(s.bus.subs, user, p), m);
    hide HubOk, Send, Copies, Enqueued, CountLog, CountWire, LiveCount;
    EnqueuedPut(s.nodes, i, s.nodes[i].(hub := Send(s.nodes[i].hub, user, p).hub), m);
  }

  lemma SendKeepsDb(w: World, user: UserId, p: Packet, pubOk: bool)
    ensures SendOrPublish(w, user, p, pubOk).db == w.db
  {}

  lemma MiscSpends(s: Sys, e: Event, m: nat)
    requires SysOk(s) && Enabled(s, e) && e.MiscEv? && m < |s.db.rows|
    ensures |Apply(s, e).db.rows| == |s.db.rows| && Spends(s, Apply(s, e), m)
  {
    hide SysOk, Spends, SendOrPublish, HubOk;
    HubOf(s, e.inst);
    assert Apply(s, e) == Put(s, e.inst, SendOrPublish(At(s, e.inst), e.to, Other(e.notice), e.relay));
    assert SendOrPublish(At(s, e.inst), e.to, Other(e.notice), e.relay).db == s.db by {
      SendKeepsDb(At(s, e.inst), e.to, Other(e.notice), e.relay);
    }
    MiscSpendsAt(s, e.inst, e.to, e.notice, e.relay, m);
  }

  lemma WriteSpends(s: Sys, e: Event, m: nat)
    requires Enabled(s, e) && e.WriteEv? && m < |s.db.rows|
    ensures |Apply(s, e).db.rows| == |s.db.rows| && Spends(s, Apply(s, e), m)
  {
    hide HubOk;
    SilentStep(s, Apply(s, e), e.inst, m);
  }

  lemma HistorySpends(s: Sys, e: Event, m: nat)
    requires SysOk(s) && Enabled(s, e) && e.HistoryEv? && m < |s.db.rows|
    ensures |Apply(s, e).db.rows| == |s.db.rows| && Spends(s, Apply(s, e), m)
  {
    StepTables(s, e);
    hide SysOk, FindOrCreateChat, Enqueued, CountWire;
    assert RowStep(s, Apply(s, e), e, m);
  }

  lemma QuietSpends(s: Sys, e: Event, m: nat)
    requires SysOk(s) && Enabled(s, e) && !e.DmEv? && m < |s.db.rows|
    ensures |Apply(s, e).db.rows| == |s.db.rows| && Spends(s, Apply(s, e), m)
  {
    hide SysOk, Enabled, Apply, Spends;
    match e
    case ConnectEv(_, _, _) => ConnectSpends(s, e, m);
    case DisconnectEv(_, _) => DisconnectSpends(s, e, m);
    case AckEv(_, _, _, _, _) => AckSpends(s, e, m);
    case ForwardEv(k) => ForwardSpends(s, k, m);
    case MiscEv(_, _, _, _) => MiscSpends(s, e, m);
    case WriteEv(_, _, _) => WriteSpends(s, e, m);
    case LoseEv(k) => LoseSpends(s, k, m);
    case HistoryEv(_, _, _) => HistorySpends(s, e, m);
  }

  lemma LoseSpends(s: Sys, k: nat, m: nat)
    requires Enabled(s, LoseEv(k)) && m < |s.db.rows|
    ensures |Apply(s, LoseEv(k)).db.rows| == |s.db.rows| && Spends(s, Apply(s, LoseEv(k)), m)
  {
    CountRemove(s.bus.wire, k, m);
  }

  /** Only a direct message stores a row or a record. */
  lemma QuietKeepsRecords(s: Sys, e: Event)
    requires SysOk(s) && Enabled(s, e) && !e.DmEv?
    ensures |Apply(s, e).db.rows| == |s.db.rows| && Apply(s, e).hist.dms == s.hist.dms
  {
    hide SysOk, Apply;
    StepTables(s, e);
    StepKeepsSys(s, e);
    SysRecords(s);
    SysRecords(Apply(s, e));
  }

  lemma StepKeepsBound(s: Sys, e: Event)
    requires SysOk(s) && Bounded(s)
    ensures Bounded(Step(s, e))
  {
    hide SysOk, Apply;
    if Enabled(s, e) {
      if e.DmEv? {
        DmSpends(s, e);
      } else {
        var s' := Apply(s, e);
        QuietKeepsRecords(s, e);
        forall m: nat | m < |s.db.rows| ensures RowBounded(s', m) {
          QuietSpends(s, e, m);
          assert RowBounded(s, m);
        }
      }
    }
  }

  lemma {:induction false} RunKeepsBound(s: Sys, es: seq<Event>)
    requires SysOk(s) && Bounded(s)
    ensures Bounded(Run(s, es))
    decreases |es|
  {
    hide SysOk, Bounded, Step;
    if es != [] {
      StepKeepsBound(s, es[0]);
      StepKeepsSys(s, es[0]);
      RunKeepsBound(Step(s, es[0]), es[1..]);
    }
  }

  /**
   Copy bound: in a whole run over any number of instances, a message its handler delivered locally is
   enqueued exactly once, and one it published at most once for each subscription live at that moment
   and once more by a replay.
   */
  lemma CopiesAreBounded(n: nat, es: seq<Event>, m: nat)
    requires m < |Run(Init(n), es).db.rows|
    ensures var s := Run(Init(n), es);
            && |s.hist.dms| == |s.db.rows|
            && match s.hist.dms[m].route
               case Local => Enqueued(s.nodes, m) == 1
               case Published(live) => Enqueued(s.nodes, m) <= live + 1
               case Unpublished => Enqueued(s.nodes, m) <= 1
  {
    InitOk(n);
    assert Bounded(Init(n));
    RunKeepsBound(Init(n), es);
    var s := Run(Init(n), es);
    hide Run;
    assert RowBounded(s, m);
  }
}
