/** Concrete runs with one step a handler that show where a guarantee stops, or that a bound is reached. */
module Witnesses {
  import opened ChatTypes
  import opened HubSpec
  import opened DbSpec
  import opened BusSpec
  import opened Protocol
  import CopyBound
  import Scenes

  lemma {:induction false} RunThenStep(s: Sys, es: seq<Event>, e: Event)
    ensures Run(s, es + [e]) == Step(Run(s, es), e)
    decreases |es|
  {
    hide Step;
    if es == [] {
      assert [] + [e] == [e] && [e][1..] == [];
    } else {
      RunThenStep(Step(s, es[0]), es[1..], e);
      assert (es + [e])[1..] == es[1..] + [e];
    }
  }

  /** What a run over n instances can reach. */
  ghost predicate Reachable(s: Sys, n: nat) {
    exists es :: Run(Init(n), es) == s
  }

  lemma ReachStep(s: Sys, n: nat, e: Event)
    requires Reachable(s, n)
    ensures Reachable(Step(s, e), n)
  {
    hide Step;
    var es :| Run(Init(n), es) == s;
    RunThenStep(Init(n), es, e);
  }

  lemma InitReached(n: nat)
    ensures Reachable(Init(n), n)
  {
    assert Run(Init(n), []) == Init(n);
  }

  lemma NoRowsNoPending(db: Db, user: UserId)
    requires db.rows == []
    ensures IsPendingBatch(db, user, [])
  {
    assert Pending(db, user) == {};
  }

  function Connected(h: HubState, user: UserId): HubState {
    StartPumps(Register(h, user), |h.chans|)
  }

  lemma ConnectsTo(w: World, inst: nat, user: UserId)
    requires w.db == EMPTY_DB
    ensures Connect(w, inst, user, []) ==
      World(EMPTY_DB, BusSpec.Subscribe(w.bus, inst, user),
            Node(Connected(w.node.hub, user), w.node.subs[user := |w.bus.subs|]), w.hist)
  {
    hide StartPumps, Register, BusSpec.Subscribe;
  }

  /** A connect while nothing is stored. */
  lemma ConnectStep(s: Sys, i: nat, user: UserId)
    requires i < |s.nodes| && s.db == EMPTY_DB
    ensures var s' := Step(s, ConnectEv(i, user, []));
            && s' == Sys(EMPTY_DB, BusSpec.Subscribe(s.bus, i, user), s'.nodes, s.hist)
            && s'.nodes == s.nodes[i := Node(Connected(s.nodes[i].hub, user), s.nodes[i].subs[user := |s.bus.subs|])]
  {
    NoRowsNoPending(EMPTY_DB, user);
    ConnectsTo(At(s, i), i, user);
    hide IsPendingBatch, Connect, Connected, BusSpec.Subscribe;
  }

  // ---- two connections of one user

  predicate UserIs(h: HubState, c: ClientId, user: UserId) {
    c < |h.chans| && h.chans[c].user == user && h.chans[c].reader == Running
  }

  lemma ConnectedFields(h: HubState, user: UserId)
    ensures var h' := Connected(h, user);
            && |h'.chans| == |h.chans| + 1 && h'.clients == h.clients[user := |h.chans|] && h'.log == h.log
            && UserIs(h', |h.chans|, user) && (forall c | UserIs(h, c, user) :: UserIs(h', c, user))
  {}

  /** Two live subscriptions and two connections, the later ones mapped. */
  ghost predicate Overlapping(s: Sys, user: UserId) {
    && Reachable(s, 1) && |s.nodes| == 1 && s.db == EMPTY_DB && s.hist == History([], {})
    && s.nodes[0].hub.clients == map[user := 1] && |s.nodes[0].hub.chans| == 2
    && UserIs(s.nodes[0].hub, 0, user) && UserIs(s.nodes[0].hub, 1, user)
    && s.nodes[0].subs == map[user := 1]
    && s.bus == Bus([Subscription(0, user, true), Subscription(0, user, true)], [])
  }

  lemma ConnectOne(s: Sys, n: nat, i: nat, user: UserId) returns (s': Sys)
    requires Reachable(s, n) && i < |s.nodes| && s.db == EMPTY_DB
    ensures Reachable(s', n) && s'.db == EMPTY_DB && s'.hist == s.hist && |s'.nodes| == |s.nodes|
    ensures s'.bus == BusSpec.Subscribe(s.bus, i, user)
    ensures s'.nodes[i].hub == Connected(s.nodes[i].hub, user)
    ensures s'.nodes[i].subs == s.nodes[i].subs[user := |s.bus.subs|]
    ensures forall j | 0 <= j < |s.nodes| && j != i :: s'.nodes[j] == s.nodes[j]
  {
    hide Reachable, Connected, Step, BusSpec.Subscribe;
    s' := Step(s, ConnectEv(i, user, []));
    ConnectStep(s, i, user);
    ReachStep(s, n, ConnectEv(i, user, []));
  }

  ghost predicate Once(s: Sys, user: UserId) {
    && Reachable(s, 1) && |s.nodes| == 1 && s.db == EMPTY_DB && s.hist == History([], {})
    && s.nodes[0].hub.clients == map[user := 0] && |s.nodes[0].hub.chans| == 1 && UserIs(s.nodes[0].hub, 0, user)
    && s.nodes[0].subs == map[user := 0] && s.bus == Bus([Subscription(0, user, true)], [])
  }

  lemma ConnectFirst(user: UserId) returns (s: Sys)
    ensures Once(s, user)
  {
    var s0 := Init(1);
    InitReached(1);
    hide Reachable, UserIs, Connected;
    s := ConnectOne(s0, 1, 0, user);
    ConnectedFields(EMPTY_HUB, user);
    assert map[][user := 0] == map[user := 0];
    assert [] + [Subscription(0, user, true)] == [Subscription(0, user, true)];
  }

  lemma ConnectAgain(s: Sys, user: UserId) returns (s': Sys)
    requires Once(s, user)
    ensures Overlapping(s', user)
  {
    hide Reachable, UserIs, Connected;
    s' := ConnectOne(s, 1, 0, user);
    ConnectedFields(s.nodes[0].hub, user);
    assert map[user := 0][user := 1] == map[user := 1];
    var sub := Subscription(0, user, true);
    assert [sub] + [sub] == [sub, sub];
  }

  lemma ConnectTwice(user: UserId) returns (s: Sys)
    ensures Overlapping(s, user)
  {
    hide Once, Overlapping;
    var a := ConnectFirst(user);
    s := ConnectAgain(a, user);
  }

  /** The user is connected, his router entry is gone, and a subscription nobody knows of is open. */
  ghost predicate Leaked(s: Sys, user: UserId) {
    && Reachable(s, 1) && |s.nodes| == 1 && user in s.nodes[0].hub.clients && user !in s.nodes[0].subs
    && |s.bus.subs| == 2
    && s.bus.subs[0] == Subscription(0, user, true) && s.bus.subs[1] == Subscription(0, user, false)
  }

  /**
   Two overlapping connections of one user: when the earlier one ends, the later one is still registered, but
   the router has closed the later subscription and forgotten it, and the earlier one stays open for good.
   */
  lemma OverlapLosesTheSubscription(user: UserId)
    ensures exists s :: Leaked(s, user)
  {
    var s := ConnectTwice(user);
    ReachStep(s, 1, DisconnectEv(0, 0));
    hide Reachable;
    assert Leaked(Step(s, DisconnectEv(0, 0)), user);
  }

  // ---- a message to oneself

  /** User 1 reads and sends on a connection that a later one replaced in the hub before it ended. */
  ghost predicate Replaced(s: Sys, db: Db, dms: seq<DmRecord>) {
    && Reachable(s, 1) && |s.nodes| == 1 && s.db == db && s.hist == History(dms, {})
    && UserIs(s.nodes[0].hub, 0, 1) && s.nodes[0].hub.clients == map[]
  }

  lemma SecondEnds() returns (s: Sys)
    ensures Replaced(s, EMPTY_DB, [])
  {
    var a := ConnectTwice(1);
    s := Step(a, DisconnectEv(0, 1));
    ReachStep(a, 1, DisconnectEv(0, 1));
    hide Reachable;
    assert map[1 := 1] - {1} == map[];
  }

  /** A message nobody on the instance is mapped for: stored and published, and its handler runs through. */
  lemma WritesTo(s: Sys, db: Db, dms: seq<DmRecord>, e: Event) returns (s': Sys, r: DmRecord)
    requires Replaced(s, db, dms) && e.DmEv? && e.inst == 0 && e.from == 1 && e.pubOk && ValidPick(db, 1, e.to, e.pick)
    requires FindOrCreateChat(db, 1, e.to, e.pick).Found?
    ensures var found := FindOrCreateChat(db, 1, e.to, e.pick);
            Replaced(s', InsertMessage(found.db, found.chat, 1, e.body, e.now), dms + [r]) && r.to == e.to
  {
    s' := Step(s, e);
    ReachStep(s, 1, e);
    hide Reachable, FindOrCreateChat, ValidPick, UserIs;
    r := DmRecord(e.to, Published(LiveCount(s.bus.subs, e.to)));
    assert Enabled(s, e);
  }

  const PAIR := Db(1, {(0, 1), (0, 2)}, [])
  const HI := DbSpec.Row(0, 1, "hi", Sent, 0)
  const ME := DbSpec.Row(0, 1, "me", Sent, 1)

  /**
   The message user 1 addressed to himself is stored in his chat with user 2, and pending there: it will be
   delivered to user 2 when he connects.
   */
  ghost predicate Misdelivers(s: Sys) {
    && Reachable(s, 1) && |s.nodes| == 1 && UserIs(s.nodes[0].hub, 0, 1)
    && |s.db.rows| == 2 == |s.hist.dms| && s.db.rows[1].sender == 1 && s.hist.dms[1].to == 1
    && 1 in Pending(s.db, 2)
  }

  lemma SelfMessageReachesAnother()
    ensures exists s :: Misdelivers(s)
  {
    var a := SecondEnds();
    var e, d := DmEv(0, 1, 2, 5, "hi", 0, 0, true), DmEv(0, 1, 1, 6, "me", 1, 0, true);
    PairMade();
    var b, r := WritesTo(a, EMPTY_DB, [], e);
    PairFound();
    var c, r' := WritesTo(b, PAIR.(rows := [HI]), [] + [r], d);
    hide Reachable, FindOrCreateChat, UserIs;
    assert [HI] + [ME] == [HI, ME];
    assert [] + [r] + [r'] == [r, r'];
    assert c.db.rows[1] == ME;
    assert IsPending(c.db, 2, 1);
    assert Misdelivers(c);
  }

  lemma PairMade()
    ensures ValidPick(EMPTY_DB, 1, 2, 0) && FindOrCreateChat(EMPTY_DB, 1, 2, 0) == Found(PAIR, 0)
    ensures InsertMessage(PAIR, 0, 1, "hi", 0) == PAIR.(rows := [HI])
  {
    assert Matches(EMPTY_DB, 1, 2) == {};
    assert CreateChat(EMPTY_DB, 1, 2).db.members == PAIR.members;
    assert [] + [HI] == [HI];
  }

  lemma PairFound()
    ensures var db := PAIR.(rows := [HI]); ValidPick(db, 1, 1, 0) && FindOrCreateChat(db, 1, 1, 0) == Found(db, 0)
  {
    assert 0 in Matches(PAIR.(rows := [HI]), 1, 1);
  }

  // ---- the bound on copies is reached, for every number of instances

  const COPY := Message(0, 1, "hi", 0)

  /** User 2's subscriptions on instances 1 to k. */
  function Subs(k: nat): seq<Subscription> {
    seq(k, j requires 0 <= j < k => Subscription(j + 1, 2, true))
  }

  /** The copies still on their way to instances k + 1 to n. */
  function Wire(k: nat, n: nat): seq<Flight>
    requires k <= n
  {
    seq(n - k, j requires 0 <= j < n - k => Flight(k + j, COPY))
  }

  /** User 2 is connected to instances 1 to k of n + 1. */
  ghost predicate Spread(s: Sys, n: nat, k: nat) {
    && k <= n && Reachable(s, n + 1) && |s.nodes| == n + 1 && s.db == EMPTY_DB && s.hist == History([], {})
    && s.bus == Bus(Subs(k), [])
    && forall j | 0 <= j <= n :: s.nodes[j].hub == if 1 <= j <= k then Scenes.Idle(2) else EMPTY_HUB
  }

  lemma NobodyConnected(n: nat) returns (s: Sys)
    ensures Spread(s, n, 0)
  {
    s := Init(n + 1);
    InitReached(n + 1);
    assert Subs(0) == [];
  }

  lemma OneMoreInstance(s: Sys, n: nat, k: nat) returns (s': Sys)
    requires Spread(s, n, k) && k < n
    ensures Spread(s', n, k + 1)
  {
    hide Reachable, Connected, Scenes.Idle;
    s' := ConnectOne(s, n + 1, k + 1, 2);
    ConnectedIdle(2);
    assert Subs(k) + [Subscription(k + 1, 2, true)] == Subs(k + 1);
  }

  lemma ConnectedIdle(user: UserId)
    ensures Connected(EMPTY_HUB, user) == Scenes.Idle(user)
  {
    Scenes.FirstIsIdle(user);
  }

  lemma {:induction false} Everywhere(n: nat, k: nat) returns (s: Sys)
    requires k <= n
    ensures Spread(s, n, k)
    decreases k
  {
    hide Spread;
    if k == 0 {
      s := NobodyConnected(n);
    } else {
      var a := Everywhere(n, k - 1);
      s := OneMoreInstance(a, n, k - 1);
    }
  }

  /** User 1 has joined on instance 0. */
  ghost predicate Apart(s: Sys, n: nat) {
    && Reachable(s, n + 1) && |s.nodes| == n + 1 && s.db == EMPTY_DB && s.hist == History([], {})
    && s.bus == Bus(Subs(n) + [Subscription(0, 1, true)], [])
    && s.nodes[0].hub == Scenes.Idle(1)
    && forall j | 1 <= j <= n :: s.nodes[j].hub == Scenes.Idle(2)
  }

  lemma SenderJoins(s: Sys, n: nat) returns (s': Sys)
    requires Spread(s, n, n)
    ensures Apart(s', n)
  {
    hide Reachable, Connected, Scenes.Idle, Subs;
    s' := ConnectOne(s, n + 1, 0, 1);
    ConnectedIdle(1);
  }

  /** The message was published to n live subscriptions, and the first k copies have been forwarded. */
  ghost predicate Forwarding(s: Sys, n: nat, k: nat) {
    && k <= n && Reachable(s, n + 1) && |s.nodes| == n + 1
    && s.db == PAIR.(rows := [HI]) && s.hist == History([DmRecord(2, Published(n))], {})
    && s.bus == Bus(Subs(n) + [Subscription(0, 1, true)], Wire(k, n))
    && s.nodes[0].hub.clients == map[1 := 0] && |s.nodes[0].hub.chans| == 1
    && CopyBound.CountLog(s.nodes[0].hub.log, 0) == 0
    && Counted(s.nodes, k) && IdleAfter(s.nodes, k)
  }

  /** Instances 1 to k have queued their copy. */
  predicate Counted(nodes: seq<Node>, k: nat) {
    k < |nodes| && forall j | 1 <= j <= k :: CopyBound.CountLog(nodes[j].hub.log, 0) == 1
  }

  predicate IdleAfter(nodes: seq<Node>, k: nat) {
    forall j | k < j < |nodes| :: nodes[j].hub == Scenes.Idle(2)
  }

  /** The nodes but one are as they were. */
  predicate SameBut(nodes: seq<Node>, nodes': seq<Node>, x: nat) {
    |nodes'| == |nodes| && forall j | 0 <= j < |nodes| && j != x :: nodes'[j] == nodes[j]
  }

  lemma OneMoreCounted(nodes: seq<Node>, nodes': seq<Node>, k: nat)
    requires Counted(nodes, k) && IdleAfter(nodes, k) && k + 1 < |nodes| && SameBut(nodes, nodes', k + 1)
    requires CopyBound.CountLog(nodes'[k + 1].hub.log, 0) == 1
    ensures Counted(nodes', k + 1) && IdleAfter(nodes', k + 1) && nodes'[0] == nodes[0]
  {
    hide CopyBound.CountLog, Scenes.Idle;
  }

  lemma Publishes(s: Sys, n: nat) returns (s': Sys)
    requires Apart(s, n)
    ensures Forwarding(s', n, 0)
  {
    var e := DmEv(0, 1, 2, 5, "hi", 0, 0, true);
    s' := Step(s, e);
    ReachStep(s, n + 1, e);
    PublishedSys(s, n);
    assert Counted(s'.nodes, 0) && IdleAfter(s'.nodes, 0);
    hide Reachable, Step, CopyBound.CountLog, Scenes.Idle, Wire, Subs;
  }

  lemma PublishedSys(s: Sys, n: nat)
    requires |s.nodes| == n + 1 && s.db == EMPTY_DB && s.hist == History([], {})
    requires s.bus == Bus(Subs(n) + [Subscription(0, 1, true)], []) && s.nodes[0].hub == Scenes.Idle(1)
    ensures var s' := Step(s, DmEv(0, 1, 2, 5, "hi", 0, 0, true));
            && |s'.nodes| == n + 1 && (forall j | 1 <= j <= n :: s'.nodes[j] == s.nodes[j])
            && s'.db == PAIR.(rows := [HI]) && s'.hist == History([DmRecord(2, Published(n))], {})
            && s'.bus == Bus(s.bus.subs, Wire(0, n))
            && s'.nodes[0].hub.clients == map[1 := 0] && |s'.nodes[0].hub.chans| == 1
            && CopyBound.CountLog(s'.nodes[0].hub.log, 0) == 0
  {
    PairMade();
    AllLive(n);
    IdleSends();
    hide FindOrCreateChat, ValidPick, Copies, LiveCount, CopyBound.CountLog, Scenes.Idle, Send, Wire, Subs;
    assert Enabled(s, DmEv(0, 1, 2, 5, "hi", 0, 0, true));
    assert [] + Wire(0, n) == Wire(0, n);
    assert [] + [DmRecord(2, Published(n))] == [DmRecord(2, Published(n))];
  }

  lemma AllLive(n: nat)
    ensures var subs := Subs(n) + [Subscription(0, 1, true)];
            LiveCount(subs, 2) == n && Copies(subs, 2, COPY) == Wire(0, n)
  {
    var subs := Subs(n) + [Subscription(0, 1, true)];
    assert subs[..|subs| - 1] == Subs(n);
    EachLive(n);
    assert Copies(Subs(n), 2, COPY) + [] == Copies(Subs(n), 2, COPY);
  }

  lemma {:induction false} EachLive(k: nat)
    ensures LiveCount(Subs(k), 2) == k && Copies(Subs(k), 2, COPY) == Wire(0, k)
  {
    if k > 0 {
      EachLive(k - 1);
      assert Subs(k)[..k - 1] == Subs(k - 1);
      assert Wire(0, k) == Wire(0, k - 1) + [Flight(k - 1, COPY)];
    }
  }

  /** What the sender's hub does with the copy and with the acknowledgement. */
  lemma IdleSends()
    ensures Send(Scenes.Idle(1), 2, COPY) == SendResult(Scenes.Idle(1), false)
    ensures var h := Send(Scenes.Idle(1), 1, SentAck(0, 5)).hub;
            h.clients == map[1 := 0] && |h.chans| == 1 && CopyBound.CountLog(h.log, 0) == 0
  {
    var a := Accept(0, 1, SentAck(0, 5));
    assert [] + [a] == [a] && [a][..0] == [];
  }

  lemma WireHead(k: nat, n: nat)
    requires k < n
    ensures Wire(k, n) != [] && Wire(k, n)[0] == Flight(k, COPY) && Wire(k, n)[..0] + Wire(k, n)[1..] == Wire(k + 1, n)
    ensures var subs := Subs(n) + [Subscription(0, 1, true)];
            k < |subs| && subs[k] == Subscription(k + 1, 2, true)
  {}

  lemma ForwardedSys(s: Sys, n: nat, k: nat)
    requires k < n && |s.nodes| == n + 1 && s.nodes[k + 1].hub == Scenes.Idle(2)
    requires s.bus == Bus(Subs(n) + [Subscription(0, 1, true)], Wire(k, n))
    ensures var s' := Step(s, ForwardEv(0));
            && s'.db == s.db && s'.hist == s.hist && |s'.nodes| == n + 1
            && s'.bus == Bus(s.bus.subs, Wire(k + 1, n))
            && SameBut(s.nodes, s'.nodes, k + 1)
            && CopyBound.CountLog(s'.nodes[k + 1].hub.log, 0) == 1
  {
    WireHead(k, n);
    IdleReceives();
    hide CopyBound.CountLog, Scenes.Idle, Send, Wire, Subs;
    assert Enabled(s, ForwardEv(0));
  }

  lemma ForwardsOne(s: Sys, n: nat, k: nat) returns (s': Sys)
    requires Forwarding(s, n, k) && k < n
    ensures Forwarding(s', n, k + 1)
  {
    s' := Step(s, ForwardEv(0));
    ReachStep(s, n + 1, ForwardEv(0));
    assert s.nodes[k + 1].hub == Scenes.Idle(2);
    ForwardedSys(s, n, k);
    hide Reachable, Step, CopyBound.CountLog, Scenes.Idle, Wire, Subs, SameBut, Counted, IdleAfter;
    OneMoreCounted(s.nodes, s'.nodes, k);
  }

  lemma {:induction false} ForwardsAll(s: Sys, n: nat, k: nat) returns (s': Sys)
    requires Forwarding(s, n, 0) && k <= n
    ensures Forwarding(s', n, k)
    decreases k
  {
    hide Forwarding;
    if k == 0 {
      s' := s;
    } else {
      var a := ForwardsAll(s, n, k - 1);
      s' := ForwardsOne(a, n, k - 1);
    }
  }

  lemma IdleReceives()
    ensures CopyBound.CountLog(Send(Scenes.Idle(2), 2, COPY).hub.log, 0) == 1
  {
    var a := Accept(0, 2, COPY);
    assert [] + [a] == [a] && [a][..0] == [];
    assert CopyBound.CountLog([a], 0) == CopyBound.CountLog([], 0) + 1;
  }

  /** A message published to n live subscriptions stands in n + 1 queues. */
  ghost predicate Reaches(s: Sys, n: nat) {
    && Reachable(s, n + 1) && |s.hist.dms| == 1 && s.hist.dms[0].route == Published(n)
    && CopyBound.Enqueued(s.nodes, 0) == n + 1
  }

  /** The receiver connects to the sender's instance, and the row is replayed to him. */
  lemma Replays(s: Sys, n: nat) returns (s': Sys)
    requires Forwarding(s, n, n)
    ensures Reaches(s', n)
  {
    var e := ConnectEv(0, 2, [0]);
    s' := Step(s, e);
    ReachStep(s, n + 1, e);
    RowPends();
    ReplayNodes(s, n);
    ReplayOne(s.nodes[0].hub);
    hide Reachable, CopyBound.Enqueued, Step, CopyBound.CountLog, Subs, Wire, Counted, SameBut, IdleAfter, ConnectHub,
      ValidIds, IsPendingBatch;
    CountsAll(s.nodes, s'.nodes, n);
  }

  lemma CountsAll(nodes: seq<Node>, nodes': seq<Node>, n: nat)
    requires |nodes| == n + 1 && Counted(nodes, n) && SameBut(nodes, nodes', 0)
    requires CopyBound.CountLog(nodes'[0].hub.log, 0) == 1
    ensures CopyBound.Enqueued(nodes', 0) == n + 1
  {
    hide CopyBound.CountLog, CopyBound.Enqueued;
    EnqueuedAll(nodes', 0);
  }

  lemma ReplayNodes(s: Sys, n: nat)
    requires |s.nodes| == n + 1 && s.db == PAIR.(rows := [HI])
    requires ValidIds(s.db, [0]) && IsPendingBatch(s.db, 2, [0])
    ensures var s' := Step(s, ConnectEv(0, 2, [0]));
            && |s'.nodes| == n + 1 && s'.hist == s.hist && SameBut(s.nodes, s'.nodes, 0)
            && s'.nodes[0].hub == ConnectHub(s.nodes[0].hub, s.db, 2, [0])
  {
    hide IsPendingBatch, ValidIds, ConnectHub, ConnectDb;
  }

  lemma {:induction false} EnqueuedAll(nodes: seq<Node>, m: MsgId)
    requires forall j | 0 <= j < |nodes| :: CopyBound.CountLog(nodes[j].hub.log, m) == 1
    ensures CopyBound.Enqueued(nodes, m) == |nodes|
    decreases |nodes|
  {
    hide CopyBound.CountLog;
    if nodes != [] {
      EnqueuedAll(nodes[..|nodes| - 1], m);
    }
  }

  lemma RowPends()
    ensures ValidIds(PAIR.(rows := [HI]), [0]) && IsPendingBatch(PAIR.(rows := [HI]), 2, [0])
  {
    assert Pending(PAIR.(rows := [HI]), 2) == {0};
  }

  lemma ReplayOne(h: HubState)
    requires h.clients == map[1 := 0] && |h.chans| == 1
    ensures ValidIds(PAIR.(rows := [HI]), [0])
    ensures CopyBound.CountLog(ConnectHub(h, PAIR.(rows := [HI]), 2, [0]).log, 0) == CopyBound.CountLog(h.log, 0) + 1
  {
    var db := PAIR.(rows := [HI]);
    SendAfterRegister(h, 2, COPY);
    hide Send, Register, UpdateStatus, CopyBound.CountLog;
    var h2 := Send(Register(h, 2), 2, COPY).hub;
    ReplaySingle(Register(h, 2), db, 2);
    assert PacketOf(db, 0) == COPY;
    assert ConnectHub(h, db, 2, [0]).log == h2.log;
  }

  lemma ReplaySingle(h: HubState, db: Db, user: UserId)
    requires |db.rows| == 1
    ensures ValidIds(db, [0]) && Replay(h, db, user, [0]).0 == Send(h, user, PacketOf(db, 0)).hub
  {
    hide Send, UpdateStatus;
    var h', db' := Send(h, user, PacketOf(db, 0)).hub, UpdateStatus(db, 0, Delivered);
    assert [0][1..] == [];
    assert Replay(h, db, user, [0]) == Replay(h', db', user, []);
  }

  lemma SendAfterRegister(h: HubState, user: UserId, p: Packet)
    requires p.Message? && p.mid == 0
    ensures var h' := Send(Register(h, user), user, p).hub;
            |h'.chans| == |h.chans| + 1 && CopyBound.CountLog(h'.log, 0) == CopyBound.CountLog(h.log, 0) + 1
  {
    var a := Accept(|h.chans|, user, p);
    assert Send(Register(h, user), user, p).hub.log == h.log + [a];
    assert (h.log + [a])[..|h.log|] == h.log;
  }

  /** For every number of live subscriptions the bound on copies, one for each and one more, is reached. */
  lemma CopyBoundIsReached(n: nat)
    ensures exists s :: Reaches(s, n)
  {
    hide Spread, Apart, Forwarding, Reaches;
    var a := Everywhere(n, n);
    var b := SenderJoins(a, n);
    var c := Publishes(b, n);
    var d := ForwardsAll(c, n, n);
    var e := Replays(d, n);
  }
}
