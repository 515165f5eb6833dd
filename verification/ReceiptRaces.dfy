/**
 How the order of receipts breaks: from any state in which a handler has its acknowledgement still to send to
 an open connection with room, an acknowledgement of the receiver handled now overtakes it.
 */
module ReceiptRaces {
  import opened ChatTypes
  import opened HubSpec
  import opened DbSpec
  import opened Interleaving
  import opened InterleavedReceipts
  import Atomicity
  import InterleavedHub
  import Scenes

  // ---- what a handler with an acknowledgement has left before it

  /** The steps before the acknowledgement: those of the copy. */
  predicate CopyPart(pre: seq<Op>) {
    || pre == []
    || (|pre| == 1 &&
          match pre[0]
          case Lookup(_, p, why) => why.DmCopy? && p.Message?
          case Enqueue(_, p, why, _) => why.DmCopy? && p.Message?
          case Publish => true
          case Mark(_, status, _) => status == Delivered
          case _ => false)
    || (|pre| == 2 && pre[0].Evict? && pre[1].Publish?)
  }

  predicate CarriesAck(op: Op) {
    (op.Lookup? || op.Enqueue?) && op.packet.SentAck?
  }

  /** The acknowledgement is the last step, after the rest of the copy. */
  predicate AckLast(todo: seq<Op>) {
    && todo != [] && CopyPart(todo[..|todo| - 1])
    && CarriesAck(todo[|todo| - 1]) && todo[|todo| - 1].why == Plain
  }

  predicate Storing(op: Op) {
    op.FindChat? || op.MakeChat? || op.Insert?
  }

  predicate NoAckIn(todo: seq<Op>) {
    forall k | 0 <= k < |todo| :: !CarriesAck(todo[k]) && !Storing(todo[k])
  }

  predicate Form(todo: seq<Op>) {
    NoAckIn(todo) || AckLast(todo) || (|todo| == 1 && Storing(todo[0]))
  }

  lemma FrontClean(h: HubState, db: Db, clock: nat, op: Op, ch: Choice)
    requires InRange(h, db, op) && !CarriesAck(op) && !Storing(op)
    ensures NoAckIn(NextTodo(h, db, clock, op, [], ch))
  {
    hide Offer, PacketOf;
    if op.HookLoop? {
      forall k | 0 <= k < |NextTodo(h, db, clock, op, [], ch)|
        ensures var x := NextTodo(h, db, clock, op, [], ch)[k]; !CarriesAck(x) && !Storing(x)
      {
        LoopFront(h, db, clock, op, ch, k);
        LoopFrontNotStoring(h, db, clock, op, ch, k);
      }
    }
  }

  lemma LoopFrontNotStoring(h: HubState, db: Db, clock: nat, op: Op, ch: Choice, k: nat)
    requires op.HookLoop? && InRange(h, db, op) && k < |NextTodo(h, db, clock, op, [], ch)|
    ensures !Storing(NextTodo(h, db, clock, op, [], ch)[k])
  {}

  lemma CleanAdds(a: seq<Op>, b: seq<Op>)
    requires NoAckIn(a) && NoAckIn(b)
    ensures NoAckIn(a + b)
  {}

  lemma CleanMoves(h: HubState, db: Db, clock: nat, todo: seq<Op>, ch: Choice)
    requires todo != [] && NoAckIn(todo) && InRange(h, db, todo[0])
    requires HookClient(todo[0]).Some? ==> todo[1..] == []
    ensures NoAckIn(NextTodo(h, db, clock, todo[0], todo[1..], ch))
  {
    var front := NextTodo(h, db, clock, todo[0], [], ch);
    FrontClean(h, db, clock, todo[0], ch);
    InterleavedHub.TodoSplits(h, db, clock, todo[0], todo[1..], ch);
    assert NoAckIn(todo[1..]);
    hide NextTodo, InRange, CarriesAck, Storing, HookClient;
    CleanAdds(front, todo[1..]);
  }

  lemma StoringMoves(h: HubState, db: Db, clock: nat, op: Op, ch: Choice)
    requires Storing(op) && InRange(h, db, op)
    ensures Form(NextTodo(h, db, clock, op, [], ch))
  {
    hide Matches, CreateChat;
    if op.Insert? {
      var m := |db.rows|;
      var copy := Lookup(op.to, Message(m, op.from, op.body, ch.now), DmCopy(m, clock));
      var ack := Lookup(op.from, SentAck(m, op.clientId), Plain);
      assert NextTodo(h, db, clock, op, [], ch) == [copy, ack];
      assert [copy, ack][..1] == [copy];
    }
  }

  /** The steps of a handler up to its acknowledgement keep their form. */
  lemma CopyMoves(h: HubState, db: Db, clock: nat, op: Op, rest: seq<Op>, ch: Choice)
    requires InRange(h, db, op) && AckLast([op] + rest)
    ensures Form(NextTodo(h, db, clock, op, rest, ch))
  {
    var todo, todo' := [op] + rest, NextTodo(h, db, clock, op, rest, ch);
    hide Offer, Matches, CreateChat;
    if rest == [] {
      AckAlone(h, db, clock, op, ch);
    } else if |rest| == 1 {
      assert todo[..1] == [op];
      var ack := rest[0];
      assert rest == [ack] && [op] + [ack] == todo;
      CopyOpMoves(h, db, clock, op, ack, ch);
    } else {
      assert todo[..2] == [op, rest[0]] && todo[2] == rest[1];
      assert todo' == rest && rest[..1] == [rest[0]];
    }
  }

  lemma AckAlone(h: HubState, db: Db, clock: nat, op: Op, ch: Choice)
    requires InRange(h, db, op) && CarriesAck(op) && op.why == Plain
    ensures Form(NextTodo(h, db, clock, op, [], ch))
  {
    hide Offer;
    var todo' := NextTodo(h, db, clock, op, [], ch);
    if op.Lookup? && op.user in h.clients {
      assert todo' == [Enqueue(h.clients[op.user], op.packet, Plain, clock)];
      assert todo'[..0] == [];
    } else if op.Enqueue? {
      assert [Evict(op.client)] + [] + [] == [Evict(op.client)];
    }
  }

  lemma CopyOpMoves(h: HubState, db: Db, clock: nat, op: Op, ack: Op, ch: Choice)
    requires InRange(h, db, op) && CopyPart([op]) && CarriesAck(ack) && ack.why == Plain
    ensures Form(NextTodo(h, db, clock, op, [ack], ch))
  {
    hide Offer;
    var todo' := NextTodo(h, db, clock, op, [ack], ch);
    if op.Lookup? {
      var x := if op.user in h.clients then Enqueue(h.clients[op.user], op.packet, op.why, clock) else Publish;
      assert todo' == [x, ack] && [x, ack][..1] == [x];
    } else if op.Enqueue? {
      EnqueueCases(h, db, clock, op, ack, ch);
    } else {
      assert todo' == [ack] || todo' == [];
      assert [ack][..0] == [];
    }
  }

  lemma EnqueueCases(h: HubState, db: Db, clock: nat, op: Op, ack: Op, ch: Choice)
    requires InRange(h, db, op) && op.Enqueue? && op.why.DmCopy? && CarriesAck(ack) && ack.why == Plain
    ensures Form(NextTodo(h, db, clock, op, [ack], ch))
  {
    var todo' := NextTodo(h, db, clock, op, [ack], ch);
    match Offer(h, op.client)
    case Accepted =>
      var x := Mark(op.why.mid, Delivered, op.why.since);
      assert todo' == [x, ack] && [x, ack][..1] == [x];
    case Full =>
      assert todo' == [Evict(op.client), Publish, ack];
      assert [Evict(op.client), Publish, ack][..2] == [Evict(op.client), Publish];
    case Panics =>
  }

  ghost predicate Forms(f: Fine) {
    forall t | 0 <= t < |f.threads| :: Form(f.threads[t].todo)
  }

  lemma TodoMoves(h: HubState, db: Db, clock: nat, todo: seq<Op>, ch: Choice)
    requires todo != [] && Form(todo) && InRange(h, db, todo[0])
    requires HookClient(todo[0]).Some? ==> todo[1..] == []
    ensures Form(NextTodo(h, db, clock, todo[0], todo[1..], ch))
  {
    assert todo == [todo[0]] + todo[1..];
    hide NextTodo, InRange;
    if NoAckIn(todo) {
      CleanMoves(h, db, clock, todo, ch);
    } else if AckLast(todo) {
      CopyMoves(h, db, clock, todo[0], todo[1..], ch);
    } else {
      assert todo[1..] == [];
      StoringMoves(h, db, clock, todo[0], ch);
    }
  }

  lemma StepKeepsForms(f: Fine, e: FineEvent)
    requires InterleavedHub.HubInv(f) && Forms(f)
    ensures Forms(FineStep(f, e))
  {
    var f' := FineStep(f, e);
    if e.Take? && Ready(f, e.thread_index, e.choice) {
      var t, th := e.thread_index, f.threads[e.thread_index];
      InterleavedHub.TodoOf(f, t);
      InterleavedHub.TailOk(f, t, th);
      hide InterleavedHub.HubInv, InterleavedHub.TodoOk, InterleavedHub.OpOk, NextTodo, NextHub, NextDb, InRange,
        ChoiceOk, Form, HookOf, HookClient, Kills, NextHook, NextClosedAt;
      TodoMoves(f.hubs[th.inst], f.db, f.clock, th.todo, e.choice);
    } else {
      OtherIsQuiet(f, e);
      hide FineStep, Ready;
      if e.Spawn? && Startable(f, e.thread) { StartsForm(f, e.thread); }
    }
  }

  lemma StartsForm(f: Fine, th: Thread)
    requires Startable(f, th)
    ensures Form(th.todo)
  {}

  lemma {:induction false} RunKeepsForms(f: Fine, es: seq<FineEvent>)
    requires InterleavedHub.HubInv(f) && Forms(f)
    ensures Forms(FineRun(f, es))
    decreases |es|
  {
    hide InterleavedHub.HubInv, Forms, FineStep;
    if es != [] {
      StepKeepsForms(f, es[0]);
      InterleavedHub.StepKeepsHubs(f, es[0]);
      RunKeepsForms(FineStep(f, es[0]), es[1..]);
    }
  }

  // ---- the handler alone, up to its acknowledgement

  const ANY := Choice(0, [], 0, true)

  /** The connection is the mapped one of its user and has room for some packets more. */
  predicate HasPlaces(h: HubState, c: ClientId, places: nat) {
    c < |h.chans| && Current(h, c) && |h.chans[c].queue| + places <= CAPACITY
  }

  lemma SendKeepsPlaces(h: HubState, u: UserId, p: Packet, c: ClientId, places: nat)
    requires HubOk(h) && HasPlaces(h, c, places) && (u == h.chans[c].user ==> places > 0)
    ensures var h' := Send(h, u, p).hub;
            && HubOk(h') && HasPlaces(h', c, if u == h.chans[c].user then places - 1 else places)
            && h'.chans[c].user == h.chans[c].user
            && (u == h.chans[c].user ==> h'.log == h.log + [Accept(c, u, p)])
  {
    SendEffect(h, u, p);
    if u in h.clients && u != h.chans[c].user {
      assert h.chans[h.clients[u]].user == u;
    }
    hide ChannelOk, LogOk;
  }

  lemma EnqueueKeepsPlaces(h: HubState, x: ClientId, p: Packet, c: ClientId, places: nat)
    requires HubOk(h) && HasPlaces(h, c, places) && (x == c ==> places > 0)
    requires x < |h.chans| && Offer(h, x) == Accepted
    ensures var h' := HubSpec.Enqueue(h, x, p);
            && HubOk(h') && HasPlaces(h', c, if x == c then places - 1 else places)
            && h'.chans[c].user == h.chans[c].user
  {
    EnqueueKeepsHub(h, x, p);
    hide ChannelOk, LogOk;
  }

  lemma UnregisterKeepsPlaces(h: HubState, x: ClientId, c: ClientId, places: nat)
    requires HubOk(h) && HasPlaces(h, c, places) && x < |h.chans| && x != c
    ensures var h' := Unregister(h, x);
            HubOk(h') && HasPlaces(h', c, places) && h'.chans[c].user == h.chans[c].user
  {
    UnregisterKeepsHub(h, x);
    hide ChannelOk, LogOk;
  }

  /** The places the rest of the copy takes on the connection. */
  function CopyPlaces(h: HubState, todo: seq<Op>, c: ClientId): nat {
    if |todo| == 2 && c < |h.chans|
       && ((todo[0].Lookup? && todo[0].user == h.chans[c].user) || (todo[0].Enqueue? && todo[0].client == c))
    then 1 else 0
  }

  /** The next step neither crashes nor removes the connection. */
  predicate Harmless(h: HubState, todo: seq<Op>, c: ClientId) {
    && todo != []
    && (todo[0].Enqueue? ==> todo[0].client < |h.chans| && !h.chans[todo[0].client].closed)
    && (todo[0].Evict? ==> todo[0].client < |h.chans| && todo[0].client != c)
  }

  lemma AcceptedCopy(s: Atomicity.Solo, ack: Op, c: ClientId) returns (n: nat, s': Atomicity.Solo)
    requires |s.todo| == 2 && s.todo[0].Enqueue? && s.todo[0].why.DmCopy? && s.todo[1] == ack && HubOk(s.hub)
    requires Harmless(s.hub, s.todo, c) && Offer(s.hub, s.todo[0].client) == Accepted
    requires HasPlaces(s.hub, c, 2 + CopyPlaces(s.hub, s.todo, c))
    ensures Atomicity.Takes(s, ANY, n, s') && s'.todo == [ack] && |s'.db.rows| == |s.db.rows|
    ensures HubOk(s'.hub) && HasPlaces(s'.hub, c, 2) && s'.hub.chans[c].user == s.hub.chans[c].user
  {
    var op := s.todo[0];
    EnqueueKeepsPlaces(s.hub, op.client, op.packet, c, 2 + CopyPlaces(s.hub, s.todo, c));
    assert s.todo == [op] + [ack];
    hide HubOk, HasPlaces, Atomicity.Takes, HubSpec.Enqueue, CopyPlaces, UpdateStatus;
    Atomicity.EnqueueAccepts(s, op.client, op.packet, op.why, op.at, [ack], ANY);
    var s1 := s.(hub := HubSpec.Enqueue(s.hub, op.client, op.packet), clock := s.clock + 1,
                 todo := AfterAccepted(op.why) + [ack]);
    Atomicity.OutcomeStep(s1, op.why.mid, op.why.since, true, [ack], ANY);
    s' := s1.(db := UpdateStatus(s1.db, op.why.mid, Delivered), clock := s1.clock + 1, todo := [ack]);
    n := 2;
    Atomicity.TakesMore(s, ANY, 1, s1, 1, s');
    assert |s'.db.rows| == |s.db.rows| by { UpdateKeepsSize(s.db, op.why.mid, Delivered); }
  }

  lemma UpdateKeepsSize(db: Db, m: MsgId, status: Status)
    ensures |UpdateStatus(db, m, status).rows| == |db.rows|
  {}

  lemma RefusedCopy(s: Atomicity.Solo, ack: Op, c: ClientId) returns (n: nat, s': Atomicity.Solo)
    requires |s.todo| == 2 && s.todo[0].Enqueue? && s.todo[0].why.DmCopy? && s.todo[1] == ack && HubOk(s.hub)
    requires Harmless(s.hub, s.todo, c) && Offer(s.hub, s.todo[0].client) == Full && HasPlaces(s.hub, c, 2)
    ensures Atomicity.Takes(s, ANY, n, s') && s'.todo == [ack] && |s'.db.rows| == |s.db.rows|
    ensures HubOk(s'.hub) && HasPlaces(s'.hub, c, 2) && s'.hub.chans[c].user == s.hub.chans[c].user
  {
    var op := s.todo[0];
    assert op.client != c;
    UnregisterKeepsPlaces(s.hub, op.client, c, 2);
    assert s.todo == [op] + [ack];
    hide HubOk, HasPlaces, Atomicity.Takes, Unregister;
    Atomicity.EnqueueEvicts(s, op.client, op.packet, op.why, op.at, [ack], ANY);
    var s1 := s.(hub := Unregister(s.hub, op.client), clock := s.clock + 2, todo := AfterRefused(op.why) + [ack]);
    Atomicity.OutcomeStep(s1, op.why.mid, op.why.since, false, [ack], ANY);
    s' := s1.(clock := s1.clock + 1, todo := [ack]);
    n := 3;
    Atomicity.TakesMore(s, ANY, 2, s1, 1, s');
  }

  lemma LookedUpCopy(s: Atomicity.Solo, ack: Op, c: ClientId) returns (n: nat, s': Atomicity.Solo)
    requires |s.todo| == 2 && s.todo[0].Lookup? && s.todo[0].why.DmCopy? && s.todo[1] == ack && HubOk(s.hub)
    requires HasPlaces(s.hub, c, 2 + CopyPlaces(s.hub, s.todo, c))
    ensures Atomicity.Takes(s, ANY, n, s') && s'.todo == [ack] && |s'.db.rows| == |s.db.rows|
    ensures HubOk(s'.hub) && HasPlaces(s'.hub, c, 2) && s'.hub.chans[c].user == s.hub.chans[c].user
  {
    var op := s.todo[0];
    SendKeepsPlaces(s.hub, op.user, op.packet, c, 2 + CopyPlaces(s.hub, s.todo, c));
    assert MapOk(s.hub);
    assert s.todo == [Lookup(op.user, op.packet, op.why)] + [ack];
    hide HubOk, MapOk, HasPlaces, Atomicity.Takes, Send;
    n, s' := Atomicity.CopySteps(s, op.user, op.packet, op.why.mid, op.why.since, [ack], ANY);
    assert |s'.db.rows| == |s.db.rows|;
  }

  lemma OutcomeLeft(s: Atomicity.Solo, ack: Op, c: ClientId) returns (n: nat, s': Atomicity.Solo)
    requires |s.todo| == 2 && (s.todo[0].Publish? || s.todo[0].Mark?) && s.todo[1] == ack && HubOk(s.hub)
    requires HasPlaces(s.hub, c, 2)
    ensures Atomicity.Takes(s, ANY, n, s') && s'.todo == [ack] && |s'.db.rows| == |s.db.rows|
    ensures s'.hub == s.hub
  {
    var op := s.todo[0];
    assert s.todo == [op] + [ack];
    hide HubOk, HasPlaces, Atomicity.Takes, UpdateStatus;
    Atomicity.StepIs(s, op, [ack], ANY);
    s' := s.(db := if op.Mark? then UpdateStatus(s.db, op.mid, op.status) else s.db, clock := s.clock + 1,
             todo := [ack]);
    n := 1;
    if op.Mark? { UpdateKeepsSize(s.db, op.mid, op.status); }
  }

  lemma EvictedCopy(s: Atomicity.Solo, ack: Op, c: ClientId) returns (n: nat, s': Atomicity.Solo)
    requires |s.todo| == 3 && s.todo[0].Evict? && s.todo[1].Publish? && s.todo[2] == ack && HubOk(s.hub)
    requires Harmless(s.hub, s.todo, c) && HasPlaces(s.hub, c, 2)
    ensures Atomicity.Takes(s, ANY, n, s') && s'.todo == [ack] && |s'.db.rows| == |s.db.rows|
    ensures HubOk(s'.hub) && HasPlaces(s'.hub, c, 2) && s'.hub.chans[c].user == s.hub.chans[c].user
  {
    var x := s.todo[0].client;
    UnregisterKeepsPlaces(s.hub, x, c, 2);
    assert s.todo == [Evict(x)] + [Publish, ack];
    hide HubOk, HasPlaces, Atomicity.Takes, Unregister;
    Atomicity.StepIs(s, Evict(x), [Publish, ack], ANY);
    var s1 := s.(hub := Unregister(s.hub, x), clock := s.clock + 1, todo := [Publish, ack]);
    n, s' := OutcomeLeft(s1, ack, c);
    Atomicity.TakesMore(s, ANY, 1, s1, n, s');
    n := 1 + n;
  }

  /** Alone, the handler comes to its acknowledgement with the connection still open and two places left. */
  lemma ComesToAck(s: Atomicity.Solo, c: ClientId) returns (n: nat, s': Atomicity.Solo)
    requires AckLast(s.todo) && HubOk(s.hub) && Harmless(s.hub, s.todo, c)
    requires HasPlaces(s.hub, c, 2 + CopyPlaces(s.hub, s.todo, c))
    ensures Atomicity.Takes(s, ANY, n, s') && s'.todo == [s.todo[|s.todo| - 1]] && |s'.db.rows| == |s.db.rows|
    ensures HubOk(s'.hub) && HasPlaces(s'.hub, c, 2) && s'.hub.chans[c].user == s.hub.chans[c].user
  {
    var todo := s.todo;
    var ack := todo[|todo| - 1];
    hide HubOk, Atomicity.Takes;
    if |todo| == 1 {
      n, s' := 0, s;
      assert Atomicity.Takes(s, ANY, 0, s) by { TakesNone(s); }
    } else {
      assert todo[..|todo| - 1][0] == todo[0];
      assert HasPlaces(s.hub, c, 2);
      hide HasPlaces;
      if |todo| == 3 { n, s' := EvictedCopy(s, ack, c); }
      else if todo[0].Lookup? { n, s' := LookedUpCopy(s, ack, c); }
      else if todo[0].Enqueue? {
        if Offer(s.hub, todo[0].client) == Accepted { n, s' := AcceptedCopy(s, ack, c); }
        else { n, s' := RefusedCopy(s, ack, c); }
      } else { n, s' := OutcomeLeft(s, ack, c); }
    }
  }

  lemma TakesNone(s: Atomicity.Solo)
    ensures Atomicity.Takes(s, ANY, 0, s)
  {}

  // ---- in the system

  /** Thread t of a live instance has its last step left, and connection c of user u has places left. */
  ghost predicate Ends(f: Fine, i: nat, t: nat, op: Op, c: ClientId, u: UserId, places: nat) {
    && t < |f.threads| && f.threads[t] == Thread(i, [op])
    && i < |f.hubs| && i !in f.dead && HubOk(f.hubs[i])
    && HasPlaces(f.hubs[i], c, places) && f.hubs[i].chans[c].user == u
  }

  /** The handler's own steps up to the acknowledgement. */
  lemma DriveToAck(f: Fine, t: nat, c: ClientId) returns (more: seq<FineEvent>, f': Fine)
    requires t < |f.threads| && f.threads[t].inst < |f.hubs| && f.threads[t].inst !in f.dead
    requires var s := Atomicity.SoloOf(f, t);
             && AckLast(s.todo) && HubOk(s.hub) && Harmless(s.hub, s.todo, c)
             && HasPlaces(s.hub, c, 2 + CopyPlaces(s.hub, s.todo, c))
    ensures f' == FineRun(f, more) && |f'.db.rows| == |f.db.rows|
    ensures var i, todo := f.threads[t].inst, f.threads[t].todo;
            Ends(f', i, t, todo[|todo| - 1], c, f.hubs[i].chans[c].user, 2)
  {
    hide Atomicity.Takes, AckLast, HubOk, Harmless, HasPlaces, FineRun;
    var n, s' := ComesToAck(Atomicity.SoloOf(f, t), c);
    Atomicity.AloneIsARun(f, t, ANY, n, s');
    more := Atomicity.Repeated(Take(t, ANY), n);
    f' := FineRun(f, more);
  }

  /** The receiver's acknowledgement, spawned and run to its end. */
  lemma NoticeNow(f: Fine, i: nat, t: nat, op: Op, c: ClientId, u: UserId, m: MsgId)
    returns (more: seq<FineEvent>, f': Fine)
    requires Ends(f, i, t, op, c, u, 2) && m < |f.db.rows|
    ensures f' == FineRun(f, more) && Ends(f', i, t, op, c, u, 1)
    ensures f'.hubs[i].log == f.hubs[i].log + [Accept(c, u, ReadNotice(m))]
  {
    var th := Thread(i, Atomicity.AckSteps(m, 0, Some(u)));
    var f1 := FineStep(f, Spawn(th));
    var t1 := |f.threads|;
    assert Startable(f, th);
    assert f1 == f.(threads := f.threads + [th], clock := f.clock + 1);
    SendKeepsPlaces(f.hubs[i], u, ReadNotice(m), c, 2);
    hide FineStep, Startable, HubOk, HasPlaces, FineRun, Send;
    var n, s' := NoticeAlone(Atomicity.SoloOf(f1, t1), m, u);
    Atomicity.AloneIsARun(f1, t1, ANY, n, s');
    var rest := Atomicity.Repeated(Take(t1, ANY), n);
    more := [Spawn(th)] + rest;
    f' := FineRun(f1, rest);
    assert FineRun(f, more) == f' by { RunFrom(f, Spawn(th), rest); }
  }

  lemma RunFrom(f: Fine, e: FineEvent, rest: seq<FineEvent>)
    ensures FineRun(f, [e] + rest) == FineRun(FineStep(f, e), rest)
  {
    hide FineStep;
    assert ([e] + rest)[1..] == rest;
  }

  lemma NoticeAlone(s: Atomicity.Solo, m: MsgId, u: UserId) returns (n: nat, s': Atomicity.Solo)
    requires s.todo == Atomicity.AckSteps(m, 0, Some(u)) && HubOk(s.hub)
    ensures Atomicity.Takes(s, ANY, n, s') && s'.hub == Send(s.hub, u, ReadNotice(m)).hub
  {
    assert MapOk(s.hub);
    hide HubOk, MapOk, Send, Atomicity.Takes, UpdateStatus;
    var rest := [Lookup(u, ReadNotice(m), Plain)];
    assert s.todo == [Mark(m, Read, 0)] + rest;
    Atomicity.MarkStep(s, m, Read, 0, rest, ANY);
    var s1 := s.(db := UpdateStatus(s.db, m, Read), clock := s.clock + 1, todo := rest);
    n, s' := Atomicity.AnswerSteps(s, 1, s1, u, ReadNotice(m), ANY);
  }

  /** The acknowledgement at last. */
  lemma AckNow(f: Fine, i: nat, t: nat, op: Op, c: ClientId, u: UserId) returns (more: seq<FineEvent>, f': Fine)
    requires Ends(f, i, t, op, c, u, 1) && CarriesAck(op) && op.why == Plain
    requires if op.Lookup? then op.user == u else op.client == c
    ensures f' == FineRun(f, more) && i < |f'.hubs|
    ensures f'.hubs[i].log == f.hubs[i].log + [Accept(c, u, op.packet)]
  {
    SendKeepsPlaces(f.hubs[i], u, op.packet, c, 1);
    assert Offer(f.hubs[i], c) == Accepted && MapOk(f.hubs[i]);
    hide HubOk, HasPlaces, FineRun, Send, MapOk, Atomicity.Takes, Offer;
    var s := Atomicity.SoloOf(f, t);
    var n, s';
    if op.Lookup? {
      n, s' := Atomicity.LastSend(s, u, op.packet, ANY);
    } else {
      assert s.todo == [op] + [];
      Atomicity.EnqueueAccepts(s, c, op.packet, Plain, op.at, [], ANY);
      n, s' := 1, s.(hub := HubSpec.Enqueue(s.hub, c, op.packet), clock := s.clock + 1,
                     todo := AfterAccepted(Plain) + []);
    }
    Atomicity.AloneIsARun(f, t, ANY, n, s');
    more := Atomicity.Repeated(Take(t, ANY), n);
    f' := FineRun(f, more);
  }

  /**
   Thread t's acknowledgement, its step k, is bound for connection c of its own live instance; c is open, mapped
   and has room for it and a notice; and the handler's next step neither panics nor drops c.
   */
  ghost predicate Breakable(f: Fine, t: nat, k: nat, c: ClientId) {
    && t < |f.threads| && k < |f.threads[t].todo|
    && f.threads[t].inst < |f.hubs| && f.threads[t].inst !in f.dead
    && var h, todo := f.hubs[f.threads[t].inst], f.threads[t].todo;
       && Harmless(h, todo, c) && HasPlaces(h, c, 2 + CopyPlaces(h, todo, c))
       && match todo[k]
          case Lookup(u, _, _) => u == h.chans[c].user
          case Enqueue(x, _, _, _) => x == c
          case _ => false
  }

  lemma LastIsAck(todo: seq<Op>, k: nat, m: MsgId)
    requires Form(todo) && k < |todo| && AckOp(todo[k], m)
    ensures AckLast(todo) && k == |todo| - 1
  {}

  lemma TwoMore(log: seq<Accept>, c: ClientId, u: UserId, m: MsgId, p: Packet)
    requires IsAck(p, m)
    ensures WrongOrder(Project(log + [Accept(c, u, ReadNotice(m))] + [Accept(c, u, p)], c), m)
  {
    var one := log + [Accept(c, u, ReadNotice(m))];
    ProjectAppend(log, Accept(c, u, ReadNotice(m)), c);
    ProjectAppend(one, Accept(c, u, p), c);
    hide Project;
    var ps := Project(one + [Accept(c, u, p)], c);
    assert ps[|ps| - 2] == ReadNotice(m) && ps[|ps| - 1] == p;
  }

  /**
   The other half: from every reachable state in which a handler still has the acknowledgement of m to send to
   an open connection with room, some continuation of the run shows a notice of m there before it.
   */
  lemma HeldCanBreak(n: nat, es: seq<FineEvent>, t: nat, k: nat, c: ClientId, m: MsgId)
    requires StandsAt(FineRun(FineInit(n), es), Todo(t, k), m) && Breakable(FineRun(FineInit(n), es), t, k, c)
    ensures var i := FineRun(FineInit(n), es).threads[t].inst;
            exists more :: WrongOrder(StreamOf(FineRun(FineInit(n), es + more), i, c), m)
  {
    var f := FineRun(FineInit(n), es);
    var i, op := f.threads[t].inst, f.threads[t].todo[k];
    Reached(n, es, t, i, k, m);
    hide FineRun, FineInit, AckLast, Harmless, HasPlaces, HubOk, Project, WrongOrder;
    var m1, f1 := DriveToAck(f, t, c);
    var u := f.hubs[i].chans[c].user;
    var m2, f2 := NoticeNow(f1, i, t, op, c, u, m);
    var m3, f3 := AckNow(f2, i, t, op, c, u);
    TwoMore(f1.hubs[i].log, c, u, m, op.packet);
    Together(n, es, m1, m2, m3);
    assert WrongOrder(StreamOf(FineRun(FineInit(n), es + (m1 + (m2 + m3))), i, c), m);
  }

  lemma Together(n: nat, es: seq<FineEvent>, a: seq<FineEvent>, b: seq<FineEvent>, c: seq<FineEvent>)
    ensures FineRun(FineInit(n), es + (a + (b + c))) == FineRun(FineRun(FineRun(FineRun(FineInit(n), es), a), b), c)
  {
    hide FineRun, FineInit;
    RunSplits(FineInit(n), es, a + (b + c));
    RunSplits(FineRun(FineInit(n), es), a, b + c);
    RunSplits(FineRun(FineRun(FineInit(n), es), a), b, c);
  }

  lemma Reached(n: nat, es: seq<FineEvent>, t: nat, i: nat, k: nat, m: MsgId)
    requires var f := FineRun(FineInit(n), es);
             StandsAt(f, Todo(t, k), m) && f.threads[t].inst == i < |f.hubs|
    ensures var f := FineRun(FineInit(n), es);
            && AckLast(f.threads[t].todo) && k == |f.threads[t].todo| - 1 && CarriesAck(f.threads[t].todo[k])
            && f.threads[t].todo[k].why == Plain && HubOk(f.hubs[i]) && m < |f.db.rows|
  {
    InterleavedHub.FineInitOk(n);
    InitReceipts(n);
    RunKeepsReceipts(FineInit(n), es);
    RunKeepsForms(FineInit(n), es);
    var f := FineRun(FineInit(n), es);
    InterleavedHub.HubOfFine(f, i);
    hide FineRun, FineInit, HubOk, InterleavedHub.HubInv, NoticeInv, AcksOnce;
    assert Form(f.threads[t].todo);
    LastIsAck(f.threads[t].todo, k, m);
  }

  /** Every handler with the acknowledgement of m to send can be overtaken on the connection. */
  ghost predicate AllBreakable(f: Fine, i: nat, c: ClientId, m: MsgId) {
    forall t: nat, k: nat | StandsAt(f, Todo(t, k), m) :: f.threads[t].inst == i && Breakable(f, t, k, c)
  }

  /**
   The guard is exact. From a reachable state with the row stored and not yet acknowledged, and with the
   sender's connection open and roomy if the handler is still to write to it, all continuations keep the order
   of the row's receipts there if and only if no handler has the acknowledgement to send any more.
   */
  lemma SafeFromHereIff(n: nat, es: seq<FineEvent>, i: nat, c: ClientId, m: MsgId)
    requires var f := FineRun(FineInit(n), es);
             0 <= m < |f.db.rows| && m !in f.readAt && AllBreakable(f, i, c, m)
    ensures (forall more :: !WrongOrder(StreamOf(FineRun(FineInit(n), es + more), i, c), m))
       <==> !Held(FineRun(FineInit(n), es), m)
  {
    var f := FineRun(FineInit(n), es);
    if Held(f, m) {
      var t: nat, k: nat :| StandsAt(f, Todo(t, k), m);
      hide FineRun, FineInit, StreamOf, WrongOrder, Breakable;
      HeldCanBreak(n, es, t, k, c, m);
    } else {
      hide FineRun, FineInit, StreamOf, WrongOrder, Held;
      forall more ensures !WrongOrder(StreamOf(FineRun(FineInit(n), es + more), i, c), m) {
        InOrderOnceFinished(n, es, more, i, c, m);
      }
    }
  }
}
