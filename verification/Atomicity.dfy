/**
 The two granularities agree: a handler whose lock-sized steps are not interrupted does to the hub and the
 tables exactly what the protocol's single step does.
 */
module Atomicity {
  import opened ChatTypes
  import opened HubSpec
  import opened DbSpec
  import opened Interleaving
  import Protocol

  /** One thread and what it can see. */
  datatype Solo = Solo(hub: HubState, db: Db, clock: nat, todo: seq<Op>)

  ghost predicate CanStep(s: Solo, ch: Choice) {
    && s.todo != [] && InRange(s.hub, s.db, s.todo[0]) && ChoiceOk(s.db, s.todo[0], ch)
    && !Crashes(s.hub, s.db, s.todo[0])
  }

  ghost function SoloStep(s: Solo, ch: Choice): Solo
    requires CanStep(s, ch)
  {
    var op := s.todo[0];
    Solo(NextHub(s.hub, s.db, op), NextDb(s.db, op, ch), s.clock + 1,
         NextTodo(s.hub, s.db, s.clock, op, s.todo[1..], ch))
  }

  /** The thread alone takes n steps. */
  ghost predicate Takes(s: Solo, ch: Choice, n: nat, s': Solo)
    decreases n
  {
    if n == 0 then s' == s else CanStep(s, ch) && Takes(SoloStep(s, ch), ch, n - 1, s')
  }

  lemma {:induction false} TakesMore(s: Solo, ch: Choice, n: nat, s1: Solo, k: nat, s2: Solo)
    requires Takes(s, ch, n, s1) && Takes(s1, ch, k, s2)
    ensures Takes(s, ch, n + k, s2)
    decreases n
  {
    hide CanStep, SoloStep;
    if n > 0 {
      TakesMore(SoloStep(s, ch), ch, n - 1, s1, k, s2);
    }
  }

  lemma TakesOne(s: Solo, ch: Choice, s': Solo)
    requires CanStep(s, ch) && s' == SoloStep(s, ch)
    ensures Takes(s, ch, 1, s')
  {
    assert Takes(s', ch, 0, s');
  }

  /** One operation in front of a rest. */
  lemma StepIs(s: Solo, op: Op, rest: seq<Op>, ch: Choice)
    requires s.todo == [op] + rest && InRange(s.hub, s.db, op) && ChoiceOk(s.db, op, ch) && !Crashes(s.hub, s.db, op)
    ensures Takes(s, ch, 1, Solo(NextHub(s.hub, s.db, op), NextDb(s.db, op, ch), s.clock + 1,
                                 NextTodo(s.hub, s.db, s.clock, op, rest, ch)))
  {
    assert s.todo[1..] == rest;
    hide NextHub, NextDb, NextTodo, InRange, ChoiceOk, Crashes;
    TakesOne(s, ch, SoloStep(s, ch));
  }

  /** The steps a send leaves to its handler. */
  function AfterSend(why: Why, ok: bool): seq<Op> {
    if ok then AfterAccepted(why) else AfterRefused(why)
  }

  lemma LookupFails(s: Solo, u: UserId, p: Packet, why: Why, rest: seq<Op>, ch: Choice)
    requires s.todo == [Lookup(u, p, why)] + rest && u !in s.hub.clients
    ensures Takes(s, ch, 1, s.(clock := s.clock + 1, todo := AfterRefused(why) + rest))
  {
    StepIs(s, Lookup(u, p, why), rest, ch);
  }

  lemma LookupFinds(s: Solo, u: UserId, p: Packet, why: Why, rest: seq<Op>, ch: Choice)
    requires s.todo == [Lookup(u, p, why)] + rest && u in s.hub.clients
    ensures Takes(s, ch, 1, s.(clock := s.clock + 1, todo := [Enqueue(s.hub.clients[u], p, why, s.clock)] + rest))
  {
    StepIs(s, Lookup(u, p, why), rest, ch);
  }

  lemma EnqueueAccepts(s: Solo, c: ClientId, p: Packet, why: Why, at: nat, rest: seq<Op>, ch: Choice)
    requires s.todo == [Enqueue(c, p, why, at)] + rest && c < |s.hub.chans| && Offer(s.hub, c) == Accepted
    ensures Takes(s, ch, 1, s.(hub := HubSpec.Enqueue(s.hub, c, p), clock := s.clock + 1,
                               todo := AfterAccepted(why) + rest))
  {
    StepIs(s, Enqueue(c, p, why, at), rest, ch);
  }

  lemma EnqueueEvicts(s: Solo, c: ClientId, p: Packet, why: Why, at: nat, rest: seq<Op>, ch: Choice)
    requires s.todo == [Enqueue(c, p, why, at)] + rest && c < |s.hub.chans| && Offer(s.hub, c) == Full
    ensures Takes(s, ch, 2, s.(hub := Unregister(s.hub, c), clock := s.clock + 2, todo := AfterRefused(why) + rest))
  {
    hide Unregister, Offer;
    StepIs(s, Enqueue(c, p, why, at), rest, ch);
    var left := AfterRefused(why) + rest;
    assert [Evict(c)] + AfterRefused(why) + rest == [Evict(c)] + left;
    var s1 := s.(clock := s.clock + 1, todo := [Evict(c)] + left);
    StepIs(s1, Evict(c), left, ch);
    var s2 := s.(hub := Unregister(s.hub, c), clock := s.clock + 2, todo := left);
    hide Takes, NextTodo, NextHub, NextDb;
    TakesMore(s, ch, 1, s1, 1, s2);
  }

  /** Lookup and enqueue, uninterrupted, are the send. */
  lemma SendSteps(s: Solo, u: UserId, p: Packet, why: Why, rest: seq<Op>, ch: Choice) returns (n: nat, s': Solo)
    requires s.todo == [Lookup(u, p, why)] + rest && MapOk(s.hub)
    ensures Takes(s, ch, n, s') && s'.db == s.db && s'.hub == Send(s.hub, u, p).hub
    ensures s'.todo == AfterSend(why, Send(s.hub, u, p).ok) + rest
  {
    hide Takes, HubSpec.Enqueue, Unregister, AfterAccepted, AfterRefused;
    if u !in s.hub.clients {
      LookupFails(s, u, p, why, rest, ch);
      n, s' := 1, s.(clock := s.clock + 1, todo := AfterRefused(why) + rest);
    } else {
      var c := s.hub.clients[u];
      LookupFinds(s, u, p, why, rest, ch);
      var s1 := s.(clock := s.clock + 1, todo := [Enqueue(c, p, why, s.clock)] + rest);
      assert Offer(s.hub, c) != Panics;
      if Offer(s.hub, c) == Accepted {
        EnqueueAccepts(s1, c, p, why, s.clock, rest, ch);
        s' := s1.(hub := HubSpec.Enqueue(s.hub, c, p), clock := s1.clock + 1, todo := AfterAccepted(why) + rest);
        n := 2;
        TakesMore(s, ch, 1, s1, 1, s');
      } else {
        EnqueueEvicts(s1, c, p, why, s.clock, rest, ch);
        s' := s1.(hub := Unregister(s.hub, c), clock := s1.clock + 2, todo := AfterRefused(why) + rest);
        n := 3;
        TakesMore(s, ch, 1, s1, 2, s');
      }
    }
  }

  // ---- a direct message

  /** The pair lookup, and the insert of a chat when it finds none. */
  lemma ChatSteps(s: Solo, from: UserId, to: UserId, id: nat, body: string, ch: Choice) returns (n: nat, s': Solo)
    requires s.todo == [FindChat(from, to, id, body)] && ValidPick(s.db, from, to, ch.pick)
    ensures Takes(s, ch, n, s') && s'.hub == s.hub
    ensures match FindOrCreateChat(s.db, from, to, ch.pick)
            case DuplicateMember => s'.db == s.db && s'.todo == []
            case Found(db, chat) => s'.db == db && s'.todo == [Insert(chat, from, to, id, body)]
  {
    hide Takes, Matches;
    var op := FindChat(from, to, id, body);
    assert s.todo == [op] + [];
    StepIs(s, op, [], ch);
    if Matches(s.db, from, to) != {} {
      n, s' := 1, s.(clock := s.clock + 1, todo := [Insert(ch.pick, from, to, id, body)]);
      assert s'.todo + [] == s'.todo;
    } else {
      var make := MakeChat(from, to, id, body, s.clock);
      var s1 := s.(clock := s.clock + 1, todo := [make]);
      assert s1.todo == [make] + [];
      StepIs(s1, make, [], ch);
      if from == to {
        s' := s1.(clock := s1.clock + 1, todo := []);
      } else {
        s' := s1.(db := CreateChat(s.db, from, to).db, clock := s1.clock + 1,
                  todo := [Insert(s.db.chatCount, from, to, id, body)]);
        assert s'.todo + [] == s'.todo;
      }
      n := 2;
      TakesMore(s, ch, 1, s1, 1, s');
    }
  }

  lemma InsertStep(s: Solo, chat: ChatId, from: UserId, to: UserId, id: nat, body: string, ch: Choice)
    requires s.todo == [Insert(chat, from, to, id, body)]
    ensures var m := |s.db.rows|;
            Takes(s, ch, 1, s.(db := InsertMessage(s.db, chat, from, body, ch.now), clock := s.clock + 1,
                               todo := [Lookup(to, Message(m, from, body, ch.now), DmCopy(m, s.clock)),
                                        Lookup(from, SentAck(m, id), Plain)]))
  {
    hide Takes;
    var op, m := Insert(chat, from, to, id, body), |s.db.rows|;
    assert s.todo == [op] + [];
    StepIs(s, op, [], ch);
    var next := [Lookup(to, Message(m, from, body, ch.now), DmCopy(m, s.clock)), Lookup(from, SentAck(m, id), Plain)];
    assert next + [] == next;
  }

  /** After the copy: the mark of a local delivery, or the publication. */
  lemma OutcomeStep(s: Solo, m: MsgId, since: nat, ok: bool, rest: seq<Op>, ch: Choice)
    requires s.todo == AfterSend(DmCopy(m, since), ok) + rest
    ensures Takes(s, ch, 1, s.(db := if ok then UpdateStatus(s.db, m, Delivered) else s.db, clock := s.clock + 1,
                               todo := if ok || ch.pubOk then rest else []))
  {
    hide Takes;
    StepIs(s, if ok then Mark(m, Delivered, since) else Publish, rest, ch);
  }

  lemma MarkStep(s: Solo, m: MsgId, status: Status, since: nat, rest: seq<Op>, ch: Choice)
    requires s.todo == [Mark(m, status, since)] + rest
    ensures Takes(s, ch, 1, s.(db := UpdateStatus(s.db, m, status), clock := s.clock + 1, todo := rest))
  {
    hide Takes;
    StepIs(s, Mark(m, status, since), rest, ch);
  }

  lemma IdsStayValid(db: Db, m: MsgId, status: Status, ms: seq<MsgId>)
    requires ms != [] && ValidIds(db, ms)
    ensures ValidIds(UpdateStatus(db, m, status), ms[1..])
  {}

  /** The send of the last packet of a handler. */
  lemma LastSend(s: Solo, u: UserId, p: Packet, ch: Choice) returns (n: nat, s': Solo)
    requires s.todo == [Lookup(u, p, Plain)] && MapOk(s.hub)
    ensures Takes(s, ch, n, s') && s'.db == s.db && s'.hub == Send(s.hub, u, p).hub && s'.todo == []
  {
    hide Takes, Send, MapOk;
    assert s.todo == [Lookup(u, p, Plain)] + [];
    n, s' := SendSteps(s, u, p, Plain, [], ch);
  }

  function AfterCopy(s: Solo, to: UserId, p: Packet, m: MsgId): Db {
    if Send(s.hub, to, p).ok then UpdateStatus(s.db, m, Delivered) else s.db
  }

  /** The copy, and the mark or the publication after it. */
  lemma CopySteps(s: Solo, to: UserId, p: Packet, m: MsgId, since: nat, rest: seq<Op>, ch: Choice)
    returns (n: nat, s': Solo)
    requires s.todo == [Lookup(to, p, DmCopy(m, since))] + rest && MapOk(s.hub)
    ensures Takes(s, ch, n, s') && s'.hub == Send(s.hub, to, p).hub && s'.db == AfterCopy(s, to, p, m)
    ensures s'.todo == if Send(s.hub, to, p).ok || ch.pubOk then rest else []
  {
    hide Takes, Send, MapOk, UpdateStatus;
    var ok := Send(s.hub, to, p).ok;
    var k, s1 := SendSteps(s, to, p, DmCopy(m, since), rest, ch);
    OutcomeStep(s1, m, since, ok, rest, ch);
    s' := s1.(db := if ok then UpdateStatus(s.db, m, Delivered) else s.db, clock := s1.clock + 1,
              todo := if ok || ch.pubOk then rest else []);
    n := k + 1;
    TakesMore(s, ch, k, s1, 1, s');
  }

  /** The copy and what follows it. */
  lemma DeliverSteps(s: Solo, from: UserId, to: UserId, id: nat, p: Packet, m: MsgId, since: nat, ch: Choice)
    returns (n: nat, s': Solo)
    requires s.todo == [Lookup(to, p, DmCopy(m, since)), Lookup(from, SentAck(m, id), Plain)] && HubOk(s.hub)
    ensures var r := Send(s.hub, to, p);
            && Takes(s, ch, n, s') && s'.todo == []
            && s'.db == (if r.ok then UpdateStatus(s.db, m, Delivered) else s.db)
            && s'.hub == (if r.ok || ch.pubOk then Send(r.hub, from, SentAck(m, id)).hub else r.hub)
  {
    SendEffect(s.hub, to, p);
    assert MapOk(s.hub) && MapOk(Send(s.hub, to, p).hub) by { hide Send; }
    hide Takes, Send, MapOk, HubOk, UpdateStatus, SameConnections;
    var ack := [Lookup(from, SentAck(m, id), Plain)];
    assert s.todo == [Lookup(to, p, DmCopy(m, since))] + ack;
    n, s' := CopySteps(s, to, p, m, since, ack, ch);
    if Send(s.hub, to, p).ok || ch.pubOk {
      n, s' := AnswerSteps(s, n, s', from, SentAck(m, id), ch);
    }
  }

  lemma AnswerSteps(s: Solo, n1: nat, s1: Solo, from: UserId, p: Packet, ch: Choice) returns (n: nat, s': Solo)
    requires Takes(s, ch, n1, s1) && s1.todo == [Lookup(from, p, Plain)] && MapOk(s1.hub)
    ensures Takes(s, ch, n, s') && s'.db == s1.db && s'.hub == Send(s1.hub, from, p).hub && s'.todo == []
  {
    hide Takes, Send, MapOk;
    var k;
    k, s' := LastSend(s1, from, p, ch);
    n := n1 + k;
    TakesMore(s, ch, n1, s1, k, s');
  }

  /** What the protocol's delivery does to the hub and the tables. */
  lemma DeliverIs(w: Protocol.World, chat: ChatId, from: UserId, to: UserId, id: nat, body: string, now: int,
                  pubOk: bool)
    ensures var m := |w.db.rows|;
            var r := Send(w.node.hub, to, Message(m, from, body, now));
            var db := InsertMessage(w.db, chat, from, body, now);
            var w' := Protocol.DeliverDm(w, chat, from, to, id, body, now, pubOk);
            && w'.db == (if r.ok then UpdateStatus(db, m, Delivered) else db)
            && w'.node.hub == (if r.ok || pubOk then Send(r.hub, from, SentAck(m, id)).hub else r.hub)
  {
    hide Send, UpdateStatus, InsertMessage;
  }

  /** The handler's steps from the insert on. */
  lemma StoredSteps(s: Solo, n1: nat, s1: Solo, chat: ChatId, from: UserId, to: UserId, id: nat, body: string,
                    ch: Choice)
    returns (n: nat, s': Solo)
    requires Takes(s, ch, n1, s1) && s1.todo == [Insert(chat, from, to, id, body)] && HubOk(s1.hub)
    ensures var m := |s1.db.rows|;
            var db := InsertMessage(s1.db, chat, from, body, ch.now);
            var r := Send(s1.hub, to, Message(m, from, body, ch.now));
            && Takes(s, ch, n, s') && s'.todo == []
            && s'.db == (if r.ok then UpdateStatus(db, m, Delivered) else db)
            && s'.hub == (if r.ok || ch.pubOk then Send(r.hub, from, SentAck(m, id)).hub else r.hub)
  {
    hide Takes, Send, HubOk, UpdateStatus, InsertMessage;
    var m := |s1.db.rows|;
    var p := Message(m, from, body, ch.now);
    InsertStep(s1, chat, from, to, id, body, ch);
    var s2 := s1.(db := InsertMessage(s1.db, chat, from, body, ch.now), clock := s1.clock + 1,
                  todo := [Lookup(to, p, DmCopy(m, s1.clock)), Lookup(from, SentAck(m, id), Plain)]);
    TakesMore(s, ch, n1, s1, 1, s2);
    var k;
    k, s' := DeliverSteps(s2, from, to, id, p, m, s1.clock, ch);
    TakesMore(s, ch, n1 + 1, s2, k, s');
    n := n1 + 1 + k;
  }

  /** A direct message whose steps are not interrupted is the protocol's single step. */
  lemma DirectMessageIsAtomic(s: Solo, w: Protocol.World, from: UserId, to: UserId, id: nat, body: string, ch: Choice)
    returns (n: nat, s': Solo)
    requires s.todo == [FindChat(from, to, id, body)] && s.hub == w.node.hub && s.db == w.db
    requires HubOk(s.hub) && ValidPick(s.db, from, to, ch.pick)
    ensures var w' := Protocol.HandleDm(w, from, to, id, body, ch.now, ch.pick, ch.pubOk);
            Takes(s, ch, n, s') && s'.todo == [] && s'.hub == w'.node.hub && s'.db == w'.db
  {
    hide Takes, Send, HubOk, UpdateStatus, InsertMessage, FindOrCreateChat, Matches, ValidPick, Protocol.DeliverDm;
    n, s' := ChatSteps(s, from, to, id, body, ch);
    match FindOrCreateChat(s.db, from, to, ch.pick) {
      case DuplicateMember =>
      case Found(db, chat) =>
        n, s' := StoredSteps(s, n, s', chat, from, to, id, body, ch);
        DeliverIs(w.(db := db), chat, from, to, id, body, ch.now, ch.pubOk);
    }
  }

  // ---- an acknowledgement

  /** The steps of a read receipt, with the notice to the sender it names, if any. */
  function AckSteps(m: MsgId, since: nat, notify: Option<UserId>): seq<Op> {
    [Mark(m, Read, since)] + if notify.Some? then [Lookup(notify.value, ReadNotice(m), Plain)] else []
  }

  /** What the protocol's acknowledgement does to the hub and the tables. */
  lemma AckIs(w: Protocol.World, reader: UserId, m: MsgId, notify: Option<UserId>, pubOk: bool)
    ensures var w' := Protocol.HandleAck(w, reader, m, notify, pubOk);
            && w'.db == UpdateStatus(w.db, m, Read)
            && w'.node.hub == match notify
                              case Some(user) => Send(w.node.hub, user, ReadNotice(m)).hub
                              case None => w.node.hub
  {
    hide Send, UpdateStatus;
  }

  /** The same for a read receipt, whether or not it names a sender to notify. */
  lemma AcknowledgementIsAtomic(s: Solo, w: Protocol.World, reader: UserId, m: MsgId, since: nat,
                                notify: Option<UserId>,
                                ch: Choice)
    returns (n: nat, s': Solo)
    requires s.todo == AckSteps(m, since, notify) && s.hub == w.node.hub && s.db == w.db && HubOk(s.hub)
    ensures var w' := Protocol.HandleAck(w, reader, m, notify, ch.pubOk);
            Takes(s, ch, n, s') && s'.todo == [] && s'.hub == w'.node.hub && s'.db == w'.db
  {
    AckIs(w, reader, m, notify, ch.pubOk);
    assert MapOk(s.hub);
    hide Takes, Send, HubOk, MapOk, UpdateStatus, Protocol.HandleAck;
    var rest := if notify.Some? then [Lookup(notify.value, ReadNotice(m), Plain)] else [];
    MarkStep(s, m, Read, since, rest, ch);
    var s1 := s.(db := UpdateStatus(s.db, m, Read), clock := s.clock + 1, todo := rest);
    if notify.Some? {
      n, s' := AnswerSteps(s, 1, s1, notify.value, ReadNotice(m), ch);
    } else {
      n, s' := 1, s1;
    }
  }

  // ---- a connect

  /** One turn of the loop. */
  lemma LoopTurn(s: Solo, c: ClientId, user: UserId, ms: seq<MsgId>, since: nat, ch: Choice) returns (n: nat, s': Solo)
    requires s.todo == [HookLoop(c, user, ms, since)] && HubOk(s.hub) && c < |s.hub.chans| && ValidIds(s.db, ms)
    requires ms != []
    ensures Takes(s, ch, n, s') && s'.todo == [HookLoop(c, user, ms[1..], since)]
    ensures s'.hub == Send(s.hub, user, PacketOf(s.db, ms[0])).hub && s'.db == UpdateStatus(s.db, ms[0], Delivered)
  {
    hide Takes, Send, HubOk, UpdateStatus;
    var m, p := ms[0], PacketOf(s.db, ms[0]);
    assert s.todo == [HookLoop(c, user, ms, since)] + [];
    StepIs(s, HookLoop(c, user, ms, since), [], ch);
    var loop := [HookLoop(c, user, ms[1..], since)];
    var s1 := s.(clock := s.clock + 1, todo := [Lookup(user, p, Replay(c, m)), Mark(m, Delivered, since)] + loop);
    assert s1.todo == [Lookup(user, p, Replay(c, m)), Mark(m, Delivered, since), HookLoop(c, user, ms[1..], since)];
    var k;
    k, s' := RowSteps(s1, c, user, m, p, since, loop, ch);
    n := 1 + k;
    TakesMore(s, ch, 1, s1, k, s');
  }

  lemma LoopEnds(s: Solo, c: ClientId, user: UserId, since: nat, ch: Choice)
    requires s.todo == [HookLoop(c, user, [], since)] && c < |s.hub.chans|
    ensures Takes(s, ch, 1, s.(hub := StartPumps(s.hub, c), clock := s.clock + 1, todo := []))
  {
    hide Takes, StartPumps;
    assert s.todo == [HookLoop(c, user, [], since)] + [];
    StepIs(s, HookLoop(c, user, [], since), [], ch);
  }

  /** The loop over the pending rows is the protocol's replay, and then the pumps start. */
  lemma {:induction false} LoopIsReplay(s: Solo, c: ClientId, user: UserId, ms: seq<MsgId>, since: nat, ch: Choice)
    returns (n: nat, s': Solo)
    requires s.todo == [HookLoop(c, user, ms, since)] && HubOk(s.hub) && c < |s.hub.chans| && ValidIds(s.db, ms)
    ensures var r := Protocol.Replay(s.hub, s.db, user, ms);
            Takes(s, ch, n, s') && s'.todo == [] && s'.hub == StartPumps(r.0, c) && s'.db == r.1
    decreases |ms|
  {
    hide Takes, Send, HubOk, UpdateStatus, StartPumps, SameConnections;
    if ms == [] {
      LoopEnds(s, c, user, since, ch);
      n, s' := 1, s.(hub := StartPumps(s.hub, c), clock := s.clock + 1, todo := []);
    } else {
      var k, s2 := LoopTurn(s, c, user, ms, since, ch);
      SendEffect(s.hub, user, PacketOf(s.db, ms[0]));
      IdsStayValid(s.db, ms[0], Delivered, ms);
      n, s' := LoopIsReplay(s2, c, user, ms[1..], since, ch);
      TakesMore(s, ch, k, s2, n, s');
      n := k + n;
    }
  }

  /** One row of the loop: offered, and marked whatever came of it. */
  lemma RowSteps(s: Solo, c: ClientId, user: UserId, m: MsgId, p: Packet, since: nat, loop: seq<Op>, ch: Choice)
    returns (n: nat, s': Solo)
    requires s.todo == [Lookup(user, p, Replay(c, m)), Mark(m, Delivered, since)] + loop && HubOk(s.hub)
    ensures Takes(s, ch, n, s') && s'.todo == loop
    ensures s'.hub == Send(s.hub, user, p).hub && s'.db == UpdateStatus(s.db, m, Delivered)
  {
    assert MapOk(s.hub);
    hide Takes, Send, HubOk, MapOk, UpdateStatus;
    var rest := [Mark(m, Delivered, since)] + loop;
    assert s.todo == [Lookup(user, p, Replay(c, m))] + rest;
    var k, s1 := SendSteps(s, user, p, Replay(c, m), rest, ch);
    assert [] + rest == rest;
    MarkStep(s1, m, Delivered, since, loop, ch);
    s' := s1.(db := UpdateStatus(s.db, m, Delivered), clock := s1.clock + 1, todo := loop);
    n := k + 1;
    TakesMore(s, ch, k, s1, 1, s');
  }

  /** A connect whose steps are not interrupted is the protocol's single step. */
  lemma ConnectIsAtomic(s: Solo, user: UserId, ch: Choice) returns (n: nat, s': Solo)
    requires s.todo == [RegisterUser(user)] && HubOk(s.hub)
    requires ValidIds(s.db, ch.batch) && IsPendingBatch(s.db, user, ch.batch)
    ensures Takes(s, ch, n, s') && s'.todo == []
    ensures s'.hub == Protocol.ConnectHub(s.hub, s.db, user, ch.batch)
    ensures s'.db == Protocol.ConnectDb(s.hub, s.db, user, ch.batch)
  {
    hide Takes, HubOk, IsPendingBatch, Protocol.Replay, StartPumps, Register;
    var c := |s.hub.chans|;
    RegisterKeepsHub(s.hub, user);
    assert s.todo == [RegisterUser(user)] + [];
    StepIs(s, RegisterUser(user), [], ch);
    var s1 := s.(hub := Register(s.hub, user), clock := s.clock + 1, todo := [QueryPending(user, c)]);
    assert s1.todo == [QueryPending(user, c)] + [];
    assert c < |s1.hub.chans| by { RegisterAdds(s.hub, user); }
    StepIs(s1, QueryPending(user, c), [], ch);
    var s2 := s1.(clock := s1.clock + 1, todo := [HookLoop(c, user, ch.batch, s1.clock)]);
    TakesMore(s, ch, 1, s1, 1, s2);
    n, s' := LoopIsReplay(s2, c, user, ch.batch, s1.clock, ch);
    TakesMore(s, ch, 2, s2, n, s');
    n := 2 + n;
  }

  lemma RegisterAdds(h: HubState, user: UserId)
    ensures |Register(h, user).chans| == |h.chans| + 1
  {}

  // ---- the same inside a system

  function Repeated(e: FineEvent, n: nat): seq<FineEvent> {
    if n == 0 then [] else [e] + Repeated(e, n - 1)
  }

  function SoloOf(f: Fine, t: nat): Solo
    requires t < |f.threads| && f.threads[t].inst < |f.hubs|
  {
    Solo(f.hubs[f.threads[t].inst], f.db, f.clock, f.threads[t].todo)
  }

  /** The system with one thread, its instance and the tables moved on. */
  predicate MovedTo(f: Fine, f': Fine, t: nat, s: Solo) {
    && t < |f.threads| && f.threads[t].inst < |f.hubs|
    && f'.hubs == f.hubs[f.threads[t].inst := s.hub] && f'.db == s.db && f'.clock == s.clock
    && f'.threads == f.threads[t := Thread(f.threads[t].inst, s.todo)] && f'.dead == f.dead
  }

  lemma StepInSystem(f: Fine, t: nat, ch: Choice)
    requires t < |f.threads| && f.threads[t].inst < |f.hubs| && f.threads[t].inst !in f.dead
    requires CanStep(SoloOf(f, t), ch)
    ensures MovedTo(f, FineStep(f, Take(t, ch)), t, SoloStep(SoloOf(f, t), ch))
  {
    hide NextDb, NextHub, NextTodo, NextOwn, NextOthers, NextReadAt, NextClosedAt, NextHook, NextReplaced, InRange,
      ChoiceOk, Closes;
    assert Ready(f, t, ch);
  }

  lemma MovedTwice(f: Fine, f1: Fine, f2: Fine, t: nat, s1: Solo, s2: Solo)
    requires MovedTo(f, f1, t, s1) && MovedTo(f1, f2, t, s2)
    ensures MovedTo(f, f2, t, s2)
  {
    var i := f.threads[t].inst;
    assert f.hubs[i := s1.hub][i := s2.hub] == f.hubs[i := s2.hub];
    assert f.threads[t := Thread(i, s1.todo)][t := Thread(i, s2.todo)] == f.threads[t := Thread(i, s2.todo)];
  }

  lemma NotMoved(f: Fine, t: nat)
    requires t < |f.threads| && f.threads[t].inst < |f.hubs|
    ensures MovedTo(f, f, t, SoloOf(f, t))
  {
    assert f.hubs[f.threads[t].inst := f.hubs[f.threads[t].inst]] == f.hubs;
    assert f.threads[t := Thread(f.threads[t].inst, f.threads[t].todo)] == f.threads;
  }

  lemma MovedIsSeen(f: Fine, f': Fine, t: nat, s: Solo)
    requires MovedTo(f, f', t, s)
    ensures t < |f'.threads| && f'.threads[t].inst == f.threads[t].inst < |f'.hubs| && SoloOf(f', t) == s
    ensures f'.dead == f.dead
  {}

  lemma RunFirst(f: Fine, e: FineEvent, n: nat)
    requires 0 < n
    ensures FineRun(f, Repeated(e, n)) == FineRun(FineStep(f, e), Repeated(e, n - 1))
  {
    hide FineStep;
    assert Repeated(e, n)[1..] == Repeated(e, n - 1);
  }

  /** The steps of one thread, taken in a row, are a run of the interleaving model; nothing else moves. */
  lemma {:induction false} AloneIsARun(f: Fine, t: nat, ch: Choice, n: nat, s': Solo)
    requires t < |f.threads| && f.threads[t].inst < |f.hubs| && f.threads[t].inst !in f.dead
    requires Takes(SoloOf(f, t), ch, n, s')
    ensures MovedTo(f, FineRun(f, Repeated(Take(t, ch), n)), t, s')
    decreases n
  {
    hide CanStep, SoloStep, FineStep, FineRun, MovedTo, SoloOf;
    NotMoved(f, t);
    if n == 0 {
      assert FineRun(f, []) == f by { NoEvents(f); }
    } else {
      var f1 := FineStep(f, Take(t, ch));
      StepInSystem(f, t, ch);
      MovedIsSeen(f, f1, t, SoloStep(SoloOf(f, t), ch));
      AloneIsARun(f1, t, ch, n - 1, s');
      RunFirst(f, Take(t, ch), n);
      MovedTwice(f, f1, FineRun(f1, Repeated(Take(t, ch), n - 1)), t, SoloOf(f1, t), s');
    }
  }

  lemma NoEvents(f: Fine)
    ensures FineRun(f, []) == f
  {}
}
