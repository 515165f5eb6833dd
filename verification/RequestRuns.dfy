/** Every request is a run of the protocol's events, so what holds of all runs holds of all that clients ask for. */
module RequestRuns {
  import opened ChatTypes
  import opened HubSpec
  import opened DbSpec
  import opened HubTells
  import opened Protocol
  import opened Requests
  import BusSpec
  import Groups
  import GroupsSpec
  import Presence
  import ProtocolSteps

  /** The system after the requests of one instance have changed its hub. */
  function WithHub(s: Sys, i: nat, h: HubState): Sys
    requires i < |s.nodes|
  {
    s.(nodes := s.nodes[i := s.nodes[i].(hub := h)])
  }

  lemma SendIsEvent(s: Sys, i: nat, user: UserId, n: Notice)
    requires i < |s.nodes|
    ensures Step(s, MiscEv(i, user, n, false)) == WithHub(s, i, Send(s.nodes[i].hub, user, Other(n)).hub)
  {
    hide Send;
    var s', h := Step(s, MiscEv(i, user, n, false)), Send(s.nodes[i].hub, user, Other(n)).hub;
    assert s'.nodes[i] == s.nodes[i].(hub := h);
  }

  lemma HubTwice(s: Sys, i: nat, h: HubState, h': HubState)
    requires i < |s.nodes|
    ensures WithHub(WithHub(s, i, h), i, h') == WithHub(s, i, h') && WithHub(s, i, s.nodes[i].hub) == s
  {
    assert s.nodes[i := s.nodes[i]] == s.nodes;
  }

  lemma {:induction false} RunsOn(s: Sys, a: seq<Event>, b: seq<Event>)
    ensures Run(s, a + b) == Run(Run(s, a), b)
    decreases |a|
  {
    hide Step;
    if a == [] {
      assert a + b == b;
    } else {
      assert (a + b)[1..] == a[1..] + b;
      RunsOn(Step(s, a[0]), a[1..], b);
    }
  }

  lemma OneEvent(s: Sys, e: Event)
    ensures Run(s, [e]) == Step(s, e)
  {
    hide Step;
    assert [e][1..] == [];
  }

  /** A hub reached by a run of notices. */
  ghost predicate Leads(s: Sys, i: nat, es: seq<Event>, h: HubState)
    requires i < |s.nodes|
  {
    Run(s, es) == WithHub(s, i, h)
  }

  lemma LeadsNowhere(s: Sys, i: nat)
    requires i < |s.nodes|
    ensures Leads(s, i, [], s.nodes[i].hub)
  {
    HubTwice(s, i, s.nodes[i].hub, s.nodes[i].hub);
  }

  lemma LeadsOn(s: Sys, i: nat, es: seq<Event>, h: HubState, user: UserId, n: Notice)
    requires i < |s.nodes| && Leads(s, i, es, h)
    ensures Leads(s, i, es + [MiscEv(i, user, n, false)], Send(h, user, Other(n)).hub)
  {
    var s1, h' := WithHub(s, i, h), Send(h, user, Other(n)).hub;
    SendIsEvent(s1, i, user, n);
    OneEvent(s1, MiscEv(i, user, n, false));
    RunsOn(s, es, [MiscEv(i, user, n, false)]);
    hide Send, Step, Run;
    assert s1.nodes[i].hub == h;
    HubTwice(s, i, h, h');
  }

  lemma {:induction false} FanOutRuns(s: Sys, i: nat, es: seq<Event>, h: HubState, users: seq<UserId>, sender: UserId,
                                      n: Notice)
    returns (more: seq<Event>)
    requires i < |s.nodes| && Leads(s, i, es, h)
    ensures Leads(s, i, es + more, Groups.FanOut(h, users, sender, Other(n)))
    decreases |users|
  {
    hide Leads, Send;
    if users == [] {
      more := [];
      assert es + [] == es;
    } else if users[0] == sender {
      more := FanOutRuns(s, i, es, h, users[1..], sender, n);
    } else {
      var e := MiscEv(i, users[0], n, false);
      LeadsOn(s, i, es, h, users[0], n);
      var rest := FanOutRuns(s, i, es + [e], Send(h, users[0], Other(n)).hub, users[1..], sender, n);
      more := [e] + rest;
      assert es + more == es + [e] + rest;
    }
  }

  /** The hub after a request for the groups is reached by a run: none of its notices is a direct message. */
  lemma GroupRequestIsARun(s: Sys, i: nat, t: GroupsSpec.Tables, from: UserId, msg: Inbound, a: Answers)
    returns (es: seq<Event>)
    requires i < |s.nodes| && ForGroups(msg)
    ensures Run(s, es) == WithHub(s, i, HandleGroup(Groups.Room(t, s.nodes[i].hub), from, msg, a).hub)
  {
    var h := s.nodes[i].hub;
    LeadsNowhere(s, i);
    match msg {
      case GroupPost(g, body) => es := PostRun(s, i, t, from, g, body);
      case CreateGroup(name) =>
        es := AnswerRun(s, i, from, if GroupsSpec.NameTaken(t, name) then NameIsTaken
                                    else GroupCreated(|t.groups|, name));
      case AddMember(g, u) =>
        es := AnswerRun(s, i, from, if GroupsSpec.HasMember(t, g, from) then MemberAdded(g, u) else NotAMember);
      case LeaveGroup(g) =>
        es := AnswerRun(s, i, from, if GroupsSpec.HasMember(t, g, from) then LeftGroup(g) else NotAMember);
      case Typing(chat, members) =>
        es := [];
        if a.redisOk {
          es := FanOutRuns(s, i, [], h, members, from, TypingIs(from, chat));
          assert [] + es == es;
        }
    }
  }

  lemma AnswerRun(s: Sys, i: nat, user: UserId, n: Notice) returns (es: seq<Event>)
    requires i < |s.nodes|
    ensures Run(s, es) == WithHub(s, i, Groups.Answer(s.nodes[i].hub, user, n))
  {
    hide Send, Run;
    LeadsNowhere(s, i);
    LeadsOn(s, i, [], s.nodes[i].hub, user, n);
    es := [] + [MiscEv(i, user, n, false)];
  }

  lemma PostRun(s: Sys, i: nat, t: GroupsSpec.Tables, from: UserId, g: nat, body: string) returns (es: seq<Event>)
    requires i < |s.nodes|
    ensures Run(s, es) == WithHub(s, i, Groups.HandlePost(Groups.Room(t, s.nodes[i].hub), from, g, body).hub)
  {
    hide Send, Run, Groups.FanOut;
    var h, m := s.nodes[i].hub, |t.messages|;
    if !GroupsSpec.HasMember(t, g, from) {
      es := AnswerRun(s, i, from, NotAMember);
    } else {
      LeadsNowhere(s, i);
      var members := GroupsSpec.GetGroupMembers(t, g);
      var copies := FanOutRuns(s, i, [], h, members, from, GroupCopy(g, m, from, body));
      var fanned := Groups.FanOut(h, members, from, Other(GroupCopy(g, m, from, body)));
      LeadsOn(s, i, [] + copies, fanned, from, GroupSent(m));
      es := [] + copies + [MiscEv(i, from, GroupSent(m), false)];
    }
  }

  /** The hub's part of a presence check. */
  function ReportHub(h: HubState, from: UserId, users: seq<UserId>, keys: Presence.Keys, a: Answers): HubState
    decreases |users|
  {
    if users == [] then h
    else
      var n := PresenceIs(users[0], a.redisOk && Presence.Online(keys, users[0], a.now));
      ReportHub(Send(h, from, Other(n)).hub, from, users[1..], keys, a)
  }

  lemma {:induction false} ReportsAre(w: World, from: UserId, users: seq<UserId>, keys: Presence.Keys, a: Answers)
    ensures Reports(w, from, users, keys, a)
         == w.(node := w.node.(hub := ReportHub(w.node.hub, from, users, keys, a)))
    decreases |users|
  {
    hide Send;
    if users != [] {
      var n := PresenceIs(users[0], a.redisOk && Presence.Online(keys, users[0], a.now));
      ReportsAre(SendTo(w, from, Other(n)), from, users[1..], keys, a);
    }
  }

  lemma {:induction false} ReportsRun(s: Sys, i: nat, es: seq<Event>, h: HubState, from: UserId, users: seq<UserId>,
                                      keys: Presence.Keys, a: Answers)
    returns (more: seq<Event>)
    requires i < |s.nodes| && Leads(s, i, es, h)
    ensures Leads(s, i, es + more, ReportHub(h, from, users, keys, a))
    decreases |users|
  {
    hide Leads, Send;
    if users == [] {
      more := [];
      assert es + [] == es;
    } else {
      var n := PresenceIs(users[0], a.redisOk && Presence.Online(keys, users[0], a.now));
      var e := MiscEv(i, from, n, false);
      LeadsOn(s, i, es, h, from, n);
      var rest := ReportsRun(s, i, es + [e], Send(h, from, Other(n)).hub, from, users[1..], keys, a);
      more := [e] + rest;
      assert es + more == es + [e] + rest;
    }
  }

  /**
   Every other request of a user on an instance is a run of the system. So all that is proved of every run, that
   nothing is lost, how many copies there are, the order of receipts, holds of whatever clients ask for.
   */
  lemma RequestIsARun(s: Sys, i: nat, keys: Presence.Keys, from: UserId, msg: Inbound, a: Answers)
    returns (es: seq<Event>)
    requires i < |s.nodes| && !ForGroups(msg)
    requires msg.Direct? ==> ValidPick(s.db, from, msg.to, a.pick)
    requires msg.Ack? ==> msg.mid < |s.db.rows|
    ensures Run(s, es) == Put(s, i, Handle(At(s, i), keys, from, msg, a))
  {
    hide Send, HandleDm, HandleAck, SendOrPublish, Reports, ValidPick;
    match msg {
      case Direct(to, id, body) =>
        es := [DmEv(i, from, to, id, body, a.now, a.pick, a.pubOk)];
        OneEvent(s, es[0]);
      case Ack(m, notify) =>
        es := [AckEv(i, from, m, notify, a.pubOk)];
        OneEvent(s, es[0]);
      case Ping => es := PingRun(s, i, from);
      case PresenceCheck(users) => es := CheckRun(s, i, keys, from, users, a);
      case Relay(target, payload) =>
        es := [MiscEv(i, target, Relayed(from, payload), a.pubOk)];
        OneEvent(s, es[0]);
    }
  }

  lemma PingRun(s: Sys, i: nat, from: UserId) returns (es: seq<Event>)
    requires i < |s.nodes|
    ensures Run(s, es) == Put(s, i, SendTo(At(s, i), from, Other(Pong)))
  {
    es := [MiscEv(i, from, Pong, false)];
    OneEvent(s, es[0]);
    hide Send;
  }

  lemma CheckRun(s: Sys, i: nat, keys: Presence.Keys, from: UserId, users: seq<UserId>, a: Answers)
    returns (es: seq<Event>)
    requires i < |s.nodes|
    ensures Run(s, es) == Put(s, i, Reports(At(s, i), from, users, keys, a))
  {
    LeadsNowhere(s, i);
    es := ReportsRun(s, i, [], s.nodes[i].hub, from, users, keys, a);
    ReportsAre(At(s, i), from, users, keys, a);
    assert [] + es == es;
    hide Reports, Run, ReportHub;
  }

  // ---- the forwarder

  /** The wire without the copy that is taken off it. */
  predicate Took(before: seq<BusSpec.Flight>, after: seq<BusSpec.Flight>, k: nat) {
    && k < |before| && |after| == |before| - 1
    && (forall j | 0 <= j < k :: after[j] == before[j]) && (forall j | k <= j < |after| :: after[j] == before[j + 1])
  }

  /** The copies a subscription still has coming, in the order they were published. */
  function Coming(wire: seq<BusSpec.Flight>, sub: nat): seq<Packet> {
    if wire == [] then []
    else (if wire[0].sub == sub then [wire[0].packet] else []) + Coming(wire[1..], sub)
  }

  lemma {:induction false} ComingNone(wire: seq<BusSpec.Flight>, sub: nat)
    requires forall j | 0 <= j < |wire| :: wire[j].sub != sub
    ensures Coming(wire, sub) == []
  {
    if wire != [] { ComingNone(wire[1..], sub); }
  }

  lemma {:induction false} ComingAdds(a: seq<BusSpec.Flight>, b: seq<BusSpec.Flight>, sub: nat)
    ensures Coming(a + b, sub) == Coming(a, sub) + Coming(b, sub)
    decreases |a|
  {
    if a == [] {
      assert a + b == b;
    } else {
      assert (a + b)[1..] == a[1..] + b;
      ComingAdds(a[1..], b, sub);
    }
  }

  /** Each subscription is a queue: what is forwarded is the oldest it has coming, and nobody else's queue moves. */
  lemma ForwardedInOrder(s: Sys, k: nat, sub: nat)
    requires Enabled(s, ForwardEv(k))
    ensures var f, wire, wire' := s.bus.wire[k], s.bus.wire, Step(s, ForwardEv(k)).bus.wire;
            Coming(wire, sub) == (if sub == f.sub then [f.packet] else []) + Coming(wire', sub)
  {
    var f, wire := s.bus.wire[k], s.bus.wire;
    assert Step(s, ForwardEv(k)).bus.wire == wire[..k] + wire[k + 1..] by { hide Send; }
    hide Step;
    assert wire == wire[..k] + ([f] + wire[k + 1..]);
    ComingAdds(wire[..k], [f] + wire[k + 1..], sub);
    ComingAdds([f], wire[k + 1..], sub);
    ComingAdds(wire[..k], wire[k + 1..], sub);
    assert Coming([f], sub) == if sub == f.sub then [f.packet] else [] by { assert [f][1..] == []; }
    if sub == f.sub { ComingNone(wire[..k], sub); }
  }

  /** A forwarder takes the next copy of its subscription off the wire and tells it to that user, on its instance. */
  lemma ForwardTells(s: Sys, k: nat, u: UserId, i: nat)
    requires ProtocolSteps.SysOk(s) && Enabled(s, ForwardEv(k)) && i < |s.nodes|
    ensures var s', f := Step(s, ForwardEv(k)), s.bus.wire[k];
            var sub := s.bus.subs[f.sub];
            && s'.db == s.db && s'.hist == s.hist && s'.bus.subs == s.bus.subs && Took(s.bus.wire, s'.bus.wire, k)
            && |s'.nodes| == |s.nodes| && s'.nodes[i].subs == s.nodes[i].subs
            && Told(s.nodes[i].hub, s'.nodes[i].hub, u, if i == sub.inst && u == sub.user then [f.packet] else [])
  {
    var f := s.bus.wire[k];
    var sub := s.bus.subs[f.sub];
    ForwardIs(s, k);
    ProtocolSteps.HubOf(s, sub.inst);
    assert ForwardOk(s, k) by { hide Send, Took; }
    hide *;
    NodeTells(s, Step(s, ForwardEv(k)), f.packet, sub, i, u);
  }

  predicate ForwardOk(s: Sys, k: nat) {
    k < |s.bus.wire| && s.bus.wire[k].sub < |s.bus.subs| && s.bus.subs[s.bus.wire[k].sub].inst < |s.nodes|
  }

  lemma NodeTells(s: Sys, s': Sys, p: Packet, sub: BusSpec.Subscription, i: nat, u: UserId)
    requires i < |s.nodes| && sub.inst < |s.nodes| && HubOk(s.nodes[sub.inst].hub)
    requires s'.nodes == s.nodes[sub.inst := s.nodes[sub.inst].(hub := Send(s.nodes[sub.inst].hub, sub.user, p).hub)]
    ensures |s'.nodes| == |s.nodes| && s'.nodes[i].subs == s.nodes[i].subs
    ensures Told(s.nodes[i].hub, s'.nodes[i].hub, u, if i == sub.inst && u == sub.user then [p] else [])
  {
    hide *;
    if i == sub.inst {
      assert s'.nodes[i].hub == Send(s.nodes[i].hub, sub.user, p).hub;
      SendTells(s.nodes[i].hub, sub.user, p, u);
    } else {
      assert s'.nodes[i] == s.nodes[i];
      ToldNothing(s.nodes[i].hub, u);
    }
  }

  lemma ForwardIs(s: Sys, k: nat)
    requires Enabled(s, ForwardEv(k))
    ensures var s', f := Step(s, ForwardEv(k)), s.bus.wire[k];
            var sub := s.bus.subs[f.sub];
            && s'.db == s.db && s'.hist == s.hist && s'.bus.subs == s.bus.subs && Took(s.bus.wire, s'.bus.wire, k)
            && sub.inst < |s.nodes|
            && s'.nodes == s.nodes[sub.inst :=
                 s.nodes[sub.inst].(hub := Send(s.nodes[sub.inst].hub, sub.user, f.packet).hub)]
  {
    hide Send;
  }
}
