/** Exactly when a user is mapped to a subscription: the last of his connects and reader ends decides. */
module Mapping {
  import opened ChatTypes
  import opened HubSpec
  import opened DbSpec
  import opened BusSpec
  import opened Protocol
  import opened ProtocolSteps
  import opened NoLoss
  import opened Subscriptions

  /** What last happened to a user on an instance: nothing, a connect, or the end of a reader. */
  datatype Last = Never | Connected(client: ClientId) | Ended(client: ClientId)

  ghost function NextLast(s: Sys, e: Event, i: nat, u: UserId, last: Last): Last {
    if Enabled(s, e) && e.ConnectEv? && e.inst == i && e.user == u then Connected(|s.nodes[i].hub.chans|)
    else if Enabled(s, e) && e.DisconnectEv? && e.inst == i && s.nodes[i].hub.chans[e.client].user == u then
      Ended(e.client)
    else last
  }

  ghost function LastOf(s: Sys, es: seq<Event>, i: nat, u: UserId, last: Last): Last
    decreases |es|
  {
    if es == [] then last else LastOf(Step(s, es[0]), es[1..], i, u, NextLast(s, es[0], i, u, last))
  }

  /** The router's entry follows the last event, and the hub's entry is never older than it. */
  predicate Agrees(n: Node, u: UserId, last: Last) {
    && (u in n.subs <==> last.Connected?)
    && (u in n.hub.clients ==>
          match last
          case Never => false
          case Connected(c) => n.hub.clients[u] == c
          case Ended(c) => n.hub.clients[u] != c)
  }

  predicate AgreesAt(s: Sys, i: nat, u: UserId, last: Last) {
    i < |s.nodes| ==> Agrees(s.nodes[i], u, last)
  }

  lemma KeptAgrees(n: Node, n': Node, u: UserId, last: Last)
    requires Agrees(n, u, last) && NodeKeeps(n, n')
    ensures Agrees(n', u, last)
  {}

  lemma ConnectAgrees(n: Node, n': Node, db: Db, user: UserId, batch: seq<MsgId>, sub: nat, u: UserId, last: Last)
    requires Agrees(n, u, last) && ValidIds(db, batch)
    requires HubConnects(n.hub, n'.hub, db, user, batch) && n'.subs == n.subs[user := sub]
    ensures Agrees(n', u, if u == user then Connected(|n.hub.chans|) else last)
  {}

  lemma DisconnectAgrees(n: Node, n': Node, c: ClientId, u: UserId, last: Last)
    requires Agrees(n, u, last) && c < |n.hub.chans| && n'.hub == EndReader(n.hub, c)
    requires u in n'.subs <==> u in n.subs && u != n.hub.chans[c].user
    ensures Agrees(n', u, if u == n.hub.chans[c].user then Ended(c) else last)
  {
    EndReaderClients(n.hub, c, u);
    hide EndReader;
  }

  lemma StepAgrees(s: Sys, e: Event, i: nat, u: UserId, last: Last)
    requires SysOk(s) && AgreesAt(s, i, u, last)
    ensures AgreesAt(Step(s, e), i, u, NextLast(s, e, i, u, last))
  {
    hide SysOk, Apply, Agrees, SubsOk, KeepsReaders, HubConnects, MarksExactly, IsPendingBatch, NodeKeeps;
    if Enabled(s, e) && i < |s.nodes| {
      var s' := Apply(s, e);
      if e.ConnectEv? {
        ConnectShape(s, e);
        if e.inst == i {
          ConnectAgrees(s.nodes[i], s'.nodes[i], s.db, e.user, e.batch, |s.bus.subs|, u, last);
        }
      } else if e.DisconnectEv? {
        DisconnectApplies(s, e);
        if e.inst == i {
          SubsOf(s, i);
          DisconnectCounts(s, i, e.client, i, u);
          DisconnectHub(At(s, i), e.client);
          DisconnectAgrees(s.nodes[i], s'.nodes[i], e.client, u, last);
        }
      } else {
        OtherKeepsSubsMap(s, e);
        KeptAgrees(s.nodes[i], s'.nodes[i], u, last);
      }
    }
    if !Enabled(s, e) || i >= |s.nodes| { NodesStay(s, e); }
  }

  lemma NodesStay(s: Sys, e: Event)
    requires SysOk(s)
    ensures |Step(s, e).nodes| == |s.nodes| && (!Enabled(s, e) ==> Step(s, e) == s)
  {
    hide SysOk;
    StepLogsGrow(s, e);
  }

  lemma {:induction false} RunAgrees(s: Sys, es: seq<Event>, i: nat, u: UserId, last: Last)
    requires SysOk(s) && AgreesAt(s, i, u, last)
    ensures AgreesAt(Run(s, es), i, u, LastOf(s, es, i, u, last))
    decreases |es|
  {
    hide SysOk, AgreesAt, Step, NextLast;
    if es != [] {
      StepAgrees(s, es[0], i, u, last);
      StepKeepsSys(s, es[0]);
      RunAgrees(Step(s, es[0]), es[1..], i, u, NextLast(s, es[0], i, u, last));
    }
  }

  /**
   After every run a user is mapped on an instance exactly if the last of his connects and reader ends there
   was a connect. So a user in the hub lacks a subscription exactly if another connection of his ended
   after his last connect.
   */
  lemma MappedIffLastConnected(n: nat, es: seq<Event>, i: nat, u: UserId)
    requires i < |Run(Init(n), es).nodes|
    ensures var node := Run(Init(n), es).nodes[i];
            var last := LastOf(Init(n), es, i, u, Never);
            && (u in node.subs <==> last.Connected?)
            && (u in node.hub.clients ==>
                  (u !in node.subs <==> last.Ended? && last.client != node.hub.clients[u]))
  {
    InitOk(n);
    assert AgreesAt(Init(n), i, u, Never);
    RunAgrees(Init(n), es, i, u, Never);
    hide Run, LastOf, Init;
  }
}
