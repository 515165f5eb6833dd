/** The order of receipts: a sender's `sent` acknowledgement comes before the `read` notice of the same message. */
module Receipts {
  import opened ChatTypes
  import opened HubSpec
  import opened DbSpec
  import opened BusSpec
  import opened Protocol
  import opened ProtocolSteps
  import opened NoLoss

  /** Acknowledgements go to the sender of their row, and read notices only follow them. */
  predicate OrderedLog(log: seq<Accept>, rows: seq<Row>) {
    && (forall k | 0 <= k < |log| && log[k].packet.SentAck? ::
          0 <= log[k].packet.mid < |rows| && log[k].user == rows[log[k].packet.mid].sender)
    && (forall j, k | 0 <= j < k < |log| && log[j].packet.ReadNotice? && log[k].packet.SentAck? ::
          log[j].packet.mid != log[k].packet.mid)
    && (forall j, k | 0 <= j < k < |log| && log[j].packet.SentAck? && log[k].packet.SentAck? ::
          log[j].packet.mid != log[k].packet.mid)
  }

  predicate NoAcks(wire: seq<Flight>) {
    forall k | 0 <= k < |wire| :: !wire[k].packet.SentAck?
  }

  predicate ReceiptsOk(s: Sys) {
    && NoAcks(s.bus.wire)
    && forall i | 0 <= i < |s.nodes| :: OrderedLog(s.nodes[i].hub.log, s.db.rows)
  }

  /** Rows keep their senders. */
  predicate SameSenders(rows: seq<Row>, rows': seq<Row>) {
    |rows| <= |rows'| && forall m | 0 <= m < |rows| :: rows'[m].sender == rows[m].sender
  }

  /** Appending packets that are no acknowledgements, or one acknowledgement of a fresh row, keeps the order. */
  lemma AppendKeepsOrder(log: seq<Accept>, log': seq<Accept>, rows: seq<Row>, rows': seq<Row>)
    requires OrderedLog(log, rows) && FreshLog(log, |rows|) && SameSenders(rows, rows') && log <= log'
    requires forall k | |log| <= k < |log'| && log'[k].packet.SentAck? ::
               && k == |log'| - 1 && |rows| == log'[k].packet.mid < |rows'|
               && log'[k].user == rows'[log'[k].packet.mid].sender
    requires forall k | |log| <= k < |log'| && log'[k].packet.ReadNotice? :: !log'[|log'| - 1].packet.SentAck?
    ensures OrderedLog(log', rows')
  {
    forall j, k | 0 <= j < k < |log'| && log'[k].packet.SentAck?
                  && (log'[j].packet.ReadNotice? || log'[j].packet.SentAck?)
      ensures log'[j].packet.mid != log'[k].packet.mid
    {
      if k >= |log| {
        assert k == |log'| - 1;
        assert MidOf(log'[j].packet) == log'[j].packet.mid;
        if j < |log| {
          assert log'[j] == log[j];
        }
      } else {
        assert log'[j] == log[j] && log'[k] == log[k];
      }
    }
    forall k | 0 <= k < |log'| && log'[k].packet.SentAck?
      ensures 0 <= log'[k].packet.mid < |rows'| && log'[k].user == rows'[log'[k].packet.mid].sender
    {
      if k < |log| {
        assert log'[k] == log[k];
      }
    }
  }

  /** A step that appends no acknowledgement to any log and none to the wire. */
  predicate NoNewAcks(s: Sys, s': Sys) {
    && LogsGrow(s, s')
    && SameSenders(s.db.rows, s'.db.rows)
    && NoAcks(s'.bus.wire)
    && forall i, k | 0 <= i < |s.nodes| && |s.nodes[i].hub.log| <= k < |s'.nodes[i].hub.log| ::
         !s'.nodes[i].hub.log[k].packet.SentAck?
  }

  lemma FreshOf(s: Sys, i: nat)
    requires SysOk(s) && i < |s.nodes|
    ensures FreshLog(s.nodes[i].hub.log, |s.db.rows|)
  {
    hide FreshLog;
    WorldOf(s, i);
  }

  lemma NoNewAcksKeep(s: Sys, s': Sys)
    requires SysOk(s) && ReceiptsOk(s) && NoNewAcks(s, s')
    ensures ReceiptsOk(s')
  {
    hide SysOk;
    forall i | 0 <= i < |s'.nodes| ensures OrderedLog(s'.nodes[i].hub.log, s'.db.rows) {
      var log, log' := s.nodes[i].hub.log, s'.nodes[i].hub.log;
      FreshOf(s, i);
      assert OrderedLog(log, s.db.rows);
      hide OrderedLog, FreshLog, SameSenders;
      if log' != [] && log'[|log'| - 1].packet.SentAck? {
        assert |log'| == |log| && log' == log;
      }
      AppendKeepsOrder(log, log', s.db.rows, s'.db.rows);
    }
  }

  lemma StepKeepsSenders(s: Sys, e: Event)
    requires SysOk(s)
    ensures SameSenders(s.db.rows, Step(s, e).db.rows)
  {
    hide SysOk, Step;
    StepAdvancesRows(s, e);
  }

  lemma SendAppends(h: HubState, user: UserId, p: Packet)
    requires HubOk(h)
    ensures h.log <= Send(h, user, p).hub.log
    ensures forall k | |h.log| <= k < |Send(h, user, p).hub.log| :: Send(h, user, p).hub.log[k].packet == p
  {
    SendEffect(h, user, p);
  }

  lemma PutNoNewAcks(s: Sys, i: nat, w: World)
    requires i < |s.nodes| && s.nodes[i].hub.log <= w.node.hub.log && SameSenders(s.db.rows, w.db.rows)
    requires NoAcks(w.bus.wire)
    requires forall k | |s.nodes[i].hub.log| <= k < |w.node.hub.log| :: !w.node.hub.log[k].packet.SentAck?
    ensures NoNewAcks(s, Put(s, i, w))
  {}

  lemma ForwardNoNewAcks(s: Sys, k: nat)
    requires SysOk(s) && NoAcks(s.bus.wire) && Enabled(s, ForwardEv(k))
    ensures NoNewAcks(s, Apply(s, ForwardEv(k)))
  {
    hide SysOk, HubOk, Send, NoNewAcks;
    var f := s.bus.wire[k];
    var sub := s.bus.subs[f.sub];
    var s1 := s.(bus := Remove(s.bus, k));
    HubOf(s, sub.inst);
    SendAppends(s.nodes[sub.inst].hub, sub.user, f.packet);
    PutNoNewAcks(s, sub.inst, SendTo(At(s1, sub.inst), sub.user, f.packet));
  }

  lemma MiscNoNewAcks(s: Sys, e: Event)
    requires SysOk(s) && NoAcks(s.bus.wire) && Enabled(s, e) && e.MiscEv?
    ensures NoNewAcks(s, Apply(s, e))
  {
    hide SysOk, HubOk, Send, NoNewAcks;
    HubOf(s, e.inst);
    SendAppends(s.nodes[e.inst].hub, e.to, Other(e.notice));
    PutNoNewAcks(s, e.inst, SendOrPublish(At(s, e.inst), e.to, Other(e.notice), e.relay));
  }

  lemma AckNoNewAcks(s: Sys, e: Event)
    requires SysOk(s) && NoAcks(s.bus.wire) && Enabled(s, e) && e.AckEv?
    ensures NoNewAcks(s, Apply(s, e))
  {
    hide SysOk, Apply, Enabled, NoNewAcks;
    AckShape(s, e);
    var s' := Apply(s, e);
    forall k | 0 <= k < |s'.bus.wire| ensures !s'.bus.wire[k].packet.SentAck? {
      if k < |s.bus.wire| {
        assert s'.bus.wire[k] == s.bus.wire[k];
      }
    }
    PutNoNewAcks(s, e.inst, At(s', e.inst));
  }

  lemma ConnectNoNewAcks(s: Sys, e: Event)
    requires SysOk(s) && NoAcks(s.bus.wire) && Enabled(s, e) && e.ConnectEv?
    ensures NoNewAcks(s, Apply(s, e))
  {
    hide SysOk, Apply, NoNewAcks, IsPendingBatch;
    ConnectShape(s, e);
    PutNoNewAcks(s, e.inst, At(Apply(s, e), e.inst));
  }

  lemma DisconnectNoNewAcks(s: Sys, e: Event)
    requires SysOk(s) && NoAcks(s.bus.wire) && Enabled(s, e) && e.DisconnectEv?
    ensures NoNewAcks(s, Apply(s, e))
  {
    hide SysOk, WorldOk, Disconnect, Evolves, NoNewAcks;
    WorldOf(s, e.inst);
    DisconnectKeeps(At(s, e.inst), e.inst, e.client);
    PutNoNewAcks(s, e.inst, Disconnect(At(s, e.inst), e.client));
  }

  lemma QuietNoNewAcks(s: Sys, e: Event)
    requires SysOk(s) && NoAcks(s.bus.wire) && Enabled(s, e) && !e.DmEv?
    ensures NoNewAcks(s, Apply(s, e))
  {
    hide SysOk, Enabled, Apply, NoNewAcks;
    match e
    case ConnectEv(_, _, _) => ConnectNoNewAcks(s, e);
    case DisconnectEv(_, _) => DisconnectNoNewAcks(s, e);
    case AckEv(_, _, _, _, _) => AckNoNewAcks(s, e);
    case ForwardEv(k) => ForwardNoNewAcks(s, k);
    case MiscEv(_, _, _, _) => MiscNoNewAcks(s, e);
    case _ => TableOnlyNoNewAcks(s, e);
  }

  lemma SameNodesNoNewAcks(s: Sys, s': Sys)
    requires s'.nodes == s.nodes && SameSenders(s.db.rows, s'.db.rows) && NoAcks(s'.bus.wire)
    ensures NoNewAcks(s, s')
  {}

  lemma TableOnlyNoNewAcks(s: Sys, e: Event)
    requires SysOk(s) && NoAcks(s.bus.wire) && Enabled(s, e) && (e.WriteEv? || e.LoseEv? || e.HistoryEv?)
    ensures NoNewAcks(s, Apply(s, e))
  {
    hide SysOk, FindOrCreateChat, NoNewAcks, SameSenders;
    StepKeepsSenders(s, e);
    if e.WriteEv? {
      hide CanWrite;
      var w := At(s, e.inst);
      PutNoNewAcks(s, e.inst, w.(node := w.node.(hub := Write(w.node.hub, e.client, e.ok))));
    } else {
      SameNodesNoNewAcks(s, Apply(s, e));
    }
  }

  lemma DmKeepsOrder(s: Sys, i: nat, w': World, chat: ChatId, from: UserId, to: UserId, clientId: nat,
                     body: string, now: int, pubOk: bool)
    requires i < |s.nodes| && DmAdds(At(s, i), w', chat, from, to, clientId, body, now, pubOk)
    requires NoAcks(s.bus.wire) && FreshLog(s.nodes[i].hub.log, |s.db.rows|)
    requires OrderedLog(s.nodes[i].hub.log, s.db.rows)
    ensures OrderedLog(w'.node.hub.log, w'.db.rows) && NoAcks(w'.bus.wire) && SameSenders(s.db.rows, w'.db.rows)
  {
    hide Send;
    var log, log' := s.nodes[i].hub.log, w'.node.hub.log;
    var p := Message(|s.db.rows|, from, body, now);
    var copy := LocalCopy(At(s, i), to, p, w'.hist.dms[|s.hist.dms|].route);
    var after: seq<Accept> := log + copy;
    assert after <= log';
    assert forall k | |log| <= k < |after| :: after[k].packet == p;
    assert forall k | |after| <= k < |log'| ::
             k == |log'| - 1 && log'[k].packet == SentAck(|s.db.rows|, clientId) && log'[k].user == from;
    hide OrderedLog, FreshLog;
    forall k | |log| <= k < |log'|
      ensures || log'[k].packet == p
              || (k == |log'| - 1 && log'[k].packet == SentAck(|s.db.rows|, clientId) && log'[k].user == from)
    {
      if k < |after| {
        assert log'[k] == after[k];
      }
    }
    AppendKeepsOrder(log, log', s.db.rows, w'.db.rows);
  }

  lemma DmKeepsReceipts(s: Sys, e: Event)
    requires SysOk(s) && ReceiptsOk(s) && Enabled(s, e) && e.DmEv?
    ensures ReceiptsOk(Apply(s, e))
  {
    hide SysOk, Apply, Enabled, OrderedLog, FreshLog, DmAdds;
    DmShape(s, e);
    var s' := Apply(s, e);
    match FindOrCreateChat(s.db, e.from, e.to, e.pick)
    case DuplicateMember =>
    case Found(db, chat) =>
      var i := e.inst;
      FreshOf(s, i);
      assert OrderedLog(s.nodes[i].hub.log, s.db.rows);
      DmKeepsOrder(s, i, At(s', i), chat, e.from, e.to, e.clientId, e.body, e.now, e.pubOk);
      forall j | 0 <= j < |s'.nodes| ensures OrderedLog(s'.nodes[j].hub.log, s'.db.rows) {
        if j != i {
          FreshOf(s, j);
          assert OrderedLog(s.nodes[j].hub.log, s.db.rows);
          MoreRowsKeepOrder(s.nodes[j].hub.log, s.db.rows, s'.db.rows);
        }
      }
  }

  lemma MoreRowsKeepOrder(log: seq<Accept>, rows: seq<Row>, rows': seq<Row>)
    requires OrderedLog(log, rows) && SameSenders(rows, rows')
    ensures OrderedLog(log, rows')
  {}

  lemma StepKeepsReceipts(s: Sys, e: Event)
    requires SysOk(s) && ReceiptsOk(s)
    ensures ReceiptsOk(Step(s, e))
  {
    hide SysOk, ReceiptsOk, Apply, Enabled;
    if Enabled(s, e) {
      if e.DmEv? {
        DmKeepsReceipts(s, e);
      } else {
        assert NoAcks(s.bus.wire) by { WireOf(s); }
        QuietNoNewAcks(s, e);
        NoNewAcksKeep(s, Apply(s, e));
      }
    }
  }

  lemma {:induction false} RunKeepsReceipts(s: Sys, es: seq<Event>)
    requires SysOk(s) && ReceiptsOk(s)
    ensures ReceiptsOk(Run(s, es))
    decreases |es|
  {
    hide SysOk, ReceiptsOk, Step;
    if es != [] {
      StepKeepsReceipts(s, es[0]);
      StepKeepsSys(s, es[0]);
      RunKeepsReceipts(Step(s, es[0]), es[1..]);
    }
  }

  lemma InitReceipts(n: nat)
    ensures ReceiptsOk(Init(n))
  {}

  lemma ReceiptsOf(s: Sys, i: nat)
    requires ReceiptsOk(s) && i < |s.nodes|
    ensures OrderedLog(s.nodes[i].hub.log, s.db.rows)
  {}

  lemma WireOf(s: Sys)
    requires ReceiptsOk(s)
    ensures NoAcks(s.bus.wire)
  {}

  // ---- from the hub's log to one connection

  /** No `read` notice of a message precedes its `sent` acknowledgement, and no acknowledgement repeats. */
  predicate CausalOrder(ps: seq<Packet>) {
    && (forall j, k | 0 <= j < k < |ps| && ps[j].ReadNotice? && ps[k].SentAck? :: ps[j].mid != ps[k].mid)
    && (forall j, k | 0 <= j < k < |ps| && ps[j].SentAck? && ps[k].SentAck? :: ps[j].mid != ps[k].mid)
  }

  lemma {:induction false} ProjectFrom(log: seq<Accept>, c: ClientId, j: nat)
    requires j < |Project(log, c)|
    ensures exists k :: 0 <= k < |log| && log[k].client == c && log[k].packet == Project(log, c)[j]
  {
    var k := |log| - 1;
    if j < |Project(log[..k], c)| {
      ProjectFrom(log[..k], c, j);
      var x :| 0 <= x < k && log[..k][x].client == c && log[..k][x].packet == Project(log[..k], c)[j];
      assert log[x] == log[..k][x];
    } else {
      assert log[k].client == c && log[k].packet == Project(log, c)[j];
    }
  }

  lemma {:induction false} ProjectIsCausal(log: seq<Accept>, rows: seq<Row>, c: ClientId)
    requires OrderedLog(log, rows)
    ensures CausalOrder(Project(log, c))
  {
    if log != [] {
      var n := |log| - 1;
      assert OrderedLog(log[..n], rows);
      ProjectIsCausal(log[..n], rows, c);
      var before, ps := Project(log[..n], c), Project(log, c);
      forall j, k | 0 <= j < k < |ps| && ps[k].SentAck? && (ps[j].ReadNotice? || ps[j].SentAck?)
        ensures ps[j].mid != ps[k].mid
      {
        assert ps[j] == before[j];
        if k == |before| {
          ProjectFrom(log[..n], c, j);
          var x :| 0 <= x < n && log[..n][x].client == c && log[..n][x].packet == before[j];
          assert log[x] == log[..n][x];
        } else {
          assert ps[k] == before[k];
        }
      }
    }
  }

  /**
   Causal order of receipts: in every run, on every connection, what has been written to the socket
   followed by what is queued never shows a `read` notice before the `sent` acknowledgement of its message.
   */
  lemma ReceiptsArriveInOrder(n: nat, es: seq<Event>, i: nat, c: ClientId)
    requires i < |Run(Init(n), es).nodes| && c < |Run(Init(n), es).nodes[i].hub.chans|
    ensures var h := Run(Init(n), es).nodes[i].hub;
            && CausalOrder(Project(h.log, c))
            && h.chans[c].written <= Project(h.log, c)
            && CausalOrder(h.chans[c].written)
  {
    hide Run, SysOk, HubOk, Project, OrderedLog, CausalOrder, ReceiptsOk, Init;
    InitOk(n);
    InitReceipts(n);
    RunKeepsSys(Init(n), es);
    RunKeepsReceipts(Init(n), es);
    var s := Run(Init(n), es);
    ReceiptsOf(s, i);
    var h := s.nodes[i].hub;
    HubOf(s, i);
    ProjectIsCausal(h.log, s.db.rows, c);
    WrittenIsPrefix(h, c);
    PrefixIsCausal(h.chans[c].written, Project(h.log, c));
  }

  lemma PrefixIsCausal(a: seq<Packet>, b: seq<Packet>)
    requires a <= b && CausalOrder(b)
    ensures CausalOrder(a)
  {
    assert forall k | 0 <= k < |a| :: a[k] == b[k];
  }
}
