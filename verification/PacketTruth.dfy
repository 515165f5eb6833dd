/**
 What packets tell is true, wherever they are: a copy carries its row's content, and a read notice names a row
 that is read.
 */
module PacketTruth {
  import opened ChatTypes
  import opened HubSpec
  import opened DbSpec
  import opened BusSpec
  import opened Protocol
  import opened ProtocolSteps
  import opened NoLoss
  import Receipts

  predicate IsRead(rows: seq<Row>, m: MsgId) {
    m < |rows| && (0 <= m ==> rows[m].status == Read)
  }

  predicate Tells(rows: seq<Row>, p: Packet) {
    (p.ReadNotice? ==> IsRead(rows, p.mid)) && (p.Message? ==> IsCopy(rows, p))
  }

  predicate LogTells(rows: seq<Row>, log: seq<Accept>) {
    forall k | 0 <= k < |log| :: Tells(rows, log[k].packet)
  }

  predicate WireTells(rows: seq<Row>, wire: seq<Flight>) {
    forall k | 0 <= k < |wire| :: Tells(rows, wire[k].packet)
  }

  predicate Truthful(s: Sys) {
    && WireTells(s.db.rows, s.bus.wire)
    && forall i | 0 <= i < |s.nodes| :: LogTells(s.db.rows, s.nodes[i].hub.log)
  }

  lemma StillTells(s: Sys, s': Sys, p: Packet)
    requires RowsAdvance(s, s') && Tells(s.db.rows, p)
    ensures Tells(s'.db.rows, p)
  {}

  /** A step of one instance keeps the property when what it appends is true. */
  lemma PutTells(s: Sys, i: nat, w: World)
    requires Truthful(s) && i < |s.nodes| && s.nodes[i].hub.log <= w.node.hub.log && RowsAdvance(s, Put(s, i, w))
    requires forall k | |s.nodes[i].hub.log| <= k < |w.node.hub.log| :: Tells(w.db.rows, w.node.hub.log[k].packet)
    requires WireTells(w.db.rows, w.bus.wire)
    ensures Truthful(Put(s, i, w))
  {
    hide Tells, RowsAdvance, WireTells;
    var s' := Put(s, i, w);
    forall j | 0 <= j < |s'.nodes| ensures LogTells(s'.db.rows, s'.nodes[j].hub.log) {
      var log, log' := s.nodes[j].hub.log, s'.nodes[j].hub.log;
      assert LogTells(s.db.rows, log);
      forall k | 0 <= k < |log'| ensures Tells(s'.db.rows, log'[k].packet) {
        if k < |log| {
          assert log'[k] == log[k];
          StillTells(s, s', log[k].packet);
        }
      }
    }
  }

  lemma WireStillTells(s: Sys, s': Sys)
    requires RowsAdvance(s, s') && Truthful(s)
    requires forall k | 0 <= k < |s'.bus.wire| ::
               || (exists l :: 0 <= l < |s.bus.wire| && s.bus.wire[l] == s'.bus.wire[k])
               || Tells(s'.db.rows, s'.bus.wire[k].packet)
    ensures WireTells(s'.db.rows, s'.bus.wire)
  {
    hide Tells, RowsAdvance, LogTells;
    forall k | 0 <= k < |s'.bus.wire| ensures Tells(s'.db.rows, s'.bus.wire[k].packet) {
      if l :| 0 <= l < |s.bus.wire| && s.bus.wire[l] == s'.bus.wire[k] {
        StillTells(s, s', s.bus.wire[l].packet);
      }
    }
  }

  lemma DmTells(s: Sys, e: Event)
    requires SysOk(s) && Truthful(s) && Enabled(s, e) && e.DmEv?
    ensures Truthful(Apply(s, e))
  {
    hide SysOk, Apply, Enabled, Truthful, DmAdds, RowsAdvance;
    DmShape(s, e);
    StepAdvancesRows(s, e);
    match FindOrCreateChat(s.db, e.from, e.to, e.pick)
    case DuplicateMember =>
    case Found(db, chat) =>
      hide FindOrCreateChat;
      DmAppends(s, e.inst, At(Apply(s, e), e.inst), chat, e.from, e.to, e.clientId, e.body, e.now, e.pubOk);
      WireStillTells(s, Apply(s, e));
      PutTells(s, e.inst, At(Apply(s, e), e.inst));
  }

  lemma DmAppends(s: Sys, i: nat, w': World, chat: ChatId, from: UserId, to: UserId, clientId: nat,
                  body: string, now: int, pubOk: bool)
    requires i < |s.nodes| && DmAdds(At(s, i), w', chat, from, to, clientId, body, now, pubOk)
    ensures s.nodes[i].hub.log <= w'.node.hub.log && s.bus.wire <= w'.bus.wire
    ensures forall k | |s.nodes[i].hub.log| <= k < |w'.node.hub.log| :: Tells(w'.db.rows, w'.node.hub.log[k].packet)
    ensures forall k | |s.bus.wire| <= k < |w'.bus.wire| :: Tells(w'.db.rows, w'.bus.wire[k].packet)
  {
    hide Send;
    var p := Message(|s.db.rows|, from, body, now);
    assert Tells(w'.db.rows, p);
    var copy := LocalCopy(At(s, i), to, p, w'.hist.dms[|s.hist.dms|].route);
    var after: seq<Accept> := s.nodes[i].hub.log + copy;
    assert after <= w'.node.hub.log;
    assert forall k | |s.nodes[i].hub.log| <= k < |after| :: after[k].packet == p;
    forall k | |s.bus.wire| <= k < |w'.bus.wire| ensures w'.bus.wire[k].packet == p {
      assert w'.bus.wire[k] == WireCopies(At(s, i), to, p, w'.hist.dms[|s.hist.dms|].route)[k - |s.bus.wire|];
      CopiesAre(s.bus.subs, to, p, k - |s.bus.wire|);
    }
  }

  lemma {:induction false} CopiesAre(subs: seq<Subscription>, user: UserId, p: Packet, k: nat)
    requires k < |Copies(subs, user, p)|
    ensures Copies(subs, user, p)[k].packet == p
  {
    if k < |Copies(subs[..|subs| - 1], user, p)| { CopiesAre(subs[..|subs| - 1], user, p, k); }
  }

  lemma AckTells(s: Sys, e: Event)
    requires SysOk(s) && Truthful(s) && Enabled(s, e) && e.AckEv?
    ensures Truthful(Apply(s, e))
  {
    AckShape(s, e);
    StepAdvancesRows(s, e);
    assert e.mid < |s.db.rows|;
    hide SysOk, Apply, Enabled, Truthful, RowsAdvance;
    var s' := Apply(s, e);
    assert IsRead(s'.db.rows, e.mid);
    assert forall k | 0 <= k < |s.bus.wire| :: s'.bus.wire[k] == s.bus.wire[k];
    WireStillTells(s, s');
    PutTells(s, e.inst, At(s', e.inst));
  }

  lemma ConnectAppends(s: Sys, i: nat, w': World, user: UserId, batch: seq<MsgId>)
    requires i < |s.nodes| && ValidIds(s.db, batch) && ConnectAdds(At(s, i), w', i, user, batch)
    ensures s.nodes[i].hub.log <= w'.node.hub.log && w'.bus.wire == s.bus.wire
    ensures forall k | |s.nodes[i].hub.log| <= k < |w'.node.hub.log| :: Tells(s.db.rows, w'.node.hub.log[k].packet)
  {
    hide MarksExactly, KeepsEarlier;
  }

  lemma ConnectTells(s: Sys, e: Event)
    requires SysOk(s) && Truthful(s) && Enabled(s, e) && e.ConnectEv?
    ensures Truthful(Apply(s, e))
  {
    ConnectShape(s, e);
    StepAdvancesRows(s, e);
    hide SysOk, Apply, Truthful, RowsAdvance, IsPendingBatch, ConnectAdds;
    ConnectAppends(s, e.inst, At(Apply(s, e), e.inst), e.user, e.batch);
    var log' := At(Apply(s, e), e.inst).node.hub.log;
    forall k | |s.nodes[e.inst].hub.log| <= k < |log'| ensures Tells(Apply(s, e).db.rows, log'[k].packet) {
      StillTells(s, Apply(s, e), log'[k].packet);
    }
    WireStillTells(s, Apply(s, e));
    PutTells(s, e.inst, At(Apply(s, e), e.inst));
  }

  lemma DisconnectTells(s: Sys, e: Event)
    requires SysOk(s) && Truthful(s) && Enabled(s, e) && e.DisconnectEv?
    ensures Truthful(Apply(s, e))
  {
    StepAdvancesRows(s, e);
    hide SysOk, WorldOk, Disconnect, Evolves, Truthful, RowsAdvance;
    WorldOf(s, e.inst);
    DisconnectKeeps(At(s, e.inst), e.inst, e.client);
    WireStillTells(s, Apply(s, e));
    PutTells(s, e.inst, Disconnect(At(s, e.inst), e.client));
  }

  lemma ForwardTells(s: Sys, k: nat)
    requires SysOk(s) && Truthful(s) && Enabled(s, ForwardEv(k))
    ensures Truthful(Apply(s, ForwardEv(k)))
  {
    var f := s.bus.wire[k];
    var sub := s.bus.subs[f.sub];
    var s1 := s.(bus := Remove(s.bus, k));
    assert Tells(s.db.rows, f.packet);
    hide SysOk, HubOk, Send, Tells;
    HubOf(s, sub.inst);
    Receipts.SendAppends(s.nodes[sub.inst].hub, sub.user, f.packet);
    RemoveTells(s, k);
    hide Truthful;
    PutTells(s1, sub.inst, SendTo(At(s1, sub.inst), sub.user, f.packet));
  }

  lemma RemoveTells(s: Sys, k: nat)
    requires Truthful(s) && k < |s.bus.wire|
    ensures Truthful(s.(bus := Remove(s.bus, k)))
  {
    var wire := Remove(s.bus, k).wire;
    forall j | 0 <= j < |wire| ensures Tells(s.db.rows, wire[j].packet) {
      assert wire[j] == s.bus.wire[if j < k then j else j + 1];
    }
  }

  lemma MiscTells(s: Sys, e: Event)
    requires SysOk(s) && Truthful(s) && Enabled(s, e) && e.MiscEv?
    ensures Truthful(Apply(s, e))
  {
    hide SysOk, HubOk, Send, Truthful;
    HubOf(s, e.inst);
    Receipts.SendAppends(s.nodes[e.inst].hub, e.to, Other(e.notice));
    var w := SendOrPublish(At(s, e.inst), e.to, Other(e.notice), e.relay);
    forall k | |s.bus.wire| <= k < |w.bus.wire| ensures !w.bus.wire[k].packet.ReadNotice? {
      CopiesAre(s.bus.subs, e.to, Other(e.notice), k - |s.bus.wire|);
    }
    assert forall k | 0 <= k < |s.bus.wire| :: w.bus.wire[k] == s.bus.wire[k];
    WireStillTells(s, Apply(s, e));
    PutTells(s, e.inst, w);
  }

  lemma OtherTells(s: Sys, e: Event)
    requires SysOk(s) && Truthful(s) && Enabled(s, e) && (e.WriteEv? || e.LoseEv? || e.HistoryEv?)
    ensures Truthful(Apply(s, e))
  {
    hide SysOk, Tells;
    match e
    case LoseEv(k) => RemoveTells(s, k);
    case HistoryEv(_, _, _) =>
    case WriteEv(i, c, _) =>
  }

  lemma StepTells(s: Sys, e: Event)
    requires SysOk(s) && Truthful(s)
    ensures Truthful(Step(s, e))
  {
    hide SysOk, Apply, Enabled, Truthful;
    if Enabled(s, e) {
      match e
      case ConnectEv(_, _, _) => ConnectTells(s, e);
      case DisconnectEv(_, _) => DisconnectTells(s, e);
      case DmEv(_, _, _, _, _, _, _, _) => DmTells(s, e);
      case AckEv(_, _, _, _, _) => AckTells(s, e);
      case ForwardEv(k) => ForwardTells(s, k);
      case MiscEv(_, _, _, _) => MiscTells(s, e);
      case _ => OtherTells(s, e);
    }
  }

  lemma {:induction false} RunTells(s: Sys, es: seq<Event>)
    requires SysOk(s) && Truthful(s)
    ensures Truthful(Run(s, es))
    decreases |es|
  {
    hide SysOk, Truthful, Step;
    if es != [] {
      StepTells(s, es[0]);
      StepKeepsSys(s, es[0]);
      RunTells(Step(s, es[0]), es[1..]);
    }
  }

  lemma InitTells(n: nat)
    ensures Truthful(Init(n))
  {}

  /** Some queue has accepted the packet, or it is on its way to one. */
  ghost predicate IsSomewhere(s: Sys, p: Packet) {
    || (exists i, k :: 0 <= i < |s.nodes| && 0 <= k < |s.nodes[i].hub.log| && s.nodes[i].hub.log[k].packet == p)
    || (exists k :: 0 <= k < |s.bus.wire| && s.bus.wire[k].packet == p)
  }

  lemma SomewhereTells(s: Sys, p: Packet)
    requires Truthful(s) && IsSomewhere(s, p)
    ensures Tells(s.db.rows, p)
  {
    hide Tells;
    if i, k :| 0 <= i < |s.nodes| && 0 <= k < |s.nodes[i].hub.log| && s.nodes[i].hub.log[k].packet == p {
      assert LogTells(s.db.rows, s.nodes[i].hub.log);
    }
  }

  /**
   In every run, whatever way a copy went, by its own handler, over the wire or by a replay, it is the row's author,
   text and time. So all copies of a message are one packet.
   */
  lemma CopiesCarryTheirRow(n: nat, es: seq<Event>, p: Packet, q: Packet)
    requires var s := Run(Init(n), es);
             IsSomewhere(s, p) && IsSomewhere(s, q) && p.Message? && q.Message?
    ensures var rows := Run(Init(n), es).db.rows;
            && 0 <= p.mid < |rows|
            && p == Message(p.mid, rows[p.mid].sender, rows[p.mid].body, rows[p.mid].createdAt)
            && (p.mid == q.mid ==> p == q)
  {
    InitOk(n);
    InitTells(n);
    RunTells(Init(n), es);
    hide Run, Init, Truthful, IsSomewhere;
    SomewhereTells(Run(Init(n), es), p);
    SomewhereTells(Run(Init(n), es), q);
  }

  lemma DmMembers(s: Sys, e: Event)
    requires SysOk(s) && Enabled(s, e) && e.DmEv?
    ensures s.db.members <= Apply(s, e).db.members
  {
    hide SysOk, HandleDm, DmAdds;
    WorldOf(s, e.inst);
    HandleDmKeeps(At(s, e.inst), e.inst, e.from, e.to, e.clientId, e.body, e.now, e.pick, e.pubOk);
  }

  /** Chats never lose a member. */
  lemma StepMembers(s: Sys, e: Event)
    requires SysOk(s)
    ensures s.db.members <= Step(s, e).db.members
  {
    if Enabled(s, e) {
      match e
      case ConnectEv(_, _, _) => hide SysOk, Apply, Enabled, HubConnects; ConnectShape(s, e);
      case DmEv(i, from, to, clientId, body, now, pick, pubOk) =>
        hide SysOk, Apply, Enabled;
        DmMembers(s, e);
      case DisconnectEv(_, _) => hide SysOk, EndReader;
      case _ => hide SysOk, Send, Write;
    }
  }
}
