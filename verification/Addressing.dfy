/** Where copies go: over a whole run, no queue but its addressee's ever takes a copy of a message between two users. */
module Addressing {
  import opened ChatTypes
  import opened HubSpec
  import opened DbSpec
  import opened BusSpec
  import opened Protocol
  import opened ProtocolSteps
  import opened NoLoss
  import Receipts
  import Subscriptions

  /** Whom each stored message is for, where sender and addressee differ. */
  function Addressees(rows: seq<Row>, dms: seq<DmRecord>): seq<Option<UserId>>
    requires |dms| == |rows|
  {
    seq(|rows|, m requires 0 <= m < |rows| => if dms[m].to != rows[m].sender then Some(dms[m].to) else None)
  }

  /** A packet for a user, if it is a copy, is a copy of a message to that user. */
  predicate Fits(to: seq<Option<UserId>>, p: Packet, user: UserId) {
    p.Message? ==> 0 <= p.mid < |to| && (to[p.mid].Some? ==> to[p.mid].value == user)
  }

  predicate LogFits(to: seq<Option<UserId>>, log: seq<Accept>) {
    forall k | 0 <= k < |log| :: Fits(to, log[k].packet, log[k].user)
  }

  predicate FlightFits(to: seq<Option<UserId>>, bus: BusState, k: int)
    requires 0 <= k < |bus.wire|
  {
    Fits(to, bus.wire[k].packet, bus.subs[bus.wire[k].sub].user)
  }

  predicate WireFits(to: seq<Option<UserId>>, bus: BusState) {
    forall k | 0 <= k < |bus.wire| :: FlightFits(to, bus, k)
  }

  predicate Addressed(s: Sys) {
    && |s.hist.dms| == |s.db.rows|
    && var to := Addressees(s.db.rows, s.hist.dms);
       WireFits(to, s.bus) && forall i | 0 <= i < |s.nodes| :: LogFits(to, s.nodes[i].hub.log)
  }

  lemma MoreFits(to: seq<Option<UserId>>, to': seq<Option<UserId>>, log: seq<Accept>)
    requires LogFits(to, log) && to <= to'
    ensures LogFits(to', log)
  {
    forall k | 0 <= k < |log| ensures Fits(to', log[k].packet, log[k].user) {
      assert Fits(to, log[k].packet, log[k].user);
    }
  }

  lemma AppendFits(to: seq<Option<UserId>>, log: seq<Accept>, log': seq<Accept>)
    requires LogFits(to, log) && log <= log'
    requires forall k | |log| <= k < |log'| :: Fits(to, log'[k].packet, log'[k].user)
    ensures LogFits(to, log')
  {
    forall k | 0 <= k < |log'| ensures Fits(to, log'[k].packet, log'[k].user) {
      if k < |log| { assert log'[k] == log[k] && Fits(to, log[k].packet, log[k].user); }
    }
  }

  predicate SubUsersStay(bus: BusState, bus': BusState) {
    |bus.subs| <= |bus'.subs| && forall k | 0 <= k < |bus.subs| :: bus'.subs[k].user == bus.subs[k].user
  }

  lemma WireGrows(to: seq<Option<UserId>>, to': seq<Option<UserId>>, bus: BusState, bus': BusState)
    requires WireFits(to, bus) && to <= to' && SubUsersStay(bus, bus') && bus.wire <= bus'.wire
    requires forall k | |bus.wire| <= k < |bus'.wire| :: FlightFits(to', bus', k)
    ensures WireFits(to', bus')
  {
    forall k | 0 <= k < |bus'.wire| ensures FlightFits(to', bus', k) {
      if k < |bus.wire| { assert FlightFits(to, bus, k) && bus'.wire[k] == bus.wire[k]; }
    }
  }

  /** Stored messages keep their addressee, so the list only grows. */
  lemma StepAddressees(s: Sys, e: Event)
    requires SysOk(s)
    ensures |s.hist.dms| == |s.db.rows| && |Step(s, e).hist.dms| == |Step(s, e).db.rows|
    ensures Addressees(s.db.rows, s.hist.dms) <= Addressees(Step(s, e).db.rows, Step(s, e).hist.dms)
  {
    hide SysOk, Step;
    StepTables(s, e);
    StepAdvancesRows(s, e);
    StepKeepsSys(s, e);
    SysRecords(s);
    SysRecords(Step(s, e));
    RecordsGrow(s, Step(s, e), e);
  }

  lemma RecordsGrow(s: Sys, s': Sys, e: Event)
    requires TablesStep(s, s', e) && RowsAdvance(s, s') && |s.hist.dms| == |s.db.rows| && |s'.hist.dms| == |s'.db.rows|
    ensures Addressees(s.db.rows, s.hist.dms) <= Addressees(s'.db.rows, s'.hist.dms)
  {
    var to, to' := Addressees(s.db.rows, s.hist.dms), Addressees(s'.db.rows, s'.hist.dms);
    forall m | 0 <= m < |to| ensures to'[m] == to[m] {
      assert s'.db.rows[m].sender == s.db.rows[m].sender;
      assert s'.hist.dms[m] == s.hist.dms[m];
    }
  }

  function ToOf(s: Sys): seq<Option<UserId>>
    requires |s.hist.dms| == |s.db.rows|
  {
    Addressees(s.db.rows, s.hist.dms)
  }

  /** A step of one instance keeps the property when what it appends fits. */
  lemma PutFits(s: Sys, i: nat, w: World)
    requires Addressed(s) && i < |s.nodes| && |w.hist.dms| == |w.db.rows|
    requires ToOf(s) <= Addressees(w.db.rows, w.hist.dms)
    requires s.nodes[i].hub.log <= w.node.hub.log
    requires forall k | |s.nodes[i].hub.log| <= k < |w.node.hub.log| ::
               Fits(Addressees(w.db.rows, w.hist.dms), w.node.hub.log[k].packet, w.node.hub.log[k].user)
    requires WireFits(Addressees(w.db.rows, w.hist.dms), w.bus)
    ensures Addressed(Put(s, i, w))
  {
    hide Addressees, Fits, WireFits, LogFits;
    var to, to', s' := ToOf(s), Addressees(w.db.rows, w.hist.dms), Put(s, i, w);
    forall j | 0 <= j < |s'.nodes| ensures LogFits(to', s'.nodes[j].hub.log) {
      assert LogFits(to, s.nodes[j].hub.log);
      MoreFits(to, to', s.nodes[j].hub.log);
      if j == i { AppendFits(to', s.nodes[i].hub.log, w.node.hub.log); }
    }
  }

  lemma WireOf(s: Sys)
    requires Addressed(s)
    ensures WireFits(ToOf(s), s.bus)
  {}

  lemma NewRecordFits(s: Sys, w': World, to: UserId, p: Packet)
    requires |s.hist.dms| == |s.db.rows| && |w'.hist.dms| == |w'.db.rows| == |s.db.rows| + 1
    requires p.Message? && p.mid == |s.db.rows| && w'.hist.dms[|s.db.rows|].to == to
    ensures Fits(Addressees(w'.db.rows, w'.hist.dms), p, to)
  {}

  lemma DmLogFits(to': seq<Option<UserId>>, log: seq<Accept>, copy: seq<Accept>, log': seq<Accept>, p: Packet,
                  to: UserId,
                  from: UserId, m: MsgId, clientId: nat)
    requires Fits(to', p, to) && (forall k | 0 <= k < |copy| :: copy[k].packet == p && copy[k].user == to)
    requires LogAddsAck(log + copy, log', from, m, clientId)
    ensures log <= log' && forall k | |log| <= k < |log'| :: Fits(to', log'[k].packet, log'[k].user)
  {}

  lemma DmWireFits(to: seq<Option<UserId>>, to': seq<Option<UserId>>, bus: BusState, bus': BusState, user: UserId,
                   p: Packet)
    requires WireFits(to, bus) && to <= to' && bus'.subs == bus.subs && Fits(to', p, user)
    requires bus'.wire == bus.wire || bus'.wire == bus.wire + Copies(bus.subs, user, p)
    ensures WireFits(to', bus')
  {
    hide Fits, WireFits;
    forall k | |bus.wire| <= k < |bus'.wire| ensures FlightFits(to', bus', k) {
      assert bus'.wire[k] == Copies(bus.subs, user, p)[k - |bus.wire|];
    }
    WireGrows(to, to', bus, bus');
  }

  lemma DmFits(s: Sys, i: nat, w': World, chat: ChatId, from: UserId, to: UserId, clientId: nat,
               body: string, now: int, pubOk: bool)
    requires Addressed(s) && i < |s.nodes| && DmAdds(At(s, i), w', chat, from, to, clientId, body, now, pubOk)
    requires w'.bus.subs == s.bus.subs
    requires |w'.hist.dms| == |w'.db.rows| && ToOf(s) <= Addressees(w'.db.rows, w'.hist.dms)
    ensures Addressed(Put(s, i, w'))
  {
    hide Send, RouteOf, Addressees, Fits, WireFits, LogFits, LogAddsAck;
    var p := Message(|s.db.rows|, from, body, now);
    var route := RouteOf(At(s, i), to, p, pubOk);
    NewRecordFits(s, w', to, p);
    DmLogFits(Addressees(w'.db.rows, w'.hist.dms), s.nodes[i].hub.log, LocalCopy(At(s, i), to, p, route),
              w'.node.hub.log, p, to, from, |s.db.rows|, clientId);
    assert s.bus.wire + [] == s.bus.wire;
    DmWireFits(ToOf(s), Addressees(w'.db.rows, w'.hist.dms), s.bus, w'.bus, to, p);
    hide Addressed, DmAdds, LocalCopy;
    PutFits(s, i, w');
  }

  lemma DmKeepsAddressed(s: Sys, e: Event)
    requires SysOk(s) && Addressed(s) && Enabled(s, e) && e.DmEv?
    ensures Addressed(Apply(s, e))
  {
    hide SysOk, Apply, Enabled, DmAdds, Addressed, Addressees;
    DmShape(s, e);
    match FindOrCreateChat(s.db, e.from, e.to, e.pick)
    case DuplicateMember =>
    case Found(db, chat) =>
      var s', i := Apply(s, e), e.inst;
      StepAddressees(s, e);
      StepLogsGrow(s, e);
      Subscriptions.OtherKeepsSubsMap(s, e);
      hide FindOrCreateChat;
      DmFits(s, i, At(s', i), chat, e.from, e.to, e.clientId, e.body, e.now, e.pubOk);
  }

  lemma ConnectFits(s: Sys, e: Event, w': World)
    requires SysOk(s) && Addressed(s) && e.ConnectEv? && e.inst < |s.nodes|
    requires ValidIds(s.db, e.batch) && IsPendingBatch(s.db, e.user, e.batch)
    requires ConnectAdds(At(s, e.inst), w', e.inst, e.user, e.batch)
    requires |w'.hist.dms| == |w'.db.rows| && ToOf(s) <= Addressees(w'.db.rows, w'.hist.dms)
    ensures Addressed(Put(s, e.inst, w'))
  {
    hide SysOk, Addressees, IsPendingBatch, IsPending, TablesOk, MarksExactly, KeepsEarlier;
    var to, to' := ToOf(s), Addressees(w'.db.rows, w'.hist.dms);
    var log, log' := s.nodes[e.inst].hub.log, w'.node.hub.log;
    assert |to'| == |to| by { SameRows(s, w', e.batch); }
    forall k | |log| <= k < |log'| ensures Fits(to', log'[k].packet, log'[k].user) {
      var j := k - |log|;
      assert log'[k] == ReplayLog(s.db, |s.nodes[e.inst].hub.chans|, e.user, e.batch)[j];
      BatchPends(s.db, e.user, e.batch, e.batch[j]);
      SysTables(s);
      PendingIsAddressed(s.db, s.hist, e.user, e.batch[j]);
      PacketFits(s, e.batch[j], e.user);
      assert to'[e.batch[j]] == to[e.batch[j]];
    }
    WireOf(s);
    WireGrows(to, to', s.bus, w'.bus);
    hide Addressed, Fits, WireFits, HubConnects;
    PutFits(s, e.inst, w');
  }

  lemma SameRows(s: Sys, w': World, batch: seq<MsgId>)
    requires |s.hist.dms| == |s.db.rows| && |w'.hist.dms| == |w'.db.rows| && MarksExactly(s.db, w'.db, batch)
    ensures |Addressees(w'.db.rows, w'.hist.dms)| == |ToOf(s)|
  {}

  lemma PacketFits(s: Sys, m: MsgId, user: UserId)
    requires |s.hist.dms| == |s.db.rows| && 0 <= m < |s.db.rows|
    requires s.hist.dms[m].to != s.db.rows[m].sender ==> s.hist.dms[m].to == user
    ensures Fits(ToOf(s), PacketOf(s.db, m), user)
  {}

  lemma ConnectKeepsAddressed(s: Sys, e: Event)
    requires SysOk(s) && Addressed(s) && Enabled(s, e) && e.ConnectEv?
    ensures Addressed(Apply(s, e))
  {
    hide SysOk, Apply, ConnectAdds, Addressed, Addressees, IsPendingBatch;
    ConnectShape(s, e);
    StepAddressees(s, e);
    ConnectFits(s, e, At(Apply(s, e), e.inst));
  }

  // ---- steps that append no copy

  /** New log entries and flights that are no copies, or the removal of flights. */
  lemma NoCopyFits(s: Sys, i: nat, w: World)
    requires Addressed(s) && i < |s.nodes| && |w.hist.dms| == |w.db.rows|
    requires ToOf(s) <= Addressees(w.db.rows, w.hist.dms) && SubUsersStay(s.bus, w.bus)
    requires s.nodes[i].hub.log <= w.node.hub.log && s.bus.wire <= w.bus.wire
    requires forall k | |s.nodes[i].hub.log| <= k < |w.node.hub.log| :: !w.node.hub.log[k].packet.Message?
    requires forall k | |s.bus.wire| <= k < |w.bus.wire| :: !w.bus.wire[k].packet.Message?
    ensures Addressed(Put(s, i, w))
  {
    WireOf(s);
    hide Addressees, Addressed, SubUsersStay;
    WireGrows(ToOf(s), Addressees(w.db.rows, w.hist.dms), s.bus, w.bus);
    hide WireFits;
    PutFits(s, i, w);
  }

  lemma AckKeepsAddressed(s: Sys, e: Event)
    requires SysOk(s) && Addressed(s) && Enabled(s, e) && e.AckEv?
    ensures Addressed(Apply(s, e))
  {
    hide SysOk, Apply, Enabled, Addressed, Addressees;
    AckShape(s, e);
    StepAddressees(s, e);
    NoCopyFits(s, e.inst, At(Apply(s, e), e.inst));
  }

  lemma MiscKeepsAddressed(s: Sys, e: Event)
    requires SysOk(s) && Addressed(s) && Enabled(s, e) && e.MiscEv?
    ensures Addressed(Apply(s, e))
  {
    hide SysOk, HubOk, Send, Addressed, Addressees;
    HubOf(s, e.inst);
    Receipts.SendAppends(s.nodes[e.inst].hub, e.to, Other(e.notice));
    StepAddressees(s, e);
    NoCopyFits(s, e.inst, SendOrPublish(At(s, e.inst), e.to, Other(e.notice), e.relay));
  }

  lemma DisconnectUsers(w: World, c: ClientId)
    requires c < |w.node.hub.chans|
    ensures SubUsersStay(w.bus, Disconnect(w, c).bus) && Disconnect(w, c).bus.wire == w.bus.wire
  {}

  lemma DisconnectKeepsAddressed(s: Sys, e: Event)
    requires SysOk(s) && Addressed(s) && Enabled(s, e) && e.DisconnectEv?
    ensures Addressed(Apply(s, e))
  {
    hide SysOk, WorldOk, Disconnect, Evolves, Addressed, Addressees, SubUsersStay;
    WorldOf(s, e.inst);
    DisconnectKeeps(At(s, e.inst), e.inst, e.client);
    DisconnectUsers(At(s, e.inst), e.client);
    StepAddressees(s, e);
    NoCopyFits(s, e.inst, Disconnect(At(s, e.inst), e.client));
  }

  lemma WriteKeepsAddressed(s: Sys, e: Event)
    requires SysOk(s) && Addressed(s) && Enabled(s, e) && e.WriteEv?
    ensures Addressed(Apply(s, e))
  {
    hide SysOk, CanWrite, Addressed, Addressees;
    var w := At(s, e.inst);
    StepAddressees(s, e);
    NoCopyFits(s, e.inst, w.(node := w.node.(hub := Write(w.node.hub, e.client, e.ok))));
  }

  lemma RemoveFits(to: seq<Option<UserId>>, bus: BusState, k: nat)
    requires WireFits(to, bus) && k < |bus.wire|
    ensures WireFits(to, Remove(bus, k))
  {
    var bus' := Remove(bus, k);
    forall j | 0 <= j < |bus'.wire| ensures FlightFits(to, bus', j) {
      assert FlightFits(to, bus, if j < k then j else j + 1);
      assert bus'.wire[j] == bus.wire[if j < k then j else j + 1];
    }
  }

  lemma RemoveKeepsAddressed(s: Sys, k: nat)
    requires Addressed(s) && k < |s.bus.wire|
    ensures Addressed(s.(bus := Remove(s.bus, k)))
  {
    RemoveFits(ToOf(s), s.bus, k);
    hide WireFits, LogFits, Remove;
  }

  lemma HistoryKeepsAddressed(s: Sys, e: Event)
    requires SysOk(s) && Addressed(s) && Enabled(s, e) && e.HistoryEv?
    ensures Addressed(Apply(s, e))
  {
    hide SysOk, Matches;
    StepTables(s, e);
    assert Apply(s, e).db.rows == s.db.rows;
  }

  /** A forwarder hands a copy to the user its subscription belongs to. */
  lemma ForwardKeepsAddressed(s: Sys, k: nat)
    requires SysOk(s) && Addressed(s) && Enabled(s, ForwardEv(k))
    ensures Addressed(Apply(s, ForwardEv(k)))
  {
    var f := s.bus.wire[k];
    var sub := s.bus.subs[f.sub];
    var s1 := s.(bus := Remove(s.bus, k));
    assert FlightFits(ToOf(s), s.bus, k);
    RemoveKeepsAddressed(s, k);
    WireOf(s1);
    hide SysOk, HubOk, Send, Addressed, Addressees, Fits, WireFits;
    HubOf(s, sub.inst);
    SendEffect(s.nodes[sub.inst].hub, sub.user, f.packet);
    PutFits(s1, sub.inst, SendTo(At(s1, sub.inst), sub.user, f.packet));
  }

  lemma StepKeepsAddressed(s: Sys, e: Event)
    requires SysOk(s) && Addressed(s)
    ensures Addressed(Step(s, e))
  {
    hide SysOk, Apply, Addressed;
    if Enabled(s, e) {
      match e
      case ConnectEv(_, _, _) => ConnectKeepsAddressed(s, e);
      case DisconnectEv(_, _) => DisconnectKeepsAddressed(s, e);
      case DmEv(_, _, _, _, _, _, _, _) => DmKeepsAddressed(s, e);
      case AckEv(_, _, _, _, _) => AckKeepsAddressed(s, e);
      case HistoryEv(_, _, _) => HistoryKeepsAddressed(s, e);
      case ForwardEv(k) => ForwardKeepsAddressed(s, k);
      case LoseEv(k) => LoseKeepsAddressed(s, k);
      case WriteEv(_, _, _) => WriteKeepsAddressed(s, e);
      case MiscEv(_, _, _, _) => MiscKeepsAddressed(s, e);
    }
  }

  lemma LoseKeepsAddressed(s: Sys, k: nat)
    requires Addressed(s) && Enabled(s, LoseEv(k))
    ensures Addressed(Apply(s, LoseEv(k)))
  {
    RemoveKeepsAddressed(s, k);
  }

  lemma {:induction false} RunKeepsAddressed(s: Sys, es: seq<Event>)
    requires SysOk(s) && Addressed(s)
    ensures Addressed(Run(s, es))
    decreases |es|
  {
    hide SysOk, Addressed, Step;
    if es != [] {
      StepKeepsAddressed(s, es[0]);
      StepKeepsSys(s, es[0]);
      RunKeepsAddressed(Step(s, es[0]), es[1..]);
    }
  }

  /** In every run a queue that took a copy of a message between two users is a queue of its addressee. */
  lemma CopiesReachOnlyTheAddressee(n: nat, es: seq<Event>, i: nat, k: nat)
    requires i < |Run(Init(n), es).nodes| && k < |Run(Init(n), es).nodes[i].hub.log|
    ensures var s := Run(Init(n), es);
            var a := s.nodes[i].hub.log[k];
            && |s.hist.dms| == |s.db.rows|
            && (a.packet.Message? ==>
                  && 0 <= a.packet.mid < |s.db.rows|
                  && (s.hist.dms[a.packet.mid].to != s.db.rows[a.packet.mid].sender ==>
                        a.user == s.hist.dms[a.packet.mid].to))
  {
    InitOk(n);
    assert Addressed(Init(n));
    RunKeepsAddressed(Init(n), es);
    hide Run;
    var s := Run(Init(n), es);
    assert LogFits(ToOf(s), s.nodes[i].hub.log);
    assert Fits(ToOf(s), s.nodes[i].hub.log[k].packet, s.nodes[i].hub.log[k].user);
  }
}
