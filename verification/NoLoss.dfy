/** Every run keeps the system's invariant, and no direct message is lost on any of them. */
module NoLoss {
  import opened ChatTypes
  import opened HubSpec
  import opened DbSpec
  import opened BusSpec
  import opened Protocol
  import opened ProtocolSteps

  lemma InitOk(n: nat)
    ensures SysOk(Init(n))
  {
    assert Init(n).db == EMPTY_DB;
    forall i | 0 <= i < n ensures WorldOk(At(Init(n), i), i) {}
  }

  lemma ForwardKeepsSys(s: Sys, k: nat)
    requires SysOk(s) && Enabled(s, ForwardEv(k))
    ensures SysOk(Apply(s, ForwardEv(k)))
  {
    hide WorldOk, Evolves;
    RemoveKeeps(s, k);
    var s' := s.(bus := Remove(s.bus, k));
    var f := s.bus.wire[k];
    var sub := s.bus.subs[f.sub];
    assert WorldOk(At(s', sub.inst), sub.inst);
    SendToKeeps(At(s', sub.inst), sub.inst, sub.user, f.packet);
    PutKeepsSys(s', sub.inst, SendTo(At(s', sub.inst), sub.user, f.packet));
  }

  lemma HistoryKeepsSys(s: Sys, a: UserId, b: UserId, pick: ChatId)
    requires SysOk(s) && ValidPick(s.db, a, b, pick)
    ensures SysOk(Apply(s, HistoryEv(a, b, pick)))
  {
    LookupIsRightIffUsersDiffer(s.db, a, b, pick);
    LookupKeepsOneChatPerPair(s.db, a, b, pick);
    hide DbOk, OneChatPerPair, HubOk, FindOrCreateChat;
    var s' := Apply(s, HistoryEv(a, b, pick));
    forall i | 0 <= i < |s.nodes| ensures WorldOk(At(s', i), i) {
      assert WorldOk(At(s, i), i);
    }
  }

  lemma StepKeepsSys(s: Sys, e: Event)
    requires SysOk(s)
    ensures SysOk(Step(s, e))
  {
    hide WorldOk, Evolves, SysOk, HandleDm, HandleAck, Connect, Disconnect, SendOrPublish, Write, Send;
    if Enabled(s, e) {
      match e
      case ForwardEv(k) => ForwardKeepsSys(s, k);
      case LoseEv(k) => RemoveKeeps(s, k);
      case HistoryEv(a, b, pick) => HistoryKeepsSys(s, a, b, pick);
      case _ => LocalKeepsSys(s, e);
    }
  }

  function InstOf(e: Event): nat {
    match e
    case ConnectEv(i, _, _) => i
    case DisconnectEv(i, _) => i
    case DmEv(i, _, _, _, _, _, _, _) => i
    case AckEv(i, _, _, _, _) => i
    case WriteEv(i, _, _) => i
    case MiscEv(i, _, _, _) => i
    case _ => 0
  }

  lemma ApplyIsLocal(s: Sys, e: Event)
    requires Enabled(s, e) && !e.ForwardEv? && !e.LoseEv? && !e.HistoryEv?
    ensures InstOf(e) < |s.nodes| && |Apply(s, e).nodes| == |s.nodes|
    ensures Apply(s, e) == Put(s, InstOf(e), At(Apply(s, e), InstOf(e)))
  {
    hide HandleDm, HandleAck, Connect, Disconnect, SendOrPublish, Write, Send, IsPendingBatch, ValidPick;
  }

  lemma LocalKeepsSys(s: Sys, e: Event)
    requires SysOk(s) && Enabled(s, e) && !e.ForwardEv? && !e.LoseEv? && !e.HistoryEv?
    ensures SysOk(Apply(s, e))
    ensures InstOf(e) < |s.nodes| && Evolves(At(s, InstOf(e)), At(Apply(s, e), InstOf(e)), InstOf(e))
  {
    hide HubOk, TablesOk, SubsOk, FreshLog, FreshWire, IsPendingBatch, ValidPick;
    var i := InstOf(e);
    assert WorldOk(At(s, i), i);
    var w := At(s, i);
    var w' := At(Apply(s, e), i);
    assert WorldOk(w', i) && Evolves(w, w', i) by {
      hide WorldOk, Evolves, SysOk, HandleDm, HandleAck, Connect, Disconnect, SendOrPublish, Write, Send;
      match e
      case ConnectEv(_, u, batch) => ConnectKeeps(w, i, u, batch);
      case DisconnectEv(_, c) => DisconnectKeeps(w, i, c);
      case DmEv(_, from, to, clientId, body, now, pick, pubOk) =>
        HandleDmKeeps(w, i, from, to, clientId, body, now, pick, pubOk);
      case AckEv(_, reader, m, notify, pubOk) => HandleAckKeeps(w, i, reader, m, notify, pubOk);
      case WriteEv(_, c, ok) => WriteKeeps(w, i, c, ok);
      case MiscEv(_, u, notice, relay) => SendOrPublishKeeps(w, i, u, Other(notice), relay);
    }
    ApplyIsLocal(s, e);
    hide WorldOk, Evolves, Apply;
    PutKeepsSys(s, i, w');
  }

  lemma {:induction false} RunKeepsSys(s: Sys, es: seq<Event>)
    requires SysOk(s)
    ensures SysOk(Run(s, es))
    decreases |es|
  {
    hide SysOk, Step;
    if es != [] {
      StepKeepsSys(s, es[0]);
      RunKeepsSys(Step(s, es[0]), es[1..]);
    }
  }

  // ---- what one step does to rows, records and logs

  /** Content of a row never changes. A status changes by an acknowledgement or a replay only. */
  ghost predicate RowStep(s: Sys, s': Sys, e: Event, m: nat)
    requires m < |s.db.rows| <= |s'.db.rows|
  {
    || s'.db.rows[m] == s.db.rows[m]
    || (e.AckEv? && m == e.mid && s'.db.rows[m] == s.db.rows[m].(status := Read) && (m, e.reader) in s'.hist.acks)
    || (e.ConnectEv? && m in e.batch && s'.db.rows[m] == s.db.rows[m].(status := Delivered))
  }

  ghost predicate TablesStep(s: Sys, s': Sys, e: Event) {
    && |s.db.rows| <= |s'.db.rows|
    && s.hist.dms <= s'.hist.dms
    && s.hist.acks <= s'.hist.acks
    && (forall m: nat | m < |s.db.rows| :: RowStep(s, s', e, m))
    && (|s'.db.rows| != |s.db.rows| ==> e.DmEv?)
  }

  predicate LogsGrow(s: Sys, s': Sys) {
    && |s.nodes| == |s'.nodes|
    && forall i | 0 <= i < |s.nodes| :: s.nodes[i].hub.log <= s'.nodes[i].hub.log
  }

  lemma PutLogsGrow(s: Sys, i: nat, w: World)
    requires i < |s.nodes| && s.nodes[i].hub.log <= w.node.hub.log
    ensures LogsGrow(s, Put(s, i, w))
  {}

  lemma LocalLogsGrow(s: Sys, e: Event)
    requires SysOk(s) && Enabled(s, e) && !e.ForwardEv? && !e.LoseEv? && !e.HistoryEv?
    ensures LogsGrow(s, Apply(s, e))
  {
    ApplyIsLocal(s, e);
    LocalKeepsSys(s, e);
    hide SysOk, Enabled, Apply, LogsGrow;
    PutLogsGrow(s, InstOf(e), At(Apply(s, e), InstOf(e)));
  }

  lemma SendGrowsLog(h: HubState, user: UserId, p: Packet)
    requires HubOk(h)
    ensures h.log <= Send(h, user, p).hub.log
  {
    SendEffect(h, user, p);
  }

  lemma ForwardLogsGrow(s: Sys, k: nat)
    requires Enabled(s, ForwardEv(k))
    requires HubOk(s.nodes[s.bus.subs[s.bus.wire[k].sub].inst].hub)
    ensures LogsGrow(s, Apply(s, ForwardEv(k)))
  {
    var f := s.bus.wire[k];
    var sub := s.bus.subs[f.sub];
    SendGrowsLog(s.nodes[sub.inst].hub, sub.user, f.packet);
    hide HubOk, Send, LogsGrow;
    PutLogsGrow(s, sub.inst, SendTo(At(s.(bus := Remove(s.bus, k)), sub.inst), sub.user, f.packet));
  }

  lemma StepLogsGrow(s: Sys, e: Event)
    requires SysOk(s)
    ensures LogsGrow(s, Step(s, e))
  {
    if Enabled(s, e) {
      match e
      case ForwardEv(k) =>
        hide HubOk, TablesOk, Apply, LogsGrow;
        assert WorldOk(At(s, s.bus.subs[s.bus.wire[k].sub].inst), s.bus.subs[s.bus.wire[k].sub].inst);
        ForwardLogsGrow(s, k);
      case LoseEv(k) =>
      case HistoryEv(a, b, pick) =>
      case _ =>
        hide SysOk, Apply, Enabled, LogsGrow;
        LocalLogsGrow(s, e);
    }
  }

  lemma DmShape(s: Sys, e: Event)
    requires SysOk(s) && Enabled(s, e) && e.DmEv?
    ensures e.inst < |s.nodes| && |s.hist.dms| == |s.db.rows| && |Apply(s, e).nodes| == |s.nodes|
    ensures Apply(s, e) == Put(s, e.inst, At(Apply(s, e), e.inst))
    ensures match FindOrCreateChat(s.db, e.from, e.to, e.pick)
            case DuplicateMember => Apply(s, e) == s
            case Found(db, chat) =>
              && DmAdds(At(s, e.inst), At(Apply(s, e), e.inst), chat, e.from, e.to, e.clientId, e.body, e.now, e.pubOk)
              && (chat, e.from) in Apply(s, e).db.members && (chat, e.to) in Apply(s, e).db.members
  {
    var w := At(s, e.inst);
    assert WorldOk(w, e.inst);
    HandleDmKeeps(w, e.inst, e.from, e.to, e.clientId, e.body, e.now, e.pick, e.pubOk);
    LookupKeeps(w, e.inst, e.from, e.to, e.pick);
    hide HubOk, DbOk, HandleDm, DmAdds, Evolves, SubsOk, FreshLog, FreshWire, FindOrCreateChat;
    assert Apply(s, e) == Put(s, e.inst, HandleDm(w, e.from, e.to, e.clientId, e.body, e.now, e.pick, e.pubOk));
  }

  lemma AckShape(s: Sys, e: Event)
    requires SysOk(s) && Enabled(s, e) && e.AckEv?
    ensures e.inst < |s.nodes| && |Apply(s, e).nodes| == |s.nodes|
    ensures Apply(s, e) == Put(s, e.inst, At(Apply(s, e), e.inst))
    ensures AckAdds(At(s, e.inst), At(Apply(s, e), e.inst), e.reader, e.mid)
  {
    var w := At(s, e.inst);
    assert WorldOk(w, e.inst);
    HandleAckKeeps(w, e.inst, e.reader, e.mid, e.notify, e.pubOk);
    hide HubOk, TablesOk, HandleAck, AckAdds, Evolves, SubsOk, FreshLog, FreshWire;
    assert Apply(s, e) == Put(s, e.inst, HandleAck(w, e.reader, e.mid, e.notify, e.pubOk));
  }

  lemma ConnectShape(s: Sys, e: Event)
    requires SysOk(s) && Enabled(s, e) && e.ConnectEv?
    ensures e.inst < |s.nodes| && |Apply(s, e).nodes| == |s.nodes|
    ensures Apply(s, e) == Put(s, e.inst, At(Apply(s, e), e.inst))
    ensures ConnectAdds(At(s, e.inst), At(Apply(s, e), e.inst), e.inst, e.user, e.batch)
  {
    var w := At(s, e.inst);
    assert WorldOk(w, e.inst);
    ConnectKeeps(w, e.inst, e.user, e.batch);
    hide HubOk, TablesOk, Connect, ConnectAdds, Evolves, SubsOk, FreshLog, FreshWire, IsPendingBatch;
    assert Apply(s, e) == Put(s, e.inst, Connect(w, e.inst, e.user, e.batch));
  }

  lemma DmTables(s: Sys, e: Event)
    requires SysOk(s) && Enabled(s, e) && e.DmEv?
    ensures TablesStep(s, Apply(s, e), e)
  {
    hide SysOk, Apply, LogAddsAck, LocalCopy, WireCopies;
    DmShape(s, e);
  }

  lemma AckTables(s: Sys, e: Event)
    requires SysOk(s) && Enabled(s, e) && e.AckEv?
    ensures TablesStep(s, Apply(s, e), e)
  {
    hide SysOk, Apply;
    AckShape(s, e);
  }

  lemma ConnectTables(s: Sys, e: Event)
    requires SysOk(s) && Enabled(s, e) && e.ConnectEv?
    ensures TablesStep(s, Apply(s, e), e)
  {
    hide SysOk, Apply, TablesStep, MarksExactly, HubConnects;
    ConnectShape(s, e);
    MarksTables(s, Apply(s, e), e);
  }

  lemma MarksTables(s: Sys, s': Sys, e: Event)
    requires e.ConnectEv? && MarksExactly(s.db, s'.db, e.batch) && s'.hist == s.hist
    ensures TablesStep(s, s', e)
  {}

  lemma DisconnectTables(s: Sys, e: Event)
    requires SysOk(s) && Enabled(s, e) && e.DisconnectEv?
    ensures TablesStep(s, Apply(s, e), e)
  {
    assert WorldOk(At(s, e.inst), e.inst);
    hide HubOk, DbOk, Send, Evolves;
    DisconnectKeeps(At(s, e.inst), e.inst, e.client);
  }

  lemma StepTables(s: Sys, e: Event)
    requires SysOk(s)
    ensures TablesStep(s, Step(s, e), e)
  {
    if Enabled(s, e) {
      match e
      case ConnectEv(_, _, _) => hide SysOk, Apply, Enabled, TablesStep; ConnectTables(s, e);
      case DisconnectEv(_, _) => hide SysOk, Apply, Enabled, TablesStep; DisconnectTables(s, e);
      case DmEv(_, _, _, _, _, _, _, _) => hide SysOk, Apply, Enabled, TablesStep; DmTables(s, e);
      case AckEv(_, _, _, _, _) => hide SysOk, Apply, Enabled, TablesStep; AckTables(s, e);
      case _ => hide SysOk, Send, Write;
    }
  }

  /** With each handler one step, the status of a row never falls and its content never changes. */
  ghost predicate RowsAdvance(s: Sys, s': Sys) {
    && |s.db.rows| <= |s'.db.rows|
    && forall m | 0 <= m < |s.db.rows| ::
         && Rank(s.db.rows[m].status) <= Rank(s'.db.rows[m].status)
         && s'.db.rows[m] == s.db.rows[m].(status := s'.db.rows[m].status)
  }

  lemma StepAdvancesRows(s: Sys, e: Event)
    requires SysOk(s)
    ensures RowsAdvance(s, Step(s, e))
  {
    hide SysOk, Apply;
    StepTables(s, e);
    var s' := Step(s, e);
    forall m: nat | m < |s.db.rows|
      ensures Rank(s.db.rows[m].status) <= Rank(s'.db.rows[m].status)
      ensures s'.db.rows[m] == s.db.rows[m].(status := s'.db.rows[m].status)
    {
      assert RowStep(s, s', e, m);
      if e.ConnectEv? && m in e.batch && Enabled(s, e) {
        assert IsPending(s.db, e.user, m);
      }
    }
  }

  /** Server status over whole runs: sent < delivered < read never falls. */
  lemma {:induction false} RunAdvancesRows(s: Sys, es: seq<Event>)
    requires SysOk(s)
    ensures RowsAdvance(s, Run(s, es))
    decreases |es|
  {
    hide SysOk, Step;
    if es != [] {
      StepAdvancesRows(s, es[0]);
      StepKeepsSys(s, es[0]);
      RunAdvancesRows(Step(s, es[0]), es[1..]);
    }
  }

  // ---- no loss

  ghost predicate LogHas(log: seq<Accept>, m: MsgId, user: UserId) {
    exists k :: 0 <= k < |log| && log[k].user == user && log[k].packet.Message? && log[k].packet.mid == m
  }

  /** Some queue of the user, on some instance, accepted a copy of the message. */
  ghost predicate AcceptedBy(s: Sys, m: MsgId, user: UserId) {
    exists i :: 0 <= i < |s.nodes| && LogHas(s.nodes[i].hub.log, m, user)
  }

  ghost predicate Acked(s: Sys, m: MsgId) {
    exists u :: (m, u) in s.hist.acks
  }

  /** Delivered means accepted by a queue of the addressee. Read means acknowledged. */
  ghost predicate RowSettled(s: Sys, m: nat)
    requires m < |s.db.rows| && |s.hist.dms| == |s.db.rows|
  {
    && (s.db.rows[m].status == Delivered && s.hist.dms[m].to != s.db.rows[m].sender ==>
          AcceptedBy(s, m, s.hist.dms[m].to))
    && (s.db.rows[m].status == Read ==> Acked(s, m))
  }

  ghost predicate Settled(s: Sys) {
    |s.hist.dms| == |s.db.rows| && forall m: nat | m < |s.db.rows| :: RowSettled(s, m)
  }

  lemma AcceptedStays(s: Sys, s': Sys, m: MsgId, user: UserId)
    requires LogsGrow(s, s') && AcceptedBy(s, m, user)
    ensures AcceptedBy(s', m, user)
  {
    var i :| 0 <= i < |s.nodes| && LogHas(s.nodes[i].hub.log, m, user);
    var k :| 0 <= k < |s.nodes[i].hub.log| && s.nodes[i].hub.log[k].user == user
             && s.nodes[i].hub.log[k].packet.Message? && s.nodes[i].hub.log[k].packet.mid == m;
    assert s'.nodes[i].hub.log[k] == s.nodes[i].hub.log[k];
    assert LogHas(s'.nodes[i].hub.log, m, user);
  }

  /** A pending row of a user was addressed to that user, unless its sender wrote to himself. */
  lemma PendingIsAddressed(db: Db, hist: History, user: UserId, m: MsgId)
    requires TablesOk(db, hist) && IsPending(db, user, m)
    ensures hist.dms[m].to != db.rows[m].sender ==> hist.dms[m].to == user
  {
    var r := db.rows[m];
    if hist.dms[m].to != r.sender {
      OtherMember(db, r.chat, r.sender, hist.dms[m].to);
      OtherMember(db, r.chat, r.sender, user);
    }
  }

  lemma DmLogHas(w: World, w': World, chat: ChatId, from: UserId, to: UserId, clientId: nat,
                 body: string, now: int, pubOk: bool)
    requires DmAdds(w, w', chat, from, to, clientId, body, now, pubOk)
    ensures |w'.db.rows| == |w.db.rows| + 1 && |w'.hist.dms| == |w.hist.dms| + 1
    ensures w'.db.rows[|w.db.rows|].status != Read && w'.hist.dms[|w.hist.dms|].to == to
    ensures w'.db.rows[|w.db.rows|].status == Delivered ==> LogHas(w'.node.hub.log, |w.db.rows|, to)
  {
    var m := |w.db.rows|;
    if w'.db.rows[m].status == Delivered {
      hide Send, WireCopies;
      var log' := w'.node.hub.log;
      var copy := LocalCopy(w, to, Message(m, from, body, now), Local);
      assert w.node.hub.log + copy <= log';
      assert log'[|w.node.hub.log|] == copy[0];
    }
  }

  /** A local delivery settles the new row. */
  lemma DmSettlesNewRow(s: Sys, e: Event)
    requires SysOk(s) && Enabled(s, e) && e.DmEv?
    ensures var s' := Apply(s, e);
            |s'.hist.dms| == |s'.db.rows| && forall m: nat | |s.db.rows| <= m < |s'.db.rows| :: RowSettled(s', m)
  {
    hide SysOk, Apply, DmAdds, LogHas;
    DmShape(s, e);
    var s' := Apply(s, e);
    var w, w' := At(s, e.inst), At(s', e.inst);
    match FindOrCreateChat(s.db, e.from, e.to, e.pick)
    case DuplicateMember =>
    case Found(db, chat) =>
      DmLogHas(w, w', chat, e.from, e.to, e.clientId, e.body, e.now, e.pubOk);
      forall m: nat | |s.db.rows| <= m < |s'.db.rows| ensures RowSettled(s', m) {
        assert m == |w.db.rows|;
        assert s'.db.rows[m].status == Delivered ==> LogHas(s'.nodes[e.inst].hub.log, m, e.to);
      }
  }

  lemma BatchPends(db: Db, user: UserId, batch: seq<MsgId>, m: MsgId)
    requires IsPendingBatch(db, user, batch)
    ensures Distinct(batch) && (m in batch ==> IsPending(db, user, m))
  {}

  lemma SysTables(s: Sys)
    requires SysOk(s)
    ensures TablesOk(s.db, s.hist)
  {
    hide TablesOk;
  }

  /** A replayed row was accepted by the queue of the user it was addressed to. */
  lemma ReplaySettlesRow(s: Sys, e: Event, m: nat)
    requires SysOk(s) && Enabled(s, e) && e.ConnectEv? && m in e.batch
    requires m < |s.db.rows| && s.hist.dms[m].to != s.db.rows[m].sender
    ensures AcceptedBy(Apply(s, e), m, s.hist.dms[m].to)
  {
    hide SysOk, Apply, ConnectAdds, LogHas, IsPendingBatch, IsPending, TablesOk;
    BatchPends(s.db, e.user, e.batch, m);
    SysTables(s);
    PendingIsAddressed(s.db, s.hist, e.user, m);
    ConnectShape(s, e);
    var s' := Apply(s, e);
    ConnectLogHas(At(s, e.inst), At(s', e.inst), e.inst, e.user, e.batch, m);
    assert LogHas(s'.nodes[e.inst].hub.log, m, e.user);
  }

  lemma ConnectLogHas(w: World, w': World, inst: nat, user: UserId, batch: seq<MsgId>, m: MsgId)
    requires ValidIds(w.db, batch) && m in batch && ConnectAdds(w, w', inst, user, batch)
    ensures LogHas(w'.node.hub.log, m, user)
  {
    var log, log' := w.node.hub.log, w'.node.hub.log;
    var j :| 0 <= j < |batch| && batch[j] == m;
    assert log'[|log| + j] == ReplayLog(w.db, |w.node.hub.chans|, user, batch)[j];
  }

  lemma SysRecords(s: Sys)
    requires SysOk(s)
    ensures |s.hist.dms| == |s.db.rows|
  {}

  lemma AckedStays(s: Sys, s': Sys, m: MsgId)
    requires s.hist.acks <= s'.hist.acks && Acked(s, m)
    ensures Acked(s', m)
  {}

  lemma AckAcks(s: Sys, m: MsgId, u: UserId)
    requires (m, u) in s.hist.acks
    ensures Acked(s, m)
  {}

  lemma StepSettles(s: Sys, e: Event)
    requires SysOk(s) && Settled(s)
    ensures Settled(Step(s, e))
  {
    hide SysOk, Apply, LogsGrow, AcceptedBy, Acked, Enabled;
    var s' := Step(s, e);
    StepTables(s, e);
    StepLogsGrow(s, e);
    StepKeepsSys(s, e);
    SysRecords(s');
    forall m: nat | m < |s'.db.rows| ensures RowSettled(s', m) {
      if m < |s.db.rows| {
        assert RowSettled(s, m) && RowStep(s, s', e, m);
        assert s'.hist.dms[m] == s.hist.dms[m];
        if AcceptedBy(s, m, s.hist.dms[m].to) { AcceptedStays(s, s', m, s.hist.dms[m].to); }
        if Acked(s, m) { AckedStays(s, s', m); }
        if e.AckEv? && (m, e.reader) in s'.hist.acks { AckAcks(s', m, e.reader); }
        if s'.db.rows[m] != s.db.rows[m] && e.ConnectEv? && s.hist.dms[m].to != s.db.rows[m].sender {
          ReplaySettlesRow(s, e, m);
        }
      } else {
        DmSettlesNewRow(s, e);
      }
    }
  }

  lemma {:induction false} RunSettles(s: Sys, es: seq<Event>)
    requires SysOk(s) && Settled(s)
    ensures Settled(Run(s, es))
    decreases |es|
  {
    hide SysOk, Settled, Step;
    if es != [] {
      StepSettles(s, es[0]);
      StepKeepsSys(s, es[0]);
      RunSettles(Step(s, es[0]), es[1..]);
    }
  }

  /**
   No loss: on every run over any number of instances, a stored message between two users is still
   among its receiver's pending rows, or a queue of its receiver accepted it, or it was acknowledged.
   */
  lemma NoMessageIsLost(n: nat, es: seq<Event>, m: nat)
    requires m < |Run(Init(n), es).db.rows|
    ensures var s := Run(Init(n), es);
            && |s.hist.dms| == |s.db.rows|
            && (s.hist.dms[m].to != s.db.rows[m].sender ==>
                  || m in Pending(s.db, s.hist.dms[m].to)
                  || AcceptedBy(s, m, s.hist.dms[m].to)
                  || Acked(s, m))
  {
    InitOk(n);
    assert Settled(Init(n));
    RunKeepsSys(Init(n), es);
    RunSettles(Init(n), es);
    var s := Run(Init(n), es);
    hide HubOk, DbOk, AcceptedBy, Run;
    assert RowSettled(s, m);
  }
}
