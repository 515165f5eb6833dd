/**
 From the sender's queue to the sender's screen: runs of the whole server joined with runs of one sender's
 browser, whose socket takes what his connection was written, packet by packet.
 */
module EndToEnd {
  import opened ChatTypes
  import opened Store
  import opened StoreRuns
  import opened EntryPhases
  import opened Protocol
  import opened ProtocolSteps
  import HubSpec
  import NoLoss
  import Receipts
  import Addressing

  /** `pos` packets of the connection have been taken from its socket. */
  datatype Joint = Joint(sys: Sys, client: Session, pos: nat)

  datatype JointEvent =
    | Serves(e: Event)
    | Takes
    | Does(ce: ClientEvent)

  /** The socket: connection c of instance i. */
  datatype Socket = Socket(i: nat, c: ClientId)

  predicate CanTake(j: Joint, k: Socket) {
    && k.i < |j.sys.nodes|
    && k.c < |j.sys.nodes[k.i].hub.chans|
    && j.pos < |j.sys.nodes[k.i].hub.chans[k.c].written|
  }

  /** Packets reach the browser from its socket only. */
  ghost function JointStep(j: Joint, me: UserId, k: Socket, e: JointEvent): Joint {
    match e
    case Serves(ev) => j.(sys := Step(j.sys, ev))
    case Takes =>
      if CanTake(j, k) then
        var p := j.sys.nodes[k.i].hub.chans[k.c].written[j.pos];
        j.(client := ClientStep(j.client, me, Arrives(p)), pos := j.pos + 1)
      else j
    case Does(ce) => if ce.Arrives? then j else j.(client := ClientStep(j.client, me, ce))
  }

  ghost function JointRun(j: Joint, me: UserId, k: Socket, es: seq<JointEvent>): Joint
    decreases |es|
  {
    if es == [] then j else JointRun(JointStep(j, me, k, es[0]), me, k, es[1..])
  }

  /** What the browser goes through in a joint run. */
  ghost function ClientEvents(j: Joint, me: UserId, k: Socket, es: seq<JointEvent>): seq<ClientEvent>
    decreases |es|
  {
    if es == [] then []
    else EventNow(j, k, es[0]) + ClientEvents(JointStep(j, me, k, es[0]), me, k, es[1..])
  }

  ghost function EventNow(j: Joint, k: Socket, e: JointEvent): seq<ClientEvent> {
    match e
    case Serves(_) => []
    case Takes => if CanTake(j, k) then [Arrives(j.sys.nodes[k.i].hub.chans[k.c].written[j.pos])] else []
    case Does(ce) => if ce.Arrives? then [] else [ce]
  }

  lemma {:induction false} RunSees(j: Joint, me: UserId, k: Socket, es: seq<JointEvent>)
    ensures JointRun(j, me, k, es).client == ClientRun(j.client, me, ClientEvents(j, me, k, es))
    decreases |es|
  {
    hide ClientStep, Step;
    if es != [] {
      var now, rest := EventNow(j, k, es[0]), ClientEvents(JointStep(j, me, k, es[0]), me, k, es[1..]);
      RunSees(JointStep(j, me, k, es[0]), me, k, es[1..]);
      if now == [] { assert now + rest == rest; } else { assert (now + rest)[1..] == rest; }
    }
  }

  // ---- what joint runs keep

  /** The browser names stored rows only. */
  ghost predicate KnowsOnly(s: Conversations, rows: nat) {
    forall i, k, m | Named(s, i, k, Row(m)) :: m < rows
  }

  /** The packets for the connection, whether still queued or already written. */
  function SentOn(s: Sys, k: Socket): seq<Packet>
    requires k.i < |s.nodes|
  {
    HubSpec.Project(s.nodes[k.i].hub.log, k.c)
  }

  ghost predicate JointOk(j: Joint, k: Socket) {
    && SysOk(j.sys) && Receipts.ReceiptsOk(j.sys) && Addressing.Addressed(j.sys)
    && StoreOk(j.client.store) && KnowsOnly(j.client.store, |j.sys.db.rows|)
    && k.i < |j.sys.nodes| && j.pos <= |SentOn(j.sys, k)|
  }

  lemma {:induction false} ProjectGrows(log: seq<HubSpec.Accept>, more: seq<HubSpec.Accept>, c: ClientId)
    requires log <= more
    ensures HubSpec.Project(log, c) <= HubSpec.Project(more, c)
    decreases |more|
  {
    if |log| < |more| {
      ProjectGrows(log, more[..|more| - 1], c);
    } else {
      assert log == more;
    }
  }

  lemma StepSends(s: Sys, e: Event, k: Socket)
    requires SysOk(s) && k.i < |s.nodes|
    ensures k.i < |Step(s, e).nodes| && SentOn(s, k) <= SentOn(Step(s, e), k)
  {
    NoLoss.StepLogsGrow(s, e);
    hide SysOk, Step, HubSpec.Project;
    ProjectGrows(s.nodes[k.i].hub.log, Step(s, e).nodes[k.i].hub.log, k.c);
  }

  /** The packet taken next is the next one sent, and it names no row that is not stored. */
  lemma TakenIsSent(j: Joint, k: Socket)
    requires JointOk(j, k) && CanTake(j, k)
    ensures var p := j.sys.nodes[k.i].hub.chans[k.c].written[j.pos];
            j.pos < |SentOn(j.sys, k)| && SentOn(j.sys, k)[j.pos] == p && MidOf(p) < |j.sys.db.rows|
  {
    hide StoreOk, KnowsOnly, Receipts.ReceiptsOk, Addressing.Addressed, HubSpec.Project, HubSpec.HubOk;
    HubOf(j.sys, k.i);
    Receipts.FreshOf(j.sys, k.i);
    var h := j.sys.nodes[k.i].hub;
    HubSpec.WrittenIsPrefix(h, k.c);
    Receipts.ProjectFrom(h.log, k.c, j.pos);
    hide SysOk;
    var l :| 0 <= l < |h.log| && h.log[l].client == k.c && h.log[l].packet == HubSpec.Project(h.log, k.c)[j.pos];
  }

  lemma KnowsStays(s: Conversations, s': Conversations, was: EntryId, becomes: EntryId, added: Option<EntryId>,
                   rows: nat)
    requires StoreMoves(s, s', was, becomes, added) && KnowsOnly(s, rows)
    requires (becomes.Row? ==> becomes.m < rows) && (added.Some? && added.value.Row? ==> added.value.m < rows)
    ensures KnowsOnly(s', rows)
  {
    forall i, k, m | Named(s', i, k, Row(m)) ensures m < rows {
      assert IdsMove(if i < |s| then s[i].msgs else [], s'[i].msgs, was, becomes, added);
      if i < |s| && k < |s[i].msgs| && s'[i].msgs[k].id == s[i].msgs[k].id {
        assert Named(s, i, k, Row(m));
      }
    }
  }

  lemma ClientKnows(c: Session, me: UserId, e: ClientEvent, rows: nat)
    requires StoreOk(c.store) && KnowsOnly(c.store, rows) && (e.Arrives? ==> MidOf(e.p) < rows)
    ensures StoreOk(ClientStep(c, me, e).store) && KnowsOnly(ClientStep(c, me, e).store, rows)
  {
    StepMoves(c, me, e);
    StepKeepsStore(c, me, e);
    hide StoreOk, StoreMoves, KnowsOnly, ClientStep;
    KnowsStays(c.store, ClientStep(c, me, e).store, EntryPhases.Old(e), New(e), Added(e), rows);
  }

  lemma MoreRows(s: Conversations, rows: nat, rows': nat)
    requires KnowsOnly(s, rows) && rows <= rows'
    ensures KnowsOnly(s, rows')
  {}

  lemma StepJoint(j: Joint, me: UserId, k: Socket, e: JointEvent)
    requires JointOk(j, k)
    ensures JointOk(JointStep(j, me, k, e), k)
    ensures SentOn(j.sys, k) <= SentOn(JointStep(j, me, k, e).sys, k)
    ensures |j.sys.db.rows| <= |JointStep(j, me, k, e).sys.db.rows|
  {
    hide SysOk, Receipts.ReceiptsOk, Addressing.Addressed, StoreOk, KnowsOnly, HubSpec.Project, ClientStep, Step;
    match e
    case Serves(ev) => ServeJoint(j, k, ev);
    case Takes =>
      if CanTake(j, k) {
        TakenIsSent(j, k);
        ClientKnows(j.client, me, Arrives(j.sys.nodes[k.i].hub.chans[k.c].written[j.pos]), |j.sys.db.rows|);
      }
    case Does(ce) =>
      if !ce.Arrives? { ClientKnows(j.client, me, ce, |j.sys.db.rows|); }
  }

  lemma ServeJoint(j: Joint, k: Socket, e: Event)
    requires JointOk(j, k)
    ensures JointOk(j.(sys := Step(j.sys, e)), k)
    ensures SentOn(j.sys, k) <= SentOn(Step(j.sys, e), k) && |j.sys.db.rows| <= |Step(j.sys, e).db.rows|
  {
    hide SysOk, Receipts.ReceiptsOk, Addressing.Addressed, StoreOk, KnowsOnly, HubSpec.Project, Step;
    NoLoss.StepKeepsSys(j.sys, e);
    Receipts.StepKeepsReceipts(j.sys, e);
    Addressing.StepKeepsAddressed(j.sys, e);
    StepSends(j.sys, e, k);
    NoLoss.StepAdvancesRows(j.sys, e);
    MoreRows(j.client.store, |j.sys.db.rows|, |Step(j.sys, e).db.rows|);
  }

  /** A joint run keeps all of it, and what arrives on it is the next stretch of what was sent. */
  lemma {:induction false} RunJoint(j: Joint, me: UserId, k: Socket, es: seq<JointEvent>)
    requires JointOk(j, k)
    ensures var f := JointRun(j, me, k, es);
            && JointOk(f, k) && j.pos <= f.pos && SentOn(j.sys, k) <= SentOn(f.sys, k)
            && |j.sys.db.rows| <= |f.sys.db.rows|
            && Arrivals(ClientEvents(j, me, k, es)) == SentOn(f.sys, k)[j.pos..f.pos]
    decreases |es|
  {
    hide JointOk, Step, ClientStep, HubSpec.Project;
    assert k.i < |j.sys.nodes| && j.pos <= |SentOn(j.sys, k)| by { JointPos(j, k); }
    if es != [] {
      var j1 := JointStep(j, me, k, es[0]);
      StepJoint(j, me, k, es[0]);
      RunJoint(j1, me, k, es[1..]);
      var f := JointRun(j, me, k, es);
      JointPos(f, k);
      NowArrives(j, me, k, es[0], SentOn(f.sys, k));
      hide SentOn, JointStep, EventNow;
      ArrivalsAdd(EventNow(j, k, es[0]), ClientEvents(j1, me, k, es[1..]));
      assert SentOn(f.sys, k)[j.pos..j1.pos] + SentOn(f.sys, k)[j1.pos..f.pos] == SentOn(f.sys, k)[j.pos..f.pos];
    }
  }

  lemma JointPos(j: Joint, k: Socket)
    requires JointOk(j, k)
    ensures k.i < |j.sys.nodes| && j.pos <= |SentOn(j.sys, k)|
  {}

  lemma NowArrives(j: Joint, me: UserId, k: Socket, e: JointEvent, all: seq<Packet>)
    requires JointOk(j, k) && SentOn(j.sys, k) <= all
    ensures var j1 := JointStep(j, me, k, e);
            j.pos <= j1.pos <= |all| && Arrivals(EventNow(j, k, e)) == all[j.pos..j1.pos]
  {
    hide ClientStep, Step, HubSpec.Project;
    if e == Takes && CanTake(j, k) { TakenIsSent(j, k); }
  }

  lemma {:induction false} ArrivalsAdd(a: seq<ClientEvent>, b: seq<ClientEvent>)
    ensures Arrivals(a + b) == Arrivals(a) + Arrivals(b)
    decreases |a|
  {
    if a == [] {
      assert a + b == b;
    } else {
      ArrivalsAdd(a[1..], b);
      assert (a + b)[1..] == a[1..] + b;
    }
  }

  // ---- what was sent to the connection of a sender

  lemma SentFrom(s: Sys, k: Socket, x: nat) returns (l: nat)
    requires SysOk(s) && k.i < |s.nodes| && x < |SentOn(s, k)|
    ensures var h := s.nodes[k.i].hub;
            l < |h.log| && h.log[l].packet == SentOn(s, k)[x]
            && k.c < |h.chans| && h.log[l].user == h.chans[k.c].user
  {
    hide HubSpec.Project, WorldOk;
    var h := s.nodes[k.i].hub;
    HubOf(s, k.i);
    hide SysOk;
    Receipts.ProjectFrom(h.log, k.c, x);
    var y :| 0 <= y < |h.log| && h.log[y].client == k.c && h.log[y].packet == HubSpec.Project(h.log, k.c)[x];
    l := y;
  }

  /** No sender is ever sent a copy of his own message to another user. */
  lemma NoOwnCopy(s: Sys, k: Socket, x: nat, m: MsgId, at: nat)
    requires SysOk(s) && Receipts.ReceiptsOk(s) && Addressing.Addressed(s) && k.i < |s.nodes|
    requires SentAck(m, x) in SentOn(s, k) && at < |SentOn(s, k)|
    ensures 0 <= m < |s.db.rows| == |s.hist.dms|
    ensures s.hist.dms[m].to != s.db.rows[m].sender && SentOn(s, k)[at].Message? ==> SentOn(s, k)[at].mid != m
  {
    hide SysOk, HubSpec.Project;
    var a :| 0 <= a < |SentOn(s, k)| && SentOn(s, k)[a] == SentAck(m, x);
    var la := SentFrom(s, k, a);
    var lj := SentFrom(s, k, at);
    hide SentOn;
    var log := s.nodes[k.i].hub.log;
    assert Receipts.OrderedLog(log, s.db.rows) by { Receipts.ReceiptsOf(s, k.i); }
    assert log[la].packet.SentAck?;
    assert Addressing.LogFits(Addressing.ToOf(s), log);
    assert Addressing.Fits(Addressing.ToOf(s), log[lj].packet, log[lj].user);
  }

  lemma SentIsCausal(s: Sys, k: Socket)
    requires SysOk(s) && Receipts.ReceiptsOk(s) && k.i < |s.nodes|
    ensures Receipts.CausalOrder(SentOn(s, k))
  {
    Receipts.ReceiptsOf(s, k.i);
    Receipts.ProjectIsCausal(s.nodes[k.i].hub.log, s.db.rows, k.c);
  }

  /** Any stretch of what was sent fits the entry of an acknowledged message, and a notice follows. */
  lemma StretchFits(s: Sys, k: Socket, from: nat, to: nat, x: nat, m: MsgId)
    requires SysOk(s) && Receipts.ReceiptsOk(s) && Addressing.Addressed(s) && k.i < |s.nodes|
    requires from <= to <= |SentOn(s, k)|
    requires var ps := SentOn(s, k)[from..to];
             SentAck(m, x) in ps && forall p | p in ps && p.SentAck? && p.clientId == x :: p.mid == m
    ensures 0 <= m < |s.db.rows| == |s.hist.dms|
    ensures var ps := SentOn(s, k)[from..to];
            s.hist.dms[m].to != s.db.rows[m].sender ==>
              AllFit(ps, x, m) && AckedOnce(ps, x, m) && (ReadNotice(m) in ps ==> ReadFollowsAck(ps, x, m))
  {
    hide SysOk, Receipts.ReceiptsOk, Addressing.Addressed;
    var all, ps := SentOn(s, k), SentOn(s, k)[from..to];
    assert SentAck(m, x) in all;
    SentIsCausal(s, k);
    forall at | 0 <= at < |all|
      ensures 0 <= m < |s.db.rows| == |s.hist.dms|
      ensures s.hist.dms[m].to != s.db.rows[m].sender && all[at].Message? ==> all[at].mid != m
    {
      NoOwnCopy(s, k, x, m, at);
    }
    hide SentOn;
    StretchIsCausal(all, from, to);
    if s.hist.dms[m].to != s.db.rows[m].sender { CausalFits(ps, x, m); }
  }

  lemma StretchIsCausal(all: seq<Packet>, from: nat, to: nat)
    requires Receipts.CausalOrder(all) && from <= to <= |all|
    ensures Receipts.CausalOrder(all[from..to])
  {
    assert forall j | 0 <= j < to - from :: all[from..to][j] == all[from + j];
  }

  lemma CausalFits(ps: seq<Packet>, x: nat, m: MsgId)
    requires Receipts.CausalOrder(ps) && SentAck(m, x) in ps
    requires forall p | p in ps && p.SentAck? && p.clientId == x :: p.mid == m
    requires forall p | p in ps && p.Message? :: p.mid != m
    ensures AllFit(ps, x, m) && AckedOnce(ps, x, m) && (ReadNotice(m) in ps ==> ReadFollowsAck(ps, x, m))
  {
    var a :| 0 <= a < |ps| && ps[a] == SentAck(m, x);
    if ReadNotice(m) in ps {
      var b :| 0 <= b < |ps| && ps[b] == ReadNotice(m);
      assert a < b;
    }
    forall j | 0 <= j < |ps| && ps[j].SentAck? && ps[j].mid == m ensures j == a {}
  }

  // ---- a message composed on the connection

  lemma KnowsNoneBeyond(s: Conversations, rows: nat, m: MsgId)
    requires KnowsOnly(s, rows) && rows <= m
    ensures Nowhere(s, Row(m))
  {}

  /** The joint states a deployment can reach before the run that is looked at. */
  lemma StartsOk(n: nat, es: seq<Event>, client: Session, k: Socket, pos: nat)
    requires var s := Run(Init(n), es);
             && StoreOk(client.store) && KnowsOnly(client.store, |s.db.rows|)
             && k.i < |s.nodes| && pos <= |SentOn(s, k)|
    ensures JointOk(Joint(Run(Init(n), es), client, pos), k)
  {
    NoLoss.InitOk(n);
    Receipts.InitReceipts(n);
    assert Addressing.Addressed(Init(n));
    NoLoss.RunKeepsSys(Init(n), es);
    Receipts.RunKeepsReceipts(Init(n), es);
    Addressing.RunKeepsAddressed(Init(n), es);
    hide Run, Init, SysOk, Receipts.ReceiptsOk, Addressing.Addressed, SentOn, StoreOk, KnowsOnly;
  }

  /** From the moment the message is composed. */
  lemma SeenFromSend(j: Joint, me: UserId, k: Socket, partner: UserId, x: nat, body: string, now: int,
                     es: seq<JointEvent>, m: MsgId)
    requires JointOk(j, k) && Fresh(j.client.store, x) && |j.sys.db.rows| <= m
    requires var j1 := JointStep(j, me, k, Does(Sends(partner, x, body, now)));
             var f := JointRun(j1, me, k, es);
             var ps := Arrivals(ClientEvents(j1, me, k, es));
             && SentAck(m, x) in ps && ReadNotice(m) in ps
             && (forall p | p in ps && p.SentAck? && p.clientId == x :: p.mid == m)
             && (m < |f.sys.db.rows| == |f.sys.hist.dms| ==> f.sys.hist.dms[m].to != f.sys.db.rows[m].sender)
    ensures var f := JointRun(JointStep(j, me, k, Does(Sends(partner, x, body, now))), me, k, es);
            var at := Place(j.client.store, partner);
            var entry := |Get(j.client.store, partner)|;
            && at < |f.client.store| && entry < |f.client.store[at].msgs|
            && f.client.store[at].msgs[entry].id == Row(m) && f.client.store[at].msgs[entry].status == Read
  {
    var j1 := JointStep(j, me, k, Does(Sends(partner, x, body, now)));
    var f := JointRun(j1, me, k, es);
    StepJoint(j, me, k, Does(Sends(partner, x, body, now)));
    Composed(j.client, me, partner, x, body, now);
    KnowsNoneBeyond(j1.client.store, |j1.sys.db.rows|, m);
    hide JointStep, JointRun, ClientEvents, StoreOk, Arrivals, Fresh, SysOk, Receipts.ReceiptsOk,
      Addressing.Addressed, OnlyAt, Nowhere, KnowsOnly, AllFit, AckedOnce, ReadFollowsAck, ClientRun, ClientStep,
      Place, Get, SentOn;
    RunJoint(j1, me, k, es);
    RunSees(j1, me, k, es);
    StretchFits(f.sys, k, j1.pos, f.pos, x, m);
    EntryEndsReadIff(j1.client, me, ClientEvents(j1, me, k, es), Place(j.client.store, partner),
                     |Get(j.client.store, partner)|, x, m);
  }

  /**
   End to end: from any reachable state of the server and any session of the sender's browser, let server
   events, packets taken from the socket and what the user does interleave in any way. A message composed
   at any point of such a run, whose `sent` acknowledgement and `read` notice both arrive, ends with the
   server's id and status `read`, at the very place where it was put.
   */
  lemma SentThenReadIsSeen(n: nat, es: seq<Event>, client: Session, k: Socket, pos: nat, me: UserId,
                           before: seq<JointEvent>, partner: UserId, x: nat, body: string, now: int,
                           after: seq<JointEvent>, m: MsgId)
    requires var s := Run(Init(n), es);
             && StoreOk(client.store) && KnowsOnly(client.store, |s.db.rows|)
             && k.i < |s.nodes| && pos <= |SentOn(s, k)|
    requires var j := JointRun(Joint(Run(Init(n), es), client, pos), me, k, before);
             var j1 := JointStep(j, me, k, Does(Sends(partner, x, body, now)));
             var f := JointRun(j1, me, k, after);
             var ps := Arrivals(ClientEvents(j1, me, k, after));
             && Fresh(j.client.store, x)
             && |j.sys.db.rows| <= m  // the row is stored after the message is composed
             && SentAck(m, x) in ps && ReadNotice(m) in ps
             && (forall p | p in ps && p.SentAck? && p.clientId == x :: p.mid == m)
             && (m < |f.sys.db.rows| == |f.sys.hist.dms| ==> f.sys.hist.dms[m].to != f.sys.db.rows[m].sender)
    ensures var j := JointRun(Joint(Run(Init(n), es), client, pos), me, k, before);
            var store := JointRun(JointStep(j, me, k, Does(Sends(partner, x, body, now))), me, k, after).client.store;
            var at := Place(j.client.store, partner);
            var entry := |Get(j.client.store, partner)|;
            && at < |store| && entry < |store[at].msgs|
            && store[at].msgs[entry].id == Row(m) && store[at].msgs[entry].status == Read
  {
    StartsOk(n, es, client, k, pos);
    hide Run, Init, JointOk, JointRun, JointStep, ClientEvents, Arrivals, Fresh, StoreOk, KnowsOnly, SentOn, Place, Get;
    var j0 := Joint(Run(Init(n), es), client, pos);
    RunJoint(j0, me, k, before);
    SeenFromSend(JointRun(j0, me, k, before), me, k, partner, x, body, now, after, m);
  }
}
