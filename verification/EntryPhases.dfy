/** One optimistic entry through its receipts: what the packets that arrive make of it, exactly. */
module EntryPhases {
  import opened ChatTypes
  import opened Store
  import opened StoreRuns

  /** The packets that reach the client during a run, in order. */
  function Arrivals(es: seq<ClientEvent>): seq<Packet>
    decreases |es|
  {
    if es == [] then []
    else (if es[0].Arrives? then [es[0].p] else []) + Arrivals(es[1..])
  }

  // ---- ids over one step

  predicate Named(s: Conversations, i: int, k: int, id: EntryId) {
    0 <= i < |s| && 0 <= k < |s[i].msgs| && s[i].msgs[k].id == id
  }

  /** The id stands at one place and nowhere else. */
  ghost predicate OnlyAt(s: Conversations, i: nat, k: nat, id: EntryId) {
    Named(s, i, k, id) && forall j, l | Named(s, j, l, id) :: j == i && l == k
  }

  ghost predicate Nowhere(s: Conversations, id: EntryId) {
    forall j, l :: !Named(s, j, l, id)
  }

  /** Entries keep their ids, but `was` may turn into `becomes`. Entries that appear are called `added`. */
  predicate IdsMove(a: seq<Entry>, b: seq<Entry>, was: EntryId, becomes: EntryId, added: Option<EntryId>) {
    && |a| <= |b|
    && (forall k | 0 <= k < |a| :: b[k].id == a[k].id || (a[k].id == was && b[k].id == becomes))
    && (forall k | |a| <= k < |b| :: Some(b[k].id) == added)
  }

  predicate StoreMoves(s: Conversations, s': Conversations, was: EntryId, becomes: EntryId, added: Option<EntryId>) {
    && |s| <= |s'|
    && forall i | 0 <= i < |s'| :: IdsMove(if i < |s| then s[i].msgs else [], s'[i].msgs, was, becomes, added)
  }

  lemma PutMoves(s: Conversations, partner: UserId, msgs: seq<Entry>, was: EntryId, becomes: EntryId,
                 added: Option<EntryId>)
    requires PartnersDistinct(s) && IdsMove(Get(s, partner), msgs, was, becomes, added)
    ensures StoreMoves(s, Put(s, partner, msgs), was, becomes, added)
  {
    hide IdsMove, Get, Put;
    PutKeepsPartners(s, partner, msgs);
    GetIs(s, partner);
    GetIs(Put(s, partner, msgs), partner);
    forall i | 0 <= i < |Put(s, partner, msgs)|
      ensures IdsMove(if i < |s| then s[i].msgs else [], Put(s, partner, msgs)[i].msgs, was, becomes, added)
    {
      if i < |s| && s[i].partner != partner { IdsStay(s[i].msgs, was, becomes, added); }
    }
  }

  lemma IdsStay(msgs: seq<Entry>, was: EntryId, becomes: EntryId, added: Option<EntryId>)
    ensures IdsMove(msgs, msgs, was, becomes, added)
  {}

  lemma StoreStays(s: Conversations, was: EntryId, becomes: EntryId, added: Option<EntryId>)
    ensures StoreMoves(s, s, was, becomes, added)
  {
    forall i | 0 <= i < |s| ensures IdsMove(s[i].msgs, s[i].msgs, was, becomes, added) {
      IdsStay(s[i].msgs, was, becomes, added);
    }
  }

  /** Ids that a step neither renames nor adds stand where they stood. */
  lemma OnlyAtStays(s: Conversations, s': Conversations, i: nat, k: nat, id: EntryId,
                    was: EntryId, becomes: EntryId, added: Option<EntryId>)
    requires StoreMoves(s, s', was, becomes, added) && id != was && id != becomes && added != Some(id)
    ensures forall j, l :: Named(s', j, l, id) <==> Named(s, j, l, id)
    ensures OnlyAt(s, i, k, id) ==> OnlyAt(s', i, k, id)
    ensures Nowhere(s, id) ==> Nowhere(s', id)
  {
    forall j, l ensures Named(s', j, l, id) <==> Named(s, j, l, id) {
      if 0 <= j < |s'| {
        assert IdsMove(if j < |s| then s[j].msgs else [], s'[j].msgs, was, becomes, added);
      }
    }
  }

  /** What an event renames and adds. */
  function Old(e: ClientEvent): EntryId {
    if e.Arrives? && e.p.SentAck? then Local(e.p.clientId) else Row(-1)
  }

  function New(e: ClientEvent): EntryId {
    if e.Arrives? && e.p.SentAck? then Row(e.p.mid) else Row(-1)
  }

  function Added(e: ClientEvent): Option<EntryId> {
    match e
    case Arrives(p) => if p.Message? then Some(Row(p.mid)) else None
    case Sends(_, n, _, _) => Some(Local(n))
    case _ => None
  }

  lemma UpdateMoves(s: Conversations, partner: UserId, id: EntryId, was: EntryId, becomes: EntryId,
                    added: Option<EntryId>)
    requires PartnersDistinct(s)
    ensures StoreMoves(s, UpdateDMMessageStatus(s, partner, id, Read), was, becomes, added)
  {
    hide Get, Put, StoreMoves;
    var msgs := Get(s, partner);
    PutMoves(s, partner, seq(|msgs|, k requires 0 <= k < |msgs| => Updated(msgs[k], id, Read)), was, becomes, added);
  }

  lemma AddMoves(s: Conversations, partner: UserId, e: Entry, was: EntryId, becomes: EntryId)
    requires PartnersDistinct(s)
    ensures StoreMoves(s, AddDMMessage(s, partner, e), was, becomes, Some(e.id))
  {
    hide Get, Put, StoreMoves;
    PutMoves(s, partner, Get(s, partner) + [e], was, becomes, Some(e.id));
  }

  lemma MovesTwice(a: Conversations, b: Conversations, c: Conversations)
    requires StoreMoves(a, b, Row(-1), Row(-1), None) && StoreMoves(b, c, Row(-1), Row(-1), None)
    ensures StoreMoves(a, c, Row(-1), Row(-1), None)
  {
    forall i | 0 <= i < |c|
      ensures IdsMove(if i < |a| then a[i].msgs else [], c[i].msgs, Row(-1), Row(-1), None)
    {
      var x, y, z := if i < |a| then a[i].msgs else [], if i < |b| then b[i].msgs else [], c[i].msgs;
      assert IdsMove(y, z, Row(-1), Row(-1), None);
      assert i < |b| ==> IdsMove(x, y, Row(-1), Row(-1), None);
    }
  }

  lemma {:induction false} AckMoves(c: Session, partner: UserId, msgs: seq<Entry>)
    requires StoreOk(c.store) && MsgsOk(msgs)
    ensures StoreMoves(c.store, AckFrom(c, partner, msgs).store, Row(-1), Row(-1), None)
    decreases |msgs|
  {
    hide StoreMoves, UpdateDMMessageStatus, MsgsOk;
    StoreStays(c.store, Row(-1), Row(-1), None);
    if msgs != [] {
      var e := msgs[0];
      assert MsgsOk(msgs[1..]) && EntryOk(e) by { RestOk(msgs); }
      if Unread(e, c.acked) {
        var c1 := Acknowledged(c, partner, e.id);
        UpdateKeeps(c.store, partner, e.id);
        UpdateMoves(c.store, partner, e.id, Row(-1), Row(-1), None);
        AckMoves(c1, partner, msgs[1..]);
        MovesTwice(c.store, c1.store, AckFrom(c, partner, msgs).store);
      } else {
        AckMoves(c, partner, msgs[1..]);
      }
    }
  }

  lemma StepMoves(c: Session, me: UserId, e: ClientEvent)
    requires StoreOk(c.store)
    ensures StoreMoves(c.store, ClientStep(c, me, e).store, Old(e), New(e), Added(e))
  {
    hide StoreMoves, AddDMMessage, UpdateDMMessageStatus, Put, Get;
    StoreHasDistinct(c.store);
    var s := c.store;
    StoreStays(s, Old(e), New(e), Added(e));
    match e
    case Arrives(Message(m, from, body, ts)) =>
      AddMoves(s, from, Entry(Row(m), from, body, ts, Delivered, false), Old(e), New(e));
    case Arrives(SentAck(m, n)) =>
      var i := FirstWith(s, Local(n));
      if i < |s| {
        var msgs := Get(s, s[i].partner);
        PutMoves(s, s[i].partner, seq(|msgs|, k requires 0 <= k < |msgs| => Confirmed(msgs[k], Local(n), m)),
                 Old(e), New(e), None);
      }
    case Arrives(ReadNotice(m)) =>
      var i := FirstWith(s, Row(m));
      if i < |s| { UpdateMoves(s, s[i].partner, Row(m), Old(e), New(e), None); }
    case Arrives(Other(_)) =>
    case Sends(partner, n, body, now) =>
      AddMoves(s, partner, Entry(Local(n), me, body, now, Sent, true), Old(e), New(e));
    case Shows(partner) =>
      GetOk(s, partner);
      AckMoves(c, partner, Get(s, partner));
    case Remounts =>
  }

  // ---- one entry through its receipts

  datatype Phase = Waiting | Stored | Seen

  /** The entry at (i, k) of the message with client id n and row m, and no other entry of either id. */
  ghost predicate InPhase(s: Conversations, i: nat, k: nat, n: nat, m: MsgId, phase: Phase) {
    match phase
    case Waiting => OnlyAt(s, i, k, Local(n)) && Nowhere(s, Row(m))
    case Stored => OnlyAt(s, i, k, Row(m)) && s[i].msgs[k].status == Delivered && s[i].msgs[k].mine
    case Seen => OnlyAt(s, i, k, Row(m)) && s[i].msgs[k].status == Read
  }

  /** A `read` notice that comes before the acknowledgement finds no entry of the row. */
  function Next(p: Packet, n: nat, m: MsgId, phase: Phase): Phase {
    if p == SentAck(m, n) && phase == Waiting then Stored
    else if p == ReadNotice(m) && phase == Stored then Seen
    else phase
  }

  function PhaseAfter(ps: seq<Packet>, n: nat, m: MsgId, phase: Phase): Phase
    decreases |ps|
  {
    if ps == [] then phase else PhaseAfter(ps[1..], n, m, Next(ps[0], n, m, phase))
  }

  /** The notice arrives after the acknowledgement. */
  predicate ReadFollowsAck(ps: seq<Packet>, n: nat, m: MsgId) {
    exists a, b | 0 <= a < b < |ps| :: ps[a] == SentAck(m, n) && ps[b] == ReadNotice(m)
  }

  lemma {:induction false} PhaseIs(ps: seq<Packet>, n: nat, m: MsgId, phase: Phase)
    ensures PhaseAfter(ps, n, m, phase)
         == match phase
            case Waiting => if SentAck(m, n) !in ps then Waiting else if ReadFollowsAck(ps, n, m) then Seen else Stored
            case Stored => if ReadNotice(m) in ps then Seen else Stored
            case Seen => Seen
    decreases |ps|
  {
    if ps != [] {
      var rest := ps[1..];
      PhaseIs(rest, n, m, Next(ps[0], n, m, phase));
      assert ps == [ps[0]] + rest;
      if phase == Waiting {
        FollowsInRest(ps, n, m);
      }
    }
  }

  lemma FollowsInRest(ps: seq<Packet>, n: nat, m: MsgId)
    requires ps != []
    ensures ReadFollowsAck(ps, n, m)
       <==> ReadFollowsAck(ps[1..], n, m) || (ps[0] == SentAck(m, n) && ReadNotice(m) in ps[1..])
  {
    var rest := ps[1..];
    if ReadFollowsAck(rest, n, m) {
      var a, b :| 0 <= a < b < |rest| && rest[a] == SentAck(m, n) && rest[b] == ReadNotice(m);
      assert ps[a + 1] == SentAck(m, n) && ps[b + 1] == ReadNotice(m);
    }
    if ps[0] == SentAck(m, n) && ReadNotice(m) in rest {
      var b :| 0 <= b < |rest| && rest[b] == ReadNotice(m);
      assert ps[b + 1] == ReadNotice(m);
    }
    if ReadFollowsAck(ps, n, m) {
      var a, b :| 0 <= a < b < |ps| && ps[a] == SentAck(m, n) && ps[b] == ReadNotice(m);
      assert rest[b - 1] == ReadNotice(m);
      if a > 0 { assert rest[a - 1] == SentAck(m, n); }
    }
  }

  /** What one packet must be like: no copy of the row, and the row and the client id belong together. */
  predicate Fits(p: Packet, n: nat, m: MsgId) {
    && (p.Message? ==> p.mid != m)
    && (p.SentAck? ==> (p.clientId == n <==> p.mid == m))
  }

  predicate AllFit(ps: seq<Packet>, n: nat, m: MsgId) {
    forall p | p in ps :: Fits(p, n, m)
  }

  /** The row is acknowledged once. */
  predicate AckedOnce(ps: seq<Packet>, n: nat, m: MsgId) {
    forall a, b | 0 <= a < b < |ps| && ps[a] == SentAck(m, n) :: ps[b] != SentAck(m, n)
  }

  lemma FirstIs(s: Conversations, i: nat, k: nat, id: EntryId)
    requires OnlyAt(s, i, k, id)
    ensures FirstWith(s, id) == i
  {
    forall j | 0 <= j < |s| && Holds(s[j].msgs, id) ensures j == i {
      var l :| 0 <= l < |s[j].msgs| && s[j].msgs[l].id == id;
      assert Named(s, j, l, id);
    }
    assert Holds(s[i].msgs, id);
  }

  lemma SentMoves(s: Conversations, i: nat, k: nat, n: nat, m: MsgId)
    requires StoreOk(s) && InPhase(s, i, k, n, m, Waiting)
    ensures InPhase(OnSent(s, n, m), i, k, n, m, Stored)
  {
    StoreHasDistinct(s);
    FirstIs(s, i, k, Local(n));
    ConfirmAt(s, i, n, m);
    assert EntryOk(s[i].msgs[k]);
    var s' := OnSent(s, n, m);
    hide OnSent, ConfirmDMMessage, Place, StoreOk;
    assert Named(s', i, k, Row(m));
    forall j, l | Named(s', j, l, Row(m)) ensures j == i && l == k {
      assert !Named(s, j, l, Row(m));
      if j == i {
        assert Named(s, j, l, Local(n));
      }
    }
  }

  lemma ReadMoves(s: Conversations, i: nat, k: nat, m: MsgId)
    requires PartnersDistinct(s) && OnlyAt(s, i, k, Row(m))
    ensures var s' := OnRead(s, m);
            i < |s'| && k < |s'[i].msgs| && s'[i].msgs[k].status == Read
  {
    FirstIs(s, i, k, Row(m));
    PlaceOf(s, i);
  }

  lemma SeenStays(s: Conversations, s': Conversations, i: nat, k: nat)
    requires StoreKeeps(s, s') && i < |s| && k < |s[i].msgs| && s[i].msgs[k].status == Read
    ensures k < |s'[i].msgs| && s'[i].msgs[k].status == Read
  {
    assert EntryKeeps(s[i].msgs[k], s'[i].msgs[k]);
  }

  lemma PlaceExists(s: Conversations, i: nat, k: nat, id: EntryId)
    requires OnlyAt(s, i, k, id)
    ensures i < |s| && k < |s[i].msgs| && s[i].msgs[k].id == id
  {}

  /** The user's own entry is not acknowledged by his own window. */
  lemma OwnIsNotUnread(s: Conversations, partner: UserId, i: nat, k: nat, m: MsgId, acked: set<EntryId>)
    requires PartnersDistinct(s) && OnlyAt(s, i, k, Row(m)) && s[i].msgs[k].mine
    ensures NoneUnread(Get(s, partner), Row(m), acked)
  {
    var p := Place(s, partner);
    var msgs := Get(s, partner);
    forall l | 0 <= l < |msgs| && msgs[l].id == Row(m) ensures msgs[l].mine {
      assert Named(s, p, l, Row(m));
    }
  }

  /** An event that neither renames nor adds the row leaves the entry where it is, and `read` once it is read. */
  lemma RowStays(c: Session, me: UserId, e: ClientEvent, i: nat, k: nat, m: MsgId)
    requires StoreOk(c.store) && OnlyAt(c.store, i, k, Row(m)) && 0 <= m
    requires New(e) != Row(m) && Added(e) != Some(Row(m))
    ensures var s' := ClientStep(c, me, e).store;
            OnlyAt(s', i, k, Row(m)) && (c.store[i].msgs[k].status == Read ==> s'[i].msgs[k].status == Read)
  {
    var s' := ClientStep(c, me, e).store;
    StepMoves(c, me, e);
    StepKeepsStore(c, me, e);
    PlaceExists(c.store, i, k, Row(m));
    hide StoreOk, StoreMoves, StoreKeeps, ClientStep, OnlyAt;
    OnlyAtStays(c.store, s', i, k, Row(m), Old(e), New(e), Added(e));
    PlaceExists(s', i, k, Row(m));
    if c.store[i].msgs[k].status == Read { SeenStays(c.store, s', i, k); }
  }

  /** A stored entry stays `delivered` and the user's own until its notice comes. */
  lemma StoredStays(c: Session, me: UserId, e: ClientEvent, i: nat, k: nat, n: nat, m: MsgId)
    requires StoreOk(c.store) && InPhase(c.store, i, k, n, m, Stored) && 0 <= m && e != Arrives(ReadNotice(m))
    requires New(e) != Row(m) && Added(e) != Some(Row(m))
    ensures InPhase(ClientStep(c, me, e).store, i, k, n, m, Stored)
  {
    PlaceExists(c.store, i, k, Row(m));
    StoreHasDistinct(c.store);
    if e.Shows? { OwnIsNotUnread(c.store, e.partner, i, k, m, c.acked); }
    hide StoreOk, OnlyAt, ClientStep, Get;
    RowStays(c, me, e, i, k, m);
    StepStands(c, me, e, i, k, c.store[i].msgs[k]);
  }

  lemma WaitingStays(c: Session, me: UserId, e: ClientEvent, i: nat, k: nat, n: nat, m: MsgId)
    requires StoreOk(c.store) && InPhase(c.store, i, k, n, m, Waiting) && 0 <= m
    requires e != Arrives(SentAck(m, n)) && (e.Arrives? ==> Fits(e.p, n, m))
    ensures InPhase(ClientStep(c, me, e).store, i, k, n, m, Waiting)
  {
    var s, s' := c.store, ClientStep(c, me, e).store;
    if e.Sends? && e.n == n {
      FirstIs(s, i, k, Local(n));
      assert s' == s;
    } else {
      StepMoves(c, me, e);
      hide StoreOk, StoreMoves, ClientStep, OnlyAt, Nowhere;
      OnlyAtStays(s, s', i, k, Local(n), Old(e), New(e), Added(e));
      OnlyAtStays(s, s', i, k, Row(m), Old(e), New(e), Added(e));
    }
  }

  /** What an event does to the phase. */
  function NextPhase(e: ClientEvent, n: nat, m: MsgId, phase: Phase): Phase {
    if e.Arrives? then Next(e.p, n, m, phase) else phase
  }

  lemma StepPhase(c: Session, me: UserId, e: ClientEvent, i: nat, k: nat, n: nat, m: MsgId, phase: Phase)
    requires StoreOk(c.store) && InPhase(c.store, i, k, n, m, phase) && 0 <= m
    requires e.Arrives? ==> Fits(e.p, n, m) && (e.p == SentAck(m, n) ==> phase == Waiting)
    ensures InPhase(ClientStep(c, me, e).store, i, k, n, m, NextPhase(e, n, m, phase))
  {
    hide StoreOk, OnSent, OnRead, OnlyAt, Nowhere, StoreKeeps;
    match phase
    case Waiting =>
      if e == Arrives(SentAck(m, n)) { SentMoves(c.store, i, k, n, m); } else { WaitingStays(c, me, e, i, k, n, m); }
    case Stored =>
      if e == Arrives(ReadNotice(m)) {
        StoreHasDistinct(c.store);
        ReadMoves(c.store, i, k, m);
        RowStays(c, me, e, i, k, m);
      } else {
        StoredStays(c, me, e, i, k, n, m);
      }
    case Seen => RowStays(c, me, e, i, k, m);
  }

  lemma {:induction false} RunPhase(c: Session, me: UserId, es: seq<ClientEvent>, i: nat, k: nat, n: nat,
                                    m: MsgId, phase: Phase)
    requires StoreOk(c.store) && InPhase(c.store, i, k, n, m, phase) && 0 <= m
    requires AllFit(Arrivals(es), n, m) && AckedOnce(Arrivals(es), n, m)
    requires SentAck(m, n) in Arrivals(es) ==> phase == Waiting
    ensures InPhase(ClientRun(c, me, es).store, i, k, n, m, PhaseAfter(Arrivals(es), n, m, phase))
    decreases |es|
  {
    if es != [] {
      var e, ps, rest := es[0], Arrivals(es), Arrivals(es[1..]);
      assert ps == (if e.Arrives? then [e.p] else []) + rest;
      if e.Arrives? { RestFits(ps, n, m); assert ps[1..] == rest; } else { assert ps == rest; }
      hide StoreOk, InPhase, Arrivals, ClientStep, AllFit, AckedOnce;
      StepPhase(c, me, e, i, k, n, m, phase);
      StepKeepsStore(c, me, e);
      RunPhase(ClientStep(c, me, e), me, es[1..], i, k, n, m, NextPhase(e, n, m, phase));
    }
  }

  lemma RestFits(ps: seq<Packet>, n: nat, m: MsgId)
    requires ps != [] && AllFit(ps, n, m) && AckedOnce(ps, n, m)
    ensures Fits(ps[0], n, m) && AllFit(ps[1..], n, m) && AckedOnce(ps[1..], n, m)
    ensures ps[0] == SentAck(m, n) ==> SentAck(m, n) !in ps[1..]
    ensures SentAck(m, n) in ps[1..] ==> SentAck(m, n) in ps
  {
    assert forall j | 0 <= j < |ps| - 1 :: ps[1..][j] == ps[j + 1];
  }

  /** A fresh entry stands at the end of its conversation, and its id nowhere else. */
  lemma Composed(c: Session, me: UserId, partner: UserId, x: nat, body: string, now: int)
    requires StoreOk(c.store) && Fresh(c.store, x)
    ensures OnlyAt(ClientStep(c, me, Sends(partner, x, body, now)).store, Place(c.store, partner),
                   |Get(c.store, partner)|, Local(x))
  {
    var s, e := c.store, Entry(Local(x), me, body, now, Sent, true);
    var s' := ClientStep(c, me, Sends(partner, x, body, now)).store;
    StoreHasDistinct(s);
    PutKeepsPartners(s, partner, Get(s, partner) + [e]);
    forall j, l | Named(s', j, l, Local(x)) ensures j == Place(s, partner) && l == |Get(s, partner)| {
      assert j < |s| ==> !Holds(s[j].msgs, Local(x));
    }
  }

  /**
   What becomes of an optimistic entry, exactly. Through any events it stays where it was put. Without its
   acknowledgement it stays `sent` under its client id. With it, it takes the id of its row, and it ends
   `read` if and only if some `read` notice of the row arrives after the acknowledgement.
   */
  lemma EntryEndsReadIff(c: Session, me: UserId, es: seq<ClientEvent>, i: nat, k: nat, n: nat, m: MsgId)
    requires StoreOk(c.store) && OnlyAt(c.store, i, k, Local(n)) && Nowhere(c.store, Row(m)) && 0 <= m
    requires AllFit(Arrivals(es), n, m) && AckedOnce(Arrivals(es), n, m)
    ensures var s, ps := ClientRun(c, me, es).store, Arrivals(es);
            && i < |s| && k < |s[i].msgs|
            && (SentAck(m, n) !in ps ==> s[i].msgs[k].id == Local(n) && s[i].msgs[k].status == Sent)
            && (SentAck(m, n) in ps ==> s[i].msgs[k].id == Row(m))
            && (SentAck(m, n) in ps ==> s[i].msgs[k].status == if ReadFollowsAck(ps, n, m) then Read else Delivered)
  {
    RunPhase(c, me, es, i, k, n, m, Waiting);
    ClientIsMonotone(c, me, es);
    PhaseIs(Arrivals(es), n, m, Waiting);
    hide ClientRun, Arrivals, StoreKeeps, ReadFollowsAck, AllFit, AckedOnce;
    var s := ClientRun(c, me, es).store;
    assert MsgsOk(s[i].msgs) && EntryOk(s[i].msgs[k]);
  }
}
