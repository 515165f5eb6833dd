/**
 Runs of the client in which histories are loaded: what becomes of one optimistic message, when it is shown
 twice, and when all that is shown of it is read.
 */
module HistoryRuns {
  import opened ChatTypes
  import opened Store
  import opened StoreRuns
  import opened HistoryMerge
  import EntryPhases

  datatype LoadEvent =
    | Usual(e: ClientEvent)
    | Loads(partner: UserId, history: seq<Entry>)

  /** An empty history is ignored. */
  function LoadStep(c: Session, me: UserId, e: LoadEvent): Session {
    match e
    case Usual(ce) => ClientStep(c, me, ce)
    case Loads(partner, history) =>
      if history == [] then c else c.(store := SetDMHistory(c.store, partner, history))
  }

  function LoadRun(c: Session, me: UserId, es: seq<LoadEvent>): Session
    decreases |es|
  {
    if es == [] then c else LoadRun(LoadStep(c, me, es[0]), me, es[1..])
  }

  /** The packets among the events, in order. */
  function Packets(es: seq<LoadEvent>): seq<Packet>
    decreases |es|
  {
    if es == [] then []
    else (if es[0].Usual? && es[0].e.Arrives? then [es[0].e.p] else []) + Packets(es[1..])
  }

  // ---- what is shown of one message

  /** Whether its optimistic entry waits, how many entries its row has, and how many of them are not read. */
  datatype Shown = Shown(waiting: bool, copies: nat, unread: nat)

  const COMPOSED := Shown(true, 0, 0)

  predicate Others(s: Conversations, partner: UserId, id: EntryId) {
    forall i | 0 <= i < |s| && s[i].partner != partner :: Count(s[i].msgs, Query(id, Any)) == 0
  }

  /** One conversation's count of the message. */
  predicate Counts(msgs: seq<Entry>, n: nat, m: MsgId, v: Shown) {
    && Count(msgs, Query(Local(n), Any)) == (if v.waiting then 1 else 0)
    && Count(msgs, Query(Row(m), Any)) == v.copies
    && Count(msgs, Query(Row(m), NotRead)) == v.unread
    && Count(msgs, Query(Row(m), Received)) == 0
  }

  /** The store shows the message so, in this conversation and in no other. */
  predicate Shows(s: Conversations, partner: UserId, n: nat, m: MsgId, v: Shown) {
    && StoreOk(s) && Counts(Get(s, partner), n, m, v)
    && Others(s, partner, Local(n)) && Others(s, partner, Row(m))
  }

  predicate Acks(e: LoadEvent, n: nat, m: MsgId) { e == Usual(Arrives(SentAck(m, n))) }

  predicate Notices(e: LoadEvent, m: MsgId) { e == Usual(Arrives(ReadNotice(m))) }

  /** The history has the row. */
  predicate Brings(e: LoadEvent, m: MsgId) { e.Loads? && Row(m) in Ids(e.history) }

  /** The history has it, and not yet as read. */
  predicate Stale(e: LoadEvent, m: MsgId) {
    Brings(e, m) && Count(e.history, Query(Row(m), NotRead)) > 0
  }

  function Next(e: LoadEvent, n: nat, m: MsgId, v: Shown): Shown {
    if Acks(e, n, m) && v.waiting then Shown(false, v.copies + 1, v.unread + 1)
    else if Notices(e, m) then v.(unread := 0)
    else if Brings(e, m) then v.(copies := 1, unread := Count(e.history, Query(Row(m), NotRead)))
    else v
  }

  function After(es: seq<LoadEvent>, n: nat, m: MsgId, v: Shown): Shown
    decreases |es|
  {
    if es == [] then v else After(es[1..], n, m, Next(es[0], n, m, v))
  }

  /** A history the server may answer with: rows, each once, the message only in its own conversation and as sent. */
  predicate FromServer(history: seq<Entry>, own: bool, m: MsgId) {
    && IdsDistinct(history) && (forall k | 0 <= k < |history| :: history[k].id.Row?)
    && (Row(m) in Ids(history) ==> own && Count(history, Query(Row(m), Received)) == 0)
  }

  predicate FitsLoad(e: LoadEvent, partner: UserId, n: nat, m: MsgId) {
    match e
    case Usual(Arrives(p)) => EntryPhases.Fits(p, n, m)
    case Usual(Sends(_, x, _, _)) => x != n
    case Usual(_) => true
    case Loads(q, history) => FromServer(history, q == partner, m)
  }

  // ---- counting under the reducers

  lemma {:induction false} CountSame(a: seq<Entry>, b: seq<Entry>, q: Query)
    requires |a| == |b| && forall k | 0 <= k < |a| :: Hits(a[k], q) == Hits(b[k], q)
    ensures Count(a, q) == Count(b, q)
    decreases |a|
  {
    if a != [] {
      CountSame(a[..|a| - 1], b[..|b| - 1], q);
    }
  }

  lemma CountAdds(s: seq<Entry>, e: Entry, q: Query)
    ensures Count(s + [e], q) == Count(s, q) + if Hits(e, q) then 1 else 0
  {
    assert (s + [e])[..|s|] == s;
  }

  lemma {:induction false} CountHolds(s: seq<Entry>, id: EntryId)
    ensures Count(s, Query(id, Any)) > 0 <==> Holds(s, id)
  {
    if s != [] {
      var front := s[..|s| - 1];
      CountHolds(front, id);
      if Holds(front, id) {
        var k :| 0 <= k < |front| && front[k].id == id;
        assert s[k].id == id;
      }
      if Holds(s, id) {
        var k :| 0 <= k < |s| && s[k].id == id;
        assert k < |front| ==> front[k].id == id;
      }
    }
  }

  lemma {:induction false} CountFewer(s: seq<Entry>, id: EntryId, kind: Kind)
    ensures Count(s, Query(id, kind)) <= Count(s, Query(id, Any))
  {
    if s != [] {
      CountFewer(s[..|s| - 1], id, kind);
    }
  }

  lemma {:induction false} NoneReceived(s: seq<Entry>, n: nat)
    requires MsgsOk(s)
    ensures Count(s, Query(Local(n), Received)) == 0
  {
    if s != [] {
      assert EntryOk(s[|s| - 1]);
      NoneReceived(s[..|s| - 1], n);
    }
  }

  lemma {:induction false} ReceivedCounts(s: seq<Entry>, k: nat, id: EntryId)
    requires k < |s| && s[k].id == id && !s[k].mine
    ensures Count(s, Query(id, Received)) > 0
  {
    if k < |s| - 1 {
      ReceivedCounts(s[..|s| - 1], k, id);
    }
  }

  function ConfirmAll(s: seq<Entry>, n: nat, m: MsgId): seq<Entry> {
    seq(|s|, k requires 0 <= k < |s| => Confirmed(s[k], Local(n), m))
  }

  function ReadAll(s: seq<Entry>, id: EntryId): seq<Entry> {
    seq(|s|, k requires 0 <= k < |s| => Updated(s[k], id, Read))
  }

  lemma {:induction false} ConfirmCounts(s: seq<Entry>, n: nat, m: MsgId)
    ensures Count(ConfirmAll(s, n, m), Query(Local(n), Any)) == 0
    ensures var more := Count(s, Query(Local(n), Any)); var c := ConfirmAll(s, n, m);
            && Count(c, Query(Row(m), Any)) == Count(s, Query(Row(m), Any)) + more
            && Count(c, Query(Row(m), NotRead)) == Count(s, Query(Row(m), NotRead)) + more
            && Count(c, Query(Row(m), Received))
                == Count(s, Query(Row(m), Received)) + Count(s, Query(Local(n), Received))
  {
    if s != [] {
      var front := s[..|s| - 1];
      ConfirmCounts(front, n, m);
      assert ConfirmAll(s, n, m)[..|s| - 1] == ConfirmAll(front, n, m);
    }
  }

  lemma {:induction false} ReadCounts(s: seq<Entry>, m: MsgId)
    ensures Count(ReadAll(s, Row(m)), Query(Row(m), NotRead)) == 0
    ensures Count(ReadAll(s, Row(m)), Query(Row(m), Any)) == Count(s, Query(Row(m), Any))
    ensures Count(ReadAll(s, Row(m)), Query(Row(m), Received)) == Count(s, Query(Row(m), Received))
  {
    if s != [] {
      var front := s[..|s| - 1];
      ReadCounts(front, m);
      assert ReadAll(s, Row(m))[..|s| - 1] == ReadAll(front, Row(m));
    }
  }

  /** Two lists count the message alike. */
  predicate SameCounts(a: seq<Entry>, b: seq<Entry>, n: nat, m: MsgId) {
    && Count(b, Query(Local(n), Any)) == Count(a, Query(Local(n), Any))
    && Count(b, Query(Row(m), Any)) == Count(a, Query(Row(m), Any))
    && Count(b, Query(Row(m), NotRead)) == Count(a, Query(Row(m), NotRead))
    && Count(b, Query(Row(m), Received)) == Count(a, Query(Row(m), Received))
  }

  lemma AddSame(s: seq<Entry>, e: Entry, n: nat, m: MsgId)
    requires e.id != Local(n) && e.id != Row(m)
    ensures SameCounts(s, s + [e], n, m)
  {
    CountAdds(s, e, Query(Local(n), Any));
    CountAdds(s, e, Query(Row(m), Any));
    CountAdds(s, e, Query(Row(m), NotRead));
    CountAdds(s, e, Query(Row(m), Received));
  }

  lemma ConfirmSame(s: seq<Entry>, x: nat, y: MsgId, n: nat, m: MsgId)
    requires x != n && y != m
    ensures SameCounts(s, ConfirmAll(s, x, y), n, m)
  {
    var t := ConfirmAll(s, x, y);
    CountSame(t, s, Query(Local(n), Any));
    CountSame(t, s, Query(Row(m), Any));
    CountSame(t, s, Query(Row(m), NotRead));
    CountSame(t, s, Query(Row(m), Received));
  }

  lemma ReadSame(s: seq<Entry>, id: EntryId, n: nat, m: MsgId)
    requires id != Local(n) && id != Row(m)
    ensures SameCounts(s, ReadAll(s, id), n, m)
  {
    var t := ReadAll(s, id);
    CountSame(t, s, Query(Local(n), Any));
    CountSame(t, s, Query(Row(m), Any));
    CountSame(t, s, Query(Row(m), NotRead));
    CountSame(t, s, Query(Row(m), Received));
  }

  lemma RowsOnly(h: seq<Entry>, n: nat)
    requires forall k | 0 <= k < |h| :: h[k].id.Row?
    ensures Local(n) !in Ids(h)
  {}

  lemma MergeSame(s: seq<Entry>, h: seq<Entry>, n: nat, m: MsgId)
    requires Row(m) !in Ids(h) && forall k | 0 <= k < |h| :: h[k].id.Row?
    ensures SameCounts(s, Merge(s, h), n, m)
  {
    RowsOnly(h, n);
    hide Merge, Ids, Count;
    MergeCounts(s, h, Query(Local(n), Any));
    MergeCounts(s, h, Query(Row(m), Any));
    MergeCounts(s, h, Query(Row(m), NotRead));
    MergeCounts(s, h, Query(Row(m), Received));
  }

  // ---- one event

  lemma NothingCounted(q: Query)
    ensures Count([], q) == 0
  {}

  lemma OthersGet(s: Conversations, partner: UserId, q: UserId, id: EntryId)
    requires PartnersDistinct(s) && Others(s, partner, id) && q != partner
    ensures Count(Get(s, q), Query(id, Any)) == 0
  {
    GetIs(s, q);
    hide Get, Count;
    NothingCounted(Query(id, Any));
    if i :| 0 <= i < |s| && s[i].partner == q {}
  }

  lemma PutOthers(s: Conversations, partner: UserId, q: UserId, msgs: seq<Entry>, id: EntryId)
    requires PartnersDistinct(s) && Others(s, partner, id)
    requires q != partner ==> Count(msgs, Query(id, Any)) == 0
    ensures Others(Put(s, q, msgs), partner, id)
  {
    PutKeepsPartners(s, q, msgs);
    GetIs(Put(s, q, msgs), q);
    hide Get, Put, Count;
  }

  /** A conversation that counts the message as before leaves what is shown of it as before. */
  lemma PutShows(s: Conversations, partner: UserId, q: UserId, msgs: seq<Entry>, n: nat, m: MsgId, v: Shown)
    requires Shows(s, partner, n, m, v) && StoreOk(Put(s, q, msgs)) && SameCounts(Get(s, q), msgs, n, m)
    ensures Shows(Put(s, q, msgs), partner, n, m, v)
  {
    StoreHasDistinct(s);
    hide StoreOk, Get, Put, Count, Others;
    PutGets(s, partner, q, msgs);
    if q != partner {
      OthersGet(s, partner, q, Local(n));
      OthersGet(s, partner, q, Row(m));
    }
    PutOthers(s, partner, q, msgs, Local(n));
    PutOthers(s, partner, q, msgs, Row(m));
  }

  /** The message's own conversation, counted anew. */
  lemma PutOwn(s: Conversations, partner: UserId, msgs: seq<Entry>, n: nat, m: MsgId, v: Shown, v': Shown)
    requires Shows(s, partner, n, m, v) && StoreOk(Put(s, partner, msgs)) && Counts(msgs, n, m, v')
    ensures Shows(Put(s, partner, msgs), partner, n, m, v')
  {
    StoreHasDistinct(s);
    hide StoreOk, Get, Put, Count, Others;
    PutGets(s, partner, partner, msgs);
    PutOthers(s, partner, partner, msgs, Local(n));
    PutOthers(s, partner, partner, msgs, Row(m));
  }

  /** Only the message's conversation holds its ids. */
  lemma FirstIsOwn(s: Conversations, partner: UserId, id: EntryId)
    requires PartnersDistinct(s) && Others(s, partner, id)
    ensures var i := FirstWith(s, id);
            && (i < |s| <==> Count(Get(s, partner), Query(id, Any)) > 0)
            && (i < |s| ==> s[i].partner == partner)
  {
    GetIs(s, partner);
    forall j | 0 <= j < |s| ensures Count(s[j].msgs, Query(id, Any)) > 0 <==> Holds(s[j].msgs, id) {
      CountHolds(s[j].msgs, id);
    }
    NothingCounted(Query(id, Any));
    hide Count, Get, Holds;
    if j :| 0 <= j < |s| && s[j].partner == partner {}
  }

  lemma AckShows(c: Session, me: UserId, partner: UserId, n: nat, m: MsgId, v: Shown)
    requires Shows(c.store, partner, n, m, v)
    ensures Shows(ClientStep(c, me, Arrives(SentAck(m, n))).store, partner, n, m,
                  Next(Usual(Arrives(SentAck(m, n))), n, m, v))
  {
    var s := c.store;
    StoreHasDistinct(s);
    StepKeepsStore(c, me, Arrives(SentAck(m, n)));
    FirstIsOwn(s, partner, Local(n));
    if v.waiting {
      var msgs := Get(s, partner);
      GetOk(s, partner);
      NoneReceived(msgs, n);
      ConfirmCounts(msgs, n, m);
      hide StoreOk, Get, Put, Count, Others, MsgsOk;
      PutOwn(s, partner, ConfirmAll(msgs, n, m), n, m, v, Shown(false, v.copies + 1, v.unread + 1));
    }
  }

  lemma NoticeShows(c: Session, me: UserId, partner: UserId, n: nat, m: MsgId, v: Shown)
    requires Shows(c.store, partner, n, m, v)
    ensures Shows(ClientStep(c, me, Arrives(ReadNotice(m))).store, partner, n, m, v.(unread := 0))
  {
    var s := c.store;
    StoreHasDistinct(s);
    StepKeepsStore(c, me, Arrives(ReadNotice(m)));
    FirstIsOwn(s, partner, Row(m));
    var msgs := Get(s, partner);
    CountFewer(msgs, Row(m), NotRead);
    if v.copies > 0 {
      ReadCounts(msgs, m);
      CountSame(ReadAll(msgs, Row(m)), msgs, Query(Local(n), Any));
      hide StoreOk, Get, Put, Count, Others;
      PutOwn(s, partner, ReadAll(msgs, Row(m)), n, m, v, v.(unread := 0));
    }
  }

  lemma LoadKeepsStore(s: Conversations, q: UserId, h: seq<Entry>)
    requires StoreOk(s) && forall k | 0 <= k < |h| :: h[k].id.Row?
    ensures StoreOk(SetDMHistory(s, q, h))
  {
    var local := Get(s, q);
    GetOk(s, q);
    MergeIsExact(local, h, 0);
    var msgs := Merge(local, h);
    forall k | 0 <= k < |msgs| ensures EntryOk(msgs[k]) {
      assert msgs[k] in msgs;
      if msgs[k] in local { InMsgsOk(local, msgs[k]); }
    }
    PutKeepsPartners(s, q, msgs);
    GetIs(Put(s, q, msgs), q);
    hide Get, Put, Merge, Ids;
  }

  lemma InMsgsOk(msgs: seq<Entry>, e: Entry)
    requires MsgsOk(msgs) && e in msgs
    ensures EntryOk(e)
  {
    var k :| 0 <= k < |msgs| && msgs[k] == e;
    assert EntryOk(msgs[k]);
  }

  lemma LoadShows(c: Session, me: UserId, q: UserId, h: seq<Entry>, partner: UserId, n: nat, m: MsgId, v: Shown)
    requires Shows(c.store, partner, n, m, v) && FromServer(h, q == partner, m)
    ensures Shows(LoadStep(c, me, Loads(q, h)).store, partner, n, m, Next(Loads(q, h), n, m, v))
  {
    var s := c.store;
    var local := Get(s, q);
    if h != [] {
      LoadKeepsStore(s, q, h);
      if Row(m) in Ids(h) {
        RowsOnly(h, n);
        CountIdDistinct(h, Row(m));
        assert Count(h, Query(Row(m), Any)) == 1;
        hide StoreOk, Get, Put, Count, Others, Merge, Ids;
        MergeCounts(local, h, Query(Local(n), Any));
        MergeCounts(local, h, Query(Row(m), Any));
        MergeCounts(local, h, Query(Row(m), NotRead));
        MergeCounts(local, h, Query(Row(m), Received));
        PutOwn(s, partner, Merge(local, h), n, m, v, Next(Loads(q, h), n, m, v));
      } else {
        MergeSame(local, h, n, m);
        hide StoreOk, Get, Put, Count, Others, Merge, Ids;
        PutShows(s, partner, q, Merge(local, h), n, m, v);
      }
    }
  }

  /** Entries of the row among these are the user's own. */
  predicate OwnRows(msgs: seq<Entry>, m: MsgId) {
    forall k | 0 <= k < |msgs| && msgs[k].id == Row(m) :: msgs[k].mine
  }

  lemma ShownIsOwn(s: Conversations, partner: UserId, q: UserId, n: nat, m: MsgId, v: Shown)
    requires Shows(s, partner, n, m, v)
    ensures OwnRows(Get(s, q), m)
  {
    StoreHasDistinct(s);
    var msgs := Get(s, q);
    if q != partner { OthersGet(s, partner, q, Row(m)); }
    CountFewer(msgs, Row(m), Received);
    forall k | 0 <= k < |msgs| && msgs[k].id == Row(m) ensures msgs[k].mine {
      if !msgs[k].mine { ReceivedCounts(msgs, k, Row(m)); }
    }
  }

  lemma {:induction false} PassShows(c: Session, q: UserId, msgs: seq<Entry>, partner: UserId, n: nat, m: MsgId,
                                     v: Shown)
    requires Shows(c.store, partner, n, m, v) && MsgsOk(msgs) && OwnRows(msgs, m)
    ensures Shows(AckFrom(c, q, msgs).store, partner, n, m, v)
    decreases |msgs|
  {
    hide Shows, MsgsOk, UpdateDMMessageStatus;
    if msgs != [] {
      var e := msgs[0];
      assert MsgsOk(msgs[1..]) && EntryOk(e) by { RestOk(msgs); }
      if Unread(e, c.acked) {
        OneReadShows(c.store, q, e.id, partner, n, m, v);
        PassShows(Acknowledged(c, q, e.id), q, msgs[1..], partner, n, m, v);
      } else {
        PassShows(c, q, msgs[1..], partner, n, m, v);
      }
    }
  }

  lemma OneReadShows(s: Conversations, q: UserId, id: EntryId, partner: UserId, n: nat, m: MsgId, v: Shown)
    requires Shows(s, partner, n, m, v) && id.Row? && id != Row(m)
    ensures Shows(UpdateDMMessageStatus(s, q, id, Read), partner, n, m, v)
  {
    UpdateKeeps(s, q, id);
    ReadSame(Get(s, q), id, n, m);
    hide StoreOk, StoreKeeps, Get, Put, Count, Others;
    PutShows(s, partner, q, ReadAll(Get(s, q), id), n, m, v);
  }

  /** Events about other messages. */
  lemma OtherShows(c: Session, me: UserId, e: ClientEvent, partner: UserId, n: nat, m: MsgId, v: Shown)
    requires Shows(c.store, partner, n, m, v) && FitsLoad(Usual(e), partner, n, m)
    requires !Acks(Usual(e), n, m) && !Notices(Usual(e), m)
    ensures Shows(ClientStep(c, me, e).store, partner, n, m, v)
  {
    var s := c.store;
    StepKeepsStore(c, me, e);
    match e
    case Arrives(Message(r, from, body, ts)) =>
      AddShows(s, partner, from, Entry(Row(r), from, body, ts, Delivered, false), n, m, v);
    case Arrives(SentAck(r, x)) =>
      var i := FirstWith(s, Local(x));
      if i < |s| { ConfirmShows(s, partner, s[i].partner, x, r, n, m, v); }
    case Arrives(ReadNotice(r)) =>
      var i := FirstWith(s, Row(r));
      if i < |s| { OneReadShows(s, s[i].partner, Row(r), partner, n, m, v); }
    case Arrives(Other(_)) =>
    case Sends(to, x, body, now) => AddShows(s, partner, to, Entry(Local(x), me, body, now, Sent, true), n, m, v);
    case Shows(q) =>
      ShownIsOwn(s, partner, q, n, m, v);
      GetOk(s, q);
      PassShows(c, q, Get(s, q), partner, n, m, v);
    case Remounts =>
  }

  lemma AddShows(s: Conversations, partner: UserId, q: UserId, e: Entry, n: nat, m: MsgId, v: Shown)
    requires Shows(s, partner, n, m, v) && EntryOk(e) && e.id != Local(n) && e.id != Row(m)
    ensures Shows(AddDMMessage(s, q, e), partner, n, m, v)
  {
    AddKeeps(s, q, e);
    AddSame(Get(s, q), e, n, m);
    hide StoreOk, StoreKeeps, Get, Put, Count, Others;
    PutShows(s, partner, q, Get(s, q) + [e], n, m, v);
  }

  lemma ConfirmShows(s: Conversations, partner: UserId, q: UserId, x: nat, r: MsgId, n: nat, m: MsgId, v: Shown)
    requires Shows(s, partner, n, m, v) && x != n && r != m
    ensures Shows(ConfirmDMMessage(s, q, Local(x), r), partner, n, m, v)
  {
    ConfirmKeeps(s, q, x, r);
    ConfirmSame(Get(s, q), x, r, n, m);
    hide StoreOk, StoreKeeps, Get, Put, Count, Others;
    PutShows(s, partner, q, ConfirmAll(Get(s, q), x, r), n, m, v);
  }

  lemma StepShows(c: Session, me: UserId, e: LoadEvent, partner: UserId, n: nat, m: MsgId, v: Shown)
    requires Shows(c.store, partner, n, m, v) && FitsLoad(e, partner, n, m)
    ensures Shows(LoadStep(c, me, e).store, partner, n, m, Next(e, n, m, v))
  {
    hide Shows, ClientStep, Count, Ids, SetDMHistory;
    match e
    case Loads(q, h) => LoadShows(c, me, q, h, partner, n, m, v);
    case Usual(ce) =>
      if Acks(e, n, m) { AckShows(c, me, partner, n, m, v); }
      else if Notices(e, m) { NoticeShows(c, me, partner, n, m, v); }
      else { OtherShows(c, me, ce, partner, n, m, v); }
  }

  predicate AllFitLoad(es: seq<LoadEvent>, partner: UserId, n: nat, m: MsgId) {
    forall k | 0 <= k < |es| :: FitsLoad(es[k], partner, n, m)
  }

  /**
   Through any events and loads, what the store shows of the message is what a machine of three fields says:
   its acknowledgement adds an entry for a waiting one, a notice reads all entries of the row, and a history
   that has the row replaces them all by its own.
   */
  lemma {:induction false} RunShows(c: Session, me: UserId, es: seq<LoadEvent>, partner: UserId, n: nat, m: MsgId,
                                    v: Shown)
    requires Shows(c.store, partner, n, m, v) && AllFitLoad(es, partner, n, m)
    ensures Shows(LoadRun(c, me, es).store, partner, n, m, After(es, n, m, v))
    decreases |es|
  {
    hide Shows, LoadStep, Next, FitsLoad;
    if es != [] {
      StepShows(c, me, es[0], partner, n, m, v);
      RunShows(LoadStep(c, me, es[0]), me, es[1..], partner, n, m, Next(es[0], n, m, v));
    }
  }

  // ---- the machine run through

  predicate AnyBrings(es: seq<LoadEvent>, m: MsgId) {
    exists k | 0 <= k < |es| :: Brings(es[k], m)
  }

  predicate AnyAcks(es: seq<LoadEvent>, n: nat, m: MsgId) {
    exists k | 0 <= k < |es| :: Acks(es[k], n, m)
  }

  predicate AnyStale(es: seq<LoadEvent>, m: MsgId) {
    exists k | 0 <= k < |es| :: Stale(es[k], m)
  }

  /** A notice, or a history that has the row as read: after it all that is shown of the row is read. */
  predicate Clears(e: LoadEvent, m: MsgId) {
    Notices(e, m) || (Brings(e, m) && !Stale(e, m))
  }

  /** Something read it all, and no stale history came after. */
  predicate Cleared(es: seq<LoadEvent>, m: MsgId) {
    exists k | 0 <= k < |es| :: Clears(es[k], m) && !AnyStale(es[k + 1..], m)
  }

  lemma AnyInRest(es: seq<LoadEvent>, n: nat, m: MsgId)
    requires es != []
    ensures AnyBrings(es, m) <==> Brings(es[0], m) || AnyBrings(es[1..], m)
    ensures AnyAcks(es, n, m) <==> Acks(es[0], n, m) || AnyAcks(es[1..], n, m)
    ensures AnyStale(es, m) <==> Stale(es[0], m) || AnyStale(es[1..], m)
  {
    hide Brings, Acks, Stale;
    var rest := es[1..];
    assert forall k | 0 <= k < |rest| :: rest[k] == es[k + 1];
    assert forall k | 1 <= k < |es| :: es[k] == rest[k - 1];
  }

  lemma ClearedInRest(es: seq<LoadEvent>, m: MsgId)
    requires es != []
    ensures Cleared(es, m) <==> (Clears(es[0], m) && !AnyStale(es[1..], m)) || Cleared(es[1..], m)
  {
    hide Clears, AnyStale;
    var rest := es[1..];
    if Cleared(es, m) {
      var k :| 0 <= k < |es| && Clears(es[k], m) && !AnyStale(es[k + 1..], m);
      if k > 0 { assert rest[k - 1] == es[k] && rest[k - 1 + 1..] == es[k + 1..]; }
    }
    if Cleared(rest, m) {
      var k :| 0 <= k < |rest| && Clears(rest[k], m) && !AnyStale(rest[k + 1..], m);
      assert es[k + 1] == rest[k] && es[k + 1 + 1..] == rest[k + 1..];
    }
  }

  /** Without an acknowledgement that counts, only histories change the number of copies. */
  lemma {:induction false} CopiesAfter(es: seq<LoadEvent>, n: nat, m: MsgId, v: Shown)
    requires v.waiting ==> !AnyAcks(es, n, m)
    ensures var w := After(es, n, m, v);
            w.waiting == v.waiting && w.copies == if AnyBrings(es, m) then 1 else v.copies
    decreases |es|
  {
    if es != [] {
      hide AnyBrings, AnyAcks, Ids, Count;
      AnyInRest(es, n, m);
      CopiesAfter(es[1..], n, m, Next(es[0], n, m, v));
    }
  }

  lemma {:induction false} UnreadAfter(es: seq<LoadEvent>, n: nat, m: MsgId, v: Shown)
    requires v.waiting ==> !AnyAcks(es, n, m)
    ensures After(es, n, m, v).unread == 0 <==> Cleared(es, m) || (v.unread == 0 && !AnyStale(es, m))
    decreases |es|
  {
    if es != [] {
      hide AnyAcks, AnyStale, Cleared;
      AnyInRest(es, n, m);
      ClearedInRest(es, m);
      UnreadAfter(es[1..], n, m, Next(es[0], n, m, v));
    }
  }

  lemma {:induction false} AfterAdds(a: seq<LoadEvent>, b: seq<LoadEvent>, n: nat, m: MsgId, v: Shown)
    ensures After(a + b, n, m, v) == After(b, n, m, After(a, n, m, v))
    decreases |a|
  {
    if a == [] {
      assert a + b == b;
    } else {
      assert (a + b)[1..] == a[1..] + b;
      AfterAdds(a[1..], b, n, m, Next(a[0], n, m, v));
    }
  }

  /** A composed message, its first acknowledgement between two stretches. */
  lemma ComposedAfter(before: seq<LoadEvent>, after: seq<LoadEvent>, n: nat, m: MsgId)
    requires !AnyAcks(before, n, m)
    ensures var w := After(before + [Usual(Arrives(SentAck(m, n)))] + after, n, m, COMPOSED);
            && !w.waiting
            && w.copies == (if AnyBrings(before, m) && !AnyBrings(after, m) then 2 else 1)
            && (w.unread == 0 <==> Cleared(after, m))
  {
    var ack := Usual(Arrives(SentAck(m, n)));
    var v := After(before, n, m, COMPOSED);
    AfterAdds(before + [ack], after, n, m, COMPOSED);
    AfterAdds(before, [ack], n, m, COMPOSED);
    CopiesAfter(before, n, m, COMPOSED);
    var v1 := Shown(false, v.copies + 1, v.unread + 1);
    assert After([ack], n, m, v) == v1 by { assert [ack][1..] == []; assert Acks(ack, n, m); }
    CopiesAfter(after, n, m, v1);
    UnreadAfter(after, n, m, v1);
  }

  /**
   What loading a history does: the conversation becomes the history and those of its entries whose id is not in
   it, in order of time. An empty history, every other conversation and the window's memory stay as they were.
   */
  lemma LoadDoes(c: Session, me: UserId, partner: UserId, history: seq<Entry>, q: UserId)
    requires PartnersDistinct(c.store)
    ensures var c' := LoadStep(c, me, Loads(partner, history));
            && c'.acked == c.acked && c'.acks == c.acks && c'.mounted == c.mounted
            && (history == [] ==> c' == c) && (q != partner ==> Get(c'.store, q) == Get(c.store, q))
            && (history != [] ==>
                  && Sorted(Get(c'.store, partner))
                  && forall e :: e in Get(c'.store, partner)
                            <==> e in history || (e in Get(c.store, partner) && e.id !in Ids(history)))
  {
    if history != [] {
      MergeIsExact(Get(c.store, partner), history, 0);
      PutGets(c.store, q, partner, Merge(Get(c.store, partner), history));
      PutGets(c.store, partner, partner, Merge(Get(c.store, partner), history));
      hide Get, Put, Merge, Ids, Sorted;
    }
  }

  // ---- a composed message

  lemma {:induction false} CountOnly(msgs: seq<Entry>, k: nat, id: EntryId)
    requires k < |msgs| && msgs[k].id == id && forall l | 0 <= l < |msgs| && msgs[l].id == id :: l == k
    ensures Count(msgs, Query(id, Any)) == 1
    decreases |msgs|
  {
    var front := msgs[..|msgs| - 1];
    if k == |front| {
      CountHolds(front, id);
    } else {
      CountOnly(front, k, id);
    }
  }

  lemma OnlyOthers(s: Conversations, i: nat, k: nat, id: EntryId)
    requires PartnersDistinct(s) && EntryPhases.OnlyAt(s, i, k, id)
    ensures i < |s| && Others(s, s[i].partner, id)
  {
    assert EntryPhases.Named(s, i, k, id);
    forall j | 0 <= j < |s| && s[j].partner != s[i].partner ensures Count(s[j].msgs, Query(id, Any)) == 0 {
      CountHolds(s[j].msgs, id);
      assert forall l | 0 <= l < |s[j].msgs| :: s[j].msgs[l].id == id <==> EntryPhases.Named(s, j, l, id);
    }
  }

  lemma NowhereCounts(s: Conversations, i: nat, q: Query)
    requires EntryPhases.Nowhere(s, q.id) && i < |s|
    ensures Count(s[i].msgs, q) == 0
  {
    if q.id in Ids(s[i].msgs) {
      var l :| 0 <= l < |s[i].msgs| && s[i].msgs[l].id == q.id;
      assert EntryPhases.Named(s, i, l, q.id);
    }
    CountNone(s[i].msgs, q);
  }

  /** An optimistic entry whose row is not known yet. */
  lemma ComposedShows(s: Conversations, i: nat, k: nat, n: nat, m: MsgId)
    requires StoreOk(s) && EntryPhases.OnlyAt(s, i, k, Local(n)) && EntryPhases.Nowhere(s, Row(m))
    ensures i < |s| && Shows(s, s[i].partner, n, m, COMPOSED)
  {
    StoreHasDistinct(s);
    OnlyOthers(s, i, k, Local(n));
    GetIs(s, s[i].partner);
    assert EntryPhases.Named(s, i, k, Local(n));
    forall l | 0 <= l < |s[i].msgs| && s[i].msgs[l].id == Local(n) ensures l == k {
      assert EntryPhases.Named(s, i, l, Local(n));
    }
    CountOnly(s[i].msgs, k, Local(n));
    hide Count, EntryPhases.OnlyAt, EntryPhases.Nowhere, StoreOk, Get;
    NowhereCounts(s, i, Query(Row(m), Any));
    NowhereCounts(s, i, Query(Row(m), NotRead));
    NowhereCounts(s, i, Query(Row(m), Received));
    forall j | 0 <= j < |s| && s[j].partner != s[i].partner ensures Count(s[j].msgs, Query(Row(m), Any)) == 0 {
      NowhereCounts(s, j, Query(Row(m), Any));
    }
  }

  /** Every entry of the id is read. */
  predicate AllRead(msgs: seq<Entry>, id: EntryId) {
    forall k | 0 <= k < |msgs| && msgs[k].id == id :: msgs[k].status == Read
  }

  lemma {:induction false} AllReadIffNoneUnread(msgs: seq<Entry>, id: EntryId)
    ensures AllRead(msgs, id) <==> Count(msgs, Query(id, NotRead)) == 0
  {
    if msgs != [] {
      var front := msgs[..|msgs| - 1];
      AllReadIffNoneUnread(front, id);
      assert forall k | 0 <= k < |front| :: front[k] == msgs[k];
    }
  }

  /** An optimistic entry of the message alone, and events that fit it, with no acknowledgement before this one. */
  ghost predicate ComposedRun(c: Session, before: seq<LoadEvent>, after: seq<LoadEvent>, i: nat, k: nat, n: nat,
                              m: MsgId)
  {
    && StoreOk(c.store) && EntryPhases.OnlyAt(c.store, i, k, Local(n)) && EntryPhases.Nowhere(c.store, Row(m))
    && i < |c.store| && !AnyAcks(before, n, m)
    && AllFitLoad(Through(before, n, m, after), c.store[i].partner, n, m)
  }

  /** The acknowledgement between two stretches. */
  function Through(before: seq<LoadEvent>, n: nat, m: MsgId, after: seq<LoadEvent>): seq<LoadEvent> {
    before + [Usual(Arrives(SentAck(m, n)))] + after
  }

  lemma ComposedRunShows(c: Session, me: UserId, before: seq<LoadEvent>, after: seq<LoadEvent>, i: nat, k: nat,
                         n: nat, m: MsgId)
    requires ComposedRun(c, before, after, i, k, n, m)
    ensures Shows(LoadRun(c, me, Through(before, n, m, after)).store, c.store[i].partner, n, m,
                  After(Through(before, n, m, after), n, m, COMPOSED))
  {
    hide Shows, StoreOk, EntryPhases.OnlyAt, EntryPhases.Nowhere, AllFitLoad, LoadRun, After;
    ComposedShows(c.store, i, k, n, m);
    RunShows(c, me, Through(before, n, m, after), c.store[i].partner, n, m, COMPOSED);
  }

  /**
   The duplicate, exactly: once its `sent` has arrived the message is shown twice if a history that has it was
   loaded before and none since, and otherwise once. It is shown in its conversation only, and under its
   client id no more.
   */
  lemma ShownTwiceIffLoadedBefore(c: Session, me: UserId, before: seq<LoadEvent>, after: seq<LoadEvent>, i: nat,
                                  k: nat, n: nat, m: MsgId)
    requires ComposedRun(c, before, after, i, k, n, m)
    ensures var s, partner := LoadRun(c, me, Through(before, n, m, after)).store, c.store[i].partner;
            && CountId(Get(s, partner), Local(n)) == 0
            && CountId(Get(s, partner), Row(m)) == (if AnyBrings(before, m) && !AnyBrings(after, m) then 2 else 1)
            && (forall j | 0 <= j < |s| && s[j].partner != partner :: CountId(s[j].msgs, Row(m)) == 0)
  {
    ComposedRunShows(c, me, before, after, i, k, n, m);
    ComposedAfter(before, after, n, m);
    hide ComposedRun, StoreOk, LoadRun, After, Get, Count, AnyBrings, Cleared;
  }

  /**
   All that is shown of the message is read, if and only if after its `sent` a notice arrived or a history
   with the row as read was loaded, and no history loaded later still had it unread.
   */
  lemma AllReadIffCleared(c: Session, me: UserId, before: seq<LoadEvent>, after: seq<LoadEvent>, i: nat, k: nat,
                          n: nat, m: MsgId)
    requires ComposedRun(c, before, after, i, k, n, m)
    ensures var s, partner := LoadRun(c, me, Through(before, n, m, after)).store, c.store[i].partner;
            AllRead(Get(s, partner), Row(m)) <==> Cleared(after, m)
  {
    ComposedRunShows(c, me, before, after, i, k, n, m);
    ComposedAfter(before, after, n, m);
    hide ComposedRun, StoreOk, LoadRun, After, Get, Count, AnyBrings, Cleared, AllRead;
    var s := LoadRun(c, me, Through(before, n, m, after)).store;
    AllReadIffNoneUnread(Get(s, c.store[i].partner), Row(m));
  }

  /**
   A window opened between the send and its `sent`: user 1 writes to user 2 under client id 0, a history with
   the stored row 0 comes in, and then the acknowledgement makes a second entry of the same id.
   */
  lemma LoadedInBetweenIsShownTwice(body: string, now: int, ts: int)
    ensures var sent := ClientStep(EMPTY_SESSION, 1, Sends(2, 0, body, now));
            var history := [Entry(Row(0), 1, body, ts, Delivered, true)];
            var s := LoadRun(sent, 1, [Loads(2, history), Usual(Arrives(SentAck(0, 0)))]).store;
            CountId(Get(s, 2), Row(0)) == 2
  {
    var sent := ClientStep(EMPTY_SESSION, 1, Sends(2, 0, body, now));
    var history := [Entry(Row(0), 1, body, ts, Delivered, true)];
    var load := Loads(2, history);
    OneRow(history[0], 0);
    LoadsOne(load, 0);
    SentAndLoaded(1, 2, 0, body, now, load, 0);
    hide LoadRun, ClientStep, ComposedRun, Get, AnyBrings, Brings, Count;
    assert sent.store[0].partner == 2 by { OneSent(1, 2, 0, body, now); }
    assert Through([load], 0, 0, []) == [load, Usual(Arrives(SentAck(0, 0)))];
    ShownTwiceIffLoadedBefore(sent, 1, [load], [], 0, 0, 0, 0);
  }

  lemma LoadsOne(load: LoadEvent, m: MsgId)
    requires Brings(load, m)
    ensures AnyBrings([load], m) && !AnyBrings([], m)
  {
    assert [load][0] == load;
  }

  /** The run of one message and one load, as the general statements take it. */
  lemma SentAndLoaded(me: UserId, partner: UserId, n: nat, body: string, now: int, load: LoadEvent, m: MsgId)
    requires load.Loads? && load.partner == partner && FromServer(load.history, true, m)
    ensures var sent := ClientStep(EMPTY_SESSION, me, Sends(partner, n, body, now));
            |sent.store| == 1 && ComposedRun(sent, [load], [], 0, 0, n, m)
  {
    var sent := ClientStep(EMPTY_SESSION, me, Sends(partner, n, body, now));
    EntryPhases.Composed(EMPTY_SESSION, me, partner, n, body, now);
    OneSent(me, partner, n, body, now);
    StepKeepsStore(EMPTY_SESSION, me, Sends(partner, n, body, now));
    assert Place(EMPTY_SESSION.store, partner) == 0 && |Get(EMPTY_SESSION.store, partner)| == 0;
    hide ClientStep, EntryPhases.OnlyAt, StoreOk, FromServer, Get, Place;
    assert EntryPhases.Nowhere(sent.store, Row(m));
    var es := Through([load], n, m, []);
    assert |es| == 2 && es[0] == load && es[1] == Usual(Arrives(SentAck(m, n)));
    assert !AnyAcks([load], n, m);
  }

  lemma OneSent(me: UserId, partner: UserId, n: nat, body: string, now: int)
    ensures var sent := ClientStep(EMPTY_SESSION, me, Sends(partner, n, body, now));
            sent.store == [Conversation(partner, [Entry(Local(n), me, body, now, Sent, true)])]
  {
    var none: Conversations := EMPTY_SESSION.store;
    assert FirstWith(none, Local(n)) == 0 && Place(none, partner) == 0;
    var e := Entry(Local(n), me, body, now, Sent, true);
    assert Get(none, partner) + [e] == [e];
    assert none + [Conversation(partner, [e])] == [Conversation(partner, [e])];
  }

  lemma OneRow(e: Entry, m: MsgId)
    requires e.id == Row(m) && e.mine
    ensures FromServer([e], true, m) && Row(m) in Ids([e])
  {
    assert [e][..0] == [];
    assert [e][0].id == Row(m);
    assert Count([e], Query(Row(m), Received)) == Count([], Query(Row(m), Received));
  }
}
