/** Runs of the client: socket events, optimistic sends and acknowledgement passes over the store. */
module StoreRuns {
  import opened ChatTypes
  import opened Store

  /**
   `acked` is the chat window's memory of acknowledged ids, `acks` the acknowledgements sent, in order, and
   `mounted` how many of them were sent before the window was last mounted, with an empty memory.
   */
  datatype Session = Session(store: Conversations, acked: set<EntryId>, acks: seq<EntryId>, mounted: nat)

  const EMPTY_SESSION := Session([], {}, [], 0)

  predicate Unread(e: Entry, acked: set<EntryId>) {
    !e.mine && e.status != Read && e.id !in acked
  }

  /** One acknowledgement: remembered, sent, and marked read locally. */
  function Acknowledged(c: Session, partner: UserId, id: EntryId): Session {
    c.(store := UpdateDMMessageStatus(c.store, partner, id, Read), acked := c.acked + {id}, acks := c.acks + [id])
  }

  /** The effect over the messages as they were rendered: acknowledge, and mark read locally. */
  function AckFrom(c: Session, partner: UserId, msgs: seq<Entry>): Session
    decreases |msgs|
  {
    if msgs == [] then c
    else
      var e := msgs[0];
      AckFrom(if Unread(e, c.acked) then
                Acknowledged(c, partner, e.id)
              else c,
              partner, msgs[1..])
  }

  function AckPass(c: Session, partner: UserId): Session {
    AckFrom(c, partner, Get(c.store, partner))
  }

  datatype ClientEvent =
    | Arrives(p: Packet)
    | Sends(partner: UserId, n: nat, body: string, now: int)
    | Shows(partner: UserId)
    | Remounts  // the window is closed and opened again

  /** A generated id is not in use. */
  predicate Fresh(s: Conversations, n: nat) {
    FirstWith(s, Local(n)) == |s|
  }

  function ClientStep(c: Session, me: UserId, e: ClientEvent): Session {
    match e
    case Arrives(p) => c.(store := Receive(c.store, p))
    case Sends(partner, n, body, now) =>
      if Fresh(c.store, n) then c.(store := Compose(c.store, me, partner, n, body, now)) else c
    case Shows(partner) => AckPass(c, partner)
    case Remounts => c.(acked := {}, mounted := |c.acks|)
  }

  function ClientRun(c: Session, me: UserId, es: seq<ClientEvent>): Session
    decreases |es|
  {
    if es == [] then c else ClientRun(ClientStep(c, me, es[0]), me, es[1..])
  }

  // ---- monotone change

  /** An entry keeps its content, its status never falls, and only an unconfirmed id may become a row id. */
  predicate EntryKeeps(e: Entry, e': Entry) {
    && e'.from == e.from && e'.body == e.body && e'.timestamp == e.timestamp && e'.mine == e.mine
    && Rank(e.status) <= Rank(e'.status)
    && (e'.id == e.id || (e.id.Local? && e'.id.Row?))
  }

  /** Entries neither move nor vanish. */
  predicate MsgsKeep(msgs: seq<Entry>, msgs': seq<Entry>) {
    |msgs| <= |msgs'| && forall k | 0 <= k < |msgs| :: EntryKeeps(msgs[k], msgs'[k])
  }

  predicate StoreKeeps(s: Conversations, s': Conversations) {
    && |s| <= |s'|
    && forall i | 0 <= i < |s| :: s'[i].partner == s[i].partner && MsgsKeep(s[i].msgs, s'[i].msgs)
  }

  /** An unconfirmed entry is the user's own and still has status `sent`. */
  predicate EntryOk(e: Entry) {
    e.id.Local? ==> e.status == Sent && e.mine
  }

  predicate MsgsOk(msgs: seq<Entry>) {
    forall k | 0 <= k < |msgs| :: EntryOk(msgs[k])
  }

  predicate StoreOk(s: Conversations) {
    PartnersDistinct(s) && forall i | 0 <= i < |s| :: MsgsOk(s[i].msgs)
  }

  lemma KeepsItself(s: Conversations)
    ensures StoreKeeps(s, s)
  {}

  lemma MsgsKeepTwice(a: seq<Entry>, b: seq<Entry>, c: seq<Entry>)
    requires MsgsKeep(a, b) && MsgsKeep(b, c)
    ensures MsgsKeep(a, c)
  {
    forall k | 0 <= k < |a| ensures EntryKeeps(a[k], c[k]) {
      assert EntryKeeps(a[k], b[k]) && EntryKeeps(b[k], c[k]);
    }
  }

  lemma KeepsTwice(a: Conversations, b: Conversations, c: Conversations)
    requires StoreKeeps(a, b) && StoreKeeps(b, c)
    ensures StoreKeeps(a, c)
  {
    forall i | 0 <= i < |a| ensures c[i].partner == a[i].partner && MsgsKeep(a[i].msgs, c[i].msgs) {
      MsgsKeepTwice(a[i].msgs, b[i].msgs, c[i].msgs);
    }
  }

  /** A reducer that keeps the entries of one conversation keeps the store. */
  lemma PutKeepsStore(s: Conversations, partner: UserId, msgs: seq<Entry>)
    requires StoreOk(s) && MsgsKeep(Get(s, partner), msgs) && MsgsOk(msgs)
    ensures StoreOk(Put(s, partner, msgs)) && StoreKeeps(s, Put(s, partner, msgs))
  {
    hide MsgsKeep, MsgsOk, Get, Put;
    PutKeepsPartners(s, partner, msgs);
    var s' := Put(s, partner, msgs);
    GetIs(s, partner);
    GetIs(s', partner);
    forall i | 0 <= i < |s'| ensures MsgsOk(s'[i].msgs) && (i < |s| ==> MsgsKeep(s[i].msgs, s'[i].msgs)) {
      if i < |s| && s[i].partner != partner {
        KeepsSame(s[i].msgs);
      }
    }
  }

  lemma KeepsSame(msgs: seq<Entry>)
    ensures MsgsKeep(msgs, msgs)
  {}

  lemma GetIs(s: Conversations, partner: UserId)
    requires PartnersDistinct(s)
    ensures forall i | 0 <= i < |s| && s[i].partner == partner :: Get(s, partner) == s[i].msgs
    ensures (forall i | 0 <= i < |s| :: s[i].partner != partner) ==> Get(s, partner) == []
  {}

  lemma GetOk(s: Conversations, partner: UserId)
    requires StoreOk(s)
    ensures MsgsOk(Get(s, partner))
  {}

  lemma AddKeeps(s: Conversations, partner: UserId, e: Entry)
    requires StoreOk(s) && EntryOk(e)
    ensures StoreOk(AddDMMessage(s, partner, e)) && StoreKeeps(s, AddDMMessage(s, partner, e))
  {
    GetOk(s, partner);
    hide Get, Put, StoreOk, StoreKeeps;
    PutKeepsStore(s, partner, Get(s, partner) + [e]);
  }

  lemma ConfirmKeeps(s: Conversations, partner: UserId, n: nat, row: MsgId)
    requires StoreOk(s)
    ensures var s' := ConfirmDMMessage(s, partner, Local(n), row);
            StoreOk(s') && StoreKeeps(s, s')
  {
    GetOk(s, partner);
    hide Get, Put, StoreOk, StoreKeeps;
    var msgs := Get(s, partner);
    PutKeepsStore(s, partner, seq(|msgs|, k requires 0 <= k < |msgs| => Confirmed(msgs[k], Local(n), row)));
  }

  lemma UpdateKeeps(s: Conversations, partner: UserId, id: EntryId)
    requires StoreOk(s) && id.Row?
    ensures var s' := UpdateDMMessageStatus(s, partner, id, Read);
            StoreOk(s') && StoreKeeps(s, s')
  {
    GetOk(s, partner);
    hide Get, Put, StoreOk, StoreKeeps;
    var msgs := Get(s, partner);
    PutKeepsStore(s, partner, seq(|msgs|, k requires 0 <= k < |msgs| => Updated(msgs[k], id, Read)));
  }

  lemma ReceiveKeeps(s: Conversations, p: Packet)
    requires StoreOk(s)
    ensures StoreOk(Receive(s, p)) && StoreKeeps(s, Receive(s, p))
  {
    hide StoreOk, StoreKeeps, ConfirmDMMessage, UpdateDMMessageStatus, AddDMMessage;
    KeepsItself(s);
    match p
    case Message(m, from, body, ts) => AddKeeps(s, from, Entry(Row(m), from, body, ts, Delivered, false));
    case SentAck(m, n) =>
      var i := FirstWith(s, Local(n));
      if i < |s| { ConfirmKeeps(s, s[i].partner, n, m); }
    case ReadNotice(m) =>
      var i := FirstWith(s, Row(m));
      if i < |s| { UpdateKeeps(s, s[i].partner, Row(m)); }
    case Other(_) =>
  }

  lemma {:induction false} AckKeeps(c: Session, partner: UserId, msgs: seq<Entry>)
    requires StoreOk(c.store) && MsgsOk(msgs)
    ensures StoreOk(AckFrom(c, partner, msgs).store) && StoreKeeps(c.store, AckFrom(c, partner, msgs).store)
    decreases |msgs|
  {
    hide StoreOk, StoreKeeps, UpdateDMMessageStatus;
    KeepsItself(c.store);
    if msgs != [] {
      var e := msgs[0];
      assert EntryOk(e);
      if Unread(e, c.acked) {
        var c1 := Acknowledged(c, partner, e.id);
        UpdateKeeps(c.store, partner, e.id);
        AckKeeps(c1, partner, msgs[1..]);
        KeepsTwice(c.store, c1.store, AckFrom(c, partner, msgs).store);
      } else {
        AckKeeps(c, partner, msgs[1..]);
      }
    }
  }

  lemma StepKeepsStore(c: Session, me: UserId, e: ClientEvent)
    requires StoreOk(c.store)
    ensures StoreOk(ClientStep(c, me, e).store) && StoreKeeps(c.store, ClientStep(c, me, e).store)
  {
    KeepsItself(c.store);
    match e
    case Arrives(p) => ReceiveKeeps(c.store, p);
    case Sends(partner, n, body, now) => AddKeeps(c.store, partner, Entry(Local(n), me, body, now, Sent, true));
    case Shows(partner) =>
      GetOk(c.store, partner);
      AckKeeps(c, partner, Get(c.store, partner));
    case Remounts =>
  }

  /**
   Status monotonicity: over any sequence of socket events, optimistic sends and acknowledgement passes
   unconfirmed entries stay `sent`, no status falls, and entries never move or vanish.
   */
  lemma {:induction false} ClientIsMonotone(c: Session, me: UserId, es: seq<ClientEvent>)
    requires StoreOk(c.store)
    ensures StoreOk(ClientRun(c, me, es).store) && StoreKeeps(c.store, ClientRun(c, me, es).store)
    decreases |es|
  {
    hide StoreOk, StoreKeeps, ClientStep;
    if es == [] {
      KeepsItself(c.store);
    } else {
      var c1 := ClientStep(c, me, es[0]);
      StepKeepsStore(c, me, es[0]);
      ClientIsMonotone(c1, me, es[1..]);
      KeepsTwice(c.store, c1.store, ClientRun(c, me, es).store);
    }
  }

  lemma PutGets(s: Conversations, partner: UserId, q: UserId, msgs: seq<Entry>)
    requires PartnersDistinct(s)
    ensures Get(Put(s, q, msgs), partner) == if q == partner then msgs else Get(s, partner)
  {
    PutKeepsPartners(s, q, msgs);
    GetIs(s, partner);
    GetIs(Put(s, q, msgs), partner);
    hide Get, Put;
    var s' := Put(s, q, msgs);
    if q != partner {
      if i :| 0 <= i < |s'| && s'[i].partner == partner { assert i < |s| ==> s'[i] == s[i]; }
    }
  }

  // ---- what one event does

  /** Entries of one id take another and a status, and are otherwise as they were. Every other entry is as it was. */
  predicate Turned(before: seq<Entry>, after: seq<Entry>, id: EntryId, becomes: EntryId, status: Status) {
    && |after| == |before|
    && forall k | 0 <= k < |before| ::
         var e := before[k];
         after[k] == if e.id == id then Entry(becomes, e.from, e.body, e.timestamp, status, e.mine) else e
  }

  /** The id is held by this conversation, and by none before it. */
  predicate FirstHolder(s: Conversations, i: nat, id: EntryId) {
    i < |s| && Holds(s[i].msgs, id) && forall j | 0 <= j < i :: !Holds(s[j].msgs, id)
  }

  lemma TurnedWhere(s: Conversations, i: nat, q: UserId, msgs: seq<Entry>)
    requires PartnersDistinct(s) && i < |s|
    ensures Get(Put(s, s[i].partner, msgs), q) == if q == s[i].partner then msgs else Get(s, q)
    ensures Get(s, s[i].partner) == s[i].msgs
  {
    PutGets(s, q, s[i].partner, msgs);
    GetIs(s, s[i].partner);
  }

  /**
   A message is appended to its author's conversation as received and delivered. A `sent` gives the first holder's
   entry of the client id the row's id and `delivered`, a `read` makes the first holder's entries of the row read.
   Nothing else changes in any conversation.
   */
  lemma EventDoes(s: Conversations, p: Packet, q: UserId)
    requires PartnersDistinct(s)
    ensures var s' := Receive(s, p);
            match p
            case Message(m, from, body, ts) =>
              Get(s', q) == Get(s, q) + if q == from then [Entry(Row(m), from, body, ts, Delivered, false)] else []
            case SentAck(m, n) =>
              && (forall i: nat | FirstHolder(s, i, Local(n)) ::
                    if q == s[i].partner then Turned(Get(s, q), Get(s', q), Local(n), Row(m), Delivered)
                    else Get(s', q) == Get(s, q))
              && ((forall i | 0 <= i < |s| :: !Holds(s[i].msgs, Local(n))) ==> s' == s)
            case ReadNotice(m) =>
              && (forall i: nat | FirstHolder(s, i, Row(m)) ::
                    if q == s[i].partner then Turned(Get(s, q), Get(s', q), Row(m), Row(m), Read)
                    else Get(s', q) == Get(s, q))
              && ((forall i | 0 <= i < |s| :: !Holds(s[i].msgs, Row(m))) ==> s' == s)
            case Other(_) => s' == s
  {
    hide Get, Put;
    match p
    case Message(m, from, body, ts) =>
      PutGets(s, q, from, Get(s, from) + [Entry(Row(m), from, body, ts, Delivered, false)]);
      assert Get(s, q) + [] == Get(s, q);
    case SentAck(m, n) => ConfirmDoes(s, m, n, q);
    case ReadNotice(m) => ReadDoes(s, m, q);
    case Other(_) =>
  }

  lemma ConfirmDoes(s: Conversations, m: MsgId, n: nat, q: UserId)
    requires PartnersDistinct(s)
    ensures forall i: nat | FirstHolder(s, i, Local(n)) ::
              if q == s[i].partner then Turned(Get(s, q), Get(OnSent(s, n, m), q), Local(n), Row(m), Delivered)
              else Get(OnSent(s, n, m), q) == Get(s, q)
  {
    hide Get, Put, Holds;
    forall i: nat | FirstHolder(s, i, Local(n))
      ensures if q == s[i].partner then Turned(Get(s, q), Get(OnSent(s, n, m), q), Local(n), Row(m), Delivered)
              else Get(OnSent(s, n, m), q) == Get(s, q)
    {
      assert FirstWith(s, Local(n)) == i;
      var msgs := Get(s, s[i].partner);
      TurnedWhere(s, i, q, seq(|msgs|, k requires 0 <= k < |msgs| => Confirmed(msgs[k], Local(n), m)));
    }
  }

  lemma ReadDoes(s: Conversations, m: MsgId, q: UserId)
    requires PartnersDistinct(s)
    ensures forall i: nat | FirstHolder(s, i, Row(m)) ::
              if q == s[i].partner then Turned(Get(s, q), Get(OnRead(s, m), q), Row(m), Row(m), Read)
              else Get(OnRead(s, m), q) == Get(s, q)
  {
    hide Get, Put, Holds;
    forall i: nat | FirstHolder(s, i, Row(m))
      ensures if q == s[i].partner then Turned(Get(s, q), Get(OnRead(s, m), q), Row(m), Row(m), Read)
              else Get(OnRead(s, m), q) == Get(s, q)
    {
      assert FirstWith(s, Row(m)) == i;
      var msgs := Get(s, s[i].partner);
      TurnedWhere(s, i, q, seq(|msgs|, k requires 0 <= k < |msgs| => Updated(msgs[k], Row(m), Read)));
    }
  }

  /** A send appends the user's own unconfirmed entry to the partner's conversation, and to no other. */
  lemma SendDoes(c: Session, me: UserId, partner: UserId, n: nat, body: string, now: int, q: UserId)
    requires PartnersDistinct(c.store) && Fresh(c.store, n)
    ensures var c' := ClientStep(c, me, Sends(partner, n, body, now));
            && c' == c.(store := c'.store)
            && Get(c'.store, q)
               == Get(c.store, q) + if q == partner then [Entry(Local(n), me, body, now, Sent, true)] else []
  {
    hide Get, Put;
    PutGets(c.store, q, partner, Get(c.store, partner) + [Entry(Local(n), me, body, now, Sent, true)]);
    assert Get(c.store, q) + [] == Get(c.store, q);
  }

  // ---- repeated confirmations

  lemma ConfirmAt(s: Conversations, i: nat, n: nat, row: MsgId)
    requires PartnersDistinct(s) && i < |s|
    ensures var s' := ConfirmDMMessage(s, s[i].partner, Local(n), row);
            && |s'| == |s|
            && (forall j | 0 <= j < |s| && j != i :: s'[j] == s[j])
            && s'[i].partner == s[i].partner && |s'[i].msgs| == |s[i].msgs|
            && (forall k | 0 <= k < |s[i].msgs| :: s'[i].msgs[k] == Confirmed(s[i].msgs[k], Local(n), row))
            && !Holds(s'[i].msgs, Local(n))
  {
    PlaceOf(s, i);
  }

  /** A second `sent` for the same client id changes nothing exactly when only one conversation held it. */
  lemma RepeatedSentIffHeldOnce(s: Conversations, n: nat, row: MsgId, again: MsgId)
    requires PartnersDistinct(s)
    ensures OnSent(OnSent(s, n, row), n, again) == OnSent(s, n, row)
       <==> forall j | FirstWith(s, Local(n)) < j < |s| :: !Holds(s[j].msgs, Local(n))
  {
    var i := FirstWith(s, Local(n));
    if i < |s| {
      var s' := OnSent(s, n, row);
      ConfirmAt(s, i, n, row);
      forall j | 0 <= j < |s| && j != i ensures Holds(s'[j].msgs, Local(n)) <==> Holds(s[j].msgs, Local(n)) {}
      hide ConfirmDMMessage;
      var i' := FirstWith(s', Local(n));
      if i' < |s'| {
        assert i < i';
        SamePartners(s, s');
        ConfirmAt(s', i', n, again);
        assert OnSent(s', n, again)[i'] != s'[i'];
      }
    }
  }

  lemma SamePartners(s: Conversations, s': Conversations)
    requires PartnersDistinct(s) && |s'| == |s| && forall i | 0 <= i < |s| :: s'[i].partner == s[i].partner
    ensures PartnersDistinct(s')
  {}

  /** No client id is held by two conversations. */
  ghost predicate HeldOnce(s: Conversations) {
    forall n: nat, i, j | 0 <= i < j < |s| && Holds(s[i].msgs, Local(n)) :: !Holds(s[j].msgs, Local(n))
  }

  /** What an event may do to the client ids in use: only those in `added` appear, in one conversation. */
  predicate LocalsFrom(msgs: seq<Entry>, msgs': seq<Entry>) {
    forall k | 0 <= k < |msgs'| && msgs'[k].id.Local? :: Holds(msgs, msgs'[k].id)
  }

  ghost predicate NoNewLocals(s: Conversations, s': Conversations) {
    |s| <= |s'| && forall i | 0 <= i < |s'| :: LocalsFrom(if i < |s| then s[i].msgs else [], s'[i].msgs)
  }

  lemma NoNewKeepsOnce(s: Conversations, s': Conversations)
    requires HeldOnce(s) && NoNewLocals(s, s')
    ensures HeldOnce(s')
  {
    forall n: nat, i, j | 0 <= i < j < |s'| && Holds(s'[i].msgs, Local(n)) ensures !Holds(s'[j].msgs, Local(n)) {
      HeldBefore(s, s', i, n);
      HeldBefore(s, s', j, n);
    }
  }

  lemma HeldBefore(s: Conversations, s': Conversations, i: nat, n: nat)
    requires NoNewLocals(s, s') && i < |s'|
    ensures Holds(s'[i].msgs, Local(n)) ==> i < |s| && Holds(s[i].msgs, Local(n))
  {
    assert LocalsFrom(if i < |s| then s[i].msgs else [], s'[i].msgs);
  }

  lemma PutNoNewLocals(s: Conversations, partner: UserId, msgs: seq<Entry>)
    requires PartnersDistinct(s) && LocalsFrom(Get(s, partner), msgs)
    ensures NoNewLocals(s, Put(s, partner, msgs))
  {
    hide LocalsFrom, Get, Put;
    PutKeepsPartners(s, partner, msgs);
    GetIs(s, partner);
    GetIs(Put(s, partner, msgs), partner);
    forall i | 0 <= i < |Put(s, partner, msgs)|
      ensures LocalsFrom(if i < |s| then s[i].msgs else [], Put(s, partner, msgs)[i].msgs)
    {
      if i < |s| && s[i].partner != partner { LocalsSame(s[i].msgs); }
    }
  }

  lemma LocalsSame(msgs: seq<Entry>)
    ensures LocalsFrom(msgs, msgs)
  {}

  lemma NoNewTwice(a: Conversations, b: Conversations, c: Conversations)
    requires NoNewLocals(a, b) && NoNewLocals(b, c)
    ensures NoNewLocals(a, c)
  {
    forall i | 0 <= i < |c| ensures LocalsFrom(if i < |a| then a[i].msgs else [], c[i].msgs) {
      var x, y, z := if i < |a| then a[i].msgs else [], if i < |b| then b[i].msgs else [], c[i].msgs;
      assert LocalsFrom(y, z);
      assert i < |b| ==> LocalsFrom(x, y);
    }
  }

  lemma ReceiveNoNewLocals(s: Conversations, p: Packet)
    requires StoreOk(s)
    ensures NoNewLocals(s, Receive(s, p))
  {
    hide Put, Get, NoNewLocals;
    NothingNew(s);
    match p
    case Message(m, from, body, ts) =>
      PutNoNewLocals(s, from, Get(s, from) + [Entry(Row(m), from, body, ts, Delivered, false)]);
    case SentAck(m, n) =>
      var i := FirstWith(s, Local(n));
      if i < |s| {
        var msgs := Get(s, s[i].partner);
        PutNoNewLocals(s, s[i].partner, seq(|msgs|, k requires 0 <= k < |msgs| => Confirmed(msgs[k], Local(n), m)));
      }
    case ReadNotice(m) =>
      var i := FirstWith(s, Row(m));
      if i < |s| { UpdateNoNewLocals(s, s[i].partner, Row(m)); }
    case Other(_) =>
  }

  lemma NothingNew(s: Conversations)
    ensures NoNewLocals(s, s)
  {
    forall i | 0 <= i < |s| ensures LocalsFrom(s[i].msgs, s[i].msgs) { LocalsSame(s[i].msgs); }
  }

  lemma UpdateNoNewLocals(s: Conversations, partner: UserId, id: EntryId)
    requires StoreOk(s)
    ensures NoNewLocals(s, UpdateDMMessageStatus(s, partner, id, Read))
  {
    hide Put, Get, NoNewLocals;
    var msgs := Get(s, partner);
    PutNoNewLocals(s, partner, seq(|msgs|, k requires 0 <= k < |msgs| => Updated(msgs[k], id, Read)));
  }

  lemma {:induction false} AckNoNewLocals(c: Session, partner: UserId, msgs: seq<Entry>)
    requires StoreOk(c.store) && MsgsOk(msgs)
    ensures NoNewLocals(c.store, AckFrom(c, partner, msgs).store)
    decreases |msgs|
  {
    hide StoreOk, NoNewLocals, UpdateDMMessageStatus;
    NothingNew(c.store);
    if msgs != [] {
      var e := msgs[0];
      assert EntryOk(e);
      if Unread(e, c.acked) {
        var c1 := Acknowledged(c, partner, e.id);
        UpdateKeeps(c.store, partner, e.id);
        UpdateNoNewLocals(c.store, partner, e.id);
        AckNoNewLocals(c1, partner, msgs[1..]);
        NoNewTwice(c.store, c1.store, AckFrom(c, partner, msgs).store);
      } else {
        AckNoNewLocals(c, partner, msgs[1..]);
      }
    }
  }

  /** A fresh id enters one conversation. */
  lemma ComposeKeepsOnce(s: Conversations, me: UserId, partner: UserId, n: nat, body: string, now: int)
    requires StoreOk(s) && HeldOnce(s) && Fresh(s, n)
    ensures HeldOnce(Compose(s, me, partner, n, body, now))
  {
    var msgs, e := Get(s, partner), Entry(Local(n), me, body, now, Sent, true);
    var s' := Compose(s, me, partner, n, body, now);
    PutKeepsPartners(s, partner, msgs + [e]);
    GetIs(s, partner);
    GetIs(s', partner);
    hide Put, Get, Compose;
    forall l: nat, i | 0 <= i < |s'| && Holds(s'[i].msgs, Local(l))
      ensures if l == n then s'[i].partner == partner else i < |s| && Holds(s[i].msgs, Local(l))
    {
      if s'[i].partner == partner {
        assert s'[i].msgs == msgs + [e];
        var k :| 0 <= k < |s'[i].msgs| && s'[i].msgs[k].id == Local(l);
        assert l != n ==> k < |msgs| && msgs[k].id == Local(l);
        assert l != n ==> Holds(msgs, Local(l));
      } else {
        assert i < |s| && s'[i] == s[i];
      }
    }
  }

  lemma StepKeepsOnce(c: Session, me: UserId, e: ClientEvent)
    requires StoreOk(c.store) && HeldOnce(c.store)
    ensures HeldOnce(ClientStep(c, me, e).store)
  {
    hide HeldOnce, NoNewLocals, StoreOk, Receive;
    var s' := ClientStep(c, me, e).store;
    match e
    case Arrives(p) => ReceiveNoNewLocals(c.store, p); NoNewKeepsOnce(c.store, s');
    case Sends(partner, n, body, now) =>
      if Fresh(c.store, n) { ComposeKeepsOnce(c.store, me, partner, n, body, now); }
    case Shows(partner) =>
      GetOk(c.store, partner);
      AckNoNewLocals(c, partner, Get(c.store, partner));
      NoNewKeepsOnce(c.store, s');
    case Remounts =>
  }

  lemma {:induction false} RunKeepsOnce(c: Session, me: UserId, es: seq<ClientEvent>)
    requires StoreOk(c.store) && HeldOnce(c.store)
    ensures StoreOk(ClientRun(c, me, es).store) && HeldOnce(ClientRun(c, me, es).store)
    decreases |es|
  {
    hide StoreOk, HeldOnce, ClientStep;
    if es != [] {
      StepKeepsStore(c, me, es[0]);
      StepKeepsOnce(c, me, es[0]);
      RunKeepsOnce(ClientStep(c, me, es[0]), me, es[1..]);
    }
  }

  /** In every run, redelivering the `sent` event of a client id changes nothing. */
  lemma RepeatedSentIsNoOp(me: UserId, es: seq<ClientEvent>, n: nat, row: MsgId, again: MsgId)
    ensures var s := ClientRun(EMPTY_SESSION, me, es).store;
            OnSent(OnSent(s, n, row), n, again) == OnSent(s, n, row)
  {
    RunKeepsOnce(EMPTY_SESSION, me, es);
    var s := ClientRun(EMPTY_SESSION, me, es).store;
    hide ClientRun, OnSent;
    RepeatedSentIffHeldOnce(s, n, row, again);
    forall j | FirstWith(s, Local(n)) < j < |s| ensures !Holds(s[j].msgs, Local(n)) {
      assert Holds(s[FirstWith(s, Local(n))].msgs, Local(n));
    }
  }

  // ---- acknowledgements

  /** Since the window was mounted each id was acknowledged at most once, and exactly those ids are remembered. */
  predicate AcksOk(c: Session) {
    && c.mounted <= |c.acks|
    && (forall j, k | c.mounted <= j < k < |c.acks| :: c.acks[j] != c.acks[k])
    && c.acked == set id | id in c.acks[c.mounted..]
  }

  /** The ids a pass acknowledges. */
  function Acknowledges(msgs: seq<Entry>, acked: set<EntryId>): set<EntryId> {
    set k | 0 <= k < |msgs| && Unread(msgs[k], acked) :: msgs[k].id
  }

  /** One conversation with every entry of the named ids read. */
  predicate ReadExactly(msgs: seq<Entry>, msgs': seq<Entry>, ids: set<EntryId>) {
    && |msgs'| == |msgs|
    && forall k | 0 <= k < |msgs| :: msgs'[k] == if msgs[k].id in ids then msgs[k].(status := Read) else msgs[k]
  }

  lemma AcknowledgesRest(msgs: seq<Entry>, acked: set<EntryId>)
    requires msgs != []
    ensures var e := msgs[0];
            Acknowledges(msgs, acked) ==
              if Unread(e, acked) then {e.id} + Acknowledges(msgs[1..], acked + {e.id})
              else Acknowledges(msgs[1..], acked)
  {
    var e := msgs[0];
    var acked' := if Unread(e, acked) then acked + {e.id} else acked;
    forall id
      ensures id in Acknowledges(msgs, acked)
         <==> (Unread(e, acked) && id == e.id) || id in Acknowledges(msgs[1..], acked')
    {
      if k :| 0 <= k < |msgs| && Unread(msgs[k], acked) && msgs[k].id == id {
        assert k > 0 ==> msgs[1..][k - 1] == msgs[k];
      }
      if k :| 0 <= k < |msgs[1..]| && Unread(msgs[1..][k], acked') && msgs[1..][k].id == id {
        assert msgs[k + 1] == msgs[1..][k];
      }
      if Unread(e, acked) && id == e.id {
        assert msgs[0].id == id;
      }
    }
  }

  lemma UpdateReads(s: Conversations, partner: UserId, id: EntryId)
    requires PartnersDistinct(s)
    ensures var s' := UpdateDMMessageStatus(s, partner, id, Read);
            PartnersDistinct(s') && ReadExactly(Get(s, partner), Get(s', partner), {id})
  {
    var msgs := Get(s, partner);
    PutKeepsPartners(s, partner, seq(|msgs|, k requires 0 <= k < |msgs| => Updated(msgs[k], id, Read)));
  }

  lemma ReadTwice(a: seq<Entry>, b: seq<Entry>, c: seq<Entry>, x: set<EntryId>, y: set<EntryId>)
    requires ReadExactly(a, b, x) && ReadExactly(b, c, y)
    ensures ReadExactly(a, c, x + y)
  {}

  lemma AcknowledgedOk(c: Session, partner: UserId, id: EntryId)
    requires AcksOk(c) && id !in c.acked
    ensures AcksOk(Acknowledged(c, partner, id))
  {
    var acks' := c.acks + [id];
    assert acks'[c.mounted..] == c.acks[c.mounted..] + [id];
    forall j | c.mounted <= j < |c.acks| ensures c.acks[j] in c.acked {
      assert c.acks[j] == c.acks[c.mounted..][j - c.mounted];
    }
    hide UpdateDMMessageStatus;
  }

  /** A pass acknowledges each unread id of the rendered messages once, and marks exactly those ids read. */
  lemma {:induction false} AckFromExactly(c: Session, partner: UserId, msgs: seq<Entry>)
    requires AcksOk(c) && PartnersDistinct(c.store)
    ensures var c' := AckFrom(c, partner, msgs);
            && AcksOk(c') && c.acks <= c'.acks && c'.mounted == c.mounted
            && c'.acked == c.acked + Acknowledges(msgs, c.acked)
            && (forall id :: id in c'.acks[|c.acks|..] <==> id in Acknowledges(msgs, c.acked))
            && ReadExactly(Get(c.store, partner), Get(c'.store, partner), Acknowledges(msgs, c.acked))
    decreases |msgs|
  {
    hide PartnersDistinct, Get, UpdateDMMessageStatus, Acknowledges, ReadExactly, AcksOk;
    if msgs == [] {
      NothingToAcknowledge(Get(c.store, partner), c.acked);
    } else {
      var e := msgs[0];
      AcknowledgesRest(msgs, c.acked);
      if Unread(e, c.acked) {
        var c1 := Acknowledged(c, partner, e.id);
        AcknowledgedOk(c, partner, e.id);
        UpdateReads(c.store, partner, e.id);
        AckFromExactly(c1, partner, msgs[1..]);
        var c' := AckFrom(c, partner, msgs);
        assert c'.acks[|c.acks|..] == [e.id] + c'.acks[|c1.acks|..];
        ReadTwice(Get(c.store, partner), Get(c1.store, partner), Get(c'.store, partner),
                  {e.id}, Acknowledges(msgs[1..], c1.acked));
      } else {
        AckFromExactly(c, partner, msgs[1..]);
      }
    }
  }

  lemma NothingToAcknowledge(msgs: seq<Entry>, acked: set<EntryId>)
    ensures Acknowledges([], acked) == {} && ReadExactly(msgs, msgs, {})
  {}

  /**
   After a pass over a conversation, a received entry is read exactly when it was read before or its id had
   not been acknowledged since the window was mounted.
   */
  lemma PassReadsIffNotAcked(c: Session, partner: UserId, k: nat)
    requires AcksOk(c) && StoreOk(c.store)
    requires k < |Get(c.store, partner)| && !Get(c.store, partner)[k].mine
    ensures var e, msgs' := Get(c.store, partner)[k], Get(AckPass(c, partner).store, partner);
            && k < |msgs'|
            && (msgs'[k].status == Read <==> e.status == Read || e.id !in c.acks[c.mounted..])
  {
    var msgs := Get(c.store, partner);
    AckFromExactly(c, partner, msgs);
    hide Get, AckFrom;
    if Unread(msgs[k], c.acked) {
      assert msgs[k].id in Acknowledges(msgs, c.acked);
    }
  }

  /** A received copy of the id that is not read. */
  predicate UnreadCopy(e: Entry, id: EntryId) {
    !e.mine && e.status != Read && e.id == id
  }

  /**
   Exactly when a pass acknowledges an id: the conversation holds an unread copy of it, and it was not
   acknowledged since the window was mounted. So an id acknowledged before is acknowledged again exactly
   if the window was mounted anew in between and an unread copy is shown.
   */
  lemma AckedAgainIff(c: Session, partner: UserId, id: EntryId)
    requires AcksOk(c) && StoreOk(c.store)
    ensures var msgs, c' := Get(c.store, partner), AckPass(c, partner);
            && c.acks <= c'.acks
            && (id in c'.acks[|c.acks|..] <==>
                  id !in c.acks[c.mounted..] && exists k :: 0 <= k < |msgs| && UnreadCopy(msgs[k], id))
  {
    var msgs := Get(c.store, partner);
    AckFromExactly(c, partner, msgs);
    hide Get, AckFrom;
    if k :| 0 <= k < |msgs| && UnreadCopy(msgs[k], id) {
      if id !in c.acks[c.mounted..] {
        assert Unread(msgs[k], c.acked) && msgs[k].id in Acknowledges(msgs, c.acked);
      }
    }
    if id in Acknowledges(msgs, c.acked) {
      var k :| 0 <= k < |msgs| && Unread(msgs[k], c.acked) && msgs[k].id == id;
      assert UnreadCopy(msgs[k], id);
    }
  }

  lemma StepAcks(c: Session, me: UserId, e: ClientEvent)
    requires AcksOk(c) && StoreOk(c.store)
    ensures AcksOk(ClientStep(c, me, e)) && c.acks <= ClientStep(c, me, e).acks
    ensures !e.Remounts? ==> ClientStep(c, me, e).mounted == c.mounted && c.acked <= ClientStep(c, me, e).acked
  {
    hide StoreOk, Receive, AcksOk;
    match e
    case Arrives(_) => SameAcks(c, ClientStep(c, me, e));
    case Sends(_, _, _, _) => SameAcks(c, ClientStep(c, me, e));
    case Shows(partner) =>
      assert PartnersDistinct(c.store) by { StoreHasDistinct(c.store); }
      AckFromExactly(c, partner, Get(c.store, partner));
    case Remounts => NothingRemembered(c);
  }

  lemma NothingRemembered(c: Session)
    ensures AcksOk(c.(acked := {}, mounted := |c.acks|))
  {}

  lemma StoreHasDistinct(s: Conversations)
    requires StoreOk(s)
    ensures PartnersDistinct(s)
  {}

  lemma SameAcks(c: Session, c': Session)
    requires AcksOk(c) && c'.acks == c.acks && c'.acked == c.acked && c'.mounted == c.mounted
    ensures AcksOk(c')
  {}

  /** Over any run, no id is acknowledged twice while the window stays mounted, whatever is redelivered. */
  lemma {:induction false} AckedOncePerMounting(c: Session, me: UserId, es: seq<ClientEvent>)
    requires AcksOk(c) && StoreOk(c.store)
    ensures AcksOk(ClientRun(c, me, es)) && c.acks <= ClientRun(c, me, es).acks
    decreases |es|
  {
    hide StoreOk, AcksOk, ClientStep;
    if es != [] {
      StepKeepsStore(c, me, es[0]);
      StepAcks(c, me, es[0]);
      AckedOncePerMounting(ClientStep(c, me, es[0]), me, es[1..]);
    }
  }

  // ---- a copy redelivered after its acknowledgement

  /** The entry at a place, while nothing touches it. */
  predicate Stands(s: Conversations, i: nat, k: nat, e: Entry) {
    i < |s| && k < |s[i].msgs| && s[i].msgs[k] == e
  }

  lemma PutStands(s: Conversations, partner: UserId, msgs: seq<Entry>, i: nat, k: nat, e: Entry)
    requires PartnersDistinct(s) && Stands(s, i, k, e)
    requires forall j | 0 <= j < |Get(s, partner)| && Get(s, partner)[j] == e :: j < |msgs| && msgs[j] == e
    ensures Stands(Put(s, partner, msgs), i, k, e)
  {
    hide Get, Put;
    PutKeepsPartners(s, partner, msgs);
    GetIs(s, partner);
    GetIs(Put(s, partner, msgs), partner);
  }

  lemma UpdateStands(s: Conversations, partner: UserId, id: EntryId, i: nat, k: nat, e: Entry)
    requires PartnersDistinct(s) && Stands(s, i, k, e) && id != e.id
    ensures Stands(UpdateDMMessageStatus(s, partner, id, Read), i, k, e)
  {
    hide Get, Put, Stands;
    var msgs := Get(s, partner);
    PutStands(s, partner, seq(|msgs|, j requires 0 <= j < |msgs| => Updated(msgs[j], id, Read)), i, k, e);
  }

  lemma ReceiveStands(s: Conversations, p: Packet, i: nat, k: nat, e: Entry)
    requires PartnersDistinct(s) && Stands(s, i, k, e) && e.id.Row? && p != ReadNotice(e.id.m)
    ensures Stands(Receive(s, p), i, k, e)
  {
    hide Get, Put, Stands;
    match p
    case Message(m, from, body, ts) =>
      PutStands(s, from, Get(s, from) + [Entry(Row(m), from, body, ts, Delivered, false)], i, k, e);
    case SentAck(m, n) =>
      var j := FirstWith(s, Local(n));
      if j < |s| {
        var msgs := Get(s, s[j].partner);
        PutStands(s, s[j].partner, seq(|msgs|, l requires 0 <= l < |msgs| => Confirmed(msgs[l], Local(n), m)), i, k, e);
      }
    case ReadNotice(m) =>
      var j := FirstWith(s, Row(m));
      if j < |s| { UpdateStands(s, s[j].partner, Row(m), i, k, e); }
    case Other(_) =>
  }

  /** No entry of the id is up for acknowledgement. */
  predicate NoneUnread(msgs: seq<Entry>, id: EntryId, acked: set<EntryId>) {
    forall k | 0 <= k < |msgs| && msgs[k].id == id :: !Unread(msgs[k], acked)
  }

  lemma {:induction false} AckStands(c: Session, partner: UserId, msgs: seq<Entry>, i: nat, k: nat, e: Entry)
    requires StoreOk(c.store) && MsgsOk(msgs) && Stands(c.store, i, k, e) && NoneUnread(msgs, e.id, c.acked)
    ensures Stands(AckFrom(c, partner, msgs).store, i, k, e)
    decreases |msgs|
  {
    hide StoreOk, UpdateDMMessageStatus, Stands, MsgsOk, NoneUnread;
    if msgs != [] {
      var x := msgs[0];
      assert MsgsOk(msgs[1..]) && EntryOk(x) by { RestOk(msgs); }
      if Unread(x, c.acked) {
        FirstRead(msgs, e.id, c.acked);
        var c1 := Acknowledged(c, partner, x.id);
        UpdateKeeps(c.store, partner, x.id);
        assert PartnersDistinct(c.store) by { StoreHasDistinct(c.store); }
        UpdateStands(c.store, partner, x.id, i, k, e);
        RestRead(msgs, e.id, c.acked, c1.acked);
        AckStands(c1, partner, msgs[1..], i, k, e);
      } else {
        RestRead(msgs, e.id, c.acked, c.acked);
        AckStands(c, partner, msgs[1..], i, k, e);
      }
    }
  }

  lemma FirstRead(msgs: seq<Entry>, id: EntryId, acked: set<EntryId>)
    requires msgs != [] && NoneUnread(msgs, id, acked) && Unread(msgs[0], acked)
    ensures msgs[0].id != id
  {}

  lemma RestRead(msgs: seq<Entry>, id: EntryId, acked: set<EntryId>, acked': set<EntryId>)
    requires msgs != [] && NoneUnread(msgs, id, acked) && acked <= acked'
    ensures NoneUnread(msgs[1..], id, acked')
  {}

  lemma RestOk(msgs: seq<Entry>)
    requires msgs != [] && MsgsOk(msgs)
    ensures MsgsOk(msgs[1..]) && EntryOk(msgs[0])
  {}

  /** Nothing but a `read` notice, or a pass that finds the id unread, touches a stored entry of a row. */
  lemma StepStands(c: Session, me: UserId, ev: ClientEvent, i: nat, k: nat, e: Entry)
    requires StoreOk(c.store) && Stands(c.store, i, k, e) && e.id.Row? && ev != Arrives(ReadNotice(e.id.m))
    requires ev.Shows? ==> NoneUnread(Get(c.store, ev.partner), e.id, c.acked)
    ensures Stands(ClientStep(c, me, ev).store, i, k, e)
  {
    StoreHasDistinct(c.store);
    hide StoreOk, Stands, Get, Put, Receive;
    match ev
    case Arrives(p) => ReceiveStands(c.store, p, i, k, e);
    case Sends(partner, n, body, now) =>
      PutStands(c.store, partner, Get(c.store, partner) + [Entry(Local(n), me, body, now, Sent, true)], i, k, e);
    case Shows(partner) =>
      GetOk(c.store, partner);
      AckStands(c, partner, Get(c.store, partner), i, k, e);
    case Remounts =>
  }

  lemma AckedNoneUnread(msgs: seq<Entry>, id: EntryId, acked: set<EntryId>)
    requires id in acked
    ensures NoneUnread(msgs, id, acked)
  {}

  /**
   A copy of an acknowledged message stays as it was delivered through any run in which the window stays
   mounted and no `read` notice names it.
   */
  lemma {:induction false} RedeliveredStaysUnread(c: Session, me: UserId, es: seq<ClientEvent>, i: nat, k: nat,
                                                  e: Entry)
    requires AcksOk(c) && StoreOk(c.store) && Stands(c.store, i, k, e) && e.id.Row? && e.id in c.acked
    requires Remounts !in es && Arrives(ReadNotice(e.id.m)) !in es
    ensures Stands(ClientRun(c, me, es).store, i, k, e)
    decreases |es|
  {
    hide StoreOk, AcksOk, Stands, ClientStep, Get;
    if es != [] {
      if es[0].Shows? { AckedNoneUnread(Get(c.store, es[0].partner), e.id, c.acked); }
      StepStands(c, me, es[0], i, k, e);
      StepKeepsStore(c, me, es[0]);
      StepAcks(c, me, es[0]);
      RedeliveredStaysUnread(ClientStep(c, me, es[0]), me, es[1..], i, k, e);
    }
  }

  /** The copy a redelivery adds. */
  lemma RedeliveredStands(s: Conversations, from: UserId, row: MsgId, body: string, ts: int)
    requires PartnersDistinct(s)
    ensures var s' := OnMessage(s, from, row, body, ts);
            Stands(s', Place(s', from), |Get(s, from)|, Entry(Row(row), from, body, ts, Delivered, false))
  {
    var e := Entry(Row(row), from, body, ts, Delivered, false);
    PutKeepsPartners(s, from, Get(s, from) + [e]);
  }

  /** So a redelivery of an acknowledged message adds a copy that stays `delivered` while the window stays mounted. */
  lemma RedeliveredCopyStays(c: Session, me: UserId, from: UserId, row: MsgId, body: string, ts: int,
                             es: seq<ClientEvent>)
    requires AcksOk(c) && StoreOk(c.store) && Row(row) in c.acked
    requires Remounts !in es && Arrives(ReadNotice(row)) !in es
    ensures var s := ClientRun(c, me, [Arrives(Message(row, from, body, ts))] + es).store;
            Stands(s, Place(OnMessage(c.store, from, row, body, ts), from), |Get(c.store, from)|,
                   Entry(Row(row), from, body, ts, Delivered, false))
  {
    var e := Arrives(Message(row, from, body, ts));
    StoreHasDistinct(c.store);
    RedeliveredStands(c.store, from, row, body, ts);
    StepKeepsStore(c, me, e);
    StepAcks(c, me, e);
    assert ([e] + es)[1..] == es;
    hide StoreOk, AcksOk, Stands, OnMessage, Get, Place;
    RedeliveredStaysUnread(ClientStep(c, me, e), me, es, Place(OnMessage(c.store, from, row, body, ts), from),
                           |Get(c.store, from)|, Entry(Row(row), from, body, ts, Delivered, false));
  }

  lemma OnlyConversation(p: UserId, msgs: seq<Entry>, msgs': seq<Entry>)
    ensures Get([], p) == [] && Put([], p, msgs) == [Conversation(p, msgs)]
    ensures var s := [Conversation(p, msgs)];
            Get(s, p) == msgs && Put(s, p, msgs') == [Conversation(p, msgs')]
  {
    var s := [Conversation(p, msgs)];
    assert s[..0] == [];
    assert Place(s, p) == 0;
  }

  lemma OneAck(c: Session, p: UserId, front: seq<Entry>, e: Entry)
    requires c.store == [Conversation(p, front + [e])]
    requires forall k | 0 <= k < |front| :: front[k].id == e.id && front[k].status == Read
    ensures Acknowledged(c, p, e.id)
         == c.(store := [Conversation(p, front + [e.(status := Read)])], acked := c.acked + {e.id},
               acks := c.acks + [e.id])
  {
    var msgs := front + [e];
    var read := seq(|msgs|, k requires 0 <= k < |msgs| => Updated(msgs[k], e.id, Read));
    assert read == front + [e.(status := Read)];
    OnlyConversation(p, msgs, read);
    hide Get, Put;
  }

  /** A run in which one message is acknowledged twice: shown, redelivered, and shown again after a remount. */
  lemma RemountAcknowledgesAgain(me: UserId, from: UserId, row: MsgId, body: string, ts: int)
    ensures var copy := Arrives(Message(row, from, body, ts));
            ClientRun(EMPTY_SESSION, me, [copy, Shows(from), copy, Remounts, Shows(from)]).acks == [Row(row), Row(row)]
  {
    var copy := Arrives(Message(row, from, body, ts));
    var e := Entry(Row(row), from, body, ts, Delivered, false);
    var r := e.(status := Read);
    var c1 := EMPTY_SESSION.(store := [Conversation(from, [e])]);
    var c2 := Session([Conversation(from, [r])], {e.id}, [e.id], 0);
    var c3 := c2.(store := [Conversation(from, [r, e])]);
    var c4 := c3.(acked := {}, mounted := 1);
    assert ClientStep(EMPTY_SESSION, me, copy) == c1 by { OnlyConversation(from, [e], []); assert [] + [e] == [e]; }
    assert ClientStep(c1, me, Shows(from)) == c2 by { OneShown(c1, from, e); }
    assert ClientStep(c2, me, copy) == c3 by { OnlyConversation(from, [r], [r, e]); assert [r] + [e] == [r, e]; }
    assert ClientStep(c3, me, Remounts) == c4;
    TwoShown(c4, from, e);
    hide ClientStep, AckPass;
    FiveEvents(EMPTY_SESSION, me, [copy, Shows(from), copy, Remounts, Shows(from)]);
    assert ClientStep(c4, me, Shows(from)) == AckPass(c4, from) by { ShowsIs(c4, me, from); }
  }

  lemma ShowsIs(c: Session, me: UserId, p: UserId)
    ensures ClientStep(c, me, Shows(p)) == AckPass(c, p)
  {}

  lemma FiveEvents(c: Session, me: UserId, es: seq<ClientEvent>)
    requires |es| == 5
    ensures ClientRun(c, me, es)
         == ClientStep(ClientStep(ClientStep(ClientStep(ClientStep(c, me, es[0]), me, es[1]), me, es[2]), me, es[3]),
                       me, es[4])
  {
    hide ClientStep;
    assert es[1..][1..] == es[2..] && es[2..][1..] == es[3..] && es[3..][1..] == es[4..] && es[4..][1..] == [];
    assert ClientRun(c, me, es) == ClientRun(ClientStep(ClientStep(c, me, es[0]), me, es[1]), me, es[2..]);
    var d := ClientStep(ClientStep(c, me, es[0]), me, es[1]);
    var x := ClientStep(ClientStep(d, me, es[2]), me, es[3]);
    assert ClientRun(d, me, es[2..]) == ClientRun(x, me, es[4..]);
    assert ClientRun(x, me, es[4..]) == ClientRun(ClientStep(x, me, es[4]), me, []);
  }

  lemma OneShown(c: Session, from: UserId, e: Entry)
    requires c == Session([Conversation(from, [e])], {}, [], 0) && e.id.Row? && !e.mine && e.status == Delivered
    ensures AckPass(c, from) == Session([Conversation(from, [e.(status := Read)])], {e.id}, [e.id], 0)
  {
    OnlyConversation(from, [e], []);
    assert [] + [e] == [e] && [] + [e.(status := Read)] == [e.(status := Read)];
    OneAck(c, from, [], e);
    hide Get, Acknowledged;
    assert {} + {e.id} == {e.id} && [] + [e.id] == [e.id];
    assert AckFrom(c, from, [e]) == AckFrom(Acknowledged(c, from, e.id), from, [e][1..]);
    assert [e][1..] == [];
  }

  lemma TwoShown(c: Session, from: UserId, e: Entry)
    requires c == Session([Conversation(from, [e.(status := Read), e])], {}, [e.id], 1)
    requires e.id.Row? && !e.mine && e.status == Delivered
    ensures AckPass(c, from).acks == [e.id, e.id]
  {
    var r := e.(status := Read);
    OnlyConversation(from, [r, e], []);
    assert [r] + [e] == [r, e];
    OneAck(c, from, [r], e);
    hide Get, Acknowledged;
    assert [r, e][1..] == [e] && [e][1..] == [];
    assert AckFrom(c, from, [r, e]) == AckFrom(c, from, [e]);
    assert AckFrom(c, from, [e]) == AckFrom(Acknowledged(c, from, e.id), from, [e][1..]);
    assert [e.id] + [e.id] == [e.id, e.id];
  }
}
