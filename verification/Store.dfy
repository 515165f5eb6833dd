/**
 The browser's store of direct messages as a value. Conversations stand in the order of their first use,
 the order in which the keys of the store's object are listed.
 */
module Store {
  import opened ChatTypes

  /** Client-generated and server-generated ids never coincide. */
  datatype EntryId = Local(n: nat) | Row(m: MsgId)

  datatype Entry = Entry(id: EntryId, from: UserId, body: string, timestamp: int, status: Status, mine: bool)

  datatype Conversation = Conversation(partner: UserId, msgs: seq<Entry>)

  type Conversations = seq<Conversation>

  /** Keys of an object are unique. */
  predicate PartnersDistinct(s: Conversations) {
    forall i, j | 0 <= i < j < |s| :: s[i].partner != s[j].partner
  }

  /** The place of a partner's conversation, or |s|. */
  function Place(s: Conversations, partner: UserId): (i: nat)
    ensures i <= |s| && (i < |s| ==> s[i].partner == partner)
    ensures forall j | 0 <= j < i :: s[j].partner != partner
  {
    if s == [] then 0
    else
      var i := Place(s[..|s| - 1], partner);
      if i < |s| - 1 || s[|s| - 1].partner == partner then i else |s|
  }

  function Get(s: Conversations, partner: UserId): seq<Entry> {
    var i := Place(s, partner);
    if i < |s| then s[i].msgs else []
  }

  function Put(s: Conversations, partner: UserId, msgs: seq<Entry>): Conversations {
    var i := Place(s, partner);
    if i < |s| then s[i := Conversation(partner, msgs)] else s + [Conversation(partner, msgs)]
  }

  // ---- the reducers

  function AddDMMessage(s: Conversations, partner: UserId, e: Entry): Conversations {
    Put(s, partner, Get(s, partner) + [e])
  }

  function Confirmed(e: Entry, id: EntryId, row: MsgId): Entry {
    if e.id == id then e.(id := Row(row), status := Delivered) else e
  }

  function ConfirmDMMessage(s: Conversations, partner: UserId, id: EntryId, row: MsgId): Conversations {
    var msgs := Get(s, partner);
    Put(s, partner, seq(|msgs|, k requires 0 <= k < |msgs| => Confirmed(msgs[k], id, row)))
  }

  function Updated(e: Entry, id: EntryId, status: Status): Entry {
    if e.id == id then e.(status := status) else e
  }

  function UpdateDMMessageStatus(s: Conversations, partner: UserId, id: EntryId, status: Status): Conversations {
    var msgs := Get(s, partner);
    Put(s, partner, seq(|msgs|, k requires 0 <= k < |msgs| => Updated(msgs[k], id, status)))
  }

  // ---- searches

  predicate Holds(msgs: seq<Entry>, id: EntryId) {
    exists k | 0 <= k < |msgs| :: msgs[k].id == id
  }

  /** The first conversation that holds the id, or |s|. */
  function FirstWith(s: Conversations, id: EntryId): (i: nat)
    ensures i <= |s| && (i < |s| ==> Holds(s[i].msgs, id))
    ensures forall j | 0 <= j < i :: !Holds(s[j].msgs, id)
  {
    if s == [] then 0
    else
      var i := FirstWith(s[..|s| - 1], id);
      if i < |s| - 1 || Holds(s[|s| - 1].msgs, id) then i else |s|
  }

  // ---- events

  /** The `message` event of the socket. */
  function OnMessage(s: Conversations, from: UserId, row: MsgId, body: string, timestamp: int): Conversations {
    AddDMMessage(s, from, Entry(Row(row), from, body, timestamp, Delivered, false))
  }

  /** The `sent` event: the first conversation that holds the client id. */
  function OnSent(s: Conversations, n: nat, row: MsgId): Conversations {
    var i := FirstWith(s, Local(n));
    if i < |s| then ConfirmDMMessage(s, s[i].partner, Local(n), row) else s
  }

  /** The `read` event: the first conversation that holds the row. */
  function OnRead(s: Conversations, row: MsgId): Conversations {
    var i := FirstWith(s, Row(row));
    if i < |s| then UpdateDMMessageStatus(s, s[i].partner, Row(row), Read) else s
  }

  function Receive(s: Conversations, p: Packet): Conversations {
    match p
    case Message(m, from, body, ts) => OnMessage(s, from, m, body, ts)
    case SentAck(m, n) => OnSent(s, n, m)
    case ReadNotice(m) => OnRead(s, m)
    case Other(_) => s
  }

  /** An optimistic send of the user `me`. */
  function Compose(s: Conversations, me: UserId, partner: UserId, n: nat, body: string, now: int): Conversations {
    AddDMMessage(s, partner, Entry(Local(n), me, body, now, Sent, true))
  }

  // ---- facts about single places

  lemma PlaceOf(s: Conversations, i: nat)
    requires PartnersDistinct(s) && i < |s|
    ensures Place(s, s[i].partner) == i
  {}

  lemma PutKeepsPartners(s: Conversations, partner: UserId, msgs: seq<Entry>)
    requires PartnersDistinct(s)
    ensures PartnersDistinct(Put(s, partner, msgs))
    ensures |s| <= |Put(s, partner, msgs)|
    ensures forall i | 0 <= i < |s| :: Put(s, partner, msgs)[i].partner == s[i].partner
    ensures forall i | 0 <= i < |s| && s[i].partner != partner :: Put(s, partner, msgs)[i] == s[i]
    ensures forall i | |s| <= i < |Put(s, partner, msgs)| :: Put(s, partner, msgs)[i] == Conversation(partner, msgs)
    ensures Get(Put(s, partner, msgs), partner) == msgs
  {}
}
