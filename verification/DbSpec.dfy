/** The chats, chat_members and messages tables as a value. Choices the SQL engine makes are parameters. */
module DbSpec {
  import opened ChatTypes

  const PENDING_LIMIT: nat := 100

  datatype Row = Row(chat: ChatId, sender: UserId, body: string, status: Status, createdAt: int)

  datatype Db = Db(chatCount: nat, members: set<(ChatId, UserId)>, rows: seq<Row>)

  const EMPTY_DB := Db(0, {}, [])

  /** The self-join on chat_members, before LIMIT 1. */
  function Matches(db: Db, a: UserId, b: UserId): set<ChatId> {
    set c: ChatId | c < db.chatCount && (c, a) in db.members && (c, b) in db.members
  }

  function MembersOf(db: Db, c: ChatId): set<UserId> {
    set m | m in db.members && m.0 == c :: m.1
  }

  predicate IsPair(db: Db, c: ChatId, a: UserId, b: UserId) {
    a != b && MembersOf(db, c) == {a, b}
  }

  ghost predicate HasTwoMembers(db: Db, c: ChatId) {
    exists a, b :: IsPair(db, c, a, b)
  }

  datatype Lookup = Found(db: Db, chat: ChatId) | DuplicateMember

  predicate ValidPick(db: Db, a: UserId, b: UserId, pick: ChatId) {
    Matches(db, a, b) == {} || pick in Matches(db, a, b)
  }

  function CreateChat(db: Db, a: UserId, b: UserId): Lookup {
    if a == b then DuplicateMember  // the second member row breaks the primary key, so the transaction rolls back
    else Found(Db(db.chatCount + 1, db.members + {(db.chatCount, a), (db.chatCount, b)}, db.rows), db.chatCount)
  }

  /** `pick` is the row LIMIT 1 keeps. */
  function FindOrCreateChat(db: Db, a: UserId, b: UserId, pick: ChatId): Lookup {
    if Matches(db, a, b) != {} then Found(db, pick) else CreateChat(db, a, b)
  }

  function InsertMessage(db: Db, chat: ChatId, sender: UserId, body: string, now: int): Db {
    db.(rows := db.rows + [Row(chat, sender, body, Sent, now)])
  }

  /** An unconditional write. An id of no row updates nothing and is no error. */
  function UpdateStatus(db: Db, m: MsgId, status: Status): Db {
    if 0 <= m < |db.rows| then db.(rows := db.rows[m := db.rows[m].(status := status)]) else db
  }

  predicate IsPending(db: Db, user: UserId, m: MsgId) {
    && 0 <= m < |db.rows|
    && (db.rows[m].chat, user) in db.members
    && db.rows[m].sender != user
    && db.rows[m].status == Sent
  }

  function Pending(db: Db, user: UserId): set<MsgId> {
    set m: MsgId | 0 <= m < |db.rows| && IsPending(db, user, m)
  }

  predicate Distinct<T(==)>(s: seq<T>) {
    forall j, k | 0 <= j < k < |s| :: s[j] != s[k]
  }

  predicate ValidIds(db: Db, ms: seq<MsgId>) {
    forall j | 0 <= j < |ms| :: 0 <= ms[j] < |db.rows|
  }

  /** ORDER BY created_at ASC. Rows with equal times may come in any order. */
  predicate Ascending(db: Db, ms: seq<MsgId>)
    requires ValidIds(db, ms)
  {
    forall j, k | 0 <= j < k < |ms| :: db.rows[ms[j]].createdAt <= db.rows[ms[k]].createdAt
  }

  /** A result the pending query may return: the oldest hundred pending rows, in order. */
  ghost predicate IsPendingBatch(db: Db, user: UserId, batch: seq<MsgId>) {
    && (forall j | 0 <= j < |batch| :: IsPending(db, user, batch[j]))
    && Distinct(batch)
    && Ascending(db, batch)
    && |batch| == Min(PENDING_LIMIT, |Pending(db, user)|)
    && (forall m, j | IsPending(db, user, m) && m !in batch && 0 <= j < |batch| ::
          db.rows[batch[j]].createdAt <= db.rows[m].createdAt)
  }

  lemma BatchFits(db: Db, user: UserId, batch: seq<MsgId>)
    requires IsPendingBatch(db, user, batch)
    ensures ValidIds(db, batch) && |batch| <= PENDING_LIMIT
  {
    forall j | 0 <= j < |batch| ensures 0 <= batch[j] < |db.rows| {
      assert IsPending(db, user, batch[j]);
    }
  }

  /** The packet is a copy of the stored message: its author, text and time are the row's. */
  predicate IsCopy(rows: seq<Row>, p: Packet) {
    && p.Message? && 0 <= p.mid < |rows|
    && p.from == rows[p.mid].sender && p.body == rows[p.mid].body && p.timestamp == rows[p.mid].createdAt
  }

  /** The packet a row is sent as, on first delivery and on replay alike. */
  function PacketOf(db: Db, m: MsgId): Packet
    requires 0 <= m < |db.rows|
  {
    Message(m, db.rows[m].sender, db.rows[m].body, db.rows[m].createdAt)
  }

  /** What the tables keep under every interleaving, racing lookups included. */
  ghost predicate DbOk(db: Db) {
    && (forall m | m in db.members :: m.0 < db.chatCount)
    && (forall c: ChatId | c < db.chatCount :: HasTwoMembers(db, c))
    && (forall k | 0 <= k < |db.rows| :: (db.rows[k].chat, db.rows[k].sender) in db.members)
  }

  /** What they keep besides when each lookup is one step. */
  ghost predicate OneChatPerPair(db: Db) {
    forall c: ChatId, d: ChatId | c < db.chatCount && d < db.chatCount && MembersOf(db, c) == MembersOf(db, d) :: c == d
  }

  lemma MemberIff(db: Db, c: ChatId, u: UserId)
    ensures u in MembersOf(db, c) <==> (c, u) in db.members
  {
    if (c, u) in db.members {
      assert (c, u).1 in MembersOf(db, c);
    }
  }

  /** In a chat of two members, a member other than the sender is the receiver. */
  lemma OtherMember(db: Db, c: ChatId, a: UserId, b: UserId)
    requires DbOk(db) && a != b && (c, a) in db.members && (c, b) in db.members
    ensures MembersOf(db, c) == {a, b}
  {
    MemberIff(db, c, a);
    MemberIff(db, c, b);
    assert (c, a).0 < db.chatCount;
    assert HasTwoMembers(db, c);
    var x, y :| IsPair(db, c, x, y);
  }

  lemma CreateKeepsTables(db: Db, a: UserId, b: UserId)
    requires DbOk(db) && a != b
    ensures DbOk(CreateChat(db, a, b).db)
    ensures MembersOf(CreateChat(db, a, b).db, db.chatCount) == {a, b}
    ensures forall c: ChatId | c < db.chatCount :: MembersOf(CreateChat(db, a, b).db, c) == MembersOf(db, c)
  {
    var n := db.chatCount;
    var db' := CreateChat(db, a, b).db;
    forall u ensures u in MembersOf(db', n) <==> u in {a, b} {
      MemberIff(db', n, u);
      assert (n, u) !in db.members;
    }
    assert IsPair(db', n, a, b);
    forall c: ChatId | c < n ensures MembersOf(db', c) == MembersOf(db, c) {
      forall u ensures u in MembersOf(db', c) <==> u in MembersOf(db, c) {
        MemberIff(db', c, u);
        MemberIff(db, c, u);
      }
    }
    forall c: ChatId | c < db'.chatCount ensures HasTwoMembers(db', c) {
      if c < n {
        assert HasTwoMembers(db, c);
        var x, y :| IsPair(db, c, x, y);
        assert IsPair(db', c, x, y);
      }
    }
  }

  lemma InsertKeepsTables(db: Db, chat: ChatId, sender: UserId, body: string, now: int)
    requires DbOk(db) && (chat, sender) in db.members
    ensures DbOk(InsertMessage(db, chat, sender, body, now))
  {
    SameMembers(db, InsertMessage(db, chat, sender, body, now));
  }

  lemma UpdateKeepsTables(db: Db, m: MsgId, status: Status)
    requires DbOk(db)
    ensures DbOk(UpdateStatus(db, m, status))
  {
    SameMembers(db, UpdateStatus(db, m, status));
  }

  lemma SameMembers(db: Db, db': Db)
    requires DbOk(db) && db'.members == db.members && db'.chatCount == db.chatCount
    ensures forall c: ChatId | c < db.chatCount :: HasTwoMembers(db', c)
    ensures OneChatPerPair(db) ==> OneChatPerPair(db')
  {
    forall c: ChatId ensures MembersOf(db', c) == MembersOf(db, c) {}
    forall c: ChatId | c < db.chatCount ensures HasTwoMembers(db', c) {
      assert HasTwoMembers(db, c);
      var a, b :| IsPair(db, c, a, b);
      assert IsPair(db', c, a, b);
    }
  }

  /**
   The pair lookup answers with the pair's own chat exactly when the two users differ. A user who
   writes to himself gets an error when he has no chat, and otherwise some chat he shares with another.
   */
  lemma LookupIsRightIffUsersDiffer(db: Db, a: UserId, b: UserId, pick: ChatId)
    requires DbOk(db) && ValidPick(db, a, b, pick)
    ensures var r := FindOrCreateChat(db, a, b, pick);
            && ((r.Found? && MembersOf(r.db, r.chat) == {a, b}) <==> a != b)
            && (a == b && Matches(db, a, a) == {} ==> r == DuplicateMember)
            && (a == b && r.Found? ==> exists v :: IsPair(r.db, r.chat, a, v))
            && (r.Found? ==> DbOk(r.db) && (r.chat, a) in r.db.members && (r.chat, b) in r.db.members
                             && r.db.rows == db.rows && db.members <= r.db.members)
  {
    if Matches(db, a, b) != {} {
      assert pick in Matches(db, a, b);
      if a != b {
        OtherMember(db, pick, a, b);
      } else {
        assert HasTwoMembers(db, pick);
        var x, y :| IsPair(db, pick, x, y);
        MemberIff(db, pick, a);
        var v := if x == a then y else x;
        assert IsPair(db, pick, a, v);
        assert v in MembersOf(db, pick) && v !in {a, b};
      }
    } else if a != b {
      CreateKeepsTables(db, a, b);
    }
  }

  /** With one-step lookups a pair has at most one chat, whichever side asks. */
  lemma LookupKeepsOneChatPerPair(db: Db, a: UserId, b: UserId, pick: ChatId)
    requires DbOk(db) && OneChatPerPair(db) && ValidPick(db, a, b, pick)
    ensures var r := FindOrCreateChat(db, a, b, pick);
            r.Found? ==>
              && OneChatPerPair(r.db)
              && (a != b ==> Matches(r.db, a, b) == {r.chat} && Matches(r.db, b, a) == {r.chat})
  {
    var r := FindOrCreateChat(db, a, b, pick);
    if r.Found? {
      LookupIsRightIffUsersDiffer(db, a, b, pick);
      if Matches(db, a, b) == {} {
        CreateKeepsTables(db, a, b);
        forall c: ChatId | c < db.chatCount ensures MembersOf(db, c) != {a, b} {
          MemberIff(db, c, a);
          MemberIff(db, c, b);
          assert c !in Matches(db, a, b);
        }
      }
      assert OneChatPerPair(r.db);
      if a != b {
        forall c | c in Matches(r.db, a, b) ensures c == r.chat {
          OtherMember(r.db, c, a, b);
          OtherMember(r.db, r.chat, a, b);
        }
        assert (r.chat, a).0 < r.db.chatCount;
        assert r.chat in Matches(r.db, a, b);
      }
    }
  }
}
