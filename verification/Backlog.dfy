/** Offline replay: what the pending query means, and how successive connects drain a backlog. */
module Backlog {
  import opened ChatTypes
  import opened HubSpec
  import opened DbSpec
  import opened BusSpec
  import opened Protocol
  import opened ProtocolSteps
  import opened NoLoss

  /**
   Before its limit, the pending query returns exactly the undelivered messages addressed to the user.
   It needs no more than the table invariant, so it holds even if racing lookups gave a pair two chats.
   */
  lemma PendingIsExact(db: Db, to: UserId, user: UserId, m: MsgId)
    requires DbOk(db) && 0 <= m < |db.rows| && (db.rows[m].chat, to) in db.members && to != db.rows[m].sender
    ensures m in Pending(db, user) <==> db.rows[m].status == Sent && user == to
  {
    var r := db.rows[m];
    OtherMember(db, r.chat, r.sender, to);
    MemberIff(db, r.chat, user);
  }

  /** In every run a chat has two members, a pair has at most one chat, and both sides find it. */
  lemma OneChatForEachPair(n: nat, es: seq<Event>, a: UserId, b: UserId)
    requires a != b
    ensures var db := Run(Init(n), es).db;
            && (forall c: ChatId | c < db.chatCount :: HasTwoMembers(db, c))
            && |Matches(db, a, b)| <= 1
            && Matches(db, a, b) == Matches(db, b, a)
            && (forall c | c in Matches(db, a, b) :: MembersOf(db, c) == {a, b})
  {
    InitOk(n);
    RunKeepsSys(Init(n), es);
    var s := Run(Init(n), es);
    hide Run, SysOk;
    SysTables(s);
    var db := s.db;
    forall c | c in Matches(db, a, b) ensures MembersOf(db, c) == {a, b} {
      OtherMember(db, c, a, b);
    }
    if c :| c in Matches(db, a, b) {
      assert Matches(db, a, b) == {c};
    }
  }

  /** A listing of the user's pending rows by strictly increasing time. */
  ghost predicate IsBacklog(db: Db, user: UserId, ms: seq<MsgId>) {
    && ValidIds(db, ms)
    && (forall j, k | 0 <= j < k < |ms| :: db.rows[ms[j]].createdAt < db.rows[ms[k]].createdAt)
    && (forall m :: m in ms <==> IsPending(db, user, m))
  }

  lemma {:induction false} CardinalityOfDistinct(s: seq<MsgId>)
    requires Distinct(s)
    ensures |set x | x in s| == |s|
  {
    if s != [] {
      var k := |s| - 1;
      CardinalityOfDistinct(s[..k]);
      assert s[k] !in s[..k];
      assert (set x | x in s) == (set x | x in s[..k]) + {s[k]};
    }
  }

  lemma BacklogSize(db: Db, user: UserId, ms: seq<MsgId>)
    requires IsBacklog(db, user, ms)
    ensures Distinct(ms) && |Pending(db, user)| == |ms|
  {
    CardinalityOfDistinct(ms);
    assert Pending(db, user) == set x | x in ms;
  }

  lemma SamePrefix(a: seq<MsgId>, b: seq<MsgId>, k: nat, i: nat)
    requires i < k <= |a| && k <= |b| && a[..k] == b[..k]
    ensures a[i] == b[i]
  {
    assert a[i] == a[..k][i];
  }

  /** The entry after an agreed prefix is not older than the backlog's next row. */
  lemma NextIsNotLater(db: Db, user: UserId, ms: seq<MsgId>, batch: seq<MsgId>, k: nat)
    requires IsBacklog(db, user, ms) && Distinct(ms) && IsPendingBatch(db, user, batch) && ValidIds(db, batch)
    requires k < |batch| && k < |ms| && batch[..k] == ms[..k]
    ensures db.rows[batch[k]].createdAt <= db.rows[ms[k]].createdAt
  {
    assert IsPending(db, user, ms[k]);
    if ms[k] in batch {
      var x :| 0 <= x < |batch| && batch[x] == ms[k];
      if x < k {
        SamePrefix(batch, ms, k, x);
      }
    }
  }

  lemma NextAgrees(db: Db, user: UserId, ms: seq<MsgId>, batch: seq<MsgId>, k: nat)
    requires IsBacklog(db, user, ms) && IsPendingBatch(db, user, batch)
    requires k < |batch| && k < |ms| && batch[..k] == ms[..k]
    ensures batch[k] == ms[k]
  {
    BacklogSize(db, user, ms);
    BatchFits(db, user, batch);
    NextIsNotLater(db, user, ms, batch, k);
    BatchPends(db, user, batch, batch[k]);
    var i :| 0 <= i < |ms| && ms[i] == batch[k];
    hide IsPendingBatch;
    if i < k {
      SamePrefix(batch, ms, k, i);
    }
  }

  /** With distinct times the next batch is determined: the oldest hundred of the backlog, in order. */
  lemma {:induction false} BatchAgrees(db: Db, user: UserId, ms: seq<MsgId>, batch: seq<MsgId>, j: nat)
    requires IsBacklog(db, user, ms) && IsPendingBatch(db, user, batch)
    requires j <= |batch| && |batch| <= |ms|
    ensures batch[..j] == ms[..j]
  {
    hide IsBacklog, IsPendingBatch;
    if j > 0 {
      var k := j - 1;
      BatchAgrees(db, user, ms, batch, k);
      NextAgrees(db, user, ms, batch, k);
      assert batch[..j] == batch[..k] + [batch[k]];
      assert ms[..j] == ms[..k] + [ms[k]];
    }
  }

  lemma BatchIsPrefix(db: Db, user: UserId, ms: seq<MsgId>, batch: seq<MsgId>)
    requires IsBacklog(db, user, ms) && IsPendingBatch(db, user, batch)
    ensures batch == ms[..Min(PENDING_LIMIT, |ms|)]
  {
    BacklogSize(db, user, ms);
    BatchAgrees(db, user, ms, batch, |batch|);
    assert batch[..|batch|] == batch;
  }

  lemma SplitMember(ms: seq<MsgId>, k: nat, m: MsgId)
    requires Distinct(ms) && k <= |ms|
    ensures m in ms[k..] <==> m in ms && m !in ms[..k]
  {
    assert ms == ms[..k] + ms[k..];
    if m in ms[..k] {
      var a :| 0 <= a < k && ms[a] == m;
      assert forall b | k <= b < |ms| :: ms[b] != ms[a];
    }
  }

  lemma DrainOnce(db: Db, db': Db, user: UserId, ms: seq<MsgId>, k: nat)
    requires IsBacklog(db, user, ms) && k <= |ms| && MarksExactly(db, db', ms[..k])
    ensures IsBacklog(db', user, ms[k..])
  {
    BacklogSize(db, user, ms);
    forall m ensures m in ms[k..] <==> IsPending(db', user, m) {
      hide IsBacklog, Distinct, ValidIds;
      SplitMember(ms, k, m);
      assert m in ms <==> IsPending(db, user, m) by { assert IsBacklog(db, user, ms); BacklogMember(db, user, ms, m); }
      if 0 <= m < |db.rows| {
        assert db'.rows[m] == if m in ms[..k] then db.rows[m].(status := Delivered) else db.rows[m];
      }
    }
    hide MarksExactly;
    assert |db'.rows| == |db.rows|
           && forall m | 0 <= m < |db.rows| :: db'.rows[m].createdAt == db.rows[m].createdAt by {
      MarksKeepTimes(db, db', ms[..k]);
    }
  }

  lemma BacklogMember(db: Db, user: UserId, ms: seq<MsgId>, m: MsgId)
    requires IsBacklog(db, user, ms)
    ensures m in ms <==> IsPending(db, user, m)
  {}

  lemma MarksKeepTimes(db: Db, db': Db, ms: seq<MsgId>)
    requires MarksExactly(db, db', ms)
    ensures |db'.rows| == |db.rows| && forall m | 0 <= m < |db.rows| :: db'.rows[m].createdAt == db.rows[m].createdAt
  {}

  /** Two users never wait for the same row, so another user's connect leaves the backlog alone. */
  lemma OthersDoNotDrain(db: Db, db': Db, user: UserId, other: UserId, ms: seq<MsgId>, batch: seq<MsgId>)
    requires DbOk(db) && IsBacklog(db, user, ms) && other != user
    requires (forall m | m in batch :: IsPending(db, other, m)) && MarksExactly(db, db', batch)
    ensures IsBacklog(db', user, ms)
  {
    forall m | 0 <= m < |db.rows| && m in batch ensures !IsPending(db, user, m) {
      assert IsPending(db, other, m);
      if IsPending(db, user, m) {
        OtherMember(db, db.rows[m].chat, db.rows[m].sender, other);
        OtherMember(db, db.rows[m].chat, db.rows[m].sender, user);
        assert false;
      }
    }
    forall m ensures m in ms <==> IsPending(db', user, m) {
      if 0 <= m < |db.rows| {
        assert db'.rows[m] == if m in batch then db.rows[m].(status := Delivered) else db.rows[m];
        assert IsPending(db', user, m) <==> IsPending(db, user, m);
      } else {
        assert !IsPending(db, user, m);
      }
    }
  }

  /** No new messages and no acknowledgements. */
  predicate Quiet(es: seq<Event>) {
    forall k | 0 <= k < |es| :: !es[k].DmEv? && !es[k].AckEv?
  }

  ghost predicate Connects(s: Sys, e: Event, user: UserId) {
    e.ConnectEv? && e.user == user && Enabled(s, e)
  }

  /** The rows pushed to the user by a run, batch after batch. */
  ghost function Pushed(s: Sys, es: seq<Event>, user: UserId): seq<MsgId>
    decreases |es|
  {
    if es == [] then []
    else (if Connects(s, es[0], user) then es[0].batch else []) + Pushed(Step(s, es[0]), es[1..], user)
  }

  ghost function ConnectCount(s: Sys, es: seq<Event>, user: UserId): nat
    decreases |es|
  {
    if es == [] then 0
    else (if Connects(s, es[0], user) then 1 else 0) + ConnectCount(Step(s, es[0]), es[1..], user)
  }

  lemma StepDrains(s: Sys, e: Event, user: UserId, ms: seq<MsgId>)
    requires SysOk(s) && IsBacklog(s.db, user, ms) && !e.DmEv? && !e.AckEv?
    ensures var k := if Connects(s, e, user) then Min(PENDING_LIMIT, |ms|) else 0;
            && (Connects(s, e, user) ==> e.batch == ms[..k])
            && IsBacklog(Step(s, e).db, user, ms[k..])
  {
    hide SysOk, Apply, IsPendingBatch, IsBacklog, MarksExactly, HubConnects;
    assert ms[0..] == ms;
    if Enabled(s, e) {
      if e.ConnectEv? {
        ConnectShape(s, e);
        if e.user == user {
          BatchIsPrefix(s.db, user, ms, e.batch);
          DrainOnce(s.db, Apply(s, e).db, user, ms, Min(PENDING_LIMIT, |ms|));
        } else {
          SysTables(s);
          forall m | m in e.batch ensures IsPending(s.db, e.user, m) {
            BatchPends(s.db, e.user, e.batch, m);
          }
          OthersDoNotDrain(s.db, Apply(s, e).db, user, e.user, ms, e.batch);
        }
      } else {
        QuietKeepsBacklog(s, e, user, ms);
      }
    }
  }

  lemma QuietKeepsBacklog(s: Sys, e: Event, user: UserId, ms: seq<MsgId>)
    requires SysOk(s) && IsBacklog(s.db, user, ms) && Enabled(s, e) && !e.DmEv? && !e.AckEv? && !e.ConnectEv?
    ensures IsBacklog(Apply(s, e).db, user, ms)
  {
    hide SysOk, Apply, IsBacklog;
    var s' := Apply(s, e);
    StepTables(s, e);
    if e.HistoryEv? {
      LookupKeepsBacklog(s, e, user, ms);
    } else {
      NonHistoryKeepsDb(s, e);
    }
  }

  lemma NonHistoryKeepsDb(s: Sys, e: Event)
    requires Enabled(s, e) && !e.DmEv? && !e.AckEv? && !e.ConnectEv? && !e.HistoryEv?
    ensures Apply(s, e).db == s.db
  {
    hide Send, EndReader, Write;
  }

  lemma LookupKeepsBacklog(s: Sys, e: Event, user: UserId, ms: seq<MsgId>)
    requires SysOk(s) && IsBacklog(s.db, user, ms) && Enabled(s, e) && e.HistoryEv?
    ensures IsBacklog(Apply(s, e).db, user, ms)
  {
    SysTables(s);
    LookupIsRightIffUsersDiffer(s.db, e.me, e.partner, e.chatPick);
    hide SysOk;
    var db, db' := s.db, Apply(s, e).db;
    assert db'.rows == db.rows && db.members <= db'.members;
    forall m | 0 <= m < |db.rows|
      ensures (db.rows[m].chat, user) in db'.members ==> (db.rows[m].chat, user) in db.members
    {
      assert (db.rows[m].chat, db.rows[m].sender) in db.members;
    }
    forall m ensures m in ms <==> IsPending(db', user, m) {
      assert IsPending(db', user, m) <==> IsPending(db, user, m);
    }
  }

  /**
   Backlog drain: with pending rows of distinct times and no new traffic, the batches of the user's
   connects concatenate to the backlog in order, each row once, a hundred per connect, until it is empty.
   */
  lemma {:induction false} BacklogDrains(s: Sys, es: seq<Event>, user: UserId, ms: seq<MsgId>)
    requires SysOk(s) && IsBacklog(s.db, user, ms) && Quiet(es)
    ensures var pushed := Min(|ms|, PENDING_LIMIT * ConnectCount(s, es, user));
            && Pushed(s, es, user) == ms[..pushed]
            && IsBacklog(Run(s, es).db, user, ms[pushed..])
            && (Pending(Run(s, es).db, user) == {} <==> |ms| <= PENDING_LIMIT * ConnectCount(s, es, user))
    decreases |es|
  {
    hide SysOk, Step, IsBacklog, Connects;
    if es == [] {
      assert ms[0..] == ms;
      BacklogSize(s.db, user, ms);
    } else {
      var e, s1 := es[0], Step(s, es[0]);
      StepDrains(s, e, user, ms);
      StepKeepsSys(s, e);
      var k := if Connects(s, e, user) then Min(PENDING_LIMIT, |ms|) else 0;
      BacklogDrains(s1, es[1..], user, ms[k..]);
      var rest := Min(|ms| - k, PENDING_LIMIT * ConnectCount(s1, es[1..], user));
      assert Min(|ms|, PENDING_LIMIT * ConnectCount(s, es, user)) == k + rest;
      assert ms[..k] + ms[k..][..rest] == ms[..k + rest];
      assert ms[k..][rest..] == ms[k + rest..];
    }
  }
}
