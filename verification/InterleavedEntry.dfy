/**
 From any interleaving of the server to the sender's screen: what becomes of an optimistic entry is decided by
 whether a notice was queued after the storing handler had sent its acknowledgement.
 */
module InterleavedEntry {
  import opened ChatTypes
  import opened HubSpec
  import opened Interleaving
  import opened InterleavedReceipts
  import opened StoreRuns
  import EntryPhases
  import InterleavedAddressing
  import InterleavedHub
  import Receipts
  import Store

  /** A packet of a stream stands in the hub's log under the connection's user. */
  lemma StreamFrom(n: nat, es: seq<FineEvent>, i: nat, c: ClientId, x: nat) returns (k: nat)
    requires x < |StreamOf(FineRun(FineInit(n), es), i, c)|
    ensures var f := FineRun(FineInit(n), es);
            && i < |f.hubs| && c < |f.hubs[i].chans| && k < |f.hubs[i].log|
            && f.hubs[i].log[k].packet == StreamOf(f, i, c)[x] && f.hubs[i].log[k].user == f.hubs[i].chans[c].user
  {
    var f := FineRun(FineInit(n), es);
    InitReceipts(n);
    RunKeepsReceipts(FineInit(n), es);
    InterleavedHub.HubOfFine(f, i);
    Receipts.ProjectFrom(f.hubs[i].log, c, x);
    hide FineRun, FineInit, InterleavedHub.HubInv, AcksOnce, AcksStored, NoticeInv, Project;
    var log := f.hubs[i].log;
    var y :| 0 <= y < |log| && log[y].client == c && log[y].packet == Project(log, c)[x];
    k := y;
  }

  /** No connection is given a copy and the acknowledgement of one message between two users. */
  lemma CopyNotWithAck(n: nat, es: seq<FineEvent>, i: nat, c: ClientId, a: nat, b: nat, m: MsgId)
    requires var ps := StreamOf(FineRun(FineInit(n), es), i, c);
             a < |ps| && b < |ps| && IsAck(ps[a], m) && ps[b].Message? && ps[b].mid == m
    ensures var f := FineRun(FineInit(n), es);
            0 <= m < |f.to| == |f.db.rows| && f.to[m] == f.db.rows[m].sender
  {
    hide FineRun, FineInit, StreamOf;
    var ka := StreamFrom(n, es, i, c, a);
    var kb := StreamFrom(n, es, i, c, b);
    InterleavedAddressing.PacketsReachOnlyTheirUser(n, es, i, ka);
    InterleavedAddressing.PacketsReachOnlyTheirUser(n, es, i, kb);
  }

  lemma AckOnceInStream(n: nat, es: seq<FineEvent>, i: nat, c: ClientId, a: nat, b: nat, m: MsgId)
    requires var ps := StreamOf(FineRun(FineInit(n), es), i, c);
             a < |ps| && b < |ps| && IsAck(ps[a], m) && IsAck(ps[b], m)
    ensures a == b && 0 <= m
  {
    hide FineRun, FineInit, StreamOf, IsAck;
    AcknowledgedOnce(n, es, Stream(i, c, a), Stream(i, c, b), m);
  }

  /** What the browser takes: a stretch of the stream with the acknowledgement of the client's message x. */
  ghost predicate Stretch(n: nat, es: seq<FineEvent>, i: nat, c: ClientId, from: nat, to: nat, x: nat, m: MsgId) {
    var f := FineRun(FineInit(n), es);
    var all := StreamOf(f, i, c);
    && from <= to <= |all| && SentAck(m, x) in all[from..to]
    && (forall p | p in all[from..to] && p.SentAck? && p.clientId == x :: p.mid == m)
    && (0 <= m < |f.to| && m < |f.db.rows| ==> f.to[m] != f.db.rows[m].sender)
  }

  lemma StretchFits(n: nat, es: seq<FineEvent>, i: nat, c: ClientId, from: nat, to: nat, x: nat, m: MsgId)
    requires Stretch(n, es, i, c, from, to, x, m)
    ensures var ps := StreamOf(FineRun(FineInit(n), es), i, c)[from..to];
            EntryPhases.AllFit(ps, x, m) && EntryPhases.AckedOnce(ps, x, m) && 0 <= m
  {
    var all := StreamOf(FineRun(FineInit(n), es), i, c);
    hide FineRun, FineInit, StreamOf;
    var ps := all[from..to];
    var a :| 0 <= a < |ps| && ps[a] == SentAck(m, x);
    assert all[from + a] == ps[a];
    AckOnceInStream(n, es, i, c, from + a, from + a, m);
    forall b | 0 <= b < |ps|
      ensures EntryPhases.Fits(ps[b], x, m) && (ps[b] == SentAck(m, x) ==> b == a)
    {
      assert all[from + b] == ps[b];
      if ps[b].Message? && ps[b].mid == m { CopyNotWithAck(n, es, i, c, from + a, from + b, m); }
      if IsAck(ps[b], m) { AckOnceInStream(n, es, i, c, from + a, from + b, m); }
    }
  }

  /** A notice of the row was queued for the connection when no handler had its acknowledgement to send any more. */
  ghost predicate LateNotice(n: nat, es: seq<FineEvent>, k: int, i: nat, c: ClientId, m: MsgId, to: nat) {
    && Queues(n, es, k, i, c, ReadNotice(m)) && !Held(Before(n, es, k), m)
    && |StreamOf(Before(n, es, k), i, c)| < to
  }

  lemma AckThenNoticeIsLate(n: nat, es: seq<FineEvent>, i: nat, c: ClientId, b: nat, j: nat, m: MsgId) returns (k: nat)
    requires var all := StreamOf(FineRun(FineInit(n), es), i, c);
             b < j < |all| && IsAck(all[b], m) && all[j] == ReadNotice(m)
    ensures LateNotice(n, es, k, i, c, m, j + 1)
  {
    var all := StreamOf(FineRun(FineInit(n), es), i, c);
    k := QueuedBy(n, es, i, c, j);
    hide FineRun, FineInit, StreamOf, Queues, Held, Before, InterleavedHub.HubInv, AcksOnce, AcksStored, NoticeInv,
      IsAck;
    assert k <= |es| by { QueuesInRun(n, es, k, i, c, ReadNotice(m)); }
    BeforeOk(n, es, k);
    RunStreamGrows(Before(n, es, k), es[k..], i, c);
    assert StreamOf(Before(n, es, k), i, c)[b] == all[b];
    if Held(Before(n, es, k), m) { HeldIsNotSent(Before(n, es, k), i, c, b, m); }
  }

  lemma LateNoticeFollows(n: nat, es: seq<FineEvent>, i: nat, c: ClientId, b: nat, k: nat, m: MsgId, to: nat)
    requires var all := StreamOf(FineRun(FineInit(n), es), i, c);
             b < |all| && IsAck(all[b], m) && LateNotice(n, es, k, i, c, m, to)
    ensures var all := StreamOf(FineRun(FineInit(n), es), i, c);
            exists j :: b < j < to && j < |all| && all[j] == ReadNotice(m)
  {
    var all := StreamOf(FineRun(FineInit(n), es), i, c);
    var kb := QueuedBy(n, es, i, c, b);
    hide FineRun, FineInit, StreamOf, Queues, Held, Before, ReceiptInv, IsAck;
    assert 0 <= k < |es| && kb < |es| by {
      QueuesInRun(n, es, k, i, c, ReadNotice(m));
      QueuesInRun(n, es, kb, i, c, all[b]);
    }
    AckQueuedWasHeld(n, es, kb, i, c, all[b], m);
    NoticeQueuedWasRead(n, es, k, i, c, m);
    BeforeOk(n, es, k);
    if k <= kb {
      BeforeThen(n, es, k, kb);
      RunHeldBefore(Before(n, es, k), es[k..kb], m);
    }
    NoticePlaced(n, es, i, c, b, kb, k, m);
  }

  /** The notice stands behind what was there when it was queued, the acknowledgement included. */
  lemma NoticePlaced(n: nat, es: seq<FineEvent>, i: nat, c: ClientId, b: nat, kb: nat, k: nat, m: MsgId)
    requires kb < k < |es| && Queues(n, es, k, i, c, ReadNotice(m)) && |StreamOf(Before(n, es, kb), i, c)| == b
    requires b < |StreamOf(FineRun(FineInit(n), es), i, c)|
    requires Queues(n, es, kb, i, c, StreamOf(FineRun(FineInit(n), es), i, c)[b])
    ensures var all, j := StreamOf(FineRun(FineInit(n), es), i, c), |StreamOf(Before(n, es, k), i, c)|;
            b < j < |all| && all[j] == ReadNotice(m)
  {
    var all := StreamOf(FineRun(FineInit(n), es), i, c);
    hide FineRun, FineInit, StreamOf, Queues, Before, ReceiptInv;
    QueuesNext(n, es, kb, i, c, all[b]);
    BeforeThen(n, es, kb + 1, k);
    RunStreamGrows(Before(n, es, kb + 1), es[kb + 1..k], i, c);
    QueuesNext(n, es, k, i, c, ReadNotice(m));
    BeforeOk(n, es, k + 1);
    RunStreamGrows(Before(n, es, k + 1), es[k + 1..], i, c);
    var qs := StreamOf(Before(n, es, k), i, c);
    assert qs + [ReadNotice(m)] <= all;
    assert all[|qs|] == (qs + [ReadNotice(m)])[|qs|];
  }

  /** In a stretch with the acknowledgement, a notice follows it exactly if one was queued late. */
  lemma FollowsIffLate(n: nat, es: seq<FineEvent>, i: nat, c: ClientId, from: nat, to: nat, x: nat, m: MsgId)
    requires Stretch(n, es, i, c, from, to, x, m)
    ensures EntryPhases.ReadFollowsAck(StreamOf(FineRun(FineInit(n), es), i, c)[from..to], x, m)
       <==> exists k :: LateNotice(n, es, k, i, c, m, to)
  {
    var all := StreamOf(FineRun(FineInit(n), es), i, c);
    hide FineRun, FineInit, StreamOf, LateNotice;
    var ps := all[from..to];
    var a :| 0 <= a < |ps| && ps[a] == SentAck(m, x);
    assert all[from + a] == ps[a];
    if EntryPhases.ReadFollowsAck(ps, x, m) {
      var b, j :| 0 <= b < j < |ps| && ps[b] == SentAck(m, x) && ps[j] == ReadNotice(m);
      assert all[from + b] == ps[b] && all[from + j] == ps[j];
      var k := AckThenNoticeIsLate(n, es, i, c, from + b, from + j, m);
      LateLater(n, es, k, i, c, m, from + j + 1, to);
    }
    if k :| LateNotice(n, es, k, i, c, m, to) {
      assert 0 <= k by { LateInRun(n, es, k, i, c, m, to); }
      LateNoticeFollows(n, es, i, c, from + a, k, m, to);
      var j :| from + a < j < to && j < |all| && all[j] == ReadNotice(m);
      assert ps[j - from] == all[j];
    }
  }

  lemma LateLater(n: nat, es: seq<FineEvent>, k: int, i: nat, c: ClientId, m: MsgId, to: nat, to': nat)
    requires LateNotice(n, es, k, i, c, m, to) && to <= to'
    ensures LateNotice(n, es, k, i, c, m, to')
  {
    hide Queues, Held, Before, StreamOf;
  }

  lemma LateInRun(n: nat, es: seq<FineEvent>, k: int, i: nat, c: ClientId, m: MsgId, to: nat)
    requires LateNotice(n, es, k, i, c, m, to)
    ensures 0 <= k < |es|
  {
    QueuesInRun(n, es, k, i, c, ReadNotice(m));
    hide Queues, Held, Before, StreamOf;
  }

  /**
   Under every interleaving: a composed entry whose browser takes any stretch of what was queued for its
   connection, the acknowledgement in it, ends with the server's id, and `read` if and only if some notice in
   reach was queued when the handler that stored the message was past its acknowledgement.
   */
  lemma EntryReadIffNoticedLate(n: nat, es: seq<FineEvent>, i: nat, c: ClientId, from: nat, to: nat, x: nat, m: MsgId,
                                session: Session, me: UserId, ces: seq<ClientEvent>, at: nat, entry: nat)
    requires Stretch(n, es, i, c, from, to, x, m)
    requires EntryPhases.Arrivals(ces) == StreamOf(FineRun(FineInit(n), es), i, c)[from..to]
    requires StoreOk(session.store) && EntryPhases.OnlyAt(session.store, at, entry, Store.Local(x))
    requires EntryPhases.Nowhere(session.store, Store.Row(m))
    ensures var s := ClientRun(session, me, ces).store;
            && at < |s| && entry < |s[at].msgs| && s[at].msgs[entry].id == Store.Row(m)
            && (s[at].msgs[entry].status == Read <==> exists k :: LateNotice(n, es, k, i, c, m, to))
  {
    StretchFits(n, es, i, c, from, to, x, m);
    FollowsIffLate(n, es, i, c, from, to, x, m);
    hide FineRun, FineInit, StreamOf, LateNotice, StoreOk, EntryPhases.OnlyAt, EntryPhases.Nowhere, ClientRun,
      EntryPhases.Arrivals, EntryPhases.AllFit, EntryPhases.AckedOnce, EntryPhases.ReadFollowsAck;
    EntryPhases.EntryEndsReadIff(session, me, ces, at, entry, x, m);
  }

  /**
   The guard a caller can check, carried to the screen: if the receipt is handled after the storing handler is
   past its acknowledgement, then whatever interleaves, an entry whose browser takes both packets ends `read`.
   */
  lemma AckedAfterIsSeen(n: nat, es: seq<FineEvent>, more: seq<FineEvent>, i: nat, c: ClientId, from: nat, to: nat,
                         x: nat, m: MsgId, session: Session, me: UserId, ces: seq<ClientEvent>, at: nat, entry: nat)
    requires Finished(FineRun(FineInit(n), es), m)
    requires Stretch(n, es + more, i, c, from, to, x, m)
    requires var ps := StreamOf(FineRun(FineInit(n), es + more), i, c)[from..to];
             EntryPhases.Arrivals(ces) == ps && ReadNotice(m) in ps
    requires StoreOk(session.store) && EntryPhases.OnlyAt(session.store, at, entry, Store.Local(x))
    requires EntryPhases.Nowhere(session.store, Store.Row(m))
    ensures var s := ClientRun(session, me, ces).store;
            && at < |s| && entry < |s[at].msgs|
            && s[at].msgs[entry].id == Store.Row(m) && s[at].msgs[entry].status == Read
  {
    InOrderOnceFinished(n, es, more, i, c, m);
    StretchFits(n, es + more, i, c, from, to, x, m);
    var all := StreamOf(FineRun(FineInit(n), es + more), i, c);
    assert SentAck(m, x) in all[from..to];
    hide FineRun, FineInit, StreamOf, Finished, Stretch, StoreOk, EntryPhases.OnlyAt, EntryPhases.Nowhere, ClientRun,
      EntryPhases.Arrivals, EntryPhases.AllFit, EntryPhases.AckedOnce;
    BothFollow(all, from, to, x, m);
    EntryPhases.EntryEndsReadIff(session, me, ces, at, entry, x, m);
  }

  lemma BothFollow(all: seq<Packet>, from: nat, to: nat, x: nat, m: MsgId)
    requires from <= to <= |all| && SentAck(m, x) in all[from..to] && ReadNotice(m) in all[from..to]
    requires !WrongOrder(all, m)
    ensures EntryPhases.ReadFollowsAck(all[from..to], x, m)
  {
    var ps := all[from..to];
    var a :| 0 <= a < |ps| && ps[a] == SentAck(m, x);
    var b :| 0 <= b < |ps| && ps[b] == ReadNotice(m);
    assert all[from + a] == ps[a] && all[from + b] == ps[b];
    assert b < a ==> WrongOrder(all, m);
  }
}
