/** Where the histories a browser takes in come from, what they show, and which rows they never have. */
module Histories {
  import opened ChatTypes
  import opened StoreRuns
  import opened Protocol
  import opened EndToEnd
  import opened HistoryRuns
  import opened LoadedEndToEnd
  import DbSpec
  import Store
  import Backlog

  /** The answer the server makes of its rows: these rows in this order, each as it stands then. */
  predicate Answers(rows: seq<DbSpec.Row>, me: UserId, page: seq<MsgId>, history: seq<Store.Entry>) {
    && |history| == |page|
    && forall j | 0 <= j < |page| ::
         0 <= page[j] < |rows| && ShowsRow(history[j], page[j], rows[page[j]], me)
         && history[j].status == rows[page[j]].status
  }

  /** The answer was made by event i, from the rows as they stood right before it. */
  ghost predicate AskedAt(l: Loaded, me: UserId, k: Socket, es: seq<LoadedEvent>, i: nat, x: Answer) {
    && i < |es| && es[i].Asks? && es[i].partner == x.partner
    && var db := LoadedRun(l, me, k, es[..i]).joint.sys.db;
       CanAsk(db, me, es[i].partner, es[i].pick, es[i].page) && Answers(db.rows, me, es[i].page, x.history)
  }

  ghost predicate Asked(l: Loaded, me: UserId, k: Socket, es: seq<LoadedEvent>, x: Answer) {
    exists i: nat :: AskedAt(l, me, k, es, i, x)
  }

  lemma AskedBefore(l: Loaded, me: UserId, k: Socket, es: seq<LoadedEvent>, more: seq<LoadedEvent>, x: Answer)
    requires Asked(l, me, k, es, x)
    ensures Asked(l, me, k, es + more, x)
  {
    var i: nat :| AskedAt(l, me, k, es, i, x);
    assert (es + more)[..i] == es[..i];
    hide LoadedRun, CanAsk, Answers;
    assert AskedAt(l, me, k, es + more, i, x);
  }

  lemma AnsweredAnswers(db: DbSpec.Db, me: UserId, partner: UserId, pick: ChatId, page: seq<MsgId>)
    requires CanAsk(db, me, partner, pick, page)
    ensures var db' := DbSpec.FindOrCreateChat(db, me, partner, pick).db;
            Answers(db.rows, me, page, Answered(db', me, page))
  {
    hide DbSpec.ValidPick, IsPage;
    assert DbSpec.FindOrCreateChat(db, me, partner, pick).db.rows == db.rows;
  }

  /** Answers under way were made by the run so far. */
  ghost predicate AllAsked(l0: Loaded, me: UserId, k: Socket, done: seq<LoadedEvent>, answers: seq<Answer>) {
    forall a | 0 <= a < |answers| :: Asked(l0, me, k, done, answers[a])
  }

  lemma StepAsked(l0: Loaded, me: UserId, k: Socket, done: seq<LoadedEvent>, e: LoadedEvent)
    requires AllAsked(l0, me, k, done, LoadedRun(l0, me, k, done).answers)
    ensures AllAsked(l0, me, k, done + [e], LoadedStep(LoadedRun(l0, me, k, done), me, k, e).answers)
  {
    var l := LoadedRun(l0, me, k, done);
    StillAsked(l0, me, k, done, e, l.answers);
    hide LoadedRun, AllAsked, JointStep, Asked;
    if e.Asks? && CanAsk(l.joint.sys.db, me, e.partner, e.pick, e.page) {
      var db' := DbSpec.FindOrCreateChat(l.joint.sys.db, me, e.partner, e.pick).db;
      var x := Answer(e.partner, Answered(db', me, e.page));
      AskedNow(l0, me, k, done, e);
      assert LoadedStep(l, me, k, e).answers == l.answers + [x];
      hide *;
      OneMore(l0, me, k, done + [e], l.answers, x);
    } else if e.Gets? && e.a < |l.answers| {
      assert LoadedStep(l, me, k, e).answers == l.answers[..e.a] + l.answers[e.a + 1..];
      hide *;
      OneLess(l0, me, k, done + [e], l.answers, e.a);
    } else {
      hide CanAsk;
    }
  }

  lemma OneMore(l0: Loaded, me: UserId, k: Socket, done: seq<LoadedEvent>, answers: seq<Answer>, x: Answer)
    requires AllAsked(l0, me, k, done, answers) && Asked(l0, me, k, done, x)
    ensures AllAsked(l0, me, k, done, answers + [x])
  {
    hide Asked;
  }

  lemma OneLess(l0: Loaded, me: UserId, k: Socket, done: seq<LoadedEvent>, answers: seq<Answer>, a: nat)
    requires AllAsked(l0, me, k, done, answers) && a < |answers|
    ensures AllAsked(l0, me, k, done, answers[..a] + answers[a + 1..])
  {
    hide Asked;
    var rest := answers[..a] + answers[a + 1..];
    forall b | 0 <= b < |rest| ensures Asked(l0, me, k, done, rest[b]) {
      assert rest[b] == answers[if b < a then b else b + 1];
    }
  }

  lemma StillAsked(l0: Loaded, me: UserId, k: Socket, done: seq<LoadedEvent>, e: LoadedEvent, answers: seq<Answer>)
    requires AllAsked(l0, me, k, done, answers)
    ensures AllAsked(l0, me, k, done + [e], answers)
  {
    hide Asked;
    forall a | 0 <= a < |answers| ensures Asked(l0, me, k, done + [e], answers[a]) {
      AskedBefore(l0, me, k, done, [e], answers[a]);
    }
  }

  lemma AskedNow(l0: Loaded, me: UserId, k: Socket, done: seq<LoadedEvent>, e: LoadedEvent)
    requires e.Asks? && CanAsk(LoadedRun(l0, me, k, done).joint.sys.db, me, e.partner, e.pick, e.page)
    ensures var db := LoadedRun(l0, me, k, done).joint.sys.db;
            var db' := DbSpec.FindOrCreateChat(db, me, e.partner, e.pick).db;
            Asked(l0, me, k, done + [e], Answer(e.partner, Answered(db', me, e.page)))
  {
    var db := LoadedRun(l0, me, k, done).joint.sys.db;
    AnsweredAnswers(db, me, e.partner, e.pick, e.page);
    assert (done + [e])[..|done|] == done && (done + [e])[|done|] == e;
    var x := Answer(e.partner, Answered(DbSpec.FindOrCreateChat(db, me, e.partner, e.pick).db, me, e.page));
    hide LoadedRun, CanAsk, Answers, Answered, DbSpec.FindOrCreateChat;
    assert AskedAt(l0, me, k, done + [e], |done|, x);
  }

  ghost predicate CameFrom(l0: Loaded, me: UserId, k: Socket, es: seq<LoadedEvent>, e: LoadEvent) {
    e.Loads? ==> Asked(l0, me, k, es, Answer(e.partner, e.history))
  }

  lemma {:induction false} LoadsWereAsked(l0: Loaded, me: UserId, k: Socket, done: seq<LoadedEvent>,
                                          es: seq<LoadedEvent>)
    requires AllAsked(l0, me, k, done, LoadedRun(l0, me, k, done).answers)
    ensures forall e | e in LoadEvents(LoadedRun(l0, me, k, done), me, k, es) :: CameFrom(l0, me, k, done + es, e)
    decreases |es|
  {
    if es != [] {
      hide *;
      StepAsked(l0, me, k, done, es[0]);
      OneStepOn(l0, me, k, done, es);
      LoadsWereAsked(l0, me, k, done + [es[0]], es[1..]);
      var l := LoadedRun(l0, me, k, done);
      forall e | e in LoadEvents(l, me, k, es) ensures CameFrom(l0, me, k, done + es, e) {
        if e in LoadNow(l, k, es[0]) { NowWasAsked(l0, me, k, done, es, e); }
      }
    }
  }

  lemma OneStepOn(l0: Loaded, me: UserId, k: Socket, done: seq<LoadedEvent>, es: seq<LoadedEvent>)
    requires es != []
    ensures var l, l1 := LoadedRun(l0, me, k, done), LoadedRun(l0, me, k, done + [es[0]]);
            && l1 == LoadedStep(l, me, k, es[0]) && done + [es[0]] + es[1..] == done + es
            && LoadEvents(l, me, k, es) == LoadNow(l, k, es[0]) + LoadEvents(l1, me, k, es[1..])
  {
    var l := LoadedRun(l0, me, k, done);
    hide LoadedStep, LoadNow;
    RunsOn(l0, me, k, done, [es[0]]);
    assert LoadedRun(l, me, k, [es[0]]) == LoadedStep(l, me, k, es[0]) by { assert [es[0]][1..] == []; }
  }

  lemma NowWasAsked(l0: Loaded, me: UserId, k: Socket, done: seq<LoadedEvent>, es: seq<LoadedEvent>, e: LoadEvent)
    requires es != [] && AllAsked(l0, me, k, done, LoadedRun(l0, me, k, done).answers)
    requires e in LoadNow(LoadedRun(l0, me, k, done), k, es[0])
    ensures CameFrom(l0, me, k, done + es, e)
  {
    hide LoadedRun, Asked;
    if e.Loads? {
      var answers := LoadedRun(l0, me, k, done).answers;
      var a :| 0 <= a < |answers| && LoadOf(answers[a]) == e;
      assert LoadOf(answers[a]) == Loads(answers[a].partner, answers[a].history);
      assert Asked(l0, me, k, done, answers[a]);
      AskedBefore(l0, me, k, done, es, answers[a]);
    }
  }

  /**
   From any reachable state of the server, every history a browser takes in was made by an earlier request, from
   the rows as they stood then: those of the page, in its order, each with author, text, time and status.
   */
  lemma HistoriesWereAsked(n: nat, es: seq<Event>, client: Session, pos: nat, me: UserId, k: Socket,
                           les: seq<LoadedEvent>, e: LoadEvent)
    requires e in LoadEvents(Started(n, es, client, pos), me, k, les) && e.Loads?
    ensures Asked(Started(n, es, client, pos), me, k, les, Answer(e.partner, e.history))
  {
    var l := Started(n, es, client, pos);
    assert LoadedRun(l, me, k, []) == l && [] + les == les;
    hide LoadedRun, Asked, Started, LoadEvents;
    assert l.answers == [] by { StartedEmpty(n, es, client, pos); }
    LoadsWereAsked(l, me, k, [], les);
    assert CameFrom(l, me, k, les, e);
  }

  lemma StartedEmpty(n: nat, es: seq<Event>, client: Session, pos: nat)
    ensures Started(n, es, client, pos).answers == []
  {}

  /** The rows of the chat that are older than this one. */
  function Older(db: DbSpec.Db, chat: ChatId, m: MsgId): set<MsgId>
    requires 0 <= m < |db.rows|
  {
    set x | x in RowsOf(db, chat) && db.rows[x].createdAt < db.rows[m].createdAt
  }

  /** With distinct times, the history has a row of the chat exactly if fewer than fifty are older. */
  lemma InHistoryIffEarly(db: DbSpec.Db, chat: ChatId, page: seq<MsgId>, m: MsgId)
    requires DbSpec.ValidIds(db, page) && IsPage(db, chat, page) && m in RowsOf(db, chat)
    requires forall x, y | x in RowsOf(db, chat) && y in RowsOf(db, chat) && x != y ::
               db.rows[x].createdAt != db.rows[y].createdAt
    ensures m in page <==> |Older(db, chat, m)| < 50
  {
    var ids := set x | x in page;
    Backlog.CardinalityOfDistinct(page);
    hide DbSpec.Ascending, DbSpec.Distinct;
    if m in page {
      OlderIsIn(db, chat, page, m);
      FewerThan(Older(db, chat, m), ids - {m});
    } else {
      forall x | x in ids ensures x in Older(db, chat, m) && x in RowsOf(db, chat) - {m} {}
      hide RowsOf, Older;
      FewerThan(ids, Older(db, chat, m));
      FewerThan(ids, RowsOf(db, chat) - {m});
    }
  }

  lemma OlderIsIn(db: DbSpec.Db, chat: ChatId, page: seq<MsgId>, m: MsgId)
    requires DbSpec.ValidIds(db, page) && IsPage(db, chat, page) && m in page
    ensures Older(db, chat, m) <= (set x | x in page) - {m}
  {
    hide DbSpec.Ascending, DbSpec.Distinct;
    var j :| 0 <= j < |page| && page[j] == m;
  }

  lemma FewerThan(a: set<MsgId>, b: set<MsgId>)
    requires a <= b
    ensures |a| <= |b|
  {
    assert b == a + (b - a);
  }
}
