/**
 From server to screen with histories: the joint runs of server and browser, in which chat windows now also ask
 for their histories, and answers come in whenever they come.
 */
module LoadedEndToEnd {
  import opened ChatTypes
  import opened StoreRuns
  import opened Protocol
  import opened ProtocolSteps
  import opened EndToEnd
  import opened HistoryMerge
  import opened HistoryRuns
  import EntryPhases
  import DbSpec
  import Store
  import NoLoss
  import PacketTruth
  import Receipts
  import Addressing

  const HISTORY_LIMIT: nat := 50

  // the tables keep microseconds, the answer whole seconds
  const SECOND: int := 1_000_000

  // ---- what the server answers

  function RowsOf(db: DbSpec.Db, chat: ChatId): set<MsgId> {
    set m: MsgId | 0 <= m < |db.rows| && db.rows[m].chat == chat
  }

  /** A result the history query may return: the chat's oldest fifty rows, in order of time. */
  ghost predicate IsPage(db: DbSpec.Db, chat: ChatId, page: seq<MsgId>) {
    && (forall j | 0 <= j < |page| :: page[j] in RowsOf(db, chat))
    && DbSpec.Distinct(page) && DbSpec.Ascending(db, page)
    && |page| == Min(HISTORY_LIMIT, |RowsOf(db, chat)|)
    && (forall m, j | m in RowsOf(db, chat) && m !in page && 0 <= j < |page| ::
          db.rows[page[j]].createdAt <= db.rows[m].createdAt)
  }

  /** A row as its reader's browser takes it from the answer. */
  function EntryOf(db: DbSpec.Db, me: UserId, m: MsgId): Store.Entry
    requires 0 <= m < |db.rows|
  {
    var r := db.rows[m];
    Store.Entry(Store.Row(m), r.sender, r.body, r.createdAt - r.createdAt % SECOND, r.status, r.sender == me)
  }

  function Answered(db: DbSpec.Db, me: UserId, page: seq<MsgId>): seq<Store.Entry>
    requires DbSpec.ValidIds(db, page)
  {
    seq(|page|, j requires 0 <= j < |page| => EntryOf(db, me, page[j]))
  }

  // ---- joint runs with requests

  datatype Answer = Answer(partner: UserId, history: seq<Store.Entry>)

  /** `answers` are the server's answers under way to the browser. */
  datatype Loaded = Loaded(joint: Joint, answers: seq<Answer>)

  datatype LoadedEvent =
    | Goes(e: JointEvent)
    | Asks(partner: UserId, pick: ChatId, page: seq<MsgId>)  // the server handles a request for a history
    | Gets(a: nat)                                           // an answer reaches the browser

  ghost predicate CanAsk(db: DbSpec.Db, me: UserId, partner: UserId, pick: ChatId, page: seq<MsgId>) {
    && DbSpec.ValidPick(db, me, partner, pick)
    && var r := DbSpec.FindOrCreateChat(db, me, partner, pick);
       r.Found? && DbSpec.ValidIds(r.db, page) && IsPage(r.db, r.chat, page)
  }

  function LoadOf(x: Answer): LoadEvent {
    Loads(x.partner, x.history)
  }

  ghost function LoadedStep(l: Loaded, me: UserId, k: Socket, e: LoadedEvent): Loaded {
    match e
    case Goes(je) => l.(joint := JointStep(l.joint, me, k, je))
    case Asks(partner, pick, page) =>
      if CanAsk(l.joint.sys.db, me, partner, pick, page) then
        var db := DbSpec.FindOrCreateChat(l.joint.sys.db, me, partner, pick).db;
        Loaded(JointStep(l.joint, me, k, Serves(HistoryEv(me, partner, pick))),
               l.answers + [Answer(partner, Answered(db, me, page))])
      else l
    case Gets(a) =>
      if a < |l.answers| then
        Loaded(l.joint.(client := LoadStep(l.joint.client, me, LoadOf(l.answers[a]))),
               l.answers[..a] + l.answers[a + 1..])
      else l
  }

  ghost function LoadedRun(l: Loaded, me: UserId, k: Socket, es: seq<LoadedEvent>): Loaded
    decreases |es|
  {
    if es == [] then l else LoadedRun(LoadedStep(l, me, k, es[0]), me, k, es[1..])
  }

  function AsUsual(ces: seq<ClientEvent>): seq<LoadEvent> {
    seq(|ces|, x requires 0 <= x < |ces| => Usual(ces[x]))
  }

  ghost function LoadNow(l: Loaded, k: Socket, e: LoadedEvent): seq<LoadEvent> {
    match e
    case Goes(je) => AsUsual(EventNow(l.joint, k, je))
    case Asks(_, _, _) => []
    case Gets(a) => if a < |l.answers| then [LoadOf(l.answers[a])] else []
  }

  /** What the browser goes through in such a run. */
  ghost function LoadEvents(l: Loaded, me: UserId, k: Socket, es: seq<LoadedEvent>): seq<LoadEvent>
    decreases |es|
  {
    if es == [] then [] else LoadNow(l, k, es[0]) + LoadEvents(LoadedStep(l, me, k, es[0]), me, k, es[1..])
  }

  lemma {:induction false} RunLoads(l: Loaded, me: UserId, k: Socket, es: seq<LoadedEvent>)
    ensures LoadedRun(l, me, k, es).joint.client == LoadRun(l.joint.client, me, LoadEvents(l, me, k, es))
    decreases |es|
  {
    hide ClientStep, Step, SetDMHistory, CanAsk;
    if es != [] {
      var now, rest := LoadNow(l, k, es[0]), LoadEvents(LoadedStep(l, me, k, es[0]), me, k, es[1..]);
      RunLoads(LoadedStep(l, me, k, es[0]), me, k, es[1..]);
      if now == [] { assert now + rest == rest; } else { assert (now + rest)[1..] == rest; }
    }
  }

  lemma {:induction false} RunsOn(l: Loaded, me: UserId, k: Socket, a: seq<LoadedEvent>, b: seq<LoadedEvent>)
    ensures LoadedRun(l, me, k, a + b) == LoadedRun(LoadedRun(l, me, k, a), me, k, b)
    ensures LoadEvents(l, me, k, a + b) == LoadEvents(l, me, k, a) + LoadEvents(LoadedRun(l, me, k, a), me, k, b)
    decreases |a|
  {
    hide LoadedStep, LoadNow;
    if a == [] {
      assert a + b == b;
      assert LoadEvents(l, me, k, a) + LoadEvents(l, me, k, b) == LoadEvents(l, me, k, b);
    } else {
      assert (a + b)[1..] == a[1..] + b;
      RunsOn(LoadedStep(l, me, k, a[0]), me, k, a[1..], b);
    }
  }

  // ---- what such runs keep

  /** An entry shows a row: author and text, the time down to the second, and whether it is the user's own. */
  predicate ShowsRow(e: Store.Entry, m: MsgId, r: DbSpec.Row, me: UserId) {
    && e.id == Store.Row(m) && e.from == r.sender && e.body == r.body && e.mine == (r.sender == me)
    && e.timestamp % SECOND == 0 && e.timestamp <= r.createdAt < e.timestamp + SECOND
  }

  /** An entry shows a stored row of a chat of the two users, with a status the row has or had. */
  predicate EntryFits(db: DbSpec.Db, me: UserId, partner: UserId, e: Store.Entry) {
    && e.id.Row? && 0 <= e.id.m < |db.rows| && ShowsRow(e, e.id.m, db.rows[e.id.m], me)
    && Rank(e.status) <= Rank(db.rows[e.id.m].status)
    && (db.rows[e.id.m].chat, me) in db.members && (db.rows[e.id.m].chat, partner) in db.members
  }

  /** Each row once, and in order of time. */
  predicate AnswerOk(db: DbSpec.Db, me: UserId, x: Answer) {
    && IdsDistinct(x.history) && Sorted(x.history)
    && forall j | 0 <= j < |x.history| :: EntryFits(db, me, x.partner, x.history[j])
  }

  predicate AnswersOk(l: Loaded, me: UserId) {
    forall a | 0 <= a < |l.answers| :: AnswerOk(l.joint.sys.db, me, l.answers[a])
  }

  ghost predicate LoadedOk(l: Loaded, me: UserId, k: Socket) {
    JointOk(l.joint, k) && PacketTruth.Truthful(l.joint.sys) && AnswersOk(l, me)
  }

  /** Rows keep everything but their status, which never falls, and chats their members. */
  predicate DbGrows(db: DbSpec.Db, db': DbSpec.Db) {
    && |db.rows| <= |db'.rows| && db.members <= db'.members
    && forall m | 0 <= m < |db.rows| ::
         && db'.rows[m] == db.rows[m].(status := db'.rows[m].status)
         && Rank(db.rows[m].status) <= Rank(db'.rows[m].status)
  }

  lemma StepGrows(s: Sys, e: Event)
    requires SysOk(s)
    ensures DbGrows(s.db, Step(s, e).db)
  {
    hide SysOk, Step;
    NoLoss.StepAdvancesRows(s, e);
    PacketTruth.StepMembers(s, e);
  }

  lemma AnswerStays(db: DbSpec.Db, db': DbSpec.Db, me: UserId, x: Answer)
    requires AnswerOk(db, me, x) && DbGrows(db, db')
    ensures AnswerOk(db', me, x)
  {
    forall j | 0 <= j < |x.history| ensures EntryFits(db', me, x.partner, x.history[j]) {
      assert EntryFits(db, me, x.partner, x.history[j]);
    }
  }

  lemma SysOf(j: Joint, k: Socket)
    requires JointOk(j, k)
    ensures SysOk(j.sys) && StoreRuns.StoreOk(j.client.store) && KnowsOnly(j.client.store, |j.sys.db.rows|)
  {}

  /** Any step of server or browser. */
  lemma GoesOk(l: Loaded, me: UserId, k: Socket, e: JointEvent)
    requires LoadedOk(l, me, k)
    ensures var j := JointStep(l.joint, me, k, e);
            LoadedOk(l.(joint := j), me, k) && DbGrows(l.joint.sys.db, j.sys.db)
  {
    var j := JointStep(l.joint, me, k, e);
    SysOf(l.joint, k);
    hide JointOk, SysOk, StoreOk, KnowsOnly, PacketTruth.Truthful, AnswerOk, DbGrows, Step, ClientStep;
    StepJoint(l.joint, me, k, e);
    if e.Serves? {
      StepGrows(l.joint.sys, e.e);
      PacketTruth.StepTells(l.joint.sys, e.e);
    } else {
      SameGrows(l.joint.sys.db);
    }
    forall a | 0 <= a < |l.answers| ensures AnswerOk(j.sys.db, me, l.answers[a]) {
      AnswerStays(l.joint.sys.db, j.sys.db, me, l.answers[a]);
    }
  }

  lemma SameGrows(db: DbSpec.Db)
    ensures DbGrows(db, db)
  {}

  lemma AnsweredSorted(db: DbSpec.Db, me: UserId, page: seq<MsgId>)
    requires DbSpec.ValidIds(db, page) && DbSpec.Ascending(db, page)
    ensures Sorted(Answered(db, me, page))
  {}

  lemma AskedOk(db: DbSpec.Db, me: UserId, partner: UserId, pick: ChatId, page: seq<MsgId>)
    requires DbSpec.DbOk(db) && CanAsk(db, me, partner, pick, page)
    ensures var r := DbSpec.FindOrCreateChat(db, me, partner, pick);
            AnswerOk(r.db, me, Answer(partner, Answered(r.db, me, page)))
  {
    DbSpec.LookupIsRightIffUsersDiffer(db, me, partner, pick);
    var r := DbSpec.FindOrCreateChat(db, me, partner, pick);
    AnsweredSorted(r.db, me, page);
    hide DbSpec.FindOrCreateChat, DbSpec.ValidPick, DbSpec.DbOk, DbSpec.Ascending, Sorted;
    forall j | 0 <= j < |page| ensures EntryFits(r.db, me, partner, EntryOf(r.db, me, page[j])) {
      assert page[j] in RowsOf(r.db, r.chat);
    }
  }

  lemma GetsKnows(s: Store.Conversations, partner: UserId, history: seq<Store.Entry>, rows: nat)
    requires StoreOk(s) && KnowsOnly(s, rows)
    requires forall j | 0 <= j < |history| :: history[j].id.Row? && history[j].id.m < rows
    ensures KnowsOnly(SetDMHistory(s, partner, history), rows)
  {
    StoreHasDistinct(s);
    var local := Store.Get(s, partner);
    var msgs := Merge(local, history);
    MergeIsExact(local, history, 0);
    Store.PutKeepsPartners(s, partner, msgs);
    var s' := Store.Put(s, partner, msgs);
    GetIs(s, partner);
    GetIs(s', partner);
    hide Store.Get, Store.Put, Merge, Ids, StoreOk, Without, AtTime, Sorted;
    forall i, j, m | EntryPhases.Named(s', i, j, Store.Row(m)) ensures m < rows {
      if s'[i].partner == partner {
        assert s'[i].msgs == msgs && msgs[j] in msgs;
        if msgs[j] !in history { LocalKnows(s, partner, msgs[j], rows); }
      } else {
        assert i < |s| && s'[i] == s[i];
        assert EntryPhases.Named(s, i, j, Store.Row(m));
      }
    }
  }

  lemma LocalKnows(s: Store.Conversations, partner: UserId, e: Store.Entry, rows: nat)
    requires Store.PartnersDistinct(s) && KnowsOnly(s, rows) && e in Store.Get(s, partner)
    ensures e.id.Row? ==> e.id.m < rows
  {
    var i := Store.Place(s, partner);
    var j :| 0 <= j < |s[i].msgs| && s[i].msgs[j] == e;
    if e.id.Row? { assert EntryPhases.Named(s, i, j, Store.Row(e.id.m)); }
  }

  lemma GetsOk(l: Loaded, me: UserId, k: Socket, a: nat)
    requires LoadedOk(l, me, k) && a < |l.answers|
    ensures LoadedOk(LoadedStep(l, me, k, Gets(a)), me, k)
  {
    var x := l.answers[a];
    var l' := LoadedStep(l, me, k, Gets(a));
    assert AnswerOk(l.joint.sys.db, me, x);
    forall b | 0 <= b < |l'.answers| ensures AnswerOk(l'.joint.sys.db, me, l'.answers[b]) {
      assert l'.answers[b] == l.answers[if b < a then b else b + 1];
    }
    forall j | 0 <= j < |x.history| ensures x.history[j].id.Row? && x.history[j].id.m < |l.joint.sys.db.rows| {
      assert EntryFits(l.joint.sys.db, me, x.partner, x.history[j]);
    }
    hide AnswerOk, SysOk, SetDMHistory, SentOn, KnowsOnly, StoreOk, PacketTruth.Truthful;
    if x.history != [] {
      LoadKeepsStore(l.joint.client.store, x.partner, x.history);
      GetsKnows(l.joint.client.store, x.partner, x.history, |l.joint.sys.db.rows|);
    }
  }

  lemma StepLoaded(l: Loaded, me: UserId, k: Socket, e: LoadedEvent)
    requires LoadedOk(l, me, k)
    ensures LoadedOk(LoadedStep(l, me, k, e), me, k)
    ensures DbGrows(l.joint.sys.db, LoadedStep(l, me, k, e).joint.sys.db)
  {
    match e
    case Goes(je) => hide JointOk, PacketTruth.Truthful, AnswerOk, DbGrows, JointStep; GoesOk(l, me, k, je);
    case Asks(partner, pick, page) => AsksOk(l, me, k, partner, pick, page);
    case Gets(a) =>
      SameGrows(l.joint.sys.db);
      hide JointOk, PacketTruth.Truthful, AnswerOk, DbGrows;
      if a < |l.answers| { GetsOk(l, me, k, a); }
  }

  /** The lookup behind a request is the system's step. */
  lemma AskIsStep(s: Sys, me: UserId, partner: UserId, pick: ChatId)
    requires DbSpec.ValidPick(s.db, me, partner, pick)
    requires DbSpec.FindOrCreateChat(s.db, me, partner, pick).Found?
    ensures Step(s, HistoryEv(me, partner, pick)).db == DbSpec.FindOrCreateChat(s.db, me, partner, pick).db
  {}

  lemma TablesOf(s: Sys)
    requires SysOk(s)
    ensures TablesOk(s.db, s.hist) && DbSpec.DbOk(s.db)
  {}

  lemma AsksOk(l: Loaded, me: UserId, k: Socket, partner: UserId, pick: ChatId, page: seq<MsgId>)
    requires LoadedOk(l, me, k)
    ensures LoadedOk(LoadedStep(l, me, k, Asks(partner, pick, page)), me, k)
    ensures DbGrows(l.joint.sys.db, LoadedStep(l, me, k, Asks(partner, pick, page)).joint.sys.db)
  {
    SysOf(l.joint, k);
    TablesOf(l.joint.sys);
    SameGrows(l.joint.sys.db);
    hide JointOk, SysOk, StoreOk, KnowsOnly, PacketTruth.Truthful, AnswerOk, DbGrows, TablesOk;
    if CanAsk(l.joint.sys.db, me, partner, pick, page) {
      AskedOk(l.joint.sys.db, me, partner, pick, page);
      AskIsStep(l.joint.sys, me, partner, pick);
      hide DbSpec.FindOrCreateChat, DbSpec.ValidPick, IsPage, Step, DbSpec.DbOk;
      GoesOk(l, me, k, Serves(HistoryEv(me, partner, pick)));
    }
  }

  lemma LoadedPos(l: Loaded, me: UserId, k: Socket)
    requires LoadedOk(l, me, k)
    ensures k.i < |l.joint.sys.nodes| && l.joint.pos <= |SentOn(l.joint.sys, k)|
  {
    JointPos(l.joint, k);
  }

  lemma {:induction false} UsualPackets(ces: seq<ClientEvent>)
    ensures Packets(AsUsual(ces)) == EntryPhases.Arrivals(ces)
    decreases |ces|
  {
    if ces != [] {
      assert AsUsual(ces)[1..] == AsUsual(ces[1..]);
      UsualPackets(ces[1..]);
    }
  }

  lemma {:induction false} PacketsAdd(a: seq<LoadEvent>, b: seq<LoadEvent>)
    ensures Packets(a + b) == Packets(a) + Packets(b)
    decreases |a|
  {
    if a == [] {
      assert a + b == b;
    } else {
      assert (a + b)[1..] == a[1..] + b;
      PacketsAdd(a[1..], b);
    }
  }

  lemma StepSent(l: Loaded, me: UserId, k: Socket, e: LoadedEvent)
    requires LoadedOk(l, me, k)
    ensures var l' := LoadedStep(l, me, k, e);
            && k.i < |l.joint.sys.nodes| && k.i < |l'.joint.sys.nodes|
            && SentOn(l.joint.sys, k) <= SentOn(l'.joint.sys, k)
  {
    StepLoaded(l, me, k, e);
    LoadedPos(l, me, k);
    LoadedPos(LoadedStep(l, me, k, e), me, k);
    hide JointOk, PacketTruth.Truthful, AnswersOk, JointStep, CanAsk, SentOn, SetDMHistory, DbGrows;
    match e
    case Goes(je) => StepJoint(l.joint, me, k, je);
    case Asks(partner, pick, page) => StepJoint(l.joint, me, k, Serves(HistoryEv(me, partner, pick)));
    case Gets(_) =>
  }

  lemma NowTakes(l: Loaded, me: UserId, k: Socket, e: LoadedEvent, all: seq<Packet>)
    requires LoadedOk(l, me, k) && k.i < |l.joint.sys.nodes| && SentOn(l.joint.sys, k) <= all
    ensures var l' := LoadedStep(l, me, k, e);
            l.joint.pos <= l'.joint.pos <= |all| && Packets(LoadNow(l, k, e)) == all[l.joint.pos..l'.joint.pos]
  {
    LoadedPos(l, me, k);
    hide JointOk, PacketTruth.Truthful, AnswersOk, CanAsk, SentOn, SetDMHistory, EntryPhases.Arrivals;
    match e
    case Goes(je) =>
      NowArrives(l.joint, me, k, je, all);
      UsualPackets(EventNow(l.joint, k, je));
    case _ =>
  }

  lemma Stretches(all: seq<Packet>, a: nat, b: nat, c: nat)
    requires a <= b <= c <= |all|
    ensures all[a..b] + all[b..c] == all[a..c]
  {}

  /** What arrives on such a run is the next stretch of what was sent. */
  lemma {:induction false} RunLoaded(l: Loaded, me: UserId, k: Socket, es: seq<LoadedEvent>)
    requires LoadedOk(l, me, k)
    ensures var f := LoadedRun(l, me, k, es);
            && LoadedOk(f, me, k) && DbGrows(l.joint.sys.db, f.joint.sys.db)
            && k.i < |l.joint.sys.nodes| && k.i < |f.joint.sys.nodes|
            && l.joint.pos <= f.joint.pos <= |SentOn(f.joint.sys, k)|
            && SentOn(l.joint.sys, k) <= SentOn(f.joint.sys, k)
            && Packets(LoadEvents(l, me, k, es)) == SentOn(f.joint.sys, k)[l.joint.pos..f.joint.pos]
    decreases |es|
  {
    LoadedPos(l, me, k);
    SameGrows(l.joint.sys.db);
    hide LoadedOk, LoadedStep, LoadNow, SentOn, DbGrows;
    if es != [] {
      var l1, f := LoadedStep(l, me, k, es[0]), LoadedRun(l, me, k, es);
      StepLoaded(l, me, k, es[0]);
      StepSent(l, me, k, es[0]);
      RunLoaded(l1, me, k, es[1..]);
      GrowsTwice(l.joint.sys.db, l1.joint.sys.db, f.joint.sys.db);
      hide LoadedRun, Packets;
      NowTakes(l, me, k, es[0], SentOn(f.joint.sys, k));
      PacketsAdd(LoadNow(l, k, es[0]), LoadEvents(l1, me, k, es[1..]));
      Stretches(SentOn(f.joint.sys, k), l.joint.pos, l1.joint.pos, f.joint.pos);
    }
  }

  lemma GrowsTwice(a: DbSpec.Db, b: DbSpec.Db, c: DbSpec.Db)
    requires DbGrows(a, b) && DbGrows(b, c)
    ensures DbGrows(a, c)
  {}

  predicate LoadIsOk(db: DbSpec.Db, me: UserId, e: LoadEvent) {
    e.Loads? ==> AnswerOk(db, me, Answer(e.partner, e.history))
  }

  /** Every history the browser takes in came from the server. */
  lemma {:induction false} LoadsAreAnswers(l: Loaded, me: UserId, k: Socket, es: seq<LoadedEvent>)
    requires LoadedOk(l, me, k)
    ensures forall e | e in LoadEvents(l, me, k, es) :: LoadIsOk(LoadedRun(l, me, k, es).joint.sys.db, me, e)
    decreases |es|
  {
    if es != [] {
      var l1, f := LoadedStep(l, me, k, es[0]), LoadedRun(l, me, k, es);
      var now, rest := LoadNow(l, k, es[0]), LoadEvents(l1, me, k, es[1..]);
      forall e | e in now ensures LoadIsOk(l.joint.sys.db, me, e) { NowIsOk(l, me, k, es[0], e); }
      hide LoadedOk, LoadedStep, LoadNow, DbGrows, AnswerOk;
      StepLoaded(l, me, k, es[0]);
      LoadsAreAnswers(l1, me, k, es[1..]);
      RunLoaded(l, me, k, es);
      forall e | e in now + rest ensures LoadIsOk(f.joint.sys.db, me, e) {
        if e in now && e.Loads? {
          AnswerStays(l.joint.sys.db, f.joint.sys.db, me, Answer(e.partner, e.history));
        }
      }
    }
  }

  lemma NowIsOk(l: Loaded, me: UserId, k: Socket, now: LoadedEvent, e: LoadEvent)
    requires LoadedOk(l, me, k) && e in LoadNow(l, k, now)
    ensures LoadIsOk(l.joint.sys.db, me, e)
  {
    hide JointOk, PacketTruth.Truthful, AnswerOk;
  }

  // ---- histories asked for after the notice

  lemma {:induction false} NoneOf(h: seq<Store.Entry>, q: Query)
    requires forall j | 0 <= j < |h| :: !Hits(h[j], q)
    ensures Count(h, q) == 0
  {
    if h != [] {
      NoneOf(h[..|h| - 1], q);
    }
  }

  predicate NoneStale(l: Loaded, m: MsgId) {
    forall a | 0 <= a < |l.answers| :: !Stale(LoadOf(l.answers[a]), m)
  }

  lemma AskedIsRead(db: DbSpec.Db, me: UserId, partner: UserId, page: seq<MsgId>, m: MsgId)
    requires DbSpec.ValidIds(db, page) && PacketTruth.IsRead(db.rows, m)
    ensures !Stale(LoadOf(Answer(partner, Answered(db, me, page))), m)
  {
    NoneOf(Answered(db, me, page), Query(Store.Row(m), NotRead));
  }

  lemma AskedNow(db: DbSpec.Db, me: UserId, partner: UserId, pick: ChatId, page: seq<MsgId>, m: MsgId)
    requires CanAsk(db, me, partner, pick, page) && PacketTruth.IsRead(db.rows, m)
    ensures !Stale(LoadOf(Answer(partner, Answered(DbSpec.FindOrCreateChat(db, me, partner, pick).db, me, page))), m)
  {
    hide DbSpec.ValidPick, IsPage, Stale, Answered;
    var db' := DbSpec.FindOrCreateChat(db, me, partner, pick).db;
    assert db'.rows == db.rows;
    AskedIsRead(db', me, partner, page, m);
  }

  lemma StaysRead(db: DbSpec.Db, db': DbSpec.Db, m: MsgId)
    requires PacketTruth.IsRead(db.rows, m) && DbGrows(db, db')
    ensures PacketTruth.IsRead(db'.rows, m)
  {}

  lemma GetsNoneStale(l: Loaded, me: UserId, k: Socket, a: nat, m: MsgId)
    requires NoneStale(l, m)
    ensures NoneStale(LoadedStep(l, me, k, Gets(a)), m)
  {
    hide Stale, SetDMHistory;
    var l' := LoadedStep(l, me, k, Gets(a));
    forall b | 0 <= b < |l'.answers| ensures !Stale(LoadOf(l'.answers[b]), m) {
      if a < |l.answers| { assert l'.answers[b] == l.answers[if b < a then b else b + 1]; }
    }
  }

  lemma GoesNoneStale(l: Loaded, l': Loaded, m: MsgId)
    requires NoneStale(l, m) && l'.answers == l.answers
    ensures NoneStale(l', m)
  {}

  lemma AsksNoneStale(l: Loaded, me: UserId, k: Socket, partner: UserId, pick: ChatId, page: seq<MsgId>, m: MsgId)
    requires NoneStale(l, m) && PacketTruth.IsRead(l.joint.sys.db.rows, m)
    ensures NoneStale(LoadedStep(l, me, k, Asks(partner, pick, page)), m)
  {
    hide Stale, JointStep, PacketTruth.IsRead;
    if CanAsk(l.joint.sys.db, me, partner, pick, page) {
      AskedNow(l.joint.sys.db, me, partner, pick, page, m);
      hide CanAsk, Answered, DbSpec.FindOrCreateChat;
    }
  }

  lemma NowNotStale(l: Loaded, k: Socket, e: LoadedEvent, m: MsgId)
    requires NoneStale(l, m)
    ensures forall x | x in LoadNow(l, k, e) :: !Stale(x, m)
  {
    UsualNotStale(m);
    hide Stale;
  }

  /** Once the row is read and no stale answer is under way, none ever is again. */
  lemma StepNoneStale(l: Loaded, me: UserId, k: Socket, e: LoadedEvent, m: MsgId)
    requires LoadedOk(l, me, k) && NoneStale(l, m) && PacketTruth.IsRead(l.joint.sys.db.rows, m)
    ensures var l' := LoadedStep(l, me, k, e);
            NoneStale(l', m) && PacketTruth.IsRead(l'.joint.sys.db.rows, m)
    ensures forall x | x in LoadNow(l, k, e) :: !Stale(x, m)
  {
    NowNotStale(l, k, e, m);
    hide LoadedOk, NoneStale, JointStep, PacketTruth.IsRead, LoadNow, DbGrows, CanAsk;
    StepLoaded(l, me, k, e);
    StaysRead(l.joint.sys.db, LoadedStep(l, me, k, e).joint.sys.db, m);
    match e
    case Goes(_) => GoesNoneStale(l, LoadedStep(l, me, k, e), m);
    case Asks(partner, pick, page) => AsksNoneStale(l, me, k, partner, pick, page, m);
    case Gets(a) => GetsNoneStale(l, me, k, a, m);
  }

  lemma UsualNotStale(m: MsgId)
    ensures forall ce :: !Stale(Usual(ce), m)
  {}

  lemma {:induction false} RunNoneStale(l: Loaded, me: UserId, k: Socket, es: seq<LoadedEvent>, m: MsgId)
    requires LoadedOk(l, me, k) && NoneStale(l, m) && PacketTruth.IsRead(l.joint.sys.db.rows, m)
    ensures !AnyStale(LoadEvents(l, me, k, es), m)
    decreases |es|
  {
    if es != [] {
      hide LoadedOk, NoneStale, LoadedStep, LoadNow, Stale, PacketTruth.IsRead;
      StepLoaded(l, me, k, es[0]);
      StepNoneStale(l, me, k, es[0], m);
      RunNoneStale(LoadedStep(l, me, k, es[0]), me, k, es[1..], m);
    }
  }

  // ---- a message composed in such a run

  /**
   The user composes message x to another user, the server stores it as row m, and the browser takes its
   `sent` as event a of what it goes through. Client ids are not used twice, and no window is one with oneself.
   */
  ghost predicate Composes(l: Loaded, me: UserId, k: Socket, partner: UserId, x: nat, body: string, now: int,
                           es: seq<LoadedEvent>, m: MsgId, a: nat)
  {
    var l1 := LoadedStep(l, me, k, Goes(Does(Sends(partner, x, body, now))));
    var s, les := LoadedRun(l1, me, k, es).joint.sys, LoadEvents(l1, me, k, es);
    && Fresh(l.joint.client.store, x) && |l.joint.sys.db.rows| <= m && partner != me
    && a < |les| && les[a] == Usual(Arrives(SentAck(m, x)))
    && (forall p | p in Packets(les) && p.SentAck? && p.clientId == x :: p.mid == m)
    && (forall e | e in les && e.Usual? && e.e.Sends? :: e.e.n != x)
    && (forall e | e in les && e.Loads? :: e.partner != me)
    && (m < |s.hist.dms| ==> s.hist.dms[m].to == partner)
    && k.i < |s.nodes| && k.c < |s.nodes[k.i].hub.chans| && s.nodes[k.i].hub.chans[k.c].user == me
  }

  /** A server's answer is one the machine of a message's entries knows how to take. */
  lemma AnswerFromServer(s: Sys, me: UserId, partner: UserId, x: Answer, m: MsgId)
    requires TablesOk(s.db, s.hist) && AnswerOk(s.db, me, x) && x.partner != me
    requires 0 <= m < |s.db.rows| && s.db.rows[m].sender == me && s.hist.dms[m].to == partner != me
    ensures FromServer(x.history, x.partner == partner, m)
  {
    forall j | 0 <= j < |x.history| ensures EntryFits(s.db, me, x.partner, x.history[j]) {}
    hide AnswerOk, Ids;
    if Store.Row(m) in Ids(x.history) {
      var j := HeldAt(x.history, Store.Row(m));
      assert EntryFits(s.db, me, x.partner, x.history[j]);
      DbSpec.OtherMember(s.db, s.db.rows[m].chat, me, x.partner);
      DbSpec.OtherMember(s.db, s.db.rows[m].chat, me, partner);
      assert partner in {me, x.partner};
      NoneOf(x.history, Query(Store.Row(m), Received));
    }
    assert IdsDistinct(x.history) by { DistinctOf(s.db, me, x); }
  }

  lemma DistinctOf(db: DbSpec.Db, me: UserId, x: Answer)
    requires AnswerOk(db, me, x)
    ensures IdsDistinct(x.history)
  {}

  lemma HeldAt(h: seq<Store.Entry>, id: Store.EntryId) returns (j: nat)
    requires id in Ids(h)
    ensures j < |h| && h[j].id == id
  {
    var i :| 0 <= i < |h| && h[i].id == id;
    j := i;
  }

  /** The acknowledgement on a user's own connection names a row of his. */
  lemma AckedIsOwn(s: Sys, k: Socket, me: UserId, x: nat, m: MsgId)
    requires SysOk(s) && Receipts.ReceiptsOk(s) && k.i < |s.nodes| && SentAck(m, x) in SentOn(s, k)
    requires k.c < |s.nodes[k.i].hub.chans| && s.nodes[k.i].hub.chans[k.c].user == me
    ensures 0 <= m < |s.db.rows| && s.db.rows[m].sender == me
  {
    var at :| 0 <= at < |SentOn(s, k)| && SentOn(s, k)[at] == SentAck(m, x);
    hide SysOk, SentOn;
    var y := SentFrom(s, k, at);
    Receipts.ReceiptsOf(s, k.i);
  }

  lemma {:induction false} PacketIn(les: seq<LoadEvent>, p: Packet)
    ensures p in Packets(les) <==> Usual(Arrives(p)) in les
    decreases |les|
  {
    if les != [] {
      PacketIn(les[1..], p);
      assert les == [les[0]] + les[1..];
    }
  }

  lemma AckedTwice(ps: seq<Packet>, qs: seq<Packet>, x: nat, m: MsgId)
    requires SentAck(m, x) in ps && SentAck(m, x) in qs
    ensures !EntryPhases.AckedOnce(ps + qs, x, m)
  {
    var i :| 0 <= i < |ps| && ps[i] == SentAck(m, x);
    var j :| 0 <= j < |qs| && qs[j] == SentAck(m, x);
    assert (ps + qs)[i] == SentAck(m, x) && (ps + qs)[|ps| + j] == SentAck(m, x);
  }

  lemma NoticeBeforeAck(ps: seq<Packet>, qs: seq<Packet>, x: nat, m: MsgId)
    requires ReadNotice(m) in ps && SentAck(m, x) in qs
    ensures !Receipts.CausalOrder(ps + qs)
  {
    var i :| 0 <= i < |ps| && ps[i] == ReadNotice(m);
    var j :| 0 <= j < |qs| && qs[j] == SentAck(m, x);
    assert (ps + qs)[i] == ReadNotice(m) && (ps + qs)[|ps| + j] == SentAck(m, x);
  }

  /** What stands before a place and from it on. */
  lemma SplitAt(les: seq<LoadEvent>, a: nat)
    requires a < |les|
    ensures Packets(les) == Packets(les[..a]) + Packets(les[a..]) && les[a] in les[a..]
  {
    assert les == les[..a] + les[a..];
    assert les[a..][0] == les[a];
    PacketsAdd(les[..a], les[a..]);
  }

  lemma AckIn(les: seq<LoadEvent>, x: nat, m: MsgId)
    ensures AnyAcks(les, x, m) <==> SentAck(m, x) in Packets(les)
  {
    PacketIn(les, SentAck(m, x));
    hide Packets;
  }

  lemma ThroughAt(les: seq<LoadEvent>, a: nat, x: nat, m: MsgId)
    requires a < |les| && les[a] == Usual(Arrives(SentAck(m, x)))
    ensures les == Through(les[..a], x, m, les[a + 1..])
  {}

  /** Among events whose packets acknowledge the message once, this is the one. */
  lemma FirstAck(les: seq<LoadEvent>, a: nat, x: nat, m: MsgId)
    requires a < |les| && les[a] == Usual(Arrives(SentAck(m, x))) && EntryPhases.AckedOnce(Packets(les), x, m)
    ensures !AnyAcks(les[..a], x, m) && les == Through(les[..a], x, m, les[a + 1..])
  {
    SplitAt(les, a);
    AckIn(les[..a], x, m);
    PacketIn(les[a..], SentAck(m, x));
    ThroughAt(les, a, x, m);
    hide Packets, EntryPhases.AckedOnce, AnyAcks, Through;
    if SentAck(m, x) in Packets(les[..a]) { AckedTwice(Packets(les[..a]), Packets(les[a..]), x, m); }
  }

  lemma ComposeAt(c: Session, me: UserId, partner: UserId, x: nat, body: string, now: int)
    requires StoreOk(c.store) && Fresh(c.store, x)
    ensures var s, at := ClientStep(c, me, Sends(partner, x, body, now)).store, Store.Place(c.store, partner);
            at < |s| && s[at].partner == partner
  {}

  /** All events of the run fit the composed message. */
  lemma EventsFit(l1: Loaded, me: UserId, k: Socket, partner: UserId, x: nat, es: seq<LoadedEvent>, m: MsgId)
    requires LoadedOk(l1, me, k) && partner != me
    requires var s, les := LoadedRun(l1, me, k, es).joint.sys, LoadEvents(l1, me, k, es);
             && SentAck(m, x) in Packets(les)
             && (forall p | p in Packets(les) && p.SentAck? && p.clientId == x :: p.mid == m)
             && (forall e | e in les && e.Usual? && e.e.Sends? :: e.e.n != x)
             && (forall e | e in les && e.Loads? :: e.partner != me)
             && (0 <= m < |s.hist.dms| ==> s.hist.dms[m].to == partner)
             && k.i < |s.nodes| && k.c < |s.nodes[k.i].hub.chans| && s.nodes[k.i].hub.chans[k.c].user == me
    ensures var s, les := LoadedRun(l1, me, k, es).joint.sys, LoadEvents(l1, me, k, es);
            && AllFitLoad(les, partner, x, m) && EntryPhases.AckedOnce(Packets(les), x, m)
            && (ReadNotice(m) in Packets(les) ==> EntryPhases.ReadFollowsAck(Packets(les), x, m))
  {
    var f, les := LoadedRun(l1, me, k, es), LoadEvents(l1, me, k, es);
    var ps := Packets(les);
    RunLoaded(l1, me, k, es);
    LoadsAreAnswers(l1, me, k, es);
    var all := SentOn(f.joint.sys, k);
    assert SentAck(m, x) in all;
    hide LoadedRun, LoadEvents, Packets, SentOn;
    JointParts(f, me, k);
    TablesOf(f.joint.sys);
    hide LoadedOk, SysOk;
    AckedIsOwn(f.joint.sys, k, me, x, m);
    StretchFits(f.joint.sys, k, l1.joint.pos, f.joint.pos, x, m);
    hide EntryPhases.AckedOnce, EntryPhases.ReadFollowsAck, TablesOk, AnswerOk, FromServer, DbSpec.DbOk;
    forall j | 0 <= j < |les| ensures FitsLoad(les[j], partner, x, m) {
      var e := les[j];
      assert e in les;
      match e
      case Loads(q, h) =>
        assert LoadIsOk(f.joint.sys.db, me, e);
        AnswerFromServer(f.joint.sys, me, partner, Answer(q, h), m);
      case Usual(Arrives(p)) =>
        PacketIn(les, p);
      case _ =>
    }
  }

  lemma JointParts(l: Loaded, me: UserId, k: Socket)
    requires LoadedOk(l, me, k)
    ensures SysOk(l.joint.sys) && Receipts.ReceiptsOk(l.joint.sys) && Addressing.Addressed(l.joint.sys)
    ensures StoreOk(l.joint.client.store) && KnowsOnly(l.joint.client.store, |l.joint.sys.db.rows|)
    ensures PacketTruth.Truthful(l.joint.sys)
  {}

  lemma ComposedIs(l: Loaded, me: UserId, k: Socket, partner: UserId, x: nat, body: string, now: int,
                   es: seq<LoadedEvent>, m: MsgId, a: nat)
    requires LoadedOk(l, me, k) && Composes(l, me, k, partner, x, body, now, es, m, a)
    ensures var l1 := LoadedStep(l, me, k, Goes(Does(Sends(partner, x, body, now))));
            var c, les, at := l1.joint.client, LoadEvents(l1, me, k, es), Store.Place(l.joint.client.store, partner);
            && LoadedOk(l1, me, k)
            && ComposedRun(c, les[..a], les[a + 1..], at, |Store.Get(l.joint.client.store, partner)|, x, m)
            && c.store[at].partner == partner && les == Through(les[..a], x, m, les[a + 1..])
            && (ReadNotice(m) in Packets(les) ==> EntryPhases.ReadFollowsAck(Packets(les), x, m))
  {
    var l1 := LoadedStep(l, me, k, Goes(Does(Sends(partner, x, body, now))));
    var les := LoadEvents(l1, me, k, es);
    StepLoaded(l, me, k, Goes(Does(Sends(partner, x, body, now))));
    JointParts(l, me, k);
    JointParts(l1, me, k);
    EntryPhases.Composed(l.joint.client, me, partner, x, body, now);
    ComposeAt(l.joint.client, me, partner, x, body, now);
    assert l1.joint.sys == l.joint.sys;
    KnowsNoneBeyond(l1.joint.client.store, |l1.joint.sys.db.rows|, m);
    PacketIn(les, SentAck(m, x));
    hide LoadedOk, LoadedStep, LoadEvents, LoadedRun, Packets, StoreOk, KnowsOnly, AllFitLoad, EntryPhases.AckedOnce,
      EntryPhases.ReadFollowsAck, EntryPhases.OnlyAt, EntryPhases.Nowhere, Fresh, Through, AnyAcks;
    EventsFit(l1, me, k, partner, x, es, m);
    FirstAck(les, a, x, m);
  }

  // ---- the main results

  /** A reachable state of the server, and any session of a browser that names stored rows only. */
  ghost predicate Starts(n: nat, es: seq<Event>, client: Session, k: Socket, pos: nat) {
    var s := Run(Init(n), es);
    && StoreOk(client.store) && KnowsOnly(client.store, |s.db.rows|)
    && k.i < |s.nodes| && pos <= |SentOn(s, k)|
  }

  ghost function Started(n: nat, es: seq<Event>, client: Session, pos: nat): Loaded {
    Loaded(Joint(Run(Init(n), es), client, pos), [])
  }

  lemma StartedOk(n: nat, es: seq<Event>, client: Session, k: Socket, pos: nat, me: UserId)
    requires Starts(n, es, client, k, pos)
    ensures LoadedOk(Started(n, es, client, pos), me, k)
  {
    NoLoss.InitOk(n);
    PacketTruth.InitTells(n);
    PacketTruth.RunTells(Init(n), es);
    StartsOk(n, es, client, k, pos);
    hide JointOk, Run, Init, PacketTruth.Truthful;
  }

  /**
   How often the message is shown, and whether it is read, after any run in which the browser took its `sent`:
   twice exactly if a history with the row came before that and none since, and all read exactly if something
   after it read the row and no stale history came later.
   */
  lemma ShownThroughLoads(n: nat, es: seq<Event>, client: Session, k: Socket, pos: nat, me: UserId,
                          before: seq<LoadedEvent>, partner: UserId, x: nat, body: string, now: int,
                          after: seq<LoadedEvent>, m: MsgId, a: nat)
    requires Starts(n, es, client, k, pos)
    requires Composes(LoadedRun(Started(n, es, client, pos), me, k, before), me, k, partner, x, body, now, after, m, a)
    ensures var l1 := LoadedStep(LoadedRun(Started(n, es, client, pos), me, k, before), me, k,
                                 Goes(Does(Sends(partner, x, body, now))));
            var s, les := LoadedRun(l1, me, k, after).joint.client.store, LoadEvents(l1, me, k, after);
            var msgs := Store.Get(s, partner);
            && CountId(msgs, Store.Row(m)) == (if AnyBrings(les[..a], m) && !AnyBrings(les[a + 1..], m) then 2 else 1)
            && (AllRead(msgs, Store.Row(m)) <==> Cleared(les[a + 1..], m))
            && (forall j | 0 <= j < |s| && s[j].partner != partner :: CountId(s[j].msgs, Store.Row(m)) == 0)
  {
    StartedOk(n, es, client, k, pos, me);
    RunLoaded(Started(n, es, client, pos), me, k, before);
    hide Starts, LoadedOk, Started, LoadedRun, LoadEvents, LoadedStep, Composes, SentOn, DbGrows, Packets, LoadRun;
    var l := LoadedRun(Started(n, es, client, pos), me, k, before);
    var l1 := LoadedStep(l, me, k, Goes(Does(Sends(partner, x, body, now))));
    var les := LoadEvents(l1, me, k, after);
    ComposedIs(l, me, k, partner, x, body, now, after, m, a);
    RunLoads(l1, me, k, after);
    hide ComposedRun, Through, Store.Place, Store.Get, AnyBrings, Cleared, AllRead, CountId;
    var at, entry := Store.Place(l.joint.client.store, partner), |Store.Get(l.joint.client.store, partner)|;
    ShownTwiceIffLoadedBefore(l1.joint.client, me, les[..a], les[a + 1..], at, entry, x, m);
    AllReadIffCleared(l1.joint.client, me, les[..a], les[a + 1..], at, entry, x, m);
  }

  lemma NoticeReads(l: Loaded, me: UserId, k: Socket, m: MsgId)
    requires LoadedOk(l, me, k) && k.i < |l.joint.sys.nodes| && ReadNotice(m) in SentOn(l.joint.sys, k)
    ensures PacketTruth.IsRead(l.joint.sys.db.rows, m)
  {
    JointParts(l, me, k);
    hide LoadedOk;
    var s := l.joint.sys;
    var at :| 0 <= at < |SentOn(s, k)| && SentOn(s, k)[at] == ReadNotice(m);
    hide SentOn, SysOk, PacketTruth.IsRead;
    var y := SentFrom(s, k, at);
    assert PacketTruth.LogTells(s.db.rows, s.nodes[k.i].hub.log);
    assert PacketTruth.Tells(s.db.rows, s.nodes[k.i].hub.log[y].packet);
  }

  /** The notice stands behind the acknowledgement among the events as it does among the packets. */
  lemma NoticeBehind(les: seq<LoadEvent>, a: nat, z: nat, x: nat, m: MsgId)
    requires a < |les| && les[a] == Usual(Arrives(SentAck(m, x)))
    requires z < |les| && les[z] == Usual(Arrives(ReadNotice(m)))
    requires Receipts.CausalOrder(Packets(les))
    ensures a < z
  {
    if z < a {
      SplitAt(les, a);
      assert les[z] in les[..a] by { assert les[..a][z] == les[z]; }
      PacketIn(les[..a], ReadNotice(m));
      PacketIn(les[a..], SentAck(m, x));
      hide Packets, Receipts.CausalOrder;
      NoticeBeforeAck(Packets(les[..a]), Packets(les[a..]), x, m);
    }
  }

  lemma RunIsCausal(l: Loaded, me: UserId, k: Socket, es: seq<LoadedEvent>)
    requires LoadedOk(l, me, k)
    ensures Receipts.CausalOrder(Packets(LoadEvents(l, me, k, es)))
  {
    RunLoaded(l, me, k, es);
    var f := LoadedRun(l, me, k, es);
    JointParts(f, me, k);
    hide LoadedOk, LoadedRun, LoadEvents, Packets, SentOn, SysOk;
    SentIsCausal(f.joint.sys, k);
    StretchIsCausal(SentOn(f.joint.sys, k), l.joint.pos, f.joint.pos);
  }

  lemma ClearedBy(les: seq<LoadEvent>, more: seq<LoadEvent>, a: nat, m: MsgId)
    requires a < |les| - 1 && Clears(les[|les| - 1], m) && !AnyStale(more, m)
    ensures Cleared((les + more)[a + 1..], m)
  {
    hide Clears, AnyStale;
    var tail, z := (les + more)[a + 1..], |les| - 1 - (a + 1);
    assert tail[z] == les[|les| - 1] && tail[z + 1..] == more;
  }

  /** The browser has just taken the notice, and no answer with the row unread is under way to it. */
  ghost predicate JustRead(l1: Loaded, me: UserId, k: Socket, first: seq<LoadedEvent>, m: MsgId) {
    var les := LoadEvents(l1, me, k, first);
    les != [] && les[|les| - 1] == Usual(Arrives(ReadNotice(m))) && NoneStale(LoadedRun(l1, me, k, first), m)
  }

  /** Once the browser has taken the notice, the row is read. */
  lemma TakenIsRead(l1: Loaded, me: UserId, k: Socket, first: seq<LoadedEvent>, m: MsgId)
    requires LoadedOk(l1, me, k) && JustRead(l1, me, k, first, m)
    ensures var l2 := LoadedRun(l1, me, k, first);
            LoadedOk(l2, me, k) && PacketTruth.IsRead(l2.joint.sys.db.rows, m)
  {
    RunLoaded(l1, me, k, first);
    PacketIn(LoadEvents(l1, me, k, first), ReadNotice(m));
    hide LoadedOk, LoadedRun, LoadEvents, Packets, SentOn, DbGrows, NoneStale, PacketTruth.IsRead;
    NoticeReads(LoadedRun(l1, me, k, first), me, k, m);
  }

  lemma JustReadClears(l1: Loaded, me: UserId, k: Socket, first: seq<LoadedEvent>, rest: seq<LoadedEvent>, x: nat,
                       m: MsgId, a: nat)
    requires LoadedOk(l1, me, k) && JustRead(l1, me, k, first, m)
    requires var les := LoadEvents(l1, me, k, first + rest);
             a < |les| && les[a] == Usual(Arrives(SentAck(m, x)))
    ensures Cleared(LoadEvents(l1, me, k, first + rest)[a + 1..], m)
  {
    var l2, les1 := LoadedRun(l1, me, k, first), LoadEvents(l1, me, k, first);
    RunsOn(l1, me, k, first, rest);
    RunIsCausal(l1, me, k, first + rest);
    TakenIsRead(l1, me, k, first, m);
    hide LoadedOk, LoadedRun, LoadEvents, Packets, Cleared, AnyStale, NoneStale, Receipts.CausalOrder,
      PacketTruth.IsRead;
    RunNoneStale(l2, me, k, rest, m);
    NoticeBehind(les1 + LoadEvents(l2, me, k, rest), a, |les1| - 1, x, m);
    ClearedBy(les1, LoadEvents(l2, me, k, rest), a, m);
  }

  /**
   End to end, histories included: if no answer with the row unread is under way when the sender's browser takes
   the `read` notice, then whatever the server, the browser and its windows do from then on, and however many
   histories are asked for and come in, the message is shown, and all that is shown of it is read.
   */
  lemma ReadStaysSeenThroughLoads(n: nat, es: seq<Event>, client: Session, k: Socket, pos: nat, me: UserId,
                                  before: seq<LoadedEvent>, partner: UserId, x: nat, body: string, now: int,
                                  first: seq<LoadedEvent>, rest: seq<LoadedEvent>, m: MsgId, a: nat)
    requires Starts(n, es, client, k, pos)
    requires var l := LoadedRun(Started(n, es, client, pos), me, k, before);
             && Composes(l, me, k, partner, x, body, now, first + rest, m, a)
             && JustRead(LoadedStep(l, me, k, Goes(Does(Sends(partner, x, body, now)))), me, k, first, m)
    ensures var l := LoadedRun(Started(n, es, client, pos), me, k, before);
            var l1 := LoadedStep(l, me, k, Goes(Does(Sends(partner, x, body, now))));
            var msgs := Store.Get(LoadedRun(l1, me, k, first + rest).joint.client.store, partner);
            CountId(msgs, Store.Row(m)) > 0 && AllRead(msgs, Store.Row(m))
  {
    ShownThroughLoads(n, es, client, k, pos, me, before, partner, x, body, now, first + rest, m, a);
    StartedOk(n, es, client, k, pos, me);
    RunLoaded(Started(n, es, client, pos), me, k, before);
    var l := LoadedRun(Started(n, es, client, pos), me, k, before);
    var l1 := LoadedStep(l, me, k, Goes(Does(Sends(partner, x, body, now))));
    assert a < |LoadEvents(l1, me, k, first + rest)|;
    assert LoadEvents(l1, me, k, first + rest)[a] == Usual(Arrives(SentAck(m, x)));
    hide Starts, LoadedOk, Started, LoadedRun, LoadEvents, LoadedStep, Composes, SentOn, DbGrows, Packets, JustRead,
      CountId, AllRead, Cleared, AnyBrings, Store.Get;
    StepLoaded(l, me, k, Goes(Does(Sends(partner, x, body, now))));
    JustReadClears(l1, me, k, first, rest, x, m, a);
  }
}
