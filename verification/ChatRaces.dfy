/** When racing lookups give a pair of users a second chat. */
module ChatRaces {
  import opened ChatTypes
  import opened HubSpec
  import opened DbSpec
  import opened Interleaving
  import InterleavedStatus

  /** Chats are made in order of time, and the clock is past them all. */
  predicate Dated(f: Fine) {
    |f.madeAt| == f.db.chatCount && forall c | 0 <= c < |f.madeAt| :: f.madeAt[c] < f.clock
  }

  /** A thread about to make a chat found none when it looked: all chats of its pair are younger. */
  predicate Younger(f: Fine, op: Op) {
    op.MakeChat? ==>
      op.since < f.clock && forall c | c in Matches(f.db, op.from, op.to) && c < |f.madeAt| :: op.since < f.madeAt[c]
  }

  predicate TodoYounger(f: Fine, todo: seq<Op>) {
    forall k | 0 <= k < |todo| :: Younger(f, todo[k])
  }

  predicate RaceInv(f: Fine) {
    Dated(f) && forall t | 0 <= t < |f.threads| :: TodoYounger(f, f.threads[t].todo)
  }

  /** Chats of a pair after a step: the earlier ones, and the one just made. */
  predicate ChatsGrow(f: Fine, f': Fine) {
    && f.db.chatCount <= f'.db.chatCount && f.clock < f'.clock && f.madeAt <= f'.madeAt
    && (forall c | |f.madeAt| <= c < |f'.madeAt| :: f'.madeAt[c] == f.clock)
    && (forall m | m in f'.db.members && m.0 < f.db.chatCount :: m in f.db.members)
  }

  lemma OpStaysYounger(f: Fine, f': Fine, op: Op)
    requires Dated(f) && ChatsGrow(f, f') && Younger(f, op)
    ensures Younger(f', op)
  {
    if op.MakeChat? {
      forall c | c in Matches(f'.db, op.from, op.to) && c < |f'.madeAt| ensures op.since < f'.madeAt[c] {
        if c < |f.madeAt| {
          assert c in Matches(f.db, op.from, op.to);
        }
      }
    }
  }

  lemma TodoStaysYounger(f: Fine, f': Fine, todo: seq<Op>)
    requires Dated(f) && ChatsGrow(f, f') && TodoYounger(f, todo)
    ensures TodoYounger(f', todo)
  {
    forall k | 0 <= k < |todo| ensures Younger(f', todo[k]) {
      assert Younger(f, todo[k]);
      OpStaysYounger(f, f', todo[k]);
    }
  }

  /** Only a lookup that found no chat leaves a chat to make, dated by the lookup. */
  lemma NextMakes(h: HubState, db: Db, clock: nat, op: Op, rest: seq<Op>, ch: Choice, k: nat)
    requires InRange(h, db, op) && k < |NextTodo(h, db, clock, op, rest, ch)|
    ensures var x := NextTodo(h, db, clock, op, rest, ch)[k];
            x in rest || (x.MakeChat? ==> x.since == clock && Matches(db, x.from, x.to) == {} && op.FindChat?)
  {
    hide CreateChat, Offer;
  }

  lemma DbGrows(db: Db, op: Op, ch: Choice)
    ensures var db' := NextDb(db, op, ch);
            && db'.chatCount == db.chatCount + (if op.MakeChat? && op.from != op.to then 1 else 0)
            && (forall m | m in db'.members && m.0 < db.chatCount :: m in db.members)
  {}

  lemma ExecGrows(f: Fine, t: nat, ch: Choice)
    requires Ready(f, t, ch) && Dated(f)
    ensures ChatsGrow(f, Exec(f, t, ch)) && Dated(Exec(f, t, ch))
  {
    DbGrows(f.db, f.threads[t].todo[0], ch);
    hide NextDb, NextTodo, ChoiceOk, NextHub, NextOwn, NextOthers, NextReplaced, NextHook, InRange, Kills, Closes;
  }

  lemma MovedYounger(f: Fine, t: nat, ch: Choice)
    requires Ready(f, t, ch) && RaceInv(f)
    ensures TodoYounger(Exec(f, t, ch), Exec(f, t, ch).threads[t].todo)
  {
    var f' := Exec(f, t, ch);
    var th := f.threads[t];
    var h, op, rest := f.hubs[th.inst], th.todo[0], th.todo[1..];
    var todo' := NextTodo(h, f.db, f.clock, op, rest, ch);
    ExecGrows(f, t, ch);
    assert f'.threads[t].todo == todo';
    assert op.FindChat? ==> f'.db == f.db;
    assert TodoYounger(f, th.todo);
    hide Exec, NextTodo, ChoiceOk, InRange, Younger;
    forall k | 0 <= k < |todo'| ensures Younger(f', todo'[k]) {
      NextMakes(h, f.db, f.clock, op, rest, ch, k);
      if todo'[k] in rest {
        var j :| 0 <= j < |rest| && rest[j] == todo'[k];
        assert Younger(f, th.todo[j + 1]);
        OpStaysYounger(f, f', todo'[k]);
      } else {
        FreshIsYounger(f', todo'[k], f.clock);
      }
    }
  }

  lemma FreshIsYounger(f: Fine, op: Op, since: nat)
    requires op.MakeChat? ==> op.since == since < f.clock && Matches(f.db, op.from, op.to) == {}
    ensures Younger(f, op)
  {}

  lemma ExecKeepsRace(f: Fine, t: nat, ch: Choice)
    requires Ready(f, t, ch) && RaceInv(f)
    ensures RaceInv(Exec(f, t, ch))
  {
    var f' := Exec(f, t, ch);
    ExecGrows(f, t, ch);
    MovedYounger(f, t, ch);
    assert |f'.threads| == |f.threads| && forall s | 0 <= s < |f.threads| && s != t :: f'.threads[s] == f.threads[s];
    hide Exec, Ready, TodoYounger, Dated, ChatsGrow;
    forall s | 0 <= s < |f'.threads| ensures TodoYounger(f', f'.threads[s].todo) {
      if s != t {
        assert TodoYounger(f, f.threads[s].todo);
        TodoStaysYounger(f, f', f.threads[s].todo);
      }
    }
  }

  lemma SameDbGrows(f: Fine, f': Fine)
    requires Dated(f) && f'.db == f.db && f'.madeAt == f.madeAt && f.clock < f'.clock
    ensures Dated(f') && ChatsGrow(f, f')
  {}

  lemma StepKeepsRace(f: Fine, e: FineEvent)
    requires RaceInv(f)
    ensures RaceInv(FineStep(f, e))
  {
    hide Exec, Ready, Startable, CanWrite, TodoYounger, Dated, ChatsGrow;
    var f' := FineStep(f, e);
    match e
    case Take(t, ch) => if Ready(f, t, ch) { ExecKeepsRace(f, t, ch); }
    case Spawn(th) =>
      if Startable(f, th) {
        SameDbGrows(f, f');
        assert TodoYounger(f, th.todo) by { StartMakesNone(f, th); }
        forall t | 0 <= t < |f'.threads| ensures TodoYounger(f', f'.threads[t].todo) {
          assert t < |f.threads| ==> TodoYounger(f, f.threads[t].todo);
          TodoStaysYounger(f, f', f'.threads[t].todo);
        }
      }
    case Drain(i, c, ok) =>
      if f' != f {
        SameDbGrows(f, f');
        forall t | 0 <= t < |f'.threads| ensures TodoYounger(f', f'.threads[t].todo) {
          assert TodoYounger(f, f.threads[t].todo);
          TodoStaysYounger(f, f', f'.threads[t].todo);
        }
      }
  }

  lemma StartMakesNone(f: Fine, th: Thread)
    requires Startable(f, th)
    ensures TodoYounger(f, th.todo)
  {}

  lemma {:induction false} RunKeepsRace(f: Fine, es: seq<FineEvent>)
    requires RaceInv(f)
    ensures RaceInv(FineRun(f, es))
    decreases |es|
  {
    hide RaceInv, FineStep;
    if es != [] {
      StepKeepsRace(f, es[0]);
      RunKeepsRace(FineStep(f, es[0]), es[1..]);
    }
  }

  /** A chat of exactly the two users. */
  predicate IsTheirs(db: Db, c: ChatId, a: UserId, b: UserId) {
    c < db.chatCount && MembersOf(db, c) == {a, b}
  }

  lemma TheirsIsMatched(db: Db, c: ChatId, a: UserId, b: UserId)
    requires DbOk(db) && a != b
    ensures c in Matches(db, a, b) <==> IsTheirs(db, c, a, b)
  {
    MemberIff(db, c, a);
    MemberIff(db, c, b);
    if c in Matches(db, a, b) { OtherMember(db, c, a, b); }
  }

  /**
   When racing lookups give a pair a second chat. The step that makes a chat of two users always adds one;
   another one exists exactly if the pair now matches, and exactly if somebody committed a chat of the
   pair after this thread's own lookup, which found none.
   */
  lemma SecondChatIffMadeSinceLookup(n: nat, es: seq<FineEvent>, t: nat, ch: Choice)
    requires Ready(FineRun(FineInit(n), es), t, ch)
    requires var op := FineRun(FineInit(n), es).threads[t].todo[0]; op.MakeChat? && op.from != op.to
    ensures var f := FineRun(FineInit(n), es);
            var op, db' := f.threads[t].todo[0], Exec(f, t, ch).db;
            && |f.madeAt| == f.db.chatCount && op.since < f.clock
            && IsTheirs(db', f.db.chatCount, op.from, op.to)
            && ((exists c: ChatId :: c != f.db.chatCount && IsTheirs(db', c, op.from, op.to))
                  <==> Matches(f.db, op.from, op.to) != {})
            && ((exists c: ChatId :: c != f.db.chatCount && IsTheirs(db', c, op.from, op.to))
                  <==> exists c: ChatId :: IsTheirs(f.db, c, op.from, op.to) && op.since < f.madeAt[c])
  {
    var f := FineRun(FineInit(n), es);
    RunKeepsRace(FineInit(n), es);
    InterleavedStatus.TablesInRun(n, es);
    hide FineRun, FineInit;
    var op := f.threads[t].todo[0];
    var db' := Exec(f, t, ch).db;
    assert db' == CreateChat(f.db, op.from, op.to).db;
    assert TodoYounger(f, f.threads[t].todo) && Younger(f, op);
    hide Exec, Ready, DbOk, RaceInv, TodoYounger;
    CreateKeepsTables(f.db, op.from, op.to);
    SecondChat(f, op, db');
  }

  lemma SecondChat(f: Fine, op: Op, db': Db)
    requires op.MakeChat? && op.from != op.to && DbOk(f.db) && |f.madeAt| == f.db.chatCount && Younger(f, op)
    requires db'.chatCount == f.db.chatCount + 1 && MembersOf(db', f.db.chatCount) == {op.from, op.to}
    requires forall c: ChatId | c < f.db.chatCount :: MembersOf(db', c) == MembersOf(f.db, c)
    ensures IsTheirs(db', f.db.chatCount, op.from, op.to)
    ensures (exists c: ChatId :: c != f.db.chatCount && IsTheirs(db', c, op.from, op.to))
       <==> Matches(f.db, op.from, op.to) != {}
    ensures (exists c: ChatId :: c != f.db.chatCount && IsTheirs(db', c, op.from, op.to))
       <==> exists c: ChatId :: IsTheirs(f.db, c, op.from, op.to) && op.since < f.madeAt[c]
  {
    hide DbOk;
    forall c: ChatId ensures c in Matches(f.db, op.from, op.to) <==> IsTheirs(f.db, c, op.from, op.to) {
      TheirsIsMatched(f.db, c, op.from, op.to);
    }
    hide Matches, MembersOf;
    forall c: ChatId | c < f.db.chatCount
      ensures IsTheirs(db', c, op.from, op.to) <==> IsTheirs(f.db, c, op.from, op.to)
    {}
    if Matches(f.db, op.from, op.to) != {} {
      var c :| c in Matches(f.db, op.from, op.to);
      assert IsTheirs(f.db, c, op.from, op.to) && IsTheirs(db', c, op.from, op.to);
    }
  }
}
