/** The group handlers of one instance: membership checks, and the fan-out of a message over the hub. */
module Groups {
  import opened ChatTypes
  import opened HubSpec
  import opened DbSpec
  import opened GroupsSpec
  import opened HubTells
  import Hub

  function OfferTo(h: HubState, user: UserId, sender: UserId, p: Packet): HubState {
    if user != sender then Send(h, user, p).hub else h
  }

  /** One packet to each listed user but the sender, in order. Failures are ignored. */
  function FanOut(h: HubState, users: seq<UserId>, sender: UserId, p: Packet): HubState
    decreases |users|
  {
    if users == [] then h
    else FanOut(OfferTo(h, users[0], sender, p), users[1..], sender, p)
  }

  datatype Room = Room(tables: Tables, hub: HubState)

  function Answer(h: HubState, user: UserId, n: Notice): HubState {
    Send(h, user, Other(n)).hub
  }

  function HandlePost(r: Room, sender: UserId, g: GroupId, body: string): Room {
    if !HasMember(r.tables, g, sender) then r.(hub := Answer(r.hub, sender, NotAMember))
    else
      var m := |r.tables.messages|;
      var fanned := FanOut(r.hub, GetGroupMembers(r.tables, g), sender, Other(GroupCopy(g, m, sender, body)));
      Room(InsertGroupMessage(r.tables, g, sender, body), Answer(fanned, sender, GroupSent(m)))
  }

  function HandleCreate(r: Room, creator: UserId, name: string): Room {
    match CreateGroup(r.tables, name, creator)
    case None => r.(hub := Answer(r.hub, creator, NameIsTaken))
    case Some(t) => Room(t, Answer(r.hub, creator, GroupCreated(|r.tables.groups|, name)))
  }

  function HandleAdd(r: Room, adder: UserId, g: GroupId, u: UserId): Room {
    if !HasMember(r.tables, g, adder) then r.(hub := Answer(r.hub, adder, NotAMember))
    else Room(AddGroupMember(r.tables, g, u, Member), Answer(r.hub, adder, MemberAdded(g, u)))
  }

  function HandleLeave(r: Room, u: UserId, g: GroupId): Room {
    if !HasMember(r.tables, g, u) then r.(hub := Answer(r.hub, u, NotAMember))
    else Room(RemoveGroupMember(r.tables, g, u), Answer(r.hub, u, LeftGroup(g)))
  }

  /** What a handler does to the tables is one step of a run. */
  lemma HandlersAreSteps(r: Room, u: UserId, g: GroupId, v: UserId, text: string)
    ensures HandlePost(r, u, g, text).tables == Step(r.tables, Post(u, g, text))
    ensures HandleCreate(r, u, text).tables == Step(r.tables, Create(u, text))
    ensures HandleAdd(r, u, g, v).tables == Step(r.tables, Add(u, g, v))
    ensures HandleLeave(r, u, g).tables == Step(r.tables, Leave(u, g))
  {
    if !HasMember(r.tables, g, u) {
      NoRowNoChange(r.tables, g, u);
    }
  }

  lemma {:induction false} NothingRemoved(rows: seq<MemberRow>, g: GroupId, u: UserId)
    requires forall k | 0 <= k < |rows| :: !(rows[k].group == g && rows[k].user == u)
    ensures WithoutRow(rows, g, u) == rows
  {
    if rows != [] {
      NothingRemoved(rows[..|rows| - 1], g, u);
    }
  }

  // ---- the fan-out

  /** How often a user is listed. */
  function Listed(users: seq<UserId>, u: UserId): nat {
    multiset(users)[u]
  }

  function Repeated(p: Packet, n: nat): seq<Packet> {
    seq(n, _ => p)
  }

  lemma OfferToTells(h: HubState, v: UserId, sender: UserId, p: Packet, u: UserId)
    requires HubOk(h)
    ensures var h' := OfferTo(h, v, sender, p);
            HubOk(h') && Told(h, h', u, if u == v && u != sender then [p] else [])
  {
    hide HubOk, Send, Told;
    if v != sender { SendTells(h, v, p, u); } else { ToldNothing(h, u); }
  }

  /**
   The fan-out tells each user but the sender the packet as often as he is listed, and nobody else anything,
   whoever is connected and whatever room there is.
   */
  lemma {:induction false} FanOutTells(h: HubState, users: seq<UserId>, sender: UserId, p: Packet, u: UserId)
    requires HubOk(h)
    ensures var h' := FanOut(h, users, sender, p);
            HubOk(h') && Told(h, h', u, Repeated(p, if u == sender then 0 else Listed(users, u)))
    decreases |users|
  {
    hide HubOk, OfferTo, Told;
    if users == [] {
      ToldNothing(h, u);
      assert Repeated(p, 0) == [];
    } else {
      var h1 := OfferTo(h, users[0], sender, p);
      OfferToTells(h, users[0], sender, p, u);
      FanOutTells(h1, users[1..], sender, p, u);
      var one, rest := FirstAndRest(users, sender, p, u);
      hide Listed, Repeated;
      ToldThen(h, h1, FanOut(h, users, sender, p), u, one, rest);
    }
  }

  lemma FirstAndRest(users: seq<UserId>, sender: UserId, p: Packet, u: UserId)
    returns (one: seq<Packet>, rest: seq<Packet>)
    requires users != []
    ensures one == if u == users[0] && u != sender then [p] else []
    ensures rest == Repeated(p, if u == sender then 0 else Listed(users[1..], u))
    ensures one + rest == Repeated(p, if u == sender then 0 else Listed(users, u))
  {
    ListedFirst(users, u);
    one := if u == users[0] && u != sender then [p] else [];
    rest := Repeated(p, if u == sender then 0 else Listed(users[1..], u));
  }

  lemma ListedFirst(users: seq<UserId>, u: UserId)
    requires users != []
    ensures Listed(users, u) == Listed(users[1..], u) + if users[0] == u then 1 else 0
  {
    assert users == [users[0]] + users[1..];
  }

  lemma {:induction false} ListedOnce(users: seq<UserId>, u: UserId)
    requires Distinct(users)
    ensures Listed(users, u) == if u in users then 1 else 0
    decreases |users|
  {
    if users != [] {
      ListedFirst(users, u);
      ListedOnce(users[1..], u);
      assert u in users <==> u == users[0] || u in users[1..];
    }
  }

  lemma {:induction false} MembersInAre(rows: seq<MemberRow>, g: GroupId, u: UserId)
    ensures u in MembersIn(rows, g) <==> exists k :: 0 <= k < |rows| && rows[k].group == g && rows[k].user == u
  {
    if rows != [] {
      MembersInAre(rows[..|rows| - 1], g, u);
    }
  }

  lemma {:induction false} MembersInDistinct(rows: seq<MemberRow>, g: GroupId)
    requires forall j, k | 0 <= j < k < |rows| :: rows[j].group != rows[k].group || rows[j].user != rows[k].user
    ensures Distinct(MembersIn(rows, g))
  {
    if rows != [] {
      MembersInDistinct(rows[..|rows| - 1], g);
      MembersInAre(rows[..|rows| - 1], g, rows[|rows| - 1].user);
    }
  }

  /** An answer tells its addressee one notice. */
  lemma AnswerTells(h: HubState, user: UserId, n: Notice, u: UserId)
    requires HubOk(h)
    ensures Told(h, Answer(h, user, n), u, if u == user then [Other(n)] else [])
  {
    hide HubOk, Send, Told;
    SendTells(h, user, Other(n), u);
  }

  /** What a user is told by the one who asked: only he gets an answer. */
  function AnswerTo(asker: UserId, u: UserId, n: Notice): seq<Packet> {
    if u == asker then [Other(n)] else []
  }

  /** A group message from one room to the next: what user u is told of it, and what is stored. */
  predicate Posted(r: Room, r': Room, sender: UserId, g: GroupId, body: string, u: UserId) {
    var m, mine := |r.tables.messages|, HasMember(r.tables, g, sender);
    && Told(r.hub, r'.hub, u,
            if u == sender then [Other(if mine then GroupSent(m) else NotAMember)]
            else if mine && HasMember(r.tables, g, u) then [Other(GroupCopy(g, m, sender, body))]
            else [])
    && r'.tables == if mine then r.tables.(messages := r.tables.messages + [GroupMessage(g, sender, body)])
                    else r.tables
  }

  predicate Created(r: Room, r': Room, creator: UserId, name: string, u: UserId) {
    var g, taken := |r.tables.groups|, NameTaken(r.tables, name);
    && Told(r.hub, r'.hub, u, AnswerTo(creator, u, if taken then NameIsTaken else GroupCreated(g, name)))
    && r'.tables == if taken then r.tables
                    else Tables(r.tables.groups + [GroupRow(name, creator)],
                                r.tables.members + [MemberRow(g, creator, Admin)], r.tables.messages)
  }

  predicate AddedTo(r: Room, r': Room, adder: UserId, g: GroupId, v: UserId, u: UserId) {
    var mine := HasMember(r.tables, g, adder);
    && Told(r.hub, r'.hub, u, AnswerTo(adder, u, if mine then MemberAdded(g, v) else NotAMember))
    && r'.tables == if mine && !HasMember(r.tables, g, v)
                    then r.tables.(members := r.tables.members + [MemberRow(g, v, Member)])
                    else r.tables
  }

  /** Everybody else's rows stay, in their order. */
  ghost predicate LeftBy(r: Room, r': Room, leaver: UserId, g: GroupId, u: UserId) {
    && Told(r.hub, r'.hub, u,
            AnswerTo(leaver, u, if HasMember(r.tables, g, leaver) then LeftGroup(g) else NotAMember))
    && r'.tables.groups == r.tables.groups && r'.tables.messages == r.tables.messages
    && (forall row :: row in r'.tables.members <==> row in r.tables.members && !(row.group == g && row.user == leaver))
    && (!HasMember(r.tables, g, leaver) ==> r'.tables == r.tables)
  }

  /**
   A group message, to everybody: a member's tells each other member its one copy, with group, row, author and
   text, tells the author that it is sent, and is stored. A stranger's tells him so, and does nothing else.
   */
  lemma PostReachesEachMember(r: Room, sender: UserId, g: GroupId, body: string, u: UserId)
    requires TablesOk(r.tables) && HubOk(r.hub)
    ensures Posted(r, HandlePost(r, sender, g, body), sender, g, body, u)
  {
    hide HubOk, Told, FanOut, Answer;
    if HasMember(r.tables, g, sender) {
      var m, members := |r.tables.messages|, GetGroupMembers(r.tables, g);
      var p := Other(GroupCopy(g, m, sender, body));
      MembersInDistinct(r.tables.members, g);
      MemberIffListed(r.tables, g, u);
      ListedOnce(members, u);
      FanOutTells(r.hub, members, sender, p, u);
      var fanned := FanOut(r.hub, members, sender, p);
      AnswerTells(fanned, sender, GroupSent(m), u);
      var copies := Repeated(p, if u == sender then 0 else Listed(members, u));
      assert copies == if u != sender && HasMember(r.tables, g, u) then [p] else [];
      var answers := if u == sender then [Other(GroupSent(m))] else [];
      assert copies + answers == if u == sender then answers else copies;
      ToldThen(r.hub, fanned, Answer(fanned, sender, GroupSent(m)), u, copies, answers);
    } else {
      AnswerTells(r.hub, sender, NotAMember, u);
    }
  }

  /** The creator is told the new group, or that its name is taken, as the tables before have it. */
  lemma CreationIsAnswered(r: Room, creator: UserId, name: string, u: UserId)
    requires HubOk(r.hub)
    ensures Created(r, HandleCreate(r, creator, name), creator, name, u)
  {
    hide HubOk, Told, Answer;
    var g := |r.tables.groups|;
    AnswerTells(r.hub, creator, if NameTaken(r.tables, name) then NameIsTaken else GroupCreated(g, name), u);
  }

  /** A member who adds somebody is told so, a re-add included. A stranger is told that he is none. */
  lemma AdditionIsAnswered(r: Room, adder: UserId, g: GroupId, v: UserId, u: UserId)
    requires HubOk(r.hub)
    ensures AddedTo(r, HandleAdd(r, adder, g, v), adder, g, v, u)
  {
    hide HubOk, Told, Answer;
    AnswerTells(r.hub, adder, if HasMember(r.tables, g, adder) then MemberAdded(g, v) else NotAMember, u);
  }

  /** One who leaves is told so and has no row afterwards. Everybody else's rows stay. */
  lemma LeavingIsAnswered(r: Room, leaver: UserId, g: GroupId, u: UserId)
    requires HubOk(r.hub)
    ensures LeftBy(r, HandleLeave(r, leaver, g), leaver, g, u)
  {
    hide HubOk, Told, Answer, HasMember;
    AnswerTells(r.hub, leaver, if HasMember(r.tables, g, leaver) then LeftGroup(g) else NotAMember, u);
    forall row
      ensures row in WithoutRow(r.tables.members, g, leaver)
         <==> row in r.tables.members && !(row.group == g && row.user == leaver)
    {
      WithoutRowKeeps(r.tables.members, g, leaver, row);
    }
    if !HasMember(r.tables, g, leaver) { NoRowNoChange(r.tables, g, leaver); }
  }

  lemma MemberIffListed(t: Tables, g: GroupId, u: UserId)
    ensures HasMember(t, g, u) <==> u in GetGroupMembers(t, g)
  {
    MembersInAre(t.members, g, u);
    if k :| 0 <= k < |t.members| && t.members[k].group == g && t.members[k].user == u {
      assert IsRow(t, g, u, k);
    }
  }

  // ---- the handlers in place

  class Pool {
    var t: Tables

    constructor ()
      ensures t == EMPTY_TABLES
    {
      t := EMPTY_TABLES;
    }

    /** `g` is the new group. `ok` is false when the name is taken, and then the transaction rolls back. */
    method CreateGroup(name: string, creator: UserId) returns (g: GroupId, ok: bool)
      modifies this
      ensures match GroupsSpec.CreateGroup(old(t), name, creator)
              case Some(t') => ok && t == t' && g == |old(t).groups|
              case None => !ok && t == old(t)
    {
      g := |t.groups|;
      if NameTaken(t, name) {
        return g, false;
      }
      t := t.(groups := t.groups + [GroupRow(name, creator)]);
      t := t.(members := t.members + [MemberRow(g, creator, Admin)]);
      return g, true;
    }

    method IsGroupMember(g: GroupId, u: UserId) returns (b: bool)
      ensures b <==> HasMember(t, g, u)
    {
      b := false;
      for k := 0 to |t.members|
        invariant b <==> exists j | 0 <= j < k :: IsRow(t, g, u, j)
      {
        if t.members[k].group == g && t.members[k].user == u {
          assert IsRow(t, g, u, k);
          b := true;
        }
      }
    }

    method AddGroupMember(g: GroupId, u: UserId, role: Role)
      modifies this
      ensures t == GroupsSpec.AddGroupMember(old(t), g, u, role)
    {
      var there := IsGroupMember(g, u);
      if !there {
        t := t.(members := t.members + [MemberRow(g, u, role)]);
      }
    }

    /** Whether any row was removed. */
    method RemoveGroupMember(g: GroupId, u: UserId) returns (removed: bool)
      modifies this
      ensures t == GroupsSpec.RemoveGroupMember(old(t), g, u) && (removed <==> HasMember(old(t), g, u))
    {
      removed := IsGroupMember(g, u);
      t := t.(members := WithoutRow(t.members, g, u));
    }

    /** Reads the rows one by one, in the order the members joined. */
    method GetGroupMembers(g: GroupId) returns (users: seq<UserId>)
      ensures users == GroupsSpec.GetGroupMembers(t, g)
    {
      users := [];
      for k := 0 to |t.members|
        invariant users == MembersIn(t.members[..k], g)
      {
        assert t.members[..k + 1][..k] == t.members[..k];
        if t.members[k].group == g {
          users := users + [t.members[k].user];
        }
      }
      assert t.members[..|t.members|] == t.members;
    }

    method InsertGroupMessage(g: GroupId, sender: UserId, body: string) returns (m: nat)
      modifies this
      ensures t == GroupsSpec.InsertGroupMessage(old(t), g, sender, body) && m == |old(t).messages|
    {
      m := |t.messages|;
      t := t.(messages := t.messages + [GroupMessage(g, sender, body)]);
    }
  }

  class Handlers {
    const hub: Hub.Hub
    const pool: Pool

    constructor (hub: Hub.Hub, pool: Pool)
      ensures this.hub == hub && this.pool == pool
    {
      this.hub, this.pool := hub, pool;
    }

    ghost predicate Valid()
      reads hub, hub.all
    {
      hub.Valid() && HubOk(hub.view)
    }

    ghost function View(): Room
      reads hub, pool
    {
      Room(pool.t, hub.view)
    }

    method Send(user: UserId, p: Packet)
      requires Valid()
      modifies hub`clients, hub`view, hub.all
      ensures Valid() && hub.view == HubSpec.Send(old(hub.view), user, p).hub
    {
      SendEffect(hub.view, user, p);
      var _ := hub.Send(user, p);
    }

    /** Stores a message of a member and offers one copy to each other member. */
    method HandleGroupMessage(sender: UserId, g: GroupId, body: string)
      requires Valid()
      modifies hub`clients, hub`view, hub.all, pool
      ensures Valid() && View() == HandlePost(old(View()), sender, g, body)
    {
      hide HubOk, HubSpec.Send, HasMember;
      var isMember := pool.IsGroupMember(g, sender);
      if !isMember {
        Send(sender, Other(NotAMember));
        return;
      }
      var m := pool.InsertGroupMessage(g, sender, body);
      var members := pool.GetGroupMembers(g);
      assert members == GroupsSpec.GetGroupMembers(old(pool.t), g);
      FanOutTo(members, sender, Other(GroupCopy(g, m, sender, body)));
      Send(sender, Other(GroupSent(m)));
    }

    method FanOutTo(members: seq<UserId>, sender: UserId, p: Packet)
      requires Valid()
      modifies hub`clients, hub`view, hub.all
      ensures Valid() && hub.view == FanOut(old(hub.view), members, sender, p)
    {
      hide HubOk, HubSpec.Send;
      ghost var start := hub.view;
      for i := 0 to |members|
        invariant Valid()
        invariant FanOut(hub.view, members[i..], sender, p) == FanOut(start, members, sender, p)
      {
        assert members[i..][0] == members[i] && members[i..][1..] == members[i + 1..];
        if members[i] != sender {
          Send(members[i], p);
        }
      }
    }

    method HandleCreateGroup(creator: UserId, name: string)
      requires Valid()
      modifies hub`clients, hub`view, hub.all, pool
      ensures Valid() && View() == HandleCreate(old(View()), creator, name)
    {
      hide HubOk, HubSpec.Send;
      var g, ok := pool.CreateGroup(name, creator);
      if !ok {
        Send(creator, Other(NameIsTaken));
        return;
      }
      Send(creator, Other(GroupCreated(g, name)));
    }

    method HandleAddMember(adder: UserId, g: GroupId, u: UserId)
      requires Valid()
      modifies hub`clients, hub`view, hub.all, pool
      ensures Valid() && View() == HandleAdd(old(View()), adder, g, u)
    {
      hide HubOk, HubSpec.Send, HasMember;
      var isMember := pool.IsGroupMember(g, adder);
      if !isMember {
        Send(adder, Other(NotAMember));
        return;
      }
      pool.AddGroupMember(g, u, Member);
      Send(adder, Other(MemberAdded(g, u)));
    }

    method HandleLeaveGroup(u: UserId, g: GroupId)
      requires Valid()
      modifies hub`clients, hub`view, hub.all, pool
      ensures Valid() && View() == HandleLeave(old(View()), u, g)
    {
      hide HubOk, HubSpec.Send, HasMember;
      var removed := pool.RemoveGroupMember(g, u);
      if !removed {
        NoRowNoChange(old(pool.t), g, u);
        Send(u, Other(NotAMember));
        return;
      }
      Send(u, Other(LeftGroup(g)));
    }
  }

  lemma NoRowNoChange(t: Tables, g: GroupId, u: UserId)
    requires !HasMember(t, g, u)
    ensures GroupsSpec.RemoveGroupMember(t, g, u) == t
  {
    forall k | 0 <= k < |t.members| ensures !(t.members[k].group == g && t.members[k].user == u) {
      assert !IsRow(t, g, u, k);
    }
    NothingRemoved(t.members, g, u);
  }
}
