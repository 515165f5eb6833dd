/** The groups, group_members and group_messages tables as a value, and runs of the group handlers. */
module GroupsSpec {
  import opened ChatTypes
  import opened HubSpec
  import opened DbSpec

  type GroupId = nat

  datatype Role = Admin | Member

  datatype GroupRow = GroupRow(name: string, creator: UserId)

  datatype MemberRow = MemberRow(group: GroupId, user: UserId, role: Role)

  datatype GroupMessage = GroupMessage(group: GroupId, sender: UserId, body: string)

  /** Row k of `groups` and `messages` has id k. Member rows are in the order they joined. */
  datatype Tables = Tables(groups: seq<GroupRow>, members: seq<MemberRow>, messages: seq<GroupMessage>)

  const EMPTY_TABLES := Tables([], [], [])

  predicate IsRow(t: Tables, g: GroupId, u: UserId, k: int) {
    0 <= k < |t.members| && t.members[k].group == g && t.members[k].user == u
  }

  predicate HasMember(t: Tables, g: GroupId, u: UserId) {
    exists k | 0 <= k < |t.members| :: IsRow(t, g, u, k)
  }

  predicate HasRole(t: Tables, g: GroupId, u: UserId, role: Role) {
    exists k | 0 <= k < |t.members| :: IsRow(t, g, u, k) && t.members[k].role == role
  }

  predicate NameTaken(t: Tables, name: string) {
    exists k | 0 <= k < |t.groups| :: t.groups[k].name == name
  }

  /** The name is unique. Otherwise the creator joins as an admin in the same transaction. */
  function CreateGroup(t: Tables, name: string, creator: UserId): Option<Tables> {
    if NameTaken(t, name) then None
    else Some(Tables(t.groups + [GroupRow(name, creator)], t.members + [MemberRow(|t.groups|, creator, Admin)],
                     t.messages))
  }

  /** ON CONFLICT DO NOTHING. */
  function AddGroupMember(t: Tables, g: GroupId, u: UserId, role: Role): Tables {
    if HasMember(t, g, u) then t else t.(members := t.members + [MemberRow(g, u, role)])
  }

  function WithoutRow(rows: seq<MemberRow>, g: GroupId, u: UserId): seq<MemberRow> {
    if rows == [] then []
    else
      var last := rows[|rows| - 1];
      WithoutRow(rows[..|rows| - 1], g, u) + if last.group == g && last.user == u then [] else [last]
  }

  function RemoveGroupMember(t: Tables, g: GroupId, u: UserId): Tables {
    t.(members := WithoutRow(t.members, g, u))
  }

  function InsertGroupMessage(t: Tables, g: GroupId, sender: UserId, body: string): Tables {
    t.(messages := t.messages + [GroupMessage(g, sender, body)])
  }

  /** Users of a group in the order they joined. */
  function MembersIn(rows: seq<MemberRow>, g: GroupId): seq<UserId> {
    if rows == [] then []
    else
      var last := rows[|rows| - 1];
      MembersIn(rows[..|rows| - 1], g) + if last.group == g then [last.user] else []
  }

  /** Each member of the group listed once a row, in the order of the rows. */
  lemma {:induction false} ListsInOrder(rows: seq<MemberRow>, g: GroupId) returns (at: seq<nat>)
    ensures |at| == |MembersIn(rows, g)|
    ensures forall k | 0 <= k < |at| ::
              at[k] < |rows| && rows[at[k]].group == g && rows[at[k]].user == MembersIn(rows, g)[k]
    ensures forall j, k | 0 <= j < k < |at| :: at[j] < at[k]
    ensures forall x: nat | x < |rows| && rows[x].group == g :: x in at
  {
    at := [];
    if rows != [] {
      var n := |rows| - 1;
      at := ListsInOrder(rows[..n], g);
      if rows[n].group == g { at := at + [n]; }
    }
  }

  function GetGroupMembers(t: Tables, g: GroupId): seq<UserId> {
    MembersIn(t.members, g)
  }

  // ---- runs of the handlers, one step each

  datatype Event =
    | Create(creator: UserId, name: string)
    | Add(adder: UserId, group: GroupId, user: UserId)
    | Leave(user: UserId, group: GroupId)
    | Post(sender: UserId, group: GroupId, body: string)

  function Step(t: Tables, e: Event): Tables {
    match e
    case Create(creator, name) => (match CreateGroup(t, name, creator) case Some(t') => t' case None => t)
    case Add(adder, g, u) => if HasMember(t, g, adder) then AddGroupMember(t, g, u, Member) else t
    case Leave(u, g) => RemoveGroupMember(t, g, u)
    case Post(u, g, body) => if HasMember(t, g, u) then InsertGroupMessage(t, g, u, body) else t
  }

  function Run(es: seq<Event>): Tables {
    if es == [] then EMPTY_TABLES else Step(Run(es[..|es| - 1]), es[|es| - 1])
  }

  lemma {:induction false} WithoutRowKeeps(rows: seq<MemberRow>, g: GroupId, u: UserId, r: MemberRow)
    ensures r in WithoutRow(rows, g, u) <==> r in rows && !(r.group == g && r.user == u)
  {
    if rows != [] {
      WithoutRowKeeps(rows[..|rows| - 1], g, u, r);
      assert rows == rows[..|rows| - 1] + [rows[|rows| - 1]];
    }
  }

  lemma MemberHasRow(t: Tables, g: GroupId, u: UserId)
    ensures HasMember(t, g, u) <==> HasRole(t, g, u, Admin) || HasRole(t, g, u, Member)
    ensures HasMember(t, g, u) <==> MemberRow(g, u, Admin) in t.members || MemberRow(g, u, Member) in t.members
    ensures forall role :: HasRole(t, g, u, role) <==> MemberRow(g, u, role) in t.members
  {
    if k :| 0 <= k < |t.members| && IsRow(t, g, u, k) {
      assert t.members[k] == MemberRow(g, u, t.members[k].role);
    }
    forall role ensures HasRole(t, g, u, role) <==> MemberRow(g, u, role) in t.members {
      if k :| 0 <= k < |t.members| && t.members[k] == MemberRow(g, u, role) {
        assert IsRow(t, g, u, k);
      }
      if k :| 0 <= k < |t.members| && IsRow(t, g, u, k) && t.members[k].role == role {
        assert t.members[k] == MemberRow(g, u, role);
      }
    }
  }

  /** What one handler does to one membership. */
  lemma StepMembership(t: Tables, e: Event, g: GroupId, u: UserId, role: Role)
    ensures HasRole(Step(t, e), g, u, role) <==>
            match e
            case Create(c, name) =>
              HasRole(t, g, u, role) || (!NameTaken(t, name) && g == |t.groups| && u == c && role == Admin)
            case Add(a, g', v) =>
              || HasRole(t, g, u, role)
              || (g == g' && u == v && role == Member && HasMember(t, g, a) && !HasMember(t, g, u))
            case Leave(v, g') => HasRole(t, g, u, role) && !(g == g' && u == v)
            case Post(_, _, _) => HasRole(t, g, u, role)
  {
    hide HasRole, HasMember, NameTaken;
    var t' := Step(t, e);
    MemberHasRow(t, g, u);
    MemberHasRow(t', g, u);
    match e
    case Leave(v, g') => WithoutRowKeeps(t.members, g', v, MemberRow(g, u, role));
    case Create(c, name) =>
    case Add(a, g', v) =>
    case Post(_, _, _) =>
  }

  // ---- what every run keeps

  /** Rows are unique, names are unique, and rows name groups. */
  ghost predicate TablesOk(t: Tables) {
    && (forall j, k | 0 <= j < k < |t.members| ::
          t.members[j].group != t.members[k].group || t.members[j].user != t.members[k].user)
    && (forall j, k | 0 <= j < k < |t.groups| :: t.groups[j].name != t.groups[k].name)
    && (forall k | 0 <= k < |t.members| :: t.members[k].group < |t.groups|)
    && (forall k | 0 <= k < |t.members| && t.members[k].role == Admin ::
          t.groups[t.members[k].group].creator == t.members[k].user)
  }

  lemma {:induction false} WithoutRowOk(t: Tables, rows: seq<MemberRow>, g: GroupId, u: UserId)
    requires TablesOk(t.(members := rows))
    ensures TablesOk(t.(members := WithoutRow(rows, g, u)))
  {
    if rows != [] {
      var front, last := rows[..|rows| - 1], rows[|rows| - 1];
      assert TablesOk(t.(members := front));
      WithoutRowOk(t, front, g, u);
      forall r | r in WithoutRow(front, g, u) ensures r.group != last.group || r.user != last.user {
        WithoutRowKeeps(front, g, u, r);
        var k :| 0 <= k < |front| && front[k] == r;
        assert rows[k] == r;
      }
    }
  }

  lemma StepKeepsTables(t: Tables, e: Event)
    requires TablesOk(t)
    ensures TablesOk(Step(t, e))
  {
    match e
    case Create(c, name) => assert forall k | 0 <= k < |t.members| :: t.members[k].group != |t.groups|;
    case Add(a, g, u) =>
      if HasMember(t, g, a) && !HasMember(t, g, u) {
        forall k | 0 <= k < |t.members| ensures t.members[k].group != g || t.members[k].user != u {
          assert !IsRow(t, g, u, k);
        }
      }
    case Leave(u, g) => WithoutRowOk(t, t.members, g, u);
    case Post(_, _, _) =>
  }

  /** A re-add never changes a role: while a member stays, the role stays. */
  lemma RoleNeverChanges(t: Tables, e: Event, g: GroupId, u: UserId, role: Role)
    requires TablesOk(t) && HasRole(t, g, u, role) && HasMember(Step(t, e), g, u)
    ensures HasRole(Step(t, e), g, u, role)
  {
    assert g < |t.groups|;
    StepMembership(t, e, g, u, Admin);
    StepMembership(t, e, g, u, Member);
    MemberHasRow(Step(t, e), g, u);
  }

  /** In every run member rows and names are unique, and an admin of a group is its creator. */
  lemma {:induction false} RunKeepsTables(es: seq<Event>)
    ensures TablesOk(Run(es))
  {
    if es != [] {
      RunKeepsTables(es[..|es| - 1]);
      StepKeepsTables(Run(es[..|es| - 1]), es[|es| - 1]);
    }
  }

  lemma {:induction false} RunsGrow(es: seq<Event>, n: nat)
    requires n <= |es|
    ensures Run(es[..n]).groups <= Run(es).groups && Run(es[..n]).messages <= Run(es).messages
  {
    if n < |es| {
      var front := es[..|es| - 1];
      RunsGrow(front, n);
      assert front[..n] == es[..n];
    } else {
      assert es[..n] == es;
    }
  }

  // ---- where membership comes from

  /**
   How a user got into a group: he created it, or the step js ends with added him, made by someone who was
   a member right before it and got in by the steps before.
   */
  predicate Invited(es: seq<Event>, g: GroupId, u: UserId, js: seq<nat>)
    decreases |js|
  {
    if js == [] then g < |Run(es).groups| && Run(es).groups[g].creator == u
    else
      var j := js[|js| - 1];
      && j < |es| && es[j].Add? && es[j].group == g && es[j].user == u
      && HasMember(Run(es[..j]), g, es[j].adder)
      && Invited(es[..j], g, es[j].adder, js[..|js| - 1])
  }

  lemma InvitedLater(es: seq<Event>, n: nat, g: GroupId, u: UserId, js: seq<nat>)
    requires n <= |es| && Invited(es[..n], g, u, js)
    ensures Invited(es, g, u, js)
  {
    if js == [] {
      RunsGrow(es, n);
    } else {
      assert es[..n][..js[|js| - 1]] == es[..js[|js| - 1]];
    }
  }

  /** Every member ever present has a chain of invitations back to the group's creator, each made by a member. */
  lemma {:induction false} MembersWereInvited(es: seq<Event>, g: GroupId, u: UserId) returns (js: seq<nat>)
    requires HasMember(Run(es), g, u)
    ensures Invited(es, g, u, js)
    decreases |es|
  {
    var n := |es| - 1;
    var t, e := Run(es[..n]), es[n];
    MemberHasRow(Run(es), g, u);
    MemberHasRow(t, g, u);
    StepMembership(t, e, g, u, Admin);
    StepMembership(t, e, g, u, Member);
    hide HasRole, HasMember, Step, NameTaken;
    if HasMember(t, g, u) {
      js := MembersWereInvited(es[..n], g, u);
      InvitedLater(es, n, g, u, js);
    } else if e.Create? {
      CreatorOf(t, e);
      js := [];
    } else {
      js := MembersWereInvited(es[..n], g, e.adder);
      js := js + [n];
      assert js[..|js| - 1] + [n] == js;
    }
  }

  lemma CreatorOf(t: Tables, e: Event)
    requires e.Create? && !NameTaken(t, e.name)
    ensures |t.groups| < |Step(t, e).groups| && Step(t, e).groups[|t.groups|].creator == e.creator
  {}

  /** Every stored group message was posted by a step whose sender was a member right before it. */
  lemma {:induction false} AuthorsWereMembers(es: seq<Event>, k: nat) returns (j: nat)
    requires k < |Run(es).messages|
    ensures var m := Run(es).messages[k];
            && j < |es| && es[j] == Post(m.sender, m.group, m.body)
            && |Run(es[..j]).messages| == k && HasMember(Run(es[..j]), m.group, m.sender)
    decreases |es|
  {
    var n := |es| - 1;
    hide HasMember;
    if k < |Run(es[..n]).messages| {
      j := AuthorsWereMembers(es[..n], k);
      assert es[..n][..j] == es[..j];
    } else {
      j := n;
    }
  }
}
