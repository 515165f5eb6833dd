/** The client in place: the socket's event loop, optimistic sends, the acknowledgement pass and the message list. */
module Browser {
  import opened ChatTypes
  import opened Store
  import opened HistoryMerge
  import StoreRuns
  import HistoryRuns

  /** Messages of one day, in a row. */
  datatype DateGroup = DateGroup(date: int, msgs: seq<Entry>)

  function Flatten(groups: seq<DateGroup>): seq<Entry> {
    if groups == [] then [] else Flatten(groups[..|groups| - 1]) + groups[|groups| - 1].msgs
  }

  /** Groups are runs of one date, as long as they can be. */
  predicate GroupedBy(groups: seq<DateGroup>, dateOf: int -> int) {
    && (forall g | 0 <= g < |groups| :: groups[g].msgs != [])
    && (forall g, k | 0 <= g < |groups| && 0 <= k < |groups[g].msgs| ::
          dateOf(groups[g].msgs[k].timestamp) == groups[g].date)
    && (forall g | 0 < g < |groups| :: groups[g - 1].date != groups[g].date)
  }

  /** A message after the last group starts a new group or joins the last, by its date. */
  function Extended(groups: seq<DateGroup>, m: Entry, date: int): seq<DateGroup> {
    var n := |groups| - 1;
    if groups == [] || groups[n].date != date then groups + [DateGroup(date, [m])]
    else groups[n := DateGroup(date, groups[n].msgs + [m])]
  }

  lemma ExtendedFlattens(groups: seq<DateGroup>, m: Entry, date: int)
    ensures Flatten(Extended(groups, m, date)) == Flatten(groups) + [m]
  {
    var n := |groups| - 1;
    var g := Extended(groups, m, date);
    if groups == [] || groups[n].date != date {
      assert g[..|g| - 1] == groups;
    } else {
      assert g[..n] == groups[..n];
    }
  }

  lemma ExtendedGroups(groups: seq<DateGroup>, m: Entry, dateOf: int -> int)
    requires GroupedBy(groups, dateOf)
    ensures GroupedBy(Extended(groups, m, dateOf(m.timestamp)), dateOf)
  {}

  /** The message list cut into days: nothing lost, nothing moved, every cut where the date changes. */
  method GroupByDate(messages: seq<Entry>, dateOf: int -> int) returns (grouped: seq<DateGroup>)
    ensures Flatten(grouped) == messages && GroupedBy(grouped, dateOf)
  {
    hide Flatten, GroupedBy;
    grouped := [];
    assert Flatten(grouped) == messages[..0] && GroupedBy(grouped, dateOf) by { NothingGrouped(dateOf); }
    for i := 0 to |messages|
      invariant Flatten(grouped) == messages[..i] && GroupedBy(grouped, dateOf)
    {
      var m := messages[i];
      var date := dateOf(m.timestamp);
      ExtendedFlattens(grouped, m, date);
      ExtendedGroups(grouped, m, dateOf);
      if |grouped| == 0 || grouped[|grouped| - 1].date != date {
        grouped := grouped + [DateGroup(date, [m])];
      } else {
        var last := grouped[|grouped| - 1];
        grouped := grouped[|grouped| - 1 := last.(msgs := last.msgs + [m])];
      }
    }
    assert messages[..|messages|] == messages;
  }

  lemma NothingGrouped(dateOf: int -> int)
    ensures Flatten([]) == [] && GroupedBy([], dateOf)
  {}

  // ---- trimming what is typed

  /** White space and line ends, as JavaScript's trim has them. */
  predicate Blank(c: char) {
    var n := c as int;
    || 0x9 <= n <= 0xD || n == 0x20 || n == 0xA0 || n == 0x1680 || 0x2000 <= n <= 0x200A
    || n == 0x2028 || n == 0x2029 || n == 0x202F || n == 0x205F || n == 0x3000 || n == 0xFEFF
  }

  predicate Blanks(s: string) {
    forall k | 0 <= k < |s| :: Blank(s[k])
  }

  /** The text without the blanks around it: `before` and `after` are what goes. */
  ghost predicate IsTrimmed(s: string, t: string, before: string, after: string) {
    && s == before + t + after && Blanks(before) && Blanks(after)
    && (t != "" ==> !Blank(t[0]) && !Blank(t[|t| - 1]))
  }

  function Trim(s: string): string
    decreases |s|
  {
    if s == "" then s
    else if Blank(s[0]) then Trim(s[1..])
    else if Blank(s[|s| - 1]) then Trim(s[..|s| - 1])
    else s
  }

  lemma {:induction false} TrimIsTrimmed(s: string) returns (before: string, after: string)
    ensures IsTrimmed(s, Trim(s), before, after)
    decreases |s|
  {
    hide Blank;
    if s != "" && Blank(s[0]) {
      var x, y := TrimIsTrimmed(s[1..]);
      before, after := [s[0]] + x, y;
      assert s == [s[0]] + s[1..] == before + Trim(s) + after;
    } else if s != "" && Blank(s[|s| - 1]) {
      var front := s[..|s| - 1];
      var x, y := TrimIsTrimmed(front);
      before, after := x, y + [s[|s| - 1]];
      assert s == front + [s[|s| - 1]] == before + Trim(s) + after;
    } else {
      before, after := "", "";
      assert s == "" + s + "";
    }
  }

  /** Nothing is left exactly of a text of blanks. */
  lemma TrimmedAway(s: string)
    ensures Trim(s) == "" <==> Blanks(s)
  {
    hide Blank, Trim;
    var before, after := TrimIsTrimmed(s);
    var t := Trim(s);
    if t != "" {
      assert s[|before|] == t[0];
    } else {
      assert s == before + after;
    }
  }

  /** A direct message on its way to the server. */
  datatype Outgoing = Outgoing(to: UserId, body: string, id: nat)

  class Session {
    const me: UserId
    var store: Conversations
    var acked: set<EntryId>
    var acks: seq<EntryId>  // acknowledgements sent to the server
    ghost var mounted: nat

    constructor (me: UserId)
      ensures this.me == me && View() == StoreRuns.EMPTY_SESSION
    {
      this.me, store, acked, acks, mounted := me, [], {}, [], 0;
    }

    ghost function View(): StoreRuns.Session
      reads this
    {
      StoreRuns.Session(store, acked, acks, mounted)
    }

    method Find(msgs: seq<Entry>, id: EntryId) returns (found: bool)
      ensures found <==> Holds(msgs, id)
    {
      for k := 0 to |msgs|
        invariant forall j | 0 <= j < k :: msgs[j].id != id
      {
        if msgs[k].id == id {
          return true;
        }
      }
      return false;
    }

    /** The conversations are searched in the order of their keys, and the first hit ends the search. */
    method Search(id: EntryId) returns (i: nat)
      ensures i == FirstWith(store, id)
    {
      i := 0;
      while i < |store|
        invariant i <= |store| && forall j | 0 <= j < i :: !Holds(store[j].msgs, id)
      {
        var found := Find(store[i].msgs, id);
        if found {
          return;
        }
        i := i + 1;
      }
    }

    /** One event of the socket. */
    method OnEvent(p: Packet)
      modifies this`store
      ensures store == Receive(old(store), p)
    {
      match p {
        case Message(m, from, body, timestamp) =>
          store := AddDMMessage(store, from, Entry(Row(m), from, body, timestamp, Delivered, false));
        case SentAck(m, n) =>
          var i := Search(Local(n));
          if i < |store| {
            store := ConfirmDMMessage(store, store[i].partner, Local(n), m);
          }
        case ReadNotice(m) =>
          var i := Search(Row(m));
          if i < |store| {
            store := UpdateDMMessageStatus(store, store[i].partner, Row(m), Read);
          }
        case Other(_) =>
      }
    }

    /** An optimistic send of the trimmed body, and what goes to the server. Blank bodies are not sent. */
    method HandleSend(partner: UserId, n: nat, body: string, now: int) returns (out: Option<Outgoing>)
      requires StoreRuns.Fresh(store, n)
      modifies this`store
      ensures out == if Blanks(body) then None else Some(Outgoing(partner, Trim(body), n))
      ensures View() == if Blanks(body) then old(View())
                        else StoreRuns.ClientStep(old(View()), me, StoreRuns.Sends(partner, n, Trim(body), now))
    {
      TrimmedAway(body);
      if Trim(body) == "" {
        return None;
      }
      store := AddDMMessage(store, partner, Entry(Local(n), me, Trim(body), now, Sent, true));
      return Some(Outgoing(partner, Trim(body), n));
    }

    /** The effect of showing a conversation: acknowledge each received message once, and mark it read. */
    method AckPass(partner: UserId)
      modifies this
      ensures View() == StoreRuns.AckPass(old(View()), partner)
    {
      var messages := Get(store, partner);
      for i := 0 to |messages|
        invariant StoreRuns.AckFrom(View(), partner, messages[i..]) == StoreRuns.AckPass(old(View()), partner)
      {
        var m := messages[i];
        assert messages[i..][0] == m && messages[i..][1..] == messages[i + 1..];
        if !m.mine && m.status != Read && m.id !in acked {
          acked := acked + {m.id};
          acks := acks + [m.id];
          store := UpdateDMMessageStatus(store, partner, m.id, Read);
        }
      }
      assert messages[|messages|..] == [];
    }

    /** The window is closed and opened again: its memory starts empty. */
    method Remount()
      modifies this`acked, this`mounted
      ensures View() == StoreRuns.ClientStep(old(View()), me, StoreRuns.Remounts)
    {
      acked := {};
      mounted := |acks|;
    }

    /** The history of a conversation when it is opened. An empty one is ignored. */
    method LoadHistory(partner: UserId, history: seq<Entry>)
      modifies this`store
      ensures View() == HistoryRuns.LoadStep(old(View()), me, HistoryRuns.Loads(partner, history))
    {
      if |history| == 0 {
        return;
      }
      store := SetDMHistory(store, partner, history);
    }
  }
}
