/** The hub of one instance in place: connections are objects, the user map is a field. */
module Hub {
  import opened ChatTypes
  import opened HubSpec

  /** One WebSocket connection: its buffered channel, and what its two pumps did with it. */
  class Client {
    const user: UserId
    var chan: Channel

    constructor (user: UserId)
      ensures this.user == user && chan == NewChannel(user)
    {
      this.user, chan := user, NewChannel(user);
    }

    /** A non-blocking send on the connection's channel. */
    method TrySend(p: Packet) returns (ok: bool)
      requires !chan.closed
      modifies this`chan
      ensures ok == (|old(chan).queue| < CAPACITY)
      ensures chan == if ok then old(chan).(queue := old(chan).queue + [p]) else old(chan)
    {
      ok := |chan.queue| < CAPACITY;
      if ok {
        chan := chan.(queue := chan.queue + [p]);
      }
    }

    /**
     The writer loop until the queue is empty or the socket fails: `fails` is the number of packets after
     which it does.
     */
    method WritePump(fails: nat)
      requires chan.writer == Running && chan.failed == []
      modifies this`chan
      ensures chan == Pumped(old(chan), fails)
    {
      var n := 0;
      while chan.queue != []
        invariant n <= fails && |old(chan).queue| == n + |chan.queue|
        invariant chan == old(chan).(queue := old(chan).queue[n..], written := old(chan).written + old(chan).queue[..n])
        decreases |chan.queue|
      {
        var head := chan.queue[0];
        chan := chan.(queue := chan.queue[1..]);
        if n == fails {
          chan := chan.(failed := [head], writer := Stopped);
          return;
        }
        chan := chan.(written := chan.written + [head]);
        n := n + 1;
      }
    }
  }

  /** The channel once its writer is done: packets left from the head, in order, up to the first failure. */
  function Pumped(ch: Channel, fails: nat): Channel {
    if fails < |ch.queue| then
      ch.(written := ch.written + ch.queue[..fails], failed := [ch.queue[fails]], queue := ch.queue[fails + 1..],
          writer := Stopped)
    else ch.(written := ch.written + ch.queue, queue := [])
  }

  /** The same as single writes of the protocol. */
  function Drained(h: HubState, c: ClientId, fails: nat): HubState
    decreases if c < |h.chans| then |h.chans[c].queue| else 0
  {
    if !CanWrite(h, c) then h
    else if fails == 0 then Write(h, c, false)
    else Drained(Write(h, c, true), c, fails - 1)
  }

  /** One packet written first makes no difference to where the writer ends. */
  lemma PumpedStep(ch: Channel, fails: nat)
    requires ch.queue != [] && 0 < fails
    ensures Pumped(ch.(queue := ch.queue[1..], written := ch.written + [ch.queue[0]]), fails - 1) == Pumped(ch, fails)
  {
    var rest := ch.queue[1..];
    assert ch.queue == [ch.queue[0]] + rest;
    if fails < |ch.queue| {
      assert ch.queue[..fails] == [ch.queue[0]] + rest[..fails - 1];
      assert rest[fails..] == ch.queue[fails + 1..];
    }
  }

  lemma PumpedEnds(ch: Channel, fails: nat)
    requires ch.failed == [] && (ch.queue == [] || fails == 0)
    ensures ch.queue == [] ==> Pumped(ch, fails) == ch
    ensures ch.queue != [] ==>
              Pumped(ch, fails) == ch.(queue := ch.queue[1..], failed := [ch.queue[0]], writer := Stopped)
  {
    assert ch.written + [] == ch.written;
    assert ch.queue != [] ==> ch.queue[..0] == [];
  }

  /** The loop of the writer is a run of the protocol's single writes. */
  lemma {:induction false} PumpIsWrites(h: HubState, c: ClientId, fails: nat)
    requires c < |h.chans| && h.chans[c].writer == Running && h.chans[c].failed == []
    ensures Drained(h, c, fails) == h.(chans := h.chans[c := Pumped(h.chans[c], fails)])
    decreases |h.chans[c].queue|
  {
    hide Pumped;
    var ch := h.chans[c];
    if ch.queue == [] || fails == 0 {
      PumpedEnds(ch, fails);
      assert h.chans[c := ch] == h.chans;
    } else {
      var h' := Write(h, c, true);
      PumpedStep(ch, fails);
      PumpIsWrites(h', c, fails - 1);
      assert h'.chans[c := Pumped(ch, fails)] == h.chans[c := Pumped(ch, fails)];
    }
  }

  /** Connections are told apart by their place in the order of registration. */
  predicate AllDistinct(all: seq<Client>) {
    forall j, k | 0 <= j < k < |all| :: all[j] != all[k]
  }

  predicate EntryShown(clients: map<UserId, Client>, all: seq<Client>, ids: map<UserId, ClientId>, u: UserId)
    requires u in clients && u in ids
  {
    ids[u] < |all| && all[ids[u]] == clients[u]
  }

  predicate MapShown(clients: map<UserId, Client>, all: seq<Client>, ids: map<UserId, ClientId>) {
    clients.Keys == ids.Keys && forall u | u in clients :: EntryShown(clients, all, ids, u)
  }

  ghost predicate ChanShown(all: seq<Client>, chans: seq<Channel>, k: nat)
    requires k < |all| && k < |chans|
    reads all[k]
  {
    all[k].chan == chans[k] && all[k].user == chans[k].user
  }

  ghost predicate ChansShown(all: seq<Client>, chans: seq<Channel>)
    reads all
  {
    |chans| == |all| && forall k | 0 <= k < |all| :: ChanShown(all, chans, k)
  }

  lemma DistinctGrows(all: seq<Client>, c: Client)
    requires AllDistinct(all) && c !in all
    ensures AllDistinct(all + [c])
  {}

  lemma ChansRegister(all: seq<Client>, chans: seq<Channel>, c: Client)
    requires ChansShown(all, chans) && c.chan == NewChannel(c.user)
    ensures ChansShown(all + [c], chans + [NewChannel(c.user)]) && |chans| == |all|
  {
    var all', chans' := all + [c], chans + [NewChannel(c.user)];
    forall k | 0 <= k < |all'| ensures ChanShown(all', chans', k) {
      assert k < |all| ==> ChanShown(all, chans, k);
    }
  }

  lemma MapRegisters(clients: map<UserId, Client>, all: seq<Client>, ids: map<UserId, ClientId>, c: Client)
    requires MapShown(clients, all, ids)
    ensures MapShown(clients[c.user := c], all + [c], ids[c.user := |all|])
  {
    var clients', all', ids' := clients[c.user := c], all + [c], ids[c.user := |all|];
    forall u | u in clients' ensures EntryShown(clients', all', ids', u) {
      assert u != c.user ==> EntryShown(clients, all, ids, u);
    }
  }

  lemma MapRemoves(clients: map<UserId, Client>, all: seq<Client>, ids: map<UserId, ClientId>, user: UserId)
    requires MapShown(clients, all, ids)
    ensures MapShown(clients - {user}, all, ids - {user})
  {
    forall u | u in clients - {user} ensures EntryShown(clients - {user}, all, ids - {user}, u) {
      assert EntryShown(clients, all, ids, u);
    }
  }

  /** The map holds the object exactly when the view holds its place. */
  lemma MapFinds(clients: map<UserId, Client>, all: seq<Client>, ids: map<UserId, ClientId>, k: nat)
    requires MapShown(clients, all, ids) && AllDistinct(all) && k < |all|
    ensures all[k].user in clients && clients[all[k].user] == all[k] <==> all[k].user in ids && ids[all[k].user] == k
  {
    var u := all[k].user;
    if u in clients {
      assert EntryShown(clients, all, ids, u);
    }
  }

  /** The map and the connections of a hub. `view` is the value the specification works on. */
  class Hub {
    var clients: map<UserId, Client>
    ghost var all: seq<Client>  // every connection ever registered, in order
    ghost var view: HubState

    constructor ()
      ensures Valid() && view == EMPTY_HUB && all == []
    {
      clients, all, view := map[], [], EMPTY_HUB;
    }

    ghost predicate Valid()
      reads this, all
    {
      AllDistinct(all) && MapShown(clients, all, view.clients) && ChansShown(all, view.chans)
    }

    /** Overwrites the user's entry. An earlier connection is not closed. */
    method Register(c: Client)
      requires Valid() && c !in all && c.chan == NewChannel(c.user)
      modifies this
      ensures Valid() && all == old(all) + [c]
      ensures view == HubSpec.Register(old(view), c.user)
    {
      hide AllDistinct, MapShown, ChansShown;
      DistinctGrows(all, c);
      MapRegisters(clients, all, view.clients, c);
      ChansRegister(all, view.chans, c);
      clients := clients[c.user := c];
      all := all + [c];
      view := HubSpec.Register(view, c.user);
    }

    /** Removes and closes the connection only if it is the one in the map. */
    method Unregister(c: Client, ghost k: nat)
      requires Valid() && k < |all| && all[k] == c
      modifies this`clients, this`view, c`chan
      ensures Valid() && k < |old(view).chans|
      ensures view == HubSpec.Unregister(old(view), k)
    {
      assert ChanShown(all, view.chans, k);
      MapFinds(clients, all, view.clients, k);
      if c.user in clients && clients[c.user] == c {
        MapRemoves(clients, all, view.clients, c.user);
        hide MapShown, EntryShown;
        view := HubSpec.Unregister(view, k);
        clients := clients - {c.user};
        c.chan := c.chan.(closed := true);
        assert ChansShown(all, view.chans) by {
          forall j | 0 <= j < |all| ensures ChanShown(all, view.chans, j) {
            assert old(ChanShown(all, view.chans, j));
          }
        }
      }
    }

    /** True if the packet was queued. A full queue drops the connection. */
    method Send(user: UserId, p: Packet) returns (ok: bool)
      requires Valid() && MapOk(view)
      modifies this`clients, this`view, all
      ensures Valid()
      ensures view == HubSpec.Send(old(view), user, p).hub
      ensures ok == HubSpec.Send(old(view), user, p).ok
    {
      if user !in clients {
        return false;
      }
      var client := clients[user];
      assert EntryShown(clients, all, view.clients, user);
      ghost var k := view.clients[user];
      assert ChanShown(all, view.chans, k);
      ok := client.TrySend(p);
      if ok {
        view := HubSpec.Enqueue(view, k, p);
        assert ChansShown(all, view.chans) by {
          forall j | 0 <= j < |all| ensures ChanShown(all, view.chans, j) {
            assert old(ChanShown(all, view.chans, j));
          }
        }
      } else {
        assert ChansShown(all, view.chans);
        Unregister(client, k);
      }
    }

    /** The two pumps of a connection start. */
    method StartPumps(c: Client, ghost k: nat)
      requires Valid() && k < |all| && all[k] == c
      modifies this`view, c`chan
      ensures Valid() && k < |old(view).chans| && view == HubSpec.StartPumps(old(view), k)
    {
      assert ChanShown(all, view.chans, k);
      SetChannel(c, k, c.chan.(writer := Running, reader := Running));
    }

    /** The end of a connection's reader. */
    method EndReader(c: Client, ghost k: nat)
      requires Valid() && k < |all| && all[k] == c
      modifies this`clients, this`view, c`chan
      ensures Valid() && k < |old(view).chans| && view == HubSpec.EndReader(old(view), k)
    {
      Unregister(c, k);
      assert ChanShown(all, view.chans, k);
      SetChannel(c, k, c.chan.(reader := Stopped));
    }

    /** The writer of a connection runs until it blocks or fails. */
    method Drain(c: Client, ghost k: nat, fails: nat)
      requires Valid() && k < |all| && all[k] == c && c.chan.writer == Running && c.chan.failed == []
      modifies this`view, c`chan
      ensures Valid() && view == Drained(old(view), k, fails)
    {
      assert ChanShown(all, view.chans, k);
      PumpIsWrites(view, k, fails);
      c.WritePump(fails);
      view := view.(chans := view.chans[k := c.chan]);
      assert ChansShown(all, view.chans) by {
        forall j | 0 <= j < |all| ensures ChanShown(all, view.chans, j) {
          assert old(ChanShown(all, view.chans, j));
        }
      }
    }

    method SetChannel(c: Client, ghost k: nat, ch: Channel)
      requires Valid() && k < |all| && all[k] == c && ch.user == c.user
      modifies this`view, c`chan
      ensures Valid() && k < |old(view).chans|
      ensures c.chan == ch && view == old(view).(chans := old(view).chans[k := ch])
    {
      c.chan := ch;
      view := view.(chans := view.chans[k := c.chan]);
      assert ChansShown(all, view.chans) by {
        forall j | 0 <= j < |all| ensures ChanShown(all, view.chans, j) {
          assert old(ChanShown(all, view.chans, j));
        }
      }
    }

    method IsOnline(user: UserId) returns (online: bool)
      requires Valid()
      ensures online <==> user in view.clients
    {
      online := user in clients;
    }
  }
}
