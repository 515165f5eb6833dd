/**
 The hub of one server instance as a value: the user-to-connection map, every connection
 ever registered, and a log of the sends that succeeded. Each function is one lock-sized step.
 */
module HubSpec {
  import opened ChatTypes

  const CAPACITY: nat := 256

  datatype Pump = NotStarted | Running | Stopped

  /** `queue` is the buffered Go channel. `written` and `failed` record what its writer did. */
  datatype Channel = Channel(
    user: UserId,
    queue: seq<Packet>,
    closed: bool,
    written: seq<Packet>,
    failed: seq<Packet>,
    writer: Pump,
    reader: Pump)

  datatype Accept = Accept(client: ClientId, user: UserId, packet: Packet)

  datatype HubRecord = Hub(clients: map<UserId, ClientId>, chans: seq<Channel>, log: seq<Accept>)

  const EMPTY_HUB := Hub(map[], [], [])

  /** Every handle in the map names a connection that was registered. */
  type HubState = h: HubRecord | forall u | u in h.clients :: h.clients[u] < |h.chans| witness EMPTY_HUB

  function NewChannel(user: UserId): Channel {
    Channel(user, [], false, [], [], NotStarted, NotStarted)
  }

  /** Registration overwrites an earlier connection of the user and leaves that connection open. */
  function Register(h: HubState, user: UserId): HubState {
    Hub(h.clients[user := |h.chans|], h.chans + [NewChannel(user)], h.log)
  }

  function StartPumps(h: HubState, c: ClientId): HubState
    requires c < |h.chans|
  {
    h.(chans := h.chans[c := h.chans[c].(writer := Running, reader := Running)])
  }

  predicate Current(h: HubState, c: ClientId)
    requires c < |h.chans|
  {
    h.chans[c].user in h.clients && h.clients[h.chans[c].user] == c
  }

  /** Removal is checked against the identity of the connection. */
  function Unregister(h: HubState, c: ClientId): HubState
    requires c < |h.chans|
  {
    if Current(h, c) then
      Hub(h.clients - {h.chans[c].user}, h.chans[c := h.chans[c].(closed := true)], h.log)
    else h
  }

  function StopReader(h: HubState, c: ClientId): HubState
    requires c < |h.chans|
  {
    h.(chans := h.chans[c := h.chans[c].(reader := Stopped)])
  }

  function EndReader(h: HubState, c: ClientId): HubState
    requires c < |h.chans|
  {
    StopReader(Unregister(h, c), c)
  }

  /** What a non-blocking channel send does: a send on a closed channel panics. */
  datatype Outcome = Accepted | Full | Panics

  function Offer(h: HubState, c: ClientId): Outcome
    requires c < |h.chans|
  {
    if h.chans[c].closed then Panics
    else if |h.chans[c].queue| < CAPACITY then Accepted
    else Full
  }

  function Enqueue(h: HubState, c: ClientId, p: Packet): HubState
    requires c < |h.chans|
  {
    Hub(h.clients, h.chans[c := h.chans[c].(queue := h.chans[c].queue + [p])],
             h.log + [Accept(c, h.chans[c].user, p)])
  }

  datatype SendResult = SendResult(hub: HubState, ok: bool)

  /** The send of one packet when nothing else runs between its lookup and its enqueue. */
  function Send(h: HubState, user: UserId, p: Packet): SendResult {
    if user !in h.clients then SendResult(h, false)
    else
      var c := h.clients[user];
      if Offer(h, c) == Accepted then SendResult(Enqueue(h, c, p), true)
      else SendResult(Unregister(h, c), false)
  }

  predicate CanWrite(h: HubState, c: ClientId) {
    c < |h.chans| && h.chans[c].writer == Running && h.chans[c].queue != []
  }

  /** The writer takes the head of the queue. A socket error ends the writer. */
  function Write(h: HubState, c: ClientId, ok: bool): HubState
    requires CanWrite(h, c)
  {
    var ch := h.chans[c];
    var rest := ch.queue[1..];
    h.(chans := h.chans[c :=
      if ok then ch.(queue := rest, written := ch.written + [ch.queue[0]])
      else ch.(queue := rest, failed := [ch.queue[0]], writer := Stopped)])
  }

  /** The successful sends to one connection, in order. */
  function Project(log: seq<Accept>, c: ClientId): seq<Packet> {
    if log == [] then []
    else
      var last := log[|log| - 1];
      Project(log[..|log| - 1], c) + if last.client == c then [last.packet] else []
  }

  predicate ChannelOk(h: HubState, c: ClientId)
    requires c < |h.chans|
  {
    var ch := h.chans[c];
    && |ch.queue| <= CAPACITY
    && |ch.failed| <= 1
    && (ch.writer != Stopped ==> ch.failed == [])
    && (ch.writer == NotStarted ==> ch.written == [])
    && ch.written + ch.failed + ch.queue == Project(h.log, c)
  }

  /** A connection in the map is open and keyed by its own user. */
  predicate MapOk(h: HubState) {
    forall u | u in h.clients :: h.chans[h.clients[u]].user == u && !h.chans[h.clients[u]].closed
  }

  predicate LogOk(h: HubState) {
    forall k | 0 <= k < |h.log| :: h.log[k].client < |h.chans| && h.log[k].user == h.chans[h.log[k].client].user
  }

  /** Everything the hub keeps at every lock-sized step. */
  predicate HubOk(h: HubState) {
    && MapOk(h)
    && LogOk(h)
    && forall c: ClientId | c < |h.chans| :: ChannelOk(h, c)
  }

  lemma {:induction false} ProjectAppend(log: seq<Accept>, a: Accept, c: ClientId)
    ensures Project(log + [a], c) == Project(log, c) + if a.client == c then [a.packet] else []
  {
    assert (log + [a])[..|log|] == log;
  }

  lemma {:induction false} ProjectNone(log: seq<Accept>, c: ClientId)
    requires forall k | 0 <= k < |log| :: log[k].client != c
    ensures Project(log, c) == []
  {
    if log != [] {
      ProjectNone(log[..|log| - 1], c);
    }
  }

  lemma NewIsSilent(h: HubState)
    requires HubOk(h)
    ensures Project(h.log, |h.chans|) == []
  {
    ProjectNone(h.log, |h.chans|);
  }

  lemma RegisterKeepsMap(h: HubState, user: UserId)
    requires MapOk(h) && LogOk(h)
    ensures MapOk(Register(h, user)) && LogOk(Register(h, user))
  {
    var h' := Register(h, user);
    forall u | u in h'.clients ensures h'.chans[h'.clients[u]].user == u && !h'.chans[h'.clients[u]].closed {
      assert u != user ==> h'.chans[h'.clients[u]] == h.chans[h.clients[u]];
    }
  }

  lemma RegisterKeepsHub(h: HubState, user: UserId)
    requires HubOk(h)
    ensures HubOk(Register(h, user))
  {
    hide MapOk, LogOk, Project;
    var h' := Register(h, user);
    RegisterKeepsMap(h, user);
    NewIsSilent(h);
    forall c: ClientId | c < |h'.chans| ensures ChannelOk(h', c) {
      assert c < |h.chans| ==> ChannelOk(h, c);
    }
  }

  lemma StartPumpsKeepsHub(h: HubState, c: ClientId)
    requires HubOk(h) && c < |h.chans| && h.chans[c].writer == NotStarted
    ensures HubOk(StartPumps(h, c))
  {
    var h' := StartPumps(h, c);
    forall d: ClientId | d < |h'.chans| ensures ChannelOk(h', d) {
      assert ChannelOk(h, d);
    }
  }

  /** A removal touches the named connection only: no other user, and no newer connection, is evicted. */
  lemma UnregisterKeepsHub(h: HubState, c: ClientId)
    requires HubOk(h) && c < |h.chans|
    ensures HubOk(Unregister(h, c))
    ensures forall u | u in h.clients && h.clients[u] != c ::
              u in Unregister(h, c).clients && Unregister(h, c).clients[u] == h.clients[u]
    ensures forall d: ClientId | d < |h.chans| && d != c :: Unregister(h, c).chans[d] == h.chans[d]
    ensures Unregister(h, c).chans[c].closed <==> h.chans[c].closed || Current(h, c)
    ensures Current(h, c) ==> !h.chans[c].closed
  {
    var h' := Unregister(h, c);
    forall d: ClientId | d < |h'.chans| ensures ChannelOk(h', d) {
      assert ChannelOk(h, d);
    }
  }

  lemma StopReaderKeepsHub(h: HubState, c: ClientId)
    requires HubOk(h) && c < |h.chans|
    ensures HubOk(StopReader(h, c))
  {
    var h' := StopReader(h, c);
    forall d: ClientId | d < |h'.chans| ensures ChannelOk(h', d) {
      assert ChannelOk(h, d);
    }
  }

  lemma EndReaderKeepsHub(h: HubState, c: ClientId)
    requires HubOk(h) && c < |h.chans|
    ensures HubOk(EndReader(h, c))
  {
    UnregisterKeepsHub(h, c);
    StopReaderKeepsHub(Unregister(h, c), c);
  }

  lemma EnqueueKeepsHub(h: HubState, c: ClientId, p: Packet)
    requires HubOk(h) && c < |h.chans| && Offer(h, c) == Accepted
    ensures HubOk(Enqueue(h, c, p))
  {
    var h' := Enqueue(h, c, p);
    forall d: ClientId | d < |h'.chans| ensures ChannelOk(h', d) {
      assert ChannelOk(h, d);
      ProjectAppend(h.log, Accept(c, h.chans[c].user, p), d);
      if d == c {
        var ch := h.chans[c];
        assert ch.written + ch.failed + (ch.queue + [p]) == (ch.written + ch.failed + ch.queue) + [p];
      }
    }
  }

  /** An accepted packet is the last of its connection's, and no other connection is touched. */
  lemma EnqueueIsLast(h: HubState, c: ClientId, p: Packet)
    requires HubOk(h) && c < |h.chans| && Offer(h, c) == Accepted
    ensures var h' := Enqueue(h, c, p);
            && HubOk(h')
            && Project(h'.log, c) == Project(h.log, c) + [p] && h'.chans[c].written == h.chans[c].written
            && h'.chans[c].queue != [] && h'.chans[c].queue[|h'.chans[c].queue| - 1] == p
            && forall d: ClientId | d < |h.chans| && d != c ::
                  Project(h'.log, d) == Project(h.log, d) && h'.chans[d] == h.chans[d]
  {
    hide HubOk, Project;
    EnqueueKeepsHub(h, c, p);
    var h' := Enqueue(h, c, p);
    var a := Accept(c, h.chans[c].user, p);
    ProjectAppend(h.log, a, c);
    forall d: ClientId | d < |h.chans| && d != c ensures Project(h'.log, d) == Project(h.log, d) {
      ProjectAppend(h.log, a, d);
      assert Project(h.log, d) + [] == Project(h.log, d);
    }
  }

  lemma WriteKeepsHub(h: HubState, c: ClientId, ok: bool)
    requires HubOk(h) && CanWrite(h, c)
    ensures HubOk(Write(h, c, ok))
  {
    var h' := Write(h, c, ok);
    forall d: ClientId | d < |h'.chans| ensures ChannelOk(h', d) {
      assert ChannelOk(h, d);
      if d == c {
        var ch := h.chans[c];
        assert ch.failed == [];
        assert ch.queue == [ch.queue[0]] + ch.queue[1..];
        assert ch.written + ch.failed + ch.queue == ch.written + [ch.queue[0]] + ch.queue[1..];
      }
    }
  }

  predicate SameEnds(a: Channel, b: Channel) {
    a.user == b.user && a.reader == b.reader && a.writer == b.writer
  }

  /** Sends leave the users and the pumps of all connections alone. */
  predicate SameConnections(h: HubState, h': HubState) {
    && |h'.chans| == |h.chans|
    && forall c | 0 <= c < |h.chans| :: SameEnds(h.chans[c], h'.chans[c])
  }

  /** The user is connected here and his queue is not full. */
  predicate HasRoom(h: HubState, user: UserId) {
    user in h.clients && |h.chans[h.clients[user]].queue| < CAPACITY
  }

  /** The whole effect of a send, as its callers use it. */
  lemma SendEffect(h: HubState, user: UserId, p: Packet)
    requires HubOk(h)
    ensures var r := Send(h, user, p);
            && HubOk(r.hub)
            && |r.hub.chans| == |h.chans|
            && (r.ok <==> user in h.clients && |h.chans[h.clients[user]].queue| < CAPACITY)
            && r.hub.log == h.log + (if r.ok then [Accept(h.clients[user], user, p)] else [])
            && r.hub.clients == (if r.ok then h.clients else h.clients - {user})
            && SameConnections(h, r.hub)
  {
    if user in h.clients {
      var c := h.clients[user];
      if Offer(h, c) == Accepted {
        EnqueueKeepsHub(h, c, p);
      } else {
        UnregisterKeepsHub(h, c);
      }
    } else {
      assert h.log + [] == h.log;
      assert h.clients - {user} == h.clients;
    }
  }

  /** Socket order: what was written is a prefix of the successful sends while the connection lasts. */
  lemma WrittenIsPrefix(h: HubState, c: ClientId)
    requires HubOk(h) && c < |h.chans|
    ensures h.chans[c].written <= Project(h.log, c)
    ensures h.chans[c].writer != Stopped ==> h.chans[c].written + h.chans[c].queue == Project(h.log, c)
    ensures |Project(h.log, c)| <= |h.chans[c].written| + 1 + CAPACITY
  {
    assert ChannelOk(h, c);
    var ch := h.chans[c];
    assert Project(h.log, c) == ch.written + (ch.failed + ch.queue);
    if ch.writer != Stopped {
      assert ch.written + ch.failed == ch.written;
    }
  }
}
