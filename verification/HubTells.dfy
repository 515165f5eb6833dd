/** What each user is told: the packets his connections accept, under any succession of sends. */
module HubTells {
  import opened ChatTypes
  import opened HubSpec

  /** The accepted sends to a user, in order. */
  function For(log: seq<Accept>, u: UserId): seq<Accept> {
    if log == [] then []
    else
      var last := log[|log| - 1];
      For(log[..|log| - 1], u) + if last.user == u then [last] else []
  }

  /** How many more packets the user's mapped connection takes before it is full. */
  function Places(h: HubState, u: UserId): nat {
    if u in h.clients && |h.chans[h.clients[u]].queue| < CAPACITY then CAPACITY - |h.chans[h.clients[u]].queue| else 0
  }

  function Taken(c: ClientId, u: UserId, ps: seq<Packet>): seq<Accept> {
    seq(|ps|, k requires 0 <= k < |ps| => Accept(c, u, ps[k]))
  }

  /** The first of the packets, as many as there is room for. */
  function Fitting(h: HubState, u: UserId, ps: seq<Packet>): seq<Accept> {
    if u in h.clients then Taken(h.clients[u], u, ps[..Min(|ps|, Places(h, u))]) else []
  }

  /**
   The user was sent exactly these packets, in this order: his mapped connection took the first of them, as
   many as it had room for, and it is dropped exactly if one was too many.
   */
  predicate Told(h: HubState, h': HubState, u: UserId, ps: seq<Packet>) {
    && For(h'.log, u) == For(h.log, u) + Fitting(h, u, ps)
    && (u in h'.clients <==> u in h.clients && |ps| <= Places(h, u))
    && (u in h'.clients ==> h'.clients[u] == h.clients[u] && Places(h', u) == Places(h, u) - |ps|)
  }

  lemma {:induction false} ForAppend(log: seq<Accept>, a: Accept, u: UserId)
    ensures For(log + [a], u) == For(log, u) + if a.user == u then [a] else []
  {
    assert (log + [a])[..|log|] == log;
  }

  lemma ToldNothing(h: HubState, u: UserId)
    ensures Told(h, h, u, [])
  {
    assert For(h.log, u) + [] == For(h.log, u);
  }

  lemma SendLog(h: HubState, v: UserId, p: Packet, u: UserId)
    requires HubOk(h)
    ensures For(Send(h, v, p).hub.log, u) == For(h.log, u) + if u == v then Fitting(h, u, [p]) else []
  {
    SendEffect(h, v, p);
    hide HubOk, Send, SameConnections, For;
    if HasRoom(h, v) {
      ForAppend(h.log, Accept(h.clients[v], v, p), u);
      assert [p][..1] == [p];
    } else {
      assert h.log + [] == h.log;
      assert For(h.log, u) + [] == For(h.log, u);
    }
  }

  lemma SendPlaces(h: HubState, v: UserId, p: Packet, u: UserId)
    requires HubOk(h)
    ensures var h' := Send(h, v, p).hub;
            && HubOk(h')
            && (u in h'.clients <==> u in h.clients && (u == v ==> 1 <= Places(h, u)))
            && (u in h'.clients ==>
                  h'.clients[u] == h.clients[u] && Places(h', u) == Places(h, u) - if u == v then 1 else 0)
  {
    SendEffect(h, v, p);
    hide ChannelOk, LogOk, SameConnections;
  }

  /** A send tells its addressee the packet, and nobody else anything. */
  lemma SendTells(h: HubState, v: UserId, p: Packet, u: UserId)
    requires HubOk(h)
    ensures HubOk(Send(h, v, p).hub) && Told(h, Send(h, v, p).hub, u, if u == v then [p] else [])
  {
    SendLog(h, v, p, u);
    SendPlaces(h, v, p, u);
    hide HubOk, Send, For, Places, Taken;
    assert Fitting(h, u, []) == [];
  }

  lemma FittingAdds(h: HubState, h1: HubState, u: UserId, ps: seq<Packet>, qs: seq<Packet>)
    requires u in h1.clients <==> u in h.clients && |ps| <= Places(h, u)
    requires u in h1.clients ==> h1.clients[u] == h.clients[u] && Places(h1, u) == Places(h, u) - |ps|
    ensures Fitting(h, u, ps + qs) == Fitting(h, u, ps) + Fitting(h1, u, qs)
  {
    hide Places;
    var all := ps + qs;
    if u in h1.clients {
      var n := Min(|qs|, Places(h1, u));
      assert all[..Min(|all|, Places(h, u))] == ps + qs[..n];
      assert ps[..Min(|ps|, Places(h, u))] == ps;
    } else if u in h.clients {
      assert all[..Min(|all|, Places(h, u))] == ps[..Min(|ps|, Places(h, u))];
    }
  }

  /** What a user is told by one part of a handler and then by another. */
  lemma ToldThen(h: HubState, h1: HubState, h2: HubState, u: UserId, ps: seq<Packet>, qs: seq<Packet>)
    requires Told(h, h1, u, ps) && Told(h1, h2, u, qs)
    ensures Told(h, h2, u, ps + qs)
  {
    hide For, Fitting, Places;
    FittingAdds(h, h1, u, ps, qs);
    assert For(h.log, u) + (Fitting(h, u, ps) + Fitting(h1, u, qs))
        == For(h.log, u) + Fitting(h, u, ps) + Fitting(h1, u, qs);
  }
}
