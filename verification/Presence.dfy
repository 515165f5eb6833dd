/** Presence: one Redis key a user with a TTL, refreshed by heartbeats. Times are milliseconds. */
module Presence {
  import opened ChatTypes

  const TTL: int := 30000
  const HEARTBEAT: int := 20000
  const MAX_DELAY: int := 10000

  /** The instant each user's key expires. */
  type Keys = map<UserId, int>

  predicate Online(keys: Keys, user: UserId, now: int) {
    user in keys && now < keys[user]
  }

  datatype BatchResult = Failed | Ok(online: map<UserId, bool>)

  class Store {
    var keys: Keys

    constructor ()
      ensures keys == map[]
    {
      keys := map[];
    }

    method SetOnline(user: UserId, now: int, redisOk: bool)
      modifies this
      ensures keys == if redisOk then After(old(keys), Refresh(user, now)) else old(keys)
    {
      if redisOk {
        keys := keys[user := now + TTL];
      }
    }

    method SetOffline(user: UserId, now: int, redisOk: bool)
      modifies this
      ensures keys == if redisOk then After(old(keys), Drop(user, now)) else old(keys)
    {
      if redisOk {
        keys := keys - {user};
      }
    }

    /** A Redis error counts as offline. */
    method IsOnline(user: UserId, now: int, redisOk: bool) returns (online: bool)
      ensures online <==> redisOk && Online(keys, user, now)
    {
      online := redisOk && user in keys && now < keys[user];
    }

    /** MGET: the values of the keys asked for, in the order asked. */
    method MGet(users: seq<UserId>, now: int) returns (vals: seq<Option<int>>)
      ensures |vals| == |users|
      ensures forall i | 0 <= i < |users| :: vals[i].Some? <==> Online(keys, users[i], now)
    {
      vals := [];
      for i := 0 to |users|
        invariant |vals| == i
        invariant forall j | 0 <= j < i :: vals[j].Some? <==> Online(keys, users[j], now)
      {
        var val := if users[i] in keys && now < keys[users[i]] then Some(keys[users[i]]) else None;
        vals := vals + [val];
      }
    }

    /** The batch lookup agrees with the single one for every id asked for, however often it is listed. */
    method GetPresenceBatch(users: seq<UserId>, now: int, redisOk: bool) returns (r: BatchResult)
      ensures users == [] ==> r == Ok(map[])
      ensures users != [] ==> (r == Failed <==> !redisOk)
      ensures r.Ok? ==> forall u :: u in r.online <==> u in users
      ensures r.Ok? ==> forall u | u in r.online :: r.online[u] <==> Online(keys, u, now)
    {
      if |users| == 0 {
        return Ok(map[]);
      }
      if !redisOk {
        return Failed;
      }
      var vals := MGet(users, now);
      var result: map<UserId, bool> := map[];
      for i := 0 to |users|
        invariant forall u :: u in result <==> u in users[..i]
        invariant forall u | u in result :: result[u] <==> Online(keys, u, now)
      {
        result := result[users[i] := vals[i] != None];
      }
      assert users[..|users|] == users;
      r := Ok(result);
    }
  }

  // ---- traces

  datatype Event = Refresh(user: UserId, at: int) | Drop(user: UserId, at: int)

  function After(keys: Keys, e: Event): Keys {
    match e
    case Refresh(u, at) => keys[u := at + TTL]
    case Drop(u, _) => keys - {u}
  }

  predicate InOrder(es: seq<Event>) {
    forall j, k | 0 <= j < k < |es| :: es[j].at <= es[k].at
  }

  function KeysAfter(es: seq<Event>): Keys {
    if es == [] then map[] else After(KeysAfter(es[..|es| - 1]), es[|es| - 1])
  }

  /** What had happened by an instant. */
  function Upto(es: seq<Event>, now: int): seq<Event> {
    if es == [] then []
    else if es[|es| - 1].at <= now then es
    else Upto(es[..|es| - 1], now)
  }

  /** The answer of the lookup at an instant of a trace. */
  predicate OnlineAt(es: seq<Event>, user: UserId, now: int) {
    Online(KeysAfter(Upto(es, now)), user, now)
  }

  /** Event k is a refresh that still holds, and no drop came after it. */
  predicate HeldBy(es: seq<Event>, user: UserId, now: int, k: int) {
    && 0 <= k < |es| && es[k].Refresh? && es[k].user == user && es[k].at <= now < es[k].at + TTL
    && forall j | k < j < |es| && es[j].Drop? && es[j].user == user :: now < es[j].at
  }

  lemma {:induction false} KeysShow(es: seq<Event>, user: UserId, now: int)
    requires InOrder(es) && (es != [] ==> es[|es| - 1].at <= now)
    ensures Online(KeysAfter(es), user, now) <==> exists k :: HeldBy(es, user, now, k)
  {
    if es != [] {
      var front, e := es[..|es| - 1], es[|es| - 1];
      KeysShow(front, user, now);
      if e.user == user {
        if Online(KeysAfter(es), user, now) {
          assert HeldBy(es, user, now, |es| - 1);
        }
        forall k | HeldBy(es, user, now, k) ensures Online(KeysAfter(es), user, now) {
          assert e.Drop? ==> k == |es| - 1;
          assert es[k].at <= e.at;
        }
      } else {
        forall k ensures HeldBy(es, user, now, k) <==> HeldBy(front, user, now, k) {
          assert 0 <= k < |front| ==> front[k] == es[k];
        }
      }
    }
  }

  lemma {:induction false} UptoShows(es: seq<Event>, user: UserId, now: int)
    requires InOrder(es)
    ensures OnlineAt(es, user, now) <==> exists k :: HeldBy(es, user, now, k)
  {
    if es == [] || es[|es| - 1].at <= now {
      KeysShow(es, user, now);
    } else {
      var front := es[..|es| - 1];
      UptoShows(front, user, now);
      forall k ensures HeldBy(es, user, now, k) <==> HeldBy(front, user, now, k) {
        assert 0 <= k < |front| ==> front[k] == es[k];
      }
    }
  }

  /** The user refreshed at r. */
  predicate RefreshedAt(es: seq<Event>, user: UserId, r: int) {
    Refresh(user, r) in es
  }

  predicate NeverDropped(es: seq<Event>, user: UserId) {
    forall k | 0 <= k < |es| && es[k].user == user :: es[k].Refresh?
  }

  /** Without a disconnect, a user is online at exactly the instants some refresh reaches. */
  lemma OnlineIffRefreshed(es: seq<Event>, user: UserId, now: int)
    requires InOrder(es) && NeverDropped(es, user)
    ensures OnlineAt(es, user, now) <==> exists r :: RefreshedAt(es, user, r) && r <= now < r + TTL
  {
    UptoShows(es, user, now);
    if k :| HeldBy(es, user, now, k) {
      assert RefreshedAt(es, user, es[k].at);
    }
    if r :| RefreshedAt(es, user, r) && r <= now < r + TTL {
      var k :| 0 <= k < |es| && es[k] == Refresh(user, r);
      assert HeldBy(es, user, now, k);
    }
  }

  /** Each refresh before the last is followed by another no later than its expiry. */
  ghost predicate NoGap(es: seq<Event>, user: UserId, last: int) {
    forall r | RefreshedAt(es, user, r) && r < last :: exists s :: RefreshedAt(es, user, s) && r < s <= r + TTL
  }

  lemma {:induction false} Reached(es: seq<Event>, user: UserId, last: int, r: int, now: int)
    requires NoGap(es, user, last) && RefreshedAt(es, user, r) && r <= now < last + TTL
    requires forall s | RefreshedAt(es, user, s) :: s <= last
    ensures exists s :: RefreshedAt(es, user, s) && s <= now < s + TTL
    decreases now - r
  {
    if r + TTL <= now {
      var s :| RefreshedAt(es, user, s) && r < s <= r + TTL;
      Reached(es, user, last, s, now);
    }
  }

  /**
   The presence window: between the first refresh and the expiry of the last the user is online at every
   instant exactly when no two neighbouring refreshes are more than the TTL apart.
   */
  lemma OnlineThroughoutIffNoGap(es: seq<Event>, user: UserId, first: int, last: int)
    requires InOrder(es) && NeverDropped(es, user)
    requires RefreshedAt(es, user, first) && RefreshedAt(es, user, last)
    requires forall r | RefreshedAt(es, user, r) :: first <= r <= last
    ensures (forall now | first <= now < last + TTL :: OnlineAt(es, user, now)) <==> NoGap(es, user, last)
    ensures forall now | now < first || last + TTL <= now :: !OnlineAt(es, user, now)
  {
    forall now ensures now < first || last + TTL <= now ==> !OnlineAt(es, user, now) {
      OnlineIffRefreshed(es, user, now);
    }
    if NoGap(es, user, last) {
      forall now | first <= now < last + TTL ensures OnlineAt(es, user, now) {
        Reached(es, user, last, first, now);
        OnlineIffRefreshed(es, user, now);
      }
    }
    if forall now | first <= now < last + TTL :: OnlineAt(es, user, now) {
      forall r | RefreshedAt(es, user, r) && r < last ensures exists s :: RefreshedAt(es, user, s) && r < s <= r + TTL {
        assert OnlineAt(es, user, r + TTL);
        OnlineIffRefreshed(es, user, r + TTL);
      }
    }
  }

  /** When heartbeat k of a client reaches the server. */
  function Beat(start: int, delays: seq<int>, k: nat): int
    requires k < |delays|
  {
    start + k * HEARTBEAT + delays[k]
  }

  predicate BeatAt(start: int, delays: seq<int>, k: int, r: int) {
    0 <= k < |delays| && Beat(start, delays, k) == r
  }

  lemma BeatsAdvance(start: int, delays: seq<int>, j: nat, k: nat)
    requires forall i | 0 <= i < |delays| :: 0 <= delays[i] < MAX_DELAY
    requires j < k < |delays|
    ensures Beat(start, delays, j) < Beat(start, delays, k)
    ensures k == j + 1 ==> Beat(start, delays, k) < Beat(start, delays, j) + TTL
  {
    assert k * HEARTBEAT >= (j + 1) * HEARTBEAT;
  }

  /** The refreshes of a user are the arrivals of his heartbeats, each at most ten seconds late. */
  ghost predicate AreBeats(es: seq<Event>, user: UserId, start: int, delays: seq<int>) {
    && delays != []
    && (forall i | 0 <= i < |delays| :: 0 <= delays[i] < MAX_DELAY)
    && (forall r :: RefreshedAt(es, user, r) <==> exists k :: BeatAt(start, delays, k, r))
  }

  lemma BeatsFollow(es: seq<Event>, user: UserId, start: int, delays: seq<int>, r: int)
    requires AreBeats(es, user, start, delays) && RefreshedAt(es, user, r)
    ensures var last := Beat(start, delays, |delays| - 1);
            && Beat(start, delays, 0) <= r <= last
            && (r < last ==> exists s :: RefreshedAt(es, user, s) && r < s <= r + TTL)
  {
    hide RefreshedAt, Beat;
    var n := |delays| - 1;
    var k :| BeatAt(start, delays, k, r);
    if 0 < k { BeatsAdvance(start, delays, 0, k); }
    if k < n {
      BeatsAdvance(start, delays, k, n);
      BeatsAdvance(start, delays, k, k + 1);
      assert BeatAt(start, delays, k + 1, Beat(start, delays, k + 1));
      assert RefreshedAt(es, user, Beat(start, delays, k + 1));
    }
  }

  /**
   Heartbeats every 20 s that arrive with delays in [0, 10) s keep a user online from the first arrival
   until 30 s after the last, and at no other instant.
   */
  lemma HeartbeatsKeepOnline(es: seq<Event>, user: UserId, start: int, delays: seq<int>, now: int)
    requires InOrder(es) && NeverDropped(es, user) && AreBeats(es, user, start, delays)
    ensures OnlineAt(es, user, now) <==> Beat(start, delays, 0) <= now < Beat(start, delays, |delays| - 1) + TTL
  {
    var first, last := Beat(start, delays, 0), Beat(start, delays, |delays| - 1);
    assert BeatAt(start, delays, 0, first) && BeatAt(start, delays, |delays| - 1, last);
    hide OnlineAt, RefreshedAt, InOrder, NeverDropped, Beat;
    assert RefreshedAt(es, user, first) && RefreshedAt(es, user, last);
    forall r | RefreshedAt(es, user, r)
      ensures first <= r <= last
      ensures r < last ==> exists s :: RefreshedAt(es, user, s) && r < s <= r + TTL
    {
      BeatsFollow(es, user, start, delays, r);
    }
    hide AreBeats;
    OnlineThroughoutIffNoGap(es, user, first, last);
  }
}
