/**
 The rate limiter: one Redis counter a user, shared by all instances. The first hit of a fixed window
 sets the expiry, later hits find it set and leave it.
 */
module Limiter {
  import opened ChatTypes

  /** A counter key. Between INCR and EXPIRE NX a new key has no expiry. Times are milliseconds. */
  datatype Counter = Counter(count: nat, expiry: Option<int>)

  type Keys = map<UserId, Counter>

  /** A key is gone from the instant its expiry names. */
  predicate Live(keys: Keys, user: UserId, now: int) {
    user in keys && (keys[user].expiry.Some? ==> now < keys[user].expiry.value)
  }

  function CountAt(keys: Keys, user: UserId, now: int): nat {
    if Live(keys, user, now) then keys[user].count else 0
  }

  /** One transaction: INCR, then EXPIRE NX. */
  function Hit(keys: Keys, user: UserId, now: int, window: int): Keys {
    var expiry := if Live(keys, user, now) && keys[user].expiry.Some? then keys[user].expiry.value else now + window;
    keys[user := Counter(CountAt(keys, user, now) + 1, Some(expiry))]
  }

  class Redis {
    var counters: Keys

    constructor ()
      ensures counters == map[]
    {
      counters := map[];
    }

    method Incr(user: UserId, now: int) returns (n: nat)
      modifies this
      ensures n == CountAt(old(counters), user, now) + 1
      ensures counters == old(counters)[user :=
                Counter(n, if Live(old(counters), user, now) then old(counters)[user].expiry else None)]
    {
      if user in counters && (counters[user].expiry == None || now < counters[user].expiry.value) {
        n := counters[user].count + 1;
        counters := counters[user := Counter(n, counters[user].expiry)];
      } else {
        n := 1;
        counters := counters[user := Counter(n, None)];
      }
    }

    method ExpireNX(user: UserId, now: int, window: int)
      modifies this
      ensures counters == if user in old(counters) && old(counters)[user].expiry == None
                          then old(counters)[user := Counter(old(counters)[user].count, Some(now + window))]
                          else old(counters)
    {
      if user in counters && counters[user].expiry == None {
        counters := counters[user := Counter(counters[user].count, Some(now + window))];
      }
    }
  }

  /** How a call of the limiter fares with Redis. A failed transaction may or may not have been applied. */
  datatype Outcome = Answered | Failed(applied: bool)

  class Gate {
    const rdb: Redis
    const max: int
    const window: int

    constructor (rdb: Redis, max: int, windowSeconds: int)
      ensures this.rdb == rdb && this.max == max && window == windowSeconds * 1000
    {
      this.rdb, this.max, this.window := rdb, max, windowSeconds * 1000;
    }

    /** Fails open: a request is let through whenever Redis does not answer. */
    method Allow(user: UserId, now: int, outcome: Outcome) returns (ok: bool)
      modifies rdb
      ensures rdb.counters == After(old(rdb.counters), user, now, window, outcome)
      ensures ok == Allowed(old(rdb.counters), user, now, max, outcome)
      ensures outcome.Failed? ==> ok
      ensures outcome.Answered? ==> (ok <==> CountAt(old(rdb.counters), user, now) < max)
      ensures outcome == Failed(false) ==> rdb.counters == old(rdb.counters)
      ensures outcome != Failed(false) && 0 < window ==>
                && CountAt(rdb.counters, user, now) == CountAt(old(rdb.counters), user, now) + 1
                && forall u | u != user :: (u in rdb.counters <==> u in old(rdb.counters))
                                           && (u in rdb.counters ==> rdb.counters[u] == old(rdb.counters)[u])
    {
      if outcome == Failed(false) {
        return true;
      }
      var n := rdb.Incr(user, now);
      rdb.ExpireNX(user, now, window);
      return outcome.Failed? || n <= max;
    }
  }

  function After(keys: Keys, user: UserId, now: int, window: int, outcome: Outcome): Keys {
    if outcome == Failed(false) then keys else Hit(keys, user, now, window)
  }

  predicate Allowed(keys: Keys, user: UserId, now: int, max: int, outcome: Outcome) {
    outcome.Failed? || CountAt(keys, user, now) + 1 <= max
  }

  // ---- traces

  /** A direct or group message of a user reaching the gate of some instance. */
  datatype Request = Request(user: UserId, inst: nat, group: bool, at: int, outcome: Outcome)

  /** Redis serves the requests of all instances one after another. */
  predicate InOrder(rs: seq<Request>) {
    forall j, k | 0 <= j < k < |rs| :: rs[j].at <= rs[k].at
  }

  function KeysAfter(rs: seq<Request>, window: int): Keys {
    if rs == [] then map[]
    else
      var r := rs[|rs| - 1];
      After(KeysAfter(rs[..|rs| - 1], window), r.user, r.at, window, r.outcome)
  }

  /** Whether the last request of a trace is answered and let through. */
  predicate LastGranted(rs: seq<Request>, window: int, max: int)
    requires rs != []
  {
    var r := rs[|rs| - 1];
    r.outcome == Answered && CountAt(KeysAfter(rs[..|rs| - 1], window), r.user, r.at) + 1 <= max
  }

  /** How many answered requests of the user in the half-open interval were let through. */
  function Granted(rs: seq<Request>, user: UserId, lo: int, hi: int, window: int, max: int): nat {
    if rs == [] then 0
    else
      var r := rs[|rs| - 1];
      Granted(rs[..|rs| - 1], user, lo, hi, window, max)
      + if r.user == user && lo <= r.at < hi && LastGranted(rs, window, max) then 1 else 0
  }

  /** What the key of a user tells of the grants of an interval that is one window long. */
  predicate GrantsBounded(granted: nat, keys: Keys, user: UserId, lo: int, window: int, max: int) {
    if user !in keys then granted == 0
    else if keys[user].expiry == None then false
    else
      var created := keys[user].expiry.value - window;
      var n := Min(keys[user].count, max);
      if created < lo then granted <= n - 1
      else if created < lo + window then granted <= (max - 1) + n
      else granted <= 2 * max - 1
  }

  lemma HitBounds(granted: nat, keys: Keys, r: Request, last: int, lo: int, window: int, max: int)
    requires 0 < window && 1 <= max && r.outcome != Failed(false) && last <= r.at
    requires GrantsBounded(granted, keys, r.user, lo, window, max)
    requires r.user in keys ==>
              1 <= keys[r.user].count && keys[r.user].expiry.Some? && keys[r.user].expiry.value <= last + window
    requires granted > 0 ==> lo <= last
    ensures var now := lo <= r.at < lo + window && r.outcome == Answered && CountAt(keys, r.user, r.at) + 1 <= max;
            GrantsBounded(granted + (if now then 1 else 0), Hit(keys, r.user, r.at, window), r.user, lo, window, max)
  {}

  /** The keys of a trace, and the grants of one user in one interval so far. */
  lemma {:induction false} TraceBounds(rs: seq<Request>, user: UserId, lo: int, window: int, max: int)
    requires 0 < window && 1 <= max && InOrder(rs)
    ensures GrantsBounded(Granted(rs, user, lo, lo + window, window, max), KeysAfter(rs, window), user, lo, window, max)
    ensures user in KeysAfter(rs, window) ==>
              && rs != []
              && 1 <= KeysAfter(rs, window)[user].count && KeysAfter(rs, window)[user].expiry.Some?
              && KeysAfter(rs, window)[user].expiry.value <= rs[|rs| - 1].at + window
    ensures Granted(rs, user, lo, lo + window, window, max) > 0 ==> rs != [] && lo <= rs[|rs| - 1].at
  {
    if rs != [] {
      var front, r := rs[..|rs| - 1], rs[|rs| - 1];
      TraceBounds(front, user, lo, window, max);
      if r.user == user && r.outcome != Failed(false) {
        HitBounds(Granted(front, user, lo, lo + window, window, max), KeysAfter(front, window), r,
                  if front == [] then r.at else front[|front| - 1].at, lo, window, max);
      }
    }
  }

  /**
   The rate bound: in any interval one window long, over all instances and both kinds of message, at most
   2*max - 1 answered requests of a user are let through, and none when max is not positive.
   */
  lemma RateIsBounded(rs: seq<Request>, user: UserId, lo: int, window: int, max: int)
    requires 0 < window && InOrder(rs)
    ensures 1 <= max ==> Granted(rs, user, lo, lo + window, window, max) <= 2 * max - 1
    ensures max <= 0 ==> Granted(rs, user, lo, lo + window, window, max) == 0
  {
    if 1 <= max {
      TraceBounds(rs, user, lo, window, max);
    } else {
      NothingGranted(rs, user, lo, lo + window, window, max);
    }
  }

  /** How many requests of the user in the interval the gate let through, answered or not. */
  function LetThrough(rs: seq<Request>, user: UserId, lo: int, hi: int, window: int, max: int): nat {
    if rs == [] then 0
    else
      var front, r := rs[..|rs| - 1], rs[|rs| - 1];
      LetThrough(front, user, lo, hi, window, max)
      + if r.user == user && lo <= r.at < hi && Allowed(KeysAfter(front, window), user, r.at, max, r.outcome)
        then 1 else 0
  }

  /** How many of them Redis did not answer. */
  function Unanswered(rs: seq<Request>, user: UserId, lo: int, hi: int): nat {
    if rs == [] then 0
    else
      var r := rs[|rs| - 1];
      Unanswered(rs[..|rs| - 1], user, lo, hi)
      + if r.user == user && lo <= r.at < hi && r.outcome != Answered then 1 else 0
  }

  /**
   Failing open, over any trace: besides the answered requests it grants, the gate lets exactly the unanswered
   ones through, each of them. So failures alone can exceed the rate bound.
   */
  lemma {:induction false} FailuresPass(rs: seq<Request>, user: UserId, lo: int, window: int, max: int)
    requires 0 < window && InOrder(rs) && 1 <= max
    ensures LetThrough(rs, user, lo, lo + window, window, max)
         == Granted(rs, user, lo, lo + window, window, max) + Unanswered(rs, user, lo, lo + window)
    ensures LetThrough(rs, user, lo, lo + window, window, max) <= 2 * max - 1 + Unanswered(rs, user, lo, lo + window)
  {
    RateIsBounded(rs, user, lo, window, max);
    if rs != [] { FailuresPass(rs[..|rs| - 1], user, lo, window, max); }
  }

  lemma {:induction false} NothingGranted(rs: seq<Request>, user: UserId, lo: int, hi: int, window: int, max: int)
    requires max <= 0
    ensures Granted(rs, user, lo, hi, window, max) == 0
  {
    if rs != [] {
      NothingGranted(rs[..|rs| - 1], user, lo, hi, window, max);
    }
  }

  // ---- one lifetime of a key

  function HitsBy(rs: seq<Request>, user: UserId): nat {
    if rs == [] then 0
    else
      var last := rs[|rs| - 1];
      HitsBy(rs[..|rs| - 1], user) + if last.user == user && last.outcome != Failed(false) then 1 else 0
  }

  predicate AllWithin(rs: seq<Request>, lo: int, hi: int) {
    forall k | 0 <= k < |rs| :: lo <= rs[k].at < hi
  }

  predicate AllAnswered(rs: seq<Request>, user: UserId) {
    forall k | 0 <= k < |rs| && rs[k].user == user :: rs[k].outcome == Answered
  }

  /** While a key lives its hits are counted and its expiry never moves, whoever else sends and whatever fails. */
  lemma {:induction false} ExpiryIsFixed(front: seq<Request>, tail: seq<Request>, user: UserId, window: int)
    requires user in KeysAfter(front, window) && KeysAfter(front, window)[user].expiry.Some?
    requires forall k | 0 <= k < |tail| :: tail[k].at < KeysAfter(front, window)[user].expiry.value
    ensures var key := KeysAfter(front, window)[user];
            user in KeysAfter(front + tail, window)
            && KeysAfter(front + tail, window)[user] == Counter(key.count + HitsBy(tail, user), key.expiry)
  {
    if tail == [] {
      assert front + tail == front;
    } else {
      var less := tail[..|tail| - 1];
      ExpiryIsFixed(front, less, user, window);
      assert (front + tail)[..|front + tail| - 1] == front + less;
    }
  }

  /** A living key with count c lets min(c + n, max) - min(c, max) of the next n requests through. */
  lemma {:induction false} LivingKeyGrants(front: seq<Request>, tail: seq<Request>, user: UserId, lo: int, hi: int,
                                           window: int, max: nat)
    requires user in KeysAfter(front, window) && KeysAfter(front, window)[user].expiry.Some?
    requires AllWithin(tail, lo, Min(hi, KeysAfter(front, window)[user].expiry.value)) && AllAnswered(tail, user)
    ensures var c := KeysAfter(front, window)[user].count;
            Granted(front + tail, user, lo, hi, window, max)
            == Granted(front, user, lo, hi, window, max) + Min(c + HitsBy(tail, user), max) - Min(c, max)
  {
    if tail == [] {
      assert front + tail == front;
    } else {
      var less := tail[..|tail| - 1];
      LivingKeyGrants(front, less, user, lo, hi, window, max);
      assert (front + tail)[..|front + tail| - 1] == front + less;
      ExpiryIsFixed(front, less, user, window);
    }
  }

  /** The request that creates a key. */
  lemma FirstHit(front: seq<Request>, r: Request, lo: int, hi: int, window: int, max: nat)
    requires r.outcome == Answered && CountAt(KeysAfter(front, window), r.user, r.at) == 0 && lo <= r.at < hi
    requires 0 < window && InOrder(front + [r])
    ensures r.user in KeysAfter(front + [r], window)
    ensures KeysAfter(front + [r], window)[r.user] == Counter(1, Some(r.at + window))
    ensures Granted(front + [r], r.user, lo, hi, window, max)
         == Granted(front, r.user, lo, hi, window, max) + Min(1, max)
  {
    assert (front + [r])[..|front|] == front;
    KeysCount(front, r.user, window);
  }

  lemma {:induction false} KeysCount(rs: seq<Request>, user: UserId, window: int)
    ensures user in KeysAfter(rs, window) ==>
              1 <= KeysAfter(rs, window)[user].count && KeysAfter(rs, window)[user].expiry.Some?
  {
    if rs != [] {
      KeysCount(rs[..|rs| - 1], user, window);
    }
  }

  /**
   Each lifetime of a key lets exactly min(n, max) of its n requests through, whatever other users do
   meanwhile: `r` finds no living key, and `tail` is everything before that key expires.
   */
  lemma LifetimeGrantsExactly(front: seq<Request>, r: Request, tail: seq<Request>, lo: int, hi: int, window: int,
                              max: nat)
    requires r.outcome == Answered && CountAt(KeysAfter(front, window), r.user, r.at) == 0
    requires 0 < window && InOrder(front + [r]) && lo <= r.at < hi
    requires AllWithin(tail, lo, Min(hi, r.at + window)) && AllAnswered(tail, r.user)
    ensures Granted(front + [r] + tail, r.user, lo, hi, window, max)
         == Granted(front, r.user, lo, hi, window, max) + Min(1 + HitsBy(tail, r.user), max)
  {
    FirstHit(front, r, lo, hi, window, max);
    hide KeysAfter, Granted, HitsBy, InOrder, AllWithin, AllAnswered;
    LivingKeyGrants(front + [r], tail, r.user, lo, hi, window, max);
  }

  // ---- the bound is tight

  function Burst(user: UserId, at: int, n: nat): (rs: seq<Request>)
    ensures |rs| == n && forall k | 0 <= k < n :: rs[k] == Request(user, 0, false, at, Answered)
  {
    if n == 0 then [] else Burst(user, at, n - 1) + [Request(user, 0, false, at, Answered)]
  }

  lemma {:induction false} BurstHits(user: UserId, at: int, n: nat)
    ensures HitsBy(Burst(user, at, n), user) == n
    ensures AllWithin(Burst(user, at, n), at, at + 1) && AllAnswered(Burst(user, at, n), user)
  {
    if n != 0 {
      BurstHits(user, at, n - 1);
      var less := Burst(user, at, n - 1);
      assert (less + [Request(user, 0, false, at, Answered)])[..n - 1] == less;
    }
  }

  /** One request, max - 1 more just before its key expires, and max at the instant it does. */
  function Worst(user: UserId, window: int, max: nat): seq<Request>
    requires 1 <= max
  {
    [Request(user, 0, false, 0, Answered)] + Burst(user, window - 1, max - 1)
    + [Request(user, 0, false, window, Answered)] + Burst(user, window, max - 1)
  }

  lemma WorstIsInOrder(user: UserId, window: int, max: nat)
    requires 2 <= window && 1 <= max
    ensures InOrder(Worst(user, window, max))
  {
    var rs := Worst(user, window, max);
    assert forall k | 0 <= k < |rs| :: rs[k].at == if k == 0 then 0 else if k < max then window - 1 else window;
  }

  lemma OneRequest(r: Request, lo: int, hi: int, window: int, max: int)
    requires r.outcome == Answered && r.at < lo
    ensures KeysAfter([r], window) == map[r.user := Counter(1, Some(r.at + window))]
    ensures Granted([r], r.user, lo, hi, window, max) == 0
  {
    assert [r][..0] == [];
  }

  /** The first lifetime: its creation lies before the interval, its other requests inside. */
  lemma FirstLifetime(mid: seq<Request>, user: UserId, window: int, max: nat)
    requires 2 <= window && 1 <= max && HitsBy(mid, user) == max - 1
    requires AllWithin(mid, window - 1, window) && AllAnswered(mid, user)
    ensures var front := [Request(user, 0, false, 0, Answered)] + mid;
            && user in KeysAfter(front, window) && KeysAfter(front, window)[user] == Counter(max, Some(window))
            && Granted(front, user, window - 1, 2 * window - 1, window, max) == max - 1
  {
    var first := Request(user, 0, false, 0, Answered);
    OneRequest(first, window - 1, 2 * window - 1, window, max);
    hide KeysAfter, Granted, HitsBy;
    LivingKeyGrants([first], mid, user, window - 1, 2 * window - 1, window, max);
    ExpiryIsFixed([first], mid, user, window);
  }

  /** The second lifetime begins the instant the first has ended. */
  lemma SecondLifetime(front: seq<Request>, late: seq<Request>, user: UserId, window: int, max: nat)
    requires 2 <= window && 1 <= max && InOrder(front + [Request(user, 0, false, window, Answered)])
    requires user in KeysAfter(front, window) && KeysAfter(front, window)[user] == Counter(max, Some(window))
    requires AllWithin(late, window, window + 1) && AllAnswered(late, user) && HitsBy(late, user) == max - 1
    ensures Granted(front + [Request(user, 0, false, window, Answered)] + late, user, window - 1, 2 * window - 1,
                    window, max)
         == Granted(front, user, window - 1, 2 * window - 1, window, max) + max
  {
    hide KeysAfter, Granted, HitsBy;
    LifetimeGrantsExactly(front, Request(user, 0, false, window, Answered), late, window - 1, 2 * window - 1, window,
                          max);
  }

  lemma TwoLifetimes(mid: seq<Request>, late: seq<Request>, user: UserId, window: int, max: nat)
    requires 2 <= window && 1 <= max
    requires AllWithin(mid, window - 1, window) && AllAnswered(mid, user) && HitsBy(mid, user) == max - 1
    requires AllWithin(late, window, window + 1) && AllAnswered(late, user) && HitsBy(late, user) == max - 1
    ensures Granted([Request(user, 0, false, 0, Answered)] + mid + [Request(user, 0, false, window, Answered)] + late,
                    user, window - 1, 2 * window - 1, window, max) == 2 * max - 1
  {
    hide KeysAfter, Granted, HitsBy;
    FirstLifetime(mid, user, window, max);
    SecondLifetime([Request(user, 0, false, 0, Answered)] + mid, late, user, window, max);
  }

  /** For every limit and window some trace reaches the bound. */
  lemma RateBoundIsTight(user: UserId, window: int, max: nat)
    requires 2 <= window && 1 <= max
    ensures InOrder(Worst(user, window, max))
    ensures Granted(Worst(user, window, max), user, window - 1, 2 * window - 1, window, max) == 2 * max - 1
  {
    WorstIsInOrder(user, window, max);
    BurstHits(user, window - 1, max - 1);
    BurstHits(user, window, max - 1);
    hide KeysAfter, Granted, Burst, HitsBy, InOrder, AllWithin, AllAnswered;
    TwoLifetimes(Burst(user, window - 1, max - 1), Burst(user, window, max - 1), user, window, max);
  }

  // ---- a blocked user is let in again

  /**
   Rejected requests count, but never move the expiry: whatever was sent while the key lived, the first
   answered request at or after the expiry is let through exactly when the limit allows any request at all.
   */
  lemma NeverStarves(front: seq<Request>, tail: seq<Request>, user: UserId, now: int, window: int, max: int)
    requires user in KeysAfter(front, window) && KeysAfter(front, window)[user].expiry.Some?
    requires forall k | 0 <= k < |tail| :: tail[k].at < KeysAfter(front, window)[user].expiry.value
    requires KeysAfter(front, window)[user].expiry.value <= now
    ensures Allowed(KeysAfter(front + tail, window), user, now, max, Answered) <==> 1 <= max
  {
    ExpiryIsFixed(front, tail, user, window);
  }

  /** A key never outlives its creation by more than one window. */
  lemma ExpiryIsNear(rs: seq<Request>, user: UserId, window: int)
    requires 0 < window && InOrder(rs) && user in KeysAfter(rs, window)
    ensures rs != [] && KeysAfter(rs, window)[user].expiry.Some?
    ensures KeysAfter(rs, window)[user].expiry.value <= rs[|rs| - 1].at + window
  {
    TraceBounds(rs, user, 0, window, 1);
  }

  /** A variant of the gate whose every hit sets the expiry anew, fed with the requests of one user. */
  function RefreshedAfter(times: seq<int>, user: UserId, window: int): Keys {
    if times == [] then map[]
    else
      var now, keys := times[|times| - 1], RefreshedAfter(times[..|times| - 1], user, window);
      keys[user := Counter(CountAt(keys, user, now) + 1, Some(now + window))]
  }

  /** It would starve a user whose requests are less than a window apart: none after the first max is let through. */
  lemma {:induction false} RefreshingStarves(times: seq<int>, user: UserId, window: int, now: int, max: int)
    requires forall k | 1 <= k < |times| :: times[k] < times[k - 1] + window
    requires times != [] ==> now < times[|times| - 1] + window
    ensures CountAt(RefreshedAfter(times, user, window), user, now) == |times|
    ensures Allowed(RefreshedAfter(times, user, window), user, now, max, Answered) <==> |times| < max
  {
    if times != [] {
      RefreshingStarves(times[..|times| - 1], user, window, times[|times| - 1], max);
    }
  }
}
