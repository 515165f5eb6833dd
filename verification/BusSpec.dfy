/** Redis publish/subscribe as a value: subscriptions, and the copies on their way to a forwarder loop. */
module BusSpec {
  import opened ChatTypes

  datatype Subscription = Subscription(inst: nat, user: UserId, live: bool)

  datatype Flight = Flight(sub: nat, packet: Packet)

  datatype BusRecord = Bus(subs: seq<Subscription>, wire: seq<Flight>)

  const EMPTY_BUS := Bus([], [])

  type BusState = b: BusRecord | forall k | 0 <= k < |b.wire| :: b.wire[k].sub < |b.subs| witness EMPTY_BUS

  function Subscribe(b: BusState, inst: nat, user: UserId): BusState {
    Bus(b.subs + [Subscription(inst, user, true)], b.wire)
  }

  /** A closed subscription gets no further copies. What it already holds may still be forwarded. */
  function Close(b: BusState, k: nat): BusState {
    if k < |b.subs| then b.(subs := b.subs[k := b.subs[k].(live := false)]) else b
  }

  /** One copy for each subscription to the user's channel that is live. */
  function Copies(subs: seq<Subscription>, user: UserId, p: Packet): (fs: seq<Flight>)
    ensures forall k | 0 <= k < |fs| :: fs[k].sub < |subs| && fs[k].packet == p && subs[fs[k].sub].user == user
  {
    if subs == [] then []
    else
      var k := |subs| - 1;
      Copies(subs[..k], user, p) + if subs[k].live && subs[k].user == user then [Flight(k, p)] else []
  }

  function Publish(b: BusState, user: UserId, p: Packet): BusState {
    b.(wire := b.wire + Copies(b.subs, user, p))
  }

  function LiveCount(subs: seq<Subscription>, user: UserId): nat {
    if subs == [] then 0
    else
      var k := |subs| - 1;
      LiveCount(subs[..k], user) + if subs[k].live && subs[k].user == user then 1 else 0
  }

  /** A forwarder loop takes its own copies in the order of publication. */
  predicate CanForward(b: BusState, k: nat) {
    k < |b.wire| && forall j | 0 <= j < k :: b.wire[j].sub != b.wire[k].sub
  }

  function Remove(b: BusState, k: nat): BusState
    requires k < |b.wire|
  {
    b.(wire := b.wire[..k] + b.wire[k + 1..])
  }

  lemma {:induction false} CopiesCount(subs: seq<Subscription>, user: UserId, p: Packet)
    ensures |Copies(subs, user, p)| == LiveCount(subs, user)
  {
    if subs != [] {
      CopiesCount(subs[..|subs| - 1], user, p);
    }
  }
}
