/** Loading a conversation's history: filter, concatenate, sort by time. */
module HistoryMerge {
  import opened ChatTypes
  import opened Store

  predicate Sorted(s: seq<Entry>) {
    forall j, k | 0 <= j < k < |s| :: s[j].timestamp <= s[k].timestamp
  }

  /** The entries of one instant, in their order. */
  function AtTime(s: seq<Entry>, t: int): seq<Entry> {
    if s == [] then []
    else
      var last := s[|s| - 1];
      AtTime(s[..|s| - 1], t) + if last.timestamp == t then [last] else []
  }

  function Insert(s: seq<Entry>, e: Entry): seq<Entry> {
    if s == [] || s[|s| - 1].timestamp <= e.timestamp then s + [e]
    else Insert(s[..|s| - 1], e) + [s[|s| - 1]]
  }

  function StableSort(s: seq<Entry>): seq<Entry> {
    if s == [] then [] else Insert(StableSort(s[..|s| - 1]), s[|s| - 1])
  }

  function Ids(s: seq<Entry>): set<EntryId> {
    set k | 0 <= k < |s| :: s[k].id
  }

  /** Entries whose id is not among the given ones. */
  function Without(s: seq<Entry>, ids: set<EntryId>): seq<Entry> {
    if s == [] then []
    else
      var last := s[|s| - 1];
      Without(s[..|s| - 1], ids) + if last.id in ids then [] else [last]
  }

  function Merge(local: seq<Entry>, history: seq<Entry>): seq<Entry> {
    StableSort(history + Without(local, Ids(history)))
  }

  function SetDMHistory(s: Conversations, partner: UserId, history: seq<Entry>): Conversations {
    Put(s, partner, Merge(Get(s, partner), history))
  }

  // ---- the sort

  lemma {:induction false} AtTimeConcat(a: seq<Entry>, b: seq<Entry>, t: int)
    ensures AtTime(a + b, t) == AtTime(a, t) + AtTime(b, t)
  {
    if b == [] {
      assert a + b == a;
    } else {
      AtTimeConcat(a, b[..|b| - 1], t);
      assert (a + b)[..|a + b| - 1] == a + b[..|b| - 1];
    }
  }

  predicate AllUpTo(s: seq<Entry>, t: int) {
    forall k | 0 <= k < |s| :: s[k].timestamp <= t
  }

  lemma {:induction false} InsertSorts(s: seq<Entry>, e: Entry, bound: int)
    requires Sorted(s) && AllUpTo(s, bound) && e.timestamp <= bound
    ensures Sorted(Insert(s, e)) && AllUpTo(Insert(s, e), bound)
  {
    if s != [] && e.timestamp < s[|s| - 1].timestamp {
      InsertSorts(s[..|s| - 1], e, s[|s| - 1].timestamp);
    }
  }

  lemma {:induction false} InsertPermutes(s: seq<Entry>, e: Entry)
    ensures multiset(Insert(s, e)) == multiset(s) + multiset{e}
  {
    if s != [] && e.timestamp < s[|s| - 1].timestamp {
      InsertPermutes(s[..|s| - 1], e);
      assert s == s[..|s| - 1] + [s[|s| - 1]];
    }
  }

  lemma AtTimeSnoc(s: seq<Entry>, e: Entry, t: int)
    ensures AtTime(s + [e], t) == AtTime(s, t) + if e.timestamp == t then [e] else []
  {
    assert (s + [e])[..|s|] == s;
  }

  lemma {:induction false} InsertIsStable(s: seq<Entry>, e: Entry, t: int)
    ensures AtTime(Insert(s, e), t) == AtTime(s, t) + if e.timestamp == t then [e] else []
  {
    if s == [] || s[|s| - 1].timestamp <= e.timestamp {
      AtTimeSnoc(s, e, t);
    } else {
      var front, last := s[..|s| - 1], s[|s| - 1];
      InsertIsStable(front, e, t);
      AtTimeSnoc(Insert(front, e), last, t);
    }
  }

  function Latest(s: seq<Entry>, e: Entry): int {
    if s == [] || s[|s| - 1].timestamp <= e.timestamp then e.timestamp else s[|s| - 1].timestamp
  }

  lemma {:induction false} SortOrders(s: seq<Entry>)
    ensures Sorted(StableSort(s))
  {
    if s != [] {
      var sorted, last := StableSort(s[..|s| - 1]), s[|s| - 1];
      SortOrders(s[..|s| - 1]);
      InsertSorts(sorted, last, Latest(sorted, last));
    }
  }

  lemma {:induction false} SortPermutes(s: seq<Entry>)
    ensures multiset(StableSort(s)) == multiset(s)
  {
    if s != [] {
      SortPermutes(s[..|s| - 1]);
      InsertPermutes(StableSort(s[..|s| - 1]), s[|s| - 1]);
      assert s == s[..|s| - 1] + [s[|s| - 1]];
    }
  }

  lemma {:induction false} SortIsStable(s: seq<Entry>, t: int)
    ensures AtTime(StableSort(s), t) == AtTime(s, t)
  {
    if s != [] {
      SortIsStable(s[..|s| - 1], t);
      InsertIsStable(StableSort(s[..|s| - 1]), s[|s| - 1], t);
    }
  }

  /** The sort returns the same entries in order of time, ties as they stood. */
  lemma StableSortSorts(s: seq<Entry>, t: int)
    ensures Sorted(StableSort(s)) && multiset(StableSort(s)) == multiset(s)
    ensures AtTime(StableSort(s), t) == AtTime(s, t)
  {
    SortOrders(s);
    SortPermutes(s);
    SortIsStable(s, t);
  }

  lemma {:induction false} AtTimeIn(s: seq<Entry>, t: int)
    ensures AtTime(s, t) != [] ==> exists k :: 0 <= k < |s| && s[k].timestamp == t
    ensures AtTime(s, t) == [] ==> forall k | 0 <= k < |s| :: s[k].timestamp != t
  {
    if s != [] {
      AtTimeIn(s[..|s| - 1], t);
      assert forall k | 0 <= k < |s| - 1 :: s[..|s| - 1][k] == s[k];
    }
  }

  lemma AtTimeEnds(s: seq<Entry>)
    requires s != []
    ensures var e := s[|s| - 1];
            AtTime(s, e.timestamp) == AtTime(s[..|s| - 1], e.timestamp) + [e]
  {}

  lemma LastsAgree(a: seq<Entry>, b: seq<Entry>)
    requires Sorted(a) && Sorted(b) && a != [] && forall t :: AtTime(a, t) == AtTime(b, t)
    ensures b != [] && b[|b| - 1] == a[|a| - 1]
  {
    hide AtTime;
    var ea := a[|a| - 1];
    AtTimeEnds(a);
    AtTimeIn(b, ea.timestamp);
    assert AtTime(a, ea.timestamp) == AtTime(b, ea.timestamp);
    var eb := b[|b| - 1];
    AtTimeEnds(b);
    AtTimeIn(a, eb.timestamp);
    assert AtTime(a, eb.timestamp) == AtTime(b, eb.timestamp);
    assert ea.timestamp == eb.timestamp;
    LastTwoAgree(AtTime(a[..|a| - 1], ea.timestamp), ea, AtTime(b[..|b| - 1], ea.timestamp), eb);
  }

  lemma LastTwoAgree(x: seq<Entry>, e: Entry, y: seq<Entry>, d: Entry)
    requires x + [e] == y + [d]
    ensures x == y && e == d
  {
    assert (x + [e])[|x|] == e;
    assert (y + [d])[|y|] == d;
    assert x == (x + [e])[..|x|] && y == (y + [d])[..|y|];
  }

  /** A sequence in order of time is determined by its entries of each instant: the stable sort is unique. */
  lemma {:induction false} SortIsUnique(a: seq<Entry>, b: seq<Entry>)
    requires Sorted(a) && Sorted(b) && forall t :: AtTime(a, t) == AtTime(b, t)
    ensures a == b
    decreases |a|
  {
    if a == [] {
      var t := if b == [] then 0 else b[0].timestamp;
      AtTimeIn(b, t);
      assert AtTime(a, t) == AtTime(b, t);
    } else {
      LastsAgree(a, b);
      var fa, fb, last := a[..|a| - 1], b[..|b| - 1], a[|a| - 1];
      assert a == fa + [last] && b == fb + [last];
      forall t ensures AtTime(fa, t) == AtTime(fb, t) {
        assert AtTime(a, t) == AtTime(b, t);
        AtTimeSnoc(fa, last, t);
        AtTimeSnoc(fb, last, t);
        if last.timestamp == t {
          LastTwoAgree(AtTime(fa, t), last, AtTime(fb, t), last);
        } else {
          assert AtTime(fa, t) + [] == AtTime(fa, t) && AtTime(fb, t) + [] == AtTime(fb, t);
        }
      }
      SortIsUnique(fa, fb);
    }
  }

  // ---- the filter

  lemma {:induction false} WithoutConcat(a: seq<Entry>, b: seq<Entry>, ids: set<EntryId>)
    ensures Without(a + b, ids) == Without(a, ids) + Without(b, ids)
  {
    if b == [] {
      assert a + b == a;
    } else {
      WithoutConcat(a, b[..|b| - 1], ids);
      assert (a + b)[..|a + b| - 1] == a + b[..|b| - 1];
    }
  }

  lemma {:induction false} WithoutAtTime(s: seq<Entry>, ids: set<EntryId>, t: int)
    ensures AtTime(Without(s, ids), t) == Without(AtTime(s, t), ids)
  {
    if s != [] {
      var front, last := s[..|s| - 1], s[|s| - 1];
      WithoutAtTime(front, ids, t);
      var kept := if last.id in ids then [] else [last];
      AtTimeConcat(Without(front, ids), kept, t);
      var same := if last.timestamp == t then [last] else [];
      WithoutConcat(AtTime(front, t), same, ids);
      assert [last][..0] == [];
    }
  }

  lemma {:induction false} WithoutNone(s: seq<Entry>, ids: set<EntryId>)
    requires forall k | 0 <= k < |s| :: s[k].id !in ids
    ensures Without(s, ids) == s
  {
    if s != [] {
      WithoutNone(s[..|s| - 1], ids);
    }
  }

  lemma {:induction false} WithoutAll(s: seq<Entry>, ids: set<EntryId>)
    requires forall k | 0 <= k < |s| :: s[k].id in ids
    ensures Without(s, ids) == []
  {
    if s != [] {
      WithoutAll(s[..|s| - 1], ids);
    }
  }

  lemma {:induction false} WithoutKeeps(s: seq<Entry>, ids: set<EntryId>, e: Entry)
    ensures e in Without(s, ids) <==> e in s && e.id !in ids
  {
    if s != [] {
      WithoutKeeps(s[..|s| - 1], ids, e);
      assert s == s[..|s| - 1] + [s[|s| - 1]];
    }
  }

  lemma {:induction false} AtTimeKeeps(s: seq<Entry>, t: int, e: Entry)
    ensures e in AtTime(s, t) <==> e in s && e.timestamp == t
  {
    if s != [] {
      AtTimeKeeps(s[..|s| - 1], t, e);
      assert s == s[..|s| - 1] + [s[|s| - 1]];
    }
  }

  // ---- the merge

  /** Which entries of an id are counted: all, those not read, or those received. */
  datatype Kind = Any | NotRead | Received

  datatype Query = Query(id: EntryId, kind: Kind)

  predicate Hits(e: Entry, q: Query) {
    e.id == q.id && (q.kind == NotRead ==> e.status != Read) && (q.kind == Received ==> !e.mine)
  }

  function Count(s: seq<Entry>, q: Query): nat {
    if s == [] then 0 else Count(s[..|s| - 1], q) + if Hits(s[|s| - 1], q) then 1 else 0
  }

  function CountId(s: seq<Entry>, id: EntryId): nat {
    Count(s, Query(id, Any))
  }

  /**
   The merge is a permutation of the history and of exactly the local entries whose id is not in it, in order
   of time. At each instant the history's entries come first, both parts in their own order.
   */
  lemma MergeIsExact(local: seq<Entry>, history: seq<Entry>, t: int)
    ensures var merged, kept := Merge(local, history), Without(local, Ids(history));
            && Sorted(merged)
            && multiset(merged) == multiset(history) + multiset(kept)
            && AtTime(merged, t) == AtTime(history, t) + AtTime(kept, t)
            && (forall e :: e in merged <==> e in history || (e in local && e.id !in Ids(history)))
  {
    var merged, kept := Merge(local, history), Without(local, Ids(history));
    StableSortSorts(history + kept, t);
    AtTimeConcat(history, kept, t);
    forall e ensures e in merged <==> e in history || (e in local && e.id !in Ids(history)) {
      WithoutKeeps(local, Ids(history), e);
      assert e in merged <==> e in multiset(merged);
      assert e in history + kept <==> e in multiset(history + kept);
    }
  }

  lemma {:induction false} CountConcat(a: seq<Entry>, b: seq<Entry>, q: Query)
    ensures Count(a + b, q) == Count(a, q) + Count(b, q)
  {
    if b == [] {
      assert a + b == a;
    } else {
      CountConcat(a, b[..|b| - 1], q);
      assert (a + b)[..|a + b| - 1] == a + b[..|b| - 1];
    }
  }

  lemma {:induction false} CountSorted(s: seq<Entry>, q: Query)
    ensures Count(StableSort(s), q) == Count(s, q)
  {
    if s != [] {
      CountSorted(s[..|s| - 1], q);
      CountInsert(StableSort(s[..|s| - 1]), s[|s| - 1], q);
    }
  }

  lemma {:induction false} CountInsert(s: seq<Entry>, e: Entry, q: Query)
    ensures Count(Insert(s, e), q) == Count(s, q) + if Hits(e, q) then 1 else 0
  {
    if s == [] || s[|s| - 1].timestamp <= e.timestamp {
      assert (s + [e])[..|s|] == s;
    } else {
      var front, last := s[..|s| - 1], s[|s| - 1];
      CountInsert(front, e, q);
      assert (Insert(front, e) + [last])[..|Insert(front, e)|] == Insert(front, e);
    }
  }

  lemma {:induction false} CountWithout(s: seq<Entry>, ids: set<EntryId>, q: Query)
    ensures Count(Without(s, ids), q) == if q.id in ids then 0 else Count(s, q)
  {
    if s != [] {
      var front, last := s[..|s| - 1], s[|s| - 1];
      CountWithout(front, ids, q);
      if last.id in ids {
        assert Without(s, ids) == Without(front, ids);
      } else {
        CountConcat(Without(front, ids), [last], q);
        assert Count([last], q) == (if Hits(last, q) then 1 else 0) by { assert [last][..0] == []; }
      }
    }
  }

  predicate IdsDistinct(s: seq<Entry>) {
    forall j, k | 0 <= j < k < |s| :: s[j].id != s[k].id
  }

  lemma {:induction false} CountIdDistinct(s: seq<Entry>, id: EntryId)
    requires IdsDistinct(s)
    ensures CountId(s, id) == if id in Ids(s) then 1 else 0
  {
    if s != [] {
      var front := s[..|s| - 1];
      CountIdDistinct(front, id);
      assert id in Ids(s) <==> id in Ids(front) || id == s[|s| - 1].id by {
        if k :| 0 <= k < |s| && s[k].id == id { assert k < |front| ==> front[k].id == id; }
        if k :| 0 <= k < |front| && front[k].id == id { assert s[k].id == id; }
        assert s[|s| - 1].id in Ids(s);
      }
    }
  }

  lemma {:induction false} CountNone(s: seq<Entry>, q: Query)
    requires q.id !in Ids(s)
    ensures Count(s, q) == 0
  {
    if s != [] {
      var front := s[..|s| - 1];
      forall k | 0 <= k < |front| ensures front[k].id in Ids(s) { assert s[k].id in Ids(s); }
      assert s[|s| - 1].id in Ids(s);
      CountNone(front, q);
    }
  }

  /** An id of the history is counted as the history has it, any other as before. */
  lemma MergeCounts(local: seq<Entry>, history: seq<Entry>, q: Query)
    ensures Count(Merge(local, history), q) == if q.id in Ids(history) then Count(history, q) else Count(local, q)
  {
    var kept := Without(local, Ids(history));
    CountSorted(history + kept, q);
    CountConcat(history, kept, q);
    CountWithout(local, Ids(history), q);
    if q.id !in Ids(history) { CountNone(history, q); }
  }

  /**
   However many copies were delivered before, each id of the history occurs exactly once afterwards, and every
   other id as often as before.
   */
  lemma MergeLeavesNoDuplicates(local: seq<Entry>, history: seq<Entry>, id: EntryId)
    requires IdsDistinct(history)
    ensures CountId(Merge(local, history), id) == if id in Ids(history) then 1 else CountId(local, id)
  {
    MergeCounts(local, history, Query(id, Any));
    CountIdDistinct(history, id);
  }

  lemma WithoutMerged(local: seq<Entry>, history: seq<Entry>, t: int)
    ensures AtTime(Without(Merge(local, history), Ids(history)), t) == AtTime(Without(local, Ids(history)), t)
  {
    var ids, merged, kept := Ids(history), Merge(local, history), Without(local, Ids(history));
    MergeIsExact(local, history, t);
    WithoutAtTime(merged, ids, t);
    WithoutConcat(AtTime(history, t), AtTime(kept, t), ids);
    forall k | 0 <= k < |AtTime(history, t)| ensures AtTime(history, t)[k].id in ids {
      AtTimeKeeps(history, t, AtTime(history, t)[k]);
    }
    WithoutAll(AtTime(history, t), ids);
    forall k | 0 <= k < |AtTime(kept, t)| ensures AtTime(kept, t)[k].id !in ids {
      AtTimeKeeps(kept, t, AtTime(kept, t)[k]);
      WithoutKeeps(local, ids, AtTime(kept, t)[k]);
    }
    WithoutNone(AtTime(kept, t), ids);
  }

  /** Loading the same history twice is the same as loading it once. */
  lemma MergeTwice(local: seq<Entry>, history: seq<Entry>)
    ensures Merge(Merge(local, history), history) == Merge(local, history)
  {
    var merged := Merge(local, history);
    var again := Merge(merged, history);
    hide Merge, AtTime, Without;
    MergeIsExact(local, history, 0);
    MergeIsExact(merged, history, 0);
    hide Sorted;
    forall t ensures AtTime(again, t) == AtTime(merged, t) {
      MergeIsExact(local, history, t);
      MergeIsExact(merged, history, t);
      WithoutMerged(local, history, t);
    }
    SortIsUnique(again, merged);
  }

  /** The same on the store: other conversations and the order of the keys stay. */
  lemma LoadingTwiceIsLoadingOnce(s: Conversations, partner: UserId, history: seq<Entry>)
    requires PartnersDistinct(s)
    ensures var once := SetDMHistory(s, partner, history);
            && SetDMHistory(once, partner, history) == once
            && Get(once, partner) == Merge(Get(s, partner), history)
            && (forall i | 0 <= i < |s| && s[i].partner != partner :: i < |once| && once[i] == s[i])
  {
    var local := Get(s, partner);
    var once := SetDMHistory(s, partner, history);
    MergeTwice(local, history);
    hide Merge;
    PutKeepsPartners(s, partner, Merge(local, history));
    PutSame(once, partner);
  }

  lemma PutSame(s: Conversations, partner: UserId)
    requires PartnersDistinct(s) && Place(s, partner) < |s|
    ensures Put(s, partner, Get(s, partner)) == s
  {}
}
