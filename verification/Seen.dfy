/** The bounded dedup set (node/src/seen.rs): a receive-clock window and a cap, both evicting the oldest. */
module Seen {
  import opened Prelude
  import opened Mote
  import Outbound

  const TOMBSTONE_HORIZON_MS: nat := 20 * 24 * 60 * 60 * 1000
  const DEDUP_WINDOW_MS: nat := Max(Outbound.RETRY_DEADLINE_MS, TOMBSTONE_HORIZON_MS)
  const MAX_SEEN: nat := 100_000

  datatype Meta = Meta(from: Ik, receivedAt: nat)

  datatype Set = Set(entries: map<ContentId, Meta>, order: seq<ContentId>, window: nat, cap: nat)

  /** Each entry stands in the order once, and nothing else does. */
  ghost predicate SetOk(s: Set) {
    && (forall i, j :: 0 <= i < j < |s.order| ==> s.order[i] != s.order[j])
    && (forall id :: id in s.order <==> id in s.entries)
  }

  function New(): Set { Set(map[], [], DEDUP_WINDOW_MS, MAX_SEEN) }

  predicate Expired(s: Set, receivedAt: nat, now: nat) {
    SaturatingSub(now, receivedAt) >= s.window
  }

  predicate Contains(s: Set, id: ContentId, now: nat) {
    id in s.entries && !Expired(s, s.entries[id].receivedAt, now)
  }

  /** Drop the oldest slot, and its entry if there is one. */
  function PopFront(s: Set): Set
    requires s.order != []
  {
    s.(order := s.order[1..], entries := s.entries - {s.order[0]})
  }

  /** Drop from the front until the head is in its window. */
  function Prune(s: Set, now: nat): Set
    decreases |s.order|
  {
    if s.order == [] then s
    else if s.order[0] in s.entries && !Expired(s, s.entries[s.order[0]].receivedAt, now) then s
    else Prune(PopFront(s), now)
  }

  /** A known id is refreshed in place; a new one goes to the back. */
  function Insert(s: Set, id: ContentId, from: Ik, now: nat): Set {
    s.(entries := s.entries[id := Meta(from, now)], order := if id in s.entries then s.order else s.order + [id])
  }

  function EnforceCap(s: Set): Set
    decreases |s.order|
  {
    if |s.entries| <= s.cap || s.order == [] then s else EnforceCap(PopFront(s))
  }

  function Record(s: Set, id: ContentId, from: Ik, now: nat): Set {
    EnforceCap(Insert(Prune(s, now), id, from, now))
  }

  /** What is persisted: ids in order, with their senders; a slot without an entry is skipped. */
  function PairsOf(entries: map<ContentId, Meta>, order: seq<ContentId>): seq<(ContentId, Ik)> {
    if order == [] then []
    else
      var id := order[|order| - 1];
      PairsOf(entries, order[..|order| - 1]) + (if id in entries then [(id, entries[id].from)] else [])
  }

  function Pairs(s: Set): seq<(ContentId, Ik)> { PairsOf(s.entries, s.order) }

  lemma {:induction false} PairsOfAll(entries: map<ContentId, Meta>, order: seq<ContentId>)
    requires forall i :: 0 <= i < |order| ==> order[i] in entries
    ensures |PairsOf(entries, order)| == |order|
    ensures forall i :: 0 <= i < |order| ==> PairsOf(entries, order)[i] == (order[i], entries[order[i]].from)
  {
    if order != [] {
      PairsOfAll(entries, order[..|order| - 1]);
    }
  }

  /** In a well-formed set no slot is skipped. */
  lemma PairsAt(s: Set)
    requires SetOk(s)
    ensures |Pairs(s)| == |s.order|
    ensures forall i :: 0 <= i < |s.order| ==>
              s.order[i] in s.entries && Pairs(s)[i] == (s.order[i], s.entries[s.order[i]].from)
  {
    assert forall i :: 0 <= i < |s.order| ==> s.order[i] in s.order;
    PairsOfAll(s.entries, s.order);
  }

  function RecordAll(s: Set, pairs: seq<(ContentId, Ik)>, now: nat): Set {
    if pairs == [] then s
    else
      var n := |pairs| - 1;
      Record(RecordAll(s, pairs[..n], now), pairs[n].0, pairs[n].1, now)
  }

  // --- every operation keeps the set well formed -------------------------------------------------------

  lemma PopFrontOk(s: Set)
    requires SetOk(s) && s.order != []
    ensures SetOk(PopFront(s))
    ensures |PopFront(s).entries| + 1 == |s.entries|
  {
    var p := PopFront(s);
    forall id
      ensures id in p.order <==> id in p.entries
    {
      if id in p.order {
        var i :| 0 <= i < |p.order| && p.order[i] == id;
        assert s.order[i + 1] == id;
      }
      if id in p.entries {
        var i :| 0 <= i < |s.order| && s.order[i] == id;
        assert p.order[i - 1] == id;
      }
    }
    assert p.entries.Keys == s.entries.Keys - {s.order[0]};
    assert |p.entries| == |p.entries.Keys| && |s.entries| == |s.entries.Keys|;
  }

  lemma {:induction false} PruneOk(s: Set, now: nat)
    requires SetOk(s)
    ensures SetOk(Prune(s, now))
    decreases |s.order|
  {
    hide SetOk;
    if Prune(s, now) != s {
      PopFrontOk(s);
      PruneOk(PopFront(s), now);
    }
  }

  lemma InsertOk(s: Set, id: ContentId, from: Ik, now: nat)
    requires SetOk(s)
    ensures SetOk(Insert(s, id, from, now))
  {
    var n := Insert(s, id, from, now);
    if id !in s.entries {
      assert id !in s.order;
      forall x
        ensures x in n.order <==> x in n.entries
      {
        if x == id {
          assert n.order[|s.order|] == id;
        } else if x in s.order {
          var i :| 0 <= i < |s.order| && s.order[i] == x;
          assert n.order[i] == x;
        }
      }
    }
  }

  lemma {:induction false} EnforceCapOk(s: Set)
    requires SetOk(s)
    ensures SetOk(EnforceCap(s)) && |EnforceCap(s).entries| <= s.cap
    ensures |s.entries| <= s.cap ==> EnforceCap(s) == s
    decreases |s.order|
  {
    hide SetOk;
    if |s.entries| > s.cap {
      if s.order == [] {
        NoOrderNoEntries(s);
      } else {
        PopFrontOk(s);
        EnforceCapOk(PopFront(s));
      }
    }
  }

  lemma NoOrderNoEntries(s: Set)
    requires SetOk(s) && s.order == []
    ensures s.entries == map[]
  {
    assert forall id :: id in s.entries ==> id in s.order;
  }

  /** Recording never exceeds the cap. */
  lemma RecordOk(s: Set, id: ContentId, from: Ik, now: nat)
    requires SetOk(s)
    ensures SetOk(Record(s, id, from, now)) && |Record(s, id, from, now).entries| <= s.cap
    ensures Record(s, id, from, now).window == s.window && Record(s, id, from, now).cap == s.cap
  {
    hide SetOk;
    PruneOk(s, now);
    PruneKeepsBounds(s, now);
    InsertOk(Prune(s, now), id, from, now);
    EnforceCapOk(Insert(Prune(s, now), id, from, now));
    KeepsBounds(s, id, from, now);
  }

  lemma {:induction false} PruneKeepsBounds(s: Set, now: nat)
    ensures Prune(s, now).window == s.window && Prune(s, now).cap == s.cap
    ensures forall id :: id in Prune(s, now).entries ==> id in s.entries && Prune(s, now).entries[id] == s.entries[id]
    decreases |s.order|
  {
    if Prune(s, now) != s {
      PruneKeepsBounds(PopFront(s), now);
    }
  }

  lemma {:induction false} CapKeepsBounds(s: Set)
    ensures EnforceCap(s).window == s.window && EnforceCap(s).cap == s.cap
    ensures forall id :: id in EnforceCap(s).entries ==> id in s.entries && EnforceCap(s).entries[id] == s.entries[id]
    decreases |s.order|
  {
    if EnforceCap(s) != s {
      CapKeepsBounds(PopFront(s));
    }
  }

  /** Recording brings in only the recorded id. */
  lemma KeepsBounds(s: Set, id: ContentId, from: Ik, now: nat)
    ensures Record(s, id, from, now).window == s.window && Record(s, id, from, now).cap == s.cap
    ensures forall x :: x in Record(s, id, from, now).entries ==> x == id || x in s.entries
  {
    PruneKeepsBounds(s, now);
    CapKeepsBounds(Insert(Prune(s, now), id, from, now));
  }

  // --- retention -----------------------------------------------------------------------------------------

  lemma {:induction false} OrderCounts(s: Set)
    requires SetOk(s)
    ensures |s.entries| == |s.order|
    decreases |s.order|
  {
    if s.order == [] {
      NoOrderNoEntries(s);
    } else {
      PopFrontOk(s);
      OrderCounts(PopFront(s));
    }
  }

  /** `id` stands among the last `k` of the order. */
  ghost predicate Youngest(order: seq<ContentId>, id: ContentId, k: nat) {
    exists j :: 0 <= j < |order| && order[j] == id && |order| - j <= k
  }

  /** `id`, received at `t` or later, is among the `k` youngest entries. */
  ghost predicate Kept(s: Set, id: ContentId, t: nat, k: nat) {
    SetOk(s) && id in s.entries && s.entries[id].receivedAt >= t && Youngest(s.order, id, k)
  }

  lemma PopFrontYoungest(order: seq<ContentId>, id: ContentId, k: nat)
    requires Youngest(order, id, k) && order[0] != id
    ensures Youngest(order[1..], id, k)
  {
    var j :| 0 <= j < |order| && order[j] == id && |order| - j <= k;
    assert order[1..][j - 1] == id;
  }

  lemma PopFrontKeeps(s: Set, id: ContentId, t: nat, k: nat)
    requires Kept(s, id, t, k) && s.order != [] && s.order[0] != id
    ensures Kept(PopFront(s), id, t, k)
  {
    hide SetOk, Youngest;
    PopFrontOk(s);
    PopFrontYoungest(s.order, id, k);
  }

  lemma {:induction false} PruneKeeps(s: Set, id: ContentId, t: nat, k: nat, now: nat)
    requires Kept(s, id, t, k) && !Expired(s, t, now)
    ensures Kept(Prune(s, now), id, t, k)
    decreases |s.order|
  {
    if Prune(s, now) != s {
      PopFrontKeeps(s, id, t, k);
      PruneKeeps(PopFront(s), id, t, k, now);
    }
  }

  /** The cap evicts from the front, so it spares whatever is among the `cap` youngest. */
  lemma {:induction false} CapKeeps(s: Set, id: ContentId, t: nat, k: nat)
    requires Kept(s, id, t, k) && k <= s.cap
    ensures Kept(EnforceCap(s), id, t, k)
    decreases |s.order|
  {
    if EnforceCap(s) != s {
      OrderCounts(s);
      assert s.order[0] != id by {
        var j :| 0 <= j < |s.order| && s.order[j] == id && |s.order| - j <= k;
        assert j > 0;
      }
      PopFrontKeeps(s, id, t, k);
      CapKeeps(PopFront(s), id, t, k);
    }
  }

  lemma InsertKeeps(s: Set, id: ContentId, t: nat, k: nat, x: ContentId, from: Ik, now: nat)
    requires Kept(s, id, t, k) && x != id
    ensures Kept(Insert(s, x, from, now), id, t, k + 1)
  {
    InsertOk(s, x, from, now);
    var j :| 0 <= j < |s.order| && s.order[j] == id && |s.order| - j <= k;
    assert Insert(s, x, from, now).order[j] == id;
  }

  /** A further id, recorded within the window, moves an entry one place closer to eviction at most. */
  lemma RecordKeeps(s: Set, id: ContentId, t: nat, k: nat, x: ContentId, from: Ik, now: nat)
    requires Kept(s, id, t, k) && k < s.cap && x != id && !Expired(s, t, now)
    ensures Kept(Record(s, x, from, now), id, t, k + 1)
  {
    hide Kept;
    PruneKeeps(s, id, t, k, now);
    PruneKeepsBounds(s, now);
    InsertKeeps(Prune(s, now), id, t, k, x, from, now);
    CapKeeps(Insert(Prune(s, now), x, from, now), id, t, k + 1);
  }

  /** A new id goes in as the youngest. */
  lemma RecordEnters(s: Set, id: ContentId, from: Ik, now: nat)
    requires SetOk(s) && id !in s.entries && s.cap > 0
    ensures Kept(Record(s, id, from, now), id, now, 1)
  {
    PruneOk(s, now);
    PruneKeepsBounds(s, now);
    var p := Prune(s, now);
    InsertOk(p, id, from, now);
    assert Insert(p, id, from, now).order[|p.order|] == id;
    CapKeeps(Insert(p, id, from, now), id, now, 1);
  }

  // --- persistence ---------------------------------------------------------------------------------------

  /** `r` holds the first n ids of `s`, in order, from the same senders, all stamped `now`. */
  ghost predicate Rebuilt(r: Set, s: Set, n: nat, now: nat) {
    && SetOk(r)
    && n <= |s.order| && r.order == s.order[..n]
    && r.window == DEDUP_WINDOW_MS && r.cap == MAX_SEEN
    && forall id :: id in r.entries ==> id in s.entries && r.entries[id] == Meta(s.entries[id].from, now)
  }

  /** Nothing stamped `now` has expired by `now`. */
  lemma FreshStays(r: Set, s: Set, n: nat, now: nat)
    requires Rebuilt(r, s, n, now)
    ensures Prune(r, now) == r
  {
    if r.order != [] {
      assert r.order[0] in r.order;
    }
  }

  lemma NextIsNew(r: Set, s: Set, n: nat, now: nat)
    requires SetOk(s) && Rebuilt(r, s, n, now) && n < |s.order|
    ensures s.order[n] in s.entries && s.order[n] !in r.entries
  {
    assert s.order[n] in s.order;
    assert forall i :: 0 <= i < n ==> s.order[..n][i] != s.order[n];
    assert s.order[n] !in r.order;
  }

  lemma InsertNext(r: Set, s: Set, n: nat, now: nat)
    requires SetOk(s) && Rebuilt(r, s, n, now) && n < |s.order|
    ensures s.order[n] in s.entries
    ensures Rebuilt(Insert(r, s.order[n], s.entries[s.order[n]].from, now), s, n + 1, now)
  {
    NextIsNew(r, s, n, now);
    InsertOk(r, s.order[n], s.entries[s.order[n]].from, now);
    hide SetOk;
    assert s.order[..n] + [s.order[n]] == s.order[..n + 1];
  }

  lemma RebuiltFits(r: Set, s: Set, n: nat, now: nat)
    requires SetOk(s) && |s.entries| <= MAX_SEEN && Rebuilt(r, s, n, now)
    ensures EnforceCap(r) == r
  {
    OrderCounts(r);
    OrderCounts(s);
  }

  lemma RebuildNext(r: Set, s: Set, n: nat, now: nat)
    requires SetOk(s) && |s.entries| <= MAX_SEEN && Rebuilt(r, s, n, now) && n < |s.order|
    ensures s.order[n] in s.entries
    ensures Rebuilt(Record(r, s.order[n], s.entries[s.order[n]].from, now), s, n + 1, now)
  {
    hide SetOk, Rebuilt;
    FreshStays(r, s, n, now);
    InsertNext(r, s, n, now);
    RebuiltFits(Insert(r, s.order[n], s.entries[s.order[n]].from, now), s, n + 1, now);
  }

  lemma PairAt(s: Set, i: int)
    requires SetOk(s) && i < |s.order|
    ensures |Pairs(s)| == |s.order|
    ensures 0 <= i ==> s.order[i] in s.entries && Pairs(s)[i] == (s.order[i], s.entries[s.order[i]].from)
  {
    PairsAt(s);
  }

  lemma {:induction false} RebuildAll(s: Set, n: nat, now: nat)
    requires SetOk(s) && |s.entries| <= MAX_SEEN && n <= |s.order|
    ensures |Pairs(s)| == |s.order|
    ensures Rebuilt(RecordAll(New(), Pairs(s)[..n], now), s, n, now)
  {
    hide Record, SetOk, Rebuilt, Pairs;
    PairAt(s, n - 1);
    if n == 0 {
      assert Pairs(s)[..0] == [];
      RebuildNothing(s, now);
    } else {
      RebuildAll(s, n - 1, now);
      assert Pairs(s)[..n][..n - 1] == Pairs(s)[..n - 1];
      RebuildNext(RecordAll(New(), Pairs(s)[..n - 1], now), s, n - 1, now);
    }
  }

  lemma RebuildNothing(s: Set, now: nat)
    ensures Rebuilt(New(), s, 0, now)
  {
  }

  /** Restoring what was persisted keeps ids, order and senders; only the stamps are those of the restore. */
  lemma RestoreOfPairs(s: Set, now: nat)
    requires SetOk(s) && |s.entries| <= MAX_SEEN
    ensures var r := RecordAll(New(), Pairs(s), now);
            && SetOk(r) && r.order == s.order && r.entries.Keys == s.entries.Keys
            && r.window == DEDUP_WINDOW_MS && r.cap == MAX_SEEN
            && (forall id :: id in r.entries ==> r.entries[id] == Meta(s.entries[id].from, now))
            && Pairs(r) == Pairs(s)
  {
    hide Record, RecordAll;
    RebuildAll(s, |s.order|, now);
    assert Pairs(s)[..|s.order|] == Pairs(s);
    SameOrder(RecordAll(New(), Pairs(s), now), s, now);
  }

  lemma SameOrder(r: Set, s: Set, now: nat)
    requires SetOk(s) && Rebuilt(r, s, |s.order|, now)
    ensures r.order == s.order && r.entries.Keys == s.entries.Keys && Pairs(r) == Pairs(s)
  {
    assert s.order[..|s.order|] == s.order;
    forall id
      ensures id in r.entries <==> id in s.entries
    {
      assert id in r.order <==> id in s.order;
    }
    PairsAt(r);
    PairsAt(s);
    hide SetOk, Pairs;
    assert forall i :: 0 <= i < |s.order| ==> Pairs(r)[i] == Pairs(s)[i];
  }

  /** After a restore an id is a duplicate exactly while the clock is within the window of the restore itself. */
  lemma RestoredReads(s: Set, id: ContentId, boot: nat, now: nat)
    requires SetOk(s) && |s.entries| <= MAX_SEEN
    ensures Contains(RecordAll(New(), Pairs(s), boot), id, now)
       <==> id in s.entries && SaturatingSub(now, boot) < 1_728_000_000
  {
    hide RecordAll, Pairs, SetOk;
    RestoreOfPairs(s, boot);
  }

  // --- what is forgotten ---------------------------------------------------------------------------------------

  function Stamp(s: Set, id: ContentId): nat { if id in s.entries then s.entries[id].receivedAt else 0 }

  /** Stamps do not decrease along the order, and none is in the future. */
  ghost predicate Stamped(s: Set, now: nat) {
    && SetOk(s)
    && (forall i :: 0 <= i < |s.order| ==> Stamp(s, s.order[i]) <= now)
    && forall i, j :: 0 <= i < j < |s.order| ==> Stamp(s, s.order[i]) <= Stamp(s, s.order[j])
  }

  lemma PopIs(s: Set)
    requires SetOk(s) && s.order != []
    ensures var p := PopFront(s);
            && SetOk(p) && p.window == s.window && p.cap == s.cap && |p.order| == |s.order| - 1
            && (forall i :: 0 <= i < |p.order| ==> p.order[i] == s.order[i + 1] && p.order[i] != s.order[0])
            && (forall x :: x in p.entries <==> x in s.entries && x != s.order[0])
            && forall x :: x in p.entries ==> p.entries[x] == s.entries[x]
  {
    PopFrontOk(s);
  }

  lemma PopStamped(s: Set, now: nat)
    requires Stamped(s, now) && s.order != []
    ensures Stamped(PopFront(s), now)
  {
    hide SetOk, PopFront;
    PopIs(s);
    var p := PopFront(s);
    forall i | 0 <= i < |p.order|
      ensures Stamp(p, p.order[i]) == Stamp(s, s.order[i + 1])
    {
    }
  }

  lemma Ordered(s: Set, x: ContentId) returns (i: nat)
    requires SetOk(s) && x in s.entries
    ensures i < |s.order| && s.order[i] == x
  {
    assert x in s.order;
    i :| 0 <= i < |s.order| && s.order[i] == x;
  }

  lemma EmptyOrder(s: Set)
    requires SetOk(s) && s.order == []
    ensures forall x :: x !in s.entries
  {
    assert forall x :: x in s.entries ==> x in s.order;
  }

  /** If the oldest is in its window, all are. */
  lemma OldestTells(s: Set, now: nat)
    requires Stamped(s, now) && s.order != [] && s.order[0] in s.entries
    requires !Expired(s, s.entries[s.order[0]].receivedAt, now)
    ensures forall x :: x in s.entries ==> !Expired(s, s.entries[x].receivedAt, now)
  {
    hide SetOk;
    forall x | x in s.entries
      ensures !Expired(s, s.entries[x].receivedAt, now)
    {
      var i := Ordered(s, x);
      assert Stamp(s, s.order[0]) <= Stamp(s, s.order[i]);
    }
  }

  /** Under a clock that only advances, pruning forgets exactly what is out of its window. */
  lemma {:induction false} PruneForgets(s: Set, now: nat)
    requires Stamped(s, now)
    ensures Stamped(Prune(s, now), now)
    ensures forall x :: x in Prune(s, now).entries <==> x in s.entries && !Expired(s, s.entries[x].receivedAt, now)
    ensures forall x :: x in Prune(s, now).entries ==> Prune(s, now).entries[x] == s.entries[x]
    decreases |s.order|
  {
    StampedOk(s, now);
    hide Stamped, SetOk, PopFront;
    if s.order == [] {
      EmptyOrder(s);
    } else {
      FirstHeld(s);
      if Expired(s, s.entries[s.order[0]].receivedAt, now) {
        PopStamped(s, now);
        PopIs(s);
        PruneForgets(PopFront(s), now);
      } else {
        OldestTells(s, now);
      }
    }
  }

  lemma StampedOk(s: Set, now: nat)
    requires Stamped(s, now)
    ensures SetOk(s)
  {
  }

  lemma FirstHeld(s: Set)
    requires SetOk(s) && s.order != []
    ensures s.order[0] in s.entries
  {
    assert s.order[0] in s.order;
  }

  lemma InsertStamped(s: Set, id: ContentId, from: Ik, now: nat)
    requires Stamped(s, now) && id !in s.entries
    ensures Stamped(Insert(s, id, from, now), now)
  {
    InsertOk(s, id, from, now);
    assert forall i :: 0 <= i < |s.order| ==> s.order[i] in s.order && s.order[i] != id;
    hide SetOk;
    var r := Insert(s, id, from, now);
    forall i | 0 <= i < |s.order|
      ensures Stamp(r, r.order[i]) == Stamp(s, s.order[i])
    {
    }
  }

  lemma {:induction false} CapForgets(s: Set, now: nat)
    requires Stamped(s, now)
    ensures Stamped(EnforceCap(s), now)
    ensures |s.entries| <= s.cap ==> EnforceCap(s) == s
    decreases |s.order|
  {
    StampedOk(s, now);
    hide Stamped, SetOk, PopFront;
    if !(|s.entries| <= s.cap || s.order == []) {
      PopStamped(s, now);
      PopIs(s);
      CapForgets(PopFront(s), now);
    }
  }

  /**
   * Under a clock that only advances, recording an id that is not held leaves it and, short of the cap, exactly the
   * ids still in their window; nothing out of its window is left in any case.
   */
  lemma RecordForgets(s: Set, id: ContentId, from: Ik, now: nat)
    requires Stamped(s, now) && !Contains(s, id, now) && s.window > 0
    ensures var r := Record(s, id, from, now);
            && Stamped(r, now)
            && (forall x :: x in r.entries ==>
                  if x == id then r.entries[x] == Meta(from, now)
                  else x in s.entries && r.entries[x] == s.entries[x]
                       && SaturatingSub(now, s.entries[x].receivedAt) < s.window)
            && (|s.entries| < s.cap ==>
                  forall x :: x in r.entries <==>
                    x == id || (x in s.entries && SaturatingSub(now, s.entries[x].receivedAt) < s.window))
  {
    hide SetOk;
    PruneForgets(s, now);
    PruneKeepsBounds(s, now);
    var p := Prune(s, now);
    InsertStamped(p, id, from, now);
    CapForgets(Insert(p, id, from, now), now);
    CapKeepsBounds(Insert(p, id, from, now));
    assert p.entries.Keys <= s.entries.Keys;
    FewerKeys(p.entries.Keys, s.entries.Keys);
    assert Insert(p, id, from, now).entries.Keys == p.entries.Keys + {id};
    assert |p.entries| == |p.entries.Keys| && |s.entries| == |s.entries.Keys|;
    assert |Insert(p, id, from, now).entries| == |Insert(p, id, from, now).entries.Keys|;
    hide Stamped, Prune, Insert, EnforceCap;
  }

  lemma FewerKeys(a: set<ContentId>, b: set<ContentId>)
    requires a <= b
    ensures |a| <= |b|
  {
    assert b == a + (b - a);
  }
}
