/** The mutable dedup set of node/src/seen.rs, proved against the values in `Seen`. */
module Dedup {
  import opened Prelude
  import opened Mote
  import Seen

  class SeenSet {
    var entries: map<ContentId, Seen.Meta>
    var order: seq<ContentId>
    var window: nat
    var cap: nat

    ghost function Value(): Seen.Set
      reads this
    {
      Seen.Set(entries, order, window, cap)
    }

    constructor ()
      ensures Value() == Seen.New()
    {
      entries, order, window, cap := map[], [], Seen.DEDUP_WINDOW_MS, Seen.MAX_SEEN;
    }

    method Contains(id: ContentId, now: nat) returns (held: bool)
      ensures held == Seen.Contains(Value(), id, now)
    {
      held := id in entries && SaturatingSub(now, entries[id].receivedAt) < window;
    }

    method Record(id: ContentId, from: Ik, now: nat)
      modifies this
      ensures Value() == Seen.Record(old(Value()), id, from, now)
    {
      PruneOld(now);
      var isNew := id !in entries;
      entries := entries[id := Seen.Meta(from, now)];
      if isNew {
        order := order + [id];
      }
      EvictOverCap();
    }

    method PruneOld(now: nat)
      modifies this
      ensures Value() == Seen.Prune(old(Value()), now)
    {
      while order != []
        invariant Seen.Prune(Value(), now) == Seen.Prune(old(Value()), now)
        decreases |order|
      {
        var front := order[0];
        if front in entries && SaturatingSub(now, entries[front].receivedAt) < window {
          break;
        }
        order, entries := order[1..], entries - {front};
      }
    }

    method EvictOverCap()
      modifies this
      ensures Value() == Seen.EnforceCap(old(Value()))
    {
      while |entries| > cap
        invariant Seen.EnforceCap(Value()) == Seen.EnforceCap(old(Value()))
        decreases |order|
      {
        if order == [] {
          break;
        }
        order, entries := order[1..], entries - {order[0]};
      }
    }

    method PersistPairs() returns (pairs: seq<(ContentId, Ik)>)
      ensures pairs == Seen.Pairs(Value())
    {
      pairs := [];
      for i := 0 to |order|
        invariant pairs == Seen.PairsOf(entries, order[..i])
      {
        if order[i] in entries {
          pairs := pairs + [(order[i], entries[order[i]].from)];
        }
        assert order[..i + 1][..i] == order[..i];
      }
      assert order[..|order|] == order;
    }

    method Restore(pairs: seq<(ContentId, Ik)>, now: nat)
      modifies this
      ensures Value() == Seen.RecordAll(old(Value()), pairs, now)
    {
      for i := 0 to |pairs|
        invariant Value() == Seen.RecordAll(old(Value()), pairs[..i], now)
      {
        Record(pairs[i].0, pairs[i].1, now);
        assert pairs[..i + 1][..i] == pairs[..i];
      }
      assert pairs[..|pairs|] == pairs;
    }
  }
}
