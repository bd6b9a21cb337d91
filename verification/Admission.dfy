/** The mutable admission gate of node/src/deniable.rs, proved against the values in `RateGate`. */
module Admission {
  import opened Prelude
  import opened Listing
  import RateGate

  class TokenBucket {
    var capacity: nat
    var refillMs: nat
    var tokens: nat
    var last: nat

    ghost function Value(): RateGate.Bucket
      reads this
    {
      RateGate.Bucket(capacity, refillMs, tokens, last)
    }

    constructor (capacity: nat, refillMs: nat, now: nat)
      ensures Value() == RateGate.NewBucket(capacity, refillMs, now)
    {
      this.capacity, this.refillMs, tokens, last := capacity, refillMs, capacity, now;
    }

    constructor Of(b: RateGate.Bucket)
      ensures Value() == b
    {
      capacity, refillMs, tokens, last := b.capacity, b.refillMs, b.tokens, b.last;
    }

    function Get(): (b: RateGate.Bucket)
      reads this
      ensures b == Value()
    {
      RateGate.Bucket(capacity, refillMs, tokens, last)
    }

    method Refill(now: nat)
      modifies this
      ensures Value() == RateGate.Refill(old(Value()), now)
    {
      if refillMs == 0 || now <= last {
        return;
      }
      var elapsed := now - last;
      var earned := elapsed / refillMs;
      if earned == 0 {
        return;
      }
      DivMod(elapsed, refillMs);
      var earned32 := Min(earned, U32_MAX);
      tokens := Min(capacity, Min(tokens + earned32, U32_MAX));
      last := last + earned * refillMs;
    }

    method Available(now: nat) returns (ok: bool)
      modifies this
      ensures Value() == RateGate.Refill(old(Value()), now)
      ensures ok == (RateGate.Refill(old(Value()), now).tokens > 0)
    {
      Refill(now);
      ok := tokens > 0;
    }
  }

  datatype GateSnapshot =
    GateSnapshot(limits: RateGate.Limits, global: RateGate.Bucket, perSource: seq<(Ik, RateGate.Bucket)>)

  /** The bucket a source meets does not depend on the global one. */
  lemma BucketOfTable(g: RateGate.Gate, h: RateGate.Gate, source: Ik, now: nat)
    requires g.limits == h.limits && g.perSource == h.perSource
    ensures RateGate.SourceBucket(g, source, now) == RateGate.SourceBucket(h, source, now)
  {
  }

  /**
   * The table owns its buckets, so they are values in a map: a bucket is taken out, worked on as an
   * object and written back.
   */
  class DeniableAdmission {
    var limits: RateGate.Limits
    var global: TokenBucket
    var perSource: map<Ik, RateGate.Bucket>

    ghost function Value(): RateGate.Gate
      reads this, global
    {
      RateGate.Gate(limits, global.Value(), perSource)
    }

    constructor (limits: RateGate.Limits, now: nat)
      ensures fresh(global) && Value() == RateGate.NewGate(limits, now)
    {
      this.limits := limits;
      global := new TokenBucket(limits.globalBurst, limits.globalRefillMs, now);
      perSource := map[];
    }

    /** Charge one source's bucket, taken out of the table and put back, if both buckets have a token. */
    method ChargeSource(source: Ik, now: nat, globalOk: bool) returns (admitted: bool)
      requires globalOk ==> global.tokens > 0
      modifies this`perSource, global`tokens
      ensures var src := RateGate.Refill(RateGate.SourceBucket(old(Value()), source, now), now);
              && admitted == (globalOk && src.tokens > 0)
              && perSource == old(perSource)[source := if admitted then RateGate.Take(src) else src]
              && global.tokens == old(global.tokens) - (if admitted then 1 else 0)
    {
      hide RateGate.Refill;
      if source !in perSource {
        perSource := perSource[source := RateGate.NewBucket(limits.sourceBurst, limits.sourceRefillMs, now)];
      }
      var src := new TokenBucket.Of(perSource[source]);
      var sourceOk := src.Available(now);
      admitted := globalOk && sourceOk;
      if admitted {
        global.tokens := global.tokens - 1;
        src.tokens := src.tokens - 1;
      }
      perSource := perSource[source := src.Get()];
    }

    method Admit(source: Ik, now: nat) returns (admitted: bool)
      modifies this, global
      ensures global == old(global)
      ensures Value() == RateGate.Admit(old(Value()), source, now)
      ensures admitted == RateGate.Admits(old(Value()), source, now)
    {
      hide RateGate.Refill, RateGate.Pruned, RateGate.SourceBucket;
      ghost var charged := RateGate.Charged(Value(), source, now);
      ghost var before := Value();
      var globalOk := global.Available(now);
      BucketOfTable(before, Value(), source, now);
      admitted := ChargeSource(source, now, globalOk);
      assert Value() == charged;
      if |perSource| > RateGate.PRUNE_AT {
        Prune(now);
      }
    }

    method Prune(now: nat)
      modifies this`perSource
      ensures Value() == RateGate.Pruned(old(Value()), now)
    {
      hide RateGate.Refill;
      var cap := limits.sourceBurst;
      var todo := perSource.Keys;
      ghost var all := perSource;
      while todo != {}
        invariant todo <= perSource.Keys <= all.Keys
        invariant forall k :: k in todo ==> perSource[k] == all[k]
        invariant forall k :: k in all && k !in todo ==>
                    (k in perSource <==> RateGate.Refill(all[k], now).tokens < cap)
        invariant forall k :: k in perSource && k !in todo ==> perSource[k] == RateGate.Refill(all[k], now)
        decreases todo
      {
        var k :| k in todo;
        var b := new TokenBucket.Of(perSource[k]);
        b.Refill(now);
        if b.tokens < cap {
          perSource := perSource[k := b.Get()];
        } else {
          perSource := perSource - {k};
        }
        todo := todo - {k};
      }
    }

    method Snapshot() returns (snap: GateSnapshot)
      ensures snap.limits == limits && snap.global == Value().global && Lists(snap.perSource, perSource)
    {
      var pairs := Enumerate(perSource);
      snap := GateSnapshot(limits, global.Get(), pairs);
    }

    constructor Restore(snap: GateSnapshot)
      ensures fresh(global)
      ensures Value() == RateGate.Gate(snap.limits, snap.global, Collect(snap.perSource))
    {
      limits := snap.limits;
      global := new TokenBucket.Of(snap.global);
      perSource := Collect(snap.perSource);
    }
  }

  /** A restored gate is the snapshotted one, so every later decision is the same. */
  method RestoreOfSnapshot(gate: DeniableAdmission) returns (copy: DeniableAdmission)
    ensures fresh(copy) && fresh(copy.global)
    ensures copy.Value() == gate.Value()
  {
    var snap := gate.Snapshot();
    copy := new DeniableAdmission.Restore(snap);
    CollectOfListing(snap.perSource, gate.perSource);
  }
}
