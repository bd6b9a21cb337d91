/**
 * Values of the deniable-init admission gate (node/src/deniable.rs) and the bound it enforces.
 * The mutable gate in `Admission` is proved against the functions here.
 */
module RateGate {
  import opened Prelude

  datatype Bucket = Bucket(capacity: nat, refillMs: nat, tokens: nat, last: nat)

  function NewBucket(capacity: nat, refillMs: nat, now: nat): Bucket {
    Bucket(capacity, refillMs, capacity, now)
  }

  /** Credit the whole intervals since `last`; the `u32` steps saturate as in the source. */
  function Refill(b: Bucket, now: nat): Bucket {
    if b.refillMs == 0 || now <= b.last then b
    else
      var earned := (now - b.last) / b.refillMs;
      if earned == 0 then b
      else
        DivMod(now - b.last, b.refillMs);
        b.(tokens := Min(b.capacity, Min(b.tokens + Min(earned, U32_MAX), U32_MAX)),
           last := b.last + earned * b.refillMs)
  }

  function Take(b: Bucket): Bucket
    requires b.tokens > 0
  {
    b.(tokens := b.tokens - 1)
  }

  datatype Limits = Limits(globalBurst: nat, globalRefillMs: nat, sourceBurst: nat, sourceRefillMs: nat)

  datatype Gate = Gate(limits: Limits, global: Bucket, perSource: map<Ik, Bucket>)

  /** The shipped limits. */
  const DEFAULT_LIMITS := Limits(4, 30_000, 2, 60_000)

  const PRUNE_AT: nat := 1024

  function NewGate(limits: Limits, now: nat): Gate {
    Gate(limits, NewBucket(limits.globalBurst, limits.globalRefillMs, now), map[])
  }

  /** The bucket a call from `source` meets: its own, or a fresh full one. */
  function SourceBucket(g: Gate, source: Ik, now: nat): Bucket {
    if source in g.perSource then g.perSource[source]
    else NewBucket(g.limits.sourceBurst, g.limits.sourceRefillMs, now)
  }

  function Pruned(g: Gate, now: nat): Gate {
    g.(perSource := map k | k in g.perSource && Refill(g.perSource[k], now).tokens < g.limits.sourceBurst
                      :: Refill(g.perSource[k], now))
  }

  predicate Admits(g: Gate, source: Ik, now: nat) {
    Refill(g.global, now).tokens > 0 && Refill(SourceBucket(g, source, now), now).tokens > 0
  }

  /** The gate after a call, before any pruning. */
  function Charged(g: Gate, source: Ik, now: nat): Gate {
    var global := Refill(g.global, now);
    var src := Refill(SourceBucket(g, source, now), now);
    if Admits(g, source, now)
    then Gate(g.limits, Take(global), g.perSource[source := Take(src)])
    else Gate(g.limits, global, g.perSource[source := src])
  }

  function Admit(g: Gate, source: Ik, now: nat): Gate {
    var c := Charged(g, source, now);
    if |c.perSource| > PRUNE_AT then Pruned(c, now) else c
  }

  // --- credit --------------------------------------------------------------------------------------

  predicate BucketOk(b: Bucket, capacity: nat, refillMs: nat) {
    b.capacity == capacity <= U32_MAX && b.refillMs == refillMs && b.tokens <= capacity
  }

  /** Every bucket holds what the limits say, and no per-source bucket is ahead of the clock. */
  ghost predicate GateOk(g: Gate, now: nat) {
    && BucketOk(g.global, g.limits.globalBurst, g.limits.globalRefillMs)
    && g.limits.sourceBurst <= U32_MAX
    && forall k :: k in g.perSource ==>
         BucketOk(g.perSource[k], g.limits.sourceBurst, g.limits.sourceRefillMs) && g.perSource[k].last <= now
  }

  /** floor(span / interval); an interval of 0 never elapses. */
  function Intervals(span: int, interval: nat): (n: nat)
    ensures interval > 0 && span > 0 ==> n == span / interval
  {
    if interval == 0 || span <= 0 then 0 else DivMonotone(0, span, interval); span / interval
  }

  function CeilDiv(span: nat, interval: nat): nat {
    if interval == 0 then 0 else DivMonotone(0, span + interval - 1, interval); (span + interval - 1) / interval
  }

  /** The most a bucket could still pay for by time `t` if nothing capped it. */
  function Credit(b: Bucket, t: nat): nat {
    b.tokens + Intervals(t - b.last, b.refillMs)
  }

  lemma QuotientOfZero(interval: nat)
    requires interval > 0
    ensures 0 / interval == 0
  {
  }

  lemma IntervalsSplit(span: nat, part: nat, interval: nat)
    requires interval > 0 && part * interval <= span
    ensures Intervals(span, interval) == part + Intervals(span - part * interval, interval)
  {
    var rest := span - part * interval;
    DivShift(rest, part, interval);
    QuotientOfZero(interval);
    if span == 0 && part > 0 {
      MulLe(1, part, interval);
    }
  }

  lemma IntervalsMonotone(a: int, b: int, interval: nat)
    requires a <= b
    ensures Intervals(a, interval) <= Intervals(b, interval)
  {
    if interval > 0 && a > 0 {
      DivMonotone(a, b, interval);
    }
  }

  /** The saturating steps never saturate: a refill is the plain capped addition of whole intervals. */
  lemma RefillShape(b: Bucket, capacity: nat, refillMs: nat, now: nat) returns (earned: nat)
    requires BucketOk(b, capacity, refillMs)
    ensures Refill(b, now)
         == b.(tokens := Min(capacity, b.tokens + earned), last := b.last + earned * refillMs)
    ensures refillMs == 0 ==> earned == 0
    ensures earned > 0 ==> b.last + earned * refillMs <= now
    ensures refillMs > 0 ==> now - (b.last + earned * refillMs) < refillMs
  {
    earned := 0;
    if refillMs > 0 && now > b.last {
      DivMod(now - b.last, refillMs);
      DivBelow(now - b.last, 0, refillMs);
      earned := (now - b.last) / refillMs;
    }
  }

  /** Refilling never creates credit, and leaves less than one whole interval uncredited. */
  lemma RefillCredit(b: Bucket, capacity: nat, refillMs: nat, now: nat, t: nat)
    requires BucketOk(b, capacity, refillMs) && now <= t
    ensures BucketOk(Refill(b, now), capacity, refillMs)
    ensures b.last <= now ==> Refill(b, now).last <= now
    ensures Credit(Refill(b, now), t) <= Credit(b, t)
    ensures refillMs > 0 ==> now - Refill(b, now).last < refillMs
  {
    hide Refill, Intervals;
    var earned := RefillShape(b, capacity, refillMs, now);
    if earned > 0 {
      IntervalsSplit(t - b.last, earned, refillMs);
    }
  }

  /** What a refilled bucket can pay for until `t` is its burst and the intervals begun since. */
  lemma RefilledCredit(b: Bucket, capacity: nat, refillMs: nat, now: nat, t: nat)
    requires BucketOk(b, capacity, refillMs) && now <= t
    ensures Credit(Refill(b, now), t) <= capacity + CeilDiv(t - now, refillMs)
  {
    RefillCredit(b, capacity, refillMs, now, t);
    var r := Refill(b, now);
    if refillMs > 0 {
      IntervalsMonotone(t - r.last, t - now + refillMs - 1, refillMs);
      if t - now + refillMs - 1 == 0 {
        DivMod(0, refillMs);
      }
    }
  }

  /** Refilling in two steps is refilling once: a bucket's state does not depend on when it is looked at. */
  lemma RefillTwice(b: Bucket, capacity: nat, refillMs: nat, now: nat, later: nat)
    requires BucketOk(b, capacity, refillMs) && now <= later
    ensures Refill(Refill(b, now), later) == Refill(b, later)
  {
    if refillMs > 0 && now > b.last {
      var e, f := (now - b.last) / refillMs, (later - b.last) / refillMs;
      DivMod(now - b.last, refillMs);
      DivMod(later - b.last, refillMs);
      DivMonotone(now - b.last, later - b.last, refillMs);
      DivMonotone(0, now - b.last, refillMs);
      if e > 0 {
        var rest := later - b.last - e * refillMs;
        DivShift(rest, e, refillMs);
        MulAdd(f - e, e, refillMs);
      }
    }
  }

  // --- what a gate can still admit -----------------------------------------------------------------

  /** The most the gate can admit in all from `now` until `t`. */
  function GlobalCredit(g: Gate, now: nat, t: nat): nat {
    Credit(Refill(g.global, now), t)
  }

  /** The most it can admit from one source; a source without a bucket counts as one with a full bucket. */
  function SourceCredit(g: Gate, source: Ik, now: nat, t: nat): nat {
    Credit(Refill(SourceBucket(g, source, now), now), t)
  }

  /** Waiting never adds credit towards a fixed horizon. */
  lemma WaitingAddsNothing(b: Bucket, capacity: nat, refillMs: nat, now: nat, later: nat, t: nat)
    requires BucketOk(b, capacity, refillMs) && now <= later <= t
    ensures Credit(Refill(b, later), t) <= Credit(Refill(b, now), t)
  {
    RefillCredit(b, capacity, refillMs, now, t);
    RefillTwice(b, capacity, refillMs, now, later);
    RefillCredit(Refill(b, now), capacity, refillMs, later, t);
  }

  /** A fresh bucket has no more credit the later it is made. */
  lemma FreshCredit(capacity: nat, refillMs: nat, now: nat, later: nat, t: nat)
    requires capacity <= U32_MAX && now <= later <= t
    ensures Refill(NewBucket(capacity, refillMs, now), now) == NewBucket(capacity, refillMs, now)
    ensures Credit(NewBucket(capacity, refillMs, later), t) <= Credit(NewBucket(capacity, refillMs, now), t)
  {
    IntervalsMonotone(t - later, t - now, refillMs);
  }

  lemma SourceBucketOk(g: Gate, source: Ik, now: nat)
    requires GateOk(g, now)
    ensures BucketOk(SourceBucket(g, source, now), g.limits.sourceBurst, g.limits.sourceRefillMs)
    ensures SourceBucket(g, source, now).last <= now
  {
  }

  /** Standing still from `now` to `later` adds no credit, global or per source. */
  lemma GateWaits(g: Gate, source: Ik, now: nat, later: nat, t: nat)
    requires GateOk(g, now) && now <= later <= t
    ensures GateOk(g, later)
    ensures GlobalCredit(g, later, t) <= GlobalCredit(g, now, t)
    ensures SourceCredit(g, source, later, t) <= SourceCredit(g, source, now, t)
  {
    var l := g.limits;
    WaitingAddsNothing(g.global, l.globalBurst, l.globalRefillMs, now, later, t);
    if source in g.perSource {
      WaitingAddsNothing(g.perSource[source], l.sourceBurst, l.sourceRefillMs, now, later, t);
    } else {
      FreshCredit(l.sourceBurst, l.sourceRefillMs, now, later, t);
      FreshCredit(l.sourceBurst, l.sourceRefillMs, later, later, t);
    }
  }

  /** Either credit is at most a burst and the intervals begun by the horizon. */
  lemma GateCreditBound(g: Gate, source: Ik, now: nat, t: nat)
    requires GateOk(g, now) && now <= t
    ensures GlobalCredit(g, now, t) <= g.limits.globalBurst + CeilDiv(t - now, g.limits.globalRefillMs)
    ensures SourceCredit(g, source, now, t) <= g.limits.sourceBurst + CeilDiv(t - now, g.limits.sourceRefillMs)
  {
    SourceBucketOk(g, source, now);
    RefilledCredit(g.global, g.limits.globalBurst, g.limits.globalRefillMs, now, t);
    RefilledCredit(SourceBucket(g, source, now), g.limits.sourceBurst, g.limits.sourceRefillMs, now, t);
  }

  /** Looking at a gate refills it, which leaves its later refills and both credits as they were. */
  lemma RefilledAgain(b: Bucket, capacity: nat, refillMs: nat, now: nat)
    requires BucketOk(b, capacity, refillMs)
    ensures BucketOk(Refill(b, now), capacity, refillMs)
    ensures b.last <= now ==> Refill(b, now).last <= now
    ensures Refill(Refill(b, now), now) == Refill(b, now)
  {
    RefillCredit(b, capacity, refillMs, now, now);
    RefillTwice(b, capacity, refillMs, now, now);
  }

  /** Spending a token from a refilled bucket. */
  lemma TakeSpends(b: Bucket, capacity: nat, refillMs: nat, now: nat, t: nat)
    requires BucketOk(b, capacity, refillMs) && now <= t && Refill(b, now).tokens > 0
    ensures BucketOk(Take(Refill(b, now)), capacity, refillMs)
    ensures Refill(Take(Refill(b, now)), now) == Take(Refill(b, now))
    ensures Credit(Take(Refill(b, now)), t) + 1 == Credit(Refill(b, now), t)
  {
    RefilledAgain(b, capacity, refillMs, now);
    RefillCredit(b, capacity, refillMs, now, now);
  }

  /** A call that is admitted costs one unit of each credit it draws on; a throttled call costs nothing. */
  lemma ChargedCredit(g: Gate, caller: Ik, source: Ik, now: nat, t: nat)
    requires GateOk(g, now) && now <= t
    ensures GateOk(Charged(g, caller, now), now)
    ensures var c, paid := Charged(g, caller, now), if Admits(g, caller, now) then 1 else 0;
            && GlobalCredit(c, now, t) + paid == GlobalCredit(g, now, t)
            && SourceCredit(c, source, now, t) + (if source == caller then paid else 0)
               == SourceCredit(g, source, now, t)
  {
    hide Refill, Intervals, Credit;
    var l, b := g.limits, SourceBucket(g, caller, now);
    SourceBucketOk(g, caller, now);
    RefillCredit(b, l.sourceBurst, l.sourceRefillMs, now, t);
    RefilledAgain(g.global, l.globalBurst, l.globalRefillMs, now);
    RefilledAgain(b, l.sourceBurst, l.sourceRefillMs, now);
    if Admits(g, caller, now) {
      TakeSpends(g.global, l.globalBurst, l.globalRefillMs, now, t);
      TakeSpends(b, l.sourceBurst, l.sourceRefillMs, now, t);
    }
  }

  /** Forgetting full buckets leaves the global credit alone and never raises a source's. */
  lemma PrunedCredit(g: Gate, source: Ik, now: nat, t: nat)
    requires GateOk(g, now) && now <= t
    ensures GateOk(Pruned(g, now), now)
    ensures GlobalCredit(Pruned(g, now), now, t) == GlobalCredit(g, now, t)
    ensures SourceCredit(Pruned(g, now), source, now, t) <= SourceCredit(g, source, now, t)
  {
    hide Refill, Intervals;
    var l := g.limits;
    forall k | k in g.perSource
      ensures BucketOk(Refill(g.perSource[k], now), l.sourceBurst, l.sourceRefillMs)
      ensures Refill(g.perSource[k], now).last <= now
      ensures Refill(Refill(g.perSource[k], now), now) == Refill(g.perSource[k], now)
    {
      RefilledAgain(g.perSource[k], l.sourceBurst, l.sourceRefillMs, now);
    }
    if source !in Pruned(g, now).perSource {
      FreshCredit(l.sourceBurst, l.sourceRefillMs, now, now, t);
      if source in g.perSource {
        var r := Refill(g.perSource[source], now);
        IntervalsMonotone(t - now, t - r.last, l.sourceRefillMs);
      }
    }
  }

  /** One call, pruning included. */
  lemma AdmitCredit(g: Gate, caller: Ik, source: Ik, now: nat, t: nat)
    requires GateOk(g, now) && now <= t
    ensures GateOk(Admit(g, caller, now), now)
    ensures var a, paid := Admit(g, caller, now), if Admits(g, caller, now) then 1 else 0;
            && a.limits == g.limits
            && GlobalCredit(a, now, t) + paid <= GlobalCredit(g, now, t)
            && SourceCredit(a, source, now, t) + (if source == caller then paid else 0)
               <= SourceCredit(g, source, now, t)
  {
    hide Refill, Intervals, Credit;
    ChargedCredit(g, caller, source, now, t);
    PrunedCredit(Charged(g, caller, now), source, now, t);
  }

  /** A fresh gate can pay for a whole burst at once, in all and for any source. */
  lemma FreshGateHoldsBurst(limits: Limits, source: Ik, now: nat)
    ensures GlobalCredit(NewGate(limits, now), now, now) == limits.globalBurst
    ensures SourceCredit(NewGate(limits, now), source, now, now) == limits.sourceBurst
  {
  }

  /** As shipped: four at once and one each 30 seconds in all; two at once and one each minute from one source. */
  lemma ShippedCredit(source: Ik, now: nat, t: nat)
    requires now <= t
    ensures GlobalCredit(NewGate(DEFAULT_LIMITS, now), now, t) == 4 + (t - now) / 30_000
    ensures SourceCredit(NewGate(DEFAULT_LIMITS, now), source, now, t) == 2 + (t - now) / 60_000
  {
  }

  /** Who gets in: whoever comes while a token is left for all and one for its source, counting refills since. */
  lemma AdmitsExactly(g: Gate, source: Ik, now: nat)
    requires GateOk(g, now)
    ensures Admits(g, source, now) <==> GlobalCredit(g, now, now) > 0 && SourceCredit(g, source, now, now) > 0
  {
    SourceBucketOk(g, source, now);
    NoneUncredited(g.global, g.limits.globalBurst, g.limits.globalRefillMs, now);
    NoneUncredited(SourceBucket(g, source, now), g.limits.sourceBurst, g.limits.sourceRefillMs, now);
  }

  lemma NoneUncredited(b: Bucket, capacity: nat, refillMs: nat, now: nat)
    requires BucketOk(b, capacity, refillMs)
    ensures Credit(Refill(b, now), now) == Refill(b, now).tokens
  {
    RefillCredit(b, capacity, refillMs, now, now);
    var r := Refill(b, now);
    if refillMs > 0 && now > r.last {
      DivBelow(now - r.last, 1, refillMs);
      DivMonotone(0, now - r.last, refillMs);
      QuotientOfZero(refillMs);
    }
  }

  /** The refill itself: one token for each whole interval gone by, up to the burst, and the remainder kept. */
  lemma RefillExactly(b: Bucket, capacity: nat, refillMs: nat, now: nat)
    requires BucketOk(b, capacity, refillMs)
    ensures refillMs == 0 || now < b.last ==> Refill(b, now) == b
    ensures refillMs > 0 && now >= b.last ==>
              var n := (now - b.last) / refillMs;
              n >= 0 && Refill(b, now) == Bucket(capacity, refillMs, Min(capacity, b.tokens + n), b.last + n * refillMs)
  {
    if refillMs > 0 && now >= b.last {
      DivMonotone(0, now - b.last, refillMs);
      QuotientOfZero(refillMs);
    }
  }

  /** The table of sources: up to 1024 it is kept as it is, above that exactly the buckets refilled to full go. */
  lemma TableExactly(g: Gate, source: Ik, now: nat)
    ensures var before, after := Charged(g, source, now).perSource, Admit(g, source, now).perSource;
            && before.Keys == g.perSource.Keys + {source}
            && (|before| <= 1024 ==> after == before)
            && (|before| > 1024 ==>
                  && (forall k :: k in after <==> k in before && Refill(before[k], now).tokens < g.limits.sourceBurst)
                  && forall k :: k in after ==> after[k] == Refill(before[k], now))
  {
    hide Refill;
  }
}
