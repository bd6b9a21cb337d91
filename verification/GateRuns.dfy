/**
 * Runs of the admission gate inside a node (node/src/node.rs, `deniable_accept`): calls under a
 * non-decreasing clock, reconfigurations, checkpoints, and restarts that fall back to the last checkpoint.
 */
module GateRuns {
  import opened Prelude
  import opened RateGate

  /** The live gate and the one in the journal. */
  datatype Sys = Sys(live: Gate, saved: Gate)

  /**
   * `Init` is one certified init: `opens` says whether the session opens once admitted, which is also when a
   * checkpoint is asked for and a one-time prekey is known to be spent on a session.  `Configure` puts another
   * policy in force.  `saves` says whether a checkpoint asked for gets into the journal then and there.
   */
  datatype Event =
    | Init(source: Ik, now: nat, opens: bool, saves: bool)
    | Configure(limits: Limits, now: nat, saves: bool)
    | Checkpoint
    | Restart

  function Step(s: Sys, e: Event): Sys {
    match e
    case Init(source, now, opens, saves) =>
      var g := Admit(s.live, source, now);
      Sys(g, if Admits(s.live, source, now) && opens && saves then g else s.saved)
    case Configure(limits, now, saves) =>
      var g := NewGate(limits, now);
      Sys(g, if saves then g else s.saved)
    case Checkpoint => Sys(s.live, s.live)
    case Restart => Sys(s.saved, s.saved)
  }

  function Run(s: Sys, es: seq<Event>): Sys
    decreases es
  {
    if es == [] then s else Run(Step(s, es[0]), es[1..])
  }

  function TimeOf(e: Event, now: nat): nat { if e.Init? || e.Configure? then e.now else now }

  /** The clock readings of the run do not go back, and the first is not before `from`. */
  ghost predicate Timely(es: seq<Event>, from: nat) {
    es != [] ==> from <= TimeOf(es[0], from) && Timely(es[1..], TimeOf(es[0], from))
  }

  /** The last clock reading of the run. */
  function End(es: seq<Event>, from: nat): nat { if es == [] then from else End(es[1..], TimeOf(es[0], from)) }

  predicate Admitted(s: Sys, e: Event) {
    e.Init? && Admits(s.live, e.source, e.now)
  }

  /** Whose admissions are counted: everybody's, or one source's. */
  datatype Who = Everybody | Only(source: Ik)

  predicate Matches(who: Who, e: Event) {
    e.Init? && (who.Only? ==> e.source == who.source)
  }

  /** How many of the run's inits get past the gate. */
  function CountAdmitted(s: Sys, es: seq<Event>, who: Who): nat
    decreases es
  {
    if es == [] then 0
    else (if Admitted(s, es[0]) && Matches(who, es[0]) then 1 else 0) + CountAdmitted(Step(s, es[0]), es[1..], who)
  }

  /** How many of them open a session. */
  function CountOpened(s: Sys, es: seq<Event>, who: Who): nat
    decreases es
  {
    if es == [] then 0
    else (if Admitted(s, es[0]) && es[0].opens && Matches(who, es[0]) then 1 else 0)
         + CountOpened(Step(s, es[0]), es[1..], who)
  }

  /** The limits are 32-bit numbers. */
  predicate Fits(limits: Limits) { limits.globalBurst <= U32_MAX && limits.sourceBurst <= U32_MAX }

  predicate Fitting(es: seq<Event>) { forall e :: e in es && e.Configure? ==> Fits(e.limits) }

  predicate KeepsLimits(es: seq<Event>) { forall e :: e in es ==> !e.Configure? }

  /** What opens a session is in the journal before anything else happens. */
  predicate Durable(e: Event) { e.Init? && e.opens ==> e.saves }

  /** Every restart of the run finds the live gate in the journal, flushed there before it or never changed since. */
  predicate Flushed(s: Sys, es: seq<Event>)
    decreases es
  {
    es != [] ==> (es[0].Restart? ==> s.saved == s.live) && Flushed(Step(s, es[0]), es[1..])
  }

  ghost predicate SysOk(s: Sys, now: nat) { GateOk(s.live, now) && GateOk(s.saved, now) }

  function GateCredit(g: Gate, who: Who, now: nat, t: nat): nat {
    if who.Everybody? then GlobalCredit(g, now, t) else SourceCredit(g, who.source, now, t)
  }

  /** What a restarting node can still admit: it may come back with either gate. */
  function SysCredit(s: Sys, who: Who, now: nat, t: nat): nat {
    Max(GateCredit(s.live, who, now, t), GateCredit(s.saved, who, now, t))
  }

  /** The promise for an interval of the given length. */
  function Allowance(limits: Limits, who: Who, span: nat): nat {
    if who.Everybody? then limits.globalBurst + CeilDiv(span, limits.globalRefillMs)
    else limits.sourceBurst + CeilDiv(span, limits.sourceRefillMs)
  }

  // --- what a step costs -------------------------------------------------------------------------------------

  lemma SysWaits(s: Sys, who: Who, now: nat, later: nat, t: nat)
    requires SysOk(s, now) && now <= later <= t
    ensures SysOk(s, later)
    ensures SysCredit(s, who, later, t) <= SysCredit(s, who, now, t)
    ensures GateCredit(s.live, who, later, t) <= GateCredit(s.live, who, now, t)
  {
    hide GlobalCredit, SourceCredit;
    var source := if who.Only? then who.source else [];
    GateWaits(s.live, source, now, later, t);
    GateWaits(s.saved, source, now, later, t);
  }

  /** Each session opened costs a unit of the system's credit, and nothing restores it: not a restart. */
  lemma StepCredit(s: Sys, e: Event, who: Who, now: nat, t: nat)
    requires SysOk(s, now) && now <= TimeOf(e, now) <= t && !e.Configure?
    ensures SysOk(Step(s, e), TimeOf(e, now))
    ensures Durable(e) ==>
              SysCredit(Step(s, e), who, TimeOf(e, now), t)
              + (if Admitted(s, e) && e.opens && Matches(who, e) then 1 else 0) <= SysCredit(s, who, now, t)
    ensures (e.Restart? ==> s.saved == s.live) ==>
              GateCredit(Step(s, e).live, who, TimeOf(e, now), t)
              + (if Admitted(s, e) && Matches(who, e) then 1 else 0) <= GateCredit(s.live, who, now, t)
  {
    hide GlobalCredit, SourceCredit, Admit, Admits;
    var source := if who.Only? then who.source else [];
    SysWaits(s, who, now, TimeOf(e, now), t);
    if e.Init? {
      AdmitCredit(s.live, e.source, source, e.now, t);
    }
  }

  lemma {:induction false} RunCredit(s: Sys, es: seq<Event>, who: Who, now: nat, t: nat)
    requires SysOk(s, now) && Timely(es, now) && End(es, now) <= t && now <= t && KeepsLimits(es)
    ensures (forall e :: e in es ==> Durable(e)) ==> CountOpened(s, es, who) <= SysCredit(s, who, now, t)
    ensures Flushed(s, es) ==> CountAdmitted(s, es, who) <= GateCredit(s.live, who, now, t)
    decreases es
  {
    hide SysCredit, GateCredit, Admitted, Step, SysOk, Durable;
    if es != [] {
      TimelyEnd(es, now);
      StepCredit(s, es[0], who, now, t);
      RunCredit(Step(s, es[0]), es[1..], who, TimeOf(es[0], now), t);
    }
  }

  lemma {:induction false} TimelyEnd(es: seq<Event>, now: nat)
    requires Timely(es, now)
    ensures es != [] ==> now <= TimeOf(es[0], now) <= End(es, now)
    ensures now <= End(es, now)
  {
    if es != [] {
      TimelyEnd(es[1..], TimeOf(es[0], now));
    }
  }

  lemma NewGateOk(limits: Limits, now: nat)
    requires Fits(limits)
    ensures GateOk(NewGate(limits, now), now)
  {
  }

  lemma StepOk(s: Sys, e: Event, now: nat)
    requires SysOk(s, now) && now <= TimeOf(e, now) && (e.Configure? ==> Fits(e.limits))
    ensures SysOk(Step(s, e), TimeOf(e, now))
  {
    hide GateOk, NewGate, Fits;
    if e.Configure? {
      SysWaits(s, Everybody, now, e.now, e.now);
      NewGateOk(e.limits, e.now);
    } else {
      StepCredit(s, e, Everybody, now, TimeOf(e, now));
    }
  }

  lemma {:induction false} RunOk(s: Sys, es: seq<Event>, now: nat)
    requires SysOk(s, now) && Timely(es, now) && Fitting(es)
    ensures SysOk(Run(s, es), End(es, now))
    decreases es
  {
    hide Step, SysOk, Fits;
    if es != [] {
      StepOk(s, es[0], now);
      RunOk(Step(s, es[0]), es[1..], TimeOf(es[0], now));
    }
  }

  // --- the bounds --------------------------------------------------------------------------------------------

  function Fresh(limits: Limits, now: nat): Sys {
    Sys(NewGate(limits, now), NewGate(limits, now))
  }

  /** The state a run reaches by the time an interval opens. */
  lemma WindowOpens(limits: Limits, t0: nat, before: seq<Event>, who: Who, t1: nat, t2: nat)
    requires Fits(limits) && Fitting(before)
    requires Timely(before, t0) && End(before, t0) <= t1 <= t2
    ensures var s := Run(Fresh(limits, t0), before);
            && SysOk(s, t1)
            && (s.saved.limits == s.live.limits ==>
                  SysCredit(s, who, t1, t2) <= Allowance(s.live.limits, who, t2 - t1))
            && GateCredit(s.live, who, t1, t2) <= Allowance(s.live.limits, who, t2 - t1)
  {
    hide GlobalCredit, SourceCredit, CeilDiv, GateOk, NewGate;
    var s := Run(Fresh(limits, t0), before);
    NewGateOk(limits, t0);
    RunOk(Fresh(limits, t0), before, t0);
    SysWaits(s, who, End(before, t0), t1, t2);
    var source := if who.Only? then who.source else [];
    GateCreditBound(s.live, source, t1, t2);
    GateCreditBound(s.saved, source, t1, t2);
  }

  /**
   * In any interval [t1, t2] of any run, restarts anywhere in it, at most a burst and one session per
   * interval begun are opened, in all and for each source, under whatever policy is in force by then.
   */
  lemma OpenedBound(limits: Limits, t0: nat, before: seq<Event>, during: seq<Event>, who: Who, t1: nat, t2: nat)
    requires Fits(limits) && Fitting(before) && KeepsLimits(during) && forall e :: e in during ==> Durable(e)
    requires Timely(before, t0) && End(before, t0) <= t1 <= t2
    requires Timely(during, t1) && End(during, t1) <= t2
    requires var s := Run(Fresh(limits, t0), before); s.saved.limits == s.live.limits
    ensures var s := Run(Fresh(limits, t0), before);
            CountOpened(s, during, who) <= Allowance(s.live.limits, who, t2 - t1)
  {
    hide Run, SysCredit, GateCredit, Allowance, Durable, SysOk, KeepsLimits, Fits, Fitting;
    WindowOpens(limits, t0, before, who, t1, t2);
    RunCredit(Run(Fresh(limits, t0), before), during, who, t1, t2);
  }

  /** The same bound holds of every admission, opened or not, while every restart finds the live gate in the journal. */
  lemma AdmittedBound(limits: Limits, t0: nat, before: seq<Event>, during: seq<Event>, who: Who, t1: nat, t2: nat)
    requires Fits(limits) && Fitting(before) && KeepsLimits(during)
    requires Timely(before, t0) && End(before, t0) <= t1 <= t2
    requires Timely(during, t1) && End(during, t1) <= t2
    requires Flushed(Run(Fresh(limits, t0), before), during)
    ensures var s := Run(Fresh(limits, t0), before);
            CountAdmitted(s, during, who) <= Allowance(s.live.limits, who, t2 - t1)
  {
    hide Run, SysCredit, GateCredit, Allowance, SysOk, KeepsLimits, Fits, Fitting, Flushed;
    WindowOpens(limits, t0, before, who, t1, t2);
    RunCredit(Run(Fresh(limits, t0), before), during, who, t1, t2);
  }

  /** The number of prekeys a published bundle carries. */
  const DEFAULT_OPKS: nat := 8

  /** With the shipped limits no 90 seconds of flooding empties a freshly published prekey pool. */
  lemma PoolSurvivesFlood(t0: nat, before: seq<Event>, during: seq<Event>, t1: nat, t2: nat)
    requires Timely(before, t0) && End(before, t0) <= t1 <= t2 <= t1 + 90_000
    requires Timely(during, t1) && End(during, t1) <= t2
    requires KeepsLimits(before) && KeepsLimits(during) && forall e :: e in during ==> Durable(e)
    ensures CountOpened(Run(Fresh(DEFAULT_LIMITS, t0), before), during, Everybody) < DEFAULT_OPKS
  {
    LimitsStay(Fresh(DEFAULT_LIMITS, t0), before);
    OpenedBound(DEFAULT_LIMITS, t0, before, during, Everybody, t1, t2);
  }

  lemma {:induction false} LimitsStay(s: Sys, es: seq<Event>)
    requires KeepsLimits(es) && s.saved.limits == s.live.limits
    ensures Run(s, es).live.limits == Run(s, es).saved.limits == s.live.limits
    decreases es
  {
    hide Admits, Refill;
    if es != [] {
      LimitsStay(Step(s, es[0]), es[1..]);
    }
  }

  // --- restarts that refund ----------------------------------------------------------------------------------

  /**
   * The bound on admissions does not survive every restart: an admitted init whose session does not open
   * is not checkpointed, so its token comes back.
   */
  lemma RestartRefundsFailedInit(source: Ik)
    ensures var limits, e := Limits(1, 0, 2, 0), Init(source, 0, false, true);
            && CountAdmitted(Fresh(limits, 0), [e, Restart, e], Everybody) == 2
            && Allowance(limits, Everybody, 0) == 1
  {
    var limits := Limits(1, 0, 2, 0);
    var e, s := Init(source, 0, false, true), Fresh(limits, 0);
    var during := [e, Restart, e];
    assert during[1..] == [Restart, e] && during[1..][1..] == [e] && during[1..][1..][1..] == [];
    assert |Charged(s.live, source, 0).perSource| == 1;
    var s1 := Step(s, e);
    var s2 := Step(s1, Restart);
    assert s2 == s;
    assert Admitted(s, e);
    assert CountAdmitted(s2, [e], Everybody) == 1 + CountAdmitted(Step(s2, e), [], Everybody);
  }

  /** Without a failed init nothing is refunded: if every admitted init opens its session, both counts agree. */
  lemma {:induction false} AllOpenedAgree(s: Sys, es: seq<Event>, who: Who)
    requires forall e :: e in es && e.Init? ==> e.opens
    ensures CountAdmitted(s, es, who) == CountOpened(s, es, who)
    decreases es
  {
    if es != [] {
      AllOpenedAgree(Step(s, es[0]), es[1..], who);
    }
  }

  predicate Inits(es: seq<Event>) { forall e :: e in es ==> e.Init? }

  /** A policy under which nobody is ever admitted. */
  predicate Shut(limits: Limits) { limits.globalBurst == 0 || limits.sourceBurst == 0 }

  lemma {:induction false} LongerThanAll(keys: set<Ik>) returns (n: nat)
    ensures forall k :: k in keys ==> |k| < n
  {
    n := 0;
    if keys != {} {
      var x :| x in keys;
      n := LongerThanAll(keys - {x});
      n := Max(n, |x| + 1);
    }
  }

  /** A source that has no bucket. */
  lemma NewSource(g: Gate) returns (source: Ik)
    ensures source !in g.perSource
  {
    var n := LongerThanAll(g.perSource.Keys);
    source := seq(n, _ => 0);
  }

  /** A new source is admitted while a token is left, and takes it. */
  lemma NewSourceTakes(g: Gate, source: Ik, now: nat, t: nat)
    requires GateOk(g, now) && now <= t && source !in g.perSource && !Shut(g.limits)
    requires Refill(g.global, now).tokens > 0
    ensures Admits(g, source, now) && GateOk(Admit(g, source, now), now) && Admit(g, source, now).limits == g.limits
    ensures GlobalCredit(Admit(g, source, now), now, t) + 1 == GlobalCredit(g, now, t)
  {
    AdmitCredit(g, source, source, now, t);
    ChargedCredit(g, source, source, now, t);
    PrunedCredit(Charged(g, source, now), source, now, t);
    FreshCredit(g.limits.sourceBurst, g.limits.sourceRefillMs, now, now, t);
    hide Refill, Credit, GateOk;
  }

  /** With no token left but some credit, the next refill is one token, due by the horizon. */
  lemma NextRefill(b: Bucket, capacity: nat, refillMs: nat, now: nat, t: nat) returns (later: nat)
    requires BucketOk(b, capacity, refillMs) && capacity > 0 && now <= t
    requires Refill(b, now).tokens == 0 && Credit(Refill(b, now), t) > 0
    ensures now < later <= t && Refill(b, later).tokens > 0
    ensures Credit(Refill(b, later), t) == Credit(Refill(b, now), t)
  {
    RefillCredit(b, capacity, refillMs, now, t);
    var r := Refill(b, now);
    later := r.last + refillMs;
    hide Refill;
    OneInterval(t - r.last, refillMs);
    RefillTwice(b, capacity, refillMs, now, later);
    OneRefill(r, capacity, refillMs);
    IntervalsSplit(t - r.last, 1, refillMs);
  }

  lemma OneInterval(span: int, interval: nat)
    requires Intervals(span, interval) > 0
    ensures interval > 0 && span >= interval
  {
    if interval > 0 && span > 0 {
      DivBelow(span, 1, interval);
    }
  }

  lemma OneRefill(b: Bucket, capacity: nat, refillMs: nat)
    requires BucketOk(b, capacity, refillMs) && capacity > 0 && refillMs > 0 && b.tokens == 0
    ensures Refill(b, b.last + refillMs) == b.(tokens := 1, last := b.last + refillMs)
  {
    DivShift(0, 1, refillMs);
    QuotientOfZero(refillMs);
  }

  lemma TimelyEarlier(es: seq<Event>, now: nat, later: nat)
    requires now <= later && Timely(es, later) && Inits(es)
    ensures Timely(es, now) && End(es, now) <= End(es, later)
  {
  }

  lemma AdmittedFirst(s: Sys, e: Event, es: seq<Event>)
    requires e.Init?
    ensures CountAdmitted(s, [e] + es, Everybody)
         == (if Admitted(s, e) then 1 else 0) + CountAdmitted(Step(s, e), es, Everybody)
    ensures CountAdmitted(s, [Restart] + es, Everybody) == CountAdmitted(Step(s, Restart), es, Everybody)
  {
    hide Step, Admitted;
    assert ([e] + es)[1..] == es && ([Restart] + es)[1..] == es;
  }

  /** The credit is no more than what can be had: sources enough, arriving as tokens do, are admitted for all of it. */
  lemma {:induction false} CreditIsReached(s: Sys, now: nat, t: nat) returns (es: seq<Event>)
    requires GateOk(s.live, now) && now <= t && !Shut(s.live.limits)
    ensures Inits(es) && Timely(es, now) && End(es, now) <= t
    ensures CountAdmitted(s, es, Everybody) == GateCredit(s.live, Everybody, now, t)
    decreases GlobalCredit(s.live, now, t), t - now
  {
    hide Refill, Credit, GateOk, Admit, Admits, CountAdmitted;
    var g := s.live;
    if GlobalCredit(g, now, t) == 0 {
      es := [];
      NoneAdmitted(s);
    } else if Refill(g.global, now).tokens > 0 {
      var source := NewSource(g);
      NewSourceTakes(g, source, now, t);
      var e := Init(source, now, false, false);
      var rest := CreditIsReached(Step(s, e), now, t);
      es := [e] + rest;
      assert es[1..] == rest;
      AdmittedFirst(s, e, rest);
    } else {
      GlobalOk(g, now);
      var later := NextRefill(g.global, g.limits.globalBurst, g.limits.globalRefillMs, now, t);
      GateWaits(g, [], now, later, t);
      es := CreditIsReached(s, later, t);
      TimelyEarlier(es, now, later);
    }
  }

  lemma NoneAdmitted(s: Sys)
    ensures CountAdmitted(s, [], Everybody) == 0
  {
  }

  lemma GlobalOk(g: Gate, now: nat)
    requires GateOk(g, now)
    ensures BucketOk(g.global, g.limits.globalBurst, g.limits.globalRefillMs)
  {
  }

  lemma {:induction false} ShutAdmitsNobody(s: Sys, es: seq<Event>, now: nat)
    requires SysOk(s, now) && Timely(es, now) && Inits(es) && Shut(s.live.limits)
    ensures CountAdmitted(s, es, Everybody) == 0
    decreases es
  {
    if es != [] {
      var e, g := es[0], s.live;
      SysWaits(s, Everybody, now, e.now, e.now);
      AdmitCredit(g, e.source, e.source, e.now, e.now);
      SourceBucketOk(g, e.source, e.now);
      RefillCredit(SourceBucket(g, e.source, e.now), g.limits.sourceBurst, g.limits.sourceRefillMs, e.now, e.now);
      RefillCredit(g.global, g.limits.globalBurst, g.limits.globalRefillMs, e.now, e.now);
      hide Refill, Credit, Admit, SourceBucket;
      ShutAdmitsNobody(Step(s, e), es[1..], e.now);
    }
  }

  lemma {:induction false} InitsAreFlushed(s: Sys, es: seq<Event>)
    requires Inits(es)
    ensures Flushed(s, es) && KeepsLimits(es)
    decreases es
  {
    hide Step;
    if es != [] {
      assert es[0] in es;
      InitsAreFlushed(Step(s, es[0]), es[1..]);
    }
  }

  /**
   * Exactly when a restart keeps the bound: whoever calls between now and t, no more are admitted after the restart
   * than the gate before it could still pay for, if and only if the gate in the journal can pay for no more, or
   * admits nobody.
   */
  lemma RestartKeepsBound(s: Sys, now: nat, t: nat)
    requires SysOk(s, now) && now <= t
    ensures (forall es :: Inits(es) && Timely(es, now) && End(es, now) <= t ==>
               CountAdmitted(s, [Restart] + es, Everybody) <= GateCredit(s.live, Everybody, now, t))
            <==> GateCredit(s.saved, Everybody, now, t) <= GateCredit(s.live, Everybody, now, t) || Shut(s.saved.limits)
  {
    hide GateOk, GateCredit, CountAdmitted, Timely, End, Flushed, KeepsLimits, Inits, Shut;
    var back := Step(s, Restart);
    forall es | Inits(es) && Timely(es, now) && End(es, now) <= t
      ensures CountAdmitted(s, [Restart] + es, Everybody) <= GateCredit(s.saved, Everybody, now, t)
      ensures Shut(s.saved.limits) ==> CountAdmitted(s, [Restart] + es, Everybody) == 0
    {
      AdmittedFirst(s, Init([], now, false, false), es);
      InitsAreFlushed(back, es);
      RunCredit(back, es, Everybody, now, t);
      if Shut(s.saved.limits) {
        ShutAdmitsNobody(back, es, now);
      }
    }
    if !Shut(s.saved.limits) {
      var es := CreditIsReached(back, now, t);
      AdmittedFirst(s, Init([], now, false, false), es);
      assert CountAdmitted(s, [Restart] + es, Everybody) == GateCredit(s.saved, Everybody, now, t);
    }
  }
}
