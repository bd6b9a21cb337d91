/** The bounds of the admission gate, for the prekeys a running and restarting node spends. */
module PrekeyBudget {
  import opened Prelude
  import opened Mote
  import opened Outbound
  import opened Delivery
  import opened Receiving
  import opened Journaling
  import RateGate
  import GateRuns
  import Seen

  /** The gate in memory and the one a restart would take back. */
  function GateOf(n: Node): GateRuns.Sys {
    GateRuns.Sys(n.live.gate, if n.journal.disk.gate.Some? then n.journal.disk.gate.value
                              else RateGate.NewGate(RateGate.DEFAULT_LIMITS, BOOT_MS))
  }

  /** A checkpoint asked for now gets into the journal now. */
  predicate SavesNow(j: Journal) { j.healthy && !j.deferred }

  /** What an operation is to the gate. */
  function EventsOf(core: Core, n: Node, op: Op): seq<GateRuns.Event> {
    if op.Do? && op.action.DeniableAccept? then
      if op.action.bound then [GateRuns.Init(op.action.root, n.live.now, op.action.opens, SavesNow(n.journal))] else []
    else if op.Do? && op.action.ConfigureGate? then
      [GateRuns.Configure(op.action.limits, n.live.now, SavesNow(n.journal))]
    else if op.Restart? then
      if Restorable(core, n.journal.disk) then [GateRuns.Restart] else []
    else if n.journal.healthy && Perform(core, n, op).journal.saves > n.journal.saves then [GateRuns.Checkpoint]
    else []
  }

  function RunEvents(core: Core, n: Node, ops: seq<Op>): seq<GateRuns.Event> {
    if ops == [] then []
    else
      var before := ops[..|ops| - 1];
      RunEvents(core, n, before) + EventsOf(core, Run(core, n, before), ops[|ops| - 1])
  }

  /** Whether the operation passes the gate. */
  predicate Passes(n: Node, op: Op) {
    op.Do? && op.action.DeniableAccept? && op.action.bound && RateGate.Admits(n.live.gate, op.action.root, n.live.now)
  }

  /** Whether it opens a deniable session, which is what spends a prekey for good. */
  predicate Spends(n: Node, op: Op) { Passes(n, op) && op.action.opens }

  predicate By(op: Op, who: GateRuns.Who) {
    op.Do? && op.action.DeniableAccept? && (who.Only? ==> op.action.root == who.source)
  }

  function Spent(core: Core, n: Node, ops: seq<Op>, who: GateRuns.Who): nat {
    if ops == [] then 0
    else
      var before, op := Run(core, n, ops[..|ops| - 1]), ops[|ops| - 1];
      Spent(core, n, ops[..|ops| - 1], who) + (if Spends(before, op) && By(op, who) then 1 else 0)
  }

  /** The inits that get past the gate, whether or not their sessions open. */
  function Passed(core: Core, n: Node, ops: seq<Op>, who: GateRuns.Who): nat {
    if ops == [] then 0
    else
      var before, op := Run(core, n, ops[..|ops| - 1]), ops[|ops| - 1];
      Passed(core, n, ops[..|ops| - 1], who) + (if Passes(before, op) && By(op, who) then 1 else 0)
  }

  // --- one operation -----------------------------------------------------------------------------------------

  lemma EffectOnGate(core: Core, l: Live, a: Action, outside: Outside)
    requires !a.DeniableAccept? && !a.ConfigureGate?
    ensures Effect(core, l, a, outside).0.gate == l.gate
  {
    hide Dispatch, SealedEntry, RetriedQueue, RetrySent, TickOutbound, SendRefusal, ReceiveMote, Took;
    if a.Arrive? && a.frame.MoteFrame? {
      ReceiveMoteCases(core, l, a.from, a.frame.bytes, a.verdict);
    }
  }

  lemma RunShort(s: GateRuns.Sys, e: GateRuns.Event)
    ensures GateRuns.Run(s, []) == s && GateRuns.Run(s, [e]) == GateRuns.Step(s, e)
  {
    hide GateRuns.Step;
    assert [e][1..] == [];
  }

  /** Each operation moves both gates as its events do, whatever state the node and its journal are in. */
  lemma GateStep(core: Core, n: Node, op: Op)
    ensures GateOf(Perform(core, n, op)) == GateRuns.Run(GateOf(n), EventsOf(core, n, op))
  {
    hide RateGate.Admit, RateGate.Admits, RateGate.NewGate, Persisted, Seen.Pairs, RankedMarks, IntoEntry,
         Seen.RecordAll, GateRuns.Run;
    RunShort(GateOf(n), GateRuns.Checkpoint);
    RunShort(GateOf(n), GateRuns.Restart);
    if op.Do? && op.action.DeniableAccept? {
      RunShort(GateOf(n), GateRuns.Init(op.action.root, n.live.now, op.action.opens, SavesNow(n.journal)));
    } else if op.Do? && op.action.ConfigureGate? {
      RunShort(GateOf(n), GateRuns.Configure(op.action.limits, n.live.now, SavesNow(n.journal)));
    } else if op.Do? {
      EffectOnGate(core, n.live, op.action, op.outside);
      hide Effect;
    }
  }

  /** A prekey is spent exactly when the gate opens a session. */
  lemma CountStep(core: Core, n: Node, op: Op, who: GateRuns.Who)
    ensures GateRuns.CountOpened(GateOf(n), EventsOf(core, n, op), who)
         == if Spends(n, op) && By(op, who) then 1 else 0
    ensures GateRuns.CountAdmitted(GateOf(n), EventsOf(core, n, op), who)
         == if Passes(n, op) && By(op, who) then 1 else 0
  {
    hide RateGate.Admits, Perform, Restorable, SavesNow;
    var es := EventsOf(core, n, op);
    if es != [] {
      assert es[1..] == [];
    }
  }

  // --- whole runs --------------------------------------------------------------------------------------------

  lemma {:induction false} CountAppend(s: GateRuns.Sys, xs: seq<GateRuns.Event>, ys: seq<GateRuns.Event>,
                                       who: GateRuns.Who)
    ensures GateRuns.Run(s, xs + ys) == GateRuns.Run(GateRuns.Run(s, xs), ys)
    ensures GateRuns.CountOpened(s, xs + ys, who)
         == GateRuns.CountOpened(s, xs, who) + GateRuns.CountOpened(GateRuns.Run(s, xs), ys, who)
    ensures GateRuns.CountAdmitted(s, xs + ys, who)
         == GateRuns.CountAdmitted(s, xs, who) + GateRuns.CountAdmitted(GateRuns.Run(s, xs), ys, who)
    decreases xs
  {
    hide GateRuns.Step, GateRuns.Admitted;
    if xs == [] {
      assert xs + ys == ys;
    } else {
      assert (xs + ys)[1..] == xs[1..] + ys;
      CountAppend(GateRuns.Step(s, xs[0]), xs[1..], ys, who);
    }
  }

  lemma {:induction false} RunAsEvents(core: Core, n: Node, ops: seq<Op>, who: GateRuns.Who)
    ensures GateOf(Run(core, n, ops)) == GateRuns.Run(GateOf(n), RunEvents(core, n, ops))
    ensures Spent(core, n, ops, who) == GateRuns.CountOpened(GateOf(n), RunEvents(core, n, ops), who)
    ensures Passed(core, n, ops, who) == GateRuns.CountAdmitted(GateOf(n), RunEvents(core, n, ops), who)
  {
    hide Perform, GateRuns.Run, GateRuns.CountOpened, GateRuns.CountAdmitted, EventsOf, Spends, Passes, GateOf;
    if ops == [] {
      EmptyEvents(GateOf(n), who);
    } else {
      var init, op := ops[..|ops| - 1], ops[|ops| - 1];
      var before := Run(core, n, init);
      RunAsEvents(core, n, init, who);
      GateStep(core, before, op);
      CountStep(core, before, op, who);
      CountAppend(GateOf(n), RunEvents(core, n, init), EventsOf(core, before, op), who);
    }
  }

  lemma EmptyEvents(s: GateRuns.Sys, who: GateRuns.Who)
    ensures GateRuns.Run(s, []) == s && GateRuns.CountOpened(s, [], who) == 0 && GateRuns.CountAdmitted(s, [], who) == 0
  {
  }

  lemma FirstGate(ik: Ik)
    ensures GateOf(First(ik)) == GateRuns.Fresh(RateGate.DEFAULT_LIMITS, BOOT_MS)
  {
  }

  // --- the budget --------------------------------------------------------------------------------------------

  /** Operations at clock readings that do not go back, configured with 32-bit limits, up to time t. */
  ghost predicate Clocked(es: seq<GateRuns.Event>, from: nat, t: nat) {
    GateRuns.Timely(es, from) && GateRuns.End(es, from) <= t && GateRuns.Fitting(es)
  }

  /**
   * The prekey budget: in any interval [t1, t2] of the life of a node, restarts included, sessions opened by
   * unsolicited inits number at most a burst and one per refill interval begun, in all and from each source, under
   * the policy in force.  The clock the inits are seen under does not go back, and what opens a session is saved.
   */
  lemma PrekeyBound(core: Core, ik: Ik, before: seq<Op>, during: seq<Op>, who: GateRuns.Who, t1: nat, t2: nat)
    requires t1 <= t2 && Clocked(RunEvents(core, First(ik), before), BOOT_MS, t1)
    requires var n := Run(core, First(ik), before);
             var es := RunEvents(core, n, during);
             && GateOf(n).saved.limits == n.live.gate.limits
             && Clocked(es, t1, t2) && GateRuns.KeepsLimits(es) && forall e :: e in es ==> GateRuns.Durable(e)
    ensures var n := Run(core, First(ik), before);
            Spent(core, n, during, who) <= GateRuns.Allowance(n.live.gate.limits, who, t2 - t1)
  {
    hide Run, RunEvents, Spent, Passed, GateRuns.Allowance, GateRuns.CountOpened, GateRuns.CountAdmitted, GateRuns.Run,
         GateRuns.Timely, GateRuns.End, GateRuns.Durable, RateGate.NewGate, GateRuns.KeepsLimits, GateRuns.Fitting;
    var n := Run(core, First(ik), before);
    FirstGate(ik);
    RunAsEvents(core, First(ik), before, who);
    RunAsEvents(core, n, during, who);
    GateRuns.OpenedBound(RateGate.DEFAULT_LIMITS, BOOT_MS, RunEvents(core, First(ik), before),
                         RunEvents(core, n, during), who, t1, t2);
  }

  /**
   * The same for every init that gets past the gate, failing saves included, as long as each restart finds the live
   * gate in the journal.
   */
  lemma PassedBound(core: Core, ik: Ik, before: seq<Op>, during: seq<Op>, who: GateRuns.Who, t1: nat, t2: nat)
    requires t1 <= t2 && Clocked(RunEvents(core, First(ik), before), BOOT_MS, t1)
    requires var n := Run(core, First(ik), before);
             var es := RunEvents(core, n, during);
             Clocked(es, t1, t2) && GateRuns.KeepsLimits(es) && GateRuns.Flushed(GateOf(n), es)
    ensures var n := Run(core, First(ik), before);
            Passed(core, n, during, who) <= GateRuns.Allowance(n.live.gate.limits, who, t2 - t1)
  {
    hide Run, RunEvents, Spent, Passed, GateRuns.Allowance, GateRuns.CountOpened, GateRuns.CountAdmitted, GateRuns.Run,
         GateRuns.Timely, GateRuns.End, GateRuns.Flushed, RateGate.NewGate, GateRuns.KeepsLimits, GateRuns.Fitting;
    var n := Run(core, First(ik), before);
    FirstGate(ik);
    RunAsEvents(core, First(ik), before, who);
    RunAsEvents(core, n, during, who);
    GateRuns.AdmittedBound(RateGate.DEFAULT_LIMITS, BOOT_MS, RunEvents(core, First(ik), before),
                           RunEvents(core, n, during), who, t1, t2);
  }

  // --- orderly nodes -----------------------------------------------------------------------------------------

  /** The gate is not called or configured in the middle of a poll batch: each of the three borrows the node. */
  predicate NotInBatch(ops: seq<Op>) {
    forall i :: 0 <= i < |ops| && ops[i].Do? && (ops[i].action.DeniableAccept? || ops[i].action.ConfigureGate?) ==>
      !Open(ops[..i])
  }

  predicate KeepsPolicy(ops: seq<Op>) {
    forall i :: 0 <= i < |ops| ==> !(ops[i].Do? && ops[i].action.ConfigureGate?)
  }

  predicate SamePolicy(n: Node) { n.journal.healthy && GateOf(n).saved.limits == n.live.gate.limits }

  lemma PerformSavesPolicy(core: Core, n: Node, op: Op)
    requires SamePolicy(n) && !op.Fail?
    requires op.Do? && (op.action.DeniableAccept? || op.action.ConfigureGate?) ==> !n.journal.deferred
    ensures SamePolicy(Perform(core, n, op))
    ensures forall e :: e in EventsOf(core, n, op) ==>
              GateRuns.Durable(e) && (e.Configure? ==> op.Do? && op.action.ConfigureGate?)
  {
    hide Snapshot, Restored, Restorable, Effect, RateGate.Admit, RateGate.Admits, RateGate.NewGate, GateRuns.Run;
    GateStep(core, n, op);
    var m := Perform(core, n, op);
    RunShort(GateOf(n), GateRuns.Checkpoint);
    RunShort(GateOf(n), GateRuns.Restart);
    if op.Do? && op.action.DeniableAccept? {
      RunShort(GateOf(n), GateRuns.Init(op.action.root, n.live.now, op.action.opens, true));
      AdmitKeepsLimits(n.live.gate, op.action.root, n.live.now);
    } else if op.Do? && op.action.ConfigureGate? {
      RunShort(GateOf(n), GateRuns.Configure(op.action.limits, n.live.now, true));
    }
    assert m.journal.healthy;
  }

  lemma AdmitKeepsLimits(g: RateGate.Gate, source: Ik, now: nat)
    ensures RateGate.Admit(g, source, now).limits == g.limits
  {
  }

  lemma {:induction false} RunSavesPolicy(core: Core, n: Node, ops: seq<Op>)
    requires SamePolicy(n) && !n.journal.deferred && Orderly(ops) && NotInBatch(ops)
    ensures var m := Run(core, n, ops); SamePolicy(m) && m.journal.deferred == Open(ops)
    ensures forall e :: e in RunEvents(core, n, ops) ==> GateRuns.Durable(e)
    ensures KeepsPolicy(ops) ==> GateRuns.KeepsLimits(RunEvents(core, n, ops))
  {
    hide Perform, EventsOf, SamePolicy, GateRuns.Durable;
    if ops != [] {
      var init, op := ops[..|ops| - 1], ops[|ops| - 1];
      assert forall i :: 0 <= i < |init| ==> init[i] == ops[i] && init[..i] == ops[..i];
      RunSavesPolicy(core, n, init);
      PerformSavesPolicy(core, Run(core, n, init), op);
      PerformOpens(core, Run(core, n, init), op);
    }
  }

  lemma PerformOpens(core: Core, n: Node, op: Op)
    requires op.Restart? ==> !n.journal.deferred
    ensures Perform(core, n, op).journal.deferred
         == match op case BeginPoll => true case EndPoll | Restart => false case _ => n.journal.deferred
  {
    hide Effect, Snapshot, Restored, Restorable;
  }

  lemma FirstSaves(ik: Ik)
    ensures SamePolicy(First(ik)) && !First(ik).journal.deferred
  {
  }

  /** The budget of a node whose saves succeed and which is not killed inside a batch. */
  lemma OrderlyBudget(core: Core, ik: Ik, before: seq<Op>, during: seq<Op>, who: GateRuns.Who, t1: nat, t2: nat)
    requires Orderly(before) && !Open(before) && NotInBatch(before)
    requires Orderly(during) && NotInBatch(during) && KeepsPolicy(during)
    requires t1 <= t2 && Clocked(RunEvents(core, First(ik), before), BOOT_MS, t1)
    requires Clocked(RunEvents(core, Run(core, First(ik), before), during), t1, t2)
    ensures var n := Run(core, First(ik), before);
            Spent(core, n, during, who) <= GateRuns.Allowance(n.live.gate.limits, who, t2 - t1)
  {
    hide Run, RunEvents, Spent, GateRuns.Allowance, Clocked, NotInBatch, KeepsPolicy, Orderly, GateRuns.KeepsLimits,
         GateRuns.Durable;
    FirstSaves(ik);
    RunSavesPolicy(core, First(ik), before);
    RunSavesPolicy(core, Run(core, First(ik), before), during);
    PrekeyBound(core, ik, before, during, who, t1, t2);
  }
}
