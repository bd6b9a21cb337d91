/** The suite downgrade defence across restarts (node/src/node.rs:1137-1190, 1212, 356-361). */
module SuiteFloor {
  import opened Prelude
  import opened Mote
  import opened Outbound
  import opened Delivery
  import opened EngineOk
  import opened Receiving
  import opened Journaling
  import RateGate
  import Seen

  /** No mark is below a suite accepted from its contact. */
  ghost predicate Floors(accepted: seq<Acceptance>, marks: map<Ik, nat>) {
    forall i :: 0 <= i < |accepted| ==>
      accepted[i].sender in marks && accepted[i].suite <= marks[accepted[i].sender]
  }

  /** The live floors hold, and so do the journal's unless an open batch owes a save. */
  ghost predicate FloorsKept(n: Node) {
    && LiveFloors(n.live)
    && ((n.journal.deferred && n.journal.dirty) || Floors(n.live.trace.accepted, n.journal.disk.marks))
  }

  /** The floors hold for every contact something was accepted from. */
  ghost predicate LiveFloors(l: Live) {
    && Floors(l.trace.accepted, l.marks)
    && forall i :: 0 <= i < |l.trace.accepted| ==> l.trace.accepted[i].sender in l.ranked
  }

  lemma MoteFloors(core: Core, l: Live, from: Ik, bytes: Bytes, v: Verdict)
    requires Lawful(core) && LiveFloors(l)
    ensures LiveFloors(ReceiveMote(core, l, from, bytes, v).0)
  {
    hide ReceiveMote, Seen.Record, Seen.Contains, Filed, Surfaced;
    ReceiveMoteCases(core, l, from, bytes, v);
    ReceiveMoteMarks(core, l, from, bytes, v);
  }

  lemma QuietFloors(core: Core, l: Live, a: Action, outside: Outside)
    requires LiveFloors(l) && !(a.Arrive? && a.frame.MoteFrame?)
    ensures LiveFloors(Effect(core, l, a, outside).0)
  {
    hide Dispatch, SealedEntry, RetryEntry, TickOutbound, SendRefusal, RateGate.Admit, RateGate.Admits;
  }

  /** One operation: the floors still hold, and whatever is newly accepted has its own. */
  lemma EffectOnFloors(core: Core, l: Live, a: Action, outside: Outside)
    requires Lawful(core) && LiveFloors(l)
    ensures var (m, touched) := Effect(core, l, a, outside);
            LiveFloors(m) && (!touched ==> m.trace.accepted == l.trace.accepted)
  {
    hide Effect, ReceiveMote, LiveFloors, Seen.Record, Seen.Contains, Filed, Surfaced;
    EffectOnSeen(core, l, a, outside);
    if a.Arrive? && a.frame.MoteFrame? {
      ReceiveIsEffect(core, l, a, outside);
      MoteFloors(core, l, a.from, a.frame.bytes, a.verdict);
      ReceiveMoteCases(core, l, a.from, a.frame.bytes, a.verdict);
    } else {
      QuietFloors(core, l, a, outside);
    }
  }

  lemma SnapshotFloors(core: Core, l: Live)
    requires LiveFloors(l)
    ensures Floors(l.trace.accepted, Snapshot(core, l).marks)
  {
  }

  lemma PerformFloors(core: Core, n: Node, op: Op)
    requires Lawful(core) && FloorsKept(n) && n.journal.healthy
    requires !op.Fail? && (op.BeginPoll? || op.Restart? ==> !n.journal.deferred)
    ensures FloorsKept(Perform(core, n, op)) && Perform(core, n, op).journal.healthy
  {
    hide Effect, Snapshot, Restorable, Floors, Lawful;
    match op
    case Do(a, outside) =>
      EffectOnFloors(core, n.live, a, outside);
      SnapshotFloors(core, Effect(core, n.live, a, outside).0);
    case EndPoll => SnapshotFloors(core, n.live);
    case Restart =>
      if Restorable(core, n.journal.disk) {
        RestoredTrace(core, n.live.ik, n.live.trace, n.journal.disk);
        assert Floors(n.live.trace.accepted, n.journal.disk.marks);
        FloorsRanked(n.live.trace.accepted, n.journal.disk.marks);
      }
    case _ =>
  }

  lemma FloorsRanked(accepted: seq<Acceptance>, marks: map<Ik, nat>)
    requires Floors(accepted, marks)
    ensures forall i :: 0 <= i < |accepted| ==> accepted[i].sender in marks.Keys
  {
  }

  lemma {:induction false} RunFloors(core: Core, n: Node, ops: seq<Op>)
    requires Lawful(core) && NodeOk(core, n) && Synced(core, n) && !n.journal.deferred && Orderly(ops)
    requires FloorsKept(n)
    ensures FloorsKept(Run(core, n, ops))
  {
    hide Perform, FloorsKept, NodeOk, Lawful, InStep;
    if ops != [] {
      var before := ops[..|ops| - 1];
      RunFloors(core, n, before);
      RunSynced(core, n, before);
      PerformFloors(core, Run(core, n, before), ops[|ops| - 1]);
    }
  }

  /**
   * No downgrade: once a MOTE of some suite was accepted from a contact, no run of the node, restarts
   * included, ever again accepts from that contact a MOTE of a lower suite.
   */
  lemma NoDowngrade(core: Core, ik: Ik, ops: seq<Op>, i: nat, from: Ik, bytes: Bytes, v: Verdict)
    requires Lawful(core) && Orderly(ops)
    requires i < |Run(core, First(ik), ops).live.trace.accepted|
    requires AcceptedOutcome(ReceiveMote(core, Run(core, First(ik), ops).live, from, bytes, v).1)
    ensures var l := Run(core, First(ik), ops).live;
            var last := ReceiveMote(core, l, from, bytes, v).0.trace.accepted[|l.trace.accepted|];
            var earlier := l.trace.accepted[i];
            earlier.sender == last.sender ==> earlier.suite <= last.suite
  {
    hide Run, ReceiveMote, Lawful, NodeOk, Synced, Seen.Record, Seen.Contains;
    FirstOk(core, ik);
    FirstSynced(core, ik);
    RunFloors(core, First(ik), ops);
    ReceiveMoteCases(core, Run(core, First(ik), ops).live, from, bytes, v);
  }

  // --- floors pinned from outside ----------------------------------------------------------------------------

  /** The contact is kept track of under a mark of at least this suite, and the journal knows or is owed a save. */
  ghost predicate Pinned(n: Node, contact: Ik, suite: nat) {
    && AtLeast(n.live.marks, contact, suite) && contact in n.live.ranked
    && ((n.journal.deferred && n.journal.dirty) || AtLeast(n.journal.disk.marks, contact, suite))
  }

  predicate AtLeast(marks: map<Ik, nat>, contact: Ik, suite: nat) { contact in marks && marks[contact] >= suite }

  lemma EffectKeepsPin(core: Core, l: Live, a: Action, outside: Outside, contact: Ik, suite: nat)
    requires Lawful(core) && AtLeast(l.marks, contact, suite) && contact in l.ranked
    ensures var m := Effect(core, l, a, outside).0; AtLeast(m.marks, contact, suite) && contact in m.ranked
  {
    hide Dispatch, SealedEntry, RetrySent, RetriedQueue, TickOutbound, SendRefusal, RateGate.Admit, RateGate.Admits,
         ReceiveMote, Took, Lawful;
    if a.Arrive? && a.frame.MoteFrame? {
      ReceiveMoteCases(core, l, a.from, a.frame.bytes, a.verdict);
      ReceiveMoteMarks(core, l, a.from, a.frame.bytes, a.verdict);
    }
  }

  lemma SnapshotPins(core: Core, l: Live, contact: Ik, suite: nat)
    requires AtLeast(l.marks, contact, suite) && contact in l.ranked
    ensures AtLeast(Snapshot(core, l).marks, contact, suite)
  {
    hide Persisted, Seen.Pairs;
  }

  lemma PerformKeepsPin(core: Core, n: Node, op: Op, contact: Ik, suite: nat)
    requires Lawful(core) && Pinned(n, contact, suite) && n.journal.healthy
    requires !op.Fail? && (op.BeginPoll? || op.Restart? ==> !n.journal.deferred)
    ensures Pinned(Perform(core, n, op), contact, suite) && Perform(core, n, op).journal.healthy
  {
    hide Effect, Snapshot, Restorable, Lawful, Seen.RecordAll, IntoEntry;
    match op
    case Do(a, outside) =>
      EffectKeepsPin(core, n.live, a, outside, contact, suite);
      SnapshotPins(core, Effect(core, n.live, a, outside).0, contact, suite);
      if !Effect(core, n.live, a, outside).1 {
        assert Perform(core, n, op).journal == n.journal;
      }
    case EndPoll => SnapshotPins(core, n.live, contact, suite);
    case _ =>
  }

  lemma {:induction false} RunKeepsPin(core: Core, n: Node, ops: seq<Op>, contact: Ik, suite: nat)
    requires Lawful(core) && NodeOk(core, n) && Synced(core, n) && !n.journal.deferred && Orderly(ops)
    requires Pinned(n, contact, suite)
    ensures Pinned(Run(core, n, ops), contact, suite)
  {
    hide Perform, Pinned, NodeOk, Lawful, InStep;
    if ops != [] {
      var before := ops[..|ops| - 1];
      RunKeepsPin(core, n, before, contact, suite);
      RunSynced(core, n, before);
      PerformKeepsPin(core, Run(core, n, before), ops[|ops| - 1], contact, suite);
    }
  }

  /** Pinning a floor raises the contact's mark to it, never lowers one, and touches no other. */
  lemma PinRaises(core: Core, n: Node, contact: Ik, suite: nat, outside: Outside)
    requires suite in core.suites && n.journal.healthy
    ensures var m := Perform(core, n, Do(PinSuiteFloor(contact, suite), outside));
            && Pinned(m, contact, suite)
            && m.live.marks.Keys == n.live.marks.Keys + {contact}
            && (contact in n.live.marks ==> m.live.marks[contact] == Max(n.live.marks[contact], suite))
            && (contact !in n.live.marks ==> m.live.marks[contact] == suite)
            && forall c :: c in n.live.marks && c != contact ==> m.live.marks[c] == n.live.marks[c]
  {
    hide Persisted, Seen.Pairs;
  }

  /**
   * A floor pinned from outside holds: in every orderly run after it, restarts included, a MOTE of a lower suite
   * that authenticates as the contact's is put off and leaves nothing behind but a request.
   */
  lemma PinnedFloorDefers(core: Core, n: Node, contact: Ik, suite: nat, outside: Outside, ops: seq<Op>, from: Ik,
                          bytes: Bytes, v: Verdict)
    requires Lawful(core) && NodeOk(core, n) && Synced(core, n) && !n.journal.deferred && Orderly(ops)
    requires suite in core.suites && core.decode(bytes).Some?
    requires var l := Run(core, Perform(core, n, Do(PinSuiteFloor(contact, suite), outside)), ops).live;
             var env := core.decode(bytes).value;
             var c := core.check(env, l.ik, from in l.contacts);
             && c.Accepted? && c.payload.from == contact && env.suite < suite
             && !Seen.Contains(l.seen, env.id, l.now)
    ensures var l := Run(core, Perform(core, n, Do(PinSuiteFloor(contact, suite), outside)), ops).live;
            ReceiveMote(core, l, from, bytes, v)
            == (l.(requests := l.requests + [from]), Deferred(core.decode(bytes).value.id))
  {
    hide Run, Perform, NodeOk, Lawful, InStep, ReceiveMote, Seen.Contains;
    var op := Do(PinSuiteFloor(contact, suite), outside);
    var m := Perform(core, n, op);
    PinRaises(core, n, contact, suite, outside);
    PerformKeeps(core, n, op);
    PerformSynced(core, n, op);
    PinStaysClosed(core, n, contact, suite, outside);
    RunKeepsPin(core, m, ops, contact, suite);
    RefusedExactly(core, Run(core, m, ops).live, from, bytes, v);
  }

  lemma PinStaysClosed(core: Core, n: Node, contact: Ik, suite: nat, outside: Outside)
    ensures Perform(core, n, Do(PinSuiteFloor(contact, suite), outside)).journal.deferred == n.journal.deferred
  {
    hide Snapshot;
  }
}
