/** The journal: it keeps up with the node, batching loses nothing, and a restart restores what it holds. */
module Journaling {
  import opened Prelude
  import opened Mote
  import opened Outbound
  import opened Delivery
  import opened EngineOk
  import opened Receiving
  import RateGate
  import Seen

  /** The journal's queue, dedup pairs and mix directories are the live ones. */
  ghost predicate InStep(core: Core, l: Live, d: Disk) {
    d.outbound == Persisted(core, l.outbound) && d.seen == Seen.Pairs(l.seen) && d.mix == l.mix
  }

  /** Either the journal is in step or an open batch owes it a save. */
  ghost predicate Synced(core: Core, n: Node) {
    n.journal.healthy && ((n.journal.deferred && n.journal.dirty) || InStep(core, n.live, n.journal.disk))
  }

  // --- orderly runs ----------------------------------------------------------------------------------------

  /** Whether the operations leave a poll batch open. */
  predicate Open(ops: seq<Op>) {
    ops != [] &&
      match ops[|ops| - 1]
      case BeginPoll => true
      case EndPoll | Restart => false
      case _ => Open(ops[..|ops| - 1])
  }

  /** Saves succeed, batches do not nest, and the process is not killed inside one. */
  predicate Orderly(ops: seq<Op>) {
    ops == [] ||
      var before, last := ops[..|ops| - 1], ops[|ops| - 1];
      Orderly(before) && !last.Fail? && (last.BeginPoll? || last.Restart? ==> !Open(before))
  }

  // --- coherence -------------------------------------------------------------------------------------------

  /** An operation that asks for no checkpoint has changed nothing the journal keeps in step. */
  lemma EffectAsks(core: Core, l: Live, a: Action, outside: Outside)
    ensures var (m, touched) := Effect(core, l, a, outside);
            !touched ==> m.outbound == l.outbound && m.seen == l.seen && m.mix == l.mix
  {
    hide Dispatch, SealedEntry, RetryEntry, TickOutbound, SendRefusal, RateGate.Admit, RateGate.Admits, ReceiveMote,
         Took, Seen.Record;
    if a.Arrive? && a.frame.MoteFrame? {
      ReceiveMoteCases(core, l, a.from, a.frame.bytes, a.verdict);
    }
  }

  /** And a checkpoint is asked for by a change only, or by one of the operations that always end in one. */
  lemma AsksForChange(core: Core, l: Live, a: Action, outside: Outside)
    ensures var (m, touched) := Effect(core, l, a, outside);
            touched ==>
              match a
              case Send(to, env, _, route, probe) => SendRefusal(core, l, env, to, route, probe).None?
              case Arrive(_, frame, _) =>
                (frame.AckFrame? && m.outbound != l.outbound)
                || (frame.MoteFrame? && |m.trace.accepted| == |l.trace.accepted| + 1)
              case Tick => m.outbound != l.outbound
              case IngestMixDirectory(_) => m.mix != l.mix
              case DeniableAccept(root, bound, opens) => bound && opens && RateGate.Admits(l.gate, root, l.now)
              case PinSuiteFloor(_, suite) => suite in core.suites
              case DispatchSealed(_, _) | Retry | ConfigureGate(_) => true
              case SetNow(_) | AddContact(_) | LearnKey(_) | TakeEphemeral => false
  {
    hide Dispatch, SealedEntry, RetryEntry, TickOutbound, SendRefusal, RateGate.Admit, RateGate.Admits, ReceiveMote,
         Seen.Record;
    if a.Arrive? && a.frame.MoteFrame? {
      ReceiveMoteCases(core, l, a.from, a.frame.bytes, a.verdict);
    }
  }

  /** Setting the clock, in either direction, sets the clock. */
  lemma ClockIsSet(core: Core, n: Node, t: nat, outside: Outside)
    ensures Perform(core, n, Do(SetNow(t), outside)) == Node(n.live.(now := t), n.journal)
  {
  }

  /** A save that fails leaves the journal as it was; one that succeeds leaves the snapshot; either counts. */
  lemma SavedExactly(core: Core, l: Live, j: Journal)
    ensures Save(core, l, j).disk == if j.healthy then Snapshot(core, l) else j.disk
    ensures !j.deferred ==> Checkpoint(core, l, j) == Save(core, l, j) && Save(core, l, j).saves == j.saves + 1
    ensures j.deferred ==> Checkpoint(core, l, j).disk == j.disk && Checkpoint(core, l, j).dirty
  {
    hide Snapshot;
  }

  lemma SnapshotInStep(core: Core, l: Live)
    ensures InStep(core, l, Snapshot(core, l))
  {
    hide Persisted, Seen.Pairs;
  }

  lemma StepSynced(core: Core, n: Node, a: Action, outside: Outside)
    requires Synced(core, n)
    ensures Synced(core, Perform(core, n, Do(a, outside)))
  {
    hide Effect, Persisted, Seen.Pairs, Snapshot;
    EffectAsks(core, n.live, a, outside);
    SnapshotInStep(core, Effect(core, n.live, a, outside).0);
  }

  /** What comes back from a journal in step persists to that journal again. */
  lemma RestartInStep(core: Core, n: Node)
    requires Lawful(core) && NodeOk(core, n) && InStep(core, n.live, n.journal.disk)
    requires Restorable(core, n.journal.disk)
    ensures InStep(core, Restored(core, n.live.ik, n.live.trace, n.journal.disk), n.journal.disk)
  {
    hide IntoEntry, FromEntry, EntryOk, Seen.RecordAll, Seen.SetOk, Seen.Pairs, PersistedOk;
    var d := n.journal.disk;
    forall id | id in d.outbound {
      EntryBack(core, d.outbound[id], id, n.live.trace.submitted);
    }
    Seen.RestoreOfPairs(n.live.seen, BOOT_MS);
  }

  lemma PerformSynced(core: Core, n: Node, op: Op)
    requires Lawful(core) && NodeOk(core, n) && Synced(core, n)
    requires !op.Fail? && (op.BeginPoll? || op.Restart? ==> !n.journal.deferred)
    ensures Synced(core, Perform(core, n, op))
  {
    hide Effect, InStep, Snapshot, Restored, Restorable, NodeOk, Lawful;
    match op
    case Do(a, outside) => StepSynced(core, n, a, outside);
    case EndPoll => SnapshotInStep(core, n.live);
    case Restart =>
      if Restorable(core, n.journal.disk) {
        RestartInStep(core, n);
      }
    case _ =>
  }

  lemma {:induction false} RunSynced(core: Core, n: Node, ops: seq<Op>)
    requires Lawful(core) && NodeOk(core, n) && Synced(core, n) && !n.journal.deferred && Orderly(ops)
    ensures Synced(core, Run(core, n, ops)) && Run(core, n, ops).journal.deferred == Open(ops)
  {
    hide Effect, Synced, NodeOk, Lawful, Restored, Restorable, Snapshot;
    if ops != [] {
      var before := ops[..|ops| - 1];
      RunSynced(core, n, before);
      RunKeeps(core, n, before);
      PerformSynced(core, Run(core, n, before), ops[|ops| - 1]);
    }
  }

  lemma FirstSynced(core: Core, ik: Ik)
    ensures Synced(core, First(ik))
  {
    assert Seen.Pairs(Seen.New()) == [];
  }

  /**
   * Coherence: while saves succeed, after every operation outside a poll batch the journal holds exactly
   * the live queue, dedup pairs and mix directories, whatever was sent, received, retried, expired or
   * restarted before.
   */
  lemma JournalKeepsUp(core: Core, ik: Ik, ops: seq<Op>)
    requires Lawful(core) && Orderly(ops) && !Open(ops)
    ensures var n := Run(core, First(ik), ops); InStep(core, n.live, n.journal.disk)
  {
    hide NodeOk, InStep, Run, Lawful;
    FirstOk(core, ik);
    FirstSynced(core, ik);
    RunSynced(core, First(ik), ops);
  }

  // --- coalescing ------------------------------------------------------------------------------------------

  ghost predicate Plain(ops: seq<Op>) { forall i :: 0 <= i < |ops| ==> ops[i].Do? }

  /** The journal never steers the live state. */
  lemma {:induction false} BatchAgrees(core: Core, n: Node, m: Node, ops: seq<Op>)
    requires n.live == m.live && Plain(ops)
    requires !n.journal.deferred && m.journal.deferred && !m.journal.dirty
    ensures var a, b := Run(core, n, ops), Run(core, m, ops);
            && a.live == b.live
            && a.journal.deferred == n.journal.deferred && a.journal.healthy == n.journal.healthy
            && a.journal.saves >= n.journal.saves
            && b.journal == m.journal.(dirty := a.journal.saves > n.journal.saves)
  {
    hide Effect, Snapshot;
    if ops != [] {
      BatchAgrees(core, n, m, ops[..|ops| - 1]);
    }
  }

  lemma {:induction false} RunAppend(core: Core, n: Node, xs: seq<Op>, ys: seq<Op>)
    ensures Run(core, n, xs + ys) == Run(core, Run(core, n, xs), ys)
  {
    hide Perform;
    if ys == [] {
      assert xs + ys == xs;
    } else {
      RunAppend(core, n, xs, ys[..|ys| - 1]);
      assert (xs + ys)[..|xs + ys| - 1] == xs + ys[..|ys| - 1];
    }
  }

  lemma RunOne(core: Core, n: Node, op: Op)
    ensures Run(core, n, [op]) == Perform(core, n, op)
  {
    hide Perform;
    assert Run(core, n, []) == n;
  }

  /** A poll batch of these operations. */
  function Batch(ops: seq<Op>): seq<Op> { [BeginPoll] + ops + [EndPoll] }

  lemma RunBatch(core: Core, n: Node, ops: seq<Op>)
    ensures Run(core, n, Batch(ops)) == Perform(core, Run(core, Perform(core, n, BeginPoll), ops), EndPoll)
  {
    hide Perform;
    RunAppend(core, n, [BeginPoll] + ops, [EndPoll]);
    RunAppend(core, n, [BeginPoll], ops);
    RunOne(core, n, BeginPoll);
    RunOne(core, Run(core, n, [BeginPoll] + ops), EndPoll);
  }

  /**
   * Coalescing refines a save per mutation: the same live state, a journal in step with it, and one save
   * instead of any positive number, none instead of none.
   */
  lemma CoalescingRefines(core: Core, n: Node, ops: seq<Op>)
    requires Lawful(core) && NodeOk(core, n) && Synced(core, n) && !n.journal.deferred && Plain(ops)
    ensures var each, batch := Run(core, n, ops), Run(core, n, Batch(ops));
            && batch.live == each.live
            && InStep(core, batch.live, batch.journal.disk) && InStep(core, each.live, each.journal.disk)
            && batch.journal.disk.outbound == each.journal.disk.outbound
            && batch.journal.disk.seen == each.journal.disk.seen
            && batch.journal.disk.mix == each.journal.disk.mix
            && batch.journal.saves == n.journal.saves + (if each.journal.saves > n.journal.saves then 1 else 0)
  {
    hide Effect, Run, NodeOk, Lawful, Snapshot, Persisted, Seen.Pairs;
    var m := Perform(core, n, BeginPoll);
    BatchAgrees(core, n, m, ops);
    RunBatch(core, n, ops);
    PlainOrderly(ops);
    RunSynced(core, n, ops);
    SnapshotInStep(core, Run(core, m, ops).live);
    if Run(core, n, ops).journal.saves == n.journal.saves {
      NoSaveNoChange(core, n, ops);
    }
  }

  lemma {:induction false} PlainOrderly(ops: seq<Op>)
    requires Plain(ops)
    ensures Orderly(ops) && !Open(ops)
  {
    if ops != [] {
      PlainOrderly(ops[..|ops| - 1]);
    }
  }

  lemma {:induction false} NoSaveNoChange(core: Core, n: Node, ops: seq<Op>)
    requires Plain(ops) && !n.journal.deferred
    ensures Run(core, n, ops).journal.saves >= n.journal.saves && !Run(core, n, ops).journal.deferred
    ensures Run(core, n, ops).journal.saves == n.journal.saves ==> Run(core, n, ops).journal == n.journal
  {
    hide Effect, Snapshot;
    if ops != [] {
      NoSaveNoChange(core, n, ops[..|ops| - 1]);
    }
  }

  // --- what is taken back ----------------------------------------------------------------------------------

  /**
   * A journal is refused whole exactly when some entry has an unknown tag, does not decode or has a foreign id, or
   * some mark is of a suite the core does not know.
   */
  lemma RestorableExactly(core: Core, d: Disk)
    ensures Restorable(core, d) <==>
              && (forall id :: id in d.outbound ==>
                    var p := d.outbound[id];
                    && p.state <= 5 && p.tier <= 1
                    && (p.sealedBytes.Some? ==>
                          && core.decode(p.sealedBytes.value).Some?
                          && core.decode(p.sealedBytes.value).value.id == p.id
                          && p.id == Address(core.decode(p.sealedBytes.value).value.ciphertext)))
              && forall c :: c in d.marks ==> d.marks[c] in core.suites
  {
    hide IntoEntry;
    forall id | id in d.outbound {
      IntoEntryFailsClosed(core, d.outbound[id]);
    }
  }

  /** What no restart brings back: contacts and learnt keys, what was held for reading, the clock. */
  lemma RestartForgets(core: Core, n: Node)
    requires Restorable(core, n.journal.disk)
    ensures var m := Perform(core, n, Restart);
            && m.live.now == 1_700_000_000_000 && m.live.contacts == {} && m.live.directory == {}
            && m.live.inbox == [] && m.live.requests == [] && m.live.ephemeral == [] && m.live.groupInbox == []
            && m.live.ik == n.live.ik && m.live.trace == n.live.trace.(surfaced := [])
            && m.journal == n.journal.(deferred := false, dirty := false)
  {
    hide IntoEntry, Seen.RecordAll, RateGate.NewGate, Restorable;
  }

  // --- restart fidelity ------------------------------------------------------------------------------------

  /**
   * A snapshot is taken back exactly when every queued id is the address of what was sealed under it: the
   * only way to queue anything else is to hand `dispatch_sealed` an envelope under a foreign id.
   */
  lemma SnapshotRestorable(core: Core, l: Live)
    requires Lawful(core) && LiveOk(core, l)
    ensures Restorable(core, Snapshot(core, l)) <==> forall id :: id in l.outbound ==> l.outbound[id].Genuine()
  {
    hide IntoEntry, FromEntry, Seen.Pairs, EntryOk, DedupOk, Lawful;
    forall id | id in l.outbound
      ensures IntoEntry(core, FromEntry(core, l.outbound[id])).Ok? <==> l.outbound[id].Genuine()
    {
      IntoEntryOfFromEntry(core, l.outbound[id]);
    }
    var d := Snapshot(core, l);
    if Restorable(core, d) {
      forall id | id in l.outbound
        ensures l.outbound[id].Genuine()
      {
        assert id in d.outbound;
      }
    }
  }

  /**
   * Fidelity: the rebuilt node has every entry up to path and last onion, the dedup ids in their order
   * from the same senders, the suite mark of every contact a MOTE was accepted from, every mix
   * directory, and the admission gate bit for bit.
   */
  lemma RestartFidelity(core: Core, l: Live)
    requires Lawful(core) && LiveOk(core, l)
    requires forall id :: id in l.outbound ==> l.outbound[id].Genuine()
    ensures Restorable(core, Snapshot(core, l))
    ensures var r := Restored(core, l.ik, l.trace, Snapshot(core, l));
            && r.outbound == (map id | id in l.outbound :: l.outbound[id].Durable())
            && r.seen.order == l.seen.order && r.seen.entries.Keys == l.seen.entries.Keys
            && (forall id :: id in r.seen.entries ==> r.seen.entries[id] == Seen.Meta(l.seen.entries[id].from, BOOT_MS))
            && r.ranked == l.ranked && (forall c :: c in l.ranked ==> c in r.marks && r.marks[c] == l.marks[c])
            && r.mix == l.mix && r.gate == l.gate
  {
    hide IntoEntry, FromEntry, EntryOk, Seen.RecordAll, Seen.Pairs, Seen.SetOk, Lawful;
    SnapshotRestorable(core, l);
    forall id | id in l.outbound
      ensures IntoEntry(core, FromEntry(core, l.outbound[id])) == Ok(l.outbound[id].Durable())
    {
      IntoEntryOfFromEntry(core, l.outbound[id]);
    }
    Seen.RestoreOfPairs(l.seen, BOOT_MS);
  }

  lemma InStepRestores(core: Core, n: Node)
    requires Lawful(core) && NodeOk(core, n) && InStep(core, n.live, n.journal.disk)
    requires forall id :: id in n.live.outbound ==> n.live.outbound[id].Genuine()
    ensures Restorable(core, n.journal.disk)
    ensures var l, r := n.live, Restored(core, n.live.ik, n.live.trace, n.journal.disk);
            && r.outbound == (map id | id in l.outbound :: l.outbound[id].Durable())
            && r.seen.order == l.seen.order && r.seen.entries.Keys == l.seen.entries.Keys
            && r.mix == l.mix
            && forall id, now :: Seen.Contains(r.seen, id, now) <==>
                 id in l.seen.entries && SaturatingSub(now, BOOT_MS) < Seen.DEDUP_WINDOW_MS
  {
    hide IntoEntry, FromEntry, Seen.RecordAll, Seen.Pairs, Seen.SetOk, Lawful, PersistedOk, EntryOk;
    forall id | id in n.live.outbound
      ensures IntoEntry(core, FromEntry(core, n.live.outbound[id])) == Ok(n.live.outbound[id].Durable())
    {
      IntoEntryOfFromEntry(core, n.live.outbound[id]);
    }
    Seen.RestoreOfPairs(n.live.seen, BOOT_MS);
  }

  /**
   * The journal of an orderly run restores the queue, the dedup set and the mix directories of the live
   * node.  The restored ids are stamped with the clock of a bare node, not with the clock the node is set to
   * afterwards: they are recognised exactly while that is within the window of the bare clock.
   */
  lemma RestartResumes(core: Core, ik: Ik, ops: seq<Op>)
    requires Lawful(core) && Orderly(ops) && !Open(ops)
    requires var l := Run(core, First(ik), ops).live; forall id :: id in l.outbound ==> l.outbound[id].Genuine()
    ensures var l, r := Run(core, First(ik), ops).live, Run(core, First(ik), ops + [Restart]).live;
            && r.outbound == (map id | id in l.outbound :: l.outbound[id].Durable())
            && r.seen.order == l.seen.order && r.seen.entries.Keys == l.seen.entries.Keys
            && r.mix == l.mix
            && forall id, now :: Seen.Contains(r.seen, id, now) <==>
                 id in l.seen.entries && SaturatingSub(now, BOOT_MS) < Seen.DEDUP_WINDOW_MS
  {
    hide Seen.Contains, Lawful, Run, NodeOk, InStep, Restorable, Restored;
    var n := Run(core, First(ik), ops);
    FirstOk(core, ik);
    RunKeeps(core, First(ik), ops);
    JournalKeepsUp(core, ik, ops);
    RunAppend(core, First(ik), ops, [Restart]);
    RunOne(core, n, Restart);
    InStepRestores(core, n);
  }

  // --- what a restart does not bring back ------------------------------------------------------------------

  /**
   * The dedup set does not do its work after a restart on a present-day clock: 20 days past the bare clock, a
   * MOTE that is still held, from anybody with nothing else against him, is accepted a second time.
   */
  lemma HeldIsTakenAgain(core: Core, ik: Ik, ops: seq<Op>, from: Ik, bytes: Bytes, v: Verdict, t: nat, outside: Outside)
    requires Lawful(core) && Orderly(ops) && !Open(ops)
    requires var l := Run(core, First(ik), ops).live; forall id :: id in l.outbound ==> l.outbound[id].Genuine()
    requires t >= BOOT_MS + Seen.DEDUP_WINDOW_MS
    requires core.decode(bytes).Some? && core.decode(bytes).value.id in Run(core, First(ik), ops).live.seen.entries
    requires Welcome(core, Run(core, First(ik), ops + [Restart]).live.(now := t), from, core.decode(bytes).value, v)
    ensures var r := Run(core, First(ik), ops + [Restart]).live.(now := t);
            && core.decode(bytes).value.id in r.seen.entries
            && AcceptedOutcome(ReceiveMote(core, r, from, bytes, v).1)
  {
    hide Run, ReceiveMote, Welcome, Seen.Contains, Lawful;
    RestartResumes(core, ik, ops);
    AcceptedExactly(core, Run(core, First(ik), ops + [Restart]).live.(now := t), from, bytes, v);
  }

  /** An envelope under a foreign id, once dispatched, blocks the next restart. */
  lemma ForeignIdBlocksRestart(core: Core, n: Node, to: Ik, env: Envelope, outside: Outside)
    requires Lawful(core) && NodeOk(core, n) && n.journal.healthy && !n.journal.deferred && !env.Verified()
    ensures var m := Perform(core, n, Do(DispatchSealed(to, env), outside));
            !Restorable(core, m.journal.disk) && Perform(core, m, Restart) == m
  {
    hide NodeOk, Lawful, Restorable, Dispatch, SealedEntry, Restored;
    var op := Do(DispatchSealed(to, env), outside);
    var m := Perform(core, n, op);
    PerformKeeps(core, n, op);
    NodeLive(core, m);
    ForeignIsNotGenuine(core, n.live, to, env, outside);
    SnapshotRestorable(core, m.live);
    hide Snapshot;
  }

  lemma NodeLive(core: Core, n: Node)
    requires NodeOk(core, n)
    ensures LiveOk(core, n.live)
  {
  }

  lemma ForeignIsNotGenuine(core: Core, l: Live, to: Ik, env: Envelope, outside: Outside)
    requires !env.Verified()
    ensures var q := Track(core, l, env, to, None, None, outside).outbound; env.id in q && !q[env.id].Genuine()
  {
    hide WireFrame;
    WireFrameKeeps(core, SealedEntry(env, to, l.now, None, None), outside.seed(env.id));
  }

  /** Nothing else does: while every submitted envelope is genuine, every snapshot is taken back. */
  lemma GenuineRestarts(core: Core, n: Node)
    requires Lawful(core) && NodeOk(core, n) && forall e :: e in n.live.trace.submitted ==> e.Verified()
    ensures Restorable(core, Snapshot(core, n.live))
  {
    hide Lawful, Restorable, Snapshot, DedupOk, DiskOk, MarksOk;
    forall id | id in n.live.outbound
      ensures n.live.outbound[id].Genuine()
    {
      assert EntryOk(core, n.live.outbound[id], id, n.live.trace.submitted);
    }
    SnapshotRestorable(core, n.live);
  }

  /** A kill inside a poll batch undoes the batch: the node comes back as the journal had it before. */
  lemma KillForgetsBatch(core: Core, n: Node, ops: seq<Op>)
    requires Plain(ops) && !n.journal.deferred && Restorable(core, n.journal.disk)
    ensures Run(core, n, [BeginPoll] + ops + [Restart]).live
         == Restored(core, n.live.ik, Run(core, n, ops).live.trace, n.journal.disk)
  {
    hide Run, Effect, Restored, Restorable, Snapshot;
    var m := Perform(core, n, BeginPoll);
    BatchAgrees(core, n, m, ops);
    RunAppend(core, n, [BeginPoll] + ops, [Restart]);
    RunAppend(core, n, [BeginPoll], ops);
    RunOne(core, n, BeginPoll);
    RunOne(core, Run(core, m, ops), Restart);
    RunKeepsIk(core, n, ops);
  }

  lemma {:induction false} RunKeepsIk(core: Core, n: Node, ops: seq<Op>)
    requires Plain(ops)
    ensures Run(core, n, ops).live.ik == n.live.ik
  {
    hide Effect, Snapshot;
    if ops != [] {
      var op := ops[|ops| - 1];
      RunKeepsIk(core, n, ops[..|ops| - 1]);
      EffectOnSeen(core, Run(core, n, ops[..|ops| - 1]).live, op.action, op.outside);
    }
  }
}
