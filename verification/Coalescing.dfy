/** What a poll batch of arrivals persists beyond the queue, the pairs and the directories: marks and gate. */
module Coalescing {
  import opened Prelude
  import opened Mote
  import opened Delivery
  import opened EngineOk
  import opened Receiving
  import opened Journaling
  import Seen

  predicate Arriving(ops: seq<Op>) { forall i :: 0 <= i < |ops| ==> ops[i].Do? && ops[i].action.Arrive? }

  /** The live state at the last checkpoint asked for, or at the start if there was none. */
  function LastSaved(core: Core, n: Node, ops: seq<Op>): Live {
    if ops == [] then n.live
    else
      var before, op := Run(core, n, ops[..|ops| - 1]), ops[|ops| - 1];
      if op.Do? && Effect(core, before.live, op.action, op.outside).1 then Run(core, n, ops).live
      else LastSaved(core, n, ops[..|ops| - 1])
  }

  /** An inbound frame that raises the mark of a contact kept track of. */
  predicate Raises(core: Core, l: Live, a: Action) {
    a.Arrive? && a.frame.MoteFrame? && core.decode(a.frame.bytes).Some? &&
    var env := core.decode(a.frame.bytes).value;
    && Ratchets(core, l, a.from, env, a.verdict)
    && var author := core.check(env, l.ik, a.from in l.contacts).payload.from;
       author in l.ranked && author in l.marks && l.marks[author] < env.suite
  }

  /** Some frame after the last checkpoint raised the mark of a contact kept track of. */
  predicate RaisedSince(core: Core, n: Node, ops: seq<Op>) {
    ops != [] &&
    var before, op := Run(core, n, ops[..|ops| - 1]), ops[|ops| - 1];
    && op.Do? && !Effect(core, before.live, op.action, op.outside).1
    && (Raises(core, before.live, op.action) || RaisedSince(core, n, ops[..|ops| - 1]))
  }

  ghost predicate NoLower(low: map<Ik, nat>, high: map<Ik, nat>) {
    low.Keys == high.Keys && forall c :: c in low ==> low[c] <= high[c]
  }

  // --- one arrival -------------------------------------------------------------------------------------------

  lemma UntakenMarks(core: Core, l: Live, from: Ik, bytes: Bytes, v: Verdict)
    requires l.ranked <= l.marks.Keys
    requires !AcceptedOutcome(ReceiveMote(core, l, from, bytes, v).1)
    ensures var m, a := ReceiveMote(core, l, from, bytes, v).0, Arrive(from, MoteFrame(bytes), v);
            && NoLower(RankedMarks(l), RankedMarks(m))
            && (RankedMarks(m) != RankedMarks(l) <==> Raises(core, l, a))
  {
    hide ReceiveMote, Seen.Contains;
    ReceiveMoteCases(core, l, from, bytes, v);
    RatchetsExactly(core, l, from, bytes, v);
    var m, a := ReceiveMote(core, l, from, bytes, v).0, Arrive(from, MoteFrame(bytes), v);
    assert m.ranked == l.ranked;
    if Raises(core, l, a) {
      var env := core.decode(bytes).value;
      var author := core.check(env, l.ik, from in l.contacts).payload.from;
      assert RankedMarks(m)[author] != RankedMarks(l)[author];
    }
  }

  /** An arrival that asks for no checkpoint lowers no persisted mark, and changes one exactly if it raises it. */
  lemma UntouchedMarks(core: Core, l: Live, a: Action, outside: Outside)
    requires l.ranked <= l.marks.Keys && a.Arrive? && !Effect(core, l, a, outside).1
    ensures var m := Effect(core, l, a, outside).0;
            && NoLower(RankedMarks(l), RankedMarks(m))
            && (RankedMarks(m) != RankedMarks(l) <==> Raises(core, l, a))
  {
    hide ReceiveMote, RankedMarks, Ratchets, NoLower;
    SameNoLower(RankedMarks(l));
    match a.frame
    case MoteFrame(bytes) =>
      ReceiveIsEffect(core, l, a, outside);
      UntakenMarks(core, l, a.from, bytes, a.verdict);
    case AckFrame(id) =>
      RankedMarksSame(l, ReceiveAck(l, a.from, id));
    case GroupFrame(g, body) =>
      RankedMarksSame(l, Effect(core, l, a, outside).0);
  }

  lemma SameNoLower(marks: map<Ik, nat>)
    ensures NoLower(marks, marks)
  {
  }

  lemma RankedMarksSame(l: Live, m: Live)
    requires l.ranked == m.ranked && l.marks == m.marks
    ensures RankedMarks(l) == RankedMarks(m)
  {
  }

  // --- a batch -----------------------------------------------------------------------------------------------

  lemma {:induction false} MarksSince(core: Core, n: Node, ops: seq<Op>)
    requires Lawful(core) && NodeOk(core, n) && Arriving(ops)
    ensures NoLower(RankedMarks(LastSaved(core, n, ops)), RankedMarks(Run(core, n, ops).live))
    ensures RankedMarks(LastSaved(core, n, ops)) != RankedMarks(Run(core, n, ops).live) <==> RaisedSince(core, n, ops)
  {
    hide Effect, RankedMarks, NodeOk, Lawful, Raises, Snapshot;
    if ops != [] {
      var init, op := ops[..|ops| - 1], ops[|ops| - 1];
      var before := Run(core, n, init);
      if !Effect(core, before.live, op.action, op.outside).1 {
        MarksSince(core, n, init);
        RunKeeps(core, n, init);
        MarksRanked(core, before);
        UntouchedMarks(core, before.live, op.action, op.outside);
      }
    }
  }

  lemma MarksRanked(core: Core, n: Node)
    requires NodeOk(core, n)
    ensures n.live.ranked <= n.live.marks.Keys
  {
  }

  /** Saving after each frame leaves the snapshot taken at the last checkpoint. */
  lemma {:induction false} EachSavesLast(core: Core, n: Node, ops: seq<Op>)
    requires Arriving(ops) && n.journal.healthy && !n.journal.deferred
    ensures var each := Run(core, n, ops).journal;
            && each.healthy && !each.deferred && each.saves >= n.journal.saves
            && (each.saves > n.journal.saves ==> each.disk == Snapshot(core, LastSaved(core, n, ops)))
            && (each.saves == n.journal.saves ==> each.disk == n.journal.disk)
  {
    hide Effect, Snapshot;
    if ops != [] {
      EachSavesLast(core, n, ops[..|ops| - 1]);
    }
  }

  /** A batch leaves the snapshot of its end. */
  lemma BatchSavesEnd(core: Core, n: Node, ops: seq<Op>)
    requires Arriving(ops) && n.journal.healthy && !n.journal.deferred
    ensures var each, batch := Run(core, n, ops), Run(core, n, Batch(ops));
            batch.journal.disk
            == if each.journal.saves > n.journal.saves then Snapshot(core, each.live) else n.journal.disk
  {
    hide Effect, Snapshot, Run;
    BatchAgrees(core, n, Perform(core, n, BeginPoll), ops);
    RunBatch(core, n, ops);
  }

  lemma {:induction false} GateStands(core: Core, n: Node, ops: seq<Op>)
    requires Arriving(ops)
    ensures Run(core, n, ops).live.gate == n.live.gate && LastSaved(core, n, ops).gate == n.live.gate
  {
    hide Snapshot, ReceiveMote, Took;
    if ops != [] {
      var op, before := ops[|ops| - 1], Run(core, n, ops[..|ops| - 1]);
      GateStands(core, n, ops[..|ops| - 1]);
      if op.action.frame.MoteFrame? {
        ReceiveMoteCases(core, before.live, op.action.from, op.action.frame.bytes, op.action.verdict);
      }
    }
  }

  /**
   * The journal a batch leaves, compared with a save after each frame.  The gate is the same; the marks are no
   * lower; and the whole journal is the same exactly when no frame after the last checkpoint raised a mark: the
   * ratchet turns without asking for a checkpoint, so a mark raised by a refused MOTE goes along with a later save
   * only.
   */
  lemma BatchJournal(core: Core, n: Node, ops: seq<Op>)
    requires Lawful(core) && NodeOk(core, n) && Synced(core, n) && !n.journal.deferred && Arriving(ops)
    ensures var each, batch := Run(core, n, ops).journal, Run(core, n, Batch(ops)).journal;
            && batch.disk.gate == each.disk.gate
            && NoLower(each.disk.marks, batch.disk.marks)
            && (batch.disk == each.disk <==> each.saves == n.journal.saves || !RaisedSince(core, n, ops))
  {
    hide Run, Effect, RankedMarks, NodeOk, Lawful, RaisedSince, InStep, LastSaved, NoLower, Persisted, Seen.Pairs;
    EachSavesLast(core, n, ops);
    BatchSavesEnd(core, n, ops);
    GateStands(core, n, ops);
    MarksSince(core, n, ops);
    CoalescingRefines(core, n, ops);
    SameNoLower(n.journal.disk.marks);
  }

  // --- where they differ -------------------------------------------------------------------------------------

  /** After an accepted MOTE, one that raises its author's mark and is then refused is persisted by a batch only. */
  lemma RefusedUpgradeOutlivesBatch(core: Core, n: Node, first: Action, second: Action, outside: Outside)
    requires Lawful(core) && NodeOk(core, n) && Synced(core, n) && !n.journal.deferred
    requires first.Arrive? && Effect(core, n.live, first, outside).1
    requires var l := Effect(core, n.live, first, outside).0;
             second.Arrive? && !Effect(core, l, second, outside).1 && Raises(core, l, second)
    ensures var ops := [Do(first, outside), Do(second, outside)];
            var each, batch := Run(core, n, ops).journal.disk, Run(core, n, Batch(ops)).journal.disk;
            && NoLower(each.marks, batch.marks) && each.marks != batch.marks
  {
    hide Effect, RankedMarks, NodeOk, Lawful, Raises, Snapshot;
    var ops := [Do(first, outside), Do(second, outside)];
    RunPair(core, n, Do(first, outside), Do(second, outside));
    MarksDiffer(core, n, ops);
  }

  lemma RunPair(core: Core, n: Node, a: Op, b: Op)
    ensures Run(core, n, [a, b][..1]) == Perform(core, n, a)
    ensures Run(core, n, [a, b]) == Perform(core, Perform(core, n, a), b)
  {
    hide Perform;
    RunOne(core, n, a);
    assert [a, b][..1] == [a];
  }

  lemma MarksDiffer(core: Core, n: Node, ops: seq<Op>)
    requires Lawful(core) && NodeOk(core, n) && Synced(core, n) && !n.journal.deferred && Arriving(ops)
    requires Run(core, n, ops).journal.saves > n.journal.saves && RaisedSince(core, n, ops)
    ensures var each, batch := Run(core, n, ops).journal.disk, Run(core, n, Batch(ops)).journal.disk;
            && NoLower(each.marks, batch.marks) && each.marks != batch.marks
  {
    hide Run, Effect, RankedMarks, NodeOk, Lawful, RaisedSince, InStep, LastSaved, NoLower, Persisted, Seen.Pairs;
    EachSavesLast(core, n, ops);
    BatchSavesEnd(core, n, ops);
    MarksSince(core, n, ops);
  }
}
