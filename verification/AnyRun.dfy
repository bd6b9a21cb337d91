/** The sender's side in every run: crashes inside poll batches and failing saves included. */
module AnyRun {
  import opened Prelude
  import opened Mote
  import opened Outbound
  import opened Delivery
  import opened EngineOk
  import opened Journaling
  import opened Sender
  import World
  import Seen

  predicate PersistedSame(core: Core, p: PersistedEntry, e: Entry) {
    && p.id == e.id && p.to == e.to && p.deadline == e.deadline && p.tier == e.tier.AsU8()
    && p.sealedBytes == FromEntry(core, e).sealedBytes
  }

  /** Queue and journal hold no other message under this id. */
  ghost predicate About(core: Core, n: Node, id: ContentId, e: Entry) {
    && (id in n.live.outbound ==> n.live.outbound[id].SameMessage(e))
    && (id in n.journal.disk.outbound ==> PersistedSame(core, n.journal.disk.outbound[id], e))
  }

  lemma EffectSame(core: Core, l: Live, op: Op, id: ContentId)
    requires QueueOk(core, l.outbound, l.trace.submitted) && op.Do? && !Submits(op, id)
    ensures var m := Effect(core, l, op.action, op.outside).0;
            id in m.outbound ==> id in l.outbound && m.outbound[id].SameMessage(l.outbound[id])
  {
    hide Effect, QueueOk, Collected;
    if id in l.outbound {
      EffectExplained(core, l, op, id);
    } else {
      EffectAddsNone(core, l, op, id);
    }
  }

  lemma SavedSame(core: Core, l: Live, id: ContentId, e: Entry)
    requires id in l.outbound ==> l.outbound[id].SameMessage(e)
    ensures var saved := Snapshot(core, l).outbound; id in saved ==> PersistedSame(core, saved[id], e)
  {
    hide Seen.Pairs;
  }

  lemma RestoredSame(core: Core, ik: Ik, trace: Trace, d: Disk, id: ContentId, e: Entry)
    requires Lawful(core) && Restorable(core, d) && (id in d.outbound ==> PersistedSame(core, d.outbound[id], e))
    ensures var r := Restored(core, ik, trace, d).outbound; id in r ==> r[id].SameMessage(e)
  {
    hide Seen.RecordAll;
    if id in d.outbound && e.sealed.Some? {
      World.DecodesBack(core, e.sealed.value);
    }
    hide Lawful;
  }

  lemma PerformSame(core: Core, n: Node, op: Op, id: ContentId, e: Entry)
    requires Lawful(core) && NodeOk(core, n) && About(core, n, id, e) && !Submits(op, id)
    ensures About(core, Perform(core, n, op), id, e)
  {
    hide Effect, Lawful, PersistedSame, QueueOk, DiskOk, DedupOk, MarksOk, Snapshot, Restored, Restorable, Submits;
    match op
    case Do(a, outside) =>
      EffectSame(core, n.live, op, id);
      SavedSame(core, Effect(core, n.live, a, outside).0, id, e);
    case EndPoll => SavedSame(core, n.live, id, e);
    case Restart =>
      if Restorable(core, n.journal.disk) {
        RestoredSame(core, n.live.ik, n.live.trace, n.journal.disk, id, e);
      }
    case _ =>
  }

  lemma {:induction false} RunSame(core: Core, n: Node, ops: seq<Op>, id: ContentId, e: Entry)
    requires Lawful(core) && NodeOk(core, n) && About(core, n, id, e)
    requires forall i :: 0 <= i < |ops| ==> !Submits(ops[i], id)
    ensures About(core, Run(core, n, ops), id, e)
  {
    hide Perform, Lawful, NodeOk, About, Submits;
    if ops != [] {
      var init := ops[..|ops| - 1];
      RunSame(core, n, init, id, e);
      RunKeeps(core, n, init);
      PerformSame(core, Run(core, n, init), ops[|ops| - 1], id, e);
    }
  }

  /** Some operation of the run is an ack of this id by this peer. */
  predicate Acked(ops: seq<Op>, from: Ik, id: ContentId) { exists i :: 0 <= i < |ops| && Acks(ops[i], from, id) }

  lemma {:induction false} RunBelieves(core: Core, n: Node, ops: seq<Op>, to: Ik, id: ContentId)
    requires Lawful(core) && NodeOk(core, n) && World.Believes(Run(core, n, ops), to, id)
    ensures World.Believes(n, to, id) || Acked(ops, to, id)
  {
    hide Perform, Lawful, NodeOk, Acks, World.Believes;
    if ops != [] {
      var init := ops[..|ops| - 1];
      RunKeeps(core, n, init);
      World.PerformBelieves(core, Run(core, n, init), ops[|ops| - 1], to, id);
      if World.Believes(Run(core, n, init), to, id) {
        RunBelieves(core, n, init, to, id);
        if Acked(init, to, id) {
          var i :| 0 <= i < |init| && Acks(init[i], to, id);
          assert Acks(ops[i], to, id);
        }
      }
    }
  }

  /**
   * From a node whose journal is in step: whatever is done to it except submitting under the id again, a message that
   * is tracked is the message that was tracked, and reported as delivered only if it was or its recipient acked it.
   */
  lemma MessageNeverChanges(core: Core, n: Node, ops: seq<Op>, id: ContentId)
    requires Lawful(core) && NodeOk(core, n) && InStep(core, n.live, n.journal.disk) && id in n.live.outbound
    requires forall i :: 0 <= i < |ops| ==> !Submits(ops[i], id)
    ensures var e, m := n.live.outbound[id], Run(core, n, ops).live.outbound;
            id in m ==>
              && m[id].SameMessage(e)
              && (m[id].ReportedDelivered() && !e.ReportedDelivered() ==> Acked(ops, e.to, id))
  {
    hide Run, Lawful, NodeOk, Submits, Acked;
    var e, m := n.live.outbound[id], Run(core, n, ops);
    InStepAbout(core, n, id);
    RunSame(core, n, ops, id, e);
    if id in m.live.outbound && m.live.outbound[id].ReportedDelivered() {
      RunBelieves(core, n, ops, e.to, id);
    }
  }

  lemma InStepAbout(core: Core, n: Node, id: ContentId)
    requires InStep(core, n.live, n.journal.disk) && id in n.live.outbound
    ensures About(core, n, id, n.live.outbound[id])
    ensures World.Believes(n, n.live.outbound[id].to, id) ==> n.live.outbound[id].ReportedDelivered()
  {
    hide Seen.Pairs;
  }
}
