/** The sender's side over whole runs: what may happen to a queued message, and what ever leaves for it. */
module Sender {
  import opened Prelude
  import opened Mote
  import opened Outbound
  import opened Delivery
  import opened EngineOk
  import opened Journaling
  import Onion
  import Seen

  // --- one operation on one entry -----------------------------------------------------------------------

  predicate Submits(op: Op, id: ContentId) {
    op.Do? && (op.action.Send? || op.action.DispatchSealed?) && op.action.env.id == id
  }

  predicate Ticks(op: Op) { op.Do? && op.action.Tick? }

  predicate Acks(op: Op, from: Ik, id: ContentId) {
    op.Do? && op.action.Arrive? && op.action.from == from && op.action.frame == AckFrame(id)
  }

  /** Every difference between an entry before and after an operation, and what alone can make it. */
  ghost predicate Explained(op: Op, now: nat, e: Entry, f: Entry) {
    && f.SameMessage(e)
    && (e.state.Terminal() ==> f.state == e.state)
    && (f.state.Acked? && !e.state.Acked? ==> Acks(op, e.to, e.id))
    && (f.deliveredLate && !e.deliveredLate ==> Acks(op, e.to, e.id) && e.state.Expired?)
    && (f.state.Expired? && !e.state.Expired? ==> Ticks(op) && now >= e.deadline)
    && (f.terminalAt != e.terminalAt ==>
          Ticks(op) && e.terminalAt.None? && f.terminalAt == Some(now) && f.state.Terminal())
    && !f.state.Queued? && !f.state.Sealed?
  }

  ghost predicate Collected(op: Op, now: nat, e: Entry) {
    Ticks(op) && e.terminalAt.Some? && Collectable(e, now)
  }

  lemma RetryExplained(core: Core, e: Entry, id: ContentId, submitted: set<Envelope>, op: Op, now: nat,
                       outside: Outside)
    requires EntryOk(core, e, id, submitted)
    ensures Explained(op, now, e, RetryEntry(core, e, outside).0)
  {
    hide WireFrame;
    if e.state.Retry? {
      WireFrameKeeps(core, Apply(e, RetryTimerFires).value, outside.seed(e.id));
    }
  }

  lemma TickExplained(core: Core, e: Entry, id: ContentId, submitted: set<Envelope>, op: Op, now: nat)
    requires EntryOk(core, e, id, submitted) && Ticks(op)
    ensures Explained(op, now, e, StampEntry(ExpireEntry(e, now), now))
    ensures Collectable(ExpireEntry(e, now), now) ==> Collected(op, now, e)
  {
  }

  lemma AckExplained(core: Core, e: Entry, id: ContentId, submitted: set<Envelope>, op: Op, now: nat)
    requires EntryOk(core, e, id, submitted) && Acks(op, e.to, e.id)
    ensures Explained(op, now, e, AckEntry(e))
  {
  }

  lemma SameExplained(core: Core, e: Entry, id: ContentId, submitted: set<Envelope>, op: Op, now: nat)
    requires EntryOk(core, e, id, submitted)
    ensures Explained(op, now, e, e) && Explained(op, now, e, e.Durable())
  {
  }

  /** The fate of one entry in one operation that does not submit under its id. */
  lemma EffectExplained(core: Core, l: Live, op: Op, id: ContentId)
    requires QueueOk(core, l.outbound, l.trace.submitted) && op.Do? && !Submits(op, id) && id in l.outbound
    ensures var m := Effect(core, l, op.action, op.outside).0;
            if id in m.outbound then Explained(op, l.now, l.outbound[id], m.outbound[id])
            else Collected(op, l.now, l.outbound[id])
  {
    hide Effect, EntryOk, Explained, RetryEntry, Dispatch, SealedEntry, AckEntry, ExpireEntry, StampEntry, Collectable,
         Collected, SendRefusal;
    var e := l.outbound[id];
    assert EntryOk(core, e, id, l.trace.submitted);
    EffectOnQueue(core, l, op.action, op.outside);
    SameExplained(core, e, id, l.trace.submitted, op, l.now);
    if op.action.Retry? {
      RetryExplained(core, e, id, l.trace.submitted, op, l.now, op.outside);
    } else if op.action.Tick? {
      TickExplained(core, e, id, l.trace.submitted, op, l.now);
    } else if op.action.Arrive? && op.action.frame.AckFrame? {
      EntryId(core, e, id, l.trace.submitted);
      if op.action.frame.id == id && op.action.from == e.to {
        AckExplained(core, e, id, l.trace.submitted, op, l.now);
      }
    }
  }

  lemma EntryId(core: Core, e: Entry, id: ContentId, submitted: set<Envelope>)
    requires EntryOk(core, e, id, submitted)
    ensures e.id == id
  {
  }

  lemma RestartExplained(core: Core, n: Node, op: Op, id: ContentId)
    requires Lawful(core) && NodeOk(core, n) && InStep(core, n.live, n.journal.disk) && id in n.live.outbound
    requires Restorable(core, n.journal.disk)
    ensures var r := Restored(core, n.live.ik, n.live.trace, n.journal.disk);
            id in r.outbound && Explained(op, n.live.now, n.live.outbound[id], r.outbound[id])
  {
    hide EntryOk, Explained, IntoEntry, FromEntry, Seen.RecordAll, DiskOk, Seen.Pairs;
    var e := n.live.outbound[id];
    assert EntryOk(core, e, id, n.live.trace.submitted);
    assert id in n.journal.disk.outbound;
    IntoEntryOfFromEntry(core, e);
    SameExplained(core, e, id, n.live.trace.submitted, op, n.live.now);
  }

  lemma PerformExplained(core: Core, n: Node, op: Op, id: ContentId)
    requires Lawful(core) && NodeOk(core, n) && !Submits(op, id) && id in n.live.outbound
    requires op.Restart? ==> InStep(core, n.live, n.journal.disk)
    ensures var m := Perform(core, n, op).live;
            if id in m.outbound then Explained(op, n.live.now, n.live.outbound[id], m.outbound[id])
            else Collected(op, n.live.now, n.live.outbound[id])
  {
    hide Effect, Explained, Collected, Restored, Restorable, InStep, DiskOk, EntryOk, Lawful, DedupOk, MarksOk,
         Snapshot;
    var e := n.live.outbound[id];
    assert EntryOk(core, e, id, n.live.trace.submitted);
    SameExplained(core, e, id, n.live.trace.submitted, op, n.live.now);
    if op.Do? {
      EffectExplained(core, n.live, op, id);
    } else if op.Restart? && Restorable(core, n.journal.disk) {
      RestartExplained(core, n, op, id);
    }
  }

  // --- whole runs ----------------------------------------------------------------------------------------

  datatype Cause = AckFrom(to: Ik, id: ContentId) | DeadlineTick(deadline: nat) | StampTick(at: nat)

  predicate Is(op: Op, now: nat, c: Cause) {
    match c
    case AckFrom(to, id) => Acks(op, to, id)
    case DeadlineTick(deadline) => Ticks(op) && now >= deadline
    case StampTick(at) => Ticks(op) && now == at
  }

  /** Some operation of the run is this cause. */
  ghost predicate Happened(core: Core, n: Node, ops: seq<Op>, c: Cause) {
    exists k :: 0 <= k < |ops| && Is(ops[k], Run(core, n, ops[..k]).live.now, c)
  }

  lemma HappenedBefore(core: Core, n: Node, ops: seq<Op>, m: nat, c: Cause)
    requires m <= |ops| && Happened(core, n, ops[..m], c)
    ensures Happened(core, n, ops, c)
  {
    hide Run, Is;
    var k :| 0 <= k < m && Is(ops[..m][k], Run(core, n, ops[..m][..k]).live.now, c);
    assert ops[..m][..k] == ops[..k];
    assert Is(ops[k], Run(core, n, ops[..k]).live.now, c);
  }

  lemma HappenedNow(core: Core, n: Node, ops: seq<Op>, c: Cause)
    requires ops != [] && Is(ops[|ops| - 1], Run(core, n, ops[..|ops| - 1]).live.now, c)
    ensures Happened(core, n, ops, c)
  {
    hide Run, Is;
  }

  /** The history of an entry that was `e` and is `f` now. */
  ghost predicate History(core: Core, n: Node, ops: seq<Op>, e: Entry, f: Entry) {
    && f.SameMessage(e)
    && (e.state.Terminal() ==> f.state == e.state)
    && (f.state.Acked? && !e.state.Acked? ==> Happened(core, n, ops, AckFrom(e.to, e.id)))
    && (f.deliveredLate && !e.deliveredLate ==> Happened(core, n, ops, AckFrom(e.to, e.id)) && f.state.Expired?)
    && (f.state.Expired? && !e.state.Expired? ==> Happened(core, n, ops, DeadlineTick(e.deadline)))
    && (f.terminalAt.Some? && f.terminalAt != e.terminalAt ==> Happened(core, n, ops, StampTick(f.terminalAt.value)))
    && (e.terminalAt.Some? ==> f.terminalAt == e.terminalAt)
  }

  /** It was collected: by a tick that found it terminal, stamped and past its grace. */
  ghost predicate Gone(core: Core, n: Node, ops: seq<Op>, e: Entry) {
    exists k, f: Entry :: 0 <= k < |ops| && History(core, n, ops[..k], e, f)
                          && Collected(ops[k], Run(core, n, ops[..k]).live.now, f)
  }

  lemma GoneBefore(core: Core, n: Node, ops: seq<Op>, m: nat, e: Entry)
    requires m <= |ops| && Gone(core, n, ops[..m], e)
    ensures Gone(core, n, ops, e)
  {
    hide Run, History, Collected;
    var k, f: Entry :| 0 <= k < m && History(core, n, ops[..m][..k], e, f)
                       && Collected(ops[..m][k], Run(core, n, ops[..m][..k]).live.now, f);
    assert ops[..m][..k] == ops[..k];
    assert Collected(ops[k], Run(core, n, ops[..k]).live.now, f);
  }

  lemma HistoryGrows(core: Core, n: Node, ops: seq<Op>, e: Entry, f: Entry, g: Entry)
    requires ops != [] && History(core, n, ops[..|ops| - 1], e, f)
    requires Explained(ops[|ops| - 1], Run(core, n, ops[..|ops| - 1]).live.now, f, g)
    requires f.deliveredLate ==> f.state.Expired?
    ensures History(core, n, ops, e, g)
  {
    hide Run, Happened, Ticks, Acks;
    var m := |ops| - 1;
    var now := Run(core, n, ops[..m]).live.now;
    if g.state.Acked? && !e.state.Acked? {
      Inherit(core, n, ops, f.state.Acked?, AckFrom(e.to, e.id));
    }
    if g.deliveredLate && !e.deliveredLate {
      Inherit(core, n, ops, f.deliveredLate, AckFrom(e.to, e.id));
    }
    if g.state.Expired? && !e.state.Expired? {
      Inherit(core, n, ops, f.state.Expired?, DeadlineTick(e.deadline));
    }
    if g.terminalAt.Some? && g.terminalAt != e.terminalAt {
      Inherit(core, n, ops, g.terminalAt == f.terminalAt, StampTick(g.terminalAt.value));
    }
  }

  lemma Inherit(core: Core, n: Node, ops: seq<Op>, earlier: bool, c: Cause)
    requires ops != []
    requires earlier ==> Happened(core, n, ops[..|ops| - 1], c)
    requires !earlier ==> Is(ops[|ops| - 1], Run(core, n, ops[..|ops| - 1]).live.now, c)
    ensures Happened(core, n, ops, c)
  {
    hide Run, Is, Happened;
    if earlier {
      HappenedBefore(core, n, ops, |ops| - 1, c);
    } else {
      HappenedNow(core, n, ops, c);
    }
  }

  /**
   * The sender machine over whole runs.  Take any node of an orderly run and any message it tracks; after
   * any further operations that do not submit under the same id, the message is either still tracked, the
   * same message, with every advance of its state explained, or it was collected by a tick that found it
   * terminal, stamped at least a grace period before.
   */
  lemma {:induction false} SenderMachine(core: Core, n: Node, ops: seq<Op>, id: ContentId)
    requires Lawful(core) && NodeOk(core, n) && Synced(core, n) && !n.journal.deferred && Orderly(ops)
    requires id in n.live.outbound && forall i :: 0 <= i < |ops| ==> !Submits(ops[i], id)
    ensures var m := Run(core, n, ops).live;
            if id in m.outbound then History(core, n, ops, n.live.outbound[id], m.outbound[id])
            else Gone(core, n, ops, n.live.outbound[id])
  {
    hide Perform, NodeOk, InStep, Lawful, History, Gone, Explained, Collected, Submits;
    var e := n.live.outbound[id];
    if ops == [] {
      HistoryStarts(core, n, e);
    } else {
      var last := |ops| - 1;
      SenderMachine(core, n, ops[..last], id);
      var before := Run(core, n, ops[..last]);
      if id in before.live.outbound {
        RunKeeps(core, n, ops[..last]);
        RunSynced(core, n, ops[..last]);
        PerformExplained(core, before, ops[last], id);
        if id in Run(core, n, ops).live.outbound {
          LateIsExpired(core, before, id);
          HistoryGrows(core, n, ops, e, before.live.outbound[id], Run(core, n, ops).live.outbound[id]);
        } else {
          GoneNow(core, n, ops, e, before.live.outbound[id]);
        }
      } else {
        NoReturn(core, n, ops, id);
        GoneBefore(core, n, ops, last, e);
      }
    }
  }

  lemma HistoryStarts(core: Core, n: Node, e: Entry)
    ensures History(core, n, [], e, e)
  {
  }

  lemma LateIsExpired(core: Core, n: Node, id: ContentId)
    requires NodeOk(core, n) && id in n.live.outbound
    ensures n.live.outbound[id].deliveredLate ==> n.live.outbound[id].state.Expired?
  {
    assert EntryOk(core, n.live.outbound[id], id, n.live.trace.submitted);
  }

  lemma GoneNow(core: Core, n: Node, ops: seq<Op>, e: Entry, f: Entry)
    requires ops != [] && History(core, n, ops[..|ops| - 1], e, f)
    requires Collected(ops[|ops| - 1], Run(core, n, ops[..|ops| - 1]).live.now, f)
    ensures Gone(core, n, ops, e)
  {
    hide Run, History, Collected;
  }

  /** An id that is not tracked comes back by submission only. */
  lemma NoReturn(core: Core, n: Node, ops: seq<Op>, id: ContentId)
    requires Lawful(core) && NodeOk(core, n) && Synced(core, n) && !n.journal.deferred && Orderly(ops) && ops != []
    requires !Submits(ops[|ops| - 1], id) && id !in Run(core, n, ops[..|ops| - 1]).live.outbound
    ensures id !in Run(core, n, ops).live.outbound
  {
    hide NodeOk, InStep, Lawful, Effect, Restored, Restorable, Snapshot;
    var before := Run(core, n, ops[..|ops| - 1]);
    var op := ops[|ops| - 1];
    RunKeeps(core, n, ops[..|ops| - 1]);
    RunSynced(core, n, ops[..|ops| - 1]);
    if op.Do? {
      EffectAddsNone(core, before.live, op, id);
    } else if op.Restart? && Restorable(core, before.journal.disk) {
      RestoredKeys(core, before);
    }
  }

  lemma EffectAddsNone(core: Core, l: Live, op: Op, id: ContentId)
    requires op.Do? && !Submits(op, id) && id !in l.outbound
    ensures id !in Effect(core, l, op.action, op.outside).0.outbound
  {
    hide Effect, SendRefusal, Dispatch, SealedEntry, RetryEntry, ExpireEntry, StampEntry, Collectable;
    EffectOnQueue(core, l, op.action, op.outside);
  }

  lemma RestoredKeys(core: Core, n: Node)
    requires InStep(core, n.live, n.journal.disk) && Restorable(core, n.journal.disk)
    ensures Restored(core, n.live.ik, n.live.trace, n.journal.disk).outbound.Keys == n.live.outbound.Keys
  {
    hide IntoEntry, FromEntry, Seen.RecordAll, Seen.Pairs;
  }

  // --- what one pass achieves ------------------------------------------------------------------------------

  /** Settled and stamped an hour ago or more. */
  predicate PastGrace(e: Entry, now: nat) {
    && (e.state.Acked? || e.state.Expired?) && e.terminalAt.Some?
    && now >= e.terminalAt.value + 3_600_000
  }

  /** Not settled yet, and at or past its deadline. */
  predicate Overdue(e: Entry, now: nat) { !e.state.Acked? && !e.state.Expired? && now >= e.deadline }

  /**
   * A tick leaves nothing overdue, nothing terminal unstamped and nothing past its grace; it removes exactly what
   * was past its grace and expires exactly what was overdue; and ticking again at the same time changes nothing.
   */
  lemma TickSettles(core: Core, outbound: map<ContentId, Entry>, submitted: set<Envelope>, now: nat)
    requires QueueOk(core, outbound, submitted)
    ensures var after := TickOutbound(outbound, now);
            && (forall id :: id in after ==>
                  && !Overdue(after[id], now) && !PastGrace(after[id], now)
                  && (after[id].state.Terminal() ==> after[id].terminalAt.Some?))
            && (forall id :: id in outbound && id !in after ==> PastGrace(outbound[id], now))
            && (forall id :: id in after ==>
                  && id in outbound && !PastGrace(outbound[id], now) && after[id].SameMessage(outbound[id])
                  && (after[id].state != outbound[id].state <==> Overdue(outbound[id], now)))
            && TickOutbound(after, now) == after
  {
    hide EntryOk;
    forall id | id in outbound
      ensures EntryOk(core, outbound[id], id, submitted)
    {
    }
    forall id | id in outbound
      ensures var e := StampEntry(ExpireEntry(outbound[id], now), now);
              && (Collectable(ExpireEntry(outbound[id], now), now) <==> Collectable(outbound[id], now))
              && (!Collectable(outbound[id], now) ==>
                    && !e.DeadlinePassed(now) && !Collectable(e, now)
                    && ExpireEntry(e, now) == e && StampEntry(e, now) == e
                    && (e.state.Terminal() ==> e.terminalAt.Some?))
    {
      TickEntry(core, outbound[id], id, submitted, now);
    }
    hide ExpireEntry, StampEntry, Collectable;
  }

  lemma TickEntry(core: Core, e: Entry, id: ContentId, submitted: set<Envelope>, now: nat)
    requires EntryOk(core, e, id, submitted)
    ensures var f := StampEntry(ExpireEntry(e, now), now);
            && (Collectable(ExpireEntry(e, now), now) <==> Collectable(e, now))
            && (!Collectable(e, now) ==>
                  && !f.DeadlinePassed(now) && !Collectable(f, now)
                  && ExpireEntry(f, now) == f && StampEntry(f, now) == f
                  && (f.state.Terminal() ==> f.terminalAt.Some?))
  {
  }

  predicate Waiting(e: Entry) { e.state.Retry? && e.sealed.Some? }

  /** The packet a retry pass hands over for a waiting entry. */
  function RetryPacket(core: Core, e: Entry, outside: Outside): Packet
    requires Waiting(e)
  {
    WireFrame(core, e.(state := InFlight), outside.seed(e.id)).1
  }

  /** `p` is the attempt of a retry pass for one of the waiting entries. */
  predicate RetriedWith(core: Core, outbound: map<ContentId, Entry>, outside: Outside, p: Packet) {
    p.purpose.Attempt? && p.purpose.id in outbound && Waiting(outbound[p.purpose.id])
    && p == RetryPacket(core, outbound[p.purpose.id], outside)
  }

  lemma RetryEntryIs(core: Core, e: Entry, id: ContentId, submitted: set<Envelope>, outside: Outside)
    requires EntryOk(core, e, id, submitted)
    ensures !Waiting(e) ==> RetryEntry(core, e, outside) == (e, {})
    ensures Waiting(e) ==>
              && RetryEntry(core, e, outside).1 == {RetryPacket(core, e, outside)}
              && RetryPacket(core, e, outside).purpose.Attempt? && RetryPacket(core, e, outside).purpose.id == id
              && var reached, f := outside.up(RetryPacket(core, e, outside).to), RetryEntry(core, e, outside).0;
                 && f.state == (if reached then InFlight else OutState.Retry)
                 && f.attempts == (if reached then e.attempts else Min(e.attempts + 1, U32_MAX))
  {
    hide WireFrame;
    if Waiting(e) {
      WireFrameKeeps(core, e.(state := InFlight), outside.seed(id));
      AttemptIsAbout(core, e.(state := InFlight), outside.seed(id));
    }
  }

  lemma AttemptIsAbout(core: Core, e: Entry, seed: Onion.Digest)
    requires e.sealed.Some?
    ensures WireFrame(core, e, seed).1.purpose.Attempt? && WireFrame(core, e, seed).1.purpose.id == e.id
  {
    hide Onion.Wrap, Onion.ToBytes;
  }

  /** Exactly one attempt goes out for each waiting entry, and nothing for any other. */
  lemma RetrySendsOnce(core: Core, l: Live, outside: Outside, p: Packet)
    requires QueueOk(core, l.outbound, l.trace.submitted)
    ensures RetryPending(core, l, outside).trace.sent[p]
         == l.trace.sent[p] + (if RetriedWith(core, l.outbound, outside, p) then 1 else 0)
  {
    hide RetryEntry, EntryOk, Waiting, RetryPacket, RetriedQueue;
    forall id | id in l.outbound
      ensures !Waiting(l.outbound[id]) ==> RetryEntry(core, l.outbound[id], outside).1 == {}
      ensures Waiting(l.outbound[id]) ==>
                var q := RetryPacket(core, l.outbound[id], outside);
                RetryEntry(core, l.outbound[id], outside).1 == {q} && q.purpose.Attempt? && q.purpose.id == id
    {
      RetryEntryIs(core, l.outbound[id], id, l.trace.submitted, outside);
    }
    assert p in RetrySent(core, l.outbound, outside) <==> RetriedWith(core, l.outbound, outside, p);
  }

  /**
   * A retry pass sends every waiting entry once more: it is in flight if its peer can be reached, else waiting
   * with one more failure counted.  It touches nothing else.
   */
  lemma RetryMovesWaiting(core: Core, l: Live, id: ContentId, outside: Outside)
    requires QueueOk(core, l.outbound, l.trace.submitted) && id in l.outbound
    ensures var e, m := l.outbound[id], RetryPending(core, l, outside);
            && m.outbound.Keys == l.outbound.Keys
            && (!Waiting(e) ==>
                  && m.outbound[id] == e
                  && forall p: Packet :: p.purpose.Attempt? && p.purpose.id == id ==>
                       m.trace.sent[p] == l.trace.sent[p])
            && (Waiting(e) ==>
                  var p := RetryPacket(core, e, outside);
                  && m.trace.sent[p] == l.trace.sent[p] + 1
                  && m.outbound[id].state == (if outside.up(p.to) then InFlight else OutState.Retry)
                  && m.outbound[id].attempts == (if outside.up(p.to) then e.attempts else Min(e.attempts + 1, U32_MAX))
                  && forall q: Packet :: q.purpose.Attempt? && q.purpose.id == id && q != p ==>
                       m.trace.sent[q] == l.trace.sent[q])
  {
    hide RetryEntry, RetryPacket, RetrySent;
    var e, m := l.outbound[id], RetryPending(core, l, outside);
    assert EntryOk(core, e, id, l.trace.submitted);
    RetryEntryIs(core, e, id, l.trace.submitted, outside);
    hide EntryOk;
    forall p: Packet
      ensures m.trace.sent[p] == l.trace.sent[p] + (if RetriedWith(core, l.outbound, outside, p) then 1 else 0)
    {
      RetrySendsOnce(core, l, outside, p);
    }
  }

  /** An ack from the recipient always counts, one from anybody else never does. */
  lemma AckCounts(l: Live, from: Ik, id: ContentId)
    requires id in l.outbound
    ensures var e, m := l.outbound[id], ReceiveAck(l, from, id);
            && id in m.outbound
            && (e.to != from ==> m == l)
            && (e.to == from && (e.state.InFlight? || e.state.Retry?) ==> m.outbound[id] == e.(state := Acked))
            && (e.to == from && e.state.Expired? ==> m.outbound[id] == e.(deliveredLate := true))
            && (e.to == from && e.state.Acked? ==> m.outbound[id] == e)
            && forall x :: x in l.outbound && x != id ==> x in m.outbound && m.outbound[x] == l.outbound[x]
  {
  }

  // --- nothing stays for ever --------------------------------------------------------------------------------

  lemma LastTick(core: Core, n: Node, ops: seq<Op>, outside: Outside)
    ensures Run(core, n, ops + [Do(Tick, outside)]).live.outbound
         == TickOutbound(Run(core, n, ops).live.outbound, Run(core, n, ops).live.now)
  {
    hide Run, TickOutbound, Snapshot;
    RunAppend(core, n, ops, [Do(Tick, outside)]);
    RunOne(core, Run(core, n, ops), Do(Tick, outside));
  }

  lemma TickStamps(core: Core, n: Node, id: ContentId)
    requires NodeOk(core, n) && id in n.live.outbound && n.live.now >= n.live.outbound[id].deadline
    ensures var after := TickOutbound(n.live.outbound, n.live.now);
            id in after ==> after[id].terminalAt.Some? && after[id].state.Terminal()
  {
    assert EntryOk(core, n.live.outbound[id], id, n.live.trace.submitted);
  }

  /** A tick at or past the deadline leaves the message settled and stamped, if it leaves it at all. */
  lemma DeadlineTickStamps(core: Core, n: Node, ops: seq<Op>, id: ContentId, outside: Outside)
    requires Lawful(core) && NodeOk(core, n) && Synced(core, n) && !n.journal.deferred && Orderly(ops)
    requires id in n.live.outbound && forall i :: 0 <= i < |ops| ==> !Submits(ops[i], id)
    requires Run(core, n, ops).live.now >= n.live.outbound[id].deadline
    ensures var m := Run(core, n, ops + [Do(Tick, outside)]).live.outbound;
            id in m ==> m[id].terminalAt.Some? && m[id].state.Terminal()
  {
    hide Run, NodeOk, InStep, Lawful, TickOutbound, Submits, Gone, Orderly, Synced;
    var before := Run(core, n, ops);
    RunKeeps(core, n, ops);
    LastTick(core, n, ops, outside);
    SenderMachine(core, n, ops, id);
    if id in before.live.outbound {
      TickStamps(core, before, id);
    } else {
      TickAddsNone(before.live.outbound, before.live.now, id);
    }
  }

  /**
   * A tick at or past the deadline and another one a grace period after the stamp leave no entry behind, whatever
   * happens before, between and to the journal.
   */
  lemma TwoTicksClear(core: Core, n: Node, xs: seq<Op>, ys: seq<Op>, id: ContentId, outside: Outside)
    requires Lawful(core) && NodeOk(core, n) && Synced(core, n) && !n.journal.deferred && id in n.live.outbound
    requires var tick := Do(Tick, outside);
             && Orderly(xs + [tick]) && !Open(xs + [tick]) && Orderly(ys)
             && (forall i :: 0 <= i < |xs| ==> !Submits(xs[i], id))
             && (forall i :: 0 <= i < |ys| ==> !Submits(ys[i], id))
             && Run(core, n, xs).live.now >= n.live.outbound[id].deadline
             && var a := Run(core, n, xs + [tick]);
                id in a.live.outbound && a.live.outbound[id].terminalAt.Some? ==>
                  SaturatingSub(Run(core, a, ys).live.now, a.live.outbound[id].terminalAt.value) >= TERMINAL_GRACE_MS
    ensures var tick := Do(Tick, outside);
            id !in Run(core, Run(core, n, xs + [tick]), ys + [tick]).live.outbound
  {
    hide Run, NodeOk, InStep, Lawful, TickOutbound, Submits, Gone;
    var tick := Do(Tick, outside);
    var a := Run(core, n, xs + [tick]);
    var b := Run(core, a, ys);
    assert (xs + [tick])[..|xs|] == xs;
    RunKeeps(core, n, xs + [tick]);
    RunSynced(core, n, xs + [tick]);
    RunKeeps(core, a, ys);
    DeadlineTickStamps(core, n, xs, id, outside);
    if id in a.live.outbound {
      SenderMachine(core, a, ys, id);
    } else {
      NeverReturns(core, a, ys, id);
    }
    LastTick(core, a, ys, outside);
    if id in b.live.outbound {
      TickCollects(core, b, id);
    } else {
      TickAddsNone(b.live.outbound, b.live.now, id);
    }
  }

  lemma TickAddsNone(outbound: map<ContentId, Entry>, now: nat, id: ContentId)
    requires id !in outbound
    ensures id !in TickOutbound(outbound, now)
  {
  }

  lemma TickCollects(core: Core, n: Node, id: ContentId)
    requires NodeOk(core, n) && id in n.live.outbound && n.live.outbound[id].terminalAt.Some?
    requires SaturatingSub(n.live.now, n.live.outbound[id].terminalAt.value) >= TERMINAL_GRACE_MS
    ensures id !in TickOutbound(n.live.outbound, n.live.now)
  {
    assert EntryOk(core, n.live.outbound[id], id, n.live.trace.submitted);
  }

  lemma {:induction false} NeverReturns(core: Core, n: Node, ops: seq<Op>, id: ContentId)
    requires Lawful(core) && NodeOk(core, n) && Synced(core, n) && !n.journal.deferred && Orderly(ops)
    requires id !in n.live.outbound && forall i :: 0 <= i < |ops| ==> !Submits(ops[i], id)
    ensures id !in Run(core, n, ops).live.outbound
  {
    hide Perform, NodeOk, InStep, Lawful, Submits;
    if ops != [] {
      NeverReturns(core, n, ops[..|ops| - 1], id);
      NoReturn(core, n, ops, id);
    }
  }
}
