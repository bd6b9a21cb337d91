/** What becomes of a message that reached its peer and is never acked: a sensitive one delivered once, say. */
module Unacked {
  import opened Prelude
  import opened Mote
  import opened Outbound
  import opened Delivery
  import opened EngineOk
  import opened Journaling
  import opened Sender
  import Frames
  import Onion
  import Paths

  /** Handed over, and nothing heard since. */
  predicate Unheard(e: Entry) { (e.state.InFlight? || e.state.Expired?) && !e.deliveredLate }

  /** As many attempts for this id as before. */
  ghost predicate NoAttempt(id: ContentId, few: multiset<Packet>, many: multiset<Packet>) {
    forall p: Packet :: p.purpose.Attempt? && p.purpose.id == id ==> many[p] == few[p]
  }

  lemma EntryStaysUnheard(core: Core, e: Entry, now: nat, outside: Outside)
    requires Unheard(e)
    ensures RetryEntry(core, e, outside).0 == e && Unheard(StampEntry(ExpireEntry(e, now), now))
  {
  }

  lemma EffectUnheard(core: Core, l: Live, op: Op, id: ContentId)
    requires op.Do? && !Submits(op, id)
    requires id in l.outbound ==> Unheard(l.outbound[id]) && !Acks(op, l.outbound[id].to, id)
    ensures var m := Effect(core, l, op.action, op.outside).0;
            id in m.outbound ==> id in l.outbound && Unheard(m.outbound[id])
  {
    hide Effect, Unheard, RetryEntry, Dispatch, SealedEntry, ExpireEntry, StampEntry, Collectable, SendRefusal;
    EffectOnQueue(core, l, op.action, op.outside);
    if id in l.outbound {
      EntryStaysUnheard(core, l.outbound[id], l.now, op.outside);
    }
  }

  lemma TrackNoAttempt(core: Core, l: Live, env: Envelope, to: Ik, expires: Option<nat>,
                       route: Option<Onion.MixPath>, outside: Outside, id: ContentId)
    requires env.id != id
    ensures NoAttempt(id, l.trace.sent, Track(core, l, env, to, expires, route, outside).trace.sent)
  {
    hide WireFrame;
    AttemptIsAbout(core, SealedEntry(env, to, l.now, expires, route), outside.seed(env.id));
  }

  lemma RetryNoAttempt(core: Core, l: Live, outside: Outside, id: ContentId)
    requires QueueOk(core, l.outbound, l.trace.submitted) && (id in l.outbound ==> !Waiting(l.outbound[id]))
    ensures NoAttempt(id, l.trace.sent, RetryPending(core, l, outside).trace.sent)
  {
    hide RetryPending, QueueOk, RetryPacket, Waiting;
    forall p: Packet | p.purpose.Attempt? && p.purpose.id == id
      ensures RetryPending(core, l, outside).trace.sent[p] == l.trace.sent[p]
    {
      RetrySendsOnce(core, l, outside, p);
    }
  }

  lemma EffectNoAttempt(core: Core, l: Live, op: Op, id: ContentId)
    requires QueueOk(core, l.outbound, l.trace.submitted) && op.Do? && !Submits(op, id)
    requires id in l.outbound ==> !Waiting(l.outbound[id])
    ensures NoAttempt(id, l.trace.sent, Effect(core, l, op.action, op.outside).0.trace.sent)
  {
    hide Effect, Track, RetryPending, SendRefusal, QueueOk, Waiting, NoAttempt;
    var a := op.action;
    EffectOnQueue(core, l, a, op.outside);
    SameNoAttempt(id, l, l);
    match a
    case Send(to, env, expires, route, _) => TrackNoAttempt(core, l, env, to, expires, route, op.outside, id);
    case DispatchSealed(to, env) => TrackNoAttempt(core, l, env, to, None, None, op.outside, id);
    case Retry => RetryNoAttempt(core, l, op.outside, id);
    case _ =>
      Frames.OthersSendReceipts(core, l, a, op.outside);
      SameNoAttempt(id, l, Effect(core, l, a, op.outside).0);
  }

  lemma SameNoAttempt(id: ContentId, l: Live, m: Live)
    requires Frames.SameAttempts(l, m)
    ensures NoAttempt(id, l.trace.sent, m.trace.sent)
  {
  }

  // --- whole runs --------------------------------------------------------------------------------------------

  lemma NotWaiting(e: Entry)
    ensures Unheard(e) ==> !Waiting(e)
    ensures Unheard(e.Durable()) == Unheard(e)
  {
  }

  lemma PerformUnheard(core: Core, n: Node, op: Op, id: ContentId)
    requires Lawful(core) && NodeOk(core, n) && !Submits(op, id)
    requires op.Restart? ==> InStep(core, n.live, n.journal.disk)
    requires id in n.live.outbound ==> Unheard(n.live.outbound[id]) && !Acks(op, n.live.outbound[id].to, id)
    ensures var m := Perform(core, n, op).live;
            && NoAttempt(id, n.live.trace.sent, m.trace.sent)
            && (id in m.outbound ==> id in n.live.outbound && Unheard(m.outbound[id])
                                     && m.outbound[id].to == n.live.outbound[id].to)
  {
    hide Effect, Unheard, Restored, Restorable, InStep, Lawful, DedupOk, MarksOk, DiskOk, Snapshot, Waiting, QueueOk,
         Submits, Acks, Collected;
    if id in n.live.outbound {
      NotWaiting(n.live.outbound[id]);
      PerformExplained(core, n, op, id);
    }
    if op.Do? {
      EffectUnheard(core, n.live, op, id);
      EffectNoAttempt(core, n.live, op, id);
    } else if op.Restart? && Restorable(core, n.journal.disk) {
      RestoredTrace(core, n.live.ik, n.live.trace, n.journal.disk);
      RestoredKeys(core, n);
      if id in n.live.outbound {
        Paths.RestoredWaits(core, n, id);
      }
    }
  }

  /**
   * A message that reached its peer is not sent again, whatever happens, as long as its recipient does not ack it; and
   * it stays unheard while it is tracked.
   */
  lemma {:induction false} SentOnceUnlessAcked(core: Core, n: Node, ops: seq<Op>, id: ContentId)
    requires Lawful(core) && NodeOk(core, n) && Synced(core, n) && !n.journal.deferred && Orderly(ops)
    requires id in n.live.outbound && Unheard(n.live.outbound[id])
    requires forall i :: 0 <= i < |ops| ==> !Submits(ops[i], id) && !Acks(ops[i], n.live.outbound[id].to, id)
    ensures var m := Run(core, n, ops).live;
            && NoAttempt(id, n.live.trace.sent, m.trace.sent)
            && (id in m.outbound ==> Unheard(m.outbound[id]) && m.outbound[id].to == n.live.outbound[id].to)
  {
    hide Perform, Lawful, NodeOk, InStep, Unheard, Submits, Acks;
    if ops != [] {
      var init, last := ops[..|ops| - 1], ops[|ops| - 1];
      SentOnceUnlessAcked(core, n, init, id);
      RunKeeps(core, n, init);
      RunSynced(core, n, init);
      PerformUnheard(core, Run(core, n, init), last, id);
    }
  }

  /**
   * So a message that was handed over and is never acked ends expired, unreported and sent that once: what becomes of
   * every sensitive message delivered once, since its delivery is not acked.
   */
  lemma UnackedEndsExpired(core: Core, n: Node, ops: seq<Op>, id: ContentId, outside: Outside)
    requires Lawful(core) && NodeOk(core, n) && Synced(core, n) && !n.journal.deferred
    requires Orderly(ops + [Do(Tick, outside)])
    requires id in n.live.outbound && n.live.outbound[id].state.InFlight?
    requires forall i :: 0 <= i < |ops| ==> !Submits(ops[i], id) && !Acks(ops[i], n.live.outbound[id].to, id)
    requires Run(core, n, ops).live.now >= n.live.outbound[id].deadline
    ensures var m := Run(core, n, ops + [Do(Tick, outside)]).live;
            && NoAttempt(id, n.live.trace.sent, m.trace.sent)
            && (id in m.outbound ==> m.outbound[id].state.Expired? && !m.outbound[id].deliveredLate)
  {
    hide *;
    var tick, to := Do(Tick, outside), n.live.outbound[id].to;
    OrderlyButLast(ops, tick);
    InFlightIsUnheard(core, n, id);
    DeadlineTickStamps(core, n, ops, id, outside);
    forall i | 0 <= i < |ops + [tick]|
      ensures !Submits((ops + [tick])[i], id) && !Acks((ops + [tick])[i], to, id)
    {
      if i < |ops| {
        assert (ops + [tick])[i] == ops[i];
      } else {
        TicksOnly(tick, to, id);
      }
    }
    SentOnceUnlessAcked(core, n, ops + [tick], id);
    TerminalIsExpired(Run(core, n, ops + [tick]).live, id);
  }

  lemma OrderlyButLast(ops: seq<Op>, op: Op)
    requires Orderly(ops + [op])
    ensures Orderly(ops)
  {
    assert (ops + [op])[..|ops + [op]| - 1] == ops;
  }

  lemma TicksOnly(op: Op, to: Ik, id: ContentId)
    requires op.Do? && op.action.Tick?
    ensures !Submits(op, id) && !Acks(op, to, id)
  {
  }

  lemma InFlightIsUnheard(core: Core, n: Node, id: ContentId)
    requires NodeOk(core, n) && id in n.live.outbound && n.live.outbound[id].state.InFlight?
    ensures Unheard(n.live.outbound[id])
  {
    hide NodeOk;
    LateIsExpired(core, n, id);
  }

  lemma TerminalIsExpired(l: Live, id: ContentId)
    requires id in l.outbound ==> Unheard(l.outbound[id]) && l.outbound[id].state.Terminal()
    ensures id in l.outbound ==> l.outbound[id].state.Expired? && !l.outbound[id].deliveredLate
  {
  }
}
