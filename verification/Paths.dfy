/** How long a private message stays private: until a restart, which keeps no path. */
module Paths {
  import opened Prelude
  import opened Mote
  import opened Outbound
  import opened Delivery
  import opened EngineOk
  import opened Journaling
  import opened Sender
  import Frames
  import Onion
  import OnionLossless
  import Seen

  /** Some restart of the run went through. */
  predicate Restarted(core: Core, n: Node, ops: seq<Op>) {
    ops != [] &&
    var init, last := ops[..|ops| - 1], ops[|ops| - 1];
    Restarted(core, n, init) || (last.Restart? && Restorable(core, Run(core, n, init).journal.disk))
  }

  // --- one operation -----------------------------------------------------------------------------------------

  lemma EntryKeepsPath(core: Core, e: Entry, now: nat, outside: Outside)
    ensures RetryEntry(core, e, outside).0.mixPath == e.mixPath
    ensures StampEntry(ExpireEntry(e, now), now).mixPath == e.mixPath && AckEntry(e).mixPath == e.mixPath
  {
    hide WireFrame;
    if Waiting(e) {
      WireFrameKeeps(core, Apply(e, RetryTimerFires).value, outside.seed(e.id));
    }
  }

  lemma EffectKeepsPath(core: Core, l: Live, op: Op, id: ContentId)
    requires op.Do? && !Submits(op, id)
    ensures var m := Effect(core, l, op.action, op.outside).0;
            id in m.outbound ==> id in l.outbound && m.outbound[id].mixPath == l.outbound[id].mixPath
  {
    hide Effect, RetryEntry, Dispatch, SealedEntry, AckEntry, ExpireEntry, StampEntry, Collectable, SendRefusal;
    EffectOnQueue(core, l, op.action, op.outside);
    if id in l.outbound {
      EntryKeepsPath(core, l.outbound[id], l.now, op.outside);
    }
  }

  lemma RestoredPathless(core: Core, ik: Ik, trace: Trace, d: Disk, id: ContentId)
    requires Restorable(core, d) && id in d.outbound
    ensures id in Restored(core, ik, trace, d).outbound && Restored(core, ik, trace, d).outbound[id].mixPath.None?
  {
  }

  lemma RestoredIds(core: Core, ik: Ik, trace: Trace, d: Disk)
    requires Restorable(core, d)
    ensures Restored(core, ik, trace, d).outbound.Keys == d.outbound.Keys
  {
    hide IntoEntry;
  }

  lemma PerformOnPath(core: Core, n: Node, op: Op, id: ContentId)
    requires !Submits(op, id) && id in Perform(core, n, op).live.outbound
    ensures var e := Perform(core, n, op).live.outbound[id];
            if op.Restart? && Restorable(core, n.journal.disk) then e.mixPath.None?
            else id in n.live.outbound && e.mixPath == n.live.outbound[id].mixPath
  {
    hide Effect, Restored, Restorable, Submits, Snapshot;
    if op.Do? {
      EffectKeepsPath(core, n.live, op, id);
    } else if op.Restart? && Restorable(core, n.journal.disk) {
      RestoredIds(core, n.live.ik, n.live.trace, n.journal.disk);
      RestoredPathless(core, n.live.ik, n.live.trace, n.journal.disk, id);
    }
  }

  // --- whole runs --------------------------------------------------------------------------------------------

  /**
   * Whatever else happens, crashes inside batches and failing saves included, a message that is still tracked has the
   * path it was sent with exactly until a restart goes through, and none afterwards.
   */
  lemma {:induction false} PathUntilRestart(core: Core, n: Node, ops: seq<Op>, id: ContentId)
    requires id in n.live.outbound && forall i :: 0 <= i < |ops| ==> !Submits(ops[i], id)
    requires id in Run(core, n, ops).live.outbound
    ensures Run(core, n, ops).live.outbound[id].mixPath
         == if Restarted(core, n, ops) then None else n.live.outbound[id].mixPath
  {
    hide Perform, Submits, Restorable;
    if ops != [] {
      var init, last := ops[..|ops| - 1], ops[|ops| - 1];
      PerformOnPath(core, Run(core, n, init), last, id);
      if !(last.Restart? && Restorable(core, Run(core, n, init).journal.disk)) {
        PathUntilRestart(core, n, init, id);
      }
    }
  }

  // --- what leaves -------------------------------------------------------------------------------------------

  /** Every attempt for this id left as an onion, and the next one will. */
  ghost predicate InOnions(l: Live, id: ContentId) {
    && (id in l.outbound ==> l.outbound[id].mixPath.Some?)
    && forall p :: p in l.trace.sent && p.purpose.Attempt? && p.purpose.id == id ==> p.purpose.via.Some?
  }

  /** Under this id only sends along a path. */
  predicate Routed(op: Op, id: ContentId) {
    Submits(op, id) ==> op.action.Send? && op.action.route.Some?
  }

  lemma KeptPathWraps(core: Core, e: Entry, seed: Onion.Digest)
    requires e.sealed.Some? && e.mixPath.Some? && Wrappable(core, e)
    ensures WireFrame(core, e, seed).1.purpose.via == e.mixPath
  {
    hide Onion.Wrap, Onion.ToBytes;
    OnionLossless.WrapFailsClosed(core.hash, core.encode(e.sealed.value), e.mixPath.value, seed);
  }

  lemma TrackInOnions(core: Core, l: Live, env: Envelope, to: Ik, expires: Option<nat>, route: Option<Onion.MixPath>,
                      outside: Outside, id: ContentId)
    requires InOnions(l, id)
    requires env.id == id ==>
               && route.Some? && Onion.MIN_PRIVATE_HOPS <= |route.value.hops| <= Onion.R_MAX
               && |core.encode(env)| <= 32 * Onion.FRAGMENT_DATA_LEN
    ensures InOnions(Track(core, l, env, to, expires, route, outside), id)
  {
    hide Track, WireFrame, Frames.Carries;
    Frames.SubmissionStartsFresh(core, l, env, to, expires, route, outside);
    var e := SealedEntry(env, to, l.now, expires, route);
    AttemptIsAbout(core, e, outside.seed(env.id));
    if env.id == id {
      KeptPathWraps(core, e, outside.seed(env.id));
    }
  }

  lemma RetryInOnions(core: Core, l: Live, outside: Outside, id: ContentId)
    requires QueueOk(core, l.outbound, l.trace.submitted) && InOnions(l, id)
    ensures InOnions(RetryPending(core, l, outside), id)
  {
    hide WireFrame, RetryEntry, RetrySent;
    var m := RetryPending(core, l, outside);
    forall p | p in m.trace.sent && p.purpose.Attempt? && p.purpose.id == id
      ensures p.purpose.via.Some?
    {
      RetrySendsOnce(core, l, outside, p);
      if p !in l.trace.sent {
        assert EntryOk(core, l.outbound[id], id, l.trace.submitted);
        KeptPathWraps(core, l.outbound[id].(state := InFlight), outside.seed(id));
      }
    }
    if id in l.outbound {
      EntryKeepsPath(core, l.outbound[id], l.now, outside);
    }
  }

  lemma EffectInOnions(core: Core, l: Live, op: Op, id: ContentId)
    requires QueueOk(core, l.outbound, l.trace.submitted) && InOnions(l, id) && op.Do? && Routed(op, id)
    ensures InOnions(Effect(core, l, op.action, op.outside).0, id)
  {
    hide Effect, Track, RetryPending, SendRefusal, QueueOk, TickOutbound;
    var a := op.action;
    EffectOnQueue(core, l, a, op.outside);
    match a
    case Send(to, env, expires, route, probe) =>
      if SendRefusal(core, l, env, to, route, probe).None? {
        if route.Some? {
          ProbeTells(core, l, env, to, route, probe);
        }
        TrackInOnions(core, l, env, to, expires, route, op.outside, id);
      }
    case DispatchSealed(to, env) => TrackInOnions(core, l, env, to, None, None, op.outside, id);
    case Retry => RetryInOnions(core, l, op.outside, id);
    case _ =>
      Frames.OthersSendReceipts(core, l, a, op.outside);
      EffectKeepsPath(core, l, op, id);
  }

  /**
   * No quiet downgrade: a message submitted along a path only never leaves the node in the clear, on no attempt of
   * any run in which no restart went through.
   */
  lemma {:induction false} PrivateStaysPrivate(core: Core, ik: Ik, ops: seq<Op>, id: ContentId)
    requires Lawful(core) && !Restarted(core, First(ik), ops) && forall i :: 0 <= i < |ops| ==> Routed(ops[i], id)
    ensures InOnions(Run(core, First(ik), ops).live, id)
  {
    hide Effect, Lawful, NodeOk, InOnions, Routed, Restorable, Restored, Snapshot;
    if ops == [] {
      NothingInOnions(ik, id);
    } else {
      var init, last := ops[..|ops| - 1], ops[|ops| - 1];
      var before := Run(core, First(ik), init);
      PrivateStaysPrivate(core, ik, init, id);
      FirstOk(core, ik);
      RunKeeps(core, First(ik), init);
      NodeQueue(core, before);
      if last.Do? {
        EffectInOnions(core, before.live, last, id);
      }
    }
  }

  lemma NothingInOnions(ik: Ik, id: ContentId)
    ensures InOnions(First(ik).live, id)
  {
  }

  lemma NodeQueue(core: Core, n: Node)
    requires NodeOk(core, n)
    ensures QueueOk(core, n.live.outbound, n.live.trace.submitted)
  {
  }

  /**
   * And a restart does downgrade: of every message that waits in the journal, private ones included, the next
   * retry pass sends the sealed bytes as they are to the recipient itself.
   */
  lemma RestartSendsClear(core: Core, n: Node, id: ContentId, outside: Outside)
    requires Lawful(core) && NodeOk(core, n) && Restorable(core, n.journal.disk)
    requires id in n.live.outbound && n.live.outbound[id].sealed.Some? && n.live.outbound[id].state.Retry?
    requires InStep(core, n.live, n.journal.disk)
    ensures var e, r := n.live.outbound[id], Perform(core, n, Restart).live;
            var clear := Packet(e.to, MoteFrame(core.encode(e.sealed.value)), Attempt(id, None));
            RetryPending(core, r, outside).trace.sent[clear] == n.live.trace.sent[clear] + 1
  {
    hide Lawful, NodeOk, Restorable, RetryPending, WireFrame, InStep, Restored;
    var e, r := n.live.outbound[id], Perform(core, n, Restart).live;
    PerformKeeps(core, n, Restart);
    NodeQueue(core, Perform(core, n, Restart));
    RestoredTrace(core, n.live.ik, n.live.trace, n.journal.disk);
    RestoredWaits(core, n, id);
    RetryMovesWaiting(core, r, id, outside);
    ClearFrame(core, e.Durable().(state := InFlight), outside.seed(id));
  }

  lemma ClearFrame(core: Core, e: Entry, seed: Onion.Digest)
    requires e.sealed.Some? && e.mixPath.None?
    ensures WireFrame(core, e, seed).1 == Packet(e.to, MoteFrame(core.encode(e.sealed.value)), Attempt(e.id, None))
  {
  }

  lemma RestoredWaits(core: Core, n: Node, id: ContentId)
    requires Lawful(core) && NodeOk(core, n) && InStep(core, n.live, n.journal.disk) && id in n.live.outbound
    requires Restorable(core, n.journal.disk)
    ensures var r := Restored(core, n.live.ik, n.live.trace, n.journal.disk);
            && id in r.outbound && r.outbound[id] == n.live.outbound[id].Durable() && n.live.outbound[id].id == id
  {
    hide IntoEntry, FromEntry, Seen.RecordAll, DiskOk, Seen.Pairs, Lawful;
    assert EntryOk(core, n.live.outbound[id], id, n.live.trace.submitted);
    assert id in n.journal.disk.outbound;
    IntoEntryOfFromEntry(core, n.live.outbound[id]);
  }
}
