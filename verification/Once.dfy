/** At-most-once acceptance, metering, and the ephemeral buffer, over whole runs of a node. */
module Once {
  import opened Prelude
  import opened Mote
  import opened Outbound
  import opened Delivery
  import opened EngineOk
  import opened Receiving
  import opened Journaling
  import RateGate
  import Seen

  function Count(accepted: seq<Acceptance>, id: ContentId): nat {
    if accepted == [] then 0
    else Count(accepted[..|accepted| - 1], id) + (if accepted[|accepted| - 1].id == id then 1 else 0)
  }

  lemma CountPush(accepted: seq<Acceptance>, a: Acceptance, id: ContentId)
    ensures Count(accepted + [a], id) == Count(accepted, id) + (if a.id == id then 1 else 0)
  {
    assert (accepted + [a])[..|accepted|] == accepted;
  }

  // --- one operation -----------------------------------------------------------------------------------------

  /** While an id is held and in its window, nothing accepts it again; each other acceptance moves it one place. */
  lemma MoteOnce(core: Core, l: Live, from: Ik, bytes: Bytes, v: Verdict, id: ContentId, lo: nat, k: nat)
    requires Lawful(core) && Seen.Kept(l.seen, id, lo, k) && k < Seen.MAX_SEEN && DedupOk(l.seen)
    requires SaturatingSub(l.now, lo) < Seen.DEDUP_WINDOW_MS
    ensures var m := ReceiveMote(core, l, from, bytes, v).0;
            && |m.trace.accepted| >= |l.trace.accepted|
            && Seen.Kept(m.seen, id, lo, k + |m.trace.accepted| - |l.trace.accepted|)
            && Count(m.trace.accepted, id) == Count(l.trace.accepted, id)
  {
    HeldIsContained(l.seen, id, lo, k, l.now);
    hide ReceiveMote, Seen.Record, Seen.Contains, Seen.SetOk, Seen.Kept, Filed, Surfaced, Count;
    ReceiveMoteCases(core, l, from, bytes, v);
    var (m, o) := ReceiveMote(core, l, from, bytes, v);
    if AcceptedOutcome(o) {
      var env := core.decode(bytes).value;
      var a := AcceptanceOf(env, core.check(env, l.ik, from in l.contacts).payload, |bytes|);
      Seen.RecordKeeps(l.seen, id, lo, k, env.id, from, l.now);
      CountPush(l.trace.accepted, a, id);
    }
  }

  lemma HeldIsContained(s: Seen.Set, id: ContentId, lo: nat, k: nat, now: nat)
    requires Seen.Kept(s, id, lo, k) && s.window == Seen.DEDUP_WINDOW_MS
    requires SaturatingSub(now, lo) < Seen.DEDUP_WINDOW_MS
    ensures Seen.Contains(s, id, now) && !Seen.Expired(s, lo, now)
  {
  }

  lemma EffectOnce(core: Core, l: Live, a: Action, outside: Outside, id: ContentId, lo: nat, k: nat)
    requires Lawful(core) && Seen.Kept(l.seen, id, lo, k) && k < Seen.MAX_SEEN && DedupOk(l.seen)
    requires SaturatingSub(l.now, lo) < Seen.DEDUP_WINDOW_MS
    ensures var m := Effect(core, l, a, outside).0;
            && |m.trace.accepted| >= |l.trace.accepted|
            && Seen.Kept(m.seen, id, lo, k + |m.trace.accepted| - |l.trace.accepted|)
            && Count(m.trace.accepted, id) == Count(l.trace.accepted, id)
  {
    hide Effect, ReceiveMote, Seen.Kept, Count, DedupOk;
    EffectOnSeen(core, l, a, outside);
    if a.Arrive? && a.frame.MoteFrame? {
      ReceiveIsEffect(core, l, a, outside);
      MoteOnce(core, l, a.from, a.frame.bytes, a.verdict, id, lo, k);
    }
  }

  /** A restart stamps every held id anew and keeps its place. */
  lemma RestartOnce(core: Core, n: Node, id: ContentId, lo: nat, k: nat)
    requires NodeOk(core, n) && InStep(core, n.live, n.journal.disk) && Restorable(core, n.journal.disk)
    requires Seen.Kept(n.live.seen, id, lo, k) && lo <= BOOT_MS
    ensures Seen.Kept(Restored(core, n.live.ik, n.live.trace, n.journal.disk).seen, id, lo, k)
  {
    hide IntoEntry, Persisted, Seen.RecordAll, Seen.Pairs, Seen.SetOk, QueueOk, DiskOk, MarksOk;
    Seen.RestoreOfPairs(n.live.seen, BOOT_MS);
  }

  // --- whole runs ----------------------------------------------------------------------------------------------

  /** At each operation of the run the clock is within the dedup window of `lo`. */
  ghost predicate InWindow(core: Core, n: Node, ops: seq<Op>, lo: nat) {
    forall j :: 0 <= j < |ops| ==> SaturatingSub(Run(core, n, ops[..j]).live.now, lo) < Seen.DEDUP_WINDOW_MS
  }

  lemma InWindowBefore(core: Core, n: Node, ops: seq<Op>, lo: nat)
    requires ops != [] && InWindow(core, n, ops, lo)
    ensures InWindow(core, n, ops[..|ops| - 1], lo)
    ensures SaturatingSub(Run(core, n, ops[..|ops| - 1]).live.now, lo) < Seen.DEDUP_WINDOW_MS
  {
    hide Run;
    var before := ops[..|ops| - 1];
    forall j | 0 <= j < |before|
      ensures SaturatingSub(Run(core, n, before[..j]).live.now, lo) < Seen.DEDUP_WINDOW_MS
    {
      assert before[..j] == ops[..j];
    }
  }

  /** How many MOTEs the run accepted. */
  function Taken(core: Core, n: Node, ops: seq<Op>): int {
    |Run(core, n, ops).live.trace.accepted| - |n.live.trace.accepted|
  }

  lemma {:induction false} AcceptedGrows(core: Core, n: Node, ops: seq<Op>)
    ensures |Run(core, n, ops).live.trace.accepted| >= |n.live.trace.accepted|
  {
    hide Effect, Snapshot, Restored, Restorable;
    if ops != [] {
      var before := Run(core, n, ops[..|ops| - 1]);
      var op := ops[|ops| - 1];
      AcceptedGrows(core, n, ops[..|ops| - 1]);
      if op.Do? {
        EffectAccepts(core, before.live, op.action, op.outside);
      } else if op.Restart? && Restorable(core, before.journal.disk) {
        RestoredTrace(core, before.live.ik, before.live.trace, before.journal.disk);
      }
    }
  }

  lemma EffectAccepts(core: Core, l: Live, a: Action, outside: Outside)
    ensures var m := Effect(core, l, a, outside).0;
            |l.trace.accepted| <= |m.trace.accepted| <= |l.trace.accepted| + 1
  {
    hide Effect, ReceiveMote, Seen.Record, Filed, Surfaced;
    EffectOnSeen(core, l, a, outside);
    if a.Arrive? && a.frame.MoteFrame? {
      ReceiveIsEffect(core, l, a, outside);
      ReceiveMoteCases(core, l, a.from, a.frame.bytes, a.verdict);
    }
  }

  /**
   * At most once: an id held since `lo`, with room for `k` more above it, is not accepted again in any
   * orderly run that stays within the dedup window and does not overflow the set, however often and from
   * wherever it is redelivered, restarts included.
   */
  lemma {:induction false} HeldIsNotAccepted(core: Core, n: Node, ops: seq<Op>, id: ContentId, lo: nat, k: nat)
    requires Lawful(core) && NodeOk(core, n) && Synced(core, n) && !n.journal.deferred && Orderly(ops)
    requires Seen.Kept(n.live.seen, id, lo, k) && k + Taken(core, n, ops) <= Seen.MAX_SEEN && k < Seen.MAX_SEEN
    requires InWindow(core, n, ops, lo) && forall i :: 0 <= i < |ops| && ops[i].Restart? ==> lo <= BOOT_MS
    ensures var m := Run(core, n, ops).live;
            && Taken(core, n, ops) >= 0
            && Seen.Kept(m.seen, id, lo, k + Taken(core, n, ops))
            && Count(m.trace.accepted, id) == Count(n.live.trace.accepted, id)
  {
    hide Perform, NodeOk, Synced, InWindow, Seen.Kept, Count, Lawful;
    if ops != [] {
      var before := Run(core, n, ops[..|ops| - 1]);
      var op := ops[|ops| - 1];
      AcceptedGrows(core, n, ops[..|ops| - 1]);
      StepGrows(core, before, op);
      InWindowBefore(core, n, ops, lo);
      HeldIsNotAccepted(core, n, ops[..|ops| - 1], id, lo, k);
      RunKeeps(core, n, ops[..|ops| - 1]);
      RunSynced(core, n, ops[..|ops| - 1]);
      PerformOnce(core, before, op, id, lo, k + Taken(core, n, ops[..|ops| - 1]));
    }
  }

  lemma StepGrows(core: Core, n: Node, op: Op)
    ensures |Perform(core, n, op).live.trace.accepted| >= |n.live.trace.accepted|
  {
    hide Perform;
    RunOne(core, n, op);
    AcceptedGrows(core, n, [op]);
  }

  lemma PerformOnce(core: Core, n: Node, op: Op, id: ContentId, lo: nat, k: nat)
    requires Lawful(core) && NodeOk(core, n) && Synced(core, n)
    requires op.Restart? ==> !n.journal.deferred
    requires Seen.Kept(n.live.seen, id, lo, k) && (op.Restart? ==> lo <= BOOT_MS)
    requires k + |Perform(core, n, op).live.trace.accepted| - |n.live.trace.accepted| <= Seen.MAX_SEEN
    requires SaturatingSub(n.live.now, lo) < Seen.DEDUP_WINDOW_MS
    ensures var m := Perform(core, n, op).live;
            && |m.trace.accepted| >= |n.live.trace.accepted|
            && Seen.Kept(m.seen, id, lo, k + |m.trace.accepted| - |n.live.trace.accepted|)
            && Count(m.trace.accepted, id) == Count(n.live.trace.accepted, id)
  {
    hide Effect, Snapshot, Restored, Restorable, InStep, Seen.Kept, Count, Lawful, QueueOk, DiskOk, MarksOk, DedupOk;
    if op.Do? {
      EffectAccepts(core, n.live, op.action, op.outside);
      if k < Seen.MAX_SEEN {
        EffectOnce(core, n.live, op.action, op.outside, id, lo, k);
      } else {
        NothingMore(core, n.live, op.action, op.outside);
      }
    } else if op.Restart? && Restorable(core, n.journal.disk) {
      RestartOnce(core, n, id, lo, k);
      RestoredTrace(core, n.live.ik, n.live.trace, n.journal.disk);
    }
  }

  /** An operation that accepts nothing leaves the dedup set and the record of acceptances alone. */
  lemma NothingMore(core: Core, l: Live, a: Action, outside: Outside)
    ensures var m := Effect(core, l, a, outside).0;
            |m.trace.accepted| == |l.trace.accepted| ==> m.seen == l.seen && m.trace.accepted == l.trace.accepted
  {
    hide Effect, ReceiveMote, Seen.Record, Filed, Surfaced;
    EffectOnSeen(core, l, a, outside);
    if a.Arrive? && a.frame.MoteFrame? {
      ReceiveIsEffect(core, l, a, outside);
      ReceiveMoteCases(core, l, a.from, a.frame.bytes, a.verdict);
    }
  }

  /**
   * From the acceptance on: a MOTE just accepted, under an id the set did not hold, is accepted no second
   * time while the clock stays within the window of `lo` and until 100 000 others are.  `lo` is the time
   * of the acceptance, or that of a restarted clock if the node restarts and that is earlier.
   */
  lemma AcceptedOnce(core: Core, n: Node, op: Op, ops: seq<Op>, lo: nat)
    requires Lawful(core) && NodeOk(core, n) && Synced(core, n) && !n.journal.deferred && Orderly(ops)
    requires op.Do? && op.action.Arrive? && op.action.frame.MoteFrame?
    requires NewlyAccepted(core, n.live, op.action)
    requires lo <= n.live.now && forall i :: 0 <= i < |ops| && ops[i].Restart? ==> lo <= BOOT_MS
    requires InWindow(core, Perform(core, n, op), ops, lo) && Taken(core, Perform(core, n, op), ops) < 100_000
    ensures core.decode(op.action.frame.bytes).Some?
    ensures var id := core.decode(op.action.frame.bytes).value.id;
            Count(Run(core, Perform(core, n, op), ops).live.trace.accepted, id) == Count(n.live.trace.accepted, id) + 1
  {
    hide Perform, NodeOk, Synced, InWindow, Seen.Kept, Count, Lawful, Taken, NewlyAccepted;
    var m := Perform(core, n, op);
    PerformKeeps(core, n, op);
    PerformSynced(core, n, op);
    StillClosed(core, n, op);
    AcceptedIsHeld(core, n, op, lo);
    HeldIsNotAccepted(core, m, ops, core.decode(op.action.frame.bytes).value.id, lo, 1);
  }

  /** The frame is accepted, and its id is not held. */
  predicate NewlyAccepted(core: Core, l: Live, a: Action)
    requires a.Arrive? && a.frame.MoteFrame?
  {
    && core.decode(a.frame.bytes).Some? && core.decode(a.frame.bytes).value.id !in l.seen.entries
    && AcceptedOutcome(ReceiveMote(core, l, a.from, a.frame.bytes, a.verdict).1)
  }

  lemma StillClosed(core: Core, n: Node, op: Op)
    requires op.Do?
    ensures Perform(core, n, op).journal.deferred == n.journal.deferred
  {
    hide Effect, Snapshot;
  }

  lemma AcceptedIsHeld(core: Core, n: Node, op: Op, lo: nat)
    requires op.Do? && op.action.Arrive? && op.action.frame.MoteFrame? && NodeOk(core, n)
    requires NewlyAccepted(core, n.live, op.action) && lo <= n.live.now
    ensures core.decode(op.action.frame.bytes).Some?
    ensures var id, m := core.decode(op.action.frame.bytes).value.id, Perform(core, n, op).live;
            Seen.Kept(m.seen, id, lo, 1) && Count(m.trace.accepted, id) == Count(n.live.trace.accepted, id) + 1
  {
    hide Effect, ReceiveMote, Snapshot, Seen.Record, Seen.SetOk, Filed, Surfaced, Count, Seen.Youngest, DiskOk, QueueOk;
    var a, l := op.action, n.live;
    ReceiveIsEffect(core, l, a, op.outside);
    ReceiveMoteCases(core, l, a.from, a.frame.bytes, a.verdict);
    var env := core.decode(a.frame.bytes).value;
    Seen.RecordEnters(l.seen, env.id, a.from, l.now);
    var p := core.check(env, l.ik, a.from in l.contacts).payload;
    CountPush(l.trace.accepted, AcceptanceOf(env, p, |a.frame.bytes|), env.id);
  }

  // --- metering --------------------------------------------------------------------------------------------------

  function Sum(sizes: seq<nat>): nat {
    if sizes == [] then 0 else Sum(sizes[..|sizes| - 1]) + sizes[|sizes| - 1]
  }

  lemma SumPush(sizes: seq<nat>, x: nat)
    ensures Sum(sizes + [x]) == Sum(sizes) + x
  {
    assert (sizes + [x])[..|sizes|] == sizes;
  }

  /** The wire sizes of what was stored, in order. */
  function StoredSizes(accepted: seq<Acceptance>): seq<nat> {
    if accepted == [] then []
    else
      var last := accepted[|accepted| - 1];
      StoredSizes(accepted[..|accepted| - 1]) + (if last.stored then [last.size] else [])
  }

  lemma StoredPush(accepted: seq<Acceptance>, a: Acceptance)
    ensures StoredSizes(accepted + [a]) == StoredSizes(accepted) + (if a.stored then [a.size] else [])
  {
    assert (accepted + [a])[..|accepted|] == accepted;
  }

  /** Billed is what was stored, message by message, and no more than the quota granted. */
  ghost predicate Billed(t: Trace) {
    t.metered == StoredSizes(t.accepted) && Sum(t.metered) <= Sum(t.granted)
  }

  lemma MoteBilled(core: Core, l: Live, from: Ik, bytes: Bytes, v: Verdict)
    requires Billed(l.trace)
    ensures Billed(ReceiveMote(core, l, from, bytes, v).0.trace)
  {
    hide ReceiveMote, Seen.Record, Seen.Contains, Sum, StoredSizes, Surface;
    ReceiveMoteCases(core, l, from, bytes, v);
    var (m, o) := ReceiveMote(core, l, from, bytes, v);
    SumPush(l.trace.granted, |bytes|);
    SumPush(l.trace.metered, |bytes|);
    if AcceptedOutcome(o) {
      var env := core.decode(bytes).value;
      StoredPush(l.trace.accepted, AcceptanceOf(env, core.check(env, l.ik, from in l.contacts).payload, |bytes|));
    }
  }

  /** In every run, crashes included, metering is conserved. */
  lemma {:induction false} RunBilled(core: Core, n: Node, ops: seq<Op>)
    requires Billed(n.live.trace)
    ensures Billed(Run(core, n, ops).live.trace)
  {
    hide Effect, Snapshot, Restored, Restorable, ReceiveMote;
    if ops != [] {
      var before := Run(core, n, ops[..|ops| - 1]);
      var op := ops[|ops| - 1];
      RunBilled(core, n, ops[..|ops| - 1]);
      if op.Do? {
        EffectOnSeen(core, before.live, op.action, op.outside);
        if op.action.Arrive? && op.action.frame.MoteFrame? {
          ReceiveIsEffect(core, before.live, op.action, op.outside);
          MoteBilled(core, before.live, op.action.from, op.action.frame.bytes, op.action.verdict);
        }
      } else if op.Restart? && Restorable(core, before.journal.disk) {
        RestoredTrace(core, before.live.ik, before.live.trace, before.journal.disk);
      }
    }
  }

  lemma MeteringConserved(core: Core, ik: Ik, ops: seq<Op>)
    ensures var t := Run(core, First(ik), ops).live.trace;
            && t.metered == StoredSizes(t.accepted)
            && Sum(t.metered) == Sum(StoredSizes(t.accepted)) <= Sum(t.granted)
  {
    RunBilled(core, First(ik), ops);
  }

  // --- the ephemeral buffer ----------------------------------------------------------------------------------------

  function Tail<T>(s: seq<T>, n: nat): seq<T> { if |s| <= n then s else s[|s| - n..] }

  lemma SurfaceIsTail(surfaced: seq<(ContentId, Bytes)>, x: (ContentId, Bytes))
    ensures Surface(Tail(surfaced, MAX_EPHEMERAL_HELD), x.0, x.1) == Tail(surfaced + [x], MAX_EPHEMERAL_HELD)
  {
  }

  lemma MoteSurfaces(core: Core, l: Live, from: Ik, bytes: Bytes, v: Verdict)
    requires l.ephemeral == Tail(l.trace.surfaced, MAX_EPHEMERAL_HELD)
    ensures var m := ReceiveMote(core, l, from, bytes, v).0; m.ephemeral == Tail(m.trace.surfaced, MAX_EPHEMERAL_HELD)
  {
    hide ReceiveMote, Seen.Record, Seen.Contains, Surface, Tail;
    ReceiveMoteCases(core, l, from, bytes, v);
    var (m, o) := ReceiveMote(core, l, from, bytes, v);
    if o.EphemeralDelivered? {
      SurfaceIsTail(l.trace.surfaced, m.trace.surfaced[|l.trace.surfaced|]);
    }
  }

  lemma QuietSurfaces(core: Core, l: Live, a: Action, outside: Outside)
    requires !(a.Arrive? && a.frame.MoteFrame?)
    ensures var m := Effect(core, l, a, outside).0;
            if a.TakeEphemeral? then m.ephemeral == [] && m.trace.surfaced == []
            else m.ephemeral == l.ephemeral && m.trace.surfaced == l.trace.surfaced
  {
    hide Dispatch, SealedEntry, RetrySent, TickOutbound, SendRefusal, RateGate.Admit, RateGate.Admits;
  }

  /** The buffer is always the last 256 surfaced since it was last taken or lost to a restart. */
  lemma {:induction false} EphemeralIsTail(core: Core, ik: Ik, ops: seq<Op>)
    ensures var l := Run(core, First(ik), ops).live; l.ephemeral == Tail(l.trace.surfaced, 256)
  {
    hide Effect, Snapshot, Restorable, ReceiveMote, Tail, Seen.RecordAll, IntoEntry;
    EmptyTail();
    if ops != [] {
      var before := Run(core, First(ik), ops[..|ops| - 1]);
      var op := ops[|ops| - 1];
      EphemeralIsTail(core, ik, ops[..|ops| - 1]);
      if op.Do? {
        if op.action.Arrive? && op.action.frame.MoteFrame? {
          ReceiveIsEffect(core, before.live, op.action, op.outside);
          MoteSurfaces(core, before.live, op.action.from, op.action.frame.bytes, op.action.verdict);
        } else {
          QuietSurfaces(core, before.live, op.action, op.outside);
        }
      }
    }
  }

  lemma EmptyTail()
    ensures Tail<(ContentId, Bytes)>([], MAX_EPHEMERAL_HELD) == []
  {
  }

  // --- acks ----------------------------------------------------------------------------------------------------------

  /**
   * Which dispositions send an ack.  The documentation promises one for a surfaced sensitive message too;
   * the code returns before it.
   */
  lemma AckExactly(core: Core, l: Live, from: Ik, bytes: Bytes, v: Verdict)
    ensures var (m, o) := ReceiveMote(core, l, from, bytes, v);
            && (o.Stored? || o.Duplicate? ==>
                  m.trace.sent == l.trace.sent + multiset{Packet(from, AckFrame(o.id), Receipt)})
            && (!o.Stored? && !o.Duplicate? ==> m.trace.sent == l.trace.sent)
            && (o.EphemeralDelivered? ==> o.Acked() && m.trace.sent == l.trace.sent)
  {
    hide ReceiveMote, Seen.Record, Seen.Contains, Surface;
    ReceiveMoteCases(core, l, from, bytes, v);
  }

  /** A sensitive MOTE with everything in its favour is surfaced and counts as acked, yet no ack leaves. */
  lemma SensitiveIsNotAcked(core: Core, l: Live, from: Ik, bytes: Bytes, v: Verdict)
    requires core.decode(bytes).Some? && Due(core, l, from, core.decode(bytes).value, v)
    requires core.check(core.decode(bytes).value, l.ik, from in l.contacts).payload.sensitive
    ensures var (m, o) := ReceiveMote(core, l, from, bytes, v);
            && o == EphemeralDelivered(core.decode(bytes).value.id) && o.Acked()
            && m.trace.sent == l.trace.sent
            && m.trace.surfaced == l.trace.surfaced
                 + [(o.id, core.render(core.check(core.decode(bytes).value, l.ik, from in l.contacts).payload))]
  {
    hide ReceiveMote, Due, Seen.Record, Seen.Contains, Surface;
    AcceptedExactly(core, l, from, bytes, v);
    ReceiveMoteCases(core, l, from, bytes, v);
  }
}
