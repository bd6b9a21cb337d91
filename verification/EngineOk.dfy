/** What every operation of the delivery engine keeps, from the first boot on, crashes and failing saves included. */
module EngineOk {
  import opened Prelude
  import opened Mote
  import opened Outbound
  import opened MixDirectory
  import opened Delivery
  import opened Receiving
  import Onion
  import OnionLossless
  import RateGate
  import Seen

  /** A path that was checked when the message was sent still takes the message. */
  predicate Wrappable(core: Core, e: Entry)
    requires e.sealed.Some?
  {
    e.mixPath.Some? ==>
      && e.tier.Private?
      && Onion.MIN_PRIVATE_HOPS <= |e.mixPath.value.hops| <= Onion.R_MAX
      && |core.encode(e.sealed.value)| <= 32 * Onion.FRAGMENT_DATA_LEN
  }

  /** An entry of the queue: dispatched at least once, sealed under its own id, stamped only when terminal. */
  ghost predicate EntryOk(core: Core, e: Entry, id: ContentId, submitted: set<Envelope>) {
    && e.id == id
    && e.sealed.Some? && e.sealed.value.id == id && e.sealed.value in submitted
    && !e.state.Queued? && !e.state.Sealed?
    && (e.terminalAt.Some? ==> e.state.Terminal())
    && (e.deliveredLate ==> e.state.Expired?)
    && Wrappable(core, e)
  }

  ghost predicate QueueOk(core: Core, outbound: map<ContentId, Entry>, submitted: set<Envelope>) {
    forall id :: id in outbound ==> EntryOk(core, outbound[id], id, submitted)
  }

  ghost predicate DedupOk(s: Seen.Set) {
    Seen.SetOk(s) && |s.entries| <= Seen.MAX_SEEN && s.window == Seen.DEDUP_WINDOW_MS && s.cap == Seen.MAX_SEEN
  }

  ghost predicate MarksOk(core: Core, marks: map<Ik, nat>) { forall c :: c in marks ==> marks[c] in core.suites }

  ghost predicate LiveOk(core: Core, l: Live) {
    && QueueOk(core, l.outbound, l.trace.submitted) && DedupOk(l.seen) && LatestOk(l.mix)
    && MarksOk(core, l.marks) && l.ranked <= l.marks.Keys
  }

  /** A persisted entry that may be taken back: it is one of a good entry. */
  ghost predicate PersistedOk(core: Core, p: PersistedEntry, id: ContentId, submitted: set<Envelope>) {
    exists e :: EntryOk(core, e, id, submitted) && p == FromEntry(core, e)
  }

  ghost predicate DiskOk(core: Core, d: Disk, submitted: set<Envelope>) {
    && (forall id :: id in d.outbound ==> PersistedOk(core, d.outbound[id], id, submitted))
    && LatestOk(d.mix) && MarksOk(core, d.marks)
  }

  ghost predicate NodeOk(core: Core, n: Node) {
    LiveOk(core, n.live) && DiskOk(core, n.journal.disk, n.live.trace.submitted)
  }

  // --- entries -------------------------------------------------------------------------------------------

  /** Building the wire form touches nothing but the last onion. */
  lemma WireFrameKeeps(core: Core, e: Entry, seed: Onion.Digest)
    requires e.sealed.Some?
    ensures WireFrame(core, e, seed).0 == e.(lastOnion := WireFrame(core, e, seed).0.lastOnion)
  {
    hide Onion.Wrap, Onion.ToBytes;
  }

  lemma DispatchedOk(core: Core, env: Envelope, to: Ik, now: nat, expires: Option<nat>,
                     route: Option<Onion.MixPath>, outside: Outside, submitted: set<Envelope>)
    requires env in submitted
    requires route.Some? ==>
               && Onion.MIN_PRIVATE_HOPS <= |route.value.hops| <= Onion.R_MAX
               && |core.encode(env)| <= 32 * Onion.FRAGMENT_DATA_LEN
    ensures EntryOk(core, Dispatch(core, SealedEntry(env, to, now, expires, route), outside).0, env.id, submitted)
  {
    hide WireFrame;
    var e := SealedEntry(env, to, now, expires, route);
    WireFrameKeeps(core, e, outside.seed(e.id));
  }

  lemma RetriedOk(core: Core, e: Entry, id: ContentId, outside: Outside, submitted: set<Envelope>)
    requires EntryOk(core, e, id, submitted)
    ensures EntryOk(core, RetryEntry(core, e, outside).0, id, submitted)
  {
    hide WireFrame;
    if e.state.Retry? {
      var fired := Apply(e, RetryTimerFires).value;
      WireFrameKeeps(core, fired, outside.seed(e.id));
    }
  }

  lemma TickedOk(core: Core, e: Entry, id: ContentId, now: nat, submitted: set<Envelope>)
    requires EntryOk(core, e, id, submitted)
    ensures EntryOk(core, StampEntry(ExpireEntry(e, now), now), id, submitted)
  {
  }

  lemma AckedOk(core: Core, e: Entry, id: ContentId, submitted: set<Envelope>)
    requires EntryOk(core, e, id, submitted)
    ensures EntryOk(core, AckEntry(e), id, submitted)
  {
  }

  lemma MoreSubmitted(core: Core, outbound: map<ContentId, Entry>, d: Disk, few: set<Envelope>, many: set<Envelope>)
    requires few <= many
    ensures QueueOk(core, outbound, few) ==> QueueOk(core, outbound, many)
    ensures DiskOk(core, d, few) ==> DiskOk(core, d, many)
  {
    hide FromEntry, Wrappable;
    if DiskOk(core, d, few) {
      forall id | id in d.outbound
        ensures PersistedOk(core, d.outbound[id], id, many)
      {
        var e :| EntryOk(core, e, id, few) && d.outbound[id] == FromEntry(core, e);
        assert EntryOk(core, e, id, many);
      }
    }
  }

  // --- effects, part by part -------------------------------------------------------------------------------

  /** Which operations can change the queue, and how. */
  lemma EffectOnQueue(core: Core, l: Live, a: Action, outside: Outside)
    ensures var m := Effect(core, l, a, outside).0;
            match a
            case Send(to, env, expires, route, probe) =>
              if SendRefusal(core, l, env, to, route, probe).Some? then m == l
              else m == Track(core, l, env, to, expires, route, outside)
            case DispatchSealed(to, env) => m == Track(core, l, env, to, None, None, outside)
            case Retry => m == RetryPending(core, l, outside)
            case Tick => m == l.(outbound := TickOutbound(l.outbound, l.now))
            case Arrive(from, AckFrame(id), _) => m == ReceiveAck(l, from, id)
            case _ => m.outbound == l.outbound && m.trace.submitted == l.trace.submitted
  {
    hide Track, RetryPending, TickOutbound, ReceiveAck, SendRefusal, RateGate.Admit, RateGate.Admits, ReceiveMote, Took;
    if a.Arrive? && a.frame.MoteFrame? {
      ReceiveMoteCases(core, l, a.from, a.frame.bytes, a.verdict);
    }
  }

  lemma ProbeTells(core: Core, l: Live, env: Envelope, to: Ik, route: Option<Onion.MixPath>, probe: Onion.Digest)
    requires SendRefusal(core, l, env, to, route, probe).None? && route.Some?
    ensures Onion.MIN_PRIVATE_HOPS <= |route.value.hops| <= Onion.R_MAX
    ensures |core.encode(env)| <= 32 * Onion.FRAGMENT_DATA_LEN
  {
    OnionLossless.WrapFailsClosed(core.hash, core.encode(env), route.value, probe);
  }

  lemma TrackKeepsQueue(core: Core, l: Live, env: Envelope, to: Ik, expires: Option<nat>,
                        route: Option<Onion.MixPath>, outside: Outside)
    requires QueueOk(core, l.outbound, l.trace.submitted)
    requires route.Some? ==>
               && Onion.MIN_PRIVATE_HOPS <= |route.value.hops| <= Onion.R_MAX
               && |core.encode(env)| <= 32 * Onion.FRAGMENT_DATA_LEN
    ensures var m := Track(core, l, env, to, expires, route, outside);
            QueueOk(core, m.outbound, m.trace.submitted)
  {
    hide Dispatch, SealedEntry, EntryOk;
    var more := l.trace.submitted + {env};
    MoreSubmitted(core, l.outbound, EmptyDisk(), l.trace.submitted, more);
    DispatchedOk(core, env, to, l.now, expires, route, outside, more);
  }

  lemma EffectKeepsQueue(core: Core, l: Live, a: Action, outside: Outside)
    requires QueueOk(core, l.outbound, l.trace.submitted)
    ensures var m := Effect(core, l, a, outside).0;
            QueueOk(core, m.outbound, m.trace.submitted) && l.trace.submitted <= m.trace.submitted
  {
    hide Effect, SendRefusal, EntryOk, RetryEntry, Dispatch, SealedEntry, AckEntry, ExpireEntry, StampEntry,
         Collectable;
    EffectOnQueue(core, l, a, outside);
    match a
    case Send(to, env, expires, route, probe) =>
      if SendRefusal(core, l, env, to, route, probe).None? {
        if route.Some? {
          ProbeTells(core, l, env, to, route, probe);
        }
        TrackKeepsQueue(core, l, env, to, expires, route, outside);
      }
    case DispatchSealed(to, env) => TrackKeepsQueue(core, l, env, to, None, None, outside);
    case Retry =>
      forall id | id in l.outbound {
        RetriedOk(core, l.outbound[id], id, outside, l.trace.submitted);
      }
    case Tick =>
      forall id | id in l.outbound {
        TickedOk(core, l.outbound[id], id, l.now, l.trace.submitted);
      }
    case Arrive(from, frame, _) =>
      if frame.AckFrame? && frame.id in l.outbound {
        AckedOk(core, l.outbound[frame.id], frame.id, l.trace.submitted);
      }
    case _ =>
  }

  lemma {:induction false} RecordAllOk(s: Seen.Set, pairs: seq<(ContentId, Ik)>, now: nat)
    requires DedupOk(s)
    ensures DedupOk(Seen.RecordAll(s, pairs, now))
  {
    hide Seen.SetOk, Seen.Record;
    if pairs != [] {
      var n := |pairs| - 1;
      RecordAllOk(s, pairs[..n], now);
      Seen.RecordOk(Seen.RecordAll(s, pairs[..n], now), pairs[n].0, pairs[n].1, now);
    }
  }

  lemma MoteKeepsIk(core: Core, l: Live, from: Ik, bytes: Bytes, v: Verdict)
    ensures ReceiveMote(core, l, from, bytes, v).0.ik == l.ik
  {
    hide ReceiveMote, Took;
    ReceiveMoteCases(core, l, from, bytes, v);
  }

  /** Outside an inbound MOTE the dedup set stands still. */
  lemma EffectOnSeen(core: Core, l: Live, a: Action, outside: Outside)
    ensures var m := Effect(core, l, a, outside).0;
            && (!(a.Arrive? && a.frame.MoteFrame?) ==>
                  m.seen == l.seen && m.trace.accepted == l.trace.accepted && m.trace.metered == l.trace.metered
                  && m.trace.granted == l.trace.granted)
            && m.ik == l.ik
  {
    hide Dispatch, SealedEntry, RetrySent, RetriedQueue, TickOutbound, SendRefusal, RateGate.Admit, RateGate.Admits,
         ReceiveMote, MixDirectory.Accepted, Observe, AckEntry;
    if a.Arrive? && a.frame.MoteFrame? {
      MoteKeepsIk(core, l, a.from, a.frame.bytes, a.verdict);
    }
  }

  lemma EffectKeepsDedup(core: Core, l: Live, a: Action, outside: Outside)
    requires DedupOk(l.seen)
    ensures DedupOk(Effect(core, l, a, outside).0.seen)
  {
    EffectOnSeen(core, l, a, outside);
    if a.Arrive? && a.frame.MoteFrame? {
      ReceiveMoteCases(core, l, a.from, a.frame.bytes, a.verdict);
      hide Seen.SetOk, Seen.Record, ReceiveMote, Effect;
      ReceiveIsEffect(core, l, a, outside);
      var env := core.decode(a.frame.bytes);
      if env.Some? {
        Seen.RecordOk(l.seen, env.value.id, a.from, l.now);
      }
    }
  }

  lemma ReceiveIsEffect(core: Core, l: Live, a: Action, outside: Outside)
    requires a.Arrive? && a.frame.MoteFrame?
    ensures var (m, o) := ReceiveMote(core, l, a.from, a.frame.bytes, a.verdict);
            Effect(core, l, a, outside) == (m, AcceptedOutcome(o))
  {
    hide ReceiveMote;
  }

  lemma MoteKeepsMarks(core: Core, l: Live, from: Ik, bytes: Bytes, v: Verdict)
    requires Lawful(core) && MarksOk(core, l.marks) && l.ranked <= l.marks.Keys
    ensures var m := ReceiveMote(core, l, from, bytes, v).0;
            m.mix == l.mix && MarksOk(core, m.marks) && m.ranked <= m.marks.Keys
  {
    hide ReceiveMote, Took, Lawful;
    ReceiveMoteCases(core, l, from, bytes, v);
    ReceiveMoteMarks(core, l, from, bytes, v);
  }

  lemma EffectKeepsMarks(core: Core, l: Live, a: Action, outside: Outside)
    requires Lawful(core) && LatestOk(l.mix) && MarksOk(core, l.marks) && l.ranked <= l.marks.Keys
    ensures LatestOk(Effect(core, l, a, outside).0.mix) && MarksOk(core, Effect(core, l, a, outside).0.marks)
    ensures Effect(core, l, a, outside).0.ranked <= Effect(core, l, a, outside).0.marks.Keys
  {
    hide Dispatch, SealedEntry, RetrySent, RetriedQueue, TickOutbound, SendRefusal, RateGate.Admit, RateGate.Admits,
         ReceiveMote, MixDirectory.Accepted, LatestOk, AckEntry, Lawful;
    if a.Arrive? && a.frame.MoteFrame? {
      MoteKeepsMarks(core, l, a.from, a.frame.bytes, a.verdict);
    } else if a.IngestMixDirectory? && core.dirs.decode(a.bytes).Some? {
      AcceptedOk(l.mix, core.dirs.decode(a.bytes).value);
    }
  }

  lemma EffectKeepsLive(core: Core, l: Live, a: Action, outside: Outside)
    requires Lawful(core) && LiveOk(core, l)
    ensures LiveOk(core, Effect(core, l, a, outside).0)
    ensures l.trace.submitted <= Effect(core, l, a, outside).0.trace.submitted
  {
    hide Effect, QueueOk, DedupOk, LatestOk, MarksOk;
    EffectKeepsQueue(core, l, a, outside);
    EffectKeepsDedup(core, l, a, outside);
    EffectKeepsMarks(core, l, a, outside);
  }

  // --- the journal -----------------------------------------------------------------------------------------

  lemma SnapshotOk(core: Core, l: Live)
    requires LiveOk(core, l)
    ensures DiskOk(core, Snapshot(core, l), l.trace.submitted)
  {
    hide EntryOk, FromEntry, DedupOk, LatestOk;
    var d := Snapshot(core, l);
    forall id | id in d.outbound
      ensures PersistedOk(core, d.outbound[id], id, l.trace.submitted)
    {
      assert EntryOk(core, l.outbound[id], id, l.trace.submitted);
    }
  }

  lemma EntryBack(core: Core, p: PersistedEntry, id: ContentId, submitted: set<Envelope>)
    requires Lawful(core) && PersistedOk(core, p, id, submitted) && IntoEntry(core, p).Ok?
    ensures EntryOk(core, IntoEntry(core, p).value, id, submitted)
    ensures IntoEntry(core, p).value.mixPath.None? && FromEntry(core, IntoEntry(core, p).value) == p
  {
    var e :| EntryOk(core, e, id, submitted) && p == FromEntry(core, e);
    IntoEntryOfFromEntry(core, e);
    hide IntoEntry;
  }

  lemma RestoredOk(core: Core, ik: Ik, trace: Trace, d: Disk)
    requires Lawful(core) && DiskOk(core, d, trace.submitted) && Restorable(core, d)
    ensures LiveOk(core, Restored(core, ik, trace, d))
  {
    hide EntryOk, IntoEntry, FromEntry, Seen.RecordAll;
    forall id | id in d.outbound {
      EntryBack(core, d.outbound[id], id, trace.submitted);
    }
    RecordAllOk(Seen.New(), d.seen, BOOT_MS);
  }

  lemma PerformKeeps(core: Core, n: Node, op: Op)
    requires Lawful(core) && NodeOk(core, n)
    ensures NodeOk(core, Perform(core, n, op))
    ensures n.live.trace.submitted <= Perform(core, n, op).live.trace.submitted
  {
    hide Effect, LiveOk, DiskOk, Restorable, Snapshot, Lawful;
    match op
    case Do(a, outside) =>
      EffectKeepsLive(core, n.live, a, outside);
      var l := Effect(core, n.live, a, outside).0;
      MoreSubmitted(core, map[], n.journal.disk, n.live.trace.submitted, l.trace.submitted);
      SnapshotOk(core, l);
    case EndPoll => SnapshotOk(core, n.live);
    case Restart =>
      if Restorable(core, n.journal.disk) {
        RestoredOk(core, n.live.ik, n.live.trace, n.journal.disk);
        RestoredTrace(core, n.live.ik, n.live.trace, n.journal.disk);
      }
    case _ =>
  }

  lemma RestoredTrace(core: Core, ik: Ik, trace: Trace, d: Disk)
    requires Restorable(core, d)
    ensures Restored(core, ik, trace, d).trace == trace.(surfaced := [])
    ensures Restored(core, ik, trace, d).ik == ik
  {
  }

  lemma FirstOk(core: Core, ik: Ik)
    ensures NodeOk(core, First(ik))
  {
  }

  /** Every run, from the first boot, through crashes and failing saves, stays well formed. */
  lemma {:induction false} RunKeeps(core: Core, n: Node, ops: seq<Op>)
    requires Lawful(core) && NodeOk(core, n)
    ensures NodeOk(core, Run(core, n, ops))
    ensures n.live.trace.submitted <= Run(core, n, ops).live.trace.submitted
  {
    hide NodeOk, Perform, Lawful;
    if ops != [] {
      RunKeeps(core, n, ops[..|ops| - 1]);
      PerformKeeps(core, Run(core, n, ops[..|ops| - 1]), ops[|ops| - 1]);
    }
  }
}
