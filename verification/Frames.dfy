/** What a node ever hands to the transport for a message: the one sealed object, in the clear or onion-wrapped. */
module Frames {
  import opened Prelude
  import opened Mote
  import opened Outbound
  import opened Delivery
  import opened EngineOk
  import opened Receiving
  import Onion
  import OnionLossless
  import RateGate
  import Seen

  /** The packet is the canonical bytes of `env`, or an onion that opens to them, sent to its entry mix. */
  ghost predicate Carries(core: Core, p: Packet, env: Envelope) {
    && p.purpose.Attempt? && p.frame.MoteFrame?
    && match p.purpose.via
       case None => p.frame.bytes == core.encode(env)
       case Some(path) =>
         && OnionLossless.Open(core.hash, path, p.frame.bytes) == Some(core.encode(env))
         && path.hops != [] && p.to == path.hops[0].nodeIk
  }

  ghost predicate FrameOk(core: Core, p: Packet, submitted: set<Envelope>) {
    p.purpose.Attempt? ==> exists env :: env in submitted && env.id == p.purpose.id && Carries(core, p, env)
  }

  ghost predicate FramesOk(core: Core, sent: multiset<Packet>, submitted: set<Envelope>) {
    forall p :: p in sent ==> FrameOk(core, p, submitted)
  }

  lemma WireFrameCarries(core: Core, e: Entry, seed: Onion.Digest)
    requires e.sealed.Some?
    ensures var p := WireFrame(core, e, seed).1;
            Carries(core, p, e.sealed.value) && p.purpose.id == e.id && (p.purpose.via.None? ==> p.to == e.to)
    ensures WireFrame(core, e, seed).1.purpose.via in {None, e.mixPath}
  {
    if e.tier.Private? && e.mixPath.Some? {
      var w := Onion.Wrap(core.hash, core.encode(e.sealed.value), e.mixPath.value, seed);
      if w.Ok? {
        OnionLossless.OpenOfWrap(core.hash, core.encode(e.sealed.value), e.mixPath.value, seed);
        OnionLossless.WrapFailsClosed(core.hash, core.encode(e.sealed.value), e.mixPath.value, seed);
      }
      hide Onion.Wrap, OnionLossless.Open, Onion.ToBytes;
    }
  }

  lemma EntryFrame(core: Core, e: Entry, id: ContentId, submitted: set<Envelope>, seed: Onion.Digest)
    requires e.sealed.Some? && e.id == id && e.sealed.value.id == id && e.sealed.value in submitted
    ensures FrameOk(core, WireFrame(core, e, seed).1, submitted)
  {
    hide WireFrame, Carries;
    WireFrameCarries(core, e, seed);
  }

  lemma DispatchFrames(core: Core, l: Live, env: Envelope, to: Ik, expires: Option<nat>,
                       route: Option<Onion.MixPath>, outside: Outside)
    requires FramesOk(core, l.trace.sent, l.trace.submitted)
    ensures var m := Track(core, l, env, to, expires, route, outside);
            FramesOk(core, m.trace.sent, m.trace.submitted)
  {
    hide WireFrame, Carries;
    EntryFrame(core, SealedEntry(env, to, l.now, expires, route), env.id, l.trace.submitted + {env},
               outside.seed(env.id));
    forall p | p in l.trace.sent
      ensures FrameOk(core, p, l.trace.submitted + {env})
    {
      assert FrameOk(core, p, l.trace.submitted);
    }
  }

  lemma RetryFrame(core: Core, e: Entry, id: ContentId, submitted: set<Envelope>, outside: Outside)
    requires EntryOk(core, e, id, submitted)
    ensures forall p :: p in RetryEntry(core, e, outside).1 ==> FrameOk(core, p, submitted)
  {
    hide WireFrame, FrameOk, Wrappable;
    if e.state.Retry? {
      EntryFrame(core, Apply(e, RetryTimerFires).value, id, submitted, outside.seed(e.id));
    }
  }

  lemma RetryFrames(core: Core, l: Live, outside: Outside)
    requires QueueOk(core, l.outbound, l.trace.submitted) && FramesOk(core, l.trace.sent, l.trace.submitted)
    ensures var m := RetryPending(core, l, outside); FramesOk(core, m.trace.sent, m.trace.submitted)
  {
    hide RetryEntry, FrameOk, EntryOk;
    forall id | id in l.outbound
      ensures forall p :: p in RetryEntry(core, l.outbound[id], outside).1 ==> FrameOk(core, p, l.trace.submitted)
    {
      RetryFrame(core, l.outbound[id], id, l.trace.submitted, outside);
    }
  }

  /** Each attempt went out as many times as before. */
  ghost predicate SameAttempts(l: Live, m: Live) {
    && m.trace.submitted == l.trace.submitted
    && forall p: Packet :: p.purpose.Attempt? ==> m.trace.sent[p] == l.trace.sent[p]
  }

  lemma MoteSendsReceipts(core: Core, l: Live, from: Ik, bytes: Bytes, v: Verdict)
    ensures SameAttempts(l, ReceiveMote(core, l, from, bytes, v).0)
  {
    hide ReceiveMote, Seen.Record, Seen.Contains, Surface;
    ReceiveMoteCases(core, l, from, bytes, v);
  }

  /** Operations that neither submit nor retry send receipts at most. */
  lemma OthersSendReceipts(core: Core, l: Live, a: Action, outside: Outside)
    requires !a.Send? && !a.DispatchSealed? && !a.Retry?
    ensures SameAttempts(l, Effect(core, l, a, outside).0)
  {
    hide TickOutbound, RateGate.Admit, RateGate.Admits, ReceiveMote;
    if a.Arrive? && a.frame.MoteFrame? {
      MoteSendsReceipts(core, l, a.from, a.frame.bytes, a.verdict);
    }
  }

  lemma EffectFrames(core: Core, l: Live, a: Action, outside: Outside)
    requires QueueOk(core, l.outbound, l.trace.submitted) && FramesOk(core, l.trace.sent, l.trace.submitted)
    ensures var m := Effect(core, l, a, outside).0; FramesOk(core, m.trace.sent, m.trace.submitted)
  {
    hide Effect, Track, RetryPending, SendRefusal, QueueOk, Carries;
    EffectOnQueue(core, l, a, outside);
    match a
    case Send(to, env, expires, route, _) => DispatchFrames(core, l, env, to, expires, route, outside);
    case DispatchSealed(to, env) => DispatchFrames(core, l, env, to, None, None, outside);
    case Retry => RetryFrames(core, l, outside);
    case _ => OthersSendReceipts(core, l, a, outside);
  }

  /** In every run, crashes and failing saves included, every attempt ever sent carries a submitted envelope. */
  lemma {:induction false} RunFrames(core: Core, n: Node, ops: seq<Op>)
    requires Lawful(core) && NodeOk(core, n) && FramesOk(core, n.live.trace.sent, n.live.trace.submitted)
    ensures var m := Run(core, n, ops).live; FramesOk(core, m.trace.sent, m.trace.submitted)
  {
    hide Effect, FramesOk, QueueOk, Restored, Restorable, Snapshot, DiskOk, DedupOk, MarksOk, Lawful;
    if ops != [] {
      var before := Run(core, n, ops[..|ops| - 1]);
      var op := ops[|ops| - 1];
      RunFrames(core, n, ops[..|ops| - 1]);
      RunKeeps(core, n, ops[..|ops| - 1]);
      if op.Do? {
        EffectFrames(core, before.live, op.action, op.outside);
      } else if op.Restart? && Restorable(core, before.journal.disk) {
        RestoredTrace(core, before.live.ik, before.live.trace, before.journal.disk);
      }
    }
  }

  /**
   * The same object on every attempt: if one envelope was ever submitted under an id, then first dispatch,
   * every retry and every attempt after any restart sent exactly that envelope, in the clear or as an
   * onion that peels and reassembles to its bytes.
   */
  lemma SameObject(core: Core, ik: Ik, ops: seq<Op>, env: Envelope, p: Packet)
    requires Lawful(core)
    requires var t := Run(core, First(ik), ops).live.trace;
             && (forall e :: e in t.submitted && e.id == env.id ==> e == env)
             && p in t.sent && p.purpose.Attempt? && p.purpose.id == env.id
    ensures Carries(core, p, env)
  {
    hide Run, NodeOk, Lawful, Carries;
    FirstOk(core, ik);
    RunFrames(core, First(ik), ops);
    assert FrameOk(core, p, Run(core, First(ik), ops).live.trace.submitted);
  }

  /**
   * The private tier is never quietly downgraded: an attempt leaves as an onion exactly while the entry
   * keeps its path.  Only a restart takes the path away, and then the sealed bytes go out as they are.
   */
  lemma OnionIffPathKept(core: Core, ik: Ik, ops: seq<Op>, id: ContentId, seed: Onion.Digest)
    requires Lawful(core) && id in Run(core, First(ik), ops).live.outbound
    ensures var e := Run(core, First(ik), ops).live.outbound[id];
            && e.sealed.Some?
            && (WireFrame(core, e, seed).1.purpose.via.Some? <==> e.mixPath.Some?)
  {
    hide Run, NodeOk, Lawful;
    FirstOk(core, ik);
    RunKeeps(core, First(ik), ops);
    PathWraps(core, Run(core, First(ik), ops), id, seed);
  }

  lemma PathWraps(core: Core, n: Node, id: ContentId, seed: Onion.Digest)
    requires NodeOk(core, n) && id in n.live.outbound
    ensures var e := n.live.outbound[id];
            && e.sealed.Some?
            && (WireFrame(core, e, seed).1.purpose.via.Some? <==> e.mixPath.Some?)
  {
    hide Onion.Wrap, Onion.ToBytes, DiskOk, DedupOk, MarksOk;
    var e := n.live.outbound[id];
    assert EntryOk(core, e, id, n.live.trace.submitted);
    if e.mixPath.Some? {
      OnionLossless.WrapFailsClosed(core.hash, core.encode(e.sealed.value), e.mixPath.value, seed);
    }
  }

  /**
   * What a submission amounts to, whatever was tracked under its id before: one packet that carries the
   * envelope, and a fresh entry for it, in flight if the peer was reached and waiting otherwise.
   */
  lemma SubmissionStartsFresh(core: Core, l: Live, env: Envelope, to: Ik, expires: Option<nat>,
                              route: Option<Onion.MixPath>, outside: Outside)
    ensures var m := Track(core, l, env, to, expires, route, outside);
            var p := WireFrame(core, SealedEntry(env, to, l.now, expires, route), outside.seed(env.id)).1;
            && m.trace.sent == l.trace.sent + multiset{p} && Carries(core, p, env) && p.purpose.id == env.id
            && (p.purpose.via.None? ==> p.to == to)
            && env.id in m.outbound && m.outbound == l.outbound[env.id := m.outbound[env.id]]
            && var e := m.outbound[env.id];
               && e.id == env.id && e.to == to && e.sealed == Some(env) && e.mixPath == route
               && e.state == (if outside.up(p.to) then InFlight else OutState.Retry)
               && e.attempts == (if outside.up(p.to) then 0 else 1)
               && e.deadline == Enqueue(env.id, to, l.now, expires).deadline
               && !e.ReportedDelivered() && e.terminalAt.None?
  {
    hide WireFrame, Carries;
    WireFrameKeeps(core, SealedEntry(env, to, l.now, expires, route), outside.seed(env.id));
    WireFrameCarries(core, SealedEntry(env, to, l.now, expires, route), outside.seed(env.id));
  }

  /**
   * A send is refused exactly for want of the recipient's key, of 3 to 5 hops, or of room for the sealed bytes in 32
   * fragments, in that order, and then changes nothing; any other is tracked and durable.
   */
  lemma SendAcceptedExactly(core: Core, l: Live, to: Ik, env: Envelope, expires: Option<nat>,
                            route: Option<Onion.MixPath>, probe: Onion.Digest, outside: Outside)
    ensures var refusal := SendRefusal(core, l, env, to, route, probe);
            var room := |core.encode(env)| <= 65_024;
            && (refusal.None? <==> to in l.directory && (route.Some? ==> 3 <= |route.value.hops| <= 5 && room))
            && (refusal == Some(Unresolved) <==> to !in l.directory)
            && (to in l.directory && route.Some? ==>
                  && (refusal == Some(OnionRefused(Onion.PathTooShort)) <==> |route.value.hops| < 3)
                  && (refusal == Some(OnionRefused(Onion.TooManyHops)) <==> |route.value.hops| > 5)
                  && (refusal == Some(OnionRefused(Onion.PayloadTooLarge)) <==> 3 <= |route.value.hops| <= 5 && !room))
            && Effect(core, l, Send(to, env, expires, route, probe), outside)
               == if refusal.Some? then (l, false) else (Track(core, l, env, to, expires, route, outside), true)
  {
    hide Onion.WrapCells, Track;
    if route.Some? {
      OnionLossless.WrapFailsClosed(core.hash, core.encode(env), route.value, probe);
    }
  }

  /** Once its key is learnt, from a contact or otherwise, a peer can be sent to. */
  lemma KnownCanBeSentTo(core: Core, l: Live, to: Ik, env: Envelope, probe: Onion.Digest, outside: Outside)
    ensures var m := Effect(core, l, LearnKey(to), outside).0;
            SendRefusal(core, m, env, to, None, probe).None? && m == l.(directory := m.directory)
            && l.directory <= m.directory
    ensures var m := Effect(core, l, AddContact(to), outside).0;
            SendRefusal(core, m, env, to, None, probe).None? && to in m.contacts
            && m == l.(directory := m.directory, contacts := l.contacts + {to}) && l.directory <= m.directory
  {
  }
}
