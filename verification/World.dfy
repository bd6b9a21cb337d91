/**
 * Any number of nodes on a network that drops, duplicates, delays and reorders, and on which anybody
 * outside may inject anything under any return path but a node's.  Nodes crash and restart at any point,
 * inside a poll batch too, and journal writes may fail.
 */
module World {
  import opened Prelude
  import opened Mote
  import opened Outbound
  import opened Delivery
  import opened EngineOk
  import opened Receiving
  import opened Sender
  import opened Frames
  import Onion
  import RateGate
  import Seen

  function Ids(accepted: seq<Acceptance>): set<ContentId> { set i | 0 <= i < |accepted| :: accepted[i].id }

  // --- one node: what it acks and remembers, it accepted ----------------------------------------------------

  /** Acks sent and ids remembered, in memory or in the journal, are of accepted MOTEs. */
  ghost predicate Backed(n: Node) {
    && (forall p :: p in n.live.trace.sent && p.frame.AckFrame? ==> p.frame.id in Ids(n.live.trace.accepted))
    && n.live.seen.entries.Keys <= Ids(n.live.trace.accepted)
    && PairsBacked(n.journal.disk.seen, Ids(n.live.trace.accepted))
    && (forall i :: 0 <= i < |n.live.trace.accepted| ==>
          n.live.trace.accepted[i].id.Verify(n.live.trace.accepted[i].ciphertext))
  }

  ghost predicate LiveBacked(l: Live) {
    && (forall p :: p in l.trace.sent && p.frame.AckFrame? ==> p.frame.id in Ids(l.trace.accepted))
    && l.seen.entries.Keys <= Ids(l.trace.accepted)
    && forall i :: 0 <= i < |l.trace.accepted| ==> l.trace.accepted[i].id.Verify(l.trace.accepted[i].ciphertext)
  }

  ghost predicate PairsBacked(pairs: seq<(ContentId, Ik)>, ids: set<ContentId>) {
    forall i :: 0 <= i < |pairs| ==> pairs[i].0 in ids
  }

  lemma IdsPush(accepted: seq<Acceptance>, a: Acceptance)
    ensures Ids(accepted + [a]) == Ids(accepted) + {a.id}
  {
    assert forall i :: 0 <= i < |accepted| ==> (accepted + [a])[i] == accepted[i];
    assert (accepted + [a])[|accepted|] == a;
  }

  lemma TookBacked(core: Core, l: Live, m: Live, from: Ik, a: Acceptance)
    requires LiveBacked(l) && Took(core, l, m, from, a) && a.id.Verify(a.ciphertext)
    ensures LiveBacked(m) && Ids(l.trace.accepted) <= Ids(m.trace.accepted)
  {
    hide Ids, Seen.Record, Surface;
    IdsPush(l.trace.accepted, a);
    Seen.KeepsBounds(l.seen, a.id, from, l.now);
  }

  lemma MoteBacked(core: Core, l: Live, from: Ik, bytes: Bytes, v: Verdict)
    requires Lawful(core) && LiveBacked(l)
    ensures var m := ReceiveMote(core, l, from, bytes, v).0;
            LiveBacked(m) && Ids(l.trace.accepted) <= Ids(m.trace.accepted)
  {
    hide ReceiveMote, Took, Ids;
    ReceiveMoteCases(core, l, from, bytes, v);
    var (m, o) := ReceiveMote(core, l, from, bytes, v);
    if AcceptedOutcome(o) {
      var env := core.decode(bytes).value;
      var p := core.check(env, l.ik, from in l.contacts).payload;
      TookBacked(core, l, m, from, AcceptanceOf(env, p, |bytes|));
    }
  }

  lemma AttemptsAreMotes(core: Core, e: Entry, outside: Outside)
    ensures e.sealed.Some? && e.state.Sealed? ==> Dispatch(core, e, outside).1.frame.MoteFrame?
    ensures forall p :: p in RetryEntry(core, e, outside).1 ==> p.frame.MoteFrame?
  {
    hide Onion.Wrap, Onion.ToBytes;
  }

  lemma RetryBacked(core: Core, l: Live, outside: Outside)
    requires LiveBacked(l)
    ensures LiveBacked(RetryPending(core, l, outside))
  {
    hide RetryEntry, Ids;
    forall id | id in l.outbound {
      AttemptsAreMotes(core, l.outbound[id], outside);
    }
  }

  lemma TrackBacked(core: Core, l: Live, env: Envelope, to: Ik, expires: Option<nat>,
                    route: Option<Onion.MixPath>, outside: Outside)
    requires LiveBacked(l)
    ensures LiveBacked(Track(core, l, env, to, expires, route, outside))
  {
    hide Dispatch, Ids;
    AttemptsAreMotes(core, SealedEntry(env, to, l.now, expires, route), outside);
  }

  lemma QuietBacked(core: Core, l: Live, a: Action, outside: Outside)
    requires LiveBacked(l) && !a.Send? && !a.DispatchSealed? && !a.Retry? && !(a.Arrive? && a.frame.MoteFrame?)
    ensures LiveBacked(Effect(core, l, a, outside).0)
  {
    hide TickOutbound, RateGate.Admit, RateGate.Admits, Ids;
  }

  lemma EffectBacked(core: Core, l: Live, a: Action, outside: Outside)
    requires Lawful(core) && LiveBacked(l)
    ensures var m := Effect(core, l, a, outside).0;
            LiveBacked(m) && Ids(l.trace.accepted) <= Ids(m.trace.accepted)
  {
    hide Effect, LiveBacked, Track, RetryPending, SendRefusal, Ids, ReceiveMote;
    EffectOnQueue(core, l, a, outside);
    EffectOnSeen(core, l, a, outside);
    match a
    case Send(to, env, expires, route, _) => TrackBacked(core, l, env, to, expires, route, outside);
    case DispatchSealed(to, env) => TrackBacked(core, l, env, to, None, None, outside);
    case Retry => RetryBacked(core, l, outside);
    case Arrive(from, MoteFrame(bytes), v) =>
      ReceiveIsEffect(core, l, a, outside);
      MoteBacked(core, l, from, bytes, v);
    case _ => QuietBacked(core, l, a, outside);
  }

  lemma {:induction false} PairsFromEntries(entries: map<ContentId, Seen.Meta>, order: seq<ContentId>)
    ensures PairsBacked(Seen.PairsOf(entries, order), entries.Keys)
  {
    if order != [] {
      PairsFromEntries(entries, order[..|order| - 1]);
    }
  }

  lemma {:induction false} RecordAllBacked(s: Seen.Set, pairs: seq<(ContentId, Ik)>, now: nat, ids: set<ContentId>)
    requires s.entries.Keys <= ids && PairsBacked(pairs, ids)
    ensures Seen.RecordAll(s, pairs, now).entries.Keys <= ids
  {
    hide Seen.Record;
    if pairs != [] {
      var n := |pairs| - 1;
      RecordAllBacked(s, pairs[..n], now, ids);
      Seen.KeepsBounds(Seen.RecordAll(s, pairs[..n], now), pairs[n].0, pairs[n].1, now);
    }
  }

  lemma SaveBacked(core: Core, l: Live)
    requires LiveBacked(l)
    ensures PairsBacked(Snapshot(core, l).seen, Ids(l.trace.accepted))
  {
    hide Persisted, Ids;
    PairsFromEntries(l.seen.entries, l.seen.order);
  }

  lemma RestoredBacked(core: Core, n: Node)
    requires Backed(n) && Restorable(core, n.journal.disk)
    ensures LiveBacked(Restored(core, n.live.ik, n.live.trace, n.journal.disk))
  {
    hide IntoEntry, Seen.RecordAll, Ids, PairsBacked;
    RecordAllBacked(Seen.New(), n.journal.disk.seen, BOOT_MS, Ids(n.live.trace.accepted));
  }

  lemma PerformBacked(core: Core, n: Node, op: Op)
    requires Lawful(core) && Backed(n)
    ensures Backed(Perform(core, n, op))
    ensures Ids(n.live.trace.accepted) <= Ids(Perform(core, n, op).live.trace.accepted)
  {
    hide Effect, Ids, Snapshot, Restored, Restorable, Lawful;
    match op
    case Do(a, outside) =>
      EffectBacked(core, n.live, a, outside);
      SaveBacked(core, Effect(core, n.live, a, outside).0);
    case EndPoll => SaveBacked(core, n.live);
    case Restart =>
      if Restorable(core, n.journal.disk) {
        RestoredBacked(core, n);
        RestoredTrace(core, n.live.ik, n.live.trace, n.journal.disk);
      }
    case _ =>
  }

  // --- reports of delivery ------------------------------------------------------------------------------------

  predicate Reported(p: PersistedEntry) { p.state == Acked.AsU8() || p.deliveredLate }

  /** Whom the node believes to have received what: queue and journal. */
  ghost predicate Believes(n: Node, to: Ik, id: ContentId) {
    || (id in n.live.outbound && n.live.outbound[id].to == to && n.live.outbound[id].ReportedDelivered())
    || (id in n.journal.disk.outbound && n.journal.disk.outbound[id].to == to && Reported(n.journal.disk.outbound[id]))
  }

  ghost predicate LiveBelieves(l: Live, to: Ik, id: ContentId) {
    id in l.outbound && l.outbound[id].to == to && l.outbound[id].ReportedDelivered()
  }

  lemma TrackStartsFresh(core: Core, l: Live, env: Envelope, to: Ik, expires: Option<nat>,
                         route: Option<Onion.MixPath>, outside: Outside)
    ensures !Track(core, l, env, to, expires, route, outside).outbound[env.id].ReportedDelivered()
  {
    hide WireFrame;
    WireFrameKeeps(core, SealedEntry(env, to, l.now, expires, route), outside.seed(env.id));
  }

  /** A new belief needs an ack from the one believed to have received. */
  lemma EffectBelieves(core: Core, l: Live, op: Op, to: Ik, id: ContentId)
    requires QueueOk(core, l.outbound, l.trace.submitted) && op.Do?
    requires LiveBelieves(Effect(core, l, op.action, op.outside).0, to, id)
    ensures LiveBelieves(l, to, id) || Acks(op, to, id)
  {
    hide Effect, EntryOk, Track, SendRefusal, Collected;
    EffectOnQueue(core, l, op.action, op.outside);
    if Submits(op, id) {
      var a := op.action;
      var sent := if a.Send? then SendRefusal(core, l, a.env, a.to, a.route, a.probe).None? else true;
      if sent {
        TrackStartsFresh(core, l, a.env, a.to, if a.Send? then a.expires else None,
                         if a.Send? then a.route else None, op.outside);
      }
    } else if id in l.outbound {
      EffectExplained(core, l, op, id);
      EntryId(core, l.outbound[id], id, l.trace.submitted);
    } else {
      EffectAddsNone(core, l, op, id);
    }
  }

  lemma SnapshotBelieves(core: Core, l: Live, to: Ik, id: ContentId)
    ensures var saved := Snapshot(core, l).outbound;
            id in saved && saved[id].to == to && Reported(saved[id]) <==> LiveBelieves(l, to, id)
  {
    hide Seen.Pairs;
  }

  lemma RestoredBelieves(core: Core, n: Node, to: Ik, id: ContentId)
    requires Restorable(core, n.journal.disk)
    requires LiveBelieves(Restored(core, n.live.ik, n.live.trace, n.journal.disk), to, id)
    ensures Believes(n, to, id)
  {
    hide Seen.RecordAll;
  }

  lemma PerformBelieves(core: Core, n: Node, op: Op, to: Ik, id: ContentId)
    requires NodeOk(core, n) && Believes(Perform(core, n, op), to, id)
    ensures Believes(n, to, id) || Acks(op, to, id)
  {
    hide Effect, Snapshot, Restored, Restorable, QueueOk, DiskOk, DedupOk, MarksOk, Reported, Acks;
    match op
    case Do(a, outside) =>
      var l := Effect(core, n.live, a, outside).0;
      SnapshotBelieves(core, l, to, id);
      if LiveBelieves(l, to, id) {
        EffectBelieves(core, n.live, op, to, id);
      }
    case EndPoll => SnapshotBelieves(core, n.live, to, id);
    case Restart =>
      if Restorable(core, n.journal.disk) && LiveBelieves(Perform(core, n, op).live, to, id) {
        RestoredBelieves(core, n, to, id);
      }
    case _ =>
  }

  // --- the world ------------------------------------------------------------------------------------------------

  type Nodes = map<Ik, Node>

  datatype Turn = Turn(who: Ik, op: Op)

  /** A frame under a node's return path is one that node sent there, now or at any time before. */
  ghost predicate Legal(w: Nodes, t: Turn) {
    && t.who in w
    && (t.op.Do? && t.op.action.Arrive? && t.op.action.from in w ==>
          exists p :: p in w[t.op.action.from].live.trace.sent && p.to == t.who && p.frame == t.op.action.frame)
  }

  ghost function Advance(core: Core, w: Nodes, t: Turn): Nodes {
    if Legal(w, t) then w[t.who := Perform(core, w[t.who], t.op)] else w
  }

  ghost function Unfold(core: Core, w: Nodes, turns: seq<Turn>): Nodes {
    if turns == [] then w else Advance(core, Unfold(core, w, turns[..|turns| - 1]), turns[|turns| - 1])
  }

  function Start(who: set<Ik>): Nodes { map ik | ik in who :: First(ik) }

  ghost predicate WorldOk(core: Core, w: Nodes) {
    && (forall k :: k in w ==> NodeOk(core, w[k]) && Backed(w[k]))
    && forall k, to, id :: k in w && to in w && Believes(w[k], to, id) ==> id in Ids(w[to].live.trace.accepted)
  }

  lemma AckWasSent(core: Core, w: Nodes, t: Turn, to: Ik, id: ContentId)
    requires WorldOk(core, w) && Legal(w, t) && to in w && Acks(t.op, to, id)
    ensures id in Ids(w[to].live.trace.accepted)
  {
    hide Ids, NodeOk, Believes;
  }

  lemma AdvanceKeeps(core: Core, w: Nodes, t: Turn)
    requires Lawful(core) && WorldOk(core, w)
    ensures WorldOk(core, Advance(core, w, t))
  {
    hide Perform, NodeOk, Backed, Believes, Ids, Lawful, Acks, Legal;
    var v := Advance(core, w, t);
    if Legal(w, t) {
      LegalWho(w, t);
      PerformKeeps(core, w[t.who], t.op);
      PerformBacked(core, w[t.who], t.op);
      forall k, to, id | k in v && to in v && Believes(v[k], to, id)
        ensures id in Ids(v[to].live.trace.accepted)
      {
        if k == t.who && !Believes(w[k], to, id) {
          PerformBelieves(core, w[k], t.op, to, id);
          AckWasSent(core, w, t, to, id);
        }
      }
    }
  }

  lemma LegalWho(w: Nodes, t: Turn)
    requires Legal(w, t)
    ensures t.who in w
  {
  }

  lemma {:induction false} UnfoldKeeps(core: Core, who: set<Ik>, turns: seq<Turn>)
    requires Lawful(core)
    ensures WorldOk(core, Unfold(core, Start(who), turns))
    ensures Unfold(core, Start(who), turns).Keys == who
  {
    hide WorldOk, Perform, Lawful, Legal;
    if turns == [] {
      StartOk(core, who);
    } else {
      UnfoldKeeps(core, who, turns[..|turns| - 1]);
      AdvanceKeeps(core, Unfold(core, Start(who), turns[..|turns| - 1]), turns[|turns| - 1]);
      AdvanceKeys(core, Unfold(core, Start(who), turns[..|turns| - 1]), turns[|turns| - 1]);
    }
  }

  lemma AdvanceKeys(core: Core, w: Nodes, t: Turn)
    ensures Advance(core, w, t).Keys == w.Keys
  {
    hide Perform;
  }

  lemma StartOk(core: Core, who: set<Ik>)
    ensures WorldOk(core, Start(who)) && Start(who).Keys == who
  {
    hide NodeOk;
    forall ik | ik in who {
      FirstOk(core, ik);
    }
  }

  /**
   * Ack soundness.  In every run of any number of nodes, if a sender's entry says acked or delivered late
   * and its recipient is one of the nodes, then that recipient accepted a MOTE of this id, and the
   * ciphertext it accepted is the one the sender sealed.
   */
  lemma AckSoundness(core: Core, who: set<Ik>, turns: seq<Turn>, sender: Ik, id: ContentId)
    requires Lawful(core) && sender in who
    requires var w := Unfold(core, Start(who), turns);
             && sender in w && id in w[sender].live.outbound
             && w[sender].live.outbound[id].ReportedDelivered() && w[sender].live.outbound[id].to in who
    ensures var w := Unfold(core, Start(who), turns);
            var e := w[sender].live.outbound[id];
            && e.to in w && e.sealed.Some?
            && exists i :: 0 <= i < |w[e.to].live.trace.accepted|
                 && w[e.to].live.trace.accepted[i].id == id
                 && w[e.to].live.trace.accepted[i].ciphertext == id.of
                 && (e.sealed.value.Verified() ==>
                       w[e.to].live.trace.accepted[i].ciphertext == e.sealed.value.ciphertext)
  {
    hide Unfold, Lawful, Perform;
    UnfoldKeeps(core, who, turns);
    var w := Unfold(core, Start(who), turns);
    var e := w[sender].live.outbound[id];
    Believed(core, w, sender, id);
    SealedUnderId(core, w[sender], id);
  }

  lemma Believed(core: Core, w: Nodes, sender: Ik, id: ContentId)
    requires WorldOk(core, w) && sender in w && id in w[sender].live.outbound
    requires w[sender].live.outbound[id].ReportedDelivered() && w[sender].live.outbound[id].to in w
    ensures var acc := w[w[sender].live.outbound[id].to].live.trace.accepted;
            exists i :: 0 <= i < |acc| && acc[i].id == id && acc[i].ciphertext == id.of
  {
    hide NodeOk;
    var to := w[sender].live.outbound[id].to;
    var acc := w[to].live.trace.accepted;
    assert Believes(w[sender], to, id);
    assert Backed(w[to]);
    assert id in Ids(acc);
    InIds(acc, id);
  }

  lemma InIds(acc: seq<Acceptance>, id: ContentId)
    requires id in Ids(acc)
    ensures exists i :: 0 <= i < |acc| && acc[i].id == id
  {
  }

  lemma SealedUnderId(core: Core, n: Node, id: ContentId)
    requires NodeOk(core, n) && id in n.live.outbound
    ensures n.live.outbound[id].sealed.Some? && n.live.outbound[id].sealed.value.id == id
  {
    assert EntryOk(core, n.live.outbound[id], id, n.live.trace.submitted);
  }

  // --- the round trip ---------------------------------------------------------------------------------------------

  /**
   * Delivery completes, on either tier: one packet leaves that carries the message; delivered once, under
   * whatever return path, to a recipient with reason to accept it, it is filed; and an ack that reaches the
   * sender from the recipient settles the sender's entry.
   */
  lemma DeliveryCompletes(core: Core, s: Live, r: Live, env: Envelope, route: Option<Onion.MixPath>, from: Ik,
                          outside: Outside, v: Verdict)
    requires Lawful(core) && Due(core, r, from, env, v)
    requires !core.check(env, r.ik, from in r.contacts).payload.sensitive
    ensures var sending := Track(core, s, env, r.ik, None, route, outside);
            var (receiving, o) := ReceiveMote(core, r, from, core.encode(env), v);
            && (exists p :: sending.trace.sent == s.trace.sent + multiset{p} && Carries(core, p, env)
                            && (p.purpose.via.None? ==> p.to == r.ik))
            && o == Stored(env.id)
            && receiving.inbox == r.inbox + [core.check(env, r.ik, from in r.contacts).payload]
            && receiving.trace.sent == r.trace.sent + multiset{Packet(from, AckFrame(env.id), Receipt)}
            && var settled := ReceiveAck(sending, r.ik, env.id).outbound;
               env.id in settled && settled[env.id].state.Acked?
  {
    hide Track, ReceiveMote, Due, Carries, Seen.Record, ReceiveAck, Lawful, WireFrame;
    Frames.SubmissionStartsFresh(core, s, env, r.ik, None, route, outside);
    DecodesBack(core, env);
    AcceptedExactly(core, r, from, core.encode(env), v);
    ReceiveMoteCases(core, r, from, core.encode(env), v);
    AckCounts(Track(core, s, env, r.ik, None, route, outside), r.ik, env.id);
  }

  lemma DecodesBack(core: Core, env: Envelope)
    requires Lawful(core)
    ensures core.decode(core.encode(env)) == Some(env)
  {
  }

  /** A lost ack is made good: delivered again to the node that just accepted it, the message is acked again. */
  lemma RedeliveryIsAckedAgain(core: Core, r: Live, from: Ik, again: Ik, env: Envelope, v: Verdict, w: Verdict)
    requires Lawful(core) && DedupOk(r.seen) && env.id !in r.seen.entries && Due(core, r, from, env, v)
    ensures var first := ReceiveMote(core, r, from, core.encode(env), v).0;
            var (second, o) := ReceiveMote(core, first, again, core.encode(env), w);
            && o == Duplicate(env.id)
            && second.trace.sent == first.trace.sent + multiset{Packet(again, AckFrame(env.id), Receipt)}
            && second.inbox == first.inbox && second.trace.accepted == first.trace.accepted
  {
    hide ReceiveMote, Due, Seen.Record, Seen.Contains, Seen.SetOk, Seen.Kept, Filed, Surfaced;
    var first := ReceiveMote(core, r, from, core.encode(env), v).0;
    DecodesBack(core, env);
    DueIsVerified(core, r, from, env, v);
    AcceptedExactly(core, r, from, core.encode(env), v);
    ReceiveMoteCases(core, r, from, core.encode(env), v);
    Seen.RecordEnters(r.seen, env.id, from, r.now);
    Seen.RecordOk(r.seen, env.id, from, r.now);
    KeptIsContained(first.seen, env.id, r.now);
    AcceptedExactly(core, first, again, core.encode(env), w);
    ReceiveMoteCases(core, first, again, core.encode(env), w);
  }

  lemma DueIsVerified(core: Core, l: Live, from: Ik, env: Envelope, v: Verdict)
    requires Lawful(core) && Due(core, l, from, env, v)
    ensures env.Verified()
  {
    hide Seen.Contains;
  }

  lemma KeptIsContained(s: Seen.Set, id: ContentId, now: nat)
    requires Seen.Kept(s, id, now, 1) && s.window > 0
    ensures Seen.Contains(s, id, now)
  {
  }
}
