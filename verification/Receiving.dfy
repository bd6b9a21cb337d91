/** What one inbound MOTE can do to a node: which disposition moves what. */
module Receiving {
  import opened Prelude
  import opened Mote
  import opened Delivery
  import Seen

  /** The parts of a node no inbound MOTE reaches. */
  predicate Undisturbed(l: Live, m: Live) {
    && m.ik == l.ik && m.now == l.now && m.directory == l.directory && m.outbound == l.outbound
    && m.mix == l.mix && m.gate == l.gate && m.groupInbox == l.groupInbox
    && m.trace.submitted == l.trace.submitted
  }

  /** Nothing was taken: no dedup record, no contact, nothing filed, surfaced, metered or sent. */
  predicate NothingTaken(l: Live, m: Live) {
    && m.seen == l.seen && m.contacts == l.contacts && m.ranked == l.ranked
    && m.inbox == l.inbox && m.ephemeral == l.ephemeral
    && m.trace == l.trace.(granted := m.trace.granted)
  }

  /** `a` was taken from `from`: recorded, and either filed, metered and acked, or surfaced and not acked. */
  predicate Took(core: Core, l: Live, m: Live, from: Ik, a: Acceptance) {
    && m.seen == Seen.Record(l.seen, a.id, from, l.now)
    && m.trace.accepted == l.trace.accepted + [a]
    && m.contacts == l.contacts + {a.sender} && m.ranked == l.ranked + {a.sender}
    && (if a.stored then Filed(l, m, from, a) else Surfaced(core, l, m, a))
  }

  predicate Filed(l: Live, m: Live, from: Ik, a: Acceptance) {
    && m.inbox == l.inbox + [a.payload] && m.ephemeral == l.ephemeral
    && m.trace.metered == l.trace.metered + [a.size]
    && m.trace.sent == l.trace.sent + multiset{Packet(from, AckFrame(a.id), Receipt)}
    && m.trace.surfaced == l.trace.surfaced
  }

  predicate Surfaced(core: Core, l: Live, m: Live, a: Acceptance) {
    && m.inbox == l.inbox && m.trace.metered == l.trace.metered && m.trace.sent == l.trace.sent
    && m.trace.surfaced == l.trace.surfaced + [(a.id, core.render(a.payload))]
    && m.ephemeral == Surface(l.ephemeral, a.id, core.render(a.payload))
  }

  /** What is recorded of an acceptance. */
  function AcceptanceOf(env: Envelope, p: Payload, size: nat): Acceptance {
    Acceptance(env.id, env.ciphertext, size, p.from, env.suite, !p.sensitive, p)
  }

  /** What was taken is the payload itself. */
  lemma TookPayload(core: Core, l: Live, m: Live, from: Ik, env: Envelope, p: Payload, size: nat)
    requires Took(core, l, m, from, AcceptanceOf(env, p, size))
    ensures if p.sensitive then m.inbox == l.inbox && m.trace.surfaced == l.trace.surfaced + [(env.id, core.render(p))]
            else m.inbox == l.inbox + [p] && m.trace.surfaced == l.trace.surfaced
  {
    hide Seen.Record, Surface;
  }

  lemma AcceptMoteCases(core: Core, l: Live, from: Ik, env: Envelope, p: Payload, size: nat)
    ensures var (m, o) := AcceptMote(core, l, from, env, p, size);
            && Undisturbed(l, m) && m.marks == l.marks && m.requests == l.requests
            && m.trace.granted == l.trace.granted
            && (AcceptedOutcome(o) ==> o.id == env.id && Took(core, l, m, from, AcceptanceOf(env, p, size)))
            && (!AcceptedOutcome(o) ==> o == Dropped(BadPayloadSig) && m == l)
            && (o.Dropped? <==> from in l.contacts && p.from != from)
            && (!o.Dropped? ==> (o.EphemeralDelivered? <==> p.sensitive)
                                && m.contacts == l.contacts + {p.from} && m.ranked == l.ranked + {p.from})
  {
    hide Seen.Record, Surface;
  }

  lemma AuthenticatedCases(core: Core, l: Live, from: Ik, env: Envelope, p: Payload, size: nat, quota: Quota)
    ensures var (m, o) := Authenticated(core, l, from, env, p, size, quota);
            && Undisturbed(l, m) && !o.Duplicate?
            && (AcceptedOutcome(o) ==>
                  && o.id == env.id && Took(core, l, m, from, AcceptanceOf(env, p, size))
                  && (o.Stored? <==> !p.sensitive)
                  && quota.Allow? && m.trace.granted == l.trace.granted + [size]
                  && m.marks == Observe(l.marks, p.from, env.suite) && p.from in m.ranked
                  && (p.from in l.marks ==> l.marks[p.from] <= env.suite))
            && l.ranked <= m.ranked
            && (!AcceptedOutcome(o) ==> NothingTaken(l, m))
            && (m.marks == l.marks || m.marks == Observe(l.marks, p.from, env.suite))
            && m.ranked <= l.ranked + m.marks.Keys
            && (m.trace.granted == l.trace.granted || m.trace.granted == l.trace.granted + [size])
  {
    hide Seen.Record, Surface, AcceptMote;
    var ratcheted := l.(marks := Observe(l.marks, p.from, env.suite));
    AcceptMoteCases(core, ratcheted.(trace := l.trace.(granted := l.trace.granted + [size])), from, env, p, size);
  }

  /** An acceptance of `env`: taken, not held before, and not below its sender's suite floor, which it raises. */
  predicate AcceptedAs(core: Core, l: Live, from: Ik, bytes: Bytes, env: Envelope, m: Live, o: InboundOutcome)
    requires core.check(env, l.ik, from in l.contacts).Accepted?
  {
    var p := core.check(env, l.ik, from in l.contacts).payload;
    && AcceptedOutcome(o) && o.id == env.id && (o.Stored? <==> !p.sensitive)
    && Took(core, l, m, from, AcceptanceOf(env, p, |bytes|))
    && (if p.sensitive then m.inbox == l.inbox && m.trace.surfaced == l.trace.surfaced + [(env.id, core.render(p))]
        else m.inbox == l.inbox + [p] && m.trace.surfaced == l.trace.surfaced)
    && !(env.Verified() && Seen.Contains(l.seen, env.id, l.now))
    && m.marks == Observe(l.marks, p.from, env.suite) && p.from in m.ranked
    && (p.from in l.marks ==> l.marks[p.from] <= env.suite)
  }

  /** The dispositions of the whole pipeline. */
  lemma ReceiveMoteCases(core: Core, l: Live, from: Ik, bytes: Bytes, v: Verdict)
    ensures var (m, o) := ReceiveMote(core, l, from, bytes, v);
            && Undisturbed(l, m)
            && (AcceptedOutcome(o) ==>
                  && core.decode(bytes).Some?
                  && core.check(core.decode(bytes).value, l.ik, from in l.contacts).Accepted?
                  && AcceptedAs(core, l, from, bytes, core.decode(bytes).value, m, o)
                  && v.quota.Allow? && m.trace.granted == l.trace.granted + [|bytes|])
            && l.ranked <= m.ranked
            && (o.Duplicate? ==> Seen.Contains(l.seen, o.id, l.now) && m == SendAck(l, from, o.id))
            && (!AcceptedOutcome(o) && !o.Duplicate? ==> NothingTaken(l, m))
            && (m.trace.granted == l.trace.granted || m.trace.granted == l.trace.granted + [|bytes|])
  {
    hide Seen.Record, Seen.Contains, Took, Authenticated;
    if core.decode(bytes).Some? {
      var env := core.decode(bytes).value;
      var c := core.check(env, l.ik, from in l.contacts);
      if c.Accepted? {
        AuthenticatedCases(core, l, from, env, c.payload, |bytes|, v.quota);
        var (m, o) := ReceiveMote(core, l, from, bytes, v);
        if AcceptedOutcome(o) {
          TookPayload(core, l, m, from, env, c.payload, |bytes|);
        }
      }
    }
  }

  /** Suite marks only rise, and only to suites the core knows. */
  lemma ReceiveMoteMarks(core: Core, l: Live, from: Ik, bytes: Bytes, v: Verdict)
    requires Lawful(core)
    ensures var m := ReceiveMote(core, l, from, bytes, v).0;
            forall c :: c in m.marks && !(c in l.marks && l.marks[c] == m.marks[c]) ==>
              m.marks[c] in core.suites && (c in l.marks ==> l.marks[c] < m.marks[c])
    ensures var m := ReceiveMote(core, l, from, bytes, v).0;
            l.marks.Keys <= m.marks.Keys && m.ranked <= l.ranked + m.marks.Keys
  {
    hide Seen.Record, Seen.Contains, Took, Authenticated;
    if core.decode(bytes).Some? {
      var env := core.decode(bytes).value;
      var c := core.check(env, l.ik, from in l.contacts);
      if c.Accepted? {
        AuthenticatedCases(core, l, from, env, c.payload, |bytes|, v.quota);
      }
    }
  }

  /** Whether the MOTE gets as far as raising its author's suite mark, accepted in the end or not. */
  predicate Ratchets(core: Core, l: Live, from: Ik, env: Envelope, v: Verdict) {
    var c := core.check(env, l.ik, from in l.contacts);
    && !(env.Verified() && Seen.Contains(l.seen, env.id, l.now))
    && !(from !in l.contacts && env.hasPow && v.overBudget)
    && c.Accepted?
    && (c.payload.from in l.marks ==> l.marks[c.payload.from] <= env.suite)
  }

  /** The ratchet turns before the quota and the pin are asked, and moves the author's mark to the suite offered. */
  lemma RatchetsExactly(core: Core, l: Live, from: Ik, bytes: Bytes, v: Verdict)
    ensures var m := ReceiveMote(core, l, from, bytes, v).0;
            if core.decode(bytes).Some? && Ratchets(core, l, from, core.decode(bytes).value, v)
            then var env := core.decode(bytes).value;
                 m.marks == l.marks[core.check(env, l.ik, from in l.contacts).payload.from := env.suite]
            else m.marks == l.marks
  {
    hide Seen.Record, Seen.Contains, AcceptMote;
    if core.decode(bytes).Some? {
      var env := core.decode(bytes).value;
      var c := core.check(env, l.ik, from in l.contacts);
      if c.Accepted? {
        var ratcheted := l.(marks := Observe(l.marks, c.payload.from, env.suite));
        AcceptMoteCases(core, ratcheted.(trace := l.trace.(granted := l.trace.granted + [|bytes|])), from, env,
                        c.payload, |bytes|);
        hide Took;
      }
    }
  }

  /** Everything but being held already that must hold for a MOTE to be accepted. */
  predicate Welcome(core: Core, l: Live, from: Ik, env: Envelope, v: Verdict) {
    var c := core.check(env, l.ik, from in l.contacts);
    && !(from !in l.contacts && env.hasPow && v.overBudget)
    && c.Accepted?
    && (c.payload.from in l.marks ==> l.marks[c.payload.from] <= env.suite)
    && v.quota.Allow?
    && (from in l.contacts ==> c.payload.from == from)
  }

  predicate Due(core: Core, l: Live, from: Ik, env: Envelope, v: Verdict) {
    !(env.Verified() && Seen.Contains(l.seen, env.id, l.now)) && Welcome(core, l, from, env, v)
  }

  /** A MOTE is accepted exactly when all of it holds, and a duplicate exactly when it is genuine and held. */
  lemma AcceptedExactly(core: Core, l: Live, from: Ik, bytes: Bytes, v: Verdict)
    ensures var o := ReceiveMote(core, l, from, bytes, v).1;
            && (AcceptedOutcome(o) <==> core.decode(bytes).Some? && Due(core, l, from, core.decode(bytes).value, v))
            && (o.Duplicate? <==>
                  && core.decode(bytes).Some? && core.decode(bytes).value.Verified()
                  && Seen.Contains(l.seen, core.decode(bytes).value.id, l.now))
            && (o.Duplicate? ==> o.id == core.decode(bytes).value.id)
            && (AcceptedOutcome(o) ==>
                  var env := core.decode(bytes).value;
                  o == if core.check(env, l.ik, from in l.contacts).payload.sensitive then EphemeralDelivered(env.id)
                       else Stored(env.id))
  {
    hide Seen.Record, Seen.Contains, AcceptMote, Observe;
    if core.decode(bytes).Some? {
      var env := core.decode(bytes).value;
      var c := core.check(env, l.ik, from in l.contacts);
      if c.Accepted? {
        var ratcheted := l.(marks := Observe(l.marks, c.payload.from, env.suite));
        AcceptMoteCases(core, ratcheted.(trace := l.trace.(granted := l.trace.granted + [|bytes|])), from, env,
                        c.payload, |bytes|);
        hide Took;
      }
    }
  }

  /** An authenticated MOTE under the floor of its author. */
  predicate UnderFloor(core: Core, l: Live, from: Ik, env: Envelope) {
    var c := core.check(env, l.ik, from in l.contacts);
    c.Accepted? && c.payload.from in l.marks && env.suite < l.marks[c.payload.from]
  }

  /** What becomes of an authenticated MOTE that is not accepted. */
  lemma AuthenticatedRefused(core: Core, l: Live, from: Ik, env: Envelope, p: Payload, size: nat, quota: Quota)
    ensures var (m, o) := Authenticated(core, l, from, env, p, size, quota);
            var under := p.from in l.marks && env.suite < l.marks[p.from];
            var mismatch := from in l.contacts && p.from != from;
            && (o.Deferred? <==> under)
            && (under ==> o.id == env.id && m == l.(requests := l.requests + [from]))
            && (!under ==> m.requests == l.requests)
            && (o.StorageDenied? <==> !under && quota.Deny?)
            && (o.StorageDenied? ==> o == StorageDenied(env.id, quota.reason))
            && (o.Dropped? <==> !under && quota.Allow? && mismatch)
            && (o.Dropped? ==> o.why == BadPayloadSig)
  {
    hide Seen.Record, Surface, AcceptMote, Took;
    var ratcheted := l.(marks := Observe(l.marks, p.from, env.suite));
    AcceptMoteCases(core, ratcheted.(trace := l.trace.(granted := l.trace.granted + [size])), from, env, p, size);
  }

  /**
   * What is neither accepted nor a duplicate: put off to the requests area without a word to the sender, denied for
   * its storage, or dropped; each exactly when, and nothing but a deferral reaches the requests area.
   */
  lemma RefusedExactly(core: Core, l: Live, from: Ik, bytes: Bytes, v: Verdict)
    requires core.decode(bytes).Some?
    ensures var env := core.decode(bytes).value;
            var (m, o) := ReceiveMote(core, l, from, bytes, v);
            var c, known := core.check(env, l.ik, from in l.contacts), from in l.contacts;
            var held := env.Verified() && Seen.Contains(l.seen, env.id, l.now);
            var judged := !held && (known || !env.hasPow || !v.overBudget);
            && (o.Deferred? <==>
                  !held && ((!known && env.hasPow && v.overBudget) || c.ColdDeferred?
                            || UnderFloor(core, l, from, env)))
            && (o.Deferred? ==> o.id == env.id && m == l.(requests := l.requests + [from]))
            && (!o.Deferred? ==> m.requests == l.requests)
            && (o.StorageDenied? <==> judged && c.Accepted? && !UnderFloor(core, l, from, env) && v.quota.Deny?)
            && (o.StorageDenied? ==> o == StorageDenied(env.id, v.quota.reason))
            && (o.Dropped? <==>
                  judged && (c.Rejected?
                             || (c.Accepted? && !UnderFloor(core, l, from, env) && v.quota.Allow?
                                 && known && c.payload.from != from)))
            && (o.Dropped? ==> o.why == if c.Rejected? then c.reason else BadPayloadSig)
  {
    hide Seen.Record, Seen.Contains, Authenticated;
    var env := core.decode(bytes).value;
    var c := core.check(env, l.ik, from in l.contacts);
    if c.Accepted? {
      AuthenticatedRefused(core, l, from, env, c.payload, |bytes|, v.quota);
    }
  }

  lemma MalformedIsDropped(core: Core, l: Live, from: Ik, bytes: Bytes, v: Verdict)
    requires core.decode(bytes).None?
    ensures ReceiveMote(core, l, from, bytes, v) == (l, Dropped(MalformedMote))
  {
  }
}
