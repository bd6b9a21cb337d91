/** What a node holds of what it accepted: the inbox, the messages surfaced, and the group messages waiting. */
module Filing {
  import opened Prelude
  import opened Mote
  import opened Delivery
  import opened EngineOk
  import opened Receiving
  import RateGate
  import Seen

  /** The payloads of the stored acceptances, in order. */
  function StoredPayloads(accepted: seq<Acceptance>): seq<Payload> {
    if accepted == [] then []
    else
      var last := accepted[|accepted| - 1];
      StoredPayloads(accepted[..|accepted| - 1]) + (if last.stored then [last.payload] else [])
  }

  /** The sensitive ones, rendered, under their ids. */
  function RenderedSensitive(core: Core, accepted: seq<Acceptance>): seq<(ContentId, Bytes)> {
    if accepted == [] then []
    else
      var last := accepted[|accepted| - 1];
      RenderedSensitive(core, accepted[..|accepted| - 1])
      + (if last.stored then [] else [(last.id, core.render(last.payload))])
  }

  predicate Restarts(core: Core, n: Node, op: Op) { op.Restart? && Restorable(core, n.journal.disk) }

  /** How many MOTEs had been accepted when the last restart went through. */
  function AtRestart(core: Core, n: Node, ops: seq<Op>): nat {
    if ops == [] then 0
    else
      var before := Run(core, n, ops[..|ops| - 1]);
      if Restarts(core, before, ops[|ops| - 1]) then |before.live.trace.accepted|
      else AtRestart(core, n, ops[..|ops| - 1])
  }

  /** How many when the surfaced messages were last taken or lost to a restart. */
  function AtTaking(core: Core, n: Node, ops: seq<Op>): nat {
    if ops == [] then 0
    else
      var before, op := Run(core, n, ops[..|ops| - 1]), ops[|ops| - 1];
      if Restarts(core, before, op) || (op.Do? && op.action.TakeEphemeral?) then |before.live.trace.accepted|
      else AtTaking(core, n, ops[..|ops| - 1])
  }

  /** The group messages that arrived since the last restart, in order. */
  function GroupArrivals(core: Core, n: Node, ops: seq<Op>): seq<(Bytes, Bytes)> {
    if ops == [] then []
    else
      var init, op := ops[..|ops| - 1], ops[|ops| - 1];
      if Restarts(core, Run(core, n, init), op) then []
      else if op.Do? && op.action.Arrive? && op.action.frame.GroupFrame? then
        GroupArrivals(core, n, init) + [(op.action.frame.groupId, op.action.frame.body)]
      else GroupArrivals(core, n, init)
  }

  // --- one operation -----------------------------------------------------------------------------------------

  /** Whatever is accepted is what the core decrypted from the bytes that arrived. */
  lemma MoteFiles(core: Core, l: Live, from: Ik, bytes: Bytes, v: Verdict)
    ensures var (m, o) := ReceiveMote(core, l, from, bytes, v);
            if AcceptedOutcome(o) then
              && core.decode(bytes).Some?
              && var env := core.decode(bytes).value;
                 var c := core.check(env, l.ik, from in l.contacts);
                 && c.Accepted?
                 && var x := Acceptance(env.id, env.ciphertext, |bytes|, c.payload.from, env.suite,
                                        !c.payload.sensitive, c.payload);
                    && m.trace.accepted == l.trace.accepted + [x]
                    && m.inbox == l.inbox + (if x.stored then [x.payload] else [])
                    && m.trace.surfaced
                       == l.trace.surfaced + (if x.stored then [] else [(x.id, core.render(x.payload))])
            else m.trace.accepted == l.trace.accepted && m.inbox == l.inbox && m.trace.surfaced == l.trace.surfaced
  {
    hide ReceiveMote, Seen.Record, Seen.Contains, Surface, Observe;
    ReceiveMoteCases(core, l, from, bytes, v);
  }

  lemma QuietFiles(core: Core, l: Live, a: Action, outside: Outside)
    requires !(a.Arrive? && a.frame.MoteFrame?)
    ensures var m := Effect(core, l, a, outside).0;
            && m.trace.accepted == l.trace.accepted && m.inbox == l.inbox
            && m.trace.surfaced == if a.TakeEphemeral? then [] else l.trace.surfaced
  {
    hide Dispatch, SealedEntry, RetrySent, RetriedQueue, TickOutbound, SendRefusal, RateGate.Admit, RateGate.Admits;
  }

  lemma EffectOnGroups(core: Core, l: Live, a: Action, outside: Outside)
    ensures Effect(core, l, a, outside).0.groupInbox
         == if a.Arrive? && a.frame.GroupFrame? && |l.groupInbox| < 1024
            then l.groupInbox + [(a.frame.groupId, a.frame.body)] else l.groupInbox
  {
    hide Dispatch, SealedEntry, RetrySent, RetriedQueue, TickOutbound, SendRefusal, RateGate.Admit, RateGate.Admits,
         ReceiveMote, Took;
    if a.Arrive? && a.frame.MoteFrame? {
      ReceiveMoteCases(core, l, a.from, a.frame.bytes, a.verdict);
    }
  }

  lemma RestoredHolds(core: Core, ik: Ik, trace: Trace, d: Disk)
    requires Restorable(core, d)
    ensures var r := Restored(core, ik, trace, d);
            r.inbox == [] && r.groupInbox == [] && r.trace == trace.(surfaced := [])
  {
    hide Seen.RecordAll;
  }

  // --- whole runs --------------------------------------------------------------------------------------------

  ghost predicate HeldIs(core: Core, l: Live, stored: nat, taken: nat) {
    && stored <= |l.trace.accepted| && taken <= |l.trace.accepted|
    && l.inbox == StoredPayloads(l.trace.accepted[stored..])
    && l.trace.surfaced == RenderedSensitive(core, l.trace.accepted[taken..])
  }

  lemma MoreAccepted(core: Core, accepted: seq<Acceptance>, x: Acceptance, k: nat)
    requires k <= |accepted|
    ensures StoredPayloads((accepted + [x])[k..])
         == StoredPayloads(accepted[k..]) + (if x.stored then [x.payload] else [])
    ensures RenderedSensitive(core, (accepted + [x])[k..])
         == RenderedSensitive(core, accepted[k..]) + (if x.stored then [] else [(x.id, core.render(x.payload))])
  {
    var more := (accepted + [x])[k..];
    assert more == accepted[k..] + [x];
    assert more[..|more| - 1] == accepted[k..];
  }

  lemma StepHolds(core: Core, l: Live, a: Action, outside: Outside, stored: nat, taken: nat)
    requires HeldIs(core, l, stored, taken)
    ensures var m := Effect(core, l, a, outside).0;
            HeldIs(core, m, stored, if a.TakeEphemeral? then |l.trace.accepted| else taken)
  {
    hide Effect, ReceiveMote, StoredPayloads, RenderedSensitive;
    if a.Arrive? && a.frame.MoteFrame? {
      ReceiveIsEffect(core, l, a, outside);
      MoteFiles(core, l, a.from, a.frame.bytes, a.verdict);
    } else {
      QuietFiles(core, l, a, outside);
    }
    var m := Effect(core, l, a, outside).0;
    if |m.trace.accepted| > |l.trace.accepted| {
      MoreAccepted(core, l.trace.accepted, m.trace.accepted[|l.trace.accepted|], stored);
      MoreAccepted(core, l.trace.accepted, m.trace.accepted[|l.trace.accepted|], taken);
    }
    assert l.trace.accepted[|l.trace.accepted|..] == [];
    NothingHeld(core);
  }

  lemma NothingHeld(core: Core)
    ensures StoredPayloads([]) == [] && RenderedSensitive(core, []) == []
  {
  }

  /**
   * In every run, kills and failing saves included: the inbox is the payloads of the MOTEs stored since the last
   * restart, in order, and the surfaced messages are the sensitive ones accepted since they were last taken.
   */
  lemma {:induction false} HoldsWhatItAccepted(core: Core, ik: Ik, ops: seq<Op>)
    ensures HeldIs(core, Run(core, First(ik), ops).live, AtRestart(core, First(ik), ops),
                   AtTaking(core, First(ik), ops))
  {
    hide Effect, HeldIs, Snapshot, Restored, Restorable;
    if ops == [] {
      FirstHolds(core, ik);
    } else {
      var init, op := ops[..|ops| - 1], ops[|ops| - 1];
      var before := Run(core, First(ik), init);
      HoldsWhatItAccepted(core, ik, init);
      if op.Do? {
        StepHolds(core, before.live, op.action, op.outside, AtRestart(core, First(ik), init),
                  AtTaking(core, First(ik), init));
      } else if Restarts(core, before, op) {
        RestartHolds(core, before);
      }
    }
  }

  lemma FirstHolds(core: Core, ik: Ik)
    ensures HeldIs(core, First(ik).live, 0, 0)
  {
  }

  lemma RestartHolds(core: Core, n: Node)
    requires Restorable(core, n.journal.disk)
    ensures var r := Restored(core, n.live.ik, n.live.trace, n.journal.disk);
            HeldIs(core, r, |n.live.trace.accepted|, |n.live.trace.accepted|)
  {
    hide Restored, Restorable;
    RestoredHolds(core, n.live.ik, n.live.trace, n.journal.disk);
    var accepted := n.live.trace.accepted;
    assert accepted[|accepted|..] == [];
  }

  /** The group buffer is the first 1024 group messages since the last restart: a full one drops what is new. */
  lemma {:induction false} GroupsAreFirst(core: Core, ik: Ik, ops: seq<Op>)
    ensures var all := GroupArrivals(core, First(ik), ops);
            Run(core, First(ik), ops).live.groupInbox == if |all| <= 1024 then all else all[..1024]
  {
    hide Effect, Snapshot, Restored, Restorable;
    if ops != [] {
      var init, op := ops[..|ops| - 1], ops[|ops| - 1];
      var before := Run(core, First(ik), init);
      GroupsAreFirst(core, ik, init);
      if op.Do? {
        EffectOnGroups(core, before.live, op.action, op.outside);
      } else if Restarts(core, before, op) {
        RestoredHolds(core, before.live.ik, before.live.trace, before.journal.disk);
      }
    }
  }
}
