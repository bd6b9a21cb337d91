/** Concrete runs, over the sample core, of what the code does otherwise than one might expect. */
module Scenarios {
  import opened Prelude
  import opened Mote
  import opened Delivery
  import opened EngineOk
  import opened Journaling
  import opened SampleCore
  import Coalescing
  import opened Outbound
  import Onion
  import RateGate
  import Seen

  const ME: Ik := [9]
  const AUTHOR: Ik := [7]
  const OUTSIDE: Outside := Outside((to: Ik) => true, (id: ContentId) => Onion.Zeros(32))

  /** A message of this suite, to us, by the author, with the suite number as its ciphertext. */
  function Letter(suite: Byte): Envelope { Envelope(Address([suite]), [suite], ME, suite, false, AUTHOR) }

  function Delivered(suite: Byte, quota: Quota): Action {
    Arrive(AUTHOR, MoteFrame(EncodeEnvelope(Letter(suite))), Verdict(false, quota))
  }

  /** What a delivery does to a node that has not pinned the author and does not hold the message. */
  lemma LetterArrives(l: Live, suite: Byte, quota: Quota)
    requires l.ik == ME && suite in SUITES && (AUTHOR in l.marks ==> l.marks[AUTHOR] <= suite)
    requires !Seen.Contains(l.seen, Letter(suite).id, l.now)
    ensures var (m, touched) := Effect(Sample(), l, Delivered(suite, quota), OUTSIDE);
            && m.marks == l.marks[AUTHOR := suite] && m.ik == ME && m.now == l.now
            && touched == quota.Allow?
            && (touched ==>
                  && m.ranked == l.ranked + {AUTHOR}
                  && m.seen == Seen.Record(l.seen, Letter(suite).id, AUTHOR, l.now)
                  && |m.trace.accepted| == |l.trace.accepted| + 1 && l.trace.accepted <= m.trace.accepted
                  && m.trace.accepted[|l.trace.accepted|].id == Letter(suite).id
                  && m.trace.accepted[|l.trace.accepted|].suite == suite
                  && m.trace.accepted[|l.trace.accepted|].sender == AUTHOR)
            && (!touched ==> m.ranked == l.ranked && m.seen == l.seen)
            && (AUTHOR in l.ranked && AUTHOR in l.marks && l.marks[AUTHOR] < suite ==>
                  Coalescing.Raises(Sample(), l, Delivered(suite, quota)))
  {
    hide Seen.Record, Seen.Contains, EncodeEnvelope, DecodeEnvelope;
    EnvelopeBack(Letter(suite));
  }

  /** A node that has just come up, and after the first letter. */
  const FRESH: Node := First(ME)

  lemma FirstLetter(suite: Byte)
    requires suite in SUITES
    ensures var (l, touched) := Effect(Sample(), FRESH.live, Delivered(suite, Allow), OUTSIDE);
            && touched && l.marks == map[AUTHOR := suite as nat] && l.ranked == {AUTHOR}
            && l.ik == ME && l.now == BOOT_MS
            && l.outbound == map[] && l.mix == map[] && |l.trace.accepted| == 1
            && l.trace.accepted[0].id == Letter(suite).id && l.trace.accepted[0].suite == suite
            && l.trace.accepted[0].sender == AUTHOR
            && l.seen.entries.Keys == {Letter(suite).id}
  {
    hide Seen.Record, EncodeEnvelope, DecodeEnvelope, RateGate.NewGate;
    EnvelopeBack(Letter(suite));
    FirstSeen(suite);
  }

  lemma FirstSeen(suite: Byte)
    ensures Seen.Record(Seen.New(), Letter(suite).id, AUTHOR, BOOT_MS).entries.Keys == {Letter(suite).id}
  {
    Seen.KeepsBounds(Seen.New(), Letter(suite).id, AUTHOR, BOOT_MS);
    Seen.RecordEnters(Seen.New(), Letter(suite).id, AUTHOR, BOOT_MS);
  }

  // --- a refused upgrade is persisted by a batch only ---------------------------------------------------------

  lemma NotHeld(s: Seen.Set, id: ContentId, now: nat)
    requires id !in s.entries
    ensures !Seen.Contains(s, id, now)
  {
  }

  lemma OneRankedMark(l: Live, suite: nat)
    requires l.ranked == {AUTHOR} && l.marks == map[AUTHOR := suite]
    ensures RankedMarks(l) == map[AUTHOR := suite]
  {
  }

  lemma RefusedUpgrade(l: Live)
    requires l.ik == ME && l.marks == map[AUTHOR := 1] && l.ranked == {AUTHOR} && l.seen.entries.Keys == {Letter(1).id}
    ensures var (m, touched) := Effect(Sample(), l, Delivered(2, Deny([])), OUTSIDE);
            !touched && RankedMarks(l) == map[AUTHOR := 1] && RankedMarks(m) == map[AUTHOR := 2]
  {
    hide Effect, Seen.Contains, Seen.Record, RankedMarks, Coalescing.Raises, EncodeEnvelope;
    NotHeld(l.seen, Letter(2).id, l.now);
    LetterArrives(l, 2, Deny([]));
    var m := Effect(Sample(), l, Delivered(2, Deny([])), OUTSIDE).0;
    OneRankedMark(l, 1);
    assert m.marks == map[AUTHOR := 2];
    OneRankedMark(m, 2);
  }

  /**
   * A letter of suite 1 is filed, then one of suite 2 refused by the quota.  Saved after each, the journal has the
   * author's mark at 1; saved after the batch, at 2.
   */
  lemma BatchPersistsRefusedUpgrade()
    ensures var ops := [Do(Delivered(1, Allow), OUTSIDE), Do(Delivered(2, Deny([])), OUTSIDE)];
            && Run(Sample(), FRESH, ops).journal.disk.marks == map[AUTHOR := 1]
            && Run(Sample(), FRESH, Batch(ops)).journal.disk.marks == map[AUTHOR := 2]
  {
    hide Effect, Run, RankedMarks, EncodeEnvelope, Letter;
    var a, b := Do(Delivered(1, Allow), OUTSIDE), Do(Delivered(2, Deny([])), OUTSIDE);
    FirstLetter(1);
    RefusedUpgrade(Effect(Sample(), FRESH.live, Delivered(1, Allow), OUTSIDE).0);
    Coalescing.RunPair(Sample(), FRESH, a, b);
    Coalescing.BatchSavesEnd(Sample(), FRESH, [a, b]);
  }

  // --- a restart forgets what it remembers ---------------------------------------------------------------------

  lemma RunFour(core: Core, n: Node, a: Op, b: Op, c: Op, d: Op)
    ensures Run(core, n, [a, b, c, d])
         == Perform(core, Perform(core, Perform(core, Perform(core, n, a), b), c), d)
  {
    hide Perform, Run;
    RunOne(core, n, a);
    RunAppend(core, n, [a], [b]);
    RunOne(core, Perform(core, n, a), b);
    RunAppend(core, n, [a, b], [c]);
    RunOne(core, Run(core, n, [a, b]), c);
    RunAppend(core, n, [a, b, c], [d]);
    RunOne(core, Run(core, n, [a, b, c]), d);
    assert [a] + [b] == [a, b] && [a, b] + [c] == [a, b, c] && [a, b, c] + [d] == [a, b, c, d];
  }

  /** The node with the first letter, its journal in step. */
  lemma WithLetter()
    ensures var n := Perform(Sample(), FRESH, Do(Delivered(1, Allow), OUTSIDE));
            && n.journal.disk == Snapshot(Sample(), n.live) && n.journal.disk.outbound == map[]
            && n.journal.disk.marks == map[AUTHOR := 1]
            && DedupOk(n.live.seen) && Letter(1).id in n.live.seen.entries && n.live.ik == ME
  {
    hide Effect, Seen.Pairs, EncodeEnvelope, Lawful, RateGate.NewGate, RankedMarks, Seen.SetOk;
    var op := Do(Delivered(1, Allow), OUTSIDE);
    var n := Perform(Sample(), FRESH, op);
    FirstLetter(1);
    OneRankedMark(n.live, 1);
    SampleIsLawful();
    FirstOk(Sample(), ME);
    PerformKeeps(Sample(), FRESH, op);
    NodeDedup(Sample(), n);
  }

  lemma NodeDedup(core: Core, n: Node)
    requires NodeOk(core, n)
    ensures DedupOk(n.live.seen)
  {
  }

  /** The node with the first letter, after a restart and the clock set to t. */
  lemma RestartedWithLetter(t: nat)
    requires t >= BOOT_MS + Seen.DEDUP_WINDOW_MS
    ensures var n := Perform(Sample(), FRESH, Do(Delivered(1, Allow), OUTSIDE));
            var r := Perform(Sample(), Perform(Sample(), n, Restart), Do(SetNow(t), OUTSIDE)).live;
            && r.ik == ME && r.now == t && r.marks == map[AUTHOR := 1] && r.trace.accepted == n.live.trace.accepted
            && !Seen.Contains(r.seen, Letter(1).id, t)
  {
    hide *;
    var n := Perform(Sample(), FRESH, Do(Delivered(1, Allow), OUTSIDE));
    WithLetter();
    RestoredLetter(n, t);
    RestartThenClock(Sample(), n, t);
  }

  lemma RestoredLetter(n: Node, t: nat)
    requires n.journal.disk == Snapshot(Sample(), n.live) && n.journal.disk.outbound == map[]
    requires n.journal.disk.marks == map[AUTHOR := 1] && DedupOk(n.live.seen) && n.live.ik == ME
    requires t >= BOOT_MS + Seen.DEDUP_WINDOW_MS
    ensures Restorable(Sample(), n.journal.disk)
    ensures var r := Restored(Sample(), n.live.ik, n.live.trace, n.journal.disk).(now := t);
            && r.ik == ME && r.now == t && r.marks == map[AUTHOR := 1] && r.trace.accepted == n.live.trace.accepted
            && !Seen.Contains(r.seen, Letter(1).id, t)
  {
    hide Seen.RecordAll, Seen.Pairs, Seen.SetOk, Seen.Contains, RateGate.NewGate, IntoEntry, Persisted, RankedMarks,
         EncodeEnvelope, DecodeEnvelope;
    Seen.RestoredReads(n.live.seen, Letter(1).id, BOOT_MS, t);
  }

  lemma RestartThenClock(core: Core, n: Node, t: nat)
    requires Restorable(core, n.journal.disk)
    ensures Perform(core, Perform(core, n, Restart), Do(SetNow(t), OUTSIDE)).live
         == Restored(core, n.live.ik, n.live.trace, n.journal.disk).(now := t)
  {
    hide Restored, Restorable;
  }

  /** One letter, delivered before a restart and again 20 days past the clock of a bare node, is accepted twice. */
  lemma LetterTakenTwice(t: nat)
    requires t >= BOOT_MS + Seen.DEDUP_WINDOW_MS
    ensures var letter := Do(Delivered(1, Allow), OUTSIDE);
            var taken := Run(Sample(), FRESH, [letter, Restart, Do(SetNow(t), OUTSIDE), letter]).live.trace.accepted;
            |taken| == 2 && taken[0].id == taken[1].id == Letter(1).id
  {
    hide Effect, Run, Restored, Restorable, EncodeEnvelope, Snapshot, Seen.Contains, Seen.Record;
    var letter := Do(Delivered(1, Allow), OUTSIDE);
    var n := Perform(Sample(), FRESH, letter);
    FirstLetter(1);
    RunFour(Sample(), FRESH, letter, Restart, Do(SetNow(t), OUTSIDE), letter);
    RestartedWithLetter(t);
    LetterArrives(Perform(Sample(), Perform(Sample(), n, Restart), Do(SetNow(t), OUTSIDE)).live, 1, Allow);
  }

  // --- a kill inside a batch ---------------------------------------------------------------------------------

  /** Killed inside the batch that accepted a letter of suite 2, the node accepts one of suite 1 afterwards. */
  lemma KillLosesFloor()
    ensures var ops := [BeginPoll, Do(Delivered(2, Allow), OUTSIDE), Restart, Do(Delivered(1, Allow), OUTSIDE)];
            var taken := Run(Sample(), FRESH, ops).live.trace.accepted;
            |taken| == 2 && taken[0].sender == taken[1].sender && taken[0].suite == 2 && taken[1].suite == 1
  {
    hide Effect, EncodeEnvelope, Snapshot, Run, Seen.Record;
    var core, a, b := Sample(), Do(Delivered(2, Allow), OUTSIDE), Do(Delivered(1, Allow), OUTSIDE);
    FirstLetter(2);
    RunFour(core, FRESH, BeginPoll, a, Restart, b);
    var r := Perform(core, Perform(core, Perform(core, FRESH, BeginPoll), a), Restart).live;
    assert r.seen == Seen.New();
    LetterArrives(r, 1, Allow);
  }
}
