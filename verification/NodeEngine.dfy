/**
 * The delivery engine of node/src/node.rs as an object: the fields its operations update, the loops over
 * the queue and over inbound frames, and the journal.  Each operation is proved to compute the function
 * of `Delivery` it stands for.
 */
module NodeEngine {
  import opened Prelude
  import opened Listing
  import opened Mote
  import opened Outbound
  import opened MixDirectory
  import opened Delivery
  import opened EngineOk
  import opened JournalFile
  import opened Journaling
  import Admission
  import Dedup
  import Onion
  import OnionLossless
  import OnionWrapper
  import RateGate
  import Seen

  /** The way out.  `sent` is every packet ever handed over; `up` says which peers can be reached just now. */
  class Transport {
    ghost var sent: multiset<Packet>

    constructor ()
      ensures sent == multiset{}
    {
      sent := multiset{};
    }

    method Send(p: Packet, up: Ik -> bool) returns (ok: bool)
      modifies this
      ensures ok == up(p.to) && sent == old(sent) + multiset{p}
    {
      sent := sent + multiset{p};
      ok := up(p.to);
    }
  }

  /** The usage sink: the stored-bytes events, oldest first. */
  class UsageMeter {
    var stored: seq<nat>

    constructor ()
      ensures stored == []
    {
      stored := [];
    }

    method Record(delta: nat)
      modifies this
      ensures stored == old(stored) + [delta]
    {
      stored := stored + [delta];
    }
  }

  datatype Inbound = Inbound(from: Ik, frame: Frame, verdict: Verdict)

  /** The arrivals of a batch, one operation each. */
  function Arrivals(frames: seq<Inbound>, outside: Outside): seq<Op> {
    seq(|frames|, i requires 0 <= i < |frames| =>
      Do(Arrive(frames[i].from, frames[i].frame, frames[i].verdict), outside))
  }

  /** The dispositions of the batch's MOTEs; other frames have none. */
  function Outcomes(core: Core, n: Node, frames: seq<Inbound>, outside: Outside): seq<InboundOutcome> {
    if frames == [] then []
    else
      var before, f := frames[..|frames| - 1], frames[|frames| - 1];
      Outcomes(core, n, before, outside)
      + (if f.frame.MoteFrame?
         then [ReceiveMote(core, Run(core, n, Arrivals(before, outside)).live, f.from, f.frame.bytes, f.verdict).1]
         else [])
  }

  lemma NoArrivals(core: Core, n: Node, outside: Outside)
    ensures Run(core, n, Arrivals([], outside)) == n
    ensures Outcomes(core, n, [], outside) == []
  {
  }

  lemma MoreArrivals(core: Core, n: Node, frames: seq<Inbound>, i: nat, outside: Outside)
    requires i < |frames|
    ensures var f, before := frames[i], Run(core, n, Arrivals(frames[..i], outside));
            && Run(core, n, Arrivals(frames[..i + 1], outside))
               == Perform(core, before, Do(Arrive(f.from, f.frame, f.verdict), outside))
            && Outcomes(core, n, frames[..i + 1], outside)
               == Outcomes(core, n, frames[..i], outside)
                  + (if f.frame.MoteFrame?
                     then [ReceiveMote(core, before.live, f.from, f.frame.bytes, f.verdict).1]
                     else [])
  {
    hide Perform, ReceiveMote;
    var ops := Arrivals(frames[..i + 1], outside);
    assert frames[..i + 1][..i] == frames[..i];
    assert ops[..i] == Arrivals(frames[..i], outside);
  }

  class NodeEngine {
    const core: Core
    const ik: Ik
    const transport: Transport
    const meter: UsageMeter
    const journal: MemoryJournal
    const seen: Dedup.SeenSet
    const mixDirectory: MixDirectoryTracker
    var admission: Admission.DeniableAdmission
    var now: nat
    var contacts: set<Ik>
    var directory: set<Ik>
    var outbound: map<ContentId, Entry>
    var ephemeral: seq<(ContentId, Bytes)>
    var inbox: seq<Payload>
    var requests: seq<Ik>
    var suiteRatchet: map<Ik, nat>
    var suiteContacts: set<Ik>
    var groupInbox: seq<(Bytes, Bytes)>
    var checkpointDeferred: bool
    var checkpointDirty: bool
    ghost var submitted: set<Envelope>
    ghost var accepted: seq<Acceptance>
    ghost var granted: seq<nat>
    ghost var surfaced: seq<(ContentId, Bytes)>
    ghost var disk: Disk

    ghost function History(): Trace
      reads this, transport, meter
    {
      Trace(transport.sent, submitted, accepted, granted, meter.stored, surfaced)
    }

    ghost function State(): Live
      reads this, transport, meter, seen, mixDirectory, admission, admission.global
    {
      Live(ik, now, contacts, directory, outbound, seen.Value(), ephemeral, inbox, requests, suiteRatchet,
           suiteContacts, mixDirectory.latest, admission.Value(), groupInbox, History())
    }

    ghost function Durable(): Journal
      reads this, journal
    {
      Journal(checkpointDeferred, checkpointDirty, disk, !journal.failing, journal.saves)
    }

    ghost function Value(): Node
      reads this, transport, meter, seen, mixDirectory, admission, admission.global, journal
    {
      Node(State(), Durable())
    }

    /** The state is well formed and the journal's file holds the modelled tables. */
    ghost predicate Valid()
      reads this, transport, meter, seen, mixDirectory, admission, admission.global, journal
    {
      Lawful(core) && NodeOk(core, Value()) && Writes(journal.Load(), disk, core.dirs)
    }

    /** Everything fresh; what happened under this identity before is `past`. */
    constructor Bare(core: Core, ik: Ik, transport: Transport, meter: UsageMeter, journal: MemoryJournal,
                     ghost disk: Disk, ghost past: Trace)
      requires past.sent == transport.sent && past.metered == meter.stored
      ensures this.core == core && this.transport == transport && this.meter == meter && this.journal == journal
      ensures fresh(seen) && fresh(mixDirectory) && fresh(admission) && fresh(admission.global)
      ensures State() == Delivery.Bare(ik, past)
      ensures Durable() == Journal(false, false, disk, !journal.failing, journal.saves)
    {
      this.core, this.ik, this.transport, this.meter, this.journal := core, ik, transport, meter, journal;
      seen := new Dedup.SeenSet();
      mixDirectory := new MixDirectoryTracker();
      admission := new Admission.DeniableAdmission(RateGate.DEFAULT_LIMITS, BOOT_MS);
      now, contacts, directory, outbound := BOOT_MS, {}, {}, map[];
      ephemeral, inbox, requests, suiteRatchet, suiteContacts, groupInbox := [], [], [], map[], {}, [];
      checkpointDeferred, checkpointDirty := false, false;
      submitted, accepted, granted, surfaced := past.submitted, past.accepted, past.granted, past.surfaced;
      this.disk := disk;
    }

    // --- the journal ---------------------------------------------------------------------------------------

    method PersistedQueue() returns (es: seq<PersistedEntry>)
      requires QueueOk(core, outbound, submitted)
      ensures Lists(Keyed(es), Persisted(core, outbound))
    {
      hide Persisted, EntryOk, FromEntry, Keyed, Lists;
      var ps := Enumerate(outbound);
      es := [];
      for i := 0 to |ps|
        invariant |es| == i && forall j :: 0 <= j < i ==> es[j] == FromEntry(core, ps[j].1)
      {
        es := es + [FromEntry(core, ps[i].1)];
      }
      QueueKeys(core, outbound, submitted);
      KeyedLists(core, ps, outbound, es);
    }

    /** The floors of the contacts kept track of; a contact without a floor is skipped. */
    method PersistedMarks() returns (ms: seq<(Ik, nat)>)
      ensures Lists(ms, RankedMarks(State()))
    {
      ms := [];
      var todo := suiteContacts;
      ghost var all := RankedMarks(State());
      while todo != {}
        invariant todo <= suiteContacts
        invariant forall i :: 0 <= i < |ms| ==> ms[i].0 in all && all[ms[i].0] == ms[i].1 && ms[i].0 !in todo
        invariant forall i, j :: 0 <= i < j < |ms| ==> ms[i].0 != ms[j].0
        invariant forall c :: c in all && c !in todo ==> exists i :: 0 <= i < |ms| && ms[i] == (c, all[c])
        decreases todo
      {
        var c :| c in todo;
        ghost var before := ms;
        if c in suiteRatchet {
          ms := ms + [(c, suiteRatchet[c])];
        }
        todo := todo - {c};
        forall x | x in all && x !in todo
          ensures exists i :: 0 <= i < |ms| && ms[i] == (x, all[x])
        {
          if x == c {
            assert ms[|ms| - 1] == (x, all[x]);
          } else {
            var i :| 0 <= i < |before| && before[i] == (x, all[x]);
            assert ms[i] == (x, all[x]);
          }
        }
      }
    }

    method PersistedDirectories() returns (files: seq<Bytes>)
      ensures ListsDirectories(files, mixDirectory.latest, core.dirs)
    {
      var ps := Enumerate(mixDirectory.latest);
      files := [];
      for i := 0 to |ps|
        invariant files == Encoded(ps[..i], core.dirs)
      {
        files := files + [core.dirs.encode(ps[i].1)];
        assert ps[..i + 1][..i] == ps[..i];
      }
      assert ps[..|ps|] == ps;
    }

    method SnapshotFile() returns (f: File)
      requires QueueOk(core, outbound, submitted)
      ensures Writes(f, Snapshot(core, State()), core.dirs)
    {
      hide QueueOk, Lists, Seen.Pairs, Persisted, RankedMarks, ListsDirectories;
      var es := PersistedQueue();
      var pairs := seen.PersistPairs();
      var marks := PersistedMarks();
      var dirs := PersistedDirectories();
      var gate := admission.Snapshot();
      CollectOfListing(gate.perSource, admission.perSource);
      f := File(es, pairs, marks, dirs, Some(gate));
    }

    method Checkpoint()
      requires QueueOk(core, outbound, submitted) && Writes(journal.Load(), disk, core.dirs)
      modifies this`checkpointDirty, this`disk, journal
      ensures State() == old(State()) && Writes(journal.Load(), disk, core.dirs)
      ensures Durable() == Delivery.Checkpoint(core, old(State()), old(Durable()))
    {
      hide Writes, Snapshot, QueueOk;
      if checkpointDeferred {
        checkpointDirty := true;
        return;
      }
      Flush();
    }

    method Flush()
      requires QueueOk(core, outbound, submitted) && Writes(journal.Load(), disk, core.dirs)
      modifies this`disk, journal
      ensures State() == old(State()) && Writes(journal.Load(), disk, core.dirs)
      ensures Durable() == Save(core, old(State()), old(Durable()))
    {
      hide Writes, Snapshot, QueueOk;
      var f := SnapshotFile();
      ghost var tables := Snapshot(core, State());
      var ok := journal.Save(f);
      if ok {
        disk := tables;
      }
    }

    // --- receiving -----------------------------------------------------------------------------------------

    /** Advance the entry the ack is for, if it is its recipient's. */
    method AdvanceEntry(from: Ik, id: ContentId) returns (changed: bool)
      modifies this`outbound
      ensures State() == Delivery.ReceiveAck(old(State()), from, id)
      ensures changed == (outbound != old(outbound))
    {
      changed := false;
      if id in outbound {
        var entry := outbound[id];
        if entry.to != from || entry.state.Sealed? || entry.state.Queued? {
          assert outbound[id := entry] == outbound;
          return;
        }
        var ev := if entry.state.Expired? then LateAck else AckReceived;
        var after := Apply(entry, ev).value;
        outbound := outbound[id := after];
        changed := after.state != entry.state || after.deliveredLate != entry.deliveredLate;
        if changed {
          assert old(outbound)[id] != outbound[id];
        } else {
          assert outbound == old(outbound);
        }
      }
    }

    method ReceiveAck(from: Ik, id: ContentId, ghost v: Verdict, ghost outside: Outside)
      requires Valid()
      modifies this`outbound, this`checkpointDirty, this`disk, journal
      ensures Valid()
      ensures Value() == Perform(core, old(Value()), Do(Arrive(from, AckFrame(id), v), outside))
    {
      hide NodeOk, QueueOk, Writes, Lawful, Delivery.Checkpoint, AckEntry;
      ghost var op := Do(Arrive(from, AckFrame(id), v), outside);
      PerformKeeps(core, Value(), op);
      KeepsQueue(core, Value(), op);
      var changed := AdvanceEntry(from, id);
      if changed {
        Checkpoint();
      }
    }

    /** Record the id as accepted and make that durable. */
    method Remember(id: ContentId, from: Ik)
      requires QueueOk(core, outbound, submitted) && Writes(journal.Load(), disk, core.dirs)
      modifies this`checkpointDirty, this`disk, seen, journal
      ensures Writes(journal.Load(), disk, core.dirs)
      ensures State() == old(State()).(seen := Seen.Record(old(State()).seen, id, from, now))
      ensures Durable() == Delivery.Checkpoint(core, State(), old(Durable()))
    {
      hide QueueOk, Writes, Seen.Record, Delivery.Checkpoint;
      seen.Record(id, from, now);
      Checkpoint();
    }

    /** Hold a rendered sensitive message in memory, dropping the oldest at the cap. */
    method Hold(id: ContentId, raw: Bytes)
      modifies this`ephemeral, this`surfaced
      ensures ephemeral == Surface(old(ephemeral), id, raw) && surfaced == old(surfaced) + [(id, raw)]
    {
      if |ephemeral| >= MAX_EPHEMERAL_HELD {
        ephemeral := ephemeral[1..];
      }
      ephemeral := ephemeral + [(id, raw)];
      surfaced := surfaced + [(id, raw)];
    }

    /** Surface a sensitive message: held in memory, remembered, not acked. */
    method SurfaceMote(from: Ik, id: ContentId, raw: Bytes)
      requires QueueOk(core, outbound, submitted) && Writes(journal.Load(), disk, core.dirs)
      modifies this`ephemeral, this`surfaced, this`checkpointDirty, this`disk, seen, journal
      ensures Writes(journal.Load(), disk, core.dirs)
      ensures State() == old(State()).(seen := Seen.Record(old(State()).seen, id, from, now),
                                       ephemeral := Surface(old(ephemeral), id, raw),
                                       trace := old(State()).trace.(surfaced := old(surfaced) + [(id, raw)]))
      ensures Durable() == Delivery.Checkpoint(core, State(), old(Durable()))
    {
      hide QueueOk, Writes, Seen.Record, Surface, Delivery.Checkpoint;
      Hold(id, raw);
      Remember(id, from);
    }

    /** File a message: to the inbox, remembered, metered, acked. */
    method FileMote(from: Ik, id: ContentId, p: Payload, size: nat)
      requires QueueOk(core, outbound, submitted) && Writes(journal.Load(), disk, core.dirs)
      modifies this`inbox, this`checkpointDirty, this`disk, seen, meter, transport, journal
      ensures Writes(journal.Load(), disk, core.dirs)
      ensures State() == Delivery.SendAck(
                old(State()).(seen := Seen.Record(old(State()).seen, id, from, now), inbox := old(inbox) + [p],
                              trace := old(State()).trace.(metered := old(meter.stored) + [size])), from, id)
      ensures Durable() == Delivery.Checkpoint(core, State(), old(Durable()))
    {
      hide QueueOk, Writes, Seen.Record, Delivery.Checkpoint;
      inbox := inbox + [p];
      Remember(id, from);
      ghost var remembered := State();
      meter.Record(size);
      var _ := SendAck(from, id);
      CheckpointSame(core, remembered, State(), old(Durable()));
    }

    /** Remember the now revealed sender identity. */
    method Pin(sender: Ik, ghost a: Acceptance)
      modifies this`contacts, this`suiteContacts, this`accepted
      ensures State() == old(State()).(contacts := old(contacts) + {sender}, ranked := old(suiteContacts) + {sender},
                                       trace := old(State()).trace.(accepted := old(accepted) + [a]))
    {
      contacts := contacts + {sender};
      suiteContacts := suiteContacts + {sender};
      accepted := accepted + [a];
    }

    /** File or surface an admitted payload, after the pin check; the quota has allowed its size. */
    method Accept(from: Ik, env: Envelope, p: Payload, size: nat) returns (o: InboundOutcome)
      requires QueueOk(core, outbound, submitted) && Writes(journal.Load(), disk, core.dirs)
      modifies this`contacts, this`suiteContacts, this`ephemeral, this`inbox, this`accepted, this`surfaced,
               this`checkpointDirty, this`disk, seen, meter, transport, journal
      ensures Writes(journal.Load(), disk, core.dirs)
      ensures (State(), o) == AcceptMote(core, old(State()), from, env, p, size)
      ensures Durable()
           == if AcceptedOutcome(o) then Delivery.Checkpoint(core, State(), old(Durable())) else old(Durable())
    {
      hide QueueOk, Writes, Seen.Record, Surface, Delivery.Checkpoint, Delivery.SendAck;
      if from in contacts && p.from != from {
        return Dropped(BadPayloadSig);
      }
      Pin(p.from, Acceptance(env.id, env.ciphertext, size, p.from, env.suite, !p.sensitive, p));
      if p.sensitive {
        SurfaceMote(from, env.id, core.render(p));
        o := EphemeralDelivered(env.id);
      } else {
        FileMote(from, env.id, p, size);
        o := Stored(env.id);
      }
    }

    method SendAck(to: Ik, id: ContentId) returns (ok: bool)
      modifies transport
      ensures State() == Delivery.SendAck(old(State()), to, id) && Durable() == old(Durable())
    {
      ok := transport.Send(Packet(to, AckFrame(id), Receipt), _ => true);
    }

    /** Hold a routing-only stub in the requests area. */
    method Postpone(from: Ik, id: ContentId) returns (o: InboundOutcome)
      modifies this`requests
      ensures (State(), o) == Defer(old(State()), from, id) && o == Deferred(id)
    {
      requests := requests + [from];
      o := Deferred(id);
    }

    method Ratchet(contact: Ik, suite: nat)
      modifies this`suiteRatchet
      ensures State() == old(State()).(marks := Observe(old(suiteRatchet), contact, suite))
    {
      var mark := if contact in suiteRatchet then Max(suiteRatchet[contact], suite) else suite;
      suiteRatchet := suiteRatchet[contact := mark];
    }

    method Grant(size: nat)
      modifies this`granted
      ensures State() == old(State()).(trace := old(State()).trace.(granted := old(granted) + [size]))
    {
      granted := granted + [size];
    }

    /** Accept a payload the quota has allowed. */
    method AcceptGranted(from: Ik, env: Envelope, p: Payload, size: nat) returns (o: InboundOutcome)
      requires QueueOk(core, outbound, submitted) && Writes(journal.Load(), disk, core.dirs)
      modifies this`contacts, this`suiteContacts, this`ephemeral, this`inbox, this`accepted, this`surfaced,
               this`granted, this`checkpointDirty, this`disk, seen, meter, transport, journal
      ensures Writes(journal.Load(), disk, core.dirs)
      ensures var l := old(State());
              (State(), o)
              == AcceptMote(core, l.(trace := l.trace.(granted := l.trace.granted + [size])), from, env, p, size)
      ensures Durable()
           == if AcceptedOutcome(o) then Delivery.Checkpoint(core, State(), old(Durable())) else old(Durable())
    {
      hide QueueOk, Writes, AcceptMote, Delivery.Checkpoint;
      Grant(size);
      o := Accept(from, env, p, size);
    }

    /** Suite floor, quota, acceptance. */
    method TakeIn(from: Ik, env: Envelope, p: Payload, size: nat, quota: Quota) returns (o: InboundOutcome)
      requires QueueOk(core, outbound, submitted) && Writes(journal.Load(), disk, core.dirs)
      modifies this`contacts, this`suiteContacts, this`ephemeral, this`inbox, this`accepted, this`surfaced,
               this`requests, this`suiteRatchet, this`granted,
               this`checkpointDirty, this`disk, seen, meter, transport, journal
      ensures Writes(journal.Load(), disk, core.dirs)
      ensures (State(), o) == Authenticated(core, old(State()), from, env, p, size, quota)
      ensures Durable()
           == if AcceptedOutcome(o) then Delivery.Checkpoint(core, State(), old(Durable())) else old(Durable())
    {
      hide QueueOk, Writes, AcceptMote, Delivery.Checkpoint, Observe, Defer;
      if p.from in suiteRatchet && env.suite < suiteRatchet[p.from] {
        o := Postpone(from, env.id);
        return;
      }
      Ratchet(p.from, env.suite);
      match quota {
        case Deny(reason) => o := StorageDenied(env.id, reason);
        case Allow => o := AcceptGranted(from, env, p, size);
      }
    }

    method ReceiveMote(from: Ik, bytes: Bytes, v: Verdict, ghost outside: Outside) returns (o: InboundOutcome)
      requires Valid()
      modifies this`contacts, this`suiteContacts, this`ephemeral, this`inbox, this`accepted, this`surfaced,
               this`requests, this`suiteRatchet, this`granted,
               this`checkpointDirty, this`disk, seen, meter, transport, journal
      ensures Valid()
      ensures o == Delivery.ReceiveMote(core, old(State()), from, bytes, v).1
      ensures Value() == Perform(core, old(Value()), Do(Arrive(from, MoteFrame(bytes), v), outside))
    {
      hide NodeOk, QueueOk, Writes, Delivery.ReceiveMote, Delivery.Checkpoint, Lawful;
      PerformKeeps(core, Value(), Do(Arrive(from, MoteFrame(bytes), v), outside));
      QueueOfNode(core, Value());
      o := Process(from, bytes, v);
    }

    method Process(from: Ik, bytes: Bytes, v: Verdict) returns (o: InboundOutcome)
      requires QueueOk(core, outbound, submitted) && Writes(journal.Load(), disk, core.dirs)
      modifies this`contacts, this`suiteContacts, this`ephemeral, this`inbox, this`accepted, this`surfaced,
               this`requests, this`suiteRatchet, this`granted,
               this`checkpointDirty, this`disk, seen, meter, transport, journal
      ensures Writes(journal.Load(), disk, core.dirs)
      ensures (State(), o) == Delivery.ReceiveMote(core, old(State()), from, bytes, v)
      ensures Durable()
           == if AcceptedOutcome(o) then Delivery.Checkpoint(core, State(), old(Durable())) else old(Durable())
    {
      hide QueueOk, Writes, Delivery.Validate, Delivery.Checkpoint, Delivery.SendAck, Seen.Contains;
      var decoded := core.decode(bytes);
      if decoded.None? {
        return Dropped(MalformedMote);
      }
      var env := decoded.value;
      var held := seen.Contains(env.id, now);
      if env.Verified() && held {
        var _ := SendAck(from, env.id);
        return Duplicate(env.id);
      }
      o := Validate(from, env, |bytes|, v);
    }

    method Validate(from: Ik, env: Envelope, size: nat, v: Verdict) returns (o: InboundOutcome)
      requires QueueOk(core, outbound, submitted) && Writes(journal.Load(), disk, core.dirs)
      modifies this`contacts, this`suiteContacts, this`ephemeral, this`inbox, this`accepted, this`surfaced,
               this`requests, this`suiteRatchet, this`granted,
               this`checkpointDirty, this`disk, seen, meter, transport, journal
      ensures Writes(journal.Load(), disk, core.dirs)
      ensures (State(), o) == Delivery.Validate(core, old(State()), from, env, size, v)
      ensures Durable()
           == if AcceptedOutcome(o) then Delivery.Checkpoint(core, State(), old(Durable())) else old(Durable())
    {
      hide QueueOk, Writes, Authenticated, Delivery.Checkpoint, Defer;
      var known := from in contacts;
      if !known && env.hasPow && v.overBudget {
        o := Postpone(from, env.id);
        return;
      }
      match core.check(env, ik, known) {
        case Rejected(reason) => o := Dropped(reason);
        case ColdDeferred => o := Postpone(from, env.id);
        case Accepted(p) => o := TakeIn(from, env, p, size, v.quota);
      }
    }

    /** Buffer a group message for decryption, unless the buffer is full. */
    method Buffer(from: Ik, g: Bytes, body: Bytes, ghost v: Verdict, ghost outside: Outside)
      requires Valid()
      modifies this`groupInbox
      ensures Valid()
      ensures Value() == Perform(core, old(Value()), Do(Arrive(from, GroupFrame(g, body), v), outside))
    {
      hide NodeOk, Writes, Lawful;
      PerformKeeps(core, Value(), Do(Arrive(from, GroupFrame(g, body), v), outside));
      if |groupInbox| < MAX_GROUP_INBOX {
        groupInbox := groupInbox + [(g, body)];
      }
    }

    /** Process everything the transport drained, in one batch. */
    method Poll(frames: seq<Inbound>, ghost outside: Outside) returns (outcomes: seq<InboundOutcome>)
      requires Valid()
      modifies this, seen, meter, transport, journal
      ensures Valid() && admission == old(admission)
      ensures Value() == Run(core, old(Value()), Batch(Arrivals(frames, outside)))
      ensures outcomes == Outcomes(core, Perform(core, old(Value()), BeginPoll), frames, outside)
    {
      hide NodeOk, Writes, Lawful, Run, Outcomes, Perform, Delivery.ReceiveMote, QueueOk;
      ghost var begun := Begin();
      outcomes := [];
      NoArrivals(core, begun, outside);
      for i := 0 to |frames|
        invariant Valid() && admission == old(admission)
        invariant Value() == Run(core, begun, Arrivals(frames[..i], outside))
        invariant outcomes == Outcomes(core, begun, frames[..i], outside)
      {
        MoreArrivals(core, begun, frames, i, outside);
        var f := frames[i];
        match f.frame {
          case MoteFrame(bytes) =>
            var o := ReceiveMote(f.from, bytes, f.verdict, outside);
            outcomes := outcomes + [o];
          case AckFrame(id) => ReceiveAck(f.from, id, f.verdict, outside);
          case GroupFrame(g, body) => Buffer(f.from, g, body, f.verdict, outside);
        }
      }
      assert frames[..|frames|] == frames;
      End();
      RunBatch(core, old(Value()), Arrivals(frames, outside));
    }

    method Begin() returns (ghost begun: Node)
      requires Valid()
      modifies this`checkpointDeferred, this`checkpointDirty
      ensures Valid() && begun == Value() == Perform(core, old(Value()), BeginPoll)
    {
      hide NodeOk, Writes, Lawful;
      PerformKeeps(core, Value(), BeginPoll);
      checkpointDeferred := true;
      checkpointDirty := false;
      begun := Value();
    }

    /** One save for the whole batch, if anything asked for one. */
    method End()
      requires Valid()
      modifies this`checkpointDeferred, this`checkpointDirty, this`disk, journal
      ensures Valid() && Value() == Perform(core, old(Value()), EndPoll)
    {
      hide NodeOk, Writes, Lawful, Snapshot, QueueOk;
      PerformKeeps(core, Value(), EndPoll);
      QueueOfNode(core, Value());
      checkpointDeferred := false;
      if checkpointDirty {
        Checkpoint();
      }
    }

    // --- sending -------------------------------------------------------------------------------------------

    /** The wire form of an entry: a fresh onion if it is private and keeps its path, its sealed bytes otherwise. */
    method BuildFrame(e: Entry, seed: Onion.Digest) returns (after: Entry, p: Packet)
      requires e.sealed.Some?
      ensures (after, p) == WireFrame(core, e, seed)
    {
      hide Onion.Wrap, Onion.ToBytes;
      var bytes := core.encode(e.sealed.value);
      after, p := e, Packet(e.to, MoteFrame(bytes), Attempt(e.id, None));
      if e.tier.Private? && e.mixPath.Some? {
        var w := OnionWrapper.WrapOnion(core.hash, bytes, e.mixPath.value, seed);
        if w.Ok? {
          OnionLossless.WrapFailsClosed(core.hash, bytes, e.mixPath.value, seed);
          after := e.(lastOnion := Some(w.value));
          p := Packet(e.mixPath.value.hops[0].nodeIk, MoteFrame(Onion.ToBytes(w.value)), Attempt(e.id, e.mixPath));
        }
      }
    }

    method DispatchEntry(e: Entry, outside: Outside) returns (after: Entry)
      requires e.sealed.Some? && e.state.Sealed?
      modifies transport
      ensures after == Dispatch(core, e, outside).0
      ensures transport.sent == old(transport.sent) + multiset{Dispatch(core, e, outside).1}
    {
      hide WireFrame;
      WireFrameKeeps(core, e, outside.seed(e.id));
      var p;
      after, p := BuildFrame(e, outside.seed(e.id));
      var ok := transport.Send(p, outside.up);
      after := Apply(after, DispatchOk).value;
      if !ok {
        after := Apply(after, TierUnreachable).value;
      }
    }

    /** Seal, dispatch and queue. */
    method TrackEntry(env: Envelope, to: Ik, expires: Option<nat>, route: Option<Onion.MixPath>, outside: Outside)
      modifies this`outbound, this`submitted, transport
      ensures State() == Track(core, old(State()), env, to, expires, route, outside)
    {
      hide Dispatch;
      var e := Outbound.Enqueue(env.id, to, now, expires);
      e := e.(tier := if route.Some? then Private else Fast, mixPath := route);
      e := Apply(e, SealOk).value.(sealed := Some(env));
      var after := DispatchEntry(e, outside);
      outbound := outbound[env.id := after];
      submitted := submitted + {env};
    }

    /** Track a message and make that durable before returning. */
    method Enqueue(env: Envelope, to: Ik, expires: Option<nat>, route: Option<Onion.MixPath>, outside: Outside,
                   ghost op: Op)
      requires Valid() && op.Do? && op.outside == outside
      requires Effect(core, State(), op.action, outside)
            == (Track(core, State(), env, to, expires, route, outside), true)
      modifies this`outbound, this`submitted, this`checkpointDirty, this`disk, transport, journal
      ensures Valid() && Value() == Perform(core, old(Value()), op)
    {
      hide NodeOk, QueueOk, Writes, Lawful, Delivery.Checkpoint, Effect, Track;
      PerformKeeps(core, Value(), op);
      KeepsQueue(core, Value(), op);
      TrackEntry(env, to, expires, route, outside);
      Checkpoint();
    }

    method DispatchSealed(to: Ik, env: Envelope, outside: Outside) returns (id: ContentId)
      requires Valid()
      modifies this`outbound, this`submitted, this`checkpointDirty, this`disk, transport, journal
      ensures Valid() && Value() == Perform(core, old(Value()), Do(Action.DispatchSealed(to, env), outside))
      ensures id == env.id
    {
      hide NodeOk, Writes, Lawful, Track, Perform;
      Enqueue(env, to, None, None, outside, Do(Action.DispatchSealed(to, env), outside));
      id := env.id;
    }

    /** `env` is what the sealing crate makes of the draft once the recipient's key is known. */
    method Send(to: Ik, env: Envelope, expires: Option<nat>, route: Option<Onion.MixPath>, probe: Onion.Digest,
                outside: Outside)
      returns (r: Result<ContentId, SendError>)
      requires Valid()
      modifies this`outbound, this`submitted, this`checkpointDirty, this`disk, transport, journal
      ensures Valid()
      ensures Value() == Perform(core, old(Value()), Do(Action.Send(to, env, expires, route, probe), outside))
      ensures var refusal := SendRefusal(core, old(State()), env, to, route, probe);
              r == if refusal.Some? then Err(refusal.value) else Ok(env.id)
    {
      hide NodeOk, Writes, Lawful, Track, Delivery.Checkpoint, Onion.Wrap;
      ghost var op := Do(Action.Send(to, env, expires, route, probe), outside);
      if to !in directory {
        return Err(Unresolved);
      }
      if route.Some? {
        var w := OnionWrapper.WrapOnion(core.hash, core.encode(env), route.value, probe);
        if w.Err? {
          return Err(OnionRefused(w.error));
        }
      }
      Enqueue(env, to, expires, route, outside, op);
      r := Ok(env.id);
    }

    /** Take one waiting entry out of the queue, fire its timer, send it again and put it back. */
    method RetryOne(id: ContentId, outside: Outside) returns (sent: bool)
      requires id in outbound && outbound[id].state.Retry?
      modifies this`outbound, transport
      ensures outbound == old(outbound)[id := RetryEntry(core, old(outbound)[id], outside).0]
      ensures transport.sent == old(transport.sent) + multiset(RetryEntry(core, old(outbound)[id], outside).1)
      ensures sent == Redispatched(core, old(outbound)[id], outside)
    {
      hide WireFrame;
      var entry := outbound[id];
      if entry.sealed.None? {
        assert outbound[id := entry] == outbound;
        return false;
      }
      outbound := outbound - {id};
      entry := Apply(entry, RetryTimerFires).value;
      WireFrameKeeps(core, entry, outside.seed(entry.id));
      var p;
      entry, p := BuildFrame(entry, outside.seed(entry.id));
      sent := transport.Send(p, outside.up);
      if !sent {
        entry := Apply(entry, TierUnreachable).value;
      }
      outbound := outbound[id := entry];
    }

    method RetryAll(outside: Outside) returns (count: nat)
      requires forall id :: id in outbound ==> outbound[id].id == id
      modifies this`outbound, transport
      ensures outbound == RetriedQueue(core, old(outbound), outside)
      ensures transport.sent == old(transport.sent) + multiset(RetrySent(core, old(outbound), outside))
      ensures count == |RedispatchedIds(core, old(outbound), outside)|
    {
      hide RetryEntry, Redispatched, RetrySent, RedispatchedIds;
      ghost var all, sentBefore := outbound, transport.sent;
      var todo := set id | id in outbound && outbound[id].state.Retry?;
      count := 0;
      NothingWaiting(core, all, todo, outside);
      while todo != {}
        invariant todo <= all.Keys == outbound.Keys
        invariant forall id :: id in todo ==> outbound[id] == all[id] && all[id].state.Retry?
        invariant forall id :: id in all && id !in todo ==> outbound[id] == RetryEntry(core, all[id], outside).0
        invariant transport.sent == sentBefore + multiset(RetrySent(core, all - todo, outside))
        invariant count == |RedispatchedIds(core, all - todo, outside)|
        decreases todo
      {
        var id :| id in todo;
        MoreRetried(core, all, todo, id, outside);
        var sent := RetryOne(id, outside);
        if sent {
          count := count + 1;
        }
        todo := todo - {id};
      }
      assert all - {} == all;
    }

    method RetryPending(outside: Outside) returns (redispatched: nat)
      requires Valid()
      modifies this`outbound, this`checkpointDirty, this`disk, transport, journal
      ensures Valid() && Value() == Perform(core, old(Value()), Do(Action.Retry, outside))
      ensures redispatched == |RedispatchedIds(core, old(outbound), outside)|
    {
      hide NodeOk, QueueOk, Writes, Lawful, Delivery.Checkpoint, RetriedQueue, RetrySent, RedispatchedIds;
      PerformKeeps(core, Value(), Do(Action.Retry, outside));
      KeepsQueue(core, Value(), Do(Action.Retry, outside));
      QueueKeys(core, outbound, submitted);
      redispatched := RetryAll(outside);
      Checkpoint();
    }

    // --- deadlines -----------------------------------------------------------------------------------------

    method ExpireOverdue() returns (expired: set<ContentId>)
      modifies this`outbound
      ensures outbound == map id | id in old(outbound) :: ExpireEntry(old(outbound)[id], now)
      ensures expired == set id | id in old(outbound) && old(outbound)[id].DeadlinePassed(now)
    {
      ghost var all := outbound;
      var todo := outbound.Keys;
      expired := {};
      while todo != {}
        invariant todo <= all.Keys == outbound.Keys
        invariant forall id :: id in all ==> outbound[id] == if id in todo then all[id] else ExpireEntry(all[id], now)
        invariant expired == set id | id in all && id !in todo && all[id].DeadlinePassed(now)
        decreases todo
      {
        var id :| id in todo;
        var entry := outbound[id];
        if entry.DeadlinePassed(now) {
          outbound := outbound[id := Apply(entry, DeadlineExceeded).value];
          expired := expired + {id};
        }
        todo := todo - {id};
      }
    }

    /** Stamp newly terminal entries; drop those whose grace is over. */
    method CollectTerminal() returns (changed: bool)
      modifies this`outbound
      ensures outbound == map id | id in old(outbound) && !Collectable(old(outbound)[id], now)
                :: StampEntry(old(outbound)[id], now)
      ensures changed == (outbound != old(outbound))
    {
      ghost var all := outbound;
      var todo := outbound.Keys;
      var remove: set<ContentId> := {};
      changed := false;
      while todo != {}
        invariant todo <= all.Keys == outbound.Keys
        invariant forall id :: id in all ==> outbound[id] == if id in todo then all[id] else StampEntry(all[id], now)
        invariant remove == set id | id in all && id !in todo && Collectable(all[id], now)
        invariant changed == exists id :: id in all && id !in todo && StampEntry(all[id], now) != all[id]
        decreases todo
      {
        var id :| id in todo;
        var entry := outbound[id];
        if entry.state.Terminal() {
          match entry.terminalAt {
            case None =>
              outbound := outbound[id := entry.(terminalAt := Some(now))];
              changed := true;
            case Some(since) =>
              if SaturatingSub(now, since) >= TERMINAL_GRACE_MS {
                remove := remove + {id};
              }
          }
        }
        todo := todo - {id};
      }
      ghost var stamped := outbound;
      outbound := outbound - remove;
      changed := changed || remove != {};
      StampedChange(all, outbound, remove, now);
    }

    method TickQueue() returns (expired: set<ContentId>, changed: bool)
      modifies this`outbound
      ensures outbound == TickOutbound(old(outbound), now) && changed == (outbound != old(outbound))
      ensures expired == set id | id in old(outbound) && old(outbound)[id].DeadlinePassed(now)
    {
      hide ExpireEntry, StampEntry, Collectable;
      ghost var before := outbound;
      expired := ExpireOverdue();
      ghost var between := outbound;
      var gc := CollectTerminal();
      assert outbound == TickOutbound(before, now);
      TickChanges(before, between, expired, now);
      changed := expired != {} || gc;
    }

    method TickDeadlines(ghost outside: Outside) returns (expired: set<ContentId>)
      requires Valid()
      modifies this`outbound, this`checkpointDirty, this`disk, journal
      ensures Valid() && Value() == Perform(core, old(Value()), Do(Tick, outside))
      ensures expired == set id | id in old(outbound) && old(outbound)[id].DeadlinePassed(now)
    {
      hide NodeOk, QueueOk, Writes, Lawful, Delivery.Checkpoint, TickOutbound;
      PerformKeeps(core, Value(), Do(Tick, outside));
      KeepsQueue(core, Value(), Do(Tick, outside));
      var changed;
      expired, changed := TickQueue();
      if changed {
        Checkpoint();
      }
    }

    // --- the rest ------------------------------------------------------------------------------------------

    method SetNow(t: nat, ghost outside: Outside)
      requires Valid()
      modifies this`now
      ensures Valid() && Value() == Perform(core, old(Value()), Do(Action.SetNow(t), outside))
    {
      hide NodeOk, Writes, Lawful;
      PerformKeeps(core, Value(), Do(Action.SetNow(t), outside));
      now := t;
    }

    method AddContact(peer: Ik, ghost outside: Outside)
      requires Valid()
      modifies this`contacts, this`directory
      ensures Valid() && Value() == Perform(core, old(Value()), Do(Action.AddContact(peer), outside))
    {
      hide NodeOk, Writes, Lawful;
      PerformKeeps(core, Value(), Do(Action.AddContact(peer), outside));
      contacts := contacts + {peer};
      directory := directory + {peer};
    }

    method LearnKey(peer: Ik, ghost outside: Outside)
      requires Valid()
      modifies this`directory
      ensures Valid() && Value() == Perform(core, old(Value()), Do(Action.LearnKey(peer), outside))
    {
      hide NodeOk, Writes, Lawful;
      PerformKeeps(core, Value(), Do(Action.LearnKey(peer), outside));
      directory := directory + {peer};
    }

    /** Hand out and forget what was surfaced since the last call. */
    method TakeEphemeral(ghost outside: Outside) returns (held: seq<(ContentId, Bytes)>)
      requires Valid()
      modifies this`ephemeral, this`surfaced
      ensures Valid() && Value() == Perform(core, old(Value()), Do(Action.TakeEphemeral, outside))
      ensures held == old(ephemeral)
    {
      hide NodeOk, Writes, Lawful;
      PerformKeeps(core, Value(), Do(Action.TakeEphemeral, outside));
      held := ephemeral;
      ephemeral, surfaced := [], [];
    }

    /** Ratchet the mark of a contact kept track of from now on. */
    method RaiseFloor(contact: Ik, suite: nat)
      modifies this`suiteRatchet, this`suiteContacts
      ensures State() == old(State()).(marks := Observe(old(suiteRatchet), contact, suite),
                                       ranked := old(suiteContacts) + {contact})
    {
      hide Observe;
      Ratchet(contact, suite);
      suiteContacts := suiteContacts + {contact};
    }

    method PinSuiteFloor(contact: Ik, suite: nat, ghost outside: Outside)
      requires Valid() && suite in core.suites
      modifies this`suiteRatchet, this`suiteContacts, this`checkpointDirty, this`disk, journal
      ensures Valid() && Value() == Perform(core, old(Value()), Do(Action.PinSuiteFloor(contact, suite), outside))
    {
      hide NodeOk, QueueOk, Writes, Lawful, Delivery.Checkpoint, Observe;
      PerformKeeps(core, Value(), Do(Action.PinSuiteFloor(contact, suite), outside));
      QueueOfNode(core, Value());
      RaiseFloor(contact, suite);
      Checkpoint();
    }

    method IngestMixDirectory(bytes: Bytes, ghost outside: Outside) returns (r: Option<MixDirError>)
      requires Valid()
      modifies this`checkpointDirty, this`disk, mixDirectory, journal
      ensures Valid() && Value() == Perform(core, old(Value()), Do(Action.IngestMixDirectory(bytes), outside))
      ensures r.None? <==>
                core.dirs.decode(bytes).Some? && Refusal(old(mixDirectory.latest), core.dirs.decode(bytes).value).None?
    {
      hide NodeOk, QueueOk, Writes, Lawful, Delivery.Checkpoint, Refusal, MixDirectory.Accepted;
      PerformKeeps(core, Value(), Do(Action.IngestMixDirectory(bytes), outside));
      QueueOfNode(core, Value());
      r := mixDirectory.Ingest(bytes, core.dirs);
      if r.None? {
        Checkpoint();
      }
    }

    /** A throttled or failed init is not made durable, an accepted one is. */
    method DeniableAccept(root: Ik, bound: bool, opens: bool, ghost outside: Outside) returns (accepted: bool)
      requires Valid()
      modifies this`checkpointDirty, this`disk, admission, admission.global, journal
      ensures Valid() && admission == old(admission) && admission.global == old(admission.global)
      ensures Value() == Perform(core, old(Value()), Do(Action.DeniableAccept(root, bound, opens), outside))
      ensures accepted == (bound && RateGate.Admits(old(State()).gate, root, now) && opens)
    {
      hide NodeOk, QueueOk, Writes, Lawful, Delivery.Checkpoint, RateGate.Admit, RateGate.Admits;
      PerformKeeps(core, Value(), Do(Action.DeniableAccept(root, bound, opens), outside));
      QueueOfNode(core, Value());
      if !bound {
        return false;
      }
      var admitted := admission.Admit(root, now);
      accepted := admitted && opens;
      if accepted {
        Checkpoint();
      }
    }

    method ConfigureGate(limits: RateGate.Limits, ghost outside: Outside)
      requires Valid()
      modifies this`admission, this`checkpointDirty, this`disk, journal
      ensures Valid() && fresh(admission) && fresh(admission.global)
      ensures Value() == Perform(core, old(Value()), Do(Action.ConfigureGate(limits), outside))
    {
      hide NodeOk, QueueOk, Writes, Lawful, Delivery.Checkpoint, RateGate.NewGate;
      PerformKeeps(core, Value(), Do(Action.ConfigureGate(limits), outside));
      QueueOfNode(core, Value());
      admission := new Admission.DeniableAdmission(limits, now);
      Checkpoint();
    }

    // --- restart -------------------------------------------------------------------------------------------

    method LoadQueue(es: seq<PersistedEntry>) returns (ok: bool)
      requires outbound == map[]
      modifies this`outbound
      ensures ok == Entries(core, es).Ok?
      ensures ok ==> State() == old(State()).(outbound := Entries(core, es).value)
    {
      hide IntoEntry;
      for i := 0 to |es|
        invariant Entries(core, es[..i]) == Ok(outbound)
      {
        assert es[..i + 1][..i] == es[..i];
        var r := IntoEntry(core, es[i]);
        if r.Err? {
          RefusedPrefix(core, es, i + 1);
          return false;
        }
        outbound := outbound[r.value.id := r.value];
      }
      assert es[..|es|] == es;
      ok := true;
    }

    method LoadFloors(ms: seq<(Ik, nat)>) returns (ok: bool)
      requires suiteRatchet == map[] && suiteContacts == {}
      modifies this`suiteRatchet, this`suiteContacts
      ensures ok == AllKnown(core, ms)
      ensures ok ==> suiteRatchet == ObserveAll(ms) && suiteContacts == ObserveAll(ms).Keys
    {
      for i := 0 to |ms|
        invariant suiteRatchet == ObserveAll(ms[..i]) && suiteContacts == suiteRatchet.Keys && AllKnown(core, ms[..i])
      {
        assert ms[..i + 1][..i] == ms[..i];
        var (contact, suite) := ms[i];
        if suite !in core.suites {
          return false;
        }
        RaiseFloor(contact, suite);
      }
      assert ms[..|ms|] == ms;
      ok := true;
    }

    method LoadMarks(ms: seq<(Ik, nat)>) returns (ok: bool)
      requires suiteRatchet == map[] && suiteContacts == {}
      modifies this`suiteRatchet, this`suiteContacts
      ensures ok == AllKnown(core, ms)
      ensures ok ==> State() == old(State()).(marks := ObserveAll(ms), ranked := ObserveAll(ms).Keys)
    {
      hide ObserveAll, AllKnown;
      ok := LoadFloors(ms);
    }

    method LoadDirectories(files: seq<Bytes>) returns (ok: bool)
      requires mixDirectory.latest == map[]
      modifies mixDirectory
      ensures ok == Reingest(files, core.dirs).Ok?
      ensures ok ==> State() == old(State()).(mix := Reingest(files, core.dirs).value)
    {
      hide Refusal, MixDirectory.Accepted;
      for i := 0 to |files|
        invariant Reingest(files[..i], core.dirs) == Ok(mixDirectory.latest)
      {
        assert files[..i + 1][..i] == files[..i];
        var r := mixDirectory.Ingest(files[i], core.dirs);
        if r.Some? {
          RefusedDirectories(core.dirs, files, i + 1);
          return false;
        }
      }
      assert files[..|files|] == files;
      ok := true;
    }

    method LoadSeen(pairs: seq<(ContentId, Ik)>)
      modifies seen
      ensures State() == old(State()).(seen := Seen.RecordAll(old(State()).seen, pairs, now))
    {
      hide Seen.RecordAll;
      seen.Restore(pairs, now);
    }

    /** An older journal has no gate: the fresh one stays. */
    method LoadGate(snap: Option<Admission.GateSnapshot>)
      modifies this`admission
      ensures State() == old(State()).(gate := if snap.Some? then GateIn(snap).value else old(State()).gate)
      ensures admission == old(admission) || (fresh(admission) && fresh(admission.global))
    {
      if snap.Some? {
        admission := new Admission.DeniableAdmission.Restore(snap.value);
      }
    }

    /** Read a file into a bare node; stop at the first corrupt part. */
    method Resume(f: File) returns (ok: bool)
      requires outbound == map[] && suiteRatchet == map[] && suiteContacts == {} && mixDirectory.latest == map[]
      modifies this, seen, mixDirectory
      ensures ok == (Entries(core, f.outbound).Ok? && AllKnown(core, f.suiteMarks)
                     && Reingest(f.mixDirectories, core.dirs).Ok?)
      ensures ok ==> State() == old(State()).(
                outbound := Entries(core, f.outbound).value, seen := Seen.RecordAll(old(State()).seen, f.seen, now),
                marks := ObserveAll(f.suiteMarks), ranked := ObserveAll(f.suiteMarks).Keys,
                mix := Reingest(f.mixDirectories, core.dirs).value,
                gate := if f.admission.Some? then GateIn(f.admission).value else old(State()).gate)
      ensures Durable() == old(Durable())
      ensures admission == old(admission) || (fresh(admission) && fresh(admission.global))
    {
      hide Entries, Reingest, ObserveAll, AllKnown, Seen.RecordAll, GateIn;
      ok := LoadQueue(f.outbound);
      if !ok {
        return;
      }
      LoadSeen(f.seen);
      ok := LoadMarks(f.suiteMarks);
      if !ok {
        return;
      }
      ok := LoadDirectories(f.mixDirectories);
      LoadGate(f.admission);
    }

    /** Take back the state of a journal; refuse it whole if any part is corrupt. */
    static method WithJournal(core: Core, ik: Ik, transport: Transport, meter: UsageMeter, journal: MemoryJournal,
                              ghost disk: Disk, ghost past: Trace)
      returns (node: NodeEngine?)
      requires Lawful(core) && Writes(journal.Load(), disk, core.dirs) && DiskOk(core, disk, past.submitted)
      requires past.sent == transport.sent && past.metered == meter.stored
      ensures node == null <==> !Restorable(core, disk)
      ensures node != null ==>
                && fresh(node) && node.core == core
                && node.transport == transport && node.meter == meter && node.journal == journal
                && node.Valid()
                && node.State() == Restored(core, ik, past, disk)
                && node.Durable() == Journal(false, false, disk, !journal.failing, journal.saves)
    {
      hide Lawful, DiskOk, Writes, Restorable, Restored, NodeOk, LiveOk, RateGate.NewGate, Entries, Reingest,
           ObserveAll, AllKnown, GateIn, Seen.RecordAll;
      var f := journal.Load();
      var n := new NodeEngine.Bare(core, ik, transport, meter, journal, disk, past.(surfaced := []));
      FileParts(core, f, disk, past.submitted);
      FileRestores(core, f, ik, past, disk);
      var ok := n.Resume(f);
      if !ok {
        return null;
      }
      RestoredOk(core, ik, past, disk);
      RestoredTrace(core, ik, past, disk);
      NodeFromParts(core, n.State(), n.Durable());
      node := n;
    }

    /** On first boot there is nothing to take back: the node is where every run starts. */
    static method FirstBoot(core: Core, ik: Ik, transport: Transport, meter: UsageMeter, journal: MemoryJournal)
      returns (node: NodeEngine)
      requires Lawful(core) && journal.file.None? && transport.sent == multiset{} && meter.stored == []
      ensures fresh(node) && node.core == core
      ensures node.transport == transport && node.meter == meter && node.journal == journal
      ensures node.Valid() && node.State() == First(ik).live
      ensures node.Durable() == First(ik).journal.(healthy := !journal.failing, saves := journal.saves)
    {
      hide Lawful, DiskOk, Writes, Restorable, Restored, NodeOk, LiveOk, RateGate.NewGate;
      EmptyWrites(core.dirs);
      EmptyRestores(core, ik);
      var n := WithJournal(core, ik, transport, meter, journal, EmptyDisk(), EmptyTrace());
      node := n;
    }
  }

  lemma EmptyRestores(core: Core, ik: Ik)
    ensures DiskOk(core, EmptyDisk(), EmptyTrace().submitted) && Restorable(core, EmptyDisk())
    ensures Restored(core, ik, EmptyTrace(), EmptyDisk()) == First(ik).live
  {
    hide RateGate.NewGate;
  }

  lemma KeepsQueue(core: Core, n: Node, op: Op)
    requires NodeOk(core, n) && op.Do?
    ensures var m := Effect(core, n.live, op.action, op.outside).0; QueueOk(core, m.outbound, m.trace.submitted)
    ensures QueueOk(core, n.live.outbound, n.live.trace.submitted)
  {
    hide Effect, QueueOk;
    EffectKeepsQueue(core, n.live, op.action, op.outside);
  }

  /** A snapshot reads six parts of the state. */
  lemma SnapshotSame(core: Core, l: Live, m: Live)
    requires l.outbound == m.outbound && l.seen == m.seen && l.ranked == m.ranked && l.marks == m.marks
    requires l.mix == m.mix && l.gate == m.gate
    ensures Snapshot(core, l) == Snapshot(core, m)
  {
    hide Persisted, Seen.Pairs;
    assert RankedMarks(l) == RankedMarks(m);
  }

  lemma CheckpointSame(core: Core, l: Live, m: Live, j: Journal)
    requires l.outbound == m.outbound && l.seen == m.seen && l.ranked == m.ranked && l.marks == m.marks
    requires l.mix == m.mix && l.gate == m.gate
    ensures Delivery.Checkpoint(core, l, j) == Delivery.Checkpoint(core, m, j)
  {
    hide Snapshot;
    SnapshotSame(core, l, m);
  }

  lemma QueueOfNode(core: Core, n: Node)
    requires NodeOk(core, n)
    ensures QueueOk(core, n.live.outbound, n.live.trace.submitted)
  {
  }

  lemma {:induction false} RefusedPrefix(core: Core, es: seq<PersistedEntry>, i: nat)
    requires i <= |es| && Entries(core, es[..i]).Err?
    ensures Entries(core, es).Err?
    decreases |es| - i
  {
    if i == |es| {
      assert es[..i] == es;
    } else {
      assert es[..i + 1][..i] == es[..i];
      RefusedPrefix(core, es, i + 1);
    }
  }

  lemma {:induction false} RefusedDirectories(codec: DirCodec, files: seq<Bytes>, i: nat)
    requires i <= |files| && Reingest(files[..i], codec).Err?
    ensures Reingest(files, codec).Err?
    decreases |files| - i
  {
    if i == |files| {
      assert files[..i] == files;
    } else {
      assert files[..i + 1][..i] == files[..i];
      RefusedDirectories(codec, files, i + 1);
    }
  }

  predicate AllKnown(core: Core, ms: seq<(Ik, nat)>) {
    forall i :: 0 <= i < |ms| ==> ms[i].1 in core.suites
  }

  function ObserveAll(ms: seq<(Ik, nat)>): map<Ik, nat> {
    if ms == [] then map[] else Observe(ObserveAll(ms[..|ms| - 1]), ms[|ms| - 1].0, ms[|ms| - 1].1)
  }

  lemma {:induction false} ObserveDistinct(ms: seq<(Ik, nat)>)
    requires forall i, j :: 0 <= i < j < |ms| ==> ms[i].0 != ms[j].0
    ensures ObserveAll(ms) == Collect(ms)
    ensures forall c :: c in ObserveAll(ms) ==> exists i :: 0 <= i < |ms| && ms[i].0 == c
  {
    if ms != [] {
      var n := |ms| - 1;
      ObserveDistinct(ms[..n]);
      assert ms[n].0 !in ObserveAll(ms[..n]);
      forall c | c in ObserveAll(ms)
        ensures exists i :: 0 <= i < |ms| && ms[i].0 == c
      {
        if c != ms[n].0 {
          var i :| 0 <= i < n && ms[..n][i].0 == c;
          assert ms[i].0 == c;
        }
      }
    }
  }

  /** What reading a file yields, part by part. */
  lemma FileParts(core: Core, f: File, d: Disk, submitted: set<Envelope>)
    requires Lawful(core) && Writes(f, d, core.dirs) && DiskOk(core, d, submitted)
    ensures Entries(core, f.outbound).Ok? <==> forall id :: id in d.outbound ==> IntoEntry(core, d.outbound[id]).Ok?
    ensures Entries(core, f.outbound).Ok? ==>
              && (forall id :: id in d.outbound ==> IntoEntry(core, d.outbound[id]).Ok?)
              && Entries(core, f.outbound).value == map id | id in d.outbound :: IntoEntry(core, d.outbound[id]).value
    ensures f.seen == d.seen && GateIn(f.admission) == d.gate
    ensures ObserveAll(f.suiteMarks) == d.marks
    ensures AllKnown(core, f.suiteMarks) <==> forall c :: c in d.marks ==> d.marks[c] in core.suites
    ensures Reingest(f.mixDirectories, core.dirs) == Ok(d.mix)
  {
    hide IntoEntry, Entries, Reingest, PersistedOk, MarksOk, Collect, Keyed;
    EntriesOfListing(core, f.outbound, d.outbound);
    DirectoriesRead(f.mixDirectories, d.mix, core.dirs);
    MarksRead(core, f.suiteMarks, d.marks);
    hide Lists;
  }

  lemma DirectoriesRead(files: seq<Bytes>, mix: Latest, codec: DirCodec)
    requires Faithful(codec) && LatestOk(mix) && ListsDirectories(files, mix, codec)
    ensures Reingest(files, codec) == Ok(mix)
  {
    hide Lists, Reingest;
    var ps :| Lists(ps, mix) && files == Encoded(ps, codec);
    ReingestRestores(ps, mix, codec);
  }

  lemma MarksRead(core: Core, ms: seq<(Ik, nat)>, marks: map<Ik, nat>)
    requires Lists(ms, marks)
    ensures ObserveAll(ms) == marks
    ensures AllKnown(core, ms) <==> forall c :: c in marks ==> marks[c] in core.suites
  {
    hide ObserveAll, Collect;
    ObserveDistinct(ms);
    CollectOfListing(ms, marks);
    if AllKnown(core, ms) {
      forall c | c in marks
        ensures marks[c] in core.suites
      {
        var i :| 0 <= i < |ms| && ms[i] == (c, marks[c]);
        assert ms[i].1 in core.suites;
      }
    }
  }

  /** A file is readable exactly when its tables are restorable, and reading it restores them. */
  lemma FileRestores(core: Core, f: File, ik: Ik, past: Trace, d: Disk)
    requires Lawful(core) && Writes(f, d, core.dirs) && DiskOk(core, d, past.submitted)
    ensures Restorable(core, d) <==>
              Entries(core, f.outbound).Ok? && AllKnown(core, f.suiteMarks) && Reingest(f.mixDirectories, core.dirs).Ok?
    ensures Restorable(core, d) ==>
              Restored(core, ik, past, d)
              == Delivery.Bare(ik, past.(surfaced := [])).(
                   outbound := Entries(core, f.outbound).value,
                   seen := Seen.RecordAll(Seen.New(), f.seen, BOOT_MS),
                   marks := ObserveAll(f.suiteMarks), ranked := ObserveAll(f.suiteMarks).Keys,
                   mix := Reingest(f.mixDirectories, core.dirs).value,
                   gate := if f.admission.Some? then GateIn(f.admission).value
                           else RateGate.NewGate(RateGate.DEFAULT_LIMITS, BOOT_MS))
  {
    hide Writes, IntoEntry, Entries, Reingest, AllKnown, ObserveAll, Seen.RecordAll, DiskOk, Lawful;
    FileParts(core, f, d, past.submitted);
  }

  lemma NodeFromParts(core: Core, l: Live, j: Journal)
    requires LiveOk(core, l) && DiskOk(core, j.disk, l.trace.submitted)
    ensures NodeOk(core, Node(l, j))
  {
  }

  /** A waiting entry whose retry the transport takes. */
  predicate Redispatched(core: Core, e: Entry, outside: Outside) {
    e.state.Retry? && e.sealed.Some?
    && outside.up(WireFrame(core, Apply(e, RetryTimerFires).value, outside.seed(e.id)).1.to)
  }

  function RedispatchedIds(core: Core, outbound: map<ContentId, Entry>, outside: Outside): set<ContentId> {
    set id | id in outbound && Redispatched(core, outbound[id], outside)
  }

  lemma NothingWaiting(core: Core, all: map<ContentId, Entry>, todo: set<ContentId>, outside: Outside)
    requires todo == set id | id in all && all[id].state.Retry?
    ensures RetrySent(core, all - todo, outside) == {} && RedispatchedIds(core, all - todo, outside) == {}
    ensures forall id :: id in all && id !in todo ==> RetryEntry(core, all[id], outside).0 == all[id]
  {
    hide WireFrame;
  }

  /** One entry fewer to do is one entry more done. */
  lemma OneMoreDone(all: map<ContentId, Entry>, todo: set<ContentId>, id: ContentId)
    requires id in todo && todo <= all.Keys
    ensures id !in all - todo
    ensures all - (todo - {id}) == (all - todo)[id := all[id]]
  {
  }

  lemma SentWithOneMore(core: Core, few: map<ContentId, Entry>, id: ContentId, e: Entry, outside: Outside)
    requires id !in few
    ensures RetrySent(core, few[id := e], outside) == RetrySent(core, few, outside) + RetryEntry(core, e, outside).1
    ensures RedispatchedIds(core, few[id := e], outside)
         == RedispatchedIds(core, few, outside) + (if Redispatched(core, e, outside) then {id} else {})
  {
    hide RetryEntry, Redispatched;
    assert forall x :: x in few ==> few[id := e][x] == few[x];
    assert few[id := e][id] == e;
  }

  /** Attempts for different messages are different packets. */
  lemma SentApart(core: Core, few: map<ContentId, Entry>, e: Entry, outside: Outside)
    requires e.id !in few && forall x :: x in few ==> few[x].id == x
    ensures RetrySent(core, few, outside) !! RetryEntry(core, e, outside).1
  {
    hide RetryEntry;
    AttemptsAreAbout(core, e, outside);
    forall x | x in few {
      AttemptsAreAbout(core, few[x], outside);
    }
  }

  lemma ApartAdds<T>(a: set<T>, b: set<T>)
    requires a !! b
    ensures multiset(a + b) == multiset(a) + multiset(b)
  {
  }

  lemma MoreRetried(core: Core, all: map<ContentId, Entry>, todo: set<ContentId>, id: ContentId, outside: Outside)
    requires id in todo && todo <= all.Keys && forall x :: x in all ==> all[x].id == x
    ensures multiset(RetrySent(core, all - (todo - {id}), outside))
         == multiset(RetrySent(core, all - todo, outside)) + multiset(RetryEntry(core, all[id], outside).1)
    ensures |RedispatchedIds(core, all - (todo - {id}), outside)|
         == |RedispatchedIds(core, all - todo, outside)| + (if Redispatched(core, all[id], outside) then 1 else 0)
  {
    var few := all - todo;
    assert id !in RedispatchedIds(core, few, outside);
    hide *;
    OneMoreDone(all, todo, id);
    SentWithOneMore(core, few, id, all[id], outside);
    SentApart(core, few, all[id], outside);
    ApartAdds(RetrySent(core, few, outside), RetryEntry(core, all[id], outside).1);
  }

  lemma AttemptsAreAbout(core: Core, e: Entry, outside: Outside)
    ensures forall p :: p in RetryEntry(core, e, outside).1 ==> p.purpose.Attempt? && p.purpose.id == e.id
  {
    hide Onion.Wrap, Onion.ToBytes;
  }

  lemma StampedChange(all: map<ContentId, Entry>, after: map<ContentId, Entry>, remove: set<ContentId>, now: nat)
    requires remove == set id | id in all && Collectable(all[id], now)
    requires after.Keys == all.Keys - remove && forall id :: id in after ==> after[id] == StampEntry(all[id], now)
    ensures after == map id | id in all && !Collectable(all[id], now) :: StampEntry(all[id], now)
    ensures (exists id :: id in all && StampEntry(all[id], now) != all[id]) || remove != {} <==> after != all
  {
    if exists id :: id in all && StampEntry(all[id], now) != all[id] {
      var id :| id in all && StampEntry(all[id], now) != all[id];
      assert id in after && after[id] != all[id];
    } else if remove != {} {
      var id :| id in remove;
      assert id in all && id !in after;
    } else {
      assert after.Keys == all.Keys;
    }
  }

  /** A tick changes the queue exactly when something expired or was stamped or collected. */
  lemma TickChanges(before: map<ContentId, Entry>, between: map<ContentId, Entry>, expired: set<ContentId>, now: nat)
    requires between == map id | id in before :: ExpireEntry(before[id], now)
    requires expired == set id | id in before && before[id].DeadlinePassed(now)
    ensures expired != {} || TickOutbound(before, now) != between <==> TickOutbound(before, now) != before
  {
    var after := TickOutbound(before, now);
    if expired != {} {
      var id :| id in expired;
      assert id in after ==> after[id].state != before[id].state;
    } else {
      assert forall id :: id in before ==> id !in expired;
      assert between == before;
    }
  }

  lemma QueueKeys(core: Core, outbound: map<ContentId, Entry>, submitted: set<Envelope>)
    requires QueueOk(core, outbound, submitted)
    ensures forall id :: id in outbound ==> outbound[id].id == id
  {
  }
}
