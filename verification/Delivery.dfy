/**
 * The delivery engine of node/src/node.rs as functions on values.  `NodeEngine` holds the objects and
 * loops of the source and is proved to compute these functions.
 *
 * A node is its live state and its journal.  Every operation is an effect on the live state together
 * with a flag that says whether it asks for a checkpoint; the journal is touched by checkpoints only.
 */
module Delivery {
  import opened Prelude
  import opened Mote
  import opened Outbound
  import opened MixDirectory
  import Onion
  import RateGate
  import Seen

  const MAX_GROUP_INBOX: nat := 1024
  const MAX_EPHEMERAL_HELD: nat := 256

  /** The clock of a node nobody has set the clock of. */
  const BOOT_MS: nat := 1_700_000_000_000

  datatype Frame = MoteFrame(bytes: Bytes) | AckFrame(id: ContentId) | GroupFrame(groupId: Bytes, body: Bytes)

  datatype Purpose = Attempt(id: ContentId, via: Option<Onion.MixPath>) | Receipt

  /** A frame handed to the transport, and what for; one the transport reports as unsent may arrive all the same. */
  datatype Packet = Packet(to: Ik, frame: Frame, purpose: Purpose)

  datatype Quota = Allow | Deny(reason: Bytes)

  /** What the PoW budget and the storage quota answer if the pipeline asks them. */
  datatype Verdict = Verdict(overBudget: bool, quota: Quota)

  datatype InboundOutcome =
    | Stored(id: ContentId)
    | Deferred(id: ContentId)
    | Duplicate(id: ContentId)
    | StorageDenied(id: ContentId, reason: Bytes)
    | EphemeralDelivered(id: ContentId)
    | Dropped(why: DropReason)
  {
    /** Whether the documentation says that the sender is acked. */
    predicate Acked() { Stored? || Duplicate? || EphemeralDelivered? }
  }

  datatype Acceptance = Acceptance(
    id: ContentId, ciphertext: Bytes, size: nat, sender: Ik, suite: nat, stored: bool, payload: Payload)

  /** Everything that left the node or happened to it for good; no operation reads it. */
  datatype Trace = Trace(
    sent: multiset<Packet>,
    submitted: set<Envelope>,
    accepted: seq<Acceptance>,
    granted: seq<nat>,
    metered: seq<nat>,
    surfaced: seq<(ContentId, Bytes)>)

  datatype Live = Live(
    ik: Ik,
    now: nat,
    contacts: set<Ik>,
    directory: set<Ik>,
    outbound: map<ContentId, Entry>,
    seen: Seen.Set,
    ephemeral: seq<(ContentId, Bytes)>,
    inbox: seq<Payload>,
    requests: seq<Ik>,
    marks: map<Ik, nat>,
    ranked: set<Ik>,
    mix: Latest,
    gate: RateGate.Gate,
    groupInbox: seq<(Bytes, Bytes)>,
    trace: Trace)

  /** Reachability of the peers and the fresh seeds drawn during one operation. */
  datatype Outside = Outside(up: Ik -> bool, seed: ContentId -> Onion.Digest)

  // --- sending -----------------------------------------------------------------------------------------

  /** A fresh onion to the entry mix for a private entry whose path is retained, the sealed bytes otherwise. */
  function WireFrame(core: Core, e: Entry, seed: Onion.Digest): (Entry, Packet)
    requires e.sealed.Some?
  {
    var plain := Packet(e.to, MoteFrame(core.encode(e.sealed.value)), Attempt(e.id, None));
    if e.tier.Private? && e.mixPath.Some? then
      match Onion.Wrap(core.hash, core.encode(e.sealed.value), e.mixPath.value, seed)
      case Ok(cells) =>
        (e.(lastOnion := Some(cells)),
         Packet(e.mixPath.value.hops[0].nodeIk, MoteFrame(Onion.ToBytes(cells)), Attempt(e.id, e.mixPath)))
      case Err(_) => (e, plain)
    else (e, plain)
  }

  function Dispatch(core: Core, e: Entry, outside: Outside): (Entry, Packet)
    requires e.sealed.Some? && e.state.Sealed?
  {
    var (w, p) := WireFrame(core, e, outside.seed(e.id));
    var flown := Apply(w, DispatchOk).value;
    (if outside.up(p.to) then flown else Apply(flown, TierUnreachable).value, p)
  }

  function SealedEntry(env: Envelope, to: Ik, now: nat, expires: Option<nat>, route: Option<Onion.MixPath>): Entry {
    var e := Enqueue(env.id, to, now, expires).(tier := if route.Some? then Private else Fast, mixPath := route);
    Apply(e, SealOk).value.(sealed := Some(env))
  }

  /** Seal, dispatch, and take into the queue under the content id. */
  function Track(core: Core, l: Live, env: Envelope, to: Ik, expires: Option<nat>, route: Option<Onion.MixPath>,
                 outside: Outside): Live
  {
    var (e, p) := Dispatch(core, SealedEntry(env, to, l.now, expires, route), outside);
    l.(outbound := l.outbound[env.id := e],
       trace := l.trace.(sent := l.trace.sent + multiset{p}, submitted := l.trace.submitted + {env}))
  }

  datatype SendError = Unresolved | OnionRefused(e: Onion.OnionError)

  /** A send needs the recipient's key; a private one also a path and a size the onion can carry. */
  function SendRefusal(core: Core, l: Live, env: Envelope, to: Ik, route: Option<Onion.MixPath>, probe: Onion.Digest)
    : Option<SendError>
  {
    if to !in l.directory then Some(Unresolved)
    else if route.Some? then
      match Onion.Wrap(core.hash, core.encode(env), route.value, probe)
      case Ok(_) => None
      case Err(e) => Some(OnionRefused(e))
    else None
  }

  /** One entry under the retry timer. */
  function RetryEntry(core: Core, e: Entry, outside: Outside): (Entry, set<Packet>) {
    if !e.state.Retry? || e.sealed.None? then (e, {})
    else
      var (w, p) := WireFrame(core, Apply(e, RetryTimerFires).value, outside.seed(e.id));
      (if outside.up(p.to) then w else Apply(w, TierUnreachable).value, {p})
  }

  function RetryPending(core: Core, l: Live, outside: Outside): Live {
    l.(outbound := RetriedQueue(core, l.outbound, outside),
       trace := l.trace.(sent := l.trace.sent + multiset(RetrySent(core, l.outbound, outside))))
  }

  function RetriedQueue(core: Core, outbound: map<ContentId, Entry>, outside: Outside): map<ContentId, Entry> {
    map id | id in outbound :: RetryEntry(core, outbound[id], outside).0
  }

  function RetrySent(core: Core, outbound: map<ContentId, Entry>, outside: Outside): set<Packet> {
    set id, p | id in outbound && p in RetryEntry(core, outbound[id], outside).1 :: p
  }

  // --- deadlines ---------------------------------------------------------------------------------------

  function ExpireEntry(e: Entry, now: nat): Entry {
    if e.DeadlinePassed(now) then Apply(e, DeadlineExceeded).value else e
  }

  predicate Collectable(e: Entry, now: nat) {
    e.state.Terminal() && e.terminalAt.Some? && SaturatingSub(now, e.terminalAt.value) >= TERMINAL_GRACE_MS
  }

  function StampEntry(e: Entry, now: nat): Entry {
    if e.state.Terminal() && e.terminalAt.None? then e.(terminalAt := Some(now)) else e
  }

  /** Expire, stamp the terminal entries, collect those whose grace is over. */
  function TickOutbound(outbound: map<ContentId, Entry>, now: nat): map<ContentId, Entry> {
    map id | id in outbound && !Collectable(ExpireEntry(outbound[id], now), now)
      :: StampEntry(ExpireEntry(outbound[id], now), now)
  }

  // --- receiving ---------------------------------------------------------------------------------------

  function SendAck(l: Live, to: Ik, id: ContentId): Live {
    l.(trace := l.trace.(sent := l.trace.sent + multiset{Packet(to, AckFrame(id), Receipt)}))
  }

  /** An entry is advanced by an ack from its recipient only. */
  function AckEntry(e: Entry): Entry {
    match e.state
    case InFlight | Retry | Acked => Apply(e, AckReceived).value
    case Expired => Apply(e, LateAck).value
    case Sealed | Queued => e
  }

  function ReceiveAck(l: Live, from: Ik, id: ContentId): Live {
    if id in l.outbound && l.outbound[id].to == from
    then l.(outbound := l.outbound[id := AckEntry(l.outbound[id])])
    else l
  }

  function Surface(held: seq<(ContentId, Bytes)>, id: ContentId, raw: Bytes): seq<(ContentId, Bytes)> {
    (if |held| >= MAX_EPHEMERAL_HELD then held[1..] else held) + [(id, raw)]
  }

  /** File or surface an admitted payload, after the pin check. */
  function AcceptMote(core: Core, l: Live, from: Ik, env: Envelope, p: Payload, size: nat): (Live, InboundOutcome) {
    if from in l.contacts && p.from != from then (l, Dropped(BadPayloadSig))
    else
      var a := Acceptance(env.id, env.ciphertext, size, p.from, env.suite, !p.sensitive, p);
      var t := l.trace.(accepted := l.trace.accepted + [a]);
      var pinned := l.(contacts := l.contacts + {p.from}, ranked := l.ranked + {p.from},
                       seen := Seen.Record(l.seen, env.id, from, l.now), trace := t);
      if p.sensitive then
        (pinned.(ephemeral := Surface(l.ephemeral, env.id, core.render(p)),
                 trace := t.(surfaced := t.surfaced + [(env.id, core.render(p))])),
         EphemeralDelivered(env.id))
      else
        (SendAck(pinned.(inbox := l.inbox + [p], trace := t.(metered := t.metered + [size])), from, env.id),
         Stored(env.id))
  }

  function Observe(marks: map<Ik, nat>, contact: Ik, suite: nat): map<Ik, nat> {
    marks[contact := if contact in marks then Max(marks[contact], suite) else suite]
  }

  function Defer(l: Live, from: Ik, id: ContentId): (Live, InboundOutcome) {
    (l.(requests := l.requests + [from]), Deferred(id))
  }

  /** The authenticated part: suite floor, quota, acceptance. */
  function Authenticated(core: Core, l: Live, from: Ik, env: Envelope, p: Payload, size: nat, quota: Quota)
    : (Live, InboundOutcome)
  {
    if p.from in l.marks && env.suite < l.marks[p.from] then Defer(l, from, env.id)
    else
      var ratcheted := l.(marks := Observe(l.marks, p.from, env.suite));
      match quota
      case Deny(reason) => (ratcheted, StorageDenied(env.id, reason))
      case Allow =>
        AcceptMote(core, ratcheted.(trace := l.trace.(granted := l.trace.granted + [size])), from, env, p, size)
  }

  /** What is not a duplicate: the PoW budget of cold senders, then validation. */
  function Validate(core: Core, l: Live, from: Ik, env: Envelope, size: nat, v: Verdict): (Live, InboundOutcome) {
    if from !in l.contacts && env.hasPow && v.overBudget then Defer(l, from, env.id)
    else
      match core.check(env, l.ik, from in l.contacts)
      case Rejected(reason) => (l, Dropped(reason))
      case ColdDeferred => Defer(l, from, env.id)
      case Accepted(p) => Authenticated(core, l, from, env, p, size, v.quota)
  }

  function ReceiveMote(core: Core, l: Live, from: Ik, bytes: Bytes, v: Verdict): (Live, InboundOutcome) {
    match core.decode(bytes)
    case None => (l, Dropped(MalformedMote))
    case Some(env) =>
      if env.Verified() && Seen.Contains(l.seen, env.id, l.now) then (SendAck(l, from, env.id), Duplicate(env.id))
      else Validate(core, l, from, env, |bytes|, v)
  }

  predicate AcceptedOutcome(o: InboundOutcome) { o.Stored? || o.EphemeralDelivered? }

  /** One inbound frame: the new state, and whether it asks for a checkpoint. */
  function Receive(core: Core, l: Live, from: Ik, frame: Frame, v: Verdict): (Live, bool) {
    match frame
    case MoteFrame(bytes) =>
      var (m, o) := ReceiveMote(core, l, from, bytes, v);
      (m, AcceptedOutcome(o))
    case AckFrame(id) =>
      var m := ReceiveAck(l, from, id);
      (m, m.outbound != l.outbound)
    case GroupFrame(g, body) =>
      (if |l.groupInbox| < MAX_GROUP_INBOX then l.(groupInbox := l.groupInbox + [(g, body)]) else l, false)
  }

  // --- operations --------------------------------------------------------------------------------------

  /**
   * The public operations.  `env` is what the sealing crate built for a draft; `probe` is the seed of the
   * up-front wrap of a private send; `bound` and `opens` are the outcomes of the certificate check and of
   * X3DH for a deniable init.
   */
  datatype Action =
    | Send(to: Ik, env: Envelope, expires: Option<nat>, route: Option<Onion.MixPath>, probe: Onion.Digest)
    | DispatchSealed(to: Ik, env: Envelope)
    | Retry
    | Tick
    | Arrive(from: Ik, frame: Frame, verdict: Verdict)
    | SetNow(now: nat)
    | AddContact(ik: Ik)
    | LearnKey(ik: Ik)
    | TakeEphemeral
    | PinSuiteFloor(contact: Ik, suite: nat)
    | IngestMixDirectory(bytes: Bytes)
    | DeniableAccept(root: Ik, bound: bool, opens: bool)
    | ConfigureGate(limits: RateGate.Limits)

  function Ingest(core: Core, l: Live, bytes: Bytes): (Live, bool) {
    match core.dirs.decode(bytes)
    case None => (l, false)
    case Some(d) => (l.(mix := MixDirectory.Accepted(l.mix, d)), Refusal(l.mix, d).None?)
  }

  function Effect(core: Core, l: Live, a: Action, outside: Outside): (Live, bool) {
    match a
    case Send(to, env, expires, route, probe) =>
      if SendRefusal(core, l, env, to, route, probe).Some? then (l, false)
      else (Track(core, l, env, to, expires, route, outside), true)
    case DispatchSealed(to, env) => (Track(core, l, env, to, None, None, outside), true)
    case Retry => (RetryPending(core, l, outside), true)
    case Tick =>
      var ticked := TickOutbound(l.outbound, l.now);
      (l.(outbound := ticked), ticked != l.outbound)
    case Arrive(from, frame, verdict) => Receive(core, l, from, frame, verdict)
    case SetNow(now) => (l.(now := now), false)
    case AddContact(ik) => (l.(contacts := l.contacts + {ik}, directory := l.directory + {ik}), false)
    case LearnKey(ik) => (l.(directory := l.directory + {ik}), false)
    case TakeEphemeral => (l.(ephemeral := [], trace := l.trace.(surfaced := [])), false)
    case PinSuiteFloor(contact, suite) =>
      if suite in core.suites
      then (l.(marks := Observe(l.marks, contact, suite), ranked := l.ranked + {contact}), true)
      else (l, false)
    case IngestMixDirectory(bytes) => Ingest(core, l, bytes)
    case DeniableAccept(root, bound, opens) =>
      if bound
      then (l.(gate := RateGate.Admit(l.gate, root, l.now)), RateGate.Admits(l.gate, root, l.now) && opens)
      else (l, false)
    case ConfigureGate(limits) => (l.(gate := RateGate.NewGate(limits, l.now)), true)
  }

  // --- the journal -------------------------------------------------------------------------------------

  /** What a snapshot holds, as tables; the order in which hash maps list them is immaterial. */
  datatype Disk = Disk(
    outbound: map<ContentId, PersistedEntry>,
    seen: seq<(ContentId, Ik)>,
    marks: map<Ik, nat>,
    mix: Latest,
    gate: Option<RateGate.Gate>)

  datatype Journal = Journal(deferred: bool, dirty: bool, disk: Disk, healthy: bool, saves: nat)

  datatype Node = Node(live: Live, journal: Journal)

  function Persisted(core: Core, outbound: map<ContentId, Entry>): map<ContentId, PersistedEntry> {
    map id | id in outbound :: FromEntry(core, outbound[id])
  }

  function RankedMarks(l: Live): map<Ik, nat> { map c | c in l.ranked && c in l.marks :: l.marks[c] }

  function Snapshot(core: Core, l: Live): Disk {
    Disk(Persisted(core, l.outbound), Seen.Pairs(l.seen), RankedMarks(l), l.mix, Some(l.gate))
  }

  /** A failing save leaves the old snapshot in place. */
  function Save(core: Core, l: Live, j: Journal): Journal {
    j.(disk := if j.healthy then Snapshot(core, l) else j.disk, saves := j.saves + 1)
  }

  function Checkpoint(core: Core, l: Live, j: Journal): Journal {
    if j.deferred then j.(dirty := true) else Save(core, l, j)
  }

  /** An effect on the live state, and the checkpoint it asks for. */
  function Commit(core: Core, l: Live, touched: bool, j: Journal): Node {
    Node(l, if touched then Checkpoint(core, l, j) else j)
  }

  function EmptyTrace(): Trace { Trace(multiset{}, {}, [], [], [], []) }

  function Bare(ik: Ik, trace: Trace): Live {
    Live(ik, BOOT_MS, {}, {}, map[], Seen.New(), [], [], [], map[], {}, map[],
         RateGate.NewGate(RateGate.DEFAULT_LIMITS, BOOT_MS), [], trace)
  }

  function EmptyDisk(): Disk { Disk(map[], [], map[], map[], None) }

  function First(ik: Ik): Node {
    Node(Bare(ik, EmptyTrace()), Journal(false, false, EmptyDisk(), true, 0))
  }

  predicate Restorable(core: Core, d: Disk) {
    && (forall id :: id in d.outbound ==> IntoEntry(core, d.outbound[id]).Ok?)
    && (forall c :: c in d.marks ==> d.marks[c] in core.suites)
  }

  /** A fresh node over the journal; the identity is the same, the trace is what already happened. */
  function Restored(core: Core, ik: Ik, trace: Trace, d: Disk): Live
    requires Restorable(core, d)
  {
    var bare := Bare(ik, trace.(surfaced := []));
    bare.(outbound := map id | id in d.outbound :: IntoEntry(core, d.outbound[id]).value,
          seen := Seen.RecordAll(bare.seen, d.seen, BOOT_MS),
          marks := d.marks,
          ranked := d.marks.Keys,
          mix := d.mix,
          gate := if d.gate.Some? then d.gate.value else bare.gate)
  }

  /** A restart may come at any time; `Fail` and `Heal` make later saves fail and succeed. */
  datatype Op = Do(action: Action, outside: Outside) | BeginPoll | EndPoll | Restart | Fail | Heal

  /**
   * One operation.  In the source a refused restart leaves no node; here the node stays as it is and later operations
   * may still act on it, so the runs of the model include those that end there and more.
   */
  function Perform(core: Core, n: Node, op: Op): Node {
    var j := n.journal;
    match op
    case Do(a, outside) =>
      var (l, touched) := Effect(core, n.live, a, outside);
      Commit(core, l, touched, j)
    case BeginPoll => Node(n.live, j.(deferred := true, dirty := false))
    case EndPoll =>
      var open := j.(deferred := false);
      Node(n.live, if open.dirty then Save(core, n.live, open) else open)
    case Restart =>
      if Restorable(core, j.disk)
      then Node(Restored(core, n.live.ik, n.live.trace, j.disk), j.(deferred := false, dirty := false))
      else n
    case Fail => Node(n.live, j.(healthy := false))
    case Heal => Node(n.live, j.(healthy := true))
  }

  function Run(core: Core, n: Node, ops: seq<Op>): Node {
    if ops == [] then n else Perform(core, Run(core, n, ops[..|ops| - 1]), ops[|ops| - 1])
  }
}
