/** The sender-side retry machine (node/src/outbound.rs) and its persisted form (node/src/journal.rs). */
module Outbound {
  import opened Prelude
  import opened Mote
  import Onion

  datatype Tier = Fast | Private
  {
    function AsU8(): nat { if Fast? then 0 else 1 }
  }

  function TierFromU8(b: nat): Option<Tier> {
    if b == 0 then Some(Fast) else if b == 1 then Some(Private) else None
  }

  datatype OutState = Queued | Sealed | InFlight | Retry | Acked | Expired
  {
    predicate Terminal() { Acked? || Expired? }

    function AsU8(): nat {
      match this
      case Queued => 0
      case Sealed => 1
      case InFlight => 2
      case Retry => 3
      case Acked => 4
      case Expired => 5
    }
  }

  function StateFromU8(b: nat): Option<OutState> {
    match b
    case 0 => Some(Queued)
    case 1 => Some(Sealed)
    case 2 => Some(InFlight)
    case 3 => Some(Retry)
    case 4 => Some(Acked)
    case 5 => Some(Expired)
    case _ => None
  }

  datatype OutEvent =
    SealOk | Blocked | DispatchOk | TierUnreachable | AckReceived | RetryTimerFires | DeadlineExceeded | LateAck

  datatype InvalidTransition = InvalidTransition(state: OutState, event: OutEvent)

  const RETRY_DEADLINE_MS: nat := 72 * 60 * 60 * 1000
  const TERMINAL_GRACE_MS: nat := 60 * 60 * 1000

  datatype Entry = Entry(
    id: ContentId,
    to: Ik,
    state: OutState,
    sealed: Option<Envelope>,
    attempts: nat,
    deadline: nat,
    deliveredLate: bool,
    tier: Tier,
    mixPath: Option<Onion.MixPath>,
    lastOnion: Option<seq<Onion.Cell>>,
    terminalAt: Option<nat>)
  {
    predicate DeadlinePassed(now: nat) { !state.Terminal() && now >= deadline }

    /** What must never change while an entry is tracked. */
    predicate SameMessage(other: Entry) {
      id == other.id && to == other.to && deadline == other.deadline && sealed == other.sealed && tier == other.tier
    }

    /** The sender has been told of delivery. */
    predicate ReportedDelivered() { state.Acked? || deliveredLate }

    /** What survives a restart. */
    function Durable(): Entry { this.(mixPath := None, lastOnion := None) }

    /** The id is the content address of the sealed ciphertext. */
    predicate Genuine() { sealed.Some? ==> sealed.value.Verified() && sealed.value.id == id }
  }

  function Enqueue(id: ContentId, to: Ik, queuedAt: nat, expires: Option<nat>): Entry {
    var deadline := SaturatingAdd64(queuedAt, RETRY_DEADLINE_MS);
    Entry(id, to, Queued, None, 0, if expires.Some? then Min(deadline, expires.value) else deadline,
          false, Fast, None, None, None)
  }

  /** A message is overdue once 72 hours, its own expiry or the range of the clock is reached, and not before. */
  lemma DeadlineIsEarliest(id: ContentId, to: Ik, queuedAt: nat, expires: Option<nat>, now: nat)
    ensures Enqueue(id, to, queuedAt, expires).DeadlinePassed(now) <==>
              now >= queuedAt + 259_200_000 || now >= U64_MAX || (expires.Some? && now >= expires.value)
  {
  }

  /** The total transition function. */
  function Apply(e: Entry, ev: OutEvent): Result<Entry, InvalidTransition> {
    match (e.state, ev)
    case (Queued, SealOk) => Ok(e.(state := Sealed))
    case (Queued, Blocked) => Ok(e.(state := Retry))
    case (Queued, DeadlineExceeded) => Ok(e.(state := Expired))
    case (Sealed, DispatchOk) => Ok(e.(state := InFlight))
    case (Sealed, DeadlineExceeded) => Ok(e.(state := Expired))
    case (InFlight, AckReceived) => Ok(e.(state := Acked))
    case (InFlight, TierUnreachable) => Ok(e.(state := Retry, attempts := Min(e.attempts + 1, U32_MAX)))
    case (InFlight, DeadlineExceeded) => Ok(e.(state := Expired))
    case (Retry, RetryTimerFires) => Ok(e.(state := InFlight))
    case (Retry, AckReceived) => Ok(e.(state := Acked))
    case (Retry, DeadlineExceeded) => Ok(e.(state := Expired))
    case (Acked, AckReceived) => Ok(e)
    case (Expired, LateAck) => Ok(e.(deliveredLate := true))
    case (s, v) => Err(InvalidTransition(s, v))
  }

  /** The states each event is taken in, and all that it changes. */
  lemma EventExactly(e: Entry, v: OutEvent)
    ensures Apply(e, v).Ok? <==>
              match v
              case SealOk | Blocked => e.state.Queued?
              case DispatchOk => e.state.Sealed?
              case TierUnreachable => e.state.InFlight?
              case RetryTimerFires => e.state.Retry?
              case DeadlineExceeded => !e.state.Acked? && !e.state.Expired?
              case AckReceived => e.state.InFlight? || e.state.Retry? || e.state.Acked?
              case LateAck => e.state.Expired?
    ensures Apply(e, v).Err? ==> Apply(e, v).error == InvalidTransition(e.state, v)
    ensures Apply(e, v).Ok? ==>
              Apply(e, v).value
              == e.(state := match v
                             case SealOk => Sealed
                             case Blocked | TierUnreachable => Retry
                             case DispatchOk | RetryTimerFires => InFlight
                             case AckReceived => Acked
                             case DeadlineExceeded | LateAck => Expired,
                    attempts := if v.TierUnreachable? then Min(e.attempts + 1, 0xFFFF_FFFF) else e.attempts,
                    deliveredLate := v.LateAck? || e.deliveredLate)
  {
  }

  // --- whole event histories -----------------------------------------------------------------------------

  /** Feed events one after another; a rejected event leaves the entry as it is. */
  function ApplyAll(e: Entry, evs: seq<OutEvent>): Entry {
    if evs == [] then e
    else
      var before := ApplyAll(e, evs[..|evs| - 1]);
      match Apply(before, evs[|evs| - 1])
      case Ok(after) => after
      case Err(_) => before
  }

  /**
   * Whatever events arrive in whatever order: the message itself never changes, a terminal state is
   * never left, `Acked` needs an ack and `Expired` a deadline, and only an expired entry is ever
   * corrected as delivered late.
   */
  lemma {:induction false} MachineHistory(e: Entry, evs: seq<OutEvent>)
    ensures var a := ApplyAll(e, evs);
            && a.SameMessage(e)
            && (e.state.Terminal() ==> a.state == e.state)
            && (a.state.Acked? && !e.state.Acked? ==> AckReceived in evs)
            && (a.state.Expired? && !e.state.Expired? ==> DeadlineExceeded in evs)
            && (a.deliveredLate && !e.deliveredLate ==> a.state.Expired? && LateAck in evs)
            && a.attempts >= Min(e.attempts, U32_MAX)
  {
    if evs != [] {
      MachineHistory(e, evs[..|evs| - 1]);
    }
  }

  /** Every transition the node takes for granted is defined where it takes it. */
  lemma DriverNeverFails(e: Entry, now: nat)
    ensures e.state.Queued? ==> Apply(e, SealOk).Ok? && Apply(e, SealOk).value.state.Sealed?
    ensures e.state.Sealed? ==> Apply(e, DispatchOk).Ok? && Apply(Apply(e, DispatchOk).value, TierUnreachable).Ok?
    ensures e.DeadlinePassed(now) ==> Apply(e, DeadlineExceeded).Ok?
    ensures e.state in {InFlight, Retry, Acked} ==> Apply(e, AckReceived).Ok?
    ensures e.state.Expired? ==> Apply(e, LateAck).Ok?
    ensures e.state.Retry? ==>
              Apply(e, RetryTimerFires).Ok? && Apply(Apply(e, RetryTimerFires).value, TierUnreachable).Ok?
  {
  }

  // --- the persisted form --------------------------------------------------------------------------------

  datatype PersistedEntry = PersistedEntry(
    id: ContentId, to: Ik, state: nat, attempts: nat, deadline: nat, deliveredLate: bool,
    sealedBytes: Option<Bytes>, terminalAt: Option<nat>, tier: nat)

  datatype JournalError = UnknownState | UnknownTier | Undecodable | IdMismatch | UnknownSuite | BadDirectory(e: nat)

  function FromEntry(core: Core, e: Entry): PersistedEntry {
    PersistedEntry(e.id, e.to, e.state.AsU8(), e.attempts, e.deadline, e.deliveredLate,
                   if e.sealed.Some? then Some(core.encode(e.sealed.value)) else None, e.terminalAt, e.tier.AsU8())
  }

  /** The tags of the journal, and the fields copied as they are. */
  lemma PersistedFields(core: Core, e: Entry)
    ensures var p := FromEntry(core, e);
            && p.state == (match e.state
                           case Queued => 0 case Sealed => 1 case InFlight => 2 case Retry => 3 case Acked => 4
                           case Expired => 5)
            && p.tier == (match e.tier case Fast => 0 case Private => 1)
            && p.id == e.id && p.to == e.to && p.attempts == e.attempts && p.deadline == e.deadline
            && p.deliveredLate == e.deliveredLate && p.terminalAt == e.terminalAt
            && (p.sealedBytes.None? <==> e.sealed.None?)
            && (e.sealed.Some? ==> p.sealedBytes == Some(core.encode(e.sealed.value)))
  {
  }

  function IntoEntry(core: Core, p: PersistedEntry): Result<Entry, JournalError> {
    var state := StateFromU8(p.state);
    var tier := TierFromU8(p.tier);
    var sealed := if p.sealedBytes.Some? then core.decode(p.sealedBytes.value) else None;
    if state.None? then Err(UnknownState)
    else if tier.None? then Err(UnknownTier)
    else if p.sealedBytes.Some? && sealed.None? then Err(Undecodable)
    else if sealed.Some? && (!sealed.value.Verified() || sealed.value.id != p.id) then Err(IdMismatch)
    else Ok(Entry(p.id, p.to, state.value, sealed, p.attempts, p.deadline, p.deliveredLate, tier.value,
                  None, None, p.terminalAt))
  }

  /** A persisted entry is taken back exactly when its tags are known and its id is the sealed content's address. */
  lemma IntoEntryFailsClosed(core: Core, p: PersistedEntry)
    ensures IntoEntry(core, p).Ok? <==>
              && p.state <= 5 && p.tier <= 1
              && (p.sealedBytes.Some? ==>
                    && core.decode(p.sealedBytes.value).Some?
                    && p.id == Address(core.decode(p.sealedBytes.value).value.ciphertext)
                    && core.decode(p.sealedBytes.value).value.id == p.id)
    ensures IntoEntry(core, p).Ok? ==> IntoEntry(core, p).value.Genuine()
  {
  }

  /** Restoring what was persisted loses the path and the onion only; it is refused exactly for a forged id. */
  lemma IntoEntryOfFromEntry(core: Core, e: Entry)
    requires Lawful(core)
    ensures IntoEntry(core, FromEntry(core, e)) == if e.Genuine() then Ok(e.Durable()) else Err(IdMismatch)
  {
    if e.sealed.Some? {
      assert core.decode(core.encode(e.sealed.value)) == e.sealed;
    }
  }
}
