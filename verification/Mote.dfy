/** Objects the delivery engine handles, and the unseen crates it calls into, as a record of functions. */
module Mote {
  import opened Prelude
  import opened MixDirectory
  import Onion

  /**
   * The content address of a ciphertext.  Wrapping the ciphertext instead of hashing it makes the
   * address injective, which is what collision resistance is relied on for.
   */
  datatype ContentId = Address(of: Bytes)
  {
    predicate Verify(ciphertext: Bytes) { of == ciphertext }
  }

  /** A sealed envelope; `rest` stands for the header fields the engine does not look at. */
  datatype Envelope = Envelope(id: ContentId, ciphertext: Bytes, to: Ik, suite: nat, hasPow: bool, rest: Bytes)
  {
    predicate Verified() { id.Verify(ciphertext) }
  }

  /** A decrypted payload. */
  datatype Payload = Payload(from: Ik, sensitive: bool, body: Bytes)

  datatype DropReason =
    | MalformedMote | BadVersionOrSuite | BadContentAddress | BadSenderSig | NotForUs | DecryptFailed | BadPayloadSig

  /** What the shared validation core says of an envelope, before the node's own checks. */
  datatype CoreOutcome = Accepted(payload: Payload) | ColdDeferred | Rejected(reason: DropReason)

  datatype Core = Core(
    encode: Envelope -> Bytes,
    decode: Bytes -> Option<Envelope>,
    check: (Envelope, Ik, bool) -> CoreOutcome,
    render: Payload -> Bytes,
    suites: set<nat>,
    hash: Onion.Hash,
    dirs: DirCodec)

  /**
   * What the engine relies on: canonical encoding, and a core that accepts only envelopes of a known
   * suite whose id is the address of their ciphertext.
   */
  ghost predicate Lawful(core: Core) {
    && (forall e: Envelope :: core.decode(core.encode(e)) == Some(e))
    && (forall e: Envelope, us: Ik, known: bool :: core.check(e, us, known).Accepted? ==>
          e.Verified() && e.suite in core.suites)
    && Faithful(core.dirs)
  }
}
