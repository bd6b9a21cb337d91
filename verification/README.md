# Verified model of the envoir node and client

A Dafny model of the parts of the repository where state, arithmetic and several functions have to agree,
with proofs of what they are for:

- the **delivery engine** of the node: sealing into a retry queue, dispatch over a direct or an onion-routed
  tier, the recipient's accept / dedup / ack pipeline, deadlines and collection, the journal with its
  coalesced checkpoints, and restart;
- the **onion** of the private tier: fragmentation, per-hop secrets, layering, and the peeling and reassembly
  that undo them;
- the two **rate gates**: the token buckets in front of the one-time prekeys, and the login throttle;
- the **codecs**: base32 gateway aliases and the group frame;
- the **anti-rollback tracker** of mix directories;
- on the client side the **sanitizer**, the **filter rules** and the **real send** of the composer.

`dafny verify dfyconfig.toml` checks everything.

## How it is built

Every mutable object of the source is a class (`SeenSet`, `TokenBucket`, `DeniableAdmission`, `AuthThrottle`,
`MixDirectoryTracker`, `MemoryJournal`, `NodeEngine`, `Thread`, `Mailbox`, `Element`, ...), with the source's
loops.  Each of its methods is proved to compute a function on values; the theorems are about those functions
and about runs of them.

For the node, `Delivery` holds the functions and `NodeEngine` the object.  A node value is its live state and
its journal.  An operation is an effect on the live state with a flag that asks for a checkpoint, so the
journal cannot steer delivery.  `Delivery.Run` folds any list of operations: sends, dispatches of sealed
envelopes, retries, ticks, frames arriving in or outside poll batches, clock changes in either direction,
pins, directory updates, deniable inits, crashes with restart at any point, journal writes that fail.  A run is
*orderly* when saves succeed and the process is not killed inside a poll batch.  Packets sent are counted, not just
collected, so a repeated ack or attempt shows.
`World` puts any number of nodes on a network that drops, duplicates, delays and reorders.

What the node calls but the repository does not contain enters as a parameter: the sealing and validation
core, the canonical encodings and the hash are fields of `Mote.Core`; `Mote.Lawful` says what is relied on
(decoding undoes encoding; only envelopes of a known suite whose id is the address of their ciphertext are
accepted), and `SampleCore` exhibits a core that meets it.  A content id wraps the ciphertext it addresses, so it is
collision-free.  Randomness, reachability of peers and the answers of the PoW budget and the storage quota are inputs of
an operation.

## What the code does not do

The model follows the code.  Each of these has a lemma at an input where it shows, and where it is a matter of when, one
that says exactly when.

- A sensitive message is not acked on first delivery, although the documentation of `acked()` says so: only a
  redelivery is (`Once.SensitiveIsNotAcked`, `Once.AckExactly`).  Handed over and delivered once, it ends expired at its
  sender and is not sent again (`Unacked.UnackedEndsExpired`).
- Restored dedup entries are stamped with the clock of a bare node, 1 700 000 000 000 ms, not with the clock the
  daemon sets afterwards.  They are recognised exactly while the clock is within 20 days of that instant
  (`Journaling.RestartResumes`, `Seen.RestoredReads`); past it, a MOTE that is still held is accepted a second time
  (`Journaling.HeldIsTakenAgain`; a concrete run: `Scenarios.LetterTakenTwice`).
- `dispatch_sealed` under an id already tracked overwrites the entry, whatever it had reached
  (`Frames.SubmissionStartsFresh`).  With an envelope whose id is not the address of its ciphertext it also makes
  the next restart fail (`Journaling.ForeignIdBlocksRestart`); nothing else does (`Journaling.GenuineRestarts`).
- A restart forgets the paths of private messages: until one goes through, every attempt is an onion
  (`Paths.PathUntilRestart`, `Paths.PrivateStaysPrivate`); after it, the next retry sends the sealed bytes to the
  recipient as they are (`Paths.RestartSendsClear`).
- An ack goes to the return path the message came under (`Once.AckExactly`, `World.DeliveryCompletes`).  Of a message
  that came through relays that is the last relay; that it hands the ack on is not part of this model.
- A kill inside a poll batch undoes what the batch accepted, although its acks may have left
  (`Journaling.KillForgetsBatch`): a MOTE acked in it may be accepted again, and a suite floor it raised is lost
  (`Scenarios.KillLosesFloor`).  What is proved of orderly runs excludes such kills.
- The suite ratchet turns without asking for a checkpoint, so a mark raised by a MOTE that is then refused is persisted
  by a batch and not by a save per frame: the two journals agree exactly when nothing was saved or no frame after the
  last checkpoint raised a mark (`Coalescing.BatchJournal`, `Coalescing.RefusedUpgradeOutlivesBatch`; a concrete run:
  `Scenarios.BatchPersistsRefusedUpgrade`).
- An admitted deniable init whose session does not open is not checkpointed, so a restart refunds its token
  (`GateRuns.RestartRefundsFailedInit`).  Sessions opened are bounded always (`GateRuns.OpenedBound`); admissions while
  every restart finds the live gate in the journal (`GateRuns.AdmittedBound`), and a restart keeps their bound exactly
  when the journalled gate can pay for no more than the live one (`GateRuns.RestartKeepsBound`).
- Pruning a source bucket loses its remainder: the source's credit may drop, never rise (`RateGate.PrunedCredit`).
- Of two directories signed for one mark, the first offered stays, so then the retained one depends on the order
  (`MixDirectory.EquivocationKeepsFirst`); without such equivocation it does not (`MixDirectory.RetainedIgnoresOrder`).
- A group id of 2^32 octets or more does not survive the frame (`GroupFrame.DecodeOfEncode`).
- `applyFilters` counts rule applications, not threads, and the count depends on the order of the rules; the
  result does not (`Filters.CountDependsOnOrder`).
- `commitSendReal` rejects for a draft with neither attachments nor recipients, after keeping it
  (`Compose.CrashesExactly`).

## Model

| member | source | states |
|---|---|---|
| World.AckSoundness | node/src/node.rs:1063-1106 | in every run of any number of crashing nodes over a lossy, duplicating, reordering network, an entry acked or delivered late means its recipient accepted that id, with the very ciphertext the sender sealed |
| World.DeliveryCompletes | node/src/node.rs:780-793 | on either tier one packet leaves that carries the message; delivered once, under whatever return path, to a recipient with reason to accept it, the payload decrypted from it is filed as it is and acked once, and an ack from the recipient settles the sender's entry |
| World.RedeliveryIsAckedAgain | node/src/node.rs:1097-1106 | a message just accepted and delivered again sends one further ack, to whoever delivered it, and is filed no second time |
| World.PerformBelieves | node/src/node.rs:1063-1085 | one operation gives a node a new belief in delivery, in memory or journal, only by an ack of that id under the recipient's return path |
| World.PerformBacked | node/src/node.rs:1090-1106 | every ack sent and every id remembered, in memory or journal, is of a MOTE the node accepted, and stays so through any operation |
| World.AdvanceKeeps | node/src/node.rs:1016-1085 | the two facts above hold of all nodes together after any legal turn of any of them |
| Sender.SenderMachine | node/src/node.rs:877-1009 | over any orderly run with restarts: id, recipient, deadline, sealed envelope and tier never change, terminal states are never left, acked needs an ack from the recipient, expired a tick at or after the deadline, and an entry disappears only in a tick that finds it terminal and stamped a grace period before |
| Sender.PerformExplained | node/src/node.rs:877-937 | what one operation may do to one entry, and what alone can cause it |
| Sender.TickSettles | node/src/node.rs:920-1009 | a tick leaves nothing overdue, unstamped or past its grace, expires exactly what was overdue, removes exactly what was settled and stamped an hour ago or more, and repeated at once changes nothing |
| Sender.TwoTicksClear | node/src/node.rs:920-1009 | a tick at or past the deadline and another a grace period after the stamp leave no entry behind, in any orderly run |
| Sender.RetryMovesWaiting | node/src/node.rs:877-915 | a retry pass adds exactly one attempt for every waiting entry, in flight exactly if its peer is reached, else with one more failure; it touches nothing else and sends nothing else for it |
| Sender.RetrySendsOnce | node/src/node.rs:877-915 | packet by packet: a retry pass adds one copy of what is the attempt of a waiting entry and none of anything else |
| Sender.AckCounts | node/src/node.rs:1063-1085 | an ack from the recipient always settles or corrects its entry, one from anybody else changes nothing |
| Sender.NoReturn | node/src/node.rs:920-937 | in an orderly run an id that is no longer tracked comes back by submission only, not by a restart |
| AnyRun.MessageNeverChanges | node/src/node.rs:877-1009 | from a node whose journal is in step, in every run, kills inside batches and failing saves included: a tracked message stays the same message, and is reported as delivered only if it was or its recipient acked it |
| Unacked.SentOnceUnlessAcked | node/src/node.rs:877-915 | in an orderly run a message that reached its peer is not sent again unless its recipient acks it |
| Unacked.UnackedEndsExpired | node/src/node.rs:920-937 | unacked, it ends expired and unreported, having been sent that once |
| Frames.SameObject | node/src/node.rs:808-915 | every attempt ever sent for an id, first dispatch, retries and after restarts, carries the one submitted envelope: its canonical bytes, or an onion that peels and reassembles to them |
| Frames.RunFrames | node/src/node.rs:780-863 | the same for several submissions under one id: each attempt carries one of them |
| Frames.WireFrameCarries | node/src/node.rs:808-828 | the wire form opens to the sealed envelope; onions go to the entry mix, clear frames to the recipient |
| Frames.OnionIffPathKept | node/src/node.rs:808-863 | in every reachable state the next attempt is an onion exactly while the entry keeps its path |
| Paths.PathUntilRestart | node/src/node.rs:808-863 | in every run a message still tracked has the path it was sent with exactly until a restart goes through, and none afterwards |
| Paths.PrivateStaysPrivate | node/src/node.rs:808-863 | a message submitted along a path only never leaves in the clear in a run no restart goes through |
| Paths.RestartSendsClear | node/src/journal.rs:142-181 | after a restart the next retry pass sends each waiting message once more as its sealed bytes, to the recipient itself |
| Frames.SubmissionStartsFresh | node/src/node.rs:725-793 | a submission sends one packet more, carrying the envelope, and tracks a fresh entry for it, in flight or waiting as the peer was reached, whatever its id tracked before |
| Frames.SendAcceptedExactly | node/src/node.rs:753-793 | a send is refused exactly for want of the recipient's key, of 3 to 5 hops or of room in 32 fragments, with the error that says so, and changes nothing; any other is tracked and made durable |
| Frames.KnownCanBeSentTo | node/src/node.rs:753-793 | once a peer is a contact or its key is learnt otherwise, a send to it is not refused |
| Once.HeldIsNotAccepted | node/src/node.rs:1090-1106 | an id held in the dedup set is not accepted again in any orderly run within the window that does not overflow the set, restarts included |
| Once.AcceptedOnce | node/src/node.rs:1197-1249 | in an orderly run, from its first acceptance on a MOTE is accepted no second time within the window and the next 99 999 acceptances |
| Once.MeteringConserved | node/src/node.rs:1161-1249 | in every run the metered sizes are those of the stored MOTEs, one by one, and sum to no more than the quota granted |
| Once.EphemeralIsTail | node/src/node.rs:1217-1236 | in every run the ephemeral buffer is the last 256 messages surfaced since it was taken |
| Once.AckExactly | node/src/node.rs:1100-1255 | stored and duplicate send exactly one ack more and nothing else sends any, the surfaced message included |
| Once.SensitiveIsNotAcked | node/src/node.rs:1217-1236 | a sensitive MOTE with everything in its favour is surfaced and counts as acked, yet no ack leaves |
| Receiving.ReceiveMoteCases | node/src/node.rs:1090-1255 | each disposition of an inbound MOTE and everything it moves: a stored one files exactly the payload the core decrypted, a sensitive one surfaces its rendering; deferred, denied and dropped ones leave dedup set, contacts, store, meter and transport as they were |
| Receiving.AcceptedExactly | node/src/node.rs:1090-1206 | a MOTE is accepted exactly when nothing on the way speaks against it, and a duplicate exactly when it is genuine and held |
| Receiving.RefusedExactly | node/src/node.rs:1127-1190 | a MOTE that is not accepted and no duplicate is put off, denied or dropped, each exactly when; only a deferral reaches the requests area, and it changes nothing else |
| Filing.HoldsWhatItAccepted | node/src/node.rs:1197-1249 | in every run the inbox is the payloads stored since the last restart, in order, and the surfaced messages are the sensitive ones accepted since they were last taken |
| Filing.GroupsAreFirst | node/src/node.rs:1016-1047 | in every run the group buffer is the first 1024 group messages that arrived since the last restart |
| Receiving.ReceiveMoteMarks | node/src/node.rs:1137-1148 | suite marks only rise, and only to known suites |
| Receiving.RatchetsExactly | node/src/node.rs:1137-1165 | the author's mark moves to the suite offered exactly for a MOTE that gets past duplicate check, budget, validation and floor, whether or not quota and pin then let it in |
| SuiteFloor.NoDowngrade | node/src/node.rs:1137-1212 | once a suite was accepted from a contact, no orderly run, restarts included, ever accepts a lower one from it |
| SuiteFloor.RunFloors | node/src/node.rs:352-361 | in an orderly run the floors of all accepted contacts hold live and, outside a dirty batch, in the journal |
| SuiteFloor.PinRaises | node/src/node.rs:1648-1656 | pinning a floor raises the contact's mark to it, never lowers one, and is in the journal |
| SuiteFloor.PinnedFloorDefers | node/src/node.rs:1648-1656 | in every orderly run after a floor was pinned, restarts included, a MOTE of a lower suite that authenticates as the contact's is put off |
| Journaling.JournalKeepsUp | node/src/node.rs:640-646 | while saves succeed, outside a poll batch the journal holds exactly the live queue, dedup pairs and mix directories |
| Journaling.CoalescingRefines | node/src/node.rs:1016-1047 | a poll batch ends in the same live state and the same journalled queue, pairs and directories as a save after each frame, with one save instead of any positive number |
| Coalescing.BatchJournal | node/src/node.rs:1016-1047 | for a batch of arrivals the journalled gate is that of a save after each frame, the marks are no lower, and the whole journal is the same exactly if nothing was saved or no frame after the last checkpoint raised a mark |
| Coalescing.UntouchedMarks | node/src/node.rs:1143-1165 | an arrival that asks for no checkpoint lowers no persisted mark and changes one exactly if it raises it |
| Coalescing.RefusedUpgradeOutlivesBatch | node/src/node.rs:1143-1165 | a mark raised by a MOTE that is then refused is persisted by a batch and not by saving after each frame |
| Scenarios.BatchPersistsRefusedUpgrade | node/src/node.rs:1143-1165 | such a run: suite 1 filed, suite 2 refused by the quota, mark 1 in the one journal and 2 in the other |
| Journaling.EffectAsks | node/src/node.rs:913-931 | an operation that asks for no checkpoint has changed nothing the journal keeps in step |
| Journaling.AsksForChange | node/src/node.rs:913-931 | an ack, a tick, a directory and an init ask for a checkpoint only if they changed something or opened a session, clock and contacts never |
| Journaling.SavedExactly | node/src/node.rs:640-646 | a checkpoint outside a batch is one save, which leaves the snapshot or, failing, the journal as it was |
| Journaling.RestorableExactly | node/src/node.rs:332-379 | a journal is refused whole exactly for an unknown tag, an undecodable or foreign entry, or a mark of an unknown suite |
| Journaling.RestartForgets | node/src/node.rs:266-316 | no restart brings back contacts and learnt keys, what was held for reading, or the clock |
| Journaling.SnapshotRestorable | node/src/journal.rs:142-181 | the snapshot of a reachable state is taken back exactly when every queued id is the address of what was sealed under it |
| Journaling.RestartFidelity | node/src/node.rs:332-379 | a rebuilt node has every entry up to path and onion, the dedup ids in order from the same senders, the mark of every accepted contact, every directory, and the same admission gate |
| Journaling.RestartResumes | node/src/node.rs:332-379 | the journal of an orderly run restores queue, dedup set and directories; restored ids are recognised exactly within the window of the bare clock |
| Journaling.HeldIsTakenAgain | node/src/node.rs:332-379 | after a restart, 20 days past the bare clock, a MOTE that is still held is accepted again from anybody it is welcome from |
| Scenarios.LetterTakenTwice | node/src/node.rs:332-379 | such a run: one letter, accepted before the restart and after it |
| Journaling.ForeignIdBlocksRestart | node/src/node.rs:725-736 | a dispatched envelope whose id is not the address of its ciphertext makes the next restart fail |
| Journaling.GenuineRestarts | node/src/journal.rs:142-181 | while every submitted envelope is genuine, every snapshot is taken back |
| Journaling.KillForgetsBatch | node/src/node.rs:1016-1047 | a kill inside a poll batch brings the node back as the journal had it before the batch |
| Scenarios.KillLosesFloor | node/src/node.rs:1016-1047 | such a run: after a kill inside the batch that accepted suite 2 from a contact, suite 1 is accepted from it |
| EngineOk.RunKeeps | node/src/node.rs:725-1009 | in every run, crashes and failing saves included, every queued entry is dispatched, sealed under its own id and stamped only when terminal, the dedup set is within its bounds, and marks and directories are genuine |
| Outbound.MachineHistory | node/src/outbound.rs:239-272 | under any events in any order the message never changes, terminal states are never left, and acked, expired and delivered late each need their event |
| Outbound.EventExactly | node/src/outbound.rs:239-272 | the states each event is taken in, where it leads, and that it changes nothing but state, failures counted and the late mark |
| Outbound.PersistedFields | node/src/journal.rs:125-141 | the tags and fields an entry is persisted with |
| Outbound.DriverNeverFails | node/src/outbound.rs:239-277 | the transitions the node takes for granted are defined wherever it takes them |
| Outbound.DeadlineIsEarliest | node/src/outbound.rs:211-235 | a message is overdue exactly once 72 hours, its own expiry or the end of the clock's range is reached |
| Outbound.IntoEntryFailsClosed | node/src/journal.rs:142-181 | a persisted entry is taken back exactly when its tags are known and its id is the address of its sealed ciphertext |
| Outbound.IntoEntryOfFromEntry | node/src/journal.rs:125-181 | restoring a persisted entry gives it back without path and onion, and is refused exactly for a foreign id |
| NodeEngine.NodeEngine.Poll | node/src/node.rs:1016-1047 | the batch loop computes the run of its frames between begin and end, and reports their dispositions in order |
| NodeEngine.NodeEngine.ReceiveMote | node/src/node.rs:1090-1190 | the pipeline computes its disposition and new state |
| NodeEngine.NodeEngine.Accept | node/src/node.rs:1197-1249 | filing the payload or surfacing its rendering, pinning, remembering, metering and acking, in that order, amount to the one state change Receiving.ReceiveMoteCases describes, and one checkpoint |
| NodeEngine.NodeEngine.ReceiveAck | node/src/node.rs:1063-1085 | an ack advances the entry of its sender only and is made durable only when it changed something |
| NodeEngine.NodeEngine.DispatchSealed | node/src/node.rs:725-736 | the sealed envelope is tracked, sent and durable on return |
| NodeEngine.NodeEngine.Send | node/src/node.rs:753-863 | a send without key, or over an unusable path or with too large a payload, is refused and changes nothing |
| NodeEngine.NodeEngine.RetryPending | node/src/node.rs:877-915 | removing and reinserting entry by entry amounts to one retry of every waiting entry; the count is that of the entries handed over |
| NodeEngine.NodeEngine.TickDeadlines | node/src/node.rs:920-1009 | expiry and collection in place compute the tick, report what expired, and checkpoint exactly when the queue changed |
| NodeEngine.NodeEngine.Checkpoint | node/src/node.rs:640-646 | inside a batch only a mark, outside a snapshot file that holds the tables of the live state |
| NodeEngine.NodeEngine.SnapshotFile | node/src/node.rs:610-630 | the lists written hold the live tables, whatever order the hash maps are listed in |
| NodeEngine.NodeEngine.WithJournal | node/src/node.rs:332-379 | reading the lists back, in any order, rebuilds exactly the tables, and fails exactly when a part is corrupt |
| NodeEngine.NodeEngine.FirstBoot | node/src/node.rs:318-331 | over an empty journal the object starts valid, in the state every run starts from |
| NodeEngine.NodeEngine.PinSuiteFloor | node/src/node.rs:1652-1656 | the floor is ratcheted up and durable |
| NodeEngine.NodeEngine.IngestMixDirectory | node/src/node.rs:1666-1670 | an accepted directory is retained and durable, a refused one changes nothing |
| NodeEngine.NodeEngine.DeniableAccept | node/src/node.rs:1551-1580 | the gate is asked before a prekey is touched, and only an accepted init is made durable |
| JournalFile.EntriesOfListing | node/src/journal.rs:142-181 | a listed queue reads back as the table it lists, or is refused when one entry is |
| Dedup.SeenSet.Record | node/src/seen.rs:81-90 | recording prunes, inserts or refreshes, and evicts over the cap |
| Dedup.SeenSet.PersistPairs | node/src/seen.rs:111-116 | the pairs persisted are the entries in order |
| Seen.RecordOk | node/src/seen.rs:81-90 | recording keeps order and table in agreement, each id once, within the cap |
| Seen.RecordKeeps | node/src/seen.rs:129-155 | another id recorded within the window moves an entry at most one place closer to eviction |
| Seen.RecordEnters | node/src/seen.rs:81-90 | a new id goes in as the youngest |
| Seen.RecordForgets | node/src/seen.rs:123-155 | under a clock that only advances, recording leaves exactly the ids in their window and the new one, short of the cap, and never one out of its window |
| Seen.RestoreOfPairs | node/src/seen.rs:111-121 | restoring what was persisted keeps ids, order and senders; only the stamps are new |
| Seen.RestoredReads | node/src/seen.rs:93-121 | after a restore an id is a duplicate exactly within 20 days of the restore |
| Onion.LadderIsSmallest | node/src/onion.rs:234-238 | the cell count is the smallest sufficient rung, and none exists above the top |
| Onion.PeelOfWrapCell | node/src/onion.rs:152-228 | peeling hop by hop, with secrets recomputed from the re-randomised element, leaves the commands then zeros, and the fragment |
| Onion.CellLength | node/src/onion.rs:190-228 | every cell has the one length |
| Onion.ByteXorBits | node/src/onion.rs:264-279 | octets are combined bit by bit, one where exactly one of the two is, so either determines the other |
| Onion.LayerIsXor | node/src/onion.rs:264-279 | a layer flips exactly the bits set in the hashes of key, tag and block number, end to end |
| Onion.LayerTwice | node/src/onion.rs:264-279 | hence a keystream layer undoes itself |
| OnionShape.CellsAreMasked | node/src/onion.rs:152-228 | every cell of a wrap is, bit by bit, the routing commands and one slice of the payload under one keystream per hop; command j carries hop j's delay, the exit's mark exactly at the exit and the hash of the next hop's key; secrets and elements follow from the first, and the tag from the first secret and the routing as sent |
| OnionLossless.WrapIsLossless | node/src/onion.rs:140-230 | cells arriving in any order with duplicates yield exactly the wrapped payload with the arrival that completes the set, and nothing before |
| OnionLossless.OpenOfWrap | node/src/onion.rs:122-128 | the bytes on the wire open to the payload |
| OnionLossless.WrapFailsClosed | node/src/onion.rs:140-152 | wrapping succeeds exactly for 3 to 5 hops and a payload within the top rung |
| OnionLossless.EqualTagsCollide | node/src/onion.rs:110-119 | wraps under two seeds share a cell's group element only by a hash collision, which is exhibited |
| OnionWrapper.KeystreamXor | node/src/onion.rs:264-279 | the block loop flips in the buffer exactly the bits set in the keystream |
| OnionWrapper.WrapOnion | node/src/onion.rs:140-230 | the loops over fragments, hops and layers compute the wrap, whose cells OnionShape.CellsAreMasked describes |
| Reassembly.AcceptFragment | node/src/reassembly.rs:166-275 | a fragment that leaves some missing is kept once, the one that completes the set releases the payload |
| Reassembly.RejectedExactly | node/src/reassembly.rs:176-215 | a fragment is rejected exactly when malformed or at odds with those held, and of two for one place the first stays |
| Reassembly.CompleteExactly | node/src/reassembly.rs:250-275 | a message is whole exactly when every place is filled, and is the fragments in order up to its length |
| RateGate.AdmitCredit | node/src/deniable.rs:431-463 | an admission costs a unit of global and of its source's credit, a throttled call nothing, pruning included |
| RateGate.RefillTwice | node/src/deniable.rs:348-361 | refilling in two steps is refilling once: looking at a bucket loses no remainder |
| RateGate.RefillExactly | node/src/deniable.rs:348-361 | one token for each whole interval, up to the burst, and the remainder kept |
| RateGate.AdmitsExactly | node/src/deniable.rs:431-448 | a call gets in exactly while one token is left for all and one for its source |
| RateGate.ShippedCredit | node/src/deniable.rs:385-398 | as shipped: four at once and one each 30 seconds in all, two and one each minute for one source |
| RateGate.TableExactly | node/src/deniable.rs:441-463 | up to 1024 sources are kept as they are, above that exactly the buckets refilled to full go |
| RateGate.PrunedCredit | node/src/deniable.rs:454-463 | pruning leaves the global credit alone and never raises a source's |
| GateRuns.OpenedBound | node/src/node.rs:1565-1580 | in any interval of any run, restarts included, sessions opened number at most a burst and one per interval begun under the policy in force, in all and per source |
| GateRuns.AdmittedBound | node/src/deniable.rs:431-463 | the same bound holds of every admission while each restart finds the live gate in the journal, failing saves included |
| GateRuns.RestartRefundsFailedInit | node/src/node.rs:1575-1579 | across a restart it does not: a concrete run exceeds it |
| GateRuns.AllOpenedAgree | node/src/node.rs:1575-1579 | both counts agree when every admitted init opens its session |
| GateRuns.CreditIsReached | node/src/deniable.rs:431-463 | the credit of a gate is what sources enough are in fact admitted for, calling as tokens arrive |
| GateRuns.RestartKeepsBound | node/src/node.rs:1565-1580 | after a restart no run of inits is admitted beyond the credit of the gate before it if and only if the journalled gate has no more credit or admits nobody |
| GateRuns.PoolSurvivesFlood | node/src/deniable.rs:385-398 | with the shipped limits no 90 seconds of flooding opens as many sessions as a bundle has prekeys |
| PrekeyBudget.PrekeyBound | node/src/node.rs:1551-1580 | the bound for the prekeys a whole node spends, restarts and earlier reconfigurations included, while what opens a session is saved |
| PrekeyBudget.PassedBound | node/src/node.rs:1551-1580 | the bound for every init that passes the gate, failing saves included, while each restart finds the live gate in the journal |
| PrekeyBudget.OrderlyBudget | node/src/node.rs:1551-1590 | the prekey bound for every orderly run from first boot, under whatever policy was configured last |
| PrekeyBudget.GateStep | node/src/node.rs:1551-1590 | each operation, in any state of node and journal, moves the live and the journalled gate as calls, reconfigurations, checkpoints and restarts do |
| Admission.TokenBucket.Refill | node/src/deniable.rs:348-361 | in place: whole intervals are credited, saturating, and the remainder stays |
| Admission.DeniableAdmission.Admit | node/src/deniable.rs:431-448 | in place: both buckets are charged or neither, then full ones are forgotten above the threshold |
| Admission.DeniableAdmission.Prune | node/src/deniable.rs:454-460 | in place: exactly the refilled-to-full buckets go |
| Admission.RestoreOfSnapshot | node/src/deniable.rs:467-488 | a gate restored from its snapshot is the same gate |
| Throttle.GuessBound | node/src/jmap_api.rs:108-137 | wrong credentials that come while the gate is not shut number in an interval D at most 10 (D / window + 2) - 1, below one window at most 19, and the counter never exceeds 10 |
| Throttle.AnswerExactly | node/src/jmap_api.rs:270-282 | in any state: refused unread exactly while ten failures of a window begun less than a minute ago count, else let through exactly if the credential is right, which forgets the failures, and turned away exactly if it is wrong, which counts one more |
| Throttle.RetryAfterIsHonest | node/src/jmap_api.rs:112-122 | a shut gate stays shut for its window, and waiting the advertised time reopens it |
| Throttle.AuthThrottle.Gate | node/src/jmap_api.rs:273-282 | in place: answers and counts as Throttle.AnswerExactly says, the credential unread while throttled |
| MixDirectory.MarkIsMaximum | node/src/mixdir.rs:100-111 | after any offers an authority's mark is the lexicographic maximum of its verified ones |
| MixDirectory.OfferExactly | node/src/mixdir.rs:100-111 | an offer is refused exactly when unverified or not newer, by epoch and then by version; otherwise it takes its authority's place and no other |
| MixDirectory.MarksIgnoreOrder | node/src/mixdir.rs:100-111 | the marks depend neither on the order of the offers nor on repetitions |
| MixDirectory.RetainedIgnoresOrder | node/src/mixdir.rs:100-111 | without equivocation the retained directories do not either |
| MixDirectory.EquivocationKeepsFirst | node/src/mixdir.rs:100-111 | with it they do |
| MixDirectory.ReingestRestores | node/src/node.rs:362-372 | re-ingesting the retained directories in any order never fails and loses nothing |
| MixDirectory.MixDirectoryTracker.Ingest | node/src/mixdir.rs:114-117 | in place: malformed, unverified and stale bytes change nothing |
| Alias.Base32Encode | node/src/naming.rs:59-77 | the accumulator loop spells the regrouped bits of its input, unpadded |
| Alias.Base32Decode | node/src/naming.rs:81-104 | it succeeds exactly on the spellings, in either case, of the encodings, and inverts them |
| Alias.Base32Injective | node/src/naming.rs:59-77 | no two inputs are spelled alike |
| Alias.IkFromGatewayAlias | node/src/naming.rs:129-142 | a local-part names a 32-octet key exactly when it is that key's alias up to case |
| Alias.AliasFitsLocalPart | node/src/naming.rs:120-122 | a key's alias is 59 octets behind its prefix, within the 64 of section 4.5.3.1.1 of RFC 5321 |
| Alias.AlphabetIs | node/src/naming.rs:59-77 | the letters are a to z, then 2 to 7 |
| GroupFrame.DecodeOfEncode | node/src/group.rs:49-74 | decoding undoes encoding exactly for group ids whose length fits its field |
| GroupFrame.EncodeOfDecode | node/src/group.rs:49-74 | whatever decodes is the encoding of what it decodes to |
| GroupFrame.FrameLayout | node/src/group.rs:49-57 | octet by octet: kind, epoch and length most significant first, then the id and the body |
| GroupFrame.WriteFrame | node/src/group.rs:49-57 | the buffer holds the fields in order |
| Sanitizer.SanitizedIsSafe | client/js/ui.js:249-269 | below the root every element bears one of the 19 names and carries nothing but, on a link, targets that begin with http:, https: or mailto: up to case, and the forced pair |
| Sanitizer.SanitizedKeepsAllowed | client/js/ui.js:249-269 | nothing allowed is lost: every element of the 19 names stays an element in its place, a link keeps exactly its targets of those three schemes, any other element leaves its text |
| Sanitizer.OneHref | client/js/ui.js:260-264 | of attribute names as a parser makes them at most one link target is left |
| Sanitizer.SanitizedKeepsText | client/js/ui.js:249-269 | the text content does not change |
| Sanitizer.SanitizedTwice | client/js/ui.js:249-269 | a second pass changes nothing |
| Sanitizer.SanitizeNode | client/js/ui.js:249-269 | the recursive walk over copies of children and attributes computes the sanitized tree, which those two lemmas describe |
| Filters.OrderDoesNotMatter | client/js/store.js:468-484 | rule lists with the same rules in any order leave the same folder, flags and label set |
| Filters.AfterIsOutcome | client/js/store.js:468-484 | the outcome without an order: flags set, labels added, spam beats the archive |
| Filters.FilteredExactly | client/js/store.js:466-484 | trash, sent mail and drafts are left alone, every other thread has that outcome |
| Filters.MatchesExactly | client/js/store.js:449-463 | a rule matches exactly when enabled, with a criterion, and every criterion it has met: an address that holds its text or fits it, a subject that holds it |
| Filters.GlobExactly | client/js/store.js:457-461 | a text fits a pattern exactly when some text within a line in the place of each star makes the one into the other |
| Filters.OnePassSuffices | client/js/store.js:468-484 | a second pass changes and counts nothing |
| Filters.CountedTells | client/js/store.js:466-484 | the count of a thread is zero exactly when nothing changed |
| Filters.CountDependsOnOrder | client/js/store.js:466-484 | for any inbox thread that both an archive and a spam rule match, the two orders count 2 and 1 |
| Filters.GlobWithoutStar | client/js/store.js:457-461 | without a star the sender pattern matches itself only |
| Filters.StarlessIsSubstring | client/js/store.js:452-463 | a rule without a star asks exactly whether some sender's address contains its text |
| Filters.ApplyFilters | client/js/store.js:468-484 | in place over any list of threads, repetitions included, each ends as its rules say |
| Compose.SplitOfJoin | client/js/compose.js:280 | splitting undoes the comma join of any parsed recipients, order and repetitions included |
| Compose.SplitIsClean | client/js/compose.js:280 | whatever was typed, the parsed recipients survive that round trip |
| Compose.SplitExactly | client/js/compose.js:280 | what is typed is split at each of the three commas and nowhere else, blanks around a name taken off, empty ones left out |
| Compose.NobodyLostOrRepeated | client/js/compose.js:350-393 | for any pattern of answers: no message of the mailbox is lost or repeated; recipients recorded as sent plus those of the kept draft are the typed ones as a multiset, the draft holding the failed attempts in order; and when nothing went out a draft alone in its thread holds all of them |
| Compose.RecordedOnce | client/js/compose.js:384-390 | as multisets, the messages of the mailbox are those before and the record |
| Compose.CommittedFiled | client/js/compose.js:350-393 | the record, as plain text with the receipts and to exactly those the node accepted for, stands at the end of the first thread replied to, read now, or in a new sent thread in front; the draft of exactly those refused in front; a draft nothing went out of in its own thread; and no other thread is touched |
| Compose.CommittedKeepsIds | client/js/compose.js:262-276 | every new thread has an id of its own |
| Compose.UpsertedOnce | client/js/compose.js:264-276 | saving a draft adds one message, alone in its thread, and drops only what the same draft held before |
| Compose.CrashesExactly | client/js/compose.js:373-378 | the call rejects exactly for no attachments and no recipients |
| Compose.CommitSendReal | client/js/compose.js:350-405 | the mutations of mailbox, threads and drafts compute the outcome those lemmas describe |

## Left out

- Cryptography (sealing, signatures, hashing, X3DH, the double ratchet, MLS, Argon2): outcomes and functions stand
  for it; its source is not part of this model.
- Delivery.Send: failures of the sealing crate itself; a draft reaches the model sealed.
- Delivery.Tick: the pruning of the reassembly cache and of the PoW bookkeeping that goes with it.
- Outside.up: one answer per peer and operation; a peer that comes and goes within one retry pass is not modelled.
- A refused restart: in the source it leaves no node; the model lets the node go on from where it was, which covers the
  runs that end there and more.  Repair of a corrupt journal is not modelled.
- JournalFile: the JSON text and the atomic rename of the file; a save stores the lists or leaves the old ones.
- Delivery.Verdict: the PoW budget and the storage quota answer per frame from outside; their tables are not modelled.
- Delivery.Live: the mail store keeps payloads of the inbox and senders of the requests area; mailbox ids, flags and
  group sessions, which take the buffered group messages, are not modelled.
- PrekeyBudget.PrekeyBound: no reseeding by `configure_deniable_accept_gate` inside the interval itself, since it
  refills the buckets by design, and the inits are seen under a clock that does not go back.
- Once.AcceptedOnce: orderly runs only, as for the next three; the kill inside a poll batch above is what is excluded.
- SuiteFloor.NoDowngrade: orderly runs only.
- SuiteFloor.RunFloors: orderly runs only.
- Sender.NoReturn: orderly runs only.
- Once.HeldIsNotAccepted: excludes a kill inside a poll batch, where the ack may have left before the save.
- Reassembly.AcceptFragment: one slot of one message; message ids, the caps per connection and in all, eviction and the
  timeout are not modelled, so neither is a message given up for one of them.
- Onion: the order of the fields in a routing command and a fragment header, fixed outside the repository; lengths
  are those of the code.
- Admission.DeniableAdmission: the table owns its buckets, taken out, worked on and written back; sharing of a bucket
  object is not modelled, and the source has none.
- Sanitizer.Element: an element owns its children, as a DOM node with one parent does; parsing and serialization of
  HTML are left to the browser.
- Filters.Text: trimming and lower-casing are functions given from outside.
- Compose: message ids, times, trust chips, scheduling fields and toasts; thread ids come from a counter.
- Naming by DNS, key transparency or name chain; HTTP, sockets, command line and configuration; keystore files.
- Views, modals, service worker, simulation mode and the consoles of the client.
