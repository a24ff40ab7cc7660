# Vitrum witness: a verified model

Vitrum is a transparency-log witness that runs on a small board with a removable storage card. Its
one promise is that it never cosigns two conflicting views of a log, not even across power cuts,
write errors and rollback of the card. This project models the three layers that carry the promise
and proves it over every run.

**The machine.** `System.dfy` is one state machine. Its state is the two slots of the card and the
anchor (which survive power loss), and the store, the sequencer, the requests in flight and the
provisioning server (which do not). Every mutex region is one step; the signer and epoch reads that
`AddCheckpoint` makes outside the mutex are steps of their own, and so are the two halves of a
signer change, so a submission may see a new signer with an old epoch or the reverse. Slot writes
complete, tear, or fail with the contents kept or fully written; anchor writes are acknowledged or
fail with either outcome; power may go at any point; slots may be replaced at any time by garbage or
by any blob ever sealed. A run is any finite sequence of events from a factory-fresh unit.
`Invariants.dfy` says what every step keeps, `PreservationServing.dfy` and `Preservation.dfy` prove
it, `Theorems.dfy`, `Ordering.dfy`, `CrashOnly.dfy` and `Progress.dfy` draw the consequences, and
`Scenarios.dfy` builds the runs that show where a promise ends. `Verdicts.dfy` says what every client
is told, in the protocol's own numbers, and `KeyLife.dfy` follows a key from installation to its
destruction.

**The bytes.** `Payload.dfy`, `Slots.dfy`, `Anchors.dfy` and `Wire.dfy` model the codecs, the slot
arithmetic in int64, the sector record and the request format; `Places.dfy`, `Grammar.dfy`, `Layout.dfy`
and `Levels.dfy` say what these formats and the tree hash are without the codecs: digits by place,
the body as a grammar, base64 bit by bit, records byte by byte, the tree level by level. `Store.dfy`, `Witness.dfy` and
`Provision.dfy` model the objects that are updated in place, as classes whose methods are tied to
the functions the machine is made of. `Refinement.dfy` and `PassRefinement.dfy` close the gap: every
`PutBatch` and every `Open` on the bytes of the card, every order of the signing loop, and a whole
pass of the witness object - rotate, sign, commit, retire - is a run of the machine.

**Words.** A checkpoint is *released* when `AddCheckpoint` returns 200 for it. A *view* is a size and
a root hash. `Follows(prev, next)` is the rule of the consistency check: equal views, anything valid
after the empty view, or a step with a proof that a client sent and that passes section 2.1.2 of
RFC 6962. `Reaches(a, b)` means that b is a or lies a chain of such steps after it.

**Assumptions, all explicit.** `ParseCheckpoint` is a deterministic partial function (`Env.parse`).
The tree hash is any function, collisions included, so the results about roots carry an exception,
and the exception is one explicit collision: `Merkle.PartingOf` computes, from a checked proof and
the leaves, the first node where the two part, and only a collision of the node hash at those two
inputs is excused. The proofs concerned are those the clients of the run sent and the old roots are
committed views, so finitely many named pairs are in question; an honest proof never parts from its
tree, whatever the hash (`Merkle.HonestProofNeverParts`). The set of proofs is a parameter of the
run; a request with a proof outside it does not occur, and every set that covers the requests gives
the same run (`Theorems.OnlySentProofsMatter`). The cipher opens what it sealed (`Slots.Lawful`); a
new seal has a digest no earlier blob has, and what a slot holds opens only if it was sealed (the
events of the machine, and `Refinement.SealIsIdeal`). The latter follows from a cipher that opens only
what it sealed, under the nonce and generation it was sealed with (`Layout.OnlySavedBlobsLoad`,
`Layout.FailedSlotIsAuthentic`). A key that the provisioning server installs is
new key material.

**Where a promise fails, and exactly when.**
- `slotLBA` adds in int64. An aligned offset just below 2^63 wraps and is accepted on any device
  (`Slots.OverflowIsAccepted`); an accepted slot lies inside the device exactly when its end is below
  2^63 (`Slots.SlotInsideExactly`). The firmware's offset is 16 MiB.
- The 32-bit build of `decode` panics on exactly the payloads that announce a note of 2^31 bytes or
  more (`Payload.PanicExactly`); no encoded payload does (`Payload.PayloadRoundTrip`).
- Every retry fits the 63-line proof limit if and only if the log has at most 2^62 leaves
  (`Retry.RetryFitsExactly`); for every larger log one retry is refused (`Retry.RetryFailsBeyond`).
- The rollback analysis says a different authentic blob of the pinned generation is refused. With the
  pinned blob still in its slot, the boot halts exactly when that other blob sits in the slot that
  is read first; otherwise it serves the pinned state, or re-anchors one-ahead contents
  (`CrashOnly.OtherSlotExactly`). A torn commit, a reboot and a second commit produce such a pair, and
  the halt is reached (`Scenarios.TwinHalts`).
- Releases happen when waiting requests wake, so their order in time is not the order of commits:
  `Scenarios.ReleasesCanSwap` is a run that releases size 2 before size 1. What holds is that any two
  releases of an origin are comparable (`Ordering.ReleasesComparable`), and that a request enqueued
  after a release was handed out, joined requests included, is only ever granted that view or a
  checked extension of it (`Ordering.LaterRequestsFollow`).
- Between the anchor write and publication RAM is one generation behind the anchor, and reads of RAM
  do not take the store's mutex. Agreement holds exactly outside that window
  (`Theorems.RamAgreesWithAnchor`).
- A signer change turns a pending entry away, but the answer need not be 503: if another signature
  of its batch or the commit fails, it is 500. It is never a 200 (`Theorems.StaleIsNeverGranted`). An
  entry whose batch was committed before the change is still answered 200 when it is retired after
  it (`Theorems.RetirementAnswersAll`).

## Model

| member | source | states |
|---|---|---|
| `Theorems.NoSplitView` | internal/witness/witness.go:399-449 | In every run, all checkpoints released for one origin lie on one chain of committed views, each equal to its predecessor, opening the log, or checked against it. |
| `Theorems.SameSizeSameHash` | internal/witness/witness.go:424-444 | Two releases of one size for one origin are the same checkpoint, in any run. |
| `Theorems.ReleasedRootsArePrefixes` | internal/witness/witness.go:424-444 | If a released root is the tree hash of a leaf sequence, every smaller or equal released root of that origin is the tree hash of its prefix, sizes 0 and equal included, unless the node hash collides at the two named inputs where a proof sent in the run and passing between consecutive committed views parts from the tree. |
| `Theorems.OnlySentProofsMatter` | internal/witness/witness.go:319-345 | Every set of proofs that covers the requests of a run gives the same run, so naming the proofs loses no run. |
| `Ordering.LaterRequestsFollow` | internal/witness/witness.go:385-396 | If release i had been handed out when the request of release j was enqueued, by admission or by joining, then j is the view of i or a checked extension of it, in every run. |
| `Ordering.EnqueuedAfterRelease` | internal/witness/witness.go:399-449 | At the moment a request is admitted or joins a pending entry, the candidate it waits for extends every release of its origin so far. |
| `Ordering.ReleasesComparable` | internal/witness/witness.go:487-503 | Any two releases of one origin are comparable, whenever they were handed out. |
| `Scenarios.LateWaiter` | internal/witness/witness.go:394-396 | Any two successive requests for a log can be released in reverse order, both enqueued before either release. |
| `Scenarios.ReleasesCanSwap` | internal/witness/witness.go:394-396 | A concrete run releases size 2 of a log before size 1. |
| `Theorems.BlobLineage` | internal/state/store.go:204-240 | Every blob ever sealed is at most one generation ahead of the anchor, a one-ahead blob extends the pinned state, the pinned digest selects one blob, and every payload re-admits. |
| `Theorems.TwoAheadIsUnreachable` | internal/state/store.go:100-104 | No boot ever reads a blob two or more generations ahead of the anchor, so that branch is dead without forgery. |
| `Theorems.OneAheadExtendsReleases` | internal/state/store.go:86-98 | A blob that `Open` may adopt ahead of the anchor holds, for every release ever made, that checkpoint or a checked extension of it. |
| `Theorems.ReleaseAfterCommit` | internal/witness/witness.go:385-396 | When a 200 is delivered, the anchor already binds a sealed blob that holds the origin at the released view or a checked extension; the answer is a signature by the candidate's signer over the exact text submitted, joined waiters included. |
| `Theorems.RamAgreesWithAnchor` | internal/state/store.go:226-248 | A reachable store that is not halted agrees with its anchor - same generation, and RAM is exactly the pinned payload, or all is empty and unbound - if and only if it is not between anchoring and publication; there the anchor is one ahead, pins RAM overlaid with the batch, and publication restores agreement. |
| `Theorems.HaltedIsFrozen` | internal/state/store.go:189-202 | No step of a halted unit changes slots, anchor, RAM or generation. |
| `Theorems.HaltedForGood` | internal/state/store.go:147-153 | Once halted, slots, anchor, RAM and generation stay unchanged over any continuation of the boot. |
| `Theorems.PendingStaysLegal` | internal/witness/witness.go:398-449 | In every reachable state the two pools have disjoint origins and at most 256 entries, and every pending candidate may still follow the store's present view. |
| `Verdicts.PendingVerdict` | internal/witness/witness.go:402-407 | A request for an origin with a pending entry, in either pool, joins that entry if its candidate is the pending one and otherwise draws 409 with the committed size. |
| `Verdicts.FreshVerdict` | internal/witness/witness.go:408-448 | With nothing pending: 429 if and only if 256 origins wait, else 409 with the committed size if and only if the old size differs from it, else 422 with an empty body if and only if the rule of its case is broken, else admission. |
| `Verdicts.RepetitionJoins` | internal/witness/witness.go:451-456 | In every run, a client that repeats its pending request waits for the same entry, also while the batch is being sequenced. |
| `Verdicts.EnqueueAdmits` | internal/witness/witness.go:446-448 | In every run, an accepted request becomes a new entry of the current pool, stamped with the epoch of that moment, and its client waits for it. |
| `Theorems.AnsweredExactlyOnce` | internal/witness/witness.go:487-503 | A channel is closed exactly once, exactly when its entry has left the pools, with a final 200, 500 or 503; a visible 200 is in the anchored history under its own signed note. |
| `Theorems.RetirementAnswersAll` | internal/witness/witness.go:496-502 | Retiring a batch closes every channel in it once and changes no result. |
| `Theorems.FailedBatchGrantsNothing` | internal/witness/witness.go:510-563 | A batch that is counted as failed, at whatever stage, leaves no entry of it granted and RAM's states and generation unchanged. |
| `Verdicts.FailedBatchCode` | internal/witness/witness.go:510-563 | A batch that fails is answered with one code throughout: 503 if there was no signer, a halted store or nothing current to sign, 500 if a signature or the commit failed. |
| `Verdicts.CommittedBatchAnswers` | internal/witness/witness.go:524-563 | A batch that commits is answered 200 for exactly the origins it moves, with the signature of the note committed for them, and 503 for the rest. |
| `Verdicts.UnsignedPassTurnsAway` | internal/witness/witness.go:510-523 | From every reachable state between passes, without a signer or with a halted store, a pass over a non-empty pool answers 503 to each request, closes each channel once, counts one failed batch and leaves card, anchor and RAM unchanged. |
| `Verdicts.BrokenSignatureFailsAll` | internal/witness/witness.go:532-550 | If one signature that is due fails, the pass answers 500 to every request of the batch, closes each once, counts one failed batch and commits nothing. |
| `Verdicts.StopTurnsAway` | internal/witness/witness.go:572-580 | Stopping answers 503 to every pending request and closes each channel once. |
| `Verdicts.WaiterGetsResult` | internal/witness/witness.go:394-396 | A waiting request is woken exactly when its channel is closed, gets the result of its entry, and is a release exactly for a 200, with the text it sent and the signature of the entry. |
| `Theorems.SignaturesAreCurrent` | internal/witness/witness.go:510-532 | Every signature in every run is made with the installed, living key, for an entry admitted in the present epoch, in spite of the unlocked reads. |
| `Verdicts.SigningStep` | internal/witness/witness.go:524-545 | A step that signs is a turn of the signing loop, signs once, over the text of a batch entry, with the signer installed in that state and not destroyed, in the epoch the entry was admitted in. |
| `Theorems.EpochCountsSignerChanges` | internal/witness/witness.go:152-169 | Signer and epoch change only in the two halves of a signer change, and every change, reinstalling the same key included, is followed by one epoch increment. |
| `Theorems.LockWaitsForEpoch` | internal/witness/witness.go:152-169 | No batch is being signed or committed while a signer change is half done. |
| `Theorems.PendingDiesWithItsSigner` | internal/witness/witness.go:527-531 | The signing turn of an entry admitted before a signer change makes no signature and leaves 503, even if the same signer is back. |
| `Theorems.StaleIsNeverGranted` | internal/witness/witness.go:524-564 | An ungranted entry admitted before a signer change is never granted in any continuation of the boot; once its channel is closed the answer is 500 or 503. |
| `Theorems.DestroyedKeyNeverSigns` | internal/provision/server.go:273-296 | A destroyed key stays destroyed and makes none of the signatures of the next step. |
| `Theorems.DestroyedForGood` | internal/provision/server.go:273-296 | A key zeroed by rotation or deprovisioning makes no signature in any continuation of the boot. |
| `KeyLife.RotatedKeyIsGone` | internal/provision/server.go:273-279 | From every reachable state in which a key change may start, rotation installs the new key in a new epoch and destroys the old one, which signs nothing in any continuation of the boot. |
| `KeyLife.DeprovisionedKeyIsGone` | internal/provision/server.go:287-296 | Likewise deprovisioning leaves no signer, starts a new epoch and destroys the key for good. |
| `KeyLife.SwapEndsInDestruction` | internal/provision/server.go:273-279 | Whatever happens between the swap of the signer and the destruction, the key destroyed is exactly the one the server owned, and it then owns the new one. |
| `KeyLife.SameKeyIsANewInstallation` | internal/witness/witness.go:152-169 | A-B-A: putting the same key back restores the signer and not the epoch, and no request that was pending without a grant gets one for the rest of the boot. |
| `KeyLife.InstallSimulates` | internal/provision/server.go:273-279 | Provisioning on the server object is that run of the machine, and every key the machine counts as destroyed is a slice of zeros. |
| `KeyLife.DeprovisionSimulates` | internal/provision/server.go:287-296 | So is deprovisioning. |
| `Theorems.CountersConserve` | internal/witness/witness.go:505-564 | Between passes, generation minus boot generation is the number of committed batches, committed plus failed is the number of non-empty pools sequenced, each commit of a store that is not halted costs one anchor record, and the uint32 generation never wraps. |
| `Ordering.HaltedLagsByOne` | internal/state/store.go:226-248 | In every boot that did not begin halted, halted since or not, RAM holds the payload of its own generation, that generation counts the commits since boot, and the anchor is there or exactly one ahead. |
| `Ordering.HaltingStep` | internal/state/store.go:226-238 | When a store halts, its anchor is one ahead if and only if the halting step was an anchor write that landed and reported an error. |
| `Preservation.StepKeeps` | internal/state/store.go:41-249 | Every event of the machine keeps the joint invariant of card, anchor, RAM, pools, channels, keys, counters and history. |
| `Preservation.RunKeeps` | internal/witness/witness.go:352-580 | Every reachable state satisfies that invariant. |
| `Progress.FaultlessPassServes` | internal/witness/witness.go:487-564 | From every reachable state between passes with a serving store, an installed signer, generations left and at least one current pending request, a pass without faults closes each pending channel once, grants and commits exactly the current requests, answers 503 to those of an earlier signer, and leaves other entries and origins alone. |
| `Progress.StalePassTurnsAway` | internal/witness/witness.go:526-563 | If no pending request is current, the pass answers 503 to each, closes each channel once, counts one failed batch, and leaves card, anchor and RAM unchanged. |
| `CrashOnly.CrashRunKeeps` | internal/state/blob.go:83-121 | Without tampering, every blob sits in the slot of its parity, the pinned blob is in its slot, and a blob being anchored is already in its own. |
| `CrashOnly.CrashedUnitRecovers` | internal/state/ROLLBACK.md:64-95 | After any crash or soft failure at any point of any commit, the next boot with working reads is not halted and serves exactly the pinned state, or the interrupted one-ahead commit, which it anchors. |
| `CrashOnly.InterruptedCommit` | internal/state/store.go:214-224 | Outcome by outcome: once the slot write landed the next boot serves the new generation; after a torn write it serves the old one. |
| `CrashOnly.UntouchedSlotDecides` | internal/state/store.go:214-224 | If a failed slot write left the slot as it was, the next boot serves what was there if that is one ahead, and the pinned state otherwise. |
| `CrashOnly.AnchoringSurvives` | internal/state/store.go:226-238 | Whatever happens to the anchor write, the next boot serves the batch whose blob is on the card. |
| `CrashOnly.OtherSlotExactly` | internal/state/blob.go:149-158 | With the pinned blob in place and arbitrary authentic contents in the other slot, the boot halts if and only if that slot is read first and holds a different blob of the pinned generation; otherwise it serves one-ahead contents, having anchored them, or else the pinned state. |
| `CrashOnly.BootServesExactly` | internal/state/store.go:58-113 | Whatever was done to the card, a boot serves if and only if the newest valid blob is the pinned one, or there is none and nothing was committed, or it is one ahead and anchoring it is acknowledged; it serves exactly that blob, and every other boot is halted, with nothing in RAM unless the anchor write of a one-ahead blob failed. |
| `CrashOnly.NewestIs` | internal/state/blob.go:146-164 | The newest of two slots is a valid one that the other does not exceed; the first wins ties. |
| `Scenarios.TwinBlobs` | internal/state/store.go:204-224 | A torn commit, a reboot and the same commit again leave two authentic blobs of one generation, of which the anchor pins the second. |
| `Scenarios.TwinHalts` | internal/state/store.go:75-78 | A concrete run in which the lost twin, put into the slot that is read first, halts the next boot although the pinned blob is in place. |
| `Refinement.PutBatchSimulates` | internal/state/store.go:189-249 | Every `PutBatch` on the bytes, with any fault, is a run of the machine that the store object mirrors before and after, given the ideal seal. |
| `Refinement.PutRun` | internal/state/store.go:193-248 | Every ending of `PutBatch`, on what the store shows, is a run of the machine with exactly the result for the witness that the ending has. |
| `PassRefinement.PassSimulates` | internal/witness/witness.go:487-564 | A whole pass of the witness object with any faults is a run of the machine: store, pools, entries, signer, epoch and counters mirror the state after the run as they did before. |
| `PassRefinement.SequenceRun` | internal/witness/witness.go:505-564 | However `sequencePool` ends, some run of the machine ends in the same witness, store and releases. |
| `Refinement.OpenSimulates` | internal/state/store.go:41-113 | Every `Open` on the bytes that does not panic is a boot of the machine, re-anchoring included; it panics exactly when a slot it reads does, and only on the 32-bit build. |
| `Refinement.SigningLoopIsARun` | internal/witness/witness.go:524-545 | In whatever order the loop visits the batch, the machine's signing steps reach the state the loop computes. |
| `Refinement.FailedWriteRun` | internal/state/store.go:216-224 | Whatever authentic contents a failed slot write leaves, some run of the machine leaves them. |
| `Refinement.CommitRun` | internal/state/store.go:214-248 | The slot write, the anchor write and publication, in that order, have the effect of one commit with the anchor's outcome. |
| `Chains.ChainIsMonotone` | internal/witness/witness.go:424-444 | Along a chain sizes never shrink, and equal sizes mean equal views. |
| `Chains.ChainMeansPrefixes` | internal/witness/witness.go:424-444 | If one view of a chain is the root of a leaf sequence, every earlier one is the root of its prefix, unless a checked proof of the chain clashes with it at a named pair of inputs. |
| `Chains.ViewsFormChain` | internal/state/store.go:204-240 | The committed views of an origin form a chain that ends in its present view. |
| `StoreModel.NextStatesExtend` | internal/state/store.go:204-212 | A batch of legal successors laid over the committed notes forgets no origin and moves each by a legal step. |
| `PreservationServing.JudgedFollows` | internal/witness/witness.go:412-444 | A candidate that passes the checks of `addToPool`, with old size at most its own, may follow the committed view. |
| `PreservationServing.PoolSurvivesCommit` | internal/witness/witness.go:487-503 | A commit of other origins, or of the candidates themselves, keeps every pending candidate legal. |
| `Merkle.CheckTreeSound` | internal/witness/witness.go:441-443 | A proof accepted against the root of a leaf sequence shows the old root to be the root of its prefix, unless the node hash collides at the one pair of inputs where the proof parts from the tree, a function of proof and leaves. |
| `Levels.TreeHashByLevels` | internal/witness/witness.go:441-443 | The tree hash of every non-empty log is what hashing level by level gives: neighbours together, left child first, an odd last node moving up unchanged. |
| `Merkle.HonestProofNeverParts` | cmd/vitrum/feed.go:83-88 | An honest proof never parts from its tree, whatever the hash. |
| `Merkle.HonestProofPasses` | cmd/vitrum/feed.go:83-88 | The proof of section 2.1.2 of RFC 6962 passes the check for every prefix. |
| `Merkle.ProofLengthBound` | internal/witness/witness.go:39-41 | A log of at most 2^e leaves needs at most e + 1 hashes. |
| `Merkle.LongProofExists` | internal/witness/witness.go:39-41 | Every log of more than 2^e leaves has a prefix that needs at least e + 2 hashes. |
| `Retry.FirstAttempt` | cmd/vitrum/feed.go:65-76 | A submission with old size 0 is admitted for an unknown log and otherwise draws a 409 whose body is the size the witness knows, in the form the parser reads. |
| `Places.DecimalByPlace` | internal/witness/witness.go:420-421 | The decimal text of a size is its digits by place, most significant first, without a leading zero and complete. |
| `Places.DecimalValueByPlace` | internal/witness/witness.go:312-312 | The value read from decimal text is the sum of digit times power of ten. |
| `Retry.RetryIsAdmitted` | cmd/vitrum/feed.go:77-94 | With room in the pool and nothing pending for the origin, resubmitting with that size and the honest proof is always admitted. |
| `Retry.RetryFitsTheWire` | internal/witness/witness.go:329-331 | For logs of up to 2^62 leaves that request prints to a body which parses back to it within 63 proof lines. |
| `Retry.RetryFailsBeyond` | internal/witness/witness.go:329-331 | For every log of more than 2^62 leaves, a witness one leaf short of the split needs at least 64 hashes and the body is refused. |
| `Retry.RetryFitsExactly` | internal/witness/witness.go:329-331 | Every retry of a log fits the wire if and only if the log has at most 2^62 leaves. |
| `Sequencer.Prepare` | internal/witness/witness.go:364-383 | A prepared request carries a text cut at its first blank line that parses to its checkpoint, and an old size no larger than the checkpoint's. |
| `Verdicts.PrepareExactly` | internal/witness/witness.go:364-383 | A request gets past the stateless checks if and only if its body parses, its note has a text before a blank line, the text parses, and the old size is not beyond the checkpoint. |
| `Sequencer.SignTurn` | internal/witness/witness.go:526-545 | One turn of the signing loop, at any origin not yet visited, extends the visited set by that origin and nothing else. |
| `Notes.SignedNoteSplits` | internal/witness/witness.go:371-376 | A signed note splits back into the text that was signed and the signature lines. |
| `Notes.PersistedNoteReadmits` | internal/witness/witness.go:250-267 | Every note the sequencer stores restores to the origin, size and hash that were checked. |
| `Notes.CutExactly` | internal/witness/witness.go:371-376 | The text of a note is exactly what stands before its first blank line, newline included. |
| `Notes.RestoreExactly` | internal/witness/witness.go:250-267 | A note is re-admitted if and only if it has a text that parses, as what that text says and with the note itself. |
| `Notes.FollowsMeansPrefix` | internal/witness/witness.go:424-444 | If the later of two consecutive views is the root of a leaf sequence, the earlier is the root of its prefix, unless the proof checked between them clashes with it at a named pair of inputs. |
| `Wire.EncodeAddCheckpoint` | internal/witness/wire.go:13-22 | The loop prints the request text for any old size; a body with a negative one is refused by the parser. |
| `Wire.ParseRequest` | internal/witness/witness.go:301-346 | The parser accepts exactly the bodies of the grammar and returns their parts. |
| `Grammar.BodyGrammar` | internal/witness/witness.go:301-346 | The parser accepts exactly "old", the canonical decimal size below 2^63, at most 63 hash lines in any accepted spelling, a blank line and a non-empty note. |
| `Grammar.HashLineExactly` | internal/witness/witness.go:334-337 | A hash line is accepted exactly if, line breaks aside and up to the unused bits of its last symbol, it is the encoding of 32 bytes. |
| `Grammar.DecodesExactly` | internal/witness/witness.go:334-337 | The decoder accepts exactly the encoding of a byte string, up to the unused bits of the last symbol. |
| `Grammar.EncodesByThrees` | internal/witness/wire.go:16-18 | Every three bytes are printed as the four symbols of the same 24-bit number. |
| `Grammar.EncodesTail` | internal/witness/wire.go:16-18 | The last one or two bytes are printed as two or three symbols with zero unused bits, and padded with "=". |
| `Grammar.AlphabetIs` | internal/witness/wire.go:16-18 | The symbols are the standard alphabet. |
| `Wire.ReadProofLines` | internal/witness/witness.go:319-340 | The loop reads at most 63 hash lines up to the blank line. |
| `Wire.RequestRoundTrip` | internal/witness/wire.go:13-22 | Every request with an int64 size, at most 63 hashes and a non-empty note parses back from its text. |
| `Wire.AcceptedBodyReprints` | internal/witness/witness.go:301-346 | An accepted body re-encodes to itself if and only if its hash lines are canonical base64. |
| `Wire.NonCanonicalLineAccepted` | internal/witness/witness.go:334-337 | Some accepted hash line is not canonical. |
| `Wire.LongBodyRefused` | internal/witness/witness.go:329-331 | A body with more than 63 hashes is refused, whatever they are. |
| `Wire.HashLineRoundTrip` | internal/witness/wire.go:16-18 | A printed hash is one non-empty line and parses back. |
| `Payload.Encode` | internal/state/blob.go:249-269 | Succeeds exactly on maps within the length fields and yields the records sorted by origin. |
| `Payload.DecodePayload` | internal/state/blob.go:271-298 | The loop computes the decoder, panics of the 32-bit build included. |
| `Layout.PayloadGrammar` | internal/state/blob.go:271-298 | A payload decodes exactly if it is a sequence of whole records, to the map they enter, the last one for an origin winning. |
| `Layout.RecordLayout` | internal/state/blob.go:262-265 | A record is the little-endian two-byte origin length, the origin, the four-byte note length, the note. |
| `Layout.LessExactly` | internal/state/blob.go:252-252 | The order of origins is bytewise: the smaller byte at the first difference, a proper prefix first. |
| `Payload.PayloadIsUnique` | internal/state/blob.go:249-269 | The encoding depends only on the map. |
| `Payload.PayloadRoundTrip` | internal/state/blob.go:271-298 | Decoding an encoded map gives the map back on both builds, without a panic. |
| `Payload.PanicExactly` | internal/state/blob.go:288-295 | The 32-bit decoder panics exactly on payloads that reach a note length of 2^31 or more; otherwise the builds agree. |
| `Payload.WideNeverPanics` | internal/state/blob.go:271-298 | With a 64-bit int no payload panics. |
| `Payload.NarrowDecoderCanPanic` | internal/state/blob.go:288-295 | Six bytes make it panic. |
| `Payload.SortedIsUnique` | internal/state/blob.go:252-252 | A set of origins has one sorted enumeration. |
| `Payload.SortedKeys` | internal/state/blob.go:252-252 | Yields that enumeration. |
| `Slots.SlotInsideExactly` | internal/state/blob.go:233-247 | For non-negative offsets and devices below 2^63 bytes, an accepted slot maps to exactly its bytes inside the device if and only if its end is below 2^63. |
| `Slots.SlotAcceptedExactly` | internal/state/blob.go:233-247 | A slot whose end is below 2^63 is accepted if and only if the block size divides 65536 and the offset and the slot ends inside the device, and then at its own first block. |
| `Slots.OverflowIsAccepted` | internal/state/blob.go:240-244 | An offset of 2^63 - 512 is accepted on every device and lies outside it. |
| `Slots.SlotsDisjoint` | internal/state/blob.go:233-247 | The slots are adjacent and never overlap. |
| `Slots.SlotStart` | internal/state/blob.go:240-246 | An accepted block address that is not negative starts exactly at its slot, for every int64 offset. |
| `Slots.WriteOneSlot` | internal/state/blob.go:111-118 | Writing one slot puts the image there and leaves the other slot's bytes unchanged. |
| `Slots.SlotRoundTrip` | internal/state/blob.go:167-212 | Loading a saved image returns the same states, generation and digest on both builds. |
| `Layout.FrameLayout` | internal/state/blob.go:104-109 | A blob is the magic, the little-endian generation and ciphertext length, the nonce and the ciphertext, byte by byte. |
| `Layout.OnlySavedBlobsLoad` | internal/state/blob.go:197-212 | With a cipher that opens only what it sealed, whatever bytes a slot holds load only as a blob that was saved, with its own generation, states and digest, so contents cannot be relabelled; and no such slot makes the decoder panic. |
| `Layout.FailedSlotIsAuthentic` | internal/state/blob.go:115-118 | After a failed write of a new blob the slot loads, if at all, as that blob or one saved earlier. |
| `Layout.FreshNonceFreshFrame` | internal/state/blob.go:94-98 | Blobs saved under different nonces have different bytes. |
| `Slots.FillSlot` | internal/state/blob.go:104-109 | Filling the buffer field by field yields the frame followed by zeros. |
| `Slots.Disk.WriteBlocks` | internal/state/blob.go:64-68 | A write takes effect only inside the device; one that fails leaves arbitrary contents in its blocks or none. |
| `Slots.WriteImage` | internal/state/blob.go:111-118 | The slot write stores the image on success and never touches the other slot. |
| `Slots.Save` | internal/state/blob.go:83-121 | Refuses, touching nothing, exactly when key, nonce, lengths, size or geometry are wrong; on success the slot of the generation's parity loads as exactly the states, generation and digest; the other slot keeps its bytes in every case. |
| `Slots.WritableExactly` | internal/state/blob.go:83-114 | The slot write is issued if and only if the key has 32 bytes, a nonce was drawn, the slot fits the device, lengths fit their fields and the payload has at most 65488 bytes. |
| `Slots.LoadSlot` | internal/state/blob.go:167-212 | Finds the blob a slot holds, or nothing valid, or panics exactly when the contents authenticate and the decoder panics on the payload. |
| `Slots.PanicsOnlyNarrow` | internal/state/blob.go:202-205 | Only the 32-bit build panics on a slot, and never on one that loads. |
| `Slots.Load` | internal/state/blob.go:141-165 | Returns the valid blob with the highest generation, the first slot winning ties; panics exactly when a slot it reads does. |
| `Anchors.RecordRoundTrip` | internal/state/anchor_rpmb.go:31-50 | Every state reads back from its record, and no written record reads as fresh. |
| `Layout.AnchorLayout` | internal/state/anchor_rpmb.go:64-67 | The record is the big-endian generation, the magic and the digest, byte by byte. |
| `Layout.AnchorReadsExactly` | internal/state/anchor_rpmb.go:31-50 | The sector reads as a state exactly if it is all zero, which is fresh, or the record of a bound state; every other content is an unknown format. |
| `Places.LEByPlace` | internal/state/blob.go:104-109 | Little-endian fields hold the digit of place i at position i. |
| `Places.BEByPlace` | internal/state/anchor_rpmb.go:64-67 | Big-endian fields hold them in reverse. |
| `Anchors.WriteExactly` | internal/state/anchor_mem.go:28-39 | A write is acknowledged if and only if it binds a blob, advances the generation and meets no error; the state changes exactly if the first two hold and the record lands. |
| `Anchors.OpRefines` | internal/state/anchor_rpmb.go:52-73 | One read or write of the sector record gives the reply and next state of the in-memory register, and a changed state has a larger generation. |
| `Anchors.SectorRefinesMemory` | internal/state/anchor_rpmb.go:31-73 | Over any sequence of reads and writes, errors with either outcome included, the sector anchor answers as the in-memory one. |
| `Anchors.GenerationsAdvance` | internal/state/anchor_mem.go:28-39 | Over any sequence the generation never falls, and an unchanged generation means an unchanged state. |
| `Anchors.MemAnchor.Set` | internal/state/anchor_mem.go:28-39 | Refuses unbound or non-advancing states and stores the others. |
| `Anchors.RPMBAnchor.Get` | internal/state/anchor_rpmb.go:31-50 | Returns the decoded record, or none if the read fails or the format is unknown. |
| `Anchors.RPMBAnchor.Set` | internal/state/anchor_rpmb.go:52-73 | Acts on the sector as the operation that refines the in-memory register. |
| `Store.MemStore.PutBatch` | internal/witness/witness.go:101-108 | Overlays the batch and keeps all other origins. |
| `Store.RollbackStore.Admit` | internal/state/store.go:124-145 | Succeeds exactly when every note restores to its own origin; RAM then holds all of them, and otherwise none. |
| `Store.RollbackStore.Adopt` | internal/state/store.go:79-93 | Takes the generation of a blob and its states, or halts. |
| `Store.RollbackStore.Open` | internal/state/store.go:41-113 | Over what anchor and slots read as, carries out the boot decision; no store exactly when the anchor is unreadable or a slot panics; the sector changes only by re-anchoring. |
| `Store.RollbackStore.PutBatch` | internal/state/store.go:189-249 | For every ending: when it occurs, the new RAM, sector and slot, and that the slot of the present generation still loads as before. |
| `Store.PutBatchSeen` | internal/state/store.go:189-249 | The endings of `PutBatch` on RAM, slots and the decoded anchor. |
| `Store.SoundPutCommits` | internal/state/store.go:189-249 | A serving store with a generation left, a slot that fits the card, a 32-byte key, a payload that fits and an anchor not ahead of it commits when nothing fails, and slot, anchor and RAM hold the batch. |
| `Store.CommitAndReopen` | internal/state/store.go:189-249 | Commit, power-cycle, open: the new boot serves exactly the RAM the old one had. |
| `Store.ReopenDecision` | internal/state/store.go:75-85 | A boot that finds the pinned blob newest restores the RAM it was made from. |
| `WitnessService.Witness.Begin` | internal/witness/witness.go:352-383 | 503 without signer or with a halted store, 400 exactly for requests that do not prepare, and otherwise the signer seen and the prepared request. |
| `WitnessService.Witness.MatchPendingEntry` | internal/witness/witness.go:451-464 | Joins the pending entry exactly when signer, epoch, size, hash and text agree; otherwise a 409 with the committed size. |
| `WitnessService.Witness.AddToPool` | internal/witness/witness.go:399-449 | Returns the verdict of the decision function and changes the pools exactly on admission. |
| `WitnessService.Witness.RotatePools` | internal/witness/witness.go:487-493 | The rotation step of the machine. |
| `WitnessService.Witness.SetPoolResult` | internal/witness/witness.go:566-570 | Every entry of the pool gets the result; no other entry changes. |
| `WitnessService.Witness.ClosePool` | internal/witness/witness.go:499-501 | Every channel of the pool is closed once; no other. |
| `WitnessService.Witness.SignPool` | internal/witness/witness.go:524-545 | The loop leaves, for every order of iteration, the results and updates of the whole batch. |
| `WitnessService.Witness.CommitPool` | internal/witness/witness.go:546-563 | A signing error or a failed commit fails the whole batch; only a committed batch publishes and counts. |
| `WitnessService.Witness.SequencePool` | internal/witness/witness.go:505-564 | The pass as a whole: the composition of the machine's steps, with the store's own ending. |
| `WitnessService.Witness.RetirePools` | internal/witness/witness.go:496-502 | The retirement step of the machine. |
| `WitnessService.Witness.Stop` | internal/witness/witness.go:572-580 | Every pending entry is answered 503, closed once, and the pool emptied. |
| `Provision.Zero` | internal/provision/server.go:303-307 | Every byte of the slice is zero. |
| `Provision.Server.Install` | internal/provision/server.go:273-279 | The new signer is installed with its key intact, the previous key is zeroed, and no other key is touched. |
| `Provision.Server.Deprovision` | internal/provision/server.go:287-296 | The signer is removed, its key is zeroed, and no other key is touched. |

## Left out

- AES-GCM, SHA-256, Ed25519 and key derivation: ideal assumptions take their place, listed above.
- `tlog.CheckTree`, `tlog.ParseHash`, `note.Sign` and `torchwood.ParseCheckpoint` are library code that is not part of this repository: the first is defined from section 2.1.2 of RFC 6962, the second as lenient base64 of 32 bytes, the third as text, newline, signature lines, the last is any partial function.
- Slots.SlotInsideExactly: does not cover devices of 2^63 bytes or more, whose byte positions do not fit the int64 offsets.
- Store.RollbackStore.Admit: restores all origins in one batch instead of one batch per origin; the log lines in between are not modelled.
- Store.RollbackStore.PutBatch: is proved over the RPMB anchor only; over the in-memory anchor it follows from `Anchors.SectorRefinesMemory`.
- A witness over `MemStore` alone, which forgets at reboot: only the in-RAM store itself is modelled.
- RPMB frames, the write counter and the client library: the anchor sector is a register whose failed write has either outcome.
- HTTP handlers, the request size limit, and the monitoring paths (`Checkpoint`, `Status`, `Logs`): easy members that read the state.
- SSH sessions, command and seed parsing, pinning of host keys, clock setting: network and file input.
- Firmware bring-up, hardware reports, LEDs and the boot guard of the anchor: hardware calls.
- `SetSigner` and `ClearSigner` of the witness object are single calls; the interleaving of their two stores with unlocked reads is in the machine's events.
- Wall-clock time, ticker period, cosignature timestamps and the text of error messages.
- Wrap-around of the uint64 epoch and counters: they are natural numbers here; the uint32 generation is bounded explicitly.
- Scheduling: nothing says that the sequencer keeps running or that a waiting request is eventually woken.
