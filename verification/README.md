# Scalevault memory node and relay: a Dafny model

Scalevault keeps durable memories for an assistant. The memory node appends one event per accepted command to a log and
projects it into live tables; a relay enrolls installations and tunnels requests to the node's agent. This project models
the parts where correctness depends on many operations agreeing, and proves what holds over every run of them.

* The log and its reducer (`Domain`, `Folding`, `FoldInvariants`): events carry complete after-images, a memory's revision
  counts its writes, a memory is disputed exactly while one open conflict names it, and creations and promotions bring
  evidence. `LiveProjection` is the fast path that loads and writes only the rows an event touches; it accepts what the
  full reducer accepts and leaves what the full reducer leaves.
* The command processor (`Mutations`, `MutationSafety`, `MutationRuns`, and as a mutable object `MutationEngine`):
  authorization, idempotency receipts, payload preparation, append and staging, outbox jobs, the retry loop.
  `CandidateLifecycle` promotes and expires candidates. A run is any sequence of commands, reassessments, nominations
  that create a memory or promote one on new evidence, key updates and administration. Over runs: `ExactlyOnce`,
  `Outbox`, `Forgetting`, `EvidenceRuns`, `Sensitivity`. `Acceptance` and `ConflictAcceptance` say for each command
  exactly when it succeeds and what it then changes.
* `FingerprintLocks`: any interleaving of transactions that take advisory locks, read again, check and commit.
* `Ingress`: the trigger rules that tie an ingested item to its one event, over any run of transactions.
* `Enrollment`, `EnrollmentStore`: pairings, certificates, rotation and revocation in the relay's store.
* `ProbeFrames`, `ProbeAgent`, `ProbeRelay`, `ProbeSystem`: both ends of the tunnel probe, alone against anything and
  together under every interleaving.
* `GenesisGraph`, `GenesisPlan`, `StableUuid`: planning and staging a legacy import.
* `SelectionCursor`, `SelectionPaging`, `SearchAssembly`: paging over a growing ledger, and when exactly a search returns
  a conflict whole or not at all.

What the model found, each with its proof:

* A memory with a row of evidence can never be forgotten, since a tombstone is refused while a row remains and nothing
  removes one (`EvidenceRuns.EvidencedForGood`). Every memory created with evidence or promoted is one
  (`EvidenceRuns.SubstantiatedForGood`), and asking to forget it changes nothing (`EvidenceRuns.ForgetChangesNothing`).
* A sealed candidate cannot be forgotten either: its tombstone would keep a deadline only candidates may have. The exact
  condition of a forget is `Acceptance.ForgetSucceedsExactly`.
* A candidate written again after its creation can never be promoted nor expired, because later after-images carry no
  deadline (`CandidateLifecycle.TouchedCandidateIsStuck`).
* Plaintext of the highest sensitivity enters by the authorised first import only (`Sensitivity.RunsKeepContentRules`).
  Such a memory stays as imported until it is revised to a lower sensitivity (`Sensitivity.StepOnExposed`).
* One active certificate per installation can be lost when the clock goes back, by a redemption and by a rotation
  (`Enrollment.BackwardsClockBreaksUniqueness`, `Enrollment.BackwardsRotationBreaksUniqueness`). The exact conditions are
  `Enrollment.RedeemUniqueExactly` and `Enrollment.RotateUniqueExactly`, and over runs `Enrollment.RunsUniqueExactly`.
* The store compares serial numbers as strings, so two spellings of one number are two serials
  (`Enrollment.SerialNumbersIgnoreCase`); the issuer's own serials are written in one case.
* A search can return one member of an open conflict without the others: when another member is hidden from the caller
  the group is not shown, and the visible member stays (`SearchAssembly.HiddenMemberLeavesOne`). A conflict comes back
  whole or not at all if and only if the caller may read all of it or no member made the cut
  (`SearchAssembly.ConflictReturnedExactly`). Shown groups themselves are never torn, because open conflicts share no
  memory.
* Several texts decode to one selection position (`SelectionCursor.LeadingZeroAlias`); those that decode and are canonical
  are exactly the cursors the node writes (`SelectionCursor.CanonicalExactly`).
* The import manifest's refusal of a repeated record can never fire for parsed sources
  (`GenesisPlan.ManifestOnlyTestsIds`).

How values are represented: identifiers are numbers, instants are integers, and a digest or fingerprint is the material it
is computed from, which assumes the hash has no collision among the values compared. The advisory-lock key is an arbitrary
function of that material. A revision, a sequence or a size is an unbounded number; the probe's sequence numbers wrap at
2^64. Whether a transport binding is revoked, expired or detached from its installation is given, and subject kinds are
identified with the scope they anchor. The clock, fresh identifiers, the database's aborts and the import's mapping table
are parameters.

## Model

| member | source | states |
|---|---|---|
| `Folding.FoldMemories` | services/memory-node/src/kivra_memory/domain/folding.py:583-764 | an accepted event writes exactly its after-images, each by a legal step from the stored revision, and leaves every other memory and the branches alone |
| `FoldInvariants.RevisionCountsEvents` | services/memory-node/src/kivra_memory/domain/folding.py:191-247 | rebuilding any accepted log gives each memory the revision that counts the events that wrote it, and a memory exists exactly when some event wrote it |
| `FoldInvariants.PreviousCountsEvents` | services/memory-node/src/kivra_memory/domain/folding.py:191-247 | the revision an event says it replaces is the number of earlier events of the log that wrote that memory |
| `FoldInvariants.NoLostUpdate` | services/memory-node/src/kivra_memory/domain/folding.py:191-247 | two events of one accepted log never replace the same revision of a memory |
| `FoldInvariants.DisputesFollowConflicts` | services/memory-node/src/kivra_memory/domain/folding.py:472-555 | over every disciplined log a memory is disputed exactly when one open conflict names it, and no two open conflicts share a memory |
| `FoldInvariants.DisputeEndsByResolution` | services/memory-node/src/kivra_memory/domain/folding.py:505-555 | a disputed memory stops being disputed if and only if the event resolves the open conflict that names it |
| `FoldInvariants.StatusOnlyAdvances` | services/memory-node/src/kivra_memory/domain/folding.py:191-276 | no event moves a memory back: settled statuses only become tombstones, tombstones are never written again, nothing becomes a candidate |
| `FoldInvariants.SettledStays` | services/memory-node/src/kivra_memory/domain/folding.py:254-276 | over every disciplined log a memory that some event promoted or expired is no candidate |
| `FoldInvariants.AtMostOneLifecycleEvent` | services/memory-node/src/kivra_memory/domain/folding.py:254-276 | a memory is promoted or expired at most once in a log |
| `FoldInvariants.UniqueAfterWrites` | migrations/versions/0001_initial_domain.py:979-985 | an event whose images clash with no untouched live memory and not with one another keeps live fingerprints unique |
| `Folding.AttachEvidence` | services/memory-node/src/kivra_memory/domain/folding.py:277-366 | the loop over an event's evidence accepts exactly rows of that owner, memory and time with new and distinct identifiers, and adds them and nothing else |
| `FoldInvariants.EvidenceIsSound` | services/memory-node/src/kivra_memory/domain/folding.py:680-715 | over every accepted log each row of evidence is of a stored memory with the same owner that is no tombstone |
| `LiveProjection.LiveAcceptsExactly` | services/memory-node/src/kivra_memory/storage/live_projection.py:85-251 | validating an event against only the rows the live path loads, evidence included, accepts it if and only if the full reducer does over the whole projection and, for a link, both ends are in the branch |
| `LiveProjection.LiveRefinesFold` | services/memory-node/src/kivra_memory/storage/live_projection.py:283-401 | staging an accepted event row by row, evidence included, yields exactly the projection the full reducer folds |
| `MutationSafety.AppendKeepsSound` | services/memory-node/src/kivra_memory/storage/event_store.py:335-432 | appending keeps the live tables equal to the rebuilt log; it succeeds exactly on fresh identities and a foldable event, so the live-fingerprint index never refuses what preparation let through |
| `MutationSafety.AttemptKeepsSound` | services/memory-node/src/kivra_memory/application/mutations.py:406-623 | every command attempt, accepted or refused, keeps the log, the projection, fingerprint honesty and fingerprint uniqueness |
| `MutationRuns.RunsAreSound` | services/memory-node/src/kivra_memory/application/mutations.py:345-404 | in every reachable database the live tables are the fold of the log and no two live memories of one branch and subject state the same claim |
| `MutationRuns.RunsKeepDisputes` | services/memory-node/src/kivra_memory/application/mutations.py:872-996 | in every run a memory is disputed exactly when one open conflict names it |
| `MutationRuns.RunsNeverLoseUpdates` | services/memory-node/src/kivra_memory/application/mutations.py:653-663 | in every run revisions count writes and no two committed writes replaced the same revision |
| `MutationRuns.RunsSettleOnce` | services/memory-node/src/kivra_memory/application/candidate_lifecycle.py:258-534 | in every run a candidate is promoted or expired at most once |
| `ExactlyOnce.RunsAreLedgered` | services/memory-node/src/kivra_memory/application/mutations.py:487-519 | in every run there is one receipt and one event per tenant, client and idempotency key, and a receipt that names an event is backed by it: one of the same tenant and, but for a promotion, the same client and key |
| `ExactlyOnce.AnsweredFromReceipt` | services/memory-node/src/kivra_memory/application/mutations.py:487-519 | with a receipt in place the same command gets the stored result as a replay, any other command under the key is refused, and nothing changes, also when the branch is closed by then |
| `ExactlyOnce.CommittedOnce` | services/memory-node/src/kivra_memory/application/mutations.py:345-404 | a command that has committed is, after any further run, answered from its receipt; a command that differs under the same key is refused; neither changes the database |
| `ExactlyOnce.HistoryIsKept` | migrations/versions/0001_initial_domain.py:172-234 | no run removes or rewrites a receipt or an event, and a branch keeps its owner |
| `Outbox.SortKeeps` | services/memory-node/src/kivra_memory/application/mutations.py:1109-1150 | the images are scheduled in identifier order with none lost or repeated |
| `Outbox.ScheduledJobsPay` | services/memory-node/src/kivra_memory/application/mutations.py:1109-1150 | the jobs of a commit are one embedding per after-image and one export |
| `Outbox.JobsFit` | services/memory-node/src/kivra_memory/application/mutations.py:1057-1083 | the 34 preallocated job identities suffice for every command the contract admits |
| `Outbox.RunsPayTheQueue` | services/memory-node/src/kivra_memory/application/mutations.py:1057-1150 | in every run the queue holds exactly the embeddings and exports the log owes, as multisets |
| `Outbox.OneExportPerEvent` | services/memory-node/src/kivra_memory/application/mutations.py:1109-1150 | in every run each event has exactly one export job |
| `Outbox.OneEmbeddingPerImage` | services/memory-node/src/kivra_memory/application/mutations.py:1109-1150 | in every run each after-image of each event, but for a created sealed memory, has exactly one embedding job |
| `Forgetting.ForgottenForGood` | services/memory-node/src/kivra_memory/application/mutations.py:1010-1055 | from any reachable database on, a tombstoned memory keeps every field for ever |
| `Forgetting.KeyGivenUpForGood` | migrations/versions/0007_persistence_hardening.py:151-223 | a content key that has left the active state never returns to it |
| `Forgetting.OnePurgePerMemory` | services/memory-node/src/kivra_memory/application/mutations.py:1057-1150 | in every run a memory has at most one purge job, and a purged memory is a tombstone whose keys are no longer active |
| `EvidenceRuns.EvidencedForGood` | services/memory-node/src/kivra_memory/domain/folding.py:680-715 | from any reachable database on, a memory with a row of evidence keeps one in every continuation and is never a tombstone |
| `EvidenceRuns.CorroborationEvidences` | services/memory-node/src/kivra_memory/application/selection.py:1146-1230 | a nomination that promotes an existing candidate leaves it with evidence |
| `EvidenceRuns.PromotionIsEvidenced` | services/memory-node/src/kivra_memory/application/candidate_lifecycle.py:258-534 | a candidate promoted by reassessment has evidence, since the policy promotes nothing without |
| `EvidenceRuns.SubstantiatedForGood` | services/memory-node/src/kivra_memory/application/selection.py:1146-1426 | whatever is created with evidence or promoted, by whichever of the three ways, is in no continuation forgotten |
| `EvidenceRuns.ForgetChangesNothing` | services/memory-node/src/kivra_memory/domain/folding.py:680-709 | asking to forget a memory with evidence changes nothing in the database, soft or hard |
| `Sensitivity.RunsKeepContentRules` | services/memory-node/src/kivra_memory/storage/event_store.py:131-220 | in every reachable database content of the highest sensitivity is sealed and holds no plaintext, or is an authorised import never written since that is private, a candidate and evidenced; shareable memories have sensitivity at most one, public seeds are active, approved and not sensitive, scene-local memories stay private, and category and ontological status are compatible |
| `Sensitivity.StepOnExposed` | services/memory-node/src/kivra_memory/storage/event_store.py:131-220 | plaintext of the highest sensitivity is changed by no step of a run but its own revision, and that revision lowers its sensitivity |
| `Acceptance.AdmittedSucceeds` | services/memory-node/src/kivra_memory/application/mutations.py:406-623 | an admitted command succeeds exactly when its event is prepared, folds over memories, conflicts, links and evidence, and may be carried by the transport; the live tables are then that fold |
| `Acceptance.CreateSucceedsExactly` | services/memory-node/src/kivra_memory/application/mutations.py:675-755 | observe and remember succeed if and only if the subject is known, the session anchored, the content within the rules and its claim not live yet; then the memory stands at revision 1 with that content and fingerprint |
| `Acceptance.ReviseSucceedsExactly` | services/memory-node/src/kivra_memory/application/mutations.py:818-848 | revise succeeds if and only if the memory is live, plaintext and at the named revision and the patched content is within the rules and states no other live claim; status, subject and scope stay, approval and deadline go |
| `Acceptance.LinkSucceedsExactly` | services/memory-node/src/kivra_memory/application/mutations.py:849-871 | link succeeds if and only if both ends are at their named revisions and no such active link exists; it adds that link and changes no memory |
| `Acceptance.RetireSucceedsExactly` | services/memory-node/src/kivra_memory/application/mutations.py:997-1009 | retire succeeds if and only if the memory is a plaintext, unpublished candidate or active memory at the named revision; it is then retired with its content |
| `Acceptance.ForgetSucceedsExactly` | services/memory-node/src/kivra_memory/application/mutations.py:1010-1055 | forget succeeds if and only if the memory is neither disputed nor gone, unpublished, no sealed candidate, has no row of evidence and, for a hard forget, still holds its key; it is then a tombstone without content |
| `Acceptance.ReassessMovesExactly` | services/memory-node/src/kivra_memory/application/candidate_lifecycle.py:258-534 | a reassessment moves its candidate if and only if the candidate is at the named revision with its source decision, readable, due by the policy, within ceiling and clock, and the transport may carry it |
| `ConflictAcceptance.ApplyExactly` | services/memory-node/src/kivra_memory/domain/folding.py:428-471 | applying distinct affected memories one after the other succeeds if and only if each is a legal step on its own |
| `ConflictAcceptance.OpenSucceedsExactly` | services/memory-node/src/kivra_memory/application/mutations.py:872-915 | open succeeds if and only if every member is a plaintext, unpublished candidate or active memory of the subject at its named revision; the conflict is then open with exactly those members, each disputed, and nothing else changed |
| `ConflictAcceptance.ResolveSucceedsExactly` | services/memory-node/src/kivra_memory/application/mutations.py:916-996 | resolve succeeds if and only if the conflict is open here, the verdicts cover exactly its members at their revisions, and the user confirmed where needed; each member then has the status of its verdict and nothing else changed |
| `CandidateLifecycle.LifecycleKeepsSound` | services/memory-node/src/kivra_memory/application/candidate_lifecycle.py:258-534 | a lifecycle attempt keeps the database sound, and either settles exactly the named candidate with one event or leaves memories, events and jobs alone |
| `CandidateLifecycle.DeadlineOnlyAtBirth` | services/memory-node/src/kivra_memory/domain/events.py:207-232 | over every accepted log only a memory that was never written again has a deadline |
| `CandidateLifecycle.TouchedCandidateIsStuck` | services/memory-node/src/kivra_memory/application/candidate_lifecycle.py:258-534 | a candidate written by any later event is never promoted nor expired, whatever the evidence and however late it is |
| `MutationEngine.BuildDisputed` | services/memory-node/src/kivra_memory/application/mutations.py:872-915 | building the parts of an opening member by member stops at the first stale revision and otherwise yields the members and images of the specification |
| `MutationEngine.BuildSettled` | services/memory-node/src/kivra_memory/application/mutations.py:916-996 | the same for a resolution, in stored-member order |
| `MutationEngine.ScheduleJobs` | services/memory-node/src/kivra_memory/application/mutations.py:1109-1150 | the loop over after-images yields exactly the scheduled jobs |
| `MutationEngine.LookUpReceipt` | services/memory-node/src/kivra_memory/application/mutations.py:487-519 | the scan finds the first receipt under the caller's key |
| `MutationEngine.Engine.PreparePayload` | services/memory-node/src/kivra_memory/application/mutations.py:665-1055 | computes the payload of the specification and changes nothing |
| `MutationEngine.Engine.CommitPrepared` | services/memory-node/src/kivra_memory/application/mutations.py:541-623 | appends, stages, requests key destruction, enqueues and writes the receipt, or on any refusal leaves every table as it was |
| `MutationEngine.Engine.EnqueueAll` | services/memory-node/src/kivra_memory/application/mutations.py:1057-1083 | adds the jobs in order under the preallocated identities |
| `MutationEngine.Engine.AttemptOnce` | services/memory-node/src/kivra_memory/application/mutations.py:406-623 | response and new tables are those of one attempt of the specification |
| `MutationEngine.Engine.Execute` | services/memory-node/src/kivra_memory/application/mutations.py:345-404 | with up to four attempts under one set of identities the outcome is that of a single attempt, or exhaustion with every table unchanged |
| `MutationEngine.Engine.Reassess` | services/memory-node/src/kivra_memory/application/candidate_lifecycle.py:258-534 | response and new tables are those of the lifecycle specification |
| `MutationEngine.Engine.RollBack` | services/memory-node/src/kivra_memory/storage/transactions.py:45-90 | an aborted attempt leaves nothing behind |
| `FingerprintLocks.NoInterleavingDuplicates` | services/memory-node/src/kivra_memory/storage/locks.py:22-96 | over every interleaving of transactions that lock, read again, check and commit, no two committed live memories of a branch and subject state one claim, whatever the lock-key hash |
| `FingerprintLocks.WritersHoldTheirKeys` | services/memory-node/src/kivra_memory/application/mutations.py:757-816 | a transaction about to commit a create or a revise holds the advisory key of every claim it writes |
| `FingerprintLocks.ChecksAloneRace` | services/memory-node/src/kivra_memory/application/mutations.py:714-732 | without the locks two creates of one claim both pass their check against the same rows and leave a duplicate |
| `Ingress.FieldsUnchanged` | migrations/versions/0001_initial_domain.py:187-206 | the field loop of the immutability trigger passes exactly when every listed field is unchanged |
| `Ingress.ProvenanceFieldsCover` | migrations/versions/0005_github_ingress_v2_runtime.py:18-33 | the listed fields are the whole provenance of an item |
| `Ingress.RunsAreReciprocal` | migrations/versions/0005_github_ingress_v2_runtime.py:162-230 | after every run of transactions events and items point at each other and accepted items are backed |
| `Ingress.OneEventPerItem` | migrations/versions/0001_initial_domain.py:526-559 | two stored events never share an ingress item, and the item of an event is accepted and points back to it |
| `Ingress.AcceptedIsBacked` | migrations/versions/0005_github_ingress_v2_runtime.py:162-230 | every accepted item is backed by its own creation event or by a promotion receipt |
| `Ingress.IngestedForGood` | migrations/versions/0001_initial_domain.py:322-431 | once an event and its item are committed no later transaction changes or removes either |
| `Ingress.ItemsLiveShort` | migrations/versions/0005_github_ingress_v2_runtime.py:53-159 | every item has at most two updates in its life, one write of its semantic identity and one provenance |
| `Ingress.Database.Execute` | migrations/versions/0001_initial_domain.py:526-611 | runs the row steps under their triggers, then the deferred checks; it commits if and only if every step ran and every check passed, the tables are otherwise as before, and reciprocity is kept |
| `Enrollment.RunsAreStructured` | services/memory-relay/internal/installations/memory_store.go:36-222 | in every run records are stored under their own keys, serials are unique, and a revoked installation has only revoked certificates |
| `Enrollment.OneActiveCertificate` | services/memory-relay/internal/installations/memory_store.go:79-160 | if operation times never decrease, an installation has at most one usable certificate in state active; any other is retiring and stops within 24 hours of the latest operation and before it expires |
| `Enrollment.RetirementIsSetOnce` | services/memory-relay/internal/installations/memory_store.go:123-160 | only a rotation sets a retirement instant, at most 24 hours ahead, and no later operation moves it |
| `Enrollment.RedeemUniqueExactly` | services/memory-relay/internal/installations/memory_store.go:79-121 | whatever the clock does, a redemption keeps that uniqueness if and only if its certificate has expired or no certificate of the installation stands at the later of the two times |
| `Enrollment.BackwardsClockBreaksUniqueness` | services/memory-relay/internal/installations/memory_store.go:246-255 | redeemed first at 100 and then at 50, two certificates of one installation are active together at 101 |
| `Enrollment.UniquenessNeedsTheClock` | services/memory-relay/internal/installations/memory_store.go:246-255 | such a run exists |
| `Enrollment.RotateUniqueExactly` | services/memory-relay/internal/installations/memory_store.go:123-160 | whatever the clock does, a rotation keeps that uniqueness if and only if its replacement has expired or no certificate of the installation other than the replaced one stands at the later of the two times |
| `Enrollment.BackwardsRotationBreaksUniqueness` | services/memory-relay/internal/installations/memory_store.go:123-160 | a certificate redeemed at 100 and rotated at 190, after another was redeemed at 300, leaves two active together at 301 |
| `Enrollment.RotationNeedsTheClock` | services/memory-relay/internal/installations/memory_store.go:123-160 | such a run exists |
| `Enrollment.StepUniqueExactly` | services/memory-relay/internal/installations/memory_store.go:36-222 | for each of the five operations, whatever its time, uniqueness survives at the later time if and only if the guard for that operation holds before the call |
| `Enrollment.RunsUniqueExactly` | services/memory-relay/internal/installations/memory_store.go:36-222 | a run keeps uniqueness at every point of its way if and only if every operation met its guard |
| `Enrollment.MonotoneIsClear` | services/memory-relay/internal/installations/memory_store.go:246-255 | an operation that is not before the latest one always meets its guard |
| `Enrollment.RevocationIsFinal` | services/memory-relay/internal/installations/memory_store.go:190-222 | once an installation is revoked, in every continuation it stays revoked, has no usable certificate at any time, and refuses every pairing, redemption and rotation |
| `Enrollment.CertificatesAreConserved` | services/memory-relay/internal/installations/memory_store.go:79-160 | in every run certificates number the consumed pairings plus the successful rotations |
| `Enrollment.PairingIsConsumedOnce` | services/memory-relay/internal/installations/memory_store.go:79-121 | in every run a pairing is redeemed at most once, and exactly when it ends consumed |
| `Enrollment.SerialNumbersIgnoreCase` | services/memory-relay/internal/installations/memory_store.go:257-264 | two serial strings name one number if and only if they differ at most in letter case, while the store compares the strings |
| `Enrollment.SerialsMayCollide` | services/memory-relay/internal/installations/memory_store.go:257-264 | two different valid serial strings can name one number |
| `Enrollment.HexReadsBack` | services/memory-relay/internal/installations/memory_store.go:273-288 | decoding undoes hexadecimal encoding |
| `Enrollment.MaskSerial` | services/memory-relay/internal/installations/certificates.go:237-245 | masking twenty random bytes in place changes only the first and always gives a serial the store accepts |
| `Enrollment.IssuedSerialsDiffer` | services/memory-relay/internal/installations/certificates.go:237-245 | serials written by the issuer differ as strings exactly when they differ as numbers |
| `EnrollmentStore.IsUuid7` | services/memory-relay/internal/installations/contracts.go:47-61 | the character loop accepts exactly version 7 identifiers |
| `EnrollmentStore.MemoryStore.AddPairing` | services/memory-relay/internal/installations/memory_store.go:36-52 | adds a valid, unknown pairing of an installation that is not revoked, or changes nothing |
| `EnrollmentStore.MemoryStore.FindPairing` | services/memory-relay/internal/installations/memory_store.go:54-77 | finds a pairing exactly when it is pending and inside its window |
| `EnrollmentStore.MemoryStore.RedeemPairing` | services/memory-relay/internal/installations/memory_store.go:79-121 | consumes the pairing and stores the certificate together, or changes nothing |
| `EnrollmentStore.MemoryStore.RotateCertificate` | services/memory-relay/internal/installations/memory_store.go:123-160 | retires the current certificate and stores its successor together, or changes nothing |
| `EnrollmentStore.MemoryStore.RevokeOne` | services/memory-relay/internal/installations/memory_store.go:162-188 | revokes one certificate, or changes nothing |
| `EnrollmentStore.MemoryStore.RevokeWhole` | services/memory-relay/internal/installations/memory_store.go:190-222 | marks the installation and revokes each of its certificates, or changes nothing |
| `EnrollmentStore.MemoryStore.RevokeEach` | services/memory-relay/internal/installations/memory_store.go:190-222 | the walk over the certificates revokes exactly those of the installation |
| `EnrollmentStore.MemoryStore.HasActive` | services/memory-relay/internal/installations/memory_store.go:246-255 | the scan finds a usable certificate exactly when there is one |
| `EnrollmentStore.MemoryStore.CertificateActive` | services/memory-relay/internal/installations/memory_store.go:224-244 | answers yes exactly for a usable certificate of an installation that is not revoked; malformed questions fail |
| `ProbeAgent.AgentIsSafe` | services/memory-node-agent/internal/tunnel/probe.go:38-180 | whatever arrives, the agent sends a greeting; anything more is one response start to a second frame accepted inside its window after a valid first, an in-order echo of a prefix of the chunks it received within 1 MiB under the request's correlation, and at most one terminator, which answers the next frame with its kind and code |
| `ProbeAgent.ServeProbe` | services/memory-node-agent/internal/tunnel/probe.go:38-180 | the serve loop sends exactly those frames and reports success exactly when it ended with a terminator; a bad identifier sends nothing |
| `ProbeAgent.Answer` | services/memory-node-agent/internal/tunnel/probe.go:70-180 | one turn of the loop takes the step of the automaton; a failing turn sends nothing |
| `ProbeRelay.NewEchoProbe` | services/memory-relay/internal/streams/probe.go:61-87 | accepts exactly the probes within the limits and keeps their chunks |
| `ProbeRelay.RelayIsSafe` | services/memory-relay/internal/streams/probe.go:119-278 | whatever arrives, a relay that reports success read chunks numbered from 1, returns exactly their concatenation within 8 MiB, and stopped at the terminator of its mode |
| `ProbeRelay.Connect` | services/memory-relay/internal/streams/probe.go:119-278 | the receive loop succeeds exactly when that automaton does, with its result, and sends its script only after a valid greeting |
| `ProbeSystem.ProbeSucceeds` | services/memory-relay/internal/streams/probe.go:119-278 | for every valid probe and every interleaving of both programs, the agent's clock being in the window when it reads the request start and anything later, neither side ever fails, a run has at most three moves per frame, and when nothing can move the relay has the echoed body and chunk count, or the cancellation code and no body |
| `ProbeSystem.StartNeedsWindow` | services/memory-node-agent/internal/tunnel/probe.go:95-100 | the agent starts a request if and only if its clock is inside the deadline window, and otherwise sends nothing |
| `ProbeSystem.SomethingMoves` | services/memory-relay/internal/streams/probe.go:119-278 | unless every frame has been read on both sides some action is enabled: no deadlock |
| `GenesisGraph.Visitor.Visit` | services/memory-node/src/kivra_memory/application/genesis_plan.py:360-371 | the recursive visit terminates, ends with its node visited and the trail as before, or has found a cycle |
| `GenesisGraph.FinishedMeansAcyclic` | services/memory-node/src/kivra_memory/application/genesis_plan.py:342-372 | a finishing order that covers every origin rules out cycles |
| `GenesisGraph.Validate` | services/memory-node/src/kivra_memory/application/genesis_plan.py:342-372 | the verdict is the order-free judgement: self edges, dangling edges and cycles are found exactly when present, in whatever order nodes are visited |
| `GenesisPlan.AccountingAddsUp` | services/memory-node/src/kivra_memory/application/genesis_plan.py:147-179 | the planner's closing count check can never fail |
| `GenesisPlan.AppendRecords` | services/memory-node/src/kivra_memory/application/genesis_plan.py:214-283 | one source is accepted exactly when its nominations are its candidates, or one for a proposal, and it adds exactly its records |
| `GenesisPlan.Plan` | services/memory-node/src/kivra_memory/application/genesis_plan.py:106-179 | a plan is made exactly when every source is accountable, identities are distinct, both supersession graphs are sound and the manifest takes every path and record; it is then the planned records |
| `GenesisPlan.BuildManifest` | services/memory-node/src/kivra_memory/ingress/snapshot.py:253-306 | the manifest loop accepts exactly distinct paths and distinct records whose identifiers are safe |
| `GenesisPlan.ManifestOnlyTestsIds` | services/memory-node/src/kivra_memory/ingress/snapshot.py:294-306 | for parsed sources with distinct identities the manifest accepts if and only if paths are distinct and identifiers are safe: its refusal of a repeated record never fires |
| `GenesisPlan.StageIds` | services/memory-node/src/kivra_memory/application/genesis_apply.py:335-343 | staging fails exactly on a repeated identity or an unmapped record, and otherwise adds one row per record |
| `GenesisPlan.StageEdges` | services/memory-node/src/kivra_memory/application/genesis_apply.py:483-527 | staging fails exactly on an unknown end, and otherwise adds one row per edge |
| `GenesisPlan.Prepare` | services/memory-node/src/kivra_memory/application/genesis_apply.py:187-539 | a plannable import is staged exactly when its mappings resolve; rows and edges are those of the sources |
| `GenesisPlan.RowsAcyclic` | services/memory-node/src/kivra_memory/application/genesis_apply.py:483-527 | injective row identities carry no cycle over from the records |
| `GenesisPlan.PlanThenPrepare` | services/memory-node/src/kivra_memory/application/genesis_apply.py:187-539 | an accepted plan whose mappings resolve is staged in full, row counts add up to the planned records, and the staged supersessions have no cycle |
| `StableUuid.FieldsReadBack` | services/memory-node/src/kivra_memory/application/genesis_apply.py:158-171 | the five packed fields do not overlap: each reads back from its place |
| `StableUuid.StableIdIsVersion7` | migrations/versions/0001_initial_domain.py:153-169 | every derived identifier passes the database's version 7 test and keeps the timestamp of the run |
| `StableUuid.StableIdsAgreeExactly` | services/memory-node/src/kivra_memory/application/genesis_apply.py:158-171 | two derived identifiers are equal if and only if the timestamps and the seventy-four digest bits used are |
| `SelectionCursor.DecodeUndoesBase64` | services/memory-node/src/kivra_memory/application/queries.py:269-287 | base64 with its padding restored decodes to the bytes it came from |
| `SelectionCursor.DecodeUndoesEncode` | services/memory-node/src/kivra_memory/application/queries.py:269-287 | a cursor decodes to the sequence it was made from, for every sequence from 1 on; zero is refused |
| `SelectionCursor.LeadingZeroAlias` | services/memory-node/src/kivra_memory/application/queries.py:274-287 | decoding is not injective: digits with a zero in front are another cursor for the same sequence |
| `SelectionCursor.CanonicalExactly` | services/memory-node/src/kivra_memory/application/queries.py:269-287 | a text decodes to a sequence and is canonical if and only if it is the cursor of that sequence; canonical is tight URL-safe base64 of plain decimal digits |
| `SelectionCursor.Base64IsInjective` | services/memory-node/src/kivra_memory/application/queries.py:269-271 | different byte strings have different base64 |
| `SelectionPaging.EligibleIsExact` | services/memory-node/src/kivra_memory/storage/selection_history.py:140-215 | a listing is exactly the eligible rows below the bound, each once, newest first |
| `SelectionPaging.EligibleIsStable` | services/memory-node/src/kivra_memory/storage/selection_history.py:103-131 | rows appended later do not show below an earlier bound |
| `SelectionPaging.PageSplits` | services/memory-node/src/kivra_memory/application/queries.py:545-610 | a page is the front of the listing and its cursor decodes to the bound of exactly the rest; there is no cursor exactly when nothing is left |
| `SelectionPaging.FollowCursors` | services/memory-node/src/kivra_memory/application/queries.py:545-610 | following cursors while the ledger grows between pages ends and lists every row eligible at the start exactly once, newest first, and nothing appended since |
| `SearchAssembly.ShownIsWhole` | services/memory-node/src/kivra_memory/application/queries.py:927-977 | a group that is shown has exactly the stored members of an open conflict |
| `SearchAssembly.ShownAreDisjoint` | services/memory-node/src/kivra_memory/application/queries.py:927-977 | over a sound projection shown groups of different conflicts share no memory |
| `SearchAssembly.AllOrNoneExactly` | services/memory-node/src/kivra_memory/application/queries.py:637-658 | after the cut every group is returned whole or not at all if and only if each group left whole is either apart from all cut groups or swallowed by them |
| `SearchAssembly.OverlapMayTear` | services/memory-node/src/kivra_memory/application/queries.py:637-658 | two groups that share a member can be torn by the limit: one member of the first is returned alone |
| `SearchAssembly.ConflictReturnedExactly` | services/memory-node/src/kivra_memory/application/queries.py:927-977 | over a sound projection the stored members of a listed conflict are returned together or not at all if and only if the caller may read all of them or none made the cut |
| `SearchAssembly.HiddenMemberLeavesOne` | services/memory-node/src/kivra_memory/application/queries.py:927-977 | an open conflict of two, one hidden from the caller, returns the other alone |
| `SearchAssembly.OrderingIsUnique` | services/memory-node/src/kivra_memory/application/queries.py:642-647 | the ordered list of a table of hits is unique |
| `SearchAssembly.Assemble` | services/memory-node/src/kivra_memory/application/queries.py:637-658 | the result is within the limit, in order, and is what is left of the best hits without the members of cut groups |
| `SearchAssembly.Search` | services/memory-node/src/kivra_memory/application/queries.py:612-662 | over a sound projection every shown group is returned whole or not at all, and the stored members of a listed conflict are so exactly when the caller may read all of them or none made the cut |

## Left out

- Events that no application code appends: superseded, evidence attached and redacted, unlinked and branch created; and payload purge completed.
- Forgetting.ForgottenForGood: does not model the payload purge completed event, so finality of a tombstone is stated up to the completion of a purge.
- The selection policy that decides a nomination: a nomination is any creation with fresh identities, a free fingerprint and admissible content. A nomination that promotes an existing candidate is any promotion on new evidence that the promotion policy admits. Of an evidence row the model keeps identity, owner, memory, key, kind, trust and time.
- Branch ceilings do not change during a run, as the immutability trigger on branches has it; new branches may appear.
- Snapshot isolation: the lock model reads committed rows statement by statement, which is weaker than the serializable transactions the node uses. Lock order and deadlock are not claimed.
- Delays between retries, the mapping of unforeseen exceptions to an internal error, and the recomputed hash of a stored receipt.
- Canonical JSON, event hashes and their verification, and the exact bytes of digests, fingerprints and lock keys.
- The administrative publication command; a published memory can only be read in this model.
- Bounds on string lengths and metadata; the number of interpretation limits and their distinctness are modelled.
- Row-level security, tenant foreign keys and the installation foreign key of the ingress tables.
- Embeddings, ranking scores, context packs, timeline and sealed-content decryption: search starts from ranked hits.
- Base64 decoding is modelled from the semantics of the Python standard library; the limit on the digits of an integer is not.
- HTTP, gRPC framing and certificates' ASN.1: frames and certificates are records; the probe's channels are unbounded and reliable.
- CSR validation, token peppering and signing in the relay; a pairing is looked up by its verifier.
- Manifest digests, versions and report texts of the import, and its test of the owner's identifier, which is always the importing actor's own; applying a staged import to the log.
- Enrollment.BackwardsClockBreaksUniqueness: states a family of counterexamples with fixed instants; the general condition is Enrollment.RedeemUniqueExactly.
- Enrollment.BackwardsRotationBreaksUniqueness: likewise; the general condition is Enrollment.RotateUniqueExactly.
- FingerprintLocks.ChecksAloneRace: shows the race over an empty table.
- SelectionPaging.FollowCursors: needs one ledger version per page read, which a caller always has.
- GenesisPlan.PlanThenPrepare: absence of cycles among staged rows needs injective row identifiers; StableUuid.StableIdsAgreeExactly says when derived identifiers agree.
- Ingress.Database.Execute: does not say which trigger refused, only that the transaction did not commit.
- SearchAssembly.OverlapMayTear: shows the tear on groups that overlap, which a sound projection never lists.
