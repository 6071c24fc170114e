# Verification of the stateful cores of trstctl

Machine-checked models, in Dafny, of five stateful parts of the system and of what they promise over whole
runs. Each part has a machine of single effects over plain values, lemmas about every run of that machine,
and, where the program changes things in place, classes and loops proved against the machine's functions.

**Metering and signed evidence.** `RecorderMemory`, `RecorderWorld` and the `Recorder*` modules hold the
usage recorder, split at its lock boundaries, with any number of calls in flight, one flush, tenants registered
and offboarded, crashes between any two sections, and other processes writing the same table; `RecorderFleet` runs
any number of such processes together, `RecorderCalls` and `RecorderFlushes` follow one call and one flush through
any run, `RecorderEscapes` holds what coverage does not vouch for, and `RecorderEchoes` what a lost answer counts
twice. `MeterStore` is the store's transaction. `Evidence`, `EvidenceTotals`, `Canonical` and `EvidenceDoc` go from observed intervals
to the signed document; `MeteredEvidence` joins both ends. `Issuance` is the hourly issuance table,
`ResourceCollector` the sampling collector.

**Audit retention.** `AuditChain` is the hash chain, `Retention` the machine of archive, announcement and
checkpoint, `RetentionSafety`, `RetentionBooks` and `RetentionTheorems` what every run keeps, `RetentionPass` and
`RetentionWorker` the prefix search and the drain loop.

**Agent.** `AgentLoop` is the select loop with its timers and one worker; `ReportProtocol` and `RelayChannel`
the retained terminal reports; `Journal` and `JournalUploader` the resumable upload of the issuance journal.

**Connection strings.** `Dsn` and `DsnTheorems`: the scanner and printer that redact keyword/value strings.
`DsnDriver` sets the driver's reading beside the redactor's.

**Directory writeback.** `GroupNames`, `GroupReading`, `Writeback` and `WritebackTheorems`.

`Clock`, `Options`, `Sorting` and `Text` are shared. `dafny verify dfyconfig.toml` checks the whole project.

## What the models assume

- A flush transaction is atomic, a replaced registration never becomes live again, and the recorder's clock does
  not go back.
- Hashes are injective: a hash is the tree of what was hashed. A signature is whatever a signer function
  returns for the bytes. Formatted times and refusal wording are parameters.
- Coverage is a set of instants, whole nanoseconds from the zero time.
- Events of other writers in the audit log are not archive announcements of the tenant, and those that arrive while
  a retention pass runs are newer than its cutoff (`RetentionWorker.Late`).
- A segment's file is written in one step, or the write is cut short and leaves a torn file.
- The driver reads connection strings as the redactor does, but for the rule on backslashes outside quotes, which is
  that of keyword/value strings in PostgreSQL's libpq documentation; the driver's source is not part of this model.
- One report worker per agent, and one journal writer whose every append makes the file longer.
- The directory refuses to add a value it already matches and to remove one it does not (section 4.6 of RFC 4511).
  How it matches values, how the writeback compares them, and which entry a group name denotes are parameters.

## Where the program falls short of its promise

Each is stated by a lemma with the condition under which the promise does hold.

- A committed interval does not vouch for a call between its two locked sections at the snapshot
  (`RacingCallCanEscape`), for one that has read its time but not taken its ticket (`LateTicketCanEscape`), for one
  at the very start of the interval (`StartInstantCanEscape`), nor for one another process received
  (`NeighbourCanEscape`). It vouches for every other (`CoverageIsTruthful`, `FleetCoverageIsTruthful`).
- A flush that commits with its answer lost is repeated, and its usage counted twice (`UnheardCountsTwice`,
  `ExactIffHeard`).
- Recorder and collector add to the same coverage, so time only one of them observed counts as observed
  (`SharedCoverageDecides`).
- A separator character inside a meter name makes the canonical form ambiguous (`MeterNameSwallowsLine`,
  `TwoEvidencesOneDigest`).
- A torn overwrite of an archived segment, together with a checkpoint rebuilt by projection before or after it,
  strands the checkpoint (`TornOverwriteStrandsCheckpoint`, `ProjectionBeforeTearStrandsCheckpoint`,
  `SafeIffHarmless`).
- The comparison of reports leaves out the adopted predecessor, so a report sent again may differ from the one
  retained in that field (`AdoptedPredecessorCanDiffer`, `SentExactlyIff`).
- The journal's upload record pins the last entry of the acknowledged prefix, although its comment says it pins
  the prefix (`RewriteCanSkip`, `RewriteIsResentIff`).
- With a second or less to expiry, the next rotation attempt does not come before it (`NextRotationDelay`).
- A connection string whose first keyword reads as a URL after leading blanks redacts to a string the second
  pass treats as a URL (`RedactionIdempotentIff`).
- A secret without quotes in which a backslash takes a blank is masked only up to the blank (`WaitingSecretShows`,
  `ReadingsAgreeIff`).
- Two mapped names for one directory entry can undo each other, and a removal leaves values the directory does not
  match (`SuccessIsExactIff`, `AliasUndoes`, `RemovalTakesIff`). A change whose answer is lost is made but not listed
  (`ReportIsExact`).
- Normalizing a group name drops blanks that belong to it, after an escaped comma or escaped themselves
  (`TwoNamesChange`, `NormalizedReadsSameIff`).

## Model

| member | source | states |
|---|---|---|
| RecorderMemory.Recorder.constructor | ee/billing/recorder.go:53-58 | a new process starts with no counters, no observations and no tickets |
| RecorderMemory.Recorder.TakeTicket | ee/billing/recorder.go:80-85 | the first locked section of Record: a fresh ticket, newest for its tenant, and the registration known before the lookup |
| RecorderMemory.Recorder.Interrupt | ee/billing/recorder.go:94-106 | a failed lookup ends every observation of the tenant, and keeps the delta only under a registration known before the lookup |
| RecorderMemory.Recorder.Commit | ee/billing/recorder.go:111-123 | the second locked section: count the delta; start an observation only for the newest ticket |
| RecorderMemory.Recorder.Snapshot | ee/billing/recorder.go:134-142 | a flush takes all counters and a copy of the observations, leaving no counter behind |
| RecorderMemory.Recorder.Return | ee/billing/recorder.go:180-185 | a failed group is merged back, adding to what arrived meanwhile |
| RecorderMemory.Recorder.Discard | ee/billing/recorder.go:172-179 | an erased registration loses its observation and every queued counter, and nothing else changes |
| RecorderMemory.Recorder.Advance | ee/billing/recorder.go:188-193 | an observation moves on only if it is the very one snapshotted |
| RecorderMemory.GroupByObserver | ee/billing/recorder.go:147-161 | the batch is split into one group per tenant and registration; together the groups are the batch, and quiet observers get an empty group |
| RecorderTheorems.InvariantThroughout | ee/billing/recorder.go:67-202 | every state of every interleaving of calls, flushes, lifecycle changes and crashes keeps the protocol invariant |
| RecorderTheorems.UsageIsConserved | ee/billing/recorder.go:67-202 | conservation: usage accepted under a key, summed over the calls of its own tenant, meter and hour, and what of it is counted a second time, is queued, in the running flush, in the live rows beyond what other processes added there, or erased, voided or lost with a crash; the sum is exact in every reachable state, and a call is accepted under no other key |
| RecorderCalls.CallsAreThoseMade | ee/billing/recorder.go:67-85 | the calls that sum speaks of are, in every run, exactly the calls made, one for one, with tenant, meter, amount and time as given |
| RecorderCalls.CallOutcome | ee/billing/recorder.go:80-123 | through any run, a call whose lookup finds the tenant registered is queued under its own tenant, meter and hour and that registration, and opens an observation exactly when its ticket is still the newest and none is open; one whose lookup fails ends the observation of its tenant, and is kept only under the registration known when it began, and only if the tenant was not found erased |
| RecorderFlushes.FlushCommitsSnapshot | ee/billing/recorder.go:126-170 | through any run, the transaction of a flush adds to each live row exactly what its snapshot had queued under that row, commits the observation from its start to the snapshot, and changes nothing else; refused or unreached it changes nothing |
| RecorderFlushes.FlushSettlesAsAnswered | ee/billing/recorder.go:170-195 | through any run, the flush then does by the answer it got: committed, the observation moves on; erased, the registration is dropped with its counters; failed, the group goes back to the queue |
| RecorderEchoes.ConservedIffSilent | ee/billing/recorder.go:170-187 | nothing is counted twice if and only if accepted usage alone makes up the sum |
| RecorderEchoes.ExactIffHeard | ee/billing/recorder.go:180-185 | without a crash, and while the registration lives, that is so if and only if no flush of the key committed with its answer lost |
| RecorderEchoes.UnheardCountsTwice | ee/billing/recorder.go:134-187 | from any state with usage queued, such a commit stores the usage and leaves it in the flush, to be stored again |
| RecorderTheorems.LiveUsageIsNeverVoided | ee/billing/recorder.go:170-187 | while its registration lives, no usage of a key is voided or erased |
| RecorderTheorems.CoverageIsTruthful | ee/billing/recorder.go:126-195 | a stored interval belongs to the live registration; of each call its process had finished by the snapshot, usage accepted under that registration is in the stored row of its own meter and hour, unless an earlier life of the process lost it, and one made after the start of the interval was accepted under that registration by the very life that committed it, and is in that row |
| RecorderEscapes.RacingCallCanEscape | ee/billing/recorder.go:111-142 | a limit of the previous row: from any reachable state with a call between its two locked sections, a run covers the call and then loses it with the process |
| RecorderEscapes.RacingStateIsReached | ee/billing/recorder.go:80-123 | such a state is reached |
| RecorderEscapes.LateTicketCanEscape | ee/billing/recorder.go:67-85 | the same for a call that has read its time but not yet taken its ticket at the snapshot |
| RecorderEscapes.StartInstantCanEscape | ee/billing/recorder.go:94-123 | a call made at the very instant an interval starts, finished before the snapshot, can have been dropped and still lie in the interval |
| RecorderTheorems.InterruptionIsNeverUndone | ee/billing/recorder.go:80-123 | an interval committed from a snapshot after a failed lookup starts no earlier than the failure |
| RecorderTheorems.SpentForever | ee/billing/recorder.go:111-121 | a ticket whose call has ended is never in flight again in the process, so no late call can present it |
| RecorderTheorems.NewestTicketGrows | ee/billing/recorder.go:80-85 | within one process the newest ticket of a tenant never goes back |
| RecorderTheorems.GenerationsIncrease | ee/billing/recorder.go:114-121 | within one process an observation opened later for a tenant has a strictly larger generation than any open before |
| RecorderFleet.ProcessRun | ee/billing/recorder.go:67-202 | any number of processes write one table: each makes a run of the machine with the others as its surroundings, so whatever holds of every run holds of each |
| RecorderFleet.FleetCoverageIsTruthful | ee/billing/recorder.go:126-195 | each interval in the shared table was committed by a process of the fleet under the live registration, and every call of that process made after its start and finished by the snapshot is in the stored rows under that registration |
| RecorderFleet.FleetRowsAreConserved | ee/billing/pgstore.go:66-134 | a row of the shared table is in every reachable state the sum of what the calls of each process stored there, and of what each stored twice |
| RecorderFleet.NeighbourCanEscape | ee/billing/recorder.go:94-142 | the limit: a call one process dropped can lie strictly inside an interval another committed |
| MeterStore.PgStore.AddCounterRows | ee/billing/pgstore.go:66-78 | each row gains its counter and no other row changes |
| MeterStore.PgStore.FlushObservedCounters | ee/billing/pgstore.go:101-134 | counters and interval are committed together under the live registration, or nothing is |
| MeteredEvidence.RangesHoldIntervals | ee/billing/pgstore.go:124-132 | the stored multirange holds exactly the instants of the committed intervals |
| MeteredEvidence.SignablePeriodIsCounted | ee/billing/pgstore.go:167-200 | from recorder to signature, for all who write coverage: in a signable period each call of each process lies in a span the collector observed or in an interval of the live registration, and one its own process had finished by the snapshot is, if made after the start, in the stored row of its own meter and hour, an hour within the period |
| Evidence.MaySign | ee/billing/evidence.go:77-130 | the first failing guard decides; past the guards the period is signable exactly when every instant is observed, and otherwise the gap named is the first unobserved instant |
| Evidence.DecisionIsFirstReason | ee/billing/evidence.go:77-130 | the reason given is true and no reason that ranks before it is; and the period is signable exactly when it names a customer, lies on whole hours, is over, and the durable coverage spans every instant of it |
| Evidence.Sweep | ee/billing/evidence.go:105-122 | the cursor stops at the first instant no interval holds, for unsorted, overlapping or empty input sorted beforehand |
| Evidence.DecisionUnique | ee/billing/evidence.go:77-130 | the specification leaves no choice: two decisions that meet it are equal |
| Evidence.UnionCovers | ee/billing/pgstore.go:124-132 | merging a range into the multirange loses no instant and closes no gap |
| Evidence.StoredCoverageDecides | ee/billing/pgstore.go:167-200 | for coverage read back from the store the outer bounds never refuse a fully observed period |
| EvidenceTotals.Totals | ee/billing/evidence_doc.go:86-106 | one line per meter seen in the period, kind of its first record, value folded in store order |
| EvidenceTotals.CountersSum | ee/billing/evidence_doc.go:99-105 | counters sum |
| EvidenceTotals.LastGaugeWins | ee/billing/evidence_doc.go:99-105 | a gauge takes its last record, plus only what is counted after it |
| EvidenceTotals.SortedLines | ee/billing/evidence_doc.go:115-118 | the lines are the totals, sorted by meter, each once |
| EvidenceTotals.LinesUnique | ee/billing/evidence_doc.go:115-118 | the sorted lines do not depend on the order the map is walked in |
| Canonical.CanonicalBytes | ee/billing/evidence_doc.go:193-216 | the built text is the row rendering of the covered fields |
| Canonical.CanonicalFormUnambiguous | ee/billing/evidence_doc.go:193-216 | two documents free of separator characters with equal bytes agree on every covered field |
| Canonical.MeterNameSwallowsLine | ee/billing/evidence_doc.go:193-216 | the limit of the previous row: a meter name is any text, and one holding separators lets documents with different lines share their bytes |
| EvidenceDoc.ReconcileEvidence | ee/billing/evidence_reconcile.go:79-127 | the checks made and their order: one for the primary meter, then one for each other line; each holds the metered value, what the recount or gauge answered, whether it was checked, and a match exactly when the two are equal; an error exactly when a recount or gauge that is asked fails |
| EvidenceDoc.ReconciliationBlocksSigning | ee/billing/evidence_reconcile.go:134-154 | nothing blocks exactly when the primary meter was checked and every checked meter matched; otherwise the verdict names the first cause with its meter, metered value and recount |
| EvidenceDoc.AgreesIffConfirmed | ee/billing/evidence_reconcile.go:79-154 | nothing blocks if and only if the recount of the issued certificates is known and equals their line, and each gauge that answers equals its line |
| EvidenceDoc.BuildEvidence | ee/billing/evidence_doc.go:85-138 | the document carries the lines of the records and the decision for the period |
| EvidenceDoc.BuildSignedEvidence | ee/billing/evidence_doc.go:149-183 | the staged construction, error paths included, for every signer and reconciler |
| EvidenceDoc.SigningIsExact | ee/billing/evidence_doc.go:149-183 | a returned document is signable exactly when it carries a signature, exactly when coverage allows it, the recount is known and equals the line, every checked gauge equals its line, and there is a signer; digest and signature are over the final canonical bytes, and lines and checks are those of the records |
| EvidenceDoc.DocumentSays | ee/billing/evidence_doc.go:107-183 | customer, period and observed bounds as given, and the reason: that of the decision, of the reconciliation that blocks, or the missing key, each exactly in its case |
| EvidenceDoc.SigningFailsIff | ee/billing/evidence_doc.go:149-183 | no document is returned if and only if a recount fails or the signer fails on the bytes of a document that may be signed |
| EvidenceDoc.SignedEvidenceIsStable | ee/billing/evidence_doc.go:85-183 | a signable period builds the same document whatever the walk order, build time or later coverage |
| EvidenceDoc.CoverageOnlyGrows | ee/billing/evidence.go:77-130 | a signable period stays signable under more coverage and at later times |
| EvidenceDoc.TwoEvidencesOneDigest | ee/billing/evidence_doc.go:85-138 | the same for built documents: those of two records, and of one whose meter name holds the text of the other, have one digest and different lines |
| Issuance.FirstMintsAreFirst | ee/billing/issuance_counters.go:51-103 | each minted fingerprint is counted once, under its first mint |
| Issuance.MeterTable.RefreshIssuedTenant | ee/billing/issuance_counters.go:51-103 | the rows of the tenant are replaced exactly when it is live and its history is known, and otherwise untouched |
| Issuance.HistoryKnownIff | ee/billing/issuance_counters.go:51-103 | history is known if and only if the ledger says so, every receipt is classified and verified, and each issued certificate names its event and is self-describing or has a receipt |
| Issuance.RefreshReplacesIssued | ee/billing/issuance_counters.go:51-103 | the replaced rows are the issued counter of each whole hour with a first mint, holding the number of fingerprints first minted in it; every other row, of the tenant or of another, is kept |
| Issuance.RefreshIsIdempotent | ee/billing/issuance_counters.go:51-103 | a repeated refresh changes nothing |
| Issuance.HourlyTotalIsRecount | ee/billing/pgstore.go:256-285 | the hourly table refines the recount: over any whole-hour period the rows sum to the count of distinct fingerprints by first mint |
| Issuance.RefreshedEvidenceReconciles | ee/billing/evidence_reconcile.go:79-104 | after a refresh the primary meter is checked exactly when history is known, and then matches |
| ResourceCollector.Collector.constructor | ee/billing/collector.go:32-38 | a new process remembers no sample |
| ResourceCollector.Collector.CollectResources | ee/billing/resource_snapshots.go:23-68 | one tenant is sampled: the log gains exactly the sample and the coverage its transaction committed by the bridge rule, and the sample is remembered only if the call succeeded |
| ResourceCollector.ReadingLogged | ee/billing/resource_snapshots.go:23-68 | what is logged is what was read: the sample of a success, whatever a failed call still committed, and a span only from the sample before to this one under one registration |
| ResourceCollector.Collector.UseInterval | ee/billing/collector.go:113-120 | collecting at an interval permits a gap of two intervals between samples, and the default interval when none is given |
| ResourceCollector.Collector.Snapshot | ee/billing/collector.go:47-111 | a failed listing or an expired sweep forgets every sample; otherwise exactly the listed tenants read successfully are remembered; the log gains each reading up to where the sweep ended, and then its loss or the tenants no longer listed |
| ResourceCollector.SpansJoinSuccessiveSamples | ee/billing/resource_snapshots.go:49-63 | coverage is committed if and only if it joins two successive samples of one process and registration, increasing, within the permitted gap, with no fault, absence or restart in between |
| ResourceCollector.SharedCoverageDecides | ee/billing/resource_snapshots.go:55-63 | collector and recorder share one multirange: a period is signable exactly when each instant was observed by either, so a gap of one alone need not show |
| AuditChain.SealFrom | internal/audit/chain.go:69-83 | records are sealed with the running hash from a seed; the head is the hash of the whole |
| AuditChain.VerifyChainFrom | internal/audit/chain.go:105-118 | accepts exactly the intact chains and returns their head |
| AuditChain.SealedVerifies | internal/audit/chain.go:69-118 | what is sealed verifies, with the same head |
| AuditChain.HeadSettlesCores | internal/audit/chain.go:43-56 | equal seed, head and length mean equal records |
| AuditChain.HistorySplits | internal/audit/audit.go:161-173 | a tenant history splits at any log position, with ordinals continuing from the base |
| AuditChain.StreamCuts | internal/audit/audit.go:161-173 | cutting the log at the position of a record cuts the history of its tenant right after that record |
| AuditChain.SurvivingHashesUnchanged | internal/audit/audit.go:213-345 | records read after a checkpoint, linked from its hash, keep the hashes they had |
| RetentionTheorems.SafeIffHarmless | ee/auditcompliance/retention.go:182-343 | a run, with crashes between any two effects and rows rebuilt even between reading the records and writing them, keeps the retention invariant up to a state if and only if each row rebuilt so far met a whole segment and no write was torn at a boundary already saved |
| RetentionTheorems.UntornIsHarmless | ee/auditcompliance/retention.go:182-343 | that is so in every run without a torn write |
| RetentionTheorems.TearSafeIffUnsaved | ee/auditcompliance/retention.go:50-53 | one torn write keeps the invariant if and only if no checkpoint is saved at the boundary it hits |
| RetentionTheorems.RetentionIsCrashSafe | ee/auditcompliance/retention.go:182-343 | under that condition each saved checkpoint has a whole, verified segment ending at its boundary and exactly one matching announcement |
| RetentionBooks.BooksThroughout | ee/auditcompliance/retention.go:214-343 | in every run, torn writes and rebuilt rows included, log and checkpoints agree |
| RetentionBooks.SavedIsAnnouncedOnce | ee/auditcompliance/retention.go:300-343 | in every run a saved checkpoint is a true boundary of the history, with exactly one matching announcement |
| RetentionTheorems.ProjectionSafeIffWhole | internal/store/audit_checkpoint.go:68-94 | rebuilding a checkpoint row from its event keeps the invariant if and only if its archived segment is whole |
| RetentionTheorems.TornOverwriteStrandsCheckpoint | ee/auditcompliance/retention.go:39-64 | a torn overwrite by the directory archiver followed by projection leaves a checkpoint whose segment cannot be read |
| RetentionTheorems.ProjectionBeforeTearStrandsCheckpoint | ee/auditcompliance/retention.go:213-271 | so does a row rebuilt from a whole segment after the records were read, followed by a torn overwrite |
| RetentionTheorems.SegmentsLink | ee/auditcompliance/retention.go:214-298 | each segment begins at the hash where the one before it ends |
| RetentionTheorems.ArchivedHistorySplices | ee/auditcompliance/retention.go:214-365 | the archived segments in order, followed by the live records, are the full history, and the counts add up |
| RetentionTheorems.HashesNeverChange | ee/auditcompliance/retention.go:214-298 | in every run a surviving record is served with the hash it had when it was written |
| RetentionTheorems.AcceptedObjectIsTheSegment | ee/auditcompliance/object_archiver.go:35-71 | an object the create-once archiver accepts as already stored holds the very records of the segment |
| RetentionTheorems.PrunedSourceBlocks | ee/auditcompliance/retention.go:182-213 | a latest checkpoint whose source records are no longer all in the log stops the round before anything is written |
| RetentionTheorems.AnnouncedExactly | ee/auditcompliance/retention.go:300-343 | the announcement carries the count, boundary, hash and location of its checkpoint; it is appended once, found again, and a conflicting one is refused |
| RetentionTheorems.ProjectionRestores | internal/store/audit_checkpoint.go:68-94 | projecting an announcement puts back exactly the checkpoint it announces |
| RetentionTheorems.VerifiedIsContiguous | internal/audit/audit.go:652-691 | a segment that verifies is an intact chain of one tenant, numbered without a gap, with the count and head it states |
| RetentionPass.LeadingDue | ee/auditcompliance/retention.go:223-226 | the longest leading run of due records |
| RetentionPass.LargestFit | ee/auditcompliance/retention.go:230-250 | the search returns a prefix that fits, largest when size is monotone, and fails only when it must |
| RetentionPass.ChooseCut | ee/auditcompliance/retention.go:223-250 | the cut is a prefix of the due records that fits 524288 bytes and that one more due record would overfill, the largest that fits when size is monotone; nothing is due exactly when there is no record or the first is newer than the cutoff; none is signable only when one record alone is too big or a size cannot be told |
| RetentionPass.CheckThenRead | ee/auditcompliance/retention.go:182-226 | from sound books a round passes its check and reads the whole log by steps of the machine |
| RetentionPass.RoundIsPath | ee/auditcompliance/retention.go:250-298 | and what it then does is the machine archiving, announcing and saving that cut, in this order |
| RetentionPass.RoundReducesDue | ee/auditcompliance/retention.go:214-298 | a round reduces the due count by exactly what it moved, although it appends its own event |
| RetentionWorker.Worker.EnsureEvent | ee/auditcompliance/retention.go:300-343 | the announcement is there afterwards, or the call refuses over a conflicting one |
| RetentionWorker.Worker.ArchiveTenant | ee/auditcompliance/retention.go:182-298 | one round keeps the invariant and seals exactly the cut of ChooseCut: due records within 524288 bytes that one more would overfill, the most that fit when size is monotone; it is refused, changing nothing, only when no such cut exists or another segment holds the place, and says nothing is due exactly when there is no record or the first is newer than the cutoff |
| RetentionWorker.Worker.CheckLatest | ee/auditcompliance/retention.go:182-213 | the latest checkpoint is checked against the log, and announced again if that was lost, as the machine does |
| RetentionWorker.Worker.Drain | ee/auditcompliance/retention.go:105-138 | the drain loop terminates; each of its rounds, with what arrived before it, sealed the cut of what was due then; it counts exactly what moved, and ends with nothing due or a refused round |
| AgentLoop.Agent.OnHeartbeat | cmd/trstctl-agent/main.go:1122-1235 | the heartbeat case of the loop, as the machine specifies it; what that does is stated by HeartbeatAsks and RequestedIffAsked |
| AgentLoop.HeartbeatAsks | cmd/trstctl-agent/main.go:1122-1235 | a heartbeat that succeeds and asks for renewal makes it requested, promptly or behind the worker; one that fails or does not ask leaves request and timers alone; neither touches the worker |
| AgentLoop.AskedRenewalIsTried | cmd/trstctl-agent/main.go:1122-1235 | in any run a renewal asked for is held, promptly, until an attempt made with it in hand |
| AgentLoop.RequestedIffAsked | cmd/trstctl-agent/main.go:1122-1235 | in any run a renewal is held if and only if it was asked for, by a heartbeat or at the start, and none was attempted since |
| AgentLoop.Agent.OnRelayTimer | cmd/trstctl-agent/main.go:1122-1235 | the polling case: start the one worker, or disarm |
| AgentLoop.Agent.OnRelayResult | cmd/trstctl-agent/main.go:1122-1235 | the worker result case: re-arm polling, or run the rotation that waited |
| AgentLoop.Agent.OnRotateTimer | cmd/trstctl-agent/main.go:1122-1235 | the rotation case: renew, or wait behind the worker |
| AgentLoop.EntryIsPrompt | cmd/trstctl-agent/main.go:1007-1054 | the loop starts sound, with the first poll due at once and the rotation due at once exactly when one is requested |
| AgentLoop.PollStarts | cmd/trstctl-agent/main.go:1122-1235 | a poll starts the one worker, or hands over to a prompt rotation when the identity has expired |
| AgentLoop.ResultFrees | cmd/trstctl-agent/main.go:1122-1235 | a result leaves no worker; the rotation that waited comes due at once, or polling is armed again, promptly after work |
| AgentLoop.RotationWaits | cmd/trstctl-agent/main.go:1122-1235 | a rotation that comes due beside a worker waits for it, and nothing is attempted |
| AgentLoop.AttemptHonours | cmd/trstctl-agent/main.go:1122-1235 | an attempt takes the request with it, runs beside no worker, and ends the loop exactly when it renewed; otherwise both timers are armed again |
| AgentLoop.StartsAndAttempts | cmd/trstctl-agent/main.go:1122-1235 | in any run there is one worker for each poll of a live identity and one renewal for each rotation due without a worker; the loop has ended exactly by a renewal or by being stopped |
| AgentLoop.SoundThroughout | cmd/trstctl-agent/main.go:1122-1235 | the loop invariant holds in every state of every run |
| AgentLoop.LoopIsSafe | cmd/trstctl-agent/main.go:1122-1235 | at most one worker; no renewal beside a worker; a deferred rotation has a worker to wait for; the rotate timer is armed or a rotation is pending |
| AgentLoop.RequestNeverLost | cmd/trstctl-agent/main.go:1122-1235 | a requested renewal is held, promptly, until an attempt honours it |
| AgentLoop.PollingIsNotStuck | cmd/trstctl-agent/main.go:1122-1235 | what disarmed polling waits for can happen |
| AgentLoop.PollingResumes | cmd/trstctl-agent/main.go:1122-1235 | disarmed polling is armed again after at most one result and one attempt |
| AgentLoop.NextRotationDelay | cmd/trstctl-agent/main.go:1987-2035 | the delay is positive, is the target without a random source and within a tenth of it with one, is twelve hours without a certificate to go by, and lands before expiry if and only if more than a second remains |
| ReportProtocol.GoodThroughout | cmd/trstctl-agent/relay_report_state.go:30-98 | every state of every run with crashes keeps the report invariant |
| ReportProtocol.ReportBeforeClaim | cmd/trstctl-agent/relaychannel.go:78-104 | whenever work is claimed, each report stored before has been acknowledged in between |
| ReportProtocol.StoredBeforeSent | cmd/trstctl-agent/relay_report_state.go:30-37 | each report sent was stored before, with the same job, attempt and facts but for the adopted predecessor, and not yet acknowledged |
| ReportProtocol.AcknowledgedMeansAccepted | cmd/trstctl-agent/relay_report_state.go:81-97 | an acknowledgement follows acceptance by the server of that report and the cleanup of its host key |
| ReportProtocol.RecoverySendsStored | cmd/trstctl-agent/relay_report_state.go:39-56 | in any run, between a crash with a report outstanding and the next claim that report is sent again, with its job, attempt and facts; and exactly as stored under the condition of SentExactlyIff |
| ReportProtocol.SentExactlyIff | cmd/trstctl-agent/relay_report_state.go:30-56 | in any run each report sent is exactly the one outstanding if and only if no report naming another predecessor than the one retained is directly followed by a send |
| ReportProtocol.SentAsStored | cmd/trstctl-agent/relay_report_state.go:30-56 | so in a run without one each report sent is exactly one that was stored |
| ReportProtocol.AdoptedPredecessorCanDiffer | internal/agent/reportstate/store.go:530-552 | a run in which the report sent differs from the one stored, in the adopted predecessor only |
| ReportProtocol.FaultIff | internal/agent/reportstate/store.go:336-448 | the store is faulted exactly by a report it cannot retain, a different one than it holds, a write not known to be durable, or a removal not known to be |
| ReportProtocol.FaultLastsUntilRestart | internal/agent/reportstate/store.go:336-448 | in any run nothing at all happens between a fault and a restart, and the restart finds what was on disk |
| ReportProtocol.StoredIsWellFormed | internal/agent/reportstate/store.go:510-528 | in any run every report stored names a positive job and attempt, and a host renewal only with its outcome, custody, fingerprint, connector, target and binding |
| RelayChannel.SendSignedReport | cmd/trstctl-agent/relaychannel.go:247-299 | at most six calls, stopping where the law says and nowhere else: only transient failures are retried; acceptance exactly when a try is reached whose reply accepts or records; waits between half and all of the backoff |
| RelayChannel.BackoffDoubles | cmd/trstctl-agent/relaychannel.go:247-299 | the backoff starts at a quarter of a second and doubles up to four seconds |
| RelayChannel.Channel.PutReport | internal/agent/reportstate/store.go:336-411 | retain a report: the call succeeds exactly when the store is healthy, the report can be retained, and it is the one held or its write is durable; the store afterwards is as specified |
| RelayChannel.Channel.AcknowledgeReport | internal/agent/reportstate/store.go:414-448 | drop the retained report only if it is the one sent; success exactly when a healthy store holds nothing or drops it durably |
| RelayChannel.Channel.SendObservation | cmd/trstctl-agent/relay_report_state.go:58-98 | takes exactly the steps its effects call for: send until the law stops it, then clear the host key, then acknowledge, each only after the one before; accepted exactly when all of them succeed, and then nothing is outstanding |
| RelayChannel.Channel.RetainAndSendReport | cmd/trstctl-agent/relay_report_state.go:30-37 | the report is put on disk first and sent only if retained; accepted exactly when the store is healthy, the report retained, delivered, its key cleared and its removal durable |
| RelayChannel.Channel.RecoverPendingReport | cmd/trstctl-agent/relay_report_state.go:39-56 | what is retained is delivered again, step by step as its effects call for; success exactly when the store is healthy and nothing was retained or its delivery completed durably |
| RelayChannel.Channel.ClaimJobs | cmd/trstctl-agent/relaychannel.go:78-104 | recovery first; a claim is made if and only if the store is healthy and nothing was retained or its delivery completed durably |
| RelayChannel.DeliveryIsSettled | cmd/trstctl-agent/relay_report_state.go:30-98 | the effects settle the steps of a report or a recovery: there is one sequence of steps they allow |
| RelayChannel.PathExtendsRun | cmd/trstctl-agent/relay_report_state.go:30-98 | what the methods do continues a run of the protocol, so every promise about runs holds of them |
| Journal.RecordedPrefixIsAcknowledged | cmd/trstctl-agent/edgejournal_upload.go:81-132 | over any mix of appends, uploads and crashes, each entry of at most 16384 bytes before the recorded position was acknowledged, the next upload resumes there, and every request held at most 500 entries of at most that size |
| Journal.FinishedUploadHandledAll | cmd/trstctl-agent/edgejournal_upload.go:81-132 | an upload that finishes has handled the whole journal as read |
| Journal.GrowthIsNoticed | cmd/trstctl-agent/edgejournal_upload.go:50-76 | a heartbeat that reads the stamp and starts no upload leaves nothing behind |
| Journal.HeartbeatStartsIff | cmd/trstctl-agent/edgejournal_upload.go:50-76 | in any run a heartbeat starts an upload if and only if there is a journal and the agent has reconnected, the last upload failed, or the stamp is read and has changed; it changes nothing else |
| Journal.QuietAfterSuccess | cmd/trstctl-agent/edgejournal_upload.go:50-76 | after an upload of the journal as it stands, heartbeats change nothing until it grows or the agent reconnects |
| Journal.RestartUploads | cmd/trstctl-agent/edgejournal_upload.go:50-76 | after a restart the first heartbeat that reads the stamp uploads, whatever was uploaded before |
| Journal.ReadBegins | cmd/trstctl-agent/edgejournal_upload.go:81-99 | an upload takes the journal as read and starts at the recorded count if a readable record names an entry of it with the recorded hash, and at the start otherwise |
| Journal.FailureIsRetried | cmd/trstctl-agent/edgejournal_upload.go:50-76 | in any run, after a failed upload every heartbeat starts an upload until one finishes or the process crashes |
| Journal.GoodAppend | cmd/trstctl-agent/edgeca.go:353-375 | appending an entry keeps the recorded prefix, and any upload in progress, truthful |
| JournalUploader.CollectPart | cmd/trstctl-agent/edgejournal_upload.go:102-112 | the entries of a part that fit in a request, in order |
| JournalUploader.Uploader.UploadEdgeJournal | cmd/trstctl-agent/edgejournal_upload.go:81-132 | takes exactly the steps its effects call for; success acknowledges everything from the resume point that fits in a request |
| JournalUploader.Uploader.AfterHeartbeat | cmd/trstctl-agent/edgejournal_upload.go:50-76 | takes exactly the steps its effects call for, an upload being started as HeartbeatStartsIff says, and keeps the invariant; when nothing fails the whole journal is handled |
| JournalUploader.OutcomeIsSettled | cmd/trstctl-agent/edgejournal_upload.go:50-132 | the effects settle the steps of an upload: there is one sequence of steps they allow |
| JournalUploader.RewriteIsResentIff | cmd/trstctl-agent/edgejournal_upload.go:95-99 | after any run, a journal rewritten under the same path is sent from the start if and only if it has become shorter than the recorded prefix or the last entry of that prefix has changed |
| JournalUploader.RewriteCanSkip | cmd/trstctl-agent/edgejournal_upload.go:24-32 | after any run, exchanging any other entry of the recorded prefix for a new one leaves the new one unsent by an upload that succeeds |
| JournalUploader.TwoRecorded | cmd/trstctl-agent/edgejournal_upload.go:81-132 | such a record is reached: two entries appended, sent and recorded |
| Dsn.HasUrlScheme | cmd/trstctl/main.go:716-730 | recognises exactly the scheme syntax of section 3.1 of RFC 3986 followed by the two slashes |
| DsnTheorems.StartsWithSchemeIff | cmd/trstctl/main.go:716-730 | the same without the scanner: a letter, then letters, digits, plus, minus or dot, then a colon and two slashes |
| Dsn.ScanQuoted | cmd/trstctl/main.go:747-821 | a quoted value is found to its closing quote, and the scan ends even when an escape steps past the end |
| Dsn.ScanPair | cmd/trstctl/main.go:747-821 | one keyword, equals sign and value, read as the grammar reads them |
| Dsn.RedactKeywordValueDsn | cmd/trstctl/main.go:747-821 | the scanner and printer compute the redaction defined on the grammar |
| DsnTheorems.PrintedPairsLexBack | cmd/trstctl/main.go:747-821 | printing well-formed pairs and lexing the text gives the pairs back |
| DsnTheorems.RedactionLexesBack | cmd/trstctl/main.go:747-821 | the output lexes to the same keys in order, other values byte for byte, and exactly the mask for secrets |
| DsnTheorems.CredentialsAreMasked | cmd/trstctl/main.go:700-821 | the keys password, passfile and sslpassword, in any mix of upper and lower case, show five letters x in place of their value, every other key its value; what does not lex becomes the notice |
| DsnTheorems.SecretsDoNotShow | cmd/trstctl/main.go:747-821 | any two strings redact to the same text if and only if they agree on all that is not secret, strings that do not lex included |
| DsnTheorems.OutputSchemeIffInput | cmd/trstctl/main.go:716-821 | the output starts with a URL scheme exactly when the input without its leading blanks does |
| DsnTheorems.RedactionIdempotentIff | cmd/trstctl/main.go:716-821 | redacting again gives the same text if and only if the input, without leading blanks, does not start with a scheme (or does not lex) |
| DsnTheorems.LeadingBlankHidesScheme | cmd/trstctl/main.go:716-821 | the family of inputs for which redacting again differs |
| DsnTheorems.HiddenSchemeExample | cmd/trstctl/main.go:716-730 | the family is not empty |
| DsnDriver.ReadingsAgreeIff | cmd/trstctl/main.go:739-809 | of a string that lexes, the redactor and the driver read the same pairs if and only if no value without quotes ends in a backslash that takes the blank after it |
| DsnDriver.RedactsForDriver | cmd/trstctl/main.go:739-821 | without such a value the text masks every secret the driver reads, or is the notice |
| DsnDriver.WaitingSecretShows | cmd/trstctl/main.go:796-810 | with one, the rest of a secret is printed as a pair of its own |
| GroupNames.NormalizeGroupDN | ee/enterpriseauth/ldap_writeback.go:97-103 | computes the normal form |
| GroupNames.BlankIff | ee/enterpriseauth/ldap_writeback.go:97-103 | the characters trimmed, listed one by one |
| GroupNames.NormalizedIdempotent | ee/enterpriseauth/ldap_writeback.go:97-103 | normalizing twice is normalizing once |
| GroupNames.NormalIffTrimmed | ee/enterpriseauth/ldap_writeback.go:97-103 | a name is left alone exactly when no piece begins or ends with a blank |
| GroupNames.NormalizedPieceByPiece | ee/enterpriseauth/ldap_writeback.go:97-103 | normalizing trims each piece between commas and does nothing else |
| GroupReading.NormalizedReadsSameIff | ee/enterpriseauth/ldap_writeback.go:97-103 | the normalized name says what the name said if and only if no piece ends in a blank taken by a backslash and none that follows an escaped comma starts with a blank, unless it is all blanks |
| GroupReading.EscapedCommaChanges | ee/enterpriseauth/ldap_writeback.go:97-103 | a blank after an escaped comma is dropped from the name |
| GroupReading.EscapedBlankChanges | ee/enterpriseauth/ldap_writeback.go:97-103 | dropping an escaped blank at the end of a part makes one part of two |
| GroupReading.TwoNamesChange | ee/enterpriseauth/ldap_writeback.go:97-103 | one name of each kind |
| Writeback.GroupList | ee/enterpriseauth/ldap_writeback.go:123-132 | every mapped group once, by normalized name, sorted |
| Writeback.GroupListUnique | ee/enterpriseauth/ldap_writeback.go:123-132 | the list does not depend on the order the map is walked in |
| Writeback.Directory.ReconcileGroup | ee/enterpriseauth/ldap_writeback.go:134-165 | one group: search, compare, and at most one change, ending as VisitEnds and AdditionTakesIff say |
| Writeback.Directory.Apply | ee/enterpriseauth/ldap_writeback.go:106-167 | the loop computes the specified outcome, for every pattern of refusals and lost answers; when every request is answered it succeeds as AnsweredRunSucceedsIff says |
| WritebackTheorems.RemovalTakesIff | ee/enterpriseauth/ldap_writeback.go:134-165 | an answered removal succeeds if and only if the directory matches the value, and takes the member out if and only if nothing else there looks like it to the writeback |
| WritebackTheorems.AdditionTakesIff | ee/enterpriseauth/ldap_writeback.go:134-165 | an answered addition succeeds if and only if the entry is there and the directory does not already match the value, and then the entry gains exactly the member and the group is listed; otherwise nothing changes |
| WritebackTheorems.VisitEnds | ee/enterpriseauth/ldap_writeback.go:134-182 | any one visit: tried again exactly when an answer was lost; refused exactly when the directory refuses, has no such entry, or cannot make the change; and the change is made exactly when needed, possible and not refused or lost on the way |
| WritebackTheorems.AnsweredRunSucceedsIff | ee/enterpriseauth/ldap_writeback.go:106-182 | when every request is answered the run succeeds if and only if each mapped entry exists and, as it stood at the start: a wanted one shows the member or has no value the directory matches, and an unwanted one that holds a look-alike the directory does not match also holds one it does, named by no earlier unwanted group |
| WritebackTheorems.AnsweredRunIsExact | ee/enterpriseauth/ldap_writeback.go:106-167 | and if directory and writeback compare members alike and the entries exist it always succeeds, and leaves the member in exactly the wanted groups if and only if no two names that differ on being wanted denote one entry |
| WritebackTheorems.LastNameDecides | ee/enterpriseauth/ldap_writeback.go:106-167 | after success the member is in an entry exactly when the last mapped name for it is wanted, or the entry held a value the directory does not match |
| WritebackTheorems.SuccessIsExactIff | ee/enterpriseauth/ldap_writeback.go:106-167 | success leaves the member in exactly the wanted mapped groups if and only if no two names that differ on being wanted denote one entry and no unwanted entry held a value the directory does not match |
| WritebackTheorems.LooserLeavesNone | ee/enterpriseauth/ldap_writeback.go:133-165 | a directory that matches whatever the writeback takes for the member never meets that second case |
| WritebackTheorems.RolesDecideMembership | ee/enterpriseauth/ldap_writeback.go:69-77 | from roles to membership: after a success that is exact as above, the member is in a group exactly when active and holding a role mapped to it |
| WritebackTheorems.AliasUndoes | ee/enterpriseauth/ldap_writeback.go:106-167 | two names for one entry: the wanted change is made and undone, but for what the directory does not match |
| WritebackTheorems.OthersUntouched | ee/enterpriseauth/ldap_writeback.go:106-167 | in any run no entry appears or disappears, an entry keeps in order every value the directory does not match with the member, and an unmapped entry is unchanged |
| WritebackTheorems.SecondRunChangesNothing | ee/enterpriseauth/ldap_writeback.go:106-167 | after a success that left the member in line another run changes nothing, whatever the directory answers |
| WritebackTheorems.ReportIsExact | ee/enterpriseauth/ldap_writeback.go:106-167 | stopped or finished, the lists of added and removed groups are exactly the changes made, but for at most one change whose answer was lost |

## Left out

- Stores that are not durable: the in-memory store, the collector's fallback counts, and reports without a
  pending store; none of them can authorise signed evidence or promise recovery.
- Usage roll-ups, quotas, pricing and the gauge recount's own query; audit anchoring.
- SQL, row-level security and PostgreSQL locking; transactions are atomic steps over maps and sequences.
- 64-bit overflow of counters and 32-bit lengths: numbers are unbounded.
- The pass over many tenants in one retention run: the drain loop of one tenant is modelled, the sum over
  tenants only adds its counts.
- Redaction of personal data in audit searches, signing and verification of bundles beyond their content, and
  the spelling of archive locations.
- The agent's outer reconnect loop, its heartbeat spacing and the retries inside one renewal; the loop model
  takes each attempt's outcome as an input.
- Non-terminal job reports, and the local account, SSH and dependent-task fences around claiming.
- The store's sealed file format, its key and the set-aside of unreadable reports.
- The counts a journal upload adds up from the server's answers.
- URL-shaped connection strings: only the test for the scheme is modelled.
- Case mapping beyond ASCII in connection-string keywords, and the case mapping of member names, which is part of
  the two comparison keys.
- Dialling, binding and time limits of the directory connection; they fail before any group is visited.
- A group search that succeeds without showing the entry, as access rules may make it; a successful search shows it.
