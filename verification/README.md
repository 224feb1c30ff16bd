# Briefcase, verified

Briefcase stores files for people, software agents and the apps that act for them. Metadata live in
PostgreSQL and bytes in an object store, and no transaction spans the two. This project models the
parts of the service where that, or untrusted input, makes correctness hard, and proves what the
service promises there. `dafny verify dfyconfig.toml` checks all of it.

## What is modelled

- **Delegated uploads** (`delegated_*.dfy`). One row moves through reserved, receiving, staged,
  committed, quarantine and its two ends. `delegated_row` gives every UPDATE as a function,
  `delegated_ledger` makes the same changes in place, and `delegated_protocol` lets writers, provider
  calls, sweepers, cleanup workers and a clock take steps in any order. `delegated_worker` is the cleanup
  procedure as it is written, acting on the stored row, with all others acting between any two of its
  calls; each call is one protocol step. `delegated_safety` holds the invariant, `delegated_theorems` the
  results, and `delegated_progress` says exactly which quarantines can end. `delegated_store` follows one
  transfer and its publication, bytes included.
- **Receiving and moving bytes** (`staging`, `digests`, `object_store`, `content_restore`,
  `content_publication`, `restore_attempts`). Staging with any chunk sizes, digests with any short reads,
  multipart transfers, large restores from a source that may change, publication compensated by an armed
  guard, and several attempts at one reserved restore whose cleanups may overlap.
- **The filter language** (`filter_*.dfy`). Tokenizer, recursive-descent parser with mutable state,
  exactly which texts it accepts, what every word and every key means, a canonical printer, the evaluator
  that consumes database answers by position, and the compiler from globs to SQL LIKE.
- **Zip archives** (`zip_*.dfy`), after sections 4.3.12, 4.3.14, 4.3.15, 4.3.16 and 4.5.3 of PKWARE's
  APPNOTE.TXT: the end-record search, zip64 records, directory entries with nested extra fields, and
  the ranged reads that tie them together. `calendar` serves dates here and in filters.
- **Multipart sizing** (`multipart`), **paths and addresses** (`entry_path`, `entry_url`, with sections
  2.1 and 5.2.4 of RFC 3986) and **moving between drives** (`drives`).

## Assumptions

- Every upload id has a fresh provider key, and one lease makes one attempt at it.
- A writer's call is started within its time budget; the budget starts strictly before the
  compare-and-set that records `provider_deadline_at` as the time of that compare-and-set plus the same
  timeout.
- Creating a session and uploading a part take effect no later than their deadline plus the fence of
  120 seconds. For a PUT or an assembly not even that is assumed: either may land at any later time.
- Parts belong to their session: aborting a session removes its parts.
- SHA-256 is injective: a digest stands for its bytes, a composite checksum for the list of its part
  digests. Checksums the provider reports are true of the object. Byte integrity trusts nothing else in a
  reply; the upload protocol also trusts the version and ETag a reply names to be those of the object.
- In the upload protocol an abort or a delete that was not answered may take effect at any later time.
  In `restore_attempts` a cleanup counts as over only when its deletion can no longer take effect.
- Provider and database calls may fail with or without effect. Lookups are strongly consistent.
- A transaction that returns an error has rolled back.
- A cleanup worker's lease is not zero: the configuration refuses one that is not longer than the poll
  interval (src/config.rs:454-475).

## Where the code and its words differ

- The parser's documentation calls an operator without an operand an error. The code is more lenient:
  `and` and `or` may lead, repeat or end a group, and only an operator that is the last token of the text
  is refused, whereas `not` always needs an operand that yields an expression
  (`FilterAcceptance.AcceptedIff` is exact, `FilterTextRoundTrip.DanglingInsideGroup` gives inputs).
- A zip64 locator is followed wherever it points. For offsets within 56 of 2^64 the code's bounds test
  wraps in an optimized build, and the slice after it is out of bounds
  (`ZipListing.ListingInBoundsIff`, `ZipListing.WrappingLocator`). Instead of being called malformed, the
  file then stops the process, because that build aborts where it would otherwise unwind.
- `location:` is documented as a prefix match. A term that ends in a literal `%` is matched exactly
  instead (`FilterLike.PrefixIsPrefixIff` says for which terms, and what is matched otherwise is
  `FilterLike.PrefixMeans`).
- The publication guard is documented to stay armed while an object has no matching database state. It
  is also armed while a commit is unanswered, so a request cancelled there can lose the object of a
  version that was in fact published (`ContentPublication.PublishedHasItsObjectIff`).
- A lease is meant to give a restore's reservation to one attempt at a time. A cleanup is not bounded by
  it, and one that outlasts it can take away what the next attempt published at the same key
  (`RestoreAttempts.CanLoseIff`, `RestoreAttempts.SlowCleanupLoses`).

## Model

| member | source | states |
|---|---|---|
| `DelegatedLedger.UploadRecord.Reserve` | src/infrastructure/postgres/content/delegated.rs:170-200 | repeating an existing reservation expires it if due, and replaces the capability exactly when it is still reserved; the row invariant survives |
| `DelegatedLedger.UploadRecord.Expire` | src/infrastructure/postgres/content/delegated.rs:662-690 | an idle row past its expiry goes to quarantine when a write was begun, with a wait that covers lease and provider deadline plus two minutes, and ends otherwise |
| `DelegatedLedger.UploadRecord.ClaimTransfer` | src/infrastructure/postgres/content/delegated.rs:277-328 | one capability becomes one bounded receiving lease; every refusal rolls back and leaves the row as it was |
| `DelegatedLedger.UploadRecord.BeforeMutation` | src/infrastructure/postgres/content/delegated.rs:330-358 | only the exact live lease of an unexpired receiving row passes; the write (and completion) mark and the deadline are recorded together and the capability is gone |
| `DelegatedLedger.UploadRecord.RecordMultipart` | src/infrastructure/postgres/content/delegated.rs:360-385 | a session is recorded by the lease holder after the write mark, and never replaced by another |
| `DelegatedLedger.UploadRecord.CompleteTransfer` | src/infrastructure/postgres/content/delegated.rs:387-410 | staging needs the live lease, both marks and a checksum, and freezes the evidence; otherwise nothing changes |
| `DelegatedLedger.UploadRecord.FailTransfer` | src/infrastructure/postgres/content/delegated.rs:412-466 | a failed writer whose bytes may exist goes to quarantine with all its evidence; before any write it returns to reserved or expires; anyone else changes nothing |
| `DelegatedLedger.UploadRecord.Commit` | src/infrastructure/postgres/content/delegated.rs:504-580 | publishes exactly a staged, unexpired row whose evidence is the one verified; repeating it on a published row succeeds and changes nothing; any refusal leaves the row as it was |
| `DelegatedLedger.UploadRecord.Cancel` | src/infrastructure/postgres/content/delegated.rs:582-616 | cancelling quarantines a row that may have bytes and ends any other idle row |
| `DelegatedLedger.UploadRecord.Sweep` | src/worker/delegated_cleanup.rs:54-70 | the sweep expires abandoned rows, into quarantine exactly when a write was begun |
| `DelegatedLedger.UploadRecord.ClaimCleanup` | src/worker/delegated_cleanup.rs:115-133 | a worker takes a due quarantined row that no live claim holds |
| `DelegatedLedger.UploadRecord.RecordSession` | src/worker/delegated_cleanup.rs:157-175 | a discovered session is recorded under a live claim only, and only if none was |
| `DelegatedLedger.UploadRecord.RecordVersion` | src/worker/delegated_cleanup.rs:263-279 | evidence is completed, never overwritten, under a live claim only |
| `DelegatedLedger.UploadRecord.Finish` | src/worker/delegated_cleanup.rs:233-247 | quarantine ends under a live claim only, with both marks cleared |
| `DelegatedLedger.UploadRecord.Reschedule` | src/worker/delegated_cleanup.rs:81-101 | a worker gives up its own claim and no other |
| `DelegatedSafety.NextInv` | src/worker/delegated_cleanup.rs:45-279 | every step of writer, provider, sweeper, worker and clock, in any order, keeps the protocol invariant |
| `DelegatedTheorems.FinishedMeansEmpty` | src/worker/delegated_cleanup.rs:140-248 | a row that is cancelled or expired has no session, part or object at the provider, no call of its writer can still take effect, and both stay so in every continuation |
| `DelegatedTheorems.QuarantineIsForever` | src/worker/delegated_cleanup.rs:137-139 | a quarantined row is never publishable again, and a finished row never changes |
| `DelegatedTheorems.PublishedObjectIsNeverTouched` | src/application/delegated_upload.rs:596-636 | in every run a committed row keeps exactly the object a lookup had confirmed; no worker ever claims it |
| `DelegatedTheorems.EverySizeCanBePublished` | src/application/delegated_upload.rs:438-528 | committed rows are reachable for every size: claimed, sent by one PUT up to 100 MiB and by session, part and assembly beyond, staged, confirmed and published, with any checksummed object |
| `DelegatedTheorems.LostRepliesAreLookedUp` | src/application/delegated_upload.rs:530-564 | after a lost reply a PUT or an assembly is looked up once, and what is found is the evidence; any other call has failed |
| `DelegatedTheorems.CommitCanBeRepeated` | src/infrastructure/postgres/content/delegated.rs:504-525 | once a commit was applied it can be repeated at any later time of any run, with whatever evidence: it succeeds and the row stays as it is |
| `DelegatedTheorems.FailedClaimIsUndone` | src/infrastructure/postgres/content/delegated.rs:412-466 | a transfer that is given up before it wrote anything leaves the row exactly as it was before the claim, so the same capability claims again |
| `DelegatedTheorems.NewCapabilityClaims` | src/infrastructure/postgres/content/delegated.rs:182-186 | after a repeated reservation exactly the new capability claims, within the bounds on the lease |
| `DelegatedTheorems.LateWriterIsHarmless` | src/infrastructure/postgres/content/delegated.rs:330-410 | outside its own live lease on an unexpired reservation, a writer announces nothing, records no session and stages nothing |
| `DelegatedTheorems.LeaseHolderActs` | src/infrastructure/postgres/content/delegated.rs:330-410 | within it, marks and deadline, the session and the evidence are recorded, and nothing else changes |
| `DelegatedTheorems.MarksPrecedeEffects` | src/application/delegated_upload.rs:188-200 | bytes or a call that may still make some imply the durable write mark; an object, or a PUT or assembly in flight, implies the completion mark |
| `DelegatedTheorems.DirectEndLosesNothing` | src/worker/delegated_cleanup.rs:61-66 | a row that ends without quarantine has nothing at the provider and no call in flight |
| `DelegatedTheorems.ChecksAlwaysHold` | migrations/0026_delegated_upload_reservations.sql:73-87 | every reachable row satisfies the CHECK constraints on its state columns |
| `DelegatedTheorems.OneProviderWrite` | src/application/delegated_upload.rs:211-216 | at most one provider call is in flight, and never a second object or session |
| `DelegatedTheorems.StaleWorkerIsHarmless` | src/worker/delegated_cleanup.rs:86-101 | a worker whose token is gone cannot change the row |
| `DelegatedTheorems.LateWorkerIsHarmless` | src/worker/delegated_cleanup.rs:81-101 | nor can one whose lease is over, but for giving up what is left of its claim |
| `DelegatedTheorems.ClaimHolderActs` | src/worker/delegated_cleanup.rs:157-279 | under a live claim the missing session and evidence are recorded, never replaced, and the row ends as expired or cancelled by its expiry, with marks, wait and claim cleared |
| `DelegatedTheorems.DueRowIsClaimed` | src/worker/delegated_cleanup.rs:115-133 | a quarantined row is claimed exactly when it is due and no claim on it is live, by a worker that is new |
| `DelegatedTheorems.CleanupOnlyRemovesQuarantined` | src/worker/delegated_cleanup.rs:181-224 | what cleanup removes, at once or by an unanswered call that takes effect at any later time, belongs to a quarantined or finished upload, and cleanup never adds anything |
| `DelegatedTheorems.RemovalFollowsOwnership` | src/worker/delegated_cleanup.rs:181-201 | a worker gets ready to abort or delete only in a step that saw its claim live |
| `DelegatedTheorems.AbsenceProvesNothing` | src/worker/delegated_cleanup.rs:225-230 | past every deadline and fence, with nothing at the provider, an unanswered PUT can still store the object: why an unknown outcome stays in quarantine |
| `DelegatedProgress.CleanupCanFinish` | src/worker/delegated_cleanup.rs:140-248 | a quarantined row can be ended, with nothing more landing, whenever the object is there, evidence of it is recorded, or the upload was never assembled and its session is recorded or listed |
| `DelegatedProgress.CanEndIff` | src/worker/delegated_cleanup.rs:140-248 | and, while no worker holds it, exactly then: from any other quarantined row no run in which nothing lands ever ends it |
| `DelegatedWorker.World.UpdateRow` | src/infrastructure/postgres/content/delegated.rs:153-690 | every step of the interface or the sweeper changes the row exactly as its transaction changes the stored columns |
| `DelegatedWorker.World.UpdateByWriter` | src/infrastructure/postgres/content/delegated.rs:330-466 | so does every step of a writer: compare-and-set, recording the session, staging and failing |
| `DelegatedWorker.World.UpdateByWorker` | src/worker/delegated_cleanup.rs:81-279 | and every step of a cleanup worker |
| `DelegatedWorker.World.OwnsClaim` | src/worker/delegated_cleanup.rs:250-261 | asking whether the claim is live is one protocol step, whatever others did before it; undisturbed, the answer is that of the row |
| `DelegatedWorker.World.FinishRow` | src/worker/delegated_cleanup.rs:233-247 | the update of the stored row is the last protocol step; when it reports success the row has ended and the provider holds nothing; undisturbed, it reports success exactly under a live claim |
| `DelegatedWorker.World.RescheduleRow` | src/worker/delegated_cleanup.rs:81-101 | the last update of a kept row: the worker holds no claim afterwards, and a claim that was still its own is given up with its lease while the row waits for the delay; anyone else's row is left alone |
| `DelegatedWorker.AbortSessions` | src/worker/delegated_cleanup.rs:181-194 | every session is aborted after its own claim check and confirmed empty; otherwise the row is kept, and each reason has its cause: an unanswered call or somebody else |
| `DelegatedWorker.CleanSessions` | src/worker/delegated_cleanup.rs:152-195 | the listed sessions, the first of them recorded when none was, are all aborted; a list that did not come is the only other reason to keep the row |
| `DelegatedWorker.RemoveObject` | src/worker/delegated_cleanup.rs:206-224 | the version is recorded before the deletion and the deletion confirmed; otherwise the row is kept, and each reason has its cause |
| `DelegatedWorker.ConfirmGone` | src/worker/delegated_cleanup.rs:199-231 | an object that is found is removed; one that is not found counts as gone only on evidence, and ProviderOutcomeUnknown is reported only without it |
| `DelegatedWorker.Clean` | src/worker/delegated_cleanup.rs:140-248 | the procedure, with others acting between all its calls, is a run of the protocol; when it reports success the row has ended over an empty provider, and every other outcome has its cause: a call without an answer, somebody else, or a provider that shows nothing |
| `DelegatedWorker.ProcessOne` | src/worker/delegated_cleanup.rs:75-103 | claim, clean and reschedule together: a cleaned row has ended over an empty provider; a kept one is given back by its worker, and claimable again when the delay is over; with every call answered and nobody else acting, the row is cleaned whenever anything shows what became of the upload |
| `Staging.StagingFile.Write` | src/api/upload.rs:131-149 | file, size and digest grow by exactly the chunk, or the chunk is refused by the limit before anything is written |
| `Staging.StagingFile.Finish` | src/api/upload.rs:151-166 | the staged result is the file with its size and the digest of its bytes |
| `Staging.StageBody` | src/api/upload.rs:68-99 | whatever the chunks: on success file, size and digest are those of the received stream, and without faults only the limit decides |
| `Digests.Sha256FileRange` | src/application/content.rs:1853-1888 | whatever the reads return, the digest is that of exactly the range, and a file too short is refused |
| `Digests.Sha256FileAndUpdate` | src/application/content.rs:1822-1847 | one pass digests the whole part and feeds the same bytes to the running digest |
| `Digests.PartsJoin` | src/domain/multipart.rs:131-162 | the planned parts of a file, joined in order, are the file |
| `DelegatedStore.PrepareParts` | src/application/delegated_upload.rs:653-683 | the part list and the composite checksum are those of the planned ranges of the local file; only a failed read or a file too short is refused |
| `DelegatedStore.ReconcileWrite` | src/application/delegated_upload.rs:530-564 | accepts exactly evidence that names the key, the size and the locally computed checksum, from the reply or, after a lost one, from a lookup; each refusal has its cause |
| `DelegatedStore.StoreSingle` | src/application/delegated_upload.rs:506-528 | a stored small object has the manifest digest; every provider call was announced by a compare-and-set; when nothing goes wrong the object is stored |
| `DelegatedStore.OpenSession` | src/application/delegated_upload.rs:446-462 | a session is known to the lease as soon as it exists and recorded before any part is sent |
| `DelegatedStore.StoreMultipart` | src/application/delegated_upload.rs:438-504 | every planned range is sent once, in order, with its own digest, and the assembled object has the composite checksum of the local file; when nothing goes wrong it succeeds |
| `DelegatedStore.StoreByRoute` | src/application/delegated_upload.rs:418-428 | the route is the one the size asks for, and beyond 5 TiB nothing is asked of the provider |
| `DelegatedStore.Store` | src/application/delegated_upload.rs:409-436 | stages only matching evidence; the guard is disarmed exactly when staging committed or may have; a file that is not the manifest's is refused before any call, and any other of an accepted size is staged when nothing goes wrong |
| `DelegatedStore.ReceiveTransfer` | src/api/handlers/delegated_upload.rs:229-243 | the bytes behind a staged object are exactly the received stream with the manifest digest; a possibly staged transfer is never reported as failed, any other failure is, with its evidence; when nothing goes wrong exactly the streams the manifest names are staged |
| `DelegatedStore.EvidenceNamesTheBytes` | src/application/delegated_upload.rs:506-564 | an object with the expected checksum holds exactly the received bytes, on either route |
| `DelegatedStore.Commit` | src/application/delegated_upload.rs:601-636 | publishes only staged evidence that a fresh lookup of the object confirms; when nothing goes wrong it publishes exactly that, or names what is missing |
| `DelegatedStore.PublishedBytesAreReceivedBytes` | src/application/delegated_upload.rs:601-636 | evidence that matches a received file and is still true of the object means the object holds the received bytes |
| `DelegatedStore.ReceiveAndPublish` | src/api/handlers/delegated_upload.rs:229-243 | receiving and committing in one run, with the object free to change in between: if the upload is published, the object holds exactly the received stream, with the manifest size and digest |
| `ObjectStore.KeyStore.GetRange` | src/application/ports.rs:377-381 | a download, when it succeeds, holds exactly the requested range of what is stored at that moment, whatever was there before |
| `ObjectStore.KeyStore.UploadPart` | src/application/ports.rs:411-413 | a part request carries the named range of the local file |
| `ObjectStore.ErrorsStayApart` | src/application/content.rs:1953-1967 | each provider error keeps its own meaning on the way out |
| `ContentRestore.PlannedRangesTile` | src/application/content.rs:1568-1587 | the downloaded ranges start where the previous one ended, are not empty, and end with the file |
| `ContentRestore.MatchIsReproduction` | src/application/content.rs:1709-1719 | the checksum test accepts exactly a full-object checksum that is the digest of the bytes, or a composite one whose parts are the digests of the planned pieces |
| `ContentRestore.TransferPart` | src/application/content.rs:1616-1662 | one part moves exactly one range, digests it as it came and feeds it to the running digest; the source may change before and after; every refusal has its cause |
| `ContentRestore.TransferParts` | src/application/content.rs:1563-1588 | the loop downloads the planned tiling once, in order; undisturbed, what it transferred is the source |
| `Digests.PiecesAreParts` | src/domain/multipart.rs:131-162 | pieces of the planned sizes, joined, have exactly those pieces as their planned parts |
| `ContentRestore.CompleteOrReconcile` | src/application/content.rs:1664-1707 | one assembly; a lost reply is made good only by a truthful lookup; undisturbed, the assembly succeeds |
| `ContentRestore.TransferLargeRestoreParts` | src/application/content.rs:1543-1602 | on success the ranges are the planned tiling and the destination holds the bytes that came, which the recorded checksum describes, even if the source changed between two ranges; nothing is assembled before that checksum matches; the offset errors cannot occur; undisturbed, it succeeds exactly when the source reproduces the recorded checksum, of either kind, and refuses with a mismatch otherwise |
| `ContentRestore.CopyLargeBetweenTargets` | src/application/content.rs:1490-1541 | the whole copy: the destination ends with the bytes the source held at its checked lookup, whatever happened to the source meanwhile; assembling is attempted only for bytes the recorded checksum describes; a failed copy aborts its session; undisturbed, it succeeds exactly for a source of the recorded size and checksum that its bytes reproduce |
| `ContentRestore.UploadPlannedPart` | src/application/content.rs:809-829 | one planned range of the staged file is digested and sent; the size check never fails |
| `ContentRestore.UploadMultipart` | src/application/content.rs:808-831 | the part requests of an open session over one shared file are the planned tiling, and their bytes joined are the file |
| `ContentPublication.UploadSmall` | src/application/content.rs:658-739 | every way the calls end and every cancellation point gives the specified provider and database state |
| `ContentPublication.RestoreVersion` | src/application/content.rs:1133-1212 | the same for a restore whose lease is renewed until the copy ends, fails, or is given up because a renewal failed; each renewal locks the reservation for ten more minutes, and a dropped copy cleans up once more with its own guard |
| `ContentPublication.DropCopy` | src/application/content.rs:1519-1537 | a copy that is given up or cancelled: compensation, release, then the abort, lookup and deletion of the dropped copy itself |
| `ContentPublication.RenewalsKeepTheReservation` | src/application/content.rs:1151-1168 | while renewals come within a lease of each other, at no moment before the copy ends can another attempt claim the reservation |
| `ContentPublication.CompleteMultipart` | src/application/content.rs:985-1058 | the same for assembling parts: a list other than the planned one changes nothing, an unanswered assembly counts only when the lookup finds its size and part count, and the guard starts after the object exists |
| `ContentPublication.InitiateMultipart` | src/application/content.rs:852-921 | the same for opening a session: guard, recording, and compensation by aborting it |
| `ContentPublication.UnpublishedObjectGuard.CleanupNow` | src/application/content.rs:594-604 | the guard removes what it recorded and disarms itself |
| `ContentPublication.UnpublishedObjectGuard.Drop` | src/application/content.rs:607-635 | a dropped guard cleans up exactly while armed |
| `ContentPublication.Backend.CleanupUnpublishedObject` | src/application/content.rs:1721-1758 | aborts the session, if any, then deletes the recorded version or the one a lookup finds, as far as the calls are answered |
| `ContentPublication.PublishKeeps` | src/application/content.rs:711-738 | a published version has its object unless the run strands it; a definite refusal leaves nothing when answered; an unknown outcome changes nothing at the provider; the reservation ends exactly with a publication or with a refusal that releases it |
| `ContentPublication.UploadKeepsPublication` | src/application/content.rs:658-739 | these guarantees over every run of a small upload; moreover a failed or cancelled one leaves no unpublished object when its cleanups are answered and nothing lands late |
| `ContentPublication.RestoreKeepsPublication` | src/application/content.rs:1133-1212 | these guarantees over every run of a restore: a copy that ends keeps all of them; a copy that failed, was given up or was cancelled publishes nothing, and when the cleanups are answered and nothing lands late the object is gone, and so is the session of a dropped copy |
| `ContentPublication.FailedRenewalGivesUp` | src/application/content.rs:1151-1183 | a renewal that fails gives the copy up: nothing is published, the cleanup runs and the reservation goes back |
| `ContentPublication.CompleteKeepsPublication` | src/application/content.rs:985-1058 | these guarantees over every run of a multipart completion with the planned list; after a lost reply the lookup decides, by the planned size and number of parts; with answered cleanups a cancelled run leaves an unpublished object exactly when it was cancelled during the assembly or its lookup and the object was or comes there; any other list changes nothing |
| `ContentPublication.InitiateKeepsSession` | src/application/content.rs:852-921 | a recorded session is open, exactly unless the request is cancelled during its recorded, unanswered commit and the abort takes effect; a definite refusal leaves no session when answered |
| `ContentPublication.PublishedHasItsObjectIff` | src/application/content.rs:711-719 | a published version keeps its object exactly unless the request is cancelled during its recorded, unanswered commit and the guard cleanup takes effect |
| `ContentPublication.StrandedRun` | src/application/content.rs:607-635 | such a run exists: the guard is still armed across the commit |
| `RestoreAttempts.NextInv` | src/infrastructure/postgres/content.rs:864-969 | every step of attempts, guards, cleanups and the clock keeps, while leases are respected: one attempt holds the reservation, its stored copy is there, and no cleanup is at work at a key that is or may be published |
| `RestoreAttempts.OneAttemptAtATime` | src/infrastructure/postgres/metadata/common.rs:579-606 | in every run in time at most one attempt is at work |
| `RestoreAttempts.PublishedInTimeIsKept` | src/application/content.rs:1133-1212 | when every attempt and cleanup worked within its lease up to the publication, and the commit was not stranded, the version keeps its object in every continuation, in time or not |
| `RestoreAttempts.CanLoseIff` | src/application/content.rs:594-635 | once published, some continuation loses the object exactly when an attempt or a cleanup that can still reach it is at work at its key |
| `RestoreAttempts.SlowCleanupLoses` | src/application/content.rs:1163-1181 | such a run exists without any cancellation: a failed attempt does not give its reservation back, its cleanup outlasts the lease, and a second attempt publishes at the same key |
| `RestoreAttempts.PlainRestoreIsInTime` | src/application/content.rs:1133-1212 | an undisturbed restore is in time and publishes |
| `FilterLexer.ReadWord` | src/domain/filter.rs:430-456 | the inner loop reads exactly the word the scan describes and reports an open quote |
| `FilterLexer.Tokenize` | src/domain/filter.rs:421-462 | the tokenizer computes the token language that the printer theorems are about |
| `FilterWords.OperatorWords` | src/domain/filter.rs:464-470 | or, and and not in any letter case are the operators, and no other word is one |
| `FilterWords.LowerIsByLetter` | src/domain/filter.rs:465-473 | letter case is ASCII: each capital becomes its small letter and nothing else changes |
| `FilterWords.KeyedWord` | src/domain/filter.rs:471-475 | what stands before the first colon is the key, in small letters, and what follows is the value |
| `FilterWords.BareWord` | src/domain/filter.rs:476-480 | a word without a colon, or with nothing before it, is a value without a key |
| `FilterWords.QuotedValue` | src/domain/filter.rs:483-490 | one pair of equal quotes is removed and keeps its inside as it is |
| `FilterWords.UnquotedValue` | src/domain/filter.rs:483-491 | any other value is what is left between the blanks |
| `FilterWords.LexAppend` | src/domain/filter.rs:421-462 | a blank separates: what stands on either side is tokenized apart |
| `Text.WhitespaceIsListed` | src/domain/filter.rs:426-447 | blanks are the 25 characters of the White_Space property |
| `FilterParser.Parser.ParseQuery` | src/domain/filter.rs:502-511 | the mutable parser agrees with the grammar: same query or same error |
| `FilterParser.Parser.ParseAny` | src/domain/filter.rs:513-534 | same, for alternatives |
| `FilterParser.Parser.ParseAll` | src/domain/filter.rs:536-559 | same, for conjunctions |
| `FilterParser.Parser.ParseUnary` | src/domain/filter.rs:561-589 | same, for one operand; it always consumes a token, so parsing ends |
| `FilterParser.Parser.ParseTerm` | src/domain/filter.rs:591-657 | same, for terms and the limit of 32 |
| `FilterParser.Parser.Modifier` | src/domain/filter.rs:660-707 | same, for sort, last and first |
| `FilterParser.Parse` | src/domain/filter.rs:318-336 | parsing is the length check, the tokenizer and the grammar |
| `FilterWords.AndMeansNothing` | src/domain/filter.rs:536-559 | between any two tokens, the second of any kind and the first no not, an and changes neither result nor error |
| `FilterWords.AndBetweenOperands` | src/domain/filter.rs:536-559 | so an and, in any letter case, may be put between two parts of a filter text |
| `FilterWords.NotReadsAsMinus` | src/domain/filter.rs:561-589 | not, in any letter case, reads as a minus sign |
| `FilterStructure.AcceptedFilters` | src/domain/filter.rs:501-715 | an accepted filter has balanced parentheses, modifiers only at the top, as leaves exactly its non-modifier terms in order, at most 32 of them, and no combination of fewer than two parts |
| `FilterAcceptance.AcceptedIff` | src/domain/filter.rs:501-715 | the exact condition: tokens are accepted exactly when there are any, parentheses balance, terms are readable and at most 32, modifiers stand at the top and agree, every not is followed by an operand that yields an expression, and the last token is no operator |
| `FilterAcceptance.AcceptedTextIff` | src/domain/filter.rs:318-336 | so a text is accepted exactly when it is at most 1,024 bytes, its quotes close and its tokens meet that condition |
| `FilterRoundTrip.ConditionRoundTrip` | src/domain/filter.rs:591-657 | every condition is read back from its printed key and value |
| `FilterRoundTrip.DateIsKept` | src/domain/filter.rs:736-740 | every calendar day of the years 0 to 9999 is read back from its text |
| `FilterRoundTrip.SelectorIsKept` | src/domain/filter.rs:742-772 | every account selector is read back from its braced text |
| `FilterMeaning.BareTermIsContains` | src/domain/filter.rs:597-603 | a term without a key searches names and contents for its trimmed text, unless that is empty or only stars |
| `FilterMeaning.SearchKeys` | src/domain/filter.rs:637-648 | contains, has, name and location each read such a term, each in its own place |
| `FilterMeaning.UnknownKeys` | src/domain/filter.rs:591-657 | no other than the thirteen keys states a condition, and each of them does |
| `FilterMeaning.DateIsRead` | src/domain/filter.rs:736-740 | a date is read exactly from its ten characters |
| `FilterMeaning.ValidDatesAreDays` | src/domain/filter.rs:736-740 | and the dates are the days of the calendar, leap days included, of the years 0 to 9999 |
| `FilterMeaning.BetweenIsRead` | src/domain/filter.rs:612-627 | two dates around the first equals sign, the first no later than the second |
| `FilterMeaning.BetweenNeedsEquals` | src/domain/filter.rs:612-619 | and without an equals sign nothing is read |
| `FilterMeaning.SelectorForms` | src/domain/filter.rs:742-772 | the sign and the braces of an account selector are each optional |
| `FilterMeaning.KindIsFirstSegment` | src/domain/filter.rs:755-761 | the first segment before a colon alone says whether the account is a Carbon or a Silicon |
| `FilterMeaning.PermissionKeys` | src/domain/filter.rs:649-651 | each permission is read exactly from its words, in any letter case, by either key |
| `FilterMeaning.IsValueIsRead` | src/domain/filter.rs:787-828 | is: reads exactly its own words, aliases included, and otherwise a plausible extension |
| `FilterMeaning.CountIsRead` | src/domain/filter.rs:685-691 | a count is read exactly from the digits of a 16-bit number, after a plus sign at most |
| `FilterMeaning.ModifiersAreRead` | src/domain/filter.rs:660-707 | what sort, last and first may say, exactly |
| `FilterRoundTrip.UnaryParses` | src/domain/filter.rs:561-589 | the printed tokens of an operand parse to it, anywhere in a token list |
| `FilterRoundTrip.ListParses` | src/domain/filter.rs:536-559 | the printed tokens of a conjunction parse to its children |
| `FilterRoundTrip.OrParses` | src/domain/filter.rs:513-534 | the printed tokens of alternatives parse to them |
| `FilterTextRoundTrip.CountIsKept` | src/domain/filter.rs:685-691 | decimal counts are read back |
| `FilterTextRoundTrip.TokensRoundTrip` | src/domain/filter.rs:501-559 | parsing the printed tokens of a query gives the query back |
| `FilterTextRoundTrip.TextLexes` | src/domain/filter.rs:421-491 | tokenizing the printed text gives the printed tokens |
| `FilterTextRoundTrip.PrintThenParse` | src/domain/filter.rs:318-336 | the parser undoes the printer for every normal-form query of at most 32 leaves and 1,024 bytes |
| `FilterTextRoundTrip.ParsedIsPrintable` | src/domain/filter.rs:318-336 | conversely, every accepted filter is a printable query unless a value holds both quote characters |
| `FilterTextRoundTrip.PrintingIsStable` | src/domain/filter.rs:318-336 | printing an accepted filter and parsing it again changes nothing |
| `FilterTextRoundTrip.DanglingInsideGroup` | src/domain/filter.rs:520-524 | a concrete input on each side of that condition: a group that ends in or is accepted, a text that ends in or is not |
| `FilterEval.Matches` | src/domain/filter.rs:229-237 | a value exactly when there is one answer per asked leaf, and then the denotation |
| `FilterEval.MatchesInner` | src/domain/filter.rs:239-271 | consumes exactly its leaves' answers and gives the denotation over them, or runs out |
| `FilterEval.PolicyLeaves` | src/domain/filter.rs:209-218 | policy evaluation is required exactly when some leaf is a permission |
| `FilterEval.AccessIsIrrelevant` | src/domain/filter.rs:209-218 | without it, the caller's access does not change the result |
| `FilterEval.PositionsKeepMeaning` | src/domain/filter.rs:220-228 | handing answers out by position gives the ordinary Boolean truth of the filter |
| `FilterLike.CompileLike` | src/domain/filter.rs:91-110 | the loop builds the pattern piece by piece |
| `FilterLike.CompilePrefix` | src/domain/filter.rs:116-132 | the loop builds the anchored pattern piece by piece |
| `FilterLike.LikeMeansContains` | src/domain/filter.rs:86-110 | the pattern matches a value exactly when the glob with a star on both sides does |
| `FilterLike.LocationCoversTree` | src/domain/filter.rs:112-132 | everything that continues a location is matched |
| `FilterLike.LocationMeans` | src/domain/filter.rs:116-118 | the location of a term has no slash at either end, and the term is slashes around it |
| `FilterLike.PrefixMeans` | src/domain/filter.rs:112-132 | what the anchored pattern matches, for every term and value |
| `FilterLike.PrefixIsPrefixIff` | src/domain/filter.rs:112-132 | it is the promised prefix match exactly when the term, without slashes around it, does not end in a literal percent sign |
| `ZipBytes.PackedField` | src/application/archive_listing.rs:173-191 | a little-endian number is read back at its offset in a record |
| `ZipDirectory.LastEndIsLast` | src/application/archive_listing.rs:204-211 | the search finds the last end record of all, signature bytes, fixed part and comment included, or there is none |
| `ZipDirectory.LocateRefuses` | src/application/archive_listing.rs:200-235 | on any bytes: the tail is refused exactly for want of an end record, of the locator a sentinel asks for, or of room for the directory, and the other errors are unreachable |
| `ZipDirectory.Zip64Refuses` | src/application/archive_listing.rs:242-251 | the zip64 record is accepted exactly with its signature and 56 bytes |
| `ZipDirectory.AcceptedDirectoryIsBeforeEnd` | src/application/archive_listing.rs:226-234 | on any bytes, an accepted directory lies wholly before the end record |
| `ZipDirectory.TailHoldsEnd` | src/application/archive_listing.rs:22-22 | the tail holds the end record, whatever its comment, and a zip64 locator; the archive's own record is chosen exactly when no other end record begins later |
| `ZipDirectory.LocateClassic` | src/application/archive_listing.rs:200-235 | the directory of an archive without zip64 records is located exactly |
| `ZipDirectory.LocateLarge` | src/application/archive_listing.rs:200-251 | a zip64 archive leads through locator and record to its directory |
| `ZipDirectory.Zip64DirectoryRead` | src/application/archive_listing.rs:242-251 | reading the zip64 end record inverts writing it |
| `ZipEntries.ReadExtraFields` | src/application/archive_listing.rs:342-374 | the loop applies every extra field in order, within bounds, on any bytes |
| `ZipEntries.ListEntries` | src/application/archive_listing.rs:256-338 | on any bytes, names kept as recorded, the loop computes the listing the theorems are about, ends, and stays in bounds |
| `ZipRoundTrip.SizesApplied` | src/application/archive_listing.rs:353-365 | the zip64 field puts back exactly the sizes the fixed part has no room for |
| `ZipRoundTrip.ExtrasGiveDetails` | src/application/archive_listing.rs:342-374 | among other extra fields, sizes are the true ones and the last Unix time wins |
| `ZipRoundTrip.KindRead` | src/application/archive_listing.rs:310-316 | an entry stored with a Unix mode of type directory or symbolic link lists as folder or link; any other as a folder exactly by its trailing slash or directory bit |
| `ZipRoundTrip.FlagsRead` | src/application/archive_listing.rs:296-323 | encrypted is the lowest flag bit and UTF-8 the eleventh after it |
| `ZipRoundTrip.EntryRead` | src/application/archive_listing.rs:261-325 | a written entry is read back with its true sizes, kind and flags, and the next starts where it ends |
| `ZipRoundTrip.DosDateTimeRoundTrip` | src/application/archive_listing.rs:376-388 | every even-second moment from 1980 to 2107 is read back from its date and time words |
| `ZipRoundTrip.DosDateTimeIsExact` | src/application/archive_listing.rs:376-388 | words that name no such moment give none |
| `ZipRoundTrip.PrefixListsPrefix` | src/application/archive_listing.rs:256-338 | on any bytes, fewer bytes list a prefix |
| `ZipRoundTrip.LimitListsPrefix` | src/application/archive_listing.rs:262-265 | a lower limit lists a prefix |
| `ZipRoundTrip.ListInvertsWriter` | src/application/archive_listing.rs:256-338 | the whole list when the limit allows, and exactly the first entries marked entry_limit otherwise |
| `ZipRoundTrip.CutListingIsHonest` | src/application/archive_listing.rs:253-338 | from any first part of the directory: exactly its first entries, and truncated tells the truth |
| `ZipListing.ClassicArchiveIsListed` | src/api/handlers/archive_listing.rs:132-183 | the ranged reads together list what was written into an archive |
| `ZipListing.LargeArchiveIsListed` | src/api/handlers/archive_listing.rs:132-183 | the same through the zip64 records, for any number of entries and any size below 2^64 bytes |
| `ZipListing.ListingInBoundsIff` | src/api/handlers/archive_listing.rs:132-183 | for any stored bytes, every slice is in bounds exactly unless the end record leads to a zip64 locator whose offset wraps, when 56 is added in 64 bits, to a position inside the file |
| `ZipListing.WrappingLocator` | src/api/handlers/archive_listing.rs:138-177 | such files exist: after any bytes, a locator that names 2^64 - 56 and an end record that asks for it |
| `ZipDirectory.LocatorIsFollowed` | src/application/archive_listing.rs:200-224 | whatever offset a locator names is followed, without a look at what is there |
| `Multipart.CeilDivIsLeast` | src/domain/multipart.rs:165-175 | rounding up gives the least number of pieces that is enough |
| `Multipart.PlanIsTotal` | src/domain/multipart.rs:76-111 | every size from 100 MiB + 1 to 5 TiB, and no other, gets a plan without overflow, of at most 1,000 parts up to 5,000 GiB and of 5 GiB parts, at most 1,024 of them, above |
| `Multipart.RouteBySize` | src/domain/multipart.rs:51-57 | one request up to 100 MiB, planned parts up to 5 TiB, and FileTooLarge beyond |
| `Multipart.PlanIsOptimal` | src/domain/multipart.rs:90-95 | up to 5,000 GiB no smaller whole-MiB part size of at least 8 MiB would do |
| `Multipart.PartsTile` | src/domain/multipart.rs:137-162 | the parts are not empty and tile the file in order |
| `Multipart.ValidateCompletion` | src/domain/multipart.rs:298-345 | accepts exactly the planned part list and otherwise names the first fault; the overflow and wrong-total errors are unreachable |
| `EntryPaths.NameRoundTrip` | src/domain/entry.rs:130-151 | a constructed name is valid, and valid names are exactly those that construct to themselves |
| `EntryPaths.NewPath` | src/domain/entry.rs:232-252 | the loop builds the normalized path or reports the first error |
| `EntryPaths.ParsedPathIsPath` | src/domain/entry.rs:232-252 | parsing gives a valid path, and a valid path parses to itself |
| `EntryPaths.SlashesAround` | src/domain/entry.rs:232-240 | slashes around a path change nothing |
| `EntryPaths.BlanksAround` | src/domain/entry.rs:232-240 | nor do blanks |
| `EntryPaths.ReparseIsIdentity` | src/domain/entry.rs:232-252 | re-parsing a parsed path returns it |
| `EntryPaths.DriveRootIsNoPath` | src/domain/entry.rs:207-209 | the root's stored path collides with nothing in the drive |
| `EntryPaths.JoinGivesPath` | src/domain/entry.rs:273-288 | a child of a folder is a valid path with one more segment |
| `EntryPaths.JoinIsUndone` | src/domain/entry.rs:313-337 | parent and name undo join below a folder that is not the root |
| `EntryPaths.PathIsItsParentsChild` | src/domain/entry.rs:313-337 | and join undoes them for every path |
| `EntryPaths.FoldRebuildsPath` | src/domain/entry.rs:273-305 | folding join over the segments from the drive root rebuilds the path |
| `EntryUrls.DecodeUndoesEncode` | src/api/mapping.rs:46-71 | percent-decoding undoes encoding, byte for byte |
| `EntryUrls.HexDigitsAreRead` | src/api/mapping.rs:46-71 | a hexadecimal digit is read in either letter case, and nothing else is |
| `EntryUrls.EncodedIsClean` | src/api/mapping.rs:46-59 | nothing that could end a segment, path or URL survives encoding |
| `EntryUrls.CleanIsKept` | src/api/mapping.rs:46-59 | and nothing else is changed |
| `EntryUrls.BuildTarget` | src/api/mapping.rs:388-394 | the loop appends the encoded segments |
| `EntryUrls.AddressRoundTrip` | src/api/mapping.rs:383-398 | splitting and decoding an address recovers owner and segments |
| `EntryUrls.AddressIsUnique` | src/api/mapping.rs:383-398 | an address names one owner and one path only |
| `EntryUrls.AddressHasNoDots` | src/api/mapping.rs:383-398 | no piece is a dot segment, exactly unless the owner is one |
| `EntryUrls.AddressResolves` | src/api/mapping.rs:395-397 | with dot segments removed as RFC 3986 says, the address resolved against the base is base, prefix, owner and path |
| `Drives.MoveIsArrival` | src/api/drives.rs:124-175 | one move of any kind leads to the context the caller and its destination determine |
| `Drives.MoveSucceedsIff` | src/api/drives.rs:124-175 | a move succeeds exactly when nothing refuses it, and each refusal is named: an unknown name, an answer that failed, or a drive out of reach |
| `Drives.StartIsHome` | src/domain/actor.rs:310-345 | a verified account starts as the owner of its own drive, in the mode its credential gives |
| `Drives.RunIsArrival` | src/api/drives.rs:33-175 | so does any run of successful moves, through its last destination |
| `Drives.HistoryIndependence` | src/api/drives.rs:33-175 | two histories that end in the same drive end in the same context |
| `Drives.OwnerRightsIff` | src/domain/actor.rs:395-399 | owner rights exactly in the caller's own drive and in the drives of Silicons it is recorded to look after as a Carbon whose credential is no third-party proof |
| `Drives.CreatorRightsIff` | src/domain/actor.rs:401-406 | creator rights exactly for the caller and, without a third-party proof, the Silicons a Carbon looks after |
| `Drives.ConfinedAppStaysHome` | src/api/drives.rs:145-149 | with a third-party proof the caller leaves its own drive only to read, as a visitor and with its own creator rights only |
| `Drives.AnonymousContextsStay` | src/api/drives.rs:131-135 | a context without an account keeps its drive through any run, which only an unknown name stops |
| `Drives.LongAccountUuid` | src/domain/account.rs:96-101 | an account identifier with dashes is five groups of 8, 4, 4, 4 and 12 small hexadecimal digits |
| `Drives.ShortAccountUuid` | src/domain/account.rs:96-101 | any other is 3 to 32 ASCII letters and digits |

## Left out

- DelegatedLedger.UploadRecord.Reserve: only the repetition of an existing reservation with the same request; a first reservation is the constructor, and the staging limit, quota and request-hash checks only refuse.
- DelegatedLedger.UploadRecord.CompleteTransfer: that the evidence names the key, the size and the manifest digest is proved where it is produced (`DelegatedStore.ReconcileWrite`), not repeated here.
- DelegatedLedger.UploadRecord.Commit: the destination, authorization and storage-target checks only refuse; the published entry is a mark.
- DelegatedWorker.Clean: a stored descriptor that cannot be read back keeps the row before any call; here descriptors are always readable.
- DelegatedWorker.ProcessOne: what a quiet, answered run achieves is stated for one claim; the interleaved runs are those of the protocol.
- DelegatedProgress.CanEndIff: says that an ending run exists, or none; not that every run is fair. For a row some worker holds only the sufficient half is stated, since its holder may know more than the row.
- ContentPublication.UploadKeepsPublication: after a failed write the object is shown to be gone only when nothing lands after the cleanup, because no code could wait for that.
- ContentPublication.InitiateMultipart: a cancellation while the session is being created, or an unanswered creation, can leave a session that no guard knows; only the lifecycle of a known session is stated.
- ContentPublication.RestoreVersion: the cleanups of a cancelled restore and of its dropped copy run one after the other here; in RestoreAttempts they interleave with everything else.
- RestoreAttempts.NextInv: copies of the source version are told apart by provider version only, whether one found at the destination matches is left open, and multipart sessions are not followed.
- ObjectStore.KeyStore.GetRange: the `if_match` and version arguments are left out; no result relies on them.
- ContentRestore.UploadMultipart: the part requests of a session that is already open; opening and completing it are in ContentPublication, and part records in the database are repository calls that may fail.
- DelegatedSafety.NextInv: tokens, session ids, versions and ETags are numbers, times are unbounded integers of milliseconds, and a worker may record any listed session where the code takes the first.
- ZipEntries.ListEntries: names stay the recorded bytes with their UTF-8 flag; lenient decoding, control-character removal and the 4,096-character cut are not modelled.
- FilterRoundTrip.DateIsKept: four-digit years only; whatever signs the date library tolerates besides are not modelled.
- Drives.HistoryIndependence: for one fixed custody directory; an account uuid always converts to the other identifier types, and the directory may fail but does not change.
- EntryUrls.AddressResolves: the resolver is RFC 3986's dot-segment removal on path segments; the URL library's other rewriting is not part of this model.
- Copying between targets at or below 100 MiB and provider-side copies: publication takes any such copy as its write.
- `abort_multipart`: one repository call and one abort, without a guard.
- Several retained versions at one key within a single publication; the upload protocol and RestoreAttempts keep all versions.
- Authorization, quota, identity binding and testing generations of delegated uploads: each only refuses a step.
- Retry delays, batch sizes, concurrency limits and cleanup counters: they choose when steps happen, and the model allows any time.
- Tar, gzip, zstd and 7z listing: they delegate to libraries.
- Reversing a listing for presentation and collecting selectors for renaming: single-expression members.
- Object key and checksum text shapes, base64, HTTP routing, DTOs, configuration, logging, the web and documentation sites.
