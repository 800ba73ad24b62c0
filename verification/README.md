# Models and proofs for the SMESH A2A gateway

The gateway keeps artifacts, dispatches and callbacks consistent through crashes, races and retries. This
project models the protocols that do so and proves what they promise, over every input, every interleaving
or every run.

| modules | what they model |
|---|---|
| `Options` | the option type |
| `IdealCrypto` | collision-free digests and authenticated encryption with the interface of section 2 of RFC 5116 |
| `Catalog`, `ArtifactCatalogObject` | the artifact catalog: publishing with deduplication, leases, holds, resolving, and the four separately locked sections of garbage collection, as functions and as an object that updates its maps in place and keeps the invariants of the interleavings |
| `CatalogRuns`, `CatalogSafety`, `CatalogExact`, `CatalogOverlap`, `CatalogPublish`, `CatalogLineage`, `CatalogReads`, `CatalogRetention` | every interleaving of those sections, and what holds along it |
| `Rotation`, `RotationSafety`, `RotationResume`, `RotationFencing`, `RotationCompletion` | key rotation: job rows, stage and object files, one executor that may crash between any two statements |
| `InlineArtifacts`, `InlineRewrites`, `InlineReplacement`, `InlineSurvival`, `InlineReading`, `InlineBreakage` | inline artifacts of JSON documents: extraction, what it makes of anything written, rewriting one or several artifacts, and exactly when the others survive it |
| `InlineRecords`, `Registration` | what is stored of a migrated artifact, and the tables it is registered in |
| `Migration`, `MigrationGroups`, `MigrationExecutor`, `MigrationState`, `MigrationRuns` | moving inline artifacts into the store: grouping, batches, what holds between two passes, and the loop |
| `Backup`, `BackupAcceptance`, `Restore`, `BackupRoundTrip` | the inventory writer that shares rows between entries, and the expander that puts them back |
| `DispatchTrace`, `Dispatch` | one durable dispatch against an arbitrary authority, adapter, clock and renewal task: what its traces are like, and the coordinator |
| `Registry` | the registry of active dispatches, waiting for idle, and shutdown |
| `Jwks`, `JwksCache` | the key-set cache under concurrent callers, and as an object that one caller uses while others go first |
| `Chunks` | the chunk list of a manifest and the comparison of a re-encrypted plaintext with it |
| `CallbackWorker`, `CallbackAudit` | delivering a claimed callback, any number of claims together, and the audit preimage |

Digests are taken as collision free, random names, nonces and tokens as new, and a `select` over futures as an
arbitrary choice among the branches that may be ready, with the biased branch first. Where a run is spoken of,
it is any finite sequence of steps that are possible when their turn comes.

Some promises do not hold as stated. In each such case the code is kept, an input or run that breaks the promise
is given, and the condition under which it holds is proved:

- The share check of garbage collection leaves out the collector's own key, so two collectors on one key can
  unlink a live object's file (`CatalogOverlap`). Whatever the number of collectors, a check is safe if and only
  if the collector's own key is not live again with the path, or another live entry names the path as well
  (`CatalogSafety.CheckIsSafeIff`).
- A parent's classification is compared with that of the child when the child is published, and not again. An
  artifact that was collected and published again with a higher classification leaves its children below it
  (`CatalogLineage.ParentMayOutgrowChild`). A publication keeps every child at least as restricted as its parents
  if and only if the children that it finds bear it as a parent (`CatalogLineage.PublishKeepsOrderIff`).
- The commit of a migration batch looks rows up by a source key that does not contain the tenant. It clears
  its groups if and only if each row concerned is the first with its key (`Migration.BatchClearsIff`).
- Rewriting one artifact descends into the bodies of others, which extraction does not. The others keep their
  places and contents if and only if the document has the form that `InlineSurvival.Keeps` describes: nothing
  else inside an object of that id, no part of another artifact shaped as one, no data value that changes, and
  no projection that loses its mark over something inline. `InlineBreakage` has documents for each failure.
- What is stored of a migrated artifact never determines it: a single part loses its file name and kind, and
  an envelope is stored like a part that spells it out (`InlineRecords.NoRecordTellsAlone`). Exactly what is
  lost is `InlineRecords.FormOf`.
- Two tasks of one tenant with the same artifact id, or an id that is registered already, make every migration
  fail; so does a name, description or media type that a manifest refuses. `MigrationRuns.Migrate` completes if
  and only if there is none of these and nothing else is in the way (`MigrationRuns.TwoTasksClash`).
- A backup entry with a null quota policy and a string under `quotaPolicyKey` does not come back as it was
  (`BackupRoundTrip.RoundTripIff`). The entries that src/artifact_backup_executor.rs builds at line 141 never
  carry that field.
- After a shutdown drained the registry, a drained dispatch removes the entry of its successor
  (`Registry.DrainedTaskRemovesSuccessor`). A dispatch keeps its entry if and only if none was drained from
  under its correlation and still runs (`Registry.KeepsEntryIff`). A correlation contains the attempt and the
  lease epoch (src/durable_dispatch.rs, lines 1087 to 1092), so such a run needs an authority that hands out
  both a second time.
- A caller of `wait_for_idle` returns only over an empty registry, but a shutdown empties it while drained
  dispatches still run (`Registry.ReturnsOverDrained`); without a drain none is left (`Registry.ReturnsOverIdle`).
- A durable cancellation that is found while the adapter is being admitted is settled only if the adapter's
  outcome is there when its execution is first polled (`DispatchTrace.EndedPollerNeedsOutcomeAtOnce`). Otherwise the
  poller, which has ended, is polled again, and the dispatch ends with the request unsettled
  (`DispatchTrace.RequestedStaysUnsettled`).
- Chunk ordinals are stored in 32 bits, so beyond two to the thirty-first chunks the comparison accepts nothing
  (`Chunks.AcceptsIffSame`).

`dafny verify dfyconfig.toml` verifies everything.

## Model

| member | source | states |
|---|---|---|
| CatalogSafety.LiveFilesPresent | src/artifact.rs:2540-2604 | after every interleaving with at most one collector per key, whatever file calls fail, each entry that is not tombstoned has its file, and no unlink about to happen is of a file that such an entry names |
| CatalogSafety.SafeStep | src/artifact.rs:2361-2604 | each locked section, and the unlink between two of them, keeps the invariant behind that |
| CatalogSafety.SoundChecksKeepFiles | src/artifact.rs:2577-2590 | with any number of collectors on a key, live entries keep their files if no share check is made while the collector's own key is live again with the path that it collects and no other live entry names it |
| CatalogSafety.CheckIsSafeIff | src/artifact.rs:2577-2590 | after any run whose checks met that condition, a further share check keeps every live entry's file through all such continuations if and only if it meets the condition itself |
| CatalogExact.FilesAreExactlyNamed | src/artifact.rs:2349-2360 | if file calls succeed, then whenever no collection is in flight the files are exactly the paths that entries name and their number is the physical object count |
| CatalogExact.ExactStep | src/artifact.rs:2550-2603 | every file is answered for by a live entry or by the last sharer's collector, through each step |
| CatalogOverlap.ShareCheckMissesOwnKeyOnly | src/artifact.rs:2577-2587 | the share check overlooks a live user of a path if and only if that is the collector's own key and no other live entry uses it |
| CatalogOverlap.SecondCollectorLosesALiveFile | src/artifact.rs:2540-2604 | for any two artifacts of one producer with the same bytes, two collectors on one key have a run that leaves a live entry without its file |
| CatalogPublish.PublishAnswers | src/artifact.rs:2361-2393 | each answer by its condition: integrity if the bytes are not those described; done again or a conflict if the key is taken, by whether the manifests agree in all but the key generation; denied if a parent is missing, tombstoned, of higher classification or in another domain; invalid or unavailable if no twin is there to share with and the bytes are too many, or key or files fail; and done otherwise |
| CatalogPublish.PublishLeaves | src/artifact.rs:2394-2420 | only a new entry changes the catalog: it has the given manifest, is referenced, unheld and unleased, and has the object of a twin or a new file that reads as the bytes; a failed call leaves at most a file that was linked |
| CatalogPublish.SharedIffSame | src/artifact.rs:2394-2405 | in every run two live entries share an object if and only if tenant, owner, content, classification, domain and key generation agree |
| CatalogLineage.NewEntriesDescend | src/artifact.rs:2382-2393 | in every run only a publication adds an entry, and at that step each parent is in the catalog, live, in the same domain and of no higher classification |
| CatalogLineage.DerivedStaysRestricted | src/artifact.rs:2382-2393 | in every run whose publications find no child that they would turn against, the last artifact of any chain of derivations is at least as restricted as the first and in its domain |
| CatalogLineage.PublishKeepsOrderIff | src/artifact.rs:2382-2420 | a publication keeps that order if and only if the children already naming the new entry as a parent are at least as restricted and in its domain |
| CatalogLineage.ParentMayOutgrowChild | src/artifact.rs:2361-2420 | any artifact can be collected while a derived one stays, and published again more restricted, which breaks the order |
| CatalogReads.ReadAnswers | src/artifact.rs:1939-1982 | each answer of a read by its condition: unavailable, the bytes that the manifest describes, or a breach of integrity |
| CatalogReads.ResolveReturnsPublishedBytes | src/artifact.rs:2422-2447 | in every run, tampering with files included, a resolve is an error or gives exactly the bytes with which its entry was published |
| CatalogReads.ResolveSucceedsIff | src/artifact.rs:1939-1982 | without tampering a resolve succeeds if and only if the key is available and the object was not collected meanwhile, through any chain of deduplications |
| CatalogReads.SharedBlobFits | src/artifact.rs:2283-2314 | the deduplication key fixes every field of the associated data, so a shared object opens under the sharer's manifest |
| CatalogRetention.TombstonedOnlyWhenFree | src/artifact.rs:2550-2576 | with collectors' clocks that do not go back, a section tombstones an entry if and only if it has no hold, its reference is released, retention has passed and every lease granted for it was released or has expired |
| CatalogRetention.DeniedUntilPublished | src/artifact.rs:2606-2623 | from the tombstone on, and after removal, no lease is granted and no resolve admitted until the key is published again after that removal; a publication while the tombstoned entry is there revives nothing |
| CatalogRetention.RunsStayAccounted | src/artifact.rs:2448-2483 | in every such run the leases on record are the ones granted and neither released nor, at the last collection, expired |
| ArtifactCatalogObject.ArtifactCatalog.constructor | src/artifact.rs:2341-2347 | a new catalog has no entries and no files |
| ArtifactCatalogObject.InvariantStep | src/artifact.rs:2361-2604 | every section, with one collector on a key and clocks that do not go back, keeps live entries their files, objects openable under their entries, and leases accounted for |
| ArtifactCatalogObject.HoldRoundTrip | src/artifact.rs:2484-2521 | placing a hold that was not there and releasing it leaves everything as it was |
| ArtifactCatalogObject.ArtifactCatalog.Publish | src/artifact.rs:2361-2421 | updates the map and the object directory in place; every answer has its condition and leaves behind what `CatalogPublish` says, with a twin found by search and the parents checked one by one; keeps the invariant, and a new entry is on record with these bytes |
| ArtifactCatalogObject.ArtifactCatalog.FindShareable | src/artifact.rs:2394-2402 | finds an entry with the same deduplication key, or there is none |
| ArtifactCatalogObject.ArtifactCatalog.OpenForRead | src/artifact.rs:2422-2445 | gives manifest and object if and only if the entry is not tombstoned, its reference is live and its owner and producing task are the caller's |
| ArtifactCatalogObject.ArtifactCatalog.ReadVerified | src/artifact.rs:1939-1982 | whatever is in the files, a plaintext that is returned is the one that the manifest describes; an object sealed for these bytes opens to them when the file is there and the key available, and otherwise the read fails |
| ArtifactCatalogObject.ArtifactCatalog.Resolve | src/artifact.rs:2422-2447 | an undisturbed resolve gives the bytes with which the entry was published if and only if the caller is authorized and the key available |
| ArtifactCatalogObject.ArtifactCatalog.AcquireReadLease | src/artifact.rs:2448-2471 | grants if and only if the time to live is positive and does not overflow and the caller is authorized, and until its expiry the lease keeps the entry from collection |
| ArtifactCatalogObject.ArtifactCatalog.ReleaseReadLease | src/artifact.rs:2472-2483 | takes the lease from the entry that holds it, after which no entry holds it, or fails |
| ArtifactCatalogObject.ArtifactCatalog.PlaceLegalHold | src/artifact.rs:2484-2501 | succeeds on every entry, tombstoned or not, and then every collection that starts afterwards finds the entry held |
| ArtifactCatalogObject.ArtifactCatalog.ReleaseLegalHold | src/artifact.rs:2502-2521 | succeeds if and only if the hold was there, and the entry stays held if and only if it was not the only one |
| ArtifactCatalogObject.ArtifactCatalog.DropReference | src/artifact.rs:2522-2539 | succeeds for the producing task only, and from then on nobody is authorized to resolve or lease the entry |
| ArtifactCatalogObject.ArtifactCatalog.Mark | src/artifact.rs:2546-2576 | first section of a collection: invalid outside one to a thousand, denied without an entry, and otherwise what `MarkDecides` says, with all other entries as they were |
| ArtifactCatalogObject.MarkDecides | src/artifact.rs:2550-2576 | a held entry is kept as held; one that is referenced, leased beyond now or to be retained is kept as live; any other is tombstoned and its fence counted up unless it is at its maximum; exactly the unexpired leases remain |
| ArtifactCatalogObject.ArtifactCatalog.HasSharer | src/artifact.rs:2577-2587 | second section: whether another entry that is not tombstoned names the path |
| ArtifactCatalogObject.ArtifactCatalog.Unlink | src/artifact.rs:1983-1985 | the path that goes is one that no live entry names, so every live entry has its file afterwards |
| ArtifactCatalogObject.ArtifactCatalog.Remove | src/artifact.rs:2591-2604 | with one collector on a key the entry is still the one that was marked, so the conflict that the code provides for does not come up |
| ArtifactCatalogObject.ArtifactCatalog.Gc | src/artifact.rs:2540-2604 | an undisturbed collection deletes only an entry without hold, reference, unexpired lease and retention, and always does if file calls succeed and the fence does not overflow; it takes the file along if and only if no other live entry names it, and leaves all other entries alone |
| ArtifactCatalogObject.ArtifactCatalog.CountPhysicalObjects | src/artifact.rs:2349-2360 | the number of distinct paths that entries name |
| RotationSafety.RowsAndLeasesReadable | src/artifact_reencryption_executor.rs:256-389 | after every run of one executor, crashes between any two statements and failing file calls, the probe of a copy among them, included, each content row names a file that opens under the row's generation to the plaintext it was published with, and so does the row each active lease was granted on |
| RotationSafety.OldFilesGoLast | src/artifact_reencryption_executor.rs:356-389 | a file that a row has ever named keeps its content, and is taken away only by the cleanup, after the swap and the rollback horizon, when no active lease was granted on it |
| RotationSafety.SafeStep | src/artifact_reencryption_executor.rs:185-389 | every statement and file call, by whoever, keeps the invariant behind these |
| RotationSafety.SafeSwap | src/artifact_reencryption_executor.rs:324-347 | the swap moves a row only to a copy that reads as the original, and the name it takes up belonged to no row before |
| RotationResume.CopiesStayWhole | src/artifact.rs:1607-1634 | if file calls succeed, a staged job's copy is whole, stage only, linked twice or in place only; a promoted one is in place and reads as the original; and the executor never turns to deleting a copy or failing a job |
| RotationResume.ResumeReachesSwap | src/artifact_reencryption_executor.rs:256-347 | if file calls succeed, the resume of a staged or promoted job with time left on its lease, for a row that is still the one planned for, reaches the swap by the executor's own steps, with the copy the job had registered |
| RotationResume.FirstClaimReachesSwap | src/artifact_reencryption_executor.rs:256-347 | if file calls succeed, the first claim of a job with time left, for a row that is still the one planned for, reaches the swap by the executor's own steps, with the original bytes sealed under the job's generation, whatever name and nonce are drawn, and the old file kept for the rollback horizon |
| RotationResume.RegisteredCopyIsKept | src/artifact_reencryption_executor.rs:256-283 | in every run, failing file calls and crashes included, a job never changes the copy it has registered, from then to the end of the run |
| RotationResume.IntactWork | src/artifact.rs:1467-1495 | probe, link, unlink, comparison, acknowledgement and verification each keep that, for every job |
| RotationCompletion.EveryRowCanBeRotated | src/artifact_reencryption_executor.rs:180-389 | from any run whose file calls succeed and that leaves the executor free, a plan for any row, a claim, the executor's own steps and time end in a completed job, after which the row reads as the original under the new generation and the old file is gone |
| RotationCompletion.EveryJobCanBeFinished | src/artifact_reencryption_executor.rs:191-347 | whatever a crash left behind, a job that is not swapped, once claims on it have run out, is claimed and carried on to the swap |
| RotationCompletion.CompletedLeavesNothing | src/artifact_reencryption_executor.rs:356-389 | in every run the old file of a completed job is gone and its row has moved on |
| RotationFencing.JobsLiveRightfully | src/artifact_reencryption_executor.rs:256-389 | in every run, damage to copies included, a job's state changes only along its life or to failed, and only by the step and under the claim for it: registering, acknowledging and swapping before the lease runs out, acknowledging only what is in place as registered, swapping only the row planned for and a copy sealed for it |
| RotationFencing.ClaimsAreFenced | migrations/postgres/0005_artifact_authority.sql:403-417 | a job's claim changes only when it is available, and is then one epoch newer, with the token and end that were granted; a job that is given up fails as it is, and a completed one has no claim left |
| RotationFencing.AvailableIsClaimable | migrations/postgres/0005_artifact_authority.sql:403-412 | a free executor can claim a job if and only if it is unfinished and pending or its lease has run out |
| RotationFencing.ClaimsDiffer | migrations/postgres/0005_artifact_authority.sql:413-416 | in every run two claims of one job have different epochs, the later the larger |
| RotationFencing.BeginChecksSeal | src/artifact_reencryption_executor.rs:254-283 | work begins only on the copy that the job registered, and only if it is sealed for the row as it is; what does not fit is failed |
| RotationFencing.MismatchIsDeleted | src/artifact_reencryption_executor.rs:285-321 | whatever looks at a copy and finds it otherwise than registered turns to deleting it |
| RotationFencing.TroubleEndsInFailure | src/artifact_reencryption_executor.rs:294-321 | then, if file and job can be changed, the copy is gone, the job has failed and all rows are as they were |
| RotationFencing.FailedForGood | migrations/postgres/0005_artifact_authority.sql:403-412 | in every run a job that has failed stays failed |
| InlineReading.PartIsReadIff | src/artifact_migration.rs:195-255 | a part is read if and only if it is an object with exactly one of text, raw, data and url, of the right type, and then as that says: texts as UTF-8, raw parts decoded, data serialised, links apart, each with its media type and file name |
| InlineReading.ReadIffWritten | src/artifact_migration.rs:179-262 | an object is taken for an artifact if and only if it spells one with content and a valid id, and bears no projection mark |
| InlineReading.PassedOverIff | src/artifact_migration.rs:179-192 | an object is passed over if and only if it has an id and parts and bears the mark |
| InlineReading.FailsIff | src/artifact_migration.rs:195-258 | reading an object fails if and only if it claims to be an artifact and spells none, or has content under an invalid id |
| InlineReading.WriteThenExtract | src/artifact_migration.rs:175-285 | any artifact with content and a valid id, written as JSON and extracted, comes back with id, name, description, parts and links in order, raw parts through base64 |
| InlineReading.ExtractionIsExact | src/artifact_migration.rs:175-285 | extraction gives exactly the artifacts that places lead to, each once, in document order |
| InlineReading.ExtractionFailsIff | src/artifact_migration.rs:175-285 | extraction fails if and only if some place leads to an object that cannot be read |
| InlineReading.ValidIdIsASegment | src/artifact.rs:1107-1118 | a valid id is one unescaped path segment and no dot segment |
| InlineRewrites.ShownTells | src/artifact.rs:1053-1086 | the projection of a manifest tells id, name, description, media type, digests, size and address, in its mark and in its part |
| InlineRewrites.CountIsReplaced | src/artifact_migration.rs:138-172 | the count that a rewrite reports is the number of objects that it replaces |
| InlineRewrites.ShownIsPresented | src/artifact.rs:1053-1086 | the projection of a manifest is recognised as a projection of its artifact, contains no artifact, and could not be taken for a part or for the mark of another projection |
| InlineRewrites.RewriteTwice | src/artifact_migration.rs:138-172 | rewriting an artifact is idempotent on every document |
| InlineRewrites.RewritesCommute | src/artifact_migration.rs:138-172 | rewrites of different artifacts commute on every document |
| InlineRewrites.NoneLeft | src/artifact_migration.rs:175-285 | after rewriting an artifact, any successful extraction contains it no more, on every document |
| InlineRewrites.ExactOnFlat | src/artifact_migration.rs:138-285 | on flat documents extraction after rewriting is the original list without that artifact, in order and byte for byte |
| InlineRewrites.FlatKept | src/artifact_migration.rs:138-172 | rewriting keeps a document flat |
| InlineRewrites.ExtractedMatches | src/artifact_migration.rs:138-285 | what extraction finds, rewriting finds, so the rewrite of an extracted artifact does not fail |
| InlineReplacement.ReplaceTwice | src/artifact_migration.rs:138-172 | replacing some artifacts and then others is, on every document, replacing all of them at once |
| InlineSurvival.SurvivalIff | src/artifact_migration.rs:138-285 | on every readable document, rewriting one artifact leaves every other at its place and as it was, and brings none to light, if and only if the document has the form that `Keeps` spells out |
| InlineSurvival.ListSurvivalIff | src/artifact_migration.rs:138-285 | that form makes extraction afterwards the original list without the artifact, and where no projection loses its mark nothing else does |
| InlineSurvival.InPlaceIff | src/artifact_migration.rs:138-172 | rewriting an artifact leaves a value as it is if and only if every topmost object of that id in it is the projection already |
| InlineSurvival.SilentIff | src/artifact_migration.rs:175-285 | exactly which documents extract to nothing once the artifact is rewritten |
| InlineSurvival.LocateIsExtract | src/artifact_migration.rs:175-285 | extraction with places finds what extraction finds, in order |
| InlineBreakage.NestedDataChanges | src/artifact_migration.rs:143-165 | an artifact with an object of the rewritten id in its data is extracted afterwards with other bytes |
| InlineBreakage.DoublePartBreaks | src/artifact_migration.rs:143-165 | an artifact whose text part is also an object of that id makes the document unreadable |
| InlineBreakage.InnerIsLost | src/artifact_migration.rs:143-165 | what is inside an object of that id without parts is lost with it |
| InlineBreakage.HiddenSurfaces | src/artifact_migration.rs:175-196 | what a projection hides comes to light when its mark is an object of that id |
| InlineBreakage.ListsMayAgreeByChance | src/artifact_migration.rs:138-285 | the last two side by side: the list is as it should be although an artifact was lost in one place and another came to light elsewhere |
| InlineRecords.RecordedIff | src/artifact_migration_executor.rs:416-470 | there is a record if and only if the media type, given or by kind, can be normalised, name or id and description can be shown, and the bytes are few enough; a single part is stored byte for byte |
| InlineRecords.EnvelopeOpens | src/artifact_migration.rs:50-68 | an envelope, opened by the names of its members, gives back every part and every link in order |
| InlineRecords.RecordsCoincideIff | src/artifact_migration.rs:44-85 | two artifacts are stored alike if and only if id, name or id, description, normalised media type and content agree, where envelopes agree only for the same parts and links |
| InlineRecords.RecordAndFormTell | src/artifact_migration_executor.rs:416-470 | the stored record and the form, that is whether there was a name, whether there is an envelope, and if not the kind, media type and file name, together tell every artifact from all others |
| InlineRecords.NoRecordTellsAlone | src/artifact_migration.rs:46-49 | for every artifact there is another of a different form that is stored alike; for a single part, one with another file name |
| Registration.RegisterIff | src/artifact_migration_executor.rs:691-734 | with a new locator, registering succeeds if and only if neither object, manifest nor upload of the artifact is there |
| Registration.SameObjectIff | src/artifact_migration_executor.rs:474-484 | two artifacts share a content object if and only if tenant, owner, key generation, content and id agree |
| Registration.RegisterTakes | migrations/postgres/0005_artifact_authority.sql:33-41 | afterwards exactly the artifacts with another tenant or id are as free as before, whatever their task |
| Registration.RegisterBatch | src/artifact_migration_executor.rs:573-575 | the registrations of a transaction succeed if and only if nothing of any of the artifacts is registered and no two share tenant and id; then rows are only added, and each artifact is on record for its producer with its bytes and an upload that names the same object and file |
| Migration.SettleIsExact | src/artifact_migration_executor.rs:592-607 | a flat row that went through a batch is flat and holds exactly its artifacts outside the batch, unchanged |
| Migration.SettleReplaces | src/artifact_migration_executor.rs:592-607 | that row is the old document with every topmost object of a selected artifact replaced by its projection, and nothing else changed |
| Migration.BatchIsExact | src/artifact_migration_executor.rs:580-619 | a committed batch removes exactly the selected groups, introduces none, and keeps rows readable, flat and in agreement |
| Migration.BatchClearsIff | src/artifact_migration_executor.rs:587-591 | whatever the source keys, a batch leaves none of its groups inline if and only if each row holding one is the first with its key |
| Migration.SharedKeyStalls | src/artifact_migration_executor.rs:587-613 | two tenants with one source key: the batch changes nothing, so the next pass finds what this one found |
| MigrationGroups.GroupArtifacts | src/artifact_migration_executor.rs:363-404 | succeeds if and only if every row can be read and the artifacts of each group agree, and then has one group per distinct inline artifact, listing exactly its rows, with the origin of the first of them |
| MigrationGroups.CountRow | src/artifact_migration_executor.rs:368-402 | adds the artifacts of one row, or meets two sightings of a group that clash |
| MigrationExecutor.PrepareBatch | src/artifact_migration_executor.rs:415-541 | succeeds if and only if every selected artifact can be given a manifest, and then has their entries in order |
| MigrationExecutor.SettleRow | src/artifact_migration_executor.rs:592-607 | rewrites the selected artifacts where a row holds them, and cannot fail on flat, readable rows |
| MigrationExecutor.RewriteRows | src/artifact_migration_executor.rs:580-619 | on readable, flat rows it succeeds, and the first row of every source key then reads as specified while all others are untouched |
| MigrationExecutor.CommitBatch | src/artifact_migration_executor.rs:544-619 | a transaction that commits has registered its artifacts; on readable, flat rows it commits if and only if every registration is accepted, and then the rows are rewritten |
| MigrationExecutor.SelectBatch | src/artifact_migration_executor.rs:153-156 | selects distinct groups, as many as the batch size or all |
| MigrationExecutor.Rescan | src/artifact_migration_executor.rs:893-951 | accepts if and only if every durable document extracts to nothing |
| MigrationExecutor.RunBatch | src/artifact_migration_executor.rs:157-181 | a batch goes through if and only if each of its artifacts can be given a manifest and registered |
| MigrationState.MovableIsAccepted | src/artifact_migration_executor.rs:153-181 | if every inline group can be given a manifest, is not registered and shares tenant and id with no other, any batch of them is accepted, whatever was moved before |
| MigrationRuns.Migrate | src/artifact_migration_executor.rs:117-186 | with flat documents and distinct source keys every run conserves documents and artifacts: each document is the one of the start with the objects of its moved artifacts replaced by the presentation of their record and nothing else changed, rows keep all but the moved groups, a moved group is registered with the record of its artifact, for the producer that its first row names, and nothing else is registered; a completed run found every durable document free of inline artifacts and moved all groups; without failures it completes if and only if rows can be grouped, every group can be given a manifest, none is registered already, no two share tenant and id, and no other document is in the way; and it takes at most one pass more than groups divided by batch size, rounded up |
| MigrationRuns.BatchesRoundUp | src/artifact_migration_executor.rs:153-156 | the number of batches that bounds the passes is the number of groups divided by the batch size, rounded up |
| MigrationRuns.TwoTasksClash | src/artifact_migration_executor.rs:703-729 | two tasks of a tenant with the very same artifact: the rows can be grouped, and yet no migration of them completes |
| Backup.InventoryStream.constructor | src/artifact_backup_executor.rs:455-504 | an empty inventory |
| BackupAcceptance.AcceptedIff | src/artifact_backup_executor.rs:514-632 | for any serialisation of names, a backup accepts a list of entries if and only if every entry is complete, every row has its name fields, and any two rows of a kind with one name are the same row |
| BackupAcceptance.PushAcceptsIff | src/artifact_backup_executor.rs:514-561 | after any accepted entries, one more is accepted if and only if it is complete and its rows agree with all rows before |
| Backup.InventoryStream.Push | src/artifact_backup_executor.rs:514-561 | accepts what the specification of one push accepts, and then holds the rows once and has written the entry with keys in their place |
| Backup.InventoryStream.Finish | src/artifact_backup_executor.rs:562-570 | lists every shared row once |
| BackupRoundTrip.WriteInventory | src/artifact_backup_executor.rs:514-604 | there is an inventory if and only if the entries are complete and agree on shared rows, and it lists every shared row once and every entry with its rows taken out |
| Restore.Keyed | src/artifact_restore_executor.rs:289-301 | succeeds if and only if every row has its key fields and no two have the same key, and then maps keys to rows |
| Restore.ExpandEntry | src/artifact_restore_executor.rs:316-361 | succeeds if and only if all references of the entry resolve, and puts the rows back in order |
| Restore.ExpandSharedRows | src/artifact_restore_executor.rs:288-370 | succeeds if and only if the shared rows have unique keys that are exactly the referenced ones, and then expands every entry |
| BackupRoundTrip.RoundTripIff | src/artifact_restore_executor.rs:288-370 | for every accepted list of entries and any key serializer, expansion succeeds and gives back every field of every entry if and only if no entry with a null quota policy has a string under its policy key |
| BackupRoundTrip.BackUpAndRestore | src/artifact_restore_executor.rs:288-370 | the stream and the expander one after the other accept exactly the entries that are complete and agree, and give back every field of each under that condition and only then |
| BackupRoundTrip.BackupFilesAll | src/artifact_backup_executor.rs:607-632 | every shared row stays under its key as later entries are pushed, and every key is one that some entry refers to |
| BackupRoundTrip.StrayIsAccepted | src/artifact_backup_executor.rs:545-553 | an entry that breaks the round trip is accepted by the backup |
| Dispatch.Dispatch | src/durable_dispatch.rs:989-1190 | every run of a dispatch keeps the discipline and has the result that the `DispatchTrace` rows below spell out, and leaves no renewal task behind |
| DispatchTrace.SettlementsFollowAnswers | src/durable_dispatch.rs:1284-1311 | a canceled settlement follows a latest cancellation query answered yes, any other one answered no, asked since the adapter ended and since a completion was refused |
| DispatchTrace.SettlementsAreFew | src/durable_dispatch.rs:1486-1640 | of two settlements the earlier is a completion and the later a cancellation, so there are at most two |
| DispatchTrace.CompletionsAreProposals | src/durable_dispatch.rs:1486-1601 | a completion settles exactly what the adapter ended with, never in plain runtime mode, and with a profile only what that authorised, successes in its store |
| DispatchTrace.SettlementsAreFenced | src/durable_dispatch.rs:188-242 | if leases are renewed, a settlement comes after the renewal task was started, cancelled and joined, with no stale, failed, timed-out or panicked renewal before it, and carries the lease of the latest applied renewal |
| DispatchTrace.LossLeavesAdapterUnpolled | src/durable_dispatch.rs:1336-1390 | the adapter's admission is first polled at most once, never after a loss won and never after a settlement; nothing is renewed after the join or a loss |
| DispatchTrace.EndedPollerNeedsOutcomeAtOnce | src/durable_dispatch.rs:1361-1485 | once the cancellation poller has ended during admission, a settlement comes only after an outcome that the adapter had ready at the first poll of its execution |
| DispatchTrace.FoundIsDisciplined | src/durable_dispatch.rs:1343-1366 | a receipt whose cancellation is requested and found during admission, and not settled, is within the discipline |
| DispatchTrace.RequestedStaysUnsettled | src/durable_dispatch.rs:1361-1485 | no continuation of it settles anything without such an outcome |
| DispatchTrace.PolledUnlessRequested | src/durable_dispatch.rs:1284-1311 | when the adapter is first polled, the latest cancellation query was answered no |
| DispatchTrace.CancellationsKnowTheCandidate | src/durable_dispatch.rs:1529-1553 | a cancellation goes to the profile's store exactly if the profile had authorised a proposal |
| DispatchTrace.DeliveredIffReplayed | src/durable_dispatch.rs:935-965 | the result is delivered or interrupted with a value if and only if the last answer of `begin_receive`, asked after the last settlement, says so and no loss of the lease was noticed beside the run |
| DispatchTrace.BusyAtOnce | src/durable_dispatch.rs:1003-1078 | the receiver is busy only if there was no capacity to prepare or the first receipt says so |
| DispatchTrace.BusyIsAnswered | src/durable_dispatch.rs:1003-1078 | and in these cases it is what is answered |
| DispatchTrace.FailuresHaveReasons | src/durable_dispatch.rs:989-1684 | every failure has its reason in the trace, by kind: a lost or unjoined renewal, an obstacle, a settlement refused for good, a poller that ended too soon, an outcome that cannot be settled, or a replay that is none |
| DispatchTrace.CalmDelivers | src/durable_dispatch.rs:989-1684 | if everybody else does their part, a dispatch told to execute in a mode whose proposals may be settled settles and then delivers or interrupts with what the replay says |
| DispatchTrace.Remembers | src/durable_dispatch.rs:1193-1684 | the summary that the discipline is stated over has taken note of every earlier event |
| Dispatch.Coordinator.RenewalStep | src/durable_dispatch.rs:153-180 | an applied renewal publishes its lease, any other outcome ends the renewals as lost |
| Dispatch.Coordinator.Stop | src/durable_dispatch.rs:188-242 | gives a lease only after a join without loss, and then the latest one |
| Dispatch.Coordinator.LossBranch | src/durable_dispatch.rs:244-255 | the loss branch wins exactly when the lease is lost |
| Dispatch.Coordinator.AuthoritativeReplay | src/durable_dispatch.rs:935-965 | the result is the one that the replay calls for, and unresolved only if there is none or it is no replay |
| Dispatch.Coordinator.Admit | src/durable_dispatch.rs:1326-1398 | admission with loss, owner, cancellation, poller and deadline, supervised once polled |
| Dispatch.Coordinator.RunToEnd | src/durable_dispatch.rs:1399-1485 | the execution phase, ending in an outcome of the adapter or an error |
| Dispatch.Coordinator.SettleProposal | src/durable_dispatch.rs:1520-1640 | cancellation is asked for before settling and again after a failed settlement |
| Dispatch.Coordinator.Conclude | src/durable_dispatch.rs:1486-1683 | every outcome settles, or does not, within the discipline |
| Dispatch.Coordinator.RunAdmitted | src/durable_dispatch.rs:1271-1684 | from the first cancellation query to the replay |
| Dispatch.Coordinator.RunReceived | src/durable_dispatch.rs:1193-1269 | loading the runtime context |
| Dispatch.Coordinator.DispatchOnce | src/durable_dispatch.rs:989-1190 | preparation, receipt, registration, the run, and the final join and loss flag |
| Registry.NobodySleepsOverIdle | src/durable_dispatch.rs:843-854 | in every run a caller waiting for idle sleeps over an empty registry only while the shutdown that emptied it still owes its notification |
| Registry.ReturnsOverIdle | src/durable_dispatch.rs:843-854 | in every run a caller returns by its own look and over an empty registry only, and such a look always returns; without a drain no registered dispatch is left then |
| Registry.ReturnsOverDrained | src/durable_dispatch.rs:896-934 | with a drain a caller may return while a drained dispatch still runs |
| Registry.NoticeIsNotLost | src/durable_dispatch.rs:843-854 | a notification between a caller's enrolling and its look keeps it from falling asleep |
| Registry.HeldExactlyWhileRegistered | src/durable_dispatch.rs:1104-1189 | without a drain the registry holds a correlation exactly while one dispatch, and only one, is between its registration and its cleanup |
| Registry.OnlyTheHolderRemoves | src/durable_dispatch.rs:812-826 | without a drain only the holder's own cleanup removes an entry, so a rejected duplicate never does |
| Registry.DrainedTaskRemovesSuccessor | src/durable_dispatch.rs:896-934 | with a drain this fails: a run after which a running dispatch is not registered |
| Registry.HeldIffSpared | src/durable_dispatch.rs:812-934 | in every run a dispatch that registered and has not ended is the registry's entry if and only if since its registration there was no drain and no cleanup of another dispatch with its correlation |
| Registry.KeepsEntryIff | src/durable_dispatch.rs:1104-1189 | a dispatch that registers keeps its entry through every continuation without a drain if and only if no other dispatch with its correlation was still between registration and cleanup when it registered |
| Jwks.ReturnedKeysAreCurrent | src/auth.rs:541-603 | in every run a returned key comes from a snapshot that was fresh at the caller's captured time or was installed after the caller first looked |
| Jwks.ServedWithoutFetchIff | src/auth.rs:558-573 | a caller that comes to hold the refresh lock is answered without a fetch if and only if the snapshot has its key and is fresh for it or newer than the one it observed, until the revision counter saturates |
| Jwks.OneRefreshServesAll | src/auth.rs:558-602 | in every run, all callers that waited for the lock when a refresh was installed, and want one of its keys, are given it from that snapshot when they come to look again, if nothing was installed in between |
| Jwks.ReservationsAreSpaced | src/auth.rs:574-598 | in every run with a positive interval, two successive unknown-key reservations without a successful rotation between them are at least the interval apart, whatever the order of captured times and however often the provider fails |
| Jwks.LockIsGivenBack | src/auth.rs:558-602 | in every run the refresh lock is free exactly when no caller is past it, and never has two holders, calls dropped midway included |
| JwksCache.KeyCache.constructor | src/auth.rs:452-468 | a cache with its first snapshot and no reservation |
| JwksCache.KeyCache.KeyFor | src/auth.rs:541-603 | whatever others installed while it waited for the lock, a call answers and leaves behind what its steps in the machine do; a key that it returns is in the cache and was fresh for the caller or installed since its first look; an unknown key is fetched for only if the interval has passed |
| Jwks.SoundStep | src/auth.rs:541-603 | every step keeps lock ownership, the observed serials and the provenance of answers |
| Chunks.VerifyManifestChunks | src/artifact_reencryption_executor.rs:48-112 | accepts if and only if the stored rows are the canonical list and cut the plaintext into consecutive non-empty pieces with matching digests |
| Chunks.ListMatchesItsPlaintext | src/artifact.rs:931-945 | the chunk list is an exact contiguous partition of its plaintext, empty plaintexts and exact multiples included |
| Chunks.AcceptsIffSame | src/artifact_reencryption_executor.rs:48-112 | against the stored list of an original, a plaintext is accepted if and only if it is the original and has at most two to the thirty-first chunks |
| CallbackWorker.Process | src/callback_worker.rs:559-734 | in every run of one claim a delivery is sent at most once, after a renewed lease, the reservation of this attempt and a validated fence, with an allowed attempt number and before expiry; a retry lies within the policy's delays of database now and before expiry; the last word is the last call; what it is, or that there is none, is decided by the one cause that the claim met; and if everybody else does their part, an allowed attempt that has not expired is sent and committed |
| CallbackWorker.RetryOrDeadAt | src/callback_worker.rs:749-785 | declares the delivery dead if no attempt is left or the retry would come at or after expiry, and otherwise schedules it, after the delay that was asked for or a random one, within the policy |
| CallbackWorker.Ceiling | src/push.rs:1122-1132 | the jitter bound is positive and at most the policy's maximum |
| CallbackWorker.CeilingDoubles | src/push.rs:1122-1132 | that bound is the base for the first attempt and doubles with each further one up to the maximum |
| CallbackWorker.SentAtMostMaxAttempts | src/callback_worker.rs:497-555 | if later claims of a delivery have larger attempt numbers, then however claims interleave and wherever they break off, it is sent at most the allowed number of times |
| CallbackWorker.SendsAreFencedAndPaidFor | src/callback_worker.rs:559-660 | every send in such a run follows a renewal, a reservation and a validated fence of its own claim, and no two sends go under the same reservation id |
| CallbackWorker.QuotaIdIsUnique | src/callback_worker.rs:75-80 | reservation ids of different attempts differ |
| CallbackAudit.AuditMaterial | src/callback_authority.rs:82-104 | the loops build the preimage |
| CallbackAudit.PreimageSpells | src/callback_authority.rs:82-104 | the preimage is the domain and then kind, tenant, task, configuration, event, revision and attempt, each with its length |
| CallbackAudit.DecimalReads | src/callback_authority.rs:93-99 | a length or number is written so that it is read back, without leading zeros |
| CallbackAudit.PreimageIsInjective | src/callback_authority.rs:82-104 | two audits have the same preimage if and only if they are the same |
| CallbackAudit.FieldSplits | src/callback_authority.rs:92-96 | a length-prefixed field in front of anything is told apart from it, whatever digits and colons it holds |
| CallbackAudit.ParseReadsBack | src/callback_authority.rs:53-80 | a kind is read back from its text, and from no other |

## Left out

- The bodies of SQL functions, row-level security and the PostgreSQL and SQLite stores: a statement or transaction is one atomic step, an authority's answer is arbitrary.
- Real cryptography, random generators, POSIX permission and fsync checks, plan files and keyring parsing.
- Garbage collection, publishing retries and backup leases of the database-backed store during a rotation: rows are only added, and every lease is a read lease.
- Two executors of one encryption domain at once: the session lock is taken to exclude them.
- RotationSafety.RowsAndLeasesReadable: the executor is a machine of its statements and file calls rather than a loop, because a crash may fall between any two of them; names, generations and plaintexts are identities, and the chunk comparison before the swap is modelled on its own in `Chunks`.
- RotationResume.CopiesStayWhole: supposes that the orphan scanner leaves a stage file alone until its registration, which the scanner's minimum age is for.
- InlineRewrites.RewriteTwice: the JSON tree is a value and rewriting returns a new one; the update in place and the counter's overflow are not modelled.
- InlineReading.WriteThenExtract: supposes that decoding base64 undoes encoding it; the writer is one of this model, with a fixed order of members, while `InlineReading.PartIsReadIff` and `InlineReading.ReadIffWritten` are about any order and any further members.
- InlineSurvival.SurvivalIff: supposes that different JSON values are serialised differently; the objects are taken as lists of fields in the map's order.
- Registration.RegisterBatch: the tables of references, chunks and key generations, and the encryption of the object, are not modelled; a content object is its plaintext and locator.
- MigrationRuns.Migrate: plan leases, journal seals and the final seal's digest are not modelled; a failing store or authority is one arbitrary flag per pass; documents are flat and source keys distinct, for the failures without that see `InlineBreakage` and `Migration.SharedKeyStalls`.
- Backup.InventoryStream.Push: the bytes written and their running digest are not modelled, and what a refused push leaves behind is not stated, since the backup is then abandoned.
- Restore journal, emptiness checks, import statements and the enabling transaction.
- Jwks.SoundStep: parsing and validating a fetched key set is not modelled, a fetch gives any key set or fails.
- JwksCache.KeyCache.KeyFor: what other callers do between the first look and the lock is one arbitrary change; interleavings at every step are those of `Jwks`.
- DispatchTrace.FoundIsDisciplined: shows a trace that the discipline allows, not that given answers of the authority and adapter lead to it, since which branch of a `select` wins is an arbitrary choice inside the methods.
- Dispatch.Dispatch: the calls that cancel a remote adapter are not recorded.
- Registry.NobodySleepsOverIdle: says nothing about fairness, that is, that a woken caller gets to run.
- CallbackWorker.Process: DNS, HTTP and request accounting are arbitrary answers; telemetry and readiness are left out.
- HTTP middleware, agent cards, telemetry, role and state tables, and the polling loops around an authority.
