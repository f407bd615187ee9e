# Disaster recovery for embedded clusters: a verified model

This project models the recovery core of the embedded-cluster disaster recovery extension and proves what it
promises: that a recovery point that is shown as ready can be restored byte for byte, whatever fails, stops or
interleaves; that retention keeps what it should keep; that the operation server runs every operation at most
once at a time and never changes what was committed; and that settings become visible only when everything
Velero needs has been accepted.

`dafny verify dfyconfig.toml` checks everything.

## What is modelled

**The recovery-point life cycle.** `Lifecycle` is a transition system: a world (manifests and archives by
recovery point ID, Velero backups by name, deletion requests), any number of backup attempts with their own
program counter and listing, several for one ID if need be, and one step for every storage or Velero call. Every
call may fail with or without effect, and every attempt may stop between any two calls. `LifecycleSafety`,
`RetentionBound`, `Sequential`, `Rerun` and `Schedule` prove properties of all its runs. `BeginGuard`,
`RetentionLimits`, `SpoiledRuns` and `LostReads` show that the hypotheses are needed, with runs built step by step
by the lemmas of `Paths`.

**The workflows.** `RecoveryStore` is the object store over a bucket of string keys, `VeleroClient` the Velero
client, `Executor` the backup and bootstrap restore workflows as imperative code. The executor carries a ghost run;
its contracts say that whatever happens, the recorded run is a run of the life cycle that ends in the present
bucket, Velero and clock (`Representation` shows that the string keys never make two recovery points collide), which
step an attempt begins and ends with, and which retention count its listing applied. `Workflow` draws the
conclusions for clients that call the executor: the restored bytes, the number of ready points, the due operation.

**The operation server.** `Server` gives one step for every critical section of the handlers and of the
`execute` goroutine, with the failures of file operations and the executor's results as inputs. `OperationServer`
is the server as a class over mutable records; each of its methods is proved to do exactly its step.
`ServerSafety`, `StagedFiles` and `OperationHistory` prove what every interleaving keeps. `OperationFiles` and
`SharedDirectories` treat the files below the temporary root with the real path construction, `SharedPoints` the
operations that work for one recovery point. `Downloads` says what can be fetched and when, `Answers` which requests
are taken, what every refusal answers, and that refusals change nothing. `Handover` joins the server to the life
cycle: what an execution hands to its attempt is the archive that was uploaded, and what a restore returns has the size
and digest that were promised.

**Settings publication.** `Settings` gives the five writes of a save and what any prefix of them leaves behind;
`SettingsStore` is the store as imperative code over a cluster whose calls may fail with or without effect;
`SettingsSafety` proves properties of all sequences of calls that stop after any write, `SettingsCalls` says by field
what a completed call makes visible and exactly which calls are refused.

**Texts.** `Text`, `Ids` and `Keys` model the Go string and path functions, UUID parsing and printing (section 4
of RFC 9562 for the text form), and object key construction and parsing, on real strings.

## Hypotheses, and what is false without them

- *A ready point is complete* needs two things when an attempt begins: its ID has no ready manifest written yet
  (`Fresh`; "written" includes a manifest put that took effect but reported an error), and no other attempt for the
  same normalised ID is under way, unless the Velero backup of that ID has already ended uncleanly (`Exclusive`).
  A run whose attempts all begin so is called disciplined. The condition is exact: in any state that a disciplined
  run can reach, an attempt begins so if and only if no disciplined continuation ever has a ready point without its
  archive or its clean backup (`BeginGuard.BeginExactly`).
  `SpoiledRuns.TwoAttemptsForOneIDSpoil` is a run from nothing in which every attempt is fresh and two share an
  ID; `SpoiledRuns.RerunHappens` one in which a published ID is attempted again. The server admits the
  first: two operations execute for one recovery point in some run if and only if their IDs normalise to the same
  UUID (`SharedPoints.OnePointTwiceExactly`). What a rerun alone does is known exactly too: a point stays complete if
  and only if it is outside the removal set of the rerun's listing (`Rerun.RerunCompleteExactly`), and with
  a retention count of one a ready own point never is (`Rerun.RerunWithRetentionOne`).
  The results that need no discipline are `LifecycleSafety.SoundAlways`,
  `LifecycleSafety.UncleanBackupIsNeverPublished`, `LifecycleSafety.RestoreReturnsTheUpload` and the retention bounds.
- *Retention* needs a count of at least one. The count is zero exactly when the settings Secret is missing
  (`SettingsSafety.RetentionCountFromSecret`); then the first index to remove is -1
  (`Retention.ZeroRetentionStartsBelowTheList`), and the executor's outcome is `Panic`.
- *Counts and schedules* need listings whose reads are reliable, because a manifest that cannot be read is
  silently left out of a listing. For every retention count r, one lost read in otherwise reliable backups one after
  the other leaves r + 1 ready points (`LostReads.LostReadExceeds`). A poll that loses the read of the newest point
  reports that point's operation as due again, and a poll that loses none does not
  (`LostReads.LostReadRepeatsTheOccasion`); such a poll can rerun a published ID and with it spoil the point
  (`LostReads.LostReadRerunsTheBackup`).
- *The plain count* needs backups one after the other. With at most c at a time exactly r + c - 1 points can be ready
  at once, for all r and c (`RetentionLimits.ReadyTogetherExactly`).
- *Bytes*: in a disciplined run a point that was ever ready restores the archive that its ID was given last, whatever
  earlier attempts for it were given (`LifecycleSafety.SeenReadyRestores`). What may be fetched
  without discipline, or before publication, is one archive for all time only if each recovery point ID is only ever
  given one (`LifecycleSafety.RestoreReturnsTheUpload`, `SpoiledRuns.SecondInputReplacesTheFirst`). The
  server guarantees it per operation ID, retries included (`Handover.RetriesKeepTheInput`); which other operation IDs
  share a recovery point ID is `Ids.NormalizeExactly`.
- *Staged files* need that no two operations share a directory. Validation accepts a UUID between any two
  enclosing characters, so the IDs `U` and `/U/` are different operations with the same directory; then one can
  overwrite the archive or the committed configuration of the other. `SharedDirectories.SpoiledExactly` and
  `SharedDirectories.RestagedExactly` show that this is the only way, for all IDs. The decrypted archives of bootstrap
  restores coincide for the same pairs of IDs, and never with the other files (`OperationFiles.FilesApart`).
- *The recovery key* never changes over set-up calls. A restore call is harmless wherever it stops if and only if it
  is refused or brings the visible key again (`SettingsSafety.RestoreIsHarmlessExactly`); otherwise visible key and
  repository password can differ until the next save (`SettingsSafety.SetupRepairsKey`). The same is known of the
  proxy and the backup location (`SettingsSafety.SaveIsHarmlessExactly`).
- Cancelling overwrites even `succeeded`; only `canceled` is final. A repeated create may add a deadline to an
  operation that had none; a deadline that exists only moves later. Set-up calls cannot clear a stored proxy or
  custom CA. All of these follow the code; the design document says less.

## Model

| member | source | states |
|---|---|---|
| LifecycleSafety.ReadyPointsAreComplete | internal/workflow/executor.go:188-264 | in every state that disciplined attempts can reach, however many interleave, fail and stop, each ready manifest has its archive and a Velero backup that is Completed with no errors |
| LifecycleSafety.SafeAlways | internal/workflow/executor.go:188-264 | the same for disciplined runs from any safe state, with no deletion request for the backup of a ready point |
| LifecycleSafety.SoundAlways | internal/recovery/store.go:326-343 | manifests always belong to their ID and were published, whatever is retried and whatever attempts share an ID |
| LifecycleSafety.UnpublishedUncleanIsDoomed | internal/kubernetes/velero.go:141-153 | a Velero backup of an unpublished ID that ended Failed, PartiallyFailed, FailedValidation or with errors is on no work list and no attempt is past it |
| LifecycleSafety.UncleanBackupIsNeverPublished | internal/workflow/executor.go:199-219 | once the backup of an unpublished ID has ended so, no number of attempts, one after the other or at once, ever writes a manifest for the ID, and the backup stays as it ended |
| LifecycleSafety.RestoreReturnsTheUpload | internal/workflow/executor.go:266-285 | if each ID is only ever given one archive and key, whatever is fetched and decrypted for it at any time is that archive, and only its key opens it; no discipline needed |
| LifecycleSafety.ReadyPointRestores | internal/workflow/executor.go:204-217 | in disciplined runs a ready point decrypts to exactly the archive that its ID was given last, and only with the key given then |
| LifecycleSafety.SeenReadyRestores | internal/workflow/executor.go:266-282 | in disciplined runs whatever is fetched for a point after it was seen ready is the archive that its ID had been given last by then |
| BeginGuard.BeginExactly | internal/workflow/executor.go:188-221 | beginning an attempt is fresh and exclusive if and only if no disciplined continuation has a ready point without archive or clean backup |
| BeginGuard.SettledAlways | internal/workflow/executor.go:254-262 | in every run a published point loses its clean backup or its manifest only after a deletion request for the backup |
| SpoiledRuns.TwoAttemptsForOneIDSpoil | internal/workflow/executor.go:195-217 | for every ID two fresh attempts at once, with retention count 1 and reliable listings, can end with the point ready and its archive gone |
| SpoiledRuns.SecondInputReplacesTheFirst | internal/workflow/executor.go:203-206 | for every ID and any two inputs a disciplined run uploads the first and ends ready with the second in its place |
| RetentionBound.ConcurrentRetentionBound | internal/workflow/executor.go:213-264 | with retention count r, reliable listings and at most c attempts between listing and publishing, shared IDs and reruns included, never more than r + c - 1 ready points once one attempt has published |
| RetentionBound.SequentialRetentionBound | internal/workflow/executor.go:223-264 | sequential backups stay within r |
| RetentionLimits.ReadyTogetherExactly | internal/workflow/executor.go:213-264 | for all r, c >= 1 the points of given IDs can all be ready at the end of a disciplined run with reliable listings and at most c attempts at a time if and only if there are at most r + c - 1 |
| LostReads.LostReadExceeds | internal/recovery/store.go:316-319 | for every r one failed manifest read makes otherwise reliable sequential backups end with r + 1 ready points |
| Retention.ZeroRetentionStartsBelowTheList | internal/workflow/executor.go:243-246 | with count 0 the first index to remove is -1, whatever was listed |
| Sequential.FloorAtEveryStep | internal/workflow/executor.go:243-263 | in every intermediate and stopping state the newest min(n, r-1) ready points keep manifest, archive and backup |
| Sequential.CrashConvergence | internal/workflow/executor.go:223-264 | after any failed attempts, one success leaves exactly the new point and the newest min(n, r-1) old ones, and nothing marked deleting |
| Ranking.KeptIsNewest | internal/workflow/executor.go:235-246 | the kept prefix of a reliable listing is the r-1 newest points by the definition that counts newer points |
| Ranking.PositionIsRank | internal/recovery/store.go:322 | the position in a newest-first listing is the number of newer points |
| Rerun.RerunBoundary | internal/workflow/executor.go:206-220 | a successful rerun of an ID ends with its point ready; of the manifests and archives it found when listing exactly the removal set of that listing is gone, its own archive included |
| Rerun.RerunCompleteExactly | internal/workflow/executor.go:206-263 | if its Velero backup was in order when the rerun uploaded, the own point, and any other that had its archive, ends complete with archive and backup if and only if it is outside the removal set |
| SpoiledRuns.RerunHappens | internal/workflow/executor.go:188-220 | for every ID a run from nothing publishes it, reruns it with retention count 1 and reliable listings, and ends with the point ready and its archive gone |
| Rerun.RemovalPositions | internal/workflow/executor.go:231-263 | the removal set is what is listed as deleting, or at position r-1 or later among the ready manifests |
| Rerun.RerunWithRetentionOne | internal/workflow/executor.go:243-263 | with r = 1 a rerun removes its own ready point and publishes it again without its archive |
| Schedule.BackupSchedule | internal/workflow/executor.go:138-186 | a poll fails exactly when a needed read fails; it is due exactly when the schedule's next time after the latest listed point has come, or nothing is listed, and reports exactly the occasion that the ready points make due |
| Schedule.PollsAgree | internal/workflow/executor.go:158-184 | all due polls between two publications report one operation |
| Schedule.ScheduledOnce | internal/workflow/executor.go:138-186 | an operation whose point is published is never due again |
| Schedule.LatestNeverDecreases | internal/workflow/executor.go:243-263 | with r >= 2 a ready point, once there is one, always exists, and the latest time never decreases |
| LostReads.LostReadRepeatsTheOccasion | internal/workflow/executor.go:162-184 | a poll that loses the read of the point of an occasion reports that occasion again, and a poll that loses no read does not |
| LostReads.LostReadRerunsTheBackup | internal/workflow/executor.go:166-171 | one lost read in a poll can rerun the published initial backup and leave its point ready without its archive |
| Ids.NormalizeIsCanonical | internal/workflow/executor.go:326-332 | a normalised operation ID always matches the stored pattern |
| Ids.NormalizeExactly | internal/workflow/executor.go:326-332 | exactly which raw texts become a given recovery point ID |
| Ids.DashRemovalInjective | internal/workflow/executor.go:199 | removing the dashes loses nothing on canonical IDs |
| Keys.KeyForms | internal/recovery/store.go:345-350 | for every prefix, every key is the cleaned prefix followed by the literal path of the ID, and every Velero name is made of the digits of the ID |
| Keys.BaseForms | internal/recovery/store.go:345-350 | an empty prefix adds nothing, and a prefix of ordinary elements stays as it is, followed by a slash |
| Keys.KeysDistinct | internal/recovery/store.go:345-360 | distinct IDs have distinct manifest keys, archive keys and Velero names, and no manifest key is an archive key |
| Keys.ListingParsesExactly | internal/recovery/store.go:297-320 | below the listing prefix the parse yields an ID from its manifest key and from no other key |
| Keys.VeleroPrefixDisjoint | internal/settings/store.go:327-329 | no recovery-point key lies below the prefix given to Velero |
| Representation.PutManifestRepresents | internal/recovery/store.go:232-246 | a manifest put changes the manifest of its ID and nothing else that the bucket represents |
| Representation.DeleteArchiveRepresents | internal/recovery/store.go:331-337 | deleting an archive object removes the archive of its ID and nothing else |
| RecoveryStore.ReflectsAll | internal/recovery/store.go:297-324 | with reliable reads a listing is every stored manifest, exactly once, newest first |
| RecoveryStore.CollectedReflects | internal/recovery/store.go:303-323 | over any division into pages, collecting and sorting gives exactly the readable manifests whose read was not lost, each once |
| RecoveryStore.OnlyReadyInOrder | internal/recovery/store.go:279-291 | the ready subsequence of a listing is a listing of the ready points, of all of them if no read was lost |
| RecoveryStore.CompactReady | internal/recovery/store.go:284-290 | compacting into the same array yields exactly the ready subsequence of what the array held |
| RecoveryStore.ObjectStore.ListRetentionManifests | internal/recovery/store.go:293-324 | page by page, key by key, returns exactly the readable manifests whose read was not lost, newest first |
| RecoveryStore.ObjectStore.ListManifests | internal/recovery/store.go:279-291 | returns exactly the ready ones of these, newest first |
| RecoveryStore.ObjectStore.PutEncryptedFile | internal/recovery/store.go:128-150 | stores the encrypted source under the object key or leaves the bucket alone; success means it is stored |
| RecoveryStore.ObjectStore.GetDecryptedFile | internal/recovery/store.go:195-230 | writes the decrypted object to a new file and returns its name, its size in bytes and its SHA-256, or leaves no file behind |
| RecoveryStore.ObjectStore.PutManifest | internal/recovery/store.go:232-246 | only a readable manifest is ever written, under its manifest key: version 1, ready or deleting, dated, naming its own archive and a Velero backup |
| RecoveryStore.ObjectStore.ReadManifest | internal/recovery/store.go:259-277 | returns only the readable manifest stored for that ID |
| RecoveryStore.ObjectStore.GetManifest | internal/recovery/store.go:248-257 | returns only ready readable manifests |
| RecoveryStore.ObjectStore.MarkRecoveryPointDeleting | internal/recovery/store.go:326-329 | rewrites the manifest as deleting or leaves the bucket alone |
| RecoveryStore.ObjectStore.DeleteRecoveryPoint | internal/recovery/store.go:331-343 | archive first, manifest only after the archive's deletion succeeded |
| VeleroClient.Velero.Backup | internal/kubernetes/velero.go:25-42 | creates or adopts by name and succeeds exactly on an observed phase Completed without errors |
| VeleroClient.Velero.Wait | internal/kubernetes/velero.go:122-160 | the observed phase is a terminal phase that the backup really has; success is exactly Completed without errors |
| VeleroClient.Velero.DeleteBackup | internal/kubernetes/velero.go:84-120 | success means that the request exists and was processed without errors; nothing else is requested |
| Executor.Executor.Backup | internal/workflow/executor.go:188-221 | every execution is one attempt of the life cycle for the normalised ID, begun once with the given archive, published by its last step exactly when it succeeds, then with a manifest dated within the execution, with reliable retention at the given count whenever no manifest read fails; panics only on a retention count below one |
| Executor.Executor.ApplyRetention | internal/workflow/executor.go:223-264 | every execution is a retention pass of the life cycle, with the given count and every manifest if no read fails, that ends with nothing left to mark or delete if it succeeds |
| Executor.Executor.Split | internal/workflow/executor.go:235-242 | the loop separates a listing into its deleting and its other manifests, in order |
| Executor.Executor.MarkExpired | internal/workflow/executor.go:244-253 | marks the expired manifests one by one; success means all are marked and queued for deletion |
| Executor.Executor.RemoveDeleting | internal/workflow/executor.go:254-262 | removes the queued points one by one, backup, archive, manifest |
| Executor.Executor.BootstrapRestore | internal/workflow/executor.go:266-285 | restores only a point that was ready when its manifest was read, whatever others do between that and the download, into the file of the operation; name, size and SHA-256 are those of the file, whose bytes in a disciplined run are what the ID had been given last |
| Workflow.BackUpAndRestore | internal/workflow/executor.go:188-285 | a backup and a later bootstrap restore with the same key return the archive byte for byte, described with its size and SHA-256, if the recorded run is disciplined or every ID had one input, whatever others do in between |
| Workflow.BackUpAll | internal/workflow/executor.go:188-264 | backups one after the other with count r leave at most r ready points from the first success on, whatever fails |
| Workflow.Poll | internal/workflow/executor.go:138-186 | a poll of the stored manifests that loses no read reports exactly the operation that the ready points make due |
| OperationFiles.FilesApart | internal/protocol/server.go:264-269 | the uploaded archives, the configurations and the restored archives of two accepted operation IDs coincide if and only if the IDs are equal up to a pair of enclosing slashes; the three kinds are never in one file |
| OperationFiles.FileForms | internal/workflow/executor.go:271-275 | each file is the cleaned root, the ID without enclosing slashes and the literal file name |
| Operations.CanonicalFormsAgree | internal/protocol/server.go:598-608 | canonical requests are equal exactly when the requests are equal apart from the deadline |
| ServerSafety.ConsistentAlways | internal/protocol/server.go:156-467 | the invariant on records, executions, uploads and the create in progress holds in every run |
| OperationHistory.AtMostOneExecution | internal/protocol/server.go:297-390 | in every interleaving: running means exactly one execution, canceled at most one, any other state none |
| OperationHistory.FinishEndsRunning | internal/protocol/server.go:373-389 | an execution that ends moves running to succeeded with its result and its download path or to failed with its error, or finds canceled and changes nothing |
| OperationHistory.CancelIsFinal | internal/protocol/server.go:452-467 | from a cancellation on the operation stays canceled and no run request changes anything |
| OperationHistory.RunStartsExactly | internal/protocol/server.go:306-361 | a run request starts an execution exactly for a pending or failed operation that has what it needs; a staged configuration is never at fault |
| Answers.RunAnswers | internal/protocol/server.go:297-362 | every answer to a run request by state and completeness, what it starts, and that the others change nothing but an operation that fails for an unreadable configuration |
| Answers.CancelAnswers | internal/protocol/server.go:452-467 | a cancellation changes exactly the state of its operation, or is 404 |
| Answers.ErrorsChangeNothing | internal/protocol/server.go:163-527 | no request answered with an error starts or ends an execution, or changes a file or a record, but for that failure |
| OperationHistory.SelectionRuns | internal/protocol/server.go:509-528 | an accepted selection that is then run executes with exactly the selected recovery point and configuration |
| Answers.SelectAnswers | internal/protocol/server.go:487-527 | exactly which selections are taken, the code of every refusal, and what a taken one sets |
| OperationHistory.RecordsLast | internal/protocol/server.go:182-248 | operations are never forgotten, pending is never re-entered, canceled is absorbing, deadlines only move later, canonical requests stay |
| OperationHistory.RecordsAreWellFormed | internal/protocol/server.go:230-248 | no record holds configuration bytes; started operations have their archive or their selection; errors and results go with their states |
| OperationHistory.CreatingIsNew | internal/protocol/server.go:201-214 | settings are accepted only for an ID without a record, and the second lookup never finds one |
| OperationHistory.FirstRequestStays | internal/protocol/server.go:180-198 | later creates of an ID get 200 exactly when they ask for the same as the first apart from the deadline, else a conflict that changes nothing; only a later deadline replaces the one there is, with the time left for it |
| Answers.RefusedExactly | internal/protocol/types.go:112-164 | a create is refused as invalid exactly if it is not one of the three kinds with all that each has to bring, or its deadline has passed; then it changes nothing |
| Answers.CreatedAsAsked | internal/protocol/server.go:170-250 | a create answered 201 makes a pending operation of exactly what was asked, with the time left to its deadline, its page if it has one, and its configuration staged |
| Answers.SettingsAnswers | internal/protocol/server.go:201-211 | settings are handed over only for in-cluster restores that bring them; unavailable is 503, refused 502, and both end the create |
| OperationHistory.AcceptedSettingsCreate | internal/protocol/server.go:206-250 | accepted settings are always followed by the creation of the operation |
| OperationHistory.AcknowledgedAfterSettings | internal/protocol/server.go:201-211 | an in-cluster restore with configuration is acknowledged only after its settings were accepted |
| OperationHistory.ArchiveIntegrity | internal/protocol/server.go:253-295 | whenever a backup has a state path, the file has the promised size and digest, under any racing uploads |
| Answers.UploadAnswers | internal/protocol/server.go:253-295 | exactly which announcements and bodies of uploads are taken, and the code of every refusal |
| OperationHistory.ArchiveNeverChanges | internal/protocol/server.go:277-294 | once uploaded, the archive's bytes never change |
| OperationHistory.AcceptedBodyIsTheArchive | internal/protocol/server.go:277-294 | once the path is set, the file holds the body of any upload that was accepted for the operation |
| OperationHistory.RetriesGetOneArchive | internal/protocol/server.go:297-390 | all executions of one backup operation, retries too, are started on the same archive |
| Handover.RetriesKeepTheInput | internal/workflow/executor.go:95-104 | retries of one operation with one recovery key give its recovery point the input that it had before |
| Handover.RestoredDescriptorIsPromised | internal/recovery/store.go:216-229 | the size and digest with which a backup's archive is restored are those that the backup's request promised |
| OperationHistory.SelectionIsCommitted | internal/protocol/server.go:504-528 | after a bootstrap restore leaves pending, its recovery point and staged configuration never change |
| OperationHistory.DownloadIsWhatRan | internal/protocol/server.go:429-450 | a download after success returns exactly the bytes that the successful execution received |
| Downloads.ConfigurationServedExactly | internal/protocol/server.go:429-450 | in every history a configuration is handed out if and only if its operation is a bootstrap restore that has succeeded and the file can be read |
| Downloads.ConfigurationOnlyAfterSuccess | internal/protocol/server.go:429-433 | never before an execution has succeeded nor after a cancellation, whatever the IDs |
| Downloads.ArchiveServedExactly | internal/protocol/server.go:386-427 | after a success, result and download path stay in all later states, and the archive is served from that path with the reported size exactly as long as the operation is not canceled, if both were reported |
| Downloads.ServedWasReported | internal/protocol/server.go:412-427 | whatever path and size are served were reported by a successful execution of that operation |
| Downloads.SuccessWasReported | internal/protocol/server.go:373-389 | an operation is succeeded only through a successful execution, whose result and path it holds |
| OperationHistory.ExecutionsAreExecutable | internal/workflow/executor.go:95-104 | every execution is started with a supported operation and all that its workflow needs |
| SharedDirectories.UploadArchive | internal/protocol/server.go:253-295 | an upload of the promised content ends with the file and the path in place |
| SharedDirectories.SpoiledExactly | internal/protocol/server.go:264-294 | some run spoils an uploaded archive with another operation's bytes if and only if the two IDs share a directory |
| SharedDirectories.RestagedExactly | internal/protocol/server.go:531-565 | some run changes a committed configuration if and only if the two IDs share a directory |
| SharedPoints.OnePointTwiceExactly | internal/workflow/executor.go:326-332 | two accepted operation IDs can execute for one recovery point at the same time if and only if they normalise to the same UUID |
| OperationServer.OperationServer.CreateOperation | internal/protocol/server.go:163-199 | validation, deadline and first lookup, as the step of the same name |
| OperationServer.OperationServer.InsertOperation | internal/protocol/server.go:213-250 | second lookup, staging and insertion in place |
| OperationServer.OperationServer.CopyBody | internal/protocol/server.go:278-284 | copying at most one byte too many and comparing size and digest accepts exactly the promised content |
| OperationServer.OperationServer.RenameUpload | internal/protocol/server.go:285-288 | only a checked upload is moved into place |
| OperationServer.OperationServer.CommitUpload | internal/protocol/server.go:289-294 | records the path in the current record |
| OperationServer.OperationServer.RunOperation | internal/protocol/server.go:297-362 | starts a pending or failed operation in place, or answers without effect; an unreadable configuration fails it without a goroutine |
| OperationServer.OperationServer.FinishExecution | internal/protocol/server.go:374-389 | ends a goroutine, looking only for a cancellation |
| OperationServer.OperationServer.CancelOperation | internal/protocol/server.go:452-467 | cancels in any state |
| OperationServer.OperationServer.SelectRecoveryPoint | internal/protocol/server.go:487-527 | stages and records a selection exactly for a pending bootstrap restore with a valid configuration |
| OperationServer.OperationServer.DownloadConfiguration | internal/protocol/server.go:429-450 | reads the staged configuration as the step function of the download; when that is some is Downloads.ConfigurationServedExactly |
| OperationServer.OperationServer.DownloadState | internal/protocol/server.go:412-427 | answers a request for the restored archive as the function whose meaning is Downloads.ArchiveServedExactly |
| Settings.SavedStep | internal/settings/store.go:263-325 | the writes take effect in the order of `save`, the configuration Secret last |
| Settings.CompletedSaveAgrees | internal/settings/store.go:285-324 | a completed save makes its value visible, with every credential, and repository password, proxy, annotation and every field of the backup location agree with it, whatever was there |
| Settings.VeleroWorksElsewhere | internal/settings/store.go:295-304 | where Velero's location agrees with the settings, no manifest or archive of the store with these settings lies below its prefix |
| SettingsSafety.VisibleWasAccepted | internal/settings/store.go:318-325 | over any sequence of saves that stop anywhere, what is visible is nothing or one complete valid value whose Velero dependencies had all been accepted when it was published |
| SettingsSafety.KeyNeverChanges | internal/settings/store.go:192-208 | set-up calls never change a visible recovery key, and it is always the repository password |
| SettingsSafety.RestoreKeepsKeyExactly | internal/settings/store.go:237-246 | exactly when a restore call that may stop keeps key and password equal |
| SettingsSafety.RestoreIsHarmlessExactly | internal/settings/store.go:237-246 | a restore call keeps key and password equal wherever it stops if and only if it is refused or brings the visible key again |
| SettingsSafety.SetupRepairsKey | internal/settings/store.go:194-216 | the next set-up call that writes anything makes them equal again |
| SettingsSafety.StoppedSaveAgreesExactly | internal/settings/store.go:285-317 | exactly when the visible settings still agree with what Velero has after a save that stopped |
| SettingsSafety.SaveIsHarmlessExactly | internal/settings/store.go:285-317 | the visible settings agree with what Velero has wherever the save stops short if and only if it brings their key, proxy and location again |
| SettingsSafety.CompletedCallAgrees | internal/settings/store.go:237-246 | any completed call, a restore too, restores all agreements |
| SettingsCalls.SetupMakesVisible | internal/settings/store.go:188-235 | by field, what a completed set-up makes visible: what was asked, secrets left out as stored, the schedule trimmed, the key kept or new; and the schedule and count that backups then use |
| SettingsCalls.RestoreMakesVisible | internal/settings/store.go:237-246 | a completed restore makes exactly its configuration visible, paused, without schedule, with a count of 30 |
| SettingsCalls.LoadsExactly | internal/settings/store.go:74-95 | a load returns the settings of the Secret exactly if they can be used, stated by field, and nothing exactly if there is no Secret |
| SettingsCalls.SetupRefusedExactly | internal/settings/store.go:188-216 | a set-up is refused exactly if its count is out of range, the stored settings cannot be read, or what it asks for cannot be used |
| SettingsCalls.RestoreRefusedExactly | internal/recovery/config.go:70-102 | a restore is refused exactly if its configuration cannot be used, stated by field |
| SettingsSafety.SecretsAreNeverCleared | internal/settings/store.go:222-235 | set-up calls never clear stored credentials, custom CA or proxy |
| SettingsSafety.RetentionCountFromSecret | internal/settings/store.go:164-173 | the retention count is 0 exactly when the Secret is missing, then without schedule and not paused; otherwise between 1 and 1000 |
| SettingsStore.Store.Upsert | internal/settings/store.go:331-349 | writes the object or leaves the cluster alone; success means written |
| SettingsStore.Store.RolloutVelero | internal/settings/store.go:368-416 | success means that the annotation is the wanted one and the rollout was seen complete |
| SettingsStore.Store.Save | internal/settings/store.go:263-325 | every execution is a prefix of the five writes; success means all five |
| SettingsStore.Store.SaveSetup | internal/settings/store.go:188-220 | every execution is one set-up call; a key is generated exactly when there was no Secret |
| SettingsStore.Store.SaveRestore | internal/settings/store.go:237-246 | every execution is one restore call |

## Left out

- HTTP routing, JSON decoding and encoding, media types, headers, event streams, the browser user interface and authentication; a handler's answer is its status code, status and problem code.
- The application restore in the cluster and Velero's restore object, whose wait is the one of a backup; listing points for the user interface; the storage test before an execution.
- Velero's and the object store's own behaviour beyond maps with failing calls: no expiry of backups (the code sets no ttl), and no write that takes effect after its call has returned.
- Hashes, encryption and name-based UUIDs are ideal: no collisions, only the key opens a ciphertext. Cron parsing is a function `next` with `next(t) > t`, so unsatisfiable schedules are excluded.
- Executor.Executor.Backup: between its own calls only Velero and the clock move; other attempts interleave with it in the life cycle, whose runs contain every such execution's steps, and in `Executor.Executor.BootstrapRestore`. The progress reports are left out; they only reach the operation's record.
- A listing is one atomic step of the life cycle; the executor's own listing reads page by page from a bucket that does not change meanwhile.
- Polling loops end after a number of polls that stands for the context's deadline; poll intervals and timers are not modelled.
- Integers are unbounded: sizes, durations and times do not overflow; times of records (`updatedAt`) are left out.
- Go strings are sequences of characters, so lengths count characters, not bytes; the two agree on the ASCII texts that IDs and keys are.
- Checksum texts are values that say which content they are the digest of, with a spelling; letter case is only a spelling.
- `canonicalRequest` yields the structure that the source encodes as JSON; an empty and a missing list of cluster resources are the same in both.
- Handlers' variables between two critical sections are fields of the server class; the cancellation of an execution's context is not modelled, because an execution may end in any way at any time anyway.
- URL syntax in storage settings and the JSON syntax of configurations are predicates given from outside; `ConfigurationFromEnvironment` and the probe of `Configure` are left out.
- `rolloutVelero` is its annotation and a readiness flag, not the deployment's generation and replica counters.
- The answer to a download of a restored archive is its path and announced length; the bytes in that file are those of `Executor.Executor.BootstrapRestore`.
- File modes, directory creation and temporary names; a staged file is written and renamed in one step that succeeds or not.
- OperationServer.OperationServer.SelectRecoveryPoint: ends where the handler goes on with `runOperation`, which is the separate method and step, so that other sections may come between.
- Process start-up, the Kubernetes client, the Helm chart, the image and the build.
