# The save-cloud engine of vapor-forge, modelled and proved in Dafny

vapor-forge keeps the saves of a game in a folder that several devices share.  This project models
the engine behind it as sets, maps and steps, and proves what the program relies on, for every
input, every interleaving and every run.

The model follows the program's parts.

* **Manifests, StoreOperations, Replicas, Rollback, FolderStore.**  A save is an immutable manifest
  that names its parents; the manifests nobody present names are the heads.  Saves are published
  optimistically, conflicts are settled by a manifest over all heads, and a garbage collector looks
  at the folder without the lock, checks again under it, sweeps, and may roll back.  Devices hold
  parts of one global history and import each other's manifests in any order.  `FolderStore` is the
  same store as a class changed in place, with a sweep that moves one manifest at a time.
* **Sessions.**  Which device plays: one claim per client and override records that list the claims
  a forced launch superseded.
* **DeviceState, Playtime.**  One rolling record per device, and a reduction over all devices.  The
  theorems compare it with the reduction over every observation ever uploaded.
* **AccountStream, LineReader.**  Two stream readers, a forwarder and a cancellation flag, one shared
  access per step; and the bounded line reader.
* **GcCoordinator.**  The collector's worker, its deferred requests and its listener threads.
* **ConflictDialogs.**  Dialogs whose buttons are one-time tokens, the worker that applies a choice to
  the store, and acknowledgements.
* **RpcBatches, Transfers, RpcQueue.**  Upload batches on top of the store, the loops around a
  transfer, and the queue of intercepted requests.
* **VdfFilter.**  The filter over a serialised configuration, from bytes to blocks.
* **SortedSets, Wrappers.**  Shared helpers.

A hash is an abstract injective function.  Where a theorem needs that two manifests never share an
id, it requires `CollisionFree`.  A concurrent part is a state machine with one step for each access
to shared state; the classes show the same regions as code, and each method is proved to compute the
function that the state machine uses.

## Where the code and its comments differ

* crates/cloud-local/src/sync.rs:179-187 calls the merge commutative and idempotent by construction.
  Achievements are.  Stats are not when a snapshot leaves keys out: `PartialSnapshotsDiffer` gives two
  arrival orders with different results, and `StatsCompactionIff` and `StatsShownIff` say exactly
  when the result is right, inside and as a reader sees it.  Two uploads of one device that tie in
  every ordering field keep whichever arrived first; `FoldCommutesIff` says exactly when that
  matters.  The order in which the records of a folder are read never does
  (`FolderReductionUnique`).
* crates/features/src/cloud.rs:296-303 keeps a block that needs no change in the output although the
  caller emits it again.  `PlainBlockComesOutTwice` is a buffer on which the filter's only caller
  returns a block twice, `CorrectIff` and `FilterCorrectIff` are the exact conditions.
* crates/cloud-rpc/src/local.rs:270-279 removes the active entry before the abort that may fail.
  `BeginKeepsOneToOneIff` is the exact condition, `OrphanUnseatsActive` the consequence and
  `OrphanRun` a run into it.
* crates/cloud-local/src/store.rs:423 accepts any present manifest as the base of a resolution, not
  only a head.  `BeginAfterSweepIff` says exactly when a sweep changes the answer,
  `RollbackLeavesNoTraceIff` exactly when a rolled-back sweep leaves a trace, and
  `DeadBaseTellsThemApart` shows one.
* A superseded session that is suspended is written under a new id and plays again
  (`SuspendRevives`); `ExclusiveKeptIff` says exactly which events end exclusive play.

## Model

| member | source | states |
|---|---|---|
| Manifests.ReachesHead | crates/cloud-local/src/store.rs:1179-1206 | from every present manifest, following present children ends at a head of at least its revision: no save is hidden |
| Manifests.MaxRevisionAtHead | crates/cloud-local/src/store.rs:331-364 | the largest revision present is always carried by some head |
| Manifests.SingleHead | crates/cloud-local/src/store.rs:1179-1206 | with one head, it has the largest revision and everything else present is its ancestor and older |
| Manifests.ConcurrentSavesConflict | crates/cloud-local/src/store.rs:1179-1206 | two saves over the same parents are both heads wherever both are held and no child of either |
| Manifests.HeadsOfExtension | crates/cloud-local/src/store.rs:1179-1206 | how one more manifest, in any order of arrival, changes the head set |
| Manifests.RemovalKeepsHeadsIff | crates/cloud-local/src/store.rs:631-672 | removing non-heads keeps the head set if and only if each manifest that stays keeps a child when it had one |
| Manifests.SweepKeepsHeads | crates/cloud-local/src/store.rs:631-672 | a complete sweep keeps the head set of every folder |
| Manifests.SweepKeepsMaxRevision | crates/cloud-local/src/store.rs:631-672 | a complete sweep keeps the largest revision |
| Manifests.PartialSweepCreatesHead | crates/cloud-local/src/store.rs:706-736 | an interrupted sweep can raise a dead manifest to a head |
| Manifests.ImportAfterSweepIff | crates/cloud-local/src/store.rs:706-736 | importing after a sweep gives the heads of importing before it, exactly unless the sweep took the last child of the import |
| StoreOperations.NormalizedHeadIds | crates/cloud-local/src/store.rs:1584-1597 | accepts a list exactly when it has no duplicate, and then gives its set |
| StoreOperations.WithStagedAt | crates/cloud-local/src/store.rs:517-575 | each path of the merged files: the last staged file for it, else the base file |
| StoreOperations.CommitPublishes | crates/cloud-local/src/store.rs:763-804 | a publishing commit leaves one head, over exactly the expected heads, with the merged files and a revision above every present one |
| StoreOperations.CommitSucceedsIff | crates/cloud-local/src/store.rs:517-575 | exactly when a commit succeeds, and when success publishes nothing |
| StoreOperations.AlikeViews | crates/cloud-local/src/store.rs:331-385 | folders with the same heads, head manifests and largest revision give the same view, current files and change lists |
| StoreOperations.AlikeCommits | crates/cloud-local/src/store.rs:517-575 | every operation, however old, is decided the same on both |
| StoreOperations.SweepIsAlike | crates/cloud-local/src/store.rs:631-736 | a sweep cannot be told from no sweep in that sense |
| StoreOperations.BeginAfterSweepIff | crates/cloud-local/src/store.rs:396-485 | beginning answers the same after a sweep, exactly unless a resolution names a swept base |
| Replicas.PollAgrees | crates/cloud-local/src/store.rs:1430-1469 | an answered poll leaves the client with the current files and number, also when the answer is an empty delta |
| Replicas.ClientAgrees | crates/cloud-local/src/store.rs:1386-1392 | the same in every run of any number of devices |
| Replicas.ChangeNumbersSound | crates/cloud-local/src/store.rs:1430-1469 | in every run a device's change number never decreases, and the same number means the same manifest |
| Replicas.CallPublishes | crates/cloud-local/src/store.rs:396-575 | a local call changes nothing or adds one manifest over all heads |
| Replicas.RunGood | crates/cloud-local/src/store.rs:569-574 | every run keeps the history well founded (children above parents) and every device, collector and client consistent with it |
| Replicas.SweepRemovesCandidates | crates/cloud-local/src/store.rs:674-736 | whatever happened since the unlocked inspection, an applied sweep removes exactly what is neither a head nor a parent of a head at that moment |
| Replicas.StaleReportRefused | crates/cloud-local/src/gc.rs:191-271 | a report older than a publish is refused after it, whatever else happened |
| Replicas.SweepInvisible | crates/cloud-local/src/store.rs:631-736 | an applied sweep changes no view, no change list, no current file and no operation's fate |
| Replicas.HeadsNeverReturn | crates/cloud-local/src/store.rs:517-575 | after a publish over some heads, the device's heads are never those again, in any run |
| Replicas.AtMostOnePublishes | crates/cloud-local/src/store.rs:396-575 | of all operations begun at the same heads at most one publishes |
| Replicas.PublishesOnce | crates/cloud-local/src/store.rs:517-575 | an operation whose commit published is closed: in every later state of every run it publishes no more |
| Replicas.AbortIsFinal | crates/cloud-local/src/store.rs:102-116 | after an abort, whatever happens on any device, staging into the operation is refused and committing it changes no folder |
| Replicas.NothingHidden | crates/cloud-local/src/store.rs:331-364 | whatever a device ever held is, in every later state, an ancestor of one of its heads through published manifests |
| Replicas.ConcurrentSavesVisible | crates/cloud-local/src/store.rs:331-364 | in every run a folder with two concurrent saves and no child of either shows a conflict |
| Rollback.RollbackLeavesNoTraceIff | crates/cloud-local/src/store.rs:706-761 | sweep, any local activity, roll back: folder, operations and client end as without the sweep if and only if no resolution began on a swept base |
| Rollback.RollbackLeavesNoTrace | crates/cloud-local/src/store.rs:706-761 | so no trace is left when every resolution picks a head it lists, as all callers do |
| Rollback.DeadBaseTellsThemApart | crates/cloud-local/src/store.rs:411-448 | without the callers' rule that a resolution picks a listed head, the two differ |
| FolderStore.Store.Begin | crates/cloud-local/src/store.rs:396-485 | begins exactly as specified, with a handle of its own |
| FolderStore.Store.Commit | crates/cloud-local/src/store.rs:517-575 | result, directory and operation are the specified ones, on success and on every refusal |
| FolderStore.Merge | crates/cloud-local/src/store.rs:517-575 | the loops over deletes and staged files compute the merged files |
| FolderStore.FindMaxRevision | crates/cloud-local/src/store.rs:763-804 | one pass finds the largest revision |
| FolderStore.FindRetained | crates/cloud-local/src/store.rs:631-672 | the loop over heads collects heads and their present parents |
| FolderStore.Store.Inspect | crates/cloud-local/src/store.rs:631-672 | the inspection splits the folder into what stays and what goes, and dropping the latter changes no head |
| FolderStore.Store.ResolveToManifest | crates/cloud-local/src/store.rs:582-600 | success means a manifest over exactly the expected heads with the selected files |
| FolderStore.Store.ResolveIdenticalHeads | crates/cloud-local/src/store.rs:602-629 | does nothing exactly when there is no conflict or the heads differ, else resolves it |
| FolderStore.Store.Move | crates/cloud-local/src/store.rs:706-736 | moves every candidate, or none when one move fails |
| FolderStore.Store.Restore | crates/cloud-local/src/store.rs:750-761 | puts moved manifests back and keeps those present again |
| FolderStore.Store.Sweep | crates/cloud-local/src/store.rs:674-736 | applies only to exactly the reported directory, and what it moved gives the old directory back |
| FolderStore.ResolutionPublishes | crates/cloud-local/src/store.rs:582-600 | a resolution is never a silent no-op |
| Sessions.ReconcileKeepsSuperseded | crates/cloud-local/src/store.rs:1030-1054 | reconciling never changes which live claims are superseded |
| Sessions.LaunchEffect | crates/cloud-local/src/store.rs:806-875 | exactly when a launch waits, and that a started launch is the only client not superseded |
| Sessions.UpdateEffect | crates/cloud-local/src/store.rs:909-936 | suspending and resuming fail exactly without a claim, touch nobody else, and free the client exactly when the claim is rewritten |
| Sessions.ExitEffect | crates/cloud-local/src/store.rs:893-907 | leaving removes one claim and changes nobody else's standing |
| Sessions.RunWellKept | crates/cloud-local/src/store.rs:988-1054 | in every run override records stay non-empty, sorted and about live claims |
| Sessions.ExclusiveKeptIff | crates/cloud-local/src/store.rs:806-936 | exclusive play survives an event exactly unless another forces a launch, another rewrites its claim, or the holder leaves |
| Sessions.ExclusiveWhileUndisturbed | crates/cloud-local/src/store.rs:806-936 | and so over any run of events that do not displace the holder |
| Sessions.SuspendRevives | crates/cloud-local/src/store.rs:877-883 | a run after which two clients play and neither is superseded |
| Sessions.SessionDirectory.ReconcileOverrides | crates/cloud-local/src/store.rs:1030-1054 | the loop leaves the reconciled records and reports the superseded claims |
| Sessions.SessionDirectory.Launch | crates/cloud-local/src/store.rs:806-875 | the method on session files computes the specified launch |
| Sessions.SessionDirectory.Update | crates/cloud-local/src/store.rs:909-936 | the same for suspending and resuming |
| Sessions.SessionDirectory.Exit | crates/cloud-local/src/store.rs:893-907 | the same for leaving |
| DeviceState.FolderReductionUnique | crates/cloud-local/src/sync.rs:188-234 | after any uploads, whatever the order of reading, the folder has one reduction |
| DeviceState.FoldCommutesIff | crates/cloud-local/src/sync.rs:537-586 | folding two uploads of a device in either order gives the same record if and only if they do not tie or agree on every stat both list |
| DeviceState.UnlocksNeverRegress | crates/cloud-local/src/sync.rs:497-566 | what a reader of the folder sees after more uploads still has every unlock, none of them later, and was last seen no earlier |
| DeviceState.StatsCompactionIff | crates/cloud-local/src/sync.rs:537-586 | one rolling record per device reduces to what all observations reduce to, in any upload order, if and only if every key is covered |
| DeviceState.StatsShownIff | crates/cloud-local/src/sync.rs:188-234 | a reader of the rolling records sees the value and time that all observations give if and only if, for each key, its newest observation is as late as the newest of the winning device and that device's record carries the same value |
| DeviceState.CompleteSnapshotsCover | crates/cloud-local/src/sync.rs:568-585 | complete snapshots cover every key |
| DeviceState.PartialSnapshotsDiffer | crates/cloud-local/src/sync.rs:568-585 | two arrival orders of partial snapshots with different rolling records |
| DeviceState.UnlocksCompaction | crates/cloud-local/src/sync.rs:537-566 | compaction never changes which achievements are unlocked, or when |
| DeviceState.AchievementsCompaction | crates/cloud-local/src/sync.rs:537-566 | with complete snapshots it changes nothing about achievements |
| DeviceState.MergeAchievements | crates/cloud-local/src/sync.rs:497-523 | the loop over one record keeps the merged state of all records read |
| DeviceState.InsertLatest | crates/cloud-local/src/sync.rs:525-535 | inserting a record's values keeps the latest value of each key |
| DeviceState.ReduceAppState | crates/cloud-local/src/sync.rs:188-234 | the whole reduction gives the latest stats and merged achievements of the records |
| DeviceState.FoldDeviceRecords | crates/cloud-local/src/sync.rs:537-586 | folding an upload into the rolling record computes the specified fold |
| Playtime.PlaytimeCompactionIff | crates/cloud-local/src/sync.rs:588-608 | folded records reduce to what all observations reduce to, in any order, if and only if the device shown last carries the recent minutes of the last observation |
| Playtime.PlaytimeCompaction | crates/cloud-local/src/sync.rs:588-608 | and so whenever the last observation is alone at its device and time |
| Playtime.PlaytimeNeverRegresses | crates/cloud-local/src/sync.rs:308-357 | minutes, last-played and observation time never go back, whatever is uploaded |
| Playtime.TiesCanDiffer | crates/cloud-local/src/sync.rs:588-608 | with a tie in time the two reductions can differ, under an injective digest |
| Playtime.ReducePlaytime | crates/cloud-local/src/sync.rs:236-268 | the sorted loop gives the maxima and the values observed last |
| AccountStream.BaselineBarrier | crates/cloud-cumulus/src/device_stream.rs:491-644 | in every interleaving each round delivers nothing, or one baseline after both connects and then events in the order sent; the barrier is never crossed |
| AccountStream.NoLostWakeUp | crates/cloud-core/src/backend.rs:49-102 | a sleeper with something to do is about to be woken by the party that made the change |
| AccountStream.NeverAllAsleep | crates/cloud-cumulus/src/device_stream.rs:564-644 | while the forwarder sleeps some reader is awake and has not gone |
| AccountStream.JoinCannotHang | crates/cloud-cumulus/src/device_stream.rs:479-562 | when the forwarder joins its readers both were told to stop and neither sleeps, and whatever the others do a reader exits within eight moves of its own |
| LineReader.BufferedReader.ReadLineBounded | crates/cloud-cumulus/src/device_stream.rs:789-820 | the line read depends on the bytes alone, not on how they are chunked, and the rest stays unread |
| LineReader.FirstLineAcross | crates/cloud-cumulus/src/device_stream.rs:789-820 | where the first line of two joined chunks ends |
| GcCoordinator.IssuedIncrease | crates/cloud-local/src/gc.rs:113-150 | issued epoch and revision pairs strictly increase per key, although invalidation restarts the revisions |
| GcCoordinator.OnlyTheNewestIsCurrent | crates/cloud-local/src/gc.rs:519-543 | at most one request per key is current and it is the newest |
| GcCoordinator.CurrentNeverForgotten | crates/cloud-local/src/gc.rs:159-184 | a current request is always on its way, with the worker, deferred, or dealt with |
| GcCoordinator.DeferredIsAttended | crates/cloud-local/src/gc.rs:333-399 | a deferred request is current, and has a registered listener with a thread exactly unless the last one stopped or failed to start |
| GcCoordinator.WakeRefusedIffInFlight | crates/cloud-local/src/gc.rs:470-484 | a wake is refused exactly when one event of that registration is in flight, and there is never more than one |
| GcCoordinator.DeliveryReleasesAll | crates/cloud-local/src/gc.rs:301-331 | delivering it hands every request deferred on the listener to the worker |
| GcCoordinator.LostListenerStrands | crates/cloud-local/src/gc.rs:382-398 | a run in which a listener fails to start and its deferred request waits for nobody |
| GcCoordinator.CoordinatorState.QueueInspection | crates/cloud-local/src/gc.rs:113-142 | the locked region advances the revision, cancels the deferral and stamps the request |
| GcCoordinator.CoordinatorState.TakeDeferred | crates/cloud-local/src/gc.rs:301-331 | the loop releases exactly the current requests deferred on the listener |
| GcCoordinator.CoordinatorState.DeferRequest | crates/cloud-local/src/gc.rs:333-367 | defers a current request and registers a listener when there is none |
| GcCoordinator.CoordinatorState.FinishRequest | crates/cloud-local/src/gc.rs:486-499 | drops the deferral, and the listener exactly when nothing waits on it |
| GcCoordinator.CoordinatorState.MarkWakeQueued | crates/cloud-local/src/gc.rs:470-484 | marks a wake once |
| GcCoordinator.MergeRequests | crates/cloud-local/src/gc.rs:501-517 | merging one by one keeps the newest request for each key |
| ConflictDialogs.TokensAreCurrent | crates/cloud-rpc/src/conflict_ui.rs:230-355 | in every run a token belongs to a pending conflict that is not being resolved and names one of its present heads, or cancel |
| ConflictDialogs.ResumeMeansPublished | crates/cloud-rpc/src/conflict_ui.rs:530-629 | a resume acknowledgement means a manifest was published over exactly the displayed heads with the chosen candidate's files, in the same epoch |
| ConflictDialogs.CancelNeverPublishes | crates/cloud-rpc/src/conflict_ui.rs:298-330 | a cancel acknowledgement comes from a cancel token, and that token never publishes |
| ConflictDialogs.PublishesOnce | crates/cloud-rpc/src/conflict_ui.rs:298-355 | no token publishes twice in any run |
| ConflictDialogs.ChoiceHonours | crates/cloud-rpc/src/conflict_ui.rs:599-629 | applying a choice that succeeds does what its dialog showed |
| ConflictDialogs.LocalConflictCoordinator.Registered | crates/cloud-rpc/src/conflict_ui.rs:141-187 | the method records, keeps, replaces or drops a conflict as specified |
| ConflictDialogs.LocalConflictCoordinator.Dialogs | crates/cloud-rpc/src/conflict_ui.rs:230-296 | one dialog for each armed conflict not yet presented, each button bound to its candidate |
| ConflictDialogs.LocalConflictCoordinator.SubmitChoice | crates/cloud-rpc/src/conflict_ui.rs:298-355 | a submitted token has the specified effect in every case |
| ConflictDialogs.LocalConflictCoordinator.Finish | crates/cloud-rpc/src/conflict_ui.rs:530-585 | a finished choice has the specified effect in every case |
| ConflictDialogs.LocalConflictCoordinator.AckDeliveries | crates/cloud-rpc/src/conflict_ui.rs:403-418 | the loop hands out exactly the unsent acknowledgements of the window |
| ConflictDialogs.DeliveredOnce | crates/cloud-rpc/src/conflict_ui.rs:403-418 | and nothing is handed out twice |
| RpcBatches.PublishedFromVerified | crates/cloud-rpc/src/local.rs:402-470 | in every run a published batch has as parents exactly the heads verified when it began, and as files the base without the listed deletes and with exactly the listed uploads |
| RpcBatches.UploadsCame | crates/cloud-rpc/src/local.rs:305-400 | in every run each uploaded file of a published manifest is one whose bytes came for a begun upload of that very batch |
| RpcBatches.BeginKeepsOneToOneIff | crates/cloud-rpc/src/local.rs:224-303 | opening a batch keeps active batches and batch table one to one if and only if it does not fail to abort the previous one |
| RpcBatches.BatchesOneToOne | crates/cloud-rpc/src/local.rs:224-470 | while aborts succeed they stay one to one in every run |
| RpcBatches.OneBatchPerApp | crates/cloud-rpc/src/adapter.rs:942-960 | so an app never has two batches |
| RpcBatches.OrphanUnseatsActive | crates/cloud-rpc/src/local.rs:459-465 | closing a batch that lost its active entry drops the active one of the app |
| RpcBatches.OrphanRun | crates/cloud-rpc/src/local.rs:270-279 | a run from the empty table into that state and through it |
| RpcBatches.NamedSidesAreRight | crates/cloud-rpc/src/local.rs:743-768 | when a conflict names sides, the local one is the client's, the remote one is not, and there is no third head |
| RpcBatches.TwoSidesAreNamed | crates/cloud-rpc/src/local.rs:743-768 | two heads of which the client wrote one always have their sides named |
| RpcBatches.RemoteSideResolves | crates/cloud-rpc/src/local.rs:75-124 | taking the remote side publishes its files over all heads |
| RpcBatches.KeptSideResolves | crates/cloud-rpc/src/local.rs:224-303 | a batch after keeping the local side starts from it and settles the conflict even without a change |
| RpcBatches.CollectStaged | crates/cloud-rpc/src/local.rs:402-437 | succeeds exactly when every listed upload was committed, and lists files that merge to the batch's files |
| RpcBatches.AnyOrder | crates/cloud-rpc/src/local.rs:427-429 | the order in which a hash map lists the staged files does not matter |
| RpcBatches.AdapterState.Begin | crates/cloud-rpc/src/local.rs:224-303 | the method computes the specified opening, also when the abort fails |
| Transfers.AcceptsBlocks | crates/cloud-rpc/src/adapter.rs:417-465 | blocks are accepted if and only if they partition the file in order |
| Transfers.SplitUnique | crates/cloud-rpc/src/adapter.rs:935-940 | the split is the only one with a leaf without separators |
| Transfers.FileInfos | crates/cloud-rpc/src/adapter.rs:904-933 | every path can be put together again from the table, no prefix is listed twice and none in vain |
| RpcQueue.PendingTable.DrainCompleted | crates/cloud-rpc/src/queue.rs:349-376 | each ready response is handed back exactly once, with the fallback for a lost worker, and exactly the others are kept |
| RpcQueue.SwapRemove | crates/cloud-rpc/src/queue.rs:349-376 | swap-removal takes away one entry and keeps all the others |
| RpcQueue.PermitsConserved | crates/cloud-rpc/src/queue.rs:76-97 | in every run the counter is the number of live permits, at most 64, and requests with a response take at most half of the channel |
| RpcQueue.RefusedIffFull | crates/cloud-rpc/src/queue.rs:76-87 | a permit is refused exactly when 64 responses are outstanding |
| RpcQueue.NoResponseStuck | crates/cloud-rpc/src/queue.rs:267-376 | a response is still waited for exactly while one party holds its request |
| VdfFilter.StripControlledCloud | crates/features/src/cloud.rs:231-259 | the loop over bytes emits exactly what `Emitted` says, or nothing when nothing changed |
| VdfFilter.TryStripBlock | crates/features/src/cloud.rs:261-318 | what a block appends and where it ends, with every rollback |
| VdfFilter.ReadBody | crates/features/src/cloud.rs:280-313 | the loop finds the matching brace and keeps all but the `cloudenabled` lines |
| VdfFilter.RemovesExactly | crates/features/src/cloud.rs:231-318 | for every buffer the affected blocks exist, are unique, and the intended result is the input without their `cloudenabled` lines and without the blocks that hold nothing else |
| VdfFilter.MeetsPlainIff | crates/features/src/cloud.rs:231-318 | the scan meets a written app's block that needs no change exactly when one lies outside all affected blocks |
| VdfFilter.CorrectIff | crates/features/src/cloud.rs:296-303 | the code gives the intended result if and only if no block is affected or no such plain block exists |
| VdfFilter.FilterCorrectIff | crates/features/src/cloud.rs:217-229 | the same for the filter with its tests on size, header and key in front: wrong exactly on an admitted buffer with an affected and a plain block |
| VdfFilter.StripCloudFromVdf | crates/features/src/cloud.rs:217-229 | the method with those tests computes what `FilterCorrectIff` is about |
| VdfFilter.ContainsBytes | crates/features/src/cloud.rs:396-398 | decides whether the needle occurs at some offset |
| VdfFilter.CodeRemovesExactly | crates/features/src/cloud.rs:231-318 | without a plain block the code removes exactly those lines, byte for byte |
| VdfFilter.FilterKeepsBalance | crates/features/src/cloud.rs:231-318 | when the code is right on a buffer with balanced braces, the lines of the bytes it returns are balanced |
| VdfFilter.PlainBlockComesOutTwice | crates/features/src/cloud.rs:217-303 | a buffer that passes all tests and comes back with one block twice |
| VdfFilter.NextLine | crates/features/src/cloud.rs:320-328 | finds the next line and where it ends |
| VdfFilter.IsBrace | crates/features/src/cloud.rs:330-348 | decides whether a line is one brace among blanks |
| VdfFilter.IsCloudKey | crates/features/src/cloud.rs:350-369 | decides whether a line starts with the quoted key |
| VdfFilter.ParseAppId | crates/features/src/cloud.rs:371-394 | reads a line that is only a quoted 32-bit number |

## Left out

- ConflictDialogs: applying a choice to the store is one step, where the program views, begins and commits under separate locks; a save that another party publishes in between makes the program's commit fail as a conflict.
- AdapterState.Begin: what a failed abort leaves in its work directory is not modelled; the operation is closed and its blobs count as gone.
- A change of scope aborts the operations of the batches it drops; the model only drops the batches.
- NoLostWakeUp: an atomic access is one step; a panicking thread and the memory order of the atomics are not modelled.
- The file system: fsync, permissions, hard links, work directories and a restore whose rename fails.
- SHA-1, SHA-256, JSON, protobuf, ZIP and UTF-8 decoding: hashes are injective functions, records are already decoded.
- Limits on bytes and counts of records other than those of a manifest, a line, the channels and the permits.
- Validation of identities, cloud paths and record shapes, beyond what the merges rely on.
- Wall-clock time, nonces and wrap-around at 2^64: fresh ids and unbounded counters instead.
- Deletions that arrive from another device's sweep: a lagging replica can lose its own head first.
- Session files that arrive from other devices while one is being written.
- HTTP, server-sent events beyond the line reader, reconnection delays, and the Syncthing calls: a nondeterministic outcome where the code branches on it.
- Shutdown of the coordinators and of their threads, and settings that are rejected before a request is queued.
- The transfer registry, downloads, quota, deletes that only check a list, and the Cumulus backend's batches: they would only add easy members.
- Hooks, injection, ownership and licence policy, configuration and diagnostics.
