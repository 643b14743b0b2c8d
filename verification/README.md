# dbtv: the snapshot cache and its publication protocol

dbtv captures production sources as immutable local snapshots and runs dbt against them. A snapshot
is written to a pending directory, renamed into place, and then recorded in an index. Snapshots
become visible only as whole datasets, in one transaction. A later run may replay a dataset offline.
This project models that protocol and the algorithms around it, and proves what it guarantees over
every input, every run, and every interleaving. Where a guarantee has a limit, the limit is exact, and a
run from the empty workspace reaches the other side of it.

## What is modelled

| module | part of the system |
|---|---|
| Outcomes, Identity, Snapshots | requests, fingerprints and keys; the metadata document; what a directory reads back |
| Index, State | the snapshot and dataset tables, and the index whose methods are its transactions |
| Retention, Store | the store: deciding, capturing, pinning, collecting, with a possible death between any two effects |
| Sorting, Recovery, RecoveryOrder | rebuilding the index from the sidecars, and what is current afterwards |
| Layering, Planning | cohort layers, cohort requests, and the two-pass plan |
| Decisions, Cohorts | what a decision, a plan and a cohort request mean, in terms of tables, disk, requests and the text that is printed |
| Budget, Orchestration | a run from its plan to its published dataset |
| Workspace, WorkspaceSound, WorkspaceSteps, WorkspaceRuns | all of it interleaved over one index and one disk: runs, cleaning, drops, rebuilds, collections, marks, crashes |
| WorkspaceLinks | the store's, the publication's and the rebuild's procedures are runs of that machine |
| WorkspaceLimits, WorkspaceWitnesses | when a frozen input can be lost, exactly; and runs from the empty workspace that reach each limit |
| SessionPool, Cancellation | the concurrent parts of a refresh: pooled connector sessions and the cancellation token |
| Manifest, Disk, Predicates | graph searches over the manifest, disk accounting, and the printing and recognising of predicates |

A digest is modelled by the value it digests, wrapped in a constructor, so that two digests are equal
exactly when the digested values are. Timestamps are integers. Clocks, connectors, the query for
parent keys and names of pending directories are parameters, universally quantified. SQLite
transactions, directory renames and file replacements are atomic; the process may die between any two
of them.

Objects that the source updates in place are classes here, and its loops are loops. Their methods are
proved against functions on values, and the properties are proved about those functions. What
concurrent threads and processes do is a state machine over their steps, proved over all runs. Its
invariant is kept by every step, wherever a garbage collection comes (StepKeepsInvariant). What a
collection takes out of a writer's window is observed in the state (`taken`), as are damaged directories
and rows that a rebuild has yet to record; the theorems say exactly what these cost.

## Where the code does not do what one might expect

Each of these is stated with the exact condition under which the expectation holds.

* A garbage collection does not take the workspace lock. If it removes a directory that a writer has
  just validated or re-verified and is about to record, the run can publish a dataset with a lost input.
  That happens whatever history is retained (IntrusionIsReachable). It needs a run that can still
  publish: no capture has failed, each finds what it still has to look at, and the snapshots it has got
  can be activated. After such a collection no run can lose an input exactly when the collection kept
  out of that window or the run cannot publish any more (CollectionIsSafeExactly, LosesExactly, RunLoses).
* A death, or an error, between replacing a receipt or a pin and updating the row, or between removing a
  directory in a cleaning and deleting its row, can leave the row out of step until the key is recorded
  again. A row is left so exactly when somebody is between its two updates and it disagrees with what is
  carried, or its directory is gone (InterruptionExactly; TornReceiptIsReachable, TornPinIsReachable,
  TornCleanIsReachable). Without interruptions quiescent rows always match, unless their directory was
  damaged or a collection took it out of a window (QuiescentIndexRefinesDisk).
* A rebuild clears the rows first. Interrupted before it has recorded a directory again, it leaves the
  directory and the datasets intact but that row missing (InterruptedRebuildLosesRow). A frozen input has
  its row exactly when no rebuild has yet to record it (FrozenInputsAreKept). Nothing but a rebuild
  leaves rows to be recorded (OnlyRebuildsUnindex), and one that gets as far as activating has recorded
  every undamaged directory (RebuildRecordsAll, UninterruptedRebuild).
* When closing an idle connector raises, the remaining idle connectors stay open: all are closed if
  and only if it was the last one (RaisingCloseLeavesTheRest, RaisingCloseIsReachable).
* Unregistering compares callbacks, not registrations. A handle may remove another registration with
  an equal callback (HandleRemovesAnother), and calling one handle twice can lose one
  (HandleCalledTwiceLosesAnother). Once every cancel call has returned, a registration has not run
  exactly when a handle call took it (NotRunExactly), and with distinct callbacks only its own handle
  can (DistinctCallbacksAreNotLost).
* The metadata round trip turns an empty projection into none and drops a verification time, which
  lives in the receipt instead (PrintThenParse). Planning never produces an empty projection.
* A directory that is already missing stops a garbage collection with the error of the removal
  (GarbageCollect).

## Model

| member | source | states |
|---|---|---|
| Snapshots.PrintThenParse | src/dbtv/snapshot/store.py:470-550 | A snapshot's metadata document reads back as the same snapshot if and only if its projection is not an empty tuple and it carries no verification time of its own. |
| Snapshots.ReadsExactlyWhenIntact | src/dbtv/snapshot/store.py:304-337 | A directory holding a capture's metadata loads and validates if and only if its receipt, if there is one, names the same snapshot, the success marker and every data file are there, each file of the recorded size when sizes are checked, and each with the very contents captured when checksums are. |
| Snapshots.CompleteReads | src/dbtv/snapshot/store.py:304-337 | A directory as a finished capture leaves it loads, validates, and describes the key it was captured under. |
| Snapshots.AuthenticReads | src/dbtv/snapshot/store.py:304-322 | Whatever reads back from a directory with the metadata and the receipt of its own key describes that key. |
| Identity.FingerprintsDistinguish | src/dbtv/snapshot/keys.py:9-12 | Two fingerprints are equal if and only if the providers and the requests' source, relation, sampling, fidelity, projection and scope are. |
| Store.KeysDistinguish | src/dbtv/snapshot/keys.py:15-29 | Two snapshot keys are equal if and only if provider, request up to its query tag, source version and contents are. |
| Index.ActivatedStep | src/dbtv/state.py:165-181 | One pass of the activation loop extends the closed form of activating a set of members by one member, whatever the order of the members. |
| Index.ActivatedMembers | src/dbtv/state.py:165-181 | After activating the members of a dataset all of them are active at once, at most one row per source and request is active, nothing else became active, and every row whose source and fingerprint no member's row shares is exactly as it was. |
| Index.CommitIsWhole | src/dbtv/state.py:183-197 | A successful dataset commit keeps every table invariant, leaves all members active and the dataset the only active one, changes no payload recorded before, and no row whose source and fingerprint no member's row shares. |
| Index.CommitReferences | src/dbtv/state.py:194-197 | After a commit the reference table covers every member of every recorded dataset, and nothing but recorded datasets. |
| Index.DropReleasesOnly | src/dbtv/state.py:222-225 | Dropping a dataset removes exactly it and its references; every other dataset and reference and all rows stay, and the tables stay valid. |
| Index.RowTransactionsValid | src/dbtv/state.py:129-154 | Recording, marking corrupt, pinning and deleting a row keep at most one active, committed row per source and request. |
| Index.RowTransactionsExactly | src/dbtv/state.py:129-154 | Recording renews expiry, counts, location, pin and state, and keeps of a row that is there its source, fingerprint, creation time and activity, while a new row is inactive; marking corrupt changes state and activity, pinning the pin, of that one row. |
| State.ActivateMany | src/dbtv/state.py:165-181 | The activation loop succeeds exactly when every member is a committed row of its source, and then yields the closed form; otherwise it raises. |
| State.ListSnapshots | src/dbtv/state.py:264-267 | The listing holds every row exactly once, newest first. |
| State.StateIndex.RecordSnapshot | src/dbtv/state.py:129-154 | One upsert, which keeps the index valid. |
| State.StateIndex.MarkCorrupt | src/dbtv/state.py:227-232 | The row, if there is one, is corrupt and inactive; the index stays valid. |
| State.StateIndex.Activate | src/dbtv/state.py:156-181 | Activation of one row is all or nothing and keeps the index valid. |
| State.StateIndex.CommitDataset | src/dbtv/state.py:183-197 | Either the whole dataset is committed, or the tables are exactly what they were. |
| State.StateIndex.DeleteDataset | src/dbtv/state.py:222-225 | One transaction that removes the dataset with its references and keeps the index valid. |
| State.StateIndex.ActiveSnapshot | src/dbtv/state.py:249-262 | The row found is the active committed row of the request, if there is one; validity makes it unique, so the ordering of the query decides nothing. |
| Retention.RemovedExactly | src/dbtv/snapshot/store.py:378-402 | A listed row is removed if and only if its rank among its source's rows is at least the retained history, it is not active, pinned or referenced, it is older than the cutoff if there is one, and it lies inside the snapshots root. |
| Retention.RemovalMeans | src/dbtv/snapshot/store.py:378-402 | Of a whole listing, exactly those rows are removed that have at least the retained number of newer rows of their source, are neither active, pinned nor referenced, are older than the cutoff if there is one, and lie inside the snapshots root. |
| Retention.TallyTracksRank | src/dbtv/snapshot/store.py:387-393 | The collector's per-source count of kept rows decides exactly whether a row's rank is within the retained history, although protected rows are counted too. |
| Retention.Examine | src/dbtv/snapshot/store.py:388-397 | One pass of the collector's loop removes a row exactly when the closed form does. |
| Store.SnapshotStore.GarbageCollect | src/dbtv/snapshot/store.py:364-402 | The directories and rows that leave are exactly the removable ones up to a missing directory, which stops the collection; the counts reported are their number, and the drop in the indexed size. |
| Store.SnapshotStore.CurrentSize | src/dbtv/snapshot/store.py:361-362 | The sum of the indexed sizes, whatever the order of the rows. |
| Store.DecidesExactly | src/dbtv/snapshot/store.py:79-114 | A request is reused if and only if refresh mode is off and an intact candidate with this very request exists that is unexpired or used locally; local modes never extract, and an explicitly chosen snapshot is never replaced by an extraction unless it is intact and matches. |
| Decisions.DecisionsMean | src/dbtv/snapshot/store.py:79-114 | When a source is reused, extracted or missing, exactly, in terms of the chosen row, what reads back from its directory, the fields of its request, its observation and expiry times, the mode and the clock. |
| Decisions.ExpiresExactly | src/dbtv/snapshot/store.py:454-460 | A snapshot has expired if and only if its own expiry, or the time to live since it was last observed, has been reached. |
| Store.DecisionsAreStable | src/dbtv/snapshot/store.py:94-100 | Marking unusable rows corrupt, as earlier decisions do, changes no later decision. |
| Store.SnapshotStore.Decide | src/dbtv/snapshot/store.py:79-114 | The decision is the one specified, and the one row marked corrupt is that of the candidate, when it is committed and does not read back; nothing else changes. |
| Store.SnapshotStore.Write | src/dbtv/snapshot/store.py:116-296 | Wherever a capture stops, no row becomes active, no capture is lost or replaced, every new directory is complete, and disk and index are in one of the states that renaming, pinning, receiving and recording pass through; a capture that returns is in the last of them, is intact, and its row agrees with what reads back; one that raises one of its own errors leaves disk and index as they were. |
| Store.SnapshotStore.Stage | src/dbtv/snapshot/store.py:155-200 | What is staged are exactly the batches, of one schema, within the size of the cache and from a stream that ended without error; a refusal is a cancellation, a changed schema or no batch, the exceeded size, or the stream's own error. |
| Store.SnapshotStore.Install | src/dbtv/snapshot/store.py:278-284 | Renaming into place, validating and then recording: stopped in between, it leaves the complete directory and the old rows. |
| Store.SnapshotStore.Reverify | src/dbtv/snapshot/store.py:250-277 | An identical re-read renews the freshness and may set the pin, but keeps identity, contents and every other directory and row; stopped anywhere, it is in one of the states it passes through. |
| Store.SnapshotStore.Receive | src/dbtv/snapshot/store.py:258-277 | The receipt is replaced before the row; afterwards the directory reads back with the new observation and expiry, in agreement with its row. |
| Store.SnapshotStore.Pin | src/dbtv/snapshot/store.py:343-359 | Only the pin of the metadata changes, then the pin of the row; stopped in between, it leaves the row behind. |
| Store.FreshCapture | src/dbtv/snapshot/store.py:201-246 | The finished pending directory is complete and reads back as its snapshot: the request's contents, version and schema, started, completed and expiring when it should, and pinned as asked. |
| Store.ObserveReads | src/dbtv/snapshot/store.py:308-319 | Replacing the receipt keeps the capture and changes what is read back in its observation and expiry only. |
| Store.PinReads | src/dbtv/snapshot/store.py:343-359 | Pinning changes what is read back in its pin only, and keeps a valid directory valid. |
| Recovery.RebuildIsFixedPoint | src/dbtv/snapshot/store.py:404-449 | For a fixed disk, rebuilding twice gives the same rows, activation flags, datasets and references as rebuilding once. |
| Recovery.RebuildKeepsActive | src/dbtv/snapshot/store.py:416-448 | If every member of the active dataset reads back, that dataset is the active one after a rebuild and all its members are active. |
| RecoveryOrder.RebuildPublishesLatest | src/dbtv/snapshot/store.py:434-448 | After a rebuild the active dataset, with all its members active, is the one active before if all its members read back; otherwise, of the candidates whose members do, the one such that no other holds a completion time later than all of its own, and of equally late ones the last listed; if there is none, nothing changes. |
| RecoveryOrder.CandidatesExactly | src/dbtv/snapshot/store.py:417-433 | A rebuild may publish the datasets of the table as recorded there, and of each other dataset the first file that holds the digest of its own contents. |
| RecoveryOrder.BaselineActivatesNewest | src/dbtv/snapshot/store.py:414-416 | Before any dataset is published, a row is active if and only if it is that of an unscoped recovered capture such that no other of its source and request completed later, or at the same time and is listed behind it. |
| Recovery.RebuildIsSafe | src/dbtv/snapshot/store.py:404-449 | After a rebuild every readable listed directory is indexed, every row agrees with its directory, and a scoped row is active only as a member of a recorded dataset or of a genuine dataset file. |
| Recovery.RebuildIndex | src/dbtv/snapshot/store.py:404-449 | The procedure computes the specified recovery and reports how many directories were recovered and how many were not; activating an unscoped capture never raises. |
| Recovery.BaselineFacts | src/dbtv/snapshot/store.py:405-420 | Before datasets are published again, exactly readable directories are indexed and only unscoped captures are active. |
| Recovery.CommitAllDatasets | src/dbtv/snapshot/store.py:438-448 | Publishing the sorted datasets appends the unknown ones in order and leaves the last one active. |
| Recovery.CommitAllPassing | src/dbtv/snapshot/store.py:445-448 | Datasets that cannot be activated are passed over without effect on the others. |
| Layering.SourceLevels | src/dbtv/sources.py:316-326 | The layering loop ends on every input, and yields the specified layers or a configuration error. |
| Layering.LevelIsDepth | src/dbtv/sources.py:316-326 | A source is in layer k exactly when its longest chain of parents within the input has k + 1 members. |
| Layering.LevelsPartition | src/dbtv/sources.py:316-326 | The layers together hold exactly the input, each source as often as it was given. |
| Layering.FailsOnCycles | src/dbtv/sources.py:322-323 | Layering fails exactly on inputs whose parent relation has a cycle. |
| Layering.ParentsComeFirst | src/dbtv/orchestration.py:661-667 | When every parent is in the input or known from the start, all parents of a layer are known before the layer starts. |
| Planning.Prepare | src/dbtv/sources.py:238-313 | Deciding for every source and then layer by layer, the nested loops compute the plan that is a function of the tables, disk, options, keys and clock at the start; the index gains nothing but corruption marks. |
| Planning.DecideFirst | src/dbtv/sources.py:238-249 | Every source's own request is decided, and the pass fails exactly when a frozen dataset lacks a source. |
| Planning.ResolveSource | src/dbtv/sources.py:252-312 | The second pass derives a child from its reused parent and decides again, or lets it wait, then applies row cap and tag ages. |
| Planning.PlanIsConsistent | src/dbtv/sources.py:249-313 | A plan has exactly one entry per source, each resolved against its parent's final entry, for any chain of cohorts. |
| Planning.EntriesAreSound | src/dbtv/sources.py:249-313 | Whatever is reused is intact, within the row cap, within its tag ages and captured with its current request; a child's request was derived from its reused parent, or the child waits exactly when its parent is not reused. |
| Decisions.ReusedAsAsked | src/dbtv/sources.py:236-313 | Every snapshot a plan reuses was captured from the source's provider with a request equal to the one asked for in source, relation, sampling, fidelity, projection and scope; its row is the frozen dataset's member, the one picked, or an active one; and it is within the row and age limits. |
| Decisions.LimitsMean | src/dbtv/sources.py:281-311 | A snapshot about to be reused with too many rows stops the planning; one too old for a tag is missing when a dataset is replayed or only local data may be used and is extracted again otherwise; everything else stays as decided. |
| Decisions.PlansRefuse | src/dbtv/sources.py:147-148 | A frozen dataset is refused together with a picked snapshot or refresh mode, and when it lacks a source. |
| Planning.LocalPlansNeverRefresh | src/dbtv/sources.py:243-312 | Offline, cached, or replaying a dataset, no entry of a plan is a refresh, through any chain of cohorts and despite tag-age overrides. |
| Planning.ResolveIsSound | src/dbtv/sources.py:252-312 | The guarantees of one entry, given its parent's decision. |
| Planning.SettledPlansRepeat | src/dbtv/sources.py:226-313 | When every member of a coherent dataset is intact, of acceptable size and age and selected by the options, planning succeeds and reuses exactly those members, layer by layer. |
| Planning.TagsAreNoIdentity | src/dbtv/snapshot/keys.py:9-12 | Whether a source is coherent with a dataset does not depend on its query tag, not even through the cohort request derived from its parent. |
| Planning.SamePlanHasLevels | src/dbtv/sources.py:316-326 | The query tags decide nothing about the layers: another invocation's plan of the same sources layers alike. |
| Planning.LevelsFailWithConfigError | src/dbtv/sources.py:322-323 | The only way layering fails is with a configuration error. |
| Orchestration.Execute | src/dbtv/orchestration.py:226-354 | A run that does not commit activates nothing and records no dataset, one that raises one of its own errors before the transaction has not committed, and a plan that fails or lacks a source stops it with that error. A run that commits has recorded a coherent dataset, the only active one, whose members are all intact, active and within the row limit; reused snapshots are members under their keys; those it has extracted, each once, are what the connector delivered for the requests expected, its log grew by exactly their batches, and their size in memory is within the limit. Snapshots are pinned if asked and only then; a local run extracts nothing. |
| Orchestration.Gather | src/dbtv/orchestration.py:233-310 | From the plan to one coherent, bounded snapshot per source, those extracted being what the connector delivered, charged batch by batch; it activates nothing wherever it stops, and says when the plan stops it. |
| Orchestration.Refresh | src/dbtv/orchestration.py:659-689 | Layer by layer, every source is captured with the request expected of it given the parent captured or reused in this very run; captures of a layer complete in any order. |
| Orchestration.CaptureLevel | src/dbtv/orchestration.py:657-684 | A layer is captured whole or fails: every prepared request is answered by a bounded, intact snapshot of what the connector delivered for it, charged once, and what was captured before stays so. |
| Orchestration.MaterializeLevel | src/dbtv/orchestration.py:662-667 | Every request of a layer is derived from its known parent before any of the layer is captured, or the error is one that deriving raised for some source of the layer. |
| Orchestration.BoundedBatches | src/dbtv/orchestration.py:617-627 | A stream that ends normally was passed on unchanged, exactly its batches were charged, and neither the row limit nor the run's size limit was passed; on any other end the batches passed on were charged, and at most one more, which was over a limit. |
| Orchestration.LayerIsCoherent | src/dbtv/orchestration.py:661-682 | Capturing a layer with the requests expected of it keeps everything known coherent. |
| Orchestration.MaterializedIsExpected | src/dbtv/sources.py:329-379 | Materializing against the known parent gives the request expected of the dataset, whether the request was derived in planning or is derived now. |
| Orchestration.RefreshIsReady | src/dbtv/orchestration.py:246-266 | When nothing is missing, every source to refresh has its parent among the reused snapshots or the sources to refresh, and those have no cycle. |
| Orchestration.PinReused | src/dbtv/orchestration.py:267-270 | Keeping snapshots pins every reused one, on disk and in the index, and changes nothing else about them. |
| Orchestration.Publish | src/dbtv/datasets.py:24-70 | The transaction comes first and cannot fail for freshly gathered snapshots; wherever it stops, the dataset file is either as before or, after the transaction, written with the recorded payload, and no existing file changes. |
| Orchestration.IdentityIsDetermined | src/dbtv/datasets.py:32-37 | A dataset's identity is determined by its member keys, because a key digests its connection scope. |
| Orchestration.PublishedDatasetRepeats | src/dbtv/sources.py:226-268 | After a run has published a dataset, a later offline, cached or replaying run of the same plan, whose query tags name another invocation, over the same tables and disk and with no tag age exceeded, reuses exactly its members and computes the same dataset identity. |
| WorkspaceSteps.StepKeepsInvariant | src/dbtv/snapshot/store.py:116-449 | Every step of runs, cleaning, drops, rebuilds, collections, marks, crashes and damage, wherever it comes, keeps the whole invariant: besides soundness, that every frozen input has its directory and every settled committed row matches its own, but for keys that were damaged or that a collection took out of a writer's window; and that nobody has loaded what was taken. |
| WorkspaceSound.StepKeepsSound | src/dbtv/snapshot/store.py:116-449 | Every step keeps the tables valid, every undamaged directory whole, the history complete, scoped activity published, references what their dataset's identity says, each referenced key either in the index or left to be recorded and never both, and whatever the lock holder carries described by its key. |
| WorkspaceRuns.ActiveIsPublished | src/dbtv/orchestration.py:629-641 | Over every interleaving, wherever collections come, a scoped snapshot is active only if some step committed, whole, a dataset it is a member of. |
| WorkspaceRuns.OnlyPublicationActivates | src/dbtv/snapshot/store.py:278-296 | No step but a dataset commit or a rebuild's publication ever makes a row active. |
| WorkspaceRuns.ProtectedIsNotRemoved | src/dbtv/cli/app.py:776-861 | Over every interleaving, no step but damage takes the directory of a snapshot that is active, pinned or an input of a recorded dataset, and none but the start of a rebuild takes its row. |
| WorkspaceRuns.FrozenInputsAreKept | src/dbtv/cli/app.py:776-861 | Over every interleaving, each member of each recorded dataset has its row if and only if no rebuild has yet to record it again, and its complete directory unless it was damaged or a collection took it out of a writer's window; nothing is taken when collections stay out of the windows. |
| WorkspaceRuns.OnlyRebuildsUnindex | src/dbtv/snapshot/store.py:404-420 | Without the start of a rebuild, no run leaves a row to be recorded again. |
| WorkspaceRuns.RebuildRecordsAll | src/dbtv/snapshot/store.py:404-420 | In every reachable state in which a rebuild can go on to activate, whatever it still has to record has no directory, or a damaged one. |
| WorkspaceRuns.DatasetsPersist | src/dbtv/cli/app.py:1026-1036 | A recorded dataset stays recorded with the same payload until it is dropped. |
| WorkspaceRuns.ReachableIndexIsValid | src/dbtv/state.py:164-197 | In every reachable state, wherever collections come, active rows are committed, at most one is active per source and request, dataset identities are unique, and at most one dataset is active. |
| WorkspaceRuns.DirectoriesAreComplete | src/dbtv/snapshot/store.py:237-284 | At every crash point of every run, wherever collections come, each directory nothing else has damaged is complete. |
| WorkspaceRuns.IndexRefinesDisk | src/dbtv/snapshot/store.py:237-284 | At every point of every run, a committed row whose directory has not run ahead of it equals what its directory reads back, unless that directory was damaged or taken. |
| WorkspaceRuns.QuiescentIndexRefinesDisk | src/dbtv/snapshot/store.py:237-284 | In every quiescent state reached without a crash or an abandoned update, each committed row equals what its directory reads back, unless that directory was damaged or taken. |
| WorkspaceRuns.InterruptionExactly | src/dbtv/snapshot/store.py:250-284 | When the process dies, or a capture is abandoned, in a run that was orderly so far, a committed row is out of step with its undamaged directory if and only if somebody is between the two updates of that very key and the row disagrees with what is carried, a cleaning has taken the directory and not yet the row, or a collection took the directory out of a writer's window. |
| WorkspaceRuns.OutOfStepExactly | src/dbtv/snapshot/store.py:250-284 | The same at every point of every run for each key that no earlier interruption left behind. |
| WorkspaceLimits.CollectionIsSafeExactly | src/dbtv/snapshot/store.py:364-402 | As long as no collection has entered a window before, no continuation of a collection, without a further one in a window, ever loses a frozen input, if and only if the collection takes no undamaged directory that a writer is about to record, or the run cannot publish any more: a capture has failed, or lacks the directory or row it still needs, or a snapshot it has got cannot be activated. |
| WorkspaceLimits.LosesExactly | src/dbtv/snapshot/store.py:364-402 | In any state that satisfies the invariant, with any number of collections behind it, a frozen input can still be lost without a further intrusion if and only if one is lost already, or the run that holds the lock can still publish and is going to publish a key that was taken. |
| WorkspaceLimits.RunLoses | src/dbtv/orchestration.py:657-690 | How: such a run goes on, every source gets its snapshot, the payload of exactly these snapshots commits, and the taken key is an input without a directory; if nothing was damaged, no other touch of the disk is needed. |
| WorkspaceWitnesses.IntrusionIsReachable | src/dbtv/snapshot/store.py:364-402 | From the empty workspace, for every unpinned capture and every retained history, runs capture it and that many newer states of its source, and one run reads it again up to its receipt; by then the collector removes exactly this capture, however the rows are listed, and if it does so the run publishes a dataset that has lost its input. |
| WorkspaceWitnesses.TornReceiptIsReachable | src/dbtv/snapshot/store.py:268-274 | From the empty workspace, for every capture and every new receipt, a run dies between the receipt and the row; the committed row is then out of step exactly when the expiry has changed. |
| WorkspaceWitnesses.TornPinIsReachable | src/dbtv/snapshot/store.py:343-359 | From the empty workspace, a run dies between the metadata pin and the row's; the row is then out of step exactly when the capture was not pinned before. |
| WorkspaceWitnesses.TornCleanIsReachable | src/dbtv/cli/app.py:854-860 | From the empty workspace, a cleaning dies between a directory and its row, and leaves a committed row without a directory. |
| WorkspaceWitnesses.InterruptedRebuildLosesRow | src/dbtv/snapshot/store.py:404-416 | From the empty workspace, a run publishes its one capture, and a rebuild dies after clearing the rows: the input of the published dataset is on disk, undamaged, and has no row. |
| WorkspaceLimits.CapturesAreSealable | src/dbtv/snapshot/store.py:201-246 | Every capture the store finishes is one that those runs can start from. |
| WorkspaceLinks.CaptureIsARun | src/dbtv/snapshot/store.py:247-284 | Every state of disk and index at which a capture of the store may stop is reached by steps of its source's writer, whatever the other writers are doing; when it ends, the run has got a snapshot of that key. |
| WorkspaceLinks.PinningRuns | src/dbtv/snapshot/store.py:343-359 | Every state at which a pin may stop is reached by the writer's two pinning steps. |
| WorkspaceLinks.PublicationIsARun | src/dbtv/datasets.py:61-68 | For a run that has got all its snapshots and none of whose captures raised, the states before, after the transaction and after the dataset file are those of committing and writing the file. |
| WorkspaceLinks.PayloadsAgree | src/dbtv/datasets.py:32-58 | The payload such a run commits is the one that publication builds from the planned sources: their keys, scopes and completion times. |
| WorkspaceLinks.UninterruptedRebuild | src/dbtv/snapshot/store.py:404-449 | A rebuild that nothing interrupts, taken step by step, computes the specified recovery, ends with no row behind its directory, and leaves to be recorded exactly the keys it has cleared and not found. |
| WorkspaceLinks.CollectorIsACollection | src/dbtv/snapshot/store.py:378-402 | Everything the collector removes is unprotected, so its run is a collection step of the workspace. |
| SessionPool.SessionsAreExclusive | src/dbtv/orchestration.py:596-657 | Under every interleaving across layers no session is held by two tasks, is idle while held, or is handed to another connection, and live plus about-to-be-created sessions of a connection never exceed the configured parallelism. |
| SessionPool.EverySessionIsClosedOnce | src/dbtv/orchestration.py:656-689 | No session is ever closed twice, and after a refresh whose closes did not raise, on success or failure, every session created has been closed exactly once. |
| SessionPool.RaisingCloseLeavesTheRest | src/dbtv/orchestration.py:685-688 | In every reachable state, when a close raises while the idle sessions are drained, all sessions end up closed if and only if it was the last one idle. |
| SessionPool.RaisingCloseIsReachable | src/dbtv/orchestration.py:685-688 | With two workers there is a refresh that ends with a session created and never closed. |
| SessionPool.StepKeepsInvariant | src/dbtv/orchestration.py:584-689 | Every step of every worker conserves the sessions: each one created is held by one task, idle once, or closed once. |
| Cancellation.EveryCallbackRunsOnce | src/dbtv/core/cancellation.py:29-55 | Under every interleaving no registration runs twice, and once at least one cancel call was made and all have returned, each registration has run exactly once or was removed through a handle with an equal callback. |
| Cancellation.NotRunExactly | src/dbtv/core/cancellation.py:29-55 | Over whole runs: once all cancel calls have returned, a registration has not run if and only if some handle call took it, one made with an equal callback while it was the first such registration listed; if its own handle was never called, that was the handle of another. |
| Cancellation.DistinctCallbacksAreNotLost | src/dbtv/core/cancellation.py:29-55 | When no two registrations carry equal callbacks, every registration whose handle was not called has then run exactly once. |
| Cancellation.HandleRemovesAnother | src/dbtv/core/cancellation.py:36-41 | In every reachable state, a handle removes a registration other than its own exactly when another with an equal callback is still listed and came earlier, or the handle's own is listed no more. |
| Cancellation.HandleCalledTwiceLosesAnother | src/dbtv/core/cancellation.py:36-41 | One callback registered twice and one handle called twice: the other registration, whose handle nobody called, is lost. |
| Cancellation.TwiceIsReachable | src/dbtv/core/cancellation.py:29-34 | The state with one callback registered twice is reached from the initial one. |
| Budget.RunBudget.Consume | src/dbtv/resources.py:49-56 | Every batch is counted before the limits are checked, and the call raises exactly when its source's rows or the run's bytes are then over. |
| Budget.NothingRaisedIffWithin | src/dbtv/resources.py:49-56 | No call of a run raised if and only if every charged source and the run as a whole ended within their limits. |
| Budget.TotalsIgnoreOrder | src/dbtv/resources.py:49-56 | The totals counted are the sums over all batches, however the concurrent calls were interleaved. |
| Budget.RaisingIgnoresOrder | src/dbtv/resources.py:49-56 | If one interleaving of the same batches raises nothing, none does. |
| Budget.AcceptedIsBounded | src/dbtv/resources.py:49-56 | A source none of whose charges raised has delivered no more rows than the limit, whatever other sources charged in between. |
| Budget.InterleavedExactly | src/dbtv/resources.py:49-56 | Extractions interleaved in any way raise nothing if and only if each one's batches are within the row limit and all of them within the size limit. |
| Budget.AccountedSize | src/dbtv/resources.py:49-56 | The log of a run that has captured these snapshots has grown by the size in memory of all their batches, which is within the limit. |
| Budget.BytesOfCharges | src/dbtv/resources.py:49-56 | The bytes charged for a source are the size in memory of its batches. |
| Disk.DistinctRoots | src/dbtv/resources.py:108-114 | The roots are configured paths, pairwise not nested, and cover every configured path. |
| Disk.SizeIsTotal | src/dbtv/resources.py:117-132 | The recursive size of a directory is the total size of the regular files below it, with links counting nothing. |
| Disk.SizeUnder | src/dbtv/resources.py:117-132 | The size measured at a path is the total size of the files of the disk under that path. |
| Disk.EveryFileIsCountedOnce | src/dbtv/resources.py:58-59 | The measured usage is the total size of the union of the configured directories, every file once, however they overlap. |
| Manifest.UpstreamSources | src/dbtv/project/selection.py:30-49 | The worklist ends on every manifest, cyclic or not, with exactly the sources reachable from the selection through nodes that are not sources. |
| Manifest.BoundaryFinder.Visit | src/dbtv/project/boundaries.py:27-50 | The depth-first visit ends on cyclic manifests, finds only justified boundaries, and is done with everything it newly visits. |
| Manifest.BoundaryFinder.FindAll | src/dbtv/project/boundaries.py:9-54 | The boundary is exactly the models, seeds and snapshots, neither scheduled nor ephemeral, that are direct parents of a node reachable from a scheduled one through scheduled or ephemeral parents, whatever the visiting order; each comes with a node that needs it. |
| Predicates.LiteralRoundTrip | src/dbtv/sources.py:393-400 | Evaluating the expression printed for a text, with doubled quotes and pieces joined by CHR(92), gives the text back, whatever follows it. |
| Predicates.ListRoundTrip | src/dbtv/sources.py:362-363 | The printed list of text keys reads back as exactly those keys, in order. |
| Predicates.IdentifierRoundTrip | src/dbtv/backend/duckdb.py:28-31 | A quoted identifier reads back as the identifier it quotes. |
| Predicates.MaskedIsScanned | src/dbtv/core/sql.py:29-33 | Masking quoted values with the backtracking expression leaves no quote exactly when a one-pass automaton ends outside a quoted value, and then both have masked the text alike. |
| Predicates.AcceptsExactly | src/dbtv/core/sql.py:29-39 | The backtracking expression and a one-pass automaton accept the same texts: those that are not blank and whose text outside closed quotes is clean. |
| Predicates.RefusesExactly | src/dbtv/core/sql.py:8-39 | A text is accepted if and only if it is not blank, every quoted value in it is closed, and outside of them there is no semicolon, no comment mark and, in whatever case, none of twelve statement words. |
| Predicates.StripMeans | src/dbtv/core/sql.py:26-39 | What is accepted is the text without the white space around it. |
| Predicates.CohortPredicateAccepted | src/dbtv/sources.py:362-369 | Every cohort predicate built from an accepted base predicate, or none, and any list of accepted keys is itself accepted. |
| Cohorts.CohortRoundTrip | src/dbtv/sources.py:362-371 | A cohort predicate can be printed exactly when every key can and the column can be quoted, and an independent reader finds in it the configured base, the column and exactly the keys, in order. |
| Cohorts.CohortSelects | src/dbtv/sources.py:362-371 | It selects the rows of the base whose column holds one of the parent's keys, and none when there is no key. |
| Cohorts.ChildRequest | src/dbtv/sources.py:329-381 | A child's request is derived exactly when the parent's keys can be read, are not too many and can be printed; it is the source's own request, sampled by the predicate whose base is the source's own, whose column is the rule's key and whose keys are the parent's, in a scope that names the parent's snapshot and the rule. |

## Left out

- Store.SnapshotStore.Write: an error that a single file operation or the database raises counts as being cut short, like a death of the process; which error is raised then, that the pending directory is removed on the way out, file modes and the per-source lock are not modelled. The query identifier of a capture is not kept.
- Store.SnapshotStore.Install, Store.SnapshotStore.Reverify, Store.SnapshotStore.Pin: the same.
- Store.SnapshotStore.Decide: a row whose metadata path lies outside the snapshots root is treated as unreadable.
- Orchestration.Execute: failures between gathering and committing, such as type findings, cancellation and disk limits, are one arbitrary error. An error raised after the transaction, while the dataset files are written (src/dbtv/datasets.py:68-69) or the snapshots are bound (src/dbtv/orchestration.py:370), counts as being cut short: such a run has committed. What a run does afterwards, invoking dbt, is not modelled.
- Orchestration.Publish: the same; the copy of the payload among the run's own files is not modelled.
- Orchestration.BoundedBatches: all batches of a stream are charged before the first is written, while the code interleaves the two. A stream may be cut after any batch, so that what a failing write leaves charged is among the outcomes.
- Orchestration.CaptureLevel: captures of a layer run one after the other, in an arbitrary order; the interleaving of their effects is modelled in Workspace, that of their sessions in SessionPool.
- Orchestration.PublishedDatasetRepeats: the reader of parent keys is taken to be a function of the captured contents, so a data file altered without changing its size under size checking is not covered.
- Planning.DecideFirst: the request each source is decided with is given; see Planning.Prepare.
- Planning.Prepare: routing, sampling rules, policies over tags and the query tag are part of the plan given to it; ambiguous routes and cohort rules, and policy refusals in the first pass, are not modelled. Reason texts are dropped.
- Recovery.RebuildIndex: the two directory listings are parameters. In the workspace machine, where a row may be marked or collected in between, the code's stopping with an error is a crash step, and passing over the capture is possible as well.
- WorkspaceRuns.InterruptionExactly: a key that an earlier interruption left behind, and that nobody has recorded since, is outside it; such a key may be in step or not.
- WorkspaceLimits.RunLoses: the plan of a run in the workspace machine is its list of sources; what each of them is asked for, and in which layer, is modelled in Orchestration. The machine lets sources be captured in any order, and with any contents.
- WorkspaceRuns.FrozenInputsAreKept: cleaning everything (`clean --all`) ends all retention and is not a step; a collection is one atomic step, without a crash between a directory and its row.
- SessionPool.SessionsAreExclusive: what a connector does with its session, and the credentials, are not modelled; a task may fail at any point.
- Cancellation.EveryCallbackRunsOnce: a callback that itself registers or cancels while the lock is held is not modelled.
- Disk.EveryFileIsCountedOnce: files that vanish while they are measured, and the disk limits themselves, are not modelled.
- Cohorts.CohortSelects: a row's key is one of the parent's when it is the same printed value; how an engine compares and converts values is not modelled.
- Predicates.AcceptsExactly: the class of word characters is a parameter: the usual one on ASCII, containing every character that matches an ASCII letter when case is ignored and no white space; numbers come with the text Python prints for them.
- Manifest.UpstreamSources: the result is a set; its sorting is not modelled, and neither is the lineage report.
- Sampling policy (`apply_max_rows`, `resolve_sampling`): a minimum and a last-match loop, which would only add easy members.
- Connectors, credential resolution, dbt invocation, manifest and configuration parsing, DuckDB binding, redaction, events, diagnostics and the command line beyond cleaning and dropping: foreign calls and plumbing.
- Parquet encoding, SHA-256, SQLite, file locks and durable flushing: replaced by the abstractions above.
- `write(activate=True)`, which the run protocol does not use.
