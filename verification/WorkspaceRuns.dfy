/**
 Whole runs of the workspace, over every interleaving: publication safety, whole directories, frozen
 inputs, and the refinement of the disk by the index. Of what a collection takes out of a writer's
 window only the directory is lost, and no collection that stays out of the windows takes anything.
 */
module WorkspaceRuns {
  import opened Outcomes
  import opened Identity
  import opened Snapshots
  import opened Index
  import opened Store
  import opened Recovery
  import opened Workspace
  import opened WorkspaceSound
  import opened WorkspaceSteps

  // ---------- runs ----------

  function Initial(integrity: Integrity): System {
    System(Tables(map[], [], map[]), map[], map[], Free, integrity, {}, {}, {}, {}, {})
  }

  /** Every step is enabled when it is taken. */
  predicate Feasible(s: System, steps: seq<Step>)
    decreases |steps|
  {
    steps == [] || (Enabled(s, steps[0]) && Feasible(Apply(s, steps[0]), steps[1..]))
  }

  function After(s: System, steps: seq<Step>): System
    requires Feasible(s, steps)
    decreases |steps|
  {
    if steps == [] then s else After(Apply(s, steps[0]), steps[1..])
  }

  /** No collection enters a writer's window. */
  predicate Careful(s: System, steps: seq<Step>)
    requires Feasible(s, steps)
    decreases |steps|
  {
    steps == [] || (Safe(s, steps[0]) && Careful(Apply(s, steps[0]), steps[1..]))
  }

  lemma {:induction false} RunsCompose(s: System, a: seq<Step>, b: seq<Step>)
    requires Feasible(s, a) && Feasible(After(s, a), b)
    ensures Feasible(s, a + b) && After(s, a + b) == After(After(s, a), b)
    ensures Careful(s, a + b) <==> Careful(s, a) && Careful(After(s, a), b)
    decreases |a|
  {
    hide Enabled, Apply, Safe;
    if a == [] {
      assert a + b == b;
    } else {
      RunsCompose(Apply(s, a[0]), a[1..], b);
      assert (a + b)[1..] == a[1..] + b;
    }
  }

  lemma OneStep(s: System, step: Step)
    requires Enabled(s, step)
    ensures Feasible(s, [step]) && After(s, [step]) == Apply(s, step)
    ensures Careful(s, [step]) <==> Safe(s, step)
  {
    hide Enabled, Apply, Safe;
    assert [step][1..] == [];
  }

  /** One more step in front. */
  lemma StepThen(s: System, step: Step, rest: seq<Step>)
    requires Enabled(s, step) && Feasible(Apply(s, step), rest)
    ensures Feasible(s, [step] + rest) && After(s, [step] + rest) == After(Apply(s, step), rest)
    ensures Careful(s, [step] + rest) <==> Safe(s, step) && Careful(Apply(s, step), rest)
  {
    hide Enabled, Apply, Safe;
    assert ([step] + rest)[1..] == rest;
  }

  /** One more step at the end. */
  lemma StepAfter(s: System, steps: seq<Step>, step: Step)
    requires Feasible(s, steps) && Enabled(After(s, steps), step)
    ensures Feasible(s, steps + [step]) && After(s, steps + [step]) == Apply(After(s, steps), step)
    ensures Careful(s, steps + [step]) <==> Careful(s, steps) && Safe(After(s, steps), step)
  {
    hide Enabled, Apply, Safe, Feasible, After, Careful;
    OneStep(After(s, steps), step);
    RunsCompose(s, steps, [step]);
  }

  lemma InitialIsValid(integrity: Integrity)
    ensures Inv(Initial(integrity))
  {
  }

  lemma {:induction false} RunsKeepInvariant(s: System, steps: seq<Step>)
    requires Inv(s) && Feasible(s, steps)
    ensures Inv(After(s, steps))
    decreases |steps|
  {
    hide Inv, Enabled, Apply;
    if steps != [] {
      StepKeepsInvariant(s, steps[0]);
      RunsKeepInvariant(Apply(s, steps[0]), steps[1..]);
    }
  }

  /** What a reachable state satisfies. */
  lemma ReachableIsValid(integrity: Integrity, steps: seq<Step>)
    requires Feasible(Initial(integrity), steps)
    ensures Inv(After(Initial(integrity), steps))
  {
    InitialIsValid(integrity);
    RunsKeepInvariant(Initial(integrity), steps);
  }

  /** A run in which collections stay out of the windows takes nothing. */
  lemma {:induction false} CarefulTakesNothing(s: System, steps: seq<Step>)
    requires Feasible(s, steps) && Careful(s, steps)
    ensures After(s, steps).taken <= s.taken
    decreases |steps|
  {
    hide Enabled, Apply, Safe;
    if steps != [] {
      SafeTakesNothing(s, steps[0]);
      CarefulTakesNothing(Apply(s, steps[0]), steps[1..]);
    }
  }

  lemma SafeTakesNothing(s: System, step: Step)
    requires Enabled(s, step) && Safe(s, step)
    ensures Apply(s, step).taken <= s.taken
  {
    if step.Check? || step.Collect? {
      hide Finished, Unprotected, Window;
    } else {
      hide Enabled, Apply;
      TakenUntouched(s, step);
    }
  }

  lemma TakenUntouched(s: System, step: Step)
    requires Enabled(s, step) && !step.Check? && !step.Collect?
    ensures Apply(s, step).taken == s.taken
  {
    hide Usable, Read, Sealable, Pinned, Observe, Finished, Record, SetPinned, MarkCorrupt, Activated, Authentic;
    hide CommitDataset, DeleteDataset, Filed, Validates, Unprotected, Republishable;
  }

  // ---------- publication ----------

  /** The history names nothing but committed datasets. */
  lemma {:induction false} HistoryIsCommitted(s: System, steps: seq<Step>, e: Entry)
    requires Feasible(s, steps)
    requires e in After(s, steps).history
    ensures e in s.history || Step.Commit(e.payload) in steps
    decreases |steps|
  {
    hide Enabled, Apply;
    if steps != [] {
      HistoryIsCommitted(Apply(s, steps[0]), steps[1..], e);
      HistoryGrows(s, steps[0]);
    }
  }

  /**
   Publication safety. However runs, rebuilds, cleaning, collections, marks, damage and crashes are
   interleaved, a scoped snapshot is active only if some step committed, whole, a dataset it is a
   member of.
   */
  lemma ActiveIsPublished(integrity: Integrity, steps: seq<Step>, key: SnapshotKey)
    requires Feasible(Initial(integrity), steps)
    requires key in After(Initial(integrity), steps).tables.rows
    requires After(Initial(integrity), steps).tables.rows[key].active
    ensures key.fingerprint.request.scope == Unscoped
            || exists step <- steps :: step.Commit? && key in step.payload.snapshots.Values
  {
    var s := After(Initial(integrity), steps);
    ReachableIsValid(integrity, steps);
    if key.fingerprint.request.scope != Unscoped {
      var e :| e in s.history && key in e.payload.snapshots.Values;
      HistoryIsCommitted(Initial(integrity), steps, e);
    }
  }

  /** In every reachable state at most one committed row is active per request, and one dataset. */
  lemma ReachableIndexIsValid(
    integrity: Integrity, steps: seq<Step>, k: SnapshotKey, l: SnapshotKey, d: DatasetRow, e: DatasetRow)
    requires Feasible(Initial(integrity), steps)
    ensures var t := After(Initial(integrity), steps).tables;
            && (k in t.rows && t.rows[k].active ==> t.rows[k].state == Committed)
            && (k in t.rows && l in t.rows && t.rows[k].active && t.rows[l].active
                && t.rows[k].source == t.rows[l].source && t.rows[k].fingerprint == t.rows[l].fingerprint ==>
                  k == l)
            && (d in t.datasets && e in t.datasets && (d.id == e.id || (d.active && e.active)) ==> d == e)
  {
    ReachableIsValid(integrity, steps);
    var t := After(Initial(integrity), steps).tables;
    hide RowsOk, DiskOk, PublicationOk, HistoryOk, CarryingOk, ReferencesValid, ReferencesOk, Guarded, TakenOk;
    if d in t.datasets && e in t.datasets {
      var i :| 0 <= i < |t.datasets| && t.datasets[i] == d;
      var j :| 0 <= j < |t.datasets| && t.datasets[j] == e;
    }
  }

  /** Wherever a capture is interrupted, every directory nothing else has touched is complete. */
  lemma DirectoriesAreComplete(integrity: Integrity, steps: seq<Step>, key: SnapshotKey)
    requires Feasible(Initial(integrity), steps)
    requires key in After(Initial(integrity), steps).directories
    ensures var s := After(Initial(integrity), steps);
            key in s.damaged || Complete(s.directories[key], key, s.integrity)
  {
    ReachableIsValid(integrity, steps);
    DirectoryFacts(After(Initial(integrity), steps), key);
    hide Sound, Complete, Authentic;
  }

  /** Nothing but a commit, or a rebuild publishing again, ever activates a row. */
  lemma OnlyPublicationActivates(s: System, step: Step)
    requires Enabled(s, step) && !step.Commit? && !step.ActivateNext? && !step.RepublishNext?
    ensures Quieter(s.tables.rows, Apply(s, step).tables.rows)
  {
    hide Quieter, Enabled, Apply;
    if !TouchesRows(step) {
      RowsUntouched(s, step);
      NothingActivatesNothing(s.tables.rows);
    } else if step.RecordNext? {
      RecordNextActivatesNothing(s);
    } else {
      RowTransactionActivatesNothing(s, step);
    }
  }

  lemma NothingActivatesNothing(rows: Rows)
    ensures Quieter(rows, rows)
  {
  }

  lemma RecordNextActivatesNothing(s: System)
    requires Enabled(s, RecordNext)
    ensures Quieter(s.tables.rows, Apply(s, RecordNext).tables.rows)
  {
    hide Read;
  }

  lemma RowTransactionActivatesNothing(s: System, step: Step)
    requires Enabled(s, step)
    requires step.RecordRow? || step.PinRow? || step.Mark? || step.Collect? || step.CleanRow? || step.BeginRebuild?
    ensures Quieter(s.tables.rows, Apply(s, step).tables.rows)
  {
    hide Usable, Unprotected;
  }

  lemma DatasetsUntouched(s: System, step: Step)
    requires Enabled(s, step) && !step.BeginDrop? && !step.Commit? && !step.RepublishNext?
    ensures Apply(s, step).tables.datasets == s.tables.datasets
  {
    hide Usable, Read, Sealable, Pinned, Observe, Finished, Record, SetPinned, MarkCorrupt, Activated, Authentic;
    hide CommitDataset, Filed, Validates, Unprotected, Republishable, Knows;
  }

  lemma CommitRemembers(t: Tables, id: DatasetId, payload: Payload, d: DatasetRow)
    requires Index.Valid(t) && CommitDataset(t, id, payload).Success? && d in t.datasets
    ensures Recorded(CommitDataset(t, id, payload).value, d.id, d.payload)
  {
    CommitIsWhole(t, id, payload);
  }

  lemma DropRemembers(t: Tables, id: DatasetId, d: DatasetRow)
    requires d in t.datasets && d.id != id
    ensures Recorded(DeleteDataset(t, id), d.id, d.payload)
  {
    WithoutMembers(t.datasets, id);
    var after := Without(t.datasets, id);
    var j :| 0 <= j < |after| && after[j] == d;
  }

  /** A recorded dataset stays recorded, with its payload, until it is dropped. */
  lemma DatasetsPersist(s: System, step: Step, d: DatasetRow)
    requires Index.Valid(s.tables) && Enabled(s, step) && d in s.tables.datasets && step != BeginDrop(d.id)
    ensures Recorded(Apply(s, step).tables, d.id, d.payload)
  {
    hide Index.Valid, CommitDataset, DeleteDataset, Usable, Sealable;
    var i :| 0 <= i < |s.tables.datasets| && s.tables.datasets[i] == d;
    if step.BeginDrop? {
      DropRemembers(s.tables, step.id, d);
    } else if step.Commit? {
      CommitRemembers(s.tables, DatasetOf(step.payload), step.payload, d);
    } else if step.RepublishNext? {
      var e := s.holder.entries[0];
      if CommitDataset(s.tables, e.id, e.payload).Success? {
        CommitRemembers(s.tables, e.id, e.payload, d);
      }
    } else {
      hide Apply;
      DatasetsUntouched(s, step);
    }
  }

  // ---------- frozen inputs ----------

  /**
   No frozen input is lost: what a dataset references has its directory, complete, unless something
   else damaged it; and it has its row exactly when no rebuild has yet to record it.
   */
  ghost predicate Kept(s: System) {
    forall k <- s.tables.references.Values ::
      && (k in s.tables.rows <==> k !in s.unindexed)
      && (k !in s.damaged ==> k in s.directories && Complete(s.directories[k], k, s.integrity))
  }

  /** A referenced key that nothing has excused is there, and the rebuilds account for every missing row. */
  lemma ReferencedIsKept(s: System, k: SnapshotKey)
    requires Inv(s) && k in s.tables.references.Values
    ensures k in s.tables.rows <==> k !in s.unindexed
    ensures k in s.damaged || k in s.taken
            || (k in s.directories && Complete(s.directories[k], k, s.integrity))
  {
    hide Index.Valid, RowsOk, PublicationOk, RefinesOk, HistoryOk, HolderOk, CarryingOk, Complete, Authentic, TakenOk;
  }

  /** The members of a recorded dataset are referenced. */
  lemma MembersAreReferenced(s: System, d: DatasetRow, source: SourceId)
    requires Index.Valid(s.tables) && d in s.tables.datasets && source in d.payload.snapshots
    ensures d.payload.snapshots[source] in s.tables.references.Values
  {
    var i :| 0 <= i < |s.tables.datasets| && s.tables.datasets[i] == d;
    assert s.tables.references[(d.id, source)] == d.payload.snapshots[source];
  }

  /**
   Frozen inputs, whatever was interleaved. Every member of a recorded dataset has its row exactly when
   no rebuild has yet to record it; and its directory, complete, unless something else damaged it or a
   collection took it out of a writer's window, which does not happen when collections stay out of them.
   */
  lemma FrozenInputsAreKept(integrity: Integrity, steps: seq<Step>, d: DatasetRow, source: SourceId)
    requires Feasible(Initial(integrity), steps)
    requires d in After(Initial(integrity), steps).tables.datasets && source in d.payload.snapshots
    ensures var s, k := After(Initial(integrity), steps), d.payload.snapshots[source];
            && (k in s.tables.rows <==> k !in s.unindexed)
            && (k in s.damaged || k in s.taken
                || (k in s.directories && Complete(s.directories[k], k, s.integrity)))
            && (Careful(Initial(integrity), steps) ==> s.taken == {})
  {
    var s := After(Initial(integrity), steps);
    ReachableIsValid(integrity, steps);
    MembersAreReferenced(s, d, source);
    ReferencedIsKept(s, d.payload.snapshots[source]);
    if Careful(Initial(integrity), steps) {
      CarefulTakesNothing(Initial(integrity), steps);
    }
    hide Inv, Complete;
  }

  /** Without rebuilds no row is lost. */
  lemma {:induction false} OnlyRebuildsUnindex(s: System, steps: seq<Step>)
    requires Feasible(s, steps) && (forall step <- steps :: !step.BeginRebuild?)
    ensures After(s, steps).unindexed <= s.unindexed
    decreases |steps|
  {
    hide Enabled, Apply;
    if steps != [] {
      UnindexedShrinks(s, steps[0]);
      OnlyRebuildsUnindex(Apply(s, steps[0]), steps[1..]);
      assert steps == [steps[0]] + steps[1..];
    }
  }

  lemma UnindexedShrinks(s: System, step: Step)
    requires Enabled(s, step) && !step.BeginRebuild?
    ensures Apply(s, step).unindexed <= s.unindexed
  {
    hide Usable, Read, Sealable, Pinned, Observe, Finished, Record, SetPinned, MarkCorrupt, Activated, Authentic;
    hide CommitDataset, DeleteDataset, Filed, Validates, Unprotected, Republishable;
  }

  /** A rebuild that gets as far as activating has recorded every directory nothing else has damaged. */
  lemma RebuildRecordsAll(integrity: Integrity, steps: seq<Step>, order: seq<Snapshot>, key: SnapshotKey)
    requires Feasible(Initial(integrity), steps)
    requires Enabled(After(Initial(integrity), steps), BeginActivation(order))
    ensures var s := After(Initial(integrity), steps);
            key in s.unindexed && key in s.directories ==> key in s.damaged
  {
    ReachableIsValid(integrity, steps);
    hide Index.Valid, RowsOk, DiskOk, PublicationOk, RefinesOk, HistoryOk, CarryingOk, TakenOk, FrozenOk;
  }

  /** At every point of every run, rows whose directory has not run ahead match theirs. */
  lemma IndexRefinesDisk(integrity: Integrity, steps: seq<Step>, key: SnapshotKey)
    requires Feasible(Initial(integrity), steps)
    ensures var s := After(Initial(integrity), steps);
            key !in s.stale ==> InStep(key, s.tables.rows, s.directories, Excused(s))
  {
    ReachableIsValid(integrity, steps);
    hide Sound, FrozenOk, HolderOk, RowMatches, TakenOk;
  }

  // ---------- what is removed ----------

  /** Neither active nor pinned nor an input of a recorded dataset. */
  ghost predicate Removable(s: System, key: SnapshotKey) {
    && (key in s.tables.rows ==> !s.tables.rows[key].active && !s.tables.rows[key].pinned)
    && forall r <- s.tables.references :: s.tables.references[r] != key
  }

  /** A cleaning has before it, and in hand, nothing but what may be removed. */
  ghost predicate CleansRemovable(s: System) {
    match s.holder
    case Cleaning(targets, removed) =>
      (forall k <- targets :: Removable(s, k)) && (removed.Some? ==> Removable(s, removed.value))
    case _ => true
  }

  lemma UnprotectedIsRemovable(s: System, key: SnapshotKey)
    requires Unprotected(s.tables, key)
    ensures Removable(s, key)
  {
    forall r <- s.tables.references ensures s.tables.references[r] != key {
      assert s.tables.references[r] in s.tables.references.Values;
    }
  }

  lemma StepCleansRemovable(s: System, step: Step)
    requires CleansRemovable(s) && Enabled(s, step)
    ensures CleansRemovable(Apply(s, step))
  {
    var after := Apply(s, step);
    if step.BeginClean? {
      forall k <- step.targets ensures Removable(after, k) {
        UnprotectedIsRemovable(s, k);
      }
    } else if after.holder.Cleaning? {
      CleaningGoesOn(s, step);
      hide Enabled, Apply;
    }
  }

  /** While a cleaning goes on, rows only go or lose their activity. */
  lemma CleaningGoesOn(s: System, step: Step)
    requires Enabled(s, step) && Apply(s, step).holder.Cleaning? && !step.BeginClean?
    ensures var after := Apply(s, step);
            && s.holder.Cleaning?
            && after.holder.targets <= s.holder.targets
            && (after.holder.removed.Some? ==>
                  after.holder.removed == s.holder.removed || after.holder.removed.value in s.holder.targets)
            && after.tables.references == s.tables.references
            && forall k <- after.tables.rows ::
                 && k in s.tables.rows
                 && (after.tables.rows[k].active ==> s.tables.rows[k].active)
                 && after.tables.rows[k].pinned == s.tables.rows[k].pinned
  {
    hide Usable, Read, Sealable, CommitDataset, DeleteDataset, Filed, Republishable, Unprotected, Authentic, Validates;
  }

  lemma {:induction false} RunsCleanRemovable(s: System, steps: seq<Step>)
    requires CleansRemovable(s) && Feasible(s, steps)
    ensures CleansRemovable(After(s, steps))
    decreases |steps|
  {
    hide CleansRemovable, Enabled, Apply;
    if steps != [] {
      StepCleansRemovable(s, steps[0]);
      RunsCleanRemovable(Apply(s, steps[0]), steps[1..]);
    }
  }

  /**
   Protection. Over every interleaving, no step but damage takes the directory of a snapshot that is active,
   pinned, or an input of a recorded dataset, and none but the start of a rebuild takes its row.
   */
  lemma ProtectedIsNotRemoved(integrity: Integrity, steps: seq<Step>, step: Step, key: SnapshotKey)
    requires Feasible(Initial(integrity), steps) && Enabled(After(Initial(integrity), steps), step)
    requires var s := After(Initial(integrity), steps);
             || (key in s.tables.rows && (s.tables.rows[key].active || s.tables.rows[key].pinned))
             || exists r <- s.tables.references :: s.tables.references[r] == key
    ensures var s := After(Initial(integrity), steps);
            && (key in s.directories && !step.Damage? ==> key in Apply(s, step).directories)
            && (key in s.tables.rows && !step.BeginRebuild? ==> key in Apply(s, step).tables.rows)
  {
    var s := After(Initial(integrity), steps);
    RunsCleanRemovable(Initial(integrity), steps);
    hide Feasible, After;
    if step.Collect? && key in step.gone {
      UnprotectedIsRemovable(s, key);
    }
    StepRemoves(s, step, key);
    hide Enabled, Apply;
  }

  /** Which step removes what. */
  lemma StepRemoves(s: System, step: Step, key: SnapshotKey)
    requires Enabled(s, step)
    ensures key in s.directories && key !in Apply(s, step).directories ==>
              || step.Damage?
              || (step.CleanDirectory? && s.holder.Cleaning? && key in s.holder.targets)
              || (step.Collect? && key in step.gone)
    ensures key in s.tables.rows && key !in Apply(s, step).tables.rows ==>
              || step.BeginRebuild?
              || (step.CleanRow? && s.holder.Cleaning? && s.holder.removed == Some(key))
              || (step.Collect? && key in step.gone)
  {
    hide Enabled, Apply;
    if !TouchesRows(step) {
      RowsUntouched(s, step);
    } else {
      RowsStay(s, step);
    }
    if !TouchesDisk(step) {
      DiskUntouched(s, step);
    } else {
      DirectoriesStay(s, step);
    }
  }

  lemma RowsStay(s: System, step: Step)
    requires Enabled(s, step) && TouchesRows(step)
    ensures var left := Apply(s, step).tables.rows.Keys;
            match step
            case BeginRebuild(_) => true
            case CleanRow =>
              s.holder.Cleaning? && s.holder.removed.Some?
              && left == s.tables.rows.Keys - {s.holder.removed.value}
            case Collect(gone) => left == s.tables.rows.Keys - gone
            case _ => s.tables.rows.Keys <= left
  {
    if step.Commit? || step.RepublishNext? || step.ActivateNext? {
      hide Enabled, Apply;
      ActivationsKeepRows(s, step);
    } else {
      hide Usable, Read, Unprotected, CommitDataset;
    }
  }

  lemma ActivationsKeepRows(s: System, step: Step)
    requires Enabled(s, step) && (step.Commit? || step.RepublishNext? || step.ActivateNext?)
    ensures s.tables.rows.Keys <= Apply(s, step).tables.rows.Keys
  {
    if step.Commit? {
      ActivationKeepsRows(s.tables.rows, step.payload.snapshots);
    } else if step.RepublishNext? {
      ActivationKeepsRows(s.tables.rows, s.holder.entries[0].payload.snapshots);
    } else {
      ActivationKeepsRows(s.tables.rows, map[s.holder.rest[0].Source() := s.holder.rest[0].key]);
    }
    hide Activated, Published, Referenced, Activatable, AllActivatable, PayloadOfRun;
  }

  lemma DirectoriesStay(s: System, step: Step)
    requires Enabled(s, step) && TouchesDisk(step)
    ensures var left := Apply(s, step).directories.Keys;
            match step
            case Damage(_, _) => true
            case CleanDirectory(key) =>
              s.holder.Cleaning? && key in s.holder.targets && left == s.directories.Keys - {key}
            case Collect(gone) => left == s.directories.Keys - gone
            case _ => s.directories.Keys <= left
  {
    hide Pinned, Observe, Finished, Unprotected, Authentic;
  }

  // ---------- quiescence ----------

  predicate Carries(w: Writer) {
    w.Installed? || w.Unrecorded? || w.PinnedOnDisk?
  }

  /** The keys whose directory is ahead of the index because somebody is still at work on them. */
  function InProgress(holder: Holder): set<SnapshotKey> {
    match holder
    case Running(_, writers, _, _) => set source <- writers | Carries(writers[source]) :: WriterKey(writers[source])
    case Cleaning(_, removed) => if removed.Some? then {removed.value} else {}
    case _ => {}
  }

  /** No crash, and no capture is abandoned between its two updates. */
  predicate Orderly(s: System, step: Step) {
    !step.Crash? && (step.Abandon? && Writing(s, step.source) ==> !Carries(s.holder.writers[step.source]))
  }

  ghost predicate Accounted(s: System) {
    && s.stale <= InProgress(s.holder)
    && (s.holder.Running? ==> forall source <- s.holder.writers :: s.holder.writers[source].PinnedOnDisk? ==>
          s.holder.writers[source].clean)
  }

  ghost predicate DistinctKeys(holder: Holder) {
    holder.Running? ==> forall source <- holder.writers :: Source(WriterKey(holder.writers[source])) == source
  }

  lemma SoundHasDistinctKeys(s: System)
    requires Sound(s)
    ensures DistinctKeys(s.holder)
  {
    hide CarriedOk;
  }

  /** How a writer's step changes the writers and the stale keys. */
  ghost predicate WriterStepShape(s: System, after: System, source: SourceId) {
    && s.holder.Running?
    && after.holder.Running?
    && SameOthers(source, s.holder.writers, after.holder.writers)
    && (forall k <- after.stale ::
          || (k in s.stale && !(source in s.holder.writers && Carries(s.holder.writers[source])
                                && (s.holder.writers[source].PinnedOnDisk? ==> s.holder.writers[source].clean)
                                && WriterKey(s.holder.writers[source]) == k))
          || (source in after.holder.writers && Carries(after.holder.writers[source])
              && WriterKey(after.holder.writers[source]) == k))
    && (source in after.holder.writers && after.holder.writers[source].PinnedOnDisk? ==>
          && after.holder.writers[source].clean == (WriterKey(after.holder.writers[source]) !in s.stale)
          && source in s.holder.writers
          && !Carries(s.holder.writers[source])
          && WriterKey(s.holder.writers[source]) == WriterKey(after.holder.writers[source]))
  }

  lemma WriterStepHasShape(s: System, step: Step)
    requires Enabled(s, step) && Orderly(s, step) && AboutWriter(step)
    ensures WriterStepShape(s, Apply(s, step), step.source)
  {
    hide WriterStepShape, Orderly, Enabled, Apply;
    if step.Reuse? || step.StartWrite? || step.Abandon? || step.LoadExisting? || step.Hold? {
      CalmWriterHasShape(s, step);
    } else {
      BusyWriterHasShape(s, step);
    }
  }

  lemma CalmWriterHasShape(s: System, step: Step)
    requires Enabled(s, step) && Orderly(s, step)
    requires step.Reuse? || step.StartWrite? || step.Abandon? || step.LoadExisting? || step.Hold?
    ensures WriterStepShape(s, Apply(s, step), step.source)
  {
    hide Sealable, Usable, Read;
  }

  lemma BusyWriterHasShape(s: System, step: Step)
    requires Enabled(s, step)
    requires step.Check? || step.Validate? || step.PinDisk? || step.PinRow? || step.Receive? || step.RecordRow?
    ensures WriterStepShape(s, Apply(s, step), step.source)
  {
    hide Pinned, Observe, SetPinned, Record, Finished, Validates, Sealable, Usable, Read, CommitDataset, Unprotected;
  }

  lemma ShapeIsAccounted(s: System, after: System, source: SourceId)
    requires Accounted(s) && DistinctKeys(s.holder) && WriterStepShape(s, after, source)
    ensures Accounted(after)
  {
    forall k <- s.stale
      ensures exists other <- s.holder.writers ::
                Carries(s.holder.writers[other]) && WriterKey(s.holder.writers[other]) == k
    {
      assert k in InProgress(s.holder);
    }
    forall k <- after.stale ensures k in InProgress(after.holder) {
      if k in s.stale {
        var other :| other in s.holder.writers && Carries(s.holder.writers[other])
                     && WriterKey(s.holder.writers[other]) == k;
        if other != source {
          assert after.holder.writers[other] == s.holder.writers[other];
        }
      }
    }
  }

  lemma WriterStepIsAccounted(s: System, step: Step)
    requires Accounted(s) && DistinctKeys(s.holder) && Enabled(s, step) && Orderly(s, step) && AboutWriter(step)
    ensures Accounted(Apply(s, step))
  {
    hide Accounted, DistinctKeys, Enabled, Orderly, Apply, WriterStepShape;
    WriterStepHasShape(s, step);
    ShapeIsAccounted(s, Apply(s, step), step.source);
  }

  lemma OtherStepIsAccounted(s: System, step: Step)
    requires Accounted(s) && Enabled(s, step) && Orderly(s, step) && !AboutWriter(step)
    ensures Accounted(Apply(s, step))
  {
    hide Sealable, Usable, Read, CommitDataset, DeleteDataset;
  }

  predicate AllOrderly(s: System, steps: seq<Step>)
    requires Feasible(s, steps)
    decreases |steps|
  {
    steps == [] || (Orderly(s, steps[0]) && AllOrderly(Apply(s, steps[0]), steps[1..]))
  }

  lemma {:induction false} OrderlyRunsAreAccounted(s: System, steps: seq<Step>)
    requires Sound(s) && Accounted(s) && Feasible(s, steps) && AllOrderly(s, steps)
    ensures Accounted(After(s, steps))
    decreases |steps|
  {
    hide Sound, Accounted, Enabled, Apply, Orderly;
    if steps != [] {
      SoundHasDistinctKeys(s);
      if AboutWriter(steps[0]) {
        WriterStepIsAccounted(s, steps[0]);
      } else {
        OtherStepIsAccounted(s, steps[0]);
      }
      StepKeepsSound(s, steps[0]);
      OrderlyRunsAreAccounted(Apply(s, steps[0]), steps[1..]);
    }
  }

  lemma ReachableIsAccounted(integrity: Integrity, steps: seq<Step>)
    requires Feasible(Initial(integrity), steps) && AllOrderly(Initial(integrity), steps)
    ensures Accounted(After(Initial(integrity), steps))
  {
    InitialIsValid(integrity);
    OrderlyRunsAreAccounted(Initial(integrity), steps);
  }

  lemma StaleInProgress(s: System, key: SnapshotKey)
    requires Accounted(s) && key in s.stale
    ensures key in InProgress(s.holder)
  {
  }

  /**
   In every quiescent state reached without a crash, each committed row equals what its directory
   reads back: fingerprint, expiry, rows, bytes and pin.
   */
  lemma QuiescentIndexRefinesDisk(integrity: Integrity, steps: seq<Step>, key: SnapshotKey)
    requires Feasible(Initial(integrity), steps) && AllOrderly(Initial(integrity), steps)
    requires InProgress(After(Initial(integrity), steps).holder) == {}
    ensures var s := After(Initial(integrity), steps);
            InStep(key, s.tables.rows, s.directories, Excused(s))
  {
    ReachableIsAccounted(integrity, steps);
    IndexRefinesDisk(integrity, steps, key);
  }

  // ---------- interruptions ----------

  /**
   A committed row of an undamaged key is not what its directory reads back: a collection has taken the
   directory; or somebody is between two updates of the key, and the row disagrees with the snapshot that
   is carried, or its directory is gone.
   */
  predicate Torn(s: System, key: SnapshotKey) {
    && key in s.tables.rows
    && s.tables.rows[key].state == Committed
    && key !in s.damaged
    && (key in s.taken
        || match s.holder
           case Running(_, writers, _, _) =>
             exists source <- writers ::
               && Carries(writers[source])
               && WriterKey(writers[source]) == key
               && !Agrees(s.tables.rows[key], writers[source].e)
           case Cleaning(_, removed) => removed == Some(key)
           case _ => false)
  }

  /** A key that nobody left behind earlier is out of step exactly when it is torn. */
  lemma OutOfStepExactly(s: System, key: SnapshotKey)
    requires Inv(s) && (key in s.stale ==> key in InProgress(s.holder))
    ensures InStep(key, s.tables.rows, s.directories, s.damaged) <==> !Torn(s, key)
  {
    hide Sound, FrozenOk, Load, Agrees;
    if s.holder.Running? && key in InProgress(s.holder) {
      forall source <- s.holder.writers |
        Carries(s.holder.writers[source]) && WriterKey(s.holder.writers[source]) == key
        ensures key in s.tables.rows && key !in Excused(s) ==>
                  key in s.directories && Load(s.directories[key]) == Success(s.holder.writers[source].e)
      {
        WriterFacts(s, source);
      }
    }
  }

  /**
   What an interruption leaves behind. When the process dies, or a capture is abandoned, during a run
   that was orderly so far, each row is in step with its directory unless it is torn at that very moment.
   */
  lemma InterruptionExactly(integrity: Integrity, steps: seq<Step>, interruption: Step, key: SnapshotKey)
    requires Feasible(Initial(integrity), steps) && AllOrderly(Initial(integrity), steps)
    requires interruption.Crash? || interruption.Abandon?
    requires Enabled(After(Initial(integrity), steps), interruption)
    ensures var s := After(Initial(integrity), steps);
            var after := Apply(s, interruption);
            InStep(key, after.tables.rows, after.directories, after.damaged) <==> !Torn(s, key)
  {
    hide Inv, Feasible, After, AllOrderly, InStep, Torn, Apply, Enabled, Accounted, InProgress, Initial;
    var s := After(Initial(integrity), steps);
    ReachableIsValid(integrity, steps);
    ReachableIsAccounted(integrity, steps);
    AccountedIsExact(s, key);
    InterruptionTouchesNothing(s, interruption);
  }

  lemma AccountedIsExact(s: System, key: SnapshotKey)
    requires Inv(s) && Accounted(s)
    ensures InStep(key, s.tables.rows, s.directories, s.damaged) <==> !Torn(s, key)
  {
    if key in s.stale {
      StaleInProgress(s, key);
    }
    hide Inv, Accounted, InStep, Torn, InProgress;
    OutOfStepExactly(s, key);
  }

  lemma InterruptionTouchesNothing(s: System, interruption: Step)
    requires (interruption.Crash? || interruption.Abandon?) && Enabled(s, interruption)
    ensures var after := Apply(s, interruption);
            && after.tables.rows == s.tables.rows
            && after.directories == s.directories
            && after.damaged == s.damaged
  {
    RowsUntouched(s, interruption);
    DiskUntouched(s, interruption);
    hide Enabled, Apply;
  }
}
