/**
 What every step of the workspace keeps, whatever is collected and when: the rows, the disk, the
 recorded datasets, and what the lock holder carries, each on its own.
 */
module WorkspaceSound {
  import opened Outcomes
  import opened Identity
  import opened Snapshots
  import opened Index
  import opened Store
  import opened Recovery
  import opened Workspace

  // ---------- which steps touch what ----------

  predicate AboutWriter(step: Step) {
    || step.Reuse? || step.StartWrite? || step.Check? || step.Validate? || step.LoadExisting? || step.PinDisk?
    || step.PinRow? || step.Receive? || step.RecordRow? || step.Hold? || step.Abandon?
  }

  predicate TouchesRows(step: Step) {
    || step.RecordRow? || step.PinRow? || step.Mark? || step.Collect? || step.CleanRow? || step.BeginRebuild?
    || step.RecordNext? || step.ActivateNext? || step.Commit? || step.RepublishNext?
  }

  predicate TouchesDisk(step: Step) {
    step.Check? || step.PinDisk? || step.Receive? || step.CleanDirectory? || step.Collect? || step.Damage?
  }

  predicate TouchesRecords(step: Step) {
    step.Commit? || step.WriteFile? || step.BeginDrop? || step.FinishDrop? || step.RepublishNext?
  }

  lemma RowsUntouched(s: System, step: Step)
    requires Enabled(s, step) && !TouchesRows(step)
    ensures Apply(s, step).tables.rows == s.tables.rows
  {
    hide Usable, Read, Sealable, Pinned, Observe, Finished, Without, Filed, Republishable;
  }

  lemma DiskUntouched(s: System, step: Step)
    requires Enabled(s, step) && !TouchesDisk(step)
    ensures Apply(s, step).directories == s.directories && Apply(s, step).damaged == s.damaged
  {
    hide Usable, Read, Sealable, Record, SetPinned, MarkCorrupt, Activated, CommitDataset, DeleteDataset, Filed;
  }

  ghost predicate SameRecords(s: System, after: System) {
    && after.tables.datasets == s.tables.datasets
    && after.tables.references == s.tables.references
    && after.files == s.files
    && after.history == s.history
  }

  lemma RecordsUntouched(s: System, step: Step)
    requires Enabled(s, step) && !TouchesRecords(step)
    ensures SameRecords(s, Apply(s, step))
  {
    hide Usable, Read, Sealable, Pinned, Observe, Finished, Record, SetPinned, MarkCorrupt, Activated, Authentic;
    if AboutWriter(step) {
      WriterTouchesNoRecord(s, step);
    }
    hide CommitDataset, DeleteDataset, Filed;
  }

  lemma WriterTouchesNoRecord(s: System, step: Step)
    requires Enabled(s, step) && AboutWriter(step)
    ensures SameRecords(s, Apply(s, step)) && Apply(s, step).integrity == s.integrity
  {
    hide Usable, Read, Sealable, Pinned, Observe, Finished, Record, SetPinned, Validates;
  }

  lemma IntegrityUntouched(s: System, step: Step)
    requires Enabled(s, step)
    ensures Apply(s, step).integrity == s.integrity
  {
    if AboutWriter(step) {
      WriterTouchesNoRecord(s, step);
    }
    hide Usable, Read, Sealable, Pinned, Observe, Finished, Record, SetPinned, MarkCorrupt, Activated, Authentic;
    hide CommitDataset, DeleteDataset, Filed;
  }

  lemma HistoryGrows(s: System, step: Step)
    requires Enabled(s, step)
    ensures s.history <= Apply(s, step).history
    ensures forall e <- Apply(s, step).history :: e in s.history || step == Step.Commit(e.payload)
  {
    if !TouchesRecords(step) {
      hide Enabled, Apply;
      RecordsUntouched(s, step);
    } else {
      hide CommitDataset, DeleteDataset, Filed, Usable, Read, Sealable, Republishable, Unprotected, Authentic;
    }
  }

  // ---------- rows ----------

  ghost predicate RowsSound(rows: Rows, history: set<Entry>) {
    RowsValid(rows) && RowsOk(rows) && PublicationOk(rows, history)
  }

  /** No row becomes active. */
  ghost predicate Quieter(rows: Rows, after: Rows) {
    forall k <- after :: after[k].active ==> k in rows && rows[k].active
  }

  lemma QuieterPublishes(rows: Rows, after: Rows, history: set<Entry>)
    requires PublicationOk(rows, history) && Quieter(rows, after)
    ensures PublicationOk(after, history)
  {
    forall k <- after | after[k].active
      ensures k.fingerprint.request.scope == Unscoped || exists h <- history :: k in h.payload.snapshots.Values
    {
      assert rows[k].active;
    }
  }

  lemma RecordedSound(rows: Rows, e: Snapshot, history: set<Entry>)
    requires RowsSound(rows, history) && Describes(e, e.key)
    ensures RowsSound(Record(rows, e, Inside(e.key)), history)
  {
    RowTransactionsValid(rows, e, Inside(e.key), e.key);
    QuieterPublishes(rows, Record(rows, e, Inside(e.key)), history);
    hide RowsValid, PublicationOk;
  }

  lemma PinnedSound(rows: Rows, key: SnapshotKey, history: set<Entry>)
    requires RowsSound(rows, history)
    ensures RowsSound(SetPinned(rows, key), history)
  {
    QuieterPublishes(rows, SetPinned(rows, key), history);
    hide PublicationOk;
  }

  lemma MarkedSound(rows: Rows, key: SnapshotKey, history: set<Entry>)
    requires RowsSound(rows, history)
    ensures RowsSound(MarkCorrupt(rows, key), history)
  {
    QuieterPublishes(rows, MarkCorrupt(rows, key), history);
    hide PublicationOk;
  }

  lemma RemovedSound(rows: Rows, gone: set<SnapshotKey>, history: set<Entry>)
    requires RowsSound(rows, history)
    ensures RowsSound(rows - gone, history)
  {
    QuieterPublishes(rows, rows - gone, history);
    hide PublicationOk;
  }

  /** Activating members that a committed dataset, or no scope, vouches for. */
  lemma ActivatedSound(rows: Rows, members: map<SourceId, SnapshotKey>, before: set<Entry>, history: set<Entry>)
    requires RowsSound(rows, before) && AllActivatable(rows, members) && before <= history
    requires forall k <- members.Values ::
               k.fingerprint.request.scope == Unscoped || exists h <- history :: k in h.payload.snapshots.Values
    ensures RowsSound(Activated(rows, members), history)
  {
    ActivatedMembers(rows, members);
    ActivationKeepsRows(rows, members);
    ActivationPublishes(rows, members, before, history);
    hide RowsValid, RowsOk, PublicationOk, Activated, AllActivatable;
  }

  lemma ActivationKeepsRows(rows: Rows, members: map<SourceId, SnapshotKey>)
    ensures Activated(rows, members).Keys == rows.Keys
    ensures RowsOk(rows) ==> RowsOk(Activated(rows, members))
  {
    hide Displaced;
  }

  lemma ActivationPublishes(
    rows: Rows, members: map<SourceId, SnapshotKey>, before: set<Entry>, history: set<Entry>)
    requires PublicationOk(rows, before) && before <= history
    requires forall k <- members.Values ::
               k.fingerprint.request.scope == Unscoped || exists h <- history :: k in h.payload.snapshots.Values
    ensures PublicationOk(Activated(rows, members), history)
  {
    hide Displaced;
    var after := Activated(rows, members);
    forall k <- after | after[k].active
      ensures k.fingerprint.request.scope == Unscoped || exists h <- history :: k in h.payload.snapshots.Values
    {
      if k !in members.Values {
        assert rows[k].active;
        if h :| h in before && k in h.payload.snapshots.Values {
          assert h in history;
        }
      }
    }
  }

  /** What a committed dataset activates is in the history. */
  lemma CommittedSound(t: Tables, id: DatasetId, payload: Payload, before: set<Entry>, history: set<Entry>)
    requires RowsSound(t.rows, before) && CommitDataset(t, id, payload).Success?
    requires before <= history && Entry(id, payload) in history
    ensures RowsSound(CommitDataset(t, id, payload).value.rows, history)
  {
    assert AllActivatable(t.rows, payload.snapshots);
    forall k <- payload.snapshots.Values ensures exists h <- history :: k in h.payload.snapshots.Values {
      assert k in Entry(id, payload).payload.snapshots.Values;
    }
    ActivatedSound(t.rows, payload.snapshots, before, history);
    hide RowsSound, Activated, AllActivatable;
  }

  lemma ActivateNextSound(s: System)
    requires Sound(s) && Enabled(s, ActivateNext)
    ensures RowsSound(Apply(s, ActivateNext).tables.rows, s.history)
  {
    var e := s.holder.rest[0];
    assert e in s.holder.rest && Describes(e, e.key);
    var members := map[e.Source() := e.key];
    if e.request.scope == Unscoped && Activatable(s.tables.rows, e.Source(), e.key) {
      assert e.key.fingerprint.request.scope == Unscoped;
      ActivatedSound(s.tables.rows, members, s.history, s.history);
    }
    hide RowsValid, RowsOk, PublicationOk, Activated, Describes, DiskOk, HistoryOk, ReferencesValid, DatasetsValid;
  }

  lemma RecordNextSound(s: System)
    requires Sound(s) && Enabled(s, RecordNext)
    ensures RowsSound(Apply(s, RecordNext).tables.rows, s.history)
  {
    var found := Read(At(s.directories, s.holder.listing[0]), s.integrity);
    ReadIsDescribed(s, s.holder.listing[0]);
    if found.Some? {
      RecordedSound(s.tables.rows, found.value, s.history);
    }
    hide RowsSound, Read, Describes, DiskOk, HistoryOk, ReferencesValid, DatasetsValid;
  }

  lemma ReadIsDescribed(s: System, key: SnapshotKey)
    requires DiskOk(s.directories, s.damaged, s.integrity)
    ensures var found := Read(At(s.directories, key), s.integrity);
            found.Some? ==>
              && found.value.key == key
              && Describes(found.value, key)
              && key in s.directories
              && Load(s.directories[key]) == Success(found.value)
  {
    if key in s.directories {
      AuthenticReads(At(s.directories, key), key, s.integrity);
    }
  }

  /** A row that counts as usable is read from its own directory. */
  lemma UsableIsRead(s: System, key: SnapshotKey)
    requires RowsOk(s.tables.rows)
    ensures var found := Usable(s.tables.rows, s.directories, s.integrity, Some(key));
            found.Some? ==> found == Read(At(s.directories, key), s.integrity)
  {
    hide Read;
  }

  lemma SoundRows(s: System)
    requires Sound(s)
    ensures RowsSound(s.tables.rows, s.history)
  {
  }

  lemma CarriedSnapshot(s: System, source: SourceId)
    requires Sound(s) && Writing(s, source)
    ensures Source(WriterKey(s.holder.writers[source])) == source
    ensures CarriedOk(s.holder.writers[source], s.integrity)
  {
  }

  lemma StepKeepsRows(s: System, step: Step)
    requires Sound(s) && Enabled(s, step)
    ensures RowsSound(Apply(s, step).tables.rows, Apply(s, step).history)
  {
    hide Sound, RowsSound, Enabled, Apply;
    SoundRows(s);
    HistoryGrows(s, step);
    if !TouchesRows(step) {
      RowsUntouched(s, step);
      LongerHistory(s.tables.rows, s.history, Apply(s, step).history);
    } else if step.ActivateNext? {
      RecordsUntouched(s, step);
      ActivateNextSound(s);
    } else if step.RecordNext? {
      RecordsUntouched(s, step);
      RecordNextSound(s);
    } else if step.Commit? || step.RepublishNext? {
      PublicationSound(s, step);
    } else {
      RecordsUntouched(s, step);
      RowTransactionSound(s, step);
    }
  }

  lemma LongerHistory(rows: Rows, before: set<Entry>, history: set<Entry>)
    requires RowsSound(rows, before) && before <= history
    ensures RowsSound(rows, history)
  {
    hide RowsValid, RowsOk;
    forall k <- rows | rows[k].active
      ensures k.fingerprint.request.scope == Unscoped || exists h <- history :: k in h.payload.snapshots.Values
    {
      if h :| h in before && k in h.payload.snapshots.Values {
        assert h in history;
      }
    }
  }

  lemma PublicationSound(s: System, step: Step)
    requires Sound(s) && Enabled(s, step) && (step.Commit? || step.RepublishNext?)
    ensures RowsSound(Apply(s, step).tables.rows, Apply(s, step).history)
  {
    hide RowsSound, Sound, Enabled, Apply;
    if step.Commit? {
      CommitSound(s, step.payload);
    } else {
      RepublishSound(s);
    }
  }

  lemma CommitSound(s: System, payload: Payload)
    requires Sound(s) && Enabled(s, Step.Commit(payload))
    ensures var after := Apply(s, Step.Commit(payload)); RowsSound(after.tables.rows, after.history)
  {
    hide RowsSound, CommitDataset, Sound;
    var id, after := DatasetOf(payload), Apply(s, Step.Commit(payload));
    assert CommitDataset(s.tables, id, payload).Success?;
    assert after.tables == CommitDataset(s.tables, id, payload).value;
    assert after.history == s.history + {Entry(id, payload)};
    hide Enabled, Apply;
    SoundRows(s);
    CommittedSound(s.tables, id, payload, s.history, s.history + {Entry(id, payload)});
  }

  lemma RepublishSound(s: System)
    requires Sound(s) && Enabled(s, RepublishNext)
    ensures var after := Apply(s, RepublishNext); RowsSound(after.tables.rows, after.history)
  {
    var e := s.holder.entries[0];
    SoundRows(s);
    EntryIsHistory(s);
    hide RowsSound, CommitDataset, Sound;
    if CommitDataset(s.tables, e.id, e.payload).Success? {
      CommittedSound(s.tables, e.id, e.payload, s.history, s.history);
    }
  }

  lemma EntryIsHistory(s: System)
    requires Sound(s) && s.holder.Republishing? && s.holder.entries != []
    ensures var e := s.holder.entries[0];
            e in s.history && Entry(e.id, e.payload) == e && e.id == DatasetOf(e.payload)
  {
    assert s.holder.entries[0] in s.holder.entries;
  }

  lemma RowTransactionSound(s: System, step: Step)
    requires Sound(s) && Enabled(s, step)
    requires step.RecordRow? || step.PinRow? || step.Mark? || step.Collect? || step.CleanRow? || step.BeginRebuild?
    ensures RowsSound(Apply(s, step).tables.rows, s.history)
  {
    SoundRows(s);
    hide RowsSound, Sound, Enabled, Apply;
    match step {
      case RecordRow(source) => RecordRowSound(s, source);
      case PinRow(source) => PinRowSound(s, source);
      case Mark(key) => MarkSound(s, key);
      case _ => RemovalSound(s, step);
    }
  }

  lemma UnrecordedIsDescribed(w: Writer, integrity: Integrity)
    requires w.Unrecorded? && CarriedOk(w, integrity)
    ensures Describes(w.e, w.e.key)
  {
  }

  lemma RecordRowSound(s: System, source: SourceId)
    requires Sound(s) && Enabled(s, RecordRow(source))
    ensures RowsSound(Apply(s, RecordRow(source)).tables.rows, s.history)
  {
    hide RowsSound, Sound, Record, CarriedOk, Describes;
    var w := s.holder.writers[source];
    assert Apply(s, RecordRow(source)).tables.rows == Record(s.tables.rows, w.e, Inside(w.e.key));
    hide Enabled, Apply;
    SoundRows(s);
    CarriedSnapshot(s, source);
    UnrecordedIsDescribed(w, s.integrity);
    RecordedSound(s.tables.rows, w.e, s.history);
  }

  lemma PinRowSound(s: System, source: SourceId)
    requires Sound(s) && Enabled(s, PinRow(source))
    ensures RowsSound(Apply(s, PinRow(source)).tables.rows, s.history)
  {
    SoundRows(s);
    hide RowsSound, Sound, SetPinned;
    PinnedSound(s.tables.rows, s.holder.writers[source].e.key, s.history);
  }

  lemma MarkSound(s: System, key: SnapshotKey)
    requires Sound(s) && Enabled(s, Mark(key))
    ensures RowsSound(Apply(s, Mark(key)).tables.rows, s.history)
  {
    SoundRows(s);
    hide RowsSound, Sound, MarkCorrupt, Usable;
    MarkedSound(s.tables.rows, key, s.history);
  }

  lemma RemovalSound(s: System, step: Step)
    requires Sound(s) && Enabled(s, step) && (step.Collect? || step.CleanRow? || step.BeginRebuild?)
    ensures RowsSound(Apply(s, step).tables.rows, s.history)
  {
    SoundRows(s);
    hide RowsSound, Sound, Unprotected;
    match step {
      case Collect(gone) => RemovedSound(s.tables.rows, gone, s.history);
      case CleanRow => RemovedSound(s.tables.rows, {s.holder.removed.value}, s.history);
      case BeginRebuild(_) => NoRowsAreSound(s.history);
    }
  }

  lemma NoRowsAreSound(history: set<Entry>)
    ensures RowsSound(map[], history)
  {
  }

  // ---------- the disk ----------

  lemma DirectorySound(
    directories: Directories, key: SnapshotKey, d: Directory, damaged: set<SnapshotKey>, integrity: Integrity)
    requires DiskOk(directories, damaged, integrity)
    requires Authentic(d, key) && (key in damaged || Complete(d, key, integrity))
    ensures DiskOk(directories[key := d], damaged, integrity)
  {
    hide Authentic, Complete;
  }

  lemma FinishedIsDetermined(s: Snapshot, integrity: Integrity)
    requires Sealable(s, integrity)
    ensures Authentic(Finished(s), s.key)
  {
  }

  lemma FinishedValidates(x: Snapshot, integrity: Integrity)
    requires Sealable(x, integrity)
    ensures Validates(Finished(x), x, integrity)
  {
    CompleteReads(Finished(x), x.key, integrity);
  }

  lemma PinReadsBack(d: Directory, key: SnapshotKey, e: Snapshot, integrity: Integrity)
    requires Authentic(d, key) && e.key == key
    ensures Authentic(Pinned(d), key)
    ensures Complete(d, key, integrity) ==> Complete(Pinned(d), key, integrity)
    ensures Load(d) == Success(e) ==> Load(Pinned(d)) == Success(e.(pinned := true))
    ensures Describes(e, key) ==> Describes(e.(pinned := true), key)
  {
  }

  lemma ObserveReadsBack(d: Directory, key: SnapshotKey, e: Snapshot, receipt: Receipt, integrity: Integrity)
    requires Authentic(d, key) && e.key == key == receipt.key
    ensures Authentic(Observe(d, receipt), key)
    ensures Complete(d, key, integrity) ==> Complete(Observe(d, receipt), key, integrity)
    ensures var renewed := e.(verified := Some(receipt.verified), expires := Some(receipt.expires));
            && (Load(d) == Success(e) ==> Load(Observe(d, receipt)) == Success(renewed))
            && (Describes(e, key) ==> Describes(renewed, key))
  {
  }

  lemma DirectoryFacts(s: System, key: SnapshotKey)
    requires Sound(s) && key in s.directories
    ensures Authentic(s.directories[key], key)
    ensures key in s.damaged || Complete(s.directories[key], key, s.integrity)
  {
  }

  lemma StepKeepsDisk(s: System, step: Step)
    requires Sound(s) && Enabled(s, step)
    ensures DiskOk(Apply(s, step).directories, Apply(s, step).damaged, Apply(s, step).integrity)
  {
    hide Sound, DiskOk, Enabled, Apply;
    SoundDisk(s);
    IntegrityUntouched(s, step);
    if !TouchesDisk(step) {
      DiskUntouched(s, step);
    } else if AboutWriter(step) {
      WriterKeepsDisk(s, step);
    } else {
      RemovalKeepsDisk(s, step);
    }
  }

  lemma SoundDisk(s: System)
    requires Sound(s)
    ensures DiskOk(s.directories, s.damaged, s.integrity)
  {
  }

  lemma WriterKeepsDisk(s: System, step: Step)
    requires Sound(s) && Enabled(s, step) && (step.Check? || step.PinDisk? || step.Receive?)
    ensures DiskOk(Apply(s, step).directories, s.damaged, s.integrity) && Apply(s, step).damaged == s.damaged
  {
    hide Sound, DiskOk, Enabled, Apply;
    match step {
      case Check(source) => CheckKeepsDisk(s, source);
      case PinDisk(source) => PinKeepsDisk(s, source);
      case Receive(source, verified, expires) => ReceiveKeepsDisk(s, source, verified, expires);
    }
  }

  lemma CheckKeepsDisk(s: System, source: SourceId)
    requires Sound(s) && Enabled(s, Check(source))
    ensures var after := Apply(s, Check(source));
            DiskOk(after.directories, s.damaged, s.integrity) && after.damaged == s.damaged
  {
    var x := s.holder.writers[source].s;
    CarriedSnapshot(s, source);
    SoundDisk(s);
    hide Sound, DiskOk, Complete, Authentic, Finished, Load, Describes;
    if x.key !in s.directories {
      FinishedIsDetermined(x, s.integrity);
      DirectorySound(s.directories, x.key, Finished(x), s.damaged, s.integrity);
    }
  }

  lemma PinKeepsDisk(s: System, source: SourceId)
    requires Sound(s) && Enabled(s, PinDisk(source))
    ensures var after := Apply(s, PinDisk(source));
            DiskOk(after.directories, s.damaged, s.integrity) && after.damaged == s.damaged
  {
    var e := s.holder.writers[source].e;
    SoundDisk(s);
    DirectoryFacts(s, e.key);
    hide Sound, DiskOk, Complete, Authentic, Pinned, Load, Describes;
    PinReadsBack(s.directories[e.key], e.key, e, s.integrity);
    DirectorySound(s.directories, e.key, Pinned(s.directories[e.key]), s.damaged, s.integrity);
  }

  lemma ReceiveKeepsDisk(s: System, source: SourceId, verified: Timestamp, expires: Timestamp)
    requires Sound(s) && Enabled(s, Receive(source, verified, expires))
    ensures var after := Apply(s, Receive(source, verified, expires));
            DiskOk(after.directories, s.damaged, s.integrity) && after.damaged == s.damaged
  {
    var e := s.holder.writers[source].e;
    var receipt := Receipt(e.key, verified, expires);
    SoundDisk(s);
    DirectoryFacts(s, e.key);
    hide Sound, DiskOk, Complete, Authentic, Observe, Load, Describes;
    ObserveReadsBack(s.directories[e.key], e.key, e, receipt, s.integrity);
    DirectorySound(s.directories, e.key, Observe(s.directories[e.key], receipt), s.damaged, s.integrity);
  }

  lemma RemovalKeepsDisk(s: System, step: Step)
    requires Sound(s) && Enabled(s, step) && (step.CleanDirectory? || step.Collect? || step.Damage?)
    ensures DiskOk(Apply(s, step).directories, Apply(s, step).damaged, s.integrity)
  {
    hide Complete, Authentic, RowsOk, PublicationOk, HistoryOk, Index.Valid, CarryingOk, ReferencesOk;
  }

  // ---------- recorded datasets ----------

  ghost predicate RecordsOk(s: System) {
    && DatasetsValid(s.tables.datasets)
    && ReferencesValid(s.tables)
    && HistoryOk(s.tables.datasets, s.files, s.history)
  }

  lemma StepKeepsRecords(s: System, step: Step)
    requires Sound(s) && Enabled(s, step)
    ensures RecordsOk(Apply(s, step))
  {
    hide Sound, RecordsOk, Enabled, Apply;
    SoundRecords(s);
    if !TouchesRecords(step) {
      RecordsUntouched(s, step);
      RecordsFrame(s, Apply(s, step));
    } else {
      match step {
        case Commit(payload) => CommitKeepsRecords(s, payload);
        case WriteFile => WriteFileKeepsRecords(s);
        case BeginDrop(id) => DropKeepsRecords(s, id);
        case FinishDrop => FinishDropKeepsRecords(s);
        case RepublishNext => RepublishKeepsRecords(s);
      }
    }
  }

  lemma SoundRecords(s: System)
    requires Sound(s)
    ensures RecordsOk(s)
  {
  }

  lemma RecordsFrame(s: System, after: System)
    requires RecordsOk(s) && SameRecords(s, after)
    ensures RecordsOk(after)
  {
  }

  lemma CommittedRecords(s: System, id: DatasetId, payload: Payload, history: set<Entry>)
    requires Sound(s) && CommitDataset(s.tables, id, payload).Success?
    requires s.history <= history <= s.history + {Entry(id, payload)} && Entry(id, payload) in history
    requires id == DatasetOf(payload)
    ensures Index.Valid(CommitDataset(s.tables, id, payload).value)
    ensures HistoryOk(CommitDataset(s.tables, id, payload).value.datasets, s.files, history)
  {
    hide Index.Valid, ReferencesValid, DatasetsValid, Activated, Referenced, RowsOk, DiskOk, PublicationOk, CarryingOk,
         ReferencesOk, DatasetOf;
    CommitIsWhole(s.tables, id, payload);
    var after := CommitDataset(s.tables, id, payload).value.datasets;
    forall d <- after ensures Entry(d.id, d.payload) in history {
      var i :| 0 <= i < |after| && after[i] == d;
      if i < |s.tables.datasets| {
        assert s.tables.datasets[i] in s.tables.datasets;
        assert d.id == s.tables.datasets[i].id && d.payload == s.tables.datasets[i].payload;
      }
    }
  }

  lemma CommitKeepsRecords(s: System, payload: Payload)
    requires Sound(s) && Enabled(s, Step.Commit(payload))
    ensures RecordsOk(Apply(s, Step.Commit(payload)))
  {
    hide Sound, HistoryOk, CommitDataset, DatasetsValid, ReferencesValid;
    CommittedRecords(s, DatasetOf(payload), payload, s.history + {Entry(DatasetOf(payload), payload)});
  }

  lemma RepublishKeepsRecords(s: System)
    requires Sound(s) && Enabled(s, RepublishNext)
    ensures RecordsOk(Apply(s, RepublishNext))
  {
    var e := s.holder.entries[0];
    EntryIsHistory(s);
    SoundRecords(s);
    hide Sound, HistoryOk, CommitDataset, DatasetsValid, ReferencesValid;
    if CommitDataset(s.tables, e.id, e.payload).Success? {
      CommittedRecords(s, e.id, e.payload, s.history);
    }
  }

  lemma WriteFileKeepsRecords(s: System)
    requires Sound(s) && Enabled(s, WriteFile)
    ensures RecordsOk(Apply(s, WriteFile))
  {
    hide RowsOk, DiskOk, PublicationOk, CarryingOk, ReferencesOk, RowsValid, ReferencesValid, DatasetsValid;
  }

  lemma DropKeepsRecords(s: System, id: DatasetId)
    requires Sound(s) && Enabled(s, BeginDrop(id))
    ensures RecordsOk(Apply(s, BeginDrop(id)))
  {
    DropReleasesOnly(s.tables, id);
    WithoutMembers(s.tables.datasets, id);
    hide RowsOk, DiskOk, PublicationOk, CarryingOk, ReferencesOk, RowsValid, ReferencesValid, DatasetsValid, Without;
  }

  lemma FinishDropKeepsRecords(s: System)
    requires Sound(s) && Enabled(s, FinishDrop)
    ensures RecordsOk(Apply(s, FinishDrop))
  {
    hide RowsOk, DiskOk, PublicationOk, CarryingOk, ReferencesOk, RowsValid, ReferencesValid, DatasetsValid;
  }

  // ---------- references and their rows ----------

  lemma StepKeepsReferences(s: System, step: Step)
    requires Sound(s) && Enabled(s, step)
    ensures var after := Apply(s, step); ReferencesOk(after.tables.references, after.tables.rows, after.unindexed)
  {
    hide Sound, ReferencesOk, Enabled, Apply;
    SoundReferences(s);
    if step.Commit? || step.RepublishNext? {
      PublicationKeepsReferences(s, step);
    } else if step.BeginDrop? {
      DropKeepsReferencesOk(s, step.id);
    } else {
      RecordsUntouchedButDrop(s, step);
      if TouchesRows(step) {
        RowsKeepReferences(s, step);
      } else {
        RowsUntouched(s, step);
        UnindexedUntouched(s, step);
      }
    }
  }

  lemma SoundReferences(s: System)
    requires Sound(s)
    ensures ReferencesOk(s.tables.references, s.tables.rows, s.unindexed)
  {
  }

  lemma RecordsUntouchedButDrop(s: System, step: Step)
    requires Enabled(s, step) && !step.Commit? && !step.RepublishNext? && !step.BeginDrop?
    ensures Apply(s, step).tables.references == s.tables.references
  {
    if !TouchesRecords(step) {
      hide Enabled, Apply;
      RecordsUntouched(s, step);
    }
  }

  lemma UnindexedUntouched(s: System, step: Step)
    requires Enabled(s, step) && !TouchesRows(step)
    ensures Apply(s, step).unindexed == s.unindexed
  {
    hide Usable, Read, Sealable, Pinned, Observe, Finished, Without, Filed, Republishable, Validates;
  }

  lemma RowsKeepReferences(s: System, step: Step)
    requires Sound(s) && Enabled(s, step) && TouchesRows(step) && !step.Commit? && !step.RepublishNext?
    requires Apply(s, step).tables.references == s.tables.references
    ensures var after := Apply(s, step); ReferencesOk(after.tables.references, after.tables.rows, after.unindexed)
  {
    hide Sound, Enabled, Apply, ReferencesOk;
    match step {
      case RecordRow(source) => RecordRowKeepsReferences(s, source);
      case RecordNext => RecordNextKeepsReferences(s);
      case PinRow(source) => PinRowKeepsReferences(s, source);
      case Mark(key) => MarkKeepsReferences(s, key);
      case ActivateNext => ActivateNextKeepsReferences(s);
      case Collect(gone) => CollectKeepsReferences(s, gone);
      case CleanRow => CleanRowKeepsReferences(s);
      case BeginRebuild(listing) => BeginRebuildKeepsReferences(s, listing);
    }
  }

  lemma RecordedReferences(
    references: map<(DatasetId, SourceId), SnapshotKey>, rows: Rows, unindexed: set<SnapshotKey>, e: Snapshot)
    requires ReferencesOk(references, rows, unindexed)
    ensures ReferencesOk(references, Record(rows, e, Inside(e.key)), unindexed - {e.key})
  {
  }

  /** What matters of the rows is which there are. */
  lemma SameKeysKeepReferences(
    references: map<(DatasetId, SourceId), SnapshotKey>, rows: Rows, after: Rows, unindexed: set<SnapshotKey>)
    requires ReferencesOk(references, rows, unindexed) && after.Keys == rows.Keys
    ensures ReferencesOk(references, after, unindexed)
  {
    assert forall k :: k in rows.Keys <==> k in after.Keys;
  }

  lemma RecordRowKeepsReferences(s: System, source: SourceId)
    requires Sound(s) && Enabled(s, RecordRow(source))
    ensures var after := Apply(s, RecordRow(source));
            ReferencesOk(s.tables.references, after.tables.rows, after.unindexed)
  {
    SoundReferences(s);
    hide Sound, Record, ReferencesOk;
    RecordedReferences(s.tables.references, s.tables.rows, s.unindexed, s.holder.writers[source].e);
  }

  lemma RecordNextKeepsReferences(s: System)
    requires Sound(s) && Enabled(s, RecordNext)
    ensures var after := Apply(s, RecordNext);
            ReferencesOk(s.tables.references, after.tables.rows, after.unindexed)
  {
    SoundReferences(s);
    hide Sound, Record, ReferencesOk, Read;
    var found := Read(At(s.directories, s.holder.listing[0]), s.integrity);
    if found.Some? {
      RecordedReferences(s.tables.references, s.tables.rows, s.unindexed, found.value);
    }
  }

  lemma PinRowKeepsReferences(s: System, source: SourceId)
    requires Sound(s) && Enabled(s, PinRow(source))
    ensures var after := Apply(s, PinRow(source));
            ReferencesOk(s.tables.references, after.tables.rows, after.unindexed)
  {
    SoundReferences(s);
    var rows := SetPinned(s.tables.rows, s.holder.writers[source].e.key);
    assert rows.Keys == s.tables.rows.Keys;
    hide Sound, ReferencesOk, SetPinned;
    SameKeysKeepReferences(s.tables.references, s.tables.rows, rows, s.unindexed);
  }

  lemma MarkKeepsReferences(s: System, key: SnapshotKey)
    requires Sound(s) && Enabled(s, Mark(key))
    ensures var after := Apply(s, Mark(key));
            ReferencesOk(s.tables.references, after.tables.rows, after.unindexed)
  {
    SoundReferences(s);
    var rows := MarkCorrupt(s.tables.rows, key);
    assert rows.Keys == s.tables.rows.Keys;
    hide Sound, ReferencesOk, MarkCorrupt, Usable;
    SameKeysKeepReferences(s.tables.references, s.tables.rows, rows, s.unindexed);
  }

  lemma ActivateNextKeepsReferences(s: System)
    requires Sound(s) && Enabled(s, ActivateNext)
    ensures var after := Apply(s, ActivateNext);
            ReferencesOk(s.tables.references, after.tables.rows, after.unindexed)
  {
    var e := s.holder.rest[0];
    SoundReferences(s);
    ActivationKeepsRows(s.tables.rows, map[e.Source() := e.key]);
    hide Sound, ReferencesOk, Activated;
    SameKeysKeepReferences(s.tables.references, s.tables.rows,
                           Activated(s.tables.rows, map[e.Source() := e.key]), s.unindexed);
  }

  lemma CollectKeepsReferences(s: System, gone: set<SnapshotKey>)
    requires Sound(s) && Enabled(s, Collect(gone))
    ensures var after := Apply(s, Collect(gone));
            ReferencesOk(s.tables.references, after.tables.rows, after.unindexed)
  {
    SoundReferences(s);
    hide Sound;
    var after := Apply(s, Collect(gone));
    assert after.tables.rows == s.tables.rows - gone && after.unindexed == s.unindexed;
    forall k <- gone ensures k !in s.tables.references.Values {
      assert Unprotected(s.tables, k);
    }
    hide Enabled, Apply;
  }

  lemma CleanRowKeepsReferences(s: System)
    requires Sound(s) && Enabled(s, CleanRow)
    ensures var after := Apply(s, CleanRow);
            ReferencesOk(s.tables.references, after.tables.rows, after.unindexed)
  {
    SoundReferences(s);
    assert CarryingOk(s.holder, s.tables.references, s.history, s.integrity);
    hide Sound;
  }

  lemma BeginRebuildKeepsReferences(s: System, listing: seq<SnapshotKey>)
    requires Sound(s) && Enabled(s, BeginRebuild(listing))
    ensures var after := Apply(s, BeginRebuild(listing));
            ReferencesOk(s.tables.references, after.tables.rows, after.unindexed)
  {
    SoundReferences(s);
    hide Sound;
    var after := Apply(s, BeginRebuild(listing));
    assert after.tables.rows == map[] && after.unindexed == s.unindexed + s.tables.rows.Keys;
    hide Enabled, Apply;
  }

  /** The references a commit adds are rows of the index, and what its identity says. */
  lemma CommittedReferences(t: Tables, unindexed: set<SnapshotKey>, id: DatasetId, payload: Payload)
    requires ReferencesOk(t.references, t.rows, unindexed) && CommitDataset(t, id, payload).Success?
    requires id == DatasetOf(payload)
    ensures var after := CommitDataset(t, id, payload).value; ReferencesOk(after.references, after.rows, unindexed)
  {
    var after := CommitDataset(t, id, payload).value;
    assert AllActivatable(t.rows, payload.snapshots);
    ActivationKeepsRows(t.rows, payload.snapshots);
    SameKeysKeepReferences(t.references, t.rows, after.rows, unindexed);
    hide Activated, Published, Activatable;
    forall r <- after.references
      ensures r.1 in r.0.snapshots && after.references[r] == r.0.snapshots[r.1]
      ensures after.references[r] in after.rows || after.references[r] in unindexed
    {
      if r in t.references {
        assert t.references[r] in t.references.Values;
      } else {
        MemberIsRow(t.rows, payload.snapshots, r.1);
        assert after.references[r] in after.rows.Keys;
      }
    }
  }

  lemma MemberIsRow(rows: Rows, members: map<SourceId, SnapshotKey>, source: SourceId)
    requires AllActivatable(rows, members) && source in members
    ensures members[source] in rows
  {
    assert Activatable(rows, source, members[source]);
  }

  lemma PublicationKeepsReferences(s: System, step: Step)
    requires Sound(s) && Enabled(s, step) && (step.Commit? || step.RepublishNext?)
    ensures var after := Apply(s, step); ReferencesOk(after.tables.references, after.tables.rows, after.unindexed)
  {
    SoundReferences(s);
    hide Sound, CommitDataset, ReferencesOk;
    if step.Commit? {
      CommittedReferences(s.tables, s.unindexed, DatasetOf(step.payload), step.payload);
    } else {
      var e := s.holder.entries[0];
      EntryIsHistory(s);
      if CommitDataset(s.tables, e.id, e.payload).Success? {
        CommittedReferences(s.tables, s.unindexed, e.id, e.payload);
      }
    }
  }

  lemma DropKeepsReferencesOk(s: System, id: DatasetId)
    requires Sound(s) && Enabled(s, BeginDrop(id))
    ensures var after := Apply(s, BeginDrop(id));
            ReferencesOk(after.tables.references, after.tables.rows, after.unindexed)
  {
    SoundReferences(s);
    hide Sound, Without, Knows;
    assert Apply(s, BeginDrop(id)).tables == DeleteDataset(s.tables, id);
    assert Apply(s, BeginDrop(id)).unindexed == s.unindexed;
    hide Enabled, Apply;
    var after := DeleteDataset(s.tables, id).references;
    forall k <- after.Values ensures k in s.tables.references.Values {
      var r :| r in after && after[r] == k;
      assert s.tables.references[r] == k;
    }
  }

  // ---------- what the lock holder carries ----------

  ghost predicate SameOthers(source: SourceId, writers: map<SourceId, Writer>, after: map<SourceId, Writer>) {
    && (forall other :: other != source ==> (other in after <==> other in writers))
    && (forall other <- writers :: other != source ==> after[other] == writers[other])
  }

  lemma OneWriterChanges(source: SourceId, writers: map<SourceId, Writer>, w: Writer)
    ensures SameOthers(source, writers, writers[source := w])
    ensures SameOthers(source, writers, writers - {source})
  {
  }

  ghost predicate CarriesSoundly(s: System) {
    CarryingOk(s.holder, s.tables.references, s.history, s.integrity)
  }

  /** A writer's step changes that writer only; it is done once it records or holds its snapshot. */
  lemma WriterStepChangesOne(s: System, step: Step)
    requires Enabled(s, step) && AboutWriter(step)
    ensures s.holder.Running? && Apply(s, step).holder.Running? && Apply(s, step).holder.plan == s.holder.plan
    ensures SameOthers(step.source, s.holder.writers, Apply(s, step).holder.writers)
    ensures Apply(s, step).holder.failed == s.holder.failed + (if step.Abandon? then {step.source} else {})
    ensures Apply(s, step).holder.held
         == if step.RecordRow? || step.Hold? then s.holder.held[step.source := s.holder.writers[step.source].e]
            else s.holder.held
  {
    hide Enabled, Apply;
    if step.RecordRow? || step.Hold? || step.Abandon? {
      WriterEnds(s, step);
    } else {
      WriterGoesOnWith(s, step);
    }
  }

  lemma WriterGoesOnWith(s: System, step: Step)
    requires Enabled(s, step) && AboutWriter(step) && !step.RecordRow? && !step.Hold? && !step.Abandon?
    ensures s.holder.Running? && Apply(s, step).holder.Running?
    ensures step.source in Apply(s, step).holder.writers
    ensures Apply(s, step).holder == s.holder.(writers :=
              s.holder.writers[step.source := Apply(s, step).holder.writers[step.source]])
  {
    hide Usable, Read, Sealable, Pinned, Observe, Finished, SetPinned, Validates;
  }

  lemma WriterEnds(s: System, step: Step)
    requires Enabled(s, step) && (step.RecordRow? || step.Hold? || step.Abandon?)
    ensures s.holder.Running? && Apply(s, step).holder.Running? && Apply(s, step).holder.plan == s.holder.plan
    ensures Apply(s, step).holder.writers == s.holder.writers - {step.source}
    ensures Apply(s, step).holder.failed == s.holder.failed + (if step.Abandon? then {step.source} else {})
    ensures Apply(s, step).holder.held
         == if step.RecordRow? || step.Hold? then s.holder.held[step.source := s.holder.writers[step.source].e]
            else s.holder.held
  {
    hide Record;
  }

  /** A pin and a receipt are no part of what identifies a snapshot. */
  lemma DescribedStill(w: Writer, integrity: Integrity)
    requires CarriedOk(w, integrity)
    ensures w.Sealed? || w.Found? ==> Describes(w.s, w.s.key)
    ensures !w.Sealed? && !w.Found? ==> Describes(w.e, w.e.key)
    ensures w.Loaded? ==>
              && Describes(w.e.(pinned := true), w.e.key)
              && forall verified, expires ::
                   Describes(w.e.(verified := Some(verified), expires := Some(expires)), w.e.key)
  {
    hide Complete, Load;
  }

  lemma WriterStepCarries(s: System, step: Step)
    requires Sound(s) && Enabled(s, step) && AboutWriter(step)
    requires step.source in Apply(s, step).holder.writers
    ensures var w := Apply(s, step).holder.writers[step.source];
            Source(WriterKey(w)) == step.source && CarriedOk(w, s.integrity)
  {
    hide Enabled, Apply, Sound;
    match step {
      case StartWrite(source, snapshot) => StartCarries(s, source, snapshot);
      case Reuse(source, key) => ReuseCarries(s, source, key);
      case LoadExisting(source) => LoadCarries(s, source);
      case Check(source) => CheckCarries(s, source);
      case Validate(source) => ValidateCarries(s, source);
      case Receive(_, _, _) => ReceiveCarries(s, step);
      case PinDisk(source) => PinDiskCarries(s, source);
      case PinRow(source) => PinRowCarries(s, source);
      case _ => WriterLeaves(s, step);
    }
  }

  lemma StartCarries(s: System, source: SourceId, snapshot: Snapshot)
    requires Enabled(s, StartWrite(source, snapshot))
    ensures var w := Apply(s, StartWrite(source, snapshot)).holder.writers[source];
            Source(WriterKey(w)) == source && CarriedOk(w, s.integrity)
  {
    hide Sealable;
  }

  lemma ReuseCarries(s: System, source: SourceId, key: SnapshotKey)
    requires Sound(s) && Enabled(s, Step.Reuse(source, key))
    ensures var w := Apply(s, Step.Reuse(source, key)).holder.writers[source];
            Source(WriterKey(w)) == source && CarriedOk(w, s.integrity)
  {
    UsableIsRead(s, key);
    ReadIsDescribed(s, key);
    hide Sound, Usable, Read, Describes, Load;
  }

  lemma LoadCarries(s: System, source: SourceId)
    requires Sound(s) && Enabled(s, LoadExisting(source))
    ensures var w := Apply(s, LoadExisting(source)).holder.writers[source];
            Source(WriterKey(w)) == source && CarriedOk(w, s.integrity)
  {
    CarriedSnapshot(s, source);
    ReadIsDescribed(s, s.holder.writers[source].s.key);
    hide Sound, Read, Describes, Load, Sealable;
  }

  lemma CheckCarries(s: System, source: SourceId)
    requires Sound(s) && Enabled(s, Check(source))
    ensures var w := Apply(s, Check(source)).holder.writers[source];
            Source(WriterKey(w)) == source && CarriedOk(w, s.integrity)
  {
    CarriedSnapshot(s, source);
    hide Sound, Finished, Sealable;
  }

  lemma ValidateCarries(s: System, source: SourceId)
    requires Sound(s) && Enabled(s, Validate(source))
    ensures var w := Apply(s, Validate(source)).holder.writers[source];
            Source(WriterKey(w)) == source && CarriedOk(w, s.integrity)
  {
    CarriedSnapshot(s, source);
    DescribedStill(s.holder.writers[source], s.integrity);
    hide Sound, Validates, Describes, Sealable;
  }

  lemma PinDiskCarries(s: System, source: SourceId)
    requires Sound(s) && Enabled(s, PinDisk(source))
    ensures var w := Apply(s, PinDisk(source)).holder.writers[source];
            Source(WriterKey(w)) == source && CarriedOk(w, s.integrity)
  {
    CarriedSnapshot(s, source);
    DescribedStill(s.holder.writers[source], s.integrity);
    hide Sound, Pinned, Describes;
  }

  lemma StillCarried(w: Writer, integrity: Integrity)
    requires w.PinnedOnDisk? && CarriedOk(w, integrity)
    ensures CarriedOk(Loaded(w.e, w.refreshing), integrity)
  {
  }

  lemma PinRowCarries(s: System, source: SourceId)
    requires Sound(s) && Enabled(s, PinRow(source))
    ensures var w := Apply(s, PinRow(source)).holder.writers[source];
            Source(WriterKey(w)) == source && CarriedOk(w, s.integrity)
  {
    var w := s.holder.writers[source];
    hide Sound, SetPinned, CarriedOk;
    assert Apply(s, PinRow(source)).holder.writers[source] == Loaded(w.e, w.refreshing);
    CarriedSnapshot(s, source);
    StillCarried(w, s.integrity);
    hide Enabled, Apply;
  }

  lemma ReceiveCarries(s: System, step: Step)
    requires Sound(s) && Enabled(s, step) && step.Receive?
    ensures var w := Apply(s, step).holder.writers[step.source];
            Source(WriterKey(w)) == step.source && CarriedOk(w, s.integrity)
  {
    CarriedSnapshot(s, step.source);
    DescribedStill(s.holder.writers[step.source], s.integrity);
    hide Sound, Observe, Sealable, Describes;
  }

  lemma WriterLeaves(s: System, step: Step)
    requires Enabled(s, step) && (step.RecordRow? || step.Hold? || step.Abandon?)
    ensures step.source !in Apply(s, step).holder.writers
  {
    hide Record;
  }

  lemma StepKeepsCarrying(s: System, step: Step)
    requires Sound(s) && Enabled(s, step)
    ensures CarriesSoundly(Apply(s, step))
  {
    IntegrityUntouched(s, step);
    HistoryGrows(s, step);
    if AboutWriter(step) {
      WriterStepChangesOne(s, step);
      if step.source in Apply(s, step).holder.writers {
        WriterStepCarries(s, step);
      }
      OthersCarry(s, step);
    } else if step.RecordNext? {
      RecordNextCarries(s);
    } else {
      OtherStepCarries(s, step);
    }
  }

  lemma OthersCarry(s: System, step: Step)
    requires Sound(s) && s.holder.Running? && AboutWriter(step) && Enabled(s, step)
    requires Apply(s, step).holder.Running? && Apply(s, step).integrity == s.integrity
    requires SameOthers(step.source, s.holder.writers, Apply(s, step).holder.writers)
    requires Apply(s, step).holder.held
          == if step.RecordRow? || step.Hold? then s.holder.held[step.source := s.holder.writers[step.source].e]
             else s.holder.held
    requires step.source in Apply(s, step).holder.writers ==>
               var w := Apply(s, step).holder.writers[step.source];
               Source(WriterKey(w)) == step.source && CarriedOk(w, s.integrity)
    ensures CarriesSoundly(Apply(s, step))
  {
    hide Sound, Enabled, Apply, CarriedOk, Describes;
    var after := Apply(s, step);
    WriterComesOrGoes(s, step);
    SoundCarries(s);
    if step.RecordRow? || step.Hold? {
      CarriedSnapshot(s, step.source);
      HeldIsDescribed(s, step);
    }
    forall source <- after.holder.writers
      ensures Source(WriterKey(after.holder.writers[source])) == source
      ensures CarriedOk(after.holder.writers[source], s.integrity)
    {
      if source != step.source {
        assert after.holder.writers[source] == s.holder.writers[source];
      }
    }
  }

  lemma SoundCarries(s: System)
    requires Sound(s)
    ensures CarriesSoundly(s)
  {
  }

  /** A capture that has ended has left the writers, and one that starts has no snapshot yet. */
  lemma WriterComesOrGoes(s: System, step: Step)
    requires Enabled(s, step) && AboutWriter(step)
    ensures s.holder.Running? && Apply(s, step).holder.Running?
    ensures step.RecordRow? || step.Hold? ==>
              step.source in s.holder.writers && step.source !in Apply(s, step).holder.writers
    ensures step.source in Apply(s, step).holder.writers ==>
              step.source in s.holder.writers || step.source !in s.holder.held
  {
    hide Usable, Read, Sealable, Pinned, Observe, Finished, Record, SetPinned, Validates;
  }

  lemma HeldIsDescribed(s: System, step: Step)
    requires Enabled(s, step) && (step.RecordRow? || step.Hold?)
    requires CarriedOk(s.holder.writers[step.source], s.integrity)
    ensures var e := s.holder.writers[step.source].e;
            Describes(e, e.key) && WriterKey(s.holder.writers[step.source]) == e.key
  {
    hide Describes, Sealable;
  }

  lemma RecordNextCarries(s: System)
    requires Sound(s) && Enabled(s, RecordNext)
    ensures CarriesSoundly(Apply(s, RecordNext))
  {
    ReadIsDescribed(s, s.holder.listing[0]);
    hide Read, Describes, Record, RowsOk, DiskOk, PublicationOk, HistoryOk, Index.Valid, ReferencesOk;
  }

  lemma OtherStepCarries(s: System, step: Step)
    requires Sound(s) && Enabled(s, step) && !AboutWriter(step) && !step.RecordNext?
    ensures CarriesSoundly(Apply(s, step))
  {
    hide RowsOk, DiskOk, PublicationOk, Index.Valid, CarriedOk, Describes, Usable, Authentic;
    hide CommitDataset, DeleteDataset, Filed, Activated;
    if step.BeginRepublish? {
      forall e <- step.entries ensures e in s.history {
        assert Republishable(s, e);
      }
    }
  }

  // ---------- all of it ----------

  /** Every step of the workspace keeps what does not depend on when a collection comes. */
  lemma StepKeepsSound(s: System, step: Step)
    requires Sound(s) && Enabled(s, step)
    ensures Sound(Apply(s, step))
  {
    hide Enabled, Apply, Sound, RowsSound, DiskOk, RecordsOk, CarriesSoundly, ReferencesOk;
    StepKeepsRows(s, step);
    StepKeepsDisk(s, step);
    StepKeepsRecords(s, step);
    StepKeepsReferences(s, step);
    StepKeepsCarrying(s, step);
    SoundFolds(Apply(s, step));
  }

  lemma SoundFolds(s: System)
    requires RowsSound(s.tables.rows, s.history) && DiskOk(s.directories, s.damaged, s.integrity)
    requires RecordsOk(s) && CarriesSoundly(s)
    requires ReferencesOk(s.tables.references, s.tables.rows, s.unindexed)
    ensures Sound(s)
  {
  }
}
