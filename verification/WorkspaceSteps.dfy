/**
 Frozen inputs and the refinement of the disk by the index, step by step: one lemma for each effect,
 then one for each step.
 */
module WorkspaceSteps {
  import opened Outcomes
  import opened Identity
  import opened Snapshots
  import opened Index
  import opened Store
  import opened Recovery
  import opened Workspace
  import opened WorkspaceSound

  // ---------- effects on rows and directories ----------

  /** What references, rows and directories have to do with each other. */
  ghost predicate Core(s: System) {
    && FrozenOk(s.tables.references, s.directories, Excused(s))
    && RefinesOk(s.tables.rows, s.directories, s.stale, Excused(s))
  }

  lemma CoreFrame(s: System, after: System)
    requires after.tables.rows == s.tables.rows && after.tables.references == s.tables.references
    requires after.directories == s.directories && Excused(after) == Excused(s) && after.stale == s.stale
    ensures Core(s) ==> Core(after)
  {
  }

  lemma RecordEffect(s: System, e: Snapshot)
    requires Core(s) && RowsOk(s.tables.rows) && Describes(e, e.key)
    requires e.key in Excused(s) || (e.key in s.directories && Load(s.directories[e.key]) == Success(e))
    ensures Core(WithRows(s, Record(s.tables.rows, e, Inside(e.key)))
                   .(stale := s.stale - {e.key}, unindexed := s.unindexed - {e.key}))
  {
    RecordedRefines(s.tables.rows, e, s.directories, s.stale, Excused(s));
    hide Load, Describes, RowsOk, RefinesOk, Record;
  }

  lemma RecordedRefines(
    rows: Rows, e: Snapshot, directories: Directories, stale: set<SnapshotKey>, excused: set<SnapshotKey>)
    requires RefinesOk(rows, directories, stale, excused) && RowsOk(rows) && Describes(e, e.key)
    requires e.key in excused || (e.key in directories && Load(directories[e.key]) == Success(e))
    ensures RefinesOk(Record(rows, e, Inside(e.key)), directories, stale - {e.key}, excused)
  {
    var after := Record(rows, e, Inside(e.key));
    assert e.key in directories && e.key !in excused ==> RowMatches(e.key, after[e.key], directories);
    hide Load, RowMatches, Describes;
    forall k <- after | k !in stale - {e.key} ensures InStep(k, after, directories, excused) {
      assert k != e.key ==> after[k] == rows[k] && InStep(k, rows, directories, excused);
    }
  }

  /** A directory may change ahead of its row, which is stale from then on; one that is new is not taken any more. */
  lemma DirectoryEffect(s: System, key: SnapshotKey, d: Directory, taken: set<SnapshotKey>)
    requires Core(s) && s.taken - {key} <= taken <= s.taken
    ensures Core(WithDirectory(s, key, d).(taken := taken))
  {
    hide Load, Agrees;
  }

  lemma RemovalEffect(s: System, gone: set<SnapshotKey>, taken: set<SnapshotKey>)
    requires Core(s) && gone !! s.tables.references.Values && s.taken <= taken
    ensures Core(WithRows(s, s.tables.rows - gone)
                   .(directories := s.directories - gone, stale := s.stale - gone, taken := taken))
  {
    hide Load, Agrees;
  }

  lemma MarkEffect(s: System, key: SnapshotKey)
    requires Core(s)
    ensures Core(WithRows(s, MarkCorrupt(s.tables.rows, key)))
  {
    hide RowMatches;
    var after := MarkCorrupt(s.tables.rows, key);
    forall k <- after | k !in s.stale ensures InStep(k, after, s.directories, Excused(s)) {
      assert InStep(k, s.tables.rows, s.directories, Excused(s));
    }
  }

  /** Pinning a row keeps every row in step, provided the pinned one is in step afterwards. */
  lemma PinEffect(s: System, key: SnapshotKey, stale: set<SnapshotKey>)
    requires Core(s) && s.stale - {key} <= stale
    requires key in s.tables.rows && s.tables.rows[key].state == Committed && key !in stale && key !in Excused(s) ==>
               RowMatches(key, s.tables.rows[key].(pinned := true), s.directories)
    ensures Core(WithRows(s, SetPinned(s.tables.rows, key)).(stale := stale))
  {
    hide RowMatches;
    var after := SetPinned(s.tables.rows, key);
    forall k <- after | k !in stale ensures InStep(k, after, s.directories, Excused(s)) {
      assert k != key ==> InStep(k, s.tables.rows, s.directories, Excused(s));
    }
  }

  lemma ActivationEffect(s: System, members: map<SourceId, SnapshotKey>)
    requires Core(s)
    ensures Core(WithRows(s, Activated(s.tables.rows, members)))
  {
    hide Load, Displaced;
    var after := Activated(s.tables.rows, members);
    forall k <- after | k !in s.stale ensures InStep(k, after, s.directories, Excused(s)) {
      assert InStep(k, s.tables.rows, s.directories, Excused(s));
    }
  }

  /** The references a commit adds have their directories. */
  lemma ReferenceEffect(s: System, id: DatasetId, payload: Payload)
    requires Core(s) && forall k <- payload.snapshots.Values :: Backed(k, s.directories, Excused(s))
    ensures Core(s.(tables := s.tables.(references := Referenced(s.tables.references, id, payload))))
  {
    hide RefinesOk, Backed;
    var after := Referenced(s.tables.references, id, payload);
    forall k <- after.Values ensures Backed(k, s.directories, Excused(s)) {
      var r :| r in after && after[r] == k;
      if r in s.tables.references {
        assert k in s.tables.references.Values;
      } else {
        assert payload.snapshots[r.1] == k;
        assert k in payload.snapshots.Values;
      }
    }
  }

  lemma DropEffect(s: System, id: DatasetId)
    requires Core(s)
    ensures Core(s.(tables := DeleteDataset(s.tables, id)))
  {
    hide RefinesOk;
    var after := DeleteDataset(s.tables, id).references;
    forall k <- after.Values ensures k in s.tables.references.Values {
      var r :| r in after && after[r] == k;
      assert s.tables.references[r] == k;
    }
  }

  // ---------- the writers of a run ----------

  ghost predicate TouchesOnly(key: SnapshotKey, s: System, after: System) {
    && (forall k :: k != key ==> (k in Excused(after) <==> k in Excused(s)))
    && (forall k :: k != key ==> (k in after.stale <==> k in s.stale))
    && (forall k :: k != key ==> (k in after.tables.rows <==> k in s.tables.rows))
    && (forall k <- s.tables.rows :: k != key ==> after.tables.rows[k] == s.tables.rows[k])
    && (forall k :: k != key ==> (k in after.directories <==> k in s.directories))
    && (forall k <- s.directories :: k != key ==> after.directories[k] == s.directories[k])
  }

  ghost predicate OnlyHolderDiffers(s: System, after: System) {
    after.(holder := s.holder) == s
  }

  lemma DirectoryTouches(s: System, paused: System, key: SnapshotKey, d: Directory, taken: set<SnapshotKey>)
    requires OnlyHolderDiffers(s, paused) && s.taken - {key} <= taken <= s.taken
    ensures TouchesOnly(key, s, WithDirectory(paused, key, d).(taken := taken))
    ensures key in WithDirectory(paused, key, d).directories
  {
  }

  lemma NothingTouches(s: System, after: System, key: SnapshotKey)
    requires OnlyHolderDiffers(s, after)
    ensures TouchesOnly(key, s, after)
  {
  }

  lemma RowTouches(
    s: System, paused: System, key: SnapshotKey, rows: Rows, stale: set<SnapshotKey>, unindexed: set<SnapshotKey>)
    requires OnlyHolderDiffers(s, paused)
    requires rows.Keys - {key} == s.tables.rows.Keys - {key}
    requires forall k <- s.tables.rows :: k != key ==> k in rows && rows[k] == s.tables.rows[k]
    requires s.stale - {key} <= stale <= s.stale
    ensures TouchesOnly(key, s, WithRows(paused, rows).(stale := stale, unindexed := unindexed))
  {
    forall k | k != key ensures k in rows <==> k in s.tables.rows {
      assert k in rows.Keys - {key} <==> k in s.tables.rows.Keys - {key};
    }
  }

  lemma WriterFrame(w: Writer, key: SnapshotKey, s: System, after: System)
    requires TouchesOnly(key, s, after) && WriterKey(w) != key
    requires WriterOk(w, s.tables.rows, s.directories, s.stale, Excused(s))
    ensures WriterOk(w, after.tables.rows, after.directories, after.stale, Excused(after))
  {
    hide Load, Agrees;
  }

  /** A step of one writer leaves the others, which work under other keys, as they were. */
  lemma RunFrame(s: System, after: System, source: SourceId, key: SnapshotKey)
    requires Sound(s) && s.holder.Running? && after.holder.Running? && HolderOk(s)
    requires Source(key) == source && TouchesOnly(key, s, after)
    requires SameOthers(source, s.holder.writers, after.holder.writers)
    requires source in after.holder.writers ==>
               WriterOk(after.holder.writers[source], after.tables.rows, after.directories, after.stale, Excused(after))
    requires forall other <- after.holder.held ::
               || (other in s.holder.held && after.holder.held[other] == s.holder.held[other])
               || after.holder.held[other].key == key
    requires forall other <- after.holder.held :: after.holder.held[other].key == key ==>
               key in after.tables.rows ==> Backed(key, after.directories, Excused(after))
    ensures HolderOk(after)
  {
    hide WriterOk, Sound;
    forall other <- after.holder.writers
      ensures WriterOk(after.holder.writers[other], after.tables.rows, after.directories, after.stale, Excused(after))
    {
      if other != source {
        CarriedSnapshot(s, other);
        WriterFrame(s.holder.writers[other], key, s, after);
      }
    }
    forall other <- after.holder.held
      ensures var k := after.holder.held[other].key;
              k in after.tables.rows ==> Backed(k, after.directories, Excused(after))
    {
    }
  }

  /** What the invariant says about one writer. */
  lemma WriterFacts(s: System, source: SourceId)
    requires Sound(s) && HolderOk(s) && Writing(s, source)
    ensures var w := s.holder.writers[source];
            && Source(WriterKey(w)) == source
            && CarriedOk(w, s.integrity)
            && WriterOk(w, s.tables.rows, s.directories, s.stale, Excused(s))
  {
    CarriedSnapshot(s, source);
    hide Sound;
  }

  lemma HeldFacts(s: System)
    requires HolderOk(s) && s.holder.Running?
    ensures forall source <- s.holder.held :: s.holder.held[source].key in s.tables.rows ==>
              Backed(s.holder.held[source].key, s.directories, Excused(s))
  {
  }

  lemma RowFacts(s: System, key: SnapshotKey)
    requires Core(s) && key in s.tables.rows && key !in s.stale
    ensures InStep(key, s.tables.rows, s.directories, Excused(s))
  {
  }

  lemma CheckKeeps(s: System, source: SourceId)
    requires Sound(s) && Core(s) && HolderOk(s) && Enabled(s, Check(source))
    ensures Core(Apply(s, Check(source))) && HolderOk(Apply(s, Check(source)))
  {
    hide Sound, Core, HolderOk, Sealable, Finished;
    var w, after := s.holder.writers[source], Apply(s, Check(source));
    if w.s.key in s.directories {
      CoreFrame(s, after);
      FoundKeeps(s, source, w.s);
    } else {
      InstallKeeps(s, source, w.s);
    }
  }

  lemma FoundKeeps(s: System, source: SourceId, snapshot: Snapshot)
    requires Sound(s) && HolderOk(s) && Writing(s, source) && s.holder.writers[source] == Sealed(snapshot)
    ensures HolderOk(SetWriter(s, source, Found(snapshot)))
  {
    WriterFacts(s, source);
    HeldFacts(s);
    hide Sound, HolderOk, Load, Describes, Sealable, TouchesOnly, SameOthers;
    NothingTouches(s, SetWriter(s, source, Found(snapshot)), snapshot.key);
    OneWriterChanges(source, s.holder.writers, Found(snapshot));
    RunFrame(s, SetWriter(s, source, Found(snapshot)), source, snapshot.key);
  }

  lemma InstallKeeps(s: System, source: SourceId, snapshot: Snapshot)
    requires Sound(s) && Core(s) && HolderOk(s) && Writing(s, source) && s.holder.writers[source] == Sealed(snapshot)
    ensures var after := WithDirectory(SetWriter(s, source, Installed(snapshot)), snapshot.key, Finished(snapshot))
                           .(taken := s.taken - {snapshot.key});
            Core(after) && HolderOk(after)
  {
    CarriedSnapshot(s, source);
    HeldFacts(s);
    InstalledWriterIsOk(s, snapshot, s.damaged + (s.taken - {snapshot.key}));
    var paused := SetWriter(s, source, Installed(snapshot));
    hide Sound, Core, HolderOk, Load, Describes, Complete, Finished, TouchesOnly, SameOthers, WriterOk, Sealable;
    CoreFrame(s, paused);
    var after := WithDirectory(paused, snapshot.key, Finished(snapshot)).(taken := s.taken - {snapshot.key});
    DirectoryEffect(paused, snapshot.key, Finished(snapshot), s.taken - {snapshot.key});
    DirectoryTouches(s, paused, snapshot.key, Finished(snapshot), s.taken - {snapshot.key});
    OneWriterChanges(source, s.holder.writers, Installed(snapshot));
    RunFrame(s, after, source, snapshot.key);
  }

  lemma InstalledWriterIsOk(s: System, snapshot: Snapshot, excused: set<SnapshotKey>)
    requires Sealable(snapshot, s.integrity)
    ensures WriterOk(Installed(snapshot), s.tables.rows, s.directories[snapshot.key := Finished(snapshot)],
                     s.stale + {snapshot.key}, excused)
  {
    hide Describes, Complete, Load, Finished;
  }

  lemma ValidateKeeps(s: System, source: SourceId)
    requires Sound(s) && Core(s) && HolderOk(s) && Enabled(s, Validate(source))
    ensures Core(Apply(s, Validate(source))) && HolderOk(Apply(s, Validate(source)))
  {
    hide Sound, Core, HolderOk, Describes, Validates, Load, TouchesOnly, SameOthers;
    var w, after := s.holder.writers[source], Apply(s, Validate(source));
    assert after == SetWriter(s, source, Unrecorded(w.e)) && w.Installed? && w.e.key in s.directories;
    hide Enabled, Apply;
    WriterFacts(s, source);
    HeldFacts(s);
    CoreFrame(s, after);
    NothingTouches(s, after, w.e.key);
    OneWriterChanges(source, s.holder.writers, after.holder.writers[source]);
    RunFrame(s, after, source, w.e.key);
  }

  lemma LoadKeeps(s: System, source: SourceId)
    requires Sound(s) && Core(s) && HolderOk(s) && Enabled(s, LoadExisting(source))
    ensures Core(Apply(s, LoadExisting(source))) && HolderOk(Apply(s, LoadExisting(source)))
  {
    var w, after := s.holder.writers[source], Apply(s, LoadExisting(source));
    WriterFacts(s, source);
    HeldFacts(s);
    ReadIsDescribed(s, w.s.key);
    hide Sound, Core, HolderOk, Describes, TouchesOnly, SameOthers;
    CoreFrame(s, after);
    NothingTouches(s, after, w.s.key);
    OneWriterChanges(source, s.holder.writers, after.holder.writers[source]);
    RunFrame(s, after, source, w.s.key);
  }

  lemma ReuseKeeps(s: System, source: SourceId, key: SnapshotKey)
    requires Sound(s) && Core(s) && HolderOk(s) && Enabled(s, Step.Reuse(source, key))
    ensures Core(Apply(s, Step.Reuse(source, key))) && HolderOk(Apply(s, Step.Reuse(source, key)))
  {
    var after := Apply(s, Step.Reuse(source, key));
    HeldFacts(s);
    UsableIsRead(s, key);
    ReadIsDescribed(s, key);
    hide Sound, Core, HolderOk, Describes, Usable, Load, TouchesOnly, SameOthers;
    CoreFrame(s, after);
    NothingTouches(s, after, key);
    OneWriterChanges(source, s.holder.writers, after.holder.writers[source]);
    RunFrame(s, after, source, key);
  }

  lemma PinDiskKeeps(s: System, source: SourceId)
    requires Sound(s) && Core(s) && HolderOk(s) && Enabled(s, PinDisk(source))
    ensures Core(Apply(s, PinDisk(source))) && HolderOk(Apply(s, PinDisk(source)))
  {
    hide Sound, Core, HolderOk, Pinned;
    PinDirectoryKeeps(s, source, s.holder.writers[source]);
  }

  lemma PinDirectoryKeeps(s: System, source: SourceId, w: Writer)
    requires Sound(s) && Core(s) && HolderOk(s) && Writing(s, source) && s.holder.writers[source] == w
    requires w.Loaded? && w.e.key in s.directories
    ensures var key := w.e.key;
            var after := WithDirectory(
                           SetWriter(s, source, PinnedOnDisk(w.e.(pinned := true), w.refreshing, key !in s.stale)),
                           key, Pinned(s.directories[key]));
            Core(after) && HolderOk(after)
  {
    var key, d := w.e.key, s.directories[w.e.key];
    var next := PinnedOnDisk(w.e.(pinned := true), w.refreshing, key !in s.stale);
    var paused := SetWriter(s, source, next);
    hide Sound, Core, HolderOk, Load, Pinned, Describes, RowMatches, TouchesOnly, SameOthers, WriterOk;
    WriterFacts(s, source);
    HeldFacts(s);
    PinnedWriterIsOk(s, w);
    CoreFrame(s, paused);
    DirectoryEffect(paused, key, Pinned(d), s.taken);
    DirectoryTouches(s, paused, key, Pinned(d), s.taken);
    OneWriterChanges(source, s.holder.writers, next);
    RunFrame(s, WithDirectory(paused, key, Pinned(d)), source, key);
  }

  lemma PinnedWriterIsOk(s: System, w: Writer)
    requires Sound(s) && Core(s) && w.Loaded? && w.e.key in s.directories
    requires WriterOk(w, s.tables.rows, s.directories, s.stale, Excused(s))
    ensures var key := w.e.key;
            WriterOk(PinnedOnDisk(w.e.(pinned := true), w.refreshing, key !in s.stale), s.tables.rows,
                     s.directories[key := Pinned(s.directories[key])], s.stale + {key}, Excused(s))
  {
    DirectoryFacts(s, w.e.key);
    PinReadsBack(s.directories[w.e.key], w.e.key, w.e, s.integrity);
    PinnedIsClean(s, w.e);
    hide Sound, Core, Complete, Authentic, Load, Pinned, Describes, RowMatches;
  }

  /** Pinning the row as well brings it back in step, if it was in step before. */
  lemma PinnedIsClean(s: System, e: Snapshot)
    requires Core(s) && e.key in s.directories && Authentic(s.directories[e.key], e.key)
    requires e.key !in Excused(s) ==> Load(s.directories[e.key]) == Success(e)
    ensures var k := e.key;
            k in s.tables.rows && s.tables.rows[k].state == Committed && k !in s.stale && k !in Excused(s) ==>
              RowMatches(k, s.tables.rows[k].(pinned := true), s.directories[k := Pinned(s.directories[k])])
  {
    var k := e.key;
    if k in s.tables.rows && s.tables.rows[k].state == Committed && k !in s.stale && k !in Excused(s) {
      RowFacts(s, k);
      PinReadsBack(s.directories[k], k, e, s.integrity);
    }
  }

  lemma PinRowKeeps(s: System, source: SourceId)
    requires Sound(s) && Core(s) && HolderOk(s) && Enabled(s, PinRow(source))
    ensures Core(Apply(s, PinRow(source))) && HolderOk(Apply(s, PinRow(source)))
  {
    hide Sound, Core, HolderOk, SetPinned;
    PinnedRowKeeps(s, source, s.holder.writers[source]);
  }

  lemma PinnedRowKeeps(s: System, source: SourceId, w: Writer)
    requires Sound(s) && Core(s) && HolderOk(s) && Writing(s,
                                                           source) && s.holder.writers[source] == w && w.PinnedOnDisk?
    ensures var key := w.e.key;
            var after := WithRows(SetWriter(s, source, Loaded(w.e, w.refreshing)), SetPinned(s.tables.rows, key))
                           .(stale := if w.clean then s.stale - {key} else s.stale);
            Core(after) && HolderOk(after)
  {
    var key := w.e.key;
    var resumed := SetWriter(s, source, Loaded(w.e, w.refreshing));
    var stale := if w.clean then s.stale - {key} else s.stale;
    hide Sound, Core, HolderOk, RowMatches, WriterOk, SetPinned;
    WriterFacts(s, source);
    PinnedRowFacts(s, w, stale);
    CoreFrame(s, resumed);
    PinEffect(resumed, key, stale);
    PinnedRowHolds(s, source, w, stale);
  }

  lemma PinnedRowHolds(s: System, source: SourceId, w: Writer, stale: set<SnapshotKey>)
    requires Sound(s) && HolderOk(s) && Writing(s, source) && s.holder.writers[source] == w && w.PinnedOnDisk?
    requires stale == if w.clean then s.stale - {w.e.key} else s.stale
    ensures HolderOk(WithRows(SetWriter(s, source, Loaded(w.e, w.refreshing)), SetPinned(s.tables.rows, w.e.key))
                       .(stale := stale))
  {
    var key, rows := w.e.key, SetPinned(s.tables.rows, w.e.key);
    var resumed := SetWriter(s, source, Loaded(w.e, w.refreshing));
    assert rows.Keys == s.tables.rows.Keys;
    hide Sound, HolderOk, RowMatches, WriterOk, SetPinned, TouchesOnly, SameOthers;
    WriterFacts(s, source);
    HeldFacts(s);
    PinnedRowFacts(s, w, stale);
    PinnedRowTouches(s, key);
    RowTouches(s, resumed, key, rows, stale, s.unindexed);
    OneWriterChanges(source, s.holder.writers, Loaded(w.e, w.refreshing));
    RunFrame(s, WithRows(resumed, rows).(stale := stale, unindexed := s.unindexed), source, key);
  }

  lemma PinnedRowTouches(s: System, key: SnapshotKey)
    ensures var rows := SetPinned(s.tables.rows, key);
            rows.Keys == s.tables.rows.Keys && forall k <- s.tables.rows :: k != key ==> rows[k] == s.tables.rows[k]
  {
  }

  lemma PinnedRowFacts(s: System, w: Writer, stale: set<SnapshotKey>)
    requires w.PinnedOnDisk? && WriterOk(w, s.tables.rows, s.directories, s.stale, Excused(s))
    requires stale == if w.clean then s.stale - {w.e.key} else s.stale
    ensures var key := w.e.key;
            && WriterOk(Loaded(w.e, w.refreshing), SetPinned(s.tables.rows, key), s.directories, stale, Excused(s))
            && (key in s.tables.rows && s.tables.rows[key].state == Committed && key !in stale && key !in Excused(s) ==>
                  RowMatches(key, s.tables.rows[key].(pinned := true), s.directories))
  {
    hide Load, RowMatches;
  }

  lemma ReceiveKeeps(s: System, source: SourceId, verified: Timestamp, expires: Timestamp)
    requires Sound(s) && Core(s) && HolderOk(s) && Enabled(s, Receive(source, verified, expires))
    ensures Core(Apply(s, Receive(source, verified, expires))) && HolderOk(Apply(s, Receive(source, verified, expires)))
  {
    hide Sound, Core, HolderOk, Observe;
    ObservationKeeps(s, source, s.holder.writers[source], verified, expires);
  }

  lemma ObservationKeeps(s: System, source: SourceId, w: Writer, verified: Timestamp, expires: Timestamp)
    requires Sound(s) && Core(s) && HolderOk(s) && Writing(s, source) && s.holder.writers[source] == w
    requires w.Loaded? && w.e.key in s.directories
    ensures var key := w.e.key;
            var after := WithDirectory(
                           SetWriter(s, source, Unrecorded(w.e.(verified := Some(verified), expires := Some(expires)))),
                           key, Observe(s.directories[key], Receipt(key, verified, expires)));
            Core(after) && HolderOk(after)
  {
    var key, d := w.e.key, Observe(s.directories[w.e.key], Receipt(w.e.key, verified, expires));
    var next := Unrecorded(w.e.(verified := Some(verified), expires := Some(expires)));
    var paused := SetWriter(s, source, next);
    hide Sound, Core, HolderOk, Load, Observe, Describes, RowMatches, TouchesOnly, SameOthers, WriterOk;
    WriterFacts(s, source);
    HeldFacts(s);
    ObservedWriterIsOk(s, w, verified, expires);
    CoreFrame(s, paused);
    DirectoryEffect(paused, key, d, s.taken);
    DirectoryTouches(s, paused, key, d, s.taken);
    OneWriterChanges(source, s.holder.writers, next);
    RunFrame(s, WithDirectory(paused, key, d), source, key);
  }

  lemma ObservedWriterIsOk(s: System, w: Writer, verified: Timestamp, expires: Timestamp)
    requires Sound(s) && w.Loaded? && w.e.key in s.directories
    requires WriterOk(w, s.tables.rows, s.directories, s.stale, Excused(s))
    ensures var key := w.e.key;
            WriterOk(Unrecorded(w.e.(verified := Some(verified), expires := Some(expires))), s.tables.rows,
                     s.directories[key := Observe(s.directories[key], Receipt(key, verified, expires))],
                     s.stale + {key}, Excused(s))
  {
    DirectoryFacts(s, w.e.key);
    ObserveReadsBack(s.directories[w.e.key], w.e.key, w.e, Receipt(w.e.key, verified, expires), s.integrity);
    hide Sound, Complete, Authentic, Load, Observe, Describes;
  }

  lemma RecordRowKeeps(s: System, source: SourceId)
    requires Sound(s) && Core(s) && HolderOk(s) && Enabled(s, RecordRow(source))
    ensures Core(Apply(s, RecordRow(source))) && HolderOk(Apply(s, RecordRow(source)))
  {
    hide Sound, Core, HolderOk, Record;
    RecordedKeeps(s, source, s.holder.writers[source]);
  }

  lemma RecordedKeeps(s: System, source: SourceId, w: Writer)
    requires Sound(s) && Core(s) && HolderOk(s)
    requires Writing(s, source) && s.holder.writers[source] == w && w.Unrecorded?
    ensures var key := w.e.key;
            var after := WithRows(KeepSnapshot(s, source, w.e), Record(s.tables.rows, w.e, Inside(key)))
                           .(stale := s.stale - {key}, unindexed := s.unindexed - {key});
            Core(after) && HolderOk(after)
  {
    var key, rows := w.e.key, Record(s.tables.rows, w.e, Inside(w.e.key));
    var done := KeepSnapshot(s, source, w.e);
    WriterFacts(s, source);
    HeldFacts(s);
    RecordTouches(s, w.e);
    assert RowsOk(s.tables.rows);
    hide Sound, Core, HolderOk, Load, Describes, WriterOk, Record, TouchesOnly, SameOthers, RowsOk;
    CoreFrame(s, done);
    RecordEffect(done, w.e);
    RowTouches(s, done, key, rows, s.stale - {key}, s.unindexed - {key});
    OneWriterChanges(source, s.holder.writers, w);
    RunFrame(s, WithRows(done, rows).(stale := s.stale - {key}, unindexed := s.unindexed - {key}), source, key);
  }

  lemma RecordTouches(s: System, e: Snapshot)
    ensures var rows := Record(s.tables.rows, e, Inside(e.key));
            && rows.Keys - {e.key} == s.tables.rows.Keys - {e.key}
            && forall k <- s.tables.rows :: k != e.key ==> rows[k] == s.tables.rows[k]
  {
  }

  lemma HoldKeeps(s: System, source: SourceId)
    requires Sound(s) && Core(s) && HolderOk(s) && Enabled(s, Hold(source))
    ensures Core(Apply(s, Hold(source))) && HolderOk(Apply(s, Hold(source)))
  {
    var w, after := s.holder.writers[source], Apply(s, Hold(source));
    WriterFacts(s, source);
    HeldFacts(s);
    hide Sound, Core, HolderOk, Load, Describes, TouchesOnly, SameOthers;
    CoreFrame(s, after);
    NothingTouches(s, after, w.e.key);
    OneWriterChanges(source, s.holder.writers, w);
    RunFrame(s, after, source, w.e.key);
  }

  lemma AbandonKeeps(s: System, source: SourceId)
    requires Sound(s) && Core(s) && HolderOk(s) && Enabled(s, Abandon(source))
    ensures Core(Apply(s, Abandon(source))) && HolderOk(Apply(s, Abandon(source)))
  {
    var w, after := s.holder.writers[source], Apply(s, Abandon(source));
    WriterFacts(s, source);
    HeldFacts(s);
    hide Sound, Core, HolderOk, WriterOk, TouchesOnly, SameOthers;
    CoreFrame(s, after);
    NothingTouches(s, after, WriterKey(w));
    OneWriterChanges(source, s.holder.writers, w);
    RunFrame(s, after, source, WriterKey(w));
  }

  lemma StartWriteKeeps(s: System, source: SourceId, snapshot: Snapshot)
    requires Sound(s) && Core(s) && HolderOk(s) && Enabled(s, StartWrite(source, snapshot))
    ensures Core(Apply(s, StartWrite(source, snapshot))) && HolderOk(Apply(s, StartWrite(source, snapshot)))
  {
    var after := Apply(s, StartWrite(source, snapshot));
    HeldFacts(s);
    hide Sound, Core, HolderOk, Sealable, TouchesOnly, SameOthers;
    CoreFrame(s, after);
    NothingTouches(s, after, snapshot.key);
    OneWriterChanges(source, s.holder.writers, Sealed(snapshot));
    RunFrame(s, after, source, snapshot.key);
  }

  // ---------- publishing ----------

  /** Publishing a dataset whose members are backed keeps rows and directories in order. */
  lemma CommittedCore(s: System, id: DatasetId, payload: Payload)
    requires Core(s) && CommitDataset(s.tables, id, payload).Success?
    requires forall k <- payload.snapshots.Values :: Backed(k, s.directories, Excused(s))
    ensures Core(s.(tables := CommitDataset(s.tables, id, payload).value))
  {
    var next := WithRows(s, Activated(s.tables.rows, payload.snapshots));
    ActivationKeepsRows(s.tables.rows, payload.snapshots);
    hide Core, AllActivatable, Activated, Published, Referenced;
    ActivationEffect(s, payload.snapshots);
    ReferenceEffect(next, id, payload);
    CoreFrame(next.(tables := next.tables.(references := Referenced(s.tables.references, id, payload))),
              s.(tables := CommitDataset(s.tables, id, payload).value));
  }

  lemma CommitKeeps(s: System, payload: Payload)
    requires Core(s) && HolderOk(s) && Enabled(s, Step.Commit(payload))
    ensures Core(Apply(s, Step.Commit(payload))) && HolderOk(Apply(s, Step.Commit(payload)))
  {
    hide Core, CommitDataset;
    CommittedMembers(s, payload);
    CommittedCore(s, DatasetOf(payload), payload);
    CoreFrame(s.(tables := CommitDataset(s.tables, DatasetOf(payload), payload).value),
              Apply(s, Step.Commit(payload)));
  }

  lemma CommittedMembers(s: System, payload: Payload)
    requires HolderOk(s) && s.holder.Running? && payload.snapshots == KeysOf(s.holder.held)
    requires CommitDataset(s.tables, DatasetOf(payload), payload).Success?
    ensures forall k <- payload.snapshots.Values :: Backed(k, s.directories, Excused(s))
  {
    HeldFacts(s);
    forall k <- payload.snapshots.Values ensures Backed(k, s.directories, Excused(s)) {
      var source :| source in payload.snapshots && payload.snapshots[source] == k;
      assert Activatable(s.tables.rows, source, k);
    }
  }

  // ---------- marks, collection and damage ----------

  lemma MarkedWriterIsOk(w: Writer, s: System, key: SnapshotKey)
    requires WriterOk(w, s.tables.rows, s.directories, s.stale, Excused(s))
    ensures WriterOk(w, MarkCorrupt(s.tables.rows, key), s.directories, s.stale, Excused(s))
  {
    hide Load, Agrees;
  }

  lemma MarkKeeps(s: System, key: SnapshotKey)
    requires Core(s) && HolderOk(s) && Enabled(s, Mark(key))
    ensures Core(Apply(s, Mark(key))) && HolderOk(Apply(s, Mark(key)))
  {
    hide Core, WriterOk, Usable;
    MarkEffect(s, key);
    if s.holder.Running? {
      forall source <- s.holder.writers
        ensures WriterOk(s.holder.writers[source], MarkCorrupt(s.tables.rows, key), s.directories, s.stale, Excused(s))
      {
        MarkedWriterIsOk(s.holder.writers[source], s, key);
      }
    }
  }

  /** A directory that leaves a window is excused. */
  lemma CollectedWriterIsOk(w: Writer, s: System, gone: set<SnapshotKey>, excused: set<SnapshotKey>)
    requires WriterOk(w, s.tables.rows, s.directories, s.stale, Excused(s)) && Excused(s) <= excused
    requires w.Unrecorded? && WriterKey(w) in gone ==> WriterKey(w) in excused
    ensures WriterOk(w, s.tables.rows - gone, s.directories - gone, s.stale - gone, excused)
  {
    hide Load, Agrees;
  }

  lemma CollectKeeps(s: System, gone: set<SnapshotKey>)
    requires Core(s) && HolderOk(s) && Enabled(s, Collect(gone))
    ensures Core(Apply(s, Collect(gone))) && HolderOk(Apply(s, Collect(gone)))
  {
    hide Core, WriterOk;
    var taken := s.taken + (gone * Window(s.holder) - s.damaged);
    RemovalEffect(s, gone, taken);
    if s.holder.Running? {
      forall source <- s.holder.writers
        ensures WriterOk(s.holder.writers[source], s.tables.rows - gone, s.directories - gone, s.stale - gone,
                         s.damaged + taken)
      {
        assert s.holder.writers[source].Unrecorded? ==> WriterKey(s.holder.writers[source]) in Window(s.holder);
        CollectedWriterIsOk(s.holder.writers[source], s, gone, s.damaged + taken);
      }
    }
  }

  lemma DamagedWriterIsOk(w: Writer, s: System, key: SnapshotKey, directories: Directories)
    requires WriterOk(w, s.tables.rows, s.directories, s.stale, Excused(s))
    requires forall k :: k != key ==> (k in directories <==> k in s.directories)
    requires forall k <- directories :: k != key ==> directories[k] == s.directories[k]
    ensures WriterOk(w, s.tables.rows, directories, s.stale, Excused(s) + {key})
  {
    hide Load, Agrees;
  }

  lemma DamageCore(s: System, key: SnapshotKey, remains: Option<Directory>)
    requires Core(s) && Enabled(s, Damage(key, remains))
    ensures Core(Apply(s, Damage(key, remains)))
  {
    hide Load, Authentic, Agrees;
  }

  lemma DamageKeeps(s: System, key: SnapshotKey, remains: Option<Directory>)
    requires Core(s) && HolderOk(s) && Enabled(s, Damage(key, remains))
    ensures Core(Apply(s, Damage(key, remains))) && HolderOk(Apply(s, Damage(key, remains)))
  {
    var after := Apply(s, Damage(key, remains));
    hide Core, WriterOk, Authentic;
    DamageCore(s, key, remains);
    if s.holder.Running? {
      forall source <- s.holder.writers
        ensures WriterOk(s.holder.writers[source], s.tables.rows, after.directories, s.stale, Excused(after))
      {
        assert Excused(after) == Excused(s) + {key};
        DamagedWriterIsOk(s.holder.writers[source], s, key, after.directories);
      }
    }
  }

  // ---------- cleaning and dropping ----------

  lemma CleansUnreferenced(s: System)
    requires Sound(s) && s.holder.Cleaning?
    ensures s.holder.targets !! s.tables.references.Values
    ensures s.holder.removed.Some? ==> s.holder.removed.value !in s.tables.references.Values
  {
  }

  lemma CleanDirectoryKeeps(s: System, key: SnapshotKey)
    requires Sound(s) && Core(s) && HolderOk(s) && Enabled(s, CleanDirectory(key))
    ensures Core(Apply(s, CleanDirectory(key))) && HolderOk(Apply(s, CleanDirectory(key)))
  {
    CleansUnreferenced(s);
    hide Sound, Load, Agrees;
  }

  lemma CleanRowKeeps(s: System)
    requires Sound(s) && Core(s) && HolderOk(s) && Enabled(s, CleanRow)
    ensures Core(Apply(s, CleanRow)) && HolderOk(Apply(s, CleanRow))
  {
    CleansUnreferenced(s);
    hide Sound, RowMatches;
  }

  lemma BeginDropKeeps(s: System, id: DatasetId)
    requires Core(s) && Enabled(s, BeginDrop(id))
    ensures Core(Apply(s, BeginDrop(id))) && HolderOk(Apply(s, BeginDrop(id)))
  {
    hide Core, DeleteDataset;
    DropEffect(s, id);
    CoreFrame(s.(tables := DeleteDataset(s.tables, id)), Apply(s, BeginDrop(id)));
  }

  // ---------- rebuilding ----------

  lemma BeginRebuildKeeps(s: System, listing: seq<SnapshotKey>)
    requires Core(s) && Enabled(s, BeginRebuild(listing))
    ensures Core(Apply(s, BeginRebuild(listing))) && HolderOk(Apply(s, BeginRebuild(listing)))
  {
  }

  /** A directory nothing has touched reads back. */
  lemma IntactReads(s: System, key: SnapshotKey)
    requires Sound(s) && key in s.directories && key !in s.damaged
    ensures Read(At(s.directories, key), s.integrity).Some?
  {
    DirectoryFacts(s, key);
    CompleteReads(s.directories[key], key, s.integrity);
  }

  lemma RecordNextKeeps(s: System)
    requires Sound(s) && Core(s) && HolderOk(s) && Enabled(s, RecordNext)
    ensures Core(Apply(s, RecordNext)) && HolderOk(Apply(s, RecordNext))
  {
    var key, after := s.holder.listing[0], Apply(s, RecordNext);
    var found := Read(At(s.directories, key), s.integrity);
    ReadIsDescribed(s, key);
    assert RowsOk(s.tables.rows);
    hide Sound, Core, Read, Describes, Record, Load, RowsOk, HolderOk;
    if key in s.directories && key !in s.damaged {
      IntactReads(s, key);
    }
    if found.None? {
      CoreFrame(s, after);
    } else {
      RecordEffect(s, found.value);
      NothingIsStale(s);
      CoreFrame(WithRows(s, Record(s.tables.rows, found.value, Inside(key)))
                  .(stale := s.stale - {key}, unindexed := s.unindexed - {key}), after);
    }
    RecordingContinues(s, key, found, after);
  }

  lemma NothingIsStale(s: System)
    requires HolderOk(s) && s.holder.Recording?
    ensures forall key :: s.stale - {key} == s.stale
  {
  }

  lemma RecordingContinues(s: System, key: SnapshotKey, found: Option<Snapshot>, after: System)
    requires HolderOk(s) && s.holder.Recording? && s.holder.listing != [] && key == s.holder.listing[0]
    requires found.Some? ==> found.value.key == key
    requires key in s.directories && key !in s.damaged ==> found.Some?
    requires after == if found.None? then s.(holder := Recording(s.holder.listing[1..], s.holder.recovered))
                      else WithRows(s, Record(s.tables.rows, found.value, Inside(key)))
                             .(unindexed := s.unindexed - {key},
                               holder := Recording(s.holder.listing[1..], s.holder.recovered + [found.value]))
    ensures HolderOk(after)
  {
    assert s.holder.listing == [key] + s.holder.listing[1..];
    forall k <- s.directories ensures k in s.damaged || k in after.holder.listing || k in after.tables.rows {
    }
  }

  lemma ActivateNextKeeps(s: System)
    requires Core(s) && HolderOk(s) && Enabled(s, ActivateNext)
    ensures Core(Apply(s, ActivateNext)) && HolderOk(Apply(s, ActivateNext))
  {
    var e, after := s.holder.rest[0], Apply(s, ActivateNext);
    var members := map[e.Source() := e.key];
    hide Core, Activated;
    ActivationEffect(s, members);
    if e.request.scope == Unscoped && Activatable(s.tables.rows, e.Source(), e.key) {
      CoreFrame(WithRows(s, Activated(s.tables.rows, members)), after);
    } else {
      CoreFrame(s, after);
    }
  }

  lemma RepublishNextKeeps(s: System)
    requires Core(s) && HolderOk(s) && Enabled(s, RepublishNext)
    ensures Core(Apply(s, RepublishNext)) && HolderOk(Apply(s, RepublishNext))
  {
    var e, after := s.holder.entries[0], Apply(s, RepublishNext);
    if CommitDataset(s.tables, e.id, e.payload).Success? {
      CommittedAreBacked(s, e.payload.snapshots);
      hide Core, CommitDataset;
      CommittedCore(s, e.id, e.payload);
      CoreFrame(s.(tables := CommitDataset(s.tables, e.id, e.payload).value), after);
    } else {
      CoreFrame(s, after);
    }
  }

  /** When no directory has run ahead of its row, committed rows have their directories. */
  lemma CommittedAreBacked(s: System, members: map<SourceId, SnapshotKey>)
    requires Core(s) && s.stale == {} && AllActivatable(s.tables.rows, members)
    ensures forall k <- members.Values :: Backed(k, s.directories, Excused(s))
  {
    forall k <- members.Values ensures Backed(k, s.directories, Excused(s)) {
      var source :| source in members && members[source] == k;
      assert Activatable(s.tables.rows, source, k);
      RowFacts(s, k);
    }
  }

  // ---------- every step keeps the invariant ----------

  predicate AboutHolder(step: Step) {
    || step.BeginRun? || step.EndRun? || step.BeginClean? || step.EndClean? || step.EndRebuild? || step.Crash?
    || step.WriteFile? || step.FinishDrop? || step.BeginActivation? || step.BeginRepublish?
  }

  lemma HolderStepKeeps(s: System, step: Step)
    requires Core(s) && HolderOk(s) && Enabled(s, step) && AboutHolder(step)
    ensures Core(Apply(s, step)) && HolderOk(Apply(s, step))
  {
    hide RefinesOk, FrozenOk, Filed, Republishable, Usable, Read, Sealable, CommitDataset, Activated, Backed;
  }

  lemma WriterStepKeeps(s: System, step: Step)
    requires Sound(s) && Core(s) && HolderOk(s) && Enabled(s, step) && AboutWriter(step)
    ensures Core(Apply(s, step)) && HolderOk(Apply(s, step))
  {
    hide Sound, Core, HolderOk, Enabled, Apply;
    match step {
      case Reuse(source, key) => ReuseKeeps(s, source, key);
      case StartWrite(source, snapshot) => StartWriteKeeps(s, source, snapshot);
      case Check(source) => CheckKeeps(s, source);
      case Validate(source) => ValidateKeeps(s, source);
      case LoadExisting(source) => LoadKeeps(s, source);
      case PinDisk(source) => PinDiskKeeps(s, source);
      case PinRow(source) => PinRowKeeps(s, source);
      case Receive(source, verified, expires) => ReceiveKeeps(s, source, verified, expires);
      case RecordRow(source) => RecordRowKeeps(s, source);
      case Hold(source) => HoldKeeps(s, source);
      case Abandon(source) => AbandonKeeps(s, source);
      case _ =>
    }
  }

  lemma OtherStepKeeps(s: System, step: Step)
    requires Sound(s) && Core(s) && HolderOk(s) && Enabled(s, step)
    requires !AboutHolder(step) && !AboutWriter(step)
    ensures Core(Apply(s, step)) && HolderOk(Apply(s, step))
  {
    hide Sound, Core, HolderOk, Enabled, Apply;
    match step {
      case Commit(payload) => CommitKeeps(s, payload);
      case Mark(key) => MarkKeeps(s, key);
      case Collect(gone) => CollectKeeps(s, gone);
      case Damage(key, remains) => DamageKeeps(s, key, remains);
      case CleanDirectory(key) => CleanDirectoryKeeps(s, key);
      case CleanRow => CleanRowKeeps(s);
      case BeginDrop(id) => BeginDropKeeps(s, id);
      case BeginRebuild(listing) => BeginRebuildKeeps(s, listing);
      case RecordNext => RecordNextKeeps(s);
      case ActivateNext => ActivateNextKeeps(s);
      case RepublishNext => RepublishNextKeeps(s);
      case _ =>
    }
  }

  lemma GuardedParts(s: System)
    ensures Guarded(s) <==> Core(s) && HolderOk(s)
  {
  }

  lemma StepKeepsGuarded(s: System, step: Step)
    requires Sound(s) && Guarded(s) && Enabled(s, step)
    ensures Guarded(Apply(s, step))
  {
    hide Sound, Guarded, Core, HolderOk, Enabled, Apply;
    GuardedParts(s);
    GuardedParts(Apply(s, step));
    if AboutHolder(step) {
      HolderStepKeeps(s, step);
    } else if AboutWriter(step) {
      WriterStepKeeps(s, step);
    } else {
      OtherStepKeeps(s, step);
    }
  }

  // ---------- what a collection has taken ----------

  lemma StepKeepsTaken(s: System, step: Step)
    requires Sound(s) && TakenOk(s) && Enabled(s, step)
    ensures TakenOk(Apply(s, step))
  {
    hide Sound, TakenOk, Enabled, Apply;
    if AboutWriter(step) {
      WriterKeepsTaken(s, step);
    } else {
      match step {
        case Collect(gone) => CollectKeepsTaken(s, gone);
        case Damage(key, remains) => DamageKeepsTaken(s, key, remains);
        case RecordNext => RecordNextKeepsTaken(s);
        case ActivateNext => ActivationKeepsTaken(s);
        case RepublishNext => RepublishKeepsTaken(s);
        case Mark(key) => MarkKeepsTaken(s, key);
        case _ => OtherKeepsTaken(s, step);
      }
    }
  }

  /** A writer that has just loaded its directory, or put it there, looks at one that is not taken. */
  lemma WriterKeepsTaken(s: System, step: Step)
    requires Sound(s) && TakenOk(s) && Enabled(s, step) && AboutWriter(step)
    ensures TakenOk(Apply(s, step))
  {
    hide Sound, TakenOk, Enabled, Apply;
    WriterStepChangesOne(s, step);
    WriterTakesNothing(s, step);
    if step.source in Apply(s, step).holder.writers {
      LooksAtItsOwn(s, step);
    }
    OthersLookOn(s, step);
  }

  lemma WriterTakesNothing(s: System, step: Step)
    requires Enabled(s, step) && AboutWriter(step)
    ensures var after := Apply(s, step);
            && after.taken <= s.taken
            && after.damaged == s.damaged
            && (forall k <- after.directories :: k in s.directories || k !in after.taken)
  {
    hide Usable, Read, Sealable, Pinned, Observe, Finished, Record, SetPinned, Validates;
  }

  lemma LooksAtItsOwn(s: System, step: Step)
    requires Sound(s) && TakenOk(s) && Enabled(s, step) && AboutWriter(step)
    requires step.source in Apply(s, step).holder.writers
    ensures var w := Apply(s, step).holder.writers[step.source];
            LooksAgain(w) ==> WriterKey(w) !in Apply(s, step).taken
  {
    hide Sound, Enabled, Apply, TakenOk;
    match step {
      case Reuse(source, key) => ReusedIsThere(s, source, key);
      case LoadExisting(source) => LoadedIsThere(s, source);
      case _ => ChangedLooksOn(s, step);
    }
  }

  lemma ReusedIsThere(s: System, source: SourceId, key: SnapshotKey)
    requires Sound(s) && TakenOk(s) && Enabled(s, Step.Reuse(source, key))
    ensures var after := Apply(s, Step.Reuse(source, key)); WriterKey(after.holder.writers[source]) !in after.taken
  {
    UsableIsRead(s, key);
    ReadIsDescribed(s, key);
    hide Sound, Usable, Read, Describes, Load;
  }

  lemma LoadedIsThere(s: System, source: SourceId)
    requires Sound(s) && TakenOk(s) && Enabled(s, LoadExisting(source))
    ensures var after := Apply(s, LoadExisting(source)); WriterKey(after.holder.writers[source]) !in after.taken
  {
    ReadIsDescribed(s, s.holder.writers[source].s.key);
    hide Sound, Read, Describes, Load;
  }

  lemma ChangedLooksOn(s: System, step: Step)
    requires TakenOk(s) && Enabled(s, step) && AboutWriter(step) && !step.Reuse? && !step.LoadExisting?
    requires step.source in Apply(s, step).holder.writers
    ensures var w := Apply(s, step).holder.writers[step.source];
            LooksAgain(w) ==> WriterKey(w) !in Apply(s, step).taken
  {
    hide Sealable, Pinned, Observe, Finished, Record, SetPinned, Validates, Read, Usable;
  }

  lemma OthersLookOn(s: System, step: Step)
    requires TakenOk(s) && AboutWriter(step) && Enabled(s, step) && s.holder.Running?
    requires Apply(s, step).holder.Running?
    requires SameOthers(step.source, s.holder.writers, Apply(s, step).holder.writers)
    requires step.source in Apply(s, step).holder.writers ==>
               var w := Apply(s, step).holder.writers[step.source];
               LooksAgain(w) ==> WriterKey(w) !in Apply(s, step).taken
    requires var after := Apply(s, step);
             && after.taken <= s.taken
             && after.damaged == s.damaged
             && (forall k <- after.directories :: k in s.directories || k !in after.taken)
    ensures TakenOk(Apply(s, step))
  {
    var after := Apply(s, step);
    hide Enabled, Apply;
    forall source <- after.holder.writers
      ensures LooksAgain(after.holder.writers[source]) ==> WriterKey(after.holder.writers[source]) !in after.taken
    {
      if source != step.source {
        assert after.holder.writers[source] == s.holder.writers[source];
      }
    }
  }

  lemma CollectKeepsTaken(s: System, gone: set<SnapshotKey>)
    requires Sound(s) && TakenOk(s) && Enabled(s, Collect(gone))
    ensures TakenOk(Apply(s, Collect(gone)))
  {
    hide Sound, Unprotected;
    if s.holder.Running? {
      forall source <- s.holder.writers | LooksAgain(s.holder.writers[source])
        ensures WriterKey(s.holder.writers[source]) !in Window(s.holder)
      {
        forall other <- s.holder.writers | s.holder.writers[other].Unrecorded?
          ensures WriterKey(s.holder.writers[other]) != WriterKey(s.holder.writers[source])
        {
          CarriedSnapshot(s, source);
          CarriedSnapshot(s, other);
        }
      }
    }
  }

  lemma DamageKeepsTaken(s: System, key: SnapshotKey, remains: Option<Directory>)
    requires TakenOk(s) && Enabled(s, Damage(key, remains))
    ensures TakenOk(Apply(s, Damage(key, remains)))
  {
    hide Authentic;
  }

  lemma RecordNextKeepsTaken(s: System)
    requires Sound(s) && TakenOk(s) && Enabled(s, RecordNext)
    ensures TakenOk(Apply(s, RecordNext))
  {
    ReadIsDescribed(s, s.holder.listing[0]);
    hide Sound, Read, Describes, Load;
  }

  lemma ActivationKeepsTaken(s: System)
    requires TakenOk(s) && Enabled(s, ActivateNext)
    ensures TakenOk(Apply(s, ActivateNext))
  {
    var e := s.holder.rest[0];
    ActivationKeepsRows(s.tables.rows, map[e.Source() := e.key]);
    hide Activated;
  }

  lemma RepublishKeepsTaken(s: System)
    requires TakenOk(s) && Enabled(s, RepublishNext)
    ensures TakenOk(Apply(s, RepublishNext))
  {
    ActivationKeepsRows(s.tables.rows, s.holder.entries[0].payload.snapshots);
    hide Activated, Published, Referenced;
  }

  lemma MarkKeepsTaken(s: System, key: SnapshotKey)
    requires TakenOk(s) && Enabled(s, Mark(key))
    ensures TakenOk(Apply(s, Mark(key)))
  {
    assert MarkCorrupt(s.tables.rows, key).Keys == s.tables.rows.Keys;
    hide MarkCorrupt, Usable;
  }

  lemma OtherKeepsTaken(s: System, step: Step)
    requires TakenOk(s) && Enabled(s, step) && !AboutWriter(step)
    requires !step.Collect? && !step.Damage? && !step.RecordNext? && !step.ActivateNext? && !step.RepublishNext?
    requires !step.Mark?
    ensures TakenOk(Apply(s, step))
  {
    hide CommitDataset, DeleteDataset, Filed, Republishable, Unprotected;
  }

  // ---------- all of it ----------

  /** Every step of the workspace keeps the invariant, whatever is collected and when. */
  lemma StepKeepsInvariant(s: System, step: Step)
    requires Inv(s) && Enabled(s, step)
    ensures Inv(Apply(s, step))
  {
    hide Sound, Guarded, TakenOk, Enabled, Apply;
    StepKeepsSound(s, step);
    StepKeepsGuarded(s, step);
    StepKeepsTaken(s, step);
  }
}
