/**
 The workspace as a whole: runs, cleaning, dataset drops, index rebuilds, garbage collection, and
 crashes, interleaved step by step over one index and one disk.

 Runs, cleaning, drops and rebuilds exclude each other through the workspace lock; garbage
 collection and corruption marks happen at any time; the process holding the lock may die between
 any two effects. The writers of one run advance independently of each other.
 */
module Workspace {
  import opened Outcomes
  import opened Identity
  import opened Snapshots
  import opened Index
  import opened Store
  import opened Recovery

  /**
   How far a source's capture has come. `Installed` snapshots have been moved into place;
   `Unrecorded` ones have been validated there, or newly observed, while the index does not know it yet.
   */
  datatype Writer =
    | Sealed(s: Snapshot)
    | Found(s: Snapshot)
    | Loaded(e: Snapshot, refreshing: bool)
    | PinnedOnDisk(e: Snapshot, refreshing: bool, clean: bool)
    | Installed(e: Snapshot)
    | Unrecorded(e: Snapshot)

  function WriterKey(w: Writer): SnapshotKey {
    match w
    case Sealed(s) => s.key
    case Found(s) => s.key
    case Loaded(e, _) => e.key
    case PinnedOnDisk(e, _, _) => e.key
    case Installed(e) => e.key
    case Unrecorded(e) => e.key
  }

  /**
   Who holds the workspace lock, and what it still has to do. A run captures or reuses every source of
   its plan, in any order; `held` are the snapshots it has got, `failed` the sources whose capture raised.
   */
  datatype Holder =
    | Free
    | Running(
        plan: seq<SourceId>,
        writers: map<SourceId, Writer>,
        held: map<SourceId, Snapshot>,
        failed: set<SourceId>)
    | Publishing(id: DatasetId)
    | Cleaning(targets: set<SnapshotKey>, removed: Option<SnapshotKey>)
    | Dropping(id: DatasetId)
    | Recording(listing: seq<SnapshotKey>, recovered: seq<Snapshot>)
    | Activating(rest: seq<Snapshot>)
    | Republishing(entries: seq<Entry>)

  /**
   The state. Five fields only observe: `history` holds every committed dataset, `stale` the keys
   whose directory was changed and whose row was not yet, `damaged` the directories something else
   than this program has touched, `unindexed` the keys whose row a rebuild cleared and nobody has
   recorded again, and `taken` the undamaged directories a collection took when a writer was about to
   record them without looking at the disk again, until they are captured anew.
   */
  datatype System = System(
    tables: Tables,
    directories: Directories,
    files: map<DatasetId, Payload>,
    holder: Holder,
    integrity: Integrity,
    history: set<Entry>,
    stale: set<SnapshotKey>,
    damaged: set<SnapshotKey>,
    unindexed: set<SnapshotKey>,
    taken: set<SnapshotKey>)

  datatype Step =
    | BeginRun(plan: seq<SourceId>)
    | Reuse(source: SourceId, key: SnapshotKey)
    | StartWrite(source: SourceId, s: Snapshot)
    | Check(source: SourceId)
    | Validate(source: SourceId)
    | LoadExisting(source: SourceId)
    | PinDisk(source: SourceId)
    | PinRow(source: SourceId)
    | Receive(source: SourceId, verified: Timestamp, expires: Timestamp)
    | RecordRow(source: SourceId)
    | Hold(source: SourceId)
    | Abandon(source: SourceId)
    | Commit(payload: Payload)
    | WriteFile
    | EndRun
    | Mark(key: SnapshotKey)
    | BeginClean(targets: set<SnapshotKey>)
    | CleanDirectory(key: SnapshotKey)
    | CleanRow
    | EndClean
    | BeginDrop(id: DatasetId)
    | FinishDrop
    | BeginRebuild(listing: seq<SnapshotKey>)
    | RecordNext
    | BeginActivation(order: seq<Snapshot>)
    | ActivateNext
    | BeginRepublish(entries: seq<Entry>)
    | RepublishNext
    | EndRebuild
    | Collect(gone: set<SnapshotKey>)
    | Crash
    | Damage(key: SnapshotKey, remains: Option<Directory>)

  // ---------- what each step needs ----------

  /** A finished capture: its pending directory is complete and reads back as the snapshot. */
  predicate Sealable(s: Snapshot, integrity: Integrity) {
    && Describes(s, s.key)
    && Complete(Finished(s), s.key, integrity)
    && Load(Finished(s)) == Success(s)
  }

  predicate Unprotected(t: Tables, key: SnapshotKey) {
    && key in t.rows
    && !t.rows[key].active
    && !t.rows[key].pinned
    && key !in t.references.Values
  }

  predicate Writing(s: System, source: SourceId) {
    s.holder.Running? && source in s.holder.writers
  }

  function DatasetOf(payload: Payload): DatasetId {
    DatasetId(payload.snapshots, payload.scopes)
  }

  /** The run has yet to start with this source of its plan. */
  predicate Unstarted(s: System, source: SourceId) {
    && s.holder.Running?
    && source in s.holder.plan
    && source !in s.holder.writers
    && source !in s.holder.held
    && source !in s.holder.failed
  }

  /** Every source of the plan has its snapshot, and no capture raised. */
  predicate Gathered(s: System) {
    && s.holder.Running?
    && s.holder.failed == {}
    && s.holder.writers == map[]
    && forall source <- s.holder.plan :: source in s.holder.held
  }

  /** What a run publishes: its snapshots, their scopes, and their completion times in plan order. */
  function PayloadOfRun(plan: seq<SourceId>, held: map<SourceId, Snapshot>, run: string): Payload
    requires forall source <- plan :: source in held
  {
    var captured := seq(|plan|, i requires 0 <= i < |plan| => held[plan[i]].completed);
    Payload(KeysOf(held), IdentityOf(held).scopes, captured, run)
  }

  predicate Enabled(s: System, step: Step) {
    match step
    case BeginRun(plan) => s.holder.Free? && forall i, j :: 0 <= i < j < |plan| ==> plan[i] != plan[j]
    case Reuse(source, key) =>
      Unstarted(s, source) && Source(key) == source
      && Usable(s.tables.rows, s.directories, s.integrity, Some(key)).Some?
    case StartWrite(source, snapshot) =>
      Unstarted(s, source) && Source(snapshot.key) == source && Sealable(snapshot, s.integrity)
    case Check(source) => Writing(s, source) && s.holder.writers[source].Sealed?
    case Validate(source) =>
      Writing(s, source) && s.holder.writers[source].Installed?
      && s.holder.writers[source].e.key in s.directories
      && Validates(s.directories[s.holder.writers[source].e.key], s.holder.writers[source].e, s.integrity)
    case LoadExisting(source) =>
      Writing(s, source) && s.holder.writers[source].Found?
      && Read(At(s.directories, s.holder.writers[source].s.key), s.integrity).Some?
    case PinDisk(source) =>
      Writing(s, source) && s.holder.writers[source].Loaded? && s.holder.writers[source].e.key in s.directories
    case PinRow(source) => Writing(s, source) && s.holder.writers[source].PinnedOnDisk?
    case Receive(source, _, _) =>
      Writing(s, source) && s.holder.writers[source].Loaded? && s.holder.writers[source].refreshing
      && s.holder.writers[source].e.key in s.directories
    case RecordRow(source) => Writing(s, source) && s.holder.writers[source].Unrecorded?
    case Hold(source) =>
      Writing(s, source) && s.holder.writers[source].Loaded? && !s.holder.writers[source].refreshing
    case Abandon(source) => Writing(s, source)
    case Commit(payload) =>
      Gathered(s) && payload == PayloadOfRun(s.holder.plan, s.holder.held, payload.run)
      && CommitDataset(s.tables, DatasetOf(payload), payload).Success?
    case WriteFile => s.holder.Publishing?
    case EndRun => s.holder.Running? && s.holder.writers == map[]
    case Mark(key) => Usable(s.tables.rows, s.directories, s.integrity, Some(key)).None?
    case BeginClean(targets) => s.holder.Free? && forall k <- targets :: Unprotected(s.tables, k)
    case CleanDirectory(key) => s.holder.Cleaning? && s.holder.removed.None? && key in s.holder.targets
    case CleanRow => s.holder.Cleaning? && s.holder.removed.Some?
    case EndClean => s.holder.Cleaning? && s.holder.removed.None?
    case BeginDrop(id) => s.holder.Free? && Knows(s.tables.datasets, id)
    case FinishDrop => s.holder.Dropping?
    case BeginRebuild(listing) => s.holder.Free? && forall k <- s.directories :: k in listing
    case RecordNext => s.holder.Recording? && s.holder.listing != []
    case BeginActivation(order) =>
      s.holder.Recording? && s.holder.listing == [] && forall e <- order :: e in s.holder.recovered
    case ActivateNext => s.holder.Activating? && s.holder.rest != []
    case BeginRepublish(entries) =>
      s.holder.Activating? && s.holder.rest == []
      && forall e <- entries :: Republishable(s, e)
    case RepublishNext => s.holder.Republishing? && s.holder.entries != []
    case EndRebuild => s.holder.Republishing? && s.holder.entries == []
    case Collect(gone) => forall k <- gone :: Unprotected(s.tables, k)
    case Crash => true
    case Damage(key, remains) =>
      key in s.directories && (remains.Some? ==> Authentic(remains.value, key))
  }

  /** The datasets a rebuild publishes again: those of the table, and those of the dataset files. */
  predicate Republishable(s: System, e: Entry) {
    || (exists d <- s.tables.datasets :: d.id == e.id && d.payload == e.payload)
    || (e.id in s.files && s.files[e.id] == e.payload)
  }

  // ---------- collections and windows ----------

  /** The keys whose capture is on disk and about to be recorded without looking at the disk again. */
  function Window(holder: Holder): set<SnapshotKey> {
    if holder.Running?
    then set source <- holder.writers | holder.writers[source].Unrecorded? :: WriterKey(holder.writers[source])
    else {}
  }

  predicate Safe(s: System, step: Step) {
    step.Collect? ==> step.gone * Window(s.holder) <= s.damaged
  }

  // ---------- what each step does ----------

  function SetWriter(s: System, source: SourceId, w: Writer): System
    requires s.holder.Running?
  {
    s.(holder := s.holder.(writers := s.holder.writers[source := w]))
  }

  /** The capture of `source` has raised. */
  function FailWriter(s: System, source: SourceId): System
    requires s.holder.Running?
  {
    s.(holder := s.holder.(writers := s.holder.writers - {source}, failed := s.holder.failed + {source}))
  }

  /** The run has got its snapshot of `source`. */
  function KeepSnapshot(s: System, source: SourceId, e: Snapshot): System
    requires s.holder.Running?
  {
    s.(holder := s.holder.(writers := s.holder.writers - {source}, held := s.holder.held[source := e]))
  }

  function WithRows(s: System, rows: Rows): System {
    s.(tables := s.tables.(rows := rows))
  }

  /** A directory is changed ahead of its row. */
  function WithDirectory(s: System, key: SnapshotKey, d: Directory): System {
    s.(directories := s.directories[key := d], stale := s.stale + {key})
  }

  /** One step of a writer. */
  function Advance(s: System, step: Step): System
    requires Enabled(s, step)
    requires step.Check? || step.Validate? || step.LoadExisting? || step.PinDisk? || step.PinRow? || step.Receive?
             || step.RecordRow? || step.Hold?
  {
    var source := step.source;
    var w := s.holder.writers[source];
    match step
    case Check(_) =>
      if w.s.key in s.directories then SetWriter(s, source, Found(w.s))
      else
        WithDirectory(SetWriter(s, source, Installed(w.s)), w.s.key, Finished(w.s)).(taken := s.taken - {w.s.key})
    case Validate(_) => SetWriter(s, source, Unrecorded(w.e))
    case LoadExisting(_) =>
      SetWriter(s, source, Loaded(Read(At(s.directories, w.s.key), s.integrity).value, true))
    case PinDisk(_) =>
      WithDirectory(SetWriter(s, source, PinnedOnDisk(w.e.(pinned := true), w.refreshing, w.e.key !in s.stale)),
                    w.e.key, Pinned(s.directories[w.e.key]))
    case PinRow(_) =>
      WithRows(SetWriter(s, source, Loaded(w.e, w.refreshing)), SetPinned(s.tables.rows, w.e.key))
        .(stale := if w.clean then s.stale - {w.e.key} else s.stale)
    case Receive(_, verified, expires) =>
      WithDirectory(
        SetWriter(s, source, Unrecorded(Renewed(w.e, verified, expires))),
        w.e.key, Observe(s.directories[w.e.key], Receipt(w.e.key, verified, expires)))
    case RecordRow(_) =>
      WithRows(KeepSnapshot(s, source, w.e), Record(s.tables.rows, w.e, Inside(w.e.key)))
        .(stale := s.stale - {w.e.key}, unindexed := s.unindexed - {w.e.key})
    case Hold(_) => KeepSnapshot(s, source, w.e)
  }

  /** One step of a rebuild, after the rows have been cleared. */
  function Rebuilding(s: System, step: Step): System
    requires Enabled(s, step)
    requires step.RecordNext? || step.ActivateNext? || step.RepublishNext?
  {
    match step
    case RecordNext =>
      var found, rest := Read(At(s.directories, s.holder.listing[0]), s.integrity), s.holder.listing[1..];
      if found.None? then s.(holder := Recording(rest, s.holder.recovered))
      else WithRows(s, Record(s.tables.rows, found.value, Inside(found.value.key)))
             .(unindexed := s.unindexed - {found.value.key},
               holder := Recording(rest, s.holder.recovered + [found.value]))
    case ActivateNext =>
      var e := s.holder.rest[0];
      (if e.request.scope == Unscoped && Activatable(s.tables.rows, e.Source(), e.key)
       then WithRows(s, Activated(s.tables.rows, map[e.Source() := e.key])) else s)
        .(holder := Activating(s.holder.rest[1..]))
    case RepublishNext =>
      var e := s.holder.entries[0];
      var committed := CommitDataset(s.tables, e.id, e.payload);
      (if committed.Success? then s.(tables := committed.value) else s).(holder := Republishing(s.holder.entries[1..]))
  }

  function Apply(s: System, step: Step): System
    requires Enabled(s, step)
  {
    match step
    case BeginRun(plan) => s.(holder := Running(plan, map[], map[], {}))
    case Reuse(source, key) =>
      SetWriter(s, source, Loaded(Usable(s.tables.rows, s.directories, s.integrity, Some(key)).value, false))
    case StartWrite(source, snapshot) => SetWriter(s, source, Sealed(snapshot))
    case Check(_) => Advance(s, step)
    case Validate(_) => Advance(s, step)
    case LoadExisting(_) => Advance(s, step)
    case PinDisk(_) => Advance(s, step)
    case PinRow(_) => Advance(s, step)
    case Receive(_, _, _) => Advance(s, step)
    case RecordRow(_) => Advance(s, step)
    case Hold(_) => Advance(s, step)
    case Abandon(source) => FailWriter(s, source)
    case Commit(payload) =>
      s.(tables := CommitDataset(s.tables, DatasetOf(payload), payload).value,
         history := s.history + {Entry(DatasetOf(payload), payload)},
         holder := Publishing(DatasetOf(payload)))
    case WriteFile =>
      var id := s.holder.id;
      s.(files := Filed(s.files, s.tables.datasets, id), holder := Free)
    case EndRun => s.(holder := Free)
    case Mark(key) => WithRows(s, MarkCorrupt(s.tables.rows, key))
    case BeginClean(targets) => s.(holder := Cleaning(targets, None))
    case CleanDirectory(key) =>
      s.(directories := s.directories - {key}, stale := s.stale + {key},
         holder := Cleaning(s.holder.targets - {key}, Some(key)))
    case CleanRow =>
      WithRows(s, s.tables.rows - {s.holder.removed.value})
        .(stale := s.stale - {s.holder.removed.value}, holder := Cleaning(s.holder.targets, None))
    case EndClean => s.(holder := Free)
    case BeginDrop(id) => s.(tables := DeleteDataset(s.tables, id), holder := Dropping(id))
    case FinishDrop => s.(files := s.files - {s.holder.id}, holder := Free)
    case BeginRebuild(listing) =>
      WithRows(s, map[]).(stale := {}, unindexed := s.unindexed + s.tables.rows.Keys, holder := Recording(listing, []))
    case RecordNext => Rebuilding(s, step)
    case BeginActivation(order) => s.(holder := Activating(order))
    case ActivateNext => Rebuilding(s, step)
    case BeginRepublish(entries) => s.(holder := Republishing(entries))
    case RepublishNext => Rebuilding(s, step)
    case EndRebuild => s.(holder := Free)
    case Collect(gone) =>
      WithRows(s, s.tables.rows - gone)
        .(directories := s.directories - gone, stale := s.stale - gone,
          taken := s.taken + (gone * Window(s.holder) - s.damaged))
    case Crash => s.(holder := Free)
    case Damage(key, remains) =>
      s.(directories := if remains.Some? then s.directories[key := remains.value] else s.directories - {key},
         damaged := s.damaged + {key})
  }

  // ---------- what every step keeps ----------

  ghost predicate RowsOk(rows: Rows) {
    forall k <- rows :: RowAuthentic(k, rows[k]) && rows[k].location.Inside?
  }

  /** Every directory holds a whole capture, whatever was interrupted, unless something damaged it. */
  ghost predicate DiskOk(directories: Directories, damaged: set<SnapshotKey>, integrity: Integrity) {
    forall k <- directories :: Authentic(directories[k], k) && (k in damaged || Complete(directories[k], k, integrity))
  }

  /** Recorded datasets and dataset files are committed ones, each under the identity of its contents. */
  ghost predicate HistoryOk(datasets: seq<DatasetRow>, files: map<DatasetId, Payload>, history: set<Entry>) {
    && (forall d <- datasets :: Entry(d.id, d.payload) in history)
    && (forall id <- files :: Entry(id, files[id]) in history)
    && (forall e <- history :: e.id == DatasetOf(e.payload))
  }

  /** A scoped row is active only as a member of a committed dataset. */
  ghost predicate PublicationOk(rows: Rows, history: set<Entry>) {
    forall k <- rows :: rows[k].active ==>
      k.fingerprint.request.scope == Unscoped || exists e <- history :: k in e.payload.snapshots.Values
  }

  /** A reference is what its dataset's identity says, and its row is there unless a rebuild has yet to record it. */
  ghost predicate ReferencesOk(
    references: map<(DatasetId, SourceId), SnapshotKey>, rows: Rows, unindexed: set<SnapshotKey>)
  {
    && (forall r <- references :: r.1 in r.0.snapshots && references[r] == r.0.snapshots[r.1])
    && (forall k <- references.Values :: k in rows || k in unindexed)
    && unindexed !! rows.Keys
  }

  /** A writer carries a snapshot of its own key. */
  ghost predicate CarriedOk(w: Writer, integrity: Integrity) {
    match w
    case Sealed(s) => Sealable(s, integrity)
    case Found(s) => Sealable(s, integrity)
    case Loaded(e, _) => Describes(e, e.key)
    case PinnedOnDisk(e, _, _) => Describes(e, e.key)
    case Installed(e) => Sealable(e, integrity)
    case Unrecorded(e) => Describes(e, e.key)
  }

  /** What the lock holder carries was captured, or committed, before; and what it cleans is not referenced. */
  ghost predicate CarryingOk(
    holder: Holder, references: map<(DatasetId, SourceId), SnapshotKey>, history: set<Entry>, integrity: Integrity)
  {
    match holder
    case Running(_, writers, held, _) =>
      && writers.Keys !! held.Keys
      && (forall source <- writers ::
            Source(WriterKey(writers[source])) == source && CarriedOk(writers[source], integrity))
      && (forall source <- held ::
            Source(held[source].key) == source && Describes(held[source], held[source].key))
    case Cleaning(targets, removed) =>
      targets !! references.Values && (removed.Some? ==> removed.value !in references.Values)
    case Recording(_, recovered) => forall e <- recovered :: Describes(e, e.key)
    case Activating(rest) => forall e <- rest :: Describes(e, e.key)
    case Republishing(entries) => forall e <- entries :: e in history
    case _ => true
  }

  /** Tables, disk, datasets, and what the lock holder carries. */
  ghost predicate Sound(s: System) {
    && Index.Valid(s.tables)
    && RowsOk(s.tables.rows)
    && DiskOk(s.directories, s.damaged, s.integrity)
    && HistoryOk(s.tables.datasets, s.files, s.history)
    && PublicationOk(s.tables.rows, s.history)
    && ReferencesOk(s.tables.references, s.tables.rows, s.unindexed)
    && CarryingOk(s.holder, s.tables.references, s.history, s.integrity)
  }

  // ---------- how index and disk go together ----------

  /** Nothing is promised about keys that something else has damaged or a collection has taken. */
  function Excused(s: System): set<SnapshotKey> {
    s.damaged + s.taken
  }

  predicate Backed(key: SnapshotKey, directories: Directories, excused: set<SnapshotKey>) {
    key in directories || key in excused
  }

  /** What a dataset references keeps its directory. */
  ghost predicate FrozenOk(
    references: map<(DatasetId, SourceId), SnapshotKey>, directories: Directories, excused: set<SnapshotKey>)
  {
    forall k <- references.Values :: Backed(k, directories, excused)
  }

  predicate RowMatches(key: SnapshotKey, row: Row, directories: Directories) {
    && key in directories
    && Load(directories[key]).Success?
    && Agrees(row, Load(directories[key]).value)
  }

  /** A committed row holds what its directory reads back. */
  predicate InStep(key: SnapshotKey, rows: Rows, directories: Directories, excused: set<SnapshotKey>) {
    key in rows && rows[key].state == Committed && key !in excused ==> RowMatches(key, rows[key], directories)
  }

  /** Rows are in step, except in between the two updates. */
  ghost predicate RefinesOk(
    rows: Rows, directories: Directories, stale: set<SnapshotKey>, excused: set<SnapshotKey>)
  {
    forall k <- rows :: k !in stale ==> InStep(k, rows, directories, excused)
  }

  /** The row of a loaded capture, if any, has its directory, which reads back as the capture. */
  predicate LoadedOk(k: SnapshotKey, e: Snapshot, rows: Rows, directories: Directories, excused: set<SnapshotKey>) {
    && (k in rows ==> Backed(k, directories, excused))
    && (k in directories && k !in excused ==> Load(directories[k]) == Success(e))
  }

  /** How the snapshot that a writer carries relates to the index and the disk. */
  ghost predicate WriterOk(
    w: Writer, rows: Rows, directories: Directories, stale: set<SnapshotKey>, excused: set<SnapshotKey>)
  {
    var k := WriterKey(w);
    match w
    case Sealed(_) => true
    case Found(_) => true
    case Loaded(e, _) => LoadedOk(k, e, rows, directories, excused)
    case PinnedOnDisk(e, _, clean) =>
      && LoadedOk(k, e, rows, directories, excused)
      && (k in rows ==> k in stale)
      && (clean && k in rows && rows[k].state == Committed && k !in excused ==>
            RowMatches(k, rows[k].(pinned := true), directories))
    case Installed(e) => LoadedOk(k, e, rows, directories, excused)
    case Unrecorded(e) => k in excused || (k in directories && Load(directories[k]) == Success(e))
  }

  ghost predicate RunOk(
    writers: map<SourceId, Writer>, held: map<SourceId, Snapshot>, rows: Rows, directories: Directories,
    stale: set<SnapshotKey>, excused: set<SnapshotKey>)
  {
    && (forall source <- writers :: WriterOk(writers[source], rows, directories, stale, excused))
    && (forall source <- held :: held[source].key in rows ==> Backed(held[source].key, directories, excused))
  }

  ghost predicate HolderOk(s: System) {
    match s.holder
    case Running(_, writers, held, _) => RunOk(writers, held, s.tables.rows, s.directories, s.stale, Excused(s))
    case Cleaning(_, removed) => removed.Some? ==> removed.value !in s.directories
    case Recording(listing, _) =>
      && s.stale == {}
      && (forall k <- s.directories :: k in s.damaged || k in listing || k in s.tables.rows)
    case Activating(_) => s.stale == {}
    case Republishing(_) => s.stale == {}
    case _ => true
  }

  ghost predicate Guarded(s: System) {
    && FrozenOk(s.tables.references, s.directories, Excused(s))
    && RefinesOk(s.tables.rows, s.directories, s.stale, Excused(s))
    && HolderOk(s)
  }

  // ---------- what a collection has taken ----------

  predicate LooksAgain(w: Writer) {
    w.Loaded? || w.PinnedOnDisk? || w.Installed?
  }

  /** A taken directory is gone; nobody has loaded it, and a rebuild does not find it. */
  ghost predicate TakenOk(s: System) {
    && s.taken !! s.directories.Keys
    && s.taken !! s.damaged
    && match s.holder
       case Running(_, writers, _, _) =>
         forall source <- writers :: LooksAgain(writers[source]) ==> WriterKey(writers[source]) !in s.taken
       case Recording(_, _) => s.taken !! s.tables.rows.Keys
       case Activating(_) => s.taken !! s.tables.rows.Keys
       case Republishing(_) => s.taken !! s.tables.rows.Keys
       case _ => true
  }

  /** Kept by every step there is, collections in any window included. */
  ghost predicate Inv(s: System) {
    Sound(s) && Guarded(s) && TakenOk(s)
  }
}
