/**
 Where the guarantee for frozen inputs ends, exactly: when a collection that has entered a writer's
 window can cost a dataset one of its inputs, and when it cannot.
 */
module WorkspaceLimits {
  import opened Outcomes
  import opened Identity
  import opened Snapshots
  import opened Index
  import opened Store
  import opened Recovery
  import opened Workspace
  import opened WorkspaceSound
  import opened WorkspaceSteps
  import opened WorkspaceRuns

  /** No continuation in which collections stay out of the windows ever loses a frozen input. */
  ghost predicate NeverLoses(s: System) {
    forall steps :: Feasible(s, steps) && Careful(s, steps) ==> Kept(After(s, steps))
  }

  /** A frozen input without a directory, although nothing else has touched the disk. */
  ghost predicate Lost(s: System, key: SnapshotKey) {
    key in s.tables.references.Values && key !in s.directories && key !in s.damaged
  }

  /** The directory or the row that this capture still needs is there. */
  predicate CanFinish(w: Writer, source: SourceId, rows: Rows, directories: Directories) {
    match w
    case Sealed(_) => true
    case Found(s) => s.key in directories
    case Loaded(e, refreshing) => if refreshing then e.key in directories else Activatable(rows, source, e.key)
    case PinnedOnDisk(e, refreshing, _) =>
      if refreshing then e.key in directories else Activatable(rows, source, e.key)
    case Installed(e) => e.key in directories
    case Unrecorded(_) => true
  }

  /** The run can still publish: nothing has failed, every capture can finish, every snapshot be activated. */
  predicate CanPublish(s: System) {
    && s.holder.Running?
    && s.holder.failed == {}
    && (forall source <- s.holder.writers ::
          CanFinish(s.holder.writers[source], source, s.tables.rows, s.directories))
    && (forall source <- s.holder.held :: Activatable(s.tables.rows, source, s.holder.held[source].key))
  }

  /** What the run is going to publish without looking at its directory again. */
  function Awaiting(holder: Holder): set<SnapshotKey> {
    if holder.Running? then Window(holder) + set source <- holder.held :: holder.held[source].key else {}
  }

  /**
   When a frozen input can still be lost, exactly: if one is lost already, or the run that holds the lock
   can still publish and a collection has taken something it is going to publish without looking.
   */
  lemma LosesExactly(s: System)
    requires Inv(s)
    ensures NeverLoses(s)
            <==> s.tables.references.Values !! s.taken && !(CanPublish(s) && Awaiting(s.holder) * s.taken != {})
  {
    hide Inv, NeverLoses, CanPublish, Awaiting;
    if !(s.tables.references.Values !! s.taken) {
      TakenIsLost(s);
    } else if CanPublish(s) && Awaiting(s.holder) * s.taken != {} {
      var key :| key in Awaiting(s.holder) * s.taken;
      var steps := RunLoses(s, key);
      LostOnTheWay(s, steps, key);
    } else {
      HarmlessNeverLoses(s);
    }
  }

  /**
   Which collections are harmless. As long as none has entered a window before, no run can lose a frozen
   input after a collection if and only if it takes no undamaged directory that a writer is about to
   record, or the run cannot publish any more.
   */
  lemma CollectionIsSafeExactly(s: System, gone: set<SnapshotKey>)
    requires Inv(s) && s.taken == {} && Enabled(s, Collect(gone))
    ensures var collected := Apply(s, Collect(gone));
            NeverLoses(collected) <==> gone * Window(s.holder) <= s.damaged || !CanPublish(collected)
  {
    var collected := Apply(s, Collect(gone));
    hide Inv, NeverLoses, CanPublish, Window, Awaiting;
    StepKeepsInvariant(s, Collect(gone));
    CollectedIsAwaited(s, gone);
    hide Apply, Enabled;
    LosesExactly(collected);
  }

  lemma CollectedIsAwaited(s: System, gone: set<SnapshotKey>)
    requires s.taken == {} && Enabled(s, Collect(gone))
    ensures var collected := Apply(s, Collect(gone));
            && collected.tables.references.Values !! collected.taken
            && (Awaiting(collected.holder) * collected.taken == {} <==> gone * Window(s.holder) <= s.damaged)
  {
    var collected := Apply(s, Collect(gone));
    assert collected.taken == gone * Window(s.holder) - s.damaged && collected.holder == s.holder;
    assert collected.tables.references == s.tables.references;
    forall k <- gone ensures k !in s.tables.references.Values {
      assert Unprotected(s.tables, k);
    }
    hide Apply, Enabled, Window, Awaiting;
    WindowIsAwaited(s.holder);
    assert collected.taken <= Awaiting(s.holder);
    NoneIsLeft(gone * Window(s.holder), s.damaged);
  }

  lemma NoneIsLeft(keys: set<SnapshotKey>, others: set<SnapshotKey>)
    ensures keys - others == {} <==> keys <= others
  {
    if keys - others == {} {
      forall k <- keys ensures k in others {
        assert k !in keys - others;
      }
    }
  }

  lemma WindowIsAwaited(holder: Holder)
    ensures Window(holder) <= Awaiting(holder)
  {
  }

  // ---------- losing ----------

  lemma LostOnTheWay(s: System, steps: seq<Step>, key: SnapshotKey)
    requires Feasible(s, steps) && Careful(s, steps) && Lost(After(s, steps), key)
    ensures !NeverLoses(s)
  {
    hide Feasible, Careful, After;
  }

  lemma TakenIsLost(s: System)
    requires Inv(s) && !(s.tables.references.Values !! s.taken)
    ensures !NeverLoses(s)
  {
    var key :| key in s.tables.references.Values && key in s.taken;
    assert TakenOk(s);
    hide Sound, Guarded;
    assert Feasible(s, []) && Careful(s, []) && After(s, []) == s;
    LostOnTheWay(s, [], key);
  }

  /** Some capture, of this source, that the store could finish. */
  function SampleOf(source: SourceId, integrity: Integrity): Snapshot {
    SnapshotOf(
      Request(source, "", Sampling(Full, None, None, None, None, None), "", None, None, Unscoped), "",
      Extraction([Table("", 0, 0, 0, "")], None, None), integrity, false, 0, 0, 0)
  }

  /** Every capture the store finishes is sealed as the workspace requires. */
  lemma CapturesAreSealable(
    request: Request, provider: string, extraction: Extraction, integrity: Integrity, pinned: bool,
    started: Timestamp, completed: Timestamp, expires: Timestamp)
    requires extraction.batches != [] && extraction.ending == None && request.projection != Some([])
    ensures Sealable(SnapshotOf(request, provider, extraction, integrity, pinned, started, completed, expires),
                     integrity)
  {
    FreshCapture(request, provider, extraction, integrity, pinned, started, completed, expires);
    var s := SnapshotOf(request, provider, extraction, integrity, pinned, started, completed, expires);
    CompleteReads(Finished(s), s.key, integrity);
  }

  predicate Unreadable(s: System, key: SnapshotKey) {
    key in s.directories && Read(At(s.directories, key), s.integrity).None?
  }

  /** Something else puts the capture of `x` back into its directory. */
  function Restore(x: Snapshot): Step {
    Damage(x.key, Some(Finished(x)))
  }

  /** How a source that has not got its snapshot goes on. An unreadable directory has to be restored first. */
  function Next(s: System, source: SourceId): Step
    requires s.holder.Running?
  {
    if source !in s.holder.writers then StartWrite(source, SampleOf(source, s.integrity))
    else
      match s.holder.writers[source]
      case Sealed(x) => if Unreadable(s, x.key) then Restore(x) else Check(source)
      case Found(x) => if Unreadable(s, x.key) then Restore(x) else LoadExisting(source)
      case Loaded(_, refreshing) => if refreshing then Receive(source, 0, 0) else Hold(source)
      case PinnedOnDisk(_, _, _) => PinRow(source)
      case Installed(e) =>
        if e.key in s.directories && !Validates(s.directories[e.key], e, s.integrity) then Restore(e)
        else Validate(source)
      case Unrecorded(_) => RecordRow(source)
  }

  /** How far a source is from its snapshot. */
  function Stage(s: System, source: SourceId): nat
    requires s.holder.Running?
  {
    if source in s.holder.held then 0
    else if source !in s.holder.writers then 12
    else WriterStage(s, s.holder.writers[source])
  }

  function WriterStage(s: System, w: Writer): (r: nat)
    ensures 0 < r < 12
  {
    match w
    case Sealed(x) => if Unreadable(s, x.key) then 11 else 10
    case Found(x) => if Unreadable(s, x.key) then 9 else 8
    case PinnedOnDisk(_, _, _) => 7
    case Loaded(_, _) => 6
    case Installed(e) =>
      if e.key in s.directories && !Validates(s.directories[e.key], e, s.integrity) then 5 else 4
    case Unrecorded(_) => 3
  }

  /** This source has yet to get its snapshot. */
  predicate Pending(s: System, source: SourceId) {
    Writing(s, source) || Unstarted(s, source)
  }

  lemma NextIsEnabled(s: System, source: SourceId)
    requires Sound(s) && CanPublish(s) && Pending(s, source)
    ensures Enabled(s, Next(s, source)) && Safe(s, Next(s, source))
  {
    hide Sound, CanPublish, Enabled, Next, Unstarted, CarriedOk;
    if Unstarted(s, source) {
      StartIsEnabled(s, source);
    } else {
      CarriedSnapshot(s, source);
      FinishFacts(s, source);
      WriterGoesOn(s, source);
    }
  }

  lemma StartIsEnabled(s: System, source: SourceId)
    requires Unstarted(s, source)
    ensures Next(s, source) == StartWrite(source, SampleOf(source, s.integrity))
    ensures Enabled(s, StartWrite(source, SampleOf(source, s.integrity)))
  {
    SampleIsSealable(source, s.integrity);
    hide SampleOf, Sealable;
  }

  lemma RestoreIsEnabled(s: System, x: Snapshot)
    requires Sealable(x, s.integrity) && x.key in s.directories
    ensures Enabled(s, Restore(x))
  {
    FinishedIsDetermined(x, s.integrity);
    hide Sealable, Finished, Authentic;
  }

  lemma WriterGoesOn(s: System, source: SourceId)
    requires Writing(s, source) && CarriedOk(s.holder.writers[source], s.integrity)
    requires CanFinish(s.holder.writers[source], source, s.tables.rows, s.directories)
    ensures Enabled(s, Next(s, source)) && Safe(s, Next(s, source))
  {
    var w := s.holder.writers[source];
    if (w.Sealed? || w.Found?) && Unreadable(s, w.s.key) {
      RestoreIsEnabled(s, w.s);
      assert Next(s, source) == Restore(w.s);
      hide Enabled;
    } else if w.Installed? && !Validates(s.directories[w.e.key], w.e, s.integrity) {
      RestoreIsEnabled(s, w.e);
      assert Next(s, source) == Restore(w.e);
      hide Enabled;
    } else {
      hide Sealable, Read, Validates, Describes, Activatable;
    }
  }

  lemma SampleIsSealable(source: SourceId, integrity: Integrity)
    ensures Sealable(SampleOf(source, integrity), integrity) && Source(SampleOf(source, integrity).key) == source
  {
    CapturesAreSealable(
      Request(source, "", Sampling(Full, None, None, None, None, None), "", None, None, Unscoped), "",
      Extraction([Table("", 0, 0, 0, "")], None, None), integrity, false, 0, 0, 0);
  }

  // ---------- a source goes on ----------

  /** What belongs to other sources is as it was. */
  ghost predicate OthersUntouched(s: System, after: System, source: SourceId) {
    && (forall k :: Source(k) != source ==> (k in after.tables.rows <==> k in s.tables.rows))
    && (forall k <- s.tables.rows :: Source(k) != source ==> after.tables.rows[k] == s.tables.rows[k])
    && (forall k :: Source(k) != source ==> (k in after.directories <==> k in s.directories))
    && (forall k :: Source(k) != source ==> (k in after.taken <==> k in s.taken))
  }

  predicate IsStepOf(step: Step, source: SourceId) {
    (AboutWriter(step) && step.source == source) || (step.Damage? && Source(step.key) == source)
  }

  lemma StepTouchesItsSource(s: System, step: Step, source: SourceId)
    requires Sound(s) && Enabled(s, step) && IsStepOf(step, source)
    ensures OthersUntouched(s, Apply(s, step), source)
  {
    hide Sound, Enabled, Apply, OthersUntouched;
    BusyIsWriting(s, step);
    if step.RecordRow? || step.PinRow? {
      RowStepTouchesItsSource(s, step, source);
    } else if step.Check? || step.PinDisk? || step.Receive? {
      DiskStepTouchesItsSource(s, step, source);
    } else if step.Damage? {
      DamageTouchesItsSource(s, step, source);
    } else {
      RowsUntouched(s, step);
      DiskUntouched(s, step);
      TakenUntouched(s, step);
      NothingTouched(s, Apply(s, step), source);
    }
  }

  /** A step that changes something of a source is one of its writer's. */
  lemma BusyIsWriting(s: System, step: Step)
    requires Sound(s) && Enabled(s, step)
    ensures step.RecordRow? || step.PinRow? || step.Check? || step.PinDisk? || step.Receive? ==>
              Writing(s, step.source) && Source(WriterKey(s.holder.writers[step.source])) == step.source
  {
    if step.RecordRow? || step.PinRow? || step.Check? || step.PinDisk? || step.Receive? {
      CarriedSnapshot(s, step.source);
    }
    hide Sound, CarriedOk;
  }

  lemma NothingTouched(s: System, after: System, source: SourceId)
    requires after.tables.rows == s.tables.rows && after.directories == s.directories && after.taken == s.taken
    ensures OthersUntouched(s, after, source)
  {
  }

  lemma RowStepTouchesItsSource(s: System, step: Step, source: SourceId)
    requires Enabled(s, step) && (step.RecordRow? || step.PinRow?) && step.source == source
    requires Source(WriterKey(s.holder.writers[source])) == source
    ensures OthersUntouched(s, Apply(s, step), source)
  {
  }

  lemma DiskStepTouchesItsSource(s: System, step: Step, source: SourceId)
    requires Enabled(s, step) && (step.Check? || step.PinDisk? || step.Receive?) && step.source == source
    requires Source(WriterKey(s.holder.writers[source])) == source
    ensures OthersUntouched(s, Apply(s, step), source)
  {
    hide Pinned, Observe, Finished;
  }

  lemma DamageTouchesItsSource(s: System, step: Step, source: SourceId)
    requires Enabled(s, step) && step.Damage? && Source(step.key) == source
    ensures OthersUntouched(s, Apply(s, step), source)
  {
    hide Authentic;
  }

  lemma DamageChangesNoHolder(s: System, step: Step)
    requires Enabled(s, step) && step.Damage?
    ensures var after := Apply(s, step);
            && after.holder == s.holder
            && after.tables == s.tables
            && after.taken == s.taken
            && after.integrity == s.integrity
  {
    hide Authentic;
  }

  /** The source has its snapshot, whose row can be activated; or it is nearer to it, and can still finish. */
  ghost predicate Advanced(s: System, after: System, source: SourceId) {
    && s.holder.Running?
    && after.holder.Running?
    && after.holder.plan == s.holder.plan
    && after.holder.failed == s.holder.failed
    && SameOthers(source, s.holder.writers, after.holder.writers)
    && (if source in after.holder.writers then
          && CanFinish(after.holder.writers[source], source, after.tables.rows, after.directories)
          && after.holder.held == s.holder.held
          && Stage(after, source) < Stage(s, source)
        else
          && source in after.holder.held
          && after.holder.held == s.holder.held[source := after.holder.held[source]]
          && Activatable(after.tables.rows, source, after.holder.held[source].key))
    && (forall k :: k in Awaiting(s.holder) && k in s.taken && Source(k) == source ==>
          k in Awaiting(after.holder) && k in after.taken)
  }

  lemma NextAdvances(s: System, source: SourceId)
    requires Inv(s) && CanPublish(s) && Pending(s, source)
    requires Enabled(s, Next(s, source))
    ensures Advanced(s, Apply(s, Next(s, source)), source)
  {
    hide Inv, CanPublish, Advanced, Enabled, Apply, Next;
    InvParts(s);
    if Unstarted(s, source) {
      StartIsEnabled(s, source);
      StartAdvances(s, source);
    } else {
      CarriedSnapshot(s, source);
      FinishFacts(s, source);
      match s.holder.writers[source] {
        case Sealed(x) => SealedAdvances(s, source, x);
        case Found(x) => FoundAdvances(s, source, x);
        case Loaded(e, refreshing) => LoadedAdvances(s, source, e, refreshing);
        case PinnedOnDisk(e, refreshing, clean) => PinnedAdvances(s, source, e, refreshing, clean);
        case Installed(e) => InstalledAdvances(s, source, e);
        case Unrecorded(e) => UnrecordedAdvances(s, source, e);
      }
    }
  }

  lemma InvParts(s: System)
    requires Inv(s)
    ensures Sound(s) && TakenOk(s)
  {
  }

  lemma FinishFacts(s: System, source: SourceId)
    requires CanPublish(s) && Writing(s, source)
    ensures CanFinish(s.holder.writers[source], source, s.tables.rows, s.directories)
  {
  }

  /** A source that is not done awaits nothing, unless its capture is in the window. */
  lemma AwaitedIsUnrecorded(s: System, source: SourceId, k: SnapshotKey)
    requires Sound(s) && s.holder.Running? && source !in s.holder.held
    requires k in Awaiting(s.holder) && Source(k) == source
    ensures source in s.holder.writers && s.holder.writers[source].Unrecorded?
    ensures WriterKey(s.holder.writers[source]) == k
  {
    hide CarriedOk, Describes, RowsOk, DiskOk, HistoryOk, PublicationOk, ReferencesOk, Index.Valid;
  }

  lemma NothingAwaited(s: System, source: SourceId)
    requires Sound(s) && s.holder.Running? && Pending(s, source)
    requires source in s.holder.writers ==> !s.holder.writers[source].Unrecorded?
    ensures forall k :: k in Awaiting(s.holder) ==> Source(k) != source
  {
    PendingIsNotHeld(s, source);
    forall k | k in Awaiting(s.holder) ensures Source(k) != source {
      if Source(k) == source {
        AwaitedIsUnrecorded(s, source, k);
      }
    }
    hide Sound, Awaiting;
  }

  lemma PendingIsNotHeld(s: System, source: SourceId)
    requires Sound(s) && s.holder.Running? && Pending(s, source)
    ensures source !in s.holder.held
  {
    hide CarriedOk, Describes, RowsOk, DiskOk, HistoryOk, PublicationOk, ReferencesOk, Index.Valid;
  }

  /** The writer has come one stage nearer, with nothing of its source awaited so far. */
  lemma StageAdvances(s: System, after: System, source: SourceId, w: Writer)
    requires Sound(s) && Pending(s, source) && after.holder == s.holder.(writers := s.holder.writers[source := w])
    requires source in s.holder.writers ==> !s.holder.writers[source].Unrecorded?
    requires CanFinish(w, source, after.tables.rows, after.directories)
    requires source in s.holder.writers ==> WriterStage(after, w) < WriterStage(s, s.holder.writers[source])
    ensures Advanced(s, after, source)
  {
    hide Sound, Awaiting, CanFinish, WriterStage, SameOthers;
    NothingAwaited(s, source);
    PendingIsNotHeld(s, source);
    OneWriterChanges(source, s.holder.writers, w);
  }

  lemma StartAdvances(s: System, source: SourceId)
    requires Sound(s) && Unstarted(s, source) && Enabled(s, StartWrite(source, SampleOf(source, s.integrity)))
    requires Next(s, source) == StartWrite(source, SampleOf(source, s.integrity))
    ensures Advanced(s, Apply(s, Next(s, source)), source)
  {
    var x := SampleOf(source, s.integrity);
    assert Apply(s, StartWrite(source, x)) == SetWriter(s, source, Sealed(x));
    hide Sound, Advanced, SampleOf, Enabled, Apply, Next;
    StageAdvances(s, SetWriter(s, source, Sealed(x)), source, Sealed(x));
  }

  lemma RestoreAdvances(s: System, source: SourceId, x: Snapshot)
    requires Sound(s) && Writing(s, source) && Sealable(x, s.integrity) && Enabled(s, Restore(x))
    requires match s.holder.writers[source]
             case Sealed(y) => y == x && Unreadable(s, x.key)
             case Found(y) => y == x && Unreadable(s, x.key)
             case Installed(y) =>
               y == x && x.key in s.directories && !Validates(s.directories[x.key], x, s.integrity)
             case _ => false
    ensures Advanced(s, Apply(s, Restore(x)), source)
  {
    var after := Apply(s, Restore(x));
    RestoredIsIntact(s, x);
    assert s.holder.writers[source := s.holder.writers[source]] == s.holder.writers;
    hide Sound, Advanced, Sealable, Enabled, Apply, Validates, Unreadable, Restore;
    StageAdvances(s, after, source, s.holder.writers[source]);
  }

  lemma RestoredIsIntact(s: System, x: Snapshot)
    requires Sealable(x, s.integrity) && Enabled(s, Restore(x))
    ensures var after := Apply(s, Restore(x));
            && after.holder == s.holder
            && x.key in after.directories
            && !Unreadable(after, x.key)
            && Validates(after.directories[x.key], x, after.integrity)
  {
    var after := Apply(s, Restore(x));
    DamageChangesNoHolder(s, Restore(x));
    CompleteReads(Finished(x), x.key, s.integrity);
    FinishedValidates(x, s.integrity);
    assert after.directories == s.directories[x.key := Finished(x)];
    hide Finished, Sealable, Enabled, Apply, Validates, Read;
  }

  lemma SealedAdvances(s: System, source: SourceId, x: Snapshot)
    requires Sound(s) && Writing(s, source) && s.holder.writers[source] == Sealed(x) && Sealable(x, s.integrity)
    requires Enabled(s, Next(s, source))
    ensures Advanced(s, Apply(s, Next(s, source)), source)
  {
    hide Sound, Advanced, Finished, Sealable, Read, Validates;
    if Unreadable(s, x.key) {
      RestoreAdvances(s, source, x);
    } else {
      var after, w := Apply(s, Check(source)), if x.key in s.directories then Found(x) else Installed(x);
      assert after.holder == s.holder.(writers := s.holder.writers[source := w]);
      FinishedValidates(x, s.integrity);
      assert x.key in after.directories && after.integrity == s.integrity;
      assert x.key in s.directories ==> after.directories == s.directories;
      assert x.key !in s.directories ==> after.directories[x.key] == Finished(x);
      hide Enabled, Apply;
      StageAdvances(s, after, source, w);
    }
  }

  lemma FoundAdvances(s: System, source: SourceId, x: Snapshot)
    requires Sound(s) && Writing(s, source) && s.holder.writers[source] == Found(x) && Sealable(x, s.integrity)
    requires x.key in s.directories && Enabled(s, Next(s, source))
    ensures Advanced(s, Apply(s, Next(s, source)), source)
  {
    if Unreadable(s, x.key) {
      RestoreAdvances(s, source, x);
    } else {
      LoadingAdvances(s, source, x);
    }
  }

  lemma LoadingAdvances(s: System, source: SourceId, x: Snapshot)
    requires Sound(s) && Writing(s, source) && s.holder.writers[source] == Found(x)
    requires x.key in s.directories && !Unreadable(s, x.key)
    ensures Enabled(s, LoadExisting(source)) && Advanced(s, Apply(s, LoadExisting(source)), source)
  {
    hide Sound, Advanced, Read, WriterStage;
    ReadsOwnKey(s, x.key);
    var e := Read(At(s.directories, x.key), s.integrity).value;
    assert Apply(s, LoadExisting(source)) == SetWriter(s, source, Loaded(e, true));
    hide Enabled, Apply, Unreadable;
    StagesOfFound(s, SetWriter(s, source, Loaded(e, true)), x, e);
    StageAdvances(s, SetWriter(s, source, Loaded(e, true)), source, Loaded(e, true));
  }

  lemma ReadsOwnKey(s: System, key: SnapshotKey)
    requires Sound(s)
    ensures Read(At(s.directories, key), s.integrity).Some? ==>
              Read(At(s.directories, key), s.integrity).value.key == key
  {
    ReadIsDescribed(s, key);
    hide Sound, Read;
  }

  lemma StagesOfFound(s: System, after: System, x: Snapshot, e: Snapshot)
    ensures WriterStage(after, Loaded(e, true)) < WriterStage(s, Found(x))
  {
    hide Unreadable;
  }

  lemma ReceivingAdvances(s: System, source: SourceId, e: Snapshot)
    requires Sound(s) && Writing(s, source) && s.holder.writers[source] == Loaded(e, true)
    requires e.key in s.directories && Enabled(s, Receive(source, 0, 0))
    ensures Advanced(s, Apply(s, Receive(source, 0, 0)), source)
  {
    hide Sound, Advanced, Observe;
    var after := Apply(s, Receive(source, 0, 0));
    var w := Unrecorded(Renewed(e, 0, 0));
    assert after == Advance(s, Receive(source, 0, 0));
    assert after.holder == s.holder.(writers := s.holder.writers[source := w]);
    hide Enabled, Apply;
    StageAdvances(s, after, source, w);
  }

  lemma HeldAdvances(s: System, source: SourceId, e: Snapshot)
    requires Sound(s) && Writing(s, source) && s.holder.writers[source] == Loaded(e, false)
    requires Activatable(s.tables.rows, source, e.key) && Enabled(s, Hold(source))
    ensures Advanced(s, Apply(s, Hold(source)), source)
  {
    hide Sound, Awaiting, Activatable, SameOthers;
    assert Apply(s, Hold(source)) == KeepSnapshot(s, source, e);
    OneWriterChanges(source, s.holder.writers, Loaded(e, false));
    NothingAwaited(s, source);
    hide Enabled, Apply;
  }

  lemma LoadedAdvances(s: System, source: SourceId, e: Snapshot, refreshing: bool)
    requires Sound(s) && Writing(s, source) && s.holder.writers[source] == Loaded(e, refreshing)
    requires CanFinish(Loaded(e, refreshing), source, s.tables.rows, s.directories) && Enabled(s, Next(s, source))
    ensures Advanced(s, Apply(s, Next(s, source)), source)
  {
    if refreshing {
      ReceivingAdvances(s, source, e);
    } else {
      HeldAdvances(s, source, e);
    }
  }

  lemma PinnedAdvances(s: System, source: SourceId, e: Snapshot, refreshing: bool, clean: bool)
    requires Sound(s) && Writing(s, source) && s.holder.writers[source] == PinnedOnDisk(e, refreshing, clean)
    requires CanFinish(PinnedOnDisk(e, refreshing, clean), source, s.tables.rows, s.directories)
    requires Enabled(s, Next(s, source))
    ensures Advanced(s, Apply(s, Next(s, source)), source)
  {
    hide Sound, Advanced, Activatable, SetPinned;
    var after := Apply(s, PinRow(source));
    assert Enabled(s, PinRow(source)) && after == Advance(s, PinRow(source));
    hide Enabled, Apply;
    assert after.holder == s.holder.(writers := s.holder.writers[source := Loaded(e, refreshing)]);
    assert after.directories == s.directories && after.tables.rows == SetPinned(s.tables.rows, e.key);
    PinKeepsActivatable(s.tables.rows, source, e.key);
    StageAdvances(s, after, source, Loaded(e, refreshing));
  }

  lemma PinKeepsActivatable(rows: Rows, source: SourceId, key: SnapshotKey)
    ensures Activatable(SetPinned(rows, key), source, key) <==> Activatable(rows, source, key)
  {
  }

  lemma InstalledAdvances(s: System, source: SourceId, e: Snapshot)
    requires Sound(s) && Writing(s, source) && s.holder.writers[source] == Installed(e) && Sealable(e, s.integrity)
    requires e.key in s.directories && Enabled(s, Next(s, source))
    ensures Advanced(s, Apply(s, Next(s, source)), source)
  {
    hide Sound, Advanced, Sealable, Validates;
    if !Validates(s.directories[e.key], e, s.integrity) {
      RestoreAdvances(s, source, e);
    } else {
      var after := Apply(s, Validate(source));
      assert after == SetWriter(s, source, Unrecorded(e));
      hide Enabled, Apply;
      StageAdvances(s, after, source, Unrecorded(e));
    }
  }

  lemma UnrecordedAdvances(s: System, source: SourceId, e: Snapshot)
    requires Sound(s) && Writing(s, source) && s.holder.writers[source] == Unrecorded(e) && Describes(e, e.key)
    requires Source(e.key) == source && Enabled(s, Next(s, source))
    ensures Advanced(s, Apply(s, Next(s, source)), source)
  {
    hide Sound, Record, Describes, Activatable, SameOthers, Awaiting, Advanced;
    var after := Apply(s, RecordRow(source));
    assert after.holder == KeepSnapshot(s, source, e).holder && after.taken == s.taken;
    assert after.tables.rows == Record(s.tables.rows, e, Inside(e.key));
    hide Enabled, Apply, Next;
    RowsAreAuthentic(s);
    RecordedIsActivatable(s.tables.rows, e);
    UnrecordedStaysAwaited(s, after, source, e);
    KeptIsAdvanced(s, after, source, e);
  }

  lemma KeptIsAdvanced(s: System, after: System, source: SourceId, e: Snapshot)
    requires Writing(s, source) && after.holder == KeepSnapshot(s, source, e).holder && after.taken == s.taken
    requires Activatable(after.tables.rows, source, e.key)
    requires forall k :: k in Awaiting(s.holder) && Source(k) == source ==> k == e.key
    requires e.key in Awaiting(after.holder)
    ensures Advanced(s, after, source)
  {
    hide Activatable, Awaiting, Stage, CanFinish;
  }

  lemma RowsAreAuthentic(s: System)
    requires Sound(s)
    ensures forall k <- s.tables.rows :: RowAuthentic(k, s.tables.rows[k])
  {
  }

  lemma UnrecordedStaysAwaited(s: System, after: System, source: SourceId, e: Snapshot)
    requires Sound(s) && Writing(s, source) && s.holder.writers[source] == Unrecorded(e)
    requires after.holder == KeepSnapshot(s, source, e).holder
    ensures forall k :: k in Awaiting(s.holder) && Source(k) == source ==> k == e.key
    ensures e.key in Awaiting(after.holder)
  {
    PendingIsNotHeld(s, source);
    forall k | k in Awaiting(s.holder) && Source(k) == source ensures k == e.key {
      AwaitedIsUnrecorded(s, source, k);
    }
    hide Sound;
    assert after.holder.held[source] == e;
  }

  lemma RecordedIsActivatable(rows: Rows, e: Snapshot)
    requires Describes(e, e.key) && forall k <- rows :: RowAuthentic(k, rows[k])
    ensures Activatable(Record(rows, e, Inside(e.key)), Source(e.key), e.key)
  {
  }

  // ---------- the run goes on and publishes ----------

  /** The sources that have yet to get their snapshot. */
  function ToDo(holder: Holder): set<SourceId>
    requires holder.Running?
  {
    holder.writers.Keys + set source <- holder.plan | source !in holder.held
  }

  /** What an advance of one source is for the run. */
  lemma AdvanceKeepsRun(s: System, step: Step, source: SourceId)
    requires Inv(s) && CanPublish(s) && Enabled(s, step) && IsStepOf(step, source)
    requires Advanced(s, Apply(s, step), source)
    ensures CanPublish(Apply(s, step))
    ensures forall k :: k in Awaiting(s.holder) && k in s.taken ==>
              k in Awaiting(Apply(s, step).holder) && k in Apply(s, step).taken
  {
    var after := Apply(s, step);
    InvParts(s);
    hide Inv, Enabled, Apply, OthersUntouched, Sound, TakenOk;
    StepTouchesItsSource(s, step, source);
    OthersCanPublish(s, after, source);
    OthersStayAwaited(s, after, source);
  }

  lemma OthersCanPublish(s: System, after: System, source: SourceId)
    requires Sound(s) && CanPublish(s) && OthersUntouched(s, after, source) && Advanced(s, after, source)
    ensures CanPublish(after)
  {
    forall other <- after.holder.writers
      ensures CanFinish(after.holder.writers[other], other, after.tables.rows, after.directories)
    {
      if other != source {
        CarriedSnapshot(s, other);
        FinishFacts(s, other);
        OtherCanFinish(s, after, source, s.holder.writers[other], other);
      }
    }
    forall other <- after.holder.held
      ensures Activatable(after.tables.rows, other, after.holder.held[other].key)
    {
      if other != source {
        HeldSource(s, other);
      }
    }
    hide Sound, CanFinish, Stage;
  }

  lemma HeldSource(s: System, source: SourceId)
    requires Sound(s) && s.holder.Running? && source in s.holder.held
    ensures Source(s.holder.held[source].key) == source
    ensures Describes(s.holder.held[source], s.holder.held[source].key)
  {
  }

  lemma OtherCanFinish(s: System, after: System, source: SourceId, w: Writer, other: SourceId)
    requires OthersUntouched(s, after, source) && Source(WriterKey(w)) == other != source
    ensures CanFinish(w, other, after.tables.rows, after.directories)
            <==> CanFinish(w, other, s.tables.rows, s.directories)
  {
  }

  lemma OthersStayAwaited(s: System, after: System, source: SourceId)
    requires Sound(s) && OthersUntouched(s, after, source) && Advanced(s, after, source)
    ensures forall k :: k in Awaiting(s.holder) && k in s.taken ==> k in Awaiting(after.holder) && k in after.taken
  {
    forall k | k in Awaiting(s.holder) && k in s.taken && Source(k) != source
      ensures k in Awaiting(after.holder) && k in after.taken
    {
      AwaitedBySource(s, k);
      hide Sound;
      var other := Source(k);
      if other in s.holder.held && s.holder.held[other].key == k {
        assert after.holder.held[other] == s.holder.held[other];
      } else {
        assert after.holder.writers[other] == s.holder.writers[other];
        assert k in Window(after.holder);
      }
    }
  }

  /** A key is awaited by its own source. */
  lemma AwaitedBySource(s: System, k: SnapshotKey)
    requires Sound(s) && k in Awaiting(s.holder)
    ensures var source := Source(k);
            || (source in s.holder.held && s.holder.held[source].key == k)
            || (source in s.holder.writers && s.holder.writers[source].Unrecorded?
                && WriterKey(s.holder.writers[source]) == k)
  {
    hide CarriedOk, Describes, RowsOk, DiskOk, HistoryOk, PublicationOk, ReferencesOk, Index.Valid;
  }

  /** What finishing one source leaves. */
  ghost predicate GotSnapshot(s: System, after: System, source: SourceId)
    requires s.holder.Running?
  {
    && Inv(after)
    && CanPublish(after)
    && after.holder.plan == s.holder.plan
    && SameOthers(source, s.holder.writers, after.holder.writers)
    && source !in after.holder.writers
    && source in after.holder.held
    && (forall other <- s.holder.held :: other in after.holder.held)
    && (forall k :: k in Awaiting(s.holder) && k in s.taken ==> k in Awaiting(after.holder) && k in after.taken)
  }

  lemma NextIsItsOwn(s: System, source: SourceId)
    requires Sound(s) && s.holder.Running? && Pending(s, source)
    ensures IsStepOf(Next(s, source), source)
  {
    if Writing(s, source) {
      CarriedSnapshot(s, source);
    }
    hide Sound, CarriedOk, SampleOf, Finished, Unreadable, Validates;
  }

  lemma NextSettles(s: System, source: SourceId)
    requires Inv(s) && CanPublish(s) && Pending(s, source)
    ensures Enabled(s, Next(s, source)) && Safe(s, Next(s, source))
    ensures var after := Apply(s, Next(s, source));
            && Inv(after)
            && CanPublish(after)
            && Advanced(s, after, source)
            && (forall k :: k in Awaiting(s.holder) && k in s.taken ==>
                  k in Awaiting(after.holder) && k in after.taken)
            && (s.damaged == {} ==> after.damaged == {} && !Next(s, source).Damage?)
  {
    if s.damaged == {} {
      NothingToRestore(s, source);
    }
    InvParts(s);
    hide Inv, Sound, TakenOk, CanPublish, Pending, Next, Enabled, Apply, Advanced, Awaiting, Safe;
    RunningWhenPublishing(s);
    NextIsEnabled(s, source);
    NextIsItsOwn(s, source);
    NextAdvances(s, source);
    if !Next(s, source).Damage? {
      OnlyDamageDamages(s, Next(s, source));
    }
    StepKeepsInvariant(s, Next(s, source));
    AdvanceKeepsRun(s, Next(s, source), source);
  }

  lemma OnlyDamageDamages(s: System, step: Step)
    requires Enabled(s, step) && !step.Damage?
    ensures Apply(s, step).damaged == s.damaged
  {
    hide Usable, Read, Sealable, Pinned, Observe, Finished, Record, SetPinned, MarkCorrupt, Activated;
    hide CommitDataset, DeleteDataset, Filed, Validates, Unprotected, Republishable;
  }

  /** An undamaged directory reads back, as what its capture has installed. */
  lemma NothingToRestore(s: System, source: SourceId)
    requires Inv(s) && CanPublish(s) && Pending(s, source) && s.damaged == {}
    ensures !Next(s, source).Damage?
  {
    InvParts(s);
    if Writing(s, source) {
      var w := s.holder.writers[source];
      FinishFacts(s, source);
      if (w.Sealed? || w.Found?) && w.s.key in s.directories {
        IntactReads(s, w.s.key);
      } else if w.Installed? {
        InstalledIsIntact(s, source, w.e);
      }
    }
    hide Inv, Sound, TakenOk, Read, Validates, SampleOf, CanPublish, Finished;
  }

  lemma InstalledIsIntact(s: System, source: SourceId, e: Snapshot)
    requires Inv(s) && Writing(s, source) && s.holder.writers[source] == Installed(e)
    requires e.key in s.directories && s.damaged == {}
    ensures Validates(s.directories[e.key], e, s.integrity)
  {
    IntactReads(s, e.key);
    WriterFacts(s, source);
    assert TakenOk(s);
    hide Sound, FrozenOk, RefinesOk;
  }

  lemma RunningWhenPublishing(s: System)
    requires CanPublish(s)
    ensures s.holder.Running?
  {
  }

  lemma {:induction false} FinishSource(s: System, source: SourceId) returns (steps: seq<Step>)
    requires Inv(s) && CanPublish(s) && Pending(s, source)
    ensures Feasible(s, steps) && Careful(s, steps) && GotSnapshot(s, After(s, steps), source)
    ensures s.damaged == {} ==> After(s, steps).damaged == {} && forall step <- steps :: !step.Damage?
    decreases Stage(s, source)
  {
    hide Inv, CanPublish, Next, Enabled, Apply, Awaiting, Safe, Feasible, After, Careful, GotSnapshot, Advanced, Stage,
         SameOthers;
    NextSettles(s, source);
    var step := Next(s, source);
    var after := Apply(s, step);
    AdvancedFacts(s, after, source);
    if source in after.holder.writers {
      var rest := FinishSource(after, source);
      GotLater(s, after, After(after, rest), source);
      StepThen(s, step, rest);
      steps := [step] + rest;
    } else {
      GotNow(s, after, source);
      OneStep(s, step);
      steps := [step];
    }
  }

  lemma AdvancedFacts(s: System, after: System, source: SourceId)
    requires Advanced(s, after, source)
    ensures s.holder.Running? && after.holder.Running?
    ensures source in after.holder.writers ==> Stage(after, source) < Stage(s, source)
  {
  }

  lemma GotNow(s: System, after: System, source: SourceId)
    requires Inv(after) && CanPublish(after) && Advanced(s, after, source) && source !in after.holder.writers
    requires forall k :: k in Awaiting(s.holder) && k in s.taken ==> k in Awaiting(after.holder) && k in after.taken
    ensures GotSnapshot(s, after, source)
  {
    hide Inv, CanPublish, Awaiting, Activatable, Stage, CanFinish;
  }

  lemma GotLater(s: System, next: System, after: System, source: SourceId)
    requires Advanced(s, next, source) && source in next.holder.writers && GotSnapshot(next, after, source)
    requires forall k :: k in Awaiting(s.holder) && k in s.taken ==> k in Awaiting(next.holder) && k in next.taken
    ensures GotSnapshot(s, after, source)
  {
    hide Inv, CanPublish, Awaiting, Activatable, Stage, CanFinish;
  }

  /** Every source gets its snapshot. */
  lemma {:induction false} FinishAll(s: System) returns (steps: seq<Step>)
    requires Inv(s) && CanPublish(s)
    ensures Feasible(s, steps) && Careful(s, steps)
    ensures var t := After(s, steps);
            && Inv(t)
            && CanPublish(t)
            && ToDo(t.holder) == {}
            && forall k :: k in Awaiting(s.holder) && k in s.taken ==> k in Awaiting(t.holder) && k in t.taken
    ensures s.damaged == {} ==> After(s, steps).damaged == {} && forall step <- steps :: !step.Damage?
    decreases ToDo(s.holder)
  {
    if ToDo(s.holder) == {} {
      steps := [];
    } else {
      var source :| source in ToDo(s.holder);
      assert Pending(s, source);
      var first := FinishSource(s, source);
      var after := After(s, first);
      hide Inv, Feasible, After, Careful, Awaiting;
      LessToDo(s, after, source);
      hide CanPublish, GotSnapshot;
      GotFacts(s, after, source);
      var rest := FinishAll(after);
      RunsCompose(s, first, rest);
      steps := first + rest;
    }
  }

  lemma GotFacts(s: System, after: System, source: SourceId)
    requires s.holder.Running? && GotSnapshot(s, after, source)
    ensures Inv(after) && CanPublish(after)
    ensures forall k :: k in Awaiting(s.holder) && k in s.taken ==> k in Awaiting(after.holder) && k in after.taken
  {
  }

  lemma LessToDo(s: System, after: System, source: SourceId)
    requires s.holder.Running? && source in ToDo(s.holder) && GotSnapshot(s, after, source)
    ensures ToDo(after.holder) < ToDo(s.holder)
  {
    hide Inv, Awaiting, CanFinish, Activatable;
    assert source !in ToDo(after.holder);
  }

  /**
   How an input is lost. A run that can still publish gets the snapshots of all its sources and publishes
   a dataset with the input whose directory has been taken. If nothing is damaged, nothing else needs to
   touch the disk for that.
   */
  lemma RunLoses(s: System, key: SnapshotKey) returns (steps: seq<Step>)
    requires Inv(s) && CanPublish(s) && key in Awaiting(s.holder) && key in s.taken
    ensures Feasible(s, steps) && Careful(s, steps) && Lost(After(s, steps), key)
    ensures s.damaged == {} ==> forall step <- steps :: !step.Damage?
  {
    var finishing := FinishAll(s);
    var t := After(s, finishing);
    hide Inv, Feasible, After, Careful;
    var payload := FinishedPublishes(t, key);
    OneStep(t, Step.Commit(payload));
    RunsCompose(s, finishing, [Step.Commit(payload)]);
    steps := finishing + [Step.Commit(payload)];
  }

  lemma FinishedPublishes(s: System, key: SnapshotKey) returns (payload: Payload)
    requires Inv(s) && CanPublish(s) && ToDo(s.holder) == {} && key in Awaiting(s.holder) && key in s.taken
    ensures Enabled(s, Step.Commit(payload)) && Lost(Apply(s, Step.Commit(payload)), key)
  {
    NothingToDo(s);
    payload := PayloadOfRun(s.holder.plan, s.holder.held, "");
    AwaitedIsHeld(s, key);
    var source :| source in s.holder.held && s.holder.held[source].key == key;
    CommitIsEnabled(s, payload);
    var after := Apply(s, Step.Commit(payload));
    StepKeepsInvariant(s, Step.Commit(payload));
    CommitReferencesIt(s, payload, source);
    TakenStaysTaken(s, payload);
    TakenIsGone(after, key);
    hide Inv, CanPublish, Enabled, Apply, Awaiting;
  }

  lemma NothingToDo(s: System)
    requires CanPublish(s) && ToDo(s.holder) == {}
    ensures Gathered(s)
  {
    assert s.holder.writers.Keys == {};
    forall source <- s.holder.plan ensures source in s.holder.held {
      assert source !in ToDo(s.holder);
    }
  }

  lemma AwaitedIsHeld(s: System, key: SnapshotKey)
    requires Gathered(s) && key in Awaiting(s.holder)
    ensures exists source <- s.holder.held :: s.holder.held[source].key == key
  {
    assert Window(s.holder) == {};
  }

  lemma CommitIsEnabled(s: System, payload: Payload)
    requires CanPublish(s) && Gathered(s) && payload == PayloadOfRun(s.holder.plan, s.holder.held, "")
    ensures Enabled(s, Step.Commit(payload))
  {
    hide Activated, Published, Referenced;
    assert AllActivatable(s.tables.rows, KeysOf(s.holder.held));
  }

  /** Whether new or recorded before, the reference is what the identity says. */
  lemma CommitReferencesIt(s: System, payload: Payload, source: SourceId)
    requires s.holder.Running? && source in s.holder.held && Enabled(s, Step.Commit(payload))
    requires Inv(Apply(s, Step.Commit(payload)))
    ensures s.holder.held[source].key in Apply(s, Step.Commit(payload)).tables.references.Values
  {
    hide Inv, Enabled, Apply;
    CommitNamesIt(s, payload, source);
    ReferenceIsNamed(Apply(s, Step.Commit(payload)), (DatasetOf(payload), source));
  }

  lemma CommitNamesIt(s: System, payload: Payload, source: SourceId)
    requires s.holder.Running? && source in s.holder.held && Enabled(s, Step.Commit(payload))
    ensures (DatasetOf(payload), source) in Apply(s, Step.Commit(payload)).tables.references
    ensures source in DatasetOf(payload).snapshots
    ensures DatasetOf(payload).snapshots[source] == s.holder.held[source].key
  {
    hide Activated, Published;
    assert source in payload.snapshots;
  }

  lemma ReferenceIsNamed(s: System, r: (DatasetId, SourceId))
    requires Inv(s) && r in s.tables.references
    ensures r.1 in r.0.snapshots && s.tables.references[r] == r.0.snapshots[r.1]
  {
    hide RowsOk, DiskOk, HistoryOk, PublicationOk, CarryingOk, Guarded, TakenOk, Index.Valid;
  }

  lemma TakenStaysTaken(s: System, payload: Payload)
    requires Enabled(s, Step.Commit(payload))
    ensures Apply(s, Step.Commit(payload)).taken == s.taken
  {
    hide CommitDataset;
  }

  lemma TakenIsGone(s: System, key: SnapshotKey)
    requires Inv(s) && key in s.taken
    ensures key !in s.directories && key !in s.damaged
  {
    assert TakenOk(s);
    hide Sound, Guarded;
  }

  // ---------- never losing ----------

  /** Nothing that a collection has taken is going to be referenced. */
  ghost predicate Harmless(s: System) {
    s.tables.references.Values !! s.taken && !(CanPublish(s) && Awaiting(s.holder) * s.taken != {})
  }

  lemma HarmlessNeverLoses(s: System)
    requires Inv(s) && Harmless(s)
    ensures NeverLoses(s)
  {
    hide Inv, Harmless, Feasible, Careful, After, Kept;
    forall steps | Feasible(s, steps) && Careful(s, steps) ensures Kept(After(s, steps)) {
      StaysHarmless(s, steps);
      HarmlessIsKept(After(s, steps));
    }
  }

  lemma HarmlessIsKept(s: System)
    requires Inv(s) && Harmless(s)
    ensures Kept(s)
  {
    forall k <- s.tables.references.Values
      ensures k in s.tables.rows <==> k !in s.unindexed
      ensures k in s.damaged || (k in s.directories && Complete(s.directories[k], k, s.integrity))
    {
      ReferencedIsKept(s, k);
    }
    hide Inv, Complete, CanPublish, Awaiting;
  }

  lemma {:induction false} StaysHarmless(s: System, steps: seq<Step>)
    requires Inv(s) && Harmless(s) && Feasible(s, steps) && Careful(s, steps)
    ensures Inv(After(s, steps)) && Harmless(After(s, steps))
    decreases |steps|
  {
    hide Inv, Harmless, Enabled, Apply, Safe;
    if steps != [] {
      StepKeepsInvariant(s, steps[0]);
      StepStaysHarmless(s, steps[0]);
      StaysHarmless(Apply(s, steps[0]), steps[1..]);
    }
  }

  lemma StepStaysHarmless(s: System, step: Step)
    requires Inv(s) && Harmless(s) && Enabled(s, step) && Safe(s, step)
    ensures Harmless(Apply(s, step))
  {
    var after := Apply(s, step);
    hide Inv, Enabled, Apply, CanPublish, Awaiting, Safe;
    SafeTakesNothing(s, step);
    NothingTakenIsReferenced(s, step);
    if s.holder.Running? && after.holder.Running? {
      if CanPublish(s) {
        NewlyAwaited(s, step);
      } else {
        DoomPersists(s, step);
      }
    } else {
      NothingIsAwaited(s, step);
    }
  }

  lemma NothingIsAwaited(s: System, step: Step)
    requires Enabled(s, step) && !(s.holder.Running? && Apply(s, step).holder.Running?)
    ensures Awaiting(Apply(s, step).holder) == {}
  {
    if Apply(s, step).holder.Running? {
      BecomesRunning(s, step);
    }
    hide Enabled, Apply;
  }

  lemma BecomesRunning(s: System, step: Step)
    requires Enabled(s, step) && !s.holder.Running? && Apply(s, step).holder.Running?
    ensures Apply(s, step).holder.writers == map[] && Apply(s, step).holder.held == map[]
  {
    hide Usable, Read, Sealable, CommitDataset, DeleteDataset, Filed, Republishable, Unprotected, Authentic;
  }

  // ---------- references ----------

  lemma NothingTakenIsReferenced(s: System, step: Step)
    requires Inv(s) && Harmless(s) && Enabled(s, step)
    requires Apply(s, step).taken <= s.taken
    ensures Apply(s, step).tables.references.Values !! Apply(s, step).taken
  {
    hide Inv, Enabled, Apply, CanPublish, Awaiting;
    match step {
      case Commit(payload) => CommittedIsNotTaken(s, payload);
      case RepublishNext => RepublishedIsNotTaken(s);
      case BeginDrop(id) => DroppedIsNotTaken(s, id);
      case _ => RecordsUntouchedButDrop(s, step);
    }
  }

  lemma CommittedIsNotTaken(s: System, payload: Payload)
    requires Inv(s) && Harmless(s) && Enabled(s, Step.Commit(payload))
    ensures Apply(s, Step.Commit(payload)).tables.references.Values !! s.taken
  {
    hide Inv, CanPublish, CommitDataset, DatasetOf, Awaiting;
    var after := Apply(s, Step.Commit(payload));
    assert after.tables == CommitDataset(s.tables, DatasetOf(payload), payload).value;
    hide Enabled, Apply;
    GatheredCanPublish(s, payload);
    AddedReferences(s.tables, DatasetOf(payload), payload);
    forall k <- after.tables.references.Values ensures k !in s.taken {
      if k !in s.tables.references.Values {
        var source :| source in payload.snapshots && payload.snapshots[source] == k;
        HeldIsAwaited(s, source);
        assert s.holder.held[source].key == k;
        assert k !in Awaiting(s.holder) * s.taken;
      }
    }
  }

  lemma HeldIsAwaited(s: System, source: SourceId)
    requires s.holder.Running? && source in s.holder.held
    ensures s.holder.held[source].key in Awaiting(s.holder)
  {
  }

  lemma GatheredCanPublish(s: System, payload: Payload)
    requires Enabled(s, Step.Commit(payload))
    ensures CanPublish(s) && Gathered(s) && payload.snapshots == KeysOf(s.holder.held)
    ensures CommitDataset(s.tables, DatasetOf(payload), payload).Success?
  {
    assert AllActivatable(s.tables.rows, KeysOf(s.holder.held));
    forall source <- s.holder.held ensures Activatable(s.tables.rows, source, s.holder.held[source].key) {
      assert KeysOf(s.holder.held)[source] == s.holder.held[source].key;
    }
    hide Activated, Published, Referenced;
  }

  lemma AddedReferences(t: Tables, id: DatasetId, payload: Payload)
    requires CommitDataset(t, id, payload).Success?
    ensures forall k <- CommitDataset(t, id, payload).value.references.Values ::
              k in t.references.Values || exists source <- payload.snapshots :: payload.snapshots[source] == k
  {
    hide Activated, Published;
    var after := CommitDataset(t, id, payload).value.references;
    forall k <- after.Values
      ensures k in t.references.Values || exists source <- payload.snapshots :: payload.snapshots[source] == k
    {
      var r :| r in after && after[r] == k;
      if r in t.references {
        assert t.references[r] == k;
      } else {
        assert payload.snapshots[r.1] == k;
      }
    }
  }

  lemma RepublishedIsNotTaken(s: System)
    requires Inv(s) && Harmless(s) && Enabled(s, RepublishNext)
    ensures Apply(s, RepublishNext).tables.references.Values !! s.taken
  {
    assert TakenOk(s);
    hide Inv, Sound, Guarded, Activated, Published, CanPublish, Awaiting;
    var e := s.holder.entries[0];
    if CommitDataset(s.tables, e.id, e.payload).Success? {
      AddedReferences(s.tables, e.id, e.payload);
      forall source <- e.payload.snapshots ensures e.payload.snapshots[source] in s.tables.rows {
        MemberIsRow(s.tables.rows, e.payload.snapshots, source);
      }
    }
  }

  lemma DroppedIsNotTaken(s: System, id: DatasetId)
    requires Harmless(s) && Enabled(s, BeginDrop(id))
    ensures Apply(s, BeginDrop(id)).tables.references.Values !! s.taken
  {
    hide CanPublish, Awaiting, Without;
    var after := DeleteDataset(s.tables, id).references;
    forall k <- after.Values ensures k in s.tables.references.Values {
      var r :| r in after && after[r] == k;
      assert s.tables.references[r] == k;
    }
  }

  // ---------- what is awaited ----------

  /** What comes to be awaited has just been looked at. */
  lemma NewlyAwaited(s: System, step: Step)
    requires Inv(s) && Enabled(s, step) && s.holder.Running? && Apply(s, step).holder.Running?
    ensures forall k <- Awaiting(Apply(s, step).holder) :: k in Awaiting(s.holder) || k !in s.taken
  {
    assert TakenOk(s);
    hide Inv, Enabled, Apply, Awaiting, Sound, Guarded, TakenOk;
    if AboutWriter(step) {
      WriterAwaits(s, step);
    } else {
      HolderUntouched(s, step);
    }
  }

  lemma HolderUntouched(s: System, step: Step)
    requires Enabled(s, step) && s.holder.Running? && Apply(s, step).holder.Running? && !AboutWriter(step)
    ensures Apply(s, step).holder == s.holder && (step.Mark? || step.Collect? || step.Damage?)
  {
    hide Usable, CommitDataset, Unprotected, Authentic;
  }

  lemma WriterAwaits(s: System, step: Step)
    requires TakenOk(s) && Enabled(s, step) && AboutWriter(step) && s.holder.Running?
    ensures forall k <- Awaiting(Apply(s, step).holder) :: k in Awaiting(s.holder) || k !in s.taken
  {
    var after := Apply(s, step);
    WriterStepChangesOne(s, step);
    forall source <- after.holder.writers | after.holder.writers[source].Unrecorded?
      ensures var k := WriterKey(after.holder.writers[source]); k in Awaiting(s.holder) || k !in s.taken
    {
      if source == step.source {
        WindowIsEntered(s, step);
      } else {
        assert s.holder.writers[source] == after.holder.writers[source];
      }
    }
    forall source <- after.holder.held
      ensures var k := after.holder.held[source].key; k in Awaiting(s.holder) || k !in s.taken
    {
      if source == step.source && (step.RecordRow? || step.Hold?) {
        HeldWasLookedAt(s, step);
      } else {
        assert s.holder.held[source] == after.holder.held[source];
      }
    }
    hide Enabled, Apply, TakenOk;
  }

  lemma WindowIsEntered(s: System, step: Step)
    requires TakenOk(s) && Enabled(s, step) && AboutWriter(step)
    requires step.source in Apply(s, step).holder.writers
    requires Apply(s, step).holder.writers[step.source].Unrecorded?
    ensures WriterKey(Apply(s, step).holder.writers[step.source]) !in s.taken
  {
    hide Usable, Read, Sealable, Pinned, Observe, Finished, Record, SetPinned, Validates;
  }

  lemma HeldWasLookedAt(s: System, step: Step)
    requires TakenOk(s) && Enabled(s, step) && (step.RecordRow? || step.Hold?)
    ensures var k := s.holder.writers[step.source].e.key; k in Awaiting(s.holder) || k !in s.taken
  {
    hide Record;
    if step.RecordRow? {
      assert WriterKey(s.holder.writers[step.source]) in Window(s.holder);
    }
  }

  // ---------- a run that cannot publish ----------

  /** Once a run cannot publish any more, it never can again. */
  lemma DoomPersists(s: System, step: Step)
    requires Inv(s) && Enabled(s, step) && s.holder.Running? && Apply(s, step).holder.Running? && !CanPublish(s)
    ensures !CanPublish(Apply(s, step))
  {
    InvParts(s);
    hide Inv, Enabled, Apply, Sound, TakenOk;
    if AboutWriter(step) {
      WriterStaysDoomed(s, step);
    } else {
      HolderUntouched(s, step);
      NothingRecovers(s, step);
    }
  }

  lemma NothingRecovers(s: System, step: Step)
    requires Enabled(s, step) && (step.Mark? || step.Collect? || step.Damage?)
    requires Apply(s, step).holder == s.holder && s.holder.Running? && !CanPublish(s)
    ensures !CanPublish(Apply(s, step))
  {
    var after := Apply(s, step);
    NothingAppears(s, step);
    hide Enabled, Apply;
    forall source: SourceId, key: SnapshotKey | !Activatable(s.tables.rows, source, key)
      ensures !Activatable(after.tables.rows, source, key)
    {
    }
  }

  lemma NothingAppears(s: System, step: Step)
    requires Enabled(s, step) && (step.Mark? || step.Collect? || step.Damage?)
    ensures var after := Apply(s, step);
            && after.directories.Keys <= s.directories.Keys
            && (forall k <- after.tables.rows ::
                  && k in s.tables.rows
                  && after.tables.rows[k].source == s.tables.rows[k].source
                  && (after.tables.rows[k].state == Committed ==> s.tables.rows[k].state == Committed))
  {
    hide Usable, Authentic, Unprotected;
  }

  lemma WriterStaysDoomed(s: System, step: Step)
    requires Sound(s) && Enabled(s, step) && AboutWriter(step) && s.holder.Running? && !CanPublish(s)
    ensures !CanPublish(Apply(s, step))
  {
    hide Sound, Enabled, Apply, CanFinish, Activatable, OthersUntouched;
    WriterStepChangesOne(s, step);
    StepTouchesItsSource(s, step, step.source);
    if s.holder.failed == {} {
      if source :| source in s.holder.held && !Activatable(s.tables.rows, source, s.holder.held[source].key) {
        HeldStaysLost(s, step, source);
      } else {
        var source :| source in s.holder.writers
                      && !CanFinish(s.holder.writers[source], source, s.tables.rows, s.directories);
        CarriedSnapshot(s, source);
        if source == step.source {
          StuckStaysStuck(s, step);
        } else {
          OtherStaysStuck(s, Apply(s, step), step.source, source);
        }
      }
    }
  }

  lemma HeldStaysLost(s: System, step: Step, source: SourceId)
    requires Sound(s) && Enabled(s, step) && AboutWriter(step) && source in s.holder.held
    requires !Activatable(s.tables.rows, source, s.holder.held[source].key)
    requires OthersUntouched(s, Apply(s, step), step.source)
    ensures !CanPublish(Apply(s, step))
  {
    hide Sound, Enabled, Apply, Activatable, OthersUntouched, CanFinish;
    WriterStepChangesOne(s, step);
    HeldSource(s, source);
    HeldIsNotWritten(s, step, source);
    OtherRowUntouched(s, Apply(s, step), step.source, source, s.holder.held[source].key);
    assert Apply(s, step).holder.held[source] == s.holder.held[source];
  }

  lemma OtherStaysStuck(s: System, after: System, t: SourceId, source: SourceId)
    requires s.holder.Running? && after.holder.Running? && OthersUntouched(s, after, t) && source != t
    requires SameOthers(t, s.holder.writers, after.holder.writers)
    requires source in s.holder.writers && Source(WriterKey(s.holder.writers[source])) == source
    requires !CanFinish(s.holder.writers[source], source, s.tables.rows, s.directories)
    ensures !CanPublish(after)
  {
    hide CanFinish, OthersUntouched, Activatable;
    OtherCanFinish(s, after, t, s.holder.writers[source], source);
    assert after.holder.writers[source] == s.holder.writers[source];
  }

  lemma OtherRowUntouched(s: System, after: System, source: SourceId, other: SourceId, key: SnapshotKey)
    requires OthersUntouched(s, after, source) && Source(key) == other != source
    ensures Activatable(after.tables.rows, other, key) <==> Activatable(s.tables.rows, other, key)
  {
  }

  /** A source that has its snapshot does not capture again. */
  lemma HeldIsNotWritten(s: System, step: Step, source: SourceId)
    requires Sound(s) && Enabled(s, step) && AboutWriter(step) && source in s.holder.held
    ensures step.source != source
  {
    PendingSteps(s, step);
    if Pending(s, step.source) {
      PendingIsNotHeld(s, step.source);
    }
    hide Sound, Enabled;
  }

  lemma PendingSteps(s: System, step: Step)
    requires Enabled(s, step) && AboutWriter(step)
    ensures Pending(s, step.source)
  {
    hide Usable, Read, Sealable, Validates;
  }

  lemma ReadIsThere(directories: Directories, key: SnapshotKey, integrity: Integrity)
    ensures Read(At(directories, key), integrity).Some? ==> key in directories
  {
  }

  /** What a capture needs and has lost does not come back to it. */
  lemma StuckStaysStuck(s: System, step: Step)
    requires Enabled(s, step) && AboutWriter(step) && step.source in s.holder.writers
    requires var w := s.holder.writers[step.source];
             && Source(WriterKey(w)) == step.source
             && !CanFinish(w, step.source, s.tables.rows, s.directories)
    ensures !CanPublish(Apply(s, step))
  {
    ReadIsThere(s.directories, WriterKey(s.holder.writers[step.source]), s.integrity);
    hide Read, Validates, Pinned, Observe, Sealable, Usable, Finished;
    var after := Apply(s, step);
    if step.source in after.holder.writers {
      assert !CanFinish(after.holder.writers[step.source], step.source, after.tables.rows, after.directories);
    } else if step.source in after.holder.held && !step.Abandon? {
      assert !Activatable(after.tables.rows, step.source, after.holder.held[step.source].key);
    } else {
      assert step.source in after.holder.failed;
    }
  }
}
