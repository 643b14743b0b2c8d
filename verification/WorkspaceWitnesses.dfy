/**
 Runs from the empty workspace that reach each of the states in which something is lost or left out
 of step, made of captures and payloads as the store and the runs make them.
 */
module WorkspaceWitnesses {
  import opened Outcomes
  import opened Identity
  import opened Snapshots
  import opened Index
  import opened State
  import opened Retention
  import opened Store
  import opened Workspace
  import opened WorkspaceSound
  import opened WorkspaceSteps
  import opened WorkspaceRuns
  import opened WorkspaceLimits
  import opened WorkspaceLinks

  // ---------- a run that captures and publishes nothing ----------

  /** The workspace with one more capture on disk and in the index. */
  function Put(s: System, x: Snapshot): System {
    WithRows(s, s.tables.rows[x.key := NewRow(x, Inside(x.key))])
      .(directories := s.directories[x.key := Finished(x)],
        unindexed := s.unindexed - {x.key}, taken := s.taken - {x.key})
  }

  /** A run of this one source that has got its snapshot. */
  function Done(x: Snapshot): Holder {
    Running([Source(x.key)], map[], map[Source(x.key) := x], {})
  }

  /** Any finished capture with a new key can be recorded. */
  lemma CaptureRuns(s: System, x: Snapshot) returns (steps: seq<Step>)
    requires s.holder.Free? && Sealable(x, s.integrity)
    requires x.key !in s.tables.rows && x.key !in s.directories && x.key !in s.stale
    ensures Feasible(s, steps) && Careful(s, steps) && After(s, steps) == Put(s, x).(holder := Done(x))
  {
    var source := Source(x.key);
    var begun := s.(holder := Running([source], map[], map[], {}));
    var validated := InPlace(begun, source, x, Unrecorded(x));
    assert Enabled(s, BeginRun([source])) && Apply(s, BeginRun([source])) == begun;
    InstallingSteps(begun, source, x);
    CaptureRecords(s, begun, x);
    hide Enabled, Apply, Feasible, After, Careful, Installing, Sealable, Finished, PauseOf, InPlace, SetWriter, Put;
    OneStep(s, BeginRun([source]));
    var steps0 := [BeginRun([source])];
    StepAfter(s, steps0, StartWrite(source, x));
    var steps1 := steps0 + [StartWrite(source, x)];
    StepAfter(s, steps1, Check(source));
    var steps2 := steps1 + [Check(source)];
    StepAfter(s, steps2, Validate(source));
    StepAfter(s, steps2 + [Validate(source)], RecordRow(source));
    steps := steps2 + [Validate(source)] + [RecordRow(source)];
  }

  lemma CaptureRecords(s: System, begun: System, x: Snapshot)
    requires begun == s.(holder := Running([Source(x.key)], map[], map[], {}))
    requires x.key !in s.tables.rows && x.key !in s.stale
    ensures var source := Source(x.key);
            var validated := InPlace(begun, source, x, Unrecorded(x));
            && Enabled(validated, RecordRow(source))
            && Apply(validated, RecordRow(source)) == Put(s, x).(holder := Done(x))
  {
    hide Finished;
    var source := Source(x.key);
    var validated := InPlace(begun, source, x, Unrecorded(x));
    Restored(map[], source, Unrecorded(x));
    assert Record(s.tables.rows, x, Inside(x.key)) == s.tables.rows[x.key := NewRow(x, Inside(x.key))];
    assert validated.stale - {x.key} == s.stale;
    assert Apply(validated, RecordRow(source)).holder == Done(x);
  }

  lemma CaptureAndEnd(s: System, x: Snapshot) returns (steps: seq<Step>)
    requires s.holder.Free? && Sealable(x, s.integrity)
    requires x.key !in s.tables.rows && x.key !in s.directories && x.key !in s.stale
    ensures Feasible(s, steps) && Careful(s, steps) && After(s, steps) == Put(s, x)
  {
    var capturing := CaptureRuns(s, x);
    hide Feasible, After, Careful, Sealable, Finished;
    StepAfter(s, capturing, EndRun);
    steps := capturing + [EndRun];
  }

  // ---------- a run that reads the same input again ----------

  /** This capture is on disk and in the index as its first run has left it. */
  predicate Stored(s: System, x: Snapshot) {
    && s.holder.Free?
    && x.key in s.tables.rows
    && s.tables.rows[x.key] == NewRow(x, Inside(x.key))
    && x.key in s.directories
    && s.directories[x.key] == Finished(x)
  }

  lemma StoredReads(s: System, x: Snapshot)
    requires Stored(s, x) && Sealable(x, s.integrity)
    ensures Read(At(s.directories, x.key), s.integrity) == Some(x)
    ensures Usable(s.tables.rows, s.directories, s.integrity, Some(x.key)) == Some(x)
  {
    CompleteReads(Finished(x), x.key, s.integrity);
  }

  /** A run that has read the same input again, up to its receipt. */
  function Reread(s: System, x: Snapshot, verified: Timestamp, expires: Timestamp): System {
    s.(directories := s.directories[x.key := Observe(Finished(x), Receipt(x.key, verified, expires))],
       stale := s.stale + {x.key},
       holder := Running([Source(x.key)], map[Source(x.key) := Unrecorded(Renewed(x, verified, expires))], map[], {}))
  }

  lemma RereadRuns(s: System, x: Snapshot, verified: Timestamp, expires: Timestamp) returns (steps: seq<Step>)
    requires Stored(s, x) && Sealable(x, s.integrity)
    ensures Feasible(s, steps) && Careful(s, steps) && After(s, steps) == Reread(s, x, verified, expires)
  {
    var source := Source(x.key);
    var begun := s.(holder := Running([source], map[], map[], {}));
    assert Enabled(s, BeginRun([source])) && Apply(s, BeginRun([source])) == begun;
    StoredReads(s, x);
    RereadReceives(s, x, verified, expires);
    hide Enabled, Apply, Feasible, After, Careful, Finished, Sealable, Read, Usable, Reread;
    var loading := LoadingRuns(begun, source, x, x);
    StepAfter(begun, loading, Receive(source, verified, expires));
    StepThen(s, BeginRun([source]), loading + [Receive(source, verified, expires)]);
    steps := [BeginRun([source])] + (loading + [Receive(source, verified, expires)]);
  }

  lemma RereadReceives(s: System, x: Snapshot, verified: Timestamp, expires: Timestamp)
    requires Stored(s, x)
    ensures var source := Source(x.key);
            var loaded := SetWriter(s.(holder := Running([source], map[], map[], {})), source, Loaded(x, true));
            && Enabled(loaded, Receive(source, verified, expires))
            && Apply(loaded, Receive(source, verified, expires)) == Reread(s, x, verified, expires)
  {
    Replacing(map[], Source(x.key), Loaded(x, true), Unrecorded(Renewed(x, verified, expires)));
    hide Finished, Observe;
  }

  // ---------- rows out of step ----------

  lemma FirstCapture(x: Snapshot, integrity: Integrity) returns (steps: seq<Step>)
    requires Sealable(x, integrity)
    ensures Feasible(Initial(integrity), steps) && Careful(Initial(integrity), steps)
    ensures After(Initial(integrity), steps) == Put(Initial(integrity), x)
    ensures Stored(Put(Initial(integrity), x), x)
  {
    steps := CaptureAndEnd(Initial(integrity), x);
    hide Feasible, After, Careful, Sealable, Finished;
  }

  /** The lock is free, nothing is excused, and the row of this key is a committed one. */
  predicate Resting(s: System, key: SnapshotKey) {
    && s.holder.Free?
    && s.damaged == {}
    && s.taken == {}
    && key in s.tables.rows
    && s.tables.rows[key].state == Committed
  }

  /**
   Torn receipt. A process that dies after replacing the receipt of any recorded capture, and before
   updating its row, leaves the committed row out of step exactly when the expiry has changed.
   */
  lemma TornReceiptIsReachable(x: Snapshot, integrity: Integrity, verified: Timestamp, expires: Timestamp)
    returns (steps: seq<Step>)
    requires Sealable(x, integrity)
    ensures Feasible(Initial(integrity), steps) && Careful(Initial(integrity), steps)
    ensures var s := After(Initial(integrity), steps);
            && Resting(s, x.key)
            && (InStep(x.key, s.tables.rows, s.directories, {}) <==> x.expires == Some(expires))
  {
    var captured := Put(Initial(integrity), x);
    var capturing := FirstCapture(x, integrity);
    var again := RereadRuns(captured, x, verified, expires);
    var s := Reread(captured, x, verified, expires);
    ReceiptChangesExpiry(captured, x, verified, expires);
    CrashOnlyReleases(s);
    assert Resting(s.(holder := Free), x.key);
    hide Feasible, After, Careful, Enabled, Apply, InStep, Sealable, Put, Reread;
    RunsCompose(Initial(integrity), capturing, again);
    StepAfter(Initial(integrity), capturing + again, Crash);
    steps := capturing + again + [Crash];
  }

  lemma CrashOnlyReleases(s: System)
    ensures Enabled(s, Crash) && Apply(s, Crash) == s.(holder := Free)
  {
  }

  lemma ReceiptChangesExpiry(s: System, x: Snapshot, verified: Timestamp, expires: Timestamp)
    requires Stored(s, x) && Sealable(x, s.integrity)
    ensures var after := Reread(s, x, verified, expires);
            InStep(x.key, after.tables.rows, after.directories, {}) <==> x.expires == Some(expires)
  {
    FinishedIsDetermined(x, s.integrity);
    ObserveReadsBack(Finished(x), x.key, x, Receipt(x.key, verified, expires), s.integrity);
    hide Load, Observe, Complete, Finished;
  }

  /** Torn pin: the directory is pinned and the row is not, unless the capture was pinned from the start. */
  lemma TornPinIsReachable(x: Snapshot, integrity: Integrity) returns (steps: seq<Step>)
    requires Sealable(x, integrity)
    ensures Feasible(Initial(integrity), steps) && Careful(Initial(integrity), steps)
    ensures var s := After(Initial(integrity), steps);
            && Resting(s, x.key)
            && (InStep(x.key, s.tables.rows, s.directories, {}) <==> x.pinned)
  {
    var captured := Put(Initial(integrity), x);
    var capturing := FirstCapture(x, integrity);
    var pinning := PinStops(captured, x);
    PinChangesFlag(captured, x);
    assert Resting(HalfPinned(captured, x), x.key);
    hide Feasible, After, Careful, Enabled, Apply, InStep, Sealable, Put, HalfPinned;
    RunsCompose(Initial(integrity), capturing, pinning);
    steps := capturing + pinning;
  }

  /** The metadata is pinned and the row is not. */
  function HalfPinned(s: System, x: Snapshot): System {
    s.(directories := s.directories[x.key := Pinned(Finished(x))], stale := s.stale + {x.key})
  }

  /** A run reuses the capture, pins its metadata, and dies. */
  lemma PinStops(s: System, x: Snapshot) returns (steps: seq<Step>)
    requires Stored(s, x) && Sealable(x, s.integrity)
    ensures Feasible(s, steps) && Careful(s, steps) && After(s, steps) == HalfPinned(s, x)
  {
    var source := Source(x.key);
    StoredReads(s, x);
    hide Sealable, Finished, Read, Usable, Pinned;
    var begun := s.(holder := Running([source], map[], map[], {}));
    var loaded := SetWriter(begun, source, Loaded(x, false));
    assert Enabled(s, BeginRun([source])) && Apply(s, BeginRun([source])) == begun;
    assert Enabled(begun, Step.Reuse(source, x.key)) && Apply(begun, Step.Reuse(source, x.key)) == loaded;
    assert Enabled(loaded, PinDisk(source));
    var pinned := Apply(loaded, PinDisk(source));
    CrashOnlyReleases(pinned);
    assert pinned.(holder := Free) == HalfPinned(s, x);
    hide Enabled, Apply, Feasible, After, Careful, HalfPinned;
    OneStep(s, BeginRun([source]));
    StepAfter(s, [BeginRun([source])], Step.Reuse(source, x.key));
    StepAfter(s, [BeginRun([source])] + [Step.Reuse(source, x.key)], PinDisk(source));
    StepAfter(s, [BeginRun([source])] + [Step.Reuse(source, x.key)] + [PinDisk(source)], Crash);
    steps := [BeginRun([source])] + [Step.Reuse(source, x.key)] + [PinDisk(source)] + [Crash];
  }

  lemma PinChangesFlag(s: System, x: Snapshot)
    requires Stored(s, x) && Sealable(x, s.integrity)
    ensures var after := HalfPinned(s, x);
            InStep(x.key, after.tables.rows, after.directories, {}) <==> x.pinned
  {
    FinishedIsDetermined(x, s.integrity);
    PinReadsBack(Finished(x), x.key, x, s.integrity);
    hide Load, Pinned, Complete, Finished;
  }

  /** Torn clean: the directory is gone and its committed row is still there. */
  lemma TornCleanIsReachable(x: Snapshot, integrity: Integrity) returns (steps: seq<Step>)
    requires Sealable(x, integrity) && !x.pinned
    ensures Feasible(Initial(integrity), steps) && Careful(Initial(integrity), steps)
    ensures Resting(After(Initial(integrity), steps), x.key) && x.key !in After(Initial(integrity), steps).directories
  {
    var captured := Put(Initial(integrity), x);
    var capturing := FirstCapture(x, integrity);
    var cleaning := Apply(captured, BeginClean({x.key}));
    var cleaned := Apply(cleaning, CleanDirectory(x.key));
    CrashOnlyReleases(cleaned);
    assert Resting(cleaned.(holder := Free), x.key) && x.key !in cleaned.directories;
    hide Enabled, Apply, Feasible, After, Careful, Put, Sealable, Finished;
    StepAfter(Initial(integrity), capturing, BeginClean({x.key}));
    StepAfter(Initial(integrity), capturing + [BeginClean({x.key})], CleanDirectory(x.key));
    StepAfter(Initial(integrity), capturing + [BeginClean({x.key})] + [CleanDirectory(x.key)], Crash);
    steps := capturing + [BeginClean({x.key})] + [CleanDirectory(x.key)] + [Crash];
  }

  // ---------- a source with history ----------

  /** The n-th newer capture of the same request: other contents, read at a later time. */
  function Newer(x: Snapshot, n: nat, integrity: Integrity): Snapshot
    requires n > 0
  {
    SnapshotOf(
      x.request, x.provider, Extraction(seq(|x.key.content| + n, _ => Table("", 0, 0, 0, "")), None, None),
      integrity, false, x.created + n, x.created + n, x.created + n)
  }

  lemma NewerFacts(x: Snapshot, n: nat, integrity: Integrity)
    requires n > 0 && Sealable(x, integrity)
    ensures var y := Newer(x, n, integrity);
            && Sealable(y, integrity)
            && y.created > x.created
            && y.Source() == Source(x.key)
            && |y.key.content| == |x.key.content| + n
  {
    CapturesAreSealable(
      x.request, x.provider, Extraction(seq(|x.key.content| + n, _ => Table("", 0, 0, 0, "")), None, None),
      integrity, false, x.created + n, x.created + n, x.created + n);
    hide Complete, Load, Finished;
  }

  /** The row of `x`, and those of `n` newer captures of its source. */
  predicate Series(rows: Rows, x: Snapshot, n: nat) {
    && x.key in rows
    && rows[x.key] == NewRow(x, Inside(x.key))
    && |rows| == n + 1
    && forall k <- rows :: rows[k].source == Source(x.key) && (k != x.key ==> rows[k].created > x.created)
  }

  /** The workspace holds the capture of `x` and `n` newer ones of its source, and no dataset. */
  predicate Shelved(s: System, x: Snapshot, n: nat) {
    && Stored(s, x)
    && Series(s.tables.rows, x, n)
    && s.stale == {}
    && s.taken == {}
    && s.damaged == {}
    && s.tables.references == map[]
    && (forall k <- s.tables.rows :: |k.content| <= |x.key.content| + n)
    && (forall k <- s.directories :: k in s.tables.rows)
  }

  /** One run after the other captures `x` and then `n` newer states of its source. */
  lemma {:induction false} ShelvingRuns(x: Snapshot, integrity: Integrity, n: nat) returns (steps: seq<Step>)
    requires Sealable(x, integrity)
    ensures Feasible(Initial(integrity), steps) && Careful(Initial(integrity), steps)
    ensures Shelved(After(Initial(integrity), steps), x, n)
    ensures After(Initial(integrity), steps).integrity == integrity
  {
    if n == 0 {
      steps := FirstCapture(x, integrity);
      FirstIsShelved(x, integrity);
      hide Feasible, After, Careful, Sealable, Put, Shelved;
    } else {
      var before := ShelvingRuns(x, integrity, n - 1);
      var s, y := After(Initial(integrity), before), Newer(x, n, integrity);
      NewerFacts(x, n, integrity);
      hide Newer, Sealable, Finished;
      ShelfGrows(s, x, y, n);
      hide Feasible, After, Careful, Put, Shelved;
      var capturing := CaptureAndEnd(s, y);
      RunsCompose(Initial(integrity), before, capturing);
      steps := before + capturing;
    }
  }

  lemma FirstIsShelved(x: Snapshot, integrity: Integrity)
    requires Sealable(x, integrity)
    ensures Shelved(Put(Initial(integrity), x), x, 0)
  {
    hide Complete, Load, Finished;
  }

  lemma ShelfGrows(s: System, x: Snapshot, y: Snapshot, n: nat)
    requires n > 0 && Shelved(s, x, n - 1)
    requires y.created > x.created && y.Source() == Source(x.key) && |y.key.content| == |x.key.content| + n
    ensures s.holder.Free? && y.key !in s.tables.rows && y.key !in s.directories && y.key !in s.stale
    ensures Shelved(Put(s, y), x, n) && Put(s, y).integrity == s.integrity
  {
    hide Finished;
    assert s.taken - {y.key} == {};
  }

  // ---------- what the collector takes ----------

  /** Where every listed row belongs to one source, the rank is the position. */
  lemma {:induction false} RankIsPosition(keys: seq<SnapshotKey>, rows: Rows, source: SourceId, n: nat)
    requires n <= |keys| && forall k <- keys :: k in rows && rows[k].source == source
    ensures Rank(keys, rows, source, n) == n
  {
    if n > 0 {
      RankIsPosition(keys, rows, source, n - 1);
    }
  }

  lemma {:induction false} ListedCount(keys: seq<SnapshotKey>, all: set<SnapshotKey>)
    requires forall k :: k in keys <==> k in all
    requires forall i, j :: 0 <= i < j < |keys| ==> keys[i] != keys[j]
    ensures |keys| == |all|
    decreases |keys|
  {
    if keys == [] {
      assert all == {};
    } else {
      var last := |keys| - 1;
      assert keys[last] in all;
      assert keys == keys[..last] + [keys[last]];
      ListedCount(keys[..last], all - {keys[last]});
    }
  }

  /** However the rows are listed, the collector takes the oldest capture, and that one alone. */
  lemma CollectorTakesOldest(rows: Rows, x: Snapshot, retain: nat, keys: seq<SnapshotKey>)
    requires Series(rows, x, retain) && !x.pinned && x.Source() == Source(x.key) && IsListing(keys, rows)
    ensures Removed(keys, rows, {}, retain, None, |keys|) == {x.key}
  {
    ListedCount(keys, rows.Keys);
    assert |keys| == |rows|;
    var i :| 0 <= i < |keys| && keys[i] == x.key;
    OldestIsLast(rows, x, keys, i);
    forall j | 0 <= j < |keys| ensures keys[j] in Removed(keys, rows, {}, retain, None, |keys|) <==> j == i {
      RemovedExactly(keys, rows, {}, retain, None, |keys|, j);
      RankIsPosition(keys, rows, Source(x.key), j);
    }
    RemovedAreListed(keys, rows, {}, retain, None, |keys|);
    hide Removed, Series;
    assert keys[i] in Removed(keys, rows, {}, retain, None, |keys|);
    assert forall k <- Removed(keys, rows, {}, retain, None, |keys|) :: k in keys && k == x.key;
  }

  lemma OldestIsLast(rows: Rows, x: Snapshot, keys: seq<SnapshotKey>, i: nat)
    requires x.key in rows && rows[x.key].created == x.created && IsListing(keys, rows)
    requires forall k <- rows :: k != x.key ==> rows[k].created > x.created
    requires i < |keys| && keys[i] == x.key
    ensures i == |keys| - 1
  {
    var last := |keys| - 1;
    assert keys[last] in rows;
    assert forall j :: i <= j < |keys| ==> rows[keys[j]].created <= x.created;
    assert keys[last] == x.key;
  }

  // ---------- losses ----------

  /** A run that has replaced the receipt of `x` is going to publish it, whether it is still there or not. */
  lemma RereadIsAwaited(s: System, x: Snapshot, verified: Timestamp, expires: Timestamp)
    requires Stored(s, x) && !x.pinned && s.damaged == {} && s.tables.references == map[]
    ensures var reread := Reread(s, x, verified, expires);
            && reread.damaged == {}
            && reread.tables == s.tables
            && Enabled(reread, Collect({x.key}))
            && var collected := Apply(reread, Collect({x.key}));
               && collected.damaged == {}
               && CanPublish(collected)
               && x.key in Awaiting(collected.holder)
               && x.key in collected.taken
  {
    hide Finished, Observe;
    var reread := Reread(s, x, verified, expires);
    assert reread.holder.writers[Source(x.key)].Unrecorded?;
    assert x.key in Window(reread.holder);
  }

  /**
   One collection in a window, from the empty workspace, whatever the retention. A run captures `x`,
   later ones the `retain` newer states of its source, and then a run reads the contents of `x` again
   and has replaced its receipt. By then `x` is what the collector removes; and if it does so now, the
   run goes on to publish a dataset whose input is gone, though nothing has damaged the disk.
   */
  lemma IntrusionIsReachable(
    x: Snapshot, integrity: Integrity, verified: Timestamp, expires: Timestamp, retain: nat)
    returns (before: seq<Step>, after: seq<Step>)
    requires Sealable(x, integrity) && !x.pinned
    ensures Feasible(Initial(integrity), before) && Careful(Initial(integrity), before)
    ensures var s := After(Initial(integrity), before);
            && s.damaged == {}
            && (forall keys :: IsListing(keys, s.tables.rows) ==>
                  Removed(keys, s.tables.rows, s.tables.references.Values, retain, None, |keys|) == {x.key})
            && Enabled(s, Collect({x.key}))
            && Feasible(Apply(s, Collect({x.key})), after)
            && Careful(Apply(s, Collect({x.key})), after)
            && Lost(After(Apply(s, Collect({x.key})), after), x.key)
    ensures forall step <- after :: !step.Damage?
  {
    var start := Initial(integrity);
    var shelving := ShelvingRuns(x, integrity, retain);
    var shelved := After(start, shelving);
    var s := Reread(shelved, x, verified, expires);
    var again := RereadRuns(shelved, x, verified, expires);
    RunsCompose(start, shelving, again);
    before := shelving + again;
    ReachableIsValid(integrity, before);
    RereadIsAwaited(shelved, x, verified, expires);
    ShelvedIsCollected(shelved, x, retain);
    hide Sealable, Reread, Inv, Enabled, Apply, Feasible, Careful, After, CanPublish, Awaiting, Removed, IsListing;
    StepKeepsInvariant(s, Collect({x.key}));
    after := RunLoses(Apply(s, Collect({x.key})), x.key);
  }

  lemma ShelvedIsCollected(s: System, x: Snapshot, retain: nat)
    requires Shelved(s, x, retain) && !x.pinned
    ensures forall keys :: IsListing(keys, s.tables.rows) ==>
              Removed(keys, s.tables.rows, s.tables.references.Values, retain, None, |keys|) == {x.key}
  {
    assert s.tables.references.Values == {};
    forall keys | IsListing(keys, s.tables.rows)
      ensures Removed(keys, s.tables.rows, s.tables.references.Values, retain, None, |keys|) == {x.key}
    {
      CollectorTakesOldest(s.tables.rows, x, retain, keys);
    }
  }

  /**
   An interrupted rebuild, from the empty workspace: the input of a published dataset is on disk and
   its row is gone, though nothing was damaged and nothing collected.
   */
  lemma InterruptedRebuildLosesRow(x: Snapshot, integrity: Integrity) returns (steps: seq<Step>)
    requires Sealable(x, integrity)
    ensures Feasible(Initial(integrity), steps) && Careful(Initial(integrity), steps)
    ensures var s := After(Initial(integrity), steps);
            && s.holder.Free?
            && x.key in s.tables.references.Values
            && x.key in s.directories
            && x.key !in s.tables.rows
            && s.damaged == {}
            && s.taken == {}
            && s.unindexed == {x.key}
  {
    var start := Initial(integrity);
    var capturing := CaptureRuns(start, x);
    var s := Put(start, x).(holder := Done(x));
    ReachableIsValid(integrity, capturing);
    hide Feasible, After, Careful, Sealable, Finished, Inv;
    assert s.tables.rows.Keys == {x.key} && s.directories.Keys == {x.key};
    DoneIsActivatable(start, x);
    var stopping := PublishingThenRebuilding(s, x);
    RunsCompose(start, capturing, stopping);
    steps := capturing + stopping;
  }

  lemma DoneIsActivatable(s: System, x: Snapshot)
    requires Sealable(x, s.integrity)
    ensures Activatable(Put(s, x).tables.rows, Source(x.key), x.key)
  {
    hide Finished, Complete, Load;
  }

  /** A run of one source publishes, a rebuild clears the rows, and the process dies. */
  lemma PublishingThenRebuilding(s: System, x: Snapshot) returns (steps: seq<Step>)
    requires Inv(s) && s.holder == Done(x) && Activatable(s.tables.rows, Source(x.key), x.key)
    requires s.directories.Keys == {x.key}
    ensures Feasible(s, steps) && Careful(s, steps)
    ensures var after := After(s, steps);
            && after.holder.Free?
            && x.key in after.tables.references.Values
            && after.directories == s.directories
            && after.tables.rows == map[]
            && after.damaged == s.damaged
            && after.taken == s.taken
            && after.unindexed == s.unindexed + s.tables.rows.Keys
  {
    var payload := PayloadOfRun([Source(x.key)], s.holder.held, "");
    DoneIsPublishable(s, x);
    PublishingChanges(s, payload);
    assert Safe(s, Step.Commit(payload));
    hide Feasible, After, Careful, Activatable, PayloadOfRun, Enabled, Apply, Inv, Safe;
    StepKeepsInvariant(s, Step.Commit(payload));
    CommitReferencesIt(s, payload, Source(x.key));
    var stopping := RebuildInterrupted(Apply(s, Step.Commit(payload)), [x.key]);
    StepThen(s, Step.Commit(payload), stopping);
    steps := [Step.Commit(payload)] + stopping;
  }

  lemma DoneIsPublishable(s: System, x: Snapshot)
    requires s.holder == Done(x) && Activatable(s.tables.rows, Source(x.key), x.key)
    ensures Gathered(s) && Enabled(s, Step.Commit(PayloadOfRun(s.holder.plan, s.holder.held, "")))
  {
    hide Activatable;
    CommitIsEnabled(s, PayloadOfRun(s.holder.plan, s.holder.held, ""));
  }

  lemma PublishingChanges(s: System, payload: Payload)
    requires Enabled(s, Step.Commit(payload))
    ensures var after := Apply(s, Step.Commit(payload));
            && after.holder.Publishing?
            && after.tables.rows.Keys == s.tables.rows.Keys
            && after.directories == s.directories
            && after.damaged == s.damaged
            && after.taken == s.taken
            && after.unindexed == s.unindexed
  {
    ActivationKeepsRows(s.tables.rows, payload.snapshots);
    hide Activated, Published, Referenced, PayloadOfRun;
  }

  /** Publishing ends, a rebuild clears the rows, and the process dies. */
  lemma RebuildInterrupted(s: System, listing: seq<SnapshotKey>) returns (steps: seq<Step>)
    requires s.holder.Publishing? && forall k <- s.directories :: k in listing
    ensures Feasible(s, steps) && Careful(s, steps)
    ensures var after := After(s, steps);
            && after.holder.Free?
            && after.tables.references == s.tables.references
            && after.directories == s.directories
            && after.tables.rows == map[]
            && after.damaged == s.damaged
            && after.taken == s.taken
            && after.unindexed == s.unindexed + s.tables.rows.Keys
  {
    var written := Apply(s, WriteFile);
    var cleared := Apply(written, BeginRebuild(listing));
    CrashOnlyReleases(cleared);
    OneStep(s, WriteFile);
    StepAfter(s, [WriteFile], BeginRebuild(listing));
    StepAfter(s, [WriteFile] + [BeginRebuild(listing)], Crash);
    steps := [WriteFile] + [BeginRebuild(listing)] + [Crash];
    hide Feasible, After, Careful, Filed;
  }
}
