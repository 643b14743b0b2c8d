/**
 The workspace's steps against the operations they stand for: a capture or a pin of the store, a
 publication, and a rebuild are runs of the workspace, wherever they stop, and what the collector
 removes is what a collection step may.
 */
module WorkspaceLinks {
  import opened Outcomes
  import opened Identity
  import opened Snapshots
  import opened Index
  import opened State
  import opened Sorting
  import opened Retention
  import opened Store
  import opened Recovery
  import opened Workspace
  import opened WorkspaceSound
  import opened WorkspaceRuns
  import Layering
  import Orchestration

  // ---------- the three loops of a rebuild ----------

  function Repeat(step: Step, n: nat): seq<Step> {
    if n == 0 then [] else [step] + Repeat(step, n - 1)
  }

  /** The keys of these snapshots. */
  function KeysIn(found: seq<Snapshot>): set<SnapshotKey> {
    set e <- found :: e.key
  }

  lemma {:induction false} RecordingRuns(s: System)
    requires s.holder.Recording?
    ensures var listing, found := s.holder.listing, Recovered(s.holder.listing, s.directories, s.integrity);
            && Feasible(s, Repeat(RecordNext, |listing|))
            && After(s, Repeat(RecordNext, |listing|))
               == WithRows(s, RecordAll(s.tables.rows, found))
                    .(holder := Recording([], s.holder.recovered + found),
                      unindexed := s.unindexed - KeysIn(found))
    decreases |s.holder.listing|
  {
    if s.holder.listing == [] {
      assert s.holder.recovered + [] == s.holder.recovered;
    } else {
      var key, rest := s.holder.listing[0], s.holder.listing[1..];
      var found := Read(At(s.directories, key), s.integrity);
      var next := Apply(s, RecordNext);
      RecordingRuns(next);
      StepThen(s, RecordNext, Repeat(RecordNext, |s.holder.listing| - 1));
      hide Read, Record, After, Feasible;
      RecordedFirst(s.tables.rows, found, Recovered(rest, s.directories, s.integrity), s.holder.recovered, s.unindexed);
      hide RecordAll, KeysIn;
    }
  }

  lemma RecordedFirst(
    rows: Rows, found: Option<Snapshot>, rest: seq<Snapshot>, recovered: seq<Snapshot>, unindexed: set<SnapshotKey>)
    ensures found.Some? ==>
              && RecordAll(rows, [found.value] + rest)
                 == RecordAll(Record(rows, found.value, Inside(found.value.key)), rest)
              && recovered + [found.value] + rest == recovered + ([found.value] + rest)
              && unindexed - {found.value.key} - KeysIn(rest) == unindexed - KeysIn([found.value] + rest)
    ensures [] + rest == rest
  {
    if found.Some? {
      var all := [found.value] + rest;
      assert all[1..] == rest;
      assert forall e :: e in all <==> e == found.value || e in rest;
      assert KeysIn(all) == {found.value.key} + KeysIn(rest);
    }
  }

  lemma {:induction false} ActivatingRuns(s: System)
    requires s.holder.Activating?
    ensures Feasible(s, Repeat(ActivateNext, |s.holder.rest|))
    ensures After(s, Repeat(ActivateNext, |s.holder.rest|))
         == WithRows(s, ActivateUnscoped(s.tables.rows, s.holder.rest)).(holder := Activating([]))
    decreases |s.holder.rest|
  {
    hide Activated;
    if s.holder.rest != [] {
      ActivatingRuns(Apply(s, ActivateNext));
      StepThen(s, ActivateNext, Repeat(ActivateNext, |s.holder.rest| - 1));
    }
  }

  lemma {:induction false} RepublishingRuns(s: System)
    requires s.holder.Republishing?
    ensures Feasible(s, Repeat(RepublishNext, |s.holder.entries|))
    ensures After(s, Repeat(RepublishNext, |s.holder.entries|))
         == s.(tables := CommitAll(s.tables, s.holder.entries), holder := Republishing([]))
    decreases |s.holder.entries|
  {
    hide CommitDataset;
    if s.holder.entries != [] {
      RepublishingRuns(Apply(s, RepublishNext));
      StepThen(s, RepublishNext, Repeat(RepublishNext, |s.holder.entries| - 1));
    }
  }

  // ---------- the whole rebuild ----------

  /** The listed dataset files are those of the workspace. */
  predicate Lists(files: seq<Sidecar>, stored: map<DatasetId, Payload>) {
    forall f <- files :: f.Sidecar? ==> f.claimed in stored && stored[f.claimed] == f.payload
  }

  lemma {:induction false} FreshAreStored(files: seq<Sidecar>, known: set<DatasetId>, stored: map<DatasetId, Payload>)
    requires Lists(files, stored)
    ensures forall e <- Fresh(files, known) :: e.id in stored && stored[e.id] == e.payload
  {
    if files != [] {
      assert files[0] in files;
      FreshAreStored(files[1..], known, stored);
      if Genuine(files[0]) {
        FreshAreStored(files[1..], known + {files[0].claimed}, stored);
      }
    }
  }

  lemma CandidatesAreRepublishable(s: System, files: seq<Sidecar>, order: seq<Entry>)
    requires Lists(files, s.files)
    requires forall e :: e in order <==> e in Candidates(s.tables.datasets, files)
    ensures forall e <- order :: Republishable(s, e)
  {
    var entries := Entries(s.tables.datasets);
    FreshAreStored(files, Recovery.Ids(entries), s.files);
    forall e <- order ensures Republishable(s, e) {
      if e in entries {
        var i :| 0 <= i < |entries| && entries[i] == e;
        assert s.tables.datasets[i] in s.tables.datasets;
      }
    }
  }

  lemma SortedAreRepublishable(s: System, files: seq<Sidecar>)
    requires Lists(files, s.files)
    ensures var order := Sort(Priority(Active(s.tables.datasets)), Candidates(s.tables.datasets, files));
            forall e <- order :: Republishable(s, e)
  {
    hide Republishable, Candidates, Lists, Active;
    PriorityIsWeakOrder(Active(s.tables.datasets));
    InsertAllSorts(Priority(Active(s.tables.datasets)), [], Candidates(s.tables.datasets, files));
    CandidatesAreRepublishable(
      s, files, Sort(Priority(Active(s.tables.datasets)), Candidates(s.tables.datasets, files)));
  }

  /**
   A rebuild that nothing interrupts turns the tables into what `Rebuild` computes from them, the
   disk and the dataset files, and releases the lock. What it has not found is left to be recorded again.
   */
  lemma UninterruptedRebuild(s: System, listing: seq<SnapshotKey>, files: seq<Sidecar>) returns (steps: seq<Step>)
    requires s.holder.Free? && (forall k <- s.directories :: k in listing) && Lists(files, s.files)
    ensures Feasible(s, steps)
    ensures After(s, steps).tables == Rebuild(s.tables, listing, s.directories, s.integrity, files)
    ensures After(s, steps).holder.Free? && After(s, steps).stale == {}
    ensures After(s, steps).unindexed
         == s.unindexed + s.tables.rows.Keys - KeysIn(Recovered(listing, s.directories, s.integrity))
  {
    hide RecordAll, ActivateUnscoped, CommitAll, Recovered, Sort, Candidates, Republishable;
    var a := Apply(s, BeginRebuild(listing));
    OneStep(s, BeginRebuild(listing));
    RecordingRuns(a);
    var b := After(a, Repeat(RecordNext, |listing|));
    RunsCompose(s, [BeginRebuild(listing)], Repeat(RecordNext, |listing|));
    var second := SecondHalf(b, listing, files);
    var first := [BeginRebuild(listing)] + Repeat(RecordNext, |listing|);
    assert b == After(s, first);
    assert [] + Recovered(listing, s.directories, s.integrity) == Recovered(listing, s.directories, s.integrity);
    RunsCompose(s, first, second);
    steps := first + second;
  }

  lemma SecondHalf(s: System, listing: seq<SnapshotKey>, files: seq<Sidecar>) returns (steps: seq<Step>)
    requires s.holder.Recording? && s.holder.listing == [] && Lists(files, s.files)
    ensures Feasible(s, steps)
    ensures var rows := ActivateUnscoped(s.tables.rows, Sort(ByCompletion(), s.holder.recovered));
            After(s, steps) == s.(holder := Free,
              tables := CommitAll(s.tables.(rows := rows),
                                  Sort(Priority(Active(s.tables.datasets)), Candidates(s.tables.datasets, files))))
  {
    hide Feasible, After, ActivateUnscoped, CommitAll, Sort, Candidates, Lists;
    var activate := ActivationPhase(s);
    var publish := PublicationPhase(After(s, activate), files);
    RunsCompose(s, activate, publish);
    steps := activate + publish;
  }

  lemma ActivationPhase(s: System) returns (steps: seq<Step>)
    requires s.holder.Recording? && s.holder.listing == []
    ensures Feasible(s, steps)
    ensures var rows := ActivateUnscoped(s.tables.rows, Sort(ByCompletion(), s.holder.recovered));
            After(s, steps) == WithRows(s, rows).(holder := Activating([]))
  {
    var order := Sort(ByCompletion(), s.holder.recovered);
    InsertAllSorts(ByCompletion(), [], s.holder.recovered);
    hide Sort, ActivateUnscoped;
    ActivatingRuns(Apply(s, BeginActivation(order)));
    StepThen(s, BeginActivation(order), Repeat(ActivateNext, |order|));
    steps := [BeginActivation(order)] + Repeat(ActivateNext, |order|);
    hide After, Feasible;
  }

  lemma PublicationPhase(s: System, files: seq<Sidecar>) returns (steps: seq<Step>)
    requires s.holder.Activating? && s.holder.rest == [] && Lists(files, s.files)
    ensures Feasible(s, steps)
    ensures After(s, steps) == s.(holder := Free,
              tables := CommitAll(s.tables, Sort(Priority(Active(s.tables.datasets)),
                                                 Candidates(s.tables.datasets, files))))
  {
    hide Sort, Candidates, CommitAll, Republishable, After, Feasible, Lists, Active;
    var entries := Sort(Priority(Active(s.tables.datasets)), Candidates(s.tables.datasets, files));
    SortedAreRepublishable(s, files);
    var begun := s.(holder := Republishing(entries));
    BeginsRepublishing(s, entries);
    RepublishingRuns(begun);
    StepThen(s, BeginRepublish(entries), Repeat(RepublishNext, |entries|));
    var most := [BeginRepublish(entries)] + Repeat(RepublishNext, |entries|);
    OneStep(After(s, most), EndRebuild);
    RunsCompose(s, most, [EndRebuild]);
    steps := most + [EndRebuild];
  }

  lemma BeginsRepublishing(s: System, entries: seq<Entry>)
    requires s.holder.Activating? && s.holder.rest == [] && forall e <- entries :: Republishable(s, e)
    ensures Enabled(s, BeginRepublish(entries))
    ensures Apply(s, BeginRepublish(entries)) == s.(holder := Republishing(entries))
  {
  }

  // ---------- the collector ----------

  /** Everything the collector removes is unprotected: its run is a collection step. */
  lemma CollectorIsACollection(s: System, keys: seq<SnapshotKey>, retain: nat, cutoff: Option<Timestamp>, stop: nat)
    requires IsListing(keys, s.tables.rows) && stop <= |keys|
    ensures Enabled(s, Collect(Removed(keys, s.tables.rows, s.tables.references.Values, retain, cutoff, stop)))
  {
    var referenced := s.tables.references.Values;
    forall k <- Removed(keys, s.tables.rows, referenced, retain, cutoff, stop) ensures Unprotected(s.tables, k) {
      RemovedAreListed(keys, s.tables.rows, referenced, retain, cutoff, stop);
      var i :| 0 <= i < |keys| && keys[i] == k;
      RemovedExactly(keys, s.tables.rows, referenced, retain, cutoff, stop, i);
    }
  }

  lemma {:induction false} RemovedAreListed(
    keys: seq<SnapshotKey>, rows: Rows, referenced: set<SnapshotKey>, retain: nat, cutoff: Option<Timestamp>, n: nat)
    requires n <= |keys| && forall k <- keys :: k in rows
    ensures forall k <- Removed(keys, rows, referenced, retain, cutoff, n) :: k in keys
  {
    if n > 0 {
      RemovedAreListed(keys, rows, referenced, retain, cutoff, n - 1);
    }
  }

  // ---------- captures ----------

  function PauseOf(s: System): Pause {
    Pause(s.directories, s.tables.rows)
  }

  /** These are steps of one source's writer. */
  predicate StepsOf(source: SourceId, steps: seq<Step>) {
    forall step <- steps :: AboutWriter(step) && step.source == source
  }

  /** The writer of `source` has loaded the directory that is there already. */
  predicate HasLoaded(s: System, source: SourceId, e: Snapshot, refreshing: bool) {
    Writing(s, source) && s.holder.writers[source] == Loaded(e, refreshing) && e.key in s.directories
  }

  /** The source's capture has ended and left the run with a snapshot of this key. */
  predicate Got(before: Holder, after: Holder, source: SourceId, key: SnapshotKey) {
    && before.Running?
    && after.Running?
    && source in after.held
    && after.held[source].key == key
    && after == before.(writers := before.writers - {source}, held := before.held[source := after.held[source]])
  }

  lemma GotBefore(before: Holder, writing: Holder, after: Holder, source: SourceId, w: Writer, key: SnapshotKey)
    requires before.Running? && writing == before.(writers := before.writers[source := w])
    requires Got(writing, after, source, key)
    ensures Got(before, after, source, key)
  {
    assert writing.writers - {source} == before.writers - {source};
  }

  lemma InstallingRuns(s: System, source: SourceId, x: Snapshot, n: nat) returns (steps: seq<Step>)
    requires Unstarted(s, source)
    requires Source(x.key) == source && Sealable(x, s.integrity) && x.key !in s.directories
    requires n < |Installing(PauseOf(s), x)|
    ensures Feasible(s, steps) && Careful(s, steps) && StepsOf(source, steps)
    ensures PauseOf(After(s, steps)) == Installing(PauseOf(s), x)[n]
    ensures n == 2 ==> Got(s.holder, After(s, steps).holder, source, x.key)
  {
    var sealed := SetWriter(s, source, Sealed(x));
    var renamed := InPlace(s, source, x, Installed(x));
    var validated := InPlace(s, source, x, Unrecorded(x));
    InstallingSteps(s, source, x);
    InstallingPauses(s, source, x);
    hide Enabled, Apply, Feasible, After, Careful, Installing, Sealable, Finished, PauseOf, InPlace, SetWriter, Got,
         Unstarted;
    NoSteps(s);
    steps := [];
    if n > 0 {
      OneStep(s, StartWrite(source, x));
      StepAfter(s, [StartWrite(source, x)], Check(source));
      var renaming := [StartWrite(source, x)] + [Check(source)];
      if n == 1 {
        steps := renaming;
      } else {
        StepAfter(s, renaming, Validate(source));
        StepAfter(s, renaming + [Validate(source)], RecordRow(source));
        steps := renaming + [Validate(source)] + [RecordRow(source)];
      }
    }
  }

  /** The capture of `x` has been moved into place. */
  function InPlace(s: System, source: SourceId, x: Snapshot, w: Writer): System
    requires s.holder.Running?
  {
    WithDirectory(SetWriter(s, source, w), x.key, Finished(x)).(taken := s.taken - {x.key})
  }

  lemma InstallingSteps(s: System, source: SourceId, x: Snapshot)
    requires Unstarted(s, source)
    requires Source(x.key) == source && Sealable(x, s.integrity) && x.key !in s.directories
    ensures var sealed := SetWriter(s, source, Sealed(x));
            var renamed := InPlace(s, source, x, Installed(x));
            var validated := InPlace(s, source, x, Unrecorded(x));
            && Enabled(s, StartWrite(source, x)) && Apply(s, StartWrite(source, x)) == sealed
            && Enabled(sealed, Check(source)) && Apply(sealed, Check(source)) == renamed
            && Enabled(renamed, Validate(source)) && Apply(renamed, Validate(source)) == validated
  {
    FinishedValidates(x, s.integrity);
    Replacing(s.holder.writers, source, Sealed(x), Installed(x));
    Replacing(s.holder.writers, source, Installed(x), Unrecorded(x));
    hide Sealable, Finished, Record, Validates;
  }

  lemma InstallingPauses(s: System, source: SourceId, x: Snapshot)
    requires Unstarted(s, source) && Source(x.key) == source
    ensures var renamed := InPlace(s, source, x, Installed(x));
            var validated := InPlace(s, source, x, Unrecorded(x));
            && Enabled(validated, RecordRow(source))
            && |Installing(PauseOf(s), x)| == 3
            && PauseOf(s) == Installing(PauseOf(s), x)[0]
            && PauseOf(renamed) == Installing(PauseOf(s), x)[1]
            && PauseOf(Apply(validated, RecordRow(source))) == Installing(PauseOf(s), x)[2]
            && Got(s.holder, Apply(validated, RecordRow(source)).holder, source, x.key)
  {
    Restored(s.holder.writers, source, Unrecorded(x));
    hide Finished, Record;
  }

  lemma NoSteps(s: System)
    ensures Feasible(s, []) && After(s, []) == s && Careful(s, [])
  {
  }

  lemma Replacing(writers: map<SourceId, Writer>, source: SourceId, before: Writer, after: Writer)
    ensures writers[source := before][source := after] == writers[source := after]
  {
  }

  lemma Restored(writers: map<SourceId, Writer>, source: SourceId, w: Writer)
    requires source !in writers
    ensures writers[source := w] - {source} == writers
  {
  }

  /** The input is there already: its directory is loaded and validated, and nothing has changed yet. */
  lemma LoadingRuns(s: System, source: SourceId, x: Snapshot, e: Snapshot) returns (steps: seq<Step>)
    requires Unstarted(s, source)
    requires Source(x.key) == source && Sealable(x, s.integrity)
    requires x.key in s.directories && Read(At(s.directories, x.key), s.integrity) == Some(e)
    ensures Feasible(s, steps) && Careful(s, steps) && StepsOf(source, steps)
    ensures After(s, steps) == SetWriter(s, source, Loaded(e, true))
  {
    hide Sealable, Read;
    var sealed, found := SetWriter(s, source, Sealed(x)), SetWriter(s, source, Found(x));
    Replacing(s.holder.writers, source, Sealed(x), Found(x));
    Replacing(s.holder.writers, source, Found(x), Loaded(e, true));
    assert Enabled(s, StartWrite(source, x)) && Apply(s, StartWrite(source, x)) == sealed;
    assert Enabled(sealed, Check(source)) && Apply(sealed, Check(source)) == found;
    assert Enabled(found, LoadExisting(source));
    assert Apply(found, LoadExisting(source)) == SetWriter(s, source, Loaded(e, true));
    hide Enabled, Apply, Feasible, After, Careful;
    OneStep(s, StartWrite(source, x));
    StepAfter(s, [StartWrite(source, x)], Check(source));
    StepAfter(s, [StartWrite(source, x)] + [Check(source)], LoadExisting(source));
    steps := [StartWrite(source, x)] + [Check(source)] + [LoadExisting(source)];
  }

  lemma PinningSteps(s: System, source: SourceId, e: Snapshot, refreshing: bool)
    requires HasLoaded(s, source, e, refreshing)
    ensures Enabled(s, PinDisk(source)) && Enabled(Apply(s, PinDisk(source)), PinRow(source))
    ensures var pauses := Pinning(PauseOf(s), e.key);
            var pinned := Apply(s, PinDisk(source));
            var done := Apply(pinned, PinRow(source));
            && |pauses| == 3
            && pauses[0] == PauseOf(s)
            && pauses[1] == PauseOf(pinned)
            && pauses[2] == PauseOf(done)
            && HasLoaded(done, source, e.(pinned := true), refreshing)
            && done.holder == s.holder.(writers := s.holder.writers[source := Loaded(e.(pinned := true), refreshing)])
  {
    hide Pinned, Index.SetPinned, Sealable, Usable, Read, Validates, CommitDataset, Unprotected, Record, Observe;
  }

  /** A pin, of a capture that is there already or of one that is reused: the metadata, then the row. */
  lemma PinningRuns(s: System, source: SourceId, e: Snapshot, refreshing: bool, n: nat) returns (steps: seq<Step>)
    requires HasLoaded(s, source, e, refreshing) && n < |Pinning(PauseOf(s), e.key)|
    ensures Feasible(s, steps) && Careful(s, steps) && StepsOf(source, steps)
    ensures PauseOf(After(s, steps)) == Pinning(PauseOf(s), e.key)[n]
    ensures n == 2 ==> HasLoaded(After(s, steps), source, e.(pinned := true), refreshing)
    ensures n == 2 ==> After(s, steps).holder
                       == s.holder.(writers := s.holder.writers[source := Loaded(e.(pinned := true), refreshing)])
  {
    PinningSteps(s, source, e, refreshing);
    hide Enabled, Apply, Feasible, After, Careful, Pinned, Index.SetPinned, Pinning;
    NoSteps(s);
    steps := [];
    if n > 0 {
      OneStep(s, PinDisk(source));
      steps := [PinDisk(source)];
    }
    if n > 1 {
      StepAfter(s, [PinDisk(source)], PinRow(source));
      steps := [PinDisk(source)] + [PinRow(source)];
    }
  }

  /** The receipt of an identical input, then its row. */
  lemma ReceivingRuns(s: System, source: SourceId, e: Snapshot, verified: Timestamp, expires: Timestamp, n: nat)
    returns (steps: seq<Step>)
    requires HasLoaded(s, source, e, true) && n < |Receiving(PauseOf(s), e, verified, expires)|
    ensures Feasible(s, steps) && Careful(s, steps) && StepsOf(source, steps)
    ensures PauseOf(After(s, steps)) == Receiving(PauseOf(s), e, verified, expires)[n]
    ensures n == 2 ==> Got(s.holder, After(s, steps).holder, source, e.key)
  {
    hide Observe, Record;
    var received := Apply(s, Receive(source, verified, expires));
    var recorded := Apply(received, RecordRow(source));
    assert PauseOf(received) == Receiving(PauseOf(s), e, verified, expires)[1];
    assert PauseOf(recorded) == Receiving(PauseOf(s), e, verified, expires)[2];
    assert received.holder.writers - {source} == s.holder.writers - {source};
    hide Enabled, Apply, Feasible, After, Careful;
    NoSteps(s);
    steps := [];
    if n > 0 {
      OneStep(s, Receive(source, verified, expires));
      steps := [Receive(source, verified, expires)];
    }
    if n > 1 {
      StepAfter(s, [Receive(source, verified, expires)], RecordRow(source));
      steps := [Receive(source, verified, expires)] + [RecordRow(source)];
    }
  }

  lemma LoadedRuns(
    s: System, source: SourceId, e: Snapshot, pinned: bool, verified: Timestamp, expires: Timestamp, n: nat)
    returns (steps: seq<Step>)
    requires HasLoaded(s, source, e, true) && Read(At(s.directories, e.key), s.integrity) == Some(e)
    requires n < |Reverifying(PauseOf(s), e.key, s.integrity, pinned, verified, expires)|
    ensures var pauses := Reverifying(PauseOf(s), e.key, s.integrity, pinned, verified, expires);
            && Feasible(s, steps)
            && Careful(s, steps)
            && StepsOf(source, steps)
            && PauseOf(After(s, steps)) == pauses[n]
            && (n == |pauses| - 1 ==> Got(s.holder, After(s, steps).holder, source, e.key))
  {
    hide Enabled, Apply, Feasible, After, Careful, Read, Pinned, Observe, Record, Index.SetPinned, Got;
    if !pinned || e.pinned {
      steps := ReceivingRuns(s, source, e, verified, expires, n);
    } else if n < 2 {
      steps := PinningRuns(s, source, e, true, n);
    } else {
      var pinning := PinningRuns(s, source, e, true, 2);
      var receiving := ReceivingRuns(After(s, pinning), source, e.(pinned := true), verified, expires, n - 2);
      RunsCompose(s, pinning, receiving);
      steps := pinning + receiving;
      if n == 4 {
        GotBefore(
          s.holder, After(s, pinning).holder, After(s, steps).holder, source, Loaded(e.(pinned := true), true), e.key);
      }
    }
  }

  /**
   A capture of the store is a run of the workspace. Wherever the store stops between two effects on
   disk and index, steps of the source's writer lead there, whatever the other writers are doing; and
   when it ends, the snapshot is held for publication.
   */
  lemma CaptureIsARun(
    s: System, source: SourceId, x: Snapshot, pinned: bool, verified: Timestamp, expires: Timestamp, n: nat)
    returns (steps: seq<Step>)
    requires Sound(s) && Unstarted(s, source)
    requires Source(x.key) == source && Sealable(x, s.integrity)
    requires n < |Capturing(PauseOf(s), x, s.integrity, pinned, verified, expires)|
    ensures Feasible(s, steps) && Careful(s, steps) && StepsOf(source, steps)
    ensures var pauses := Capturing(PauseOf(s), x, s.integrity, pinned, verified, expires);
            && PauseOf(After(s, steps)) == pauses[n]
            && (0 < n == |pauses| - 1 ==> Got(s.holder, After(s, steps).holder, source, x.key))
  {
    ReadIsDescribed(s, x.key);
    NoSteps(s);
    hide Sound, Enabled, Apply, Feasible, After, Careful, Sealable, Read, Describes, Load, Got;
    if x.key !in s.directories {
      hide Finished, Record;
      steps := InstallingRuns(s, source, x, n);
    } else if Read(At(s.directories, x.key), s.integrity).None? {
      steps := [];
    } else {
      steps := ExistingRuns(s, source, x, pinned, verified, expires, n);
    }
  }

  /** The input is there already. */
  lemma ExistingRuns(
    s: System, source: SourceId, x: Snapshot, pinned: bool, verified: Timestamp, expires: Timestamp, n: nat)
    returns (steps: seq<Step>)
    requires Sound(s) && Unstarted(s, source)
    requires Source(x.key) == source && Sealable(x, s.integrity)
    requires Read(At(s.directories, x.key), s.integrity).Some?
    requires n < |Reverifying(PauseOf(s), x.key, s.integrity, pinned, verified, expires)|
    ensures Feasible(s, steps) && Careful(s, steps) && StepsOf(source, steps)
    ensures var pauses := Reverifying(PauseOf(s), x.key, s.integrity, pinned, verified, expires);
            && PauseOf(After(s, steps)) == pauses[n]
            && (n == |pauses| - 1 ==> Got(s.holder, After(s, steps).holder, source, x.key))
  {
    ReadIsDescribed(s, x.key);
    var e := Read(At(s.directories, x.key), s.integrity).value;
    assert e.key == x.key && x.key in s.directories;
    hide Sound, Enabled, Apply, Feasible, After, Careful, Sealable, Read, Describes, Load, Got, Reverifying, Unstarted;
    var loading := LoadingRuns(s, source, x, e);
    var rest := LoadedRuns(After(s, loading), source, e, pinned, verified, expires, n);
    RunsCompose(s, loading, rest);
    steps := loading + rest;
    if n == |Reverifying(PauseOf(s), x.key, s.integrity, pinned, verified, expires)| - 1 {
      GotBefore(s.holder, After(s, loading).holder, After(s, steps).holder, source, Loaded(e, true), x.key);
    }
  }

  // ---------- publication ----------

  /**
   A publication is a run of the workspace: dying before it, after its transaction, or returning with
   the dataset file written are the first states of committing and writing the file.
   */
  lemma PublicationIsARun(s: System, payload: Payload)
    requires Gathered(s) && payload == PayloadOfRun(s.holder.plan, s.holder.held, payload.run)
    requires CommitDataset(s.tables, DatasetOf(payload), payload).Success?
    ensures var committing, writing := [Step.Commit(payload)], [Step.Commit(payload), WriteFile];
            var tables := CommitDataset(s.tables, DatasetOf(payload), payload).value;
            && Feasible(s, committing)
            && After(s, committing).tables == tables
            && After(s, committing).files == s.files
            && Feasible(s, writing)
            && After(s, writing).tables == tables
            && After(s, writing).files == Filed(s.files, tables.datasets, DatasetOf(payload))
            && After(s, writing).holder.Free?
  {
    hide CommitDataset, Filed;
    OneStep(s, Step.Commit(payload));
    StepAfter(s, [Step.Commit(payload)], WriteFile);
    assert [Step.Commit(payload)] + [WriteFile] == [Step.Commit(payload), WriteFile];
    hide Feasible, After;
  }

  /** A run of the workspace publishes what the run that plans and gathers hands to the transaction. */
  lemma PayloadsAgree(plans: Layering.Sources, known: map<SourceId, Snapshot>, run: string)
    requires forall s <- plans :: s.id in known
    ensures var plan := seq(|plans|, i requires 0 <= i < |plans| => plans[i].id);
            && (forall source <- plan :: source in known)
            && PayloadOfRun(plan, known, run)
               == Payload(KeysOf(known), IdentityOf(known).scopes, Orchestration.CaptureTimes(plans, known), run)
  {
    var plan := seq(|plans|, i requires 0 <= i < |plans| => plans[i].id);
    forall source <- plan ensures source in known {
      var i :| 0 <= i < |plan| && plan[i] == source;
      assert plans[i] in plans;
    }
    assert PayloadOfRun(plan, known, run).captured == Orchestration.CaptureTimes(plans, known);
  }
}
