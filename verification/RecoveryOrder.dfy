/**
 Which dataset and which captures are current after a rebuild, in terms of the completion times that were
 recorded: the active dataset if it can be, or else the latest one; and the latest unscoped captures.
 */
module RecoveryOrder {
  import opened Outcomes
  import opened Identity
  import opened Snapshots
  import opened Index
  import opened Sorting
  import opened Store
  import opened Recovery

  // ---------- the last of those that are kept ----------

  /** Where an element that is kept is found among those that are. */
  lemma KeptPosition<T>(keep: T -> bool, xs: seq<T>, i: nat)
    requires i < |xs| && keep(xs[i])
    ensures |Filter(keep, xs[..i])| < |Filter(keep, xs)| && Filter(keep, xs)[|Filter(keep, xs[..i])|] == xs[i]
  {
    assert xs == xs[..i] + xs[i..];
    FilterConcat(keep, xs[..i], xs[i..]);
  }

  lemma KeptInOrder<T>(keep: T -> bool, xs: seq<T>, i: nat, j: nat)
    requires i < j < |xs| && keep(xs[i])
    ensures |Filter(keep, xs[..i])| < |Filter(keep, xs[..j])|
  {
    KeptPosition(keep, xs[..j], i);
    assert xs[..j][..i] == xs[..i];
  }

  lemma {:induction false} KeptElement<T>(keep: T -> bool, xs: seq<T>, p: nat) returns (i: nat)
    requires p < |Filter(keep, xs)|
    ensures i < |xs| && keep(xs[i]) && |Filter(keep, xs[..i])| == p && Filter(keep, xs)[p] == xs[i]
  {
    if keep(xs[0]) && p == 0 {
      return 0;
    }
    var rest := KeptElement(keep, xs[1..], if keep(xs[0]) then p - 1 else p);
    i := rest + 1;
    assert xs[..i] == [xs[0]] + xs[1..][..rest];
    FilterConcat(keep, [xs[0]], xs[1..][..rest]);
  }

  /** The last of the kept elements, once sorted: none is greater, and of equal ones it is the last. */
  ghost predicate Last<T(!new)>(less: (T, T) -> bool, keep: T -> bool, xs: seq<T>, w: nat) {
    && w < |xs|
    && keep(xs[w])
    && (forall i :: 0 <= i < w && keep(xs[i]) ==> !less(xs[w], xs[i]))
    && (forall i :: w < i < |xs| && keep(xs[i]) ==> less(xs[i], xs[w]))
  }

  lemma LastKept<T(!new)>(less: (T, T) -> bool, keep: T -> bool, xs: seq<T>) returns (w: nat)
    requires IsWeakOrder(less) && Filter(keep, xs) != []
    ensures Last(less, keep, xs, w)
    ensures var sorted := Sort(less, Filter(keep, xs)); sorted != [] && sorted[|sorted| - 1] == xs[w]
  {
    var p := LastOfInsertAll(less, [], Filter(keep, xs));
    w := KeptElement(keep, xs, p);
    forall i | 0 <= i < w && keep(xs[i]) ensures !less(xs[w], xs[i]) {
      KeptPosition(keep, xs, i);
      KeptInOrder(keep, xs, i, w);
    }
    forall i | w < i < |xs| && keep(xs[i]) ensures less(xs[i], xs[w]) {
      KeptPosition(keep, xs, i);
      KeptInOrder(keep, xs, w, i);
    }
  }

  // ---------- which datasets a rebuild knows ----------

  /** A file under the digest of its own contents. */
  predicate OwnDigest(file: Sidecar) {
    && file.Sidecar?
    && file.claimed.snapshots == file.payload.snapshots
    && file.claimed.scopes == file.payload.scopes
  }

  /** The first file of its dataset that holds the digest of its contents. */
  ghost predicate FirstFile(files: seq<Sidecar>, i: nat) {
    && i < |files|
    && OwnDigest(files[i])
    && forall j :: 0 <= j < i && OwnDigest(files[j]) ==> files[j].claimed != files[i].claimed
  }

  lemma {:induction false} FreshExactly(files: seq<Sidecar>, known: set<DatasetId>, e: Entry)
    ensures e in Fresh(files, known) <==>
              exists i: nat :: FirstFile(files, i) && files[i].claimed !in known
                               && e == Entry(files[i].claimed, files[i].payload)
  {
    if files != [] {
      var rest, more := files[1..], if Genuine(files[0]) then known + {files[0].claimed} else known;
      FreshExactly(rest, more, e);
      hide Fresh;
      assert Genuine(files[0]) <==> OwnDigest(files[0]);
      FreshCons(files, known, e);
      forall i: nat | FirstFile(files, i) && i > 0
        ensures FirstFile(rest, i - 1) && rest[i - 1] == files[i]
      {
        assert forall j :: 0 <= j < i - 1 ==> rest[j] == files[j + 1];
      }
      forall i: nat | FirstFile(rest, i) && (OwnDigest(files[0]) ==> files[0].claimed != rest[i].claimed)
        ensures FirstFile(files, i + 1) && files[i + 1] == rest[i]
      {
        assert forall j :: 1 <= j < i + 1 ==> files[j] == rest[j - 1];
      }
    }
  }

  lemma FreshCons(files: seq<Sidecar>, known: set<DatasetId>, e: Entry)
    requires files != []
    ensures var more := if Genuine(files[0]) then known + {files[0].claimed} else known;
            e in Fresh(files, known) <==>
              || (Genuine(files[0]) && files[0].claimed !in known && e == Entry(files[0].claimed, files[0].payload))
              || e in Fresh(files[1..], more)
  {
    if Genuine(files[0]) && files[0].claimed in known {
      assert known + {files[0].claimed} == known;
    }
  }

  /**
   What a rebuild may publish: the datasets of the table as they are recorded there, and of each other
   dataset the first file that holds the digest of its contents.
   */
  lemma CandidatesExactly(datasets: seq<DatasetRow>, files: seq<Sidecar>, e: Entry)
    ensures e in Candidates(datasets, files) <==>
              || (exists d <- datasets :: e == Entry(d.id, d.payload))
              || ((forall d <- datasets :: d.id != e.id)
                  && exists i: nat :: FirstFile(files, i) && e == Entry(files[i].claimed, files[i].payload))
  {
    var entries := Entries(datasets);
    FreshExactly(files, Recovery.Ids(entries), e);
    KnowsIsListed(datasets, e.id);
    hide Fresh, FirstFile;
    if e in entries {
      var i :| 0 <= i < |entries| && entries[i] == e;
      assert datasets[i] in datasets;
    }
    if d :| d in datasets && e == Entry(d.id, d.payload) {
      var i :| 0 <= i < |datasets| && datasets[i] == d;
      assert entries[i] == e;
    }
  }

  // ---------- which dataset is current afterwards ----------

  /** One completion time of `a` is later than all of `b`. */
  ghost predicate Later(a: Payload, b: Payload) {
    exists i :: 0 <= i < |a.captured| && forall j :: 0 <= j < |b.captured| ==> a.captured[i] > b.captured[j]
  }

  lemma {:induction false} LatestIsMaximum(captured: seq<Timestamp>)
    ensures Latest(captured).Some? <==> captured != []
    ensures Latest(captured).Some? ==>
              && (exists i :: 0 <= i < |captured| && captured[i] == Latest(captured).value)
              && (forall i :: 0 <= i < |captured| ==> captured[i] <= Latest(captured).value)
  {
    if captured != [] {
      var rest := captured[1..];
      LatestIsMaximum(rest);
      if Latest(captured).value == captured[0] {
        assert captured[0] == Latest(captured).value;
      } else {
        var i :| 0 <= i < |rest| && rest[i] == Latest(rest).value;
        assert captured[i + 1] == Latest(captured).value;
      }
      forall i | 0 <= i < |captured| ensures captured[i] <= Latest(captured).value {
        assert i > 0 ==> rest[i - 1] == captured[i];
      }
    }
  }

  lemma EarlierMeans(a: Payload, b: Payload)
    ensures Earlier(Latest(a.captured), Latest(b.captured)) <==> Later(b, a)
  {
    LatestIsMaximum(a.captured);
    LatestIsMaximum(b.captured);
    hide Latest;
    if Earlier(Latest(a.captured), Latest(b.captured)) {
      var i :| 0 <= i < |b.captured| && b.captured[i] == Latest(b.captured).value;
      assert forall j :: 0 <= j < |a.captured| ==> b.captured[i] > a.captured[j];
    }
  }

  ghost predicate IsCurrent(datasets: seq<DatasetRow>, id: DatasetId) {
    exists i :: 0 <= i < |datasets| && datasets[i].active && datasets[i].id == id
  }

  /** Every member is listed and reads back. */
  predicate Whole(e: Entry, listing: seq<SnapshotKey>, directories: Directories, integrity: Integrity) {
    forall s <- e.payload.snapshots ::
      var k := e.payload.snapshots[s];
      k in listing && Source(k) == s && Read(At(directories, k), integrity).Some?
  }

  /**
   The dataset to be current: whole, and active before; or, when no whole one was, such that no other whole
   one holds a later completion time than all of its own, and none listed behind it one just as late.
   */
  ghost predicate Designated(
    datasets: seq<DatasetRow>, candidates: seq<Entry>, listing: seq<SnapshotKey>, directories: Directories,
    integrity: Integrity, w: nat)
  {
    && w < |candidates|
    && Whole(candidates[w], listing, directories, integrity)
    && (IsCurrent(datasets, candidates[w].id)
        || ((forall i :: 0 <= i < |candidates| && Whole(candidates[i], listing, directories, integrity) ==>
               !IsCurrent(datasets, candidates[i].id))
            && (forall i :: 0 <= i < |candidates| && Whole(candidates[i], listing, directories, integrity) ==>
                  !Later(candidates[i].payload, candidates[w].payload))
            && (forall i :: w < i < |candidates| && Whole(candidates[i], listing, directories, integrity) ==>
                  Later(candidates[w].payload, candidates[i].payload))))
  }

  lemma {:induction false} RecordAllKeys(rows: Rows, snapshots: seq<Snapshot>)
    ensures forall k <- RecordAll(rows, snapshots) :: k in rows || exists s <- snapshots :: s.key == k
    decreases |snapshots|
  {
    if snapshots != [] {
      RecordAllKeys(Record(rows, snapshots[0], Inside(snapshots[0].key)), snapshots[1..]);
      assert snapshots == [snapshots[0]] + snapshots[1..];
    }
  }

  lemma {:induction false} ActivationKeepsKeys(rows: Rows, snapshots: seq<Snapshot>)
    ensures ActivateUnscoped(rows, snapshots).Keys == rows.Keys
    decreases |snapshots|
  {
    if snapshots != [] {
      var s := snapshots[0];
      var next := if s.request.scope == Unscoped && Activatable(rows, s.Source(), s.key)
                  then Activated(rows, map[s.Source() := s.key]) else rows;
      assert next.Keys == rows.Keys;
      ActivationKeepsKeys(next, snapshots[1..]);
    }
  }

  /** The rows are those of the recovered captures. */
  lemma BaselineIsRecovered(listing: seq<SnapshotKey>, directories: Directories, integrity: Integrity)
    requires AllAuthentic(directories)
    ensures forall k <- Baseline(listing, directories, integrity) ::
              && k in listing
              && Read(At(directories, k), integrity).Some?
              && Read(At(directories, k), integrity).value in Recovered(listing, directories, integrity)
              && Read(At(directories, k), integrity).value.key == k
  {
    var recovered := Recovered(listing, directories, integrity);
    RecordAllKeys(map[], recovered);
    ActivationKeepsKeys(RecordAll(map[], recovered), Sort(ByCompletion(), recovered));
    RecoveredMembers(listing, directories, integrity);
    hide RecordAll, ActivateUnscoped, Sort, Recovered, Read;
  }

  lemma PassesMeans(e: Entry, listing: seq<SnapshotKey>, directories: Directories, integrity: Integrity)
    requires AllAuthentic(directories)
    ensures Passes(Baseline(listing, directories, integrity))(e) <==> Whole(e, listing, directories, integrity)
  {
    var rows := Baseline(listing, directories, integrity);
    BaselineFacts(listing, directories, integrity);
    BaselineIsRecovered(listing, directories, integrity);
    hide Baseline, RowsValid, Read;
    forall s <- e.payload.snapshots
      ensures var k := e.payload.snapshots[s];
              Activatable(rows, s, k)
              <==> k in listing && Source(k) == s && Read(At(directories, k), integrity).Some?
    {
      var k := e.payload.snapshots[s];
      if Read(At(directories, k), integrity).Some? {
        AuthenticReads(At(directories, k), k, integrity);
      }
    }
  }

  lemma CurrentIsActive(datasets: seq<DatasetRow>, id: DatasetId)
    requires DatasetsValid(datasets)
    ensures IsCurrent(datasets, id) <==> Active(datasets) == Some(id)
  {
    ActiveIsFlag(datasets);
    if Active(datasets) == Some(id) {
      var d :| d in datasets && d.id == id;
      var i :| 0 <= i < |datasets| && datasets[i] == d;
      assert datasets[i].active;
    }
  }

  lemma BeforeMeans(datasets: seq<DatasetRow>, a: Entry, b: Entry)
    requires DatasetsValid(datasets)
    ensures Priority(Active(datasets))(a, b)
            <==> if IsCurrent(datasets, a.id) == IsCurrent(datasets, b.id) then Later(b.payload, a.payload)
                 else IsCurrent(datasets, b.id)
  {
    CurrentIsActive(datasets, a.id);
    CurrentIsActive(datasets, b.id);
    EarlierMeans(a.payload, b.payload);
    hide Active, Latest, Earlier, Later, IsCurrent, DatasetsValid;
  }

  /** The last entry in the order of publication is the designated one, and there is only one. */
  lemma LastIsDesignated(
    datasets: seq<DatasetRow>, candidates: seq<Entry>, listing: seq<SnapshotKey>, directories: Directories,
    integrity: Integrity, w: nat)
    requires DatasetsValid(datasets) && AllAuthentic(directories)
    requires Last(Priority(Active(datasets)), Passes(Baseline(listing, directories, integrity)), candidates, w)
    ensures Designated(datasets, candidates, listing, directories, integrity, w)
  {
    var rows := Baseline(listing, directories, integrity);
    forall i | 0 <= i < |candidates|
      ensures Passes(rows)(candidates[i]) <==> Whole(candidates[i], listing, directories, integrity)
    {
      PassesMeans(candidates[i], listing, directories, integrity);
    }
    hide Baseline, Passes, Whole;
    forall i | 0 <= i < |candidates| && Whole(candidates[i], listing, directories, integrity) && i != w
      ensures IsCurrent(datasets, candidates[i].id) ==> IsCurrent(datasets, candidates[w].id)
      ensures !IsCurrent(datasets, candidates[i].id) && !IsCurrent(datasets, candidates[w].id) ==>
                !Later(candidates[i].payload, candidates[w].payload)
                && (i > w ==> Later(candidates[w].payload, candidates[i].payload))
    {
      BeforeMeans(datasets, candidates[w], candidates[i]);
      BeforeMeans(datasets, candidates[i], candidates[w]);
      LaterIsStrict(candidates[w].payload, candidates[i].payload);
      hide Priority, IsCurrent, Later;
    }
    LaterIsStrict(candidates[w].payload, candidates[w].payload);
    hide Priority, IsCurrent, Later, DatasetsValid, Last;
  }

  lemma LaterIsStrict(a: Payload, b: Payload)
    ensures Later(a, b) ==> !Later(b, a)
  {
    if Later(a, b) {
      var i :| 0 <= i < |a.captured| && forall j :: 0 <= j < |b.captured| ==> a.captured[i] > b.captured[j];
      forall j | 0 <= j < |b.captured|
        ensures exists k :: 0 <= k < |a.captured| && b.captured[j] <= a.captured[k]
      {
        assert b.captured[j] <= a.captured[i];
      }
    }
  }

  lemma OneIsDesignated(
    datasets: seq<DatasetRow>, candidates: seq<Entry>, listing: seq<SnapshotKey>, directories: Directories,
    integrity: Integrity, w: nat, v: nat)
    requires DatasetsValid(datasets)
    requires Designated(datasets, candidates, listing, directories, integrity, w)
    requires Designated(datasets, candidates, listing, directories, integrity, v)
    ensures candidates[w].id == candidates[v].id
  {
    CurrentIsActive(datasets, candidates[w].id);
    CurrentIsActive(datasets, candidates[v].id);
    hide Whole, Later, IsCurrent, DatasetsValid, Active;
    assert w == v || w < v || v < w;
  }

  /** What the dataset table says after a rebuild, when some candidate is whole. */
  ghost predicate Current(after: Tables, e: Entry) {
    && (forall d <- after.datasets :: d.active <==> d.id == e.id)
    && Knows(after.datasets, e.id)
    && (forall k <- e.payload.snapshots.Values :: k in after.rows && after.rows[k].active)
  }

  /**
   The current dataset after a rebuild. If any candidate is whole, exactly one dataset is designated, and it
   is the only active one, with all its members active: the one that was active, or else the latest by the
   completion times recorded. If none is whole, the active dataset is the one it was before.
   */
  lemma RebuildPublishesLatest(
    t: Tables, listing: seq<SnapshotKey>, directories: Directories, integrity: Integrity, files: seq<Sidecar>)
    requires DatasetsValid(t.datasets) && AllAuthentic(directories)
    ensures var candidates := Candidates(t.datasets, files);
            var after := Rebuild(t, listing, directories, integrity, files);
            && ((exists e <- candidates :: Whole(e, listing, directories, integrity)) ==>
                  exists w: nat :: Designated(t.datasets, candidates, listing, directories, integrity, w))
            && (forall w: nat :: Designated(t.datasets, candidates, listing, directories, integrity, w) ==>
                  Current(after, candidates[w]))
            && ((forall e <- candidates :: !Whole(e, listing, directories, integrity)) ==>
                  forall id :: IsCurrent(after.datasets, id) <==> IsCurrent(t.datasets, id))
  {
    var rows := Baseline(listing, directories, integrity);
    var candidates, entries := Candidates(t.datasets, files), Publishable(t, rows, files);
    var after := Rebuild(t, listing, directories, integrity, files);
    forall e ensures Passes(rows)(e) <==> Whole(e, listing, directories, integrity) {
      PassesMeans(e, listing, directories, integrity);
    }
    RebuildEndsWith(t, listing, directories, integrity, files);
    FilterMembers(Passes(rows), candidates);
    PriorityIsWeakOrder(Active(t.datasets));
    hide Baseline, Passes, Whole, Rebuild, Candidates, IsCurrent, Designated, DatasetsValid;
    if Filter(Passes(rows), candidates) != [] {
      var w0 := LastKept(Priority(Active(t.datasets)), Passes(rows), candidates);
      hide Sort, Last, Priority;
      LastIsDesignated(t.datasets, candidates, listing, directories, integrity, w0);
      forall w: nat | Designated(t.datasets, candidates, listing, directories, integrity, w)
        ensures Current(after, candidates[w])
      {
        OneIsDesignated(t.datasets, candidates, listing, directories, integrity, w, w0);
        SameIdSameEntry(t.datasets, files, candidates, listing, directories, integrity, w, w0);
      }
    } else {
      NoneIsDesignated(t.datasets, candidates, listing, directories, integrity);
      forall id ensures IsCurrent(after.datasets, id) <==> IsCurrent(t.datasets, id) {
        CurrentIsActive(after.datasets, id);
        CurrentIsActive(t.datasets, id);
      }
    }
  }

  lemma NoneIsDesignated(
    datasets: seq<DatasetRow>, candidates: seq<Entry>, listing: seq<SnapshotKey>, directories: Directories,
    integrity: Integrity)
    requires forall e <- candidates :: !Whole(e, listing, directories, integrity)
    ensures forall w: nat :: !Designated(datasets, candidates, listing, directories, integrity, w)
  {
    hide Whole, Later, IsCurrent;
  }

  lemma SameIdSameEntry(
    datasets: seq<DatasetRow>, files: seq<Sidecar>, candidates: seq<Entry>, listing: seq<SnapshotKey>,
    directories: Directories, integrity: Integrity, w: nat, v: nat)
    requires DatasetsValid(datasets) && candidates == Candidates(datasets, files)
    requires Designated(datasets, candidates, listing, directories, integrity, w) && v < |candidates|
    requires candidates[w].id == candidates[v].id
    ensures candidates[w] == candidates[v]
  {
    CandidatesDistinct(datasets, files);
    hide Whole, Later, IsCurrent, Candidates;
    assert w == v || w < v || v < w;
  }

  /** The tables after a rebuild, by the last entry it publishes. */
  lemma RebuildEndsWith(
    t: Tables, listing: seq<SnapshotKey>, directories: Directories, integrity: Integrity, files: seq<Sidecar>)
    requires DatasetsValid(t.datasets) && AllAuthentic(directories)
    ensures var rows := Baseline(listing, directories, integrity);
            var after := Rebuild(t, listing, directories, integrity, files);
            var kept := Filter(Passes(rows), Candidates(t.datasets, files));
            var sorted := Sort(Priority(Active(t.datasets)), kept);
            && DatasetsValid(after.datasets)
            && (sorted != [] ==> Current(after, sorted[|sorted| - 1]))
            && (kept == [] ==> Active(after.datasets) == Active(t.datasets))
  {
    var rows := Baseline(listing, directories, integrity);
    var start, entries := Tables(rows, t.datasets, t.references), Publishable(t, rows, files);
    BaselineFacts(listing, directories, integrity);
    PublishableFacts(t, rows, files);
    RebuildPublishes(t, listing, directories, integrity, files);
    hide Baseline, Rebuild, Refines, RowsValid, CommitAll, Candidates, Passes, Priority, AllAuthentic, Active, Current,
         DatasetsValid, Filter, Sort;
    CommitAllEndsWith(start, entries, directories, integrity);
    SortNothing(Priority(Active(t.datasets)));
  }

  lemma SortNothing<T>(less: (T, T) -> bool)
    ensures Sort(less, []) == []
  {
  }

  lemma CommitAllEndsWith(t: Tables, entries: seq<Entry>, directories: Directories, integrity: Integrity)
    requires DatasetsValid(t.datasets) && DistinctIds(entries) && forall e <- entries :: Passes(t.rows)(e)
    requires RowsValid(t.rows) && Refines(t.rows, directories, integrity)
    ensures DatasetsValid(CommitAll(t, entries).datasets)
    ensures entries != [] ==> Current(CommitAll(t, entries), entries[|entries| - 1])
    ensures entries == [] ==> Active(CommitAll(t, entries).datasets) == Active(t.datasets)
  {
    hide Refines, RowsValid, Passes;
    CommitAllDatasets(t, entries);
    CommitAllRowFacts(t, entries, directories, integrity);
    var after := CommitAll(t, entries);
    hide CommitAll;
    if entries != [] {
      ActiveIsFlag(after.datasets);
      hide Active, DatasetsValid;
      forall d <- after.datasets ensures d.active <==> d.id == entries[|entries| - 1].id {
        var i :| 0 <= i < |after.datasets| && after.datasets[i] == d;
      }
    }
  }

  // ---------- which captures are current before any dataset is published ----------

  /**
   No other recovered capture of the same source and request has completed later, and none that is listed
   behind it at the same time.
   */
  ghost predicate Newest(recovered: seq<Snapshot>, i: nat) {
    && i < |recovered|
    && recovered[i].request.scope == Unscoped
    && forall j :: 0 <= j < |recovered| && recovered[j].key != recovered[i].key
                   && recovered[j].request.source == recovered[i].request.source
                   && recovered[j].fingerprint == recovered[i].fingerprint ==>
         || recovered[j].completed < recovered[i].completed
         || (recovered[j].completed == recovered[i].completed && j < i)
  }

  function Of(source: SourceId, f: Fingerprint): Snapshot -> bool {
    (s: Snapshot) => s.request.source == source && s.fingerprint == f
  }

  /** The row of each of these captures is a committed one, of its source and fingerprint. */
  ghost predicate Indexed(rows: Rows, snapshots: seq<Snapshot>) {
    forall s <- snapshots :: Activatable(rows, s.Source(), s.key) && rows[s.key].fingerprint == s.fingerprint
  }

  lemma ActivationKeepsIndexed(rows: Rows, members: map<SourceId, SnapshotKey>, snapshots: seq<Snapshot>)
    requires Indexed(rows, snapshots)
    ensures Indexed(Activated(rows, members), snapshots)
  {
    hide Displaced;
  }

  /** Activating captures of other sources and requests leaves a row as it is. */
  lemma {:induction false} OthersActivate(
    rows: Rows, snapshots: seq<Snapshot>, source: SourceId, f: Fingerprint, key: SnapshotKey)
    requires Indexed(rows, snapshots) && key in rows && rows[key].source == source && rows[key].fingerprint == f
    requires forall s <- snapshots :: !Of(source, f)(s)
    ensures key in ActivateUnscoped(rows, snapshots) && ActivateUnscoped(rows, snapshots)[key] == rows[key]
    decreases |snapshots|
  {
    if snapshots != [] {
      var s, members := snapshots[0], map[snapshots[0].Source() := snapshots[0].key];
      assert s in snapshots && forall x <- snapshots[1..] :: x in snapshots;
      ActivationLeavesOthers(rows, members);
      ActivationKeepsIndexed(rows, members, snapshots);
      hide Activated;
      OthersActivate(if s.request.scope == Unscoped then Activated(rows, members) else rows,
                     snapshots[1..], source, f, key);
    }
  }

  /** Of the captures of one source and request the last one activated is active. */
  lemma {:induction false} LastIsActive(rows: Rows, snapshots: seq<Snapshot>, source: SourceId, f: Fingerprint)
    requires Indexed(rows, snapshots)
    requires forall s <- snapshots :: Of(source, f)(s) ==> s.request.scope == Unscoped
    requires Filter(Of(source, f), snapshots) != []
    ensures var kept, after := Filter(Of(source, f), snapshots), ActivateUnscoped(rows, snapshots);
            kept[|kept| - 1].key in after && after[kept[|kept| - 1].key].active
    decreases |snapshots|
  {
    var s, rest := snapshots[0], snapshots[1..];
    var next := ActivatedFirst(rows, snapshots);
    FilterMembers(Of(source, f), rest);
    FilterCons(Of(source, f), snapshots);
    assert Of(source, f)(s) ==> s.request.source == source && s.fingerprint == f by {
      hide ActivateUnscoped, Filter, Indexed;
    }
    assert forall x <- rest :: x in snapshots;
    hide ActivateUnscoped, Indexed, Filter;
    if Filter(Of(source, f), rest) != [] {
      LastIsActive(next, rest, source, f);
    } else {
      forall x <- rest ensures !Of(source, f)(x) {
        assert x !in Filter(Of(source, f), rest);
      }
      OthersActivate(next, rest, source, f, s.key);
    }
  }

  lemma FilterCons(keep: Snapshot -> bool, xs: seq<Snapshot>)
    requires xs != []
    ensures Filter(keep, xs) == (if keep(xs[0]) then [xs[0]] else []) + Filter(keep, xs[1..])
  {
  }

  /** The rows once the first capture has been activated, if it is an unscoped one. */
  lemma ActivatedFirst(rows: Rows, snapshots: seq<Snapshot>) returns (next: Rows)
    requires Indexed(rows, snapshots) && snapshots != []
    ensures ActivateUnscoped(rows, snapshots) == ActivateUnscoped(next, snapshots[1..])
    ensures Indexed(next, snapshots[1..])
    ensures var s := snapshots[0];
            && s.key in next
            && next[s.key].source == s.request.source
            && next[s.key].fingerprint == s.fingerprint
            && (s.request.scope == Unscoped ==> next[s.key].active)
  {
    var s := snapshots[0];
    assert s in snapshots;
    next := if s.request.scope == Unscoped then Activated(rows, map[s.Source() := s.key]) else rows;
    OneIsActive(rows, s);
    ActivationKeepsIndexed(rows, map[s.Source() := s.key], snapshots);
    IndexedRest(next, snapshots);
    hide Activated;
  }

  lemma IndexedRest(rows: Rows, snapshots: seq<Snapshot>)
    requires Indexed(rows, snapshots) && snapshots != []
    ensures Indexed(rows, snapshots[1..])
  {
    assert forall x <- snapshots[1..] :: x in snapshots;
  }

  lemma OneIsActive(rows: Rows, s: Snapshot)
    requires Activatable(rows, s.Source(), s.key)
    ensures var after := Activated(rows, map[s.Source() := s.key]);
            s.key in after && after[s.key] == rows[s.key].(active := true)
  {
    assert map[s.Source() := s.key][s.Source()] == s.key;
  }

  lemma RecordedIsIndexed(rows: Rows, s: Snapshot)
    requires Describes(s, s.key) && forall k <- rows :: RowAuthentic(k, rows[k])
    ensures var after := Record(rows, s, Inside(s.key));
            && (forall k <- after :: RowAuthentic(k, after[k]))
            && Activatable(after, s.Source(), s.key)
            && after[s.key].fingerprint == s.fingerprint
  {
  }

  lemma {:induction false} RecordAllIsIndexed(rows: Rows, snapshots: seq<Snapshot>)
    requires (forall s <- snapshots :: Describes(s, s.key)) && forall k <- rows :: RowAuthentic(k, rows[k])
    requires forall k <- rows :: rows[k].state == Committed
    ensures var after := RecordAll(rows, snapshots);
            && rows.Keys <= after.Keys
            && (forall k <- after :: RowAuthentic(k, after[k]) && after[k].state == Committed)
            && (forall s <- snapshots :: s.key in after)
    decreases |snapshots|
  {
    if snapshots != [] {
      var s := snapshots[0];
      assert s in snapshots && snapshots == [s] + snapshots[1..];
      var next := Record(rows, s, Inside(s.key));
      RecordedIsIndexed(rows, s);
      hide Describes, RowAuthentic;
      assert forall k <- next :: next[k].state == Committed;
      RecordAllIsIndexed(next, snapshots[1..]);
    }
  }

  /** The recovered captures are indexed before any of them is activated. */
  lemma RecoveredAreIndexed(listing: seq<SnapshotKey>, directories: Directories, integrity: Integrity)
    requires AllAuthentic(directories)
    ensures var recovered := Recovered(listing, directories, integrity);
            && Indexed(RecordAll(map[], recovered), recovered)
            && forall s <- recovered :: Describes(s, s.key)
  {
    var recovered := Recovered(listing, directories, integrity);
    RecoveredMembers(listing, directories, integrity);
    forall s <- recovered ensures Describes(s, s.key) {
      AuthenticReads(At(directories, s.key), s.key, integrity);
    }
    RecordAllIsIndexed(map[], recovered);
    hide Recovered, RecordAll, Read;
  }

  lemma ByCompletionIsWeakOrder()
    ensures IsWeakOrder(ByCompletion())
  {
  }

  /** The last capture of a request, in the order of activation, is active, and the newest one. */
  lemma NewestOf(
    listing: seq<SnapshotKey>, directories: Directories, integrity: Integrity, i: nat) returns (w: nat)
    requires AllAuthentic(directories)
    requires i < |Recovered(listing, directories, integrity)|
    requires Recovered(listing, directories, integrity)[i].request.scope == Unscoped
    ensures var recovered := Recovered(listing, directories, integrity);
            var rows := Baseline(listing, directories, integrity);
            && Newest(recovered, w)
            && recovered[w].request.source == recovered[i].request.source
            && recovered[w].fingerprint == recovered[i].fingerprint
            && recovered[w].key in rows
            && rows[recovered[w].key].active
            && (Newest(recovered, i) ==> recovered[i].key == recovered[w].key)
  {
    var recovered := Recovered(listing, directories, integrity);
    var source, f := recovered[i].request.source, recovered[i].fingerprint;
    var sorted := Sort(ByCompletion(), recovered);
    ByCompletionIsWeakOrder();
    RecoveredAreIndexed(listing, directories, integrity);
    InsertAllSorts(ByCompletion(), [], recovered);
    FilterMembers(Of(source, f), recovered);
    assert recovered[i] in Filter(Of(source, f), recovered);
    FilterSort(ByCompletion(), Of(source, f), recovered);
    w := LastKept(ByCompletion(), Of(source, f), recovered);
    SameScope(recovered, sorted, source, f, i);
    IndexedEither(RecordAll(map[], recovered), recovered, sorted);
    hide Recovered, RecordAll, ActivateUnscoped, Sort, Indexed, Describes, Filter;
    LastIsActive(RecordAll(map[], recovered), sorted, source, f);
    LastIsNewest(recovered, source, f, w, i);
  }

  lemma IndexedEither(rows: Rows, snapshots: seq<Snapshot>, sorted: seq<Snapshot>)
    requires Indexed(rows, snapshots) && forall s <- sorted :: s in snapshots
    ensures Indexed(rows, sorted)
  {
  }

  /** The scope is part of the fingerprint. */
  lemma SameScope(recovered: seq<Snapshot>, sorted: seq<Snapshot>, source: SourceId, f: Fingerprint, i: nat)
    requires (forall s <- recovered :: Describes(s, s.key)) && (forall s <- sorted :: s in recovered)
    requires i < |recovered| && recovered[i].request.scope == Unscoped && recovered[i].fingerprint == f
    ensures forall s <- recovered :: Of(source, f)(s) ==> s.request.scope == Unscoped
    ensures forall s <- sorted :: Of(source, f)(s) ==> s.request.scope == Unscoped
  {
    assert recovered[i] in recovered;
  }

  lemma LastIsNewest(recovered: seq<Snapshot>, source: SourceId, f: Fingerprint, w: nat, i: nat)
    requires Last(ByCompletion(), Of(source, f), recovered, w)
    requires i < |recovered| && recovered[i].request.source == source && recovered[i].fingerprint == f
    requires forall s <- recovered :: Of(source, f)(s) ==> s.request.scope == Unscoped
    ensures Newest(recovered, w)
    ensures recovered[w].request.source == source && recovered[w].fingerprint == f
    ensures Newest(recovered, i) ==> recovered[i].key == recovered[w].key
  {
    assert recovered[w] in recovered;
    forall j | 0 <= j < |recovered| && j != w && recovered[j].request.source == source && recovered[j].fingerprint == f
      ensures || recovered[j].completed < recovered[w].completed
              || (recovered[j].completed == recovered[w].completed && j < w)
    {
      assert Of(source, f)(recovered[j]);
    }
  }

  /**
   The active captures before any dataset is published: of every source and request, the unscoped capture
   that completed last; of those that completed last together, the one listed last.
   */
  lemma BaselineActivatesNewest(
    listing: seq<SnapshotKey>, directories: Directories, integrity: Integrity, key: SnapshotKey)
    requires AllAuthentic(directories)
    ensures var recovered := Recovered(listing, directories, integrity);
            var rows := Baseline(listing, directories, integrity);
            key in rows && rows[key].active
            <==> exists i: nat :: Newest(recovered, i) && recovered[i].key == key
  {
    var recovered, rows := Recovered(listing, directories, integrity), Baseline(listing, directories, integrity);
    BaselineFacts(listing, directories, integrity);
    BaselineIsRecovered(listing, directories, integrity);
    if key in rows && rows[key].active {
      ReadsItsKey(directories, key, integrity);
      var s := Read(At(directories, key), integrity).value;
      var i :| 0 <= i < |recovered| && recovered[i] == s;
      var w := NewestOf(listing, directories, integrity, i);
      SameRowGroup(listing, directories, integrity, s, recovered[w]);
      hide Baseline, Recovered, Read, Refines;
      assert recovered[w].key == key;
    }
    if i: nat :| Newest(recovered, i) && recovered[i].key == key {
      var w := NewestOf(listing, directories, integrity, i);
    }
    hide Baseline, Recovered, Read, Refines, Newest;
  }

  lemma SameRowGroup(
    listing: seq<SnapshotKey>, directories: Directories, integrity: Integrity, a: Snapshot, b: Snapshot)
    requires AllAuthentic(directories)
    requires a.key in Baseline(listing, directories, integrity) && b.key in Baseline(listing, directories, integrity)
    requires Read(At(directories, a.key), integrity) == Some(a)
    requires b in Recovered(listing, directories, integrity)
    requires a.request.source == b.request.source && a.fingerprint == b.fingerprint
    ensures var rows := Baseline(listing, directories, integrity);
            && rows[a.key].source == rows[b.key].source
            && rows[a.key].fingerprint == rows[b.key].fingerprint
  {
    BaselineFacts(listing, directories, integrity);
    RecoveredMembers(listing, directories, integrity);
    hide Baseline, Recovered, Read, RowsValid;
  }
}
