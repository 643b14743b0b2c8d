/**
 Rebuilding the index from the sidecars.

 Recovery records every readable directory, activates unscoped captures in completion order, and
 then publishes every known dataset again, the active one last. The results: a second recovery of
 the same disk changes nothing, and a previously active dataset whose members all read back is
 active again, with all its members.
 */
module Recovery {
  import opened Outcomes
  import opened Identity
  import opened Snapshots
  import opened Index
  import opened Sorting
  import opened Store

  datatype Entry = Entry(id: DatasetId, payload: Payload)

  /** A file of the datasets directory; the claimed identifier must be the digest of the identity. */
  datatype Sidecar = Unreadable | Sidecar(claimed: DatasetId, payload: Payload)

  predicate Genuine(file: Sidecar) {
    file.Sidecar? && file.claimed == DatasetId(file.payload.snapshots, file.payload.scopes)
  }

  // ---------- snapshots ----------

  function Recovered(listing: seq<SnapshotKey>, directories: Directories, integrity: Integrity): seq<Snapshot> {
    if listing == [] then []
    else
      var found := Read(At(directories, listing[0]), integrity);
      (if found.Some? then [found.value] else []) + Recovered(listing[1..], directories, integrity)
  }

  function RecordAll(rows: Rows, snapshots: seq<Snapshot>): Rows
    decreases |snapshots|
  {
    if snapshots == [] then rows
    else RecordAll(Record(rows, snapshots[0], Inside(snapshots[0].key)), snapshots[1..])
  }

  function ByCompletion(): (Snapshot, Snapshot) -> bool {
    (a: Snapshot, b: Snapshot) => a.completed < b.completed
  }

  function ActivateUnscoped(rows: Rows, snapshots: seq<Snapshot>): Rows
    decreases |snapshots|
  {
    if snapshots == [] then rows
    else
      var s := snapshots[0];
      ActivateUnscoped(
        if s.request.scope == Unscoped && Activatable(rows, s.Source(), s.key)
        then Activated(rows, map[s.Source() := s.key]) else rows,
        snapshots[1..])
  }

  /** The rows before any dataset is published again: a function of the disk alone. */
  function Baseline(listing: seq<SnapshotKey>, directories: Directories, integrity: Integrity): Rows {
    var recovered := Recovered(listing, directories, integrity);
    ActivateUnscoped(RecordAll(map[], recovered), Sort(ByCompletion(), recovered))
  }

  // ---------- datasets ----------

  function Entries(datasets: seq<DatasetRow>): (r: seq<Entry>)
    ensures |r| == |datasets|
    ensures forall i :: 0 <= i < |r| ==> r[i] == Entry(datasets[i].id, datasets[i].payload)
  {
    seq(|datasets|, i requires 0 <= i < |datasets| => Entry(datasets[i].id, datasets[i].payload))
  }

  function Ids(entries: seq<Entry>): set<DatasetId> {
    set e <- entries :: e.id
  }

  /** The genuine sidecars of datasets that are not known yet, each dataset once. */
  function Fresh(files: seq<Sidecar>, known: set<DatasetId>): seq<Entry> {
    if files == [] then []
    else if Genuine(files[0]) && files[0].claimed !in known
    then [Entry(files[0].claimed, files[0].payload)] + Fresh(files[1..], known + {files[0].claimed})
    else Fresh(files[1..], known)
  }

  function Candidates(datasets: seq<DatasetRow>, files: seq<Sidecar>): seq<Entry> {
    Entries(datasets) + Fresh(files, Ids(Entries(datasets)))
  }

  function Active(datasets: seq<DatasetRow>): Option<DatasetId> {
    if datasets == [] then None
    else if datasets[0].active then Some(datasets[0].id)
    else Active(datasets[1..])
  }

  /** `max(completed_at of the sources, default="")`. */
  function Latest(captured: seq<Timestamp>): Option<Timestamp> {
    if captured == [] then None
    else
      var rest := Latest(captured[1..]);
      if rest.Some? && rest.value > captured[0] then rest else Some(captured[0])
  }

  predicate Earlier(a: Option<Timestamp>, b: Option<Timestamp>) {
    b.Some? && (a.Some? ==> a.value < b.value)
  }

  predicate Before(active: Option<DatasetId>, a: Entry, b: Entry) {
    var x, y := active == Some(a.id), active == Some(b.id);
    if x == y then Earlier(Latest(a.payload.captured), Latest(b.payload.captured)) else y
  }

  /** The sort key (is active, latest capture). */
  function Priority(active: Option<DatasetId>): (Entry, Entry) -> bool {
    (a: Entry, b: Entry) => Before(active, a, b)
  }

  /** Publishes the entries in turn, passing over those that cannot be activated. */
  function CommitAll(t: Tables, entries: seq<Entry>): Tables
    decreases |entries|
  {
    if entries == [] then t
    else
      var committed := CommitDataset(t, entries[0].id, entries[0].payload);
      CommitAll(if committed.Success? then committed.value else t, entries[1..])
  }

  /** `rebuild_index`, for a disk that lists `listing` and holds the sidecar files `files`. */
  function Rebuild(
    t: Tables, listing: seq<SnapshotKey>, directories: Directories, integrity: Integrity, files: seq<Sidecar>)
    : Tables
  {
    CommitAll(Tables(Baseline(listing, directories, integrity), t.datasets, t.references),
              Sort(Priority(Active(t.datasets)), Candidates(t.datasets, files)))
  }

  // ---------- the sort key is a weak order ----------

  lemma PriorityIsWeakOrder(active: Option<DatasetId>)
    ensures IsWeakOrder(Priority(active))
  {
  }

  // ---------- only activatable entries matter ----------

  function Passes(rows: Rows): Entry -> bool {
    (e: Entry) => AllActivatable(rows, e.payload.snapshots)
  }

  lemma ActivationKeepsPasses(rows: Rows, members: map<SourceId, SnapshotKey>, e: Entry)
    ensures Passes(Activated(rows, members))(e) == Passes(rows)(e)
  {
  }

  lemma {:induction false} SameFilter(rows: Rows, other: Rows, entries: seq<Entry>)
    requires forall e <- entries :: Passes(rows)(e) == Passes(other)(e)
    ensures Filter(Passes(rows), entries) == Filter(Passes(other), entries)
  {
    if entries != [] {
      SameFilter(rows, other, entries[1..]);
    }
  }

  lemma {:induction false} CommitAllPassing(t: Tables, entries: seq<Entry>)
    ensures CommitAll(t, entries) == CommitAll(t, Filter(Passes(t.rows), entries))
    decreases |entries|
  {
    if entries != [] {
      var e := entries[0];
      if Passes(t.rows)(e) {
        var next := CommitDataset(t, e.id, e.payload).value;
        CommitAllPassing(next, entries[1..]);
        forall f <- entries[1..] ensures Passes(next.rows)(f) == Passes(t.rows)(f) {
          ActivationKeepsPasses(t.rows, e.payload.snapshots, f);
        }
        SameFilter(t.rows, next.rows, entries[1..]);
        assert Filter(Passes(t.rows), entries)[1..] == Filter(Passes(t.rows), entries[1..]);
      } else {
        CommitAllPassing(t, entries[1..]);
      }
    }
  }

  // ---------- what publishing a sequence of activatable entries does ----------

  function Unlisted(known: set<DatasetId>): Entry -> bool {
    (e: Entry) => e.id !in known
  }

  ghost predicate DistinctIds(entries: seq<Entry>) {
    forall i, j :: 0 <= i < j < |entries| ==> entries[i].id != entries[j].id
  }

  lemma {:induction false} ActiveIsFlag(datasets: seq<DatasetRow>)
    requires DatasetsValid(datasets)
    ensures forall i :: 0 <= i < |datasets| ==> (datasets[i].active <==> Active(datasets) == Some(datasets[i].id))
    ensures Active(datasets).Some? ==> Knows(datasets, Active(datasets).value)
  {
    if datasets != [] {
      assert forall i :: 0 <= i < |datasets[1..]| ==> datasets[1..][i] == datasets[i + 1];
      ActiveIsFlag(datasets[1..]);
      if !datasets[0].active && Active(datasets).Some? {
        var d :| d in datasets[1..] && d.id == Active(datasets).value;
        assert d in datasets;
      }
    }
  }

  /** Identifiers, payloads and the active identifier determine the dataset table. */
  lemma SameDatasets(a: seq<DatasetRow>, b: seq<DatasetRow>)
    requires DatasetsValid(a) && DatasetsValid(b)
    requires Entries(a) == Entries(b) && Active(a) == Active(b)
    ensures a == b
  {
    ActiveIsFlag(a);
    ActiveIsFlag(b);
    forall i | 0 <= i < |a| ensures a[i] == b[i] {
      assert Entries(a)[i] == Entries(b)[i];
    }
  }

  lemma PublishedOne(datasets: seq<DatasetRow>, id: DatasetId, payload: Payload)
    requires DatasetsValid(datasets)
    ensures var after := Published(datasets, id, payload);
            && DatasetsValid(after)
            && Active(after) == Some(id)
            && Entries(after) == Entries(datasets) + (if id in Ids(Entries(datasets)) then [] else [Entry(id, payload)])
  {
    var after := Published(datasets, id, payload);
    PublishedValid(datasets, id, payload);
    KnowsIsListed(datasets, id);
    ActiveIsFlag(after);
    if Knows(datasets, id) {
      var i :| 0 <= i < |datasets| && datasets[i].id == id;
      assert after[i].active && after[i].id == id;
    } else {
      assert after[|datasets|].active && after[|datasets|].id == id;
    }
  }

  lemma KnowsIsListed(datasets: seq<DatasetRow>, id: DatasetId)
    ensures Knows(datasets, id) <==> id in Ids(Entries(datasets))
  {
    var entries := Entries(datasets);
    if Knows(datasets, id) {
      var i :| 0 <= i < |datasets| && datasets[i].id == id;
      assert entries[i] in entries;
    }
    if id in Ids(entries) {
      var e :| e in entries && e.id == id;
      var i :| 0 <= i < |entries| && entries[i] == e;
      assert datasets[i] in datasets;
    }
  }

  lemma {:induction false} SameUnlisted(known: set<DatasetId>, other: set<DatasetId>, entries: seq<Entry>)
    requires forall e <- entries :: e.id in known <==> e.id in other
    ensures Filter(Unlisted(known), entries) == Filter(Unlisted(other), entries)
  {
    if entries != [] {
      SameUnlisted(known, other, entries[1..]);
    }
  }

  lemma PublishingOneKeepsOthers(entries: seq<Entry>, known: seq<Entry>, more: seq<Entry>)
    requires DistinctIds(entries) && entries != []
    requires more == known + (if entries[0].id in Ids(known) then [] else [entries[0]])
    ensures forall f <- entries[1..] :: f.id in Ids(known) <==> f.id in Ids(more)
  {
    var rest := entries[1..];
    forall f <- rest ensures f.id in Ids(known) <==> f.id in Ids(more) {
      var i :| 0 <= i < |rest| && rest[i] == f;
      assert entries[i + 1].id != entries[0].id;
      if f.id in Ids(known) {
        var g :| g in known && g.id == f.id;
        assert g in more;
      } else {
        assert forall g <- more :: g in known || g == entries[0];
      }
    }
  }

  /** Among the entries after `e`, having published `e` makes no difference to which are unknown. */
  lemma UnlistedAfter(entries: seq<Entry>, known: seq<Entry>, more: seq<Entry>)
    requires DistinctIds(entries) && entries != []
    requires more == known + (if entries[0].id in Ids(known) then [] else [entries[0]])
    ensures known + Filter(Unlisted(Ids(known)), entries) == more + Filter(Unlisted(Ids(more)), entries[1..])
  {
    PublishingOneKeepsOthers(entries, known, more);
    hide Ids, DistinctIds;
    SameUnlisted(Ids(known), Ids(more), entries[1..]);
    FilterFirst(Ids(known), entries);
    hide *;
    Regroup(known, if entries[0].id in Ids(known) then [] else [entries[0]], Filter(Unlisted(Ids(more)), entries[1..]));
  }

  lemma Regroup(a: seq<Entry>, b: seq<Entry>, c: seq<Entry>)
    ensures a + (b + c) == (a + b) + c
  {
  }

  lemma FilterFirst(known: set<DatasetId>, entries: seq<Entry>)
    requires entries != []
    ensures Filter(Unlisted(known), entries)
         == (if entries[0].id in known then [] else [entries[0]]) + Filter(Unlisted(known), entries[1..])
  {
  }

  /** Publishing appends the unknown entries in order, and leaves the last one active. */
  lemma {:induction false} CommitAllDatasets(t: Tables, entries: seq<Entry>)
    requires DatasetsValid(t.datasets) && DistinctIds(entries)
    requires forall e <- entries :: Passes(t.rows)(e)
    ensures var after := CommitAll(t, entries);
            && DatasetsValid(after.datasets)
            && Entries(after.datasets) == Entries(t.datasets) + Filter(Unlisted(Ids(Entries(t.datasets))), entries)
            && Active(after.datasets) == (if entries == [] then Active(t.datasets) else Some(entries[|entries| - 1].id))
    decreases |entries|
  {
    if entries == [] {
      assert Entries(t.datasets) + [] == Entries(t.datasets);
    } else {
      hide Published, Activated, Referenced, DatasetsValid, Active, Entries, Unlisted, Filter;
      var e, rest := entries[0], entries[1..];
      assert e in entries;
      var next := CommitDataset(t, e.id, e.payload).value;
      PublishedOne(t.datasets, e.id, e.payload);
      forall f <- rest ensures Passes(next.rows)(f) {
        ActivationKeepsPasses(t.rows, e.payload.snapshots, f);
      }
      CommitAllDatasets(next, rest);
      UnlistedAfter(entries, Entries(t.datasets), Entries(next.datasets));
    }
  }

  // ---------- publishing the same entries again ----------

  lemma {:induction false} CommitAllRows(t: Tables, other: Tables, entries: seq<Entry>)
    requires t.rows == other.rows
    ensures CommitAll(t, entries).rows == CommitAll(other, entries).rows
    decreases |entries|
  {
    if entries != [] {
      var committed := CommitDataset(t, entries[0].id, entries[0].payload);
      var otherwise := CommitDataset(other, entries[0].id, entries[0].payload);
      CommitAllRows(if committed.Success? then committed.value else t,
                    if otherwise.Success? then otherwise.value else other, entries[1..]);
    }
  }

  ghost predicate ReferencesCover(references: map<(DatasetId, SourceId), SnapshotKey>, entries: seq<Entry>) {
    forall i, s :: 0 <= i < |entries| && s in entries[i].payload.snapshots ==> (entries[i].id, s) in references
  }

  lemma {:induction false} CommitAllReferences(t: Tables, entries: seq<Entry>)
    requires forall e <- entries :: Passes(t.rows)(e)
    ensures forall r <- t.references :: r in CommitAll(t, entries).references
    ensures ReferencesCover(CommitAll(t, entries).references, entries)
    ensures ReferencesCover(t.references, entries) ==> CommitAll(t, entries).references == t.references
    decreases |entries|
  {
    if entries != [] {
      var e := entries[0];
      assert e in entries;
      var next := CommitDataset(t, e.id, e.payload).value;
      forall f <- entries[1..] ensures Passes(next.rows)(f) {
        ActivationKeepsPasses(t.rows, e.payload.snapshots, f);
      }
      CommitAllReferences(next, entries[1..]);
      var after := CommitAll(t, entries).references;
      forall i, s | 0 <= i < |entries| && s in entries[i].payload.snapshots ensures (entries[i].id, s) in after {
        if i > 0 {
          assert entries[1..][i - 1] == entries[i];
        } else {
          assert (e.id, s) in next.references;
        }
      }
      if ReferencesCover(t.references, entries) {
        assert next.references == t.references;
        assert forall i :: 0 <= i < |entries[1..]| ==> entries[1..][i] == entries[i + 1];
      }
    }
  }

  /** Publishing the same entries on top of their own result changes nothing. */
  lemma Republished(t: Tables, entries: seq<Entry>)
    requires DatasetsValid(t.datasets) && DistinctIds(entries)
    requires forall e <- entries :: Passes(t.rows)(e)
    ensures var after := CommitAll(t, entries);
            CommitAll(Tables(t.rows, after.datasets, after.references), entries) == after
  {
    var after := CommitAll(t, entries);
    var start := Tables(t.rows, after.datasets, after.references);
    var again := CommitAll(start, entries);
    CommitAllDatasets(t, entries);
    CommitAllDatasets(start, entries);
    CommitAllReferences(t, entries);
    CommitAllReferences(start, entries);
    CommitAllRows(t, start, entries);
    var known := Ids(Entries(after.datasets));
    forall e <- entries ensures e.id in known {
      FilterMembers(Unlisted(Ids(Entries(t.datasets))), entries);
      if e.id in Ids(Entries(t.datasets)) {
        var f :| f in Entries(t.datasets) && f.id == e.id;
        assert f in Entries(after.datasets);
      } else {
        assert e in Entries(after.datasets);
      }
    }
    FilterAll(Unlisted(known), entries);
    SameDatasets(again.datasets, after.datasets);
  }

  // ---------- the order of the second recovery ----------

  lemma {:induction false} FreshMembers(files: seq<Sidecar>, known: set<DatasetId>)
    ensures DistinctIds(Fresh(files, known))
    ensures forall e <- Fresh(files, known) :: e.id !in known
  {
    if files != [] {
      if Genuine(files[0]) && files[0].claimed !in known {
        FreshMembers(files[1..], known + {files[0].claimed});
        var rest := Fresh(files[1..], known + {files[0].claimed});
        forall i | 0 <= i < |rest| ensures rest[i].id != files[0].claimed && rest[i].id !in known {
          assert rest[i] in rest;
        }
      } else {
        FreshMembers(files[1..], known);
      }
    }
  }

  /** Sidecars that became known drop out; the others stay in order. */
  lemma {:induction false} FreshAfter(files: seq<Sidecar>, known: set<DatasetId>, more: set<DatasetId>)
    ensures Fresh(files, known + more) == Filter(Unlisted(more), Fresh(files, known))
  {
    if files != [] {
      var id := if files[0].Sidecar? then {files[0].claimed} else {};
      if Genuine(files[0]) && files[0].claimed !in known {
        FreshAfter(files[1..], known + id, more);
        assert known + id + more == known + more + id;
        if files[0].claimed in more {
          assert known + more + id == known + more;
        }
      } else {
        FreshAfter(files[1..], known, more);
      }
    }
  }

  lemma {:induction false} InsertDistinct(active: Option<DatasetId>, s: seq<Entry>, x: Entry)
    requires DistinctIds(s) && forall e <- s :: e.id != x.id
    ensures DistinctIds(Insert(Priority(active), s, x))
  {
    if s != [] && !Priority(active)(x, s[0]) {
      InsertDistinct(active, s[1..], x);
      InsertPermutes(Priority(active), s[1..], x);
      var rest := Insert(Priority(active), s[1..], x);
      forall j | 0 <= j < |rest| ensures rest[j].id != s[0].id {
        assert rest[j] in rest;
      }
    }
  }

  lemma {:induction false} InsertAllDistinct(active: Option<DatasetId>, s: seq<Entry>, xs: seq<Entry>)
    requires DistinctIds(s) && DistinctIds(xs) && forall e <- s, x <- xs :: e.id != x.id
    ensures DistinctIds(InsertAll(Priority(active), s, xs))
    decreases |xs|
  {
    if xs != [] {
      InsertDistinct(active, s, xs[0]);
      InsertPermutes(Priority(active), s, xs[0]);
      forall e <- Insert(Priority(active), s, xs[0]), x <- xs[1..] ensures e.id != x.id {
        var j :| 0 <= j < |xs[1..]| && xs[1..][j] == x;
        assert xs[j + 1] == x;
      }
      InsertAllDistinct(active, Insert(Priority(active), s, xs[0]), xs[1..]);
    }
  }

  lemma {:induction false} FilterDistinct(keep: Entry -> bool, xs: seq<Entry>)
    requires DistinctIds(xs)
    ensures DistinctIds(Filter(keep, xs))
  {
    if xs != [] {
      FilterDistinct(keep, xs[1..]);
      FilterMembers(keep, xs[1..]);
      forall e <- Filter(keep, xs[1..]) ensures e.id != xs[0].id {
        var j :| 0 <= j < |xs[1..]| && xs[1..][j] == e;
        assert xs[j + 1] == e;
      }
    }
  }

  lemma CandidatesDistinct(datasets: seq<DatasetRow>, files: seq<Sidecar>)
    requires DatasetsValid(datasets)
    ensures DistinctIds(Candidates(datasets, files))
  {
    var known, unlisted := Entries(datasets), Fresh(files, Ids(Entries(datasets)));
    FreshMembers(files, Ids(known));
    forall i, j | 0 <= i < |known| && 0 <= j < |unlisted| ensures known[i].id != unlisted[j].id {
      assert unlisted[j] in unlisted && known[i] in known;
    }
  }

  /** The active entry, when it is among those sorted, comes last. */
  lemma ActiveComesLast(active: Option<DatasetId>, xs: seq<Entry>) returns (p: nat)
    requires DistinctIds(xs) && xs != []
    ensures p < |xs|
    ensures EndsLast(Priority(active), [], xs, p, xs[p])
    ensures |Sort(Priority(active), xs)| == |xs| && Sort(Priority(active), xs)[|xs| - 1] == xs[p]
    ensures forall k :: 0 <= k < |xs| && active == Some(xs[k].id) ==> k == p
  {
    PriorityIsWeakOrder(active);
    p := LastOfInsertAll(Priority(active), [], xs);
  }

  /** Making the entry that came last the active one does not change the order. */
  lemma Reprioritized(active: Option<DatasetId>, xs: seq<Entry>)
    requires DistinctIds(xs) && xs != []
    ensures var sorted := Sort(Priority(active), xs);
            && sorted != []
            && Sort(Priority(Some(sorted[|sorted| - 1].id)), xs) == sorted
  {
    var p := ActiveComesLast(active, xs);
    var again := Some(xs[p].id);
    forall i, j | 0 <= i < j < |xs|
      ensures Priority(active)(xs[j], xs[i]) == Priority(again)(xs[j], xs[i])
    {
    }
    SameSort(Priority(active), Priority(again), [], xs);
  }

  /** Sorting a list whose tail was already sorted. */
  lemma SortSortedTail(active: Option<DatasetId>, xs: seq<Entry>, ys: seq<Entry>)
    ensures Sort(Priority(active), xs + Sort(Priority(active), ys)) == Sort(Priority(active), xs + ys)
  {
    var less := Priority(active);
    PriorityIsWeakOrder(active);
    InsertAllConcat(less, [], xs, Sort(less, ys));
    InsertAllConcat(less, [], xs, ys);
    InsertAllSorted(less, InsertAll(less, [], xs), [], ys);
  }

  /** The entries a recovery publishes, in order. */
  function Publishable(t: Tables, rows: Rows, files: seq<Sidecar>): seq<Entry> {
    Sort(Priority(Active(t.datasets)), Filter(Passes(rows), Candidates(t.datasets, files)))
  }

  lemma PublishableFacts(t: Tables, rows: Rows, files: seq<Sidecar>)
    requires DatasetsValid(t.datasets)
    ensures var entries := Publishable(t, rows, files);
            && DistinctIds(entries)
            && (forall e :: e in entries <==> e in Candidates(t.datasets, files) && Passes(rows)(e))
            && Filter(Passes(rows), Sort(Priority(Active(t.datasets)), Candidates(t.datasets, files))) == entries
  {
    var less, candidates := Priority(Active(t.datasets)), Candidates(t.datasets, files);
    PriorityIsWeakOrder(Active(t.datasets));
    CandidatesDistinct(t.datasets, files);
    FilterDistinct(Passes(rows), candidates);
    FilterMembers(Passes(rows), candidates);
    FilterSort(less, Passes(rows), candidates);
    InsertAllSorts(less, [], Filter(Passes(rows), candidates));
    InsertAllDistinct(Active(t.datasets), [], Filter(Passes(rows), candidates));
  }

  /** `rebuild_index` publishes exactly its publishable entries. */
  lemma RebuildPublishes(
    t: Tables, listing: seq<SnapshotKey>, directories: Directories, integrity: Integrity, files: seq<Sidecar>)
    requires DatasetsValid(t.datasets)
    ensures var rows := Baseline(listing, directories, integrity);
            Rebuild(t, listing, directories, integrity, files)
            == CommitAll(Tables(rows, t.datasets, t.references), Publishable(t, rows, files))
  {
    var rows := Baseline(listing, directories, integrity);
    PublishableFacts(t, rows, files);
    CommitAllPassing(Tables(rows, t.datasets, t.references),
                     Sort(Priority(Active(t.datasets)), Candidates(t.datasets, files)));
  }

  /** What the first recovery adds to the dataset table: the passing sidecars, in priority order. */
  lemma AddedAreSorted(t: Tables, rows: Rows, files: seq<Sidecar>)
    requires DatasetsValid(t.datasets)
    ensures var known := Entries(t.datasets);
            Filter(Unlisted(Ids(known)), Publishable(t, rows, files))
            == Sort(Priority(Active(t.datasets)), Filter(Passes(rows), Fresh(files, Ids(known))))
  {
    var known := Entries(t.datasets);
    var unknown := Fresh(files, Ids(known));
    PriorityIsWeakOrder(Active(t.datasets));
    FreshMembers(files, Ids(known));
    FilterConcat(Passes(rows), known, unknown);
    FilterSort(Priority(Active(t.datasets)), Unlisted(Ids(known)), Filter(Passes(rows), known + unknown));
    FilterConcat(Unlisted(Ids(known)), Filter(Passes(rows), known), Filter(Passes(rows), unknown));
    FilterMembers(Passes(rows), known);
    FilterMembers(Passes(rows), unknown);
    FilterAll(Unlisted(Ids(known)), Filter(Passes(rows), known));
    FilterAll(Unlisted(Ids(known)), Filter(Passes(rows), unknown));
    assert Filter(Unlisted(Ids(known)), Filter(Passes(rows), known)) == [];
    assert Filter(Unlisted(Ids(known)), Filter(Passes(rows), unknown)) == Filter(Passes(rows), unknown);
    assert [] + Filter(Passes(rows), unknown) == Filter(Passes(rows), unknown);
  }

  /** The second recovery finds those in the table, and no further sidecar that passes. */
  lemma SecondCandidates(t: Tables, rows: Rows, files: seq<Sidecar>, added: seq<Entry>, datasets: seq<DatasetRow>)
    requires DatasetsValid(t.datasets)
    requires added == Filter(Unlisted(Ids(Entries(t.datasets))), Publishable(t, rows, files))
    requires Entries(datasets) == Entries(t.datasets) + added
    ensures Filter(Passes(rows), Candidates(datasets, files)) == Filter(Passes(rows), Entries(t.datasets)) + added
  {
    var known := Entries(t.datasets);
    var unknown := Fresh(files, Ids(known));
    PublishableFacts(t, rows, files);
    FreshMembers(files, Ids(known));
    FilterMembers(Unlisted(Ids(known)), Publishable(t, rows, files));
    assert Ids(known + added) == Ids(known) + Ids(added);
    FreshAfter(files, Ids(known), Ids(added));
    var left := Filter(Unlisted(Ids(added)), unknown);
    FilterMembers(Unlisted(Ids(added)), unknown);
    forall e <- left ensures !Passes(rows)(e) {
      assert e in unknown && e.id !in Ids(added);
      assert e in Candidates(t.datasets, files);
    }
    FilterAll(Passes(rows), left);
    FilterAll(Passes(rows), added);
    FilterConcat(Passes(rows), known, added);
    FilterConcat(Passes(rows), known + added, left);
  }

  /** The second recovery sorts the same entries into the same order. */
  lemma SamePublishable(t: Tables, rows: Rows, files: seq<Sidecar>)
    requires DatasetsValid(t.datasets)
    ensures var entries := Publishable(t, rows, files);
            Publishable(CommitAll(Tables(rows, t.datasets, t.references), entries), rows, files) == entries
  {
    var active, known := Active(t.datasets), Entries(t.datasets);
    var entries := Publishable(t, rows, files);
    var after := CommitAll(Tables(rows, t.datasets, t.references), entries);
    PublishableFacts(t, rows, files);
    CommitAllDatasets(Tables(rows, t.datasets, t.references), entries);
    var added := Filter(Unlisted(Ids(known)), entries);
    SecondCandidates(t, rows, files, added, after.datasets);
    var candidates := Filter(Passes(rows), known) + added;
    AddedAreSorted(t, rows, files);
    SortSortedTail(active, Filter(Passes(rows), known), Filter(Passes(rows), Fresh(files, Ids(known))));
    FilterConcat(Passes(rows), known, Fresh(files, Ids(known)));
    assert Sort(Priority(active), candidates) == entries;
    if entries != [] {
      CandidatesDistinct(after.datasets, files);
      FilterDistinct(Passes(rows), Candidates(after.datasets, files));
      Reprioritized(active, candidates);
    }
  }

  /** Recovery is a fixed point: on the same disk, recovering twice is recovering once. */
  lemma RebuildIsFixedPoint(
    t: Tables, listing: seq<SnapshotKey>, directories: Directories, integrity: Integrity, files: seq<Sidecar>)
    requires DatasetsValid(t.datasets)
    ensures var once := Rebuild(t, listing, directories, integrity, files);
            Rebuild(once, listing, directories, integrity, files) == once
  {
    var rows := Baseline(listing, directories, integrity);
    var start := Tables(rows, t.datasets, t.references);
    var entries := Publishable(t, rows, files);
    var once := CommitAll(start, entries);
    RebuildPublishes(t, listing, directories, integrity, files);
    PublishableFacts(t, rows, files);
    CommitAllDatasets(start, entries);
    SamePublishable(t, rows, files);
    RebuildPublishes(once, listing, directories, integrity, files);
    Republished(start, entries);
  }

  // ---------- the recovered rows ----------

  /** Every row is committed and holds what its directory reads back. */
  ghost predicate Refines(rows: Rows, directories: Directories, integrity: Integrity) {
    forall k <- rows ::
      && rows[k].state == Committed
      && Read(At(directories, k), integrity).Some?
      && Agrees(rows[k], Read(At(directories, k), integrity).value)
  }

  lemma {:induction false} RecoveredMembers(listing: seq<SnapshotKey>, directories: Directories, integrity: Integrity)
    requires AllAuthentic(directories)
    ensures forall s <- Recovered(listing, directories, integrity) ::
              s.key in listing && Read(At(directories, s.key), integrity) == Some(s)
    ensures forall k <- listing :: Read(At(directories, k), integrity).Some? ==>
              Read(At(directories, k), integrity).value in Recovered(listing, directories, integrity)
  {
    if listing != [] {
      RecoveredMembers(listing[1..], directories, integrity);
      AuthenticReads(At(directories, listing[0]), listing[0], integrity);
      assert listing == [listing[0]] + listing[1..];
    }
  }

  /** No row outside `allowed` becomes active. */
  ghost predicate OnlyActivates(before: Rows, after: Rows, allowed: set<SnapshotKey>) {
    forall k <- after :: after[k].active ==> k in allowed || (k in before && before[k].active)
  }

  lemma RecordSound(rows: Rows, s: Snapshot, directories: Directories, integrity: Integrity)
    requires AllAuthentic(directories) && RowsValid(rows) && Refines(rows, directories, integrity)
    requires Read(At(directories, s.key), integrity) == Some(s)
    ensures RowsValid(Record(rows, s, Inside(s.key)))
    ensures Refines(Record(rows, s, Inside(s.key)), directories, integrity)
    ensures OnlyActivates(rows, Record(rows, s, Inside(s.key)), {})
  {
    hide RowsValid, Refines, Read;
    RowTransactionsValid(rows, s, Inside(s.key), s.key);
    AuthenticReads(At(directories, s.key), s.key, integrity);
    RecordRefines(rows, s, directories, integrity);
  }

  lemma RecordRefines(rows: Rows, s: Snapshot, directories: Directories, integrity: Integrity)
    requires Refines(rows, directories, integrity)
    requires Read(At(directories, s.key), integrity) == Some(s) && Describes(s, s.key)
    ensures Refines(Record(rows, s, Inside(s.key)), directories, integrity)
  {
    assert Agrees(Record(rows, s, Inside(s.key))[s.key], s) by {
      if s.key in rows {
        assert Agrees(rows[s.key], s.(expires := rows[s.key].expires, rows := rows[s.key].rows,
                                      bytes := rows[s.key].bytes,
                                      pinned := rows[s.key].pinned));
      }
    }
    hide Read, Agrees, Describes, At;
  }

  lemma ActivatedSound(rows: Rows, members: map<SourceId, SnapshotKey>, directories: Directories, integrity: Integrity)
    requires RowsValid(rows) && Refines(rows, directories, integrity) && AllActivatable(rows, members)
    ensures RowsValid(Activated(rows, members))
    ensures Refines(Activated(rows, members), directories, integrity)
    ensures OnlyActivates(rows, Activated(rows, members), members.Values)
    ensures forall k <- members.Values :: k in rows && Activated(rows, members)[k].active
  {
    ActivatedMembers(rows, members);
    ActivatedRefines(rows, members, directories, integrity);
    hide RowsValid, Refines;
    forall k <- members.Values ensures k in rows && Activated(rows, members)[k].active {
      var s :| s in members && members[s] == k;
    }
  }

  lemma ActivatedRefines(
    rows: Rows, members: map<SourceId, SnapshotKey>, directories: Directories, integrity: Integrity)
    requires Refines(rows, directories, integrity)
    ensures Refines(Activated(rows, members), directories, integrity)
  {
    hide Read, At, Displaced;
    var after := Activated(rows, members);
    forall k <- after ensures after[k] == rows[k].(active := after[k].active) {
    }
  }

  lemma {:induction false} RecordAllRefines(
    rows: Rows, snapshots: seq<Snapshot>, directories: Directories, integrity: Integrity)
    requires AllAuthentic(directories) && RowsValid(rows) && Refines(rows, directories, integrity)
    requires forall s <- snapshots :: Read(At(directories, s.key), integrity) == Some(s)
    ensures RowsValid(RecordAll(rows, snapshots))
    ensures Refines(RecordAll(rows, snapshots), directories, integrity)
    ensures OnlyActivates(rows, RecordAll(rows, snapshots), {})
    ensures rows.Keys <= RecordAll(rows, snapshots).Keys
    ensures forall s <- snapshots :: s.key in RecordAll(rows, snapshots)
    decreases |snapshots|
  {
    hide RowsValid, Refines, AllAuthentic, Read;
    if snapshots != [] {
      var s := snapshots[0];
      RecordSound(rows, s, directories, integrity);
      RecordAllRefines(Record(rows, s, Inside(s.key)), snapshots[1..], directories, integrity);
      assert snapshots == [s] + snapshots[1..];
    }
  }

  function UnscopedKeys(snapshots: seq<Snapshot>): set<SnapshotKey> {
    set s <- snapshots | s.request.scope == Unscoped :: s.key
  }

  lemma {:induction false} ActivateUnscopedKeeps(
    rows: Rows, snapshots: seq<Snapshot>, directories: Directories, integrity: Integrity)
    requires RowsValid(rows) && Refines(rows, directories, integrity)
    ensures RowsValid(ActivateUnscoped(rows, snapshots))
    ensures Refines(ActivateUnscoped(rows, snapshots), directories, integrity)
    ensures ActivateUnscoped(rows, snapshots).Keys == rows.Keys
    ensures OnlyActivates(rows, ActivateUnscoped(rows, snapshots), UnscopedKeys(snapshots))
    decreases |snapshots|
  {
    hide RowsValid, Refines;
    if snapshots != [] {
      var s := snapshots[0];
      var members := map[s.Source() := s.key];
      assert snapshots == [s] + snapshots[1..];
      if s.request.scope == Unscoped && Activatable(rows, s.Source(), s.key) {
        ActivatedSound(rows, members, directories, integrity);
        ActivateUnscopedKeeps(Activated(rows, members), snapshots[1..], directories, integrity);
        assert UnscopedKeys(snapshots) == UnscopedKeys(snapshots[1..]) + {s.key};
      } else {
        ActivateUnscopedKeeps(rows, snapshots[1..], directories, integrity);
        assert UnscopedKeys(snapshots[1..]) <= UnscopedKeys(snapshots);
      }
    }
  }

  /**
   Before any dataset is published: exactly the readable directories are indexed, and only unscoped
   captures are active.
   */
  lemma BaselineFacts(listing: seq<SnapshotKey>, directories: Directories, integrity: Integrity)
    requires AllAuthentic(directories)
    ensures var rows := Baseline(listing, directories, integrity);
            && RowsValid(rows)
            && Refines(rows, directories, integrity)
            && (forall k <- listing :: Read(At(directories, k), integrity).Some? ==> k in rows)
            && (forall k <- rows :: rows[k].active ==> k.fingerprint.request.scope == Unscoped)
  {
    NothingIsRefined(directories, integrity);
    hide RowsValid, Refines, Read, RecordAll, ActivateUnscoped, Recovered, Describes;
    var recovered := Recovered(listing, directories, integrity);
    var sorted := Sort(ByCompletion(), recovered);
    RecoveredMembers(listing, directories, integrity);
    RecordAllRefines(map[], recovered, directories, integrity);
    ActivateUnscopedKeeps(RecordAll(map[], recovered), sorted, directories, integrity);
    InsertAllSorts(ByCompletion(), [], recovered);
    var rows := Baseline(listing, directories, integrity);
    forall k <- listing | Read(At(directories, k), integrity).Some? ensures k in rows {
      ReadsItsKey(directories, k, integrity);
      assert Read(At(directories, k), integrity).value in recovered;
    }
    forall k <- rows | rows[k].active ensures k.fingerprint.request.scope == Unscoped {
      assert k in UnscopedKeys(sorted);
      var s :| s in sorted && s.key == k && s.request.scope == Unscoped;
      ReadsItsKey(directories, k, integrity);
    }
  }

  lemma NothingIsRefined(directories: Directories, integrity: Integrity)
    ensures RowsValid(map[]) && Refines(map[], directories, integrity)
  {
  }

  lemma ReadsItsKey(directories: Directories, k: SnapshotKey, integrity: Integrity)
    requires AllAuthentic(directories) && Read(At(directories, k), integrity).Some?
    ensures var s := Read(At(directories, k), integrity).value;
            s.key == k && s.request.scope == k.fingerprint.request.scope
  {
    AuthenticReads(At(directories, k), k, integrity);
  }

  // ---------- what recovery activates ----------

  function MemberKeys(entries: seq<Entry>): set<SnapshotKey> {
    set e <- entries, k <- e.payload.snapshots.Values :: k
  }

  lemma {:induction false} CommitAllRowFacts(
    t: Tables, entries: seq<Entry>, directories: Directories, integrity: Integrity)
    requires RowsValid(t.rows) && Refines(t.rows, directories, integrity)
    requires forall e <- entries :: Passes(t.rows)(e)
    ensures RowsValid(CommitAll(t, entries).rows)
    ensures Refines(CommitAll(t, entries).rows, directories, integrity)
    ensures CommitAll(t, entries).rows.Keys == t.rows.Keys
    ensures OnlyActivates(t.rows, CommitAll(t, entries).rows, MemberKeys(entries))
    ensures entries != [] ==> forall k <- entries[|entries| - 1].payload.snapshots.Values ::
              k in CommitAll(t, entries).rows && CommitAll(t, entries).rows[k].active
    decreases |entries|
  {
    hide RowsValid, Refines, Published, Referenced;
    if entries != [] {
      var e, rest := entries[0], entries[1..];
      assert e in entries;
      var next := CommitDataset(t, e.id, e.payload).value;
      ActivatedSound(t.rows, e.payload.snapshots, directories, integrity);
      forall f <- rest ensures Passes(next.rows)(f) {
        ActivationKeepsPasses(t.rows, e.payload.snapshots, f);
      }
      CommitAllRowFacts(next, rest, directories, integrity);
      assert MemberKeys(entries) == e.payload.snapshots.Values + MemberKeys(rest) by {
        assert entries == [e] + rest;
      }
    }
  }

  /**
   After recovery every row agrees with its directory, and a scoped row is active only as a member
   of a dataset that the table or a genuine sidecar records.
   */
  lemma RebuildIsSafe(
    t: Tables, listing: seq<SnapshotKey>, directories: Directories, integrity: Integrity, files: seq<Sidecar>)
    requires DatasetsValid(t.datasets) && AllAuthentic(directories)
    ensures var after := Rebuild(t, listing, directories, integrity, files);
            && RowsValid(after.rows)
            && Refines(after.rows, directories, integrity)
            && (forall k <- listing :: Read(At(directories, k), integrity).Some? ==> k in after.rows)
            && (forall k <- after.rows :: after.rows[k].active ==>
                  k.fingerprint.request.scope == Unscoped
                  || exists e <- Candidates(t.datasets, files) :: k in e.payload.snapshots.Values)
  {
    var rows := Baseline(listing, directories, integrity);
    var entries := Publishable(t, rows, files);
    BaselineFacts(listing, directories, integrity);
    RebuildPublishes(t, listing, directories, integrity, files);
    PublishableFacts(t, rows, files);
    CommitAllRowFacts(Tables(rows, t.datasets, t.references), entries, directories, integrity);
  }

  /**
   The published dataset survives: when every member of the active dataset reads back, that dataset
   is the active one after recovery, and all its members are active.
   */
  lemma RebuildKeepsActive(
    t: Tables, listing: seq<SnapshotKey>, directories: Directories, integrity: Integrity, files: seq<Sidecar>,
    d: DatasetRow)
    requires DatasetsValid(t.datasets) && AllAuthentic(directories)
    requires d in t.datasets && d.active
    requires forall s <- d.payload.snapshots ::
               var k := d.payload.snapshots[s];
               k in listing && Source(k) == s && Read(At(directories, k), integrity).Some?
    ensures var after := Rebuild(t, listing, directories, integrity, files);
            && Active(after.datasets) == Some(d.id)
            && DatasetsValid(after.datasets)
            && (forall k <- d.payload.snapshots.Values :: k in after.rows && after.rows[k].active)
  {
    var rows := Baseline(listing, directories, integrity);
    var start := Tables(rows, t.datasets, t.references);
    var entries := Publishable(t, rows, files);
    BaselineFacts(listing, directories, integrity);
    PublishableFacts(t, rows, files);
    ActivePasses(t.datasets, listing, directories, integrity, d);
    ActiveIsLast(t, rows, files, d);
    hide RowsValid, Refines, AllAuthentic, Baseline, Publishable;
    CommitAllRowFacts(start, entries, directories, integrity);
    CommitAllDatasets(start, entries);
    RebuildPublishes(t, listing, directories, integrity, files);
  }

  lemma ActivePasses(
    datasets: seq<DatasetRow>, listing: seq<SnapshotKey>, directories: Directories, integrity: Integrity, d: DatasetRow)
    requires AllAuthentic(directories)
    requires forall s <- d.payload.snapshots ::
               var k := d.payload.snapshots[s];
               k in listing && Source(k) == s && Read(At(directories, k), integrity).Some?
    ensures Passes(Baseline(listing, directories, integrity))(Entry(d.id, d.payload))
  {
    BaselineFacts(listing, directories, integrity);
    forall s <- d.payload.snapshots
      ensures Activatable(Baseline(listing, directories, integrity), s, d.payload.snapshots[s])
    {
      AuthenticReads(At(directories, d.payload.snapshots[s]), d.payload.snapshots[s], integrity);
    }
  }

  lemma ActiveIsLast(t: Tables, rows: Rows, files: seq<Sidecar>, d: DatasetRow)
    requires DatasetsValid(t.datasets) && d in t.datasets && d.active
    requires Passes(rows)(Entry(d.id, d.payload))
    ensures var entries := Publishable(t, rows, files);
            entries != [] && entries[|entries| - 1] == Entry(d.id, d.payload)
  {
    var e := Entry(d.id, d.payload);
    var passing := Filter(Passes(rows), Candidates(t.datasets, files));
    var i :| 0 <= i < |t.datasets| && t.datasets[i] == d;
    assert Entries(t.datasets)[i] == e;
    FilterMembers(Passes(rows), Candidates(t.datasets, files));
    assert e in passing;
    var j :| 0 <= j < |passing| && passing[j] == e;
    ActiveIsFlag(t.datasets);
    CandidatesDistinct(t.datasets, files);
    FilterDistinct(Passes(rows), Candidates(t.datasets, files));
    var p := ActiveComesLast(Active(t.datasets), passing);
    assert p == j;
  }

  // ---------- the procedure ----------

  /**
   `rebuild_index`: clear, record, activate the unscoped captures, and publish the datasets again. An
   unscoped capture that cannot be activated would stop it, but there is none.
   */
  method RebuildIndex(store: SnapshotStore, listing: seq<SnapshotKey>, files: seq<Sidecar>)
    returns (raised: Option<Error>, recovered: nat, corrupt: nat)
    requires store.Valid()
    modifies store.state
    ensures store.Valid()
    ensures raised.None?
    ensures store.state.View() == Rebuild(old(store.state.View()), listing, store.directories, store.integrity, files)
    ensures recovered == |Recovered(listing, store.directories, store.integrity)|
    ensures recovered + corrupt == |listing|
  {
    ghost var before := store.state.View();
    var snapshots := RecordListed(store, listing);
    recovered, corrupt := |snapshots|, |listing| - |snapshots|;
    RecoveredAreActivatable(store, listing, snapshots);
    raised := ActivateListed(store, Sort(ByCompletion(), snapshots));
    if raised.Some? {
      return;
    }
    var active := Active(store.state.datasets);
    PublishListed(store, Sort(Priority(active), Candidates(store.state.datasets, files)));
  }

  method RecordListed(store: SnapshotStore, listing: seq<SnapshotKey>) returns (recovered: seq<Snapshot>)
    requires store.Valid()
    modifies store.state`rows
    ensures store.Valid()
    ensures recovered == Recovered(listing, store.directories, store.integrity)
    ensures |recovered| <= |listing|
    ensures store.state.rows == RecordAll(map[], recovered)
  {
    hide RecordAll, Authentic, RowAuthentic, Read, Index.Valid;
    store.state.ClearSnapshots();
    RecordNone();
    recovered := [];
    var i := 0;
    while i < |listing|
      invariant 0 <= i <= |listing| && |recovered| <= i
      invariant store.Valid()
      invariant recovered + Recovered(listing[i..], store.directories, store.integrity)
             == Recovered(listing, store.directories, store.integrity)
      invariant store.state.rows == RecordAll(map[], recovered)
    {
      var found := Read(At(store.directories, listing[i]), store.integrity);
      assert listing[i..][1..] == listing[i + 1..];
      if found.Some? {
        RecordAllSnoc(map[], recovered, found.value);
        RecordFound(store, listing[i], found.value);
        recovered := recovered + [found.value];
      }
      i := i + 1;
    }
    assert recovered + [] == recovered;
  }

  lemma RecordNone()
    ensures RecordAll(map[], []) == map[]
  {
  }

  method RecordFound(store: SnapshotStore, key: SnapshotKey, s: Snapshot)
    requires store.Valid() && Read(At(store.directories, key), store.integrity) == Some(s)
    modifies store.state`rows
    ensures store.Valid()
    ensures store.state.rows == Record(old(store.state.rows), s, Inside(s.key))
  {
    AuthenticReads(At(store.directories, key), key, store.integrity);
    store.state.RecordSnapshot(s, Inside(s.key));
  }

  lemma {:induction false} RecordAllSnoc(rows: Rows, snapshots: seq<Snapshot>, s: Snapshot)
    ensures RecordAll(rows, snapshots + [s]) == Record(RecordAll(rows, snapshots), s, Inside(s.key))
    decreases |snapshots|
  {
    if snapshots != [] {
      assert (snapshots + [s])[1..] == snapshots[1..] + [s];
      RecordAllSnoc(Record(rows, snapshots[0], Inside(snapshots[0].key)), snapshots[1..], s);
    }
  }

  lemma {:induction false} RecordAllCommits(rows: Rows, snapshots: seq<Snapshot>)
    requires forall k <- rows :: rows[k].state == Committed && rows[k].source == Source(k)
    requires forall s <- snapshots :: Describes(s, s.key)
    ensures var after := RecordAll(rows, snapshots);
            && rows.Keys <= after.Keys
            && (forall s <- snapshots :: s.key in after)
            && (forall k <- after :: after[k].state == Committed && after[k].source == Source(k))
    decreases |snapshots|
  {
    if snapshots != [] {
      var s := snapshots[0];
      assert snapshots == [s] + snapshots[1..];
      RecordAllCommits(Record(rows, s, Inside(s.key)), snapshots[1..]);
    }
  }

  lemma RecoveredAreActivatable(store: SnapshotStore, listing: seq<SnapshotKey>, snapshots: seq<Snapshot>)
    requires store.Valid() && snapshots == Recovered(listing, store.directories, store.integrity)
    ensures forall s <- Sort(ByCompletion(), snapshots) ::
              Activatable(RecordAll(map[], snapshots), s.Source(), s.key)
  {
    InsertAllSorts(ByCompletion(), [], snapshots);
    RecoveredMembers(listing, store.directories, store.integrity);
    forall s <- snapshots ensures Describes(s, s.key) && s.Source() == Source(s.key) {
      AuthenticReads(At(store.directories, s.key), s.key, store.integrity);
    }
    hide Recovered, Sort, RecordAll, Describes, Read, Authentic, RowAuthentic, Index.Valid;
    RecordAllCommits(map[], snapshots);
  }

  /** Activating one of them takes nothing from the others but activity. */
  lemma StillActivatable(rows: Rows, members: map<SourceId, SnapshotKey>, snapshots: seq<Snapshot>)
    requires forall s <- snapshots :: Activatable(rows, s.Source(), s.key)
    ensures forall s <- snapshots :: Activatable(Activated(rows, members), s.Source(), s.key)
  {
    hide Displaced;
  }

  method ActivateListed(store: SnapshotStore, snapshots: seq<Snapshot>) returns (raised: Option<Error>)
    requires store.Valid()
    requires forall s <- snapshots :: Activatable(store.state.rows, s.Source(), s.key)
    modifies store.state`rows
    ensures store.Valid()
    ensures raised.None?
    ensures store.state.rows == ActivateUnscoped(old(store.state.rows), snapshots)
  {
    hide Authentic, RowAuthentic, Index.Valid, Activated;
    var i := 0;
    while i < |snapshots|
      invariant 0 <= i <= |snapshots|
      invariant store.Valid()
      invariant ActivateUnscoped(store.state.rows, snapshots[i..]) == ActivateUnscoped(old(store.state.rows), snapshots)
      invariant forall s <- snapshots :: Activatable(store.state.rows, s.Source(), s.key)
    {
      var s := snapshots[i];
      assert snapshots[i..][1..] == snapshots[i + 1..];
      if s.request.scope == Unscoped {
        ActivatedIsAuthentic(store.state.rows, map[s.Source() := s.key]);
        StillActivatable(store.state.rows, map[s.Source() := s.key], snapshots);
        assert s in snapshots;
        var activated := store.state.Activate(s.Source(), s.key);
        if activated.Failure? {
          return Some(CacheError);
        }
      }
      i := i + 1;
    }
    return None;
  }

  method PublishListed(store: SnapshotStore, entries: seq<Entry>)
    requires store.Valid()
    modifies store.state
    ensures store.Valid()
    ensures store.state.View() == CommitAll(old(store.state.View()), entries)
  {
    hide Authentic, RowAuthentic, Index.Valid, Activated, Published, Referenced;
    var i := 0;
    while i < |entries|
      invariant 0 <= i <= |entries|
      invariant store.Valid()
      invariant CommitAll(store.state.View(), entries[i..]) == CommitAll(old(store.state.View()), entries)
    {
      assert entries[i..][1..] == entries[i + 1..];
      ActivatedIsAuthentic(store.state.rows, entries[i].payload.snapshots);
      var _ := store.state.CommitDataset(entries[i].id, entries[i].payload);
      i := i + 1;
    }
  }
}
