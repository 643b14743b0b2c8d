/** The snapshot and dataset tables as a value, and each transaction as a function on it. */
module Index {
  import opened Outcomes
  import opened Identity
  import opened Snapshots

  datatype RowState = Committed | Corrupt

  /** `metadata_path`: inside the snapshots root the key determines it. */
  datatype Location = Inside(key: SnapshotKey) | Outside(path: string)

  datatype Row = Row(
    source: SourceId,
    fingerprint: Fingerprint,
    state: RowState,
    created: Timestamp,
    expires: Option<Timestamp>,
    rows: nat,
    bytes: nat,
    location: Location,
    active: bool,
    pinned: bool)

  type Rows = map<SnapshotKey, Row>

  /** The recorded dataset; `captured` holds the completion times of its sources. */
  datatype Payload = Payload(
    snapshots: map<SourceId, SnapshotKey>,
    scopes: map<SourceId, Scope>,
    captured: seq<Timestamp>,
    run: string)

  function KeysOf(known: map<SourceId, Snapshot>): map<SourceId, SnapshotKey> {
    map id <- known :: known[id].key
  }

  /** A dataset is identified by its members and their scopes. */
  function IdentityOf(known: map<SourceId, Snapshot>): DatasetId {
    DatasetId(KeysOf(known), map id <- known :: known[id].request.scope)
  }

  datatype DatasetRow = DatasetRow(id: DatasetId, payload: Payload, active: bool)

  /** `datasets` is in rowid order; `references` is keyed by (dataset, source). */
  datatype Tables = Tables(
    rows: Rows,
    datasets: seq<DatasetRow>,
    references: map<(DatasetId, SourceId), SnapshotKey>)

  // ---------- the invariant of the tables ----------

  ghost predicate RowsValid(rows: Rows) {
    && (forall k <- rows :: rows[k].active ==> rows[k].state == Committed)
    && (forall k <- rows, l <- rows ::
          && rows[k].active
          && rows[l].active
          && rows[k].source == rows[l].source
          && rows[k].fingerprint == rows[l].fingerprint
          ==> k == l)
  }

  ghost predicate DatasetsValid(datasets: seq<DatasetRow>) {
    && (forall i, j :: 0 <= i < j < |datasets| ==> datasets[i].id != datasets[j].id)
    && (forall i, j :: 0 <= i < |datasets| && 0 <= j < |datasets| && datasets[i].active && datasets[j].active
          ==> i == j)
  }

  ghost predicate ReferencesValid(t: Tables) {
    && (forall i, s :: 0 <= i < |t.datasets| && s in t.datasets[i].payload.snapshots ==>
          (t.datasets[i].id, s) in t.references
          && t.references[(t.datasets[i].id, s)] == t.datasets[i].payload.snapshots[s])
    && (forall r <- t.references :: exists i :: 0 <= i < |t.datasets| && t.datasets[i].id == r.0)
  }

  /** At most one active row per source and request, at most one active dataset, references complete. */
  ghost predicate Valid(t: Tables) {
    RowsValid(t.rows) && DatasetsValid(t.datasets) && ReferencesValid(t)
  }

  // ---------- row transactions ----------

  function NewRow(s: Snapshot, location: Location): Row {
    Row(s.Source(), s.fingerprint, Committed, s.created, s.expires, s.rows, s.bytes, location, false, s.pinned)
  }

  /** `record_snapshot`: on conflict the fingerprint, source, creation time and activity are kept. */
  function Record(rows: Rows, s: Snapshot, location: Location): Rows {
    rows[s.key := if s.key in rows
                  then rows[s.key].(state := Committed, expires := s.expires, rows := s.rows, bytes := s.bytes,
                                    location := location, pinned := s.pinned)
                  else NewRow(s, location)]
  }

  function MarkCorrupt(rows: Rows, key: SnapshotKey): Rows {
    if key in rows then rows[key := rows[key].(state := Corrupt, active := false)] else rows
  }

  function SetPinned(rows: Rows, key: SnapshotKey): Rows {
    if key in rows then rows[key := rows[key].(pinned := true)] else rows
  }

  // ---------- activation ----------

  predicate Activatable(rows: Rows, source: SourceId, key: SnapshotKey) {
    key in rows && rows[key].source == source && rows[key].state == Committed
  }

  predicate AllActivatable(rows: Rows, members: map<SourceId, SnapshotKey>) {
    forall s <- members :: Activatable(rows, s, members[s])
  }

  /** Rows of one source and one request: what the activation of one of them clears. */
  predicate SameGroup(a: Row, b: Row) {
    a.source == b.source && a.fingerprint == b.fingerprint
  }

  /** One pass of the activation loop: clear the group of `key`, then set `key`. */
  function ActivateOne(rows: Rows, key: SnapshotKey): Rows
    requires key in rows
  {
    map k <- rows ::
      if k == key then rows[k].(active := true)
      else if SameGroup(rows[k], rows[key]) then rows[k].(active := false)
      else rows[k]
  }

  /** Some member belongs to the group of `row`. */
  predicate Displaced(rows: Rows, members: map<SourceId, SnapshotKey>, row: Row) {
    exists s <- members :: members[s] in rows && SameGroup(row, rows[members[s]])
  }

  /** The outcome of the whole loop, whatever order the members are visited in. */
  function Activated(rows: Rows, members: map<SourceId, SnapshotKey>): Rows {
    map k <- rows ::
      if k in members.Values then rows[k].(active := true)
      else if Displaced(rows, members, rows[k]) then rows[k].(active := false)
      else rows[k]
  }

  lemma ActivatedStep(rows: Rows, members: map<SourceId, SnapshotKey>, source: SourceId, key: SnapshotKey)
    requires AllActivatable(rows, members[source := key])
    requires source !in members
    ensures key in Activated(rows, members)
    ensures ActivateOne(Activated(rows, members), key) == Activated(rows, members[source := key])
  {
    var before := Activated(rows, members);
    var all := members[source := key];
    assert all[source] == key;
    assert key in rows && rows[key].source == source;
    forall s <- members ensures members[s] in rows && rows[members[s]].source == s && members[s] != key {
      assert all[s] == members[s];
      assert Activatable(rows, s, all[s]);
    }
    assert forall k <- rows :: SameGroup(before[k], before[key]) == SameGroup(rows[k], rows[key]);
    assert members.Values + {key} == all.Values by {
      forall v <- members.Values ensures v in all.Values {
        var s :| s in members && members[s] == v;
        assert all[s] == v;
      }
    }
    forall k <- rows
      ensures ActivateOne(before, key)[k] == Activated(rows, all)[k]
    {
      if k != key && k !in members.Values {
        assert Displaced(rows, all, rows[k])
            == (Displaced(rows, members, rows[k]) || SameGroup(rows[k], rows[key])) by {
          if Displaced(rows, members, rows[k]) {
            var s :| s in members && members[s] in rows && SameGroup(rows[k], rows[members[s]]);
            assert all[s] == members[s];
          }
        }
      } else if k in members.Values {
        var s :| s in members && members[s] == k;
        assert !SameGroup(rows[k], rows[key]);
      }
    }
  }

  /** Only activity changes, and not even that where source and fingerprint are shared with no member's row. */
  ghost predicate OthersStay(rows: Rows, after: Rows, members: map<SourceId, SnapshotKey>) {
    && after.Keys == rows.Keys
    && (forall k <- rows :: after[k] == rows[k].(active := after[k].active))
    && (forall k <- rows ::
          (forall s <- members :: members[s] in rows ==>
             rows[k].source != rows[members[s]].source || rows[k].fingerprint != rows[members[s]].fingerprint)
          ==> after[k] == rows[k])
  }

  lemma ActivationLeavesOthers(rows: Rows, members: map<SourceId, SnapshotKey>)
    requires AllActivatable(rows, members)
    ensures OthersStay(rows, Activated(rows, members), members)
  {
  }

  /**
   Every member ends up active, for no member can displace another; nothing else becomes active, and what
   is active for another source or another request stays so.
   */
  lemma ActivatedMembers(rows: Rows, members: map<SourceId, SnapshotKey>)
    requires RowsValid(rows) && AllActivatable(rows, members)
    ensures RowsValid(Activated(rows, members))
    ensures forall s <- members :: members[s] in rows && Activated(rows, members)[members[s]].active
    ensures forall k <- rows :: Activated(rows, members)[k].active ==> rows[k].active || k in members.Values
    ensures OthersStay(rows, Activated(rows, members), members)
  {
    ActivationLeavesOthers(rows, members);
    hide OthersStay;
    var after := Activated(rows, members);
    forall k <- after, l <- after | after[k].active && after[l].active && SameGroup(after[k], after[l])
      ensures k == l
    {
      if k in members.Values && l in members.Values {
        var s :| s in members && members[s] == k;
        var t :| t in members && members[t] == l;
        assert Activatable(rows, s, members[s]) && Activatable(rows, t, members[t]);
      }
    }
    forall k <- after | after[k].active ensures after[k].state == Committed {
      if k in members.Values {
        var s :| s in members && members[s] == k;
        assert Activatable(rows, s, members[s]);
      }
    }
    forall s <- members ensures members[s] in rows && after[members[s]].active {
      assert Activatable(rows, s, members[s]);
    }
  }

  // ---------- dataset transactions ----------

  function Deactivate(datasets: seq<DatasetRow>): (r: seq<DatasetRow>)
    ensures |r| == |datasets|
    ensures forall i :: 0 <= i < |r| ==> r[i] == datasets[i].(active := false)
  {
    seq(|datasets|, i requires 0 <= i < |datasets| => datasets[i].(active := false))
  }

  predicate Knows(datasets: seq<DatasetRow>, id: DatasetId) {
    exists d <- datasets :: d.id == id
  }

  function SetActive(datasets: seq<DatasetRow>, id: DatasetId): (r: seq<DatasetRow>)
    ensures |r| == |datasets|
    ensures forall i :: 0 <= i < |r| ==>
              r[i] == if datasets[i].id == id then datasets[i].(active := true) else datasets[i]
  {
    seq(|datasets|, i requires 0 <= i < |datasets| =>
      if datasets[i].id == id then datasets[i].(active := true) else datasets[i])
  }

  /** `UPDATE datasets SET active=0` followed by the upsert, which keeps an existing payload. */
  function Published(datasets: seq<DatasetRow>, id: DatasetId, payload: Payload): seq<DatasetRow> {
    if Knows(datasets, id) then SetActive(Deactivate(datasets), id)
    else Deactivate(datasets) + [DatasetRow(id, payload, true)]
  }

  function Referenced(references: map<(DatasetId, SourceId), SnapshotKey>, id: DatasetId, payload: Payload)
    : map<(DatasetId, SourceId), SnapshotKey>
  {
    (map s <- payload.snapshots :: (id, s) := payload.snapshots[s]) + references
  }

  /** `commit_dataset`: one transaction, which fails without effect when a member cannot be activated. */
  function CommitDataset(t: Tables, id: DatasetId, payload: Payload): Result<Tables> {
    if AllActivatable(t.rows, payload.snapshots)
    then Success(Tables(Activated(t.rows, payload.snapshots), Published(t.datasets, id, payload),
                        Referenced(t.references, id, payload)))
    else Failure(CacheError)
  }

  function Without(datasets: seq<DatasetRow>, id: DatasetId): seq<DatasetRow> {
    if datasets == [] then []
    else (if datasets[0].id == id then [] else [datasets[0]]) + Without(datasets[1..], id)
  }

  function DeleteDataset(t: Tables, id: DatasetId): Tables {
    Tables(t.rows, Without(t.datasets, id), map r <- t.references | r.0 != id :: t.references[r])
  }

  ghost predicate Recorded(t: Tables, id: DatasetId, payload: Payload) {
    exists i :: 0 <= i < |t.datasets| && t.datasets[i].id == id && t.datasets[i].payload == payload
  }

  function PayloadOf(datasets: seq<DatasetRow>, id: DatasetId): (p: Payload)
    requires Knows(datasets, id)
    ensures exists d <- datasets :: d.id == id && d.payload == p
  {
    if datasets[0].id == id then datasets[0].payload
    else
      assert exists d <- datasets[1..] :: d.id == id by {
        var d :| d in datasets && d.id == id;
        assert d in datasets[1..];
      }
      PayloadOf(datasets[1..], id)
  }

  /** The dataset files once `id` has its own: an existing file is left alone. */
  function Filed(files: map<DatasetId, Payload>, datasets: seq<DatasetRow>, id: DatasetId): map<DatasetId, Payload> {
    if id in files || !Knows(datasets, id) then files else files[id := PayloadOf(datasets, id)]
  }

  lemma PublishedValid(datasets: seq<DatasetRow>, id: DatasetId, payload: Payload)
    requires DatasetsValid(datasets)
    ensures DatasetsValid(Published(datasets, id, payload))
  {
    var after := Published(datasets, id, payload);
    forall i | 0 <= i < |datasets| ensures after[i].id == datasets[i].id {
    }
    if !Knows(datasets, id) {
      forall i | 0 <= i < |datasets| ensures after[i].id != id {
        assert datasets[i] in datasets;
      }
    }
  }

  /**
   A committed dataset is published whole: the tables stay valid, every member is active, the
   dataset is the only active one, every payload recorded before is unchanged, and every row that shares
   source and fingerprint with no member's row is as it was.
   */
  lemma CommitIsWhole(t: Tables, id: DatasetId, payload: Payload)
    requires Valid(t)
    requires CommitDataset(t, id, payload).Success?
    ensures var after := CommitDataset(t, id, payload).value;
            && Valid(after)
            && (forall s <- payload.snapshots :: payload.snapshots[s] in after.rows
                                              && after.rows[payload.snapshots[s]].active
                                              && after.rows[payload.snapshots[s]].source == s)
            && (forall d <- after.datasets :: d.active <==> d.id == id)
            && Knows(after.datasets, id)
            && (forall d <- t.datasets :: Recorded(after, d.id, d.payload))
            && (!Knows(t.datasets, id) ==> Recorded(after, id, payload))
            && OthersStay(t.rows, after.rows, payload.snapshots)
  {
    hide OthersStay, RowsValid, DatasetsValid, ReferencesValid, Activated, Published, Referenced, Knows, Recorded,
         AllActivatable;
    ActivatedMembers(t.rows, payload.snapshots);
    PublishedValid(t.datasets, id, payload);
    CommitReferences(t, id, payload);
    MembersKeepSource(t.rows, payload.snapshots);
    PublishedIsCurrent(t, CommitDataset(t, id, payload).value, id, payload);
  }

  lemma MembersKeepSource(rows: Rows, members: map<SourceId, SnapshotKey>)
    requires AllActivatable(rows, members)
    ensures forall s <- members :: members[s] in Activated(rows, members)
                                && Activated(rows, members)[members[s]].source == s
  {
    hide Displaced;
    forall s <- members
      ensures members[s] in Activated(rows, members) && Activated(rows, members)[members[s]].source == s
    {
      assert Activatable(rows, s, members[s]);
    }
  }

  lemma PublishedIsCurrent(t: Tables, after: Tables, id: DatasetId, payload: Payload)
    requires after.datasets == Published(t.datasets, id, payload)
    ensures forall d <- after.datasets :: d.active <==> d.id == id
    ensures Knows(after.datasets, id)
    ensures forall d <- t.datasets :: Recorded(after, d.id, d.payload)
    ensures !Knows(t.datasets, id) ==> Recorded(after, id, payload)
  {
    PublishedKeepsIds(t.datasets, id, payload);
    var i :| 0 <= i < |after.datasets| && after.datasets[i].id == id;
    assert after.datasets[i] in after.datasets;
    forall d <- t.datasets ensures Recorded(after, d.id, d.payload) {
      var j :| 0 <= j < |t.datasets| && t.datasets[j] == d;
    }
    if !Knows(t.datasets, id) {
      assert after.datasets[|t.datasets|] == DatasetRow(id, payload, true);
    }
  }

  lemma PublishedKeepsIds(datasets: seq<DatasetRow>, id: DatasetId, payload: Payload)
    ensures var after := Published(datasets, id, payload);
            && |datasets| <= |after|
            && (forall i :: 0 <= i < |datasets| ==>
                  after[i].id == datasets[i].id && after[i].payload == datasets[i].payload)
            && (forall i :: |datasets| <= i < |after| ==> after[i] == DatasetRow(id, payload, true))
            && (exists i :: 0 <= i < |after| && after[i].id == id)
            && (|after| > |datasets| ==> forall i :: 0 <= i < |datasets| ==> datasets[i].id != id)
  {
    var after := Published(datasets, id, payload);
    if Knows(datasets, id) {
      var i :| 0 <= i < |datasets| && datasets[i].id == id;
      assert after[i].id == id;
    } else {
      assert after[|datasets|].id == id;
      forall i | 0 <= i < |datasets| ensures datasets[i].id != id {
        assert datasets[i] in datasets;
      }
    }
  }

  lemma CommitReferences(t: Tables, id: DatasetId, payload: Payload)
    requires ReferencesValid(t) && CommitDataset(t, id, payload).Success?
    ensures ReferencesValid(CommitDataset(t, id, payload).value)
  {
    PublishedKeepsIds(t.datasets, id, payload);
    hide Published, Activated, AllActivatable;
    var after := CommitDataset(t, id, payload).value;
    forall i, s | 0 <= i < |after.datasets| && s in after.datasets[i].payload.snapshots
      ensures (after.datasets[i].id, s) in after.references
      ensures after.references[(after.datasets[i].id, s)] == after.datasets[i].payload.snapshots[s]
    {
      if i < |t.datasets| {
        assert (t.datasets[i].id, s) in t.references;
      }
    }
    forall r <- after.references ensures exists i :: 0 <= i < |after.datasets| && after.datasets[i].id == r.0 {
      ReferencedBy(t.references, id, payload, r);
      if r in t.references {
        var i :| 0 <= i < |t.datasets| && t.datasets[i].id == r.0;
        assert after.datasets[i].id == r.0;
      } else {
        var i :| 0 <= i < |after.datasets| && after.datasets[i].id == id;
        assert after.datasets[i].id == r.0;
      }
    }
  }

  lemma ReferencedBy(
    references: map<(DatasetId, SourceId), SnapshotKey>, id: DatasetId, payload: Payload, r: (DatasetId, SourceId))
    requires r in Referenced(references, id, payload)
    ensures r in references || (r.0 == id && r.1 in payload.snapshots)
  {
  }

  lemma {:induction false} WithoutMembers(datasets: seq<DatasetRow>, id: DatasetId)
    ensures forall d :: d in Without(datasets, id) <==> d in datasets && d.id != id
    ensures DatasetsValid(datasets) ==> DatasetsValid(Without(datasets, id))
  {
    if datasets != [] {
      WithoutMembers(datasets[1..], id);
      assert datasets == [datasets[0]] + datasets[1..];
      if DatasetsValid(datasets) {
        ConsValid(datasets, Without(datasets[1..], id));
      }
    }
  }

  /** A valid table stays valid when some of the rows behind the first are left out. */
  lemma ConsValid(datasets: seq<DatasetRow>, rest: seq<DatasetRow>)
    requires datasets != [] && DatasetsValid(datasets) && forall d <- rest :: d in datasets[1..]
    requires DatasetsValid(datasets[1..]) ==> DatasetsValid(rest)
    ensures DatasetsValid(rest) && DatasetsValid([datasets[0]] + rest)
  {
    assert forall i :: 0 <= i < |datasets[1..]| ==> datasets[1..][i] == datasets[i + 1];
    forall i | 0 <= i < |rest| ensures rest[i].id != datasets[0].id && !(rest[i].active && datasets[0].active) {
      assert rest[i] in datasets[1..];
      var j :| 0 <= j < |datasets[1..]| && datasets[1..][j] == rest[i];
      assert datasets[j + 1] == rest[i];
    }
  }

  lemma DropKeepsReferences(t: Tables, id: DatasetId)
    requires ReferencesValid(t)
    ensures ReferencesValid(DeleteDataset(t, id))
  {
    WithoutMembers(t.datasets, id);
    hide Without, DatasetsValid;
    var after := DeleteDataset(t, id);
    forall i, s | 0 <= i < |after.datasets| && s in after.datasets[i].payload.snapshots
      ensures (after.datasets[i].id, s) in after.references
      ensures after.references[(after.datasets[i].id, s)] == after.datasets[i].payload.snapshots[s]
    {
      var d := after.datasets[i];
      assert d in after.datasets;
      var j :| 0 <= j < |t.datasets| && t.datasets[j] == d;
      assert (t.datasets[j].id, s) in t.references;
    }
    forall r <- after.references ensures exists i :: 0 <= i < |after.datasets| && after.datasets[i].id == r.0 {
      var j :| 0 <= j < |t.datasets| && t.datasets[j].id == r.0;
      assert t.datasets[j] in t.datasets && t.datasets[j] in after.datasets;
      var i :| 0 <= i < |after.datasets| && after.datasets[i] == t.datasets[j];
      assert after.datasets[i].id == r.0;
    }
  }

  /** Dropping a dataset releases its references, and leaves every other dataset and reference and all rows alone. */
  lemma DropReleasesOnly(t: Tables, id: DatasetId)
    requires Valid(t)
    ensures Valid(DeleteDataset(t, id))
    ensures !Knows(DeleteDataset(t, id).datasets, id)
    ensures forall d :: d in DeleteDataset(t, id).datasets <==> d in t.datasets && d.id != id
    ensures DeleteDataset(t, id).rows == t.rows
    ensures forall r <- DeleteDataset(t, id).references ::
              r.0 != id && r in t.references && DeleteDataset(t, id).references[r] == t.references[r]
    ensures forall r <- t.references :: r.0 != id ==> r in DeleteDataset(t, id).references
  {
    WithoutMembers(t.datasets, id);
    DropKeepsReferences(t, id);
    hide ReferencesValid, Without, DatasetsValid, RowsValid;
  }

  /** No other transaction can activate a row or disturb the one-active-row-per-request invariant. */
  lemma RowTransactionsValid(rows: Rows, s: Snapshot, location: Location, key: SnapshotKey)
    requires RowsValid(rows)
    ensures RowsValid(Record(rows, s, location))
    ensures RowsValid(MarkCorrupt(rows, key))
    ensures RowsValid(SetPinned(rows, key))
    ensures RowsValid(rows - {key})
  {
  }

  /**
   What a row transaction changes. Recording renews what was read, and keeps of a row that is there its
   source, fingerprint, creation time and activity, while a new row is inactive; the others change one
   row's state, pin or existence, and nothing else.
   */
  lemma RowTransactionsExactly(rows: Rows, s: Snapshot, location: Location, key: SnapshotKey)
    ensures var after := Record(rows, s, location);
            && after.Keys == rows.Keys + {s.key}
            && (forall k <- rows :: k != s.key ==> after[k] == rows[k])
            && after[s.key].state == Committed
            && after[s.key].expires == s.expires
            && after[s.key].rows == s.rows
            && after[s.key].bytes == s.bytes
            && after[s.key].pinned == s.pinned
            && after[s.key].location == location
            && (if s.key in rows then
                  && after[s.key].source == rows[s.key].source
                  && after[s.key].fingerprint == rows[s.key].fingerprint
                  && after[s.key].created == rows[s.key].created
                  && after[s.key].active == rows[s.key].active
                else
                  && after[s.key].source == s.request.source
                  && after[s.key].fingerprint == s.fingerprint
                  && after[s.key].created == s.created
                  && !after[s.key].active)
    ensures var after := MarkCorrupt(rows, key);
            && after.Keys == rows.Keys
            && (forall k <- rows :: k != key ==> after[k] == rows[k])
            && (key in rows ==>
                  && after[key].state == Corrupt
                  && !after[key].active
                  && after[key].(state := rows[key].state, active := rows[key].active) == rows[key])
    ensures var after := SetPinned(rows, key);
            && after.Keys == rows.Keys
            && (forall k <- rows :: k != key ==> after[k] == rows[k])
            && (key in rows ==> after[key].pinned && after[key].(pinned := rows[key].pinned) == rows[key])
  {
    assert Record(rows, s, location).Keys == rows.Keys + {s.key};
  }

  // ---------- queries ----------

  predicate IsActive(rows: Rows, source: SourceId, fingerprint: Fingerprint, key: SnapshotKey) {
    key in rows && rows[key].active && rows[key].source == source && rows[key].fingerprint == fingerprint
  }

  /** `active_snapshot`: with at most one active row per request there is nothing to choose. */
  ghost function ActiveSnapshot(rows: Rows, source: SourceId, fingerprint: Fingerprint): (r: Option<SnapshotKey>)
    ensures r.Some? ==> IsActive(rows, source, fingerprint, r.value)
    ensures r.None? ==> forall k <- rows :: !IsActive(rows, source, fingerprint, k)
  {
    if k :| k in rows && IsActive(rows, source, fingerprint, k) then Some(k) else None
  }
}
