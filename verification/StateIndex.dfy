/** The SQLite state index: every method is one transaction. */
module State {
  import opened Outcomes
  import opened Identity
  import opened Snapshots
  import opened Index

  /** `keys` lists the table newest first, each row once. */
  ghost predicate IsListing(keys: seq<SnapshotKey>, rows: Rows) {
    && (forall k <- keys :: k in rows)
    && (forall k <- rows :: k in keys)
    && (forall i, j :: 0 <= i < j < |keys| ==> keys[i] != keys[j])
    && (forall i, j :: 0 <= i < j < |keys| ==> rows[keys[i]].created >= rows[keys[j]].created)
  }

  /** The activation loop, run on the transaction's own copy of the rows. */
  method ActivateMany(rows: Rows, members: map<SourceId, SnapshotKey>) returns (result: Result<Rows>)
    ensures result == if AllActivatable(rows, members) then Success(Activated(rows, members)) else Failure(CacheError)
  {
    var working := rows;
    var pending := members.Keys;
    assert Activated(rows, members - pending) == rows;
    while pending != {}
      invariant pending <= members.Keys
      invariant AllActivatable(rows, members - pending)
      invariant working == Activated(rows, members - pending)
    {
      var source :| source in pending;
      var key := members[source];
      SameToActivate(rows, members - pending, source, key);
      if !Activatable(working, source, key) {
        return Failure(CacheError);
      }
      ActivatedStep(rows, members - pending, source, key);
      working := ActivateOne(working, key);
      assert members - (pending - {source}) == (members - pending)[source := key];
      pending := pending - {source};
    }
    assert members - pending == members;
    return Success(working);
  }

  /** Activation changes nothing that a later activation in the same transaction looks at. */
  lemma SameToActivate(rows: Rows, members: map<SourceId, SnapshotKey>, source: SourceId, key: SnapshotKey)
    ensures Activatable(Activated(rows, members), source, key) == Activatable(rows, source, key)
  {
  }

  ghost predicate NewestFirst(keys: seq<SnapshotKey>, rows: Rows)
    requires forall k <- keys :: k in rows
  {
    forall i, j :: 0 <= i < j < |keys| ==> rows[keys[i]].created >= rows[keys[j]].created
  }

  function InsertByAge(keys: seq<SnapshotKey>, key: SnapshotKey, rows: Rows): seq<SnapshotKey>
    requires key in rows && forall k <- keys :: k in rows
  {
    if keys == [] || rows[keys[0]].created < rows[key].created then [key] + keys
    else [keys[0]] + InsertByAge(keys[1..], key, rows)
  }

  lemma {:induction false} InsertByAgeKeeps(keys: seq<SnapshotKey>, key: SnapshotKey, rows: Rows)
    requires key in rows && forall k <- keys :: k in rows
    ensures multiset(InsertByAge(keys, key, rows)) == multiset(keys) + multiset{key}
    ensures forall k :: k in InsertByAge(keys, key, rows) <==> k in keys || k == key
  {
    if keys != [] && rows[keys[0]].created >= rows[key].created {
      assert keys == [keys[0]] + keys[1..];
      InsertByAgeKeeps(keys[1..], key, rows);
    }
  }

  lemma {:induction false} InsertByAgeOrders(keys: seq<SnapshotKey>, key: SnapshotKey, rows: Rows)
    requires key in rows && forall k <- keys :: k in rows
    requires NewestFirst(keys, rows)
    ensures forall k <- InsertByAge(keys, key, rows) :: k in rows
    ensures NewestFirst(InsertByAge(keys, key, rows), rows)
  {
    InsertByAgeKeeps(keys, key, rows);
    if keys != [] && rows[keys[0]].created >= rows[key].created {
      InsertByAgeOrders(keys[1..], key, rows);
      var rest := InsertByAge(keys[1..], key, rows);
      InsertByAgeKeeps(keys[1..], key, rows);
      forall j | 0 <= j < |rest| ensures rows[keys[0]].created >= rows[rest[j]].created {
        assert rest[j] in rest;
      }
    }
  }

  /** `SELECT * FROM snapshots ORDER BY created_at DESC`. */
  method ListSnapshots(rows: Rows) returns (keys: seq<SnapshotKey>)
    ensures IsListing(keys, rows)
  {
    keys := [];
    var pending := rows.Keys;
    while pending != {}
      invariant pending <= rows.Keys
      invariant forall k <- keys :: k in rows
      invariant multiset(keys) == multiset(rows.Keys - pending)
      invariant NewestFirst(keys, rows)
    {
      var key :| key in pending;
      InsertByAgeKeeps(keys, key, rows);
      InsertByAgeOrders(keys, key, rows);
      assert rows.Keys - (pending - {key}) == (rows.Keys - pending) + {key};
      keys := InsertByAge(keys, key, rows);
      pending := pending - {key};
    }
    EachOnce(keys, rows.Keys);
  }

  lemma EachOnce(keys: seq<SnapshotKey>, all: set<SnapshotKey>)
    requires multiset(keys) == multiset(all)
    ensures forall k :: k in keys <==> k in all
    ensures forall i, j :: 0 <= i < j < |keys| ==> keys[i] != keys[j]
  {
    forall k ensures k in keys <==> k in all {
      assert k in keys <==> k in multiset(keys);
    }
    forall i, j | 0 <= i < j < |keys| ensures keys[i] != keys[j] {
      assert keys == keys[..j] + [keys[j]] + keys[j + 1..];
      assert keys[i] in keys[..j];
      assert keys[j] in multiset(all);
    }
  }

  class StateIndex {
    var rows: Rows
    var datasets: seq<DatasetRow>
    var references: map<(DatasetId, SourceId), SnapshotKey>

    ghost function View(): Tables
      reads this
    {
      Tables(rows, datasets, references)
    }

    ghost predicate Valid()
      reads this
    {
      Index.Valid(View())
    }

    constructor ()
      ensures Valid() && View() == Tables(map[], [], map[])
    {
      rows, datasets, references := map[], [], map[];
    }

    method RecordSnapshot(s: Snapshot, location: Location)
      requires Valid()
      modifies this`rows
      ensures Valid()
      ensures rows == Record(old(rows), s, location)
    {
      RowTransactionsValid(rows, s, location, s.key);
      rows := Record(rows, s, location);
    }

    method MarkCorrupt(key: SnapshotKey)
      requires Valid()
      modifies this`rows
      ensures Valid()
      ensures rows == Index.MarkCorrupt(old(rows), key)
    {
      rows := Index.MarkCorrupt(rows, key);
    }

    method SetPinned(key: SnapshotKey)
      requires Valid()
      modifies this`rows
      ensures Valid()
      ensures rows == Index.SetPinned(old(rows), key)
    {
      rows := Index.SetPinned(rows, key);
    }

    method DeleteSnapshot(key: SnapshotKey)
      requires Valid()
      modifies this`rows
      ensures Valid()
      ensures rows == old(rows) - {key}
    {
      rows := rows - {key};
    }

    method ClearSnapshots()
      requires Valid()
      modifies this`rows
      ensures Valid()
      ensures rows == map[]
    {
      rows := map[];
    }

    method Activate(source: SourceId, key: SnapshotKey) returns (result: Result<()>)
      requires Valid()
      modifies this`rows
      ensures Valid()
      ensures result.Success? <==> Activatable(old(rows), source, key)
      ensures rows == if result.Success? then Activated(old(rows), map[source := key]) else old(rows)
    {
      var activated := ActivateMany(rows, map[source := key]);
      if activated.Failure? {
        assert !Activatable(rows, source, key);
        return Failure(activated.error);
      }
      assert source in map[source := key];
      ActivatedMembers(rows, map[source := key]);
      rows := activated.value;
      return Success(());
    }

    /** All or nothing: either the whole dataset is published, or the tables are untouched. */
    method CommitDataset(id: DatasetId, payload: Payload) returns (result: Result<()>)
      requires Valid()
      modifies this
      ensures Valid()
      ensures result.Success? <==> Index.CommitDataset(old(View()), id, payload).Success?
      ensures result.Success? ==> View() == Index.CommitDataset(old(View()), id, payload).value
      ensures result.Failure? ==> View() == old(View()) && result.error == CacheError
    {
      var activated := ActivateMany(rows, payload.snapshots);
      if activated.Failure? {
        return Failure(activated.error);
      }
      CommitIsWhole(View(), id, payload);
      PublishedIs(datasets, id, payload);
      ghost var after := Index.CommitDataset(View(), id, payload).value;
      assert after
          == Tables(activated.value, Published(datasets, id, payload), Referenced(references, id, payload));
      assert Index.Valid(after);
      hide Index.CommitDataset, Index.Valid, OthersStay, Recorded, Published, Deactivate, SetActive, Knows;
      rows := activated.value;
      datasets := Deactivate(datasets);
      if Knows(datasets, id) {
        datasets := SetActive(datasets, id);
      } else {
        datasets := datasets + [DatasetRow(id, payload, true)];
      }
      references := Referenced(references, id, payload);
      assert View() == after;
      return Success(());
    }

    method DeleteDataset(id: DatasetId)
      requires Valid()
      modifies this
      ensures Valid()
      ensures View() == Index.DeleteDataset(old(View()), id)
    {
      DropReleasesOnly(View(), id);
      datasets := Without(datasets, id);
      references := map r <- references | r.0 != id :: references[r];
    }

    /** The active row of a request; validity makes it unique. */
    method ActiveSnapshot(source: SourceId, fingerprint: Fingerprint) returns (key: Option<SnapshotKey>)
      requires Valid()
      ensures key == Index.ActiveSnapshot(rows, source, fingerprint)
    {
      if k :| k in rows && IsActive(rows, source, fingerprint, k) {
        return Some(k);
      }
      return None;
    }
  }

  lemma KnowsDeactivated(datasets: seq<DatasetRow>, id: DatasetId)
    ensures Knows(Deactivate(datasets), id) == Knows(datasets, id)
  {
    var after := Deactivate(datasets);
    if Knows(datasets, id) {
      var i :| 0 <= i < |datasets| && datasets[i].id == id;
      assert after[i] in after;
    }
    if Knows(after, id) {
      var i :| 0 <= i < |after| && after[i].id == id;
      assert datasets[i] in datasets;
    }
  }

  /** The table once every dataset has been deactivated and this one has been upserted. */
  lemma PublishedIs(datasets: seq<DatasetRow>, id: DatasetId, payload: Payload)
    ensures var inactive := Deactivate(datasets);
            Published(datasets, id, payload)
            == if Knows(inactive, id) then SetActive(inactive, id) else inactive + [DatasetRow(id, payload, true)]
  {
    KnowsDeactivated(datasets, id);
  }
}
