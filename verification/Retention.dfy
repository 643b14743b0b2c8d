/** What garbage collection may remove, in closed form, and the accounting of the index. */
module Retention {
  import opened Outcomes
  import opened Identity
  import opened Index
  import opened State

  /** How many of the first `n` listed rows belong to `source`. */
  function Rank(keys: seq<SnapshotKey>, rows: Rows, source: SourceId, n: nat): (r: nat)
    requires n <= |keys| && forall k <- keys :: k in rows
    ensures r <= n
  {
    if n == 0 then 0
    else Rank(keys, rows, source, n - 1) + if rows[keys[n - 1]].source == source then 1 else 0
  }

  /** The i-th listed row is old, unprotected history inside the snapshots root. */
  predicate Removable(
    keys: seq<SnapshotKey>, rows: Rows, referenced: set<SnapshotKey>, retain: nat, cutoff: Option<Timestamp>, i: nat)
    requires i < |keys| && forall k <- keys :: k in rows
  {
    var row := rows[keys[i]];
    && Rank(keys, rows, row.source, i) >= retain
    && !row.active
    && !row.pinned
    && keys[i] !in referenced
    && (cutoff.Some? ==> row.created < cutoff.value)
    && row.location.Inside?
  }

  /** The keys removed among the first `n` listed rows. */
  function Removed(
    keys: seq<SnapshotKey>, rows: Rows, referenced: set<SnapshotKey>, retain: nat, cutoff: Option<Timestamp>, n: nat)
    : set<SnapshotKey>
    requires n <= |keys| && forall k <- keys :: k in rows
  {
    if n == 0 then {}
    else
      var removed := Removed(keys, rows, referenced, retain, cutoff, n - 1);
      if Removable(keys, rows, referenced, retain, cutoff, n - 1) then removed + {keys[n - 1]} else removed
  }

  /** A row is removed if and only if it is removable. */
  lemma {:induction false} RemovedExactly(
    keys: seq<SnapshotKey>, rows: Rows, referenced: set<SnapshotKey>, retain: nat, cutoff: Option<Timestamp>,
    n: nat, i: nat)
    requires i < |keys| && n <= |keys| && IsListing(keys, rows)
    ensures keys[i] in Removed(keys, rows, referenced, retain, cutoff, n)
            <==> i < n && Removable(keys, rows, referenced, retain, cutoff, i)
  {
    if n > 0 {
      RemovedExactly(keys, rows, referenced, retain, cutoff, n - 1, i);
    }
  }

  /** The rank of a listed row is the number of newer rows of its source. */
  lemma {:induction false} RankIsNewerRows(keys: seq<SnapshotKey>, rows: Rows, source: SourceId, n: nat)
    requires n <= |keys| && forall k <- keys :: k in rows
    ensures Rank(keys, rows, source, n) == |set j | 0 <= j < n && rows[keys[j]].source == source|
  {
    if n > 0 {
      RankIsNewerRows(keys, rows, source, n - 1);
      OneMorePosition(keys, rows, source, n - 1);
    }
  }

  lemma OneMorePosition(keys: seq<SnapshotKey>, rows: Rows, source: SourceId, n: nat)
    requires n < |keys| && forall k <- keys :: k in rows
    ensures |set j | 0 <= j < n + 1 && rows[keys[j]].source == source|
         == |set j | 0 <= j < n && rows[keys[j]].source == source| + if rows[keys[n]].source == source then 1 else 0
  {
    var before := set j | 0 <= j < n && rows[keys[j]].source == source;
    var all := set j | 0 <= j < n + 1 && rows[keys[j]].source == source;
    assert all == if rows[keys[n]].source == source then before + {n} else before;
  }

  /**
   What the collector removes of a listing, row by row: what has at least the retained number of newer rows
   of its source, is neither active nor pinned nor referenced, is older than the cutoff if there is one, and
   lies inside the snapshots root.
   */
  lemma RemovalMeans(
    keys: seq<SnapshotKey>, rows: Rows, referenced: set<SnapshotKey>, retain: nat, cutoff: Option<Timestamp>, i: nat)
    requires i < |keys| && IsListing(keys, rows)
    ensures keys[i] in Removed(keys, rows, referenced, retain, cutoff, |keys|)
            <==> && |set j | 0 <= j < i && rows[keys[j]].source == rows[keys[i]].source| >= retain
                 && !rows[keys[i]].active
                 && !rows[keys[i]].pinned
                 && keys[i] !in referenced
                 && (cutoff.Some? ==> rows[keys[i]].created < cutoff.value)
                 && rows[keys[i]].location.Inside?
  {
    RemovedExactly(keys, rows, referenced, retain, cutoff, |keys|, i);
    RankIsNewerRows(keys, rows, rows[keys[i]].source, i);
  }

  /** The total size of the indexed snapshots, counted in an arbitrary order. */
  ghost function SumBytes(rows: Rows): nat {
    if rows == map[] then 0
    else
      var k :| k in rows;
      rows[k].bytes + SumBytes(rows - {k})
  }

  lemma {:induction false} SumBytesRemove(rows: Rows, key: SnapshotKey)
    requires key in rows
    ensures SumBytes(rows) == rows[key].bytes + SumBytes(rows - {key})
    decreases |rows|
  {
    var k :| k in rows && SumBytes(rows) == rows[k].bytes + SumBytes(rows - {k});
    if k != key {
      SumBytesRemove(rows - {k}, key);
      SumBytesRemove(rows - {key}, k);
      assert rows - {k} - {key} == rows - {key} - {k};
    }
  }

  function Count(retained: map<SourceId, nat>, source: SourceId): nat {
    if source in retained then retained[source] else 0
  }

  /** The loop's count of the rows it has kept, per source. */
  function Tally(
    keys: seq<SnapshotKey>, rows: Rows, referenced: set<SnapshotKey>, retain: nat, n: nat)
    : map<SourceId, nat>
    requires n <= |keys| && forall k <- keys :: k in rows
  {
    if n == 0 then map[]
    else
      var retained := Tally(keys, rows, referenced, retain, n - 1);
      var row := rows[keys[n - 1]];
      var kept := Count(retained, row.source);
      if row.active || row.pinned || kept < retain || keys[n - 1] in referenced
      then retained[row.source := kept + 1]
      else retained
  }

  /** The count of kept rows says exactly whether a row's rank is within the retained history. */
  lemma {:induction false} TallyTracksRank(
    keys: seq<SnapshotKey>, rows: Rows, referenced: set<SnapshotKey>, retain: nat, source: SourceId, n: nat)
    requires n <= |keys| && forall k <- keys :: k in rows
    ensures var kept := Count(Tally(keys, rows, referenced, retain, n), source);
            var rank := Rank(keys, rows, source, n);
            kept <= rank && (rank <= retain ==> kept == rank) && (rank >= retain ==> kept >= retain)
  {
    if n > 0 {
      TallyTracksRank(keys, rows, referenced, retain, source, n - 1);
    }
  }

  lemma CollectorStarts(
    keys: seq<SnapshotKey>, rows: Rows, referenced: set<SnapshotKey>, retain: nat, cutoff: Option<Timestamp>)
    requires IsListing(keys, rows)
    ensures Removed(keys, rows, referenced, retain, cutoff, 0) == {}
    ensures Tally(keys, rows, referenced, retain, 0) == map[]
    ensures forall k <- keys :: k in rows
  {
  }

  lemma CollectorStep(
    keys: seq<SnapshotKey>, rows: Rows, referenced: set<SnapshotKey>, retain: nat, cutoff: Option<Timestamp>, n: nat)
    requires n < |keys| && IsListing(keys, rows)
    ensures keys[n] !in Removed(keys, rows, referenced, retain, cutoff, n)
    ensures Removed(keys, rows, referenced, retain, cutoff, n + 1)
            == if Removable(keys, rows, referenced, retain, cutoff, n)
               then Removed(keys, rows, referenced, retain, cutoff, n) + {keys[n]}
               else Removed(keys, rows, referenced, retain, cutoff, n)
  {
    RemovedExactly(keys, rows, referenced, retain, cutoff, n, n);
  }

  /** One pass of the collector's loop: whether to remove the row, and the updated count of kept rows. */
  method Examine(
    keys: seq<SnapshotKey>, rows: Rows, referenced: set<SnapshotKey>, retain: nat, cutoff: Option<Timestamp>,
    i: nat, retained: map<SourceId, nat>)
    returns (remove: bool, counted: map<SourceId, nat>)
    requires i < |keys| && forall k <- keys :: k in rows
    requires retained == Tally(keys, rows, referenced, retain, i)
    ensures remove == Removable(keys, rows, referenced, retain, cutoff, i)
    ensures counted == Tally(keys, rows, referenced, retain, i + 1)
  {
    var row := rows[keys[i]];
    var kept := Count(retained, row.source);
    TallyTracksRank(keys, rows, referenced, retain, row.source, i);
    if row.active || row.pinned || kept < retain || keys[i] in referenced {
      return false, retained[row.source := kept + 1];
    }
    if cutoff.Some? && row.created >= cutoff.value {
      return false, retained;
    }
    return row.location.Inside?, retained;
  }
}
