/** The snapshot store: directories on disk, and the operations that keep the index in step with them. */
module Store {
  import opened Outcomes
  import opened Identity
  import opened Snapshots
  import opened Index
  import opened State
  import opened Retention

  type Directories = map<SnapshotKey, Directory>

  datatype Mode = Auto | RefreshAll | Cached | Offline
  datatype Action = Reuse | Refresh | Missing
  datatype Decision = Decision(request: Request, action: Action, snapshot: Option<Snapshot>)

  predicate IsLocalOnly(mode: Mode) {
    mode == Offline || mode == Cached
  }

  // ---------- decisions ----------

  function At(directories: Directories, key: SnapshotKey): Option<Directory> {
    if key in directories then Some(directories[key]) else None
  }

  /** The snapshot an indexed row stands for, when it is committed and its files are intact. */
  function Usable(rows: Rows, directories: Directories, integrity: Integrity, key: Option<SnapshotKey>)
    : Option<Snapshot>
  {
    if key.Some? && key.value in rows && rows[key.value].state == Committed && rows[key.value].location.Inside?
    then Read(At(directories, rows[key.value].location.key), integrity)
    else None
  }

  predicate Expired(s: Snapshot, ttl: int, now: Timestamp) {
    (if s.expires.Some? then Min(s.Observed() + ttl, s.expires.value) else s.Observed() + ttl) <= now
  }

  /** What to do about a request, given the candidate snapshot that was found for it. */
  function Judge(
    request: Request, fingerprint: Fingerprint, mode: Mode, explicit: bool, found: Option<Snapshot>, expired: bool)
    : Decision
  {
    if explicit && found.None? then Decision(request, Missing, None)
    else if found.Some? && found.value.fingerprint != fingerprint then Decision(request, Missing, None)
    else if mode == RefreshAll then Decision(request, Refresh, found)
    else if found.Some? && (IsLocalOnly(mode) || !expired) then Decision(request, Reuse, found)
    else if IsLocalOnly(mode) then Decision(request, Missing, None)
    else Decision(request, Refresh, found)
  }

  ghost function Candidate(rows: Rows, request: Request, provider: string, id: Option<SnapshotKey>)
    : Option<SnapshotKey>
  {
    if id.Some? then id else ActiveSnapshot(rows, request.source, RequestFingerprint(request, provider))
  }

  ghost function DecisionFor(
    rows: Rows, directories: Directories, integrity: Integrity, ttl: int, now: Timestamp,
    request: Request, provider: string, mode: Mode, id: Option<SnapshotKey>)
    : Decision
  {
    var found := Usable(rows, directories, integrity, Candidate(rows, request, provider, id));
    Judge(request, RequestFingerprint(request, provider), mode, id.Some?, found,
          found.Some? && Expired(found.value, ttl, now))
  }

  /** The explicitly chosen row, or the active row of the request. */
  predicate IsCandidate(rows: Rows, request: Request, provider: string, id: Option<SnapshotKey>, key: SnapshotKey) {
    if id.Some? then key == id.value
    else IsActive(rows, request.source, RequestFingerprint(request, provider), key)
  }

  /** A candidate whose files are intact and that was captured with this very request. */
  ghost predicate Matches(
    rows: Rows, directories: Directories, integrity: Integrity, request: Request, provider: string,
    id: Option<SnapshotKey>, s: Snapshot)
  {
    && s.fingerprint == RequestFingerprint(request, provider)
    && exists key :: IsCandidate(rows, request, provider, id, key)
                     && Usable(rows, directories, integrity, Some(key)) == Some(s)
  }

  /**
   When a request is served from the cache, when it is missing, and when it is extracted. An intact
   match is reused unless a refresh is asked for or it has expired, which local modes ignore; a
   source is never extracted in local modes, nor in place of a snapshot that was chosen explicitly
   and is not intact, nor of a candidate that was captured with another request.
   */
  lemma DecidesExactly(
    rows: Rows, directories: Directories, integrity: Integrity, ttl: int, now: Timestamp,
    request: Request, provider: string, mode: Mode, id: Option<SnapshotKey>)
    requires RowsValid(rows)
    ensures var d := DecisionFor(rows, directories, integrity, ttl, now, request, provider, mode, id);
            && (d.action == Reuse <==>
                  && mode != RefreshAll
                  && exists s :: Matches(rows, directories, integrity, request, provider, id, s)
                                 && (IsLocalOnly(mode) || !Expired(s, ttl, now)))
            && (d.action == Reuse ==>
                  d.snapshot.Some? && Matches(rows, directories, integrity, request, provider, id, d.snapshot.value))
            && (d.action == Refresh ==> !IsLocalOnly(mode))
            && (d.action == Refresh && id.Some? ==>
                  exists s :: Matches(rows, directories, integrity, request, provider, id, s))
  {
    hide Read, Expired, RequestFingerprint;
    var key := Candidate(rows, request, provider, id);
    var found := Usable(rows, directories, integrity, key);
    OneCandidate(rows, request, provider, id);
    hide RowsValid, IsActive, IsCandidate, Usable;
    assert found.Some? ==> key.Some?;
    if found.Some? && found.value.fingerprint == RequestFingerprint(request, provider) {
      assert Matches(rows, directories, integrity, request, provider, id, found.value);
    }
  }

  /** There is at most one candidate: the one looked up. */
  lemma OneCandidate(rows: Rows, request: Request, provider: string, id: Option<SnapshotKey>)
    requires RowsValid(rows)
    ensures forall key :: IsCandidate(rows, request, provider, id, key) <==>
              Candidate(rows, request, provider, id) == Some(key)
  {
  }

  /** Some unusable rows were marked corrupt, and nothing else happened. */
  ghost predicate MarksOnly(before: Rows, after: Rows, directories: Directories, integrity: Integrity) {
    && before.Keys == after.Keys
    && (forall k <- before ::
          after[k] == before[k]
          || (Usable(before, directories, integrity, Some(k)).None?
              && after[k] == before[k].(state := Corrupt, active := false)))
  }

  /** Exactly the candidate's row is marked, if it is a committed one that does not read back. */
  ghost predicate MarksCandidate(
    before: Rows, after: Rows, directories: Directories, integrity: Integrity, request: Request, provider: string,
    id: Option<SnapshotKey>)
  {
    && before.Keys == after.Keys
    && forall key <- before ::
         after[key] == if IsCandidate(before, request, provider, id, key)
                          && before[key].state == Committed
                          && Usable(before, directories, integrity, Some(key)).None?
                       then before[key].(state := Corrupt, active := false)
                       else before[key]
  }

  lemma MarkingCandidate(
    rows: Rows, directories: Directories, integrity: Integrity, request: Request, provider: string,
    id: Option<SnapshotKey>)
    requires RowsValid(rows)
    ensures var candidate := Candidate(rows, request, provider, id);
            var after := if candidate.Some? && candidate.value in rows && rows[candidate.value].state == Committed
                            && Usable(rows, directories, integrity, candidate).None?
                         then Index.MarkCorrupt(rows, candidate.value) else rows;
            MarksCandidate(rows, after, directories, integrity, request, provider, id)
  {
    OneCandidate(rows, request, provider, id);
    hide IsCandidate, Candidate, Read, RowsValid;
  }

  lemma MarksOnlyTransitive(a: Rows, b: Rows, c: Rows, directories: Directories, integrity: Integrity)
    requires MarksOnly(a, b, directories, integrity) && MarksOnly(b, c, directories, integrity)
    ensures MarksOnly(a, c, directories, integrity)
  {
    forall k <- a ensures c[k] == a[k]
                          || (Usable(a, directories, integrity, Some(k)).None?
                              && c[k] == a[k].(state := Corrupt, active := false))
    {
    }
  }

  lemma NothingMarked(rows: Rows, directories: Directories, integrity: Integrity)
    ensures MarksOnly(rows, rows, directories, integrity)
  {
  }

  lemma MarkIsMark(rows: Rows, directories: Directories, integrity: Integrity, key: SnapshotKey)
    requires Usable(rows, directories, integrity, Some(key)).None?
    ensures MarksOnly(rows, Index.MarkCorrupt(rows, key), directories, integrity)
  {
  }

  lemma MarksActivateNothing(before: Rows, after: Rows, directories: Directories, integrity: Integrity)
    requires MarksOnly(before, after, directories, integrity)
    ensures ActivatesNothing(before, after)
    ensures RowsValid(before) ==> RowsValid(after)
    ensures AllRowsAuthentic(before) ==> AllRowsAuthentic(after)
  {
  }

  /** Marking rows corrupt, as earlier decisions do, never changes a later decision. */
  lemma DecisionsAreStable(
    rows: Rows, marked: Rows, directories: Directories, integrity: Integrity, ttl: int, now: Timestamp,
    request: Request, provider: string, mode: Mode, id: Option<SnapshotKey>)
    requires RowsValid(rows) && MarksOnly(rows, marked, directories, integrity)
    ensures DecisionFor(marked, directories, integrity, ttl, now, request, provider, mode, id)
         == DecisionFor(rows, directories, integrity, ttl, now, request, provider, mode, id)
  {
    var before, after := Candidate(rows, request, provider, id), Candidate(marked, request, provider, id);
    assert Usable(marked, directories, integrity, after) == Usable(rows, directories, integrity, before) by {
      var fingerprint := RequestFingerprint(request, provider);
      if id.None? && after.Some? {
        assert IsActive(rows, request.source, fingerprint, after.value);
      } else if id.None? && before.Some? {
        assert marked[before.value] != rows[before.value];
      }
    }
  }

  // ---------- captures ----------

  /** What a connector delivers: batches, and possibly an error after them. */
  datatype Extraction = Extraction(batches: seq<Table>, ending: Option<Error>, version: Option<string>)

  /**
   A capture is written; or it is rejected with one of the errors the code names; or it is cut short,
   because the process dies or a file or the index cannot be written, which leaves the same disk and
   index behind.
   */
  datatype Outcome = Written(snapshot: Snapshot) | Rejected(error: Error) | Crashed

  function KeyOf(request: Request, provider: string, version: Option<string>, content: seq<Table>): SnapshotKey
    requires content != []
  {
    SnapshotKey(RequestFingerprint(request, provider), content[0].schema, version, content)
  }

  /** Equal keys mean the same request to the same provider, the same version and the same contents. */
  lemma KeysDistinguish(
    request: Request, provider: string, version: Option<string>, content: seq<Table>,
    request': Request, provider': string, version': Option<string>, content': seq<Table>)
    requires content != [] && content' != []
    ensures KeyOf(request, provider, version, content) == KeyOf(request', provider', version', content')
            <==> provider == provider' && SameRequest(request, request') && version == version' && content == content'
  {
    FingerprintsDistinguish(request, provider, request', provider');
    hide RequestFingerprint;
  }

  function SnapshotOf(
    request: Request, provider: string, extraction: Extraction, integrity: Integrity, pinned: bool,
    started: Timestamp, completed: Timestamp, expires: Timestamp)
    : Snapshot
    requires extraction.batches != []
  {
    var key := KeyOf(request, provider, extraction.version, extraction.batches);
    Snapshot(
      key, key.fingerprint, key.content, request, provider, key.schema, key.version, FilesOf(key.content, integrity),
      started, completed, Some(expires), SumRows(key.content), SumStored(key.content), None, None, pinned, None)
  }

  /** The finished pending directory is complete, and reads back as the snapshot it was made for. */
  lemma FreshCapture(
    request: Request, provider: string, extraction: Extraction, integrity: Integrity, pinned: bool,
    started: Timestamp, completed: Timestamp, expires: Timestamp)
    requires extraction.batches != [] && extraction.ending == None && request.projection != Some([])
    ensures var s := SnapshotOf(request, provider, extraction, integrity, pinned, started, completed, expires);
            var d := Directory(Some(Print(s)), true, StoredFiles(extraction.batches), None);
            && Complete(d, s.key, integrity)
            && Read(Some(d), integrity) == Some(s)
            && CapturedBy(s, request, provider, extraction, pinned, completed)
            && s.created == started
            && s.completed == completed
            && s.expires == Some(expires)
            && s.pinned == pinned
            && s.verified == None
  {
    var s := SnapshotOf(request, provider, extraction, integrity, pinned, started, completed, expires);
    PrintThenParse(s);
    CompleteReads(Directory(Some(Print(s)), true, StoredFiles(extraction.batches), None), s.key, integrity);
  }

  /** The pin sets one flag of metadata.json and leaves the rest as it was. */
  function Pinned(d: Directory): Directory {
    if d.metadata.Some? then d.(metadata := Some(d.metadata.value.(pinned := true))) else d
  }

  /** `os.replace` of observation.json. */
  function Observe(d: Directory, receipt: Receipt): Directory {
    d.(observation := Some(receipt))
  }

  // ---------- the states a capture passes through ----------

  /** The disk and the index between two effects. */
  datatype Pause = Pause(directories: Directories, rows: Rows)

  function Finished(s: Snapshot): Directory {
    Directory(Some(Print(s)), true, StoredFiles(s.key.content), None)
  }

  function Renewed(s: Snapshot, verified: Timestamp, expires: Timestamp): Snapshot {
    s.(verified := Some(verified), expires := Some(expires))
  }

  function Replaced(p: Pause, key: SnapshotKey, d: Directory): Pause {
    p.(directories := p.directories[key := d])
  }

  /** The rename, then the row. */
  function Installing(p: Pause, s: Snapshot): seq<Pause> {
    var renamed := Replaced(p, s.key, Finished(s));
    [p, renamed, renamed.(rows := Record(p.rows, s, Inside(s.key)))]
  }

  /** The metadata, then the row. */
  function Pinning(p: Pause, key: SnapshotKey): seq<Pause>
    requires key in p.directories
  {
    var rewritten := Replaced(p, key, Pinned(p.directories[key]));
    [p, rewritten, rewritten.(rows := SetPinned(p.rows, key))]
  }

  /** The receipt, then the row. */
  function Receiving(p: Pause, s: Snapshot, verified: Timestamp, expires: Timestamp): seq<Pause>
    requires s.key in p.directories
  {
    var received := Replaced(p, s.key, Observe(p.directories[s.key], Receipt(s.key, verified, expires)));
    [p, received, received.(rows := Record(p.rows, Renewed(s, verified, expires), Inside(s.key)))]
  }

  /** An identical input: validated, pinned if that is asked for and new, and received. */
  function Reverifying(
    p: Pause, key: SnapshotKey, integrity: Integrity, pinned: bool, verified: Timestamp, expires: Timestamp)
    : seq<Pause>
    requires key in p.directories
  {
    var found := Read(At(p.directories, key), integrity);
    if found.None? || found.value.key != key then [p]
    else if !pinned || found.value.pinned then Receiving(p, found.value, verified, expires)
    else
      var pinning := Pinning(p, key);
      pinning[..2] + Receiving(pinning[2], found.value.(pinned := true), verified, expires)
  }

  /** From the finished capture `s` on, whether its directory is new or there already. */
  function Capturing(
    p: Pause, s: Snapshot, integrity: Integrity, pinned: bool, verified: Timestamp, expires: Timestamp): seq<Pause>
  {
    if s.key in p.directories then Reverifying(p, s.key, integrity, pinned, verified, expires) else Installing(p, s)
  }

  /** `after` is `before`, apart from its pin and its observation receipt. */
  predicate SameCapture(before: Directory, after: Directory) {
    after.(metadata := None, observation := None) == before.(metadata := None, observation := None)
    && before.metadata.Some? == after.metadata.Some?
    && (before.metadata.Some? ==>
          after.metadata.value.(pinned := true) == before.metadata.value.(pinned := true))
  }

  /** The row of a snapshot holds what is read back from its directory. */
  predicate Agrees(row: Row, s: Snapshot) {
    && row.source == s.Source()
    && row.fingerprint == s.fingerprint
    && row.expires == s.expires
    && row.rows == s.rows
    && row.bytes == s.bytes
    && row.pinned == s.pinned
    && row.location == Inside(s.key)
  }

  predicate RowAuthentic(key: SnapshotKey, row: Row) {
    && row.source == Source(key)
    && row.fingerprint == key.fingerprint
    && (row.location.Inside? ==> row.location.key == key)
  }

  lemma ActivatedIsAuthentic(rows: Rows, members: map<SourceId, SnapshotKey>)
    requires AllRowsAuthentic(rows)
    ensures AllRowsAuthentic(Activated(rows, members))
  {
  }

  /** Nothing that was captured before is lost or replaced, and whatever is new is complete. */
  ghost predicate Preserved(before: Directories, after: Directories, integrity: Integrity) {
    && (forall k <- before :: k in after && SameCapture(before[k], after[k]))
    && (forall k <- after :: k !in before ==> Complete(after[k], k, integrity))
  }

  /** No row becomes active, and no row disappears. */
  ghost predicate ActivatesNothing(before: Rows, after: Rows) {
    && (forall k <- before :: k in after)
    && (forall k <- after :: after[k].active ==> k in before && before[k].active)
  }

  predicate DiskPinned(d: Directory) {
    d.metadata.Some? && d.metadata.value.pinned
  }

  /** Nothing is pinned that was not; a row may catch up with its directory. */
  ghost predicate NoNewPin(d: Directories, r: Rows, directories: Directories, rows: Rows) {
    && (forall k <- directories :: DiskPinned(directories[k]) ==> k in d && DiskPinned(d[k]))
    && (forall k <- rows :: rows[k].pinned ==> (k in r && r[k].pinned) || (k in d && DiskPinned(d[k])))
  }

  lemma NoNewPinTransitive(
    d: Directories, r: Rows, d': Directories, r': Rows, directories: Directories, rows: Rows)
    requires NoNewPin(d, r, d', r') && NoNewPin(d', r', directories, rows)
    ensures NoNewPin(d, r, directories, rows)
  {
  }

  /** A capture that is not to be pinned pins nothing. */
  lemma CapturingPinsNothing(
    p: Pause, s: Snapshot, integrity: Integrity, verified: Timestamp, expires: Timestamp)
    requires !s.pinned
    ensures forall q <- Capturing(p, s, integrity, false, verified, expires) ::
              NoNewPin(p.directories, p.rows, q.directories, q.rows)
  {
    hide Validates;
  }

  ghost predicate AllAuthentic(directories: Directories) {
    forall k <- directories :: Authentic(directories[k], k)
  }

  ghost predicate AllRowsAuthentic(rows: Rows) {
    forall k <- rows :: RowAuthentic(k, rows[k])
  }

  lemma NothingHappens(directories: Directories, rows: Rows, integrity: Integrity)
    ensures Preserved(directories, directories, integrity) && ActivatesNothing(rows, rows)
  {
  }

  /** An existing directory changes in its pin or its receipt only. */
  lemma ReplacePreserves(directories: Directories, key: SnapshotKey, d: Directory, integrity: Integrity)
    requires AllAuthentic(directories) && key in directories && Authentic(d, key) && SameCapture(directories[key], d)
    ensures AllAuthentic(directories[key := d]) && Preserved(directories, directories[key := d], integrity)
    ensures directories[key := d].Keys == directories.Keys
  {
    hide Authentic, Complete;
  }

  /** A complete directory appears. */
  lemma InstallPreserves(directories: Directories, key: SnapshotKey, d: Directory, integrity: Integrity)
    requires AllAuthentic(directories) && key !in directories && Complete(d, key, integrity)
    ensures AllAuthentic(directories[key := d]) && Preserved(directories, directories[key := d], integrity)
  {
    assert Authentic(d, key);
    hide Authentic, Complete;
  }

  lemma RecordFits(rows: Rows, s: Snapshot)
    requires AllRowsAuthentic(rows) && Describes(s, s.key)
    ensures var after := Record(rows, s, Inside(s.key));
            && AllRowsAuthentic(after)
            && ActivatesNothing(rows, after)
            && s.key in after
            && after[s.key].state == Committed
            && Agrees(after[s.key], s)
            && (forall k <- after :: k != s.key ==> k in rows && after[k] == rows[k])
  {
    var after := Record(rows, s, Inside(s.key));
    assert s.key in rows ==> RowAuthentic(s.key, rows[s.key]);
    assert forall k <- after :: k != s.key ==> k in rows && after[k] == rows[k];
  }

  lemma KeyAuthentic(directories: Directories, key: SnapshotKey)
    requires AllAuthentic(directories) && key in directories
    ensures Authentic(directories[key], key)
  {
  }

  lemma SetPinnedFits(rows: Rows, key: SnapshotKey)
    requires AllRowsAuthentic(rows)
    ensures AllRowsAuthentic(SetPinned(rows, key)) && ActivatesNothing(rows, SetPinned(rows, key))
  {
  }

  lemma PreservedTransitive(a: Directories, b: Directories, c: Directories, integrity: Integrity)
    requires Preserved(a, b, integrity) && Preserved(b, c, integrity)
    requires AllAuthentic(c)
    ensures Preserved(a, c, integrity)
  {
    forall k <- c | k !in a ensures Complete(c[k], k, integrity) {
      if k in b {
        assert SameCapture(b[k], c[k]);
      }
    }
  }

  /** The collector's progress: exactly `gone` has left disk and index, and was counted. */
  ghost predicate Collected(
    rows: Rows, directories: Directories, gone: set<SnapshotKey>,
    rowsLeft: Rows, directoriesLeft: Directories, count: nat, bytes: nat)
  {
    && rowsLeft == rows - gone
    && directoriesLeft == directories - gone
    && gone <= directories.Keys
    && count == |gone|
    && SumBytes(rowsLeft) + bytes == SumBytes(rows)
  }

  lemma NothingCollected(rows: Rows, directories: Directories)
    ensures Collected(rows, directories, {}, rows, directories, 0, 0)
  {
  }

  lemma StillCollected(
    rows: Rows, directories: Directories, gone: set<SnapshotKey>,
    rowsLeft: Rows, directoriesLeft: Directories, count: nat, bytes: nat, key: SnapshotKey)
    requires Collected(rows, directories, gone, rowsLeft, directoriesLeft, count, bytes)
    requires key !in directoriesLeft && key !in gone
    ensures key !in directories
  {
  }

  lemma CollectOne(
    rows: Rows, directories: Directories, gone: set<SnapshotKey>,
    rowsLeft: Rows, directoriesLeft: Directories, count: nat, bytes: nat, key: SnapshotKey)
    requires Collected(rows, directories, gone, rowsLeft, directoriesLeft, count, bytes)
    requires key in rows && key !in gone && key in directories
    ensures Collected(rows, directories, gone + {key}, rowsLeft - {key}, directoriesLeft - {key},
                      count + 1, bytes + rows[key].bytes)
  {
    SumBytesRemove(rowsLeft, key);
    assert rowsLeft - {key} == rows - (gone + {key});
    assert directoriesLeft - {key} == directories - (gone + {key});
  }

  lemma PinReads(d: Directory, key: SnapshotKey, s: Snapshot, integrity: Integrity)
    requires Authentic(d, key) && Load(d) == Success(s)
    ensures Authentic(Pinned(d), key) && SameCapture(d, Pinned(d))
    ensures Load(Pinned(d)) == Success(s.(pinned := true))
    ensures Validates(d, s, integrity) ==> Validates(Pinned(d), s.(pinned := true), integrity)
  {
  }

  lemma ObserveReads(d: Directory, key: SnapshotKey, receipt: Receipt, s: Snapshot, integrity: Integrity)
    requires Authentic(d, key) && Load(d) == Success(s) && Validates(d, s, integrity) && receipt.key == key
    ensures Authentic(Observe(d, receipt), key) && SameCapture(d, Observe(d, receipt))
    ensures Read(Some(Observe(d, receipt)), integrity)
            == Some(s.(verified := Some(receipt.verified), expires := Some(receipt.expires)))
    ensures Describes(s, key)
  {
  }

  /** `s` is on disk and in the index, in step, and nothing else has changed. */
  ghost predicate Captures(
    d: Directories, r: Rows, directories: Directories, rows: Rows, integrity: Integrity, s: Snapshot)
  {
    && s.key in directories
    && Read(Some(directories[s.key]), integrity) == Some(s)
    && (forall k <- d :: k != s.key ==> k in directories && directories[k] == d[k])
    && s.key in rows
    && rows[s.key].state == Committed
    && Agrees(rows[s.key], s)
    && (forall k <- rows :: k != s.key ==> k in r && rows[k] == r[k])
  }

  lemma RecordCaptures(d: Directories, r: Rows, directories: Directories, integrity: Integrity, s: Snapshot)
    requires AllRowsAuthentic(r) && Describes(s, s.key)
    requires s.key in directories && Read(Some(directories[s.key]), integrity) == Some(s)
    requires forall k <- d :: k != s.key ==> k in directories && directories[k] == d[k]
    ensures Captures(d, r, directories, Record(r, s, Inside(s.key)), integrity, s)
  {
    RecordFits(r, s);
    hide Read, Record, Agrees, Describes, AllRowsAuthentic;
  }

  /** Capturing again after the pin of the same snapshot. */
  lemma PinnedCaptures(
    d: Directories, r: Rows, directories: Directories, rows: Rows, integrity: Integrity, s: Snapshot)
    requires s.key in d
    requires Captures(d[s.key := Pinned(d[s.key])], SetPinned(r, s.key), directories, rows, integrity, s)
    ensures Captures(d, r, directories, rows, integrity, s)
  {
    hide Read, Agrees, Pinned;
  }

  lemma ActivatesNothingTransitive(a: Rows, b: Rows, c: Rows)
    requires ActivatesNothing(a, b) && ActivatesNothing(b, c)
    ensures ActivatesNothing(a, c)
  {
  }

  lemma RenewedIsDescribed(s: Snapshot, verified: Timestamp, expires: Timestamp)
    requires Describes(s, s.key)
    ensures var renewed := Renewed(s, verified, expires);
            Describes(renewed, s.key) && renewed.Observed() == verified
  {
  }

  lemma ReadIs(directories: Directories, key: SnapshotKey, integrity: Integrity)
    requires key in directories
    ensures var loaded := Load(directories[key]);
            Read(At(directories, key), integrity)
            == if loaded.Success? && Validates(directories[key], loaded.value, integrity) then Some(loaded.value)
               else None
    ensures At(directories, key) == Some(directories[key])
  {
  }

  lemma DescribedKey(s: Snapshot, key: SnapshotKey)
    requires Describes(s, key)
    ensures s.key == key
  {
  }

  /** Which states an identical input passes through, case by case. */
  lemma ReverifyingIs(
    p: Pause, key: SnapshotKey, integrity: Integrity, pinned: bool, verified: Timestamp, expires: Timestamp)
    requires key in p.directories
    ensures var found := Read(At(p.directories, key), integrity);
            var pauses := Reverifying(p, key, integrity, pinned, verified, expires);
            && |pauses| > 0
            && (found.None? ==> p in pauses)
            && (found.Some? && found.value.key == key ==>
                  if !pinned || found.value.pinned then pauses == Receiving(p, found.value, verified, expires)
                  else
                    var pinning := Pinning(p, key);
                    var rest := Receiving(pinning[2], found.value.(pinned := true), verified, expires);
                    && (forall q <- pinning + rest :: q in pauses)
                    && pauses[|pauses| - 1] == rest[|rest| - 1])
  {
    hide Read, Pinned, Observe, Record, Index.SetPinned;
    var found := Read(At(p.directories, key), integrity);
    var pauses := Reverifying(p, key, integrity, pinned, verified, expires);
    PauseAt(pauses);
    if found.Some? && found.value.key == key && pinned && !found.value.pinned {
      var pinning := Pinning(p, key);
      var rest := Receiving(pinning[2], found.value.(pinned := true), verified, expires);
      assert pauses == pinning[..2] + rest;
      assert pauses[0] == pinning[0] && pauses[1] == pinning[1] && pauses[2] == rest[0] == pinning[2];
      assert pauses[3] == rest[1] && pauses[4] == rest[2];
    }
  }

  lemma PauseAt(pauses: seq<Pause>)
    ensures forall i :: 0 <= i < |pauses| ==> pauses[i] in pauses
  {
  }

  class SnapshotStore {
    const state: StateIndex
    const ttl: nat
    const integrity: Integrity
    const maximumSize: nat
    const retainPrevious: nat
    /** Directories under the snapshots root; the key determines the path. */
    var directories: Directories
    /** Directories under the temporary root. */
    var pending: map<nat, Directory>

    ghost predicate Valid()
      reads this, state
    {
      && state.Valid()
      && AllAuthentic(directories)
      && AllRowsAuthentic(state.rows)
    }

    constructor (state: StateIndex, ttl: nat, integrity: Integrity, maximumSize: nat, retainPrevious: nat)
      requires state.Valid() && state.rows == map[]
      ensures Valid() && directories == map[] && pending == map[]
      ensures this.state == state && this.ttl == ttl && this.integrity == integrity
      ensures this.maximumSize == maximumSize && this.retainPrevious == retainPrevious
    {
      this.state, this.ttl, this.integrity := state, ttl, integrity;
      this.maximumSize, this.retainPrevious := maximumSize, retainPrevious;
      directories, pending := map[], map[];
    }

    method CurrentSize() returns (size: nat)
      ensures size == SumBytes(state.rows)
    {
      var rows := state.rows;
      size := 0;
      while rows != map[]
        invariant size + SumBytes(rows) == SumBytes(state.rows)
        decreases |rows|
      {
        var k :| k in rows;
        SumBytesRemove(rows, k);
        size := size + rows[k].bytes;
        rows := rows - {k};
      }
    }

    /** The decision depends on the state found; a committed row whose files are damaged is marked corrupt. */
    method Decide(request: Request, provider: string, mode: Mode, id: Option<SnapshotKey>, now: Timestamp)
      returns (decision: Decision)
      requires Valid()
      modifies state`rows
      ensures Valid()
      ensures decision == DecisionFor(old(state.rows), directories, integrity, ttl, now, request, provider, mode, id)
      ensures MarksOnly(old(state.rows), state.rows, directories, integrity)
      ensures MarksCandidate(old(state.rows), state.rows, directories, integrity, request, provider, id)
    {
      OneCandidate(state.rows, request, provider, id);
      MarkingCandidate(state.rows, directories, integrity, request, provider, id);
      hide MarksCandidate, MarksOnly, Read, AllRowsAuthentic, AllAuthentic, Index.MarkCorrupt, RowsValid, IsCandidate;
      var fingerprint := RequestFingerprint(request, provider);
      var key := id;
      if id.None? {
        key := state.ActiveSnapshot(request.source, fingerprint);
      }
      var found := None;
      NothingMarked(state.rows, directories, integrity);
      if key.Some? && key.value in state.rows && state.rows[key.value].state == Committed {
        if state.rows[key.value].location.Inside? {
          found := Read(At(directories, state.rows[key.value].location.key), integrity);
        }
        if found.None? {
          MarkIsMark(state.rows, directories, integrity, key.value);
          MarksActivateNothing(state.rows, Index.MarkCorrupt(state.rows, key.value), directories, integrity);
          state.MarkCorrupt(key.value);
        }
      }
      decision := Judge(request, fingerprint, mode, id.Some?, found, found.Some? && Expired(found.value, ttl, now));
    }

    /** Rewrites metadata.json atomically, then the index; the process may die in between. */
    method Pin(s: Snapshot) returns (outcome: Outcome)
      requires Valid() && s.key in directories
      requires Load(directories[s.key]) == Success(s)
      modifies this`directories, state`rows
      ensures Valid()
      ensures Preserved(old(directories), directories, integrity)
      ensures ActivatesNothing(old(state.rows), state.rows)
      ensures || directories == old(directories)
              || directories == old(directories)[s.key := Pinned(old(directories)[s.key])]
      ensures outcome.Written? ==>
                && outcome.snapshot == s.(pinned := true)
                && (Validates(old(directories)[s.key], s, integrity) ==>
                      Validates(directories[s.key], outcome.snapshot, integrity))
                && Load(directories[s.key]) == Success(outcome.snapshot)
                && directories == old(directories)[s.key := Pinned(old(directories)[s.key])]
                && state.rows == SetPinned(old(state.rows), s.key)
      ensures !outcome.Written? ==> outcome.Crashed? && state.rows == old(state.rows)
      ensures Pause(directories, state.rows) in Pinning(Pause(old(directories), old(state.rows)), s.key)
    {
      ghost var start := Pause(directories, state.rows);
      PauseAt(Pinning(start, s.key));
      KeyAuthentic(directories, s.key);
      PinReads(directories[s.key], s.key, s, integrity);
      ReplacePreserves(directories, s.key, Pinned(directories[s.key]), integrity);
      NothingHappens(directories, state.rows, integrity);
      SetPinnedFits(state.rows, s.key);
      hide AllAuthentic, AllRowsAuthentic, Preserved, ActivatesNothing, Load, Pinned, Validates, Index.SetPinned;
      if * {
        return Crashed;
      }
      directories := directories[s.key := Pinned(directories[s.key])];
      if * {
        return Crashed;
      }
      state.SetPinned(s.key);
      return Written(s.(pinned := true));
    }

    /** Writes every batch as a file of the pending directory, within the quota and under one schema. */
    method Stage(id: nat, extraction: Extraction) returns (outcome: Result<()>)
      requires Valid() && id in pending && pending[id] == EMPTY
      modifies this`pending
      ensures Valid()
      ensures pending.Keys == old(pending).Keys && pending - {id} == old(pending) - {id}
      ensures outcome.Success? ==>
                && extraction.batches != []
                && extraction.ending == None
                && (forall batch <- extraction.batches :: batch.schema == extraction.batches[0].schema)
                && pending == old(pending)[id := EMPTY.(files := StoredFiles(extraction.batches))]
                && SumBytes(state.rows) + SumStored(extraction.batches) <= maximumSize
      ensures outcome.Failure? ==> Refused(extraction, outcome.error, SumBytes(state.rows), maximumSize)
    {
      WhatIsRefused(extraction, SumBytes(state.rows), maximumSize);
      NothingStaged(pending, id, extraction.batches);
      hide Refused, SumBytes, SumStored, StoredFiles, AllAuthentic, AllRowsAuthentic, RowsValid;
      SumStoredNothing(extraction.batches);
      var bytes := 0;
      var i := 0;
      while i < |extraction.batches|
        invariant 0 <= i <= |extraction.batches|
        invariant bytes == SumStored(extraction.batches[..i])
        invariant pending == old(pending)[id := EMPTY.(files := StoredFiles(extraction.batches[..i]))]
        invariant i > 0 ==> SumBytes(state.rows) + bytes <= maximumSize
        invariant forall j :: 0 <= j < i ==> extraction.batches[j].schema == extraction.batches[0].schema
      {
        if * {
          return Failure(CancellationError);
        }
        var batch := extraction.batches[i];
        if batch.schema != extraction.batches[0].schema {
          return Failure(ExtractionError);
        }
        SumStoredSnoc(extraction.batches, i);
        StagedOneMore(old(pending), pending, id, extraction.batches, i);
        pending := pending[id := pending[id].(files := pending[id].files[i := batch])];
        bytes := bytes + batch.stored;
        var size := CurrentSize();
        if size + bytes > maximumSize {
          assert Exceeds(extraction.batches, i + 1, SumBytes(state.rows), maximumSize);
          hide Exceeds;
          return Failure(CacheError);
        }
        i := i + 1;
      }
      assert extraction.batches[..i] == extraction.batches;
      if extraction.ending.Some? {
        return Failure(extraction.ending.value);
      }
      if extraction.batches == [] {
        return Failure(ExtractionError);
      }
      return Success(());
    }

    /**
     Captures a request without activating it. The process may die between any two effects; a
     capture that returns is indexed, intact, and reads back as the snapshot returned.
     */
    method Write(
      request: Request, provider: string, extraction: Extraction, pinned: bool,
      id: nat, started: Timestamp, completed: Timestamp)
      returns (outcome: Outcome)
      requires Valid() && id !in pending && request.projection != Some([])
      modifies this, state`rows
      ensures Valid()
      ensures Preserved(old(directories), directories, integrity)
      ensures ActivatesNothing(old(state.rows), state.rows)
      ensures !outcome.Crashed? ==> pending == old(pending)
      ensures outcome.Rejected? ==> directories == old(directories) && state.rows == old(state.rows)
      ensures outcome.Rejected? ==>
                || Refused(extraction, outcome.error, SumBytes(old(state.rows)), maximumSize)
                || (outcome.error == CacheError
                    && extraction.batches != []
                    && var key := KeyOf(request, provider, extraction.version, extraction.batches);
                       key in old(directories) && Read(At(old(directories), key), integrity).None?)
      ensures outcome.Written? ==> CapturedBy(outcome.snapshot, request, provider, extraction, pinned, completed)
      ensures outcome.Written? ==> outcome.snapshot.expires == Some(completed + ttl)
      ensures outcome.Written? ==>
                Captures(old(directories), old(state.rows), directories, state.rows, integrity, outcome.snapshot)
      ensures !pinned ==> NoNewPin(old(directories), old(state.rows), directories, state.rows)
      ensures || (directories == old(directories) && state.rows == old(state.rows) && !outcome.Written?)
              || (extraction.batches != []
                  && var pauses := Capturing(
                       Pause(old(directories), old(state.rows)),
                       SnapshotOf(
                         request, provider, extraction, integrity, pinned, started, completed, completed + ttl),
                       integrity, pinned, completed, completed + ttl);
                     Pause(directories, state.rows) in pauses
                     && (outcome.Written? ==> Pause(directories, state.rows) == pauses[|pauses| - 1]))
    {
      hide AllAuthentic, AllRowsAuthentic, Preserved, ActivatesNothing, Captures, Read, Complete, StoredFiles,
           SumStored;
      hide Capturing, Refused, SumBytes;
      NothingHappens(directories, state.rows, integrity);
      pending := pending[id := EMPTY];
      assert pending - {id} == old(pending);
      var staged := Stage(id, extraction);
      if staged.Failure? {
        pending := pending - {id};
        return Rejected(staged.error);
      }
      var snapshot := SnapshotOf(request, provider, extraction, integrity, pinned, started, completed, completed + ttl);
      FreshCapture(request, provider, extraction, integrity, pinned, started, completed, completed + ttl);
      if !pinned {
        CapturingPinsNothing(Pause(directories, state.rows), snapshot, integrity, completed, completed + ttl);
      }
      hide NoNewPin, RequestFingerprint, FilesOf;
      var sealed := Seal(id, snapshot);
      if !sealed {
        return Crashed;
      }
      var finished := pending[id];
      pending := pending - {id};
      outcome := Settle(finished, snapshot, pinned, completed);
    }

    /** A finished capture either finds its directory there already, or is moved into place. */
    method Settle(finished: Directory, snapshot: Snapshot, pinned: bool, completed: Timestamp)
      returns (outcome: Outcome)
      requires Valid() && finished == Finished(snapshot) && Complete(finished, snapshot.key, integrity)
      requires Read(Some(finished), integrity) == Some(snapshot) && Describes(snapshot, snapshot.key)
      requires snapshot.Observed() == completed && snapshot.expires == Some(completed + ttl)
      requires snapshot.pinned == pinned
      modifies this`directories, state`rows
      ensures Valid()
      ensures Preserved(old(directories), directories, integrity)
      ensures ActivatesNothing(old(state.rows), state.rows)
      ensures outcome.Rejected? ==>
                && directories == old(directories)
                && state.rows == old(state.rows)
                && outcome.error == CacheError
                && snapshot.key in old(directories)
                && Read(At(old(directories), snapshot.key), integrity).None?
      ensures outcome.Written? ==>
                && Describes(outcome.snapshot, snapshot.key)
                && outcome.snapshot.Observed() == completed
                && outcome.snapshot.expires == Some(completed + ttl)
                && (pinned ==> outcome.snapshot.pinned)
                && Captures(old(directories), old(state.rows), directories, state.rows, integrity, outcome.snapshot)
      ensures var pauses := Capturing(Pause(old(directories), old(state.rows)), snapshot, integrity, pinned, completed,
                                      completed + ttl);
              && Pause(directories, state.rows) in pauses
              && (outcome.Written? ==> Pause(directories, state.rows) == pauses[|pauses| - 1])
    {
      hide AllAuthentic, AllRowsAuthentic, Preserved, ActivatesNothing, Captures, Read, Complete, Reverifying,
           Installing, Describes, Finished;
      if snapshot.key in directories {
        outcome := Reverify(snapshot.key, pinned, completed);
      } else {
        outcome := Install(finished, snapshot);
      }
    }

    /** Writes metadata.json and then _SUCCESS into the pending directory; false when the process dies. */
    method Seal(id: nat, s: Snapshot) returns (sealed: bool)
      requires id in pending
      modifies this`pending
      ensures pending.Keys == old(pending).Keys && pending - {id} == old(pending) - {id}
      ensures sealed ==> pending[id] == old(pending)[id].(metadata := Some(Print(s)), success := true)
    {
      pending := pending[id := pending[id].(metadata := Some(Print(s)))];
      if * {
        return false;
      }
      pending := pending[id := pending[id].(success := true)];
      sealed := *;
    }

    /** Renames the finished directory into place, then records it. */
    method Install(finished: Directory, snapshot: Snapshot) returns (outcome: Outcome)
      requires Valid() && snapshot.key !in directories
      requires Complete(finished, snapshot.key, integrity)
      requires Read(Some(finished), integrity) == Some(snapshot)
      modifies this`directories, state`rows
      ensures Valid()
      ensures Preserved(old(directories), directories, integrity)
      ensures ActivatesNothing(old(state.rows), state.rows)
      ensures !outcome.Rejected?
      ensures outcome.Written? ==>
                && outcome.snapshot == snapshot
                && Captures(old(directories), old(state.rows), directories, state.rows, integrity, snapshot)
      ensures finished == Finished(snapshot) ==>
                var pauses := Installing(Pause(old(directories), old(state.rows)), snapshot);
                && Pause(directories, state.rows) in pauses
                && (outcome.Written? ==> Pause(directories, state.rows) == pauses[|pauses| - 1])
    {
      PauseAt(Installing(Pause(directories, state.rows), snapshot));
      CompleteReads(finished, snapshot.key, integrity);
      assert Validates(finished, snapshot, integrity);
      InstallPreserves(directories, snapshot.key, finished, integrity);
      NothingHappens(directories, state.rows, integrity);
      RecordFits(state.rows, snapshot);
      RecordCaptures(directories, state.rows, directories[snapshot.key := finished], integrity, snapshot);
      hide Captures, AllAuthentic, AllRowsAuthentic, Preserved, ActivatesNothing, Read, Complete, Record, Agrees,
           Describes, Validates;
      directories := directories[snapshot.key := finished];
      if * {
        return Crashed;
      }
      if !Validates(directories[snapshot.key], snapshot, integrity) {
        return Rejected(CacheError);
      }
      state.RecordSnapshot(snapshot, Inside(snapshot.key));
      return Written(snapshot);
    }

    /** The identical input was read again: keep the capture, and record its new freshness. */
    method Reverify(key: SnapshotKey, pinned: bool, completed: Timestamp) returns (outcome: Outcome)
      requires Valid() && key in directories
      modifies this`directories, state`rows
      ensures Valid()
      ensures directories.Keys == old(directories).Keys
      ensures Preserved(old(directories), directories, integrity)
      ensures ActivatesNothing(old(state.rows), state.rows)
      ensures outcome.Rejected? ==> directories == old(directories) && state.rows == old(state.rows)
      ensures outcome.Rejected? ==> outcome.error == CacheError && Read(At(old(directories), key), integrity).None?
      ensures outcome.Written? ==>
                && Describes(outcome.snapshot, key)
                && outcome.snapshot.verified == Some(completed)
                && outcome.snapshot.expires == Some(completed + ttl)
                && (pinned ==> outcome.snapshot.pinned)
                && Captures(old(directories), old(state.rows), directories, state.rows, integrity, outcome.snapshot)
      ensures var pauses := Reverifying(
                Pause(old(directories), old(state.rows)), key, integrity, pinned, completed, completed + ttl);
              && Pause(directories, state.rows) in pauses
              && (outcome.Written? ==> Pause(directories, state.rows) == pauses[|pauses| - 1])
    {
      ReadIs(directories, key, integrity);
      ReverifyingIs(Pause(directories, state.rows), key, integrity, pinned, completed, completed + ttl);
      NothingHappens(directories, state.rows, integrity);
      KeyAuthentic(directories, key);
      AuthenticReads(At(directories, key), key, integrity);
      hide Reverifying, Receiving, Pinning, Read, Load, Validates, Describes, Captures, Preserved, ActivatesNothing,
           AllAuthentic, AllRowsAuthentic, Authentic;
      var loaded := Load(directories[key]);
      if loaded.Failure? {
        return Rejected(loaded.error);
      }
      var existing := loaded.value;
      if !Validates(directories[key], existing, integrity) {
        return Rejected(CacheError);
      }
      DescribedKey(existing, key);
      outcome := Renew(existing, pinned, completed);
    }

    /** What follows once the existing capture has been validated. */
    method Renew(existing: Snapshot, pinned: bool, completed: Timestamp) returns (outcome: Outcome)
      requires Valid() && existing.key in directories
      requires Read(At(directories, existing.key), integrity) == Some(existing)
      modifies this`directories, state`rows
      ensures Valid()
      ensures directories.Keys == old(directories).Keys
      ensures Preserved(old(directories), directories, integrity)
      ensures ActivatesNothing(old(state.rows), state.rows)
      ensures !outcome.Rejected?
      ensures outcome.Written? ==>
                && Describes(outcome.snapshot, existing.key)
                && outcome.snapshot.verified == Some(completed)
                && outcome.snapshot.expires == Some(completed + ttl)
                && (pinned ==> outcome.snapshot.pinned)
                && Captures(old(directories), old(state.rows), directories, state.rows, integrity, outcome.snapshot)
      ensures var pauses := Reverifying(
                Pause(old(directories), old(state.rows)), existing.key, integrity, pinned, completed, completed + ttl);
              && Pause(directories, state.rows) in pauses
              && (outcome.Written? ==> Pause(directories, state.rows) == pauses[|pauses| - 1])
    {
      ReverifyingIs(Pause(directories, state.rows), existing.key, integrity, pinned, completed, completed + ttl);
      hide Reverifying, Receiving, Pinning, Read, Describes, Captures, Preserved, ActivatesNothing, AllAuthentic,
           AllRowsAuthentic, Authentic, Load, Validates, RowAuthentic, Record, Pinned, Observe, Index.SetPinned;
      if !pinned || existing.pinned {
        outcome := Receive(existing, completed);
      } else {
        outcome := PinAndReceive(existing, completed);
      }
    }

    /** The pin first, then the receipt. */
    method PinAndReceive(existing: Snapshot, completed: Timestamp) returns (outcome: Outcome)
      requires Valid() && existing.key in directories
      requires Read(Some(directories[existing.key]), integrity) == Some(existing)
      modifies this`directories, state`rows
      ensures Valid()
      ensures directories.Keys == old(directories).Keys
      ensures Preserved(old(directories), directories, integrity)
      ensures ActivatesNothing(old(state.rows), state.rows)
      ensures !outcome.Rejected?
      ensures outcome.Written? ==>
                && outcome.snapshot == Renewed(existing.(pinned := true), completed, completed + ttl)
                && Describes(outcome.snapshot, existing.key)
                && Captures(old(directories), old(state.rows), directories, state.rows, integrity, outcome.snapshot)
      ensures var pinning := Pinning(Pause(old(directories), old(state.rows)), existing.key);
              var receiving := Receiving(pinning[2], existing.(pinned := true), completed, completed + ttl);
              && Pause(directories, state.rows) in pinning + receiving
              && (outcome.Written? ==> Pause(directories, state.rows) == receiving[|receiving| - 1])
    {
      hide AllAuthentic, AllRowsAuthentic, Preserved, ActivatesNothing, Captures, Load, Validates, Pinned, Describes,
           Index.SetPinned, Record, Observe;
      ghost var d, r := directories, state.rows;
      var pin := Pin(existing);
      if pin.Crashed? {
        return Crashed;
      }
      ghost var d', r' := directories, state.rows;
      assert Pause(d', r') == Pinning(Pause(d, r), existing.key)[2];
      outcome := Receive(pin.snapshot, completed);
      PreservedTransitive(d, d', directories, integrity);
      ActivatesNothingTransitive(r, r', state.rows);
      if outcome.Written? {
        PinnedCaptures(d, r, directories, state.rows, integrity, outcome.snapshot);
      }
    }

    /** Replaces the receipt atomically, then records the snapshot with its new expiry. */
    method Receive(existing: Snapshot, completed: Timestamp) returns (outcome: Outcome)
      requires Valid() && existing.key in directories
      requires Read(Some(directories[existing.key]), integrity) == Some(existing)
      modifies this`directories, state`rows
      ensures Valid()
      ensures Preserved(old(directories), directories, integrity)
      ensures ActivatesNothing(old(state.rows), state.rows)
      ensures directories.Keys == old(directories).Keys
      ensures !outcome.Rejected?
      ensures outcome.Written? ==>
                && outcome.snapshot == existing.(verified := Some(completed), expires := Some(completed + ttl))
                && Describes(outcome.snapshot, existing.key)
                && Captures(old(directories), old(state.rows), directories, state.rows, integrity, outcome.snapshot)
      ensures var pauses := Receiving(
                Pause(old(directories), old(state.rows)), existing, completed, completed + ttl);
              && Pause(directories, state.rows) in pauses
              && (outcome.Written? ==> Pause(directories, state.rows) == pauses[|pauses| - 1])
    {
      PauseAt(Receiving(Pause(directories, state.rows), existing, completed, completed + ttl));
      var receipt := Receipt(existing.key, completed, completed + ttl);
      var renewed := Renewed(existing, completed, completed + ttl);
      KeyAuthentic(directories, existing.key);
      ObserveReads(directories[existing.key], existing.key, receipt, existing, integrity);
      ReplacePreserves(directories, existing.key, Observe(directories[existing.key], receipt), integrity);
      NothingHappens(directories, state.rows, integrity);
      RenewedIsDescribed(existing, completed, completed + ttl);
      RecordFits(state.rows, renewed);
      RecordCaptures(directories, state.rows,
                     directories[existing.key := Observe(directories[existing.key], receipt)], integrity, renewed);
      hide Captures, AllAuthentic, AllRowsAuthentic, Preserved, ActivatesNothing, Read, Observe, Record, Agrees,
           Describes;
      directories := directories[existing.key := Observe(directories[existing.key], receipt)];
      if * {
        return Crashed;
      }
      state.RecordSnapshot(renewed, Inside(existing.key));
      return Written(renewed);
    }

    /** `shutil.rmtree` of the snapshot's directory, the deletion of its row, and their accounting. */
    method Collect(
      key: SnapshotKey, ghost rows: Rows, ghost before: Directories, ghost gone: set<SnapshotKey>,
      removed: nat, bytesRemoved: nat)
      requires Valid() && key in rows && key !in gone && key in directories
      requires Collected(rows, before, gone, state.rows, directories, removed, bytesRemoved)
      modifies this`directories, state`rows
      ensures Valid()
      ensures Collected(rows, before, gone + {key}, state.rows, directories, removed + 1,
                        bytesRemoved + rows[key].bytes)
    {
      CollectOne(rows, before, gone, state.rows, directories, removed, bytesRemoved, key);
      directories := directories - {key};
      state.DeleteSnapshot(key);
    }

    /**
     Removes old unprotected history. The loop counts the rows it keeps per source; the outcome is
     the closed form of Retention. A directory that is already gone stops the collection.
     */
    method GarbageCollect(cutoff: Option<Timestamp>)
      returns (removed: nat, bytesRemoved: nat, failed: bool, ghost keys: seq<SnapshotKey>, ghost stop: nat)
      requires Valid()
      modifies this`directories, state`rows
      ensures Valid()
      ensures IsListing(keys, old(state.rows)) && stop <= |keys|
      ensures Collected(
                old(state.rows), old(directories),
                Removed(keys, old(state.rows), old(state.references).Values, retainPrevious, cutoff, stop),
                state.rows, directories, removed, bytesRemoved)
      ensures !failed ==> stop == |keys|
      ensures failed ==>
                && stop < |keys|
                && keys[stop] !in old(directories)
                && Removable(keys, old(state.rows), old(state.references).Values, retainPrevious, cutoff, stop)
    {
      var records := ListSnapshots(state.rows);
      keys := records;
      removed, bytesRemoved, failed, stop := CollectListed(records, state.rows, state.references.Values, cutoff);
    }

    method CollectListed(
      records: seq<SnapshotKey>, rows: Rows, referenced: set<SnapshotKey>, cutoff: Option<Timestamp>)
      returns (removed: nat, bytesRemoved: nat, failed: bool, ghost stop: nat)
      requires Valid() && rows == state.rows && IsListing(records, rows)
      modifies this`directories, state`rows
      ensures Valid() && stop <= |records|
      ensures Collected(
                rows, old(directories), Removed(records, rows, referenced, retainPrevious, cutoff, stop),
                state.rows, directories, removed, bytesRemoved)
      ensures if failed
              then stop < |records| && records[stop] !in old(directories)
                   && Removable(records, rows, referenced, retainPrevious, cutoff, stop)
              else stop == |records|
    {
      hide *;
      CollectorStarts(records, rows, referenced, retainPrevious, cutoff);
      NothingCollected(rows, directories);
      removed, bytesRemoved, failed, stop := 0, 0, false, 0;
      var retained: map<SourceId, nat> := map[];
      ghost var before, gone: set<SnapshotKey> := directories, {};
      var i := 0;
      while i < |records|
        invariant i <= |records| && stop == i
        invariant Valid()
        invariant retained == Tally(records, rows, referenced, retainPrevious, i)
        invariant gone == Removed(records, rows, referenced, retainPrevious, cutoff, i)
        invariant Collected(rows, before, gone, state.rows, directories, removed, bytesRemoved)
      {
        CollectorStep(records, rows, referenced, retainPrevious, cutoff, i);
        var remove;
        remove, retained := Examine(records, rows, referenced, retainPrevious, cutoff, i, retained);
        if remove {
          var key := records[i];
          if key !in directories {
            StillCollected(rows, before, gone, state.rows, directories, removed, bytesRemoved, key);
            return removed, bytesRemoved, true, stop;
          }
          Collect(key, rows, before, gone, removed, bytesRemoved);
          removed, bytesRemoved, gone := removed + 1, bytesRemoved + rows[key].bytes, gone + {key};
        }
        i := i + 1;
        stop := i;
      }
    }
  }

  /** The first `n` batches do not fit beside what is indexed. */
  predicate Exceeds(batches: seq<Table>, n: nat, indexed: nat, maximum: nat) {
    n <= |batches| && indexed + SumStored(batches[..n]) > maximum
  }

  /**
   Why a capture is refused while it is staged: it was cancelled; its schema changed, or there is no batch;
   it exceeds the size of the cache; or the stream itself ended in an error.
   */
  ghost predicate Refused(extraction: Extraction, error: Error, indexed: nat, maximum: nat) {
    || error == CancellationError
    || (error == ExtractionError
        && (extraction.batches == []
            || exists i :: 0 < i < |extraction.batches|
                           && extraction.batches[i].schema != extraction.batches[0].schema))
    || (error == CacheError && exists n :: Exceeds(extraction.batches, n, indexed, maximum))
    || extraction.ending == Some(error)
  }

  lemma WhatIsRefused(extraction: Extraction, indexed: nat, maximum: nat)
    ensures Refused(extraction, CancellationError, indexed, maximum)
    ensures extraction.batches == [] ==> Refused(extraction, ExtractionError, indexed, maximum)
    ensures forall i :: 0 < i < |extraction.batches| ==>
              extraction.batches[i].schema != extraction.batches[0].schema ==>
                Refused(extraction, ExtractionError, indexed, maximum)
    ensures forall n :: Exceeds(extraction.batches, n, indexed, maximum) ==>
              Refused(extraction, CacheError, indexed, maximum)
    ensures extraction.ending.Some? ==> Refused(extraction, extraction.ending.value, indexed, maximum)
  {
    hide Exceeds;
  }

  lemma NothingStaged(pending: map<nat, Directory>, id: nat, batches: seq<Table>)
    requires id in pending && pending[id] == EMPTY
    ensures pending == pending[id := EMPTY.(files := StoredFiles(batches[..0]))]
  {
    assert StoredFiles(batches[..0]) == map[];
  }

  /** The next batch becomes the next file. */
  lemma StagedOneMore(before: map<nat, Directory>, pending: map<nat, Directory>, id: nat, batches: seq<Table>, i: nat)
    requires i < |batches| && pending == before[id := EMPTY.(files := StoredFiles(batches[..i]))]
    ensures pending[id := pending[id].(files := pending[id].files[i := batches[i]])]
         == before[id := EMPTY.(files := StoredFiles(batches[..i + 1]))]
  {
    assert StoredFiles(batches[..i + 1]) == StoredFiles(batches[..i])[i := batches[i]];
  }

  lemma SumStoredNothing(batches: seq<Table>)
    ensures SumStored(batches[..0]) == 0
  {
  }

  lemma SumStoredSnoc(batches: seq<Table>, i: nat)
    requires i < |batches|
    ensures SumStored(batches[..i + 1]) == SumStored(batches[..i]) + batches[i].stored
  {
    assert batches[..i + 1][..i] == batches[..i];
  }

  /** `s` is a capture of the request: its identity, its contents and its observation time. */
  predicate CapturedBy(
    s: Snapshot, request: Request, provider: string, extraction: Extraction, pinned: bool, completed: Timestamp)
  {
    && extraction.batches != []
    && extraction.ending == None
    && Describes(s, KeyOf(request, provider, extraction.version, extraction.batches))
    && s.content == extraction.batches
    && s.version == extraction.version
    && s.schema == extraction.batches[0].schema
    && s.provider == provider
    && SameRequest(s.request, request)
    && s.Observed() == completed
    && (pinned ==> s.pinned)
  }
}
