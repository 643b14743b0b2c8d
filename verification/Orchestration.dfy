/**
 A run, from its decisions to its published dataset.

 The results: a run that ends before its commit has activated nothing; a published dataset is
 coherent and within the row limit; and a later local run over the same state publishes it again.
 */
module Orchestration {
  import opened Outcomes
  import opened Identity
  import opened Snapshots
  import opened Index
  import opened State
  import opened Store
  import opened Layering
  import opened Planning
  import opened Budget

  /**
   A run step completes, or raises one of the errors the code names; or it is cut short, because the
   process dies or something unforeseen is raised there, which leaves the same disk and index behind.
   */
  datatype Progress<T> = Done(value: T) | Failed(error: Error) | Died

  /** The connectors' answers and the times at which captures start and complete. */
  datatype Feed = Feed(
    deliver: Request -> Extraction,
    started: SourceId -> Timestamp,
    completed: SourceId -> Timestamp,
    pendingId: set<nat> -> nat)

  /** Pending directories get names that do not exist yet. */
  ghost predicate FreshIds(feed: Feed) {
    forall used: set<nat> :: feed.pendingId(used) !in used
  }

  // ---------- captured snapshots stay captured ----------

  /** The snapshot of source `id` is intact on disk, reads back as it is known, and is indexed. */
  ghost predicate Stored(directories: Directories, rows: Rows, integrity: Integrity, id: SourceId, s: Snapshot) {
    && Source(s.key) == id
    && Describes(s, s.key)
    && s.key in directories
    && Read(Some(directories[s.key]), integrity) == Some(s)
    && s.key in rows
    && rows[s.key].state == Committed
    && rows[s.key].source == id
    && rows[s.key].fingerprint == s.key.fingerprint
    && rows[s.key].location == Inside(s.key)
  }

  ghost predicate AllStored(
    directories: Directories, rows: Rows, integrity: Integrity, limit: nat, known: map<SourceId, Snapshot>)
  {
    forall id <- known :: Stored(directories, rows, integrity, id, known[id]) && known[id].rows <= limit
  }

  ghost predicate OnlyTouches(key: SnapshotKey, d: Directories, r: Rows, directories: Directories, rows: Rows) {
    && (forall k <- d :: k != key ==> k in directories && directories[k] == d[k])
    && (forall k <- r :: k != key ==> k in rows && rows[k] == r[k])
  }

  lemma OthersStayStored(
    key: SnapshotKey, d: Directories, r: Rows, directories: Directories, rows: Rows,
    integrity: Integrity, limit: nat, known: map<SourceId, Snapshot>)
    requires OnlyTouches(key, d, r, directories, rows)
    requires AllStored(d, r, integrity, limit, known) && Source(key) !in known
    ensures AllStored(directories, rows, integrity, limit, known)
  {
    forall id <- known ensures Stored(directories, rows, integrity, id, known[id]) && known[id].rows <= limit {
      assert Stored(d, r, integrity, id, known[id]);
      assert known[id].key != key;
    }
  }

  lemma OneMoreStored(
    directories: Directories, rows: Rows, integrity: Integrity, limit: nat,
    known: map<SourceId, Snapshot>, id: SourceId, s: Snapshot)
    requires AllStored(directories, rows, integrity, limit, known)
    requires Stored(directories, rows, integrity, id, s) && s.rows <= limit
    ensures AllStored(directories, rows, integrity, limit, known[id := s])
  {
  }

  /** When snapshots are to be kept, every known one is pinned, in its directory and in the index. */
  ghost predicate Kept(keep: bool, known: map<SourceId, Snapshot>, rows: Rows) {
    keep ==> forall id <- known :: known[id].pinned && known[id].key in rows && rows[known[id].key].pinned
  }

  lemma OneMoreKept(
    keep: bool, known: map<SourceId, Snapshot>, d: Directories, r: Rows, directories: Directories, rows: Rows,
    integrity: Integrity, limit: nat, id: SourceId, s: Snapshot)
    requires Kept(keep, known, r) && AllStored(d, r, integrity, limit, known)
    requires Source(s.key) == id && id !in known
    requires OnlyTouches(s.key, d, r, directories, rows)
    requires keep ==> s.pinned && s.key in rows && rows[s.key].pinned
    ensures Kept(keep, known[id := s], rows)
  {
    hide Describes;
    forall other <- known ensures known[other].key != s.key {
      assert Stored(d, r, integrity, other, known[other]);
    }
  }

  /**
   What every step of a run leaves behind, wherever it stops: no activation, no lost capture, and no pin
   unless snapshots are to be kept.
   */
  ghost predicate Harmless(
    keep: bool, d: Directories, r: Rows, directories: Directories, rows: Rows, integrity: Integrity)
  {
    && Preserved(d, directories, integrity)
    && ActivatesNothing(r, rows)
    && (!keep ==> NoNewPin(d, r, directories, rows))
  }

  lemma HarmlessNothing(keep: bool, d: Directories, r: Rows, integrity: Integrity)
    ensures Harmless(keep, d, r, d, r, integrity)
  {
  }

  lemma HarmlessTransitive(
    keep: bool, d: Directories, r: Rows, d': Directories, r': Rows, directories: Directories, rows: Rows,
    integrity: Integrity)
    requires Harmless(keep, d, r, d', r', integrity) && Harmless(keep, d', r', directories, rows, integrity)
    requires AllAuthentic(directories)
    ensures Harmless(keep, d, r, directories, rows, integrity)
  {
    hide Authentic, Complete, DiskPinned;
    PreservedTransitive(d, d', directories, integrity);
    ActivatesNothingTransitive(r, r', rows);
    if !keep {
      NoNewPinTransitive(d, r, d', r', directories, rows);
    }
  }

  // ---------- one capture ----------

  lemma SumRowsSnoc(batches: seq<Table>, i: nat)
    requires i < |batches|
    ensures SumRows(batches[..i + 1]) == SumRows(batches[..i]) + batches[i].rows
  {
    assert batches[..i + 1][..i] == batches[..i];
  }

  /** The batches passed on were charged, and at most one more, which was over a limit. */
  ghost predicate ChargedAsPassed(
    before: seq<Charge>, budget: RunBudget, source: SourceId, extraction: Extraction, bounded: Extraction)
    reads budget
  {
    var n := |bounded.batches|;
    && bounded.batches <= extraction.batches
    && bounded.version == extraction.version
    && (|| budget.log == before + Charges(source, bounded.batches)
        || (n < |extraction.batches|
            && bounded.ending == Some(PolicyError)
            && budget.log == before + Charges(source, extraction.batches[..n + 1])
            && !Within(budget.log, source, budget.rowLimit, budget.byteLimit)))
  }

  /** Cut behind batch `i`, before the next one is charged. */
  lemma CutBehind(
    before: seq<Charge>, budget: RunBudget, source: SourceId, extraction: Extraction, i: nat, error: Error)
    requires i <= |extraction.batches| && budget.log == before + Charges(source, extraction.batches[..i])
    ensures ChargedAsPassed(before, budget, source, extraction,
                            Extraction(extraction.batches[..i], Some(error), extraction.version))
  {
    hide Charges;
  }

  /** Cut because the next batch, which has been charged, is over a limit. */
  lemma CutByCharge(before: seq<Charge>, budget: RunBudget, source: SourceId, extraction: Extraction, i: nat)
    requires i < |extraction.batches| && budget.log == before + Charges(source, extraction.batches[..i + 1])
    requires !Within(budget.log, source, budget.rowLimit, budget.byteLimit)
    ensures ChargedAsPassed(before, budget, source, extraction,
                            Extraction(extraction.batches[..i], Some(PolicyError), extraction.version))
  {
    hide Charges, Within;
  }

  /** Every batch charged and passed on. */
  lemma PassedWhole(before: seq<Charge>, budget: RunBudget, source: SourceId, extraction: Extraction, i: nat)
    requires i == |extraction.batches| && budget.log == before + Charges(source, extraction.batches[..i])
    ensures extraction.batches[..i] == extraction.batches
    ensures forall ending :: ChargedAsPassed(before, budget, source, extraction, extraction.(ending := ending))
  {
    assert extraction.batches[..i] == extraction.batches;
    hide Charges;
  }

  /**
   `bounded_batches`: every batch is charged before it is passed on; the stream may be cut anywhere. On a
   normal end exactly the batches delivered were charged.
   */
  method BoundedBatches(budget: RunBudget, source: SourceId, extraction: Extraction) returns (bounded: Extraction)
    requires budget.Valid()
    modifies budget
    ensures budget.Valid()
    ensures ChargedAsPassed(old(budget.log), budget, source, extraction, bounded)
    ensures bounded.ending.None? ==>
              && bounded == extraction
              && SumRows(extraction.batches) <= budget.rowLimit
              && Fits(old(budget.log), budget.log, budget.byteLimit)
              && budget.log == old(budget.log) + Charges(source, extraction.batches)
  {
    var i := 0;
    ghost var start := budget.log;
    assert extraction.batches[..0] == [];
    assert SumRows([]) == 0;
    assert budget.log == start + Charges(source, extraction.batches[..0]);
    hide SumRows, RowsOf, BytesOf, Charges, ChargedAsPassed;
    while i < |extraction.batches|
      invariant 0 <= i <= |extraction.batches|
      invariant budget.Valid()
      invariant RowsOf(budget.log, source) == RowsOf(start, source) + SumRows(extraction.batches[..i])
      invariant budget.log == start + Charges(source, extraction.batches[..i])
      invariant i == 0 ==> budget.log == start
      invariant i > 0 ==> Within(budget.log, source, budget.rowLimit, budget.byteLimit)
    {
      var batch := extraction.batches[i];
      if * {
        CutBehind(start, budget, source, extraction, i, CancellationError);
        return Extraction(extraction.batches[..i], Some(CancellationError), extraction.version);
      }
      SumRowsSnoc(extraction.batches, i);
      ChargedOneMore(start, budget.log, source, extraction.batches, i);
      RowsOfSnoc(budget.log, Charge(source, batch.rows, batch.memory), source);
      var charged := budget.Consume(source, batch.rows, batch.memory);
      if charged.Failure? {
        CutByCharge(start, budget, source, extraction, i);
        return Extraction(extraction.batches[..i], Some(charged.error), extraction.version);
      }
      i := i + 1;
      if * {
        CutBehind(start, budget, source, extraction, i, PolicyError);
        return Extraction(extraction.batches[..i], Some(PolicyError), extraction.version);
      }
    }
    PassedWhole(start, budget, source, extraction, i);
    if extraction.ending.None? {
      if * {
        return extraction.(ending := Some(PolicyError));
      }
    }
    assert extraction == extraction.(ending := extraction.ending);
    return extraction;
  }

  /** Extracts and writes one source; the capture answers exactly the request it was made for. */
  method Capture(store: SnapshotStore, budget: RunBudget, feed: Feed, e: Prepared,
                 keep: bool) returns (outcome: Outcome)
    requires store.Valid() && budget.Valid()
    requires FreshIds(feed)
    requires e.decision.request.projection != Some([]) && e.decision.request.source == e.plan.id
    modifies store, store.state`rows, budget
    ensures store.Valid() && budget.Valid()
    ensures Harmless(keep, old(store.directories), old(store.state.rows), store.directories, store.state.rows,
                     store.integrity)
    ensures outcome.Written? ==>
              CapturedBy(outcome.snapshot, e.decision.request, e.plan.provider, feed.deliver(e.decision.request), keep,
                         feed.completed(e.plan.id))
              && outcome.snapshot.expires == Some(feed.completed(e.plan.id) + store.ttl)
    ensures outcome.Written? ==>
              && Stored(store.directories, store.state.rows, store.integrity, e.plan.id, outcome.snapshot)
              && outcome.snapshot.rows <= budget.rowLimit
              && Fits(old(budget.log), budget.log, budget.byteLimit)
              && budget.log == old(budget.log) + Charges(e.plan.id, outcome.snapshot.key.content)
              && Answers(e, outcome.snapshot)
              && outcome.snapshot.key in store.state.rows
              && (keep ==> outcome.snapshot.pinned && store.state.rows[outcome.snapshot.key].pinned)
              && OnlyTouches(outcome.snapshot.key, old(store.directories), old(store.state.rows),
                             store.directories, store.state.rows)
  {
    var id, request := e.plan.id, e.decision.request;
    hide NoNewPin, Charges, BytesOf, RowsOf, SumRows, Capturing, SnapshotOf, Refused, Read, FilesOf, StoredFiles;
    var extraction := BoundedBatches(budget, id, feed.deliver(request));
    outcome := store.Write(
      request, e.plan.provider, extraction, keep,
      feed.pendingId(store.pending.Keys), feed.started(id), feed.completed(id));
    if outcome.Written? {
      assert Agrees(store.state.rows[outcome.snapshot.key], outcome.snapshot);
    }
  }

  // ---------- what a run knows ----------

  /** Every known source is coherent with its known parent. */
  ghost predicate KnownCoherent(plans: Sources, members: map<SourceId, SnapshotKey>, read: KeyReader) {
    forall s <- plans :: s.id in members ==> CoherentMember(s, members, read)
  }

  /** Reused snapshots stay known under the keys they were decided with. */
  ghost predicate ReusedKept(resolved: map<SourceId, Prepared>, members: map<SourceId, SnapshotKey>) {
    forall id <- resolved :: resolved[id].decision.action == Reuse ==>
      && resolved[id].decision.snapshot.Some?
      && id in members
      && members[id] == resolved[id].decision.snapshot.value.key
  }

  ghost predicate Extends(members: map<SourceId, SnapshotKey>, more: map<SourceId, SnapshotKey>) {
    forall id <- members :: id in more && more[id] == members[id]
  }

  lemma ExpectedIsStable(
    s: PlannedSource, members: map<SourceId, SnapshotKey>, more: map<SourceId, SnapshotKey>, read: KeyReader)
    requires Expected(s, members, read).Success? && Extends(members, more)
    ensures Expected(s, more, read) == Expected(s, members, read)
  {
  }

  /** The layer `prepared` was captured with the requests expected of it: the whole stays coherent. */
  lemma LayerIsCoherent(
    plans: Sources, members: map<SourceId, SnapshotKey>, more: map<SourceId, SnapshotKey>,
    prepared: map<SourceId, Prepared>, read: KeyReader)
    requires KnownCoherent(plans, members, read) && Extends(members, more)
    requires more.Keys == members.Keys + prepared.Keys && DistinctSources(plans)
    requires forall id <- prepared :: AsExpected(plans, id, prepared[id], members, read)
    requires forall id <- prepared ::
               more[id].fingerprint == RequestFingerprint(prepared[id].decision.request, prepared[id].plan.provider)
    ensures KnownCoherent(plans, more, read)
  {
    forall s <- plans | s.id in more ensures CoherentMember(s, more, read) {
      if s.id in prepared {
        assert AsExpected(plans, s.id, prepared[s.id], members, read);
        SameIdSameSource(plans, s, prepared[s.id].plan);
      } else {
        assert CoherentMember(s, members, read);
      }
      ExpectedIsStable(s, members, more, read);
    }
  }

  /** The entry is one of the plan's sources, about to be captured with the request expected of it. */
  ghost predicate AsExpected(
    plans: Sources, id: SourceId, e: Prepared, members: map<SourceId, SnapshotKey>, read: KeyReader)
  {
    && e.plan in plans
    && e.plan.id == id
    && Expected(e.plan, members, read) == Success(e.decision.request)
    && e.decision.request.source == id
    && e.decision.request.projection != Some([])
  }

  lemma ExpectedKeepsSource(s: PlannedSource, members: map<SourceId, SnapshotKey>, read: KeyReader)
    requires WellFormed(s)
    ensures Expected(s, members, read).Success? ==>
              && Expected(s, members, read).value.source == s.id
              && Expected(s, members, read).value.projection != Some([])
  {
  }

  /** Materializing against the known parent gives the expected request, whether or not it was given before. */
  lemma MaterializedIsExpected(
    c: Context, s: PlannedSource, e: Prepared, parent: Decision, known: Snapshot,
    members: map<SourceId, SnapshotKey>)
    requires WellFormed(s) && e.plan == s && s.parent.Some? && HasSnapshot(parent)
    requires SoundEntry(c, e, Some(parent))
    requires parent.action == Reuse ==>
               Describes(parent.snapshot.value, parent.snapshot.value.key) && known.key == parent.snapshot.value.key
    requires Describes(known, known.key)
    requires s.parent.value in members && members[s.parent.value] == known.key
    ensures var ready := Materialize(e, known, c.read);
            ready.Success? ==>
              && ready.value.plan == s
              && Expected(s, members, c.read) == Success(ready.value.decision.request)
  {
    hide CohortRequest, Held, TooOld;
  }

  // ---------- one layer ----------

  /** The plan has no entries but those of its sources. */
  ghost predicate EntriesOf(plans: Sources, resolved: map<SourceId, Prepared>) {
    forall id <- resolved :: resolved[id].plan in plans && resolved[id].plan.id == id
  }

  lemma EntryIsExpected(
    c: Context, plans: Sources, resolved: map<SourceId, Prepared>, s: PlannedSource,
    directories: Directories, rows: Rows, integrity: Integrity, limit: nat, known: map<SourceId, Snapshot>)
    requires SoundPlan(c, plans, resolved) && s in plans
    requires EntriesOf(plans, resolved)
    requires AllStored(directories, rows, integrity, limit, known) && ReusedKept(resolved, KeysOf(known))
    requires s.parent.Some? ==> s.parent.value in known
    ensures var ready := if s.parent.Some? then Materialize(resolved[s.id], known[s.parent.value], c.read)
                         else Success(resolved[s.id]);
            ready.Success? ==> AsExpected(plans, s.id, ready.value, KeysOf(known), c.read)
  {
    var e, members := resolved[s.id], KeysOf(known);
    assert SoundEntry(c, e, ParentDecision(s, resolved));
    ExpectedKeepsSource(s, members, c.read);
    if s.parent.Some? {
      var p := s.parent.value;
      var parent := resolved[p].plan;
      assert parent in plans && HasSnapshot(resolved[p].decision);
      assert SoundEntry(c, resolved[p], ParentDecision(parent, resolved));
      assert Stored(directories, rows, integrity, p, known[p]);
      hide CohortRequest, Held, TooOld, Stored, AllStored, SoundPlan;
      MaterializedIsExpected(c, s, e, resolved[p].decision, known[p], members);
    }
  }

  /** Derives every request of a layer from the parents known by now, before any capture of the layer. */
  method MaterializeLevel(
    level: Sources, resolved: map<SourceId, Prepared>, known: map<SourceId, Snapshot>, read: KeyReader)
    returns (result: Result<map<SourceId, Prepared>>)
    requires forall s <- level :: s.id in resolved && (s.parent.Some? ==> s.parent.value in known)
    ensures result.Failure? ==>
              exists s <- level ::
                s.parent.Some? && Materialize(resolved[s.id], known[s.parent.value], read) == Failure(result.error)
    ensures result.Success? ==>
              && result.value.Keys == Ids(level)
              && (DistinctSources(level) ==> forall s <- level ::
                    (if s.parent.Some? then Materialize(resolved[s.id], known[s.parent.value], read)
                     else Success(resolved[s.id])) == Success(result.value[s.id]))
  {
    var prepared := UNRESOLVED;
    var i := 0;
    while i < |level|
      invariant 0 <= i <= |level|
      invariant prepared.Keys == Ids(level[..i])
      invariant DistinctSources(level) ==> forall j :: 0 <= j < i ==>
                  (if level[j].parent.Some? then Materialize(resolved[level[j].id], known[level[j].parent.value], read)
                   else Success(resolved[level[j].id])) == Success(prepared[level[j].id])
    {
      hide Materialize;
      var s := level[i];
      var entry := resolved[s.id];
      if s.parent.Some? {
        var materialized := Materialize(entry, known[s.parent.value], read);
        if materialized.Failure? {
          assert s in level && materialized == Failure(materialized.error);
          return Failure(materialized.error);
        }
        entry := materialized.value;
      }
      prepared := prepared[s.id := entry];
      assert level[..i + 1] == level[..i] + [s];
      i := i + 1;
    }
    assert level[..i] == level;
    return Success(prepared);
  }

  /** Part of a layer has been captured: all of `prepared` but `todo`. */
  ghost predicate LevelSoFar(
    directories: Directories, rows: Rows, integrity: Integrity, limit: nat,
    prepared: map<SourceId, Prepared>, known: map<SourceId, Snapshot>, todo: set<SourceId>,
    more: map<SourceId, Snapshot>)
  {
    AllStored(directories, rows, integrity, limit, more) && LevelMembers(prepared, known, todo, more)
  }

  ghost predicate LevelMembers(
    prepared: map<SourceId, Prepared>, known: map<SourceId, Snapshot>, todo: set<SourceId>,
    more: map<SourceId, Snapshot>)
  {
    && (forall id :: id in more <==> id in known || (id in prepared && id !in todo))
    && (forall id <- known :: more[id] == known[id])
    && (forall id <- prepared :: id !in todo ==> Answers(prepared[id], more[id]))
  }

  /** The snapshot was captured with the entry's request. */
  predicate Answers(e: Prepared, s: Snapshot) {
    s.key.fingerprint == RequestFingerprint(e.decision.request, e.plan.provider)
  }

  lemma LevelFacts(
    directories: Directories, rows: Rows, integrity: Integrity, limit: nat,
    prepared: map<SourceId, Prepared>, known: map<SourceId, Snapshot>, todo: set<SourceId>,
    more: map<SourceId, Snapshot>, id: SourceId)
    requires LevelSoFar(directories, rows, integrity, limit, prepared, known, todo, more)
    requires id in todo && id !in known
    ensures AllStored(directories, rows, integrity, limit, more) && id !in more
  {
    hide AllStored;
  }

  lemma LevelStarts(
    directories: Directories, rows: Rows, integrity: Integrity, limit: nat,
    prepared: map<SourceId, Prepared>, known: map<SourceId, Snapshot>)
    requires AllStored(directories, rows, integrity, limit, known)
    ensures LevelSoFar(directories, rows, integrity, limit, prepared, known, prepared.Keys, known)
  {
  }

  lemma LevelStep(
    d: Directories, r: Rows, directories: Directories, rows: Rows, integrity: Integrity, limit: nat,
    prepared: map<SourceId, Prepared>, known: map<SourceId, Snapshot>, todo: set<SourceId>,
    more: map<SourceId, Snapshot>, id: SourceId, s: Snapshot)
    requires LevelSoFar(d, r, integrity, limit, prepared, known, todo, more)
    requires id in todo && id !in known
    requires Stored(directories, rows, integrity, id, s) && s.rows <= limit
    requires OnlyTouches(s.key, d, r, directories, rows)
    requires id in prepared && Answers(prepared[id], s)
    ensures LevelSoFar(directories, rows, integrity, limit, prepared, known, todo - {id}, more[id := s])
  {
    StoredIsItsSource(directories, rows, integrity, id, s);
    LevelMembersStep(prepared, known, todo, more, id, s);
    hide LevelMembers, Stored, AllStored, OnlyTouches, Answers;
    OthersStayStored(s.key, d, r, directories, rows, integrity, limit, more);
    OneMoreStored(directories, rows, integrity, limit, more, id, s);
  }

  lemma LevelMembersStep(
    prepared: map<SourceId, Prepared>, known: map<SourceId, Snapshot>, todo: set<SourceId>,
    more: map<SourceId, Snapshot>, id: SourceId, s: Snapshot)
    requires LevelMembers(prepared, known, todo, more) && id in todo && id !in known
    requires id in prepared && Answers(prepared[id], s)
    ensures id !in more && LevelMembers(prepared, known, todo - {id}, more[id := s])
  {
    hide Answers;
  }

  lemma StoredIsItsSource(directories: Directories, rows: Rows, integrity: Integrity, id: SourceId, s: Snapshot)
    requires Stored(directories, rows, integrity, id, s)
    ensures Source(s.key) == id
  {
  }

  /** The snapshot holds what the connector delivers for the request, as of the completion of the capture. */
  ghost predicate IsFed(feed: Feed, ttl: nat, id: SourceId, request: Request, s: Snapshot) {
    && s.key.content == feed.deliver(request).batches
    && s.key.version == feed.deliver(request).version
    && feed.deliver(request).ending.None?
    && s.Observed() == feed.completed(id)
    && s.expires == Some(feed.completed(id) + ttl)
  }

  /** All but `todo` of the layer are captured as delivered. */
  ghost predicate LevelFed(
    feed: Feed, ttl: nat, prepared: map<SourceId, Prepared>, todo: set<SourceId>, more: map<SourceId, Snapshot>)
  {
    forall id <- prepared :: id !in todo ==> id in more && IsFed(feed, ttl, id, prepared[id].decision.request, more[id])
  }

  lemma NothingFed(feed: Feed, ttl: nat, prepared: map<SourceId, Prepared>, known: map<SourceId, Snapshot>)
    ensures LevelFed(feed, ttl, prepared, prepared.Keys, known)
  {
  }

  lemma OneMoreFed(
    feed: Feed, ttl: nat, prepared: map<SourceId, Prepared>, todo: set<SourceId>, more: map<SourceId, Snapshot>,
    id: SourceId, s: Snapshot, keep: bool)
    requires LevelFed(feed, ttl, prepared, todo, more) && id in prepared && prepared[id].plan.id == id
    requires var e := prepared[id];
             && CapturedBy(s, e.decision.request, e.plan.provider, feed.deliver(e.decision.request), keep,
                           feed.completed(e.plan.id))
             && s.expires == Some(feed.completed(e.plan.id) + ttl)
    ensures LevelFed(feed, ttl, prepared, todo - {id}, more[id := s])
  {
    assert IsFed(feed, ttl, id, prepared[id].decision.request, s);
    hide IsFed;
  }

  /**
   Captures a layer. The captures complete in any order; after a first failure the others may still
   complete, or be abandoned.
   */
  method CaptureLevel(
    store: SnapshotStore, budget: RunBudget, feed: Feed, keep: bool,
    prepared: map<SourceId, Prepared>, known: map<SourceId, Snapshot>)
    returns (progress: Progress<map<SourceId, Snapshot>>, ghost captured: seq<SnapshotKey>)
    requires store.Valid() && budget.Valid() && FreshIds(feed)
    requires prepared.Keys !! known.Keys
    requires forall id <- prepared ::
               && prepared[id].plan.id == id == prepared[id].decision.request.source
               && prepared[id].decision.request.projection != Some([])
    requires AllStored(store.directories, store.state.rows, store.integrity, budget.rowLimit, known)
    requires Kept(keep, known, store.state.rows)
    modifies store, store.state`rows, budget
    ensures store.Valid() && budget.Valid()
    ensures Harmless(keep, old(store.directories), old(store.state.rows), store.directories, store.state.rows,
                     store.integrity)
    ensures progress.Done? ==>
              && LevelSoFar(store.directories, store.state.rows, store.integrity, budget.rowLimit,
                            prepared, known, {}, progress.value)
              && Kept(keep, progress.value, store.state.rows)
              && Accounts(old(budget.log), budget.log, budget.byteLimit, captured, KeysOf(progress.value),
                          prepared.Keys)
              && LevelFed(feed, store.ttl, prepared, {}, progress.value)
  {
    hide Harmless, LevelSoFar, AllStored, Stored, OnlyTouches, Answers, Kept, Accounts, Fits, Charges;
    captured := [];
    NothingAccounted(budget.log, budget.byteLimit, KeysOf(known));
    NothingFed(feed, store.ttl, prepared, known);
    hide LevelFed, CapturedBy;
    assert prepared.Keys - prepared.Keys == {};
    var more, todo, error := known, prepared.Keys, Option<Error>.None;
    HarmlessNothing(keep, store.directories, store.state.rows, store.integrity);
    LevelStarts(store.directories, store.state.rows, store.integrity, budget.rowLimit, prepared, known);
    while todo != {}
      invariant store.Valid() && budget.Valid() && todo <= prepared.Keys
      invariant Harmless(keep, old(store.directories), old(store.state.rows), store.directories, store.state.rows,
                         store.integrity)
      invariant error.None? ==>
                  && LevelSoFar(store.directories, store.state.rows, store.integrity, budget.rowLimit,
                                prepared, known, todo, more)
                  && Kept(keep, more, store.state.rows)
                  && Accounts(old(budget.log), budget.log, budget.byteLimit, captured, KeysOf(more),
                              prepared.Keys - todo)
                  && LevelFed(feed, store.ttl, prepared, todo, more)
    {
      var id :| id in todo;
      var runs := *;
      if error.None? || runs {
        ghost var d, r, log := store.directories, store.state.rows, budget.log;
        var outcome := Capture(store, budget, feed, prepared[id], keep);
        Chained(keep, store, old(store.directories), old(store.state.rows), d, r);
        if outcome.Crashed? {
          return Died, captured;
        }
        if outcome.Rejected? {
          error := Some(error.GetOr(outcome.error));
        } else if error.None? {
          LevelStep(d, r, store.directories, store.state.rows, store.integrity, budget.rowLimit,
                    prepared, known, todo, more, id, outcome.snapshot);
          LevelFacts(d, r, store.integrity, budget.rowLimit, prepared, known, todo, more, id);
          StoredIsItsSource(store.directories, store.state.rows, store.integrity, id, outcome.snapshot);
          OneMoreKept(keep, more, d, r, store.directories, store.state.rows, store.integrity, budget.rowLimit, id,
                      outcome.snapshot);
          OneMoreAccounted(old(budget.log), log, budget.log, budget.byteLimit, captured, KeysOf(more),
                           prepared.Keys - todo, outcome.snapshot.key);
          assert KeysOf(more)[id := outcome.snapshot.key] == KeysOf(more[id := outcome.snapshot]);
          assert prepared.Keys - todo + {id} == prepared.Keys - (todo - {id});
          OneMoreFed(feed, store.ttl, prepared, todo, more, id, outcome.snapshot, keep);
          captured := captured + [outcome.snapshot.key];
          more := more[id := outcome.snapshot];
        }
      }
      todo := todo - {id};
    }
    if error.Some? {
      return Failed(error.value), captured;
    }
    assert prepared.Keys - {} == prepared.Keys;
    return Done(more), captured;
  }

  lemma Chained(keep: bool, store: SnapshotStore, d0: Directories, r0: Rows, d1: Directories, r1: Rows)
    requires store.Valid()
    requires Harmless(keep, d0, r0, d1, r1, store.integrity)
    requires Harmless(keep, d1, r1, store.directories, store.state.rows, store.integrity)
    ensures Harmless(keep, d0, r0, store.directories, store.state.rows, store.integrity)
  {
    HarmlessTransitive(keep, d0, r0, d1, r1, store.directories, store.state.rows, store.integrity);
  }

  // ---------- all layers ----------

  /** What holds between the layers of a run. */
  ghost predicate Going(
    c: Context, plans: Sources, resolved: map<SourceId, Prepared>,
    directories: Directories, rows: Rows, known: map<SourceId, Snapshot>)
  {
    && AllStored(directories, rows, c.integrity, RowLimit(c.options), known)
    && KnownCoherent(plans, KeysOf(known), c.read)
    && ReusedKept(resolved, KeysOf(known))
  }

  lemma LayerIsExpected(
    c: Context, plans: Sources, resolved: map<SourceId, Prepared>, directories: Directories, rows: Rows,
    known: map<SourceId, Snapshot>, level: Sources, prepared: map<SourceId, Prepared>)
    requires SoundPlan(c, plans, resolved) && EntriesOf(plans, resolved)
    requires Going(c, plans, resolved, directories, rows, known)
    requires forall s <- level :: s in plans && (s.parent.Some? ==> s.parent.value in known)
    requires prepared.Keys == Ids(level)
    requires forall s <- level ::
               (if s.parent.Some? then Materialize(resolved[s.id], known[s.parent.value], c.read)
                else Success(resolved[s.id])) == Success(prepared[s.id])
    ensures forall id <- prepared :: AsExpected(plans, id, prepared[id], KeysOf(known), c.read)
  {
    hide SoundEntry, AllStored, KnownCoherent, ReusedKept, Materialize, AsExpected, EntriesOf;
    forall id <- prepared ensures AsExpected(plans, id, prepared[id], KeysOf(known), c.read) {
      var s :| s in level && s.id == id;
      EntryIsExpected(c, plans, resolved, s, directories, rows, c.integrity, RowLimit(c.options), known);
    }
  }

  lemma GoingStep(
    c: Context, plans: Sources, resolved: map<SourceId, Prepared>, d: Directories, r: Rows,
    directories: Directories, rows: Rows, known: map<SourceId, Snapshot>, prepared: map<SourceId, Prepared>,
    more: map<SourceId, Snapshot>)
    requires DistinctSources(plans) && Going(c, plans, resolved, d, r, known)
    requires forall id <- prepared :: AsExpected(plans, id, prepared[id], KeysOf(known), c.read)
    requires prepared.Keys !! known.Keys
    requires LevelSoFar(directories, rows, c.integrity, RowLimit(c.options), prepared, known, {}, more)
    ensures Going(c, plans, resolved, directories, rows, more)
    ensures more.Keys == known.Keys + prepared.Keys
  {
    hide AllStored, AsExpected, KnownCoherent;
    assert more.Keys == known.Keys + prepared.Keys;
    LayerIsCoherent(plans, KeysOf(known), KeysOf(more), prepared, c.read);
  }

  lemma LevelExtends(
    d: Directories, r: Rows, directories: Directories, rows: Rows, integrity: Integrity, limit: nat,
    prepared: map<SourceId, Prepared>, known: map<SourceId, Snapshot>, more: map<SourceId, Snapshot>)
    requires LevelSoFar(directories, rows, integrity, limit, prepared, known, {}, more)
    ensures Extends(KeysOf(known), KeysOf(more))
    ensures forall id <- known :: id in more && more[id] == known[id]
  {
    hide AllStored, Answers;
  }

  /** These sources of the plan are captured as the connector delivers them for the requests expected of them. */
  ghost predicate Fed(
    feed: Feed, ttl: nat, plans: Sources, known: map<SourceId, Snapshot>, ids: set<SourceId>, read: KeyReader)
  {
    forall s <- plans :: s.id in ids ==>
      && s.id in known
      && Expected(s, KeysOf(known), read).Success?
      && IsFed(feed, ttl, s.id, Expected(s, KeysOf(known), read).value, known[s.id])
  }

  lemma SoundIsDistinct(c: Context, plans: Sources, resolved: map<SourceId, Prepared>)
    requires SoundPlan(c, plans, resolved)
    ensures DistinctSources(plans)
  {
  }

  lemma LevelIsFed(
    feed: Feed, ttl: nat, plans: Sources, prepared: map<SourceId, Prepared>, known: map<SourceId, Snapshot>,
    more: map<SourceId, Snapshot>, read: KeyReader)
    requires DistinctSources(plans) && LevelFed(feed, ttl, prepared, {}, more)
    requires forall id <- prepared :: AsExpected(plans, id, prepared[id], KeysOf(known), read)
    requires Extends(KeysOf(known), KeysOf(more))
    ensures Fed(feed, ttl, plans, more, prepared.Keys, read)
  {
    hide IsFed;
    forall s <- plans | s.id in prepared
      ensures s.id in more
      ensures Expected(s, KeysOf(more), read).Success?
      ensures IsFed(feed, ttl, s.id, Expected(s, KeysOf(more), read).value, more[s.id])
    {
      assert AsExpected(plans, s.id, prepared[s.id], KeysOf(known), read);
      SameIdSameSource(plans, s, prepared[s.id].plan);
      ExpectedIsStable(s, KeysOf(known), KeysOf(more), read);
    }
  }

  lemma FedTogether(
    feed: Feed, ttl: nat, plans: Sources, known: map<SourceId, Snapshot>, ids: set<SourceId>,
    more: map<SourceId, Snapshot>, others: set<SourceId>, read: KeyReader)
    requires Fed(feed, ttl, plans, known, ids, read) && Fed(feed, ttl, plans, more, others, read)
    requires Extends(KeysOf(known), KeysOf(more)) && forall id <- known :: id in more && more[id] == known[id]
    ensures Fed(feed, ttl, plans, more, ids + others, read)
  {
    hide IsFed;
    forall s <- plans | s.id in ids
      ensures s.id in more && Expected(s, KeysOf(more), read).Success?
      ensures IsFed(feed, ttl, s.id, Expected(s, KeysOf(more), read).value, more[s.id])
    {
      ExpectedIsStable(s, KeysOf(known), KeysOf(more), read);
    }
  }

  lemma NothingAccountedYet(log: seq<Charge>, limit: nat, reused: map<SourceId, Snapshot>)
    ensures Accounts(log, log, limit, [], KeysOf(reused), reused.Keys - reused.Keys)
  {
    NothingAccounted(log, limit, KeysOf(reused));
    assert reused.Keys - reused.Keys == {};
  }

  lemma LayerAccounted(
    before: seq<Charge>, log: seq<Charge>, after: seq<Charge>, limit: nat, reused: set<SourceId>,
    captured: seq<SnapshotKey>, known: map<SourceId, Snapshot>, layer: seq<SnapshotKey>,
    more: map<SourceId, Snapshot>, ids: set<SourceId>)
    requires Accounts(before, log, limit, captured, KeysOf(known), known.Keys - reused)
    requires Accounts(log, after, limit, layer, KeysOf(more), ids)
    requires Extends(KeysOf(known), KeysOf(more))
    requires reused <= known.Keys && ids !! known.Keys && more.Keys == known.Keys + ids
    ensures reused <= more.Keys
    ensures Accounts(before, after, limit, captured + layer, KeysOf(more), more.Keys - reused)
  {
    hide Accounts;
    AccountedTogether(before, log, after, limit, captured, KeysOf(known), known.Keys - reused, layer, KeysOf(more),
                      ids);
    assert known.Keys - reused + ids == more.Keys - reused;
  }

  lemma NothingFedYet(feed: Feed, ttl: nat, plans: Sources, reused: map<SourceId, Snapshot>, read: KeyReader)
    ensures Fed(feed, ttl, plans, reused, reused.Keys - reused.Keys, read)
  {
    assert reused.Keys - reused.Keys == {};
  }

  lemma LayerFed(
    feed: Feed, ttl: nat, plans: Sources, reused: set<SourceId>, known: map<SourceId, Snapshot>,
    more: map<SourceId, Snapshot>, ids: set<SourceId>, read: KeyReader)
    requires Fed(feed, ttl, plans, known, known.Keys - reused, read) && Fed(feed, ttl, plans, more, ids, read)
    requires Extends(KeysOf(known), KeysOf(more)) && forall id <- known :: id in more && more[id] == known[id]
    requires reused <= known.Keys && ids !! known.Keys && more.Keys == known.Keys + ids
    ensures Fed(feed, ttl, plans, more, more.Keys - reused, read)
  {
    hide Fed;
    FedTogether(feed, ttl, plans, known, known.Keys - reused, more, ids, read);
    assert known.Keys - reused + ids == more.Keys - reused;
  }

  /** What a run has extracted is what its plan extracts, and within the size limit. */
  lemma RunAccounted(
    c: Context, plans: Sources, before: seq<Charge>, after: seq<Charge>, limit: nat,
    captured: seq<SnapshotKey>, members: map<SourceId, SnapshotKey>)
    requires WellPlanned(plans) && Plan(c, plans).Success?
    requires Accounts(before, after, limit, captured, members, Refreshed(Plan(c, plans).value))
    ensures after == before + Delivered(captured)
    ensures CapturedOnce(captured, members, Refreshed(Plan(c, plans).value))
    ensures BytesOf(before) <= limit ==> BytesOf(before) + MemoryOf(captured) <= limit
  {
    AccountedSize(before, after, limit, captured, members, Refreshed(Plan(c, plans).value));
    hide Plan, CapturedOnce, Delivered;
  }

  lemma FreshIsNew(sources: Sources, known: set<SourceId>)
    requires FreshOrder(sources, known)
    ensures Ids(sources) !! known
  {
    hide DistinctSources;
  }

  lemma FreshLevel(level: Sources, rest: Sources, known: set<SourceId>)
    requires FreshOrder(level + rest, known)
    ensures DistinctSources(level) && Ids(level) !! known
    ensures FreshOrder(rest, known + Ids(level))
  {
    var all := level + rest;
    forall i, j | 0 <= i < j < |level| ensures level[i].id != level[j].id {
      assert all[i] == level[i] && all[j] == level[j];
    }
    forall i, j | 0 <= i < j < |rest| ensures rest[i].id != rest[j].id {
      assert all[|level| + i] == rest[i] && all[|level| + j] == rest[j];
    }
    forall s <- rest ensures s.id !in known + Ids(level) {
      var j :| 0 <= j < |rest| && rest[j] == s;
      assert all[|level| + j] == s;
      forall t <- level ensures t.id != s.id {
        var i :| 0 <= i < |level| && level[i] == t;
        assert all[i] == t;
      }
    }
    forall s <- level ensures s.id !in known {
      assert s in all;
    }
  }

  lemma IdsConcat(a: Sources, b: Sources)
    ensures Ids(a + b) == Ids(a) + Ids(b)
  {
    forall id ensures id in Ids(a + b) <==> id in Ids(a) + Ids(b) {
      if id in Ids(a + b) {
        var s :| s in a + b && s.id == id;
      }
      if id in Ids(a) {
        var s :| s in a && s.id == id;
        assert s in a + b;
      }
      if id in Ids(b) {
        var s :| s in b && s.id == id;
        assert s in a + b;
      }
    }
  }

  /** The layers still to be captured, when `known` is known and `all` is to be known in the end. */
  ghost predicate LayersLeft(plans: Sources, levels: seq<Sources>, known: set<SourceId>, all: set<SourceId>) {
    && ParentsKnown(levels, known)
    && FreshOrder(Flatten(levels), known)
    && (forall s <- Flatten(levels) :: s in plans)
    && known + Ids(Flatten(levels)) == all
  }

  lemma LayersStart(plans: Sources, sources: Sources, known: set<SourceId>)
    requires (forall s <- sources :: s in plans) && FreshOrder(sources, known)
    requires ParentsWithin(sources, known) && Levels(sources).Success?
    ensures LayersLeft(plans, Levels(sources).value, known, known + Ids(sources))
  {
    ParentsComeFirst(sources, known);
    FlattenIsPermutation(sources, known);
  }

  lemma LayersStep(plans: Sources, levels: seq<Sources>, known: set<SourceId>, all: set<SourceId>)
    requires LayersLeft(plans, levels, known, all) && levels != []
    ensures var level := levels[0];
            && DistinctSources(level)
            && Ids(level) !! known
            && (forall s <- level :: s in plans && (s.parent.Some? ==> s.parent.value in known))
            && LayersLeft(plans, levels[1..], known + Ids(level), all)
  {
    var level, rest := levels[0], Flatten(levels[1..]);
    assert Flatten(levels) == level + rest;
    FreshLevel(level, rest, known);
    IdsConcat(level, rest);
  }

  /** Materializes one layer against its known parents, and captures it. */
  method RefreshLevel(
    store: SnapshotStore, budget: RunBudget, feed: Feed, keep: bool, read: KeyReader, ghost c: Context,
    ghost plans: Sources, level: Sources, resolved: map<SourceId, Prepared>, known: map<SourceId, Snapshot>)
    returns (progress: Progress<map<SourceId, Snapshot>>, ghost captured: seq<SnapshotKey>)
    requires store.Valid() && budget.Valid() && FreshIds(feed)
    requires c.read == read && c.integrity == store.integrity && budget.rowLimit == RowLimit(c.options)
    requires SoundPlan(c, plans, resolved) && EntriesOf(plans, resolved)
    requires DistinctSources(level) && Ids(level) !! known.Keys
    requires forall s <- level :: s in plans && (s.parent.Some? ==> s.parent.value in known)
    requires Going(c, plans, resolved, store.directories, store.state.rows, known)
    requires Kept(keep, known, store.state.rows)
    modifies store, store.state`rows, budget
    ensures store.Valid() && budget.Valid()
    ensures Harmless(keep, old(store.directories), old(store.state.rows), store.directories, store.state.rows,
                     store.integrity)
    ensures progress.Done? ==>
              && Going(c, plans, resolved, store.directories, store.state.rows, progress.value)
              && Kept(keep, progress.value, store.state.rows)
              && progress.value.Keys == known.Keys + Ids(level)
              && Accounts(old(budget.log), budget.log, budget.byteLimit, captured, KeysOf(progress.value), Ids(level))
              && Extends(KeysOf(known), KeysOf(progress.value))
              && (forall id <- known :: id in progress.value && progress.value[id] == known[id])
              && Fed(feed, store.ttl, plans, progress.value, Ids(level), read)
  {
    captured := [];
    hide LevelFed, Fed, Accounts, Kept, Harmless, Going, LevelSoFar, AllStored, SoundPlan, EntriesOf, AsExpected,
         Materialize, Ids;
    HarmlessNothing(keep, store.directories, store.state.rows, store.integrity);
    LevelIsPlanned(c, plans, resolved, level);
    var prepared := MaterializeLevel(level, resolved, known, read);
    if prepared.Failure? {
      return Failed(prepared.error), captured;
    }
    ghost var d, r := store.directories, store.state.rows;
    LayerIsExpected(c, plans, resolved, d, r, known, level, prepared.value);
    SoundIsDistinct(c, plans, resolved);
    LayerIsCapturable(c, plans, resolved, d, r, known, prepared.value);
    progress, captured := CaptureLevel(store, budget, feed, keep, prepared.value, known);
    if progress.Done? {
      LevelExtends(d, r, store.directories, store.state.rows, c.integrity, budget.rowLimit, prepared.value, known,
                   progress.value);
      LevelIsFed(feed, store.ttl, plans, prepared.value, known, progress.value, read);
      GoingStep(c, plans, resolved, d, r, store.directories, store.state.rows, known, prepared.value, progress.value);
    }
  }

  /** `_refresh`: layer by layer over the sources to refresh, starting from the reused snapshots. */
  method Refresh(
    store: SnapshotStore, budget: RunBudget, feed: Feed, keep: bool, read: KeyReader, ghost c: Context,
    ghost plans: Sources, sources: Sources, resolved: map<SourceId, Prepared>, reused: map<SourceId, Snapshot>)
    returns (progress: Progress<map<SourceId, Snapshot>>, ghost captured: seq<SnapshotKey>)
    requires store.Valid() && budget.Valid() && FreshIds(feed)
    requires c.read == read && c.integrity == store.integrity && budget.rowLimit == RowLimit(c.options)
    requires SoundPlan(c, plans, resolved) && EntriesOf(plans, resolved)
    requires (forall s <- sources :: s in plans) && FreshOrder(sources, reused.Keys)
    requires ParentsWithin(sources, reused.Keys) && Levels(sources).Success?
    requires Going(c, plans, resolved, store.directories, store.state.rows, reused)
    requires Kept(keep, reused, store.state.rows)
    modifies store, store.state`rows, budget
    ensures store.Valid() && budget.Valid()
    ensures Harmless(keep, old(store.directories), old(store.state.rows), store.directories, store.state.rows,
                     store.integrity)
    ensures progress.Done? ==>
              && Going(c, plans, resolved, store.directories, store.state.rows, progress.value)
              && Kept(keep, progress.value, store.state.rows)
              && progress.value.Keys == reused.Keys + Ids(sources)
              && Accounts(old(budget.log), budget.log, budget.byteLimit, captured, KeysOf(progress.value), Ids(sources))
              && Fed(feed, store.ttl, plans, progress.value, Ids(sources), read)
  {
    captured := [];
    FreshIsNew(sources, reused.Keys);
    NothingAccountedYet(budget.log, budget.byteLimit, reused);
    NothingFedYet(feed, store.ttl, plans, reused, read);
    hide Fed, Accounts, Extends, Kept, Harmless, Going, LayersLeft, SoundPlan, EntriesOf, Levels, DistinctSources, Ids,
         FreshOrder, ParentsWithin;
    HarmlessNothing(keep, store.directories, store.state.rows, store.integrity);
    var invalid := *;
    if invalid {
      return Failed(PolicyError), captured;
    }
    var layered := SourceLevels(sources);
    LayersStart(plans, sources, reused.Keys);
    var levels, known, i := layered.value, reused, 0;
    assert levels[0..] == levels;
    while i < |levels|
      invariant 0 <= i <= |levels|
      invariant store.Valid() && budget.Valid()
      invariant Harmless(keep, old(store.directories), old(store.state.rows), store.directories, store.state.rows,
                         store.integrity)
      invariant Going(c, plans, resolved, store.directories, store.state.rows, known)
      invariant Kept(keep, known, store.state.rows)
      invariant reused.Keys <= known.Keys
      invariant Accounts(old(budget.log), budget.log, budget.byteLimit, captured, KeysOf(known),
                         known.Keys - reused.Keys)
      invariant Fed(feed, store.ttl, plans, known, known.Keys - reused.Keys, read)
      invariant LayersLeft(plans, levels[i..], known.Keys, reused.Keys + Ids(sources))
    {
      assert levels[i..][0] == levels[i] && levels[i..][1..] == levels[i + 1..];
      LayersStep(plans, levels[i..], known.Keys, reused.Keys + Ids(sources));
      ghost var d, r, log := store.directories, store.state.rows, budget.log;
      ghost var layer;
      progress, layer := RefreshLevel(store, budget, feed, keep, read, c, plans, levels[i], resolved, known);
      Chained(keep, store, old(store.directories), old(store.state.rows), d, r);
      if !progress.Done? {
        return;
      }
      LayerFed(feed, store.ttl, plans, reused.Keys, known, progress.value, Ids(levels[i]), read);
      LayerAccounted(old(budget.log), log, budget.log, budget.byteLimit, reused.Keys, captured, known, layer,
                     progress.value, Ids(levels[i]));
      captured := captured + layer;
      known := progress.value;
      i := i + 1;
    }
    LayersEnd(plans, known.Keys, reused.Keys + Ids(sources));
    assert known.Keys - reused.Keys == Ids(sources);
    return Done(known), captured;
  }

  lemma LayersEnd(plans: Sources, known: set<SourceId>, all: set<SourceId>)
    requires LayersLeft(plans, [], known, all)
    ensures known == all
  {
  }

  lemma NoIds()
    ensures Ids([]) == {}
  {
  }

  lemma LevelIsPlanned(c: Context, plans: Sources, resolved: map<SourceId, Prepared>, level: Sources)
    requires SoundPlan(c, plans, resolved) && forall s <- level :: s in plans
    ensures DistinctSources(plans) && forall s <- level :: s.id in resolved
  {
  }

  lemma LayerIsCapturable(
    c: Context, plans: Sources, resolved: map<SourceId, Prepared>, directories: Directories, rows: Rows,
    known: map<SourceId, Snapshot>, prepared: map<SourceId, Prepared>)
    requires Going(c, plans, resolved, directories, rows, known)
    requires forall id <- prepared :: AsExpected(plans, id, prepared[id], KeysOf(known), c.read)
    ensures AllStored(directories, rows, c.integrity, RowLimit(c.options), known)
    ensures forall id <- prepared ::
              && prepared[id].plan.id == id == prepared[id].decision.request.source
              && prepared[id].decision.request.projection != Some([])
  {
  }

  lemma FlattenIsPermutation(sources: Sources, known: set<SourceId>)
    requires Levels(sources).Success? && FreshOrder(sources, known)
    ensures FreshOrder(Flatten(Levels(sources).value), known)
    ensures Ids(Flatten(Levels(sources).value)) == Ids(sources)
    ensures forall s :: s in Flatten(Levels(sources).value) <==> s in sources
  {
    LevelsPartition(sources);
    PermutedDistinct(sources, Flatten(Levels(sources).value));
  }

  // ---------- from decisions to known snapshots ----------

  function Acting(plans: Sources, resolved: map<SourceId, Prepared>, action: Action): Sources
    requires forall s <- plans :: s.id in resolved
  {
    if plans == [] then []
    else
      (if resolved[plans[0].id].decision.action == action then [plans[0]] else [])
      + Acting(plans[1..], resolved, action)
  }

  lemma {:induction false} ActingMembers(
    plans: Sources, resolved: map<SourceId, Prepared>, action: Action, known: set<SourceId>)
    requires forall s <- plans :: s.id in resolved
    ensures forall s :: s in Acting(plans, resolved, action) <==>
              s in plans && resolved[s.id].decision.action == action
    ensures FreshOrder(plans, {}) ==> DistinctSources(Acting(plans, resolved, action))
  {
    if plans != [] {
      ActingMembers(plans[1..], resolved, action, known);
      var rest := Acting(plans[1..], resolved, action);
      assert plans == [plans[0]] + plans[1..];
      if FreshOrder(plans, {}) {
        FreshRest(plans, {});
        forall t <- rest ensures t.id != plans[0].id {
          assert t in plans[1..];
        }
      }
    }
  }

  function ReusedSnapshots(resolved: map<SourceId, Prepared>): map<SourceId, Snapshot> {
    map id <- resolved | resolved[id].decision.action == Reuse && resolved[id].decision.snapshot.Some?
      :: resolved[id].decision.snapshot.value
  }

  /** What planning decided to reuse is captured, and stays so while rows are only marked corrupt. */
  lemma ReusedIsStored(c: Context, e: Prepared, parent: Option<Decision>, rows: Rows)
    requires WorldValid(c) && MarksOnly(c.rows, rows, c.directories, c.integrity)
    requires WellFormed(e.plan) && (parent.Some? <==> e.plan.parent.Some?)
    requires SoundEntry(c, e, parent) && e.decision.action == Reuse
    requires parent.Some? ==> HasSnapshot(parent.value)
    ensures Stored(c.directories, rows, c.integrity, e.plan.id, e.decision.snapshot.value)
    ensures e.decision.snapshot.value.rows <= RowLimit(c.options)
  {
    var key := e.decision.snapshot.value.key;
    assert Usable(c.rows, c.directories, c.integrity, Some(key)).Some?;
    assert rows[key] == c.rows[key];
    assert RowAuthentic(key, c.rows[key]);
    assert e.decision.request.source == e.plan.id;
  }

  lemma ReusedIsCoherent(c: Context, plans: Sources, resolved: map<SourceId, Prepared>, s: PlannedSource)
    requires SoundPlan(c, plans, resolved) && EntriesOf(plans, resolved) && s in plans
    requires s.id in resolved && resolved[s.id].decision.action == Reuse
    ensures CoherentMember(s, KeysOf(ReusedSnapshots(resolved)), c.read)
  {
    hide SoundPlan, EntriesOf, SoundEntry, CoherentMember;
    var members, e := KeysOf(ReusedSnapshots(resolved)), resolved[s.id];
    EntryFacts(c, plans, resolved, s.id);
    if s.parent.None? {
      ReusedRootIsCoherent(c, s, e, members);
    } else {
      EntryFacts(c, plans, resolved, s.parent.value);
      ReusedParentIsReused(c, e, resolved[s.parent.value], ParentDecision(resolved[s.parent.value].plan, resolved));
      ReusedChildIsCoherent(c, s, e, resolved[s.parent.value].decision, members);
    }
  }

  lemma EntryFacts(c: Context, plans: Sources, resolved: map<SourceId, Prepared>, id: SourceId)
    requires SoundPlan(c, plans, resolved) && EntriesOf(plans, resolved) && id in resolved
    ensures var s := resolved[id].plan;
            && s.id == id
            && s in plans
            && WellFormed(s)
            && (s.parent.Some? ==> s.parent.value in resolved)
            && HasSnapshot(resolved[id].decision)
            && SoundEntry(c, resolved[id], ParentDecision(s, resolved))
    ensures forall s <- plans :: s.id == id ==> s == resolved[id].plan
  {
    hide SoundEntry;
    forall s <- plans | s.id == id ensures s == resolved[id].plan {
      SameIdSameSource(plans, s, resolved[id].plan);
    }
  }

  lemma ReusedParentIsReused(c: Context, e: Prepared, parent: Prepared, grandparent: Option<Decision>)
    requires WellFormed(e.plan) && e.plan.parent.Some? && HasSnapshot(parent.decision)
    requires WellFormed(parent.plan) && (grandparent.Some? <==> parent.plan.parent.Some?)
    requires SoundEntry(c, e, Some(parent.decision)) && SoundEntry(c, parent, grandparent)
    requires e.decision.action == Reuse
    ensures parent.decision.action == Reuse
    ensures Describes(parent.decision.snapshot.value, parent.decision.snapshot.value.key)
  {
    hide CohortRequest, Held, TooOld, Describes;
  }

  lemma ReusedRootIsCoherent(c: Context, s: PlannedSource, e: Prepared, members: map<SourceId, SnapshotKey>)
    requires WellFormed(s) && e.plan == s && s.parent.None?
    requires SoundEntry(c, e, None) && e.decision.action == Reuse
    requires s.id in members && members[s.id] == e.decision.snapshot.value.key
    ensures CoherentMember(s, members, c.read)
  {
    hide CohortRequest, Held, TooOld;
  }

  lemma ReusedChildIsCoherent(
    c: Context, s: PlannedSource, e: Prepared, parent: Decision, members: map<SourceId, SnapshotKey>)
    requires WellFormed(s) && e.plan == s && s.parent.Some? && HasSnapshot(parent)
    requires SoundEntry(c, e, Some(parent)) && e.decision.action == Reuse && parent.action == Reuse
    requires Describes(parent.snapshot.value, parent.snapshot.value.key)
    requires s.parent.value in members && members[s.parent.value] == parent.snapshot.value.key
    requires s.id in members && members[s.id] == e.decision.snapshot.value.key
    ensures CoherentMember(s, members, c.read)
  {
    hide CohortRequest, Held, TooOld;
  }

  lemma ReusedIsGoing(c: Context, plans: Sources, resolved: map<SourceId, Prepared>, rows: Rows)
    requires WorldValid(c) && MarksOnly(c.rows, rows, c.directories, c.integrity)
    requires SoundPlan(c, plans, resolved) && EntriesOf(plans, resolved)
    ensures Going(c, plans, resolved, c.directories, rows, ReusedSnapshots(resolved))
  {
    var known := ReusedSnapshots(resolved);
    hide WorldValid, MarksOnly, SoundEntry, Stored, CoherentMember;
    forall id <- known
      ensures Stored(c.directories, rows, c.integrity, id, known[id]) && known[id].rows <= RowLimit(c.options)
    {
      var s := resolved[id].plan;
      assert s in plans;
      if s.parent.Some? {
        assert resolved[s.parent.value].plan in plans && HasSnapshot(resolved[s.parent.value].decision);
      }
      ReusedIsStored(c, resolved[id], ParentDecision(s, resolved), rows);
    }
    forall s <- plans | s.id in KeysOf(known) ensures CoherentMember(s, KeysOf(known), c.read) {
      ReusedIsCoherent(c, plans, resolved, s);
    }
    forall id <- resolved | resolved[id].decision.action == Reuse ensures resolved[id].decision.snapshot.Some? {
      assert resolved[id].plan in plans;
    }
  }

  /** When nothing is missing, what is refreshed has its parents among itself and what is reused. */
  lemma RefreshIsReady(c: Context, plans: Sources, resolved: map<SourceId, Prepared>)
    requires WellPlanned(plans) && Levels(plans).Success?
    requires SoundPlan(c, plans, resolved) && EntriesOf(plans, resolved)
    requires forall id <- resolved :: resolved[id].decision.action != Missing
    ensures var sources := Acting(plans, resolved, Action.Refresh);
            && (forall s <- sources :: s in plans)
            && FreshOrder(sources, ReusedSnapshots(resolved).Keys)
            && ParentsWithin(sources, ReusedSnapshots(resolved).Keys)
            && Levels(sources).Success?
            && ReusedSnapshots(resolved).Keys + Ids(sources) == resolved.Keys
  {
    hide SoundEntry, Levels, Acting, HasSnapshot;
    var sources, reused := Acting(plans, resolved, Action.Refresh), ReusedSnapshots(resolved);
    ActingMembers(plans, resolved, Action.Refresh, {});
    PartHasNoCycle(sources, plans);
    forall id <- resolved ensures id in reused <==> id !in Ids(sources) {
      EitherReusedOrRefreshed(c, plans, resolved, sources, id);
    }
    hide SoundPlan, EntriesOf, ReusedSnapshots;
    forall s <- sources ensures s.id !in reused && (s.parent.Some? ==> s.parent.value in Ids(sources) + reused.Keys) {
      assert s.id in Ids(sources);
      assert s.parent.Some? ==> s.parent.value in Ids(plans);
    }
  }

  lemma EitherReusedOrRefreshed(
    c: Context, plans: Sources, resolved: map<SourceId, Prepared>, sources: Sources, id: SourceId)
    requires SoundPlan(c, plans, resolved) && EntriesOf(plans, resolved)
    requires id in resolved && resolved[id].decision.action != Missing
    requires forall s <- plans :: s.id in resolved
    requires forall s :: s in sources <==> s in plans && resolved[s.id].decision.action == Action.Refresh
    ensures id in ReusedSnapshots(resolved) <==> id !in Ids(sources)
  {
    EntryFacts(c, plans, resolved, id);
    hide SoundPlan, EntriesOf, SoundEntry;
    if id in Ids(sources) {
      var t :| t in sources && t.id == id;
    } else {
      assert resolved[id].plan !in sources;
    }
  }

  lemma PartHasNoCycle(part: Sources, whole: Sources)
    requires Levels(whole).Success? && forall s <- part :: s in whole
    ensures Levels(part).Success?
  {
    FailsOnCycles(part);
    FailsOnCycles(whole);
    if HasCycle(part) {
      var chain: Sources :| IsChain(part, chain) && |chain| >= 2 && chain[0] == chain[|chain| - 1];
      Widen(part, whole, chain);
    }
  }

  // ---------- gathering every snapshot ----------

  lemma PinKeepsGoing(
    c: Context, plans: Sources, resolved: map<SourceId, Prepared>, d: Directories, r: Rows,
    known: map<SourceId, Snapshot>, id: SourceId)
    requires Going(c, plans, resolved, d, r, known) && id in known
    requires Authentic(d[known[id].key], known[id].key)
    ensures known[id].key in d && known[id].key in r && Load(d[known[id].key]) == Success(known[id])
    ensures Going(c, plans, resolved, d[known[id].key := Pinned(d[known[id].key])], SetPinned(r, known[id].key),
                  known[id := known[id].(pinned := true)])
  {
    var s := known[id];
    assert Stored(d, r, c.integrity, id, s);
    var directories, rows, after := d[s.key := Pinned(d[s.key])], SetPinned(r, s.key), known[id := s.(pinned := true)];
    StoredReads(d, r, c.integrity, id, s);
    hide Authentic, KnownCoherent, ReusedKept, Pinned, Load, Stored, AllStored, SetPinned, Validates;
    PinReads(d[s.key], s.key, s, c.integrity);
    assert KeysOf(after) == KeysOf(known);
    PinKeepsStored(d, r, c.integrity, RowLimit(c.options), known, id);
  }

  lemma StoredReads(d: Directories, r: Rows, integrity: Integrity, id: SourceId, s: Snapshot)
    requires Stored(d, r, integrity, id, s)
    ensures Load(d[s.key]) == Success(s) && Validates(d[s.key], s, integrity)
  {
  }

  lemma PinKeepsStored(
    d: Directories, r: Rows, integrity: Integrity, limit: nat, known: map<SourceId, Snapshot>, id: SourceId)
    requires AllStored(d, r, integrity, limit, known) && id in known
    requires known[id].key in d && Load(Pinned(d[known[id].key])) == Success(known[id].(pinned := true))
    requires Validates(Pinned(d[known[id].key]), known[id].(pinned := true), integrity)
    ensures AllStored(d[known[id].key := Pinned(d[known[id].key])], SetPinned(r, known[id].key), integrity, limit,
                      known[id := known[id].(pinned := true)])
  {
    var s := known[id];
    var directories, rows := d[s.key := Pinned(d[s.key])], SetPinned(r, s.key);
    assert Stored(d, r, integrity, id, s);
    PinnedIsStored(d, r, integrity, id, s);
    StoredIsItsSource(d, r, integrity, id, s);
    assert OnlyTouches(s.key, d, r, directories, rows);
    assert AllStored(d, r, integrity, limit, known - {id}) && s.rows <= limit;
    hide Pinned, Load, Validates, AllStored, Stored, OnlyTouches, SetPinned;
    OthersStayStored(s.key, d, r, directories, rows, integrity, limit, known - {id});
    OneMoreStored(directories, rows, integrity, limit, known - {id}, id, s.(pinned := true));
    assert (known - {id})[id := s.(pinned := true)] == known[id := s.(pinned := true)];
  }

  lemma PinnedIsStored(d: Directories, r: Rows, integrity: Integrity, id: SourceId, s: Snapshot)
    requires Stored(d, r, integrity, id, s)
    requires Load(Pinned(d[s.key])) == Success(s.(pinned := true))
    requires Validates(Pinned(d[s.key]), s.(pinned := true), integrity)
    ensures Stored(d[s.key := Pinned(d[s.key])], SetPinned(r, s.key), integrity, id, s.(pinned := true))
  {
    hide Pinned, Load, Validates;
  }

  method PinKnown(
    store: SnapshotStore, ghost c: Context, ghost plans: Sources, ghost resolved: map<SourceId, Prepared>,
    known: map<SourceId, Snapshot>, id: SourceId)
    returns (outcome: Outcome)
    requires store.Valid() && c.integrity == store.integrity && id in known
    requires Going(c, plans, resolved, store.directories, store.state.rows, known)
    modifies store`directories, store.state`rows
    ensures store.Valid()
    ensures Harmless(true, old(store.directories), old(store.state.rows), store.directories, store.state.rows,
                     store.integrity)
    ensures outcome.Written? ==>
              && outcome.snapshot == known[id].(pinned := true)
              && store.state.rows == SetPinned(old(store.state.rows), known[id].key)
              && Going(c, plans, resolved, store.directories, store.state.rows, known[id := outcome.snapshot])
  {
    hide Going, Preserved, ActivatesNothing, Pinned, Load;
    KnownIsAuthentic(store, c, plans, resolved, known, id);
    PinKeepsGoing(c, plans, resolved, store.directories, store.state.rows, known, id);
    outcome := store.Pin(known[id]);
  }

  /** `keep_snapshot`: pins everything that is reused. */
  method PinReused(
    store: SnapshotStore, ghost c: Context, ghost plans: Sources, ghost resolved: map<SourceId, Prepared>,
    reused: map<SourceId, Snapshot>)
    returns (progress: Progress<map<SourceId, Snapshot>>)
    requires store.Valid() && c.integrity == store.integrity
    requires Going(c, plans, resolved, store.directories, store.state.rows, reused)
    modifies store`directories, store.state`rows
    ensures store.Valid()
    ensures Harmless(true, old(store.directories), old(store.state.rows), store.directories, store.state.rows,
                     store.integrity)
    ensures !progress.Failed?
    ensures progress.Done? ==>
              && Going(c, plans, resolved, store.directories, store.state.rows, progress.value)
              && progress.value.Keys == reused.Keys
              && Kept(true, progress.value, store.state.rows)
              && forall id <- reused :: progress.value[id].key == reused[id].key
  {
    hide Going, Harmless, SetPinned, PinnedSoFar;
    NothingPinned(reused, store.state.rows);
    HarmlessNothing(true, store.directories, store.state.rows, store.integrity);
    var known, todo := reused, reused.Keys;
    while todo != {}
      invariant store.Valid() && todo <= reused.Keys == known.Keys
      invariant Harmless(true, old(store.directories), old(store.state.rows), store.directories, store.state.rows,
                         store.integrity)
      invariant Going(c, plans, resolved, store.directories, store.state.rows, known)
      invariant PinnedSoFar(reused, known, todo, store.state.rows)
    {
      var id :| id in todo;
      ghost var d, r := store.directories, store.state.rows;
      KnownIsIndexed(store, c, plans, resolved, known, id);
      PinnedOneMore(reused, known, todo, r, id);
      var outcome := PinKnown(store, c, plans, resolved, known, id);
      Chained(true, store, old(store.directories), old(store.state.rows), d, r);
      if !outcome.Written? {
        return Died;
      }
      known := known[id := outcome.snapshot];
      todo := todo - {id};
    }
    AllPinned(reused, known, store.state.rows);
    return Done(known);
  }

  /** All but `todo` are pinned, and every key is what it was. */
  ghost predicate PinnedSoFar(
    reused: map<SourceId, Snapshot>, known: map<SourceId, Snapshot>, todo: set<SourceId>, rows: Rows)
  {
    && known.Keys == reused.Keys
    && forall id <- reused ::
         && known[id].key == reused[id].key
         && (id !in todo ==> known[id].pinned && known[id].key in rows && rows[known[id].key].pinned)
  }

  lemma NothingPinned(reused: map<SourceId, Snapshot>, rows: Rows)
    ensures PinnedSoFar(reused, reused, reused.Keys, rows)
  {
  }

  lemma PinnedOneMore(
    reused: map<SourceId, Snapshot>, known: map<SourceId, Snapshot>, todo: set<SourceId>, rows: Rows, id: SourceId)
    requires PinnedSoFar(reused, known, todo, rows) && id in known && known[id].key in rows
    ensures PinnedSoFar(reused, known[id := known[id].(pinned := true)], todo - {id}, SetPinned(rows, known[id].key))
  {
    PinsRow(rows, known[id].key);
    hide SetPinned;
  }

  lemma AllPinned(reused: map<SourceId, Snapshot>, known: map<SourceId, Snapshot>, rows: Rows)
    requires PinnedSoFar(reused, known, {}, rows)
    ensures Kept(true, known, rows)
    ensures forall id <- reused :: known[id].key == reused[id].key
  {
  }

  lemma PinsRow(rows: Rows, key: SnapshotKey)
    requires key in rows
    ensures key in SetPinned(rows, key) && SetPinned(rows, key)[key].pinned
    ensures forall k <- rows :: k in SetPinned(rows, key) && (rows[k].pinned ==> SetPinned(rows, key)[k].pinned)
  {
  }

  lemma KnownIsIndexed(
    store: SnapshotStore, c: Context, plans: Sources, resolved: map<SourceId, Prepared>,
    known: map<SourceId, Snapshot>, id: SourceId)
    requires Going(c, plans, resolved, store.directories, store.state.rows, known) && id in known
    ensures known[id].key in store.state.rows
  {
    assert Stored(store.directories, store.state.rows, c.integrity, id, known[id]);
  }

  lemma KnownIsAuthentic(
    store: SnapshotStore, c: Context, plans: Sources, resolved: map<SourceId, Prepared>,
    known: map<SourceId, Snapshot>, id: SourceId)
    requires store.Valid() && Going(c, plans, resolved, store.directories, store.state.rows, known) && id in known
    ensures known[id].key in store.directories && Authentic(store.directories[known[id].key], known[id].key)
  {
    assert Stored(store.directories, store.state.rows, c.integrity, id, known[id]);
  }

  /** Every source of the plan is captured, within the row limit, and the whole is coherent. */
  ghost predicate Gathered(
    plans: Sources, read: KeyReader, limit: nat, directories: Directories, rows: Rows, integrity: Integrity,
    known: map<SourceId, Snapshot>)
  {
    && known.Keys == Ids(plans)
    && AllStored(directories, rows, integrity, limit, known)
    && Coherent(plans, KeysOf(known), read)
  }

  lemma GoingIsGathered(
    c: Context, plans: Sources, resolved: map<SourceId, Prepared>, directories: Directories, rows: Rows,
    known: map<SourceId, Snapshot>)
    requires Going(c, plans, resolved, directories, rows, known) && known.Keys == Ids(plans)
    ensures Gathered(plans, c.read, RowLimit(c.options), directories, rows, c.integrity, known)
  {
    forall s <- plans ensures CoherentMember(s, KeysOf(known), c.read) {
      assert s.id in KeysOf(known);
    }
  }

  lemma PlanIsReady(store: SnapshotStore, c: Context, plans: Sources, rows: Rows)
    requires RowsValid(rows) && c.rows == rows && c.directories == store.directories && WellPlanned(plans)
    requires AllAuthentic(store.directories)
    requires AllRowsAuthentic(rows)
    requires Plan(c, plans).Success?
    ensures WorldValid(c) && Levels(plans).Success?
    ensures SoundPlan(c, plans, Plan(c, plans).value)
    ensures EntriesOf(plans, Plan(c, plans).value)
    ensures Plan(c, plans).value.Keys == Ids(plans)
  {
    PlanIsConsistent(c, plans);
    EntriesAreSound(c, plans);
    hide SoundPlan, AllConsistent, ResolveAll;
    forall id <- Plan(c, plans).value
      ensures Plan(c, plans).value[id].plan in plans && Plan(c, plans).value[id].plan.id == id
    {
      var s :| s in plans && s.id == id;
    }
  }

  lemma MarksAreHarmless(
    keep: bool, before: Rows, after: Rows, directories: Directories, integrity: Integrity)
    requires MarksOnly(before, after, directories, integrity)
    ensures Harmless(keep, directories, before, directories, after, integrity)
  {
    MarksActivateNothing(before, after, directories, integrity);
  }

  /** Pins what is reused, if asked to, and refreshes the rest. */
  method Obtain(
    store: SnapshotStore, budget: RunBudget, feed: Feed, keep: bool, read: KeyReader, ghost c: Context,
    ghost plans: Sources, sources: Sources, resolved: map<SourceId, Prepared>)
    returns (progress: Progress<map<SourceId, Snapshot>>, ghost captured: seq<SnapshotKey>)
    requires store.Valid() && budget.Valid() && FreshIds(feed)
    requires c.read == read && c.integrity == store.integrity && budget.rowLimit == RowLimit(c.options)
    requires SoundPlan(c, plans, resolved) && EntriesOf(plans, resolved)
    requires (forall s <- sources :: s in plans) && FreshOrder(sources, ReusedSnapshots(resolved).Keys)
    requires ParentsWithin(sources, ReusedSnapshots(resolved).Keys) && Levels(sources).Success?
    requires Going(c, plans, resolved, store.directories, store.state.rows, ReusedSnapshots(resolved))
    modifies store, store.state`rows, budget
    ensures store.Valid() && budget.Valid()
    ensures sources == [] ==> budget.log == old(budget.log)
    ensures Harmless(keep, old(store.directories), old(store.state.rows), store.directories, store.state.rows,
                     store.integrity)
    ensures progress.Done? ==>
              && Going(c, plans, resolved, store.directories, store.state.rows, progress.value)
              && Kept(keep, progress.value, store.state.rows)
              && progress.value.Keys == ReusedSnapshots(resolved).Keys + Ids(sources)
              && Accounts(old(budget.log), budget.log, budget.byteLimit, captured, KeysOf(progress.value), Ids(sources))
              && Fed(feed, store.ttl, plans, progress.value, Ids(sources), read)
    ensures sources == [] ==> !progress.Failed?
  {
    captured := [];
    hide Accounts, Harmless, Going, SoundPlan, EntriesOf, Levels, FreshOrder, Ids, ParentsWithin;
    var known := ReusedSnapshots(resolved);
    HarmlessNothing(keep, store.directories, store.state.rows, store.integrity);
    if keep {
      var pinned := PinReused(store, c, plans, resolved, known);
      if !pinned.Done? {
        return pinned, captured;
      }
      known := pinned.value;
    }
    ghost var d, r := store.directories, store.state.rows;
    if sources == [] {
      NoIds();
      assert Fed(feed, store.ttl, plans, known, {}, read);
      NothingAccounted(budget.log, budget.byteLimit, KeysOf(known));
      return Done(known), captured;
    }
    progress, captured := Refresh(store, budget, feed, keep, read, c, plans, sources, resolved, known);
    Chained(keep, store, old(store.directories), old(store.state.rows), d, r);
  }

  /** The sources that the plan extracts. */
  function Refreshed(resolved: map<SourceId, Prepared>): set<SourceId> {
    set id <- resolved | resolved[id].decision.action == Action.Refresh
  }

  /** Some source is neither cached nor may it be extracted. */
  predicate LacksSource(resolved: map<SourceId, Prepared>) {
    exists id <- resolved :: resolved[id].decision.action == Missing
  }

  lemma LackingIsActing(plans: Sources, resolved: map<SourceId, Prepared>)
    requires EntriesOf(plans, resolved) && forall s <- plans :: s.id in resolved
    ensures LacksSource(resolved) <==> Acting(plans, resolved, Missing) != []
  {
    ActingMembers(plans, resolved, Missing, {});
    hide Acting;
    if LacksSource(resolved) {
      var id :| id in resolved && resolved[id].decision.action == Missing;
      assert resolved[id].plan in Acting(plans, resolved, Missing);
    }
    if Acting(plans, resolved, Missing) != [] {
      assert Acting(plans, resolved, Missing)[0] in plans;
    }
  }

  lemma NoneRefreshed(sources: Sources)
    ensures sources != [] ==> Ids(sources) != {}
  {
    if sources != [] {
      assert sources[0].id in Ids(sources);
    }
  }

  lemma RefreshedAreActing(plans: Sources, resolved: map<SourceId, Prepared>)
    requires EntriesOf(plans, resolved) && forall s <- plans :: s.id in resolved
    ensures Ids(Acting(plans, resolved, Action.Refresh)) == Refreshed(resolved)
  {
    ActingMembers(plans, resolved, Action.Refresh, {});
    hide Acting;
    forall id <- Refreshed(resolved) ensures id in Ids(Acting(plans, resolved, Action.Refresh)) {
      assert resolved[id].plan in Acting(plans, resolved, Action.Refresh);
    }
  }

  /** From the plan to a snapshot for every source; nothing is activated on the way, wherever it stops. */
  method Gather(
    store: SnapshotStore, budget: RunBudget, feed: Feed, keep: bool, ghost c: Context,
    options: Options, read: KeyReader, clock: Clock, plans: Sources)
    returns (progress: Progress<map<SourceId, Snapshot>>, ghost captured: seq<SnapshotKey>)
    requires store.Valid() && budget.Valid() && FreshIds(feed) && WellPlanned(plans)
    requires c == Context(store.state.rows, store.directories, store.integrity, store.ttl, options, read, clock)
    requires budget.rowLimit == RowLimit(options)
    modifies store, store.state`rows, budget
    ensures store.Valid() && budget.Valid()
    ensures LocalOnly(options) ==> budget.log == old(budget.log)
    ensures Harmless(keep, old(store.directories), old(store.state.rows), store.directories, store.state.rows,
                     store.integrity)
    ensures progress.Done? ==>
              && Gathered(plans, read, RowLimit(options), store.directories, store.state.rows, store.integrity,
                          progress.value)
              && Kept(keep, progress.value, store.state.rows)
              && Plan(c, plans).Success?
              && ReusedKept(Plan(c, plans).value, KeysOf(progress.value))
              && Accounts(old(budget.log), budget.log, budget.byteLimit, captured, KeysOf(progress.value),
                          Refreshed(Plan(c, plans).value))
              && Fed(feed, store.ttl, plans, progress.value, Refreshed(Plan(c, plans).value), read)
    ensures Plan(c, plans).Failure? ==> progress == Failed(Plan(c, plans).error)
    ensures Plan(c, plans).Success? && LacksSource(Plan(c, plans).value) ==> progress == Failed(OfflineViolation)
    ensures Plan(c, plans).Success? && !LacksSource(Plan(c, plans).value) && Refreshed(Plan(c, plans).value) == {} ==>
              !progress.Failed?
  {
    captured := [];
    hide LacksSource, Fed, Accounts, Refreshed, Kept, Harmless, Going, Gathered, WorldValid, SoundPlan, EntriesOf, Plan,
         MarksOnly, Levels, FreshOrder, Acting;
    ghost var d0, r0 := store.directories, store.state.rows;
    var planned := Prepare(store, c, options, read, clock, plans);
    MarksAreHarmless(keep, r0, store.state.rows, store.directories, store.integrity);
    if planned.Failure? {
      return Failed(planned.error), captured;
    }
    PlanIsReady(store, c, plans, r0);
    var resolved := planned.value;
    PlanLooksUp(c, plans, resolved);
    LackingIsActing(plans, resolved);
    if Acting(plans, resolved, Missing) != [] {
      return Failed(OfflineViolation), captured;
    }
    NothingMissing(c, plans, resolved);
    if LocalOnly(options) {
      NothingToExtract(c, plans);
    }
    RefreshIsReady(c, plans, resolved);
    ReusedIsGoing(c, plans, resolved, store.state.rows);
    RefreshedAreActing(plans, resolved);
    var sources := Acting(plans, resolved, Action.Refresh);
    if options.mode == Offline && sources != [] {
      return Failed(OfflineViolation), captured;
    }
    NoneRefreshed(sources);
    ghost var d, r := store.directories, store.state.rows;
    progress, captured := Obtain(store, budget, feed, keep, read, c, plans, sources, resolved);
    Chained(keep, store, d0, r0, d, r);
    if progress.Done? {
      GoingIsGathered(c, plans, resolved, store.directories, store.state.rows, progress.value);
      GoingKeepsReused(c, plans, resolved, store.directories, store.state.rows, progress.value);
    }
  }

  lemma NothingToExtract(c: Context, plans: Sources)
    requires WellPlanned(plans) && LocalOnly(c.options) && Plan(c, plans).Success?
    requires forall s <- plans :: s.id in Plan(c, plans).value
    ensures Acting(plans, Plan(c, plans).value, Action.Refresh) == []
  {
    hide Plan, Acting;
    forall s <- plans ensures Plan(c, plans).value[s.id].decision.action != Action.Refresh {
      LocalPlansNeverRefresh(c, plans, s.id);
    }
    NoneActing(plans, Plan(c, plans).value, Action.Refresh);
  }

  lemma {:induction false} NoneActing(plans: Sources, resolved: map<SourceId, Prepared>, action: Action)
    requires forall s <- plans :: s.id in resolved && resolved[s.id].decision.action != action
    ensures Acting(plans, resolved, action) == []
  {
    if plans != [] {
      NoneActing(plans[1..], resolved, action);
    }
  }

  lemma GoingKeepsReused(
    c: Context, plans: Sources, resolved: map<SourceId, Prepared>, directories: Directories, rows: Rows,
    known: map<SourceId, Snapshot>)
    requires Going(c, plans, resolved, directories, rows, known)
    ensures ReusedKept(resolved, KeysOf(known))
  {
  }

  lemma PlanLooksUp(c: Context, plans: Sources, resolved: map<SourceId, Prepared>)
    requires SoundPlan(c, plans, resolved)
    ensures forall s <- plans :: s.id in resolved
  {
  }

  lemma NothingMissing(c: Context, plans: Sources, resolved: map<SourceId, Prepared>)
    requires SoundPlan(c, plans, resolved) && EntriesOf(plans, resolved)
    requires (forall s <- plans :: s.id in resolved) && Acting(plans, resolved, Missing) == []
    ensures forall id <- resolved :: resolved[id].decision.action != Missing
  {
    hide SoundEntry;
    ActingMembers(plans, resolved, Missing, {});
    forall id <- resolved ensures resolved[id].decision.action != Missing {
      assert resolved[id].plan !in Acting(plans, resolved, Missing);
    }
  }

  // ---------- publication ----------

  /** The identity of a dataset is determined by its members, for a key digests its scope. */
  function IdOf(members: map<SourceId, SnapshotKey>): DatasetId {
    DatasetId(members, map id <- members :: members[id].fingerprint.request.scope)
  }

  lemma IdentityIsDetermined(
    directories: Directories, rows: Rows, integrity: Integrity, limit: nat, known: map<SourceId, Snapshot>)
    requires AllStored(directories, rows, integrity, limit, known)
    ensures IdentityOf(known) == IdOf(KeysOf(known))
  {
    forall id <- known ensures known[id].request.scope == known[id].key.fingerprint.request.scope {
      assert Stored(directories, rows, integrity, id, known[id]);
    }
    hide AllStored;
    SameIdentity(known, KeysOf(known));
  }

  /** The files of the datasets directory. */
  class DatasetFiles {
    var files: map<DatasetId, Payload>

    constructor ()
      ensures files == map[]
    {
      files := map[];
    }
  }

  /** Every recorded dataset, and every dataset file, is stored under the identity of its contents. */
  ghost predicate GenuineDatasets(datasets: seq<DatasetRow>, files: map<DatasetId, Payload>) {
    && (forall d <- datasets :: d.id == DatasetId(d.payload.snapshots, d.payload.scopes))
    && (forall id <- files :: id == DatasetId(files[id].snapshots, files[id].scopes))
  }

  /** The member is intact, within the row limit, and the active capture of its request. */
  ghost predicate InForce(
    directories: Directories, rows: Rows, integrity: Integrity, limit: nat, id: SourceId, key: SnapshotKey)
  {
    && Source(key) == id
    && Usable(rows, directories, integrity, Some(key)).Some?
    && Usable(rows, directories, integrity, Some(key)).value.rows <= limit
    && IsActive(rows, id, key.fingerprint, key)
  }

  lemma StoredIsActivatable(
    directories: Directories, rows: Rows, integrity: Integrity, limit: nat, known: map<SourceId, Snapshot>)
    requires AllStored(directories, rows, integrity, limit, known)
    ensures AllActivatable(rows, KeysOf(known))
  {
    forall id <- known ensures Activatable(rows, id, known[id].key) {
      assert Stored(directories, rows, integrity, id, known[id]);
    }
  }

  lemma ActivatedIsInForce(
    directories: Directories, rows: Rows, integrity: Integrity, limit: nat, known: map<SourceId, Snapshot>)
    requires AllStored(directories, rows, integrity, limit, known) && RowsValid(rows)
    ensures forall id <- known ::
              InForce(directories, Activated(rows, KeysOf(known)), integrity, limit, id, known[id].key)
  {
    hide RowsValid, Activated, Stored, InForce;
    StoredIsActivatable(directories, rows, integrity, limit, known);
    ActivatedMembers(rows, KeysOf(known));
    forall id <- known
      ensures InForce(directories, Activated(rows, KeysOf(known)), integrity, limit, id, known[id].key)
    {
      assert KeysOf(known)[id] == known[id].key;
      ActivatedRow(rows, KeysOf(known), known[id].key);
      StoredIsInForce(directories, rows, Activated(rows, KeysOf(known)), integrity, limit, id, known[id]);
    }
  }

  lemma ActivatedRow(rows: Rows, members: map<SourceId, SnapshotKey>, key: SnapshotKey)
    requires key in rows
    ensures key in Activated(rows, members)
    ensures Activated(rows, members)[key] == rows[key].(active := Activated(rows, members)[key].active)
  {
    hide Displaced;
  }

  lemma StoredIsInForce(
    directories: Directories, rows: Rows, after: Rows, integrity: Integrity, limit: nat, id: SourceId, s: Snapshot)
    requires Stored(directories, rows, integrity, id, s) && s.rows <= limit
    requires s.key in after && after[s.key] == rows[s.key].(active := true)
    ensures InForce(directories, after, integrity, limit, id, s.key)
  {
    hide Read, Describes;
  }

  lemma PublishedIsGenuine(t: Tables, id: DatasetId, payload: Payload, files: map<DatasetId, Payload>)
    requires GenuineDatasets(t.datasets, files) && CommitDataset(t, id, payload).Success?
    requires id == DatasetId(payload.snapshots, payload.scopes)
    ensures GenuineDatasets(CommitDataset(t, id, payload).value.datasets, files)
  {
    var after := CommitDataset(t, id, payload).value.datasets;
    forall d <- after ensures d.id == DatasetId(d.payload.snapshots, d.payload.scopes) {
      var i :| 0 <= i < |after| && after[i] == d;
      assert i < |t.datasets| ==> t.datasets[i] in t.datasets && t.datasets[i].payload == d.payload;
    }
  }

  method RecordedPayload(datasets: seq<DatasetRow>, id: DatasetId) returns (payload: Payload)
    requires Knows(datasets, id)
    ensures payload == PayloadOf(datasets, id)
  {
    var i := 0;
    assert datasets[i..] == datasets;
    while datasets[i].id != id
      invariant 0 <= i < |datasets|
      invariant Knows(datasets[i..], id) && PayloadOf(datasets[i..], id) == PayloadOf(datasets, id)
      decreases |datasets| - i
    {
      assert datasets[i..][1..] == datasets[i + 1..];
      i := i + 1;
    }
    return datasets[i].payload;
  }

  /**
   `commit_dataset`: the transaction first, then the file, so that a dataset file records a
   completed activation. The transaction cannot fail, because every member was just captured.
   */
  method Publish(
    store: SnapshotStore, sidecars: DatasetFiles, known: map<SourceId, Snapshot>, captured: seq<Timestamp>,
    run: string, ghost limit: nat)
    returns (progress: Progress<DatasetId>, ghost committed: bool)
    requires store.Valid()
    requires AllStored(store.directories, store.state.rows, store.integrity, limit, known)
    requires GenuineDatasets(store.state.datasets, sidecars.files)
    modifies store.state, sidecars
    ensures store.Valid() && GenuineDatasets(store.state.datasets, sidecars.files)
    ensures !progress.Failed?
    ensures var payload := Payload(KeysOf(known), IdentityOf(known).scopes, captured, run);
            && CommitDataset(old(store.state.View()), IdentityOf(known), payload).Success?
            && store.state.View() == if committed
                                     then CommitDataset(old(store.state.View()), IdentityOf(known), payload).value
                                     else old(store.state.View())
    ensures progress.Done? ==> committed && progress.value == IdentityOf(known) && progress.value in sidecars.files
    ensures sidecars.files == old(sidecars.files)
            || (committed && sidecars.files == Filed(old(sidecars.files), store.state.datasets, IdentityOf(known)))
    ensures forall id <- old(sidecars.files) :: id in sidecars.files && sidecars.files[id] == old(sidecars.files)[id]
    ensures forall id <- sidecars.files :: id !in old(sidecars.files) ==> id == IdentityOf(known) && committed
  {
    hide AllStored, RowsValid, Displaced, Authentic, RowAuthentic, Activated, Published, DatasetsValid, ReferencesValid;
    var id := IdentityOf(known);
    var payload := Payload(KeysOf(known), id.scopes, captured, run);
    StoredIsActivatable(store.directories, store.state.rows, store.integrity, limit, known);
    PublishedIsGenuine(store.state.View(), id, payload, sidecars.files);
    ActivatedIsAuthentic(store.state.rows, KeysOf(known));
    CommitKnows(store.state.View(), id, payload);
    committed := false;
    if * {
      return Died, committed;
    }
    var result := store.state.CommitDataset(id, payload);
    committed := true;
    if * {
      return Died, committed;
    }
    if id !in sidecars.files {
      var recorded := RecordedPayload(store.state.datasets, id);
      sidecars.files := sidecars.files[id := recorded];
    }
    return Done(id), committed;
  }

  lemma CommitKnows(t: Tables, id: DatasetId, payload: Payload)
    requires Index.Valid(t) && CommitDataset(t, id, payload).Success?
    ensures Knows(CommitDataset(t, id, payload).value.datasets, id)
  {
    CommitIsWhole(t, id, payload);
  }

  // ---------- the run ----------

  /** The completion times recorded with the dataset. */
  function CaptureTimes(plans: Sources, known: map<SourceId, Snapshot>): seq<Timestamp>
    requires forall s <- plans :: s.id in known
  {
    seq(|plans|, i requires 0 <= i < |plans| => known[plans[i].id].completed)
  }

  lemma PlannedLayers(c: Context, plans: Sources)
    requires WellPlanned(plans) && Plan(c, plans).Success?
    ensures Levels(plans).Success?
  {
    hide ResolveAll;
  }

  lemma StoreIsIndexed(store: SnapshotStore)
    requires store.Valid()
    ensures Index.Valid(store.state.View()) && RowsValid(store.state.rows)
  {
  }

  lemma GatheredIsStored(
    plans: Sources, read: KeyReader, limit: nat, directories: Directories, rows: Rows, integrity: Integrity,
    known: map<SourceId, Snapshot>)
    requires Gathered(plans, read, limit, directories, rows, integrity, known)
    ensures AllStored(directories, rows, integrity, limit, known)
    ensures forall s <- plans :: s.id in known
  {
  }

  /** A coherent dataset whose every member is in force: what a run has published. */
  ghost predicate InForceAll(
    plans: Sources, read: KeyReader, limit: nat, directories: Directories, rows: Rows, integrity: Integrity,
    members: map<SourceId, SnapshotKey>)
  {
    && members.Keys == Ids(plans)
    && Levels(plans).Success?
    && Coherent(plans, members, read)
    && forall id <- members :: InForce(directories, rows, integrity, limit, id, members[id])
  }

  lemma GatheredIsInForce(
    plans: Sources, read: KeyReader, limit: nat, directories: Directories, rows: Rows, integrity: Integrity,
    known: map<SourceId, Snapshot>)
    requires Gathered(plans, read, limit, directories, rows, integrity, known)
    requires Levels(plans).Success? && RowsValid(rows)
    ensures InForceAll(plans, read, limit, directories, Activated(rows, KeysOf(known)), integrity, KeysOf(known))
    ensures IdentityOf(known) == IdOf(KeysOf(known))
  {
    hide Coherent, InForce, RowsValid, AllStored;
    IdentityIsDetermined(directories, rows, integrity, limit, known);
    ActivatedIsInForce(directories, rows, integrity, limit, known);
  }

  /** The tables after a commit: the dataset is recorded, the only active one, and nothing recorded is lost. */
  ghost predicate Current(recorded: seq<DatasetRow>, after: Tables, id: DatasetId) {
    && (forall d <- after.datasets :: d.active <==> d.id == id)
    && Knows(after.datasets, id)
    && (forall d <- recorded :: Recorded(after, d.id, d.payload))
  }

  lemma CommitIsCurrent(t: Tables, id: DatasetId, payload: Payload)
    requires Index.Valid(t) && CommitDataset(t, id, payload).Success?
    ensures Current(t.datasets, CommitDataset(t, id, payload).value, id)
  {
    CommitIsWhole(t, id, payload);
  }

  lemma CommitRecords(t: Tables, id: DatasetId, payload: Payload)
    requires CommitDataset(t, id, payload).Success? && forall d <- t.datasets :: d.id != id
    ensures exists d <- CommitDataset(t, id, payload).value.datasets :: d.id == id && d.payload == payload
  {
    var after := CommitDataset(t, id, payload).value.datasets;
    assert after[|t.datasets|] == DatasetRow(id, payload, true);
  }

  /** The times are the completion times of the sources' snapshots, in plan order. */
  ghost predicate CompletionTimes(plans: Sources, known: map<SourceId, Snapshot>, times: seq<Timestamp>) {
    && |times| == |plans|
    && forall i :: 0 <= i < |plans| ==> plans[i].id in known && times[i] == known[plans[i].id].completed
  }

  /** The last phase of a run, with its outcome in terms of the dataset's members. */
  method PublishGathered(
    store: SnapshotStore, sidecars: DatasetFiles, plans: Sources, read: KeyReader, ghost limit: nat,
    known: map<SourceId, Snapshot>, run: string)
    returns (progress: Progress<DatasetId>, ghost committed: bool)
    requires store.Valid() && Levels(plans).Success?
    requires GenuineDatasets(store.state.datasets, sidecars.files)
    requires Gathered(plans, read, limit, store.directories, store.state.rows, store.integrity, known)
    modifies store.state, sidecars
    ensures store.Valid() && GenuineDatasets(store.state.datasets, sidecars.files)
    ensures !progress.Failed?
    ensures !committed ==> store.state.View() == old(store.state.View()) && sidecars.files == old(sidecars.files)
    ensures committed ==>
              && store.state.rows == Activated(old(store.state.rows), KeysOf(known))
              && InForceAll(plans, read, limit, store.directories, store.state.rows, store.integrity, KeysOf(known))
              && Current(old(store.state.datasets), store.state.View(), IdOf(KeysOf(known)))
    ensures committed && (forall d <- old(store.state.datasets) :: d.id != IdOf(KeysOf(known))) ==>
              exists d <- store.state.datasets ::
                && d.id == IdOf(KeysOf(known))
                && d.payload.snapshots == KeysOf(known)
                && d.payload.run == run
                && CompletionTimes(plans, known, d.payload.captured)
    ensures progress.Done? ==> committed && progress.value == IdOf(KeysOf(known)) && progress.value in sidecars.files
  {
    hide Gathered, InForceAll, Levels, GenuineDatasets, Current, Index.Valid, RowsValid, Authentic, RowAuthentic,
         AllStored, Activated, Published, Referenced;
    StoreIsIndexed(store);
    GatheredIsStored(plans, read, limit, store.directories, store.state.rows, store.integrity, known);
    GatheredIsInForce(plans, read, limit, store.directories, store.state.rows, store.integrity, known);
    var captured := CaptureTimes(plans, known);
    ghost var before, files := store.state.View(), sidecars.files;
    progress, committed := Publish(store, sidecars, known, captured, run, limit);
    ghost var payload := Payload(KeysOf(known), IdentityOf(known).scopes, captured, run);
    CommitIsCurrent(before, IdentityOf(known), payload);
    if forall d <- before.datasets :: d.id != IdentityOf(known) {
      CommitRecords(before, IdentityOf(known), payload);
    }
    assert !committed ==> sidecars.files == files;
  }

  lemma KeptStaysPinned(keep: bool, known: map<SourceId, Snapshot>, rows: Rows)
    requires Kept(keep, known, rows)
    ensures keep ==> forall id <- KeysOf(known) ::
              var key := KeysOf(known)[id];
              key in Activated(rows, KeysOf(known)) && Activated(rows, KeysOf(known))[key].pinned
  {
    hide Displaced;
  }

  /** What is in force for these sources is what the connector delivered for the requests expected of them. */
  ghost predicate FeedInForce(
    feed: Feed, ttl: nat, plans: Sources, directories: Directories, rows: Rows, integrity: Integrity,
    members: map<SourceId, SnapshotKey>, ids: set<SourceId>, read: KeyReader)
  {
    forall s <- plans :: s.id in ids ==>
      && s.id in members
      && Expected(s, members, read).Success?
      && var found := Usable(rows, directories, integrity, Some(members[s.id]));
         found.Some? && IsFed(feed, ttl, s.id, Expected(s, members, read).value, found.value)
  }

  lemma FedIsInForce(
    c: Context, plans: Sources, feed: Feed, ttl: nat, read: KeyReader, limit: nat, directories: Directories,
    rows: Rows, integrity: Integrity, known: map<SourceId, Snapshot>)
    requires WellPlanned(plans) && Plan(c, plans).Success?
    requires Gathered(plans, read, limit, directories, rows, integrity, known)
    requires Fed(feed, ttl, plans, known, Refreshed(Plan(c, plans).value), read)
    ensures FeedInForce(feed, ttl, plans, directories, Activated(rows, KeysOf(known)), integrity, KeysOf(known),
                        Refreshed(Plan(c, plans).value), read)
  {
    hide Plan, IsFed, Expected, Coherent;
    forall s <- plans | s.id in known
      ensures Usable(Activated(rows, KeysOf(known)), directories, integrity, Some(known[s.id].key)) == Some(known[s.id])
    {
      assert Stored(directories, rows, integrity, s.id, known[s.id]);
      ActivatedRow(rows, KeysOf(known), known[s.id].key);
      hide Read, Describes, Activated;
    }
  }

  lemma NoNewPinStays(
    d: Directories, r: Rows, directories: Directories, rows: Rows, members: map<SourceId, SnapshotKey>)
    ensures NoNewPin(d, r, directories, rows) ==> NoNewPin(d, r, directories, Activated(rows, members))
  {
    hide DiskPinned, Displaced;
  }

  /**
   The whole run. Unless it commits, it activates nothing and records no dataset; a run that raises
   has not committed, and a plan that fails or lacks a source stops it with that error. Once it commits, the
   dataset it recorded is the active one, coherent, and all of its members are in force, each within the row
   limit, whether reused or captured now. What it has extracted is charged batch by batch, is within the size
   limit, and is what the connector delivered for the requests expected. Snapshots are pinned if and only if
   they are to be kept. A local run extracts nothing.
   */
  method Execute(
    store: SnapshotStore, sidecars: DatasetFiles, budget: RunBudget, feed: Feed, keep: bool,
    options: Options, read: KeyReader, clock: Clock, plans: Sources, run: string, ghost c: Context)
    returns (
      progress: Progress<DatasetId>, ghost committed: bool, ghost members: map<SourceId, SnapshotKey>,
      ghost captured: seq<SnapshotKey>)
    requires store.Valid() && budget.Valid() && FreshIds(feed) && WellPlanned(plans)
    requires c == Context(store.state.rows, store.directories, store.integrity, store.ttl, options, read, clock)
    requires budget.rowLimit == RowLimit(options)
    requires GenuineDatasets(store.state.datasets, sidecars.files)
    modifies store, store.state, sidecars, budget
    ensures store.Valid() && budget.Valid() && GenuineDatasets(store.state.datasets, sidecars.files)
    ensures Preserved(old(store.directories), store.directories, store.integrity)
    ensures !keep ==> NoNewPin(old(store.directories), old(store.state.rows), store.directories, store.state.rows)
    ensures Plan(c, plans).Failure? ==> progress == Failed(Plan(c, plans).error)
    ensures Plan(c, plans).Success? && LacksSource(Plan(c, plans).value) ==> progress == Failed(OfflineViolation)
    ensures LocalOnly(options) ==> budget.log == old(budget.log)
    ensures !committed ==>
              && ActivatesNothing(old(store.state.rows), store.state.rows)
              && store.state.datasets == old(store.state.datasets)
              && store.state.references == old(store.state.references)
              && sidecars.files == old(sidecars.files)
    ensures committed ==>
              && InForceAll(plans, read, RowLimit(options), store.directories, store.state.rows, store.integrity,
                            members)
              && Current(old(store.state.datasets), store.state.View(), IdOf(members))
              && (keep ==> forall id <- members ::
                    members[id] in store.state.rows && store.state.rows[members[id]].pinned)
              && Plan(c, plans).Success?
              && ReusedKept(Plan(c, plans).value, members)
              && budget.log == old(budget.log) + Delivered(captured)
              && CapturedOnce(captured, members, Refreshed(Plan(c, plans).value))
              && FeedInForce(feed, store.ttl, plans, store.directories, store.state.rows, store.integrity, members,
                             Refreshed(Plan(c, plans).value), read)
              && (BytesOf(old(budget.log)) <= budget.byteLimit ==>
                    BytesOf(old(budget.log)) + MemoryOf(captured) <= budget.byteLimit)
    ensures progress.Failed? ==> !committed
    ensures progress.Done? ==> committed && progress.value == IdOf(members) && progress.value in sidecars.files
  {
    hide FeedInForce, Fed, LacksSource, NoNewPin, Accounts, CapturedOnce, Delivered, MemoryOf, BytesOf, Refreshed;
    hide Preserved, ActivatesNothing, Gathered, InForceAll, Plan, ReusedKept, WellPlanned, Levels, GenuineDatasets,
         Current, Authentic, RowAuthentic, Index.Valid, Kept, Activated;
    committed, members := false, map[];
    var gathered;
    gathered, captured := Gather(store, budget, feed, keep, c, options, read, clock, plans);
    if !gathered.Done? {
      return (if gathered.Failed? then Failed(gathered.error) else Died), committed, members, captured;
    }
    var objection: Option<Error> := *;
    if objection.Some? {
      return Failed(objection.value), committed, members, captured;
    }
    members := KeysOf(gathered.value);
    RunAccounted(c, plans, old(budget.log), budget.log, budget.byteLimit, captured, members);
    PlannedLayers(c, plans);
    KeptStaysPinned(keep, gathered.value, store.state.rows);
    ghost var rows := store.state.rows;
    FedIsInForce(c, plans, feed, store.ttl, read, RowLimit(options), store.directories, rows, store.integrity,
                 gathered.value);
    NoNewPinStays(old(store.directories), old(store.state.rows), store.directories, rows, KeysOf(gathered.value));
    progress, committed := PublishGathered(store, sidecars, plans, read, RowLimit(options), gathered.value, run);
  }

  // ---------- determinism ----------

  /** Later options that stay local: offline or cached over the active rows, or a replay of the dataset. */
  predicate Replays(o: Options, members: map<SourceId, SnapshotKey>) {
    o.pick.None?
    && if o.dataset.Some? then o.dataset.value == members && o.mode != RefreshAll else IsLocalOnly(o.mode)
  }

  lemma InForceIsSettled(c: Context, plans: Sources, members: map<SourceId, SnapshotKey>, s: PlannedSource)
    requires InForceAll(plans, c.read, RowLimit(c.options), c.directories, c.rows, c.integrity, members)
    requires Replays(c.options, members) && s in plans
    requires !TooOld(s, Usable(c.rows, c.directories, c.integrity, Some(members[s.id])).value,
                     c.clock(AtAgeCheck(s.id)))
    ensures Settled(c, s, members)
  {
    assert InForce(c.directories, c.rows, c.integrity, RowLimit(c.options), s.id, members[s.id]);
  }

  lemma MembersAreReused(c: Context, resolved: map<SourceId, Prepared>, members: map<SourceId, SnapshotKey>)
    requires WorldValid(c) && resolved.Keys == members.Keys
    requires forall id <- resolved :: IsMember(c, resolved[id].decision, members[id])
    ensures IdentityOf(ReusedSnapshots(resolved)) == IdOf(members)
  {
    hide IsMember, WorldValid;
    forall id <- resolved
      ensures var d := resolved[id].decision;
              && d.action == Reuse && d.snapshot.Some? && d.snapshot.value.key == members[id]
              && d.snapshot.value.request.scope == members[id].fingerprint.request.scope
    {
      MemberIsReused(c, resolved[id].decision, members[id]);
    }
    SameIdentity(ReusedSnapshots(resolved), members);
  }

  lemma MemberIsReused(c: Context, d: Decision, key: SnapshotKey)
    requires WorldValid(c) && IsMember(c, d, key)
    ensures d.action == Reuse && d.snapshot.Some? && d.snapshot.value.key == key
    ensures d.snapshot.value.request.scope == key.fingerprint.request.scope
  {
    hide WorldValid, Usable;
    UsableIsHeld(c, Some(key));
  }

  lemma SameIdentity(known: map<SourceId, Snapshot>, members: map<SourceId, SnapshotKey>)
    requires known.Keys == members.Keys
    requires forall id <- known ::
               known[id].key == members[id] && known[id].request.scope == members[id].fingerprint.request.scope
    ensures IdentityOf(known) == IdOf(members)
  {
    assert KeysOf(known) == members;
  }

  /** What a run has put in force is in force for the sources as another invocation plans them. */
  lemma InForceForBoth(
    earlier: Sources, later: Sources, read: KeyReader, limit: nat, directories: Directories, rows: Rows,
    integrity: Integrity, members: map<SourceId, SnapshotKey>)
    requires SamePlan(earlier, later)
    requires InForceAll(earlier, read, limit, directories, rows, integrity, members)
    ensures InForceAll(later, read, limit, directories, rows, integrity, members)
  {
    hide InForce, Coherent, Levels, SamePlan;
    SamePlanIds(earlier, later);
    SamePlanHasLevels(earlier, later);
    SamePlanIsCoherent(earlier, later, members, read);
  }

  /**
   Replay. Once a run has published a dataset, a later local run over the same tables and disk, with
   the same plan up to the query tags, which name the invocation, and with no tag age exceeded, reuses
   exactly its members for every source, and the dataset it computes has the same identity.
   */
  lemma PublishedDatasetRepeats(c: Context, earlier: Sources, later: Sources, members: map<SourceId, SnapshotKey>)
    requires WellPlanned(earlier) && SamePlan(earlier, later)
    requires WorldValid(c) && Replays(c.options, members)
    requires InForceAll(earlier, c.read, RowLimit(c.options), c.directories, c.rows, c.integrity, members)
    requires forall s <- later ::
               !TooOld(s, Usable(c.rows, c.directories, c.integrity, Some(members[s.id])).value,
                       c.clock(AtAgeCheck(s.id)))
    ensures WellPlanned(later) && Plan(c, later).Success?
    ensures var resolved := Plan(c, later).value;
            && resolved.Keys == members.Keys
            && (forall id <- resolved ::
                  && resolved[id].decision.action == Reuse
                  && resolved[id].decision.snapshot.Some?
                  && resolved[id].decision.snapshot.value.key == members[id])
            && IdentityOf(ReusedSnapshots(resolved)) == IdOf(members)
  {
    SamePlanIsWellPlanned(earlier, later);
    InForceForBoth(earlier, later, c.read, RowLimit(c.options), c.directories, c.rows, c.integrity, members);
    forall s <- later ensures Settled(c, s, members) {
      InForceIsSettled(c, later, members, s);
    }
    hide Settled, InForce, WorldValid, TooOld, Plan, SamePlan;
    SettledPlansRepeat(c, later, members);
    MembersAreReused(c, Plan(c, later).value, members);
  }
}
