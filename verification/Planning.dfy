/**
 Source planning: which snapshots a run reuses, which it refreshes, and which are missing.

 Decisions are made layer by layer, because the request of a cohort child depends on the snapshot
 of its parent. The results: a plan never refreshes when only local data may be used, whatever is
 reused is coherent, and a settled dataset is planned again exactly as it was published.
 */
module Planning {
  import opened Outcomes
  import opened Identity
  import opened Snapshots
  import opened Index
  import opened State
  import opened Store
  import opened Layering
  import Predicates

  /** The query for the distinct non-null parent keys, in order, up to one more than the limit. */
  type KeyReader = (seq<Table>, Recipe) -> Result<seq<Predicates.Key>>

  datatype Moment = AtPlanning(id: SourceId) | AtDerivation(id: SourceId) | AtAgeCheck(id: SourceId)

  type Clock = Moment -> Timestamp

  /** `dataset` holds the members of a frozen dataset to replay, `pick` an explicit snapshot. */
  datatype Options = Options(
    mode: Mode,
    pick: Option<SnapshotKey>,
    dataset: Option<map<SourceId, SnapshotKey>>,
    policyRows: nat,
    requestedRows: Option<nat>)

  const UNLIMITED := 0x7FFF_FFFF_FFFF_FFFF

  function RowLimit(o: Options): nat {
    Min(o.policyRows, if o.requestedRows.Some? && o.requestedRows.value != 0 then o.requestedRows.value else UNLIMITED)
  }

  predicate LocalOnly(o: Options) {
    o.dataset.Some? || IsLocalOnly(o.mode)
  }

  function ModeOf(o: Options): Mode {
    if o.dataset.Some? then Offline else o.mode
  }

  function PickFor(o: Options, id: SourceId): Option<SnapshotKey> {
    if o.dataset.None? then o.pick
    else if id in o.dataset.value then Some(o.dataset.value[id])
    else None
  }

  /** What planning reads: the tables, the disk, the options, parent keys, and the clock. */
  datatype Context = Context(
    rows: Rows,
    directories: Directories,
    integrity: Integrity,
    ttl: nat,
    options: Options,
    read: KeyReader,
    clock: Clock)

  /** A planned source with its decision; `ready` once its cohort request has been derived. */
  datatype Prepared = Prepared(plan: PlannedSource, ready: bool, decision: Decision)

  /** What the first pass establishes about the plan. */
  ghost predicate WellPlanned(plans: Sources) {
    && DistinctSources(plans)
    && ParentsWithin(plans, {})
    && (forall s <- plans :: WellFormed(s))
  }

  predicate WellFormed(s: PlannedSource) {
    && s.base.source == s.id
    && s.base.projection != Some([])
    && (s.parent.Some? <==> s.recipe.Some?)
  }

  ghost predicate DistinctSources(plans: Sources) {
    forall i, j :: 0 <= i < j < |plans| ==> plans[i].id != plans[j].id
  }

  // ---------- cohort requests ----------

  function CohortRequest(base: Request, recipe: Recipe, parent: SnapshotKey, content: seq<Table>, read: KeyReader)
    : Result<Request>
  {
    var keys := read(content, recipe);
    if keys.Failure? then Failure(keys.error)
    else if |keys.value| > recipe.maxKeys then Failure(PolicyError)
    else
      var where := Predicates.CohortPredicate(base.sampling.where, recipe.key, keys.value);
      if where.Failure? then Failure(where.error)
      else Success(base.(sampling := Sampling(Where, None, Some(where.value), None, None, None),
                         scope := Derived(base.scope, parent, recipe)))
  }

  /** `materialize_cohort`. */
  function Materialize(source: Prepared, parent: Snapshot, read: KeyReader): Result<Prepared> {
    if source.ready || source.plan.recipe.None? then Success(source)
    else
      var request := CohortRequest(source.decision.request, source.plan.recipe.value, parent.key, parent.content, read);
      if request.Failure? then Failure(request.error)
      else Success(source.(ready := true, decision := source.decision.(request := request.value)))
  }

  /** The request a source must be captured with, given the members of a dataset. */
  function Expected(s: PlannedSource, members: map<SourceId, SnapshotKey>, read: KeyReader): Result<Request> {
    if s.parent.None? || s.recipe.None? then Success(s.base)
    else if s.parent.value !in members then Failure(ConfigError)
    else CohortRequest(s.base, s.recipe.value, members[s.parent.value], members[s.parent.value].content, read)
  }

  predicate CoherentMember(s: PlannedSource, members: map<SourceId, SnapshotKey>, read: KeyReader) {
    && s.id in members
    && Expected(s, members, read).Success?
    && members[s.id].fingerprint == RequestFingerprint(Expected(s, members, read).value, s.provider)
  }

  /**
   Each child was captured with the request derived from the very parent snapshot that is a member
   beside it, and each root with its own request.
   */
  ghost predicate Coherent(plans: Sources, members: map<SourceId, SnapshotKey>, read: KeyReader) {
    forall s <- plans :: CoherentMember(s, members, read)
  }

  // ---------- one source ----------

  ghost function Judged(c: Context, s: PlannedSource, request: Request, now: Timestamp): Decision {
    DecisionFor(c.rows, c.directories, c.integrity, c.ttl, now, request, s.provider,
                ModeOf(c.options), PickFor(c.options, s.id))
  }

  ghost function First(c: Context, s: PlannedSource): Prepared {
    Prepared(s, false, Judged(c, s, s.base, c.clock(AtPlanning(s.id))))
  }

  /** A child whose parent is reused is derived from it and decided again; otherwise it waits. */
  ghost function Derive(c: Context, s: PlannedSource, parent: Option<Decision>): Result<Prepared> {
    var first := First(c, s);
    if parent.None? then Success(first)
    else if parent.value.action == Reuse && parent.value.snapshot.Some? then
      var derived := Materialize(first, parent.value.snapshot.value, c.read);
      if derived.Failure? then derived
      else Success(derived.value.(decision :=
        Judged(c, s, derived.value.decision.request, c.clock(AtDerivation(s.id)))))
    else Success(first.(decision := first.decision.(action := parent.value.action, snapshot := None)))
  }

  /** A tag of the source allows snapshots of at most a certain age. */
  predicate TooOld(s: PlannedSource, snapshot: Snapshot, now: Timestamp) {
    exists age <- s.ageLimits :: now - snapshot.Observed() > age
  }

  /** The row cap and the tag age limits apply to whatever is about to be reused. */
  function Limited(o: Options, clock: Clock, e: Prepared): Result<Prepared> {
    if e.decision.action != Reuse || e.decision.snapshot.None? then Success(e)
    else if e.decision.snapshot.value.rows > RowLimit(o) then Failure(PolicyError)
    else if TooOld(e.plan, e.decision.snapshot.value, clock(AtAgeCheck(e.plan.id))) then
      Success(e.(decision := e.decision.(action := if LocalOnly(o) then Missing else Refresh, snapshot := None)))
    else Success(e)
  }

  ghost function Resolve(c: Context, s: PlannedSource, parent: Option<Decision>): Result<Prepared> {
    var derived := Derive(c, s, parent);
    if derived.Failure? then derived else Limited(c.options, c.clock, derived.value)
  }

  function ParentDecision(s: PlannedSource, resolved: map<SourceId, Prepared>): Option<Decision>
    requires s.parent.Some? ==> s.parent.value in resolved
  {
    if s.parent.None? then None else Some(resolved[s.parent.value].decision)
  }

  // ---------- the whole plan ----------

  const UNRESOLVED: map<SourceId, Prepared> := map[]

  ghost function ResolveAll(c: Context, order: Sources, resolved: map<SourceId, Prepared>)
    : Result<map<SourceId, Prepared>>
    requires ParentsFirst(order, resolved.Keys)
    decreases |order|
  {
    if order == [] then Success(resolved)
    else
      var entry := Resolve(c, order[0], ParentDecision(order[0], resolved));
      if entry.Failure? then Failure(entry.error)
      else
        assert resolved[order[0].id := entry.value].Keys == resolved.Keys + {order[0].id};
        ResolveAll(c, order[1..], resolved[order[0].id := entry.value])
  }

  predicate Contradictory(o: Options) {
    o.dataset.Some? && (o.pick.Some? || o.mode == RefreshAll)
  }

  predicate Covers(o: Options, plans: Sources) {
    o.dataset.Some? ==> forall s <- plans :: s.id in o.dataset.value
  }

  /** `prepare_sources`, as a function of what it reads. */
  ghost function Plan(c: Context, plans: Sources): Result<map<SourceId, Prepared>>
    requires ParentsWithin(plans, {})
  {
    if Contradictory(c.options) || !Covers(c.options, plans) || Levels(plans).Failure? then Failure(ConfigError)
    else
      OrderIsParentsFirst(plans, {});
      assert UNRESOLVED.Keys == {};
      ResolveAll(c, Flatten(Levels(plans).value), UNRESOLVED)
  }

  lemma {:induction false} LevelsFailWithConfigError(plans: Sources)
    ensures Levels(plans).Failure? ==> Levels(plans).error == ConfigError
    decreases |plans|
  {
    if plans != [] && Ready(plans, Ids(plans)) != [] {
      ReadyAndWaiting(plans, Ids(plans));
      LevelsFailWithConfigError(Waiting(plans, Ids(plans)));
    }
  }

  // ---------- what every entry satisfies ----------

  /** An entry is the resolution of its source against its parent's entry. */
  ghost predicate Consistent(c: Context, e: Prepared, resolved: map<SourceId, Prepared>) {
    && (e.plan.parent.Some? ==> e.plan.parent.value in resolved)
    && Resolve(c, e.plan, ParentDecision(e.plan, resolved)) == Success(e)
  }

  ghost predicate AllConsistent(c: Context, resolved: map<SourceId, Prepared>) {
    forall id <- resolved ::
      && resolved[id].plan.id == id
      && Consistent(c, resolved[id], resolved)
      && HasSnapshot(resolved[id].decision)
  }

  predicate HasSnapshot(d: Decision) {
    d.action == Reuse ==> d.snapshot.Some?
  }

  lemma ResolveKeepsPlan(c: Context, s: PlannedSource, parent: Option<Decision>)
    ensures Resolve(c, s, parent).Success? ==> Resolve(c, s, parent).value.plan == s
    ensures Resolve(c, s, parent).Success? && (parent.Some? ==> HasSnapshot(parent.value)) ==>
              HasSnapshot(Resolve(c, s, parent).value.decision)
  {
  }

  lemma ConsistentStep(c: Context, resolved: map<SourceId, Prepared>, s: PlannedSource, e: Prepared)
    requires AllConsistent(c, resolved) && s.id !in resolved
    requires s.parent.Some? ==> s.parent.value in resolved
    requires Resolve(c, s, ParentDecision(s, resolved)) == Success(e)
    ensures AllConsistent(c, resolved[s.id := e])
  {
    ResolveKeepsPlan(c, s, ParentDecision(s, resolved));
    hide Resolve;
    var after := resolved[s.id := e];
    forall id <- after
      ensures after[id].plan.id == id && Consistent(c, after[id], after) && HasSnapshot(after[id].decision)
    {
      if id in resolved {
        assert Consistent(c, resolved[id], resolved);
      }
    }
  }

  ghost predicate FreshOrder(order: Sources, known: set<SourceId>) {
    DistinctSources(order) && forall s <- order :: s.id !in known
  }

  lemma FreshRest(order: Sources, known: set<SourceId>)
    requires FreshOrder(order, known) && order != []
    ensures order[0].id !in known && FreshOrder(order[1..], known + {order[0].id})
  {
    forall s <- order[1..] ensures s.id !in known + {order[0].id} {
      var i :| 0 <= i < |order[1..]| && order[1..][i] == s;
      assert order[i + 1] == s;
    }
  }

  lemma {:induction false} ResolveAllIsConsistent(c: Context, order: Sources, resolved: map<SourceId, Prepared>)
    requires ParentsFirst(order, resolved.Keys) && FreshOrder(order, resolved.Keys)
    requires AllConsistent(c, resolved)
    requires ResolveAll(c, order, resolved).Success?
    ensures var after := ResolveAll(c, order, resolved).value;
            && AllConsistent(c, after)
            && after.Keys == resolved.Keys + Ids(order)
            && (forall id <- resolved :: after[id] == resolved[id])
            && (forall s <- order :: after[s.id].plan == s)
    decreases |order|
  {
    hide Resolve, AllConsistent;
    if order != [] {
      var s := order[0];
      var e := Resolve(c, s, ParentDecision(s, resolved)).value;
      FreshRest(order, resolved.Keys);
      ConsistentStep(c, resolved, s, e);
      ResolveKeepsPlan(c, s, ParentDecision(s, resolved));
      assert resolved[s.id := e].Keys == resolved.Keys + {s.id};
      ResolveAllIsConsistent(c, order[1..], resolved[s.id := e]);
      assert order == [s] + order[1..];
    }
  }

  lemma {:induction false} PermutedDistinct(a: Sources, b: Sources)
    requires multiset(a) == multiset(b) && DistinctSources(a)
    ensures DistinctSources(b)
    ensures Ids(a) == Ids(b)
    ensures forall s :: s in a <==> s in b
  {
    forall s ensures s in a <==> s in b {
      assert s in a <==> s in multiset(a);
      assert s in b <==> s in multiset(b);
    }
    forall i, j | 0 <= i < j < |b| ensures b[i].id != b[j].id {
      TwiceIn(b, i, j);
      if b[i].id == b[j].id {
        SameIdSameSource(a, b[i], b[j]);
        var k := IndexOf(a, b[i]);
        OnceIn(a, k);
      }
    }
  }

  lemma IndexOf(a: Sources, s: PlannedSource) returns (k: nat)
    requires s in a
    ensures k < |a| && a[k] == s
  {
    k :| 0 <= k < |a| && a[k] == s;
  }

  lemma SameIdSameSource(a: Sources, s: PlannedSource, t: PlannedSource)
    requires DistinctSources(a) && s in a && t in a && s.id == t.id
    ensures s == t
  {
    var i :| 0 <= i < |a| && a[i] == s;
    var j :| 0 <= j < |a| && a[j] == t;
    assert i == j;
  }

  lemma TwiceIn(b: Sources, i: nat, j: nat)
    requires i < j < |b|
    ensures b[i] == b[j] ==> multiset(b)[b[i]] >= 2
  {
    assert b == b[..i] + [b[i]] + b[i + 1..j] + [b[j]] + b[j + 1..];
  }

  lemma OnceIn(a: Sources, k: nat)
    requires DistinctSources(a) && k < |a|
    ensures multiset(a)[a[k]] == 1
  {
    assert a == a[..k] + [a[k]] + a[k + 1..];
    assert a[k] !in a[..k];
    NotInSuffix(a, k, k + 1);
  }

  lemma NotInSuffix(a: Sources, k: nat, from: nat)
    requires DistinctSources(a) && k < from <= |a|
    ensures a[k] !in a[from..]
  {
    assert forall i :: from <= i < |a| ==> a[i].id != a[k].id;
  }

  /** A successful plan has exactly one entry per source, each resolved against its parent's entry. */
  lemma PlanIsConsistent(c: Context, plans: Sources)
    requires WellPlanned(plans) && Plan(c, plans).Success?
    ensures var resolved := Plan(c, plans).value;
            && AllConsistent(c, resolved)
            && resolved.Keys == Ids(plans)
            && (forall s <- plans :: resolved[s.id].plan == s)
  {
    var order := Flatten(Levels(plans).value);
    OrderIsParentsFirst(plans, {});
    LevelsPartition(plans);
    PermutedDistinct(plans, order);
    hide Resolve, Levels, DistinctSources, Ids, Flatten, ParentsFirst;
    assert UNRESOLVED.Keys == {};
    ResolveAllIsConsistent(c, order, UNRESOLVED);
  }

  // ---------- nothing is refreshed from local data ----------

  lemma ResolveStaysLocal(c: Context, s: PlannedSource, parent: Option<Decision>)
    requires LocalOnly(c.options) && !Contradictory(c.options)
    requires parent.Some? ==> parent.value.action != Refresh
    ensures Resolve(c, s, parent).Success? ==> Resolve(c, s, parent).value.decision.action != Refresh
  {
  }

  lemma {:induction false} ResolveAllStaysLocal(c: Context, order: Sources, resolved: map<SourceId, Prepared>)
    requires LocalOnly(c.options) && !Contradictory(c.options)
    requires ParentsFirst(order, resolved.Keys)
    requires forall id <- resolved :: resolved[id].decision.action != Refresh
    requires ResolveAll(c, order, resolved).Success?
    ensures var after := ResolveAll(c, order, resolved).value;
            forall id <- after :: after[id].decision.action != Refresh
    decreases |order|
  {
    hide Resolve;
    if order != [] {
      var e := Resolve(c, order[0], ParentDecision(order[0], resolved)).value;
      ResolveStaysLocal(c, order[0], ParentDecision(order[0], resolved));
      assert resolved[order[0].id := e].Keys == resolved.Keys + {order[0].id};
      ResolveAllStaysLocal(c, order[1..], resolved[order[0].id := e]);
    }
  }

  /** Offline, cached, or replaying a dataset: nothing is refreshed, through any chain of cohorts. */
  lemma LocalPlansNeverRefresh(c: Context, plans: Sources, id: SourceId)
    requires WellPlanned(plans) && LocalOnly(c.options)
    requires Plan(c, plans).Success? && id in Plan(c, plans).value
    ensures Plan(c, plans).value[id].decision.action != Refresh
  {
    OrderIsParentsFirst(plans, {});
    assert UNRESOLVED.Keys == {};
    ResolveAllStaysLocal(c, Flatten(Levels(plans).value), UNRESOLVED);
  }

  // ---------- what is reused is right ----------

  /** The snapshot is what the index and the disk hold under its own key, for the source's request. */
  ghost predicate Held(c: Context, snapshot: Snapshot) {
    Usable(c.rows, c.directories, c.integrity, Some(snapshot.key)) == Some(snapshot)
  }

  ghost predicate WorldValid(c: Context) {
    && RowsValid(c.rows)
    && AllAuthentic(c.directories)
    && AllRowsAuthentic(c.rows)
  }

  lemma UsableIsHeld(c: Context, key: Option<SnapshotKey>)
    requires WorldValid(c)
    ensures var found := Usable(c.rows, c.directories, c.integrity, key);
            found.Some? ==>
              && key == Some(found.value.key)
              && Held(c, found.value)
              && Describes(found.value, found.value.key)
  {
    if key.Some? && Usable(c.rows, c.directories, c.integrity, key).Some? {
      AuthenticReads(At(c.directories, key.value), key.value, c.integrity);
    }
  }

  lemma JudgedReuse(c: Context, s: PlannedSource, request: Request, now: Timestamp)
    requires WorldValid(c)
    ensures var d := Judged(c, s, request, now);
            && d.request == request
            && (d.action == Reuse ==>
                  && d.snapshot.Some?
                  && Held(c, d.snapshot.value)
                  && Describes(d.snapshot.value, d.snapshot.value.key)
                  && d.snapshot.value.fingerprint == RequestFingerprint(request, s.provider))
  {
    UsableIsHeld(c, Candidate(c.rows, request, s.provider, PickFor(c.options, s.id)));
  }

  /**
   What one resolution guarantees. A reused snapshot is intact, within the row limit, of acceptable
   age, and captured with the expected request; a source that is refreshed with a request already
   derived has a reused parent, and one that still waits has a parent that is refreshed too.
   */
  ghost predicate SoundEntry(c: Context, e: Prepared, parent: Option<Decision>)
    requires parent.Some? ==> e.plan.recipe.Some?
  {
    var d := e.decision;
    && (d.action == Reuse ==>
          && d.snapshot.Some?
          && Held(c, d.snapshot.value)
          && Describes(d.snapshot.value, d.snapshot.value.key)
          && d.snapshot.value.fingerprint == RequestFingerprint(d.request, e.plan.provider)
          && d.snapshot.value.rows <= RowLimit(c.options)
          && !TooOld(e.plan, d.snapshot.value, c.clock(AtAgeCheck(e.plan.id))))
    && (parent.None? ==> d.request == e.plan.base)
    && (parent.Some? && parent.value.action == Reuse && parent.value.snapshot.Some? ==>
          && e.ready
          && CohortRequest(e.plan.base, e.plan.recipe.value, parent.value.snapshot.value.key,
                           parent.value.snapshot.value.content, c.read) == Success(d.request))
    && (parent.Some? && parent.value.action != Reuse ==>
          && !e.ready
          && d.action == parent.value.action
          && d.request == e.plan.base)
  }

  lemma LimitedIsSound(c: Context, e: Prepared, parent: Option<Decision>)
    requires parent.Some? ==> e.plan.recipe.Some?
    requires e.decision.action == Reuse ==>
               && e.decision.snapshot.Some?
               && Held(c, e.decision.snapshot.value)
               && Describes(e.decision.snapshot.value, e.decision.snapshot.value.key)
               && e.decision.snapshot.value.fingerprint == RequestFingerprint(e.decision.request, e.plan.provider)
    requires parent.None? ==> e.decision.request == e.plan.base
    requires parent.Some? && parent.value.action == Reuse && parent.value.snapshot.Some? ==>
               && e.ready
               && CohortRequest(e.plan.base, e.plan.recipe.value, parent.value.snapshot.value.key,
                                parent.value.snapshot.value.content, c.read) == Success(e.decision.request)
    requires parent.Some? && parent.value.action != Reuse ==>
               !e.ready && e.decision.action == parent.value.action && e.decision.request == e.plan.base
    ensures Limited(c.options, c.clock, e).Success? ==> SoundEntry(c, Limited(c.options, c.clock, e).value, parent)
  {
    hide Held, Describes, CohortRequest, TooOld;
  }

  lemma ResolveIsSound(c: Context, s: PlannedSource, parent: Option<Decision>)
    requires WorldValid(c) && WellFormed(s) && (parent.Some? <==> s.parent.Some?)
    requires parent.Some? ==> HasSnapshot(parent.value)
    ensures Resolve(c, s, parent).Success? ==>
              && Resolve(c, s, parent).value.plan == s
              && SoundEntry(c, Resolve(c, s, parent).value, parent)
  {
    hide Held, Describes, CohortRequest, TooOld, Judged, WorldValid, Limited, Materialize;
    JudgedReuse(c, s, s.base, c.clock(AtPlanning(s.id)));
    var derived := Derive(c, s, parent);
    if derived.Success? {
      JudgedReuse(c, s, derived.value.decision.request, c.clock(AtDerivation(s.id)));
      DerivedFacts(c, s, parent);
      hide Derive;
      LimitedKeepsPlan(c.options, c.clock, derived.value);
      LimitedIsSound(c, derived.value, parent);
    }
  }

  lemma LimitedKeepsPlan(o: Options, clock: Clock, e: Prepared)
    ensures Limited(o, clock, e).Success? ==> Limited(o, clock, e).value.plan == e.plan
  {
  }

  lemma DerivedFacts(c: Context, s: PlannedSource, parent: Option<Decision>)
    requires WellFormed(s) && (parent.Some? <==> s.parent.Some?) && (parent.Some? ==> HasSnapshot(parent.value))
    requires Derive(c, s, parent).Success?
    ensures var e := Derive(c, s, parent).value;
            && e.plan == s
            && (parent.None? ==> e == First(c, s) && e.decision.request == s.base)
            && (parent.Some? && parent.value.action == Reuse ==>
                  && e.ready
                  && e.decision == Judged(c, s, e.decision.request, c.clock(AtDerivation(s.id)))
                  && CohortRequest(s.base, s.recipe.value, parent.value.snapshot.value.key,
                                   parent.value.snapshot.value.content, c.read) == Success(e.decision.request))
            && (parent.Some? && parent.value.action != Reuse ==>
                  !e.ready && e.decision.action == parent.value.action && e.decision.request == s.base)
  {
    hide CohortRequest, DecisionFor;
    JudgedRequest(c, s, s.base, c.clock(AtPlanning(s.id)));
    var derived := Derive(c, s, parent).value;
    if parent.Some? && parent.value.action == Reuse {
      var ready := Materialize(First(c, s), parent.value.snapshot.value, c.read).value;
      JudgedRequest(c, s, ready.decision.request, c.clock(AtDerivation(s.id)));
    }
  }

  lemma JudgedRequest(c: Context, s: PlannedSource, request: Request, now: Timestamp)
    ensures Judged(c, s, request, now).request == request
  {
  }

  /** Every source of the plan has a sound entry. */
  ghost predicate SoundPlan(c: Context, plans: Sources, resolved: map<SourceId, Prepared>) {
    && DistinctSources(plans)
    && forall s <- plans ::
         && WellFormed(s)
         && s.id in resolved
         && resolved[s.id].plan == s
         && (s.parent.Some? ==> s.parent.value in resolved)
         && HasSnapshot(resolved[s.id].decision)
         && SoundEntry(c, resolved[s.id], ParentDecision(s, resolved))
  }

  lemma EntriesAreSound(c: Context, plans: Sources)
    requires WellPlanned(plans) && WorldValid(c) && Plan(c, plans).Success?
    ensures var resolved := Plan(c, plans).value;
            && resolved.Keys == Ids(plans)
            && SoundPlan(c, plans, resolved)
  {
    PlanIsConsistent(c, plans);
    var resolved := Plan(c, plans).value;
    hide Plan, SoundEntry, Resolve, WorldValid;
    forall s <- plans
      ensures (s.parent.Some? ==> s.parent.value in resolved)
              && HasSnapshot(resolved[s.id].decision)
              && SoundEntry(c, resolved[s.id], ParentDecision(s, resolved))
    {
      assert Consistent(c, resolved[s.id], resolved);
      ResolveIsSound(c, s, ParentDecision(s, resolved));
    }
  }

  // ---------- a settled dataset is planned again as it is ----------

  /** The member is intact, of acceptable size and age, and is what the options select for its source. */
  ghost predicate Settled(c: Context, s: PlannedSource, members: map<SourceId, SnapshotKey>) {
    && s.id in members
    && Source(members[s.id]) == s.id
    && (var found := Usable(c.rows, c.directories, c.integrity, Some(members[s.id]));
        && found.Some?
        && found.value.rows <= RowLimit(c.options)
        && !TooOld(s, found.value, c.clock(AtAgeCheck(s.id)))
        && Selected(c, s, members[s.id], found.value))
  }

  /** A frozen dataset names the member; otherwise it is the active row, and not expired. */
  ghost predicate Selected(c: Context, s: PlannedSource, key: SnapshotKey, snapshot: Snapshot) {
    if c.options.dataset.Some? then PickFor(c.options, s.id) == Some(key)
    else
      && c.options.pick.None?
      && c.options.mode != RefreshAll
      && IsActive(c.rows, s.id, key.fingerprint, key)
      && (IsLocalOnly(c.options.mode)
          || (!Expired(snapshot, c.ttl, c.clock(AtPlanning(s.id)))
              && !Expired(snapshot, c.ttl, c.clock(AtDerivation(s.id)))))
  }

  ghost predicate IsMember(c: Context, d: Decision, key: SnapshotKey) {
    && d.action == Reuse
    && d.snapshot == Usable(c.rows, c.directories, c.integrity, Some(key))
    && d.snapshot.Some?
    && d.snapshot.value.key == key
    && d.snapshot.value.content == key.content
  }

  lemma JudgedAgain(c: Context, s: PlannedSource, members: map<SourceId, SnapshotKey>, request: Request, now: Timestamp)
    requires WorldValid(c) && !Contradictory(c.options) && Settled(c, s, members)
    requires request.source == s.id && RequestFingerprint(request, s.provider) == members[s.id].fingerprint
    requires now == c.clock(AtPlanning(s.id)) || now == c.clock(AtDerivation(s.id))
    ensures Judged(c, s, request, now).request == request
    ensures IsMember(c, Judged(c, s, request, now), members[s.id])
  {
    var key := members[s.id];
    UsableIsHeld(c, Some(key));
    var candidate := Candidate(c.rows, request, s.provider, PickFor(c.options, s.id));
    assert candidate == Some(key) by {
      if c.options.dataset.None? {
        assert IsActive(c.rows, s.id, key.fingerprint, key);
        assert IsActive(c.rows, s.id, key.fingerprint, candidate.value);
      }
    }
    hide Usable, Expired, WorldValid, RowsValid;
  }

  lemma ResolvesAgain(c: Context, s: PlannedSource, members: map<SourceId, SnapshotKey>, parent: Option<Decision>)
    requires WorldValid(c) && !Contradictory(c.options) && WellFormed(s)
    requires Settled(c, s, members) && CoherentMember(s, members, c.read)
    requires if s.parent.None? then parent.None?
             else parent.Some? && s.parent.value in members && IsMember(c, parent.value, members[s.parent.value])
    ensures Resolve(c, s, parent).Success?
    ensures IsMember(c, Resolve(c, s, parent).value.decision, members[s.id])
  {
    var request := Expected(s, members, c.read).value;
    var moment := if parent.None? then AtPlanning(s.id) else AtDerivation(s.id);
    JudgedAgain(c, s, members, request, c.clock(moment));
    DerivesAgain(c, s, members, parent);
    hide Usable, Selected, WorldValid, TooOld, Judged, Derive;
  }

  lemma DerivesAgain(c: Context, s: PlannedSource, members: map<SourceId, SnapshotKey>, parent: Option<Decision>)
    requires WellFormed(s) && CoherentMember(s, members, c.read)
    requires if s.parent.None? then parent.None?
             else parent.Some? && s.parent.value in members && IsMember(c, parent.value, members[s.parent.value])
    ensures Derive(c, s, parent).Success?
    ensures Derive(c, s, parent).value.plan == s
    ensures var moment := if parent.None? then AtPlanning(s.id) else AtDerivation(s.id);
            Derive(c, s, parent).value.decision
            == Judged(c, s, Expected(s, members, c.read).value, c.clock(moment))
  {
    hide Usable;
    assert First(c, s).decision.request == s.base;
  }

  lemma SettledIsListed(c: Context, s: PlannedSource, members: map<SourceId, SnapshotKey>)
    requires Settled(c, s, members)
    ensures s.id in members
  {
  }

  lemma {:induction false} ResolvesAllAgain(
    c: Context, order: Sources, resolved: map<SourceId, Prepared>, members: map<SourceId, SnapshotKey>)
    requires WorldValid(c) && !Contradictory(c.options)
    requires forall s <- order :: WellFormed(s) && Settled(c, s, members) && CoherentMember(s, members, c.read)
    requires ParentsFirst(order, resolved.Keys)
    requires forall id <- resolved :: id in members && IsMember(c, resolved[id].decision, members[id])
    ensures ResolveAll(c, order, resolved).Success?
    ensures var after := ResolveAll(c, order, resolved).value;
            && after.Keys == resolved.Keys + Ids(order)
            && forall id <- after :: id in members && IsMember(c, after[id].decision, members[id])
    decreases |order|
  {
    hide Resolve, IsMember, WorldValid, Settled, CoherentMember;
    if order != [] {
      var s := order[0];
      assert s in order && order == [s] + order[1..];
      assert Settled(c, s, members) && CoherentMember(s, members, c.read) && WellFormed(s);
      var parent := ParentDecision(s, resolved);
      ResolvesAgain(c, s, members, parent);
      SettledIsListed(c, s, members);
      var next := resolved[s.id := Resolve(c, s, parent).value];
      assert next.Keys == resolved.Keys + {s.id};
      ResolvesAllAgain(c, order[1..], next, members);
    }
  }

  /**
   Determinism. Whatever the mode, when every member of a coherent dataset is settled, planning the
   same sources reuses exactly those members: each derived request comes out as it was, layer by
   layer, because it depends on the parent's snapshot and on nothing else.
   */
  lemma SettledPlansRepeat(c: Context, plans: Sources, members: map<SourceId, SnapshotKey>)
    requires WellPlanned(plans) && Levels(plans).Success?
    requires WorldValid(c) && !Contradictory(c.options)
    requires Coherent(plans, members, c.read)
    requires forall s <- plans :: Settled(c, s, members)
    ensures Plan(c, plans).Success?
    ensures Plan(c, plans).value.Keys == Ids(plans)
    ensures forall id <- Plan(c, plans).value ::
              id in members && IsMember(c, Plan(c, plans).value[id].decision, members[id])
  {
    hide *;
    var order := Flatten(Levels(plans).value);
    PlanOrder(plans);
    SettledIsCovered(c, plans, members);
    SettledInOrder(c, plans, order, members);
    NothingResolved(c, members);
    ResolvesAllAgain(c, order, UNRESOLVED, members);
    PlanInOrder(c, plans);
    SameIds(plans, order);
  }

  lemma PlanOrder(plans: Sources)
    requires WellPlanned(plans) && Levels(plans).Success?
    ensures var order := Flatten(Levels(plans).value);
            && ParentsWithin(plans, {})
            && ParentsFirst(order, {})
            && forall s :: s in order <==> s in plans
  {
    OrderIsParentsFirst(plans, {});
    LevelsPartition(plans);
    PermutedDistinct(plans, Flatten(Levels(plans).value));
  }

  lemma SameIds(plans: Sources, order: Sources)
    requires forall s :: s in order <==> s in plans
    ensures Ids(order) == Ids(plans)
  {
  }

  lemma SettledInOrder(c: Context, plans: Sources, order: Sources, members: map<SourceId, SnapshotKey>)
    requires WellPlanned(plans) && Coherent(plans, members, c.read) && forall s <- plans :: Settled(c, s, members)
    requires forall s :: s in order <==> s in plans
    ensures forall s <- order :: WellFormed(s) && Settled(c, s, members) && CoherentMember(s, members, c.read)
  {
    hide Settled, CoherentMember, WellFormed, DistinctSources, ParentsWithin;
  }

  lemma NothingResolved(c: Context, members: map<SourceId, SnapshotKey>)
    ensures UNRESOLVED.Keys == {}
    ensures forall id <- UNRESOLVED :: id in members && IsMember(c, UNRESOLVED[id].decision, members[id])
  {
  }

  lemma PlanInOrder(c: Context, plans: Sources)
    requires ParentsWithin(plans, {}) && Levels(plans).Success? && Covers(c.options, plans) && !Contradictory(c.options)
    requires ParentsFirst(Flatten(Levels(plans).value), UNRESOLVED.Keys)
    ensures Plan(c, plans) == ResolveAll(c, Flatten(Levels(plans).value), UNRESOLVED)
  {
    hide ResolveAll, ParentsFirst, Levels;
  }

  lemma SettledIsCovered(c: Context, plans: Sources, members: map<SourceId, SnapshotKey>)
    requires forall s <- plans :: Settled(c, s, members)
    ensures Covers(c.options, plans)
  {
    forall s <- plans | c.options.dataset.Some? ensures s.id in c.options.dataset.value {
      assert Settled(c, s, members);
    }
  }

  // ---------- the same sources, planned by another invocation ----------

  /** The source without its query tag, which names the invocation. */
  function Untagged(s: PlannedSource): PlannedSource {
    s.(base := s.base.(queryTag := None))
  }

  ghost predicate SamePlan(earlier: Sources, later: Sources) {
    && |earlier| == |later|
    && forall i :: 0 <= i < |earlier| ==> Untagged(earlier[i]) == Untagged(later[i])
  }

  /** The tag of a request reaches no fingerprint, not even through a cohort request. */
  lemma TagsAreNoIdentity(
    earlier: PlannedSource, later: PlannedSource, members: map<SourceId, SnapshotKey>, read: KeyReader)
    requires Untagged(earlier) == Untagged(later)
    ensures CoherentMember(earlier, members, read) <==> CoherentMember(later, members, read)
  {
    assert Untagged(earlier).base == Untagged(later).base;
    hide Predicates.CohortPredicate;
  }

  lemma SamePlanIsCoherent(
    earlier: Sources, later: Sources, members: map<SourceId, SnapshotKey>, read: KeyReader)
    requires SamePlan(earlier, later) && Coherent(earlier, members, read)
    ensures Coherent(later, members, read)
  {
    hide CoherentMember, Untagged;
    forall s <- later ensures CoherentMember(s, members, read) {
      var i :| 0 <= i < |later| && later[i] == s;
      TagsAreNoIdentity(earlier[i], s, members, read);
    }
  }

  lemma UntaggedKeeps(earlier: PlannedSource, later: PlannedSource)
    requires Untagged(earlier) == Untagged(later)
    ensures earlier.id == later.id && earlier.parent == later.parent
    ensures WellFormed(earlier) <==> WellFormed(later)
  {
    assert Untagged(earlier).base == Untagged(later).base;
  }

  lemma SamePlanIsWellPlanned(earlier: Sources, later: Sources)
    requires SamePlan(earlier, later) && WellPlanned(earlier)
    ensures WellPlanned(later) && Ids(earlier) == Ids(later)
  {
    hide Untagged, WellFormed;
    forall i | 0 <= i < |earlier|
      ensures earlier[i].id == later[i].id && earlier[i].parent == later[i].parent
      ensures WellFormed(later[i])
    {
      assert earlier[i] in earlier;
      UntaggedKeeps(earlier[i], later[i]);
    }
    SameIdsInOrder(earlier, later);
  }

  lemma SameIdsInOrder(earlier: Sources, later: Sources)
    requires |earlier| == |later| && forall i :: 0 <= i < |earlier| ==> earlier[i].id == later[i].id
    ensures Ids(earlier) == Ids(later)
  {
    forall id ensures id in Ids(earlier) <==> id in Ids(later) {
      if id in Ids(earlier) {
        var i :| 0 <= i < |earlier| && earlier[i].id == id;
        assert later[i] in later;
      }
      if id in Ids(later) {
        var i :| 0 <= i < |later| && later[i].id == id;
        assert earlier[i] in earlier;
      }
    }
  }

  lemma {:induction false} SamePlanIsReady(earlier: Sources, later: Sources, pending: set<SourceId>)
    requires SamePlan(earlier, later)
    ensures SamePlan(Ready(earlier, pending), Ready(later, pending))
    ensures SamePlan(Waiting(earlier, pending), Waiting(later, pending))
  {
    hide Untagged;
    if earlier != [] {
      UntaggedKeeps(earlier[0], later[0]);
      SamePlanIsReady(earlier[1..], later[1..], pending);
      SamePlanPrepends(earlier[0], later[0], Ready(earlier[1..], pending), Ready(later[1..], pending));
      SamePlanPrepends(earlier[0], later[0], Waiting(earlier[1..], pending), Waiting(later[1..], pending));
      hide SamePlan;
    }
  }

  lemma SamePlanPrepends(s: PlannedSource, t: PlannedSource, earlier: Sources, later: Sources)
    requires Untagged(s) == Untagged(t) && SamePlan(earlier, later)
    ensures SamePlan([] + earlier, [] + later) && SamePlan([s] + earlier, [t] + later)
  {
    hide Untagged;
  }

  /** Tags decide nothing about the layers. */
  lemma {:induction false} SamePlanHasLevels(earlier: Sources, later: Sources)
    requires SamePlan(earlier, later)
    ensures Levels(earlier).Success? <==> Levels(later).Success?
    decreases |earlier|
  {
    hide Untagged, Ready, Waiting;
    if earlier != [] {
      SamePlanIds(earlier, later);
      SamePlanIsReady(earlier, later, Ids(earlier));
      ReadyAndWaiting(earlier, Ids(earlier));
      if Ready(earlier, Ids(earlier)) != [] {
        SamePlanHasLevels(Waiting(earlier, Ids(earlier)), Waiting(later, Ids(later)));
      }
    }
  }

  lemma SamePlanIds(earlier: Sources, later: Sources)
    requires SamePlan(earlier, later)
    ensures Ids(earlier) == Ids(later)
  {
    hide Untagged, WellFormed;
    forall i | 0 <= i < |earlier| ensures earlier[i].id == later[i].id {
      UntaggedKeeps(earlier[i], later[i]);
    }
    SameIdsInOrder(earlier, later);
  }

  // ---------- the procedure ----------

  /** The world a planning pass started from, and the marks it has left in the index since. */
  ghost predicate Sees(c: Context, store: SnapshotStore)
    reads store, store.state
  {
    && c.directories == store.directories
    && c.integrity == store.integrity
    && c.ttl == store.ttl
    && RowsValid(c.rows)
    && MarksOnly(c.rows, store.state.rows, c.directories, c.integrity)
  }

  method DecideNow(
    store: SnapshotStore, ghost c: Context, options: Options, s: PlannedSource, request: Request, now: Timestamp)
    returns (decision: Decision)
    requires store.Valid() && Sees(c, store) && c.options == options
    modifies store.state`rows
    ensures store.Valid() && Sees(c, store)
    ensures decision == Judged(c, s, request, now)
  {
    hide DecisionFor, MarksOnly, RowsValid;
    DecisionsAreStable(c.rows, store.state.rows, c.directories, c.integrity, c.ttl, now, request, s.provider,
                       ModeOf(options), PickFor(options, s.id));
    ghost var before := store.state.rows;
    decision := store.Decide(request, s.provider, ModeOf(options), PickFor(options, s.id), now);
    MarksOnlyTransitive(c.rows, before, store.state.rows, c.directories, c.integrity);
  }

  /** The first pass: a decision about every source's own request. */
  method DecideFirst(store: SnapshotStore, ghost c: Context, options: Options, clock: Clock, plans: Sources)
    returns (result: Result<map<SourceId, Prepared>>)
    requires store.Valid() && Sees(c, store) && c.options == options && c.clock == clock
    modifies store.state`rows
    ensures store.Valid() && Sees(c, store)
    ensures result.Success? <==> Covers(options, plans)
    ensures result.Success? ==> forall s <- plans :: s.id in result.value
    ensures result.Success? && DistinctSources(plans) ==> forall s <- plans :: result.value[s.id] == First(c, s)
    ensures result.Failure? ==> result.error == ConfigError
  {
    var firsts := UNRESOLVED;
    var i := 0;
    while i < |plans|
      invariant 0 <= i <= |plans|
      invariant store.Valid() && Sees(c, store)
      invariant Covers(options, plans[..i])
      invariant forall j :: 0 <= j < i ==> plans[j].id in firsts
      invariant DistinctSources(plans) ==> forall j :: 0 <= j < i ==> firsts[plans[j].id] == First(c, plans[j])
    {
      hide Sees, Judged;
      var s := plans[i];
      if options.dataset.Some? && s.id !in options.dataset.value {
        assert s in plans;
        return Failure(ConfigError);
      }
      var decision := DecideNow(store, c, options, s, s.base, clock(AtPlanning(s.id)));
      firsts := firsts[s.id := Prepared(s, false, decision)];
      i := i + 1;
    }
    assert plans[..i] == plans;
    return Success(firsts);
  }

  /** The second pass for one source. */
  method ResolveSource(
    store: SnapshotStore, ghost c: Context, options: Options, read: KeyReader, clock: Clock,
    first: Prepared, parent: Option<Decision>)
    returns (result: Result<Prepared>)
    requires store.Valid() && Sees(c, store)
    requires c.options == options && c.read == read && c.clock == clock
    requires first == First(c, first.plan)
    modifies store.state`rows
    ensures store.Valid() && Sees(c, store)
    ensures result == Resolve(c, first.plan, parent)
  {
    hide Sees, Judged, CohortRequest, TooOld;
    var source := first;
    if parent.Some? {
      if parent.value.action == Reuse && parent.value.snapshot.Some? {
        var derived := Materialize(source, parent.value.snapshot.value, read);
        if derived.Failure? {
          return derived;
        }
        source := derived.value;
        var decision := DecideNow(
          store, c, options, source.plan, source.decision.request, clock(AtDerivation(source.plan.id)));
        source := source.(decision := decision);
      } else {
        source := source.(decision := source.decision.(action := parent.value.action, snapshot := None));
      }
    }
    return Limited(options, clock, source);
  }

  /** One layer of the second pass; `rest` holds the layers after it. */
  method ResolveLevel(
    store: SnapshotStore, ghost c: Context, options: Options, read: KeyReader, clock: Clock,
    firsts: map<SourceId, Prepared>, level: Sources, ghost rest: Sources, resolved: map<SourceId, Prepared>)
    returns (result: Result<map<SourceId, Prepared>>)
    requires store.Valid() && Sees(c, store)
    requires c.options == options && c.read == read && c.clock == clock
    requires forall s <- level :: s.id in firsts && firsts[s.id] == First(c, s)
    requires ParentsFirst(level + rest, resolved.Keys)
    modifies store.state`rows
    ensures store.Valid() && Sees(c, store)
    ensures if result.Failure? then ResolveAll(c, level + rest, resolved) == result
            else ParentsFirst(rest, result.value.Keys)
                 && ResolveAll(c, level + rest, resolved) == ResolveAll(c, rest, result.value)
  {
    var entries := resolved;
    var i := 0;
    while i < |level|
      invariant 0 <= i <= |level|
      invariant store.Valid() && Sees(c, store)
      invariant ParentsFirst(level[i..] + rest, entries.Keys)
      invariant ResolveAll(c, level[i..] + rest, entries) == ResolveAll(c, level + rest, resolved)
    {
      hide Sees, Resolve, First;
      var s := level[i];
      assert (level[i..] + rest)[0] == s && (level[i..] + rest)[1..] == level[i + 1..] + rest;
      var parent := ParentDecision(s, entries);
      FirstKeepsPlan(c, s);
      var entry := ResolveSource(store, c, options, read, clock, firsts[s.id], parent);
      if entry.Failure? {
        return Failure(entry.error);
      }
      assert entries[s.id := entry.value].Keys == entries.Keys + {s.id};
      entries := entries[s.id := entry.value];
      i := i + 1;
    }
    assert level[i..] + rest == rest;
    return Success(entries);
  }

  lemma FirstKeepsPlan(c: Context, s: PlannedSource)
    ensures First(c, s).plan == s
  {
  }

  /** `prepare_sources`: every decision, or the first error. The index only gains corruption marks. */
  method Prepare(store: SnapshotStore, ghost c: Context, options: Options, read: KeyReader, clock: Clock,
                 plans: Sources)
    returns (result: Result<map<SourceId, Prepared>>)
    requires store.Valid() && WellPlanned(plans)
    requires c == Context(store.state.rows, store.directories, store.integrity, store.ttl, options, read, clock)
    modifies store.state`rows
    ensures store.Valid()
    ensures result == Plan(c, plans)
    ensures MarksOnly(old(store.state.rows), store.state.rows, store.directories, store.integrity)
  {
    if Contradictory(options) {
      return Failure(ConfigError);
    }
    NothingMarked(store.state.rows, store.directories, store.integrity);
    var firsts := DecideFirst(store, c, options, clock, plans);
    if firsts.Failure? {
      return firsts;
    }
    var levels := SourceLevels(plans);
    LevelsFailWithConfigError(plans);
    if levels.Failure? {
      return Failure(levels.error);
    }
    OrderIsParentsFirst(plans, {});
    LevelsPartition(plans);
    PermutedDistinct(plans, Flatten(levels.value));
    assert UNRESOLVED.Keys == {};
    result := ResolveLevels(store, c, options, read, clock, firsts.value, levels.value);
  }

  method ResolveLevels(
    store: SnapshotStore, ghost c: Context, options: Options, read: KeyReader, clock: Clock,
    firsts: map<SourceId, Prepared>, levels: seq<Sources>)
    returns (result: Result<map<SourceId, Prepared>>)
    requires store.Valid() && Sees(c, store)
    requires c.options == options && c.read == read && c.clock == clock
    requires forall s <- Flatten(levels) :: s.id in firsts && firsts[s.id] == First(c, s)
    requires ParentsFirst(Flatten(levels), UNRESOLVED.Keys)
    modifies store.state`rows
    ensures store.Valid() && Sees(c, store)
    ensures result == ResolveAll(c, Flatten(levels), UNRESOLVED)
  {
    var resolved := UNRESOLVED;
    var i := 0;
    while i < |levels|
      invariant 0 <= i <= |levels|
      invariant store.Valid() && Sees(c, store)
      invariant forall s <- Flatten(levels[i..]) :: s.id in firsts && firsts[s.id] == First(c, s)
      invariant ParentsFirst(Flatten(levels[i..]), resolved.Keys)
      invariant ResolveAll(c, Flatten(levels[i..]), resolved) == ResolveAll(c, Flatten(levels), UNRESOLVED)
    {
      hide Sees, First, ResolveAll, ParentsFirst;
      assert levels[i..][1..] == levels[i + 1..];
      assert Flatten(levels[i..]) == levels[i] + Flatten(levels[i + 1..]);
      var next := ResolveLevel(store, c, options, read, clock, firsts, levels[i], Flatten(levels[i + 1..]), resolved);
      if next.Failure? {
        return next;
      }
      resolved := next.value;
      i := i + 1;
    }
    return Success(resolved);
  }
}
