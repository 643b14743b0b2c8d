/**
 What decisions and plans mean, in terms of the tables, the disk and the requests themselves: when a
 snapshot is reused, extracted or missing, and what a plan's reused snapshots were captured with.
 */
module Decisions {
  import opened Outcomes
  import opened Identity
  import opened Snapshots
  import opened Index
  import opened Store
  import opened Layering
  import opened Planning

  // ---------- one decision ----------

  predicate LocalMode(mode: Mode) {
    mode == Offline || mode == Cached
  }

  /** Neither its own expiry nor the configured time to live has been reached. */
  predicate StillFresh(s: Snapshot, ttl: int, now: Timestamp) {
    && now < (if s.verified.Some? then s.verified.value else s.completed) + ttl
    && (s.expires.Some? ==> now < s.expires.value)
  }

  lemma ExpiresExactly(s: Snapshot, ttl: int, now: Timestamp)
    ensures Expired(s, ttl, now) <==> !StillFresh(s, ttl, now)
  {
  }

  /** The fingerprint is that of this request to this provider. */
  predicate AsksFor(f: Fingerprint, request: Request, provider: string) {
    f.provider == provider && f.request.queryTag.None? && SameRequest(f.request, request)
  }

  lemma FingerprintMeans(f: Fingerprint, request: Request, provider: string)
    ensures f == RequestFingerprint(request, provider) <==> AsksFor(f, request, provider)
  {
    if AsksFor(f, request, provider) {
      assert f.request == request.(queryTag := None);
    }
  }

  /** The row that was chosen explicitly, or else the active row of the source and request. */
  predicate Chosen(rows: Rows, request: Request, provider: string, id: Option<SnapshotKey>, key: SnapshotKey) {
    if id.Some? then id == Some(key)
    else
      && key in rows
      && rows[key].active
      && rows[key].source == request.source
      && AsksFor(rows[key].fingerprint, request, provider)
  }

  /** The snapshot reads back, undamaged, from the directory of a committed row. */
  predicate Intact(rows: Rows, directories: Directories, integrity: Integrity, key: SnapshotKey, s: Snapshot) {
    && key in rows
    && rows[key].state == Committed
    && rows[key].location.Inside?
    && rows[key].location.key in directories
    && Load(directories[rows[key].location.key]) == Success(s)
    && Validates(directories[rows[key].location.key], s, integrity)
  }

  /** The intact snapshot of the chosen row, if there is one. */
  ghost predicate Finds(
    rows: Rows, directories: Directories, integrity: Integrity, request: Request, provider: string,
    id: Option<SnapshotKey>, s: Snapshot)
  {
    exists key :: Chosen(rows, request, provider, id, key) && Intact(rows, directories, integrity, key, s)
  }

  lemma UsableIsIntact(rows: Rows, directories: Directories, integrity: Integrity, key: SnapshotKey)
    ensures forall s :: Intact(rows, directories, integrity, key, s) <==>
              Usable(rows, directories, integrity, Some(key)) == Some(s)
  {
  }

  lemma FindsCandidate(
    rows: Rows, directories: Directories, integrity: Integrity, request: Request, provider: string,
    id: Option<SnapshotKey>)
    requires RowsValid(rows)
    ensures forall s :: Finds(rows, directories, integrity, request, provider, id, s) <==>
              Usable(rows, directories, integrity, Candidate(rows, request, provider, id)) == Some(s)
  {
    var candidate := Candidate(rows, request, provider, id);
    OneCandidate(rows, request, provider, id);
    forall key ensures Chosen(rows, request, provider, id, key) <==> candidate == Some(key) {
      if key in rows {
        FingerprintMeans(rows[key].fingerprint, request, provider);
      }
      assert IsCandidate(rows, request, provider, id, key) <==> candidate == Some(key);
    }
    hide Chosen, Candidate, Usable, Intact, IsCandidate, RowsValid;
    if candidate.Some? {
      UsableIsIntact(rows, directories, integrity, candidate.value);
    } else {
      NoCandidate(rows, directories, integrity);
    }
  }

  lemma NoCandidate(rows: Rows, directories: Directories, integrity: Integrity)
    ensures Usable(rows, directories, integrity, None).None?
  {
  }

  /**
   Every decision, by what is found. A snapshot is reused exactly when no refresh is asked for and the
   chosen row has an intact snapshot, captured with this very request, which is still fresh unless the mode
   is a local one. A source is extracted exactly in the other modes, and then when a refresh is asked for or
   nothing fresh is found, but never in place of a snapshot that was chosen and is not intact, nor of one
   captured with another request. In all other cases the source is missing.
   */
  lemma DecisionsMean(
    rows: Rows, directories: Directories, integrity: Integrity, ttl: int, now: Timestamp,
    request: Request, provider: string, mode: Mode, id: Option<SnapshotKey>)
    requires RowsValid(rows)
    ensures var d := DecisionFor(rows, directories, integrity, ttl, now, request, provider, mode, id);
            && d.request == request
            && (d.action == Reuse <==>
                  && mode != RefreshAll
                  && exists s :: Finds(rows, directories, integrity, request, provider, id, s)
                                 && AsksFor(s.fingerprint, request, provider)
                                 && (LocalMode(mode) || StillFresh(s, ttl, now)))
            && (d.action == Refresh <==>
                  && !LocalMode(mode)
                  && (id.Some? ==> exists s :: Finds(rows, directories, integrity, request, provider, id, s))
                  && (forall s :: Finds(rows, directories, integrity, request, provider, id, s) ==>
                        && AsksFor(s.fingerprint, request, provider)
                        && (mode == RefreshAll || !StillFresh(s, ttl, now))))
            && (d.action == Reuse ==>
                  && d.snapshot.Some?
                  && Finds(rows, directories, integrity, request, provider, id, d.snapshot.value)
                  && AsksFor(d.snapshot.value.fingerprint, request, provider))
  {
    FindsCandidate(rows, directories, integrity, request, provider, id);
    var found := Usable(rows, directories, integrity, Candidate(rows, request, provider, id));
    hide Finds, Usable, Candidate, RowsValid;
    if found.Some? {
      FingerprintMeans(found.value.fingerprint, request, provider);
      ExpiresExactly(found.value, ttl, now);
      assert Finds(rows, directories, integrity, request, provider, id, found.value);
    }
    hide AsksFor, StillFresh, Expired, RequestFingerprint;
  }

  // ---------- the limits on what is reused ----------

  /** More rows than the policy or the command allows. */
  predicate TooMany(o: Options, rows: nat) {
    || rows > o.policyRows
    || rows > (if o.requestedRows.None? || o.requestedRows == Some(0) then UNLIMITED else o.requestedRows.value)
  }

  /** Last known to be current longer ago than a tag of the source allows. */
  predicate TooOldFor(ageLimits: seq<int>, s: Snapshot, now: Timestamp) {
    var seen := if s.verified.Some? then s.verified.value else s.completed;
    exists i :: 0 <= i < |ageLimits| && now - seen > ageLimits[i]
  }

  /**
   The limits. A snapshot about to be reused with too many rows stops the planning; one that is too old for
   a tag is missing when only local data may be used and is extracted again otherwise; everything else is
   left as it was decided.
   */
  lemma LimitsMean(o: Options, clock: Clock, e: Prepared)
    requires e.decision.action == Reuse ==> e.decision.snapshot.Some?
    ensures var d, after := e.decision, Limited(o, clock, e);
            if d.action != Reuse then after == Success(e)
            else if TooMany(o, d.snapshot.value.rows) then after == Failure(PolicyError)
            else if TooOldFor(e.plan.ageLimits, d.snapshot.value, clock(AtAgeCheck(e.plan.id))) then
              && after.Success?
              && after.value.plan == e.plan
              && after.value.ready == e.ready
              && after.value.decision.request == d.request
              && after.value.decision.snapshot.None?
              && after.value.decision.action
                 == (if o.dataset.Some? || o.mode == Offline || o.mode == Cached then Missing else Refresh)
            else after == Success(e)
  {
    if e.decision.action == Reuse {
      TooOldMeans(e.plan, e.decision.snapshot.value, clock(AtAgeCheck(e.plan.id)));
    }
    hide TooOld, TooOldFor;
  }

  lemma TooOldMeans(s: PlannedSource, snapshot: Snapshot, now: Timestamp)
    ensures TooOld(s, snapshot, now) <==> TooOldFor(s.ageLimits, snapshot, now)
  {
    if TooOld(s, snapshot, now) {
      var age :| age in s.ageLimits && now - snapshot.Observed() > age;
      var i :| 0 <= i < |s.ageLimits| && s.ageLimits[i] == age;
      assert now - snapshot.Observed() > s.ageLimits[i];
    }
    if TooOldFor(s.ageLimits, snapshot, now) {
      var i :| 0 <= i < |s.ageLimits| && now - snapshot.Observed() > s.ageLimits[i];
      assert s.ageLimits[i] in s.ageLimits;
    }
  }

  // ---------- the plan ----------

  /** When planning is refused before anything is decided layer by layer. */
  lemma PlansRefuse(c: Context, plans: Sources)
    requires ParentsWithin(plans, {})
    ensures (c.options.dataset.Some? && (c.options.pick.Some? || c.options.mode == RefreshAll))
            || (c.options.dataset.Some? && exists s <- plans :: s.id !in c.options.dataset.value)
            ==> Plan(c, plans) == Failure(ConfigError)
  {
    hide Levels, ResolveAll;
  }

  /**
   Whose row a plan may reuse for this source: the member of the frozen dataset, the snapshot that was
   picked, or the active row of the request.
   */
  predicate MayReuse(c: Context, e: Prepared, s: Snapshot) {
    && s.key in c.rows
    && (if c.options.dataset.Some? then
          e.plan.id in c.options.dataset.value && s.key == c.options.dataset.value[e.plan.id]
        else if c.options.pick.Some? then s.key == c.options.pick.value
        else c.rows[s.key].active)
  }

  /** What is reused was captured by this provider for this request, and may be reused. */
  predicate Justified(c: Context, e: Prepared) {
    e.decision.action == Reuse ==>
      && e.decision.snapshot.Some?
      && MayReuse(c, e, e.decision.snapshot.value)
      && e.decision.snapshot.value.provider == e.plan.provider
      && SameRequest(e.decision.snapshot.value.request, e.decision.request)
  }

  lemma JudgedIsJustified(c: Context, e: Prepared, request: Request, now: Timestamp)
    requires WorldValid(c) && (c.options.dataset.Some? ==> e.plan.id in c.options.dataset.value)
    requires e.decision == Judged(c, e.plan, request, now)
    ensures Justified(c, e)
  {
    JudgedReuse(c, e.plan, request, now);
    if e.decision.action == Reuse {
      var s := e.decision.snapshot.value;
      UsableIsHeld(c, Candidate(c.rows, request, e.plan.provider, PickFor(c.options, e.plan.id)));
      FingerprintsDistinguish(s.request, s.provider, request, e.plan.provider);
      hide Held, Read, RequestFingerprint, RowsValid, AllRowsAuthentic, AllAuthentic;
    }
  }

  lemma LimitedIsJustified(c: Context, e: Prepared)
    requires Justified(c, e) && Limited(c.options, c.clock, e).Success?
    ensures Limited(c.options, c.clock, e).value.plan == e.plan && Justified(c, Limited(c.options, c.clock, e).value)
  {
    hide TooOld, SameRequest;
  }

  lemma ResolvedIsJustified(c: Context, s: PlannedSource, parent: Option<Decision>)
    requires WorldValid(c) && WellFormed(s) && (parent.Some? <==> s.parent.Some?)
    requires parent.Some? ==> HasSnapshot(parent.value)
    requires c.options.dataset.Some? ==> s.id in c.options.dataset.value
    ensures Resolve(c, s, parent).Success? ==>
              Resolve(c, s, parent).value.plan == s && Justified(c, Resolve(c, s, parent).value)
  {
    var derived := Derive(c, s, parent);
    if derived.Success? {
      DerivedFacts(c, s, parent);
      DerivedIsJustified(c, s, parent, derived.value);
      hide Derive, Justified, Limited, WorldValid, CohortRequest;
      if Limited(c.options, c.clock, derived.value).Success? {
        LimitedIsJustified(c, derived.value);
      }
    }
  }

  lemma DerivedIsJustified(c: Context, s: PlannedSource, parent: Option<Decision>, e: Prepared)
    requires WorldValid(c) && e.plan == s && (c.options.dataset.Some? ==> s.id in c.options.dataset.value)
    requires parent.Some? ==> HasSnapshot(parent.value)
    requires parent.None? ==> e == First(c, s)
    requires parent.Some? && parent.value.action == Reuse ==>
               e.decision == Judged(c, s, e.decision.request, c.clock(AtDerivation(s.id)))
    requires parent.Some? && parent.value.action != Reuse ==> e.decision.action == parent.value.action
    ensures Justified(c, e)
  {
    hide WorldValid, Judged;
    if parent.None? {
      JudgedIsJustified(c, e, s.base, c.clock(AtPlanning(s.id)));
    } else if parent.value.action == Reuse {
      JudgedIsJustified(c, e, e.decision.request, c.clock(AtDerivation(s.id)));
    }
  }

  /**
   What a plan reuses. Every reused snapshot was captured from the source's provider with a request that
   equals the one asked for in every field but the query tag; its row is the one that the options select;
   and it is within the row limits and the age limits of the source's tags.
   */
  lemma ReusedAsAsked(c: Context, plans: Sources, id: SourceId)
    requires WellPlanned(plans) && WorldValid(c) && Plan(c, plans).Success?
    requires id in Plan(c, plans).value && Plan(c, plans).value[id].decision.action == Reuse
    ensures var e := Plan(c, plans).value[id];
            && e.decision.snapshot.Some?
            && var s, asked := e.decision.snapshot.value, e.decision.request;
               && s.provider == e.plan.provider
               && s.request.source == asked.source
               && s.request.relation == asked.relation
               && s.request.sampling == asked.sampling
               && s.request.fidelity == asked.fidelity
               && s.request.projection == asked.projection
               && s.request.scope == asked.scope
               && MayReuse(c, e, s)
               && !TooMany(c.options, s.rows)
               && !TooOldFor(e.plan.ageLimits, s, c.clock(AtAgeCheck(id)))
  {
    PlanIsConsistent(c, plans);
    PlanCovers(c, plans);
    var resolved := Plan(c, plans).value;
    hide Plan, WorldValid;
    var source :| source in plans && source.id == id;
    ParentHasSnapshot(c, plans, resolved, source);
    EntryIsReusable(c, source, ParentDecision(source, resolved), resolved[id]);
    hide AllConsistent, MayReuse, TooOldFor, TooMany;
  }

  lemma EntryIsReusable(c: Context, s: PlannedSource, parent: Option<Decision>, e: Prepared)
    requires WorldValid(c) && WellFormed(s) && (parent.Some? <==> s.parent.Some?)
    requires parent.Some? ==> HasSnapshot(parent.value)
    requires c.options.dataset.Some? ==> s.id in c.options.dataset.value
    requires Resolve(c, s, parent) == Success(e) && e.decision.action == Reuse
    ensures e.plan == s && Justified(c, e) && e.decision.snapshot.Some?
    ensures !TooMany(c.options, e.decision.snapshot.value.rows)
    ensures !TooOldFor(s.ageLimits, e.decision.snapshot.value, c.clock(AtAgeCheck(s.id)))
  {
    hide WorldValid, Resolve, Held, CohortRequest, TooOld, TooOldFor, Describes;
    ResolvedIsJustified(c, s, parent);
    ResolveIsSound(c, s, parent);
    TooOldMeans(s, e.decision.snapshot.value, c.clock(AtAgeCheck(s.id)));
    hide MayReuse, SameRequest;
  }

  lemma PlanCovers(c: Context, plans: Sources)
    requires ParentsWithin(plans, {}) && Plan(c, plans).Success?
    ensures c.options.dataset.Some? ==> forall s <- plans :: s.id in c.options.dataset.value
  {
    hide ResolveAll, Levels;
  }

  lemma ParentHasSnapshot(c: Context, plans: Sources, resolved: map<SourceId, Prepared>, s: PlannedSource)
    requires AllConsistent(c, resolved) && s in plans && s.id in resolved && resolved[s.id].plan == s
    ensures s.parent.Some? ==> s.parent.value in resolved && HasSnapshot(resolved[s.parent.value].decision)
    ensures Resolve(c, s, ParentDecision(s, resolved)) == Success(resolved[s.id])
  {
    assert Consistent(c, resolved[s.id], resolved);
    hide Resolve;
  }
}
