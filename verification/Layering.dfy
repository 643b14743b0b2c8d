/** Planned sources, and the order in which cohorts are captured: parents strictly before children. */
module Layering {
  import opened Outcomes
  import opened Identity

  /**
   A source of the plan: its base request, its cohort rule and parent, and the age limits that its
   tags impose.
   */
  datatype PlannedSource = PlannedSource(
    id: SourceId,
    connection: string,
    provider: string,
    base: Request,
    recipe: Option<Recipe>,
    parent: Option<SourceId>,
    ageLimits: seq<int>)

  type Sources = seq<PlannedSource>

  function Ids(sources: Sources): set<SourceId> {
    set s <- sources :: s.id
  }

  predicate IsReady(source: PlannedSource, pending: set<SourceId>) {
    source.parent.None? || source.parent.value !in pending
  }

  function Ready(sources: Sources, pending: set<SourceId>): Sources {
    if sources == [] then []
    else (if IsReady(sources[0], pending) then [sources[0]] else []) + Ready(sources[1..], pending)
  }

  function Waiting(sources: Sources, pending: set<SourceId>): Sources {
    if sources == [] then []
    else (if IsReady(sources[0], pending) then [] else [sources[0]]) + Waiting(sources[1..], pending)
  }

  lemma {:induction false} ReadyAndWaiting(sources: Sources, pending: set<SourceId>)
    ensures forall s :: s in Ready(sources, pending) <==> s in sources && IsReady(s, pending)
    ensures forall s :: s in Waiting(sources, pending) <==> s in sources && !IsReady(s, pending)
    ensures multiset(Ready(sources, pending)) + multiset(Waiting(sources, pending)) == multiset(sources)
    ensures |Ready(sources, pending)| + |Waiting(sources, pending)| == |sources|
  {
    if sources != [] {
      ReadyAndWaiting(sources[1..], pending);
      assert sources == [sources[0]] + sources[1..];
    }
  }

  /** The layers of `remaining`, or a configuration error when nothing is ready. */
  function Levels(remaining: Sources): Result<seq<Sources>>
    decreases |remaining|
  {
    ReadyAndWaiting(remaining, Ids(remaining));
    if remaining == [] then Success([])
    else if Ready(remaining, Ids(remaining)) == [] then Failure(ConfigError)
    else
      var rest := Levels(Waiting(remaining, Ids(remaining)));
      if rest.Failure? then rest else Success([Ready(remaining, Ids(remaining))] + rest.value)
  }

  /** `source_levels`. Removing the ready items by equality removes exactly the ready ones. */
  method SourceLevels(sources: Sources) returns (result: Result<seq<Sources>>)
    ensures result == Levels(sources)
  {
    var remaining := sources;
    var levels: seq<Sources> := [];
    assert Levels(sources).Success? ==> levels + Levels(sources).value == Levels(sources).value;
    while remaining != []
      invariant Levels(sources) == if Levels(remaining).Failure? then Levels(remaining)
                                   else Success(levels + Levels(remaining).value)
      decreases |remaining|
    {
      var pending := Ids(remaining);
      var ready := Ready(remaining, pending);
      ReadyAndWaiting(remaining, pending);
      if ready == [] {
        return Failure(ConfigError);
      }
      WaitingIsRest(remaining, pending, ready);
      assert forall rest: seq<Sources> :: levels + ([ready] + rest) == levels + [ready] + rest;
      levels := levels + [ready];
      remaining := NotIn(remaining, ready);
    }
    assert levels + [] == levels;
    return Success(levels);
  }

  /** `[item for item in remaining if item not in ready]`. */
  function NotIn(remaining: Sources, ready: Sources): Sources {
    if remaining == [] then []
    else (if remaining[0] in ready then [] else [remaining[0]]) + NotIn(remaining[1..], ready)
  }

  lemma WaitingIsRest(remaining: Sources, pending: set<SourceId>, ready: Sources)
    requires ready == Ready(remaining, pending)
    ensures NotIn(remaining, ready) == Waiting(remaining, pending)
  {
    ReadyAndWaiting(remaining, pending);
    SuffixWaits(remaining, pending, ready);
  }

  lemma {:induction false} SuffixWaits(suffix: Sources, pending: set<SourceId>, ready: Sources)
    requires forall s <- suffix :: s in ready <==> IsReady(s, pending)
    ensures NotIn(suffix, ready) == Waiting(suffix, pending)
  {
    if suffix != [] {
      assert suffix[0] in suffix;
      SuffixWaits(suffix[1..], pending, ready);
    }
  }

  // ---------- parent chains ----------

  /** Consecutive sources of `chain` are child and parent, all within `sources`. */
  ghost predicate IsChain(sources: Sources, chain: Sources) {
    && chain != []
    && (forall s <- chain :: s in sources)
    && (forall i :: 0 <= i < |chain| - 1 ==> chain[i].parent == Some(chain[i + 1].id))
  }

  ghost predicate ChainFrom(sources: Sources, s: PlannedSource, length: nat) {
    exists chain: Sources :: IsChain(sources, chain) && chain[0] == s && |chain| == length
  }

  ghost predicate HasCycle(sources: Sources) {
    exists chain: Sources :: IsChain(sources, chain) && |chain| >= 2 && chain[0] == chain[|chain| - 1]
  }

  /** Every source of a chain but the last waits for its parent. */
  lemma ChainWaits(remaining: Sources, chain: Sources, i: nat)
    requires IsChain(remaining, chain) && i < |chain| - 1
    ensures chain[i] in Waiting(remaining, Ids(remaining))
  {
    ReadyAndWaiting(remaining, Ids(remaining));
    assert chain[i] in remaining && chain[i + 1] in remaining;
  }

  lemma Extend(sources: Sources, chain: Sources, parent: PlannedSource)
    requires IsChain(sources, chain) && parent in sources && chain[|chain| - 1].parent == Some(parent.id)
    ensures IsChain(sources, chain + [parent])
  {
  }

  lemma Widen(part: Sources, sources: Sources, chain: Sources)
    requires IsChain(part, chain) && forall s <- part :: s in sources
    ensures IsChain(sources, chain)
  {
  }

  lemma ChainGrows(remaining: Sources, s: PlannedSource, chain: Sources)
    requires IsChain(Waiting(remaining, Ids(remaining)), chain) && chain[0] == s
    ensures ChainFrom(remaining, s, |chain| + 1)
  {
    ReadyAndWaiting(remaining, Ids(remaining));
    var last := chain[|chain| - 1];
    assert last in chain;
    var parent :| parent in remaining && parent.id == last.parent.value;
    Widen(Waiting(remaining, Ids(remaining)), remaining, chain);
    Extend(remaining, chain, parent);
    assert (chain + [parent])[0] == s;
  }

  lemma ChainShrinks(remaining: Sources, s: PlannedSource, chain: Sources)
    requires IsChain(remaining, chain) && chain[0] == s && |chain| > 1
    ensures ChainFrom(Waiting(remaining, Ids(remaining)), s, |chain| - 1)
  {
    var waiting, shorter := Waiting(remaining, Ids(remaining)), chain[..|chain| - 1];
    forall t <- shorter ensures t in waiting {
      var i :| 0 <= i < |shorter| && shorter[i] == t;
      ChainWaits(remaining, chain, i);
    }
    assert IsChain(waiting, shorter) && shorter[0] == s;
  }

  /** Chains of what waits grow by exactly one step in the whole. */
  lemma ChainsGrow(remaining: Sources, s: PlannedSource, length: nat)
    requires length > 0
    ensures ChainFrom(Waiting(remaining, Ids(remaining)), s, length) <==> ChainFrom(remaining, s, length + 1)
  {
    var waiting := Waiting(remaining, Ids(remaining));
    if ChainFrom(waiting, s, length) {
      var chain: Sources :| IsChain(waiting, chain) && chain[0] == s && |chain| == length;
      ChainGrows(remaining, s, chain);
    }
    if ChainFrom(remaining, s, length + 1) {
      var chain: Sources :| IsChain(remaining, chain) && chain[0] == s && |chain| == length + 1;
      ChainShrinks(remaining, s, chain);
    }
  }

  predicate InLevel(levels: seq<Sources>, s: PlannedSource, k: nat) {
    k < |levels| && s in levels[k]
  }

  lemma FirstLevel(sources: Sources, s: PlannedSource)
    requires Levels(sources).Success?
    ensures InLevel(Levels(sources).value, s, 0) <==> s in sources && s !in Waiting(sources, Ids(sources))
  {
    ReadyAndWaiting(sources, Ids(sources));
  }

  lemma LaterLevel(sources: Sources, s: PlannedSource, k: nat)
    requires Levels(sources).Success? && k > 0
    ensures sources != [] ==> Levels(Waiting(sources, Ids(sources))).Success?
    ensures InLevel(Levels(sources).value, s, k)
            <==> sources != [] && InLevel(Levels(Waiting(sources, Ids(sources))).value, s, k - 1)
  {
  }

  /**
   Layering is exact: a source is in layer `k` exactly when its longest parent chain within the
   input has `k + 1` members.
   */
  lemma {:induction false} LevelIsDepth(sources: Sources, s: PlannedSource, k: nat)
    requires Levels(sources).Success?
    ensures InLevel(Levels(sources).value, s, k)
            <==> s in sources && ChainFrom(sources, s, k + 1) && !ChainFrom(sources, s, k + 2)
    decreases |sources|
  {
    hide ChainFrom, InLevel, Levels, Waiting, Ids;
    var waiting := Waiting(sources, Ids(sources));
    ReadyAndWaiting(sources, Ids(sources));
    ChainsStartInside(sources, s);
    ChainsStartInside(waiting, s);
    if k == 0 {
      FirstLevel(sources, s);
      ChainsGrow(sources, s, 1);
    } else {
      LaterLevel(sources, s, k);
      ChainsGrow(sources, s, k);
      ChainsGrow(sources, s, k + 1);
      if sources != [] {
        WaitingIsLess(sources);
        LevelIsDepth(waiting, s, k - 1);
      }
    }
  }

  lemma WaitingIsLess(sources: Sources)
    requires Levels(sources).Success? && sources != []
    ensures |Waiting(sources, Ids(sources))| < |sources|
  {
    ReadyAndWaiting(sources, Ids(sources));
  }

  lemma ChainsStartInside(sources: Sources, s: PlannedSource)
    ensures ChainFrom(sources, s, 1) <==> s in sources
    ensures forall n: nat :: ChainFrom(sources, s, n) ==> s in sources
  {
    if s in sources {
      assert IsChain(sources, [s]);
    }
  }

  /** The layers partition the input. */
  lemma {:induction false} LevelsPartition(sources: Sources)
    requires Levels(sources).Success?
    ensures multiset(Flatten(Levels(sources).value)) == multiset(sources)
    decreases |sources|
  {
    if sources != [] {
      ReadyAndWaiting(sources, Ids(sources));
      LevelsPartition(Waiting(sources, Ids(sources)));
    }
  }

  function Flatten(levels: seq<Sources>): Sources {
    if levels == [] then [] else levels[0] + Flatten(levels[1..])
  }

  // ---------- parents come first ----------

  /** Every parent is known before the layer of its children starts. */
  ghost predicate ParentsKnown(levels: seq<Sources>, known: set<SourceId>) {
    levels == []
    || ((forall s <- levels[0] :: s.parent.Some? ==> s.parent.value in known)
        && ParentsKnown(levels[1..], known + Ids(levels[0])))
  }

  /** Parents lie in the input or are known from the start. */
  predicate ParentsWithin(sources: Sources, known: set<SourceId>) {
    forall s <- sources :: s.parent.Some? ==> s.parent.value in Ids(sources) + known
  }

  lemma {:induction false} ParentsComeFirst(sources: Sources, known: set<SourceId>)
    requires Levels(sources).Success? && ParentsWithin(sources, known)
    ensures ParentsKnown(Levels(sources).value, known)
    decreases |sources|
  {
    if sources != [] {
      var ready, waiting := Ready(sources, Ids(sources)), Waiting(sources, Ids(sources));
      ReadyAndWaiting(sources, Ids(sources));
      assert ParentsWithin(waiting, known + Ids(ready)) by {
        assert Ids(sources) == Ids(waiting) + Ids(ready) by {
          assert forall s :: s in sources <==> s in ready || s in waiting;
        }
      }
      ParentsComeFirst(waiting, known + Ids(ready));
    }
  }

  /** The same, source by source. */
  ghost predicate ParentsFirst(order: Sources, known: set<SourceId>)
    decreases |order|
  {
    order == []
    || ((order[0].parent.Some? ==> order[0].parent.value in known)
        && ParentsFirst(order[1..], known + {order[0].id}))
  }

  lemma {:induction false} ParentsFirstInLevels(
    level: Sources, levels: seq<Sources>, known: set<SourceId>, all: set<SourceId>)
    requires known <= all && ParentsKnown(levels, all)
    requires forall s <- level :: s.parent.Some? ==> s.parent.value in known
    requires all == known + Ids(level)
    ensures ParentsFirst(level + Flatten(levels), known)
    decreases |levels|, |level|
  {
    if level != [] {
      assert level == [level[0]] + level[1..];
      assert (level + Flatten(levels))[1..] == level[1..] + Flatten(levels);
      ParentsFirstInLevels(level[1..], levels, known + {level[0].id}, all);
    } else if levels != [] {
      ParentsFirstInLevels(levels[0], levels[1..], known, all + Ids(levels[0]));
      assert [] + Flatten(levels) == levels[0] + Flatten(levels[1..]);
    }
  }

  lemma OrderIsParentsFirst(sources: Sources, known: set<SourceId>)
    requires Levels(sources).Success? && ParentsWithin(sources, known)
    ensures ParentsFirst(Flatten(Levels(sources).value), known)
  {
    ParentsComeFirst(sources, known);
    ParentsFirstInLevels([], Levels(sources).value, known, known);
    assert [] + Flatten(Levels(sources).value) == Flatten(Levels(sources).value);
  }

  // ---------- cycles ----------

  lemma CycleWaits(sources: Sources)
    requires HasCycle(sources)
    ensures HasCycle(Waiting(sources, Ids(sources)))
  {
    var chain: Sources :| IsChain(sources, chain) && |chain| >= 2 && chain[0] == chain[|chain| - 1];
    forall s <- chain ensures s in Waiting(sources, Ids(sources)) {
      var i :| 0 <= i < |chain| && chain[i] == s;
      ChainWaits(sources, chain, if i == |chain| - 1 then 0 else i);
    }
    assert IsChain(Waiting(sources, Ids(sources)), chain);
  }

  /** When every source waits, chains of any length exist. */
  lemma {:induction false} EndlessChain(sources: Sources, length: nat) returns (chain: Sources)
    requires sources != [] && length > 0
    requires forall s <- sources :: !IsReady(s, Ids(sources))
    ensures IsChain(sources, chain) && |chain| == length
  {
    if length == 1 {
      return [sources[0]];
    }
    chain := EndlessChain(sources, length - 1);
    var last := chain[|chain| - 1];
    assert last in sources;
    var parent :| parent in sources && parent.id == last.parent.value;
    chain := chain + [parent];
  }

  /** A chain longer than the number of sources repeats one. */
  lemma {:induction false} Repeats(chain: Sources, distinct: set<PlannedSource>) returns (i: nat, j: nat)
    requires (forall s <- chain :: s in distinct) && |chain| > |distinct|
    ensures i < j < |chain| && chain[i] == chain[j]
    decreases |chain|
  {
    var first := chain[0];
    if k :| 1 <= k < |chain| && chain[k] == first {
      return 0, k;
    }
    forall s <- chain[1..] ensures s in distinct - {first} {
      var k :| 0 <= k < |chain[1..]| && chain[1..][k] == s;
      assert chain[k + 1] == s;
    }
    i, j := Repeats(chain[1..], distinct - {first});
    i, j := i + 1, j + 1;
  }

  lemma StuckHasCycle(sources: Sources)
    requires sources != [] && forall s <- sources :: !IsReady(s, Ids(sources))
    ensures HasCycle(sources)
  {
    var distinct := set s <- sources;
    var chain := EndlessChain(sources, |distinct| + 1);
    var i, j := Repeats(chain, distinct);
    SubchainIsChain(sources, chain, i, j);
    assert chain[i..j + 1][0] == chain[i] && chain[i..j + 1][j - i] == chain[j];
  }

  lemma SubchainIsChain(sources: Sources, chain: Sources, i: nat, j: nat)
    requires IsChain(sources, chain) && i < j < |chain|
    ensures IsChain(sources, chain[i..j + 1])
  {
    assert forall s <- chain[i..j + 1] :: s in chain;
  }

  /** Layering fails exactly on inputs whose parent relation has a cycle. */
  lemma {:induction false} FailsOnCycles(sources: Sources)
    ensures Levels(sources).Failure? <==> HasCycle(sources)
    decreases |sources|
  {
    ReadyAndWaiting(sources, Ids(sources));
    var waiting := Waiting(sources, Ids(sources));
    if sources == [] {
      assert forall chain: Sources :: IsChain(sources, chain) ==> chain[0] in sources;
    } else if Ready(sources, Ids(sources)) == [] {
      forall s <- sources ensures !IsReady(s, Ids(sources)) {
        assert IsReady(s, Ids(sources)) ==> s in Ready(sources, Ids(sources));
      }
      StuckHasCycle(sources);
    } else {
      FailsOnCycles(waiting);
      if HasCycle(waiting) {
        var chain: Sources :| IsChain(waiting, chain) && |chain| >= 2 && chain[0] == chain[|chain| - 1];
        assert IsChain(sources, chain);
      }
      if HasCycle(sources) {
        CycleWaits(sources);
      }
    }
  }
}
