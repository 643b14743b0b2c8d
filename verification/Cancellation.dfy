/**
 The cancellation token: an event that is set outside the lock, and a callback list that is only
 touched inside it. Register, unregister and any number of concurrent cancel calls interleave.

 Every registration gets a ticket; two registrations may carry equal callbacks.
 */
module Cancellation {
  import opened Outcomes

  type Callback = string
  type Ticket = nat
  type Caller = nat

  /** A cancel call: past its check, past setting the event, running what it took, or returned. */
  datatype Call = Checked | Signalled | Running(todo: seq<Ticket>) | Returned

  /** A registration inside the lock, with the value of the event it has read. */
  datatype Registering = Registering(callback: Callback, sawEvent: bool)

  /** Where a registration has got to. */
  datatype Place = Listed | TakenBy(caller: Caller) | Ran | Removed

  /** `runs` counts callback executions; `place` and `unregistered` only observe. */
  datatype Token = Token(
    event: bool,
    listed: seq<Ticket>,
    inside: Option<Registering>,
    calls: map<Caller, Call>,
    callbacks: seq<Callback>,
    runs: seq<nat>,
    place: seq<Place>,
    unregistered: set<Ticket>)

  datatype Step =
    | BeginRegister(callback: Callback)
    | EndRegister
    | Unregister(ticket: Ticket)
    | BeginCancel(caller: Caller)
    | Signal(caller: Caller)
    | TakeAll(caller: Caller)
    | RunNext(caller: Caller)
    | FinishCancel(caller: Caller)

  const INITIAL := Token(false, [], None, map[], [], [], [], {})

  // ---------- steps ----------

  predicate Within(s: seq<Ticket>, n: nat) {
    forall i :: 0 <= i < |s| ==> s[i] < n
  }

  function Todo(k: Token, caller: Caller): seq<Ticket> {
    if caller in k.calls && k.calls[caller].Running? then k.calls[caller].todo else []
  }

  predicate Shaped(k: Token) {
    && |k.runs| == |k.callbacks| == |k.place|
    && Within(k.listed, |k.callbacks|)
    && (forall c <- k.calls :: Within(Todo(k, c), |k.callbacks|))
  }

  predicate Enabled(k: Token, step: Step) {
    match step
    case BeginRegister(_) => k.inside.None?
    case EndRegister => k.inside.Some?
    case Unregister(ticket) => k.inside.None? && ticket < |k.callbacks|
    case BeginCancel(caller) => caller !in k.calls
    case Signal(caller) => caller in k.calls && k.calls[caller].Checked?
    case TakeAll(caller) => k.inside.None? && caller in k.calls && k.calls[caller].Signalled?
    case RunNext(caller) => caller in k.calls && k.calls[caller].Running? && k.calls[caller].todo != []
    case FinishCancel(caller) => caller in k.calls && k.calls[caller].Running? && k.calls[caller].todo == []
  }

  /** `list.remove`: the position of the first listed ticket whose callback equals `callback`. */
  function FirstEqual(listed: seq<Ticket>, callbacks: seq<Callback>, callback: Callback): (r: Option<nat>)
    requires Within(listed, |callbacks|)
    ensures r.Some? ==> r.value < |listed| && callbacks[listed[r.value]] == callback
    ensures r.Some? ==> forall i :: 0 <= i < r.value ==> callbacks[listed[i]] != callback
    ensures r.None? ==> forall i :: 0 <= i < |listed| ==> callbacks[listed[i]] != callback
  {
    if listed == [] then None
    else if callbacks[listed[0]] == callback then Some(0)
    else
      var rest := FirstEqual(listed[1..], callbacks, callback);
      if rest.None? then None else Some(rest.value + 1)
  }

  function MarkTaken(place: seq<Place>, caller: Caller): (r: seq<Place>)
    ensures |r| == |place|
    ensures forall n :: 0 <= n < |r| ==> r[n] == if place[n].Listed? then TakenBy(caller) else place[n]
  {
    seq(|place|, n requires 0 <= n < |place| => if place[n].Listed? then TakenBy(caller) else place[n])
  }

  function Apply(k: Token, step: Step): Token
    requires Shaped(k) && Enabled(k, step)
  {
    match step
    case BeginRegister(callback) => k.(inside := Some(Registering(callback, k.event)))
    case EndRegister =>
      var n := |k.callbacks|;
      var added := k.(inside := None, callbacks := k.callbacks + [k.inside.value.callback],
                      runs := k.runs + [if k.inside.value.sawEvent then 1 else 0],
                      place := k.place + [if k.inside.value.sawEvent then Ran else Listed]);
      if k.inside.value.sawEvent then added else added.(listed := k.listed + [n])
    case Unregister(ticket) =>
      var called := k.(unregistered := k.unregistered + {ticket});
      (match FirstEqual(k.listed, k.callbacks, k.callbacks[ticket])
       case None => called
       case Some(i) => called.(listed := k.listed[..i] + k.listed[i + 1..], place := k.place[k.listed[i] := Removed]))
    case BeginCancel(caller) => k.(calls := k.calls[caller := if k.event then Returned else Checked])
    case Signal(caller) => k.(event := true, calls := k.calls[caller := Signalled])
    case TakeAll(caller) =>
      k.(listed := [], calls := k.calls[caller := Running(k.listed)], place := MarkTaken(k.place, caller))
    case RunNext(caller) =>
      var todo := k.calls[caller].todo;
      assert Todo(k, caller) == todo;
      k.(runs := k.runs[todo[0] := k.runs[todo[0]] + 1], calls := k.calls[caller := Running(todo[1..])],
         place := k.place[todo[0] := Ran])
    case FinishCancel(caller) => k.(calls := k.calls[caller := Returned])
  }

  // ---------- the invariant ----------

  /** `s` lists, each once, exactly the tickets at `place`. */
  ghost predicate Lists(s: seq<Ticket>, places: seq<Place>, place: Place) {
    && (forall i, j :: 0 <= i < j < |s| ==> s[i] != s[j])
    && (forall i :: 0 <= i < |s| ==> s[i] < |places| && places[s[i]] == place)
    && (forall n :: 0 <= n < |places| && places[n] == place ==> n in s)
  }

  /** Every ticket is in exactly one place, and the lists agree; it has run once if it is done, and else not at all. */
  ghost predicate PlacesOk(k: Token) {
    ListsOk(k) && RunsOk(k)
  }

  ghost predicate ListsOk(k: Token) {
    && Lists(k.listed, k.place, Listed)
    && (forall c: Caller :: Lists(Todo(k, c), k.place, TakenBy(c)))
  }

  ghost predicate RunsOk(k: Token) {
    Counted(k.runs, k.place)
  }

  /** `runs` agrees with `place`. */
  ghost predicate Counted(runs: seq<nat>, place: seq<Place>) {
    |runs| == |place| && forall n :: 0 <= n < |place| ==> runs[n] == if place[n].Ran? then 1 else 0
  }

  /** Once the event is set, somebody is still to take the list, or nothing can be added to it any more. */
  ghost predicate EventOk(k: Token) {
    && (k.event ==>
          || (exists c <- k.calls :: k.calls[c].Signalled?)
          || (k.listed == [] && (k.inside.Some? ==> k.inside.value.sawEvent)))
    && (!k.event ==> forall c <- k.calls :: k.calls[c].Checked?)
    && (k.inside.Some? && k.inside.value.sawEvent ==> k.event)
  }

  /** A registration is removed only through a handle whose callback equals its own. */
  ghost predicate RemovedOk(k: Token) {
    && (forall m <- k.unregistered :: m < |k.callbacks|)
    && (forall n :: 0 <= n < |k.place| && n < |k.callbacks| && k.place[n].Removed? ==> HandleUsed(k, n))
  }

  predicate HandleUsed(k: Token, n: Ticket)
    requires n < |k.callbacks|
  {
    exists m <- k.unregistered :: m < |k.callbacks| && k.callbacks[m] == k.callbacks[n]
  }

  /** Tickets are listed in the order of registration. */
  ghost predicate InOrder(k: Token) {
    forall i, j :: 0 <= i < j < |k.listed| ==> k.listed[i] < k.listed[j]
  }

  ghost predicate Inv(k: Token) {
    Shaped(k) && PlacesOk(k) && EventOk(k) && RemovedOk(k) && InOrder(k)
  }

  // ---------- every step keeps the invariant ----------

  lemma PlacesStep(k: Token, step: Step)
    requires Shaped(k) && PlacesOk(k) && Enabled(k, step)
    ensures Shaped(Apply(k, step)) && PlacesOk(Apply(k, step))
  {
    CountsStep(k, step);
    hide Shaped, ListsOk, RunsOk, Apply, Enabled;
    match step {
      case EndRegister => EndRegisterStep(k);
      case Unregister(ticket) => UnregisterStep(k, ticket);
      case TakeAll(caller) => TakeAllStep(k, caller);
      case RunNext(caller) => RunNextStep(k, caller);
      case _ => QuietStep(k, step);
    }
  }

  lemma CountedMoves(runs: seq<nat>, place: seq<Place>, n: nat, to: Place)
    requires Counted(runs, place) && n < |place| && !place[n].Ran?
    ensures if to.Ran? then Counted(runs[n := runs[n] + 1], place[n := to]) else Counted(runs, place[n := to])
  {
  }

  lemma CountedGrows(runs: seq<nat>, place: seq<Place>, done: bool)
    requires Counted(runs, place)
    ensures Counted(runs + [if done then 1 else 0], place + [if done then Ran else Listed])
  {
  }

  lemma CountedTaken(runs: seq<nat>, place: seq<Place>, caller: Caller)
    requires Counted(runs, place)
    ensures Counted(runs, MarkTaken(place, caller))
  {
  }

  lemma CountsUnregister(k: Token, ticket: Ticket)
    requires Shaped(k) && PlacesOk(k) && Enabled(k, Unregister(ticket))
    ensures RunsOk(Apply(k, Unregister(ticket)))
  {
    hide Lists, Within, Counted, FirstEqual, MarkTaken;
    var found := FirstEqual(k.listed, k.callbacks, k.callbacks[ticket]);
    if found.Some? {
      ListedIsAt(k.listed, k.place, Listed, found.value);
      CountedMoves(k.runs, k.place, k.listed[found.value], Removed);
    }
  }

  lemma CountsRunNext(k: Token, caller: Caller)
    requires Shaped(k) && PlacesOk(k) && Enabled(k, RunNext(caller))
    ensures RunsOk(Apply(k, RunNext(caller)))
  {
    hide Lists, Within, Counted, FirstEqual, MarkTaken;
    var todo := Todo(k, caller);
    assert Lists(todo, k.place, TakenBy(caller));
    ListedIsAt(todo, k.place, TakenBy(caller), 0);
    CountedMoves(k.runs, k.place, todo[0], Ran);
  }

  lemma CountsEndRegister(k: Token)
    requires Shaped(k) && PlacesOk(k) && Enabled(k, EndRegister)
    ensures RunsOk(Apply(k, EndRegister))
  {
    hide Lists, Within, Counted, FirstEqual, MarkTaken;
    CountedGrows(k.runs, k.place, k.inside.value.sawEvent);
  }

  lemma CountsTakeAll(k: Token, caller: Caller)
    requires Shaped(k) && PlacesOk(k) && Enabled(k, TakeAll(caller))
    ensures RunsOk(Apply(k, TakeAll(caller)))
  {
    hide Lists, Within, Counted, FirstEqual, MarkTaken;
    CountedTaken(k.runs, k.place, caller);
  }

  lemma CountsStep(k: Token, step: Step)
    requires Shaped(k) && PlacesOk(k) && Enabled(k, step)
    ensures RunsOk(Apply(k, step))
  {
    hide Shaped, PlacesOk, RunsOk, Enabled, Apply;
    match step {
      case Unregister(ticket) => CountsUnregister(k, ticket);
      case RunNext(caller) => CountsRunNext(k, caller);
      case EndRegister => CountsEndRegister(k);
      case TakeAll(caller) => CountsTakeAll(k, caller);
      case _ => CountsQuiet(k, step);
    }
  }

  lemma CountsQuiet(k: Token, step: Step)
    requires Shaped(k) && PlacesOk(k) && Enabled(k, step)
    requires step.BeginRegister? || step.BeginCancel? || step.Signal? || step.FinishCancel?
    ensures RunsOk(Apply(k, step))
  {
    hide Counted, Lists;
  }

  lemma QuietStep(k: Token, step: Step)
    requires Shaped(k) && ListsOk(k) && Enabled(k, step)
    requires step.BeginRegister? || step.BeginCancel? || step.Signal? || step.FinishCancel?
    ensures Shaped(Apply(k, step)) && ListsOk(Apply(k, step))
  {
    hide Lists;
    var after := Apply(k, step);
    assert forall c: Caller :: Todo(after, c) == Todo(k, c);
  }

  lemma EndRegisterStep(k: Token)
    requires Shaped(k) && ListsOk(k) && Enabled(k, EndRegister)
    ensures Shaped(Apply(k, EndRegister)) && ListsOk(Apply(k, EndRegister))
  {
    hide Lists;
    var after, n := Apply(k, EndRegister), |k.callbacks|;
    ListsGrows(k.listed, k.place, Listed, after.place[n]);
    forall c: Caller ensures Todo(after, c) == Todo(k, c) && Lists(Todo(after, c), after.place, TakenBy(c)) {
      ListsGrows(Todo(k, c), k.place, TakenBy(c), after.place[n]);
    }
  }

  lemma ListsGrows(s: seq<Ticket>, places: seq<Place>, place: Place, added: Place)
    requires Lists(s, places, place)
    ensures if added == place then Lists(s + [|places|], places + [added], place) else Lists(s, places + [added], place)
  {
  }

  lemma ListsLoses(s: seq<Ticket>, places: seq<Place>, place: Place, i: nat, gone: Place)
    requires Lists(s, places, place) && i < |s| && gone != place
    ensures Lists(s[..i] + s[i + 1..], places[s[i] := gone], place)
  {
    var rest := s[..i] + s[i + 1..];
    forall n | 0 <= n < |places| && places[s[i] := gone][n] == place ensures n in rest {
      var j :| 0 <= j < |s| && s[j] == n;
      assert j != i;
      assert if j < i then rest[j] == n else rest[j - 1] == n;
    }
  }

  lemma ListsKeeps(s: seq<Ticket>, places: seq<Place>, place: Place, n: Ticket, gone: Place)
    requires Lists(s, places, place) && n < |places| && places[n] != place && gone != place
    ensures Lists(s, places[n := gone], place)
  {
  }

  lemma UnregisterStep(k: Token, ticket: Ticket)
    requires Shaped(k) && ListsOk(k) && Enabled(k, Unregister(ticket))
    ensures Shaped(Apply(k, Unregister(ticket))) && ListsOk(Apply(k, Unregister(ticket)))
  {
    hide FirstEqual, Lists;
    var after, found := Apply(k, Unregister(ticket)), FirstEqual(k.listed, k.callbacks, k.callbacks[ticket]);
    forall c: Caller ensures Todo(after, c) == Todo(k, c) {
    }
    if found.Some? {
      var i := found.value;
      ListedIsAt(k.listed, k.place, Listed, i);
      ListsLoses(k.listed, k.place, Listed, i, Removed);
      forall c: Caller ensures Lists(Todo(k, c), after.place, TakenBy(c)) {
        ListsKeeps(Todo(k, c), k.place, TakenBy(c), k.listed[i], Removed);
      }
    }
  }

  lemma ListedIsAt(s: seq<Ticket>, places: seq<Place>, place: Place, i: nat)
    requires Lists(s, places, place) && i < |s|
    ensures s[i] < |places| && places[s[i]] == place
  {
  }

  lemma ListsTaken(listed: seq<Ticket>, places: seq<Place>, caller: Caller)
    requires Lists(listed, places, Listed) && Lists([], places, TakenBy(caller))
    ensures Lists(listed, MarkTaken(places, caller), TakenBy(caller))
    ensures Lists([], MarkTaken(places, caller), Listed)
  {
    var after := MarkTaken(places, caller);
    forall n | 0 <= n < |after| && after[n] == TakenBy(caller) ensures n in listed {
      assert places[n] != TakenBy(caller);
    }
  }

  lemma ListsUntaken(s: seq<Ticket>, places: seq<Place>, caller: Caller, other: Caller)
    requires Lists(s, places, TakenBy(other)) && other != caller
    ensures Lists(s, MarkTaken(places, caller), TakenBy(other))
  {
  }

  lemma TakeAllStep(k: Token, caller: Caller)
    requires Shaped(k) && ListsOk(k) && Enabled(k, TakeAll(caller))
    ensures Shaped(Apply(k, TakeAll(caller))) && ListsOk(Apply(k, TakeAll(caller)))
  {
    hide Lists;
    var after := Apply(k, TakeAll(caller));
    assert Todo(k, caller) == [] && Lists(Todo(k, caller), k.place, TakenBy(caller));
    ListsTaken(k.listed, k.place, caller);
    forall c: Caller ensures Lists(Todo(after, c), after.place, TakenBy(c)) {
      if c != caller {
        assert Todo(after, c) == Todo(k, c);
        ListsUntaken(Todo(k, c), k.place, caller, c);
      }
    }
    assert forall c <- after.calls :: c != caller ==> Todo(after, c) == Todo(k, c);
  }

  lemma RunNextStep(k: Token, caller: Caller)
    requires Shaped(k) && ListsOk(k) && Enabled(k, RunNext(caller))
    ensures Shaped(Apply(k, RunNext(caller))) && ListsOk(Apply(k, RunNext(caller)))
  {
    hide Lists;
    var after, todo := Apply(k, RunNext(caller)), Todo(k, caller);
    assert Lists(todo, k.place, TakenBy(caller));
    ListedIsAt(todo, k.place, TakenBy(caller), 0);
    ListsLoses(todo, k.place, TakenBy(caller), 0, Ran);
    assert todo[..0] + todo[1..] == todo[1..] == Todo(after, caller);
    ListsKeeps(k.listed, k.place, Listed, todo[0], Ran);
    forall c: Caller ensures Lists(Todo(after, c), after.place, TakenBy(c)) {
      if c != caller {
        assert Todo(after, c) == Todo(k, c);
        ListsKeeps(Todo(k, c), k.place, TakenBy(c), todo[0], Ran);
      }
    }
    assert forall c <- after.calls :: c != caller ==> Todo(after, c) == Todo(k, c);
  }

  lemma EventStep(k: Token, step: Step)
    requires Shaped(k) && EventOk(k) && Enabled(k, step)
    ensures EventOk(Apply(k, step))
  {
    var after := Apply(k, step);
    if step.Signal? {
      assert after.calls[step.caller].Signalled?;
    } else if !step.TakeAll? {
      if c :| c in k.calls && k.calls[c].Signalled? {
        assert after.calls[c].Signalled?;
      }
    }
  }

  lemma RemovedStep(k: Token, step: Step)
    requires Shaped(k) && RemovedOk(k) && Enabled(k, step)
    ensures RemovedOk(Apply(k, step))
  {
    var after := Apply(k, step);
    forall n | 0 <= n < |after.place| && n < |after.callbacks| && after.place[n].Removed? ensures HandleUsed(after, n) {
      if n < |k.place| && k.place[n].Removed? {
        var m :| m in k.unregistered && m < |k.callbacks| && k.callbacks[m] == k.callbacks[n];
        assert after.callbacks[m] == after.callbacks[n];
      } else {
        assert step.Unregister?;
      }
    }
  }

  lemma InOrderStep(k: Token, step: Step)
    requires Shaped(k) && InOrder(k) && Enabled(k, step)
    ensures InOrder(Apply(k, step))
  {
  }

  lemma StepKeepsInvariant(k: Token, step: Step)
    requires Inv(k) && Enabled(k, step)
    ensures Inv(Apply(k, step))
  {
    hide Apply, Enabled, PlacesOk, EventOk, RemovedOk, Shaped, InOrder;
    PlacesStep(k, step);
    EventStep(k, step);
    RemovedStep(k, step);
    InOrderStep(k, step);
  }

  // ---------- whole runs ----------

  predicate Feasible(k: Token, steps: seq<Step>)
    requires Shaped(k)
    decreases |steps|
  {
    steps == []
    || (Enabled(k, steps[0]) && Shaped(Apply(k, steps[0])) && Feasible(Apply(k, steps[0]), steps[1..]))
  }

  function After(k: Token, steps: seq<Step>): Token
    requires Shaped(k) && Feasible(k, steps)
    decreases |steps|
  {
    if steps == [] then k else After(Apply(k, steps[0]), steps[1..])
  }

  lemma InitialIsValid()
    ensures Inv(INITIAL)
  {
  }

  lemma {:induction false} RunsKeepInvariant(k: Token, steps: seq<Step>)
    requires Inv(k) && Feasible(k, steps)
    ensures Inv(After(k, steps))
    decreases |steps|
  {
    hide Apply, Enabled, PlacesOk, EventOk, RemovedOk, InOrder;
    if steps != [] {
      StepKeepsInvariant(k, steps[0]);
      RunsKeepInvariant(Apply(k, steps[0]), steps[1..]);
    }
  }

  predicate AllReturned(k: Token) {
    k.calls != map[] && forall c <- k.calls :: k.calls[c].Returned?
  }

  /**
   No registration is run twice, under any interleaving; and when at least one cancel call was made
   and all have returned, every registration has run exactly once, or was removed through a handle
   with an equal callback and has not run.
   */
  lemma EveryCallbackRunsOnce(steps: seq<Step>, n: Ticket)
    requires Feasible(INITIAL, steps) && n < |After(INITIAL, steps).callbacks|
    ensures var k := After(INITIAL, steps);
            && n < |k.runs|
            && k.runs[n] <= 1
            && (AllReturned(k) ==> (k.runs[n] == 0 ==> HandleUsed(k, n)))
  {
    InitialIsValid();
    RunsKeepInvariant(INITIAL, steps);
    var k := After(INITIAL, steps);
    if AllReturned(k) {
      ReturnedSettlesAll(k, n);
    }
    hide After, Feasible, EventOk, Lists;
  }

  lemma ReturnedSettlesAll(k: Token, n: Ticket)
    requires Inv(k) && AllReturned(k) && n < |k.place|
    ensures k.place[n].Ran? || k.place[n].Removed?
  {
    var c :| c in k.calls;
    assert k.event;
    if k.place[n].TakenBy? {
      TakenIsRunning(k, n);
    }
  }

  lemma TakenIsRunning(k: Token, n: Ticket)
    requires Inv(k) && n < |k.place| && k.place[n].TakenBy?
    ensures k.place[n].caller in k.calls && k.calls[k.place[n].caller].Running?
  {
    assert Lists(Todo(k, k.place[n].caller), k.place, TakenBy(k.place[n].caller));
  }

  /** This step calls a handle, and the first listed registration with its callback is `n`. */
  predicate Takes(k: Token, step: Step, n: Ticket)
    requires Shaped(k)
  {
    && step.Unregister?
    && step.ticket < |k.callbacks|
    && n < |k.callbacks|
    && k.place[n].Listed?
    && k.callbacks[n] == k.callbacks[step.ticket]
    && forall m :: 0 <= m < n && k.place[m].Listed? ==> k.callbacks[m] != k.callbacks[n]
  }

  /** On the way, some handle call takes `n` out of the list. */
  predicate IsTaken(k: Token, steps: seq<Step>, n: Ticket)
    requires Shaped(k) && Feasible(k, steps)
    decreases |steps|
  {
    steps != [] && (Takes(k, steps[0], n) || IsTaken(Apply(k, steps[0]), steps[1..], n))
  }

  /**
   Which registrations are lost. When at least one cancel call was made and all have returned, a
   registration has not run exactly when some handle call took it: one made while it was listed, with
   an equal callback, and before which no other such registration was listed. If its own handle was
   never called, that was the handle of another.
   */
  lemma NotRunExactly(steps: seq<Step>, n: Ticket)
    requires Feasible(INITIAL, steps) && n < |After(INITIAL, steps).callbacks|
    requires AllReturned(After(INITIAL, steps))
    ensures var k := After(INITIAL, steps);
            && n < |k.runs|
            && (k.runs[n] == 0 <==> IsTaken(INITIAL, steps, n))
            && (k.runs[n] == 0 && n !in k.unregistered ==>
                  exists m <- k.unregistered :: m != n && m < |k.callbacks| && k.callbacks[m] == k.callbacks[n])
  {
    EveryCallbackRunsOnce(steps, n);
    InitialIsValid();
    RunsKeepInvariant(INITIAL, steps);
    ReturnedSettlesAll(After(INITIAL, steps), n);
    RemovedWhenTaken(INITIAL, steps, n);
    hide After, Feasible, EventOk, Lists, IsTaken, AllReturned;
  }

  lemma {:induction false} RemovedWhenTaken(k: Token, steps: seq<Step>, n: Ticket)
    requires Inv(k) && Feasible(k, steps) && n < |After(k, steps).place|
    ensures After(k, steps).place[n].Removed? <==> (n < |k.place| && k.place[n].Removed?) || IsTaken(k, steps, n)
    decreases |steps|
  {
    hide Apply, Enabled, Inv, Takes;
    if steps != [] {
      StepKeepsInvariant(k, steps[0]);
      StepRemoves(k, steps[0], n);
      InvIsShaped(k);
      RemovedWhenTaken(Apply(k, steps[0]), steps[1..], n);
    }
  }

  lemma InvIsShaped(k: Token)
    requires Inv(k)
    ensures Shaped(k)
  {
  }

  lemma StepRemoves(k: Token, step: Step, n: Ticket)
    requires Inv(k) && Enabled(k, step)
    ensures var after := Apply(k, step);
            n < |after.place| && after.place[n].Removed?
            <==> (n < |k.place| && k.place[n].Removed?) || Takes(k, step, n)
  {
    if step.Unregister? {
      UnregisterTakes(k, step.ticket, n);
    } else {
      if step.RunNext? {
        NextIsTaken(k, step.caller);
      }
      InvIsShaped(k);
      hide Inv;
      NothingElseRemoves(k, step, n);
    }
  }

  lemma NothingElseRemoves(k: Token, step: Step, n: Ticket)
    requires Shaped(k) && Enabled(k, step) && !step.Unregister?
    requires step.RunNext? ==>
               var m := k.calls[step.caller].todo[0]; m < |k.place| && k.place[m] == TakenBy(step.caller)
    ensures var after := Apply(k, step);
            n < |after.place| && after.place[n].Removed? <==> n < |k.place| && k.place[n].Removed?
  {
    hide FirstEqual;
  }

  /** What a cancel call runs next was taken by it. */
  lemma NextIsTaken(k: Token, caller: Caller)
    requires Inv(k) && Enabled(k, RunNext(caller))
    ensures var n := k.calls[caller].todo[0]; n < |k.place| && k.place[n] == TakenBy(caller)
  {
    assert Lists(Todo(k, caller), k.place, TakenBy(caller));
    hide EventOk, RemovedOk, InOrder, RunsOk;
  }

  lemma UnregisterTakes(k: Token, ticket: Ticket, n: Ticket)
    requires Inv(k) && Enabled(k, Unregister(ticket))
    ensures var after := Apply(k, Unregister(ticket));
            n < |after.place| && after.place[n].Removed?
            <==> (n < |k.place| && k.place[n].Removed?) || Takes(k, Unregister(ticket), n)
  {
    hide EventOk, RemovedOk, RunsOk;
    var found := FirstEqual(k.listed, k.callbacks, k.callbacks[ticket]);
    if found.Some? {
      ListedIsAt(k.listed, k.place, Listed, found.value);
      FirstIsTaken(k, ticket, found.value);
    } else if n < |k.place| && k.place[n].Listed? {
      assert n in k.listed;
    }
  }

  /** The first listed registration with this callback is the one that is taken, and no other is. */
  lemma FirstIsTaken(k: Token, ticket: Ticket, i: nat)
    requires Shaped(k) && ListsOk(k) && InOrder(k) && ticket < |k.callbacks| && i < |k.listed|
    requires k.callbacks[k.listed[i]] == k.callbacks[ticket]
    requires forall j :: 0 <= j < i ==> k.callbacks[k.listed[j]] != k.callbacks[ticket]
    ensures forall n :: Takes(k, Unregister(ticket), n) <==> n == k.listed[i]
  {
    var first := k.listed[i];
    forall m | 0 <= m < first && k.place[m].Listed? ensures k.callbacks[m] != k.callbacks[ticket] {
      var j :| 0 <= j < |k.listed| && k.listed[j] == m;
      assert j < i;
    }
    ListedIsAt(k.listed, k.place, Listed, i);
    forall n | Takes(k, Unregister(ticket), n) ensures n == first {
      var j :| 0 <= j < |k.listed| && k.listed[j] == n;
      assert first <= n ==> j >= i;
      assert j > i ==> first < n;
    }
  }

  /** When no two registrations carry equal callbacks, only a registration's own handle can remove it. */
  lemma DistinctCallbacksAreNotLost(steps: seq<Step>, n: Ticket)
    requires Feasible(INITIAL, steps) && n < |After(INITIAL, steps).callbacks|
    requires AllReturned(After(INITIAL, steps)) && n !in After(INITIAL, steps).unregistered
    requires var callbacks := After(INITIAL, steps).callbacks;
             forall i, j :: 0 <= i < j < |callbacks| ==> callbacks[i] != callbacks[j]
    ensures n < |After(INITIAL, steps).runs| && After(INITIAL, steps).runs[n] == 1
  {
    EveryCallbackRunsOnce(steps, n);
  }

  /** Some registration other than the handle's own is about to go. */
  ghost predicate RemovesAnother(k: Token, ticket: Ticket)
    requires Shaped(k) && Enabled(k, Unregister(ticket))
  {
    var after := Apply(k, Unregister(ticket));
    exists n :: 0 <= n < |k.place| && n != ticket && k.place[n].Listed? && after.place[n].Removed?
  }

  /** Another registration with an equal callback is listed, and comes first or alone. */
  ghost predicate AnotherComesFirst(k: Token, ticket: Ticket)
    requires |k.callbacks| == |k.place| && ticket < |k.place|
  {
    exists n ::
      && 0 <= n < |k.place|
      && n != ticket
      && k.place[n].Listed?
      && k.callbacks[n] == k.callbacks[ticket]
      && (n < ticket || !k.place[ticket].Listed?)
  }

  /**
   In every reachable state, a handle removes a registration other than its own exactly when another
   one with an equal callback is still listed, and either came earlier or the handle's own is listed
   no more.
   */
  lemma HandleRemovesAnother(steps: seq<Step>, ticket: Ticket)
    requires Feasible(INITIAL, steps) && Enabled(After(INITIAL, steps), Unregister(ticket))
    ensures var k := After(INITIAL, steps);
            Shaped(k) && (RemovesAnother(k, ticket) <==> AnotherComesFirst(k, ticket))
  {
    InitialIsValid();
    RunsKeepInvariant(INITIAL, steps);
    hide Inv, After, Feasible, RemovesAnother, AnotherComesFirst;
    RemovalIsExact(After(INITIAL, steps), ticket);
  }

  lemma RemovalIsExact(k: Token, ticket: Ticket)
    requires Inv(k) && Enabled(k, Unregister(ticket))
    ensures Shaped(k) && (RemovesAnother(k, ticket) <==> AnotherComesFirst(k, ticket))
  {
    hide RemovesAnother, AnotherComesFirst, EventOk, RemovedOk, RunsOk, Lists, InOrder, Apply;
    if RemovesAnother(k, ticket) {
      AnotherCameFirst(k, ticket);
    }
    if AnotherComesFirst(k, ticket) {
      AnotherIsRemoved(k, ticket);
    }
  }

  lemma AnotherCameFirst(k: Token, ticket: Ticket)
    requires Shaped(k) && ListsOk(k) && InOrder(k) && Enabled(k, Unregister(ticket)) && RemovesAnother(k, ticket)
    ensures AnotherComesFirst(k, ticket)
  {
    var found := FirstEqual(k.listed, k.callbacks, k.callbacks[ticket]);
    var n :| 0 <= n < |k.place| && n != ticket && k.place[n].Listed? && Apply(k, Unregister(ticket)).place[n].Removed?;
    assert found.Some? && n == k.listed[found.value];
    hide Apply, RemovesAnother, FirstEqual;
    if k.place[ticket].Listed? {
      assert Lists(k.listed, k.place, Listed);
      var j :| 0 <= j < |k.listed| && k.listed[j] == ticket;
      assert found.value < j;
    }
  }

  lemma AnotherIsRemoved(k: Token, ticket: Ticket)
    requires Shaped(k) && ListsOk(k) && InOrder(k) && Enabled(k, Unregister(ticket)) && AnotherComesFirst(k, ticket)
    ensures RemovesAnother(k, ticket)
  {
    var found := FirstEqual(k.listed, k.callbacks, k.callbacks[ticket]);
    var n :| 0 <= n < |k.place| && n != ticket && k.place[n].Listed? && k.callbacks[n] == k.callbacks[ticket]
             && (n < ticket || !k.place[ticket].Listed?);
    var i := PositionOf(k.listed, k.place, Listed, n);
    assert found.Some? && found.value <= i;
    var m := k.listed[found.value];
    ListedIsAt(k.listed, k.place, Listed, found.value);
    hide ListsOk, FirstEqual;
    assert m != ticket && Apply(k, Unregister(ticket)).place[m].Removed?;
  }

  lemma PositionOf(s: seq<Ticket>, places: seq<Place>, place: Place, n: Ticket) returns (i: nat)
    requires Lists(s, places, place) && n < |places| && places[n] == place
    ensures i < |s| && s[i] == n
  {
    i :| i < |s| && s[i] == n;
  }

  /** One callback registered twice. */
  const TWICE := Token(false, [0, 1], None, map[], ["stop", "stop"], [0, 0], [Listed, Listed], {})

  lemma TwiceIsReachable()
    ensures Inv(TWICE)
    ensures var once := Apply(Apply(INITIAL, BeginRegister("stop")), EndRegister);
            Shaped(once) && Apply(Apply(once, BeginRegister("stop")), EndRegister) == TWICE
  {
    TwiceIsValid();
    var once := Token(false, [0], None, map[], ["stop"], [0], [Listed], {});
    hide Inv, Apply;
    Registers(INITIAL, "stop");
    assert [] + [0] == [0] && [] + ["stop"] == ["stop"] && [] + [Listed] == [Listed];
    Registers(once, "stop");
    assert [0] + [1] == [0, 1] && ["stop"] + ["stop"] == ["stop", "stop"];
  }

  lemma TwiceIsValid()
    ensures Inv(TWICE)
  {
    assert Lists([0, 1], TWICE.place, Listed);
    assert forall c: Caller :: Todo(TWICE, c) == [] && Lists([], TWICE.place, TakenBy(c));
    hide Lists;
  }

  /** A registration that nobody interrupts. */
  lemma Registers(k: Token, callback: Callback)
    requires Shaped(k) && k.inside.None? && !k.event
    ensures var begun := Apply(k, BeginRegister(callback));
            && Shaped(begun)
            && Enabled(begun, EndRegister)
            && Apply(begun, EndRegister) == k.(listed := k.listed + [|k.callbacks|],
                                               callbacks := k.callbacks + [callback],
                                               runs := k.runs + [0], place := k.place + [Listed])
  {
    assert forall c <- k.calls :: Todo(Apply(k, BeginRegister(callback)), c) == Todo(k, c);
  }

  /** Calling the first handle twice then removes the other registration, whose handle nobody called. */
  lemma HandleCalledTwiceLosesAnother()
    ensures var once := Apply(TWICE, Unregister(0));
            && Shaped(once)
            && Apply(once, Unregister(0)).place[1].Removed?
            && 1 !in Apply(once, Unregister(0)).unregistered
  {
    var once := Apply(TWICE, Unregister(0));
    assert once == TWICE.(listed := [1], place := [Removed, Listed], unregistered := {0});
  }
}
