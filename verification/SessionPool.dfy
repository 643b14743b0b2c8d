/**
 The connector sessions of a refresh, shared by the workers of each layer through one idle stack
 per connection. Workers interleave arbitrarily; any of them may fail at any point.
 */
module SessionPool {
  import opened Outcomes

  type Connection = string
  type TaskId = nat
  type Session = nat

  /** A task of the current layer; a session is held while it is opened or used. */
  datatype Task =
    | Waiting
    | Started
    | Creating
    | Opening(session: Session)
    | Working(session: Session)
    | Settled(failed: bool)

  /** `Ended` says whether a `close()` raised and cut the draining short. */
  datatype Phase = Layers | Draining | Ended(raised: bool)

  datatype Pool = Pool(
    parallel: nat,
    connection: map<TaskId, Connection>,
    tasks: map<TaskId, Task>,
    idle: map<Connection, seq<Session>>,
    home: map<Session, Connection>,
    created: nat,
    closed: seq<Session>,
    failing: bool,
    phase: Phase)

  datatype Step =
    | StartLayer(connection: map<TaskId, Connection>)
    | Start(t: TaskId)
    | RaiseEarly(t: TaskId)
    | Take(t: TaskId)
    | Miss(t: TaskId)
    | CreateFails(t: TaskId)
    | Create(t: TaskId)
    | OpenFails(t: TaskId)
    | Open(t: TaskId)
    | Return(t: TaskId, failed: bool)
    | Fail
    | Cancel(t: TaskId)
    | StartDrain
    | Close(c: Connection)
    | CloseRaises(c: Connection)
    | EndDrain

  // ---------- steps ----------

  predicate IsHolding(task: Task) {
    task.Opening? || task.Working?
  }

  predicate IsBusy(task: Task) {
    task.Creating? || IsHolding(task)
  }

  predicate IsRunning(task: Task) {
    task.Started? || IsBusy(task)
  }

  function Running(p: Pool): set<TaskId> {
    set t <- p.tasks | IsRunning(p.tasks[t])
  }

  /** `min(parallel_sources, len(prepared))` threads. */
  function Workers(p: Pool): int {
    Min(p.parallel, |p.tasks|)
  }

  predicate AllSettled(p: Pool) {
    forall t <- p.tasks :: p.tasks[t].Settled?
  }

  predicate Enabled(p: Pool, step: Step) {
    match step
    case StartLayer(connection) =>
      p.phase.Layers? && !p.failing && AllSettled(p) && (forall t <- p.tasks :: !p.tasks[t].failed)
      && connection.Values <= p.idle.Keys
    case Start(t) => t in p.tasks && p.tasks[t].Waiting? && |Running(p)| < Workers(p)
    case RaiseEarly(t) => t in p.tasks && p.tasks[t].Started?
    case Take(t) => t in p.tasks && p.tasks[t].Started? && Queue(p, t) != []
    case Miss(t) => t in p.tasks && p.tasks[t].Started? && Queue(p, t) == []
    case CreateFails(t) => t in p.tasks && p.tasks[t].Creating?
    case Create(t) => t in p.tasks && p.tasks[t].Creating?
    case OpenFails(t) => t in p.tasks && p.tasks[t].Opening?
    case Open(t) => t in p.tasks && p.tasks[t].Opening?
    case Return(t, _) => t in p.tasks && p.tasks[t].Working?
    case Fail => p.phase.Layers?
    case Cancel(t) => p.failing && t in p.tasks && p.tasks[t].Waiting?
    case StartDrain => p.phase.Layers? && AllSettled(p)
    case Close(c) => p.phase.Draining? && c in p.idle && p.idle[c] != []
    case CloseRaises(c) => p.phase.Draining? && c in p.idle && p.idle[c] != []
    case EndDrain => p.phase.Draining? && forall c <- p.idle :: p.idle[c] == []
  }

  /** The idle stack of the task's connection. */
  function Queue(p: Pool, t: TaskId): seq<Session> {
    if t in p.connection && p.connection[t] in p.idle then p.idle[p.connection[t]] else []
  }

  function SetTask(p: Pool, t: TaskId, task: Task): Pool {
    p.(tasks := p.tasks[t := task])
  }

  function Pop(p: Pool, c: Connection): Pool
    requires c in p.idle && p.idle[c] != []
  {
    p.(idle := p.idle[c := p.idle[c][..|p.idle[c]| - 1]])
  }

  function Top(p: Pool, c: Connection): Session
    requires c in p.idle && p.idle[c] != []
  {
    p.idle[c][|p.idle[c]| - 1]
  }

  function Apply(p: Pool, step: Step): Pool
    requires Enabled(p, step) && p.tasks.Keys <= p.connection.Keys && p.connection.Values <= p.idle.Keys
  {
    match step
    case StartLayer(connection) => p.(connection := connection, tasks := map t <- connection :: Waiting)
    case Start(t) => SetTask(p, t, Started)
    case RaiseEarly(t) => SetTask(p, t, Settled(true))
    case Take(t) => SetTask(Pop(p, p.connection[t]), t, Working(Top(p, p.connection[t])))
    case Miss(t) => SetTask(p, t, Creating)
    case CreateFails(t) => SetTask(p, t, Settled(true))
    case Create(t) =>
      SetTask(p, t, Opening(p.created)).(created := p.created + 1, home := p.home[p.created := p.connection[t]])
    case OpenFails(t) => SetTask(p, t, Settled(true)).(closed := p.closed + [p.tasks[t].session])
    case Open(t) => SetTask(p, t, Working(p.tasks[t].session))
    case Return(t, failed) =>
      var c := p.connection[t];
      assert c in p.connection.Values;
      SetTask(p, t, Settled(failed)).(idle := p.idle[c := p.idle[c] + [p.tasks[t].session]])
    case Fail => p.(failing := true)
    case Cancel(t) => SetTask(p, t, Settled(true))
    case StartDrain => p.(phase := Draining)
    case Close(c) => Pop(p, c).(closed := p.closed + [Top(p, c)])
    case CloseRaises(c) => Pop(p, c).(closed := p.closed + [Top(p, c)], phase := Ended(true))
    case EndDrain => p.(phase := Ended(false))
  }

  // ---------- invariants ----------

  predicate WellFormed(p: Pool) {
    p.tasks.Keys <= p.connection.Keys && p.connection.Values <= p.idle.Keys
  }

  /** A session is held by one task of its own connection, and is then neither idle nor closed. */
  ghost predicate HeldAlone(p: Pool) {
    && (forall t <- p.tasks :: IsHolding(p.tasks[t]) ==>
          && p.tasks[t].session < p.created
          && p.tasks[t].session !in p.closed
          && p.tasks[t].session in p.home
          && t in p.connection
          && p.home[p.tasks[t].session] == p.connection[t])
    && (forall t <- p.tasks, u <- p.tasks ::
          t != u && IsHolding(p.tasks[t]) && IsHolding(p.tasks[u]) ==> p.tasks[t].session != p.tasks[u].session)
    && (forall t <- p.tasks, c <- p.idle :: IsHolding(p.tasks[t]) ==> p.tasks[t].session !in p.idle[c])
  }

  /** An idle session waits once, in the stack of its own connection, and is not closed. */
  ghost predicate IdleOnce(p: Pool) {
    && (forall c <- p.idle, s {:trigger s in p.idle[c]} :: s in p.idle[c] ==>
          s < p.created && s !in p.closed && s in p.home && p.home[s] == c)
    && (forall c <- p.idle, i: nat, j: nat :: i < j < |p.idle[c]| ==> p.idle[c][i] != p.idle[c][j])
  }

  ghost predicate ClosedOnce(p: Pool) {
    && (forall s <- p.closed :: s < p.created)
    && (forall i: nat, j: nat :: i < j < |p.closed| ==> p.closed[i] != p.closed[j])
  }

  predicate IsHeld(p: Pool, s: Session) {
    exists t <- p.tasks :: IsHolding(p.tasks[t]) && p.tasks[t].session == s
  }

  predicate IsIdle(p: Pool, s: Session) {
    exists c <- p.idle :: s in p.idle[c]
  }

  ghost predicate Accounted(p: Pool) {
    forall s: Session :: s < p.created ==> IsHeld(p, s) || IsIdle(p, s) || s in p.closed
  }

  /** The tasks that hold or are about to create a session of `c`. */
  function Busy(p: Pool, c: Connection): set<TaskId> {
    set t <- p.tasks | IsBusy(p.tasks[t]) && t in p.connection && p.connection[t] == c
  }

  /** Live sessions of a connection, and those about to be created. */
  function Live(p: Pool, c: Connection): nat
    requires c in p.idle
  {
    |p.idle[c]| + |Busy(p, c)|
  }

  ghost predicate WithinCapacity(p: Pool) {
    && |Running(p)| <= p.parallel
    && (forall c <- p.idle :: Live(p, c) <= p.parallel)
  }

  /** Draining starts only after every task has settled, and ends early only when a close raises. */
  predicate PhaseOk(p: Pool) {
    && (!p.phase.Layers? ==> AllSettled(p))
    && (p.phase == Ended(false) ==> forall c <- p.idle :: p.idle[c] == [])
  }

  ghost predicate Inv(p: Pool) {
    WellFormed(p) && HeldAlone(p) && IdleOnce(p) && ClosedOnce(p) && Accounted(p) && WithinCapacity(p) && PhaseOk(p)
  }

  // ---------- capacity ----------

  lemma SubsetSize<T>(a: set<T>, b: set<T>)
    requires a <= b
    ensures |a| <= |b|
  {
    if a != b {
      assert b == a + (b - a);
    }
  }

  /** A step of one task changes the two counts by that task alone. */
  lemma CountsFrame(p: Pool, after: Pool, t: TaskId, c: Connection)
    requires t in p.tasks && after.tasks.Keys == p.tasks.Keys && after.connection == p.connection
    requires forall u <- p.tasks :: u != t ==> after.tasks[u] == p.tasks[u]
    ensures Running(after) - {t} == Running(p) - {t}
    ensures Busy(after, c) - {t} == Busy(p, c) - {t}
    ensures |Running(after)|
         == |Running(p)| - (if t in Running(p) then 1 else 0) + (if t in Running(after) then 1 else 0)
    ensures |Busy(after, c)|
         == |Busy(p, c)| - (if t in Busy(p, c) then 1 else 0) + (if t in Busy(after, c) then 1 else 0)
  {
    RunningFrame(p, after, t);
    BusyFrame(p, after, t, c);
    hide Running, Busy;
    SizeWithout(Running(p), t);
    SizeWithout(Running(after), t);
    SizeWithout(Busy(p, c), t);
    SizeWithout(Busy(after, c), t);
  }

  lemma RunningFrame(p: Pool, after: Pool, t: TaskId)
    requires t in p.tasks && after.tasks.Keys == p.tasks.Keys
    requires forall u <- p.tasks :: u != t ==> after.tasks[u] == p.tasks[u]
    ensures Running(after) - {t} == Running(p) - {t}
  {
    forall u ensures u in Running(after) - {t} <==> u in Running(p) - {t} {
      assert u in after.tasks <==> u in p.tasks;
    }
  }

  lemma BusyFrame(p: Pool, after: Pool, t: TaskId, c: Connection)
    requires t in p.tasks && after.tasks.Keys == p.tasks.Keys && after.connection == p.connection
    requires forall u <- p.tasks :: u != t ==> after.tasks[u] == p.tasks[u]
    ensures Busy(after, c) - {t} == Busy(p, c) - {t}
  {
    forall u ensures u in Busy(after, c) - {t} <==> u in Busy(p, c) - {t} {
      assert u in after.tasks <==> u in p.tasks;
    }
  }

  lemma SizeWithout<T>(a: set<T>, t: T)
    ensures |a| == |a - {t}| + (if t in a then 1 else 0)
  {
    if t in a {
      assert a == (a - {t}) + {t};
    } else {
      assert a == a - {t};
    }
  }

  /** A task that finds the stack empty may create a session: the busy tasks are all running. */
  lemma MissFits(p: Pool, t: TaskId, c: Connection)
    requires WellFormed(p) && WithinCapacity(p) && t in p.tasks && p.tasks[t].Started? && c == p.connection[t]
    ensures |Busy(p, c)| + 1 <= p.parallel
  {
    assert t in Running(p) && t !in Busy(p, c);
    SubsetSize(Busy(p, c) + {t}, Running(p));
  }

  lemma CapacityStep(p: Pool, step: Step)
    requires WellFormed(p) && WithinCapacity(p) && Enabled(p, step)
    ensures WithinCapacity(Apply(p, step))
  {
    var after := Apply(p, step);
    match step {
      case StartLayer(connection) =>
        assert Running(after) == {};
        forall c <- p.idle ensures Busy(after, c) == {} && Live(after, c) <= Live(p, c) {
        }
      case Fail =>
        assert Running(after) == Running(p) && forall c :: Busy(after, c) == Busy(p, c);
      case StartDrain =>
        assert Running(after) == Running(p) && forall c :: Busy(after, c) == Busy(p, c);
      case EndDrain =>
        assert Running(after) == Running(p) && forall c :: Busy(after, c) == Busy(p, c);
      case Close(_) =>
        assert Running(after) == Running(p) && forall c :: Busy(after, c) == Busy(p, c);
      case CloseRaises(_) =>
        assert Running(after) == Running(p) && forall c :: Busy(after, c) == Busy(p, c);
      case _ =>
        TaskCapacity(p, step);
    }
  }

  predicate IsTaskStep(step: Step) {
    step.Start? || step.RaiseEarly? || step.Take? || step.Miss? || step.CreateFails? || step.Create? || step.OpenFails?
    || step.Open? || step.Return? || step.Cancel?
  }

  lemma Membership(p: Pool, t: TaskId, c: Connection)
    requires t in p.tasks && t in p.connection
    ensures t in Running(p) <==> IsRunning(p.tasks[t])
    ensures t in Busy(p, c) <==> IsBusy(p.tasks[t]) && p.connection[t] == c
  {
  }

  lemma TaskCapacity(p: Pool, step: Step)
    requires WellFormed(p) && WithinCapacity(p) && Enabled(p, step) && IsTaskStep(step)
    ensures WithinCapacity(Apply(p, step))
  {
    forall c <- p.idle ensures Live(Apply(p, step), c) <= p.parallel {
      TaskCapacityAt(p, step, c);
    }
    TaskRunning(p, step);
    hide Running, Busy;
  }

  function One(b: bool): int {
    if b then 1 else 0
  }

  /** What one task's step changes: its own state, and the stack of its connection. */
  lemma TaskStepShape(p: Pool, step: Step)
    requires WellFormed(p) && Enabled(p, step) && IsTaskStep(step)
    ensures var after, t := Apply(p, step), step.t;
            && t in p.tasks
            && t in p.connection
            && after.connection == p.connection
            && after.parallel == p.parallel
            && after.tasks.Keys == p.tasks.Keys
            && (forall u <- p.tasks :: u != t ==> after.tasks[u] == p.tasks[u])
            && (forall c <- p.idle :: c in after.idle && (c != p.connection[t] ==> after.idle[c] == p.idle[c]))
            && (IsRunning(after.tasks[t]) ==> IsRunning(p.tasks[t]) || |Running(p)| < p.parallel)
  {
    assert p.connection[step.t] in p.connection.Values;
    hide Running;
  }

  /** A session that leaves the stack is held, and one that is returned was held: only a miss adds one. */
  lemma TaskStepBalance(p: Pool, step: Step)
    requires WellFormed(p) && Enabled(p, step) && IsTaskStep(step)
    ensures var after, t, c := Apply(p, step), step.t, p.connection[step.t];
            && c in p.idle
            && c in after.idle
            && t in after.tasks
            && |after.idle[c]| + One(IsBusy(after.tasks[t]))
               <= |p.idle[c]| + One(IsBusy(p.tasks[t])) + One(step.Miss?)
            && (step.Miss? ==> p.idle[c] == [] && p.tasks[t].Started?)
            && (step.Miss? ==> after.idle[c] == [])
  {
    assert p.connection[step.t] in p.connection.Values;
    hide Running;
  }

  lemma TaskRunning(p: Pool, step: Step)
    requires WellFormed(p) && WithinCapacity(p) && Enabled(p, step) && IsTaskStep(step)
    ensures |Running(Apply(p, step))| <= p.parallel
  {
    TaskStepShape(p, step);
    hide Running, Busy, Apply, Enabled;
    var after, c := Apply(p, step), p.connection[step.t];
    Membership(p, step.t, c);
    Membership(after, step.t, c);
    CountsFrame(p, after, step.t, c);
  }

  lemma TaskCapacityAt(p: Pool, step: Step, c: Connection)
    requires WellFormed(p) && WithinCapacity(p) && Enabled(p, step) && IsTaskStep(step) && c in p.idle
    ensures c in Apply(p, step).idle && Live(Apply(p, step), c) <= p.parallel
  {
    TaskStepShape(p, step);
    TaskStepBalance(p, step);
    hide Running, Busy, Apply, Enabled;
    var after, t := Apply(p, step), step.t;
    if step.Miss? {
      MissFits(p, t, p.connection[t]);
    }
    Membership(p, t, c);
    Membership(after, t, c);
    CountsFrame(p, after, t, c);
  }

  // ---------- sessions ----------

  ghost predicate SessionsOk(p: Pool) {
    HeldAlone(p) && IdleOnce(p) && ClosedOnce(p) && Accounted(p)
  }

  /** No task that holds a session changes, and nothing moves. */
  ghost predicate Quiet(p: Pool, after: Pool) {
    && after.idle == p.idle && after.home == p.home && after.created == p.created && after.closed == p.closed
    && (forall t <- after.tasks :: IsHolding(after.tasks[t]) ==>
          t in p.tasks && p.tasks[t] == after.tasks[t] && t in after.connection && t in p.connection
          && after.connection[t] == p.connection[t])
    && (forall t <- p.tasks :: IsHolding(p.tasks[t]) ==> t in after.tasks && after.tasks[t] == p.tasks[t])
  }

  lemma QuietStep(p: Pool, after: Pool)
    requires SessionsOk(p) && Quiet(p, after)
    ensures SessionsOk(after)
  {
    forall s: Session | s < after.created ensures IsHeld(after, s) || IsIdle(after, s) || s in after.closed {
      if IsHeld(p, s) {
        var t :| t in p.tasks && IsHolding(p.tasks[t]) && p.tasks[t].session == s;
        assert after.tasks[t] == p.tasks[t];
      } else if IsIdle(p, s) {
        var c :| c in p.idle && s in p.idle[c];
        assert s in after.idle[c];
      }
    }
  }

  lemma CreateStep(p: Pool, t: TaskId)
    requires WellFormed(p) && SessionsOk(p) && Enabled(p, Create(t))
    ensures SessionsOk(Apply(p, Create(t)))
  {
    var after := Apply(p, Create(t));
    CreatedAlone(p, t);
    hide HeldAlone;
    forall s: Session | s < after.created ensures IsHeld(after, s) || IsIdle(after, s) || s in after.closed {
      if s == p.created {
        assert after.tasks[t].session == s;
      } else {
        KeepsPlace(p, after, t, s);
      }
    }
  }

  lemma CreatedAlone(p: Pool, t: TaskId)
    requires WellFormed(p) && HeldAlone(p) && IdleOnce(p) && ClosedOnce(p) && Enabled(p, Create(t))
    ensures HeldAlone(Apply(p, Create(t)))
  {
  }

  /** Whoever is not the stepping task keeps its session. */
  lemma KeepsPlace(p: Pool, after: Pool, t: TaskId, s: Session)
    requires Accounted(p) && s < p.created
    requires t in p.tasks && (IsHolding(p.tasks[t]) ==> p.tasks[t].session != s)
    requires forall u <- p.tasks :: u != t ==> u in after.tasks && after.tasks[u] == p.tasks[u]
    requires forall c <- p.idle :: c in after.idle && (s in p.idle[c] ==> s in after.idle[c])
    requires s in p.closed ==> s in after.closed
    ensures IsHeld(after, s) || IsIdle(after, s) || s in after.closed
  {
    if IsHeld(p, s) {
      var u :| u in p.tasks && IsHolding(p.tasks[u]) && p.tasks[u].session == s;
      assert after.tasks[u] == p.tasks[u];
    } else if IsIdle(p, s) {
      var c :| c in p.idle && s in p.idle[c];
      assert s in after.idle[c];
    }
  }

  lemma OpenStep(p: Pool, t: TaskId)
    requires WellFormed(p) && SessionsOk(p) && Enabled(p, Open(t))
    ensures SessionsOk(Apply(p, Open(t)))
  {
    var after := Apply(p, Open(t));
    forall s: Session | s < after.created ensures IsHeld(after, s) || IsIdle(after, s) || s in after.closed {
      if s == p.tasks[t].session {
        assert after.tasks[t].session == s;
      } else {
        KeepsPlace(p, after, t, s);
      }
    }
  }

  lemma OpenFailsStep(p: Pool, t: TaskId)
    requires WellFormed(p) && SessionsOk(p) && Enabled(p, OpenFails(t))
    ensures SessionsOk(Apply(p, OpenFails(t)))
  {
    var after := Apply(p, OpenFails(t));
    forall s: Session | s < after.created ensures IsHeld(after, s) || IsIdle(after, s) || s in after.closed {
      if s == p.tasks[t].session {
        assert after.closed[|p.closed|] == s;
      } else {
        KeepsPlace(p, after, t, s);
      }
    }
  }

  lemma ReturnStep(p: Pool, t: TaskId, failed: bool)
    requires WellFormed(p) && SessionsOk(p) && Enabled(p, Return(t, failed))
    ensures SessionsOk(Apply(p, Return(t, failed)))
  {
    var after := Apply(p, Return(t, failed));
    var c, held := p.connection[t], p.tasks[t].session;
    assert c in p.connection.Values;
    assert after.idle[c] == p.idle[c] + [held];
    ReturnedAlone(p, t, failed);
    hide HeldAlone, IdleOnce;
    forall s: Session | s < after.created ensures IsHeld(after, s) || IsIdle(after, s) || s in after.closed {
      if s == held {
        assert s in after.idle[c];
      } else {
        KeepsPlace(p, after, t, s);
      }
    }
  }

  lemma ReturnedAlone(p: Pool, t: TaskId, failed: bool)
    requires WellFormed(p) && HeldAlone(p) && IdleOnce(p) && Enabled(p, Return(t, failed))
    ensures HeldAlone(Apply(p, Return(t, failed))) && IdleOnce(Apply(p, Return(t, failed)))
  {
    assert p.connection[t] in p.connection.Values;
    ReturnedIdleOnce(p, t, failed);
    hide IdleOnce;
  }

  lemma ReturnedIdleOnce(p: Pool, t: TaskId, failed: bool)
    requires WellFormed(p) && HeldAlone(p) && IdleOnce(p) && Enabled(p, Return(t, failed))
    ensures IdleOnce(Apply(p, Return(t, failed)))
  {
    assert p.connection[t] in p.connection.Values;
    assert p.tasks[t].session !in p.idle[p.connection[t]];
  }

  lemma PoppedOnce(p: Pool, c: Connection)
    requires IdleOnce(p) && c in p.idle && p.idle[c] != []
    ensures IdleOnce(Pop(p, c))
  {
    var rest := p.idle[c][..|p.idle[c]| - 1];
    forall s | s in rest ensures s in p.idle[c] {
      var i :| 0 <= i < |rest| && rest[i] == s;
      assert p.idle[c][i] == s;
    }
  }

  lemma PopKeeps(p: Pool, c: Connection)
    requires IdleOnce(p) && c in p.idle && p.idle[c] != []
    ensures forall d <- p.idle :: d in Pop(p, c).idle
    ensures var top := Top(p, c);
            top in p.idle[c] && top < p.created && top !in p.closed && top in p.home && p.home[top] == c
    ensures IdleOnce(Pop(p, c))
    ensures forall d <- p.idle, s <- p.idle[d] :: s in Pop(p, c).idle[d] <==> s != Top(p, c)
    ensures forall d <- p.idle, s <- Pop(p, c).idle[d] :: s in p.idle[d]
  {
    var rest, top := p.idle[c][..|p.idle[c]| - 1], Top(p, c);
    assert p.idle[c] == rest + [top];
    assert top in p.idle[c] && top < p.created && p.home[top] == c;
    PoppedOnce(p, c);
    forall s <- rest ensures s != top {
      var i :| 0 <= i < |rest| && rest[i] == s;
      assert p.idle[c][i] == s;
    }
    forall d <- p.idle, s <- p.idle[d] ensures s in Pop(p, c).idle[d] <==> s != top {
      if d != c {
        assert p.home[s] == d && top in p.idle[c] && p.home[top] == c;
      }
    }
  }

  lemma TakeStep(p: Pool, t: TaskId)
    requires WellFormed(p) && SessionsOk(p) && Enabled(p, Take(t))
    ensures SessionsOk(Apply(p, Take(t)))
  {
    var after := Apply(p, Take(t));
    var c, top := p.connection[t], Top(p, p.connection[t]);
    PopKeeps(p, c);
    TakenAlone(p, t);
    hide HeldAlone, IdleOnce;
    forall s: Session | s < after.created ensures IsHeld(after, s) || IsIdle(after, s) || s in after.closed {
      if s == top {
        assert after.tasks[t].session == s;
      } else {
        KeepsPlace(p, after, t, s);
      }
    }
  }

  lemma TakenAlone(p: Pool, t: TaskId)
    requires WellFormed(p) && HeldAlone(p) && IdleOnce(p) && Enabled(p, Take(t))
    ensures HeldAlone(Apply(p, Take(t))) && IdleOnce(Apply(p, Take(t)))
  {
    PopKeeps(p, p.connection[t]);
    var popped := Pop(p, p.connection[t]);
    assert HeldAlone(popped);
  }

  lemma ClosedStaysOnce(p: Pool, s: Session, after: Pool)
    requires ClosedOnce(p) && s < p.created && s !in p.closed
    requires after.closed == p.closed + [s] && after.created == p.created
    ensures ClosedOnce(after)
  {
    forall x <- after.closed ensures x < after.created {
      assert x in p.closed || x == s;
    }
    forall i: nat, j: nat | i < j < |after.closed| ensures after.closed[i] != after.closed[j] {
      assert after.closed[i] in p.closed;
    }
  }

  lemma CloseStep(p: Pool, c: Connection, phase: Phase)
    requires WellFormed(p) && SessionsOk(p) && c in p.idle && p.idle[c] != []
    ensures SessionsOk(Pop(p, c).(closed := p.closed + [Top(p, c)], phase := phase))
  {
    var after := Pop(p, c).(closed := p.closed + [Top(p, c)], phase := phase);
    PopKeeps(p, c);
    ClosedStaysOnce(p, Top(p, c), after);
    hide ClosedOnce;
    forall s: Session | s < after.created ensures IsHeld(after, s) || IsIdle(after, s) || s in after.closed {
      if s == Top(p, c) {
        assert after.closed[|p.closed|] == s;
      } else if IsHeld(p, s) {
        var t :| t in p.tasks && IsHolding(p.tasks[t]) && p.tasks[t].session == s;
        assert after.tasks[t] == p.tasks[t];
      } else if IsIdle(p, s) {
        var d :| d in p.idle && s in p.idle[d];
        assert s in after.idle[d];
      }
    }
  }

  predicate Moves(step: Step) {
    step.Take? || step.Create? || step.Open? || step.OpenFails? || step.Return? || step.Close? || step.CloseRaises?
  }

  lemma OthersAreQuiet(p: Pool, step: Step)
    requires WellFormed(p) && HeldAlone(p) && Enabled(p, step) && !Moves(step)
    ensures Quiet(p, Apply(p, step))
  {
    hide WithinCapacity, Running;
    if IsTaskStep(step) {
      QuietTask(p, step);
    }
  }

  lemma QuietTask(p: Pool, step: Step)
    requires WellFormed(p) && HeldAlone(p) && Enabled(p, step) && !Moves(step) && IsTaskStep(step)
    ensures Quiet(p, Apply(p, step))
  {
    var after := Apply(p, step);
    assert !IsHolding(p.tasks[step.t]) && !IsHolding(after.tasks[step.t]);
    hide Running, Queue;
  }

  lemma SessionsStep(p: Pool, step: Step)
    requires WellFormed(p) && SessionsOk(p) && Enabled(p, step)
    ensures SessionsOk(Apply(p, step))
  {
    assert HeldAlone(p);
    hide SessionsOk, Enabled, Apply, HeldAlone, Quiet;
    match step {
      case Create(t) => CreateStep(p, t);
      case Open(t) => OpenStep(p, t);
      case OpenFails(t) => OpenFailsStep(p, t);
      case Return(t, failed) => ReturnStep(p, t, failed);
      case Take(t) => TakeStep(p, t);
      case Close(c) => CloseStepIs(p, step, c);
      case CloseRaises(c) => CloseStepIs(p, step, c);
      case _ =>
        OthersAreQuiet(p, step);
        QuietStep(p, Apply(p, step));
    }
  }

  lemma CloseStepIs(p: Pool, step: Step, c: Connection)
    requires WellFormed(p) && SessionsOk(p) && Enabled(p, step) && (step == Close(c) || step == CloseRaises(c))
    ensures SessionsOk(Apply(p, step))
  {
    hide SessionsOk;
    CloseStep(p, c, if step.Close? then p.phase else Ended(true));
  }

  lemma ShapeStep(p: Pool, step: Step)
    requires WellFormed(p) && PhaseOk(p) && Enabled(p, step)
    ensures WellFormed(Apply(p, step)) && PhaseOk(Apply(p, step))
  {
  }

  lemma StepKeepsInvariant(p: Pool, step: Step)
    requires Inv(p) && Enabled(p, step)
    ensures Inv(Apply(p, step))
  {
    hide Enabled, WithinCapacity, HeldAlone, IdleOnce, ClosedOnce, Accounted, PhaseOk;
    CapacityStep(p, step);
    SessionsStep(p, step);
    ShapeStep(p, step);
  }

  // ---------- whole refreshes ----------

  /** An empty stack per connection, and no session yet. */
  function Initial(connections: set<Connection>, parallel: nat): Pool {
    Pool(parallel, map[], map[], map c <- connections :: [], map[], 0, [], false, Layers)
  }

  lemma InitialIsValid(connections: set<Connection>, parallel: nat)
    ensures Inv(Initial(connections, parallel))
  {
    var p := Initial(connections, parallel);
    assert Running(p) == {};
    assert forall c :: Busy(p, c) == {};
  }

  predicate Feasible(p: Pool, steps: seq<Step>)
    requires WellFormed(p)
    decreases |steps|
  {
    steps == []
    || (Enabled(p, steps[0]) && WellFormed(Apply(p, steps[0])) && Feasible(Apply(p, steps[0]), steps[1..]))
  }

  function After(p: Pool, steps: seq<Step>): Pool
    requires WellFormed(p) && Feasible(p, steps)
    decreases |steps|
  {
    if steps == [] then p else After(Apply(p, steps[0]), steps[1..])
  }

  lemma {:induction false} RunsKeepInvariant(p: Pool, steps: seq<Step>)
    requires Inv(p) && Feasible(p, steps)
    ensures Inv(After(p, steps))
    decreases |steps|
  {
    hide Enabled, Apply, WithinCapacity, HeldAlone, IdleOnce, ClosedOnce, Accounted, PhaseOk;
    if steps != [] {
      StepKeepsInvariant(p, steps[0]);
      RunsKeepInvariant(Apply(p, steps[0]), steps[1..]);
    }
  }

  /**
   Conservation, under every interleaving across layers: no session is held twice or handed to
   another connection, and no connection ever has more live and nascent sessions than workers.
   */
  lemma SessionsAreExclusive(connections: set<Connection>, parallel: nat, steps: seq<Step>, t: TaskId, u: TaskId)
    requires Feasible(Initial(connections, parallel), steps)
    ensures var p := After(Initial(connections, parallel), steps);
            && (t in p.tasks && u in p.tasks && t != u && IsHolding(p.tasks[t]) && IsHolding(p.tasks[u]) ==>
                  p.tasks[t].session != p.tasks[u].session)
            && (t in p.tasks && IsHolding(p.tasks[t]) ==>
                  p.tasks[t].session in p.home && t in p.connection
                  && p.home[p.tasks[t].session] == p.connection[t]
                  && !IsIdle(p, p.tasks[t].session))
            && (forall c <- p.idle :: Live(p, c) <= p.parallel)
  {
    InitialIsValid(connections, parallel);
    RunsKeepInvariant(Initial(connections, parallel), steps);
    hide IdleOnce, ClosedOnce, Accounted;
  }

  /** How often a distinct sequence holds an element. */
  lemma {:induction false} Multiplicity(s: seq<Session>, x: Session)
    requires forall i: nat, j: nat :: i < j < |s| ==> s[i] != s[j]
    ensures multiset(s)[x] == if x in s then 1 else 0
  {
    if x in s {
      var i :| 0 <= i < |s| && s[i] == x;
      assert s == s[..i] + [x] + s[i + 1..];
      assert x !in s[..i];
      NotLater(s, i);
    }
  }

  lemma NotLater(s: seq<Session>, i: nat)
    requires (forall k: nat, j: nat :: k < j < |s| ==> s[k] != s[j]) && i < |s|
    ensures s[i] !in s[i + 1..]
  {
    assert forall j: nat :: i < j < |s| ==> s[j] != s[i];
  }

  /** After a refresh whose closes did not raise, every session created was closed exactly once. */
  lemma EverySessionIsClosedOnce(connections: set<Connection>, parallel: nat, steps: seq<Step>, s: Session)
    requires Feasible(Initial(connections, parallel), steps)
    ensures var p := After(Initial(connections, parallel), steps);
            && multiset(p.closed)[s] <= 1
            && (p.phase == Ended(false) ==> multiset(p.closed)[s] == if s < p.created then 1 else 0)
  {
    var p := After(Initial(connections, parallel), steps);
    InitialIsValid(connections, parallel);
    RunsKeepInvariant(Initial(connections, parallel), steps);
    Multiplicity(p.closed, s);
    hide WithinCapacity, HeldAlone, IdleOnce;
  }

  lemma IdleFacts(p: Pool, c: Connection, s: Session)
    requires IdleOnce(p) && c in p.idle && s in p.idle[c]
    ensures s < p.created && s !in p.closed
  {
  }

  lemma AllClosedWhenNoneIdle(p: Pool)
    requires Inv(p) && !p.phase.Layers?
    ensures (forall s: Session :: s < p.created ==> s in p.closed) <==> forall d <- p.idle :: p.idle[d] == []
  {
    hide WithinCapacity, HeldAlone, ClosedOnce;
    if forall s: Session :: s < p.created ==> s in p.closed {
      forall d <- p.idle ensures p.idle[d] == [] {
        if p.idle[d] != [] {
          IdleFacts(p, d, p.idle[d][0]);
        }
      }
    } else {
      var s: Session :| s < p.created && s !in p.closed;
      assert IsIdle(p, s);
    }
  }

  /**
   A `close()` that raises ends the draining. In every reachable state, all sessions are closed all
   the same if and only if it was the last one idle: the others stay open.
   */
  lemma RaisingCloseLeavesTheRest(connections: set<Connection>, parallel: nat, steps: seq<Step>, c: Connection)
    requires Feasible(Initial(connections, parallel), steps)
    requires Enabled(After(Initial(connections, parallel), steps), CloseRaises(c))
    ensures var p := After(Initial(connections, parallel), steps);
            && WellFormed(p)
            && ((forall s: Session :: s < p.created ==> s in Apply(p, CloseRaises(c)).closed)
                <==> |p.idle[c]| == 1 && forall d <- p.idle :: d != c ==> p.idle[d] == [])
  {
    InitialIsValid(connections, parallel);
    RunsKeepInvariant(Initial(connections, parallel), steps);
    hide Inv, Feasible, After, Enabled, Apply;
    RaisingCloseIsExact(After(Initial(connections, parallel), steps), c);
  }

  lemma RaisingCloseIsExact(p: Pool, c: Connection)
    requires Inv(p) && Enabled(p, CloseRaises(c))
    ensures WellFormed(p) && c in p.idle
    ensures (forall s: Session :: s < p.created ==> s in Apply(p, CloseRaises(c)).closed)
            <==> |p.idle[c]| == 1 && forall d <- p.idle :: d != c ==> p.idle[d] == []
  {
    var after := Apply(p, CloseRaises(c));
    StepKeepsInvariant(p, CloseRaises(c));
    AllClosedWhenNoneIdle(after);
    hide Inv;
    assert after.idle[c] == [] <==> |p.idle[c]| == 1;
    if forall d <- after.idle :: after.idle[d] == [] {
      forall d <- p.idle | d != c ensures p.idle[d] == [] {
        assert after.idle[d] == p.idle[d];
      }
    }
  }

  lemma {:induction false} StepAfter(p: Pool, steps: seq<Step>, step: Step)
    requires WellFormed(p) && Feasible(p, steps) && WellFormed(After(p, steps)) && Enabled(After(p, steps), step)
    requires WellFormed(Apply(After(p, steps), step))
    ensures Feasible(p, steps + [step]) && After(p, steps + [step]) == Apply(After(p, steps), step)
    decreases |steps|
  {
    hide Enabled, Apply;
    if steps == [] {
      assert [step][1..] == [];
    } else {
      StepAfter(Apply(p, steps[0]), steps[1..], step);
      assert (steps + [step])[1..] == steps[1..] + [step];
    }
  }

  /** Two tasks of one connection, in one layer. */
  function Pair(c: Connection, parallel: nat, first: Task, second: Task): Pool {
    Initial({c}, parallel).(connection := map[0 := c, 1 := c], tasks := map[0 := first, 1 := second],
                            idle := map[c := []])
  }

  /** Both have opened a session of their own. */
  function PairOpen(c: Connection, parallel: nat): Pool {
    Pair(c, parallel, Working(0), Working(1)).(created := 2, home := map[0 := c, 1 := c])
  }

  lemma NoSteps(p: Pool)
    requires WellFormed(p)
    ensures Feasible(p, []) && After(p, []) == p
  {
  }

  lemma PairLayer(c: Connection, parallel: nat)
    ensures var start, layer := Initial({c}, parallel), StartLayer(map[0 := c, 1 := c]);
            && WellFormed(start)
            && Enabled(start, layer)
            && Apply(start, layer) == Pair(c, parallel, Waiting, Waiting)
  {
    assert Initial({c}, parallel).idle == map[c := []];
    hide Running;
  }

  lemma PairBegins(c: Connection, parallel: nat)
    requires parallel >= 2
    ensures var p0, p1 := Pair(c, parallel, Waiting, Waiting), Pair(c, parallel, Started, Waiting);
            && WellFormed(p0) && Enabled(p0, Start(0)) && Apply(p0, Start(0)) == p1
            && WellFormed(p1) && Enabled(p1, Start(1)) && Apply(p1, Start(1)) == Pair(c, parallel, Started, Started)
            && WellFormed(Pair(c, parallel, Started, Started))
  {
    var p0, p1 := Pair(c, parallel, Waiting, Waiting), Pair(c, parallel, Started, Waiting);
    PairIsWellFormed(c, parallel, Waiting, Waiting);
    PairIsWellFormed(c, parallel, Started, Waiting);
    PairIsWellFormed(c, parallel, Started, Started);
    assert Running(p0) == {} && Running(p1) == {0};
    assert p0.tasks[0 := Started] == p1.tasks && p1.tasks[1 := Started] == map[0 := Started, 1 := Started];
    hide WellFormed, Running;
  }

  lemma PairIsWellFormed(c: Connection, parallel: nat, first: Task, second: Task)
    ensures WellFormed(Pair(c, parallel, first, second))
    ensures Pair(c, parallel, first, second).connection[0] == c && Pair(c, parallel, first, second).connection[1] == c
    ensures Queue(Pair(c, parallel, first, second), 0) == [] && Queue(Pair(c, parallel, first, second), 1) == []
  {
  }

  lemma PairStarts(c: Connection, parallel: nat) returns (steps: seq<Step>)
    requires parallel >= 2
    ensures Feasible(Initial({c}, parallel), steps)
    ensures After(Initial({c}, parallel), steps) == Pair(c, parallel, Started, Started)
  {
    var start := Initial({c}, parallel);
    var layer := map[0 := c, 1 := c];
    PairLayer(c, parallel);
    PairBegins(c, parallel);
    hide Apply, Enabled, Running, Pair, WellFormed, Feasible, After;
    NoSteps(start);
    StepAfter(start, [], StartLayer(layer));
    StepAfter(start, [] + [StartLayer(layer)], Start(0));
    StepAfter(start, [] + [StartLayer(layer)] + [Start(0)], Start(1));
    steps := [] + [StartLayer(layer)] + [Start(0)] + [Start(1)];
  }

  lemma FirstOpening(c: Connection, parallel: nat)
    ensures var p0, p1 := Pair(c, parallel, Started, Started), Pair(c, parallel, Creating, Started);
            var p2 := Pair(c, parallel, Opening(0), Started).(created := 1, home := map[0 := c]);
            var p3 := Pair(c, parallel, Working(0), Started).(created := 1, home := map[0 := c]);
            && WellFormed(p0) && Enabled(p0, Miss(0)) && Apply(p0, Miss(0)) == p1
            && WellFormed(p1) && Enabled(p1, Create(0)) && Apply(p1, Create(0)) == p2
            && WellFormed(p2) && Enabled(p2, Open(0)) && Apply(p2, Open(0)) == p3
            && WellFormed(p3)
  {
    PairIsWellFormed(c, parallel, Started, Started);
    PairIsWellFormed(c, parallel, Creating, Started);
    PairIsWellFormed(c, parallel, Opening(0), Started);
    PairIsWellFormed(c, parallel, Working(0), Started);
    FirstTaskChanges(Started, Started, Creating);
    FirstTaskChanges(Creating, Started, Opening(0));
    FirstTaskChanges(Opening(0), Started, Working(0));
    hide Running, Queue;
  }

  lemma FirstTaskChanges(first: Task, second: Task, next: Task)
    ensures map[0 := first, 1 := second][0 := next] == map[0 := next, 1 := second]
  {
  }

  lemma SecondTaskChanges(first: Task, second: Task, next: Task)
    ensures map[0 := first, 1 := second][1 := next] == map[0 := first, 1 := next]
  {
  }

  /** One task after the other opens a session. */
  lemma FirstOpens(c: Connection, parallel: nat) returns (steps: seq<Step>)
    requires parallel >= 2
    ensures Feasible(Initial({c}, parallel), steps)
    ensures After(Initial({c}, parallel), steps)
         == Pair(c, parallel, Working(0), Started).(created := 1, home := map[0 := c])
  {
    var start := Initial({c}, parallel);
    var begun := PairStarts(c, parallel);
    FirstOpening(c, parallel);
    hide Apply, Enabled, Running, Pair, WellFormed, Feasible, After;
    StepAfter(start, begun, Miss(0));
    StepAfter(start, begun + [Miss(0)], Create(0));
    StepAfter(start, begun + [Miss(0)] + [Create(0)], Open(0));
    steps := begun + [Miss(0)] + [Create(0)] + [Open(0)];
  }

  lemma SecondOpening(c: Connection, parallel: nat)
    ensures var p0 := Pair(c, parallel, Working(0), Started).(created := 1, home := map[0 := c]);
            var p1 := Pair(c, parallel, Working(0), Creating).(created := 1, home := map[0 := c]);
            var p2 := Pair(c, parallel, Working(0), Opening(1)).(created := 2, home := map[0 := c, 1 := c]);
            && WellFormed(p0) && Enabled(p0, Miss(1)) && Apply(p0, Miss(1)) == p1
            && WellFormed(p1) && Enabled(p1, Create(1)) && Apply(p1, Create(1)) == p2
            && WellFormed(p2) && Enabled(p2, Open(1)) && Apply(p2, Open(1)) == PairOpen(c, parallel)
            && WellFormed(PairOpen(c, parallel))
  {
    PairIsWellFormed(c, parallel, Working(0), Started);
    PairIsWellFormed(c, parallel, Working(0), Creating);
    PairIsWellFormed(c, parallel, Working(0), Opening(1));
    PairIsWellFormed(c, parallel, Working(0), Working(1));
    SecondTaskChanges(Working(0), Started, Creating);
    SecondTaskChanges(Working(0), Creating, Opening(1));
    SecondTaskChanges(Working(0), Opening(1), Working(1));
    assert map[0 := c][1 := c] == map[0 := c, 1 := c];
    hide Running, Queue;
  }

  lemma BothOpen(c: Connection, parallel: nat) returns (steps: seq<Step>)
    requires parallel >= 2
    ensures Feasible(Initial({c}, parallel), steps)
    ensures After(Initial({c}, parallel), steps) == PairOpen(c, parallel)
  {
    var start := Initial({c}, parallel);
    var begun := FirstOpens(c, parallel);
    SecondOpening(c, parallel);
    hide Apply, Enabled, Running, Pair, PairOpen, WellFormed, Feasible, After;
    StepAfter(start, begun, Miss(1));
    StepAfter(start, begun + [Miss(1)], Create(1));
    StepAfter(start, begun + [Miss(1)] + [Create(1)], Open(1));
    steps := begun + [Miss(1)] + [Create(1)] + [Open(1)];
  }

  lemma FirstReturns(c: Connection, parallel: nat)
    ensures var p0 := PairOpen(c, parallel);
            var p1 := p0.(tasks := map[0 := Settled(false), 1 := Working(1)], idle := map[c := [0]]);
            WellFormed(p0) && Enabled(p0, Return(0, false)) && Apply(p0, Return(0, false)) == p1 && WellFormed(p1)
  {
    var p0 := PairOpen(c, parallel);
    PairIsWellFormed(c, parallel, Working(0), Working(1));
    assert p0.idle[c] + [0] == [0] && p0.idle[c := [0]] == map[c := [0]];
    FirstTaskChanges(Working(0), Working(1), Settled(false));
    hide Running, Queue;
  }

  lemma SecondReturns(c: Connection, parallel: nat)
    ensures var p0 := PairOpen(c, parallel);
            var p1 := p0.(tasks := map[0 := Settled(false), 1 := Working(1)], idle := map[c := [0]]);
            var p2 := p0.(tasks := map[0 := Settled(false), 1 := Settled(false)], idle := map[c := [0, 1]]);
            && WellFormed(p1) && Enabled(p1, Return(1, false)) && Apply(p1, Return(1, false)) == p2
            && WellFormed(p2) && Enabled(p2, StartDrain) && Apply(p2, StartDrain) == p2.(phase := Draining)
  {
    var p0 := PairOpen(c, parallel);
    PairIsWellFormed(c, parallel, Working(0), Working(1));
    assert [0] + [1] == [0, 1] && map[c := [0]][c := [0, 1]] == map[c := [0, 1]];
    SecondTaskChanges(Settled(false), Working(1), Settled(false));
    hide Running, Queue;
  }

  lemma BothReturn(c: Connection, parallel: nat) returns (steps: seq<Step>)
    requires parallel >= 2
    ensures Feasible(Initial({c}, parallel), steps)
    ensures After(Initial({c}, parallel), steps)
         == PairOpen(c, parallel).(tasks := map[0 := Settled(false), 1 := Settled(false)], idle := map[c := [0, 1]],
                                   phase := Draining)
  {
    var start := Initial({c}, parallel);
    var both := BothOpen(c, parallel);
    FirstReturns(c, parallel);
    SecondReturns(c, parallel);
    hide Apply, Enabled, Feasible, After, PairOpen, WellFormed;
    StepAfter(start, both, Return(0, false));
    StepAfter(start, both + [Return(0, false)], Return(1, false));
    StepAfter(start, both + [Return(0, false)] + [Return(1, false)], StartDrain);
    steps := both + [Return(0, false)] + [Return(1, false)] + [StartDrain];
  }

  /** With two workers it does happen: the second session's close raises, and the first stays open. */
  lemma RaisingCloseIsReachable(c: Connection, parallel: nat) returns (steps: seq<Step>)
    requires parallel >= 2
    ensures Feasible(Initial({c}, parallel), steps)
    ensures var p := After(Initial({c}, parallel), steps);
            p.phase == Ended(true) && p.created == 2 && 0 !in p.closed && 0 in p.home && p.home[0] == c
  {
    var start := Initial({c}, parallel);
    var returned := BothReturn(c, parallel);
    var p := After(start, returned);
    assert p.idle[c] == [0, 1] && Top(p, c) == 1;
    assert p.connection.Values == {c} by {
      assert p.connection == map[0 := c, 1 := c];
      assert p.connection[0] == c;
    }
    StepAfter(start, returned, CloseRaises(c));
    steps := returned + [CloseRaises(c)];
    hide Running, Feasible, After;
  }
}
