/**
 The registry of project actors as a step system: acquirers, releases, the idle evictor and the actors'
 worker threads interleave; each section under the registry's lock is one step.
 */
module Registry {

  const DEFAULT_MAX_ACTIVE_ACTORS := 2

  /** The watched state of an actor. */
  datatype Watch = Opening | Ready | Draining | Failed | Closed

  /** The worker thread: its service is live until `Dropped`, the close guard speaks after that, and a
      join returns once it is `Gone`. */
  datatype Thread = Starting | Serving | Leaving | Dropped | Announced | Gone

  /** `handle` says that the join handle was not taken yet; `stops` counts the calls of `stop`, and
      `stopper` is the one who made the first; `evicted` that the idle evictor drained the actor. */
  datatype Actor = Actor(
    key: string, fingerprint: string, watch: Watch, accepting: bool, leases: int, thread: Thread,
    stopQueued: bool, handle: bool, stops: nat, stopper: int, evicted: bool)

  datatype Refusal = Mismatch | LimitExhausted | SpawnFailed | NotReady | None

  datatype StopStage = Drain | Send | Take | Join(joins: bool)

  /** An acquirer, from its request to its release, or the evictor's work on one actor. */
  datatype Task =
    | Wanting(key: string, fingerprint: string)
    | AwaitClosed(a: nat, key: string, fingerprint: string)
    | Forgetting(a: nat, key: string, fingerprint: string)
    | AwaitReady(a: nat)
    | Leased(a: nat)
    | GivingUp(a: nat)
    | Stopping(a: nat, stage: StopStage)
    | Removing(a: nat)
    | Finished(refusal: Refusal)

  datatype State = State(current: map<string, nat>, actors: seq<Actor>, tasks: seq<Task>)

  const INITIAL := State(map[], [], [])

  datatype Action =
    | Arrive(key: string, fingerprint: string)
    | Advance(t: nat, raced: bool, spawns: bool)
    | Evict(a: nat, raced: bool)
    | Thrive(a: nat) | Crash(a: nat, reported: bool) | HearStop(a: nat)

  // ---------------------------------------------------------------- one actor

  predicate IsDraining(w: Watch)
  {
    w.Draining? || w.Failed? || w.Closed?
  }

  /** The worker's service, and with it the project's store, is in use. */
  predicate Live(a: Actor)
  {
    a.thread.Starting? || a.thread.Serving? || a.thread.Leaving?
  }

  /** `begin_draining`; when the worker's last word falls between its check and its send, the send
      overwrites it. */
  function BeginDraining(a: Actor, raced: bool): Actor
  {
    if !a.accepting then a
    else if (a.watch.Failed? || a.watch.Closed?) && !raced then a.(accepting := false)
    else a.(accepting := false, watch := Draining)
  }

  /** The worker goes on: it gets ready, or, past its loop, drops its service, announces that it is
      closed, and exits. */
  function Thriven(a: Actor): Actor
  {
    match a.thread
    case Starting => a.(thread := Serving, watch := Ready)
    case Serving => a
    case Leaving => a.(thread := Dropped)
    case Dropped => a.(thread := Announced, watch := Closed)
    case Announced => a.(thread := Gone)
    case Gone => a
  }

  /** A panic: of an operation, which is reported as a failure, or of the service's constructor or a
      preparation, which is not. */
  function Crashed(a: Actor, reported: bool): Actor
  {
    a.(thread := Leaving, watch := if a.thread.Serving? && reported then Failed else a.watch)
  }

  // ---------------------------------------------------------------- the steps

  function SetActor(s: State, a: nat, actor: Actor): State
    requires a < |s.actors|
  {
    s.(actors := s.actors[a := actor])
  }

  function SetTask(s: State, t: nat, task: Task): State
    requires t < |s.tasks|
  {
    s.(tasks := s.tasks[t := task])
  }

  predicate KnownCurrent(s: State)
  {
    forall key :: key in s.current ==> s.current[key] < |s.actors|
  }

  function ActorOf(task: Task): int
  {
    match task
    case Wanting(_, _) => -1
    case Finished(_) => -1
    case AwaitClosed(a, _, _) => a
    case Forgetting(a, _, _) => a
    case AwaitReady(a) => a
    case Leased(a) => a
    case GivingUp(a) => a
    case Stopping(a, _) => a
    case Removing(a) => a
  }

  predicate CanAdvance(s: State, t: nat)
  {
    && t < |s.tasks|
    && KnownCurrent(s)
    && ActorOf(s.tasks[t]) < |s.actors|
    && match s.tasks[t]
       case AwaitClosed(a, _, _) => s.actors[a].watch.Closed?
       case AwaitReady(a) => !s.actors[a].watch.Opening?
       case Stopping(a, Join(joins)) => joins ==> s.actors[a].thread.Gone?
       case Finished(_) => false
       case _ => true
  }

  predicate Enabled(s: State, action: Action)
  {
    match action
    case Arrive(_, _) => true
    case Advance(t, _, _) => CanAdvance(s, t)
    case Evict(a, _) => a < |s.actors| && IsCurrent(s, a) && s.actors[a].leases == 0
    case Thrive(a) => a < |s.actors|
    case Crash(a, _) => a < |s.actors| && (s.actors[a].thread.Starting? || s.actors[a].thread.Serving?)
    case HearStop(a) => a < |s.actors| && s.actors[a].thread.Serving? && s.actors[a].stopQueued
  }

  predicate IsCurrent(s: State, a: nat)
    requires a < |s.actors|
  {
    s.actors[a].key in s.current && s.current[s.actors[a].key] == a
  }

  /** The section of `acquire` under the registry's lock. */
  function AcquireSection(s: State, t: nat, spawns: bool): State
    requires t < |s.tasks| && s.tasks[t].Wanting? && KnownCurrent(s)
  {
    var key, fingerprint := s.tasks[t].key, s.tasks[t].fingerprint;
    if key in s.current then
      var a := s.current[key];
      var actor := s.actors[a];
      if actor.fingerprint != fingerprint then SetTask(s, t, Finished(Mismatch))
      else if IsDraining(actor.watch) then SetTask(s, t, AwaitClosed(a, key, fingerprint))
      else SetTask(SetActor(s, a, actor.(leases := actor.leases + 1)), t, AwaitReady(a))
    else if |s.current| >= DEFAULT_MAX_ACTIVE_ACTORS then SetTask(s, t, Finished(LimitExhausted))
    else if !spawns then SetTask(s, t, Finished(SpawnFailed))
    else
      var a := |s.actors|;
      SetTask(s, t, AwaitReady(a)).(
        actors := s.actors + [Spawned(key, fingerprint)],
        current := s.current[key := a])
  }

  /** A new actor, with the lease of its first acquirer. */
  function Spawned(key: string, fingerprint: string): Actor
  {
    Actor(key, fingerprint, Opening, true, 1, Starting, false, true, 0, -1, false)
  }

  function RemoveIfCurrent(s: State, a: nat): State
    requires a < |s.actors|
  {
    if IsCurrent(s, a) then s.(current := s.current - {s.actors[a].key}) else s
  }

  /** A task's next step. */
  function Advanced(s: State, t: nat, raced: bool, spawns: bool): State
    requires CanAdvance(s, t)
  {
    match s.tasks[t]
    case Wanting(_, _) => AcquireSection(s, t, spawns)
    case AwaitClosed(a, key, fingerprint) => SetTask(s, t, Forgetting(a, key, fingerprint))
    case Forgetting(a, key, fingerprint) => SetTask(RemoveIfCurrent(s, a), t, Wanting(key, fingerprint))
    case AwaitReady(a) => SetTask(s, t, if s.actors[a].watch.Ready? then Leased(a) else GivingUp(a))
    case Leased(a) => SetTask(SetActor(s, a, Released(s.actors[a])), t, Finished(None))
    case GivingUp(a) => SetTask(SetActor(s, a, Released(s.actors[a])), t, Stopping(a, Drain))
    case Stopping(a, stage) => StopNext(s, t, a, stage, raced)
    case Removing(a) => SetTask(RemoveIfCurrent(s, a), t, Finished(NotReady))
    case Finished(_) => s
  }

  function Released(a: Actor): Actor
  {
    a.(leases := a.leases - 1)
  }

  /** `stop`: drain, send the Stop, take the join handle, and join if there was one. */
  function StopNext(s: State, t: nat, a: nat, stage: StopStage, raced: bool): State
    requires t < |s.tasks| && a < |s.actors|
  {
    var actor := s.actors[a];
    match stage
    case Drain =>
      var drained := BeginDraining(actor, raced).(stops := actor.stops + 1,
                                                  stopper := if actor.stops == 0 then t else actor.stopper);
      SetTask(SetActor(s, a, drained), t, Stopping(a, Send))
    case Send => SetTask(SetActor(s, a, actor.(stopQueued := true)), t, Stopping(a, Take))
    case Take => SetTask(SetActor(s, a, actor.(handle := false)), t, Stopping(a, Join(actor.handle)))
    case Join(_) => SetTask(s, t, Removing(a))
  }

  function Next(s: State, action: Action): State
    requires Enabled(s, action)
  {
    match action
    case Arrive(key, fingerprint) => s.(tasks := s.tasks + [Wanting(key, fingerprint)])
    case Advance(t, raced, spawns) => Advanced(s, t, raced, spawns)
    case Evict(a, raced) =>
      SetActor(s, a, BeginDraining(s.actors[a], raced).(evicted := true)).(tasks := s.tasks + [Stopping(a, Drain)])
    case Thrive(a) => SetActor(s, a, Thriven(s.actors[a]))
    case Crash(a, reported) => SetActor(s, a, Crashed(s.actors[a], reported))
    case HearStop(a) => SetActor(s, a, s.actors[a].(thread := Leaving))
  }

  // ---------------------------------------------------------------- leases

  /** The actor whose lease is held, or -1. */
  function LeaseOf(task: Task): int
  {
    match task
    case AwaitReady(a) => a
    case Leased(a) => a
    case GivingUp(a) => a
    case _ => -1
  }

  function Holders(tasks: seq<Task>, a: nat): nat
  {
    if tasks == [] then 0
    else Holders(tasks[..|tasks| - 1], a) + if LeaseOf(tasks[|tasks| - 1]) == a then 1 else 0
  }

  lemma {:induction false} HoldersUpdate(tasks: seq<Task>, t: nat, task: Task, a: nat)
    requires t < |tasks|
    ensures Holders(tasks[t := task], a)
            == Holders(tasks, a) - (if LeaseOf(tasks[t]) == a then 1 else 0) + (if LeaseOf(task) == a then 1 else 0)
    decreases |tasks|
  {
    var last := |tasks| - 1;
    if t < last {
      HoldersUpdate(tasks[..last], t, task, a);
      assert tasks[t := task][..last] == tasks[..last][t := task];
    } else {
      assert tasks[t := task][..last] == tasks[..last];
    }
  }

  lemma HoldersAppend(tasks: seq<Task>, task: Task, a: nat)
    ensures Holders(tasks + [task], a) == Holders(tasks, a) + if LeaseOf(task) == a then 1 else 0
  {
    assert (tasks + [task])[..|tasks|] == tasks;
  }

  // ---------------------------------------------------------------- the invariant

  /** An opening actor is leased and was not told to stop; an evicted one drains and is not leased. */
  predicate ActorOk(a: Actor)
  {
    && 0 <= a.leases
    && (a.thread.Starting? ==> a.watch.Opening?)
    && (a.watch.Opening? ==> a.leases >= 1 && a.stops == 0 && !a.evicted && a.handle)
    && (a.watch.Closed? ==> !Live(a))
    && (a.evicted ==> IsDraining(a.watch) && a.leases == 0)
    && (a.stops == 0 ==> a.handle)
    && (!a.accepting ==> IsDraining(a.watch))
  }

  predicate TaskOk(actors: seq<Actor>, t: nat, task: Task)
    requires ActorOf(task) < |actors|
  {
    match task
    case Forgetting(a, _, _) => !Live(actors[a])
    case Leased(a) => !actors[a].watch.Opening?
    case GivingUp(a) => !actors[a].watch.Opening?
    case Stopping(a, Drain) => !actors[a].watch.Opening?
    case Stopping(a, Send) => actors[a].stops >= 2 || (actors[a].stopper == t && actors[a].stops == 1 && actors[a].handle)
    case Stopping(a, Take) => actors[a].stops >= 2 || (actors[a].stopper == t && actors[a].stops == 1 && actors[a].handle)
    case Stopping(a, Join(joins)) => actors[a].stops >= 2 || joins
    case Removing(a) => actors[a].stops >= 2 || !Live(actors[a])
    case _ => true
  }

  ghost predicate MapOk(s: State)
  {
    && |s.current| <= DEFAULT_MAX_ACTIVE_ACTORS
    && KnownCurrent(s)
    && (forall key :: key in s.current ==> s.actors[s.current[key]].key == key)
  }

  ghost predicate ActorsOk(s: State)
  {
    forall a :: 0 <= a < |s.actors| ==> ActorOk(s.actors[a])
  }

  ghost predicate CountsOk(s: State)
  {
    forall a :: 0 <= a < |s.actors| ==> s.actors[a].leases == Holders(s.tasks, a)
  }

  /** The map holds every actor whose worker is live, unless `stop` was called on it twice. */
  ghost predicate LiveOk(s: State)
  {
    forall a :: 0 <= a < |s.actors| && Live(s.actors[a]) ==> s.actors[a].stops >= 2 || IsCurrent(s, a)
  }

  ghost predicate TasksOk(s: State)
  {
    forall t :: 0 <= t < |s.tasks| ==> ActorOf(s.tasks[t]) < |s.actors| && TaskOk(s.actors, t, s.tasks[t])
  }

  ghost predicate Inv(s: State)
  {
    MapOk(s) && ActorsOk(s) && CountsOk(s) && LiveOk(s) && TasksOk(s)
  }

  lemma InitialKept()
    ensures Inv(INITIAL)
  {
  }

  // ---------------------------------------------------------------- what steps keep

  /** An actor can only come nearer to its end. */
  predicate Ages(a: Actor, b: Actor)
  {
    && b.key == a.key
    && (Live(b) ==> Live(a)) && (b.watch.Opening? ==> a.watch.Opening?)
    && b.stops == a.stops && b.stopper == a.stopper && b.handle == a.handle
  }

  lemma AgeKeeps(s: State, a: nat, b: Actor)
    requires Inv(s) && a < |s.actors| && ActorOk(b) && Ages(s.actors[a], b) && b.leases == s.actors[a].leases
    ensures Inv(SetActor(s, a, b))
  {
    var u := SetActor(s, a, b);
    assert TasksOk(u) by {
      forall t | 0 <= t < |u.tasks|
        ensures TaskOk(u.actors, t, u.tasks[t])
      {
        assert TaskOk(s.actors, t, s.tasks[t]);
      }
    }
    hide TasksOk, ActorOk, Holders;
  }

  /** A task moves on without taking or giving back a lease. */
  lemma TaskKeeps(s: State, t: nat, task: Task)
    requires Inv(s) && t < |s.tasks| && ActorOf(task) < |s.actors| && TaskOk(s.actors, t, task)
    requires LeaseOf(s.tasks[t]) == LeaseOf(task)
    ensures Inv(SetTask(s, t, task))
  {
    var u := SetTask(s, t, task);
    forall d | 0 <= d < |u.tasks|
      ensures TaskOk(u.actors, d, u.tasks[d])
    {
      assert TaskOk(s.actors, d, s.tasks[d]);
    }
    forall a | 0 <= a < |u.actors|
      ensures u.actors[a].leases == Holders(u.tasks, a)
    {
      HoldersUpdate(s.tasks, t, task, a);
    }
    hide TaskOk, Holders, LeaseOf, ActorOk;
  }

  predicate MovesLease(s: State, a: nat, t: nat, task: Task)
    requires a < |s.actors| && t < |s.tasks|
  {
    && ((LeaseOf(s.tasks[t]) == a && LeaseOf(task) == -1) || (LeaseOf(s.tasks[t]) == -1 && LeaseOf(task) == a))
    && (ActorOf(task) == a || ActorOf(task) == -1)
  }

  /** A lease is taken or given back: the count and its holder change together. */
  function WithLease(s: State, a: nat, t: nat, task: Task): State
    requires a < |s.actors| && t < |s.tasks|
  {
    var n := if LeaseOf(task) == a then 1 else -1;
    SetTask(SetActor(s, a, s.actors[a].(leases := s.actors[a].leases + n)), t, task)
  }

  lemma LeaseCounts(s: State, a: nat, t: nat, task: Task)
    requires a < |s.actors| && t < |s.tasks| && MovesLease(s, a, t, task) && CountsOk(s)
    ensures CountsOk(WithLease(s, a, t, task))
  {
    var u := WithLease(s, a, t, task);
    forall c | 0 <= c < |u.actors|
      ensures u.actors[c].leases == Holders(u.tasks, c)
    {
      HoldersUpdate(s.tasks, t, task, c);
    }
  }

  lemma LeaseKeepsTasks(s: State, a: nat, t: nat, task: Task)
    requires TasksOk(s) && a < |s.actors| && t < |s.tasks| && MovesLease(s, a, t, task)
    requires TaskOk(s.actors, t, task) && (task.Stopping? ==> task.stage.Drain?)
    ensures TasksOk(WithLease(s, a, t, task))
  {
    var u := WithLease(s, a, t, task);
    forall d | 0 <= d < |u.tasks|
      ensures ActorOf(u.tasks[d]) < |u.actors| && TaskOk(u.actors, d, u.tasks[d])
    {
      assert TaskOk(s.actors, d, s.tasks[d]);
    }
  }

  lemma LeaseKeepsActors(s: State, a: nat, t: nat, task: Task)
    requires Inv(s) && a < |s.actors| && t < |s.tasks| && MovesLease(s, a, t, task)
    requires if LeaseOf(task) == a then !s.actors[a].evicted else !s.actors[a].watch.Opening?
    ensures ActorsOk(WithLease(s, a, t, task))
  {
    LeaseCounts(s, a, t, task);
    var u := WithLease(s, a, t, task);
    assert u.actors[a].leases == Holders(u.tasks, a);
    hide LeaseOf, Holders, MovesLease, MapOk, LiveOk, TasksOk;
    assert ActorOk(s.actors[a]);
  }

  lemma LeaseKeeps(s: State, a: nat, t: nat, task: Task)
    requires Inv(s) && a < |s.actors| && t < |s.tasks| && MovesLease(s, a, t, task)
    requires TaskOk(s.actors, t, task) && (task.Stopping? ==> task.stage.Drain?)
    requires if LeaseOf(task) == a then !s.actors[a].evicted else !s.actors[a].watch.Opening?
    ensures Inv(WithLease(s, a, t, task))
  {
    LeaseCounts(s, a, t, task);
    LeaseKeepsTasks(s, a, t, task);
    LeaseKeepsActors(s, a, t, task);
    hide TaskOk, LeaseOf, MovesLease, ActorsOk, CountsOk, TasksOk;
  }

  // ---------------------------------------------------------------- one lemma per step

  lemma RemoveKeeps(s: State, a: nat)
    requires Inv(s) && a < |s.actors| && (s.actors[a].stops >= 2 || !Live(s.actors[a]))
    ensures Inv(RemoveIfCurrent(s, a))
  {
    var u := RemoveIfCurrent(s, a);
    assert u.current.Keys <= s.current.Keys;
    FewerKeys(u.current, s.current);
    forall t | 0 <= t < |u.tasks|
      ensures TaskOk(u.actors, t, u.tasks[t])
    {
      assert TaskOk(s.actors, t, s.tasks[t]);
    }
    hide Holders, ActorOk;
  }

  lemma FewerKeys(m: map<string, nat>, n: map<string, nat>)
    requires m.Keys <= n.Keys
    ensures |m| <= |n|
  {
    if m.Keys != n.Keys {
      assert m.Keys + (n.Keys - m.Keys) == n.Keys;
    } else {
      assert |m.Keys| == |n.Keys|;
    }
  }

  /** Steps of `stop` on the actor itself: it drains, gets the Stop, or loses its join handle. */
  function StopStep(s: State, t: nat, b: Actor, task: Task): State
    requires t < |s.tasks| && s.tasks[t].Stopping? && s.tasks[t].a < |s.actors|
  {
    SetTask(SetActor(s, s.tasks[t].a, b), t, task)
  }

  lemma StopStepKeepsCounts(s: State, t: nat, b: Actor, task: Task)
    requires t < |s.tasks| && s.tasks[t].Stopping? && s.tasks[t].a < |s.actors| && task.Stopping?
    requires CountsOk(s) && b.leases == s.actors[s.tasks[t].a].leases
    ensures CountsOk(StopStep(s, t, b, task))
  {
    var u := StopStep(s, t, b, task);
    forall c | 0 <= c < |u.actors|
      ensures u.actors[c].leases == Holders(u.tasks, c)
    {
      HoldersUpdate(s.tasks, t, task, c);
    }
  }

  /** What such a step must not do to the other stoppers of the actor. */
  predicate Spares(s: State, t: nat, b: Actor)
    requires t < |s.tasks| && s.tasks[t].Stopping? && s.tasks[t].a < |s.actors|
  {
    var a := s.actors[s.tasks[t].a];
    && (Live(b) ==> Live(a)) && (b.watch.Opening? ==> a.watch.Opening?)
    && (b.stops >= 2 || a.stops == 0
        || (b.stops == a.stops && b.stopper == a.stopper && (b.handle == a.handle || a.stopper == t)))
    && a.stops <= b.stops
  }

  lemma StopStepKeepsTasks(s: State, t: nat, b: Actor, task: Task)
    requires t < |s.tasks| && s.tasks[t].Stopping? && s.tasks[t].a < |s.actors| && task.Stopping? && task.a == s.tasks[t].a
    requires TasksOk(s) && Spares(s, t, b) && TaskOk(StopStep(s, t, b, task).actors, t, task)
    ensures TasksOk(StopStep(s, t, b, task))
  {
    var u := StopStep(s, t, b, task);
    forall d | 0 <= d < |u.tasks|
      ensures ActorOf(u.tasks[d]) < |u.actors| && TaskOk(u.actors, d, u.tasks[d])
    {
      assert TaskOk(s.actors, d, s.tasks[d]);
    }
  }

  lemma StopStepKeeps(s: State, t: nat, b: Actor, task: Task)
    requires t < |s.tasks| && s.tasks[t].Stopping? && s.tasks[t].a < |s.actors| && task.Stopping? && task.a == s.tasks[t].a
    requires Inv(s) && Spares(s, t, b) && TaskOk(StopStep(s, t, b, task).actors, t, task)
    requires ActorOk(b) && b.key == s.actors[task.a].key && b.leases == s.actors[task.a].leases
    ensures Inv(StopStep(s, t, b, task))
  {
    StopStepKeepsCounts(s, t, b, task);
    StopStepKeepsTasks(s, t, b, task);
    hide TaskOk, TasksOk, CountsOk, ActorOk;
  }

  lemma StopKeeps(s: State, t: nat, raced: bool)
    requires Inv(s) && CanAdvance(s, t) && s.tasks[t].Stopping? && !s.tasks[t].stage.Join?
    ensures Inv(StopNext(s, t, s.tasks[t].a, s.tasks[t].stage, raced))
  {
    var a, stage := s.tasks[t].a, s.tasks[t].stage;
    var u := StopNext(s, t, a, stage, raced);
    assert ActorOk(s.actors[a]) && TaskOk(s.actors, t, s.tasks[t]);
    assert u.tasks[t].Stopping? && u == StopStep(s, t, u.actors[a], u.tasks[t]);
    hide Inv;
    StopIsSparing(s, t, raced);
    hide StopNext, ActorOk, TaskOk, Spares;
    StopStepKeeps(s, t, u.actors[a], u.tasks[t]);
  }

  lemma StopIsSparing(s: State, t: nat, raced: bool)
    requires t < |s.tasks| && s.tasks[t].Stopping? && s.tasks[t].a < |s.actors| && !s.tasks[t].stage.Join?
    requires ActorOk(s.actors[s.tasks[t].a]) && TaskOk(s.actors, t, s.tasks[t])
    ensures var a := s.tasks[t].a;
            var u := StopNext(s, t, a, s.tasks[t].stage, raced);
            && Spares(s, t, u.actors[a]) && TaskOk(u.actors, t, u.tasks[t]) && ActorOk(u.actors[a])
            && u.actors[a].key == s.actors[a].key && u.actors[a].leases == s.actors[a].leases
            && u.tasks[t].Stopping? && u.tasks[t].a == a
  {
  }

  lemma SpawnKeeps(s: State, t: nat, key: string, fingerprint: string)
    requires Inv(s) && t < |s.tasks| && s.tasks[t].Wanting? && key !in s.current && |s.current| < DEFAULT_MAX_ACTIVE_ACTORS
    ensures Inv(SetTask(s, t, AwaitReady(|s.actors|)).(actors := s.actors + [Spawned(key, fingerprint)],
                                                       current := s.current[key := |s.actors|]))
  {
    var n := |s.actors|;
    var u := SetTask(s, t, AwaitReady(n)).(actors := s.actors + [Spawned(key, fingerprint)], current := s.current[key := n]);
    SpawnCounts(s, t, Spawned(key, fingerprint));
    SpawnTasks(s, t, Spawned(key, fingerprint));
    SpawnMap(s, u, key, Spawned(key, fingerprint));
    hide TasksOk, CountsOk, MapOk, LiveOk;
  }

  lemma SpawnMap(s: State, u: State, key: string, actor: Actor)
    requires MapOk(s) && LiveOk(s) && key !in s.current && |s.current| < DEFAULT_MAX_ACTIVE_ACTORS && actor.key == key
    requires u.actors == s.actors + [actor] && u.current == s.current[key := |s.actors|]
    ensures MapOk(u) && LiveOk(u)
  {
    assert |u.current| == |s.current| + 1;
    hide Live;
  }

  lemma SpawnTasks(s: State, t: nat, actor: Actor)
    requires TasksOk(s) && t < |s.tasks|
    ensures TasksOk(SetTask(s, t, AwaitReady(|s.actors|)).(actors := s.actors + [actor]))
  {
    var u := SetTask(s, t, AwaitReady(|s.actors|)).(actors := s.actors + [actor]);
    forall d | 0 <= d < |u.tasks|
      ensures ActorOf(u.tasks[d]) < |u.actors| && TaskOk(u.actors, d, u.tasks[d])
    {
      assert TaskOk(s.actors, d, s.tasks[d]);
    }
  }

  lemma SpawnCounts(s: State, t: nat, actor: Actor)
    requires CountsOk(s) && t < |s.tasks| && s.tasks[t].Wanting? && actor.leases == 1
    requires forall d :: 0 <= d < |s.tasks| ==> ActorOf(s.tasks[d]) < |s.actors|
    ensures CountsOk(SetTask(s, t, AwaitReady(|s.actors|)).(actors := s.actors + [actor]))
  {
    var n := |s.actors|;
    forall d | 0 <= d < |s.tasks|
      ensures LeaseOf(s.tasks[d]) < n
    {
      assert ActorOf(s.tasks[d]) < n;
    }
    NobodyLeases(s.tasks, n);
    forall c | 0 <= c <= n
      ensures (s.actors + [actor])[c].leases == Holders(s.tasks[t := AwaitReady(n)], c)
    {
      HoldersUpdate(s.tasks, t, AwaitReady(n), c);
    }
  }

  lemma {:induction false} NobodyLeases(tasks: seq<Task>, a: nat)
    requires forall t :: 0 <= t < |tasks| ==> LeaseOf(tasks[t]) < a
    ensures Holders(tasks, a) == 0
    decreases |tasks|
  {
    if tasks != [] {
      NobodyLeases(tasks[..|tasks| - 1], a);
    }
  }

  /** `acquire` finds an actor under its key: a mismatch, a draining actor, or a lease. */
  lemma FoundKeeps(s: State, t: nat, spawns: bool)
    requires Inv(s) && t < |s.tasks| && s.tasks[t].Wanting? && s.tasks[t].key in s.current
    ensures Inv(AcquireSection(s, t, spawns))
  {
    var key, fingerprint := s.tasks[t].key, s.tasks[t].fingerprint;
    var a := s.current[key];
    var actor := s.actors[a];
    assert ActorOk(actor) && KnownCurrent(s);
    assert actor.evicted ==> IsDraining(actor.watch);
    hide Inv, MapOk, ActorOk, Live;
    if actor.fingerprint != fingerprint {
      TaskKeeps(s, t, Finished(Mismatch));
    } else if IsDraining(actor.watch) {
      TaskKeeps(s, t, AwaitClosed(a, key, fingerprint));
    } else {
      assert AcquireSection(s, t, spawns) == WithLease(s, a, t, AwaitReady(a));
      hide AcquireSection, WithLease;
      LeaseKeeps(s, a, t, AwaitReady(a));
    }
  }

  lemma NotFoundKeeps(s: State, t: nat, spawns: bool)
    requires Inv(s) && t < |s.tasks| && s.tasks[t].Wanting? && s.tasks[t].key !in s.current
    ensures Inv(AcquireSection(s, t, spawns))
  {
    assert KnownCurrent(s);
    hide Inv, MapOk;
    if |s.current| >= DEFAULT_MAX_ACTIVE_ACTORS {
      TaskKeeps(s, t, Finished(LimitExhausted));
    } else if !spawns {
      TaskKeeps(s, t, Finished(SpawnFailed));
    } else {
      SpawnKeeps(s, t, s.tasks[t].key, s.tasks[t].fingerprint);
    }
  }

  lemma AcquireKeeps(s: State, t: nat, spawns: bool)
    requires Inv(s) && t < |s.tasks| && s.tasks[t].Wanting?
    ensures KnownCurrent(s) && Inv(AcquireSection(s, t, spawns))
  {
    assert KnownCurrent(s);
    hide Inv, AcquireSection;
    if s.tasks[t].key in s.current {
      FoundKeeps(s, t, spawns);
    } else {
      NotFoundKeeps(s, t, spawns);
    }
  }

  lemma ForgetKeeps(s: State, t: nat, a: nat, task: Task)
    requires Inv(s) && t < |s.tasks| && a < |s.actors| && (s.actors[a].stops >= 2 || !Live(s.actors[a]))
    requires LeaseOf(s.tasks[t]) == -1 && (task.Wanting? || task.Finished?)
    ensures Inv(SetTask(RemoveIfCurrent(s, a), t, task))
  {
    RemoveKeeps(s, a);
    var u := RemoveIfCurrent(s, a);
    assert u.tasks == s.tasks && u.actors == s.actors;
    hide Inv, RemoveIfCurrent;
    TaskKeeps(u, t, task);
  }

  /** Steps that end a wait. */
  lemma WaitKeeps(s: State, t: nat)
    requires Inv(s) && CanAdvance(s, t)
    requires s.tasks[t].AwaitClosed? || s.tasks[t].AwaitReady? || (s.tasks[t].Stopping? && s.tasks[t].stage.Join?)
    ensures Inv(Advanced(s, t, false, false))
  {
    var task := s.tasks[t];
    var actor := s.actors[task.a];
    assert ActorOk(actor) && TaskOk(s.actors, t, task);
    hide Inv, ActorOk, Holders, StopNext, AcquireSection, RemoveIfCurrent;
    if task.AwaitClosed? {
      assert !Live(actor) by { WatchClosed(s, task.a); }
      TaskKeeps(s, t, Forgetting(task.a, task.key, task.fingerprint));
    } else if task.AwaitReady? {
      TaskKeeps(s, t, if actor.watch.Ready? then Leased(task.a) else GivingUp(task.a));
    } else {
      TaskKeeps(s, t, Removing(task.a));
    }
  }

  lemma WatchClosed(s: State, a: nat)
    requires Inv(s) && a < |s.actors| && s.actors[a].watch.Closed?
    ensures !Live(s.actors[a])
  {
    assert ActorOk(s.actors[a]);
    hide Holders, TaskOk;
  }

  lemma GiveBackKeeps(s: State, t: nat)
    requires Inv(s) && CanAdvance(s, t) && (s.tasks[t].Leased? || s.tasks[t].GivingUp?)
    ensures Inv(Advanced(s, t, false, false))
  {
    var a := s.tasks[t].a;
    var task := if s.tasks[t].Leased? then Finished(None) else Stopping(a, Drain);
    assert TaskOk(s.actors, t, s.tasks[t]);
    assert Advanced(s, t, false, false) == WithLease(s, a, t, task);
    hide Inv, Advanced, WithLease;
    LeaseKeeps(s, a, t, task);
  }

  lemma AdvanceKeeps(s: State, t: nat, raced: bool, spawns: bool)
    requires Inv(s) && CanAdvance(s, t)
    ensures Inv(Advanced(s, t, raced, spawns))
  {
    assert TaskOk(s.actors, t, s.tasks[t]);
    hide Inv, AcquireSection, StopNext, RemoveIfCurrent;
    match s.tasks[t] {
      case Wanting(_, _) => AcquireKeeps(s, t, spawns);
      case Forgetting(a, key, fingerprint) => ForgetKeeps(s, t, a, Wanting(key, fingerprint));
      case Removing(a) => ForgetKeeps(s, t, a, Finished(NotReady));
      case Stopping(a, stage) =>
        if stage.Join? {
          WaitKeeps(s, t);
        } else {
          StopKeeps(s, t, raced);
        }
      case Leased(_) => GiveBackKeeps(s, t);
      case GivingUp(_) => GiveBackKeeps(s, t);
      case _ => WaitKeeps(s, t);
    }
  }

  lemma EvictKeeps(s: State, a: nat, raced: bool)
    requires Inv(s) && Enabled(s, Evict(a, raced))
    ensures Inv(Next(s, Evict(a, raced)))
  {
    var b := BeginDraining(s.actors[a], raced).(evicted := true);
    assert ActorOk(s.actors[a]);
    EvictedAges(s.actors[a], raced);
    var u := SetActor(s, a, b);
    assert Next(s, Evict(a, raced)) == u.(tasks := u.tasks + [Stopping(a, Drain)]);
    hide Inv, BeginDraining, ActorOk, Ages;
    AgeKeeps(s, a, b);
    AddTaskKeeps(u, Stopping(a, Drain));
  }

  lemma EvictedAges(a: Actor, raced: bool)
    requires ActorOk(a) && a.leases == 0
    ensures var b := BeginDraining(a, raced).(evicted := true);
            ActorOk(b) && Ages(a, b) && b.leases == a.leases && !b.watch.Opening?
  {
  }

  lemma AddTaskKeeps(s: State, task: Task)
    requires Inv(s) && ActorOf(task) < |s.actors| && LeaseOf(task) == -1
    requires task.Wanting? || (task.Stopping? && task.stage.Drain? && !s.actors[task.a].watch.Opening?)
    ensures Inv(s.(tasks := s.tasks + [task]))
  {
    var u := s.(tasks := s.tasks + [task]);
    forall d | 0 <= d < |u.tasks|
      ensures ActorOf(u.tasks[d]) < |u.actors| && TaskOk(u.actors, d, u.tasks[d])
    {
      if d < |s.tasks| {
        assert TaskOk(s.actors, d, s.tasks[d]);
      }
    }
    forall c | 0 <= c < |u.actors|
      ensures u.actors[c].leases == Holders(u.tasks, c)
    {
      HoldersAppend(s.tasks, task, c);
    }
    hide TaskOk, Holders, ActorOk;
  }

  lemma WorkerAges(a: Actor, reported: bool)
    requires ActorOk(a)
    ensures ActorOk(Thriven(a)) && Ages(a, Thriven(a)) && Thriven(a).leases == a.leases
    ensures a.thread.Starting? || a.thread.Serving? ==>
              ActorOk(Crashed(a, reported)) && Ages(a, Crashed(a, reported)) && Crashed(a, reported).leases == a.leases
    ensures a.thread.Serving? ==> ActorOk(a.(thread := Leaving)) && Ages(a, a.(thread := Leaving))
  {
  }

  /** The invariant is inductive. */
  lemma StepKeeps(s: State, action: Action)
    requires Inv(s) && Enabled(s, action)
    ensures Inv(Next(s, action))
  {
    assert forall a: nat :: a < |s.actors| ==> ActorOk(s.actors[a]);
    hide Inv, Advanced, ActorOk, Thriven, Crashed, Ages;
    match action {
      case Arrive(key, fingerprint) => AddTaskKeeps(s, Wanting(key, fingerprint));
      case Advance(t, raced, spawns) => AdvanceKeeps(s, t, raced, spawns);
      case Evict(a, raced) => EvictKeeps(s, a, raced);
      case Thrive(a) =>
        WorkerAges(s.actors[a], false);
        AgeKeeps(s, a, Thriven(s.actors[a]));
      case Crash(a, reported) =>
        WorkerAges(s.actors[a], reported);
        AgeKeeps(s, a, Crashed(s.actors[a], reported));
      case HearStop(a) =>
        WorkerAges(s.actors[a], false);
        AgeKeeps(s, a, s.actors[a].(thread := Leaving));
    }
  }
}
