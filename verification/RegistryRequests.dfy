/** What the registry's acquirers get, against what they asked for. */
module RegistryRequests {

  import opened Registry
  import opened RegistryRuns
  import opened Sequences
  import opened Wrappers

  // ---------------------------------------------------------------- the section under the lock

  /** The section of `acquire` under the lock, by its answers: a mismatch exactly for another
      configuration, a wait exactly for a draining actor of the same one, a lease exactly on an actor that is
      not draining or on a new one, and the two refusals exactly when there is no actor and no room or no
      thread.  A lease is on the actor that the map has for the key, which has the configuration asked for. */
  lemma AcquireAnswers(s: State, t: nat, spawns: bool)
    requires Inv(s) && t < |s.tasks| && s.tasks[t].Wanting? && KnownCurrent(s)
    ensures var key, fingerprint := s.tasks[t].key, s.tasks[t].fingerprint;
            var u := AcquireSection(s, t, spawns);
            && |u.tasks| == |s.tasks| && (forall d :: 0 <= d < |s.tasks| && d != t ==> u.tasks[d] == s.tasks[d])
            && (u.tasks[t] == Finished(Mismatch) <==> key in s.current && s.actors[s.current[key]].fingerprint != fingerprint)
            && (u.tasks[t].AwaitClosed? <==>
                  key in s.current && s.actors[s.current[key]].fingerprint == fingerprint && IsDraining(s.actors[s.current[key]].watch))
            && (u.tasks[t].AwaitClosed? ==> u.tasks[t] == AwaitClosed(s.current[key], key, fingerprint))
            && (u.tasks[t] == Finished(LimitExhausted) <==> key !in s.current && |s.current| >= DEFAULT_MAX_ACTIVE_ACTORS)
            && (u.tasks[t] == Finished(SpawnFailed) <==>
                  key !in s.current && |s.current| < DEFAULT_MAX_ACTIVE_ACTORS && !spawns)
            && (u.tasks[t].AwaitReady? <==>
                  if key in s.current then
                    s.actors[s.current[key]].fingerprint == fingerprint && !IsDraining(s.actors[s.current[key]].watch)
                  else |s.current| < DEFAULT_MAX_ACTIVE_ACTORS && spawns)
            && (u.tasks[t].AwaitReady? ==>
                  var a := u.tasks[t].a;
                  && a < |u.actors| && key in u.current && u.current[key] == a
                  && u.actors[a].key == key && u.actors[a].fingerprint == fingerprint
                  && u.actors[a].leases == 1 + (if a < |s.actors| then s.actors[a].leases else 0)
                  && (key in s.current <==> a < |s.actors|))
            && (!u.tasks[t].AwaitReady? ==> u.actors == s.actors && u.current == s.current)
  {
    assert MapOk(s);
    hide Inv;
  }

  // ---------------------------------------------------------------- requests over runs

  datatype Request = Request(key: string, fingerprint: string)

  /** What each task was started for: an acquirer's request, or the eviction of an actor. */
  function Requests(run: seq<Action>): seq<Option<Request>>
  {
    if run == [] then []
    else
      (match run[0]
       case Arrive(key, fingerprint) => [Some(Request(key, fingerprint))]
       case Evict(_, _) => [Option.None]
       case _ => [])
      + Requests(run[1..])
  }

  predicate Identity(a: Actor, b: Actor)
  {
    b.key == a.key && b.fingerprint == a.fingerprint
  }

  /** The task is about what was asked for. */
  predicate Fits(actors: seq<Actor>, task: Task, request: Option<Request>)
    requires ActorOf(task) < |actors|
  {
    match task
    case Wanting(key, fingerprint) => request == Some(Request(key, fingerprint))
    case AwaitClosed(a, key, fingerprint) => request == Some(Request(key, fingerprint)) && Asked(actors[a], request)
    case Forgetting(a, key, fingerprint) => request == Some(Request(key, fingerprint)) && Asked(actors[a], request)
    case AwaitReady(a) => Asked(actors[a], request)
    case Leased(a) => Asked(actors[a], request)
    case GivingUp(a) => Asked(actors[a], request)
    case _ => true
  }

  predicate Asked(a: Actor, request: Option<Request>)
  {
    request == Some(Request(a.key, a.fingerprint))
  }

  ghost predicate AllFit(s: State, requests: seq<Option<Request>>)
  {
    && |requests| == |s.tasks|
    && (forall t :: 0 <= t < |s.tasks| ==> ActorOf(s.tasks[t]) < |s.actors| && Fits(s.actors, s.tasks[t], requests[t]))
  }

  /** The actors keep their identity, and at most task `t` changes. */
  ghost predicate OnlyTask(s: State, u: State, t: nat)
  {
    && t < |s.tasks| == |u.tasks| && |s.actors| <= |u.actors|
    && (forall a :: 0 <= a < |s.actors| ==> Identity(s.actors[a], u.actors[a]))
    && (forall d :: 0 <= d < |s.tasks| && d != t ==> u.tasks[d] == s.tasks[d])
  }

  lemma OnlyTaskFits(s: State, u: State, t: nat, requests: seq<Option<Request>>)
    requires AllFit(s, requests) && OnlyTask(s, u, t)
    requires ActorOf(u.tasks[t]) < |u.actors| && Fits(u.actors, u.tasks[t], requests[t])
    ensures AllFit(u, requests)
  {
    forall d | 0 <= d < |u.tasks|
      ensures ActorOf(u.tasks[d]) < |u.actors| && Fits(u.actors, u.tasks[d], requests[d])
    {
      if d != t {
        assert Fits(s.actors, s.tasks[d], requests[d]);
      }
    }
  }

  lemma AcquireFits(s: State, t: nat, spawns: bool, requests: seq<Option<Request>>)
    requires Inv(s) && AllFit(s, requests) && t < |s.tasks| && s.tasks[t].Wanting? && KnownCurrent(s)
    ensures AllFit(AcquireSection(s, t, spawns), requests)
  {
    var u := AcquireSection(s, t, spawns);
    AcquireAnswers(s, t, spawns);
    assert Fits(s.actors, s.tasks[t], requests[t]);
    assert MapOk(s);
    assert OnlyTask(s, u, t);
    hide Inv, AcquireSection, IsDraining;
    OnlyTaskFits(s, u, t, requests);
  }

  lemma AdvanceFits(s: State, t: nat, raced: bool, spawns: bool, requests: seq<Option<Request>>)
    requires Inv(s) && AllFit(s, requests) && CanAdvance(s, t)
    ensures AllFit(Advanced(s, t, raced, spawns), requests)
  {
    assert Fits(s.actors, s.tasks[t], requests[t]);
    hide Inv, AcquireSection;
    if s.tasks[t].Wanting? {
      AcquireFits(s, t, spawns, requests);
    } else if s.tasks[t].Stopping? {
      StopIsOnlyTask(s, t, raced);
      OnlyTaskFits(s, Advanced(s, t, raced, spawns), t, requests);
    } else {
      WaitIsOnlyTask(s, t, raced, spawns, requests[t]);
      OnlyTaskFits(s, Advanced(s, t, raced, spawns), t, requests);
    }
    hide AllFit, OnlyTask, Advanced, StopNext;
  }

  lemma WaitIsOnlyTask(s: State, t: nat, raced: bool, spawns: bool, request: Option<Request>)
    requires CanAdvance(s, t) && !s.tasks[t].Wanting? && !s.tasks[t].Stopping? && Fits(s.actors, s.tasks[t], request)
    ensures var u := Advanced(s, t, raced, spawns);
            OnlyTask(s, u, t) && ActorOf(u.tasks[t]) < |u.actors| && Fits(u.actors, u.tasks[t], request)
  {
    hide AcquireSection, StopNext;
  }

  lemma StopIsOnlyTask(s: State, t: nat, raced: bool)
    requires t < |s.tasks| && s.tasks[t].Stopping? && s.tasks[t].a < |s.actors|
    ensures var u := StopNext(s, t, s.tasks[t].a, s.tasks[t].stage, raced);
            OnlyTask(s, u, t) && ActorOf(u.tasks[t]) < |u.actors| && (u.tasks[t].Stopping? || u.tasks[t].Removing?)
  {
  }

  lemma ActorStepFits(s: State, a: nat, b: Actor, requests: seq<Option<Request>>)
    requires AllFit(s, requests) && a < |s.actors| && Identity(s.actors[a], b)
    ensures AllFit(SetActor(s, a, b), requests)
  {
    var u := SetActor(s, a, b);
    forall t | 0 <= t < |s.tasks|
      ensures ActorOf(u.tasks[t]) < |u.actors| && Fits(u.actors, u.tasks[t], requests[t])
    {
      assert Fits(s.actors, s.tasks[t], requests[t]);
    }
  }

  lemma TaskAddedFits(s: State, task: Task, request: Option<Request>, requests: seq<Option<Request>>)
    requires AllFit(s, requests) && ActorOf(task) < |s.actors| && Fits(s.actors, task, request)
    ensures AllFit(s.(tasks := s.tasks + [task]), requests + [request])
  {
    var u := s.(tasks := s.tasks + [task]);
    forall t | 0 <= t < |u.tasks|
      ensures ActorOf(u.tasks[t]) < |u.actors| && Fits(u.actors, u.tasks[t], (requests + [request])[t])
    {
      if t < |s.tasks| {
        assert Fits(s.actors, s.tasks[t], requests[t]);
      }
    }
  }

  lemma SameIdentity(a: Actor, raced: bool, reported: bool)
    ensures Identity(a, BeginDraining(a, raced).(evicted := true)) && Identity(a, Thriven(a))
    ensures Identity(a, Crashed(a, reported)) && Identity(a, a.(thread := Leaving))
  {
  }

  /** The requests that a step adds. */
  lemma StepFits(s: State, action: Action, requests: seq<Option<Request>>)
    requires Inv(s) && Enabled(s, action) && AllFit(s, requests)
    ensures AllFit(Next(s, action), requests + Requests([action]))
  {
    assert [action][1..] == [] && requests + [] == requests;
    hide Inv, Advanced, AllFit, BeginDraining, Thriven, Crashed, Identity;
    match action {
      case Arrive(key, fingerprint) =>
        TaskAddedFits(s, Wanting(key, fingerprint), Some(Request(key, fingerprint)), requests);
      case Advance(t, raced, spawns) => AdvanceFits(s, t, raced, spawns, requests);
      case Evict(a, raced) =>
        SameIdentity(s.actors[a], raced, false);
        var b := BeginDraining(s.actors[a], raced).(evicted := true);
        ActorStepFits(s, a, b, requests);
        TaskAddedFits(SetActor(s, a, b), Stopping(a, Drain), Option.None, requests);
      case Thrive(a) =>
        SameIdentity(s.actors[a], false, false);
        ActorStepFits(s, a, Thriven(s.actors[a]), requests);
      case Crash(a, reported) =>
        SameIdentity(s.actors[a], false, reported);
        ActorStepFits(s, a, Crashed(s.actors[a], reported), requests);
      case HearStop(a) =>
        SameIdentity(s.actors[a], false, false);
        ActorStepFits(s, a, s.actors[a].(thread := Leaving), requests);
    }
  }

  lemma RequestsUnfold(run: seq<Action>)
    requires run != []
    ensures Requests(run) == Requests([run[0]]) + Requests(run[1..])
  {
    assert [run[0]][1..] == [];
    var first := match run[0]
                 case Arrive(key, fingerprint) => [Some(Request(key, fingerprint))]
                 case Evict(_, _) => [Option.None]
                 case _ => [];
    assert first + [] == first;
  }

  lemma {:induction false} RunFits(s: State, run: seq<Action>, requests: seq<Option<Request>>)
    requires Inv(s) && Possible(s, run) && AllFit(s, requests)
    ensures AllFit(After(s, run), requests + Requests(run))
    decreases |run|
  {
    if run == [] {
      assert requests + [] == requests;
    } else {
      StepKeeps(s, run[0]);
      StepFits(s, run[0], requests);
      hide Inv, Enabled, Next, AllFit, Requests;
      RequestsUnfold(run);
      RunFits(Next(s, run[0]), run[1..], requests + Requests([run[0]]));
      ConcatAssociates(requests, Requests([run[0]]), Requests(run[1..]));
    }
  }

  /** Over every run, a task holds a lease only on an actor with the key and the configuration that it asked
      for. */
  lemma LeasesAreAskedFor(run: seq<Action>, t: nat, a: nat)
    requires Possible(INITIAL, run) && t < |After(INITIAL, run).tasks| && LeaseOf(After(INITIAL, run).tasks[t]) == a
    ensures var s := After(INITIAL, run);
            && t < |Requests(run)| && a < |s.actors|
            && Requests(run)[t] == Some(Request(s.actors[a].key, s.actors[a].fingerprint))
  {
    InitialKept();
    assert AllFit(INITIAL, []);
    hide Inv, Possible, After, Requests;
    RunFits(INITIAL, run, []);
    assert [] + Requests(run) == Requests(run);
    var s := After(INITIAL, run);
    assert Fits(s.actors, s.tasks[t], Requests(run)[t]);
  }

  // ---------------------------------------------------------------- what became of an acquirer

  /** An acquirer that has the lease of an actor goes on only like this: it waits, serves and is finished, or
      gives the lease back, stops the actor and removes it, and only then fails. */
  predicate OnItsWay(s: State, t: nat, a: nat)
  {
    && t < |s.tasks| && a < |s.actors|
    && match s.tasks[t]
       case AwaitReady(b) => b == a
       case Leased(b) => b == a && !s.actors[a].watch.Opening?
       case GivingUp(b) => b == a
       case Stopping(b, stage) => b == a && StopSeen(s.actors[a], stage)
       case Removing(b) => b == a && !s.actors[a].accepting && s.actors[a].stopQueued
       case Finished(refusal) => refusal == Refusal.None || (refusal == NotReady && !IsCurrent(s, a) && !s.actors[a].accepting)
       case _ => false
  }

  /** How far `stop` has come with the actor. */
  predicate StopSeen(a: Actor, stage: StopStage)
  {
    && (!stage.Drain? ==> !a.accepting)
    && (stage.Take? || stage.Join? ==> a.stopQueued)
  }

  /** What no step undoes. */
  ghost predicate Onward(s: State, u: State)
  {
    && |s.actors| <= |u.actors| && |s.tasks| <= |u.tasks|
    && (forall a: nat :: a < |s.actors| ==>
          && u.actors[a].key == s.actors[a].key
          && (!s.actors[a].accepting ==> !u.actors[a].accepting)
          && (s.actors[a].stopQueued ==> u.actors[a].stopQueued)
          && (!s.actors[a].watch.Opening? ==> !u.actors[a].watch.Opening?)
          && (!IsCurrent(s, a) ==> !IsCurrent(u, a)))
  }

  /** The actor's own steps. */
  predicate Older(a: Actor, b: Actor)
  {
    && b.key == a.key && (!a.accepting ==> !b.accepting) && (a.stopQueued ==> b.stopQueued)
    && (!a.watch.Opening? ==> !b.watch.Opening?)
  }

  lemma OlderIsOnward(s: State, a: nat, b: Actor)
    requires a < |s.actors| && Older(s.actors[a], b)
    ensures Onward(s, SetActor(s, a, b))
  {
  }

  lemma OnwardToItself(s: State)
    ensures Onward(s, s)
  {
  }

  lemma AddedTaskIsOnward(s: State, u: State, task: Task)
    requires Onward(s, u)
    ensures Onward(s, u.(tasks := u.tasks + [task]))
  {
  }

  lemma ActorsAge(a: Actor, raced: bool, reported: bool)
    requires ActorOk(a)
    ensures Older(a, BeginDraining(a, raced).(evicted := true)) && Older(a, Thriven(a))
    ensures Older(a, Crashed(a, reported)) && Older(a, a.(thread := Leaving))
  {
  }

  lemma StepIsOnward(s: State, action: Action)
    requires Inv(s) && Enabled(s, action)
    ensures Onward(s, Next(s, action))
  {
    assert MapOk(s);
    assert forall a: nat :: a < |s.actors| ==> ActorOk(s.actors[a]);
    hide Inv, Advanced, BeginDraining, Thriven, Crashed, Older, ActorOk, Onward, MapOk;
    match action {
      case Arrive(key, fingerprint) =>
        OnwardToItself(s);
        AddedTaskIsOnward(s, s, Wanting(key, fingerprint));
      case Advance(t, raced, spawns) =>
        AdvanceIsOnward(s, t, raced, spawns);
      case Evict(a, raced) =>
        ActorsAge(s.actors[a], raced, false);
        var b := BeginDraining(s.actors[a], raced).(evicted := true);
        OlderIsOnward(s, a, b);
        AddedTaskIsOnward(s, SetActor(s, a, b), Stopping(a, Drain));
      case Thrive(a) =>
        ActorsAge(s.actors[a], false, false);
        OlderIsOnward(s, a, Thriven(s.actors[a]));
      case Crash(a, reported) =>
        ActorsAge(s.actors[a], false, reported);
        OlderIsOnward(s, a, Crashed(s.actors[a], reported));
      case HearStop(a) =>
        ActorsAge(s.actors[a], false, false);
        OlderIsOnward(s, a, s.actors[a].(thread := Leaving));
    }
  }

  lemma AdvanceIsOnward(s: State, t: nat, raced: bool, spawns: bool)
    requires MapOk(s) && CanAdvance(s, t) && forall a: nat :: a < |s.actors| ==> ActorOk(s.actors[a])
    ensures Onward(s, Advanced(s, t, raced, spawns))
  {
    hide ActorOk, StopNext, AcquireSection, Onward, MapOk, RemoveIfCurrent, Older;
    OnwardToItself(s);
    match s.tasks[t] {
      case Wanting(_, _) => AcquireIsOnward(s, t, spawns);
      case Stopping(_, _) => StopIsOnward(s, t, raced);
      case AwaitClosed(a, key, fingerprint) => SetTaskIsOnward(s, s, t, Forgetting(a, key, fingerprint));
      case AwaitReady(a) => SetTaskIsOnward(s, s, t, if s.actors[a].watch.Ready? then Leased(a) else GivingUp(a));
      case Forgetting(a, key, fingerprint) =>
        RemovalIsOnward(s, a);
        SetTaskIsOnward(s, RemoveIfCurrent(s, a), t, Wanting(key, fingerprint));
      case Removing(a) =>
        RemovalIsOnward(s, a);
        SetTaskIsOnward(s, RemoveIfCurrent(s, a), t, Finished(NotReady));
      case Leased(a) =>
        ReleasedIsOlder(s.actors[a]);
        OlderIsOnward(s, a, Released(s.actors[a]));
        SetTaskIsOnward(s, SetActor(s, a, Released(s.actors[a])), t, Finished(Refusal.None));
      case GivingUp(a) =>
        ReleasedIsOlder(s.actors[a]);
        OlderIsOnward(s, a, Released(s.actors[a]));
        SetTaskIsOnward(s, SetActor(s, a, Released(s.actors[a])), t, Stopping(a, Drain));
    }
  }

  lemma ReleasedIsOlder(a: Actor)
    ensures Older(a, Released(a))
  {
  }

  lemma SetTaskIsOnward(s: State, u: State, t: nat, task: Task)
    requires Onward(s, u) && t < |u.tasks|
    ensures Onward(s, SetTask(u, t, task))
  {
  }

  lemma RemovalIsOnward(s: State, a: nat)
    requires a < |s.actors|
    ensures Onward(s, RemoveIfCurrent(s, a)) && RemoveIfCurrent(s, a).tasks == s.tasks
  {
  }

  lemma AcquireIsOnward(s: State, t: nat, spawns: bool)
    requires MapOk(s) && t < |s.tasks| && s.tasks[t].Wanting?
    ensures Onward(s, AcquireSection(s, t, spawns))
  {
  }

  lemma StopIsOnward(s: State, t: nat, raced: bool)
    requires CanAdvance(s, t) && s.tasks[t].Stopping?
    ensures Onward(s, StopNext(s, t, s.tasks[t].a, s.tasks[t].stage, raced))
  {
  }

  lemma OthersStayOnTheirWay(s: State, u: State, t: nat, a: nat)
    requires Onward(s, u) && OnItsWay(s, t, a) && u.tasks[t] == s.tasks[t]
    ensures OnItsWay(u, t, a)
  {
  }

  lemma OwnStepStaysOnItsWay(s: State, t: nat, a: nat, raced: bool, spawns: bool)
    requires Inv(s) && CanAdvance(s, t) && OnItsWay(s, t, a)
    ensures OnItsWay(Advanced(s, t, raced, spawns), t, a)
  {
    assert ActorOk(s.actors[a]) && ActorOf(s.tasks[t]) < |s.actors|;
    hide Inv, AcquireSection;
    if s.tasks[t].Stopping? {
      StopStaysOnItsWay(s, t, a, raced);
      hide StopNext, OnItsWay;
    } else {
      hide StopNext, BeginDraining;
    }
  }

  lemma StopStaysOnItsWay(s: State, t: nat, a: nat, raced: bool)
    requires CanAdvance(s, t) && OnItsWay(s, t, a) && s.tasks[t].Stopping?
    ensures OnItsWay(StopNext(s, t, s.tasks[t].a, s.tasks[t].stage, raced), t, a)
  {
  }

  lemma StepStaysOnItsWay(s: State, action: Action, t: nat, a: nat)
    requires Inv(s) && Enabled(s, action) && OnItsWay(s, t, a)
    ensures OnItsWay(Next(s, action), t, a)
  {
    if action.Advance? && action.t == t {
      OwnStepStaysOnItsWay(s, t, a, action.raced, action.spawns);
    } else {
      StepIsOnward(s, action);
      OtherTasksStay(s, action, t);
      OthersStayOnTheirWay(s, Next(s, action), t, a);
    }
    hide Inv, Advanced, OnItsWay, Onward;
  }

  lemma OtherTasksStay(s: State, action: Action, t: nat)
    requires Inv(s) && Enabled(s, action) && t < |s.tasks| && !(action.Advance? && action.t == t)
    ensures t < |Next(s, action).tasks| && Next(s, action).tasks[t] == s.tasks[t]
  {
    hide Inv;
  }

  lemma {:induction false} RunStaysOnItsWay(s: State, run: seq<Action>, t: nat, a: nat)
    requires Inv(s) && Possible(s, run) && OnItsWay(s, t, a)
    ensures OnItsWay(After(s, run), t, a)
    decreases |run|
  {
    if run != [] {
      StepKeeps(s, run[0]);
      StepStaysOnItsWay(s, run[0], t, a);
      hide Inv, Enabled, Next, OnItsWay;
      RunStaysOnItsWay(Next(s, run[0]), run[1..], t, a);
    }
  }

  /** What becomes of an acquirer that waits for its actor to be ready, over every later run: it is served
      only once the actor is open no more, and it fails only after it has drained the actor, sent it a Stop and
      taken it from the map, where it never is again. */
  lemma AcquirerIsServedOrCleansUp(before: seq<Action>, t: nat, later: seq<Action>)
    requires Possible(INITIAL, before) && t < |After(INITIAL, before).tasks| && After(INITIAL, before).tasks[t].AwaitReady?
    requires Possible(After(INITIAL, before), later)
    ensures var s := After(INITIAL, before);
            OnItsWay(After(s, later), t, s.tasks[t].a)
  {
    InitialKept();
    hide Inv, Possible, After;
    RunKeeps(INITIAL, before);
    var s := After(INITIAL, before);
    assert ActorOf(s.tasks[t]) < |s.actors| by { KnownActor(s, t); }
    RunStaysOnItsWay(s, later, t, s.tasks[t].a);
  }

  lemma KnownActor(s: State, t: nat)
    requires Inv(s) && t < |s.tasks|
    ensures ActorOf(s.tasks[t]) < |s.actors|
  {
  }

  /** The wait ends with the lease exactly if the actor is ready. */
  lemma ReadyIsLeased(s: State, t: nat, raced: bool, spawns: bool)
    requires CanAdvance(s, t) && s.tasks[t].AwaitReady?
    ensures var u := Advanced(s, t, raced, spawns);
            && (u.tasks[t].Leased? <==> s.actors[s.tasks[t].a].watch.Ready?)
            && (u.tasks[t].GivingUp? <==> !s.actors[s.tasks[t].a].watch.Ready?)
            && u.actors == s.actors && u.current == s.current
  {
  }

  // ---------------------------------------------------------------- the worker's last words

  /** A worker starts, serves until it hears a Stop or panics, and then goes by itself: it drops its service, says
      that it is closed, and exits.  It says so only after the service is gone, and a panic is reported as a
      failure only from an operation. */
  lemma WorkerLife(s: State, a: nat, reported: bool)
    requires a < |s.actors|
    ensures var w := s.actors[a];
            && Enabled(s, Thrive(a)) && Next(s, Thrive(a)).actors[a] == Thriven(w)
            && (w.thread.Starting? ==> Thriven(w) == w.(thread := Serving, watch := Ready))
            && (w.thread.Serving? ==> Thriven(w) == w)
            && (w.thread.Leaving? ==> Thriven(Thriven(Thriven(w))) == w.(thread := Gone, watch := Closed))
            && (!w.watch.Closed? && Thriven(w).watch.Closed? ==> !Live(w))
            && !Crashed(w, reported).thread.Starting? && !Crashed(w, reported).thread.Serving?
            && (Crashed(w, reported).watch == if w.thread.Serving? && reported then Failed else w.watch)
  {
  }

  /** Whoever waits for a worker that has exited finds the actor closed, or draining when the drain overwrote it. */
  predicate SpokeLast(a: Actor)
  {
    a.thread.Announced? || a.thread.Gone? ==> a.watch.Closed? || (a.watch.Draining? && !a.accepting)
  }

  ghost predicate AllSpokeLast(s: State)
  {
    forall a :: 0 <= a < |s.actors| ==> SpokeLast(s.actors[a])
  }

  lemma SpeakingStep(a: Actor, raced: bool, reported: bool)
    requires SpokeLast(a)
    ensures SpokeLast(BeginDraining(a, raced)) && SpokeLast(BeginDraining(a, raced).(evicted := true)) && SpokeLast(Thriven(a))
    ensures a.thread.Starting? || a.thread.Serving? ==> SpokeLast(Crashed(a, reported)) && SpokeLast(a.(thread := Leaving))
  {
  }

  lemma SpokenStep(s: State, action: Action)
    requires Inv(s) && Enabled(s, action) && AllSpokeLast(s)
    ensures AllSpokeLast(Next(s, action))
  {
    hide Inv, SpokeLast, BeginDraining, Thriven, Crashed, Advanced;
    match action {
      case Advance(t, raced, spawns) => AdvanceSpeaks(s, t, raced, spawns);
      case Evict(a, raced) => SpeakingStep(s.actors[a], raced, false);
      case Thrive(a) => SpeakingStep(s.actors[a], false, false);
      case Crash(a, reported) => SpeakingStep(s.actors[a], false, reported);
      case HearStop(a) => SpeakingStep(s.actors[a], false, false);
      case Arrive(_, _) =>
    }
  }

  lemma AdvanceSpeaks(s: State, t: nat, raced: bool, spawns: bool)
    requires CanAdvance(s, t) && AllSpokeLast(s)
    ensures AllSpokeLast(Advanced(s, t, raced, spawns))
  {
    hide SpokeLast, BeginDraining, StopNext, AcquireSection;
    match s.tasks[t] {
      case Wanting(_, _) => AcquireSpeaks(s, t, spawns);
      case Stopping(_, _) => StopSpeaks(s, t, raced);
      case Leased(a) => ReleaseSpeaks(s.actors[a]);
      case GivingUp(a) => ReleaseSpeaks(s.actors[a]);
      case _ =>
    }
  }

  lemma ReleaseSpeaks(a: Actor)
    requires SpokeLast(a)
    ensures SpokeLast(Released(a))
  {
  }

  lemma AcquireSpeaks(s: State, t: nat, spawns: bool)
    requires t < |s.tasks| && s.tasks[t].Wanting? && KnownCurrent(s) && AllSpokeLast(s)
    ensures AllSpokeLast(AcquireSection(s, t, spawns))
  {
  }

  lemma StopSpeaks(s: State, t: nat, raced: bool)
    requires CanAdvance(s, t) && s.tasks[t].Stopping? && AllSpokeLast(s)
    ensures AllSpokeLast(StopNext(s, t, s.tasks[t].a, s.tasks[t].stage, raced))
  {
    SpeakingStep(s.actors[s.tasks[t].a], raced, false);
    hide BeginDraining;
  }

  lemma {:induction false} SpokenOnRun(s: State, run: seq<Action>)
    requires Inv(s) && Possible(s, run) && AllSpokeLast(s)
    ensures AllSpokeLast(After(s, run))
    decreases |run|
  {
    if run != [] {
      StepKeeps(s, run[0]);
      SpokenStep(s, run[0]);
      hide Inv, Enabled, Next, AllSpokeLast;
      SpokenOnRun(Next(s, run[0]), run[1..]);
    }
  }

  /** On every run, an actor whose worker has exited does not look ready or opening: nobody waits for a word that
      will not come, except behind a drain that overwrote it. */
  lemma ExitedWorkersHaveSpoken(run: seq<Action>, a: nat)
    requires Possible(INITIAL, run) && a < |After(INITIAL, run).actors| && After(INITIAL, run).actors[a].thread.Gone?
    ensures var actor := After(INITIAL, run).actors[a]; actor.watch.Closed? || (actor.watch.Draining? && !actor.accepting)
  {
    InitialKept();
    assert AllSpokeLast(INITIAL);
    hide Inv, Possible, After;
    SpokenOnRun(INITIAL, run);
  }
}
