/**
 The registry as an object: its map, and the sections of its methods that run under its lock.  The
 object keeps the trace of the steps that happened to it, so that what holds over every run of the step
 system holds of the object.
 */
module RegistryCode {

  import opened Registry
  import opened RegistryRuns

  class ProjectRegistry {
    var current: map<string, nat>
    var actors: seq<Actor>
    var tasks: seq<Task>
    ghost var trace: seq<Action>

    ghost function View(): State
      reads this
    {
      State(current, actors, tasks)
    }

    ghost predicate Valid()
      reads this
    {
      Possible(INITIAL, trace) && After(INITIAL, trace) == View()
    }

    constructor ()
      ensures Valid() && View() == INITIAL
    {
      current, actors, tasks, trace := map[], [], [], [];
    }

    /** A step happened: the trace grows by it. */
    ghost method Log(before: State, action: Action)
      requires Possible(INITIAL, trace) && After(INITIAL, trace) == before
      requires Enabled(before, action) && View() == Next(before, action)
      modifies this`trace
      ensures Valid() && trace == old(trace) + [action]
    {
      Unfold(before, action, []);
      assert [action] + [] == [action];
      assert Possible(View(), []) && After(View(), []) == View();
      hide Enabled, Next;
      Chained(INITIAL, trace, [action]);
      trace := trace + [action];
    }

    lemma ValidMeansSafe()
      requires Valid()
      ensures Inv(View())
    {
      InitialKept();
      hide Inv;
      RunKeeps(INITIAL, trace);
    }

    /** The section of `acquire` under the lock, for one that wants a key. */
    method AcquireLocked(t: nat, spawns: bool)
      requires Valid() && t < |tasks| && tasks[t].Wanting?
      modifies this
      ensures Valid() && trace == old(trace) + [Advance(t, false, spawns)]
      ensures KnownCurrent(old(View())) && View() == AcquireSection(old(View()), t, spawns)
    {
      ghost var before := View();
      ValidMeansSafe();
      assert KnownCurrent(before) && CanAdvance(before, t);
      hide Inv, Possible, After;
      var key, fingerprint := tasks[t].key, tasks[t].fingerprint;
      if key in current {
        var a := current[key];
        if actors[a].fingerprint != fingerprint {
          tasks := tasks[t := Finished(Mismatch)];
        } else if IsDraining(actors[a].watch) {
          tasks := tasks[t := AwaitClosed(a, key, fingerprint)];
        } else {
          actors := actors[a := actors[a].(leases := actors[a].leases + 1)];
          tasks := tasks[t := AwaitReady(a)];
        }
      } else if |current| >= DEFAULT_MAX_ACTIVE_ACTORS {
        tasks := tasks[t := Finished(LimitExhausted)];
      } else if !spawns {
        tasks := tasks[t := Finished(SpawnFailed)];
      } else {
        var a := |actors|;
        actors := actors + [Spawned(key, fingerprint)];
        current := current[key := a];
        tasks := tasks[t := AwaitReady(a)];
      }
      Log(before, Advance(t, false, spawns));
    }

    /** `remove_if_current`, for a task that saw the actor closed or joined its worker. */
    method RemoveLocked(t: nat)
      requires Valid() && t < |tasks| && (tasks[t].Forgetting? || tasks[t].Removing?)
      modifies this
      ensures Valid() && trace == old(trace) + [Advance(t, false, false)]
      ensures CanAdvance(old(View()), t) && View() == Advanced(old(View()), t, false, false)
    {
      ghost var before := View();
      ValidMeansSafe();
      assert ActorOf(tasks[t]) < |actors| && KnownCurrent(before);
      hide Inv, Possible, After;
      var task := tasks[t];
      var key := actors[task.a].key;
      if key in current && current[key] == task.a {
        current := current - {key};
      }
      tasks := tasks[t := if task.Forgetting? then Wanting(task.key, task.fingerprint) else Finished(NotReady)];
      Log(before, Advance(t, false, false));
    }

    /** The section of `evict_idle` under the lock: it drains every actor of the map that is not leased
        and, by its work and its clock, idle.  Each goes to a stop of its own. */
    method EvictIdle(idle: set<nat>) returns (evicted: set<nat>)
      requires Valid()
      modifies this
      ensures Valid() && old(trace) <= trace && current == old(current) && |actors| == |old(actors)|
      ensures forall a: nat :: a in evicted <==> a < |actors| && Evictable(old(View()), idle, a)
      ensures forall a: nat :: a < |actors| ==>
                actors[a] == if a in evicted then Evicted(old(actors)[a]) else old(actors)[a]
    {
      evicted := {};
      ValidMeansSafe();
      ghost var s := View();
      assert MapOk(s);
      hide Valid, Inv, Evicted;
      var todo := current.Keys;
      while todo != {}
        invariant Valid() && old(trace) <= trace && current == s.current && |actors| == |s.actors|
        invariant todo <= current.Keys && s == old(View()) && MapOk(s) && Decided(s, idle, todo, evicted)
        invariant forall a: nat :: a < |actors| ==> actors[a] == if a in evicted then Evicted(s.actors[a]) else s.actors[a]
        decreases |todo|
      {
        var key :| key in todo;
        var a := current[key];
        DecideOne(s, idle, todo, evicted, key);
        hide Decided;
        todo := todo - {key};
        if a in idle && actors[a].leases == 0 {
          evicted := evicted + {a};
          Drain(a);
        }
      }
    }

    method Drain(a: nat)
      requires Valid() && a < |actors| && IsCurrent(View(), a) && actors[a].leases == 0
      modifies this
      ensures Valid() && trace == old(trace) + [Evict(a, false)] && current == old(current)
      ensures actors == old(actors)[a := Evicted(old(actors)[a])] && tasks == old(tasks) + [Stopping(a, StopStage.Drain)]
    {
      ghost var before := View();
      actors := actors[a := Evicted(actors[a])];
      tasks := tasks + [Stopping(a, StopStage.Drain)];
      hide Possible, After, BeginDraining;
      Log(before, Evict(a, false));
    }
  }

  predicate Evictable(s: State, idle: set<nat>, a: nat)
    requires a < |s.actors|
  {
    a in idle && IsCurrent(s, a) && s.actors[a].leases == 0
  }

  /** The evictable actors under the keys that are not to do any more. */
  ghost predicate Decided(s: State, idle: set<nat>, todo: set<string>, evicted: set<nat>)
  {
    forall a: nat :: a in evicted <==> a < |s.actors| && Evictable(s, idle, a) && s.actors[a].key !in todo
  }

  lemma DecideOne(s: State, idle: set<nat>, todo: set<string>, evicted: set<nat>, key: string)
    requires MapOk(s) && todo <= s.current.Keys && key in todo && Decided(s, idle, todo, evicted)
    ensures var a := s.current[key];
            && a !in evicted && IsCurrent(s, a)
            && Decided(s, idle, todo - {key}, if a in idle && s.actors[a].leases == 0 then evicted + {a} else evicted)
  {
  }

  function Evicted(a: Actor): Actor
  {
    BeginDraining(a, false).(evicted := true)
  }
}
