/** What holds over whole runs of the registry, under every interleaving of its parties. */
module RegistryRuns {

  import opened Registry

  predicate Possible(s: State, run: seq<Action>)
    decreases |run|
  {
    run == [] || (Enabled(s, run[0]) && Possible(Next(s, run[0]), run[1..]))
  }

  function After(s: State, run: seq<Action>): State
    requires Possible(s, run)
    decreases |run|
  {
    if run == [] then s else After(Next(s, run[0]), run[1..])
  }

  lemma {:induction false} RunKeeps(s: State, run: seq<Action>)
    requires Inv(s) && Possible(s, run)
    ensures Inv(After(s, run))
    decreases |run|
  {
    if run != [] {
      StepKeeps(s, run[0]);
      hide Inv, Enabled, Next;
      RunKeeps(Next(s, run[0]), run[1..]);
    }
  }

  /** The registry is safe in every reachable state: it never holds more actors than its limit, an actor
      drained by eviction is not leased and never will be, lease counts are the leases held, and no two
      live workers share a store, as long as no actor was told to stop twice. */
  lemma RegistryIsSafe(run: seq<Action>)
    requires Possible(INITIAL, run)
    ensures var s := After(INITIAL, run);
            && |s.current| <= DEFAULT_MAX_ACTIVE_ACTORS
            && (forall a: nat :: a < |s.actors| ==> s.actors[a].leases == Holders(s.tasks, a))
            && (forall a: nat :: a < |s.actors| && s.actors[a].evicted ==> IsDraining(s.actors[a].watch) && s.actors[a].leases == 0)
            && (forall a: nat, b: nat ::
                  a < |s.actors| && b < |s.actors| && a != b && s.actors[a].key == s.actors[b].key
                  && Live(s.actors[a]) && Live(s.actors[b])
                  ==> s.actors[a].stops >= 2 || s.actors[b].stops >= 2)
  {
    InitialKept();
    RunKeeps(INITIAL, run);
    var s := After(INITIAL, run);
    hide Possible, After, TaskOk;
    forall a: nat | a < |s.actors|
      ensures s.actors[a].leases == Holders(s.tasks, a)
      ensures s.actors[a].evicted ==> IsDraining(s.actors[a].watch) && s.actors[a].leases == 0
    {
      assert ActorOk(s.actors[a]);
    }
  }

  lemma EvictionStays(s: State, action: Action, a: nat)
    requires Inv(s) && Enabled(s, action) && a < |s.actors| && s.actors[a].evicted
    ensures a < |Next(s, action).actors| && Next(s, action).actors[a].evicted
  {
    hide Inv, Thriven, IsDraining;
    if action.Thrive? {
      ThrivingIsNotEviction(s.actors[action.a]);
    }
  }

  lemma ThrivingIsNotEviction(a: Actor)
    ensures Thriven(a).evicted == a.evicted
  {
  }

  lemma {:induction false} EvictionStaysOnRun(s: State, run: seq<Action>, a: nat)
    requires Inv(s) && Possible(s, run) && a < |s.actors| && s.actors[a].evicted
    ensures var t := After(s, run); a < |t.actors| && t.actors[a].evicted
    decreases |run|
  {
    if run != [] {
      EvictionStays(s, run[0], a);
      StepKeeps(s, run[0]);
      hide Inv, Enabled, Next;
      EvictionStaysOnRun(Next(s, run[0]), run[1..], a);
    }
  }

  lemma {:induction false} NoHolder(tasks: seq<Task>, a: nat, t: nat)
    requires Holders(tasks, a) == 0 && t < |tasks|
    ensures LeaseOf(tasks[t]) != a
    decreases |tasks|
  {
    if t < |tasks| - 1 {
      NoHolder(tasks[..|tasks| - 1], a, t);
    }
  }

  /** An actor that the evictor drains is leased by nobody, and no later acquirer gets a lease on it. */
  lemma EvictionIsFinal(before: seq<Action>, a: nat, raced: bool, later: seq<Action>, t: nat)
    requires Possible(INITIAL, before)
    requires var s := After(INITIAL, before);
             && Enabled(s, Evict(a, raced)) && Possible(Next(s, Evict(a, raced)), later)
             && t < |After(Next(s, Evict(a, raced)), later).tasks|
    ensures LeaseOf(After(Next(After(INITIAL, before), Evict(a, raced)), later).tasks[t]) != a
  {
    InitialKept();
    RunKeeps(INITIAL, before);
    var s := After(INITIAL, before);
    StepKeeps(s, Evict(a, raced));
    var u := Next(s, Evict(a, raced));
    assert a < |u.actors| && u.actors[a].evicted;
    hide Possible, After, Next, Enabled, TaskOk;
    EvictionStaysOnRun(u, later, a);
    RunKeeps(u, later);
    var v := After(u, later);
    assert ActorOk(v.actors[a]);
    hide Inv, ActorOk;
    assert v.actors[a].leases == Holders(v.tasks, a) by { CountOfRun(v, a); }
    NoHolder(v.tasks, a, t);
  }

  lemma CountOfRun(s: State, a: nat)
    requires Inv(s) && a < |s.actors|
    ensures s.actors[a].leases == Holders(s.tasks, a) && (s.actors[a].evicted ==> s.actors[a].leases == 0)
  {
    assert ActorOk(s.actors[a]);
    hide TaskOk, Holders;
  }

  // ---------------------------------------------------------------- runs put together

  lemma Unfold(s: State, action: Action, rest: seq<Action>)
    requires Enabled(s, action)
    ensures Possible(s, [action] + rest) <==> Possible(Next(s, action), rest)
    ensures Possible(Next(s, action), rest) ==> After(s, [action] + rest) == After(Next(s, action), rest)
  {
    assert ([action] + rest)[1..] == rest;
  }

  lemma {:induction false} Chained(s: State, xs: seq<Action>, ys: seq<Action>)
    requires Possible(s, xs) && Possible(After(s, xs), ys)
    ensures Possible(s, xs + ys) && After(s, xs + ys) == After(After(s, xs), ys)
    decreases |xs|
  {
    if xs == [] {
      assert xs + ys == ys;
    } else {
      Chained(Next(s, xs[0]), xs[1..], ys);
      assert (xs + ys)[1..] == xs[1..] + ys;
    }
  }

  // ---------------------------------------------------------------- two live workers on one store

  /** A task is about to give a key away although the key's actor still has its store. */
  predicate Breaks(s: State, t: nat)
  {
    && t < |s.tasks| && s.tasks[t].Removing? && s.tasks[t].a < |s.actors|
    && Live(s.actors[s.tasks[t].a]) && IsCurrent(s, s.tasks[t].a)
  }

  ghost predicate AllCurrent(s: State)
  {
    forall a :: 0 <= a < |s.actors| && Live(s.actors[a]) ==> IsCurrent(s, a)
  }

  ghost predicate TwoLive(s: State, a: nat, b: nat)
  {
    && a < |s.actors| && b < |s.actors| && a != b && s.actors[a].key == s.actors[b].key
    && Live(s.actors[a]) && Live(s.actors[b])
  }

  lemma RemovalKeepsCurrent(s: State, a: nat)
    requires AllCurrent(s) && a < |s.actors| && !(Live(s.actors[a]) && IsCurrent(s, a))
    ensures AllCurrent(RemoveIfCurrent(s, a))
  {
  }

  lemma AcquireKeepsCurrent(s: State, t: nat, spawns: bool)
    requires MapOk(s) && AllCurrent(s) && t < |s.tasks| && s.tasks[t].Wanting?
    ensures AllCurrent(AcquireSection(s, t, spawns))
  {
  }

  /** The map stays, and no actor comes to life. */
  lemma AgeingKeepsCurrent(s: State, u: State)
    requires AllCurrent(s) && u.current == s.current && |u.actors| == |s.actors|
    requires forall a :: 0 <= a < |s.actors| ==>
               u.actors[a].key == s.actors[a].key && (Live(u.actors[a]) ==> Live(s.actors[a]))
    ensures AllCurrent(u)
  {
  }

  lemma StopKeepsCurrent(s: State, t: nat, raced: bool)
    requires AllCurrent(s) && CanAdvance(s, t) && s.tasks[t].Stopping?
    ensures AllCurrent(StopNext(s, t, s.tasks[t].a, s.tasks[t].stage, raced))
  {
    AgeingKeepsCurrent(s, StopNext(s, t, s.tasks[t].a, s.tasks[t].stage, raced));
  }

  lemma AdvanceKeepsCurrent(s: State, t: nat, raced: bool, spawns: bool)
    requires Inv(s) && AllCurrent(s) && CanAdvance(s, t) && !Breaks(s, t)
    ensures AllCurrent(Advanced(s, t, raced, spawns))
  {
    assert TaskOk(s.actors, t, s.tasks[t]);
    hide Inv, RemoveIfCurrent, AcquireSection, StopNext;
    match s.tasks[t] {
      case Wanting(_, _) =>
        assert MapOk(s) by { MapOfInv(s); }
        AcquireKeepsCurrent(s, t, spawns);
      case Forgetting(a, _, _) => RemovalKeepsCurrent(s, a);
      case Removing(a) => RemovalKeepsCurrent(s, a);
      case Stopping(_, _) => StopKeepsCurrent(s, t, raced);
      case AwaitClosed(_, _, _) => AgeingKeepsCurrent(s, Advanced(s, t, raced, spawns));
      case AwaitReady(_) => AgeingKeepsCurrent(s, Advanced(s, t, raced, spawns));
      case Leased(_) => AgeingKeepsCurrent(s, Advanced(s, t, raced, spawns));
      case GivingUp(_) => AgeingKeepsCurrent(s, Advanced(s, t, raced, spawns));
    }
    hide TaskOk;
  }

  lemma MapOfInv(s: State)
    requires Inv(s)
    ensures MapOk(s)
  {
  }

  lemma StepKeepsCurrent(s: State, action: Action)
    requires Inv(s) && AllCurrent(s) && Enabled(s, action) && forall t: nat :: !Breaks(s, t)
    ensures AllCurrent(Next(s, action))
  {
    hide Inv, Advanced, IsDraining;
    if action.Advance? {
      AdvanceKeepsCurrent(s, action.t, action.raced, action.spawns);
    } else {
      AgeingKeepsCurrent(s, Next(s, action));
    }
  }

  /** The first state of the run that breaks; all states before the last are looked at. */
  lemma {:induction false} FirstBreak(s: State, run: seq<Action>) returns (n: nat, t: nat)
    requires Inv(s) && AllCurrent(s) && Possible(s, run) && !AllCurrent(After(s, run))
    ensures n < |run| && Possible(s, run[..n]) && Breaks(After(s, run[..n]), t)
    decreases |run|
  {
    if u: nat :| Breaks(s, u) {
      n, t := 0, u;
    } else {
      StepKeepsCurrent(s, run[0]);
      StepKeeps(s, run[0]);
      n, t := FirstBreak(Next(s, run[0]), run[1..]);
      hide Inv, AllCurrent, Breaks, Next, Enabled;
      n := n + 1;
      assert run[..n][1..] == run[1..][..n - 1];
    }
  }

  /** A store has two live workers only after an earlier state of the run that breaks. */
  lemma TwoLiveNeedABreak(run: seq<Action>, a: nat, b: nat) returns (n: nat, t: nat)
    requires Possible(INITIAL, run) && TwoLive(After(INITIAL, run), a, b)
    ensures n < |run| && Possible(INITIAL, run[..n]) && Breaks(After(INITIAL, run[..n]), t)
  {
    InitialKept();
    assert AllCurrent(INITIAL);
    hide Inv, Possible, After;
    assert !AllCurrent(After(INITIAL, run));
    n, t := FirstBreak(INITIAL, run);
  }

  lemma OneFewer(m: map<string, nat>, key: string)
    requires key in m
    ensures |m - {key}| == |m| - 1
  {
    assert m.Keys == (m - {key}).Keys + {key};
  }

  /** And every state that breaks leads there: the key is given away, asked for, and spawned again. */
  lemma BreakLeadsToTwoLive(before: seq<Action>, t: nat) returns (later: seq<Action>)
    requires Possible(INITIAL, before) && Breaks(After(INITIAL, before), t)
    ensures var s := After(INITIAL, before);
            Possible(s, later) && TwoLive(After(s, later), s.tasks[t].a, |s.actors|)
  {
    InitialKept();
    RunKeeps(INITIAL, before);
    hide Possible, After;
    later := BreakLeadsOn(After(INITIAL, before), t);
  }

  lemma BreakLeadsOn(s: State, t: nat) returns (later: seq<Action>)
    requires Inv(s) && Breaks(s, t)
    ensures Possible(s, later) && TwoLive(After(s, later), s.tasks[t].a, |s.actors|)
  {
    var a := s.tasks[t].a;
    var key := s.actors[a].key;
    var n := |s.tasks|;
    var s1 := SetTask(RemoveIfCurrent(s, a), t, Finished(NotReady));
    var s2 := s1.(tasks := s1.tasks + [Wanting(key, "")]);
    OneFewer(s.current, key);
    RemovingIsEnabled(s, t);
    var s3 := AcquireSection(s2, n, true);
    assert s3.actors == s.actors + [Spawned(key, "")];
    assert Enabled(s1, Arrive(key, "")) && Next(s1, Arrive(key, "")) == s2;
    assert Enabled(s2, Advance(n, false, true)) && Next(s2, Advance(n, false, true)) == s3;
    assert Possible(s3, []) && After(s3, []) == s3;
    later := [Advance(t, false, true)] + ([Arrive(key, "")] + ([Advance(n, false, true)] + []));
    hide Inv, Enabled, Next, Possible, After, AcquireSection, RemoveIfCurrent;
    Unfold(s2, Advance(n, false, true), []);
    Unfold(s1, Arrive(key, ""), [Advance(n, false, true)] + []);
    Unfold(s, Advance(t, false, true), [Arrive(key, "")] + ([Advance(n, false, true)] + []));
  }

  lemma RemovingIsEnabled(s: State, t: nat)
    requires Inv(s) && t < |s.tasks| && s.tasks[t].Removing?
    ensures Enabled(s, Advance(t, false, true))
    ensures var u := SetTask(RemoveIfCurrent(s, s.tasks[t].a), t, Finished(NotReady));
            Next(s, Advance(t, false, true)) == u && KnownCurrent(u)
  {
    assert ActorOf(s.tasks[t]) < |s.actors|;
    hide TaskOk, ActorOk, Holders;
  }

  /** A break needs two calls of `stop` on the actor, of which the second found no join handle. */
  lemma BreakNeedsTwoStops(run: seq<Action>, t: nat)
    requires Possible(INITIAL, run) && Breaks(After(INITIAL, run), t)
    ensures var s := After(INITIAL, run); s.actors[s.tasks[t].a].stops >= 2
  {
    InitialKept();
    RunKeeps(INITIAL, run);
    hide Possible, After;
    var s := After(INITIAL, run);
    assert TaskOk(s.actors, t, s.tasks[t]);
    hide Inv;
  }
}
