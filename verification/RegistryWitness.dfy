/**
 A run of the registry, step by step, on which a store gets two live workers: two acquirers of an actor
 that fails both call `stop`, and the second finds no join handle.
 */
module RegistryWitness {

  import opened Registry
  import opened RegistryRuns

  function Go(t: nat): Action
  {
    Advance(t, false, true)
  }

  function Pair(a: Actor, first: Task, second: Task): State
  {
    State(map["k" := 0], [a], [first, second])
  }

  const WANTING := Wanting("k", "f")
  const A_NEW := Spawned("k", "f")
  const A_SERVING := Actor("k", "f", Ready, true, 2, Serving, false, true, 0, -1, false)
  const A_FAILED := A_SERVING.(watch := Failed, thread := Leaving)
  const A_DRAINED := A_FAILED.(leases := 1, accepting := false, stops := 1, stopper := 0)
  const A_STOPPED := A_DRAINED.(stopQueued := true, handle := false)
  const A_TWICE := A_STOPPED.(leases := 0, stops := 2)

  const RUN: seq<Action> := [
    Arrive("k", "f"), Arrive("k", "f"), Go(0), Go(1), Thrive(0), Crash(0, true), Go(0), Go(1),
    Go(0), Go(0), Go(0), Go(0), Go(1), Go(1), Go(1), Go(1), Go(1)]

  /** The states of the run. */
  function StateAt(n: nat): State
  {
    match n
    case 0 => INITIAL
    case 1 => State(map[], [], [WANTING])
    case 2 => State(map[], [], [WANTING, WANTING])
    case 3 => Pair(A_NEW, AwaitReady(0), WANTING)
    case 4 => Pair(A_NEW.(leases := 2), AwaitReady(0), AwaitReady(0))
    case 5 => Pair(A_SERVING, AwaitReady(0), AwaitReady(0))
    case 6 => Pair(A_FAILED, AwaitReady(0), AwaitReady(0))
    case 7 => Pair(A_FAILED, GivingUp(0), AwaitReady(0))
    case 8 => Pair(A_FAILED, GivingUp(0), GivingUp(0))
    case 9 => Pair(A_FAILED.(leases := 1), Stopping(0, Drain), GivingUp(0))
    case 10 => Pair(A_DRAINED, Stopping(0, Send), GivingUp(0))
    case 11 => Pair(A_DRAINED.(stopQueued := true), Stopping(0, Take), GivingUp(0))
    case 12 => Pair(A_STOPPED, Stopping(0, Join(true)), GivingUp(0))
    case 13 => Pair(A_STOPPED.(leases := 0), Stopping(0, Join(true)), Stopping(0, Drain))
    case 14 => Pair(A_TWICE, Stopping(0, Join(true)), Stopping(0, Send))
    case 15 => Pair(A_TWICE, Stopping(0, Join(true)), Stopping(0, Take))
    case 16 => Pair(A_TWICE, Stopping(0, Join(true)), Stopping(0, Join(false)))
    case _ => Pair(A_TWICE, Stopping(0, Join(true)), Removing(0))
  }

  predicate Leads(s: State, action: Action, u: State)
  {
    Enabled(s, action) && Next(s, action) == u
  }

  lemma Step0()
    ensures Leads(INITIAL, Arrive("k", "f"), State(map[], [], [WANTING]))
  {
  }

  lemma Step1()
    ensures Leads(State(map[], [], [WANTING]), Arrive("k", "f"), State(map[], [], [WANTING, WANTING]))
  {
  }

  lemma Step2()
    ensures Leads(State(map[], [], [WANTING, WANTING]), Go(0), Pair(A_NEW, AwaitReady(0), WANTING))
  {
  }

  lemma Step3()
    ensures Leads(Pair(A_NEW, AwaitReady(0), WANTING), Go(1), Pair(A_NEW.(leases := 2), AwaitReady(0), AwaitReady(0)))
  {
  }

  lemma Step4()
    ensures Leads(Pair(A_NEW.(leases := 2), AwaitReady(0), AwaitReady(0)), Thrive(0), Pair(A_SERVING, AwaitReady(0), AwaitReady(0)))
  {
  }

  lemma Step5()
    ensures Leads(Pair(A_SERVING, AwaitReady(0), AwaitReady(0)), Crash(0, true), Pair(A_FAILED, AwaitReady(0), AwaitReady(0)))
  {
  }

  lemma Step6()
    ensures Leads(Pair(A_FAILED, AwaitReady(0), AwaitReady(0)), Go(0), Pair(A_FAILED, GivingUp(0), AwaitReady(0)))
  {
  }

  lemma Step7()
    ensures Leads(Pair(A_FAILED, GivingUp(0), AwaitReady(0)), Go(1), Pair(A_FAILED, GivingUp(0), GivingUp(0)))
  {
  }

  lemma Step8()
    ensures Leads(Pair(A_FAILED, GivingUp(0), GivingUp(0)), Go(0), Pair(A_FAILED.(leases := 1), Stopping(0, Drain), GivingUp(0)))
  {
  }

  lemma Step9()
    ensures Leads(Pair(A_FAILED.(leases := 1), Stopping(0, Drain), GivingUp(0)), Go(0), Pair(A_DRAINED, Stopping(0, Send), GivingUp(0)))
  {
  }

  lemma Step10()
    ensures Leads(Pair(A_DRAINED, Stopping(0, Send), GivingUp(0)), Go(0), Pair(A_DRAINED.(stopQueued := true), Stopping(0, Take), GivingUp(0)))
  {
  }

  lemma Step11()
    ensures Leads(Pair(A_DRAINED.(stopQueued := true), Stopping(0, Take), GivingUp(0)), Go(0), Pair(A_STOPPED, Stopping(0, Join(true)), GivingUp(0)))
  {
  }

  lemma Step12()
    ensures Leads(Pair(A_STOPPED, Stopping(0, Join(true)), GivingUp(0)), Go(1), Pair(A_STOPPED.(leases := 0), Stopping(0, Join(true)), Stopping(0, Drain)))
  {
  }

  lemma Step13()
    ensures Leads(Pair(A_STOPPED.(leases := 0), Stopping(0, Join(true)), Stopping(0, Drain)), Go(1), Pair(A_TWICE, Stopping(0, Join(true)), Stopping(0, Send)))
  {
  }

  lemma Step14()
    ensures Leads(Pair(A_TWICE, Stopping(0, Join(true)), Stopping(0, Send)), Go(1), Pair(A_TWICE, Stopping(0, Join(true)), Stopping(0, Take)))
  {
  }

  lemma Step15()
    ensures Leads(Pair(A_TWICE, Stopping(0, Join(true)), Stopping(0, Take)), Go(1), Pair(A_TWICE, Stopping(0, Join(true)), Stopping(0, Join(false))))
  {
  }

  lemma Step16()
    ensures Leads(Pair(A_TWICE, Stopping(0, Join(true)), Stopping(0, Join(false))), Go(1), Pair(A_TWICE, Stopping(0, Join(true)), Removing(0)))
  {
  }

  lemma Steps(n: nat)
    requires n < |RUN|
    ensures Leads(StateAt(n), RUN[n], StateAt(n + 1))
  {
    hide Leads, Pair;
    match n {
      case 0 => Step0();
      case 1 => Step1();
      case 2 => Step2();
      case 3 => Step3();
      case 4 => Step4();
      case 5 => Step5();
      case 6 => Step6();
      case 7 => Step7();
      case 8 => Step8();
      case 9 => Step9();
      case 10 => Step10();
      case 11 => Step11();
      case 12 => Step12();
      case 13 => Step13();
      case 14 => Step14();
      case 15 => Step15();
      case 16 => Step16();
    }
  }

  lemma {:induction false} RunFrom(n: nat)
    requires n <= |RUN|
    ensures Possible(StateAt(n), RUN[n..]) && After(StateAt(n), RUN[n..]) == StateAt(|RUN|)
    decreases |RUN| - n
  {
    hide StateAt;
    if n < |RUN| {
      Steps(n);
      RunFrom(n + 1);
      assert RUN[n..][1..] == RUN[n + 1..];
      hide Enabled, Next;
    }
  }

  lemma RunEnds()
    ensures Possible(INITIAL, RUN) && After(INITIAL, RUN) == StateAt(|RUN|)
  {
    assert RUN[0..] == RUN && StateAt(0) == INITIAL;
    hide *;
    RunFrom(0);
  }

  lemma LastBreaks()
    ensures Breaks(StateAt(|RUN|), 1) && StateAt(|RUN|).tasks[1].a == 0 && |StateAt(|RUN|).actors| == 1
  {
  }

  /** The premise is needed: when two acquirers of a failed actor both call `stop`, the second is about
      to give the store's key away while the old worker still has the store, and from there the store
      gets a second worker. */
  lemma TwoStoppersTwoWorkers() returns (later: seq<Action>)
    ensures Possible(INITIAL, RUN) && Breaks(After(INITIAL, RUN), 1)
    ensures Possible(After(INITIAL, RUN), later) && TwoLive(After(After(INITIAL, RUN), later), 0, 1)
  {
    hide *;
    RunEnds();
    LastBreaks();
    later := BreakLeadsToTwoLive(RUN, 1);
  }
}
