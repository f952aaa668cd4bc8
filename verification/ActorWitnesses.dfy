/** Two runs of the actor, step by step, that show what its theorems have to except. */
module ActorWitnesses {

  import opened Actor
  import opened ActorInvariant
  import opened ActorRuns

  predicate Leads(s: State, a: Action, t: State)
  {
    Enabled(s, a) && Next(s, a) == t
  }

  /** A run is put together from its end. */
  lemma StepBefore(acts: seq<Action>, n: nat, s: State, t: State)
    requires n < |acts| && Leads(s, acts[n], t) && Possible(t, acts[n + 1..])
    ensures Possible(s, acts[n..]) && After(s, acts[n..]) == After(t, acts[n + 1..])
  {
    assert acts[n..][1..] == acts[n + 1..];
  }

  lemma AtTheEnd(acts: seq<Action>, s: State)
    ensures Possible(s, acts[|acts|..]) && After(s, acts[|acts|..]) == s
    ensures acts[0..] == acts
  {
  }

  // ---------------------------------------------------------------- one call up to its place in the queue

  const FULL := Permit(true, true, true)
  const BYTES := Permit(false, true, true)

  /** The actor with a lone call of one byte that its caller has. */
  function Lone(phase: Phase, permit: Permit, lock: Lock): State
  {
    INITIAL.(lock := lock, projectBytes := if permit.project then 1 else 0, globalBytes := if permit.global then 1 else 0,
             pending := if permit.pending then 1 else 0,
             calls := [NewCall(1).(phase := phase, permit := permit, counted := permit.pending)])
  }

  const ONE_QUEUED: State :=
    Lone(Queued, FULL, Free).(queue := [Run(0)], calls := [NewCall(1).(phase := Queued, permit := FULL, counted := true, sent := true)])

  const ENQUEUING: seq<Action> := [Arrive(1), Caller(0, ReserveProject), Caller(0, ReserveGlobal), Caller(0, Admit), Caller(0, Send)]

  lemma StepArrive()
    ensures Leads(INITIAL, Arrive(1), Lone(Start, NO_PERMIT, Free))
  {
  }

  lemma StepReserveProject()
    ensures Leads(Lone(Start, NO_PERMIT, Free), Caller(0, ReserveProject), Lone(Half, Permit(false, true, false), Free))
  {
  }

  lemma StepReserveGlobal()
    ensures Leads(Lone(Half, Permit(false, true, false), Free), Caller(0, ReserveGlobal), Lone(Reserved, BYTES, Free))
  {
  }

  lemma StepAdmit()
    ensures Leads(Lone(Reserved, BYTES, Free), Caller(0, Admit), Lone(Admitting, FULL, ByCaller(0)))
  {
  }

  lemma StepSend()
    ensures Leads(Lone(Admitting, FULL, ByCaller(0)), Caller(0, Send), ONE_QUEUED)
  {
  }

  lemma Enqueuing()
    ensures Possible(INITIAL, ENQUEUING) && After(INITIAL, ENQUEUING) == ONE_QUEUED
  {
    hide Possible, After, Leads, Lone;
    AtTheEnd(ENQUEUING, ONE_QUEUED);
    StepSend();
    StepBefore(ENQUEUING, 4, Lone(Admitting, FULL, ByCaller(0)), ONE_QUEUED);
    StepAdmit();
    StepBefore(ENQUEUING, 3, Lone(Reserved, BYTES, Free), Lone(Admitting, FULL, ByCaller(0)));
    StepReserveGlobal();
    StepBefore(ENQUEUING, 2, Lone(Half, Permit(false, true, false), Free), Lone(Reserved, BYTES, Free));
    StepReserveProject();
    StepBefore(ENQUEUING, 1, Lone(Start, NO_PERMIT, Free), Lone(Half, Permit(false, true, false), Free));
    StepArrive();
    StepBefore(ENQUEUING, 0, INITIAL, Lone(Start, NO_PERMIT, Free));
  }

  // ---------------------------------------------------------------- the order of the reads

  const GOES_ON: Choice := Choice(false, true, false, false)
  const UNWINDS: Choice := Choice(false, true, false, true)

  /** The same call with the worker. */
  function Served(stage: Stage, permit: Permit): State
  {
    INITIAL.(projectBytes := if permit.project then 1 else 0, globalBytes := if permit.global then 1 else 0,
             pending := if permit.pending then 1 else 0,
             active := if stage == Took then 0 else 1, worker := WithCall(0),
             calls := [At(ONE_QUEUED.calls[0], stage).(permit := permit)])
  }

  const DEQUEUING: seq<Action> := [Work(GOES_ON), Work(GOES_ON), Work(GOES_ON)]

  lemma StepTake()
    ensures Leads(ONE_QUEUED, Work(GOES_ON), Served(Took, FULL))
  {
  }

  lemma StepCount()
    ensures Leads(Served(Took, FULL), Work(GOES_ON), Served(Releasing, FULL))
  {
  }

  lemma StepUncount()
    ensures Leads(Served(Releasing, FULL), Work(GOES_ON), Served(Releasing, BYTES))
  {
  }

  lemma Dequeuing()
    ensures Possible(ONE_QUEUED, DEQUEUING) && After(ONE_QUEUED, DEQUEUING) == Served(Releasing, BYTES)
  {
    hide Possible, After, Leads, Lone, Served;
    AtTheEnd(DEQUEUING, Served(Releasing, BYTES));
    StepUncount();
    StepBefore(DEQUEUING, 2, Served(Releasing, FULL), Served(Releasing, BYTES));
    StepCount();
    StepBefore(DEQUEUING, 1, Served(Took, FULL), Served(Releasing, FULL));
    StepTake();
    StepBefore(DEQUEUING, 0, ONE_QUEUED, Served(Took, FULL));
  }

  /** Why `has_work` reads `pending` first: on this run `active` is 0 before and `pending` is 0 after, and
      the call in between is yet to be executed. */
  lemma ReversedReadsMissWork()
    ensures Possible(INITIAL, ENQUEUING)
    ensures var s := After(INITIAL, ENQUEUING);
            && s.active == 0 && |s.calls| == 1 && s.calls[0].counted
            && Possible(s, DEQUEUING)
            && var t := After(s, DEQUEUING);
               t.pending == 0 && |t.calls| == 1 && !Finished(t.calls[0]) && t.calls[0].executions == 0
  {
    hide Possible, After, Next, Enabled;
    Enqueuing();
    Dequeuing();
  }

  // ---------------------------------------------------------------- a panic while a call is prepared

  const PREPARING: seq<Action> := [Work(GOES_ON), Work(GOES_ON), Work(GOES_ON), Work(GOES_ON), Work(GOES_ON), Work(UNWINDS)]

  /** The worker has left its loop, and the call it prepared is lost. */
  const UNWOUND: State :=
    INITIAL.(active := 1, leaked := 1, worker := Dying, panicked := true,
             calls := [ONE_QUEUED.calls[0].(phase := Lost, permit := NO_PERMIT)])

  lemma StepReleaseProject()
    ensures Leads(Served(Releasing, BYTES), Work(GOES_ON), Served(Releasing, Permit(false, false, true)))
  {
  }

  lemma StepReleaseGlobal()
    ensures Leads(Served(Releasing, Permit(false, false, true)), Work(GOES_ON), Served(Releasing, NO_PERMIT))
  {
  }

  lemma StepCheck()
    ensures Leads(Served(Releasing, NO_PERMIT), Work(GOES_ON), Served(Checking, NO_PERMIT))
    ensures Leads(Served(Checking, NO_PERMIT), Work(GOES_ON), Served(FirstClock, NO_PERMIT))
  {
  }

  lemma StepPrepare()
    ensures Leads(Served(FirstClock, NO_PERMIT), Work(GOES_ON), Served(Preparing, NO_PERMIT))
    ensures Leads(Served(Preparing, NO_PERMIT), Work(UNWINDS), UNWOUND)
  {
  }

  lemma Unwinding()
    ensures Possible(Served(Releasing, BYTES), PREPARING) && After(Served(Releasing, BYTES), PREPARING) == UNWOUND
  {
    hide Possible, After, Leads, Lone, Served;
    AtTheEnd(PREPARING, UNWOUND);
    StepPrepare();
    StepBefore(PREPARING, 5, Served(Preparing, NO_PERMIT), UNWOUND);
    StepBefore(PREPARING, 4, Served(FirstClock, NO_PERMIT), Served(Preparing, NO_PERMIT));
    StepCheck();
    StepBefore(PREPARING, 3, Served(Checking, NO_PERMIT), Served(FirstClock, NO_PERMIT));
    StepBefore(PREPARING, 2, Served(Releasing, NO_PERMIT), Served(Checking, NO_PERMIT));
    StepReleaseGlobal();
    StepBefore(PREPARING, 1, Served(Releasing, Permit(false, false, true)), Served(Releasing, NO_PERMIT));
    StepReleaseProject();
    StepBefore(PREPARING, 0, Served(Releasing, BYTES), Served(Releasing, Permit(false, false, true)));
  }

  /** A panic of the preparation, which nothing catches, takes the worker away from a call that it has
      counted: the call is lost unanswered, and the count of active commands never returns to zero. */
  lemma UncaughtPanicLeaks(later: seq<Action>)
    ensures Possible(INITIAL, ENQUEUING) && Possible(After(INITIAL, ENQUEUING), DEQUEUING)
    ensures var s := After(After(INITIAL, ENQUEUING), DEQUEUING);
            && Possible(s, PREPARING)
            && var t := After(s, PREPARING);
               && |t.calls| == 1 && t.calls[0].phase == Lost && t.calls[0].replies == 0
               && (Possible(t, later) ==> After(t, later).active > 0)
  {
    Enqueuing();
    Dequeuing();
    Unwinding();
    hide Possible, After, Next, Enabled, Inv;
    InitialKept();
    RunKeeps(INITIAL, ENQUEUING);
    RunKeeps(ONE_QUEUED, DEQUEUING);
    RunKeeps(Served(Releasing, BYTES), PREPARING);
    if Possible(UNWOUND, later) {
      LeakIsForEver(UNWOUND, later);
    }
  }
}
