/**
 Why a call gets the answer it gets.  For every decision of the worker, what it means for the call on every
 later run; and for every answer, the step of the run that it stands for.
 */
module ActorAnswers {

  import opened Actor
  import opened ActorInvariant
  import opened ActorRuns

  // ---------------------------------------------------------------- decisions and what follows from them

  /** The worker is about to make this step with the call. */
  predicate AtStage(s: State, c: nat, stage: Stage)
  {
    s.worker == WithCall(c) && c < |s.calls| && s.calls[c].phase == Held(stage)
  }

  predicate Rejected(k: Call, answer: Answer)
  {
    k.executions == 0 && (k.phase == Held(Rejecting(answer)) || k.phase == Answered(answer))
  }

  /** Not executed, and if answered then with the deadline. */
  predicate OutOfTime(k: Call)
  {
    Rejected(k, DeadlineExceeded) || (k.executions == 0 && k.phase == Held(Expiring))
  }

  /** Not executed, and if answered then with the failed set-up or, when a canceller was first, with that. */
  predicate NotSetUp(k: Call)
  {
    Rejected(k, SetUpFailed) || Rejected(k, WasCancelled) || (k.executions == 0 && k.phase == Held(PrepareFailed))
  }

  predicate TurnedAway(k: Call)
  {
    Rejected(k, WasCancelled)
  }

  /** Executed with this result, and if answered then with it. */
  predicate Executed(k: Call, panics: bool)
  {
    match k.phase
    case Held(Finishing(p)) => p == panics
    case Held(Completing(p)) => p == panics
    case Held(Replying(p)) => p == panics
    case Answered(answer) => answer == if panics then Panicked else Handled
    case _ => false
  }

  /** Past the last check: it runs, or it ran. */
  predicate Started(k: Call)
  {
    k.phase == Held(Running) || Executed(k, true) || Executed(k, false)
  }

  /** Nothing but the worker moves a call that it has, or that is answered. */
  lemma OnlyWorkMovesIt(k: Call, after: Call)
    requires Evolves(k, after) && (k.phase.Held? || k.phase.Answered?)
    ensures (after.phase == k.phase && after.executions == k.executions)
            || (k.phase.Held? && exists choice :: after == Worked(k, choice).call)
  {
    hide Moved, Worked;
  }

  lemma OutOfTimeWork(k: Call, choice: Choice)
    requires k.phase.Held? && OutOfTime(k)
    ensures OutOfTime(Worked(k, choice).call)
  {
    WorkedParts(k, choice);
    hide Worked;
  }

  lemma OutOfTimeStays(k: Call, after: Call)
    requires OutOfTime(k) && Evolves(k, after)
    ensures OutOfTime(after)
  {
    OnlyWorkMovesIt(k, after);
    hide Evolves, Worked;
    if after.phase != k.phase || after.executions != k.executions {
      var choice :| after == Worked(k, choice).call;
      OutOfTimeWork(k, choice);
    }
  }

  lemma NotSetUpWork(k: Call, choice: Choice)
    requires k.phase.Held? && NotSetUp(k)
    ensures NotSetUp(Worked(k, choice).call)
  {
    WorkedParts(k, choice);
    hide Worked;
  }

  lemma NotSetUpStays(k: Call, after: Call)
    requires NotSetUp(k) && Evolves(k, after)
    ensures NotSetUp(after)
  {
    OnlyWorkMovesIt(k, after);
    hide Evolves, Worked;
    if after.phase != k.phase || after.executions != k.executions {
      var choice :| after == Worked(k, choice).call;
      NotSetUpWork(k, choice);
    }
  }

  lemma TurnedAwayWork(k: Call, choice: Choice)
    requires k.phase.Held? && TurnedAway(k)
    ensures TurnedAway(Worked(k, choice).call)
  {
    WorkedParts(k, choice);
    hide Worked;
  }

  lemma TurnedAwayStays(k: Call, after: Call)
    requires TurnedAway(k) && Evolves(k, after)
    ensures TurnedAway(after)
  {
    OnlyWorkMovesIt(k, after);
    hide Evolves, Worked;
    if after.phase != k.phase || after.executions != k.executions {
      var choice :| after == Worked(k, choice).call;
      TurnedAwayWork(k, choice);
    }
  }

  lemma ExecutedWork(k: Call, choice: Choice, panics: bool)
    requires k.phase.Held? && Executed(k, panics)
    ensures Executed(Worked(k, choice).call, panics)
  {
    WorkedParts(k, choice);
    hide Worked;
  }

  lemma ExecutedStays(k: Call, after: Call, panics: bool)
    requires Executed(k, panics) && Evolves(k, after)
    ensures Executed(after, panics)
  {
    OnlyWorkMovesIt(k, after);
    hide Evolves, Worked;
    if after.phase != k.phase || after.executions != k.executions {
      var choice :| after == Worked(k, choice).call;
      ExecutedWork(k, choice, panics);
    }
  }

  lemma StartedWork(k: Call, choice: Choice)
    requires k.phase.Held? && Started(k)
    ensures Started(Worked(k, choice).call)
  {
    WorkedParts(k, choice);
    hide Worked;
  }

  lemma StartedStays(k: Call, after: Call)
    requires Started(k) && Evolves(k, after)
    ensures Started(after)
  {
    OnlyWorkMovesIt(k, after);
    hide Evolves, Worked;
    if after.phase != k.phase || after.executions != k.executions {
      var choice :| after == Worked(k, choice).call;
      StartedWork(k, choice);
    }
  }

  /** The call right after the worker's step, in a state that keeps the invariant. */
  lemma DecisionStep(before: seq<Action>, c: nat, stage: Stage, choice: Choice)
    requires Possible(INITIAL, before) && AtStage(After(INITIAL, before), c, stage)
    ensures var s := After(INITIAL, before);
            && Enabled(s, Work(choice)) && Inv(s) && Inv(Next(s, Work(choice))) && LifeOk(s.calls[c])
            && c < |Next(s, Work(choice)).calls|
            && Next(s, Work(choice)).calls[c] == Worked(s.calls[c], choice).call
  {
    Reached(before);
    var s := After(INITIAL, before);
    hide Possible, After;
    assert LifeOk(s.calls[c]) && PlaceOk(s, c);
    StepKeeps(s, Work(choice));
    WorkEffect(s, c, choice);
    hide Inv, CallNext, Worked;
  }

  /** A deadline that has passed at either look at the clock: over every later run the call is not
      executed, and its answer, if it has one, is the deadline. */
  lemma DeadlineEndsTheCall(before: seq<Action>, c: nat, stage: Stage, choice: Choice, later: seq<Action>)
    requires Possible(INITIAL, before) && AtStage(After(INITIAL, before), c, stage)
    requires (stage == FirstClock || stage == SecondClock) && choice.expired
    requires Enabled(After(INITIAL, before), Work(choice)) && Possible(Next(After(INITIAL, before), Work(choice)), later)
    ensures var t := After(Next(After(INITIAL, before), Work(choice)), later);
            c < |t.calls| && OutOfTime(t.calls[c])
  {
    DecisionStep(before, c, stage, choice);
    var s := After(INITIAL, before);
    assert OutOfTime(Worked(s.calls[c], choice).call);
    hide Possible, After, Inv, Next, Enabled, Worked, Evolves, LifeOk, OutOfTime;
    forall k, after | LifeOk(k) && OutOfTime(k) && Evolves(k, after)
      ensures OutOfTime(after)
    {
      OutOfTimeStays(k, after);
    }
    StaysTrue(Next(s, Work(choice)), later, c, OutOfTime);
  }

  /** A set-up that has failed: over every later run the call is not executed, and its answer is the failed
      set-up or, if a canceller was first, the cancellation. */
  lemma FailedSetUpEndsTheCall(before: seq<Action>, c: nat, choice: Choice, later: seq<Action>)
    requires Possible(INITIAL, before) && AtStage(After(INITIAL, before), c, Preparing)
    requires !choice.prepared && !choice.unwinds
    requires Enabled(After(INITIAL, before), Work(choice)) && Possible(Next(After(INITIAL, before), Work(choice)), later)
    ensures var t := After(Next(After(INITIAL, before), Work(choice)), later);
            c < |t.calls| && NotSetUp(t.calls[c])
  {
    DecisionStep(before, c, Preparing, choice);
    var s := After(INITIAL, before);
    assert NotSetUp(Worked(s.calls[c], choice).call);
    hide Possible, After, Inv, Next, Enabled, Worked, Evolves, LifeOk, NotSetUp;
    forall k, after | LifeOk(k) && NotSetUp(k) && Evolves(k, after)
      ensures NotSetUp(after)
    {
      NotSetUpStays(k, after);
    }
    StaysTrue(Next(s, Work(choice)), later, c, NotSetUp);
  }

  /** A call that the worker finds cancelled, at its first check or at its last: over every later run it is
      not executed, and its answer is the cancellation, whatever the clock and the engine would say. */
  lemma FoundCancelledEndsTheCall(before: seq<Action>, c: nat, stage: Stage, choice: Choice, later: seq<Action>)
    requires Possible(INITIAL, before) && AtStage(After(INITIAL, before), c, stage)
    requires (stage == Checking || stage == Starting) && After(INITIAL, before).calls[c].cell != QUEUED
    requires Enabled(After(INITIAL, before), Work(choice)) && Possible(Next(After(INITIAL, before), Work(choice)), later)
    ensures var t := After(Next(After(INITIAL, before), Work(choice)), later);
            c < |t.calls| && TurnedAway(t.calls[c])
  {
    DecisionStep(before, c, stage, choice);
    var s := After(INITIAL, before);
    assert TurnedAway(Worked(s.calls[c], choice).call);
    hide Possible, After, Inv, Next, Enabled, Worked, Evolves, LifeOk, TurnedAway;
    forall k, after | LifeOk(k) && TurnedAway(k) && Evolves(k, after)
      ensures TurnedAway(after)
    {
      TurnedAwayStays(k, after);
    }
    StaysTrue(Next(s, Work(choice)), later, c, TurnedAway);
  }

  /** A call that passes the last check: over every later run it runs or ran, and is never rejected. */
  lemma StartedCallRuns(before: seq<Action>, c: nat, choice: Choice, later: seq<Action>)
    requires Possible(INITIAL, before) && AtStage(After(INITIAL, before), c, Starting)
    requires After(INITIAL, before).calls[c].cell == QUEUED
    requires Enabled(After(INITIAL, before), Work(choice)) && Possible(Next(After(INITIAL, before), Work(choice)), later)
    ensures var t := After(Next(After(INITIAL, before), Work(choice)), later);
            c < |t.calls| && Started(t.calls[c])
  {
    DecisionStep(before, c, Starting, choice);
    var s := After(INITIAL, before);
    assert Started(Worked(s.calls[c], choice).call);
    hide Possible, After, Inv, Next, Enabled, Worked, Evolves, LifeOk, Started;
    forall k, after | LifeOk(k) && Started(k) && Evolves(k, after)
      ensures Started(after)
    {
      StartedStays(k, after);
    }
    StaysTrue(Next(s, Work(choice)), later, c, Started);
  }

  /** What the engine did is what the answer says. */
  lemma ResultIsAnswered(before: seq<Action>, c: nat, choice: Choice, later: seq<Action>)
    requires Possible(INITIAL, before) && AtStage(After(INITIAL, before), c, Running)
    requires Enabled(After(INITIAL, before), Work(choice)) && Possible(Next(After(INITIAL, before), Work(choice)), later)
    ensures var t := After(Next(After(INITIAL, before), Work(choice)), later);
            c < |t.calls| && Executed(t.calls[c], choice.panics)
  {
    DecisionStep(before, c, Running, choice);
    var s := After(INITIAL, before);
    var panics := choice.panics;
    assert Executed(Worked(s.calls[c], choice).call, panics);
    hide Possible, After, Inv, Next, Enabled, Worked, Evolves, LifeOk, Executed;
    forall k, after | LifeOk(k) && Executed(k, panics) && Evolves(k, after)
      ensures Executed(after, panics)
    {
      ExecutedStays(k, after, panics);
    }
    StaysTrue(Next(s, Work(choice)), later, c, k => Executed(k, panics));
  }

  // ---------------------------------------------------------------- answers and what they follow from

  /** What an answer other than a cancellation stands for, and what an execution is preceded by. */
  datatype Cause = ClockRanOut | SetUpFailure | Result(panics: bool) | InTime | SetUpDone | StillInTime

  predicate IsCause(stage: Stage, choice: Choice, cause: Cause)
  {
    match cause
    case ClockRanOut => (stage == FirstClock || stage == SecondClock) && choice.expired
    case SetUpFailure => stage == Preparing && !choice.prepared && !choice.unwinds
    case Result(panics) => stage == Running && choice.panics == panics
    case InTime => stage == FirstClock && !choice.expired
    case SetUpDone => stage == Preparing && choice.prepared && !choice.unwinds
    case StillInTime => stage == SecondClock && !choice.expired
  }

  /** The step has that cause for the call. */
  predicate Causes(s: State, a: Action, c: nat, cause: Cause)
  {
    && a.Work? && s.worker == WithCall(c) && c < |s.calls| && s.calls[c].phase.Held?
    && IsCause(s.calls[c].phase.stage, a.choice, cause)
  }

  /** Some step of the run has it. */
  predicate Saw(s: State, acts: seq<Action>, c: nat, cause: Cause)
    requires Possible(s, acts)
    decreases |acts|
  {
    acts != [] && (Causes(s, acts[0], c, cause) || Saw(Next(s, acts[0]), acts[1..], c, cause))
  }

  /** How far the worker's checks have come. */
  function Progress(phase: Phase): nat
  {
    match phase
    case Held(Preparing) => 1
    case Held(PrepareFailed) => 1
    case Held(SecondClock) => 2
    case Held(Starting) => 3
    case Held(Running) => 3
    case Held(Finishing(_)) => 3
    case Held(Completing(_)) => 3
    case Held(Replying(_)) => 3
    case Answered(Handled) => 3
    case Answered(Panicked) => 3
    case _ => 0
  }

  /** The call bears the mark of the cause. */
  predicate Marked(k: Call, cause: Cause)
  {
    match cause
    case ClockRanOut => k.phase == Held(Expiring) || k.phase == Held(Rejecting(DeadlineExceeded)) || k.phase == Answered(DeadlineExceeded)
    case SetUpFailure => k.phase == Held(PrepareFailed) || k.phase == Held(Rejecting(SetUpFailed)) || k.phase == Answered(SetUpFailed)
    case Result(panics) => Executed(k, panics)
    case InTime => Progress(k.phase) >= 1
    case SetUpDone => Progress(k.phase) >= 2
    case StillInTime => Progress(k.phase) >= 3
  }

  /** Before the worker's first look at a call there is no mark on it. */
  predicate Unworked(phase: Phase)
  {
    (!phase.Held? && !phase.Answered?) || phase == Held(Took) || phase == Held(Discarding)
  }

  lemma UnworkedIsUnmarked(k: Call, cause: Cause)
    requires Unworked(k.phase)
    ensures !Marked(k, cause)
  {
  }

  lemma SamePhaseSameMark(k: Call, after: Call, cause: Cause)
    requires after.phase == k.phase
    ensures Marked(after, cause) == Marked(k, cause)
  {
  }

  /** The only step of the worker that leaves a mark is its cause. */
  lemma MarkedByWork(k: Call, choice: Choice, cause: Cause)
    requires CellOk(k) && k.phase.Held? && !Marked(k, cause) && Marked(Worked(k, choice).call, cause)
    ensures IsCause(k.phase.stage, choice, cause)
  {
    WorkedParts(k, choice);
    var after := Worked(k, choice).call;
    hide Worked;
    if after.phase == k.phase {
      SamePhaseSameMark(k, after, cause);
    } else {
      match cause
      case ClockRanOut =>
      case SetUpFailure =>
      case Result(_) => hide Progress;
      case InTime => hide Executed;
      case SetUpDone => hide Executed;
      case StillInTime => hide Executed;
    }
  }

  /** Only its cause leaves a mark. */
  lemma MarkedByItsCause(s: State, a: Action, c: nat, cause: Cause)
    requires Inv(s) && Enabled(s, a) && c < |Next(s, a).calls| && Marked(Next(s, a).calls[c], cause)
    requires c < |s.calls| ==> !Marked(s.calls[c], cause)
    ensures Causes(s, a, c, cause)
  {
    if c >= |s.calls| {
      ArrivesUnmarked(s, a, c);
      hide Next;
    } else if a.Work? && s.worker == WithCall(c) {
      WorkEffect(s, c, a.choice);
      assert LifeOk(s.calls[c]);
      MarkedByWork(s.calls[c], a.choice, cause);
      hide CallNext, Worked, Marked, LifeOk;
    } else {
      OthersLeavePhase(s, a, c);
      var after := Next(s, a).calls[c];
      if after.phase == s.calls[c].phase {
        SamePhaseSameMark(s.calls[c], after, cause);
      } else {
        UnworkedIsUnmarked(after, cause);
      }
      hide Next, Marked;
    }
    hide Inv;
  }

  lemma OthersLeavePhase(s: State, a: Action, c: nat)
    requires Inv(s) && Enabled(s, a) && c < |s.calls| && !(a.Work? && s.worker == WithCall(c))
    ensures c < |Next(s, a).calls|
    ensures Next(s, a).calls[c].phase == s.calls[c].phase || Unworked(Next(s, a).calls[c].phase)
  {
    match a {
      case Caller(d, move) =>
        CallerEffect(s, d, move);
        MovedIsUnworked(s.calls[d], move, Allowed(s, s.calls[d], move));
        hide CallerNext, Moved;
      case Work(choice) =>
        OthersUntouched(s, choice, c);
        hide WorkerNext;
      case Scheduler(kind, todo) => assert Next(s, a).calls == s.calls;
      case _ => hide CallerNext, WorkerNext, SchedulerNext;
    }
    hide Inv;
  }

  lemma MovedIsUnworked(k: Call, move: Move, allowed: bool)
    requires CanMove(k.phase, move)
    ensures Unworked(Moved(k, move, allowed).call.phase)
  {
  }

  /** What the worker does to a call that it does not have: it takes it from the queue. */
  lemma OthersUntouched(s: State, choice: Choice, c: nat)
    requires Inv(s) && WorkerEnabled(s) && c < |s.calls| && s.worker != WithCall(c)
    ensures c < |WorkerNext(s, choice).calls|
    ensures var after := WorkerNext(s, choice).calls[c];
            after == s.calls[c] || after == At(s.calls[c], Took) || after == At(s.calls[c], Discarding)
  {
    if s.worker.WithCall? {
      WorkEffect(s, s.worker.c, choice);
      hide CallNext;
    }
    hide Inv;
  }

  lemma ArrivesUnmarked(s: State, a: Action, c: nat)
    requires Inv(s) && Enabled(s, a) && |s.calls| <= c < |Next(s, a).calls|
    ensures a.Arrive? && Next(s, a).calls[c].phase == Start
  {
    OnlyArrivalsAdd(s, a);
    hide Inv, CallerNext, WorkerNext, SchedulerNext;
  }

  lemma OnlyArrivalsAdd(s: State, a: Action)
    requires Inv(s) && Enabled(s, a)
    ensures !a.Arrive? ==> |Next(s, a).calls| == |s.calls|
  {
    hide Inv, SchedulerNext;
    match a {
      case Caller(d, move) =>
        CallerEffect(s, d, move);
        hide CallerNext, Moved;
      case Work(choice) =>
        if s.worker.WithCall? {
          WorkEffect(s, s.worker.c, choice);
          hide CallNext, Worked;
        }
      case Scheduler(kind, todo) => SchedulingAddsNothing(s, kind, todo);
      case _ => hide CallerNext, WorkerNext;
    }
  }

  lemma SchedulingAddsNothing(s: State, kind: Upkeep, todo: Schedule)
    ensures SchedulerNext(s, kind, todo).calls == s.calls
  {
  }

  /** A mark that the run did not start with was left on the run. */
  lemma {:induction false} MarkedOnRun(s: State, acts: seq<Action>, c: nat, cause: Cause)
    requires Inv(s) && Possible(s, acts)
    requires c < |s.calls| ==> !Marked(s.calls[c], cause)
    requires c < |After(s, acts).calls| && Marked(After(s, acts).calls[c], cause)
    ensures Saw(s, acts, c, cause)
    decreases |acts|
  {
    if acts != [] {
      var t := Next(s, acts[0]);
      StepKeeps(s, acts[0]);
      if c < |t.calls| && Marked(t.calls[c], cause) {
        MarkedByItsCause(s, acts[0], c, cause);
        hide Inv, Enabled, Next, Marked, Causes;
      } else {
        hide Inv, Enabled, Next, Marked, Causes;
        MarkedOnRun(t, acts[1..], c, cause);
      }
    }
  }

  /** Who wrote the call's cell: a cancelled cell is a canceller's, unless the deadline's store overwrote it;
      a completed one is that of a refused call, of a failed set-up or of an execution. */
  predicate CellHasReason(k: Call)
  {
    && (k.cell == CANCELLED ==> k.cancelWon || Rejected(k, DeadlineExceeded))
    && (k.cell == COMPLETED ==>
          || k.phase.Dropping? || k.phase.Ended? || Rejected(k, SetUpFailed)
          || Executed(k, true) || Executed(k, false))
    && (Rejected(k, WasCancelled) ==> k.cancelWon && k.cell == CANCELLED)
    && (Rejected(k, SetUpFailed) ==> !k.cancelWon && k.cell == COMPLETED)
    && (Rejected(k, DeadlineExceeded) ==> k.cell == CANCELLED)
    && (k.cancelWon ==> k.cell == CANCELLED || k.phase.Dropping? || k.phase.Ended?)
  }

  lemma ReasonStays(k: Call, after: Call)
    requires LifeOk(k) && CellHasReason(k) && Evolves(k, after)
    ensures CellHasReason(after)
  {
    forall move, allowed | CanMove(k.phase, move)
      ensures CellHasReason(Moved(k, move, allowed).call)
    {
      ReasonStaysOnMove(k, move, allowed);
    }
    forall choice | k.phase.Held?
      ensures CellHasReason(Worked(k, choice).call)
    {
      ReasonStaysOnWork(k, choice);
    }
    ReasonStaysOnCancel(k);
    hide Moved, Worked, CanMove, LifeOk, Cancelled;
  }

  lemma ReasonStaysOnMove(k: Call, move: Move, allowed: bool)
    requires LifeOk(k) && CellHasReason(k) && CanMove(k.phase, move)
    ensures CellHasReason(Moved(k, move, allowed).call)
  {
  }

  lemma ReasonStaysOnWork(k: Call, choice: Choice)
    requires LifeOk(k) && CellHasReason(k) && k.phase.Held?
    ensures CellHasReason(Worked(k, choice).call)
  {
    WorkedParts(k, choice);
    hide Worked, PermitOk;
  }

  lemma ReasonStaysOnCancel(k: Call)
    requires LifeOk(k) && CellHasReason(k)
    ensures CellHasReason(Cancelled(k))
  {
  }

  ghost predicate AllHaveReason(s: State)
  {
    forall c :: 0 <= c < |s.calls| ==> CellHasReason(s.calls[c])
  }

  lemma ReasonStep(s: State, a: Action)
    requires Inv(s) && Enabled(s, a) && AllHaveReason(s)
    ensures AllHaveReason(Next(s, a))
  {
    var t := Next(s, a);
    forall c: nat | c < |t.calls|
      ensures CellHasReason(t.calls[c])
    {
      if c < |s.calls| {
        CallEvolves(s, a, c);
        assert LifeOk(s.calls[c]);
        ReasonStays(s.calls[c], t.calls[c]);
      } else {
        ArrivesUnmarked(s, a, c);
      }
      hide Inv, LifeOk, Evolves;
    }
  }

  lemma {:induction false} ReasonsOnRun(s: State, acts: seq<Action>)
    requires Inv(s) && Possible(s, acts) && AllHaveReason(s)
    ensures AllHaveReason(After(s, acts))
    decreases |acts|
  {
    if acts != [] {
      StepKeeps(s, acts[0]);
      ReasonStep(s, acts[0]);
      hide Inv, Enabled, Next, AllHaveReason;
      ReasonsOnRun(Next(s, acts[0]), acts[1..]);
    }
  }

  predicate AnswerIsMark(k: Call)
    requires k.phase.Answered?
  {
    match k.phase.answer
    case DeadlineExceeded => Marked(k, ClockRanOut)
    case SetUpFailed => Marked(k, SetUpFailure) && !k.cancelWon
    case WasCancelled => k.cancelWon
    case Panicked => Marked(k, Result(true))
    case Handled => Marked(k, Result(false))
  }

  lemma AnswersAreMarks(k: Call)
    requires k.phase.Answered? && CellHasReason(k) && CellOk(k)
    ensures AnswerIsMark(k)
  {
  }

  /** Every answer has its cause: the deadline a clock that had run out, a failed set-up a preparation that
      failed before any canceller came, a result the engine's, and a cancellation a canceller that won. */
  lemma EveryAnswerHasItsCause(acts: seq<Action>, c: nat)
    requires Possible(INITIAL, acts) && c < |After(INITIAL, acts).calls| && After(INITIAL, acts).calls[c].phase.Answered?
    ensures var k := After(INITIAL, acts).calls[c];
            match k.phase.answer
            case DeadlineExceeded => Saw(INITIAL, acts, c, ClockRanOut)
            case SetUpFailed => Saw(INITIAL, acts, c, SetUpFailure) && !k.cancelWon
            case WasCancelled => k.cancelWon
            case Panicked => Saw(INITIAL, acts, c, Result(true))
            case Handled => Saw(INITIAL, acts, c, Result(false))
  {
    var s := After(INITIAL, acts);
    ReasonsReached(acts);
    hide Possible, After, Inv, Saw, AllHaveReason, Marked;
    AnswerOfReachable(s, c);
    match s.calls[c].phase.answer
    case DeadlineExceeded => MarkedReached(acts, c, ClockRanOut);
    case SetUpFailed => MarkedReached(acts, c, SetUpFailure);
    case WasCancelled =>
    case Panicked => MarkedReached(acts, c, Result(true));
    case Handled => MarkedReached(acts, c, Result(false));
  }

  lemma ReasonsReached(acts: seq<Action>)
    requires Possible(INITIAL, acts)
    ensures Inv(After(INITIAL, acts)) && AllHaveReason(After(INITIAL, acts))
  {
    hide Possible, After, Inv;
    NoCallsYet();
    assert AllHaveReason(INITIAL);
    hide *;
    InitialKept();
    Reached(acts);
    ReasonsOnRun(INITIAL, acts);
  }

  lemma NoCallsYet()
    ensures |INITIAL.calls| == 0
  {
  }

  lemma MarkedReached(acts: seq<Action>, c: nat, cause: Cause)
    requires Possible(INITIAL, acts) && c < |After(INITIAL, acts).calls| && Marked(After(INITIAL, acts).calls[c], cause)
    ensures Saw(INITIAL, acts, c, cause)
  {
    hide *;
    NoCallsYet();
    InitialKept();
    MarkedOnRun(INITIAL, acts, c, cause);
  }

  lemma AnswerOfReachable(s: State, c: nat)
    requires Inv(s) && AllHaveReason(s) && c < |s.calls| && s.calls[c].phase.Answered?
    ensures AnswerIsMark(s.calls[c])
  {
    assert LifeOk(s.calls[c]) && CellHasReason(s.calls[c]);
    hide Inv, AllHaveReason;
    AnswersAreMarks(s.calls[c]);
  }

  /** So a call whose clock never ran out, whose set-up did not fail and which no canceller won is, once it
      is answered, executed exactly once. */
  lemma NothingElseStopsACall(acts: seq<Action>, c: nat)
    requires Possible(INITIAL, acts) && c < |After(INITIAL, acts).calls|
    requires var k := After(INITIAL, acts).calls[c];
             && k.phase.Answered? && !k.cancelWon
             && !Saw(INITIAL, acts, c, ClockRanOut) && !Saw(INITIAL, acts, c, SetUpFailure)
    ensures After(INITIAL, acts).calls[c].executions == 1
  {
    EveryAnswerHasItsCause(acts, c);
    AtMostOnce(acts, c);
    hide Possible, After, Saw;
    Reached(acts);
    assert LifeOk(After(INITIAL, acts).calls[c]);
  }

  /** And nothing less than all three checks leads to an execution: the clock was looked at before and after a
      set-up that succeeded, and had not run out. */
  lemma ExecutionNeedsEveryCheck(acts: seq<Action>, c: nat)
    requires Possible(INITIAL, acts) && c < |After(INITIAL, acts).calls| && After(INITIAL, acts).calls[c].executions > 0
    ensures Saw(INITIAL, acts, c, InTime) && Saw(INITIAL, acts, c, SetUpDone) && Saw(INITIAL, acts, c, StillInTime)
  {
    Reached(acts);
    var k := After(INITIAL, acts).calls[c];
    hide Possible, After, Saw;
    assert LifeOk(k);
    hide Inv;
    assert Executed(k, true) || Executed(k, false);
    assert Marked(k, StillInTime) && Marked(k, SetUpDone) && Marked(k, InTime);
    hide LifeOk, Marked;
    MarkedReached(acts, c, InTime);
    MarkedReached(acts, c, SetUpDone);
    MarkedReached(acts, c, StillInTime);
  }

  // ---------------------------------------------------------------- after a panic

  /** A panic ends the worker's service. */
  predicate PanicEndsService(s: State)
  {
    s.panicked ==> s.worker.Dying? || !s.open
  }

  lemma PanicStep(s: State, a: Action)
    requires Inv(s) && Enabled(s, a) && PanicEndsService(s)
    ensures PanicEndsService(Next(s, a))
  {
    match a {
      case Caller(c, move) =>
        CallerEffect(s, c, move);
        hide CallerNext, Moved;
      case Work(choice) =>
        assert DrainOk(s);
        WorkAfterPanic(s, choice);
        hide WorkerNext;
      case _ =>
    }
    hide Inv;
  }

  lemma WorkAfterPanic(s: State, choice: Choice)
    requires WorkerEnabled(s) && PanicEndsService(s) && DrainOk(s)
    ensures PanicEndsService(WorkerNext(s, choice))
  {
    if s.worker.WithCall? {
      CallAfterPanic(s, s.worker.c, choice);
      hide CallNext;
    }
    hide DrainOk;
  }

  lemma CallAfterPanic(s: State, c: nat, choice: Choice)
    requires s.worker == WithCall(c) && c < |s.calls| && s.calls[c].phase.Held? && PanicEndsService(s)
    ensures PanicEndsService(CallNext(s, c, choice))
  {
    WorkedParts(s.calls[c], choice);
    hide Worked;
  }

  /** The executions of a call, none if it has not arrived yet. */
  function ExecutionsOf(s: State, c: nat): nat
  {
    if c < |s.calls| then s.calls[c].executions else 0
  }

  lemma NothingRunsStep(s: State, a: Action, c: nat)
    requires Inv(s) && Enabled(s, a) && PanicEndsService(s) && s.panicked
    ensures Next(s, a).panicked && ExecutionsOf(Next(s, a), c) == ExecutionsOf(s, c)
  {
    StaysPanicked(s, a);
    if c >= |s.calls| {
      if c < |Next(s, a).calls| {
        ArrivesUnmarked(s, a, c);
        StepKeeps(s, a);
        assert LifeOk(Next(s, a).calls[c]);
      }
    } else {
      CallEvolves(s, a, c);
      if a.Work? {
        WorkRunsNothing(s, a.choice, c);
      } else {
        OthersRunNothing(s, a, c);
      }
    }
    hide Inv, Next, Evolves, LifeOk;
  }

  lemma StaysPanicked(s: State, a: Action)
    requires Inv(s) && Enabled(s, a) && s.panicked
    ensures Next(s, a).panicked
  {
    match a {
      case Caller(c, move) =>
        CallerEffect(s, c, move);
        hide CallerNext, Moved;
      case Work(choice) =>
        hide Worked, Tended;
      case _ =>
    }
    hide Inv;
  }

  lemma MoveRunsNothing(k: Call, move: Move, allowed: bool)
    requires CanMove(k.phase, move)
    ensures Moved(k, move, allowed).call.executions == k.executions
  {
  }

  lemma OthersRunNothing(s: State, a: Action, c: nat)
    requires Inv(s) && Enabled(s, a) && !a.Work? && c < |s.calls|
    ensures c < |Next(s, a).calls| && Next(s, a).calls[c].executions == s.calls[c].executions
  {
    match a {
      case Caller(d, move) =>
        CallerEffect(s, d, move);
        MoveRunsNothing(s.calls[d], move, Allowed(s, s.calls[d], move));
        hide CallerNext, Moved;
      case Scheduler(kind, todo) => assert Next(s, a).calls == s.calls;
      case _ => hide CallerNext, WorkerNext, SchedulerNext;
    }
    hide Inv;
  }

  lemma WorkRunsNothing(s: State, choice: Choice, c: nat)
    requires Inv(s) && WorkerEnabled(s) && c < |s.calls| && (s.worker.Dying? || !s.open)
    ensures c < |WorkerNext(s, choice).calls| && WorkerNext(s, choice).calls[c].executions == s.calls[c].executions
  {
    assert DrainOk(s);
    if s.worker.WithCall? {
      WorkEffect(s, s.worker.c, choice);
      WorkedParts(s.calls[s.worker.c], choice);
      hide CallNext, Worked;
    }
    hide Inv;
  }

  lemma {:induction false} NothingRunsOn(s: State, acts: seq<Action>, c: nat)
    requires Inv(s) && Possible(s, acts) && PanicEndsService(s) && s.panicked
    ensures ExecutionsOf(After(s, acts), c) == ExecutionsOf(s, c)
    decreases |acts|
  {
    if acts != [] {
      StepKeeps(s, acts[0]);
      PanicStep(s, acts[0]);
      NothingRunsStep(s, acts[0], c);
      hide Inv, Enabled, Next, PanicEndsService, ExecutionsOf;
      NothingRunsOn(Next(s, acts[0]), acts[1..], c);
    }
  }

  lemma {:induction false} PanicOnRun(s: State, acts: seq<Action>)
    requires Inv(s) && Possible(s, acts) && PanicEndsService(s)
    ensures PanicEndsService(After(s, acts))
    decreases |acts|
  {
    if acts != [] {
      StepKeeps(s, acts[0]);
      PanicStep(s, acts[0]);
      hide Inv, Enabled, Next, PanicEndsService;
      PanicOnRun(Next(s, acts[0]), acts[1..]);
    }
  }

  lemma NoPanicYet()
    ensures PanicEndsService(INITIAL)
  {
  }

  /** After a panic, caught or not, of a call, of maintenance or of a model switch, no call is executed any more:
      over every later run the executions of every call stay what they are. */
  lemma NothingRunsAfterAPanic(before: seq<Action>, later: seq<Action>, c: nat)
    requires Possible(INITIAL, before) && After(INITIAL, before).panicked && Possible(After(INITIAL, before), later)
    ensures ExecutionsOf(After(After(INITIAL, before), later), c) == ExecutionsOf(After(INITIAL, before), c)
  {
    hide *;
    NoPanicYet();
    InitialKept();
    Reached(before);
    PanicOnRun(INITIAL, before);
    NothingRunsOn(After(INITIAL, before), later, c);
  }

  /** What becomes of a maintenance or switch command that the worker takes: it is counted as active, does its work,
      and is uncounted and unflagged, and the worker ends with it exactly if the work panicked. */
  lemma UpkeepRunsItsCourse(s: State, kind: Upkeep, choices: seq<Choice>)
    requires s.worker == WithUpkeep(kind) && SlotOf(s, kind).token == WithWorker(Accepted) && |choices| == 5
    ensures var s1 := UpkeepNext(s, kind, choices[0]);
            && SlotOf(s1, kind).token == WithWorker(AtWork) && s1.active == s.active + 1
            && var s2 := UpkeepNext(s1, kind, choices[1]);
               && SlotOf(s2, kind).token == WithWorker(Done(choices[1].panics)) && s2.worker == s.worker
               && var s4 := UpkeepNext(UpkeepNext(s2, kind, choices[2]), kind, choices[3]);
                  && s4.active == s.active && s4.pending == s.pending - 1
                  && var s5 := UpkeepNext(s4, kind, choices[4]);
                     && SlotOf(s5, kind) == Slot(false, Absent)
                     && s5.worker == (if choices[1].panics then Dying else Idle)
                     && s5.panicked == (s.panicked || choices[1].panics)
  {
  }
}
