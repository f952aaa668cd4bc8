/**
 The end of the worker on every run: once a Stop is queued, the worker is never stuck before its end and
 comes to it within a fixed number of its own steps, whatever the other parties do in between.
 */
module ActorProgress {

  import opened Actor
  import opened ActorInvariant
  import opened ActorRuns

  /** A bound on the steps the worker takes once its loop is left: the channel is closed and emptied. */
  const CLOSING_STEPS := 20 * PROJECT_QUEUE_CAPACITY + 2

  /** A bound on the steps it takes once a Stop is queued. */
  const ENDING_STEPS := 2 * CLOSING_STEPS + 16

  function BeforeStop(queue: seq<Command>): (n: nat)
    ensures n <= |queue|
  {
    if queue == [] || queue[0] == Stop then 0 else 1 + BeforeStop(queue[1..])
  }

  /** A bound on the steps that the worker still takes.  Until the channel is closed its end may grow, but
      only behind the first Stop. */
  function EndRank(s: State): nat
  {
    if !s.open then Rank(s)
    else if s.worker.Dying? then CLOSING_STEPS
    else CLOSING_STEPS + 1 + 20 * BeforeStop(s.queue) + WorkerRank(s)
  }

  lemma {:induction false} AppendedBehindStop(queue: seq<Command>, x: Command)
    requires Stop in queue
    ensures BeforeStop(queue + [x]) == BeforeStop(queue)
  {
    if queue[0] != Stop {
      AppendedBehindStop(queue[1..], x);
      assert (queue + [x])[1..] == queue[1..] + [x];
    }
  }

  lemma {:induction false} StopIsWithin(queue: seq<Command>)
    requires Stop in queue
    ensures BeforeStop(queue) < |queue|
  {
    if queue[0] != Stop {
      StopIsWithin(queue[1..]);
    }
  }

  lemma WorkerRankBound(s: State)
    ensures WorkerRank(s) <= 16
  {
  }

  lemma EndRankBound(s: State)
    requires Inv(s) && Ending(s)
    ensures EndRank(s) <= ENDING_STEPS
  {
    WorkerRankBound(s);
    if s.open && !s.worker.Dying? {
      StopIsWithin(s.queue);
    }
    assert |s.queue| <= PROJECT_QUEUE_CAPACITY;
    hide Inv, WorkerRank;
  }

  // ---------------------------------------------------------------- the worker's own steps

  lemma TakingLowersEndRank(s: State)
    requires Inv(s) && s.open && s.worker.Idle? && s.queue != [] && HeadKnown(s)
    ensures EndRank(TakeNext(s)) < EndRank(s)
  {
    WorkerRankBound(TakeNext(s));
    hide Inv, WorkerRank;
  }

  /** While the worker serves a command, its rank is all that changes. */
  lemma ServingLowersEndRank(s: State, choice: Choice)
    requires Inv(s) && s.open && WorkerEnabled(s) && (s.worker.WithCall? || s.worker.WithUpkeep? || s.worker.Leaving?)
    ensures EndRank(WorkerNext(s, choice)) < EndRank(s)
  {
    WorkLowersRank(s, choice);
    ServingKeepsChannel(s, choice);
    hide Inv, WorkerNext, WorkerRank, WorkerEnabled;
  }

  lemma ServingKeepsChannel(s: State, choice: Choice)
    requires WorkerEnabled(s) && (s.worker.WithCall? || s.worker.WithUpkeep? || s.worker.Leaving?)
    ensures WorkerNext(s, choice).queue == s.queue && WorkerNext(s, choice).open == s.open
  {
    if s.worker.WithCall? {
      WorkEffect(s, s.worker.c, choice);
      hide CallNext;
    }
  }

  lemma ClosedStaysClosed(s: State, a: Action)
    requires Enabled(s, a) && !s.open
    ensures !Next(s, a).open
  {
    match a {
      case Caller(c, move) =>
        CallerEffect(s, c, move);
        hide CallerNext;
      case Work(choice) =>
        if s.worker.WithCall? {
          ServingKeepsChannel(s, choice);
          hide CallNext;
        }
      case _ =>
    }
  }

  /** Every step of the worker lowers the bound. */
  lemma WorkLowersEndRank(s: State, choice: Choice)
    requires Inv(s) && WorkerEnabled(s) && Ending(s)
    ensures EndRank(WorkerNext(s, choice)) < EndRank(s)
  {
    if !s.open {
      WorkLowersRank(s, choice);
      ClosedStaysClosed(s, Work(choice));
    } else if s.worker.Dying? {
      assert |s.queue| <= PROJECT_QUEUE_CAPACITY;
    } else if s.worker.Idle? {
      TakingLowersEndRank(s);
    } else {
      assert s.worker.WithCall? || s.worker.WithUpkeep? || s.worker.Leaving? by { assert DrainOk(s); }
      ServingLowersEndRank(s, choice);
    }
    hide Inv, WorkerEnabled, CallNext, UpkeepNext, TakeNext;
  }

  // ---------------------------------------------------------------- the steps of the others

  /** What the others leave alone: the worker, its rank, and the channel up to its end. */
  ghost predicate Undisturbed(s: State, t: State)
  {
    && t.worker == s.worker && t.open == s.open && WorkerRank(t) == WorkerRank(s)
    && (t.queue == s.queue || (HasRoom(s) && exists x :: t.queue == s.queue + [x]))
  }

  lemma CallerLeavesWorker(s: State, c: nat, move: Move)
    requires MoveEnabled(s, c, move)
    ensures Undisturbed(s, CallerNext(s, c, move))
  {
    CallerEffect(s, c, move);
    hide Moved;
    assert !s.calls[c].phase.Held?;
    CallerNeverHolds(s.calls[c], move, Allowed(s, s.calls[c], move));
  }

  lemma CallerNeverHolds(k: Call, move: Move, allowed: bool)
    requires CanMove(k.phase, move)
    ensures !Moved(k, move, allowed).call.phase.Held?
  {
  }

  lemma SchedulerLeavesWorker(s: State, kind: Upkeep, todo: Schedule)
    requires Inv(s) && ScheduleEnabled(s, kind, todo)
    ensures Undisturbed(s, SchedulerNext(s, kind, todo))
  {
    assert SlotOk(s, kind);
    hide Inv;
  }

  lemma OthersLeaveWorker(s: State, a: Action)
    requires Inv(s) && Enabled(s, a) && !a.Work?
    ensures Undisturbed(s, Next(s, a))
  {
    hide Inv, CallerNext, SchedulerNext, WorkerRank;
    match a {
      case Caller(c, move) => CallerLeavesWorker(s, c, move);
      case Scheduler(kind, todo) => SchedulerLeavesWorker(s, kind, todo);
      case Arrive(bytes) => SameRank(s, Next(s, a));
      case Cancel(c) => SameRank(s, Next(s, a));
      case OthersReserve(_) => SameRank(s, Next(s, a));
      case OthersRelease(_) => SameRank(s, Next(s, a));
      case LockScheduler => SameRank(s, Next(s, a));
      case BeginDraining => SameRank(s, Next(s, a));
      case SendStop => SameRank(s, Next(s, a));
    }
  }

  /** The rank asks only for the call or the command that the worker has. */
  lemma SameRank(s: State, t: State)
    requires t.worker == s.worker && t.maintenance == s.maintenance && t.switchStep == s.switchStep
    requires |s.calls| <= |t.calls|
    requires forall c :: 0 <= c < |s.calls| ==> t.calls[c].phase == s.calls[c].phase && t.calls[c].permit == s.calls[c].permit
    requires forall c :: |s.calls| <= c < |t.calls| ==> !t.calls[c].phase.Held?
    ensures WorkerRank(t) == WorkerRank(s)
  {
  }

  lemma UndisturbedKeepsEnd(s: State, t: State)
    requires Ending(s) && Undisturbed(s, t)
    ensures Ending(t) && EndRank(t) == EndRank(s)
  {
    hide WorkerRank;
    if t.queue != s.queue {
      var x :| t.queue == s.queue + [x];
      if Stop in s.queue {
        AppendedBehindStop(s.queue, x);
      }
    }
  }

  // ---------------------------------------------------------------- runs

  function WorkSteps(acts: seq<Action>): nat
  {
    if acts == [] then 0 else (if acts[0].Work? then 1 else 0) + WorkSteps(acts[1..])
  }

  /** Over every interleaving the worker's steps use up the bound, and until it is dead it can take one. */
  lemma {:induction false} WorkStepsAreBounded(s: State, acts: seq<Action>)
    requires Inv(s) && Ending(s) && Possible(s, acts)
    ensures var t := After(s, acts);
            && Ending(t) && WorkSteps(acts) + EndRank(t) <= EndRank(s)
            && (WorkerEnabled(t) || t.worker.Dead?)
    decreases |acts|
  {
    hide EndRank;
    if acts == [] {
      WorkerWaitsOnlyForCommands(s);
      EndingIsNotIdle(s);
    } else {
      StepKeeps(s, acts[0]);
      EndStep(s, acts[0]);
      hide Inv, Ending, Enabled, Next, WorkerEnabled;
      WorkStepsAreBounded(Next(s, acts[0]), acts[1..]);
    }
  }

  lemma EndingIsNotIdle(s: State)
    requires Inv(s) && Ending(s)
    ensures s.worker.Idle? ==> s.queue != []
  {
    assert DrainOk(s);
    hide Inv;
  }

  lemma EndStep(s: State, a: Action)
    requires Inv(s) && Ending(s) && Enabled(s, a)
    ensures Ending(Next(s, a))
    ensures EndRank(Next(s, a)) + (if a.Work? then 1 else 0) <= EndRank(s)
  {
    if a.Work? {
      WorkerStaysEnding(s, a.choice);
      WorkLowersEndRank(s, a.choice);
    } else {
      OthersLeaveWorker(s, a);
      UndisturbedKeepsEnd(s, Next(s, a));
    }
    hide Inv, Ending, WorkerEnabled, WorkerNext, EndRank;
  }

  /** Once a Stop is queued, and however callers, cancellers, schedulers and further Stops interleave, the
      worker takes at most a fixed number of steps, and until it is dead it can take the next one.  So it
      ends on every run on which it goes on. */
  lemma StopEndsEveryRun(before: seq<Action>, acts: seq<Action>)
    requires Possible(INITIAL, before) && Stop in After(INITIAL, before).queue
    requires Possible(After(INITIAL, before), acts)
    ensures var t := After(After(INITIAL, before), acts);
            && WorkSteps(acts) <= ENDING_STEPS
            && (WorkerEnabled(t) || t.worker.Dead?)
            && (WorkSteps(acts) == ENDING_STEPS ==> t.worker.Dead?)
  {
    Reached(before);
    var s := After(INITIAL, before);
    assert Ending(s);
    hide Possible, After, Inv, EndRank, WorkerEnabled, Ending, WorkerRank;
    EndRankBound(s);
    WorkStepsAreBounded(s, acts);
    var t := After(s, acts);
    if WorkSteps(acts) == ENDING_STEPS && WorkerEnabled(t) {
      RunKeeps(s, acts);
      WorkLowersEndRank(t, Choice(false, true, false, false));
    }
  }
}
