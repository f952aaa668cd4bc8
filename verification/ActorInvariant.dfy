/**
 What every step of the actor keeps: the byte and command counters are the sums over the live permits,
 each call is in one place, commands are coalesced, and calls precede every Stop in the queue.

 The parts that speak of one call or one slot are predicates on that value alone, so most steps are
 proved on the value and then lifted to the state.
 */
module ActorInvariant {

  import opened Actor

  // ---------------------------------------------------------------- accounting

  datatype Counter = PendingCommands | ProjectBytes | GlobalBytes

  /** What one call contributes to a counter. */
  function Share(k: Call, counter: Counter): nat
  {
    match counter
    case PendingCommands => if k.permit.pending then 1 else 0
    case ProjectBytes => if k.permit.project then k.bytes else 0
    case GlobalBytes => if k.permit.global then k.bytes else 0
  }

  function Sum(calls: seq<Call>, counter: Counter): nat
  {
    if calls == [] then 0
    else Sum(calls[..|calls| - 1], counter) + Share(calls[|calls| - 1], counter)
  }

  lemma {:induction false} SumUpdate(calls: seq<Call>, c: nat, k: Call, counter: Counter)
    requires c < |calls|
    ensures Sum(calls[c := k], counter) == Sum(calls, counter) - Share(calls[c], counter) + Share(k, counter)
    decreases |calls|
  {
    var last := |calls| - 1;
    if c < last {
      SumUpdate(calls[..last], c, k, counter);
      assert calls[c := k][..last] == calls[..last][c := k];
    } else {
      assert calls[c := k][..last] == calls[..last];
    }
  }

  lemma SumAppend(calls: seq<Call>, k: Call, counter: Counter)
    ensures Sum(calls + [k], counter) == Sum(calls, counter) + Share(k, counter)
  {
    assert (calls + [k])[..|calls|] == calls;
  }

  lemma {:induction false} SumZero(calls: seq<Call>, counter: Counter)
    requires forall c :: 0 <= c < |calls| ==> Share(calls[c], counter) == 0
    ensures Sum(calls, counter) == 0
    decreases |calls|
  {
    if calls != [] {
      SumZero(calls[..|calls| - 1], counter);
    }
  }

  /** Whether the command of an upkeep kind is counted as pending. */
  function TokenShare(t: Token): nat
  {
    match t
    case Absent => 0
    case Flagged => 0
    case RefusedUncounted => 0
    case WithWorker(Unflagging(_)) => 0
    case WithWorker(DumpingFlag) => 0
    case _ => 1
  }

  /** What the worker's work contributes to `active`. */
  function ActiveShare(stage: Stage): nat
  {
    if stage.Took? || stage.Completing? || stage.Replying? || stage.Discarding? then 0 else 1
  }

  function ActiveUpkeep(t: Token): nat
  {
    if t.WithWorker? && (t.stage.AtWork? || t.stage.Done?) then 1 else 0
  }

  function PhaseActive(phase: Phase): nat
  {
    if phase.Held? then ActiveShare(phase.stage) else 0
  }

  /** Every counter is the sum of the live shares, half-done reservations and releases included. */
  ghost predicate CountersOk(s: State)
  {
    && s.projectBytes == Sum(s.calls, ProjectBytes)
    && s.globalBytes == s.otherBytes + Sum(s.calls, GlobalBytes)
    && s.pending == Sum(s.calls, PendingCommands) + TokenShare(s.maintenance.token) + TokenShare(s.switchStep.token)
    && s.projectBytes <= PROJECT_QUEUE_BYTES
    && s.globalBytes <= GLOBAL_QUEUE_BYTES
  }

  predicate ActiveOk(s: State)
  {
    s.active == s.leaked + match s.worker
                case WithCall(c) => if c < |s.calls| then PhaseActive(s.calls[c].phase) else 0
                case WithUpkeep(kind) => ActiveUpkeep(SlotOf(s, kind).token)
                case Leaving => 1
                case _ => 0
  }

  // ---------------------------------------------------------------- the life of one call

  /** Phases in which a permit is being released, counter by counter. */
  predicate LettingGo(phase: Phase)
  {
    phase.Dropping? || (phase.Held? && (phase.stage.Releasing? || phase.stage.Discarding?))
  }

  /** The permit of a call that is neither releasing nor failing. */
  function PermitAt(phase: Phase): Permit
  {
    match phase
    case Half => Permit(false, true, false)
    case Undoing => Permit(false, true, false)
    case Reserved => Permit(false, true, true)
    case Admitting => Permit(true, true, true)
    case Queued => Permit(true, true, true)
    case Held(stage) => if stage == Took then Permit(true, true, true) else NO_PERMIT
    case _ => NO_PERMIT
  }

  predicate PermitOk(k: Call)
  {
    && (k.permit.pending ==> k.counted && k.permit == Permit(true, true, true))
    && (!LettingGo(k.phase) && !k.phase.Failing? ==> k.permit == PermitAt(k.phase))
    && (k.phase.Start? || k.phase.Half? || k.phase.Undoing? || k.phase.Reserved? ==> !k.counted)
    && (k.phase.Failing? ==> k.permit == if k.counted then Permit(true, true, true) else NO_PERMIT)
  }

  predicate PastExecution(phase: Phase)
  {
    phase.Held? && (phase.stage.Finishing? || phase.stage.Completing? || phase.stage.Replying?)
  }

  predicate SentOk(k: Call)
  {
    (k.sent <==> k.phase.Queued? || k.phase.Held? || k.phase.Answered? || k.phase.Lost?) && (k.sent ==> k.counted)
  }

  /** The reply names what happened: only a handled or panicked call was executed. */
  predicate AnswerOk(k: Call)
  {
    match k.phase
    case Answered(answer) => k.executions == if answer.Handled? || answer.Panicked? then 1 else 0
    case Held(Rejecting(answer)) => !answer.Handled? && !answer.Panicked?
    case _ => true
  }

  predicate CellOk(k: Call)
  {
    && k.replies == (if k.phase.Answered? then 1 else 0)
    && (PastExecution(k.phase) ==> k.executions == 1)
    && (!PastExecution(k.phase) && !k.phase.Answered? ==> k.executions == 0)
    && (k.cell == RUNNING <==> k.phase.Held? && (k.phase.stage.Running? || k.phase.stage.Finishing? || k.phase.stage.Completing?))
    && (k.executions == 1 ==> k.cell == RUNNING || k.cell == COMPLETED)
    && (k.phase.Answered? ==> k.cell == COMPLETED || k.cell == CANCELLED)
    && (k.phase.Held? && k.phase.stage.Rejecting? ==> k.cell == COMPLETED || k.cell == CANCELLED)
    && (k.cancelWon ==> k.executions == 0 && (k.cell == CANCELLED || k.cell == COMPLETED))
    && AnswerOk(k)
  }

  predicate LifeOk(k: Call)
  {
    PermitOk(k) && CellOk(k) && SentOk(k)
  }

  /** The step's effect on the counters is what the call's share changes by. */
  predicate Balanced(k: Call, e: Effect)
  {
    && e.pending == Share(e.call, PendingCommands) - Share(k, PendingCommands)
    && e.project == Share(e.call, ProjectBytes) - Share(k, ProjectBytes)
    && e.global == Share(e.call, GlobalBytes) - Share(k, GlobalBytes)
  }

  lemma MoveKeepsLife(k: Call, move: Move, allowed: bool)
    requires LifeOk(k) && CanMove(k.phase, move)
    ensures LifeOk(Moved(k, move, allowed).call) && Balanced(k, Moved(k, move, allowed))
    ensures var e := Moved(k, move, allowed);
            && e.active == 0 && !e.call.phase.Held?
            && (e.call.phase.Queued? <==> move.Send? && allowed)
            && (e.call.phase.Admitting? <==> move.Admit? && allowed)
  {
    MoveKeepsPermit(k, move, allowed);
    MoveKeepsCell(k, move, allowed);
    MoveKeepsSent(k, move, allowed);
    hide PermitOk, CellOk, SentOk, Moved, Balanced;
  }

  lemma MoveKeepsPermit(k: Call, move: Move, allowed: bool)
    requires PermitOk(k) && CanMove(k.phase, move)
    ensures PermitOk(Moved(k, move, allowed).call) && Balanced(k, Moved(k, move, allowed))
    ensures var e := Moved(k, move, allowed);
            && e.active == 0 && !e.call.phase.Held?
            && (e.call.phase.Queued? <==> move.Send? && allowed)
            && (e.call.phase.Admitting? <==> move.Admit? && allowed)
  {
  }

  lemma MoveKeepsCell(k: Call, move: Move, allowed: bool)
    requires PermitOk(k) && CellOk(k) && CanMove(k.phase, move)
    ensures CellOk(Moved(k, move, allowed).call)
  {
  }

  lemma MoveKeepsSent(k: Call, move: Move, allowed: bool)
    requires PermitOk(k) && SentOk(k) && CanMove(k.phase, move)
    ensures SentOk(Moved(k, move, allowed).call)
  {
  }

  lemma WorkKeepsLife(k: Call, choice: Choice)
    requires LifeOk(k) && k.phase.Held?
    ensures LifeOk(Worked(k, choice).call) && Balanced(k, Worked(k, choice))
  {
    WorkKeepsPermit(k, choice);
    WorkKeepsCell(k, choice);
    WorkKeepsSent(k, choice);
    hide PermitOk, CellOk, SentOk, Worked, Balanced;
  }

  lemma WorkKeepsPermit(k: Call, choice: Choice)
    requires PermitOk(k) && k.phase.Held?
    ensures PermitOk(Worked(k, choice).call) && Balanced(k, Worked(k, choice))
  {
    if LettingGo(k.phase) {
      if k.permit != NO_PERMIT {
        ReleaseIsBalanced(k);
      }
    } else {
      OnlyLettingGoTouchesPermits(k, choice);
      WorkMovesOn(k, choice);
      hide Worked;
    }
  }

  lemma ReleaseIsBalanced(k: Call)
    requires PermitOk(k) && LettingGo(k.phase) && k.permit != NO_PERMIT
    ensures PermitOk(Release(k).call) && Balanced(k, Release(k)) && Release(k).call.phase == k.phase
  {
  }

  lemma OnlyLettingGoTouchesPermits(k: Call, choice: Choice)
    requires k.phase.Held? && !LettingGo(k.phase)
    ensures var e := Worked(k, choice);
            && e.call.permit == k.permit && e.call.counted == k.counted
            && e.pending == e.project == e.global == 0
  {
  }

  /** A step of the worker, part by part. */
  lemma WorkedParts(k: Call, choice: Choice)
    requires k.phase.Held?
    ensures var stage := k.phase.stage;
            var a := Worked(k, choice).call;
            && a.phase == (if LettingGo(k.phase) && k.permit != NO_PERMIT then k.phase else PhaseAfter(stage, k.cell, choice))
            && a.cell == CellAfter(stage, k.cell)
            && a.executions == k.executions + (if stage.Running? then 1 else 0)
            && a.replies == k.replies + (if stage.Replying? || stage.Rejecting? then 1 else 0)
            && a.cancelWon == k.cancelWon && a.sent == k.sent && a.counted == k.counted
            && Worked(k, choice).active == (if stage.Took? then 1 else if stage.Finishing? then -1 else 0)
  {
  }

  lemma PhasesMoveOn(stage: Stage, cell: Cell, choice: Choice)
    ensures var after := PhaseAfter(stage, cell, choice);
            && (after.Held? || after.Answered? || after.Lost?)
            && after != Held(Took) && after != Held(Discarding)
            && (after == Held(Releasing) <==> stage == Took)
            && (after.Lost? <==> stage == Discarding || (stage == Preparing && choice.unwinds))
            && (after.Answered? <==> stage.Replying? || stage.Rejecting?)
            && (after.Held? ==> ActiveShare(after.stage) - ActiveShare(stage)
                                == if stage.Took? then 1 else if stage.Finishing? then -1 else 0)
  {
  }

  /** Where a step leaves the call, with the worker, answered, or lost while the queue is emptied, and
      what it does to the count of active commands. */
  lemma WorkMovesOn(k: Call, choice: Choice)
    requires k.phase.Held?
    ensures var e := Worked(k, choice);
            var after := e.call.phase;
            && (after.Held? || after.Answered? || after.Lost?)
            && after != Held(Took)
            && (after == Held(Releasing) ==> k.phase.stage == Took || k.phase.stage == Releasing)
            && (k.phase.stage == Took ==> after == Held(Releasing))
            && (after == Held(Discarding) ==> k.phase.stage == Discarding)
            && (k.phase.stage == Discarding ==> after == Held(Discarding) || after.Lost?)
            && (after.Lost? ==> k.phase.stage == Discarding || (k.phase.stage == Preparing && choice.unwinds))
            && (k.phase.stage == Preparing && choice.unwinds ==> after.Lost?)
            && (after.Answered? ==> k.phase.stage.Replying? || k.phase.stage.Rejecting?)
            && e.active == (if after.Held? then PhaseActive(after) - PhaseActive(k.phase) else 0)
  {
    WorkedParts(k, choice);
    PhasesMoveOn(k.phase.stage, k.cell, choice);
    hide Worked, PhaseAfter, CellAfter, ActiveShare;
  }

  lemma WorkKeepsCell(k: Call, choice: Choice)
    requires CellOk(k) && k.phase.Held?
    ensures CellOk(Worked(k, choice).call)
  {
    WorkedParts(k, choice);
    hide Worked;
  }

  lemma WorkKeepsSent(k: Call, choice: Choice)
    requires SentOk(k) && k.phase.Held?
    ensures SentOk(Worked(k, choice).call)
  {
  }

  // ---------------------------------------------------------------- the state as a whole

  /** A call is in the queue, with the worker or under the lock exactly when its phase says so. */
  predicate PlaceOk(s: State, c: nat)
    requires c < |s.calls|
  {
    var phase := s.calls[c].phase;
    && (phase.Queued? <==> Run(c) in s.queue)
    && (phase.Held? <==> s.worker == WithCall(c))
    && (phase.Admitting? <==> s.lock == ByCaller(c))
  }

  ghost predicate CallsOk(s: State)
  {
    && (forall c :: 0 <= c < |s.calls| ==> LifeOk(s.calls[c]))
    && (forall c :: 0 <= c < |s.calls| ==> PlaceOk(s, c))
    && (forall c: nat :: Run(c) in s.queue ==> c < |s.calls|)
    && (s.worker.WithCall? ==> s.worker.c < |s.calls|)
    && (s.lock.ByCaller? ==> s.lock.c < |s.calls|)
  }

  predicate AfterStop(command: Command)
  {
    command == Stop || command == Do(SwitchStep)
  }

  /** No command is in the queue twice, except Stop, and calls and maintenance precede every Stop. */
  ghost predicate Ordered(queue: seq<Command>)
  {
    && |queue| <= PROJECT_QUEUE_CAPACITY
    && forall i, j :: 0 <= i < j < |queue| ==>
         && (queue[i] == queue[j] ==> queue[i] == Stop)
         && (queue[i] == Stop ==> AfterStop(queue[j]))
  }

  lemma AppendKeepsOrder(queue: seq<Command>, x: Command)
    requires Ordered(queue) && |queue| < PROJECT_QUEUE_CAPACITY
    requires x == Stop || x !in queue
    requires AfterStop(x) || Stop !in queue
    ensures Ordered(queue + [x])
    ensures forall y :: y in queue + [x] <==> y in queue || y == x
  {
  }

  lemma TailKeepsOrder(queue: seq<Command>)
    requires queue != [] && Ordered(queue)
    ensures Ordered(queue[1..])
    ensures forall x :: x in queue[1..] ==> x in queue
    ensures forall x :: x in queue && x != queue[0] ==> x in queue[1..]
    ensures queue[0] in queue && (queue[0] != Stop ==> queue[0] !in queue[1..])
    ensures queue[0] == Stop ==> forall x :: x in queue[1..] ==> AfterStop(x)
  {
    forall x | x in queue && x != queue[0]
      ensures x in queue[1..]
    {
      var i :| 0 <= i < |queue| && queue[i] == x;
      assert queue[1..][i - 1] == x;
    }
  }

  /** The flag is set exactly while its one command lives. */
  predicate SlotOk(s: State, kind: Upkeep)
  {
    var slot := SlotOf(s, kind);
    && (slot.flag <==> slot.token != Absent)
    && (slot.token == Waiting <==> Do(kind) in s.queue)
    && (slot.token.WithWorker? <==> s.worker == WithUpkeep(kind))
    && (kind == Maintenance && Scheduling(slot.token) ==> s.lock == ByScheduler)
  }

  predicate SlotsOk(s: State)
  {
    SlotOk(s, Maintenance) && SlotOk(s, SwitchStep)
  }

  predicate Dropped(t: Token)
  {
    t == WithWorker(Dumping) || t == WithWorker(DumpingFlag)
  }

  /** The worker has left its loop, and drops what is left in the queue. */
  predicate Closing(s: State)
  {
    match s.worker
    case Emptying => true
    case Dead => true
    case WithCall(c) => c < |s.calls| && s.calls[c].phase == Held(Discarding)
    case WithUpkeep(kind) => Dropped(SlotOf(s, kind).token)
    case _ => false
  }

  /** Whoever holds the admission lock saw the actor accepting, so no Stop is queued yet; a worker that
      leaves its loop without a panic took a Stop, and leaves no call behind. */
  ghost predicate DrainOk(s: State)
  {
    && (s.lock != Free ==> s.accepting)
    && (s.accepting ==> Stop !in s.queue)
    && (s.open <==> !Closing(s))
    && ((s.worker.Dying? || !s.open) && !s.panicked ==>
          && !s.accepting
          && (forall x :: x in s.queue ==> AfterStop(x))
          && !s.worker.WithCall?)
    && (s.worker.Dead? ==> s.queue == [])
    && (s.leaked > 0 ==> s.leaked == 1 && s.panicked && (s.worker.Dying? || !s.open))
  }

  ghost predicate Inv(s: State)
  {
    CountersOk(s) && ActiveOk(s) && CallsOk(s) && Ordered(s.queue) && SlotsOk(s) && DrainOk(s)
  }

  lemma InitialCountersOk()
    ensures CountersOk(INITIAL)
  {
  }

  lemma InitialKept()
    ensures Inv(INITIAL)
  {
    InitialCountersOk();
    hide CountersOk;
  }

  // ---------------------------------------------------------------- lifting

  /** A balanced effect on one call keeps the accounting. */
  lemma EffectKeepsCounters(s: State, t: State, c: nat, e: Effect)
    requires CountersOk(s) && c < |s.calls| && Balanced(s.calls[c], e)
    requires t.calls == s.calls[c := e.call] && t.pending == s.pending + e.pending
    requires t.projectBytes == s.projectBytes + e.project && t.globalBytes == s.globalBytes + e.global
    requires t.otherBytes == s.otherBytes && t.maintenance == s.maintenance && t.switchStep == s.switchStep
    requires t.projectBytes <= PROJECT_QUEUE_BYTES && t.globalBytes <= GLOBAL_QUEUE_BYTES
    ensures CountersOk(t)
  {
    SumUpdate(s.calls, c, e.call, PendingCommands);
    SumUpdate(s.calls, c, e.call, ProjectBytes);
    SumUpdate(s.calls, c, e.call, GlobalBytes);
    hide Sum, Share, TokenShare;
  }

  /** A caller's step, told without its definition. */
  lemma CallerEffect(s: State, c: nat, move: Move)
    requires MoveEnabled(s, c, move)
    ensures var k := s.calls[c];
            var allowed := Allowed(s, k, move);
            var e := Moved(k, move, allowed);
            var t := CallerNext(s, c, move);
            && t.calls == s.calls[c := e.call]
            && t.pending == s.pending + e.pending && t.projectBytes == s.projectBytes + e.project
            && t.globalBytes == s.globalBytes + e.global && t.active == s.active + e.active
            && t.queue == (if move.Send? && allowed then s.queue + [Run(c)] else s.queue)
            && t.lock == (if move.Admit? && allowed then ByCaller(c) else if move.Send? then Free else s.lock)
            && t.accepting == s.accepting && t.otherBytes == s.otherBytes && t.maintenance == s.maintenance
            && t.switchStep == s.switchStep && t.open == s.open && t.worker == s.worker && t.panicked == s.panicked
            && t.leaked == s.leaked
  {
    hide Moved;
  }

  lemma CallerKeepsCounters(s: State, c: nat, move: Move)
    requires MoveEnabled(s, c, move) && CountersOk(s) && LifeOk(s.calls[c])
    ensures CountersOk(CallerNext(s, c, move))
  {
    var k, e := s.calls[c], Moved(s.calls[c], move, Allowed(s, s.calls[c], move));
    CallerEffect(s, c, move);
    MoveKeepsLife(k, move, Allowed(s, k, move));
    CallerKeepsLimits(s, c, move);
    hide *;
    EffectKeepsCounters(s, CallerNext(s, c, move), c, e);
  }

  lemma CallerKeepsLimits(s: State, c: nat, move: Move)
    requires MoveEnabled(s, c, move) && s.projectBytes <= PROJECT_QUEUE_BYTES && s.globalBytes <= GLOBAL_QUEUE_BYTES
    ensures CallerNext(s, c, move).projectBytes <= PROJECT_QUEUE_BYTES
    ensures CallerNext(s, c, move).globalBytes <= GLOBAL_QUEUE_BYTES
  {
  }

  lemma CallerKeepsActive(s: State, c: nat, move: Move)
    requires MoveEnabled(s, c, move) && ActiveOk(s) && LifeOk(s.calls[c]) && PlaceOk(s, c)
    ensures ActiveOk(CallerNext(s, c, move))
  {
    CallerEffect(s, c, move);
    MoveKeepsLife(s.calls[c], move, Allowed(s, s.calls[c], move));
    assert s.worker != WithCall(c);
    hide *;
    ActiveUntouched(s, CallerNext(s, c, move));
  }

  lemma ActiveUntouched(s: State, t: State)
    requires ActiveOk(s) && t.active == s.active && t.worker == s.worker && t.leaked == s.leaked
    requires t.maintenance == s.maintenance && t.switchStep == s.switchStep && |t.calls| == |s.calls|
    requires s.worker.WithCall? && s.worker.c < |s.calls| ==> t.calls[s.worker.c] == s.calls[s.worker.c]
    ensures ActiveOk(t)
  {
  }

  lemma CallerKeepsPlace(s: State, c: nat, move: Move, d: nat)
    requires MoveEnabled(s, c, move) && d < |s.calls| && PlaceOk(s, d) && PlaceOk(s, c) && LifeOk(s.calls[c])
    ensures PlaceOk(CallerNext(s, c, move), d)
  {
    CallerEffect(s, c, move);
    MoveKeepsLife(s.calls[c], move, Allowed(s, s.calls[c], move));
    hide LifeOk, Moved, CallerNext, Allowed;
  }

  lemma CallerKeepsCalls(s: State, c: nat, move: Move)
    requires MoveEnabled(s, c, move) && CallsOk(s)
    ensures CallsOk(CallerNext(s, c, move))
  {
    var k, t := s.calls[c], CallerNext(s, c, move);
    assert LifeOk(k) && PlaceOk(s, c);
    CallerEffect(s, c, move);
    MoveKeepsLife(k, move, Allowed(s, k, move));
    hide LifeOk, PlaceOk, Moved, CallerNext, Allowed, MoveEnabled;
    forall d: nat | d < |t.calls|
      ensures PlaceOk(t, d)
    {
      CallerKeepsPlace(s, c, move, d);
    }
  }

  lemma CallerKeepsRest(s: State, c: nat, move: Move)
    requires MoveEnabled(s, c, move) && CallsOk(s) && Ordered(s.queue) && SlotsOk(s) && DrainOk(s)
    ensures var t := CallerNext(s, c, move); Ordered(t.queue) && SlotsOk(t) && DrainOk(t)
  {
    var k := s.calls[c];
    assert LifeOk(k) && PlaceOk(s, c);
    CallerEffect(s, c, move);
    MoveKeepsLife(k, move, Allowed(s, k, move));
    if move.Send? && Allowed(s, k, move) {
      AppendKeepsOrder(s.queue, Run(c));
    }
    hide LifeOk, Ordered, Moved, CallerNext, Allowed;
  }

  // ---------------------------------------------------------------- the worker on a call

  /** A panic of the preparation takes the worker from the call. */
  predicate Unwinds(k: Call, choice: Choice)
    requires k.phase.Held?
  {
    k.phase.stage == Preparing && choice.unwinds
  }

  lemma WorkEffect(s: State, c: nat, choice: Choice)
    requires c < |s.calls| && s.calls[c].phase.Held?
    ensures var e := Worked(s.calls[c], choice);
            var t := CallNext(s, c, choice);
            && t.calls == s.calls[c := e.call]
            && t.pending == s.pending + e.pending && t.projectBytes == s.projectBytes + e.project
            && t.globalBytes == s.globalBytes + e.global && t.active == s.active + e.active
            && t.worker == WorkerAfter(c, s.calls[c].phase, e.call.phase)
            && t.panicked == (s.panicked || s.calls[c].phase.stage == Replying(true) || Unwinds(s.calls[c], choice))
            && t.leaked == s.leaked + (if Unwinds(s.calls[c], choice) then 1 else 0)
            && t.queue == s.queue && t.lock == s.lock && t.accepting == s.accepting && t.otherBytes == s.otherBytes
            && t.maintenance == s.maintenance && t.switchStep == s.switchStep && t.open == s.open
  {
    hide Worked;
  }

  lemma WorkKeepsCounters(s: State, c: nat, choice: Choice)
    requires c < |s.calls| && s.calls[c].phase.Held? && CountersOk(s) && LifeOk(s.calls[c])
    ensures CountersOk(CallNext(s, c, choice))
  {
    var k, e := s.calls[c], Worked(s.calls[c], choice);
    WorkEffect(s, c, choice);
    WorkKeepsLife(k, choice);
    WorkOnlyReleases(k, choice);
    assert s.projectBytes <= PROJECT_QUEUE_BYTES && s.globalBytes <= GLOBAL_QUEUE_BYTES;
    hide *;
    EffectKeepsCounters(s, CallNext(s, c, choice), c, e);
  }

  lemma WorkOnlyReleases(k: Call, choice: Choice)
    requires k.phase.Held?
    ensures Worked(k, choice).project <= 0 && Worked(k, choice).global <= 0
  {
  }

  lemma WorkKeepsActive(s: State, c: nat, choice: Choice)
    requires c < |s.calls| && s.calls[c].phase.Held? && ActiveOk(s) && s.worker == WithCall(c)
    ensures ActiveOk(CallNext(s, c, choice))
  {
    WorkEffect(s, c, choice);
    WorkMovesOn(s.calls[c], choice);
    hide Worked, CallNext, ActiveUpkeep;
  }

  lemma WorkKeepsPlace(s: State, c: nat, choice: Choice, d: nat)
    requires c < |s.calls| && s.calls[c].phase.Held? && s.worker == WithCall(c)
    requires d < |s.calls| && PlaceOk(s, d) && PlaceOk(s, c)
    ensures PlaceOk(CallNext(s, c, choice), d)
  {
    WorkEffect(s, c, choice);
    WorkMovesOn(s.calls[c], choice);
    hide Worked, CallNext;
  }

  lemma WorkKeepsCalls(s: State, c: nat, choice: Choice)
    requires c < |s.calls| && s.calls[c].phase.Held? && s.worker == WithCall(c) && CallsOk(s)
    ensures CallsOk(CallNext(s, c, choice))
  {
    var t := CallNext(s, c, choice);
    assert LifeOk(s.calls[c]) && PlaceOk(s, c);
    WorkEffect(s, c, choice);
    WorkKeepsLife(s.calls[c], choice);
    hide LifeOk, PlaceOk, Worked, CallNext;
    forall d: nat | d < |t.calls|
      ensures PlaceOk(t, d)
    {
      WorkKeepsPlace(s, c, choice, d);
    }
  }

  lemma WorkKeepsRest(s: State, c: nat, choice: Choice)
    requires c < |s.calls| && s.calls[c].phase.Held? && s.worker == WithCall(c) && SlotsOk(s) && DrainOk(s)
    ensures var t := CallNext(s, c, choice); SlotsOk(t) && DrainOk(t)
  {
    WorkEffect(s, c, choice);
    WorkMovesOn(s.calls[c], choice);
    hide Worked, CallNext;
  }

  // ---------------------------------------------------------------- the worker takes a command

  predicate Between(w: Worker)
  {
    w.Idle? || w.Emptying?
  }

  lemma TakeCallEffect(s: State, c: nat)
    requires s.queue != [] && s.queue[0] == Run(c) && c < |s.calls|
    ensures var t := TakeNext(s);
            && t.calls == s.calls[c := At(s.calls[c], if s.worker.Idle? then Took else Discarding)]
            && t.pending == s.pending && t.projectBytes == s.projectBytes && t.globalBytes == s.globalBytes
            && t.otherBytes == s.otherBytes && t.maintenance == s.maintenance && t.switchStep == s.switchStep
  {
  }

  lemma TakeCallKeepsCounters(s: State, c: nat)
    requires Between(s.worker) && s.queue != [] && s.queue[0] == Run(c) && c < |s.calls| && s.calls[c].phase == Queued
    requires CountersOk(s)
    ensures CountersOk(TakeNext(s))
  {
    var k := At(s.calls[c], if s.worker.Idle? then Took else Discarding);
    assert Balanced(s.calls[c], Plain(k));
    TakeCallEffect(s, c);
    assert s.projectBytes <= PROJECT_QUEUE_BYTES && s.globalBytes <= GLOBAL_QUEUE_BYTES;
    hide CountersOk, Balanced, Share, TakeNext, At;
    EffectKeepsCounters(s, TakeNext(s), c, Plain(k));
  }

  lemma TakeCallKeepsPlace(s: State, c: nat, d: nat)
    requires Between(s.worker) && s.queue != [] && s.queue[0] == Run(c) && c < |s.calls| && s.calls[c].phase == Queued
    requires d < |s.calls| && PlaceOk(s, d) && PlaceOk(s, c) && Ordered(s.queue)
    ensures PlaceOk(TakeNext(s), d)
  {
    TailKeepsOrder(s.queue);
    hide Ordered;
  }

  lemma TakeCallKeepsLife(k: Call, stage: Stage)
    requires LifeOk(k) && k.phase == Queued && (stage == Took || stage == Discarding)
    ensures LifeOk(At(k, stage))
  {
  }

  lemma TakeCallKeepsCalls(s: State, c: nat)
    requires Between(s.worker) && s.queue != [] && s.queue[0] == Run(c) && c < |s.calls| && s.calls[c].phase == Queued
    requires CallsOk(s) && Ordered(s.queue)
    ensures CallsOk(TakeNext(s))
  {
    var t := TakeNext(s);
    assert LifeOk(s.calls[c]) && PlaceOk(s, c);
    TakeCallKeepsLife(s.calls[c], if s.worker.Idle? then Took else Discarding);
    TailKeepsOrder(s.queue);
    hide LifeOk, PlaceOk, Ordered;
    forall d: nat | d < |t.calls|
      ensures PlaceOk(t, d)
    {
      TakeCallKeepsPlace(s, c, d);
    }
  }

  lemma TakeCallKeepsRest(s: State, c: nat)
    requires Between(s.worker) && s.queue != [] && s.queue[0] == Run(c) && c < |s.calls| && s.calls[c].phase == Queued
    requires ActiveOk(s) && Ordered(s.queue) && SlotsOk(s) && DrainOk(s)
    ensures ActiveOk(TakeNext(s)) && Ordered(TakeNext(s).queue) && SlotsOk(TakeNext(s)) && DrainOk(TakeNext(s))
  {
    TailKeepsOrder(s.queue);
    assert s.queue[0] in s.queue;
    hide Ordered;
  }

  lemma TakeOtherKeepsCalls(s: State)
    requires Between(s.worker) && s.queue != [] && !s.queue[0].Run? && CallsOk(s) && Ordered(s.queue)
    ensures CallsOk(TakeNext(s))
  {
    TailKeepsOrder(s.queue);
    assert TakeNext(s).calls == s.calls && TakeNext(s).lock == s.lock && TakeNext(s).queue == s.queue[1..];
    hide Ordered, CallsOk;
    CallsUntouched(s, TakeNext(s));
  }

  lemma TakeUpkeepKeeps(s: State, kind: Upkeep)
    requires Between(s.worker) && s.queue != [] && s.queue[0] == Do(kind)
    requires ActiveOk(s) && Ordered(s.queue) && SlotsOk(s) && DrainOk(s)
    ensures var t := TakeNext(s); ActiveOk(t) && Ordered(t.queue) && SlotsOk(t) && DrainOk(t)
  {
    TailKeepsOrder(s.queue);
    hide Ordered;
  }

  lemma TakeUpkeepKeepsCounters(s: State, kind: Upkeep)
    requires s.queue != [] && s.queue[0] == Do(kind) && CountersOk(s) && SlotsOk(s)
    ensures CountersOk(TakeNext(s))
  {
    assert s.queue[0] in s.queue;
    hide Sum;
  }

  lemma TakeStopKeeps(s: State)
    requires Between(s.worker) && s.queue != [] && s.queue[0] == Stop
    requires CountersOk(s) && ActiveOk(s) && Ordered(s.queue) && SlotsOk(s) && DrainOk(s)
    ensures var t := TakeNext(s); CountersOk(t) && ActiveOk(t) && Ordered(t.queue) && SlotsOk(t) && DrainOk(t)
  {
    TailKeepsOrder(s.queue);
    hide Ordered, Sum;
  }

  lemma TakeKeeps(s: State)
    requires Between(s.worker) && s.queue != [] && Inv(s)
    ensures HeadKnown(s) && Inv(TakeNext(s))
  {
    assert s.queue[0] in s.queue;
    match s.queue[0] {
      case Run(c) =>
        assert PlaceOk(s, c);
        TakeCallKeepsCounters(s, c);
        TakeCallKeepsCalls(s, c);
        TakeCallKeepsRest(s, c);
      case Do(kind) =>
        TakeUpkeepKeeps(s, kind);
        TakeUpkeepKeepsCounters(s, kind);
        TakeOtherKeepsCalls(s);
      case Stop =>
        TakeStopKeeps(s);
        TakeOtherKeepsCalls(s);
    }
    hide CountersOk, ActiveOk, CallsOk, Ordered, SlotsOk, DrainOk;
  }

  // ---------------------------------------------------------------- maintenance and model switches

  lemma UpkeepKeepsCounters(s: State, kind: Upkeep, choice: Choice)
    requires SlotOf(s, kind).token.WithWorker? && CountersOk(s)
    ensures CountersOk(UpkeepNext(s, kind, choice))
  {
    hide Sum;
  }

  lemma UpkeepKeepsActive(s: State, kind: Upkeep, choice: Choice)
    requires s.worker == WithUpkeep(kind) && SlotOf(s, kind).token.WithWorker? && ActiveOk(s)
    ensures ActiveOk(UpkeepNext(s, kind, choice))
  {
  }

  lemma UpkeepKeepsRest(s: State, kind: Upkeep, choice: Choice)
    requires s.worker == WithUpkeep(kind) && SlotOf(s, kind).token.WithWorker? && SlotsOk(s) && DrainOk(s)
    ensures SlotsOk(UpkeepNext(s, kind, choice)) && DrainOk(UpkeepNext(s, kind, choice))
  {
    UpkeepKeepsSlots(s, kind, choice);
    UpkeepKeepsDrain(s, kind, choice);
    hide SlotsOk, DrainOk;
  }

  lemma UpkeepKeepsSlots(s: State, kind: Upkeep, choice: Choice)
    requires s.worker == WithUpkeep(kind) && SlotOf(s, kind).token.WithWorker? && SlotsOk(s)
    ensures SlotsOk(UpkeepNext(s, kind, choice))
  {
  }

  lemma UpkeepKeepsDrain(s: State, kind: Upkeep, choice: Choice)
    requires s.worker == WithUpkeep(kind) && SlotOf(s, kind).token.WithWorker? && DrainOk(s)
    ensures DrainOk(UpkeepNext(s, kind, choice))
  {
  }

  lemma ScheduleKeepsCounters(s: State, kind: Upkeep, todo: Schedule)
    requires ScheduleEnabled(s, kind, todo) && CountersOk(s) && ActiveOk(s) && SlotsOk(s)
    ensures CountersOk(SchedulerNext(s, kind, todo)) && ActiveOk(SchedulerNext(s, kind, todo))
  {
    hide Sum, HasRoom;
  }

  lemma ScheduleKeepsRest(s: State, kind: Upkeep, todo: Schedule)
    requires ScheduleEnabled(s, kind, todo) && Ordered(s.queue) && SlotsOk(s) && DrainOk(s)
    ensures var t := SchedulerNext(s, kind, todo); Ordered(t.queue) && SlotsOk(t) && DrainOk(t)
  {
    if todo.Submit? && HasRoom(s) {
      AppendKeepsOrder(s.queue, Do(kind));
    }
    hide Ordered;
  }

  /** A step that leaves calls, their commands, the lock's caller and the worker's call alone. */
  lemma CallsUntouched(s: State, t: State)
    requires CallsOk(s) && t.calls == s.calls
    requires forall c :: Run(c) in t.queue <==> Run(c) in s.queue
    requires forall c :: t.worker == WithCall(c) <==> s.worker == WithCall(c)
    requires forall c :: t.lock == ByCaller(c) <==> s.lock == ByCaller(c)
    ensures CallsOk(t)
  {
    hide LifeOk;
    forall d: nat | d < |t.calls|
      ensures LifeOk(t.calls[d]) && PlaceOk(t, d)
    {
      assert LifeOk(s.calls[d]) && PlaceOk(s, d);
    }
  }

  // ---------------------------------------------------------------- every step

  lemma CallerKeeps(s: State, c: nat, move: Move)
    requires Inv(s) && MoveEnabled(s, c, move)
    ensures Inv(CallerNext(s, c, move))
  {
    assert LifeOk(s.calls[c]) && PlaceOk(s, c);
    CallerKeepsCounters(s, c, move);
    CallerKeepsActive(s, c, move);
    CallerKeepsCalls(s, c, move);
    CallerKeepsRest(s, c, move);
    hide CountersOk, ActiveOk, CallsOk, Ordered, SlotsOk, DrainOk, CallerNext;
  }

  /** Steps that change only the calls: one is cancelled, or one arrives. */
  lemma RecallKeepsRest(s: State, calls: seq<Call>)
    requires ActiveOk(s) && SlotsOk(s) && DrainOk(s) && |s.calls| <= |calls|
    requires s.worker.WithCall? ==> s.worker.c < |s.calls|
    requires forall d :: 0 <= d < |s.calls| ==> calls[d].phase == s.calls[d].phase
    ensures var t := s.(calls := calls); ActiveOk(t) && SlotsOk(t) && DrainOk(t)
  {
    hide ActiveShare;
  }

  lemma CancelKeeps(s: State, c: nat)
    requires Inv(s) && c < |s.calls|
    ensures Inv(s.(calls := s.calls[c := Cancelled(s.calls[c])]))
  {
    var k := Cancelled(s.calls[c]);
    var t := s.(calls := s.calls[c := k]);
    assert LifeOk(s.calls[c]);
    CancelKeepsLife(s.calls[c]);
    EffectKeepsCounters(s, t, c, Plain(k));
    RecallKeepsRest(s, t.calls);
    hide LifeOk, Ordered, Cancelled, SlotsOk, DrainOk, ActiveOk, CountersOk;
    forall d: nat | d < |t.calls|
      ensures LifeOk(t.calls[d]) && PlaceOk(t, d)
    {
      assert LifeOk(s.calls[d]) && PlaceOk(s, d);
    }
  }

  lemma CancelKeepsLife(k: Call)
    requires LifeOk(k)
    ensures LifeOk(Cancelled(k)) && Balanced(k, Plain(Cancelled(k))) && Cancelled(k).phase == k.phase
  {
  }

  lemma ArriveKeepsCounters(s: State, bytes: nat)
    requires CountersOk(s)
    ensures CountersOk(s.(calls := s.calls + [NewCall(bytes)]))
  {
    SumAppend(s.calls, NewCall(bytes), PendingCommands);
    SumAppend(s.calls, NewCall(bytes), ProjectBytes);
    SumAppend(s.calls, NewCall(bytes), GlobalBytes);
    hide Sum, TokenShare;
  }

  lemma ArriveKeepsCalls(s: State, bytes: nat)
    requires CallsOk(s)
    ensures CallsOk(s.(calls := s.calls + [NewCall(bytes)]))
  {
    var t := s.(calls := s.calls + [NewCall(bytes)]);
    assert LifeOk(NewCall(bytes));
    hide LifeOk;
    forall d: nat | d < |t.calls|
      ensures LifeOk(t.calls[d]) && PlaceOk(t, d)
    {
      if d < |s.calls| {
        assert LifeOk(s.calls[d]) && PlaceOk(s, d);
      }
    }
    hide PlaceOk;
  }

  lemma ArriveKeeps(s: State, bytes: nat)
    requires Inv(s)
    ensures Inv(s.(calls := s.calls + [NewCall(bytes)]))
  {
    ArriveKeepsCounters(s, bytes);
    ArriveKeepsCalls(s, bytes);
    RecallKeepsRest(s, s.calls + [NewCall(bytes)]);
    hide CountersOk, CallsOk, ActiveOk, Ordered, SlotsOk, DrainOk;
  }

  lemma WorkerOnCallKeeps(s: State, c: nat, choice: Choice)
    requires Inv(s) && s.worker == WithCall(c) && c < |s.calls| && s.calls[c].phase.Held?
    ensures Inv(CallNext(s, c, choice))
  {
    assert LifeOk(s.calls[c]);
    WorkKeepsCounters(s, c, choice);
    WorkKeepsActive(s, c, choice);
    WorkKeepsCalls(s, c, choice);
    WorkKeepsRest(s, c, choice);
    WorkEffect(s, c, choice);
    hide CountersOk, ActiveOk, CallsOk, Ordered, SlotsOk, DrainOk, CallNext;
  }

  lemma WorkerOnUpkeepKeeps(s: State, kind: Upkeep, choice: Choice)
    requires Inv(s) && s.worker == WithUpkeep(kind) && SlotOf(s, kind).token.WithWorker?
    ensures Inv(UpkeepNext(s, kind, choice))
  {
    UpkeepKeepsCounters(s, kind, choice);
    UpkeepKeepsActive(s, kind, choice);
    UpkeepKeepsRest(s, kind, choice);
    CallsUntouched(s, UpkeepNext(s, kind, choice));
    hide CountersOk, ActiveOk, CallsOk, Ordered, SlotsOk, DrainOk;
  }

  lemma WorkerAloneKeeps(s: State, choice: Choice)
    requires Inv(s) && (s.worker.Leaving? || s.worker.Dying? || (s.worker.Emptying? && s.queue == []))
    ensures Inv(WorkerNext(s, choice))
  {
    CallsUntouched(s, WorkerNext(s, choice));
    hide Ordered, Sum, CallsOk, TakeNext, CallNext, UpkeepNext;
  }

  lemma WorkerKeeps(s: State, choice: Choice)
    requires Inv(s) && WorkerEnabled(s)
    ensures Inv(WorkerNext(s, choice))
  {
    if Between(s.worker) && s.queue != [] {
      TakeKeeps(s);
    } else if s.worker.WithCall? {
      WorkerOnCallKeeps(s, s.worker.c, choice);
    } else if s.worker.WithUpkeep? {
      WorkerOnUpkeepKeeps(s, s.worker.kind, choice);
    } else {
      WorkerAloneKeeps(s, choice);
    }
    hide Inv, CallNext, TakeNext, UpkeepNext;
  }

  lemma StopKeeps(s: State)
    requires Inv(s) && !s.accepting && HasRoom(s)
    ensures Inv(s.(queue := s.queue + [Stop]))
  {
    AppendKeepsOrder(s.queue, Stop);
    CallsUntouched(s, s.(queue := s.queue + [Stop]));
    hide Ordered, Sum, CallsOk;
  }

  /** Steps that change only the lock, the accepting flag or the other actors' bytes. */
  lemma SharedKeeps(s: State, t: State)
    requires Inv(s)
    requires t == s.(accepting := t.accepting, lock := t.lock, globalBytes := t.globalBytes, otherBytes := t.otherBytes)
    requires t.globalBytes - t.otherBytes == s.globalBytes - s.otherBytes && t.globalBytes <= GLOBAL_QUEUE_BYTES
    requires s.lock == Free || t.lock == s.lock
    requires !t.lock.ByCaller? || t.lock == s.lock
    requires t.accepting ==> s.accepting
    requires t.lock != Free ==> t.accepting
    ensures Inv(t)
  {
    CallsUntouched(s, t);
    hide Ordered, Sum, CallsOk, ActiveUpkeep, ActiveShare, PhaseActive;
  }

  lemma SchedulerKeeps(s: State, kind: Upkeep, todo: Schedule)
    requires ScheduleEnabled(s, kind, todo) && Inv(s)
    ensures Inv(SchedulerNext(s, kind, todo))
  {
    ScheduleKeepsCounters(s, kind, todo);
    ScheduleKeepsRest(s, kind, todo);
    CallsUntouched(s, SchedulerNext(s, kind, todo));
    hide CountersOk, ActiveOk, CallsOk, Ordered, SlotsOk, DrainOk;
  }

  /** The invariant is inductive. */
  lemma StepKeeps(s: State, a: Action)
    requires Inv(s) && Enabled(s, a)
    ensures Inv(Next(s, a))
  {
    assert (s.lock != Free ==> s.accepting) && s.globalBytes <= GLOBAL_QUEUE_BYTES;
    hide CountersOk, ActiveOk, CallsOk, Ordered, SlotsOk, DrainOk, CallerNext, WorkerNext, SchedulerNext, HasRoom;
    match a {
      case Arrive(bytes) => ArriveKeeps(s, bytes);
      case Caller(c, move) => CallerKeeps(s, c, move);
      case Cancel(c) => CancelKeeps(s, c);
      case Scheduler(kind, todo) => SchedulerKeeps(s, kind, todo);
      case SendStop => StopKeeps(s);
      case Work(choice) => WorkerKeeps(s, choice);
      case _ => SharedKeeps(s, Next(s, a));
    }
  }
}
