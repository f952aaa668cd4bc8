/** What holds over whole runs of the actor, under every interleaving of its parties. */
module ActorRuns {

  import opened Actor
  import opened ActorInvariant
  import opened Sequences

  predicate Possible(s: State, acts: seq<Action>)
    decreases |acts|
  {
    acts == [] || (Enabled(s, acts[0]) && Possible(Next(s, acts[0]), acts[1..]))
  }

  function After(s: State, acts: seq<Action>): State
    requires Possible(s, acts)
    decreases |acts|
  {
    if acts == [] then s else After(Next(s, acts[0]), acts[1..])
  }

  lemma {:induction false} RunKeeps(s: State, acts: seq<Action>)
    requires Inv(s) && Possible(s, acts)
    ensures Inv(After(s, acts))
    decreases |acts|
  {
    if acts != [] {
      StepKeeps(s, acts[0]);
      hide Inv, Enabled, Next;
      RunKeeps(Next(s, acts[0]), acts[1..]);
    }
  }

  /** The state a run from the start of the actor reaches satisfies the invariant. */
  lemma Reached(acts: seq<Action>)
    requires Possible(INITIAL, acts)
    ensures Inv(After(INITIAL, acts))
  {
    InitialKept();
    hide *;
    RunKeeps(INITIAL, acts);
  }

  // ---------------------------------------------------------------- how a call evolves

  /** What any step, of any party, can make of a call. */
  ghost predicate Evolves(k: Call, after: Call)
  {
    || after == k
    || after == Cancelled(k)
    || (k.phase.Queued? && (after == At(k, Took) || after == At(k, Discarding)))
    || (exists move, allowed :: CanMove(k.phase, move) && after == Moved(k, move, allowed).call)
    || (k.phase.Held? && exists choice :: after == Worked(k, choice).call)
  }

  lemma CallEvolves(s: State, a: Action, c: nat)
    requires Inv(s) && Enabled(s, a) && c < |s.calls|
    ensures c < |Next(s, a).calls| && Evolves(s.calls[c], Next(s, a).calls[c])
  {
    var k := s.calls[c];
    match a {
      case Caller(d, move) =>
        CallerEffect(s, d, move);
        if c == d {
          assert Next(s, a).calls[c] == Moved(k, move, Allowed(s, k, move)).call;
        }
      case Work(choice) => WorkEvolves(s, choice, c);
      case _ =>
    }
  }

  lemma WorkEvolves(s: State, choice: Choice, c: nat)
    requires Inv(s) && WorkerEnabled(s) && c < |s.calls|
    ensures c < |WorkerNext(s, choice).calls| && Evolves(s.calls[c], WorkerNext(s, choice).calls[c])
  {
    if s.worker.WithCall? {
      WorkEffect(s, s.worker.c, choice);
    } else if Between(s.worker) && s.queue != [] && s.queue[0].Run? {
      assert s.queue[0] in s.queue;
      assert PlaceOk(s, s.queue[0].c);
    }
  }

  /** A property of calls that no step can end holds for ever once it holds. */
  lemma {:induction false} StaysTrue(s: State, acts: seq<Action>, c: nat, P: Call -> bool)
    requires Inv(s) && Possible(s, acts) && c < |s.calls| && P(s.calls[c])
    requires forall k, after :: LifeOk(k) && P(k) && Evolves(k, after) ==> P(after)
    ensures c < |After(s, acts).calls| && P(After(s, acts).calls[c])
    decreases |acts|
  {
    if acts != [] {
      StepKeeps(s, acts[0]);
      CallEvolves(s, acts[0], c);
      assert LifeOk(s.calls[c]);
      hide Inv, Enabled, Next, Evolves, LifeOk;
      StaysTrue(Next(s, acts[0]), acts[1..], c, P);
    }
  }

  // ---------------------------------------------------------------- cancellation

  /** The call is over or cancelled, and was not executed. */
  predicate Barred(k: Call)
  {
    k.executions == 0 && (k.cell == COMPLETED || k.cell == CANCELLED)
  }

  lemma BarredWork(k: Call, choice: Choice)
    requires CellOk(k) && Barred(k) && k.phase.Held?
    ensures Barred(Worked(k, choice).call)
  {
  }

  lemma BarredMoves(k: Call, move: Move, allowed: bool)
    requires Barred(k) && CanMove(k.phase, move)
    ensures Barred(Moved(k, move, allowed).call)
  {
  }

  lemma BarredForEver(k: Call, after: Call)
    requires LifeOk(k) && Barred(k) && Evolves(k, after)
    ensures Barred(after)
  {
    forall move, allowed | CanMove(k.phase, move)
      ensures Barred(Moved(k, move, allowed).call)
    {
      BarredMoves(k, move, allowed);
    }
    forall choice | k.phase.Held?
      ensures Barred(Worked(k, choice).call)
    {
      BarredWork(k, choice);
    }
    hide Moved, Worked, CanMove, LifeOk;
  }

  lemma CancelledNeverRuns(s: State, later: seq<Action>, c: nat)
    requires Inv(s) && c < |s.calls| && (s.calls[c].cell == CANCELLED || s.calls[c].cancelWon) && Possible(s, later)
    ensures c < |After(s, later).calls| && After(s, later).calls[c].executions == 0
  {
    assert LifeOk(s.calls[c]);
    assert Barred(s.calls[c]);
    hide Inv, Possible, After, LifeOk, Evolves;
    forall k, after | LifeOk(k) && Barred(k) && Evolves(k, after)
      ensures Barred(after)
    {
      BarredForEver(k, after);
    }
    StaysTrue(s, later, c, Barred);
  }

  /** A call that was cancelled, by a canceller or by its deadline, is never executed, before or after. */
  lemma CancelExcludesExecution(before: seq<Action>, later: seq<Action>, c: nat)
    requires Possible(INITIAL, before)
    requires var s := After(INITIAL, before);
             && c < |s.calls|
             && (s.calls[c].cell == CANCELLED || s.calls[c].cancelWon)
             && Possible(s, later)
    ensures var t := After(After(INITIAL, before), later);
            c < |t.calls| && t.calls[c].executions == 0
  {
    Reached(before);
    hide *;
    CancelledNeverRuns(After(INITIAL, before), later, c);
  }

  /** Every call is executed at most once and answered at most once; it has its reply exactly when the
      worker is done with it, and the reply says whether it was executed. */
  lemma AtMostOnce(acts: seq<Action>, c: nat)
    requires Possible(INITIAL, acts) && c < |After(INITIAL, acts).calls|
    ensures var s := After(INITIAL, acts);
            var k := s.calls[c];
            && k.executions <= 1 && k.replies <= 1
            && (k.replies == 1 <==> k.phase.Answered?)
            && (k.phase.Answered? ==> (k.executions == 1 <==> k.phase.answer.Handled? || k.phase.answer.Panicked?))
            && (k.sent && !k.phase.Queued? && !k.phase.Answered? && !k.phase.Lost? ==> s.worker == WithCall(c))
  {
    Reached(acts);
    var s := After(INITIAL, acts);
    assert LifeOk(s.calls[c]) && PlaceOk(s, c);
    hide Possible, After, Inv, PermitOk;
  }

  // ---------------------------------------------------------------- has_work

  /** Counted as pending once, and not any more. */
  predicate Settled(k: Call)
  {
    k.counted && !k.permit.pending
  }

  /** The call cannot be executed any more, and no execution of it is under way. */
  predicate Finished(k: Call)
  {
    match k.phase
    case Dropping => true
    case Ended => true
    case Answered(_) => true
    case Lost => true
    case Held(stage) => stage.Completing? || stage.Replying? || stage.Discarding?
    case _ => false
  }

  lemma SettledWork(k: Call, choice: Choice)
    requires Settled(k) && k.phase.Held?
    ensures Settled(Worked(k, choice).call)
  {
  }

  lemma SettledMoves(k: Call, move: Move, allowed: bool)
    requires PermitOk(k) && Settled(k) && CanMove(k.phase, move)
    ensures Settled(Moved(k, move, allowed).call)
  {
  }

  lemma SettledForEver(k: Call, after: Call)
    requires LifeOk(k) && Settled(k) && Evolves(k, after)
    ensures Settled(after)
  {
    forall move, allowed | CanMove(k.phase, move)
      ensures Settled(Moved(k, move, allowed).call)
    {
      SettledMoves(k, move, allowed);
    }
    forall choice | k.phase.Held?
      ensures Settled(Worked(k, choice).call)
    {
      SettledWork(k, choice);
    }
    hide Moved, Worked, CanMove, LifeOk;
  }

  lemma ShareAtMostSum(calls: seq<Call>, c: nat, counter: Counter)
    requires c < |calls|
    ensures Share(calls[c], counter) <= Sum(calls, counter)
  {
    SumUpdate(calls, c, NewCall(0), counter);
  }

  /** `has_work` reads `pending` as 0 and some time later `active` as 0: every call that was counted as
      pending before the first read is finished at the second. */
  lemma HasWorkMissesNothing(before: seq<Action>, between: seq<Action>, c: nat)
    requires Possible(INITIAL, before)
    requires var s := After(INITIAL, before);
             && s.pending == 0 && c < |s.calls| && s.calls[c].counted
             && Possible(s, between) && After(s, between).active == 0
    ensures var t := After(After(INITIAL, before), between);
            c < |t.calls| && Finished(t.calls[c])
  {
    var s := After(INITIAL, before);
    var t := After(s, between);
    Reached(before);
    RunKeeps(s, between);
    ShareAtMostSum(s.calls, c, PendingCommands);
    assert Settled(s.calls[c]);
    hide Possible, After, LifeOk, Evolves, Sum, Settled;
    forall k, after | LifeOk(k) && Settled(k) && Evolves(k, after)
      ensures Settled(after)
    {
      SettledForEver(k, after);
    }
    StaysTrue(s, between, c, Settled);
    assert ActiveOk(t) && LifeOk(t.calls[c]) && PlaceOk(t, c);
    hide Inv, CallsOk;
    SettledAndInactive(t, c);
  }

  lemma SettledAndInactive(t: State, c: nat)
    requires c < |t.calls| && LifeOk(t.calls[c]) && Settled(t.calls[c]) && PlaceOk(t, c) && ActiveOk(t) && t.active == 0
    ensures Finished(t.calls[c])
  {
    hide CellOk;
  }

  /** What "finished" is worth: the number of executions is final. */
  lemma FinishedForEver(s: State, later: seq<Action>, c: nat)
    requires Inv(s) && c < |s.calls| && Finished(s.calls[c]) && Possible(s, later)
    ensures c < |After(s, later).calls|
    ensures Finished(After(s, later).calls[c]) && After(s, later).calls[c].executions == s.calls[c].executions
  {
    var n := s.calls[c].executions;
    hide Possible, After, Inv;
    forall k, after | LifeOk(k) && Finished(k) && k.executions == n && Evolves(k, after)
      ensures Finished(after) && after.executions == n
    {
      FinishedStays(k, after);
    }
    hide Evolves, LifeOk, Finished;
    StaysTrue(s, later, c, k => Finished(k) && k.executions == n);
  }

  lemma FinishedMoves(k: Call, move: Move, allowed: bool)
    requires Finished(k) && CanMove(k.phase, move)
    ensures Finished(Moved(k, move, allowed).call) && Moved(k, move, allowed).call.executions == k.executions
  {
  }

  lemma FinishedWork(k: Call, choice: Choice)
    requires Finished(k) && k.phase.Held?
    ensures Finished(Worked(k, choice).call) && Worked(k, choice).call.executions == k.executions
  {
  }

  lemma FinishedStays(k: Call, after: Call)
    requires Finished(k) && Evolves(k, after)
    ensures Finished(after) && after.executions == k.executions
  {
    forall move, allowed | CanMove(k.phase, move)
      ensures Finished(Moved(k, move, allowed).call) && Moved(k, move, allowed).call.executions == k.executions
    {
      FinishedMoves(k, move, allowed);
    }
    forall choice | k.phase.Held?
      ensures Finished(Worked(k, choice).call) && Worked(k, choice).call.executions == k.executions
    {
      FinishedWork(k, choice);
    }
    hide Moved, Worked, CanMove;
  }

  // ---------------------------------------------------------------- accounting

  /** In every reachable state the counters are the sums of the live shares and within their limits. */
  lemma AccountingIsExact(acts: seq<Action>)
    requires Possible(INITIAL, acts)
    ensures var s := After(INITIAL, acts);
            && s.projectBytes == Sum(s.calls, ProjectBytes) <= PROJECT_QUEUE_BYTES
            && s.globalBytes == Sum(s.calls, GlobalBytes) + s.otherBytes <= GLOBAL_QUEUE_BYTES
            && s.pending == Sum(s.calls, PendingCommands) + TokenShare(s.maintenance.token) + TokenShare(s.switchStep.token)
            && 0 <= s.active <= 1
  {
    Reached(acts);
    hide Possible, After, CallsOk, Ordered, SlotsOk, DrainOk, Sum, TokenShare;
  }

  predicate Over(phase: Phase)
  {
    phase.Start? || phase.Ended? || phase.Answered? || phase.Lost?
  }

  /** The step is a panic of the preparation, which unwinds the worker. */
  predicate UnwindsWorker(s: State, a: Action)
  {
    && a.Work? && s.worker.WithCall? && s.worker.c < |s.calls| && s.calls[s.worker.c].phase.Held?
    && Unwinds(s.calls[s.worker.c], a.choice)
  }

  /** How many steps of the run are. */
  function Unwindings(s: State, acts: seq<Action>): nat
    requires Possible(s, acts)
    decreases |acts|
  {
    if acts == [] then 0 else (if UnwindsWorker(s, acts[0]) then 1 else 0) + Unwindings(Next(s, acts[0]), acts[1..])
  }

  lemma LeaksByUnwinding(s: State, a: Action)
    requires Enabled(s, a)
    ensures Next(s, a).leaked == s.leaked + if UnwindsWorker(s, a) then 1 else 0
  {
    match a {
      case Caller(c, move) =>
        CallerEffect(s, c, move);
        hide CallerNext;
      case Work(_) =>
        hide Worked, Tended;
      case _ =>
    }
  }

  /** What is leaked is what the run has unwound. */
  lemma {:induction false} LeakedAreUnwound(s: State, acts: seq<Action>)
    requires Possible(s, acts)
    ensures After(s, acts).leaked == s.leaked + Unwindings(s, acts)
    decreases |acts|
  {
    if acts != [] {
      LeaksByUnwinding(s, acts[0]);
      hide Enabled, Next, UnwindsWorker;
      LeakedAreUnwound(Next(s, acts[0]), acts[1..]);
    }
  }

  /** When no call and no command is under way, every counter is back to zero, except that the worker has
      yet to uncount the call it just rejected, or was taken by a panic from the one it prepared; and that
      happens at most once. */
  lemma QuietIsZero(acts: seq<Action>)
    requires Possible(INITIAL, acts)
    requires var s := After(INITIAL, acts);
             && s.maintenance.token == s.switchStep.token == Absent
             && (forall c :: 0 <= c < |s.calls| ==> Over(s.calls[c].phase))
    ensures var s := After(INITIAL, acts);
            && s.pending == 0 && s.projectBytes == 0 && s.globalBytes == s.otherBytes
            && s.active == Unwindings(INITIAL, acts) + (if s.worker.Leaving? then 1 else 0)
            && Unwindings(INITIAL, acts) <= (if s.panicked then 1 else 0)
  {
    var s := After(INITIAL, acts);
    Reached(acts);
    LeakedAreUnwound(INITIAL, acts);
    hide Possible, After, Sum, Unwindings;
    forall c: nat, counter | c < |s.calls|
      ensures Share(s.calls[c], counter) == 0
    {
      assert LifeOk(s.calls[c]) && PlaceOk(s, c);
    }
    SumZero(s.calls, PendingCommands);
    SumZero(s.calls, ProjectBytes);
    SumZero(s.calls, GlobalBytes);
  }

  /** A command that a panic left uncounted is counted for ever: from then on `has_work` always finds work,
      so the actor never looks idle again. */
  lemma {:induction false} LeakIsForEver(s: State, acts: seq<Action>)
    requires Inv(s) && Possible(s, acts) && s.leaked > 0
    ensures After(s, acts).active > 0
    decreases |acts|
  {
    if acts == [] {
      hide CountersOk, CallsOk, Ordered, SlotsOk, DrainOk;
    } else {
      StepKeeps(s, acts[0]);
      LeaksByUnwinding(s, acts[0]);
      hide Inv, Enabled, Next;
      LeakIsForEver(Next(s, acts[0]), acts[1..]);
    }
  }

  /** At most one command of the kind lives: it is in the queue once, or with the worker, or with its
      scheduler, and its flag is set exactly then. */
  ghost predicate Coalesced(s: State, kind: Upkeep)
  {
    && (forall i, j :: 0 <= i < j < |s.queue| ==> s.queue[i] != Do(kind) || s.queue[j] != Do(kind))
    && !(Do(kind) in s.queue && s.worker == WithUpkeep(kind))
    && (Do(kind) in s.queue || s.worker == WithUpkeep(kind) ==> !Scheduling(SlotOf(s, kind).token))
    && (SlotOf(s, kind).flag <==> Do(kind) in s.queue || s.worker == WithUpkeep(kind) || Scheduling(SlotOf(s, kind).token))
  }

  lemma OrderedSlotIsCoalesced(s: State, kind: Upkeep)
    requires Ordered(s.queue) && SlotOk(s, kind)
    ensures Coalesced(s, kind)
  {
  }

  lemma UpkeepIsCoalesced(acts: seq<Action>, kind: Upkeep)
    requires Possible(INITIAL, acts)
    ensures Coalesced(After(INITIAL, acts), kind)
  {
    Reached(acts);
    hide Possible, After;
    var s := After(INITIAL, acts);
    assert SlotOk(s, kind) && Ordered(s.queue);
    hide *;
    OrderedSlotIsCoalesced(s, kind);
  }

  // ---------------------------------------------------------------- draining

  /** Calls and maintenance precede every Stop in the queue. */
  lemma CallsPrecedeStop(acts: seq<Action>, i: nat, j: nat)
    requires Possible(INITIAL, acts)
    requires var q := After(INITIAL, acts).queue; i < |q| && j < |q| && q[i] == Stop && (q[j].Run? || q[j] == Do(Maintenance))
    ensures j < i
  {
    Reached(acts);
    hide Possible, After, CallsOk, CountersOk, ActiveOk, DrainOk, SlotsOk;
  }

  /** The commands that a step sends, and that it takes from the channel. */
  function SentBy(s: State, a: Action): seq<Command>
  {
    match a
    case Caller(c, Send) => if HasRoom(s) then [Run(c)] else []
    case Scheduler(kind, Submit) => if HasRoom(s) then [Do(kind)] else []
    case SendStop => [Stop]
    case _ => []
  }

  function TakenBy(s: State, a: Action): seq<Command>
  {
    if a.Work? && Between(s.worker) && s.queue != [] then [s.queue[0]] else []
  }

  function Sent(s: State, acts: seq<Action>): seq<Command>
    requires Possible(s, acts)
    decreases |acts|
  {
    if acts == [] then [] else SentBy(s, acts[0]) + Sent(Next(s, acts[0]), acts[1..])
  }

  function Taken(s: State, acts: seq<Action>): seq<Command>
    requires Possible(s, acts)
    decreases |acts|
  {
    if acts == [] then [] else TakenBy(s, acts[0]) + Taken(Next(s, acts[0]), acts[1..])
  }

  lemma WorkerOnlyTakes(s: State, choice: Choice)
    requires WorkerEnabled(s)
    ensures s.queue == TakenBy(s, Work(choice)) + WorkerNext(s, choice).queue
  {
    if s.worker.WithCall? {
      WorkEffect(s, s.worker.c, choice);
      hide CallNext;
    }
  }

  lemma QueueStep(s: State, a: Action)
    requires Enabled(s, a)
    ensures s.queue + SentBy(s, a) == TakenBy(s, a) + Next(s, a).queue
  {
    match a {
      case Caller(d, move) =>
        CallerEffect(s, d, move);
        hide CallerNext;
      case Work(choice) =>
        WorkerOnlyTakes(s, choice);
        hide WorkerNext;
      case _ =>
        hide CallerNext, WorkerNext;
    }
  }

  /** First in, first out, over every run: what was taken from the channel, followed by what waits in it,
      is what waited in it at the start followed by what was sent. */
  lemma {:induction false} FirstSentFirstServed(s: State, acts: seq<Action>)
    requires Possible(s, acts)
    ensures s.queue + Sent(s, acts) == Taken(s, acts) + After(s, acts).queue
    decreases |acts|
  {
    if acts != [] {
      var n := Next(s, acts[0]);
      QueueStep(s, acts[0]);
      hide Enabled, Next, SentBy, TakenBy;
      FirstSentFirstServed(n, acts[1..]);
      ConcatAssociates(s.queue, SentBy(s, acts[0]), Sent(n, acts[1..]));
      ConcatAssociates(TakenBy(s, acts[0]), n.queue, Sent(n, acts[1..]));
      ConcatAssociates(TakenBy(s, acts[0]), Taken(n, acts[1..]), After(n, acts[1..]).queue);
    } else {
      assert s.queue + [] == [] + s.queue;
    }
  }

  /** No more is admitted: the actor does not accept, and no call is counted that was not before. */
  ghost predicate AdmitsNoMore(s: State, t: State)
  {
    && !t.accepting && |s.calls| <= |t.calls|
    && (forall c :: 0 <= c < |t.calls| && t.calls[c].counted ==> c < |s.calls| && s.calls[c].counted)
  }

  lemma DrainingStep(s: State, a: Action)
    requires Inv(s) && Enabled(s, a) && !s.accepting
    ensures AdmitsNoMore(s, Next(s, a))
  {
    match a {
      case Caller(c, move) => CallerAdmitsNoMore(s, c, move);
      case Work(choice) => WorkerKeepsCounted(s, choice);
      case _ =>
    }
    hide Inv, CallerNext, WorkerNext, SchedulerNext;
  }

  lemma CallerAdmitsNoMore(s: State, c: nat, move: Move)
    requires MoveEnabled(s, c, move) && !s.accepting
    ensures AdmitsNoMore(s, CallerNext(s, c, move))
  {
    CallerEffect(s, c, move);
    CountedByAdmission(s.calls[c], move, Allowed(s, s.calls[c], move));
    hide CallerNext, Moved;
  }

  lemma CountedByAdmission(k: Call, move: Move, allowed: bool)
    requires CanMove(k.phase, move)
    ensures Moved(k, move, allowed).call.counted ==> k.counted || (move.Admit? && allowed)
  {
  }

  lemma WorkerKeepsCounted(s: State, choice: Choice)
    requires Inv(s) && WorkerEnabled(s)
    ensures var t := WorkerNext(s, choice);
            && t.accepting == s.accepting && |t.calls| == |s.calls|
            && (forall c :: 0 <= c < |t.calls| ==> t.calls[c].counted == s.calls[c].counted)
  {
    hide Inv;
    if s.worker.WithCall? {
      WorkEffect(s, s.worker.c, choice);
      WorkedKeepsCounted(s.calls[s.worker.c], choice);
      hide CallNext, Worked;
    } else if s.worker.WithUpkeep? {
      UpkeepKeepsCalls(s, s.worker.kind, choice);
      hide UpkeepNext;
    }
  }

  lemma UpkeepKeepsCalls(s: State, kind: Upkeep, choice: Choice)
    requires SlotOf(s, kind).token.WithWorker?
    ensures UpkeepNext(s, kind, choice).calls == s.calls && UpkeepNext(s, kind, choice).accepting == s.accepting
  {
  }

  lemma WorkedKeepsCounted(k: Call, choice: Choice)
    requires k.phase.Held?
    ensures Worked(k, choice).call.counted == k.counted
  {
  }

  /** After `begin_draining` the actor never accepts again and no further call is admitted. */
  lemma {:induction false} NothingIsAdmittedAfterDraining(s: State, acts: seq<Action>)
    requires Inv(s) && Possible(s, acts) && !s.accepting
    ensures var t := After(s, acts);
            && !t.accepting && |s.calls| <= |t.calls|
            && (forall c :: 0 <= c < |t.calls| && t.calls[c].counted ==> c < |s.calls| && s.calls[c].counted)
    decreases |acts|
  {
    if acts != [] {
      DrainingStep(s, acts[0]);
      StepKeeps(s, acts[0]);
      hide Inv, Enabled, Next;
      NothingIsAdmittedAfterDraining(Next(s, acts[0]), acts[1..]);
    }
  }

  predicate NoLoss(s: State)
  {
    !s.panicked ==> forall c :: 0 <= c < |s.calls| ==> !s.calls[c].phase.Lost?
  }

  lemma NoLossStep(s: State, a: Action)
    requires Inv(s) && Enabled(s, a) && NoLoss(s)
    ensures NoLoss(Next(s, a))
  {
    match a {
      case Caller(c, move) =>
        CallerEffect(s, c, move);
        CallerNeverLoses(s.calls[c], move, Allowed(s, s.calls[c], move));
        hide CallerNext, Moved;
      case Work(choice) =>
        WorkerLosesOnlyAfterPanic(s, choice);
        hide WorkerNext;
      case _ =>
    }
    hide Inv;
  }

  lemma CallerNeverLoses(k: Call, move: Move, allowed: bool)
    requires CanMove(k.phase, move)
    ensures !Moved(k, move, allowed).call.phase.Lost?
  {
  }

  lemma WorkerLosesOnlyAfterPanic(s: State, choice: Choice)
    requires Inv(s) && WorkerEnabled(s) && NoLoss(s)
    ensures NoLoss(WorkerNext(s, choice))
  {
    if s.worker.WithCall? {
      WorkEffect(s, s.worker.c, choice);
      WorkMovesOn(s.calls[s.worker.c], choice);
      hide CallNext, Worked;
    }
    hide CallsOk, CountersOk, ActiveOk, SlotsOk, Ordered;
  }

  lemma {:induction false} NoLossOnRun(s: State, acts: seq<Action>)
    requires Inv(s) && NoLoss(s) && Possible(s, acts)
    ensures NoLoss(After(s, acts))
    decreases |acts|
  {
    if acts != [] {
      NoLossStep(s, acts[0]);
      StepKeeps(s, acts[0]);
      hide Inv, Enabled, Next, NoLoss;
      NoLossOnRun(Next(s, acts[0]), acts[1..]);
    }
  }

  lemma NoLossReached(acts: seq<Action>)
    requires Possible(INITIAL, acts)
    ensures NoLoss(After(INITIAL, acts))
  {
    hide Possible, After, Inv;
    InitialKept();
    assert NoLoss(INITIAL);
    hide *;
    NoLossOnRun(INITIAL, acts);
  }

  /** A worker that ended without a panic has answered every call that was ever sent, exactly once. */
  lemma DrainLosesNothing(acts: seq<Action>, c: nat)
    requires Possible(INITIAL, acts)
    requires var s := After(INITIAL, acts); s.worker.Dead? && !s.panicked && c < |s.calls| && s.calls[c].sent
    ensures var k := After(INITIAL, acts).calls[c]; k.phase.Answered? && k.replies == 1
  {
    Reached(acts);
    NoLossReached(acts);
    hide Possible, After;
    DeadWithoutLoss(After(INITIAL, acts), c);
  }

  lemma DeadWithoutLoss(s: State, c: nat)
    requires Inv(s) && NoLoss(s) && s.worker.Dead? && !s.panicked && c < |s.calls| && s.calls[c].sent
    ensures s.calls[c].phase.Answered? && s.calls[c].replies == 1
  {
    assert LifeOk(s.calls[c]) && PlaceOk(s, c) && DrainOk(s);
    hide Inv, CallsOk, PermitOk;
  }

  // ---------------------------------------------------------------- the worker comes to its end

  function PermitRank(p: Permit): nat
  {
    (if p.pending then 1 else 0) + (if p.project then 1 else 0) + (if p.global then 1 else 0)
  }

  function StageRank(stage: Stage): nat
  {
    match stage
    case Took => 13
    case Releasing => 12
    case Checking => 11
    case FirstClock => 10
    case Preparing => 9
    case SecondClock => 8
    case Starting => 7
    case Running => 6
    case Finishing(_) => 5
    case Completing(_) => 4
    case Replying(_) => 3
    case PrepareFailed => 3
    case Expiring => 3
    case Rejecting(_) => 2
    case Discarding => 2
  }

  /** A bound on the steps the worker still needs for the call it has. */
  function CallRank(k: Call): nat
    requires k.phase.Held?
  {
    StageRank(k.phase.stage) + PermitRank(k.permit)
  }

  function UpkeepRank(t: Token): nat
  {
    match t
    case WithWorker(Accepted) => 7
    case WithWorker(AtWork) => 6
    case WithWorker(Done(_)) => 5
    case WithWorker(Uncounting(_)) => 4
    case WithWorker(_) => 3
    case _ => 0
  }

  function WorkerRank(s: State): nat
  {
    match s.worker
    case WithCall(c) => if c < |s.calls| && s.calls[c].phase.Held? then CallRank(s.calls[c]) else 0
    case WithUpkeep(kind) => if SlotOf(s, kind).token == WithWorker(Dumping) then 4 else UpkeepRank(SlotOf(s, kind).token)
    case Leaving => 1
    case Dying => 2
    case Emptying => 1
    case _ => 0
  }

  function Rank(s: State): nat
  {
    20 * |s.queue| + WorkerRank(s)
  }

  lemma WorkedLowersRank(k: Call, choice: Choice)
    requires k.phase.Held?
    ensures Worked(k, choice).call.phase.Held? ==> CallRank(Worked(k, choice).call) < CallRank(k)
  {
    if !LettingGo(k.phase) {
      OnlyLettingGoTouchesPermits(k, choice);
      WorkedLowersStage(k, choice);
      hide Worked, StageRank, PermitRank;
    }
  }

  lemma WorkedLowersStage(k: Call, choice: Choice)
    requires k.phase.Held? && !LettingGo(k.phase)
    ensures Worked(k, choice).call.phase.Held? ==>
              StageRank(Worked(k, choice).call.phase.stage) < StageRank(k.phase.stage)
  {
  }

  /** Every step of the worker brings it nearer to an empty queue. */
  lemma WorkLowersRank(s: State, choice: Choice)
    requires Inv(s) && WorkerEnabled(s)
    ensures Rank(WorkerNext(s, choice)) < Rank(s)
  {
    hide Inv, UpkeepNext, CallNext;
    if s.worker.WithCall? {
      CallLowersRank(s, s.worker.c, choice);
      hide Rank;
    } else if s.worker.WithUpkeep? {
      UpkeepLowersRank(s, s.worker.kind, choice);
      hide Rank;
    }
  }

  lemma CallLowersRank(s: State, c: nat, choice: Choice)
    requires s.worker == WithCall(c) && c < |s.calls| && s.calls[c].phase.Held?
    ensures Rank(CallNext(s, c, choice)) < Rank(s)
  {
    WorkEffect(s, c, choice);
    WorkMovesOn(s.calls[c], choice);
    WorkedLowersRank(s.calls[c], choice);
    hide CallNext, Worked, UpkeepRank, PermitRank;
  }

  lemma UpkeepLowersRank(s: State, kind: Upkeep, choice: Choice)
    requires s.worker == WithUpkeep(kind) && SlotOf(s, kind).token.WithWorker?
    ensures Rank(UpkeepNext(s, kind, choice)) < Rank(s)
  {
  }

  /** The worker waits only for an empty queue, and for nothing once it is dead. */
  lemma WorkerWaitsOnlyForCommands(s: State)
    requires Inv(s)
    ensures WorkerEnabled(s) || s.worker.Dead? || (s.worker.Idle? && s.queue == [])
  {
    if s.worker.WithCall? {
      assert PlaceOk(s, s.worker.c);
    }
    if s.queue != [] {
      assert s.queue[0] in s.queue;
    }
    hide CountersOk, ActiveOk, DrainOk, Ordered, LifeOk;
  }

  /** The state when the worker, left to itself, can go no further, whatever the clock and engine do. */
  ghost function Exhausted(s: State, choose: State -> Choice): (t: State)
    requires Inv(s)
    ensures Inv(t) && (t.worker.Dead? || (t.worker.Idle? && t.queue == []))
    decreases Rank(s)
  {
    WorkerWaitsOnlyForCommands(s);
    if WorkerEnabled(s) then
      WorkerKeeps(s, choose(s));
      WorkLowersRank(s, choose(s));
      Exhausted(WorkerNext(s, choose(s)), choose)
    else s
  }

  /** The worker has a Stop before it, or is past its loop. */
  predicate Ending(s: State)
  {
    Stop in s.queue || s.worker.Dying? || !s.open
  }

  lemma WorkerStaysEnding(s: State, choice: Choice)
    requires Inv(s) && WorkerEnabled(s) && Ending(s)
    ensures Ending(WorkerNext(s, choice))
  {
    if s.worker.WithCall? {
      WorkEffect(s, s.worker.c, choice);
      hide CallNext;
    } else if Between(s.worker) && s.queue != [] {
      TailKeepsOrder(s.queue);
      hide Ordered;
    }
    hide CallsOk, CountersOk, ActiveOk, SlotsOk, Worked;
  }

  /** Once a Stop is queued the worker, left to itself, ends; and unless it panicked every call that was
      sent has then been answered exactly once. */
  lemma {:induction false} StopEndsTheWorker(s: State, choose: State -> Choice)
    requires Inv(s) && NoLoss(s) && Ending(s)
    ensures var t := Exhausted(s, choose);
            && t.worker.Dead?
            && (!t.panicked ==> forall c: nat :: c < |t.calls| && t.calls[c].sent ==> AnsweredOnce(t.calls[c]))
    decreases Rank(s)
  {
    if WorkerEnabled(s) {
      WorkerKeeps(s, choose(s));
      WorkLowersRank(s, choose(s));
      WorkerStaysEnding(s, choose(s));
      WorkerLosesOnlyAfterPanic(s, choose(s));
      hide Inv, Ending, NoLoss, WorkerEnabled, Rank, WorkerNext, AnsweredOnce;
      StopEndsTheWorker(WorkerNext(s, choose(s)), choose);
    } else {
      WorkerWaitsOnlyForCommands(s);
      assert DrainOk(s);
      forall c: nat | !s.panicked && c < |s.calls| && s.calls[c].sent
        ensures AnsweredOnce(s.calls[c])
      {
        DeadWithoutLoss(s, c);
      }
      hide Inv, CallsOk;
    }
  }

  predicate AnsweredOnce(k: Call)
  {
    k.phase.Answered? && k.replies == 1
  }
}
