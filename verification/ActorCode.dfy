/**
 The actor as an object: its counters, flags, cells and channel are fields, and its methods change them
 one atomic operation at a time.  The object keeps the trace of the operations that happened to it, so
 that what holds over every run of the step system holds of the object.
 */
module ActorCode {

  import opened Actor
  import opened ActorInvariant
  import opened ActorRuns

  lemma {:induction false} OneMoreStep(s: State, acts: seq<Action>, a: Action)
    requires Possible(s, acts) && Enabled(After(s, acts), a)
    ensures Possible(s, acts + [a]) && After(s, acts + [a]) == Next(After(s, acts), a)
    decreases |acts|
  {
    if acts == [] {
      assert acts + [a] == [a];
      assert [a][1..] == [];
    } else {
      assert (acts + [a])[1..] == acts[1..] + [a];
      assert (acts + [a])[0] == acts[0];
      hide Enabled, Next;
      OneMoreStep(Next(s, acts[0]), acts[1..], a);
    }
  }

  class ProjectActor {
    var accepting: bool
    var lock: Lock
    var queuedBytes: int
    var globalQueuedBytes: int
    var otherBytes: nat
    var pendingCommands: int
    var activeCommands: int
    var maintenance: Slot
    var switchStep: Slot
    var queue: seq<Command>
    var open: bool
    var worker: Worker
    var panicked: bool
    var leaked: nat
    var calls: seq<Call>
    ghost var trace: seq<Action>

    function View(): State
      reads this
    {
      State(accepting, lock, queuedBytes, globalQueuedBytes, otherBytes, pendingCommands, activeCommands,
            maintenance, switchStep, queue, open, worker, panicked, leaked, calls)
    }

    ghost predicate Valid()
      reads this
    {
      Possible(INITIAL, trace) && After(INITIAL, trace) == View()
    }

    constructor ()
      ensures Valid() && View() == INITIAL && trace == []
    {
      accepting, lock, queuedBytes, globalQueuedBytes, otherBytes := true, Free, 0, 0, 0;
      pendingCommands, activeCommands := 0, 0;
      maintenance, switchStep := Slot(false, Absent), Slot(false, Absent);
      queue, open, worker, panicked, leaked, calls, trace := [], true, Idle, false, 0, [], [];
    }

    /** An operation happened: the trace grows by it. */
    ghost method Log(before: State, a: Action)
      requires Possible(INITIAL, trace) && After(INITIAL, trace) == before
      requires Enabled(before, a) && View() == Next(before, a)
      modifies this`trace
      ensures Valid() && trace == old(trace) + [a]
    {
      OneMoreStep(INITIAL, trace, a);
      trace := trace + [a];
    }

    /** What the atomic operations of a caller do to the shared fields. */
    method Touch(c: nat, move: Move) returns (allowed: bool)
      requires MoveEnabled(View(), c, move)
      modifies `queuedBytes, `globalQueuedBytes, `pendingCommands, `lock, `queue
      ensures allowed == Allowed(old(View()), calls[c], move)
      ensures var e := Moved(calls[c], move, allowed);
              && pendingCommands == old(pendingCommands) + e.pending && queuedBytes == old(queuedBytes) + e.project
              && globalQueuedBytes == old(globalQueuedBytes) + e.global && e.active == 0
      ensures queue == if move.Send? && allowed then old(queue) + [Run(c)] else old(queue)
      ensures lock == if move.Admit? && allowed then ByCaller(c) else if move.Send? then Free else old(lock)
    {
      var k := calls[c];
      allowed := true;
      match move {
        case ReserveProject =>
          allowed := queuedBytes + k.bytes <= PROJECT_QUEUE_BYTES;
          if allowed {
            queuedBytes := queuedBytes + k.bytes;
          }
        case ReserveGlobal =>
          allowed := globalQueuedBytes + k.bytes <= GLOBAL_QUEUE_BYTES;
          if allowed {
            globalQueuedBytes := globalQueuedBytes + k.bytes;
          }
        case UndoProject =>
          queuedBytes := queuedBytes - k.bytes;
        case Admit =>
          allowed := accepting;
          if allowed {
            lock := ByCaller(c);
            pendingCommands := pendingCommands + 1;
          }
        case Send =>
          allowed := open && |queue| < PROJECT_QUEUE_CAPACITY;
          lock := Free;
          if allowed {
            queue := queue + [Run(c)];
          }
        case DropPermit =>
          if k.permit.pending {
            pendingCommands := pendingCommands - 1;
          } else if k.permit.project {
            queuedBytes := queuedBytes - k.bytes;
          } else if k.permit.global {
            globalQueuedBytes := globalQueuedBytes - k.bytes;
          }
        case _ =>
      }
    }

    ghost method LogWork(before: State, choice: Choice)
      requires Possible(INITIAL, trace) && After(INITIAL, trace) == before
      requires WorkerEnabled(before) && View() == WorkerNext(before, choice)
      modifies this`trace
      ensures Valid() && trace == old(trace) + [Work(choice)]
    {
      hide Possible, After, WorkerNext, WorkerEnabled;
      Log(before, Work(choice));
    }

    method MoveCall(c: nat, move: Move) returns (allowed: bool)
      requires MoveEnabled(View(), c, move)
      modifies `queuedBytes, `globalQueuedBytes, `pendingCommands, `lock, `queue, `calls
      ensures allowed == Allowed(old(View()), old(calls)[c], move)
      ensures View() == CallerNext(old(View()), c, move)
    {
      CallerEffect(View(), c, move);
      hide CallerNext, Moved, Allowed;
      allowed := Touch(c, move);
      calls := calls[c := Moved(calls[c], move, allowed).call];
    }

    /** One atomic operation of the caller of call `c`. */
    method CallerStep(c: nat, move: Move) returns (allowed: bool)
      requires Valid() && MoveEnabled(View(), c, move)
      modifies this
      ensures Valid() && trace == old(trace) + [Caller(c, move)]
      ensures allowed == Allowed(old(View()), old(calls)[c], move)
      ensures View() == CallerNext(old(View()), c, move)
    {
      ghost var before := View();
      hide Possible, After, CallerNext, Allowed;
      allowed := MoveCall(c, move);
      Log(before, Caller(c, move));
    }

    method Arrive(bytes: nat) returns (c: nat)
      requires Valid()
      modifies this
      ensures Valid() && trace == old(trace) + [Action.Arrive(bytes)]
      ensures c == |old(calls)| && View() == old(View()).(calls := old(calls) + [NewCall(bytes)])
    {
      ghost var before := View();
      c := |calls|;
      calls := calls + [NewCall(bytes)];
      hide Possible, After;
      Log(before, Action.Arrive(bytes));
    }

    /** An operation that is neither an admission nor a send. */
    method OwnStep(c: nat, move: Move) returns (allowed: bool)
      requires Valid() && MoveEnabled(View(), c, move) && !move.Admit? && !move.Send?
      modifies this
      ensures Valid() && trace == old(trace) + [Caller(c, move)]
      ensures allowed == Allowed(old(View()), old(calls)[c], move)
      ensures OnlyCall(old(View()), View(), c) && calls[c] == Moved(old(calls)[c], move, allowed).call
    {
      ghost var s := View();
      Reached(trace);
      assert LifeOk(calls[c]);
      hide LifeOk, Inv, Possible, After;
      OwnShareOnly(s, c, move);
      CallerEffect(s, c, move);
      hide CallerNext, OnlyCall, Moved, Allowed;
      allowed := CallerStep(c, move);
    }

    /** The permit of a call is dropped, counter by counter. */
    method DropPermits(c: nat)
      requires Valid() && c < |calls| && calls[c].phase == Dropping
      modifies this
      ensures Valid() && old(trace) <= trace
      ensures OnlyCall(old(View()), View(), c) && calls[c].phase == Ended && calls[c].cell == old(calls[c].cell)
    {
      ghost var before := View();
      while calls[c].phase.Dropping?
        invariant Valid() && before == old(View()) && old(trace) <= trace
        invariant OnlyCall(before, View(), c)
        invariant calls[c].phase == Dropping || calls[c].phase == Ended
        invariant calls[c].cell == before.calls[c].cell
        decreases PermitRank(calls[c].permit), calls[c].phase.Dropping?
      {
        ghost var s := View();
        DroppingGoesOn(calls[c], Allowed(s, calls[c], DropPermit));
        var _ := OwnStep(c, DropPermit);
        hide Valid, CallerNext, Moved, PermitRank, Allowed, Share;
      }
    }

    /** `QueuePermit::reserve` after the project's bytes are reserved: the global ones, or back again. */
    method ReserveRest(c: nat) returns (ok: bool)
      requires Valid() && c < |calls| && calls[c].phase == Half
      modifies this
      ensures Valid() && old(trace) <= trace && OnlyCall(old(View()), View(), c)
      ensures ok == (old(globalQueuedBytes) + old(calls)[c].bytes <= GLOBAL_QUEUE_BYTES)
      ensures calls[c] == if ok then old(calls)[c].(phase := Reserved, permit := Permit(false, true, true))
                          else old(calls)[c].(phase := Failing, permit := NO_PERMIT)
    {
      hide Valid, Inv, OnlyCall;
      ok := OwnStep(c, ReserveGlobal);
      if !ok {
        ghost var u := View();
        OnlyCallKeeps(old(View()), u, c);
        var _ := OwnStep(c, UndoProject);
        OnlyCallTrans(old(View()), u, View(), c);
      }
    }

    /** `QueuePermit::reserve`. */
    method Reserve(c: nat) returns (ok: bool)
      requires Valid() && c < |calls| && calls[c].phase == Start
      modifies this
      ensures Valid() && old(trace) <= trace && OnlyCall(old(View()), View(), c)
      ensures ok == (old(queuedBytes) + old(calls)[c].bytes <= PROJECT_QUEUE_BYTES
                     && old(globalQueuedBytes) + old(calls)[c].bytes <= GLOBAL_QUEUE_BYTES)
      ensures calls[c] == if ok then old(calls)[c].(phase := Reserved, permit := Permit(false, true, true))
                          else old(calls)[c].(phase := Failing, permit := NO_PERMIT)
    {
      StartPermit(c);
      hide Valid, Inv;
      ok := OwnStep(c, ReserveProject);
      if ok {
        ghost var t := View();
        assert globalQueuedBytes == old(globalQueuedBytes);
        hide OnlyCall, Moved, Allowed;
        ok := ReserveRest(c);
        OnlyCallTrans(old(View()), t, View(), c);
      }
    }

    lemma ReservedPermit(c: nat)
      requires Valid() && c < |calls| && calls[c].phase == Reserved
      ensures calls[c].permit == Permit(false, true, true)
    {
      Reached(trace);
      assert LifeOk(calls[c]);
      hide Possible, After, CellOk, SentOk, CountersOk, ActiveOk, Ordered, SlotsOk, DrainOk;
    }

    lemma StartPermit(c: nat)
      requires Valid() && c < |calls| && calls[c].phase == Start
      ensures calls[c].permit == NO_PERMIT
    {
      Reached(trace);
      assert LifeOk(calls[c]);
      hide Possible, After, CellOk, SentOk, CountersOk, ActiveOk, Ordered, SlotsOk, DrainOk;
    }

    /** A call that is not sent stores COMPLETED and drops its permit. */
    method Refuse(c: nat)
      requires Valid() && c < |calls| && calls[c].phase == Failing
      modifies this
      ensures Valid() && old(trace) <= trace
      ensures OnlyCall(old(View()), View(), c) && calls[c].phase == Ended && calls[c].cell == COMPLETED
    {
      var _ := OwnStep(c, StoreCompleted);
      ghost var t := View();
      hide OnlyCall, Valid;
      DropPermits(c);
      OnlyCallTrans(old(View()), t, View(), c);
    }

    /** The section of `call` under the `accepting` lock. */
    method Submit(c: nat) returns (sent: bool)
      requires Valid() && c < |calls| && calls[c].phase == Reserved && lock == Free
      modifies this
      ensures Valid() && old(trace) <= trace
      ensures sent == (accepting && HasRoom(old(View())))
      ensures OnlyCall(old(View()), View().(queue := old(queue)), c)
      ensures queue == if sent then old(queue) + [Run(c)] else old(queue)
      ensures var k := old(calls)[c];
              calls[c] == if sent then k.(phase := Queued, permit := Permit(true, true, true), counted := true, sent := true)
                          else if accepting then k.(phase := Failing, permit := Permit(true, true, true), counted := true)
                          else k.(phase := Dropping, cell := COMPLETED)
    {
      ghost var s := View();
      ReservedPermit(c);
      AdmitEffect(s, c);
      if s.accepting {
        SubmitEffect(s, c);
      }
      hide Valid, CallerNext, Allowed, OnlyCall, MoveEnabled, HasRoom;
      sent := CallerStep(c, Admit);
      ghost var pending := s.pending + if sent then 1 else 0;
      if sent {
        sent := CallerStep(c, Send);
      }
      ShareFollows(s, pending, calls[c], c);
    }

    /** `call` from its lock to its return, when it is run alone. */
    method Enter(c: nat) returns (sent: bool)
      requires Valid() && c < |calls| && calls[c].phase == Reserved && lock == Free
      modifies this
      ensures Valid() && old(trace) <= trace
      ensures sent == (old(accepting) && HasRoom(old(View())))
      ensures OnlyCall(old(View()), View().(queue := old(queue)), c)
      ensures queue == if sent then old(queue) + [Run(c)] else old(queue)
      ensures if sent then calls[c] == old(calls)[c].(phase := Queued, permit := Permit(true, true, true), counted := true, sent := true)
              else calls[c].phase == Ended && calls[c].cell == COMPLETED
    {
      sent := Submit(c);
      ghost var t := View();
      hide OnlyCall, Valid, HasRoom;
      if !sent {
        assert t.(queue := old(queue)) == t;
        if calls[c].phase.Failing? {
          Refuse(c);
        } else {
          DropPermits(c);
        }
        OnlyCallKeeps(t, View(), c);
        OnlyCallTrans(old(View()), t, View(), c);
      }
    }

    /** `call` after its arrival. */
    method Attempt(c: nat, early: bool) returns (sent: bool)
      requires Valid() && c < |calls| && calls[c] == NewCall(calls[c].bytes) && lock == Free
      modifies this
      ensures Valid() && old(trace) <= trace
      ensures sent == (!early && old(queuedBytes) + old(calls)[c].bytes <= PROJECT_QUEUE_BYTES
                       && old(globalQueuedBytes) + old(calls)[c].bytes <= GLOBAL_QUEUE_BYTES
                       && old(accepting) && HasRoom(old(View())))
      ensures OnlyCall(old(View()), View().(queue := old(queue)), c)
      ensures queue == if sent then old(queue) + [Run(c)] else old(queue)
      ensures if sent then calls[c].phase == Queued && calls[c].cell == QUEUED && calls[c].bytes == old(calls)[c].bytes
              else calls[c].phase == Ended && calls[c].cell == COMPLETED
    {
      ghost var s := View();
      sent := false;
      hide OnlyCall, Valid;
      var ok := !early;
      if early {
        var _ := OwnStep(c, ExitEarly);
      } else {
        ok := Reserve(c);
      }
      ghost var t := View();
      OnlyCallKeeps(s, t, c);
      if ok {
        sent := Enter(c);
      } else {
        Refuse(c);
        OnlyCallKeeps(t, View(), c);
      }
      OnlyCallTransQueue(s, t, View(), c);
    }

    /** `call`, run alone.  `early` says that the actor was not ready or the deadline had passed.  The
        call is sent exactly if everything it needs has room; otherwise nothing is left of it but its
        record, over and never executed. */
    method Call(bytes: nat, early: bool) returns (c: nat, sent: bool)
      requires Valid() && lock == Free
      modifies this
      ensures Valid() && old(trace) <= trace && c == |old(calls)| && |calls| == c + 1
      ensures sent == (!early && old(queuedBytes) + bytes <= PROJECT_QUEUE_BYTES
                       && old(globalQueuedBytes) + bytes <= GLOBAL_QUEUE_BYTES && old(accepting) && HasRoom(old(View())))
      ensures View() == old(View()).(
                calls := old(calls) + [calls[c]],
                queue := if sent then old(queue) + [Run(c)] else old(queue),
                pending := old(pendingCommands) + if sent then 1 else 0,
                projectBytes := old(queuedBytes) + if sent then bytes else 0,
                globalBytes := old(globalQueuedBytes) + if sent then bytes else 0)
      ensures if sent then calls[c].phase == Queued && calls[c].cell == QUEUED
              else calls[c].phase == Ended && calls[c].cell == COMPLETED
    {
      c := Arrive(bytes);
      ghost var s := View();
      sent := Attempt(c, early);
      EndPermit(c);
      ShareIsAll(s, View().(queue := s.queue), c);
      hide OnlyCall, Valid;
    }

    /** One atomic operation of the scheduler of an upkeep kind. */
    method Plan(kind: Upkeep, todo: Schedule)
      requires ScheduleEnabled(View(), kind, todo)
      modifies `maintenance, `switchStep, `pendingCommands, `queue, `lock
      ensures View() == SchedulerNext(old(View()), kind, todo)
    {
      SchedulerEffect(View(), kind, todo);
      hide SchedulerNext, Scheduled;
      var slot := if kind == Maintenance then maintenance else switchStep;
      var room := open && |queue| < PROJECT_QUEUE_CAPACITY;
      if todo.Count? {
        pendingCommands := pendingCommands + 1;
      } else if todo.UndoCount? {
        pendingCommands := pendingCommands - 1;
      } else if todo.Submit? && room {
        queue := queue + [Do(kind)];
      }
      if kind == SwitchStep {
        switchStep := Scheduled(slot, todo, room);
        return;
      }
      maintenance := Scheduled(slot, todo, room);
      if (todo.Flag? && slot.flag) || (todo.Submit? && room) || todo.UndoFlag? {
        lock := Free;
      }
    }

    method SchedulerStep(kind: Upkeep, todo: Schedule)
      requires Valid() && ScheduleEnabled(View(), kind, todo)
      modifies this
      ensures Valid() && trace == old(trace) + [Scheduler(kind, todo)]
      ensures View() == SchedulerNext(old(View()), kind, todo)
    {
      ghost var before := View();
      hide Possible, After, SchedulerNext, ScheduleEnabled;
      Plan(kind, todo);
      Log(before, Scheduler(kind, todo));
    }

    /** A flagged command is counted and sent, or undone when the channel takes no more. */
    method SubmitFlagged(kind: Upkeep) returns (sent: bool)
      requires Valid() && SlotOf(View(), kind) == Slot(true, Flagged)
      modifies this
      ensures Valid() && old(trace) <= trace && sent == HasRoom(old(View()))
      ensures var free := old(View()).(lock := if kind == Maintenance then Free else old(lock));
              View() == if sent then SetSlot(free, kind, Slot(true, Waiting)).(pending := old(pendingCommands) + 1, queue := old(queue) + [Do(kind)])
                        else SetSlot(free, kind, Slot(false, Absent))
    {
      sent := open && |queue| < PROJECT_QUEUE_CAPACITY;
      hide Valid;
      SchedulerStep(kind, Count);
      SchedulerStep(kind, Schedule.Submit);
      if !sent {
        Undo(kind);
      }
    }

    /** A command that was not sent is dropped: it is uncounted, then its flag is cleared. */
    method Undo(kind: Upkeep)
      requires Valid() && SlotOf(View(), kind) == Slot(true, Refused)
      modifies this
      ensures Valid() && old(trace) <= trace
      ensures View() == SetSlot(old(View()), kind, Slot(false, Absent)).(
                pending := old(pendingCommands) - 1, lock := if kind == Maintenance then Free else old(lock))
    {
      hide Valid;
      SchedulerStep(kind, UndoCount);
      SchedulerStep(kind, UndoFlag);
    }

    /** `enqueue_maintenance`, run alone.  `due` says that the actor is leased, its engine initialised, no
        switch is active and the interval has passed. */
    method EnqueueMaintenance(due: bool) returns (sent: bool)
      requires Valid() && lock == Free
      modifies this
      ensures Valid() && old(trace) <= trace
      ensures sent == (due && old(pendingCommands) == 0 && old(activeCommands) == 0 && old(accepting)
                       && !old(maintenance).flag && HasRoom(old(View())))
      ensures View() == if sent
                        then old(View()).(maintenance := Slot(true, Waiting), pending := 1, queue := old(queue) + [Do(Maintenance)])
                        else old(View())
    {
      NonNegative();
      if !due || pendingCommands > 0 || activeCommands > 0 || !accepting {
        return false;
      }
      ghost var before := View();
      lock := ByScheduler;
      assert View() == Next(before, LockScheduler);
      hide Valid, Possible, After;
      Log(before, LockScheduler);
      var flagged := maintenance.flag;
      SchedulerStep(Maintenance, Flag);
      hide SchedulerNext;
      if flagged {
        return false;
      }
      sent := SubmitFlagged(Maintenance);
    }

    /** `enqueue_switch_step`, run alone. */
    method EnqueueSwitchStep(due: bool) returns (sent: bool)
      requires Valid()
      modifies this
      ensures Valid() && old(trace) <= trace
      ensures sent == (due && old(pendingCommands) == 0 && old(activeCommands) == 0 && !old(switchStep).flag && HasRoom(old(View())))
      ensures View() == if sent
                        then old(View()).(switchStep := Slot(true, Waiting), pending := 1, queue := old(queue) + [Do(SwitchStep)])
                        else old(View())
    {
      NonNegative();
      if !due || pendingCommands > 0 || activeCommands > 0 {
        return false;
      }
      hide Valid;
      var flagged := switchStep.flag;
      SchedulerStep(SwitchStep, Flag);
      hide SchedulerNext;
      if flagged {
        return false;
      }
      sent := SubmitFlagged(SwitchStep);
    }

    /** The counters are never negative, and outside a lock no maintenance is half scheduled. */
    lemma NonNegative()
      requires Valid()
      ensures pendingCommands >= 0 && activeCommands >= 0
      ensures !maintenance.flag ==> maintenance == Slot(false, Absent)
      ensures lock == Free ==> !Scheduling(maintenance.token)
      ensures !switchStep.flag ==> switchStep == Slot(false, Absent)
    {
      Reached(trace);
      assert SlotOk(View(), Maintenance) && SlotOk(View(), SwitchStep);
      hide Possible, After, CallsOk, Ordered, DrainOk, Sum;
    }

    /** A canceller's swap. */
    method Cancel(c: nat) returns (found: Cell)
      requires Valid() && c < |calls|
      modifies this
      ensures Valid() && trace == old(trace) + [Action.Cancel(c)]
      ensures found == old(calls)[c].cell && View() == Next(old(View()), Action.Cancel(c))
    {
      ghost var before := View();
      found := calls[c].cell;
      if found == QUEUED {
        calls := calls[c := calls[c].(cell := CANCELLED, cancelWon := true)];
      }
      hide Possible, After;
      Log(before, Action.Cancel(c));
    }

    /** The part of `begin_draining` that the actor's run depends on. */
    method BeginDraining()
      requires Valid() && lock == Free
      modifies this
      ensures Valid() && trace == old(trace) + [Action.BeginDraining]
      ensures View() == old(View()).(accepting := false)
    {
      ghost var before := View();
      accepting := false;
      hide Possible, After;
      Log(before, Action.BeginDraining);
    }

    /** One attempt of the awaited send of a Stop: it enters an open channel that has room.  A full channel
        makes the sender wait for another attempt; a closed one ends the wait. */
    method SendStop() returns (sent: bool)
      requires Valid() && !accepting
      modifies this
      ensures Valid() && old(trace) <= trace && sent == HasRoom(old(View()))
      ensures View() == if sent then old(View()).(queue := old(queue) + [Stop]) else old(View())
    {
      sent := open && |queue| < PROJECT_QUEUE_CAPACITY;
      if sent {
        ghost var before := View();
        queue := queue + [Stop];
        hide Possible, After;
        Log(before, Action.SendStop);
      }
    }

    /** The worker's next operation on the call it has. */
    method ServeCall(c: nat, choice: Choice)
      requires c < |calls| && calls[c].phase.Held?
      modifies `queuedBytes, `globalQueuedBytes, `pendingCommands, `activeCommands, `calls, `worker, `panicked, `leaked
      ensures View() == CallNext(old(View()), c, choice)
    {
      WorkEffect(View(), c, choice);
      hide CallNext, Worked, WorkerAfter, PhaseAfter, CellAfter, Unwinds;
      var k := calls[c];
      TouchForWorker(c, choice);
      calls := calls[c := Worked(k, choice).call];
      MoveWorker(c, k, calls[c].phase, choice);
    }

    /** The worker's place after its operation on a call. */
    method MoveWorker(c: nat, k: Call, after: Phase, choice: Choice)
      requires k.phase.Held?
      modifies `worker, `panicked, `leaked
      ensures worker == WorkerAfter(c, k.phase, after)
      ensures panicked == (old(panicked) || k.phase.stage == Replying(true) || Unwinds(k, choice))
      ensures leaked == old(leaked) + if Unwinds(k, choice) then 1 else 0
    {
      worker := WorkerAfter(c, k.phase, after);
      if k.phase.stage.Preparing? && choice.unwinds {
        panicked := true;
        leaked := leaked + 1;
      } else if k.phase.stage == Replying(true) {
        panicked := true;
      }
    }

    method WorkOnCall(c: nat, choice: Choice)
      requires Valid() && worker == WithCall(c) && c < |calls| && calls[c].phase.Held?
      modifies this
      ensures Valid() && trace == old(trace) + [Work(choice)] && View() == CallNext(old(View()), c, choice)
    {
      ghost var before := View();
      assert Possible(INITIAL, trace) && After(INITIAL, trace) == before;
      WorkerDoesCall(before, c, choice);
      ServeCall(c, choice);
      hide *;
      LogWork(before, choice);
    }

    /** What the worker's operations on a call do to the counters. */
    method TouchForWorker(c: nat, choice: Choice)
      requires c < |calls| && calls[c].phase.Held?
      modifies `queuedBytes, `globalQueuedBytes, `pendingCommands, `activeCommands
      ensures var e := Worked(calls[c], choice);
              && pendingCommands == old(pendingCommands) + e.pending && queuedBytes == old(queuedBytes) + e.project
              && globalQueuedBytes == old(globalQueuedBytes) + e.global && activeCommands == old(activeCommands) + e.active
    {
      var k := calls[c];
      match k.phase.stage {
        case Took =>
          activeCommands := activeCommands + 1;
        case Finishing(_) =>
          activeCommands := activeCommands - 1;
        case Releasing =>
          DropOne(k);
        case Discarding =>
          DropOne(k);
        case _ =>
      }
    }

    /** The next counter of a permit that is being dropped. */
    method DropOne(k: Call)
      modifies `queuedBytes, `globalQueuedBytes, `pendingCommands
      ensures var e := if k.permit == NO_PERMIT then Plain(k) else Release(k);
              && pendingCommands == old(pendingCommands) + e.pending && queuedBytes == old(queuedBytes) + e.project
              && globalQueuedBytes == old(globalQueuedBytes) + e.global
    {
      if k.permit.pending {
        pendingCommands := pendingCommands - 1;
      } else if k.permit.project {
        queuedBytes := queuedBytes - k.bytes;
      } else if k.permit.global {
        globalQueuedBytes := globalQueuedBytes - k.bytes;
      }
    }

    /** The worker receives a command, to serve it or, when it empties the channel, to drop it. */
    method Receive()
      requires (worker == Idle || worker == Emptying) && queue != [] && HeadKnown(View())
      modifies `queue, `worker, `calls, `maintenance, `switchStep
      ensures View() == TakeNext(old(View()))
    {
      var serving := worker.Idle?;
      var command := queue[0];
      queue := queue[1..];
      match command {
        case Run(c) =>
          worker := WithCall(c);
          calls := calls[c := At(calls[c], if serving then Took else Discarding)];
        case Do(kind) =>
          worker := WithUpkeep(kind);
          var token := WithWorker(if serving then Accepted else Dumping);
          if kind == Maintenance {
            maintenance := maintenance.(token := token);
          } else {
            switchStep := switchStep.(token := token);
          }
        case Stop =>
          if serving {
            worker := Dying;
          }
      }
    }

    method TakeCommand(choice: Choice)
      requires Valid() && (worker == Idle || worker == Emptying) && queue != [] && HeadKnown(View())
      modifies this
      ensures Valid() && trace == old(trace) + [Work(choice)] && View() == TakeNext(old(View()))
    {
      ghost var before := View();
      assert Possible(INITIAL, trace) && After(INITIAL, trace) == before;
      assert WorkerEnabled(before) && WorkerNext(before, choice) == TakeNext(before);
      Receive();
      hide *;
      LogWork(before, choice);
    }

    /** What the worker's operations on a command of upkeep do to the fields other than its slot. */
    method TouchForUpkeep(slot: Slot, choice: Choice) returns (after: Slot)
      requires slot.token.WithWorker?
      modifies `activeCommands, `pendingCommands, `worker, `panicked
      ensures var stage := slot.token.stage;
              && after == Tended(slot, choice)
              && activeCommands == old(activeCommands) + (if stage.Accepted? then 1 else if stage.Done? then -1 else 0)
              && pendingCommands == old(pendingCommands) - (if stage.Uncounting? || stage.Dumping? then 1 else 0)
              && panicked == (old(panicked) || stage == Unflagging(true))
              && worker == (match stage
                            case Unflagging(panics) => if panics then Dying else Idle
                            case DumpingFlag => Emptying
                            case _ => old(worker))
    {
      after := slot;
      match slot.token.stage {
        case Accepted =>
          activeCommands := activeCommands + 1;
          after := slot.(token := WithWorker(AtWork));
        case AtWork =>
          after := slot.(token := WithWorker(Done(choice.panics)));
        case Done(panics) =>
          activeCommands := activeCommands - 1;
          after := slot.(token := WithWorker(Uncounting(panics)));
        case Uncounting(panics) =>
          pendingCommands := pendingCommands - 1;
          after := slot.(token := WithWorker(Unflagging(panics)));
        case Unflagging(panics) =>
          after := Slot(false, Absent);
          worker := if panics then Dying else Idle;
          panicked := panicked || panics;
        case Dumping =>
          pendingCommands := pendingCommands - 1;
          after := slot.(token := WithWorker(DumpingFlag));
        case DumpingFlag =>
          after := Slot(false, Absent);
          worker := Emptying;
      }
    }

    /** The worker's next operation on a maintenance or switch command. */
    method Tend(kind: Upkeep, choice: Choice)
      requires worker == WithUpkeep(kind) && SlotOf(View(), kind).token.WithWorker?
      modifies `activeCommands, `pendingCommands, `worker, `panicked, `maintenance, `switchStep
      ensures View() == UpkeepNext(old(View()), kind, choice)
    {
      hide Tended;
      if kind == Maintenance {
        maintenance := TouchForUpkeep(maintenance, choice);
      } else {
        switchStep := TouchForUpkeep(switchStep, choice);
      }
    }

    method WorkOnUpkeep(kind: Upkeep, choice: Choice)
      requires Valid() && worker == WithUpkeep(kind) && SlotOf(View(), kind).token.WithWorker?
      modifies this
      ensures Valid() && trace == old(trace) + [Work(choice)] && View() == UpkeepNext(old(View()), kind, choice)
    {
      ghost var before := View();
      assert Possible(INITIAL, trace) && After(INITIAL, trace) == before;
      hide Valid, Possible, After, UpkeepNext;
      assert WorkerEnabled(before) && WorkerNext(before, choice) == UpkeepNext(before, kind, choice);
      Tend(kind, choice);
      hide *;
      LogWork(before, choice);
    }

    /** The worker's operations without a command: it uncounts a rejected call, closes the channel, ends. */
    method WorkAlone(choice: Choice)
      requires Valid() && (worker == Leaving || worker == Dying || (worker == Emptying && queue == []))
      modifies this
      ensures Valid() && trace == old(trace) + [Work(choice)] && View() == WorkerNext(old(View()), choice)
    {
      ghost var before := View();
      assert Possible(INITIAL, trace) && After(INITIAL, trace) == before;
      match worker {
        case Leaving =>
          activeCommands := activeCommands - 1;
          worker := Idle;
        case Dying =>
          open := false;
          worker := Emptying;
        case Emptying =>
          worker := Dead;
      }
      hide Valid, Possible, After;
      LogWork(before, choice);
    }

    /** The worker runs until its channel is empty or it has ended; `choose` is what clock and engine do. */
    method RunWorker(choose: State -> Choice)
      requires Valid()
      modifies this
      ensures Valid() && old(trace) <= trace && Inv(old(View()))
      ensures View() == Exhausted(old(View()), choose) && accepting == old(accepting)
      ensures worker == Dead || (worker == Idle && queue == [])
    {
      Reached(trace);
      ghost var start := View();
      assert Inv(start);
      while worker != Dead && !(worker == Idle && queue == [])
        invariant Valid() && old(trace) <= trace && start == old(View()) && Inv(start)
        invariant Inv(View()) && Exhausted(View(), choose) == Exhausted(start, choose) && accepting == start.accepting
        decreases Rank(View())
      {
        ghost var s := View();
        var choice := choose(View());
        WorkerWaitsOnlyForCommands(s);
        WorkerKeeps(s, choice);
        WorkLowersRank(s, choice);
        WorkerKeepsCounted(s, choice);
        hide Valid, Inv, Rank, WorkerNext, WorkerEnabled;
        WorkerStep(choice);
      }
    }

    /** The worker's next operation, whatever it has. */
    method WorkerStep(choice: Choice)
      requires Valid() && WorkerEnabled(View())
      modifies this
      ensures Valid() && trace == old(trace) + [Work(choice)] && View() == WorkerNext(old(View()), choice)
    {
      hide Valid, CallNext, UpkeepNext, TakeNext;
      if (worker == Idle || worker == Emptying) && queue != [] {
        TakeCommand(choice);
      } else if worker.WithCall? {
        WorkOnCall(worker.c, choice);
      } else if worker.WithUpkeep? {
        WorkOnUpkeep(worker.kind, choice);
      } else {
        WorkAlone(choice);
      }
    }

    /** `stop`, with the worker's end awaited, whatever the channel holds: the worker ends, and unless it
        panicked every call that was ever sent has been answered exactly once. */
    method StopAndJoin(choose: State -> Choice)
      requires Valid() && lock == Free
      modifies this
      ensures Valid() && old(trace) <= trace && worker == Dead
      ensures !panicked ==> forall c: nat :: c < |calls| && calls[c].sent ==> AnsweredOnce(calls[c])
    {
      hide Valid, Inv, HasRoom, AnsweredOnce;
      BeginDraining();
      var sent := SendStop();
      if !sent {
        RunWorker(choose);
        DrainedIsOpen();
        sent := SendStop();
      }
      FinishWorker(choose, sent);
    }

    /** A worker that waits for commands has an open channel with room. */
    lemma DrainedIsOpen()
      requires Valid()
      ensures worker == Idle && queue == [] ==> HasRoom(View())
    {
      Reached(trace);
      hide Possible, After, CallsOk, CountersOk, ActiveOk, Ordered, SlotsOk;
    }

    method FinishWorker(choose: State -> Choice, sent: bool)
      requires Valid() && if sent then Stop in queue else worker == Dead
      modifies this
      ensures Valid() && old(trace) <= trace && worker == Dead
      ensures !panicked ==> forall c: nat :: c < |calls| && calls[c].sent ==> AnsweredOnce(calls[c])
    {
      ghost var s := View();
      EndIsNear(sent);
      TraceIsView();
      Reached(trace);
      NoLossReached(trace);
      hide Valid, Inv, Possible, After, NoLoss, Ending, AnsweredOnce;
      StopEndsTheWorker(s, choose);
      RunWorker(choose);
    }

    lemma EndIsNear(sent: bool)
      requires Valid() && if sent then Stop in queue else worker == Dead
      ensures Ending(View())
    {
      Reached(trace);
      hide Possible, After, CallsOk, CountersOk, ActiveOk, Ordered, SlotsOk;
    }

    lemma TraceIsView()
      requires Valid()
      ensures After(INITIAL, trace) == View()
    {
    }

    /** An ended call holds no permit, and a queued one a whole permit. */
    lemma EndPermit(c: nat)
      requires Valid() && c < |calls|
      ensures calls[c].phase == Ended ==> calls[c].permit == NO_PERMIT
      ensures calls[c].phase == Queued ==> calls[c].permit == Permit(true, true, true)
    {
      Reached(trace);
      assert LifeOk(calls[c]);
      hide Possible, After, CellOk, SentOk, CountersOk, ActiveOk, Ordered, SlotsOk, DrainOk;
    }
  }

  lemma SchedulerEffect(s: State, kind: Upkeep, todo: Schedule)
    ensures var slot := Scheduled(SlotOf(s, kind), todo, HasRoom(s));
            var t := SchedulerNext(s, kind, todo);
            && t == s.(pending := t.pending, queue := t.queue, lock := t.lock, maintenance := t.maintenance, switchStep := t.switchStep)
            && t.pending == s.pending + (if todo.Count? then 1 else if todo.UndoCount? then -1 else 0)
            && t.queue == (if todo.Submit? && HasRoom(s) then s.queue + [Do(kind)] else s.queue)
            && t.maintenance == (if kind == Maintenance then slot else s.maintenance)
            && t.switchStep == (if kind == SwitchStep then slot else s.switchStep)
            && t.lock == (if kind == Maintenance && ((todo.Flag? && s.maintenance.flag) || (todo.Submit? && HasRoom(s)) || todo.UndoFlag?)
                          then Free else s.lock)
  {
    hide Scheduled;
  }

  lemma WorkerDoesCall(s: State, c: nat, choice: Choice)
    requires s.worker == WithCall(c) && c < |s.calls| && s.calls[c].phase.Held?
    ensures WorkerEnabled(s) && WorkerNext(s, choice) == CallNext(s, c, choice)
  {
    hide CallNext;
  }

  lemma OnlyCallTransQueue(s: State, t: State, u: State, c: nat)
    requires OnlyCall(s, t, c) && OnlyCall(t, u.(queue := t.queue), c)
    ensures OnlyCall(s, u.(queue := s.queue), c)
  {
    hide Share;
  }

  /** What a lone change of call `c` means for the state, told by the permits. */
  lemma ShareIsAll(s: State, t: State, c: nat)
    requires OnlyCall(s, t, c) && s.calls[c].permit == NO_PERMIT
    ensures t == s.(calls := s.calls[c := t.calls[c]],
                    pending := s.pending + Share(t.calls[c], PendingCommands),
                    projectBytes := s.projectBytes + Share(t.calls[c], ProjectBytes),
                    globalBytes := s.globalBytes + Share(t.calls[c], GlobalBytes))
  {
  }

  lemma ShareFollows(s: State, pending: int, k: Call, c: nat)
    requires c < |s.calls| && s.calls[c].permit == Permit(false, true, true) && k.bytes == s.calls[c].bytes
    requires k.permit == Permit(pending != s.pending, true, true) && (pending == s.pending || pending == s.pending + 1)
    ensures OnlyCall(s, s.(pending := pending, calls := s.calls[c := k]), c)
  {
  }

  lemma OnlyCallKeeps(s: State, t: State, c: nat)
    requires OnlyCall(s, t, c)
    ensures t.queue == s.queue && t.lock == s.lock && t.accepting == s.accepting && t.open == s.open
    ensures t.(queue := s.queue) == t && c < |t.calls|
  {
  }

  lemma AdmitEffect(s: State, c: nat)
    requires MoveEnabled(s, c, Admit) && s.calls[c].permit == Permit(false, true, true)
    ensures Allowed(s, s.calls[c], Admit) == s.accepting
    ensures var k := s.calls[c];
            CallerNext(s, c, Admit) ==
            if s.accepting
            then s.(lock := ByCaller(c), pending := s.pending + 1,
                    calls := s.calls[c := k.(phase := Admitting, permit := Permit(true, true, true), counted := true)])
            else s.(calls := s.calls[c := k.(phase := Dropping, cell := COMPLETED)])
  {
  }

  lemma SendEffect(s: State, c: nat)
    requires MoveEnabled(s, c, Send)
    ensures Allowed(s, s.calls[c], Send) == HasRoom(s)
    ensures var k := s.calls[c];
            CallerNext(s, c, Send) ==
            if HasRoom(s) then s.(lock := Free, queue := s.queue + [Run(c)], calls := s.calls[c := k.(phase := Queued, sent := true)])
            else s.(lock := Free, calls := s.calls[c := k.(phase := Failing)])
  {
  }

  /** Both operations under the lock, one after the other. */
  lemma SubmitEffect(s: State, c: nat)
    requires MoveEnabled(s, c, Admit) && s.calls[c].permit == Permit(false, true, true) && s.accepting
    ensures var t := CallerNext(s, c, Admit);
            && MoveEnabled(t, c, Send) && Allowed(t, t.calls[c], Send) == HasRoom(s)
            && var k := s.calls[c].(permit := Permit(true, true, true), counted := true);
               CallerNext(t, c, Send) ==
               s.(pending := s.pending + 1,
                  queue := if HasRoom(s) then s.queue + [Run(c)] else s.queue,
                  calls := s.calls[c := if HasRoom(s) then k.(phase := Queued, sent := true) else k.(phase := Failing)])
  {
    AdmitEffect(s, c);
    SendEffect(CallerNext(s, c, Admit), c);
    hide Moved;
  }

  lemma DroppingGoesOn(k: Call, allowed: bool)
    requires k.phase == Dropping
    ensures var after := Moved(k, DropPermit, allowed).call;
            && after.cell == k.cell
            && (after.phase == Ended || (after.phase == Dropping && PermitRank(after.permit) < PermitRank(k.permit)))
            && (after.phase == Ended ==> after.permit == k.permit)
  {
  }

  /** Two states differ in call `c` and in what it is counted for. */
  ghost predicate OnlyCall(s: State, t: State, c: nat)
  {
    && c < |s.calls| && c < |t.calls|
    && t == s.(calls := t.calls, pending := t.pending, projectBytes := t.projectBytes, globalBytes := t.globalBytes)
    && t.calls == s.calls[c := t.calls[c]]
    && t.pending - Share(t.calls[c], PendingCommands) == s.pending - Share(s.calls[c], PendingCommands)
    && t.projectBytes - Share(t.calls[c], ProjectBytes) == s.projectBytes - Share(s.calls[c], ProjectBytes)
    && t.globalBytes - Share(t.calls[c], GlobalBytes) == s.globalBytes - Share(s.calls[c], GlobalBytes)
  }

  lemma OnlyCallTrans(s: State, t: State, u: State, c: nat)
    requires OnlyCall(s, t, c) && OnlyCall(t, u, c)
    ensures OnlyCall(s, u, c)
  {
    hide Share;
  }

  lemma BalancedIsOnlyCall(s: State, t: State, c: nat, e: Effect)
    requires c < |s.calls| && Balanced(s.calls[c], e) && t.calls == s.calls[c := e.call]
    requires t == s.(calls := t.calls, pending := s.pending + e.pending, projectBytes := s.projectBytes + e.project,
                     globalBytes := s.globalBytes + e.global)
    ensures OnlyCall(s, t, c)
  {
    hide Share;
  }

  /** A step of call `c` that is neither an admission nor a send touches nothing but its share. */
  lemma OwnShareOnly(before: State, c: nat, move: Move)
    requires MoveEnabled(before, c, move) && LifeOk(before.calls[c]) && !move.Admit? && !move.Send?
    ensures OnlyCall(before, CallerNext(before, c, move), c)
  {
    CallerEffect(before, c, move);
    MoveKeepsLife(before.calls[c], move, Allowed(before, before.calls[c], move));
    hide *;
    BalancedIsOnlyCall(before, CallerNext(before, c, move), c,
                       Moved(before.calls[c], move, Allowed(before, before.calls[c], move)));
  }
}
