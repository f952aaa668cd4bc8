/**
 The project actor as a step system under sequential consistency.

 Every atomic operation is one step: counters and flags are touched one at a time, so a permit can
 be half reserved or half released while other parties move.  The parties are the callers (any
 number of calls), the worker thread, cancellers, the maintenance and model-switch schedulers,
 drainers, and the other actors that share the global byte counter.  A `Choice` resolves what the
 clock, the engine and its panics decide.
 */
module Actor {

  const PROJECT_QUEUE_CAPACITY := 64
  const PROJECT_QUEUE_BYTES := 64 * 1024 * 1024
  const GLOBAL_QUEUE_BYTES := 256 * 1024 * 1024

  // ---------------------------------------------------------------- one call

  /** The call's state cell. */
  datatype Cell = QUEUED | RUNNING | COMPLETED | CANCELLED

  /** Which counters the call's permit is still counted in. */
  datatype Permit = Permit(pending: bool, project: bool, global: bool)

  const NO_PERMIT := Permit(false, false, false)

  /** What the reply channel carries. */
  datatype Answer = Handled | Panicked | SetUpFailed | WasCancelled | DeadlineExceeded

  /** Where the worker is with the call it has dequeued. */
  datatype Stage =
    | Took | Releasing | Checking | FirstClock | Preparing | PrepareFailed | SecondClock | Starting | Running
    | Finishing(panics: bool) | Completing(panics: bool) | Replying(panics: bool)
    | Expiring | Rejecting(answer: Answer) | Discarding

  /** Where a call is.  Up to `Dropping` its caller has it.  `Ended` calls never entered the queue,
      `Lost` ones were dropped with the receiver or by a panic of their preparation, `Answered` ones got
      their reply. */
  datatype Phase =
    | Start | Half | Undoing | Reserved | Admitting | Failing | Dropping | Ended
    | Queued | Held(stage: Stage) | Answered(answer: Answer) | Lost

  /** `counted` says that the call was counted as pending, `sent` that it entered the queue,
      `cancelWon` that a canceller's swap succeeded; `executions` and `replies` count what happened. */
  datatype Call = Call(
    bytes: nat, phase: Phase, permit: Permit, cell: Cell,
    counted: bool, sent: bool, cancelWon: bool, executions: nat, replies: nat)

  /** A changed call, and what the step adds to the counters. */
  datatype Effect = Effect(call: Call, pending: int, project: int, global: int, active: int)

  function Plain(call: Call): Effect
  {
    Effect(call, 0, 0, 0, 0)
  }

  /** One counter of a permit is released: pending first, then the project's bytes, then the global. */
  function Release(k: Call): Effect
  {
    if k.permit.pending then Effect(k.(permit := k.permit.(pending := false)), -1, 0, 0, 0)
    else if k.permit.project then Effect(k.(permit := k.permit.(project := false)), 0, 0 - k.bytes, 0, 0)
    else Effect(k.(permit := NO_PERMIT), 0, 0, if k.permit.global then 0 - k.bytes else 0, 0)
  }

  datatype Move = ExitEarly | ReserveProject | ReserveGlobal | UndoProject | Admit | Send | StoreCompleted | DropPermit

  predicate CanMove(phase: Phase, move: Move)
  {
    match move
    case ExitEarly => phase == Start
    case ReserveProject => phase == Start
    case ReserveGlobal => phase == Half
    case UndoProject => phase == Undoing
    case Admit => phase == Reserved
    case Send => phase == Admitting
    case StoreCompleted => phase == Failing
    case DropPermit => phase == Dropping
  }

  /** A step of the call's caller; `allowed` is what its test of the shared state yields. */
  function Moved(k: Call, move: Move, allowed: bool): Effect
  {
    match move
    case ExitEarly => Plain(k.(phase := Failing))
    case ReserveProject =>
      if allowed then Effect(k.(phase := Half, permit := Permit(false, true, false)), 0, k.bytes, 0, 0)
      else Plain(k.(phase := Failing))
    case ReserveGlobal =>
      if allowed then Effect(k.(phase := Reserved, permit := Permit(false, true, true)), 0, 0, k.bytes, 0)
      else Plain(k.(phase := Undoing))
    case UndoProject => Effect(k.(phase := Failing, permit := NO_PERMIT), 0, 0 - k.bytes, 0, 0)
    case Admit =>
      if allowed then Effect(k.(phase := Admitting, permit := Permit(true, true, true), counted := true), 1, 0, 0, 0)
      else Plain(k.(phase := Dropping, cell := COMPLETED))
    case Send => Plain(if allowed then k.(phase := Queued, sent := true) else k.(phase := Failing))
    case StoreCompleted => Plain(k.(phase := Dropping, cell := COMPLETED))
    case DropPermit => if k.permit == NO_PERMIT then Plain(k.(phase := Ended)) else Release(k)
  }

  /** What the clock, the engine and its panics decide in a step of the worker.  `panics` are caught,
      in an operation; `unwinds` is a panic of the preparation, which ends the thread. */
  datatype Choice = Choice(expired: bool, prepared: bool, panics: bool, unwinds: bool)

  function At(k: Call, stage: Stage): Call
  {
    k.(phase := Held(stage))
  }

  /** Where the worker goes on with its call, once there is no permit left to release.  `cell` is what
      its check or compare-and-swap of the state cell finds. */
  function PhaseAfter(stage: Stage, cell: Cell, choice: Choice): Phase
  {
    match stage
    case Took => Held(Releasing)
    case Releasing => Held(Checking)
    case Checking => Held(if cell == QUEUED then FirstClock else Rejecting(WasCancelled))
    case FirstClock => Held(if choice.expired then Expiring else Preparing)
    case Preparing => if choice.unwinds then Lost else Held(if choice.prepared then SecondClock else PrepareFailed)
    case PrepareFailed => Held(Rejecting(if cell == QUEUED then SetUpFailed else WasCancelled))
    case SecondClock => Held(if choice.expired then Expiring else Starting)
    case Starting => Held(if cell == QUEUED then Running else Rejecting(WasCancelled))
    case Running => Held(Finishing(choice.panics))
    case Finishing(panics) => Held(Completing(panics))
    case Completing(panics) => Held(Replying(panics))
    case Replying(panics) => Answered(if panics then Panicked else Handled)
    case Expiring => Held(Rejecting(DeadlineExceeded))
    case Rejecting(answer) => Answered(answer)
    case Discarding => Lost
  }

  /** What the worker leaves in the cell: its two compare-and-swaps and its two stores. */
  function CellAfter(stage: Stage, cell: Cell): Cell
  {
    match stage
    case PrepareFailed => if cell == QUEUED then COMPLETED else cell
    case Starting => if cell == QUEUED then RUNNING else cell
    case Completing(_) => COMPLETED
    case Expiring => CANCELLED
    case _ => cell
  }

  /** A step of the worker on the call it has. */
  function Worked(k: Call, choice: Choice): Effect
    requires k.phase.Held?
  {
    var stage := k.phase.stage;
    if (stage.Releasing? || stage.Discarding?) && k.permit != NO_PERMIT then Release(k)
    else
      Effect(k.(phase := PhaseAfter(stage, k.cell, choice),
                cell := CellAfter(stage, k.cell),
                executions := k.executions + (if stage.Running? then 1 else 0),
                replies := k.replies + (if stage.Replying? || stage.Rejecting? then 1 else 0)),
             0, 0, 0, if stage.Took? then 1 else if stage.Finishing? then -1 else 0)
  }

  // ---------------------------------------------------------------- maintenance and model switches

  datatype Upkeep = Maintenance | SwitchStep

  datatype UpkeepStage = Accepted | AtWork | Done(panics: bool) | Uncounting(panics: bool) | Unflagging(panics: bool)
                       | Dumping | DumpingFlag

  /** Where the single command of an upkeep kind is, from its flag being set to its being cleared. */
  datatype Token = Absent | Flagged | Counted | Refused | RefusedUncounted | Waiting | WithWorker(stage: UpkeepStage)

  /** The flag that coalesces commands of a kind, and its command. */
  datatype Slot = Slot(flag: bool, token: Token)

  datatype Schedule = Flag | Count | Submit | UndoCount | UndoFlag

  // ---------------------------------------------------------------- the actor

  datatype Command = Run(c: nat) | Do(kind: Upkeep) | Stop

  datatype Lock = Free | ByCaller(c: nat) | ByScheduler

  /** `Leaving` is the worker after a reply without execution, before it uncounts the call. */
  datatype Worker = Idle | WithCall(c: nat) | Leaving | WithUpkeep(kind: Upkeep) | Dying | Emptying | Dead

  /** `leaked` counts the active commands that no one will uncount, because a panic took the worker from
      them. */
  datatype State = State(
    accepting: bool, lock: Lock,
    projectBytes: int, globalBytes: int, otherBytes: nat, pending: int, active: int,
    maintenance: Slot, switchStep: Slot,
    queue: seq<Command>, open: bool,
    worker: Worker, panicked: bool, leaked: nat,
    calls: seq<Call>)

  datatype Action =
    | Arrive(bytes: nat) | Caller(c: nat, move: Move) | Cancel(c: nat)
    | OthersReserve(bytes: nat) | OthersRelease(bytes: nat)
    | LockScheduler | Scheduler(kind: Upkeep, todo: Schedule)
    | BeginDraining | SendStop
    | Work(choice: Choice)

  function NewCall(bytes: nat): Call
  {
    Call(bytes, Start, NO_PERMIT, QUEUED, false, false, false, 0, 0)
  }

  const INITIAL := State(true, Free, 0, 0, 0, 0, 0, Slot(false, Absent), Slot(false, Absent), [], true, Idle, false, 0, [])

  function SlotOf(s: State, kind: Upkeep): Slot
  {
    if kind == Maintenance then s.maintenance else s.switchStep
  }

  function SetSlot(s: State, kind: Upkeep, slot: Slot): State
  {
    if kind == Maintenance then s.(maintenance := slot) else s.(switchStep := slot)
  }

  /** `try_send` finds room in the channel. */
  predicate HasRoom(s: State)
  {
    s.open && |s.queue| < PROJECT_QUEUE_CAPACITY
  }

  /** An effect on a call takes place. */
  function Apply(s: State, c: nat, e: Effect): State
    requires c < |s.calls|
  {
    s.(calls := s.calls[c := e.call], pending := s.pending + e.pending, projectBytes := s.projectBytes + e.project,
       globalBytes := s.globalBytes + e.global, active := s.active + e.active)
  }

  // ---------------------------------------------------------------- which steps are possible

  predicate MoveEnabled(s: State, c: nat, move: Move)
  {
    && c < |s.calls|
    && CanMove(s.calls[c].phase, move)
    && (move.Admit? ==> s.lock == Free)
    && (move.Send? ==> s.lock == ByCaller(c))
  }

  predicate ScheduleEnabled(s: State, kind: Upkeep, todo: Schedule)
  {
    match todo
    case Flag => kind == Maintenance ==> s.lock == ByScheduler && !Scheduling(s.maintenance.token)
    case Count => SlotOf(s, kind).token == Flagged
    case Submit => SlotOf(s, kind).token == Counted
    case UndoCount => SlotOf(s, kind).token == Refused
    case UndoFlag => SlotOf(s, kind).token == RefusedUncounted
  }

  /** The scheduler is between setting the flag and handing the command over. */
  predicate Scheduling(t: Token)
  {
    t.Flagged? || t.Counted? || t.Refused? || t.RefusedUncounted?
  }

  predicate WorkerEnabled(s: State)
  {
    match s.worker
    case Idle => s.queue != [] && HeadKnown(s)
    case Emptying => HeadKnown(s)
    case WithCall(c) => c < |s.calls| && s.calls[c].phase.Held?
    case WithUpkeep(kind) => SlotOf(s, kind).token.WithWorker?
    case Dead => false
    case _ => true
  }

  predicate HeadKnown(s: State)
  {
    s.queue != [] && s.queue[0].Run? ==> s.queue[0].c < |s.calls|
  }

  predicate Enabled(s: State, a: Action)
  {
    match a
    case Arrive(_) => true
    case Caller(c, move) => MoveEnabled(s, c, move)
    case Cancel(c) => c < |s.calls|
    case OthersReserve(_) => true
    case OthersRelease(bytes) => bytes <= s.otherBytes
    case LockScheduler => s.lock == Free
    case Scheduler(kind, todo) => ScheduleEnabled(s, kind, todo)
    case BeginDraining => s.lock == Free
    case SendStop => !s.accepting && HasRoom(s)
    case Work(_) => WorkerEnabled(s)
  }

  // ---------------------------------------------------------------- what the steps do

  /** The test a caller makes of the shared state. */
  predicate Allowed(s: State, k: Call, move: Move)
  {
    match move
    case ReserveProject => s.projectBytes + k.bytes <= PROJECT_QUEUE_BYTES
    case ReserveGlobal => s.globalBytes + k.bytes <= GLOBAL_QUEUE_BYTES
    case Admit => s.accepting
    case Send => HasRoom(s)
    case _ => true
  }

  /** The lock is held from a successful admission to the send. */
  function CallerNext(s: State, c: nat, move: Move): State
    requires MoveEnabled(s, c, move)
  {
    var allowed := Allowed(s, s.calls[c], move);
    var t := Apply(s, c, Moved(s.calls[c], move, allowed));
    if move.Admit? && allowed then t.(lock := ByCaller(c))
    else if move.Send? then t.(lock := Free, queue := if allowed then s.queue + [Run(c)] else s.queue)
    else t
  }

  function Cancelled(k: Call): Call
  {
    if k.cell == QUEUED then k.(cell := CANCELLED, cancelWon := true) else k
  }

  /** A scheduled command's slot after a step, given whether the channel has room. */
  function Scheduled(slot: Slot, todo: Schedule, room: bool): Slot
  {
    match todo
    case Flag => if slot.flag then slot else Slot(true, Flagged)
    case Count => slot.(token := Counted)
    case Submit => slot.(token := if room then Waiting else Refused)
    case UndoCount => slot.(token := RefusedUncounted)
    case UndoFlag => Slot(false, Absent)
  }

  /** Maintenance is scheduled under the lock, from its flag to the send or the end of the undoing. */
  function SchedulerNext(s: State, kind: Upkeep, todo: Schedule): State
  {
    var slot := SlotOf(s, kind);
    var done := (todo.Flag? && slot.flag) || (todo.Submit? && HasRoom(s)) || todo.UndoFlag?;
    var t := SetSlot(s, kind, Scheduled(slot, todo, HasRoom(s)));
    t.(pending := s.pending + (if todo.Count? then 1 else if todo.UndoCount? then -1 else 0),
       queue := if todo.Submit? && HasRoom(s) then s.queue + [Do(kind)] else s.queue,
       lock := if kind == Maintenance && done then Free else s.lock)
  }

  /** The worker's place after a step on its call. */
  function WorkerAfter(c: nat, before: Phase, after: Phase): Worker
    requires before.Held?
  {
    if after.Held? then WithCall(c)
    else match before.stage
      case Replying(panics) => if panics then Dying else Idle
      case Discarding => Emptying
      case Preparing => Dying
      case _ => Leaving
  }

  function CallNext(s: State, c: nat, choice: Choice): State
    requires c < |s.calls| && s.calls[c].phase.Held?
  {
    var stage := s.calls[c].phase.stage;
    var e := Worked(s.calls[c], choice);
    var unwound := stage.Preparing? && choice.unwinds;
    Apply(s, c, e).(worker := WorkerAfter(c, s.calls[c].phase, e.call.phase),
                    panicked := s.panicked || stage == Replying(true) || unwound,
                    leaked := s.leaked + if unwound then 1 else 0)
  }

  /** A slot after a step of the worker on its command. */
  function Tended(slot: Slot, choice: Choice): Slot
    requires slot.token.WithWorker?
  {
    match slot.token.stage
    case Accepted => slot.(token := WithWorker(AtWork))
    case AtWork => slot.(token := WithWorker(Done(choice.panics)))
    case Done(panics) => slot.(token := WithWorker(Uncounting(panics)))
    case Uncounting(panics) => slot.(token := WithWorker(Unflagging(panics)))
    case Unflagging(_) => Slot(false, Absent)
    case Dumping => slot.(token := WithWorker(DumpingFlag))
    case DumpingFlag => Slot(false, Absent)
  }

  function UpkeepNext(s: State, kind: Upkeep, choice: Choice): State
    requires SlotOf(s, kind).token.WithWorker?
  {
    var stage := SlotOf(s, kind).token.stage;
    SetSlot(s, kind, Tended(SlotOf(s, kind), choice)).(
      active := s.active + (match stage case Accepted => 1 case Done(_) => -1 case _ => 0),
      pending := s.pending - (if stage.Uncounting? || stage.Dumping? then 1 else 0),
      worker := match stage
                case Unflagging(panics) => if panics then Dying else Idle
                case DumpingFlag => Emptying
                case _ => s.worker,
      panicked := s.panicked || stage == Unflagging(true))
  }

  /** The worker takes the next command, to serve it or, after its loop, to drop it. */
  function TakeNext(s: State): State
    requires s.queue != [] && HeadKnown(s)
  {
    var serving := s.worker.Idle?;
    var rest := s.(queue := s.queue[1..]);
    match s.queue[0]
    case Run(c) =>
      rest.(worker := WithCall(c), calls := s.calls[c := At(s.calls[c], if serving then Took else Discarding)])
    case Do(kind) =>
      SetSlot(rest, kind, Slot(SlotOf(s, kind).flag, WithWorker(if serving then Accepted else Dumping)))
        .(worker := WithUpkeep(kind))
    case Stop => if serving then rest.(worker := Dying) else rest
  }

  function WorkerNext(s: State, choice: Choice): State
    requires WorkerEnabled(s)
  {
    match s.worker
    case Idle => TakeNext(s)
    case WithCall(c) => CallNext(s, c, choice)
    case Leaving => s.(active := s.active - 1, worker := Idle)
    case WithUpkeep(kind) => UpkeepNext(s, kind, choice)
    case Dying => s.(open := false, worker := Emptying)
    case Emptying => if s.queue == [] then s.(worker := Dead) else TakeNext(s)
    case Dead => s
  }

  /** What a step does. */
  function Next(s: State, a: Action): State
    requires Enabled(s, a)
  {
    match a
    case Arrive(bytes) => s.(calls := s.calls + [NewCall(bytes)])
    case Caller(c, move) => CallerNext(s, c, move)
    case Cancel(c) => s.(calls := s.calls[c := Cancelled(s.calls[c])])
    case OthersReserve(bytes) =>
      if s.globalBytes + bytes <= GLOBAL_QUEUE_BYTES
      then s.(globalBytes := s.globalBytes + bytes, otherBytes := s.otherBytes + bytes) else s
    case OthersRelease(bytes) => s.(globalBytes := s.globalBytes - bytes, otherBytes := s.otherBytes - bytes)
    case LockScheduler => if s.accepting then s.(lock := ByScheduler) else s
    case Scheduler(kind, todo) => SchedulerNext(s, kind, todo)
    case BeginDraining => s.(accepting := false)
    case SendStop => s.(queue := s.queue + [Stop])
    case Work(choice) => WorkerNext(s, choice)
  }
}
