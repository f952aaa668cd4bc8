# A verified model of the memory daemon and its plugin

The repository runs a per-user daemon in Rust that owns project memory, and a TypeScript plugin that
calls it. This project models the parts whose correctness depends on interleavings, on two languages
agreeing, or on an algorithm's global properties, and proves what those parts are for. Everything is
proved by Dafny's verifier: `dafny verify dfyconfig.toml`.

## What is modelled

**The project actor** (`Actor`, `ActorInvariant`, `ActorRuns`, `ActorAnswers`, `ActorProgress`,
`ActorWitnesses`, `ActorCode`). Callers, the worker thread, cancellers, the maintenance and model-switch
schedulers, drainers and the other actors that share the global byte counter interleave. One atomic
operation, or one section under the `accepting` lock up to the channel operation inside it, is one step,
under sequential consistency. The state holds the counters, the flags, the bounded channel, the worker's
place in its loop, and for every call its four-valued cell, what is left of its permit, and how often it was
executed and answered. What the clock, the engine and its panics decide is a `Choice` of the step.
`ActorInvariant` proves one inductive invariant; `ActorRuns` draws the theorems about whole runs from it;
`ActorAnswers` says why a call gets the answer it gets; `ActorProgress` bounds the worker's way to its end;
`ActorWitnesses` holds two concrete runs; `ActorCode` is the same actor as a class, whose methods change its
fields one operation at a time and carry a trace that the step system accepts, so every theorem about runs
holds of the object.

**The registry** (`Registry`, `RegistryRuns`, `RegistryRequests`, `RegistryWitness`, `RegistryCode`).
Acquirers, releases, the idle evictor, every actor's worker thread and every call of `stop` interleave; a
section under the registry's lock is one step.

**A project call from end to end** (`DaemonClient`, `Daemon`). The plugin's `request` with its one reconnect
retry, the daemon's admission of a call to a session, the answer an admitted call gets, and the cancel probe
are joined with the actor's runs: whatever the interleaving, a mutation is executed at most once.

**Frames and values** (`Varints`, `Frames`, `Values`). The incremental decoder, the length prefix (the
section "Base 128 Varints" of the Protocol Buffers Encoding specification) and the depth-bounded value tree,
each in its TypeScript and its Rust form.

**The Markdown packer** (`Text`, `Documents`, `Blocks`), **retrieval selection** (`Retrieval`, `Fusion`,
`Search`), and the plugin's asynchronous state machines: **the client pool** (`ClientPool`), **the
background queue** (`BackgroundJobs`) and **the recall cache** (`Recall`). JavaScript runs one callback at a
time, so in the last three each method is one synchronous stretch of the source, the code between two
awaits, and the interleavings are the orders in which the methods are called; the class invariant `Valid`
holds in all of them.

`Wrappers` and `Sequences` hold shared vocabulary.

## Findings

Five properties that one might expect of the code do not hold as they stand. Each is stated with an input
that refutes it and with the exact condition under which it does hold.

- A store can get two live workers. Two acquirers of a failed actor both call `stop`; the second finds no
  join handle and frees the key while the first worker still has the store
  (`RegistryWitness.TwoStoppersTwoWorkers`). It happens on a run if and only if the run can come to a state in
  which a task is about to remove the key of an actor that is current and still has its store: without such a
  state there is one live worker per store (`RegistryRuns.TwoLiveNeedABreak`), and from every such state there
  is a way to two (`RegistryRuns.BreakLeadsToTwoLive`). It takes two calls of `stop` on one actor
  (`RegistryRuns.BreakNeedsTwoStops`).
- A panic in `prepare_project_request` is not caught, unlike one in the transaction: no reply is sent for the
  call and the count of active commands never comes down again, so `has_work` stays true
  (`ActorWitnesses.UncaughtPanicLeaks`, `ActorRuns.LeakIsForEver`). At rest the counter is the number of
  such panics on the run, so it is zero exactly if there was none (`ActorRuns.LeakedAreUnwound`,
  `ActorRuns.QuietIsZero`).
- The Rust readers' overflow guard never fires, because the shift stops at 63: a ten-byte header that spells
  2^64 reads as 0 (`Varints.RustAcceptsOverflow`). They read faithfully exactly the headers that fit 64 bits
  (`Varints.RustHeaderFaithful`), and they agree with the TypeScript decoder on every
  stream whose headers do, one that is cut off having to spell a safe integer so far; the TypeScript decoder
  refuses every other stream (`Frames.DecodersAgree`, `Frames.OverflowDivides`).
- The frames that the TypeScript decoder delivers depend on how the stream was cut when it ends in an error,
  since a push that throws delivers none of the frames it had completed (`Frames.ThrowLosesFrames`). All
  complete frames are delivered exactly if the last of them ends before the push that throws begins; the error,
  or the kept suffix if there is none, is always the same (`Frames.ChunkingIndependence`).
- Fusing the graph channel can drop a candidate that had been ranked above the threshold: one that meets a high
  threshold exactly and comes last of 20 graph ids (`Fusion.LateRankDropsCandidate`). No search loses a
  candidate to its rank exactly if the threshold is at most 61/80, which the default of 0.42 is
  (`Fusion.FusionOnlyAdds`, and `Fusion.ChannelOnlyAdds` for channels of any length).

Some remarks beside these. `has_work` reads `pending` before `active`, and this order matters: in the other
order both reads can be zero while a call is waiting to run (`ActorRuns.HasWorkMissesNothing`,
`ActorWitnesses.ReversedReadsMissWork`). The sort of the candidates by id (src/engine/retrieval.rs:181-182)
matters to deduplication exactly if two records with the same content tie for the highest priority
(`Retrieval.OrderHiddenWithoutTie`, `Retrieval.OrderShowsWithTie`), and never to the selection after it
(`Retrieval.OrderIndependence`), so without a tie it never matters to a search (`Search.ResultIsDetermined`).
The size check at the end of the TypeScript decoder's `push` can never fire (`Frames.KeptBytesAreFew`), and
nothing depends on it.

## Model

| member | source | states |
|---|---|---|
| ActorInvariant.MoveKeepsLife | src/daemon/actor.rs:634-694 | every operation of a caller keeps the life of its call in order (which permit it holds where, what its cell may be) and changes the counters by exactly what the call's permit changes by |
| ActorInvariant.WorkKeepsLife | src/daemon/actor.rs:211-374 | the same for every operation of the worker on the call it dequeued, its early rejections, a caught panic and a panic that unwinds the worker included |
| ActorInvariant.ReleaseIsBalanced | src/daemon/actor.rs:50-90 | dropping a permit gives back pending, project and global counters one by one, each by what the permit was counted for |
| ActorInvariant.CallerKeeps | src/daemon/actor.rs:634-694 | a caller's operation keeps the whole invariant, whatever the other parties are doing |
| ActorInvariant.WorkerKeeps | src/daemon/actor.rs:211-461 | so does every operation of the worker, through a Stop or a panic to the emptying of its channel |
| ActorInvariant.SchedulerKeeps | src/daemon/actor.rs:506-569 | so does every operation of a scheduler, failed sends included |
| ActorInvariant.StepKeeps | src/daemon/actor.rs:29-714 | the invariant is inductive: every step of every party keeps it |
| ActorRuns.CancelExcludesExecution | src/daemon/actor.rs:237-310 | over every interleaving, a call that was cancelled while queued, or whose deadline passed first, is never executed, before or after |
| ActorRuns.AtMostOnce | src/daemon/actor.rs:211-374 | every call is executed at most once and answered at most once; its reply says whether it was executed; a dequeued call without a reply is the one the worker has |
| ActorAnswers.DeadlineEndsTheCall | src/daemon/actor.rs:247-291 | when either look at the clock finds the deadline passed, the call is not executed on any later run, and its answer, if it has one, is the deadline |
| ActorAnswers.FailedSetUpEndsTheCall | src/daemon/actor.rs:258-281 | after a set-up that failed the call is not executed on any later run, and its answer is the failed set-up or, if a canceller was first, the cancellation |
| ActorAnswers.FoundCancelledEndsTheCall | src/daemon/actor.rs:237-310 | a call that the worker finds cancelled at its first or its last check is answered with the cancellation and not executed, whatever clock and engine would say |
| ActorAnswers.StartedCallRuns | src/daemon/actor.rs:292-328 | a call that passes the last check runs or ran on every later run, and is never rejected |
| ActorAnswers.ResultIsAnswered | src/daemon/actor.rs:312-374 | what the engine did, a result or a caught panic, is what the answer says |
| ActorAnswers.EveryAnswerHasItsCause | src/daemon/actor.rs:211-374 | over every run, a deadline is answered only after a clock that had run out, a failed set-up only after a preparation that failed before any canceller came, a cancellation only if a canceller won, and a result only after that result |
| ActorAnswers.NothingElseStopsACall | src/daemon/actor.rs:211-374 | an answered call that was in time, set up and not cancelled was executed exactly once |
| ActorAnswers.ExecutionNeedsEveryCheck | src/daemon/actor.rs:237-310 | an executed call was found in time before and after a set-up that succeeded |
| ActorAnswers.NothingRunsAfterAPanic | src/daemon/actor.rs:341-374 | after a panic of any kind no call is executed any more on any later run |
| ActorAnswers.UpkeepRunsItsCourse | src/daemon/actor.rs:375-458 | a maintenance or switch command that is taken does its work and is uncounted and unflagged, and the worker ends with it exactly if the work panicked |
| ActorRuns.HasWorkMissesNothing | src/daemon/actor.rs:495-499 | if `has_work` reads pending as 0 and later active as 0, every call counted as pending before the first read is finished at the second |
| ActorRuns.FinishedForEver | src/daemon/actor.rs:232-235 | and a finished call is never executed again |
| ActorWitnesses.ReversedReadsMissWork | src/daemon/actor.rs:495-499 | why the order of the reads matters: a concrete run on which the other order would miss a call that is still to be executed |
| ActorRuns.AccountingIsExact | src/daemon/actor.rs:29-101 | in every reachable state the byte and command counters are the sums over the live permits, half-done reservations and releases included, and within their limits |
| ActorRuns.QuietIsZero | src/daemon/actor.rs:50-90 | when no call and no command is under way every counter is back to zero, except that `active` keeps one for each panic of the set-up on the run, of which there is at most one, and one while the worker is on its way out |
| ActorRuns.LeakedAreUnwound | src/daemon/actor.rs:258-258 | over every run the commands left uncounted are exactly the worker steps that unwound a call in its set-up |
| ActorRuns.LeakIsForEver | src/daemon/actor.rs:258-258 | what an uncaught panic of the set-up leaves in `active` stays there on every later run |
| ActorWitnesses.UncaughtPanicLeaks | src/daemon/actor.rs:258-258 | a concrete run on which the set-up panics: the call is lost without a reply and `active` is above zero in every later state |
| ActorRuns.UpkeepIsCoalesced | src/daemon/actor.rs:506-569 | at most one Maintenance and one SwitchStep live at any time, in the queue, with the worker or half sent, and the flag is set exactly then |
| ActorRuns.CallsPrecedeStop | src/daemon/actor.rs:578-594 | in every reachable queue each call and maintenance command precedes every Stop |
| ActorRuns.FirstSentFirstServed | src/daemon/actor.rs:174-174 | over every run the queue is first in, first out for commands of all kinds: what was in it and what was sent, in order, is what was taken, in order, and what is in it |
| ActorRuns.NothingIsAdmittedAfterDraining | src/daemon/actor.rs:666-687 | after `begin_draining` the actor never accepts again, and every call that is ever counted was counted before |
| ActorRuns.DrainLosesNothing | src/daemon/actor.rs:703-714 | a worker that ended without a panic has answered every call that was ever sent, exactly once |
| ActorRuns.WorkerWaitsOnlyForCommands | src/daemon/actor.rs:211-212 | the worker is never stuck: it can go on unless its queue is empty or it has ended |
| ActorRuns.WorkLowersRank | src/daemon/actor.rs:211-461 | every operation of the worker lowers a rank, so it serves its queue in boundedly many operations |
| ActorRuns.Exhausted | src/daemon/actor.rs:211-461 | left to itself the worker comes to an empty queue or to its end, whatever clock and engine do |
| ActorRuns.StopEndsTheWorker | src/daemon/actor.rs:459-462 | once a Stop is queued and the worker is left to itself it comes to its end, and without a panic every sent call is then answered once |
| ActorProgress.WorkStepsAreBounded | src/daemon/actor.rs:211-462 | once a Stop is queued or the loop is left, over every interleaving each step of the worker uses up a bound, and until it is dead it can take the next one |
| ActorProgress.StopEndsEveryRun | src/daemon/actor.rs:578-594 | once a Stop is queued the worker takes at most a fixed number of steps before its end on every run, whatever callers, cancellers, schedulers and further Stops do |
| ActorCode.ProjectActor.constructor | src/daemon/actor.rs:176-197 | a new actor accepts, with empty channel and zero counters |
| ActorCode.ProjectActor.CallerStep | src/daemon/actor.rs:634-694 | one atomic operation of a caller on the fields is the step system's step |
| ActorCode.ProjectActor.Reserve | src/daemon/actor.rs:29-48 | `reserve` succeeds exactly if both byte counters have room, and otherwise leaves both as they were |
| ActorCode.ProjectActor.DropPermits | src/daemon/actor.rs:50-90 | dropping a call's permit takes back exactly its share of the counters and nothing else |
| ActorCode.ProjectActor.Submit | src/daemon/actor.rs:666-687 | the section under the lock sends the call exactly if the actor accepts and the channel has room |
| ActorCode.ProjectActor.Call | src/daemon/actor.rs:634-694 | `call` run alone: the call is sent exactly if bytes, lock and channel allow it, and a refused call leaves the counters and the channel as they were |
| ActorCode.ProjectActor.EnqueueMaintenance | src/daemon/actor.rs:506-545 | a maintenance command is queued exactly if it is due, nothing is pending or active, the actor accepts, none is queued and the channel has room; otherwise nothing changes |
| ActorCode.ProjectActor.EnqueueSwitchStep | src/daemon/actor.rs:547-569 | the same for a switch step, which does not ask whether the actor accepts |
| ActorCode.ProjectActor.Cancel | src/daemon/mod.rs:1054-1065 | the canceller's compare-and-swap and what it finds |
| ActorCode.ProjectActor.BeginDraining | src/daemon/actor.rs:578-586 | the accepting flag goes down under its lock, and nothing else changes |
| ActorCode.ProjectActor.SendStop | src/daemon/actor.rs:703-705 | one attempt of the waiting send: a Stop goes to the end of the channel exactly if there is room |
| ActorCode.ProjectActor.TakeCommand | src/daemon/actor.rs:211-214 | the worker takes the first command of the channel, to serve it or to drop it with its permit |
| ActorCode.ProjectActor.WorkOnCall | src/daemon/actor.rs:213-374 | one operation of the worker on its call is the step system's step |
| ActorCode.ProjectActor.WorkOnUpkeep | src/daemon/actor.rs:375-458 | one operation of the worker on a maintenance or switch command is the step system's step |
| ActorCode.ProjectActor.RunWorker | src/daemon/actor.rs:211-461 | the worker's loop ends where the step system says it must |
| ActorCode.ProjectActor.StopAndJoin | src/daemon/actor.rs:703-714 | `stop` ends the worker, also when the channel is full at first, and unless it panicked every call ever sent has been answered exactly once |
| Registry.StepKeeps | src/daemon/registry.rs:34-117 | every step of every acquirer, evictor, stopper and worker thread keeps the registry's invariant |
| Registry.AcquireKeeps | src/daemon/registry.rs:41-79 | the section of `acquire` under the lock, with its mismatch, draining, limit and spawn outcomes |
| RegistryRequests.AcquireAnswers | src/daemon/registry.rs:41-79 | the answers of the section under the lock, each with its exact condition: a mismatch, a wait, a lease on the actor that the map has for the key, which has the configuration asked for, and the two refusals |
| RegistryRequests.LeasesAreAskedFor | src/daemon/registry.rs:34-96 | over every run a task holds a lease only on an actor with the key and the configuration that it asked for |
| RegistryRequests.ReadyIsLeased | src/daemon/registry.rs:89-96 | the wait for an actor ends in its lease exactly if it is ready |
| RegistryRequests.AcquirerIsServedOrCleansUp | src/daemon/registry.rs:89-96 | over every later run a waiting acquirer is served, or fails only after it has drained the actor, sent it a Stop and taken it from the map, where it never is again |
| RegistryRequests.WorkerLife | src/daemon/actor.rs:199-474 | a worker serves until it hears a Stop or panics, then drops its service, says that it is closed and exits, in this order; only a panic of an operation is reported as a failure |
| RegistryRequests.ExitedWorkersHaveSpoken | src/daemon/actor.rs:199-474 | over every run an actor whose worker has exited is closed, or draining when a drain overwrote that |
| Registry.RemoveKeeps | src/daemon/registry.rs:175-186 | removing an actor whose worker is past its service frees the key for at most one other |
| Registry.StopKeeps | src/daemon/actor.rs:703-714 | a step of `stop` keeps the invariant: only its first caller on an actor gets the join handle |
| RegistryRuns.RegistryIsSafe | src/daemon/registry.rs:34-117 | in every reachable state the map is within its limit, lease counts are the leases held, an evicted actor drains and is not leased, and two live workers on one store imply that `stop` was called twice on one of them |
| RegistryRuns.TwoLiveNeedABreak | src/daemon/registry.rs:175-186 | a store gets two live workers only on a run with a strictly earlier state in which some task was about to remove the key of a current actor that still had the store |
| RegistryRuns.BreakLeadsToTwoLive | src/daemon/registry.rs:175-186 | and every reachable state in which one is has a continuation to two live workers on that store |
| RegistryRuns.BreakNeedsTwoStops | src/daemon/actor.rs:706-713 | such a state needs two calls of `stop` on the actor |
| RegistryRuns.EvictionIsFinal | src/daemon/registry.rs:98-117 | over every later run no task ever holds a lease on an actor that the evictor drained |
| RegistryWitness.TwoStoppersTwoWorkers | src/daemon/actor.rs:706-713 | a concrete run on which a second `stop` skips the join and the store gets two live workers |
| RegistryCode.ProjectRegistry.AcquireLocked | src/daemon/registry.rs:41-79 | the locked section on the map itself is the step system's step |
| RegistryCode.ProjectRegistry.RemoveLocked | src/daemon/registry.rs:175-186 | the key is removed exactly if the map still has this actor for it |
| RegistryCode.ProjectRegistry.EvictIdle | src/daemon/registry.rs:98-112 | exactly the unleased idle actors of the map are drained, whatever order the map is walked in, and no other is touched |
| DaemonClient.DaemonProjectClient.constructor | opencode-memory/src/daemon-client.ts:191-214 | a new client has no request under way |
| DaemonClient.DaemonProjectClient.Request | opencode-memory/src/daemon-client.ts:216-360 | which attempts a request makes and what it returns or throws, for every fate of both; the count of active requests is restored and its waiters are woken at zero |
| DaemonClient.MutationsAreNotRetrySafe | opencode-memory/src/daemon-client.ts:77-103 | every method of the protocol is either a mutation or safe to retry, and none is both |
| DaemonClient.WhenRetried | opencode-memory/src/daemon-client.ts:320-335 | the exact condition of a second attempt for every failure, before and after the call was sent |
| DaemonClient.SafeMethodsSurviveALoss | opencode-memory/src/daemon-client.ts:328-335 | a safe method whose connection is lost gets its second attempt, and that decides |
| DaemonClient.WhatIsTold | opencode-memory/src/daemon-client.ts:336-352 | for every method, when the caller gets a value, an unknown outcome, or the failure itself |
| DaemonClient.WhatProves | opencode-memory/src/daemon-client.ts:301-319 | a deadline or a cancellation is proof only with the confirmed cancellation, any other failure by its code |
| DaemonClient.AtMostOnceMutation | opencode-memory/src/daemon-client.ts:312-335 | against an honest daemon a method that is not safe to retry is executed at most once |
| DaemonClient.PlainErrorMeansUnexecuted | opencode-memory/src/daemon-client.ts:336-352 | for such a method an error that is neither an unknown outcome nor the operation's own failure means zero executions |
| DaemonClient.UnknownIffNoProof | opencode-memory/src/daemon-client.ts:336-352 | the outcome is reported as unknown exactly when the call was sent, failed without an answer of its own, and there is no proof that it never ran |
| DaemonClient.OnlyUnrunCallsAreRetried | opencode-memory/src/daemon-client.ts:328-335 | a call sent again after it ran was safe to retry and had lost its connection |
| DaemonClient.RetrySafeRunsTwiceOnlyAfterLoss | opencode-memory/src/daemon-client.ts:77-103 | no request runs a call more than twice, and twice only for a safe method after a lost connection |
| DaemonClient.DishonestDaemonReplays | opencode-memory/src/daemon-client.ts:1329-1374 | the premise is needed: a daemon that answers NOT_FOUND for a call it ran makes the client run a mutation twice |
| Daemon.RefusalsAreDefinite | src/daemon/mod.rs:785-892 | every refusal of admission carries a code by which the client knows that the call was not admitted |
| Daemon.AdmissionKeepsLiveCalls | src/daemon/mod.rs:835-885 | admission stays within the session's number of call ids, forgets no call that is not over, and admits no id that such a call has |
| Daemon.FindProjectIsFaithful | src/daemon/mod.rs:864-874 | the project found has both the handle and the lease id, and none is found only if none has |
| Daemon.SessionAnswers | src/daemon/mod.rs:835-885 | the exact condition of every answer of the session; an admitted call goes to the project that it names and is put on record, queued, as nothing else is |
| Daemon.AdmissionAnswers | src/daemon/mod.rs:785-892 | the daemon admits exactly the well-formed calls for its own instance that come on their session's connection and that the session admits, and speaks of a changed instance exactly to calls for another |
| Daemon.StaleCallsAreRetried | src/daemon/mod.rs:785-840 | a call that another daemon or a forgotten session refuses is sent again, whatever its method |
| Daemon.WhatComesOfACall | src/daemon/mod.rs:910-925 | for everything that can come of an admitted mutation, what its caller is told, and how an actor's error is told apart by its text |
| Daemon.ProbeTellsTheState | src/daemon/mod.rs:1054-1065 | over every run a probe confirms a cancellation exactly if the call is cancelled after it, and finds a call started exactly while it is executed |
| Daemon.OwnFailureMeansAnswered | src/daemon/mod.rs:894-976 | the operation's own failure comes of a call that was executed, or of one that was not because its set-up failed |
| Daemon.RefusalIsPlain | src/daemon/mod.rs:785-892 | a refused call is never reported as an unknown outcome, whatever the method and whatever a probe says |
| Daemon.DaemonIsHonest | src/daemon/mod.rs:894-976 | the daemon keeps the client's premise over every run of the actor, for refused, lost, timed-out and pruned calls too: pre-admission codes and confirmed cancellations are given only for calls that are never executed |
| Daemon.AtMostOnceEndToEnd | src/daemon/mod.rs:1029-1069 | from the plugin's request to the engine: a mutation is executed at most once, and not at all when the request fails plainly |
| Daemon.ValueMeansExecuted | src/daemon/mod.rs:894-976 | a value in the answer means that the call was executed |
| Daemon.ReturnMeansOnce | opencode-memory/src/daemon-client.ts:228-352 | a request for a mutation that returns a value had it executed exactly once |
| Varints.EncodeVarint | opencode-memory/src/protocol.ts:1221-1234 | the shortest encoding of every safe length, and an error for any other number |
| Varints.VarintShape | opencode-memory/src/protocol.ts:1221-1234 | an encoding continues on all bytes but its last and spells its number |
| Varints.ReadVarint | opencode-memory/src/protocol.ts:1236-1255 | the reader returns, refuses or waits as the specified header says |
| Varints.ReadHeaderStable | opencode-memory/src/protocol.ts:1236-1255 | later bytes do not change a header that was read or refused |
| Varints.ReadHeaderOfVarint | opencode-memory/src/protocol.ts:1236-1255 | a canonical header in front of any bytes is read back and consumed exactly |
| Varints.ReadHeaderOfPartialVarint | opencode-memory/src/protocol.ts:1236-1255 | every proper prefix of one waits for more bytes |
| Varints.ReadVarintRust | src/daemon/mod.rs:1386-1407 | the Rust loop over a 64-bit accumulator computes the specified header |
| Varints.ReadersAgree | src/daemon/mod.rs:1386-1407 | JavaScript accepts a header exactly when Rust does and its value is a safe integer, with the same value and length |
| Varints.RustHeaderOfVarint | src/daemon/mod.rs:1386-1407 | the Rust reader inverts canonical encodings over the whole 64-bit range |
| Varints.RustHeaderFaithful | src/rpc.rs:1164-1167 | a header read by Rust means what its payloads spell exactly when they fit 64 bits |
| Varints.RustAcceptsOverflow | src/rpc.rs:1164-1167 | ten bytes that spell 2^64 are read as 0 |
| Frames.DelimitedFrameDecoder.constructor | opencode-memory/src/protocol.ts:522-525 | a new decoder has an empty buffer |
| Frames.DelimitedFrameDecoder.Push | opencode-memory/src/protocol.ts:527-554 | a push emits what can be taken from the buffered bytes and the chunk, and keeps exactly the rest |
| Frames.KeptBytesAreFew | opencode-memory/src/protocol.ts:549-552 | the kept suffix is always shorter than the limit of the last size check, which therefore never fires |
| Frames.FeedIsDrain | opencode-memory/src/daemon-client.ts:594-601 | a run of pushes ends as the whole stream does and has delivered exactly the frames that were complete when the last push before the throw returned |
| Frames.ChunkingIndependence | opencode-memory/src/protocol.ts:522-555 | for every byte stream and every way of cutting it: the same kept suffix or the same error; the frames delivered are a prefix of the complete ones, and all of them exactly if the last one ends before the push that throws begins |
| Frames.ThrowLosesFrames | opencode-memory/src/protocol.ts:534-544 | a frame with a refused header behind it is not delivered from one push, and is from two |
| Frames.EncodeDelimited | opencode-memory/src/protocol.ts:1213-1219 | a frame is its canonical length prefix and its payload |
| Frames.DrainOfPrefix | opencode-memory/src/protocol.ts:522-555 | a decoder that has received a prefix of a stream has emitted exactly the complete payloads and keeps exactly the unfinished one |
| Frames.RoundTrip | opencode-memory/src/protocol.ts:522-555 | for every list of payloads within the limit and every way of cutting any prefix of their encoding into pushes, the decoder emits exactly the complete payloads in order and keeps exactly the unfinished suffix |
| Frames.CompleteAtEnd | opencode-memory/src/protocol.ts:1213-1219 | at the end of the stream every payload is complete |
| Frames.ReadFrame | src/daemon/mod.rs:1366-1384 | the Rust reader's next frame, clean end, oversize and truncation |
| Frames.DelimitedCrosses | src/daemon/mod.rs:1366-1384 | what TypeScript frames, Rust reads back, one frame after the other |
| Frames.DecodersAgree | src/rpc.rs:1140-1173 | on every byte stream whose headers fit, the TypeScript decoder and the Rust loop take the same frames and end the same way: clean, truncated or refused; on every other the TypeScript decoder refuses a header |
| Frames.KeptMeansTruncated | src/daemon/mod.rs:1366-1407 | TypeScript keeps nothing exactly when Rust ends cleanly, and keeps something exactly when Rust finds a truncation, if the headers fit |
| Frames.OverflowDivides | src/rpc.rs:1156-1173 | ten bytes that spell 2^64 are one empty frame to Rust and malformed to TypeScript |
| Values.EncodableIffPortable | opencode-memory/src/protocol.ts:557-629 | the encoder accepts exactly the trees of finite, safe numbers within the depth limit |
| Values.RequestArrives | src/rpc.rs:1206-1233 | what TypeScript encodes, Rust decodes to the same JSON value, undefined read as null and undefined fields dropped |
| Values.EveryRequestIsRead | src/rpc.rs:1206-1233 | the daemon reads every message of any sender exactly if it is within the depth and its floats are finite, and then as the value it stands for |
| Values.RequestFitsTags | opencode-memory/src/protocol.ts:557-629 | the integers the plugin sends fit the 64 bits of their tags, signed below 0 and unsigned from there |
| Values.ResponseReturns | src/rpc.rs:1235-1271 | what Rust encodes of such a value, TypeScript decodes to the tree again, although the number tags may change |
| Values.EveryResponseArrives | opencode-memory/src/protocol.ts:631-656 | every JSON value of the daemon's own arrives as what it is to JavaScript exactly if it is within the depth and its integers are safe, and is an error otherwise |
| Values.ResponseFitsTags | src/rpc.rs:1235-1271 | the integers the daemon sends fit the 64 bits of their tags, signed below 2^63 and unsigned from there |
| Values.TagsDoNotMatter | opencode-memory/src/protocol.ts:631-656 | the plugin reads an integer the same under both tags |
| Values.SafeIntegers | opencode-memory/src/protocol.ts:557-656 | an integer is safe exactly if it lies between -2^53 and 2^53 |
| Values.ValueInversion | opencode-memory/src/protocol.ts:557-656 | the four conversions in a row give the normalised tree for every portable value, and an error for every other |
| Documents.PackConserves | src/document.rs:169-188 | packing keeps the visible characters in order, at both levels |
| Documents.PackBounded | src/document.rs:169-188 | no part is empty or over the limit, at both levels |
| Documents.GreedyBeatsPlan | src/document.rs:169-188 | no way of cutting the items into consecutive groups that fit yields fewer parts than the greedy loop |
| Documents.GreedyIsAPlan | src/document.rs:169-188 | and the greedy result is such a way, so the minimum is attained |
| Documents.BlocksConserve | src/document.rs:145-167 | collecting blocks from lines loses no visible character |
| Documents.BlocksAreTrimmed | src/document.rs:145-167 | no block is empty or starts or ends with white space |
| Documents.FenceHoldsTogether | src/document.rs:149-164 | blank lines inside a code fence do not end its block |
| Blocks.BlocksOfDocument | src/document.rs:145-167 | the blocks of a document are the trimmed paragraphs of its lines, joined by one line end: for every way to lay the lines out in paragraphs and the blank lines between them, where a blank line inside a fence does not count; and there is such a way |
| Blocks.ParagraphIsABlock | src/document.rs:153-159 | a paragraph before a blank line is a block of its own |
| Blocks.FenceLines | src/document.rs:149-152 | a fence line has three backticks or tildes behind its indentation |
| Blocks.ChunksAreGroups | src/document.rs:169-188 | chunks are consecutive blocks with a blank line between them, or the parts of one block that does not fit by itself |
| Blocks.ShortDocumentIsOneChunk | src/document.rs:169-188 | blocks that fit together are one chunk |
| Blocks.ShortBlockIsOnePart | src/document.rs:280-307 | words that fit together are one part, with a space between them |
| Text.WhiteSpaceCharacters | src/document.rs:153-155 | the 25 characters that count as white space |
| Text.LinesAreCut | src/document.rs:148-148 | lines are what stands between line ends, without any in them |
| Text.WordsAreMaximal | src/document.rs:283-283 | words are the maximal runs of characters that are not white space |
| Text.TrimIsTheMiddle | src/document.rs:155-155 | trimming takes off the white space at both ends and nothing else |
| Text.SlicesAreFull | src/document.rs:288-291 | all pieces of a long word but the last are full |
| Documents.SplitHard | src/document.rs:280-307 | the word-level loop computes the specified packing |
| Documents.CollectBlocks | src/document.rs:145-167 | the line loop computes the specified blocks |
| Documents.FlushChunk | src/document.rs:274-278 | a non-empty chunk is pushed and the accumulator emptied |
| Documents.SplitMarkdown | src/document.rs:144-199 | the chunks are the specified ones, and the two errors are given exactly for no chunk and for more than 100 |
| Documents.MarkdownConserves | src/document.rs:144-199 | chunks keep the visible characters in order, each is non-empty and within the character limit, and there are none exactly for a blank document |
| Documents.MarkdownIsOptimal | src/document.rs:169-188 | `split_markdown` makes the fewest chunks of any split of its blocks into consecutive groups that fit |
| Documents.HardSplitIsOptimal | src/document.rs:280-307 | `hard_split` makes the fewest parts of any split of its words |
| Retrieval.BestIndex | src/engine/retrieval.rs:566-582 | the candidate to which every other loses by relevance, score and id |
| Retrieval.SwapRemoveKeeps | src/engine/retrieval.rs:586-586 | `swap_remove` takes out one candidate and keeps the others, in another order |
| Retrieval.SelectMmr | src/engine/retrieval.rs:558-595 | the loop yields a selection in the sense of its specification, and its count is the sum of the estimates, within the budget |
| Retrieval.MmrSelectionIsUnique | src/engine/retrieval.rs:558-595 | for given candidates there is only one such selection |
| Retrieval.OrderIndependence | src/engine/retrieval.rs:558-595 | permutations of the input give the same picks and the same number of characters |
| Retrieval.SelectionIsMaximalPacking | src/engine/retrieval.rs:558-595 | picks are distinct candidates within the budget, and if there are fewer than asked for, no candidate left out fits the rest of it |
| Retrieval.PicksAreWorthIt | src/engine/retrieval.rs:566-595 | against every other candidate that still fitted, a pick loses no more in similarity than three times what it has in score, and draws go to the score and then to the smaller id |
| Retrieval.SimilarityIsJaccard | src/engine/retrieval.rs:597-614 | similarity is the Jaccard index of the token sets: symmetric, within [0, 1], 0 exactly without a common token, 1 for equal ones |
| Retrieval.UsedIsLength | src/engine/retrieval.rs:618-627 | the characters used are those of the picks' titles, contents and tags, and 320 more for each |
| Retrieval.DeduplicateLayers | src/engine/retrieval.rs:515-556 | the loop over the map, walked in any order, gives the specified list |
| Retrieval.LayersKeepFirstMaximum | src/engine/retrieval.rs:515-552 | for every content key that occurs the first record of maximal priority is kept |
| Retrieval.DeduplicationKeepsTheBest | src/engine/retrieval.rs:531-552 | no record is dropped for one of less precedence, nor of equal precedence and less score, nor of both equal and less recent |
| Retrieval.DeduplicationIsUnique | src/engine/retrieval.rs:553-555 | sorting by id leaves only one list, so the map's iteration order does not show |
| Retrieval.OrderHiddenWithoutTie | src/engine/retrieval.rs:515-556 | unless two records with the same content tie for the highest priority, inputs with the same records, so all permutations, give the same list |
| Retrieval.OrderShowsWithTie | src/engine/retrieval.rs:542-542 | and for every such tie there is a permutation that gives another one |
| Retrieval.InsertById | src/engine/retrieval.rs:554-554 | one insertion of the sort by id |
| Fusion.RankGraph | src/engine/retrieval.rs:278-282 | the rank of an id is its last position in the graph channel |
| Fusion.RankIsLastPosition | src/engine/retrieval.rs:278-282 | an id has a rank exactly if the channel has it, and then its last position |
| Fusion.FusingMovesScores | src/engine/retrieval.rs:457-468 | fusing moves a score a quarter of the way to the reciprocal rank, a score of 0 to 0.45 of it, and changes nothing else |
| Fusion.RanksSaturate | src/engine/retrieval.rs:457-460 | ranks count only up to 65535 |
| Fusion.AddGraphOnly | src/engine/retrieval.rs:283-295 | the eligible records that only the graph knows join behind the candidates in the order of the channel, once each, and a storage failure is passed on |
| Fusion.GraphOnlyJoins | src/engine/retrieval.rs:283-295 | the candidates before the threshold are exactly the ranked ones and the eligible records that only the graph knows, with distinct ids |
| Fusion.RetainFused | src/engine/retrieval.rs:297-321 | the loop that rescores in place yields the specified list, in the order of the candidates |
| Fusion.KeptMeetThreshold | src/engine/retrieval.rs:297-321 | that list has exactly the candidates whose fused score meets the threshold, with that score, each once |
| Fusion.FuseGraphChannel | src/engine/retrieval.rs:268-323 | it fails exactly when the record of an id that only the graph knows cannot be read, and otherwise gives the fused list, in order |
| Fusion.FusedAreSurvivors | src/engine/retrieval.rs:268-323 | the fused list has exactly the considered candidates that meet the threshold, with distinct ids |
| Fusion.FusedMeetBothBounds | src/engine/retrieval.rs:297-321 | a candidate is in the fused list exactly if its fused score is at least the minimum asked for and at least 0.42 |
| Fusion.GoodCandidateSurvives | src/engine/retrieval.rs:457-468 | a ranked candidate at or above the threshold is in the fused list exactly when the graph does not rank it or its rank's contribution reaches what its score lacks |
| Fusion.ChannelOnlyAdds | src/engine/retrieval.rs:297-321 | no channel of at most n ids costs a search a good candidate if and only if its threshold is at most the reciprocal rank of the last of n |
| Fusion.FusionOnlyAdds | src/engine/retrieval.rs:105-116 | for the 20 ids that a search asks for, if and only if its threshold is at most 61/80 |
| Fusion.LateRankDropsCandidate | src/engine/retrieval.rs:457-468 | a ranked candidate that meets exactly a threshold above its reciprocal rank is dropped |
| Fusion.GraphOnlySurvival | src/engine/retrieval.rs:268-323 | at the default threshold an eligible record that only the graph knows survives exactly when its rank is at most 4 |
| Search.Select | src/engine/retrieval.rs:112-123 | fusion, deduplication and selection one after the other, with the error of the first |
| Search.ResultIsDetermined | src/engine/retrieval.rs:112-123 | unless fused records with the same content tie for the highest priority, permutations of the ranked candidates give the same picks and the same number of characters |
| Search.ResultIsSound | src/engine/retrieval.rs:112-123 | every pick is a fused candidate, at or above the minimum asked for and 0.42, that no record with the same content outranks; no two picks share content or id, and they stay within the budget |
| ClientPool.NativeMemoryClientPool.constructor | opencode-memory/src/daemon-client.ts:837-843 | a new pool is empty |
| ClientPool.NativeMemoryClientPool.Acquire | opencode-memory/src/daemon-client.ts:845-864 | waits exactly for a closing entry, shares an open one, and creates a client only when every earlier client of the key has finished closing |
| ClientPool.NativeMemoryClientPool.Release | opencode-memory/src/daemon-client.ts:866-882 | a handle counts once; the last release of an entry starts its only disposal |
| ClientPool.NativeMemoryClientPool.FinishClosing | opencode-memory/src/daemon-client.ts:875-877 | a settled disposal takes its entry, and no other, out of the map |
| ClientPool.AddLeaseKeeps | opencode-memory/src/daemon-client.ts:853-856 | lease counts stay the unreleased handles when an entry is shared |
| ClientPool.AddEntryKeeps | opencode-memory/src/daemon-client.ts:857-862 | and when one is created, which happens only after every earlier one of the key was closed |
| ClientPool.ReleaseKeeps | opencode-memory/src/daemon-client.ts:866-882 | an unreleased handle's entry is open and undisposed, and giving it back keeps the pool in order |
| ClientPool.FinishKeeps | opencode-memory/src/daemon-client.ts:875-877 | the end of a disposal keeps the pool in order |
| BackgroundJobs.UnfinishedAreTheLiveOnes | opencode-memory/src/background-jobs.ts:182-237 | until disposal the jobs that are not over are exactly the pending ones and the active one, and no two run at once |
| BackgroundJobs.FullIffLoaded | opencode-memory/src/background-jobs.ts:142-172 | every slot is taken by an unfinished job exactly when the waiting and running jobs reach the capacity |
| BackgroundJobs.BackgroundJobQueue.constructor | opencode-memory/src/background-jobs.ts:63-74 | a new queue is empty and idle |
| BackgroundJobs.BackgroundJobQueue.Prune | opencode-memory/src/background-jobs.ts:142-154 | a job is forgotten exactly if it is over and was completed at least the retention ago, and the others keep their order |
| BackgroundJobs.BackgroundJobQueue.EvictTerminalIfNeeded | opencode-memory/src/background-jobs.ts:156-172 | a full queue forgets the oldest terminal job, of several the one inserted first, if there is one, and nothing else |
| BackgroundJobs.BackgroundJobQueue.NextId | opencode-memory/src/background-jobs.ts:134-140 | the new id is one of ten candidates and free, and there is none exactly if all ten are taken |
| BackgroundJobs.BackgroundJobQueue.DrainOn | opencode-memory/src/background-jobs.ts:182-198 | the drain loop up to its next await: it starts the first pending job that still exists, or returns |
| BackgroundJobs.BackgroundJobQueue.Enqueue | opencode-memory/src/background-jobs.ts:76-99 | fails for capacity exactly when every slot has an unfinished job; otherwise the job starts at once or waits behind the others; no unfinished job is lost, and no other is forgotten than the expired ones and, from a queue that is still full, the oldest that is over |
| BackgroundJobs.BackgroundJobQueue.Settle | opencode-memory/src/background-jobs.ts:197-236 | a settled job is recorded unless the queue is disposed, and the drain goes on in the order of enqueuing |
| BackgroundJobs.BackgroundJobQueue.FinishDrain | opencode-memory/src/background-jobs.ts:174-180 | no wakeup is lost: jobs that arrived after the drain's last look start in its finally-callback |
| BackgroundJobs.BackgroundJobQueue.Dispose | opencode-memory/src/background-jobs.ts:118-126 | nothing that waits will start |
| BackgroundJobs.BackgroundJobQueue.FinishDispose | opencode-memory/src/background-jobs.ts:126-127 | after the active task the jobs are cleared |
| BackgroundJobs.DrainStarts | opencode-memory/src/background-jobs.ts:182-196 | before disposal no pending job is gone, so a drain starts the first one and keeps the queue in order |
| BackgroundJobs.AppendKeeps | opencode-memory/src/background-jobs.ts:89-96 | a new job keeps the queue in order |
| BackgroundJobs.FinishKeeps | opencode-memory/src/background-jobs.ts:198-231 | so does the recording of a result |
| Recall.SessionContext.constructor | opencode-memory/src/session-context.ts:135-164 | a new context has no cached recall and no search |
| Recall.SessionContext.InvalidateRecall | opencode-memory/src/session-context.ts:135-143 | one session's or every session's entries go, and its generation becomes larger than any search so far has seen |
| Recall.SessionContext.ChatMessage | opencode-memory/src/plugin.ts:907-915 | a message drops the session's recall, changes its generation and no other's, and installs a fresh query |
| Recall.SessionContext.SearchRecallOnce | opencode-memory/src/session-context.ts:149-164 | an equal key joins the search in flight, any other starts a search and replaces it |
| Recall.SessionContext.SearchSettles | opencode-memory/src/session-context.ts:157-161 | a finishing search removes its own registration and never a newer one |
| Recall.SessionContext.HookSearches | opencode-memory/src/plugin.ts:932-956 | the hook uses a cached entry for its key, stops for a newer query, or searches in the current generation |
| Recall.SessionContext.HookResumes | opencode-memory/src/plugin.ts:975-982 | a response is stored exactly when neither a newer query nor an invalidation came in between, so each entry carries its session's current generation |

## Left out

- I/O and the operating system: sockets, locks on disk, bootstrap, paths and permissions; they become outcomes of steps or parameters.
- The engine, embeddings, extraction and the stores behind `handle_project`, `run_maintenance` and `run_model_switch_step`: the model only counts their executions and whether they panic.
- The actor's readiness wait and clock are a free choice of the early exit in `call`; its last activity, its failure text and the flags `engine_initialized` and `switch_active` are not kept. In the step system the schedulers' guards on leases, flags, pending work and the interval are not conditions of their steps, so the theorems hold for more runs than the code has; `ActorCode.ProjectActor.EnqueueMaintenance` and `ActorCode.ProjectActor.EnqueueSwitchStep` have them.
- Weak memory: every atomic operation is taken as sequentially consistent.
- A waiting `send` of Stop does not reserve its place in the channel before it gets one; closing the channel and refusing sends from then on is one step.
- A call's `Answered` phase is the send on its reply channel; whether the caller is still there to hear it is left to `Daemon.Served`, where it may have timed out.
- `close_all` of the registry: a drain that overtakes a worker's first Ready can be overwritten by it, so eviction's guarantees are not stated for it. When a worker's last Closed is overwritten by a draining in progress, acquirers of that key wait for ever; the model has this race, and no liveness of `acquire` is stated.
- Dropped futures of acquirers, which leak a lease; `schedule_maintenance` and `schedule_model_switches`, which only collect actors.
- ActorCode.ProjectActor.BeginDraining: the state sent to the watch at line 593 is modelled in `Registry` only.
- Daemon.AdmissionKeepsLiveCalls: string lengths count characters, where the source counts bytes; `validate_project_request` is a flag of the request.
- Daemon.DaemonIsHonest: connection generations and `invalidateConnection`, heartbeats and session expiry are not modelled; that an answer belongs to its request is taken from the call and request ids.
- Several requests of one client at a time share nothing in the model but the count of active requests.
- Values.ValueInversion: negative zero, the order of record fields, `__proto__` keys, and which of several errors is reported are not distinguished.
- Numbers in retrieval are reals and scores are finite; the logistic curve, dense and lexical ranking, `merge_candidates` and feedback are not modelled. SHA-256 is taken to be injective on content keys, and tokenisation is an attribute of a record.
- White space is the set that Rust's `char::is_whitespace` uses for the Basic Multilingual Plane; strings are sequences of characters, without encoding or normalisation.
- In the background queue abort signals, results, `get` and `list` are left out, and a job's `execute` is assumed not to call `enqueue` before its first await.
- Recall.SessionContext.HookSearches: the index synchronisation, root resolution, feedback and formatting around the search are left out; a cache key is its text and its generation.
- The knowledge graph, the lifecycle store, tool definitions, the terminal interface, the command line, the model catalogue and the mapping tables.
