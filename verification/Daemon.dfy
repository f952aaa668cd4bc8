/**
 The daemon's side of a project call: admission to a session, the answer the client gets for an
 admitted call, and the cancel probe; and what these and the actor give the client's retry loop.
 */
module Daemon {

  import opened Wrappers
  import Client = DaemonClient
  import opened Actor
  import opened ActorInvariant
  import opened ActorRuns

  const MAX_CALL_IDS_PER_SESSION := 1024
  const MAX_OPAQUE_ID_BYTES := 128
  const MAX_CALL_TIMEOUT_MS := 2 * 60 * 60 * 1000

  datatype Project = Project(handle: string, leaseId: string, actor: nat)

  /** A recorded call, with what its state cell holds. */
  datatype ActiveCall = ActiveCall(handle: string, leaseId: string, cell: Cell)

  datatype Session = Session(connection: string, projects: seq<Project>, calls: map<string, ActiveCall>)

  /** `domains` is the number of domain requests present, `valid` that the one present validates. */
  datatype CallRequest = CallRequest(
    instanceId: string, sessionId: string, handle: string, leaseId: string, callId: string,
    timeoutMs: nat, domains: nat, valid: bool, shutdown: bool)

  function Refuse(code: Client.StatusCode): Result<Project, Client.Failure>
  {
    Err(Client.Rpc(code, false))
  }

  /** The checks that need no session. */
  function CheckRequest(instanceId: string, request: CallRequest): Option<Client.Failure>
  {
    if request.instanceId != instanceId then Some(Client.Rpc(Client.FAILED_PRECONDITION, true))
    else if request.callId == "" then Some(Client.Rpc(Client.INVALID_ARGUMENT, false))
    else if |request.callId| > MAX_OPAQUE_ID_BYTES then Some(Client.Rpc(Client.INVALID_ARGUMENT, false))
    else if request.timeoutMs == 0 || request.timeoutMs > MAX_CALL_TIMEOUT_MS then Some(Client.Rpc(Client.INVALID_ARGUMENT, false))
    else if request.domains != 1 then Some(Client.Rpc(Client.INVALID_ARGUMENT, false))
    else if !request.valid then Some(Client.Rpc(Client.INVALID_ARGUMENT, false))
    else if request.shutdown then Some(Client.Rpc(Client.FAILED_PRECONDITION, false))
    else None
  }

  predicate IsTerminal(cell: Cell)
  {
    cell == COMPLETED || cell == CANCELLED
  }

  /** A full table of calls is cleared of those that are over. */
  function Pruned(calls: map<string, ActiveCall>): map<string, ActiveCall>
  {
    if |calls| < MAX_CALL_IDS_PER_SESSION then calls
    else map id | id in calls && !IsTerminal(calls[id].cell) :: calls[id]
  }

  function FindProject(projects: seq<Project>, handle: string, leaseId: string): Option<Project>
  {
    if projects == [] then None
    else if projects[0].handle == handle && projects[0].leaseId == leaseId then Some(projects[0])
    else FindProject(projects[1..], handle, leaseId)
  }

  /** The part of `admit_project_call` on the caller's session: the session after it, and its project. */
  function AdmitToSession(session: Session, request: CallRequest): (Session, Result<Project, Client.Failure>)
  {
    var pruned := session.(calls := Pruned(session.calls));
    if |pruned.calls| >= MAX_CALL_IDS_PER_SESSION then (pruned, Refuse(Client.RESOURCE_EXHAUSTED))
    else if request.callId in pruned.calls then (pruned, Refuse(Client.FAILED_PRECONDITION))
    else match FindProject(session.projects, request.handle, request.leaseId)
      case None => (pruned, Refuse(Client.NOT_FOUND))
      case Some(project) =>
        var call := ActiveCall(request.handle, request.leaseId, QUEUED);
        (pruned.(calls := pruned.calls[request.callId := call]), Ok(project))
  }

  /** `admit_project_call`, under the sessions' lock: the sessions after it, and the leased project. */
  function AdmitProjectCall(instanceId: string, sessions: map<string, Session>, connection: string, request: CallRequest)
    : (map<string, Session>, Result<Project, Client.Failure>)
  {
    var refused := CheckRequest(instanceId, request);
    if refused.Some? then (sessions, Err(refused.value))
    else if request.sessionId !in sessions then (sessions, Refuse(Client.NOT_FOUND))
    else if sessions[request.sessionId].connection != connection then (sessions, Refuse(Client.FAILED_PRECONDITION))
    else
      var (session, result) := AdmitToSession(sessions[request.sessionId], request);
      (sessions[request.sessionId := session], result)
  }

  /** Every refusal carries a code by which the client knows that the call was not admitted. */
  lemma RefusalsAreDefinite(instanceId: string, sessions: map<string, Session>, connection: string, request: CallRequest)
    ensures var result := AdmitProjectCall(instanceId, sessions, connection, request).1;
            result.Err? ==> Client.IsDefinitePreAdmissionFailure(result.error)
  {
  }

  predicate Names(project: Project, handle: string, leaseId: string)
  {
    project.handle == handle && project.leaseId == leaseId
  }

  /** The project found is one of the session's, and has both the handle and the lease; none is found only if
      none has both. */
  lemma {:induction false} FindProjectIsFaithful(projects: seq<Project>, handle: string, leaseId: string)
    ensures var found := FindProject(projects, handle, leaseId);
            && (found.Some? ==> found.value in projects && Names(found.value, handle, leaseId))
            && (found.None? <==> forall p <- projects :: !Names(p, handle, leaseId))
  {
    if projects != [] {
      FindProjectIsFaithful(projects[1..], handle, leaseId);
      assert projects == [projects[0]] + projects[1..];
    }
  }

  /** The calls of a session that are not over. */
  function LiveCalls(calls: map<string, ActiveCall>): set<string>
  {
    set id | id in calls && (calls[id].cell == QUEUED || calls[id].cell == RUNNING)
  }

  /** The answers of the session: the call goes to the project it names, by handle and lease; the session is
      exhausted exactly if that many calls are not over, the id is a duplicate exactly if it is still on
      record, and otherwise NOT_FOUND means that the session has no such project.  An admitted call is put on
      record for its own handle and lease, queued, and nothing else is. */
  lemma SessionAnswers(session: Session, request: CallRequest)
    ensures var (after, result) := AdmitToSession(session, request);
            var exhausted := |LiveCalls(session.calls)| >= MAX_CALL_IDS_PER_SESSION;
            var recorded := if |session.calls| < MAX_CALL_IDS_PER_SESSION then session.calls.Keys else LiveCalls(session.calls);
            var named := exists p <- session.projects :: Names(p, request.handle, request.leaseId);
            && (result == Refuse(Client.RESOURCE_EXHAUSTED) <==> exhausted)
            && (result == Refuse(Client.FAILED_PRECONDITION) <==> !exhausted && request.callId in recorded)
            && (result == Refuse(Client.NOT_FOUND) <==> !exhausted && request.callId !in recorded && !named)
            && (result.Ok? <==> !exhausted && request.callId !in recorded && named)
            && (result.Ok? ==> result.value in session.projects && Names(result.value, request.handle, request.leaseId))
            && after.connection == session.connection && after.projects == session.projects
            && after.calls.Keys == recorded + (if result.Ok? then {request.callId} else {})
            && (forall id <- recorded :: id in session.calls && after.calls[id] == session.calls[id])
            && (result.Ok? ==> after.calls[request.callId] == ActiveCall(request.handle, request.leaseId, QUEUED))
  {
    FindProjectIsFaithful(session.projects, request.handle, request.leaseId);
    PrunedIsLive(session.calls);
    hide FindProject, IsTerminal, Pruned;
  }

  lemma LiveAreNotTerminal(calls: map<string, ActiveCall>)
    ensures LiveCalls(calls) == set id | id in calls && !IsTerminal(calls[id].cell)
  {
  }

  lemma PrunedIsLive(calls: map<string, ActiveCall>)
    ensures Pruned(calls).Keys == if |calls| < MAX_CALL_IDS_PER_SESSION then calls.Keys else LiveCalls(calls)
    ensures forall id :: id in Pruned(calls) ==> id in calls && Pruned(calls)[id] == calls[id]
    ensures |Pruned(calls)| == |Pruned(calls).Keys|
    ensures |calls| < MAX_CALL_IDS_PER_SESSION ==> |LiveCalls(calls)| < MAX_CALL_IDS_PER_SESSION
  {
    LiveAreNotTerminal(calls);
    hide IsTerminal, LiveCalls;
    assert LiveCalls(calls) + (calls.Keys - LiveCalls(calls)) == calls.Keys;
    assert |calls| == |calls.Keys|;
  }

  /** What a call must be to get as far as its session: for this daemon, with an id and a time within their
      bounds, and with one valid request that is no shutdown. */
  predicate WellFormed(instanceId: string, request: CallRequest)
  {
    && request.instanceId == instanceId
    && 0 < |request.callId| <= MAX_OPAQUE_ID_BYTES
    && 0 < request.timeoutMs <= MAX_CALL_TIMEOUT_MS
    && request.domains == 1 && request.valid && !request.shutdown
  }

  /** The answers of the daemon: it admits exactly the well-formed calls of a session on the session's own
      connection that the session admits, touches no other session, and speaks of a changed instance exactly
      to a call that was meant for another. */
  lemma AdmissionAnswers(instanceId: string, sessions: map<string, Session>, connection: string, request: CallRequest)
    ensures var (after, result) := AdmitProjectCall(instanceId, sessions, connection, request);
            var id := request.sessionId;
            && (result.Ok? <==>
                  && WellFormed(instanceId, request)
                  && id in sessions && sessions[id].connection == connection
                  && AdmitToSession(sessions[id], request).1.Ok?)
            && (result.Ok? ==>
                  && result == AdmitToSession(sessions[id], request).1
                  && after == sessions[id := AdmitToSession(sessions[id], request).0])
            && after.Keys == sessions.Keys && (forall other <- sessions :: other != id ==> after[other] == sessions[other])
            && (result.Err? ==> result.error.Rpc? && (result.error.instanceChanged <==> request.instanceId != instanceId))
            && (WellFormed(instanceId, request) && id !in sessions ==> result == Refuse(Client.NOT_FOUND))
            && (WellFormed(instanceId, request) && id in sessions && sessions[id].connection != connection
                ==> result == Refuse(Client.FAILED_PRECONDITION))
            && (result == Err(Client.Rpc(Client.INVALID_ARGUMENT, false)) <==>
                  && request.instanceId == instanceId
                  && !WellFormed(instanceId, request.(shutdown := false)))
  {
    hide FindProject, Pruned;
  }

  /** The session remembers every call of the other that is not over. */
  predicate Remembers(after: Session, session: Session)
  {
    forall id :: id in session.calls && !IsTerminal(session.calls[id].cell)
      ==> id in after.calls && after.calls[id] == session.calls[id]
  }

  /** Admission keeps a session within its number of call ids, forgets no call that is not over, and
      admits no id that such a call has. */
  lemma AdmissionKeepsLiveCalls(session: Session, request: CallRequest)
    requires |session.calls| <= MAX_CALL_IDS_PER_SESSION
    ensures var (after, result) := AdmitToSession(session, request);
            && |after.calls| <= MAX_CALL_IDS_PER_SESSION
            && Remembers(after, session)
            && (result.Ok? ==>
                  && request.callId in after.calls && after.calls[request.callId].cell == QUEUED
                  && (request.callId in session.calls ==> IsTerminal(session.calls[request.callId].cell)))
  {
    PrunedRemembers(session.calls);
    hide Pruned, FindProject;
    OneMore(Pruned(session.calls), request.callId, ActiveCall(request.handle, request.leaseId, QUEUED));
  }

  lemma PrunedRemembers(calls: map<string, ActiveCall>)
    ensures |Pruned(calls)| <= |calls|
    ensures forall id :: id in calls && !IsTerminal(calls[id].cell) ==> id in Pruned(calls) && Pruned(calls)[id] == calls[id]
    ensures forall id :: id in Pruned(calls) ==> id in calls
  {
    assert Pruned(calls).Keys + (calls.Keys - Pruned(calls).Keys) == calls.Keys;
  }

  lemma OneMore(calls: map<string, ActiveCall>, id: string, call: ActiveCall)
    ensures |calls[id := call]| <= |calls| + 1
  {
    assert calls[id := call].Keys == calls.Keys + {id};
  }

  // ---------------------------------------------------------------- answers to an admitted call

  /** What `execute_project_call` finds in the text of an actor's error. */
  datatype Text = Text(deadline: bool, cancelled: bool)

  function CodeOf(text: Text): Client.StatusCode
  {
    if text.deadline then Client.DEADLINE_EXCEEDED
    else if text.cancelled then Client.CANCELLED
    else Client.INTERNAL
  }

  /** What the client hears of an admitted call: a response, which may carry the operation's own
      failure or be malformed, an error of the actor, a lost connection, or its own timer or abort. */
  datatype Told = Value | OwnFailure | Malformed | ActorError(text: Text) | ConnectionLost | TimedOut | Aborted

  function ReplyOf(told: Told): Client.Reply
  {
    match told
    case Value => Client.Success
    case OwnFailure => Client.Failed(Client.Operation)
    case Malformed => Client.Failed(Client.Other)
    case ActorError(text) => Client.Failed(Client.Rpc(CodeOf(text), false))
    case ConnectionLost => Client.Failed(Client.Transport)
    case TimedOut => Client.Failed(Client.Rpc(Client.DEADLINE_EXCEEDED, false))
    case Aborted => Client.Failed(Client.Rpc(Client.CANCELLED, false))
  }

  /** What the caller of a mutation is told of an admitted call, from what came of it: its value, its own failure,
      an unknown outcome for a lost connection or a malformed answer, and for a deadline, a cancellation or an error
      of the actor the failure itself exactly if a probe confirmed that the call was cancelled before its start.
      An error of the actor is a deadline or a cancellation by its text, a deadline first. */
  lemma WhatComesOfACall(name: string, told: Told, ran: bool, cancel: Option<Client.CancelOutcome>)
    requires !Client.IsRetrySafe(name)
    ensures var fate := Client.Sent(ReplyOf(told), ran, cancel);
            var confirmed := cancel == Some(Client.CancelledBeforeStart);
            Client.Verdict(name, fate) ==
            match told
            case Value => Client.Returned
            case OwnFailure => Client.Threw(Client.Plain(Client.Operation))
            case Malformed => Client.Threw(Client.OutcomeUnknown)
            case ConnectionLost => Client.Threw(Client.OutcomeUnknown)
            case TimedOut =>
              Client.Threw(if confirmed then Client.Plain(Client.Rpc(Client.DEADLINE_EXCEEDED, false)) else Client.OutcomeUnknown)
            case Aborted =>
              Client.Threw(if confirmed then Client.Plain(Client.Rpc(Client.CANCELLED, false)) else Client.OutcomeUnknown)
            case ActorError(text) =>
              Client.Threw(
                if confirmed && text.deadline then Client.Plain(Client.Rpc(Client.DEADLINE_EXCEEDED, false))
                else if confirmed && text.cancelled then Client.Plain(Client.Rpc(Client.CANCELLED, false))
                else Client.OutcomeUnknown)
    ensures told.ActorError? ==> ReplyOf(told).Failed? && ReplyOf(told).failure.Rpc? && !ReplyOf(told).failure.instanceChanged
    ensures told == ConnectionLost <==> ReplyOf(told) == Client.Failed(Client.Transport)
  {
  }

  /** A value comes only from a handled call; the operation's own failure also from a failed set-up. */
  predicate CanTell(k: Call, told: Told)
  {
    match told
    case Value => k.phase == Answered(Handled)
    case OwnFailure => k.phase == Answered(Handled) || k.phase == Answered(SetUpFailed)
    case _ => true
  }

  /** `cancel_call` on a recorded call: the outcome for what its swap finds. */
  function OutcomeOf(cell: Cell): Client.CancelOutcome
  {
    match cell
    case QUEUED => Client.CancelledBeforeStart
    case CANCELLED => Client.CancelledBeforeStart
    case RUNNING => Client.AlreadyStarted
    case COMPLETED => Client.Completed
  }

  /** What a probe finds on any run: a confirmed cancellation exactly if the call is cancelled after it, a started
      call exactly if the worker is executing it or about to answer it, and a completed one otherwise. */
  lemma ProbeTellsTheState(acts: seq<Action>, c: nat)
    requires Possible(INITIAL, acts) && c < |After(INITIAL, acts).calls|
    ensures var s := After(INITIAL, acts);
            var k := s.calls[c];
            && (OutcomeOf(k.cell) == Client.CancelledBeforeStart <==> Next(s, Cancel(c)).calls[c].cell == CANCELLED)
            && (OutcomeOf(k.cell) == Client.AlreadyStarted <==>
                  k.phase.Held? && (k.phase.stage.Running? || k.phase.stage.Finishing? || k.phase.stage.Completing?))
            && (OutcomeOf(k.cell) == Client.Completed <==> k.cell == COMPLETED)
            && (k.executions > 0 ==> OutcomeOf(k.cell) != Client.CancelledBeforeStart)
  {
    Reached(acts);
    hide Possible, After;
    assert LifeOk(After(INITIAL, acts).calls[c]);
    hide Inv, PermitOk, SentOk;
  }

  /** The actor's run around one attempt: up to the answer, from there to the probe, if there is one,
      and from there on for as long as anyone looks. */
  datatype Trace = Trace(c: nat, answered: seq<Action>, waited: seq<Action>, probed: bool, later: seq<Action>)

  function Probed(t: State, trace: Trace): State
    requires trace.c < |t.calls|
  {
    if trace.probed then Next(t, Cancel(trace.c)) else t
  }

  ghost predicate IsTrace(trace: Trace)
  {
    && Possible(INITIAL, trace.answered)
    && var s := After(INITIAL, trace.answered);
    && trace.c < |s.calls|
    && Possible(s, trace.waited)
    && var t := After(s, trace.waited);
    && trace.c < |t.calls|
    && Possible(Probed(t, trace), trace.later)
    && trace.c < |After(Probed(t, trace), trace.later).calls|
  }

  /** What a refused call is answered: a bad envelope, too many outstanding calls, or no admission. */
  ghost predicate RefusedWith(failure: Client.Failure)
  {
    || failure == Client.Rpc(Client.INVALID_ARGUMENT, false)
    || failure == Client.Rpc(Client.FAILED_PRECONDITION, false)
    || failure == Client.Rpc(Client.RESOURCE_EXHAUSTED, false)
    || (exists instanceId, sessions, connection, request ::
          AdmitProjectCall(instanceId, sessions, connection, request).1 == Err(failure))
  }

  /** What the client may hear although the call was never admitted: the refusal, or only that its
      connection is gone, its timer fired or its caller gave up. */
  ghost predicate UnadmittedReply(reply: Client.Reply, told: Told)
  {
    || (reply.Failed? && RefusedWith(reply.failure))
    || ((told == ConnectionLost || told == TimedOut || told == Aborted) && reply == ReplyOf(told))
  }

  /** The answer of `cancel_call`: that the call is not on record, because the probe came before its
      admission or after its record was pruned, or what the swap found. */
  ghost predicate ProbeAnswer(cancel: Client.CancelOutcome, trace: Trace, cell: Cell)
  {
    cancel == Client.NotFound || (trace.probed && cancel == OutcomeOf(cell))
  }

  /** The fate of an attempt at this daemon: it was not sent; it was sent and not admitted, and then a
      probe may find anything under its id; or it was admitted and went the way of a run of the actor. */
  ghost predicate Served(fate: Client.Fate, trace: Trace, told: Told)
  {
    fate.Sent? ==>
      || (!fate.ran && UnadmittedReply(fate.reply, told))
      || (&& IsTrace(trace)
          && var s := After(INITIAL, trace.answered);
          && var t := After(s, trace.waited);
          && CanTell(s.calls[trace.c], told) && fate.reply == ReplyOf(told)
          && (fate.cancel.Some? ==> ProbeAnswer(fate.cancel.value, trace, t.calls[trace.c].cell))
          && (fate.ran <==> After(Probed(t, trace), trace.later).calls[trace.c].executions > 0))
  }

  /** The state the actor was in when the call was answered, when it was probed, and after the probe. */
  lemma TraceKeeps(trace: Trace)
    requires IsTrace(trace)
    ensures var s := After(INITIAL, trace.answered);
            var t := After(s, trace.waited);
            Inv(s) && Inv(t) && Inv(Probed(t, trace))
  {
    Reached(trace.answered);
    var s := After(INITIAL, trace.answered);
    hide Inv, Possible, After, Next;
    RunKeeps(s, trace.waited);
    StepKeeps(After(s, trace.waited), Cancel(trace.c));
  }

  /** The premise of the client's guarantees holds of this daemon: it gives a pre-admission code, or
      confirms a cancellation before the start, only for calls that are never executed. */
  lemma DaemonIsHonest(fate: Client.Fate, trace: Trace, told: Told)
    requires Served(fate, trace, told)
    ensures Client.Honest(fate)
  {
    if fate.Sent? && IsTrace(trace) && fate.cancel == Some(Client.CancelledBeforeStart) && fate.ran {
      var t := After(After(INITIAL, trace.answered), trace.waited);
      TraceKeeps(trace);
      assert OutcomeOf(t.calls[trace.c].cell) == Client.CancelledBeforeStart;
      assert Probed(t, trace).calls[trace.c].cell == CANCELLED;
      hide *;
      CancelledNeverRuns(Probed(t, trace), trace.later, trace.c);
    }
  }

  /** A refusal is never reported as an unknown outcome, whatever a probe says and whatever the method. */
  lemma RefusalIsPlain(name: string, fate: Client.Fate)
    requires fate.Sent? && fate.reply.Failed? && RefusedWith(fate.reply.failure)
    ensures Client.Verdict(name, fate) == Client.Threw(Client.Plain(fate.reply.failure))
  {
    var failure := fate.reply.failure;
    forall instanceId, sessions, connection, request |
      AdmitProjectCall(instanceId, sessions, connection, request).1 == Err(failure)
      ensures Client.IsDefinitePreAdmissionFailure(failure)
    {
      RefusalsAreDefinite(instanceId, sessions, connection, request);
    }
    assert Client.IsDefinitePreAdmissionFailure(failure);
  }

  /** A call that another daemon or a forgotten session refuses is sent again after a new set-up, whatever its
      method, since it was never admitted. */
  lemma StaleCallsAreRetried(name: string, instanceId: string, sessions: map<string, Session>, connection: string,
                             request: CallRequest, cancel: Option<Client.CancelOutcome>)
    requires request.instanceId != instanceId || (WellFormed(instanceId, request) && request.sessionId !in sessions)
    ensures var result := AdmitProjectCall(instanceId, sessions, connection, request).1;
            result.Err? && Client.Retries(name, Client.Attempt(Client.Sent(Client.Failed(result.error), false, cancel), false))
  {
    AdmissionAnswers(instanceId, sessions, connection, request);
  }

  /** From the plugin's request to the engine: a method that is not safe to retry is executed at most
      once, and not at all when the request fails without saying that the outcome is unknown and without
      the operation's own failure. */
  lemma AtMostOnceEndToEnd(
    name: string, first: Client.Attempt, second: Client.Attempt,
    trace1: Trace, told1: Told, trace2: Trace, told2: Told)
    requires !Client.IsRetrySafe(name)
    requires Served(first.fate, trace1, told1) && Served(second.fate, trace2, told2)
    ensures var made := Client.Made(name, first, second);
            var outcome := Client.Verdict(name, made[|made| - 1]);
            Client.Executions(made) <= if Client.FailsPlainly(outcome) then 0 else 1
  {
    DaemonIsHonest(first.fate, trace1, told1);
    DaemonIsHonest(second.fate, trace2, told2);
    hide Served, Client.Executions, Client.Honest;
    Client.AtMostOnceMutation(name, first, second);
    var made := Client.Made(name, first, second);
    var outcome := Client.Verdict(name, made[|made| - 1]);
    if Client.FailsPlainly(outcome) {
      Client.PlainErrorMeansUnexecuted(name, first, second);
    }
  }

  /** A value means that the call was executed. */
  lemma ValueMeansExecuted(fate: Client.Fate, trace: Trace, told: Told)
    requires Served(fate, trace, told) && fate.Sent? && fate.reply.Success?
    ensures fate.ran
  {
    var k := After(INITIAL, trace.answered).calls[trace.c];
    TraceKeeps(trace);
    assert told == Value && Finished(k);
    assert k.executions == 1 by { assert LifeOk(k); hide PermitOk, Possible, After; }
    hide Inv, Possible, After, Next, Finished, Probed;
    FinishedOnTrace(trace);
  }

  /** What was finished when it was answered is final. */
  lemma FinishedOnTrace(trace: Trace)
    requires IsTrace(trace) && Finished(After(INITIAL, trace.answered).calls[trace.c])
    ensures var s := After(INITIAL, trace.answered);
            var t := After(s, trace.waited);
            After(Probed(t, trace), trace.later).calls[trace.c].executions == s.calls[trace.c].executions
  {
    var s := After(INITIAL, trace.answered);
    var t := After(s, trace.waited);
    var c := trace.c;
    TraceKeeps(trace);
    hide Inv, Possible, After;
    FinishedForEver(s, trace.waited, c);
    assert Finished(Probed(t, trace).calls[c]) && Probed(t, trace).calls[c].executions == s.calls[c].executions;
    hide Next, Finished, Probed;
    FinishedForEver(Probed(t, trace), trace.later, c);
  }

  /** An operation's own failure means that the call was answered: after its execution, or without one, because
      its set-up had failed. */
  lemma OwnFailureMeansAnswered(fate: Client.Fate, trace: Trace, told: Told)
    requires Served(fate, trace, told) && fate.Sent? && fate.reply == Client.Failed(Client.Operation)
    ensures IsTrace(trace) && trace.c < |After(INITIAL, trace.answered).calls|
    ensures var k := After(INITIAL, trace.answered).calls[trace.c];
            if fate.ran then k.phase == Answered(Handled) else k.phase == Answered(SetUpFailed)
  {
    assert told == OwnFailure by { hide IsTrace, Possible, After, Next; NoRefusalIsTheOperations(fate); }
    var k := After(INITIAL, trace.answered).calls[trace.c];
    TraceKeeps(trace);
    assert Finished(k);
    assert k.executions == (if k.phase == Answered(Handled) then 1 else 0) by {
      assert LifeOk(k);
      hide PermitOk, Possible, After;
    }
    hide Inv, Possible, After, Next, Finished, Probed;
    FinishedOnTrace(trace);
  }

  lemma NoRefusalIsTheOperations(fate: Client.Fate)
    requires fate.Sent? && fate.reply == Client.Failed(Client.Operation)
    ensures !RefusedWith(Client.Operation)
  {
    forall instanceId, sessions, connection, request
      ensures AdmitProjectCall(instanceId, sessions, connection, request).1 != Err(Client.Operation)
    {
      RefusalsAreDefinite(instanceId, sessions, connection, request);
    }
  }

  /** A request for such a method that returns a value had its call executed exactly once. */
  lemma ReturnMeansOnce(
    name: string, first: Client.Attempt, second: Client.Attempt,
    trace1: Trace, told1: Told, trace2: Trace, told2: Told)
    requires !Client.IsRetrySafe(name)
    requires Served(first.fate, trace1, told1) && Served(second.fate, trace2, told2)
    requires var made := Client.Made(name, first, second); Client.Verdict(name, made[|made| - 1]) == Client.Returned
    ensures Client.Executions(Client.Made(name, first, second)) == 1
  {
    DaemonIsHonest(first.fate, trace1, told1);
    DaemonIsHonest(second.fate, trace2, told2);
    Client.ExecutionsOfMade(name, first, second);
    if Client.Retries(name, first) {
      Client.OnlyUnrunCallsAreRetried(name, first);
      ValueMeansExecuted(second.fate, trace2, told2);
    } else {
      ValueMeansExecuted(first.fate, trace1, told1);
    }
    hide Served;
  }
}
