/**
 The plugin's project client: one `request`, with its single reconnect retry and its verdict on
 whether a mutation may have committed.

 An attempt's fate (what setup, the socket, the daemon and the cancel probe did) is an input, so the
 theorems quantify over every behaviour of the environment.
 */
module DaemonClient {

  import opened Wrappers

  datatype StatusCode =
    | OK | INVALID_ARGUMENT | FAILED_PRECONDITION | NOT_FOUND | RESOURCE_EXHAUSTED
    | DEADLINE_EXCEEDED | CANCELLED | UNAVAILABLE | INTERNAL | OUTCOME_UNKNOWN | UNSPECIFIED

  datatype CancelOutcome = CancelledBeforeStart | AlreadyStarted | Completed | NotFound | NoOutcome

  /** The error classes `request` distinguishes.  `instanceChanged` says that the message mentions a
      changed daemon instance. */
  datatype Failure =
    | Transport
    | Rpc(code: StatusCode, instanceChanged: bool)
    | Operation
    | Other

  datatype Reply = Success | Failed(failure: Failure)

  /** What happened to one attempt.  `ran` says whether the daemon executed the call, now or later;
      `cancel` is the answer to the cancel probe, None when it failed. */
  datatype Fate =
    | SetupFailed(failure: Failure)
    | NotSent(failure: Failure)
    | Sent(reply: Reply, ran: bool, cancel: Option<CancelOutcome>)

  /** A fate, and whether the caller's or the client's abort signal had fired by the retry decision. */
  datatype Attempt = Attempt(fate: Fate, aborted: bool)

  datatype Thrown = OutcomeUnknown | Plain(failure: Failure) | Refused | RetriesExhausted

  datatype Outcome = Returned | Threw(thrown: Thrown)

  const RETRY_SAFE_METHODS: set<string> := {
    "get", "list", "status", "doctor", "export", "model_profiles", "model_switch_status",
    "graph_extract_prepare", "graph_extract_enqueue", "graph_extract_claim", "graph_extract_renew",
    "graph_extract_job_status", "graph_extract_cancel", "graph_observation_action",
    "graph_run_status", "graph_search", "graph_status", "graph_export"
  }

  const OUTCOME_RECONCILABLE_METHODS: set<string> := {
    "model_switch_cancel", "graph_extract_enqueue", "graph_extract_claim", "graph_extract_renew",
    "graph_extract_cancel"
  }

  /** The methods of the protocol: of the memory, of models and of the graph. */
  const MEMORY_METHODS: set<string> := {
    "search", "store", "capture", "export", "import", "ingest", "index_documents", "get", "list", "update", "pin",
    "lock", "delete", "forget", "purge", "feedback", "sync_shared", "status", "optimize", "doctor", "shutdown"
  }

  const MODEL_METHODS: set<string> := {"model_profiles", "model_switch", "model_switch_status", "model_switch_cancel"}

  const GRAPH_METHODS: set<string> := {
    "graph_extract_prepare", "graph_upsert_candidates", "graph_run_status", "graph_extract_enqueue",
    "graph_extract_claim", "graph_extract_renew", "graph_extract_complete", "graph_extract_fail",
    "graph_extract_finish", "graph_extract_job_status", "graph_extract_cancel", "graph_observation_action",
    "graph_search", "graph_status", "graph_export"
  }

  predicate IsMethod(name: string)
  {
    name in MEMORY_METHODS || name in MODEL_METHODS || name in GRAPH_METHODS
  }

  /** The methods that write to the store and are not made for being sent twice.  A search is among them: it
      records what it recalled. */
  predicate IsMutation(name: string)
  {
    || name in {"search", "store", "capture", "import", "ingest", "index_documents", "update", "pin", "lock"}
    || name in {"delete", "forget", "purge", "feedback", "sync_shared", "optimize", "shutdown"}
    || name in {"model_switch", "model_switch_cancel"}
    || name in {"graph_upsert_candidates", "graph_extract_complete", "graph_extract_fail", "graph_extract_finish"}
  }

  predicate IsRetrySafe(name: string)
  {
    name in RETRY_SAFE_METHODS
  }

  /** Every method is either a mutation or safe to retry, and none is both. */
  lemma MutationsAreNotRetrySafe(name: string)
    ensures IsMethod(name) ==> (IsMutation(name) <==> !IsRetrySafe(name))
    ensures IsMutation(name) || IsRetrySafe(name) || name in OUTCOME_RECONCILABLE_METHODS ==> IsMethod(name)
  {
  }

  // ---------------------------------------------------------------- failure classifiers

  predicate IsAmbiguousFailure(f: Failure)
  {
    f.Transport?
    || (f.Rpc? && f.code in {CANCELLED, DEADLINE_EXCEEDED, INTERNAL, OUTCOME_UNKNOWN})
  }

  predicate IsDefinitePreAdmissionFailure(f: Failure)
  {
    f.Rpc? && f.code in {INVALID_ARGUMENT, FAILED_PRECONDITION, NOT_FOUND, RESOURCE_EXHAUSTED, UNAVAILABLE}
  }

  predicate IsReconnectRequiredFailure(f: Failure)
  {
    f.Rpc? && (f.code == NOT_FOUND || (f.code == FAILED_PRECONDITION && f.instanceChanged))
  }

  predicate IsRetryableSetupFailure(f: Failure)
  {
    f.Transport? || (f.Rpc? && f.code in {DEADLINE_EXCEEDED, NOT_FOUND, UNAVAILABLE})
  }

  predicate AsksToCancel(f: Failure)
  {
    f.Rpc? && f.code in {CANCELLED, DEADLINE_EXCEEDED}
  }

  // ---------------------------------------------------------------- meaning of an attempt

  predicate Dispatched(fate: Fate)
  {
    fate.Sent?
  }

  predicate Fails(fate: Fate)
  {
    fate.Sent? ==> fate.reply.Failed?
  }

  function FailureOf(fate: Fate): Failure
    requires Fails(fate)
  {
    match fate
    case SetupFailed(f) => f
    case NotSent(f) => f
    case Sent(reply, _, _) => reply.failure
  }

  predicate Ran(fate: Fate)
  {
    fate.Sent? && fate.ran
  }

  /** The client has proof that the call was never run: the daemon refused it before admission, or
      confirmed that it was cancelled before it started. */
  predicate ProvenUnrun(fate: Fate)
    requires Fails(fate)
  {
    var f := FailureOf(fate);
    if fate.Sent? && AsksToCancel(f) then fate.cancel == Some(CancelledBeforeStart)
    else IsDefinitePreAdmissionFailure(f)
  }

  /** The premise on the daemon: those proofs are not given for calls that run. */
  predicate Honest(fate: Fate)
  {
    fate.Sent? ==>
      && (fate.reply.Failed? && IsDefinitePreAdmissionFailure(fate.reply.failure) ==> !fate.ran)
      && (fate.cancel == Some(CancelledBeforeStart) ==> !fate.ran)
  }

  /** When the first attempt is followed by a second one. */
  predicate Retries(name: string, attempt: Attempt)
  {
    && Fails(attempt.fate)
    && !attempt.aborted
    && var f := FailureOf(attempt.fate);
       if f.Transport? then IsRetrySafe(name) || !Dispatched(attempt.fate)
       else IsReconnectRequiredFailure(f) || (!Dispatched(attempt.fate) && IsRetryableSetupFailure(f))
  }

  /** When a first attempt is repeated, by what happened to it.  Before it was sent: for a lost connection, and
      for the four refusals after which a new set-up can help.  After it was sent: for a lost connection exactly
      if the method is safe, and for a refusal exactly if the session is gone or the daemon is another.  Never
      once it was aborted, has a value, or failed by itself. */
  lemma WhenRetried(name: string, attempt: Attempt)
    ensures attempt.aborted || !Fails(attempt.fate) ==> !Retries(name, attempt)
    ensures !attempt.aborted && Fails(attempt.fate) ==>
              match FailureOf(attempt.fate)
              case Transport => Retries(name, attempt) <==> IsRetrySafe(name) || !attempt.fate.Sent?
              case Rpc(code, changed) =>
                Retries(name, attempt) <==>
                  || code == NOT_FOUND || (code == FAILED_PRECONDITION && changed)
                  || (!attempt.fate.Sent? && (code == DEADLINE_EXCEEDED || code == UNAVAILABLE))
              case Operation => !Retries(name, attempt)
              case Other => !Retries(name, attempt)
  {
  }

  /** A safe method whose connection is lost gets its second attempt, and that decides the outcome. */
  lemma SafeMethodsSurviveALoss(name: string, first: Attempt, second: Attempt)
    requires IsRetrySafe(name) && first.fate.Sent? && first.fate.reply == Failed(Transport) && !first.aborted
    ensures Made(name, first, second) == [first.fate, second.fate]
    ensures second.fate.Sent? && second.fate.reply == Success ==>
              Verdict(name, Made(name, first, second)[1]) == Returned
  {
  }

  /** What an attempt that is not retried ends in. */
  function Verdict(name: string, fate: Fate): Outcome
  {
    if !Fails(fate) then Returned
    else if Dispatched(fate) && !ProvenUnrun(fate)
            && (IsAmbiguousFailure(FailureOf(fate)) || !FailureOf(fate).Operation?)
            && (!IsRetrySafe(name) || name in OUTCOME_RECONCILABLE_METHODS)
    then Threw(OutcomeUnknown)
    else Threw(Plain(FailureOf(fate)))
  }

  /** An error by which the caller may know that nothing happened: it is neither an unknown outcome nor
      the operation's own failure. */
  predicate FailsPlainly(outcome: Outcome)
  {
    outcome.Threw? && !outcome.thrown.OutcomeUnknown? && outcome.thrown != Plain(Operation)
  }

  function Executions(fates: seq<Fate>): nat
  {
    if fates == [] then 0 else (if Ran(fates[0]) then 1 else 0) + Executions(fates[1..])
  }

  /** The fates of the attempts a request makes. */
  function Made(name: string, first: Attempt, second: Attempt): seq<Fate>
  {
    if Retries(name, first) then [first.fate, second.fate] else [first.fate]
  }

  class DaemonProjectClient {
    var disposed: bool
    var activeRequests: nat
    var waiters: nat  // disposals waiting for the last request to finish

    constructor ()
      ensures !disposed && activeRequests == 0 && waiters == 0
    {
      disposed, activeRequests, waiters := false, 0, 0;
    }

    /** `request`, from the checks before the loop to the bookkeeping after it. */
    method Request(name: string, aborted: bool, first: Attempt, second: Attempt)
      returns (outcome: Outcome, ghost made: seq<Fate>)
      modifies this
      ensures disposed == old(disposed) && activeRequests == old(activeRequests)
      ensures disposed || name == "shutdown" || aborted
              ==> outcome == Threw(Refused) && made == [] && waiters == old(waiters)
      ensures !disposed && name != "shutdown" && !aborted ==>
        && made == Made(name, first, second)
        && outcome == Verdict(name, made[|made| - 1])
        && waiters == if activeRequests == 0 then 0 else old(waiters)
    {
      made := [];
      if disposed || name == "shutdown" || aborted {
        return Threw(Refused), made;
      }
      activeRequests := activeRequests + 1;
      outcome := Threw(RetriesExhausted);
      var isRetrySafe := name in RETRY_SAFE_METHODS;
      var attempt := 0;
      while attempt < 2
        invariant 0 <= attempt <= 2
        invariant made == if attempt == 0 then [] else if attempt == 1 then [first.fate] else [first.fate, second.fate]
        invariant attempt >= 1 ==> Retries(name, first)
        invariant attempt < 2
        invariant activeRequests == old(activeRequests) + 1 && disposed == old(disposed) && waiters == old(waiters)
      {
        var now := if attempt == 0 then first else second;
        made := made + [now.fate];
        var dispatched := now.fate.Sent?;
        if dispatched && now.fate.reply.Success? {
          outcome := Returned;
          break;
        }
        var failure := FailureOf(now.fate);
        var retryableTransport := failure.Transport?;
        var rejectedBeforeAdmission := IsDefinitePreAdmissionFailure(failure);
        if dispatched && failure.Rpc? && failure.code in {CANCELLED, DEADLINE_EXCEEDED} {
          rejectedBeforeAdmission := now.fate.cancel == Some(CancelledBeforeStart);
        }
        var reconnectRequired := IsReconnectRequiredFailure(failure);
        if attempt == 0 && !now.aborted
           && (if retryableTransport then isRetrySafe || !dispatched
               else reconnectRequired || (!dispatched && IsRetryableSetupFailure(failure))) {
          attempt := attempt + 1;
          continue;
        }
        var ambiguousMutation := !rejectedBeforeAdmission && (IsAmbiguousFailure(failure) || !failure.Operation?);
        if dispatched && ambiguousMutation && (!isRetrySafe || name in OUTCOME_RECONCILABLE_METHODS) {
          outcome := Threw(OutcomeUnknown);
        } else {
          outcome := Threw(Plain(failure));
        }
        break;
      }
      activeRequests := activeRequests - 1;
      if activeRequests == 0 {
        waiters := 0;
      }
    }
  }

  // ---------------------------------------------------------------- no replay of mutations

  /** At most once: a method that is not safe to retry is executed at most once by a request. */
  lemma AtMostOnceMutation(name: string, first: Attempt, second: Attempt)
    requires !IsRetrySafe(name) && Honest(first.fate) && Honest(second.fate)
    ensures Executions(Made(name, first, second)) <= 1
  {
    ExecutionsOfMade(name, first, second);
    if Retries(name, first) {
      OnlyUnrunCallsAreRetried(name, first);
    }
  }

  /** A call that is sent again after it ran was safe to retry, and lost its connection. */
  lemma OnlyUnrunCallsAreRetried(name: string, first: Attempt)
    requires Retries(name, first) && Honest(first.fate)
    ensures Ran(first.fate) ==> IsRetrySafe(name) && first.fate.reply == Failed(Transport)
  {
  }

  lemma ExecutionsOfMade(name: string, first: Attempt, second: Attempt)
    ensures Executions(Made(name, first, second))
            == (if Ran(first.fate) then 1 else 0)
               + (if Retries(name, first) && Ran(second.fate) then 1 else 0)
  {
    ExecutionsOfOne(first.fate);
    ExecutionsOfOne(second.fate);
    assert [first.fate, second.fate][1..] == [second.fate];
  }

  lemma ExecutionsOfOne(fate: Fate)
    ensures Executions([fate]) == if Ran(fate) then 1 else 0
  {
    assert [fate][1..] == [];
  }

  /** For such a method, an error that is neither an unknown outcome nor the operation's own failure
      means that the daemon never executed the call. */
  lemma PlainErrorMeansUnexecuted(name: string, first: Attempt, second: Attempt)
    requires !IsRetrySafe(name) && Honest(first.fate) && Honest(second.fate)
    requires var made := Made(name, first, second); FailsPlainly(Verdict(name, made[|made| - 1]))
    ensures Executions(Made(name, first, second)) == 0
  {
    ExecutionsOfMade(name, first, second);
    PlainVerdictIsUnrun(name, if Retries(name, first) then second.fate else first.fate);
    if Retries(name, first) {
      OnlyUnrunCallsAreRetried(name, first);
    }
  }

  lemma PlainVerdictIsUnrun(name: string, fate: Fate)
    requires !IsRetrySafe(name) && Honest(fate)
    requires FailsPlainly(Verdict(name, fate))
    ensures !Ran(fate)
  {
    if fate.Sent? && AsksToCancel(fate.reply.failure) {
      assert fate.cancel == Some(CancelledBeforeStart);
    }
  }

  /** Exactly when the outcome of such a method is reported as unknown: the call was sent, it failed
      without the operation's own answer, and there is no proof that it never ran. */
  lemma UnknownIffNoProof(name: string, fate: Fate)
    requires !IsRetrySafe(name)
    ensures Verdict(name, fate) == Threw(OutcomeUnknown)
            <==> fate.Sent? && Fails(fate) && !FailureOf(fate).Operation? && !ProvenUnrun(fate)
  {
  }

  /** What the caller of any method is told of the last attempt: a value exactly if it got one; that the outcome
      is unknown exactly if the call was sent, did not fail by itself, is not proven unrun, and its method is a
      mutation or one whose outcome the caller can reconcile; and the failure itself in every other case. */
  lemma WhatIsTold(name: string, fate: Fate)
    requires IsMethod(name)
    ensures Verdict(name, fate) == Returned <==> fate.Sent? && fate.reply == Success
    ensures Verdict(name, fate) == Threw(OutcomeUnknown) <==>
            && fate.Sent? && fate.reply.Failed? && fate.reply.failure != Operation && !ProvenUnrun(fate)
            && (IsMutation(name) || name in OUTCOME_RECONCILABLE_METHODS)
    ensures Verdict(name, fate).Threw? && Verdict(name, fate) != Threw(OutcomeUnknown) ==>
            Fails(fate) && Verdict(name, fate) == Threw(Plain(FailureOf(fate)))
  {
    MutationsAreNotRetrySafe(name);
  }

  /** When a failed call is proven unrun: a deadline or a cancellation that was probed, only by the confirmed
      cancellation, whatever else; any other failure by its code. */
  lemma WhatProves(fate: Fate)
    requires fate.Sent? && fate.reply.Failed?
    ensures var f := fate.reply.failure;
            ProvenUnrun(fate) <==>
              if f.Rpc? && (f.code == CANCELLED || f.code == DEADLINE_EXCEEDED) then fate.cancel == Some(CancelledBeforeStart)
              else f.Rpc? && f.code != INTERNAL && f.code != OUTCOME_UNKNOWN && f.code != OK && f.code != UNSPECIFIED
  {
  }

  /** No request runs a call more than twice, and a second run needs a method that is safe to retry
      and a connection lost after dispatch. */
  lemma RetrySafeRunsTwiceOnlyAfterLoss(name: string, first: Attempt, second: Attempt)
    requires Honest(first.fate) && Honest(second.fate)
    ensures Executions(Made(name, first, second)) <= 2
    ensures Executions(Made(name, first, second)) == 2
            ==> IsRetrySafe(name) && first.fate.Sent? && first.fate.reply == Failed(Transport)
  {
    ExecutionsOfMade(name, first, second);
    if Retries(name, first) && Ran(first.fate) {
      OnlyUnrunCallsAreRetried(name, first);
    }
  }

  /** The premise is needed: a daemon that answers NOT_FOUND for a call it ran makes the client run a
      mutation twice. */
  lemma DishonestDaemonReplays(name: string)
    requires !IsRetrySafe(name)
    ensures var lie := Attempt(Sent(Failed(Rpc(NOT_FOUND, false)), true, None), false);
            var second := Attempt(Sent(Success, true, None), false);
            Executions(Made(name, lie, second)) == 2 && Honest(second.fate)
  {
    var lie := Attempt(Sent(Failed(Rpc(NOT_FOUND, false)), true, None), false);
    ExecutionsOfMade(name, lie, Attempt(Sent(Success, true, None), false));
  }
}
