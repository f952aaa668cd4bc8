/**
 The plugin's background job queue: one worker draining a bounded queue.

 JavaScript runs one callback at a time.  Each method below is one synchronous stretch of the
 source: an enqueue with whatever draining it starts, the continuation after a job's promise
 settles, the finally-callback of a drain, a disposal.  Interleavings are the orders in which they
 are called.  A job's `execute` is assumed not to call `enqueue` before its first await.
 */
module BackgroundJobs {

  import opened Sequences
  import opened Wrappers

  type JobId = string

  datatype Status = Queued | Running | Succeeded | Failed | OutcomeUnknown

  /** `completedAt` is meaningful for terminal jobs only. */
  datatype Job = Job(status: Status, createdAt: int, completedAt: int)

  datatype PendingJob = PendingJob(id: JobId, createdAt: int)

  /** The drain: not started; awaiting the job it executes; or returned, with its finally-callback
      still to run.  `activeTask` is set in the last two. */
  datatype Drain = Idle | Executing(id: JobId) | Returned

  datatype QueueError = Disposed | TooManyJobs | NoUniqueId

  predicate Terminal(job: Job)
  {
    job.status in {Succeeded, Failed, OutcomeUnknown}
  }

  function Ids(pending: seq<PendingJob>): (ids: seq<JobId>)
    ensures |ids| == |pending| && forall i :: 0 <= i < |ids| ==> ids[i] == pending[i].id
  {
    seq(|pending|, i requires 0 <= i < |pending| => pending[i].id)
  }

  function Active(drain: Drain): set<JobId>
  {
    if drain.Executing? then {drain.id} else {}
  }

  /** The jobs that are waiting or running. */
  function Unfinished(pending: seq<PendingJob>, drain: Drain): set<JobId>
  {
    (set p <- pending :: p.id) + Active(drain)
  }

  predicate Distinct(pending: seq<PendingJob>, drain: Drain)
  {
    && (forall i, j :: 0 <= i < j < |pending| ==> pending[i].id != pending[j].id)
    && (forall i :: 0 <= i < |pending| ==> pending[i].id !in Active(drain))
  }

  /** Until disposal: the non-terminal jobs are exactly the pending ones and the running one. */
  predicate Consistent(jobs: map<JobId, Job>, pending: seq<PendingJob>, drain: Drain)
  {
    && Distinct(pending, drain)
    && (forall id <- jobs :: !Terminal(jobs[id]) ==> id in Unfinished(pending, drain))
    && (forall p <- pending :: p.id in jobs && jobs[p.id].status == Queued)
    && (drain.Executing? ==> drain.id in jobs && jobs[drain.id].status == Running)
  }

  /** Until disposal the jobs that are not over are exactly the waiting ones and the running one, and no
      two jobs run at once. */
  lemma UnfinishedAreTheLiveOnes(jobs: map<JobId, Job>, pending: seq<PendingJob>, drain: Drain)
    requires Consistent(jobs, pending, drain)
    ensures (set id <- jobs | !Terminal(jobs[id])) == Unfinished(pending, drain)
    ensures forall a, b :: a in jobs && b in jobs && jobs[a].status == Running && jobs[b].status == Running ==> a == b
  {
  }

  predicate Expired(job: Job, cutoff: int)
  {
    Terminal(job) && job.completedAt <= cutoff
  }

  /** `prune`. */
  function Pruned(jobs: map<JobId, Job>, cutoff: int): map<JobId, Job>
  {
    map id | id in jobs && !Expired(jobs[id], cutoff) :: jobs[id]
  }

  predicate NoRepeats(ids: seq<JobId>)
  {
    forall i, j :: 0 <= i < j < |ids| ==> ids[i] != ids[j]
  }

  lemma AppendNew(ids: seq<JobId>, id: JobId)
    requires NoRepeats(ids) && id !in ids
    ensures NoRepeats(ids + [id])
  {
  }

  /** `order` is the insertion order of the map, which JavaScript keeps. */
  ghost predicate Lists(order: seq<JobId>, jobs: map<JobId, Job>)
  {
    && NoRepeats(order)
    && (forall id :: id in order <==> id in jobs)
  }

  /** The insertion order after some jobs were deleted. */
  function Remaining(order: seq<JobId>, jobs: map<JobId, Job>): seq<JobId>
  {
    if order == [] then []
    else
      var id := order[|order| - 1];
      Remaining(order[..|order| - 1], jobs) + if id in jobs then [id] else []
  }

  lemma {:induction false} RemainingMembers(order: seq<JobId>, jobs: map<JobId, Job>)
    requires NoRepeats(order)
    ensures forall id :: id in Remaining(order, jobs) <==> id in order && id in jobs
    ensures NoRepeats(Remaining(order, jobs))
    decreases |order|
  {
    if order != [] {
      var n := |order| - 1;
      RemainingMembers(order[..n], jobs);
      assert order == order[..n] + [order[n]];
      assert order[n] !in Remaining(order[..n], jobs);
      if order[n] in jobs {
        AppendNew(Remaining(order[..n], jobs), order[n]);
      }
    }
  }

  lemma RemainingLists(order: seq<JobId>, jobs: map<JobId, Job>, after: map<JobId, Job>)
    requires Lists(order, jobs) && after.Keys <= jobs.Keys
    ensures Lists(Remaining(order, after), after)
  {
    RemainingMembers(order, after);
  }

  lemma SameKeysLists(order: seq<JobId>, jobs: map<JobId, Job>, id: JobId, job: Job)
    requires Lists(order, jobs)
    ensures id in jobs ==> Lists(order, jobs[id := job])
    ensures id !in jobs ==> Lists(order + [id], jobs[id := job])
  {
  }

  lemma StartLists(order: seq<JobId>, jobs: map<JobId, Job>, pending: seq<PendingJob>)
    requires Lists(order, jobs) && forall p <- pending :: p.id in jobs
    ensures pending != [] ==> Lists(order, jobs[pending[0].id := Job(Running, pending[0].createdAt, 0)])
  {
  }

  /** The job that stands at n of the insertion order is terminal, no terminal job is older, and none
      of the same age was inserted earlier. */
  ghost predicate IsOldestTerminal(order: seq<JobId>, jobs: map<JobId, Job>, n: nat)
    requires Lists(order, jobs)
  {
    IsOldestUpTo(order, jobs, n, |order|)
  }

  ghost predicate IsOldestUpTo(order: seq<JobId>, jobs: map<JobId, Job>, n: nat, end: nat)
    requires Lists(order, jobs) && end <= |order|
  {
    && n < end && Terminal(jobs[order[n]])
    && (forall k :: 0 <= k < n && Terminal(jobs[order[k]]) ==> jobs[order[n]].createdAt < jobs[order[k]].createdAt)
    && (forall k :: n < k < end && Terminal(jobs[order[k]]) ==> jobs[order[n]].createdAt <= jobs[order[k]].createdAt)
  }

  /** The jobs that an enqueue forgets: first all that are expired and then, only if the queue is still full, the
      oldest that is over, if any is; and the insertion order of the others stays. */
  ghost predicate MadeRoom(jobs: map<JobId, Job>, order: seq<JobId>, after: map<JobId, Job>, afterOrder: seq<JobId>,
                           cutoff: int, capacity: nat)
  {
    var kept, keptOrder := Pruned(jobs, cutoff), Remaining(order, Pruned(jobs, cutoff));
    && Lists(keptOrder, kept)
    && if |kept| < capacity || forall id <- kept :: !Terminal(kept[id]) then after == kept && afterOrder == keptOrder
       else exists n: nat | IsOldestTerminal(keptOrder, kept, n) ::
              after == kept - {keptOrder[n]} && afterOrder == keptOrder[..n] + keptOrder[n + 1..]
  }

  /** How many jobs are waiting or running, as the caller can count them. */
  function Load(pending: seq<PendingJob>, drain: Drain): nat
  {
    |pending| + if drain.Executing? then 1 else 0
  }

  lemma {:induction false} PendingIdsCount(pending: seq<PendingJob>)
    requires forall i, j :: 0 <= i < j < |pending| ==> pending[i].id != pending[j].id
    ensures |set p <- pending :: p.id| == |pending|
    decreases |pending|
  {
    if pending != [] {
      var front, last := pending[..|pending| - 1], pending[|pending| - 1];
      PendingIdsCount(front);
      assert pending == front + [last];
      assert (set p <- pending :: p.id) == (set p <- front :: p.id) + {last.id};
    }
  }

  lemma UnfinishedCount(pending: seq<PendingJob>, drain: Drain)
    requires Distinct(pending, drain)
    ensures |Unfinished(pending, drain)| == Load(pending, drain)
  {
    PendingIdsCount(pending);
    assert (set p <- pending :: p.id) !! Active(drain);
  }

  lemma SubsetCount<T>(a: set<T>, b: set<T>)
    requires a <= b
    ensures |a| <= |b| && (|a| == |b| ==> a == b)
  {
    assert b == a + (b - a);
  }

  /** The queue is full of unfinished jobs exactly when the load reaches the capacity. */
  lemma FullIffLoaded(jobs: map<JobId, Job>, pending: seq<PendingJob>, drain: Drain, capacity: nat)
    requires Consistent(jobs, pending, drain) && |jobs| <= capacity
    ensures Load(pending, drain) <= capacity
    ensures Load(pending, drain) == capacity
            <==> |jobs| == capacity && forall id <- jobs :: !Terminal(jobs[id])
  {
    UnfinishedCount(pending, drain);
    var unfinished := Unfinished(pending, drain);
    assert unfinished <= jobs.Keys;
    SubsetCount(unfinished, jobs.Keys);
    if |jobs| == capacity && forall id <- jobs :: !Terminal(jobs[id]) {
      assert unfinished == jobs.Keys;
    }
  }

  /** The pending entries from the first one whose job still exists. */
  function Live(jobs: map<JobId, Job>, pending: seq<PendingJob>): seq<PendingJob>
  {
    if pending == [] || pending[0].id in jobs then pending else Live(jobs, pending[1..])
  }

  class BackgroundJobQueue {
    const capacity: nat
    const terminalRetentionMs: nat
    var jobs: map<JobId, Job>
    var order: seq<JobId>
    var pending: seq<PendingJob>
    var drain: Drain
    var disposed: bool
    ghost var enqueued: seq<JobId>
    ghost var started: seq<JobId>

    /** The last line says that no wakeup is lost: pending work always has a drain that is executing,
        or one whose finally-callback will look at the queue again. */
    ghost predicate Valid()
      reads this
    {
      && |jobs| <= capacity
      && Lists(order, jobs)
      && (disposed ==> pending == [])
      && (!disposed ==> Consistent(jobs, pending, drain) && enqueued == started + Ids(pending))
      && (pending != [] ==> drain != Idle)
    }

    constructor (capacity: nat, terminalRetentionMs: nat)
      requires capacity >= 1
      ensures Valid() && !disposed && jobs == map[] && pending == [] && drain == Idle
      ensures enqueued == [] && started == []
      ensures this.capacity == capacity && this.terminalRetentionMs == terminalRetentionMs
    {
      this.capacity, this.terminalRetentionMs := capacity, terminalRetentionMs;
      jobs, order, pending, drain, disposed := map[], [], [], Idle, false;
      enqueued, started := [], [];
    }

    method Prune(now: int)
      requires Valid()
      modifies this`jobs, this`order
      ensures Valid() && jobs == Pruned(old(jobs), now - terminalRetentionMs) && order == Remaining(old(order), jobs)
      // A job is forgotten exactly if it is over and was completed at least the retention ago.
      ensures forall id <- old(jobs) :: id in jobs <==>
        var job := old(jobs)[id];
        !(job.status in {Succeeded, Failed, OutcomeUnknown} && now - job.completedAt >= terminalRetentionMs)
      ensures forall id <- jobs :: id in old(jobs) && jobs[id] == old(jobs)[id]
    {
      hide Lists, Remaining, Consistent;
      PruneKeeps(jobs, pending, drain, now - terminalRetentionMs);
      RemainingLists(order, jobs, Pruned(jobs, now - terminalRetentionMs));
      jobs := Pruned(jobs, now - terminalRetentionMs);
      order := Remaining(order, jobs);
    }

    /** `evictTerminalIfNeeded`. */
    method EvictTerminalIfNeeded()
      requires Valid()
      modifies this`jobs, this`order
      ensures Valid()
      ensures |old(jobs)| < capacity || (forall id <- old(jobs) :: !Terminal(old(jobs)[id])) ==>
        jobs == old(jobs) && order == old(order)
      ensures |jobs| < capacity <==> |old(jobs)| < capacity || exists id <- old(jobs) :: Terminal(old(jobs)[id])
      ensures |old(jobs)| >= capacity && (exists id <- old(jobs) :: Terminal(old(jobs)[id])) ==>
        exists n: nat | IsOldestTerminal(old(order), old(jobs), n) ::
          jobs == old(jobs) - {old(order)[n]} && order == old(order)[..n] + old(order)[n + 1..]
    {
      hide Consistent, Terminal, Lists;
      if |jobs| < capacity {
        return;
      }
      var oldest := OldestTerminal();
      if oldest.Some? {
        Evict(oldest.value);
      }
    }

    /** The loop over the map in its insertion order. */
    method OldestTerminal() returns (oldest: Option<nat>)
      requires Lists(order, jobs)
      ensures oldest.None? ==> forall id <- jobs :: !Terminal(jobs[id])
      ensures oldest.Some? ==> IsOldestTerminal(order, jobs, oldest.value) && Terminal(jobs[order[oldest.value]])
    {
      hide Terminal;
      oldest := None;
      for n := 0 to |order|
        invariant oldest.None? ==> forall k :: 0 <= k < n ==> !Terminal(jobs[order[k]])
        invariant oldest.Some? ==> IsOldestUpTo(order, jobs, oldest.value, n)
      {
        var job := jobs[order[n]];
        if Terminal(job) && (oldest.None? || job.createdAt < jobs[order[oldest.value]].createdAt) {
          oldest := Some(n);
        }
      }
    }

    method Evict(n: nat)
      requires Valid() && n < |order| && Terminal(jobs[order[n]])
      modifies this`jobs, this`order
      ensures Valid()
      ensures jobs == old(jobs) - {old(order)[n]} && order == old(order)[..n] + old(order)[n + 1..]
      ensures |jobs| == |old(jobs)| - 1
    {
      hide Consistent, Terminal, Ids, Lists;
      var id, rest := order[n], order[..n] + order[n + 1..];
      EvictKeeps(order, jobs, pending, drain, n, rest, jobs - {id});
      jobs := jobs - {id};
      order := rest;
    }

    /** The loop of `drain`, up to its next await or its return. */
    method DrainOn()
      requires disposed ==> pending == []
      modifies this`jobs, this`pending, this`drain, this`started
      ensures var live := Live(old(jobs), old(pending));
        if live == [] then
          drain == Returned && pending == [] && jobs == old(jobs) && started == old(started)
        else
          && drain == Executing(live[0].id) && pending == live[1..] && started == old(started) + [live[0].id]
          && jobs == old(jobs)[live[0].id := Job(Running, live[0].createdAt, 0)]
    {
      while !disposed
        invariant jobs == old(jobs) && drain == old(drain) && started == old(started)
        invariant Live(jobs, pending) == Live(old(jobs), old(pending))
        invariant disposed ==> pending == []
        decreases |pending|
      {
        if pending == [] {
          break;
        }
        var p := pending[0];
        pending := pending[1..];
        if p.id !in jobs {
          continue;
        }
        jobs := jobs[p.id := Job(Running, p.createdAt, 0)];
        drain := Executing(p.id);
        started := started + [p.id];
        return;
      }
      drain := Returned;
    }

    method StartDrain()
      requires |jobs| <= capacity && !disposed && Lists(order, jobs)
      requires Consistent(jobs, pending, drain) && enqueued == started + Ids(pending)
      modifies this`jobs, this`pending, this`drain, this`started
      ensures Valid()
      ensures old(drain) != Idle ==>
        jobs == old(jobs) && pending == old(pending) && drain == old(drain) && started == old(started)
      ensures old(drain) == Idle && old(pending) != [] ==>
        var p := old(pending)[0];
        && pending == old(pending)[1..] && drain == Executing(p.id) && started == old(started) + [p.id]
        && jobs == old(jobs)[p.id := Job(Running, p.createdAt, 0)]
      ensures old(drain) == Idle && old(pending) == [] ==>
        pending == [] && drain == Returned && started == old(started) && jobs == old(jobs)
    {
      if drain != Idle {
        return;
      }
      hide Lists;
      DrainStarts(jobs, pending, drain, capacity, started);
      StartLists(order, jobs, pending);
      DrainOn();
    }

    /** The first of the ten candidate ids that is free. */
    method NextId(candidates: seq<JobId>) returns (r: Option<JobId>)
      ensures r.None? <==> forall i :: 0 <= i < |candidates| && i < 10 ==> candidates[i] in jobs
      ensures r.Some? ==> r.value in candidates && r.value !in jobs
      ensures r.Some? ==> exists n | 0 <= n < |candidates| :: candidates[n] == r.value && forall i :: 0 <= i < n ==> candidates[i] in jobs
    {
      for attempt := 0 to if |candidates| < 10 then |candidates| else 10
        invariant forall i :: 0 <= i < attempt ==> candidates[i] in jobs
      {
        if candidates[attempt] !in jobs {
          return Some(candidates[attempt]);
        }
      }
      return None;
    }

    /** The first two steps of `enqueue`: afterwards there is no room exactly when the waiting and
        running jobs fill the queue. */
    method MakeRoom(now: int)
      requires Valid() && !disposed
      modifies this`jobs, this`order
      ensures Valid()
      ensures |jobs| >= capacity <==> Load(pending, drain) == capacity
      ensures forall id <- jobs :: id in old(jobs)
      ensures forall id <- old(jobs) :: !Terminal(old(jobs)[id]) ==> id in jobs && jobs[id] == old(jobs)[id]
      ensures MadeRoom(old(jobs), old(order), jobs, order, now - terminalRetentionMs, capacity)
    {
      hide Lists, Remaining;
      Prune(now);
      FullIffLoaded(jobs, pending, drain, capacity);
      EvictTerminalIfNeeded();
      FullIffLoaded(jobs, pending, drain, capacity);
    }

    /** `enqueue`.  It fails for capacity exactly when the waiting and running jobs fill the queue. */
    method Enqueue(now: int, createdAt: int, candidates: seq<JobId>) returns (r: Result<JobId, QueueError>)
      requires Valid() && |candidates| == 10
      modifies this
      ensures Valid() && disposed == old(disposed)
      ensures r == Err(Disposed) <==> old(disposed)
      ensures r == Err(TooManyJobs) <==> !old(disposed) && Load(old(pending), old(drain)) == capacity
      ensures r.Err? ==> pending == old(pending) && drain == old(drain) && started == old(started) && enqueued == old(enqueued)
      ensures r == Err(NoUniqueId) ==> forall id <- candidates :: id in old(jobs)
      ensures r == Err(Disposed) ==> jobs == old(jobs) && order == old(order)
      // What is forgotten, and that the new job comes last.
      ensures !old(disposed) && r.Err? ==> MadeRoom(old(jobs), old(order), jobs, order, now - terminalRetentionMs, capacity)
      ensures r.Ok? ==>
        && order != [] && order[|order| - 1] == r.value
        && MadeRoom(old(jobs), old(order), jobs - {r.value}, order[..|order| - 1], now - terminalRetentionMs, capacity)
      ensures r.Ok? ==> r.value in candidates && enqueued == old(enqueued) + [r.value]
      // The job starts at once if no drain is active, and waits behind the others if one is.
      ensures r.Ok? && old(drain) == Idle ==>
        && pending == [] && drain == Executing(r.value)
        && r.value in jobs && jobs[r.value] == Job(Running, createdAt, 0)
      ensures r.Ok? && old(drain) != Idle ==>
        && pending == old(pending) + [PendingJob(r.value, createdAt)] && drain == old(drain)
        && r.value in jobs && jobs[r.value] == Job(Queued, createdAt, 0)
      // No unfinished job is lost on the way.
      ensures forall id <- old(jobs) :: !old(disposed) && !Terminal(old(jobs)[id]) ==> id in jobs && jobs[id] == old(jobs)[id]
    {
      hide Consistent, Terminal, MadeRoom;
      if disposed {
        return Err(Disposed);
      }
      MakeRoom(now);
      if |jobs| >= capacity {
        return Err(TooManyJobs);
      }
      var id := NextId(candidates);
      if id.None? {
        return Err(NoUniqueId);
      }
      Append(id.value, createdAt);
      return Ok(id.value);
    }

    /** The last steps of `enqueue`. */
    method Append(id: JobId, createdAt: int)
      requires Valid() && !disposed && |jobs| < capacity && id !in jobs
      modifies this`jobs, this`order, this`pending, this`drain, this`started, this`enqueued
      ensures Valid() && enqueued == old(enqueued) + [id] && order == old(order) + [id] && jobs - {id} == old(jobs)
      ensures old(drain) == Idle ==> pending == [] && drain == Executing(id) && jobs == old(jobs)[id := Job(Running, createdAt, 0)]
      ensures old(drain) != Idle ==>
        && pending == old(pending) + [PendingJob(id, createdAt)] && drain == old(drain)
        && jobs == old(jobs)[id := Job(Queued, createdAt, 0)]
    {
      hide Consistent, Lists;
      SameKeysLists(order, jobs, id, Job(Queued, createdAt, 0));
      AppendKeeps(jobs, pending, drain, id, createdAt);
      assert Ids(pending + [PendingJob(id, createdAt)]) == Ids(pending) + [id];
      jobs := jobs[id := Job(Queued, createdAt, 0)];
      order := order + [id];
      pending := pending + [PendingJob(id, createdAt)];
      enqueued := enqueued + [id];
      StartDrain();
    }

    /** The promise of the executing job settles: its result is recorded unless the queue is disposed,
        and the drain goes on with the next job. */
    method Settle(status: Status, now: int)
      requires Valid() && drain.Executing? && status in {Succeeded, Failed, OutcomeUnknown}
      modifies this`jobs, this`pending, this`drain, this`started
      ensures Valid()
      ensures old(disposed) ==> jobs == old(jobs) && drain == Returned
      ensures !old(disposed) ==>
        && old(drain.id) in jobs && jobs[old(drain.id)] == Job(status, old(jobs[drain.id].createdAt), now)
        && if old(pending) == [] then drain == Returned && pending == [] && started == old(started)
           else pending == old(pending)[1..] && drain == Executing(old(pending)[0].id)
                && started == old(started) + [old(pending)[0].id]
    {
      hide Lists;
      if !disposed {
        var done := Job(status, jobs[drain.id].createdAt, now);
        SameKeysLists(order, jobs, drain.id, done);
        FinishKeeps(jobs, pending, drain, done);
        hide Consistent;
        jobs := jobs[drain.id := done];
      }
      drain := Idle;
      if !disposed {
        DrainStarts(jobs, pending, drain, capacity, started);
        StartLists(order, jobs, pending);
      }
      DrainOn();
    }

    /** The finally-callback of a drain: it restarts the drain for jobs that arrived meanwhile. */
    method FinishDrain()
      requires Valid() && drain == Returned
      modifies this`jobs, this`pending, this`drain, this`started
      ensures Valid()
      ensures old(pending) == [] ==> drain == Idle && pending == [] && jobs == old(jobs) && started == old(started)
      ensures old(pending) != [] ==>
        drain == Executing(old(pending)[0].id) && pending == old(pending)[1..] && started == old(started) + [old(pending)[0].id]
    {
      drain := Idle;
      if !disposed && |pending| > 0 {
        StartDrain();
      }
    }

    /** `dispose` up to its await: nothing that is waiting will start. */
    method Dispose()
      requires Valid()
      modifies this`pending, this`disposed
      ensures Valid() && disposed && pending == []
    {
      if disposed {
        return;
      }
      disposed := true;
      pending := [];
    }

    /** `dispose` after the active task has ended. */
    method FinishDispose()
      requires Valid() && disposed && drain == Idle
      modifies this`jobs, this`order
      ensures Valid() && jobs == map[] && order == []
    {
      jobs, order := map[], [];
    }
  }

  lemma PruneKeeps(jobs: map<JobId, Job>, pending: seq<PendingJob>, drain: Drain, cutoff: int)
    ensures |Pruned(jobs, cutoff)| <= |jobs| && Pruned(jobs, cutoff).Keys <= jobs.Keys
    ensures Consistent(jobs, pending, drain) ==> Consistent(Pruned(jobs, cutoff), pending, drain)
  {
    SubsetCount(Pruned(jobs, cutoff).Keys, jobs.Keys);
    assert |jobs| == |jobs.Keys| && |Pruned(jobs, cutoff)| == |Pruned(jobs, cutoff).Keys|;
  }

  lemma EvictKeeps(order: seq<JobId>, jobs: map<JobId, Job>, pending: seq<PendingJob>, drain: Drain, n: nat,
                   rest: seq<JobId>, after: map<JobId, Job>)
    requires Lists(order, jobs) && n < |order| && Terminal(jobs[order[n]])
    requires rest == order[..n] + order[n + 1..] && after == jobs - {order[n]}
    ensures |after| == |jobs| - 1 && Lists(rest, after)
    ensures Consistent(jobs, pending, drain) ==> Consistent(after, pending, drain)
  {
    hide Lists, Consistent, Terminal;
    DeleteKeeps(order, jobs, n);
    assert order[n] in jobs by { InOrder(order, jobs, n); }
    OneLess(jobs, order[n]);
    EndedKeeps(jobs, pending, drain, order[n]);
  }

  lemma InOrder(order: seq<JobId>, jobs: map<JobId, Job>, n: nat)
    requires Lists(order, jobs) && n < |order|
    ensures order[n] in jobs
  {
  }

  lemma OneLess(jobs: map<JobId, Job>, id: JobId)
    requires id in jobs
    ensures |jobs - {id}| == |jobs| - 1
  {
    assert jobs.Keys == (jobs - {id}).Keys + {id};
    assert |jobs| == |jobs.Keys| && |jobs - {id}| == |(jobs - {id}).Keys|;
  }

  lemma EndedKeeps(jobs: map<JobId, Job>, pending: seq<PendingJob>, drain: Drain, id: JobId)
    requires id in jobs && Terminal(jobs[id])
    ensures Consistent(jobs, pending, drain) ==> Consistent(jobs - {id}, pending, drain)
  {
    hide Distinct, Unfinished;
  }

  lemma DeleteKeeps(order: seq<JobId>, jobs: map<JobId, Job>, n: nat)
    requires Lists(order, jobs) && n < |order|
    ensures Lists(order[..n] + order[n + 1..], jobs - {order[n]})
  {
    var rest := order[..n] + order[n + 1..];
    assert forall k :: 0 <= k < |rest| ==> rest[k] == order[if k < n then k else k + 1];
    forall id ensures id in rest <==> id in order && id != order[n]
    {
      assert order == order[..n] + [order[n]] + order[n + 1..];
    }
  }

  lemma StartKeeps(jobs: map<JobId, Job>, pending: seq<PendingJob>, drain: Drain)
    requires Consistent(jobs, pending, drain) && !drain.Executing? && pending != []
    ensures var p := pending[0];
            && p.id in jobs
            && Consistent(jobs[p.id := Job(Running, p.createdAt, 0)], pending[1..], Executing(p.id))
  {
    var p, rest := pending[0], pending[1..];
    assert p in pending;
    assert forall q :: q in pending <==> q == p || q in rest;
    assert forall q <- rest :: q.id != p.id by {
      forall q | q in rest ensures q.id != p.id
      {
        var i :| 0 <= i < |rest| && rest[i] == q;
        assert pending[i + 1] == q;
      }
    }
    assert Unfinished(pending, drain) == Unfinished(rest, Executing(p.id));
  }

  /** Before disposal no pending job is gone, so a drain starts the first one. */
  lemma DrainStarts(jobs: map<JobId, Job>, pending: seq<PendingJob>, drain: Drain, capacity: nat, started: seq<JobId>)
    requires Consistent(jobs, pending, drain) && !drain.Executing? && |jobs| <= capacity
    ensures Live(jobs, pending) == pending
    ensures pending == [] ==> Consistent(jobs, pending, Returned)
    ensures pending != [] ==>
      var p := pending[0];
      var after := jobs[p.id := Job(Running, p.createdAt, 0)];
      && Consistent(after, pending[1..], Executing(p.id)) && |after| <= capacity
      && started + Ids(pending) == started + [p.id] + Ids(pending[1..])
  {
    if pending == [] {
      NothingStarts(jobs, pending, drain);
      hide Consistent;
    } else {
      var p := pending[0];
      StartKeeps(jobs, pending, drain);
      hide Consistent, Terminal;
      SameSize(jobs, p.id, Job(Running, p.createdAt, 0));
      IdsFromHead(pending);
      ConcatAssociates(started, [p.id], Ids(pending[1..]));
    }
  }

  lemma IdsFromHead(pending: seq<PendingJob>)
    requires pending != []
    ensures Ids(pending) == [pending[0].id] + Ids(pending[1..])
  {
  }

  lemma SameSize(jobs: map<JobId, Job>, id: JobId, job: Job)
    requires id in jobs
    ensures |jobs[id := job]| == |jobs|
  {
    assert jobs[id := job].Keys == jobs.Keys;
    assert |jobs| == |jobs.Keys| && |jobs[id := job]| == |jobs[id := job].Keys|;
  }

  lemma NothingStarts(jobs: map<JobId, Job>, pending: seq<PendingJob>, drain: Drain)
    requires Consistent(jobs, pending, drain) && !drain.Executing? && pending == []
    ensures Consistent(jobs, pending, Returned)
  {
  }

  lemma AppendKeeps(jobs: map<JobId, Job>, pending: seq<PendingJob>, drain: Drain, id: JobId, createdAt: int)
    requires Consistent(jobs, pending, drain) && id !in jobs
    ensures Consistent(jobs[id := Job(Queued, createdAt, 0)], pending + [PendingJob(id, createdAt)], drain)
  {
    var p := PendingJob(id, createdAt);
    assert forall q :: q in pending + [p] <==> q == p || q in pending;
    forall i | 0 <= i < |pending| ensures pending[i].id != id
    {
      assert pending[i] in pending;
    }
    assert Unfinished(pending + [p], drain) == Unfinished(pending, drain) + {id};
  }

  lemma FinishKeeps(jobs: map<JobId, Job>, pending: seq<PendingJob>, drain: Drain, done: Job)
    requires Consistent(jobs, pending, drain) && drain.Executing? && Terminal(done)
    ensures Consistent(jobs[drain.id := done], pending, Idle)
    ensures |jobs[drain.id := done]| == |jobs|
  {
    SameSize(jobs, drain.id, done);
    assert forall p <- pending :: p.id != drain.id by {
      forall p | p in pending ensures p.id != drain.id
      {
        var i :| 0 <= i < |pending| && pending[i] == p;
      }
    }
  }
}
