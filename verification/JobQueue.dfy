/** The durable job queue with expiring leases: one row per job, one status per generation, and
    every repository method one transaction at a given time. */
module JobQueue {
  import opened Vocabulary

  type JobId = nat
  type GenerationId = nat
  type Time = int

  datatype JobStatus = Queued | Running | RetryScheduled | Completed | Failed | Dead

  datatype GenerationStatus = GQueued | GRunning | GCompleted | GFailed | GOther

  datatype Job = Job(
    generation: GenerationId,
    status: JobStatus,
    attempts: nat,
    maxAttempts: nat,
    timeout: nat,
    availableAt: Time,
    createdAt: Time,
    leasedUntil: Option<Time>,
    worker: Option<string>,
    lastError: Option<string>,
    completedAt: Option<Time>)

  datatype Queue = Queue(jobs: map<JobId, Job>, generations: map<GenerationId, GenerationStatus>)

  predicate Terminal(s: JobStatus) {
    s in {Completed, Failed, Dead}
  }

  /** Worker ids and error codes are stored in 200-character columns. */
  function Clip(s: string): (r: string)
    ensures r <= s && |r| <= 200
    ensures |s| <= 200 ==> r == s
    ensures |s| > 200 ==> |r| == 200
  {
    if |s| <= 200 then s else s[..200]
  }

  // ----- Transactions, as functions of the stored rows ----------------------------------

  /** A running job whose lease is over and whose attempts are used up. */
  predicate Exhausted(job: Job, now: Time) {
    job.status == Running && job.leasedUntil.Some? && job.leasedUntil.value <= now && job.attempts >= job.maxAttempts
  }

  function Buried(job: Job): Job {
    job.(status := Dead, worker := None, leasedUntil := None,
         lastError := if job.lastError.Some? && job.lastError.value != "" then job.lastError else Some("lease_expired"))
  }

  function SetGeneration(q: Queue, g: GenerationId, s: GenerationStatus): Queue {
    if g in q.generations then q.(generations := q.generations[g := s]) else q
  }

  function ExhaustedJobs(q: Queue, now: Time): set<JobId> {
    set id | id in q.jobs && Exhausted(q.jobs[id], now)
  }

  /** The given jobs dead, and their generations failed. */
  ghost function WithBuried(q: Queue, gone: set<JobId>): Queue {
    Queue(
      map id | id in q.jobs :: if id in gone then Buried(q.jobs[id]) else q.jobs[id],
      map g | g in q.generations ::
        if exists id :: id in gone && id in q.jobs && q.jobs[id].generation == g then GFailed else q.generations[g])
  }

  /** _dead_letter_exhausted_leases. */
  ghost function DeadLettered(q: Queue, now: Time): Queue {
    WithBuried(q, ExhaustedJobs(q, now))
  }

  lemma BuryNone(q: Queue)
    ensures WithBuried(q, {}) == q
  {
    assert WithBuried(q, {}).jobs == q.jobs && WithBuried(q, {}).generations == q.generations;
  }

  lemma BuryOneMore(q: Queue, gone: set<JobId>, id: JobId)
    requires id in q.jobs && id !in gone
    ensures id in WithBuried(q, gone).jobs && WithBuried(q, gone).jobs[id] == q.jobs[id]
    ensures
      var q1 := WithBuried(q, gone);
      WithBuried(q, gone + {id}) ==
          SetGeneration(q1.(jobs := q1.jobs[id := Buried(q1.jobs[id])]), q.jobs[id].generation, GFailed)
  {
    var q1, q2 := WithBuried(q, gone), WithBuried(q, gone + {id});
    var q3 := SetGeneration(q1.(jobs := q1.jobs[id := Buried(q1.jobs[id])]), q.jobs[id].generation, GFailed);
    assert q2.jobs == q3.jobs;
    assert q2.generations.Keys == q3.generations.Keys;
    forall g | g in q2.generations ensures q2.generations[g] == q3.generations[g] {
      if g == q.jobs[id].generation {
        assert id in gone + {id};
      }
    }
  }

  predicate Claimable(job: Job, now: Time) {
    && (|| (job.status in {Queued, RetryScheduled} && job.availableAt <= now)
        || (job.status == Running && job.leasedUntil.Some? && job.leasedUntil.value <= now))
    && job.attempts < job.maxAttempts
  }

  function Claimed(job: Job, worker: string, lease: nat, now: Time): Job {
    job.(status := Running, attempts := job.attempts + 1, worker := Some(Clip(worker)),
        leasedUntil := Some(now + lease))
  }

  /** _mark_claimed. */
  function MarkClaimed(q: Queue, id: JobId, worker: string, lease: nat, now: Time): Queue
    requires id in q.jobs
  {
    SetGeneration(q.(jobs := q.jobs[id := Claimed(q.jobs[id], worker, lease, now)]), q.jobs[id].generation, GRunning)
  }

  /** claim_job: dead-letters, then claims the job if it is claimable. */
  ghost function AfterClaim(q: Queue, id: JobId, worker: string, lease: nat, now: Time): Queue {
    var q1 := DeadLettered(q, now);
    if id in q1.jobs && Claimable(q1.jobs[id], now) then MarkClaimed(q1, id, worker, lease, now) else q1
  }

  /** _owned_running_job. */
  predicate OwnedRunning(q: Queue, id: JobId, worker: string) {
    id in q.jobs && q.jobs[id].status == Running && q.jobs[id].worker == Some(Clip(worker))
  }

  function AfterComplete(q: Queue, id: JobId, worker: string, now: Time): Queue {
    if !OwnedRunning(q, id, worker) then q
    else
      var job := q.jobs[id].(status := Completed, leasedUntil := None, worker := None, completedAt := Some(now));
      SetGeneration(q.(jobs := q.jobs[id := job]), job.generation, GCompleted)
  }

  function AfterFail(q: Queue, id: JobId, worker: string, error: string, retryable: bool, delay: nat,
                     now: Time): Queue {
    if !OwnedRunning(q, id, worker) then q
    else
      var job := q.jobs[id].(lastError := Some(Clip(error)), leasedUntil := None, worker := None);
      if retryable && job.attempts < job.maxAttempts then
        SetGeneration(q.(jobs := q.jobs[id := job.(status := RetryScheduled, availableAt := now + delay)]),
            job.generation, GQueued)
      else
        SetGeneration(q.(jobs := q.jobs[id := job.(status := if retryable then Dead else Failed)]), job.generation,
            GFailed)
  }

  // ----- The invariant ------------------------------------------------------------------

  function Mirror(s: JobStatus): GenerationStatus {
    match s
    case Queued => GQueued
    case RetryScheduled => GQueued
    case Running => GRunning
    case Completed => GCompleted
    case _ => GFailed
  }

  predicate JobInv(job: Job) {
    && 0 < job.maxAttempts
    && job.attempts <= job.maxAttempts
    && (job.status == Running <==> job.worker.Some?)
    && (job.status == Running <==> job.leasedUntil.Some?)
    && (job.status in {Queued, RetryScheduled} ==> job.attempts < job.maxAttempts)
    && (job.status == Running ==> job.attempts > 0)
  }

  /** Attempts are bounded, a job runs exactly while it has a worker and a lease, waiting jobs can
      still be tried, and a generation's status mirrors its job's. */
  ghost predicate QueueInv(q: Queue) {
    && (forall id :: id in q.jobs ==> JobInv(q.jobs[id]))
    && (forall id :: id in q.jobs ==>
          q.jobs[id].generation in q.generations && q.generations[q.jobs[id].generation] == Mirror(q.jobs[id].status))
    && (forall a, b :: a in q.jobs && b in q.jobs && q.jobs[a].generation == q.jobs[b].generation ==> a == b)
  }

  /** Replacing one job's row together with its generation's mirrored status. */
  lemma RowUpdateKeepsInv(q: Queue, id: JobId, job: Job)
    requires QueueInv(q) && id in q.jobs
    requires JobInv(job) && job.generation == q.jobs[id].generation
    ensures QueueInv(SetGeneration(q.(jobs := q.jobs[id := job]), job.generation, Mirror(job.status)))
  {
  }

  lemma DeadLetterKeepsInv(q: Queue, now: Time)
    requires QueueInv(q)
    ensures QueueInv(DeadLettered(q, now))
    ensures DeadLettered(q, now).jobs.Keys == q.jobs.Keys
  {
    var q1 := DeadLettered(q, now);
    forall id | id in q1.jobs
      ensures q1.jobs[id].generation in q1.generations
      ensures q1.generations[q1.jobs[id].generation] == Mirror(q1.jobs[id].status)
    {
      var g := q.jobs[id].generation;
      if exists other :: other in ExhaustedJobs(q, now) && other in q.jobs && q.jobs[other].generation == g {
        var other :| other in ExhaustedJobs(q, now) && other in q.jobs && q.jobs[other].generation == g;
        assert other == id;
      }
    }
  }

  /** Every repository transaction keeps the invariant. */
  lemma TransactionsKeepInv(q: Queue, id: JobId, worker: string, lease: nat, error: string, retryable: bool, delay: nat,
                            now: Time)
    requires QueueInv(q)
    ensures QueueInv(AfterClaim(q, id, worker, lease, now))
    ensures QueueInv(AfterComplete(q, id, worker, now))
    ensures QueueInv(AfterFail(q, id, worker, error, retryable, delay, now))
  {
    hide QueueInv, DeadLettered;
    ClaimKeepsInv(q, id, worker, lease, now);
    if OwnedRunning(q, id, worker) {
      SettlementKeepsInv(q, id, worker, error, retryable, delay, now);
    }
  }

  lemma ClaimKeepsInv(q: Queue, id: JobId, worker: string, lease: nat, now: Time)
    requires QueueInv(q)
    ensures QueueInv(AfterClaim(q, id, worker, lease, now))
  {
    hide QueueInv, DeadLettered;
    var q1 := DeadLettered(q, now);
    DeadLetterKeepsInv(q, now);
    if id in q1.jobs && Claimable(q1.jobs[id], now) {
      ClaimedJobInv(q1.jobs[id], worker, lease, now);
      RowUpdateKeepsInv(q1, id, Claimed(q1.jobs[id], worker, lease, now));
    }
  }

  lemma ClaimedJobInv(job: Job, worker: string, lease: nat, now: Time)
    requires Claimable(job, now)
    ensures JobInv(Claimed(job, worker, lease, now))
  {
  }

  lemma SettlementKeepsInv(q: Queue, id: JobId, worker: string, error: string, retryable: bool, delay: nat, now: Time)
    requires QueueInv(q) && OwnedRunning(q, id, worker)
    ensures QueueInv(AfterComplete(q, id, worker, now))
    ensures QueueInv(AfterFail(q, id, worker, error, retryable, delay, now))
  {
    assert JobInv(q.jobs[id]);
    RowUpdateKeepsInv(q, id, AfterComplete(q, id, worker, now).jobs[id]);
    RowUpdateKeepsInv(q, id, AfterFail(q, id, worker, error, retryable, delay, now).jobs[id]);
  }

  /** The part of the invariant that concerns job rows alone. */
  ghost predicate JobsInv(q: Queue) {
    forall id :: id in q.jobs ==> JobInv(q.jobs[id])
  }

  /** Job rows stay well-formed and only move on, whatever happens to generations. */
  lemma TransactionsKeepJobs(q: Queue, id: JobId, worker: string, lease: nat, error: string, retryable: bool,
                             delay: nat, now: Time)
    requires JobsInv(q)
    ensures JobsInv(DeadLettered(q, now)) && Progresses(q, DeadLettered(q, now))
    ensures JobsInv(AfterClaim(q, id, worker, lease, now))
    ensures JobsInv(AfterComplete(q, id, worker, now))
    ensures JobsInv(AfterFail(q, id, worker, error, retryable, delay, now))
  {
    hide Claimable, Clip, DeadLettered, JobInv, AfterComplete, AfterFail;
    var q1 := DeadLettered(q, now);
    BuryingKeepsJobs(q, now);
    if id in q1.jobs && Claimable(q1.jobs[id], now) {
      ClaimedJobInv(q1.jobs[id], worker, lease, now);
    }
    SettlingKeepsJobs(q, id, worker, error, retryable, delay, now);
  }

  lemma BuryingKeepsJobs(q: Queue, now: Time)
    requires JobsInv(q)
    ensures JobsInv(DeadLettered(q, now)) && Progresses(q, DeadLettered(q, now))
  {
    hide Claimable, Clip;
  }

  lemma SettlingKeepsJobs(q: Queue, id: JobId, worker: string, error: string, retryable: bool, delay: nat, now: Time)
    requires JobsInv(q)
    ensures JobsInv(AfterComplete(q, id, worker, now))
    ensures JobsInv(AfterFail(q, id, worker, error, retryable, delay, now))
  {
    hide Clip;
  }

  // ----- Safety -------------------------------------------------------------------------

  /** Terminal states are absorbing and attempts never fall, whatever transaction runs. */
  ghost predicate Progresses(q: Queue, q2: Queue) {
    && q.jobs.Keys <= q2.jobs.Keys
    && forall id :: id in q.jobs ==>
         && q2.jobs[id].maxAttempts == q.jobs[id].maxAttempts
         && q.jobs[id].attempts <= q2.jobs[id].attempts
         && (Terminal(q.jobs[id].status) ==> q2.jobs[id] == q.jobs[id])
  }

  lemma ClaimProgresses(q: Queue, id: JobId, worker: string, lease: nat, now: Time)
    ensures Progresses(q, AfterClaim(q, id, worker, lease, now))
  {
    var q1 := DeadLettered(q, now);
    assert forall j :: j in q.jobs ==> Terminal(q.jobs[j].status) ==> !Claimable(q1.jobs[j], now);
  }

  lemma SettlementProgresses(q: Queue, id: JobId, worker: string, error: string, retryable: bool, delay: nat, now: Time)
    ensures Progresses(q, AfterComplete(q, id, worker, now))
    ensures Progresses(q, AfterFail(q, id, worker, error, retryable, delay, now))
  {
    hide Clip;
    FailureProgresses(q, id, worker, error, retryable, delay, now);
  }

  lemma FailureProgresses(q: Queue, id: JobId, worker: string, error: string, retryable: bool, delay: nat, now: Time)
    ensures Progresses(q, AfterFail(q, id, worker, error, retryable, delay, now))
  {
    hide Clip;
  }

  /** No job came to be running for this worker, and those that still are have the same row. */
  ghost predicate RowsKept(q: Queue, q2: Queue, worker: string) {
    forall id :: OwnedRunning(q2, id, worker) ==> id in q.jobs && q.jobs[id] == q2.jobs[id]
  }

  lemma BuryingKeepsRows(q: Queue, now: Time, worker: string)
    ensures RowsKept(q, DeadLettered(q, now), worker)
  {
  }

  /** Only a worker's own claims make jobs run for it. */
  lemma ClaimKeepsRows(q: Queue, id: JobId, other: string, lease: nat, now: Time, worker: string)
    requires Clip(other) != Clip(worker)
    ensures RowsKept(q, AfterClaim(q, id, other, lease, now), worker)
  {
    hide DeadLettered;
    BuryingKeepsRows(q, now, worker);
  }

  lemma SettlingKeepsRows(q: Queue, id: JobId, other: string, error: string, retryable: bool, delay: nat, now: Time,
                          worker: string)
    ensures RowsKept(q, AfterComplete(q, id, other, now), worker)
    ensures RowsKept(q, AfterFail(q, id, other, error, retryable, delay, now), worker)
  {
    hide Clip;
  }

  lemma RowsKeptTransitively(a: Queue, b: Queue, c: Queue, worker: string)
    requires RowsKept(a, b, worker) && RowsKept(b, c, worker)
    ensures RowsKept(a, c, worker)
  {
  }

  /** The job runs for this worker: the row holds the first 200 characters of its id. */
  predicate IsOwner(q: Queue, id: JobId, worker: string) {
    && id in q.jobs && q.jobs[id].status == Running
    && q.jobs[id].worker == Some(if |worker| <= 200 then worker else worker[..200])
  }

  lemma OwnerExactly(q: Queue, id: JobId, worker: string)
    ensures IsOwner(q, id, worker) <==> OwnedRunning(q, id, worker)
  {
  }

  /** A worker settles a job if and only if the job is running and its clipped id is the stored
      owner: a displaced worker changes nothing. */
  lemma OnlyTheOwnerSettles(q: Queue, id: JobId, worker: string, error: string, retryable: bool, delay: nat, now: Time)
    ensures AfterComplete(q, id, worker, now) != q <==> IsOwner(q, id, worker)
    ensures AfterFail(q, id, worker, error, retryable, delay, now) != q <==> IsOwner(q, id, worker)
    ensures IsOwner(q, id, worker) ==>
      && AfterComplete(q, id, worker, now).jobs[id].status == Completed
      && AfterFail(q, id, worker, error, retryable, delay, now).jobs[id].status ==
           (if !retryable then Failed
            else if q.jobs[id].attempts < q.jobs[id].maxAttempts then RetryScheduled
            else Dead)
  {
    OwnerExactly(q, id, worker);
    if OwnedRunning(q, id, worker) {
      assert AfterComplete(q, id, worker, now).jobs[id].status != q.jobs[id].status;
      assert AfterFail(q, id, worker, error, retryable, delay, now).jobs[id].status != q.jobs[id].status;
    }
  }

  // ----- The rows, field by field -----------------------------------------------------------

  /** A job that may be claimed: it waits and its time has come, or it runs under a lease that is over;
      and it has attempts left. */
  predicate Due(job: Job, now: Time) {
    && job.attempts < job.maxAttempts
    && match job.status
       case Queued => job.availableAt <= now
       case RetryScheduled => job.availableAt <= now
       case Running => job.leasedUntil.Some? && job.leasedUntil.value <= now
       case _ => false
  }

  /** A job whose last attempt was lost: it runs under a lease that is over and has none left. */
  predicate Lost(job: Job, now: Time) {
    && job.status == Running && job.attempts >= job.maxAttempts
    && job.leasedUntil.Some? && job.leasedUntil.value <= now
  }

  lemma BuryingKeepsKeys(q: Queue, now: Time)
    ensures DeadLettered(q, now).jobs.Keys == q.jobs.Keys
  {
  }

  /** Burying concerns exactly the lost jobs, and each of them only gets its end recorded. */
  lemma BuriedRow(q: Queue, id: JobId, now: Time)
    requires id in q.jobs
    ensures id in DeadLettered(q, now).jobs
    ensures
      var job, row := q.jobs[id], DeadLettered(q, now).jobs[id];
      if !Lost(job, now) then row == job
      else
        && row.status == Dead && row.worker == None && row.leasedUntil == None
        && row.lastError == (if job.lastError in {None, Some("")} then Some("lease_expired") else job.lastError)
        && row == job.(status := Dead, worker := None, leasedUntil := None, lastError := row.lastError)
    ensures Claimable(DeadLettered(q, now).jobs[id], now) <==> Due(q.jobs[id], now)
    ensures Due(q.jobs[id], now) ==> DeadLettered(q, now).jobs[id] == q.jobs[id]
  {
  }

  /** A claim gives a due job a new attempt, the caller as its worker and a lease from now on; a job that
      is not due only sees the lost ones buried, and so do all others. */
  lemma ClaimedRow(q: Queue, id: JobId, worker: string, lease: nat, now: Time)
    ensures id in q.jobs && Due(q.jobs[id], now) ==>
      var q2, job := AfterClaim(q, id, worker, lease, now), q.jobs[id];
      && id in q2.jobs
      && q2.jobs[id] == job.(status := Running, attempts := job.attempts + 1,
                             worker := Some(if |worker| <= 200 then worker else worker[..200]),
                             leasedUntil := Some(now + lease))
      && (job.generation in q.generations ==>
            job.generation in q2.generations && q2.generations[job.generation] == GRunning)
      && forall other :: other in q.jobs && other != id ==>
           other in q2.jobs && q2.jobs[other] == DeadLettered(q, now).jobs[other]
    ensures !(id in q.jobs && Due(q.jobs[id], now)) ==> AfterClaim(q, id, worker, lease, now) == DeadLettered(q, now)
  {
    if id in q.jobs {
      BuriedRow(q, id, now);
    }
  }

  /** A settlement by the owner: completion, a retry after the delay while attempts are left, or the end;
      nothing else of the row changes, and no other row. */
  lemma SettledRow(q: Queue, id: JobId, worker: string, error: string, retryable: bool, delay: nat, now: Time)
    requires IsOwner(q, id, worker)
    ensures
      var q2, job := AfterComplete(q, id, worker, now), q.jobs[id];
      && q2.jobs == q.jobs[id := job.(status := Completed, worker := None, leasedUntil := None,
                                      completedAt := Some(now))]
      && (job.generation in q.generations ==>
            job.generation in q2.generations && q2.generations[job.generation] == GCompleted)
    ensures
      var q2, job := AfterFail(q, id, worker, error, retryable, delay, now), q.jobs[id];
      var code := if |error| <= 200 then error else error[..200];
      var retried := retryable && job.attempts < job.maxAttempts;
      && q2.jobs == q.jobs[id := job.(status := if retried then RetryScheduled else if retryable then Dead else Failed,
                                      worker := None, leasedUntil := None, lastError := Some(code),
                                      availableAt := if retried then now + delay else job.availableAt)]
      && (job.generation in q.generations ==>
            job.generation in q2.generations
            && q2.generations[job.generation] == if retried then GQueued else GFailed)
  {
    OwnerExactly(q, id, worker);
    CompletedRow(q, id, worker, now);
    FailedRow(q, id, worker, error, retryable, delay, now);
  }

  lemma CompletedRow(q: Queue, id: JobId, worker: string, now: Time)
    requires OwnedRunning(q, id, worker)
    ensures
      var q2, job := AfterComplete(q, id, worker, now), q.jobs[id];
      && q2.jobs == q.jobs[id := job.(status := Completed, worker := None, leasedUntil := None,
                                      completedAt := Some(now))]
      && (job.generation in q.generations ==>
            job.generation in q2.generations && q2.generations[job.generation] == GCompleted)
  {
    hide Clip;
  }

  lemma FailedRow(q: Queue, id: JobId, worker: string, error: string, retryable: bool, delay: nat, now: Time)
    requires OwnedRunning(q, id, worker)
    ensures
      var q2, job := AfterFail(q, id, worker, error, retryable, delay, now), q.jobs[id];
      var retried := retryable && job.attempts < job.maxAttempts;
      && q2.jobs == q.jobs[id := job.(status := if retried then RetryScheduled else if retryable then Dead else Failed,
                                      worker := None, leasedUntil := None, lastError := Some(Clip(error)),
                                      availableAt := if retried then now + delay else job.availableAt)]
      && (job.generation in q.generations ==>
            job.generation in q2.generations
            && q2.generations[job.generation] == if retried then GQueued else GFailed)
  {
    hide Clip;
  }

  // ----- Drain --------------------------------------------------------------------------

  ghost function AttemptsRemaining(jobs: map<JobId, Job>): nat {
    if jobs.Keys == {} then 0
    else
      var id :| id in jobs;
      Left(jobs[id]) + AttemptsRemaining(jobs - {id})
  }

  function Left(job: Job): nat {
    if job.attempts < job.maxAttempts then job.maxAttempts - job.attempts else 0
  }

  lemma {:induction false} RemainingSplits(jobs: map<JobId, Job>, id: JobId)
    requires id in jobs
    ensures AttemptsRemaining(jobs) == Left(jobs[id]) + AttemptsRemaining(jobs - {id})
    decreases |jobs|
  {
    var first :| first in jobs && AttemptsRemaining(jobs) == Left(jobs[first]) + AttemptsRemaining(jobs - {first});
    if first != id {
      RemainingSplits(jobs - {first}, id);
      RemainingSplits(jobs - {id}, first);
      assert jobs - {first} - {id} == jobs - {id} - {first};
    }
  }

  lemma {:induction false} RemainingSame(a: map<JobId, Job>, b: map<JobId, Job>)
    requires a.Keys == b.Keys
    requires forall id :: id in a ==> Left(a[id]) == Left(b[id])
    ensures AttemptsRemaining(a) == AttemptsRemaining(b)
    decreases |a|
  {
    if a.Keys != {} {
      var id :| id in a;
      RemainingSplits(a, id);
      RemainingSplits(b, id);
      RemainingSame(a - {id}, b - {id});
    } else {
      assert a == map[] && b == map[];
    }
  }

  /** Every successful claim uses up one of a finite number of attempts. */
  lemma ClaimsAreNumbered(q: Queue, id: JobId, worker: string, lease: nat, now: Time)
    requires id in q.jobs && Due(q.jobs[id], now)
    ensures AttemptsRemaining(AfterClaim(q, id, worker, lease, now).jobs) + 1 == AttemptsRemaining(q.jobs)
  {
    var q1, q2 := DeadLettered(q, now), AfterClaim(q, id, worker, lease, now);
    BuriedRow(q, id, now);
    RemainingSame(q.jobs, q1.jobs);
    RemainingSplits(q1.jobs, id);
    RemainingSplits(q2.jobs, id);
    assert q1.jobs - {id} == q2.jobs - {id};
  }

  predicate NothingClaimable(q: Queue, now: Time) {
    forall id :: id in q.jobs ==> !Claimable(q.jobs[id], now)
  }

  /** Drain: when a poll finds nothing at a time no retry or lease reaches beyond, every job has
      ended. */
  lemma EmptyPollMeansDrained(q: Queue, now: Time)
    requires QueueInv(q) && forall id :: id in q.jobs ==> !Due(q.jobs[id], now)
    requires forall id :: id in q.jobs ==>
      && q.jobs[id].availableAt <= now
      && (q.jobs[id].leasedUntil.Some? ==> q.jobs[id].leasedUntil.value <= now)
    ensures forall id :: id in q.jobs ==> Terminal(DeadLettered(q, now).jobs[id].status)
  {
    var q1 := DeadLettered(q, now);
    forall id | id in q.jobs ensures Terminal(q1.jobs[id].status) {
      assert JobInv(q.jobs[id]);
      BuriedRow(q, id, now);
    }
  }

  // ----- The repository -----------------------------------------------------------------

  class JobRepository {
    var jobs: map<JobId, Job>
    var generations: map<GenerationId, GenerationStatus>

    function Rows(): Queue
      reads this
    {
      Queue(jobs, generations)
    }

    constructor (jobs: map<JobId, Job>, generations: map<GenerationId, GenerationStatus>)
      ensures Rows() == Queue(jobs, generations)
    {
      this.jobs, this.generations := jobs, generations;
    }

    /** generation.status = ..., when the generation exists. */
    method SetGenerationStatus(g: GenerationId, s: GenerationStatus)
      modifies this`generations
      ensures Rows() == SetGeneration(old(Rows()), g, s)
    {
      if g in generations {
        generations := generations[g := s];
      }
    }

    /** The loop over every exhausted lease. */
    method DeadLetterExhaustedLeases(now: Time)
      modifies this
      ensures Rows() == DeadLettered(old(Rows()), now)
    {
      hide WithBuried, Exhausted;
      ghost var before := Rows();
      BuryNone(before);
      var remaining := ExhaustedJobs(Rows(), now);
      ghost var gone := {};
      while remaining != {}
        invariant gone + remaining == ExhaustedJobs(before, now) && gone !! remaining
        invariant Rows() == WithBuried(before, gone)
        decreases |remaining|
      {
        var id :| id in remaining;
        BuryOneMore(before, gone, id);
        jobs := jobs[id := Buried(jobs[id])];
        SetGenerationStatus(jobs[id].generation, GFailed);
        remaining := remaining - {id};
        gone := gone + {id};
      }
      assert gone == ExhaustedJobs(before, now);
    }

    /** claim_next: the claimable job with the smallest (available_at, created_at), after burying
        exhausted leases. */
    method ClaimNext(worker: string, lease: nat, now: Time) returns (claimed: Option<JobId>)
      modifies this
      ensures claimed.None? ==>
        && Rows() == DeadLettered(old(Rows()), now)
        && forall id :: id in old(jobs) ==> !Due(old(jobs)[id], now)
      ensures claimed.Some? ==>
        && claimed.value in old(jobs) && Due(old(jobs)[claimed.value], now)
        && (forall id :: id in old(jobs) && Due(old(jobs)[id], now) ==>
              var first, job := old(jobs)[claimed.value], old(jobs)[id];
              || first.availableAt < job.availableAt
              || (first.availableAt == job.availableAt && first.createdAt <= job.createdAt))
        && Rows() == AfterClaim(old(Rows()), claimed.value, worker, lease, now)
    {
      hide DeadLettered, Claimable, Due, Lost, MarkClaimed;
      ghost var before := Rows();
      DeadLetterExhaustedLeases(now);
      BuryingKeepsKeys(before, now);
      assert jobs.Keys == before.jobs.Keys;
      forall id | id in before.jobs
        ensures Claimable(jobs[id], now) <==> Due(before.jobs[id], now)
        ensures Due(before.jobs[id], now) ==> jobs[id] == before.jobs[id]
      {
        BuriedRow(before, id, now);
      }
      var candidates := set id | id in jobs && Claimable(jobs[id], now);
      if candidates == {} {
        assert forall id :: id in jobs && Claimable(jobs[id], now) ==> id in candidates;
        return None;
      }
      var best :| best in candidates;
      var rest := candidates - {best};
      while rest != {}
        invariant rest <= candidates && best in candidates && jobs == DeadLettered(before, now).jobs
        invariant forall id :: id in candidates - rest ==> NotLater(jobs[best], jobs[id])
        decreases |rest|
      {
        var id :| id in rest;
        if !NotLater(jobs[best], jobs[id]) {
          best := id;
        }
        rest := rest - {id};
      }
      forall id | id in before.jobs && Due(before.jobs[id], now) ensures NotLater(before.jobs[best], before.jobs[id]) {
        assert id in candidates - rest;
      }
      MarkClaimedRow(best, worker, lease, now);
      claimed := Some(best);
    }

    /** claim_job. */
    method ClaimJob(id: JobId, worker: string, lease: nat, now: Time) returns (claimed: bool)
      modifies this
      ensures Rows() == AfterClaim(old(Rows()), id, worker, lease, now)
      ensures claimed <==> id in old(jobs) && Due(old(jobs)[id], now)
    {
      hide DeadLettered, Claimable, Due;
      ghost var before := Rows();
      BuryingKeepsKeys(before, now);
      if id in jobs {
        BuriedRow(before, id, now);
      }
      DeadLetterExhaustedLeases(now);
      assert jobs.Keys == before.jobs.Keys;
      claimed := id in jobs && Claimable(jobs[id], now);
      if claimed {
        MarkClaimedRow(id, worker, lease, now);
      }
    }

    method MarkClaimedRow(id: JobId, worker: string, lease: nat, now: Time)
      requires id in jobs
      modifies this
      ensures Rows() == MarkClaimed(old(Rows()), id, worker, lease, now)
    {
      var job := jobs[id];
      job := job.(status := Running);
      job := job.(attempts := job.attempts + 1);
      job := job.(worker := Some(Clip(worker)));
      job := job.(leasedUntil := Some(now + lease));
      jobs := jobs[id := job];
      SetGenerationStatus(job.generation, GRunning);
    }

    method Complete(id: JobId, worker: string, now: Time) returns (settled: bool)
      modifies this
      ensures Rows() == AfterComplete(old(Rows()), id, worker, now)
      ensures settled <==> IsOwner(old(Rows()), id, worker)
    {
      OwnerExactly(Rows(), id, worker);
      settled := OwnedRunning(Rows(), id, worker);
      if settled {
        var job := jobs[id];
        job := job.(status := Completed);
        job := job.(leasedUntil := None, worker := None);
        job := job.(completedAt := Some(now));
        jobs := jobs[id := job];
        SetGenerationStatus(job.generation, GCompleted);
      }
    }

    method Fail(id: JobId, worker: string, error: string, retryable: bool, delay: nat,
                now: Time) returns (settled: bool)
      modifies this
      ensures Rows() == AfterFail(old(Rows()), id, worker, error, retryable, delay, now)
      ensures settled <==> IsOwner(old(Rows()), id, worker)
    {
      OwnerExactly(Rows(), id, worker);
      settled := OwnedRunning(Rows(), id, worker);
      if settled {
        var job := jobs[id];
        job := job.(lastError := Some(Clip(error)));
        job := job.(leasedUntil := None, worker := None);
        if retryable && job.attempts < job.maxAttempts {
          job := job.(status := RetryScheduled);
          job := job.(availableAt := now + delay);
          jobs := jobs[id := job];
          SetGenerationStatus(job.generation, GQueued);
        } else {
          job := job.(status := if retryable then Dead else Failed);
          jobs := jobs[id := job];
          SetGenerationStatus(job.generation, GFailed);
        }
      }
    }
  }

  predicate NotLater(a: Job, b: Job) {
    a.availableAt < b.availableAt || (a.availableAt == b.availableAt && a.createdAt <= b.createdAt)
  }
}
