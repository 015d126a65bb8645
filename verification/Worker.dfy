/** One cycle of a generation worker: claim, execute under the timeout, settle; other workers'
    transactions may come before, between and during. */
module Workers {
  import opened Vocabulary
  import opened JobQueue

  /** How wait_for(execute) ends. */
  datatype ExecutionResult = Completes | TimesOut | RaisesNonRetryable | RaisesOther(name: string) | IsCancelled

  datatype Cycle = NothingToDo | Cancelled(id: JobId) | Settled(id: JobId, result: ExecutionResult)
      | Displaced(id: JobId)

  /** A row after its worker settled it: completed, failed for good, or tried again after the backoff
      until the attempts are used up; the error code says which exception it was. */
  ghost predicate SettledAs(row: Job, result: ExecutionResult, backoff: nat, now: Time) {
    && row.worker == None && row.leasedUntil == None
    && match result
       case Completes => row.status == Completed && row.completedAt == Some(now)
       case RaisesNonRetryable => row.status == Failed && row.lastError == Some("non_retryable")
       case TimesOut => TriedAgain(row, backoff, now) && row.lastError == Some("timeout")
       case RaisesOther(name) => TriedAgain(row, backoff, now) && row.lastError == Some(Clip(name))
       case IsCancelled => false
  }

  ghost predicate TriedAgain(row: Job, backoff: nat, now: Time) {
    if row.attempts < row.maxAttempts then row.status == RetryScheduled && row.availableAt == now + backoff
    else row.status == Dead
  }

  lemma ProgressesTransitively(a: Queue, b: Queue, c: Queue)
    requires Progresses(a, b) && Progresses(b, c)
    ensures Progresses(a, c)
  {
  }

  class GenerationWorker {
    const repository: JobRepository
    const workerId: string
    const lease: nat
    const backoff: nat

    constructor (repository: JobRepository, workerId: string, lease: nat, backoff: nat)
      ensures this.repository == repository && this.workerId == workerId && this.lease == lease
      ensures this.backoff == backoff
    {
      this.repository, this.workerId, this.lease, this.backoff := repository, workerId, lease, backoff;
    }

    /** One transaction by another worker, whose clipped id is different. */
    method OtherTransaction()
      requires QueueInv(repository.Rows())
      modifies repository
      ensures QueueInv(repository.Rows()) && Progresses(old(repository.Rows()), repository.Rows())
      ensures RowsKept(old(repository.Rows()), repository.Rows(), workerId)
    {
      hide QueueInv, Progresses, AfterClaim, AfterComplete, AfterFail, DeadLettered;
      var other: string := *;
      var id: JobId := *;
      var kind: nat := *;
      var now: Time := *;
      var span: nat := *;
      var error: string := *;
      var retryable: bool := *;
      ghost var q := repository.Rows();
      TransactionsKeepInv(q, id, other, span, error, retryable, span, now);
      ClaimProgresses(q, id, other, span, now);
      SettlementProgresses(q, id, other, error, retryable, span, now);
      ReflexiveProgress(q);
      if Clip(other) != Clip(workerId) {
        ClaimKeepsRows(q, id, other, span, now, workerId);
        SettlingKeepsRows(q, id, other, error, retryable, span, now, workerId);
        var done: bool;
        if kind == 0 {
          done := repository.ClaimJob(id, other, span, now);
        } else if kind == 1 {
          done := repository.Complete(id, other, now);
        } else {
          done := repository.Fail(id, other, error, retryable, span, now);
        }
      }
    }

    /** Any number of them. */
    method OthersAct()
      requires QueueInv(repository.Rows())
      modifies repository
      ensures QueueInv(repository.Rows()) && Progresses(old(repository.Rows()), repository.Rows())
      ensures RowsKept(old(repository.Rows()), repository.Rows(), workerId)
    {
      hide QueueInv, Progresses, RowsKept;
      var rounds: nat := *;
      ghost var before := repository.Rows();
      ReflexiveProgress(before);
      NothingTaken(before);
      while rounds > 0
        invariant QueueInv(repository.Rows()) && Progresses(before, repository.Rows())
        invariant RowsKept(before, repository.Rows(), workerId)
      {
        ghost var mid := repository.Rows();
        OtherTransaction();
        ProgressesTransitively(before, mid, repository.Rows());
        RowsKeptTransitively(before, mid, repository.Rows(), workerId);
        rounds := rounds - 1;
      }
    }

    lemma NothingTaken(q: Queue)
      ensures RowsKept(q, q, workerId)
    {
    }

    static lemma ReflexiveProgress(q: Queue)
      ensures Progresses(q, q)
    {
    }

    /** Settles a claim by its outcome; a displaced worker changes nothing. */
    method Settle(id: JobId, result: ExecutionResult, now: Time) returns (settled: bool)
      requires QueueInv(repository.Rows()) && !result.IsCancelled?
      modifies repository
      ensures QueueInv(repository.Rows()) && Progresses(old(repository.Rows()), repository.Rows())
      ensures settled <==> IsOwner(old(repository.Rows()), id, workerId)
      ensures !settled ==> repository.Rows() == old(repository.Rows())
      ensures settled ==>
        id in repository.jobs && SettledAs(repository.jobs[id], result, backoff, now)
      ensures settled ==> repository.jobs == old(repository.jobs)[id := repository.jobs[id]]
    {
      hide QueueInv, Progresses, AfterComplete, AfterFail;
      ghost var q := repository.Rows();
      var (error, retryable) :=
        match result
        case TimesOut => ("timeout", true)
        case RaisesOther(name) => (name, true)
        case _ => ("non_retryable", false);
      TransactionsKeepInv(q, id, workerId, 0, error, retryable, backoff, now);
      SettlementProgresses(q, id, workerId, error, retryable, backoff, now);
      OnlyTheOwnerSettles(q, id, workerId, error, retryable, backoff, now);
      if IsOwner(q, id, workerId) {
        SettledRow(q, id, workerId, error, retryable, backoff, now);
      }
      if result.Completes? {
        settled := repository.Complete(id, workerId, now);
      } else {
        settled := repository.Fail(id, workerId, error, retryable, backoff, now);
      }
    }

    /** run_once: at most one job is claimed and settled. A cancelled execution leaves its lease in
        place, exactly as the claim set it, for another worker to reclaim; a worker whose lease was
        taken over settles nothing. */
    method RunOnce(now: Time) returns (r: Cycle)
      requires QueueInv(repository.Rows())
      modifies repository
      ensures QueueInv(repository.Rows()) && Progresses(old(repository.Rows()), repository.Rows())
      ensures r.NothingToDo? ==>
        && repository.Rows() == DeadLettered(old(repository.Rows()), now)
        && forall id :: id in old(repository.jobs) ==> !Due(old(repository.jobs)[id], now)
      ensures r.Settled? ==>
        r.id in repository.jobs && exists later :: SettledAs(repository.jobs[r.id], r.result, backoff, later)
      ensures r.Displaced? ==> !IsOwner(repository.Rows(), r.id, workerId)
      ensures r.Cancelled? ==>
        && RowsKept(AfterClaim(old(repository.Rows()), r.id, workerId, lease, now), repository.Rows(), workerId)
        && (IsOwner(repository.Rows(), r.id, workerId) ==> repository.jobs[r.id].leasedUntil == Some(now + lease))
      ensures !r.NothingToDo? ==>
        && r.id in old(repository.jobs) && Due(old(repository.jobs)[r.id], now)
        && old(repository.jobs)[r.id].attempts < repository.jobs[r.id].attempts
    {
      hide QueueInv, Progresses, DeadLettered, AfterClaim, Due, SettledAs;
      ghost var q := repository.Rows();
      var claimed := repository.ClaimNext(workerId, lease, now);
      if claimed.None? {
        DeadLetterKeepsInv(q, now);
        BuryingProgresses(q, now);
        return NothingToDo;
      }
      var id := claimed.value;
      ghost var q1 := repository.Rows();
      TransactionsKeepInv(q, id, workerId, lease, "", false, 0, now);
      ClaimProgresses(q, id, workerId, lease, now);
      OthersAct();
      ghost var q2 := repository.Rows();
      ProgressesTransitively(q, q1, q2);
      ClaimCounts(q, q1, q2, id, workerId, lease, now);
      var result: ExecutionResult := *;
      if result.IsCancelled? {
        OwnerExactly(q2, id, workerId);
        LeaseStays(q, q1, q2, id, workerId, lease, now);
        return Cancelled(id);
      }
      var later: Time := *;
      var settled := Settle(id, result, later);
      ProgressesTransitively(q, q2, repository.Rows());
      AttemptsStay(q2, repository.Rows(), id);
      r := if settled then Settled(id, result) else Displaced(id);
    }

    static lemma BuryingProgresses(q: Queue, now: Time)
      ensures Progresses(q, DeadLettered(q, now))
    {
    }

    static lemma LeaseStays(q: Queue, q1: Queue, q2: Queue, id: JobId, worker: string, lease: nat, now: Time)
      requires id in q.jobs && Due(q.jobs[id], now)
      requires q1 == AfterClaim(q, id, worker, lease, now) && RowsKept(q1, q2, worker)
      ensures OwnedRunning(q2, id, worker) ==> q2.jobs[id].leasedUntil == Some(now + lease)
    {
      hide AfterClaim;
      ClaimedRow(q, id, worker, lease, now);
    }

    static lemma AttemptsStay(q: Queue, later: Queue, id: JobId)
      requires Progresses(q, later) && id in q.jobs
      ensures id in later.jobs && q.jobs[id].attempts <= later.jobs[id].attempts
    {
    }

    static lemma ClaimCounts(q: Queue, q1: Queue, q2: Queue, id: JobId, worker: string, lease: nat, now: Time)
      requires id in q.jobs && Due(q.jobs[id], now)
      requires q1 == AfterClaim(q, id, worker, lease, now) && Progresses(q1, q2)
      ensures id in q2.jobs && q.jobs[id].attempts < q2.jobs[id].attempts
    {
      hide AfterClaim;
      ClaimedRow(q, id, worker, lease, now);
    }
  }
}
