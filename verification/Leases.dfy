/** Workers, leases and a clock: any number of worker processes claim, execute, crash and settle. An
    execution starts some time after its claim; a lease longer than that delay and the execution
    timeout together makes the executions of one job follow each other. */
module Leases {
  import opened Vocabulary
  import opened JobQueue

  /** The deployment: one timeout for all jobs, one lease, one retry delay, and the longest time from
      the clock reading of a claim to the start of its execution. */
  datatype Settings = Settings(timeout: nat, lease: nat, retryDelay: nat, startDelay: nat)

  /** What keeps executions apart. With no delay it is Settings.validate_generation_job_lease. */
  predicate SafeSettings(c: Settings) {
    c.timeout + c.startDelay < c.lease
  }

  /** One claim and the execution it leads to, if its worker lives to start it; it ends when the
      executor returns, raises, is stopped by the timeout, or dies with its process. */
  datatype Execution = Execution(
    job: JobId, attempt: nat, worker: string, claimed: Time, start: Option<Time>, end: Option<Time>)

  datatype ExecutionOutcome = Finished | Errored(error: string, retryable: bool)

  datatype Phase = Idle | Executing(execution: nat) | Settling(execution: nat, outcome: ExecutionOutcome)

  datatype System = System(now: Time, queue: Queue, phases: map<string, Phase>, executions: seq<Execution>)

  datatype Step =
    | Enqueue(id: JobId, generation: GenerationId, maxAttempts: nat)
    | Tick(to: Time)
    | Claim(worker: string, id: JobId)
    | Poll(worker: string)
    | Begin(worker: string)
    | MarkRunning(worker: string)
    | End(worker: string, outcome: ExecutionOutcome)
    | Settle(worker: string)
    | Crash(worker: string)

  predicate Active(e: Execution) {
    e.end.None?
  }

  /** A started execution that has not ended. */
  predicate Executes(e: Execution) {
    Active(e) && e.start.Some?
  }

  /** The latest time an execution can still be active at. */
  function Deadline(c: Settings, e: Execution): Time {
    match e.start
    case None => e.claimed + c.startDelay
    case Some(t) => t + c.timeout
  }

  function PhaseOf(s: System, worker: string): Phase {
    if worker in s.phases then s.phases[worker] else Idle
  }

  /** The execution a worker is busy with. */
  predicate Busy(s: System, worker: string) {
    PhaseOf(s, worker).Executing? && PhaseOf(s, worker).execution < |s.executions|
  }

  function Current(s: System, worker: string): Execution
    requires Busy(s, worker)
  {
    s.executions[PhaseOf(s, worker).execution]
  }

  /** Steps that can happen. A worker process does one thing at a time and is known by its clipped
      id; a claim is followed by its execution within the start delay, and wait_for lets no execution
      outlive its timeout. */
  ghost predicate Enabled(c: Settings, s: System, step: Step) {
    match step
    case Enqueue(id, g, maxAttempts) =>
      && id !in s.queue.jobs && maxAttempts > 0
      && forall j :: j in s.queue.jobs ==> s.queue.jobs[j].generation != g
    case Tick(to) =>
      && s.now <= to
      && forall i :: 0 <= i < |s.executions| && Active(s.executions[i]) ==> to <= Deadline(c, s.executions[i])
    case Claim(worker, id) =>
      && |worker| <= 200 && PhaseOf(s, worker).Idle?
      && id in s.queue.jobs && Claimable(DeadLettered(s.queue, s.now).jobs[id], s.now)
    case Poll(worker) => PhaseOf(s, worker).Idle? && NothingClaimable(DeadLettered(s.queue, s.now), s.now)
    case Begin(worker) => Busy(s, worker) && Current(s, worker).start.None?
    case MarkRunning(worker) => Busy(s, worker) && Current(s, worker).start.Some?
    case End(worker, _) => Busy(s, worker) && Current(s, worker).start.Some?
    case Settle(worker) => PhaseOf(s, worker).Settling? && PhaseOf(s, worker).execution < |s.executions|
    case Crash(worker) => PhaseOf(s, worker).Executing? ==> Busy(s, worker)
  }

  function Ended(executions: seq<Execution>, i: nat, now: Time): seq<Execution>
    requires i < |executions|
  {
    executions[i := executions[i].(end := Some(now))]
  }

  function Settlement(c: Settings, q: Queue, id: JobId, worker: string, outcome: ExecutionOutcome, now: Time): Queue {
    match outcome
    case Finished => AfterComplete(q, id, worker, now)
    case Errored(error, retryable) => AfterFail(q, id, worker, error, retryable, c.retryDelay, now)
  }

  ghost function Next(c: Settings, s: System, step: Step): System
    requires Enabled(c, s, step)
  {
    match step
    case Enqueue(id, g, maxAttempts) =>
      var job := Job(g, Queued, 0, maxAttempts, c.timeout, s.now, s.now, None, None, None, None);
      s.(queue := Queue(s.queue.jobs[id := job], s.queue.generations[g := GQueued]))
    case Tick(to) => s.(now := to)
    case Claim(worker, id) =>
      var q := AfterClaim(s.queue, id, worker, c.lease, s.now);
      s.(queue := q,
         phases := s.phases[worker := Executing(|s.executions|)],
         executions := s.executions + [Execution(id, q.jobs[id].attempts, worker, s.now, None, None)])
    case Poll(_) => s.(queue := DeadLettered(s.queue, s.now))
    case Begin(worker) =>
      var i := PhaseOf(s, worker).execution;
      s.(executions := s.executions[i := s.executions[i].(start := Some(s.now))])
    case MarkRunning(worker) =>
      var e := Current(s, worker);
      if e.job in s.queue.jobs then s.(queue := SetGeneration(s.queue, s.queue.jobs[e.job].generation, GRunning)) else s
    case End(worker, outcome) =>
      var i := PhaseOf(s, worker).execution;
      s.(executions := Ended(s.executions, i, s.now), phases := s.phases[worker := Settling(i, outcome)])
    case Settle(worker) =>
      var p := PhaseOf(s, worker);
      s.(phases := s.phases[worker := Idle],
         queue := Settlement(c, s.queue, s.executions[p.execution].job, worker, p.outcome, s.now))
    case Crash(worker) =>
      var p := PhaseOf(s, worker);
      s.(phases := s.phases[worker := Idle],
         executions := if p.Executing? then Ended(s.executions, p.execution, s.now) else s.executions)
  }

  const INITIAL_SYSTEM: System := System(0, Queue(map[], map[]), map[], [])

  /** The system after a sequence of steps, if each of them can happen in its turn. */
  ghost function After(c: Settings, steps: seq<Step>): Option<System> {
    if steps == [] then Some(INITIAL_SYSTEM)
    else
      match After(c, steps[..|steps| - 1])
      case None => None
      case Some(s) =>
        if Enabled(c, s, steps[|steps| - 1]) then Some(Next(c, s, steps[|steps| - 1])) else None
  }

  // ----- The invariant ------------------------------------------------------------------

  /** An active execution holds its job: same worker, same attempt, and a lease it cannot outlive. */
  predicate HoldsLease(c: Settings, s: System, i: nat)
    requires i < |s.executions|
  {
    var e := s.executions[i];
    && PhaseOf(s, e.worker) == Executing(i)
    && |e.worker| <= 200
    && e.job in s.queue.jobs
    && s.now <= Deadline(c, e) <= e.claimed + c.startDelay + c.timeout
    && var job := s.queue.jobs[e.job];
       job.status == Running && job.worker == Some(e.worker) && job.attempts == e.attempt
       && job.leasedUntil == Some(e.claimed + c.lease)
  }

  /** Executions of one job are ordered: an earlier one ended before a later one was claimed. */
  ghost predicate Ordered(executions: seq<Execution>) {
    forall i, j :: 0 <= i < j < |executions| && executions[i].job == executions[j].job ==>
      && executions[i].end.Some? && executions[i].end.value <= executions[j].claimed
      && executions[i].attempt < executions[j].attempt
  }

  ghost predicate ExecutionsInv(s: System) {
    forall i :: 0 <= i < |s.executions| ==>
      var e := s.executions[i];
      && e.claimed <= s.now
      && (e.start.Some? ==> e.claimed <= e.start.value <= s.now)
      && (e.end.Some? ==> e.claimed <= e.end.value <= s.now)
      && e.job in s.queue.jobs
      && 1 <= e.attempt <= s.queue.jobs[e.job].attempts
  }

  /** This is the worker's newest execution. */
  ghost predicate IsNewestOf(executions: seq<Execution>, i: nat, worker: string) {
    && i < |executions|
    && executions[i].worker == worker
    && forall k :: i < k < |executions| ==> executions[k].worker != worker
  }

  /** If the worker owns the job of this execution, it owns it at the attempt the execution is for. */
  predicate OwnAttempt(s: System, w: string, i: nat)
    requires i < |s.executions|
  {
    var e := s.executions[i];
    OwnedRunning(s.queue, e.job, w) ==> s.queue.jobs[e.job].attempts == e.attempt
  }

  /** A busy worker works on its newest execution, and then settles that one. */
  ghost predicate PhaseInv(s: System, w: string, p: Phase) {
    match p
    case Idle => true
    case Executing(i) => |w| <= 200 && IsNewestOf(s.executions, i, w) && Active(s.executions[i]) && OwnAttempt(s, w, i)
    case Settling(i, _) => |w| <= 200 && IsNewestOf(s.executions, i, w) && OwnAttempt(s, w, i)
  }

  ghost predicate PhasesInv(s: System) {
    forall w :: w in s.phases ==> PhaseInv(s, w, s.phases[w])
  }

  ghost predicate LeasesInv(c: Settings, s: System) {
    forall i :: 0 <= i < |s.executions| && Active(s.executions[i]) ==> HoldsLease(c, s, i)
  }

  ghost predicate SystemInv(c: Settings, s: System) {
    QueueInv(s.queue) && ExecutionsInv(s) && PhasesInv(s) && Ordered(s.executions) && LeasesInv(c, s)
  }

  // ----- Whose settlement -----------------------------------------------------------------

  lemma RowsKeptOwn(s: System, s2: System, w: string, i: nat)
    requires i < |s.executions| && i < |s2.executions| && OwnAttempt(s, w, i) && RowsKept(s.queue, s2.queue, w)
    requires s2.executions[i].job == s.executions[i].job && s2.executions[i].attempt == s.executions[i].attempt
    ensures OwnAttempt(s2, w, i)
  {
  }

  lemma SettlementKeepsRows(c: Settings, q: Queue, id: JobId, worker: string, outcome: ExecutionOutcome, now: Time,
                            w: string)
    ensures RowsKept(q, Settlement(c, q, id, worker, outcome, now), w)
  {
    SettlingKeepsRows(q, id, worker, if outcome.Errored? then outcome.error else "",
                      outcome.Errored? && outcome.retryable,
                      c.retryDelay, now, w);
  }

  lemma {:induction false} StepKeepsPhases(c: Settings, s: System, step: Step)
    requires PhasesInv(s) && Enabled(c, s, step)
    ensures PhasesInv(Next(c, s, step))
  {
    hide DeadLettered, AfterClaim, AfterComplete, AfterFail, Settlement, OwnAttempt, OwnedRunning, Claimable;
    hide NothingClaimable;
    var s2 := Next(c, s, step);
    forall w | w in s2.phases ensures PhaseInv(s2, w, s2.phases[w]) {
      if step.Claim? && step.worker == w {
        ClaimedIsOwn(c, s, w, step.id);
      } else if w in s.phases && !s2.phases[w].Idle? {
        StepKeepsRows(c, s, step, w);
        RowsKeptOwn(s, s2, w, s.phases[w].execution);
      }
    }
  }

  lemma ClaimedIsOwn(c: Settings, s: System, worker: string, id: JobId)
    requires Enabled(c, s, Claim(worker, id))
    ensures
      var s2 := Next(c, s, Claim(worker, id));
      PhaseInv(s2, worker, s2.phases[worker])
  {
  }

  lemma StepKeepsRows(c: Settings, s: System, step: Step, w: string)
    requires Enabled(c, s, step) && |w| <= 200 && (step.Claim? ==> step.worker != w)
    ensures RowsKept(s.queue, Next(c, s, step).queue, w)
  {
    hide DeadLettered, AfterClaim, AfterComplete, AfterFail, Settlement, Claimable, NothingClaimable;
    match step
    case Claim(worker, id) => ClaimKeepsRows(s.queue, id, worker, c.lease, s.now, w);
    case Poll(_) => BuryingKeepsRows(s.queue, s.now, w);
    case Settle(worker) =>
      var p := PhaseOf(s, worker);
      SettlementKeepsRows(c, s.queue, s.executions[p.execution].job, worker, p.outcome, s.now, w);
    case _ =>
  }

  lemma {:induction false} RunsKeepPhases(c: Settings, steps: seq<Step>)
    requires After(c, steps).Some?
    ensures PhasesInv(After(c, steps).value)
    decreases |steps|
  {
    hide Enabled, Next, PhaseInv;
    if steps != [] {
      RunsKeepPhases(c, steps[..|steps| - 1]);
      StepKeepsPhases(c, After(c, steps[..|steps| - 1]).value, steps[|steps| - 1]);
    }
  }

  /** Under any settings, a settlement that has an effect is for the attempt its own worker executed
      last: a worker never settles a later attempt by another one, nor an older one of its own. */
  lemma SettlementIsOwn(c: Settings, steps: seq<Step>, worker: string)
    requires After(c, steps).Some? && Enabled(c, After(c, steps).value, Settle(worker))
    requires Next(c, After(c, steps).value, Settle(worker)).queue != After(c, steps).value.queue
    ensures
      var s := After(c, steps).value;
      var i := PhaseOf(s, worker).execution;
      && IsNewestOf(s.executions, i, worker)
      && s.executions[i].job in s.queue.jobs
      && s.queue.jobs[s.executions[i].job].worker == Some(worker)
      && s.queue.jobs[s.executions[i].job].attempts == s.executions[i].attempt
  {
    hide After, AfterComplete, AfterFail;
    RunsKeepPhases(c, steps);
    var s := After(c, steps).value;
    assert worker in s.phases && PhaseInv(s, worker, s.phases[worker]);
    var p := PhaseOf(s, worker);
    OnlyTheOwnerSettles(s.queue, s.executions[p.execution].job, worker,
                        if p.outcome.Errored? then p.outcome.error else "",
                        p.outcome.Errored? && p.outcome.retryable, c.retryDelay, s.now);
  }

  // ----- Retries --------------------------------------------------------------------------

  /** A job waits for its next attempt. */
  predicate Waits(s: System, id: JobId, row: Job) {
    id in s.queue.jobs && s.queue.jobs[id] == row && row.status == RetryScheduled && row.attempts < row.maxAttempts
  }

  /** Nothing but a claim touches the row of a waiting job, and no claim does before its time. */
  lemma StepKeepsWaiting(c: Settings, s: System, step: Step, id: JobId, row: Job)
    requires Waits(s, id, row) && Enabled(c, s, step)
    ensures step.Claim? && step.id == id ==> row.availableAt <= s.now
    ensures !(step.Claim? && step.id == id) ==> Waits(Next(c, s, step), id, row)
    ensures s.now <= Next(c, s, step).now
  {
    hide DeadLettered, AfterClaim, AfterComplete, AfterFail, Claimable, NothingClaimable;
    match step
    case Claim(worker, other) =>
      BuriedRow(s.queue, id, s.now);
      BuriedRow(s.queue, other, s.now);
      ClaimedRow(s.queue, other, worker, c.lease, s.now);
    case Poll(_) => BuriedRow(s.queue, id, s.now);
    case Settle(worker) =>
      var p := PhaseOf(s, worker);
      var other := s.executions[p.execution].job;
      OnlyTheOwnerSettles(s.queue, other, worker, if p.outcome.Errored? then p.outcome.error else "",
                          p.outcome.Errored? && p.outcome.retryable, c.retryDelay, s.now);
      if IsOwner(s.queue, other, worker) {
        SettledRow(s.queue, other, worker, if p.outcome.Errored? then p.outcome.error else "",
                   p.outcome.Errored? && p.outcome.retryable, c.retryDelay, s.now);
      }
    case _ =>
  }

  /** The settlement of a retryable failure by the worker that owns the job, while attempts are left. */
  ghost predicate SchedulesRetry(s: System, step: Step, id: JobId) {
    && step.Settle?
    && PhaseOf(s, step.worker).Settling?
    && PhaseOf(s, step.worker).execution < |s.executions|
    && s.executions[PhaseOf(s, step.worker).execution].job == id
    && PhaseOf(s, step.worker).outcome.Errored? && PhaseOf(s, step.worker).outcome.retryable
    && id in s.queue.jobs && s.queue.jobs[id].attempts < s.queue.jobs[id].maxAttempts
    && s.queue.jobs[id].status == Running && |step.worker| <= 200 && s.queue.jobs[id].worker == Some(step.worker)
  }

  lemma RetryIsScheduled(c: Settings, s: System, step: Step, id: JobId)
    requires SchedulesRetry(s, step, id) && Enabled(c, s, step)
    ensures
      var s2 := Next(c, s, step);
      id in s2.queue.jobs && Waits(s2, id, s2.queue.jobs[id])
      && s2.queue.jobs[id].availableAt == s.now + c.retryDelay
  {
    hide AfterFail;
    SettledRow(s.queue, id, step.worker, PhaseOf(s, step.worker).outcome.error, true, c.retryDelay, s.now);
  }

  /** What holds of a waiting job at some later time: it still waits unless it was claimed, and that was
      not before its time. */
  lemma {:induction false} WaitingLasts(c: Settings, steps: seq<Step>, k: nat, m: nat, id: JobId, row: Job)
    requires k <= m <= |steps| && After(c, steps[..k]).Some? && After(c, steps[..m]).Some?
    requires Waits(After(c, steps[..k]).value, id, row)
    ensures Waits(After(c, steps[..m]).value, id, row) || row.availableAt <= After(c, steps[..m]).value.now
    ensures (forall j :: k <= j < m ==> !(steps[j].Claim? && steps[j].id == id)) ==>
      Waits(After(c, steps[..m]).value, id, row)
    decreases m
  {
    hide Enabled, Next, Waits;
    if k < m {
      assert steps[..m][..m - 1] == steps[..m - 1] && steps[..m][m - 1] == steps[m - 1];
      WaitingLasts(c, steps, k, m - 1, id, row);
      var s := After(c, steps[..m - 1]).value;
      TimeGoesOn(c, s, steps[m - 1]);
      if Waits(s, id, row) {
        StepKeepsWaiting(c, s, steps[m - 1], id, row);
      }
    }
  }

  lemma TimeGoesOn(c: Settings, s: System, step: Step)
    requires Enabled(c, s, step)
    ensures s.now <= Next(c, s, step).now
  {
    hide DeadLettered, AfterClaim, Settlement, Claimable, NothingClaimable;
  }

  /** The backoff: after a retryable failure at one time, nobody can claim the job before the delay is
      over, whatever else happens; and from then on every idle worker can, until one has. */
  lemma RetryWaitsExactly(c: Settings, steps: seq<Step>, k: nat, m: nat, id: JobId, worker: string)
    requires k < m <= |steps| && After(c, steps[..k]).Some? && After(c, steps[..m]).Some?
    requires SchedulesRetry(After(c, steps[..k]).value, steps[k], id)
    ensures
      var from, s := After(c, steps[..k]).value.now, After(c, steps[..m]).value;
      && (s.now < from + c.retryDelay ==> !Enabled(c, s, Claim(worker, id)))
      && (s.now >= from + c.retryDelay && (forall j :: k < j < m ==> !(steps[j].Claim? && steps[j].id == id)) ==>
            |worker| <= 200 && PhaseOf(s, worker).Idle? ==> Enabled(c, s, Claim(worker, id)))
  {
    hide Next, SchedulesRetry, DeadLettered, Claimable;
    var s0, s := After(c, steps[..k]).value, After(c, steps[..m]).value;
    LastStep(c, steps, k, m);
    RetryIsScheduled(c, s0, steps[k], id);
    var row := Next(c, s0, steps[k]).queue.jobs[id];
    WaitingLasts(c, steps, k + 1, m, id, row);
    if Waits(s, id, row) {
      BuriedRow(s.queue, id, s.now);
    }
  }

  lemma {:induction false} LastStep(c: Settings, steps: seq<Step>, k: nat, m: nat)
    requires k < m <= |steps| && After(c, steps[..m]).Some?
    ensures After(c, steps[..k]).Some? && Enabled(c, After(c, steps[..k]).value, steps[k])
    ensures After(c, steps[..k + 1]) == Some(Next(c, After(c, steps[..k]).value, steps[k]))
    decreases m
  {
    hide Enabled, Next;
    assert steps[..m][..m - 1] == steps[..m - 1] && steps[..m][m - 1] == steps[m - 1];
    if k < m - 1 {
      LastStep(c, steps, k, m - 1);
    }
  }

  // ----- Attempts -------------------------------------------------------------------------

  /** Every execution is for one of the attempts its job has used. */
  ghost predicate AttemptsInv(s: System) {
    && JobsInv(s.queue)
    && forall i :: 0 <= i < |s.executions| ==>
         && s.executions[i].job in s.queue.jobs
         && 1 <= s.executions[i].attempt <= s.queue.jobs[s.executions[i].job].attempts
  }

  lemma StepKeepsAttempts(c: Settings, s: System, step: Step)
    requires AttemptsInv(s) && Enabled(c, s, step)
    ensures AttemptsInv(Next(c, s, step))
  {
    hide DeadLettered, AfterClaim, AfterComplete, AfterFail, Claimable, NothingClaimable, JobsInv, JobInv;
    match step
    case Enqueue(id, g, maxAttempts) => EnqueuedJobInv(c, s, id, g, maxAttempts);
    case Claim(worker, id) =>
      TransactionsKeepJobs(s.queue, id, worker, c.lease, "", false, 0, s.now);
      ClaimProgresses(s.queue, id, worker, c.lease, s.now);
      ClaimedAttempt(c, s, worker, id);
    case Poll(_) => TransactionsKeepJobs(s.queue, 0, "", 0, "", false, 0, s.now);
    case Settle(worker) =>
      var p := PhaseOf(s, worker);
      var id, error := s.executions[p.execution].job, if p.outcome.Errored? then p.outcome.error else "";
      var retryable := p.outcome.Errored? && p.outcome.retryable;
      TransactionsKeepJobs(s.queue, id, worker, 0, error, retryable, c.retryDelay, s.now);
      SettlementProgresses(s.queue, id, worker, error, retryable, c.retryDelay, s.now);
    case MarkRunning(worker) =>
      assert Next(c, s, step).queue.jobs == s.queue.jobs;
      assert JobsInv(Next(c, s, step).queue) by { SameJobs(s.queue, Next(c, s, step).queue); }
    case _ =>
  }

  lemma SameJobs(q: Queue, q2: Queue)
    requires JobsInv(q) && q2.jobs == q.jobs
    ensures JobsInv(q2)
  {
  }

  lemma EnqueuedJobInv(c: Settings, s: System, id: JobId, g: GenerationId, maxAttempts: nat)
    requires JobsInv(s.queue) && Enabled(c, s, Enqueue(id, g, maxAttempts))
    ensures JobsInv(Next(c, s, Enqueue(id, g, maxAttempts)).queue)
  {
  }

  lemma ClaimedAttempt(c: Settings, s: System, worker: string, id: JobId)
    requires Enabled(c, s, Claim(worker, id))
    ensures id in AfterClaim(s.queue, id, worker, c.lease, s.now).jobs
    ensures AfterClaim(s.queue, id, worker, c.lease, s.now).jobs[id].attempts >= 1
  {
  }

  lemma {:induction false} RunsKeepAttempts(c: Settings, steps: seq<Step>)
    requires After(c, steps).Some?
    ensures AttemptsInv(After(c, steps).value)
    decreases |steps|
  {
    hide Enabled, Next;
    if steps != [] {
      RunsKeepAttempts(c, steps[..|steps| - 1]);
      StepKeepsAttempts(c, After(c, steps[..|steps| - 1]).value, steps[|steps| - 1]);
    }
  }

  /** Under any settings, every claim of a job is one of its max_attempts attempts. */
  lemma ClaimsWithinLimit(c: Settings, steps: seq<Step>, i: nat)
    requires After(c, steps).Some?
    requires i < |After(c, steps).value.executions|
    ensures
      var s := After(c, steps).value;
      var e := s.executions[i];
      e.job in s.queue.jobs && 1 <= e.attempt <= s.queue.jobs[e.job].maxAttempts
  {
    hide After;
    RunsKeepAttempts(c, steps);
    var s := After(c, steps).value;
    assert JobInv(s.queue.jobs[s.executions[i].job]);
  }

  // ----- Steps ----------------------------------------------------------------------------

  /** A job under an active execution is neither buried nor claimable: its lease is not over. */
  lemma ActiveIsProtected(c: Settings, s: System, i: nat)
    requires SafeSettings(c) && i < |s.executions| && HoldsLease(c, s, i)
    ensures
      var id := s.executions[i].job;
      && DeadLettered(s.queue, s.now).jobs[id] == s.queue.jobs[id]
      && !Claimable(s.queue.jobs[id], s.now)
  {
  }

  lemma EnqueueKeepsInv(c: Settings, s: System, id: JobId, g: GenerationId, maxAttempts: nat)
    requires SystemInv(c, s) && Enabled(c, s, Enqueue(id, g, maxAttempts))
    ensures SystemInv(c, Next(c, s, Enqueue(id, g, maxAttempts)))
  {
    hide PhasesInv;
    StepKeepsPhases(c, s, Enqueue(id, g, maxAttempts));
  }

  lemma TickKeepsInv(c: Settings, s: System, to: Time)
    requires SystemInv(c, s) && Enabled(c, s, Tick(to))
    ensures SystemInv(c, Next(c, s, Tick(to)))
  {
    hide QueueInv, PhasesInv;
    StepKeepsPhases(c, s, Tick(to));
  }

  lemma PollKeepsInv(c: Settings, s: System, worker: string)
    requires SafeSettings(c) && SystemInv(c, s) && Enabled(c, s, Poll(worker))
    ensures SystemInv(c, Next(c, s, Poll(worker)))
  {
    hide QueueInv, Claimable, PhasesInv;
    StepKeepsPhases(c, s, Poll(worker));
    DeadLetterKeepsInv(s.queue, s.now);
    var s2 := Next(c, s, Poll(worker));
    forall i | 0 <= i < |s2.executions| && Active(s2.executions[i]) ensures HoldsLease(c, s2, i) {
      ActiveIsProtected(c, s, i);
    }
  }

  lemma ClaimKeepsExecutions(c: Settings, s: System, worker: string, id: JobId)
    requires SafeSettings(c) && SystemInv(c, s) && Enabled(c, s, Claim(worker, id))
    ensures
      var s2 := Next(c, s, Claim(worker, id));
      && (forall i :: 0 <= i < |s.executions| && s.executions[i].job == id ==> !Active(s.executions[i]))
      && id in s2.queue.jobs && s2.queue.jobs[id].attempts == s.queue.jobs[id].attempts + 1
      && s2.queue.jobs.Keys == s.queue.jobs.Keys
      && forall j :: j in s.queue.jobs && j != id ==>
           s2.queue.jobs[j].attempts == s.queue.jobs[j].attempts
           && (s.queue.jobs[j] == DeadLettered(s.queue, s.now).jobs[j] ==> s2.queue.jobs[j] == s.queue.jobs[j])
  {
    hide QueueInv, Ordered, ExecutionsInv, PhasesInv;
    forall i | 0 <= i < |s.executions| && s.executions[i].job == id ensures !Active(s.executions[i]) {
      if Active(s.executions[i]) {
        ActiveIsProtected(c, s, i);
      }
    }
  }

  lemma ClaimKeepsOrder(c: Settings, s: System, worker: string, id: JobId)
    requires SafeSettings(c) && SystemInv(c, s) && Enabled(c, s, Claim(worker, id))
    ensures
      var s2 := Next(c, s, Claim(worker, id));
      Ordered(s2.executions) && ExecutionsInv(s2) && PhasesInv(s2)
  {
    hide QueueInv, LeasesInv, Claimable, DeadLettered, AfterClaim, PhasesInv;
    StepKeepsPhases(c, s, Claim(worker, id));
    ClaimKeepsExecutions(c, s, worker, id);
  }

  lemma ClaimKeepsInv(c: Settings, s: System, worker: string, id: JobId)
    requires SafeSettings(c) && SystemInv(c, s) && Enabled(c, s, Claim(worker, id))
    ensures SystemInv(c, Next(c, s, Claim(worker, id)))
  {
    hide QueueInv, Ordered, ExecutionsInv, PhasesInv, DeadLettered;
    JobQueue.ClaimKeepsInv(s.queue, id, worker, c.lease, s.now);
    ClaimKeepsOrder(c, s, worker, id);
    ClaimKeepsExecutions(c, s, worker, id);
    var s2 := Next(c, s, Claim(worker, id));
    forall i | 0 <= i < |s2.executions| && Active(s2.executions[i]) ensures HoldsLease(c, s2, i) {
      if i < |s.executions| {
        ActiveIsProtected(c, s, i);
      }
    }
  }

  lemma BeginKeepsInv(c: Settings, s: System, worker: string)
    requires SystemInv(c, s) && Enabled(c, s, Begin(worker))
    ensures SystemInv(c, Next(c, s, Begin(worker)))
  {
    hide QueueInv, PhasesInv;
    StepKeepsPhases(c, s, Begin(worker));
    BusyIsActive(s, worker);
    var s2 := Next(c, s, Begin(worker));
    forall i | 0 <= i < |s2.executions| && Active(s2.executions[i]) ensures HoldsLease(c, s2, i) {
      assert HoldsLease(c, s, i);
    }
  }

  lemma PhaseHolds(s: System, worker: string)
    requires PhasesInv(s)
    ensures PhaseInv(s, worker, PhaseOf(s, worker))
  {
  }

  lemma BusyIsActive(s: System, worker: string)
    requires PhasesInv(s) && Busy(s, worker)
    ensures Active(Current(s, worker)) && Current(s, worker).worker == worker
  {
    assert PhaseInv(s, worker, s.phases[worker]);
  }

  lemma MarkRunningKeepsInv(c: Settings, s: System, worker: string)
    requires SystemInv(c, s) && Enabled(c, s, MarkRunning(worker))
    ensures Next(c, s, MarkRunning(worker)) == s
  {
    var i := PhaseOf(s, worker).execution;
    BusyIsActive(s, worker);
    assert HoldsLease(c, s, i);
    var job := s.queue.jobs[s.executions[i].job];
    assert s.queue.generations[job.generation] == GRunning;
    assert s.queue.generations[job.generation := GRunning] == s.queue.generations;
  }

  lemma EndKeepsInv(c: Settings, s: System, worker: string, outcome: ExecutionOutcome)
    requires SystemInv(c, s) && Enabled(c, s, End(worker, outcome))
    ensures SystemInv(c, Next(c, s, End(worker, outcome)))
  {
    hide QueueInv, PhasesInv;
    StepKeepsPhases(c, s, End(worker, outcome));
    BusyIsActive(s, worker);
    EndingKeepsOrder(s, PhaseOf(s, worker).execution);
    EndingKeepsLeases(c, s, worker, Settling(PhaseOf(s, worker).execution, outcome));
  }

  lemma EndingKeepsLeases(c: Settings, s: System, worker: string, p: Phase)
    requires LeasesInv(c, s) && Busy(s, worker) && Active(Current(s, worker)) && Current(s, worker).worker == worker
    ensures LeasesInv(c,
        s.(executions := Ended(s.executions, PhaseOf(s, worker).execution, s.now), phases := s.phases[worker := p]))
  {
    var s2 := s.(executions := Ended(s.executions, PhaseOf(s, worker).execution, s.now),
        phases := s.phases[worker := p]);
    forall i | 0 <= i < |s2.executions| && Active(s2.executions[i]) ensures HoldsLease(c, s2, i) {
      assert HoldsLease(c, s, i);
    }
  }

  lemma CrashKeepsInv(c: Settings, s: System, worker: string)
    requires SystemInv(c, s) && Enabled(c, s, Crash(worker))
    ensures SystemInv(c, Next(c, s, Crash(worker)))
  {
    hide QueueInv, PhasesInv;
    StepKeepsPhases(c, s, Crash(worker));
    if PhaseOf(s, worker).Executing? {
      BusyIsActive(s, worker);
      EndingKeepsOrder(s, PhaseOf(s, worker).execution);
      EndingKeepsLeases(c, s, worker, Idle);
    }
  }

  lemma EndingKeepsOrder(s: System, i: nat)
    requires Ordered(s.executions) && i < |s.executions| && Active(s.executions[i])
    ensures Ordered(Ended(s.executions, i, s.now))
  {
  }

  /** A settlement touches a job only while its settler owns it, and then no execution is active. */
  lemma SettleKeepsInv(c: Settings, s: System, worker: string)
    requires SystemInv(c, s) && Enabled(c, s, Settle(worker))
    ensures SystemInv(c, Next(c, s, Settle(worker)))
  {
    hide QueueInv, Ordered, PhasesInv;
    StepKeepsPhases(c, s, Settle(worker));
    var p, s2 := PhaseOf(s, worker), Next(c, s, Settle(worker));
    var id := s.executions[p.execution].job;
    assert Clip(worker) == worker by { assert PhaseInv(s, worker, p) by { PhaseHolds(s, worker); } }
    if OwnedRunning(s.queue, id, worker) {
      SettlementKeepsInv(s.queue, id, worker, if p.outcome.Errored? then p.outcome.error else "",
                         p.outcome.Errored? && p.outcome.retryable, c.retryDelay, s.now);
    }
    forall i | 0 <= i < |s2.executions| && Active(s2.executions[i]) ensures HoldsLease(c, s2, i) {
      assert HoldsLease(c, s, i);
      assert s.executions[i].job == id ==> !OwnedRunning(s.queue, id, worker);
    }
  }

  lemma StepKeepsInv(c: Settings, s: System, step: Step)
    requires SafeSettings(c) && SystemInv(c, s) && Enabled(c, s, step)
    ensures SystemInv(c, Next(c, s, step))
  {
    hide SystemInv, Enabled, Next;
    match step
    case Enqueue(id, g, maxAttempts) => EnqueueKeepsInv(c, s, id, g, maxAttempts);
    case Tick(to) => TickKeepsInv(c, s, to);
    case Claim(worker, id) => ClaimKeepsInv(c, s, worker, id);
    case Poll(worker) => PollKeepsInv(c, s, worker);
    case Begin(worker) => BeginKeepsInv(c, s, worker);
    case MarkRunning(worker) => MarkRunningKeepsInv(c, s, worker);
    case End(worker, outcome) => EndKeepsInv(c, s, worker, outcome);
    case Settle(worker) => SettleKeepsInv(c, s, worker);
    case Crash(worker) => CrashKeepsInv(c, s, worker);
  }

  lemma {:induction false} RunsKeepInv(c: Settings, steps: seq<Step>)
    requires SafeSettings(c) && After(c, steps).Some?
    ensures SystemInv(c, After(c, steps).value)
    decreases |steps|
  {
    hide Enabled, Next;
    if steps != [] {
      RunsKeepInv(c, steps[..|steps| - 1]);
      StepKeepsInv(c, After(c, steps[..|steps| - 1]).value, steps[|steps| - 1]);
    }
  }

  // ----- Theorems -----------------------------------------------------------------------

  /** Mutual exclusion in time. With a lease longer than the start delay and the timeout together,
      whatever workers do, crash or forget, the executions of one job never overlap: an earlier claim's
      execution has ended when a later claim is made, let alone starts to execute, and claims of one job
      carry distinct, growing attempt numbers. */
  lemma ExecutionsNeverOverlap(c: Settings, steps: seq<Step>, i: nat, j: nat)
    requires SafeSettings(c) && After(c, steps).Some?
    requires i < j < |After(c, steps).value.executions|
    requires After(c, steps).value.executions[i].job == After(c, steps).value.executions[j].job
    ensures
      var a, b := After(c, steps).value.executions[i], After(c, steps).value.executions[j];
      && a.end.Some? && a.end.value <= b.claimed && a.attempt < b.attempt
      && (b.start.Some? ==> a.end.value <= b.start.value)
  {
    hide After;
    RunsKeepInv(c, steps);
  }

  lemma AfterOneMore(c: Settings, steps: seq<Step>, s: System, step: Step)
    requires After(c, steps) == Some(s) && Enabled(c, s, step)
    ensures After(c, steps + [step]) == Some(Next(c, s, step))
  {
    assert (steps + [step])[..|steps|] == steps;
  }

  lemma NobodyExhausted(q: Queue, now: Time)
    requires ExhaustedJobs(q, now) == {}
    ensures DeadLettered(q, now) == q
  {
    BuryNone(q);
  }

  /** Two workers execute the same job, which the second one owns. */
  predicate Overlaps(s: System) {
    && |s.executions| == 2 && Executes(s.executions[0]) && Executes(s.executions[1])
    && s.executions[0].job == s.executions[1].job == 0
    && s.executions[0].worker == "a" && s.executions[1].worker == "b"
    && PhaseOf(s, "a") == Executing(0) && PhaseOf(s, "b") == Executing(1)
    && OwnedRunning(s.queue, 0, "b") && s.queue.jobs[0].generation == 0 && 0 in s.queue.generations
  }

  lemma OverlappingRun(c: Settings) returns (steps: seq<Step>, s: System)
    requires !SafeSettings(c)
    ensures After(c, steps) == Some(s) && Overlaps(s)
  {
    hide After, DeadLettered;
    var late := if c.startDelay < c.lease then c.lease else c.startDelay;
    assert After(c, []) == Some(INITIAL_SYSTEM) by { StartsAtStart(c); }
    var s1 := Next(c, INITIAL_SYSTEM, Enqueue(0, 0, 2));
    AfterOneMore(c, [], INITIAL_SYSTEM, Enqueue(0, 0, 2));
    NobodyExhausted(s1.queue, 0);
    var s2 := Next(c, s1, Claim("a", 0));
    steps := [] + [Enqueue(0, 0, 2)];
    AfterOneMore(c, steps, s1, Claim("a", 0));
    var s3 := Next(c, s2, Tick(c.startDelay));
    steps := steps + [Claim("a", 0)];
    AfterOneMore(c, steps, s2, Tick(c.startDelay));
    var s4 := Next(c, s3, Begin("a"));
    steps := steps + [Tick(c.startDelay)];
    AfterOneMore(c, steps, s3, Begin("a"));
    var s5 := Next(c, s4, Tick(late));
    steps := steps + [Begin("a")];
    AfterOneMore(c, steps, s4, Tick(late));
    NobodyExhausted(s5.queue, late);
    var s6 := Next(c, s5, Claim("b", 0));
    steps := steps + [Tick(late)];
    AfterOneMore(c, steps, s5, Claim("b", 0));
    steps := steps + [Claim("b", 0)];
    AfterOneMore(c, steps, s6, Begin("b"));
    steps := steps + [Begin("b")];
    s := Next(c, s6, Begin("b"));
  }

  /** The bound is exact: under any other settings two workers can execute the same job at the same
      time. */
  lemma ShortLeaseOverlaps(c: Settings) returns (steps: seq<Step>)
    requires !SafeSettings(c)
    ensures After(c, steps).Some?
    ensures
      var e := After(c, steps).value.executions;
      |e| == 2 && e[0].job == e[1].job && Executes(e[0]) && Executes(e[1]) && e[0].worker != e[1].worker
  {
    hide After;
    var s;
    steps, s := OverlappingRun(c);
  }

  /** Every generation's status says what its job's does. */
  ghost predicate Mirrors(q: Queue) {
    forall id :: id in q.jobs ==>
      q.jobs[id].generation in q.generations && q.generations[q.jobs[id].generation] == Mirror(q.jobs[id].status)
  }

  /** The status write at the start of an execution asks neither who owns the job nor how it stands: once
      executions overlap, it can come after the other worker has completed the job. */
  lemma LateMarkBreaksMirror(c: Settings) returns (steps: seq<Step>)
    requires !SafeSettings(c)
    ensures After(c, steps).Some?
    ensures
      var q := After(c, steps).value.queue;
      && 0 in q.jobs && q.jobs[0].status == Completed && q.jobs[0].generation in q.generations
      && q.generations[q.jobs[0].generation] == GRunning
  {
    hide After;
    var s;
    steps, s := OverlappingRun(c);
    var s1 := Next(c, s, End("b", Finished));
    AfterOneMore(c, steps, s, End("b", Finished));
    steps := steps + [End("b", Finished)];
    var s2 := Next(c, s1, Settle("b"));
    AfterOneMore(c, steps, s1, Settle("b"));
    steps := steps + [Settle("b")];
    AfterOneMore(c, steps, s2, MarkRunning("a"));
    steps := steps + [MarkRunning("a")];
  }

  /** Every generation mirrors its job in every run exactly when the lease exceeds the timeout and the
      start delay together. */
  lemma MirrorExactly(c: Settings)
    ensures SafeSettings(c) <==> forall steps :: After(c, steps).Some? ==> Mirrors(After(c, steps).value.queue)
  {
    hide After, SafeSettings;
    if SafeSettings(c) {
      forall steps | After(c, steps).Some? ensures Mirrors(After(c, steps).value.queue) {
        RunsKeepInv(c, steps);
      }
    } else {
      var steps := LateMarkBreaksMirror(c);
      assert !Mirrors(After(c, steps).value.queue);
    }
  }

  lemma StartsAtStart(c: Settings)
    ensures After(c, []) == Some(INITIAL_SYSTEM)
  {
  }
}
