/** Queue, workers, executors and the version log of one job's generation, as one system of steps: an
    executor writes while its worker's execution runs, and API clients write at any time. */
module Deployments {
  import opened Vocabulary
  import opened StageGraph
  import opened VersionLog
  import opened Freshness
  import opened Budgets
  import opened DefaultPlan
  import opened SuppliedContracts
  import opened CheckpointStores
  import opened Executors
  import opened DecisionLimit
  import JobQueue
  import Leases
  import Lifetime

  datatype Deployment = Deployment(system: Leases.System, log: Log)

  /** A step of queue, workers and clock, or an accepted write to the log: by the execution that a worker
      is busy with, or by a client. */
  datatype Event =
    | Runs(step: Leases.Step)
    | ExecutorWrites(worker: string, entry: Entry)
    | ClientWrites(entry: Entry)

  /** The job whose generation the log belongs to, its plan and the settings. */
  datatype Site = Site(job: JobQueue.JobId, plan: Plan, settings: Leases.Settings)

  ghost predicate CanHappen(site: Site, d: Deployment, e: Event) {
    match e
    case Runs(step) => Leases.Enabled(site.settings, d.system, step)
    case ExecutorWrites(worker, entry) =>
      && Leases.Busy(d.system, worker)
      && Leases.Executes(Leases.Current(d.system, worker))
      && Leases.Current(d.system, worker).job == site.job
      && entry.author == Executor(Leases.Current(d.system, worker).attempt)
      && d.log != [] && Legal(site.plan, d.log, entry) && Disciplined(site.plan, d.log, entry)
    case ClientWrites(entry) =>
      && entry.author.Api?
      && d.log != [] && Legal(site.plan, d.log, entry) && Disciplined(site.plan, d.log, entry)
  }

  ghost function Happened(site: Site, d: Deployment, e: Event): Deployment
    requires CanHappen(site, d, e)
  {
    match e
    case Runs(step) => d.(system := Leases.Next(site.settings, d.system, step))
    case ExecutorWrites(_, entry) => d.(log := d.log + [entry])
    case ClientWrites(entry) => d.(log := d.log + [entry])
  }

  /** A run: the deployments before, between and after its events. */
  ghost predicate Course(site: Site, states: seq<Deployment>, events: seq<Event>) {
    && |states| == |events| + 1
    && states[0] == Deployment(Leases.INITIAL_SYSTEM, [InitialEntry()])
    && forall i :: 0 <= i < |events| ==> Follows(site, states[i], events[i], states[i + 1])
  }

  ghost predicate Follows(site: Site, d: Deployment, e: Event, d2: Deployment) {
    CanHappen(site, d, e) && d2 == Happened(site, d, e)
  }

  // ----- What every run keeps -------------------------------------------------------------

  /** The steps of queue, workers and clock alone. */
  ghost function QueueSteps(events: seq<Event>): seq<Leases.Step> {
    if events == [] then []
    else
      QueueSteps(events[..|events| - 1])
      + match events[|events| - 1]
        case Runs(step) => [step]
        case _ => []
  }

  lemma {:induction false} SystemRuns(site: Site, states: seq<Deployment>, events: seq<Event>)
    requires Course(site, states, events)
    ensures Leases.After(site.settings, QueueSteps(events)) == Some(states[|events|].system)
    decreases |events|
  {
    hide Leases.Enabled, Leases.Next, Legal, Disciplined;
    if events != [] {
      var n := |events| - 1;
      ShorterCourse(site, states, events);
      SystemRuns(site, states[..n + 1], events[..n]);
      assert Follows(site, states[n], events[n], states[n + 1]);
      if events[n].Runs? {
        Leases.AfterOneMore(site.settings, QueueSteps(events[..n]), states[n].system, events[n].step);
      } else {
        assert QueueSteps(events) == QueueSteps(events[..n]);
      }
    } else {
      Leases.StartsAtStart(site.settings);
    }
  }

  lemma ShorterCourse(site: Site, states: seq<Deployment>, events: seq<Event>)
    requires Course(site, states, events) && events != []
    ensures Course(site, states[..|events|], events[..|events| - 1])
  {
    hide Follows;
    var n := |events| - 1;
    forall i | 0 <= i < n ensures Follows(site, states[..n + 1][i], events[..n][i], states[..n + 1][i + 1]) {
      assert Follows(site, states[i], events[i], states[i + 1]);
    }
  }

  lemma {:induction false} LogIsLegal(site: Site, states: seq<Deployment>, events: seq<Event>)
    requires Course(site, states, events)
    ensures LegalLog(site.plan, states[|events|].log) && DisciplinedLog(site.plan, states[|events|].log)
    decreases |events|
  {
    hide Leases.Enabled, Leases.Next, Legal, Disciplined;
    if events != [] {
      var n := |events| - 1;
      ShorterCourse(site, states, events);
      LogIsLegal(site, states[..n + 1], events[..n]);
      assert Follows(site, states[n], events[n], states[n + 1]);
      if !events[n].Runs? {
        LegalExtend(site.plan, states[n].log, events[n].entry);
        DisciplinedOneMore(site.plan, states[n].log, events[n].entry);
      }
    }
  }

  lemma DisciplinedOneMore(plan: Plan, log: Log, e: Entry)
    requires log != [] && DisciplinedLog(plan, log) && Disciplined(plan, log, e)
    ensures DisciplinedLog(plan, log + [e])
  {
    hide Disciplined;
    assert (log + [e])[..|log|] == log;
  }

  /** The attempts the job has used. */
  function Attempts(site: Site, d: Deployment): nat {
    if site.job in d.system.queue.jobs then d.system.queue.jobs[site.job].attempts else 0
  }

  /** Executors wrote in the order of their attempts. */
  predicate InTurns(log: Log) {
    forall u, v :: 0 <= u < v < |log| && log[u].author.Executor? && log[v].author.Executor? ==>
      log[u].author.id <= log[v].author.id
  }

  ghost predicate TurnsInv(site: Site, d: Deployment) {
    && InTurns(d.log)
    && forall v :: 0 <= v < |d.log| && d.log[v].author.Executor? ==> d.log[v].author.id <= Attempts(site, d)
  }

  /** An execution that runs is for the attempt its job is at. */
  lemma RunningIsNewest(site: Site, s: Leases.System, worker: string)
    requires Leases.SystemInv(site.settings, s) && Leases.Busy(s, worker)
    requires Leases.Executes(Leases.Current(s, worker)) && Leases.Current(s, worker).job == site.job
    ensures site.job in s.queue.jobs && s.queue.jobs[site.job].attempts == Leases.Current(s, worker).attempt
  {
    assert Leases.HoldsLease(site.settings, s, Leases.PhaseOf(s, worker).execution);
  }

  lemma {:induction false} RunsKeepTurns(site: Site, states: seq<Deployment>, events: seq<Event>)
    requires Course(site, states, events) && Leases.SafeSettings(site.settings)
    ensures TurnsInv(site, states[|events|])
    decreases |events|
  {
    hide Leases.Enabled, Leases.Next, Legal, Disciplined, Leases.After, Leases.SystemInv, TurnsInv;
    if events == [] {
      FirstTurns(site, states[0]);
    } else {
      var n := |events| - 1;
      ShorterCourse(site, states, events);
      RunsKeepTurns(site, states[..n + 1], events[..n]);
      SystemRuns(site, states[..n + 1], events[..n]);
      Leases.RunsKeepInv(site.settings, QueueSteps(events[..n]));
      assert Follows(site, states[n], events[n], states[n + 1]);
      match events[n]
      case Runs(step) => StepKeepsTurns(site, states[n], step);
      case ExecutorWrites(worker, entry) => WriteKeepsTurns(site, states[n], worker, entry);
      case ClientWrites(entry) => ClientKeepsTurns(site, states[n], entry);
    }
  }

  lemma FirstTurns(site: Site, d: Deployment)
    requires d.log == [InitialEntry()]
    ensures TurnsInv(site, d)
  {
  }

  lemma StepKeepsTurns(site: Site, d: Deployment, step: Leases.Step)
    requires TurnsInv(site, d) && Leases.Enabled(site.settings, d.system, step)
    ensures TurnsInv(site, d.(system := Leases.Next(site.settings, d.system, step)))
  {
    hide Leases.Enabled, Leases.Next;
    AttemptsGrow(site, d, step);
  }

  lemma AttemptsGrow(site: Site, d: Deployment, step: Leases.Step)
    requires Leases.Enabled(site.settings, d.system, step)
    ensures Attempts(site, d) <= Attempts(site, d.(system := Leases.Next(site.settings, d.system, step)))
  {
    hide JobQueue.DeadLettered, JobQueue.AfterClaim, JobQueue.AfterComplete, JobQueue.AfterFail, JobQueue.Claimable;
    hide JobQueue.NothingClaimable;
    var c, s := site.settings, d.system;
    match step
    case Claim(worker, id) => JobQueue.ClaimProgresses(s.queue, id, worker, c.lease, s.now);
    case Poll(_) => PollProgresses(s.queue, s.now);
    case Settle(worker) =>
      var p := Leases.PhaseOf(s, worker);
      JobQueue.SettlementProgresses(s.queue, s.executions[p.execution].job, worker,
                                    if p.outcome.Errored? then p.outcome.error else "",
                                    p.outcome.Errored? && p.outcome.retryable, c.retryDelay, s.now);
    case _ =>
  }

  lemma PollProgresses(q: JobQueue.Queue, now: JobQueue.Time)
    ensures JobQueue.Progresses(q, JobQueue.DeadLettered(q, now))
  {
  }

  lemma WriteKeepsTurns(site: Site, d: Deployment, worker: string, entry: Entry)
    requires TurnsInv(site, d) && Leases.SystemInv(site.settings, d.system)
    requires CanHappen(site, d, ExecutorWrites(worker, entry))
    ensures TurnsInv(site, d.(log := d.log + [entry]))
  {
    hide Leases.SystemInv, Legal, Disciplined;
    RunningIsNewest(site, d.system, worker);
  }

  lemma ClientKeepsTurns(site: Site, d: Deployment, entry: Entry)
    requires TurnsInv(site, d) && entry.author.Api?
    ensures TurnsInv(site, d.(log := d.log + [entry]))
  {
  }

  // ----- Whose entries --------------------------------------------------------------------

  lemma ClaimsStay(site: Site, s: Leases.System, step: Leases.Step, attempt: nat)
    requires Leases.Enabled(site.settings, s, step) && Lifetime.ClaimedAs(s, site.job, attempt)
    ensures Lifetime.ClaimedAs(Leases.Next(site.settings, s, step), site.job, attempt)
  {
    hide JobQueue.DeadLettered, JobQueue.AfterClaim, JobQueue.Claimable, JobQueue.NothingClaimable, Leases.Settlement;
    var i :| 0 <= i < |s.executions| && s.executions[i].job == site.job && s.executions[i].attempt == attempt;
    var s2 := Leases.Next(site.settings, s, step);
    assert i < |s2.executions| && s2.executions[i].job == site.job && s2.executions[i].attempt == attempt;
  }

  /** Under any settings, every executor in the log was started by a claim of the job. */
  lemma {:induction false} RunsKeepClaims(site: Site, states: seq<Deployment>, events: seq<Event>)
    requires Course(site, states, events)
    ensures Lifetime.StartedByClaims(states[|events|].system, site.job, states[|events|].log)
    decreases |events|
  {
    hide Leases.Enabled, Leases.Next, Legal, Disciplined, Lifetime.ClaimedAs;
    if events != [] {
      var n := |events| - 1;
      ShorterCourse(site, states, events);
      RunsKeepClaims(site, states[..n + 1], events[..n]);
      assert Follows(site, states[n], events[n], states[n + 1]);
      var d, d2 := states[n], states[n + 1];
      forall v | 0 <= v < |d2.log| && d2.log[v].author.Executor?
        ensures Lifetime.ClaimedAs(d2.system, site.job, d2.log[v].author.id)
      {
        if events[n].Runs? {
          ClaimsStay(site, d.system, events[n].step, d.log[v].author.id);
        } else if v == |d.log| {
          CurrentIsClaimed(site, d.system, events[n].worker);
        }
      }
    }
  }

  lemma CurrentIsClaimed(site: Site, s: Leases.System, worker: string)
    requires Leases.Busy(s, worker) && Leases.Current(s, worker).job == site.job
    ensures Lifetime.ClaimedAs(s, site.job, Leases.Current(s, worker).attempt)
  {
    assert s.executions[Leases.PhaseOf(s, worker).execution] == Leases.Current(s, worker);
  }

  /** A running execution of the job. */
  ghost predicate IsRunning(site: Site, d: Deployment, i: nat) {
    && i < |d.system.executions| && d.system.executions[i].job == site.job && Leases.Active(d.system.executions[i])
  }

  lemma ActiveAttempt(site: Site, states: seq<Deployment>, events: seq<Event>, n: nat, i: nat)
    requires Course(site, states, events) && Leases.SafeSettings(site.settings) && n < |states|
    requires IsRunning(site, states[n], i)
    ensures Attempts(site, states[n]) == states[n].system.executions[i].attempt
  {
    hide Leases.After, Leases.Enabled, Leases.Next, Legal, Disciplined, Follows;
    Prefix(site, states, events, n);
    SystemRuns(site, states[..n + 1], events[..n]);
    Leases.RunsKeepInv(site.settings, QueueSteps(events[..n]));
    assert Leases.HoldsLease(site.settings, states[n].system, i);
  }

  /** An execution is for one attempt all its life. */
  lemma {:induction false} AttemptStays(site: Site, states: seq<Deployment>, events: seq<Event>, m: nat, n: nat, i: nat)
    requires Course(site, states, events) && m <= n < |states| && i < |states[m].system.executions|
    ensures i < |states[n].system.executions|
    ensures states[n].system.executions[i].attempt == states[m].system.executions[i].attempt
    decreases n
  {
    hide JobQueue.DeadLettered, JobQueue.AfterClaim, JobQueue.Claimable, JobQueue.NothingClaimable, Leases.Settlement;
    hide Legal, Disciplined;
    if m < n {
      AttemptStays(site, states, events, m, n - 1, i);
      assert Follows(site, states[n - 1], events[n - 1], states[n - 1 + 1]);
    }
  }

  lemma Prefix(site: Site, states: seq<Deployment>, events: seq<Event>, n: nat)
    requires Course(site, states, events) && n < |states|
    ensures Course(site, states[..n + 1], events[..n])
  {
    hide Follows;
    forall i | 0 <= i < n ensures Follows(site, states[..n + 1][i], events[..n][i], states[..n + 1][i + 1]) {
      assert Follows(site, states[i], events[i], states[i + 1]);
    }
  }

  lemma {:induction false} AttemptsNeverFall(site: Site, states: seq<Deployment>, events: seq<Event>, m: nat, n: nat)
    requires Course(site, states, events) && m <= n < |states|
    ensures Attempts(site, states[m]) <= Attempts(site, states[n])
    decreases n
  {
    hide Leases.Enabled, Leases.Next, Legal, Disciplined;
    if m < n {
      AttemptsNeverFall(site, states, events, m, n - 1);
      assert Follows(site, states[n - 1], events[n - 1], states[n - 1 + 1]);
      if events[n - 1].Runs? {
        AttemptsGrow(site, states[n - 1], events[n - 1].step);
      }
    }
  }

  /** The entry an executor writes carries the attempt its job is at. */
  lemma WriterIsCurrent(site: Site, states: seq<Deployment>, events: seq<Event>, n: nat)
    requires Course(site, states, events) && Leases.SafeSettings(site.settings) && n < |events|
    requires events[n].ExecutorWrites?
    ensures events[n].entry.author == Executor(Attempts(site, states[n]))
  {
    hide Leases.After, Leases.Enabled, Leases.Next, Legal, Disciplined, Leases.SystemInv;
    Prefix(site, states, events, n);
    SystemRuns(site, states[..n + 1], events[..n]);
    Leases.RunsKeepInv(site.settings, QueueSteps(events[..n]));
    assert Follows(site, states[n], events[n], states[n + 1]);
    RunningIsNewest(site, states[n].system, events[n].worker);
  }

  lemma {:induction false} WritesByAttempt(site: Site, states: seq<Deployment>, events: seq<Event>, m: nat, n: nat,
                                           k: nat)
    requires Course(site, states, events) && Leases.SafeSettings(site.settings) && m <= n < |states|
    requires forall j :: m <= j < n ==> !events[j].ClientWrites?
    requires Attempts(site, states[m]) == k && Attempts(site, states[n]) == k
    ensures states[m].log <= states[n].log && Undisturbed(states[n].log, |states[m].log|, Executor(k))
    decreases n
  {
    hide Leases.Enabled, Leases.Next, Legal, Disciplined, Attempts;
    if m < n {
      AttemptsNeverFall(site, states, events, m, n - 1);
      AttemptsNeverFall(site, states, events, n - 1, n);
      WritesByAttempt(site, states, events, m, n - 1, k);
      assert Follows(site, states[n - 1], events[n - 1], states[n - 1 + 1]);
      if events[n - 1].ExecutorWrites? {
        WriterIsCurrent(site, states, events, n - 1);
      }
    }
  }

  // ----- Theorems -------------------------------------------------------------------------

  /** With settings that keep executions apart, the executors of one job write one after another: between
      two entries of an executor there are only its own and those of clients. */
  lemma ExecutorsTakeTurns(site: Site, states: seq<Deployment>, events: seq<Event>, u: nat, v: nat, w: nat)
    requires Course(site, states, events) && Leases.SafeSettings(site.settings)
    requires u < v < w < |states[|events|].log|
    requires
      var log := states[|events|].log;
      log[u].author.Executor? && log[w].author == log[u].author
    ensures
      var log := states[|events|].log;
      log[v].author == log[u].author || log[v].author.Api?
  {
    RunsKeepTurns(site, states, events);
  }

  /** In every run under any settings, the handlers of the shipped plan start at most 81 times plus once
      per attempt of the job. */
  lemma DeployedWorkBound(site: Site, states: seq<Deployment>, events: seq<Event>)
    requires Course(site, states, events) && site.plan == ShippedPlan()
    requires site.job in states[|events|].system.queue.jobs
    ensures Starts(states[|events|].log) <= 81 + states[|events|].system.queue.jobs[site.job].maxAttempts
  {
    hide Leases.After, LegalLog, DisciplinedLog, RevisionSafe, SumOfLimits, SumOfReviewLimits, Lifetime.StartedByClaims;
    SystemRuns(site, states, events);
    LogIsLegal(site, states, events);
    RunsKeepClaims(site, states, events);
    ShippedIsRevisionSafe();
    ShippedLimits();
    Lifetime.LifetimeWorkBound(site.settings, QueueSteps(events), site.job, site.plan, states[|events|].log);
  }

  /** While an execution runs, nobody writes beside it but clients. */
  lemma RunningExecutionIsUndisturbed(site: Site, states: seq<Deployment>, events: seq<Event>, m: nat, n: nat, i: nat)
    requires Course(site, states, events) && Leases.SafeSettings(site.settings) && m <= n < |states|
    requires IsRunning(site, states[m], i) && IsRunning(site, states[n], i)
    requires forall j :: m <= j < n ==> !events[j].ClientWrites?
    ensures states[m].log <= states[n].log
    ensures Undisturbed(states[n].log, |states[m].log|, Executor(states[m].system.executions[i].attempt))
  {
    hide Follows, Attempts, Undisturbed;
    AttemptStays(site, states, events, m, n, i);
    ActiveAttempt(site, states, events, m, i);
    ActiveAttempt(site, states, events, n, i);
    WritesByAttempt(site, states, events, m, n, states[m].system.executions[i].attempt);
  }

  /** So a deployed execution of the shipped plan during which no client writes never ends by its decision
      limit, whatever other workers do. */
  lemma DeployedExecutionMeetsNoLimit(site: Site, states: seq<Deployment>, events: seq<Event>, m: nat, n: nat, i: nat,
                                      executor: PostSupervisorExecutor, logs: seq<Log>,
                                      calls: seq<Option<HandlerCall>>, outcome: Outcome)
    requires Course(site, states, events) && Leases.SafeSettings(site.settings) && m <= n < |states|
    requires IsRunning(site, states[m], i) && IsRunning(site, states[n], i)
    requires forall j :: m <= j < n ==> !events[j].ClientWrites?
    requires site.plan == executor.plan == ShippedPlan() && executor.maxDecisions >= 87
    requires executor.me == Executor(states[m].system.executions[i].attempt)
    requires executor.Executed(logs, calls, states[m].log, states[n].log, outcome)
    ensures |logs| == |calls| <= 87
    ensures TurnAnswered(ShippedPlan(), executor.isContract, executor.handlers, executor.me, logs[|logs| - 1],
                         states[n].log, Some(outcome), calls[|logs| - 1])
  {
    hide Follows, TurnAnswered, Trail, LegalLog, DisciplinedLog, Undisturbed, IsRunning;
    RunningExecutionIsUndisturbed(site, states, events, m, n, i);
    Prefix(site, states, events, n);
    LogIsLegal(site, states[..n + 1], events[..n]);
    NeverEmpty(site, states, events, m);
    DecisionLimitIsNeverReached(executor, logs, calls, states[m].log, states[n].log, outcome);
  }

  lemma NeverEmpty(site: Site, states: seq<Deployment>, events: seq<Event>, n: nat)
    requires Course(site, states, events) && n < |states|
    ensures states[n].log != []
  {
    hide Follows, Legal;
    Prefix(site, states, events, n);
    LogIsLegal(site, states[..n + 1], events[..n]);
  }
}
