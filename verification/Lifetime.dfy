/** The layers together: a leased job, the executors its claims start, and the version log they
    write. */
module Lifetime {
  import opened Vocabulary
  import opened StageGraph
  import opened VersionLog
  import opened Freshness
  import opened Budgets
  import opened DefaultPlan
  import JobQueue
  import Leases

  /** Every executor in the log was started by a claim of this job, and is named by its attempt. */
  ghost predicate StartedByClaims(s: Leases.System, id: JobQueue.JobId, log: Log) {
    forall v :: 0 <= v < |log| && log[v].author.Executor? ==> ClaimedAs(s, id, log[v].author.id)
  }

  predicate ClaimedAs(s: Leases.System, id: JobQueue.JobId, attempt: nat) {
    exists i :: 0 <= i < |s.executions| && s.executions[i].job == id && s.executions[i].attempt == attempt
  }

  function AttemptAuthors(n: nat): set<Author> {
    if n == 0 then {} else AttemptAuthors(n - 1) + {Executor(n)}
  }

  lemma {:induction false} AttemptAuthorsAre(n: nat)
    ensures forall k: nat :: Executor(k) in AttemptAuthors(n) <==> 1 <= k <= n
    ensures |AttemptAuthors(n)| == n
    decreases n
  {
    if n > 0 {
      AttemptAuthorsAre(n - 1);
      assert Executor(n) !in AttemptAuthors(n - 1);
    }
  }

  lemma {:induction false} ExecutorsWithin(log: Log, n: nat)
    requires forall v :: 0 <= v < |log| && log[v].author.Executor? ==> 1 <= log[v].author.id <= n
    ensures Executors(log) <= AttemptAuthors(n)
    decreases |log|
  {
    AttemptAuthorsAre(n);
    if log != [] {
      ExecutorsWithin(log[..|log| - 1], n);
    }
  }

  /** Lifetime work bound across the layers. Over every claim, retry, lease expiry and crash of a
      generation's job, its stage handlers start at most as often as the stages' attempt limits add
      up to, plus the limits of the reviewing stages, plus the job's own max_attempts. */
  lemma LifetimeWorkBound(c: Leases.Settings, steps: seq<Leases.Step>, id: JobQueue.JobId, plan: Plan, log: Log)
    requires Leases.After(c, steps).Some?
    requires id in Leases.After(c, steps).value.queue.jobs
    requires StartedByClaims(Leases.After(c, steps).value, id, log)
    requires RevisionSafe(plan) && LegalLog(plan, log) && DisciplinedLog(plan, log)
    ensures Starts(log) <=
      SumOfLimits(plan) + SumOfReviewLimits(plan) + Leases.After(c, steps).value.queue.jobs[id].maxAttempts
  {
    hide Leases.After, RevisionSafe, LegalLog, DisciplinedLog, SumOfLimits, SumOfReviewLimits, Executors;
    hide AttemptAuthors;
    var s := Leases.After(c, steps).value;
    var n := s.queue.jobs[id].maxAttempts;
    forall v | 0 <= v < |log| && log[v].author.Executor? ensures 1 <= log[v].author.id <= n {
      assert ClaimedAs(s, id, log[v].author.id);
      var i :| 0 <= i < |s.executions| && s.executions[i].job == id && s.executions[i].attempt == log[v].author.id;
      Leases.ClaimsWithinLimit(c, steps, i);
    }
    ExecutorsWithin(log, n);
    AttemptAuthorsAre(n);
    SubsetCardinality(Executors(log), AttemptAuthors(n));
    HandlerStartsAreBounded(plan, log);
  }
}
