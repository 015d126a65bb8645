/** How much work a generation can cost: every handler execution is paid for by a stage attempt, a
    revision request or a claim of the job, and an undisturbed executor runs out of writes. */
module Budgets {
  import opened Vocabulary
  import opened StageGraph
  import opened Workflows
  import opened Supervisor
  import opened VersionLog
  import opened Freshness

  // ----- Counting attempts --------------------------------------------------------------

  /** Attempts a stage still has before its retry limit. */
  function AttemptsLeft(policy: Policy, p: Progress): nat {
    if AttemptsOf(p, policy.stage) < policy.maxAttempts then policy.maxAttempts - AttemptsOf(p, policy.stage) else 0
  }

  function StageBudget(plan: Plan, p: Progress): nat {
    if plan == [] then 0
    else StageBudget(plan[..|plan| - 1], p) + AttemptsLeft(plan[|plan| - 1], p)
  }

  function ReviewBudget(plan: Plan, p: Progress): nat {
    if plan == [] then 0
    else
      ReviewBudget(plan[..|plan| - 1], p)
      + if Reviewer(plan[|plan| - 1]) then AttemptsLeft(plan[|plan| - 1], p) else 0
  }

  function SumOfLimits(plan: Plan): nat {
    StageBudget(plan, NO_PROGRESS)
  }

  function SumOfReviewLimits(plan: Plan): nat {
    ReviewBudget(plan, NO_PROGRESS)
  }

  /** The progress after one more attempt of stage s. */
  predicate OneMoreAttempt(p: Progress, p2: Progress, s: Stage) {
    forall x :: AttemptsOf(p2, x) == if x == s then AttemptsOf(p, x) + 1 else AttemptsOf(p, x)
  }

  predicate SameAttempts(p: Progress, p2: Progress) {
    forall x :: AttemptsOf(p2, x) == AttemptsOf(p, x)
  }

  lemma {:induction false} BudgetsUnchanged(plan: Plan, p: Progress, p2: Progress)
    requires SameAttempts(p, p2)
    ensures StageBudget(plan, p2) == StageBudget(plan, p) && ReviewBudget(plan, p2) == ReviewBudget(plan, p)
    decreases |plan|
  {
    if plan != [] {
      BudgetsUnchanged(plan[..|plan| - 1], p, p2);
    }
  }

  /** One attempt costs its stage one unit of both budgets while the limit is not reached, and
      costs no other stage anything. */
  lemma {:induction false} BudgetsAfterAttempt(plan: Plan, p: Progress, p2: Progress, s: Stage)
    requires UniqueStages(plan) && OneMoreAttempt(p, p2, s)
    ensures !Listed(plan, s) ==>
      StageBudget(plan, p2) == StageBudget(plan, p) && ReviewBudget(plan, p2) == ReviewBudget(plan, p)
    ensures Listed(plan, s) ==>
      var policy := PolicyOf(plan, s);
      var paid := if AttemptsOf(p, s) < policy.maxAttempts then 1 else 0;
      && StageBudget(plan, p2) == StageBudget(plan, p) - paid
      && ReviewBudget(plan, p2) == ReviewBudget(plan, p) - if Reviewer(policy) then paid else 0
    decreases |plan|
  {
    if plan != [] {
      var init, last := plan[..|plan| - 1], plan[|plan| - 1];
      BudgetsAfterAttempt(init, p, p2, s);
      ListedInPrefix(plan, s);
    }
  }

  lemma ListedInPrefix(plan: Plan, s: Stage)
    requires UniqueStages(plan) && plan != []
    ensures
      var init, last := plan[..|plan| - 1], plan[|plan| - 1];
      && (Listed(plan, s) <==> Listed(init, s) || last.stage == s)
      && !(Listed(init, s) && last.stage == s)
      && (Listed(init, s) ==> PolicyOf(plan, s) == PolicyOf(init, s))
      && (last.stage == s ==> PolicyOf(plan, s) == last)
  {
    var init, last := plan[..|plan| - 1], plan[|plan| - 1];
    if Listed(plan, s) {
      var i :| 0 <= i < |plan| && plan[i].stage == s;
      if i < |init| { assert init[i].stage == s; }
    }
    if Listed(init, s) {
      var i :| 0 <= i < |init| && init[i].stage == s;
      assert plan[i].stage == s;
    }
  }

  lemma AttemptsAfterDecision(plan: Plan, p: Progress, d: Decision)
    ensures
      var p2 := Recorded(plan, p, d);
      && (Runs(d) ==> OneMoreAttempt(p, p2, d.next.value))
      && (d.action in {Skip, Stop} ==> SameAttempts(p, p2))
  {
  }

  // ----- The work bound -----------------------------------------------------------------

  /** Handler executions started: the decisions to run a stage. */
  function Starts(log: Log): nat {
    if log == [] then 0
    else Starts(log[..|log| - 1]) + if Last(log).note.Decided? && Runs(Last(log).note.decision) then 1 else 0
  }

  /** Executors whose newest execution is a revision that has not closed its request. */
  ghost function Stuck(log: Log): set<Author> {
    if log == [] then {}
    else
      var before := Stuck(log[..|log| - 1]);
      var e := Last(log);
      match e.note
      case Decided(d, _) => if Runs(d) && d.action == Revise then before + {e.author} else before
      case Marked(_) => before - {e.author}
      case _ => before
  }

  ghost function Executors(log: Log): set<Author> {
    if log == [] then {}
    else Executors(log[..|log| - 1]) + if Last(log).author.Executor? then {Last(log).author} else {}
  }

  function Pending01(w: Workflow): nat {
    if PendingTarget(w) == Success(None) then 0 else 1
  }

  /** An open review that has not yet written the history may still add one request. */
  predicate MayRequest(plan: Plan, log: Log)
    requires log != []
  {
    match OpenOf(plan, log)
    case Closed => false
    case Open(_, run, n) =>
      && run.action != Revise
      && RevisionHistorySection in OutputsOf(plan, run.stage)
      && n <= |OutputsOf(plan, run.stage)|
      && RevisionHistorySection !in OutputsOf(plan, run.stage)[..n]
  }

  ghost function Spent(plan: Plan, log: Log): nat
    requires log != []
  {
    var p := ProgressOf(Head(log));
    Starts(log) + StageBudget(plan, p) + ReviewBudget(plan, p) + Pending01(Head(log))
    + if MayRequest(plan, log) then 1 else 0
  }

  /** An execution of a revision that still has its request to close. */
  predicate Unsettled(e: Entry) {
    match e.note
    case Decided(d, _) => Runs(d) && d.action == Revise && MarkingChanges(e.state, d.next.value)
    case Produced(run, _) => run.action == Revise && MarkingChanges(e.state, run.stage)
    case _ => false
  }

  /** A stuck executor's newest entry is an unsettled revision, so it raises and never decides again. */
  ghost predicate StuckInv(plan: Plan, log: Log) {
    && Stuck(log) <= Executors(log)
    && forall a :: a in Stuck(log) ==> NewestBy(log, a).Some? && Unsettled(log[NewestBy(log, a).value])
  }

  lemma UnsettledIsNotFree(plan: Plan, e: Entry)
    requires Unsettled(e)
    ensures !Free(plan, e)
  {
  }

  lemma NewestExtends(log: Log, e: Entry, a: Author)
    ensures NewestBy(log + [e], a) == if e.author == a then Some(|log|) else NewestBy(log, a)
  {
    assert (log + [e])[..|log|] == log;
  }

  lemma CountsExtend(log: Log, e: Entry)
    ensures Starts(log + [e]) == Starts(log) + if e.note.Decided? && Runs(e.note.decision) then 1 else 0
    ensures Executors(log + [e]) == Executors(log) + if e.author.Executor? then {e.author} else {}
    ensures Stuck(log + [e]) ==
      match e.note
      case Decided(d, _) => if Runs(d) && d.action == Revise then Stuck(log) + {e.author} else Stuck(log)
      case Marked(_) => Stuck(log) - {e.author}
      case _ => Stuck(log)
  {
    assert (log + [e])[..|log|] == log;
  }

  lemma NewestStaysInLog(log: Log, e: Entry, a: Author)
    requires e.author != a && NewestBy(log, a).Some?
    ensures NewestBy(log + [e], a) == NewestBy(log, a)
    ensures (log + [e])[NewestBy(log, a).value] == log[NewestBy(log, a).value]
  {
    NewestExtends(log, e, a);
  }

  lemma StuckStep(plan: Plan, log: Log, e: Entry)
    requires RevisionSafe(plan) && RunInv(plan, log) && Legal(plan, log, e) && StuckInv(plan, log)
    ensures StuckInv(plan, log + [e])
  {
    hide RevisionSafe, RunInv, Legal, Unsettled, Free, NewestBy, Stuck, Executors;
    var log2 := log + [e];
    CountsExtend(log, e);
    forall a | a in Stuck(log2) ensures NewestBy(log2, a).Some? && Unsettled(log2[NewestBy(log2, a).value]) {
      if a == e.author {
        NewestExtends(log, e, a);
        StuckAuthorStep(plan, log, e);
      } else {
        NewestStaysInLog(log, e, a);
      }
    }
    if e.author in Stuck(log2) {
      StuckAuthorStep(plan, log, e);
    }
  }

  /** What a writer can append while it is, or becomes, stuck. */
  lemma StuckAuthorStep(plan: Plan, log: Log, e: Entry)
    requires RevisionSafe(plan) && RunInv(plan, log) && Legal(plan, log, e) && StuckInv(plan, log)
    requires e.author in Stuck(log + [e])
    ensures Unsettled(e) && e.author.Executor?
  {
    hide Legal, NewestBy, Stuck, Executors, RevisionSafe, Unsettled;
    CountsExtend(log, e);
    WriterFacts(plan, log, e);
    if e.note.Decided? {
      StuckNeverDecides(plan, log, e.author);
      RevisionIsUnsettled(plan, log, e);
    } else {
      StuckAreExecutors(log, e.author);
      NewestIsLast(log, e.author);
      if e.note.Produced? {
        StuckOutputStaysUnsettled(plan, log, e);
      }
    }
  }

  /** Who may append which kind of entry after the newest one. */
  lemma WriterFacts(plan: Plan, log: Log, e: Entry)
    requires log != [] && Legal(plan, log, e)
    ensures e.note.Decided? ==> e.author.Executor? && MayDecide(plan, log, e.author)
    ensures e.note.Produced? || e.note.Marked? || e.note.Committed? ==> Last(log).author == e.author
    ensures e.note.Committed? ==> !Unsettled(Last(log))
    ensures e.note.External? ==> e.author.Api?
    ensures !e.note.Created?
  {
    hide Recorded, MarkedHistory, MayDecide, Decide, Free;
  }

  lemma {:induction false} StuckAreExecutors(log: Log, a: Author)
    requires a in Executors(log)
    ensures a.Executor?
    decreases |log|
  {
    if a !in Executors(log[..|log| - 1]) {
    } else {
      StuckAreExecutors(log[..|log| - 1], a);
    }
  }

  lemma NewestIsLast(log: Log, a: Author)
    requires log != [] && Last(log).author == a
    ensures NewestBy(log, a) == Some(|log| - 1)
  {
  }

  lemma StuckNeverDecides(plan: Plan, log: Log, a: Author)
    requires StuckInv(plan, log) && MayDecide(plan, log, a)
    ensures a !in Stuck(log)
  {
    if a in Stuck(log) {
      UnsettledIsNotFree(plan, log[NewestBy(log, a).value]);
    }
  }

  lemma RevisionIsUnsettled(plan: Plan, log: Log, e: Entry)
    requires log != [] && Legal(plan, log, e) && e.note.Decided?
    ensures Runs(e.note.decision) && e.note.decision.action == Revise ==> Unsettled(e)
  {
    hide Recorded, Decide, MayDecide;
    var d := e.note.decision;
    ActionOrigin(plan, Head(log), e.note.available);
    if Runs(d) && d.action == Revise {
      assert PendingTarget(e.state) == PendingTarget(Head(log));
      MarkingClosesThePendingRevision(e.state, d.next.value);
    }
  }

  lemma StuckOutputStaysUnsettled(plan: Plan, log: Log, e: Entry)
    requires RunInv(plan, log) && Legal(plan, log, e) && e.note.Produced? && Unsettled(Last(log))
    ensures Unsettled(e)
  {
    hide Recorded, HeadInv, FirstUndone, WrittenSince, Decide, MayDecide;
    var run := e.note.run;
    assert !Reviewer(PolicyOf(plan, run.stage));
    OutputKeepsRequests(plan, log, e);
  }

  lemma DecisionKeepsHistory(plan: Plan, log: Log, e: Entry)
    requires log != [] && Legal(plan, log, e) && e.note.Decided?
    ensures Pending01(e.state) == Pending01(Head(log))
    ensures ProgressOf(e.state) == Recorded(plan, ProgressOf(Head(log)), e.note.decision)
    ensures Decide(plan, Head(log), e.note.available) == Success(e.note.decision)
  {
    hide Recorded, MayDecide, Decide;
  }

  /** A stage that is started, not revised, is below its retry limit. */
  lemma StartedBelowLimit(plan: Plan, w: Workflow, available: Option<set<Stage>>, d: Decision)
    requires UniqueStages(plan) && Decide(plan, w, available) == Success(d) && d.action in {Continue, Retry}
    ensures d.next.Some? && Listed(plan, d.next.value)
    ensures AttemptsOf(ProgressOf(w), d.next.value) < PolicyOf(plan, d.next.value).maxAttempts
  {
    hide Decide, Consider, AttemptsOf;
    ActionOrigin(plan, w, available);
    var j :| 0 <= j < |plan| && Scan(plan, 0, w, available) == Consider(plan[j], w, available);
    ConsiderOutcome(plan[j], w, available);
    IndexIsUnique(plan, j);
  }

  /** What each decision costs and what it is paid with. */
  lemma DecisionSpends(plan: Plan, log: Log, e: Entry)
    requires RevisionSafe(plan) && RunInv(plan, log) && Legal(plan, log, e) && e.note.Decided?
    ensures
      var d := e.note.decision;
      var started := if Runs(d) then 1 else 0;
      var p, p2 := ProgressOf(Head(log)), ProgressOf(e.state);
      && started + StageBudget(plan, p2) + ReviewBudget(plan, p2) + (if MayRequest(plan, log + [e]) then 1 else 0)
         <= StageBudget(plan, p) + ReviewBudget(plan, p) + (if Runs(d) && d.action == Revise then 1 else 0)
  {
    hide Recorded, MayDecide, Decide, Legal, HeadInv, OpenInv, AttemptsOf, Acyclic, KnownDependencies, Topological;
    hide DisjointOutputs, ReviewersGuardTheRest;
    var d, p, p2 := e.note.decision, ProgressOf(Head(log)), ProgressOf(e.state);
    DecisionKeepsHistory(plan, log, e);
    AttemptsAfterDecision(plan, p, d);
    ActionOrigin(plan, Head(log), e.note.available);
    if Runs(d) {
      BudgetsAfterAttempt(plan, p, p2, d.next.value);
      if d.action != Revise {
        StartedBelowLimit(plan, Head(log), e.note.available, d);
      }
    } else {
      RunsOrNot(plan, Head(log), e.note.available, d);
      BudgetsUnchanged(plan, p, p2);
    }
  }

  lemma RunsOrNot(plan: Plan, w: Workflow, available: Option<set<Stage>>, d: Decision)
    requires Decide(plan, w, available) == Success(d) && !Runs(d)
    ensures d.action in {Skip, Stop}
  {
    hide Decide, Consider;
    ActionOrigin(plan, w, available);
    if d.action in {Continue, Retry} {
      var j :| 0 <= j < |plan| && Scan(plan, 0, w, available) == Consider(plan[j], w, available);
      ConsiderActions(plan[j], w, available);
    }
  }

  /** A handler output never changes the progress; only a reviewer's history can add a request, and
      only while it still may. */
  lemma OutputSpends(plan: Plan, log: Log, e: Entry)
    requires RevisionSafe(plan) && RunInv(plan, log) && Legal(plan, log, e) && Disciplined(plan, log, e)
    requires e.note.Produced?
    ensures ProgressOf(e.state) == ProgressOf(Head(log))
    ensures Pending01(e.state) + (if MayRequest(plan, log + [e]) then 1 else 0)
         <= Pending01(Head(log)) + (if MayRequest(plan, log) then 1 else 0)
  {
    hide Recorded, HeadInv, FirstUndone, WrittenSince, MayDecide, Decide, Accepted, Topological, DisjointOutputs;
    hide ReviewersGuardTheRest, Appends, PendingTarget;
    OutputKeepsProgress(plan, log, e);
    var run, k := e.note.run, e.note.k;
    var outputs := OutputsOf(plan, run.stage);
    assert outputs[..k + 1] == outputs[..k] + [outputs[k]];
    if outputs[k] == RevisionHistorySection {
      OutputsAreDistinct(plan, run.stage);
    } else {
      OutputKeepsRequests(plan, log, e);
    }
  }

  lemma MarkSpends(plan: Plan, log: Log, e: Entry)
    requires log != [] && Legal(plan, log, e) && e.note.Marked?
    ensures ProgressOf(e.state) == ProgressOf(Head(log))
    ensures Pending01(Head(log)) == 1 && Pending01(e.state) == 0
    ensures !MayRequest(plan, log + [e])
  {
    hide MarkedHistory, PendingTarget, MayDecide, Decide;
    var run := e.note.run;
    MarkingClosesThePendingRevision(Head(log), run.stage);
    var outputs := OutputsOf(plan, run.stage);
    assert outputs[..|outputs|] == outputs;
  }

  lemma CommitSpends(plan: Plan, log: Log, e: Entry)
    requires log != [] && Legal(plan, log, e) && e.note.Committed?
    ensures SameAttempts(ProgressOf(Head(log)), ProgressOf(e.state))
    ensures Pending01(e.state) == Pending01(Head(log))
  {
    hide MarkedHistory, MayDecide, Decide;
  }

  lemma ExternalSpends(plan: Plan, log: Log, e: Entry)
    requires log != [] && Legal(plan, log, e) && Disciplined(plan, log, e) && e.note.External?
    ensures ProgressOf(e.state) == ProgressOf(Head(log))
    ensures Pending01(e.state) == Pending01(Head(log))
  {
    hide MarkedHistory, MayDecide, Decide;
  }

  lemma OneFewerStuck(stuck: set<Author>, a: Author)
    ensures |stuck| <= |stuck - {a}| + 1
  {
    assert stuck - {a} + (stuck * {a}) == stuck;
    SubsetCardinality(stuck * {a}, {a});
  }

  lemma SpentStep(plan: Plan, log: Log, e: Entry)
    requires RevisionSafe(plan) && RunInv(plan, log) && Legal(plan, log, e) && Disciplined(plan, log, e)
    requires StuckInv(plan, log)
    ensures Spent(plan, log + [e]) + |Stuck(log)| <= Spent(plan, log) + |Stuck(log + [e])|
  {
    hide RevisionSafe, Legal, Disciplined, MayRequest, Pending01, Stuck, Executors, Starts, StageBudget, ReviewBudget;
    hide SameAttempts;
    CountsExtend(log, e);
    WriterFacts(plan, log, e);
    match e.note
    case Decided(d, _) =>
      StuckNeverDecides(plan, log, e.author);
      DecisionKeepsHistory(plan, log, e);
      DecisionSpends(plan, log, e);
    case Produced(_, _) =>
      OutputSpends(plan, log, e);
    case Marked(_) =>
      MarkSpends(plan, log, e);
      OneFewerStuck(Stuck(log), e.author);
    case Committed(_) =>
      CommitSpends(plan, log, e);
      BudgetsUnchanged(plan, ProgressOf(Head(log)), ProgressOf(e.state));
      ClosedMayNotRequest(plan, log, e);
    case External =>
      ExternalSpends(plan, log, e);
      ClosedMayNotRequest(plan, log, e);
    case Created =>
  }

  lemma ClosedMayNotRequest(plan: Plan, log: Log, e: Entry)
    requires e.note.Committed? || e.note.External?
    ensures !MayRequest(plan, log + [e])
  {
  }

  lemma {:induction false} WorkIsPaidFor(plan: Plan, log: Log)
    requires RevisionSafe(plan) && LegalLog(plan, log) && DisciplinedLog(plan, log)
    ensures StuckInv(plan, log)
    ensures Spent(plan, log) <= SumOfLimits(plan) + SumOfReviewLimits(plan) + |Stuck(log)|
    decreases |log|
  {
    hide RevisionSafe, Legal, Disciplined, Spent, SumOfLimits, SumOfReviewLimits, Stuck, StuckInv, RunInv;
    if |log| == 1 {
      assert log == [InitialEntry()];
      InitialSpending(plan);
    } else {
      var init, e := log[..|log| - 1], Last(log);
      assert init + [e] == log;
      WorkIsPaidFor(plan, init);
      RunKeepsInv(plan, init);
      StuckStep(plan, init, e);
      SpentStep(plan, init, e);
    }
  }

  lemma InitialSpending(plan: Plan)
    ensures StuckInv(plan, [InitialEntry()]) && Stuck([InitialEntry()]) == {}
    ensures Spent(plan, [InitialEntry()]) <= SumOfLimits(plan) + SumOfReviewLimits(plan)
  {
    assert HistoryOf(EmptyWorkflow()) == [];
    assert ProgressOf(EmptyWorkflow()) == NO_PROGRESS;
  }

  /** Lifetime work bound. Over all claims of a job, with any number of executors interleaved and
      crashing anywhere, the handlers of a generation start at most once per stage attempt, once
      more per attempt of a stage that may request a revision, and once more per claim. */
  lemma HandlerStartsAreBounded(plan: Plan, log: Log)
    requires RevisionSafe(plan) && LegalLog(plan, log) && DisciplinedLog(plan, log)
    ensures Starts(log) <= SumOfLimits(plan) + SumOfReviewLimits(plan) + |Executors(log)|
  {
    hide RevisionSafe, LegalLog, DisciplinedLog, Stuck, Executors, StageBudget, ReviewBudget;
    WorkIsPaidFor(plan, log);
    SubsetCardinality(Stuck(log), Executors(log));
  }
}
