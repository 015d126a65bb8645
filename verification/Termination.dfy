/** An executor that no other writer disturbs reaches a stop: every write it makes descends in a
    lexicographic order, whatever its handlers return, so the loop does not rely on its decision limit. */
module Termination {
  import opened Vocabulary
  import opened StageGraph
  import opened Workflows
  import opened Supervisor
  import opened VersionLog
  import opened Freshness
  import opened Budgets

  predicate RevisingNow(plan: Plan, log: Log)
    requires log != []
  {
    OpenOf(plan, log).Open? && OpenOf(plan, log).run.action == Revise
  }

  /** A revision request that exists and is not being served, or that an open review may still make. */
  predicate RequestOutstanding(plan: Plan, log: Log)
    requires log != []
  {
    MayRequest(plan, log) || (Pending01(Head(log)) == 1 && !RevisingNow(plan, log))
  }

  ghost function Undone(plan: Plan, p: Progress): set<Stage> {
    Stages(plan) - DoneStages(p)
  }

  /** Writes the open execution still owes: its remaining outputs, a history mark, its completion. */
  function OwedWrites(plan: Plan, log: Log): nat
    requires log != []
  {
    match OpenOf(plan, log)
    case Closed => 0
    case Open(_, run, n) =>
      if Last(log).note.Marked? || n > |OutputsOf(plan, run.stage)| then 1
      else |OutputsOf(plan, run.stage)| - n + 2
  }

  datatype Measure = Measure(attempts: nat, request: bool, undone: nat, owed: nat)

  ghost function MeasureOf(plan: Plan, log: Log): Measure
    requires log != []
  {
    var p := ProgressOf(Head(log));
    Measure(StageBudget(plan, p), RequestOutstanding(plan, log), |Undone(plan, p)|, OwedWrites(plan, log))
  }

  predicate Below(a: Measure, b: Measure) {
    || a.attempts < b.attempts
    || (a.attempts == b.attempts && !a.request && b.request)
    || (a.attempts == b.attempts && a.request == b.request && a.undone < b.undone)
    || (a.attempts == b.attempts && a.request == b.request && a.undone == b.undone && a.owed < b.owed)
  }

  predicate IsStop(e: Entry) {
    e.note.Decided? && e.note.decision.action == Stop
  }

  /** Back at the top of the loop, an executor leaves no request it was to make or close. */
  lemma FreeOwesNothing(plan: Plan, log: Log)
    requires RunInv(plan, log) && LegalLog(plan, log) && |log| > 1 && Free(plan, Last(log))
    ensures !MayRequest(plan, log)
    ensures RevisingNow(plan, log) ==> Pending01(Head(log)) == 0
  {
    hide HeadInv, FirstUndone, WrittenSince, Legal, MarkedHistory;
    match Last(log).note
    case Marked(run) =>
      MarkSpends(plan, log[..|log| - 1], Last(log));
      assert log[..|log| - 1] + [Last(log)] == log;
    case Produced(run, k) =>
      MarkingClosesThePendingRevision(Head(log), run.stage);
      assert OutputsOf(plan, run.stage)[..k + 1] == OutputsOf(plan, run.stage);
    case Decided(d, _) =>
      if Runs(d) {
        MarkingClosesThePendingRevision(Head(log), d.next.value);
      }
    case _ =>
  }

  lemma AttemptsNeverGrow(plan: Plan, p: Progress, d: Decision)
    requires UniqueStages(plan) && Runs(d) && Listed(plan, d.next.value)
    ensures
      var p2 := Recorded(plan, p, d);
      && StageBudget(plan, p2) <= StageBudget(plan, p)
      && (AttemptsOf(p, d.next.value) < PolicyOf(plan, d.next.value).maxAttempts ==>
           StageBudget(plan, p2) < StageBudget(plan, p))
  {
    hide AttemptsOf, Listed, Recorded;
    AttemptsAfterDecision(plan, p, d);
    BudgetsAfterAttempt(plan, p, Recorded(plan, p, d), d.next.value);
  }

  lemma StartDescends(plan: Plan, log: Log, e: Entry)
    requires RevisionSafe(plan) && RunInv(plan, log) && Legal(plan, log, e) && e.note.Decided?
    requires e.note.decision.action in {Continue, Retry}
    ensures StageBudget(plan, ProgressOf(e.state)) < StageBudget(plan, ProgressOf(Head(log)))
  {
    hide Legal, Recorded, Decide, HeadInv, OpenInv, AttemptsOf, Listed, Acyclic, KnownDependencies, Topological;
    hide DisjointOutputs, ReviewersGuardTheRest;
    DecisionKeepsHistory(plan, log, e);
    StartedBelowLimit(plan, Head(log), e.note.available, e.note.decision);
    AttemptsNeverGrow(plan, ProgressOf(Head(log)), e.note.decision);
  }

  /** A revision that is taken up is no longer outstanding. */
  lemma ReviseDescends(plan: Plan, log: Log, e: Entry)
    requires RevisionSafe(plan) && RunInv(plan, log) && LegalLog(plan, log) && |log| > 1 && Legal(plan, log, e)
    requires e.note.Decided?
    requires Last(log).author == e.author && e.note.decision.action == Revise
    ensures StageBudget(plan, ProgressOf(e.state)) <= StageBudget(plan, ProgressOf(Head(log)))
    ensures RequestOutstanding(plan, log) && !RequestOutstanding(plan, log + [e])
  {
    hide Legal, LegalLog, Recorded, Decide, HeadInv, OpenInv, Listed, Free, Acyclic, KnownDependencies, Topological;
    hide DisjointOutputs, ReviewersGuardTheRest;
    DecisionKeepsHistory(plan, log, e);
    ActionOrigin(plan, Head(log), e.note.available);
    AttemptsNeverGrow(plan, ProgressOf(Head(log)), e.note.decision);
    WriterFacts(plan, log, e);
    NewestIsLast(log, e.author);
    FreeOwesNothing(plan, log);
  }

  lemma SkipDescends(plan: Plan, log: Log, e: Entry)
    requires RevisionSafe(plan) && RunInv(plan, log) && LegalLog(plan, log) && |log| > 1 && Legal(plan, log, e)
    requires e.note.Decided?
    requires Last(log).author == e.author && e.note.decision.action == Skip
    ensures StageBudget(plan, ProgressOf(e.state)) == StageBudget(plan, ProgressOf(Head(log)))
    ensures !RequestOutstanding(plan, log) && !RequestOutstanding(plan, log + [e])
    ensures |Undone(plan, ProgressOf(e.state))| < |Undone(plan, ProgressOf(Head(log)))|
  {
    hide Legal, LegalLog, Recorded, Decide, HeadInv, OpenInv, Listed, Free, Acyclic, KnownDependencies, DisjointOutputs;
    hide ReviewersGuardTheRest, Stages, DoneStages, SameAttempts, Topological;
    var p, d := ProgressOf(Head(log)), e.note.decision;
    DecisionKeepsHistory(plan, log, e);
    var j := RoutedStage(plan, Head(log), e.note.available, d);
    AttemptsAfterDecision(plan, p, d);
    BudgetsUnchanged(plan, p, ProgressOf(e.state));
    WriterFacts(plan, log, e);
    NewestIsLast(log, e.author);
    FreeOwesNothing(plan, log);
    RecordedSets(plan, p, d);
    OneFewerUndone(plan, DoneStages(p), j);
  }

  lemma OneFewerUndone(plan: Plan, done: set<Stage>, j: nat)
    requires j < |plan| && plan[j].stage !in done
    ensures |Stages(plan) - (done + {plan[j].stage})| < |Stages(plan) - done|
  {
    assert Listed(plan, plan[j].stage);
    assert Stages(plan) - done == (Stages(plan) - (done + {plan[j].stage})) + {plan[j].stage};
  }

  lemma OutputDescends(plan: Plan, log: Log, e: Entry)
    requires RevisionSafe(plan) && RunInv(plan, log) && LegalLog(plan, log) && Legal(plan, log, e)
    requires Disciplined(plan, log, e)
    requires e.note.Produced?
    ensures ProgressOf(e.state) == ProgressOf(Head(log))
    ensures RequestOutstanding(plan, log + [e]) ==> RequestOutstanding(plan, log)
    ensures OwedWrites(plan, log + [e]) < OwedWrites(plan, log)
  {
    hide RevisionSafe, MayDecide, Decide, Recorded, MarkedHistory, MayRequest, HeadInv, OpenInv, Disciplined, LegalLog;
    OutputSpends(plan, log, e);
    MarkedHasNoMoreOutputs(plan, log, e);
    assert RevisingNow(plan, log + [e]) == RevisingNow(plan, log);
    if RevisingNow(plan, log) {
      RevisingCannotRequest(plan, log + [e]);
    }
  }

  lemma RevisingCannotRequest(plan: Plan, log: Log)
    requires log != [] && RevisingNow(plan, log)
    ensures !MayRequest(plan, log)
  {
  }

  /** Outputs come before the history mark. */
  lemma MarkedHasNoMoreOutputs(plan: Plan, log: Log, e: Entry)
    requires log != [] && Legal(plan, log, e) && e.note.Produced?
    ensures !Last(log).note.Marked?
  {
    hide MayDecide, Decide, Recorded, MarkedHistory;
  }

  lemma MarkDescends(plan: Plan, log: Log, e: Entry)
    requires RevisionSafe(plan) && RunInv(plan, log) && LegalLog(plan, log) && Legal(plan, log, e) && |log| > 1
    requires e.note.Marked?
    ensures ProgressOf(e.state) == ProgressOf(Head(log))
    ensures !RequestOutstanding(plan, log + [e])
    ensures OwedWrites(plan, log + [e]) < OwedWrites(plan, log)
  {
    hide RevisionSafe, MayDecide, Decide, Recorded, MarkedHistory, MayRequest, HeadInv, OpenInv, LegalLog;
    hide MarkingChanges;
    MarkSpends(plan, log, e);
    MarkedOnce(plan, log, e.note.run);
  }

  /** A completed revision has closed its request. */
  lemma CommitLeavesNoNewRequest(plan: Plan, log: Log, e: Entry)
    requires RunInv(plan, log) && Legal(plan, log, e) && e.note.Committed?
    ensures RequestOutstanding(plan, log + [e]) ==> RequestOutstanding(plan, log)
  {
    hide MayDecide, Decide, Recorded, MarkedHistory, HeadInv, FirstUndone, WrittenSince, PendingTarget, MayRequest;
    CommitSpends(plan, log, e);
    ClosedMayNotRequest(plan, log, e);
    MarkingClosesThePendingRevision(Head(log), e.note.run.stage);
  }

  lemma CommittedStage(plan: Plan, log: Log, e: Entry)
    requires RunInv(plan, log) && Legal(plan, log, e) && e.note.Committed?
    ensures Listed(plan, e.note.run.stage)
    ensures FirstUndone(plan, DoneStages(ProgressOf(Head(log))), IndexOf(plan, e.note.run.stage))
    ensures ProgressOf(e.state) == CompletedProgress(ProgressOf(Head(log)), e.note.run.stage)
  {
    hide MayDecide, Decide, Recorded, MarkedHistory, HeadInv, FirstUndone, WrittenSince, PendingTarget;
    hide CompletedProgress, RequestInv;
  }

  lemma CommitDescends(plan: Plan, log: Log, e: Entry)
    requires RevisionSafe(plan) && RunInv(plan, log) && Legal(plan, log, e) && e.note.Committed?
    ensures StageBudget(plan, ProgressOf(e.state)) == StageBudget(plan, ProgressOf(Head(log)))
    ensures RequestOutstanding(plan, log + [e]) ==> RequestOutstanding(plan, log)
    ensures |Undone(plan, ProgressOf(e.state))| < |Undone(plan, ProgressOf(Head(log)))|
  {
    hide RevisionSafe, Legal, HeadInv, OpenInv, CompletedProgress, Stages, DoneStages, SameAttempts, RequestOutstanding;
    hide StageBudget;
    CommitSpends(plan, log, e);
    BudgetsUnchanged(plan, ProgressOf(Head(log)), ProgressOf(e.state));
    CommitLeavesNoNewRequest(plan, log, e);
    CommittedStage(plan, log, e);
    CompletedSets(ProgressOf(Head(log)), e.note.run.stage);
    OneFewerUndone(plan, DoneStages(ProgressOf(Head(log))), IndexOf(plan, e.note.run.stage));
  }

  /** Every write of an undisturbed executor that is not a stop descends: attempts first, then
      outstanding requests, then undone stages, then the writes the open execution owes. */
  lemma EveryWriteDescends(plan: Plan, log: Log, e: Entry)
    requires RevisionSafe(plan) && LegalLog(plan, log + [e]) && DisciplinedLog(plan, log + [e]) && |log| > 1
    requires e.author.Executor? && Last(log).author == e.author && !IsStop(e)
    ensures Below(MeasureOf(plan, log + [e]), MeasureOf(plan, log))
  {
    hide RevisionSafe, Legal, RunInv, Disciplined, LegalLog, RequestOutstanding, OwedWrites, Undone, StageBudget;
    UnfoldLast(plan, log, e);
    RunKeepsInv(plan, log);
    WriterFacts(plan, log, e);
    match e.note
    case Decided(d, available) =>
      DecisionKeepsHistory(plan, log, e);
      match d.action {
        case Revise => ReviseDescends(plan, log, e);
        case Skip => SkipDescends(plan, log, e);
        case _ => StartDescends(plan, log, e);
      }
    case Produced(_, _) => OutputDescends(plan, log, e);
    case Marked(_) => MarkDescends(plan, log, e);
    case Committed(_) => CommitDescends(plan, log, e);
    case _ =>
  }

  lemma UnfoldLast(plan: Plan, log: Log, e: Entry)
    requires log != [] && LegalLog(plan, log + [e]) && DisciplinedLog(plan, log + [e])
    ensures LegalLog(plan, log) && Legal(plan, log, e)
    ensures DisciplinedLog(plan, log) && Disciplined(plan, log, e)
  {
    hide Legal, Disciplined;
    assert (log + [e])[..|log|] == log;
  }

  // ----- A bound on the number of writes ------------------------------------------------

  function MostOutputs(plan: Plan): (r: nat)
    ensures forall i :: 0 <= i < |plan| ==> |plan[i].outputs| <= r
  {
    if plan == [] then 0
    else
      var init := MostOutputs(plan[..|plan| - 1]);
      assert forall i :: 0 <= i < |plan| - 1 ==> plan[..|plan| - 1][i] == plan[i];
      var last := |plan[|plan| - 1].outputs|;
      if init < last then last else init
  }

  /** The measure as one number. */
  function Weight(plan: Plan, m: Measure): nat {
    ((m.attempts * 2 + if m.request then 1 else 0) * (|plan| + 1) + m.undone) * (MostOutputs(plan) + 3) + m.owed
  }

  predicate InRange(plan: Plan, m: Measure) {
    m.attempts <= SumOfLimits(plan) && m.undone <= |plan| && m.owed <= MostOutputs(plan) + 2
  }

  lemma ProductBelow(a: nat, b: nat, r: nat, n: nat)
    requires a < b && r < n
    ensures a * n + r < b * n
  {
    assert (a + 1) * n <= b * n;
  }

  lemma WeightDescends(plan: Plan, a: Measure, b: Measure)
    requires Below(a, b) && InRange(plan, a)
    ensures Weight(plan, a) < Weight(plan, b)
  {
    var n, c := |plan| + 1, MostOutputs(plan) + 3;
    var x := a.attempts * 2 + if a.request then 1 else 0;
    var y := b.attempts * 2 + if b.request then 1 else 0;
    if x < y {
      ProductBelow(x, y, a.undone, n);
    } else {
      assert x == y;
    }
    var p, q := x * n + a.undone, y * n + b.undone;
    if p < q {
      ProductBelow(p, q, a.owed, c);
    }
  }

  /** The largest weight any version of a generation can have. */
  function WeightLimit(plan: Plan): nat {
    ((SumOfLimits(plan) * 2 + 1) * (|plan| + 1) + |plan|) * (MostOutputs(plan) + 3) + MostOutputs(plan) + 2
  }

  lemma WeightIsLimited(plan: Plan, m: Measure)
    requires InRange(plan, m)
    ensures Weight(plan, m) <= WeightLimit(plan)
  {
    var n, c := |plan| + 1, MostOutputs(plan) + 3;
    var x, y := m.attempts * 2 + (if m.request then 1 else 0), SumOfLimits(plan) * 2 + 1;
    ProductAtMost(x, y, n);
    ProductAtMost(x * n + m.undone, y * n + |plan|, c);
  }

  lemma ProductAtMost(a: nat, b: nat, n: nat)
    requires a <= b
    ensures a * n <= b * n
  {
    assert b * n == a * n + (b - a) * n;
  }

  lemma {:induction false} BudgetIsLimited(plan: Plan, p: Progress)
    ensures StageBudget(plan, p) <= SumOfLimits(plan)
    decreases |plan|
  {
    if plan != [] {
      BudgetIsLimited(plan[..|plan| - 1], p);
    }
  }

  lemma MeasureInRange(plan: Plan, log: Log)
    requires log != [] && UniqueStages(plan)
    ensures InRange(plan, MeasureOf(plan, log))
  {
    hide RequestOutstanding, SumOfLimits, StageBudget, UniqueStages;
    BudgetIsLimited(plan, ProgressOf(Head(log)));
    StagesCardinality(plan);
    SubsetCardinality(Undone(plan, ProgressOf(Head(log))), Stages(plan));
    OwedIsSmall(plan, log);
  }

  lemma OwedIsSmall(plan: Plan, log: Log)
    requires log != []
    ensures OwedWrites(plan, log) <= MostOutputs(plan) + 2
  {
  }

  /** Termination: a block of consecutive versions written by one executor, none of them a stop, is
      paid for by the weight of its first version, so no block exceeds a bound fixed by the plan. */
  lemma {:induction false} UndisturbedRunEnds(plan: Plan, log: Log, i: nat, j: nat, a: Author)
    requires RevisionSafe(plan) && LegalLog(plan, log) && DisciplinedLog(plan, log)
    requires 1 <= i <= j < |log| && a.Executor?
    requires forall v :: i <= v <= j ==> log[v].author == a && !IsStop(log[v])
    ensures Weight(plan, MeasureOf(plan, log[..j + 1])) + (j - i) <= Weight(plan, MeasureOf(plan, log[..i + 1]))
    ensures j - i <= WeightLimit(plan)
    decreases j
  {
    hide RevisionSafe, LegalLog, DisciplinedLog, MeasureOf, Weight, WeightLimit, InRange, Below, IsStop;
    assert UniqueStages(plan) by { SafeIsUnique(plan); }
    MeasureInRange(plan, log[..i + 1]);
    WeightIsLimited(plan, MeasureOf(plan, log[..i + 1]));
    if i < j {
      UndisturbedRunEnds(plan, log, i, j - 1, a);
      var before, after := log[..j], log[..j + 1];
      assert after == before + [log[j]];
      LegalPrefix(plan, log, j + 1);
      DisciplinedPrefix(plan, log, j + 1);
      EveryWriteDescends(plan, before, log[j]);
      MeasureInRange(plan, after);
      WeightDescends(plan, MeasureOf(plan, after), MeasureOf(plan, before));
    }
  }

  lemma SafeIsUnique(plan: Plan)
    requires RevisionSafe(plan)
    ensures UniqueStages(plan)
  {
  }
}
