/** How many decisions an execution takes when nobody else writes: few enough that the executor's
    limit never ends it. */
module DecisionLimit {
  import opened Vocabulary
  import opened StageGraph
  import opened Workflows
  import opened Supervisor
  import opened VersionLog
  import opened Freshness
  import opened Budgets
  import opened Termination
  import opened SuppliedContracts
  import opened CheckpointStores
  import opened Executors
  import opened DefaultPlan

  /** Stages passed without running. */
  function Skips(log: Log): nat {
    if log == [] then 0
    else Skips(log[..|log| - 1]) + if Last(log).note.Decided? && Last(log).note.decision.action == Skip then 1 else 0
  }

  /** Everything from a version on was written by one writer. */
  predicate Undisturbed(log: Log, n: nat, me: Author) {
    n <= |log| && forall v :: n <= v < |log| ==> log[v].author == me
  }

  lemma SkipsExtend(log: Log, e: Entry)
    ensures Skips(log + [e]) == Skips(log) + if e.note.Decided? && e.note.decision.action == Skip then 1 else 0
    ensures Starts(log + [e]) == Starts(log) + if e.note.Decided? && Runs(e.note.decision) then 1 else 0
  {
    assert (log + [e])[..|log|] == log;
  }

  /** Between two versions without a decision no stage is started or skipped. */
  lemma {:induction false} NoDecisionsBetween(log: Log, n: nat)
    requires n <= |log| && forall v :: n <= v < |log| ==> !log[v].note.Decided?
    ensures Skips(log) == Skips(log[..n]) && Starts(log) == Starts(log[..n])
    decreases |log|
  {
    if n == |log| {
      assert log[..n] == log;
    } else {
      var init := log[..|log| - 1];
      assert init[..n] == log[..n] && init + [Last(log)] == log;
      NoDecisionsBetween(init, n);
      SkipsExtend(init, Last(log));
    }
  }

  // ----- One undisturbed turn -------------------------------------------------------------

  /** Where an undisturbed turn that goes on can leave the log. */
  ghost predicate AtRest(log: Log) {
    log != [] && match Last(log).note
                 case Decided(d, _) => d.action == Skip
                 case Committed(_) => true
                 case _ => false
  }

  lemma WritersLast(log: Log, n: nat, me: Author)
    requires Undisturbed(log, n, me) && n < |log|
    ensures NewestBy(log, me) == Some(|log| - 1)
  {
  }

  /** An execution that was completed took one decision, at its base. */
  lemma CommittedTurn(plan: Plan, log: Log, run: Run, v: nat)
    requires LegalLog(plan, log) && |log| > 1 && Last(log).note == Committed(run) && run.base == v + 1
    ensures v < |log| && forall u :: v < u < |log| ==> !log[u].note.Decided?
  {
    hide Legal, OpenOf;
    var init := log[..|log| - 1];
    CommitEndsOpen(plan, init, Last(log));
    OpenIsUnbroken(plan, init);
    forall u | v < u < |log| ensures !log[u].note.Decided? {
      if u < |init| {
        assert StepOfRun(plan, init, Last(log).author, run, u - v);
        assert init[u] == log[u];
      }
    }
  }

  /** A turn that goes on, with nobody else writing, takes exactly one decision: a skip, or a run that is
      completed. */
  lemma UndisturbedTurn(plan: Plan, handlers: set<Stage>, me: Author, log: Log, later: Log)
    requires TurnMade(plan, handlers, me, log, later, None) && LegalLog(plan, later)
    requires log != [] && Undisturbed(later, |log|, me)
    ensures |log| < |later| && later[|log|].note.Decided? && AtRest(later)
    ensures Starts(later) + Skips(later) == Starts(log) + Skips(log) + 1
    ensures later[|log|].note.decision.action == Skip ==> later == log + [later[|log|]]
    ensures Skips(later) == Skips(log) + if later[|log|].note.decision.action == Skip then 1 else 0
  {
    hide Decide, LegalLog, OpenOf, OutputsOf, MarkingChanges, Starts, Skips;
    var v: nat :| TurnFrom(plan, handlers, me, log, later, None, v);
    assert forall u :: 0 <= u < v ==> later[..v][u] == later[u];
    assert v == |log|;
    assert later[v].author == me && later[v].note.Decided?;
    var d := later[v].note.decision;
    WritersLast(later, v, me);
    var decided := log + [later[v]];
    assert later[..v + 1] == decided;
    SkipsExtend(log, later[v]);
    if d.action == Skip {
      assert later == decided;
    } else {
      var run := Run(d.next.value, d.action, v + 1);
      assert Last(later).note == Committed(run);
      CommittedTurn(plan, later, run, v);
      NoDecisionsBetween(later, v + 1);
    }
  }

  // ----- Skips ----------------------------------------------------------------------------

  ghost predicate OwnsAnother(policy: Policy) {
    exists x :: Owns(policy, x) && x != SemanticContractSection
  }

  /** Stage c owns the contract, and every other stage a section of its own. */
  ghost predicate ContractAt(plan: Plan, c: nat) {
    && c < |plan| && Owns(plan[c], SemanticContractSection)
    && forall j :: 0 <= j < |plan| && j != c ==> OwnsAnother(plan[j])
  }

  /** At rest, the handlers of undone stages that are not stale have written nothing. */
  lemma AtRestUntouched(plan: Plan, log: Log, j: nat)
    requires RevisionSafe(plan) && LegalLog(plan, log) && DisciplinedLog(plan, log) && |log| > 1 && AtRest(log)
    requires j < |plan| && Young(plan[j], Head(log))
    ensures Untouched(plan[j], WrittenAt(log), ReadAt(log))
  {
    hide Legal, Disciplined, RevisionSafe, RunInv, DoneStages, Untouched, WrittenAt, ReadAt;
    var init, e := log[..|log| - 1], Last(log);
    assert init + [e] == log;
    RunKeepsInv(plan, init);
    if e.note.Decided? {
      SkippedBefore(plan, init, e, j);
    } else {
      CommittedBefore(plan, init, e, j);
    }
    OthersWrite(plan, init, e, j);
  }

  lemma OthersWrite(plan: Plan, log: Log, e: Entry, j: nat)
    requires RevisionSafe(plan) && j < |plan| && e.changed == Some(SupervisorSection)
    requires Untouched(plan[j], WrittenAt(log), ReadAt(log))
    ensures Untouched(plan[j], WrittenAt(log + [e]), ReadAt(log + [e]))
  {
    hide Topological, DisjointOutputs, ReviewersGuardTheRest, WrittenAt, ReadAt;
    SupervisorIsUnowned(plan);
    StampsExtend(log, e);
  }

  lemma SkippedBefore(plan: Plan, log: Log, e: Entry, j: nat)
    requires log != [] && RevisionSafe(plan) && RunInv(plan, log) && Legal(plan, log, e)
    requires e.note.Decided? && e.note.decision.action == Skip && j < |plan| && Young(plan[j], e.state)
    ensures e.changed == Some(SupervisorSection)
    ensures Untouched(plan[j], WrittenAt(log), ReadAt(log))
  {
    hide Legal, FreshStage, Touched, Untouched, OpenInv, PendingInv, PresentWasWritten, Decide, Recorded;
    hide Acyclic, KnownDependencies, ReviewersGuardTheRest, DisjointOutputs, DependencyClosed;
    var w, d := Head(log), e.note.decision;
    DecisionShape(plan, log, e);
    DecisionKeepsYoung(plan, log, e, j);
    var i := RoutedStage(plan, w, e.note.available, d);
    RecordedSets(plan, ProgressOf(w), d);
    assert plan[i].stage in DoneStages(ProgressOf(e.state));
    assert i < j;
    assert plan[i].stage !in DoneStages(ProgressOf(w));
    assert plan[j].stage !in Elements(ProgressOf(w).invalidated);
  }

  lemma CommittedBefore(plan: Plan, log: Log, e: Entry, j: nat)
    requires log != [] && RevisionSafe(plan) && RunInv(plan, log) && Legal(plan, log, e)
    requires e.note.Committed? && j < |plan| && Young(plan[j], e.state)
    ensures e.changed == Some(SupervisorSection)
    ensures Untouched(plan[j], WrittenAt(log), ReadAt(log))
  {
    hide Legal, FreshStage, Touched, Untouched, RequestInv, WrittenSince, PendingInv, PresentWasWritten;
    hide CompletedProgress;
    hide Acyclic, KnownDependencies, ReviewersGuardTheRest, DisjointOutputs, DependencyClosed, OutputsOf;
    var w, s := Head(log), e.note.run.stage;
    CommitShape(plan, log, e);
    CommitKeepsYoung(plan, log, e, j);
    CompletedSets(ProgressOf(w), s);
    var i := IndexOf(plan, s);
    assert plan[i].stage in DoneStages(ProgressOf(e.state));
    assert i < j;
    assert plan[j].stage !in Elements(ProgressOf(w).invalidated);
  }

  /** From rest, only a contract that a client created can be skipped for. */
  lemma OnlyTheContractIsSkipped(plan: Plan, log: Log, e: Entry, c: nat)
    requires RevisionSafe(plan) && ContractAt(plan, c) && LegalLog(plan, log) && DisciplinedLog(plan, log)
    requires |log| > 1 && AtRest(log) && Legal(plan, log, e) && e.note.Decided? && e.note.decision.action == Skip
    ensures Young(plan[c], Head(log)) && !Young(plan[c], e.state)
  {
    hide Legal, RevisionSafe, Disciplined, LegalLog, DisciplinedLog, Decide, Recorded, WrittenAt, ReadAt, Untouched;
    hide RunInv, AtRest, ContractAt;
    var w, d := Head(log), e.note.decision;
    RunKeepsInv(plan, log);
    DecisionShape(plan, log, e);
    var j := SkippedStage(plan, log, e);
    AtRestUntouched(plan, log, j);
    if j != c {
      NothingToSkip(plan, log, c, j);
    }
    DecisionKeepsYoung(plan, log, e, c);
    RecordedSets(plan, ProgressOf(w), d);
  }

  lemma SkippedStage(plan: Plan, log: Log, e: Entry) returns (j: nat)
    requires RevisionSafe(plan) && RunInv(plan, log) && log != [] && Legal(plan, log, e)
    requires e.note.Decided? && e.note.decision.action == Skip
    ensures j < |plan| && e.note.decision.next == Some(plan[j].stage)
    ensures Young(plan[j], Head(log)) && OutputsPresent(Head(log), plan[j].outputs)
  {
    hide Legal, StagesInv, OpenInv, PendingInv, PresentWasWritten, Decide, Recorded, OutputsPresent;
    hide Acyclic, KnownDependencies, ReviewersGuardTheRest, DisjointOutputs;
    DecisionShape(plan, log, e);
    j := RoutedStage(plan, Head(log), e.note.available, e.note.decision);
  }

  lemma NothingToSkip(plan: Plan, log: Log, c: nat, j: nat)
    requires ContractAt(plan, c) && RunInv(plan, log) && j < |plan| && j != c
    requires Untouched(plan[j], WrittenAt(log), ReadAt(log))
    ensures !OutputsPresent(Head(log), plan[j].outputs)
  {
    hide StagesInv, OpenInv, PendingInv, WrittenAt, ReadAt;
    var x :| Owns(plan[j], x) && x != SemanticContractSection;
    assert At(WrittenAt(log), x) == 0;
  }

  /** A stage that is not young never becomes young again. */
  lemma {:induction false} YouthEnds(plan: Plan, log: Log, n: nat, c: nat)
    requires RevisionSafe(plan) && LegalLog(plan, log) && DisciplinedLog(plan, log) && 1 <= n <= |log| && c < |plan|
    requires Young(plan[c], Head(log))
    ensures Young(plan[c], Head(log[..n]))
    decreases |log|
  {
    hide Legal, Disciplined, RevisionSafe, RunInv, Young;
    if n == |log| {
      assert log[..n] == log;
    } else {
      var init, e := log[..|log| - 1], Last(log);
      assert init + [e] == log && init[..n] == log[..n];
      RunKeepsInv(plan, init);
      YoungBefore(plan, init, e, c);
      YouthEnds(plan, init, n, c);
    }
  }

  lemma YoungBefore(plan: Plan, log: Log, e: Entry, c: nat)
    requires log != [] && RevisionSafe(plan) && RunInv(plan, log) && Legal(plan, log, e) && c < |plan|
    requires Young(plan[c], e.state)
    ensures Young(plan[c], Head(log))
  {
    hide Legal, RevisionSafe, RunInv, DoneStages, NothingRevised;
    match e.note
    case Decided(_, _) => DecisionKeepsYoung(plan, log, e, c);
    case Committed(_) => CommitKeepsYoung(plan, log, e, c);
    case Created => NeverCreatedTwice(plan, log, e);
    case _ => KeepsProgress(plan, log, e);
  }

  // ----- Starts ---------------------------------------------------------------------------

  /** In an undisturbed block starts are paid for by the budgets at its beginning, but for one revision
      that its writer may still be serving. */
  lemma {:induction false} BlockSpends(plan: Plan, log: Log, n: nat, me: Author)
    requires RevisionSafe(plan) && LegalLog(plan, log) && DisciplinedLog(plan, log) && 1 <= n && Undisturbed(log, n, me)
    ensures Spent(plan, log) + |Stuck(log[..n])| <= Spent(plan, log[..n]) + |Stuck(log)|
    ensures Stuck(log) <= Stuck(log[..n]) + {me}
    decreases |log|
  {
    hide Legal, Disciplined, RevisionSafe, RunInv, Spent, StuckInv, Stuck;
    if n == |log| {
      assert log[..n] == log;
    } else {
      var init, e := log[..|log| - 1], Last(log);
      assert init + [e] == log && init[..n] == log[..n];
      BlockSpends(plan, init, n, me);
      RunKeepsInv(plan, init);
      WorkIsPaidFor(plan, init);
      SpentStep(plan, init, e);
      StuckGrows(init, e);
    }
  }

  lemma StuckGrows(log: Log, e: Entry)
    ensures Stuck(log + [e]) <= Stuck(log) + {e.author}
  {
    hide Starts;
    CountsExtend(log, e);
  }

  lemma BlockStarts(plan: Plan, log: Log, n: nat, me: Author)
    requires RevisionSafe(plan) && LegalLog(plan, log) && DisciplinedLog(plan, log) && 1 <= n && Undisturbed(log, n, me)
    ensures Starts(log) <= Starts(log[..n]) + SumOfLimits(plan) + SumOfReviewLimits(plan) + 3
  {
    hide LegalLog, DisciplinedLog, RevisionSafe, Stuck, StageBudget, ReviewBudget, Starts, MayRequest, OpenOf;
    BlockSpends(plan, log, n, me);
    SubsetCardinality(Stuck(log), Stuck(log[..n]) + {me});
    BudgetIsLimited(plan, ProgressOf(Head(log[..n])));
    ReviewBudgetIsLimited(plan, ProgressOf(Head(log[..n])));
  }

  lemma {:induction false} ReviewBudgetIsLimited(plan: Plan, p: Progress)
    ensures ReviewBudget(plan, p) <= SumOfReviewLimits(plan)
    decreases |plan|
  {
    if plan != [] {
      ReviewBudgetIsLimited(plan[..|plan| - 1], p);
    }
  }

  // ----- Trails ---------------------------------------------------------------------------

  function YoungCount(policy: Policy, log: Log): nat {
    if log != [] && Young(policy, Head(log)) then 1 else 0
  }

  /** Every turn decides once; after the first, at most one of them is a skip. */
  lemma {:induction false} TrailCounts(plan: Plan, handlers: set<Stage>, me: Author, logs: seq<Log>, c: nat)
    requires RevisionSafe(plan) && c < |plan| && ContractAt(plan, c) && Trail(plan, handlers, me, logs)
    requires logs[0] != [] && LegalLog(plan, logs[|logs| - 1]) && DisciplinedLog(plan, logs[|logs| - 1])
    requires Undisturbed(logs[|logs| - 1], |logs[0]|, me) && logs[0] <= logs[|logs| - 1]
    ensures
      var first, last := logs[0], logs[|logs| - 1];
      && Starts(last) + Skips(last) == Starts(first) + Skips(first) + |logs| - 1
      && Skips(last) + YoungCount(plan[c], last) <= Skips(first) + 2
      && (|logs| > 1 ==> AtRest(last) && |last| > 1)
    decreases |logs|
  {
    hide RevisionSafe, ContractAt, LegalLog, DisciplinedLog, TurnMade, Starts, Skips, YoungCount, AtRest;
    if |logs| > 1 {
      var last := logs[|logs| - 1];
      var shorter := logs[..|logs| - 1];
      var before := shorter[|shorter| - 1];
      assert TurnMade(plan, handlers, me, shorter[|shorter| - 1], logs[|shorter| - 1 + 1], None);
      ShorterTrail(plan, handlers, me, logs);
      TrailCounts(plan, handlers, me, shorter, c);
      TurnCounts(plan, handlers, me, before, last, c, |shorter| > 1);
    } else {
      YoungIsOne(plan[c], logs[0]);
    }
  }

  lemma YoungIsOne(policy: Policy, log: Log)
    ensures YoungCount(policy, log) <= 1
  {
  }

  lemma ShorterTrail(plan: Plan, handlers: set<Stage>, me: Author, logs: seq<Log>)
    requires |logs| > 1 && Trail(plan, handlers, me, logs) && logs[0] != []
    requires LegalLog(plan, logs[|logs| - 1]) && DisciplinedLog(plan, logs[|logs| - 1])
    requires Undisturbed(logs[|logs| - 1], |logs[0]|, me)
    ensures
      var shorter := logs[..|logs| - 1];
      var before := shorter[|shorter| - 1];
      && Trail(plan, handlers, me, shorter)
      && logs[0] <= before <= logs[|logs| - 1]
      && LegalLog(plan, before) && DisciplinedLog(plan, before) && Undisturbed(before, |logs[0]|, me)
  {
    hide LegalLog, DisciplinedLog, TurnFrom;
    var shorter := logs[..|logs| - 1];
    var before, last := shorter[|shorter| - 1], logs[|logs| - 1];
    assert TurnMade(plan, handlers, me, shorter[|shorter| - 1], logs[|shorter| - 1 + 1], None);
    forall i | 0 <= i < |shorter| - 1 ensures TurnMade(plan, handlers, me, shorter[i], shorter[i + 1], None) {
      assert TurnMade(plan, handlers, me, logs[i], logs[i + 1], None);
    }
    TrailGrows(plan, handlers, me, shorter);
    assert before == last[..|before|];
    LegalPrefix(plan, last, |before|);
    DisciplinedPrefix(plan, last, |before|);
  }

  lemma {:induction false} TrailGrows(plan: Plan, handlers: set<Stage>, me: Author, logs: seq<Log>)
    requires Trail(plan, handlers, me, logs)
    ensures logs[0] <= logs[|logs| - 1]
    decreases |logs|
  {
    hide TurnFrom;
    if |logs| > 1 {
      var shorter := logs[..|logs| - 1];
      assert TurnMade(plan, handlers, me, logs[|logs| - 2], logs[|logs| - 2 + 1], None);
      forall i | 0 <= i < |shorter| - 1 ensures TurnMade(plan, handlers, me, shorter[i], shorter[i + 1], None) {
        assert TurnMade(plan, handlers, me, logs[i], logs[i + 1], None);
      }
      TrailGrows(plan, handlers, me, shorter);
    }
  }

  lemma TurnCounts(plan: Plan, handlers: set<Stage>, me: Author, log: Log, later: Log, c: nat, rested: bool)
    requires RevisionSafe(plan) && c < |plan| && ContractAt(plan, c) && TurnMade(plan, handlers, me, log, later, None)
    requires LegalLog(plan, later) && DisciplinedLog(plan, later) && log != [] && Undisturbed(later, |log|, me)
    requires rested ==> AtRest(log) && |log| > 1
    ensures Starts(later) + Skips(later) == Starts(log) + Skips(log) + 1
    ensures AtRest(later) && |later| > 1
    ensures rested ==> Skips(later) + YoungCount(plan[c], later) <= Skips(log) + YoungCount(plan[c], log)
    ensures !rested ==> Skips(later) + YoungCount(plan[c], later) <= Skips(log) + 2
  {
    hide RevisionSafe, ContractAt, LegalLog, DisciplinedLog, TurnMade, Starts, Skips, AtRest, Legal;
    hide Young;
    UndisturbedTurn(plan, handlers, me, log, later);
    assert log <= later by { TurnExtends(plan, handlers, me, log, later); }
    assert later[..|log|] == log;
    LegalPrefix(plan, later, |log|);
    DisciplinedPrefix(plan, later, |log|);
    var e := later[|log|];
    if rested && e.note.decision.action == Skip {
      OnlyTheContractIsSkipped(plan, log, e, c);
      assert Head(later) == e.state;
    } else if Young(plan[c], Head(later)) {
      YouthEnds(plan, later, |log|, c);
    }
  }

  lemma TurnExtends(plan: Plan, handlers: set<Stage>, me: Author, log: Log, later: Log)
    requires TurnMade(plan, handlers, me, log, later, None)
    ensures log <= later
  {
  }

  /** While nobody else writes, an execution goes on for a number of turns that the plan bounds. */
  lemma UndisturbedTrailIsShort(plan: Plan, handlers: set<Stage>, me: Author, logs: seq<Log>, c: nat)
    requires RevisionSafe(plan) && c < |plan| && ContractAt(plan, c) && Trail(plan, handlers, me, logs)
    requires logs[0] != [] && LegalLog(plan, logs[|logs| - 1]) && DisciplinedLog(plan, logs[|logs| - 1])
    requires Undisturbed(logs[|logs| - 1], |logs[0]|, me)
    ensures |logs| <= SumOfLimits(plan) + SumOfReviewLimits(plan) + 6
  {
    hide RevisionSafe, ContractAt, LegalLog, DisciplinedLog, TurnMade, Starts, Skips, AtRest, YoungCount, SumOfLimits;
    hide SumOfReviewLimits;
    TrailGrows(plan, handlers, me, logs);
    TrailCounts(plan, handlers, me, logs, c);
    var first, last := logs[0], logs[|logs| - 1];
    assert last[..|first|] == first;
    BlockStarts(plan, last, |first|, me);
  }

  // ----- The shipped plan -----------------------------------------------------------------

  lemma ShippedContractAt()
    ensures ContractAt(ShippedPlan(), 1)
  {
    hide DefaultPolicy, Position, Owns;
    var plan := ShippedPlan();
    assert ORDER[1] == SemanticContract;
    OwnsAReport(ORDER[1]);
    assert plan[1] == DefaultPolicy(ORDER[1]);
    assert OutputSections(ORDER[1])[0] == SemanticContractSection;
    assert Owns(plan[1], SemanticContractSection);
    forall j | 0 <= j < |plan| && j != 1 ensures OwnsAnother(plan[j]) {
      OwnsAReport(ORDER[j]);
      PositionIsInverse(j);
      PositionIsInverse(1);
      assert plan[j] == DefaultPolicy(ORDER[j]);
      assert Owns(plan[j], OutputSections(ORDER[j])[0]) && OutputSections(ORDER[j])[0] != SemanticContractSection;
    }
  }

  lemma OwnsAReport(s: Stage)
    ensures OutputSections(s) != [] && Owns(DefaultPolicy(s), OutputSections(s)[0])
    ensures OutputSections(s)[0] == SemanticContractSection <==> s == SemanticContract
  {
    hide RequiredSections, DependenciesOf;
  }

  /** With 87 decisions or more, and so with the 100 it has by default, an executor of the shipped plan
      that nobody disturbs never runs into its decision limit: its last turn ends with a stop, or with an
      exception of its stage. */
  lemma DecisionLimitIsNeverReached(executor: PostSupervisorExecutor, logs: seq<Log>, calls: seq<Option<HandlerCall>>,
                                    log: Log, later: Log, outcome: Outcome)
    requires executor.plan == ShippedPlan() && executor.maxDecisions >= 87
    requires executor.Executed(logs, calls, log, later, outcome) && log != []
    requires LegalLog(ShippedPlan(), later) && DisciplinedLog(ShippedPlan(), later)
    requires Undisturbed(later, |log|, executor.me)
    ensures |logs| == |calls| <= 87
    ensures TurnAnswered(ShippedPlan(), executor.isContract, executor.handlers, executor.me, logs[|logs| - 1], later,
                         Some(outcome), calls[|logs| - 1])
  {
    hide LegalLog, DisciplinedLog, TurnFrom, TurnAnswered, SumOfLimits, SumOfReviewLimits, RevisionSafe, ContractAt;
    ShippedIsRevisionSafe();
    ShippedContractAt();
    ShippedLimits();
    var plan, last := ShippedPlan(), logs[|logs| - 1];
    executor.ExecutedIsTrail(logs, calls, log, later, outcome);
    TrailGrows(plan, executor.handlers, executor.me, logs);
    assert last <= later;
    assert later[..|last|] == last;
    LegalPrefix(plan, later, |last|);
    DisciplinedPrefix(plan, later, |last|);
    UndisturbedTrailIsShort(plan, executor.handlers, executor.me, logs, 1);
  }

  lemma ShippedLimits()
    ensures SumOfLimits(ShippedPlan()) == 63 && SumOfReviewLimits(ShippedPlan()) == 18
  {
    hide StageBudget, ReviewBudget;
    ShippedPrefixBudget(21);
    assert ShippedPlan()[..21] == ShippedPlan();
  }
}
