/** A contract that a client creates through the API, before or after the stages it should rest on:
    when it is older than they are, decided by the version it was created on. */
module SuppliedContracts {
  import opened Vocabulary
  import opened StageGraph
  import opened Workflows
  import opened Supervisor
  import opened VersionLog
  import opened Freshness

  /** Stage i owns the contract, no stage up to it requests revisions, and it depends on stage k, whose
      one output is y. */
  ghost predicate RestsOn(plan: Plan, i: nat, k: nat, y: Section) {
    && i < |plan| && k < |plan| && k != i
    && Owns(plan[i], SemanticContractSection)
    && (forall j :: 0 <= j <= i ==> !Reviewer(plan[j]))
    && Reaches(plan, plan[i].stage, plan[k].stage)
    && plan[k].outputs == [y] && Owns(plan[k], y)
  }

  /** Stage k will not run any more before the stages that depend on it: it is done, or its output is
      there to be skipped for. A client can look this up in the state it creates the contract on. */
  predicate Settled(plan: Plan, k: nat, w: Workflow)
    requires k < |plan|
  {
    plan[k].stage in DoneStages(ProgressOf(w)) || OutputsPresent(w, plan[k].outputs)
  }

  ghost predicate IsSupplied(log: Log) {
    At(WrittenAt(log), SemanticContractSection) > 0 && Supplied(ReadAt(log), SemanticContractSection)
  }

  /** The state that the newest contract was written on. */
  ghost function Before(log: Log): Workflow
    requires 2 <= At(WrittenAt(log), SemanticContractSection) <= |log|
  {
    log[At(WrittenAt(log), SemanticContractSection) - 2].state
  }

  /** The contract's stage is not done and was never invalidated. */
  predicate Young(policy: Policy, w: Workflow) {
    policy.stage !in DoneStages(ProgressOf(w)) && policy.stage !in ProgressOf(w).invalidated
  }

  /** Neither revised away nor waiting to be redone. */
  predicate Standing(policy: Policy, w: Workflow) {
    policy.stage in DoneStages(ProgressOf(w)) || policy.stage !in ProgressOf(w).invalidated
  }

  predicate NothingRevised(w: Workflow) {
    ProgressOf(w).invalidated == [] && PendingTarget(w) == Success(None)
  }

  /** While stage i stands on a supplied contract: if k was settled before, its output is older and
      stays so; if not, settling it takes a newer one. */
  ghost predicate SupplyInv(plan: Plan, log: Log, i: nat, k: nat)
    requires i < |plan| && k < |plan| && plan[k].outputs != [] && log != []
  {
    var w, y, v := Head(log), plan[k].outputs[0], At(WrittenAt(log), SemanticContractSection);
    && (Young(plan[i], w) ==> NothingRevised(w))
    && (IsSupplied(log) ==> 2 <= v <= |log|)
    && (IsSupplied(log) && Standing(plan[i], w) ==>
          if Settled(plan, k, Before(log))
          then At(WrittenAt(log), y) < v && Settled(plan, k, w) && NotRunning(plan, k, log)
          else Settled(plan, k, w) ==> At(WrittenAt(log), y) > v)
  }

  predicate NotRunning(plan: Plan, k: nat, log: Log)
    requires k < |plan| && log != []
  {
    OpenOf(plan, log).Open? ==> OpenOf(plan, log).run.stage != plan[k].stage
  }

  // ----- Young stages ---------------------------------------------------------------------

  /** A stage at i that is not done keeps the reviewers behind it from running. */
  lemma RunsNoReviewer(plan: Plan, log: Log, i: nat)
    requires RevisionSafe(plan) && RunInv(plan, log) && OpenOf(plan, log).Open?
    requires i < |plan| && plan[i].stage !in DoneStages(ProgressOf(Head(log)))
    requires forall j :: 0 <= j <= i ==> !Reviewer(plan[j])
    ensures RevisionHistorySection !in OutputsOf(plan, OpenOf(plan, log).run.stage)
  {
    hide HeadInv, RevisionSafe, Reviewer, DoneStages, WrittenSince, RequestInv;
    var j := IndexOf(plan, OpenOf(plan, log).run.stage);
    assert j <= i;
    assert !Reviewer(plan[j]);
    OutputsAt(plan, OpenOf(plan, log).run.stage);
    NoHistory(plan[j]);
  }

  lemma NoHistory(policy: Policy)
    requires !Reviewer(policy)
    ensures RevisionHistorySection !in policy.outputs
  {
  }

  lemma DecisionKeepsYoung(plan: Plan, log: Log, e: Entry, i: nat)
    requires RevisionSafe(plan) && RunInv(plan, log) && Legal(plan, log, e) && e.note.Decided? && i < |plan|
    ensures Young(plan[i], e.state) ==> Young(plan[i], Head(log))
    ensures Young(plan[i], e.state) && NothingRevised(Head(log)) ==> NothingRevised(e.state)
    ensures Young(plan[i], e.state) ==> e.note.decision.action != Revise
    ensures HistoryOf(e.state) == HistoryOf(Head(log))
    ensures ProgressOf(e.state) == Recorded(plan, ProgressOf(Head(log)), e.note.decision)
  {
    hide RevisionSafe, StagesInv, Decide, Recorded, MayDecide, MarkedHistory, OpenInv, DoneStages, Reaches;
    hide PendingTarget;
    var w, d := Head(log), e.note.decision;
    var p := ProgressOf(w);
    PutProgress(w, Recorded(plan, p, d), WrittenAt(log), 1);
    ActionOrigin(plan, w, e.note.available);
    if d.next.Some? {
      RecordedSets(plan, p, d);
      if d.action == Revise {
        assert Listed(plan, plan[i].stage);
        assert plan[i].stage in Downstream(plan, d.next.value) <==> Reaches(plan, plan[i].stage, d.next.value);
        assert plan[i].stage in Recorded(plan, p, d).invalidated <==>
            plan[i].stage in Elements(Recorded(plan, p, d).invalidated);
      } else {
        SameInvalidated(plan, p, d);
      }
    } else {
      SameInvalidated(plan, p, d);
    }
  }

  lemma SameInvalidated(plan: Plan, p: Progress, d: Decision)
    requires d.action != Revise
    ensures Recorded(plan, p, d).invalidated == p.invalidated
    ensures DoneStages(p) <= DoneStages(Recorded(plan, p, d))
  {
    if d.next.Some? && d.action == Skip {
      assert Elements(AppendUnique(p.skipped, d.next.value)) == Elements(p.skipped) + {d.next.value};
    }
  }

  lemma OutputKeepsYoung(plan: Plan, log: Log, e: Entry, i: nat)
    requires RevisionSafe(plan) && RunInv(plan, log) && Legal(plan, log, e) && Disciplined(plan, log, e)
    requires e.note.Produced? || e.note.Marked? || e.note.External?
    requires i < |plan| && forall j :: 0 <= j <= i ==> !Reviewer(plan[j])
    requires Young(plan[i], Head(log)) ==> NothingRevised(Head(log))
    ensures ProgressOf(e.state) == ProgressOf(Head(log))
    ensures Young(plan[i], e.state) ==> NothingRevised(e.state)
  {
    hide RevisionSafe, HeadInv, Decide, Recorded, MayDecide, MarkedHistory, OpenInv, DoneStages, PendingTarget;
    hide Reviewer, Appends, OutputsOf, OpenOf;
    var w := Head(log);
    KeepsProgress(plan, log, e);
    if Young(plan[i], w) {
      match e.note
      case Produced(run, n) =>
        RunsItsOutput(plan, log, e);
        RunsNoReviewer(plan, log, i);
        OutputKeepsRequests(plan, log, e);
      case Marked(run) =>
        MarkingNeedsRequest(plan, log, e);
      case External =>
        SamePending(plan, log, e);
    }
  }

  lemma KeepsProgress(plan: Plan, log: Log, e: Entry)
    requires RevisionSafe(plan) && log != [] && Legal(plan, log, e)
    requires e.note.Produced? || e.note.Marked? || e.note.External?
    ensures ProgressOf(e.state) == ProgressOf(Head(log))
  {
    hide Decide, Recorded, MayDecide, MarkedHistory, Acyclic, KnownDependencies, Topological, DisjointOutputs;
    hide ReviewersGuardTheRest;
    if e.note.Produced? {
      OutputKeepsProgress(plan, log, e);
    }
  }

  lemma RunsItsOutput(plan: Plan, log: Log, e: Entry)
    requires log != [] && Legal(plan, log, e) && e.note.Produced?
    ensures OpenOf(plan, log) == Open(e.author, e.note.run, e.note.k)
    ensures e.note.k < |OutputsOf(plan, e.note.run.stage)|
    ensures e.changed == Some(OutputsOf(plan, e.note.run.stage)[e.note.k])
  {
    OpenBefore(plan, log, e);
  }

  lemma MarkingNeedsRequest(plan: Plan, log: Log, e: Entry)
    requires log != [] && Legal(plan, log, e) && e.note.Marked?
    ensures PendingTarget(Head(log)) != Success(None)
  {
    OpenBefore(plan, log, e);
    MarkingClosesThePendingRevision(Head(log), e.note.run.stage);
  }

  lemma SamePending(plan: Plan, log: Log, e: Entry)
    requires log != [] && Legal(plan, log, e) && Disciplined(plan, log, e) && e.note.External?
    ensures PendingTarget(e.state) == PendingTarget(Head(log))
  {
    hide Decide, Recorded, MayDecide, MarkedHistory;
  }

  lemma CommitKeepsYoung(plan: Plan, log: Log, e: Entry, i: nat)
    requires RevisionSafe(plan) && RunInv(plan, log) && Legal(plan, log, e) && e.note.Committed? && i < |plan|
    ensures ProgressOf(e.state) == CompletedProgress(ProgressOf(Head(log)), e.note.run.stage)
    ensures Young(plan[i], e.state) ==> Young(plan[i], Head(log))
    ensures Young(plan[i], e.state) && NothingRevised(Head(log)) ==> NothingRevised(e.state)
  {
    hide RevisionSafe, HeadInv, Decide, Recorded, MayDecide, MarkedHistory, OpenInv, PendingTarget, OpenOf, OutputsOf;
    var p, s := ProgressOf(Head(log)), e.note.run.stage;
    CommitShape(plan, log, e);
    CompletedSets(p, s);
    assert plan[i].stage in p.invalidated <==> plan[i].stage in Elements(p.invalidated);
    var p2 := CompletedProgress(p, s);
    assert plan[i].stage in p2.invalidated <==> plan[i].stage in Elements(p2.invalidated);
  }

  lemma CommitShape(plan: Plan, log: Log, e: Entry)
    requires log != [] && Legal(plan, log, e) && e.note.Committed?
    ensures e.changed == Some(SupervisorSection)
    ensures OpenOf(plan, log) == Open(e.author, e.note.run, |OutputsOf(plan, e.note.run.stage)|)
    ensures ProgressOf(e.state) == CompletedProgress(ProgressOf(Head(log)), e.note.run.stage)
    ensures PendingTarget(e.state) == PendingTarget(Head(log))
    ensures forall x :: x != SupervisorSection ==> e.state[x] == Head(log)[x]
  {
    hide CompletedProgress, MarkingChanges;
  }

  // ----- Steps ----------------------------------------------------------------------------

  /** A write of anything but the contract leaves the contract and the version before it alone. */
  lemma ContractStays(log: Log, e: Entry)
    requires log != [] && e.changed.Some? && e.changed.value != SemanticContractSection
    ensures At(WrittenAt(log + [e]), SemanticContractSection) == At(WrittenAt(log), SemanticContractSection)
    ensures IsSupplied(log + [e]) <==> IsSupplied(log)
    ensures 2 <= At(WrittenAt(log), SemanticContractSection) <= |log| ==> Before(log + [e]) == Before(log)
    ensures forall y :: At(WrittenAt(log + [e]), y) == if y == e.changed.value then |log| + 1 else At(WrittenAt(log), y)
    ensures Head(log + [e]) == e.state
  {
    hide WrittenAt, ReadAt;
    StampsExtend(log, e);
  }

  lemma DecisionKeepsSupply(plan: Plan, log: Log, e: Entry, i: nat, k: nat, y: Section)
    requires RevisionSafe(plan) && RestsOn(plan, i, k, y) && log != [] && RunInv(plan, log) && RunInv(plan, log + [e])
    requires Legal(plan, log, e) && e.note.Decided? && SupplyInv(plan, log, i, k)
    ensures SupplyInv(plan, log + [e], i, k)
  {
    hide RevisionSafe, RunInv, Decide, Recorded, MayDecide, Legal, Reaches, PendingTarget, DoneStages, WrittenAt;
    hide ReadAt, OpenOf;
    var w, w2, log2 := Head(log), e.state, log + [e];
    DecisionShape(plan, log, e);
    ContractStays(log, e);
    DecisionKeepsYoung(plan, log, e, i);
    OwnedIsNotSupervisor(plan, k, y);
    if IsSupplied(log2) && Standing(plan[i], w2) {
      StandsThrough(plan, log, e, i);
      if Settled(plan, k, Before(log)) {
        DecisionKeepsSettled(plan, log, e, i, k, y);
        DecisionRunsOther(plan, log, e, i, k, y);
      } else if Settled(plan, k, w2) {
        SettledWas(plan, log, e, i, k, y);
      }
    }
  }

  lemma DecisionShape(plan: Plan, log: Log, e: Entry)
    requires log != [] && Legal(plan, log, e) && e.note.Decided?
    ensures e.changed == Some(SupervisorSection)
    ensures Decide(plan, Head(log), e.note.available) == Success(e.note.decision)
    ensures forall x :: x != SupervisorSection ==> e.state[x] == Head(log)[x]
  {
    hide Decide, Recorded, MayDecide;
  }

  lemma OwnedIsNotSupervisor(plan: Plan, k: nat, y: Section)
    requires RevisionSafe(plan) && k < |plan| && Owns(plan[k], y)
    ensures y != SupervisorSection && y != RevisionHistorySection
  {
    hide Topological, DisjointOutputs, ReviewersGuardTheRest;
    SupervisorIsUnowned(plan);
  }

  /** A decision makes a stage done only by skipping it for outputs that are present and not stale. */
  lemma DoneOnlyBySkip(plan: Plan, log: Log, e: Entry, k: nat)
    requires RevisionSafe(plan) && RunInv(plan, log) && Legal(plan, log, e) && e.note.Decided? && k < |plan|
    requires plan[k].stage in DoneStages(ProgressOf(e.state)) && plan[k].stage !in DoneStages(ProgressOf(Head(log)))
    ensures plan[k].stage !in ProgressOf(Head(log)).invalidated && OutputsPresent(Head(log), plan[k].outputs)
  {
    hide Decide, Recorded, MayDecide, Legal, Reaches, PendingTarget, OpenInv, StagesInv, PendingInv, PresentWasWritten;
    hide Topological, ReviewersGuardTheRest, DisjointOutputs, Acyclic, DoneStages, OutputsPresent;
    DecisionShape(plan, log, e);
    DecisionKeepsYoung(plan, log, e, k);
    var w, d := Head(log), e.note.decision;
    OnlySkipFinishes(plan, ProgressOf(w), d, plan[k].stage);
    var j := RoutedStage(plan, w, e.note.available, d);
    assert j == k by { IndexIsUnique(plan, k); IndexIsUnique(plan, j); }
  }

  lemma OnlySkipFinishes(plan: Plan, p: Progress, d: Decision, s: Stage)
    requires s in DoneStages(Recorded(plan, p, d)) && s !in DoneStages(p)
    ensures d.action == Skip && d.next == Some(s)
  {
    hide Recorded, DoneStages;
    if d.next.Some? {
      RecordedSets(plan, p, d);
    } else {
      NothingRecorded(plan, p, d);
    }
  }

  lemma NothingRecorded(plan: Plan, p: Progress, d: Decision)
    requires d.next.None?
    ensures DoneStages(Recorded(plan, p, d)) == DoneStages(p)
  {
  }

  /** A stage that stands after a decision stood before it. */
  lemma StandsThrough(plan: Plan, log: Log, e: Entry, i: nat)
    requires log != [] && RevisionSafe(plan) && RunInv(plan, log) && Legal(plan, log, e) && e.note.Decided?
    requires i < |plan|
    requires Standing(plan[i], e.state)
    ensures Standing(plan[i], Head(log))
  {
    hide RevisionSafe, RunInv, Legal, OutputsPresent, NothingRevised, DoneStages;
    DecisionKeepsYoung(plan, log, e, i);
    var w := Head(log);
    if plan[i].stage in DoneStages(ProgressOf(e.state)) && plan[i].stage !in DoneStages(ProgressOf(w)) {
      DoneOnlyBySkip(plan, log, e, i);
    }
  }

  lemma DecisionKeepsSettled(plan: Plan, log: Log, e: Entry, i: nat, k: nat, y: Section)
    requires RevisionSafe(plan) && RestsOn(plan, i, k, y) && RunInv(plan, log) && RunInv(plan, log + [e])
    requires Legal(plan, log, e) && e.note.Decided? && Standing(plan[i], e.state)
    requires Settled(plan, k, Head(log))
    ensures Settled(plan, k, e.state)
  {
    hide RevisionSafe, Decide, Recorded, MayDecide, Legal, Reaches, PendingTarget, OpenInv, FreshStage, Touched;
    hide Untouched, DoneStages, Present;
    DecisionShape(plan, log, e);
    DecisionKeepsYoung(plan, log, e, i);
    OwnedIsNotSupervisor(plan, k, y);
    var w, d := Head(log), e.note.decision;
    if e.note.decision.action == Revise {
      assert Head(log + [e]) == e.state;
      ReachesStaysDown(plan, DoneStages(ProgressOf(e.state)), plan[i].stage, plan[k].stage);
    } else {
      SameInvalidated(plan, ProgressOf(w), d);
    }
  }

  lemma DecisionRunsOther(plan: Plan, log: Log, e: Entry, i: nat, k: nat, y: Section)
    requires RevisionSafe(plan) && RestsOn(plan, i, k, y) && RunInv(plan, log) && RunInv(plan, log + [e])
    requires Legal(plan, log, e) && e.note.Decided? && Standing(plan[i], e.state) && Standing(plan[i], Head(log))
    requires Young(plan[i], Head(log)) ==> NothingRevised(Head(log))
    requires Settled(plan, k, Head(log))
    ensures NotRunning(plan, k, log + [e])
  {
    hide Decide, Recorded, MayDecide, Legal, Reaches, PendingTarget, FreshStage, Touched, Untouched, DoneStages;
    hide Present;
    hide ReviewersGuardTheRest, DisjointOutputs, Acyclic, WrittenSince, RequestInv;
    DecisionShape(plan, log, e);
    DecisionKeepsYoung(plan, log, e, i);
    var w, d := Head(log), e.note.decision;
    assert Head(log + [e]) == e.state;
    if Runs(d) && d.next.value == plan[k].stage {
      if d.action == Revise {
        RevisedIsUndone(plan, log, e);
        ReachesStaysDown(plan, DoneStages(ProgressOf(e.state)), plan[i].stage, plan[k].stage);
      } else {
        var j := RoutedStage(plan, w, e.note.available, d);
        assert plan[k].stage !in DoneStages(ProgressOf(w));
        if plan[i].stage in DoneStages(ProgressOf(w)) {
          ReachesStaysDown(plan, DoneStages(ProgressOf(w)), plan[i].stage, plan[k].stage);
        }
        IndexIsUnique(plan, k);
        IndexIsUnique(plan, j);
      }
    }
  }

  lemma RevisedIsUndone(plan: Plan, log: Log, e: Entry)
    requires RevisionSafe(plan) && RunInv(plan, log + [e]) && log != [] && Legal(plan, log, e) && e.note.Decided?
    requires e.note.decision.action == Revise && e.note.decision.next.Some?
    ensures e.note.decision.next.value !in DoneStages(ProgressOf(e.state))
  {
    hide HeadInv, Decide, Recorded, MayDecide, Legal, WrittenSince, RequestInv, RevisionSafe;
    assert Last(log + [e]) == e;
  }

  lemma SettledWas(plan: Plan, log: Log, e: Entry, i: nat, k: nat, y: Section)
    requires log != [] && RevisionSafe(plan) && RestsOn(plan, i, k, y) && RunInv(plan, log)
    requires Legal(plan, log, e) && e.note.Decided? && Settled(plan, k, e.state)
    ensures Settled(plan, k, Head(log))
  {
    hide RevisionSafe, RunInv, Legal, NothingRevised, DoneStages, Present;
    DecisionShape(plan, log, e);
    OwnedIsNotSupervisor(plan, k, y);
    if plan[k].stage in DoneStages(ProgressOf(e.state)) && plan[k].stage !in DoneStages(ProgressOf(Head(log))) {
      DoneOnlyBySkip(plan, log, e, k);
    }
  }

  /** Only stage k writes y, and only while it runs. */
  lemma OutputKeepsSupply(plan: Plan, log: Log, e: Entry, i: nat, k: nat, y: Section)
    requires log != [] && RevisionSafe(plan) && RestsOn(plan, i, k, y) && RunInv(plan, log)
    requires Legal(plan, log, e) && Disciplined(plan, log, e) && e.note.Produced? && SupplyInv(plan, log, i, k)
    ensures SupplyInv(plan, log + [e], i, k)
  {
    hide RevisionSafe, RunInv, Legal, Disciplined, Reaches, DoneStages, WrittenAt, ReadAt, NothingRevised, Present;
    hide IsSupplied, Reviewer;
    OutputKeepsYoung(plan, log, e, i);
    RunsItsOutput(plan, log, e);
    OutputShape(plan, log, e);
    assert Last(log + [e]) == e;
    if e.changed.value == SemanticContractSection {
      ProducedIsNotSupplied(plan, log, e);
    } else {
      ContractStays(log, e);
      if e.changed.value == y {
        WritersOwn(plan, log, e, k, y);
      }
    }
  }

  lemma OutputShape(plan: Plan, log: Log, e: Entry)
    requires log != [] && Legal(plan, log, e) && e.changed.Some?
    ensures forall x :: x != e.changed.value ==> e.state[x] == Head(log)[x]
  {
    hide Legal;
    LegalReplaces(plan, log, e);
  }

  lemma ProducedIsNotSupplied(plan: Plan, log: Log, e: Entry)
    requires log != [] && RunInv(plan, log) && Legal(plan, log, e) && e.note.Produced?
    requires e.changed == Some(SemanticContractSection)
    ensures !IsSupplied(log + [e])
  {
    hide HeadInv, Legal, WrittenSince, RequestInv, DoneStages;
    RunsItsOutput(plan, log, e);
    StampsExtend(log, e);
    assert 1 <= e.note.run.base;
  }

  lemma WritersOwn(plan: Plan, log: Log, e: Entry, k: nat, y: Section)
    requires log != [] && RevisionSafe(plan) && RunInv(plan, log) && Legal(plan, log, e) && e.note.Produced?
    requires k < |plan| && Owns(plan[k], y) && e.changed == Some(y)
    ensures e.note.run.stage == plan[k].stage
  {
    hide HeadInv, Legal, WrittenSince, RequestInv, Topological, ReviewersGuardTheRest, Accepted, FirstUndone;
    RunsItsOutput(plan, log, e);
    var j := IndexOf(plan, e.note.run.stage);
    assert Owns(plan[j], y);
  }

  lemma MarkKeepsSupply(plan: Plan, log: Log, e: Entry, i: nat, k: nat, y: Section)
    requires log != [] && RevisionSafe(plan) && RestsOn(plan, i, k, y) && RunInv(plan, log)
    requires Legal(plan, log, e) && Disciplined(plan, log, e) && e.note.Marked? && SupplyInv(plan, log, i, k)
    ensures SupplyInv(plan, log + [e], i, k)
  {
    hide RevisionSafe, RunInv, Legal, Disciplined, Reaches, DoneStages, WrittenAt, ReadAt, NothingRevised, Present;
    hide IsSupplied, Reviewer;
    OutputKeepsYoung(plan, log, e, i);
    MarkShape(plan, log, e);
    ContractStays(log, e);
    assert Last(log + [e]) == e;
  }

  lemma MarkShape(plan: Plan, log: Log, e: Entry)
    requires log != [] && Legal(plan, log, e) && e.note.Marked?
    ensures e.changed == Some(RevisionHistorySection)
    ensures OpenOf(plan, log).Open? && OpenOf(plan, log).run == e.note.run
    ensures forall x :: x != RevisionHistorySection ==> e.state[x] == Head(log)[x]
  {
    hide MarkingChanges, MarkedHistory;
  }

  lemma CommitKeepsSupply(plan: Plan, log: Log, e: Entry, i: nat, k: nat, y: Section)
    requires log != [] && RevisionSafe(plan) && RestsOn(plan, i, k, y) && RunInv(plan, log) && LegalLog(plan, log)
    requires Legal(plan, log, e) && e.note.Committed? && SupplyInv(plan, log, i, k)
    ensures SupplyInv(plan, log + [e], i, k)
  {
    hide RevisionSafe, RunInv, Legal, LegalLog, Reaches, WrittenAt, ReadAt, NothingRevised, Present, IsSupplied;
    hide Reviewer, CompletedProgress;
    hide OutputsOf, MarkingChanges, Fits;
    var w, w2, s := Head(log), e.state, e.note.run.stage;
    CommitKeepsYoung(plan, log, e, i);
    CommitShape(plan, log, e);
    CompletedSets(ProgressOf(w), s);
    ContractStays(log, e);
    OwnedIsNotSupervisor(plan, k, y);
    assert Last(log + [e]) == e;
    if IsSupplied(log + [e]) && Standing(plan[i], w2) {
      if s == plan[i].stage {
        CommittedIsNotSupplied(plan, log, e, i);
      }
      assert Standing(plan[i], w);
      if !Settled(plan, k, Before(log)) && Settled(plan, k, w2) && s == plan[k].stage {
        CommittedIsNewer(plan, log, e, i, k, y);
      }
    }
  }

  lemma CommittedOutputs(plan: Plan, log: Log, e: Entry, j: nat)
    requires log != [] && RevisionSafe(plan) && RunInv(plan, log) && Legal(plan, log, e) && e.note.Committed?
    requires j < |plan| && e.note.run.stage == plan[j].stage
    ensures e.note.run.base >= 1 && WrittenSince(plan[j].outputs, e.note.run.base, WrittenAt(log), ReadAt(log))
  {
    hide HeadInv, Legal, RequestInv, Topological, ReviewersGuardTheRest, FirstUndone, WrittenSince, DisjointOutputs;
    hide Acyclic;
    CommitShape(plan, log, e);
    IndexIsUnique(plan, j);
    assert plan[j].outputs[..|plan[j].outputs|] == plan[j].outputs;
  }

  lemma CommittedIsNotSupplied(plan: Plan, log: Log, e: Entry, i: nat)
    requires log != [] && RevisionSafe(plan) && RunInv(plan, log) && Legal(plan, log, e) && e.note.Committed?
    requires i < |plan| && e.note.run.stage == plan[i].stage && Owns(plan[i], SemanticContractSection)
    ensures !IsSupplied(log)
  {
    hide RevisionSafe, RunInv, Legal;
    CommittedOutputs(plan, log, e, i);
  }

  lemma CommittedIsNewer(plan: Plan, log: Log, e: Entry, i: nat, k: nat, y: Section)
    requires log != [] && RevisionSafe(plan) && RestsOn(plan, i, k, y) && RunInv(plan, log) && LegalLog(plan, log)
    requires Legal(plan, log, e) && e.note.Committed? && e.note.run.stage == plan[k].stage
    ensures At(WrittenAt(log), y) > At(WrittenAt(log), SemanticContractSection)
  {
    hide Accepted, Topological, ReviewersGuardTheRest, RunInv, Legal, LegalLog, Reaches, WrittenAt, ReadAt, Reviewer;
    CommittedOutputs(plan, log, e, k);
    ReadBeforeWrite(plan, log, y);
    assert SemanticContractSection !in plan[k].outputs by {
      ContractIsNotOwnedBy(plan, i, k, y);
    }
  }

  lemma ExternalKeepsSupply(plan: Plan, log: Log, e: Entry, i: nat, k: nat, y: Section)
    requires log != [] && RevisionSafe(plan) && RestsOn(plan, i, k, y) && RunInv(plan, log)
    requires Legal(plan, log, e) && Disciplined(plan, log, e) && e.note.External? && SupplyInv(plan, log, i, k)
    ensures SupplyInv(plan, log + [e], i, k)
  {
    hide RevisionSafe, RunInv, Legal, Disciplined, Reaches, DoneStages, WrittenAt, ReadAt, NothingRevised, Present;
    hide Reviewer;
    OutputKeepsYoung(plan, log, e, i);
    ExternalShape(plan, log, e);
    OutputShape(plan, log, e);
    assert Last(log + [e]) == e;
    if e.changed.value == SemanticContractSection {
      ContractIsNotOwnedBy(plan, i, k, y);
      SupplyStamps(log, e, y);
    } else {
      ContractStays(log, e);
      assert e.changed.value != y by { ExternalLeavesOwned(plan, log, e, k, y); }
    }
  }

  lemma SupplyStamps(log: Log, e: Entry, y: Section)
    requires log != [] && e.changed == Some(SemanticContractSection) && y != SemanticContractSection
    ensures At(WrittenAt(log + [e]), SemanticContractSection) == |log| + 1
    ensures At(WrittenAt(log + [e]), y) <= |log|
    ensures Before(log + [e]) == Head(log) && Head(log + [e]) == e.state
  {
    hide WrittenAt, ReadAt;
    StampsExtend(log, e);
    StampsAreVersions(log);
    assert At(WrittenAt(log + [e]), y) == At(WrittenAt(log), y);
    assert (log + [e])[|log| - 1] == log[|log| - 1];
  }

  lemma ContractIsNotOwnedBy(plan: Plan, i: nat, k: nat, y: Section)
    requires RevisionSafe(plan) && RestsOn(plan, i, k, y)
    ensures y != SemanticContractSection
  {
    hide Accepted, Topological, ReviewersGuardTheRest, Reaches, Reviewer;
  }

  lemma ExternalShape(plan: Plan, log: Log, e: Entry)
    requires log != [] && Legal(plan, log, e) && e.note.External?
    ensures e.changed.Some? && e.changed.value != SupervisorSection
  {
  }

  lemma ExternalLeavesOwned(plan: Plan, log: Log, e: Entry, k: nat, y: Section)
    requires k < |plan| && Owns(plan[k], y) && e.changed.Some? && e.changed.value != SemanticContractSection
    requires e.note.External? && Disciplined(plan, log, e)
    ensures e.changed.value != y
  {
  }

  lemma InitialSupply(plan: Plan, i: nat, k: nat, y: Section)
    requires RestsOn(plan, i, k, y)
    ensures SupplyInv(plan, [InitialEntry()], i, k)
  {
    hide Reaches, Reviewer;
    assert WrittenAt([InitialEntry()]) == map[];
    assert HistoryOf(EmptyWorkflow()) == [];
    assert ProgressOf(EmptyWorkflow()) == NO_PROGRESS;
  }

  lemma {:induction false} RunKeepsSupply(plan: Plan, log: Log, i: nat, k: nat, y: Section)
    requires RevisionSafe(plan) && RestsOn(plan, i, k, y) && LegalLog(plan, log) && DisciplinedLog(plan, log)
    ensures SupplyInv(plan, log, i, k)
    decreases |log|
  {
    hide RunInv, RevisionSafe, Legal, Disciplined, SupplyInv, RestsOn;
    if |log| == 1 {
      assert log == [InitialEntry()];
      InitialSupply(plan, i, k, y);
    } else {
      var init, e := log[..|log| - 1], Last(log);
      assert init + [e] == log;
      RunKeepsSupply(plan, init, i, k, y);
      RunKeepsInv(plan, init);
      RunKeepsInv(plan, log);
      match e.note
      case Decided(_, _) => DecisionKeepsSupply(plan, init, e, i, k, y);
      case Produced(_, _) => OutputKeepsSupply(plan, init, e, i, k, y);
      case Marked(_) => MarkKeepsSupply(plan, init, e, i, k, y);
      case Committed(_) => CommitKeepsSupply(plan, init, e, i, k, y);
      case External => ExternalKeepsSupply(plan, init, e, i, k, y);
      case Created => NeverCreatedTwice(plan, init, e);
    }
  }

  // ----- Theorems -------------------------------------------------------------------------

  /** A stamp names the entry that wrote the section's present value. */
  lemma {:induction false} NewestWriter(plan: Plan, log: Log, x: Section)
    requires LegalLog(plan, log) && At(WrittenAt(log), x) > 0
    ensures 2 <= At(WrittenAt(log), x) <= |log|
    ensures
      var u := At(WrittenAt(log), x) - 1;
      && log[u].changed == Some(x)
      && log[u].state[x] == Head(log)[x]
      && At(ReadAt(log), x) == BaseOf(log[u].note)
    decreases |log|
  {
    hide Legal, Fits;
    if |log| > 1 {
      var init, e := log[..|log| - 1], Last(log);
      assert init + [e] == log;
      LegalReplaces(plan, init, e);
      StampsExtend(init, e);
      if e.changed != Some(x) {
        NewestWriter(plan, init, x);
      }
    }
  }

  lemma ContractWriters(plan: Plan, log: Log, e: Entry)
    requires LegalLog(plan, log) && Legal(plan, log, e) && e.changed == Some(SemanticContractSection)
    ensures e.note.External? || (e.note.Produced? && e.note.run.base >= 1)
  {
    hide Decide, Recorded, MayDecide, MarkedHistory, Free, OpenOf;
    if e.note.Produced? {
      OpenIsUnbroken(plan, log);
    }
  }

  /** The contract is supplied exactly when a client wrote it last. */
  lemma SuppliedByClient(plan: Plan, log: Log)
    requires LegalLog(plan, log) && At(WrittenAt(log), SemanticContractSection) > 0
    ensures 2 <= At(WrittenAt(log), SemanticContractSection) <= |log|
    ensures IsSupplied(log) <==> log[At(WrittenAt(log), SemanticContractSection) - 1].note.External?
  {
    hide Legal, LegalLog, WrittenAt, ReadAt;
    var x := SemanticContractSection;
    NewestWriter(plan, log, x);
    var u := At(WrittenAt(log), x) - 1;
    LegalPrefix(plan, log, u);
    ContractWriters(plan, log[..u], log[u]);
  }

  /** For every run of every such plan: once the contract's stage is done, the contract is older than
      what stage k produced if and only if a client wrote it last, on a version on which stage k was
      neither done nor had its output. */
  lemma ContractIsOlderExactly(plan: Plan, log: Log, i: nat, k: nat, y: Section)
    requires RevisionSafe(plan) && RestsOn(plan, i, k, y) && LegalLog(plan, log) && DisciplinedLog(plan, log)
    requires plan[i].stage in DoneStages(ProgressOf(Head(log)))
    ensures 2 <= At(WrittenAt(log), SemanticContractSection) <= |log|
    ensures At(WrittenAt(log), SemanticContractSection) < At(WrittenAt(log), y) <==>
      && log[At(WrittenAt(log), SemanticContractSection) - 1].note.External?
      && !Settled(plan, k, Before(log))
  {
    hide Acyclic, KnownDependencies, Topological, DisjointOutputs, ReviewersGuardTheRest, LegalLog, DisciplinedLog;
    hide WrittenAt, ReadAt, DoneStages, Reaches, Reviewer, NothingRevised, NotRunning, OutputsPresent;
    IndexIsUnique(plan, i);
    IndexIsUnique(plan, k);
    NoStaleOutput(plan, log, plan[i].stage, plan[k].stage, SemanticContractSection, y);
    SuppliedByClient(plan, log);
    if IsSupplied(log) {
      RunKeepsSupply(plan, log, i, k, y);
      RunKeepsInv(plan, log);
      BothDone(plan, log, i, k);
    }
  }

  lemma BothDone(plan: Plan, log: Log, i: nat, k: nat)
    requires RunInv(plan, log) && i < |plan| && k < |plan| && Reaches(plan, plan[i].stage, plan[k].stage)
    requires plan[i].stage in DoneStages(ProgressOf(Head(log)))
    ensures plan[k].stage in DoneStages(ProgressOf(Head(log)))
  {
    hide FreshStage, Touched, Untouched, OpenInv, PendingInv, PresentWasWritten, Reaches, DoneStages;
    ReachesStaysDown(plan, DoneStages(ProgressOf(Head(log))), plan[i].stage, plan[k].stage);
  }
}
