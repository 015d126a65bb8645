/** What a normal return of the executor means: the post it leaves is finished, approved, and was judged as
    it stands. */
module CompletionSafety {
  import opened Vocabulary
  import opened StageGraph
  import opened Workflows
  import opened Supervisor
  import opened VersionLog
  import opened Freshness
  import opened Gates
  import opened DefaultPlan
  import opened CheckpointStores
  import opened Executors

  /** Nothing is open in this state of a workflow. */
  predicate Delivered(w: Workflow) {
    && !GateClosed(w) && !RequestOpen(w) && !AnswerOwed(w)
    && (forall s: Stage :: s in ProgressOf(w).completed || s in ProgressOf(w).skipped)
    && Passed(w[VerificationSection]) && Passed(w[QualitySection])
    && Passed(w[DesignQualitySection]) && Passed(w[QualityApprovalSection])
  }

  /** Every report was computed from a state that held the last composition. */
  ghost predicate JudgedAsItStands(log: Log) {
    forall s :: ReportOf(s).Some? ==>
      && 0 < At(WrittenAt(log), PostDraftSection) <= At(ReadAt(log), ReportOf(s).value)
      && At(ReadAt(log), ReportOf(s).value) < At(WrittenAt(log), ReportOf(s).value)
  }

  /** The version at v records an approval by this writer, on a version that deserved it; only the
      supervisor's own section changed between the two. */
  ghost predicate EarnedAt(log: Log, me: Author, v: nat) {
    && 1 <= v < |log|
    && log[v].author == me
    && log[v].note.Decided? && log[v].note.decision.reason == WorkflowComplete
    && Delivered(log[v - 1].state)
    && JudgedAsItStands(log[..v])
    && forall x :: x != SupervisorSection ==> log[v].state[x] == log[v - 1].state[x]
  }

  lemma ApprovalIsEarnedAt(log: Log, me: Author, v: nat)
    requires LegalLog(ShippedPlan(), log) && DisciplinedLog(ShippedPlan(), log) && 1 <= v < |log|
    requires log[v].author == me && log[v].note.Decided? && log[v].note.decision.reason == WorkflowComplete
    ensures EarnedAt(log, me, v)
  {
    hide LegalLog, DisciplinedLog, AllDone, ReportsPass, RequestOpen, AnswerOwed;
    hide GateClosed, JudgedAsItStands, Legal;
    var plan, w := ShippedPlan(), log[v - 1].state;
    ShippedIsAccepted();
    ApprovalIsEarned(plan, log, v);
    PassingShippedReports(w);
    forall s: Stage ensures s in ProgressOf(w).completed || s in ProgressOf(w).skipped {
      AllDoneMeans(w, s);
    }
    ReportsJudge(log, v);
    LegalPrefix(plan, log, v);
    DecisionsKeepSections(plan, log[..v], log[v]);
    assert Head(log[..v]) == w;
  }

  lemma ReportsJudge(log: Log, v: nat)
    requires LegalLog(ShippedPlan(), log) && DisciplinedLog(ShippedPlan(), log) && 1 <= v < |log|
    requires log[v].note.Decided? && log[v].note.decision.reason == WorkflowComplete
    ensures JudgedAsItStands(log[..v])
  {
    hide LegalLog, DisciplinedLog, Legal, WrittenAt, ReadAt;
    var upto := log[..v + 1];
    LegalPrefix(ShippedPlan(), log, v + 1);
    DisciplinedPrefix(ShippedPlan(), log, v + 1);
    assert upto[..|upto| - 1] == log[..v] && Last(upto) == log[v];
    forall s | ReportOf(s).Some?
      ensures 0 < At(WrittenAt(log[..v]), PostDraftSection) <= At(ReadAt(log[..v]), ReportOf(s).value)
      ensures At(ReadAt(log[..v]), ReportOf(s).value) < At(WrittenAt(log[..v]), ReportOf(s).value)
    {
      ApprovedReportsJudgeTheLastComposition(upto, s);
    }
  }

  lemma DecisionsKeepSections(plan: Plan, log: Log, e: Entry)
    requires log != [] && Legal(plan, log, e) && e.note.Decided?
    ensures forall x :: x != SupervisorSection ==> e.state[x] == Head(log)[x]
  {
    hide Decide, Recorded, MayDecide;
  }

  /** Completion safety. When execute has returned normally with the shipped plan, its newest entry is an
      approval of a version in which every stage is done, nothing is pending, blocked or to be clarified,
      all verdicts are PASS, and each report judged the last composition. */
  lemma NormalReturnIsEarned(executor: PostSupervisorExecutor)
    requires executor.plan == ShippedPlan() && executor.store.Valid() && executor.Approved()
    requires LegalLog(ShippedPlan(), executor.store.Log()) && DisciplinedLog(ShippedPlan(), executor.store.Log())
    ensures
      var log := executor.store.Log();
      NewestBy(log, executor.me).Some? && EarnedAt(log, executor.me, NewestBy(log, executor.me).value)
  {
    hide LegalLog, DisciplinedLog, EarnedAt, CheckpointStore.Valid;
    var log := executor.store.Log();
    var v := NewestBy(log, executor.me).value;
    assert v > 0 by {
      assert log[0] == InitialEntry();
    }
    ApprovalIsEarnedAt(log, executor.me, v);
  }
}
