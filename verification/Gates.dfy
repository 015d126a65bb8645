/** Hard gates: what a blocked verification, quality or approval report forbids from then on, and
    what an approval proves about the state it was given for. */
module Gates {
  import opened Vocabulary
  import opened StageGraph
  import opened Workflows
  import opened Supervisor
  import opened VersionLog

  predicate IsGate(x: Section) {
    x in {VerificationSection, QualitySection, QualityApprovalSection}
  }

  /** A report that closes its gate. */
  predicate Closes(x: Section, v: Value) {
    v.Document? &&
    match x
    case VerificationSection => v.verdict == Blocked
    case QualitySection => v.hardFail || v.verdict in {Blocked, Reject}
    case QualityApprovalSection => v.verdict == Reject
    case _ => false
  }

  lemma BlockedByAGate(w: Workflow)
    ensures HardGateBlocked(w) <==> exists x :: IsGate(x) && Closes(x, w[x])
  {
    if HardGateBlocked(w) {
      assert Closes(VerificationSection, w[VerificationSection])
          || Closes(QualitySection, w[QualitySection])
          || Closes(QualityApprovalSection, w[QualityApprovalSection]);
    }
  }

  /** While an execution is open, only its own outputs so far, and the history, differ from the
      state its handler read. */
  lemma {:induction false} RunChangesOnlyItsOutputs(plan: Plan, log: Log)
    requires LegalLog(plan, log) && OpenOf(plan, log).Open?
    ensures
      var run, n := OpenOf(plan, log).run, OpenOf(plan, log).written;
      && 1 <= run.base <= |log| && n <= |OutputsOf(plan, run.stage)|
      && forall x :: x !in OutputsOf(plan, run.stage)[..n] && x != RevisionHistorySection ==>
           Head(log)[x] == log[run.base - 1].state[x]
    decreases |log|
  {
    hide Legal, MayDecide, Decide, Recorded, MarkedHistory, Free;
    OpenIsUnbroken(plan, log);
    if !Last(log).note.Decided? {
      var init, e := log[..|log| - 1], Last(log);
      ContinuesRun(plan, init, e);
      RunChangesOnlyItsOutputs(plan, init);
    }
  }

  lemma ContinuesRun(plan: Plan, log: Log, e: Entry)
    requires log != [] && Legal(plan, log, e) && (e.note.Produced? || e.note.Marked?)
    ensures
      var run := e.note.run;
      var outputs := OutputsOf(plan, run.stage);
      var n := if e.note.Produced? then e.note.k else |outputs|;
      && OpenOf(plan, log) == Open(e.author, run, n)
      && n <= |outputs|
      && (e.note.Produced? ==>
           n < |outputs| && e.changed == Some(outputs[n]) && outputs[..n + 1] == outputs[..n] + [outputs[n]])
      && (e.note.Marked? ==> e.changed == Some(RevisionHistorySection))
      && forall x :: Some(x) != e.changed ==> e.state[x] == Head(log)[x]
  {
    hide MayDecide, Decide, Recorded, MarkedHistory, Free;
  }

  /** The handler of an open execution was not started on a blocked state. */
  lemma {:induction false} OpenWasNotBlocked(plan: Plan, log: Log)
    requires LegalLog(plan, log) && OpenOf(plan, log).Open?
    ensures 1 <= OpenOf(plan, log).run.base <= |log|
    ensures !HardGateBlocked(log[OpenOf(plan, log).run.base - 1].state)
    decreases |log|
  {
    hide Legal, MayDecide, Decide, Recorded, MarkedHistory, Free, HardGateBlocked;
    OpenIsUnbroken(plan, log);
    var init, e := log[..|log| - 1], Last(log);
    if e.note.Decided? {
      RunningMeansUnblocked(plan, init, e);
    } else {
      ContinuesRun(plan, init, e);
      OpenWasNotBlocked(plan, init);
    }
  }

  lemma RunningMeansUnblocked(plan: Plan, log: Log, e: Entry)
    requires log != [] && Legal(plan, log, e) && e.note.Decided?
    ensures e.note.decision.action != Stop ==> !HardGateBlocked(Head(log))
    ensures HardGateBlocked(e.state) <==> HardGateBlocked(Head(log))
  {
    hide MayDecide, Decide, Recorded, MarkedHistory, Free;
    ActionOrigin(plan, Head(log), e.note.available);
  }

  /** One accepted write keeps a closed gate closed and starts no handler. */
  lemma BlockedStep(plan: Plan, log: Log, e: Entry)
    requires log != [] && Accepted(plan) && LegalLog(plan, log) && Legal(plan, log, e) && HardGateBlocked(Head(log))
    requires e.note.External? ==> e.changed.Some? && !IsGate(e.changed.value)
    ensures HardGateBlocked(e.state)
    ensures e.note.Decided? ==> !Runs(e.note.decision)
  {
    hide LegalLog, Legal, MayDecide, Decide, Recorded, MarkedHistory, Free, HardGateBlocked, Accepted, IsGate, Closes;
    LegalReplaces(plan, log, e);
    BlockedByAGate(Head(log));
    BlockedByAGate(e.state);
    if e.note.Decided? {
      RunningMeansUnblocked(plan, log, e);
    } else {
      var x :| IsGate(x) && Closes(x, Head(log)[x]);
      GateIsNotRewritten(plan, log, e, x);
      assert e.state[x] == Head(log)[x];
    }
  }

  lemma GateIsNotRewritten(plan: Plan, log: Log, e: Entry, x: Section)
    requires log != [] && Accepted(plan) && LegalLog(plan, log) && Legal(plan, log, e) && !e.note.Decided?
    requires IsGate(x) && Closes(x, Head(log)[x])
    requires e.note.External? ==> e.changed.Some? && !IsGate(e.changed.value)
    ensures e.changed != Some(x)
  {
    hide LegalLog, Legal, MayDecide, Decide, Recorded, MarkedHistory, Free, HardGateBlocked, Closes, Acyclic;
    hide KnownDependencies;
    match e.note
    case Produced(run, k) =>
      ContinuesRun(plan, log, e);
      RunChangesOnlyItsOutputs(plan, log);
      OpenWasNotBlocked(plan, log);
      BlockedByAGate(log[run.base - 1].state);
      assert x in OutputsOf(plan, run.stage)[..k];
      OutputsAreDistinct(plan, run.stage);
    case Marked(_) => ContinuesRun(plan, log, e);
    case Committed(_) => CommitChangesSupervisor(plan, log, e);
    case External =>
    case Created => CommitChangesSupervisor(plan, log, e);
    case Decided(_, _) =>
  }

  lemma CommitChangesSupervisor(plan: Plan, log: Log, e: Entry)
    requires log != [] && Legal(plan, log, e)
    ensures e.note.Committed? ==> e.changed == Some(SupervisorSection)
    ensures !e.note.Created?
  {
    hide MayDecide, Decide, Recorded, MarkedHistory, Free;
  }

  /** A persisted BLOCKED or REJECT gate is final: as long as no API write touches a gate, it stays
      closed in every later version and no later decision runs a handler. */
  lemma {:induction false} ClosedGateIsFinal(plan: Plan, log: Log, i: nat, j: nat)
    requires Accepted(plan) && LegalLog(plan, log) && i < j < |log|
    requires HardGateBlocked(log[i].state)
    requires forall v :: i < v <= j && log[v].note.External? ==> log[v].changed.Some? && !IsGate(log[v].changed.value)
    ensures HardGateBlocked(log[j].state)
    ensures log[j].note.Decided? ==> !Runs(log[j].note.decision)
    decreases j
  {
    hide LegalLog, Legal, HardGateBlocked, Accepted, IsGate, Runs;
    if i < j - 1 {
      ClosedGateIsFinal(plan, log, i, j - 1);
    }
    LegalPrefix(plan, log, j);
    BlockedStep(plan, log[..j], log[j]);
  }

  /** An approval is recorded only on a state in which every stage is done, no gate is closed, no
      revision is pending, the client owes no answer and every report says PASS. */
  lemma ApprovalIsEarned(plan: Plan, log: Log, v: nat)
    requires Accepted(plan) && LegalLog(plan, log) && 1 <= v < |log|
    requires log[v].note.Decided? && log[v].note.decision.reason == WorkflowComplete
    ensures
      var w := log[v - 1].state;
      && !GateClosed(w) && !RequestOpen(w) && !AnswerOwed(w)
      && AllDone(plan, w) && ReportsPass(plan, w)
  {
    hide LegalLog, Legal, GateClosed, Accepted, RequestOpen, AnswerOwed, AllDone, ReportsPass, Decide;
    LegalPrefix(plan, log, v);
    DecisionIsDecided(plan, log[..v], log[v]);
    CompletionExactly(plan, log[v - 1].state, log[v].note.available);
  }
}
