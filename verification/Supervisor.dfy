/** The deterministic control plane over a persisted workflow state: which stage runs next,
    and how the progress record changes when a decision is taken or a stage completes. */
module Supervisor {
  import opened Vocabulary
  import opened StageGraph
  import opened Workflows

  /** ValueError on a pending revision without a stage, KeyError on one outside the plan. */
  datatype SupervisorError = RevisionWithoutTarget | StageOutsidePlan

  function DoneStages(p: Progress): set<Stage> {
    Elements(p.completed) + Elements(p.skipped)
  }

  function AttemptsOf(p: Progress, s: Stage): nat {
    if s in p.attempts then p.attempts[s] else 0
  }

  function Halt(next: Option<Stage>, reason: Reason, state: seq<Section>, terminal: bool): Decision {
    Decision(Stop, next, reason, [], state, terminal)
  }

  predicate OutputsPresent(w: Workflow, sections: seq<Section>) {
    sections != [] && forall s :: s in sections ==> Present(w[s])
  }

  function MissingSections(w: Workflow, sections: seq<Section>): (r: seq<Input>)
    ensures r == [] <==> forall s :: s in sections ==> Present(w[s])
  {
    if sections == [] then [] else
      var rest := MissingSections(w, sections[1..]);
      assert forall s :: s in sections <==> s == sections[0] || s in sections[1..];
      if Present(w[sections[0]]) then rest else [SectionInput(sections[0])] + rest
  }

  /** _pending_revision_target: the stage the newest history entry asks to redo, if it is pending. */
  function PendingTarget(w: Workflow): Result<Option<Stage>, SupervisorError> {
    var history := HistoryOf(w);
    if history == [] || history[|history| - 1].status != Pending then Success(None)
    else if history[|history| - 1].target == None then Failure(RevisionWithoutTarget)
    else Success(history[|history| - 1].target)
  }

  predicate RevisionPending(w: Workflow) {
    PendingTarget(w) != Success(None)
  }

  /** The persisted gates that end a workflow whatever else it holds. */
  predicate HardGateBlocked(w: Workflow) {
    || VerdictOf(w, VerificationSection) == Blocked
    || (w[QualitySection].Document? && w[QualitySection].hardFail)
    || VerdictOf(w, QualitySection) in {Blocked, Reject}
    || VerdictOf(w, QualityApprovalSection) == Reject
  }

  function HardGateDecision(w: Workflow): (d: Decision)
    requires HardGateBlocked(w)
    ensures d.action == Stop && d.terminal && d.reason in {VerificationBlocked, QualityBlocked, ApprovalRejected}
  {
    if VerdictOf(w, VerificationSection) == Blocked then
      Halt(None, VerificationBlocked, [VerificationSection], true)
    else if (w[QualitySection].Document? && w[QualitySection].hardFail)
            || VerdictOf(w, QualitySection) in {Blocked, Reject} then
      Halt(None, QualityBlocked, [QualitySection], true)
    else
      Halt(None, ApprovalRejected, [QualityApprovalSection], true)
  }

  function RevisionDecision(plan: Plan, w: Workflow, target: Stage,
                            available: Option<set<Stage>>): (r: Result<Decision, SupervisorError>)
    ensures r.Success? ==>
      && r.value.next == Some(target)
      && r.value.action == (if r.value.reason == RevisionRequested then Revise else Stop)
      && r.value.reason in {ContractImmutable, InputsMissing, HandlerMissing, RevisionRequested}
      && (r.value.action == Revise ==> Listed(plan, target))
  {
    if target == SemanticContract then
      Success(Halt(Some(target), ContractImmutable, [SemanticContractSection], true))
    else if !Listed(plan, target) then
      Failure(StageOutsidePlan)
    else
      var policy := PolicyOf(plan, target);
      var missing := MissingSections(w, policy.required);
      if missing != [] then Success(Decision(Stop, Some(target), InputsMissing, missing, policy.required, false))
      else if available.Some? && target !in available.value then
        Success(Decision(Stop, Some(target), HandlerMissing, [HandlerInput(target)], [], false))
      else Success(Decision(Revise, Some(target), RevisionRequested, [], policy.required, false))
  }

  predicate AwaitsClarification(w: Workflow) {
    && ClientUnderstanding in DoneStages(ProgressOf(w))
    && w[BriefSection].Document?
    && w[BriefSection].clarification.Some?
    && w[BriefSection].clarification.value.requiresUserInput
  }

  function ClarificationDecision(w: Workflow): (d: Decision)
    requires AwaitsClarification(w)
    ensures d.action == Stop && d.reason == ClarificationRequired
  {
    var questions := w[BriefSection].clarification.value.questions;
    Decision(Stop, Some(ClientUnderstanding), ClarificationRequired,
             seq(|questions|, i requires 0 <= i < |questions| => ClarificationInput(questions[i])),
             [BriefSection], false)
  }

  /** One turn of decide's loop over the plan: None where the loop continues. */
  function Consider(policy: Policy, w: Workflow, available: Option<set<Stage>>): Option<Decision> {
    var p := ProgressOf(w);
    var s := policy.stage;
    if s in DoneStages(p) then None
    else if s !in p.invalidated && OutputsPresent(w, policy.outputs) then
      Some(Decision(Skip, Some(s), OutputExists, [], policy.required, false))
    else if policy.optional && s in p.requestedSkips then
      Some(Decision(Skip, Some(s), ExplicitlySkipped, [], policy.required, false))
    else if exists d :: d in policy.dependencies && d !in DoneStages(p) then None
    else
      var missing := MissingSections(w, policy.required);
      if missing != [] then Some(Decision(Stop, Some(s), InputsMissing, missing, policy.required, false))
      else if AttemptsOf(p, s) >= policy.maxAttempts then
        Some(Halt(Some(s), RetryLimitExhausted, policy.required, true))
      else if available.Some? && s !in available.value then
        Some(Decision(Stop, Some(s), HandlerMissing, [HandlerInput(s)], [], false))
      else if AttemptsOf(p, s) > 0 then Some(Decision(Retry, Some(s), RetryingStage, [], policy.required, false))
      else Some(Decision(Continue, Some(s), StageReady, [], policy.required, false))
  }

  /** decide's loop over the plan, from a position onwards. */
  function Scan(plan: Plan, i: nat, w: Workflow, available: Option<set<Stage>>): (r: Option<Decision>)
    requires i <= |plan|
    ensures r.Some? ==> exists j :: i <= j < |plan| && r == Consider(plan[j], w, available)
                                    && forall k :: i <= k < j ==> Consider(plan[k], w, available) == None
    ensures r.None? ==> forall j :: i <= j < |plan| ==> Consider(plan[j], w, available) == None
    decreases |plan| - i
  {
    if i == |plan| then None
    else if Consider(plan[i], w, available).Some? then Consider(plan[i], w, available)
    else Scan(plan, i + 1, w, available)
  }

  /** The checks after every stage is done. */
  function FinalDecision(plan: Plan, w: Workflow): Decision {
    if |DoneStages(ProgressOf(w))| < |plan| then Halt(None, NoProgressPossible, [], true)
    else if Listed(plan, Verification) && VerdictOf(w, VerificationSection) != Pass then
      Halt(Some(Verification), VerificationNotPassed, [VerificationSection], false)
    else if VerdictOf(w, QualitySection) != Pass then
      Halt(Some(QualityReview), QualityNotPassed, [QualitySection], false)
    else if Listed(plan, DesignReview) && VerdictOf(w, DesignQualitySection) != Pass then
      Halt(Some(DesignReview), DesignNotPassed, [DesignQualitySection], false)
    else if Listed(plan, QualityScoring) && VerdictOf(w, QualityApprovalSection) != Pass then
      Halt(Some(QualityScoring), ApprovalNotPassed, [QualityApprovalSection], false)
    else
      Halt(None, WorkflowComplete,
           [VerificationSection, QualitySection, DesignQualitySection, QualityApprovalSection], true)
  }

  /** The ordinary case: the first stage the plan can act on, or the closing verdict. */
  function Route(plan: Plan, w: Workflow, available: Option<set<Stage>>): Decision {
    match Scan(plan, 0, w, available)
    case Some(d) => d
    case None => FinalDecision(plan, w)
  }

  /** PostSupervisor.decide. */
  function Decide(plan: Plan, w: Workflow, available: Option<set<Stage>>): Result<Decision, SupervisorError> {
    if HardGateBlocked(w) then Success(HardGateDecision(w))
    else match PendingTarget(w)
      case Failure(e) => Failure(e)
      case Success(Some(target)) => RevisionDecision(plan, w, target, available)
      case Success(None) =>
        if AwaitsClarification(w) then Success(ClarificationDecision(w))
        else Success(Route(plan, w, available))
  }

  /** A decision after which the executor runs a handler. */
  predicate Runs(d: Decision) {
    d.action in {Continue, Retry, Revise} && d.next.Some?
  }

  // ----- Progress -----------------------------------------------------------------------

  /** The progress record_decision writes. */
  ghost function Recorded(plan: Plan, p: Progress, d: Decision): Progress {
    var p1 := p.(lastDecision := Some(d));
    if d.next.None? then p1
    else if d.action == Skip then
      p1.(skipped := AppendUnique(p.skipped, d.next.value), current := None)
    else if d.action == Stop then p1
    else
      var s := d.next.value;
      var p2 :=
        if d.action == Revise then
          var affected := Downstream(plan, s);
          p1.(invalidated := affected,
              completed := Without(p.completed, Elements(affected)),
              skipped := Without(p.skipped, Elements(affected)))
        else p1;
      p2.(current := d.next, attempts := p.attempts[s := AttemptsOf(p, s) + 1])
  }

  /** PostSupervisor.record_decision, on a copy of the progress record. */
  method RecordDecision(plan: Plan, w: Workflow, d: Decision) returns (p: Progress)
    requires UniqueStages(plan)
    ensures p == Recorded(plan, ProgressOf(w), d)
  {
    p := ProgressOf(w);
    p := p.(lastDecision := Some(d));
    if d.next.Some? {
      var s := d.next.value;
      if d.action == Skip {
        p := p.(skipped := AppendUnique(p.skipped, s));
        p := p.(current := None);
      } else if d.action != Stop {
        if d.action == Revise {
          var affected := DownstreamOf(plan, s);
          p := p.(invalidated := affected);
          p := p.(completed := Without(p.completed, Elements(affected)));
          p := p.(skipped := Without(p.skipped, Elements(affected)));
        }
        p := p.(current := d.next);
        p := p.(attempts := p.attempts[s := AttemptsOf(p, s) + 1]);
      }
    }
  }

  /** The progress mark_stage_completed writes. */
  function CompletedProgress(p: Progress, s: Stage): Progress {
    p.(completed := AppendUnique(p.completed, s), invalidated := Without(p.invalidated, {s}), current := None)
  }

  /** The history mark_stage_completed writes: a pending request for this very stage is closed. */
  function MarkedHistory(history: seq<Revision>, s: Stage): seq<Revision> {
    if history != [] && history[|history| - 1].status == Pending && history[|history| - 1].target == Some(s)
    then history[|history| - 1 := history[|history| - 1].(status := Completed)]
    else history
  }

  /** Completing a stage adds it to the completed ones, in whose order nothing changes, takes it alone
      off the invalidated ones, and keeps everything else but the current stage. */
  lemma CompletionExtends(p: Progress, s: Stage)
    ensures
      var r := CompletedProgress(p, s);
      && p.completed <= r.completed && |r.completed| <= |p.completed| + 1
      && (forall x :: x in r.completed <==> x in p.completed || x == s)
      && (forall x :: x in r.invalidated <==> x in p.invalidated && x != s)
      && r == p.(completed := r.completed, invalidated := r.invalidated, current := None)
  {
    assert forall x :: x in Without(p.invalidated, {s}) <==> x in Elements(Without(p.invalidated, {s}));
  }

  lemma MarkingClosesThePendingRevision(w: Workflow, s: Stage)
    ensures MarkedHistory(HistoryOf(w), s) != HistoryOf(w) <==> PendingTarget(w) == Success(Some(s))
    ensures MarkedHistory(HistoryOf(w), s) != HistoryOf(w) ==>
      PendingTarget(Put(w, RevisionHistorySection, History(MarkedHistory(HistoryOf(w), s)))) == Success(None)
  {
    var h := HistoryOf(w);
    if h != [] && h[|h| - 1].status == Pending && h[|h| - 1].target == Some(s) {
      assert MarkedHistory(h, s)[|h| - 1].status == Completed;
      var w2 := Put(w, RevisionHistorySection, History(MarkedHistory(h, s)));
      assert HistoryOf(w2) == MarkedHistory(h, s);
    }
  }

  // ----- What a decision means ----------------------------------------------------------

  /** Every stage of the plan has completed or was skipped. */
  predicate AllDone(plan: Plan, w: Workflow) {
    forall i :: 0 <= i < |plan| ==>
      plan[i].stage in ProgressOf(w).completed || plan[i].stage in ProgressOf(w).skipped
  }

  /** The loop passes over a stage only if it is done or waits for a dependency; otherwise it
      returns a decision about that very stage, never one of the closing verdicts. */
  lemma ConsiderOutcome(policy: Policy, w: Workflow, available: Option<set<Stage>>)
    ensures Consider(policy, w, available) == None ==>
      || policy.stage in DoneStages(ProgressOf(w))
      || exists d :: d in policy.dependencies && d !in DoneStages(ProgressOf(w))
    ensures Consider(policy, w, available).Some? ==>
      && policy.stage !in DoneStages(ProgressOf(w))
      && Consider(policy, w, available).value.next == Some(policy.stage)
      && Consider(policy, w, available).value.reason !in {NoProgressPossible, WorkflowComplete}
      && Consider(policy, w, available).value.reason !in
         {VerificationBlocked, QualityBlocked, ApprovalRejected, ClarificationRequired, RevisionRequested}
      && (Consider(policy, w, available).value.action in {Continue, Retry} ==>
            AttemptsOf(ProgressOf(w), policy.stage) < policy.maxAttempts)
  {
  }

  /** If some listed stage is not done, one whose dependencies are all done exists: descend along
      the rank. */
  lemma {:induction false} ReadyStageExists(plan: Plan, rank: map<Stage, nat>, done: set<Stage>,
                                            i: nat) returns (j: nat)
    requires UniqueStages(plan) && KnownDependencies(plan) && IsRank(plan, rank)
    requires i < |plan| && plan[i].stage !in done
    ensures j < |plan| && plan[j].stage !in done
    ensures forall d :: d in plan[j].dependencies ==> d in done
    decreases if plan[i].stage in rank then rank[plan[i].stage] else 0
  {
    if forall d :: d in plan[i].dependencies ==> d in done {
      j := i;
    } else {
      var d :| d in plan[i].dependencies && d !in done;
      IndexIsUnique(plan, i);
      assert Listed(plan, d);
      j := ReadyStageExists(plan, rank, done, IndexOf(plan, d));
    }
  }

  /** Deadlock freedom: under every plan the constructor accepts, in any listing order, and
      whatever the persisted progress says, decide never reports a stuck dependency graph. */
  lemma DecideNeverDeadlocks(plan: Plan, w: Workflow, available: Option<set<Stage>>)
    requires Accepted(plan)
    ensures Decide(plan, w, available).Success? ==>
      Decide(plan, w, available).value.reason != NoProgressPossible
  {
    hide HardGateBlocked, HardGateDecision, RevisionDecision, AwaitsClarification, ClarificationDecision, Route;
    RouteNeverDeadlocks(plan, w, available);
  }

  lemma RouteNeverDeadlocks(plan: Plan, w: Workflow, available: Option<set<Stage>>)
    requires Accepted(plan)
    ensures Route(plan, w, available).reason != NoProgressPossible
  {
    hide Consider, Accepted, Scan;
    if Scan(plan, 0, w, available) == None {
      EveryStageDoneWhenScanFallsThrough(plan, w, available);
      CoversEveryStage(plan, w);
    } else {
      ScanOutcome(plan, w, available);
    }
  }

  lemma ScanOutcome(plan: Plan, w: Workflow, available: Option<set<Stage>>)
    ensures Scan(plan, 0, w, available).Some? ==>
      Scan(plan, 0, w, available).value.reason !in {NoProgressPossible, WorkflowComplete}
    ensures Scan(plan, 0, w, available).Some? ==>
      Scan(plan, 0, w, available).value.reason !in
        {VerificationBlocked, QualityBlocked, ApprovalRejected, ClarificationRequired, RevisionRequested}
  {
    hide Consider;
    if Scan(plan, 0, w, available).Some? {
      var j :| 0 <= j < |plan| && Scan(plan, 0, w, available) == Consider(plan[j], w, available);
      ConsiderOutcome(plan[j], w, available);
    }
  }

  lemma CoversEveryStage(plan: Plan, w: Workflow)
    requires Accepted(plan) && AllDone(plan, w)
    ensures |DoneStages(ProgressOf(w))| >= |plan|
  {
    hide Acyclic, KnownDependencies;
    StagesCardinality(plan);
    forall s | s in Stages(plan) ensures s in DoneStages(ProgressOf(w)) {
      var i :| 0 <= i < |plan| && plan[i].stage == s;
    }
    SubsetCardinality(Stages(plan), DoneStages(ProgressOf(w)));
  }

  lemma EveryStageDoneWhenScanFallsThrough(plan: Plan, w: Workflow, available: Option<set<Stage>>)
    requires Accepted(plan) && Scan(plan, 0, w, available) == None
    ensures AllDone(plan, w)
  {
    hide Consider;
    var done := DoneStages(ProgressOf(w));
    if i :| 0 <= i < |plan| && plan[i].stage !in done {
      var rank :| IsRank(plan, rank);
      var j := ReadyStageExists(plan, rank, done, i);
      ConsiderOutcome(plan[j], w, available);
    }
  }

  /** A section holds a report that says PASS. */
  predicate Passed(v: Value) {
    v.Document? && v.verdict == Pass
  }

  /** Every report the plan's review stages produce says PASS. */
  predicate ReportsPass(plan: Plan, w: Workflow) {
    && (Listed(plan, Verification) ==> Passed(w[VerificationSection]))
    && Passed(w[QualitySection])
    && (Listed(plan, DesignReview) ==> Passed(w[DesignQualitySection]))
    && (Listed(plan, QualityScoring) ==> Passed(w[QualityApprovalSection]))
  }

  /** A gate is closed: a report that ends the workflow whatever else it holds. */
  predicate GateClosed(w: Workflow) {
    || (w[VerificationSection].Document? && w[VerificationSection].verdict == Blocked)
    || (w[QualitySection].Document? &&
        (w[QualitySection].hardFail || w[QualitySection].verdict == Blocked || w[QualitySection].verdict == Reject))
    || (w[QualityApprovalSection].Document? && w[QualityApprovalSection].verdict == Reject)
  }

  /** The newest entry of the revision history is a request nobody has fulfilled. */
  predicate RequestOpen(w: Workflow) {
    var v := w[RevisionHistorySection];
    v.History? && |v.revisions| > 0 && v.revisions[|v.revisions| - 1].status == Pending
  }

  /** The client was understood, and the brief asks the client for an answer. */
  predicate AnswerOwed(w: Workflow) {
    && w[SupervisorSection].SupervisorProgress?
    && (ClientUnderstanding in w[SupervisorSection].progress.completed
        || ClientUnderstanding in w[SupervisorSection].progress.skipped)
    && w[BriefSection].Document?
    && w[BriefSection].clarification.Some?
    && w[BriefSection].clarification.value.requiresUserInput
  }

  lemma OpenExactly(w: Workflow)
    ensures GateClosed(w) <==> HardGateBlocked(w)
    ensures RequestOpen(w) <==> RevisionPending(w)
    ensures AnswerOwed(w) <==> AwaitsClarification(w)
  {
  }

  lemma RouteCompletes(plan: Plan, w: Workflow, available: Option<set<Stage>>)
    requires Accepted(plan)
    ensures Route(plan, w, available).reason == WorkflowComplete <==> AllDone(plan, w) && ReportsPass(plan, w)
  {
    hide Consider, Accepted, Scan, Listed;
    if Scan(plan, 0, w, available) == None {
      EveryStageDoneWhenScanFallsThrough(plan, w, available);
      CoversEveryStage(plan, w);
    } else {
      ScanOutcome(plan, w, available);
      SomeStageLeft(plan, w, available);
    }
  }

  lemma SomeStageLeft(plan: Plan, w: Workflow, available: Option<set<Stage>>)
    requires Scan(plan, 0, w, available).Some?
    ensures !AllDone(plan, w)
  {
    var j :| 0 <= j < |plan| && Scan(plan, 0, w, available) == Consider(plan[j], w, available);
    ConsiderOutcome(plan[j], w, available);
  }

  predicate Approves(r: Result<Decision, SupervisorError>) {
    r.Success? && r.value.reason == WorkflowComplete
  }

  /** Completion, exactly: decide approves a workflow if and only if no gate is closed, no revision is
      pending, the client owes no answer, every stage is done and every report the plan produces says
      PASS. */
  lemma CompletionExactly(plan: Plan, w: Workflow, available: Option<set<Stage>>)
    requires Accepted(plan)
    ensures Approves(Decide(plan, w, available)) <==>
      && !GateClosed(w) && !RequestOpen(w) && !AnswerOwed(w)
      && AllDone(plan, w) && ReportsPass(plan, w)
  {
    OpenExactly(w);
    hide HardGateBlocked, GateClosed, RequestOpen, AnswerOwed, ReportsPass, AllDone;
    hide HardGateDecision, RevisionDecision, AwaitsClarification, ClarificationDecision, Route;
    RouteCompletes(plan, w, available);
  }

  /** Where an action comes from: a revision from the pending request, anything else that is not a
      stop from the loop over the plan while nothing is pending. */
  lemma ActionOrigin(plan: Plan, w: Workflow, available: Option<set<Stage>>)
    requires Decide(plan, w, available).Success?
    ensures
      var d := Decide(plan, w, available).value;
      || d.action == Stop
      || (d.action == Revise && d.next.Some? && Listed(plan, d.next.value) && PendingTarget(w) == Success(d.next))
      || (d.action in {Continue, Retry, Skip} && PendingTarget(w) == Success(None)
           && Scan(plan, 0, w, available) == Some(d))
    ensures Decide(plan, w, available).value.action != Stop ==> !HardGateBlocked(w)
  {
    hide HardGateBlocked, HardGateDecision, RevisionDecision, AwaitsClarification, ClarificationDecision, Scan;
    RouteActions(plan, w, available);
  }

  lemma RouteActions(plan: Plan, w: Workflow, available: Option<set<Stage>>)
    ensures
      var d := Route(plan, w, available);
      d.action == Stop || (d.action in {Continue, Retry, Skip} && Scan(plan, 0, w, available) == Some(d))
  {
    hide Consider;
    if Scan(plan, 0, w, available).Some? {
      var j :| 0 <= j < |plan| && Scan(plan, 0, w, available) == Consider(plan[j], w, available);
      ConsiderActions(plan[j], w, available);
    }
  }

  // ----- The decision table --------------------------------------------------------------

  /** Neither an empty object nor an empty array. */
  predicate Filled(v: Value) {
    v != Empty && v != History([])
  }

  /** The stage's outputs are all there and were not invalidated. */
  predicate OutputsStand(policy: Policy, w: Workflow) {
    && policy.stage !in ProgressOf(w).invalidated
    && policy.outputs != []
    && forall x :: x in policy.outputs ==> Filled(w[x])
  }

  /** The loop passes a stage without running it. */
  predicate MaySkip(policy: Policy, w: Workflow) {
    OutputsStand(policy, w) || (policy.optional && policy.stage in ProgressOf(w).requestedSkips)
  }

  predicate DependenciesDone(policy: Policy, w: Workflow) {
    forall x :: x in policy.dependencies ==> x in ProgressOf(w).completed || x in ProgressOf(w).skipped
  }

  predicate InputsPresent(policy: Policy, w: Workflow) {
    forall x :: x in policy.required ==> Filled(w[x])
  }

  predicate HandlerThere(s: Stage, available: Option<set<Stage>>) {
    available == None || s in available.value
  }

  /** A decision about a stage names the sections it needs, and what is missing: the absent ones of
      them, or the handler. */
  ghost predicate NamesItsNeeds(policy: Policy, w: Workflow, d: Decision) {
    && (d.reason == InputsMissing ==>
         forall i :: i in d.requiredInputs <==>
           i.SectionInput? && i.section in policy.required && !Filled(w[i.section]))
    && (d.reason == HandlerMissing ==> d.requiredInputs == [HandlerInput(policy.stage)])
    && (d.reason !in {InputsMissing, HandlerMissing} ==> d.requiredInputs == [])
    && d.stateRequirements == (if d.reason == HandlerMissing then [] else policy.required)
  }

  lemma {:induction false} MissingExactly(w: Workflow, sections: seq<Section>)
    ensures forall i ::
      i in MissingSections(w, sections) <==> i.SectionInput? && i.section in sections && !Present(w[i.section])
  {
    if sections != [] {
      MissingExactly(w, sections[1..]);
      assert sections == [sections[0]] + sections[1..];
    }
  }

  /** What the loop over the plan makes of a stage, exactly: it passes over it when it is done, or may
      not be skipped and waits for a dependency; it skips it, runs it or stops at it under these
      conditions, and a run is a retry exactly when there was an attempt before. */
  lemma ConsiderActions(policy: Policy, w: Workflow, available: Option<set<Stage>>)
    ensures
      var p := ProgressOf(w);
      var r := Consider(policy, w, available);
      var done := policy.stage in p.completed || policy.stage in p.skipped;
      && (r == None <==> done || (!MaySkip(policy, w) && !DependenciesDone(policy, w)))
      && (r.Some? ==>
           var d := r.value;
           var tries := if policy.stage in p.attempts then p.attempts[policy.stage] else 0;
           var ready := !MaySkip(policy, w) && InputsPresent(policy, w);
           && d.next == Some(policy.stage)
           && NamesItsNeeds(policy, w, d)
           && (d.terminal <==> d.reason == RetryLimitExhausted)
           && d.action == (match d.reason
                           case OutputExists => Skip
                           case ExplicitlySkipped => Skip
                           case StageReady => Continue
                           case RetryingStage => Retry
                           case _ => Stop)
           && (d.reason == OutputExists <==> OutputsStand(policy, w))
           && (d.reason == ExplicitlySkipped <==> MaySkip(policy, w) && !OutputsStand(policy, w))
           && (d.reason == InputsMissing <==> !MaySkip(policy, w) && !InputsPresent(policy, w))
           && (d.reason == RetryLimitExhausted <==> ready && tries >= policy.maxAttempts)
           && (d.reason == HandlerMissing <==>
                ready && tries < policy.maxAttempts && !HandlerThere(policy.stage, available))
           && (d.reason == StageReady <==>
                ready && 0 == tries < policy.maxAttempts && HandlerThere(policy.stage, available))
           && (d.reason == RetryingStage <==>
                ready && 0 < tries < policy.maxAttempts && HandlerThere(policy.stage, available)))
  {
    MissingExactly(w, policy.required);
  }

  /** A closed gate ends the workflow, and the first closed one is the reason. */
  lemma GatesExactly(plan: Plan, w: Workflow, available: Option<set<Stage>>)
    ensures GateClosed(w) <==>
      && Decide(plan, w, available).Success?
      && Decide(plan, w, available).value.reason in {VerificationBlocked, QualityBlocked, ApprovalRejected}
    ensures GateClosed(w) ==>
      var d := Decide(plan, w, available).value;
      var verification, quality := w[VerificationSection], w[QualitySection];
      var blocked := verification.Document? && verification.verdict == Blocked;
      var failed := quality.Document? &&
                    (quality.hardFail || quality.verdict == Blocked || quality.verdict == Reject);
      && d.action == Stop && d.next == None && d.terminal && d.requiredInputs == []
      && (d.reason == VerificationBlocked <==> blocked)
      && (d.reason == QualityBlocked <==> !blocked && failed)
      && d.stateRequirements == (if blocked then [VerificationSection] else if failed then [QualitySection]
                                 else [QualityApprovalSection])
  {
    RouteReasons(plan, w, available);
  }

  /** What becomes of a pending request behind open gates: the contract is never revised, and any other
      stage of the plan is revised exactly when its required sections and its handler are there. */
  lemma RevisionExactly(plan: Plan, w: Workflow, available: Option<set<Stage>>, target: Stage)
    requires UniqueStages(plan) && !GateClosed(w) && RequestOpen(w)
    requires
      var history := w[RevisionHistorySection].revisions;
      history[|history| - 1].target == Some(target)
    ensures
      var r := Decide(plan, w, available);
      if target == SemanticContract then
        r == Success(Decision(Stop, Some(target), ContractImmutable, [], [SemanticContractSection], true))
      else if !Listed(plan, target) then
        r == Failure(StageOutsidePlan)
      else
        forall i :: 0 <= i < |plan| && plan[i].stage == target ==>
          && r.Success? && r.value.next == Some(target) && !r.value.terminal
          && NamesItsNeeds(plan[i], w, r.value)
          && (r.value.action == Revise <==> r.value.reason == RevisionRequested)
          && (r.value.action != Revise ==> r.value.action == Stop)
          && (r.value.reason == InputsMissing <==> !InputsPresent(plan[i], w))
          && (r.value.reason == HandlerMissing <==> InputsPresent(plan[i], w) && !HandlerThere(target, available))
          && (r.value.reason == RevisionRequested <==> InputsPresent(plan[i], w) && HandlerThere(target, available))
  {
    hide RevisionDecision, HardGateBlocked, HardGateDecision, GateClosed;
    GateOpen(w);
    if target == SemanticContract {
      ContractIsRefused(plan, w, available);
    } else {
      hide NamesItsNeeds, InputsPresent, HandlerThere, Listed;
      RevisionDecisionExactly(plan, w, available, target);
    }
  }

  lemma ContractIsRefused(plan: Plan, w: Workflow, available: Option<set<Stage>>)
    ensures RevisionDecision(plan, w, SemanticContract, available) ==
      Success(Decision(Stop, Some(SemanticContract), ContractImmutable, [], [SemanticContractSection], true))
  {
  }

  lemma GateOpen(w: Workflow)
    requires !GateClosed(w)
    ensures !HardGateBlocked(w)
  {
  }

  lemma RevisionDecisionExactly(plan: Plan, w: Workflow, available: Option<set<Stage>>, target: Stage)
    requires UniqueStages(plan) && target != SemanticContract
    ensures
      var r := RevisionDecision(plan, w, target, available);
      if !Listed(plan, target) then r == Failure(StageOutsidePlan)
      else
        forall i :: 0 <= i < |plan| && plan[i].stage == target ==>
          && r.Success? && r.value.next == Some(target) && !r.value.terminal
          && NamesItsNeeds(plan[i], w, r.value)
          && (r.value.reason == InputsMissing <==> !InputsPresent(plan[i], w))
          && (r.value.reason == HandlerMissing <==> InputsPresent(plan[i], w) && !HandlerThere(target, available))
          && (r.value.reason == RevisionRequested <==> InputsPresent(plan[i], w) && HandlerThere(target, available))
  {
    if Listed(plan, target) {
      MissingExactly(w, PolicyOf(plan, target).required);
      assert forall i :: 0 <= i < |plan| && plan[i].stage == target ==> plan[i] == PolicyOf(plan, target);
    }
  }

  /** decide asks the client exactly when no gate is closed, no revision is pending and the brief of an
      understood client asks for an answer; then it names every question of the brief. */
  lemma ClarificationExactly(plan: Plan, w: Workflow, available: Option<set<Stage>>)
    ensures
      var r := Decide(plan, w, available);
      (r.Success? && r.value.reason == ClarificationRequired) <==>
        && !GateClosed(w) && !RequestOpen(w)
        && w[SupervisorSection].SupervisorProgress?
        && (ClientUnderstanding in w[SupervisorSection].progress.completed
            || ClientUnderstanding in w[SupervisorSection].progress.skipped)
        && w[BriefSection].Document?
        && w[BriefSection].clarification.Some?
        && w[BriefSection].clarification.value.requiresUserInput
    ensures
      var r := Decide(plan, w, available);
      r.Success? && r.value.reason == ClarificationRequired ==>
        var d, questions := r.value, w[BriefSection].clarification.value.questions;
        && d.action == Stop && d.next == Some(ClientUnderstanding) && !d.terminal
        && d.stateRequirements == [BriefSection]
        && |d.requiredInputs| == |questions|
        && forall i :: 0 <= i < |questions| ==> d.requiredInputs[i] == ClarificationInput(questions[i])
  {
    hide Route, Listed;
    RouteReasons(plan, w, available);
  }

  lemma RouteReasons(plan: Plan, w: Workflow, available: Option<set<Stage>>)
    ensures Route(plan, w, available).reason !in
      {VerificationBlocked, QualityBlocked, ApprovalRejected, ClarificationRequired, RevisionRequested}
  {
    hide Scan, Listed, VerdictOf, DoneStages;
    ScanOutcome(plan, w, available);
  }

  /** Once every stage is done and nothing is open, the first report that does not say PASS stops the
      workflow, and is named; without one it is complete. */
  lemma ClosingExactly(plan: Plan, w: Workflow, available: Option<set<Stage>>)
    requires Accepted(plan) && !GateClosed(w) && !RequestOpen(w) && !AnswerOwed(w) && AllDone(plan, w)
    ensures
      var r := Decide(plan, w, available);
      var verified := Listed(plan, Verification) ==> Passed(w[VerificationSection]);
      var good := Passed(w[QualitySection]);
      var designed := Listed(plan, DesignReview) ==> Passed(w[DesignQualitySection]);
      var scored := Listed(plan, QualityScoring) ==> Passed(w[QualityApprovalSection]);
      && r.Success? && r.value.action == Stop && r.value.requiredInputs == []
      && (r.value.reason, r.value.next, r.value.stateRequirements) == (
           if !verified then (VerificationNotPassed, Some(Verification), [VerificationSection])
           else if !good then (QualityNotPassed, Some(QualityReview), [QualitySection])
           else if !designed then (DesignNotPassed, Some(DesignReview), [DesignQualitySection])
           else if !scored then (ApprovalNotPassed, Some(QualityScoring), [QualityApprovalSection])
           else (WorkflowComplete, None,
                 [VerificationSection, QualitySection, DesignQualitySection, QualityApprovalSection]))
      && (r.value.terminal <==> r.value.reason == WorkflowComplete)
  {
    hide Accepted, Scan, Consider, Listed;
    OpenExactly(w);
    hide HardGateBlocked, AwaitsClarification, GateClosed, RequestOpen, AnswerOwed, AllDone, PendingTarget;
    if Scan(plan, 0, w, available).Some? {
      SomeStageLeft(plan, w, available);
    }
    CoversEveryStage(plan, w);
  }
}
