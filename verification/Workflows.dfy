/** The schema of a workflow state: which values a section may hold, and replacing one section. */
module Workflows {
  import opened Vocabulary

  datatype Verdict = Pass | Blocked | Reject | OtherVerdict

  datatype Clarification = Clarification(requiresUserInput: bool, questions: seq<string>)

  datatype RevisionStatus = Pending | Completed | OtherStatus

  /** An entry of the revision history; target is None when target_stage is absent or names no stage. */
  datatype Revision = Revision(status: RevisionStatus, target: Option<Stage>, body: nat)

  datatype Action = Continue | Skip | Retry | Revise | Stop

  datatype Reason =
    | VerificationBlocked
    | QualityBlocked
    | ApprovalRejected
    | ContractImmutable
    | InputsMissing
    | HandlerMissing
    | RevisionRequested
    | ClarificationRequired
    | OutputExists
    | ExplicitlySkipped
    | RetryLimitExhausted
    | RetryingStage
    | StageReady
    | NoProgressPossible
    | VerificationNotPassed
    | QualityNotPassed
    | DesignNotPassed
    | ApprovalNotPassed
    | WorkflowComplete

  datatype Input = SectionInput(section: Section) | HandlerInput(stage: Stage) | ClarificationInput(field: string)

  datatype Decision = Decision(
    action: Action,
    next: Option<Stage>,
    reason: Reason,
    requiredInputs: seq<Input>,
    stateRequirements: seq<Section>,
    terminal: bool)

  /** The supervisor section: what the control plane remembers between decisions. */
  datatype Progress = Progress(
    current: Option<Stage>,
    completed: seq<Stage>,
    skipped: seq<Stage>,
    invalidated: seq<Stage>,
    requestedSkips: seq<Stage>,
    attempts: map<Stage, nat>,
    lastDecision: Option<Decision>)

  const NO_PROGRESS := Progress(None, [], [], [], [], map[], None)

  /** A section's value: an empty object or array, or one with content. Of a specialist's document
      the model keeps what the supervisor reads and an opaque body. */
  datatype Value =
    | Empty
    | Document(verdict: Verdict, hardFail: bool, clarification: Option<Clarification>, body: nat)
    | History(revisions: seq<Revision>)
    | SupervisorProgress(progress: Progress)

  /** Python truthiness of a section's value. */
  predicate Present(v: Value) {
    !v.Empty? && (v.History? ==> v.revisions != [])
  }

  /** validate_section_value: the shape each section must have. */
  predicate Fits(section: Section, v: Value) {
    match section
    case SupervisorSection => v.Empty? || v.SupervisorProgress?
    case RevisionHistorySection => v.History?
    case _ => v.Empty? || v.Document?
  }

  /** validate_workflow_state: exactly the supported sections, each of its own shape. */
  predicate ValidWorkflow(w: map<Section, Value>) {
    && (forall s: Section :: s in w)
    && (forall s: Section :: s in w ==> Fits(s, w[s]))
  }

  function EmptyWorkflow(): (w: map<Section, Value>)
    ensures ValidWorkflow(w)
    ensures forall s: Section :: s in w ==> !Present(w[s])
  {
    map s: Section | true :: if s.RevisionHistorySection? then History([]) else Empty
  }

  type Workflow = w: map<Section, Value> | ValidWorkflow(w) witness EmptyWorkflow()

  /** Replacing one section. */
  function Put(w: Workflow, section: Section, v: Value): (r: Workflow)
    requires Fits(section, v)
    ensures forall s: Section :: r[s] == if s == section then v else w[s]
  {
    w[section := v]
  }

  function ProgressOf(w: Workflow): Progress {
    if w[SupervisorSection].SupervisorProgress? then w[SupervisorSection].progress else NO_PROGRESS
  }

  function HistoryOf(w: Workflow): seq<Revision> {
    assert Fits(RevisionHistorySection, w[RevisionHistorySection]);
    w[RevisionHistorySection].revisions
  }

  function VerdictOf(w: Workflow, section: Section): Verdict {
    if w[section].Document? then w[section].verdict else OtherVerdict
  }
}
