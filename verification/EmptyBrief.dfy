/** Why an empty brief section does not tell a client, by itself, that its contract will be stale: a
    handler may return an empty brief, and its stage is then done all the same. */
module EmptyBriefs {
  import opened Vocabulary
  import opened StageGraph
  import opened Workflows
  import opened Supervisor
  import opened VersionLog
  import opened Freshness
  import opened DefaultPlan
  import opened SuppliedContracts
  import opened StaleOutputs

  const QUICK_RUN: Run := Run(ClientUnderstanding, Continue, 3)

  function Asked(): Workflow {
    Put(EmptyWorkflow(), ConversationContextSection, DOC)
  }

  function AskedStarted(): Workflow {
    Put(Asked(), SupervisorSection, SupervisorProgress(Progress1()))
  }

  function Unanswered(): Workflow {
    Put(AskedStarted(), BriefSection, Empty)
  }

  function UnansweredDone(): Workflow {
    Put(Unanswered(), SupervisorSection, SupervisorProgress(Progress2()))
  }

  function Contracted(): Workflow {
    Put(UnansweredDone(), SemanticContractSection, DOC)
  }

  function ContractedSkipped(): Workflow {
    Put(Contracted(), SupervisorSection, SupervisorProgress(Progress3()))
  }

  // The log, one accepted write after another.

  function First2(): Log {
    [InitialEntry(), Entry(Some(ConversationContextSection), Asked(), CLIENT, External)]
  }

  function First3(handlers: set<Stage>): Log {
    First2() + [Entry(Some(SupervisorSection), AskedStarted(), ENGINE, Decided(StartUnderstanding(), Some(handlers)))]
  }

  function First4(handlers: set<Stage>): Log {
    First3(handlers) + [Entry(Some(BriefSection), Unanswered(), ENGINE, Produced(QUICK_RUN, 0))]
  }

  function First5(handlers: set<Stage>): Log {
    First4(handlers) + [Entry(Some(SupervisorSection), UnansweredDone(), ENGINE, Committed(QUICK_RUN))]
  }

  function First6(handlers: set<Stage>): Log {
    First5(handlers) + [Entry(Some(SemanticContractSection), Contracted(), CLIENT, External)]
  }

  /** The brief stage ends with an empty brief; then a client creates the contract. */
  function LateContract(handlers: set<Stage>): Log {
    First6(handlers)
        + [Entry(Some(SupervisorSection), ContractedSkipped(), ENGINE, Decided(SkipContract(), Some(handlers)))]
  }

  lemma States()
    ensures Unhindered(Asked()) && ProgressOf(Asked()) == NO_PROGRESS
    ensures Asked()[BriefSection] == Empty && Asked()[ConversationContextSection] == DOC
    ensures Unhindered(AskedStarted()) && Unhindered(Unanswered()) && Unhindered(UnansweredDone())
    ensures Unhindered(Contracted())
  {
    hide Unhindered, EmptyWorkflow;
    EmptyIsUnhindered();
    PutKeepsUnhindered(EmptyWorkflow(), ConversationContextSection, DOC);
    PutKeepsUnhindered(Asked(), SupervisorSection, SupervisorProgress(Progress1()));
    PutKeepsUnhindered(AskedStarted(), BriefSection, Empty);
    PutKeepsUnhindered(Unanswered(), SupervisorSection, SupervisorProgress(Progress2()));
    PutKeepsUnhindered(UnansweredDone(), SemanticContractSection, DOC);
  }

  lemma Contents()
    ensures ProgressOf(Unanswered()) == Progress1() && HistoryOf(Unanswered()) == []
    ensures ProgressOf(UnansweredDone()) == Progress2() && ProgressOf(Contracted()) == Progress2()
    ensures Contracted()[SemanticContractSection] == DOC && Contracted()[BriefSection] == Empty
    ensures UnansweredDone()[BriefSection] == Empty
    ensures !Present(UnansweredDone()[SemanticContractSection])
  {
    hide Unhindered;
    States();
    UnhinderedHistory(Unanswered());
  }

  lemma First2IsLegal()
    ensures LegalLog(ShippedPlan(), First2()) && NewestBy(First2(), ENGINE) == None
  {
    hide Decide, Recorded, MarkedHistory, MayDecide, Free, OpenOf, EmptyWorkflow, ShippedPlan;
    var log := First2();
    assert log[..1] == [InitialEntry()] && log[..1][..0] == [];
    assert Legal(ShippedPlan(), log[..1], log[1]);
    assert LegalLog(ShippedPlan(), log[..1]) && NewestBy(log[..1], ENGINE) == None;
  }

  lemma First3IsLegal(handlers: set<Stage>)
    requires ClientUnderstanding in handlers
    ensures LegalLog(ShippedPlan(), First3(handlers))
  {
    hide Decide, Legal, LegalLog, Free, NewestBy, EmptyWorkflow, Recorded, Asked, Unhindered, ShippedPlan;
    First2IsLegal();
    States();
    FirstDecision(Asked(), handlers);
    FirstRecord();
    assert Head(First2()) == Asked();
    DecidedIsLegal(ShippedPlan(), First2(), Last(First3(handlers)));
    LegalExtend(ShippedPlan(), First2(), Last(First3(handlers)));
  }

  lemma First4IsLegal(handlers: set<Stage>)
    requires ClientUnderstanding in handlers
    ensures LegalLog(ShippedPlan(), First4(handlers))
  {
    hide Decide, LegalLog, Free, NewestBy, EmptyWorkflow, Recorded, MayDecide, MarkedHistory, ShippedPlan;
    hide MarkingChanges, Asked;
    First3IsLegal(handlers);
    ShippedDepsAre(ClientUnderstanding);
    assert OutputsOf(ShippedPlan(), ClientUnderstanding) == [BriefSection];
    assert Legal(ShippedPlan(), First3(handlers), Last(First4(handlers)));
    LegalExtend(ShippedPlan(), First3(handlers), Last(First4(handlers)));
  }

  lemma NothingToMark()
    ensures !MarkingChanges(Unanswered(), ClientUnderstanding)
    ensures CompletedProgress(ProgressOf(Unanswered()), ClientUnderstanding) == Progress2()
  {
    hide Unanswered, CompletedProgress;
    Contents();
    BriefedIsUnhindered();
  }

  lemma First5IsLegal(handlers: set<Stage>)
    requires ClientUnderstanding in handlers
    ensures LegalLog(ShippedPlan(), First5(handlers))
  {
    hide Legal, LegalLog, EmptyWorkflow, ShippedPlan, First3, Unanswered, CompletedProgress, Progress2, MarkingChanges;
    First4IsLegal(handlers);
    NothingToMark();
    ShippedDepsAre(ClientUnderstanding);
    assert OutputsOf(ShippedPlan(), ClientUnderstanding) == [BriefSection];
    assert Last(First4(handlers)).note == Produced(QUICK_RUN, 0) && Head(First4(handlers)) == Unanswered();
    CommittedIsLegal(ShippedPlan(), First4(handlers), Last(First5(handlers)));
    LegalExtend(ShippedPlan(), First4(handlers), Last(First5(handlers)));
  }

  lemma SupplyIsLegal(plan: Plan, log: Log, e: Entry)
    requires log != [] && e.note.External? && e.author.Api? && !Present(Head(log)[SemanticContractSection])
    requires Replaces(Head(log), e, SemanticContractSection, DOC)
    ensures Legal(plan, log, e)
  {
  }

  lemma First6IsLegal(handlers: set<Stage>)
    requires ClientUnderstanding in handlers
    ensures LegalLog(ShippedPlan(), First6(handlers))
  {
    hide LegalLog, EmptyWorkflow, ShippedPlan, First4, UnansweredDone, Legal, Present;
    First5IsLegal(handlers);
    Contents();
    assert Head(First5(handlers)) == UnansweredDone();
    SupplyIsLegal(ShippedPlan(), First5(handlers), Last(First6(handlers)));
    LegalExtend(ShippedPlan(), First5(handlers), Last(First6(handlers)));
  }

  lemma EngineIsFree(plan: Plan, handlers: set<Stage>)
    ensures MayDecide(plan, First6(handlers), ENGINE)
  {
    hide First4, Contracted, UnansweredDone;
    var log := First6(handlers);
    assert log[..|log| - 1] == First5(handlers);
    assert Last(First5(handlers)).author == ENGINE && Last(First5(handlers)).note == Committed(QUICK_RUN);
    assert NewestBy(First5(handlers), ENGINE) == Some(|First5(handlers)| - 1);
    assert NewestBy(log, ENGINE) == Some(|First5(handlers)| - 1);
    assert log[|First5(handlers)| - 1] == Last(First5(handlers));
  }

  lemma LateContractIsLegal(handlers: set<Stage>)
    requires ClientUnderstanding in handlers
    ensures LegalLog(ShippedPlan(), LateContract(handlers))
  {
    hide Decide, LegalLog, Legal, Recorded, ShippedPlan, First5, Contracted, Unhindered, DoneStages, Progress2;
    hide Progress3;
    First6IsLegal(handlers);
    States();
    Contents();
    UnderstoodIsUnhindered();
    SecondDecision(Contracted(), handlers);
    SecondRecord();
    assert Head(First6(handlers)) == Contracted();
    EngineIsFree(ShippedPlan(), handlers);
    DecidedIsLegal(ShippedPlan(), First6(handlers), Last(LateContract(handlers)));
    LegalExtend(ShippedPlan(), First6(handlers), Last(LateContract(handlers)));
  }

  lemma LateContractIsDisciplined(handlers: set<Stage>)
    ensures DisciplinedLog(ShippedPlan(), LateContract(handlers))
  {
    hide DisciplinedLog, Disciplined, ShippedPlan, Asked, AskedStarted, Unanswered, UnansweredDone, Contracted;
    hide ContractedSkipped, EmptyWorkflow, Put;
    var plan, log := ShippedPlan(), First2();
    assert [log[0]] + [log[1]] == log;
    MessagesAreUnowned();
    SingletonIsDisciplined(plan, [log[0]]);
    QuietIsDisciplined(plan, [log[0]], log[1]);
    DisciplinedExtend(plan, [log[0]], log[1]);
    QuietIsDisciplined(plan, log, Last(First3(handlers)));
    DisciplinedExtend(plan, log, Last(First3(handlers)));
    QuietIsDisciplined(plan, First3(handlers), Last(First4(handlers)));
    DisciplinedExtend(plan, First3(handlers), Last(First4(handlers)));
    QuietIsDisciplined(plan, First4(handlers), Last(First5(handlers)));
    DisciplinedExtend(plan, First4(handlers), Last(First5(handlers)));
    QuietIsDisciplined(plan, First5(handlers), Last(First6(handlers)));
    DisciplinedExtend(plan, First5(handlers), Last(First6(handlers)));
    QuietIsDisciplined(plan, First6(handlers), Last(LateContract(handlers)));
    DisciplinedExtend(plan, First6(handlers), Last(LateContract(handlers)));
  }

  lemma LateContractStamps(handlers: set<Stage>)
    ensures At(WrittenAt(LateContract(handlers)), SemanticContractSection) == 6
    ensures At(WrittenAt(LateContract(handlers)), BriefSection) == 4
  {
    hide WrittenAt, ReadAt, Asked, AskedStarted, Unanswered, UnansweredDone, Contracted, ContractedSkipped;
    hide EmptyWorkflow, Put;
    StampsExtend(First2(), Last(First3(handlers)));
    StampsExtend(First3(handlers), Last(First4(handlers)));
    StampsExtend(First4(handlers), Last(First5(handlers)));
    StampsExtend(First5(handlers), Last(First6(handlers)));
    StampsExtend(First6(handlers), Last(LateContract(handlers)));
  }

  /** A client creates the contract on a version whose brief section is empty, and the contract is not
      older than the brief: the brief stage was done already. */
  lemma EmptyBriefNeedNotBeStale(handlers: set<Stage>)
    requires ClientUnderstanding in handlers
    ensures
      var log := LateContract(handlers);
      && LegalLog(ShippedPlan(), log) && DisciplinedLog(ShippedPlan(), log)
      && SemanticContract in DoneStages(ProgressOf(Head(log)))
      && ClientWroteLast(log) && !Present(Before(log)[BriefSection])
      && !ContractOlderThanBrief(log)
  {
    hide LegalLog, DisciplinedLog, ShippedPlan, WrittenAt, At;
    LateContractIsLegal(handlers);
    LateContractIsDisciplined(handlers);
    LateContractStamps(handlers);
    LateContractEntries(handlers);
  }

  lemma LateContractEntries(handlers: set<Stage>)
    ensures
      var log := LateContract(handlers);
      && |log| == 7 && log[5].note.External? && !Present(log[4].state[BriefSection])
      && SemanticContract in DoneStages(ProgressOf(Head(log)))
  {
    hide Put, Asked, AskedStarted, Unanswered, UnansweredDone, Contracted, ContractedSkipped, DoneStages;
    Contents();
    SkippedIsDone();
    var log := LateContract(handlers);
    assert log[4].state == UnansweredDone() && Head(log) == ContractedSkipped();
  }

  lemma SkippedIsDone()
    ensures SemanticContract in DoneStages(ProgressOf(ContractedSkipped()))
  {
    hide Contracted;
    assert ProgressOf(ContractedSkipped()) == Progress3();
  }
}
