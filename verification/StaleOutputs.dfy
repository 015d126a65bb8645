/** Where stale output can and cannot arise: what a second revision forgets, and when a semantic
    contract that a client stores is older than the brief it should rest on. */
module StaleOutputs {
  import opened Vocabulary
  import opened StageGraph
  import opened Workflows
  import opened Supervisor
  import opened VersionLog
  import opened Freshness
  import opened DefaultPlan
  import opened SuppliedContracts

  // ----- What a revision forgets ----------------------------------------------------------

  /** REVISE replaces the stale marks of earlier revisions. It drops the mark of a stage exactly when
      that stage does not depend on the new target, and leaves it undone. */
  lemma RevisionForgetsExactly(plan: Plan, w: Workflow, available: Option<set<Stage>>, d: Decision, s: Stage)
    requires Accepted(plan) && Decide(plan, w, available) == Success(d) && d.action == Revise
    requires Listed(plan, s) && s in ProgressOf(w).invalidated && s !in DoneStages(ProgressOf(w))
    ensures d.next.Some?
    ensures
      var after := Recorded(plan, ProgressOf(w), d);
      && (s !in after.invalidated <==> !Reaches(plan, s, d.next.value))
      && s !in DoneStages(after)
  {
    hide Accepted, Reaches, Decide, Listed;
    ActionOrigin(plan, w, available);
    var p := ProgressOf(w);
    var gone := Elements(Downstream(plan, d.next.value));
    assert s in Downstream(plan, d.next.value) <==> s in gone;
    var after := Recorded(plan, p, d);
    assert s !in Elements(after.completed) && s !in Elements(after.skipped);
  }

  /** In the runs the freshness theorem is about, no revision forgets anything: whenever one is taken
      up, every listed stage that is not done depends on its target. */
  lemma SafeRevisionsForgetNothing(plan: Plan, log: Log, available: Option<set<Stage>>, d: Decision, s: Stage)
    requires RevisionSafe(plan) && LegalLog(plan, log) && DisciplinedLog(plan, log)
    requires Decide(plan, Head(log), available) == Success(d) && d.action == Revise
    requires Listed(plan, s) && s !in DoneStages(ProgressOf(Head(log)))
    ensures d.next.Some?
    ensures s in Recorded(plan, ProgressOf(Head(log)), d).invalidated
  {
    hide Accepted, Reaches, Decide, LegalLog, DisciplinedLog, StagesInv, OpenInv, Reviewer, PresentWasWritten;
    RunKeepsInv(plan, log);
    ActionOrigin(plan, Head(log), available);
    assert UndoneReach(plan, DoneStages(ProgressOf(Head(log))), d.next.value);
    assert plan[IndexOf(plan, s)].stage == s;
    assert s in Downstream(plan, d.next.value);
  }

  // ----- When a client's contract is stale --------------------------------------------------

  lemma ContractRestsOnBrief()
    ensures RestsOn(ShippedPlan(), 1, 0, BriefSection)
  {
    hide Reaches, Position, RequiredSections;
    var plan := ShippedPlan();
    assert plan[0] == DefaultPolicy(ClientUnderstanding) && plan[1] == DefaultPolicy(SemanticContract);
    ReachesSelf(plan, ClientUnderstanding);
    ReachesDirectly(SemanticContract, ClientUnderstanding, ClientUnderstanding);
  }

  /** The brief stage is done with, or its brief is there to be skipped for. */
  predicate BriefSettled(w: Workflow) {
    ClientUnderstanding in DoneStages(ProgressOf(w)) || Present(w[BriefSection])
  }

  lemma BriefSettledMeans(w: Workflow)
    ensures Settled(ShippedPlan(), 0, w) <==> BriefSettled(w)
  {
    hide DoneStages, Present, RequiredSections, Position;
    assert ShippedPlan()[0] == DefaultPolicy(ClientUnderstanding);
    assert OutputSections(ClientUnderstanding) == [BriefSection];
  }

  ghost predicate ContractOlderThanBrief(log: Log) {
    At(WrittenAt(log), SemanticContractSection) < At(WrittenAt(log), BriefSection)
  }

  /** The contract was last written by a client. */
  ghost predicate ClientWroteLast(log: Log) {
    var v := At(WrittenAt(log), SemanticContractSection);
    2 <= v <= |log| && log[v - 1].note.External?
  }

  /** In every run of the shipped plan, with contracts created by clients at any time: once the contract
      stage is done, the contract is older than the brief if and only if a client created it on a
      version on which the brief stage was neither done nor had a brief. */
  lemma ClientContractIsStaleExactly(log: Log)
    requires LegalLog(ShippedPlan(), log) && DisciplinedLog(ShippedPlan(), log)
    requires SemanticContract in DoneStages(ProgressOf(Head(log)))
    ensures ContractOlderThanBrief(log) <==> ClientWroteLast(log) && !BriefSettled(Before(log))
  {
    hide LegalLog, DisciplinedLog, WrittenAt, DoneStages, RestsOn, BriefSettled, Settled, RevisionSafe;
    ShippedIsRevisionSafe();
    ContractRestsOnBrief();
    StageAt(1);
    ContractIsOlderExactly(ShippedPlan(), log, 1, 0, BriefSection);
    BriefSettledMeans(Before(log));
  }

  /** No handler ever returned an empty brief. */
  predicate BriefsHaveContent(log: Log) {
    forall u :: 0 <= u < |log| && log[u].changed == Some(BriefSection) ==> Present(log[u].state[BriefSection])
  }

  /** If no brief is empty, an empty brief section is all a client needs to look for before it creates a
      contract. */
  lemma EmptyBriefTellsStale(log: Log)
    requires LegalLog(ShippedPlan(), log) && DisciplinedLog(ShippedPlan(), log) && BriefsHaveContent(log)
    requires SemanticContract in DoneStages(ProgressOf(Head(log)))
    ensures ContractOlderThanBrief(log) <==> ClientWroteLast(log) && !Present(Before(log)[BriefSection])
  {
    hide LegalLog, DisciplinedLog, WrittenAt, DoneStages, Present;
    ClientContractIsStaleExactly(log);
    var v := At(WrittenAt(log), SemanticContractSection);
    if 2 <= v <= |log| {
      DoneBriefIsPresent(log, v - 1);
    }
  }

  lemma DoneBriefIsPresent(log: Log, n: nat)
    requires LegalLog(ShippedPlan(), log) && DisciplinedLog(ShippedPlan(), log) && BriefsHaveContent(log)
    requires 1 <= n <= |log|
    ensures ClientUnderstanding in DoneStages(ProgressOf(log[n - 1].state)) ==> Present(log[n - 1].state[BriefSection])
  {
    hide Legal, LegalLog, DisciplinedLog, WrittenAt, DoneStages, Present, RevisionSafe;
    var plan, init := ShippedPlan(), log[..n];
    if ClientUnderstanding in DoneStages(ProgressOf(log[n - 1].state)) {
      ShippedIsRevisionSafe();
      LegalPrefix(plan, log, n);
      DisciplinedPrefix(plan, log, n);
      RunKeepsInv(plan, init);
      DoneIsWritten(init);
      NewestWriter(plan, init, BriefSection);
      assert Head(init) == log[n - 1].state;
    }
  }

  lemma DoneIsWritten(log: Log)
    requires RunInv(ShippedPlan(), log) && ClientUnderstanding in DoneStages(ProgressOf(Head(log)))
    ensures At(WrittenAt(log), BriefSection) > 0
  {
    hide FreshStage, Untouched, OpenInv, PendingInv, PresentWasWritten, DependencyClosed, DoneStages, RequiredSections;
    hide Position;
    assert ShippedPlan()[0] == DefaultPolicy(ClientUnderstanding);
    assert Owns(ShippedPlan()[0], BriefSection);
  }

  // ----- A contract stored before the brief -----------------------------------------------

  const DOC: Value := Document(OtherVerdict, false, None, 0)

  const CLIENT: Author := Api(1)
  const ENGINE: Author := Executor(1)

  const UNDERSTANDING: Run := Run(ClientUnderstanding, Continue, 4)

  function StartUnderstanding(): Decision {
    Decision(Continue, Some(ClientUnderstanding), StageReady, [], [ConversationContextSection], false)
  }

  function SkipContract(): Decision {
    Decision(Skip, Some(SemanticContract), OutputExists, [], [BriefSection], false)
  }

  function Prepared(): Workflow {
    Put(Put(EmptyWorkflow(), ConversationContextSection, DOC), SemanticContractSection, DOC)
  }

  /** Nothing stands in the way of the loop over the plan. */
  predicate Unhindered(w: Workflow) {
    && (forall x :: x in {VerificationSection, QualitySection, QualityApprovalSection} ==> w[x] == Empty)
    && HistoryOf(w) == []
    && (w[BriefSection] == Empty || w[BriefSection] == DOC)
  }

  lemma UnhinderedRoutes(plan: Plan, w: Workflow, available: Option<set<Stage>>)
    requires Unhindered(w)
    ensures Decide(plan, w, available) == Success(Supervisor.Route(plan, w, available))
  {
    assert w[VerificationSection] == Empty && w[QualitySection] == Empty && w[QualityApprovalSection] == Empty;
  }

  lemma FirstDecision(w: Workflow, handlers: set<Stage>)
    requires ClientUnderstanding in handlers
    requires Unhindered(w) && ProgressOf(w) == NO_PROGRESS && w[BriefSection] == Empty
    requires w[ConversationContextSection] == DOC
    ensures Decide(ShippedPlan(), w, Some(handlers)) == Success(StartUnderstanding())
  {
    hide Unhindered;
    UnhinderedRoutes(ShippedPlan(), w, Some(handlers));
    assert ShippedPlan()[0] == DefaultPolicy(ClientUnderstanding);
    assert Consider(DefaultPolicy(ClientUnderstanding), w, Some(handlers)) == Some(StartUnderstanding()) by {
      assert w[OutputSections(ClientUnderstanding)[0]] == Empty;
    }
  }

  lemma SecondStageActs(plan: Plan, w: Workflow, available: Option<set<Stage>>, d: Decision)
    requires |plan| >= 2 && Consider(plan[0], w, available) == None && Consider(plan[1], w, available) == Some(d)
    ensures Supervisor.Route(plan, w, available) == d
  {
    hide Consider;
    assert Scan(plan, 1, w, available) == Some(d);
  }

  lemma SecondDecision(w: Workflow, handlers: set<Stage>)
    requires Unhindered(w) && DoneStages(ProgressOf(w)) == {ClientUnderstanding} && ProgressOf(w).invalidated == []
    requires w[SemanticContractSection] == DOC && !AwaitsClarification(w)
    ensures Decide(ShippedPlan(), w, Some(handlers)) == Success(SkipContract())
  {
    hide Unhindered, DoneStages, Decide, Supervisor.Route, ShippedPlan, AwaitsClarification;
    UnhinderedRoutes(ShippedPlan(), w, Some(handlers));
    assert ShippedPlan()[0] == DefaultPolicy(ClientUnderstanding);
    assert ShippedPlan()[1] == DefaultPolicy(SemanticContract);
    assert Consider(DefaultPolicy(ClientUnderstanding), w, Some(handlers)) == None;
    assert Consider(DefaultPolicy(SemanticContract), w, Some(handlers)) == Some(SkipContract());
    SecondStageActs(ShippedPlan(), w, Some(handlers), SkipContract());
  }

  function Progress1(): Progress {
    NO_PROGRESS.(lastDecision := Some(StartUnderstanding()), current := Some(ClientUnderstanding),
        attempts := map[ClientUnderstanding := 1])
  }

  function Progress2(): Progress {
    Progress1().(completed := [ClientUnderstanding], current := None)
  }

  function Progress3(): Progress {
    Progress2().(lastDecision := Some(SkipContract()), skipped := [SemanticContract])
  }

  function Started(): Workflow {
    Put(Prepared(), SupervisorSection, SupervisorProgress(Progress1()))
  }

  function Briefed(): Workflow {
    Put(Started(), BriefSection, DOC)
  }

  function Understood(): Workflow {
    Put(Briefed(), SupervisorSection, SupervisorProgress(Progress2()))
  }

  function Skipped(): Workflow {
    Put(Understood(), SupervisorSection, SupervisorProgress(Progress3()))
  }

  // The log, one accepted write after another.

  function Log3(): Log {
    [InitialEntry(),
     Entry(Some(ConversationContextSection), Put(EmptyWorkflow(), ConversationContextSection, DOC), CLIENT, External),
     Entry(Some(SemanticContractSection), Prepared(), CLIENT, External)]
  }

  function Log4(handlers: set<Stage>): Log {
    Log3() + [Entry(Some(SupervisorSection), Started(), ENGINE, Decided(StartUnderstanding(), Some(handlers)))]
  }

  function Log5(handlers: set<Stage>): Log {
    Log4(handlers) + [Entry(Some(BriefSection), Briefed(), ENGINE, Produced(UNDERSTANDING, 0))]
  }

  function Log6(handlers: set<Stage>): Log {
    Log5(handlers) + [Entry(Some(SupervisorSection), Understood(), ENGINE, Committed(UNDERSTANDING))]
  }

  /** A client stores its messages and a contract; then the executor runs. */
  function EarlyContract(handlers: set<Stage>): Log {
    Log6(handlers) + [Entry(Some(SupervisorSection), Skipped(), ENGINE, Decided(SkipContract(), Some(handlers)))]
  }

  lemma Log3IsLegal()
    ensures LegalLog(ShippedPlan(), Log3())
  {
    hide Decide, Recorded, MarkedHistory, MayDecide, Free, OpenOf, EmptyWorkflow, ShippedPlan;
    var log := Log3();
    assert log[..1] == [InitialEntry()] && log[..2][..1] == log[..1] && log[..3] == log && log[..3][..2] == log[..2];
    assert Legal(ShippedPlan(), log[..1], log[1]);
    assert Legal(ShippedPlan(), log[..2], log[2]);
    assert LegalLog(ShippedPlan(), log[..1]);
    assert LegalLog(ShippedPlan(), log[..2]);
  }

  lemma NoEngineYet()
    ensures NewestBy(Log3(), ENGINE) == None
  {
    var log := Log3();
    assert log[..2][..1] == log[..1] && log[..1][..0] == [];
    assert NewestBy(log[..1], ENGINE) == None;
    assert NewestBy(log[..2], ENGINE) == None;
  }

  lemma PreparedIsUnhindered()
    ensures Unhindered(Prepared()) && ProgressOf(Prepared()) == NO_PROGRESS
    ensures Prepared()[BriefSection] == Empty && Prepared()[ConversationContextSection] == DOC
  {
    hide Unhindered, EmptyWorkflow;
    var w := EmptyWorkflow();
    EmptyIsUnhindered();
    PutKeepsUnhindered(w, ConversationContextSection, DOC);
    PutKeepsUnhindered(Put(w, ConversationContextSection, DOC), SemanticContractSection, DOC);
  }

  lemma EmptyIsUnhindered()
    ensures Unhindered(EmptyWorkflow()) && ProgressOf(EmptyWorkflow()) == NO_PROGRESS
    ensures EmptyWorkflow()[BriefSection] == Empty
  {
  }

  lemma Log4IsLegal(handlers: set<Stage>)
    requires ClientUnderstanding in handlers
    ensures LegalLog(ShippedPlan(), Log4(handlers))
  {
    hide Decide, Legal, LegalLog, Free, NewestBy, EmptyWorkflow, Recorded, Prepared, Unhindered, ShippedPlan;
    Log3IsLegal();
    NoEngineYet();
    PreparedIsUnhindered();
    FirstDecision(Prepared(), handlers);
    FirstRecord();
    assert Head(Log3()) == Prepared();
    DecidedIsLegal(ShippedPlan(), Log3(), Last(Log4(handlers)));
    LegalExtend(ShippedPlan(), Log3(), Last(Log4(handlers)));
  }

  lemma FirstRecord()
    ensures Recorded(ShippedPlan(), NO_PROGRESS, StartUnderstanding()) == Progress1()
  {
  }

  lemma DecidedIsLegal(plan: Plan, log: Log, e: Entry)
    requires log != [] && e.note.Decided? && e.author.Executor? && MayDecide(plan, log, e.author)
    requires Decide(plan, Head(log), e.note.available) == Success(e.note.decision)
    requires Replaces(Head(log), e, SupervisorSection,
        SupervisorProgress(Recorded(plan, ProgressOf(Head(log)), e.note.decision)))
    ensures Legal(plan, log, e)
  {
    hide Decide, Recorded, MayDecide;
  }

  lemma ProducedIsLegal(plan: Plan, log: Log, e: Entry)
    requires log != [] && e.note.Produced? && e.changed.Some? && e.changed.value != SemanticContractSection
    requires OpenOf(plan, log) == Open(e.author, e.note.run, e.note.k) && e.note.k < |OutputsOf(plan, e.note.run.stage)|
    requires e.changed.value == OutputsOf(plan, e.note.run.stage)[e.note.k]
    requires Replaces(Head(log), e, e.changed.value, e.state[e.changed.value])
    ensures Legal(plan, log, e)
  {
  }

  lemma Log5IsLegal(handlers: set<Stage>)
    requires ClientUnderstanding in handlers
    ensures LegalLog(ShippedPlan(), Log5(handlers))
  {
    hide Legal, LegalLog, EmptyWorkflow, ShippedPlan, Log3, Started;
    Log4IsLegal(handlers);
    ShippedDepsAre(ClientUnderstanding);
    assert OutputsOf(ShippedPlan(), ClientUnderstanding) == [BriefSection];
    assert |Log3()| == 3 by { ThreeEntries(); }
    ProducedIsLegal(ShippedPlan(), Log4(handlers), Last(Log5(handlers)));
    LegalExtend(ShippedPlan(), Log4(handlers), Last(Log5(handlers)));
  }

  lemma ThreeEntries()
    ensures |Log3()| == 3
  {
  }

  lemma BriefedIsUnhindered()
    ensures HistoryOf(Briefed()) == [] && ProgressOf(Briefed()) == Progress1()
    ensures CompletedProgress(Progress1(), ClientUnderstanding) == Progress2()
  {
    hide Put, EmptyWorkflow, Unhindered;
    PreparedIsUnhindered();
    assert HistoryOf(Prepared()) == [] by { UnhinderedHistory(Prepared()); }
  }

  lemma UnhinderedHistory(w: Workflow)
    requires Unhindered(w)
    ensures HistoryOf(w) == []
  {
  }

  lemma CommittedIsLegal(plan: Plan, log: Log, e: Entry)
    requires log != [] && e.note.Committed?
    requires OpenOf(plan, log) == Open(e.author, e.note.run, |OutputsOf(plan, e.note.run.stage)|)
    requires !MarkingChanges(Head(log), e.note.run.stage)
    requires Replaces(Head(log), e, SupervisorSection,
        SupervisorProgress(CompletedProgress(ProgressOf(Head(log)), e.note.run.stage)))
    ensures Legal(plan, log, e)
  {
  }

  lemma Log6IsLegal(handlers: set<Stage>)
    requires ClientUnderstanding in handlers
    ensures LegalLog(ShippedPlan(), Log6(handlers))
  {
    hide Legal, LegalLog, EmptyWorkflow, ShippedPlan, Log4, Briefed, CompletedProgress;
    Log5IsLegal(handlers);
    BriefedIsUnhindered();
    ShippedDepsAre(ClientUnderstanding);
    assert OutputsOf(ShippedPlan(), ClientUnderstanding) == [BriefSection];
    assert Last(Log5(handlers)).note == Produced(UNDERSTANDING, 0) && Head(Log5(handlers)) == Briefed();
    CommittedIsLegal(ShippedPlan(), Log5(handlers), Last(Log6(handlers)));
    LegalExtend(ShippedPlan(), Log5(handlers), Last(Log6(handlers)));
  }

  lemma PutKeepsUnhindered(w: Workflow, x: Section, v: Value)
    requires Unhindered(w) && Fits(x, v)
    requires
      || x == SupervisorSection || x == ConversationContextSection || x == SemanticContractSection
      || (x == BriefSection && (v == DOC || v == Empty))
    ensures Unhindered(Put(w, x, v))
  {
  }

  lemma UnderstoodIsUnhindered()
    ensures Unhindered(Understood()) && ProgressOf(Understood()) == Progress2()
    ensures DoneStages(Progress2()) == {ClientUnderstanding} && Progress2().invalidated == []
    ensures Understood()[SemanticContractSection] == DOC && Understood()[BriefSection] == DOC
  {
    hide Unhindered, EmptyWorkflow;
    PreparedIsUnhindered();
    PutKeepsUnhindered(Prepared(), SupervisorSection, SupervisorProgress(Progress1()));
    PutKeepsUnhindered(Started(), BriefSection, DOC);
    PutKeepsUnhindered(Briefed(), SupervisorSection, SupervisorProgress(Progress2()));
  }

  lemma EarlyContractIsLegal(handlers: set<Stage>)
    requires ClientUnderstanding in handlers
    ensures LegalLog(ShippedPlan(), EarlyContract(handlers))
  {
    hide Decide, LegalLog, Legal, Recorded, ShippedPlan, Log5, Understood, Unhindered, DoneStages, Progress2, Progress3;
    hide MayDecide;
    Log6IsLegal(handlers);
    UnderstoodIsUnhindered();
    SecondDecision(Understood(), handlers);
    SecondRecord();
    assert Head(Log6(handlers)) == Understood() && Last(Log6(handlers)).note == Committed(UNDERSTANDING);
    CommittedIsFree(ShippedPlan(), handlers);
    DecidedIsLegal(ShippedPlan(), Log6(handlers), Last(EarlyContract(handlers)));
    LegalExtend(ShippedPlan(), Log6(handlers), Last(EarlyContract(handlers)));
  }

  lemma CommittedIsFree(plan: Plan, handlers: set<Stage>)
    ensures MayDecide(plan, Log6(handlers), ENGINE)
  {
    assert Last(Log6(handlers)).author == ENGINE;
    assert NewestBy(Log6(handlers), ENGINE) == Some(5);
  }

  lemma SecondRecord()
    ensures Recorded(ShippedPlan(), Progress2(), SkipContract()) == Progress3()
  {
  }

  /** It does happen, whatever other handlers are registered: a contract stored before the brief is
      accepted as the contract stage's output, although the brief was produced later. */
  lemma EarlyContractGoesStale(handlers: set<Stage>)
    requires ClientUnderstanding in handlers
    ensures
      var log := EarlyContract(handlers);
      && LegalLog(ShippedPlan(), log) && DisciplinedLog(ShippedPlan(), log)
      && SemanticContract in DoneStages(ProgressOf(Head(log)))
      && ClientUnderstanding in DependenciesOf(SemanticContract)
      && At(WrittenAt(log), SemanticContractSection) < At(WrittenAt(log), BriefSection)
  {
    hide LegalLog, DisciplinedLog, ShippedPlan, At, WrittenAt;
    EarlyContractIsLegal(handlers);
    EarlyContractIsDisciplined(handlers);
    EarlyContractStamps(handlers);
    EarlyContractIsDone(handlers);
  }

  lemma MessagesAreUnowned()
    ensures Unowned(ShippedPlan(), ConversationContextSection)
  {
    hide RequiredSections, DependenciesOf, Position;
    forall i | 0 <= i < |ShippedPlan()| ensures !Owns(ShippedPlan()[i], ConversationContextSection) {
      if Owns(ShippedPlan()[i], ConversationContextSection) {
        OwnersAreUnique(ORDER[i], ConversationContextSection);
      }
    }
  }

  lemma DisciplinedExtend(plan: Plan, log: Log, e: Entry)
    requires log != [] && DisciplinedLog(plan, log) && Disciplined(plan, log, e)
    ensures DisciplinedLog(plan, log + [e])
  {
    hide Disciplined;
    assert (log + [e])[..|log|] == log;
  }

  lemma EarlyContractIsDisciplined(handlers: set<Stage>)
    ensures DisciplinedLog(ShippedPlan(), EarlyContract(handlers))
  {
    hide DisciplinedLog, Disciplined, ShippedPlan, Prepared, Started, Briefed, Understood, Skipped, EmptyWorkflow, Put;
    var plan, log := ShippedPlan(), Log3();
    assert [log[0]] + [log[1]] == [log[0], log[1]] && [log[0], log[1]] + [log[2]] == log;
    MessagesAreUnowned();
    SingletonIsDisciplined(plan, [log[0]]);
    QuietIsDisciplined(plan, [log[0]], log[1]);
    DisciplinedExtend(plan, [log[0]], log[1]);
    QuietIsDisciplined(plan, [log[0], log[1]], log[2]);
    DisciplinedExtend(plan, [log[0], log[1]], log[2]);
    QuietIsDisciplined(plan, log, Last(Log4(handlers)));
    DisciplinedExtend(plan, log, Last(Log4(handlers)));
    QuietIsDisciplined(plan, Log4(handlers), Last(Log5(handlers)));
    DisciplinedExtend(plan, Log4(handlers), Last(Log5(handlers)));
    QuietIsDisciplined(plan, Log5(handlers), Last(Log6(handlers)));
    DisciplinedExtend(plan, Log5(handlers), Last(Log6(handlers)));
    QuietIsDisciplined(plan, Log6(handlers), Last(EarlyContract(handlers)));
    DisciplinedExtend(plan, Log6(handlers), Last(EarlyContract(handlers)));
  }

  lemma SingletonIsDisciplined(plan: Plan, log: Log)
    requires |log| == 1
    ensures DisciplinedLog(plan, log)
  {
  }

  lemma QuietIsDisciplined(plan: Plan, log: Log, e: Entry)
    requires e.changed.Some? && e.changed.value != RevisionHistorySection
    requires e.note.External? ==> e.changed.value == SemanticContractSection || Unowned(plan, e.changed.value)
    ensures Disciplined(plan, log, e)
  {
  }

  lemma EarlyContractIsDone(handlers: set<Stage>)
    requires ClientUnderstanding in handlers
    ensures SemanticContract in DoneStages(ProgressOf(Head(EarlyContract(handlers))))
  {
    assert Head(EarlyContract(handlers)) == Skipped() && ProgressOf(Skipped()) == Progress3();
  }

  lemma EarlyContractStamps(handlers: set<Stage>)
    requires ClientUnderstanding in handlers
    ensures At(WrittenAt(EarlyContract(handlers)), SemanticContractSection) == 3
    ensures At(WrittenAt(EarlyContract(handlers)), BriefSection) == 5
  {
    hide WrittenAt, ReadAt, Prepared, Started, Briefed, Understood, Skipped, EmptyWorkflow, Put;
    Log3Stamps();
    StampsExtend(Log3(), Last(Log4(handlers)));
    StampsExtend(Log4(handlers), Last(Log5(handlers)));
    StampsExtend(Log5(handlers), Last(Log6(handlers)));
    StampsExtend(Log6(handlers), Last(EarlyContract(handlers)));
  }

  lemma Log3Stamps()
    ensures At(WrittenAt(Log3()), SemanticContractSection) == 3 && At(WrittenAt(Log3()), BriefSection) == 0
  {
    var log := Log3();
    var initial := [InitialEntry()];
    assert log == initial + [log[1]] + [log[2]];
    StampsExtend(initial, log[1]);
    StampsExtend(initial + [log[1]], log[2]);
    assert initial[..0] == [];
  }
}
