/** The stage graph the product ships with, and the proof that it meets every hypothesis of the freshness
    theorem. */
module DefaultPlan {
  import opened Vocabulary
  import opened StageGraph
  import opened Workflows
  import opened Supervisor
  import opened VersionLog
  import opened Freshness
  import opened Budgets
  import opened Gates

  /** The listing order of DEFAULT_SUPERVISOR_PLAN. */
  const ORDER: seq<Stage> := [
    ClientUnderstanding, SemanticContract, AssetIntelligence, BrandProduct, AudienceIntelligence,
    ExternalResearch, MarketingStrategy, CreativeConcept, Copywriting, ArtDirection, DesignSpec,
    ReferenceValidation, GenerationPlanning, Production, ScenePurity, Composition, Verification,
    QualityReview, DesignReview, VisionReview, QualityScoring]

  function Position(s: Stage): (i: nat)
    ensures i < |ORDER| && ORDER[i] == s
  {
    match s
    case ClientUnderstanding => 0
    case SemanticContract => 1
    case AssetIntelligence => 2
    case BrandProduct => 3
    case AudienceIntelligence => 4
    case ExternalResearch => 5
    case MarketingStrategy => 6
    case CreativeConcept => 7
    case Copywriting => 8
    case ArtDirection => 9
    case DesignSpec => 10
    case ReferenceValidation => 11
    case GenerationPlanning => 12
    case Production => 13
    case ScenePurity => 14
    case Composition => 15
    case Verification => 16
    case QualityReview => 17
    case DesignReview => 18
    case VisionReview => 19
    case QualityScoring => 20
  }

  function DependenciesOf(s: Stage): seq<Stage> {
    match s
    case ClientUnderstanding => []
    case SemanticContract => [ClientUnderstanding]
    case AssetIntelligence => [SemanticContract]
    case BrandProduct => [SemanticContract]
    case AudienceIntelligence => [BrandProduct]
    case ExternalResearch => [AudienceIntelligence]
    case MarketingStrategy => [ExternalResearch]
    case CreativeConcept => [MarketingStrategy]
    case Copywriting => [CreativeConcept]
    case ArtDirection => [Copywriting, AssetIntelligence]
    case DesignSpec => [Copywriting, ArtDirection]
    case ReferenceValidation => [DesignSpec]
    case GenerationPlanning => [ReferenceValidation, AssetIntelligence]
    case Production => [GenerationPlanning]
    case ScenePurity => [Production]
    case Composition => [ScenePurity]
    case Verification => [Composition]
    case QualityReview => [Verification]
    case DesignReview => [QualityReview]
    case VisionReview => [DesignReview]
    case QualityScoring => [VisionReview]
  }

  function RequiredSections(s: Stage): seq<Section> {
    match s
    case ClientUnderstanding => [ConversationContextSection]
    case SemanticContract => [BriefSection]
    case AssetIntelligence => [SemanticContractSection]
    case BrandProduct => [SemanticContractSection]
    case AudienceIntelligence => [SemanticContractSection]
    case ExternalResearch => [SemanticContractSection, AudienceSection]
    case MarketingStrategy =>
      [BriefSection, SemanticContractSection, BrandSection, ProductSection, AudienceSection, ResearchSection]
    case CreativeConcept =>
      [SemanticContractSection, BrandSection, AudienceSection, ResearchSection, MarketingStrategySection]
    case Copywriting => [SemanticContractSection, CreativeConceptSection, MarketingStrategySection, BrandSection]
    case ArtDirection => [SemanticContractSection, CreativeConceptSection, CopySection, BrandSection, AssetsSection]
    case DesignSpec => [SemanticContractSection, CopySection, ArtDirectionSection]
    case ReferenceValidation =>
      [SemanticContractSection, BrandSection, ResearchSection, MarketingStrategySection, CreativeConceptSection,
       CopySection, ArtDirectionSection, DesignSpecSection]
    case GenerationPlanning =>
      [DesignSpecSection, ReferenceValidationSection, SemanticContractSection, AssetsSection]
    case Production =>
      [SemanticContractSection, CreativeConceptSection, ArtDirectionSection, DesignSpecSection, AssetsSection,
       GenerationPlanSection]
    case ScenePurity => [SemanticContractSection, GenerationPlanSection, GenerationArtifactsSection]
    case Composition =>
      [CopySection, DesignSpecSection, AssetsSection, GenerationArtifactsSection, ScenePuritySection]
    case Verification => [SemanticContractSection, CopySection, DesignSpecSection, PostDraftSection]
    case QualityReview => [SemanticContractSection, MarketingStrategySection, CopySection, PostDraftSection]
    case DesignReview =>
      [SemanticContractSection, ArtDirectionSection, DesignSpecSection, PostDraftSection, QualitySection]
    case VisionReview =>
      [SemanticContractSection, CopySection, DesignSpecSection, AssetsSection, PostDraftSection, DesignQualitySection]
    case QualityScoring =>
      [SemanticContractSection, CreativeConceptSection, CopySection, ArtDirectionSection, DesignSpecSection,
       PostDraftSection, VerificationSection, QualitySection, DesignQualitySection, VisionQualitySection]
  }

  function OutputSections(s: Stage): seq<Section> {
    match s
    case ClientUnderstanding => [BriefSection]
    case SemanticContract => [SemanticContractSection]
    case AssetIntelligence => [AssetsSection]
    case BrandProduct => [BrandSection, ProductSection]
    case AudienceIntelligence => [AudienceSection]
    case ExternalResearch => [ResearchSection]
    case MarketingStrategy => [MarketingStrategySection]
    case CreativeConcept => [CreativeConceptSection]
    case Copywriting => [CopySection]
    case ArtDirection => [ArtDirectionSection]
    case DesignSpec => [DesignSpecSection]
    case ReferenceValidation => [ReferenceValidationSection, RevisionHistorySection]
    case GenerationPlanning => [GenerationPlanSection]
    case Production => [GenerationArtifactsSection]
    case ScenePurity => [ScenePuritySection, RevisionHistorySection]
    case Composition => [PostDraftSection]
    case Verification => [VerificationSection]
    case QualityReview => [QualitySection, RevisionHistorySection]
    case DesignReview => [DesignQualitySection, RevisionHistorySection]
    case VisionReview => [VisionQualitySection, RevisionHistorySection]
    case QualityScoring => [QualityApprovalSection, RevisionHistorySection]
  }

  function DefaultPolicy(s: Stage): Policy {
    Policy(s, DependenciesOf(s), RequiredSections(s), OutputSections(s), false, 3)
  }

  /** DEFAULT_SUPERVISOR_PLAN. */
  function ShippedPlan(): (plan: Plan)
    ensures |plan| == |ORDER|
    ensures forall i :: 0 <= i < |plan| ==> plan[i] == DefaultPolicy(ORDER[i])
  {
    seq(|ORDER|, i requires 0 <= i < |ORDER| => DefaultPolicy(ORDER[i]))
  }

  lemma PositionIsInverse(i: nat)
    requires i < |ORDER|
    ensures Position(ORDER[i]) == i
  {
  }

  lemma ShippedIsUnique()
    ensures UniqueStages(ShippedPlan())
    ensures forall s :: Listed(ShippedPlan(), s)
  {
    hide DefaultPolicy, Position;
    var plan := ShippedPlan();
    forall i, j | 0 <= i < j < |plan| ensures plan[i].stage != plan[j].stage {
      PositionIsInverse(i);
      PositionIsInverse(j);
      StageAt(i);
      StageAt(j);
    }
    forall s ensures Listed(plan, s) {
      StageAt(Position(s));
    }
  }

  lemma DependenciesComeFirst(s: Stage)
    ensures forall d :: d in DependenciesOf(s) ==> Position(d) < Position(s)
  {
    hide RequiredSections, OutputSections, DefaultPolicy, ShippedPlan;
  }

  lemma RequiredAreDistinct(s: Stage)
    ensures Distinct(RequiredSections(s))
  {
  }

  lemma PoliciesAreWellFormed(s: Stage)
    ensures WellFormedPolicy(DefaultPolicy(s))
  {
    hide RequiredSections;
    RequiredAreDistinct(s);
  }

  lemma ShippedIsTopological()
    ensures Topological(ShippedPlan())
  {
    hide DependenciesOf, Position;
    var plan := ShippedPlan();
    forall i, d | 0 <= i < |plan| && d in plan[i].dependencies
      ensures exists j :: 0 <= j < i && plan[j].stage == d
    {
      PositionIsInverse(i);
      DependenciesComeFirst(ORDER[i]);
      assert plan[Position(d)].stage == d;
    }
  }

  lemma ShippedDepsAre(s: Stage)
    ensures Listed(ShippedPlan(), s)
    ensures Deps(ShippedPlan(), s) == DependenciesOf(s)
    ensures PolicyOf(ShippedPlan(), s) == DefaultPolicy(s)
  {
    hide DependenciesOf, Position;
    ShippedIsUnique();
    IndexIsUnique(ShippedPlan(), Position(s));
  }

  lemma ShippedIsAccepted()
    ensures Accepted(ShippedPlan())
  {
    hide DependenciesOf, Position, Deps, DefaultPolicy, Listed;
    var plan := ShippedPlan();
    ShippedIsUnique();
    var rank: map<Stage, nat> := map s: Stage | true :: Position(s);
    forall s, d | d in Deps(plan, s) ensures s in rank && d in rank && rank[d] < rank[s] {
      ShippedDepsAre(s);
      DependenciesComeFirst(s);
    }
    assert IsRank(plan, rank);
    forall i | 0 <= i < |plan| ensures WellFormedPolicy(plan[i]) {
      PoliciesAreWellFormed(ORDER[i]);
    }
  }

  /** The stage that alone writes a section. */
  function OwnerOf(x: Section): Option<Stage> {
    match x
    case BriefSection => Some(ClientUnderstanding)
    case SemanticContractSection => Some(SemanticContract)
    case AssetsSection => Some(AssetIntelligence)
    case BrandSection => Some(BrandProduct)
    case ProductSection => Some(BrandProduct)
    case AudienceSection => Some(AudienceIntelligence)
    case ResearchSection => Some(ExternalResearch)
    case MarketingStrategySection => Some(MarketingStrategy)
    case CreativeConceptSection => Some(CreativeConcept)
    case CopySection => Some(Copywriting)
    case ArtDirectionSection => Some(ArtDirection)
    case DesignSpecSection => Some(DesignSpec)
    case ReferenceValidationSection => Some(ReferenceValidation)
    case GenerationPlanSection => Some(GenerationPlanning)
    case GenerationArtifactsSection => Some(Production)
    case ScenePuritySection => Some(ScenePurity)
    case PostDraftSection => Some(Composition)
    case VerificationSection => Some(Verification)
    case QualitySection => Some(QualityReview)
    case DesignQualitySection => Some(DesignReview)
    case VisionQualitySection => Some(VisionReview)
    case QualityApprovalSection => Some(QualityScoring)
    case SupervisorSection => None
    case ConversationContextSection => None
    case RevisionHistorySection => None
  }

  lemma OwnersAreUnique(s: Stage, x: Section)
    requires Owns(DefaultPolicy(s), x)
    ensures OwnerOf(x) == Some(s)
  {
    hide RequiredSections, DependenciesOf, Position, ShippedPlan;
  }

  lemma ShippedOutputsAreDisjoint()
    ensures DisjointOutputs(ShippedPlan())
  {
    hide OwnerOf, Owns, DefaultPolicy, Position;
    var plan := ShippedPlan();
    forall i, j, x | 0 <= i < |plan| && 0 <= j < |plan| && Owns(plan[i], x) && Owns(plan[j], x)
      ensures i == j
    {
      OwnersAreUnique(ORDER[i], x);
      OwnersAreUnique(ORDER[j], x);
      PositionIsInverse(i);
      PositionIsInverse(j);
    }
  }

  lemma ReachesDirectly(s: Stage, d: Stage, t: Stage)
    requires d in DependenciesOf(s) && Reaches(ShippedPlan(), d, t)
    ensures Reaches(ShippedPlan(), s, t)
  {
    hide DependenciesOf, Reaches, Deps;
    ShippedDepsAre(s);
    ReachesStep(ShippedPlan(), s, d, t);
  }

  /** The stages between the contract and art direction, which do not look at the assets. */
  predicate IgnoresAssets(s: Stage) {
    s in {BrandProduct, AudienceIntelligence, ExternalResearch, MarketingStrategy, CreativeConcept, Copywriting}
  }

  /** The dependency of a stage that is listed last. */
  function LastDependency(s: Stage): Stage
    requires s != ClientUnderstanding
  {
    match s
    case SemanticContract => ClientUnderstanding
    case AssetIntelligence => SemanticContract
    case BrandProduct => SemanticContract
    case AudienceIntelligence => BrandProduct
    case ExternalResearch => AudienceIntelligence
    case MarketingStrategy => ExternalResearch
    case CreativeConcept => MarketingStrategy
    case Copywriting => CreativeConcept
    case ArtDirection => Copywriting
    case DesignSpec => ArtDirection
    case ReferenceValidation => DesignSpec
    case GenerationPlanning => ReferenceValidation
    case Production => GenerationPlanning
    case ScenePurity => Production
    case Composition => ScenePurity
    case Verification => Composition
    case QualityReview => Verification
    case DesignReview => QualityReview
    case VisionReview => DesignReview
    case QualityScoring => VisionReview
  }

  /** What a stage can depend on at most. */
  ghost predicate MayReach(s: Stage, t: Stage) {
    Position(t) <= Position(s) && !(t == AssetIntelligence && IgnoresAssets(s))
  }

  lemma LastDependencyIsOne(s: Stage)
    requires s != ClientUnderstanding
    ensures LastDependency(s) in DependenciesOf(s) && Position(LastDependency(s)) < Position(s)
  {
    hide ShippedPlan, DefaultPolicy, RequiredSections, OutputSections, ORDER;
  }

  lemma LastDependencyIsNext(s: Stage, t: Stage)
    requires s != t && MayReach(s, t) && !(s == ArtDirection && t == AssetIntelligence)
    ensures s != ClientUnderstanding && MayReach(LastDependency(s), t)
  {
    hide ShippedPlan, DefaultPolicy, RequiredSections, OutputSections, DependenciesOf, ORDER;
  }

  lemma {:induction false} EarlierIsReached(s: Stage, t: Stage)
    requires MayReach(s, t)
    ensures Reaches(ShippedPlan(), s, t)
    decreases Position(s)
  {
    hide Reaches, ShippedPlan, DependenciesOf, Position, MayReach, LastDependency;
    if s == t {
      ReachesSelf(ShippedPlan(), s);
    } else if s == ArtDirection && t == AssetIntelligence {
      ReachesSelf(ShippedPlan(), t);
      AssetsForArt();
      ReachesDirectly(s, t, t);
    } else {
      LastDependencyIsNext(s, t);
      LastDependencyIsOne(s);
      EarlierIsReached(LastDependency(s), t);
      ReachesDirectly(s, LastDependency(s), t);
    }
  }

  lemma AssetsForArt()
    ensures AssetIntelligence in DependenciesOf(ArtDirection)
  {
  }

  lemma OnlyEarlierIsReached(s: Stage, t: Stage)
    requires Reaches(ShippedPlan(), s, t)
    ensures MayReach(s, t)
  {
    hide Reaches, MayReach, DefaultPolicy;
    var plan := ShippedPlan();
    var roots := set x: Stage | MayReach(s, x);
    forall i, d | 0 <= i < |plan| && plan[i].stage in roots && d in plan[i].dependencies ensures d in roots {
      StageAt(i);
      DependenciesStay(s, ORDER[i], d);
    }
    ReachesItself(s);
    ReachesStaysDown(plan, roots, s, t);
  }

  lemma ReachesItself(s: Stage)
    ensures MayReach(s, s)
  {
  }

  lemma DependenciesStay(s: Stage, x: Stage, d: Stage)
    requires MayReach(s, x)
    ensures d in DefaultPolicy(x).dependencies ==> MayReach(s, d)
  {
    hide RequiredSections, OutputSections;
    if d in DefaultPolicy(x).dependencies {
      DependenciesComeFirst(x);
    }
  }

  /** The shipped graph, exactly: a stage depends, directly or not, on every stage listed before it, but
      for the ones on brand, audience, strategy, concept and copy, which do not depend on the assets. */
  lemma ShippedReachesExactly(s: Stage, t: Stage)
    ensures Reaches(ShippedPlan(), s, t) <==>
      Position(t) <= Position(s) && !(t == AssetIntelligence && IgnoresAssets(s))
  {
    hide Reaches, Position;
    if MayReach(s, t) {
      EarlierIsReached(s, t);
    }
    if Reaches(ShippedPlan(), s, t) {
      OnlyEarlierIsReached(s, t);
    }
  }

  /** What a stage requires is written by a stage it depends on, but for the conversation, which the
      client writes. */
  lemma RequiredAreProduced(s: Stage, x: Section)
    requires x in RequiredSections(s)
    ensures x == ConversationContextSection <==> s == ClientUnderstanding
    ensures x != ConversationContextSection ==>
      OwnerOf(x).Some? && OwnerOf(x).value != s && Reaches(ShippedPlan(), s, OwnerOf(x).value)
      && Owns(DefaultPolicy(OwnerOf(x).value), x)
  {
    hide Reaches, ShippedPlan, DependenciesOf, RequiredSections, OwnerOf, Owns, DefaultPolicy, Position;
    RequiredIsOwned(s, x);
    if x != ConversationContextSection {
      ShippedReachesExactly(s, OwnerOf(x).value);
      OwnersOwn(x);
    }
  }

  lemma RequiredIsOwned(s: Stage, x: Section)
    requires x in RequiredSections(s)
    ensures x == ConversationContextSection <==> s == ClientUnderstanding
    ensures x != ConversationContextSection ==> OwnerOf(x).Some? && Position(OwnerOf(x).value) < Position(s)
    ensures OwnerOf(x) == Some(AssetIntelligence) ==> !IgnoresAssets(s)
  {
    hide ShippedPlan, DependenciesOf, OutputSections, DefaultPolicy, RequiredSections, Position;
    OnlyTheClientConverses(s, x);
    if x != ConversationContextSection {
      RequiredIsEarlier(s, x);
    }
    RequiredAssets(s);
  }

  lemma OnlyTheClientConverses(s: Stage, x: Section)
    requires x in RequiredSections(s)
    ensures x == ConversationContextSection <==> s == ClientUnderstanding
  {
    hide ShippedPlan, DependenciesOf, OutputSections, DefaultPolicy, IgnoresAssets, OwnerOf, Position;
  }

  lemma RequiredIsEarlier(s: Stage, x: Section)
    requires x in RequiredSections(s) && x != ConversationContextSection
    ensures OwnerOf(x).Some? && Position(OwnerOf(x).value) < Position(s)
  {
    hide ShippedPlan, DependenciesOf, OutputSections, DefaultPolicy, IgnoresAssets, RequiredSections, OwnerOf, ORDER;
    if Position(s) < 13 {
      PlannedIsEarlier(s, x);
    } else {
      MadeIsEarlier(s, x);
    }
  }

  lemma PlannedIsEarlier(s: Stage, x: Section)
    requires x in RequiredSections(s) && x != ConversationContextSection && Position(s) < 13
    ensures OwnerOf(x).Some? && Position(OwnerOf(x).value) < Position(s)
  {
    hide ShippedPlan, DependenciesOf, OutputSections, DefaultPolicy, IgnoresAssets, ORDER;
  }

  lemma MadeIsEarlier(s: Stage, x: Section)
    requires x in RequiredSections(s) && x != ConversationContextSection && Position(s) >= 13
    ensures OwnerOf(x).Some? && Position(OwnerOf(x).value) < Position(s)
  {
    hide ShippedPlan, DependenciesOf, OutputSections, DefaultPolicy, IgnoresAssets, ORDER;
  }

  lemma RequiredAssets(s: Stage)
    ensures IgnoresAssets(s) ==> AssetsSection !in RequiredSections(s)
  {
    hide ShippedPlan, DependenciesOf, OutputSections, DefaultPolicy, Position;
  }

  lemma OwnersOwn(x: Section)
    requires OwnerOf(x).Some?
    ensures Owns(DefaultPolicy(OwnerOf(x).value), x)
  {
    hide ShippedPlan, DependenciesOf, RequiredSections, Position;
  }

  lemma TailReaches(i: nat, j: nat)
    requires 9 <= i <= j < |ORDER|
    ensures Reaches(ShippedPlan(), ORDER[j], ORDER[i])
  {
    hide Reaches;
    PositionIsInverse(i);
    PositionIsInverse(j);
    ShippedReachesExactly(ORDER[j], ORDER[i]);
  }

  lemma ReviewersComeLate(i: nat)
    requires i < |ORDER| && Reviewer(DefaultPolicy(ORDER[i]))
    ensures 11 <= i
  {
    PositionIsInverse(i);
  }

  /** The shipped plan meets what the freshness theorem asks of a plan. */
  lemma ShippedIsRevisionSafe()
    ensures RevisionSafe(ShippedPlan())
  {
    hide Reaches, Reviewer, DefaultPolicy, Accepted, Topological, DisjointOutputs;
    var plan := ShippedPlan();
    ShippedIsAccepted();
    ShippedIsTopological();
    ShippedOutputsAreDisjoint();
    forall i, j | 0 <= i < j < |plan| && Reviewer(plan[i])
      ensures Reaches(plan, plan[j].stage, plan[i].stage)
    {
      ReviewersComeLate(i);
      TailReaches(i, j);
      assert plan[j].stage == ORDER[j] && plan[i].stage == ORDER[i] by { StageAt(i); StageAt(j); }
    }
  }

  lemma StageAt(i: nat)
    requires i < |ORDER|
    ensures ShippedPlan()[i].stage == ORDER[i]
  {
  }

  // ----- The shipped plan, end to end ---------------------------------------------------

  lemma CompositionIsBehindEveryReport(s: Stage)
    requires s in {Verification, QualityReview, DesignReview, VisionReview, QualityScoring}
    ensures Reaches(ShippedPlan(), s, Composition) && Owns(DefaultPolicy(Composition), PostDraftSection)
  {
    TailReaches(Position(Composition), Position(s));
  }

  /** The report section each reviewing stage writes. */
  function ReportOf(s: Stage): Option<Section> {
    match s
    case Verification => Some(VerificationSection)
    case QualityReview => Some(QualitySection)
    case DesignReview => Some(DesignQualitySection)
    case VisionReview => Some(VisionQualitySection)
    case QualityScoring => Some(QualityApprovalSection)
    case _ => None
  }

  /** Every approved post was judged as it stands: when the shipped workflow is approved, whatever
      revisions, retries, crashes and races came before, each of the five reports was computed from
      a state that already held the last composition, and none has been outdated since. */
  lemma ApprovedReportsJudgeTheLastComposition(log: Log, s: Stage)
    requires LegalLog(ShippedPlan(), log) && DisciplinedLog(ShippedPlan(), log)
    requires Last(log).note.Decided? && Last(log).note.decision.reason == WorkflowComplete
    requires ReportOf(s).Some?
    ensures
      var before := log[..|log| - 1];
      && 0 < At(WrittenAt(before), PostDraftSection) <= At(ReadAt(before), ReportOf(s).value)
      && At(ReadAt(before), ReportOf(s).value) < At(WrittenAt(before), ReportOf(s).value)
    ensures
      var w := log[|log| - 2].state;
      && Passed(w[VerificationSection]) && Passed(w[QualitySection])
      && Passed(w[DesignQualitySection]) && Passed(w[QualityApprovalSection])
  {
    hide LegalLog, DisciplinedLog, Reaches, Owns, AllDone, ReportsPass, Passed, Position, OwnerOf, DependenciesOf;
    var plan := ShippedPlan();
    ShippedIsRevisionSafe();
    LogIsLonger(log);
    var n := |log| - 1;
    LegalPrefix(plan, log, n);
    DisciplinedShorter(log);
    ApprovalIsEarned(plan, log, n);
    PassingShippedReports(log[n - 1].state);
    AllDoneMeans(log[n - 1].state, s);
    CompositionIsBehindEveryReport(s);
    ReportIsOwned(s);
    ShippedDepsAre(s);
    ShippedDepsAre(Composition);
    NoStaleOutput(plan, log[..n], s, Composition, ReportOf(s).value, PostDraftSection);
  }

  lemma LogIsLonger(log: Log)
    requires LegalLog(ShippedPlan(), log) && Last(log).note.Decided?
    ensures |log| > 1
  {
  }

  lemma DisciplinedShorter(log: Log)
    requires |log| > 1 && DisciplinedLog(ShippedPlan(), log)
    ensures DisciplinedLog(ShippedPlan(), log[..|log| - 1])
  {
  }

  lemma ReportIsOwned(s: Stage)
    requires ReportOf(s).Some?
    ensures Owns(DefaultPolicy(s), ReportOf(s).value)
  {
  }

  lemma PassingShippedReports(w: Workflow)
    requires ReportsPass(ShippedPlan(), w)
    ensures Passed(w[VerificationSection]) && Passed(w[QualitySection])
    ensures Passed(w[DesignQualitySection]) && Passed(w[QualityApprovalSection])
  {
    hide Listed;
    ShippedDepsAre(Verification);
    ShippedDepsAre(DesignReview);
    ShippedDepsAre(QualityScoring);
  }

  lemma AllDoneMeans(w: Workflow, s: Stage)
    requires AllDone(ShippedPlan(), w)
    ensures s in DoneStages(ProgressOf(w))
  {
    StageAt(Position(s));
  }

  lemma {:induction false} ShippedPrefixBudget(n: nat)
    requires n <= |ORDER|
    ensures StageBudget(ShippedPlan()[..n], NO_PROGRESS) == 3 * n
    ensures ReviewBudget(ShippedPlan()[..n], NO_PROGRESS) == 3 * ReviewersAmong(n)
  {
    if n > 0 {
      ShippedPrefixBudget(n - 1);
      assert ShippedPlan()[..n][..n - 1] == ShippedPlan()[..n - 1];
      assert ShippedPlan()[..n][n - 1] == DefaultPolicy(ORDER[n - 1]);
      ReviewersAt(n - 1);
    }
  }

  /** How many of the first n listed stages may request a revision. */
  function ReviewersAmong(n: nat): nat {
    (if n > 11 then 1 else 0) + (if n > 14 then 1 else 0) + (if n > 17 then n - 17 else 0)
  }

  lemma ReviewersAt(i: nat)
    requires i < |ORDER|
    ensures Reviewer(DefaultPolicy(ORDER[i])) <==> i in {11, 14, 17, 18, 19, 20}
  {
    PositionIsInverse(i);
  }

  /** Under the shipped limits a generation starts its handlers at most 81 times plus once per claim
      of its job, over its whole life. */
  lemma ShippedWorkBound(log: Log)
    requires LegalLog(ShippedPlan(), log) && DisciplinedLog(ShippedPlan(), log)
    ensures Starts(log) <= 81 + |Executors(log)|
  {
    hide LegalLog, DisciplinedLog, StageBudget, ReviewBudget;
    ShippedIsRevisionSafe();
    HandlerStartsAreBounded(ShippedPlan(), log);
    ShippedPrefixBudget(21);
    assert ShippedPlan()[..21] == ShippedPlan();
  }
}
