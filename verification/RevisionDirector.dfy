/** The revision director: where the findings of a review send the work back to, what the revision is to
    change and what it keeps. */
module RevisionDirectors {
  import opened Vocabulary
  import opened StageGraph
  import opened Workflows
  import opened Freshness
  import opened DefaultPlan
  import opened Ordering

  datatype Route = CopyRoute | TypographyRoute | LayoutRoute | ColorRoute | SceneRoute | ProductRoute | StrategyRoute
      | ConceptRoute

  /** The revision director's routing table. */
  function RouteTarget(r: Route): Stage {
    match r
    case CopyRoute => Copywriting
    case TypographyRoute => DesignSpec
    case LayoutRoute => DesignSpec
    case ColorRoute => DesignSpec
    case SceneRoute => Production
    case ProductRoute => AssetIntelligence
    case StrategyRoute => MarketingStrategy
    case ConceptRoute => CreativeConcept
  }

  /** The routes each reviewing stage's handler attaches to its findings. */
  function RoutesOf(s: Stage): set<Route> {
    match s
    case ReferenceValidation => {StrategyRoute, LayoutRoute, ConceptRoute}
    case ScenePurity => {SceneRoute}
    case QualityReview => {CopyRoute, StrategyRoute}
    case DesignReview => {ConceptRoute, TypographyRoute, ColorRoute, LayoutRoute}
    case VisionReview => {ProductRoute, SceneRoute, TypographyRoute, LayoutRoute}
    case QualityScoring => {StrategyRoute, ConceptRoute, LayoutRoute, TypographyRoute, ColorRoute, ProductRoute}
    case _ => {}
  }

  /** The section a route is to change. */
  function ChangeOf(r: Route): Section {
    match r
    case CopyRoute => CopySection
    case TypographyRoute => DesignSpecSection
    case LayoutRoute => DesignSpecSection
    case ColorRoute => DesignSpecSection
    case SceneRoute => GenerationArtifactsSection
    case ProductRoute => AssetsSection
    case StrategyRoute => MarketingStrategySection
    case ConceptRoute => CreativeConceptSection
  }

  function RouteName(r: Route): string {
    match r
    case CopyRoute => "copy"
    case TypographyRoute => "typography"
    case LayoutRoute => "layout"
    case ColorRoute => "color"
    case SceneRoute => "scene"
    case ProductRoute => "product"
    case StrategyRoute => "strategy"
    case ConceptRoute => "concept"
  }

  /** The sections a revision may promise to keep. */
  const PRESERVABLE: set<Section> := {
    ConversationContextSection, BriefSection, SemanticContractSection, BrandSection, ProductSection,
    AudienceSection, ResearchSection, MarketingStrategySection, CreativeConceptSection, CopySection,
    ArtDirectionSection, DesignSpecSection, AssetsSection, GenerationPlanSection}

  /** Of a revision instruction, its route, its target, and what it changes and keeps. */
  datatype Instruction = Instruction(route: Route, target: Stage, change: set<Section>, keep: set<Section>)

  /** Findings are worked on in the order of the stages they lead to, then of their routes' names. */
  predicate ComesFirst(r: Route, q: Route) {
    Before(Position(RouteTarget(r)), RouteName(r), Position(RouteTarget(q)), RouteName(q))
  }

  predicate Before(i: nat, name: string, j: nat, other: string) {
    i < j || (i == j && AtMost(name, other))
  }

  lemma BeforeIsAnOrder(i: nat, x: string, j: nat, y: string, k: nat, z: string)
    ensures Before(i, x, i, x)
    ensures Before(i, x, j, y) || Before(j, y, i, x)
    ensures Before(i, x, j, y) && Before(j, y, k, z) ==> Before(i, x, k, z)
  {
    hide AtMost;
    AtMostTotal(x, y);
    AtMostTotal(x, x);
    if AtMost(x, y) && AtMost(y, z) {
      AtMostTransitive(x, y, z);
    }
  }

  lemma ComesFirstOrder(p: Route, q: Route, r: Route)
    ensures ComesFirst(p, p)
    ensures ComesFirst(p, q) || ComesFirst(q, p)
    ensures ComesFirst(p, q) && ComesFirst(q, r) ==> ComesFirst(p, r)
  {
    hide AtMost, RouteName, Position, RouteTarget, Before;
    BeforeIsAnOrder(Position(RouteTarget(p)), RouteName(p), Position(RouteTarget(q)), RouteName(q),
                    Position(RouteTarget(r)), RouteName(r));
  }

  /** RevisionDirector.plan: the first finding's stage is the target; every finding's section is to
      change; and of the rest, what no stage behind the target writes is kept. */
  method DirectRevision(findings: seq<Route>) returns (i: Instruction)
    requires findings != []
    ensures i.route in findings && i.target == RouteTarget(i.route)
    ensures forall r :: r in findings ==> ComesFirst(i.route, r)
    ensures forall x :: x in i.change <==> exists r :: r in findings && ChangeOf(r) == x
    ensures forall x :: x in i.keep <==>
      && x in PRESERVABLE && x !in i.change
      && forall s :: Reaches(ShippedPlan(), s, i.target) ==> x !in OutputSections(s)
  {
    hide Position, RouteTarget, ChangeOf, OutputSections, Reaches, ComesFirst;
    var primary, change := findings[0], {ChangeOf(findings[0])};
    ComesFirstOrder(primary, primary, primary);
    for k := 1 to |findings|
      invariant primary in findings[..k] && change == set r | r in findings[..k] :: ChangeOf(r)
      invariant forall r :: r in findings[..k] ==> ComesFirst(primary, r)
    {
      assert findings[..k + 1] == findings[..k] + [findings[k]];
      ghost var before := primary;
      if !ComesFirst(primary, findings[k]) {
        primary := findings[k];
      }
      forall r | r in findings[..k + 1] ensures ComesFirst(primary, r) {
        ComesFirstOrder(before, findings[k], findings[k]);
        ComesFirstOrder(findings[k], before, r);
      }
      change := change + {ChangeOf(findings[k])};
    }
    assert findings[..|findings|] == findings;
    ShippedIsUnique();
    var affected := DownstreamOf(ShippedPlan(), RouteTarget(primary));
    var invalidated: set<Section> := {};
    for k := 0 to |affected|
      invariant forall x :: x in invalidated <==> exists j :: 0 <= j < k && x in OutputSections(affected[j])
    {
      invalidated := invalidated + set x | x in OutputSections(affected[k]);
    }
    WrittenBehind(RouteTarget(primary), affected, invalidated);
    i := Instruction(primary, RouteTarget(primary), change, PRESERVABLE - invalidated - change);
  }

  lemma WrittenBehind(t: Stage, affected: seq<Stage>, invalidated: set<Section>)
    requires affected == Downstream(ShippedPlan(), t)
    requires forall x :: x in invalidated <==> exists j :: 0 <= j < |affected| && x in OutputSections(affected[j])
    ensures forall x :: x in invalidated <==> exists s :: Reaches(ShippedPlan(), s, t) && x in OutputSections(s)
  {
    hide OutputSections, Reaches;
    ShippedIsUnique();
    forall x ensures x in invalidated <==> exists s :: Reaches(ShippedPlan(), s, t) && x in OutputSections(s) {
      if x in invalidated {
        var j :| 0 <= j < |affected| && x in OutputSections(affected[j]);
        assert affected[j] in affected;
      }
      if s :| Reaches(ShippedPlan(), s, t) && x in OutputSections(s) {
        assert s in affected;
        var j :| 0 <= j < |affected| && affected[j] == s;
      }
    }
  }

  /** The stage a route leads to writes the section the route is to change. */
  lemma TargetWritesTheChange(r: Route)
    ensures Owns(DefaultPolicy(RouteTarget(r)), ChangeOf(r))
  {
    hide ShippedPlan, DependenciesOf, RequiredSections;
  }

  lemma TargetsAreNoReviewers(r: Route)
    ensures !Reviewer(DefaultPolicy(RouteTarget(r)))
  {
    hide RequiredSections, DependenciesOf;
  }

  /** The director keeps its promise: under the shipped plan and the shipped routes, every revision
      a reviewer asks for targets an ancestor that requests no revisions itself. */
  lemma DirectorTargetsAncestors(requester: Stage, r: Route)
    requires r in RoutesOf(requester)
    ensures GoodTarget(ShippedPlan(), requester, RouteTarget(r))
  {
    hide Reaches, Reviewer, DefaultPolicy, ShippedPlan;
    ShippedDepsAre(RouteTarget(r));
    TargetsAreNoReviewers(r);
    ShippedReachesExactly(requester, RouteTarget(r));
  }

  // ----- What a revision carries out ------------------------------------------------------

  /** The revision runs a stage again that writes the section this finding is about. */
  ghost predicate CarriedOut(target: Stage, r: Route) {
    exists s :: Reaches(ShippedPlan(), s, target) && Owns(DefaultPolicy(s), ChangeOf(r))
  }

  /** A product finding beside one on what is developed without looking at the assets. */
  predicate ProductBesideStrategy(findings: seq<Route>) {
    ProductRoute in findings
    && (CopyRoute in findings || StrategyRoute in findings || ConceptRoute in findings)
  }

  lemma CarriedOutIsReaching(target: Stage, r: Route)
    ensures CarriedOut(target, r) <==> Reaches(ShippedPlan(), RouteTarget(r), target)
  {
    hide Reaches, DefaultPolicy, RouteTarget, ChangeOf, Owns;
    TargetWritesTheChange(r);
    if CarriedOut(target, r) {
      var s :| Reaches(ShippedPlan(), s, target) && Owns(DefaultPolicy(s), ChangeOf(r));
      OwnersAreUnique(s, ChangeOf(r));
      OwnersAreUnique(RouteTarget(r), ChangeOf(r));
    }
  }

  /** Two routes in the order of their stages: the later stage depends on the earlier one, unless that is
      the assets' and the later one does not look at them. */
  lemma LaterReachesEarlier(p: Route, r: Route)
    requires Position(RouteTarget(p)) <= Position(RouteTarget(r))
    ensures Reaches(ShippedPlan(), RouteTarget(r), RouteTarget(p)) <==>
      !(p == ProductRoute && r in {CopyRoute, StrategyRoute, ConceptRoute})
  {
    hide Reaches, ShippedPlan;
    ShippedReachesExactly(RouteTarget(r), RouteTarget(p));
  }

  /** A revision carries out every finding it was made for, exactly when no product finding comes with one
      on copy, strategy or concept: those are developed without the assets, so going back to the assets
      leaves them as they are. */
  lemma RevisionCarriesOutExactly(findings: seq<Route>, route: Route)
    requires route in findings && forall r :: r in findings ==> ComesFirst(route, r)
    ensures (forall r :: r in findings ==> CarriedOut(RouteTarget(route), r)) <==> !ProductBesideStrategy(findings)
  {
    hide Reaches, CarriedOut, AtMost, RouteName;
    forall r | r in findings
      ensures CarriedOut(RouteTarget(route), r) <==>
        !(route == ProductRoute && r in {CopyRoute, StrategyRoute, ConceptRoute})
    {
      CarriedOutIsReaching(RouteTarget(route), r);
      LaterReachesEarlier(route, r);
    }
  }

  /** The scoring stage may find both at once: then the strategy it objects to is kept as it is. */
  lemma StrategyIsLeftAsItIs()
    ensures ProductRoute in RoutesOf(QualityScoring) && StrategyRoute in RoutesOf(QualityScoring)
    ensures ComesFirst(ProductRoute, StrategyRoute)
    ensures !CarriedOut(RouteTarget(ProductRoute), StrategyRoute)
  {
    hide Reaches, CarriedOut, AtMost, RouteName;
    CarriedOutIsReaching(RouteTarget(ProductRoute), StrategyRoute);
    LaterReachesEarlier(ProductRoute, StrategyRoute);
  }
}
