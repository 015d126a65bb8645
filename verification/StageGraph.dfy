/** The declared stage graph of a supervisor plan: reachability through dependency edges,
    the acyclicity check of the constructor and the downstream closure a revision invalidates. */
module StageGraph {
  import opened Vocabulary

  datatype Policy = Policy(
    stage: Stage,
    dependencies: seq<Stage>,
    required: seq<Section>,
    outputs: seq<Section>,
    optional: bool,
    maxAttempts: int)

  /** What SupervisorStagePolicy checks about itself. */
  predicate WellFormedPolicy(p: Policy) {
    && p.stage !in p.dependencies
    && 1 <= p.maxAttempts <= 10
    && Distinct(p.dependencies)
    && Distinct(p.required)
    && Distinct(p.outputs)
    && SupervisorSection !in p.outputs
  }

  type Plan = seq<Policy>

  predicate Listed(plan: Plan, s: Stage) {
    exists i :: 0 <= i < |plan| && plan[i].stage == s
  }

  function Stages(plan: Plan): (r: set<Stage>)
    ensures forall s :: s in r <==> Listed(plan, s)
  {
    set i | 0 <= i < |plan| :: plan[i].stage
  }

  /** Position of a stage in the listing; the last one, should a stage be listed twice. */
  function IndexOf(plan: Plan, s: Stage): (i: nat)
    requires Listed(plan, s)
    ensures i < |plan| && plan[i].stage == s
  {
    if plan[|plan| - 1].stage == s then |plan| - 1 else
      assert forall i :: 0 <= i < |plan| && plan[i].stage == s ==> plan[..|plan| - 1][i] == plan[i];
      IndexOf(plan[..|plan| - 1], s)
  }

  predicate UniqueStages(plan: Plan) {
    forall i, j :: 0 <= i < j < |plan| ==> plan[i].stage != plan[j].stage
  }

  predicate KnownDependencies(plan: Plan) {
    forall i, d :: 0 <= i < |plan| && d in plan[i].dependencies ==> Listed(plan, d)
  }

  function PolicyOf(plan: Plan, s: Stage): (p: Policy)
    requires Listed(plan, s)
    ensures p in plan && p.stage == s
  {
    plan[IndexOf(plan, s)]
  }

  function Deps(plan: Plan, s: Stage): seq<Stage> {
    if Listed(plan, s) then PolicyOf(plan, s).dependencies else []
  }

  lemma IndexIsUnique(plan: Plan, i: nat)
    requires UniqueStages(plan) && i < |plan|
    ensures Listed(plan, plan[i].stage)
    ensures IndexOf(plan, plan[i].stage) == i
    ensures PolicyOf(plan, plan[i].stage) == plan[i]
    ensures Deps(plan, plan[i].stage) == plan[i].dependencies
  {
  }

  // ----- Reachability -------------------------------------------------------------------

  /** A walk that follows dependency edges: every stage depends on the next one. */
  ghost predicate Walk(plan: Plan, path: seq<Stage>) {
    && path != []
    && forall i :: 0 <= i < |path| - 1 ==> path[i + 1] in Deps(plan, path[i])
  }

  /** s depends on t, directly or through other stages, or is t itself. */
  ghost predicate Reaches(plan: Plan, s: Stage, t: Stage) {
    exists path :: Walk(plan, path) && path[0] == s && path[|path| - 1] == t
  }

  lemma ReachesSelf(plan: Plan, s: Stage)
    ensures Reaches(plan, s, s)
  {
    assert Walk(plan, [s]);
    assert [s][0] == s && [s][|[s]| - 1] == s;
  }

  lemma ReachesStep(plan: Plan, s: Stage, d: Stage, t: Stage)
    requires d in Deps(plan, s) && Reaches(plan, d, t)
    ensures Reaches(plan, s, t)
  {
    var path :| Walk(plan, path) && path[0] == d && path[|path| - 1] == t;
    var longer := [s] + path;
    assert Walk(plan, longer) && longer[0] == s && longer[|longer| - 1] == t;
  }

  lemma {:induction false} WalkTransitive(plan: Plan, path: seq<Stage>, u: Stage)
    requires Walk(plan, path) && Reaches(plan, path[|path| - 1], u)
    ensures Reaches(plan, path[0], u)
    decreases |path|
  {
    if |path| > 1 {
      assert Walk(plan, path[1..]);
      WalkTransitive(plan, path[1..], u);
      ReachesStep(plan, path[0], path[1], u);
    }
  }

  lemma ReachesTransitive(plan: Plan, s: Stage, t: Stage, u: Stage)
    requires Reaches(plan, s, t) && Reaches(plan, t, u)
    ensures Reaches(plan, s, u)
  {
    var path :| Walk(plan, path) && path[0] == s && path[|path| - 1] == t;
    WalkTransitive(plan, path, u);
  }

  /** A set that holds every stage depending on one of its members. */
  ghost predicate UpwardClosed(plan: Plan, xs: set<Stage>) {
    forall i, d :: 0 <= i < |plan| && d in plan[i].dependencies && d in xs ==> plan[i].stage in xs
  }

  /** A set that holds, with a listed stage, everything that stage depends on. */
  ghost predicate DependencyClosed(plan: Plan, xs: set<Stage>) {
    forall i, d :: 0 <= i < |plan| && plan[i].stage in xs && d in plan[i].dependencies ==> d in xs
  }

  lemma {:induction false} WalkStaysUp(plan: Plan, xs: set<Stage>, path: seq<Stage>)
    requires UpwardClosed(plan, xs) && Walk(plan, path) && path[|path| - 1] in xs
    ensures path[0] in xs
    decreases |path|
  {
    if |path| > 1 {
      assert Walk(plan, path[1..]);
      WalkStaysUp(plan, xs, path[1..]);
      assert path[0 + 1] in Deps(plan, path[0]);
    }
  }

  lemma {:induction false} WalkStaysDown(plan: Plan, xs: set<Stage>, path: seq<Stage>)
    requires DependencyClosed(plan, xs) && Walk(plan, path) && path[0] in xs
    ensures path[|path| - 1] in xs
    decreases |path|
  {
    if |path| > 1 {
      assert path[0 + 1] in Deps(plan, path[0]);
      assert Walk(plan, path[1..]);
      WalkStaysDown(plan, xs, path[1..]);
    }
  }

  lemma ReachesStaysDown(plan: Plan, xs: set<Stage>, s: Stage, t: Stage)
    requires DependencyClosed(plan, xs) && Reaches(plan, s, t) && s in xs
    ensures t in xs
  {
    var path :| Walk(plan, path) && path[0] == s && path[|path| - 1] == t;
    WalkStaysDown(plan, xs, path);
  }

  // ----- Downstream closure -------------------------------------------------------------

  /** The listed stages that reach t, in plan order: what a revision of t makes stale. */
  ghost function Downstream(plan: Plan, t: Stage): (r: seq<Stage>)
    ensures forall s :: s in r <==> Listed(plan, s) && Reaches(plan, s, t)
    ensures UniqueStages(plan) ==> Distinct(r)
  {
    DownstreamWithin(plan, plan, t)
  }

  ghost function DownstreamWithin(plan: Plan, listed: Plan, t: Stage): (r: seq<Stage>)
    ensures forall s :: s in r <==> Listed(listed, s) && Reaches(plan, s, t)
    ensures UniqueStages(listed) ==> Distinct(r)
  {
    if listed == [] then []
    else
      var last := listed[|listed| - 1].stage;
      var init := listed[..|listed| - 1];
      var rest := DownstreamWithin(plan, init, t);
      assert forall s :: Listed(listed, s) <==> Listed(init, s) || s == last by {
        forall s | Listed(listed, s) ensures Listed(init, s) || s == last {
          var i :| 0 <= i < |listed| && listed[i].stage == s;
          if i < |listed| - 1 { assert init[i].stage == s; }
        }
        forall s | Listed(init, s) ensures Listed(listed, s) {
          var i :| 0 <= i < |init| && init[i].stage == s;
          assert listed[i].stage == s;
        }
      }
      if Reaches(plan, last, t) then rest + [last] else rest
  }

  /** Removing everything downstream of t from a dependency-closed set leaves it
      dependency-closed: the step a targeted revision relies on. */
  lemma RevisionKeepsDependencyClosed(plan: Plan, done: set<Stage>, t: Stage)
    requires UniqueStages(plan) && DependencyClosed(plan, done)
    ensures DependencyClosed(plan, done - Elements(Downstream(plan, t)))
  {
    var gone := Elements(Downstream(plan, t));
    forall i, d | 0 <= i < |plan| && plan[i].stage in done - gone && d in plan[i].dependencies
      ensures d in done - gone
    {
      IndexIsUnique(plan, i);
      if d in gone {
        ReachesStep(plan, plan[i].stage, d, t);
      }
    }
  }

  lemma NothingElseReaches(plan: Plan, affected: set<Stage>, t: Stage)
    requires UpwardClosed(plan, affected) && t in affected
    ensures forall s :: Reaches(plan, s, t) ==> s in affected
  {
    forall s | Reaches(plan, s, t) ensures s in affected {
      var path :| Walk(plan, path) && path[0] == s && path[|path| - 1] == t;
      WalkStaysUp(plan, affected, path);
    }
  }

  /** SupervisorPlan.downstream: grows the affected set until a pass over the plan adds nothing. */
  method DownstreamOf(plan: Plan, stage: Stage) returns (r: seq<Stage>)
    requires UniqueStages(plan)
    ensures r == Downstream(plan, stage)
  {
    hide Reaches, Deps;
    var affected := {stage};
    var changed := true;
    ReachesSelf(plan, stage);
    while changed
      invariant stage in affected
      invariant forall s :: s in affected ==> Reaches(plan, s, stage)
      invariant !changed ==> UpwardClosed(plan, affected)
      decreases Stages(plan) - affected, changed
    {
      changed := false;
      ghost var before := affected;
      for i := 0 to |plan|
        invariant before <= affected
        invariant forall s :: s in affected ==> Reaches(plan, s, stage)
        invariant changed ==> Stages(plan) - affected < Stages(plan) - before
        invariant !changed ==> affected == before
        invariant !changed ==>
          forall j, d :: 0 <= j < i && d in plan[j].dependencies && d in affected ==> plan[j].stage in affected
      {
        if plan[i].stage !in affected && exists d :: d in plan[i].dependencies && d in affected {
          IndexIsUnique(plan, i);
          var d :| d in plan[i].dependencies && d in affected;
          ReachesStep(plan, plan[i].stage, d, stage);
          assert plan[i].stage in Stages(plan) - affected;
          affected := affected + {plan[i].stage};
          changed := true;
        }
      }
    }
    NothingElseReaches(plan, affected, stage);
    r := [];
    for i := 0 to |plan|
      invariant r == DownstreamWithin(plan, plan[..i], stage)
    {
      assert plan[..i + 1][..i] == plan[..i];
      if plan[i].stage in affected {
        r := r + [plan[i].stage];
      }
    }
    assert plan[..|plan|] == plan;
  }

  // ----- Acyclicity ---------------------------------------------------------------------

  /** Every stage ranks above everything it depends on. */
  ghost predicate IsRank(plan: Plan, rank: map<Stage, nat>) {
    forall s, d :: d in Deps(plan, s) ==> s in rank && d in rank && rank[d] < rank[s]
  }

  ghost predicate Acyclic(plan: Plan) {
    exists rank :: IsRank(plan, rank)
  }

  /** The constructor's dictionary from stage to policy, restricted to what the check reads. */
  function ByName(plan: Plan): (m: map<Stage, seq<Stage>>)
    ensures m.Keys == Stages(plan)
    ensures forall s :: s in m ==> m[s] == Deps(plan, s)
  {
    map s | s in Stages(plan) :: Deps(plan, s)
  }

  ghost predicate RanksGraph(graph: map<Stage, seq<Stage>>, rank: map<Stage, nat>) {
    && graph.Keys <= rank.Keys
    && forall s, d :: s in graph && d in graph[s] ==> d in graph && rank[d] < rank[s]
  }

  /** Every stage on the recursion stack ranks above the one about to be visited. */
  ghost predicate StackAbove(rank: map<Stage, nat>, visiting: set<Stage>, stage: Stage) {
    stage in rank && forall v :: v in visiting ==> v in rank && rank[stage] < rank[v]
  }

  /** Finishing order: every finished stage comes after everything it depends on. */
  ghost predicate FinishedInOrder(graph: map<Stage, seq<Stage>>, order: seq<Stage>) {
    forall i :: 0 <= i < |order| ==> order[i] in graph && AllIn(graph[order[i]], order[..i])
  }

  ghost predicate AllIn(xs: seq<Stage>, ys: seq<Stage>) {
    forall x :: x in xs ==> x in ys
  }

  lemma FinishStage(graph: map<Stage, seq<Stage>>, order: seq<Stage>, s: Stage)
    requires FinishedInOrder(graph, order) && s in graph && AllIn(graph[s], order)
    ensures FinishedInOrder(graph, order + [s])
    ensures Elements(order + [s]) == Elements(order) + {s}
  {
    var longer := order + [s];
    forall i | 0 <= i < |longer| ensures longer[i] in graph && AllIn(graph[longer[i]], longer[..i]) {
      assert longer[..i] == order[..i];
      assert order[..|order|] == order;
    }
  }

  /** The two sets the nested visit function shares; the ghost fields record the order in which
      stages were finished and, when the graph has one, a rank to argue with. */
  class AcyclicityCheck {
    const graph: map<Stage, seq<Stage>>
    var visiting: set<Stage>
    var visited: set<Stage>
    ghost var order: seq<Stage>
    ghost const hint: Option<map<Stage, nat>>

    constructor (graph: map<Stage, seq<Stage>>, ghost hint: Option<map<Stage, nat>>)
      ensures this.graph == graph && this.hint == hint
      ensures Valid() && visiting == {} && visited == {}
    {
      this.graph := graph;
      this.hint := hint;
      visiting, visited, order := {}, {}, [];
    }

    ghost predicate Valid()
      reads this
    {
      && visiting !! visited
      && Elements(order) == visited
      && FinishedInOrder(graph, order)
    }

    ghost predicate KnownEdges() {
      forall s, d :: s in graph && d in graph[s] ==> d in graph
    }

    /** What a rank, if the graph has one, says about the recursion stack. */
    ghost predicate Hinted(stage: Stage)
      reads this
    {
      hint.Some? ==> RanksGraph(graph, hint.value) && StackAbove(hint.value, visiting, stage)
    }

    /** visit: false where the source raises; every graph, cyclic or not, ends the recursion. */
    method Visit(stage: Stage) returns (ok: bool)
      requires KnownEdges() && stage in graph && Hinted(stage) && Valid()
      modifies this
      ensures ok ==> Valid() && visiting == old(visiting) && old(visited) <= visited && stage in visited
      ensures hint.Some? ==> ok
      decreases graph.Keys - visiting, 1
    {
      hide FinishedInOrder;
      if stage in visiting {
        return false;
      }
      if stage in visited {
        return true;
      }
      visiting := visiting + {stage};
      ok := VisitDependencies(stage, old(visiting));
      if ok {
        FinishStage(graph, order, stage);
        order := order + [stage];
        visiting := visiting - {stage};
        visited := visited + {stage};
      }
    }

    /** The loop of visit over a stage's dependencies. */
    method VisitDependencies(stage: Stage, ghost stack: set<Stage>) returns (ok: bool)
      requires KnownEdges() && stage in graph && stage !in stack && visiting == stack + {stage}
      requires hint.Some? ==> RanksGraph(graph, hint.value) && StackAbove(hint.value, stack, stage)
      requires Valid()
      modifies this
      ensures ok ==> Valid() && visiting == old(visiting) && old(visited) <= visited
      ensures ok ==> AllIn(graph[stage], order)
      ensures hint.Some? ==> ok
      decreases graph.Keys - stack, 0
    {
      hide FinishedInOrder;
      ok := true;
      for i := 0 to |graph[stage]|
        invariant Valid() && visiting == old(visiting) && old(visited) <= visited
        invariant forall j :: 0 <= j < i ==> graph[stage][j] in visited
      {
        assert graph[stage][i] in graph[stage];
        ok := Visit(graph[stage][i]);
        if !ok {
          return;
        }
      }
    }
  }

  /** _validate_acyclic: accepts exactly the graphs that admit a rank function. */
  method ValidateAcyclic(plan: Plan) returns (ok: bool)
    requires UniqueStages(plan) && KnownDependencies(plan)
    ensures ok <==> Acyclic(plan)
  {
    hide FinishedInOrder, Deps;
    var graph := ByName(plan);
    GraphIsClosed(plan);
    ghost var hint := RankForGraph(plan);
    var check := new AcyclicityCheck(graph, hint);
    for i := 0 to |plan|
      invariant check.Valid() && check.visiting == {}
      invariant Stages(plan[..i]) <= check.visited
    {
      StagesGrow(plan, i);
      var fine := check.Visit(plan[i].stage);
      if !fine {
        return false;
      }
    }
    assert plan[..|plan|] == plan;
    RankFromOrder(plan, check.order);
    return true;
  }

  lemma StagesGrow(plan: Plan, i: nat)
    requires i < |plan|
    ensures Stages(plan[..i + 1]) == Stages(plan[..i]) + {plan[i].stage}
    ensures plan[i].stage in Stages(plan)
  {
    forall s ensures s in Stages(plan[..i + 1]) <==> s in Stages(plan[..i]) + {plan[i].stage} {
      if Listed(plan[..i + 1], s) {
        var j :| 0 <= j < i + 1 && plan[..i + 1][j].stage == s;
        if j < i { assert plan[..i][j].stage == s; }
      }
      if Listed(plan[..i], s) {
        var j :| 0 <= j < i && plan[..i][j].stage == s;
        assert plan[..i + 1][j].stage == s;
      }
      assert plan[..i + 1][i].stage == plan[i].stage;
    }
    assert Listed(plan, plan[i].stage);
  }

  lemma KnownTargets(plan: Plan, s: Stage, d: Stage)
    requires KnownDependencies(plan) && d in Deps(plan, s)
    ensures Listed(plan, s) && Listed(plan, d)
  {
    var i := IndexOf(plan, s);
    assert 0 <= i < |plan| && d in plan[i].dependencies;
  }

  lemma GraphIsClosed(plan: Plan)
    requires KnownDependencies(plan)
    ensures forall s, d :: s in ByName(plan) && d in ByName(plan)[s] ==> d in ByName(plan)
  {
    forall s, d | s in ByName(plan) && d in ByName(plan)[s] ensures d in ByName(plan) {
      KnownTargets(plan, s, d);
    }
  }

  lemma RankForGraph(plan: Plan) returns (hint: Option<map<Stage, nat>>)
    requires KnownDependencies(plan)
    ensures hint.Some? <==> Acyclic(plan)
    ensures hint.Some? ==> RanksGraph(ByName(plan), hint.value)
  {
    hide Deps;
    GraphIsClosed(plan);
    hint := None;
    if Acyclic(plan) {
      var rank :| IsRank(plan, rank);
      hint := Some(map s | s in Stages(plan) :: if s in rank then rank[s] else 0);
    }
  }

  /** The position at which a stage was finished. */
  ghost function FinishTime(order: seq<Stage>, s: Stage): (i: nat)
    requires s in order
    ensures i < |order| && order[i] == s && s !in order[..i]
  {
    if order[0] == s then 0 else 1 + FinishTime(order[1..], s)
  }

  lemma RankFromOrder(plan: Plan, order: seq<Stage>)
    requires KnownDependencies(plan)
    requires FinishedInOrder(ByName(plan), order)
    requires Stages(plan) <= Elements(order)
    ensures Acyclic(plan)
  {
    var rank: map<Stage, nat> := map s | s in Elements(order) :: FinishTime(order, s);
    forall s, d | d in Deps(plan, s)
      ensures s in rank && d in rank && rank[d] < rank[s]
    {
      KnownTargets(plan, s, d);
      var i := FinishTime(order, s);
      assert d in ByName(plan)[order[i]];
      var j :| 0 <= j < i && order[j] == d;
      var t := FinishTime(order, d);
      assert forall k :: 0 <= k < t ==> order[..t][k] == order[k];
    }
    assert IsRank(plan, rank);
  }

  /** A rank falls along every walk, so no walk returns to its start. */
  lemma {:induction false} RankFallsAlongWalks(plan: Plan, rank: map<Stage, nat>, path: seq<Stage>)
    requires IsRank(plan, rank) && Walk(plan, path) && |path| > 1
    ensures path[|path| - 1] in rank && path[0] in rank
    ensures rank[path[|path| - 1]] < rank[path[0]]
    decreases |path|
  {
    assert path[0 + 1] in Deps(plan, path[0]);
    if |path| > 2 {
      assert Walk(plan, path[1..]);
      RankFallsAlongWalks(plan, rank, path[1..]);
    }
  }

  /** In an acyclic plan two stages cannot each depend on the other. */
  lemma AcyclicIsAntisymmetric(plan: Plan, s: Stage, t: Stage)
    requires Acyclic(plan)
    requires Reaches(plan, s, t) && Reaches(plan, t, s)
    ensures s == t
  {
    if s != t {
      var rank :| IsRank(plan, rank);
      var there :| Walk(plan, there) && there[0] == s && there[|there| - 1] == t;
      var back :| Walk(plan, back) && back[0] == t && back[|back| - 1] == s;
      RankFallsAlongWalks(plan, rank, there);
      RankFallsAlongWalks(plan, rank, back);
    }
  }

  // ----- Construction -------------------------------------------------------------------

  datatype PlanError = NoStages | RepeatedStage | UnknownDependency | CyclicDependencies

  /** What SupervisorPlan's constructor accepts, given policies that constructed themselves. */
  ghost predicate Accepted(plan: Plan) {
    && plan != []
    && UniqueStages(plan)
    && KnownDependencies(plan)
    && Acyclic(plan)
    && forall i :: 0 <= i < |plan| ==> WellFormedPolicy(plan[i])
  }

  /** A listing has as many stages as policies exactly when no stage is listed twice. */
  lemma StagesCardinality(plan: Plan)
    ensures |Stages(plan)| == |plan| <==> UniqueStages(plan)
  {
    var names := seq(|plan|, i requires 0 <= i < |plan| => plan[i].stage);
    DistinctCardinality(names);
    assert forall i :: 0 <= i < |plan| ==> names[i] == plan[i].stage;
    forall s ensures s in Stages(plan) <==> s in Elements(names) {
      if Listed(plan, s) {
        var i :| 0 <= i < |plan| && plan[i].stage == s;
        assert names[i] == s;
      }
    }
    assert Stages(plan) == Elements(names);
  }

  /** SupervisorPlan.__init__: the checks in their order, each error under its exact condition. */
  method BuildPlan(stages: seq<Policy>) returns (r: Result<Plan, PlanError>)
    requires forall i :: 0 <= i < |stages| ==> WellFormedPolicy(stages[i])
    ensures r.Success? <==> Accepted(stages)
    ensures r.Success? ==> r.value == stages
    ensures r == Failure(NoStages) <==> stages == []
    ensures r == Failure(RepeatedStage) <==> exists i, j :: 0 <= i < j < |stages| && stages[i].stage == stages[j].stage
    ensures r == Failure(UnknownDependency) <==>
      stages != [] && UniqueStages(stages)
      && exists i, d :: 0 <= i < |stages| && d in stages[i].dependencies && !Listed(stages, d)
    ensures r == Failure(CyclicDependencies) <==>
      stages != [] && UniqueStages(stages) && KnownDependencies(stages) && !Acyclic(stages)
  {
    if stages == [] {
      return Failure(NoStages);
    }
    var names := Stages(stages);
    StagesCardinality(stages);
    if |names| != |stages| {
      return Failure(RepeatedStage);
    }
    for i := 0 to |stages|
      invariant forall k, d :: 0 <= k < i && d in stages[k].dependencies ==> Listed(stages, d)
    {
      var missing := Elements(stages[i].dependencies) - names;
      if missing != {} {
        var d :| d in missing;
        assert d in stages[i].dependencies && !Listed(stages, d);
        return Failure(UnknownDependency);
      }
      assert forall d :: d in stages[i].dependencies ==> d !in missing;
    }
    var acyclic := ValidateAcyclic(stages);
    r := if acyclic then Success(stages) else Failure(CyclicDependencies);
  }
}
