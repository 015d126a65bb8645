/** No stale output is ever reused: what every stage produced was computed from the newest outputs
    of everything it depends on, in every run with revisions, retries, crashes and lost races. */
module Freshness {
  import opened Vocabulary
  import opened StageGraph
  import opened Workflows
  import opened Supervisor
  import opened VersionLog

  // ----- Plans and writers the theorem is about -----------------------------------------

  /** A section a stage alone writes; the revision history is shared by all reviewers. */
  predicate Owns(policy: Policy, x: Section) {
    x in policy.outputs && x != RevisionHistorySection
  }

  predicate Reviewer(policy: Policy) {
    RevisionHistorySection in policy.outputs
  }

  /** Listed in topological order. */
  predicate Topological(plan: Plan) {
    forall i, d :: 0 <= i < |plan| && d in plan[i].dependencies ==>
      exists j :: 0 <= j < i && plan[j].stage == d
  }

  predicate DisjointOutputs(plan: Plan) {
    forall i, j, x :: 0 <= i < |plan| && 0 <= j < |plan| && Owns(plan[i], x) && Owns(plan[j], x) ==> i == j
  }

  /** Every stage listed after one that may request a revision depends on it. */
  ghost predicate ReviewersGuardTheRest(plan: Plan) {
    forall i, j :: 0 <= i < j < |plan| && Reviewer(plan[i]) ==> Reaches(plan, plan[j].stage, plan[i].stage)
  }

  ghost predicate RevisionSafe(plan: Plan) {
    Accepted(plan) && Topological(plan) && DisjointOutputs(plan) && ReviewersGuardTheRest(plan)
  }

  /** What the revision director promises about a requested target: an ancestor of the stage that
      asks, which itself requests no revisions. */
  ghost predicate GoodTarget(plan: Plan, requester: Stage, t: Stage) {
    Listed(plan, t) && !Reviewer(PolicyOf(plan, t)) && Reaches(plan, requester, t)
  }

  /** A reviewer hands back the history it read, with at most one pending request appended. */
  ghost predicate Appends(plan: Plan, requester: Stage, before: seq<Revision>, after: seq<Revision>) {
    || after == before
    || (&& |after| == |before| + 1
        && after[..|before|] == before
        && after[|before|].status == Pending
        && after[|before|].target.Some?
        && GoodTarget(plan, requester, after[|before|].target.value))
  }

  /** Handlers append to the history they read; API writes leave stage-owned sections alone, but may
      create the semantic contract. */
  ghost predicate Disciplined(plan: Plan, log: Log, e: Entry) {
    match e.note
    case Produced(run, k) =>
      e.changed == Some(RevisionHistorySection) ==>
        && 1 <= run.base <= |log|
        && Appends(plan, run.stage, HistoryOf(log[run.base - 1].state), HistoryOf(e.state))
    case External =>
      e.changed.Some? && e.changed.value != SemanticContractSection ==> Unowned(plan, e.changed.value)
    case _ => true
  }

  predicate Unowned(plan: Plan, x: Section) {
    x != RevisionHistorySection && forall i :: 0 <= i < |plan| ==> !Owns(plan[i], x)
  }

  ghost predicate DisciplinedLog(plan: Plan, log: Log) {
    |log| > 1 ==> DisciplinedLog(plan, log[..|log| - 1]) && Disciplined(plan, log[..|log| - 1], Last(log))
  }

  lemma {:induction false} DisciplinedPrefix(plan: Plan, log: Log, n: nat)
    requires DisciplinedLog(plan, log) && 1 <= n <= |log|
    ensures DisciplinedLog(plan, log[..n])
    decreases |log|
  {
    hide Disciplined;
    if n == |log| {
      assert log[..n] == log;
    } else {
      var init := log[..|log| - 1];
      DisciplinedPrefix(plan, init, n);
      assert init[..n] == log[..n];
    }
  }

  // ----- Stamps -------------------------------------------------------------------------

  /** A version for each section; a section without one was never written. */
  type Stamps = map<Section, nat>

  function At(m: Stamps, x: Section): nat {
    if x in m then m[x] else 0
  }

  /** The version that last replaced each section, 0 if none did. */
  ghost function WrittenAt(log: Log): Stamps {
    if log == [] then map[]
    else if Last(log).changed.None? then WrittenAt(log[..|log| - 1])
    else WrittenAt(log[..|log| - 1])[Last(log).changed.value := |log|]
  }

  /** The version the handler behind that replacement had read. */
  ghost function ReadAt(log: Log): Stamps {
    if log == [] then map[]
    else if Last(log).changed.None? then ReadAt(log[..|log| - 1])
    else ReadAt(log[..|log| - 1])[Last(log).changed.value := BaseOf(Last(log).note)]
  }

  function BaseOf(note: Note): nat {
    match note
    case Produced(run, _) => run.base
    case _ => 0
  }

  lemma StampsExtend(log: Log, e: Entry)
    requires e.changed.Some?
    ensures WrittenAt(log + [e]) == WrittenAt(log)[e.changed.value := |log| + 1]
    ensures ReadAt(log + [e]) == ReadAt(log)[e.changed.value := BaseOf(e.note)]
  {
    assert (log + [e])[..|log|] == log;
  }

  // ----- The invariant on stages --------------------------------------------------------

  /** No handler computed this section's value: it is the contract, and a client created it. */
  predicate Supplied(read: Stamps, x: Section) {
    x == SemanticContractSection && At(read, x) == 0
  }

  /** Everything stage i produced was computed from the newest outputs of all it depends on. */
  ghost predicate FreshStage(plan: Plan, written: Stamps, read: Stamps, i: nat)
    requires i < |plan|
  {
    forall x, k, y :: Owns(plan[i], x) && At(written, x) > 0 && !Supplied(read, x)
      && 0 <= k < |plan| && k != i && Reaches(plan, plan[i].stage, plan[k].stage) && Owns(plan[k], y)
      ==> At(written, y) <= At(read, x)
  }

  /** Its handler has written nothing. */
  predicate Untouched(policy: Policy, written: Stamps, read: Stamps) {
    forall x :: Owns(policy, x) ==> At(written, x) == 0 || Supplied(read, x)
  }

  predicate Touched(policy: Policy, written: Stamps) {
    forall x :: Owns(policy, x) ==> At(written, x) > 0
  }

  /** Done stages are fresh and complete. Of the others, only the first in the listing can have
      outputs that are not marked stale, and those are fresh too. */
  ghost predicate StagesInv(plan: Plan, done: set<Stage>, stale: set<Stage>, written: Stamps, read: Stamps) {
    && DependencyClosed(plan, done)
    && done !! stale
    && (forall i :: 0 <= i < |plan| && plan[i].stage in done ==> Touched(plan[i], written))
    && (forall i :: 0 <= i < |plan| && plan[i].stage !in stale ==> FreshStage(plan, written, read, i))
    && (forall i, j ::
          0 <= j < i < |plan| && plan[j].stage !in done && plan[i].stage !in done && plan[i].stage !in stale ==>
            Untouched(plan[i], written, read))
  }

  predicate FirstUndone(plan: Plan, done: set<Stage>, i: nat) {
    && i < |plan|
    && plan[i].stage !in done
    && forall j :: 0 <= j < i ==> plan[j].stage in done
  }

  lemma {:induction false} WalkGoesBack(plan: Plan, path: seq<Stage>, i: nat) returns (j: nat)
    requires UniqueStages(plan) && Topological(plan) && Walk(plan, path)
    requires i < |plan| && plan[i].stage == path[0]
    ensures j <= i && plan[j].stage == path[|path| - 1]
    decreases |path|
  {
    if |path| == 1 {
      j := i;
    } else {
      IndexIsUnique(plan, i);
      assert path[0 + 1] in Deps(plan, path[0]);
      var k :| 0 <= k < i && plan[k].stage == path[1];
      assert Walk(plan, path[1..]);
      j := WalkGoesBack(plan, path[1..], k);
    }
  }

  /** In a topological listing a stage depends only on stages listed before it. */
  lemma ReachesGoesBack(plan: Plan, i: nat, k: nat)
    requires UniqueStages(plan) && Topological(plan) && i < |plan| && k < |plan|
    requires Reaches(plan, plan[i].stage, plan[k].stage)
    ensures k <= i
  {
    var path :| Walk(plan, path) && path[0] == plan[i].stage && path[|path| - 1] == plan[k].stage;
    var j := WalkGoesBack(plan, path, i);
    IndexIsUnique(plan, j);
    IndexIsUnique(plan, k);
  }

  /** The first undone stage of a topological listing has all its dependencies done. */
  lemma FirstUndoneIsReady(plan: Plan, done: set<Stage>, i: nat)
    requires Topological(plan) && FirstUndone(plan, done, i)
    ensures forall d :: d in plan[i].dependencies ==> d in done
  {
  }

  /** A skip or a completion of the first undone stage. */
  lemma FinishKeepsInv(plan: Plan, done: set<Stage>, stale: set<Stage>, written: Stamps, read: Stamps, i: nat)
    requires RevisionSafe(plan) && StagesInv(plan, done, stale, written, read)
    requires FirstUndone(plan, done, i) && Touched(plan[i], written) && FreshStage(plan, written, read, i)
    ensures StagesInv(plan, done + {plan[i].stage}, stale - {plan[i].stage}, written, read)
  {
    hide FreshStage, Touched, Untouched, Acyclic, KnownDependencies, ReviewersGuardTheRest, DisjointOutputs;
    FirstUndoneIsReady(plan, done, i);
    forall k | 0 <= k < |plan| && plan[k].stage == plan[i].stage ensures k == i {
      IndexIsUnique(plan, k);
      IndexIsUnique(plan, i);
    }
  }

  /** A revision of t, when every undone stage depends on t: exactly t's dependents become undone
      and all of them are stale. */
  lemma RevisionKeepsInv(plan: Plan, done: set<Stage>, stale: set<Stage>, written: Stamps, read: Stamps, t: Stage)
    requires RevisionSafe(plan) && StagesInv(plan, done, stale, written, read)
    requires forall i :: 0 <= i < |plan| && plan[i].stage !in done ==> Reaches(plan, plan[i].stage, t)
    ensures
      var affected := Elements(Downstream(plan, t));
      && StagesInv(plan, done - affected, affected, written, read)
      && forall i :: 0 <= i < |plan| ==>
           (plan[i].stage !in done - affected <==> Reaches(plan, plan[i].stage, t))
           && (plan[i].stage in affected <==> Reaches(plan, plan[i].stage, t))
  {
    hide FreshStage, Touched, Untouched, Acyclic, KnownDependencies, ReviewersGuardTheRest, DisjointOutputs, Reaches;
    var affected := Elements(Downstream(plan, t));
    RevisionKeepsDependencyClosed(plan, done, t);
    forall i | 0 <= i < |plan|
      ensures plan[i].stage in affected <==> Reaches(plan, plan[i].stage, t)
      ensures plan[i].stage !in done - affected <==> Reaches(plan, plan[i].stage, t)
    {
      assert Listed(plan, plan[i].stage);
      assert plan[i].stage in affected <==> plan[i].stage in Downstream(plan, t);
    }
  }

  /** Everything stage i depends on was last written no later than version base. */
  ghost predicate SettledBefore(plan: Plan, written: Stamps, i: nat, base: nat)
    requires i < |plan|
  {
    forall k, y :: 0 <= k < |plan| && k != i && Owns(plan[k], y) && Reaches(plan, plan[i].stage, plan[k].stage)
      ==> At(written, y) <= base
  }

  /** A stage that rewrites a section of its own, having read version base, stays fresh. */
  lemma OwnOutputIsFresh(plan: Plan, written: Stamps, read: Stamps, i: nat, x: Section, base: nat, version: nat)
    requires DisjointOutputs(plan) && i < |plan| && Owns(plan[i], x)
    requires SettledBefore(plan, written, i, base) && FreshStage(plan, written, read, i)
    ensures FreshStage(plan, written[x := version], read[x := base], i)
  {
    hide Reaches;
    var w2, r2 := written[x := version], read[x := base];
    forall z, k, y | Owns(plan[i], z) && At(w2, z) > 0 && !Supplied(r2, z)
      && 0 <= k < |plan| && k != i && Reaches(plan, plan[i].stage, plan[k].stage) && Owns(plan[k], y)
      ensures At(w2, y) <= At(r2, z)
    {
      assert At(w2, y) == if y == x then version else At(written, y);
      assert z != x ==> At(w2, z) == At(written, z) && At(r2, z) == At(read, z);
    }
  }

  /** Another stage stays fresh: it either does not depend on the writer or has written nothing. */
  lemma OtherStageStaysFresh(plan: Plan, written: Stamps, read: Stamps, i: nat, j: nat, x: Section, base: nat,
                             version: nat)
    requires DisjointOutputs(plan) && i < |plan| && j < |plan| && i != j && Owns(plan[i], x)
    requires FreshStage(plan, written, read, j)
    requires Reaches(plan, plan[j].stage, plan[i].stage) ==> Untouched(plan[j], written, read)
    ensures FreshStage(plan, written[x := version], read[x := base], j)
  {
    hide Reaches;
    var w2, r2 := written[x := version], read[x := base];
    forall z, k, y | Owns(plan[j], z) && At(w2, z) > 0 && !Supplied(r2, z)
      && 0 <= k < |plan| && k != j && Reaches(plan, plan[j].stage, plan[k].stage) && Owns(plan[k], y)
      ensures At(w2, y) <= At(r2, z)
    {
      assert At(w2, y) == if y == x then version else At(written, y);
      assert z != x ==> At(w2, z) == At(written, z) && At(r2, z) == At(read, z);
    }
  }

  /** The first undone stage writes one of its sections, computed from version base, after
      everything it depends on was last written no later than base. */
  lemma OutputKeepsInv(plan: Plan, done: set<Stage>, stale: set<Stage>, written: Stamps, read: Stamps,
                       i: nat, x: Section, base: nat, version: nat)
    requires RevisionSafe(plan) && StagesInv(plan, done, stale, written, read)
    requires FirstUndone(plan, done, i) && Owns(plan[i], x) && version > 0
    requires SettledBefore(plan, written, i, base)
    ensures StagesInv(plan, done, stale, written[x := version], read[x := base])
  {
    hide Acyclic, KnownDependencies, ReviewersGuardTheRest, Reaches, Topological, FreshStage, SettledBefore;
    hide DisjointOutputs;
    var w2, r2 := written[x := version], read[x := base];
    forall j | 0 <= j < |plan| && plan[j].stage !in stale ensures FreshStage(plan, w2, r2, j) {
      if j == i {
        OwnOutputIsFresh(plan, written, read, i, x, base, version);
      } else {
        if Reaches(plan, plan[j].stage, plan[i].stage) {
          DependentIsUndone(plan, done, i, j);
          ReachesGoesBack(plan, j, i);
        }
        OtherStageStaysFresh(plan, written, read, i, j, x, base, version);
      }
    }
    forall k, j | 0 <= j < k < |plan| && plan[j].stage !in done && plan[k].stage !in done && plan[k].stage !in stale
      ensures Untouched(plan[k], w2, r2)
    {
      StayUntouched(plan, written, read, i, k, x, base, version);
    }
  }

  lemma StayUntouched(plan: Plan, written: Stamps, read: Stamps, i: nat, k: nat, x: Section, base: nat, version: nat)
    requires DisjointOutputs(plan) && i < |plan| && k < |plan| && i != k && Owns(plan[i], x)
    requires Untouched(plan[k], written, read)
    ensures Untouched(plan[k], written[x := version], read[x := base])
  {
  }

  lemma DependentIsUndone(plan: Plan, done: set<Stage>, i: nat, j: nat)
    requires DependencyClosed(plan, done) && i < |plan| && j < |plan|
    requires plan[i].stage !in done && Reaches(plan, plan[j].stage, plan[i].stage)
    ensures plan[j].stage !in done
  {
    if plan[j].stage in done {
      ReachesStaysDown(plan, done, plan[j].stage, plan[i].stage);
    }
  }

  // ----- The invariant on logs ----------------------------------------------------------

  ghost predicate UndoneReach(plan: Plan, done: set<Stage>, t: Stage) {
    forall i :: 0 <= i < |plan| && plan[i].stage !in done ==> Reaches(plan, plan[i].stage, t)
  }

  /** A pending request names an earlier stage that everything undone depends on. */
  ghost predicate PendingInv(plan: Plan, w: Workflow) {
    && PendingTarget(w).Success?
    && (PendingTarget(w).value.Some? ==>
          var t := PendingTarget(w).value.value;
          && Listed(plan, t) && !Reviewer(PolicyOf(plan, t))
          && UndoneReach(plan, DoneStages(ProgressOf(w)), t))
  }

  /** What is present was written, and a contract that was written is present. */
  ghost predicate PresentWasWritten(w: Workflow, written: Stamps) {
    && (forall x: Section :: Present(w[x]) ==> At(written, x) > 0)
    && (At(written, SemanticContractSection) > 0 ==> Present(w[SemanticContractSection]))
  }

  /** The running stage is the first undone one; what changed since it read the state is its own. */
  ghost predicate OpenInv(plan: Plan, log: Log, written: Stamps, read: Stamps)
    requires log != []
  {
    match OpenOf(plan, log)
    case Closed => true
    case Open(_, run, n) =>
      && Listed(plan, run.stage)
      && FirstUndone(plan, DoneStages(ProgressOf(Head(log))), IndexOf(plan, run.stage))
      && 1 <= run.base <= |log|
      && n <= |OutputsOf(plan, run.stage)|
      && WrittenSince(OutputsOf(plan, run.stage)[..n], run.base, written, read)
      && RequestInv(plan, log, run, n)
  }

  predicate WrittenSince(outputs: seq<Section>, base: nat, written: Stamps, read: Stamps) {
    && (forall x :: x in outputs && x != RevisionHistorySection ==> At(written, x) > 0 && At(read, x) == base)
    && (forall y :: At(written, y) > base ==> y in outputs || y == RevisionHistorySection)
  }

  /** Until a reviewer writes the history, it is the one its execution read, with nothing pending. */
  ghost predicate RequestInv(plan: Plan, log: Log, run: Run, n: nat)
    requires log != [] && Listed(plan, run.stage) && 1 <= run.base <= |log| && n <= |OutputsOf(plan, run.stage)|
  {
    && (Reviewer(PolicyOf(plan, run.stage)) ==> run.action != Revise)
    && (run.action == Revise ==> PendingTarget(Head(log)) in {Success(None), Success(Some(run.stage))})
    && (RevisionHistorySection !in OutputsOf(plan, run.stage)[..n] && run.action != Revise ==>
          && HistoryOf(Head(log)) == HistoryOf(log[run.base - 1].state)
          && PendingTarget(Head(log)) == Success(None))
  }

  ghost predicate HeadInv(plan: Plan, w: Workflow, written: Stamps, read: Stamps) {
    var p := ProgressOf(w);
    && p.requestedSkips == []
    && StagesInv(plan, DoneStages(p), Elements(p.invalidated), written, read)
    && PendingInv(plan, w)
    && PresentWasWritten(w, written)
  }

  ghost predicate RunInv(plan: Plan, log: Log) {
    && log != []
    && HeadInv(plan, Head(log), WrittenAt(log), ReadAt(log))
    && OpenInv(plan, log, WrittenAt(log), ReadAt(log))
  }

  // ----- Decisions ----------------------------------------------------------------------

  /** In a topological listing the loop always acts on the first stage that is not done. */
  lemma ScanActsOnFirst(plan: Plan, w: Workflow, available: Option<set<Stage>>) returns (j: nat)
    requires Topological(plan) && Scan(plan, 0, w, available).Some?
    ensures FirstUndone(plan, DoneStages(ProgressOf(w)), j)
    ensures Scan(plan, 0, w, available) == Consider(plan[j], w, available)
  {
    hide Consider, DoneStages;
    j :| 0 <= j < |plan| && Scan(plan, 0, w, available) == Consider(plan[j], w, available)
         && forall k :: 0 <= k < j ==> Consider(plan[k], w, available) == None;
    ConsiderOutcome(plan[j], w, available);
    for k := 0 to j
      invariant forall i :: 0 <= i < k ==> plan[i].stage in DoneStages(ProgressOf(w))
    {
      ConsiderOutcome(plan[k], w, available);
    }
  }

  /** Rewriting a section no stage owns changes nothing about the stages. */
  lemma UnownedKeepsInv(plan: Plan, done: set<Stage>, stale: set<Stage>, written: Stamps, read: Stamps, x: Section,
                        v: nat, b: nat)
    requires StagesInv(plan, done, stale, written, read)
    requires forall i :: 0 <= i < |plan| ==> !Owns(plan[i], x)
    ensures StagesInv(plan, done, stale, written[x := v], read[x := b])
  {
    hide Reaches, Owns, DependencyClosed;
    var w2, r2 := written[x := v], read[x := b];
    forall i | 0 <= i < |plan| ensures Touched(plan[i], written) ==> Touched(plan[i], w2)
      ensures Untouched(plan[i], written, read) ==> Untouched(plan[i], w2, r2)
      ensures FreshStage(plan, written, read, i) ==> FreshStage(plan, w2, r2, i)
    {
      SameOwnStamps(plan, written, read, w2, r2, i);
    }
  }

  lemma SameOwnStamps(plan: Plan, written: Stamps, read: Stamps, w2: Stamps, r2: Stamps, i: nat)
    requires i < |plan|
    requires forall k, y :: 0 <= k < |plan| && Owns(plan[k], y) ==>
        At(w2, y) == At(written, y) && At(r2, y) == At(read, y)
    ensures Touched(plan[i], written) ==> Touched(plan[i], w2)
    ensures Untouched(plan[i], written, read) ==> Untouched(plan[i], w2, r2)
    ensures FreshStage(plan, written, read, i) ==> FreshStage(plan, w2, r2, i)
  {
    hide Reaches, Owns, At;
    if FreshStage(plan, written, read, i) {
      forall x, k, y | Owns(plan[i], x) && At(w2, x) > 0 && !Supplied(r2, x)
        && 0 <= k < |plan| && k != i && Reaches(plan, plan[i].stage, plan[k].stage) && Owns(plan[k], y)
        ensures At(w2, y) <= At(r2, x)
      {
        assert At(w2, y) == At(written, y) && At(w2, x) == At(written, x) && At(r2, x) == At(read, x);
      }
    }
  }

  lemma PutProgress(w: Workflow, p: Progress, written: Stamps, v: nat)
    requires PresentWasWritten(w, written) && v > 0
    ensures
      var w2 := Put(w, SupervisorSection, SupervisorProgress(p));
      && ProgressOf(w2) == p
      && HistoryOf(w2) == HistoryOf(w)
      && PendingTarget(w2) == PendingTarget(w)
      && PresentWasWritten(w2, written[SupervisorSection := v])
  {
  }

  lemma SupervisorIsUnowned(plan: Plan)
    requires Accepted(plan)
    ensures forall i :: 0 <= i < |plan| ==> !Owns(plan[i], SupervisorSection)
  {
    hide Acyclic, KnownDependencies;
  }

  lemma RecordedSets(plan: Plan, p: Progress, d: Decision)
    requires d.next.Some?
    ensures
      var p2 := Recorded(plan, p, d);
      && p2.requestedSkips == p.requestedSkips
      && (d.action == Skip ==>
            DoneStages(p2) == DoneStages(p) + {d.next.value} && Elements(p2.invalidated) == Elements(p.invalidated))
      && (d.action in {Continue, Retry, Stop} ==>
            DoneStages(p2) == DoneStages(p) && Elements(p2.invalidated) == Elements(p.invalidated))
      && (d.action == Revise ==>
            var affected := Elements(Downstream(plan, d.next.value));
            DoneStages(p2) == DoneStages(p) - affected && Elements(p2.invalidated) == affected)
  {
    hide Reaches;
  }

  /** The routed actions: they act on the first undone stage, and skip it only for outputs that are
      present and not stale. */
  lemma RoutedStage(plan: Plan, w: Workflow, available: Option<set<Stage>>, d: Decision) returns (j: nat)
    requires UniqueStages(plan) && Topological(plan)
    requires Decide(plan, w, available) == Success(d) && d.action in {Continue, Retry, Skip}
    ensures FirstUndone(plan, DoneStages(ProgressOf(w)), j)
    ensures d.next == Some(plan[j].stage) && IndexOf(plan, plan[j].stage) == j
    ensures PendingTarget(w) == Success(None)
    ensures d.action == Skip && ProgressOf(w).requestedSkips == [] ==>
      plan[j].stage !in ProgressOf(w).invalidated && OutputsPresent(w, plan[j].outputs)
    ensures d.action in {Continue, Retry} ==>
      plan[j].stage in ProgressOf(w).invalidated || !OutputsPresent(w, plan[j].outputs)
  {
    hide Decide, Scan, Consider, DoneStages;
    ActionOrigin(plan, w, available);
    j := ScanActsOnFirst(plan, w, available);
    ConsiderActions(plan[j], w, available);
    IndexIsUnique(plan, j);
  }

  lemma SkipKeepsHead(plan: Plan, w: Workflow, available: Option<set<Stage>>, d: Decision, written: Stamps,
                      read: Stamps, v: nat)
    requires RevisionSafe(plan) && HeadInv(plan, w, written, read) && v > 0
    requires Decide(plan, w, available) == Success(d) && d.action == Skip
    ensures
      var p2 := Recorded(plan, ProgressOf(w), d);
      HeadInv(plan, Put(w, SupervisorSection, SupervisorProgress(p2)), written[SupervisorSection := v],
          read[SupervisorSection := 0])
  {
    hide Decide, Recorded, Reaches, Acyclic, KnownDependencies, ReviewersGuardTheRest, StagesInv, Topological;
    hide PresentWasWritten, PendingTarget;
    var p := ProgressOf(w);
    var p2 := Recorded(plan, p, d);
    var j := RoutedStage(plan, w, available, d);
    RecordedSets(plan, p, d);
    PresentIsTouched(plan, w, written, j);
    NotStaleIsFresh(plan, p, written, read, j);
    FinishKeepsInv(plan, DoneStages(p), Elements(p.invalidated), written, read, j);
    assert Elements(p.invalidated) - {plan[j].stage} == Elements(p.invalidated);
    SupervisorIsUnowned(plan);
    UnownedKeepsInv(plan, DoneStages(p2), Elements(p2.invalidated), written, read, SupervisorSection, v, 0);
    PutProgress(w, p2, written, v);
  }

  lemma PresentIsTouched(plan: Plan, w: Workflow, written: Stamps, j: nat)
    requires j < |plan| && OutputsPresent(w, plan[j].outputs) && PresentWasWritten(w, written)
    ensures Touched(plan[j], written)
  {
  }

  lemma NotStaleIsFresh(plan: Plan, p: Progress, written: Stamps, read: Stamps, j: nat)
    requires j < |plan| && StagesInv(plan, DoneStages(p), Elements(p.invalidated), written, read)
    requires plan[j].stage !in p.invalidated
    ensures FreshStage(plan, written, read, j)
  {
    hide FreshStage, Touched, Untouched, DependencyClosed;
  }

  lemma QuietDecisionKeepsHead(plan: Plan, w: Workflow, d: Decision, written: Stamps, read: Stamps, v: nat)
    requires RevisionSafe(plan) && HeadInv(plan, w, written, read) && v > 0
    requires d.action in {Continue, Retry, Stop}
    ensures
      var p2 := Recorded(plan, ProgressOf(w), d);
      && HeadInv(plan, Put(w, SupervisorSection, SupervisorProgress(p2)), written[SupervisorSection := v],
           read[SupervisorSection := 0])
      && DoneStages(p2) == DoneStages(ProgressOf(w))
  {
    hide Reaches, Acyclic, KnownDependencies, ReviewersGuardTheRest, StagesInv, Topological, PresentWasWritten;
    hide PendingTarget;
    var p := ProgressOf(w);
    var p2 := Recorded(plan, p, d);
    if d.next.Some? {
      RecordedSets(plan, p, d);
    }
    SupervisorIsUnowned(plan);
    UnownedKeepsInv(plan, DoneStages(p), Elements(p.invalidated), written, read, SupervisorSection, v, 0);
    PutProgress(w, p2, written, v);
  }

  lemma ReviseKeepsHead(plan: Plan, w: Workflow, d: Decision, written: Stamps, read: Stamps, v: nat)
    requires RevisionSafe(plan) && HeadInv(plan, w, written, read) && v > 0
    requires d.action == Revise && d.next.Some? && PendingTarget(w) == Success(d.next)
    ensures
      var p2 := Recorded(plan, ProgressOf(w), d);
      && HeadInv(plan, Put(w, SupervisorSection, SupervisorProgress(p2)), written[SupervisorSection := v],
           read[SupervisorSection := 0])
      && Listed(plan, d.next.value) && !Reviewer(PolicyOf(plan, d.next.value))
      && FirstUndone(plan, DoneStages(p2), IndexOf(plan, d.next.value))
  {
    hide Recorded, Reaches, Acyclic, KnownDependencies, ReviewersGuardTheRest, StagesInv, Topological;
    hide PresentWasWritten, PendingTarget, DoneStages;
    var p := ProgressOf(w);
    var p2 := Recorded(plan, p, d);
    var t := d.next.value;
    RecordedSets(plan, p, d);
    RevisionKeepsInv(plan, DoneStages(p), Elements(p.invalidated), written, read, t);
    SupervisorIsUnowned(plan);
    UnownedKeepsInv(plan, DoneStages(p2), Elements(p2.invalidated), written, read, SupervisorSection, v, 0);
    PutProgress(w, p2, written, v);
    TargetIsFirst(plan, DoneStages(p2), t);
  }

  lemma TargetIsFirst(plan: Plan, done: set<Stage>, t: Stage)
    requires UniqueStages(plan) && Topological(plan) && Listed(plan, t)
    requires forall i :: 0 <= i < |plan| ==> (plan[i].stage !in done <==> Reaches(plan, plan[i].stage, t))
    ensures FirstUndone(plan, done, IndexOf(plan, t))
  {
    hide Topological;
    var k := IndexOf(plan, t);
    ReachesSelf(plan, t);
    forall j | 0 <= j < k ensures plan[j].stage in done {
      if Reaches(plan, plan[j].stage, t) {
        ReachesGoesBack(plan, j, k);
      }
    }
  }

  // ----- One accepted write -------------------------------------------------------------

  lemma {:induction false} StampsAreVersions(log: Log)
    ensures forall x :: At(WrittenAt(log), x) <= |log|
    decreases |log|
  {
    if log != [] {
      var init := log[..|log| - 1];
      StampsAreVersions(init);
      forall x ensures At(WrittenAt(log), x) <= |log| {
        assert At(WrittenAt(init), x) <= |init|;
      }
    }
  }

  lemma DecidedKeepsInv(plan: Plan, log: Log, e: Entry)
    requires RevisionSafe(plan) && RunInv(plan, log) && Legal(plan, log, e) && e.note.Decided?
    ensures RunInv(plan, log + [e])
  {
    hide RevisionSafe, HeadInv, Decide, Recorded, MayDecide, MarkedHistory, PendingTarget, FirstUndone, Listed;
    hide Reviewer, DoneStages;
    var w, d, v := Head(log), e.note.decision, |log| + 1;
    var written, read := WrittenAt(log), ReadAt(log);
    StampsExtend(log, e);
    StampsAreVersions(log + [e]);
    DecisionKeepsHead(plan, w, e.note.available, d, written, read, v);
    var log2 := log + [e];
    assert HeadInv(plan, Head(log2), WrittenAt(log2), ReadAt(log2));
    if Runs(d) {
      assert OutputsOf(plan, d.next.value)[..0] == [];
      assert WrittenSince([], v, WrittenAt(log2), ReadAt(log2));
      assert log2[v - 1] == e && Head(log2) == e.state;
    }
  }

  lemma DecisionKeepsHead(plan: Plan, w: Workflow, available: Option<set<Stage>>, d: Decision, written: Stamps,
                          read: Stamps, v: nat)
    requires RevisionSafe(plan) && HeadInv(plan, w, written, read) && v > 0
    requires Decide(plan, w, available) == Success(d)
    ensures
      var p2 := Recorded(plan, ProgressOf(w), d);
      var w2 := Put(w, SupervisorSection, SupervisorProgress(p2));
      && HeadInv(plan, w2, written[SupervisorSection := v], read[SupervisorSection := 0])
      && (Runs(d) ==>
            && Listed(plan, d.next.value)
            && FirstUndone(plan, DoneStages(ProgressOf(w2)), IndexOf(plan, d.next.value))
            && (Reviewer(PolicyOf(plan, d.next.value)) ==> d.action != Revise)
            && PendingTarget(w2) == Success(if d.action == Revise then d.next else None))
  {
    hide Decide, Recorded, StagesInv, PendingTarget, DoneStages, Reviewer, PresentWasWritten, Topological;
    hide ReviewersGuardTheRest, DisjointOutputs, Acyclic;
    ActionOrigin(plan, w, available);
    PutProgress(w, Recorded(plan, ProgressOf(w), d), written, v);
    match d.action
    case Skip => SkipKeepsHead(plan, w, available, d, written, read, v);
    case Revise => ReviseKeepsHead(plan, w, d, written, read, v);
    case Stop => QuietDecisionKeepsHead(plan, w, d, written, read, v);
    case _ =>
      QuietDecisionKeepsHead(plan, w, d, written, read, v);
      var j := RoutedStage(plan, w, available, d);
  }

  /** What the running stage depends on was settled when its execution read the state. */
  lemma OthersSettledBefore(plan: Plan, written: Stamps, read: Stamps, i: nat, n: nat, base: nat)
    requires DisjointOutputs(plan) && i < |plan| && n <= |plan[i].outputs|
    requires WrittenSince(plan[i].outputs[..n], base, written, read)
    ensures SettledBefore(plan, written, i, base)
  {
  }

  lemma PutOther(w: Workflow, x: Section, value: Value, written: Stamps, v: nat)
    requires x != SupervisorSection && Fits(x, value) && PresentWasWritten(w, written) && v > 0
    requires x == SemanticContractSection ==> Present(value)
    ensures
      var w2 := Put(w, x, value);
      && ProgressOf(w2) == ProgressOf(w)
      && (x != RevisionHistorySection ==> HistoryOf(w2) == HistoryOf(w) && PendingTarget(w2) == PendingTarget(w))
      && PresentWasWritten(w2, written[x := v])
  {
    hide At, Present;
    PutKeepsPresent(w, x, value, written, v);
  }

  lemma PutKeepsPresent(w: Workflow, x: Section, value: Value, written: Stamps, v: nat)
    requires Fits(x, value) && PresentWasWritten(w, written) && v > 0
    requires x == SemanticContractSection ==> Present(value)
    ensures PresentWasWritten(Put(w, x, value), written[x := v])
  {
    hide Present, Fits;
    forall y ensures At(written[x := v], y) == if y == x then v else At(written, y) {
    }
  }

  lemma OutputKeepsHead(plan: Plan, w: Workflow, written: Stamps, read: Stamps, i: nat, n: nat, x: Section,
                        value: Value, base: nat, v: nat)
    requires RevisionSafe(plan) && HeadInv(plan, w, written, read) && v > 0
    requires FirstUndone(plan, DoneStages(ProgressOf(w)), i) && Owns(plan[i], x) && Fits(x, value)
    requires x == SemanticContractSection ==> Present(value)
    requires n <= |plan[i].outputs| && WrittenSince(plan[i].outputs[..n], base, written, read)
    ensures HeadInv(plan, Put(w, x, value), written[x := v], read[x := base])
  {
    hide StagesInv, DoneStages, Topological, ReviewersGuardTheRest, Acyclic, KnownDependencies, PresentWasWritten;
    hide SettledBefore, DisjointOutputs, WrittenSince;
    var p := ProgressOf(w);
    OthersSettledBefore(plan, written, read, i, n, base);
    OutputKeepsInv(plan, DoneStages(p), Elements(p.invalidated), written, read, i, x, base, v);
    SupervisorIsUnowned(plan);
    PutOther(w, x, value, written, v);
  }

  /** The first undone stage asks for a revision of one of its ancestors: everything undone depends
      on the target, because everything listed after a reviewer depends on the reviewer. */
  lemma RequestReachesUndone(plan: Plan, done: set<Stage>, i: nat, t: Stage)
    requires ReviewersGuardTheRest(plan) && FirstUndone(plan, done, i) && Reviewer(plan[i])
    requires Reaches(plan, plan[i].stage, t)
    ensures UndoneReach(plan, done, t)
  {
    hide Reaches, Reviewer;
    forall j | 0 <= j < |plan| && plan[j].stage !in done ensures Reaches(plan, plan[j].stage, t) {
      if i < j {
        ReachesTransitive(plan, plan[j].stage, plan[i].stage, t);
      }
    }
  }

  lemma HistoryKeepsHead(plan: Plan, w: Workflow, written: Stamps, read: Stamps, i: nat, after: seq<Revision>,
                         base: nat, v: nat)
    requires RevisionSafe(plan) && HeadInv(plan, w, written, read) && v > 0
    requires FirstUndone(plan, DoneStages(ProgressOf(w)), i)
    requires
      || (Reviewer(plan[i]) && PendingTarget(w) == Success(None) && Appends(plan, plan[i].stage, HistoryOf(w), after))
      || PendingTarget(Put(w, RevisionHistorySection, History(after))) == Success(None)
    ensures HeadInv(plan, Put(w, RevisionHistorySection, History(after)), written[RevisionHistorySection := v],
        read[RevisionHistorySection := base])
  {
    hide StagesInv, DoneStages, Topological, Reaches, Acyclic, KnownDependencies, PresentWasWritten, DisjointOutputs;
    hide ReviewersGuardTheRest, FirstUndone;
    var p := ProgressOf(w);
    var w2 := Put(w, RevisionHistorySection, History(after));
    UnownedKeepsInv(plan, DoneStages(p), Elements(p.invalidated), written, read, RevisionHistorySection, v, base);
    PutOther(w, RevisionHistorySection, History(after), written, v);
    assert HistoryOf(w2) == after;
    if PendingTarget(w2) != Success(None) {
      assert after != HistoryOf(w) by {
        assert after == HistoryOf(w) ==> PendingTarget(w2) == PendingTarget(w);
      }
      RequestReachesUndone(plan, DoneStages(p), i, after[|after| - 1].target.value);
    }
  }

  lemma ProducedKeepsInv(plan: Plan, log: Log, e: Entry)
    requires RevisionSafe(plan) && RunInv(plan, log) && Legal(plan, log, e) && Disciplined(plan, log, e)
    requires e.note.Produced?
    ensures RunInv(plan, log + [e])
  {
    hide HeadInv, FirstUndone, Topological, ReviewersGuardTheRest, Acyclic, KnownDependencies, DisjointOutputs, Appends;
    hide DoneStages, PendingTarget, WrittenSince, Present, MarkedHistory, MayDecide;
    var run, k := e.note.run, e.note.k;
    var i := IndexOf(plan, run.stage);
    var outputs := plan[i].outputs;
    var x, w, v := outputs[k], Head(log), |log| + 1;
    var written, read := WrittenAt(log), ReadAt(log);
    StampsExtend(log, e);
    var log2 := log + [e];
    assert log2[run.base - 1] == log[run.base - 1];
    assert outputs[..k + 1] == outputs[..k] + [x];
    WrittenSinceGrows(outputs[..k], x, run.base, written, read, v);
    if x == RevisionHistorySection {
      assert RevisionHistorySection !in outputs[..k] by {
        assert WellFormedPolicy(plan[i]);
      }
      HistoryKeepsHead(plan, w, written, read, i, HistoryOf(e.state), run.base, v);
      assert e.state[x] == History(HistoryOf(e.state));
    } else {
      OutputKeepsHead(plan, w, written, read, i, k, x, e.state[x], run.base, v);
      OutputKeepsRequests(plan, log, e);
    }
    OutputKeepsProgress(plan, log, e);
  }

  lemma WrittenSinceGrows(outputs: seq<Section>, x: Section, base: nat, written: Stamps, read: Stamps, v: nat)
    requires WrittenSince(outputs, base, written, read) && v > 0
    ensures WrittenSince(outputs + [x], base, written[x := v], read[x := base])
  {
    var w2, r2, grown := written[x := v], read[x := base], outputs + [x];
    forall y: Section
      ensures y in grown <==> y in outputs || y == x
      ensures At(w2, y) == if y == x then v else At(written, y)
      ensures At(r2, y) == if y == x then base else At(read, y)
    {
    }
  }

  lemma OutputKeepsProgress(plan: Plan, log: Log, e: Entry)
    requires log != [] && Accepted(plan) && Legal(plan, log, e) && e.note.Produced?
    ensures ProgressOf(e.state) == ProgressOf(Head(log))
  {
    hide Acyclic, KnownDependencies, MarkedHistory, MayDecide, Decide;
    assert WellFormedPolicy(PolicyOf(plan, e.note.run.stage));
  }

  lemma OutputKeepsRequests(plan: Plan, log: Log, e: Entry)
    requires log != [] && Legal(plan, log, e) && e.note.Produced? && e.changed != Some(RevisionHistorySection)
    ensures HistoryOf(e.state) == HistoryOf(Head(log)) && PendingTarget(e.state) == PendingTarget(Head(log))
  {
    hide MarkedHistory, MayDecide, Decide;
  }

  lemma MarkedKeepsInv(plan: Plan, log: Log, e: Entry)
    requires RevisionSafe(plan) && RunInv(plan, log) && Legal(plan, log, e) && e.note.Marked?
    ensures RunInv(plan, log + [e])
  {
    hide HeadInv, FirstUndone, Topological, ReviewersGuardTheRest, Acyclic, KnownDependencies, DisjointOutputs, Appends;
    hide DoneStages, PendingTarget, WrittenSince, Present, MarkedHistory, MayDecide;
    var run := e.note.run;
    var i := IndexOf(plan, run.stage);
    var w, v := Head(log), |log| + 1;
    StampsExtend(log, e);
    MarkingClosesThePendingRevision(w, run.stage);
    var after := MarkedHistory(HistoryOf(w), run.stage);
    assert PendingTarget(Put(w, RevisionHistorySection, History(after))) == Success(None);
    HistoryKeepsHead(plan, w, WrittenAt(log), ReadAt(log), i, after, 0, v);
    assert plan[i].outputs[..|plan[i].outputs|] == plan[i].outputs;
    MarkKeepsSince(plan[i].outputs, run.base, WrittenAt(log), ReadAt(log), v);
    assert ProgressOf(e.state) == ProgressOf(w);
  }

  lemma MarkKeepsSince(outputs: seq<Section>, base: nat, written: Stamps, read: Stamps, v: nat)
    requires WrittenSince(outputs, base, written, read)
    ensures WrittenSince(outputs, base, written[RevisionHistorySection := v], read[RevisionHistorySection := 0])
  {
    var w2, r2 := written[RevisionHistorySection := v], read[RevisionHistorySection := 0];
    forall y: Section
      ensures y != RevisionHistorySection ==> At(w2, y) == At(written, y) && At(r2, y) == At(read, y)
    {
    }
  }

  lemma CompletedSets(p: Progress, s: Stage)
    ensures
      var p2 := CompletedProgress(p, s);
      && p2.requestedSkips == p.requestedSkips
      && DoneStages(p2) == DoneStages(p) + {s}
      && Elements(p2.invalidated) == Elements(p.invalidated) - {s}
  {
  }

  /** All outputs written since the state was read: the stage is complete and fresh. */
  lemma AllWrittenIsFresh(plan: Plan, written: Stamps, read: Stamps, i: nat, base: nat)
    requires DisjointOutputs(plan) && i < |plan| && WrittenSince(plan[i].outputs, base, written, read)
    ensures Touched(plan[i], written) && FreshStage(plan, written, read, i)
  {
    hide Reaches;
    assert plan[i].outputs[..|plan[i].outputs|] == plan[i].outputs;
    OthersSettledBefore(plan, written, read, i, |plan[i].outputs|, base);
  }

  lemma CommittedKeepsInv(plan: Plan, log: Log, e: Entry)
    requires RevisionSafe(plan) && RunInv(plan, log) && Legal(plan, log, e) && e.note.Committed?
    ensures RunInv(plan, log + [e])
  {
    hide RevisionSafe, HeadInv, FirstUndone, DoneStages, PendingTarget, WrittenSince, Present, MarkedHistory, MayDecide;
    hide RequestInv, OutputsOf, Listed;
    StampsExtend(log, e);
    var i := IndexOf(plan, e.note.run.stage);
    assert OutputsOf(plan, plan[i].stage) == plan[i].outputs by { OutputsAt(plan, plan[i].stage); }
    assert plan[i].outputs[..|plan[i].outputs|] == plan[i].outputs;
    CommitKeepsHead(plan, Head(log), WrittenAt(log), ReadAt(log), i, e.note.run.base, |log| + 1);
  }

  lemma OutputsAt(plan: Plan, s: Stage)
    requires Listed(plan, s)
    ensures OutputsOf(plan, s) == plan[IndexOf(plan, s)].outputs
  {
  }

  lemma CommitKeepsHead(plan: Plan, w: Workflow, written: Stamps, read: Stamps, i: nat, base: nat, v: nat)
    requires RevisionSafe(plan) && HeadInv(plan, w, written, read) && v > 0
    requires FirstUndone(plan, DoneStages(ProgressOf(w)), i) && WrittenSince(plan[i].outputs, base, written, read)
    ensures
      var p2 := CompletedProgress(ProgressOf(w), plan[i].stage);
      HeadInv(plan, Put(w, SupervisorSection, SupervisorProgress(p2)), written[SupervisorSection := v],
          read[SupervisorSection := 0])
  {
    hide StagesInv, DoneStages, Topological, Reaches, Acyclic, KnownDependencies, PresentWasWritten, DisjointOutputs;
    hide ReviewersGuardTheRest, CompletedProgress, PendingTarget, WrittenSince;
    var p := ProgressOf(w);
    var p2 := CompletedProgress(p, plan[i].stage);
    AllWrittenIsFresh(plan, written, read, i, base);
    FinishKeepsInv(plan, DoneStages(p), Elements(p.invalidated), written, read, i);
    CompletedSets(p, plan[i].stage);
    SupervisorIsUnowned(plan);
    UnownedKeepsInv(plan, DoneStages(p2), Elements(p2.invalidated), written, read, SupervisorSection, v, 0);
    PutProgress(w, p2, written, v);
  }

  /** A client creates the contract while none is stored: no handler has written it, so its stage and
      every stage that depends on it have produced nothing that is not stale. */
  lemma SupplyKeepsInv(plan: Plan, done: set<Stage>, stale: set<Stage>, written: Stamps, read: Stamps, v: nat)
    requires RevisionSafe(plan) && StagesInv(plan, done, stale, written, read)
    requires At(written, SemanticContractSection) == 0 && v > 0
    ensures StagesInv(plan, done, stale, written[SemanticContractSection := v], read[SemanticContractSection := 0])
  {
    hide Acyclic, KnownDependencies, ReviewersGuardTheRest, Reaches, Topological, FreshStage, DisjointOutputs;
    hide DependencyClosed;
    var c := SemanticContractSection;
    var w2, r2 := written[c := v], read[c := 0];
    forall i | 0 <= i < |plan| && plan[i].stage !in stale ensures FreshStage(plan, w2, r2, i) {
      if k :| 0 <= k < |plan| && k != i && Owns(plan[k], c) && Reaches(plan, plan[i].stage, plan[k].stage) {
        SuppliedDependent(plan, done, stale, written, read, v, i, k);
      } else {
        SupplyIsElsewhere(plan, written, read, v, i);
      }
    }
    forall x ensures At(written, x) > 0 ==> At(w2, x) > 0 {
    }
    forall i | 0 <= i < |plan| && Untouched(plan[i], written, read) ensures Untouched(plan[i], w2, r2) {
      SupplyLeavesUntouched(plan[i], written, read, v);
    }
  }

  lemma SupplyLeavesUntouched(policy: Policy, written: Stamps, read: Stamps, v: nat)
    requires Untouched(policy, written, read)
    ensures Untouched(policy, written[SemanticContractSection := v], read[SemanticContractSection := 0])
  {
  }

  lemma SuppliedDependent(plan: Plan, done: set<Stage>, stale: set<Stage>, written: Stamps, read: Stamps, v: nat,
                          i: nat, k: nat)
    requires RevisionSafe(plan) && StagesInv(plan, done, stale, written, read) && i < |plan| && k < |plan|
    requires At(written, SemanticContractSection) == 0 && v > 0 && plan[i].stage !in stale
    requires k != i && Owns(plan[k], SemanticContractSection) && Reaches(plan, plan[i].stage, plan[k].stage)
    ensures FreshStage(plan, written[SemanticContractSection := v], read[SemanticContractSection := 0], i)
  {
    hide Acyclic, KnownDependencies, ReviewersGuardTheRest, Reaches, Topological, FreshStage, DisjointOutputs;
    hide DependencyClosed, Untouched;
    assert plan[k].stage !in done;
    DependentIsUndone(plan, done, k, i);
    ReachesGoesBack(plan, i, k);
    assert Untouched(plan[i], written, read);
    SupplyLeavesUntouched(plan[i], written, read, v);
    UntouchedIsFresh(plan, written[SemanticContractSection := v], read[SemanticContractSection := 0], i);
  }

  lemma UntouchedIsFresh(plan: Plan, written: Stamps, read: Stamps, i: nat)
    requires i < |plan| && Untouched(plan[i], written, read)
    ensures FreshStage(plan, written, read, i)
  {
    hide Reaches;
  }

  lemma SupplyIsElsewhere(plan: Plan, written: Stamps, read: Stamps, v: nat, i: nat)
    requires i < |plan| && FreshStage(plan, written, read, i)
    requires forall k :: 0 <= k < |plan| && k != i && Owns(plan[k], SemanticContractSection) ==>
                           !Reaches(plan, plan[i].stage, plan[k].stage)
    ensures FreshStage(plan, written[SemanticContractSection := v], read[SemanticContractSection := 0], i)
  {
    hide Reaches;
    var w2, r2 := written[SemanticContractSection := v], read[SemanticContractSection := 0];
    forall x, k, y | Owns(plan[i], x) && At(w2, x) > 0 && !Supplied(r2, x)
      && 0 <= k < |plan| && k != i && Reaches(plan, plan[i].stage, plan[k].stage) && Owns(plan[k], y)
      ensures At(w2, y) <= At(r2, x)
    {
      assert At(w2, y) == At(written, y) && At(w2, x) == At(written, x) && At(r2, x) == At(read, x);
    }
  }

  lemma ExternalKeepsInv(plan: Plan, log: Log, e: Entry)
    requires RevisionSafe(plan) && RunInv(plan, log) && Legal(plan, log, e) && Disciplined(plan, log, e)
    requires e.note.External?
    ensures RunInv(plan, log + [e])
  {
    hide StagesInv, FirstUndone, RevisionSafe, DoneStages, PendingTarget, PresentWasWritten, MarkedHistory, MayDecide;
    StampsExtend(log, e);
    var x, w, p := e.changed.value, Head(log), ProgressOf(Head(log));
    if x == SemanticContractSection {
      assert At(WrittenAt(log), x) == 0 by { AbsentWasNotWritten(w, WrittenAt(log)); }
      SupplyKeepsInv(plan, DoneStages(p), Elements(p.invalidated), WrittenAt(log), ReadAt(log), |log| + 1);
    } else {
      UnownedKeepsInv(plan, DoneStages(p), Elements(p.invalidated), WrittenAt(log), ReadAt(log), x, |log| + 1, 0);
    }
    PutOther(w, x, e.state[x], WrittenAt(log), |log| + 1);
  }

  lemma AbsentWasNotWritten(w: Workflow, written: Stamps)
    requires PresentWasWritten(w, written) && !Present(w[SemanticContractSection])
    ensures At(written, SemanticContractSection) == 0
  {
  }

  lemma InitialInv(plan: Plan)
    ensures RunInv(plan, [InitialEntry()])
  {
    assert ReadAt([InitialEntry()]) == map[] && WrittenAt([InitialEntry()]) == map[];
    assert HistoryOf(EmptyWorkflow()) == [];
    assert forall x: Section :: !Present(EmptyWorkflow()[x]);
  }

  lemma {:induction false} RunKeepsInv(plan: Plan, log: Log)
    requires RevisionSafe(plan) && LegalLog(plan, log) && DisciplinedLog(plan, log)
    ensures RunInv(plan, log)
    decreases |log|
  {
    hide RunInv, RevisionSafe, Legal, Disciplined;
    if |log| == 1 {
      assert log == [InitialEntry()];
      InitialInv(plan);
    } else {
      var init, e := log[..|log| - 1], Last(log);
      assert init + [e] == log;
      RunKeepsInv(plan, init);
      match e.note
      case Decided(_, _) => DecidedKeepsInv(plan, init, e);
      case Produced(_, _) => ProducedKeepsInv(plan, init, e);
      case Marked(_) => MarkedKeepsInv(plan, init, e);
      case Committed(_) => CommittedKeepsInv(plan, init, e);
      case External => ExternalKeepsInv(plan, init, e);
      case Created => NeverCreatedTwice(plan, init, e);
    }
  }

  lemma NeverCreatedTwice(plan: Plan, log: Log, e: Entry)
    requires log != [] && Legal(plan, log, e)
    ensures !e.note.Created?
  {
  }

  // ----- Theorems -----------------------------------------------------------------------

  /** Freshness. In every version of every run, a completed or skipped stage holds outputs that were
      all produced, and each was computed by a handler that had already read the newest output of
      every stage it depends on, directly or not; only a contract that a client created was not. */
  lemma NoStaleOutput(plan: Plan, log: Log, s: Stage, d: Stage, x: Section, y: Section)
    requires RevisionSafe(plan) && LegalLog(plan, log) && DisciplinedLog(plan, log)
    requires s in DoneStages(ProgressOf(Head(log)))
    requires Listed(plan, s) && Listed(plan, d) && s != d && Reaches(plan, s, d)
    requires Owns(PolicyOf(plan, s), x) && Owns(PolicyOf(plan, d), y)
    ensures 0 < At(WrittenAt(log), y) && At(ReadAt(log), x) < At(WrittenAt(log), x)
    ensures Supplied(ReadAt(log), x) || At(WrittenAt(log), y) <= At(ReadAt(log), x)
  {
    RunKeepsInv(plan, log);
    var done := DoneStages(ProgressOf(Head(log)));
    var i, k := IndexOf(plan, s), IndexOf(plan, d);
    ReachesStaysDown(plan, done, s, d);
    assert FreshStage(plan, WrittenAt(log), ReadAt(log), i);
    assert Touched(plan[i], WrittenAt(log)) && Touched(plan[k], WrittenAt(log));
    ReadBeforeWrite(plan, log, x);
  }

  /** Whatever a handler produced was written after the version it read. */
  lemma {:induction false} ReadBeforeWrite(plan: Plan, log: Log, x: Section)
    requires LegalLog(plan, log) && At(WrittenAt(log), x) > 0
    ensures At(ReadAt(log), x) < At(WrittenAt(log), x)
    decreases |log|
  {
    hide Legal, OpenOf;
    if |log| > 1 {
      var init, e := log[..|log| - 1], Last(log);
      assert init + [e] == log;
      LegalReplaces(plan, init, e);
      StampsExtend(init, e);
      if e.changed == Some(x) {
        ProducedReadEarlier(plan, init, e);
      } else {
        ReadBeforeWrite(plan, init, x);
      }
    }
  }

  lemma ProducedReadEarlier(plan: Plan, log: Log, e: Entry)
    requires LegalLog(plan, log) && Legal(plan, log, e)
    ensures BaseOf(e.note) <= |log|
  {
    hide MayDecide, Decide, Recorded, MarkedHistory;
    if e.note.Produced? {
      OpenIsUnbroken(plan, log);
    }
  }
}
