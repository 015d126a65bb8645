/** Why every stage listed after a reviewing stage has to depend on it: an accepted plan in topological
    order that lacks only this, and a run of it that ends with stale output. */
module UnguardedPlans {
  import opened Vocabulary
  import opened StageGraph
  import opened Workflows
  import opened Supervisor
  import opened VersionLog
  import opened Freshness
  import opened StaleOutputs

  // ----- Whole executions -----------------------------------------------------------------

  /** What a handler hands back: documents, and the history it read with or without a request. */
  function Output(x: Section, history: seq<Revision>): Value {
    if x == RevisionHistorySection then History(history) else DOC
  }

  lemma OutputFits(x: Section, history: seq<Revision>)
    requires x != SupervisorSection
    ensures Fits(x, Output(x, history))
  {
  }

  lemma MarkedIsLegal(plan: Plan, log: Log, e: Entry)
    requires log != [] && e.note.Marked?
    requires OpenOf(plan, log) == Open(e.author, e.note.run, |OutputsOf(plan, e.note.run.stage)|)
    requires MarkingChanges(Head(log), e.note.run.stage)
    requires Replaces(Head(log), e, RevisionHistorySection,
        History(MarkedHistory(HistoryOf(Head(log)), e.note.run.stage)))
    ensures Legal(plan, log, e)
  {
    hide MarkedHistory;
  }

  /** A log that the theorems about runs speak of. */
  ghost predicate Proper(plan: Plan, log: Log) {
    log != [] && LegalLog(plan, log) && DisciplinedLog(plan, log)
  }

  lemma ProperExtend(plan: Plan, log: Log, e: Entry)
    requires Proper(plan, log) && Legal(plan, log, e) && Disciplined(plan, log, e)
    ensures Proper(plan, log + [e])
  {
    hide Legal, Disciplined, LegalLog, DisciplinedLog;
    LegalExtend(plan, log, e);
    DisciplinedExtend(plan, log, e);
  }

  /** Sections outside the given ones keep their stamps, those inside get newer ones. */
  ghost predicate Stamped(log: Log, later: Log, xs: set<Section>) {
    && |log| <= |later|
    && (forall x :: x !in xs ==> At(WrittenAt(later), x) == At(WrittenAt(log), x))
    && (forall x :: x in xs ==> At(WrittenAt(later), x) > |log|)
  }

  lemma StampedOnce(log: Log, e: Entry)
    requires e.changed.Some?
    ensures Stamped(log, log + [e], {e.changed.value})
  {
    hide WrittenAt, ReadAt;
    StampsExtend(log, e);
  }

  lemma StampedTwice(a: Log, b: Log, c: Log, xs: set<Section>, ys: set<Section>)
    requires Stamped(a, b, xs) && Stamped(b, c, ys)
    ensures Stamped(a, c, xs + ys)
  {
    hide WrittenAt;
  }

  /** The remaining outputs of an open run, written one after another. */
  lemma {:induction false} Produce(plan: Plan, log: Log, me: Author, run: Run, k: nat,
                                   history: seq<Revision>) returns (later: Log)
    requires Proper(plan, log) && OpenOf(plan, log) == Open(me, run, k) && 1 <= run.base <= |log|
    requires k <= |OutputsOf(plan, run.stage)|
    requires SupervisorSection !in OutputsOf(plan, run.stage) && SemanticContractSection !in OutputsOf(plan, run.stage)
    requires Appends(plan, run.stage, HistoryOf(log[run.base - 1].state), history)
    ensures Proper(plan, later) && log <= later && OpenOf(plan, later) == Open(me, run, |OutputsOf(plan, run.stage)|)
    ensures Stamped(log, later, Elements(OutputsOf(plan, run.stage)[k..]))
    ensures forall x: Section ::
      Head(later)[x] == (if x in OutputsOf(plan, run.stage)[k..] then Output(x, history) else Head(log)[x])
    decreases |OutputsOf(plan, run.stage)| - k
  {
    hide LegalLog, DisciplinedLog, Legal, Appends, Stamped, Proper, OutputsOf, Fits;
    var outputs := OutputsOf(plan, run.stage);
    if k == |outputs| {
      later := log;
      StampedNothing(log);
      assert Elements(outputs[k..]) == {};
    } else {
      var x := outputs[k];
      OutputFits(x, history);
      var e := Entry(Some(x), Put(Head(log), x, Output(x, history)), me, Produced(run, k));
      ProducedIsLegal(plan, log, e);
      OutputIsDisciplined(plan, log, e, history);
      ProperExtend(plan, log, e);
      StampedOnce(log, e);
      var longer := log + [e];
      assert longer[run.base - 1] == log[run.base - 1];
      assert Head(longer) == e.state && Last(longer) == e;
      later := Produce(plan, longer, me, run, k + 1, history);
      StampedTwice(log, longer, later, {x}, Elements(outputs[k + 1..]));
      assert outputs[k..] == [x] + outputs[k + 1..];
      assert Elements(outputs[k..]) == {x} + Elements(outputs[k + 1..]);
    }
  }

  lemma StampedNothing(log: Log)
    ensures Stamped(log, log, {})
  {
  }

  lemma OutputIsDisciplined(plan: Plan, log: Log, e: Entry, history: seq<Revision>)
    requires e.note.Produced? && e.changed.Some? && 1 <= e.note.run.base <= |log|
    requires e.state[e.changed.value] == Output(e.changed.value, history)
    requires Appends(plan, e.note.run.stage, HistoryOf(log[e.note.run.base - 1].state), history)
    ensures Disciplined(plan, log, e)
  {
    hide Appends;
  }

  /** One turn that runs a stage to its end: the decision, all outputs, the mark if it closes a request, and
      the completion. */
  lemma CompleteTurn(plan: Plan, log: Log, me: Author, handlers: set<Stage>, d: Decision, history: seq<Revision>)
    returns (later: Log)
    requires log != [] && Proper(plan, log) && me.Executor? && MayDecide(plan, log, me)
    requires Decide(plan, Head(log), Some(handlers)) == Success(d) && Runs(d)
    requires
      var outputs := OutputsOf(plan, d.next.value);
      && SupervisorSection !in outputs && SemanticContractSection !in outputs
      && Appends(plan, d.next.value, HistoryOf(Head(log)), history)
      && (RevisionHistorySection !in outputs ==> history == HistoryOf(Head(log)))
    ensures later != [] && Proper(plan, later) && MayDecide(plan, later, me)
    ensures
      var s := d.next.value;
      var outputs := OutputsOf(plan, s);
      && ProgressOf(Head(later)) == CompletedProgress(Recorded(plan, ProgressOf(Head(log)), d), s)
      && HistoryOf(Head(later)) == MarkedHistory(history, s)
      && (forall x :: x != SupervisorSection && x != RevisionHistorySection ==>
            && Head(later)[x] == (if x in outputs then DOC else Head(log)[x])
            && (x in outputs ==> At(WrittenAt(later), x) > |log|)
            && (x !in outputs ==> At(WrittenAt(later), x) == At(WrittenAt(log), x)))
  {
    hide LegalLog, DisciplinedLog, Legal, Appends, Proper, Decide, Recorded, CompletedProgress, MayDecide;
    hide MarkedHistory;
    hide WrittenAt, OutputsOf;
    var s := d.next.value;
    var decided := Entry(Some(SupervisorSection),
                         Put(Head(log), SupervisorSection,
                             SupervisorProgress(Recorded(plan, ProgressOf(Head(log)), d))),
                         me, Decided(d, Some(handlers)));
    DecidedIsLegal(plan, log, decided);
    QuietIsDisciplined(plan, log, decided);
    ProperExtend(plan, log, decided);
    StampedOnce(log, decided);
    var started := log + [decided];
    var run := Run(s, d.action, |started|);
    assert Last(started) == decided && Head(started) == decided.state;
    var produced := Produce(plan, started, me, run, 0, history);
    var outputs := OutputsOf(plan, s);
    assert outputs[0..] == outputs;
    StampedTwice(log, started, produced, {SupervisorSection}, Elements(outputs));
    assert HistoryOf(Head(produced)) == history;
    assert ProgressOf(Head(produced)) == Recorded(plan, ProgressOf(Head(log)), d);
    later := Close(plan, produced, me, run);
    ClosedStamps(log, produced, later, outputs);
  }

  lemma ClosedStamps(log: Log, produced: Log, later: Log, outputs: seq<Section>)
    requires Stamped(log, produced, {SupervisorSection} + Elements(outputs))
    requires |produced| <= |later|
    requires forall x :: x != SupervisorSection && x != RevisionHistorySection ==>
      At(WrittenAt(later), x) == At(WrittenAt(produced), x)
    ensures forall x :: x != SupervisorSection && x != RevisionHistorySection ==>
      && (x in outputs ==> At(WrittenAt(later), x) > |log|)
      && (x !in outputs ==> At(WrittenAt(later), x) == At(WrittenAt(log), x))
  {
    hide WrittenAt;
    forall x ensures x in outputs <==> x in Elements(outputs) {
    }
  }

  /** The mark, if there is one to make, and the completion. */
  lemma Close(plan: Plan, log: Log, me: Author, run: Run) returns (later: Log)
    requires log != [] && Proper(plan, log) && OpenOf(plan, log) == Open(me, run, |OutputsOf(plan, run.stage)|)
    ensures later != [] && Proper(plan, later) && MayDecide(plan, later, me) && |log| <= |later|
    ensures ProgressOf(Head(later)) == CompletedProgress(ProgressOf(Head(log)), run.stage)
    ensures HistoryOf(Head(later)) == MarkedHistory(HistoryOf(Head(log)), run.stage)
    ensures forall x :: x != SupervisorSection && x != RevisionHistorySection ==>
      Head(later)[x] == Head(log)[x] && At(WrittenAt(later), x) == At(WrittenAt(log), x)
  {
    hide LegalLog, DisciplinedLog, Legal, Proper, CompletedProgress, MarkedHistory, WrittenAt, OutputsOf;
    var marked := log;
    if MarkingChanges(Head(log), run.stage) {
      var e := Entry(Some(RevisionHistorySection),
                     Put(Head(log), RevisionHistorySection, History(MarkedHistory(HistoryOf(Head(log)), run.stage))),
                     me, Marked(run));
      MarkedIsLegal(plan, log, e);
      MarkIsDisciplined(plan, log, e);
      ProperExtend(plan, log, e);
      StampsExtend(log, e);
      marked := log + [e];
      assert Last(marked) == e && Head(marked) == e.state;
      assert ProgressOf(Head(marked)) == ProgressOf(Head(log));
      NothingLeftToMark(Head(log), run.stage);
    }
    var c := Entry(Some(SupervisorSection),
                   Put(Head(marked), SupervisorSection,
                       SupervisorProgress(CompletedProgress(ProgressOf(Head(marked)), run.stage))),
                   me, Committed(run));
    CommittedIsLegal(plan, marked, c);
    QuietIsDisciplined(plan, marked, c);
    ProperExtend(plan, marked, c);
    StampsExtend(marked, c);
    later := marked + [c];
    assert Last(later) == c && Head(later) == c.state;
    CommitterIsFree(plan, marked, c);
  }

  lemma NothingLeftToMark(w: Workflow, s: Stage)
    requires MarkingChanges(w, s)
    ensures !MarkingChanges(Put(w, RevisionHistorySection, History(MarkedHistory(HistoryOf(w), s))), s)
  {
    hide MarkedHistory;
    MarkingClosesThePendingRevision(w, s);
    MarkingClosesThePendingRevision(Put(w, RevisionHistorySection, History(MarkedHistory(HistoryOf(w), s))), s);
  }

  lemma MarkIsDisciplined(plan: Plan, log: Log, e: Entry)
    requires e.note.Marked?
    ensures Disciplined(plan, log, e)
  {
  }

  lemma CommitterIsFree(plan: Plan, log: Log, e: Entry)
    requires e.note.Committed?
    ensures MayDecide(plan, log + [e], e.author)
  {
    assert Last(log + [e]) == e;
  }

  // ----- Pictures of a workflow -----------------------------------------------------------

  /** What matters of a workflow: which stages are done and which are stale, how often any was tried, the
      history, and which documents exist. */
  datatype Picture = Picture(
    done: set<Stage>, stale: set<Stage>, tries: nat, history: seq<Revision>, present: set<Section>)

  predicate LooksDone(p: Progress, pic: Picture) {
    && DoneStages(p) == pic.done && Elements(p.invalidated) == pic.stale && p.requestedSkips == []
    && forall s: Stage :: AttemptsOf(p, s) <= pic.tries
  }

  predicate Looks(w: Workflow, pic: Picture) {
    && LooksDone(ProgressOf(w), pic)
    && HistoryOf(w) == pic.history
    && forall x :: x != SupervisorSection && x != RevisionHistorySection ==>
         w[x] == if x in pic.present then DOC else Empty
  }

  /** No gate is decided, and nothing asks the client. */
  predicate Calm(pic: Picture) {
    && VerificationSection !in pic.present && QualitySection !in pic.present && QualityApprovalSection !in pic.present
    && ClientUnderstanding !in pic.done
  }

  predicate NothingPending(history: seq<Revision>) {
    history == [] || history[|history| - 1].status != Pending
  }

  function Owned(outputs: seq<Section>): set<Section> {
    Elements(outputs) - {RevisionHistorySection}
  }

  function AfterRun(pic: Picture, policy: Policy, history: seq<Revision>): Picture {
    Picture(pic.done + {policy.stage}, pic.stale - {policy.stage}, pic.tries + 1, history,
            pic.present + Owned(policy.outputs))
  }

  lemma CalmRoutes(plan: Plan, w: Workflow, pic: Picture, available: Option<set<Stage>>)
    requires Looks(w, pic) && Calm(pic) && NothingPending(pic.history)
    ensures Decide(plan, w, available) == Success(Supervisor.Route(plan, w, available))
  {
    hide Supervisor.Route, LooksDone;
    assert VerdictOf(w, VerificationSection) == OtherVerdict && VerdictOf(w, QualityApprovalSection) == OtherVerdict;
    assert ClientUnderstanding !in DoneStages(ProgressOf(w)) by { DoneIs(ProgressOf(w), pic); }
  }

  lemma DoneIs(p: Progress, pic: Picture)
    requires LooksDone(p, pic)
    ensures DoneStages(p) == pic.done && p.requestedSkips == []
    ensures forall s :: s in p.invalidated <==> s in pic.stale
  {
    forall s ensures s in p.invalidated <==> s in Elements(p.invalidated) {
    }
  }

  lemma {:induction false} ScanReaches(plan: Plan, w: Workflow, available: Option<set<Stage>>, i: nat, j: nat)
    requires j <= i < |plan| && Consider(plan[i], w, available).Some?
    requires forall k :: 0 <= k < i ==> plan[k].stage in DoneStages(ProgressOf(w))
    ensures Scan(plan, j, w, available) == Consider(plan[i], w, available)
    decreases i - j
  {
    if j < i {
      assert Consider(plan[j], w, available) == None;
      ScanReaches(plan, w, available, i, j + 1);
    }
  }

  /** The first undone stage runs, if its outputs do not let it be skipped. */
  lemma FirstRuns(plan: Plan, w: Workflow, pic: Picture, handlers: set<Stage>, i: nat) returns (d: Decision)
    requires Looks(w, pic) && Calm(pic) && NothingPending(pic.history) && FirstUndone(plan, pic.done, i)
    requires plan[i].required == [] && !plan[i].optional && plan[i].stage in handlers && pic.tries < plan[i].maxAttempts
    requires forall x :: x in plan[i].dependencies ==> x in pic.done
    requires plan[i].stage in pic.stale || !OutputsPresent(w, plan[i].outputs)
    ensures Decide(plan, w, Some(handlers)) == Success(d) && d.action in {Continue, Retry}
    ensures d.next == Some(plan[i].stage)
  {
    hide LooksDone, Decide, OutputsPresent;
    DoneIs(ProgressOf(w), pic);
    CalmRoutes(plan, w, pic, Some(handlers));
    TriesAre(ProgressOf(w), pic, plan[i].stage);
    d := Consider(plan[i], w, Some(handlers)).value;
    ScanReaches(plan, w, Some(handlers), i, 0);
  }

  lemma TriesAre(p: Progress, pic: Picture, s: Stage)
    requires LooksDone(p, pic)
    ensures AttemptsOf(p, s) <= pic.tries
  {
  }

  lemma RunLooks(plan: Plan, p: Progress, pic: Picture, d: Decision, s: Stage)
    requires LooksDone(p, pic) && d.next == Some(s) && d.action in {Continue, Retry}
    ensures LooksDone(CompletedProgress(Recorded(plan, p, d), s),
                      Picture(pic.done + {s}, pic.stale - {s}, pic.tries + 1, pic.history, pic.present))
  {
    hide CompletedProgress, DoneStages, Recorded;
    RecordedSets(plan, p, d);
    RecordedTries(plan, p, d);
    CompletedSets(Recorded(plan, p, d), s);
    CompletedTries(Recorded(plan, p, d), s);
  }

  lemma RecordedTries(plan: Plan, p: Progress, d: Decision)
    ensures forall x :: AttemptsOf(Recorded(plan, p, d), x) <= AttemptsOf(p, x) + 1
  {
    hide Downstream;
  }

  lemma CompletedTries(p: Progress, s: Stage)
    ensures forall x :: AttemptsOf(CompletedProgress(p, s), x) == AttemptsOf(p, x)
  {
  }

  /** The first undone stage runs to its end, perhaps asking for a revision. */
  lemma RunFirst(plan: Plan, log: Log, me: Author, handlers: set<Stage>, pic: Picture, i: nat, history: seq<Revision>)
    returns (later: Log)
    requires log != [] && Proper(plan, log) && me.Executor? && MayDecide(plan, log, me) && UniqueStages(plan)
    requires Looks(Head(log), pic) && Calm(pic) && NothingPending(pic.history) && FirstUndone(plan, pic.done, i)
    requires plan[i].required == [] && !plan[i].optional && plan[i].stage in handlers && pic.tries < plan[i].maxAttempts
    requires forall x :: x in plan[i].dependencies ==> x in pic.done
    requires plan[i].stage in pic.stale || !OutputsPresent(Head(log), plan[i].outputs)
    requires SupervisorSection !in plan[i].outputs && SemanticContractSection !in plan[i].outputs
    requires Appends(plan, plan[i].stage, pic.history, history) && MarkedHistory(history, plan[i].stage) == history
    requires RevisionHistorySection !in plan[i].outputs ==> history == pic.history
    ensures later != [] && Proper(plan, later) && MayDecide(plan, later, me)
    ensures Looks(Head(later), AfterRun(pic, plan[i], history))
    ensures forall x :: x != SupervisorSection && x != RevisionHistorySection ==>
      && (x in plan[i].outputs ==> At(WrittenAt(later), x) > |log|)
      && (x !in plan[i].outputs ==> At(WrittenAt(later), x) == At(WrittenAt(log), x))
  {
    hide LooksDone, Decide, OutputsPresent, Proper, MayDecide, WrittenAt, Appends, MarkedHistory, CompletedProgress;
    hide Recorded, OutputsOf, Owned, Looks;
    var d := FirstRuns(plan, Head(log), pic, handlers, i);
    IndexIsUnique(plan, i);
    OutputsAt(plan, plan[i].stage);
    LooksHistory(Head(log), pic);
    later := CompleteTurn(plan, log, me, handlers, d, history);
    RunLooks(plan, ProgressOf(Head(log)), pic, d, plan[i].stage);
    SamePicture(ProgressOf(Head(later)), pic, plan[i], history);
    AfterLooks(Head(log), Head(later), pic, AfterRun(pic, plan[i], history), plan[i].outputs);
  }

  lemma AfterLooks(w: Workflow, w2: Workflow, pic: Picture, pic2: Picture, outputs: seq<Section>)
    requires Looks(w, pic) && LooksDone(ProgressOf(w2), pic2) && HistoryOf(w2) == pic2.history
    requires pic2.present == pic.present + Owned(outputs)
    requires forall x :: x != SupervisorSection && x != RevisionHistorySection ==>
      w2[x] == (if x in outputs then DOC else w[x])
    ensures Looks(w2, pic2)
  {
    hide LooksDone;
    forall x ensures x in outputs <==> x in Elements(outputs) {
    }
  }

  lemma LooksHistory(w: Workflow, pic: Picture)
    requires Looks(w, pic)
    ensures HistoryOf(w) == pic.history && LooksDone(ProgressOf(w), pic)
  {
  }

  lemma SamePicture(p: Progress, pic: Picture, policy: Policy, history: seq<Revision>)
    requires LooksDone(p,
        Picture(pic.done + {policy.stage}, pic.stale - {policy.stage}, pic.tries + 1, pic.history, pic.present))
    ensures LooksDone(p, AfterRun(pic, policy, history))
  {
  }

  // ----- Revisions ------------------------------------------------------------------------

  /** The last request is for this stage. */
  predicate Requests(history: seq<Revision>, t: Stage) {
    history != [] && history[|history| - 1].status == Pending && history[|history| - 1].target == Some(t)
  }

  function Closed(history: seq<Revision>): seq<Revision>
    requires history != []
  {
    history[|history| - 1 := history[|history| - 1].(status := Completed)]
  }

  function AfterRevision(pic: Picture, policy: Policy, affected: set<Stage>): Picture
    requires pic.history != []
  {
    Picture(pic.done - affected + {policy.stage}, affected - {policy.stage}, pic.tries + 1, Closed(pic.history),
            pic.present + Owned(policy.outputs))
  }

  lemma RequestIsTaken(plan: Plan, w: Workflow, pic: Picture, handlers: set<Stage>, i: nat) returns (d: Decision)
    requires Looks(w, pic) && Calm(pic) && UniqueStages(plan) && i < |plan| && Requests(pic.history, plan[i].stage)
    requires plan[i].stage != SemanticContract && plan[i].required == [] && plan[i].stage in handlers
    ensures Decide(plan, w, Some(handlers)) == Success(d) && d.action == Revise && d.next == Some(plan[i].stage)
  {
    hide LooksDone;
    IndexIsUnique(plan, i);
    assert VerdictOf(w, VerificationSection) == OtherVerdict && VerdictOf(w, QualityApprovalSection) == OtherVerdict;
    d := RevisionDecision(plan, w, plan[i].stage, Some(handlers)).value;
  }

  lemma RevisionLooks(plan: Plan, p: Progress, pic: Picture, d: Decision, policy: Policy, affected: set<Stage>)
    requires LooksDone(p, pic) && d.next == Some(policy.stage) && d.action == Revise && pic.history != []
    requires forall s :: s in affected <==> Listed(plan, s) && Reaches(plan, s, policy.stage)
    ensures LooksDone(CompletedProgress(Recorded(plan, p, d), policy.stage), AfterRevision(pic, policy, affected))
  {
    hide CompletedProgress, DoneStages, Recorded, Reaches, Listed, Owned, Closed;
    RecordedSets(plan, p, d);
    RecordedTries(plan, p, d);
    CompletedSets(Recorded(plan, p, d), policy.stage);
    CompletedTries(Recorded(plan, p, d), policy.stage);
    forall s ensures s in Elements(Downstream(plan, policy.stage)) <==> s in affected {
      assert s in Downstream(plan, policy.stage) <==> s in affected;
    }
    assert Elements(Downstream(plan, policy.stage)) == affected;
  }

  /** The requested stage is revised. */
  lemma RunRevision(plan: Plan, log: Log, me: Author, handlers: set<Stage>, pic: Picture, i: nat, affected: set<Stage>)
    returns (later: Log)
    requires log != [] && Proper(plan, log) && me.Executor? && MayDecide(plan, log, me) && UniqueStages(plan)
    requires Looks(Head(log), pic) && Calm(pic) && i < |plan| && Requests(pic.history, plan[i].stage)
    requires plan[i].stage != SemanticContract && plan[i].required == [] && plan[i].stage in handlers
    requires SupervisorSection !in plan[i].outputs && SemanticContractSection !in plan[i].outputs
    requires RevisionHistorySection !in plan[i].outputs
    requires forall s :: s in affected <==> Listed(plan, s) && Reaches(plan, s, plan[i].stage)
    ensures later != [] && Proper(plan, later) && MayDecide(plan, later, me)
    ensures Looks(Head(later), AfterRevision(pic, plan[i], affected))
    ensures forall x :: x != SupervisorSection && x != RevisionHistorySection ==>
      && (x in plan[i].outputs ==> At(WrittenAt(later), x) > |log|)
      && (x !in plan[i].outputs ==> At(WrittenAt(later), x) == At(WrittenAt(log), x))
  {
    hide LooksDone, Decide, OutputsPresent, Proper, MayDecide, WrittenAt, MarkedHistory, CompletedProgress;
    hide Recorded, OutputsOf, Owned, Looks, Reaches, Listed;
    var d := RequestIsTaken(plan, Head(log), pic, handlers, i);
    OutputsAtIndex(plan, i);
    LooksHistory(Head(log), pic);
    later := CompleteTurn(plan, log, me, handlers, d, pic.history);
    MarkCloses(pic.history, plan[i].stage);
    RevisionLooks(plan, ProgressOf(Head(log)), pic, d, plan[i], affected);
    AfterLooks(Head(log), Head(later), pic, AfterRevision(pic, plan[i], affected), plan[i].outputs);
  }

  lemma OutputsAtIndex(plan: Plan, i: nat)
    requires UniqueStages(plan) && i < |plan|
    ensures OutputsOf(plan, plan[i].stage) == plan[i].outputs
  {
    IndexIsUnique(plan, i);
  }

  lemma MarkCloses(history: seq<Revision>, t: Stage)
    requires Requests(history, t)
    ensures MarkedHistory(history, t) == Closed(history)
  {
  }

  // ----- The plan -------------------------------------------------------------------------

  function Unguarded(): Plan {
    [Policy(AssetIntelligence, [], [], [AssetsSection], false, 10),
     Policy(AudienceIntelligence, [], [], [AudienceSection], false, 10),
     Policy(ReferenceValidation, [AssetIntelligence, AudienceIntelligence], [], [RevisionHistorySection], false, 10),
     Policy(DesignReview, [AudienceIntelligence], [], [DesignQualitySection, RevisionHistorySection], false, 10)]
  }

  lemma UnguardedStages()
    ensures UniqueStages(Unguarded())
    ensures forall s :: Listed(Unguarded(), s) <==>
      s in {AssetIntelligence, AudienceIntelligence, ReferenceValidation, DesignReview}
    ensures Deps(Unguarded(), AssetIntelligence) == [] && Deps(Unguarded(), AudienceIntelligence) == []
    ensures Deps(Unguarded(), ReferenceValidation) == [AssetIntelligence, AudienceIntelligence]
    ensures Deps(Unguarded(), DesignReview) == [AudienceIntelligence]
  {
    hide Unguarded, Listed, Deps;
    UnguardedIsUnique();
    UnguardedLists();
    UnguardedDeps();
  }

  lemma UnguardedIsUnique()
    ensures UniqueStages(Unguarded())
  {
    hide Unguarded;
    PoliciesAre();
  }

  lemma UnguardedLists()
    ensures forall s :: Listed(Unguarded(), s) <==>
      s in {AssetIntelligence, AudienceIntelligence, ReferenceValidation, DesignReview}
  {
    hide Unguarded;
    PoliciesAre();
    var plan := Unguarded();
    assert plan[0].stage == AssetIntelligence && plan[1].stage == AudienceIntelligence;
    assert plan[2].stage == ReferenceValidation && plan[3].stage == DesignReview;
  }

  lemma UnguardedDeps()
    ensures Deps(Unguarded(), AssetIntelligence) == [] && Deps(Unguarded(), AudienceIntelligence) == []
    ensures Deps(Unguarded(), ReferenceValidation) == [AssetIntelligence, AudienceIntelligence]
    ensures Deps(Unguarded(), DesignReview) == [AudienceIntelligence]
  {
    hide Unguarded, Deps, Listed;
    PoliciesAre();
    UnguardedIsUnique();
    IndexIsUnique(Unguarded(), 0);
    IndexIsUnique(Unguarded(), 1);
    IndexIsUnique(Unguarded(), 2);
    IndexIsUnique(Unguarded(), 3);
  }

  /** Who depends on the audience stage, and who on the asset stage. */
  lemma UnguardedReaches()
    ensures forall s :: s in {AudienceIntelligence, ReferenceValidation, DesignReview} <==>
      Listed(Unguarded(), s) && Reaches(Unguarded(), s, AudienceIntelligence)
    ensures forall s :: s in {AssetIntelligence, ReferenceValidation} <==>
      Listed(Unguarded(), s) && Reaches(Unguarded(), s, AssetIntelligence)
    ensures !Reaches(Unguarded(), DesignReview, ReferenceValidation)
  {
    hide Reaches, Unguarded, Deps, Listed;
    var plan := Unguarded();
    UnguardedStages();
    ReachesSelf(plan, AssetIntelligence);
    ReachesSelf(plan, AudienceIntelligence);
    ReachesStep(plan, ReferenceValidation, AssetIntelligence, AssetIntelligence);
    ReachesStep(plan, ReferenceValidation, AudienceIntelligence, AudienceIntelligence);
    ReachesStep(plan, DesignReview, AudienceIntelligence, AudienceIntelligence);
    UnguardedClosed();
    forall s, t | s in {DesignReview, AudienceIntelligence}
        && Reaches(plan, s, t) ensures t in {DesignReview, AudienceIntelligence} {
      ReachesStaysDown(plan, {DesignReview, AudienceIntelligence}, s, t);
    }
    forall t | Reaches(plan, AssetIntelligence, t) ensures t == AssetIntelligence {
      ReachesStaysDown(plan, {AssetIntelligence}, AssetIntelligence, t);
    }
  }

  lemma UnguardedClosed()
    ensures DependencyClosed(Unguarded(), {DesignReview, AudienceIntelligence})
    ensures DependencyClosed(Unguarded(), {AssetIntelligence})
  {
  }

  /** The plan has all that is asked but one thing. */
  lemma OnlyTheGuardIsMissing()
    ensures Accepted(Unguarded()) && Topological(Unguarded()) && DisjointOutputs(Unguarded())
    ensures !ReviewersGuardTheRest(Unguarded())
  {
    UnguardedIsAccepted();
    UnguardedIsTopological();
    UnguardedIsDisjoint();
    UnguardedReaches();
    var plan := Unguarded();
    assert Reviewer(plan[2]) && plan[3].stage == DesignReview && plan[2].stage == ReferenceValidation;
  }

  lemma UnguardedIsAccepted()
    ensures Accepted(Unguarded())
  {
    hide Deps, Listed, Unguarded, WellFormedPolicy;
    UnguardedPolicies();
    PoliciesAre();
    UnguardedStages();
    var rank: map<Stage, nat> := map s: Stage | true :: Rank(s);
    forall s, d | d in Deps(Unguarded(), s) ensures s in rank && d in rank && rank[d] < rank[s] {
      DepsFall(s, d);
    }
    assert IsRank(Unguarded(), rank);
  }

  function Rank(s: Stage): nat {
    if s in {ReferenceValidation, DesignReview} then 1 else 0
  }

  lemma DepsFall(s: Stage, d: Stage)
    requires d in Deps(Unguarded(), s)
    ensures Rank(d) < Rank(s)
  {
    UnguardedStages();
  }

  lemma UnguardedPolicies()
    ensures KnownDependencies(Unguarded())
    ensures forall i :: 0 <= i < |Unguarded()| ==> WellFormedPolicy(Unguarded()[i])
  {
    hide Listed;
    UnguardedStages();
  }

  lemma UnguardedIsTopological()
    ensures Topological(Unguarded())
  {
    var plan := Unguarded();
    assert plan[0].stage == AssetIntelligence && plan[1].stage == AudienceIntelligence;
  }

  lemma UnguardedIsDisjoint()
    ensures DisjointOutputs(Unguarded())
  {
  }

  // ----- The run --------------------------------------------------------------------------

  const REDO_AUDIENCE: Revision := Revision(Pending, Some(AudienceIntelligence), 0)
  const REDO_ASSETS: Revision := Revision(Pending, Some(AssetIntelligence), 0)

  function Taken(r: Revision): Revision {
    r.(status := RevisionStatus.Completed)
  }

  const ENGINES: set<Stage> := {AssetIntelligence, AudienceIntelligence, ReferenceValidation, DesignReview}

  lemma RequestsAreGood()
    ensures GoodTarget(Unguarded(), DesignReview, AudienceIntelligence)
    ensures GoodTarget(Unguarded(), ReferenceValidation, AssetIntelligence)
  {
    hide Reaches, Unguarded, Listed, Deps;
    UnguardedReaches();
    UnguardedStages();
    PoliciesAre();
    IndexIsUnique(Unguarded(), 0);
    IndexIsUnique(Unguarded(), 1);
  }

  // What the workflow looks like after each turn.

  const SHOWN: set<Section> := {AssetsSection, AudienceSection, DesignQualitySection}

  function Pic0(): Picture {
    Picture({}, {}, 0, [], {})
  }

  function Pic2(): Picture {
    Picture({AssetIntelligence, AudienceIntelligence}, {}, 2, [], {AssetsSection, AudienceSection})
  }

  function Pic4(): Picture {
    Picture(ENGINES, {}, 4, [REDO_AUDIENCE], SHOWN)
  }

  function Pic5(): Picture {
    Picture({AssetIntelligence, AudienceIntelligence}, {ReferenceValidation, DesignReview}, 5, [Taken(REDO_AUDIENCE)],
        SHOWN)
  }

  function Pic6(): Picture {
    Picture({AssetIntelligence, AudienceIntelligence, ReferenceValidation}, {DesignReview}, 6,
            [Taken(REDO_AUDIENCE), REDO_ASSETS], SHOWN)
  }

  function Pic7(): Picture {
    Picture({AssetIntelligence, AudienceIntelligence}, {ReferenceValidation}, 7,
            [Taken(REDO_AUDIENCE), Taken(REDO_ASSETS)], SHOWN)
  }

  function Pic8(): Picture {
    Picture({AssetIntelligence, AudienceIntelligence, ReferenceValidation}, {}, 8,
            [Taken(REDO_AUDIENCE), Taken(REDO_ASSETS)], SHOWN)
  }

  /** The workflow looks so, and the engine may take its next turn. */
  ghost predicate Stands(log: Log, pic: Picture) {
    log != [] && Proper(Unguarded(), log) && MayDecide(Unguarded(), log, ENGINE) && Looks(Head(log), pic)
  }

  /** The facts about a stage that a turn of it needs. */
  lemma Ready(i: nat, done: set<Stage>)
    requires i < 4 && (i >= 2 ==> AudienceIntelligence in done && AssetIntelligence in done)
    ensures
      var policy := Unguarded()[i];
      && policy.required == [] && !policy.optional && policy.stage in ENGINES && policy.maxAttempts == 10
      && policy.stage != SemanticContract
      && (forall x :: x in policy.dependencies ==> x in done)
      && SupervisorSection !in policy.outputs && SemanticContractSection !in policy.outputs
      && (RevisionHistorySection in policy.outputs <==> i >= 2)
  {
  }

  lemma NextIs(i: nat, done: set<Stage>)
    requires i < 4 && Unguarded()[i].stage !in done
    requires i > 0 ==> AssetIntelligence in done
    requires i > 1 ==> AudienceIntelligence in done
    requires i > 2 ==> ReferenceValidation in done
    ensures FirstUndone(Unguarded(), done, i)
  {
  }

  lemma PoliciesAre()
    ensures |Unguarded()| == 4
    ensures Unguarded()[0].stage == AssetIntelligence && Unguarded()[0].outputs == [AssetsSection]
    ensures Unguarded()[1].stage == AudienceIntelligence && Unguarded()[1].outputs == [AudienceSection]
    ensures Unguarded()[2].stage == ReferenceValidation && Unguarded()[2].outputs == [RevisionHistorySection]
    ensures Unguarded()[3].stage == DesignReview
    ensures Unguarded()[3].outputs == [DesignQualitySection, RevisionHistorySection]
    ensures Unguarded()[0].dependencies == [] && Unguarded()[1].dependencies == []
    ensures Unguarded()[2].dependencies == [AssetIntelligence, AudienceIntelligence]
    ensures Unguarded()[3].dependencies == [AudienceIntelligence]
  {
  }

  function Pic1(): Picture {
    Picture({AssetIntelligence}, {}, 1, [], {AssetsSection})
  }

  function Pic3(): Picture {
    Picture({AssetIntelligence, AudienceIntelligence, ReferenceValidation}, {}, 3, [], {AssetsSection, AudienceSection})
  }

  lemma AssetsFirst() returns (log: Log)
    ensures Stands(log, Pic1())
  {
    hide Proper, Looks, MayDecide, WrittenAt, OutputsPresent, Unguarded, Listed, Deps;
    var first := [InitialEntry()];
    PoliciesAre();
    UnguardedStages();
    Ready(0, {});
    NextIs(0, {});
    StartsEmpty(Unguarded(), ENGINE, Pic0());
    NothingShown(Head(first), Pic0(), Unguarded()[0].outputs);
    log := RunFirst(Unguarded(), first, ENGINE, ENGINES, Pic0(), 0, []);
    assert AfterRun(Pic0(), Unguarded()[0], []) == Pic1();
  }

  lemma AudienceFirst(log: Log) returns (later: Log)
    requires Stands(log, Pic1())
    ensures Stands(later, Pic2())
  {
    hide Proper, Looks, MayDecide, WrittenAt, OutputsPresent, Unguarded;
    PoliciesAre();
    UnguardedStages();
    Ready(1, Pic1().done);
    NextIs(1, Pic1().done);
    NothingShown(Head(log), Pic1(), Unguarded()[1].outputs);
    later := RunFirst(Unguarded(), log, ENGINE, ENGINES, Pic1(), 1, []);
    assert AfterRun(Pic1(), Unguarded()[1], []) == Pic2();
  }

  lemma ReferencesFirst(log: Log) returns (later: Log)
    requires Stands(log, Pic2())
    ensures Stands(later, Pic3())
  {
    hide Proper, Looks, MayDecide, WrittenAt, OutputsPresent, Unguarded;
    PoliciesAre();
    UnguardedStages();
    Ready(2, Pic2().done);
    NextIs(2, Pic2().done);
    NoHistoryYet(Head(log), Pic2());
    later := RunFirst(Unguarded(), log, ENGINE, ENGINES, Pic2(), 2, []);
    assert AfterRun(Pic2(), Unguarded()[2], []) == Pic3();
  }

  /** The design review asks to redo the audience. */
  lemma ReviewFirst(log: Log) returns (later: Log)
    requires Stands(log, Pic3())
    ensures Stands(later, Pic4()) && At(WrittenAt(later), DesignQualitySection) > 0
  {
    hide Proper, Looks, MayDecide, WrittenAt, OutputsPresent, Unguarded, GoodTarget;
    PoliciesAre();
    UnguardedStages();
    RequestsAreGood();
    Ready(3, Pic3().done);
    NextIs(3, Pic3().done);
    NothingShown(Head(log), Pic3(), Unguarded()[3].outputs);
    later := RunFirst(Unguarded(), log, ENGINE, ENGINES, Pic3(), 3, [REDO_AUDIENCE]);
    assert AfterRun(Pic3(), Unguarded()[3], [REDO_AUDIENCE]) == Pic4();
  }

  lemma StartsEmpty(plan: Plan, me: Author, pic: Picture)
    requires pic == Picture({}, {}, 0, [], {}) && me.Executor?
    ensures Proper(plan, [InitialEntry()]) && MayDecide(plan, [InitialEntry()], me)
    ensures Looks(Head([InitialEntry()]), pic)
  {
    var log := [InitialEntry()];
    assert log[..0] == [];
    assert HistoryOf(EmptyWorkflow()) == [];
    assert ProgressOf(EmptyWorkflow()) == NO_PROGRESS;
  }

  /** A stage with an output that does not exist cannot be skipped. */
  lemma NothingShown(w: Workflow, pic: Picture, outputs: seq<Section>)
    requires Looks(w, pic) && outputs != [] && outputs[0] !in pic.present
    requires outputs[0] != SupervisorSection && outputs[0] != RevisionHistorySection
    ensures !OutputsPresent(w, outputs)
  {
    hide LooksDone;
    assert w[outputs[0]] == Empty;
  }

  lemma NoHistoryYet(w: Workflow, pic: Picture)
    requires Looks(w, pic) && pic.history == []
    ensures !OutputsPresent(w, [RevisionHistorySection])
  {
    hide LooksDone;
    assert Fits(RevisionHistorySection, w[RevisionHistorySection]);
    assert [RevisionHistorySection][0] == RevisionHistorySection;
  }

  /** The audience is redone. */
  lemma AudienceTurn(log: Log) returns (later: Log)
    requires Stands(log, Pic4()) && 0 < At(WrittenAt(log), DesignQualitySection) <= |log|
    ensures Stands(later, Pic5())
    ensures 0 < At(WrittenAt(later), DesignQualitySection) < At(WrittenAt(later), AudienceSection)
  {
    hide Proper, Looks, MayDecide, WrittenAt, Reaches, Listed, Unguarded;
    var plan := Unguarded();
    PoliciesAre();
    Ready(1, {});
    UnguardedStages();
    UnguardedReaches();
    var affected := {AudienceIntelligence, ReferenceValidation, DesignReview};
    later := RunRevision(plan, log, ENGINE, ENGINES, Pic4(), 1, affected);
    assert AfterRevision(Pic4(), plan[1], affected) == Pic5();
  }

  /** Before the design review can follow, the other reviewing stage asks to redo the assets. */
  lemma RequestTurn(log: Log) returns (later: Log)
    requires Stands(log, Pic5()) && 0 < At(WrittenAt(log), DesignQualitySection) < At(WrittenAt(log), AudienceSection)
    ensures Stands(later, Pic6())
    ensures 0 < At(WrittenAt(later), DesignQualitySection) < At(WrittenAt(later), AudienceSection)
  {
    hide Proper, Looks, MayDecide, WrittenAt, GoodTarget, Appends, Unguarded, OutputsPresent, Listed, PolicyOf, Deps;
    var plan, asked := Unguarded(), [Taken(REDO_AUDIENCE), REDO_ASSETS];
    PoliciesAre();
    Ready(2, Pic5().done);
    NextIs(2, Pic5().done);
    UnguardedStages();
    RequestsAreGood();
    AppendsRequest(plan, [Taken(REDO_AUDIENCE)], asked);
    later := RunFirst(plan, log, ENGINE, ENGINES, Pic5(), 2, asked);
    assert AfterRun(Pic5(), plan[2], asked) == Pic6();
  }

  /** That revision forgets the design review. */
  lemma AssetsTurn(log: Log) returns (later: Log)
    requires Stands(log, Pic6()) && 0 < At(WrittenAt(log), DesignQualitySection) < At(WrittenAt(log), AudienceSection)
    ensures Stands(later, Pic7())
    ensures 0 < At(WrittenAt(later), DesignQualitySection) < At(WrittenAt(later), AudienceSection)
  {
    hide Proper, Looks, MayDecide, WrittenAt, Reaches, Listed, Unguarded;
    var plan := Unguarded();
    PoliciesAre();
    Ready(0, {});
    UnguardedStages();
    UnguardedReaches();
    later := RunRevision(plan, log, ENGINE, ENGINES, Pic6(), 0, {AssetIntelligence, ReferenceValidation});
    assert AfterRevision(Pic6(), plan[0], {AssetIntelligence, ReferenceValidation}) == Pic7();
  }

  lemma ReviewTurn(log: Log) returns (later: Log)
    requires Stands(log, Pic7()) && 0 < At(WrittenAt(log), DesignQualitySection) < At(WrittenAt(log), AudienceSection)
    ensures Stands(later, Pic8())
    ensures 0 < At(WrittenAt(later), DesignQualitySection) < At(WrittenAt(later), AudienceSection)
  {
    hide Proper, Looks, MayDecide, WrittenAt, GoodTarget, Unguarded, OutputsPresent, Listed, PolicyOf, Deps;
    var plan := Unguarded();
    PoliciesAre();
    Ready(2, Pic7().done);
    NextIs(2, Pic7().done);
    UnguardedStages();
    later := RunFirst(plan, log, ENGINE, ENGINES, Pic7(), 2, Pic7().history);
    assert AfterRun(Pic7(), plan[2], Pic7().history) == Pic8();
  }

  lemma AppendsRequest(plan: Plan, before: seq<Revision>, after: seq<Revision>)
    requires after == before + [REDO_ASSETS] && GoodTarget(plan, ReferenceValidation, AssetIntelligence)
    ensures Appends(plan, ReferenceValidation, before, after)
  {
    hide GoodTarget;
    assert after[..|before|] == before;
  }

  /** The design review, forgotten and with its old report, is skipped. */
  lemma SkipsForgotten(log: Log, pic: Picture) returns (later: Log)
    requires log != [] && Proper(Unguarded(), log) && MayDecide(Unguarded(), log, ENGINE)
    requires Looks(Head(log), pic) && Calm(pic) && pic.history != [] && NothingPending(pic.history)
    requires pic.done == {AssetIntelligence, AudienceIntelligence, ReferenceValidation} && pic.stale == {}
    requires DesignQualitySection in pic.present
    ensures later != [] && Proper(Unguarded(), later) && DesignReview in DoneStages(ProgressOf(Head(later)))
    ensures forall x :: x != SupervisorSection ==> At(WrittenAt(later), x) == At(WrittenAt(log), x)
  {
    hide Proper, MayDecide, WrittenAt, Decide, Supervisor.Route, Recorded, Calm, DoneStages;
    var plan, w := Unguarded(), Head(log);
    CalmRoutes(plan, w, pic, Some(ENGINES));
    var d := Decision(Skip, Some(DesignReview), OutputExists, [], [], false);
    SkipIsDecided(w, pic);
    var e := Entry(Some(SupervisorSection),
        Put(w, SupervisorSection, SupervisorProgress(Recorded(plan, ProgressOf(w), d))),
                   ENGINE, Decided(d, Some(ENGINES)));
    DecidedIsLegal(plan, log, e);
    QuietIsDisciplined(plan, log, e);
    ProperExtend(plan, log, e);
    StampsExtend(log, e);
    RecordedSets(plan, ProgressOf(w), d);
    later := log + [e];
    assert Head(later) == e.state;
  }

  lemma SkipIsDecided(w: Workflow, pic: Picture)
    requires Looks(w, pic) && pic.history != []
    requires pic.done == {AssetIntelligence, AudienceIntelligence, ReferenceValidation} && pic.stale == {}
    requires DesignQualitySection in pic.present
    ensures Supervisor.Route(Unguarded(), w, Some(ENGINES)) ==
        Decision(Skip, Some(DesignReview), OutputExists, [], [], false)
  {
    hide LooksDone, DoneStages;
    var plan := Unguarded();
    DoneIs(ProgressOf(w), pic);
    ReportIsThere(w, pic);
    ScanReaches(plan, w, Some(ENGINES), 3, 0);
  }

  lemma ReportIsThere(w: Workflow, pic: Picture)
    requires Looks(w, pic) && pic.history != [] && DesignQualitySection in pic.present
    ensures OutputsPresent(w, [DesignQualitySection, RevisionHistorySection])
  {
    hide LooksDone;
    assert Fits(RevisionHistorySection, w[RevisionHistorySection]);
  }

  /** Without the guard freshness fails: a legal, disciplined run of a plan that lacks nothing else ends with
      the design review done, although the audience it depends on was redone after its report. */
  lemma UnguardedPlanGoesStale() returns (log: Log)
    ensures Accepted(Unguarded()) && Topological(Unguarded()) && DisjointOutputs(Unguarded())
    ensures !ReviewersGuardTheRest(Unguarded())
    ensures log != [] && LegalLog(Unguarded(), log) && DisciplinedLog(Unguarded(), log)
    ensures DesignReview in DoneStages(ProgressOf(Head(log)))
    ensures Reaches(Unguarded(), DesignReview, AudienceIntelligence)
    ensures 0 < At(WrittenAt(log), DesignQualitySection) < At(WrittenAt(log), AudienceSection)
  {
    hide Looks, MayDecide, WrittenAt, LegalLog, DisciplinedLog, Accepted, Topological, DisjointOutputs;
    hide ReviewersGuardTheRest, Reaches, DoneStages;
    OnlyTheGuardIsMissing();
    UnguardedReaches();
    log := AssetsFirst();
    log := AudienceFirst(log);
    log := ReferencesFirst(log);
    log := ReviewFirst(log);
    StampsAreVersions(log);
    log := AudienceTurn(log);
    log := RequestTurn(log);
    log := AssetsTurn(log);
    log := ReviewTurn(log);
    log := SkipsForgotten(log, Pic8());
  }
}
