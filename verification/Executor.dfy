/** The executor, verified against arbitrary interference by all other writers between any two of
    its steps: every entry it leaves is legal, and it leaves what its loop promises. */
module Executors {
  import opened Vocabulary
  import opened StageGraph
  import opened Workflows
  import opened Supervisor
  import opened VersionLog
  import opened CheckpointStores
  import JobQueue

  /** How execute ends: it returns, raises NonRetryableJobError, or raises anything else. */
  datatype Outcome = Returned | NonRetryable | Raised

  /** A handler's result, or the exception it raised. */
  datatype HandlerResult = Outputs(values: map<Section, Value>) | HandlerFailed(retryable: bool)

  /** One execution of a handler: of which stage, on what it read, and how it ended. */
  datatype HandlerCall = HandlerCall(stage: Stage, context: Checkpoint, result: HandlerResult)

  /** A writer holds the version its newest entry created, with k outputs of a run written. */
  ghost predicate Holds(plan: Plan, log: Log, me: Author, c: Checkpoint, run: Run, k: nat) {
    && 1 <= c.version <= |log|
    && log[c.version - 1].state == c.state
    && NewestBy(log, me) == Some(c.version - 1)
    && OpenOf(plan, log[..c.version]) == Open(me, run, k)
  }

  lemma HoldsThroughInterference(plan: Plan, log: Log, later: Log, me: Author, c: Checkpoint, run: Run, k: nat)
    requires Guaranteed(plan, log, me) && Extends(log, later, me) && Holds(plan, log, me, c, run, k)
    ensures Guaranteed(plan, later, me) && Holds(plan, later, me, c, run, k)
  {
    hide OpenOf, Guaranteed, NewestBy;
    OthersPreserve(plan, log, later, me);
    assert later[..c.version] == log[..c.version];
  }

  lemma MayDecideThroughInterference(plan: Plan, log: Log, later: Log, me: Author)
    requires Guaranteed(plan, log, me) && Extends(log, later, me) && MayDecide(plan, log, me)
    ensures Guaranteed(plan, later, me) && MayDecide(plan, later, me)
  {
    hide Free, Guaranteed, NewestBy;
    OthersPreserve(plan, log, later, me);
  }

  /** An accepted write by the holder of the newest version continues its run. */
  lemma HolderWrote(plan: Plan, log: Log, e: Entry, run: Run, k: nat)
    requires log != [] && Guaranteed(plan, log, e.author) && Legal(plan, log, e)
    requires OpenAfter(plan, |log| + 1, e) == Open(e.author, run, k)
    ensures Guaranteed(plan, log + [e], e.author)
    ensures Holds(plan, log + [e], e.author, Checkpoint(|log| + 1, e.state), run, k)
  {
    hide Legal, Guaranteed, NewestBy;
    GuaranteedExtend(plan, log, e);
    assert (log + [e])[..|log| + 1] == log + [e];
  }

  /** Writing the next output is legal from any log on which the run is open. */
  lemma OutputIsLegal(plan: Plan, me: Author, run: Run, k: nat, held: Checkpoint, value: Value)
    requires Accepted(plan) && k < |OutputsOf(plan, run.stage)|
    requires Fits(OutputsOf(plan, run.stage)[k], value)
    requires OutputsOf(plan, run.stage)[k] == SemanticContractSection ==>
      Present(value) && (Present(held.state[SemanticContractSection]) ==> held.state[SemanticContractSection] == value)
    ensures forall log: Log ::
      log != [] && OpenOf(plan, log) == Open(me, run, k) && Head(log) == held.state && |log| == held.version ==>
        var e := Entry(Some(OutputsOf(plan, run.stage)[k]), Put(held.state, OutputsOf(plan, run.stage)[k], value), me,
            Produced(run, k));
        Legal(plan, log, e) && OpenAfter(plan, |log| + 1, e) == Open(me, run, k + 1)
  {
    hide Accepted, MayDecide, Decide, Recorded, MarkedHistory, Free, OpenOf;
  }

  lemma MarkIsLegal(plan: Plan, me: Author, run: Run, held: Checkpoint)
    requires MarkingChanges(held.state, run.stage)
    ensures forall log: Log ::
      log != [] && OpenOf(plan, log) == Open(me, run, |OutputsOf(plan, run.stage)|) && Head(log) == held.state
          && |log| == held.version ==>
        var e := Entry(Some(RevisionHistorySection),
                       Put(held.state, RevisionHistorySection,
                           History(MarkedHistory(HistoryOf(held.state), run.stage))),
                       me, Marked(run));
        Legal(plan, log, e) && OpenAfter(plan, |log| + 1, e) == Open(me, run, |OutputsOf(plan, run.stage)|)
  {
    hide MayDecide, Decide, Recorded, MarkedHistory, Free, OpenOf;
  }

  /** An accepted completion write is legal and leaves its writer free to decide again. */
  lemma CommitIsLegal(plan: Plan, log: Log, me: Author, held: Checkpoint, run: Run)
    requires log != [] && Guaranteed(plan, log, me) && held.version == |log|
    requires Holds(plan, log, me, held, run, |OutputsOf(plan, run.stage)|) && !MarkingChanges(held.state, run.stage)
    ensures
      var e := Entry(Some(SupervisorSection),
                     Put(held.state, SupervisorSection,
                         SupervisorProgress(CompletedProgress(ProgressOf(held.state), run.stage))),
                     me, Committed(run));
      Guaranteed(plan, log + [e], me) && MayDecide(plan, log + [e], me)
  {
    hide Decide, Recorded, MarkedHistory, OpenOf, Guaranteed, NewestBy, CompletedProgress;
    var e := Entry(Some(SupervisorSection),
                   Put(held.state, SupervisorSection,
                       SupervisorProgress(CompletedProgress(ProgressOf(held.state), run.stage))),
                   me, Committed(run));
    assert log[..|log|] == log;
    assert Legal(plan, log, e);
    GuaranteedExtend(plan, log, e);
  }

  /** With only the completion write left, its rejection sends the executor back to its loop. */
  lemma AtCommitIsFree(plan: Plan, log: Log, me: Author, held: Checkpoint, run: Run)
    requires Holds(plan, log, me, held, run, |OutputsOf(plan, run.stage)|) && !MarkingChanges(held.state, run.stage)
    ensures MayDecide(plan, log, me)
  {
    hide MarkedHistory, Guaranteed, NewestBy;
    assert Last(log[..held.version]) == log[held.version - 1];
  }

  /** Nothing after a writer's newest entry is its own. */
  lemma {:induction false} NewestIsNewest(log: Log, me: Author, v: nat)
    requires NewestBy(log, me).Some? && NewestBy(log, me).value < v < |log|
    ensures log[v].author != me
    decreases |log|
  {
    if v < |log| - 1 {
      NewestIsNewest(log[..|log| - 1], me, v);
    }
  }

  lemma RejectedIsLost(plan: Plan, log: Log, me: Author, held: Checkpoint, run: Run, k: nat)
    requires Holds(plan, log, me, held, run, k) && held.version != |log|
    ensures Lost(log, held, me)
  {
    hide OpenOf, NewestBy;
    NewestIsNewest(log, me, held.version);
  }

  lemma AtCommitIsFinished(plan: Plan, log: Log, me: Author, held: Checkpoint, run: Run)
    requires Holds(plan, log, me, held, run, |OutputsOf(plan, run.stage)|) && !MarkingChanges(held.state, run.stage)
    requires held.version != |log|
    ensures Finished(plan, log, me, run)
  {
    hide MarkedHistory, NewestBy, OpenOf;
  }

  lemma NewestIsCommit(plan: Plan, log: Log, e: Entry, run: Run)
    requires e.note == Committed(run)
    ensures Finished(plan, log + [e], e.author, run)
  {
    hide OpenOf;
  }

  lemma HolderIsHead(plan: Plan, log: Log, me: Author, held: Checkpoint, run: Run, k: nat)
    requires Holds(plan, log, me, held, run, k) && held.version == |log|
    ensures Head(log) == held.state
  {
  }

  /** Marking the history changes no progress and leaves nothing to mark. */
  lemma MarkSettles(w: Workflow, s: Stage)
    requires MarkingChanges(w, s)
    ensures
      var w2 := Put(w, RevisionHistorySection, History(MarkedHistory(HistoryOf(w), s)));
      ProgressOf(w2) == ProgressOf(w) && !MarkingChanges(w2, s)
  {
    hide MarkedHistory;
    var w2 := Put(w, RevisionHistorySection, History(MarkedHistory(HistoryOf(w), s)));
    MarkingClosesThePendingRevision(w, s);
    MarkingClosesThePendingRevision(w2, s);
  }

  /** The newest entry by a writer is this decision, and the version it created is held. */
  ghost predicate DecisionStands(plan: Plan, log: Log, me: Author, d: Decision, c: Checkpoint) {
    && 1 <= c.version <= |log|
    && NewestBy(log, me) == Some(c.version - 1)
    && log[c.version - 1].note.Decided?
    && log[c.version - 1].note.decision == d
    && (Runs(d) ==> Holds(plan, log, me, c, Run(d.next.value, d.action, c.version), 0))
  }

  lemma DecisionIsLegal(plan: Plan, log: Log, me: Author, d: Decision, available: Option<set<Stage>>)
    requires log != [] && me.Executor? && Guaranteed(plan, log, me) && MayDecide(plan, log, me)
    requires Decide(plan, Head(log), available) == Success(d)
    ensures
      var e := Entry(Some(SupervisorSection),
                     Put(Head(log), SupervisorSection, SupervisorProgress(Recorded(plan, ProgressOf(Head(log)), d))),
                     me, Decided(d, available));
      && Guaranteed(plan, log + [e], me)
      && DecisionStands(plan, log + [e], me, d, Checkpoint(|log| + 1, e.state))
  {
    hide Decide, Recorded, MayDecide, Guaranteed, NewestBy;
    var e := Entry(Some(SupervisorSection),
                   Put(Head(log), SupervisorSection, SupervisorProgress(Recorded(plan, ProgressOf(Head(log)), d))),
                   me, Decided(d, available));
    assert Legal(plan, log, e);
    GuaranteedExtend(plan, log, e);
    assert (log + [e])[..|log| + 1] == log + [e];
  }

  lemma SkipIsFree(plan: Plan, log: Log, me: Author, d: Decision, c: Checkpoint)
    requires DecisionStands(plan, log, me, d, c) && d.action == Skip
    ensures MayDecide(plan, log, me)
  {
  }

  /** A decision to run always names a stage of the plan: execute's guard against a missing one is
      never taken. */
  lemma RunningStageIsListed(plan: Plan, w: Workflow, available: Option<set<Stage>>, d: Decision)
    requires Decide(plan, w, available) == Success(d) && d.action != Skip && d.action != Stop
    ensures Runs(d) && Listed(plan, d.next.value)
  {
    hide Decide, Consider;
    ActionOrigin(plan, w, available);
    if d.action != Revise {
      var j :| 0 <= j < |plan| && Scan(plan, 0, w, available) == Consider(plan[j], w, available);
      ConsiderActions(plan[j], w, available);
    }
  }

  // ----- What a turn leaves behind --------------------------------------------------------

  /** Someone else wrote the version that was to follow c. */
  ghost predicate Lost(log: Log, c: Checkpoint, me: Author) {
    c.version < |log| && log[c.version].author != me
  }

  /** All outputs of the run are written and no request is left to close; the completion write
      followed at once, unless another writer came first. */
  ghost predicate Finished(plan: Plan, log: Log, me: Author, run: Run) {
    var newest := NewestBy(log, me);
    && newest.Some?
    && var i := newest.value;
       || log[i].note == Committed(run)
       || (&& i + 1 < |log|
           && OpenOf(plan, log[..i + 1]) == Open(me, run, |OutputsOf(plan, run.stage)|)
           && !MarkingChanges(log[i].state, run.stage))
  }

  /** The run stopped where it was: so many of its outputs written, and nothing after them. */
  ghost predicate Abandoned(plan: Plan, log: Log, me: Author, run: Run) {
    exists c, k :: Holds(plan, log, me, c, run, k)
  }

  /** One turn of the loop took log to later: it decided on some version v, and either lost the race
      to record the decision or recorded it and did what the decision says. */
  ghost predicate TurnFrom(plan: Plan, handlers: set<Stage>, me: Author, log: Log, later: Log, ended: Option<Outcome>,
                           v: nat) {
    && |log| <= v <= |later|
    && v > 0
    && Extends(log, later[..v], me)
    && match Decide(plan, later[v - 1].state, Some(handlers))
       case Failure(_) => ended == Some(Raised) && Extends(log, later, me)
       case Success(d) =>
         || (ended == None && Extends(log, later, me) && Lost(later, Checkpoint(v, later[v - 1].state), me))
         || (v < |later| && later[v].author == me && later[v].note == Decided(d, Some(handlers))
             && Obeyed(plan, me, later, d, ended, v))
  }

  ghost predicate Obeyed(plan: Plan, me: Author, later: Log, d: Decision, ended: Option<Outcome>, v: nat) {
    match d.action
    case Skip => ended == None && NewestBy(later, me) == Some(v)
    case Stop => ended == Some(if d.reason == WorkflowComplete then Returned else NonRetryable)
        && NewestBy(later, me) == Some(v)
    case _ =>
      && d.next.Some?
      && ended != Some(Returned)
      && var run := Run(d.next.value, d.action, v + 1);
         if ended == None then Finished(plan, later, me, run) else Abandoned(plan, later, me, run)
  }

  ghost predicate TurnMade(plan: Plan, handlers: set<Stage>, me: Author, log: Log, later: Log, ended: Option<Outcome>) {
    log <= later && exists v :: TurnFrom(plan, handlers, me, log, later, ended, v)
  }

  // ----- What a turn answers to the handler -----------------------------------------------

  /** A document that is not a contract, or not the one already stored. */
  predicate BreaksContract(isContract: Value -> bool, w: Workflow, contract: Value) {
    !isContract(contract) || (Present(w[SemanticContractSection]) && w[SemanticContractSection] != contract)
  }

  /** The run's output j is in the log, with the handler's value. */
  ghost predicate StoredAt(plan: Plan, log: Log, run: Run, values: map<Section, Value>, j: nat)
    requires j < |OutputsOf(plan, run.stage)|
  {
    var x := OutputsOf(plan, run.stage)[j];
    && run.base + j < |log|
    && x in values
    && Fits(x, values[x])
    && log[run.base + j].changed == Some(x)
    && log[run.base + j].state[x] == values[x]
  }

  /** The run's first k outputs are in the log one after the other, each with the handler's value. */
  ghost predicate Stored(plan: Plan, log: Log, run: Run, values: map<Section, Value>, k: nat) {
    k <= |OutputsOf(plan, run.stage)| && forall j :: 0 <= j < k ==> StoredAt(plan, log, run, values, j)
  }

  /** A run on which c is held stopped after k outputs, and why: other sections than the stage's own
      and a document that breaks the contract are errors for good; a value of the wrong shape and a
      version somebody else took are not. */
  ghost predicate Stopped(plan: Plan, isContract: Value -> bool, me: Author, log: Log, run: Run,
                          values: map<Section, Value>, outcome: Outcome, c: Checkpoint, k: nat) {
    var outputs := OutputsOf(plan, run.stage);
    && Holds(plan, log, me, c, run, k)
    && if values.Keys != Elements(outputs) then k == 0 && outcome == NonRetryable
       else
         && Stored(plan, log, run, values, k)
         && if k < |outputs| && !Fits(outputs[k], values[outputs[k]]) then outcome == Raised
            else if outcome == NonRetryable then
              && k < |outputs| && outputs[k] == SemanticContractSection
              && BreaksContract(isContract, c.state, values[SemanticContractSection])
            else outcome == Raised && Lost(log, c, me)
  }

  /** What an execution answers to its handler. The handler reads the version its decision made. Its
      own failure is passed on as it is, with none of the outputs written; what it returned is either
      stored whole, or refused where the run stopped. */
  ghost predicate Answered(plan: Plan, isContract: Value -> bool, me: Author, log: Log, run: Run, call: HandlerCall,
                           ended: Option<Outcome>) {
    && 0 < run.base <= |log|
    && call.stage == run.stage
    && call.context == Checkpoint(run.base, log[run.base - 1].state)
    && match call.result
       case HandlerFailed(retryable) =>
         && ended == Some(if retryable then Raised else NonRetryable)
         && Holds(plan, log, me, call.context, run, 0)
       case Outputs(values) =>
         var outputs := OutputsOf(plan, run.stage);
         if ended.Some? then exists c, k :: Stopped(plan, isContract, me, log, run, values, ended.value, c, k)
         else values.Keys == Elements(outputs) && Stored(plan, log, run, values, |outputs|)
  }

  /** A turn, and what it answered if it came to run a handler. */
  ghost predicate AnsweredFrom(plan: Plan, isContract: Value -> bool, handlers: set<Stage>, me: Author, log: Log,
                               later: Log, ended: Option<Outcome>, call: Option<HandlerCall>, v: nat) {
    && TurnFrom(plan, handlers, me, log, later, ended, v)
    && (call.Some? ==>
         && v < |later| && later[v].author == me && later[v].note.Decided? && Runs(later[v].note.decision)
         && var d := later[v].note.decision;
            Answered(plan, isContract, me, later, Run(d.next.value, d.action, v + 1), call.value, ended))
    && (call.None? ==> v == |later| || later[v].author != me
                       || (later[v].note.Decided? && later[v].note.decision.action in {Skip, Stop}))
  }

  ghost predicate TurnAnswered(plan: Plan, isContract: Value -> bool, handlers: set<Stage>, me: Author, log: Log,
                               later: Log, ended: Option<Outcome>, call: Option<HandlerCall>) {
    log <= later && exists v :: AnsweredFrom(plan, isContract, handlers, me, log, later, ended, call, v)
  }

  lemma AnsweredFromIsTurn(plan: Plan, isContract: Value -> bool, handlers: set<Stage>, me: Author, log: Log,
                           later: Log, ended: Option<Outcome>, call: Option<HandlerCall>, v: nat)
    requires log <= later && AnsweredFrom(plan, isContract, handlers, me, log, later, ended, call, v)
    ensures TurnAnswered(plan, isContract, handlers, me, log, later, ended, call)
  {
  }

  lemma FailedTurn(plan: Plan, isContract: Value -> bool, handlers: set<Stage>, me: Author, log: Log, later: Log)
    requires Extends(log, later, me) && later != []
    requires Decide(plan, Head(later), Some(handlers)).Failure?
    ensures TurnAnswered(plan, isContract, handlers, me, log, later, Some(Raised), None)
  {
    hide Decide, Obeyed, Answered, TurnAnswered;
    assert later[..|later|] == later;
    AnsweredFromIsTurn(plan, isContract, handlers, me, log, later, Some(Raised), None, |later|);
  }

  lemma LostTurn(plan: Plan, isContract: Value -> bool, handlers: set<Stage>, me: Author, log: Log, later: Log,
                 d: Decision, v: nat)
    requires Extends(log, later, me) && 0 < v && |log| <= v < |later|
    requires Decide(plan, later[v - 1].state, Some(handlers)) == Success(d)
    ensures TurnAnswered(plan, isContract, handlers, me, log, later, None, None)
  {
    hide Decide, Obeyed, Answered, TurnAnswered;
    AnsweredFromIsTurn(plan, isContract, handlers, me, log, later, None, None, v);
  }

  lemma ObeyedTurn(plan: Plan, isContract: Value -> bool, handlers: set<Stage>, me: Author, log: Log, later: Log,
                   d: Decision, ended: Option<Outcome>, v: nat, call: Option<HandlerCall>)
    requires 0 < v && |log| <= v < |later| && log <= later && Extends(log, later[..v], me)
    requires Decide(plan, later[v - 1].state, Some(handlers)) == Success(d)
    requires later[v].author == me && later[v].note == Decided(d, Some(handlers))
    requires Obeyed(plan, me, later, d, ended, v)
    requires call.None? <==> d.action in {Skip, Stop}
    requires d.action !in {Skip, Stop} ==> Runs(d)
    requires call.Some? ==> Answered(plan, isContract, me, later, Run(d.next.value, d.action, v + 1), call.value, ended)
    ensures TurnAnswered(plan, isContract, handlers, me, log, later, ended, call)
  {
    hide Decide, Obeyed, Answered, TurnAnswered;
    AnsweredFromIsTurn(plan, isContract, handlers, me, log, later, ended, call, v);
  }

  lemma AnsweredIsMade(plan: Plan, isContract: Value -> bool, handlers: set<Stage>, me: Author, log: Log, later: Log,
                       ended: Option<Outcome>, call: Option<HandlerCall>)
    requires TurnAnswered(plan, isContract, handlers, me, log, later, ended, call)
    ensures TurnMade(plan, handlers, me, log, later, ended)
  {
    hide TurnFrom, Answered;
    var v: nat :| AnsweredFrom(plan, isContract, handlers, me, log, later, ended, call, v);
    assert TurnFrom(plan, handlers, me, log, later, ended, v);
  }

  lemma StandsOnItsVersion(plan: Plan, log: Log, me: Author, d: Decision, c: Checkpoint)
    requires DecisionStands(plan, log, me, d, c) && Runs(d)
    ensures 1 <= c.version <= |log| && log[c.version - 1].state == c.state
    ensures Holds(plan, log, me, c, Run(d.next.value, d.action, c.version), 0)
  {
  }

  lemma NothingStored(plan: Plan, log: Log, run: Run, values: map<Section, Value>)
    ensures Stored(plan, log, run, values, 0)
  {
  }

  lemma StoredStays(plan: Plan, log: Log, later: Log, run: Run, values: map<Section, Value>, k: nat)
    requires Stored(plan, log, run, values, k) && log <= later
    ensures Stored(plan, later, run, values, k)
  {
    hide Fits, OutputsOf, StoredAt;
    forall j | 0 <= j < k ensures StoredAt(plan, later, run, values, j) {
      StoredAtStays(plan, log, later, run, values, j);
    }
  }

  lemma StoredAtStays(plan: Plan, log: Log, later: Log, run: Run, values: map<Section, Value>, j: nat)
    requires j < |OutputsOf(plan, run.stage)| && StoredAt(plan, log, run, values, j) && log <= later
    ensures StoredAt(plan, later, run, values, j)
  {
    hide Fits, OutputsOf;
  }

  lemma StoredNext(plan: Plan, log: Log, run: Run, values: map<Section, Value>, k: nat)
    requires Stored(plan, log, run, values, k) && k < |OutputsOf(plan, run.stage)|
    requires StoredAt(plan, log, run, values, k)
    ensures Stored(plan, log, run, values, k + 1)
  {
    hide StoredAt, OutputsOf;
  }

  /** Of the outputs, the first k have the handler's values, and nothing else changed. */
  ghost predicate Replaced(outputs: seq<Section>, values: map<Section, Value>, k: nat, before: Workflow,
                           after: Workflow)
    requires k <= |outputs| && values.Keys == Elements(outputs)
  {
    forall x: Section ::
      && (x in outputs[..k] ==> x in Elements(outputs) && after[x] == values[x])
      && (x !in outputs[..k] ==> after[x] == before[x])
  }

  lemma ReplacedNext(outputs: seq<Section>, values: map<Section, Value>, k: nat, before: Workflow, after: Workflow,
                     next: Workflow)
    requires k < |outputs| && values.Keys == Elements(outputs) && Replaced(outputs, values, k, before, after)
    requires Fits(outputs[k], values[outputs[k]]) && next == Put(after, outputs[k], values[outputs[k]])
    ensures Replaced(outputs, values, k + 1, before, next)
  {
    hide Fits;
    assert outputs[..k + 1] == outputs[..k] + [outputs[k]];
  }

  lemma ReplacedNothing(outputs: seq<Section>, values: map<Section, Value>, before: Workflow)
    requires values.Keys == Elements(outputs)
    ensures Replaced(outputs, values, 0, before, before)
  {
  }

  lemma ReplacedAll(outputs: seq<Section>, values: map<Section, Value>, before: Workflow, after: Workflow)
    requires values.Keys == Elements(outputs) && Replaced(outputs, values, |outputs|, before, after)
    ensures forall x: Section :: after[x] == if x in values then values[x] else before[x]
  {
    assert outputs[..|outputs|] == outputs;
    assert forall x: Section :: x in values <==> x in Elements(outputs);
  }

  lemma StoppedOnSections(plan: Plan, isContract: Value -> bool, me: Author, log: Log, run: Run,
                          values: map<Section, Value>, c: Checkpoint)
    requires Holds(plan, log, me, c, run, 0) && values.Keys != Elements(OutputsOf(plan, run.stage))
    ensures Stopped(plan, isContract, me, log, run, values, NonRetryable, c, 0)
  {
    hide Holds;
  }

  lemma StoppedOnOutput(plan: Plan, isContract: Value -> bool, me: Author, log: Log, run: Run,
                        values: map<Section, Value>, outcome: Outcome, c: Checkpoint, k: nat)
    requires Holds(plan, log, me, c, run, k) && Stored(plan, log, run, values, k)
    requires values.Keys == Elements(OutputsOf(plan, run.stage)) && k < |OutputsOf(plan, run.stage)|
    requires outcome != Returned
    requires
      var x := OutputsOf(plan, run.stage)[k];
      && x in values
      && (outcome == NonRetryable ==>
            x == SemanticContractSection && Fits(x, values[x]) && BreaksContract(isContract, c.state, values[x]))
      && (outcome == Raised ==> !Fits(x, values[x]) || Lost(log, c, me))
    ensures Stopped(plan, isContract, me, log, run, values, outcome, c, k)
  {
    hide Holds, Stored, Fits, Lost, OutputsOf, BreaksContract;
  }

  lemma StoppedOnMark(plan: Plan, isContract: Value -> bool, me: Author, log: Log, run: Run,
                      values: map<Section, Value>, c: Checkpoint)
    requires Holds(plan, log, me, c, run, |OutputsOf(plan, run.stage)|) && Lost(log, c, me)
    requires Stored(plan, log, run, values, |OutputsOf(plan, run.stage)|)
    requires values.Keys == Elements(OutputsOf(plan, run.stage))
    ensures Stopped(plan, isContract, me, log, run, values, Raised, c, |OutputsOf(plan, run.stage)|)
  {
    hide Holds, Stored, Fits, Lost, OutputsOf, BreaksContract;
  }

  /** What stopped stands where it stopped. */
  lemma AnsweredIsObeyed(plan: Plan, isContract: Value -> bool, me: Author, log: Log, run: Run, call: HandlerCall,
                         ended: Option<Outcome>)
    requires Answered(plan, isContract, me, log, run, call, ended)
    ensures ended != Some(Returned)
    ensures ended.Some? ==> Abandoned(plan, log, me, run)
  {
    hide Holds, Stored, Fits, Lost, OutputsOf, BreaksContract;
    if ended.Some? && call.result.Outputs? {
      var c, k :| Stopped(plan, isContract, me, log, run, call.result.values, ended.value, c, k);
    }
  }

  /** The logs between the turns of one execution that went on. */
  ghost predicate Trail(plan: Plan, handlers: set<Stage>, me: Author, logs: seq<Log>) {
    |logs| > 0 && forall i :: 0 <= i < |logs| - 1 ==> TurnMade(plan, handlers, me, logs[i], logs[i + 1], None)
  }

  class PostSupervisorExecutor {
    const plan: Plan
    const handlers: set<Stage>
    const maxDecisions: nat
    const store: CheckpointStore
    // Whether a document reads as a semantic contract.
    const isContract: Value -> bool
    ghost const me: Author

    constructor (plan: Plan, handlers: set<Stage>, maxDecisions: nat, store: CheckpointStore, isContract: Value -> bool,
                 ghost me: Author)
      requires 1 <= maxDecisions <= 1000
      ensures this.plan == plan && this.handlers == handlers && this.maxDecisions == maxDecisions
      ensures this.store == store && this.isContract == isContract && this.me == me
    {
      this.plan, this.handlers, this.maxDecisions := plan, handlers, maxDecisions;
      this.store, this.isContract, this.me := store, isContract, me;
    }

    /** The executor's standing assumptions and promise; nothing empty reads as a contract. */
    ghost predicate Sound()
      reads this, store
    {
      && Accepted(plan) && me.Executor?
      && (forall v :: isContract(v) ==> Present(v))
      && store.Valid()
      && Guaranteed(plan, store.Log(), me)
    }

    /** A registered handler: any outputs whatever, or any exception. */
    method RunHandler(stage: Stage, context: Checkpoint) returns (r: HandlerResult, ghost call: HandlerCall)
      ensures call == HandlerCall(stage, context, r)
    {
      r := *;
      call := HandlerCall(stage, context, r);
    }

    /** One guarded write of this executor, with anything by others before it. */
    method Write(section: Section, value: Value, held: Checkpoint, ghost run: Run, ghost k: nat, ghost note: Note,
                 ghost k2: nat)
      returns (r: Option<Checkpoint>)
      requires Sound() && store.found && Fits(section, value) && Holds(plan, store.Log(), me, held, run, k)
      requires forall log: Log ::
        log != [] && OpenOf(plan, log) == Open(me, run, k) && Head(log) == held.state && |log| == held.version ==>
          var e := Entry(Some(section), Put(held.state, section, value), me, note);
          Legal(plan, log, e) && OpenAfter(plan, |log| + 1, e) == Open(me, run, k2)
      modifies store
      ensures Sound() && old(store.Log()) <= store.Log()
      ensures r.Some? ==>
        && Holds(plan, store.Log(), me, r.value, run, k2)
        && r.value == Checkpoint(held.version + 1, Put(held.state, section, value))
        && held.version < |store.Log()| && store.Log()[held.version].changed == Some(section)
        && store.Log()[held.version].state == r.value.state
      ensures r.None? ==> Holds(plan, store.Log(), me, held, run, k) && Lost(store.Log(), held, me)
    {
      hide Legal, Guaranteed, NewestBy, OpenOf, OpenAfter;
      hide CheckpointStore.Valid, CheckpointStore.Log;
      store.Others(me);
      HoldsThroughInterference(plan, old(store.Log()), store.Log(), me, held, run, k);
      ghost var log := store.Log();
      r := store.WriteSection(section, value, held.version, me, note);
      if r.Some? {
        assert log[..|log|] == log;
        ghost var e := Entry(Some(section), Put(held.state, section, value), me, note);
        HolderWrote(plan, log, e, run, k2);
      } else {
        RejectedIsLost(plan, log, me, held, run, k);
      }
    }

    /** One output of _persist_stage_outputs' loop. */
    method PersistOutput(ghost values: map<Section, Value>, value: Value, held: Checkpoint, ghost run: Run,
                         ghost k: nat, section: Section)
      returns (failure: Option<Outcome>, current: Checkpoint)
      requires Sound() && store.found && k < |OutputsOf(plan, run.stage)| && OutputsOf(plan, run.stage)[k] == section
      requires Holds(plan, store.Log(), me, held, run, k) && held.version == run.base + k
      requires values.Keys == Elements(OutputsOf(plan, run.stage)) && section in values && values[section] == value
      requires Stored(plan, store.Log(), run, values, k)
      modifies store
      ensures Sound() && old(store.Log()) <= store.Log()
      ensures failure.None? ==>
        && Holds(plan, store.Log(), me, current, run, k + 1) && Fits(section, value)
        && current == Checkpoint(held.version + 1, Put(held.state, section, value))
        && Stored(plan, store.Log(), run, values, k + 1)
      ensures failure.Some? ==>
        current == held && Stopped(plan, isContract, me, store.Log(), run, values, failure.value, held, k)
    {
      hide Legal, Guaranteed, Holds, Accepted, Lost, Present, Fits, OpenOf, Stored, Stopped, OutputsOf, NewestBy;
      hide CheckpointStore.Valid, CheckpointStore.Log;
      current := held;
      if !Fits(section, value) {
        StoppedOnOutput(plan, isContract, me, store.Log(), run, values, Raised, held, k);
        return Some(Raised), current;
      }
      if section == SemanticContractSection && !isContract(value) {
        StoppedOnOutput(plan, isContract, me, store.Log(), run, values, NonRetryable, held, k);
        return Some(NonRetryable), current;
      }
      if section == SemanticContractSection && Present(current.state[section]) && current.state[section] != value {
        StoppedOnOutput(plan, isContract, me, store.Log(), run, values, NonRetryable, held, k);
        return Some(NonRetryable), current;
      }
      OutputIsLegal(plan, me, run, k, current, value);
      ghost var log := store.Log();
      var updated := Write(section, value, current, run, k, Produced(run, k), k + 1);
      StoredStays(plan, log, store.Log(), run, values, k);
      if updated.None? {
        StoppedOnOutput(plan, isContract, me, store.Log(), run, values, Raised, held, k);
        return Some(Raised), current;
      }
      StoredNext(plan, store.Log(), run, values, k);
      failure, current := None, updated.value;
    }

    /** _persist_stage_outputs: the outputs in the policy's order, each guarded by the version the
        previous one created. Success leaves exactly the handler's values in exactly its sections; a
        failure leaves the run where it stopped, with the outputs before that point stored. */
    method PersistStageOutputs(values: map<Section, Value>, held: Checkpoint, ghost run: Run, stage: Stage)
      returns (failure: Option<Outcome>, current: Checkpoint)
      requires Sound() && store.found && Listed(plan, stage) && run.stage == stage && run.base == held.version
      requires Holds(plan, store.Log(), me, held, run, 0)
      modifies store
      ensures Sound() && old(store.Log()) <= store.Log()
      ensures failure.None? ==>
        && values.Keys == Elements(OutputsOf(plan, stage))
        && Holds(plan, store.Log(), me, current, run, |OutputsOf(plan, stage)|)
        && Stored(plan, store.Log(), run, values, |OutputsOf(plan, stage)|)
        && forall x: Section :: current.state[x] == if x in values then values[x] else held.state[x]
      ensures failure.Some? ==>
        exists k :: Stopped(plan, isContract, me, store.Log(), run, values, failure.value, current, k)
    {
      hide Legal, Guaranteed, Holds, Accepted, Lost, Fits, Present, Stored, Stopped, BreaksContract, Replaced;
      hide OpenOf, NewestBy, MarkedHistory, OutputsOf, CheckpointStore.Valid, CheckpointStore.Log;
      var outputs := OutputsOf(plan, stage);
      current := held;
      if values.Keys != Elements(outputs) {
        StoppedOnSections(plan, isContract, me, store.Log(), run, values, held);
        return Some(NonRetryable), current;
      }
      NothingStored(plan, store.Log(), run, values);
      ReplacedNothing(outputs, values, held.state);
      for k := 0 to |outputs|
        invariant Sound() && old(store.Log()) <= store.Log()
        invariant Holds(plan, store.Log(), me, current, run, k) && current.version == run.base + k
        invariant Stored(plan, store.Log(), run, values, k)
        invariant Replaced(outputs, values, k, held.state, current.state)
      {
        var section := outputs[k];
        assert section in Elements(outputs);
        ghost var before := current.state;
        failure, current := PersistOutput(values, values[section], current, run, k, section);
        if failure.Some? {
          return;
        }
        ReplacedNext(outputs, values, k, held.state, before, current.state);
      }
      ReplacedAll(outputs, values, held.state, current.state);
      failure := None;
    }

    /** The completion write; its rejection only ends the iteration. */
    method WriteCompletion(progress: Progress, held: Checkpoint, ghost run: Run)
      requires Sound() && store.found && Holds(plan, store.Log(), me, held, run, |OutputsOf(plan, run.stage)|)
      requires !MarkingChanges(held.state, run.stage)
      requires progress == CompletedProgress(ProgressOf(held.state), run.stage)
      modifies store
      ensures Sound() && old(store.Log()) <= store.Log()
      ensures MayDecide(plan, store.Log(), me) && Finished(plan, store.Log(), me, run)
    {
      hide Guaranteed, Accepted, MarkedHistory, CompletedProgress, MayDecide, Holds, Finished;
      hide CheckpointStore.Valid, CheckpointStore.Log;
      store.Others(me);
      ghost var log := store.Log();
      HoldsThroughInterference(plan, old(store.Log()), log, me, held, run, |OutputsOf(plan, run.stage)|);
      var saved := store.WriteSection(SupervisorSection, SupervisorProgress(progress), held.version, me,
          Committed(run));
      if saved.Some? {
        HolderIsHead(plan, log, me, held, run, |OutputsOf(plan, run.stage)|);
        CommitIsLegal(plan, log, me, held, run);
        NewestIsCommit(plan, log, Last(store.Log()), run);
      } else {
        AtCommitIsFree(plan, log, me, held, run);
        AtCommitIsFinished(plan, log, me, held, run);
      }
    }

    /** The end of an iteration: the history mark, if this stage closes a request, and the
        completion write, whose progress was computed before the mark. */
    method CompleteStage(held: Checkpoint, ghost run: Run, stage: Stage) returns (failure: Option<Outcome>)
      requires Sound() && store.found && Listed(plan, stage) && run.stage == stage
      requires Holds(plan, store.Log(), me, held, run, |OutputsOf(plan, stage)|)
      modifies store
      ensures Sound() && old(store.Log()) <= store.Log()
      ensures failure.None? ==> MayDecide(plan, store.Log(), me) && Finished(plan, store.Log(), me, run)
      ensures failure.Some? ==>
        && failure == Some(Raised) && Lost(store.Log(), held, me)
        && Holds(plan, store.Log(), me, held, run, |OutputsOf(plan, stage)|)
    {
      hide Guaranteed, Accepted, MarkedHistory, CompletedProgress, MayDecide, Holds, OutputsOf, Finished, Lost;
      hide CheckpointStore.Valid, CheckpointStore.Log;
      var current := held;
      var progress := CompletedProgress(ProgressOf(current.state), stage);
      var history := MarkedHistory(HistoryOf(current.state), stage);
      if history != HistoryOf(current.state) {
        MarkIsLegal(plan, me, run, current);
        var updated := Write(RevisionHistorySection, History(history), current, run, |OutputsOf(plan, stage)|,
            Marked(run), |OutputsOf(plan, stage)|);
        if updated.None? {
          return Some(Raised);
        }
        MarkSettles(current.state, stage);
        current := updated.value;
      }
      WriteCompletion(progress, current, run);
      failure := None;
    }

    /** Persisting a decision: rejected if any other write came first. */
    method PersistDecision(checkpoint: Checkpoint, d: Decision) returns (persisted: Option<Checkpoint>)
      requires Sound() && store.found && MayDecide(plan, store.Log(), me)
      requires checkpoint.version <= store.version && checkpoint.version > 0
      requires store.Log()[checkpoint.version - 1].state == checkpoint.state
      requires Decide(plan, checkpoint.state, Some(handlers)) == Success(d)
      modifies store
      ensures Sound() && old(store.Log()) <= store.Log()
      ensures persisted.None? ==>
        MayDecide(plan, store.Log(), me) && Extends(old(store.Log()), store.Log(), me)
            && |store.Log()| > checkpoint.version
      ensures persisted.Some? ==>
        && DecisionStands(plan, store.Log(), me, d, persisted.value)
        && persisted.value.version == checkpoint.version + 1 == |store.Log()|
        && Last(store.Log()).author == me && Last(store.Log()).note == Decided(d, Some(handlers))
    {
      hide Guaranteed, Decide, Recorded, MayDecide, DecisionStands;
      hide CheckpointStore.Valid, CheckpointStore.Log;
      var progress := RecordDecision(plan, checkpoint.state, d);
      ghost var before := store.Log();
      store.Others(me);
      ghost var log := store.Log();
      MayDecideThroughInterference(plan, before, log, me);
      persisted := store.WriteSection(SupervisorSection, SupervisorProgress(progress), checkpoint.version, me,
          Decided(d, Some(handlers)));
      if persisted.Some? {
        assert log == before;
        DecisionIsLegal(plan, log, me, d, Some(handlers));
      }
    }

    /** One handler execution and everything it persists. */
    method RunStage(d: Decision, persisted: Checkpoint, stage: Stage)
      returns (failure: Option<Outcome>, ghost call: HandlerCall)
      requires Sound() && store.found && Runs(d) && d.next == Some(stage) && Listed(plan, stage)
      requires DecisionStands(plan, store.Log(), me, d, persisted)
      modifies store
      ensures Sound() && old(store.Log()) <= store.Log()
      ensures failure.None? ==>
        MayDecide(plan, store.Log(), me) && Finished(plan, store.Log(), me, Run(stage, d.action, persisted.version))
      ensures Answered(plan, isContract, me, store.Log(), Run(stage, d.action, persisted.version), call, failure)
    {
      hide Guaranteed, MayDecide, Holds, Accepted, OutputsOf, OpenOf, NewestBy, Finished, Lost, Stored, Stopped;
      hide CheckpointStore.Valid, CheckpointStore.Log;
      ghost var run := Run(stage, d.action, persisted.version);
      StandsOnItsVersion(plan, store.Log(), me, d, persisted);
      ghost var read := store.Log();
      var result;
      result, call := RunHandler(stage, persisted);
      if result.HandlerFailed? {
        return Some(if result.retryable then Raised else NonRetryable), call;
      }
      var current;
      failure, current := PersistStageOutputs(result.values, persisted, run, stage);
      if failure.Some? {
        return;
      }
      ghost var log := store.Log();
      failure := CompleteStage(current, run, stage);
      StoredStays(plan, log, store.Log(), run, result.values, |OutputsOf(plan, stage)|);
      if failure.Some? {
        StoppedOnMark(plan, isContract, me, store.Log(), run, result.values, current);
      }
    }

    /** What a turn does once its decision is recorded. */
    method Follow(d: Decision, persisted: Checkpoint) returns (ended: Option<Outcome>, ghost call: Option<HandlerCall>)
      requires Sound() && store.found && DecisionStands(plan, store.Log(), me, d, persisted)
      requires d.action != Skip && d.action != Stop ==> Runs(d) && Listed(plan, d.next.value)
      modifies store
      ensures Sound() && old(store.Log()) <= store.Log()
      ensures ended.None? ==> MayDecide(plan, store.Log(), me)
      ensures ended == Some(Returned) ==> Approved()
      ensures Obeyed(plan, me, store.Log(), d, ended, persisted.version - 1)
      ensures call.None? <==> d.action in {Skip, Stop}
      ensures call.Some? ==>
        Answered(plan, isContract, me, store.Log(), Run(d.next.value, d.action, persisted.version), call.value, ended)
    {
      hide Guaranteed, MayDecide, Accepted, NewestBy, Holds, Finished, OpenOf, Listed, Legal, Answered, Abandoned;
      hide CheckpointStore.Valid, CheckpointStore.Log;
      call := None;
      if d.action == Skip {
        SkipIsFree(plan, store.Log(), me, d, persisted);
        ended := None;
      } else if d.action == Stop {
        ended := Some(if d.reason == WorkflowComplete then Returned else NonRetryable);
      } else {
        ghost var made;
        ended, made := RunStage(d, persisted, d.next.value);
        AnsweredIsObeyed(plan, isContract, me, store.Log(), Run(d.next.value, d.action, persisted.version), made,
                         ended);
        call := Some(made);
      }
    }

    /** The newest entry this executor left is an approval. */
    ghost predicate Approved()
      reads this, store
      requires store.Valid()
    {
      var newest := NewestBy(store.Log(), me);
      && newest.Some?
      && store.Log()[newest.value].note.Decided?
      && store.Log()[newest.value].note.decision.reason == WorkflowComplete
    }

    /** One turn of execute's loop: None where the loop goes on. */
    method Turn() returns (ended: Option<Outcome>, ghost call: Option<HandlerCall>)
      requires Sound() && store.found && MayDecide(plan, store.Log(), me)
      modifies store
      ensures Sound() && old(store.Log()) <= store.Log()
      ensures ended.None? ==> MayDecide(plan, store.Log(), me)
      ensures ended == Some(Returned) ==> Approved()
      ensures TurnAnswered(plan, isContract, handlers, me, old(store.Log()), store.Log(), ended, call)
    {
      hide Guaranteed, Decide, MayDecide, Accepted, NewestBy, Holds, Finished, TurnAnswered, TurnFrom, OpenOf, Listed;
      hide CheckpointStore.Valid, CheckpointStore.Log;
      hide Legal, Obeyed, Approved, Answered;
      ghost var log := store.Log();
      store.Others(me);
      MayDecideThroughInterference(plan, log, store.Log(), me);
      var loaded := store.Load();
      var checkpoint := loaded.value;
      ghost var v := checkpoint.version;
      call := None;
      ghost var seen := store.Log();
      var decided := Decide(plan, checkpoint.state, Some(handlers));
      if decided.Failure? {
        FailedTurn(plan, isContract, handlers, me, log, store.Log());
        ended := Some(Raised);
        return;
      }
      var d := decided.value;
      var persisted := PersistDecision(checkpoint, d);
      if persisted.None? {
        LostTurn(plan, isContract, handlers, me, log, store.Log(), d, v);
        ended := None;
        return;
      }
      if d.action != Skip && d.action != Stop {
        RunningStageIsListed(plan, checkpoint.state, Some(handlers), d);
      }
      ended, call := Follow(d, persisted.value);
      assert store.Log()[..v] == seen;
      ObeyedTurn(plan, isContract, handlers, me, log, store.Log(), d, ended, v, call);
    }

    /** execute: mark the generation running; then load, decide, persist the decision, run the stage,
        persist its outputs and its completion, until a stop. Whatever the other writers do in between,
        every entry this executor leaves in the log was legal when it was written; each of its turns did
        what decide said of the version it read and answered its handler as it must; and it returns
        normally only after recording an approval. */
    method Execute() returns (outcome: Outcome, ghost calls: seq<Option<HandlerCall>>)
      requires Sound() && MayDecide(plan, store.Log(), me)
      modifies store
      ensures Sound() && old(store.Log()) <= store.Log()
      ensures outcome == Returned ==> Approved()
      ensures store.found ==> exists logs :: Executed(logs, calls, old(store.Log()), store.Log(), outcome)
      ensures !store.found ==> outcome == NonRetryable && store.Log() == old(store.Log()) && calls == []
    {
      hide Guaranteed, MayDecide, Accepted, Approved, TurnAnswered;
      hide CheckpointStore.Valid, CheckpointStore.Log;
      calls := [];
      var found := store.SetGenerationStatus(JobQueue.GRunning);
      if !found {
        outcome := NonRetryable;
        return;
      }
      ghost var logs := [store.Log()];
      for i := 0 to maxDecisions
        invariant Sound() && old(store.Log()) <= store.Log()
        invariant MayDecide(plan, store.Log(), me)
        invariant |logs| == i + 1 && |calls| == i && logs[0] == old(store.Log()) && logs[i] == store.Log()
        invariant AnsweredTrail(logs, calls)
      {
        var ended;
        ghost var call;
        ended, call := Turn();
        calls := calls + [call];
        if ended.Some? {
          outcome := ended.value;
          assert Executed(logs, calls, old(store.Log()), store.Log(), outcome);
          return;
        }
        GrowTrail(logs, calls, store.Log());
        logs := logs + [store.Log()];
      }
      assert Executed(logs, calls, old(store.Log()), store.Log(), Raised);
      outcome := Raised;
    }

    /** The turns of an execution that went on, each with what it answered its handler. */
    ghost predicate AnsweredTrail(logs: seq<Log>, calls: seq<Option<HandlerCall>>) {
      forall i :: 0 <= i < |logs| - 1 && i < |calls| ==>
        TurnAnswered(plan, isContract, handlers, me, logs[i], logs[i + 1], None, calls[i])
    }

    /** The turns of an execution: it went on through all but the last, which ended it, or used up
        its decisions. */
    ghost predicate Executed(logs: seq<Log>, calls: seq<Option<HandlerCall>>, log: Log, later: Log, outcome: Outcome) {
      && logs != []
      && logs[0] == log
      && AnsweredTrail(logs, calls)
      && if |logs| <= maxDecisions then
           && |calls| == |logs|
           && TurnAnswered(plan, isContract, handlers, me, logs[|logs| - 1], later, Some(outcome), calls[|logs| - 1])
         else
           |calls| == maxDecisions == |logs| - 1 && logs[maxDecisions] == later && outcome == Raised
    }

    lemma GrowTrail(logs: seq<Log>, calls: seq<Option<HandlerCall>>, later: Log)
      requires |logs| > 0 && |calls| == |logs|
      requires AnsweredTrail(logs, calls[..|logs| - 1])
      requires TurnAnswered(plan, isContract, handlers, me, logs[|logs| - 1], later, None, calls[|logs| - 1])
      ensures AnsweredTrail(logs + [later], calls)
    {
      hide TurnAnswered;
      var more := logs + [later];
      forall i | 0 <= i < |more| - 1
        ensures TurnAnswered(plan, isContract, handlers, me, more[i], more[i + 1], None, calls[i])
      {
        if i < |logs| - 1 {
          assert calls[i] == calls[..|logs| - 1][i];
        }
      }
    }

    /** Without the handlers, an execution is a trail of turns. */
    lemma ExecutedIsTrail(logs: seq<Log>, calls: seq<Option<HandlerCall>>, log: Log, later: Log, outcome: Outcome)
      requires Executed(logs, calls, log, later, outcome)
      ensures Trail(plan, handlers, me, logs)
      ensures |logs| <= maxDecisions ==> TurnMade(plan, handlers, me, logs[|logs| - 1], later, Some(outcome))
    {
      hide TurnAnswered, TurnMade;
      forall i | 0 <= i < |logs| - 1 ensures TurnMade(plan, handlers, me, logs[i], logs[i + 1], None) {
        AnsweredIsMade(plan, isContract, handlers, me, logs[i], logs[i + 1], None, calls[i]);
      }
      if |logs| <= maxDecisions {
        AnsweredIsMade(plan, isContract, handlers, me, logs[|logs| - 1], later, Some(outcome), calls[|logs| - 1]);
      }
    }
  }
}
