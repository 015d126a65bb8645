/** The version log of one generation, read as a protocol. Every accepted compare-and-swap write
    appends one entry; each entry remembers who wrote it and at which point of its code. A crash, a
    timeout or a lost race only ends a writer's chain of entries early, so the logs below are
    exactly the interleavings of any number of executors and API writers. */
module VersionLog {
  import opened Vocabulary
  import opened StageGraph
  import opened Workflows
  import opened Supervisor

  datatype Author = Executor(id: nat) | Api(id: nat)

  /** One handler execution: its stage, the action that started it and the version it read. */
  datatype Run = Run(stage: Stage, action: Action, base: nat)

  datatype Note =
    | Created
    | Decided(decision: Decision, available: Option<set<Stage>>)
    | Produced(run: Run, k: nat)
    | Marked(run: Run)
    | Committed(run: Run)
    | External

  datatype Entry = Entry(changed: Option<Section>, state: Workflow, author: Author, note: Note)

  type Log = seq<Entry>

  function InitialEntry(): Entry {
    Entry(None, EmptyWorkflow(), Api(0), Created)
  }

  function Last(log: Log): Entry
    requires log != []
  {
    log[|log| - 1]
  }

  function Head(log: Log): Workflow
    requires log != []
  {
    Last(log).state
  }

  function OutputsOf(plan: Plan, s: Stage): seq<Section> {
    if Listed(plan, s) then PolicyOf(plan, s).outputs else []
  }

  lemma OutputsAreDistinct(plan: Plan, s: Stage)
    requires Accepted(plan)
    ensures Distinct(OutputsOf(plan, s))
  {
    hide Acyclic, KnownDependencies;
    if Listed(plan, s) {
      assert WellFormedPolicy(PolicyOf(plan, s));
    }
  }

  /** The execution the newest entry belongs to, and how many outputs it has written; nothing is
      open after a skip, a stop, a completed stage or an API write. */
  datatype Open = Closed | Open(author: Author, run: Run, written: nat)

  function OpenAfter(plan: Plan, version: nat, e: Entry): Open {
    match e.note
    case Decided(d, _) => if Runs(d) then Open(e.author, Run(d.next.value, d.action, version), 0) else Closed
    case Produced(run, k) => Open(e.author, run, k + 1)
    case Marked(run) => Open(e.author, run, |OutputsOf(plan, run.stage)|)
    case _ => Closed
  }

  function OpenOf(plan: Plan, log: Log): Open
    requires log != []
  {
    OpenAfter(plan, |log|, Last(log))
  }

  predicate MarkingChanges(w: Workflow, s: Stage) {
    MarkedHistory(HistoryOf(w), s) != HistoryOf(w)
  }

  /** Entry e replaces one section of w. */
  predicate Replaces(w: Workflow, e: Entry, section: Section, v: Value) {
    && e.changed == Some(section)
    && Fits(section, v)
    && e.state == Put(w, section, v)
  }

  /** An executor whose newest entry is this one is back at the top of its loop, or has only the
      completion write left, whose rejection sends it there too. Anything else rejected raises. */
  predicate Free(plan: Plan, e: Entry) {
    match e.note
    case Decided(d, _) =>
      || d.action == Skip
      || (Runs(d) && OutputsOf(plan, d.next.value) == [] && !MarkingChanges(e.state, d.next.value))
    case Produced(run, k) => k + 1 == |OutputsOf(plan, run.stage)| && !MarkingChanges(e.state, run.stage)
    case Marked(_) => true
    case Committed(_) => true
    case _ => false
  }

  ghost function NewestBy(log: Log, a: Author): (r: Option<nat>)
    ensures r.Some? ==> r.value < |log| && log[r.value].author == a
  {
    if log == [] then None
    else if Last(log).author == a then Some(|log| - 1)
    else NewestBy(log[..|log| - 1], a)
  }

  ghost predicate MayDecide(plan: Plan, log: Log, a: Author) {
    NewestBy(log, a).Some? ==> Free(plan, log[NewestBy(log, a).value])
  }

  /** What the executor and the two API operations may append to a log: the entry e was written by
      their code from the newest version. */
  ghost predicate Legal(plan: Plan, log: Log, e: Entry)
    requires log != []
  {
    var w := Head(log);
    match e.note
    case Created => false
    case Decided(d, available) =>
      && e.author.Executor?
      && MayDecide(plan, log, e.author)
      && Decide(plan, w, available) == Success(d)
      && Replaces(w, e, SupervisorSection, SupervisorProgress(Recorded(plan, ProgressOf(w), d)))
    case Produced(run, k) =>
      && OpenOf(plan, log) == Open(e.author, run, k)
      && k < |OutputsOf(plan, run.stage)|
      && var section := OutputsOf(plan, run.stage)[k];
         && Replaces(w, e, section, e.state[section])
         && (section == SemanticContractSection ==>
               && Present(e.state[section])
               && (Present(w[section]) ==> w[section] == e.state[section]))
    case Marked(run) =>
      && OpenOf(plan, log) == Open(e.author, run, |OutputsOf(plan, run.stage)|)
      && MarkingChanges(w, run.stage)
      && Replaces(w, e, RevisionHistorySection, History(MarkedHistory(HistoryOf(w), run.stage)))
    case Committed(run) =>
      && OpenOf(plan, log) == Open(e.author, run, |OutputsOf(plan, run.stage)|)
      && !MarkingChanges(w, run.stage)
      && Replaces(w, e, SupervisorSection, SupervisorProgress(CompletedProgress(ProgressOf(w), run.stage)))
    case External =>
      && e.author.Api?
      && e.changed.Some?
      && e.changed.value != SupervisorSection
      && Replaces(w, e, e.changed.value, e.state[e.changed.value])
      && (e.changed.value == SemanticContractSection ==>
            Present(e.state[SemanticContractSection]) && !Present(w[SemanticContractSection]))
  }

  ghost predicate LegalLog(plan: Plan, log: Log) {
    && log != []
    && if |log| == 1 then log[0] == InitialEntry()
       else LegalLog(plan, log[..|log| - 1]) && Legal(plan, log[..|log| - 1], Last(log))
  }

  // ----- Rely and guarantee -------------------------------------------------------------

  /** Every entry a writer appended was legal when it was appended, whatever others wrote. */
  ghost predicate Guaranteed(plan: Plan, log: Log, a: Author) {
    |log| > 1 ==>
      && Guaranteed(plan, log[..|log| - 1], a)
      && (Last(log).author == a ==> Legal(plan, log[..|log| - 1], Last(log)))
  }

  /** Writers that each keep to their own code keep the whole log legal: this is what lets the
      theorems about legal logs speak of any interleaving of separately verified writers. */
  lemma {:induction false} WritersCompose(plan: Plan, log: Log)
    requires log != [] && log[0] == InitialEntry()
    requires forall a :: Guaranteed(plan, log, a)
    ensures LegalLog(plan, log)
    decreases |log|
  {
    if |log| > 1 {
      var init := log[..|log| - 1];
      assert Guaranteed(plan, log, Last(log).author);
      forall a ensures Guaranteed(plan, init, a) {
        assert Guaranteed(plan, log, a);
      }
      WritersCompose(plan, init);
    }
  }

  lemma LegalExtend(plan: Plan, log: Log, e: Entry)
    requires LegalLog(plan, log) && Legal(plan, log, e)
    ensures LegalLog(plan, log + [e])
  {
    assert (log + [e])[..|log|] == log;
  }

  lemma {:induction false} LegalPrefix(plan: Plan, log: Log, n: nat)
    requires LegalLog(plan, log) && 1 <= n <= |log|
    ensures LegalLog(plan, log[..n])
    ensures n < |log| ==> Legal(plan, log[..n], log[n])
    decreases |log|
  {
    if n == |log| {
      assert log[..n] == log;
    } else if n == |log| - 1 {
    } else {
      var init := log[..|log| - 1];
      LegalPrefix(plan, init, n);
      assert init[..n] == log[..n] && init[n] == log[n];
    }
  }

  // ----- Version log refinement ---------------------------------------------------------

  /** The log starts at the empty state and every later entry replaces one section of the version
      before it. */
  ghost predicate ReplacesOnly(log: Log) {
    && log != []
    && log[0] == InitialEntry()
    && forall v :: 1 <= v < |log| ==> ReplacesOne(log[v - 1].state, log[v])
  }

  predicate ReplacesOne(w: Workflow, e: Entry) {
    e.changed.Some? && Replaces(w, e, e.changed.value, e.state[e.changed.value])
  }

  /** Every accepted write applied in order to the empty state. */
  ghost function Replay(log: Log): Workflow
    requires ReplacesOnly(log)
  {
    if |log| == 1 then EmptyWorkflow()
    else
      assert ReplacesOne(log[|log| - 2].state, log[|log| - 1]);
      Put(Replay(log[..|log| - 1]), Last(log).changed.value, Last(log).state[Last(log).changed.value])
  }

  /** No update is lost: the head is the fold of every accepted write over the empty state. */
  lemma {:induction false} HeadIsReplay(log: Log)
    requires ReplacesOnly(log)
    ensures Head(log) == Replay(log)
    decreases |log|
  {
    if |log| > 1 {
      HeadIsReplay(log[..|log| - 1]);
      assert ReplacesOne(log[|log| - 2].state, log[|log| - 1]);
    }
  }

  lemma LegalReplaces(plan: Plan, log: Log, e: Entry)
    requires log != [] && Legal(plan, log, e)
    ensures ReplacesOne(Head(log), e)
  {
    hide Decide, Recorded, MarkedHistory, MayDecide, Free;
  }

  lemma {:induction false} LegalReplacesOnly(plan: Plan, log: Log)
    requires LegalLog(plan, log)
    ensures ReplacesOnly(log)
    decreases |log|
  {
    hide Legal, ReplacesOne;
    if |log| > 1 {
      LegalReplacesOnly(plan, log[..|log| - 1]);
      LegalReplaces(plan, log[..|log| - 1], Last(log));
    }
  }

  // ----- Write-once contract ------------------------------------------------------------

  lemma ContractStep(plan: Plan, log: Log, e: Entry)
    requires log != [] && Legal(plan, log, e) && Present(Head(log)[SemanticContractSection])
    requires forall i :: 0 <= i < |plan| ==> SupervisorSection !in plan[i].outputs
    ensures e.state[SemanticContractSection] == Head(log)[SemanticContractSection]
  {
    hide Decide, Recorded, MarkedHistory, MayDecide, Free;
  }

  /** Write-once: under every interleaving of executors, section writes and contract creations, a
      non-empty semantic contract is the same in every later version. */
  lemma {:induction false} ContractIsWriteOnce(plan: Plan, log: Log, i: nat, j: nat)
    requires LegalLog(plan, log) && i <= j < |log|
    requires forall k :: 0 <= k < |plan| ==> SupervisorSection !in plan[k].outputs
    requires Present(log[i].state[SemanticContractSection])
    ensures log[j].state[SemanticContractSection] == log[i].state[SemanticContractSection]
    decreases j
  {
    hide Legal, Present;
    if i < j {
      ContractIsWriteOnce(plan, log, i, j - 1);
      LegalPrefix(plan, log, j);
      ContractStep(plan, log[..j], log[j]);
    }
  }

  // ----- Stage commit atomicity ---------------------------------------------------------

  /** Entry i of an execution, counted from the decision that started it. */
  predicate StepOfRun(plan: Plan, log: Log, a: Author, run: Run, i: nat)
    requires 1 <= run.base && run.base - 1 + i < |log|
  {
    var e := log[run.base - 1 + i];
    var outputs := OutputsOf(plan, run.stage);
    && e.author == a
    && if i == 0 then e.note.Decided? && e.note.decision.next == Some(run.stage) && e.note.decision.action == run.action
       else if i <= |outputs| then e.note == Produced(run, i - 1) && e.changed == Some(outputs[i - 1])
       else e.note == Marked(run)
  }

  /** The newest entries are this execution's own, from its decision on, in its own order. */
  predicate Unbroken(plan: Plan, log: Log, a: Author, run: Run, written: nat) {
    && 1 <= run.base
    && run.action in {Continue, Retry, Revise}
    && written <= |OutputsOf(plan, run.stage)|
    && (|log| == run.base + written
        || (written == |OutputsOf(plan, run.stage)| && |log| == run.base + written + 1))
    && forall i :: 0 <= i <= |log| - run.base ==> StepOfRun(plan, log, a, run, i)
  }

  /** An output or a mark continues the execution that is open. */
  lemma OpenBefore(plan: Plan, log: Log, e: Entry)
    requires log != [] && Legal(plan, log, e)
    ensures e.note.Produced? ==>
      && OpenOf(plan, log) == Open(e.author, e.note.run, e.note.k)
      && e.note.k < |OutputsOf(plan, e.note.run.stage)|
      && e.changed == Some(OutputsOf(plan, e.note.run.stage)[e.note.k])
    ensures e.note.Marked? ==>
      && OpenOf(plan, log) == Open(e.author, e.note.run, |OutputsOf(plan, e.note.run.stage)|)
      && MarkingChanges(Head(log), e.note.run.stage)
  {
    hide Decide, Recorded, MarkedHistory, MayDecide, Free, OpenOf;
  }

  lemma {:induction false} OpenIsUnbroken(plan: Plan, log: Log)
    requires LegalLog(plan, log) && OpenOf(plan, log).Open?
    ensures Unbroken(plan, log, OpenOf(plan, log).author, OpenOf(plan, log).run, OpenOf(plan, log).written)
    decreases |log|
  {
    hide Legal, Decide, Recorded, MarkingChanges;
    var open := OpenOf(plan, log);
    var init := log[..|log| - 1];
    if |log| > 1 {
      OpenBefore(plan, init, Last(log));
    }
    match Last(log).note
    case Decided(d, _) =>
    case Produced(run, k) =>
      OpenIsUnbroken(plan, init);
      UnbrokenGrows(plan, log, open.author, run, k);
    case Marked(run) =>
      OpenIsUnbroken(plan, init);
      if |init| > 1 {
        MarkedOnce(plan, init, run);
      }
      assert StepOfRun(plan, init, open.author, run, |init| - run.base);
      UnbrokenGrows(plan, log, open.author, run, |OutputsOf(plan, run.stage)|);
    case _ =>
  }

  /** History is marked at most once in an execution. */
  lemma MarkedOnce(plan: Plan, log: Log, run: Run)
    requires LegalLog(plan, log) && MarkingChanges(Head(log), run.stage)
    requires |log| > 1
    ensures Last(log).note != Marked(run)
  {
    if Last(log).note == Marked(run) {
      var before := Head(log[..|log| - 1]);
      MarkingClosesThePendingRevision(before, run.stage);
      MarkingClosesThePendingRevision(Head(log), run.stage);
    }
  }

  lemma UnbrokenGrows(plan: Plan, log: Log, a: Author, run: Run, written: nat)
    requires |log| > 1 && Unbroken(plan, log[..|log| - 1], a, run, written)
    requires |log| - 1 == run.base + written
    requires StepOfRun(plan, log, a, run, |log| - run.base)
    ensures written < |OutputsOf(plan, run.stage)| ==> Unbroken(plan, log, a, run, written + 1)
    ensures written == |OutputsOf(plan, run.stage)| ==> Unbroken(plan, log, a, run, written)
  {
    var init := log[..|log| - 1];
    forall i | 0 <= i <= |log| - run.base ensures StepOfRun(plan, log, a, run, i) {
      if i < |log| - run.base {
        assert StepOfRun(plan, init, a, run, i);
      }
    }
  }

  /** Taking a decision completes no stage. */
  lemma RecordingCompletesNothing(plan: Plan, p: Progress, d: Decision, s: Stage)
    requires s in Recorded(plan, p, d).completed
    ensures s in p.completed
  {
    if d.next.Some? && d.action == Revise {
      assert s in Elements(Without(p.completed, Elements(Downstream(plan, d.next.value))));
    }
  }

  lemma CompletedOnlyByCommit(plan: Plan, log: Log, e: Entry, s: Stage)
    requires log != [] && Legal(plan, log, e)
    requires forall i :: 0 <= i < |plan| ==> SupervisorSection !in plan[i].outputs
    requires s in ProgressOf(e.state).completed && s !in ProgressOf(Head(log)).completed
    ensures e.note.Committed? && e.note.run.stage == s
  {
    hide Decide, Recorded, MarkedHistory, MayDecide, Free;
    var p := ProgressOf(Head(log));
    match e.note
    case Decided(d, _) =>
      RecordingCompletesNothing(plan, p, d, s);
    case Committed(run) =>
      assert s in Elements(AppendUnique(p.completed, run.stage));
    case _ =>
  }

  /** Stage commit atomicity: whatever other writers do, a stage becomes completed only by the
      completion write of an execution whose decision, outputs, history mark and completion are
      consecutive versions by one executor. Its handler therefore read exactly the state its
      outputs were committed on. */
  lemma CommitsAreAtomic(plan: Plan, log: Log, v: nat, s: Stage)
    requires LegalLog(plan, log) && 1 <= v < |log|
    requires forall i :: 0 <= i < |plan| ==> SupervisorSection !in plan[i].outputs
    requires s in ProgressOf(log[v].state).completed && s !in ProgressOf(log[v - 1].state).completed
    ensures log[v].note.Committed?
    ensures
      var run := log[v].note.run;
      && run.stage == s
      && Unbroken(plan, log[..v], log[v].author, run, |OutputsOf(plan, s)|)
      && log[v].author.Executor?
      && 2 <= run.base <= v
      && log[run.base - 1].note.Decided?
      && Decide(plan, log[run.base - 2].state, log[run.base - 1].note.available) ==
           Success(log[run.base - 1].note.decision)
  {
    hide Legal, LegalLog, Decide, MarkingChanges, Put;
    LegalPrefix(plan, log, v);
    CompletedOnlyByCommit(plan, log[..v], log[v], s);
    var run := log[v].note.run;
    CommitEndsOpen(plan, log[..v], log[v]);
    OpenIsUnbroken(plan, log[..v]);
    var b := run.base - 1;
    assert StepOfRun(plan, log[..v], log[v].author, run, 0);
    assert log[..v][b] == log[b];
    if b == 0 {
      FirstIsCreated(plan, log);
    } else {
      LegalPrefix(plan, log, b);
      DecisionIsDecided(plan, log[..b], log[b]);
    }
  }

  lemma {:induction false} FirstIsCreated(plan: Plan, log: Log)
    requires LegalLog(plan, log)
    ensures log[0] == InitialEntry()
    decreases |log|
  {
    if |log| > 1 {
      FirstIsCreated(plan, log[..|log| - 1]);
    }
  }

  lemma CommitEndsOpen(plan: Plan, log: Log, e: Entry)
    requires log != [] && Legal(plan, log, e) && e.note.Committed?
    ensures OpenOf(plan, log) == Open(e.author, e.note.run, |OutputsOf(plan, e.note.run.stage)|)
  {
  }

  lemma DecisionIsDecided(plan: Plan, log: Log, e: Entry)
    requires log != [] && Legal(plan, log, e) && e.note.Decided?
    ensures e.author.Executor? && Decide(plan, Head(log), e.note.available) == Success(e.note.decision)
  {
  }
}
