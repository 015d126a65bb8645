/** The durable, versioned workflow state of one generation: a compare-and-swap row and its
    append-only snapshots, shared by executors and API writers. */
module CheckpointStores {
  import opened Vocabulary
  import opened StageGraph
  import opened Workflows
  import opened Supervisor
  import opened VersionLog
  import JobQueue

  datatype Snapshot = Snapshot(version: nat, changed: Option<Section>, state: Workflow)

  datatype Checkpoint = Checkpoint(version: nat, state: Workflow)

  /** A later log, to which a writer has appended nothing itself. */
  ghost predicate Extends(log: Log, later: Log, me: Author) {
    && log <= later
    && forall v :: |log| <= v < |later| ==> later[v].author != me
  }

  class CheckpointStore {
    // Whether the generation exists at all; if it does not, nothing is read or written.
    const found: bool
    var status: JobQueue.GenerationStatus
    var version: nat
    var state: Workflow
    var snapshots: seq<Snapshot>
    // Who wrote each version, and from which point of its code.
    ghost var writers: seq<(Author, Note)>

    /** Snapshots are numbered exactly 1..version, the row is the newest snapshot, and two adjacent
        snapshots differ in the recorded section only. */
    ghost predicate Valid()
      reads this
    {
      && |snapshots| == |writers| == version
      && version >= 1
      && snapshots[0] == Snapshot(1, None, EmptyWorkflow())
      && writers[0] == (InitialEntry().author, Created)
      && state == snapshots[version - 1].state
      && (forall v :: 0 <= v < version ==> snapshots[v].version == v + 1)
      && (forall v :: 1 <= v < version ==> DiffersOnlyAt(snapshots[v - 1], snapshots[v]))
    }

    ghost predicate DiffersOnlyAt(before: Snapshot, after: Snapshot) {
      && after.changed.Some?
      && forall s: Section :: s != after.changed.value ==> after.state[s] == before.state[s]
    }

    /** The version log the snapshots record. */
    ghost function Log(): (log: Log)
      requires Valid()
      reads this
      ensures |log| == version && log[0] == InitialEntry() && Head(log) == state
    {
      seq(version, v requires 0 <= v < version reads this requires Valid() =>
        Entry(snapshots[v].changed, snapshots[v].state, writers[v].0, writers[v].1))
    }

    /** A generation's first version, as create_generation inserts it. */
    constructor (found: bool)
      ensures Valid() && Log() == [InitialEntry()] && this.found == found && status == JobQueue.GQueued
    {
      this.found, status := found, JobQueue.GQueued;
      version := 1;
      state := EmptyWorkflow();
      snapshots := [Snapshot(1, None, EmptyWorkflow())];
      writers := [(InitialEntry().author, Created)];
    }

    method Load() returns (c: Option<Checkpoint>)
      requires Valid()
      ensures c == if found then Some(Checkpoint(version, state)) else None
    {
      c := if found then Some(Checkpoint(version, state)) else None;
    }

    method SetGenerationStatus(s: JobQueue.GenerationStatus) returns (ok: bool)
      requires Valid()
      modifies this`status
      ensures Valid() && Log() == old(Log())
      ensures ok == found && status == if found then s else old(status)
    {
      ok := found;
      if found {
        status := s;
      }
    }

    /** update_workflow_state: the compare-and-swap behind every write, and its snapshot. */
    method WriteSection(section: Section, value: Value, expected: nat, ghost author: Author, ghost note: Note)
      returns (r: Option<Checkpoint>)
      requires Valid() && Fits(section, value)
      modifies this
      ensures Valid()
      ensures r.Some? <==> found && old(version) == expected
      ensures r.None? ==> Log() == old(Log()) && snapshots == old(snapshots)
      ensures r.Some? ==>
        && Log() == old(Log()) + [Entry(Some(section), Put(old(state), section, value), author, note)]
        && r.value == Checkpoint(old(version) + 1, Put(old(state), section, value))
        && old(snapshots) <= snapshots
    {
      if !found || version != expected {
        return None;
      }
      var next := Put(state, section, value);
      version := expected + 1;
      state := next;
      snapshots := snapshots + [Snapshot(version, Some(section), next)];
      writers := writers + [(author, note)];
      r := Some(Checkpoint(version, next));
    }

    /** Anything the other writers may do between two steps of one writer: any number of accepted
        writes of any section, by anyone else, and any status. */
    method Others(ghost me: Author)
      requires Valid()
      modifies this
      ensures Valid() && Extends(old(Log()), Log(), me)
    {
      var rounds: nat := *;
      ghost var before := Log();
      while rounds > 0
        invariant Valid() && Extends(before, Log(), me)
      {
        var section: Section := *;
        var value: Value := *;
        ghost var author: Author := *;
        ghost var note: Note := *;
        if Fits(section, value) {
          author := if author != me then author else if me == Api(0) then Api(1) else Api(0);
          var r := WriteSection(section, value, version, author, note);
        }
        rounds := rounds - 1;
      }
      ghost var after := Log();
      status := *;
      assert Log() == after;
    }
  }

  /** Whatever was accepted and rejected, by whichever writers, the row is the fold of the accepted
      writes over the empty state. */
  lemma RowIsTheFold(store: CheckpointStore)
    requires store.Valid()
    ensures ReplacesOnly(store.Log()) && store.state == Replay(store.Log())
  {
    var log := store.Log();
    forall v | 1 <= v < |log| ensures ReplacesOne(log[v - 1].state, log[v]) {
      assert store.DiffersOnlyAt(store.snapshots[v - 1], store.snapshots[v]);
      var x := log[v].changed.value;
      assert Fits(x, log[v].state[x]);
      assert log[v].state == Put(log[v - 1].state, x, log[v].state[x]);
    }
    HeadIsReplay(log);
  }

  /** Entries by others change nothing about a writer: neither its promise nor its newest entry. */
  lemma {:induction false} OthersPreserve(plan: Plan, log: Log, later: Log, me: Author)
    requires Guaranteed(plan, log, me) && Extends(log, later, me)
    ensures Guaranteed(plan, later, me)
    ensures NewestBy(later, me) == NewestBy(log, me)
    decreases |later|
  {
    hide Legal;
    if |later| == |log| {
      assert later == log;
    } else {
      OthersPreserve(plan, log, later[..|later| - 1], me);
    }
  }

  lemma GuaranteedExtend(plan: Plan, log: Log, e: Entry)
    requires log != [] && Guaranteed(plan, log, e.author) && Legal(plan, log, e)
    ensures Guaranteed(plan, log + [e], e.author)
    ensures NewestBy(log + [e], e.author) == Some(|log|)
  {
    hide Legal;
    assert (log + [e])[..|log|] == log;
  }
}
