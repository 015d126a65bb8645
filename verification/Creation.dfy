/** Requesting generations: idempotent by key, numbered without gaps per post, and inserted together
    with exactly one job, one state row and one initial snapshot, to which section writes add. */
module Creation {
  import opened Vocabulary
  import opened Workflows

  type PostId = nat
  type RowId = nat

  datatype Scope = Scope(user: nat, project: nat)

  datatype GenerationRow = GenerationRow(post: PostId, attempt: nat)

  datatype JobRow = JobRow(generation: RowId, key: string, maxAttempts: nat, timeout: nat)

  datatype StateRow = StateRow(version: nat, state: Workflow)

  datatype Tables = Tables(
    posts: map<PostId, Scope>,
    generations: map<RowId, GenerationRow>,
    jobs: map<RowId, JobRow>,
    states: map<RowId, StateRow>,
    snapshots: map<(RowId, nat), Workflow>)

  datatype Request = Request(post: PostId, scope: Scope, key: string, maxAttempts: nat, timeout: nat)

  datatype Answer = PostMissing | KeyTaken | Generation(id: RowId, attempt: nat, deduplicated: bool)

  function GenerationsOf(t: Tables, post: PostId): set<RowId> {
    set g | g in t.generations && t.generations[g].post == post
  }

  function AttemptNumbers(t: Tables, post: PostId): set<nat> {
    set g | g in GenerationsOf(t, post) :: t.generations[g].attempt
  }

  /** The job that holds a key. */
  predicate HoldsKey(t: Tables, j: RowId, key: string) {
    j in t.jobs && t.jobs[j].key == key
  }

  /** coalesce(max(attempt), 0). */
  ghost predicate IsNewest(t: Tables, post: PostId, m: nat) {
    && (forall g :: g in GenerationsOf(t, post) ==> t.generations[g].attempt <= m)
    && (GenerationsOf(t, post) == {} ==> m == 0)
    && (GenerationsOf(t, post) != {} ==> m in AttemptNumbers(t, post))
  }

  /** Rows inserted for a new generation. */
  function Inserted(t: Tables, r: Request, g: RowId, j: RowId, attempt: nat): Tables {
    t.(generations := t.generations[g := GenerationRow(r.post, attempt)],
       jobs := t.jobs[j := JobRow(g, r.key, r.maxAttempts, r.timeout)],
       states := t.states[g := StateRow(1, EmptyWorkflow())],
       snapshots := t.snapshots[(g, 1) := EmptyWorkflow()])
  }

  /** The numbers 1..n. */
  function UpTo(n: nat): (r: set<nat>)
    ensures forall k: nat :: k in r <==> 1 <= k <= n
  {
    if n == 0 then {} else UpTo(n - 1) + {n}
  }

  /** A post's attempts are numbered exactly 1..n. */
  predicate Numbered(t: Tables, post: PostId) {
    AttemptNumbers(t, post) == UpTo(|GenerationsOf(t, post)|)
  }

  /** A key and a generation each belong to at most one job. */
  predicate JobsAreDistinct(t: Tables) {
    forall a, b :: a in t.jobs && b in t.jobs && a != b ==>
      t.jobs[a].key != t.jobs[b].key && t.jobs[a].generation != t.jobs[b].generation
  }

  ghost predicate JobsCover(t: Tables) {
    && (forall j :: j in t.jobs ==> t.jobs[j].generation in t.generations)
    && (forall g :: g in t.generations ==> HasJob(t, g))
  }

  predicate StatesMatch(t: Tables) {
    t.states.Keys == t.generations.Keys && forall g :: g in t.states ==> t.states[g].version >= 1
  }

  /** A generation's snapshots are numbered from 1, its empty state, to its current version. */
  ghost predicate SnapshotsMatch(t: Tables) {
    && (forall g, v :: (g, v) in t.snapshots <==> g in t.states && 1 <= v <= t.states[g].version)
    && (forall g :: g in t.states ==> SnapshotEnds(t, g))
  }

  ghost predicate SnapshotEnds(t: Tables, g: RowId)
    requires g in t.states
  {
    && (g, 1) in t.snapshots && t.snapshots[(g, 1)] == EmptyWorkflow()
    && (g, t.states[g].version) in t.snapshots && t.snapshots[(g, t.states[g].version)] == t.states[g].state
  }

  /** Keys are unique, and every generation has exactly one job, one state row and its snapshots. */
  ghost predicate RowsMatch(t: Tables) {
    JobsAreDistinct(t) && JobsCover(t) && StatesMatch(t) && SnapshotsMatch(t)
  }

  ghost predicate Consistent(t: Tables) {
    (forall post :: Numbered(t, post)) && RowsMatch(t)
  }

  ghost predicate HasJob(t: Tables, g: RowId) {
    exists j :: j in t.jobs && t.jobs[j].generation == g
  }

  /** What one request does to the tables. */
  ghost predicate Creates(t: Tables, r: Request, t2: Tables, a: Answer) {
    if r.post !in t.posts || t.posts[r.post] != r.scope then a == PostMissing && t2 == t
    else if exists j :: HoldsKey(t, j, r.key) then
      && t2 == t
      && exists j :: HoldsKey(t, j, r.key) && t.jobs[j].generation in t.generations &&
           var g := t.jobs[j].generation;
           a == (if t.generations[g].post == r.post then Generation(g, t.generations[g].attempt, true) else KeyTaken)
    else
      && a.Generation? && !a.deduplicated && a.id !in t.generations && a.attempt > 0
      && IsNewest(t, r.post, a.attempt - 1)
      && exists j :: j !in t.jobs && t2 == Inserted(t, r, a.id, j, a.attempt)
  }

  lemma NewestIsCount(t: Tables, post: PostId, m: nat)
    requires Numbered(t, post) && IsNewest(t, post, m)
    ensures m == |GenerationsOf(t, post)|
  {
    var n := |GenerationsOf(t, post)|;
    if n > 0 {
      assert n in AttemptNumbers(t, post);
      assert m in AttemptNumbers(t, post);
    }
  }

  lemma InsertedElsewhere(t: Tables, r: Request, g: RowId, j: RowId, attempt: nat, post: PostId)
    requires Numbered(t, post) && g !in t.generations && post != r.post
    ensures Numbered(Inserted(t, r, g, j, attempt), post)
  {
    hide UpTo;
    var t2 := Inserted(t, r, g, j, attempt);
    assert GenerationsOf(t2, post) == GenerationsOf(t, post);
    forall x | x in GenerationsOf(t, post) ensures t2.generations[x] == t.generations[x] {
    }
    assert AttemptNumbers(t2, post) == AttemptNumbers(t, post);
  }

  lemma InsertedHere(t: Tables, r: Request, g: RowId, j: RowId, attempt: nat)
    requires Numbered(t, r.post) && g !in t.generations && attempt == |GenerationsOf(t, r.post)| + 1
    ensures Numbered(Inserted(t, r, g, j, attempt), r.post)
  {
    hide GenerationsOf, AttemptNumbers, Inserted;
    InsertedAttempts(t, r, g, j, attempt);
  }

  lemma InsertedAttempts(t: Tables, r: Request, g: RowId, j: RowId, attempt: nat)
    requires g !in t.generations
    ensures g !in GenerationsOf(t, r.post)
    ensures GenerationsOf(Inserted(t, r, g, j, attempt), r.post) == GenerationsOf(t, r.post) + {g}
    ensures AttemptNumbers(Inserted(t, r, g, j, attempt), r.post) == AttemptNumbers(t, r.post) + {attempt}
  {
    var t2 := Inserted(t, r, g, j, attempt);
    assert GenerationsOf(t2, r.post) == GenerationsOf(t, r.post) + {g};
    forall x | x in GenerationsOf(t, r.post) ensures t2.generations[x] == t.generations[x] {
    }
    forall k | k in AttemptNumbers(t, r.post) ensures k in AttemptNumbers(t2, r.post) {
      var x :| x in GenerationsOf(t, r.post) && t.generations[x].attempt == k;
      assert x in GenerationsOf(t2, r.post);
    }
    assert g in GenerationsOf(t2, r.post) && t2.generations[g].attempt == attempt;
    assert AttemptNumbers(t2, r.post) == AttemptNumbers(t, r.post) + {attempt};
  }

  /** Every request keeps the tables consistent. */
  lemma CreationKeepsConsistent(t: Tables, r: Request, t2: Tables, a: Answer)
    requires Consistent(t) && Creates(t, r, t2, a)
    ensures Consistent(t2)
  {
    hide Numbered, RowsMatch, IsNewest, HoldsKey;
    if t2 != t {
      var j :| j !in t.jobs && t2 == Inserted(t, r, a.id, j, a.attempt);
      NewestIsCount(t, r.post, a.attempt - 1);
      forall post ensures Numbered(t2, post) {
        if post == r.post {
          InsertedHere(t, r, a.id, j, a.attempt);
        } else {
          InsertedElsewhere(t, r, a.id, j, a.attempt, post);
        }
      }
      InsertedRows(t, r, a.id, j, a.attempt);
    }
  }

  lemma InsertedRows(t: Tables, r: Request, g: RowId, j: RowId, attempt: nat)
    requires RowsMatch(t) && g !in t.generations && j !in t.jobs && !exists x :: HoldsKey(t, x, r.key)
    ensures RowsMatch(Inserted(t, r, g, j, attempt))
  {
    hide JobsAreDistinct, JobsCover, StatesMatch, SnapshotsMatch, HoldsKey, Inserted;
    InsertedJobs(t, r, g, j, attempt);
    InsertedCovers(t, r, g, j, attempt);
    InsertedStates(t, r, g, j, attempt);
  }

  lemma InsertedJobs(t: Tables, r: Request, g: RowId, j: RowId, attempt: nat)
    requires JobsAreDistinct(t) && JobsCover(t) && g !in t.generations && !exists x :: HoldsKey(t, x, r.key)
    ensures JobsAreDistinct(Inserted(t, r, g, j, attempt))
  {
    hide HasJob;
    forall a | a in t.jobs ensures t.jobs[a].key != r.key {
      assert t.jobs[a].key == r.key ==> HoldsKey(t, a, r.key);
    }
  }

  lemma InsertedCovers(t: Tables, r: Request, g: RowId, j: RowId, attempt: nat)
    requires JobsCover(t) && j !in t.jobs
    ensures JobsCover(Inserted(t, r, g, j, attempt))
  {
    hide HasJob;
    var t2 := Inserted(t, r, g, j, attempt);
    forall x | x in t2.generations ensures HasJob(t2, x) {
      InsertedHasJob(t, r, g, j, attempt, x);
    }
  }

  lemma InsertedStates(t: Tables, r: Request, g: RowId, j: RowId, attempt: nat)
    requires StatesMatch(t) && SnapshotsMatch(t) && g !in t.generations
    ensures StatesMatch(Inserted(t, r, g, j, attempt)) && SnapshotsMatch(Inserted(t, r, g, j, attempt))
  {
    hide EmptyWorkflow, SnapshotEnds;
    var t2 := Inserted(t, r, g, j, attempt);
    forall x | x in t2.states ensures SnapshotEnds(t2, x) {
      InsertedEnds(t, r, g, j, attempt, x);
    }
  }

  lemma InsertedEnds(t: Tables, r: Request, g: RowId, j: RowId, attempt: nat, x: RowId)
    requires x == g || (x in t.states && SnapshotEnds(t, x))
    ensures x in Inserted(t, r, g, j, attempt).states && SnapshotEnds(Inserted(t, r, g, j, attempt), x)
  {
    hide EmptyWorkflow;
  }

  lemma InsertedHasJob(t: Tables, r: Request, g: RowId, j: RowId, attempt: nat, x: RowId)
    requires j !in t.jobs && (x == g || HasJob(t, x))
    ensures HasJob(Inserted(t, r, g, j, attempt), x)
  {
    var t2 := Inserted(t, r, g, j, attempt);
    if x == g {
      assert t2.jobs[j].generation == g;
    } else {
      var k :| k in t.jobs && t.jobs[k].generation == x;
      assert t2.jobs[k].generation == x;
    }
  }

  // ----- Runs ---------------------------------------------------------------------------

  /** A request and its answer, or an accepted section write. */
  datatype Event = Requested(request: Request, answer: Answer) | Written(generation: RowId, state: Workflow)

  /** The state row moved to its next version, with its snapshot. */
  function StateWritten(t: Tables, g: RowId, w: Workflow): Tables
    requires g in t.states
  {
    var v := t.states[g].version + 1;
    t.(states := t.states[g := StateRow(v, w)], snapshots := t.snapshots[(g, v) := w])
  }

  ghost predicate Happens(t: Tables, e: Event, t2: Tables) {
    match e
    case Requested(r, a) => Creates(t, r, t2, a)
    case Written(g, w) => g in t.states && t2 == StateWritten(t, g, w)
  }

  lemma WriteKeepsConsistent(t: Tables, g: RowId, w: Workflow)
    requires Consistent(t) && g in t.states
    ensures Consistent(StateWritten(t, g, w))
  {
    hide Numbered, RowsMatch, StateWritten;
    forall post ensures Numbered(StateWritten(t, g, w), post) {
      WriteKeepsNumbers(t, g, w, post);
    }
    WriteKeepsRows(t, g, w);
  }

  lemma WriteKeepsRows(t: Tables, g: RowId, w: Workflow)
    requires RowsMatch(t) && g in t.states
    ensures RowsMatch(StateWritten(t, g, w))
  {
    hide JobsAreDistinct, JobsCover, StatesMatch, SnapshotsMatch, StateWritten;
    assert JobsAreDistinct(StateWritten(t, g, w)) by { SameJobRows(t, g, w); }
    WriteKeepsJobs(t, g, w);
    WriteKeepsStates(t, g, w);
    WriteKeepsSnapshots(t, g, w);
  }

  lemma SameJobRows(t: Tables, g: RowId, w: Workflow)
    requires JobsAreDistinct(t) && g in t.states
    ensures JobsAreDistinct(StateWritten(t, g, w))
  {
  }

  lemma WriteKeepsStates(t: Tables, g: RowId, w: Workflow)
    requires StatesMatch(t) && g in t.states
    ensures StatesMatch(StateWritten(t, g, w)) && t.states[g].version >= 1
  {
  }

  lemma WriteKeepsNumbers(t: Tables, g: RowId, w: Workflow, post: PostId)
    requires Numbered(t, post) && g in t.states
    ensures Numbered(StateWritten(t, g, w), post)
  {
    hide UpTo;
    assert GenerationsOf(StateWritten(t, g, w), post) == GenerationsOf(t, post);
  }

  lemma WriteKeepsJobs(t: Tables, g: RowId, w: Workflow)
    requires JobsCover(t) && g in t.states
    ensures JobsCover(StateWritten(t, g, w))
  {
    forall x | x in t.generations ensures HasJob(StateWritten(t, g, w), x) {
      assert HasJob(t, x);
    }
  }

  lemma WriteKeepsSnapshots(t: Tables, g: RowId, w: Workflow)
    requires SnapshotsMatch(t) && g in t.states && t.states[g].version >= 1
    ensures SnapshotsMatch(StateWritten(t, g, w))
  {
    hide EmptyWorkflow;
    var t2 := StateWritten(t, g, w);
    forall x | x in t2.states ensures SnapshotEnds(t2, x) {
      assert SnapshotEnds(t, x);
    }
  }

  /** Tables before, between and after a sequence of events. */
  ghost predicate History(tables: seq<Tables>, events: seq<Event>) {
    && |tables| == |events| + 1
    && tables[0].generations == map[] && tables[0].jobs == map[]
    && tables[0].states == map[] && tables[0].snapshots == map[]
    && forall i :: 0 <= i < |events| ==> Happens(tables[i], events[i], tables[i + 1])
  }

  /** After any sequence of requests and section writes, attempts are numbered 1..n for every post, and
      every generation has one job, one state row and the snapshots 1 to its version. */
  lemma {:induction false} HistoryIsConsistent(tables: seq<Tables>, events: seq<Event>, n: nat)
    requires History(tables, events) && n < |tables|
    ensures Consistent(tables[n])
    decreases n
  {
    hide Creates, Consistent;
    if n == 0 {
      EmptyIsConsistent(tables[0]);
    } else {
      HistoryIsConsistent(tables, events, n - 1);
      assert Happens(tables[n - 1], events[n - 1], tables[n - 1 + 1]);
      match events[n - 1]
      case Requested(r, a) => CreationKeepsConsistent(tables[n - 1], r, tables[n], a);
      case Written(g, w) => WriteKeepsConsistent(tables[n - 1], g, w);
    }
  }

  lemma EmptyIsConsistent(t: Tables)
    requires t.generations == map[] && t.jobs == map[] && t.states == map[] && t.snapshots == map[]
    ensures Consistent(t)
  {
    forall post ensures Numbered(t, post) {
      assert GenerationsOf(t, post) == {};
      assert AttemptNumbers(t, post) == {};
    }
  }

  /** Requests never change a generation or a job that exists. */
  ghost predicate Grows(t: Tables, t2: Tables) {
    && t2.posts == t.posts
    && (forall g :: g in t.generations ==> g in t2.generations && t2.generations[g] == t.generations[g])
    && (forall j :: j in t.jobs ==> j in t2.jobs && t2.jobs[j] == t.jobs[j])
  }

  lemma {:induction false} HistoryGrows(tables: seq<Tables>, events: seq<Event>, m: nat, n: nat)
    requires History(tables, events) && m <= n < |tables|
    ensures Grows(tables[m], tables[n])
    decreases n
  {
    hide IsNewest, HoldsKey;
    if m < n {
      HistoryGrows(tables, events, m, n - 1);
      assert Happens(tables[n - 1], events[n - 1], tables[n - 1 + 1]);
    }
  }

  lemma AnswerIsStored(t: Tables, r: Request, t2: Tables, a: Answer)
    requires Consistent(t) && Creates(t, r, t2, a) && a.Generation?
    ensures t.posts == t2.posts && r.post in t.posts && t.posts[r.post] == r.scope
    ensures a.id in t2.generations && t2.generations[a.id] == GenerationRow(r.post, a.attempt)
    ensures exists j :: HoldsKey(t2, j, r.key) && t2.jobs[j].generation == a.id
  {
    if exists j :: HoldsKey(t, j, r.key) {
    } else {
      var j :| j !in t.jobs && t2 == Inserted(t, r, a.id, j, a.attempt);
      assert HoldsKey(t2, j, r.key);
    }
  }

  /** Idempotence: once a request was answered with a generation, asking again with the same post,
      scope and key, however much later, returns the same generation and changes nothing. */
  lemma SameKeySameGeneration(tables: seq<Tables>, events: seq<Event>, m: nat, n: nat)
    requires History(tables, events) && m < n < |events| && events[m].Requested? && events[n].Requested?
    requires events[m].answer.Generation?
    requires
      var first, again := events[m].request, events[n].request;
      again.post == first.post && again.scope == first.scope && again.key == first.key
    ensures events[n].answer == Generation(events[m].answer.id, events[m].answer.attempt, true)
    ensures tables[n + 1] == tables[n]
  {
    hide Consistent, Creates;
    var r, a := events[m].request, events[m].answer;
    HistoryIsConsistent(tables, events, m);
    HistoryIsConsistent(tables, events, n);
    assert Happens(tables[m], events[m], tables[m + 1]) && Happens(tables[n], events[n], tables[n + 1]);
    AnswerIsStored(tables[m], r, tables[m + 1], a);
    HistoryGrows(tables, events, m + 1, n);
    HistoryGrows(tables, events, 0, m);
    HistoryGrows(tables, events, 0, n);
    var j :| HoldsKey(tables[m + 1], j, r.key) && tables[m + 1].jobs[j].generation == a.id;
    KeyAnswers(tables[n], events[n].request, tables[n + 1], events[n].answer, j);
  }

  lemma KeyAnswers(t: Tables, r: Request, t2: Tables, a: Answer, j: RowId)
    requires Consistent(t) && Creates(t, r, t2, a) && HoldsKey(t, j, r.key)
    requires r.post in t.posts && t.posts[r.post] == r.scope
    requires t.jobs[j].generation in t.generations && t.generations[t.jobs[j].generation].post == r.post
    ensures t2 == t
    ensures a == Generation(t.jobs[j].generation, t.generations[t.jobs[j].generation].attempt, true)
  {
    var k :| HoldsKey(t, k, r.key) && t.jobs[k].generation in t.generations &&
      var g := t.jobs[k].generation;
      a == (if t.generations[g].post == r.post then Generation(g, t.generations[g].attempt, true) else KeyTaken);
    assert k == j;
  }

  // ----- The repository -----------------------------------------------------------------

  class PostRepository {
    var tables: Tables

    constructor (posts: map<PostId, Scope>)
      ensures Consistent(tables) && tables == Tables(posts, map[], map[], map[], map[])
    {
      tables := Tables(posts, map[], map[], map[], map[]);
      new;
      EmptyIsConsistent(tables);
    }

    method NewestAttempt(post: PostId) returns (m: nat)
      ensures IsNewest(tables, post, m)
    {
      m := 0;
      var rest := GenerationsOf(tables, post);
      ghost var all := rest;
      while rest != {}
        invariant rest <= all == GenerationsOf(tables, post)
        invariant forall g :: g in all - rest ==> tables.generations[g].attempt <= m
        invariant (m == 0 && all - rest == {}) || m in AttemptNumbers(tables, post)
                  || (m == 0 && forall g :: g in all - rest ==> tables.generations[g].attempt == 0)
        decreases |rest|
      {
        var g :| g in rest;
        if m < tables.generations[g].attempt {
          m := tables.generations[g].attempt;
        }
        rest := rest - {g};
      }
      if all != {} && m == 0 {
        var g :| g in all;
        assert tables.generations[g].attempt == 0;
      }
    }

    /** create_generation. New ids are any that are not in use. */
    method CreateGeneration(r: Request, g: RowId, j: RowId) returns (a: Answer)
      requires Consistent(tables)
      requires g !in tables.generations && j !in tables.jobs
      modifies this
      ensures Creates(old(tables), r, tables, a) && Consistent(tables)
    {
      hide IsNewest, UpTo, StatesMatch, SnapshotsMatch, JobsAreDistinct, Numbered, EmptyWorkflow;
      ghost var before := tables;
      if r.post !in tables.posts || tables.posts[r.post] != r.scope {
        return PostMissing;
      }
      var holders := set x | x in tables.jobs && tables.jobs[x].key == r.key;
      if holders != {} {
        var x :| x in holders;
        assert HoldsKey(tables, x, r.key);
        var existing := tables.jobs[x].generation;
        var row := tables.generations[existing];
        return if row.post == r.post then Generation(existing, row.attempt, true) else KeyTaken;
      }
      assert forall x :: HoldsKey(tables, x, r.key) ==> x in holders;
      var newest := NewestAttempt(r.post);
      var attempt := newest + 1;
      tables := tables.(generations := tables.generations[g := GenerationRow(r.post, attempt)]);
      tables := tables.(jobs := tables.jobs[j := JobRow(g, r.key, r.maxAttempts, r.timeout)]);
      tables := tables.(states := tables.states[g := StateRow(1, EmptyWorkflow())]);
      tables := tables.(snapshots := tables.snapshots[(g, 1) := EmptyWorkflow()]);
      a := Generation(g, attempt, false);
      assert tables == Inserted(before, r, g, j, attempt);
      CreationKeepsConsistent(before, r, tables, a);
    }
  }

  // ----- The service --------------------------------------------------------------------

  predicate AllSpace(space: char -> bool, s: string) {
    forall c :: c in s ==> space(c)
  }

  /** The text is this core with nothing but white space around it, and the core neither starts nor ends
      with white space. */
  ghost predicate IsCore(space: char -> bool, s: string, r: string) {
    && (exists i :: 0 <= i && i + |r| <= |s| && CoreAt(space, s, r, i))
    && (r != "" ==> !space(r[0]) && !space(r[|r| - 1]))
  }

  predicate CoreAt(space: char -> bool, s: string, r: string, i: nat)
    requires i + |r| <= |s|
  {
    s[i..i + |r|] == r && AllSpace(space, s[..i]) && AllSpace(space, s[i + |r|..])
  }

  /** A text has one core. */
  lemma CoreIsUnique(space: char -> bool, s: string, q: string, r: string)
    requires IsCore(space, s, q) && IsCore(space, s, r)
    ensures q == r
  {
    var i :| 0 <= i && i + |q| <= |s| && CoreAt(space, s, q, i);
    var j :| 0 <= j && j + |r| <= |s| && CoreAt(space, s, r, j);
    CoreStarts(space, s, q, i, r, j);
    CoreStarts(space, s, r, j, q, i);
  }

  lemma CoreStarts(space: char -> bool, s: string, q: string, i: nat, r: string, j: nat)
    requires i + |q| <= |s| && j + |r| <= |s| && CoreAt(space, s, q, i) && CoreAt(space, s, r, j)
    requires r != "" ==> !space(r[0]) && !space(r[|r| - 1])
    ensures r != "" ==> q != "" && i <= j && j + |r| <= i + |q|
  {
    forall k | 0 <= k < i ensures space(s[k]) {
      assert s[..i][k] == s[k];
    }
    forall k | i + |q| <= k < |s| ensures space(s[k]) {
      assert s[i + |q|..][k - i - |q|] == s[k];
    }
    if r != "" {
      assert s[j] == r[0] && s[j + |r| - 1] == r[|r| - 1];
    }
  }

  lemma CoreAfterSpace(space: char -> bool, s: string, r: string)
    requires s != "" && space(s[0]) && IsCore(space, s[1..], r)
    ensures IsCore(space, s, r)
  {
    var t := s[1..];
    var i :| 0 <= i && i + |r| <= |t| && CoreAt(space, t, r, i);
    assert s[..i + 1] == [s[0]] + t[..i] && s[i + 1 + |r|..] == t[i + |r|..] && s[i + 1..i + 1 + |r|] == r;
    assert CoreAt(space, s, r, i + 1);
  }

  lemma CoreBeforeSpace(space: char -> bool, s: string, r: string)
    requires s != "" && space(s[|s| - 1]) && IsCore(space, s[..|s| - 1], r)
    ensures IsCore(space, s, r)
  {
    var t := s[..|s| - 1];
    var i :| 0 <= i && i + |r| <= |t| && CoreAt(space, t, r, i);
    assert s[..i] == t[..i] && s[i + |r|..] == t[i + |r|..] + [s[|s| - 1]] && s[i..i + |r|] == r;
    assert CoreAt(space, s, r, i);
  }

  /** str.strip(), with what counts as white space. */
  function Stripped(space: char -> bool, s: string): (r: string)
    decreases |s|
  {
    if s != "" && space(s[0]) then Stripped(space, s[1..])
    else if s != "" && space(s[|s| - 1]) then Stripped(space, s[..|s| - 1])
    else s
  }

  lemma {:induction false} StripIsCore(space: char -> bool, s: string)
    ensures IsCore(space, s, Stripped(space, s))
    decreases |s|
  {
    hide IsCore;
    if s != "" && space(s[0]) {
      StripIsCore(space, s[1..]);
      CoreAfterSpace(space, s, Stripped(space, s[1..]));
    } else if s != "" && space(s[|s| - 1]) {
      StripIsCore(space, s[..|s| - 1]);
      CoreBeforeSpace(space, s, Stripped(space, s[..|s| - 1]));
    } else {
      OwnCore(space, s);
    }
  }

  lemma OwnCore(space: char -> bool, s: string)
    requires s != "" ==> !space(s[0]) && !space(s[|s| - 1])
    ensures IsCore(space, s, s)
  {
    assert CoreAt(space, s, s, 0);
  }

  /** strip, exactly: what is left is the part between the first and the last character that is no white
      space. */
  lemma StrippedExactly(space: char -> bool, s: string, r: string)
    ensures r == Stripped(space, s) <==> IsCore(space, s, r)
  {
    hide IsCore;
    StripIsCore(space, s);
    if IsCore(space, s, r) {
      CoreIsUnique(space, s, r, Stripped(space, s));
    }
  }

  datatype ServiceAnswer = KeyTooLong | NoSuchPost | Conflict | Created(id: RowId, attempt: nat, deduplicated: bool)

  class GenerationRequests {
    const repository: PostRepository
    const digest: (Scope, PostId, string) -> string
    const space: char -> bool
    const maxAttempts: nat
    const timeout: nat

    constructor (repository: PostRepository, digest: (Scope, PostId, string) -> string, space: char -> bool,
                 maxAttempts: nat, timeout: nat)
      ensures this.repository == repository && this.digest == digest && this.space == space
      ensures this.maxAttempts == maxAttempts && this.timeout == timeout
    {
      this.repository, this.digest, this.space := repository, digest, space;
      this.maxAttempts, this.timeout := maxAttempts, timeout;
    }

    /** The key of a request: the core of what the client sends, or a random key if it sends nothing. */
    ghost predicate IsKey(clientKey: Option<string>, random: string, key: string) {
      if clientKey.None? || clientKey.value == "" then key == random
      else IsCore(space, clientKey.value, key)
    }

    lemma KeyExactly(clientKey: Option<string>, random: string, key: string)
      ensures key == RequestKey(clientKey, random) <==> IsKey(clientKey, random, key)
    {
      hide IsCore, Stripped;
      if clientKey.Some? && clientKey.value != "" {
        StrippedExactly(space, clientKey.value, key);
      }
    }

    function RequestKey(clientKey: Option<string>, random: string): string {
      if clientKey.Some? && clientKey.value != "" then Stripped(space, clientKey.value) else random
    }

    /** request_generation: the stored key is a digest of scope, post and the client's key. */
    method RequestGeneration(post: PostId, scope: Scope, clientKey: Option<string>, random: string, g: RowId, j: RowId)
      returns (a: ServiceAnswer, ghost key: string)
      requires Consistent(repository.tables)
      requires g !in repository.tables.generations && j !in repository.tables.jobs
      modifies repository
      ensures Consistent(repository.tables)
      ensures IsKey(clientKey, random, key)
      ensures a == KeyTooLong <==> |key| > 200
      ensures a == KeyTooLong ==> repository.tables == old(repository.tables)
      ensures a != KeyTooLong ==>
        exists answer ::
          && Creates(old(repository.tables),
                     Request(post, scope, digest(scope, post, key), maxAttempts, timeout),
                     repository.tables, answer)
          && a == match answer
                  case PostMissing => NoSuchPost
                  case KeyTaken => Conflict
                  case Generation(id, attempt, dedup) => Created(id, attempt, dedup)
    {
      hide Consistent, Creates, Stripped;
      var requestKey := RequestKey(clientKey, random);
      key := requestKey;
      KeyExactly(clientKey, random, key);
      if |requestKey| > 200 {
        a := KeyTooLong;
        return;
      }
      var request := Request(post, scope, digest(scope, post, requestKey), maxAttempts, timeout);
      var answer := repository.CreateGeneration(request, g, j);
      match answer
      case PostMissing => a := NoSuchPost;
      case KeyTaken => a := Conflict;
      case Generation(id, attempt, dedup) => a := Created(id, attempt, dedup);
    }
  }
}
