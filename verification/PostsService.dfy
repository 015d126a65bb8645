/** The two API operations that write a workflow state: the generic section write and the
    write-once creation of the semantic contract. */
module PostsServices {
  import opened Vocabulary
  import opened StageGraph
  import opened Workflows
  import opened Supervisor
  import opened VersionLog
  import opened CheckpointStores

  datatype ApiResult =
    | Accepted(current: Checkpoint)
    | AlreadyThere(current: Checkpoint)
    | InvalidVersion
    | InvalidValue
    | ContractIsProtected
    | SupervisorIsInternal
    | ContractIsImmutable
    | ContractIsUnreadable
    | GenerationNotFound
    | VersionConflict

  /** A contract with the fingerprint it was created with. */
  datatype NewContract = NewContract(value: Value, fingerprint: string)

  lemma ExternalIsLegal(plan: Plan, log: Log, me: Author, section: Section, value: Value)
    requires log != [] && me.Api? && Guaranteed(plan, log, me) && Fits(section, value)
    requires section != SupervisorSection
    requires section == SemanticContractSection ==> Present(value) && !Present(Head(log)[section])
    ensures Guaranteed(plan, log + [Entry(Some(section), Put(Head(log), section, value), me, External)], me)
  {
    hide Guaranteed, Decide, Recorded, MarkedHistory, NewestBy;
    var e := Entry(Some(section), Put(Head(log), section, value), me, External);
    assert Legal(plan, log, e);
    GuaranteedExtend(plan, log, e);
  }

  /** Only the history is an array, and no client writes progress. */
  predicate RightShape(section: Section, value: Value) {
    !value.SupervisorProgress? && (value.History? <==> section == RevisionHistorySection)
  }

  lemma ShapeExactly(section: Section, value: Value)
    requires section != SupervisorSection
    ensures Fits(section, value) <==> RightShape(section, value)
  {
  }

  /** The writer's version was not the newest when it tried: it never was, or someone overtook it. */
  ghost predicate Overtaken(log: Log, later: Log, expectedVersion: int) {
    log <= later && !(expectedVersion == |log| == |later|)
  }

  class PostsService {
    const store: CheckpointStore
    // The fingerprint of a stored contract, if it passes its integrity validation.
    const fingerprintOf: Value -> Option<string>
    ghost const plan: Plan
    ghost const me: Author

    constructor (store: CheckpointStore, fingerprintOf: Value -> Option<string>, ghost plan: Plan, ghost me: Author)
      ensures this.store == store && this.fingerprintOf == fingerprintOf && this.plan == plan && this.me == me
    {
      this.store, this.fingerprintOf, this.plan, this.me := store, fingerprintOf, plan, me;
    }

    ghost predicate Sound()
      reads this, store
    {
      me.Api? && store.Valid() && Guaranteed(plan, store.Log(), me)
    }

    /** write_workflow_section: never the contract, never the supervisor's own section, and only on
        the version the caller expects. */
    method WriteWorkflowSection(section: Section, value: Value, expectedVersion: int) returns (r: ApiResult)
      requires Sound()
      modifies store
      ensures Sound() && old(store.Log()) <= store.Log()
      ensures r.Accepted? ==>
        && section !in {SemanticContractSection, SupervisorSection} && Fits(section, value)
        && expectedVersion == r.current.version - 1 == |store.Log()| - 1
        && Last(store.Log()) == Entry(Some(section), r.current.state, me, External)
        && r.current.state[section] == value
      ensures r in {InvalidVersion, ContractIsProtected, SupervisorIsInternal, InvalidValue} ==>
        store.Log() == old(store.Log())
      ensures r == InvalidVersion <==> expectedVersion <= 0
      ensures r == ContractIsProtected <==> expectedVersion > 0 && section == SemanticContractSection
      ensures r == SupervisorIsInternal <==> expectedVersion > 0 && section == SupervisorSection
      ensures r == InvalidValue <==>
        expectedVersion > 0 && section !in {SemanticContractSection, SupervisorSection} && !RightShape(section, value)
      ensures r == GenerationNotFound ==> !store.found
      ensures r == VersionConflict ==> store.found && Overtaken(old(store.Log()), store.Log(), expectedVersion)
      ensures r.Accepted? || r in {InvalidVersion, ContractIsProtected, SupervisorIsInternal, InvalidValue,
                                   GenerationNotFound, VersionConflict}
    {
      hide Guaranteed, CheckpointStore.Valid, Fits, RightShape;
      if expectedVersion <= 0 {
        return InvalidVersion;
      }
      if section == SemanticContractSection {
        return ContractIsProtected;
      }
      if section == SupervisorSection {
        return SupervisorIsInternal;
      }
      ShapeExactly(section, value);
      if !Fits(section, value) {
        return InvalidValue;
      }
      OthersWrite();
      ghost var log := store.Log();
      var updated := store.WriteSection(section, value, expectedVersion, me, External);
      if updated.Some? {
        ExternalIsLegal(plan, log, me, section, value);
        return Accepted(updated.value);
      }
      var current := store.Load();
      r := if current.None? then GenerationNotFound else VersionConflict;
    }

    method OthersWrite()
      requires Sound()
      modifies store
      ensures Sound() && Extends(old(store.Log()), store.Log(), me)
    {
      hide Guaranteed;
      store.Others(me);
      OthersPreserve(plan, old(store.Log()), store.Log(), me);
    }

    /** Reading the newest state, after anything the others did. */
    method Look() returns (c: Option<Checkpoint>)
      requires Sound()
      modifies store
      ensures Sound() && Extends(old(store.Log()), store.Log(), me)
      ensures c == if store.found then Some(Checkpoint(store.version, store.state)) else None
    {
      hide Guaranteed;
      OthersWrite();
      c := store.Load();
    }

    /** The answer when a contract is stored already. */
    function ExistingContract(current: Checkpoint, contract: NewContract): ApiResult {
      match fingerprintOf(current.state[SemanticContractSection])
      case None => ContractIsUnreadable
      case Some(stored) => if stored == contract.fingerprint then AlreadyThere(current) else ContractIsImmutable
    }

    /** What an answer without a write says about the state it was given on. */
    ghost predicate Answers(r: ApiResult, contract: NewContract)
      reads this, store
      requires store.Valid()
    {
      var stored := store.state[SemanticContractSection];
      match r
      case AlreadyThere(current) =>
        current == Checkpoint(store.version, store.state) && Present(stored)
            && fingerprintOf(stored) == Some(contract.fingerprint)
      case ContractIsImmutable =>
        Present(stored) && fingerprintOf(stored).Some? && fingerprintOf(stored).value != contract.fingerprint
      case ContractIsUnreadable => Present(stored) && fingerprintOf(stored).None?
      case GenerationNotFound => !store.found
      case VersionConflict => store.found
      case _ => false
    }

    /** create_semantic_contract: returns the stored contract if it has the same fingerprint, refuses to
        replace another or one that cannot be read, and otherwise writes it on the expected version. */
    method CreateSemanticContract(contract: NewContract, expectedVersion: int) returns (r: ApiResult)
      requires Sound() && contract.value.Document?
      modifies store
      ensures Sound() && old(store.Log()) <= store.Log()
      ensures r.Accepted? ==>
        && expectedVersion == r.current.version - 1 == |store.Log()| - 1
        && Last(store.Log()) == Entry(Some(SemanticContractSection), r.current.state, me, External)
        && r.current.state[SemanticContractSection] == contract.value
      ensures r == InvalidVersion <==> expectedVersion <= 0
      ensures r == InvalidVersion ==> store.Log() == old(store.Log())
      ensures !r.Accepted? && r != InvalidVersion ==> Extends(old(store.Log()), store.Log(), me) && Answers(r, contract)
      ensures r == VersionConflict ==> Overtaken(old(store.Log()), store.Log(), expectedVersion)
    {
      hide Guaranteed, Present, Extends;
      if expectedVersion <= 0 {
        return InvalidVersion;
      }
      var found := Look();
      ExtendsKeeps(old(store.Log()), store.Log(), me);
      if found.None? {
        return GenerationNotFound;
      }
      var current := found.value;
      if Present(current.state[SemanticContractSection]) {
        return ExistingContract(current, contract);
      }
      if current.version != expectedVersion {
        return VersionConflict;
      }
      ghost var log := store.Log();
      r := TryCreate(contract, current);
      if !r.Accepted? {
        ExtendsTransitive(old(store.Log()), log, store.Log(), me);
      }
    }

    /** The guarded write of a new contract, and the second look if it lost a race. */
    method TryCreate(contract: NewContract, current: Checkpoint) returns (r: ApiResult)
      requires Sound() && store.found && contract.value.Document? && current == Checkpoint(store.version, store.state)
      requires !Present(current.state[SemanticContractSection])
      modifies store
      ensures Sound() && old(store.Log()) <= store.Log()
      ensures r.Accepted? ==>
        && current.version == r.current.version - 1 == |store.Log()| - 1
        && Last(store.Log()) == Entry(Some(SemanticContractSection), r.current.state, me, External)
        && r.current.state[SemanticContractSection] == contract.value
      ensures !r.Accepted? ==> Extends(old(store.Log()), store.Log(), me) && Answers(r, contract)
      ensures r == VersionConflict ==> |store.Log()| > current.version
    {
      hide Guaranteed;
      OthersWrite();
      ghost var log := store.Log();
      var updated := store.WriteSection(SemanticContractSection, contract.value, current.version, me, External);
      if updated.Some? {
        assert log == old(store.Log());
        ExternalIsLegal(plan, log, me, SemanticContractSection, contract.value);
        return Accepted(updated.value);
      }
      var latest := Look();
      ExtendsTransitive(old(store.Log()), log, store.Log(), me);
      r := if Present(latest.value.state[SemanticContractSection])
          then ExistingContract(latest.value, contract) else VersionConflict;
    }
  }

  lemma ExtendsKeeps(log: Log, later: Log, me: Author)
    requires Extends(log, later, me)
    ensures log <= later
  {
  }

  lemma ExtendsTransitive(a: Log, b: Log, c: Log, me: Author)
    requires Extends(a, b, me) && Extends(b, c, me)
    ensures Extends(a, c, me) && a <= c
  {
    assert forall v :: |a| <= v < |b| ==> c[v] == b[v];
  }
}
