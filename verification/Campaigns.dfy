/** Campaigns: a brief that only grows, a plan judged against it, and a status that says which of
    the two can be relied on. */
module Campaigns {
  import opened Vocabulary

  datatype Brief = Brief(
    business: Option<string>,
    productOrService: Option<string>,
    goal: Option<string>,
    audience: Option<string>,
    location: Option<string>,
    offer: Option<string>,
    valueProposition: Option<string>,
    channels: Option<seq<string>>,
    budgetAmount: Option<real>,
    budgetCurrency: Option<string>,
    duration: Option<string>,
    brandTone: Option<string>,
    constraints: Option<seq<string>>)

  datatype BudgetItem = BudgetItem(channel: string, amount: real)

  datatype Allocation = Allocation(total: real, currency: string, items: seq<BudgetItem>)

  /** Of a campaign plan, what the validator reads and an opaque rest. */
  datatype Plan = Plan(location: Option<string>, channels: seq<string>, budget: Option<Allocation>, rest: nat)

  datatype Status = Briefing | Ready | Generating | PlanReady

  datatype Event = GenerationRequested | PlanPersisted | GenerationFailed | Exported

  // ----- Brief --------------------------------------------------------------------------

  function Later<T>(known: Option<T>, said: Option<T>): Option<T> {
    if said.Some? then said else known
  }

  /** The brief after a turn: what was said replaces what was known, silence keeps it. */
  function Merge(b: Brief, x: Brief): Brief {
    Brief(Later(b.business, x.business), Later(b.productOrService, x.productOrService), Later(b.goal, x.goal),
          Later(b.audience, x.audience), Later(b.location, x.location), Later(b.offer, x.offer),
          Later(b.valueProposition, x.valueProposition), Later(b.channels, x.channels),
          Later(b.budgetAmount, x.budgetAmount), Later(b.budgetCurrency, x.budgetCurrency),
          Later(b.duration, x.duration), Later(b.brandTone, x.brandTone), Later(b.constraints, x.constraints))
  }

  ghost predicate Takes<T>(known: Option<T>, said: Option<T>, now: Option<T>) {
    (said.Some? ==> now == said) && (said.None? ==> now == known)
  }

  /** Every field that was said holds what was said, and every other one what it held. */
  ghost predicate Learns(b: Brief, x: Brief, c: Brief) {
    && Takes(b.business, x.business, c.business)
    && Takes(b.productOrService, x.productOrService, c.productOrService)
    && Takes(b.goal, x.goal, c.goal) && Takes(b.audience, x.audience, c.audience)
    && Takes(b.location, x.location, c.location) && Takes(b.offer, x.offer, c.offer)
    && Takes(b.valueProposition, x.valueProposition, c.valueProposition)
    && Takes(b.channels, x.channels, c.channels)
    && Takes(b.budgetAmount, x.budgetAmount, c.budgetAmount)
    && Takes(b.budgetCurrency, x.budgetCurrency, c.budgetCurrency)
    && Takes(b.duration, x.duration, c.duration) && Takes(b.brandTone, x.brandTone, c.brandTone)
    && Takes(b.constraints, x.constraints, c.constraints)
  }

  lemma MergeLearns(b: Brief, x: Brief, c: Brief)
    ensures Learns(b, x, c) <==> c == Merge(b, x)
  {
  }

  predicate Keeps<T>(before: Option<T>, after: Option<T>) {
    before.Some? ==> after.Some?
  }

  /** No fact known before is unknown after. */
  predicate Retains(b: Brief, c: Brief) {
    && Keeps(b.business, c.business) && Keeps(b.productOrService, c.productOrService) && Keeps(b.goal, c.goal)
    && Keeps(b.audience, c.audience) && Keeps(b.location, c.location) && Keeps(b.offer, c.offer)
    && Keeps(b.valueProposition, c.valueProposition) && Keeps(b.channels, c.channels)
    && Keeps(b.budgetAmount, c.budgetAmount) && Keeps(b.budgetCurrency, c.budgetCurrency)
    && Keeps(b.duration, c.duration) && Keeps(b.brandTone, c.brandTone) && Keeps(b.constraints, c.constraints)
  }

  /** evaluate_campaign_readiness. */
  predicate IsReady(b: Brief) {
    (b.business.Some? || b.productOrService.Some?) && b.goal.Some? && b.audience.Some?
  }

  /** What briefing still has to find out. */
  predicate Incomplete(b: Brief) {
    (b.business.None? && b.productOrService.None?) || b.goal.None? || b.audience.None?
  }

  function StatusForReadiness(b: Brief): Status {
    if IsReady(b) then Ready else Briefing
  }

  /** The event table; None where the event is refused. */
  function Transition(s: Status, e: Event): Option<Status> {
    match (s, e)
    case (Ready, GenerationRequested) => Some(Generating)
    case (Generating, PlanPersisted) => Some(PlanReady)
    case (Generating, GenerationFailed) => Some(Ready)
    case (PlanReady, Exported) => Some(PlanReady)
    case _ => None
  }

  // ----- Plan validation ----------------------------------------------------------------

  datatype Issue =
    | LocationMismatch | BudgetMissing | TotalMismatch | CurrencyMismatch | ItemsTotalMismatch
    | ChannelsMissing | StructuredOutputInvalid

  /** NFKC, case folding and punctuation removal; any function will do. */
  type Normalizer = string -> string

  predicate Comparable(a: string, b: string) {
    Contains(a, b) || Contains(b, a)
  }

  predicate LocationMatches(norm: Normalizer, confirmed: string, actual: Option<string>) {
    actual.Some? && Comparable(norm(actual.value), norm(confirmed))
  }

  function ItemTotal(items: seq<BudgetItem>): real {
    if items == [] then 0.0 else ItemTotal(items[..|items| - 1]) + items[|items| - 1].amount
  }

  predicate Given(text: Option<string>) {
    text.Some? && text.value != ""
  }

  /** A confirmed location and the plan's are the same up to one of them saying more. */
  predicate LocationHonoured(norm: Normalizer, b: Brief, p: Plan) {
    b.location.Some? && b.location.value != "" ==>
      && p.location.Some?
      && (|| Contains(norm(p.location.value), norm(b.location.value))
          || Contains(norm(b.location.value), norm(p.location.value)))
  }

  /** A confirmed budget is allocated in full, in its currency; and any allocation adds up. */
  predicate BudgetHonoured(norm: Normalizer, b: Brief, p: Plan) {
    && (b.budgetAmount.Some? ==>
          && p.budget.Some?
          && p.budget.value.total == b.budgetAmount.value
          && (b.budgetCurrency.Some? && b.budgetCurrency.value != "" ==>
                norm(b.budgetCurrency.value) == norm(p.budget.value.currency)))
    && (p.budget.Some? ==> ItemTotal(p.budget.value.items) == p.budget.value.total)
  }

  /** Each confirmed channel is among the plan's, up to normal forms. */
  predicate ChannelsHonoured(norm: Normalizer, b: Brief, p: Plan) {
    b.channels.Some? ==>
      forall c :: c in b.channels.value ==> exists d :: d in p.channels && norm(d) == norm(c)
  }

  /** The plan respects everything the brief has confirmed. */
  predicate Honours(norm: Normalizer, b: Brief, p: Plan) {
    LocationHonoured(norm, b, p) && BudgetHonoured(norm, b, p) && ChannelsHonoured(norm, b, p)
  }

  method SumItems(items: seq<BudgetItem>) returns (total: real)
    ensures total == ItemTotal(items)
  {
    total := 0.0;
    for i := 0 to |items|
      invariant total == ItemTotal(items[..i])
    {
      assert items[..i + 1][..i] == items[..i];
      total := total + items[i].amount;
    }
    assert items[..|items|] == items;
  }

  function LocationIssues(norm: Normalizer, b: Brief, p: Plan): seq<Issue> {
    if Given(b.location) && !LocationMatches(norm, b.location.value, p.location) then [LocationMismatch] else []
  }

  function BudgetIssues(norm: Normalizer, b: Brief, p: Plan): seq<Issue> {
    if b.budgetAmount.Some? && p.budget.None? then [BudgetMissing]
    else if p.budget.None? then []
    else
      var a := p.budget.value;
      (if b.budgetAmount.Some? && a.total != b.budgetAmount.value then [TotalMismatch] else [])
      + (if b.budgetAmount.Some? && Given(b.budgetCurrency) && norm(b.budgetCurrency.value) != norm(a.currency)
         then [CurrencyMismatch] else [])
      + (if ItemTotal(a.items) != a.total then [ItemsTotalMismatch] else [])
  }

  function ChannelIssues(norm: Normalizer, b: Brief, p: Plan): seq<Issue> {
    var planned := set d | d in p.channels :: norm(d);
    if b.channels.Some? && exists c :: c in b.channels.value && norm(c) !in planned then [ChannelsMissing] else []
  }

  lemma ChannelIssuesExactly(norm: Normalizer, b: Brief, p: Plan)
    ensures ChannelIssues(norm, b, p) == [] <==> ChannelsHonoured(norm, b, p)
  {
    if b.channels.Some? && ChannelIssues(norm, b, p) == [] {
      forall c | c in b.channels.value ensures exists d :: d in p.channels && norm(d) == norm(c) {
        var planned := set d | d in p.channels :: norm(d);
        assert norm(c) in planned;
      }
    }
  }

  function PlanIssues(norm: Normalizer, b: Brief, p: Plan): seq<Issue> {
    LocationIssues(norm, b, p) + BudgetIssues(norm, b, p) + ChannelIssues(norm, b, p)
  }

  /** The validator accepts exactly the plans that honour the brief. */
  lemma NoIssuesExactly(norm: Normalizer, b: Brief, p: Plan)
    ensures PlanIssues(norm, b, p) == [] <==> Honours(norm, b, p)
  {
    hide Contains, ItemTotal, ChannelIssues, ChannelsHonoured;
    ChannelIssuesExactly(norm, b, p);
    assert PlanIssues(norm, b, p) == [] <==>
      LocationIssues(norm, b, p) == [] && BudgetIssues(norm, b, p) == [] && ChannelIssues(norm, b, p) == [];
  }

  /** CampaignPlanValidator.validate. */
  method Validate(norm: Normalizer, b: Brief, p: Plan) returns (issues: seq<Issue>)
    ensures issues == PlanIssues(norm, b, p)
  {
    issues := [];
    if Given(b.location) && !LocationMatches(norm, b.location.value, p.location) {
      issues := issues + [LocationMismatch];
    }
    issues := ValidateBudget(norm, b, p, issues);
    if b.channels.Some? && b.channels.value != [] {
      var planned := set d | d in p.channels :: norm(d);
      if exists c :: c in b.channels.value && norm(c) !in planned {
        issues := issues + [ChannelsMissing];
      }
    }
  }

  method ValidateBudget(norm: Normalizer, b: Brief, p: Plan, before: seq<Issue>) returns (issues: seq<Issue>)
    ensures issues == before + BudgetIssues(norm, b, p)
  {
    issues := before;
    if b.budgetAmount.Some? {
      if p.budget.None? {
        issues := issues + [BudgetMissing];
        return;
      }
      if p.budget.value.total != b.budgetAmount.value {
        issues := issues + [TotalMismatch];
      }
      if Given(b.budgetCurrency) && norm(b.budgetCurrency.value) != norm(p.budget.value.currency) {
        issues := issues + [CurrencyMismatch];
      }
    }
    if p.budget.Some? {
      var total := SumItems(p.budget.value.items);
      if total != p.budget.value.total {
        issues := issues + [ItemsTotalMismatch];
      }
    }
  }

  // ----- Requests -----------------------------------------------------------------------

  datatype Campaign = Campaign(status: Status, brief: Brief, plan: Option<Plan>)

  datatype Refusal = InvalidTransition | PlanRejected(issues: seq<Issue>)

  /** _reevaluate_readiness. */
  function Reevaluated(c: Campaign, briefChanged: bool): Result<Campaign, Refusal> {
    if c.status == Generating then (if briefChanged then Failure(InvalidTransition) else Success(c))
    else if c.status == PlanReady && !briefChanged then Success(c)
    else Success(c.(status := StatusForReadiness(c.brief)))
  }

  /** update_brief_and_reevaluate. */
  function AfterBriefUpdate(c: Campaign, x: Brief): Result<Campaign, Refusal> {
    var merged := Merge(c.brief, x);
    if c.status == Generating && merged != c.brief then Failure(InvalidTransition)
    else Reevaluated(c.(brief := merged), merged != c.brief)
  }

  function AfterEvent(c: Campaign, e: Event): Result<Campaign, Refusal> {
    match Transition(c.status, e)
    case Some(s) => Success(c.(status := s))
    case None => Failure(InvalidTransition)
  }

  /** The four events that are not refused, and where they lead; nothing but the status changes. */
  lemma EventsExactly(c: Campaign, e: Event)
    ensures
      var r := AfterEvent(c, e);
      if c.status == Ready && e == GenerationRequested then r == Success(Campaign(Generating, c.brief, c.plan))
      else if c.status == Generating && e == PlanPersisted then r == Success(Campaign(PlanReady, c.brief, c.plan))
      else if c.status == Generating && e == GenerationFailed then r == Success(Campaign(Ready, c.brief, c.plan))
      else if c.status == PlanReady && e == Exported then r == Success(c)
      else r == Failure(InvalidTransition)
  {
  }

  /** A campaign is in briefing exactly while its brief is incomplete, and a ready plan is stored. */
  predicate Sane(c: Campaign) {
    && (c.status == Briefing <==> Incomplete(c.brief))
    && (c.status == PlanReady ==> c.plan.Some?)
  }

  /** A ready plan moreover honours the brief as it stands. */
  predicate Consistent(norm: Normalizer, c: Campaign) {
    Sane(c) && (c.status == PlanReady ==> Honours(norm, c.brief, c.plan.value))
  }

  /** Facts stay known, and a campaign that has left briefing never returns to it. */
  predicate Advances(c: Campaign, d: Campaign) {
    Retains(c.brief, d.brief) && (c.status != Briefing ==> d.status != Briefing)
  }

  lemma MergeRetains(b: Brief, x: Brief)
    ensures Retains(b, Merge(b, x)) && Retains(b, b)
    ensures IsReady(b) ==> IsReady(Merge(b, x))
  {
  }

  lemma BriefUpdateIsConsistent(norm: Normalizer, c: Campaign, x: Brief)
    requires Sane(c) && AfterBriefUpdate(c, x).Success?
    ensures Sane(AfterBriefUpdate(c, x).value) && Advances(c, AfterBriefUpdate(c, x).value)
    ensures Consistent(norm, c) ==> Consistent(norm, AfterBriefUpdate(c, x).value)
    ensures c.status == Generating ==> AfterBriefUpdate(c, x).value == c
    ensures AfterBriefUpdate(c, x).value.status == PlanReady ==> AfterBriefUpdate(c, x).value == c
  {
    hide Merge, Retains, Honours;
    MergeRetains(c.brief, x);
  }

  // ----- Runs ---------------------------------------------------------------------------

  /** One generate_plan request that has moved the campaign to generating: the brief it had read before,
      its failed attempts, and the plan that passed. */
  datatype Generation = Generation(brief: Brief, failed: nat, passed: Option<Plan>, saved: bool)

  /** The campaign, the briefs that generation requests have read and not yet used, the generation in
      flight, and the brief that the stored plan was validated against. */
  datatype World = World(
    campaign: Campaign, read: seq<Option<Brief>>, active: Option<Generation>, judged: Option<Brief>)

  const MAX_ATTEMPTS := 2

  datatype Step =
    | UpdateBrief(said: Brief)
    | Reevaluate(claimChanged: bool)
    | Export
    | ReadBrief
    | Request(k: nat)
    | Attempt(candidate: Option<Plan>)
    | Save
    | Persist
    | Fail
    | Vanish

  /** What a step does; None where it is refused or cannot happen. A brief update is one step. A
      generation request first reads the brief and then, in another step, moves the campaign on. */
  function Next(norm: Normalizer, w: World, step: Step): Option<World> {
    match step
    case UpdateBrief(x) => FromRequest(w, AfterBriefUpdate(w.campaign, x))
    case Reevaluate(claim) => FromRequest(w, Reevaluated(w.campaign, claim))
    case Export => FromRequest(w, AfterEvent(w.campaign, Exported))
    case ReadBrief => Some(w.(read := w.read + [Some(w.campaign.brief)]))
    case Request(k) =>
      if k >= |w.read| || w.read[k].None? then None
      else
        var used := w.(read := w.read[k := None]);
        match AfterEvent(w.campaign, GenerationRequested) {
          case Success(c) => Some(used.(campaign := c, active := Some(Generation(w.read[k].value, 0, None, false))))
          case Failure(_) => Some(used)
        }
    case Attempt(candidate) =>
      if w.active.None? || w.active.value.passed.Some? || w.active.value.failed >= MAX_ATTEMPTS then None
      else
        var g := w.active.value;
        Some(w.(active := Some(
          if candidate.Some? && PlanIssues(norm, g.brief, candidate.value) == [] then g.(passed := candidate)
          else g.(failed := g.failed + 1))))
    case Save =>
      if w.active.None? || w.active.value.passed.None? then None
      else
        var g := w.active.value;
        Some(w.(campaign := w.campaign.(plan := g.passed), active := Some(g.(saved := true)), judged := Some(g.brief)))
    case Persist =>
      if w.active.None? || !w.active.value.saved then None
      else FromRequest(w.(active := None), AfterEvent(w.campaign, PlanPersisted))
    case Fail =>
      if w.active.None? then None else FromRequest(w.(active := None), AfterEvent(w.campaign, GenerationFailed))
    case Vanish => if w.active.None? then None else Some(w.(active := None))
  }

  function FromRequest(w: World, r: Result<Campaign, Refusal>): Option<World> {
    if r.Success? then Some(w.(campaign := r.value)) else None
  }

  function Start(initial: Brief): World {
    World(Campaign(StatusForReadiness(initial), initial, None), [], None, None)
  }

  /** The world after one more step; refused ones change nothing. */
  function Stepped(norm: Normalizer, w: World, step: Step): World {
    if Next(norm, w, step).Some? then Next(norm, w, step).value else w
  }

  /** The world after a sequence of steps. */
  function After(norm: Normalizer, initial: Brief, steps: seq<Step>): World {
    if steps == [] then Start(initial)
    else Stepped(norm, After(norm, initial, steps[..|steps| - 1]), steps[|steps| - 1])
  }

  /** The stored plan honours the brief its generation read; while a generation is in flight the campaign
      is generating. */
  predicate WorldInv(norm: Normalizer, w: World) {
    && Sane(w.campaign)
    && (w.campaign.plan.Some? ==> w.judged.Some? && Honours(norm, w.judged.value, w.campaign.plan.value))
    && (w.active.Some? ==>
          var g := w.active.value;
          && w.campaign.status == Generating
          && (g.passed.Some? ==> Honours(norm, g.brief, g.passed.value))
          && (g.saved ==> g.passed.Some? && w.campaign.plan == g.passed))
  }

  lemma StepKeepsWorld(norm: Normalizer, w: World, step: Step)
    requires WorldInv(norm, w)
    ensures WorldInv(norm, Stepped(norm, w, step))
    ensures Advances(w.campaign, Stepped(norm, w, step).campaign)
  {
    hide Merge, Retains, Honours, PlanIssues;
    MergeRetains(w.campaign.brief, w.campaign.brief);
    if Next(norm, w, step).Some? {
      match step
      case UpdateBrief(x) => BriefUpdateIsConsistent(norm, w.campaign, x);
      case Attempt(candidate) =>
        if candidate.Some? { NoIssuesExactly(norm, w.active.value.brief, candidate.value); }
      case _ =>
    }
  }

  lemma AdvancesTransitively(a: Campaign, b: Campaign, c: Campaign)
    requires Advances(a, b) && Advances(b, c)
    ensures Advances(a, c)
  {
  }

  /** Over every interleaving: briefing means exactly that the brief is not ready, and a stored plan
      honours the brief that its generation had read. A ready plan is therefore consistent exactly when
      it also honours the brief as it stands. */
  lemma {:induction false} StoredPlanWasJudged(norm: Normalizer, initial: Brief, steps: seq<Step>)
    ensures WorldInv(norm, After(norm, initial, steps))
    ensures
      var w := After(norm, initial, steps);
      w.campaign.status == PlanReady ==>
        && w.campaign.plan.Some? && w.judged.Some? && Honours(norm, w.judged.value, w.campaign.plan.value)
        && (Consistent(norm, w.campaign) <==> Honours(norm, w.campaign.brief, w.campaign.plan.value))
    decreases |steps|
  {
    hide Stepped, Honours;
    if steps != [] {
      StoredPlanWasJudged(norm, initial, steps[..|steps| - 1]);
      StepKeepsWorld(norm, After(norm, initial, steps[..|steps| - 1]), steps[|steps| - 1]);
    }
  }

  // ----- Reading and requesting -----------------------------------------------------------

  /** Every plan that honours the first brief honours the second. */
  ghost predicate Entails(norm: Normalizer, b0: Brief, b1: Brief) {
    forall p :: Honours(norm, b0, p) ==> Honours(norm, b1, p)
  }

  /** Every channel of the new brief has the normal form of a channel of the old one. */
  predicate ChannelsCovered(norm: Normalizer, b0: Brief, b1: Brief) {
    b1.channels.Some? ==>
      forall c :: c in b1.channels.value ==>
        b0.channels.Some? && exists d :: d in b0.channels.value && norm(d) == norm(c)
  }

  /** A budget amount of the new brief was there before, and so was its currency, up to its normal form. */
  predicate BudgetCovered(norm: Normalizer, b0: Brief, b1: Brief) {
    b1.budgetAmount.Some? ==>
      && b0.budgetAmount == b1.budgetAmount
      && (Given(b1.budgetCurrency) ==>
            Given(b0.budgetCurrency) && norm(b0.budgetCurrency.value) == norm(b1.budgetCurrency.value))
  }

  /** A location of the new brief refines one of the old brief: what matched that matches it too. */
  ghost predicate LocationCovered(norm: Normalizer, b0: Brief, b1: Brief) {
    Given(b1.location) ==>
      && Given(b0.location)
      && forall t :: LocationMatches(norm, b0.location.value, Some(t)) ==>
           LocationMatches(norm, b1.location.value, Some(t))
  }

  /** The new brief demands nothing of a plan that the old one does not. */
  ghost predicate Covers(norm: Normalizer, b0: Brief, b1: Brief) {
    ChannelsCovered(norm, b0, b1) && BudgetCovered(norm, b0, b1) && LocationCovered(norm, b0, b1)
  }

  /** A plan for the brief, with what the brief leaves open. */
  function ModestPlan(b: Brief, location: Option<string>, total: real, currency: string): Plan {
    Plan(location, if b.channels.Some? then b.channels.value else [],
         Some(Allocation(total, currency, [BudgetItem("", total)])), 0)
  }

  lemma ModestPlanHonours(norm: Normalizer, b: Brief, location: Option<string>, total: real, currency: string)
    requires Given(b.location) ==> LocationMatches(norm, b.location.value, location)
    requires b.budgetAmount.Some? ==> total == b.budgetAmount.value
    requires b.budgetAmount.Some? && Given(b.budgetCurrency) ==> norm(b.budgetCurrency.value) == norm(currency)
    ensures Honours(norm, b, ModestPlan(b, location, total, currency))
  {
    hide Contains;
    var p := ModestPlan(b, location, total, currency);
    assert p.budget.value.items[..0] == [];
    assert ItemTotal(p.budget.value.items) == total;
  }

  lemma ContainsItself(text: string)
    ensures Contains(text, text)
  {
    assert StandsAt(text, text, 0);
  }

  function Kept(text: Option<string>): string {
    if text.Some? then text.value else ""
  }

  /** The plan that keeps to the brief's own location and currency. */
  lemma OwnPlanHonours(norm: Normalizer, b: Brief, total: real)
    requires b.budgetAmount.Some? ==> total == b.budgetAmount.value
    ensures Honours(norm, b, ModestPlan(b, b.location, total, Kept(b.budgetCurrency)))
  {
    hide Contains;
    if Given(b.location) {
      ContainsItself(norm(b.location.value));
    }
    ModestPlanHonours(norm, b, b.location, total, Kept(b.budgetCurrency));
  }

  lemma CoversSuffices(norm: Normalizer, b0: Brief, b1: Brief, p: Plan)
    requires Covers(norm, b0, b1) && Honours(norm, b0, p)
    ensures Honours(norm, b1, p)
  {
    hide Contains, ItemTotal;
    if b1.channels.Some? {
      forall c | c in b1.channels.value ensures exists e :: e in p.channels && norm(e) == norm(c) {
        var d :| d in b0.channels.value && norm(d) == norm(c);
        var e :| e in p.channels && norm(e) == norm(d);
      }
    }
  }

  lemma ChannelsNeeded(norm: Normalizer, b0: Brief, b1: Brief)
    requires Entails(norm, b0, b1)
    ensures ChannelsCovered(norm, b0, b1)
  {
    hide LocationHonoured, BudgetHonoured;
    var total := if b0.budgetAmount.Some? then b0.budgetAmount.value else 0.0;
    OwnPlanHonours(norm, b0, total);
    assert Honours(norm, b1, ModestPlan(b0, b0.location, total, Kept(b0.budgetCurrency)));
  }

  lemma BudgetNeeded(norm: Normalizer, b0: Brief, b1: Brief, s: string, t: string)
    requires Entails(norm, b0, b1) && norm(s) != norm(t)
    ensures BudgetCovered(norm, b0, b1)
  {
    hide LocationHonoured, ChannelsHonoured, ItemTotal, LocationMatches;
    if b1.budgetAmount.Some? {
      var total := if b0.budgetAmount.Some? then b0.budgetAmount.value else b1.budgetAmount.value + 1.0;
      OwnPlanHonours(norm, b0, total);
      assert Honours(norm, b1, ModestPlan(b0, b0.location, total, Kept(b0.budgetCurrency)));
      assert b0.budgetAmount == b1.budgetAmount;
      if Given(b1.budgetCurrency) && !Given(b0.budgetCurrency) {
        var other := if norm(s) == norm(b1.budgetCurrency.value) then t else s;
        OwnLocationMatches(norm, b0);
        ModestPlanHonours(norm, b0, b0.location, total, other);
      }
    }
  }

  lemma OwnLocationMatches(norm: Normalizer, b: Brief)
    ensures Given(b.location) ==> LocationMatches(norm, b.location.value, b.location)
  {
    hide Contains;
    if Given(b.location) {
      ContainsItself(norm(b.location.value));
    }
  }

  lemma LocationNeeded(norm: Normalizer, b0: Brief, b1: Brief)
    requires Entails(norm, b0, b1)
    ensures LocationCovered(norm, b0, b1)
  {
    hide BudgetHonoured, ChannelsHonoured, Contains;
    var total := if b0.budgetAmount.Some? then b0.budgetAmount.value else 0.0;
    if Given(b1.location) {
      if !Given(b0.location) {
        ModestPlanHonours(norm, b0, None, total, Kept(b0.budgetCurrency));
      }
      forall t | LocationMatches(norm, b0.location.value, Some(t)) ensures LocationMatches(norm, b1.location.value,
          Some(t)) {
        ModestPlanHonours(norm, b0, Some(t), total, Kept(b0.budgetCurrency));
        assert Honours(norm, b1, ModestPlan(b0, Some(t), total, Kept(b0.budgetCurrency)));
      }
    }
  }

  ghost predicate Distinguishes(norm: Normalizer) {
    exists s, t :: norm(s) != norm(t)
  }

  /** What a change of the brief may be without making some plan unfit: exactly one that adds no channel,
      budget or currency and narrows no location, up to normal forms. */
  lemma EntailsExactly(norm: Normalizer, b0: Brief, b1: Brief)
    requires Distinguishes(norm)
    ensures Entails(norm, b0, b1) <==> Covers(norm, b0, b1)
  {
    hide Honours, ChannelsCovered, BudgetCovered, LocationCovered;
    if Covers(norm, b0, b1) {
      forall p | Honours(norm, b0, p) ensures Honours(norm, b1, p) {
        CoversSuffices(norm, b0, b1, p);
      }
    }
    if Entails(norm, b0, b1) {
      var s, t :| norm(s) != norm(t);
      ChannelsNeeded(norm, b0, b1);
      BudgetNeeded(norm, b0, b1, s, t);
      LocationNeeded(norm, b0, b1);
    }
  }

  // ----- Locations, decided by looking ----------------------------------------------------

  predicate PartKept(norm: Normalizer, was: string, now: string, i: nat, j: nat)
    requires i <= j <= |was|
  {
    norm(was[i..j]) == was[i..j] ==> Comparable(was[i..j], now)
  }

  /** The old location contains the new one, and no part of it that stands for itself is at odds with it. */
  predicate LocationKept(norm: Normalizer, l0: string, l1: string) {
    && Contains(norm(l0), norm(l1))
    && forall i, j :: 0 <= i <= j <= |norm(l0)| ==> PartKept(norm, norm(l0), norm(l1), i, j)
  }

  /** What is assumed of normal forms for this: they are their own, and any that does not contain another
      can be extended to one that is not comparable with it. */
  ghost predicate Roomy(norm: Normalizer) {
    && (forall t :: SelfNormal(norm, t))
    && forall l0, l1 :: !Contains(norm(l0), norm(l1)) ==> CanExtend(norm, norm(l0), norm(l1))
  }

  predicate SelfNormal(norm: Normalizer, t: string) {
    norm(norm(t)) == norm(t)
  }

  ghost predicate CanExtend(norm: Normalizer, was: string, now: string) {
    exists t :: Contains(norm(t), was) && !Comparable(norm(t), now)
  }

  function Plain(): Normalizer {
    (t: string) => t
  }

  /** Plain texts are such normal forms: a long run of another letter makes the extension. */
  lemma PlainIsRoomy()
    ensures Roomy(Plain())
  {
    hide Contains;
    forall l0, l1 | !Contains(Plain()(l0), Plain()(l1)) ensures CanExtend(Plain(), Plain()(l0), Plain()(l1)) {
      PlainExtends(l0, l1);
    }
  }

  lemma PlainExtends(was: string, now: string)
    requires !Contains(was, now)
    ensures CanExtend(Plain(), was, now)
  {
    assert now != "" by {
      if now == "" {
        assert StandsAt(was, now, 0);
      }
    }
    var last := now[|now| - 1];
    var c := if last == 'a' then 'b' else 'a';
    var t := was + seq(|now| + 1, _ => c);
    assert StandsAt(t, was, 0);
    forall i | 0 <= i <= |t| ensures !StandsAt(t, now, i) {
      if StandsAt(t, now, i) {
        assert t[i..i + |now|][|now| - 1] == t[i + |now| - 1];
        assert StandsAt(was, now, i);
        assert false;
      }
    }
    assert Plain()(t) == t && !Comparable(t, now);
  }

  lemma ContainsTransitive(a: string, b: string, c: string)
    requires Contains(a, b) && Contains(b, c)
    ensures Contains(a, c)
  {
    var i :| 0 <= i <= |a| && StandsAt(a, b, i);
    var j :| 0 <= j <= |b| && StandsAt(b, c, j);
    forall k | 0 <= k < |c| ensures a[i + j + k] == c[k] {
      assert a[i..i + |b|][j + k] == b[j + k] && b[j..j + |c|][k] == b[j + k];
    }
    assert StandsAt(a, c, i + j);
  }

  /** Two locations are compared by their normal forms and finitely many parts of the old one. */
  lemma LocationKeptExactly(norm: Normalizer, l0: string, l1: string)
    requires Roomy(norm)
    ensures LocationKept(norm, l0, l1) <==>
      forall t :: LocationMatches(norm, l0, Some(t)) ==> LocationMatches(norm, l1, Some(t))
  {
    hide Contains, CanExtend, PartKept;
    var n0, n1 := norm(l0), norm(l1);
    if LocationKept(norm, l0, l1) {
      forall t | LocationMatches(norm, l0, Some(t)) ensures LocationMatches(norm, l1, Some(t)) {
        KeptMatches(norm, l0, l1, t);
      }
    }
    if forall t :: LocationMatches(norm, l0, Some(t)) ==> LocationMatches(norm, l1, Some(t)) {
      if !Contains(n0, n1) {
        RoomToExtend(norm, l0, l1);
      }
      OldContainsNew(norm, l0, l1);
      forall i, j | 0 <= i <= j <= |n0| ensures PartKept(norm, n0, n1, i, j) {
        PartIsKept(norm, l0, l1, i, j);
      }
    }
  }

  lemma RoomToExtend(norm: Normalizer, l0: string, l1: string)
    requires Roomy(norm) && !Contains(norm(l0), norm(l1))
    ensures CanExtend(norm, norm(l0), norm(l1))
  {
    hide CanExtend, SelfNormal, Contains;
  }

  lemma OldContainsNew(norm: Normalizer, l0: string, l1: string)
    requires !Contains(norm(l0), norm(l1)) ==> CanExtend(norm, norm(l0), norm(l1))
    requires forall t :: LocationMatches(norm, l0, Some(t)) ==> LocationMatches(norm, l1, Some(t))
    ensures Contains(norm(l0), norm(l1))
  {
    hide Contains;
    forall t | Comparable(norm(t), norm(l0)) ensures Comparable(norm(t), norm(l1)) {
      assert LocationMatches(norm, l0, Some(t));
    }
  }

  lemma PartIsKept(norm: Normalizer, l0: string, l1: string, i: nat, j: nat)
    requires forall t :: LocationMatches(norm, l0, Some(t)) ==> LocationMatches(norm, l1, Some(t))
    requires i <= j <= |norm(l0)|
    ensures PartKept(norm, norm(l0), norm(l1), i, j)
  {
    hide Contains;
    var part := norm(l0)[i..j];
    PartIsContained(norm(l0), i, j);
    if norm(part) == part {
      assert LocationMatches(norm, l0, Some(part));
    }
  }

  lemma PartIsContained(text: string, i: nat, j: nat)
    requires i <= j <= |text|
    ensures Contains(text, text[i..j])
  {
    assert StandsAt(text, text[i..j], i);
  }

  lemma KeptMatches(norm: Normalizer, l0: string, l1: string, t: string)
    requires Roomy(norm) && LocationKept(norm, l0, l1) && LocationMatches(norm, l0, Some(t))
    ensures LocationMatches(norm, l1, Some(t))
  {
    hide CanExtend;
    var n0, m := norm(l0), norm(t);
    if Contains(m, n0) {
      hide Contains;
      ContainsTransitive(m, n0, norm(l1));
    } else {
      var i :| 0 <= i <= |n0| && StandsAt(n0, m, i);
      hide Contains;
      assert SelfNormal(norm, t);
      assert PartKept(norm, n0, norm(l1), i, i + |m|);
    }
  }

  // ----- Requests -------------------------------------------------------------------------

  /** The brief gained no demand between the read and the request of a generation. */
  ghost predicate Timely(norm: Normalizer, w: World, step: Step) {
    step.Request? && step.k < |w.read| && w.read[step.k].Some? && w.campaign.status == Ready ==>
      Covers(norm, w.read[step.k].value, w.campaign.brief)
  }

  ghost predicate TimelyRun(norm: Normalizer, initial: Brief, steps: seq<Step>) {
    forall n :: 0 <= n < |steps| ==> Timely(norm, After(norm, initial, steps[..n]), steps[n])
  }

  ghost predicate TimelyInv(norm: Normalizer, w: World) {
    && WorldInv(norm, w)
    && Consistent(norm, w.campaign)
    && (w.active.Some? ==> Covers(norm, w.active.value.brief, w.campaign.brief))
  }

  lemma StepKeepsTimely(norm: Normalizer, w: World, step: Step)
    requires TimelyInv(norm, w) && Timely(norm, w, step)
    ensures TimelyInv(norm, Stepped(norm, w, step))
  {
    hide Merge, Retains, Honours, PlanIssues, Covers;
    StepKeepsWorld(norm, w, step);
    if Next(norm, w, step).Some? {
      match step
      case UpdateBrief(x) => BriefUpdateIsConsistent(norm, w.campaign, x);
      case Persist => CoversSuffices(norm, w.active.value.brief, w.campaign.brief, w.campaign.plan.value);
      case _ =>
    }
  }

  /** Campaign consistency, over every interleaving in which no generation is requested on a brief that
      demands more than the one it read: PLAN_READY means a stored plan that honours the current brief,
      BRIEFING means exactly that the brief is not ready. */
  lemma {:induction false} CampaignIsConsistent(norm: Normalizer, initial: Brief, steps: seq<Step>)
    requires TimelyRun(norm, initial, steps)
    ensures TimelyInv(norm, After(norm, initial, steps))
    decreases |steps|
  {
    hide Stepped, Honours, Timely;
    if steps != [] {
      var init := steps[..|steps| - 1];
      forall n | 0 <= n < |init| ensures Timely(norm, After(norm, initial, init[..n]), init[n]) {
        assert init[..n] == steps[..n];
      }
      CampaignIsConsistent(norm, initial, init);
      StepKeepsTimely(norm, After(norm, initial, init), steps[|steps| - 1]);
    }
  }

  /** A generation reads the brief, the client says more, and only then the generation is requested. */
  function Race(said: Brief, p: Plan): seq<Step> {
    [ReadBrief, UpdateBrief(said), Request(0), Attempt(Some(p)), Save, Persist]
  }

  /** Where the race leads: a ready plan beside a brief it was not judged against. */
  lemma RaceEnds(norm: Normalizer, b0: Brief, said: Brief, p: Plan)
    requires IsReady(b0) && Honours(norm, b0, p)
    ensures After(norm, b0, Race(said, p)).campaign == Campaign(PlanReady, Merge(b0, said), Some(p))
  {
    hide Merge, Honours, PlanIssues;
    MergeRetains(b0, said);
    NoIssuesExactly(norm, b0, p);
    var b1 := Merge(b0, said);
    var w0 := Start(b0);
    var w1 := Stepped(norm, w0, ReadBrief);
    var w2 := Stepped(norm, w1, UpdateBrief(said));
    assert w2.campaign == Campaign(Ready, b1, None);
    var w3 := Stepped(norm, w2, Request(0));
    var w4 := Stepped(norm, w3, Attempt(Some(p)));
    var w5 := Stepped(norm, w4, Save);
    RaceUnfolds(norm, b0, said, p);
  }

  lemma RaceUnfolds(norm: Normalizer, b0: Brief, said: Brief, p: Plan)
    ensures After(norm, b0, Race(said, p)) ==
      Stepped(norm, Stepped(norm, Stepped(norm, Stepped(norm, Stepped(norm, Stepped(norm, Start(b0),
        ReadBrief), UpdateBrief(said)), Request(0)), Attempt(Some(p))), Save), Persist)
  {
    hide Stepped, After;
    var r := Race(said, p);
    assert r == [] + [r[0]] + [r[1]] + [r[2]] + [r[3]] + [r[4]] + [r[5]];
    AfterNothing(norm, b0);
    AfterOneMore(norm, b0, [], r[0]);
    AfterOneMore(norm, b0, [] + [r[0]], r[1]);
    AfterOneMore(norm, b0, [] + [r[0]] + [r[1]], r[2]);
    AfterOneMore(norm, b0, [] + [r[0]] + [r[1]] + [r[2]], r[3]);
    AfterOneMore(norm, b0, [] + [r[0]] + [r[1]] + [r[2]] + [r[3]], r[4]);
    AfterOneMore(norm, b0, [] + [r[0]] + [r[1]] + [r[2]] + [r[3]] + [r[4]], r[5]);
  }

  lemma AfterNothing(norm: Normalizer, b: Brief)
    ensures After(norm, b, []) == Start(b)
  {
  }

  lemma AfterOneMore(norm: Normalizer, b: Brief, steps: seq<Step>, step: Step)
    ensures After(norm, b, steps + [step]) == Stepped(norm, After(norm, b, steps), step)
  {
    hide Stepped;
    assert (steps + [step])[..|steps|] == steps;
  }

  /** The race is harmless, whatever plan is generated, exactly when what the client said adds no demand
      to the brief that was read. */
  lemma RaceIsSafeExactly(norm: Normalizer, b0: Brief, said: Brief, b1: Brief)
    requires !Incomplete(b0) && Learns(b0, said, b1) && Distinguishes(norm)
    ensures Covers(norm, b0, b1) <==>
      forall p :: Honours(norm, b0, p) ==> Consistent(norm, After(norm, b0, Race(said, p)).campaign)
  {
    MergeLearns(b0, said, b1);
    hide Merge, Learns, Honours, After, Covers, Distinguishes;
    MergeRetains(b0, said);
    EntailsExactly(norm, b0, Merge(b0, said));
    forall p | Honours(norm, b0, p)
      ensures Consistent(norm, After(norm, b0, Race(said, p)).campaign) <==> Honours(norm, Merge(b0, said), p)
    {
      RaceEnds(norm, b0, said, p);
    }
  }

  /** A generation from its request on. */
  function Rest(k: nat, p: Plan): seq<Step> {
    [Request(k), Attempt(Some(p)), Save, Persist]
  }

  lemma RestUnfolds(norm: Normalizer, initial: Brief, steps: seq<Step>, k: nat, p: Plan)
    ensures After(norm, initial, steps + Rest(k, p)) ==
      Stepped(norm, Stepped(norm, Stepped(norm, Stepped(norm, After(norm, initial, steps),
        Request(k)), Attempt(Some(p))), Save), Persist)
  {
    hide Stepped, After;
    var r := Rest(k, p);
    assert steps + r == steps + [r[0]] + [r[1]] + [r[2]] + [r[3]];
    AfterOneMore(norm, initial, steps, r[0]);
    AfterOneMore(norm, initial, steps + [r[0]], r[1]);
    AfterOneMore(norm, initial, steps + [r[0]] + [r[1]], r[2]);
    AfterOneMore(norm, initial, steps + [r[0]] + [r[1]] + [r[2]], r[3]);
  }

  /** How such a generation ends: with its plan ready, if that honours the brief it read. */
  lemma RestEnds(norm: Normalizer, initial: Brief, steps: seq<Step>, k: nat, p: Plan)
    requires
      var w := After(norm, initial, steps);
      w.campaign.status == Ready && k < |w.read| && w.read[k].Some?
    ensures
      var w := After(norm, initial, steps);
      After(norm, initial, steps + Rest(k, p)).campaign ==
        if Honours(norm, w.read[k].value, p) then Campaign(PlanReady, w.campaign.brief, Some(p))
        else w.campaign.(status := Generating)
  {
    hide After, Honours, PlanIssues;
    RestUnfolds(norm, initial, steps, k, p);
    var w := After(norm, initial, steps);
    NoIssuesExactly(norm, w.read[k].value, p);
    var w1 := Stepped(norm, w, Request(k));
    var w2 := Stepped(norm, w1, Attempt(Some(p)));
    var w3 := Stepped(norm, w2, Save);
  }

  /** In every reachable world: a waiting generation may be requested, whatever plan it will get, exactly
      when the brief demands nothing that the one it read does not. */
  lemma RequestIsSafeExactly(norm: Normalizer, initial: Brief, steps: seq<Step>, k: nat)
    requires Distinguishes(norm)
    requires
      var w := After(norm, initial, steps);
      w.campaign.status == Ready && k < |w.read| && w.read[k].Some?
    ensures
      var w := After(norm, initial, steps);
      Covers(norm, w.read[k].value, w.campaign.brief) <==>
        forall p :: Consistent(norm, After(norm, initial, steps + Rest(k, p)).campaign)
  {
    hide After, Honours, Covers, Distinguishes, Rest;
    var w := After(norm, initial, steps);
    var b0, b1 := w.read[k].value, w.campaign.brief;
    EntailsExactly(norm, b0, b1);
    StoredPlanWasJudged(norm, initial, steps);
    forall p
      ensures Consistent(norm, After(norm, initial, steps + Rest(k, p)).campaign) <==>
        (Honours(norm, b0, p) ==> Honours(norm, b1, p))
    {
      RestEnds(norm, initial, steps, k, p);
    }
  }

  /** Between any two moments of a run no known fact is lost, and briefing is never re-entered. */
  lemma {:induction false} CampaignOnlyAdvances(norm: Normalizer, initial: Brief, steps: seq<Step>, n: nat)
    requires n <= |steps|
    ensures Advances(After(norm, initial, steps[..n]).campaign, After(norm, initial, steps).campaign)
    decreases |steps| - n
  {
    hide Stepped, WorldInv, Retains, Merge, After;
    if n == |steps| {
      assert steps[..n] == steps;
      var c := After(norm, initial, steps).campaign;
      MergeRetains(c.brief, c.brief);
    } else {
      CampaignOnlyAdvances(norm, initial, steps, n + 1);
      OneStepAdvances(norm, initial, steps, n);
      AdvancesTransitively(After(norm, initial, steps[..n]).campaign, After(norm, initial, steps[..n + 1]).campaign,
                           After(norm, initial, steps).campaign);
    }
  }

  lemma OneStepAdvances(norm: Normalizer, initial: Brief, steps: seq<Step>, n: nat)
    requires n < |steps|
    ensures Advances(After(norm, initial, steps[..n]).campaign, After(norm, initial, steps[..n + 1]).campaign)
  {
    hide Stepped, WorldInv, Retains, Merge;
    var longer := steps[..n + 1];
    assert longer[..|longer| - 1] == steps[..n];
    StoredPlanWasJudged(norm, initial, steps[..n]);
    StepKeepsWorld(norm, After(norm, initial, steps[..n]), steps[n]);
  }

  // ----- The service --------------------------------------------------------------------

  datatype Reply = Proposed(plan: Plan) | ProviderFailed

  class CampaignService {
    var status: Status
    var brief: Brief
    var plan: Option<Plan>
    const norm: Normalizer

    function State(): Campaign
      reads this
    {
      Campaign(status, brief, plan)
    }

    predicate Valid()
      reads this
    {
      Sane(State())
    }

    /** create_campaign: briefing, then re-evaluated. */
    constructor (norm: Normalizer, initial: Brief)
      ensures Valid() && this.norm == norm && State() == Start(initial).campaign
    {
      this.norm := norm;
      brief, plan := initial, None;
      status := Briefing;
      new;
      var _ := ReevaluateReadiness(false);
    }

    method DoTransition(e: Event) returns (ok: bool)
      modifies this`status
      ensures ok <==> AfterEvent(old(State()), e).Success?
      ensures State() == if ok then AfterEvent(old(State()), e).value else old(State())
    {
      var target := Transition(status, e);
      ok := target.Some?;
      if ok {
        status := target.value;
      }
    }

    method ReevaluateReadiness(briefChanged: bool) returns (ok: bool)
      modifies this`status
      ensures ok <==> Reevaluated(old(State()), briefChanged).Success?
      ensures State() == if ok then Reevaluated(old(State()), briefChanged).value else old(State())
    {
      if status == Generating {
        return !briefChanged;
      }
      if status == PlanReady && !briefChanged {
        return true;
      }
      status := StatusForReadiness(brief);
      ok := true;
    }

    method UpdateBriefAndReevaluate(said: Brief) returns (ok: bool)
      requires Valid()
      modifies this
      ensures Valid() && Advances(old(State()), State())
      ensures ok <==> AfterBriefUpdate(old(State()), said).Success?
      ensures State() == if ok then AfterBriefUpdate(old(State()), said).value else old(State())
      // Refused exactly while a plan is generated and something new is said.
      ensures ok <==> old(status) != Generating || Learns(old(brief), said, old(brief))
      ensures old(status) == Generating ==> State() == old(State())
      ensures ok ==> Learns(old(brief), said, brief) && plan == old(plan)
      ensures ok && (brief != old(brief) || old(status) in {Briefing, Ready}) ==>
        status == if Incomplete(brief) then Briefing else Ready
      ensures ok && brief == old(brief) && old(status) in {Generating, PlanReady} ==> status == old(status)
    {
      MergeLearns(brief, said, Merge(brief, said));
      MergeLearns(brief, said, brief);
      hide Merge, Learns, Retains, Honours;
      MergeRetains(brief, said);
      if AfterBriefUpdate(State(), said).Success? {
        BriefUpdateIsConsistent(norm, State(), said);
      }
      var merged := Merge(brief, said);
      var changed := merged != brief;
      if status == Generating && changed {
        return false;
      }
      if changed {
        brief := merged;
      }
      ok := ReevaluateReadiness(changed);
    }

    /** What other requests can do between the brief's read and the request to generate: say more, or
        generate themselves; whatever keeps the campaign sane and advances it. */
    method OthersBeforeGenerating()
      requires Valid()
      modifies this
      ensures Valid() && Advances(old(State()), State())
    {
      hide Merge, Retains;
      MergeRetains(brief, brief);
      var other: Campaign := *;
      if Sane(other) && Advances(State(), other) {
        status, brief, plan := other.status, other.brief, other.plan;
      }
    }

    /** What other requests can do while this campaign is generating: nothing that lasts. */
    method OthersWhileGenerating()
      requires Valid() && status == Generating
      modifies this
      ensures State() == old(State())
    {
      var rounds: nat := *;
      while rounds > 0
        invariant State() == old(State())
      {
        var said: Brief := *;
        var claim: bool := *;
        var _ := UpdateBriefAndReevaluate(said);
        var _ := ReevaluateReadiness(claim);
        var _ := DoTransition(Exported);
        var _ := DoTransition(GenerationRequested);
        rounds := rounds - 1;
      }
    }

    /** The plan generator: any proposal or provider failure, given the issues to repair. */
    method Generate(b: Brief, repair: seq<Issue>) returns (reply: Reply) {
      reply := *;
    }

    /** What is wrong with a reply; nothing, if its plan can be used. */
    function IssuesOf(b: Brief, reply: Reply): seq<Issue> {
      if reply.ProviderFailed? then [StructuredOutputInvalid] else PlanIssues(norm, b, reply.plan)
    }

    /** Each attempt after the first was made because the one before failed, and was told why. */
    ghost predicate Repairs(b: Brief, asked: seq<seq<Issue>>, replies: seq<Reply>) {
      && |asked| == |replies| <= 2
      && forall i :: 0 <= i < |asked| ==> asked[i] == if i == 0 then [] else IssuesOf(b, replies[i - 1])
    }

    /** generate_plan: two attempts, the second told what was wrong with the first. Success leaves
        the returned plan stored and ready; it honours the brief that was read before the request, and
        the campaign is consistent exactly when it also honours the brief of the request. Failure
        leaves the campaign ready to try again with whatever plan it had before. */
    method GeneratePlan()
      returns (r: Result<Plan, Refusal>, ghost requested: Campaign, ghost asked: seq<seq<Issue>>,
          ghost replies: seq<Reply>)
      requires Valid()
      modifies this
      ensures Valid() && Advances(old(State()), State()) && Advances(old(State()), requested)
      ensures r.Success? ==>
        && requested.status == Ready && State() == Campaign(PlanReady, requested.brief, Some(r.value))
        && Honours(norm, old(brief), r.value)
        && (Consistent(norm, State()) <==> Honours(norm, requested.brief, r.value))
      ensures r == Failure(InvalidTransition) <==> requested.status != Ready
      ensures r == Failure(InvalidTransition) ==> State() == requested
      ensures r.Failure? && r.error.PlanRejected? ==> State() == requested && r.error.issues != []
      ensures Repairs(old(brief), asked, replies)
      ensures forall i :: 0 <= i < |replies| - 1 ==> IssuesOf(old(brief), replies[i]) != []
      ensures r.Success? ==> replies != [] && replies[|replies| - 1] == Proposed(r.value)
      ensures r.Failure? && r.error.PlanRejected? ==>
        |replies| == 2 && r.error.issues == IssuesOf(old(brief), replies[1])
    {
      asked, replies := [], [];
      hide Merge, Retains, Honours, PlanIssues;
      var seen := brief;
      OthersBeforeGenerating();
      requested := State();
      MergeRetains(brief, brief);
      var started := DoTransition(GenerationRequested);
      if !started {
        return Failure(InvalidTransition), requested, asked, replies;
      }
      var repair: seq<Issue> := [];
      for attempt := 0 to MAX_ATTEMPTS
        invariant Valid() && State() == requested.(status := Generating)
        invariant |replies| == attempt && Repairs(seen, asked, replies)
        invariant repair == if attempt == 0 then [] else IssuesOf(seen, replies[attempt - 1])
        invariant forall i :: 0 <= i < attempt ==> IssuesOf(seen, replies[i]) != []
      {
        OthersWhileGenerating();
        var reply := Generate(seen, repair);
        asked, replies := asked + [repair], replies + [reply];
        OthersWhileGenerating();
        if reply.ProviderFailed? {
          repair := [StructuredOutputInvalid];
          continue;
        }
        var issues := Validate(norm, seen, reply.plan);
        NoIssuesExactly(norm, seen, reply.plan);
        if issues != [] {
          repair := issues;
          continue;
        }
        plan := Some(reply.plan);
        OthersWhileGenerating();
        var persisted := DoTransition(PlanPersisted);
        return Success(reply.plan), requested, asked, replies;
      }
      var failed := DoTransition(GenerationFailed);
      r := Failure(PlanRejected(repair));
    }
  }
}
