/** What plans promise: grants fit what remains, the label on a short grant means
    what it says, and a confirmed plan never breaks a limit. */
module PlanLimits {
  import opened Prelude
  import opened RunLedger
  import opened Slots
  import opened RefillLoop
  import opened Plan

  // ----- Grants -----

  function TotalGranted(plans: seq<RolePlan>): nat {
    if plans == [] then 0 else plans[0].granted + TotalGranted(plans[1..])
  }

  /** What one grant is bounded by, and what it takes to be granted anything. */
  lemma GrantFits(config: Config, request: Request, ans: Answers, role: Level, budget: Share)
    ensures
      var plan := PlanRole(config, request, ans, role, budget);
      var policy := config.roles.Of(request.role);
      && plan.role == request.role
      && plan.granted <= request.slots && plan.granted <= role.remaining && plan.granted <= budget.now
      && (policy.executionLimit.Some? ==> plan.granted <= policy.executionLimit.value)
      && (request.manual != [] ==> plan.granted <= |plan.targets|)
      && (plan.granted > 0 ==> MayStart(config, request, ans) && ans.ready(request.role))
      && (plan.granted == request.slots || plan.excluded != [])
  {
  }

  /** And nothing larger would have met all those bounds. */
  lemma GrantIsTheMost(config: Config, request: Request, ans: Answers, role: Level, budget: Share, grant: nat)
    requires MayStart(config, request, ans) && ans.ready(request.role)
    requires grant <= request.slots && grant <= role.remaining && grant <= budget.now
    requires
      var limit := config.roles.Of(request.role).executionLimit;
      limit.Some? ==> grant <= limit.value
    requires request.manual != [] ==> grant <= |UsableTargets(request, ans)|
    ensures grant <= PlanRole(config, request, ans, role, budget).granted
  {
  }

  /** Each plan answers its own request, within its role's remaining slots. */
  predicate Answered(plan: RolePlan, runs: map<RunId, Row>, config: Config, device: nat, request: Request) {
    && plan.role == request.role && plan.granted <= request.slots
    && plan.granted <= Remaining(runs, LimitsOf(config, device), InRole(config.project, request.role))
  }

  lemma NextPlanAnswers(
      runs: map<RunId, Row>, config: Config, device: nat,
      request: Request, ans: Answers, budget: Share)
    ensures Answered(NextPlan(runs, config, device, request, ans, budget), runs, config, device, request)
    ensures NextPlan(runs, config, device, request, ans, budget).granted <= budget.now
  {
    GrantFits(config, request, ans,
              LevelOf(runs, LimitsOf(config, device), InRole(config.project, request.role)), budget);
  }

  predicate AllAnswer(
      plans: seq<RolePlan>, runs: map<RunId, Row>, config: Config, device: nat, requests: seq<Request>, i: nat)
    requires i + |plans| == |requests|
  {
    plans == [] ||
    (Answered(plans[0], runs, config, device, requests[i])
     && AllAnswer(plans[1..], runs, config, device, requests, i + 1))
  }

  lemma {:induction false} GrantsFit(
      runs: map<RunId, Row>, config: Config, device: nat, requests: seq<Request>, ans: Answers, i: nat, budget: Share)
    requires i <= |requests|
    ensures
      var plans := PlansFrom(runs, config, device, requests, ans, i, budget);
      TotalGranted(plans) <= budget.now && AllAnswer(plans, runs, config, device, requests, i)
    decreases |requests| - i
  {
    if i < |requests| {
      var plan := NextPlan(runs, config, device, requests[i], ans, budget);
      NextPlanAnswers(runs, config, device, requests[i], ans, budget);
      GrantsFit(runs, config, device, requests, ans, i + 1, Spend(budget, plan.granted));
      var rest := PlansFrom(runs, config, device, requests, ans, i + 1, Spend(budget, plan.granted));
      assert ([plan] + rest)[1..] == rest;
    }
  }

  /** A plan grants, in all, no more than the device and the project have left,
      and to each role no more than the role has left. */
  lemma {:induction false} PlansFitWhatRemains(
      runs: map<RunId, Row>, config: Config, device: nat, requests: seq<Request>, ans: Answers)
    ensures
      var plans := PlansFrom(runs, config, device, requests, ans, 0, Budget(runs, config, device));
      && TotalGranted(plans) <= Remaining(runs, LimitsOf(config, device), Scope.Device)
      && TotalGranted(plans) <= Remaining(runs, LimitsOf(config, device), InProject(config.project))
      && AllAnswer(plans, runs, config, device, requests, 0)
  {
    GrantsFit(runs, config, device, requests, ans, 0, Budget(runs, config, device));
  }

  // ----- The label on a short grant -----

  /** The ledger once every occupying run is out of the way. */
  function WithoutOccupying(runs: map<RunId, Row>): map<RunId, Row> {
    map id | id in runs && !IsOccupying(runs[id]) :: runs[id]
  }

  lemma WithoutOccupyingRemains(runs: map<RunId, Row>, limits: Limits, scope: Scope)
    ensures Occupying(WithoutOccupying(runs), scope) == {}
    ensures Remaining(WithoutOccupying(runs), limits, scope) == Max0(Limit(limits, scope) - |Active(runs, scope)|)
  {
    assert Active(WithoutOccupying(runs), scope) == Active(runs, scope);
  }

  /** The three levels of a single-role request. */
  predicate IsLevel(config: Config, role: Role, scope: Scope) {
    scope in {Scope.Device, InProject(config.project), InRole(config.project, role)}
  }

  /** Active runs alone reach the limit. */
  predicate Full(runs: map<RunId, Row>, limits: Limits, scope: Scope) {
    |Active(runs, scope)| >= Limit(limits, scope)
  }

  /** Sweeping could free this level, as the plan counts. */
  predicate LooksFreeable(runs: map<RunId, Row>, limits: Limits, scope: Scope) {
    !Full(runs, limits, scope) || Occupying(runs, scope) != {}
  }

  /** Every level has room or an occupied slot, and yet some level is full of
      active runs. */
  predicate Misleading(runs: map<RunId, Row>, config: Config, device: nat, request: Request) {
    var limits := LimitsOf(config, device);
    var d, p, r := Scope.Device, InProject(config.project), InRole(config.project, request.role);
    && request.slots > 0 && config.roles.Of(request.role).executionLimit != Some(0)
    && LooksFreeable(runs, limits, d) && LooksFreeable(runs, limits, p) && LooksFreeable(runs, limits, r)
    && (Full(runs, limits, d) || Full(runs, limits, p) || Full(runs, limits, r))
  }

  function SingleGrant(runs: map<RunId, Row>, config: Config, device: nat, request: Request, ans: Answers): RolePlan {
    NextPlan(runs, config, device, request, ans, Budget(runs, config, device))
  }

  /** What is counted at one level. */
  datatype Count = Count(limit: nat, active: nat, occupied: nat) {
    function Left(): nat {
      Max0(limit - active - occupied)
    }

    function Swept(): Count {
      this.(occupied := 0)
    }

    predicate IsFull() {
      active >= limit
    }
  }

  function CountAt(runs: map<RunId, Row>, limits: Limits, scope: Scope): Count {
    Count(Limit(limits, scope), |Active(runs, scope)|, |Occupying(runs, scope)|)
  }

  function Least(cap: nat, d: nat, p: nat, r: nat): nat {
    NatMin(cap, NatMin(r, NatMin(d, p)))
  }

  lemma LabelArithmetic(cap: nat, d: Count, p: Count, r: Count, granted: nat, labelled: bool, again: nat)
    requires granted == Least(cap, d.Left(), p.Left(), r.Left())
    requires labelled <==> granted < Least(cap, d.Left() + d.occupied, p.Left() + p.occupied, r.Left() + r.occupied)
    requires again == Least(cap, d.Swept().Left(), p.Swept().Left(), r.Swept().Left())
    ensures
      var right := labelled <==> granted < again;
      var misleading :=
        && cap > 0
        && (!d.IsFull() || d.occupied > 0) && (!p.IsFull() || p.occupied > 0) && (!r.IsFull() || r.occupied > 0)
        && (d.IsFull() || p.IsFull() || r.IsFull());
      right <==> !misleading
  {
  }

  /** The cap of a request, before any level is looked at. */
  function CapOf(slots: nat, policy: RolePolicy): nat {
    match policy.executionLimit
    case None => slots
    case Some(limit) => NatMin(slots, limit)
  }

  function Cap(config: Config, request: Request): nat {
    CapOf(request.slots, config.roles.Of(request.role))
  }

  /** The budget that two levels leave. */
  function Common(d: Level, p: Level): Share {
    Share(NatMin(d.remaining, p.remaining), NatMin(d.remaining + d.occupied, p.remaining + p.occupied))
  }

  lemma ShareIsMin(slots: nat, policy: RolePolicy, role: Level, d: Level, p: Level)
    ensures
      var m := CapOf(slots, policy);
      var share := ShareOf(slots, policy, role, Common(d, p));
      && share.now == Least(m, d.remaining, p.remaining, role.remaining)
      && share.ifSwept == Least(m, d.remaining + d.occupied, p.remaining + p.occupied, role.remaining + role.occupied)
  {
  }

  /** An automatic request that nothing but limits can cut is answered by the
      bare shares, and labelled by comparing them. */
  lemma CutByLimitsOnly(config: Config, request: Request, ans: Answers, role: Level, budget: Share)
    requires request.manual == [] && MayStart(config, request, ans) && ans.ready(request.role)
    ensures
      var plan := PlanRole(config, request, ans, role, budget);
      var share := ShareOf(request.slots, config.roles.Of(request.role), role, budget);
      plan.granted == share.now && (SlotsHeldByUnrecoveredRuns in plan.excluded <==> share.now < share.ifSwept)
  {
    assert CheckTargets(request.manual, ans) == Checked([], []);
    assert GateReasons(config, ans, ans.eligibility(request.role)) == [];
    assert Excluded(config, request, ans) == [];
  }

  /** The plan's answer and label, when its share is what the levels leave. */
  lemma SharesAreByLevels(plan: RolePlan, share: Share, cap: nat, d: Level, p: Level, r: Level)
    requires plan.granted == share.now
    requires SlotsHeldByUnrecoveredRuns in plan.excluded <==> share.now < share.ifSwept
    requires share.now == Least(cap, d.remaining, p.remaining, r.remaining)
    requires share.ifSwept
               == Least(cap, d.remaining + d.occupied, p.remaining + p.occupied, r.remaining + r.occupied)
    ensures plan.granted == Least(cap, d.remaining, p.remaining, r.remaining)
    ensures SlotsHeldByUnrecoveredRuns in plan.excluded <==>
              plan.granted < Least(cap, d.remaining + d.occupied, p.remaining + p.occupied, r.remaining + r.occupied)
  {
  }

  lemma CutByLevels(config: Config, request: Request, ans: Answers, d: Level, p: Level, r: Level)
    requires request.manual == [] && MayStart(config, request, ans) && ans.ready(request.role)
    ensures
      var plan := PlanRole(config, request, ans, r, Common(d, p));
      && plan.granted == Least(Cap(config, request), d.remaining, p.remaining, r.remaining)
      && (SlotsHeldByUnrecoveredRuns in plan.excluded <==>
            plan.granted < Least(Cap(config, request), d.remaining + d.occupied, p.remaining + p.occupied,
                                 r.remaining + r.occupied))
  {
    CutByLimitsOnly(config, request, ans, r, Common(d, p));
    ShareIsMin(request.slots, config.roles.Of(request.role), r, d, p);
    SharesAreByLevels(PlanRole(config, request, ans, r, Common(d, p)),
                      ShareOf(request.slots, config.roles.Of(request.role), r, Common(d, p)),
                      Cap(config, request), d, p, r);
  }

  lemma CountIsLevel(runs: map<RunId, Row>, limits: Limits, scope: Scope)
    ensures
      var count := CountAt(runs, limits, scope);
      LevelOf(runs, limits, scope) == Level(count.Left(), count.occupied)
  {
  }

  lemma BudgetIsCommon(runs: map<RunId, Row>, config: Config, device: nat)
    ensures
      var limits := LimitsOf(config, device);
      var d, p := CountAt(runs, limits, Scope.Device), CountAt(runs, limits, InProject(config.project));
      Budget(runs, config, device) == Common(Level(d.Left(), d.occupied), Level(p.Left(), p.occupied))
  {
    CountIsLevel(runs, LimitsOf(config, device), Scope.Device);
    CountIsLevel(runs, LimitsOf(config, device), InProject(config.project));
  }

  lemma SingleGrantIsAPlan(runs: map<RunId, Row>, config: Config, device: nat, request: Request, ans: Answers)
    ensures
      var limits := LimitsOf(config, device);
      var d, p, r := CountAt(runs, limits, Scope.Device), CountAt(runs, limits, InProject(config.project)),
                     CountAt(runs, limits, InRole(config.project, request.role));
      SingleGrant(runs, config, device, request, ans)
        == PlanRole(config, request, ans, Level(r.Left(), r.occupied),
                    Common(Level(d.Left(), d.occupied), Level(p.Left(), p.occupied)))
  {
    BudgetIsCommon(runs, config, device);
    CountIsLevel(runs, LimitsOf(config, device), InRole(config.project, request.role));
  }

  lemma SingleGrantByCounts(runs: map<RunId, Row>, config: Config, device: nat, request: Request, ans: Answers)
    requires request.manual == [] && MayStart(config, request, ans) && ans.ready(request.role)
    ensures
      var limits := LimitsOf(config, device);
      var d, p, r := CountAt(runs, limits, Scope.Device), CountAt(runs, limits, InProject(config.project)),
                     CountAt(runs, limits, InRole(config.project, request.role));
      var plan := SingleGrant(runs, config, device, request, ans);
      && plan.granted == Least(Cap(config, request), d.Left(), p.Left(), r.Left())
      && (SlotsHeldByUnrecoveredRuns in plan.excluded <==>
            plan.granted < Least(Cap(config, request), d.Left() + d.occupied, p.Left() + p.occupied,
                                 r.Left() + r.occupied))
  {
    var limits := LimitsOf(config, device);
    var d, p, r := CountAt(runs, limits, Scope.Device), CountAt(runs, limits, InProject(config.project)),
                   CountAt(runs, limits, InRole(config.project, request.role));
    SingleGrantIsAPlan(runs, config, device, request, ans);
    CutByLevels(config, request, ans, Level(d.Left(), d.occupied), Level(p.Left(), p.occupied),
                Level(r.Left(), r.occupied));
  }

  lemma SweptGrantByCounts(runs: map<RunId, Row>, config: Config, device: nat, request: Request, ans: Answers)
    requires request.manual == [] && MayStart(config, request, ans) && ans.ready(request.role)
    ensures
      var limits := LimitsOf(config, device);
      var d, p, r := CountAt(runs, limits, Scope.Device), CountAt(runs, limits, InProject(config.project)),
                     CountAt(runs, limits, InRole(config.project, request.role));
      SingleGrant(WithoutOccupying(runs), config, device, request, ans).granted
        == Least(Cap(config, request), d.Swept().Left(), p.Swept().Left(), r.Swept().Left())
  {
    var limits := LimitsOf(config, device);
    SweptCount(runs, limits, Scope.Device);
    SweptCount(runs, limits, InProject(config.project));
    SweptCount(runs, limits, InRole(config.project, request.role));
    SingleGrantByCounts(WithoutOccupying(runs), config, device, request, ans);
  }

  lemma SweptCount(runs: map<RunId, Row>, limits: Limits, scope: Scope)
    ensures CountAt(WithoutOccupying(runs), limits, scope) == CountAt(runs, limits, scope).Swept()
  {
    WithoutOccupyingRemains(runs, limits, scope);
    assert Active(WithoutOccupying(runs), scope) == Active(runs, scope);
  }

  /** The label says "slots held by unrecovered runs" exactly when planning again
      without those runs would grant more, unless every level has room or an
      occupied slot while active runs alone fill some level. */
  lemma LabelIsCounterfactualIff(runs: map<RunId, Row>, config: Config, device: nat, request: Request, ans: Answers)
    requires request.manual == [] && MayStart(config, request, ans) && ans.ready(request.role)
    ensures
      var plan := SingleGrant(runs, config, device, request, ans);
      var again := SingleGrant(WithoutOccupying(runs), config, device, request, ans);
      var right := SlotsHeldByUnrecoveredRuns in plan.excluded <==> plan.granted < again.granted;
      right <==> !Misleading(runs, config, device, request)
  {
    var limits := LimitsOf(config, device);
    var d, p, r := CountAt(runs, limits, Scope.Device), CountAt(runs, limits, InProject(config.project)),
                   CountAt(runs, limits, InRole(config.project, request.role));
    SingleGrantByCounts(runs, config, device, request, ans);
    SweptGrantByCounts(runs, config, device, request, ans);
    var plan := SingleGrant(runs, config, device, request, ans);
    LabelArithmetic(Cap(config, request), d, p, r, plan.granted, SlotsHeldByUnrecoveredRuns in plan.excluded,
                    SingleGrant(WithoutOccupying(runs), config, device, request, ans).granted);
    MisleadingByCounts(runs, config, device, request);
  }

  lemma MisleadingByCounts(runs: map<RunId, Row>, config: Config, device: nat, request: Request)
    ensures
      var limits := LimitsOf(config, device);
      var d, p, r := CountAt(runs, limits, Scope.Device), CountAt(runs, limits, InProject(config.project)),
                     CountAt(runs, limits, InRole(config.project, request.role));
      Misleading(runs, config, device, request) <==>
        && Cap(config, request) > 0
        && (!d.IsFull() || d.occupied > 0) && (!p.IsFull() || p.occupied > 0) && (!r.IsFull() || r.occupied > 0)
        && (d.IsFull() || p.IsFull() || r.IsFull())
  {
  }

  /** Without over-commitment the label is always right. */
  lemma LabelIsRightWithinLimits(runs: map<RunId, Row>, config: Config, device: nat, request: Request, ans: Answers)
    requires request.manual == [] && MayStart(config, request, ans) && ans.ready(request.role)
    requires forall scope | IsLevel(config, request.role, scope) ::
               |Holding(runs, scope)| <= Limit(LimitsOf(config, device), scope)
    ensures
      var plan := SingleGrant(runs, config, device, request, ans);
      var again := SingleGrant(WithoutOccupying(runs), config, device, request, ans);
      SlotsHeldByUnrecoveredRuns in plan.excluded <==> plan.granted < again.granted
  {
    var limits := LimitsOf(config, device);
    forall scope | IsLevel(config, request.role, scope)
      ensures Full(runs, limits, scope) ==> |Occupying(runs, scope)| == 0
    {
      HoldingIsActivePlusOccupying(runs, scope);
    }
    LabelIsCounterfactualIff(runs, config, device, request, ans);
  }

  /** One active and one occupying run on a project of one: the plan promises that
      sweeping would help, and it would not. */
  lemma LabelCanMislead(active: Row, dropped: Row, request: Request, ans: Answers, config: Config)
    requires active.project == dropped.project == config.project && active.role == dropped.role == request.role
    requires IsActive(active) && IsOccupying(dropped)
    requires
      var single := RolePolicy(1, None);
      config == Config(config.project, 1, PerRole(single, single, single), false)
    requires request.manual == [] && request.slots == 1 && MayStart(config, request, ans) && ans.ready(request.role)
    ensures
      var runs := map[0 := active, 1 := dropped];
      && SlotsHeldByUnrecoveredRuns in SingleGrant(runs, config, 9, request, ans).excluded
      && SingleGrant(WithoutOccupying(runs), config, 9, request, ans).granted == 0
  {
    var runs := map[0 := active, 1 := dropped];
    var limits := LimitsOf(config, 9);
    forall scope | IsLevel(config, request.role, scope)
      ensures CountAt(runs, limits, scope) == Count(Limit(limits, scope), 1, 1)
    {
      assert Active(runs, scope) == {0};
      assert Occupying(runs, scope) == {1};
    }
    var d, p, r := Scope.Device, InProject(config.project), InRole(config.project, request.role);
    assert IsLevel(config, request.role, d) && IsLevel(config, request.role, p) && IsLevel(config, request.role, r);
    SingleGrantByCounts(runs, config, 9, request, ans);
    SweptGrantByCounts(runs, config, 9, request, ans);
  }
}
