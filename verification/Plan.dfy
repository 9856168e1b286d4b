/** Start plans: what a plan grants, the revision that ties it to the ledger it was
    made from, and the start of a confirmed plan. */
module Plan {
  import opened Prelude
  import opened RunLedger
  import opened Slots
  import opened RefillLoop

  datatype RolePolicy = RolePolicy(maxParallel: nat, executionLimit: Option<nat>)

  datatype Config = Config(project: ProjectId, maxParallel: nat, roles: PerRole<RolePolicy>, paused: bool)

  datatype Request = Request(role: Role, slots: nat, manual: seq<Target>)

  datatype Eligibility =
    | Unreadable
    | Verdict(target: Option<Target>, eligible: set<Target>, deferred: bool)

  /** What the helpers and the provider answer while a plan is made. */
  datatype Answers = Answers(
    locked: bool,
    eligibility: Role -> Eligibility,
    wellFormed: Target -> bool,
    leased: Target -> bool,
    ready: Role -> bool)

  datatype Reason =
    | ProjectPaused | MigrationLock | EligibilityFailed
    | DuplicateTarget | InvalidTarget | ActiveLease | TargetUnavailable
    | NoTarget | ProviderNotReady
    | ExecutionLimit | SlotsHeldByUnrecoveredRuns | LimitReached

  datatype RolePlan = RolePlan(role: Role, granted: nat, targets: seq<Target>, excluded: seq<Reason>)

  function LimitsOf(config: Config, device: nat): Limits {
    Limits(device, _ => config.maxParallel, (_, role: Role) => config.roles.Of(role).maxParallel)
  }

  /** Free and held slots at the three levels that bound one role. */
  datatype Level = Level(remaining: nat, occupied: nat)

  function LevelOf(runs: map<RunId, Row>, limits: Limits, scope: Scope): Level {
    Level(Remaining(runs, limits, scope), |Occupying(runs, scope)|)
  }

  function NatMin(x: nat, y: nat): nat {
    if x < y then x else y
  }

  // ----- Manual targets -----

  datatype Checked = Checked(accepted: seq<Target>, reasons: seq<Reason>)

  /** `validate_manual_targets`. */
  function CheckTargets(targets: seq<Target>, ans: Answers): Checked {
    if targets == [] then Checked([], [])
    else
      var done := CheckTargets(targets[..|targets| - 1], ans);
      var target := targets[|targets| - 1];
      if target in done.accepted then done.(reasons := done.reasons + [DuplicateTarget])
      else if !ans.wellFormed(target) then done.(reasons := done.reasons + [InvalidTarget])
      else if ans.leased(target) then done.(reasons := done.reasons + [ActiveLease])
      else done.(accepted := done.accepted + [target])
  }

  method ValidateManualTargets(targets: seq<Target>, ans: Answers) returns (checked: Checked)
    ensures checked == CheckTargets(targets, ans)
  {
    var accepted: seq<Target>, reasons: seq<Reason> := [], [];
    for i := 0 to |targets|
      invariant Checked(accepted, reasons) == CheckTargets(targets[..i], ans)
    {
      assert targets[..i + 1][..i] == targets[..i];
      var target := targets[i];
      if target in accepted {
        reasons := reasons + [DuplicateTarget];
      } else if !ans.wellFormed(target) {
        reasons := reasons + [InvalidTarget];
      } else if ans.leased(target) {
        reasons := reasons + [ActiveLease];
      } else {
        accepted := accepted + [target];
      }
    }
    assert targets[..|targets|] == targets;
    checked := Checked(accepted, reasons);
  }

  predicate Distinct(targets: seq<Target>) {
    forall i, j | 0 <= i < j < |targets| :: targets[i] != targets[j]
  }

  /** Every target named once is accepted exactly when it is well formed and free,
      and every other mention is answered by a reason. */
  lemma {:induction false} AcceptedTargets(targets: seq<Target>, ans: Answers)
    ensures
      var checked := CheckTargets(targets, ans);
      && Distinct(checked.accepted)
      && (forall t :: t in checked.accepted <==> t in targets && ans.wellFormed(t) && !ans.leased(t))
      && |checked.accepted| + |checked.reasons| == |targets|
  {
    if targets != [] {
      var front, last := targets[..|targets| - 1], targets[|targets| - 1];
      AcceptedTargets(front, ans);
      assert targets == front + [last];
    }
  }

  function Filter(targets: seq<Target>, keep: set<Target>): seq<Target> {
    if targets == [] then []
    else (if targets[0] in keep then [targets[0]] else []) + Filter(targets[1..], keep)
  }

  /** The targets a manual request may still take. */
  function UsableTargets(request: Request, ans: Answers): seq<Target> {
    var accepted := CheckTargets(request.manual, ans).accepted;
    match ans.eligibility(request.role)
    case Unreadable => Filter(accepted, {})
    case Verdict(_, eligible, deferred) => if deferred then accepted else Filter(accepted, eligible)
  }

  // ----- One role -----

  /** What limits alone would grant, now and had every occupying run been swept. */
  datatype Share = Share(now: nat, ifSwept: nat)

  function ShareOf(slots: nat, policy: RolePolicy, role: Level, budget: Share): Share {
    var now := NatMin(NatMin(slots, role.remaining), budget.now);
    var swept := NatMin(NatMin(slots, role.remaining + role.occupied), budget.ifSwept);
    match policy.executionLimit
    case None => Share(now, swept)
    case Some(limit) => Share(NatMin(now, limit), NatMin(swept, limit))
  }

  function GateReasons(config: Config, ans: Answers, eligibility: Eligibility): seq<Reason> {
    (if config.paused then [ProjectPaused] else [])
    + (if ans.locked then [MigrationLock] else [])
    + (if eligibility.Unreadable? then [EligibilityFailed] else [])
  }

  function TargetReasons(request: Request, ans: Answers): seq<Reason> {
    var eligibility := ans.eligibility(request.role);
    var reasons := CheckTargets(request.manual, ans).reasons;
    if request.manual != [] then
      if UsableTargets(request, ans) == [] && reasons == [] then [TargetUnavailable] else reasons
    else if eligibility.Unreadable? || eligibility.target.None? then [NoTarget]
    else []
  }

  /** The exclusions that are known before the provider is asked. */
  function Excluded(config: Config, request: Request, ans: Answers): seq<Reason> {
    GateReasons(config, ans, ans.eligibility(request.role)) + TargetReasons(request, ans)
  }

  predicate MayStart(config: Config, request: Request, ans: Answers) {
    var eligibility := ans.eligibility(request.role);
    && !config.paused && !ans.locked && eligibility.Verdict?
    && (request.manual == [] ==> eligibility.target.Some?)
  }

  /** The grant before the provider is asked. */
  function Wanted(config: Config, request: Request, ans: Answers, share: Share): nat {
    if !MayStart(config, request, ans) then 0
    else if request.manual != [] then NatMin(share.now, |UsableTargets(request, ans)|)
    else share.now
  }

  function Label(policy: RolePolicy, granted: nat, share: Share): Reason {
    if policy.executionLimit == Some(granted) then ExecutionLimit
    else if granted < share.ifSwept then SlotsHeldByUnrecoveredRuns
    else LimitReached
  }

  function PlanRole(config: Config, request: Request, ans: Answers, role: Level, budget: Share): RolePlan {
    var policy := config.roles.Of(request.role);
    var share := ShareOf(request.slots, policy, role, budget);
    var wanted := Wanted(config, request, ans, share);
    var before := Excluded(config, request, ans);
    var refused := wanted > 0 && !ans.ready(request.role);
    var granted := if refused then 0 else wanted;
    var excluded := before + if refused then [ProviderNotReady] else [];
    RolePlan(request.role, granted, if request.manual == [] then [] else UsableTargets(request, ans),
             if granted < request.slots && excluded == [] then [Label(policy, granted, share)] else excluded)
  }

  /** Plans for the requests from the `i`th on, each taking its grant out of the
      common budget. */
  function PlansFrom(
      runs: map<RunId, Row>, config: Config, device: nat, requests: seq<Request>, ans: Answers, i: nat, budget: Share)
    : (plans: seq<RolePlan>)
    requires i <= |requests|
    ensures |plans| == |requests| - i
    decreases |requests| - i
  {
    if i == |requests| then []
    else
      var plan := NextPlan(runs, config, device, requests[i], ans, budget);
      [plan] + PlansFrom(runs, config, device, requests, ans, i + 1, Spend(budget, plan.granted))
  }

  function NextPlan(
      runs: map<RunId, Row>, config: Config, device: nat, request: Request, ans: Answers, budget: Share): RolePlan
  {
    var role := InRole(config.project, request.role);
    PlanRole(config, request, ans, LevelOf(runs, LimitsOf(config, device), role), budget)
  }

  function Spend(budget: Share, granted: nat): Share {
    Share(Max0(budget.now - granted), Max0(budget.ifSwept - granted))
  }

  function Budget(runs: map<RunId, Row>, config: Config, device: nat): Share {
    var limits := LimitsOf(config, device);
    var d, p := LevelOf(runs, limits, Scope.Device), LevelOf(runs, limits, InProject(config.project));
    Share(NatMin(d.remaining, p.remaining), NatMin(d.remaining + d.occupied, p.remaining + p.occupied))
  }

  /** `build_plan`. */
  method BuildPlan(runs: map<RunId, Row>, config: Config, device: nat, requests: seq<Request>, ans: Answers)
    returns (plans: seq<RolePlan>)
    ensures plans == PlansFrom(runs, config, device, requests, ans, 0, Budget(runs, config, device))
  {
    var limits := LimitsOf(config, device);
    var budget := Budget(runs, config, device);
    ghost var all := PlansFrom(runs, config, device, requests, ans, 0, budget);
    plans := [];
    for i := 0 to |requests|
      invariant all == plans + PlansFrom(runs, config, device, requests, ans, i, budget)
    {
      var request := requests[i];
      var role := InRole(config.project, request.role);
      var plan := PlanOneRole(config, request, ans, LevelOf(runs, limits, role), budget);
      assert plan == NextPlan(runs, config, device, request, ans, budget);
      ghost var rest := PlansFrom(runs, config, device, requests, ans, i + 1, Spend(budget, plan.granted));
      Regroup(plans, [plan], rest);
      plans := plans + [plan];
      budget := Spend(budget, plan.granted);
    }
  }

  /** The body of `build_plan`'s loop. */
  method PlanOneRole(config: Config, request: Request, ans: Answers, role: Level, budget: Share)
    returns (plan: RolePlan)
    ensures plan == PlanRole(config, request, ans, role, budget)
  {
    var policy := config.roles.Of(request.role);
    var eligibility := ans.eligibility(request.role);
    var share := ShareOf(request.slots, policy, role, budget);
    var granted := share.now;
    var excluded: seq<Reason> := [];
    var targets: seq<Target> := [];
    if config.paused {
      granted := 0;
      excluded := excluded + [ProjectPaused];
    }
    if ans.locked {
      granted := 0;
      excluded := excluded + [MigrationLock];
    }
    if eligibility.Unreadable? {
      granted := 0;
      excluded := excluded + [EligibilityFailed];
    }
    assert excluded == GateReasons(config, ans, eligibility);
    var targetReasons;
    if request.manual != [] {
      targets, targetReasons := CheckManual(request, ans);
      granted := NatMin(granted, |targets|);
    } else if eligibility.Unreadable? || eligibility.target.None? {
      granted, targetReasons := 0, [NoTarget];
    } else {
      targetReasons := [];
    }
    excluded := excluded + targetReasons;
    assert excluded == Excluded(config, request, ans) && granted == Wanted(config, request, ans, share);
    if granted > 0 && !ans.ready(request.role) {
      granted := 0;
      excluded := excluded + [ProviderNotReady];
    }
    if granted < request.slots && excluded == [] {
      excluded := [Label(policy, granted, share)];
    }
    plan := RolePlan(request.role, granted, targets, excluded);
  }

  method CheckManual(request: Request, ans: Answers) returns (targets: seq<Target>, reasons: seq<Reason>)
    requires request.manual != []
    ensures targets == UsableTargets(request, ans) && reasons == TargetReasons(request, ans)
  {
    var eligibility := ans.eligibility(request.role);
    var checked := ValidateManualTargets(request.manual, ans);
    targets := checked.accepted;
    if eligibility.Unreadable? {
      targets := Filter(targets, {});
    } else if !eligibility.deferred {
      targets := Filter(targets, eligibility.eligible);
    }
    reasons := if targets == [] && checked.reasons == [] then [TargetUnavailable] else checked.reasons;
  }
}
