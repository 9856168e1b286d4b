/** Starting a confirmed plan: only if nothing moved since it was made, and never
    past a limit. */
module ConfirmedStart {
  import opened Prelude
  import opened EventLog
  import opened RunLedger
  import opened RunWorld
  import opened Slots
  import opened Dispatch
  import opened Plan
  import opened PlanLimits
  import PlanOffers
  import RunOutcomes

  // ----- The revision -----

  /** What `runtime_revision` hashes; the hash itself is taken to be free of
      collisions. */
  datatype Revision = Revision(config: Config, device: nat, active: set<RunId>, occupied: set<RunId>)

  function RevisionOf(runs: map<RunId, Row>, config: Config, device: nat): Revision {
    Revision(config, device, Active(runs, Scope.Device), Occupying(runs, Scope.Device))
  }

  /** The same id never stands for a run of another project or role. */
  predicate SameOwners(a: map<RunId, Row>, b: map<RunId, Row>) {
    forall id | id in a && id in b :: a[id].project == b[id].project && a[id].role == b[id].role
  }

  ghost predicate OwnedBy(w: World, id: RunId, project: ProjectId, role: Role) {
    id in w.issued && (id in w.runs ==> w.runs[id].project == project && w.runs[id].role == role)
  }

  lemma TakeKeepsOwner(codec: Codec, w: World, step: Step, id: RunId, project: ProjectId, role: Role)
    requires Inv(codec, w) && Enabled(w, step) && OwnedBy(w, id, project, role)
    ensures OwnedBy(Take(codec, w, step), id, project, role)
  {
    if OnRun(step) {
      EffectKeepsRow(codec, w, step);
    }
  }

  /** Over any run of the ledger. */
  lemma {:induction false} OwnersNeverChange(codec: Codec, w: World, steps: seq<Step>, id: RunId)
    requires Inv(codec, w) && Possible(codec, w, steps)
    requires id in w.runs && id in After(codec, w, steps).runs
    ensures
      var end := After(codec, w, steps);
      end.runs[id].project == w.runs[id].project && end.runs[id].role == w.runs[id].role
  {
    OwnerOverRuns(codec, w, steps, id, w.runs[id].project, w.runs[id].role);
  }

  lemma {:induction false} OwnerOverRuns(
      codec: Codec, w: World, steps: seq<Step>, id: RunId, project: ProjectId, role: Role)
    requires Inv(codec, w) && Possible(codec, w, steps) && OwnedBy(w, id, project, role)
    ensures OwnedBy(After(codec, w, steps), id, project, role)
    decreases |steps|
  {
    if steps != [] {
      TakeKeepsInv(codec, w, steps[0]);
      TakeKeepsOwner(codec, w, steps[0], id, project, role);
      OwnerOverRuns(codec, Take(codec, w, steps[0]), steps[1..], id, project, role);
    }
  }

  lemma EqualRevisionsCountTheSame(a: map<RunId, Row>, b: map<RunId, Row>, config: Config, device: nat, scope: Scope)
    requires RevisionOf(a, config, device) == RevisionOf(b, config, device) && SameOwners(a, b)
    ensures Active(a, scope) == Active(b, scope) && Occupying(a, scope) == Occupying(b, scope)
  {
    forall id
      ensures id in Active(a, scope) <==> id in Active(b, scope)
      ensures id in Occupying(a, scope) <==> id in Occupying(b, scope)
    {
      assert id in Active(a, Scope.Device) <==> id in Active(b, Scope.Device);
      assert id in Occupying(a, Scope.Device) <==> id in Occupying(b, Scope.Device);
    }
  }

  lemma EqualRevisionsBudgetTheSame(a: map<RunId, Row>, b: map<RunId, Row>, config: Config, device: nat)
    requires RevisionOf(a, config, device) == RevisionOf(b, config, device) && SameOwners(a, b)
    ensures Budget(a, config, device) == Budget(b, config, device)
  {
    EqualRevisionsCountTheSame(a, b, config, device, Scope.Device);
    EqualRevisionsCountTheSame(a, b, config, device, InProject(config.project));
  }

  lemma EqualRevisionsPlanOneTheSame(
      a: map<RunId, Row>, b: map<RunId, Row>, config: Config, device: nat,
      request: Request, ans: Answers, budget: Share)
    requires RevisionOf(a, config, device) == RevisionOf(b, config, device) && SameOwners(a, b)
    ensures NextPlan(a, config, device, request, ans, budget) == NextPlan(b, config, device, request, ans, budget)
  {
    EqualRevisionsCountTheSame(a, b, config, device, InRole(config.project, request.role));
  }

  /** While the revision stands, planning again with the same answers plans the same. */
  lemma {:induction false} EqualRevisionsPlanTheSame(
      a: map<RunId, Row>, b: map<RunId, Row>, config: Config, device: nat,
      requests: seq<Request>, ans: Answers, i: nat, budget: Share)
    requires RevisionOf(a, config, device) == RevisionOf(b, config, device) && SameOwners(a, b)
    requires i <= |requests|
    ensures PlansFrom(a, config, device, requests, ans, i, budget)
         == PlansFrom(b, config, device, requests, ans, i, budget)
    decreases |requests| - i
  {
    if i < |requests| {
      EqualRevisionsPlanOneTheSame(a, b, config, device, requests[i], ans, budget);
      var plan := NextPlan(a, config, device, requests[i], ans, budget);
      EqualRevisionsPlanTheSame(a, b, config, device, requests, ans, i + 1, Spend(budget, plan.granted));
    }
  }

  // ----- Starting -----

  /** The project, the ids its runs will get and the answers its starts will meet. */
  datatype Site = Site(project: ProjectId, ids: nat -> RunId, ask: nat -> LaunchAnswers)

  datatype Tally = Tally(
    runs: map<RunId, Row>, asked: nat, started: seq<Row>, waiting: seq<Role>, failed: seq<Role>)

  function RemoveFirst(targets: seq<Target>, taken: Target): seq<Target> {
    if targets == [] then []
    else if targets[0] == taken then targets[1..]
    else [targets[0]] + RemoveFirst(targets[1..], taken)
  }

  function TargetsLeft(targets: seq<Target>, row: Row): seq<Target> {
    if row.lease.Some? then RemoveFirst(targets, row.lease.value.target) else targets
  }

  function Launched(site: Site, tally: Tally, role: Role, targets: seq<Target>): (Row, Tally) {
    var outcome := LaunchOutcome(site.project, role, targets, site.ask(tally.asked));
    (outcome.row, tally.(runs := RunsWith(tally.runs, site.ids(tally.asked), outcome), asked := tally.asked + 1))
  }

  /** Up to `n` starts of one role; the first that does not start ends it. */
  function StartRole(site: Site, tally: Tally, role: Role, targets: seq<Target>, n: nat): Tally
    decreases n
  {
    if n == 0 then tally
    else
      var (row, next) := Launched(site, tally, role, targets);
      if CountsAsStarted(row) then StartRole(site, Noted(next, role, row), role, TargetsLeft(targets, row), n - 1)
      else Noted(next, role, row)
  }

  function Noted(tally: Tally, role: Role, row: Row): Tally {
    if CountsAsStarted(row) then tally.(started := tally.started + [row])
    else if row.state == Idle then tally.(waiting := tally.waiting + [role])
    else tally.(failed := tally.failed + [role])
  }

  function StartAll(site: Site, tally: Tally, plans: seq<RolePlan>, i: nat): Tally
    requires i <= |plans|
    decreases |plans| - i
  {
    if i == |plans| then tally
    else StartAll(site, StartRole(site, tally, plans[i].role, plans[i].targets, plans[i].granted), plans, i + 1)
  }

  ghost predicate Fresh(site: Site, tally: Tally) {
    && (forall i: nat, j: nat | i < j :: site.ids(i) != site.ids(j))
    && (forall k: nat | k >= tally.asked :: site.ids(k) !in tally.runs)
  }

  lemma LaunchedKeepsFresh(site: Site, tally: Tally, role: Role, targets: seq<Target>)
    requires Fresh(site, tally)
    ensures Fresh(site, Launched(site, tally, role, targets).1)
  {
    var next := Launched(site, tally, role, targets).1;
    forall k: nat | k >= next.asked
      ensures site.ids(k) !in next.runs
    {
      assert next.runs.Keys <= tally.runs.Keys + {site.ids(tally.asked)};
      assert site.ids(tally.asked) != site.ids(k);
    }
  }

  method LaunchOne(store: AgentStore, site: Site, given: Tally, role: Role, targets: seq<Target>)
    returns (row: Row, tally: Tally)
    requires given.runs == store.runs && Fresh(site, given)
    modifies store
    ensures row == Launched(site, given, role, targets).0
    ensures tally == Noted(Launched(site, given, role, targets).1, role, row)
    ensures store.runs == tally.runs && store.intents == old(store.intents) && Fresh(site, tally)
  {
    LaunchedKeepsFresh(site, given, role, targets);
    row := QueueAndLaunch(store, site.ids(given.asked), site.project, role, targets, site.ask(given.asked));
    tally := given.(runs := store.runs, asked := given.asked + 1);
    if CountsAsStarted(row) {
      tally := tally.(started := tally.started + [row]);
    } else if row.state == Idle {
      tally := tally.(waiting := tally.waiting + [role]);
    } else {
      tally := tally.(failed := tally.failed + [role]);
    }
  }

  method StartOneRole(store: AgentStore, site: Site, given: Tally, plan: RolePlan) returns (tally: Tally)
    requires given.runs == store.runs && Fresh(site, given)
    modifies store
    ensures tally == StartRole(site, given, plan.role, plan.targets, plan.granted)
    ensures store.runs == tally.runs && store.intents == old(store.intents) && Fresh(site, tally)
  {
    tally := given;
    var targets, left := plan.targets, plan.granted;
    ghost var all := StartRole(site, given, plan.role, plan.targets, plan.granted);
    while left > 0
      invariant tally.runs == store.runs && store.intents == old(store.intents) && Fresh(site, tally)
      invariant all == StartRole(site, tally, plan.role, targets, left)
    {
      var row;
      row, tally := LaunchOne(store, site, tally, plan.role, targets);
      if !CountsAsStarted(row) {
        return;
      }
      targets := TargetsLeft(targets, row);
      left := left - 1;
    }
  }

  datatype SavedPlan = SavedPlan(plans: seq<RolePlan>, revision: Revision, expires: nat)

  datatype Refusal = PlanNotFound | PlanExpired | RuntimeChanged

  datatype StartAnswer =
    | Rejected(why: Refusal)
    | Success(tally: Tally)
    | PartialSuccess(tally: Tally)
    | Failure(tally: Tally)

  function Answer(tally: Tally): StartAnswer {
    if tally.failed == [] then Success(tally)
    else if tally.started != [] then PartialSuccess(tally)
    else Failure(tally)
  }

  function Confirm(runs: map<RunId, Row>, site: Site, config: Config, device: nat, saved: Option<SavedPlan>, now: nat)
    : StartAnswer
  {
    if saved.None? then Rejected(PlanNotFound)
    else if saved.value.expires <= now then Rejected(PlanExpired)
    else if saved.value.revision != RevisionOf(runs, config, device) then Rejected(RuntimeChanged)
    else Answer(StartAll(site, Tally(runs, 0, [], [], []), saved.value.plans, 0))
  }

  /** `_start_from_plan`, once its plan was taken from the store. */
  method StartFromPlan(
      store: AgentStore, site: Site, config: Config, device: nat, saved: Option<SavedPlan>, now: nat)
    returns (answer: StartAnswer)
    requires Fresh(site, Tally(store.runs, 0, [], [], []))
    modifies store
    ensures answer == Confirm(old(store.runs), site, config, device, saved, now)
    ensures store.runs == if answer.Rejected? then old(store.runs) else answer.tally.runs
    ensures store.intents == old(store.intents)
  {
    if saved.None? {
      return Rejected(PlanNotFound);
    }
    if saved.value.expires <= now {
      return Rejected(PlanExpired);
    }
    if saved.value.revision != RevisionOf(store.runs, config, device) {
      return Rejected(RuntimeChanged);
    }
    var plans := saved.value.plans;
    var tally := Tally(store.runs, 0, [], [], []);
    for i := 0 to |plans|
      invariant tally.runs == store.runs && store.intents == old(store.intents) && Fresh(site, tally)
      invariant StartAll(site, Tally(old(store.runs), 0, [], [], []), plans, 0) == StartAll(site, tally, plans, i)
    {
      tally := StartOneRole(store, site, tally, plans[i]);
    }
    answer := Answer(tally);
  }

  // ----- Limits -----

  predicate Touches(project: ProjectId, role: Role, scope: Scope) {
    match scope
    case Device => true
    case InProject(p) => p == project
    case InRole(p, r) => p == project && r == role
  }

  /** All that the plans from the `i`th on grant within a scope. */
  function GrantedWithin(plans: seq<RolePlan>, project: ProjectId, scope: Scope, i: nat): nat
    requires i <= |plans|
    decreases |plans| - i
  {
    if i == |plans| then 0
    else (if Touches(project, plans[i].role, scope) then plans[i].granted else 0)
         + GrantedWithin(plans, project, scope, i + 1)
  }

  ghost predicate AllPlausible(site: Site) {
    forall k: nat :: PlausibleAnswers(site.ask(k))
  }

  lemma LaunchHoldsOne(site: Site, tally: Tally, role: Role, targets: seq<Target>, scope: Scope)
    requires AllPlausible(site) && Fresh(site, tally)
    ensures |Holding(Launched(site, tally, role, targets).1.runs, scope)|
            <= |Holding(tally.runs, scope)| + if Touches(site.project, role, scope) then 1 else 0
  {
    var outcome := LaunchOutcome(site.project, role, targets, site.ask(tally.asked));
    assert PlausibleAnswers(site.ask(tally.asked));
    LaunchOutcomeOk(site.project, role, targets, site.ask(tally.asked));
    SavingOneRow(tally.runs, site.ids(tally.asked), outcome.row, scope);
  }

  lemma {:induction false} StartRoleKeepsFresh(site: Site, tally: Tally, role: Role, targets: seq<Target>, n: nat)
    requires Fresh(site, tally)
    ensures Fresh(site, StartRole(site, tally, role, targets, n))
    decreases n
  {
    if n > 0 {
      LaunchedKeepsFresh(site, tally, role, targets);
      var (row, next) := Launched(site, tally, role, targets);
      if CountsAsStarted(row) {
        StartRoleKeepsFresh(site, Noted(next, role, row), role, TargetsLeft(targets, row), n - 1);
      }
    }
  }

  lemma NotedHoldsOne(site: Site, tally: Tally, role: Role, targets: seq<Target>, scope: Scope)
    requires AllPlausible(site) && Fresh(site, tally)
    ensures
      var (row, next) := Launched(site, tally, role, targets);
      && Fresh(site, Noted(next, role, row))
      && |Holding(Noted(next, role, row).runs, scope)|
         <= |Holding(tally.runs, scope)| + if Touches(site.project, role, scope) then 1 else 0
  {
    LaunchedKeepsFresh(site, tally, role, targets);
    LaunchHoldsOne(site, tally, role, targets, scope);
  }

  /** One unfolding of `StartRole`. */
  lemma FirstStart(site: Site, tally: Tally, role: Role, targets: seq<Target>, n: nat)
    requires n > 0
    ensures
      var (row, next) := Launched(site, tally, role, targets);
      StartRole(site, tally, role, targets, n) ==
        if CountsAsStarted(row) then StartRole(site, Noted(next, role, row), role, TargetsLeft(targets, row), n - 1)
        else Noted(next, role, row)
  {
  }

  /** What the first start holds, and then the others, is what all of them hold. */
  lemma HoldsInAll(before: nat, noted: nat, after: nat, n: nat, touches: bool)
    requires n > 0 && noted <= before + if touches then 1 else 0
    requires after == noted || after <= noted + if touches then n - 1 else 0
    ensures after <= before + if touches then n else 0
  {
  }

  lemma {:induction false} StartRoleHoldsItsGrant(
      site: Site, tally: Tally, role: Role, targets: seq<Target>, n: nat, scope: Scope)
    requires AllPlausible(site) && Fresh(site, tally)
    ensures |Holding(StartRole(site, tally, role, targets, n).runs, scope)|
            <= |Holding(tally.runs, scope)| + if Touches(site.project, role, scope) then n else 0
    decreases n
  {
    if n > 0 {
      var (row, next) := Launched(site, tally, role, targets);
      var noted := Noted(next, role, row);
      var end := StartRole(site, tally, role, targets, n);
      NotedHoldsOne(site, tally, role, targets, scope);
      FirstStart(site, tally, role, targets, n);
      if CountsAsStarted(row) {
        StartRoleHoldsItsGrant(site, noted, role, TargetsLeft(targets, row), n - 1, scope);
      }
      HoldsInAll(|Holding(tally.runs, scope)|, |Holding(noted.runs, scope)|, |Holding(end.runs, scope)|, n,
                 Touches(site.project, role, scope));
    }
  }

  lemma {:induction false} StartAllHoldsItsGrants(site: Site, tally: Tally, plans: seq<RolePlan>, i: nat, scope: Scope)
    requires AllPlausible(site) && Fresh(site, tally) && i <= |plans|
    ensures |Holding(StartAll(site, tally, plans, i).runs, scope)|
            <= |Holding(tally.runs, scope)| + GrantedWithin(plans, site.project, scope, i)
    decreases |plans| - i
  {
    if i < |plans| {
      StartRoleKeepsFresh(site, tally, plans[i].role, plans[i].targets, plans[i].granted);
      StartRoleHoldsItsGrant(site, tally, plans[i].role, plans[i].targets, plans[i].granted, scope);
      StartAllHoldsItsGrants(
        site, StartRole(site, tally, plans[i].role, plans[i].targets, plans[i].granted), plans, i + 1, scope);
    }
  }

  /** The requests of one plan come from a table keyed by role. */
  predicate OnePerRole(requests: seq<Request>) {
    forall i, j | 0 <= i < j < |requests| :: requests[i].role != requests[j].role
  }

  /** Within a role no request but its own is granted anything, within the
      project or the device all of them together. */
  lemma {:induction false} GrantsWithinScopes(
      runs: map<RunId, Row>, config: Config, device: nat, requests: seq<Request>, plans: seq<RolePlan>, i: nat,
      scope: Scope)
    requires |plans| == |requests| && i <= |plans| && OnePerRole(requests)
    requires AllAnswer(plans[i..], runs, config, device, requests, i)
    ensures GrantedWithin(plans, config.project, scope, i) <= TotalGranted(plans[i..])
    ensures scope.InRole? ==>
              GrantedWithin(plans, config.project, scope, i) <= Remaining(runs, LimitsOf(config, device), scope)
              || GrantedWithin(plans, config.project, scope, i) == 0
    ensures scope.InRole? && (forall k | i <= k < |requests| :: requests[k].role != scope.role) ==>
              GrantedWithin(plans, config.project, scope, i) == 0
    ensures !Touches(config.project, if scope.InRole? then scope.role else Planner, scope) ==>
              GrantedWithin(plans, config.project, scope, i) == 0
    decreases |plans| - i
  {
    if i < |plans| {
      assert plans[i..][1..] == plans[i + 1..];
      GrantsWithinScopes(runs, config, device, requests, plans, i + 1, scope);
      assert plans[i..][0] == plans[i];
    }
  }

  lemma {:induction false} PlannedStartKeepsLimits(
      runs: map<RunId, Row>, site: Site, config: Config, device: nat, requests: seq<Request>, ans: Answers,
      scope: Scope)
    requires OnePerRole(requests) && site.project == config.project
    requires AllPlausible(site) && Fresh(site, Tally(runs, 0, [], [], []))
    requires scope.Device? || scope.project == config.project
    ensures
      var plans := PlansFrom(runs, config, device, requests, ans, 0, Budget(runs, config, device));
      var held, limit := |Holding(runs, scope)|, Limit(LimitsOf(config, device), scope);
      |Holding(StartAll(site, Tally(runs, 0, [], [], []), plans, 0).runs, scope)|
        <= if held <= limit then limit else held
  {
    var plans := PlansFrom(runs, config, device, requests, ans, 0, Budget(runs, config, device));
    PlansFitWhatRemains(runs, config, device, requests, ans);
    StartAllHoldsItsGrants(site, Tally(runs, 0, [], [], []), plans, 0, scope);
    assert plans[0..] == plans;
    GrantsWithinScopes(runs, config, device, requests, plans, 0, scope);
    RemainingIff(runs, LimitsOf(config, device), scope);
    assert GrantedWithin(plans, config.project, scope, 0) <= Remaining(runs, LimitsOf(config, device), scope);
  }

  lemma {:induction false} ConfirmedMeansUnchanged(
      runs: map<RunId, Row>, site: Site, config: Config, device: nat, saved: SavedPlan, now: nat)
    ensures
      var answer := Confirm(runs, site, config, device, Some(saved), now);
      !answer.Rejected? ==>
        && saved.revision == RevisionOf(runs, config, device) && now < saved.expires
        && answer.tally.runs == StartAll(site, Tally(runs, 0, [], [], []), saved.plans, 0).runs
  {
  }

  /** Confirming a plan never takes the held slots of any scope above the larger
      of its limit and what was held before.  The plan may have been made for
      another configuration and device limit than those it is confirmed under. */
  lemma {:induction false} ConfirmedStartKeepsLimits(
      planned: map<RunId, Row>, plannedFor: Config, plannedOn: nat,
      runs: map<RunId, Row>, config: Config, device: nat, site: Site,
      requests: seq<Request>, ans: Answers, expires: nat, now: nat, scope: Scope)
    requires OnePerRole(requests) && SameOwners(planned, runs) && site.project == config.project
    requires AllPlausible(site) && Fresh(site, Tally(runs, 0, [], [], []))
    requires scope.Device? || scope.project == config.project
    ensures
      var plans := PlansFrom(planned, plannedFor, plannedOn, requests, ans, 0, Budget(planned, plannedFor, plannedOn));
      var saved := SavedPlan(plans, RevisionOf(planned, plannedFor, plannedOn), expires);
      var answer := Confirm(runs, site, config, device, Some(saved), now);
      !answer.Rejected? ==>
        var held, limit := |Holding(runs, scope)|, Limit(LimitsOf(config, device), scope);
        |Holding(answer.tally.runs, scope)| <= if held <= limit then limit else held
  {
    var revision := RevisionOf(planned, plannedFor, plannedOn);
    var plans := PlansFrom(planned, plannedFor, plannedOn, requests, ans, 0, Budget(planned, plannedFor, plannedOn));
    ConfirmedMeansUnchanged(runs, site, config, device, SavedPlan(plans, revision, expires), now);
    if revision == RevisionOf(runs, config, device) {
      EqualRevisionsBudgetTheSame(planned, runs, config, device);
      EqualRevisionsPlanTheSame(planned, runs, config, device, requests, ans, 0, Budget(planned, config, device));
      PlannedStartKeepsLimits(runs, site, config, device, requests, ans, scope);
    }
  }

  // ----- What is started, and for which targets -----

  /** The starts of one role: each is offered the targets its plan names but for those
      that the starts before it took, and takes one of them if any.  Where the plan
      names none, none is asked for. */
  ghost predicate TakeTargetsInTurn(rows: seq<Row>, targets: seq<Target>) {
    forall k | 0 <= k < |rows| ::
      && (forall t :: t in rows[k].manual <==> t in targets && !TakenBefore(rows, k, t))
      && (rows[k].lease.Some? && targets != [] ==> rows[k].lease.value.target in rows[k].manual)
  }

  predicate TakenBefore(rows: seq<Row>, k: nat, target: Target)
    requires k <= |rows|
  {
    exists i | 0 <= i < k :: rows[i].lease.Some? && rows[i].lease.value.target == target
  }

  /** So no target is taken twice. */
  lemma NoTargetIsTakenTwice(rows: seq<Row>, targets: seq<Target>, i: nat, k: nat)
    requires TakeTargetsInTurn(rows, targets) && i < k < |rows| && targets != []
    requires rows[i].lease.Some? && rows[k].lease.Some?
    ensures rows[i].lease.value.target != rows[k].lease.value.target
    ensures rows[k].lease.value.target in targets
  {
    assert !TakenBefore(rows, k, rows[k].lease.value.target);
  }

  lemma DistinctRest(targets: seq<Target>)
    requires targets != [] && Distinct(targets)
    ensures Distinct(targets[1..]) && targets[0] !in targets[1..]
    ensures forall t :: t in targets <==> t == targets[0] || t in targets[1..]
  {
    HeadAndTail(targets);
    assert forall j | 0 <= j < |targets| - 1 :: targets[1..][j] == targets[j + 1];
  }

  lemma DistinctMore(first: Target, rest: seq<Target>)
    requires Distinct(rest) && first !in rest
    ensures Distinct([first] + rest)
  {
    var all := [first] + rest;
    forall i, j | 0 <= i < j < |all|
      ensures all[i] != all[j]
    {
      assert all[j] == rest[j - 1] && (i > 0 ==> all[i] == rest[i - 1]);
    }
  }

  lemma {:induction false} RemovingOne(targets: seq<Target>, taken: Target)
    requires Distinct(targets)
    ensures Distinct(RemoveFirst(targets, taken)) && |RemoveFirst(targets, taken)| + 1 >= |targets|
    ensures forall t :: t in RemoveFirst(targets, taken) <==> t in targets && t != taken
  {
    if targets != [] {
      var first, rest := targets[0], targets[1..];
      DistinctRest(targets);
      RemovingOne(rest, taken);
      if first != taken {
        DistinctMore(first, RemoveFirst(rest, taken));
      }
    }
  }

  lemma OneMoreTakesInTurn(first: Row, rows: seq<Row>, targets: seq<Target>, left: seq<Target>)
    requires TakeTargetsInTurn(rows, left) && (rows != [] ==> (left == [] <==> targets == []))
    requires forall t :: t in first.manual <==> t in targets
    requires first.lease.Some? && targets != [] ==> first.lease.value.target in targets
    requires forall t :: t in left <==> t in targets && (first.lease.Some? ==> t != first.lease.value.target)
    ensures TakeTargetsInTurn([first] + rows, targets)
  {
    var all := [first] + rows;
    forall k | 0 <= k < |all|
      ensures forall t :: t in all[k].manual <==> t in targets && !TakenBefore(all, k, t)
      ensures all[k].lease.Some? && targets != [] ==> all[k].lease.value.target in all[k].manual
    {
      if k > 0 {
        assert all[k] == rows[k - 1];
        forall t
          ensures TakenBefore(all, k, t) <==>
                    TakenBefore(rows, k - 1, t) || (first.lease.Some? && first.lease.value.target == t)
        {
          TakenOneLater(first, rows, k - 1, t);
        }
      }
    }
  }

  lemma TakenOneLater(first: Row, rows: seq<Row>, k: nat, t: Target)
    requires k <= |rows|
    ensures TakenBefore([first] + rows, k + 1, t) <==>
              TakenBefore(rows, k, t) || (first.lease.Some? && first.lease.value.target == t)
  {
    var all := [first] + rows;
    if TakenBefore(rows, k, t) {
      var i :| 0 <= i < k && rows[i].lease.Some? && rows[i].lease.value.target == t;
      assert all[i + 1] == rows[i];
    }
    assert all[0] == first && forall i | 1 <= i < |all| :: all[i] == rows[i - 1];
  }

  /** What the `k`th launch makes of a role and the targets it is offered. */
  type Launches = (seq<Target>, nat) -> Row

  function LaunchesOf(site: Site, role: Role): Launches {
    (manual: seq<Target>, k: nat) => LaunchOutcome(site.project, role, manual, site.ask(k)).row
  }

  predicate CameOf(launch: Launches, row: Row, k: nat) {
    row == launch(row.manual, k)
  }

  predicate Started(row: Row) {
    row.state in {Queued, Reserved, Running}
  }

  /** The launch came to nothing: the role is noted as waiting if it was idle, and as
      failed if not. */
  predicate NotesTheEnd(tally: Tally, after: Tally, role: Role, row: Row) {
    && !Started(row)
    && after.waiting == tally.waiting + (if row.state == Idle then [role] else [])
    && after.failed == tally.failed + (if row.state == Idle then [] else [role])
  }

  /** The `k`th launch of all came to nothing. */
  ghost predicate EndsAt(launch: Launches, tally: Tally, after: Tally, role: Role, k: nat) {
    exists row :: CameOf(launch, row, k) && NotesTheEnd(tally, after, role, row)
  }

  /** The rows are starts of the role, one launch after the other from the `k`th on. */
  predicate AreStarts(launch: Launches, project: ProjectId, role: Role, rows: seq<Row>, k: nat) {
    forall i | 0 <= i < |rows| ::
      Started(rows[i]) && CameOf(launch, rows[i], k + i) && rows[i].project == project && rows[i].role == role
  }

  /** What starting one role adds to the tally: at most so many starts, each of the role
      and of the project, one launch after the other; as many exactly when none came to
      nothing, and otherwise the one that did ends it and is noted. */
  ghost predicate Adds(
      launch: Launches, project: ProjectId, tally: Tally, after: Tally, role: Role, n: nat, rows: seq<Row>)
  {
    && after.started == tally.started + rows && |rows| <= n && AreStarts(launch, project, role, rows, tally.asked)
    && (if |rows| == n then
          after.asked == tally.asked + n && after.waiting == tally.waiting && after.failed == tally.failed
        else after.asked == tally.asked + |rows| + 1 && EndsAt(launch, tally, after, role, tally.asked + |rows|))
  }

  lemma OneMoreStart(launch: Launches, project: ProjectId, role: Role, first: Row, rows: seq<Row>, k: nat)
    requires Started(first) && CameOf(launch, first, k) && first.project == project && first.role == role
    requires AreStarts(launch, project, role, rows, k + 1)
    ensures AreStarts(launch, project, role, [first] + rows, k)
  {
    var all := [first] + rows;
    forall i | 0 <= i < |all|
      ensures Started(all[i]) && CameOf(launch, all[i], k + i) && all[i].project == project && all[i].role == role
    {
      if i > 0 {
        assert all[i] == rows[i - 1] && CameOf(launch, rows[i - 1], k + 1 + (i - 1));
      }
    }
  }

  lemma SameEnd(launch: Launches, a: Tally, b: Tally, after: Tally, role: Role, k: nat)
    requires EndsAt(launch, b, after, role, k) && a.waiting == b.waiting && a.failed == b.failed
    ensures EndsAt(launch, a, after, role, k)
  {
    var row :| CameOf(launch, row, k) && NotesTheEnd(b, after, role, row);
    assert CameOf(launch, row, k) && NotesTheEnd(a, after, role, row);
  }

  /** A start, and then more. */
  lemma OneMoreAdds(
      launch: Launches, project: ProjectId, tally: Tally, next: Tally, after: Tally, role: Role, n: nat, first: Row,
      rows: seq<Row>)
    requires Started(first) && CameOf(launch, first, tally.asked) && first.project == project && first.role == role
    requires next == tally.(runs := next.runs, asked := tally.asked + 1, started := tally.started + [first])
    requires Adds(launch, project, next, after, role, n, rows)
    ensures Adds(launch, project, tally, after, role, n + 1, [first] + rows)
  {
    Regroup(tally.started, [first], rows);
    OneMoreStart(launch, project, role, first, rows, tally.asked);
    if |rows| < n {
      SameEnd(launch, tally, next, after, role, next.asked + |rows|);
      assert next.asked + |rows| == tally.asked + |[first] + rows|;
    }
  }

  /** A launch that comes to nothing. */
  lemma NoMoreAdds(
      launch: Launches, project: ProjectId, tally: Tally, next: Tally, role: Role, n: nat, row: Row)
    requires !Started(row) && CameOf(launch, row, tally.asked) && n > 0
    requires next == tally.(runs := next.runs, asked := tally.asked + 1)
    ensures Adds(launch, project, tally, Noted(next, role, row), role, n, [])
  {
    Nothing(tally.started);
    Nothing(tally.waiting);
    Nothing(tally.failed);
    assert CameOf(launch, row, tally.asked) && NotesTheEnd(tally, Noted(next, role, row), role, row);
    assert EndsAt(launch, tally, Noted(next, role, row), role, tally.asked);
  }

  lemma LaunchComesOf(site: Site, tally: Tally, role: Role, targets: seq<Target>)
    requires AllPlausible(site)
    ensures
      var (row, next) := Launched(site, tally, role, targets);
      && CameOf(LaunchesOf(site, role), row, tally.asked) && row.manual == targets
      && row.project == site.project && row.role == role
      && (row.lease.Some? && targets != [] ==> row.lease.value.target in targets)
      && next == tally.(runs := next.runs, asked := tally.asked + 1)
  {
    assert PlausibleAnswers(site.ask(tally.asked));
    RunOutcomes.LaunchedRunIs(site.project, role, targets, site.ask(tally.asked));
  }

  /** The plan grants no more than it names targets, each once, if it names any. */
  predicate WithinItsTargets(plan: RolePlan) {
    Distinct(plan.targets) && (plan.targets == [] || plan.granted <= |plan.targets|)
  }

  lemma StartTakesInTurn(
      launch: Launches, project: ProjectId, tally: Tally, next: Tally, after: Tally, role: Role, row: Row,
      targets: seq<Target>, n: nat, rows: seq<Row>)
    requires Distinct(targets) && CountsAsStarted(row) && row.manual == targets
    requires row.lease.Some? && targets != [] ==> row.lease.value.target in targets
    requires CameOf(launch, row, tally.asked) && row.project == project && row.role == role
    requires next == tally.(runs := next.runs, asked := tally.asked + 1)
    requires Adds(launch, project, Noted(next, role, row), after, role, n, rows)
    requires TakeTargetsInTurn(rows, TargetsLeft(targets, row)) && (n == 0 || targets == [] || n < |targets|)
    ensures Adds(launch, project, tally, after, role, n + 1, [row] + rows)
    ensures TakeTargetsInTurn([row] + rows, targets)
  {
    RemovingOne(targets, if row.lease.Some? then row.lease.value.target else 0);
    OneMoreTakesInTurn(row, rows, targets, TargetsLeft(targets, row));
    OneMoreAdds(launch, project, tally, Noted(next, role, row), after, role, n, row, rows);
  }

  lemma TargetsLeftAre(targets: seq<Target>, row: Row, n: nat)
    requires Distinct(targets) && n > 0 && (targets == [] || n <= |targets|)
    ensures
      var left := TargetsLeft(targets, row);
      Distinct(left) && (n - 1 == 0 || left == [] || n - 1 <= |left|)
  {
    RemovingOne(targets, if row.lease.Some? then row.lease.value.target else 0);
  }

  /** Starting one role of a plan whose grant is within its targets. */
  lemma {:induction false} StartRoleTakesInTurn(site: Site, tally: Tally, role: Role, targets: seq<Target>, n: nat)
      returns (rows: seq<Row>)
    requires AllPlausible(site) && Distinct(targets) && (n == 0 || targets == [] || n <= |targets|)
    ensures Adds(LaunchesOf(site, role), site.project, tally, StartRole(site, tally, role, targets, n), role, n, rows)
    ensures TakeTargetsInTurn(rows, targets)
    decreases n
  {
    rows := [];
    if n == 0 {
      Nothing(tally.started);
    } else {
      var (row, next) := Launched(site, tally, role, targets);
      var launch := LaunchesOf(site, role);
      FirstStart(site, tally, role, targets, n);
      LaunchComesOf(site, tally, role, targets);
      if CountsAsStarted(row) {
        var left, noted := TargetsLeft(targets, row), Noted(next, role, row);
        TargetsLeftAre(targets, row, n);
        rows := StartRoleTakesInTurn(site, noted, role, left, n - 1);
        StartTakesInTurn(launch, site.project, tally, next, StartRole(site, noted, role, left, n - 1), role, row,
                         targets, n - 1, rows);
        rows := [row] + rows;
      } else {
        NoMoreAdds(launch, site.project, tally, next, role, n, row);
      }
    }
  }

  /** From `a` to `b` the plan's role is started, by these rows. */
  ghost predicate StartsPlan(site: Site, a: Tally, b: Tally, plan: RolePlan, rows: seq<Row>) {
    && Adds(LaunchesOf(site, plan.role), site.project, a, b, plan.role, plan.granted, rows)
    && TakeTargetsInTurn(rows, plan.targets)
  }

  /** The plans are started one after the other, each to its end, from `tallies[0]` on. */
  ghost predicate StartsInTurn(
      site: Site, tallies: seq<Tally>, plans: seq<RolePlan>, parts: seq<seq<Row>>)
  {
    && |tallies| == |plans| + 1 && |parts| == |plans|
    && forall i | 0 <= i < |plans| :: StartsPlan(site, tallies[i], tallies[i + 1], plans[i], parts[i])
  }

  function PlanStarted(site: Site, tally: Tally, plan: RolePlan): Tally {
    StartRole(site, tally, plan.role, plan.targets, plan.granted)
  }

  /** Starting all the plans. */
  lemma {:induction false} PlansStartInTurn(site: Site, tally: Tally, plans: seq<RolePlan>, i: nat)
      returns (tallies: seq<Tally>, parts: seq<seq<Row>>)
    requires AllPlausible(site) && i <= |plans| && forall plan | plan in plans :: WithinItsTargets(plan)
    ensures StartsInTurn(site, tallies, plans[i..], parts)
    ensures tallies[0] == tally && tallies[|tallies| - 1] == StartAll(site, tally, plans, i)
    decreases |plans| - i
  {
    if i == |plans| {
      tallies, parts := [tally], [];
    } else {
      tallies, parts := PlansStartInTurn(site, PlanStarted(site, tally, plans[i]), plans, i + 1);
      parts := FirstInTurn(site, tally, tallies, plans, i, parts);
      tallies := [tally] + tallies;
    }
  }

  lemma {:induction false} FirstInTurn(
      site: Site, first: Tally, tallies: seq<Tally>, plans: seq<RolePlan>, i: nat, parts: seq<seq<Row>>)
      returns (all: seq<seq<Row>>)
    requires AllPlausible(site) && i < |plans| && forall plan | plan in plans :: WithinItsTargets(plan)
    requires StartsInTurn(site, tallies, plans[i + 1..], parts) && tallies[0] == PlanStarted(site, first, plans[i])
    ensures StartsInTurn(site, [first] + tallies, plans[i..], all)
  {
    var plan := plans[i];
    assert plan in plans && WithinItsTargets(plan);
    var rows := StartRoleTakesInTurn(site, first, plan.role, plan.targets, plan.granted);
    assert StartsPlan(site, first, tallies[0], plan, rows);
    all := [rows] + parts;
    assert plans[i..] == [plan] + plans[i + 1..];
    OneMoreInTurn(site, first, tallies, plan, plans[i + 1..], rows, parts);
  }

  lemma OneMoreInTurn(
      site: Site, first: Tally, tallies: seq<Tally>, plan: RolePlan, plans: seq<RolePlan>, rows: seq<Row>,
      parts: seq<seq<Row>>)
    requires StartsInTurn(site, tallies, plans, parts) && StartsPlan(site, first, tallies[0], plan, rows)
    ensures StartsInTurn(site, [first] + tallies, [plan] + plans, [rows] + parts)
  {
    var ts, ps, rs := [first] + tallies, [plan] + plans, [rows] + parts;
    forall i | 0 <= i < |ps|
      ensures StartsPlan(site, ts[i], ts[i + 1], ps[i], rs[i])
    {
      if i > 0 {
        assert ts[i] == tallies[i - 1] && ts[i + 1] == tallies[i] && ps[i] == plans[i - 1] && rs[i] == parts[i - 1];
      }
    }
  }

  lemma {:induction false} PlansAreWithinTheirTargets(
      runs: map<RunId, Row>, config: Config, device: nat, requests: seq<Request>, ans: Answers, i: nat, budget: Share)
    requires i <= |requests|
    ensures forall plan | plan in PlansFrom(runs, config, device, requests, ans, i, budget) :: WithinItsTargets(plan)
    decreases |requests| - i
  {
    if i < |requests| {
      var plan := NextPlan(runs, config, device, requests[i], ans, budget);
      var role := LevelOf(runs, LimitsOf(config, device), InRole(config.project, requests[i].role));
      PlanOffers.UsableAreOffered(requests[i], ans);
      GrantFits(config, requests[i], ans, role, budget);
      PlansAreWithinTheirTargets(runs, config, device, requests, ans, i + 1, Spend(budget, plan.granted));
    }
  }

  /** A confirmed plan starts its roles in turn, and no target twice for one role. */
  lemma {:induction false} ConfirmedStartsInTurn(
      planned: map<RunId, Row>, plannedFor: Config, plannedOn: nat, requests: seq<Request>, ans: Answers,
      runs: map<RunId, Row>, site: Site, config: Config, device: nat, expires: nat, now: nat)
      returns (tallies: seq<Tally>, parts: seq<seq<Row>>)
    requires AllPlausible(site)
    requires
      var plans := PlansFrom(planned, plannedFor, plannedOn, requests, ans, 0, Budget(planned, plannedFor, plannedOn));
      var saved := SavedPlan(plans, RevisionOf(planned, plannedFor, plannedOn), expires);
      !Confirm(runs, site, config, device, Some(saved), now).Rejected?
    ensures
      var plans := PlansFrom(planned, plannedFor, plannedOn, requests, ans, 0, Budget(planned, plannedFor, plannedOn));
      var saved := SavedPlan(plans, RevisionOf(planned, plannedFor, plannedOn), expires);
      && StartsInTurn(site, tallies, plans, parts)
      && tallies[0] == Tally(runs, 0, [], [], [])
      && tallies[|tallies| - 1] == Confirm(runs, site, config, device, Some(saved), now).tally
  {
    var plans := PlansFrom(planned, plannedFor, plannedOn, requests, ans, 0, Budget(planned, plannedFor, plannedOn));
    PlansAreWithinTheirTargets(
      planned, plannedFor, plannedOn, requests, ans, 0, Budget(planned, plannedFor, plannedOn));
    tallies, parts := PlansStartInTurn(site, Tally(runs, 0, [], [], []), plans, 0);
    assert plans[0..] == plans;
  }

  /** The revision is that of the ledger: the same configuration and device limit, and
      the same active and occupying runs. */
  predicate NothingMoved(revision: Revision, runs: map<RunId, Row>, config: Config, device: nat) {
    && revision.config == config && revision.device == device
    && revision.active == (set id | id in runs && IsActive(runs[id]))
    && revision.occupied == (set id | id in runs && IsOccupying(runs[id]))
  }

  /** A confirmation is refused exactly for a plan that is not there, has expired, or
      was made before something moved, the first of these that holds; one that is not
      refused succeeds exactly when no start failed. */
  lemma ConfirmAnswers(
      runs: map<RunId, Row>, site: Site, config: Config, device: nat, saved: Option<SavedPlan>, now: nat)
    ensures
      var answer := Confirm(runs, site, config, device, saved, now);
      var current := saved.Some? && now < saved.value.expires;
      && (answer == Rejected(PlanNotFound) <==> saved.None?)
      && (answer == Rejected(PlanExpired) <==> saved.Some? && saved.value.expires <= now)
      && (answer == Rejected(RuntimeChanged) <==>
            current && !NothingMoved(saved.value.revision, runs, config, device))
      && (!answer.Rejected? <==> current && NothingMoved(saved.value.revision, runs, config, device))
      && (!answer.Rejected? ==>
            && (answer.Success? <==> answer.tally.failed == [])
            && (answer.PartialSuccess? <==> answer.tally.failed != [] && answer.tally.started != []))
  {
    assert Active(runs, Scope.Device) == set id | id in runs && IsActive(runs[id]);
    assert Occupying(runs, Scope.Device) == set id | id in runs && IsOccupying(runs[id]);
  }
}
