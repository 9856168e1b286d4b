/** What a plan offers each role: which targets, how many starts, and why no more,
    said by the request, the ledger and the answers alone. */
module PlanOffers {
  import opened Prelude
  import opened RunLedger
  import opened Slots
  import opened RefillLoop
  import opened Plan
  import opened PlanLimits

  // ----- The targets -----

  /** The target can become a run, as far as the runtime itself can tell. */
  predicate IsFree(ans: Answers, target: Target) {
    ans.wellFormed(target) && !ans.leased(target)
  }

  /** The request names the target, and the role may take it. */
  predicate Offered(request: Request, ans: Answers, target: Target) {
    && target in request.manual && IsFree(ans, target)
    && match ans.eligibility(request.role)
       case Unreadable => false
       case Verdict(_, eligible, deferred) => deferred || target in eligible
  }

  /** `a` is mentioned before `b` first is. */
  predicate Earlier(manual: seq<Target>, a: Target, b: Target) {
    exists k | 0 <= k < |manual| :: manual[k] == a && b !in manual[..k + 1]
  }

  predicate InOrderOfMention(targets: seq<Target>, manual: seq<Target>) {
    forall i, j | 0 <= i < j < |targets| :: Earlier(manual, targets[i], targets[j])
  }

  lemma EarlierStays(manual: seq<Target>, last: Target, a: Target, b: Target)
    requires Earlier(manual, a, b)
    ensures Earlier(manual + [last], a, b)
  {
    var k :| 0 <= k < |manual| && manual[k] == a && b !in manual[..k + 1];
    assert (manual + [last])[..k + 1] == manual[..k + 1] && (manual + [last])[k] == a;
  }

  lemma LastIsLater(manual: seq<Target>, a: Target, last: Target)
    requires a in manual && last !in manual
    ensures Earlier(manual + [last], a, last)
  {
    var k :| 0 <= k < |manual| && manual[k] == a;
    assert (manual + [last])[..k + 1] == manual[..k + 1] && (manual + [last])[k] == a;
  }

  lemma OrderStays(targets: seq<Target>, manual: seq<Target>, last: Target)
    requires InOrderOfMention(targets, manual)
    ensures InOrderOfMention(targets, manual + [last])
  {
    forall i, j | 0 <= i < j < |targets| {
      EarlierStays(manual, last, targets[i], targets[j]);
    }
  }

  lemma OrderGrows(targets: seq<Target>, manual: seq<Target>, last: Target)
    requires InOrderOfMention(targets, manual) && (forall t | t in targets :: t in manual) && last !in manual
    ensures InOrderOfMention(targets + [last], manual + [last])
  {
    OrderStays(targets, manual, last);
    forall i | 0 <= i < |targets|
      ensures Earlier(manual + [last], targets[i], last)
    {
      LastIsLater(manual, targets[i], last);
    }
  }

  lemma {:induction false} AcceptedInOrder(manual: seq<Target>, ans: Answers)
    ensures InOrderOfMention(CheckTargets(manual, ans).accepted, manual)
  {
    if manual != [] {
      var front, last := manual[..|manual| - 1], manual[|manual| - 1];
      AcceptedInOrder(front, ans);
      AcceptedTargets(front, ans);
      FrontAndLast(manual);
      OrderStays(CheckTargets(front, ans).accepted, front, last);
      if CheckTargets(manual, ans).accepted != CheckTargets(front, ans).accepted {
        OrderGrows(CheckTargets(front, ans).accepted, front, last);
      }
    }
  }

  lemma RestInOrder(targets: seq<Target>, manual: seq<Target>)
    requires targets != [] && Distinct(targets) && InOrderOfMention(targets, manual)
    ensures Distinct(targets[1..]) && InOrderOfMention(targets[1..], manual)
    ensures forall t | t in targets[1..] :: t != targets[0] && Earlier(manual, targets[0], t)
  {
    var rest := targets[1..];
    forall i, j | 0 <= i < j < |rest|
      ensures rest[i] != rest[j] && Earlier(manual, rest[i], rest[j])
    {
      assert rest[i] == targets[i + 1] && rest[j] == targets[j + 1];
    }
    forall t | t in rest
      ensures t != targets[0] && Earlier(manual, targets[0], t)
    {
      var j :| 0 <= j < |rest| && rest[j] == t;
      assert targets[j + 1] == t;
    }
  }

  /** Filtering keeps what it keeps, in order. */
  lemma {:induction false} FilteredIs(targets: seq<Target>, keep: set<Target>, manual: seq<Target>)
    requires Distinct(targets) && InOrderOfMention(targets, manual)
    ensures Distinct(Filter(targets, keep)) && InOrderOfMention(Filter(targets, keep), manual)
    ensures forall t :: t in Filter(targets, keep) <==> t in targets && t in keep
  {
    if targets != [] {
      RestInOrder(targets, manual);
      FilteredIs(targets[1..], keep, manual);
      HeadAndTail(targets);
      var first, later := targets[0], Filter(targets[1..], keep);
      var kept := [first] + later;
      forall j | 0 <= j < |later|
        ensures later[j] != first && Earlier(manual, first, later[j])
      {
        assert later[j] in targets[1..];
      }
      forall i, j | 0 <= i < j < |kept|
        ensures kept[i] != kept[j] && Earlier(manual, kept[i], kept[j])
      {
        assert kept[j] == later[j - 1] && (i > 0 ==> kept[i] == later[i - 1]);
      }
      Nothing(later);
    }
  }

  /** The targets of a plan are exactly those on offer, each once, in the order they
      were first mentioned. */
  ghost predicate OffersTargets(request: Request, ans: Answers, targets: seq<Target>) {
    && Distinct(targets) && InOrderOfMention(targets, request.manual)
    && forall t :: t in targets <==> Offered(request, ans, t)
  }

  lemma UsableAreOffered(request: Request, ans: Answers)
    ensures OffersTargets(request, ans, UsableTargets(request, ans))
  {
    var accepted := CheckTargets(request.manual, ans).accepted;
    AcceptedTargets(request.manual, ans);
    AcceptedInOrder(request.manual, ans);
    match ans.eligibility(request.role)
    case Unreadable => FilteredIs(accepted, {}, request.manual);
    case Verdict(_, eligible, deferred) => FilteredIs(accepted, eligible, request.manual);
  }

  function OnOffer(request: Request, ans: Answers): set<Target> {
    set t | t in request.manual && Offered(request, ans, t)
  }

  // ----- The grant -----

  /** Nothing but limits stands in the way of a start. */
  predicate GatesAreOpen(config: Config, request: Request, ans: Answers) {
    && !config.paused && !ans.locked && ans.eligibility(request.role).Verdict? && ans.ready(request.role)
    && (request.manual == [] ==> ans.eligibility(request.role).target.Some?)
  }

  /** So many starts are within every limit, and there is a target for each. */
  predicate Fits(config: Config, request: Request, ans: Answers, role: nat, common: nat, starts: nat) {
    var limit := config.roles.Of(request.role).executionLimit;
    && starts <= request.slots && starts <= role && starts <= common
    && (limit.Some? ==> starts <= limit.value)
    && (request.manual != [] ==> starts <= |OnOffer(request, ans)|)
  }

  /** The plan grants as much as fits, through open gates, on the targets on offer. */
  ghost predicate GrantsTheMost(
      config: Config, request: Request, ans: Answers, role: nat, common: nat, plan: RolePlan)
  {
    && plan.role == request.role
    && (if request.manual == [] then plan.targets == [] else OffersTargets(request, ans, plan.targets))
    && (if GatesAreOpen(config, request, ans)
        then forall starts: nat :: starts <= plan.granted <==> Fits(config, request, ans, role, common, starts)
        else plan.granted == 0)
  }

  lemma {:induction false} DistinctAreAsMany(targets: seq<Target>, all: set<Target>)
    requires Distinct(targets) && forall t :: t in targets <==> t in all
    ensures |targets| == |all|
  {
    if targets != [] {
      var first, rest := targets[0], targets[1..];
      HeadAndTail(targets);
      assert first in targets && first in all;
      forall t
        ensures t in rest <==> t in all - {first}
      {
        if t in rest {
          var j :| 0 <= j < |rest| && rest[j] == t;
          assert targets[j + 1] == t;
        }
      }
      assert forall i | 0 <= i < |rest| :: rest[i] == targets[i + 1];
      DistinctAreAsMany(rest, all - {first});
    }
  }

  lemma OffersAreAsMany(request: Request, ans: Answers)
    ensures |UsableTargets(request, ans)| == |OnOffer(request, ans)|
  {
    UsableAreOffered(request, ans);
    DistinctAreAsMany(UsableTargets(request, ans), OnOffer(request, ans));
  }

  lemma PlanGrantsTheMost(config: Config, request: Request, ans: Answers, role: Level, budget: Share)
    ensures GrantsTheMost(config, request, ans, role.remaining, budget.now,
                          PlanRole(config, request, ans, role, budget))
  {
    UsableAreOffered(request, ans);
    OffersAreAsMany(request, ans);
  }

  // ----- The reasons -----

  /** A target that could become a run is named twice. */
  predicate NamesTwice(manual: seq<Target>, ans: Answers) {
    exists i, j | 0 <= i < j < |manual| :: manual[i] == manual[j] && IsFree(ans, manual[j])
  }

  lemma NamesTwiceOneMore(front: seq<Target>, last: Target, ans: Answers)
    ensures NamesTwice(front + [last], ans) <==> NamesTwice(front, ans) || (last in front && IsFree(ans, last))
  {
    var manual := front + [last];
    if NamesTwice(front, ans) {
      var i, j :| 0 <= i < j < |front| && front[i] == front[j] && IsFree(ans, front[j]);
      assert manual[i] == manual[j];
    } else if last in front && IsFree(ans, last) {
      var i :| 0 <= i < |front| && front[i] == last;
      assert manual[i] == manual[|front|];
    }
  }

  predicate NamesMalformed(manual: seq<Target>, ans: Answers) {
    exists t | t in manual :: !ans.wellFormed(t)
  }

  predicate NamesLeased(manual: seq<Target>, ans: Answers) {
    exists t | t in manual :: ans.wellFormed(t) && ans.leased(t)
  }

  /** What the mentions of a request are answered. */
  predicate MentionsAnswered(manual: seq<Target>, ans: Answers, reasons: seq<Reason>) {
    && (DuplicateTarget in reasons <==> NamesTwice(manual, ans))
    && (InvalidTarget in reasons <==> NamesMalformed(manual, ans))
    && (ActiveLease in reasons <==> NamesLeased(manual, ans))
    && (reasons == [] <==> !NamesTwice(manual, ans) && !NamesMalformed(manual, ans) && !NamesLeased(manual, ans))
    && forall r | r in reasons :: r in {DuplicateTarget, InvalidTarget, ActiveLease}
  }

  lemma OneMoreMention(front: seq<Target>, last: Target, ans: Answers)
    ensures NamesMalformed(front + [last], ans) <==> NamesMalformed(front, ans) || !ans.wellFormed(last)
    ensures NamesLeased(front + [last], ans) <==>
              NamesLeased(front, ans) || (ans.wellFormed(last) && ans.leased(last))
  {
    var manual := front + [last];
    assert last in manual && forall t :: t in manual <==> t in front || t == last;
  }

  lemma AnswerOneMore(front: seq<Target>, last: Target, ans: Answers, was: seq<Reason>, reason: Option<Reason>)
    requires MentionsAnswered(front, ans, was)
    requires reason == if last in front && IsFree(ans, last) then Some(DuplicateTarget)
                       else if !ans.wellFormed(last) then Some(InvalidTarget)
                       else if ans.leased(last) then Some(ActiveLease) else None
    ensures MentionsAnswered(front + [last], ans, if reason.Some? then was + [reason.value] else was)
  {
    NamesTwiceOneMore(front, last, ans);
    OneMoreMention(front, last, ans);
  }

  lemma {:induction false} ChecksAnswer(manual: seq<Target>, ans: Answers)
    ensures MentionsAnswered(manual, ans, CheckTargets(manual, ans).reasons)
  {
    if manual != [] {
      var front, last := manual[..|manual| - 1], manual[|manual| - 1];
      ChecksAnswer(front, ans);
      AcceptedTargets(front, ans);
      FrontAndLast(manual);
      AnswerOneMore(front, last, ans, CheckTargets(front, ans).reasons,
                    if last in front && IsFree(ans, last) then Some(DuplicateTarget)
                    else if !ans.wellFormed(last) then Some(InvalidTarget)
                    else if ans.leased(last) then Some(ActiveLease) else None);
    }
  }

  /** The reasons that have to do with targets. */
  predicate GivesTargetReasons(request: Request, ans: Answers, given: seq<Reason>) {
    var manual, eligibility := request.manual, ans.eligibility(request.role);
    var answered := NamesTwice(manual, ans) || NamesMalformed(manual, ans) || NamesLeased(manual, ans);
    && (NoTarget in given <==> manual == [] && (eligibility.Unreadable? || eligibility.target.None?))
    && (DuplicateTarget in given <==> NamesTwice(manual, ans))
    && (InvalidTarget in given <==> NamesMalformed(manual, ans))
    && (ActiveLease in given <==> NamesLeased(manual, ans))
    && (TargetUnavailable in given <==> manual != [] && OnOffer(request, ans) == {} && !answered)
  }

  /** And those that do not. */
  predicate GivesGateReasons(config: Config, ans: Answers, eligibility: Eligibility, given: seq<Reason>) {
    && (ProjectPaused in given <==> config.paused) && (MigrationLock in given <==> ans.locked)
    && (EligibilityFailed in given <==> eligibility.Unreadable?)
  }

  const GATES: set<Reason> := {ProjectPaused, MigrationLock, EligibilityFailed}
  const TARGETS: set<Reason> := {NoTarget, DuplicateTarget, InvalidTarget, ActiveLease, TargetUnavailable}
  const BLAMES: set<Reason> := {ExecutionLimit, SlotsHeldByUnrecoveredRuns, LimitReached}

  predicate Only(given: seq<Reason>, kinds: set<Reason>) {
    forall r | r in given :: r in kinds
  }

  lemma NothingIsNamed(ans: Answers)
    ensures !NamesTwice([], ans) && !NamesMalformed([], ans) && !NamesLeased([], ans)
  {
  }

  lemma TargetReasonsAre(request: Request, ans: Answers)
    ensures GivesTargetReasons(request, ans, TargetReasons(request, ans)) && Only(TargetReasons(request, ans), TARGETS)
  {
    NothingIsNamed(ans);
    if request.manual != [] {
      ChecksAnswer(request.manual, ans);
      OffersAreAsMany(request, ans);
    }
  }

  lemma GateReasonsAre(config: Config, ans: Answers, eligibility: Eligibility)
    ensures GivesGateReasons(config, ans, eligibility, GateReasons(config, ans, eligibility))
    ensures Only(GateReasons(config, ans, eligibility), GATES)
  {
  }

  lemma ReasonsJoin(config: Config, request: Request, ans: Answers, gates: seq<Reason>, targets: seq<Reason>)
    requires GivesGateReasons(config, ans, ans.eligibility(request.role), gates) && Only(gates, GATES)
    requires GivesTargetReasons(request, ans, targets) && Only(targets, TARGETS)
    ensures GivesGateReasons(config, ans, ans.eligibility(request.role), gates + targets)
    ensures GivesTargetReasons(request, ans, gates + targets) && Only(gates + targets, GATES + TARGETS)
  {
    assert forall r :: r in gates + targets <==> r in gates || r in targets;
  }

  lemma ReasonMore(config: Config, request: Request, ans: Answers, given: seq<Reason>, last: Reason)
    requires GivesGateReasons(config, ans, ans.eligibility(request.role), given)
    requires GivesTargetReasons(request, ans, given) && last !in GATES + TARGETS
    ensures GivesGateReasons(config, ans, ans.eligibility(request.role), given + [last])
    ensures GivesTargetReasons(request, ans, given + [last])
  {
    assert forall r :: r in given + [last] <==> r in given || r == last;
  }

  lemma EarlyReasonsAre(config: Config, request: Request, ans: Answers)
    ensures GivesGateReasons(config, ans, ans.eligibility(request.role), Excluded(config, request, ans))
    ensures GivesTargetReasons(request, ans, Excluded(config, request, ans))
    ensures Only(Excluded(config, request, ans), GATES + TARGETS)
  {
    GateReasonsAre(config, ans, ans.eligibility(request.role));
    TargetReasonsAre(request, ans);
    ReasonsJoin(config, request, ans, GateReasons(config, ans, ans.eligibility(request.role)),
                TargetReasons(request, ans));
  }

  /** The provider is asked only when something could start. */
  predicate WouldStart(config: Config, request: Request, ans: Answers, role: nat, common: nat) {
    GatesAreOpen(config, request, ans.(ready := _ => true)) && Fits(config, request, ans, role, common, 1)
  }

  lemma WantedIs(config: Config, request: Request, ans: Answers, role: Level, budget: Share)
    ensures
      var share := ShareOf(request.slots, config.roles.Of(request.role), role, budget);
      Wanted(config, request, ans, share) > 0 <==> WouldStart(config, request, ans, role.remaining, budget.now)
  {
    OffersAreAsMany(request, ans);
    assert OnOffer(request, ans.(ready := _ => true)) == OnOffer(request, ans);
  }

  /** Every reason a plan gives is so, and what is so is given: the reasons of its own
      each exactly when they hold, the provider exactly when it was asked and not
      ready, and only without any of these, for a grant short of the request, one
      limit to blame. */
  predicate GivesReasons(config: Config, request: Request, ans: Answers, role: nat, common: nat, plan: RolePlan) {
    var given := plan.excluded;
    var refused := !ans.ready(request.role) && WouldStart(config, request, ans, role, common);
    && GivesGateReasons(config, ans, ans.eligibility(request.role), given) && GivesTargetReasons(request, ans, given)
    && (ProviderNotReady in given <==> refused)
    && (Only(given, GATES + TARGETS + {ProviderNotReady})
        || (plan.granted < request.slots && |given| == 1 && Only(given, BLAMES)))
    && (plan.granted < request.slots ==> given != [])
    && (ExecutionLimit in given ==> config.roles.Of(request.role).executionLimit == Some(plan.granted))
    && (given != [] && Only(given, BLAMES) && config.roles.Of(request.role).executionLimit == Some(plan.granted) ==>
          ExecutionLimit in given)
  }

  lemma LabelBlames(policy: RolePolicy, granted: nat, share: Share)
    ensures Label(policy, granted, share) in BLAMES
    ensures Label(policy, granted, share) == ExecutionLimit <==> policy.executionLimit == Some(granted)
  {
  }

  lemma ReasonsAreGiven(
      config: Config, request: Request, ans: Answers, role: nat, common: nat, before: seq<Reason>, refused: bool,
      blame: Reason, plan: RolePlan)
    requires GivesGateReasons(config, ans, ans.eligibility(request.role), before)
    requires GivesTargetReasons(request, ans, before) && Only(before, GATES + TARGETS)
    requires refused <==> !ans.ready(request.role) && WouldStart(config, request, ans, role, common)
    requires blame in BLAMES
    requires blame == ExecutionLimit <==> config.roles.Of(request.role).executionLimit == Some(plan.granted)
    requires plan.excluded == if refused then before + [ProviderNotReady]
                              else if before == [] && plan.granted < request.slots then [blame] else before
    ensures GivesReasons(config, request, ans, role, common, plan)
  {
    if refused {
      ReasonMore(config, request, ans, before, ProviderNotReady);
    } else if before == [] && plan.granted < request.slots {
      ReasonMore(config, request, ans, before, blame);
      Nothing([blame]);
    } else {
      assert before != [] ==> before[0] in before;
    }
  }

  lemma PlanGivesReasons(config: Config, request: Request, ans: Answers, role: Level, budget: Share)
    ensures GivesReasons(config, request, ans, role.remaining, budget.now, PlanRole(config, request, ans, role, budget))
  {
    var policy, before := config.roles.Of(request.role), Excluded(config, request, ans);
    var share := ShareOf(request.slots, policy, role, budget);
    var plan := PlanRole(config, request, ans, role, budget);
    EarlyReasonsAre(config, request, ans);
    WantedIs(config, request, ans, role, budget);
    LabelBlames(policy, plan.granted, share);
    Nothing(before);
    ReasonsAreGiven(config, request, ans, role.remaining, budget.now, before,
                    Wanted(config, request, ans, share) > 0 && !ans.ready(request.role),
                    Label(policy, plan.granted, share), plan);
  }

  /** One start more would be within every limit, had every dropped run been swept. */
  predicate SweepingCouldHelp(config: Config, request: Request, role: Level, budget: Share, granted: nat) {
    var limit := config.roles.Of(request.role).executionLimit;
    && granted < request.slots && granted < role.remaining + role.occupied && granted < budget.ifSwept
    && (limit.Some? ==> granted < limit.value)
  }

  /** Dropped runs are blamed exactly when nothing but limits cut the grant and one
      start more could fit without them. */
  predicate BlamesTheDropped(config: Config, request: Request, role: Level, budget: Share, plan: RolePlan) {
    SlotsHeldByUnrecoveredRuns in plan.excluded <==>
      && Only(plan.excluded, BLAMES) && plan.excluded != []
      && SweepingCouldHelp(config, request, role, budget, plan.granted)
  }

  lemma LabelCompares(config: Config, request: Request, role: Level, budget: Share, granted: nat)
    requires granted < request.slots
    ensures
      var policy := config.roles.Of(request.role);
      Label(policy, granted, ShareOf(request.slots, policy, role, budget)) == SlotsHeldByUnrecoveredRuns <==>
        SweepingCouldHelp(config, request, role, budget, granted)
  {
  }

  lemma BlameIsRight(
      config: Config, request: Request, role: Level, budget: Share, plan: RolePlan, own: seq<Reason>, blame: Reason)
    requires Only(own, GATES + TARGETS + {ProviderNotReady}) && blame in BLAMES
    requires plan.excluded == if plan.granted < request.slots && own == [] then [blame] else own
    requires plan.granted < request.slots ==>
               (blame == SlotsHeldByUnrecoveredRuns <==> SweepingCouldHelp(config, request, role, budget, plan.granted))
    ensures BlamesTheDropped(config, request, role, budget, plan)
  {
    if own != [] {
      assert own[0] in own;
    }
  }

  lemma OwnReasonsAre(before: seq<Reason>, refused: bool)
    requires Only(before, GATES + TARGETS)
    ensures Only(before + if refused then [ProviderNotReady] else [], GATES + TARGETS + {ProviderNotReady})
  {
  }

  lemma PlanBlamesTheDropped(config: Config, request: Request, ans: Answers, role: Level, budget: Share)
    ensures BlamesTheDropped(config, request, role, budget, PlanRole(config, request, ans, role, budget))
  {
    var policy, before := config.roles.Of(request.role), Excluded(config, request, ans);
    var share := ShareOf(request.slots, policy, role, budget);
    var refused := Wanted(config, request, ans, share) > 0 && !ans.ready(request.role);
    var plan := PlanRole(config, request, ans, role, budget);
    EarlyReasonsAre(config, request, ans);
    OwnReasonsAre(before, refused);
    if plan.granted < request.slots {
      LabelCompares(config, request, role, budget, plan.granted);
    }
    LabelBlames(policy, plan.granted, share);
    BlameIsRight(config, request, role, budget, plan, before + if refused then [ProviderNotReady] else [],
                 Label(policy, plan.granted, share));
  }

  // ----- All the plans -----

  /** The plan offers, grants and says what it should. */
  ghost predicate IsThePlan(
      config: Config, request: Request, ans: Answers, role: Level, budget: Share, plan: RolePlan)
  {
    && GrantsTheMost(config, request, ans, role.remaining, budget.now, plan)
    && GivesReasons(config, request, ans, role.remaining, budget.now, plan)
    && BlamesTheDropped(config, request, role, budget, plan)
  }

  lemma PlanRoleIs(config: Config, request: Request, ans: Answers, role: Level, budget: Share)
    ensures IsThePlan(config, request, ans, role, budget, PlanRole(config, request, ans, role, budget))
  {
    PlanGrantsTheMost(config, request, ans, role, budget);
    PlanGivesReasons(config, request, ans, role, budget);
    PlanBlamesTheDropped(config, request, ans, role, budget);
  }

  /** What is left below a limit, and how many dropped runs hold a slot under it. */
  function Room(limit: nat, runs: map<RunId, Row>, counts: Row -> bool): Level {
    var holding := set id | id in runs && HoldsSlot(runs[id]) && counts(runs[id]);
    var dropped := set id | id in runs && IsOccupying(runs[id]) && counts(runs[id]);
    Level(Max0(limit - |holding|), |dropped|)
  }

  /** What the role has left. */
  function RoleLevel(runs: map<RunId, Row>, config: Config, role: Role): Level {
    Room(config.roles.Of(role).maxParallel, runs, (row: Row) => row.project == config.project && row.role == role)
  }

  /** What the device and the project have left in common, now and without their
      dropped runs. */
  function InCommon(runs: map<RunId, Row>, config: Config, device: nat): Share {
    var d := Room(device, runs, _ => true);
    var p := Room(config.maxParallel, runs, (row: Row) => row.project == config.project);
    Share(NatMin(d.remaining, p.remaining), NatMin(d.remaining + d.occupied, p.remaining + p.occupied))
  }

  lemma RoomIsLevel(limit: nat, runs: map<RunId, Row>, counts: Row -> bool, limits: Limits, scope: Scope)
    requires limit == Limit(limits, scope) && forall id | id in runs :: counts(runs[id]) <==> InScope(runs[id], scope)
    ensures LevelOf(runs, limits, scope) == Room(limit, runs, counts)
  {
    RemainingIff(runs, limits, scope);
    assert Holding(runs, scope) == set id | id in runs && HoldsSlot(runs[id]) && counts(runs[id]);
    assert Occupying(runs, scope) == set id | id in runs && IsOccupying(runs[id]) && counts(runs[id]);
  }

  lemma RoleLevelIs(runs: map<RunId, Row>, config: Config, device: nat, role: Role)
    ensures LevelOf(runs, LimitsOf(config, device), InRole(config.project, role)) == RoleLevel(runs, config, role)
  {
    RoomIsLevel(config.roles.Of(role).maxParallel, runs,
                (row: Row) => row.project == config.project && row.role == role, LimitsOf(config, device),
                InRole(config.project, role));
  }

  lemma NextPlanIs(
      runs: map<RunId, Row>, config: Config, device: nat, request: Request, ans: Answers, budget: Share)
    ensures IsThePlan(config, request, ans, RoleLevel(runs, config, request.role), budget,
                      NextPlan(runs, config, device, request, ans, budget))
  {
    RoleLevelIs(runs, config, device, request.role);
    PlanRoleIs(config, request, ans, RoleLevel(runs, config, request.role), budget);
  }

  /** What the first `k` plans leave. */
  function LeftAfter(common: Share, plans: seq<RolePlan>, k: nat): Share
    requires k <= |plans|
  {
    var taken := TotalGranted(plans[..k]);
    Share(Max0(common.now - taken), Max0(common.ifSwept - taken))
  }

  /** Each is the plan for its request, out of what those before it leave. */
  ghost predicate ArePlans(
      runs: map<RunId, Row>, config: Config, requests: seq<Request>, ans: Answers, common: Share,
      plans: seq<RolePlan>)
    requires |plans| == |requests|
  {
    forall k | 0 <= k < |plans| ::
      IsThePlan(config, requests[k], ans, RoleLevel(runs, config, requests[k].role),
                LeftAfter(common, plans, k), plans[k])
  }

  lemma {:induction false} LeftAfterMore(common: Share, plan: RolePlan, rest: seq<RolePlan>, k: nat)
    requires k <= |rest|
    ensures LeftAfter(common, [plan] + rest, k + 1) == LeftAfter(Spend(common, plan.granted), rest, k)
  {
    var taken := ([plan] + rest)[..k + 1];
    assert taken[0] == plan && taken[1..] == rest[..k];
  }

  lemma {:induction false} FirstPlan(
      runs: map<RunId, Row>, config: Config, device: nat, requests: seq<Request>, ans: Answers, i: nat, budget: Share)
    requires i < |requests|
    ensures
      var plan := NextPlan(runs, config, device, requests[i], ans, budget);
      PlansFrom(runs, config, device, requests, ans, i, budget)
        == [plan] + PlansFrom(runs, config, device, requests, ans, i + 1, Spend(budget, plan.granted))
  {
  }

  /** The plan for the `k`th request is the next one when the plans before it are made. */
  lemma {:induction false} PlanAt(
      runs: map<RunId, Row>, config: Config, device: nat, requests: seq<Request>, ans: Answers, i: nat, budget: Share,
      k: nat, plans: seq<RolePlan>)
    requires i + k < |requests| && plans == PlansFrom(runs, config, device, requests, ans, i, budget)
    ensures plans[k] == NextPlan(runs, config, device, requests[i + k], ans, LeftAfter(budget, plans, k))
    decreases k
  {
    var plan := NextPlan(runs, config, device, requests[i], ans, budget);
    var left := Spend(budget, plan.granted);
    var rest := PlansFrom(runs, config, device, requests, ans, i + 1, left);
    FirstPlan(runs, config, device, requests, ans, i, budget);
    if k == 0 {
      assert LeftAfter(budget, plans, 0) == budget && plans[0] == plan;
    } else {
      PlanAt(runs, config, device, requests, ans, i + 1, left, k - 1, rest);
      LeftAfterMore(budget, plan, rest, k - 1);
      assert plans[k] == rest[k - 1] && i + 1 + (k - 1) == i + k;
      assert LeftAfter(budget, plans, k) == LeftAfter(left, rest, k - 1);
    }
  }

  lemma {:induction false} PlanIsRight(
      runs: map<RunId, Row>, config: Config, device: nat, requests: seq<Request>, ans: Answers, common: Share,
      plans: seq<RolePlan>, k: nat)
    requires k < |requests| && plans == PlansFrom(runs, config, device, requests, ans, 0, common)
    ensures IsThePlan(config, requests[k], ans, RoleLevel(runs, config, requests[k].role),
                      LeftAfter(common, plans, k), plans[k])
  {
    PlanAt(runs, config, device, requests, ans, 0, common, k, plans);
    NextPlanIs(runs, config, device, requests[k], ans, LeftAfter(common, plans, k));
  }

  lemma BudgetIsInCommon(runs: map<RunId, Row>, config: Config, device: nat)
    ensures Budget(runs, config, device) == InCommon(runs, config, device)
  {
    var limits := LimitsOf(config, device);
    RoomIsLevel(device, runs, _ => true, limits, Scope.Device);
    RoomIsLevel(config.maxParallel, runs, (row: Row) => row.project == config.project, limits,
                InProject(config.project));
  }

  /** Every plan offers exactly the targets its request names and its role may take,
      grants the most that the request, its gates, its limits and the plans before it
      leave, and gives every reason that holds and no other; dropped runs it blames
      exactly when one start more could fit without them. */
  lemma {:induction false} PlansAreRight(
      runs: map<RunId, Row>, config: Config, device: nat, requests: seq<Request>, ans: Answers)
    ensures ArePlans(runs, config, requests, ans, InCommon(runs, config, device),
                     PlansFrom(runs, config, device, requests, ans, 0, Budget(runs, config, device)))
  {
    var common := InCommon(runs, config, device);
    BudgetIsInCommon(runs, config, device);
    var plans := PlansFrom(runs, config, device, requests, ans, 0, common);
    forall k | 0 <= k < |plans| {
      PlanIsRight(runs, config, device, requests, ans, common, plans, k);
    }
  }
}
