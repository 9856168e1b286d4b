/** The risk that a whole tick starts more runs than it saw seats: what is known
    before the tick, and why without it the tick stays within its seats. */
module TickRisk {
  import opened Prelude
  import opened RunLedger
  import opened Dispatch
  import opened RefillLoop
  import opened Overrun

  // ----- The risk, as known before the tick -----

  /** `a` comes before `b` in the due list. */
  predicate Ahead(due: seq<Role>, a: Role, b: Role) {
    due != [] && ((due[0] == a && b in due[1..]) || Ahead(due[1..], a, b))
  }

  function Third(a: Role, b: Role): Role {
    if Planner !in {a, b} then Planner else if Architect !in {a, b} then Architect else Developer
  }

  function Targets(manual: seq<Target>): set<Target> {
    set target | target in manual
  }

  /** The role has the seats and the starts left for `n` starts. */
  predicate CanStart(s: Setting, t: Tick, role: Role, n: nat) {
    && n <= RoleSeats(s, t, role)
    && (s.policies(role).executionLimit.Some? ==>
          t.live.Of(role).startedCount + n <= s.policies(role).executionLimit.value)
  }

  /** Its `n`th start may use up the intent. */
  predicate MayEndAt(s: Setting, t: Tick, role: Role, n: nat) {
    var policy, intent := s.policies(role), t.live.Of(role);
    || policy.executionLimit == Some(intent.startedCount + n)
    || (intent.manualMode && |Targets(intent.manual)| <= n)
  }

  /** How often, up to `n` times, the role can start. */
  function Most(s: Setting, t: Tick, role: Role, n: nat): (m: nat)
    ensures m <= n
    ensures CanStart(s, t, role, 0) ==> CanStart(s, t, role, m)
  {
    if CanStart(s, t, role, n) || n == 0 then n else Most(s, t, role, n - 1)
  }

  /** The starts the third role can add before the `n`th start of `a`. */
  function Between(s: Setting, t: Tick, a: Role, b: Role, n: nat): nat
    requires n >= 1
  {
    var third := Third(a, b);
    if third !in t.due then 0
    else Most(s, t, third, if Ahead(t.due, third, a) then n else n - 1)
  }

  /** In its `n`th pass the tick may give `a` the last of `budget` seats with the
      last start of its intent, and go on to `b`. */
  predicate RiskIn(s: Setting, t: Tick, a: Role, b: Role, n: nat, budget: nat) {
    && n >= 1 && a != b && Ahead(t.due, a, b)
    && CanStart(s, t, a, n) && CanStart(s, t, b, n) && MayEndAt(s, t, a, n)
    && 2 * n - 1 <= budget <= 2 * n - 1 + Between(s, t, a, b, n)
  }

  predicate TickAtRisk(s: Setting, t: Tick, budget: nat) {
    exists a: Role, b: Role, n: nat | n <= budget :: RiskIn(s, t, a, b, n, budget)
  }

  lemma RiskIsTickRisk(s: Setting, t: Tick, a: Role, b: Role, n: nat, budget: nat)
    requires RiskIn(s, t, a, b, n, budget)
    ensures TickAtRisk(s, t, budget)
  {
    assert n <= budget;
  }

  lemma RiskWitness(s: Setting, t: Tick, budget: nat) returns (a: Role, b: Role, n: nat)
    requires TickAtRisk(s, t, budget)
    ensures RiskIn(s, t, a, b, n, budget)
  {
    a, b, n :| n <= budget && RiskIn(s, t, a, b, n, budget);
  }

  lemma {:induction false} MostIsMost(s: Setting, t: Tick, role: Role, n: nat, m: nat)
    requires m <= n && CanStart(s, t, role, m)
    ensures Most(s, t, role, n) >= m
  {
    if m < n {
      MostIsMost(s, t, role, n - 1, m);
    }
  }

  // ----- The due list keeps its order -----

  lemma {:induction false} AheadIsIn(due: seq<Role>, a: Role, b: Role)
    requires Ahead(due, a, b)
    ensures a in due && b in due
  {
    if !(due[0] == a && b in due[1..]) {
      AheadIsIn(due[1..], a, b);
    }
  }

  lemma {:induction false} RemovingKeepsOrder(due: seq<Role>, role: Role, a: Role, b: Role)
    requires NoDuplicates(due) && a != role && b != role
    ensures Ahead(RemoveRole(due, role), a, b) <==> Ahead(due, a, b)
  {
    if due != [] {
      var rest := due[1..];
      if due[0] != role {
        RemovingKeepsOrder(rest, role, a, b);
        RemoveRoleRemoves(rest, role);
        assert ([due[0]] + RemoveRole(rest, role))[1..] == RemoveRole(rest, role);
      }
    }
  }

  /** At most the role is off the due list, and at most it has a seat for `row`. */
  predicate Touches(t: Tick, t': Tick, role: Role, row: Row) {
    && (t'.due == t.due || t'.due == RemoveRole(t.due, role))
    && ((t'.live == t.live && t'.seats == t.seats && t'.started == t.started)
        || (t'.live == t.live.With(role, CountStart(t.live.Of(role), row))
            && t'.seats == t.seats.With(role, t.seats.Of(role) + 1) && t'.started == t.started + 1))
  }

  lemma SeatTouches(s: Setting, t: Tick, role: Role, row: Row)
    ensures Touches(t, TakeSeat(s, t, role, row).tick, role, row)
  {
  }

  lemma AnswerTouches(s: Setting, t: Tick, role: Role, outcome: Outcome)
    ensures Touches(t, Answered(s, t, role, outcome).tick, role, outcome.row)
  {
    SeatTouches(s, t.(runs := RunsWith(t.runs, s.ids(t.asked), outcome), asked := t.asked + 1), role, outcome.row);
  }

  lemma TurnTouches(s: Setting, t: Tick, role: Role)
    ensures
      var row := LaunchOutcome(s.project, role, t.live.Of(role).manual, s.ask(t.asked)).row;
      Touches(t, TryRole(s, t, role).tick, role, row)
  {
    AnswerTouches(s, t, role, LaunchOutcome(s.project, role, t.live.Of(role).manual, s.ask(t.asked)));
  }

  lemma {:induction false} OrderStays(due: seq<Role>, due': seq<Role>, role: Role, a: Role, b: Role)
    requires NoDuplicates(due) && (due' == due || due' == RemoveRole(due, role))
    ensures a in due' ==> a in due
    ensures a in due' && b in due' ==> (Ahead(due', a, b) <==> Ahead(due, a, b))
  {
    RemoveRoleRemoves(due, role);
    if a != role && b != role {
      RemovingKeepsOrder(due, role, a, b);
    }
  }

  lemma {:induction false} PassKeepsOrder(s: Setting, t: Tick, todo: seq<Role>, a: Role, b: Role)
    requires SettingOk(s) && TickOk(s, t) && Todo(t, todo)
    ensures
      var due := Pass(s, t, todo).tick.due;
      && (a in due ==> a in t.due)
      && (a in due && b in due ==> (Ahead(due, a, b) <==> Ahead(t.due, a, b)))
    decreases |todo|
  {
    if todo != [] {
      var turn := TryRole(s, t, todo[0]);
      TurnKeepsDue(s, t, todo);
      TurnTouches(s, t, todo[0]);
      OrderStays(t.due, turn.tick.due, todo[0], a, b);
      if !turn.stop {
        PassKeepsOrder(s, turn.tick, todo[1..], a, b);
        PassKeepsOrder(s, turn.tick, todo[1..], b, a);
      }
    }
  }

  // ----- What one pass does to one role -----

  function Total(seats: PerRole<nat>): nat {
    seats.planner + seats.architect + seats.developer
  }

  /** A pass gives a role at most one seat, and only if it is due; all seats
      together are its starts. */
  predicate SeatsAreStarts(t: Tick, t': Tick, todo: seq<Role>) {
    && t'.started - t.started == Total(t'.seats) - Total(t.seats)
    && forall r: Role ::
         t.seats.Of(r) <= t'.seats.Of(r) <= t.seats.Of(r) + if r in todo then 1 else 0
  }

  lemma OneSeatIsOneStart(t: Tick, t': Tick, role: Role, row: Row)
    requires Touches(t, t', role, row)
    ensures SeatsAreStarts(t, t', [role])
  {
  }

  lemma TurnSeatsAreStarts(s: Setting, t: Tick, role: Role)
    ensures SeatsAreStarts(t, TryRole(s, t, role).tick, [role])
  {
    TurnTouches(s, t, role);
    OneSeatIsOneStart(t, TryRole(s, t, role).tick, role,
                      LaunchOutcome(s.project, role, t.live.Of(role).manual, s.ask(t.asked)).row);
  }

  lemma SeatsAreStartsTwice(a: Tick, b: Tick, c: Tick, role: Role, rest: seq<Role>)
    requires SeatsAreStarts(a, b, [role]) && SeatsAreStarts(b, c, rest) && role !in rest
    ensures SeatsAreStarts(a, c, [role] + rest)
  {
  }

  lemma {:induction false} PassSeatsAreStarts(s: Setting, t: Tick, todo: seq<Role>)
    requires SettingOk(s) && TickOk(s, t) && Todo(t, todo)
    ensures SeatsAreStarts(t, Pass(s, t, todo).tick, todo)
    decreases |todo|
  {
    if todo != [] {
      var turn := TryRole(s, t, todo[0]);
      TurnKeepsDue(s, t, todo);
      TurnSeatsAreStarts(s, t, todo[0]);
      HeadAndTail(todo);
      if !turn.stop {
        PassSeatsAreStarts(s, turn.tick, todo[1..]);
        SeatsAreStartsTwice(t, turn.tick, Pass(s, turn.tick, todo[1..]).tick, todo[0], todo[1..]);
      }
    }
  }

  /** A start takes at most one target from an intent. */
  predicate TargetsInStep(t: Tick, t': Tick, role: Role) {
    t'.seats.Of(role) >= t.seats.Of(role) &&
    |Targets(t.live.Of(role).manual)| <= |Targets(t'.live.Of(role).manual)| + (t'.seats.Of(role) - t.seats.Of(role))
  }

  lemma {:induction false} OtherTargetsAre(manual: seq<Target>, taken: Target)
    ensures Targets(OtherTargets(manual, taken)) == Targets(manual) - {taken}
  {
    if manual != [] {
      OtherTargetsAre(manual[1..], taken);
      var rest := OtherTargets(manual[1..], taken);
      assert Targets(manual) == {manual[0]} + Targets(manual[1..]);
      assert Targets([manual[0]] + rest) == {manual[0]} + Targets(rest);
    }
  }

  lemma CountStartTargets(intent: Intent, row: Row)
    ensures |Targets(intent.manual)| <= |Targets(CountStart(intent, row).manual)| + 1
  {
    if row.lease.Some? {
      OtherTargetsAre(intent.manual, row.lease.value.target);
      AtMostOneMore(Targets(intent.manual), Targets(CountStart(intent, row).manual), row.lease.value.target);
    }
  }

  lemma TurnKeepsTargets(s: Setting, t: Tick, taking: Role, role: Role)
    ensures TargetsInStep(t, TryRole(s, t, taking).tick, role)
  {
    var row := LaunchOutcome(s.project, taking, t.live.Of(taking).manual, s.ask(t.asked)).row;
    TurnTouches(s, t, taking);
    TargetsTaken(t, TryRole(s, t, taking).tick, taking, role, row);
  }

  lemma TargetsTaken(t: Tick, t': Tick, taking: Role, role: Role, row: Row)
    requires
      || (t'.live == t.live && t'.seats == t.seats)
      || (t'.live == t.live.With(taking, CountStart(t.live.Of(taking), row))
          && t'.seats == t.seats.With(taking, t.seats.Of(taking) + 1))
    ensures TargetsInStep(t, t', role)
  {
    CountStartTargets(t.live.Of(taking), row);
  }

  lemma {:induction false} PassKeepsTargets(s: Setting, t: Tick, todo: seq<Role>, role: Role)
    requires SettingOk(s) && TickOk(s, t) && Todo(t, todo)
    ensures TargetsInStep(t, Pass(s, t, todo).tick, role)
    decreases |todo|
  {
    if todo != [] {
      var turn := TryRole(s, t, todo[0]);
      TurnKeepsDue(s, t, todo);
      TurnKeepsTargets(s, t, todo[0], role);
      if !turn.stop {
        PassKeepsTargets(s, turn.tick, todo[1..], role);
      }
    }
  }

  // ----- The risk of a pass is a risk of the tick -----

  lemma {:induction false} OpenAhead(s: Setting, t: Tick, todo: seq<Role>, i: nat)
    requires i + 1 < |OpenRoles(s, t, todo)|
    ensures Ahead(todo, OpenRoles(s, t, todo)[i], OpenRoles(s, t, todo)[i + 1])
  {
    var open, rest := OpenRoles(s, t, todo), OpenRoles(s, t, todo[1..]);
    if Open(s, t, todo[0]) {
      assert open == [todo[0]] + rest;
      if i == 0 {
        OpenRolesAreTodo(s, t, todo[1..], rest[0]);
      } else {
        assert open[i] == rest[i - 1] && open[i + 1] == rest[i];
        OpenAhead(s, t, todo[1..], i - 1);
      }
    } else {
      OpenAhead(s, t, todo[1..], i);
    }
  }

  lemma {:induction false} OpenRolesAreDistinct(s: Setting, t: Tick, todo: seq<Role>)
    requires NoDuplicates(todo)
    ensures NoDuplicates(OpenRoles(s, t, todo))
  {
    if todo != [] {
      var rest := OpenRoles(s, t, todo[1..]);
      OpenRolesAreDistinct(s, t, todo[1..]);
      forall r | r in rest
        ensures r != todo[0]
      {
        OpenRolesAreTodo(s, t, todo[1..], r);
        assert todo[0] !in todo[1..];
      }
      assert forall k | 0 <= k < |rest| :: rest[k] in rest;
    }
  }

  lemma OpenRoleCanStart(s: Setting, t: Tick, role: Role)
    requires TickOk(s, t) && role in t.due && Open(s, t, role)
    ensures CanStart(s, t, role, 1)
  {
    assert !Exhausted(s.policies(role), t.live.Of(role));
  }

  lemma RunsOutAtOnce(s: Setting, t: Tick, role: Role)
    requires MayRunOut(s.policies(role), t.live.Of(role))
    ensures MayEndAt(s, t, role, 1)
  {
    var manual := t.live.Of(role).manual;
    if manual != [] && forall k | 0 <= k < |manual| :: manual[k] == manual[0] {
      assert Targets(manual) == {manual[0]};
    } else if manual == [] {
      assert Targets(manual) == {};
    }
  }

  lemma {:induction false} PassRiskIsTickRisk(s: Setting, t: Tick, budget: nat)
    requires TickOk(s, t) && budget > 0 && AtRisk(s, t, OpenRoles(s, t, t.due), budget)
    ensures TickAtRisk(s, t, budget)
  {
    var open := OpenRoles(s, t, t.due);
    var i :| 0 <= i < |open| - 1 && RiskAt(s, t, open, budget, i);
    OpenRolesAreDistinct(s, t, t.due);
    AtMostThreeRoles(open);
    OpenAhead(s, t, t.due, i);
    var a, b := open[i], open[i + 1];
    OpenRolesAreTodo(s, t, t.due, a);
    OpenRolesAreTodo(s, t, t.due, b);
    OpenRoleCanStart(s, t, a);
    OpenRoleCanStart(s, t, b);
    RunsOutAtOnce(s, t, a);
    if i == 1 {
      OpenAhead(s, t, t.due, 0);
      OpenRolesAreTodo(s, t, t.due, open[0]);
      OpenRoleCanStart(s, t, open[0]);
      assert open[0] == Third(a, b);
      MostIsMost(s, t, open[0], 1, 1);
    }
    RiskIsTickRisk(s, t, a, b, 1, budget);
  }

  // ----- A later risk is a risk from the start -----

  /** What a full pass, not cut short, has done to a role that is still due. */
  predicate PassedOn(s: Setting, t: Tick, t': Tick, role: Role) {
    && role in t.due
    && t'.live.Of(role).startedCount == t.live.Of(role).startedCount + 1
    && t'.live.Of(role).manualMode == t.live.Of(role).manualMode
    && RoleSeats(s, t', role) + 1 <= RoleSeats(s, t, role)
    && |Targets(t.live.Of(role).manual)| <= |Targets(t'.live.Of(role).manual)| + 1
  }

  lemma {:induction false} FullPassPassesOn(s: Setting, t: Tick, role: Role)
    requires SettingOk(s) && TickOk(s, t) && !Pass(s, t, t.due).stop
    requires role in Pass(s, t, t.due).tick.due
    ensures PassedOn(s, t, Pass(s, t, t.due).tick, role)
    ensures Pass(s, t, t.due).tick.seats.Of(role) == t.seats.Of(role) + 1
  {
    PassKeepsOrder(s, t, t.due, role, role);
    PassIsEven(s, t, t.due, role);
    PassCounts(s, t, t.due, role);
    PassKeepsTargets(s, t, t.due, role);
  }

  lemma OneMoreStart(s: Setting, t: Tick, t': Tick, role: Role, n: nat)
    requires PassedOn(s, t, t', role)
    ensures CanStart(s, t', role, n) ==> CanStart(s, t, role, n + 1)
    ensures MayEndAt(s, t', role, n) ==> MayEndAt(s, t, role, n + 1)
  {
  }

  lemma OneMoreAtMost(s: Setting, t: Tick, t': Tick, role: Role, n: nat)
    requires PassedOn(s, t, t', role) && CanStart(s, t', role, 0)
    ensures Most(s, t, role, n + 1) >= Most(s, t', role, n) + 1
  {
    var m := Most(s, t', role, n);
    OneMoreStart(s, t, t', role, m);
    MostIsMost(s, t, role, n + 1, m + 1);
  }

  /** The starts of the third role, those of this pass included. */
  lemma {:induction false} ThirdRoleStays(s: Setting, t: Tick, t': Tick, a: Role, b: Role, n: nat)
    requires a != b && n >= 1 && PassedOn(s, t, t', Third(a, b)) && CanStart(s, t', Third(a, b), 0)
    requires Third(a, b) in t'.due && (Ahead(t'.due, Third(a, b), a) <==> Ahead(t.due, Third(a, b), a))
    ensures Between(s, t', a, b, n) + 1 <= Between(s, t, a, b, n + 1)
  {
    var third := Third(a, b);
    OneMoreAtMost(s, t, t', third, if Ahead(t.due, third, a) then n else n - 1);
  }

  lemma ThirdRoleLeaves(s: Setting, t: Tick, a: Role, b: Role, n: nat)
    requires a != b && n >= 1 && Third(a, b) in t.due && CanStart(s, t, Third(a, b), 1)
    ensures 1 <= Between(s, t, a, b, n + 1)
  {
    MostIsMost(s, t, Third(a, b), if Ahead(t.due, Third(a, b), a) then n + 1 else n, 1);
  }

  lemma SeatNeedsAStart(s: Setting, t: Tick, t': Tick, role: Role)
    requires CountsInStep(s, t, t', role) && t'.seats.Of(role) > t.seats.Of(role)
    ensures CanStart(s, t, role, 1)
  {
  }

  lemma DueRoleHasAStart(s: Setting, t: Tick, role: Role)
    requires TickOk(s, t) && role in t.due
    ensures CanStart(s, t, role, 0)
  {
    assert !Exhausted(s.policies(role), t.live.Of(role));
  }

  lemma {:induction false} ThirdRoleAddsUp(s: Setting, t: Tick, a: Role, b: Role, n: nat)
    requires SettingOk(s) && TickOk(s, t) && !Pass(s, t, t.due).stop && a != b && n >= 1
    requires a in Pass(s, t, t.due).tick.due
    ensures
      var t' := Pass(s, t, t.due).tick;
      var third := Third(a, b);
      Between(s, t', a, b, n) + (t'.seats.Of(third) - t.seats.Of(third)) <= Between(s, t, a, b, n + 1)
  {
    var t', third := Pass(s, t, t.due).tick, Third(a, b);
    PassKeeps(s, t, t.due);
    if third in t'.due {
      FullPassPassesOn(s, t, third);
      PassKeepsOrder(s, t, t.due, third, a);
      DueRoleHasAStart(s, t', third);
      ThirdRoleStays(s, t, t', a, b, n);
    } else {
      PassSeatsAreStarts(s, t, t.due);
      assert t'.seats.Of(third) <= t.seats.Of(third) + if third in t.due then 1 else 0;
      if t'.seats.Of(third) > t.seats.Of(third) {
        PassCounts(s, t, t.due, third);
        SeatNeedsAStart(s, t, t', third);
        ThirdRoleLeaves(s, t, a, b, n);
      }
    }
  }

  /** A risk `n` passes after a full pass was a risk before it. */
  lemma {:induction false} LaterRiskIsARisk(s: Setting, t: Tick, a: Role, b: Role, n: nat, left: nat, budget: nat)
    requires SettingOk(s) && TickOk(s, t) && !Pass(s, t, t.due).stop
    requires RiskIn(s, Pass(s, t, t.due).tick, a, b, n, left)
    requires budget == left + (Pass(s, t, t.due).tick.started - t.started)
    ensures RiskIn(s, t, a, b, n + 1, budget)
  {
    var t' := Pass(s, t, t.due).tick;
    AheadIsIn(t'.due, a, b);
    PassKeepsOrder(s, t, t.due, a, b);
    FullPassPassesOn(s, t, a);
    FullPassPassesOn(s, t, b);
    OneMoreStart(s, t, t', a, n);
    OneMoreStart(s, t, t', b, n);
    ThirdRoleAddsUp(s, t, a, b, n);
    PassSeatsAreStarts(s, t, t.due);
    TotalOfThree(t.seats, t'.seats, a, b);
  }

  lemma TotalOfThree(seats: PerRole<nat>, seats': PerRole<nat>, a: Role, b: Role)
    requires a != b && seats'.Of(a) == seats.Of(a) + 1 && seats'.Of(b) == seats.Of(b) + 1
    ensures Total(seats') - Total(seats) == 2 + (seats'.Of(Third(a, b)) - seats.Of(Third(a, b)))
  {
  }

  // ----- Without risk -----

  lemma {:induction false} RiskAfterAPass(s: Setting, t: Tick, left: nat, budget: nat)
    requires SettingOk(s) && TickOk(s, t) && !Pass(s, t, t.due).stop
    requires budget == left + (Pass(s, t, t.due).tick.started - t.started) && left <= budget
    requires TickAtRisk(s, Pass(s, t, t.due).tick, left)
    ensures exists a: Role, b: Role, n: nat | n <= budget :: RiskIn(s, t, a, b, n, budget)
  {
    var a, b, n := RiskWitness(s, Pass(s, t, t.due).tick, left);
    LaterRiskIsARisk(s, t, a, b, n, left, budget);
  }

  predicate WithinBudget(s: Setting, t: Tick, t': Tick, budget: nat) {
    t.started <= t'.started <= t.started + budget && Seats(s, t') <= budget - (t'.started - t.started)
  }

  lemma SpentWithinBudget(s: Setting, t: Tick, t': Tick, budget: nat)
    requires Spent(s, t, t') && Seats(s, t) <= budget && t'.started <= t.started + budget
    ensures WithinBudget(s, t, t', budget)
  {
  }

  lemma {:induction false} PassWithinBudget(s: Setting, t: Tick, budget: nat)
    requires SettingOk(s) && TickOk(s, t) && 0 < Seats(s, t) <= budget && !TickAtRisk(s, t, budget)
    ensures WithinBudget(s, t, Pass(s, t, t.due).tick, budget)
  {
    PassSpendsSeats(s, t, t.due);
    if AtRisk(s, t, OpenRoles(s, t, t.due), budget) {
      PassRiskIsTickRisk(s, t, budget);
    }
    NoRiskNoOverrun(s, t, t.due, budget);
    SpentWithinBudget(s, t, Pass(s, t, t.due).tick, budget);
  }

  lemma {:induction false} NoRiskAfterAPass(s: Setting, t: Tick, left: nat, budget: nat)
    requires SettingOk(s) && TickOk(s, t) && !Pass(s, t, t.due).stop && !TickAtRisk(s, t, budget)
    requires budget == left + (Pass(s, t, t.due).tick.started - t.started) && left <= budget
    ensures !TickAtRisk(s, Pass(s, t, t.due).tick, left)
  {
    if TickAtRisk(s, Pass(s, t, t.due).tick, left) {
      RiskAfterAPass(s, t, left, budget);
    }
  }

  /** Without the risk a tick starts at most its budget, which covers its seats. */
  lemma {:induction false} NoRiskNoTickOverrun(s: Setting, t: Tick, budget: nat)
    requires SettingOk(s) && TickOk(s, t) && Seats(s, t) <= budget && !TickAtRisk(s, t, budget)
    ensures Refill(s, t).started <= t.started + budget
    decreases Seats(s, t)
  {
    if t.due != [] && Seats(s, t) > 0 {
      PassKeeps(s, t, t.due);
      PassSpendsSeats(s, t, t.due);
      PassWithinBudget(s, t, budget);
      var u := Pass(s, t, t.due);
      if u.progress && !u.stop {
        var left := budget - (u.tick.started - t.started);
        NoRiskAfterAPass(s, t, left, budget);
        NoRiskNoTickOverrun(s, u.tick, left);
      }
    }
  }

  /** An intent that cannot run out while its role has seats. */
  predicate Lasts(s: Setting, t: Tick, role: Role) {
    var policy, intent := s.policies(role), t.live.Of(role);
    && !intent.manualMode
    && (policy.executionLimit.Some? ==> intent.startedCount + RoleSeats(s, t, role) < policy.executionLimit.value)
  }

  predicate AllLast(s: Setting, t: Tick) {
    forall r | r in t.due :: Lasts(s, t, r)
  }

  lemma LastingIntentsAreNoRisk(s: Setting, t: Tick, budget: nat)
    requires AllLast(s, t)
    ensures !TickAtRisk(s, t, budget)
  {
    forall a: Role, b: Role, n: nat
      ensures !RiskIn(s, t, a, b, n, budget)
    {
      if Ahead(t.due, a, b) {
        AheadIsIn(t.due, a, b);
        assert Lasts(s, t, a);
      }
    }
  }

  /** A tick whose due intents cannot run out starts at most as many runs as
      seats remained when it looked first. */
  lemma {:induction false} LastingIntentsStayWithinSeats(s: Setting, t: Tick)
    requires SettingOk(s) && TickOk(s, t) && AllLast(s, t)
    ensures Refill(s, t).started <= t.started + Seats(s, t)
  {
    LastingIntentsAreNoRisk(s, t, Seats(s, t));
    NoRiskNoTickOverrun(s, t, Seats(s, t));
  }
}
