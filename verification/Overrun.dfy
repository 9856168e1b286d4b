/** How many runs a tick can start.  A start that uses up its intent is not
    followed by a look at the project and device limits, so the next role of the
    same pass may start one more; this module says exactly when. */
module Overrun {
  import opened Prelude
  import opened EventLog
  import opened RunLedger
  import opened Slots
  import opened Dispatch
  import opened RefillLoop

  /** The next start of this intent may be its last. */
  predicate MayRunOut(policy: Policy, intent: Intent) {
    || policy.executionLimit == Some(intent.startedCount + 1)
    || (intent.manualMode && forall k | 0 <= k < |intent.manual| :: intent.manual[k] == intent.manual[0])
  }

  predicate Open(s: Setting, t: Tick, role: Role) {
    RoleSeats(s, t, role) > 0
  }

  function OpenRoles(s: Setting, t: Tick, todo: seq<Role>): seq<Role> {
    if todo == [] then []
    else if Open(s, t, todo[0]) then [todo[0]] + OpenRoles(s, t, todo[1..])
    else OpenRoles(s, t, todo[1..])
  }

  /** A role that may take the last seat with its last start, ahead of another role. */
  predicate RiskAt(s: Setting, t: Tick, open: seq<Role>, budget: int, i: int) {
    budget - 1 <= i && 0 <= i < |open| - 1 && MayRunOut(s.policies(open[i]), t.live.Of(open[i]))
  }

  predicate AtRisk(s: Setting, t: Tick, open: seq<Role>, budget: int) {
    exists i | 0 <= i < |open| - 1 :: RiskAt(s, t, open, budget, i)
  }

  // ----- Without risk a pass stays within its seats -----

  lemma {:induction false} OpenRolesStay(s: Setting, t: Tick, t': Tick, todo: seq<Role>)
    requires forall r | r in todo :: Open(s, t, r) == Open(s, t', r)
    ensures OpenRoles(s, t, todo) == OpenRoles(s, t', todo)
  {
    if todo != [] {
      assert forall r | r in todo[1..] :: r in todo;
      OpenRolesStay(s, t, t', todo[1..]);
    }
  }

  lemma {:induction false} OpenRolesAreTodo(s: Setting, t: Tick, todo: seq<Role>, role: Role)
    requires role in OpenRoles(s, t, todo)
    ensures role in todo && Open(s, t, role)
  {
    if todo[0] != role || !Open(s, t, todo[0]) {
      OpenRolesAreTodo(s, t, todo[1..], role);
    }
  }

  lemma RiskShifts(s: Setting, t: Tick, t': Tick, open: seq<Role>, budget: int, budget': int)
    requires open != [] && budget' >= budget - 1
    requires forall r | r in open[1..] :: t'.live.Of(r) == t.live.Of(r)
    requires AtRisk(s, t', open[1..], budget')
    ensures AtRisk(s, t, open, budget)
  {
    var i :| 0 <= i < |open[1..]| - 1 && RiskAt(s, t', open[1..], budget', i);
    assert open[1..][i] == open[i + 1];
    assert RiskAt(s, t, open, budget, i + 1);
  }

  lemma RiskStays(s: Setting, t: Tick, t': Tick, open: seq<Role>, budget: int)
    requires forall r | r in open :: t'.live.Of(r) == t.live.Of(r)
    requires AtRisk(s, t', open, budget)
    ensures AtRisk(s, t, open, budget)
  {
    var i :| 0 <= i < |open| - 1 && RiskAt(s, t', open, budget, i);
    assert RiskAt(s, t, open, budget, i);
  }

  /** After one turn the roles still to come are as open as before, with the
      same intents. */
  lemma {:induction false} TurnLeavesTheRest(s: Setting, t: Tick, todo: seq<Role>)
    requires SettingOk(s) && TickOk(s, t) && Todo(t, todo) && todo != []
    ensures
      var t' := TryRole(s, t, todo[0]).tick;
      && OpenRoles(s, t', todo[1..]) == OpenRoles(s, t, todo[1..])
      && (forall r | r in OpenRoles(s, t, todo[1..]) :: t'.live.Of(r) == t.live.Of(r))
      && (Open(s, t, todo[0]) <==> OpenRoles(s, t, todo) != OpenRoles(s, t, todo[1..]))
  {
    TryRoleKeeps(s, t, todo[0]);
    var t' := TryRole(s, t, todo[0]).tick;
    assert todo[0] !in todo[1..];
    OpenRolesStay(s, t, t', todo[1..]);
    forall r | r in OpenRoles(s, t, todo[1..])
      ensures t'.live.Of(r) == t.live.Of(r)
    {
      OpenRolesAreTodo(s, t, todo[1..], r);
    }
  }

  /** A turn that uses up its intent had an intent that could run out. */
  lemma OnlyTheShortRunOut(s: Setting, t: Tick, role: Role)
    requires SettingOk(s) && TickOk(s, t) && role in t.due && Open(s, t, role)
    requires TryRole(s, t, role).progress
    requires Exhausted(s.policies(role), TryRole(s, t, role).tick.live.Of(role))
    ensures MayRunOut(s.policies(role), t.live.Of(role))
  {
    var row := LaunchOutcome(s.project, role, t.live.Of(role).manual, s.ask(t.asked)).row;
    TurnCounts(s, t, role);
    LastStartRunsOut(s.policies(role), t.live.Of(role), row);
  }

  lemma TurnCounts(s: Setting, t: Tick, role: Role)
    requires SettingOk(s) && TickOk(s, t) && role in t.due && TryRole(s, t, role).progress
    ensures
      var row := LaunchOutcome(s.project, role, t.live.Of(role).manual, s.ask(t.asked)).row;
      TryRole(s, t, role).tick.live.Of(role) == CountStart(t.live.Of(role), row)
  {
  }

  lemma LastStartRunsOut(policy: Policy, intent: Intent, row: Row)
    requires !Exhausted(policy, intent) && Exhausted(policy, CountStart(intent, row))
    ensures MayRunOut(policy, intent)
  {
    if row.lease.Some? {
      OnlyOneTargetLeft(intent.manual, row.lease.value.target);
    }
  }

  lemma {:induction false} OnlyOneTargetLeft(manual: seq<Target>, taken: Target)
    ensures OtherTargets(manual, taken) == [] <==> forall k | 0 <= k < |manual| :: manual[k] == taken
  {
    if manual != [] {
      OnlyOneTargetLeft(manual[1..], taken);
      assert manual == [manual[0]] + manual[1..];
    }
  }

  lemma {:induction false} NothingOpenStartsNothing(s: Setting, t: Tick, todo: seq<Role>)
    requires SettingOk(s) && TickOk(s, t) && Todo(t, todo) && OpenRoles(s, t, todo) == []
    ensures Pass(s, t, todo).tick.started == t.started
    decreases |todo|
  {
    if todo != [] {
      TurnKeepsDue(s, t, todo);
      TurnLeavesTheRest(s, t, todo);
      NothingOpenStartsNothing(s, TryRole(s, t, todo[0]).tick, todo[1..]);
    }
  }

  /** One turn's count, for the budget that is left after it. */
  lemma TurnWithinBudget(s: Setting, t: Tick, role: Role, budget: nat)
    requires SettingOk(s) && TickOk(s, t) && role in t.due && Seats(s, t) <= budget
    ensures
      var turn := TryRole(s, t, role);
      && (turn.progress ==>
            turn.tick.started == t.started + 1 && (Seats(s, turn.tick) <= budget - 1 || budget == 0))
      && (!turn.progress ==> turn.tick.started == t.started && Seats(s, turn.tick) <= budget)
      && (turn.progress && !turn.stop && budget <= 1 ==>
            Exhausted(s.policies(role), turn.tick.live.Of(role)))
      && (!Open(s, t, role) ==> !turn.progress)
  {
    TryRoleKeeps(s, t, role);
  }

  lemma {:induction false} NoRiskNoOverrun(s: Setting, t: Tick, todo: seq<Role>, budget: nat)
    requires SettingOk(s) && TickOk(s, t) && Todo(t, todo)
    requires 0 < budget && Seats(s, t) <= budget && !AtRisk(s, t, OpenRoles(s, t, todo), budget)
    ensures Pass(s, t, todo).tick.started <= t.started + budget
    decreases |todo|
  {
    if todo != [] {
      TurnKeepsDue(s, t, todo);
      TurnLeavesTheRest(s, t, todo);
      TurnWithinBudget(s, t, todo[0], budget);
      var turn, open, rest := TryRole(s, t, todo[0]), OpenRoles(s, t, todo), OpenRoles(s, t, todo[1..]);
      if !turn.stop {
        var left := if turn.progress then budget - 1 else budget;
        if AtRisk(s, turn.tick, rest, left) {
          RiskGoesBack(s, t, todo, left, budget);
        }
        if left > 0 {
          NoRiskNoOverrun(s, turn.tick, todo[1..], left);
        } else {
          OnlyTheShortRunOut(s, t, todo[0]);
          assert !RiskAt(s, t, open, budget, 0);
          NothingOpenStartsNothing(s, turn.tick, todo[1..]);
        }
      }
    }
  }

  lemma {:induction false} RiskGoesBack(s: Setting, t: Tick, todo: seq<Role>, left: nat, budget: nat)
    requires SettingOk(s) && TickOk(s, t) && Todo(t, todo) && todo != []
    requires left == budget || (left == budget - 1 && Open(s, t, todo[0]))
    requires AtRisk(s, TryRole(s, t, todo[0]).tick, OpenRoles(s, t, todo[1..]), left)
    ensures AtRisk(s, t, OpenRoles(s, t, todo), budget)
  {
    TurnLeavesTheRest(s, t, todo);
    var t', open, rest := TryRole(s, t, todo[0]).tick, OpenRoles(s, t, todo), OpenRoles(s, t, todo[1..]);
    if Open(s, t, todo[0]) {
      assert open[1..] == rest;
      RiskShifts(s, t, t', open, budget, left);
    } else {
      RiskStays(s, t, t', open, budget);
    }
  }

  // ----- With risk some answers overrun -----

  const REFUSE := LaunchAnswers(
    Refuse(NotStarted, None), None,
    StartAnswers(Proceed, Unavailable(true), true, NotLaunched, 0, Never), false,
    Outside(Codec(line => None, line => None), [], 0, 0))

  /** The `n`th launch succeeds, on the intent's first target if it names any,
      with processes no other launch has. */
  function Agree(manual: seq<Target>, n: nat): LaunchAnswers {
    REFUSE.(
      preflight := Proceed,
      worker := Some(Supervisor(2 * n + 1, None)),
      start := StartAnswers(Proceed, Granted(Lease(if manual == [] then n else manual[0], n)), true,
                            Launched(2 * n + 2, n, true), 0, Never))
  }

  /** The first `skip` open roles are refused, the others start; the first launch
      is the `n`th. */
  function Script(live: PerRole<Intent>, open: seq<Role>, skip: nat, n: nat): (script: seq<LaunchAnswers>)
    ensures |script| == |open|
    decreases |open|
  {
    if open == [] then []
    else if skip > 0 then [REFUSE] + Script(live, open[1..], skip - 1, n + 1)
    else [Agree(live.Of(open[0]).manual, n)] + Script(live, open[1..], 0, n + 1)
  }

  ghost predicate Follows(s: Setting, asked: nat, script: seq<LaunchAnswers>) {
    forall k | 0 <= k < |script| :: s.ask(asked + k) == script[k]
  }

  lemma FollowsOn(s: Setting, asked: nat, script: seq<LaunchAnswers>)
    requires script != [] && Follows(s, asked, script)
    ensures s.ask(asked) == script[0] && Follows(s, asked + 1, script[1..])
  {
    assert s.ask(asked + 0) == script[0];
    forall k | 0 <= k < |script[1..]|
      ensures s.ask(asked + 1 + k) == script[1..][k]
    {
      assert s.ask(asked + (k + 1)) == script[k + 1];
    }
  }

  lemma {:induction false} ScriptStays(
      live: PerRole<Intent>, live': PerRole<Intent>, open: seq<Role>, skip: nat, n: nat)
    requires forall r | r in open :: live'.Of(r) == live.Of(r)
    ensures Script(live', open, skip, n) == Script(live, open, skip, n)
    decreases |open|
  {
    if open != [] {
      assert open[0] in open && forall r | r in open[1..] :: r in open;
      ScriptStays(live, live', open[1..], if skip > 0 then skip - 1 else 0, n + 1);
    }
  }

  lemma ClosedTurn(s: Setting, t: Tick, role: Role)
    requires SettingOk(s) && TickOk(s, t) && role in t.due && !Open(s, t, role)
    ensures
      var turn := TryRole(s, t, role);
      !turn.stop && turn.tick == Undue(t, role) && Seats(s, turn.tick) == Seats(s, t)
  {
  }

  lemma RefusedTurn(s: Setting, t: Tick, role: Role)
    requires SettingOk(s) && TickOk(s, t) && role in t.due && Open(s, t, role)
    requires s.ask(t.asked) == REFUSE
    ensures
      var turn := TryRole(s, t, role);
      && !turn.stop && turn.tick.asked == t.asked + 1 && turn.tick.started == t.started
      && Seats(s, turn.tick) == Seats(s, t)
  {
  }

  lemma AgreedTurn(s: Setting, t: Tick, role: Role)
    requires SettingOk(s) && TickOk(s, t) && role in t.due && Open(s, t, role)
    requires s.ask(t.asked) == Agree(t.live.Of(role).manual, t.asked)
    ensures
      var turn := TryRole(s, t, role);
      && turn.progress && turn.tick.asked == t.asked + 1 && turn.tick.started == t.started + 1
      && Seats(s, turn.tick) == Max0(Seats(s, t) - 1)
      && (MayRunOut(s.policies(role), t.live.Of(role)) || Seats(s, t) > 1 ==> !turn.stop)
  {
    var intent := t.live.Of(role);
    TryRoleKeeps(s, t, role);
    AgreeStarts(s.project, role, intent.manual, t.asked);
    AgreedIntent(s.policies(role), intent, LaunchOutcome(s.project, role, intent.manual, s.ask(t.asked)).row);
    TurnStarts(s, t, role);
  }

  /** An agreed start uses up an intent that may run out. */
  lemma AgreedIntent(policy: Policy, intent: Intent, row: Row)
    requires !Exhausted(policy, intent) && row.lease.Some?
    requires intent.manual != [] ==> row.lease.value.target == intent.manual[0]
    ensures MayRunOut(policy, intent) ==> Exhausted(policy, CountStart(intent, row))
  {
    if intent.manual != [] {
      OnlyOneTargetLeft(intent.manual, intent.manual[0]);
    }
  }

  lemma TurnStarts(s: Setting, t: Tick, role: Role)
    requires SettingOk(s) && TickOk(s, t) && role in t.due && Open(s, t, role)
    requires CountsAsStarted(LaunchOutcome(s.project, role, t.live.Of(role).manual, s.ask(t.asked)).row)
    ensures
      var turn := TryRole(s, t, role);
      var row := LaunchOutcome(s.project, role, t.live.Of(role).manual, s.ask(t.asked)).row;
      && turn.progress && turn.tick.asked == t.asked + 1
      && turn.tick.live.Of(role) == CountStart(t.live.Of(role), row)
  {
  }

  lemma AgreeStarts(project: ProjectId, role: Role, manual: seq<Target>, n: nat)
    ensures
      var row := LaunchOutcome(project, role, manual, Agree(manual, n)).row;
      CountsAsStarted(row) && row.lease.Some? && (manual != [] ==> row.lease.value.target == manual[0])
  {
  }

  ghost predicate InPlay(s: Setting, t: Tick, todo: seq<Role>, skip: nat) {
    Follows(s, t.asked, Script(t.live, OpenRoles(s, t, todo), skip, t.asked))
  }

  /** `t'` comes after the first turn of `todo`, and left the other roles alone. */
  predicate LeftTheRest(s: Setting, t: Tick, t': Tick, todo: seq<Role>)
    requires todo != []
  {
    && OpenRoles(s, t', todo[1..]) == OpenRoles(s, t, todo[1..])
    && (forall r | r in OpenRoles(s, t, todo[1..]) :: t'.live.Of(r) == t.live.Of(r))
  }

  lemma ScriptGoesOn(s: Setting, t: Tick, t': Tick, todo: seq<Role>, skip: nat)
    requires todo != [] && InPlay(s, t, todo, skip) && LeftTheRest(s, t, t', todo)
    requires Open(s, t, todo[0]) && t'.asked == t.asked + 1
    ensures InPlay(s, t', todo[1..], if skip > 0 then skip - 1 else 0)
  {
    var open, rest := OpenRoles(s, t, todo), OpenRoles(s, t, todo[1..]);
    ScriptStays(t.live, t'.live, rest, if skip > 0 then skip - 1 else 0, t'.asked);
    assert open[0] == todo[0] && open[1..] == rest;
    FollowsOn(s, t.asked, Script(t.live, open, skip, t.asked));
  }

  lemma ScriptWaits(s: Setting, t: Tick, t': Tick, todo: seq<Role>, skip: nat)
    requires todo != [] && InPlay(s, t, todo, skip) && LeftTheRest(s, t, t', todo)
    requires !Open(s, t, todo[0]) && t'.asked == t.asked
    ensures InPlay(s, t', todo[1..], skip)
  {
    ScriptStays(t.live, t'.live, OpenRoles(s, t, todo[1..]), skip, t.asked);
  }

  lemma ScriptIsNext(s: Setting, t: Tick, todo: seq<Role>, skip: nat)
    requires todo != [] && InPlay(s, t, todo, skip) && Open(s, t, todo[0])
    ensures s.ask(t.asked) == if skip > 0 then REFUSE else Agree(t.live.Of(todo[0]).manual, t.asked)
  {
    FollowsOn(s, t.asked, Script(t.live, OpenRoles(s, t, todo), skip, t.asked));
  }

  lemma {:induction false} RiskMovesOn(s: Setting, t: Tick, t': Tick, todo: seq<Role>, from: int, to: int, i: int)
    requires todo != [] && LeftTheRest(s, t, t', todo)
    requires RiskAt(s, t, OpenRoles(s, t, todo), from, i)
    requires Open(s, t, todo[0]) ==> i > 0 && to <= i
    requires !Open(s, t, todo[0]) ==> to == from
    ensures RiskAt(s, t', OpenRoles(s, t', todo[1..]), to, if Open(s, t, todo[0]) then i - 1 else i)
  {
    var open, rest := OpenRoles(s, t, todo), OpenRoles(s, t, todo[1..]);
    var j := if Open(s, t, todo[0]) then i - 1 else i;
    assert rest[j] == open[i];
  }

  /** The script is in play, and it leads to a start without a seat. */
  ghost predicate Doomed(s: Setting, t: Tick, todo: seq<Role>, skip: nat, budget: nat) {
    && Seats(s, t) == budget && InPlay(s, t, todo, skip)
    && (budget == 0 ==> skip == 0 && OpenRoles(s, t, todo) != [])
    && (budget > 0 ==> RiskAt(s, t, OpenRoles(s, t, todo), budget, skip + budget - 1))
  }

  /** The doom moves on with the script, past a turn that cost no seat. */
  lemma DoomWaits(s: Setting, t: Tick, t': Tick, todo: seq<Role>, skip: nat, budget: nat)
    requires todo != [] && Doomed(s, t, todo, skip, budget) && LeftTheRest(s, t, t', todo)
    requires !Open(s, t, todo[0]) || skip > 0
    requires t'.asked == (if Open(s, t, todo[0]) then t.asked + 1 else t.asked) && Seats(s, t') == budget
    ensures Doomed(s, t', todo[1..], if Open(s, t, todo[0]) then skip - 1 else skip, budget)
  {
    if Open(s, t, todo[0]) {
      ScriptGoesOn(s, t, t', todo, skip);
    } else {
      ScriptWaits(s, t, t', todo, skip);
    }
    if budget > 0 {
      RiskMovesOn(s, t, t', todo, budget, budget, skip + budget - 1);
    }
  }

  lemma DoomPassesBy(s: Setting, t: Tick, todo: seq<Role>, skip: nat, budget: nat)
    requires SettingOk(s) && TickOk(s, t) && Todo(t, todo) && todo != [] && Doomed(s, t, todo, skip, budget)
    requires !Open(s, t, todo[0]) || skip > 0
    ensures
      var turn := TryRole(s, t, todo[0]);
      && !turn.stop && turn.tick.started == t.started
      && Doomed(s, turn.tick, todo[1..], if Open(s, t, todo[0]) then skip - 1 else skip, budget)
  {
    TurnLeavesTheRest(s, t, todo);
    if Open(s, t, todo[0]) {
      ScriptIsNext(s, t, todo, skip);
      RefusedTurn(s, t, todo[0]);
    } else {
      ClosedTurn(s, t, todo[0]);
    }
    DoomWaits(s, t, TryRole(s, t, todo[0]).tick, todo, skip, budget);
  }

  /** And past a start, one seat nearer. */
  lemma DoomGoesOn(s: Setting, t: Tick, t': Tick, todo: seq<Role>, budget: nat)
    requires todo != [] && Doomed(s, t, todo, 0, budget) && LeftTheRest(s, t, t', todo)
    requires budget > 0 && Open(s, t, todo[0]) && t'.asked == t.asked + 1 && Seats(s, t') == budget - 1
    ensures Doomed(s, t', todo[1..], 0, budget - 1)
  {
    ScriptGoesOn(s, t, t', todo, 0);
    if budget > 1 {
      RiskMovesOn(s, t, t', todo, budget, budget - 1, budget - 1);
    }
  }

  lemma DoomComesNearer(s: Setting, t: Tick, todo: seq<Role>, budget: nat)
    requires SettingOk(s) && TickOk(s, t) && Todo(t, todo) && todo != [] && Doomed(s, t, todo, 0, budget)
    requires Open(s, t, todo[0])
    ensures
      var turn := TryRole(s, t, todo[0]);
      && turn.tick.started == t.started + 1
      && (budget > 0 ==> !turn.stop && Doomed(s, turn.tick, todo[1..], 0, budget - 1))
  {
    TurnLeavesTheRest(s, t, todo);
    ScriptIsNext(s, t, todo, 0);
    AgreedTurn(s, t, todo[0]);
    if budget > 0 {
      DoomGoesOn(s, t, TryRole(s, t, todo[0]).tick, todo, budget);
    }
  }

  lemma {:induction false} ScriptOverruns(s: Setting, t: Tick, todo: seq<Role>, skip: nat, budget: nat)
    requires SettingOk(s) && TickOk(s, t) && Todo(t, todo) && Doomed(s, t, todo, skip, budget)
    ensures Pass(s, t, todo).tick.started > t.started + budget
    decreases |todo|
  {
    TurnKeepsDue(s, t, todo);
    var turn := TryRole(s, t, todo[0]);
    if !Open(s, t, todo[0]) || skip > 0 {
      DoomPassesBy(s, t, todo, skip, budget);
      ScriptOverruns(s, turn.tick, todo[1..], if Open(s, t, todo[0]) then skip - 1 else skip, budget);
    } else {
      DoomComesNearer(s, t, todo, budget);
      if budget > 0 {
        ScriptOverruns(s, turn.tick, todo[1..], 0, budget - 1);
      } else if !turn.stop {
        PassSpendsSeats(s, turn.tick, todo[1..]);
      }
    }
  }

  /** The next start of every role to come may be its last, and each has a seat of
      its own. */
  predicate AllOnTheirLast(s: Setting, t: Tick, todo: seq<Role>) {
    forall r | r in todo :: Open(s, t, r) && MayRunOut(s.policies(r), t.live.Of(r))
  }

  lemma LastStartGoesOn(s: Setting, t: Tick, todo: seq<Role>)
    requires SettingOk(s) && TickOk(s, t) && Todo(t, todo) && todo != []
    requires AllOnTheirLast(s, t, todo) && InPlay(s, t, todo, 0)
    ensures
      var turn := TryRole(s, t, todo[0]);
      && !turn.stop && turn.tick.started == t.started + 1
      && AllOnTheirLast(s, turn.tick, todo[1..]) && InPlay(s, turn.tick, todo[1..], 0)
  {
    TryRoleKeeps(s, t, todo[0]);
    TurnLeavesTheRest(s, t, todo);
    ScriptIsNext(s, t, todo, 0);
    AgreedTurn(s, t, todo[0]);
    ScriptGoesOn(s, t, TryRole(s, t, todo[0]).tick, todo, 0);
    assert forall r | r in todo[1..] :: r in todo && r != todo[0];
  }

  /** Then all of them start, whatever the project's and the device's seats. */
  lemma {:induction false} LastStartsAreAllMade(s: Setting, t: Tick, todo: seq<Role>)
    requires SettingOk(s) && TickOk(s, t) && Todo(t, todo)
    requires AllOnTheirLast(s, t, todo) && InPlay(s, t, todo, 0)
    ensures Pass(s, t, todo).tick.started == t.started + |todo|
    decreases |todo|
  {
    if todo != [] {
      TurnKeepsDue(s, t, todo);
      LastStartGoesOn(s, t, todo);
      LastStartsAreAllMade(s, TryRole(s, t, todo[0]).tick, todo[1..]);
    }
  }

  ghost predicate Plausible(ask: nat -> LaunchAnswers) {
    forall k: nat :: PlausibleAnswers(ask(k))
  }

  /** One world can give all these answers: the processes they speak of are
      distinct, and the store returns what was saved. */
  ghost predicate Givable(ask: nat -> LaunchAnswers) {
    && (forall k: nat :: PlausibleAnswers(ask(k)) && ask(k).start.readBack && OwnPids(ask(k)))
    && (forall i: nat, j: nat | i < j :: Apart(ask(i), ask(j)))
  }

  /** The answers of a launch whose processes bear its number; its worker has
      either started nothing yet or finished its part. */
  predicate Numbered(ans: LaunchAnswers, n: nat) {
    && PlausibleAnswers(ans) && ans.start.readBack && !WorkerDies(ans) && ans.start.crash in {Never, AtOnce}
    && (ans.start.launch.Launched? ==> ans.start.launch.pid == 2 * n + 2)
  }

  ghost predicate AllNumbered(ask: nat -> LaunchAnswers) {
    forall n: nat :: Numbered(ask(n), n)
  }

  lemma NumberedIsGivable(ask: nat -> LaunchAnswers)
    requires AllNumbered(ask)
    ensures Givable(ask) && Plausible(ask)
  {
    forall i: nat, j: nat | i < j
      ensures Apart(ask(i), ask(j))
    {
      assert Numbered(ask(i), i) && Numbered(ask(j), j);
    }
    assert forall k: nat :: Numbered(ask(k), k) ==> PlausibleAnswers(ask(k));
  }

  /** With these answers, the pass starts no more runs than there were seats. */
  predicate StaysWithin(s: Setting, t: Tick, ask: nat -> LaunchAnswers) {
    Pass(s.(ask := ask), t, t.due).tick.started <= t.started + Seats(s, t)
  }

  lemma PassOverrun(s: Setting, t: Tick) returns (ask: nat -> LaunchAnswers)
    requires SettingOk(s) && TickOk(s, t) && Seats(s, t) > 0
    requires AtRisk(s, t, OpenRoles(s, t, t.due), Seats(s, t))
    ensures AllNumbered(ask) && Givable(ask) && Plausible(ask) && !StaysWithin(s, t, ask)
  {
    var open, budget := OpenRoles(s, t, t.due), Seats(s, t);
    var i :| 0 <= i < |open| - 1 && RiskAt(s, t, open, budget, i);
    var script := Script(t.live, open, i + 1 - budget, t.asked);
    ask := Following(t.asked, script);
    ScriptIsNumbered(t.live, open, i + 1 - budget, t.asked);
    NumberedIsGivable(ask);
    OverrunBy(s, t, ask, i + 1 - budget);
  }

  lemma {:induction false} NoPassOverrun(s: Setting, t: Tick, ask: nat -> LaunchAnswers)
    requires SettingOk(s) && TickOk(s, t) && Seats(s, t) > 0 && Plausible(ask)
    requires !AtRisk(s, t, OpenRoles(s, t, t.due), Seats(s, t))
    ensures StaysWithin(s, t, ask)
  {
    OpenRolesDoNotAsk(s, t, t.due, ask);
    RiskDoesNotAsk(s, t, OpenRoles(s, t, t.due), Seats(s, t), ask);
    NoRiskNoOverrun(s.(ask := ask), t, t.due, Seats(s, t));
  }

  /** Of all that its launches may answer, or of all that one world can give, no
      outcome makes a pass start more runs than the project and the device had
      seats, exactly when no role at risk of using up its intent on the last seat
      comes before another role. */
  lemma {:induction false} PassStaysWithinItsSeatsIff(s: Setting, t: Tick)
    requires SettingOk(s) && TickOk(s, t) && Seats(s, t) > 0
    ensures
      var safe := !AtRisk(s, t, OpenRoles(s, t, t.due), Seats(s, t));
      && ((forall ask | Plausible(ask) :: StaysWithin(s, t, ask)) <==> safe)
      && ((forall ask | Givable(ask) :: StaysWithin(s, t, ask)) <==> safe)
  {
    if AtRisk(s, t, OpenRoles(s, t, t.due), Seats(s, t)) {
      var ask := PassOverrun(s, t);
      assert !StaysWithin(s, t, ask);
    } else {
      forall ask | Plausible(ask) || Givable(ask) {
        NoPassOverrun(s, t, ask);
      }
    }
  }

  function Following(asked: nat, script: seq<LaunchAnswers>): nat -> LaunchAnswers {
    n => if asked <= n < asked + |script| then script[n - asked] else REFUSE
  }

  lemma {:induction false} ScriptIsNumbered(live: PerRole<Intent>, open: seq<Role>, skip: nat, n: nat)
    ensures forall k | 0 <= k < |open| :: Numbered(Script(live, open, skip, n)[k], n + k)
    decreases |open|
  {
    if open != [] {
      var rest := Script(live, open[1..], if skip > 0 then skip - 1 else 0, n + 1);
      ScriptIsNumbered(live, open[1..], if skip > 0 then skip - 1 else 0, n + 1);
      forall k | 1 <= k < |open|
        ensures Numbered(Script(live, open, skip, n)[k], n + k)
      {
        assert Script(live, open, skip, n)[k] == rest[k - 1];
      }
    }
  }

  lemma {:induction false} OpenRolesDoNotAsk(s: Setting, t: Tick, todo: seq<Role>, ask: nat -> LaunchAnswers)
    ensures OpenRoles(s.(ask := ask), t, todo) == OpenRoles(s, t, todo)
  {
    if todo != [] {
      OpenRolesDoNotAsk(s, t, todo[1..], ask);
    }
  }

  lemma RiskDoesNotAsk(s: Setting, t: Tick, open: seq<Role>, budget: int, ask: nat -> LaunchAnswers)
    ensures AtRisk(s.(ask := ask), t, open, budget) ==> AtRisk(s, t, open, budget)
  {
    var s' := s.(ask := ask);
    if i :| 0 <= i < |open| - 1 && RiskAt(s', t, open, budget, i) {
      assert RiskAt(s, t, open, budget, i);
    }
  }

  lemma {:induction false} OverrunBy(s: Setting, t: Tick, ask: nat -> LaunchAnswers, skip: nat)
    requires SettingOk(s) && TickOk(s, t) && Seats(s, t) > 0 && Plausible(ask)
    requires RiskAt(s, t, OpenRoles(s, t, t.due), Seats(s, t), skip + Seats(s, t) - 1)
    requires Follows(s.(ask := ask), t.asked, Script(t.live, OpenRoles(s, t, t.due), skip, t.asked))
    ensures !StaysWithin(s, t, ask)
  {
    var s' := s.(ask := ask);
    OpenRolesDoNotAsk(s, t, t.due, ask);
    ScriptOverruns(s', t, t.due, skip, Seats(s, t));
  }

  /** The turn starts a run, leaves no seat of the project or the device, and the
      pass goes on all the same. */
  predicate GoesOnUnlicensed(s: Setting, t: Tick, role: Role, ask: nat -> LaunchAnswers) {
    var turn := TryRole(s.(ask := ask), t, role);
    turn.progress && !turn.stop && Seats(s, turn.tick) == 0
  }

  /** Some answer of the launch, be it one that a world can give, lets the pass go
      on without a seat, exactly when before it at most one seat was left and the
      start could be the intent's last. */
  lemma MayGoOnUnlicensedIff(s: Setting, t: Tick, role: Role)
    requires SettingOk(s) && TickOk(s, t) && role in t.due && Open(s, t, role)
    ensures
      var short := Seats(s, t) <= 1 && MayRunOut(s.policies(role), t.live.Of(role));
      && ((exists ask | Plausible(ask) :: GoesOnUnlicensed(s, t, role, ask)) <==> short)
      && ((exists ask | Givable(ask) :: GoesOnUnlicensed(s, t, role, ask)) <==> short)
  {
    if Seats(s, t) <= 1 && MayRunOut(s.policies(role), t.live.Of(role)) {
      var agree := (n: nat) => Agree(t.live.Of(role).manual, n);
      NumberedIsGivable(agree);
      AgreedTurn(s.(ask := agree), t, role);
      assert GoesOnUnlicensed(s, t, role, agree);
    }
    if ask :| (Plausible(ask) || Givable(ask)) && GoesOnUnlicensed(s, t, role, ask) {
      var s' := s.(ask := ask);
      TryRoleKeeps(s', t, role);
      OnlyTheShortRunOut(s', t, role);
    }
  }

  // ----- The whole tick -----

  lemma {:induction false} OneStartPerRole(s: Setting, t: Tick, todo: seq<Role>)
    requires SettingOk(s) && TickOk(s, t) && Todo(t, todo)
    ensures Pass(s, t, todo).tick.started <= t.started + |todo|
    decreases |todo|
  {
    if todo != [] {
      TurnKeepsDue(s, t, todo);
      TurnSpendsSeats(s, t, todo[0]);
      if !TryRole(s, t, todo[0]).stop {
        OneStartPerRole(s, TryRole(s, t, todo[0]).tick, todo[1..]);
      }
    }
  }

  lemma DistinctRoles(due: seq<Role>)
    requires NoDuplicates(due)
    ensures |set r | r in due| == |due|
  {
    if due != [] {
      DistinctRoles(due[1..]);
      assert (set r | r in due) == (set r | r in due[1..]) + {due[0]};
      assert due[0] !in due[1..];
    }
  }

  lemma AtMostThreeRoles(due: seq<Role>)
    requires NoDuplicates(due)
    ensures |due| <= 3
  {
    DistinctRoles(due);
    SubsetIsNoLarger(set r | r in due, {Planner, Architect, Developer});
  }

  /** Whatever its intents, a tick starts at most two runs more than that. */
  lemma {:induction false} OverrunIsAtMostTwo(s: Setting, t: Tick)
    requires SettingOk(s) && TickOk(s, t) && Seats(s, t) > 0
    ensures Refill(s, t).started <= t.started + Seats(s, t) + 2
    decreases Seats(s, t)
  {
    if t.due != [] {
      PassKeeps(s, t, t.due);
      PassSpendsSeats(s, t, t.due);
      OneStartPerRole(s, t, t.due);
      AtMostThreeRoles(t.due);
      var u := Pass(s, t, t.due);
      if u.progress && Seats(s, u.tick) > 0 {
        OverrunIsAtMostTwo(s, u.tick);
      }
    }
  }

  /** One project seat, a planner intent with one start left, and a developer
      intent. */
  function OneSeat(): Setting {
    Setting(0, Limits(9, _ => 1, (_, _) => 1), role => Policy(true, if role == Planner then Some(1) else None, 0),
            n => n, (n: nat) => Agree([], n))
  }

  function TwoDue(): Tick {
    Tick(map[], map[], [Planner, Developer],
         PerRole(Intent(0, false, [], 0, None), Intent(1, false, [], 0, None), Intent(2, false, [], 0, None)),
         NO_SEATS, 0, 0, {})
  }

  lemma OneSeatTwoDue()
    ensures SettingOk(OneSeat()) && TickOk(OneSeat(), TwoDue()) && Todo(TwoDue(), TwoDue().due)
    ensures Seats(OneSeat(), TwoDue()) == 1
    ensures forall r :: Open(OneSeat(), TwoDue(), r)
  {
    var s, t := OneSeat(), TwoDue();
    forall scope
      ensures Remaining(t.runs, s.limits, scope) == Limit(s.limits, scope)
    {
      assert Holding(t.runs, scope) == {};
      RemainingIff(t.runs, s.limits, scope);
    }
  }

  /** The tick starts both. */
  lemma OneSeatTwoStarts()
    ensures Seats(OneSeat(), TwoDue()) == 1 && Refill(OneSeat(), TwoDue()).started == 2
  {
    OneSeatTwoDue();
    var s, t := OneSeat(), TwoDue();
    var open := OpenRoles(s, t, t.due);
    assert t.due[1..] == [Developer] && OpenRoles(s, t, [Developer]) == [Developer];
    assert open == [Planner, Developer];
    assert RiskAt(s, t, open, 1, 0);
    var script := Script(t.live, open, 0, 0);
    assert open[1..] == [Developer] && script == [Agree([], 0), Agree([], 1)];
    assert Follows(s, 0, script);
    ScriptOverruns(s, t, t.due, 0, 1);
    OneStartPerRole(s, t, t.due);
    PassSpendsSeats(s, t, t.due);
  }
}
