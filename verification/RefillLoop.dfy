/** The refill loop of a dispatch tick: due roles take seats in turn, one seat a
    pass, while the project and the device have seats left. */
module RefillLoop {
  import opened Prelude
  import opened RunLedger
  import opened Slots
  import opened Dispatch

  datatype Policy = Policy(continuous: bool, executionLimit: Option<nat>, pollSeconds: nat)

  /** What stays fixed during one tick, the ids its runs will get, and the answers
      its starts will meet. */
  datatype Setting = Setting(
    project: ProjectId,
    limits: Limits,
    policies: Role -> Policy,
    ids: nat -> RunId,
    ask: nat -> LaunchAnswers)

  datatype PerRole<T> = PerRole(planner: T, architect: T, developer: T) {
    function Of(role: Role): T {
      match role
      case Planner => planner
      case Architect => architect
      case Developer => developer
    }

    function With(role: Role, value: T): PerRole<T> {
      match role
      case Planner => this.(planner := value)
      case Architect => this.(architect := value)
      case Developer => this.(developer := value)
    }
  }

  datatype Tick = Tick(
    runs: map<RunId, Row>,
    intents: map<(ProjectId, Role), Intent>,
    due: seq<Role>,
    live: PerRole<Intent>,
    seats: PerRole<nat>,
    started: nat,
    asked: nat,
    dropped: set<IntentId>)

  datatype Turn = Turn(tick: Tick, stop: bool, progress: bool)

  const NO_SEATS: PerRole<nat> := PerRole(0, 0, 0)

  function RemoveRole(due: seq<Role>, role: Role): seq<Role> {
    if due == [] then []
    else if due[0] == role then due[1..]
    else [due[0]] + RemoveRole(due[1..], role)
  }

  function OtherTargets(manual: seq<Target>, taken: Target): seq<Target> {
    if manual == [] then []
    else if manual[0] == taken then OtherTargets(manual[1..], taken)
    else [manual[0]] + OtherTargets(manual[1..], taken)
  }

  predicate AtLimit(policy: Policy, intent: Intent) {
    policy.executionLimit.Some? && intent.startedCount >= policy.executionLimit.value
  }

  /** Nothing is left to start: the limit is reached, or every manual target is taken. */
  predicate Exhausted(policy: Policy, intent: Intent) {
    (intent.manualMode && intent.manual == []) || AtLimit(policy, intent)
  }

  function RoleSeats(s: Setting, t: Tick, role: Role): nat {
    Remaining(t.runs, s.limits, InRole(s.project, role))
  }

  function Seats(s: Setting, t: Tick): nat {
    SeatsLeft(t.runs, s.limits, s.project)
  }

  function WithoutIntent(intents: map<(ProjectId, Role), Intent>, id: IntentId): map<(ProjectId, Role), Intent> {
    map key | key in intents && intents[key].id != id :: intents[key]
  }

  function DropIntent(t: Tick, id: IntentId): Tick {
    t.(intents := WithoutIntent(t.intents, id), dropped := t.dropped + {id})
  }

  function Undue(t: Tick, role: Role): Tick {
    t.(due := RemoveRole(t.due, role))
  }

  function CountStart(intent: Intent, row: Row): Intent {
    intent.(
      startedCount := intent.startedCount + 1,
      manual := if row.lease.Some? then OtherTargets(intent.manual, row.lease.value.target) else intent.manual)
  }

  /** A turn that ends before anything is launched: the role is full, or its
      intent has reached its limit. */
  function Unlaunched(s: Setting, t: Tick, role: Role): Option<Turn> {
    if RoleSeats(s, t, role) == 0 then Some(Turn(Undue(t, role), false, false))
    else if AtLimit(s.policies(role), t.live.Of(role)) then
      Some(Turn(Undue(DropIntent(t, t.live.Of(role).id), role), true, false))
    else None
  }

  /** One role's turn within a pass. */
  function TryRole(s: Setting, t: Tick, role: Role): Turn
  {
    match Unlaunched(s, t, role)
    case Some(turn) => turn
    case None => Answered(s, t, role, LaunchOutcome(s.project, role, t.live.Of(role).manual, s.ask(t.asked)))
  }

  /** The turn once its launch has been answered. */
  function Answered(s: Setting, t: Tick, role: Role, outcome: Outcome): Turn
  {
    var after := t.(runs := RunsWith(t.runs, s.ids(t.asked), outcome), asked := t.asked + 1);
    Accounted(s, after, role, outcome.row)
  }

  function Accounted(s: Setting, after: Tick, role: Role, row: Row): Turn
  {
    if CountsAsStarted(row) then TakeSeat(s, after, role, row)
    else Turn(GiveUp(s, after, role, row), false, false)
  }

  function GiveUp(s: Setting, t: Tick, role: Role, row: Row): Tick
  {
    var saved := t.(intents := t.intents[(s.project, role) := t.live.Of(role)]);
    Undue(
      if row.stage == Some(RequestValidation) && row.state != Idle then DropIntent(saved, t.live.Of(role).id)
      else saved,
      role)
  }

  function TakeSeat(s: Setting, t: Tick, role: Role, row: Row): Turn
  {
    var next := CountStart(t.live.Of(role), row);
    var counted := t.(
      live := t.live.With(role, next),
      seats := t.seats.With(role, t.seats.Of(role) + 1),
      started := t.started + 1);
    if Exhausted(s.policies(role), next) then Turn(Undue(DropIntent(counted, next.id), role), false, true)
    else
      var saved := counted.(intents := counted.intents[(s.project, role) := next]);
      Turn(if RoleSeats(s, saved, role) == 0 then Undue(saved, role) else saved, Seats(s, saved) == 0, true)
  }

  /** One pass over the roles that were due when it began. */
  function Pass(s: Setting, t: Tick, todo: seq<Role>): Turn
    decreases |todo|
  {
    if todo == [] then Turn(t, false, false)
    else
      var turn := TryRole(s, t, todo[0]);
      if turn.stop then turn
      else
        var rest := Pass(s, turn.tick, todo[1..]);
        rest.(progress := turn.progress || rest.progress)
  }

  // ----- What a tick keeps -----

  predicate NoDuplicates(due: seq<Role>) {
    forall i, j | 0 <= i < j < |due| :: due[i] != due[j]
  }

  ghost predicate SettingOk(s: Setting) {
    && (forall i: nat, j: nat | i < j :: s.ids(i) != s.ids(j))
    && (forall k: nat :: PlausibleAnswers(s.ask(k)))
  }

  ghost predicate TickOk(s: Setting, t: Tick) {
    && NoDuplicates(t.due)
    && (forall k: nat | k >= t.asked :: s.ids(k) !in t.runs)
    && (forall r | r in t.due :: !Exhausted(s.policies(r), t.live.Of(r)) && t.live.Of(r).id !in t.dropped)
    && (forall a, b | a in t.due && b in t.due && a != b :: t.live.Of(a).id != t.live.Of(b).id)
    && (forall key | key in t.intents :: t.intents[key].id !in t.dropped)
  }

  lemma {:induction false} RemoveRoleRemoves(due: seq<Role>, role: Role)
    requires NoDuplicates(due)
    ensures NoDuplicates(RemoveRole(due, role))
    ensures forall r :: r in RemoveRole(due, role) <==> r in due && r != role
  {
    if due != [] {
      RemoveRoleRemoves(due[1..], role);
      assert due == [due[0]] + due[1..];
      assert due[0] !in due[1..];
    }
  }

  /** How the seats move in one answered launch. */
  predicate SeatsMove(s: Setting, t: Tick, role: Role, turn: Turn) {
    CountsMove(s, t, role, turn) && DueMoves(s, t, role, turn)
  }

  predicate CountsMove(s: Setting, t: Tick, role: Role, turn: Turn) {
    var t' := turn.tick;
    && (turn.progress ==>
          && t'.started == t.started + 1 && t'.seats == t.seats.With(role, t.seats.Of(role) + 1)
          && t'.live.Of(role).startedCount == t.live.Of(role).startedCount + 1
          && t'.live.Of(role).manualMode == t.live.Of(role).manualMode
          && RoleSeats(s, t', role) == RoleSeats(s, t, role) - 1
          && Seats(s, t') == Max0(Seats(s, t) - 1))
    && (!turn.progress ==>
          && t'.started == t.started && t'.seats == t.seats && t'.live == t.live
          && RoleSeats(s, t', role) <= RoleSeats(s, t, role)
          && Seats(s, t') <= Seats(s, t))
    && (forall r | r != role :: RoleSeats(s, t', r) == RoleSeats(s, t, r) && t'.live.Of(r) == t.live.Of(r))
  }

  predicate DueMoves(s: Setting, t: Tick, role: Role, turn: Turn) {
    var t' := turn.tick;
    && (!turn.progress ==> role !in t'.due)
    && (forall r | r != role :: r in t'.due <==> r in t.due)
    && (role in t'.due ==> RoleSeats(s, t', role) > 0)
    && (turn.stop ==> turn.progress && Seats(s, t') == 0 && !Exhausted(s.policies(role), t'.live.Of(role)))
    && (turn.progress && !turn.stop ==> Seats(s, t') > 0 || Exhausted(s.policies(role), t'.live.Of(role)))
  }

  lemma RunsWithKeepsCounts(s: Setting, t: Tick, role: Role, outcome: Outcome)
    requires s.ids(t.asked) !in t.runs && OutcomeOk(outcome, s.project, role)
    ensures
      var runs := RunsWith(t.runs, s.ids(t.asked), outcome);
      && (CountsAsStarted(outcome.row) ==>
            && Remaining(runs, s.limits, InRole(s.project, role)) == Max0(RoleSeats(s, t, role) - 1)
            && SeatsLeft(runs, s.limits, s.project) == Max0(Seats(s, t) - 1))
      && Remaining(runs, s.limits, InRole(s.project, role)) <= RoleSeats(s, t, role)
      && SeatsLeft(runs, s.limits, s.project) <= Seats(s, t)
      && (forall r | r != role :: Remaining(runs, s.limits, InRole(s.project, r)) == RoleSeats(s, t, r))
  {
    var id, row := s.ids(t.asked), outcome.row;
    var runs := RunsWith(t.runs, id, outcome);
    forall scope
      ensures outcome.kept ==>
        Remaining(runs, s.limits, scope)
          == Max0(Remaining(t.runs, s.limits, scope) - (if InScope(row, scope) && HoldsSlot(row) then 1 else 0))
    {
      RemainingIff(t.runs, s.limits, scope);
      RemainingIff(runs, s.limits, scope);
      SavingOneRow(t.runs, id, row, scope);
    }
    var project, device := InProject(s.project), Scope.Device;
    assert outcome.kept ==> Remaining(runs, s.limits, project) <= Remaining(t.runs, s.limits, project);
    assert outcome.kept ==> Remaining(runs, s.limits, device) <= Remaining(t.runs, s.limits, device);
  }

  /** Taking a seat in a ledger `runs` that holds the new run. */
  predicate SeatTaken(s: Setting, t: Tick, role: Role, row: Row, runs: map<RunId, Row>, turn: Turn) {
    && turn.tick.runs == runs && turn.progress && turn.tick.started == t.started + 1
    && turn.tick.seats == t.seats.With(role, t.seats.Of(role) + 1)
    && turn.tick.live == t.live.With(role, CountStart(t.live.Of(role), row))
  }

  lemma SeatMovesCounts(s: Setting, t: Tick, role: Role, row: Row, runs: map<RunId, Row>, turn: Turn)
    requires SeatTaken(s, t, role, row, runs, turn) && RoleSeats(s, t, role) > 0
    requires Remaining(runs, s.limits, InRole(s.project, role)) == Max0(RoleSeats(s, t, role) - 1)
    requires SeatsLeft(runs, s.limits, s.project) == Max0(Seats(s, t) - 1)
    requires forall r | r != role :: Remaining(runs, s.limits, InRole(s.project, r)) == RoleSeats(s, t, r)
    ensures CountsMove(s, t, role, turn)
  {
  }

  lemma StartMovesCounts(s: Setting, t: Tick, role: Role, outcome: Outcome)
    requires TickOk(s, t) && role in t.due && RoleSeats(s, t, role) > 0
    requires OutcomeOk(outcome, s.project, role) && CountsAsStarted(outcome.row)
    ensures CountsMove(s, t, role, Answered(s, t, role, outcome))
  {
    RunsWithKeepsCounts(s, t, role, outcome);
    var runs := RunsWith(t.runs, s.ids(t.asked), outcome);
    TakingASeat(s, t.(runs := runs, asked := t.asked + 1), role, outcome.row);
    SeatMovesCounts(s, t, role, outcome.row, runs, Answered(s, t, role, outcome));
  }

  lemma StartMovesDue(s: Setting, t: Tick, role: Role, outcome: Outcome)
    requires TickOk(s, t) && role in t.due && CountsAsStarted(outcome.row)
    ensures DueMoves(s, t, role, Answered(s, t, role, outcome))
  {
    var after := t.(runs := RunsWith(t.runs, s.ids(t.asked), outcome), asked := t.asked + 1);
    TakingASeat(s, after, role, outcome.row);
  }

  lemma FailureMovesSeats(s: Setting, t: Tick, role: Role, outcome: Outcome)
    requires TickOk(s, t) && role in t.due
    requires OutcomeOk(outcome, s.project, role) && !CountsAsStarted(outcome.row)
    ensures SeatsMove(s, t, role, Answered(s, t, role, outcome))
  {
    RunsWithKeepsCounts(s, t, role, outcome);
    RemoveRoleRemoves(t.due, role);
  }

  lemma AnsweredMovesSeats(s: Setting, t: Tick, role: Role, outcome: Outcome)
    requires TickOk(s, t) && role in t.due && RoleSeats(s, t, role) > 0
    requires OutcomeOk(outcome, s.project, role)
    ensures SeatsMove(s, t, role, Answered(s, t, role, outcome))
  {
    if CountsAsStarted(outcome.row) {
      StartMovesCounts(s, t, role, outcome);
      StartMovesDue(s, t, role, outcome);
    } else {
      FailureMovesSeats(s, t, role, outcome);
    }
  }

  lemma TakingASeat(s: Setting, t: Tick, role: Role, row: Row)
    requires NoDuplicates(t.due) && role in t.due
    ensures
      var turn := TakeSeat(s, t, role, row);
      var t' := turn.tick;
      && t'.runs == t.runs && t'.started == t.started + 1 && turn.progress
      && t'.seats == t.seats.With(role, t.seats.Of(role) + 1)
      && t'.live == t.live.With(role, CountStart(t.live.Of(role), row))
      && (forall r | r != role :: r in t'.due <==> r in t.due)
      && (role in t'.due ==> RoleSeats(s, t', role) > 0)
      && (turn.stop <==> Seats(s, t') == 0 && !Exhausted(s.policies(role), t'.live.Of(role)))
  {
    RemoveRoleRemoves(t.due, role);
  }

  lemma DroppingKeepsTick(s: Setting, t: Tick, role: Role)
    requires TickOk(s, t) && role !in t.due
    requires forall r | r in t.due :: t.live.Of(r).id != t.live.Of(role).id
    ensures TickOk(s, DropIntent(t, t.live.Of(role).id))
  {
  }

  lemma SavingKeepsTick(s: Setting, t: Tick, role: Role, intent: Intent)
    requires TickOk(s, t) && intent.id !in t.dropped
    ensures TickOk(s, t.(intents := t.intents[(s.project, role) := intent]))
  {
  }

  lemma LaunchKeepsTick(s: Setting, t: Tick, outcome: Outcome)
    requires SettingOk(s) && TickOk(s, t)
    ensures TickOk(s, t.(runs := RunsWith(t.runs, s.ids(t.asked), outcome), asked := t.asked + 1))
  {
    forall k: nat | k >= t.asked + 1
      ensures s.ids(k) !in RunsWith(t.runs, s.ids(t.asked), outcome)
    {
      assert s.ids(t.asked) != s.ids(k);
    }
  }

  lemma UndueKeepsTick(s: Setting, t: Tick, role: Role)
    requires TickOk(s, t)
    ensures TickOk(s, Undue(t, role))
    ensures forall r :: r in Undue(t, role).due <==> r in t.due && r != role
  {
    RemoveRoleRemoves(t.due, role);
  }

  lemma AnsweredKeepsTick(s: Setting, t: Tick, role: Role, outcome: Outcome)
    requires SettingOk(s) && TickOk(s, t) && role in t.due && OutcomeOk(outcome, s.project, role)
    ensures TickOk(s, Answered(s, t, role, outcome).tick)
  {
    LaunchKeepsTick(s, t, outcome);
    var after := t.(runs := RunsWith(t.runs, s.ids(t.asked), outcome), asked := t.asked + 1);
    if CountsAsStarted(outcome.row) {
      TakeSeatKeepsTick(s, after, role, outcome.row);
    } else {
      SavingKeepsTick(s, after, role, t.live.Of(role));
      var saved := after.(intents := after.intents[(s.project, role) := after.live.Of(role)]);
      UndueKeepsTick(s, saved, role);
      DroppingKeepsTick(s, Undue(saved, role), role);
    }
  }

  lemma CountingKeepsTick(s: Setting, t: Tick, role: Role, next: Intent)
    requires TickOk(s, t) && role in t.due && next.id == t.live.Of(role).id
    ensures
      var counted := t.(
        live := t.live.With(role, next), seats := t.seats.With(role, t.seats.Of(role) + 1), started := t.started + 1);
      && (!Exhausted(s.policies(role), next) ==> TickOk(s, counted))
      && (TickOk(s, Undue(t, role)) ==> TickOk(s, Undue(counted, role)))
  {
    RemoveRoleRemoves(t.due, role);
  }

  lemma TakeSeatKeepsTick(s: Setting, t: Tick, role: Role, row: Row)
    requires TickOk(s, t) && role in t.due
    ensures TickOk(s, TakeSeat(s, t, role, row).tick)
  {
    var next := CountStart(t.live.Of(role), row);
    var counted := t.(
      live := t.live.With(role, next), seats := t.seats.With(role, t.seats.Of(role) + 1), started := t.started + 1);
    CountingKeepsTick(s, t, role, next);
    UndueKeepsTick(s, t, role);
    if Exhausted(s.policies(role), next) {
      DroppingKeepsTick(s, Undue(counted, role), role);
    } else {
      SavingKeepsTick(s, counted, role, next);
      UndueKeepsTick(s, counted.(intents := counted.intents[(s.project, role) := next]), role);
    }
  }

  lemma TryRoleKeeps(s: Setting, t: Tick, role: Role)
    requires SettingOk(s) && TickOk(s, t) && role in t.due
    ensures TickOk(s, TryRole(s, t, role).tick)
    ensures SeatsMove(s, t, role, TryRole(s, t, role))
  {
    if RoleSeats(s, t, role) == 0 {
      UndueKeepsTick(s, t, role);
    } else {
      assert PlausibleAnswers(s.ask(t.asked));
      LaunchOutcomeOk(s.project, role, t.live.Of(role).manual, s.ask(t.asked));
      var outcome := LaunchOutcome(s.project, role, t.live.Of(role).manual, s.ask(t.asked));
      AnsweredKeepsTick(s, t, role, outcome);
      AnsweredMovesSeats(s, t, role, outcome);
    }
  }

  /** The roles of `todo` are due, each once. */
  predicate Todo(t: Tick, todo: seq<Role>) {
    NoDuplicates(todo) && forall r | r in todo :: r in t.due
  }

  lemma RestIsTodo(s: Setting, t: Tick, todo: seq<Role>)
    requires todo != [] && Todo(t, todo) && SeatsMove(s, t, todo[0], TryRole(s, t, todo[0]))
    ensures Todo(TryRole(s, t, todo[0]).tick, todo[1..])
  {
    assert forall r | r in todo[1..] :: r in todo && r != todo[0];
  }

  /** The effect of one turn on the due list. */
  lemma TurnKeepsDue(s: Setting, t: Tick, todo: seq<Role>)
    requires SettingOk(s) && TickOk(s, t) && Todo(t, todo) && todo != []
    ensures
      var turn := TryRole(s, t, todo[0]);
      && TickOk(s, turn.tick)
      && Todo(turn.tick, todo[1..])
      && (turn.stop ==> turn.progress && Seats(s, turn.tick) == 0)
      && (!turn.progress ==> todo[0] !in turn.tick.due)
      && (forall r | r != todo[0] :: r in turn.tick.due <==> r in t.due)
  {
    TryRoleKeeps(s, t, todo[0]);
    RestIsTodo(s, t, todo);
  }

  lemma {:induction false} PassKeeps(s: Setting, t: Tick, todo: seq<Role>)
    requires SettingOk(s) && TickOk(s, t) && Todo(t, todo)
    ensures
      var u := Pass(s, t, todo);
      && TickOk(s, u.tick)
      && (u.stop ==> u.progress && Seats(s, u.tick) == 0)
      && (!u.progress ==> forall r | r in todo :: r !in u.tick.due)
      && (forall r | r !in todo :: r in u.tick.due <==> r in t.due)
    decreases |todo|
  {
    if todo != [] {
      TurnKeepsDue(s, t, todo);
      var turn := TryRole(s, t, todo[0]);
      assert forall r :: r in todo <==> r == todo[0] || r in todo[1..];
      assert todo[0] !in todo[1..];
      if !turn.stop {
        PassKeeps(s, turn.tick, todo[1..]);
      }
    }
  }

  /** From `a` to `b`, every start has cost a seat, while there were any. */
  predicate Spent(s: Setting, a: Tick, b: Tick) {
    b.started >= a.started && Seats(s, b) <= Max0(Seats(s, a) - (b.started - a.started))
  }

  lemma SpentTwice(s: Setting, a: Tick, b: Tick, c: Tick)
    requires Spent(s, a, b) && Spent(s, b, c)
    ensures Spent(s, a, c)
  {
  }

  lemma TurnSpendsSeats(s: Setting, t: Tick, role: Role)
    requires SettingOk(s) && TickOk(s, t) && role in t.due
    ensures
      var turn := TryRole(s, t, role);
      Spent(s, t, turn.tick) && turn.tick.started == t.started + (if turn.progress then 1 else 0)
  {
    TryRoleKeeps(s, t, role);
  }

  lemma {:induction false} PassSpendsSeats(s: Setting, t: Tick, todo: seq<Role>)
    requires SettingOk(s) && TickOk(s, t) && Todo(t, todo)
    ensures
      var u := Pass(s, t, todo);
      Spent(s, t, u.tick) && (u.progress <==> u.tick.started > t.started)
    decreases |todo|
  {
    if todo != [] {
      TurnKeepsDue(s, t, todo);
      TurnSpendsSeats(s, t, todo[0]);
      var turn := TryRole(s, t, todo[0]);
      if !turn.stop {
        PassSpendsSeats(s, turn.tick, todo[1..]);
        SpentTwice(s, t, turn.tick, Pass(s, turn.tick, todo[1..]).tick);
      }
    }
  }

  /** The refill loop: passes over the due roles until none is left, no seat is
      left, or a pass started nothing. */
  ghost function Refill(s: Setting, t: Tick): Tick
    requires SettingOk(s) && TickOk(s, t)
    decreases Seats(s, t)
  {
    if t.due == [] || Seats(s, t) == 0 then t
    else
      PassKeeps(s, t, t.due);
      PassSpendsSeats(s, t, t.due);
      var u := Pass(s, t, t.due);
      if u.progress then Refill(s, u.tick) else u.tick
  }

  /** A tick stops refilling only when every seat is taken or every due role has
      dropped out. */
  lemma {:induction false} RefillGoesAllTheWay(s: Setting, t: Tick)
    requires SettingOk(s) && TickOk(s, t)
    ensures TickOk(s, Refill(s, t))
    ensures Refill(s, t).due == [] || Seats(s, Refill(s, t)) == 0
    decreases Seats(s, t)
  {
    if t.due != [] && Seats(s, t) > 0 {
      PassKeeps(s, t, t.due);
      PassSpendsSeats(s, t, t.due);
      var u := Pass(s, t, t.due);
      assert forall r | r in t.due :: u.progress || r !in u.tick.due;
      assert u.progress || forall r :: r !in u.tick.due;
      assert u.tick.due != [] ==> u.tick.due[0] in u.tick.due;
      if u.progress {
        RefillGoesAllTheWay(s, u.tick);
      }
    }
  }

  // ----- Fairness -----

  predicate Level(t: Tick, roles: seq<Role>, k: nat) {
    forall r | r in roles :: t.seats.Of(r) == k
  }

  /** What one turn does to a role's seats. */
  lemma TurnGivesOneSeat(s: Setting, t: Tick, role: Role)
    requires SettingOk(s) && TickOk(s, t) && role in t.due
    ensures
      var turn := TryRole(s, t, role);
      && (forall r | r != role :: turn.tick.seats.Of(r) == t.seats.Of(r) && (r in turn.tick.due <==> r in t.due))
      && (role in turn.tick.due ==> turn.tick.seats.Of(role) == t.seats.Of(role) + 1)
  {
    TryRoleKeeps(s, t, role);
  }

  /** A full pass gives each role that stays due exactly one seat; a pass cut
      short gives it at most one. */
  lemma {:induction false} PassIsEven(s: Setting, t: Tick, todo: seq<Role>, role: Role)
    requires SettingOk(s) && TickOk(s, t) && Todo(t, todo)
    ensures
      var u := Pass(s, t, todo);
      && (role in todo && role in u.tick.due ==>
            u.tick.seats.Of(role) == t.seats.Of(role) + 1 || (u.stop && u.tick.seats.Of(role) == t.seats.Of(role)))
      && (role !in todo ==> u.tick.seats.Of(role) == t.seats.Of(role))
    decreases |todo|
  {
    if todo != [] {
      var turn := TryRole(s, t, todo[0]);
      TryRoleKeeps(s, t, todo[0]);
      TurnGivesOneSeat(s, t, todo[0]);
      assert role in todo <==> role == todo[0] || role in todo[1..];
      if !turn.stop {
        RestIsTodo(s, t, todo);
        assert todo[0] !in todo[1..];
        PassIsEven(s, turn.tick, todo[1..], role);
        PassKeeps(s, turn.tick, todo[1..]);
      }
    }
  }

  predicate EvenAt(t: Tick, level: nat) {
    forall r | r in t.due :: t.seats.Of(r) == level || t.seats.Of(r) == level + 1
  }

  lemma RefillIsEven(s: Setting, t: Tick, k: nat) returns (level: nat)
    requires SettingOk(s) && TickOk(s, t) && Level(t, t.due, k)
    ensures EvenAt(Refill(s, t), level)
    decreases Seats(s, t)
  {
    level := k;
    if t.due != [] && Seats(s, t) > 0 {
      PassKeeps(s, t, t.due);
      PassSpendsSeats(s, t, t.due);
      var u := Pass(s, t, t.due);
      forall r | r in u.tick.due
        ensures u.tick.seats.Of(r) == k + 1 || (u.stop && u.tick.seats.Of(r) == k)
      {
        PassIsEven(s, t, t.due, r);
        assert r in t.due;
      }
      if u.progress && !u.stop {
        level := RefillIsEven(s, u.tick, k + 1);
      }
    }
  }

  /** Two roles still due when the tick ends won the same number of seats, or one
      of them one more. */
  lemma {:induction false} RefillIsFair(s: Setting, t: Tick, a: Role, b: Role)
    requires SettingOk(s) && TickOk(s, t) && t.seats == NO_SEATS
    requires a in Refill(s, t).due && b in Refill(s, t).due
    ensures Refill(s, t).seats.Of(a) <= Refill(s, t).seats.Of(b) + 1
  {
    var level := RefillIsEven(s, t, 0);
    assert EvenAt(Refill(s, t), level);
  }

  // ----- Limits of one role -----

  /** A role's count of starts moves with its seats and stays within its limit. */
  predicate CountsInStep(s: Setting, t: Tick, t': Tick, role: Role) {
    && t'.live.Of(role).manualMode == t.live.Of(role).manualMode
    && t'.seats.Of(role) >= t.seats.Of(role)
    && t'.live.Of(role).startedCount - t.live.Of(role).startedCount == t'.seats.Of(role) - t.seats.Of(role)
    && t'.seats.Of(role) + RoleSeats(s, t', role) <= t.seats.Of(role) + RoleSeats(s, t, role)
    && (t'.seats.Of(role) > t.seats.Of(role) && s.policies(role).executionLimit.Some? ==>
          t'.live.Of(role).startedCount <= s.policies(role).executionLimit.value)
  }

  lemma InStepTwice(s: Setting, a: Tick, b: Tick, c: Tick, role: Role)
    requires CountsInStep(s, a, b, role) && CountsInStep(s, b, c, role)
    ensures CountsInStep(s, a, c, role)
  {
  }

  lemma TurnKeepsCounts(s: Setting, t: Tick, taking: Role, turn: Turn, role: Role)
    requires TickOk(s, t) && taking in t.due && SeatsMove(s, t, taking, turn)
    ensures CountsInStep(s, t, turn.tick, role)
  {
    assert !Exhausted(s.policies(taking), t.live.Of(taking));
  }

  lemma {:induction false} PassCounts(s: Setting, t: Tick, todo: seq<Role>, role: Role)
    requires SettingOk(s) && TickOk(s, t) && Todo(t, todo)
    ensures CountsInStep(s, t, Pass(s, t, todo).tick, role)
    decreases |todo|
  {
    if todo != [] {
      TurnKeepsDue(s, t, todo);
      var turn := TryRole(s, t, todo[0]);
      TryRoleKeeps(s, t, todo[0]);
      TurnKeepsCounts(s, t, todo[0], turn, role);
      if !turn.stop {
        PassCounts(s, turn.tick, todo[1..], role);
        InStepTwice(s, t, turn.tick, Pass(s, turn.tick, todo[1..]).tick, role);
      }
    }
  }

  /** No role gets more seats than it had left, and no intent is started past its
      execution limit. */
  lemma {:induction false} RefillRespectsRoleLimits(s: Setting, t: Tick, role: Role)
    requires SettingOk(s) && TickOk(s, t)
    ensures CountsInStep(s, t, Refill(s, t), role)
    decreases Seats(s, t)
  {
    if t.due != [] && Seats(s, t) > 0 {
      PassKeeps(s, t, t.due);
      PassSpendsSeats(s, t, t.due);
      PassCounts(s, t, t.due, role);
      var u := Pass(s, t, t.due);
      if u.progress {
        RefillRespectsRoleLimits(s, u.tick, role);
        InStepTwice(s, t, u.tick, Refill(s, u.tick), role);
      }
    }
  }
}
