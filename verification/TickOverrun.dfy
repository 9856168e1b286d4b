/** A whole tick against the seats it first saw: with the risk, some answers of its
    launches make it start more; without it, none do. */
module TickOverrun {
  import opened Prelude
  import opened RunLedger
  import opened Slots
  import opened Dispatch
  import opened RefillLoop
  import opened Overrun
  import opened TickRisk

  // ----- Only the answers it asks for matter -----

  lemma AnswerReadsNoMore(s: Setting, ask: nat -> LaunchAnswers, t: Tick, role: Role, outcome: Outcome)
    ensures Answered(s.(ask := ask), t, role, outcome) == Answered(s, t, role, outcome)
    ensures Answered(s, t, role, outcome).tick.asked == t.asked + 1
  {
  }

  lemma TurnReadsOneAnswer(s: Setting, ask: nat -> LaunchAnswers, t: Tick, role: Role)
    requires TryRole(s, t, role).tick.asked > t.asked ==> ask(t.asked) == s.ask(t.asked)
    ensures TryRole(s.(ask := ask), t, role) == TryRole(s, t, role)
    ensures t.asked <= TryRole(s, t, role).tick.asked <= t.asked + 1
  {
    AnswerReadsNoMore(s, ask, t, role, LaunchOutcome(s.project, role, t.live.Of(role).manual, s.ask(t.asked)));
  }

  lemma {:induction false} PassAsksOnward(s: Setting, t: Tick, todo: seq<Role>)
    ensures Pass(s, t, todo).tick.asked >= t.asked
    decreases |todo|
  {
    if todo != [] {
      TurnReadsOneAnswer(s, s.ask, t, todo[0]);
      PassAsksOnward(s, TryRole(s, t, todo[0]).tick, todo[1..]);
    }
  }

  lemma {:induction false} PassReadsItsAnswers(s: Setting, ask: nat -> LaunchAnswers, t: Tick, todo: seq<Role>)
    requires forall n: nat | t.asked <= n < Pass(s, t, todo).tick.asked :: ask(n) == s.ask(n)
    ensures Pass(s.(ask := ask), t, todo) == Pass(s, t, todo)
    decreases |todo|
  {
    if todo != [] {
      var turn := TryRole(s, t, todo[0]);
      PassAsksOnward(s, turn.tick, todo[1..]);
      TurnReadsOneAnswer(s, s.ask, t, todo[0]);
      TurnReadsOneAnswer(s, ask, t, todo[0]);
      if !turn.stop {
        PassReadsItsAnswers(s, ask, turn.tick, todo[1..]);
      }
    }
  }

  lemma {:induction false} RefillReadsOnward(s: Setting, ask: nat -> LaunchAnswers, t: Tick)
    requires SettingOk(s) && SettingOk(s.(ask := ask)) && TickOk(s, t)
    requires forall n: nat | n >= t.asked :: ask(n) == s.ask(n)
    ensures Refill(s.(ask := ask), t) == Refill(s, t)
    decreases Seats(s, t)
  {
    if t.due != [] && Seats(s, t) > 0 {
      PassKeeps(s, t, t.due);
      PassSpendsSeats(s, t, t.due);
      PassAsksOnward(s, t, t.due);
      PassReadsItsAnswers(s, ask, t, t.due);
      var u := Pass(s, t, t.due);
      if u.progress {
        RefillReadsOnward(s, ask, u.tick);
      }
    }
  }

  lemma {:induction false} RefillOnlyAdds(s: Setting, t: Tick)
    requires SettingOk(s) && TickOk(s, t)
    ensures Refill(s, t).started >= t.started
    decreases Seats(s, t)
  {
    if t.due != [] && Seats(s, t) > 0 {
      PassKeeps(s, t, t.due);
      PassSpendsSeats(s, t, t.due);
      var u := Pass(s, t, t.due);
      if u.progress {
        RefillOnlyAdds(s, u.tick);
      }
    }
  }

  // ----- Choosing how a launch goes -----

  /** Refused; started without a target known yet; or started on the first target. */
  datatype Kind = Refusing | Quiet | Taking

  /** The worker of the `n`th launch has started nothing yet when the launcher
      stops waiting. */
  function Quietly(n: nat): LaunchAnswers {
    REFUSE.(
      preflight := Proceed,
      worker := Some(Supervisor(2 * n + 1, None)),
      start := StartAnswers(Proceed, Unavailable(true), true, NotLaunched, 0, AtOnce))
  }

  function AnswerOf(kind: Kind, manual: seq<Target>, n: nat): LaunchAnswers {
    match kind
    case Refusing => REFUSE
    case Quiet => Quietly(n)
    case Taking => Agree(manual, n)
  }

  lemma OutcomeOf(project: ProjectId, role: Role, manual: seq<Target>, kind: Kind, n: nat)
    ensures
      var outcome := LaunchOutcome(project, role, manual, AnswerOf(kind, manual, n));
      var row := outcome.row;
      && OutcomeOk(outcome, project, role) && Numbered(AnswerOf(kind, manual, n), n)
      && (CountsAsStarted(row) <==> !kind.Refusing?)
      && (kind.Refusing? ==> !outcome.kept)
      && (kind.Quiet? ==> row.lease.None?)
      && (kind.Taking? ==> row.lease.Some? && (manual != [] ==> row.lease.value.target == manual[0]))
  {
  }

  /** The intent after such a start. */
  function Next(kind: Kind, intent: Intent): Intent {
    intent.(
      startedCount := intent.startedCount + 1,
      manual := if kind.Taking? && intent.manual != [] then OtherTargets(intent.manual, intent.manual[0])
                else intent.manual)
  }

  /** What a turn of that kind leaves of its role. */
  predicate RoleAfter(s: Setting, t: Tick, t': Tick, role: Role, kind: Kind) {
    if !Open(s, t, role) || kind.Refusing? then
      role !in t'.due
    else
      var next := Next(kind, t.live.Of(role));
      && t'.live.Of(role) == next && RoleSeats(s, t', role) == RoleSeats(s, t, role) - 1
      && (role in t'.due <==> !Exhausted(s.policies(role), next) && RoleSeats(s, t, role) > 1)
  }

  predicate Untouched(s: Setting, t: Tick, t': Tick, role: Role) {
    && t'.live.Of(role) == t.live.Of(role) && RoleSeats(s, t', role) == RoleSeats(s, t, role)
    && (role in t'.due <==> role in t.due)
  }

  predicate OthersUntouched(s: Setting, t: Tick, t': Tick, role: Role) {
    forall r | r != role :: Untouched(s, t, t', r)
  }

  function Cost(s: Setting, t: Tick, role: Role, kind: Kind): nat {
    if Open(s, t, role) && !kind.Refusing? then 1 else 0
  }

  /** The turn's own count of asks, starts and seats, and that it goes on. */
  predicate Costs(s: Setting, t: Tick, turn: Turn, asks: nat, starts: nat) {
    && !turn.stop && turn.tick.asked == t.asked + asks && turn.tick.started == t.started + starts
    && Seats(s, t) >= starts && Seats(s, turn.tick) == Seats(s, t) - starts
  }

  lemma CountStartIsNext(s: Setting, t: Tick, role: Role, kind: Kind)
    requires !kind.Refusing? && s.ask(t.asked) == AnswerOf(kind, t.live.Of(role).manual, t.asked)
    ensures
      var intent := t.live.Of(role);
      CountStart(intent, LaunchOutcome(s.project, role, intent.manual, s.ask(t.asked)).row) == Next(kind, intent)
  {
    OutcomeOf(s.project, role, t.live.Of(role).manual, kind, t.asked);
  }

  lemma SeatTaken(s: Setting, t: Tick, role: Role, row: Row)
    requires NoDuplicates(t.due) && role in t.due
    ensures
      var turn := TakeSeat(s, t, role, row);
      role in turn.tick.due <==>
        !Exhausted(s.policies(role), CountStart(t.live.Of(role), row)) && RoleSeats(s, t, role) > 0
  {
    RemoveRoleRemoves(t.due, role);
  }

  lemma StartingTurn(s: Setting, t: Tick, role: Role, kind: Kind)
    requires SettingOk(s) && TickOk(s, t) && role in t.due && Open(s, t, role) && Seats(s, t) > 1
    requires !kind.Refusing? && s.ask(t.asked) == AnswerOf(kind, t.live.Of(role).manual, t.asked)
    ensures RoleAfter(s, t, TryRole(s, t, role).tick, role, kind)
    ensures Costs(s, t, TryRole(s, t, role), 1, 1)
  {
    var manual := t.live.Of(role).manual;
    var outcome := LaunchOutcome(s.project, role, manual, s.ask(t.asked));
    assert !Exhausted(s.policies(role), t.live.Of(role));
    OutcomeOf(s.project, role, manual, kind, t.asked);
    CountStartIsNext(s, t, role, kind);
    AnsweredMovesSeats(s, t, role, outcome);
    var after := t.(runs := RunsWith(t.runs, s.ids(t.asked), outcome), asked := t.asked + 1);
    SeatTaken(s, after, role, outcome.row);
    TakingASeat(s, after, role, outcome.row);
  }

  lemma RefusingTurn(s: Setting, t: Tick, role: Role)
    requires SettingOk(s) && TickOk(s, t) && role in t.due && Open(s, t, role) && s.ask(t.asked) == REFUSE
    ensures role !in TryRole(s, t, role).tick.due
    ensures Costs(s, t, TryRole(s, t, role), 1, 0)
  {
    RefusedTurn(s, t, role);
    TryRoleKeeps(s, t, role);
  }

  /** One turn under a chosen kind. */
  lemma KindTurn(s: Setting, t: Tick, role: Role, kind: Kind)
    requires SettingOk(s) && TickOk(s, t) && role in t.due && Cost(s, t, role, kind) < Seats(s, t)
    requires Open(s, t, role) ==> s.ask(t.asked) == AnswerOf(kind, t.live.Of(role).manual, t.asked)
    ensures RoleAfter(s, t, TryRole(s, t, role).tick, role, kind)
    ensures Costs(s, t, TryRole(s, t, role), if Open(s, t, role) then 1 else 0, Cost(s, t, role, kind))
    ensures OthersUntouched(s, t, TryRole(s, t, role).tick, role)
  {
    TryRoleKeeps(s, t, role);
    if !Open(s, t, role) {
      ClosedTurn(s, t, role);
    } else if kind.Refusing? {
      RefusingTurn(s, t, role);
    } else {
      StartingTurn(s, t, role, kind);
    }
  }

  // ----- Choosing how a pass goes -----

  function Plans(live: PerRole<Intent>, open: seq<Role>, kinds: PerRole<Kind>, n: nat)
    : (answers: seq<LaunchAnswers>)
    ensures |answers| == |open|
    decreases |open|
  {
    if open == [] then []
    else [AnswerOf(kinds.Of(open[0]), live.Of(open[0]).manual, n)] + Plans(live, open[1..], kinds, n + 1)
  }

  lemma {:induction false} PlansStay(
      live: PerRole<Intent>, live': PerRole<Intent>, open: seq<Role>, kinds: PerRole<Kind>, n: nat)
    requires forall r | r in open :: live'.Of(r) == live.Of(r)
    ensures Plans(live', open, kinds, n) == Plans(live, open, kinds, n)
    decreases |open|
  {
    if open != [] {
      assert open[0] in open && forall r | r in open[1..] :: r in open;
      PlansStay(live, live', open[1..], kinds, n + 1);
    }
  }

  lemma {:induction false} PlansAreNumbered(live: PerRole<Intent>, open: seq<Role>, kinds: PerRole<Kind>, n: nat)
    ensures forall k | 0 <= k < |open| :: Numbered(Plans(live, open, kinds, n)[k], n + k)
    decreases |open|
  {
    if open != [] {
      OutcomeOf(0, Planner, live.Of(open[0]).manual, kinds.Of(open[0]), n);
      PlansAreNumbered(live, open[1..], kinds, n + 1);
      var rest := Plans(live, open[1..], kinds, n + 1);
      forall k | 1 <= k < |open|
        ensures Numbered(Plans(live, open, kinds, n)[k], n + k)
      {
        assert Plans(live, open, kinds, n)[k] == rest[k - 1];
      }
    }
  }

  function Costing(s: Setting, t: Tick, todo: seq<Role>, kinds: PerRole<Kind>): nat {
    if todo == [] then 0 else Cost(s, t, todo[0], kinds.Of(todo[0])) + Costing(s, t, todo[1..], kinds)
  }

  lemma {:induction false} CostingStays(
      s: Setting, t: Tick, t': Tick, role: Role, todo: seq<Role>, kinds: PerRole<Kind>)
    requires OthersUntouched(s, t, t', role) && role !in todo
    ensures Costing(s, t, todo, kinds) == Costing(s, t', todo, kinds)
  {
    if todo != [] {
      assert Untouched(s, t, t', todo[0]);
      CostingStays(s, t, t', role, todo[1..], kinds);
    }
  }

  ghost predicate Chosen(s: Setting, t: Tick, todo: seq<Role>, kinds: PerRole<Kind>) {
    Follows(s, t.asked, Plans(t.live, OpenRoles(s, t, todo), kinds, t.asked))
  }

  lemma {:induction false} FirstIsChosen(s: Setting, t: Tick, todo: seq<Role>, kinds: PerRole<Kind>)
    requires todo != [] && Open(s, t, todo[0]) && Chosen(s, t, todo, kinds)
    ensures s.ask(t.asked) == AnswerOf(kinds.Of(todo[0]), t.live.Of(todo[0]).manual, t.asked)
    ensures Follows(s, t.asked + 1, Plans(t.live, OpenRoles(s, t, todo[1..]), kinds, t.asked + 1))
  {
    FollowsOn(s, t.asked, Plans(t.live, OpenRoles(s, t, todo), kinds, t.asked));
  }

  lemma RestIsChosen(s: Setting, t: Tick, t': Tick, todo: seq<Role>, kinds: PerRole<Kind>)
    requires todo != [] && Chosen(s, t, todo, kinds) && LeftTheRest(s, t, t', todo)
    requires t'.asked == t.asked + if Open(s, t, todo[0]) then 1 else 0
    ensures Chosen(s, t', todo[1..], kinds)
  {
    PlansStay(t.live, t'.live, OpenRoles(s, t, todo[1..]), kinds, t'.asked);
    if Open(s, t, todo[0]) {
      FirstIsChosen(s, t, todo, kinds);
    }
  }

  /** What a chosen turn leaves for the rest of the pass. */
  lemma {:induction false} ChosenTurn(s: Setting, t: Tick, todo: seq<Role>, kinds: PerRole<Kind>)
    requires SettingOk(s) && TickOk(s, t) && Todo(t, todo) && todo != []
    requires Chosen(s, t, todo, kinds) && Costing(s, t, todo, kinds) < Seats(s, t)
    ensures
      var turn := TryRole(s, t, todo[0]);
      && RoleAfter(s, t, turn.tick, todo[0], kinds.Of(todo[0]))
      && Costs(s, t, turn, if Open(s, t, todo[0]) then 1 else 0, Cost(s, t, todo[0], kinds.Of(todo[0])))
      && OthersUntouched(s, t, turn.tick, todo[0])
      && Chosen(s, turn.tick, todo[1..], kinds)
      && Costing(s, turn.tick, todo[1..], kinds) == Costing(s, t, todo[1..], kinds)
  {
    if Open(s, t, todo[0]) {
      FirstIsChosen(s, t, todo, kinds);
    }
    KindTurn(s, t, todo[0], kinds.Of(todo[0]));
    TurnLeavesTheRest(s, t, todo);
    var t' := TryRole(s, t, todo[0]).tick;
    RestIsChosen(s, t, t', todo, kinds);
    assert todo[0] !in todo[1..];
    CostingStays(s, t, t', todo[0], todo[1..], kinds);
  }

  /** What a chosen pass leaves of a role. */
  predicate Played(s: Setting, t: Tick, t': Tick, todo: seq<Role>, kinds: PerRole<Kind>, role: Role) {
    if role in todo then RoleAfter(s, t, t', role, kinds.Of(role)) else Untouched(s, t, t', role)
  }

  lemma PlayedFirst(s: Setting, t: Tick, t': Tick, t'': Tick, todo: seq<Role>, kinds: PerRole<Kind>, role: Role)
    requires todo != [] && todo[0] !in todo[1..]
    requires RoleAfter(s, t, t', todo[0], kinds.Of(todo[0])) && OthersUntouched(s, t, t', todo[0])
    requires Played(s, t', t'', todo[1..], kinds, role)
    ensures Played(s, t, t'', todo, kinds, role)
  {
    if role != todo[0] {
      assert Untouched(s, t, t', role);
    }
    HeadAndTail(todo);
  }

  lemma CostsAddUp(s: Setting, t: Tick, turn: Turn, rest: Turn, a: nat, b: nat, c: nat, d: nat)
    requires Costs(s, t, turn, a, b) && Costs(s, turn.tick, rest, c, d)
    ensures Costs(s, t, rest.(progress := turn.progress || rest.progress), a + c, b + d)
  {
  }

  lemma {:induction false} ChosenPass(s: Setting, t: Tick, todo: seq<Role>, kinds: PerRole<Kind>)
    requires SettingOk(s) && TickOk(s, t) && Todo(t, todo)
    requires Chosen(s, t, todo, kinds) && Costing(s, t, todo, kinds) < Seats(s, t)
    ensures Costs(s, t, Pass(s, t, todo), |OpenRoles(s, t, todo)|, Costing(s, t, todo, kinds))
    ensures forall role :: Played(s, t, Pass(s, t, todo).tick, todo, kinds, role)
    decreases |todo|
  {
    if todo != [] {
      var turn := TryRole(s, t, todo[0]);
      TurnKeepsDue(s, t, todo);
      TurnLeavesTheRest(s, t, todo);
      ChosenTurn(s, t, todo, kinds);
      ChosenPass(s, turn.tick, todo[1..], kinds);
      var rest := Pass(s, turn.tick, todo[1..]);
      CostsAddUp(s, t, turn, rest, if Open(s, t, todo[0]) then 1 else 0, Cost(s, t, todo[0], kinds.Of(todo[0])),
                 |OpenRoles(s, t, todo[1..])|, Costing(s, t, todo[1..], kinds));
      forall role {
        PlayedFirst(s, t, turn.tick, rest.tick, todo, kinds, role);
      }
    }
  }

  // ----- The risk does not depend on the answers -----

  /** The same tick, with other ids and other answers for its launches. */
  ghost predicate Renumbered(s: Setting, t: Tick, s': Setting, t': Tick) {
    s' == s.(ids := s'.ids, ask := s'.ask) && t' == t.(asked := t'.asked)
  }

  lemma {:induction false} MostDoesNotAsk(s: Setting, t: Tick, s': Setting, t': Tick, role: Role, n: nat)
    requires Renumbered(s, t, s', t')
    ensures Most(s', t', role, n) == Most(s, t, role, n)
  {
    assert CanStart(s', t', role, n) == CanStart(s, t, role, n);
    if !CanStart(s, t, role, n) && n > 0 {
      MostDoesNotAsk(s, t, s', t', role, n - 1);
    }
  }

  lemma StartsDoNotAsk(s: Setting, t: Tick, s': Setting, t': Tick, role: Role, n: nat)
    requires Renumbered(s, t, s', t')
    ensures CanStart(s', t', role, n) == CanStart(s, t, role, n)
    ensures MayEndAt(s', t', role, n) == MayEndAt(s, t, role, n)
  {
  }

  lemma RiskInDoesNotAsk(s: Setting, t: Tick, s': Setting, t': Tick, a: Role, b: Role, n: nat, budget: nat)
    requires Renumbered(s, t, s', t')
    ensures RiskIn(s', t', a, b, n, budget) <==> RiskIn(s, t, a, b, n, budget)
  {
    if n >= 1 {
      StartsDoNotAsk(s, t, s', t', a, n);
      StartsDoNotAsk(s, t, s', t', b, n);
      MostDoesNotAsk(s, t, s', t', Third(a, b), if Ahead(t.due, Third(a, b), a) then n else n - 1);
      assert Between(s', t', a, b, n) == Between(s, t, a, b, n);
    }
  }

  lemma TickRiskDoesNotAsk(s: Setting, t: Tick, s': Setting, t': Tick, budget: nat)
    requires Renumbered(s, t, s', t') && TickAtRisk(s', t', budget)
    ensures TickAtRisk(s, t, budget)
  {
    var a, b, n := RiskWitness(s', t', budget);
    RiskInDoesNotAsk(s, t, s', t', a, b, n, budget);
    RiskIsTickRisk(s, t, a, b, n, budget);
  }

  // ----- A risk in this pass -----

  lemma AheadInOpen(s: Setting, t: Tick, todo: seq<Role>, a: Role, b: Role) returns (i: nat)
    requires Ahead(todo, a, b) && Open(s, t, a) && Open(s, t, b)
    ensures i < |OpenRoles(s, t, todo)| - 1 && OpenRoles(s, t, todo)[i] == a
  {
    if todo[0] == a && b in todo[1..] {
      i := 0;
      OpenIsOpen(s, t, todo[1..], b);
    } else {
      i := AheadInOpen(s, t, todo[1..], a, b);
      i := if Open(s, t, todo[0]) then i + 1 else i;
    }
  }

  lemma {:induction false} OpenIsOpen(s: Setting, t: Tick, todo: seq<Role>, role: Role)
    requires role in todo && Open(s, t, role)
    ensures role in OpenRoles(s, t, todo)
  {
    if todo[0] != role {
      OpenIsOpen(s, t, todo[1..], role);
    }
  }

  /** With a third role ahead, `a` is not the first open one. */
  lemma BehindAnother(s: Setting, t: Tick, todo: seq<Role>, first: Role, a: Role, b: Role)
      returns (i: nat)
    requires Ahead(todo, first, a) && Ahead(todo, a, b) && NoDuplicates(todo)
    requires Open(s, t, first) && Open(s, t, a) && Open(s, t, b)
    ensures 1 <= i < |OpenRoles(s, t, todo)| - 1 && OpenRoles(s, t, todo)[i] == a
  {
    var rest := todo[1..];
    assert todo[0] !in rest;
    if todo[0] == first && a in rest {
      if todo[0] == a && b in rest {
        assert false;
      }
      i := AheadInOpen(s, t, rest, a, b);
      i := i + 1;
    } else {
      AheadIsIn(rest, first, a);
      i := BehindAnother(s, t, rest, first, a, b);
      i := if Open(s, t, todo[0]) then i + 1 else i;
    }
  }

  lemma EndsAtOnce(s: Setting, t: Tick, role: Role)
    requires MayEndAt(s, t, role, 1)
    ensures MayRunOut(s.policies(role), t.live.Of(role))
  {
    var manual := t.live.Of(role).manual;
    if |Targets(manual)| <= 1 {
      forall k | 0 <= k < |manual|
        ensures manual[k] == manual[0]
      {
        assert manual[k] in Targets(manual) && manual[0] in Targets(manual);
        SubsetIsNoLarger({manual[k], manual[0]}, Targets(manual));
      }
    }
  }

  lemma {:induction false} RiskNowIsPassRisk(s: Setting, t: Tick, a: Role, b: Role)
    requires TickOk(s, t) && RiskIn(s, t, a, b, 1, Seats(s, t))
    ensures AtRisk(s, t, OpenRoles(s, t, t.due), Seats(s, t))
  {
    var open := OpenRoles(s, t, t.due);
    EndsAtOnce(s, t, a);
    if Seats(s, t) == 1 {
      var i := AheadInOpen(s, t, t.due, a, b);
      assert RiskAt(s, t, open, 1, i);
    } else {
      DueRoleHasAStart(s, t, Third(a, b));
      var i := BehindAnother(s, t, t.due, Third(a, b), a, b);
      assert RiskAt(s, t, open, 2, i);
    }
  }

  /** Answers that make the tick start more runs than it saw seats. */
  ghost predicate Overruns(s: Setting, t: Tick, ask: nat -> LaunchAnswers)
    requires SettingOk(s) && TickOk(s, t) && Plausible(ask)
  {
    Refill(s.(ask := ask), t).started > t.started + Seats(s, t)
  }

  ghost predicate CanOverrun(s: Setting, t: Tick)
    requires SettingOk(s) && TickOk(s, t)
  {
    exists ask | AllNumbered(ask) && Plausible(ask) :: Overruns(s, t, ask)
  }

  lemma OverrunNow(s: Setting, t: Tick, a: Role, b: Role)
    requires SettingOk(s) && TickOk(s, t) && RiskIn(s, t, a, b, 1, Seats(s, t))
    ensures CanOverrun(s, t)
  {
    RiskNowIsPassRisk(s, t, a, b);
    var ask := PassOverrun(s, t);
    var s' := s.(ask := ask);
    PassKeeps(s', t, t.due);
    PassSpendsSeats(s', t, t.due);
    if Pass(s', t, t.due).progress {
      RefillOnlyAdds(s', Pass(s', t, t.due).tick);
    }
  }

  // ----- A risk in a later pass -----

  /** How a pass goes that brings the risk one pass nearer: `a` and `b` start, and
      so does the third role if there is a seat for it. */
  function Nearer(t: Tick, a: Role, b: Role, n: nat, spare: nat): PerRole<Kind> {
    PerRole(Quiet, Quiet, Quiet)
    .With(a, if |Targets(t.live.Of(a).manual)| == n then Taking else Quiet)
    .With(Third(a, b), if spare > 0 then Quiet else Refusing)
  }

  function CostIn(s: Setting, t: Tick, todo: seq<Role>, kinds: PerRole<Kind>, role: Role): nat {
    if role in todo then Cost(s, t, role, kinds.Of(role)) else 0
  }

  lemma {:induction false} CostingIsASum(s: Setting, t: Tick, todo: seq<Role>, kinds: PerRole<Kind>)
    requires NoDuplicates(todo)
    ensures Costing(s, t, todo, kinds)
         == CostIn(s, t, todo, kinds, Planner) + CostIn(s, t, todo, kinds, Architect)
            + CostIn(s, t, todo, kinds, Developer)
  {
    if todo != [] {
      CostingIsASum(s, t, todo[1..], kinds);
      HeadAndTail(todo);
      assert todo[0] !in todo[1..];
    }
  }

  lemma {:induction false} NearerCosts(s: Setting, t: Tick, a: Role, b: Role, n: nat, spare: nat)
    requires TickOk(s, t) && a != b && a in t.due && b in t.due && Open(s, t, a) && Open(s, t, b)
    requires spare > 0 ==> Third(a, b) in t.due && Open(s, t, Third(a, b))
    ensures Costing(s, t, t.due, Nearer(t, a, b, n, spare)) == if spare > 0 then 3 else 2
  {
    CostingIsASum(s, t, t.due, Nearer(t, a, b, n, spare));
  }

  /** A role that starts and has starts left is still due, with one start fewer. */
  lemma StartedAndDue(s: Setting, t: Tick, t': Tick, role: Role, kind: Kind, n: nat)
    requires n >= 2 && CanStart(s, t, role, n) && RoleAfter(s, t, t', role, kind) && !kind.Refusing?
    requires t.live.Of(role).manualMode ==> Next(kind, t.live.Of(role)).manual != []
    ensures role in t'.due && CanStart(s, t', role, n - 1)
  {
  }

  lemma NoTargets()
    ensures |Targets([])| == 0
  {
    assert Targets([]) == {};
  }

  /** Starting on a target takes it away. */
  lemma TakingATarget(intent: Intent, n: nat)
    requires |Targets(intent.manual)| == n && n >= 2
    ensures Next(Taking, intent).manual != [] && |Targets(Next(Taking, intent).manual)| == n - 1
  {
    var manual := intent.manual;
    NoTargets();
    OtherTargetsAre(manual, manual[0]);
    assert manual[0] in Targets(manual);
    assert |Targets(OtherTargets(manual, manual[0]))| == n - 1;
    if OtherTargets(manual, manual[0]) == [] {
      NoTargets();
    }
  }

  lemma FirstOfTheRisk(s: Setting, t: Tick, t': Tick, a: Role, b: Role, n: nat, spare: nat)
    requires TickOk(s, t) && a in t.due && n >= 2 && a != b
    requires CanStart(s, t, a, n) && MayEndAt(s, t, a, n)
    requires RoleAfter(s, t, t', a, Nearer(t, a, b, n, spare).Of(a))
    ensures a in t'.due && CanStart(s, t', a, n - 1) && MayEndAt(s, t', a, n - 1)
  {
    var intent, kind := t.live.Of(a), Nearer(t, a, b, n, spare).Of(a);
    assert !Exhausted(s.policies(a), intent);
    if kind.Taking? {
      TakingATarget(intent, n);
    }
    StartedAndDue(s, t, t', a, kind, n);
  }

  lemma SecondOfTheRisk(s: Setting, t: Tick, t': Tick, a: Role, b: Role, n: nat, spare: nat)
    requires TickOk(s, t) && b in t.due && n >= 2 && a != b && CanStart(s, t, b, n)
    requires RoleAfter(s, t, t', b, Nearer(t, a, b, n, spare).Of(b))
    ensures b in t'.due && CanStart(s, t', b, n - 1)
  {
    assert !Exhausted(s.policies(b), t.live.Of(b));
    StartedAndDue(s, t, t', b, Quiet, n);
  }

  /** What the third role can add later still covers what is left to add. */
  lemma {:induction false} ThirdOfTheRisk(s: Setting, t: Tick, t': Tick, a: Role, b: Role, n: nat, spare: nat)
    requires TickOk(s, t) && n >= 2 && a != b && 2 <= spare <= Between(s, t, a, b, n)
    requires RoleAfter(s, t, t', Third(a, b), Quiet)
    requires Third(a, b) in t'.due ==> (Ahead(t'.due, Third(a, b), a) <==> Ahead(t.due, Third(a, b), a))
    ensures spare - 1 <= Between(s, t', a, b, n - 1)
  {
    var third := Third(a, b);
    DueRoleHasAStart(s, t, third);
    assert !Exhausted(s.policies(third), t.live.Of(third));
    assert CanStart(s, t, third, spare);
    StartedAndDue(s, t, t', third, Quiet, spare);
    MostIsMost(s, t', third, if Ahead(t.due, third, a) then n - 1 else n - 2, spare - 1);
  }

  /** What such a pass costs, and that it keeps the tick. */
  lemma {:induction false} NearerPass(s: Setting, t: Tick, a: Role, b: Role, n: nat, spare: nat)
    requires SettingOk(s) && TickOk(s, t) && n >= 2
    requires RiskIn(s, t, a, b, n, Seats(s, t)) && spare == Seats(s, t) - (2 * n - 1)
    requires Chosen(s, t, t.due, Nearer(t, a, b, n, spare))
    ensures a in t.due && b in t.due
    ensures
      var u := Pass(s, t, t.due);
      && TickOk(s, u.tick) && u.progress
      && Costs(s, t, u, |OpenRoles(s, t, t.due)|, if spare > 0 then 3 else 2)
      && forall role :: Played(s, t, u.tick, t.due, Nearer(t, a, b, n, spare), role)
  {
    AheadIsIn(t.due, a, b);
    if spare > 0 {
      DueRoleHasAStart(s, t, Third(a, b));
    }
    NearerCosts(s, t, a, b, n, spare);
    ChosenPass(s, t, t.due, Nearer(t, a, b, n, spare));
    PassKeeps(s, t, t.due);
    PassSpendsSeats(s, t, t.due);
  }

  lemma {:induction false} SpareComesNearer(s: Setting, t: Tick, a: Role, b: Role, n: nat, spare: nat)
    requires SettingOk(s) && TickOk(s, t) && n >= 2 && a != b && spare <= Between(s, t, a, b, n)
    requires Played(s, t, Pass(s, t, t.due).tick, t.due, Nearer(t, a, b, n, spare), Third(a, b))
    requires a in Pass(s, t, t.due).tick.due
    ensures spare <= Between(s, Pass(s, t, t.due).tick, a, b, n - 1) + if spare > 0 then 1 else 0
  {
    if spare > 1 {
      PassKeepsOrder(s, t, t.due, Third(a, b), a);
      ThirdOfTheRisk(s, t, Pass(s, t, t.due).tick, a, b, n, spare);
    }
  }

  /** After such a pass the risk is one pass nearer. */
  lemma {:induction false} RiskComesNearer(s: Setting, t: Tick, a: Role, b: Role, n: nat, spare: nat)
    requires SettingOk(s) && TickOk(s, t) && n >= 2
    requires RiskIn(s, t, a, b, n, Seats(s, t)) && spare == Seats(s, t) - (2 * n - 1)
    requires Chosen(s, t, t.due, Nearer(t, a, b, n, spare))
    ensures
      var u := Pass(s, t, t.due);
      && TickOk(s, u.tick) && u.progress
      && u.tick.started - t.started == Seats(s, t) - Seats(s, u.tick)
      && RiskIn(s, u.tick, a, b, n - 1, Seats(s, u.tick))
  {
    NearerPass(s, t, a, b, n, spare);
    var kinds, t' := Nearer(t, a, b, n, spare), Pass(s, t, t.due).tick;
    assert Played(s, t, t', t.due, kinds, a) && Played(s, t, t', t.due, kinds, b);
    assert Played(s, t, t', t.due, kinds, Third(a, b));
    FirstOfTheRisk(s, t, t', a, b, n, spare);
    SecondOfTheRisk(s, t, t', a, b, n, spare);
    PassKeepsOrder(s, t, t.due, a, b);
    SpareComesNearer(s, t, a, b, n, spare);
  }

  function Joined(first: nat -> LaunchAnswers, later: nat -> LaunchAnswers, from: nat): nat -> LaunchAnswers {
    (n: nat) => if n < from then first(n) else later(n)
  }

  /** From `t` a pass under the setting's own answers leads to `t'` and goes on,
      each start having cost a seat. */
  ghost predicate PassLeads(s: Setting, t: Tick, t': Tick) {
    && t.due != [] && Seats(s, t) > 0 && TickOk(s, t')
    && t' == Pass(s, t, t.due).tick && Pass(s, t, t.due).progress
    && t'.started - t.started == Seats(s, t) - Seats(s, t')
  }

  lemma AnswersBringNearer(s: Setting, t: Tick, a: Role, b: Role, n: nat)
      returns (ask: nat -> LaunchAnswers, t': Tick)
    requires SettingOk(s) && TickOk(s, t) && n >= 2 && RiskIn(s, t, a, b, n, Seats(s, t))
    ensures AllNumbered(ask) && Plausible(ask) && PassLeads(s.(ask := ask), t, t')
    ensures RiskIn(s.(ask := ask), t', a, b, n - 1, Seats(s.(ask := ask), t'))
  {
    var spare := Seats(s, t) - (2 * n - 1);
    var kinds := Nearer(t, a, b, n, spare);
    ask := Following(t.asked, Plans(t.live, OpenRoles(s, t, t.due), kinds, t.asked));
    PlansAreNumbered(t.live, OpenRoles(s, t, t.due), kinds, t.asked);
    NumberedIsGivable(ask);
    OpenRolesDoNotAsk(s, t, t.due, ask);
    RiskInDoesNotAsk(s, t, s.(ask := ask), t, a, b, n, Seats(s, t));
    AheadIsIn(t.due, a, b);
    RiskComesNearer(s.(ask := ask), t, a, b, n, spare);
    t' := Pass(s.(ask := ask), t, t.due).tick;
  }

  /** The pass under those answers, then the rest of the tick under its own. */
  lemma OverrunLater(s: Setting, now: nat -> LaunchAnswers, t: Tick, t': Tick)
    requires SettingOk(s) && TickOk(s, t) && AllNumbered(now) && Plausible(now)
    requires PassLeads(s.(ask := now), t, t') && CanOverrun(s.(ask := now), t')
    ensures CanOverrun(s, t)
  {
    var s' := s.(ask := now);
    var later :| AllNumbered(later) && Plausible(later) && Overruns(s', t', later);
    var ask := Joined(now, later, t'.asked);
    NumberedIsGivable(ask);
    PassReadsItsAnswers(s', ask, t, t.due);
    RefillReadsOnward(s.(ask := later), ask, t');
    assert Overruns(s, t, ask);
  }

  /** If the tick after that pass can overrun, so can the whole. */
  lemma OverrunOnePassOn(s: Setting, t: Tick, a: Role, b: Role, n: nat) returns (s': Setting, t': Tick)
    requires SettingOk(s) && TickOk(s, t) && n >= 2 && RiskIn(s, t, a, b, n, Seats(s, t))
    ensures SettingOk(s') && TickOk(s', t') && RiskIn(s', t', a, b, n - 1, Seats(s', t'))
    ensures CanOverrun(s', t') ==> CanOverrun(s, t)
  {
    var now;
    now, t' := AnswersBringNearer(s, t, a, b, n);
    s' := s.(ask := now);
    if CanOverrun(s', t') {
      OverrunLater(s, now, t, t');
    }
  }

  lemma OverrunFrom(s: Setting, t: Tick, a: Role, b: Role, n: nat)
    requires SettingOk(s) && TickOk(s, t) && RiskIn(s, t, a, b, n, Seats(s, t))
    ensures CanOverrun(s, t)
    decreases n
  {
    if n == 1 {
      OverrunNow(s, t, a, b);
    } else {
      var s', t' := OverrunOnePassOn(s, t, a, b, n);
      OverrunFrom(s', t', a, b, n - 1);
    }
  }

  /** The tick starts no more runs than it saw seats. */
  ghost predicate TickStaysWithin(s: Setting, t: Tick, ask: nat -> LaunchAnswers)
    requires SettingOk(s) && TickOk(s, t) && Plausible(ask)
  {
    Refill(s.(ask := ask), t).started <= t.started + Seats(s, t)
  }

  lemma NoTickOverrun(s: Setting, t: Tick, ask: nat -> LaunchAnswers)
    requires SettingOk(s) && TickOk(s, t) && Plausible(ask) && !TickAtRisk(s, t, Seats(s, t))
    ensures TickStaysWithin(s, t, ask)
  {
    if TickAtRisk(s.(ask := ask), t, Seats(s, t)) {
      TickRiskDoesNotAsk(s, t, s.(ask := ask), t, Seats(s, t));
    }
    NoRiskNoTickOverrun(s.(ask := ask), t, Seats(s, t));
  }

  /** Of all that its launches may answer, or of all that one world can give, no
      outcome makes a tick start more runs than the project and the device had
      seats when it began, exactly when it is not at risk: no role may, in some
      pass, take the last of those seats with the last start of its intent ahead
      of a role that can still start. */
  lemma {:induction false} TickStaysWithinItsSeatsIff(s: Setting, t: Tick)
    requires SettingOk(s) && TickOk(s, t)
    ensures
      var safe := !TickAtRisk(s, t, Seats(s, t));
      && ((forall ask | Plausible(ask) :: TickStaysWithin(s, t, ask)) <==> safe)
      && ((forall ask | Givable(ask) && Plausible(ask) :: TickStaysWithin(s, t, ask)) <==> safe)
  {
    if TickAtRisk(s, t, Seats(s, t)) {
      var a, b, n := RiskWitness(s, t, Seats(s, t));
      OverrunFrom(s, t, a, b, n);
      var ask :| AllNumbered(ask) && Plausible(ask) && Overruns(s, t, ask);
      NumberedIsGivable(ask);
      assert !TickStaysWithin(s, t, ask);
    } else {
      forall ask | Plausible(ask) {
        NoTickOverrun(s, t, ask);
      }
    }
  }

  /** The answers under which every due role makes its last start. */
  function AllAgree(s: Setting, t: Tick): nat -> LaunchAnswers {
    Following(t.asked, Script(t.live, OpenRoles(s, t, t.due), 0, t.asked))
  }

  /** With one seat and three due roles, each with a seat of its own and on what may
      be its last start, the two more that a tick can start are reached. */
  lemma {:induction false} TwoMoreAreStarted(s: Setting, t: Tick)
    requires SettingOk(s) && TickOk(s, t) && Seats(s, t) == 1
    requires |t.due| == 3 && AllOnTheirLast(s, t, t.due)
    ensures AllNumbered(AllAgree(s, t)) && Givable(AllAgree(s, t)) && Plausible(AllAgree(s, t))
    ensures Refill(s.(ask := AllAgree(s, t)), t).started == t.started + Seats(s, t) + 2
  {
    var ask := AllAgree(s, t);
    var s' := s.(ask := ask);
    ScriptIsNumbered(t.live, OpenRoles(s, t, t.due), 0, t.asked);
    NumberedIsGivable(ask);
    OpenRolesDoNotAsk(s, t, t.due, ask);
    assert InPlay(s', t, t.due, 0);
    LastStartsAreAllMade(s', t, t.due);
    PassKeeps(s', t, t.due);
    PassSpendsSeats(s', t, t.due);
    RefillOnlyAdds(s', Pass(s', t, t.due).tick);
    OverrunIsAtMostTwo(s', t);
  }

  /** Three project seats, a planner intent with two starts left, and a developer
      intent. */
  function ThreeSeats(): Setting {
    OneSeat().(limits := Limits(9, _ => 3, (_, _) => 3),
               policies := role => Policy(true, if role == Planner then Some(2) else None, 0))
  }

  lemma ThreeSeatsTwoDue()
    ensures SettingOk(ThreeSeats()) && TickOk(ThreeSeats(), TwoDue()) && Seats(ThreeSeats(), TwoDue()) == 3
    ensures forall r :: RoleSeats(ThreeSeats(), TwoDue(), r) == 3
  {
    OneSeatTwoDue();
    var s, t := ThreeSeats(), TwoDue();
    forall scope
      ensures Remaining(t.runs, s.limits, scope) == Limit(s.limits, scope)
    {
      assert Holding(t.runs, scope) == {};
      RemainingIff(t.runs, s.limits, scope);
    }
  }

  /** The first pass is not at risk, the tick is. */
  lemma TheSecondPassOverruns()
    ensures SettingOk(ThreeSeats()) && TickOk(ThreeSeats(), TwoDue()) && Seats(ThreeSeats(), TwoDue()) == 3
    ensures !AtRisk(ThreeSeats(), TwoDue(), OpenRoles(ThreeSeats(), TwoDue(), TwoDue().due), 3)
    ensures CanOverrun(ThreeSeats(), TwoDue())
  {
    ThreeSeatsTwoDue();
    var s, t := ThreeSeats(), TwoDue();
    assert t.due[1..] == [Developer] && OpenRoles(s, t, [Developer]) == [Developer];
    assert RiskIn(s, t, Planner, Developer, 2, 3);
    OverrunFrom(s, t, Planner, Developer, 2);
  }
}
