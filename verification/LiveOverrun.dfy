/** The overrun of a tick among live processes: from a world whose counted runs all
    live, a tick at risk can take the live providers over the limit, and only a
    tick at risk can; two more than the limit are reached. */
module LiveOverrun {
  import opened Prelude
  import opened EventLog
  import opened RunLedger
  import opened RunWorld
  import opened Slots
  import opened Dispatch
  import opened RefillLoop
  import opened LiveBound
  import opened TickRun
  import Overrun
  import TickOverrun
  import TickRisk

  // ----- Names no process and no run has had -----

  /** No pid and no run id from `n` on was ever used. */
  predicate NewFrom(w: World, n: nat) {
    (forall p | p in w.born :: p.pid < n) && (forall id | id in w.issued :: id < n)
  }

  lemma PidsAreBounded(procs: set<Proc>) returns (n: nat)
    ensures forall p | p in procs :: p.pid < n
  {
    n := 0;
    if procs != {} {
      var p :| p in procs;
      n := PidsAreBounded(procs - {p});
      n := if p.pid < n then n else p.pid + 1;
    }
  }

  lemma IdsAreBounded(ids: set<RunId>) returns (n: nat)
    ensures forall id | id in ids :: id < n
  {
    n := 0;
    if ids != {} {
      var id :| id in ids;
      n := IdsAreBounded(ids - {id});
      assert forall other | other in ids :: other == id || other in ids - {id};
      n := if id < n then n else id + 1;
    }
  }

  lemma NewNames(w: World) returns (n: nat)
    ensures NewFrom(w, n)
  {
    var pids := PidsAreBounded(w.born);
    var ids := IdsAreBounded(w.issued);
    n := if pids < ids then ids else pids;
  }

  /** Every world can give answers whose processes bear new numbers. */
  lemma NumberedIsReady(codec: Codec, w: World, s: Setting, n: nat)
    requires Inv(codec, w) && NewFrom(w, n) && Overrun.AllNumbered(s.ask) && (forall k: nat :: s.ids(k) == k)
    ensures Ready(w, s, n)
  {
    Overrun.NumberedIsGivable(s.ask);
    forall k: nat | k >= n
      ensures Fits(w, s.ask(k))
    {
      assert Overrun.Numbered(s.ask(k), k);
    }
  }

  // ----- Queued runs come alive -----

  predicate OnlyStarts(steps: seq<Step>) {
    forall step | step in steps :: step.StartRun?
  }

  /** The store grants the run a lease, on its first target if it names any, and
      its provider starts. */
  function Granting(row: Row, pid: Pid): StartAnswers {
    StartAnswers(Proceed, Granted(Lease(if row.manual == [] then 0 else row.manual[0], 0)), true,
                 Launched(pid, 0, true), 0, Never)
  }

  /** The same runs of the same projects, none of which died. */
  ghost predicate SameRuns(w: World, w': World) {
    && w'.runs.Keys == w.runs.Keys && Spares(w, w')
    && forall id | id in w.runs :: w'.runs[id].project == w.runs[id].project
  }

  lemma GrantedStarts(row: Row, pid: Pid)
    requires row.state == Queued
    ensures
      var e := Start(row, Granting(row, pid));
      && e.spawned == Some(Proc(pid, 0)) && e.killed.None? && e.row.provider.Some?
      && e.row.project == row.project
  {
  }

  predicate AllQueued(w: World, ids: set<RunId>) {
    forall id | id in ids :: id in w.runs && w.runs[id].state == Queued
  }

  predicate AllLive(w: World, ids: set<RunId>) {
    forall id | id in ids :: ProviderLives(w, id)
  }

  lemma ItsProviderLives(w: World, id: RunId, e: Effect)
    requires id in w.runs && e.spawned.Some? && e.killed.None? && e.row.provider.Some?
    requires e.row.project == w.runs[id].project && Spares(w, Apply(w, id, e))
    ensures SameRuns(w, Apply(w, id, e)) && ProviderLives(Apply(w, id, e), id)
    ensures forall ids | AllQueued(w, ids) && id !in ids :: AllQueued(Apply(w, id, e), ids)
  {
  }

  /** Such steps lead from the one world to the other. */
  ghost predicate StartsLead(codec: Codec, w: World, steps: seq<Step>, end: World) {
    OnlyStarts(steps) && Possible(codec, w, steps) && After(codec, w, steps) == end
  }

  lemma StartLeads(codec: Codec, w: World, step: Step)
    requires step.StartRun? && Enabled(w, step)
    ensures StartsLead(codec, w, [step], Take(codec, w, step))
  {
    assert [step][1..] == [];
  }

  lemma QueuedRunWakes(codec: Codec, w: World, id: RunId) returns (steps: seq<Step>, next: World)
    requires Inv(codec, w) && id in w.runs && w.runs[id].state == Queued
    ensures StartsLead(codec, w, steps, next) && Inv(codec, next)
    ensures SameRuns(w, next) && ProviderLives(next, id)
    ensures forall ids | AllQueued(w, ids) && id !in ids :: AllQueued(next, ids)
  {
    var n := NewNames(w);
    var step := StartRun(id, Granting(w.runs[id], n + 1));
    StartLeads(codec, w, step);
    steps, next := [step], Take(codec, w, step);
    StepSpares(codec, w, step);
    GrantedStarts(w.runs[id], n + 1);
    ItsProviderLives(w, id, Start(w.runs[id], step.answers));
  }

  lemma SameRunsTwice(a: World, b: World, c: World)
    requires SameRuns(a, b) && SameRuns(b, c)
    ensures SameRuns(a, c)
  {
    SparesOn(a, b, c);
  }

  lemma {:induction false} StartsLeadOn(
      codec: Codec, a: World, first: seq<Step>, b: World, second: seq<Step>, c: World)
    requires StartsLead(codec, a, first, b) && StartsLead(codec, b, second, c)
    ensures StartsLead(codec, a, first + second, c)
    decreases |first|
  {
    if first == [] {
      assert first + second == second;
    } else {
      assert (first + second)[1..] == first[1..] + second;
      StartsLeadOn(codec, Take(codec, a, first[0]), first[1..], b, second, c);
    }
  }

  lemma OneMoreLives(a: World, b: World, c: World, ids: set<RunId>, id: RunId)
    requires SameRuns(a, b) && SameRuns(b, c) && ProviderLives(b, id) && AllLive(c, ids - {id})
    ensures SameRuns(a, c) && AllLive(c, ids)
  {
    SameRunsTwice(a, b, c);
  }

  lemma NobodyWakes(codec: Codec, w: World) returns (steps: seq<Step>, end: World)
    ensures StartsLead(codec, w, steps, end) && SameRuns(w, end)
  {
    steps, end := [], w;
  }

  lemma QueuedRunsWake(codec: Codec, w: World, queued: set<RunId>) returns (steps: seq<Step>, end: World)
    requires Inv(codec, w) && AllQueued(w, queued)
    ensures StartsLead(codec, w, steps, end) && SameRuns(w, end) && AllLive(end, queued)
    decreases queued
  {
    if queued == {} {
      steps, end := NobodyWakes(codec, w);
    } else {
      var id :| id in queued;
      var first, next := QueuedRunWakes(codec, w, id);
      var more;
      more, end := QueuedRunsWake(codec, next, queued - {id});
      StartsLeadOn(codec, w, first, next, more, end);
      OneMoreLives(w, next, end, queued, id);
      steps := first + more;
    }
  }

  // ----- The starts of a tick come alive -----

  /** Every run that holds a slot has a live provider. */
  ghost predicate Filled(w: World, scope: Scope) {
    Holding(w.runs, scope) <= Live(w, scope)
  }

  /** The scopes a tick of the project shares with other ticks or roles. */
  predicate SharedBy(project: ProjectId, scope: Scope) {
    scope in {Scope.Device, InProject(project)}
  }

  lemma WonRunsOrWaits(s: Setting, row: Row)
    requires Overrun.AllNumbered(s.ask) && Won(s, row)
    ensures row.state in {Queued, Running}
  {
    var n: nat, role: Role, manual: seq<Target> :| row == LaunchOutcome(s.project, role, manual, s.ask(n)).row;
    assert Overrun.Numbered(s.ask(n), n);
  }

  /** A run the tick started is queued, or has a live provider. */
  lemma {:induction false} WonIsQueuedOrLives(
      codec: Codec, limits: Limits, m: Machine, s: Setting, t: Tick, after: World, won: set<RunId>, id: RunId)
    requires MachineInv(codec, limits, m) && Leads(codec, limits, m, m.(world := after))
    requires SettingOk(s) && TickOk(s, t) && t.runs == m.world.runs && after.runs == Refill(s, t).runs
    requires Overrun.AllNumbered(s.ask) && Grown(s, t, Refill(s, t), won) && id in won
    ensures after.runs[id].state == Queued || ProviderLives(after, id)
    ensures after.runs[id].project == s.project
  {
    WonRunsOrWaits(s, after.runs[id]);
    ReachingKeeps(codec, limits, m, m.(world := after));
    assert RowOk(codec, after, id, after.runs[id]);
    assert Weighs(after, id);
  }

  lemma CountedStaysAlive(s: Setting, t: Tick, w: World, after: World, end: World, scope: Scope, id: RunId)
    requires t.runs == w.runs && SharedBy(s.project, scope) && Filled(w, scope)
    requires id in Holding(t.runs, scope) && id in after.runs && after.runs[id] == t.runs[id]
    requires Spares(w, after) && SameRuns(after, end)
    ensures id in Live(end, scope)
  {
    assert id in Live(w, scope) && ProviderLives(after, id);
  }

  /** What was counted, and what the tick started, lives once the queued runs woke. */
  lemma AllComeAlive(s: Setting, t: Tick, t': Tick, w: World, after: World, end: World, won: set<RunId>, scope: Scope)
    requires t.runs == w.runs && SharedBy(s.project, scope) && Filled(w, scope)
    requires after.runs == t'.runs && Grown(s, t, t', won)
    requires Spares(w, after) && SameRuns(after, end) && AllLive(end, won)
    ensures |Live(end, scope)| >= |Holding(t.runs, scope)| + |won|
  {
    var before := Holding(t.runs, scope);
    forall id | id in before
      ensures id in Live(end, scope)
    {
      assert id in t.runs && id in t'.runs;
      CountedStaysAlive(s, t, w, after, end, scope, id);
    }
    assert won <= Live(end, scope);
    SubsetIsNoLarger(before + won, Live(end, scope));
  }

  /** What was counted and what the tick started all lives in the end. */
  lemma StartsComeAlive(
      codec: Codec, limits: Limits, m: Machine, s: Setting, t: Tick, after: World, scope: Scope)
    returns (steps: seq<Step>, end: World)
    requires MachineInv(codec, limits, m) && Leads(codec, limits, m, m.(world := after))
    requires SettingOk(s) && TickOk(s, t) && t.runs == m.world.runs && after.runs == Refill(s, t).runs
    requires Overrun.AllNumbered(s.ask) && SharedBy(s.project, scope) && Filled(m.world, scope)
    ensures StartsLead(codec, after, steps, end)
    ensures |Live(end, scope)| >= |Holding(t.runs, scope)| + Refill(s, t).started - t.started
  {
    var won := RefillGrows(s, t);
    var queued := set id | id in won && after.runs[id].state == Queued;
    steps, end := QueuedRunsWake(codec, after, queued);
    forall id | id in won
      ensures ProviderLives(end, id)
    {
      WonIsQueuedOrLives(codec, limits, m, s, t, after, won, id);
      assert id !in queued ==> ProviderLives(after, id);
    }
    AllComeAlive(s, t, Refill(s, t), m.world, after, end, won, scope);
  }

  // ----- Exactly the ticks at risk -----

  predicate NothingQueued(steps: seq<Step>) {
    forall step | step in steps :: !step.Enqueue?
  }

  /** The tick, its launches numbered and answered as in `s'` and `t'`, leaves the
      world `after`, where `steps` take more live providers than the limit allows. */
  ghost predicate Exceeds(
      codec: Codec, limits: Limits, m: Machine, s': Setting, t': Tick, after: World, steps: seq<Step>, scope: Scope)
  {
    && Ready(m.world, s', t'.asked) && DeedPossible(codec, limits, m, Whole(s', t', after))
    && NothingQueued(steps) && Possible(codec, after, steps)
    && |Live(After(codec, after, steps), scope)| > Limit(limits, scope)
  }

  /** However its launches are numbered, and whatever this world answers. */
  ghost predicate CanExceed(codec: Codec, limits: Limits, m: Machine, s: Setting, t: Tick, scope: Scope) {
    exists s', t', after, steps ::
      TickOverrun.Renumbered(s, t, s', t') && Exceeds(codec, limits, m, s', t', after, steps, scope)
  }

  lemma {:induction false} NothingGainsWeight(codec: Codec, w: World, steps: seq<Step>, scope: Scope)
    requires Inv(codec, w) && NothingQueued(steps) && Possible(codec, w, steps)
    ensures Weighing(After(codec, w, steps), scope) <= Weighing(w, scope)
    decreases |steps|
  {
    if steps != [] {
      assert steps[0] in steps && forall step | step in steps[1..] :: step in steps;
      TakeKeepsInv(codec, w, steps[0]);
      StepShrinksWeighing(codec, w, steps[0], scope);
      NothingGainsWeight(codec, Take(codec, w, steps[0]), steps[1..], scope);
    }
  }

  lemma {:induction false} WithoutRiskTheLimitHolds(
      codec: Codec, limits: Limits, m: Machine, s: Setting, t: Tick, after: World, steps: seq<Step>, scope: Scope)
    requires MachineInv(codec, limits, m) && m.lost == 0 && Within(limits, 0, m.world)
    requires DeedPossible(codec, limits, m, Whole(s, t, after)) && !TickRisk.TickAtRisk(s, t, Seats(s, t))
    requires NothingQueued(steps) && Possible(codec, after, steps)
    ensures |Live(After(codec, after, steps), scope)| <= Limit(limits, scope)
  {
    TickWithoutRiskKeepsTheLimits(codec, limits, m, s, t, after);
    NothingGainsWeight(codec, after, steps, scope);
    SubsetIsNoLarger(Live(After(codec, after, steps), scope), Weighing(after, scope));
    assert |Weighing(after, scope)| <= Limit(limits, scope) + 0;
  }

  lemma OnlyRiskExceeds(
      codec: Codec, limits: Limits, m: Machine, s: Setting, t: Tick, s': Setting, t': Tick, after: World,
      steps: seq<Step>, scope: Scope)
    requires MachineInv(codec, limits, m) && m.lost == 0 && Within(limits, 0, m.world)
    requires TickOverrun.Renumbered(s, t, s', t') && Exceeds(codec, limits, m, s', t', after, steps, scope)
    ensures TickRisk.TickAtRisk(s, t, Seats(s, t))
  {
    if TickRisk.TickAtRisk(s', t', Seats(s', t')) {
      TickOverrun.TickRiskDoesNotAsk(s, t, s', t', Seats(s', t'));
    } else {
      WithoutRiskTheLimitHolds(codec, limits, m, s', t', after, steps, scope);
    }
  }

  /** The tick with launches that bear new numbers and are answered by `ask`. */
  function Anew(s: Setting, ask: nat -> LaunchAnswers): Setting {
    s.(ids := (k: nat) => k, ask := ask)
  }

  /** Such a tick can be made, and what it starts comes alive. */
  lemma TickComesAlive(
      codec: Codec, limits: Limits, m: Machine, s: Setting, t: Tick, n: nat, ask: nat -> LaunchAnswers, scope: Scope)
    returns (after: World, steps: seq<Step>, end: World)
    requires MachineInv(codec, limits, m) && m.ticking.None? && SettingOk(Anew(s, ask)) && TickOk(s, t)
    requires s.limits == limits && t.runs == m.world.runs && NewFrom(m.world, n) && Overrun.AllNumbered(ask)
    requires SharedBy(s.project, scope) && Filled(m.world, scope)
    ensures TickOk(Anew(s, ask), t.(asked := n)) && Ready(m.world, Anew(s, ask), n)
    ensures DeedPossible(codec, limits, m, Whole(Anew(s, ask), t.(asked := n), after))
    ensures StartsLead(codec, after, steps, end)
    ensures |Live(end, scope)|
              >= |Holding(t.runs, scope)| + Refill(Anew(s, ask), t.(asked := n)).started - t.started
  {
    var s', t' := Anew(s, ask), t.(asked := n);
    NumberedIsReady(codec, m.world, s', n);
    after := TickIsMade(codec, limits, m, s', t');
    steps, end := StartsComeAlive(codec, limits, m, s', t', after, scope);
  }

  /** The limit of the scope is the one the tick's seats come from, and the runs
      counted against it are alive. */
  ghost predicate Binding(m: Machine, s: Setting, t: Tick, scope: Scope) {
    && SharedBy(s.project, scope) && Filled(m.world, scope)
    && Seats(s, t) == Remaining(t.runs, s.limits, scope)
  }

  /** The seats are what the held slots leave of the limit. */
  lemma SeatsAreLimitMinusHeld(limits: Limits, m: Machine, s: Setting, t: Tick, scope: Scope)
    requires Within(limits, 0, m.world) && s.limits == limits && t.runs == m.world.runs && Binding(m, s, t, scope)
    ensures |Holding(t.runs, scope)| + Seats(s, t) == Limit(limits, scope)
  {
    RemainingIff(t.runs, limits, scope);
    SubsetIsNoLarger(Holding(t.runs, scope), Weighing(m.world, scope));
    assert |Weighing(m.world, scope)| <= Limit(limits, scope) + 0;
  }

  lemma RiskStartsTooMany(s: Setting, t: Tick, n: nat) returns (ask: nat -> LaunchAnswers)
    requires SettingOk(s) && TickOk(s, t) && (forall k: nat | k >= n :: k !in t.runs)
    requires TickRisk.TickAtRisk(s, t, Seats(s, t))
    ensures Overrun.AllNumbered(ask) && SettingOk(Anew(s, ask)) && TickOk(Anew(s, ask), t.(asked := n))
    ensures Refill(Anew(s, ask), t.(asked := n)).started > t.started + Seats(s, t)
  {
    var s', t' := Anew(s, s.ask), t.(asked := n);
    var a, b, k := TickRisk.RiskWitness(s, t, Seats(s, t));
    TickOverrun.RiskInDoesNotAsk(s, t, s', t', a, b, k, Seats(s, t));
    TickOverrun.OverrunFrom(s', t', a, b, k);
    ask :| Overrun.AllNumbered(ask) && Overrun.Plausible(ask) && TickOverrun.Overruns(s', t', ask);
    assert s'.(ask := ask) == Anew(s, ask);
  }

  lemma LiveStartsExceed(
      codec: Codec, limits: Limits, m: Machine, s: Setting, t: Tick, s': Setting, t': Tick, after: World,
      steps: seq<Step>, end: World, scope: Scope)
    requires TickOverrun.Renumbered(s, t, s', t') && Ready(m.world, s', t'.asked)
    requires DeedPossible(codec, limits, m, Whole(s', t', after)) && StartsLead(codec, after, steps, end)
    requires |Live(end, scope)| > Limit(limits, scope)
    ensures CanExceed(codec, limits, m, s, t, scope)
  {
    assert NothingQueued(steps);
    assert Exceeds(codec, limits, m, s', t', after, steps, scope);
  }

  lemma RiskExceeds(codec: Codec, limits: Limits, m: Machine, s: Setting, t: Tick, scope: Scope)
    requires MachineInv(codec, limits, m) && m.ticking.None? && Within(limits, 0, m.world)
    requires SettingOk(s) && TickOk(s, t) && s.limits == limits && t.runs == m.world.runs && Binding(m, s, t, scope)
    requires TickRisk.TickAtRisk(s, t, Seats(s, t))
    ensures CanExceed(codec, limits, m, s, t, scope)
  {
    var n := NewNames(m.world);
    var ask := RiskStartsTooMany(s, t, n);
    var after, steps, end := TickComesAlive(codec, limits, m, s, t, n, ask, scope);
    SeatsAreLimitMinusHeld(limits, m, s, t, scope);
    LiveStartsExceed(codec, limits, m, s, t, Anew(s, ask), t.(asked := n), after, steps, end, scope);
  }

  /** From a world at rest within its limits whose counted runs all live: a tick can
      take the live providers over the limit its seats come from exactly when it
      is at risk. */
  lemma LiveLimitCanBeExceededIff(codec: Codec, limits: Limits, m: Machine, s: Setting, t: Tick, scope: Scope)
    requires MachineInv(codec, limits, m) && m.ticking.None? && m.lost == 0 && Within(limits, 0, m.world)
    requires SettingOk(s) && TickOk(s, t) && s.limits == limits && t.runs == m.world.runs && Binding(m, s, t, scope)
    ensures CanExceed(codec, limits, m, s, t, scope) <==> TickRisk.TickAtRisk(s, t, Seats(s, t))
  {
    if TickRisk.TickAtRisk(s, t, Seats(s, t)) {
      RiskExceeds(codec, limits, m, s, t, scope);
    } else if CanExceed(codec, limits, m, s, t, scope) {
      var s', t', after, steps :|
        TickOverrun.Renumbered(s, t, s', t') && Exceeds(codec, limits, m, s', t', after, steps, scope);
      OnlyRiskExceeds(codec, limits, m, s, t, s', t', after, steps, scope);
    }
  }

  // ----- Two more are reached -----

  lemma StartsReach(codec: Codec, limits: Limits, m: Machine, steps: seq<Step>, end: World)
    requires StartsLead(codec, m.world, steps, end)
    ensures Reaches(codec, limits, m, m.(world := end))
    decreases |steps|
  {
    if steps == [] {
      StayingLeads(codec, limits, m);
    } else {
      assert steps[0] in steps && forall step | step in steps[1..] :: step in steps;
      OneMoveReaches(codec, limits, m, Other(steps[0]));
      var next := Make(codec, limits, m, Other(steps[0]));
      StartsReach(codec, limits, next, steps[1..], end);
      ReachesOn(codec, limits, m, next, next.(world := end));
    }
  }

  /** One seat, and three due roles that each have a seat of their own and make what
      may be their last start: two live providers too many. */
  lemma TwoMoreAreAlive(
      codec: Codec, limits: Limits, m: Machine, s: Setting, t: Tick, scope: Scope) returns (end: World)
    requires MachineInv(codec, limits, m) && m.ticking.None? && m.lost == 0 && Within(limits, 0, m.world)
    requires SettingOk(s) && TickOk(s, t) && s.limits == limits && t.runs == m.world.runs && Binding(m, s, t, scope)
    requires Seats(s, t) == 1 && |t.due| == 3 && Overrun.AllOnTheirLast(s, t, t.due)
    ensures Reaches(codec, limits, m, m.(world := end))
    ensures |Live(end, scope)| == Limit(limits, scope) + Slack(scope)
  {
    var n := NewNames(m.world);
    var s', t' := Anew(s, s.ask), t.(asked := n);
    assert TickOk(s', t') && Overrun.AllOnTheirLast(s', t', t'.due);
    TickOverrun.TwoMoreAreStarted(s', t');
    var ask := TickOverrun.AllAgree(s', t');
    assert s'.(ask := ask) == Anew(s, ask);
    var after, steps;
    after, steps, end := TickComesAlive(codec, limits, m, s, t, n, ask, scope);
    StartsReach(codec, limits, m.(world := after), steps, end);
    ReachesOn(codec, limits, m, m.(world := after), m.(world := end));
    SeatsAreLimitMinusHeld(limits, m, s, t, scope);
    ReachingKeeps(codec, limits, m, m.(world := end));
    assert |Weighing(end, scope)| <= Limit(limits, scope) + Slack(scope) + 0;
    SubsetIsNoLarger(Live(end, scope), Weighing(end, scope));
  }

  /** One seat of the device and of its one project, and three intents with one
      start left. */
  function OneSeatForThree(): Setting {
    Overrun.OneSeat().(limits := Limits(1, _ => 1, (_, _) => 1), policies := _ => Policy(true, Some(1), 0))
  }

  function ThreeDue(): Tick {
    Overrun.TwoDue().(due := [Planner, Architect, Developer])
  }

  lemma AnEmptyLedgerIsBinding(codec: Codec, w: World, s: Setting, t: Tick, scope: Scope)
    requires Initial(w) && t.runs == map[] && SharedBy(s.project, scope)
    requires Limit(s.limits, scope) <= s.limits.device && Limit(s.limits, scope) <= s.limits.project(s.project)
    ensures MachineInv(codec, s.limits, AtRest(w)) && Within(s.limits, 0, w)
    ensures Binding(AtRest(w), s, t, scope) && Seats(s, t) == Limit(s.limits, scope)
    ensures forall role :: RoleSeats(s, t, role) == s.limits.role(s.project, role)
  {
    NothingWeighsYet(codec, s.limits, w);
    forall any
      ensures Holding(t.runs, any) == {} && Remaining(t.runs, s.limits, any) == Limit(s.limits, any)
    {
      RemainingIff(t.runs, s.limits, any);
    }
  }

  /** From any empty ledger one tick of two due roles can leave two live providers on
      a project of one. */
  lemma TwoLiveOnOneSeat(codec: Codec, w: World)
    requires Initial(w)
    ensures var s := Overrun.OneSeat(); CanExceed(codec, s.limits, AtRest(w), s, Overrun.TwoDue(), InProject(0))
  {
    var s, t, scope := Overrun.OneSeat(), Overrun.TwoDue(), InProject(0);
    Overrun.OneSeatTwoDue();
    AnEmptyLedgerIsBinding(codec, w, s, t, scope);
    assert t.due[1..] == [Developer];
    assert TickRisk.RiskIn(s, t, Planner, Developer, 1, 1);
    LiveLimitCanBeExceededIff(codec, s.limits, AtRest(w), s, t, scope);
  }

  lemma OneSeatThreeDue()
    ensures
      var s, t := OneSeatForThree(), ThreeDue();
      && SettingOk(s) && TickOk(s, t) && |t.due| == 3
      && forall role :: Overrun.MayRunOut(s.policies(role), t.live.Of(role))
  {
    Overrun.OneSeatTwoDue();
  }

  /** And one tick of three due roles three, on the project and on the device. */
  lemma ThreeLiveOnOneSeat(codec: Codec, w: World) returns (end: World)
    requires Initial(w)
    ensures Reaches(codec, OneSeatForThree().limits, AtRest(w), AtRest(end))
    ensures forall scope | scope in {Scope.Device, InProject(0)} ::
              Limit(OneSeatForThree().limits, scope) == 1 && |Live(end, scope)| == 3
  {
    var s, t := OneSeatForThree(), ThreeDue();
    AnEmptyLedgerIsBinding(codec, w, s, t, InProject(0));
    OneSeatThreeDue();
    assert Overrun.AllOnTheirLast(s, t, t.due);
    end := TwoMoreAreAlive(codec, s.limits, AtRest(w), s, t, InProject(0));
    ReachingKeeps(codec, s.limits, AtRest(w), AtRest(end));
    SubsetIsNoLarger(Live(end, InProject(0)), Live(end, Scope.Device));
    SubsetIsNoLarger(Live(end, Scope.Device), Weighing(end, Scope.Device));
    assert |Weighing(end, Scope.Device)| <= Limit(s.limits, Scope.Device) + Slack(Scope.Device) + 0;
  }
}
