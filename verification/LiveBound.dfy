/** Live providers against the device, project and role limits, over every run in
    which starts are made only by the dispatcher's tick.  The tick is followed
    step by step, and between any two of its steps anything else may happen to
    the ledger and to the processes; blind judgements of live providers are
    counted, for each may cost the limits one. */
module LiveBound {
  import opened Prelude
  import opened EventLog
  import opened RunLedger
  import opened RunWorld
  import opened Slots
  import opened Dispatch
  import opened RefillLoop
  import Overrun

  // ----- The tick as a program -----

  datatype Phase =
    | Choosing                          // between two turns, or between two passes
    | Launching(role: Role)             // the role had a seat; its run is not created yet
    | Waiting(role: Role, id: RunId)    // its run is created, the answer is awaited

  /** A tick under way.  The ledger it reads is the world's, so the runs of `tick`
      are not looked at. */
  datatype Ticking = Ticking(s: Setting, tick: Tick, todo: seq<Role>, progress: bool, phase: Phase)

  /** `lost` counts the live providers that were judged blind. */
  datatype Machine = Machine(world: World, ticking: Option<Ticking>, lost: nat)

  datatype Move =
    | Other(step: Step)                 // anything but creating a run
    | Begin(s: Setting, tick: Tick)     // the due intents are collected
    | OpenPass
    | Skip                              // a turn without a launch
    | Choose
    | Decline(row: Row)                 // refused before a run is created
    | Launch(id: RunId)
    | Hear(row: Row)                    // the row the launch came back with
    | Quit                              // the tick ends, or its process dies

  /** What the tick sees now. */
  function Now(m: Machine): Tick
    requires m.ticking.Some?
  {
    m.ticking.value.tick.(runs := m.world.runs)
  }

  predicate PassMayOpen(m: Machine) {
    && m.ticking.Some?
    && var k := m.ticking.value;
       k.phase == Choosing && k.todo == [] && k.progress && k.tick.due != [] && Seats(k.s, Now(m)) > 0
  }

  predicate AtTurn(m: Machine) {
    m.ticking.Some? && m.ticking.value.phase == Choosing && m.ticking.value.todo != []
  }

  ghost predicate MoveEnabled(limits: Limits, m: Machine, move: Move) {
    match move
    case Other(step) => !step.Enqueue? && Enabled(m.world, step)
    case Begin(s, tick) => m.ticking.None? && s.limits == limits && NoDuplicates(tick.due)
    case OpenPass => PassMayOpen(m)
    case Skip => AtTurn(m) && Unlaunched(m.ticking.value.s, Now(m), m.ticking.value.todo[0]).Some?
    case Choose => AtTurn(m) && Unlaunched(m.ticking.value.s, Now(m), m.ticking.value.todo[0]).None?
    case Decline(row) => m.ticking.Some? && m.ticking.value.phase.Launching? && row.state in {Idle, NotStarted}
    case Launch(id) => m.ticking.Some? && m.ticking.value.phase.Launching? && id !in m.world.issued
    case Hear(row) => m.ticking.Some? && m.ticking.value.phase.Waiting?
    case Quit => m.ticking.Some?
  }

  /** What a finished turn leaves of the pass. */
  function Ended(k: Ticking, turn: Turn, rest: seq<Role>): Ticking {
    k.(tick := turn.tick, todo := if turn.stop then [] else rest, progress := k.progress || turn.progress,
       phase := Choosing)
  }

  function Make(codec: Codec, limits: Limits, m: Machine, move: Move): Machine
    requires MoveEnabled(limits, m, move)
  {
    match move
    case Other(step) =>
      m.(world := Take(codec, m.world, step), lost := m.lost + if LosesSight(m.world, step) then 1 else 0)
    case Begin(s, tick) => m.(ticking := Some(Ticking(s, tick, [], true, Choosing)))
    case OpenPass => m.(ticking := Some(m.ticking.value.(todo := m.ticking.value.tick.due, progress := false)))
    case Skip =>
      var k := m.ticking.value;
      m.(ticking := Some(Ended(k, Unlaunched(k.s, Now(m), k.todo[0]).value, k.todo[1..])))
    case Choose =>
      var k := m.ticking.value;
      m.(ticking := Some(k.(todo := k.todo[1..], phase := Launching(k.todo[0]))))
    case Decline(row) =>
      var k := m.ticking.value;
      var asked := Now(m).(asked := k.tick.asked + 1);
      m.(ticking := Some(Ended(k, Accounted(k.s, asked, k.phase.role, row), k.todo)))
    case Launch(id) =>
      var k := m.ticking.value;
      var role := k.phase.role;
      m.(world := Take(codec, m.world, Enqueue(id, k.s.project, role, k.tick.live.Of(role).manual)),
         ticking := Some(k.(tick := k.tick.(asked := k.tick.asked + 1), phase := Waiting(role, id))))
    case Hear(row) =>
      var k := m.ticking.value;
      m.(ticking := Some(Ended(k, Accounted(k.s, Now(m), k.phase.role, row), k.todo)))
    case Quit => m.(ticking := None)
  }

  ghost predicate CanMake(codec: Codec, limits: Limits, m: Machine, moves: seq<Move>)
    decreases |moves|
  {
    moves == [] ||
    (MoveEnabled(limits, m, moves[0]) && CanMake(codec, limits, Make(codec, limits, m, moves[0]), moves[1..]))
  }

  ghost function MakeAll(codec: Codec, limits: Limits, m: Machine, moves: seq<Move>): Machine
    requires CanMake(codec, limits, m, moves)
    decreases |moves|
  {
    if moves == [] then m else MakeAll(codec, limits, Make(codec, limits, m, moves[0]), moves[1..])
  }

  // ----- What weighs -----

  /** Runs that have a live provider, may still get one, or may be adopted again. */
  predicate Weighs(w: World, id: RunId) {
    && id in w.runs
    && (IsActive(w.runs[id]) || (IsOccupying(w.runs[id]) && RecoveryDrop(w.runs[id])) || ProviderLives(w, id))
  }

  function Weighing(w: World, scope: Scope): set<RunId> {
    set id | id in w.runs && InScope(w.runs[id], scope) && Weighs(w, id)
  }

  function Live(w: World, scope: Scope): set<RunId> {
    set id | id in w.runs && InScope(w.runs[id], scope) && ProviderLives(w, id)
  }

  lemma SweepAddsNoDrop(row: Row, worker: Observation, provider: Observation, out: Outside)
    requires IsOccupying(row)
    ensures RecoveryDrop(Sweep(row, worker, provider, out).row) ==> RecoveryDrop(row)
  {
  }

  lemma CancelLeavesNoDrop(row: Row, seen: Observation, treeDied: bool, code: int)
    ensures !IsActive(Cancel(row, seen, treeDied, code).row) && !RecoveryDrop(Cancel(row, seen, treeDied, code).row)
  {
  }

  /** No step but the creation of a run makes a run weigh that did not. */
  lemma EffectAddsNoWeight(codec: Codec, w: World, step: Step, e: Effect)
    requires Inv(codec, w) && Enabled(w, step) && OnRun(step) && e == EffectOf(codec, w, step)
    requires Weighs(Apply(w, step.id, e), step.id)
    ensures Weighs(w, step.id)
  {
    var row := w.runs[step.id];
    assert RowOk(codec, w, step.id, row);
    SpawnsAreNew(codec, w, step);
    if ProviderLives(Apply(w, step.id, e), step.id) {
      AliveAfterApply(w, step.id, e, step.id);
    }
    match step
    case SweepRun(id, unreadable, releaseCode) =>
      var os, out := OS(w.alive, unreadable), Outside(codec, Log(w, id), 0, releaseCode);
      SweepAdoptsIff(row, ObserveSupervisor(os, row), ObserveProvider(os, row), out);
      SweepAddsNoDrop(row, ObserveSupervisor(os, row), ObserveProvider(os, row), out);
    case CancelRun(id, unreadable, treeDied, releaseCode) =>
      CancelLeavesNoDrop(row, ObserveProvider(OS(w.alive, unreadable), row), treeDied, releaseCode);
    case _ =>
  }

  lemma StepAddsNoWeight(codec: Codec, w: World, step: Step, id: RunId)
    requires Inv(codec, w) && Enabled(w, step) && !step.Enqueue?
    requires Weighs(Take(codec, w, step), id)
    ensures
      var w' := Take(codec, w, step);
      && Weighs(w, id)
      && w'.runs[id].project == w.runs[id].project && w'.runs[id].role == w.runs[id].role
  {
    assert id in w.runs && RowOk(codec, w, id, w.runs[id]);
    if OnRun(step) {
      var e := EffectOf(codec, w, step);
      EffectKeepsRow(codec, w, step);
      SpawnsAreNew(codec, w, step);
      if id == step.id {
        EffectAddsNoWeight(codec, w, step, e);
      } else if ProviderLives(Apply(w, step.id, e), id) {
        AliveAfterApply(w, step.id, e, id);
      }
    }
  }

  lemma StepShrinksWeighing(codec: Codec, w: World, step: Step, scope: Scope)
    requires Inv(codec, w) && Enabled(w, step) && !step.Enqueue?
    ensures Weighing(Take(codec, w, step), scope) <= Weighing(w, scope)
  {
    forall id | id in Weighing(Take(codec, w, step), scope)
      ensures id in Weighing(w, scope)
    {
      StepAddsNoWeight(codec, w, step, id);
    }
  }

  function OutOfSight(w: World): set<RunId> {
    set id | id in w.runs && Uncounted(w, id)
  }

  lemma StepUncounts(codec: Codec, w: World, step: Step, lost: nat)
    requires Inv(codec, w) && Enabled(w, step) && |OutOfSight(w)| <= lost
    ensures |OutOfSight(Take(codec, w, step))| <= lost + if LosesSight(w, step) then 1 else 0
  {
    var w' := Take(codec, w, step);
    forall id | id in OutOfSight(w')
      ensures id in OutOfSight(w) || (LosesSight(w, step) && id == step.id)
    {
      OnlyTheBlindUncount(codec, w, step, id);
    }
    if LosesSight(w, step) {
      AtMostOneMore(OutOfSight(w'), OutOfSight(w), step.id);
    } else {
      SubsetIsNoLarger(OutOfSight(w'), OutOfSight(w));
    }
  }

  /** What weighs holds a slot or is out of sight, so a free slot leaves room for
      one more. */
  lemma WeighingHoldsSlots(w: World, limits: Limits, lost: nat, scope: Scope)
    requires |OutOfSight(w)| <= lost
    ensures |Weighing(w, scope)| <= |Holding(w.runs, scope)| + lost
    ensures Remaining(w.runs, limits, scope) > 0 ==> |Weighing(w, scope)| < Limit(limits, scope) + lost
  {
    SubsetIsNoLarger(Weighing(w, scope), Holding(w.runs, scope) + OutOfSight(w));
    UnionIsNoLarger(Holding(w.runs, scope), OutOfSight(w));
    RemainingIff(w.runs, limits, scope);
  }

  lemma OldRowsWeighTheSame(w: World, w': World, id: RunId, other: RunId)
    requires id !in w.runs && other != id
    requires id in w'.runs && w'.runs == w.runs[id := w'.runs[id]]
    requires w'.spawned == w.spawned && w'.alive == w.alive
    ensures Weighs(w', other) <==> Weighs(w, other)
  {
  }

  /** A new row weighs one, in the scopes it belongs to. */
  lemma NewRowWeighsOne(w: World, w': World, id: RunId, scope: Scope)
    requires id !in w.runs
    requires id in w'.runs && w'.runs == w.runs[id := w'.runs[id]]
    requires w'.spawned == w.spawned && w'.alive == w.alive
    ensures Weighing(w', scope) - {id} == Weighing(w, scope)
    ensures |Weighing(w', scope)| <= |Weighing(w, scope)| + 1
    ensures !InScope(w'.runs[id], scope) ==> Weighing(w', scope) == Weighing(w, scope)
  {
    forall other | other != id
      ensures other in Weighing(w', scope) <==> other in Weighing(w, scope)
    {
      OldRowsWeighTheSame(w, w', id, other);
    }
    assert Weighing(w', scope) - {id} == Weighing(w, scope);
    AtMostOneMore(Weighing(w', scope), Weighing(w, scope), id);
  }


  // ----- Two too many at most -----

  function Slack(scope: Scope): nat {
    if scope.InRole? then 0 else 2
  }

  /** The turns of the pass that may still create a run. */
  function TurnsLeft(k: Ticking): nat {
    |k.todo| + if k.phase.Launching? then 1 else 0
  }

  /** The device, and the project of the tick. */
  predicate Shared(k: Ticking, scope: Scope) {
    scope == Scope.Device || scope == InProject(k.s.project)
  }

  ghost predicate NearLimits(limits: Limits, lost: nat, w: World) {
    forall scope :: |Weighing(w, scope)| <= Limit(limits, scope) + Slack(scope) + lost
  }

  ghost predicate TickFits(limits: Limits, lost: nat, w: World, k: Ticking) {
    && k.s.limits == limits && NoDuplicates(k.tick.due)
    && (forall scope | Shared(k, scope) ::
          |Weighing(w, scope)| + TurnsLeft(k) <= Limit(limits, scope) + Slack(scope) + lost)
    && (k.phase.Launching? ==>
          var role := InRole(k.s.project, k.phase.role);
          |Weighing(w, role)| < Limit(limits, role) + lost)
  }

  ghost predicate MachineInv(codec: Codec, limits: Limits, m: Machine) {
    && Inv(codec, m.world) && |OutOfSight(m.world)| <= m.lost && NearLimits(limits, m.lost, m.world)
    && (m.ticking.Some? ==> TickFits(limits, m.lost, m.world, m.ticking.value))
  }

  lemma OtherKeeps(codec: Codec, limits: Limits, m: Machine, step: Step)
    requires MachineInv(codec, limits, m) && MoveEnabled(limits, m, Other(step))
    ensures MachineInv(codec, limits, Make(codec, limits, m, Other(step)))
  {
    var w, w' := m.world, Take(codec, m.world, step);
    TakeKeepsInv(codec, w, step);
    StepUncounts(codec, w, step, m.lost);
    forall scope
      ensures |Weighing(w', scope)| <= |Weighing(w, scope)|
    {
      StepShrinksWeighing(codec, w, step, scope);
      SubsetIsNoLarger(Weighing(w', scope), Weighing(w, scope));
    }
    LighterIsFine(limits, m, w', m.lost + if LosesSight(w, step) then 1 else 0);
  }

  lemma LighterIsFine(limits: Limits, m: Machine, w': World, lost: nat)
    requires lost >= m.lost && forall scope :: |Weighing(w', scope)| <= |Weighing(m.world, scope)|
    requires NearLimits(limits, m.lost, m.world)
    requires m.ticking.Some? ==> TickFits(limits, m.lost, m.world, m.ticking.value)
    ensures NearLimits(limits, lost, w')
    ensures m.ticking.Some? ==> TickFits(limits, lost, w', m.ticking.value)
  {
  }

  lemma AccountingKeepsDue(s: Setting, t: Tick, role: Role, row: Row)
    requires NoDuplicates(t.due)
    ensures NoDuplicates(Accounted(s, t, role, row).tick.due)
  {
    RemoveRoleRemoves(t.due, role);
  }

  /** A turn's end leaves no more turns than there were. */
  lemma EndingFits(limits: Limits, lost: nat, w: World, k: Ticking, turn: Turn, rest: seq<Role>)
    requires TickFits(limits, lost, w, k) && NoDuplicates(turn.tick.due) && |rest| <= TurnsLeft(k)
    ensures TickFits(limits, lost, w, Ended(k, turn, rest))
  {
  }

  lemma OpeningKeeps(codec: Codec, limits: Limits, m: Machine)
    requires MachineInv(codec, limits, m) && MoveEnabled(limits, m, OpenPass)
    ensures MachineInv(codec, limits, Make(codec, limits, m, OpenPass))
  {
    var k := m.ticking.value;
    Overrun.AtMostThreeRoles(k.tick.due);
    WeighingHoldsSlots(m.world, limits, m.lost, InProject(k.s.project));
    WeighingHoldsSlots(m.world, limits, m.lost, Scope.Device);
  }

  lemma ChoosingKeeps(codec: Codec, limits: Limits, m: Machine)
    requires MachineInv(codec, limits, m) && MoveEnabled(limits, m, Choose)
    ensures MachineInv(codec, limits, Make(codec, limits, m, Choose))
  {
    var k := m.ticking.value;
    WeighingHoldsSlots(m.world, limits, m.lost, InRole(k.s.project, k.todo[0]));
  }

  /** The world with one more queued run. */
  function Enqueued(codec: Codec, m: Machine, id: RunId): World
    requires m.ticking.Some? && m.ticking.value.phase.Launching? && id !in m.world.issued
  {
    var k := m.ticking.value;
    Take(codec, m.world, Enqueue(id, k.s.project, k.phase.role, k.tick.live.Of(k.phase.role).manual))
  }

  lemma LaunchWeighsOne(codec: Codec, m: Machine, id: RunId, scope: Scope)
    requires Inv(codec, m.world) && |OutOfSight(m.world)| <= m.lost
    requires m.ticking.Some? && m.ticking.value.phase.Launching? && id !in m.world.issued
    ensures
      var k, w' := m.ticking.value, Enqueued(codec, m, id);
      && Inv(codec, w') && |OutOfSight(w')| <= m.lost
      && Weighing(w', scope) - {id} == Weighing(m.world, scope)
      && |Weighing(w', scope)| <= |Weighing(m.world, scope)| + 1
      && (!Shared(k, scope) && scope != InRole(k.s.project, k.phase.role) ==>
            Weighing(w', scope) == Weighing(m.world, scope))
  {
    var k := m.ticking.value;
    var enqueue := Enqueue(id, k.s.project, k.phase.role, k.tick.live.Of(k.phase.role).manual);
    TakeKeepsInv(codec, m.world, enqueue);
    StepUncounts(codec, m.world, enqueue, m.lost);
    NewRowWeighsOne(m.world, Enqueued(codec, m, id), id, scope);
  }

  lemma LaunchKeepsScope(codec: Codec, limits: Limits, m: Machine, id: RunId, scope: Scope)
    requires MachineInv(codec, limits, m) && MoveEnabled(limits, m, Move.Launch(id))
    ensures
      var k, w' := m.ticking.value, Enqueued(codec, m, id);
      && |Weighing(w', scope)| <= Limit(limits, scope) + Slack(scope) + m.lost
      && (Shared(k, scope) ==>
            |Weighing(w', scope)| + |k.todo| <= Limit(limits, scope) + Slack(scope) + m.lost)
  {
    LaunchWeighsOne(codec, m, id, scope);
    assert |Weighing(m.world, scope)| <= Limit(limits, scope) + Slack(scope) + m.lost;
  }

  lemma LaunchKeeps(codec: Codec, limits: Limits, m: Machine, id: RunId)
    requires MachineInv(codec, limits, m) && MoveEnabled(limits, m, Move.Launch(id))
    ensures MachineInv(codec, limits, Make(codec, limits, m, Move.Launch(id)))
  {
    forall scope {
      LaunchKeepsScope(codec, limits, m, id, scope);
    }
    LaunchWeighsOne(codec, m, id, Scope.Device);
  }

  lemma BeginningKeeps(codec: Codec, limits: Limits, m: Machine, s: Setting, tick: Tick)
    requires MachineInv(codec, limits, m) && MoveEnabled(limits, m, Begin(s, tick))
    ensures MachineInv(codec, limits, Make(codec, limits, m, Begin(s, tick)))
  {
  }

  lemma SkippingKeeps(codec: Codec, limits: Limits, m: Machine)
    requires MachineInv(codec, limits, m) && MoveEnabled(limits, m, Skip)
    ensures MachineInv(codec, limits, Make(codec, limits, m, Skip))
  {
    var k := m.ticking.value;
    RemoveRoleRemoves(k.tick.due, k.todo[0]);
    EndingFits(limits, m.lost, m.world, k, Unlaunched(k.s, Now(m), k.todo[0]).value, k.todo[1..]);
  }

  lemma DecliningKeeps(codec: Codec, limits: Limits, m: Machine, row: Row)
    requires MachineInv(codec, limits, m) && MoveEnabled(limits, m, Decline(row))
    ensures MachineInv(codec, limits, Make(codec, limits, m, Decline(row)))
  {
    var k := m.ticking.value;
    var asked := Now(m).(asked := k.tick.asked + 1);
    AccountingKeepsDue(k.s, asked, k.phase.role, row);
    EndingFits(limits, m.lost, m.world, k, Accounted(k.s, asked, k.phase.role, row), k.todo);
  }

  lemma HearingKeeps(codec: Codec, limits: Limits, m: Machine, row: Row)
    requires MachineInv(codec, limits, m) && MoveEnabled(limits, m, Hear(row))
    ensures MachineInv(codec, limits, Make(codec, limits, m, Hear(row)))
  {
    var k := m.ticking.value;
    AccountingKeepsDue(k.s, Now(m), k.phase.role, row);
    EndingFits(limits, m.lost, m.world, k, Accounted(k.s, Now(m), k.phase.role, row), k.todo);
  }

  lemma MoveKeeps(codec: Codec, limits: Limits, m: Machine, move: Move)
    requires MachineInv(codec, limits, m) && MoveEnabled(limits, m, move)
    ensures MachineInv(codec, limits, Make(codec, limits, m, move))
  {
    match move
    case Other(step) => OtherKeeps(codec, limits, m, step);
    case Begin(s, tick) => BeginningKeeps(codec, limits, m, s, tick);
    case OpenPass => OpeningKeeps(codec, limits, m);
    case Choose => ChoosingKeeps(codec, limits, m);
    case Launch(id) => LaunchKeeps(codec, limits, m, id);
    case Skip => SkippingKeeps(codec, limits, m);
    case Decline(row) => DecliningKeeps(codec, limits, m, row);
    case Hear(row) => HearingKeeps(codec, limits, m, row);
    case Quit =>
  }

  lemma {:induction false} MachineInvOverRuns(codec: Codec, limits: Limits, m: Machine, moves: seq<Move>)
    requires MachineInv(codec, limits, m) && CanMake(codec, limits, m, moves)
    ensures MachineInv(codec, limits, MakeAll(codec, limits, m, moves))
    decreases |moves|
  {
    if moves != [] {
      MoveKeeps(codec, limits, m, moves[0]);
      MachineInvOverRuns(codec, limits, Make(codec, limits, m, moves[0]), moves[1..]);
    }
  }

  function AtRest(w: World): Machine {
    Machine(w, None, 0)
  }

  lemma NothingWeighsYet(codec: Codec, limits: Limits, w: World)
    requires Initial(w)
    ensures MachineInv(codec, limits, AtRest(w))
    ensures forall scope :: Weighing(w, scope) == {}
  {
    assert OutOfSight(w) == {};
  }

  /** From an empty ledger, however the tick's steps fall between everything else:
      a role's live providers never exceed its limit, and the device's and every
      project's never exceed theirs by more than two, each but for one more for
      every live provider that was judged blind. */
  lemma {:induction false} LiveProvidersStayNearLimits(
      codec: Codec, limits: Limits, w: World, moves: seq<Move>, scope: Scope)
    requires Initial(w) && CanMake(codec, limits, AtRest(w), moves)
    ensures
      var end := MakeAll(codec, limits, AtRest(w), moves);
      |Live(end.world, scope)| <= Limit(limits, scope) + Slack(scope) + end.lost
  {
    NothingWeighsYet(codec, limits, w);
    MachineInvOverRuns(codec, limits, AtRest(w), moves);
    var end := MakeAll(codec, limits, AtRest(w), moves);
    assert |Weighing(end.world, scope)| <= Limit(limits, scope) + Slack(scope) + end.lost;
    SubsetIsNoLarger(Live(end.world, scope), Weighing(end.world, scope));
  }

  // ----- When the limits hold exactly -----

  /** The pass goes on from here only with a seat: what weighs, without the run
      whose answer is awaited, is below the limit. */
  ghost predicate Licensed(limits: Limits, lost: nat, w: World, k: Ticking) {
    forall scope | Shared(k, scope) ::
      var limit := Limit(limits, scope) + lost;
      && (k.phase.Launching? || (k.phase.Choosing? && k.todo != []) ==> |Weighing(w, scope)| < limit)
      && (k.phase.Waiting? && k.todo != [] ==> |Weighing(w, scope) - {k.phase.id}| < limit)
  }

  ghost predicate Within(limits: Limits, lost: nat, w: World) {
    forall scope :: |Weighing(w, scope)| <= Limit(limits, scope) + lost
  }

  ghost predicate StrictInv(codec: Codec, limits: Limits, m: Machine) {
    && MachineInv(codec, limits, m) && Within(limits, m.lost, m.world)
    && (m.ticking.Some? ==> Licensed(limits, m.lost, m.world, m.ticking.value))
  }

  /** The intent after its start. */
  function Counted(k: Ticking, row: Row): Intent
    requires !k.phase.Choosing?
  {
    CountStart(k.tick.live.Of(k.phase.role), row)
  }

  /** An answer comes while roles are still to come in the pass. */
  predicate Answers(m: Machine, move: Move) {
    move.Hear? && m.ticking.Some? && m.ticking.value.phase.Waiting? && m.ticking.value.todo != []
  }

  /** A launch heard to have failed has neither a provider nor any way to one. */
  predicate Honest(m: Machine, move: Move) {
    Answers(m, move) && !CountsAsStarted(move.row) ==>
      var id := m.ticking.value.phase.id;
      id in m.world.runs ==> !IsActive(m.world.runs[id]) && m.world.runs[id].provider.None?
  }

  /** And a start that uses up its intent leaves a seat. */
  predicate Careful(m: Machine, move: Move) {
    && Honest(m, move)
    && (Answers(m, move) && CountsAsStarted(move.row) ==>
          var k := m.ticking.value;
          Exhausted(k.s.policies(k.phase.role), Counted(k, move.row)) ==> Seats(k.s, Now(m)) > 0)
  }

  /** After a start the pass goes on past it only with a seat, unless the start
      used up its intent. */
  lemma GoingOnNeedsASeat(s: Setting, t: Tick, role: Role, row: Row)
    requires CountsAsStarted(row)
    ensures
      var turn := Accounted(s, t, role, row);
      !turn.stop ==> Exhausted(s.policies(role), CountStart(t.live.Of(role), row)) || Seats(s, t) > 0
  {
  }

  lemma FailedRunsDoNotWeigh(codec: Codec, w: World, id: RunId, scope: Scope)
    requires Inv(codec, w) && (id in w.runs ==> !IsActive(w.runs[id]) && w.runs[id].provider.None?)
    ensures Weighing(w, scope) - {id} == Weighing(w, scope)
  {
    if id in w.runs {
      assert RowOk(codec, w, id, w.runs[id]);
    }
  }

  /** Nothing weighs more, with or without any one run. */
  ghost predicate Lighter(w: World, w': World) {
    && (forall scope :: |Weighing(w', scope)| <= |Weighing(w, scope)|)
    && (forall scope, id :: |Weighing(w', scope) - {id}| <= |Weighing(w, scope) - {id}|)
  }

  lemma StepLightens(codec: Codec, w: World, step: Step)
    requires Inv(codec, w) && Enabled(w, step) && !step.Enqueue?
    ensures Lighter(w, Take(codec, w, step))
  {
    var w' := Take(codec, w, step);
    forall scope
      ensures |Weighing(w', scope)| <= |Weighing(w, scope)|
      ensures forall id :: |Weighing(w', scope) - {id}| <= |Weighing(w, scope) - {id}|
    {
      StepShrinksWeighing(codec, w, step, scope);
      SubsetIsNoLarger(Weighing(w', scope), Weighing(w, scope));
      forall id {
        SubsetIsNoLarger(Weighing(w', scope) - {id}, Weighing(w, scope) - {id});
      }
    }
  }

  lemma OtherKeepsLicence(codec: Codec, limits: Limits, m: Machine, step: Step)
    requires StrictInv(codec, limits, m) && MoveEnabled(limits, m, Other(step))
    ensures StrictInv(codec, limits, Make(codec, limits, m, Other(step)))
  {
    OtherKeeps(codec, limits, m, step);
    StepLightens(codec, m.world, step);
    LighterIsLicensed(limits, m, Take(codec, m.world, step), m.lost + if LosesSight(m.world, step) then 1 else 0);
  }

  lemma LighterIsLicensed(limits: Limits, m: Machine, w': World, lost: nat)
    requires lost >= m.lost && Lighter(m.world, w') && Within(limits, m.lost, m.world)
    requires m.ticking.Some? ==> Licensed(limits, m.lost, m.world, m.ticking.value)
    ensures Within(limits, lost, w')
    ensures m.ticking.Some? ==> Licensed(limits, lost, w', m.ticking.value)
  {
  }

  lemma SeatsAreLicence(limits: Limits, m: Machine)
    requires m.ticking.Some? && m.ticking.value.s.limits == limits && |OutOfSight(m.world)| <= m.lost
    requires Seats(m.ticking.value.s, Now(m)) > 0
    ensures forall scope | Shared(m.ticking.value, scope) ::
              |Weighing(m.world, scope)| < Limit(limits, scope) + m.lost
  {
    WeighingHoldsSlots(m.world, limits, m.lost, InProject(m.ticking.value.s.project));
    WeighingHoldsSlots(m.world, limits, m.lost, Scope.Device);
  }

  lemma LaunchKeepsLicence(codec: Codec, limits: Limits, m: Machine, id: RunId)
    requires StrictInv(codec, limits, m) && MoveEnabled(limits, m, Move.Launch(id))
    ensures StrictInv(codec, limits, Make(codec, limits, m, Move.Launch(id)))
  {
    LaunchKeeps(codec, limits, m, id);
    forall scope
      ensures |Weighing(Enqueued(codec, m, id), scope)| <= Limit(limits, scope) + m.lost
      ensures Weighing(Enqueued(codec, m, id), scope) - {id} == Weighing(m.world, scope)
    {
      LaunchWeighsOne(codec, m, id, scope);
      assert |Weighing(m.world, scope)| <= Limit(limits, scope) + m.lost;
    }
  }

  lemma HearingKeepsLicence(codec: Codec, limits: Limits, m: Machine, row: Row)
    requires StrictInv(codec, limits, m) && MoveEnabled(limits, m, Hear(row)) && Careful(m, Hear(row))
    ensures StrictInv(codec, limits, Make(codec, limits, m, Hear(row)))
  {
    HearingKeeps(codec, limits, m, row);
    var k := m.ticking.value;
    if k.todo != [] {
      if CountsAsStarted(row) {
        GoingOnNeedsASeat(k.s, Now(m), k.phase.role, row);
        if Seats(k.s, Now(m)) > 0 {
          SeatsAreLicence(limits, m);
        }
      } else {
        FailedRunsDoNotWeigh(codec, m.world, k.phase.id, Scope.Device);
        FailedRunsDoNotWeigh(codec, m.world, k.phase.id, InProject(k.s.project));
      }
    }
  }

  lemma MoveKeepsLicence(codec: Codec, limits: Limits, m: Machine, move: Move)
    requires StrictInv(codec, limits, m) && MoveEnabled(limits, m, move) && Careful(m, move)
    ensures StrictInv(codec, limits, Make(codec, limits, m, move))
  {
    MoveKeeps(codec, limits, m, move);
    match move
    case Other(step) => OtherKeepsLicence(codec, limits, m, step);
    case OpenPass => SeatsAreLicence(limits, m);
    case Launch(id) => LaunchKeepsLicence(codec, limits, m, id);
    case Hear(row) => HearingKeepsLicence(codec, limits, m, row);
    case _ =>
  }

  /** Every move along the run is good where it is made. */
  ghost predicate Throughout(
      codec: Codec, limits: Limits, m: Machine, moves: seq<Move>, good: (Machine, Move) -> bool)
    requires CanMake(codec, limits, m, moves)
    decreases |moves|
  {
    moves == [] ||
    (good(m, moves[0]) && Throughout(codec, limits, Make(codec, limits, m, moves[0]), moves[1..], good))
  }

  lemma {:induction false} LicenceOverRuns(codec: Codec, limits: Limits, m: Machine, moves: seq<Move>)
    requires StrictInv(codec, limits, m) && CanMake(codec, limits, m, moves)
    requires Throughout(codec, limits, m, moves, Careful)
    ensures StrictInv(codec, limits, MakeAll(codec, limits, m, moves))
    decreases |moves|
  {
    if moves != [] {
      MoveKeepsLicence(codec, limits, m, moves[0]);
      LicenceOverRuns(codec, limits, Make(codec, limits, m, moves[0]), moves[1..]);
    }
  }

  /** From an empty ledger, however the tick's steps fall between everything else,
      as long as no start uses up its intent on the last seat with roles still to
      come: no limit is ever exceeded, but for one more for every live provider
      that was judged blind. */
  lemma {:induction false} CarefulTicksKeepTheLimits(
      codec: Codec, limits: Limits, w: World, moves: seq<Move>, scope: Scope)
    requires Initial(w) && CanMake(codec, limits, AtRest(w), moves)
    requires Throughout(codec, limits, AtRest(w), moves, Careful)
    ensures
      var end := MakeAll(codec, limits, AtRest(w), moves);
      |Live(end.world, scope)| <= Limit(limits, scope) + end.lost
  {
    NothingWeighsYet(codec, limits, w);
    LicenceOverRuns(codec, limits, AtRest(w), moves);
    var end := MakeAll(codec, limits, AtRest(w), moves);
    assert |Weighing(end.world, scope)| <= Limit(limits, scope) + end.lost;
    SubsetIsNoLarger(Live(end.world, scope), Weighing(end.world, scope));
  }

  /** Intents that no number of starts uses up. */
  predicate Endless(s: Setting, tick: Tick) {
    forall role :: s.policies(role).executionLimit.None? && !tick.live.Of(role).manualMode
  }

  predicate EndlessTick(m: Machine) {
    m.ticking.Some? ==> Endless(m.ticking.value.s, m.ticking.value.tick)
  }

  predicate HonestAndEndless(m: Machine, move: Move) {
    Honest(m, move) && (move.Begin? ==> Endless(move.s, move.tick))
  }

  lemma AccountingStaysEndless(s: Setting, t: Tick, role: Role, row: Row)
    requires Endless(s, t)
    ensures Endless(s, Accounted(s, t, role, row).tick)
  {
  }

  lemma MoveStaysEndless(codec: Codec, limits: Limits, m: Machine, move: Move)
    requires EndlessTick(m) && MoveEnabled(limits, m, move) && HonestAndEndless(m, move)
    ensures EndlessTick(Make(codec, limits, m, move)) && Careful(m, move)
  {
    if m.ticking.Some? {
      var k, now := m.ticking.value, Now(m);
      if move.Hear? {
        AccountingStaysEndless(k.s, now, k.phase.role, move.row);
      } else if move.Decline? {
        AccountingStaysEndless(k.s, now.(asked := k.tick.asked + 1), k.phase.role, move.row);
      }
    }
  }

  lemma {:induction false} EndlessIsCareful(codec: Codec, limits: Limits, m: Machine, moves: seq<Move>)
    requires EndlessTick(m) && CanMake(codec, limits, m, moves)
    requires Throughout(codec, limits, m, moves, HonestAndEndless)
    ensures Throughout(codec, limits, m, moves, Careful)
    decreases |moves|
  {
    if moves != [] {
      MoveStaysEndless(codec, limits, m, moves[0]);
      EndlessIsCareful(codec, limits, Make(codec, limits, m, moves[0]), moves[1..]);
    }
  }

  /** In particular, with no execution limits and no manual intents. */
  lemma {:induction false} EndlessIntentsKeepTheLimits(
      codec: Codec, limits: Limits, w: World, moves: seq<Move>, scope: Scope)
    requires Initial(w) && CanMake(codec, limits, AtRest(w), moves)
    requires Throughout(codec, limits, AtRest(w), moves, HonestAndEndless)
    ensures
      var end := MakeAll(codec, limits, AtRest(w), moves);
      |Live(end.world, scope)| <= Limit(limits, scope) + end.lost
  {
    EndlessIsCareful(codec, limits, AtRest(w), moves);
    CarefulTicksKeepTheLimits(codec, limits, w, moves, scope);
  }
}
