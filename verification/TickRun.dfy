/** The dispatcher's tick as it is specified by `Refill`, made of the machine's
    moves: an undisturbed tick computes `Refill`, and runs whose ticks are not at
    risk keep every limit. */
module TickRun {
  import opened Prelude
  import opened EventLog
  import opened RunLedger
  import opened RunWorld
  import opened Slots
  import opened Dispatch
  import opened RefillLoop
  import opened LiveBound
  import TickRisk

  // ----- Where moves lead -----

  /** Moves lead there, and no live provider is judged blind on the way. */
  ghost predicate Reaches(codec: Codec, limits: Limits, m: Machine, m': Machine) {
    && m'.lost == m.lost
    && exists moves :: CanMake(codec, limits, m, moves) && MakeAll(codec, limits, m, moves) == m'
  }

  /** Whoever was alive still is, and so is whoever was started since. */
  ghost predicate Spares(w: World, w': World) {
    && w.spawned.Keys <= w'.spawned.Keys
    && (forall id | ProviderLives(w, id) :: ProviderLives(w', id))
    && (forall id | id in w'.spawned && id !in w.spawned :: ProviderLives(w', id))
  }

  /** Moves lead there, and they end no provider. */
  ghost predicate Leads(codec: Codec, limits: Limits, m: Machine, m': Machine) {
    && Reaches(codec, limits, m, m')
    && (Inv(codec, m.world) ==> Inv(codec, m'.world) && Spares(m.world, m'.world))
  }

  lemma StayingLeads(codec: Codec, limits: Limits, m: Machine)
    ensures Leads(codec, limits, m, m)
  {
    assert CanMake(codec, limits, m, []) && MakeAll(codec, limits, m, []) == m;
  }

  lemma OneMoveReaches(codec: Codec, limits: Limits, m: Machine, move: Move)
    requires MoveEnabled(limits, m, move) && (move.Other? ==> !LosesSight(m.world, move.step))
    ensures Reaches(codec, limits, m, Make(codec, limits, m, move))
  {
    var next := Make(codec, limits, m, move);
    assert [move][1..] == [];
    assert CanMake(codec, limits, next, []) && MakeAll(codec, limits, next, []) == next;
    assert CanMake(codec, limits, m, [move]) && MakeAll(codec, limits, m, [move]) == next;
  }

  lemma EffectSpares(w: World, id: RunId, e: Effect)
    requires e.killed.None? && (e.spawned.Some? ==> e.spawned.value.pid !in w.alive && id !in w.spawned)
    ensures Spares(w, Apply(w, id, e))
  {
  }

  lemma StartsAreUnkilled(row: Row, answers: StartAnswers)
    ensures Start(row, answers).killed.None?
  {
  }

  lemma RunStepSpares(codec: Codec, w: World, step: Step)
    requires Inv(codec, w) && Enabled(w, step) && OnRun(step) && !step.CancelRun?
    ensures Spares(w, Take(codec, w, step))
  {
    SpawnsAreNew(codec, w, step);
    assert RowOk(codec, w, step.id, w.runs[step.id]);
    match step {
      case StartRun(id, answers) => StartsAreUnkilled(w.runs[id], answers);
      case ReconcileRun(id, me, unreadable, renewCode, releaseCode) =>
        ReconcileTouchesNoProcess(w.runs[id], me, LookAt(OS(w.alive, unreadable), w.runs[id]),
                                  Outside(codec, Log(w, id), renewCode, releaseCode));
      case SweepRun(id, unreadable, releaseCode) =>
        var os := OS(w.alive, unreadable);
        SweepTouchesNoProcess(w.runs[id], ObserveSupervisor(os, w.runs[id]), ObserveProvider(os, w.runs[id]),
                              Outside(codec, Log(w, id), 0, releaseCode));
    }
    EffectSpares(w, step.id, EffectOf(codec, w, step));
  }

  /** Only an exit or a cancel ends a process. */
  lemma StepSpares(codec: Codec, w: World, step: Step)
    requires Inv(codec, w) && Enabled(w, step) && !step.ProcessExits? && !step.CancelRun?
    ensures Inv(codec, Take(codec, w, step)) && Spares(w, Take(codec, w, step))
  {
    TakeKeepsInv(codec, w, step);
    if OnRun(step) {
      RunStepSpares(codec, w, step);
    }
  }

  lemma OneMoveLeads(codec: Codec, limits: Limits, m: Machine, move: Move)
    requires MoveEnabled(limits, m, move)
    requires move.Other? ==> !LosesSight(m.world, move.step) && !move.step.ProcessExits? && !move.step.CancelRun?
    ensures Leads(codec, limits, m, Make(codec, limits, m, move))
  {
    OneMoveReaches(codec, limits, m, move);
    if Inv(codec, m.world) {
      if move.Other? {
        StepSpares(codec, m.world, move.step);
      } else if move.Launch? {
        var k := m.ticking.value;
        StepSpares(codec, m.world,
                   Enqueue(move.id, k.s.project, k.phase.role, k.tick.live.Of(k.phase.role).manual));
      }
    }
  }

  lemma {:induction false} MovesAddUp(codec: Codec, limits: Limits, m: Machine, a: seq<Move>, b: seq<Move>)
    requires CanMake(codec, limits, m, a) && CanMake(codec, limits, MakeAll(codec, limits, m, a), b)
    ensures CanMake(codec, limits, m, a + b)
    ensures MakeAll(codec, limits, m, a + b) == MakeAll(codec, limits, MakeAll(codec, limits, m, a), b)
    decreases |a|
  {
    if a == [] {
      assert a + b == b;
    } else {
      assert (a + b)[1..] == a[1..] + b;
      MovesAddUp(codec, limits, Make(codec, limits, m, a[0]), a[1..], b);
    }
  }

  lemma ReachesOn(codec: Codec, limits: Limits, a: Machine, b: Machine, c: Machine)
    requires Reaches(codec, limits, a, b) && Reaches(codec, limits, b, c)
    ensures Reaches(codec, limits, a, c)
  {
    var first :| CanMake(codec, limits, a, first) && MakeAll(codec, limits, a, first) == b;
    var second :| CanMake(codec, limits, b, second) && MakeAll(codec, limits, b, second) == c;
    MovesAddUp(codec, limits, a, first, second);
  }

  lemma SparesOn(a: World, b: World, c: World)
    requires Spares(a, b) && Spares(b, c)
    ensures Spares(a, c)
  {
    forall id | id in c.spawned && id !in a.spawned
      ensures ProviderLives(c, id)
    {
      if id in b.spawned {
        assert ProviderLives(b, id);
      }
    }
  }

  lemma LeadsOn(codec: Codec, limits: Limits, a: Machine, b: Machine, c: Machine)
    requires Leads(codec, limits, a, b) && Leads(codec, limits, b, c)
    ensures Leads(codec, limits, a, c)
  {
    ReachesOn(codec, limits, a, b, c);
    if Inv(codec, a.world) {
      SparesOn(a.world, b.world, c.world);
    }
  }

  // ----- Answers that this world can give -----

  /** The processes the answers speak of are as they say: a started one is new, a
      dead one is not there. */
  predicate Fits(w: World, ans: LaunchAnswers) {
    && PlausibleAnswers(ans) && StartPossible(w, ans.start)
    && OwnPids(ans) && (WorkerDies(ans) ==> ans.worker.value.pid !in w.alive)
  }

  ghost predicate Ready(w: World, s: Setting, asked: nat) {
    && SettingOk(s)
    && (forall n: nat | n >= asked :: s.ids(n) !in w.issued && Fits(w, s.ask(n)))
    && (forall i: nat, j: nat | asked <= i < j :: Apart(s.ask(i), s.ask(j)))
    && w.runs.Keys <= w.issued
  }

  /** At most the process these answers start is new. */
  predicate AtMostItsProcess(w: World, w': World, ans: LaunchAnswers) {
    || (w'.alive == w.alive && w'.born == w.born)
    || (ans.start.launch.Launched?
        && w'.alive == w.alive[ans.start.launch.pid := ans.start.launch.identity]
        && w'.born == w.born + {Proc(ans.start.launch.pid, ans.start.launch.identity)})
  }

  /** What a launch under its answers can have changed besides its own run. */
  predicate OnlyLaunched(w: World, w': World, id: RunId, ans: LaunchAnswers) {
    w'.issued == w.issued + {id} && w'.runs.Keys <= w'.issued && AtMostItsProcess(w, w', ans)
  }

  lemma ReadyForTheNext(w: World, w': World, s: Setting, asked: nat)
    requires Ready(w, s, asked) && OnlyLaunched(w, w', s.ids(asked), s.ask(asked))
    ensures Ready(w', s, asked + 1)
  {
    forall n: nat | n >= asked + 1
      ensures s.ids(n) !in w'.issued && Fits(w', s.ask(n))
    {
      assert s.ids(asked) != s.ids(n);
      assert Apart(s.ask(asked), s.ask(n));
    }
  }

  // ----- One launch -----

  lemma StepLeads(codec: Codec, limits: Limits, m: Machine, step: Step) returns (m': Machine)
    requires Enabled(m.world, step) && !JudgesBlind(m.world, step)
    requires !step.Enqueue? && !step.ProcessExits? && !step.CancelRun?
    ensures m' == m.(world := Take(codec, m.world, step)) && Leads(codec, limits, m, m')
  {
    OneMoveLeads(codec, limits, m, Other(step));
    m' := Make(codec, limits, m, Other(step));
  }

  /** The row of a run without a provider, once its death was noticed. */
  lemma NoticedIsReconciled(codec: Codec, w: World, id: RunId, ans: LaunchAnswers)
    requires id in w.runs && w.runs[id].state in {Queued, Reserved} && w.runs[id].provider.None?
    requires w.runs[id].supervisor.Some? ==> w.runs[id].supervisor.value.pid !in w.alive
    ensures
      var step := ReconcileRun(id, None, {}, ans.out.renewCode, ans.out.releaseCode);
      && Enabled(w, step) && !JudgesBlind(w, step)
      && EffectOf(codec, w, step) == Reconcile(w.runs[id], None, ALL_GONE, ans.out)
      && EffectOf(codec, w, step).spawned.None? && EffectOf(codec, w, step).killed.None?
  {
  }

  /** Between two states of a launch: the run's row is now `row`. */
  predicate RowBecomes(w: World, w': World, id: RunId, row: Row) {
    w'.runs == w.runs[id := row] && w'.issued == w.issued
  }

  lemma AttachIsMade(codec: Codec, limits: Limits, m: Machine, id: RunId, supervisor: Supervisor)
      returns (m': Machine)
    requires id in m.world.runs && m.world.runs[id].state == Queued
    ensures Leads(codec, limits, m, m') && m'.ticking == m.ticking
    ensures RowBecomes(m.world, m'.world, id, m.world.runs[id].(supervisor := Some(supervisor)))
    ensures m'.world.alive == m.world.alive && m'.world.born == m.world.born
  {
    m' := StepLeads(codec, limits, m, Attach(id, supervisor));
  }

  lemma StartIsMade(codec: Codec, limits: Limits, m: Machine, id: RunId, ans: LaunchAnswers)
      returns (m': Machine)
    requires id in m.world.runs && m.world.runs[id].state == Queued && Fits(m.world, ans)
    ensures Leads(codec, limits, m, m') && m'.ticking == m.ticking
    ensures RowBecomes(m.world, m'.world, id, Start(m.world.runs[id], ans.start).row)
    ensures AtMostItsProcess(m.world, m'.world, ans)
  {
    StartSpawnsWhatItLaunched(m.world.runs[id], ans.start);
    m' := StepLeads(codec, limits, m, StartRun(id, ans.start));
  }

  lemma NoticeIsMade(codec: Codec, limits: Limits, m: Machine, id: RunId, ans: LaunchAnswers)
      returns (m': Machine)
    requires id in m.world.runs && m.world.runs[id].state in {Queued, Reserved} && m.world.runs[id].provider.None?
    requires m.world.runs[id].supervisor.Some? ==> m.world.runs[id].supervisor.value.pid !in m.world.alive
    ensures Leads(codec, limits, m, m') && m'.ticking == m.ticking
    ensures RowBecomes(m.world, m'.world, id, Reconcile(m.world.runs[id], None, ALL_GONE, ans.out).row)
    ensures m'.world.alive == m.world.alive && m'.world.born == m.world.born
  {
    NoticedIsReconciled(codec, m.world, id, ans);
    m' := StepLeads(codec, limits, m, ReconcileRun(id, None, {}, ans.out.renewCode, ans.out.releaseCode));
  }

  lemma StartedRow(queued: Row, ans: StartAnswers)
    requires queued.state == Queued && queued.provider.None?
    ensures Start(queued, ans).row.supervisor == queued.supervisor
    ensures Start(queued, ans).row.state in {Queued, Reserved} ==> Start(queued, ans).row.provider.None?
  {
  }

  lemma ServingIsMade(codec: Codec, limits: Limits, m: Machine, id: RunId, ans: LaunchAnswers)
      returns (m': Machine)
    requires id in m.world.runs && m.world.runs[id].state == Queued && m.world.runs[id].provider.None?
    requires m.world.runs[id].supervisor == ans.worker && ans.worker.Some? && Fits(m.world, ans)
    ensures Leads(codec, limits, m, m') && m'.ticking == m.ticking
    ensures RowBecomes(m.world, m'.world, id, Served(m.world.runs[id], ans))
    ensures AtMostItsProcess(m.world, m'.world, ans)
  {
    var started := StartIsMade(codec, limits, m, id, ans);
    StartedRow(m.world.runs[id], ans.start);
    var row := Start(m.world.runs[id], ans.start).row;
    if WorkerDies(ans) && row.state in {Queued, Reserved} {
      m' := NoticeIsMade(codec, limits, started, id, ans);
      LeadsOn(codec, limits, m, started, m');
    } else {
      m' := started;
    }
  }

  /** The worker's part of a launch, for a run just queued. */
  lemma WorkIsMade(codec: Codec, limits: Limits, m: Machine, id: RunId, queued: Row, ans: LaunchAnswers)
      returns (m': Machine)
    requires id in m.world.runs && m.world.runs[id] == queued && Fits(m.world, ans)
    requires queued.state == Queued && queued.provider.None? && queued.supervisor.None?
    ensures Leads(codec, limits, m, m') && m'.ticking == m.ticking && AtMostItsProcess(m.world, m'.world, ans)
    ensures RowBecomes(m.world, m'.world, id,
                       if ans.worker.None? then Fail(queued, ProviderStart, Failed)
                       else Served(queued.(supervisor := ans.worker), ans))
  {
    if ans.worker.None? {
      m' := NoticeIsMade(codec, limits, m, id, ans);
    } else {
      var attached := AttachIsMade(codec, limits, m, id, ans.worker.value);
      m' := ServingIsMade(codec, limits, attached, id, ans);
      LeadsOn(codec, limits, m, attached, m');
    }
  }

  /** A run that never became an execution leaves no row. */
  lemma TidyingIsMade(codec: Codec, limits: Limits, m: Machine, id: RunId) returns (m': Machine)
    requires id in m.world.runs
    ensures Leads(codec, limits, m, m') && m'.ticking == m.ticking
    ensures m'.world.runs ==
              if m.world.runs[id].state in {Idle, NotStarted} then m.world.runs - {id} else m.world.runs
    ensures m'.world.issued == m.world.issued
    ensures m'.world.alive == m.world.alive && m'.world.born == m.world.born
  {
    if m.world.runs[id].state in {Idle, NotStarted} {
      m' := StepLeads(codec, limits, m, Forget(id));
    } else {
      StayingLeads(codec, limits, m);
      m' := m;
    }
  }

  // ----- Turns, passes, the tick -----

  /** The machine stands between two turns of the tick, which sees `t`. */
  ghost predicate Stands(m: Machine, s: Setting, t: Tick, todo: seq<Role>, progress: bool) {
    && m.ticking.Some? && Now(m) == t
    && var k := m.ticking.value;
       k.s == s && k.todo == todo && k.progress == progress && k.phase == Choosing
  }

  ghost predicate StandsAfter(m: Machine, s: Setting, turn: Turn, rest: seq<Role>, progress: bool) {
    Stands(m, s, turn.tick, if turn.stop then [] else rest, progress || turn.progress)
  }

  lemma SkipIsMade(codec: Codec, limits: Limits, m: Machine, s: Setting, t: Tick, todo: seq<Role>, progress: bool)
      returns (m': Machine)
    requires todo != [] && Stands(m, s, t, todo, progress) && Unlaunched(s, t, todo[0]).Some?
    ensures Leads(codec, limits, m, m') && m'.world == m.world
    ensures StandsAfter(m', s, TryRole(s, t, todo[0]), todo[1..], progress)
    ensures TryRole(s, t, todo[0]).tick.asked == t.asked
  {
    OneMoveLeads(codec, limits, m, Skip);
    m' := Make(codec, limits, m, Skip);
  }

  lemma ChoiceIsMade(codec: Codec, limits: Limits, m: Machine, s: Setting, t: Tick, todo: seq<Role>, progress: bool)
      returns (m': Machine)
    requires todo != [] && Stands(m, s, t, todo, progress) && Unlaunched(s, t, todo[0]).None?
    ensures Leads(codec, limits, m, m') && m'.world == m.world
    ensures m'.ticking == Some(m.ticking.value.(todo := todo[1..], phase := Launching(todo[0])))
  {
    OneMoveLeads(codec, limits, m, Choose);
    m' := Make(codec, limits, m, Choose);
  }

  /** The turn of a role that was chosen, given the outcome of its launch. */
  ghost predicate Turned(m: Machine, m': Machine, ans: LaunchAnswers)
    requires m.ticking.Some? && m.ticking.value.phase.Launching?
  {
    var k := m.ticking.value;
    var outcome := LaunchOutcome(k.s.project, k.phase.role, k.tick.live.Of(k.phase.role).manual, ans);
    StandsAfter(m', k.s, Answered(k.s, Now(m), k.phase.role, outcome), k.todo, k.progress)
  }

  lemma DeclineIsMade(codec: Codec, limits: Limits, m: Machine, ans: LaunchAnswers) returns (m': Machine)
    requires m.ticking.Some? && m.ticking.value.phase.Launching?
    requires ans.preflight.Refuse? && PlausibleAnswers(ans)
    ensures Leads(codec, limits, m, m') && m'.world == m.world && Turned(m, m', ans)
  {
    var k := m.ticking.value;
    var row := LaunchOutcome(k.s.project, k.phase.role, k.tick.live.Of(k.phase.role).manual, ans).row;
    OneMoveLeads(codec, limits, m, Decline(row));
    m' := Make(codec, limits, m, Decline(row));
  }

  lemma QueueingIsMade(codec: Codec, limits: Limits, m: Machine, id: RunId) returns (m': Machine)
    requires m.ticking.Some? && m.ticking.value.phase.Launching? && id !in m.world.issued
    ensures
      var k := m.ticking.value;
      var role := k.phase.role;
      && Leads(codec, limits, m, m')
      && m'.ticking == Some(k.(tick := k.tick.(asked := k.tick.asked + 1), phase := Waiting(role, id)))
      && m'.world.runs == m.world.runs[id := NewRow(k.s.project, role, k.tick.live.Of(role).manual, Queued)]
      && m'.world.issued == m.world.issued + {id}
      && m'.world.alive == m.world.alive && m'.world.born == m.world.born
  {
    OneMoveLeads(codec, limits, m, Move.Launch(id));
    m' := Make(codec, limits, m, Move.Launch(id));
  }

  lemma HearingIsMade(codec: Codec, limits: Limits, m: Machine, row: Row) returns (m': Machine)
    requires m.ticking.Some? && m.ticking.value.phase.Waiting?
    ensures Leads(codec, limits, m, m') && m'.world == m.world
    ensures
      var k := m.ticking.value;
      StandsAfter(m', k.s, Accounted(k.s, Now(m), k.phase.role, row), k.todo, k.progress)
  {
    OneMoveLeads(codec, limits, m, Hear(row));
    m' := Make(codec, limits, m, Hear(row));
  }

  /** What queueing and serving leave in the ledger is what the launch's outcome says. */
  lemma OutcomeInTheLedger(
      runs: map<RunId, Row>, id: RunId, project: ProjectId, role: Role, manual: seq<Target>, ans: LaunchAnswers)
    requires id !in runs && ans.preflight.Proceed? && PlausibleAnswers(ans)
    ensures
      var queued := NewRow(project, role, manual, Queued);
      var row := if ans.worker.None? then Fail(queued, ProviderStart, Failed)
                 else Served(queued.(supervisor := ans.worker), ans);
      var outcome := LaunchOutcome(project, role, manual, ans);
      && outcome.row == row
      && RunsWith(runs, id, outcome) == (if row.state in {Idle, NotStarted} then runs else runs[id := row])
      && runs[id := row] - {id} == runs
  {
  }

  /** Serving and tidying a queued run: the ledger is what the outcome says. */
  lemma OutcomeIsMade(
      codec: Codec, limits: Limits, m: Machine, runs: map<RunId, Row>, id: RunId,
      project: ProjectId, role: Role, manual: seq<Target>, ans: LaunchAnswers) returns (m': Machine)
    requires id !in runs && m.world.runs == runs[id := NewRow(project, role, manual, Queued)]
    requires ans.preflight.Proceed? && Fits(m.world, ans)
    ensures Leads(codec, limits, m, m') && m'.ticking == m.ticking && m'.world.issued == m.world.issued
    ensures AtMostItsProcess(m.world, m'.world, ans)
    ensures m'.world.runs == RunsWith(runs, id, LaunchOutcome(project, role, manual, ans))
  {
    OutcomeInTheLedger(runs, id, project, role, manual, ans);
    var worked := WorkIsMade(codec, limits, m, id, NewRow(project, role, manual, Queued), ans);
    var row := worked.world.runs[id];
    assert worked.world.runs == runs[id := row];
    m' := TidyingIsMade(codec, limits, worked, id);
    LeadsOn(codec, limits, m, worked, m');
  }

  lemma RunIsMade(codec: Codec, limits: Limits, m: Machine, id: RunId, ans: LaunchAnswers) returns (m': Machine)
    requires m.ticking.Some? && m.ticking.value.phase.Launching?
    requires id !in m.world.issued && m.world.runs.Keys <= m.world.issued
    requires ans.preflight.Proceed? && Fits(m.world, ans)
    ensures Leads(codec, limits, m, m') && OnlyLaunched(m.world, m'.world, id, ans)
    ensures
      var k := m.ticking.value;
      var role := k.phase.role;
      && m'.ticking == Some(k.(tick := k.tick.(asked := k.tick.asked + 1), phase := Waiting(role, id)))
      && m'.world.runs ==
           RunsWith(m.world.runs, id, LaunchOutcome(k.s.project, role, k.tick.live.Of(role).manual, ans))
  {
    var k := m.ticking.value;
    var queued := QueueingIsMade(codec, limits, m, id);
    m' := OutcomeIsMade(codec, limits, queued, m.world.runs, id, k.s.project, k.phase.role,
                        k.tick.live.Of(k.phase.role).manual, ans);
    LeadsOn(codec, limits, m, queued, m');
  }

  lemma AnswerIsMade(codec: Codec, limits: Limits, m: Machine, now: Tick, id: RunId, outcome: Outcome)
      returns (m': Machine)
    requires m.ticking.Some? && m.ticking.value.phase.Waiting?
    requires
      var k := m.ticking.value;
      && k.tick == now.(runs := k.tick.runs, asked := now.asked + 1) && id == k.s.ids(now.asked)
      && m.world.runs == RunsWith(now.runs, id, outcome)
    ensures Leads(codec, limits, m, m') && m'.world == m.world
    ensures
      var k := m.ticking.value;
      StandsAfter(m', k.s, Answered(k.s, now, k.phase.role, outcome), k.todo, k.progress)
  {
    var k := m.ticking.value;
    m' := HearingIsMade(codec, limits, m, outcome.row);
    assert Now(m) == now.(runs := RunsWith(now.runs, id, outcome), asked := now.asked + 1);
  }

  lemma LaunchIsMade(codec: Codec, limits: Limits, m: Machine, id: RunId, ans: LaunchAnswers) returns (m': Machine)
    requires m.ticking.Some? && m.ticking.value.phase.Launching?
    requires id !in m.world.issued && m.world.runs.Keys <= m.world.issued
    requires m.ticking.value.s.ids(m.ticking.value.tick.asked) == id
    requires ans.preflight.Proceed? && Fits(m.world, ans)
    ensures Leads(codec, limits, m, m') && Turned(m, m', ans)
    ensures OnlyLaunched(m.world, m'.world, id, ans)
  {
    var k := m.ticking.value;
    var role := k.phase.role;
    var run := RunIsMade(codec, limits, m, id, ans);
    m' := AnswerIsMade(codec, limits, run, Now(m), id,
                       LaunchOutcome(k.s.project, role, k.tick.live.Of(role).manual, ans));
    LeadsOn(codec, limits, m, run, m');
  }

  lemma AskedOnce(s: Setting, t: Tick, role: Role, outcome: Outcome)
    ensures Answered(s, t, role, outcome).tick.asked == t.asked + 1
  {
  }

  lemma TurnIsMade(codec: Codec, limits: Limits, m: Machine, s: Setting, t: Tick, todo: seq<Role>, progress: bool)
      returns (m': Machine)
    requires todo != [] && Stands(m, s, t, todo, progress) && Ready(m.world, s, t.asked)
    ensures Leads(codec, limits, m, m')
    ensures StandsAfter(m', s, TryRole(s, t, todo[0]), todo[1..], progress)
    ensures Ready(m'.world, s, TryRole(s, t, todo[0]).tick.asked)
  {
    if Unlaunched(s, t, todo[0]).Some? {
      m' := SkipIsMade(codec, limits, m, s, t, todo, progress);
    } else {
      var ans := s.ask(t.asked);
      assert Fits(m.world, ans);
      AskedOnce(s, t, todo[0], LaunchOutcome(s.project, todo[0], t.live.Of(todo[0]).manual, ans));
      var chosen := ChoiceIsMade(codec, limits, m, s, t, todo, progress);
      if ans.preflight.Refuse? {
        m' := DeclineIsMade(codec, limits, chosen, ans);
      } else {
        m' := LaunchIsMade(codec, limits, chosen, s.ids(t.asked), ans);
        ReadyForTheNext(m.world, m'.world, s, t.asked);
      }
      LeadsOn(codec, limits, m, chosen, m');
    }
  }

  lemma PassIsMade(
      codec: Codec, limits: Limits, m: Machine, s: Setting, t: Tick, todo: seq<Role>, progress: bool)
      returns (m': Machine)
    requires Stands(m, s, t, todo, progress) && Ready(m.world, s, t.asked)
    ensures
      var u := Pass(s, t, todo);
      && Leads(codec, limits, m, m') && Stands(m', s, u.tick, [], progress || u.progress)
      && Ready(m'.world, s, u.tick.asked)
    decreases |todo|
  {
    if todo == [] {
      StayingLeads(codec, limits, m);
      m' := m;
    } else {
      var turn := TryRole(s, t, todo[0]);
      var turned := TurnIsMade(codec, limits, m, s, t, todo, progress);
      if turn.stop {
        m' := turned;
      } else {
        m' := PassIsMade(codec, limits, turned, s, turn.tick, todo[1..], progress || turn.progress);
        LeadsOn(codec, limits, m, turned, m');
      }
    }
  }

  lemma OpeningIsMade(codec: Codec, limits: Limits, m: Machine, s: Setting, t: Tick) returns (m': Machine)
    requires Stands(m, s, t, [], true) && t.due != [] && Seats(s, t) > 0
    ensures Leads(codec, limits, m, m') && m'.world == m.world && Stands(m', s, t, t.due, false)
  {
    OneMoveLeads(codec, limits, m, OpenPass);
    m' := Make(codec, limits, m, OpenPass);
  }

  /** The whole refill loop is a sequence of the tick's own moves, each enabled
      where it is made. */
  lemma RefillIsMade(
      codec: Codec, limits: Limits, m: Machine, s: Setting, t: Tick) returns (m': Machine)
    requires SettingOk(s) && TickOk(s, t)
    requires Stands(m, s, t, [], true) && Ready(m.world, s, t.asked)
    ensures Leads(codec, limits, m, m')
    ensures m'.ticking.Some? && Now(m') == Refill(s, t)
    decreases Seats(s, t)
  {
    if t.due == [] || Seats(s, t) == 0 {
      StayingLeads(codec, limits, m);
      m' := m;
    } else {
      PassKeeps(s, t, t.due);
      PassSpendsSeats(s, t, t.due);
      var u := Pass(s, t, t.due);
      var openPass := OpeningIsMade(codec, limits, m, s, t);
      var passed := PassIsMade(codec, limits, openPass, s, t, t.due, false);
      LeadsOn(codec, limits, m, openPass, passed);
      if u.progress {
        m' := RefillIsMade(codec, limits, passed, s, u.tick);
        LeadsOn(codec, limits, m, passed, m');
      } else {
        m' := passed;
      }
    }
  }

  /** An undisturbed tick, from its due intents to its end, leaves the ledger that
      `Refill` computes. */
  lemma TickIsMade(codec: Codec, limits: Limits, m: Machine, s: Setting, t: Tick) returns (w': World)
    requires SettingOk(s) && TickOk(s, t) && s.limits == limits && t.runs == m.world.runs
    requires m.ticking.None? && Ready(m.world, s, t.asked)
    ensures Leads(codec, limits, m, m.(world := w')) && w'.runs == Refill(s, t).runs
  {
    OneMoveLeads(codec, limits, m, Begin(s, t));
    var begun := Make(codec, limits, m, Begin(s, t));
    var filled := RefillIsMade(codec, limits, begun, s, t);
    OneMoveLeads(codec, limits, filled, Quit);
    LeadsOn(codec, limits, m, begun, filled);
    w' := filled.world;
    LeadsOn(codec, limits, m, filled, filled.(ticking := None));
    assert filled.(ticking := None) == m.(world := w');
  }

  // ----- What a tick adds to the ledger -----

  /** A row that keeps no process: it never got a provider and is not active. */
  predicate Bare(row: Row) {
    !IsActive(row) && row.provider.None?
  }

  /** The row of one of the tick's starts. */
  ghost predicate Won(s: Setting, row: Row) {
    && CountsAsStarted(row)
    && exists n: nat, role: Role, manual: seq<Target> ::
         row == LaunchOutcome(s.project, role, manual, s.ask(n)).row
  }

  /** Old rows stay; the new rows are the project's: one for each start, and rows
      that keep no process. */
  ghost predicate Grown(s: Setting, t: Tick, t': Tick, won: set<RunId>) {
    && |won| == t'.started - t.started
    && t.runs.Keys <= t'.runs.Keys && won <= t'.runs.Keys - t.runs.Keys
    && forall id | id in t'.runs ::
         if id in t.runs then t'.runs[id] == t.runs[id]
         else t'.runs[id].project == s.project && if id in won then Won(s, t'.runs[id]) else Bare(t'.runs[id])
  }

  lemma GrownTwice(s: Setting, a: Tick, b: Tick, c: Tick, first: set<RunId>, second: set<RunId>)
    requires Grown(s, a, b, first) && Grown(s, b, c, second)
    ensures Grown(s, a, c, first + second)
  {
    assert first !! second;
  }

  lemma AnswerGrows(s: Setting, t: Tick, role: Role, outcome: Outcome) returns (won: set<RunId>)
    requires TickOk(s, t) && role in t.due && OutcomeOk(outcome, s.project, role)
    requires CountsAsStarted(outcome.row) ==> Won(s, outcome.row)
    ensures Grown(s, t, Answered(s, t, role, outcome).tick, won)
  {
    var after := t.(runs := RunsWith(t.runs, s.ids(t.asked), outcome), asked := t.asked + 1);
    won := if CountsAsStarted(outcome.row) then {s.ids(t.asked)} else {};
    if CountsAsStarted(outcome.row) {
      TakingASeat(s, after, role, outcome.row);
    }
  }

  lemma TurnGrows(s: Setting, t: Tick, role: Role) returns (won: set<RunId>)
    requires SettingOk(s) && TickOk(s, t) && role in t.due
    ensures Grown(s, t, TryRole(s, t, role).tick, won)
  {
    if Unlaunched(s, t, role).Some? {
      won := {};
    } else {
      assert PlausibleAnswers(s.ask(t.asked));
      LaunchOutcomeOk(s.project, role, t.live.Of(role).manual, s.ask(t.asked));
      var outcome := LaunchOutcome(s.project, role, t.live.Of(role).manual, s.ask(t.asked));
      won := AnswerGrows(s, t, role, outcome);
    }
  }

  lemma PassGrows(s: Setting, t: Tick, todo: seq<Role>) returns (won: set<RunId>)
    requires SettingOk(s) && TickOk(s, t) && Todo(t, todo)
    ensures Grown(s, t, Pass(s, t, todo).tick, won)
    decreases |todo|
  {
    won := {};
    if todo != [] {
      var turn := TryRole(s, t, todo[0]);
      TurnKeepsDue(s, t, todo);
      won := TurnGrows(s, t, todo[0]);
      if !turn.stop {
        var more := PassGrows(s, turn.tick, todo[1..]);
        GrownTwice(s, t, turn.tick, Pass(s, turn.tick, todo[1..]).tick, won, more);
        won := won + more;
      }
    }
  }

  lemma RefillGrows(s: Setting, t: Tick) returns (won: set<RunId>)
    requires SettingOk(s) && TickOk(s, t)
    ensures Grown(s, t, Refill(s, t), won)
    decreases Seats(s, t), 0
  {
    if t.due == [] || Seats(s, t) == 0 {
      won := {};
    } else {
      PassKeeps(s, t, t.due);
      PassSpendsSeats(s, t, t.due);
      won := PassGrows(s, t, t.due);
      if Pass(s, t, t.due).progress {
        won := GrowingOn(s, t, Pass(s, t, t.due).tick, won);
      }
    }
  }

  /** The rest of the tick after a pass. */
  lemma GrowingOn(s: Setting, t: Tick, t': Tick, first: set<RunId>) returns (won: set<RunId>)
    requires SettingOk(s) && TickOk(s, t') && Grown(s, t, t', first)
    ensures Grown(s, t, Refill(s, t'), won)
    decreases Seats(s, t'), 1
  {
    var more := RefillGrows(s, t');
    GrownTwice(s, t, t', Refill(s, t'), first, more);
    won := first + more;
  }

  // ----- What it adds to the weight -----

  /** A run that was issued before gains no weight by any of the machine's moves. */
  lemma MoveAddsNoOldWeight(codec: Codec, limits: Limits, m: Machine, move: Move, id: RunId)
    requires Inv(codec, m.world) && MoveEnabled(limits, m, move) && id in m.world.issued
    requires Weighs(Make(codec, limits, m, move).world, id)
    ensures Weighs(m.world, id)
    ensures Make(codec, limits, m, move).world.runs[id].project == m.world.runs[id].project
  {
    if move.Other? {
      StepAddsNoWeight(codec, m.world, move.step, id);
    } else if move.Launch? {
      OldRowsWeighTheSame(m.world, Enqueued(codec, m, move.id), move.id, id);
    }
  }

  lemma MoveKeepsIssued(codec: Codec, limits: Limits, m: Machine, move: Move)
    requires MoveEnabled(limits, m, move)
    ensures m.world.issued <= Make(codec, limits, m, move).world.issued
  {
  }

  lemma {:induction false} MovesAddNoOldWeight(
      codec: Codec, limits: Limits, m: Machine, moves: seq<Move>, id: RunId)
    requires MachineInv(codec, limits, m) && CanMake(codec, limits, m, moves) && id in m.world.issued
    requires Weighs(MakeAll(codec, limits, m, moves).world, id)
    ensures Weighs(m.world, id)
    ensures MakeAll(codec, limits, m, moves).world.runs[id].project == m.world.runs[id].project
    decreases |moves|
  {
    if moves != [] {
      MoveKeeps(codec, limits, m, moves[0]);
      MoveKeepsIssued(codec, limits, m, moves[0]);
      MovesAddNoOldWeight(codec, limits, Make(codec, limits, m, moves[0]), moves[1..], id);
      MoveAddsNoOldWeight(codec, limits, m, moves[0], id);
    }
  }

  lemma ReachingKeeps(codec: Codec, limits: Limits, m: Machine, m': Machine)
    requires MachineInv(codec, limits, m) && Reaches(codec, limits, m, m')
    ensures MachineInv(codec, limits, m')
    ensures forall id | id in m.world.issued && Weighs(m'.world, id) ::
              Weighs(m.world, id) && m'.world.runs[id].project == m.world.runs[id].project
  {
    var moves :| CanMake(codec, limits, m, moves) && MakeAll(codec, limits, m, moves) == m';
    MachineInvOverRuns(codec, limits, m, moves);
    forall id | id in m.world.issued && Weighs(m'.world, id)
      ensures Weighs(m.world, id) && m'.world.runs[id].project == m.world.runs[id].project
    {
      MovesAddNoOldWeight(codec, limits, m, moves, id);
    }
  }

  /** What weighs after a tick weighed before it, or is one of its starts. */
  lemma WeightAfterATick(
      codec: Codec, limits: Limits, m: Machine, s: Setting, t: Tick, w': World, t': Tick, won: set<RunId>,
      scope: Scope)
    requires MachineInv(codec, limits, m) && Reaches(codec, limits, m, m.(world := w'))
    requires t.runs == m.world.runs && w'.runs == t'.runs && Grown(s, t, t', won)
    ensures Weighing(w', scope) <= Weighing(m.world, scope) + won
    ensures scope.InProject? && scope.project != s.project ==> Weighing(w', scope) <= Weighing(m.world, scope)
  {
    ReachingKeeps(codec, limits, m, m.(world := w'));
    forall id | id in Weighing(w', scope)
      ensures id in Weighing(m.world, scope) || (id in won && w'.runs[id].project == s.project)
    {
      assert RowOk(codec, w', id, w'.runs[id]);
    }
  }

  lemma SharedLimitHolds(
      limits: Limits, lost: nat, w: World, s: Setting, t: Tick, w': World, won: set<RunId>, scope: Scope)
    requires |OutOfSight(w)| <= lost && Within(limits, lost, w) && s.limits == limits && t.runs == w.runs
    requires scope in {Scope.Device, InProject(s.project)}
    requires Weighing(w', scope) <= Weighing(w, scope) + won && |won| <= Seats(s, t)
    ensures |Weighing(w', scope)| <= Limit(limits, scope) + lost
  {
    SubsetIsNoLarger(Weighing(w', scope), Weighing(w, scope) + won);
    UnionIsNoLarger(Weighing(w, scope), won);
    WeighingHoldsSlots(w, limits, lost, scope);
    RemainingIff(w.runs, limits, scope);
    assert |Weighing(w, scope)| <= Limit(limits, scope) + lost;
  }

  /** An undisturbed tick that is not at risk keeps every limit. */
  lemma {:induction false} TickWithoutRiskKeepsTheLimits(
      codec: Codec, limits: Limits, m: Machine, s: Setting, t: Tick, w': World)
    requires MachineInv(codec, limits, m) && Within(limits, m.lost, m.world)
    requires SettingOk(s) && TickOk(s, t) && s.limits == limits && t.runs == m.world.runs
    requires !TickRisk.TickAtRisk(s, t, Seats(s, t))
    requires Reaches(codec, limits, m, m.(world := w')) && w'.runs == Refill(s, t).runs
    ensures MachineInv(codec, limits, m.(world := w')) && Within(limits, m.lost, w')
  {
    ReachingKeeps(codec, limits, m, m.(world := w'));
    TickRisk.NoRiskNoTickOverrun(s, t, Seats(s, t));
    var won := RefillGrows(s, t);
    forall scope
      ensures |Weighing(w', scope)| <= Limit(limits, scope) + m.lost
    {
      WeightAfterATick(codec, limits, m, s, t, w', Refill(s, t), won, scope);
      assert |Weighing(m.world, scope)| <= Limit(limits, scope) + m.lost;
      if scope.InRole? {
        assert |Weighing(w', scope)| <= Limit(limits, scope) + Slack(scope) + m.lost;
      } else if scope in {Scope.Device, InProject(s.project)} {
        SharedLimitHolds(limits, m.lost, m.world, s, t, w', won, scope);
      } else {
        SubsetIsNoLarger(Weighing(w', scope), Weighing(m.world, scope));
      }
    }
  }

  // ----- Runs of ticks -----

  /** One thing that happens between two rests of the dispatcher: a step of
      anything else, or a whole tick, which leaves the world `after`. */
  datatype Deed = Alone(step: Step) | Whole(s: Setting, t: Tick, after: World)

  ghost predicate DeedPossible(codec: Codec, limits: Limits, m: Machine, deed: Deed) {
    match deed
    case Alone(step) => MoveEnabled(limits, m, Other(step))
    case Whole(s, t, after) =>
      && SettingOk(s) && TickOk(s, t) && s.limits == limits && t.runs == m.world.runs
      && Reaches(codec, limits, m, m.(world := after)) && after.runs == Refill(s, t).runs
  }

  function Did(codec: Codec, limits: Limits, m: Machine, deed: Deed): Machine
    requires DeedPossible(codec, limits, m, deed)
  {
    match deed
    case Alone(step) => Make(codec, limits, m, Other(step))
    case Whole(_, _, after) => m.(world := after)
  }

  /** The deeds can happen one after the other, and no tick is at risk. */
  ghost predicate WithoutRisk(codec: Codec, limits: Limits, m: Machine, deeds: seq<Deed>)
    decreases |deeds|
  {
    deeds == [] ||
    (&& DeedPossible(codec, limits, m, deeds[0])
     && (deeds[0].Whole? ==> !TickRisk.TickAtRisk(deeds[0].s, deeds[0].t, Seats(deeds[0].s, deeds[0].t)))
     && WithoutRisk(codec, limits, Did(codec, limits, m, deeds[0]), deeds[1..]))
  }

  ghost function DidAll(codec: Codec, limits: Limits, m: Machine, deeds: seq<Deed>): Machine
    requires WithoutRisk(codec, limits, m, deeds)
    decreases |deeds|
  {
    if deeds == [] then m else DidAll(codec, limits, Did(codec, limits, m, deeds[0]), deeds[1..])
  }

  lemma StepKeepsTheLimits(codec: Codec, limits: Limits, m: Machine, step: Step)
    requires MachineInv(codec, limits, m) && Within(limits, m.lost, m.world) && MoveEnabled(limits, m, Other(step))
    ensures
      var m' := Make(codec, limits, m, Other(step));
      MachineInv(codec, limits, m') && Within(limits, m'.lost, m'.world)
  {
    OtherKeeps(codec, limits, m, step);
    forall scope
      ensures |Weighing(Take(codec, m.world, step), scope)| <= Limit(limits, scope) + m.lost
    {
      StepShrinksWeighing(codec, m.world, step, scope);
      SubsetIsNoLarger(Weighing(Take(codec, m.world, step), scope), Weighing(m.world, scope));
      assert |Weighing(m.world, scope)| <= Limit(limits, scope) + m.lost;
    }
  }

  lemma {:induction false} DeedsKeepTheLimits(codec: Codec, limits: Limits, m: Machine, deeds: seq<Deed>)
    requires MachineInv(codec, limits, m) && Within(limits, m.lost, m.world) && WithoutRisk(codec, limits, m, deeds)
    ensures
      var end := DidAll(codec, limits, m, deeds);
      MachineInv(codec, limits, end) && Within(limits, end.lost, end.world)
    decreases |deeds|
  {
    if deeds != [] {
      match deeds[0] {
        case Alone(step) => StepKeepsTheLimits(codec, limits, m, step);
        case Whole(s, t, after) => TickWithoutRiskKeepsTheLimits(codec, limits, m, s, t, after);
      }
      DeedsKeepTheLimits(codec, limits, Did(codec, limits, m, deeds[0]), deeds[1..]);
    }
  }

  /** From an empty ledger, over any run whose starts come from undisturbed ticks
      that are not at risk: no limit is exceeded by the live providers, but for one
      more for every live provider that was judged blind between the ticks. */
  lemma {:induction false} TicksWithoutRiskKeepTheLimits(
      codec: Codec, limits: Limits, w: World, deeds: seq<Deed>, scope: Scope)
    requires Initial(w) && WithoutRisk(codec, limits, AtRest(w), deeds)
    ensures
      var end := DidAll(codec, limits, AtRest(w), deeds);
      |Live(end.world, scope)| <= Limit(limits, scope) + end.lost
  {
    NothingWeighsYet(codec, limits, w);
    DeedsKeepTheLimits(codec, limits, AtRest(w), deeds);
    var end := DidAll(codec, limits, AtRest(w), deeds);
    assert |Weighing(end.world, scope)| <= Limit(limits, scope) + end.lost;
    SubsetIsNoLarger(Live(end.world, scope), Weighing(end.world, scope));
  }
}
