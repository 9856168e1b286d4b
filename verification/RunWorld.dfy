/** The ledger among processes that start, exit and reuse pids: the atomic steps
    of every operation, the invariant they all keep, and what it gives over
    whole runs. */
module RunWorld {
  import opened Prelude
  import opened EventLog
  import opened RunLedger

  datatype World = World(
    runs: map<RunId, Row>,
    stored: map<RunId, seq<Event>>,   // the event table
    logs: map<RunId, seq<byte>>,      // the event files
    alive: map<Pid, Identity>,        // live processes
    born: set<Proc>,                  // every process there ever was
    spawned: map<RunId, Proc>,        // the process each run recorded as its provider
    returned: set<RunId>,             // runs whose own lease release was answered 0 or 5
    issued: set<RunId>)               // run ids never come twice

  function Log(w: World, id: RunId): seq<byte> {
    if id in w.logs then w.logs[id] else []
  }

  function Stored(w: World, id: RunId): seq<Event> {
    if id in w.stored then w.stored[id] else []
  }

  predicate Lives(w: World, p: Proc) {
    p.pid in w.alive && w.alive[p.pid] == p.identity
  }

  /** The run's provider process is alive, whatever the ledger says about it. */
  predicate ProviderLives(w: World, id: RunId) {
    id in w.spawned && Lives(w, w.spawned[id])
  }

  datatype Step =
    | ProcessStarts(proc: Proc)
    | ProcessExits(pid: Pid)
    | FileGrows(id: RunId, bytes: seq<byte>)
    | Enqueue(id: RunId, project: ProjectId, role: Role, manual: seq<Target>)
    | Attach(id: RunId, supervisor: Supervisor)
    | StartRun(id: RunId, answers: StartAnswers)
    | ReconcileRun(id: RunId, me: Option<Pid>, unreadable: set<Pid>, renewCode: int, releaseCode: int)
    | SweepRun(id: RunId, unreadable: set<Pid>, releaseCode: int)
    | CancelRun(id: RunId, unreadable: set<Pid>, treeDied: bool, releaseCode: int)
    | Forget(id: RunId)

  /** When a step can happen: what the operation itself checks first, and what
      the operating system and the store guarantee. */
  predicate Enabled(w: World, step: Step) {
    match step
    case ProcessStarts(proc) => proc !in w.born && proc.pid !in w.alive
    case ProcessExits(pid) => pid in w.alive
    case FileGrows(id, bytes) => id in w.issued
    case Enqueue(id, project, role, manual) => id !in w.issued
    case Attach(id, supervisor) => id in w.runs && w.runs[id].state == Queued
    case StartRun(id, answers) => id in w.runs && w.runs[id].state == Queued && StartPossible(w, answers)
    case ReconcileRun(id, me, unreadable, renewCode, releaseCode) => id in w.runs && IsActive(w.runs[id])
    case SweepRun(id, unreadable, releaseCode) => id in w.runs && IsOccupying(w.runs[id])
    case CancelRun(id, unreadable, treeDied, releaseCode) => id in w.runs
    case Forget(id) => id in w.runs && !HoldsSlot(w.runs[id])
  }

  predicate StartPossible(w: World, ans: StartAnswers) {
    && (ans.preflight.Refuse? ==> ans.preflight.state in {Idle, NotStarted})
    && (ans.launch.Launched? ==>
          Proc(ans.launch.pid, ans.launch.identity) !in w.born && ans.launch.pid !in w.alive)
    && ans.readBack
  }

  /** The effect of a step on the run it is about. */
  function EffectOf(codec: Codec, w: World, step: Step): Effect
    requires Enabled(w, step)
    requires step.StartRun? || step.ReconcileRun? || step.SweepRun? || step.CancelRun?
  {
    match step
    case StartRun(id, answers) => Start(w.runs[id], answers)
    case ReconcileRun(id, me, unreadable, renewCode, releaseCode) =>
      Reconcile(w.runs[id], me, LookAt(OS(w.alive, unreadable), w.runs[id]),
                Outside(codec, Log(w, id), renewCode, releaseCode))
    case SweepRun(id, unreadable, releaseCode) =>
      var os := OS(w.alive, unreadable);
      Sweep(w.runs[id], ObserveSupervisor(os, w.runs[id]), ObserveProvider(os, w.runs[id]),
            Outside(codec, Log(w, id), 0, releaseCode))
    case CancelRun(id, unreadable, treeDied, releaseCode) =>
      Cancel(w.runs[id], ObserveProvider(OS(w.alive, unreadable), w.runs[id]), treeDied, releaseCode)
  }

  /** `append_events`: an empty batch writes nothing. */
  function Appended(stored: map<RunId, seq<Event>>, id: RunId, events: seq<Event>): map<RunId, seq<Event>> {
    if events == [] then stored
    else stored[id := (if id in stored then stored[id] else []) + events]
  }

  function Apply(w: World, id: RunId, e: Effect): World {
    var alive := match e.spawned
                 case Some(p) => w.alive[p.pid := p.identity]
                 case None => w.alive;
    w.(runs := w.runs[id := e.row],
       stored := Appended(w.stored, id, e.events),
       alive := if e.killed.Some? then alive - {e.killed.value} else alive,
       born := if e.spawned.Some? then w.born + {e.spawned.value} else w.born,
       spawned := if e.spawned.Some? && e.row.provider.Some? then w.spawned[id := e.spawned.value] else w.spawned,
       returned := if GaveBack(e.call) then w.returned + {id} else w.returned)
  }

  function Take(codec: Codec, w: World, step: Step): World
    requires Enabled(w, step)
  {
    match step
    case ProcessStarts(proc) => w.(alive := w.alive[proc.pid := proc.identity], born := w.born + {proc})
    case ProcessExits(pid) => w.(alive := w.alive - {pid})
    case FileGrows(id, bytes) => w.(logs := w.logs[id := Log(w, id) + bytes])
    case Enqueue(id, project, role, manual) =>
      w.(runs := w.runs[id := NewRow(project, role, manual, Queued)], issued := w.issued + {id})
    case Attach(id, supervisor) => w.(runs := w.runs[id := w.runs[id].(supervisor := Some(supervisor))])
    case Forget(id) => w.(runs := w.runs - {id}, stored := w.stored - {id})
    case _ => Apply(w, step.id, EffectOf(codec, w, step))
  }

  // ----- The invariant -----

  /** The recorded handle, when there is one, names the run's real process. */
  predicate HandleOk(w: World, id: RunId, row: Row) {
    && (row.provider.Some? <==> id in w.spawned)
    && (row.provider.Some? ==>
          && w.spawned[id] in w.born
          && w.spawned[id].pid == row.provider.value.pid
          && (row.provider.value.identity.Some? ==> row.provider.value.identity.value == w.spawned[id].identity))
  }

  /** Lease conservation: a run that recorded a lease is finished only after its
      release was answered 0 or 5, and a dropped run that no longer lists the
      release as open has released already. */
  predicate LeaseOk(w: World, id: RunId, row: Row) {
    CountsLeaseAsBack(row) ==> id in w.returned
  }

  /** Exactly-once draining: the stored events are those of the file's first
      `lastOffset` bytes, in order, each once. */
  predicate EventsOk(codec: Codec, w: World, id: RunId, row: Row) {
    && OnBoundary(Log(w, id), row.lastOffset)
    && Stored(w, id) == EventsUpTo(codec, Log(w, id), row.lastOffset)
  }

  predicate RowOk(codec: Codec, w: World, id: RunId, row: Row) {
    HandleOk(w, id, row) && StateOk(row) && LeaseOk(w, id, row) && EventsOk(codec, w, id, row)
  }

  ghost predicate Inv(codec: Codec, w: World) {
    && (forall pid | pid in w.alive :: Proc(pid, w.alive[pid]) in w.born)
    && w.runs.Keys <= w.issued && w.spawned.Keys <= w.issued && w.stored.Keys <= w.issued
    && w.logs.Keys <= w.issued
    && (forall id | id in w.runs :: RowOk(codec, w, id, w.runs[id]))
  }

  ghost predicate Initial(w: World) {
    && w.runs == map[] && w.stored == map[] && w.logs == map[] && w.spawned == map[] && w.issued == {}
    && (forall pid | pid in w.alive :: Proc(pid, w.alive[pid]) in w.born)
  }

  // ----- Every step keeps the invariant -----

  predicate OnRun(step: Step) {
    step.StartRun? || step.ReconcileRun? || step.SweepRun? || step.CancelRun?
  }

  lemma EffectKeepsRow(codec: Codec, w: World, step: Step)
    requires Inv(codec, w) && Enabled(w, step) && OnRun(step)
    ensures KeepsRow(codec, Log(w, step.id), w.runs[step.id], EffectOf(codec, w, step))
  {
    var row, log := w.runs[step.id], Log(w, step.id);
    assert RowOk(codec, w, step.id, row);
    match step
    case StartRun(id, answers) => StartKeeps(codec, log, row, answers);
    case ReconcileRun(id, me, unreadable, renewCode, releaseCode) =>
      ReconcileKeeps(row, me, LookAt(OS(w.alive, unreadable), row), Outside(codec, log, renewCode, releaseCode));
    case SweepRun(id, unreadable, releaseCode) =>
      var os := OS(w.alive, unreadable);
      SweepKeeps(row, ObserveSupervisor(os, row), ObserveProvider(os, row), Outside(codec, log, 0, releaseCode));
    case CancelRun(id, unreadable, treeDied, releaseCode) =>
      CancelKeeps(codec, log, row, ObserveProvider(OS(w.alive, unreadable), row), treeDied, releaseCode);
  }

  /** Only a start creates a process, and it is a new one. */
  lemma SpawnsAreNew(codec: Codec, w: World, step: Step)
    requires Enabled(w, step) && OnRun(step)
    ensures
      var e := EffectOf(codec, w, step);
      e.spawned.Some? ==> e.spawned.value !in w.born && e.spawned.value.pid !in w.alive
  {
  }

  lemma ApplyKeepsItsRow(codec: Codec, w: World, id: RunId, e: Effect)
    requires Inv(codec, w) && id in w.runs
    requires KeepsRow(codec, Log(w, id), w.runs[id], e)
    ensures RowOk(codec, Apply(w, id, e), id, e.row)
  {
    assert RowOk(codec, w, id, w.runs[id]);
    DrainExtendsPrefix(codec, Log(w, id), w.runs[id].lastOffset);
  }

  lemma ApplyKeepsOtherRows(codec: Codec, w: World, id: RunId, e: Effect, other: RunId)
    requires Inv(codec, w) && other in w.runs && other != id
    ensures RowOk(codec, Apply(w, id, e), other, w.runs[other])
  {
    assert RowOk(codec, w, other, w.runs[other]);
  }

  lemma ApplyKeepsInv(codec: Codec, w: World, id: RunId, e: Effect)
    requires Inv(codec, w) && id in w.runs
    requires KeepsRow(codec, Log(w, id), w.runs[id], e)
    ensures Inv(codec, Apply(w, id, e))
  {
    ApplyKeepsItsRow(codec, w, id, e);
    forall other | other in w.runs && other != id {
      ApplyKeepsOtherRows(codec, w, id, e, other);
    }
  }

  /** Growing one run's file. */
  lemma GrowthKeepsRow(codec: Codec, w: World, grown: RunId, bytes: seq<byte>, id: RunId)
    requires Inv(codec, w) && Enabled(w, FileGrows(grown, bytes)) && id in w.runs
    ensures RowOk(codec, Take(codec, w, FileGrows(grown, bytes)), id, w.runs[id])
  {
    assert RowOk(codec, w, id, w.runs[id]);
    if grown == id {
      PrefixSurvivesAppend(codec, Log(w, id), bytes, w.runs[id].lastOffset);
    }
  }

  /** The world's own steps, and those that create or forget a row. */
  lemma QuietStepKeepsRow(codec: Codec, w: World, step: Step, id: RunId)
    requires Inv(codec, w) && Enabled(w, step) && !OnRun(step)
    requires id in Take(codec, w, step).runs
    ensures RowOk(codec, Take(codec, w, step), id, Take(codec, w, step).runs[id])
  {
    if step.FileGrows? {
      GrowthKeepsRow(codec, w, step.id, step.bytes, id);
    } else if id in w.runs {
      assert RowOk(codec, w, id, w.runs[id]);
    }
  }

  lemma TakeKeepsInv(codec: Codec, w: World, step: Step)
    requires Inv(codec, w) && Enabled(w, step)
    ensures Inv(codec, Take(codec, w, step))
  {
    if OnRun(step) {
      EffectKeepsRow(codec, w, step);
      ApplyKeepsInv(codec, w, step.id, EffectOf(codec, w, step));
    } else {
      forall id | id in Take(codec, w, step).runs {
        QuietStepKeepsRow(codec, w, step, id);
      }
    }
  }

  // ----- Whole runs -----

  /** A sequence of steps that can happen one after the other. */
  predicate Possible(codec: Codec, w: World, steps: seq<Step>)
    decreases |steps|
  {
    steps == [] || (Enabled(w, steps[0]) && Possible(codec, Take(codec, w, steps[0]), steps[1..]))
  }

  function After(codec: Codec, w: World, steps: seq<Step>): World
    requires Possible(codec, w, steps)
    decreases |steps|
  {
    if steps == [] then w else After(codec, Take(codec, w, steps[0]), steps[1..])
  }

  /** Whatever the dispatcher, its crashes and the operating system do, in any
      order: leases are conserved, events are drained exactly once, and every
      recorded handle names its run's own process. */
  lemma {:induction false} InvariantOverRuns(codec: Codec, w: World, steps: seq<Step>)
    requires Inv(codec, w) && Possible(codec, w, steps)
    ensures Inv(codec, After(codec, w, steps))
    decreases |steps|
  {
    if steps != [] {
      TakeKeepsInv(codec, w, steps[0]);
      InvariantOverRuns(codec, Take(codec, w, steps[0]), steps[1..]);
    }
  }

  /** A finished run that had recorded a lease has given that lease back. */
  lemma {:induction false} FinishedRunsGaveTheirLeaseBack(codec: Codec, w: World, steps: seq<Step>, id: RunId)
    requires Initial(w) && Possible(codec, w, steps)
    requires id in After(codec, w, steps).runs
    ensures
      var end := After(codec, w, steps);
      var row := end.runs[id];
      row.lease.Some? && id !in end.returned ==>
        IsActive(row) || (row.state == RecoveryRequired && (row.remaining == [] || LeaseRelease in row.remaining))
  {
    InvariantOverRuns(codec, w, steps);
    var end := After(codec, w, steps);
    assert RowOk(codec, end, id, end.runs[id]);
  }

  /** The event table holds the file's complete lines up to the saved offset. */
  lemma {:induction false} EventsAreDrainedExactlyOnce(codec: Codec, w: World, steps: seq<Step>, id: RunId)
    requires Initial(w) && Possible(codec, w, steps)
    requires id in After(codec, w, steps).runs
    ensures
      var end := After(codec, w, steps);
      var row := end.runs[id];
      && OnBoundary(Log(end, id), row.lastOffset)
      && Stored(end, id) == DecodeAll(codec, Lines(Log(end, id), 0, row.lastOffset))
  {
    InvariantOverRuns(codec, w, steps);
    var end := After(codec, w, steps);
    assert RowOk(codec, end, id, end.runs[id]);
  }

  // ----- Slots -----

  /** Every live provider of a run in the ledger is counted against the limits. */
  ghost predicate SlotsHeld(w: World) {
    forall id | id in w.runs && ProviderLives(w, id) :: HoldsSlot(w.runs[id])
  }

  /** Reconciling reaches the provider's own judgement although the provider
      cannot be read, or was recorded without an identity to compare. */
  predicate JudgesBlind(w: World, step: Step) {
    && step.ReconcileRun? && step.id in w.runs
    && BlindTo(w.runs[step.id], step.me, LookAt(OS(w.alive, step.unreadable), w.runs[step.id]))
  }

  /** Reconciling a run whose provider is alive frees its slot exactly when it
      judges blind. */
  lemma ReconcileFreesALiveSlotIffBlind(codec: Codec, w: World, step: Step)
    requires Inv(codec, w) && Enabled(w, step) && step.ReconcileRun? && ProviderLives(w, step.id)
    ensures HoldsSlot(EffectOf(codec, w, step).row) <==> !JudgesBlind(w, step)
  {
    var row := w.runs[step.id];
    assert RowOk(codec, w, step.id, row);
    ReconcileSlot(row, step.me, LookAt(OS(w.alive, step.unreadable), row),
                  Outside(codec, Log(w, step.id), step.renewCode, step.releaseCode), w.spawned[step.id].identity);
  }

  /** A provider alive after an effect was alive before and was not killed, or
      is the one just created. */
  lemma AliveAfterApply(w: World, id: RunId, e: Effect, other: RunId)
    requires other in w.spawned ==> w.spawned[other] in w.born
    requires e.spawned.Some? ==> e.spawned.value !in w.born
    requires ProviderLives(Apply(w, id, e), other)
    ensures
      || (other == id && e.spawned.Some? && e.row.provider.Some?)
      || (ProviderLives(w, other) && e.killed != Some(w.spawned[other].pid))
  {
  }

  lemma StartStepHoldsSlot(codec: Codec, w: World, step: Step)
    requires Inv(codec, w) && Enabled(w, step) && step.StartRun?
    ensures EffectOf(codec, w, step).row.provider.Some? ==> HoldsSlot(EffectOf(codec, w, step).row)
    ensures !ProviderLives(w, step.id)
  {
    assert RowOk(codec, w, step.id, w.runs[step.id]);
    StartSlot(w.runs[step.id], step.answers);
  }

  lemma SweepStepHoldsSlot(codec: Codec, w: World, step: Step)
    requires Inv(codec, w) && Enabled(w, step) && step.SweepRun? && ProviderLives(w, step.id)
    ensures HoldsSlot(EffectOf(codec, w, step).row)
  {
    var row := w.runs[step.id];
    assert RowOk(codec, w, step.id, row);
    var os := OS(w.alive, step.unreadable);
    SweepSlot(row, ObserveSupervisor(os, row), ObserveProvider(os, row),
              Outside(codec, Log(w, step.id), 0, step.releaseCode), w.spawned[step.id].identity);
  }

  lemma CancelStepHoldsSlot(codec: Codec, w: World, step: Step)
    requires Inv(codec, w) && Enabled(w, step) && step.CancelRun? && ProviderLives(w, step.id)
    ensures
      var e := EffectOf(codec, w, step);
      HoldsSlot(e.row) || e.killed == Some(w.spawned[step.id].pid)
  {
    var row := w.runs[step.id];
    assert RowOk(codec, w, step.id, row);
    CancelSlot(row, ObserveProvider(OS(w.alive, step.unreadable), row), step.treeDied, step.releaseCode);
  }

  lemma RunStepHoldsSlot(codec: Codec, w: World, step: Step, e: Effect)
    requires Inv(codec, w) && Enabled(w, step) && OnRun(step) && !JudgesBlind(w, step)
    requires e == EffectOf(codec, w, step)
    requires
      || (e.spawned.Some? && e.row.provider.Some?)
      || (ProviderLives(w, step.id) && e.killed != Some(w.spawned[step.id].pid))
    ensures HoldsSlot(e.row)
  {
    match step
    case StartRun(_, _) => StartStepHoldsSlot(codec, w, step);
    case ReconcileRun(id, me, unreadable, renewCode, releaseCode) =>
      ReconcileTouchesNoProcess(w.runs[id], me, LookAt(OS(w.alive, unreadable), w.runs[id]),
                                Outside(codec, Log(w, id), renewCode, releaseCode));
      ReconcileFreesALiveSlotIffBlind(codec, w, step);
    case SweepRun(id, unreadable, releaseCode) =>
      var os := OS(w.alive, unreadable);
      SweepTouchesNoProcess(w.runs[id], ObserveSupervisor(os, w.runs[id]), ObserveProvider(os, w.runs[id]),
                            Outside(codec, Log(w, id), 0, releaseCode));
      SweepStepHoldsSlot(codec, w, step);
    case CancelRun(_, _, _, _) => CancelStepHoldsSlot(codec, w, step);
  }

  /** A live provider that is not counted. */
  predicate Uncounted(w: World, id: RunId) {
    id in w.runs && ProviderLives(w, id) && !HoldsSlot(w.runs[id])
  }

  /** The step judges a provider blind that is alive. */
  predicate LosesSight(w: World, step: Step) {
    JudgesBlind(w, step) && ProviderLives(w, step.id)
  }

  lemma EffectUncountsOnlyTheBlind(codec: Codec, w: World, step: Step, e: Effect, id: RunId)
    requires Inv(codec, w) && Enabled(w, step) && OnRun(step) && e == EffectOf(codec, w, step)
    requires Uncounted(Apply(w, step.id, e), id)
    ensures Uncounted(w, id) || (LosesSight(w, step) && id == step.id)
  {
    SpawnsAreNew(codec, w, step);
    assert id in w.runs && RowOk(codec, w, id, w.runs[id]);
    AliveAfterApply(w, step.id, e, id);
    if step.id == id {
      if !JudgesBlind(w, step) {
        RunStepHoldsSlot(codec, w, step, e);
      } else {
        ReconcileTouchesNoProcess(w.runs[id], step.me, LookAt(OS(w.alive, step.unreadable), w.runs[id]),
                                  Outside(codec, Log(w, id), step.renewCode, step.releaseCode));
      }
    }
  }

  /** Only a blind judgement leaves a live provider uncounted that was counted. */
  lemma OnlyTheBlindUncount(codec: Codec, w: World, step: Step, id: RunId)
    requires Inv(codec, w) && Enabled(w, step) && Uncounted(Take(codec, w, step), id)
    ensures Uncounted(w, id) || (LosesSight(w, step) && id == step.id)
  {
    if OnRun(step) {
      EffectUncountsOnlyTheBlind(codec, w, step, EffectOf(codec, w, step), id);
    } else if id in w.runs {
      assert RowOk(codec, w, id, w.runs[id]);
    }
  }

  lemma TakeKeepsSlots(codec: Codec, w: World, step: Step)
    requires Inv(codec, w) && SlotsHeld(w) && Enabled(w, step) && !JudgesBlind(w, step)
    ensures SlotsHeld(Take(codec, w, step))
  {
    var w' := Take(codec, w, step);
    forall id | id in w'.runs && ProviderLives(w', id)
      ensures HoldsSlot(w'.runs[id])
    {
      if Uncounted(w', id) {
        OnlyTheBlindUncount(codec, w, step, id);
      }
    }
  }

  ghost predicate NeverBlind(codec: Codec, w: World, steps: seq<Step>)
    requires Possible(codec, w, steps)
    decreases |steps|
  {
    steps == [] || (!JudgesBlind(w, steps[0]) && NeverBlind(codec, Take(codec, w, steps[0]), steps[1..]))
  }

  /** Over any run without a blind judgement, no live provider is ever uncounted. */
  lemma {:induction false} LiveProvidersHoldSlots(codec: Codec, w: World, steps: seq<Step>)
    requires Inv(codec, w) && SlotsHeld(w) && Possible(codec, w, steps) && NeverBlind(codec, w, steps)
    ensures SlotsHeld(After(codec, w, steps))
    decreases |steps|
  {
    if steps != [] {
      TakeKeepsInv(codec, w, steps[0]);
      TakeKeepsSlots(codec, w, steps[0]);
      LiveProvidersHoldSlots(codec, Take(codec, w, steps[0]), steps[1..]);
    }
  }

  // ----- One owner -----

  predicate SupervisorLives(w: World, row: Row) {
    && row.supervisor.Some? && row.supervisor.value.identity.Some?
    && Lives(w, Proc(row.supervisor.value.pid, row.supervisor.value.identity.value))
  }

  /** Nobody else's reconcile touches a run whose recorded supervisor is alive,
      and a sweep at most hands a dropped run back to that supervisor. */
  lemma LiveSupervisorIsLeftAlone(codec: Codec, w: World, step: Step)
    requires Enabled(w, step) && (step.ReconcileRun? || step.SweepRun?)
    requires SupervisorLives(w, w.runs[step.id])
    requires step.ReconcileRun? ==> step.me != Some(w.runs[step.id].supervisor.value.pid)
    ensures
      var row, e := w.runs[step.id], EffectOf(codec, w, step);
      e == Untouched(row) || (step.SweepRun? && RecoveryDrop(row) && e == Saved(Restore(row), None))
  {
  }

  /** A step of anyone but the supervisor of run `id`, which is alive. */
  predicate ByOthers(w: World, id: RunId, step: Step) {
    && id in w.runs && SupervisorLives(w, w.runs[id])
    && ((OnRun(step) || step.Attach?) && step.id == id ==>
          step.SweepRun? || (step.ReconcileRun? && step.me != Some(w.runs[id].supervisor.value.pid)))
  }

  predicate OthersOnly(codec: Codec, w: World, id: RunId, steps: seq<Step>)
    requires Possible(codec, w, steps)
    decreases |steps|
  {
    steps == [] || (ByOthers(w, id, steps[0]) && OthersOnly(codec, Take(codec, w, steps[0]), id, steps[1..]))
  }

  /** What belongs to the owner: who it is, its provider and lease, its offset. */
  predicate SameOwnership(a: Row, b: Row) {
    && a.supervisor == b.supervisor && a.provider == b.provider && a.lease == b.lease
    && a.lastOffset == b.lastOffset && a.handedOver == b.handedOver
  }

  lemma OthersStepKeepsOwnership(codec: Codec, w: World, id: RunId, step: Step)
    requires Inv(codec, w) && Enabled(w, step) && ByOthers(w, id, step) && HoldsSlot(w.runs[id])
    ensures
      var next := Take(codec, w, step);
      && id in next.runs && HoldsSlot(next.runs[id])
      && SameOwnership(w.runs[id], next.runs[id])
      && Stored(next, id) == Stored(w, id)
      && (id in next.returned <==> id in w.returned)
  {
    if OnRun(step) {
      OthersEffectKeepsOwnership(codec, w, id, step);
    }
  }

  lemma OthersEffectKeepsOwnership(codec: Codec, w: World, id: RunId, step: Step)
    requires Inv(codec, w) && Enabled(w, step) && OnRun(step) && ByOthers(w, id, step) && HoldsSlot(w.runs[id])
    ensures
      var next := Apply(w, step.id, EffectOf(codec, w, step));
      && id in next.runs && HoldsSlot(next.runs[id])
      && SameOwnership(w.runs[id], next.runs[id])
      && Stored(next, id) == Stored(w, id)
      && (id in next.returned <==> id in w.returned)
  {
    if step.id == id {
      LiveSupervisorIsLeftAlone(codec, w, step);
    } else {
      OtherRunsStay(w, step.id, EffectOf(codec, w, step), id);
    }
  }

  lemma OtherRunsStay(w: World, id: RunId, e: Effect, other: RunId)
    requires other in w.runs && other != id
    ensures
      var next := Apply(w, id, e);
      && other in next.runs && next.runs[other] == w.runs[other] && Stored(next, other) == Stored(w, other)
      && (other in next.returned <==> other in w.returned)
  {
  }

  /** Over any number of such steps, the owner's offset, stored events, lease
      and identity stay what they were. */
  lemma {:induction false} OwnershipIsUndisturbed(codec: Codec, w: World, id: RunId, steps: seq<Step>)
    requires Inv(codec, w) && Possible(codec, w, steps) && OthersOnly(codec, w, id, steps)
    requires id in w.runs && HoldsSlot(w.runs[id])
    ensures
      var end := After(codec, w, steps);
      && id in end.runs && HoldsSlot(end.runs[id])
      && SameOwnership(w.runs[id], end.runs[id])
      && Stored(end, id) == Stored(w, id)
      && (id in end.returned <==> id in w.returned)
    decreases |steps|
  {
    if steps != [] {
      TakeKeepsInv(codec, w, steps[0]);
      OthersStepKeepsOwnership(codec, w, id, steps[0]);
      OwnershipIsUndisturbed(codec, Take(codec, w, steps[0]), id, steps[1..]);
    }
  }

  /** `reconcile_run` looks at the supervisor twice.  When the supervisor is
      alive, it leaves the row alone, whatever else it sees, exactly when it does
      not go from "cannot tell" to a clear view. */
  lemma TwoLooksMustNotClear(row: Row, me: Option<Pid>, owner: Observation, worker: Observation)
    requires StateOk(row) && IsActive(row)
    requires row.supervisor.Some? && row.supervisor.value.identity.Some? && me != Some(row.supervisor.value.pid)
    requires owner in {Unknown, Alive(row.supervisor.value.identity.value)}
    requires worker in {Unknown, Alive(row.supervisor.value.identity.value)}
    ensures
      var leftAlone := forall early, late, out ::
        Reconcile(row, me, Look(owner, worker, early, late), out) == Untouched(row);
      leftAlone <==> !(owner.Unknown? && worker.Alive?)
  {
    if owner.Unknown? && worker.Alive? {
      var out := Outside(Codec(line => None, line => None), [], 0, 1);
      assert Reconcile(row, me, Look(owner, worker, Gone, Unknown), out).row.state != row.state;
    }
  }

  // ----- Cancelled and finished runs stay down -----

  /** Not active, and not one that a sweep could adopt. */
  predicate Retired(row: Row) {
    !IsActive(row) && !(row.state == RecoveryRequired && row.stage == Some(Recovery))
  }

  ghost predicate Down(w: World, id: RunId) {
    id in w.issued && (id in w.runs ==> Retired(w.runs[id]))
  }

  lemma TakeKeepsDown(codec: Codec, w: World, step: Step, id: RunId)
    requires Enabled(w, step) && Down(w, id)
    ensures Down(Take(codec, w, step), id)
  {
    if OnRun(step) {
      EffectKeepsDown(codec, w, step, id);
    }
  }

  lemma EffectKeepsDown(codec: Codec, w: World, step: Step, id: RunId)
    requires Enabled(w, step) && OnRun(step) && Down(w, id)
    ensures Down(Apply(w, step.id, EffectOf(codec, w, step)), id)
  {
    if step.SweepRun? && step.id == id {
      var os := OS(w.alive, step.unreadable);
      SweepKeepsRetired(w.runs[id], ObserveSupervisor(os, w.runs[id]), ObserveProvider(os, w.runs[id]),
                        Outside(codec, Log(w, id), 0, step.releaseCode));
    }
  }

  lemma SweepKeepsRetired(row: Row, worker: Observation, provider: Observation, out: Outside)
    requires IsOccupying(row) && Retired(row)
    ensures Retired(Sweep(row, worker, provider, out).row)
  {
  }

  lemma {:induction false} DownForGood(codec: Codec, w: World, id: RunId, steps: seq<Step>)
    requires Down(w, id) && Possible(codec, w, steps)
    ensures Down(After(codec, w, steps), id)
    decreases |steps|
  {
    if steps != [] {
      TakeKeepsDown(codec, w, steps[0], id);
      DownForGood(codec, Take(codec, w, steps[0]), id, steps[1..]);
    }
  }

  /** After a confirmed cancel, complete or partial, nothing ever returns the run
      to an active state. */
  lemma {:induction false} CancelIsFinal(codec: Codec, w: World, cancel: Step, steps: seq<Step>)
    requires Inv(codec, w) && cancel.CancelRun? && Enabled(w, cancel)
    requires Possible(codec, Take(codec, w, cancel), steps)
    ensures
      var end := After(codec, Take(codec, w, cancel), steps);
      cancel.id in end.runs ==> !IsActive(end.runs[cancel.id])
  {
    assert Down(Take(codec, w, cancel), cancel.id);
    DownForGood(codec, Take(codec, w, cancel), cancel.id, steps);
  }

  /** In the world: adoption needs a process that is really alive and readable,
      namely the run's own supervisor, or its own provider once no supervisor is
      left. */
  lemma AdoptionIsJustified(codec: Codec, w: World, step: Step)
    requires Inv(codec, w) && Enabled(w, step) && step.SweepRun?
    ensures
      var row := w.runs[step.id];
      var supervisor := SupervisorLives(w, row) && row.supervisor.value.pid !in step.unreadable;
      var noSupervisor := Supervised(row) ==> row.supervisor.value.pid !in w.alive.Keys + step.unreadable;
      var provider := ProviderLives(w, step.id) && row.provider.Some? && row.provider.value.identity.Some?
                      && row.provider.value.pid !in step.unreadable;
      IsActive(EffectOf(codec, w, step).row) <==> RecoveryDrop(row) && (supervisor || (noSupervisor && provider))
  {
    var row := w.runs[step.id];
    assert RowOk(codec, w, step.id, row);
    var os := OS(w.alive, step.unreadable);
    SweepAdoptsIff(row, ObserveSupervisor(os, row), ObserveProvider(os, row),
                   Outside(codec, Log(w, step.id), 0, step.releaseCode));
  }
}
