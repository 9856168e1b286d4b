/** The failure stage of a run: which rows carry one, and what it is good for.  A run
    that reconciling wrongly dropped is, once adopted, the run it was. */
module RunStages {
  import opened Prelude
  import opened RunLedger
  import opened RunWorld
  import opened RunOutcomes
  import opened EventLog

  /** A run that may still go on carries no failure stage; one that failed or was
      dropped carries one. */
  predicate StageOk(row: Row) {
    && (IsActive(row) ==> row.stage.None?)
    && (row.state in {Failed, RecoveryRequired} ==> row.stage.Some?)
  }

  ghost predicate StagesOk(w: World) {
    forall id | id in w.runs :: StageOk(w.runs[id])
  }

  lemma StartStaysOk(row: Row, ans: StartAnswers)
    requires StateOk(row) && StageOk(row) && row.state == Queued
    requires ans.preflight.Refuse? ==> ans.preflight.state in {Idle, NotStarted}
    ensures StageOk(Start(row, ans).row)
  {
  }

  lemma RecoverStaysOk(row: Row, late: Observation, out: Outside)
    requires row.state == Running && StateOk(row) && StageOk(row)
    ensures StageOk(Recover(row, late, out).row)
  {
  }

  lemma SettleStaysOk(row: Row, late: Observation, out: Outside)
    requires StateOk(row) && StageOk(row) && IsActive(row)
    ensures StageOk(Settle(row, late, out).row)
  {
    if row.state == Running {
      RecoverStaysOk(row, late, out);
    }
  }

  lemma ReconcileStaysOk(row: Row, me: Option<Pid>, look: Look, out: Outside)
    requires StateOk(row) && StageOk(row) && IsActive(row)
    ensures StageOk(Reconcile(row, me, look, out).row)
  {
    match RouteOf(row, me, look)
    case GoOn(judged) =>
      assert judged in {row, row.(supervisor := None)};
      SettleStaysOk(judged, look.late, out);
    case _ =>
  }

  lemma SweepStaysOk(row: Row, worker: Observation, seen: Observation, out: Outside)
    requires StateOk(row) && StageOk(row) && IsOccupying(row)
    ensures StageOk(Sweep(row, worker, seen, out).row)
  {
  }

  lemma EffectStaysOk(codec: Codec, w: World, step: Step)
    requires Enabled(w, step) && OnRun(step) && StateOk(w.runs[step.id]) && StageOk(w.runs[step.id])
    ensures StageOk(EffectOf(codec, w, step).row)
  {
    var row := w.runs[step.id];
    match step
    case StartRun(id, answers) => StartStaysOk(row, answers);
    case ReconcileRun(id, me, unreadable, renewCode, releaseCode) =>
      ReconcileStaysOk(row, me, LookAt(OS(w.alive, unreadable), row),
                       Outside(codec, Log(w, id), renewCode, releaseCode));
    case SweepRun(id, unreadable, releaseCode) =>
      var os := OS(w.alive, unreadable);
      SweepStaysOk(row, ObserveSupervisor(os, row), ObserveProvider(os, row),
                   Outside(codec, Log(w, id), 0, releaseCode));
    case CancelRun(id, unreadable, treeDied, releaseCode) =>
  }

  lemma TakeKeepsStages(codec: Codec, w: World, step: Step)
    requires Inv(codec, w) && StagesOk(w) && Enabled(w, step)
    ensures StagesOk(Take(codec, w, step))
  {
    if OnRun(step) {
      assert RowOk(codec, w, step.id, w.runs[step.id]);
      EffectStaysOk(codec, w, step);
      StepSaves(codec, w, step);
    }
  }

  /** Whatever happens, in any order. */
  lemma {:induction false} StagesOverRuns(codec: Codec, w: World, steps: seq<Step>)
    requires Inv(codec, w) && StagesOk(w) && Possible(codec, w, steps)
    ensures Inv(codec, After(codec, w, steps)) && StagesOk(After(codec, w, steps))
    decreases |steps|
  {
    if steps != [] {
      TakeKeepsInv(codec, w, steps[0]);
      TakeKeepsStages(codec, w, steps[0]);
      StagesOverRuns(codec, Take(codec, w, steps[0]), steps[1..]);
    }
  }

  // ----- Dropped and adopted -----

  /** Nothing is done to this run. */
  predicate LeavesTheRun(id: RunId, step: Step) {
    match step
    case ProcessStarts(_) => true
    case ProcessExits(_) => true
    case FileGrows(_, _) => true
    case _ => step.id != id
  }

  lemma {:induction false} RunIsLeft(codec: Codec, w: World, steps: seq<Step>, id: RunId)
    requires Possible(codec, w, steps) && id in w.runs
    requires forall step | step in steps :: LeavesTheRun(id, step)
    ensures id in After(codec, w, steps).runs && After(codec, w, steps).runs[id] == w.runs[id]
    decreases |steps|
  {
    if steps != [] {
      assert steps[0] in steps && forall step | step in steps[1..] :: step in steps;
      RunIsLeft(codec, Take(codec, w, steps[0]), steps[1..], id);
    }
  }

  /** The run's supervisor is seen to be the recorded one. */
  predicate SupervisorThere(w: World, row: Row, unreadable: set<Pid>) {
    row.supervisor.Some? && SeenAlive(w, unreadable, row.supervisor.value.pid, row.supervisor.value.identity)
  }

  /** The run is left to its provider, which is seen to be the recorded one. */
  predicate OnlyProviderThere(w: World, row: Row, unreadable: set<Pid>) {
    SupervisorLeft(w, row, unreadable) && ProviderThere(w, row, unreadable)
  }

  lemma AdoptedIsTheRun(row: Row, worker: Observation, seen: Observation, out: Outside)
    requires StateOk(row) && StageOk(row) && row.state == Running
    ensures
      var e := Sweep(Drop(row, ALL_STEPS), worker, seen, out);
      if SupervisorSeenAlive(row, worker) then e == Saved(row, None)
      else if SupervisorOut(row, worker) && Verified(seen, row.provider.value.identity) then
        e == Saved(row.(supervisor := None), None)
      else !IsActive(e.row)
  {
    SweepAdoptsIff(Drop(row, ALL_STEPS), worker, seen, out);
  }

  /** A running run that was dropped is the run it was once it is adopted. */
  predicate ComesBack(w: World, row: Row, unreadable: set<Pid>, after: Row) {
    && (SupervisorThere(w, row, unreadable) ==> after == row)
    && (OnlyProviderThere(w, row, unreadable) ==> after == row.(supervisor := None))
    && (IsActive(after) ==> SupervisorThere(w, row, unreadable) || OnlyProviderThere(w, row, unreadable))
  }

  lemma SweepAdopts(codec: Codec, w: World, step: Step, row: Row)
    requires StateOk(row) && StageOk(row) && row.state == Running
    requires step.SweepRun? && step.id in w.runs && w.runs[step.id] == Drop(row, ALL_STEPS)
    ensures ComesBack(w, row, step.unreadable, Take(codec, w, step).runs[step.id])
  {
    var os, dropped := OS(w.alive, step.unreadable), Drop(row, ALL_STEPS);
    StepSaves(codec, w, step);
    AdoptedIsTheRun(row, ObserveSupervisor(os, dropped), ObserveProvider(os, dropped),
                    Outside(codec, Log(w, step.id), 0, step.releaseCode));
  }

  /** Reconciling drops a run that it can neither judge nor leave to its supervisor. */
  predicate Drops(w: World, step: Step) {
    && step.ReconcileRun? && step.id in w.runs && w.runs[step.id].state == Running
    && !Unattended(w, w.runs[step.id], step.me, step.unreadable)
    && !MayBeAttended(w, w.runs[step.id], step.me, step.unreadable)
  }

  /** A run that reconciling dropped without judging its provider is, after anything
      happened to others, adopted by the sweep that sees its supervisor, or no
      supervisor and its provider; and then it is the run it was, without a
      supervisor in the second case. */
  lemma {:induction false} DroppedRunsComeBack(
      codec: Codec, w: World, drop: Step, others: seq<Step>, sweep: Step)
    requires Inv(codec, w) && StagesOk(w) && Drops(w, drop) && Enabled(w, drop)
    requires Possible(codec, Take(codec, w, drop), others)
    requires forall step | step in others :: LeavesTheRun(drop.id, step)
    requires sweep.SweepRun? && sweep.id == drop.id
    ensures
      var row, later := w.runs[drop.id], After(codec, Take(codec, w, drop), others);
      && Enabled(later, sweep)
      && ComesBack(later, row, sweep.unreadable, Take(codec, later, sweep).runs[drop.id])
  {
    var row := w.runs[drop.id];
    assert RowOk(codec, w, drop.id, row) && StageOk(row);
    RouteIs(w, row, drop.me, drop.unreadable);
    StepSaves(codec, w, drop);
    RunIsLeft(codec, Take(codec, w, drop), others, drop.id);
    SweepAdopts(codec, After(codec, Take(codec, w, drop), others), sweep, row);
  }
}
