/** What one tick makes of the runs it finds: recovery and the sweep together, seeing
    the same processes, and everything the tick leaves alone. */
module TickRecovery {
  import opened Prelude
  import opened EventLog
  import opened RunLedger
  import opened RunWorld
  import opened Dispatch
  import opened RefillLoop
  import opened DispatchTick
  import opened RunOutcomes
  import opened RunStages

  /** All that a tick sees of a run while the processes stay as they are. */
  function SightIn(w: World, row: Row, unreadable: set<Pid>, out: Outside): Sight {
    var os := OS(w.alive, unreadable);
    var supervisor, provider := ObserveSupervisor(os, row), ObserveProvider(os, row);
    Sight(supervisor, LookAt(os, row), supervisor, provider, out)
  }

  // ----- Recovered and swept -----

  /** The provider's pid belongs to another process now. */
  predicate ProviderReplaced(w: World, row: Row, unreadable: set<Pid>) {
    && row.provider.Some?
    && var pid, identity := row.provider.value.pid, row.provider.value.identity;
       pid in w.alive && pid !in unreadable && identity.Some? && identity.value != w.alive[pid]
  }

  /** Nobody watches the run, or nobody is left to, and its provider can be told neither
      to be there nor to be gone. */
  predicate JudgedBlind(w: World, row: Row, unreadable: set<Pid>) {
    && !ProviderGone(w, row, unreadable) && !ProviderThere(w, row, unreadable)
    && (SupervisedByAnother(row, None) ==>
          row.provider.Some? && row.provider.value.identity.None? && SeenGone(w, unreadable, row.provider.value.pid))
  }

  /** A running run when the tick has recovered and swept it. */
  predicate SettledAs(w: World, row: Row, unreadable: set<Pid>, first: Outside, second: Outside, after: Row) {
    var left, watched := SupervisorLeft(w, row, unreadable), SupervisedByAnother(row, None);
    var gone := ProviderGone(w, row, unreadable);
    var there, replaced := ProviderThere(w, row, unreadable), ProviderReplaced(w, row, unreadable);
    && (MayBeAttended(w, row, None, unreadable) ==> after == row)
    && (IsActive(after) <==> MayBeAttended(w, row, None, unreadable) || (left && there))
    && (IsFinished(after) <==>
          && left
          && ((gone && (IsBack(row, first.releaseCode) || IsBack(row, second.releaseCode)))
              || (watched && replaced && IsBack(row, second.releaseCode))))
    && (IsFinished(after) ==> EndsAs(after.state, LastKind(first.codec, first.log)))
    && (IsActive(after) || IsFinished(after) || IsOccupying(after) || JudgedBlind(w, row, unreadable))
  }

  lemma SettlingIs(w: World, row: Row, unreadable: set<Pid>, first: Outside, second: Outside)
    requires StateOk(row) && StageOk(row) && row.state == Running
    requires first.codec == second.codec && first.log == second.log
    ensures
      var recovered := Recovered(row, row.project, SightIn(w, row, unreadable, first));
      SettledAs(w, row, unreadable, first, second, Swept(recovered, row.project, SightIn(w, row, unreadable, second)))
  {
    var sight := SightIn(w, row, unreadable, second);
    var e := Reconcile(row, None, LookAt(OS(w.alive, unreadable), row), first);
    ReconcilingIs(w, row, None, unreadable, first);
    ReconcileKeeps(row, None, LookAt(OS(w.alive, unreadable), row), first);
    if IsOccupying(e.row) {
      SweepingIs(e.row, sight.worker, sight.provider, second);
      SweepAdoptsIff(e.row, sight.worker, sight.provider, second);
    }
  }

  // ----- What refilling leaves alone -----

  /** Every row is still there, as it was, and new rows are the project's own. */
  predicate OnlyAdds(project: ProjectId, was: map<RunId, Row>, now: map<RunId, Row>) {
    && (forall id | id in was :: id in now && now[id] == was[id])
    && (forall id | id in now && id !in was :: now[id].project == project)
  }

  lemma AnswerOnlyAdds(s: Setting, t: Tick, role: Role, outcome: Outcome)
    requires s.ids(t.asked) !in t.runs && outcome.row.project == s.project
    ensures OnlyAdds(s.project, t.runs, Answered(s, t, role, outcome).tick.runs)
  {
    assert Answered(s, t, role, outcome).tick.runs == RunsWith(t.runs, s.ids(t.asked), outcome);
  }

  lemma TurnOnlyAdds(s: Setting, t: Tick, role: Role)
    requires SettingOk(s) && TickOk(s, t) && role in t.due
    ensures OnlyAdds(s.project, t.runs, TryRole(s, t, role).tick.runs)
  {
    if Unlaunched(s, t, role).None? {
      LaunchOutcomeOk(s.project, role, t.live.Of(role).manual, s.ask(t.asked));
      AnswerOnlyAdds(s, t, role, LaunchOutcome(s.project, role, t.live.Of(role).manual, s.ask(t.asked)));
    }
  }

  lemma {:induction false} PassOnlyAdds(s: Setting, t: Tick, todo: seq<Role>)
    requires SettingOk(s) && TickOk(s, t) && Todo(t, todo)
    ensures OnlyAdds(s.project, t.runs, Pass(s, t, todo).tick.runs)
    decreases |todo|
  {
    if todo != [] {
      var turn := TryRole(s, t, todo[0]);
      TurnKeepsDue(s, t, todo);
      TurnOnlyAdds(s, t, todo[0]);
      if !turn.stop {
        PassOnlyAdds(s, turn.tick, todo[1..]);
      }
    }
  }

  lemma {:induction false} RefillOnlyAdds(s: Setting, t: Tick)
    requires SettingOk(s) && TickOk(s, t)
    ensures OnlyAdds(s.project, t.runs, Refill(s, t).runs)
    decreases Seats(s, t)
  {
    if t.due != [] && Seats(s, t) > 0 {
      PassKeeps(s, t, t.due);
      PassSpendsSeats(s, t, t.due);
      PassOnlyAdds(s, t, t.due);
      var u := Pass(s, t, t.due);
      if u.progress {
        RefillOnlyAdds(s, u.tick);
      }
    }
  }

  // ----- The whole tick -----

  /** The supervisor is seen to be the recorded one when the tick first looks. */
  predicate SupervisorGlimpsed(row: Row, glance: Observation) {
    row.supervisor.Some? && glance.Alive? && row.supervisor.value.identity == Some(glance.identity)
  }

  /** The tick saw one state of the processes, and of the run's file. */
  ghost predicate SeenAsIs(
      w: World, row: Row, unreadable: set<Pid>, first: Outside, second: Outside, a: Sight, b: Sight)
  {
    && a == SightIn(w, row, unreadable, first) && b == SightIn(w, row, unreadable, second)
    && first.codec == second.codec && first.log == second.log
  }

  /** A tick settles each running run of its project once, by what it sees, and leaves
      alone all runs of other projects, all that hold no slot, and all whose supervisor
      it saw first; the rows it adds are its project's. */
  lemma {:induction false} TickSettlesItsRuns(
      w: World, s: Setting, runs: map<RunId, Row>, recovery: RunId -> Sight, sweep: RunId -> Sight, begun: Tick,
      id: RunId, unreadable: set<Pid>, first: Outside, second: Outside)
    requires SettingOk(s) && TickOk(s, begun) && begun.runs == Settled(runs, s.project, recovery, sweep)
    requires id in runs && StateOk(runs[id]) && StageOk(runs[id])
    ensures id in Refill(s, begun).runs
    ensures
      var row, after := runs[id], Refill(s, begun).runs[id];
      && (row.project != s.project || !HoldsSlot(row) ==> after == row)
      && (IsActive(row) && SupervisorGlimpsed(row, recovery(id).glance) ==> after == row)
      && (row.project == s.project && row.state == Running
          && SeenAsIs(w, row, unreadable, first, second, recovery(id), sweep(id)) ==>
            SettledAs(w, row, unreadable, first, second, after))
    ensures forall other | other in Refill(s, begun).runs && other !in runs ::
              Refill(s, begun).runs[other].project == s.project
  {
    RefillOnlyAdds(s, begun);
    var row := runs[id];
    if row.project == s.project && row.state == Running
       && SeenAsIs(w, row, unreadable, first, second, recovery(id), sweep(id)) {
      SettlingIs(w, row, unreadable, first, second);
    }
  }
}
