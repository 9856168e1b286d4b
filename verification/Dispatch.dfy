/** The dispatcher's operations as they run: methods that read and save rows of
    the agent store step by step, each proved against the function that
    specifies it. */
module Dispatch {
  import opened Prelude
  import opened EventLog
  import opened RunLedger
  import opened RunWorld

  type IntentId = nat

  /** A role's standing instruction to keep starting runs. */
  datatype Intent = Intent(
    id: IntentId,
    manualMode: bool,
    manual: seq<Target>,
    startedCount: nat,
    nextPoll: Option<nat>)

  class AgentStore {
    var runs: map<RunId, Row>
    var stored: map<RunId, seq<Event>>
    var intents: map<(ProjectId, Role), Intent>

    method SaveRun(id: RunId, row: Row)
      modifies this`runs
      ensures runs == old(runs)[id := row]
    {
      runs := runs[id := row];
    }

    method DeleteRun(id: RunId)
      modifies this`runs, this`stored
      ensures runs == old(runs) - {id}
      ensures stored == old(stored) - {id}
    {
      stored := stored - {id};
      runs := runs - {id};
    }

    method AppendEvents(id: RunId, events: seq<Event>)
      modifies this`stored
      ensures stored == Appended(old(stored), id, events)
    {
      if events == [] {
        return;
      }
      stored := stored[id := (if id in stored then stored[id] else []) + events];
    }

    method SaveIntent(project: ProjectId, role: Role, intent: Intent)
      modifies this`intents
      ensures intents == old(intents)[(project, role) := intent]
    {
      intents := intents[(project, role) := intent];
    }

    method DropIntent(id: IntentId)
      modifies this`intents
      ensures intents == map key | key in old(intents) && old(intents)[key].id != id :: old(intents)[key]
    {
      intents := map key | key in intents && intents[key].id != id :: intents[key];
    }

    /** The run ids a filter selects, in some order, each once. */
    method ListRuns(selected: Row -> bool) returns (ids: seq<RunId>)
      ensures forall id :: id in ids <==> id in runs && selected(runs[id])
      ensures forall i, j | 0 <= i < j < |ids| :: ids[i] != ids[j]
    {
      var left := set id | id in runs && selected(runs[id]);
      ghost var all := left;
      ids := [];
      while left != {}
        invariant left <= all
        invariant forall id :: id in ids <==> id in all - left
        invariant forall i, j | 0 <= i < j < |ids| :: ids[i] != ids[j]
        decreases |left|
      {
        var id :| id in left;
        forall i | 0 <= i < |ids|
          ensures ids[i] != id
        {
          assert ids[i] in ids;
        }
        left := left - {id};
        ids := ids + [id];
      }
    }
  }

  /** The store holds exactly what `Apply` makes of it. */
  twostate predicate Recorded(store: AgentStore, id: RunId, e: Effect)
    reads store
  {
    && store.runs == old(store.runs)[id := e.row]
    && store.stored == Appended(old(store.stored), id, e.events)
    && store.intents == old(store.intents)
  }

  method ReleaseLease(row: Row, code: int) returns (back: bool, call: Option<LeaseCall>)
    ensures back == LeaseIsBack(row, code) && call == ReleaseCall(row, code)
  {
    if row.lease.None? {
      return true, None;
    }
    return code == 0 || code == 5, Some(Released(code));
  }

  method DrainEvents(store: AgentStore, id: RunId, row: Row, out: Outside) returns (drained: Row)
    modifies store`stored
    ensures
      var batch := WatchSpec(out.codec, out.log, row.lastOffset);
      drained == row.(lastOffset := batch.next) && store.stored == Appended(old(store.stored), id, batch.events)
  {
    var batch := Watch(out.codec, out.log, row.lastOffset);
    store.AppendEvents(id, batch.events);
    drained := row.(lastOffset := batch.next);
  }

  /** The tail of `reconcile_run` for a provider that is judged by its handle. */
  method RecoverRow(store: AgentStore, id: RunId, given: Row, late: Observation, out: Outside)
    returns (call: Option<LeaseCall>)
    requires given.provider.Some?
    modifies store
    ensures Recorded(store, id, Recover(given, late, out))
    ensures call == Recover(given, late, out).call
  {
    call := None;
    var verdict := Judge(given.provider.value, late);
    var row := DrainEvents(store, id, given, out);
    match verdict {
      case Resumed =>
        if !row.handedOver {
          call := Some(Renewed(out.renewCode));
          row := row.(handedOver := out.renewCode == 5);
        }
      case Unjudged =>
        row := row.(state := RecoveryRequired, stage := Some(Recovery), remaining := []);
      case Exited =>
        var terminal := TerminalBy(LastKind(out.codec, out.log));
        var back;
        back, call := ReleaseLease(row, out.releaseCode);
        var roleFailure := back && terminal == Failed;
        row := row.(
          state := if back then terminal else RecoveryRequired,
          remaining := if back then [] else [LeaseRelease],
          stage := if roleFailure then Some(RoleSession) else if back then None else Some(Cleanup));
    }
    store.SaveRun(id, row);
  }

  /** The middle of `reconcile_run`: runs that never got a provider, and the rest. */
  method SettleRow(store: AgentStore, id: RunId, given: Row, late: Observation, out: Outside)
    returns (call: Option<LeaseCall>)
    modifies store
    ensures Recorded(store, id, Settle(given, late, out))
    ensures call == Settle(given, late, out).call
  {
    if given.state == Queued {
      store.SaveRun(id, given.(state := Failed, stage := Some(ProviderStart)));
      return None;
    }
    if given.state == Reserved || given.provider.None? {
      var back;
      back, call := ReleaseLease(given, out.releaseCode);
      var row := given.(remaining := if back then [] else [LeaseRelease]);
      row := row.(state := if back then Failed else RecoveryRequired, stage := Some(ProviderStart));
      store.SaveRun(id, row);
      return;
    }
    call := RecoverRow(store, id, given, late, out);
  }

  method ReconcileRun(store: AgentStore, id: RunId, me: Option<Pid>, look: Look, out: Outside)
    returns (call: Option<LeaseCall>)
    requires id in store.runs
    modifies store
    ensures Recorded(store, id, Reconcile(old(store.runs)[id], me, look, out))
    ensures call == Reconcile(old(store.runs)[id], me, look, out).call
  {
    var row := store.runs[id];
    call := None;
    if OwnedElsewhere(row, me, look.owner) {
      return;
    }
    if row.supervisor.Some? && row.supervisor.value.identity.Some? && me != Some(row.supervisor.value.pid) {
      if look.worker.Unknown? {
        return;
      }
      if look.worker.Alive? && row.supervisor.value.identity != Some(look.worker.identity) {
        store.SaveRun(id, row.(state := RecoveryRequired, stage := Some(Recovery), remaining := ALL_STEPS));
        return;
      }
      if look.worker.Gone? && row.provider.Some? {
        if look.early.Alive? && row.provider.value.identity == Some(look.early.identity) {
          row := row.(supervisor := None);
          store.SaveRun(id, row);
        } else if !look.early.Gone? {
          store.SaveRun(id, row.(state := RecoveryRequired, stage := Some(Recovery), remaining := ALL_STEPS));
          return;
        }
      }
    }
    call := SettleRow(store, id, row, look.late, out);
  }

  /** One row of `sweep_dropped_runs`; says whether the row was adopted or finished. */
  method SweepRow(store: AgentStore, id: RunId, worker: Observation, provider: Observation, out: Outside)
    returns (call: Option<LeaseCall>, adopted: bool, finished: bool)
    requires id in store.runs && IsOccupying(store.runs[id])
    modifies store
    ensures Recorded(store, id, Sweep(old(store.runs)[id], worker, provider, out))
    ensures call == Sweep(old(store.runs)[id], worker, provider, out).call
    ensures adopted <==> IsActive(store.runs[id])
    ensures finished <==> IsFinished(store.runs[id])
  {
    var row := store.runs[id];
    call, adopted, finished := None, false, false;
    var recoveryDrop := row.stage == Some(Recovery) && row.provider.Some?;
    if row.supervisor.Some? && row.supervisor.value.identity.Some? {
      if worker.Alive? && Some(worker.identity) == row.supervisor.value.identity {
        if recoveryDrop {
          store.SaveRun(id, Restore(row));
          adopted := true;
        }
        return;
      }
      if !worker.Gone? {
        return;
      }
    }
    if row.provider.Some? {
      if provider.Unknown? {
        return;
      }
      if provider.Alive? {
        if row.provider.value.identity.None? {
          return;
        }
        if Some(provider.identity) == row.provider.value.identity {
          if recoveryDrop {
            store.SaveRun(id, Restore(row.(supervisor := None)));
            adopted := true;
          }
          return;
        }
      }
    }
    call, finished := CleanUpRow(store, id, row, out);
  }

  method CleanUpRow(store: AgentStore, id: RunId, given: Row, out: Outside)
    returns (call: Option<LeaseCall>, finished: bool)
    requires IsOccupying(given)
    modifies store
    ensures Recorded(store, id, CleanUp(given, out))
    ensures call == CleanUp(given, out).call
    ensures finished <==> IsFinished(CleanUp(given, out).row)
    ensures !IsActive(CleanUp(given, out).row)
  {
    var row := given;
    call := None;
    FilteringTheSteps(given.remaining);
    var remaining := Without(row.remaining, ProcessTermination);
    if EventClose in remaining {
      if row.provider.Some? {
        row := DrainEvents(store, id, row, out);
      }
      remaining := Without(remaining, EventClose);
    }
    if LeaseRelease in remaining {
      var back;
      back, call := ReleaseLease(row, out.releaseCode);
      if back {
        remaining := Without(remaining, LeaseRelease);
      }
    }
    row := row.(remaining := remaining);
    finished := remaining == [];
    if finished {
      var last := if row.provider.Some? then LastKind(out.codec, out.log) else None;
      row := row.(state := TerminalBy(last));
    }
    store.SaveRun(id, row);
  }

  lemma {:induction false} FilteringTheSteps(steps: seq<CleanupStep>)
    ensures
      var some := Without(steps, ProcessTermination);
      var open := Without(some, EventClose);
      && (EventClose in some <==> EventClose in steps)
      && (LeaseRelease in some <==> LeaseRelease in steps)
      && (LeaseRelease in open <==> LeaseRelease in steps)
      && (EventClose !in some ==> open == some)
  {
    var some := Without(steps, ProcessTermination);
    WithoutDrops(steps, ProcessTermination);
    WithoutDrops(some, EventClose);
    if EventClose !in some {
      WithoutAbsent(some, EventClose);
    }
  }

  lemma {:induction false} WithoutAbsent(steps: seq<CleanupStep>, step: CleanupStep)
    requires step !in steps
    ensures Without(steps, step) == steps
  {
    if steps != [] {
      WithoutAbsent(steps[1..], step);
    }
  }

  method ApplyCancel(store: AgentStore, id: RunId, seen: Observation, treeDied: bool, code: int)
    returns (call: Option<LeaseCall>, killed: Option<Pid>)
    requires id in store.runs
    modifies store
    ensures
      var e := Cancel(old(store.runs)[id], seen, treeDied, code);
      Recorded(store, id, e) && call == e.call && killed == e.killed
  {
    var row := store.runs[id];
    var stopped := true;
    killed := None;
    if row.provider.Some? && !seen.Gone? {
      if seen.Unknown? || Some(seen.identity) != row.provider.value.identity {
        stopped := false;
      } else {
        stopped := treeDied;
        killed := if treeDied then Some(row.provider.value.pid) else None;
      }
    }
    var back;
    back, call := ReleaseLease(row, code);
    var remaining: seq<CleanupStep> := [];
    if !stopped {
      remaining := remaining + [ProcessTermination];
    }
    if !back {
      remaining := remaining + [LeaseRelease];
    }
    assert remaining == (if stopped then [] else [ProcessTermination]) + (if back then [] else [LeaseRelease]);
    row := row.(
      state := if remaining == [] then Cancelled else RecoveryRequired,
      remaining := remaining,
      stage := if remaining == [] then None else Some(Cleanup));
    store.SaveRun(id, row);
  }

  // ----- Starting -----

  /** `_start_run_row` up to its last save, or to the point where its process dies. */
  method StartRunRow(store: AgentStore, id: RunId, ans: StartAnswers)
    returns (call: Option<LeaseCall>, spawned: Option<Proc>)
    requires id in store.runs
    modifies store
    ensures
      var e := Start(old(store.runs)[id], ans);
      Recorded(store, id, e) && call == e.call && spawned == e.spawned
  {
    var row := store.runs[id];
    call, spawned := None, None;
    if ans.crash == AtOnce {
      return;
    }
    if ans.preflight.Refuse? {
      store.SaveRun(id, row.(state := ans.preflight.state, stage := ans.preflight.stage));
      return;
    }
    row := row.(state := Reserved);
    store.SaveRun(id, row);
    if ans.crash == AfterReserving {
      return;
    }
    match ans.reserve {
      case Unavailable(deferred) =>
        if deferred {
          row := row.(state := Failed, stage := Some(Reservation));
        } else if row.manual != [] {
          row := row.(state := NotStarted, stage := Some(Reservation));
        } else {
          row := row.(state := Idle, stage := None);
        }
        store.SaveRun(id, row);
      case Refused(stage) =>
        store.SaveRun(id, row.(state := Failed, stage := Some(stage)));
      case Granted(lease) =>
        if row.manual != [] && lease.target !in row.manual {
          call := Some(Released(ans.releaseCode));
          store.SaveRun(id, row.(state := Failed, stage := Some(Reservation)));
          return;
        }
        row := row.(lease := Some(lease));
        store.SaveRun(id, row);
        call, spawned := LaunchRow(store, id, row, ans);
    }
  }

  /** The second half of `_start_run_row`, from the saved lease on. */
  method LaunchRow(store: AgentStore, id: RunId, leased: Row, ans: StartAnswers)
    returns (call: Option<LeaseCall>, spawned: Option<Proc>)
    requires id in store.runs && store.runs[id] == leased
    modifies store
    ensures
      var e := Launch(leased, ans);
      Recorded(store, id, e) && call == e.call && spawned == e.spawned
  {
    var row := leased;
    call, spawned := None, None;
    if ans.crash == AfterSavingLease {
      return;
    }
    if !ans.readBack {
      call := Some(Released(ans.releaseCode));
      store.SaveRun(id, row.(state := Failed, stage := Some(Reservation)));
      return;
    }
    if ans.launch.Launched? {
      spawned := Some(Proc(ans.launch.pid, ans.launch.identity));
      if ans.crash != AfterLaunching {
        var identity := if ans.launch.readable then Some(ans.launch.identity) else None;
        store.SaveRun(id, row.(state := Running, provider := Some(Handle(ans.launch.pid, identity))));
      }
      return;
    }
    call := Some(Released(ans.releaseCode));
    if ans.crash == AfterLaunching {
      return;
    }
    var back := Returned(ans.releaseCode);
    row := row.(remaining := if back then [] else [LeaseRelease]);
    row := row.(state := if back then Failed else RecoveryRequired,
                stage := Some(if ans.launch.Mismatched? then Reservation else ProviderStart));
    store.SaveRun(id, row);
  }

  /** How launching a detached worker goes: the preflight of the control command,
      whether the worker process came up and as whom, what it met while
      starting, and whether the launcher still saw it die. */
  datatype LaunchAnswers = LaunchAnswers(
    preflight: Preflight,
    worker: Option<Supervisor>,
    start: StartAnswers,
    noticed: bool,
    out: Outside)

  predicate PlausibleAnswers(ans: LaunchAnswers) {
    && (ans.preflight.Refuse? ==> ans.preflight.state in {Idle, NotStarted})
    && (ans.start.preflight.Refuse? ==> ans.start.preflight.state in {Idle, NotStarted})
  }

  /** The launcher sees its worker die. */
  predicate WorkerDies(ans: LaunchAnswers) {
    ans.worker.Some? && ans.start.crash != Never && ans.noticed
  }

  /** What one launch starts is in no later launch's way. */
  predicate Apart(early: LaunchAnswers, later: LaunchAnswers) {
    early.start.launch.Launched? ==>
      && (later.start.launch.Launched? ==> early.start.launch.pid != later.start.launch.pid)
      && (WorkerDies(later) ==> later.worker.value.pid != early.start.launch.pid)
  }

  /** A worker that dies is not the provider it would have started. */
  predicate OwnPids(ans: LaunchAnswers) {
    WorkerDies(ans) && ans.start.launch.Launched? ==> ans.worker.value.pid != ans.start.launch.pid
  }

  predicate CountsAsStarted(row: Row) {
    row.state in {Queued, Reserved, Running}
  }

  /** A row that was never handed a provider unless it is running. */
  predicate Newborn(row: Row, project: ProjectId, role: Role) {
    && row.project == project && row.role == role
    && (IsActive(row) ==> CountsAsStarted(row))
    && (row.state != Running ==> row.provider.None?)
  }

  lemma StartStaysNewborn(row: Row, ans: StartAnswers)
    requires row.state == Queued && Newborn(row, row.project, row.role)
    requires ans.preflight.Refuse? ==> ans.preflight.state in {Idle, NotStarted}
    ensures Newborn(Start(row, ans).row, row.project, row.role)
  {
  }

  lemma ReconcileStaysNewborn(row: Row, me: Option<Pid>, look: Look, out: Outside)
    requires row.state in {Queued, Reserved} && Newborn(row, row.project, row.role)
    ensures Newborn(Reconcile(row, me, look, out).row, row.project, row.role)
  {
  }

  const ALL_GONE := RunLedger.Look(Gone, Gone, Gone, Gone)

  /** What the detached worker, and the launcher that saw it die, leave behind. */
  function Served(queued: Row, ans: LaunchAnswers): Row {
    var row := Start(queued, ans.start).row;
    if ans.start.crash != Never && ans.noticed && row.state in {Queued, Reserved}
    then Reconcile(row, None, ALL_GONE, ans.out).row
    else row
  }

  lemma ServedIsNewborn(queued: Row, ans: LaunchAnswers)
    requires PlausibleAnswers(ans)
    requires queued.state == Queued && Newborn(queued, queued.project, queued.role)
    ensures Newborn(Served(queued, ans), queued.project, queued.role)
  {
    StartStaysNewborn(queued, ans.start);
    var row := Start(queued, ans.start).row;
    if row.state in {Queued, Reserved} {
      ReconcileStaysNewborn(row, None, ALL_GONE, ans.out);
    }
  }

  method ServeQueuedRun(store: AgentStore, id: RunId, ans: LaunchAnswers)
    requires id in store.runs
    modifies store
    ensures store.intents == old(store.intents)
    ensures store.runs == old(store.runs)[id := Served(old(store.runs)[id], ans)]
  {
    var _, _ := StartRunRow(store, id, ans.start);
    var row := store.runs[id];
    if ans.start.crash != Never && ans.noticed && row.state in {Queued, Reserved} {
      var _ := ReconcileRun(store, id, None, ALL_GONE, ans.out);
    }
  }

  /** The row `queue_and_launch_run` returns, and whether the ledger keeps it: a
      run that never became an execution leaves no row. */
  datatype Outcome = Outcome(row: Row, kept: bool)

  function LaunchOutcome(project: ProjectId, role: Role, manual: seq<Target>, ans: LaunchAnswers): Outcome {
    if ans.preflight.Refuse? then
      Outcome(NewRow(project, role, manual, ans.preflight.state).(stage := ans.preflight.stage), false)
    else
      var queued := NewRow(project, role, manual, Queued);
      if ans.worker.None? then Outcome(Fail(queued, ProviderStart, Failed), true)
      else
        var row := Served(queued.(supervisor := ans.worker), ans);
        Outcome(row, row.state !in {Idle, NotStarted})
  }

  function RunsWith(runs: map<RunId, Row>, id: RunId, outcome: Outcome): map<RunId, Row> {
    if outcome.kept then runs[id := outcome.row] else runs
  }

  predicate OutcomeOk(outcome: Outcome, project: ProjectId, role: Role) {
    Newborn(outcome.row, project, role) && (IsActive(outcome.row) ==> outcome.kept)
  }

  lemma LaunchOutcomeOk(project: ProjectId, role: Role, manual: seq<Target>, ans: LaunchAnswers)
    requires PlausibleAnswers(ans)
    ensures OutcomeOk(LaunchOutcome(project, role, manual, ans), project, role)
  {
    var queued := NewRow(project, role, manual, Queued);
    if ans.worker.Some? {
      ServedIsNewborn(queued.(supervisor := ans.worker), ans);
    }
  }

  /** `queue_and_launch_run`. */
  method QueueAndLaunch(
      store: AgentStore, id: RunId, project: ProjectId, role: Role, manual: seq<Target>, ans: LaunchAnswers)
    returns (row: Row)
    requires id !in store.runs
    modifies store
    ensures row == LaunchOutcome(project, role, manual, ans).row
    ensures store.runs == RunsWith(old(store.runs), id, LaunchOutcome(project, role, manual, ans))
    ensures store.intents == old(store.intents)
  {
    if ans.preflight.Refuse? {
      return NewRow(project, role, manual, ans.preflight.state).(stage := ans.preflight.stage);
    }
    row := NewRow(project, role, manual, Queued);
    store.SaveRun(id, row);
    if ans.worker.None? {
      row := Fail(row, ProviderStart, Failed);
      store.SaveRun(id, row);
      return;
    }
    store.SaveRun(id, row.(supervisor := ans.worker));
    ServeQueuedRun(store, id, ans);
    row := store.runs[id];
    if row.state in {Idle, NotStarted} {
      store.DeleteRun(id);
    }
  }
}
