/** What each operation leaves of a run, said by what the world holds: the
    processes, the event file, the helper's answers.  Above all, a run that
    reconciling has finished has every complete line of its file in the event
    table, and the state its supervisor's verdict calls for. */
module RunOutcomes {
  import opened Prelude
  import opened EventLog
  import opened RunLedger
  import opened RunWorld
  import opened Dispatch
  import SupervisedRun

  // ----- What a process looks like -----

  predicate SeenGone(w: World, unreadable: set<Pid>, pid: Pid) {
    pid !in w.alive && pid !in unreadable
  }

  predicate SeenAlive(w: World, unreadable: set<Pid>, pid: Pid, identity: Option<Identity>) {
    pid in w.alive && pid !in unreadable && identity == Some(w.alive[pid])
  }

  /** The row names a supervisor, by identity, and it is not the one reconciling. */
  predicate SupervisedByAnother(row: Row, me: Option<Pid>) {
    row.supervisor.Some? && row.supervisor.value.identity.Some? && me != Some(row.supervisor.value.pid)
  }

  /** No supervisor stands between the run and whoever reconciles it: none is
      named, or it is gone and the provider is gone too or surely the recorded one. */
  predicate Unattended(w: World, row: Row, me: Option<Pid>, unreadable: set<Pid>) {
    SupervisedByAnother(row, me) ==>
      && SeenGone(w, unreadable, row.supervisor.value.pid)
      && (row.provider.Some? ==>
            || SeenGone(w, unreadable, row.provider.value.pid)
            || SeenAlive(w, unreadable, row.provider.value.pid, row.provider.value.identity))
  }

  /** The supervisor is there, or cannot be told from one that is. */
  predicate MayBeAttended(w: World, row: Row, me: Option<Pid>, unreadable: set<Pid>) {
    && SupervisedByAnother(row, me)
    && (row.supervisor.value.pid in unreadable
        || SeenAlive(w, unreadable, row.supervisor.value.pid, row.supervisor.value.identity))
  }

  lemma RouteIs(w: World, row: Row, me: Option<Pid>, unreadable: set<Pid>)
    ensures
      var route := RouteOf(row, me, LookAt(OS(w.alive, unreadable), row));
      && (route.GoOn? <==> Unattended(w, row, me, unreadable))
      && (route.Leave? <==> MayBeAttended(w, row, me, unreadable))
      && (route.GoOn? ==>
            route.row == row
            || (SupervisedByAnother(row, me) && row.provider.Some? && route.row == row.(supervisor := None)))
  {
  }

  // ----- The event file is read to its end -----

  /** No line of the file is complete past the offset. */
  predicate ReadToTheEnd(log: seq<byte>, offset: nat) {
    offset <= |log| && NEWLINE !in log[offset..]
  }

  /** Every complete line of the run's file is in the event table, once and in order. */
  predicate Whole(codec: Codec, w: World, id: RunId) {
    Stored(w, id) == EventsUpTo(codec, Log(w, id), |Log(w, id)|)
  }

  lemma ReadingEndsAtTheEnd(codec: Codec, log: seq<byte>, offset: nat)
    requires offset <= |log|
    ensures ReadToTheEnd(log, WatchSpec(codec, log, offset).next)
  {
    LastNewlineEndFinds(log, |log|);
  }

  lemma ReadToTheEndIsAll(codec: Codec, log: seq<byte>, offset: nat)
    requires OnBoundary(log, offset) && ReadToTheEnd(log, offset)
    ensures EventsUpTo(codec, log, offset) == EventsUpTo(codec, log, |log|)
  {
    LinesSplit(log, 0, offset, |log|);
    forall i | offset <= i < |log|
      ensures log[i] != NEWLINE
    {
      assert log[i] == log[offset..][i - offset];
    }
    FirstNewlineIs(log, offset, |log|, |log|);
    Nothing(Lines(log, 0, offset));
  }

  lemma ReadToTheEndIsWhole(codec: Codec, w: World, id: RunId)
    requires Inv(codec, w) && id in w.runs && ReadToTheEnd(Log(w, id), w.runs[id].lastOffset)
    ensures Whole(codec, w, id)
  {
    assert RowOk(codec, w, id, w.runs[id]);
    ReadToTheEndIsAll(codec, Log(w, id), w.runs[id].lastOffset);
  }

  lemma RecoveryReadsOn(row: Row, late: Observation, out: Outside)
    requires row.provider.Some? && row.lastOffset <= |out.log|
    ensures ReadToTheEnd(out.log, Recover(row, late, out).row.lastOffset)
  {
    ReadingEndsAtTheEnd(out.codec, out.log, row.lastOffset);
  }

  lemma ReconcilingReadsOn(row: Row, me: Option<Pid>, look: Look, out: Outside)
    requires row.state == Running && row.provider.Some? && row.lastOffset <= |out.log|
    ensures
      var e := Reconcile(row, me, look, out);
      if RouteOf(row, me, look).GoOn? then ReadToTheEnd(out.log, e.row.lastOffset)
      else e.row.lastOffset == row.lastOffset && e.events == []
  {
    RoutedRow(row, me, look);
    match RouteOf(row, me, look)
    case GoOn(judged) =>
      assert judged in {row, row.(supervisor := None)};
      RecoveryReadsOn(judged, look.late, out);
    case _ =>
  }

  lemma CleaningReadsOn(row: Row, out: Outside)
    requires EventClose in row.remaining && row.provider.Some? && row.lastOffset <= |out.log|
    ensures ReadToTheEnd(out.log, CleanUp(row, out).row.lastOffset)
  {
    ReadingEndsAtTheEnd(out.codec, out.log, row.lastOffset);
  }

  lemma SweepingReadsOn(row: Row, worker: Observation, seen: Observation, out: Outside)
    requires EventClose in row.remaining && row.provider.Some? && row.lastOffset <= |out.log|
    ensures
      var e := Sweep(row, worker, seen, out);
      EventClose !in e.row.remaining && e.row.state != Running ==> ReadToTheEnd(out.log, e.row.lastOffset)
  {
    CleaningReadsOn(row, out);
  }

  /** The row a step saves, and the events it appends. */
  lemma StepSaves(codec: Codec, w: World, step: Step)
    requires Enabled(w, step) && OnRun(step)
    ensures
      var e, w' := EffectOf(codec, w, step), Take(codec, w, step);
      && step.id in w'.runs && w'.runs[step.id] == e.row && w'.stored == Appended(w.stored, step.id, e.events)
      && Log(w', step.id) == Log(w, step.id)
  {
  }

  /** Reconciling a running run reads its file to the end exactly when nobody else
      may be attending to it; otherwise it reads nothing. */
  lemma ReconcileReadsOn(codec: Codec, w: World, step: Step)
    requires Inv(codec, w) && Enabled(w, step) && step.ReconcileRun? && w.runs[step.id].state == Running
    ensures
      var row, w' := w.runs[step.id], Take(codec, w, step);
      if Unattended(w, row, step.me, step.unreadable)
      then ReadToTheEnd(Log(w', step.id), w'.runs[step.id].lastOffset) && Whole(codec, w', step.id)
      else w'.runs[step.id].lastOffset == row.lastOffset && w'.stored == w.stored
  {
    var row, look := w.runs[step.id], LookAt(OS(w.alive, step.unreadable), w.runs[step.id]);
    assert RowOk(codec, w, step.id, row);
    RouteIs(w, row, step.me, step.unreadable);
    TakeKeepsInv(codec, w, step);
    StepSaves(codec, w, step);
    ReconcilingReadsOn(row, step.me, look, Outside(codec, Log(w, step.id), step.renewCode, step.releaseCode));
    if RouteOf(row, step.me, look).GoOn? {
      ReadToTheEndIsWhole(codec, Take(codec, w, step), step.id);
    }
  }

  /** A sweep that closes the events of a run with a provider has read them to the end. */
  lemma SweepReadsOn(codec: Codec, w: World, step: Step)
    requires Inv(codec, w) && Enabled(w, step) && step.SweepRun?
    requires EventClose in w.runs[step.id].remaining && w.runs[step.id].provider.Some?
    ensures
      var w' := Take(codec, w, step);
      EventClose !in w'.runs[step.id].remaining && w'.runs[step.id].state != Running ==>
        ReadToTheEnd(Log(w', step.id), w'.runs[step.id].lastOffset) && Whole(codec, w', step.id)
  {
    var row, os := w.runs[step.id], OS(w.alive, step.unreadable);
    assert RowOk(codec, w, step.id, row);
    TakeKeepsInv(codec, w, step);
    StepSaves(codec, w, step);
    SweepingReadsOn(row, ObserveSupervisor(os, row), ObserveProvider(os, row),
                    Outside(codec, Log(w, step.id), 0, step.releaseCode));
    var w' := Take(codec, w, step);
    if EventClose !in w'.runs[step.id].remaining && w'.runs[step.id].state != Running {
      ReadToTheEndIsWhole(codec, w', step.id);
    }
  }

  // ----- And stays so -----

  /** The run is known, and while it is in the ledger its file is read to the end. */
  predicate AtTheEnd(w: World, id: RunId) {
    id in w.issued && (id in w.runs ==> ReadToTheEnd(Log(w, id), w.runs[id].lastOffset))
  }

  predicate LeavesTheFile(id: RunId, step: Step) {
    step.FileGrows? ==> step.id != id
  }

  lemma StepStaysAtTheEnd(codec: Codec, w: World, step: Step, id: RunId)
    requires Inv(codec, w) && Enabled(w, step) && AtTheEnd(w, id) && LeavesTheFile(id, step)
    ensures AtTheEnd(Take(codec, w, step), id)
  {
    if OnRun(step) && step.id == id {
      EffectKeepsRow(codec, w, step);
      assert RowOk(codec, w, id, w.runs[id]);
      ReadingEndsAtTheEnd(codec, Log(w, id), w.runs[id].lastOffset);
    }
  }

  lemma {:induction false} StaysAtTheEnd(codec: Codec, w: World, steps: seq<Step>, id: RunId)
    requires Inv(codec, w) && Possible(codec, w, steps) && AtTheEnd(w, id)
    requires forall step | step in steps :: LeavesTheFile(id, step)
    ensures Inv(codec, After(codec, w, steps)) && AtTheEnd(After(codec, w, steps), id)
    decreases |steps|
  {
    if steps != [] {
      assert steps[0] in steps && forall step | step in steps[1..] :: step in steps;
      TakeKeepsInv(codec, w, steps[0]);
      StepStaysAtTheEnd(codec, w, steps[0], id);
      StaysAtTheEnd(codec, Take(codec, w, steps[0]), steps[1..], id);
    }
  }

  /** Once reconciling has finished a run, whatever happens then, and as long as its
      file does not grow, the event table holds every complete line of it. */
  lemma {:induction false} FinishedRunsAreWhole(
      codec: Codec, w: World, before: seq<Step>, step: Step, more: seq<Step>)
    requires Initial(w) && Possible(codec, w, before)
    requires
      var last := After(codec, w, before);
      && Enabled(last, step) && step.ReconcileRun? && last.runs[step.id].state == Running
      && IsFinished(Take(codec, last, step).runs[step.id])
      && Possible(codec, Take(codec, last, step), more)
    requires forall later | later in more :: LeavesTheFile(step.id, later)
    ensures
      var end := After(codec, Take(codec, After(codec, w, before), step), more);
      step.id in end.runs ==> Whole(codec, end, step.id)
  {
    InvariantOverRuns(codec, w, before);
    var last := After(codec, w, before);
    var finished := Take(codec, last, step);
    RouteIs(last, last.runs[step.id], step.me, step.unreadable);
    ReconcileReadsOn(codec, last, step);
    TakeKeepsInv(codec, last, step);
    assert step.id in last.runs.Keys;
    StaysAtTheEnd(codec, finished, more, step.id);
    var end := After(codec, finished, more);
    if step.id in end.runs {
      ReadToTheEndIsWhole(codec, end, step.id);
    }
  }

  // ----- What reconciling makes of a run -----

  /** The terminal state that a file's last event stands for. */
  predicate EndsAs(state: State, kind: Option<Kind>) {
    && (state == Succeeded <==> kind == Some(CompletedEvent))
    && (state == Cancelled <==> kind == Some(CancelledEvent))
    && (state == Failed <==> kind !in {Some(CompletedEvent), Some(CancelledEvent)})
  }

  predicate IsBack(row: Row, code: int) {
    row.lease.None? || code == 0 || code == 5
  }

  lemma TerminalStates(kind: Option<Kind>)
    ensures EndsAs(TerminalBy(kind), kind)
  {
  }

  predicate ProviderGone(w: World, row: Row, unreadable: set<Pid>) {
    row.provider.Some? && row.provider.value.identity.Some? && SeenGone(w, unreadable, row.provider.value.pid)
  }

  predicate ProviderThere(w: World, row: Row, unreadable: set<Pid>) {
    row.provider.Some? && SeenAlive(w, unreadable, row.provider.value.pid, row.provider.value.identity)
  }

  lemma JudgedIs(w: World, row: Row, unreadable: set<Pid>)
    requires row.provider.Some?
    ensures
      var verdict := Judge(row.provider.value, ObserveProvider(OS(w.alive, unreadable), row));
      && (verdict.Exited? <==> ProviderGone(w, row, unreadable))
      && (verdict.Resumed? <==> ProviderThere(w, row, unreadable))
  {
  }

  /** What judging the provider makes of the row. */
  predicate JudgedAs(row: Row, e: Effect, gone: bool, there: bool, kind: Option<Kind>, code: int, renewCode: int) {
    && (gone && IsBack(row, code) ==> e.row.remaining == [] && EndsAs(e.row.state, kind))
    && (gone && !IsBack(row, code) ==> e.row.state == RecoveryRequired && e.row.remaining == [LeaseRelease])
    && (there ==> e.row.state == row.state)
    && (!gone && !there ==> e.row.state == RecoveryRequired && e.row.remaining == [])
    && (e.call == Some(Renewed(renewCode)) <==> there && !row.handedOver)
    && (e.call == Some(Released(code)) <==> gone && row.lease.Some?)
    && (e.row.handedOver <==> row.handedOver || (there && renewCode == 5))
    && e.row.stage == (if there then row.stage
                       else if !gone then Some(Recovery)
                       else if !IsBack(row, code) then Some(Cleanup)
                       else if e.row.state == Failed then Some(RoleSession)
                       else None)
  }

  lemma RecoveringJudges(w: World, row: Row, unreadable: set<Pid>, out: Outside)
    requires row.provider.Some?
    ensures JudgedAs(row, Recover(row, ObserveProvider(OS(w.alive, unreadable), row), out),
                     ProviderGone(w, row, unreadable), ProviderThere(w, row, unreadable),
                     LastKind(out.codec, out.log), out.releaseCode, out.renewCode)
  {
    JudgedIs(w, row, unreadable);
    TerminalStates(LastKind(out.codec, out.log));
  }

  /** What reconciling makes of a running run. */
  predicate ReconciledAs(
      w: World, row: Row, me: Option<Pid>, unreadable: set<Pid>, e: Effect, kind: Option<Kind>, code: int,
      renewCode: int)
  {
    var gone, there := ProviderGone(w, row, unreadable), ProviderThere(w, row, unreadable);
    if Unattended(w, row, me, unreadable) then
      && JudgedAs(row, e, gone, there, kind, code, renewCode)
      && e.row.supervisor == (if SupervisedByAnother(row, me) && there then None else row.supervisor)
    else if MayBeAttended(w, row, me, unreadable) then e == Untouched(row)
    else
      e.row.state == RecoveryRequired && e.row.stage == Some(Recovery) && e.row.remaining == ALL_STEPS && e.call.None?
  }

  lemma RecoveringKeepsSupervisor(row: Row, late: Observation, out: Outside)
    requires row.provider.Some?
    ensures Recover(row, late, out).row.supervisor == row.supervisor
  {
  }

  lemma RouteClears(w: World, row: Row, me: Option<Pid>, unreadable: set<Pid>)
    requires row.provider.Some? && Unattended(w, row, me, unreadable)
    ensures
      var route := RouteOf(row, me, LookAt(OS(w.alive, unreadable), row));
      && route.GoOn?
      && route.row == if SupervisedByAnother(row, me) && ProviderThere(w, row, unreadable)
                      then row.(supervisor := None) else row
  {
    RouteIs(w, row, me, unreadable);
  }

  lemma ReconcilingIs(w: World, row: Row, me: Option<Pid>, unreadable: set<Pid>, out: Outside)
    requires row.state == Running && row.provider.Some?
    ensures ReconciledAs(w, row, me, unreadable, Reconcile(row, me, LookAt(OS(w.alive, unreadable), row), out),
                         LastKind(out.codec, out.log), out.releaseCode, out.renewCode)
  {
    var look := LookAt(OS(w.alive, unreadable), row);
    RouteIs(w, row, me, unreadable);
    match RouteOf(row, me, look)
    case GoOn(judged) =>
      RouteClears(w, row, me, unreadable);
      RecoveringJudges(w, judged, unreadable, out);
      RecoveringKeepsSupervisor(judged, look.late, out);
    case _ =>
  }

  /** A running run is judged by its provider exactly when nobody may be attending
      to it: a provider that is gone ends it as the file's last event says once the
      lease is back, one that is there leaves it running, rid of a supervisor that
      is gone, and its lease renewed until it was handed over.  Who may be attended is
      left alone; any other is dropped with every step open. */
  lemma ReconciledRunIs(codec: Codec, w: World, step: Step)
    requires Inv(codec, w) && Enabled(w, step) && step.ReconcileRun? && w.runs[step.id].state == Running
    ensures ReconciledAs(w, w.runs[step.id], step.me, step.unreadable, EffectOf(codec, w, step),
                         LastKind(codec, Log(w, step.id)), step.releaseCode, step.renewCode)
  {
    assert RowOk(codec, w, step.id, w.runs[step.id]);
    ReconcilingIs(w, w.runs[step.id], step.me, step.unreadable,
                  Outside(codec, Log(w, step.id), step.renewCode, step.releaseCode));
  }

  /** A run without a provider yet fails when nobody may be attending to it; one that
      reserved needs its lease back for that. */
  lemma ReconciledNewbornIs(codec: Codec, w: World, step: Step)
    requires Inv(codec, w) && Enabled(w, step) && step.ReconcileRun? && w.runs[step.id].state in {Queued, Reserved}
    ensures
      var row, e := w.runs[step.id], EffectOf(codec, w, step);
      var back := IsBack(row, step.releaseCode);
      if Unattended(w, row, step.me, step.unreadable) then
        && e.row.stage == Some(ProviderStart) && e.row.supervisor == row.supervisor
        && e.row.state == (if back then Failed else RecoveryRequired)
        && e.row.remaining == (if back then [] else [LeaseRelease])
        && (e.call == Some(Released(step.releaseCode)) <==> row.lease.Some?)
      else if MayBeAttended(w, row, step.me, step.unreadable) then e == Untouched(row)
      else e.row.state == RecoveryRequired && e.row.remaining == ALL_STEPS && e.call.None?
  {
    var row := w.runs[step.id];
    assert RowOk(codec, w, step.id, row);
    RouteIs(w, row, step.me, step.unreadable);
  }

  // ----- What a sweep makes of a dropped run -----

  /** The provider is gone; a reused pid counts as gone. */
  predicate ProviderLeft(w: World, row: Row, unreadable: set<Pid>) {
    row.provider.Some? ==>
      var pid, identity := row.provider.value.pid, row.provider.value.identity;
      || SeenGone(w, unreadable, pid)
      || (pid in w.alive && pid !in unreadable && identity.Some? && identity.value != w.alive[pid])
  }

  predicate SupervisorLeft(w: World, row: Row, unreadable: set<Pid>) {
    row.supervisor.Some? && row.supervisor.value.identity.Some? ==> SeenGone(w, unreadable, row.supervisor.value.pid)
  }

  lemma CleaningEnds(row: Row, out: Outside)
    requires IsOccupying(row)
    ensures
      var e := CleanUp(row, out);
      IsFinished(e.row) ==>
        EndsAs(e.row.state, if row.provider.Some? then LastKind(out.codec, out.log) else None)
  {
    TerminalStates(LastKind(out.codec, out.log));
    TerminalStates(None);
    OpenStepsAreKnown(CleanUp(row, out).row.remaining);
  }

  predicate OnlyTheLeaseIsOpen(row: Row) {
    LeaseRelease in row.remaining && ProcessTermination !in row.remaining && EventClose !in row.remaining
  }

  lemma CleaningLeaves(row: Row, out: Outside)
    requires IsOccupying(row)
    ensures
      var e := CleanUp(row, out);
      && (!IsFinished(e.row) ==> e.row.state == row.state && e.row.stage == row.stage && OnlyTheLeaseIsOpen(e.row))
      && (e.call == Some(Released(out.releaseCode)) <==> LeaseRelease in row.remaining && row.lease.Some?)
  {
    var some := Without(row.remaining, ProcessTermination);
    var open := Without(some, EventClose);
    WithoutDrops(row.remaining, ProcessTermination);
    WithoutDrops(some, EventClose);
    WithoutDrops(open, LeaseRelease);
    OpenStepsAreKnown(CleanUp(row, out).row.remaining);
  }

  /** What a sweep makes of a dropped run. */
  predicate SweptAs(row: Row, e: Effect, nobodyLeft: bool, kind: Option<Kind>, code: int) {
    && (IsFinished(e.row) <==> nobodyLeft && (LeaseRelease in row.remaining ==> IsBack(row, code)))
    && (IsFinished(e.row) ==> EndsAs(e.row.state, if row.provider.Some? then kind else None))
    && (nobodyLeft && !IsFinished(e.row) ==>
          e.row.state == RecoveryRequired && e.row.stage == row.stage && OnlyTheLeaseIsOpen(e.row))
    && (e.call == Some(Released(code)) <==> nobodyLeft && LeaseRelease in row.remaining && row.lease.Some?)
    && (!nobodyLeft && !IsActive(e.row) ==> e == Untouched(row))
  }

  lemma SweepingIs(row: Row, worker: Observation, seen: Observation, out: Outside)
    requires IsOccupying(row)
    ensures SweptAs(row, Sweep(row, worker, seen, out), SupervisorOut(row, worker) && ProviderOut(row, seen),
                    LastKind(out.codec, out.log), out.releaseCode)
  {
    SweepFinishesIff(row, worker, seen, out);
    if SweepDecision(row, worker, seen).Clean? {
      CleaningEnds(row, out);
      CleaningLeaves(row, out);
    }
  }

  /** A sweep ends a dropped run exactly when nobody is left to protect and the lease,
      if its release is still open, is given back; and it ends it as the last event
      of its file says.  A run it can neither end nor adopt keeps its slot, and no step
      open but the release. */
  lemma SweptRunIs(codec: Codec, w: World, step: Step)
    requires Inv(codec, w) && Enabled(w, step) && step.SweepRun?
    ensures
      var row := w.runs[step.id];
      SweptAs(row, EffectOf(codec, w, step),
              SupervisorLeft(w, row, step.unreadable) && ProviderLeft(w, row, step.unreadable),
              LastKind(codec, Log(w, step.id)), step.releaseCode)
  {
    var row, os := w.runs[step.id], OS(w.alive, step.unreadable);
    SweepingIs(row, ObserveSupervisor(os, row), ObserveProvider(os, row),
               Outside(codec, Log(w, step.id), 0, step.releaseCode));
  }

  // ----- What a cancel makes of a run -----

  /** A cancel stops what is there under the recorded identity and nothing else; the
      run ends cancelled exactly when nothing of it runs on and its lease is back,
      and otherwise keeps exactly the steps that are still open. */
  lemma CancelledRunIs(codec: Codec, w: World, step: Step)
    requires Enabled(w, step) && step.CancelRun?
    ensures
      var row, e := w.runs[step.id], EffectOf(codec, w, step);
      var killed := ProviderThere(w, row, step.unreadable) && step.treeDied;
      var stopped := row.provider.None? || SeenGone(w, step.unreadable, row.provider.value.pid) || killed;
      var back := IsBack(row, step.releaseCode);
      && (e.row.state == Cancelled <==> stopped && back)
      && (e.row.state != Cancelled ==> e.row.state == RecoveryRequired)
      && (ProcessTermination in e.row.remaining <==> !stopped)
      && (LeaseRelease in e.row.remaining <==> !back) && EventClose !in e.row.remaining
      && e.killed == (if killed then Some(row.provider.value.pid) else None)
      && (e.call == Some(Released(step.releaseCode)) <==> row.lease.Some?)
  {
  }

  // ----- What a start makes of a queued run -----

  /** The target may be taken by this run. */
  predicate Takes(row: Row, ans: StartAnswers) {
    ans.reserve.Granted? && (row.manual == [] || ans.reserve.lease.target in row.manual)
  }

  /** A start goes as far as its answers and its own life let it: it records the lease
      it was granted on a target it may take, creates a process if the store returned
      that lease, and is running exactly when it lived to save the handle. */
  lemma StartedRunIs(row: Row, ans: StartAnswers)
    requires StateOk(row) && row.state == Queued
    requires ans.preflight.Refuse? ==> ans.preflight.state in {Idle, NotStarted}
    ensures
      var e := Start(row, ans);
      var reserves := ans.preflight.Proceed? && ans.crash != AtOnce;
      var leased := reserves && Takes(row, ans) && ans.crash != AfterReserving;
      var spawns := leased && ans.readBack && ans.launch.Launched? && ans.crash != AfterSavingLease;
      && (e.row.lease.Some? <==> leased) && (leased ==> e.row.lease == Some(ans.reserve.lease))
      && e.spawned == (if spawns then Some(Proc(ans.launch.pid, ans.launch.identity)) else None)
      && (e.row.state == Running <==> spawns && ans.crash == Never)
      && (e.row.state == Running ==>
            e.row.provider == Some(Handle(ans.launch.pid,
                                          if ans.launch.readable then Some(ans.launch.identity) else None)))
      && (e.row.state == Queued <==> ans.crash == AtOnce)
      && (ans.preflight.Refuse? && ans.crash != AtOnce ==> e.row.state == ans.preflight.state)
  {
  }

  /** And when it lived to the end without a provider, how the run ends says why. */
  lemma UnstartedRunIs(row: Row, ans: StartAnswers)
    requires StateOk(row) && row.state == Queued && ans.preflight.Proceed? && ans.crash == Never
    ensures
      var e := Start(row, ans);
      var untaken := ans.reserve.Unavailable? && !ans.reserve.deferred;
      var unlaunched := Takes(row, ans) && ans.readBack && !ans.launch.Launched?;
      && (e.row.state == Idle <==> untaken && row.manual == [])
      && (e.row.state == NotStarted <==> untaken && row.manual != [])
      && (e.row.state == RecoveryRequired <==> unlaunched && ans.releaseCode !in {0, 5})
      && (e.row.state == RecoveryRequired ==> e.row.remaining == [LeaseRelease])
      && (e.call == Some(Released(ans.releaseCode)) <==>
            ans.reserve.Granted? && !(Takes(row, ans) && ans.readBack && ans.launch.Launched?))
      && (e.row.state == Failed <==>
            || ans.reserve.Refused? || (ans.reserve.Unavailable? && ans.reserve.deferred)
            || (ans.reserve.Granted? && !(Takes(row, ans) && ans.readBack))
            || (unlaunched && ans.releaseCode in {0, 5}))
      && (e.row.state in {Failed, RecoveryRequired} ==>
            e.row.stage == Some(if ans.reserve.Refused? then ans.reserve.stage
                                else if unlaunched && !ans.launch.Mismatched? then ProviderStart
                                else Reservation))
  {
  }

  /** The start died between two of its saves, and its row has been left waiting. */
  predicate DiesWaiting(row: Row, ans: StartAnswers) {
    || ans.crash == AtOnce
    || (ans.preflight.Proceed?
        && (ans.crash == AfterReserving
            || (ans.crash == AfterSavingLease && Takes(row, ans))
            || (ans.crash == AfterLaunching && Takes(row, ans) && ans.readBack)))
  }

  lemma WaitingRunIs(row: Row, ans: StartAnswers)
    requires StateOk(row) && row.state == Queued
    requires ans.preflight.Refuse? ==> ans.preflight.state in {Idle, NotStarted}
    ensures Start(row, ans).row.state in {Queued, Reserved} <==> DiesWaiting(row, ans)
    ensures Start(row, ans).row.manual == row.manual && Start(row, ans).row.supervisor == row.supervisor
  {
  }

  /** A run whose worker was seen to die is no longer waiting. */
  lemma NoticedRunIs(row: Row, out: Outside)
    requires StateOk(row) && row.state in {Queued, Reserved}
    ensures
      var after := Reconcile(row, None, ALL_GONE, out).row;
      && after.state in {Failed, RecoveryRequired} && after.manual == row.manual && after.lease == row.lease
  {
  }

  /** A launch gives a running run exactly when every answer let it, and a waiting one
      exactly when its worker died between two saves and nobody noticed; the ledger
      keeps a row for all but those that never became an execution. */
  lemma LaunchedRunIs(project: ProjectId, role: Role, manual: seq<Target>, ans: LaunchAnswers)
    requires PlausibleAnswers(ans)
    ensures
      var outcome := LaunchOutcome(project, role, manual, ans);
      var row, queued := outcome.row, NewRow(project, role, manual, Queued);
      var tries := ans.preflight.Proceed? && ans.worker.Some?;
      && (row.state == Running <==>
            && tries && ans.start.preflight.Proceed? && Takes(queued, ans.start) && ans.start.readBack
            && ans.start.launch.Launched? && ans.start.crash == Never)
      && (row.state in {Queued, Reserved} <==> tries && !ans.noticed && DiesWaiting(queued, ans.start))
      && (ans.preflight.Refuse? ==> row.state == ans.preflight.state)
      && (ans.preflight.Proceed? && ans.worker.None? ==> row.state == Failed && row.stage == Some(ProviderStart))
      && (outcome.kept <==> row.state !in {Idle, NotStarted})
      && row.project == project && row.role == role && row.manual == manual
      && (row.lease.Some? ==> Takes(queued, ans.start) && row.lease == Some(ans.start.reserve.lease))
      && (row.state in {Queued, Reserved, Running} ==> row.supervisor == ans.worker)
  {
    if ans.preflight.Proceed? && ans.worker.Some? {
      var queued := NewRow(project, role, manual, Queued).(supervisor := ans.worker);
      StartedRunIs(queued, ans.start);
      WaitingRunIs(queued, ans.start);
      var row := Start(queued, ans.start).row;
      StartKeepsState(queued, ans.start);
      if row.state in {Queued, Reserved} {
        NoticedRunIs(row, ans.out);
      }
      LaunchOutcomeOk(project, role, manual, ans);
    }
  }

  lemma StartKeepsState(row: Row, ans: StartAnswers)
    requires StateOk(row) && row.state == Queued
    requires ans.preflight.Refuse? ==> ans.preflight.state in {Idle, NotStarted}
    ensures StateOk(Start(row, ans).row)
  {
  }

  // ----- From the provider's lines to the ledger -----

  /** The run's file is what supervising these lines and this exit has written. */
  predicate Supervising(
      w: World, id: RunId, c: SupervisedRun.Contract, lines: seq<SupervisedRun.OutputLine>, exit: SupervisedRun.Exit)
  {
    Log(w, id) == SupervisedRun.Written(c, EventsOf(c, lines, exit))
  }

  function EventsOf(c: SupervisedRun.Contract, lines: seq<SupervisedRun.OutputLine>, exit: SupervisedRun.Exit)
    : (events: seq<Event>)
    ensures events != []
  {
    var s := SupervisedRun.ConsumedAll(c, SupervisedRun.NEW_STREAM, lines);
    SupervisedRun.Closed(c, s.events, SupervisedRun.VerdictOn(s, exit))
  }

  /** The ledger ends a run whose supervisor has written its verdict as succeeded
      exactly when its lines and its exit make it a success, and as cancelled exactly
      when it was cancelled, provided that the verdict's line fits the tail it reads;
      in every other case as failed. */
  lemma {:induction false} SupervisedRunEndsAs(
      codec: Codec, w: World, step: Step, c: SupervisedRun.Contract, lines: seq<SupervisedRun.OutputLine>,
      exit: SupervisedRun.Exit)
    requires Inv(codec, w) && Enabled(w, step) && step.ReconcileRun? && w.runs[step.id].state == Running
    requires Unattended(w, w.runs[step.id], step.me, step.unreadable)
    requires ProviderGone(w, w.runs[step.id], step.unreadable) && IsBack(w.runs[step.id], step.releaseCode)
    requires Supervising(w, step.id, c, lines, exit)
    requires
      var events := EventsOf(c, lines, exit);
      SupervisedRun.Readable(c, codec, events[|events| - 1])
    ensures
      var events, row' := EventsOf(c, lines, exit), Take(codec, w, step).runs[step.id];
      var fits := SupervisedRun.FitsTheTail(c, events[|events| - 1]);
      && (row'.state == Succeeded <==> SupervisedRun.Succeeds(c, lines, exit) && fits)
      && (row'.state == Cancelled <==> exit.how == SupervisedRun.CancelRequested && fits)
      && row'.state in {Succeeded, Cancelled, Failed} && row'.remaining == []
  {
    ReconciledRunIs(codec, w, step);
    StepSaves(codec, w, step);
    SupervisedRun.VerdictIs(c, lines, exit);
    var s := SupervisedRun.ConsumedAll(c, SupervisedRun.NEW_STREAM, lines);
    SupervisedRun.LedgerReadsTheVerdictIff(c, codec, s, exit);
  }

  /** And it then holds exactly the run's events, each once and in order. */
  lemma {:induction false} SupervisedRunIsWhole(
      codec: Codec, w: World, step: Step, c: SupervisedRun.Contract, lines: seq<SupervisedRun.OutputLine>,
      exit: SupervisedRun.Exit)
    requires Inv(codec, w) && Enabled(w, step) && step.ReconcileRun? && w.runs[step.id].state == Running
    requires Unattended(w, w.runs[step.id], step.me, step.unreadable)
    requires Supervising(w, step.id, c, lines, exit)
    requires forall e | e in EventsOf(c, lines, exit) :: SupervisedRun.Decodable(c, codec, e)
    ensures Stored(Take(codec, w, step), step.id) == EventsOf(c, lines, exit)
  {
    ReconcileReadsOn(codec, w, step);
    StepSaves(codec, w, step);
    SupervisedRun.WrittenDecodes(c, codec, EventsOf(c, lines, exit));
  }
}
