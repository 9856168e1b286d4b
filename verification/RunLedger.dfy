/** One run row and what each operation of the dispatcher makes of it: start,
    reconcile, sweep and cancel.  Every operation is a function from the row and
    the answers the outside world gave to an `Effect`. */
module RunLedger {
  import opened Prelude
  import opened EventLog

  type Pid = p: int | 0 < p witness 1
  type Identity = nat
  /** A process is its pid together with its creation identity: the pair never
      comes back once the process is gone, even when the pid does. */
  datatype Proc = Proc(pid: Pid, identity: Identity)

  type ProjectId = nat
  type Target = nat
  type RunId = nat

  datatype Role = Planner | Architect | Developer

  datatype State =
    | Queued | Reserved | Running | Paused
    | RecoveryRequired
    | Succeeded | Failed | Cancelled
    | Idle | NotStarted

  datatype Stage = Recovery | Cleanup | ProviderStart | RoleSession | Reservation | RequestValidation

  datatype CleanupStep = ProcessTermination | EventClose | LeaseRelease

  const ALL_STEPS := [ProcessTermination, EventClose, LeaseRelease]

  /** The reserved work: target and lease are always recorded together. */
  datatype Lease = Lease(target: Target, lease: nat)

  /** A started provider as persisted.  The creation identity is missing when
      the process could not be read at the moment it was recorded. */
  datatype Handle = Handle(pid: Pid, identity: Option<Identity>)

  datatype Supervisor = Supervisor(pid: Pid, identity: Option<Identity>)

  datatype Row = Row(
    project: ProjectId,
    role: Role,
    manual: seq<Target>,
    state: State,
    lease: Option<Lease>,
    provider: Option<Handle>,
    supervisor: Option<Supervisor>,
    lastOffset: nat,
    handedOver: bool,
    stage: Option<Stage>,
    remaining: seq<CleanupStep>)

  function NewRow(project: ProjectId, role: Role, manual: seq<Target>, state: State): Row {
    Row(project, role, manual, state, None, None, None, 0, false, None, [])
  }

  predicate IsActive(row: Row) {
    row.state in {Reserved, Queued, Running, Paused}
  }

  /** A dropped run whose cleanup is not finished still holds its slot. */
  predicate IsOccupying(row: Row) {
    row.state == RecoveryRequired && row.remaining != []
  }

  predicate HoldsSlot(row: Row) {
    IsActive(row) || IsOccupying(row)
  }

  predicate IsFinished(row: Row) {
    row.state in {Succeeded, Failed, Cancelled}
  }

  // ----- Observing processes -----

  datatype Observation = Alive(identity: Identity) | Gone | Unknown

  /** One snapshot of the operating system: the live processes, and the pids it
      refuses to report on. */
  datatype OS = OS(alive: map<Pid, Identity>, unreadable: set<Pid>)

  function Observe(os: OS, pid: Pid): Observation {
    if pid in os.unreadable then Unknown
    else if pid in os.alive then Alive(os.alive[pid])
    else Gone
  }

  /** The process observations `reconcile_run` makes, in program order: the
      supervisor twice, then the provider twice. */
  datatype Look = Look(owner: Observation, worker: Observation, early: Observation, late: Observation)

  function ObserveSupervisor(os: OS, row: Row): Observation {
    if row.supervisor.Some? then Observe(os, row.supervisor.value.pid) else Gone
  }

  function ObserveProvider(os: OS, row: Row): Observation {
    if row.provider.Some? then Observe(os, row.provider.value.pid) else Gone
  }

  /** All four observations taken from one snapshot. */
  function LookAt(os: OS, row: Row): Look {
    var w := ObserveSupervisor(os, row);
    var p := ObserveProvider(os, row);
    Look(w, w, p, p)
  }

  predicate Verified(seen: Observation, identity: Option<Identity>) {
    seen.Alive? && identity == Some(seen.identity)
  }

  // ----- Lease helper -----

  datatype LeaseCall = Renewed(code: int) | Released(code: int)

  /** Exit code 5 says the caller no longer owns the lease, which counts as released. */
  predicate Returned(code: int) {
    code == 0 || code == 5
  }

  predicate GaveBack(call: Option<LeaseCall>) {
    call.Some? && call.value.Released? && Returned(call.value.code)
  }

  /** `_release_lease`: without a recorded lease there is nothing to call. */
  function ReleaseCall(row: Row, code: int): Option<LeaseCall> {
    if row.lease.Some? then Some(Released(code)) else None
  }

  predicate LeaseIsBack(row: Row, code: int) {
    row.lease.None? || Returned(code)
  }

  // ----- Effects -----

  /** What one operation did: the row it saved, the events it appended, the
      lease helper call it made if any, and the process it created or killed. */
  datatype Effect = Effect(
    row: Row,
    events: seq<Event>,
    call: Option<LeaseCall>,
    spawned: Option<Proc>,
    killed: Option<Pid>)

  function Untouched(row: Row): Effect {
    Effect(row, [], None, None, None)
  }

  function Saved(row: Row, call: Option<LeaseCall>): Effect {
    Effect(row, [], call, None, None)
  }

  /** The helper and file side of an operation. */
  datatype Outside = Outside(codec: Codec, log: seq<byte>, renewCode: int, releaseCode: int)

  function TerminalBy(kind: Option<Kind>): State {
    match kind
    case Some(CompletedEvent) => Succeeded
    case Some(CancelledEvent) => Cancelled
    case _ => Failed
  }

  function Fail(row: Row, stage: Stage, state: State): Row {
    row.(state := state, stage := Some(stage))
  }

  /** The ledger lets go of a run it cannot judge, keeping every cleanup step open. */
  function Drop(row: Row, remaining: seq<CleanupStep>): Row {
    row.(state := RecoveryRequired, stage := Some(Recovery), remaining := remaining)
  }

  // ----- Reconcile -----

  predicate OwnedElsewhere(row: Row, me: Option<Pid>, seen: Observation) {
    && row.supervisor.Some?
    && Verified(seen, row.supervisor.value.identity)
    && me != Some(row.supervisor.value.pid)
  }

  datatype Route = Leave | LetGo | GoOn(row: Row)

  /** Whether reconciling judges the row at all, given who supervises it. */
  function RouteOf(row: Row, me: Option<Pid>, look: Look): Route {
    if OwnedElsewhere(row, me, look.owner) then Leave
    else if row.supervisor.Some? && row.supervisor.value.identity.Some? && me != Some(row.supervisor.value.pid) then
      match look.worker
      case Unknown => Leave
      case Alive(identity) => if Some(identity) != row.supervisor.value.identity then LetGo else GoOn(row)
      case Gone =>
        if row.provider.None? || look.early.Gone? then GoOn(row)
        else if Verified(look.early, row.provider.value.identity) then GoOn(row.(supervisor := None))
        else LetGo
    else GoOn(row)
  }

  function Reconcile(row: Row, me: Option<Pid>, look: Look, out: Outside): Effect {
    match RouteOf(row, me, look)
    case Leave => Untouched(row)
    case LetGo => Saved(Drop(row, ALL_STEPS), None)
    case GoOn(judged) => Settle(judged, look.late, out)
  }

  function Settle(row: Row, late: Observation, out: Outside): Effect {
    if row.state == Queued then Saved(Fail(row, ProviderStart, Failed), None)
    else if row.state == Reserved || row.provider.None? then
      var back := LeaseIsBack(row, out.releaseCode);
      Saved(
        Fail(row.(remaining := if back then [] else [LeaseRelease]), ProviderStart,
             if back then Failed else RecoveryRequired),
        ReleaseCall(row, out.releaseCode))
    else Recover(row, late, out)
  }

  datatype Verdict = Resumed | Unjudged | Exited

  /** `recover_run`: what the persisted handle names now. */
  function Judge(handle: Handle, seen: Observation): Verdict {
    if handle.identity.None? then Unjudged
    else
      match seen
      case Unknown => Unjudged
      case Gone => Exited
      case Alive(identity) => if Some(identity) != handle.identity then Unjudged else Resumed
  }

  function Recover(row: Row, late: Observation, out: Outside): Effect
    requires row.provider.Some?
  {
    var batch := WatchSpec(out.codec, out.log, row.lastOffset);
    var drained := row.(lastOffset := batch.next);
    match Judge(row.provider.value, late)
    case Resumed =>
      if row.handedOver then Effect(drained, batch.events, None, None, None)
      else Effect(drained.(handedOver := out.renewCode == 5), batch.events, Some(Renewed(out.renewCode)), None, None)
    case Unjudged => Effect(Drop(drained, []), batch.events, None, None, None)
    case Exited =>
      Effect(Conclude(drained, LastKind(out.codec, out.log), out.releaseCode), batch.events,
             ReleaseCall(row, out.releaseCode), None, None)
  }

  /** The terminal row of a run whose provider has exited. */
  function Conclude(row: Row, last: Option<Kind>, code: int): Row {
    if LeaseIsBack(row, code) then
      var terminal := TerminalBy(last);
      row.(state := terminal, remaining := [],
           stage := if terminal == Failed then Some(RoleSession) else None)
    else row.(state := RecoveryRequired, remaining := [LeaseRelease], stage := Some(Cleanup))
  }

  // ----- Sweep -----

  datatype SweepVerdict = Adopt(restored: Row) | Hold | Clean

  predicate RecoveryDrop(row: Row) {
    row.stage == Some(Recovery) && row.provider.Some?
  }

  function Restore(row: Row): Row {
    row.(state := Running, remaining := [], stage := None)
  }

  /** What one sweep pass decides about a dropped row, from one look at its
      supervisor and one at its provider. */
  function SweepDecision(row: Row, worker: Observation, provider: Observation): SweepVerdict {
    if row.supervisor.Some? && row.supervisor.value.identity.Some? && !worker.Gone? then
      if Verified(worker, row.supervisor.value.identity) && RecoveryDrop(row) then Adopt(Restore(row)) else Hold
    else if row.provider.None? then Clean
    else
      match provider
      case Unknown => Hold
      case Gone => Clean
      case Alive(identity) =>
        if row.provider.value.identity.None? then Hold
        else if Some(identity) != row.provider.value.identity then Clean
        else if RecoveryDrop(row) then Adopt(Restore(row.(supervisor := None)))
        else Hold
  }

  function Without(steps: seq<CleanupStep>, step: CleanupStep): seq<CleanupStep> {
    if steps == [] then []
    else if steps[0] == step then Without(steps[1..], step)
    else [steps[0]] + Without(steps[1..], step)
  }

  function Sweep(row: Row, worker: Observation, provider: Observation, out: Outside): Effect {
    match SweepDecision(row, worker, provider)
    case Adopt(restored) => Saved(restored, None)
    case Hold => Untouched(row)
    case Clean => CleanUp(row, out)
  }

  /** Run the remaining steps of a row that has nothing left to protect. */
  function CleanUp(row: Row, out: Outside): Effect {
    var closing := EventClose in row.remaining;
    var batch := if closing && row.provider.Some?
                 then WatchSpec(out.codec, out.log, row.lastOffset)
                 else Batch([], row.lastOffset);
    var releasing := LeaseRelease in row.remaining;
    var open := Without(Without(row.remaining, ProcessTermination), EventClose);
    var left := if releasing && LeaseIsBack(row, out.releaseCode) then Without(open, LeaseRelease) else open;
    var call := if releasing then ReleaseCall(row, out.releaseCode) else None;
    var drained := row.(lastOffset := batch.next, remaining := left);
    var last := if row.provider.Some? then LastKind(out.codec, out.log) else None;
    Effect(if left != [] then drained else drained.(state := TerminalBy(last)),
           batch.events, call, None, None)
  }

  // ----- Cancel -----

  /** `terminate_run_tree`: a reused or unreadable pid is never touched. */
  predicate MayTerminate(row: Row, seen: Observation) {
    row.provider.Some? && Verified(seen, row.provider.value.identity)
  }

  predicate Stopped(row: Row, seen: Observation, treeDied: bool) {
    row.provider.None? || seen.Gone? || (MayTerminate(row, seen) && treeDied)
  }

  function Cancel(row: Row, seen: Observation, treeDied: bool, code: int): Effect {
    var stopped := Stopped(row, seen, treeDied);
    var back := LeaseIsBack(row, code);
    var remaining := (if stopped then [] else [ProcessTermination]) + (if back then [] else [LeaseRelease]);
    Effect(
      row.(state := if remaining == [] then Cancelled else RecoveryRequired,
           remaining := remaining,
           stage := if remaining == [] then None else Some(Cleanup)),
      [],
      ReleaseCall(row, code),
      None,
      if MayTerminate(row, seen) && treeDied then Some(row.provider.value.pid) else None)
  }

  // ----- Start -----

  datatype Preflight = Proceed | Refuse(state: State, stage: Option<Stage>)

  datatype ReserveAnswer =
    | Unavailable(deferred: bool)      // exit code 1; is the eligibility helper the old, deferring one?
    | Refused(stage: Stage)            // a missing helper, a usage error or a malformed answer
    | Granted(lease: Lease)

  datatype LaunchAnswer =
    | Mismatched                       // the reservation names another role; nothing was started
    | NotLaunched                      // diagnostic, spawn, prompt or handle failure
    | Launched(pid: Pid, identity: Identity, readable: bool)

  /** Where the starting process dies, if it does: between two of its saves. */
  datatype Crash = Never | AtOnce | AfterReserving | AfterSavingLease | AfterLaunching

  datatype StartAnswers = StartAnswers(
    preflight: Preflight,
    reserve: ReserveAnswer,
    readBack: bool,                    // does the store return the lease just saved?
    launch: LaunchAnswer,
    releaseCode: int,
    crash: Crash)

  /** `_start_run_row`, up to the point where the starting process dies. */
  function Start(row: Row, ans: StartAnswers): Effect {
    if ans.crash == AtOnce then Untouched(row)
    else if ans.preflight.Refuse? then
      Saved(row.(state := ans.preflight.state, stage := ans.preflight.stage), None)
    else
      var reserved := row.(state := Reserved);
      match ans.reserve
      case Unavailable(deferred) =>
        if ans.crash == AfterReserving then Saved(reserved, None)
        else if deferred then Saved(Fail(reserved, Reservation, Failed), None)
        else if row.manual != [] then Saved(reserved.(state := NotStarted, stage := Some(Reservation)), None)
        else Saved(reserved.(state := Idle, stage := None), None)
      case Refused(stage) =>
        if ans.crash == AfterReserving then Saved(reserved, None)
        else Saved(Fail(reserved, stage, Failed), None)
      case Granted(lease) =>
        if ans.crash == AfterReserving then Saved(reserved, None)
        else if row.manual != [] && lease.target !in row.manual then
          Saved(Fail(reserved, Reservation, Failed), Some(Released(ans.releaseCode)))
        else Launch(reserved.(lease := Some(lease)), ans)
  }

  function Launch(leased: Row, ans: StartAnswers): Effect {
    if ans.crash == AfterSavingLease then Saved(leased, None)
    else if !ans.readBack then
      Saved(Fail(leased, Reservation, Failed), Some(Released(ans.releaseCode)))
    else
      match ans.launch
      case Launched(pid, identity, readable) =>
        var proc := Some(Proc(pid, identity));
        if ans.crash == AfterLaunching then Effect(leased, [], None, proc, None)
        else
          Effect(
            leased.(state := Running, provider := Some(Handle(pid, if readable then Some(identity) else None))),
            [], None, proc, None)
      case _ =>
        var call := Some(Released(ans.releaseCode));
        if ans.crash == AfterLaunching then Saved(leased, call)
        else
          var back := Returned(ans.releaseCode);
          Saved(
            Fail(leased.(remaining := if back then [] else [LeaseRelease]),
                 if ans.launch.Mismatched? then Reservation else ProviderStart,
                 if back then Failed else RecoveryRequired),
            call)
  }

  // ----- What every operation keeps of the row it works on -----

  predicate StateOk(row: Row) {
    && row.state != Paused
    && (row.state in {Queued, Reserved, Idle, NotStarted} ==> row.provider.None?)
    && (row.state in {Queued, Idle, NotStarted} ==> row.lease.None?)
    && (row.state == Running ==> row.provider.Some?)
    && (row.provider.Some? ==> row.lease.Some?)
    && (IsActive(row) ==> row.remaining == [])
  }

  /** The ledger treats the run's own lease as given back. */
  predicate CountsLeaseAsBack(row: Row) {
    row.lease.Some? && (IsFinished(row) || (IsOccupying(row) && LeaseRelease !in row.remaining))
  }

  /** The offset and the appended events moved together, by one drain or not at all. */
  predicate DrainedOnce(codec: Codec, log: seq<byte>, row: Row, e: Effect) {
    || (e.events == [] && e.row.lastOffset == row.lastOffset)
    || Batch(e.events, e.row.lastOffset) == WatchSpec(codec, log, row.lastOffset)
  }

  predicate KeepsRow(codec: Codec, log: seq<byte>, row: Row, e: Effect) {
    && StateOk(e.row)
    && (CountsLeaseAsBack(e.row) ==> CountsLeaseAsBack(row) || GaveBack(e.call))
    && (row.lease.Some? ==> e.row.lease == row.lease)
    && DrainedOnce(codec, log, row, e)
    && (e.row.provider != row.provider ==>
          && row.provider.None? && e.row.provider.Some? && e.spawned.Some?
          && e.spawned.value.pid == e.row.provider.value.pid
          && e.row.provider.value.identity in {None, Some(e.spawned.value.identity)})
    && (e.spawned.Some? && e.row.provider.Some? ==> row.provider.None?)
    && e.row.project == row.project && e.row.role == row.role
  }

  lemma LaunchKeeps(codec: Codec, log: seq<byte>, leased: Row, ans: StartAnswers)
    requires StateOk(leased) && leased.state == Reserved && leased.lease.Some? && ans.readBack
    ensures KeepsRow(codec, log, leased, Launch(leased, ans))
  {
  }

  lemma StartKeeps(codec: Codec, log: seq<byte>, row: Row, ans: StartAnswers)
    requires StateOk(row) && row.state == Queued && ans.readBack
    requires ans.preflight.Refuse? ==> ans.preflight.state in {Idle, NotStarted}
    ensures KeepsRow(codec, log, row, Start(row, ans))
  {
    if ans.reserve.Granted? {
      LaunchKeeps(codec, log, row.(state := Reserved, lease := Some(ans.reserve.lease)), ans);
    }
  }

  lemma RecoverKeeps(row: Row, late: Observation, out: Outside)
    requires StateOk(row) && row.state == Running
    ensures KeepsRow(out.codec, out.log, row, Recover(row, late, out))
  {
  }

  lemma SettleKeeps(row: Row, late: Observation, out: Outside)
    requires StateOk(row) && IsActive(row)
    ensures KeepsRow(out.codec, out.log, row, Settle(row, late, out))
  {
    if row.state == Running {
      RecoverKeeps(row, late, out);
    }
  }

  lemma ReconcileKeeps(row: Row, me: Option<Pid>, look: Look, out: Outside)
    requires StateOk(row) && IsActive(row)
    ensures KeepsRow(out.codec, out.log, row, Reconcile(row, me, look, out))
  {
    var route := RouteOf(row, me, look);
    if route.GoOn? {
      SettleKeeps(route.row, look.late, out);
    }
  }

  lemma {:induction false} WithoutDrops(steps: seq<CleanupStep>, step: CleanupStep)
    ensures step !in Without(steps, step)
    ensures forall s | s != step :: s in Without(steps, step) <==> s in steps
  {
    if steps != [] {
      WithoutDrops(steps[1..], step);
    }
  }

  lemma CleanUpKeeps(row: Row, out: Outside)
    requires StateOk(row) && IsOccupying(row)
    ensures KeepsRow(out.codec, out.log, row, CleanUp(row, out))
  {
    WithoutDrops(row.remaining, ProcessTermination);
    var rest := Without(row.remaining, ProcessTermination);
    WithoutDrops(rest, EventClose);
  }

  lemma SweepKeeps(row: Row, worker: Observation, provider: Observation, out: Outside)
    requires StateOk(row) && IsOccupying(row)
    ensures KeepsRow(out.codec, out.log, row, Sweep(row, worker, provider, out))
  {
    if SweepDecision(row, worker, provider).Clean? {
      CleanUpKeeps(row, out);
    }
  }

  lemma CancelKeeps(codec: Codec, log: seq<byte>, row: Row, seen: Observation, treeDied: bool, code: int)
    requires StateOk(row)
    ensures KeepsRow(codec, log, row, Cancel(row, seen, treeDied, code))
  {
  }

  /** Had the store not returned the lease it was just given, the start would
      finish the run anyway.  That conserves the lease exactly when the release
      it then makes is answered 0 or 5. */
  lemma StartConservesItsLeaseIff(row: Row, ans: StartAnswers)
    requires StateOk(row) && row.state == Queued
    requires ans.preflight.Refuse? ==> ans.preflight.state in {Idle, NotStarted}
    ensures
      var e := Start(row, ans);
      var leaseSaved :=
        && ans.preflight.Proceed? && ans.reserve.Granted?
        && (row.manual == [] || ans.reserve.lease.target in row.manual)
        && ans.crash in {Never, AfterLaunching};
      var conserved := CountsLeaseAsBack(e.row) ==> GaveBack(e.call);
      conserved <==> !(leaseSaved && !ans.readBack && !Returned(ans.releaseCode))
  {
  }

  // ----- Processes created and killed -----

  lemma ReconcileTouchesNoProcess(row: Row, me: Option<Pid>, look: Look, out: Outside)
    ensures Reconcile(row, me, look, out).spawned.None? && Reconcile(row, me, look, out).killed.None?
  {
  }

  lemma SweepTouchesNoProcess(row: Row, worker: Observation, provider: Observation, out: Outside)
    ensures Sweep(row, worker, provider, out).spawned.None? && Sweep(row, worker, provider, out).killed.None?
  {
  }

  lemma StartSpawnsWhatItLaunched(row: Row, ans: StartAnswers)
    ensures Start(row, ans).killed.None?
    ensures Start(row, ans).spawned.Some? ==>
              ans.launch.Launched? && Start(row, ans).spawned.value == Proc(ans.launch.pid, ans.launch.identity)
  {
  }

  // ----- What every operation does to the slot of a live provider -----

  /** Reconciling gets to the provider's own judgement, and that judgement has
      nothing to go by. */
  predicate BlindTo(row: Row, me: Option<Pid>, look: Look) {
    && RouteOf(row, me, look).GoOn?
    && row.state == Running && row.provider.Some?
    && (row.provider.value.identity.None? || look.late.Unknown?)
  }

  /** What may be recorded and seen of a provider that is alive as `identity`. */
  predicate MaySee(row: Row, seen: Observation, identity: Identity) {
    && row.provider.Some?
    && row.provider.value.identity in {None, Some(identity)}
    && seen in {Unknown, Alive(identity)}
  }

  lemma RecoverySlot(row: Row, late: Observation, out: Outside, identity: Identity)
    requires row.state == Running && MaySee(row, late, identity)
    ensures HoldsSlot(Recover(row, late, out).row) <==> row.provider.value.identity.Some? && !late.Unknown?
  {
  }

  lemma RoutedRow(row: Row, me: Option<Pid>, look: Look)
    ensures
      match RouteOf(row, me, look)
      case GoOn(judged) => judged.state == row.state && judged.provider == row.provider
      case _ => true
  {
  }

  lemma ReconcileSlot(row: Row, me: Option<Pid>, look: Look, out: Outside, identity: Identity)
    requires StateOk(row) && IsActive(row) && MaySee(row, look.late, identity)
    ensures HoldsSlot(Reconcile(row, me, look, out).row) <==> !BlindTo(row, me, look)
  {
    RoutedRow(row, me, look);
    match RouteOf(row, me, look)
    case GoOn(judged) => RecoverySlot(judged, look.late, out, identity);
    case _ =>
  }

  lemma SweepSlot(row: Row, worker: Observation, seen: Observation, out: Outside, identity: Identity)
    requires IsOccupying(row) && MaySee(row, seen, identity)
    ensures HoldsSlot(Sweep(row, worker, seen, out).row)
  {
  }

  /** A cancel frees the slot only of a provider it killed, or saw gone. */
  lemma CancelSlot(row: Row, seen: Observation, treeDied: bool, code: int)
    ensures
      var e := Cancel(row, seen, treeDied, code);
      HoldsSlot(e.row) || row.provider.None? || seen.Gone? || e.killed == Some(row.provider.value.pid)
  {
  }

  lemma StartSlot(row: Row, ans: StartAnswers)
    requires StateOk(row) && row.state == Queued
    ensures Start(row, ans).row.provider.Some? ==> HoldsSlot(Start(row, ans).row)
  {
  }

  // ----- When a sweep adopts -----

  predicate Supervised(row: Row) {
    row.supervisor.Some? && row.supervisor.value.identity.Some?
  }

  predicate SupervisorSeenAlive(row: Row, worker: Observation) {
    Supervised(row) && Verified(worker, row.supervisor.value.identity)
  }

  predicate SupervisorOut(row: Row, worker: Observation) {
    Supervised(row) ==> worker.Gone?
  }

  /** A sweep makes a run active again exactly when recovery dropped it and its
      supervisor, or failing that its provider, was seen alive under the recorded
      identity.  A run adopted without its supervisor has none any more, and a
      view it cannot trust changes nothing. */
  lemma SweepAdoptsIff(row: Row, worker: Observation, seen: Observation, out: Outside)
    requires IsOccupying(row)
    ensures
      var e := Sweep(row, worker, seen, out);
      var provider := row.provider.Some? && Verified(seen, row.provider.value.identity);
      var cannotTell := (Supervised(row) && worker.Unknown?)
                        || (SupervisorOut(row, worker) && row.provider.Some? && seen.Unknown?);
      && (IsActive(e.row) <==>
            RecoveryDrop(row) && (SupervisorSeenAlive(row, worker) || (SupervisorOut(row, worker) && provider)))
      && (IsActive(e.row) ==> e.row.state == Running && e.row.remaining == [])
      && (IsActive(e.row) && !SupervisorSeenAlive(row, worker) ==> e.row.supervisor.None?)
      && (cannotTell ==> e == Untouched(row))
  {
  }

  /** The provider of a dropped run is known to be gone; a reused pid counts as gone. */
  predicate ProviderOut(row: Row, seen: Observation) {
    row.provider.Some? ==>
      || seen.Gone?
      || (seen.Alive? && row.provider.value.identity.Some? && !Verified(seen, row.provider.value.identity))
  }

  lemma OpenStepsAreKnown(steps: seq<CleanupStep>)
    ensures steps == [] || ProcessTermination in steps || EventClose in steps || LeaseRelease in steps
  {
    if steps != [] {
      var first := steps[0];
      assert first in steps;
      match first
      case ProcessTermination =>
      case EventClose =>
      case LeaseRelease =>
    }
  }

  /** A sweep finishes a dropped run exactly when nobody is left to protect and the
      lease, if its release is still open, is given back; otherwise the run keeps
      its slot. */
  lemma SweepFinishesIff(row: Row, worker: Observation, seen: Observation, out: Outside)
    requires IsOccupying(row)
    ensures
      var e := Sweep(row, worker, seen, out);
      var nobodyLeft := SupervisorOut(row, worker) && ProviderOut(row, seen);
      var leaseSettled := LeaseRelease in row.remaining ==> LeaseIsBack(row, out.releaseCode);
      && (IsFinished(e.row) <==> nobodyLeft && leaseSettled)
      && (!IsFinished(e.row) ==> HoldsSlot(e.row))
  {
    var some := Without(row.remaining, ProcessTermination);
    var open := Without(some, EventClose);
    WithoutDrops(row.remaining, ProcessTermination);
    WithoutDrops(some, EventClose);
    WithoutDrops(open, LeaseRelease);
    OpenStepsAreKnown(open);
    OpenStepsAreKnown(Without(open, LeaseRelease));
  }
}
