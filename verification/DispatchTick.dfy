/** One dispatch tick of a project, as it runs: recover the active runs, sweep the
    dropped ones, collect the intents that are due, refill the seats. */
module DispatchTick {
  import opened Prelude
  import opened RunLedger
  import opened Slots
  import opened Dispatch
  import opened RefillLoop

  // ----- Recovering and sweeping -----

  /** What a tick sees and meets at one run: the supervisor before it decides to
      reconcile at all, the four looks of the reconciliation, the two of the
      sweep, and the helper answers. */
  datatype Sight = Sight(glance: Observation, look: Look, worker: Observation, provider: Observation, out: Outside)

  predicate Selected(row: Row, project: ProjectId) {
    row.project == project && IsActive(row)
  }

  predicate Dropped(row: Row, project: ProjectId) {
    row.project == project && IsOccupying(row)
  }

  /** A run's row after `reconcile_project_runs`. */
  function Recovered(row: Row, project: ProjectId, sight: Sight): Row {
    if Selected(row, project) && !OwnedElsewhere(row, None, sight.glance)
    then Reconcile(row, None, sight.look, sight.out).row
    else row
  }

  /** A run's row after `sweep_dropped_runs`. */
  function Swept(row: Row, project: ProjectId, sight: Sight): Row {
    if Dropped(row, project) then Sweep(row, sight.worker, sight.provider, sight.out).row else row
  }

  function MapRows(runs: map<RunId, Row>, f: (RunId, Row) -> Row): map<RunId, Row> {
    map id | id in runs :: f(id, runs[id])
  }

  method ReconcileProjectRuns(store: AgentStore, project: ProjectId, sights: RunId -> Sight)
    modifies store
    ensures store.runs == MapRows(old(store.runs), (id: RunId, row: Row) => Recovered(row, project, sights(id)))
    ensures store.intents == old(store.intents)
  {
    ghost var before := store.runs;
    var ids := store.ListRuns(row => Selected(row, project));
    for i := 0 to |ids|
      invariant store.intents == old(store.intents)
      invariant store.runs.Keys == before.Keys
      invariant forall id | id in before ::
        store.runs[id] == if id in ids[..i] then Recovered(before[id], project, sights(id)) else before[id]
    {
      var id := ids[i];
      assert id in ids && id !in ids[..i];
      if !OwnedElsewhere(store.runs[id], None, sights(id).glance) {
        var _ := ReconcileRun(store, id, None, sights(id).look, sights(id).out);
      }
      assert ids[..i + 1] == ids[..i] + [id];
    }
    assert ids[..|ids|] == ids;
  }

  method SweepDroppedRuns(store: AgentStore, project: ProjectId, sights: RunId -> Sight)
    modifies store
    ensures store.runs == MapRows(old(store.runs), (id: RunId, row: Row) => Swept(row, project, sights(id)))
    ensures store.intents == old(store.intents)
  {
    ghost var before := store.runs;
    var ids := store.ListRuns(row => Dropped(row, project));
    for i := 0 to |ids|
      invariant store.intents == old(store.intents)
      invariant store.runs.Keys == before.Keys
      invariant forall id | id in before ::
        store.runs[id] == if id in ids[..i] then Swept(before[id], project, sights(id)) else before[id]
    {
      var id := ids[i];
      assert id in ids && id !in ids[..i];
      var _, _, _ := SweepRow(store, id, sights(id).worker, sights(id).provider, sights(id).out);
      assert ids[..i + 1] == ids[..i] + [id];
    }
    assert ids[..|ids|] == ids;
  }

  // ----- Collecting the due intents -----

  /** The intent can never start anything again. */
  predicate Stale(policy: Policy, intent: Intent) {
    !policy.continuous || Exhausted(policy, intent)
  }

  predicate Waits(intent: Intent, now: nat) {
    intent.nextPoll.Some? && intent.nextPoll.value > now
  }

  predicate IsDue(s: Setting, intents: map<(ProjectId, Role), Intent>, now: nat, role: Role) {
    && (s.project, role) in intents
    && !Stale(s.policies(role), intents[(s.project, role)]) && !Waits(intents[(s.project, role)], now)
  }

  /** Intent ids are unique in the table. */
  predicate UniqueIds(intents: map<(ProjectId, Role), Intent>) {
    forall a, b | a in intents && b in intents && a != b :: intents[a].id != intents[b].id
  }

  /** What collecting leaves of one table entry. */
  function Polled(s: Setting, now: nat, role: Role, intent: Intent): Option<Intent> {
    if Stale(s.policies(role), intent) then None
    else if Waits(intent, now) then Some(intent)
    else Some(intent.(nextPoll := Some(now + s.policies(role).pollSeconds)))
  }

  /** The table after the roles in `done` were collected. */
  predicate Collected(
      s: Setting, now: nat, done: seq<Role>,
      was: map<(ProjectId, Role), Intent>, left: map<(ProjectId, Role), Intent>)
  {
    && left.Keys <= was.Keys
    && forall key | key in was ::
         var kept := if key.0 == s.project && key.1 in done then Polled(s, now, key.1, was[key]) else Some(was[key]);
         (key in left <==> kept.Some?) && (key in left ==> left[key] == kept.value)
  }

  lemma DroppingOne(intents: map<(ProjectId, Role), Intent>, key: (ProjectId, Role))
    requires UniqueIds(intents) && key in intents
    ensures WithoutIntent(intents, intents[key].id) == intents - {key}
  {
  }

  lemma CollectedStaysUnique(
      s: Setting, now: nat, done: seq<Role>,
      was: map<(ProjectId, Role), Intent>, left: map<(ProjectId, Role), Intent>)
    requires UniqueIds(was) && Collected(s, now, done, was, left)
    ensures UniqueIds(left)
    ensures forall key | key in left :: key in was && left[key].id == was[key].id
  {
  }

  lemma CollectedOneMore(
      s: Setting, now: nat, done: seq<Role>, role: Role,
      was: map<(ProjectId, Role), Intent>, left: map<(ProjectId, Role), Intent>, next: map<(ProjectId, Role), Intent>)
    requires Collected(s, now, done, was, left) && role !in done
    requires
      var key := (s.project, role);
      next == if key !in left then left
              else
                match Polled(s, now, role, left[key])
                case None => left - {key}
                case Some(kept) => left[key := kept]
    ensures Collected(s, now, done + [role], was, next)
  {
    assert forall r :: r in done + [role] <==> r in done || r == role;
  }

  /** The intent has something left to start. */
  predicate MayYetStart(policy: Policy, intent: Intent) {
    && policy.continuous && (intent.manualMode ==> intent.manual != [])
    && (policy.executionLimit.Some? ==> intent.startedCount < policy.executionLimit.value)
  }

  /** Its time has come, if it was given one. */
  predicate HasCome(intent: Intent, now: nat) {
    intent.nextPoll.Some? ==> intent.nextPoll.value <= now
  }

  /** Collected are exactly the intents that may yet start something and whose time
      has come; they are given their next time, those that may start nothing are
      gone, and all others stay as they are. */
  ghost predicate Gathered(
      s: Setting, now: nat, order: seq<Role>, due: seq<Role>,
      was: map<(ProjectId, Role), Intent>, left: map<(ProjectId, Role), Intent>)
  {
    && (forall r :: r in due <==>
          && r in order && (s.project, r) in was
          && MayYetStart(s.policies(r), was[(s.project, r)]) && HasCome(was[(s.project, r)], now))
    && (forall key :: key in left <==>
          key in was && (key.0 == s.project && key.1 in order ==> MayYetStart(s.policies(key.1), was[key])))
    && (forall key | key in left ::
          left[key] == if key.0 == s.project && key.1 in due
                       then was[key].(nextPoll := Some(now + s.policies(key.1).pollSeconds)) else was[key])
  }

  lemma CollectedIsGathered(
      s: Setting, now: nat, order: seq<Role>, due: seq<Role>,
      was: map<(ProjectId, Role), Intent>, left: map<(ProjectId, Role), Intent>)
    requires Collected(s, now, order, was, left)
    requires forall r :: r in due <==> r in order && IsDue(s, was, now, r)
    ensures Gathered(s, now, order, due, was, left)
  {
  }

  /** `order` is the order the table lists this project's intents in. */
  method CollectDue(store: AgentStore, s: Setting, now: nat, order: seq<Role>) returns (due: seq<Role>)
    requires UniqueIds(store.intents) && NoDuplicates(order)
    modifies store`intents
    ensures Collected(s, now, order, old(store.intents), store.intents)
    ensures NoDuplicates(due) && forall r :: r in due <==> r in order && IsDue(s, old(store.intents), now, r)
    ensures Gathered(s, now, order, due, old(store.intents), store.intents)
  {
    ghost var was := store.intents;
    due := [];
    for i := 0 to |order|
      invariant Collected(s, now, order[..i], was, store.intents)
      invariant NoDuplicates(due) && forall r :: r in due <==> r in order[..i] && IsDue(s, was, now, r)
    {
      var role := order[i];
      var key := (s.project, role);
      assert order[..i + 1] == order[..i] + [role] && role !in order[..i];
      CollectedStaysUnique(s, now, order[..i], was, store.intents);
      ghost var left := store.intents;
      if key in store.intents {
        var intent := store.intents[key];
        DroppingOne(store.intents, key);
        if Stale(s.policies(role), intent) {
          store.DropIntent(intent.id);
        } else if !Waits(intent, now) {
          store.SaveIntent(s.project, role, intent.(nextPoll := Some(now + s.policies(role).pollSeconds)));
          due := due + [role];
        }
      }
      CollectedOneMore(s, now, order[..i], role, was, left, store.intents);
    }
    assert order[..|order|] == order;
    CollectedIsGathered(s, now, order, due, was, store.intents);
  }

  // ----- Refilling -----

  ghost predicate FreshIds(s: Setting, t: Tick) {
    && (forall i: nat, j: nat | i < j :: s.ids(i) != s.ids(j))
    && (forall k: nat | k >= t.asked :: s.ids(k) !in t.runs)
  }

  lemma TurnKeepsFresh(s: Setting, t: Tick, role: Role)
    requires FreshIds(s, t)
    ensures FreshIds(s, TryRole(s, t, role).tick)
  {
    var t' := TryRole(s, t, role).tick;
    forall k: nat | k >= t'.asked
      ensures s.ids(k) !in t'.runs
    {
      assert t'.runs.Keys <= t.runs.Keys + {s.ids(t.asked)};
      assert t'.asked == t.asked ==> t'.runs == t.runs;
      assert k > t.asked ==> s.ids(t.asked) != s.ids(k);
    }
  }

  /** The working state of the refill loop. */
  class SeatFiller {
    const store: AgentStore
    const s: Setting
    var due: seq<Role>
    var live: PerRole<Intent>
    var seats: PerRole<nat>
    var started: nat
    var asked: nat
    ghost var dropped: set<IntentId>

    ghost function Now(): Tick
      reads this, store
    {
      Tick(store.runs, store.intents, due, live, seats, started, asked, dropped)
    }

    constructor (store: AgentStore, s: Setting, due: seq<Role>, live: PerRole<Intent>, ghost dropped: set<IntentId>)
      ensures this.store == store && this.s == s
      ensures Now() == Tick(store.runs, store.intents, due, live, NO_SEATS, 0, 0, dropped)
    {
      this.store, this.s, this.due, this.live, this.dropped := store, s, due, live, dropped;
      seats, started, asked := NO_SEATS, 0, 0;
    }

    method Drop(id: IntentId)
      modifies this`dropped, store`intents
      ensures Now() == DropIntent(old(Now()), id)
    {
      store.DropIntent(id);
      dropped := dropped + {id};
    }

    method TryOne(role: Role) returns (stop: bool, progress: bool)
      requires s.ids(asked) !in store.runs
      modifies this, store
      ensures Turn(Now(), stop, progress) == TryRole(s, old(Now()), role)
    {
      var intent := live.Of(role);
      if Remaining(store.runs, s.limits, InRole(s.project, role)) == 0 {
        due := RemoveRole(due, role);
        return false, false;
      }
      if AtLimit(s.policies(role), intent) {
        Drop(intent.id);
        due := RemoveRole(due, role);
        return true, false;
      }
      stop, progress := Launch(role);
    }

    method Launch(role: Role) returns (stop: bool, progress: bool)
      requires s.ids(asked) !in store.runs
      modifies this, store
      ensures
        var t := old(Now());
        var outcome := LaunchOutcome(s.project, role, t.live.Of(role).manual, s.ask(t.asked));
        Turn(Now(), stop, progress) == Answered(s, t, role, outcome)
    {
      var row := StartOne(role);
      stop, progress := Account(role, row);
    }

    method StartOne(role: Role) returns (row: Row)
      requires s.ids(asked) !in store.runs
      modifies this`asked, store
      ensures
        var t := old(Now());
        var outcome := LaunchOutcome(s.project, role, t.live.Of(role).manual, s.ask(t.asked));
        row == outcome.row && Now() == t.(runs := RunsWith(t.runs, s.ids(t.asked), outcome), asked := t.asked + 1)
    {
      row := QueueAndLaunch(store, s.ids(asked), s.project, role, live.Of(role).manual, s.ask(asked));
      asked := asked + 1;
    }

    method Account(role: Role, row: Row) returns (stop: bool, progress: bool)
      modifies this, store`intents
      ensures Turn(Now(), stop, progress) == Accounted(s, old(Now()), role, row)
    {
      stop, progress := false, CountsAsStarted(row);
      if progress {
        stop := Seat(role, row);
      } else {
        Forfeit(role, row);
      }
    }

    method Forfeit(role: Role, row: Row)
      modifies this, store`intents
      ensures Now() == GiveUp(s, old(Now()), role, row)
    {
      var intent := live.Of(role);
      store.SaveIntent(s.project, role, intent);
      if row.stage == Some(RequestValidation) && row.state != Idle {
        Drop(intent.id);
      }
      due := RemoveRole(due, role);
    }

    method Seat(role: Role, row: Row) returns (stop: bool)
      modifies this, store`intents
      ensures Turn(Now(), stop, true) == TakeSeat(s, old(Now()), role, row)
    {
      stop := false;
      var intent := CountStart(live.Of(role), row);
      live := live.With(role, intent);
      seats := seats.With(role, seats.Of(role) + 1);
      started := started + 1;
      if Exhausted(s.policies(role), intent) {
        Drop(intent.id);
        due := RemoveRole(due, role);
        return;
      }
      store.SaveIntent(s.project, role, intent);
      if Remaining(store.runs, s.limits, InRole(s.project, role)) == 0 {
        due := RemoveRole(due, role);
      }
      stop := SeatsLeft(store.runs, s.limits, s.project) == 0;
    }

    method RunPass() returns (progress: bool)
      requires FreshIds(s, Now())
      modifies this, store
      ensures
        var u := Pass(s, old(Now()), old(due));
        Now() == u.tick && progress == u.progress
    {
      ghost var start := Now();
      var todo := due;
      progress := false;
      var i := 0;
      assert todo[0..] == todo;
      while i < |todo|
        invariant 0 <= i <= |todo| && FreshIds(s, Now())
        invariant
          var rest := Pass(s, Now(), todo[i..]);
          Pass(s, start, todo) == rest.(progress := progress || rest.progress)
      {
        TurnKeepsFresh(s, Now(), todo[i]);
        assert todo[i..][1..] == todo[i + 1..];
        var stop, won := TryOne(todo[i]);
        progress := progress || won;
        if stop {
          return;
        }
        i := i + 1;
      }
    }

    /** The refill loop. */
    method FillSeats()
      requires SettingOk(s) && TickOk(s, Now())
      modifies this, store
      ensures Now() == Refill(s, old(Now()))
    {
      var progress := true;
      while due != [] && progress && SeatsLeft(store.runs, s.limits, s.project) > 0
        invariant TickOk(s, Now())
        invariant if progress then Refill(s, Now()) == Refill(s, old(Now())) else Now() == Refill(s, old(Now()))
        decreases SeatsLeft(store.runs, s.limits, s.project), progress
      {
        PassKeeps(s, Now(), due);
        PassSpendsSeats(s, Now(), due);
        progress := RunPass();
      }
    }
  }

  // ----- The tick -----

  /** The project's runs once they are recovered and swept. */
  function Settled(runs: map<RunId, Row>, project: ProjectId, recovery: RunId -> Sight, sweep: RunId -> Sight)
    : map<RunId, Row>
  {
    MapRows(MapRows(runs, (id: RunId, row: Row) => Recovered(row, project, recovery(id))),
            (id: RunId, row: Row) => Swept(row, project, sweep(id)))
  }

  /** The intents that collecting dropped. */
  ghost function Forgotten(was: map<(ProjectId, Role), Intent>, left: map<(ProjectId, Role), Intent>): set<IntentId> {
    set key | key in was && key !in left :: was[key].id
  }

  /** The state a tick refills from. */
  ghost predicate Begun(s: Setting, now: nat, order: seq<Role>, was: map<(ProjectId, Role), Intent>, t: Tick) {
    && Collected(s, now, order, was, t.intents)
    && NoDuplicates(t.due) && (forall r :: r in t.due <==> r in order && IsDue(s, was, now, r))
    && (forall r | r in t.due && (s.project, r) in t.intents :: t.live.Of(r) == t.intents[(s.project, r)])
    && t.seats == NO_SEATS && t.started == 0 && t.asked == 0
    && t.dropped == Forgotten(was, t.intents)
  }

  lemma BegunIsOk(s: Setting, now: nat, order: seq<Role>, was: map<(ProjectId, Role), Intent>, t: Tick)
    requires UniqueIds(was) && Begun(s, now, order, was, t)
    requires forall k: nat :: s.ids(k) !in t.runs
    ensures TickOk(s, t)
  {
    CollectedStaysUnique(s, now, order, was, t.intents);
    forall r | r in t.due
      ensures (s.project, r) in t.intents && !Exhausted(s.policies(r), t.live.Of(r))
      ensures t.live.Of(r).id !in t.dropped
    {
      assert (s.project, r) in was;
    }
  }

  /** The second half of `tick_project`. */
  method RefillDue(store: AgentStore, s: Setting, now: nat, order: seq<Role>) returns (started: nat, ghost begun: Tick)
    requires SettingOk(s) && UniqueIds(store.intents) && NoDuplicates(order)
    requires forall k: nat :: s.ids(k) !in store.runs
    modifies store
    ensures begun.runs == old(store.runs) && Begun(s, now, order, old(store.intents), begun) && TickOk(s, begun)
    ensures store.runs == Refill(s, begun).runs && store.intents == Refill(s, begun).intents
    ensures started == Refill(s, begun).started
  {
    ghost var was := store.intents;
    var due := CollectDue(store, s, now, order);
    var live := PerRole(
      LiveIntent(store, s, Planner), LiveIntent(store, s, Architect), LiveIntent(store, s, Developer));
    var filler := new SeatFiller(store, s, due, live, Forgotten(was, store.intents));
    begun := filler.Now();
    assert Begun(s, now, order, was, begun);
    BegunIsOk(s, now, order, was, begun);
    filler.FillSeats();
    started := filler.started;
  }

  /** `tick_project`: whether the project may run is looked at only after its
      runs were recovered and swept. */
  method TickProject(
      store: AgentStore, s: Setting, now: nat, order: seq<Role>, mayRun: bool,
      recovery: RunId -> Sight, sweep: RunId -> Sight)
    returns (started: nat, ghost begun: Tick)
    requires SettingOk(s) && UniqueIds(store.intents) && NoDuplicates(order)
    requires forall k: nat :: s.ids(k) !in store.runs
    modifies store
    ensures !mayRun ==>
      && started == 0
      && store.runs == Settled(old(store.runs), s.project, recovery, sweep) && store.intents == old(store.intents)
    ensures mayRun ==>
      && begun.runs == Settled(old(store.runs), s.project, recovery, sweep)
      && Begun(s, now, order, old(store.intents), begun) && TickOk(s, begun)
      && store.runs == Refill(s, begun).runs && store.intents == Refill(s, begun).intents
      && started == Refill(s, begun).started
  {
    started, begun := 0, *;
    ReconcileProjectRuns(store, s.project, recovery);
    SweepDroppedRuns(store, s.project, sweep);
    if mayRun {
      started, begun := RefillDue(store, s, now, order);
    }
  }

  function LiveIntent(store: AgentStore, s: Setting, role: Role): Intent
    reads store
  {
    if (s.project, role) in store.intents then store.intents[(s.project, role)] else Intent(0, false, [], 0, None)
  }
}
