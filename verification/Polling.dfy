/** When a role is asked again, and what a tick leaves of the intents it tried. */
module Polling {
  import opened Prelude
  import opened RunLedger
  import opened Dispatch
  import opened RefillLoop
  import opened DispatchTick

  // ----- What one turn makes of an intent -----

  /** The intent has reached its limit, or has no manual target left. */
  predicate Spent(policy: Policy, intent: Intent) {
    || (intent.manualMode && intent.manual == [])
    || (policy.executionLimit.Some? && intent.startedCount >= policy.executionLimit.value)
  }

  /** One start more, and the target it took is no longer wanted. */
  ghost predicate OneStartMore(was: Intent, now: Intent, lease: Option<Lease>) {
    && now == was.(startedCount := was.startedCount + 1, manual := now.manual)
    && (forall target :: target in now.manual <==>
          target in was.manual && (lease.Some? ==> target != lease.value.target))
  }

  lemma {:induction false} OtherTargetsAreOthers(manual: seq<Target>, taken: Target)
    ensures forall target :: target in OtherTargets(manual, taken) <==> target in manual && target != taken
  {
    if manual != [] {
      OtherTargetsAreOthers(manual[1..], taken);
      assert manual == [manual[0]] + manual[1..];
    }
  }

  lemma CountingIsOneStart(intent: Intent, row: Row)
    ensures OneStartMore(intent, CountStart(intent, row), row.lease)
  {
    if row.lease.Some? {
      OtherTargetsAreOthers(intent.manual, row.lease.value.target);
    }
  }

  /** A launched turn counts a start exactly when the run came to be, and forgets the
      intent exactly when that start spent it, or when the launch failed for what was
      requested; otherwise the table keeps the intent as it now stands. */
  ghost predicate Settles(s: Setting, t: Tick, role: Role, row: Row, turn: Turn) {
    var key, intent, next := (s.project, role), t.live.Of(role), turn.tick.live.Of(role);
    var started := row.state in {Queued, Reserved, Running};
    var forgotten := if started then Spent(s.policies(role), next)
                     else row.stage == Some(RequestValidation) && row.state != Idle;
    && (turn.progress <==> started)
    && (if started then OneStartMore(intent, next, row.lease) else next == intent && role !in turn.tick.due)
    && (intent.id in turn.tick.dropped <==> forgotten) && (key in turn.tick.intents <==> !forgotten)
    && (!forgotten ==> turn.tick.intents[key] == next) && (forgotten ==> role !in turn.tick.due)
  }

  lemma FailureSettles(s: Setting, t: Tick, role: Role, row: Row)
    requires NoDuplicates(t.due) && role in t.due && t.live.Of(role).id !in t.dropped && !CountsAsStarted(row)
    ensures Settles(s, t, role, row, Accounted(s, t, role, row))
  {
    RemoveRoleRemoves(t.due, role);
  }

  lemma StartSettles(s: Setting, t: Tick, role: Role, row: Row)
    requires NoDuplicates(t.due) && role in t.due && t.live.Of(role).id !in t.dropped && CountsAsStarted(row)
    requires (s.project, role) in t.intents ==> t.intents[(s.project, role)].id == t.live.Of(role).id
    ensures Settles(s, t, role, row, Accounted(s, t, role, row))
  {
    RemoveRoleRemoves(t.due, role);
    CountingIsOneStart(t.live.Of(role), row);
  }

  lemma TurnSettles(s: Setting, t: Tick, role: Role)
    requires TickOk(s, t) && role in t.due && RoleSeats(s, t, role) > 0
    requires (s.project, role) in t.intents ==> t.intents[(s.project, role)].id == t.live.Of(role).id
    ensures
      var row := LaunchOutcome(s.project, role, t.live.Of(role).manual, s.ask(t.asked)).row;
      Settles(s, t, role, row, TryRole(s, t, role))
  {
    var outcome := LaunchOutcome(s.project, role, t.live.Of(role).manual, s.ask(t.asked));
    var after := t.(runs := RunsWith(t.runs, s.ids(t.asked), outcome), asked := t.asked + 1);
    assert Unlaunched(s, t, role).None?;
    if CountsAsStarted(outcome.row) {
      StartSettles(s, after, role, outcome.row);
    } else {
      FailureSettles(s, after, role, outcome.row);
    }
  }

  // ----- The next time stays what collecting made it -----

  /** From `a` to `b`: no new role is due, and every entry of the table is due when it
      was, or when the intent its role took its turn with was. */
  ghost predicate KeepsTimes(s: Setting, a: Tick, b: Tick) {
    && (forall r | r in b.due :: r in a.due)
    && (forall r :: b.live.Of(r).nextPoll == a.live.Of(r).nextPoll)
    && (forall key | key in b.intents ::
          || (key in a.intents && b.intents[key].nextPoll == a.intents[key].nextPoll)
          || (key.0 == s.project && key.1 in a.due && b.intents[key].nextPoll == a.live.Of(key.1).nextPoll))
  }

  lemma KeepsTimesTwice(s: Setting, a: Tick, b: Tick, c: Tick)
    requires KeepsTimes(s, a, b) && KeepsTimes(s, b, c)
    ensures KeepsTimes(s, a, c)
  {
  }

  /** Entries of the table that are gone, or were saved for a due role with the time of
      its intent. */
  predicate SavedInTime(project: ProjectId, role: Role, time: Option<nat>,
                        was: map<(ProjectId, Role), Intent>, now: map<(ProjectId, Role), Intent>)
  {
    forall key | key in now ::
      || (key in was && now[key] == was[key])
      || (key == (project, role) && now[key].nextPoll == time)
  }

  lemma TableKeepsTimes(s: Setting, t: Tick, t': Tick, role: Role)
    requires role in t.due && forall r | r in t'.due :: r in t.due
    requires forall r :: t'.live.Of(r).nextPoll == t.live.Of(r).nextPoll
    requires SavedInTime(s.project, role, t.live.Of(role).nextPoll, t.intents, t'.intents)
    ensures KeepsTimes(s, t, t')
  {
  }

  lemma GivingUpKeepsTimes(s: Setting, t: Tick, role: Role, row: Row)
    requires NoDuplicates(t.due) && role in t.due
    ensures KeepsTimes(s, t, GiveUp(s, t, role, row))
  {
    RemoveRoleRemoves(t.due, role);
    TableKeepsTimes(s, t, GiveUp(s, t, role, row), role);
  }

  lemma SeatKeepsTimes(s: Setting, t: Tick, role: Role, row: Row)
    requires NoDuplicates(t.due) && role in t.due
    ensures KeepsTimes(s, t, TakeSeat(s, t, role, row).tick)
  {
    RemoveRoleRemoves(t.due, role);
    TableKeepsTimes(s, t, TakeSeat(s, t, role, row).tick, role);
  }

  lemma SkippingKeepsTimes(s: Setting, t: Tick, role: Role)
    requires NoDuplicates(t.due) && role in t.due && Unlaunched(s, t, role).Some?
    ensures KeepsTimes(s, t, Unlaunched(s, t, role).value.tick)
  {
    RemoveRoleRemoves(t.due, role);
  }

  lemma LaunchingKeepsTimes(s: Setting, t: Tick, after: Tick, b: Tick)
    requires after.due == t.due && after.live == t.live && after.intents == t.intents && KeepsTimes(s, after, b)
    ensures KeepsTimes(s, t, b)
  {
  }

  /** A launch has changed the ledger from `t` to `after`. */
  lemma AccountingKeepsTimes(s: Setting, t: Tick, after: Tick, role: Role, row: Row)
    requires NoDuplicates(t.due) && role in t.due
    requires after.due == t.due && after.live == t.live && after.intents == t.intents
    ensures KeepsTimes(s, t, Accounted(s, after, role, row).tick)
  {
    if CountsAsStarted(row) {
      SeatKeepsTimes(s, after, role, row);
      LaunchingKeepsTimes(s, t, after, TakeSeat(s, after, role, row).tick);
    } else {
      GivingUpKeepsTimes(s, after, role, row);
      LaunchingKeepsTimes(s, t, after, GiveUp(s, after, role, row));
    }
  }

  lemma TryingIs(s: Setting, t: Tick, role: Role) returns (after: Tick, row: Row)
    requires Unlaunched(s, t, role).None?
    ensures TryRole(s, t, role) == Accounted(s, after, role, row)
    ensures after.due == t.due && after.live == t.live && after.intents == t.intents
  {
    var outcome := LaunchOutcome(s.project, role, t.live.Of(role).manual, s.ask(t.asked));
    after, row := t.(runs := RunsWith(t.runs, s.ids(t.asked), outcome), asked := t.asked + 1), outcome.row;
  }

  lemma TurnKeepsTimes(s: Setting, t: Tick, role: Role)
    requires TickOk(s, t) && role in t.due
    ensures KeepsTimes(s, t, TryRole(s, t, role).tick)
  {
    if Unlaunched(s, t, role).Some? {
      SkippingKeepsTimes(s, t, role);
    } else {
      var after, row := TryingIs(s, t, role);
      AccountingKeepsTimes(s, t, after, role, row);
    }
  }

  lemma {:induction false} PassKeepsTimes(s: Setting, t: Tick, todo: seq<Role>)
    requires SettingOk(s) && TickOk(s, t) && Todo(t, todo)
    ensures KeepsTimes(s, t, Pass(s, t, todo).tick)
    decreases |todo|
  {
    if todo != [] {
      var turn := TryRole(s, t, todo[0]);
      TurnKeepsDue(s, t, todo);
      TurnKeepsTimes(s, t, todo[0]);
      if !turn.stop {
        PassKeepsTimes(s, turn.tick, todo[1..]);
        KeepsTimesTwice(s, t, turn.tick, Pass(s, turn.tick, todo[1..]).tick);
      }
    }
  }

  lemma {:induction false} RefillKeepsTimes(s: Setting, t: Tick)
    requires SettingOk(s) && TickOk(s, t)
    ensures KeepsTimes(s, t, Refill(s, t))
    decreases Seats(s, t)
  {
    if t.due != [] && Seats(s, t) > 0 {
      PassKeeps(s, t, t.due);
      PassSpendsSeats(s, t, t.due);
      PassKeepsTimes(s, t, t.due);
      var u := Pass(s, t, t.due);
      if u.progress {
        RefillKeepsTimes(s, u.tick);
        KeepsTimesTwice(s, t, u.tick, Refill(s, u.tick));
      }
    }
  }

  // ----- Over any number of ticks -----

  /** A tick of the project that refilled, from the intents it found. */
  datatype Cycle = Cycle(s: Setting, now: nat, order: seq<Role>, begun: Tick)

  ghost predicate Cycles(project: ProjectId, intents: map<(ProjectId, Role), Intent>, cycles: seq<Cycle>)
    decreases |cycles|
  {
    cycles == [] ||
    (var c := cycles[0];
     && c.s.project == project && SettingOk(c.s) && TickOk(c.s, c.begun)
     && Begun(c.s, c.now, c.order, intents, c.begun)
     && Cycles(project, Refill(c.s, c.begun).intents, cycles[1..]))
  }

  lemma BegunIsGathered(s: Setting, now: nat, order: seq<Role>, was: map<(ProjectId, Role), Intent>, t: Tick)
    requires Begun(s, now, order, was, t)
    ensures Gathered(s, now, order, t.due, was, t.intents)
  {
    CollectedIsGathered(s, now, order, t.due, was, t.intents);
  }

  lemma GatheredTime(
      s: Setting, now: nat, order: seq<Role>, was: map<(ProjectId, Role), Intent>, t: Tick, role: Role)
    requires Begun(s, now, order, was, t) && role in t.due
    ensures (s.project, role) in t.intents
    ensures t.intents[(s.project, role)].nextPoll == t.live.Of(role).nextPoll
         == Some(now + s.policies(role).pollSeconds)
  {
    BegunIsGathered(s, now, order, was, t);
  }

  lemma KeptTime(s: Setting, a: Tick, b: Tick, role: Role, time: Option<nat>)
    requires KeepsTimes(s, a, b) && (s.project, role) in b.intents && (s.project, role) in a.intents
    requires a.intents[(s.project, role)].nextPoll == a.live.Of(role).nextPoll == time
    ensures b.intents[(s.project, role)].nextPoll == time
  {
  }

  /** A role that was due at `now`, whose intent is still in the table, is given the
      end of its interval as its next time. */
  lemma {:induction false} DueRolesGetTheirTime(
      s: Setting, now: nat, order: seq<Role>, was: map<(ProjectId, Role), Intent>, t: Tick, role: Role)
    requires SettingOk(s) && TickOk(s, t) && Begun(s, now, order, was, t)
    requires role in t.due && (s.project, role) in Refill(s, t).intents
    ensures Refill(s, t).intents[(s.project, role)].nextPoll == Some(now + s.policies(role).pollSeconds)
  {
    GatheredTime(s, now, order, was, t, role);
    RefillKeepsTimes(s, t);
    KeptTime(s, t, Refill(s, t), role, Some(now + s.policies(role).pollSeconds));
  }

  /** And it is due again, if it has something left to start, exactly when the
      interval has passed. */
  lemma {:induction false} DueAgainIff(
      s: Setting, now: nat, order: seq<Role>, was: map<(ProjectId, Role), Intent>, t: Tick,
      s': Setting, later: nat, order': seq<Role>, t': Tick, role: Role)
    requires SettingOk(s) && TickOk(s, t) && Begun(s, now, order, was, t) && role in t.due
    requires (s.project, role) in Refill(s, t).intents && s'.project == s.project && role in order'
    requires Begun(s', later, order', Refill(s, t).intents, t')
    ensures
      var intent := Refill(s, t).intents[(s.project, role)];
      role in t'.due <==>
        later >= now + s.policies(role).pollSeconds && MayYetStart(s'.policies(role), intent)
  {
    DueRolesGetTheirTime(s, now, order, was, t, role);
    BegunIsGathered(s', later, order', Refill(s, t).intents, t');
  }

  /** The role's next time, while its intent is in the table, is not before `time`. */
  predicate NotBefore(intents: map<(ProjectId, Role), Intent>, key: (ProjectId, Role), time: nat) {
    key in intents ==> intents[key].nextPoll.Some? && intents[key].nextPoll.value >= time
  }

  lemma CycleKeepsTime(project: ProjectId, intents: map<(ProjectId, Role), Intent>, c: Cycle, role: Role, time: nat)
    requires c.s.project == project && SettingOk(c.s) && TickOk(c.s, c.begun)
    requires Begun(c.s, c.now, c.order, intents, c.begun)
    requires NotBefore(intents, (project, role), time) || (role in c.begun.due && c.now >= time)
    ensures role in c.begun.due ==> c.now >= time
    ensures NotBefore(Refill(c.s, c.begun).intents, (project, role), time)
  {
    BegunIsGathered(c.s, c.now, c.order, intents, c.begun);
    RefillKeepsTimes(c.s, c.begun);
    if role in c.begun.due && (project, role) in Refill(c.s, c.begun).intents {
      DueRolesGetTheirTime(c.s, c.now, c.order, intents, c.begun, role);
    }
  }

  lemma {:induction false} NoneIsDueBefore(
      project: ProjectId, intents: map<(ProjectId, Role), Intent>, cycles: seq<Cycle>, role: Role, time: nat)
    requires Cycles(project, intents, cycles) && NotBefore(intents, (project, role), time)
    ensures forall k | 0 <= k < |cycles| && role in cycles[k].begun.due :: cycles[k].now >= time
    decreases |cycles|
  {
    if cycles != [] {
      var c := cycles[0];
      CycleKeepsTime(project, intents, c, role, time);
      NoneIsDueBefore(project, Refill(c.s, c.begun).intents, cycles[1..], role, time);
      assert forall k | 1 <= k < |cycles| :: cycles[k] == cycles[1..][k - 1];
    }
  }

  /** Over any number of ticks, whatever is started in them: a role that was due is not
      due again before its interval has passed. */
  lemma {:induction false} PollsAreApart(
      project: ProjectId, intents: map<(ProjectId, Role), Intent>, cycles: seq<Cycle>, role: Role, i: nat, k: nat)
    requires Cycles(project, intents, cycles) && i < k < |cycles|
    requires role in cycles[i].begun.due && role in cycles[k].begun.due
    ensures cycles[k].now >= cycles[i].now + cycles[i].s.policies(role).pollSeconds
    decreases |cycles|
  {
    var c, rest := cycles[0], cycles[1..];
    var left := Refill(c.s, c.begun).intents;
    assert rest[k - 1] == cycles[k];
    if i == 0 {
      if (project, role) in left {
        DueRolesGetTheirTime(c.s, c.now, c.order, intents, c.begun, role);
      }
      NoneIsDueBefore(project, left, rest, role, c.now + c.s.policies(role).pollSeconds);
    } else {
      assert rest[i - 1] == cycles[i];
      PollsAreApart(project, left, rest, role, i - 1, k - 1);
    }
  }
}
