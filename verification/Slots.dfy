/** Counting the runs that hold a slot, for the device, a project or a role. */
module Slots {
  import opened Prelude
  import opened RunLedger

  /** The three limits are all of one shape: a scope and how many runs may hold
      a slot in it. */
  datatype Scope = Device | InProject(project: ProjectId) | InRole(project: ProjectId, role: Role)

  datatype Limits = Limits(device: nat, project: ProjectId -> nat, role: (ProjectId, Role) -> nat)

  function Limit(limits: Limits, scope: Scope): nat {
    match scope
    case Device => limits.device
    case InProject(p) => limits.project(p)
    case InRole(p, r) => limits.role(p, r)
  }

  predicate InScope(row: Row, scope: Scope) {
    match scope
    case Device => true
    case InProject(p) => row.project == p
    case InRole(p, r) => row.project == p && row.role == r
  }

  function Active(runs: map<RunId, Row>, scope: Scope): set<RunId> {
    set id | id in runs && InScope(runs[id], scope) && IsActive(runs[id])
  }

  function Occupying(runs: map<RunId, Row>, scope: Scope): set<RunId> {
    set id | id in runs && InScope(runs[id], scope) && IsOccupying(runs[id])
  }

  function Holding(runs: map<RunId, Row>, scope: Scope): set<RunId> {
    set id | id in runs && InScope(runs[id], scope) && HoldsSlot(runs[id])
  }

  function Max0(x: int): nat {
    if x < 0 then 0 else x
  }

  function Min(x: int, y: int): int {
    if x < y then x else y
  }

  /** `_device_remaining`, `_project_remaining` and `_role_remaining`. */
  function Remaining(runs: map<RunId, Row>, limits: Limits, scope: Scope): nat {
    Max0(Limit(limits, scope) - |Active(runs, scope)| - |Occupying(runs, scope)|)
  }

  function SeatsLeft(runs: map<RunId, Row>, limits: Limits, project: ProjectId): nat {
    Min(Remaining(runs, limits, InProject(project)), Remaining(runs, limits, Device))
  }

  /** A run is counted active or occupying, never both. */
  lemma HoldingIsActivePlusOccupying(runs: map<RunId, Row>, scope: Scope)
    ensures |Holding(runs, scope)| == |Active(runs, scope)| + |Occupying(runs, scope)|
  {
    assert Holding(runs, scope) == Active(runs, scope) + Occupying(runs, scope);
    assert Active(runs, scope) !! Occupying(runs, scope);
  }

  /** A slot remains in a scope exactly when fewer runs hold one than its limit. */
  lemma RemainingIff(runs: map<RunId, Row>, limits: Limits, scope: Scope)
    ensures Remaining(runs, limits, scope) > 0 <==> |Holding(runs, scope)| < Limit(limits, scope)
    ensures Remaining(runs, limits, scope) == Max0(Limit(limits, scope) - |Holding(runs, scope)|)
  {
    HoldingIsActivePlusOccupying(runs, scope);
  }

  /** Saving one row changes what a scope holds by at most that row. */
  lemma SavingOneRow(runs: map<RunId, Row>, id: RunId, row: Row, scope: Scope)
    ensures |Holding(runs[id := row], scope)| <= |Holding(runs, scope)| + 1
    ensures !(InScope(row, scope) && HoldsSlot(row)) ==> |Holding(runs[id := row], scope)| <= |Holding(runs, scope)|
    ensures id !in runs && InScope(row, scope) && HoldsSlot(row) ==>
              |Holding(runs[id := row], scope)| == |Holding(runs, scope)| + 1
    ensures id !in runs && !(InScope(row, scope) && HoldsSlot(row)) ==>
              Holding(runs[id := row], scope) == Holding(runs, scope)
  {
    var before, after := Holding(runs, scope), Holding(runs[id := row], scope);
    AtMostOneMore(after, before, id);
    if !(InScope(row, scope) && HoldsSlot(row)) {
      SubsetIsNoLarger(after, before);
    } else if id !in runs {
      assert after == before + {id};
    }
  }
}
