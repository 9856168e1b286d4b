/** The device-wide dispatcher: one table row, insert-or-ignore and
    compare-and-delete, and any number of processes that claim, check, stop and
    die in every interleaving. */
module Dispatcher {
  import opened Prelude
  import opened RunLedger

  // ----- The table -----

  class DispatcherTable {
    var row: Option<Proc>

    constructor ()
      ensures row == None
    {
      row := None;
    }

    /** `claim_dispatcher`: insert unless there is a row, then compare. */
    method Claim(me: Proc) returns (mine: bool)
      modifies this
      ensures row == AfterInsert(old(row), me) && (mine <==> row == Some(me))
    {
      if row.None? {
        row := Some(me);
      }
      mine := row == Some(me);
    }

    /** `release_dispatcher`: delete only what was observed. */
    method Release(observed: Proc) returns (released: bool)
      modifies this
      ensures row == AfterDelete(old(row), observed) && (released <==> old(row) == Some(observed))
    {
      released := row == Some(observed);
      if released {
        row := None;
      }
    }

    /** `_claim_dispatcher_process`, with nothing happening in between. */
    method ClaimProcess(me: Proc, seen: Observation) returns (mine: bool)
      modifies this
      ensures mine <==> SoloClaims(old(row), me, seen)
      ensures mine ==> row == Some(me)
      ensures !mine ==> row == old(row)
    {
      if row.Some? {
        var holder := row.value;
        if Verified(seen, Some(holder.identity)) {
          return holder == me;
        }
        if seen.Unknown? {
          return false;
        }
        var _ := Release(holder);
      }
      mine := Claim(me);
    }
  }

  function AfterInsert(row: Option<Proc>, me: Proc): Option<Proc> {
    if row.None? then Some(me) else row
  }

  function AfterDelete(row: Option<Proc>, observed: Proc): Option<Proc> {
    if row == Some(observed) then None else row
  }

  /** When a claim that nobody disturbs succeeds. */
  predicate SoloClaims(row: Option<Proc>, me: Proc, seen: Observation) {
    match row
    case None => true
    case Some(holder) =>
      if Verified(seen, Some(holder.identity)) then holder == me else !seen.Unknown?
  }

  // ----- Processes -----

  /** What a process of this program is doing: serving repeat intents, making sure
      someone does, or stopping the dispatcher for the service. */
  datatype Job = Serve | Ensure | Stop

  datatype Pc =
    | Ended
    | Reading(job: Job)
    | Looking(job: Job, holder: Proc)
    | LookingAgain(holder: Proc, first: Observation)   // `ensure` looks twice
    | Stopping(holder: Proc)
    | Releasing(job: Job, holder: Proc)
    | Inserting
    | Serving
    | Leaving

  datatype Machine = Machine(
    row: Option<Proc>,
    alive: map<Pid, Identity>,
    born: set<Proc>,
    pc: map<Proc, Pc>)

  predicate Lives(m: Machine, p: Proc) {
    p.pid in m.alive && m.alive[p.pid] == p.identity
  }

  /** A process of this program that is alive. */
  predicate Runs(m: Machine, p: Proc) {
    p in m.pc && Lives(m, p)
  }

  /** What the operating system says about a pid: the truth, or nothing. */
  function See(m: Machine, pid: Pid, silent: bool): Observation {
    Observe(OS(m.alive, if silent then {pid} else {}), pid)
  }

  datatype Move =
    | Start(proc: Proc, job: Job)         // a process of this program
    | Foreign(proc: Proc)                 // any other process
    | Die(pid: Pid)
    | Restart(proc: Proc, job: Job)       // an ended process calls in again
    | Act(proc: Proc, silent: bool)       // one step; `silent`: the observation, or the stop, fails

  predicate CanMove(m: Machine, move: Move) {
    match move
    case Start(p, _) => p !in m.born && p.pid !in m.alive
    case Foreign(p) => p !in m.born && p.pid !in m.alive
    case Die(pid) => pid in m.alive
    case Restart(p, _) => Runs(m, p) && m.pc[p].Ended?
    case Act(p, _) => Runs(m, p) && !m.pc[p].Ended?
  }

  function Moved(m: Machine, move: Move): Machine
    requires CanMove(m, move)
  {
    match move
    case Start(p, job) =>
      m.(alive := m.alive[p.pid := p.identity], born := m.born + {p}, pc := m.pc[p := Reading(job)])
    case Foreign(p) => m.(alive := m.alive[p.pid := p.identity], born := m.born + {p})
    case Die(pid) => m.(alive := m.alive - {pid})
    case Restart(p, job) => m.(pc := m.pc[p := Reading(job)])
    case Act(p, silent) => Acted(m, p, silent)
  }

  function AfterRelease(job: Job): Pc {
    if job == Serve then Inserting else Ended
  }

  /** One atomic step of process `p`. */
  function Acted(m: Machine, p: Proc, silent: bool): Machine
    requires p in m.pc
  {
    match m.pc[p]
    case Ended => m
    case Reading(job) =>
      m.(pc := m.pc[p := if m.row.Some? then Looking(job, m.row.value) else AfterRelease(job)])
    case Looking(job, holder) => m.(pc := m.pc[p := Looked(p, job, holder, See(m, holder.pid, silent))])
    case LookingAgain(holder, first) =>
      m.(pc := m.pc[p := if EnsureLetsBe(holder, first, See(m, holder.pid, silent)) then Ended
                         else Releasing(Ensure, holder)])
    case Stopping(holder) =>
      if holder.pid in m.alive then
        if silent then m.(pc := m.pc[p := Ended])
        else m.(alive := m.alive - {holder.pid}, pc := m.pc[p := Releasing(Stop, holder)])
      else m.(pc := m.pc[p := Releasing(Stop, holder)])
    case Releasing(job, holder) => m.(row := AfterDelete(m.row, holder), pc := m.pc[p := AfterRelease(job)])
    case Inserting =>
      var row := AfterInsert(m.row, p);
      m.(row := row, pc := m.pc[p := if row == Some(p) then Serving else Ended])
    case Serving => m.(pc := m.pc[p := Leaving])
    case Leaving => m.(row := AfterDelete(m.row, p), pc := m.pc[p := Ended])
  }

  function Looked(p: Proc, job: Job, holder: Proc, seen: Observation): Pc {
    match job
    case Serve =>
      if Verified(seen, Some(holder.identity)) then if holder == p then Serving else Ended
      else if seen.Unknown? then Ended
      else Releasing(Serve, holder)
    case Ensure => LookingAgain(holder, seen)
    case Stop =>
      if seen.Unknown? then Ended
      else if Verified(seen, Some(holder.identity)) then Stopping(holder)
      else Releasing(Stop, holder)
  }

  /** `ensure_continuous_dispatcher`: the second look decides that the holder
      lives, the first one that nothing can be said about it. */
  predicate EnsureLetsBe(holder: Proc, first: Observation, second: Observation) {
    Verified(second, Some(holder.identity)) || first.Unknown?
  }

  /** The two looks of `ensure` do not go from a live holder to none to be seen. */
  predicate LooksAgree(m: Machine, move: Move) {
    move.Act? && Runs(m, move.proc) && m.pc[move.proc].LookingAgain? ==>
      var pc := m.pc[move.proc];
      !(Verified(pc.first, Some(pc.holder.identity)) && move.silent)
  }

  // ----- Mutual exclusion -----

  predicate OwnsRow(pc: Pc) {
    pc.Serving? || pc.Leaving?
  }

  /** What a live process at this point knows and has done. */
  predicate PcOk(m: Machine, p: Proc, pc: Pc) {
    && (OwnsRow(pc) <==> m.row == Some(p))
    && (pc.Looking? ==> pc.holder in m.born && pc.holder != p)
    && (pc.LookingAgain? ==>
          && pc.holder in m.born && pc.holder != p
          && (!pc.first.Unknown? && !Verified(pc.first, Some(pc.holder.identity)) ==> !Lives(m, pc.holder)))
    && (pc.Stopping? ==> pc.holder in m.born && pc.holder != p)
    && (pc.Releasing? ==> pc.holder in m.born && !Lives(m, pc.holder))
  }

  ghost predicate Inv(m: Machine) {
    && (forall pid | pid in m.alive :: Proc(pid, m.alive[pid]) in m.born)
    && m.pc.Keys <= m.born
    && (m.row.Some? ==> m.row.value in m.born)
    && (m.row.Some? ==> m.row.value in m.pc)
    && (forall p | Runs(m, p) :: PcOk(m, p, m.pc[p]))
  }

  ghost predicate Initial(m: Machine) {
    && (forall pid | pid in m.alive :: Proc(pid, m.alive[pid]) in m.born)
    && m.row == None && m.pc == map[]
  }

  /** Who is not alive now never is again. */
  lemma DeadStaysDead(m: Machine, move: Move, p: Proc)
    requires CanMove(m, move) && p in m.born && !Lives(m, p)
    ensures !Lives(Moved(m, move), p) && p in Moved(m, move).born
  {
  }

  lemma MoveKeepsOthers(m: Machine, move: Move, p: Proc)
    requires Inv(m) && CanMove(m, move) && LooksAgree(m, move)
    requires Runs(Moved(m, move), p) && p in m.pc && (move.Act? || move.Restart? ==> move.proc != p)
    ensures PcOk(Moved(m, move), p, Moved(m, move).pc[p])
  {
    assert PcOk(m, p, m.pc[p]) by {
      assert p in m.born;
      if !Lives(m, p) {
        DeadStaysDead(m, move, p);
      }
    }
    var pc := m.pc[p];
    if (pc.LookingAgain? || pc.Releasing?) && !Lives(m, pc.holder) {
      DeadStaysDead(m, move, pc.holder);
    }
    if move.Act? {
      assert PcOk(m, move.proc, m.pc[move.proc]);
    }
  }

  lemma ActKeepsItself(m: Machine, p: Proc, silent: bool)
    requires Inv(m) && CanMove(m, Act(p, silent)) && LooksAgree(m, Act(p, silent))
    requires Runs(Acted(m, p, silent), p)
    ensures PcOk(Acted(m, p, silent), p, Acted(m, p, silent).pc[p])
  {
    assert PcOk(m, p, m.pc[p]);
  }

  lemma MoveKeepsInv(m: Machine, move: Move)
    requires Inv(m) && CanMove(m, move) && LooksAgree(m, move)
    ensures Inv(Moved(m, move))
  {
    var m' := Moved(m, move);
    forall p | Runs(m', p)
      ensures PcOk(m', p, m'.pc[p])
    {
      if p !in m.pc {
        assert p !in m.born;
      } else if move.Act? && move.proc == p {
        ActKeepsItself(m, p, move.silent);
      } else if move.Restart? && move.proc == p {
        assert PcOk(m, p, m.pc[p]);
      } else {
        MoveKeepsOthers(m, move, p);
      }
    }
  }

  // ----- Whole runs -----

  ghost predicate Possible(m: Machine, moves: seq<Move>)
    decreases |moves|
  {
    moves == [] || (CanMove(m, moves[0]) && Possible(Moved(m, moves[0]), moves[1..]))
  }

  ghost function After(m: Machine, moves: seq<Move>): Machine
    requires Possible(m, moves)
    decreases |moves|
  {
    if moves == [] then m else After(Moved(m, moves[0]), moves[1..])
  }

  /** No `ensure` along the way loses sight of a holder it had just seen alive. */
  ghost predicate SteadyLooks(m: Machine, moves: seq<Move>)
    requires Possible(m, moves)
    decreases |moves|
  {
    moves == [] || (LooksAgree(m, moves[0]) && SteadyLooks(Moved(m, moves[0]), moves[1..]))
  }

  lemma {:induction false} InvOverRuns(m: Machine, moves: seq<Move>)
    requires Inv(m) && Possible(m, moves) && SteadyLooks(m, moves)
    ensures Inv(After(m, moves))
    decreases |moves|
  {
    if moves != [] {
      MoveKeepsInv(m, moves[0]);
      InvOverRuns(Moved(m, moves[0]), moves[1..]);
    }
  }

  /** In every interleaving, with crashes, reused pids and unreadable processes:
      at most one live process serves, and the table names it. */
  lemma {:induction false} AtMostOneServes(m: Machine, moves: seq<Move>, p: Proc, q: Proc)
    requires Initial(m) && Possible(m, moves) && SteadyLooks(m, moves)
    requires
      var end := After(m, moves);
      Runs(end, p) && end.pc[p].Serving? && Runs(end, q) && end.pc[q].Serving?
    ensures p == q && After(m, moves).row == Some(p)
  {
    InvOverRuns(m, moves);
    var end := After(m, moves);
    assert PcOk(end, p, end.pc[p]) && PcOk(end, q, end.pc[q]);
  }

  // ----- The two looks of `ensure` -----

  /** A second look releases a holder that is alive exactly when the looks disagree. */
  lemma EnsureReleasesALiveHolderIff(m: Machine, p: Proc, silent: bool)
    requires Inv(m) && CanMove(m, Act(p, silent)) && m.pc[p].LookingAgain? && Lives(m, m.pc[p].holder)
    ensures Acted(m, p, silent).pc[p].Releasing? <==> !LooksAgree(m, Act(p, silent))
  {
    assert PcOk(m, p, m.pc[p]);
  }

  lemma {:induction false} UnfoldRun(m: Machine, moves: seq<Move>)
    requires moves != [] && CanMove(m, moves[0]) && Possible(Moved(m, moves[0]), moves[1..])
    ensures Possible(m, moves) && After(m, moves) == After(Moved(m, moves[0]), moves[1..])
  {
  }

  /** And then two dispatchers serve: whenever one does, an `ensure` whose looks
      disagree and a newly started process are enough. */
  lemma DisagreeingLooksBreakExclusion(m: Machine, p: Proc, q: Proc, r: Proc) returns (moves: seq<Move>)
    requires Inv(m) && Runs(m, p) && m.pc[p].Serving?
    requires Runs(m, q) && m.pc[q] == Reading(Ensure)
    requires r !in m.born && r.pid !in m.alive
    ensures Possible(m, moves)
    ensures
      var end := After(m, moves);
      p != r && Runs(end, p) && end.pc[p].Serving? && Runs(end, r) && end.pc[r].Serving?
  {
    assert PcOk(m, p, m.pc[p]) && p in m.born;
    var read := Acted(m, q, false);
    var looked := Acted(read, q, false);
    var lost := Acted(looked, q, true);
    assert lost.pc[q] == Releasing(Ensure, p);
    var released := Acted(lost, q, false);
    assert released.row == None;
    var born := Moved(released, Start(r, Serve));
    var reading := Acted(born, r, false);
    var end := Acted(reading, r, false);
    assert end.pc[r].Serving? && end.pc[p].Serving?;
    var late := [Start(r, Serve), Act(r, false), Act(r, false)];
    assert late[1..] == [Act(r, false), Act(r, false)] && late[1..][1..] == [Act(r, false)];
    assert After(end, []) == end;
    UnfoldRun(reading, late[1..][1..]);
    UnfoldRun(born, late[1..]);
    UnfoldRun(released, late);
    moves := [Act(q, false)] + late;
    UnfoldRun(lost, moves);
    assert ([Act(q, true)] + moves)[1..] == moves;
    UnfoldRun(looked, [Act(q, true)] + moves);
    moves := [Act(q, true)] + moves;
    assert ([Act(q, false)] + moves)[1..] == moves;
    UnfoldRun(read, [Act(q, false)] + moves);
    moves := [Act(q, false)] + moves;
    assert ([Act(q, false)] + moves)[1..] == moves;
    UnfoldRun(m, [Act(q, false)] + moves);
    moves := [Act(q, false)] + moves;
  }

  // ----- A dead holder never blocks -----

  /** Process `p` goes on alone until it serves or has given up. */
  function Alone(m: Machine, p: Proc, silent: bool, steps: nat): Machine
    requires p in m.pc
    decreases steps
  {
    if steps == 0 || m.pc[p].Serving? || m.pc[p].Ended? then m
    else Alone(Acted(m, p, silent), p, silent, steps - 1)
  }

  /** A claim that nobody disturbs ends in serving exactly when the table is
      empty, or its holder is dead and the pid can be read; this is what
      `_claim_dispatcher_process` computes. */
  lemma {:induction false} SoloClaimServesIff(m: Machine, p: Proc, silent: bool)
    requires Inv(m) && Runs(m, p) && m.pc[p] == Reading(Serve)
    ensures
      var end := Alone(m, p, silent, 4);
      var free := m.row.None? || (!Lives(m, m.row.value) && !silent);
      && (end.pc[p].Serving? || end.pc[p].Ended?)
      && (end.pc[p].Serving? <==> free)
      && (free <==> SoloClaims(m.row, p, if m.row.Some? then See(m, m.row.value.pid, silent) else Gone))
      && end.row == (if free then Some(p) else m.row)
  {
    assert PcOk(m, p, m.pc[p]);
    var read := Acted(m, p, silent);
    var looked := Acted(read, p, silent);
    var next := Acted(looked, p, silent);
    assert m.row.None? ==> Alone(m, p, silent, 4) == Alone(looked, p, silent, 2);
    assert m.row.Some? && looked.pc[p].Releasing? ==>
      Alone(m, p, silent, 4) == Alone(next, p, silent, 1) && Alone(next, p, silent, 1) == Acted(next, p, silent);
    assert m.row.Some? && !looked.pc[p].Releasing? ==> Alone(m, p, silent, 4) == Alone(looked, p, silent, 2);
  }

  /** One step of `p` alone, if it has one to make. */
  lemma AloneOneStep(m: Machine, p: Proc, silent: bool, steps: nat)
    requires p in m.pc && steps > 0
    ensures Alone(m, p, silent, steps)
         == if m.pc[p].Serving? || m.pc[p].Ended? then m else Alone(Acted(m, p, silent), p, silent, steps - 1)
  {
  }

  lemma AloneFourSteps(m: Machine, p: Proc, silent: bool) returns (a: Machine, b: Machine, c: Machine, d: Machine)
    requires p in m.pc
    ensures p in a.pc && p in b.pc && p in c.pc
    ensures a == (if m.pc[p].Serving? || m.pc[p].Ended? then m else Acted(m, p, silent))
    ensures b == (if a.pc[p].Serving? || a.pc[p].Ended? then a else Acted(a, p, silent))
    ensures c == (if b.pc[p].Serving? || b.pc[p].Ended? then b else Acted(b, p, silent))
    ensures d == (if c.pc[p].Serving? || c.pc[p].Ended? then c else Acted(c, p, silent))
    ensures Alone(m, p, silent, 4) == d
  {
    a := if m.pc[p].Serving? || m.pc[p].Ended? then m else Acted(m, p, silent);
    b := if a.pc[p].Serving? || a.pc[p].Ended? then a else Acted(a, p, silent);
    c := if b.pc[p].Serving? || b.pc[p].Ended? then b else Acted(b, p, silent);
    d := if c.pc[p].Serving? || c.pc[p].Ended? then c else Acted(c, p, silent);
    AloneOneStep(m, p, silent, 4);
    AloneOneStep(a, p, silent, 3);
    AloneOneStep(b, p, silent, 2);
    AloneOneStep(c, p, silent, 1);
  }

  /** A stop that nobody disturbs ends exactly the holder, and that exactly when it
      lives and can be read and stopped; it frees the table exactly when it could read
      the pid, and a reused pid is left alone. */
  lemma {:induction false} SoloStopIff(m: Machine, p: Proc, silent: bool)
    requires Inv(m) && Runs(m, p) && m.pc[p] == Reading(Stop)
    ensures
      var end := Alone(m, p, silent, 4);
      var stops := m.row.Some? && Lives(m, m.row.value) && !silent;
      && end.pc[p].Ended? && end.born == m.born
      && end.alive == (if stops then m.alive - {m.row.value.pid} else m.alive)
      && end.row == (if silent then m.row else None)
  {
    assert PcOk(m, p, m.pc[p]);
    var a, b, c, d := AloneFourSteps(m, p, silent);
  }

  /** An `ensure` that nobody disturbs ends no process and takes no row; it frees the
      table of a holder exactly when that is dead and the pid can be read. */
  lemma {:induction false} SoloEnsureIff(m: Machine, p: Proc, silent: bool)
    requires Inv(m) && Runs(m, p) && m.pc[p] == Reading(Ensure)
    ensures
      var end := Alone(m, p, silent, 4);
      && end.pc[p].Ended? && end.alive == m.alive && end.born == m.born
      && end.row == (if m.row.Some? && !Lives(m, m.row.value) && !silent then None else m.row)
  {
    assert PcOk(m, p, m.pc[p]);
    var a, b, c, d := AloneFourSteps(m, p, silent);
  }

  /** Who serves and leaves has freed the table, and nobody else's row. */
  lemma ServersFreeTheirRow(m: Machine, p: Proc)
    requires Inv(m) && Runs(m, p) && m.pc[p].Serving?
    ensures
      var end := Acted(Acted(m, p, false), p, false);
      end.row == None && end.pc[p].Ended? && end.alive == m.alive && m.row == Some(p)
  {
    assert PcOk(m, p, m.pc[p]);
  }
}
