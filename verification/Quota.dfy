/** The sliding-window quota of a heartbeat job: at most `count` starts in any
    window, although checking and recording are separate steps. */
module Quota {
  import opened Prelude

  datatype MaxPer = MaxPer(count: nat, window: real)

  function Within(recent: seq<real>, now: real, window: real): seq<real> {
    if recent == [] then []
    else (if now - recent[0] < window then [recent[0]] else []) + Within(recent[1..], now, window)
  }

  lemma {:induction false} WithinOnward(kept: seq<real>, rest: seq<real>, now: real, window: real)
    requires rest != []
    ensures kept + Within(rest, now, window)
         == (if now - rest[0] < window then kept + [rest[0]] else kept) + Within(rest[1..], now, window)
  {
    if now - rest[0] < window {
      Regroup(kept, [rest[0]], Within(rest[1..], now, window));
    } else {
      Nothing(Within(rest[1..], now, window));
    }
  }

  function Last<T>(s: seq<T>, n: nat): seq<T> {
    if |s| <= n then s else s[|s| - n..]
  }

  /** One run of the job: the clock at its check, and at its start if it comes to
      one; a run may still be skipped between the two. */
  datatype Run = Run(checked: real, started: Option<real>)

  datatype History = History(recent: seq<real>, starts: seq<real>, clock: real)

  predicate Exceeded(recent: seq<real>, max: MaxPer, now: real) {
    |Within(recent, now, max.window)| >= max.count
  }

  function After(h: History, max: MaxPer, run: Run): History {
    var recent := Within(h.recent, run.checked, max.window);
    if run.started.None? || Exceeded(h.recent, max, run.checked) then h.(recent := recent, clock := run.checked)
    else History(Last(recent + [run.started.value], 2 * max.count), h.starts + [run.started.value], run.started.value)
  }

  function AfterAll(h: History, max: MaxPer, runs: seq<Run>): History {
    if runs == [] then h else After(AfterAll(h, max, runs[..|runs| - 1]), max, runs[|runs| - 1])
  }

  /** The last time a run reads. */
  function Next(run: Run): real {
    if run.started.Some? then run.started.value else run.checked
  }

  function Later(a: real, b: real): real {
    if a < b then b else a
  }

  /** The latest time the clock has shown. */
  function Highest(clock: real, runs: seq<Run>): real {
    if runs == [] then clock
    else
      var last := runs[|runs| - 1];
      Later(Later(Highest(clock, runs[..|runs| - 1]), last.checked), Next(last))
  }

  /** The clock never shows a time more than `back` before one it has shown. */
  predicate NearlyForward(clock: real, back: real, runs: seq<Run>) {
    runs == [] ||
    (var front, last := runs[..|runs| - 1], runs[|runs| - 1];
     && NearlyForward(clock, back, front)
     && last.checked >= Highest(clock, front) - back
     && Next(last) >= Later(Highest(clock, front), last.checked) - back)
  }

  class JobState {
    var recent: seq<real>

    constructor ()
      ensures recent == []
    {
      recent := [];
    }

    /** `_quota_exceeded`, which also forgets what lies outside the window. */
    method QuotaExceeded(max: MaxPer, now: real) returns (exceeded: bool)
      modifies this
      ensures recent == Within(old(recent), now, max.window)
      ensures exceeded <==> Exceeded(old(recent), max, now)
    {
      var kept: seq<real> := [];
      for i := 0 to |recent|
        invariant recent == old(recent)
        invariant kept + Within(recent[i..], now, max.window) == Within(old(recent), now, max.window)
      {
        assert recent[i..][0] == recent[i] && recent[i..][1..] == recent[i + 1..];
        WithinOnward(kept, recent[i..], now, max.window);
        if now - recent[i] < max.window {
          kept := kept + [recent[i]];
        }
      }
      recent := kept;
      exceeded := |recent| >= max.count;
    }

    /** `_record_quota_run`. */
    method RecordRun(max: MaxPer, now: real)
      modifies this
      ensures recent == Last(old(recent) + [now], 2 * max.count)
      ensures
        var all := old(recent) + [now];
        |recent| == (if |all| <= 2 * max.count then |all| else 2 * max.count) && recent == all[|all| - |recent|..]
    {
      recent := recent + [now];
      recent := if |recent| <= 2 * max.count then recent else recent[|recent| - 2 * max.count..];
    }

    /** The quota part of `run_job`. */
    method RunJob(max: MaxPer, run: Run, ghost h: History) returns (started: bool)
      requires recent == h.recent
      modifies this
      ensures recent == After(h, max, run).recent
      ensures started <==> run.started.Some? && !Exceeded(h.recent, max, run.checked)
    {
      var exceeded := QuotaExceeded(max, run.checked);
      if exceeded || run.started.None? {
        return false;
      }
      RecordRun(max, run.started.value);
      return true;
    }
  }

  // ----- What the list remembers -----

  predicate Rising(starts: seq<real>) {
    forall i, j | 0 <= i < j < |starts| :: starts[i] <= starts[j]
  }

  /** The list holds the latest starts, at most `count` of them; what it has
      forgotten had left the window. */
  predicate Remembers(h: History, max: MaxPer, d: nat) {
    && d <= |h.starts| && h.recent == h.starts[d..] && |h.recent| <= max.count
    && Rising(h.starts) && (forall i | 0 <= i < |h.starts| :: h.starts[i] <= h.clock)
    && (forall i | 0 <= i < d :: h.clock - h.starts[i] >= max.window)
  }

  lemma {:induction false} AllWithin(recent: seq<real>, now: real, window: real)
    requires forall i | 0 <= i < |recent| :: now - recent[i] < window
    ensures Within(recent, now, window) == recent
  {
    if recent != [] {
      AllWithin(recent[1..], now, window);
    }
  }

  /** Of rising times, those within the window are the latest. */
  lemma WithinIsASuffix(recent: seq<real>, now: real, window: real) returns (k: nat)
    requires Rising(recent)
    ensures k <= |recent|
    ensures Within(recent, now, window) == recent[k..]
    ensures forall i | 0 <= i < k :: now - recent[i] >= window
    ensures forall i | k <= i < |recent| :: now - recent[i] < window
  {
    k := 0;
    if recent != [] {
      if now - recent[0] < window {
        AllWithin(recent, now, window);
      } else {
        var tail := recent[1..];
        HeadAndTail(recent);
        var rest := WithinIsASuffix(tail, now, window);
        k := rest + 1;
        DropTwice(recent, 1, rest);
        Nothing(tail[rest..]);
        assert forall i | 1 <= i < |recent| :: recent[i] == tail[i - 1];
      }
    }
  }

  /** The job has started `count` times within the last window. */
  predicate WindowIsFull(h: History, max: MaxPer, now: real) {
    |h.starts| >= max.count && (max.count > 0 ==> now - h.starts[|h.starts| - max.count] < max.window)
  }

  /** The check refuses a run exactly when the window already holds `count` of all
      starts ever made. */
  lemma ExceededIffWindowIsFull(h: History, max: MaxPer, d: nat, now: real)
    requires Remembers(h, max, d) && now >= h.clock
    ensures Exceeded(h.recent, max, now) <==> WindowIsFull(h, max, now)
  {
    var k := WithinIsASuffix(h.recent, now, max.window);
    var i := |h.starts| - max.count;
    if max.count > 0 && i >= 0 {
      assert i >= d ==> h.recent[i - d] == h.starts[i];
      assert k < |h.recent| ==> h.recent[k] == h.starts[d + k];
    }
  }

  /** Forgetting what left the window by `now` is all that a check does. */
  lemma CheckKeepsMemory(h: History, max: MaxPer, d: nat, now: real) returns (next: nat)
    requires Remembers(h, max, d) && h.clock <= now
    ensures Remembers(h.(recent := Within(h.recent, now, max.window), clock := now), max, next)
  {
    var k := WithinIsASuffix(h.recent, now, max.window);
    next := d + k;
    assert forall i | d <= i < d + k :: h.starts[i] == h.recent[i - d];
  }

  /** Recording a start while fewer than `count` are remembered. */
  lemma StartKeepsMemory(h: History, max: MaxPer, d: nat, at: real)
    requires Remembers(h, max, d) && h.clock <= at && |h.recent| < max.count
    ensures Last(h.recent + [at], 2 * max.count) == h.recent + [at]
    ensures Remembers(History(h.recent + [at], h.starts + [at], at), max, d)
  {
    assert (h.starts + [at])[d..] == h.starts[d..] + [at];
  }

  lemma RunKeepsMemory(h: History, max: MaxPer, d: nat, run: Run) returns (next: nat)
    requires Remembers(h, max, d) && max.count > 0
    requires h.clock <= run.checked <= Next(run)
    ensures Remembers(After(h, max, run), max, next) && After(h, max, run).clock <= Next(run)
  {
    next := CheckKeepsMemory(h, max, d, run.checked);
    if run.started.Some? && !Exceeded(h.recent, max, run.checked) {
      var kept := h.(recent := Within(h.recent, run.checked, max.window), clock := run.checked);
      StartKeepsMemory(kept, max, next, run.started.value);
    }
  }

  /** Over any number of serial runs with a clock that never goes back. */
  lemma {:induction false} ListRemembers(max: MaxPer, runs: seq<Run>, clock: real) returns (d: nat)
    requires max.count > 0 && NearlyForward(clock, 0.0, runs)
    ensures
      var h := AfterAll(History([], [], clock), max, runs);
      Remembers(h, max, d) && h.clock <= Highest(clock, runs)
  {
    d := 0;
    if runs != [] {
      d := ListRemembers(max, runs[..|runs| - 1], clock);
      d := RunKeepsMemory(AfterAll(History([], [], clock), max, runs[..|runs| - 1]), max, d, runs[|runs| - 1]);
    }
  }

  // ----- How far apart the starts are -----

  lemma {:induction false} WithinAdds(a: seq<real>, b: seq<real>, now: real, window: real)
    ensures Within(a + b, now, window) == Within(a, now, window) + Within(b, now, window)
  {
    if a == [] {
      Nothing(b);
    } else {
      assert (a + b)[1..] == a[1..] + b;
      WithinAdds(a[1..], b, now, window);
    }
  }

  /** What a check forgets no later check would have counted. */
  lemma {:induction false} WithinTwice(recent: seq<real>, early: real, now: real, window: real)
    requires early <= now
    ensures Within(Within(recent, early, window), now, window) == Within(recent, now, window)
  {
    if recent != [] {
      WithinTwice(recent[1..], early, now, window);
      var first := if early - recent[0] < window then [recent[0]] else [];
      WithinAdds(first, Within(recent[1..], early, window), now, window);
    }
  }

  lemma {:induction false} WithinIsFewer(recent: seq<real>, now: real, window: real)
    ensures |Within(recent, now, window)| <= |recent|
  {
    if recent != [] {
      WithinIsFewer(recent[1..], now, window);
    }
  }

  /** The list still holds every start within the window of the latest time shown,
      or of any later one. */
  ghost predicate Recalls(h: History, max: MaxPer, top: real, back: real) {
    && |h.recent| <= max.count
    && (forall i | 0 <= i < |h.starts| :: h.starts[i] <= top)
    && (forall i, j | 0 <= i < j < |h.starts| :: h.starts[j] >= h.starts[i] - back)
    && (forall now | now >= top :: |Within(h.starts, now, max.window)| <= |Within(h.recent, now, max.window)|)
  }

  lemma {:induction false} CheckRecalls(h: History, max: MaxPer, top: real, back: real, now: real)
    requires Recalls(h, max, top, back)
    ensures
      var kept := h.(recent := Within(h.recent, now, max.window), clock := now);
      Recalls(kept, max, Later(top, now), back)
  {
    WithinIsFewer(h.recent, now, max.window);
    forall later | later >= Later(top, now)
      ensures Within(Within(h.recent, now, max.window), later, max.window) == Within(h.recent, later, max.window)
    {
      WithinTwice(h.recent, now, later, max.window);
    }
  }

  lemma StartRecalls(h: History, max: MaxPer, top: real, back: real, at: real)
    requires Recalls(h, max, top, back) && |h.recent| < max.count && at >= top - back
    ensures Recalls(History(h.recent + [at], h.starts + [at], at), max, Later(top, at), back)
  {
    forall now | now >= Later(top, at)
      ensures |Within(h.starts + [at], now, max.window)| <= |Within(h.recent + [at], now, max.window)|
    {
      WithinAdds(h.starts, [at], now, max.window);
      WithinAdds(h.recent, [at], now, max.window);
    }
  }

  /** Fewer than `count` starts within the window leave one of the last `count` out. */
  lemma OneHasLeft(starts: seq<real>, count: nat, now: real, window: real) returns (j: nat)
    requires |Within(starts, now, window)| < count <= |starts|
    ensures |starts| - count <= j < |starts| && now - starts[j] >= window
  {
    var from := |starts| - count;
    if j :| from <= j < |starts| && now - starts[j] >= window {
      return j;
    }
    assert starts == starts[..from] + starts[from..];
    WithinAdds(starts[..from], starts[from..], now, window);
    AllWithin(starts[from..], now, window);
    assert false;
  }

  /** How much closer the starts may come. */
  function Lag(max: MaxPer, back: real): real {
    if max.count == 1 then back else if back < max.window then back + back else back + max.window
  }

  lemma CheckedStartIsSpaced(h: History, max: MaxPer, top: real, back: real, run: Run)
    requires Recalls(h, max, top, back) && back >= 0.0 && max.count > 0 && |h.starts| >= max.count
    requires !Exceeded(h.recent, max, run.checked) && Next(run) >= Later(top, run.checked) - back
    ensures Next(run) - h.starts[|h.starts| - max.count] >= max.window - Lag(max, back)
  {
    var now := Later(top, run.checked);
    WithinTwice(h.recent, run.checked, now, max.window);
    WithinIsFewer(Within(h.recent, run.checked, max.window), now, max.window);
    var j := OneHasLeft(h.starts, max.count, now, max.window);
  }

  lemma RunRecalls(h: History, max: MaxPer, top: real, back: real, run: Run)
    requires Recalls(h, max, top, back) && max.count > 0 && Next(run) >= Later(top, run.checked) - back
    ensures Recalls(After(h, max, run), max, Later(Later(top, run.checked), Next(run)), back)
  {
    CheckRecalls(h, max, top, back, run.checked);
    if run.started.Some? && !Exceeded(h.recent, max, run.checked) {
      var kept := h.(recent := Within(h.recent, run.checked, max.window), clock := run.checked);
      StartRecalls(kept, max, Later(top, run.checked), back, run.started.value);
    }
  }

  /** Start `k + count` comes at least that long after start `k`. */
  predicate SpacedBy(starts: seq<real>, max: MaxPer, gap: real) {
    forall k | 0 <= k < |starts| - max.count :: starts[k + max.count] - starts[k] >= gap
  }

  lemma OneMoreIsSpaced(starts: seq<real>, at: real, max: MaxPer, gap: real)
    requires SpacedBy(starts, max, gap) && max.count > 0
    requires |starts| >= max.count ==> at - starts[|starts| - max.count] >= gap
    ensures SpacedBy(starts + [at], max, gap)
  {
  }

  lemma RunIsSpaced(h: History, max: MaxPer, top: real, back: real, run: Run)
    requires Recalls(h, max, top, back) && back >= 0.0 && max.count > 0
    requires SpacedBy(h.starts, max, max.window - Lag(max, back)) && Next(run) >= Later(top, run.checked) - back
    ensures SpacedBy(After(h, max, run).starts, max, max.window - Lag(max, back))
  {
    if run.started.Some? && !Exceeded(h.recent, max, run.checked) {
      if |h.starts| >= max.count {
        CheckedStartIsSpaced(h, max, top, back, run);
      }
      OneMoreIsSpaced(h.starts, run.started.value, max, max.window - Lag(max, back));
    }
  }

  /** Over any number of serial runs with a clock that goes back at most `back`:
      start `k + count` comes at least a window after start `k`, less `back` for a
      quota of one, and less twice that, or `back` and the window, for a larger one. */
  lemma {:induction false} StartsAreSpaced(max: MaxPer, runs: seq<Run>, clock: real, back: real)
    requires max.count > 0 && back >= 0.0 && NearlyForward(clock, back, runs)
    ensures
      var h := AfterAll(History([], [], clock), max, runs);
      Recalls(h, max, Highest(clock, runs), back) && SpacedBy(h.starts, max, max.window - Lag(max, back))
  {
    if runs != [] {
      var front, last := runs[..|runs| - 1], runs[|runs| - 1];
      StartsAreSpaced(max, front, clock, back);
      var h, top := AfterAll(History([], [], clock), max, front), Highest(clock, front);
      RunRecalls(h, max, top, back, last);
      RunIsSpaced(h, max, top, back, last);
    }
  }

  // ----- No clock that goes back keeps the window -----

  function Zeros(n: nat): seq<Run> {
    if n == 0 then [] else Zeros(n - 1) + [Run(0.0, Some(0.0))]
  }

  lemma {:induction false} OneByOne(max: MaxPer, runs: seq<Run>, run: Run, back: real)
    ensures
      var h := History([], [], 0.0);
      && AfterAll(h, max, runs + [run]) == After(AfterAll(h, max, runs), max, run)
      && Highest(0.0, runs + [run]) == Later(Later(Highest(0.0, runs), run.checked), Next(run))
      && (NearlyForward(0.0, back, runs + [run]) <==>
            && NearlyForward(0.0, back, runs)
            && run.checked >= Highest(0.0, runs) - back
            && Next(run) >= Later(Highest(0.0, runs), run.checked) - back)
  {
    assert (runs + [run])[..|runs|] == runs;
  }

  /** The list and the starts after a start at `back` and `n` at zero. */
  predicate EarlyHistory(h: History, n: nat, back: real) {
    && h.recent == h.starts && |h.starts| == n + 1 && h.starts[0] == back
    && forall i | 1 <= i <= n :: h.starts[i] == 0.0
  }

  lemma OneMoreEarly(h: History, max: MaxPer, n: nat, back: real)
    requires EarlyHistory(h, n, back) && n + 1 < max.count && max.window > 0.0 && back >= 0.0
    ensures EarlyHistory(After(h, max, Run(0.0, Some(0.0))), n + 1, back)
  {
    AllWithin(h.recent, 0.0, max.window);
  }

  /** A start at `back`, then the clock at zero until the quota is used up. */
  lemma {:induction false} EarlyStarts(max: MaxPer, back: real, n: nat)
    requires n < max.count && max.window > 0.0 && back >= 0.0
    ensures
      var runs := [Run(back, Some(back))] + Zeros(n);
      && NearlyForward(0.0, back, runs) && Highest(0.0, runs) == back
      && EarlyHistory(AfterAll(History([], [], 0.0), max, runs), n, back)
  {
    var first, zero := Run(back, Some(back)), Run(0.0, Some(0.0));
    if n == 0 {
      assert [] + [first] == [first] + Zeros(0) == [first];
      OneByOne(max, [], first, back);
    } else {
      var runs := [first] + Zeros(n - 1);
      EarlyStarts(max, back, n - 1);
      Regroup([first], Zeros(n - 1), [zero]);
      OneByOne(max, runs, zero, back);
      OneMoreEarly(AfterAll(History([], [], 0.0), max, runs), max, n - 1, back);
    }
  }

  /** After these runs a start comes exactly as much too early as it can. */
  predicate Hasty(max: MaxPer, back: real, runs: seq<Run>) {
    var starts := AfterAll(History([], [], 0.0), max, runs).starts;
    |starts| == max.count + 1 && starts[max.count] - starts[0] == max.window - Lag(max, back)
  }

  /** Runs of a quota of one. */
  lemma OneIsHasty(max: MaxPer, back: real) returns (runs: seq<Run>)
    requires max.count == 1 && max.window > 0.0 && back >= 0.0
    ensures NearlyForward(0.0, back, runs) && Hasty(max, back, runs)
  {
    var first, second := Run(0.0, Some(0.0)), Run(max.window, Some(max.window - back));
    OneByOne(max, [], first, back);
    assert [] + [first] == [first];
    assert AfterAll(History([], [], 0.0), max, [first]).recent == [0.0];
    OneByOne(max, [first], second, back);
    assert Within([0.0], max.window, max.window) == [];
    runs := [first] + [second];
  }

  /** Runs of a larger quota. */
  lemma MoreAreHasty(max: MaxPer, back: real) returns (runs: seq<Run>)
    requires max.count > 1 && max.window > 0.0 && back >= 0.0
    ensures NearlyForward(0.0, back, runs) && Hasty(max, back, runs)
  {
    var at := Later(max.window, back);
    var early, last := [Run(back, Some(back))] + Zeros(max.count - 1), Run(at, Some(at - back));
    EarlyStarts(max, back, max.count - 1);
    OneByOne(max, early, last, back);
    OnlyTheFirstStays(AfterAll(History([], [], 0.0), max, early).recent, at, max.window);
    runs := early + [last];
  }

  lemma {:induction false} OnlyTheFirstStays(recent: seq<real>, now: real, window: real)
    requires recent != [] && now >= window && forall i | 1 <= i < |recent| :: recent[i] == 0.0
    ensures |Within(recent, now, window)| <= 1
  {
    NoneWithin(recent[1..], now, window);
  }

  lemma {:induction false} NoneWithin(recent: seq<real>, now: real, window: real)
    requires now >= window && forall i | 0 <= i < |recent| :: recent[i] == 0.0
    ensures Within(recent, now, window) == []
  {
    if recent != [] {
      NoneWithin(recent[1..], now, window);
    }
  }

  lemma SomeRunsAreHasty(max: MaxPer, back: real) returns (runs: seq<Run>)
    requires max.count > 0 && max.window > 0.0 && back >= 0.0
    ensures NearlyForward(0.0, back, runs) && Hasty(max, back, runs)
  {
    if max.count == 1 {
      runs := OneIsHasty(max, back);
    } else {
      runs := MoreAreHasty(max, back);
    }
  }

  ghost predicate AlwaysSpaced(max: MaxPer, clock: real, back: real) {
    forall runs | NearlyForward(clock, back, runs) ::
      SpacedBy(AfterAll(History([], [], clock), max, runs).starts, max, max.window)
  }

  /** A window apart, whatever the runs, exactly when the clock never goes back. */
  lemma QuotaHoldsIffClockGoesForward(max: MaxPer, back: real)
    requires max.count > 0 && max.window > 0.0 && back >= 0.0
    ensures AlwaysSpaced(max, 0.0, back) <==> back == 0.0
  {
    if back == 0.0 {
      forall runs | NearlyForward(0.0, back, runs) {
        StartsAreSpaced(max, runs, 0.0, back);
      }
    } else {
      var runs := SomeRunsAreHasty(max, back);
      var starts := AfterAll(History([], [], 0.0), max, runs).starts;
      assert Lag(max, back) > 0.0 && starts[0 + max.count] - starts[0] < max.window;
      assert !SpacedBy(starts, max, max.window);
    }
  }
}
