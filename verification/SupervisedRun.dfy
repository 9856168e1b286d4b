/** One supervised provider process: its output folded into events, an append-only
    event file, and one terminal verdict that the ledger can read back. */
module SupervisedRun {
  import opened Prelude
  import opened EventLog
  import opened RunLedger

  datatype RunStatus = Success | Failure | UsageLimited | CancelledRun | TimedOutRun | OffContract

  datatype Source = Stdout | Stderr

  datatype OutputLine = OutputLine(source: Source, text: string)

  /** One event a provider's line stands for. */
  datatype Norm = Norm(kind: Kind, rawId: Option<string>, detail: Option<string>, status: Option<RunStatus>)

  /** `normalize` answers nothing for a line the contract does not know, be it no
      JSON object at all; the other three shape what is stored as text. */
  datatype Contract = Contract(
    normalize: string -> seq<Norm>,
    redact: string -> string,
    clip: string -> Option<string>,
    encode: Event -> seq<byte>)

  datatype Exit = Exit(how: Ending, returncode: Option<int>, detail: Option<string>)

  datatype Ending = Exited | CancelRequested | DeadlinePassed

  /** What the fields of a run hold while lines come in. */
  datatype Stream = Stream(
    events: seq<Event>,
    observed: Option<RunStatus>,
    normalizedAny: bool,
    unrecognizedStdout: bool,
    stderrDetail: Option<string>)

  function EventFor(c: Contract, n: Norm): Event {
    Event(n.kind, n.rawId, if n.detail.Some? && n.detail.value != "" then Some(c.redact(n.detail.value)) else None)
  }

  function Taken(c: Contract, s: Stream, norms: seq<Norm>): Stream
    decreases |norms|
  {
    if norms == [] then s
    else
      var n := norms[0];
      Taken(c, s.(events := s.events + [EventFor(c, n)],
                  observed := if n.status.Some? then n.status else s.observed), norms[1..])
  }

  function Consumed(c: Contract, s: Stream, line: OutputLine): Stream {
    if line.text == "" then s
    else
      var norms := c.normalize(line.text);
      if norms != [] then Taken(c, s.(normalizedAny := true), norms)
      else if line.source == Stdout then s.(unrecognizedStdout := true)
      else if s.stderrDetail.Some? then s
      else s.(stderrDetail := c.clip(line.text))
  }

  function ConsumedAll(c: Contract, s: Stream, lines: seq<OutputLine>): Stream {
    if lines == [] then s
    else Consumed(c, ConsumedAll(c, s, lines[..|lines| - 1]), lines[|lines| - 1])
  }

  const NEW_STREAM := Stream([Event(StartedEvent, None, None)], None, false, false, None)

  datatype Result = Result(status: RunStatus, kind: Kind, detail: Option<string>)

  function LastFailedDetail(events: seq<Event>): Option<string> {
    if events == [] then None
    else
      var e := events[|events| - 1];
      if e.kind == FailedEvent && e.detail.Some? && e.detail.value != "" then e.detail
      else LastFailedDetail(events[..|events| - 1])
  }

  /** The verdict on a finished process. */
  function VerdictOn(s: Stream, exit: Exit): Result {
    if exit.how == CancelRequested then Result(CancelledRun, CancelledEvent, exit.detail)
    else if exit.how == DeadlinePassed then Result(TimedOutRun, TimedOutEvent, exit.detail)
    else if s.observed == Some(UsageLimited) then Result(UsageLimited, FailedEvent, LastFailedDetail(s.events))
    else if s.observed == Some(Failure) then Result(Failure, FailedEvent, LastFailedDetail(s.events))
    else if exit.returncode != Some(0) then
      Result(Failure, FailedEvent, if s.stderrDetail.Some? then s.stderrDetail else Some("provider exited"))
    else if s.unrecognizedStdout && !s.normalizedAny then
      Result(OffContract, FailedEvent, Some("provider output did not match the runtime contract"))
    else Result(Success, CompletedEvent, exit.detail)
  }

  /** The events of a run once its terminal event is written, unless the stream
      already ended with one of its kind. */
  function Closed(c: Contract, events: seq<Event>, result: Result): (all: seq<Event>)
    ensures all != [] && all[|all| - 1].kind == result.kind
  {
    if events != [] && events[|events| - 1].kind == result.kind then events
    else events + [EventFor(c, Norm(result.kind, None, result.detail, None))]
  }

  /** The bytes of the event file. */
  function Written(c: Contract, events: seq<Event>): seq<byte> {
    if events == [] then []
    else Written(c, events[..|events| - 1]) + c.encode(events[|events| - 1]) + [NEWLINE]
  }

  lemma {:induction false} WrittenOneMore(c: Contract, events: seq<Event>, event: Event)
    ensures Written(c, events + [event]) == Written(c, events) + c.encode(event) + [NEWLINE]
  {
    assert (events + [event])[..|events|] == events;
  }

  // ----- The run itself -----

  class Supervised {
    const c: Contract
    var stream: Stream
    var file: seq<byte>
    var closed: bool

    ghost predicate Valid()
      reads this
    {
      file == Written(c, stream.events)
    }

    /** `begin`. */
    constructor (c: Contract)
      ensures this.c == c && Valid() && !closed && stream == NEW_STREAM
    {
      this.c, closed := c, false;
      stream := Stream([Event(StartedEvent, None, None)], None, false, false, None);
      file := c.encode(Event(StartedEvent, None, None)) + [NEWLINE];
      new;
      WrittenOneMore(c, [], Event(StartedEvent, None, None));
      assert [] + [Event(StartedEvent, None, None)] == stream.events;
      assert [] + c.encode(Event(StartedEvent, None, None)) == c.encode(Event(StartedEvent, None, None));
    }

    method Append(kind: Kind, rawId: Option<string>, detail: Option<string>)
      requires Valid() && !closed
      modifies this
      ensures Valid() && !closed
      ensures stream == old(stream).(events := old(stream.events) + [EventFor(c, Norm(kind, rawId, detail, None))])
    {
      var kept := if detail.Some? && detail.value != "" then Some(c.redact(detail.value)) else None;
      var event := Event(kind, rawId, kept);
      WrittenOneMore(c, stream.events, event);
      stream := stream.(events := stream.events + [event]);
      file := file + c.encode(event) + [NEWLINE];
    }

    method Consume(line: OutputLine)
      requires Valid() && !closed
      modifies this
      ensures Valid() && !closed && stream == Consumed(c, old(stream), line)
    {
      if line.text == "" {
        return;
      }
      var norms := c.normalize(line.text);
      if norms == [] {
        if line.source == Stderr {
          if stream.stderrDetail.None? {
            stream := stream.(stderrDetail := c.clip(line.text));
          }
        } else {
          stream := stream.(unrecognizedStdout := true);
        }
        return;
      }
      stream := stream.(normalizedAny := true);
      ghost var all := Taken(c, stream, norms);
      for i := 0 to |norms|
        invariant Valid() && !closed
        invariant Taken(c, stream, norms[i..]) == all
      {
        assert norms[i..][0] == norms[i] && norms[i..][1..] == norms[i + 1..];
        Append(norms[i].kind, norms[i].rawId, norms[i].detail);
        if norms[i].status.Some? {
          stream := stream.(observed := norms[i].status);
        }
      }
    }

    /** `_supervise`: the lines in the order both streams delivered them. */
    method Supervise(lines: seq<OutputLine>, exit: Exit) returns (result: Result)
      requires Valid() && !closed
      modifies this
      ensures Valid() && closed
      ensures
        var s := ConsumedAll(c, old(stream), lines);
        && result == VerdictOn(s, exit)
        && stream == s.(events := Closed(c, s.events, result))
      ensures old(stream) == NEW_STREAM ==> VerdictFits(c, lines, exit, result)
    {
      VerdictIs(c, lines, exit);
      for i := 0 to |lines|
        invariant Valid() && !closed
        invariant stream == ConsumedAll(c, old(stream), lines[..i])
      {
        assert lines[..i + 1][..i] == lines[..i];
        Consume(lines[i]);
      }
      assert lines[..|lines|] == lines;
      result := Judge(exit);
      var events := stream.events;
      if events == [] || events[|events| - 1].kind != result.kind {
        Append(result.kind, None, result.detail);
      }
      closed := true;
    }

    method Judge(exit: Exit) returns (result: Result)
      ensures result == VerdictOn(stream, exit)
    {
      if exit.how == CancelRequested {
        return Result(CancelledRun, CancelledEvent, exit.detail);
      }
      if exit.how == DeadlinePassed {
        return Result(TimedOutRun, TimedOutEvent, exit.detail);
      }
      if stream.observed == Some(UsageLimited) {
        return Result(UsageLimited, FailedEvent, LastFailedDetail(stream.events));
      }
      if stream.observed == Some(Failure) {
        return Result(Failure, FailedEvent, LastFailedDetail(stream.events));
      }
      if exit.returncode != Some(0) {
        return Result(Failure, FailedEvent,
                      if stream.stderrDetail.Some? then stream.stderrDetail else Some("provider exited"));
      }
      if stream.unrecognizedStdout && !stream.normalizedAny {
        return Result(OffContract, FailedEvent, Some("provider output did not match the runtime contract"));
      }
      return Result(Success, CompletedEvent, exit.detail);
    }
  }

  // ----- Noise -----

  predicate Recognized(c: Contract, line: OutputLine) {
    line.text != "" && c.normalize(line.text) != []
  }

  /** The lines the contract knows. */
  function Clean(c: Contract, lines: seq<OutputLine>): seq<OutputLine> {
    if lines == [] then []
    else
      var front, last := Clean(c, lines[..|lines| - 1]), lines[|lines| - 1];
      if Recognized(c, last) then front + [last] else front
  }

  /** Everything but what only noise can change. */
  predicate SameSignal(a: Stream, b: Stream) {
    a.events == b.events && a.observed == b.observed && a.normalizedAny == b.normalizedAny
  }

  lemma {:induction false} TakenKeepsSignal(c: Contract, a: Stream, b: Stream, norms: seq<Norm>)
    requires SameSignal(a, b)
    ensures SameSignal(Taken(c, a, norms), Taken(c, b, norms))
    ensures Taken(c, a, norms).normalizedAny == a.normalizedAny
    ensures Taken(c, a, norms).unrecognizedStdout == a.unrecognizedStdout
    decreases |norms|
  {
    if norms != [] {
      var n := norms[0];
      TakenKeepsSignal(
        c, a.(events := a.events + [EventFor(c, n)], observed := if n.status.Some? then n.status else a.observed),
        b.(events := b.events + [EventFor(c, n)], observed := if n.status.Some? then n.status else b.observed),
        norms[1..]);
    }
  }

  lemma {:induction false} NoiseKeepsSignal(c: Contract, s: Stream, lines: seq<OutputLine>)
    ensures SameSignal(ConsumedAll(c, s, lines), ConsumedAll(c, s, Clean(c, lines)))
  {
    if lines != [] {
      var front, last := lines[..|lines| - 1], lines[|lines| - 1];
      NoiseKeepsSignal(c, s, front);
      if Recognized(c, last) {
        assert (Clean(c, front) + [last])[..|Clean(c, front)|] == Clean(c, front);
        var a, b := ConsumedAll(c, s, front), ConsumedAll(c, s, Clean(c, front));
        TakenKeepsSignal(c, a.(normalizedAny := true), b.(normalizedAny := true), c.normalize(last.text));
      }
    }
  }

  /** Standard output held a line the contract does not know. */
  predicate Noise(c: Contract, lines: seq<OutputLine>) {
    exists k | 0 <= k < |lines| :: lines[k].source == Stdout && lines[k].text != "" && !Recognized(c, lines[k])
  }

  /** The two flags say what they are named for. */
  lemma {:induction false} FlagsCount(c: Contract, s: Stream, lines: seq<OutputLine>)
    ensures
      var end := ConsumedAll(c, s, lines);
      && (end.normalizedAny <==> s.normalizedAny || Clean(c, lines) != [])
      && (end.unrecognizedStdout <==>
            s.unrecognizedStdout || Noise(c, lines))
  {
    if lines != [] {
      var front, last := lines[..|lines| - 1], lines[|lines| - 1];
      FlagsCount(c, s, front);
      var before := ConsumedAll(c, s, front);
      if Recognized(c, last) {
        TakenKeepsSignal(c, before.(normalizedAny := true), before.(normalizedAny := true), c.normalize(last.text));
      }
      assert forall k | 0 <= k < |front| :: lines[k] == front[k];
    }
  }

  // ----- The verdict, by the lines -----

  /** What the recognized lines say, in order. */
  function Told(c: Contract, lines: seq<OutputLine>): seq<Norm> {
    if lines == [] then []
    else
      var last := lines[|lines| - 1];
      Told(c, lines[..|lines| - 1]) + if last.text == "" then [] else c.normalize(last.text)
  }

  /** Of the statuses told, `status` is the last. */
  predicate LastTold(told: seq<Norm>, status: RunStatus) {
    exists i | 0 <= i < |told| ::
      told[i].status == Some(status) && forall j | i < j < |told| :: told[j].status.None?
  }

  predicate NoStatus(told: seq<Norm>) {
    forall i | 0 <= i < |told| :: told[i].status.None?
  }

  /** The event that keeps what was told, its text redacted. */
  predicate Keeps(c: Contract, event: Event, n: Norm) {
    && event.kind == n.kind && event.rawId == n.rawId
    && event.detail == if n.detail in {None, Some("")} then None else Some(c.redact(n.detail.value))
  }

  /** The stream holds the events it began with, then one for each thing told. */
  predicate Recounts(c: Contract, events: seq<Event>, start: seq<Event>, told: seq<Norm>) {
    && |events| == |start| + |told| && events[..|start|] == start
    && forall i | 0 <= i < |told| :: Keeps(c, events[|start| + i], told[i])
  }

  /** The status observed last, or else the one before. */
  predicate ObservesLast(observed: Option<RunStatus>, was: Option<RunStatus>, told: seq<Norm>) {
    if NoStatus(told) then observed == was else observed.Some? && LastTold(told, observed.value)
  }

  lemma {:induction false} TakenTells(c: Contract, s: Stream, norms: seq<Norm>)
    ensures
      var end := Taken(c, s, norms);
      && Recounts(c, end.events, s.events, norms) && ObservesLast(end.observed, s.observed, norms)
      && end.stderrDetail == s.stderrDetail
    decreases |norms|
  {
    if norms != [] {
      var n, rest := norms[0], norms[1..];
      var next := s.(events := s.events + [EventFor(c, n)],
                     observed := if n.status.Some? then n.status else s.observed);
      TakenTells(c, next, rest);
      var end := Taken(c, next, rest);
      assert forall i | 1 <= i < |norms| :: norms[i] == rest[i - 1];
      RecountsOneEarlier(c, end.events, s.events, norms);
      ObservesOneEarlier(end.observed, s.observed, norms);
    }
  }

  lemma RecountsOneEarlier(c: Contract, events: seq<Event>, start: seq<Event>, norms: seq<Norm>)
    requires norms != [] && Recounts(c, events, start + [EventFor(c, norms[0])], norms[1..])
    ensures Recounts(c, events, start, norms)
  {
    var first := start + [EventFor(c, norms[0])];
    assert events[..|start|] == events[..|first|][..|start|] == start;
    assert events[|start|] == events[..|first|][|start|];
    forall i | 0 <= i < |norms|
      ensures Keeps(c, events[|start| + i], norms[i])
    {
      if i > 0 {
        assert Keeps(c, events[|first| + (i - 1)], norms[1..][i - 1]);
      }
    }
  }

  lemma ObservesOneEarlier(observed: Option<RunStatus>, was: Option<RunStatus>, norms: seq<Norm>)
    requires norms != []
    requires ObservesLast(observed, if norms[0].status.Some? then norms[0].status else was, norms[1..])
    ensures ObservesLast(observed, was, norms)
  {
    var rest := norms[1..];
    if NoStatus(rest) {
      forall j | 0 < j < |norms|
        ensures norms[j].status.None?
      {
        assert rest[j - 1].status.None?;
      }
    } else {
      var i :| 0 <= i < |rest| && rest[i].status == observed && forall j | i < j < |rest| :: rest[j].status.None?;
      assert norms[i + 1].status == observed;
      forall j | i + 1 < j < |norms|
        ensures norms[j].status.None?
      {
        assert rest[j - 1].status.None?;
      }
    }
  }

  /** Telling goes on. */
  lemma RecountsOn(c: Contract, a: seq<Event>, b: seq<Event>, end: seq<Event>, first: seq<Norm>, more: seq<Norm>)
    requires Recounts(c, b, a, first) && Recounts(c, end, b, more)
    ensures Recounts(c, end, a, first + more)
  {
    assert end[..|a|] == end[..|b|][..|a|];
    forall i | 0 <= i < |first + more|
      ensures Keeps(c, end[|a| + i], (first + more)[i])
    {
      if i < |first| {
        assert end[|a| + i] == end[..|b|][|a| + i];
      } else {
        assert Keeps(c, end[|b| + (i - |first|)], more[i - |first|]);
      }
    }
  }

  lemma ObservesOn(
      was: Option<RunStatus>, middle: Option<RunStatus>, observed: Option<RunStatus>, first: seq<Norm>, more: seq<Norm>)
    requires ObservesLast(middle, was, first) && ObservesLast(observed, middle, more)
    ensures ObservesLast(observed, was, first + more)
  {
    var all := first + more;
    assert forall j | |first| <= j < |all| :: all[j] == more[j - |first|];
    if NoStatus(more) {
      if !NoStatus(first) {
        var i :| 0 <= i < |first| && first[i].status == middle && forall j | i < j < |first| :: first[j].status.None?;
        assert all[i].status == observed;
      }
    } else {
      var i :| 0 <= i < |more| && more[i].status == observed && forall j | i < j < |more| :: more[j].status.None?;
      assert all[|first| + i].status == observed;
    }
  }

  /** What is kept of an unknown line on standard error. */
  function Complaint(c: Contract, line: OutputLine): Option<string> {
    if line.source == Stderr && line.text != "" && !Recognized(c, line) then c.clip(line.text) else None
  }

  /** `kept` is the first complaint, if there is any. */
  predicate FirstComplaint(c: Contract, lines: seq<OutputLine>, kept: Option<string>) {
    if kept.None? then forall k | 0 <= k < |lines| :: Complaint(c, lines[k]).None?
    else
      exists k | 0 <= k < |lines| ::
        Complaint(c, lines[k]) == kept && forall j | 0 <= j < k :: Complaint(c, lines[j]).None?
  }

  /** What a stream holds after the lines. */
  predicate Tells(c: Contract, lines: seq<OutputLine>, s: Stream) {
    && Recounts(c, s.events, NEW_STREAM.events, Told(c, lines)) && ObservesLast(s.observed, None, Told(c, lines))
    && FirstComplaint(c, lines, s.stderrDetail)
  }

  /** One line more. */
  lemma LineTells(c: Contract, s: Stream, line: OutputLine)
    ensures
      var next, norms := Consumed(c, s, line), if line.text == "" then [] else c.normalize(line.text);
      && Recounts(c, next.events, s.events, norms) && ObservesLast(next.observed, s.observed, norms)
      && next.stderrDetail == if s.stderrDetail.Some? then s.stderrDetail else Complaint(c, line)
  {
    if Recognized(c, line) {
      TakenTells(c, s.(normalizedAny := true), c.normalize(line.text));
    } else {
      assert s.events[..|s.events|] == s.events;
    }
  }

  lemma {:induction false} StreamTells(c: Contract, lines: seq<OutputLine>)
    ensures Tells(c, lines, ConsumedAll(c, NEW_STREAM, lines))
  {
    if lines != [] {
      var front, last := lines[..|lines| - 1], lines[|lines| - 1];
      StreamTells(c, front);
      var before := ConsumedAll(c, NEW_STREAM, front);
      LineTells(c, before, last);
      TellsOneMore(c, lines, before, Consumed(c, before, last));
    }
  }

  lemma TellsOneMore(c: Contract, lines: seq<OutputLine>, before: Stream, after: Stream)
    requires lines != [] && Tells(c, lines[..|lines| - 1], before)
    requires
      var last := lines[|lines| - 1];
      var norms := if last.text == "" then [] else c.normalize(last.text);
      && Recounts(c, after.events, before.events, norms) && ObservesLast(after.observed, before.observed, norms)
      && after.stderrDetail == if before.stderrDetail.Some? then before.stderrDetail else Complaint(c, last)
    ensures Tells(c, lines, after)
  {
    var front, last := lines[..|lines| - 1], lines[|lines| - 1];
    var norms := if last.text == "" then [] else c.normalize(last.text);
    RecountsOn(c, NEW_STREAM.events, before.events, after.events, Told(c, front), norms);
    ObservesOn(None, before.observed, after.observed, Told(c, front), norms);
    ComplaintOneMore(c, lines, before.stderrDetail, after.stderrDetail);
  }

  lemma ComplaintOneMore(c: Contract, lines: seq<OutputLine>, was: Option<string>, kept: Option<string>)
    requires lines != [] && FirstComplaint(c, lines[..|lines| - 1], was)
    requires kept == if was.Some? then was else Complaint(c, lines[|lines| - 1])
    ensures FirstComplaint(c, lines, kept)
  {
    var front := lines[..|lines| - 1];
    assert forall j | 0 <= j < |front| :: front[j] == lines[j];
    if was.Some? {
      var k :| 0 <= k < |front| && Complaint(c, front[k]) == was
                && forall j | 0 <= j < k :: Complaint(c, front[j]).None?;
      assert Complaint(c, lines[k]) == kept;
    }
  }

  /** The text of a failure told of. */
  function FailureText(c: Contract, n: Norm): Option<string> {
    if n.kind != FailedEvent || n.detail in {None, Some("")} || c.redact(n.detail.value) == "" then None
    else Some(c.redact(n.detail.value))
  }

  /** `detail` is the text of the last failure told of with one, if there is any. */
  predicate LastFailureText(c: Contract, told: seq<Norm>, detail: Option<string>) {
    if detail.None? then forall i | 0 <= i < |told| :: FailureText(c, told[i]).None?
    else
      exists i | 0 <= i < |told| ::
        FailureText(c, told[i]) == detail && forall j | i < j < |told| :: FailureText(c, told[j]).None?
  }

  lemma LastTextOneMore(c: Contract, told: seq<Norm>, was: Option<string>, detail: Option<string>)
    requires told != [] && LastFailureText(c, told[..|told| - 1], was)
    requires
      var text := FailureText(c, told[|told| - 1]);
      detail == if text.Some? then text else was
    ensures LastFailureText(c, told, detail)
  {
    var front, n := told[..|told| - 1], told[|told| - 1];
    assert forall j | 0 <= j < |front| :: front[j] == told[j];
    if FailureText(c, n).None? && was.Some? {
      var i :| 0 <= i < |front| && FailureText(c, front[i]) == was
                && forall j | i < j < |front| :: FailureText(c, front[j]).None?;
      assert FailureText(c, told[i]) == detail;
    }
  }

  lemma KeptText(c: Contract, e: Event, n: Norm)
    requires Keeps(c, e, n)
    ensures FailureText(c, n)
         == if e.kind == FailedEvent && e.detail.Some? && e.detail.value != "" then e.detail else None
  {
  }

  lemma {:induction false} LastFailureIs(c: Contract, events: seq<Event>, told: seq<Norm>)
    requires Recounts(c, events, NEW_STREAM.events, told)
    ensures LastFailureText(c, told, LastFailedDetail(events))
  {
    if told == [] {
      assert events == NEW_STREAM.events && events[..0] == [];
    } else {
      var n := |told| - 1;
      assert Keeps(c, events[1 + n], told[n]);
      KeptText(c, events[1 + n], told[n]);
      RecountsFront(c, events, told);
      LastFailureIs(c, events[..|events| - 1], told[..n]);
      LastTextOneMore(c, told, LastFailedDetail(events[..|events| - 1]), LastFailedDetail(events));
    }
  }

  lemma RecountsFront(c: Contract, events: seq<Event>, told: seq<Norm>)
    requires Recounts(c, events, NEW_STREAM.events, told) && told != []
    ensures Recounts(c, events[..|events| - 1], NEW_STREAM.events, told[..|told| - 1])
  {
    var fewer, front := events[..|events| - 1], told[..|told| - 1];
    assert fewer[..1] == events[..1];
    forall i | 0 <= i < |front|
      ensures Keeps(c, fewer[1 + i], front[i])
    {
      assert Keeps(c, events[1 + i], told[i]);
    }
  }

  /** The process ended by itself, well, and what it said last was no failure; and it
      said something the contract knows, or nothing that it does not know. */
  predicate Succeeds(c: Contract, lines: seq<OutputLine>, exit: Exit) {
    && EndedWell(exit)
    && !LastTold(Told(c, lines), UsageLimited) && !LastTold(Told(c, lines), Failure)
    && (Told(c, lines) != [] || !Noise(c, lines))
  }

  /** When a verdict is which, and the kind and the text it is written with. */
  predicate VerdictFits(c: Contract, lines: seq<OutputLine>, exit: Exit, result: Result) {
    var told := Told(c, lines);
    var limited, failed := LastTold(told, UsageLimited), LastTold(told, Failure);
    var ended := exit.how == Ending.Exited;
    && (result.status == CancelledRun <==> exit.how == CancelRequested)
    && (result.status == TimedOutRun <==> exit.how == DeadlinePassed)
    && (result.status == UsageLimited <==> ended && limited)
    && (result.status == Failure <==> ended && !limited && (failed || exit.returncode != Some(0)))
    && (result.status == OffContract <==>
          EndedWell(exit) && !limited && !failed && told == [] && Noise(c, lines))
    && (result.status == Success <==> Succeeds(c, lines, exit))
    && result.kind == (match result.status
                       case Success => CompletedEvent
                       case CancelledRun => CancelledEvent
                       case TimedOutRun => TimedOutEvent
                       case _ => FailedEvent)
    && (result.status in {Success, CancelledRun, TimedOutRun} ==> result.detail == exit.detail)
    && (ended && (limited || failed) ==> LastFailureText(c, told, result.detail))
    && (result.status == Failure && !failed ==>
          || (result.detail.Some? && FirstComplaint(c, lines, result.detail))
          || (result.detail == Some("provider exited") && FirstComplaint(c, lines, None)))
  }

  lemma OneIsLast(told: seq<Norm>, a: RunStatus, b: RunStatus)
    requires LastTold(told, a) && LastTold(told, b)
    ensures a == b
  {
    var i :| 0 <= i < |told| && told[i].status == Some(a) && forall j | i < j < |told| :: told[j].status.None?;
    var k :| 0 <= k < |told| && told[k].status == Some(b) && forall j | k < j < |told| :: told[j].status.None?;
    assert i == k;
  }

  lemma {:induction false} ObservedIs(c: Contract, lines: seq<OutputLine>, s: Stream, status: RunStatus)
    requires Tells(c, lines, s)
    ensures s.observed == Some(status) <==> LastTold(Told(c, lines), status)
  {
    if LastTold(Told(c, lines), status) && s.observed.Some? && LastTold(Told(c, lines), s.observed.value) {
      OneIsLast(Told(c, lines), status, s.observed.value);
    }
  }

  lemma {:induction false} ToldIsClean(c: Contract, lines: seq<OutputLine>)
    ensures Told(c, lines) == [] <==> Clean(c, lines) == []
  {
    if lines != [] {
      ToldIsClean(c, lines[..|lines| - 1]);
    }
  }

  /** Supervising the lines and the exit gives exactly the verdict they call for. */
  lemma {:induction false} VerdictIs(c: Contract, lines: seq<OutputLine>, exit: Exit)
    ensures VerdictFits(c, lines, exit, VerdictOn(ConsumedAll(c, NEW_STREAM, lines), exit))
  {
    var s := ConsumedAll(c, NEW_STREAM, lines);
    StreamTells(c, lines);
    ObservedIs(c, lines, s, UsageLimited);
    ObservedIs(c, lines, s, Failure);
    ToldIsClean(c, lines);
    FlagsCount(c, NEW_STREAM, lines);
    LastFailureIs(c, s.events, Told(c, lines));
  }

  predicate EndedWell(exit: Exit) {
    exit.how == Ending.Exited && exit.returncode == Some(0)
  }

  /** The terminal event comes after all others, and only if the last of them is not
      of its kind already. */
  lemma ClosedAdds(c: Contract, events: seq<Event>, result: Result)
    ensures
      var all := Closed(c, events, result);
      if events != [] && events[|events| - 1].kind == result.kind then all == events
      else |all| == |events| + 1 && all[..|events|] == events
           && Keeps(c, all[|events|], Norm(result.kind, None, result.detail, None))
  {
    assert result.detail == Some("") <==> result.detail.Some? && result.detail.value == "";
  }

  // ----- The verdict and the ledger -----

  /** The event's line is one line, decodes to its kind, and decodes to nothing
      once its beginning is cut off. */
  ghost predicate Readable(c: Contract, codec: Codec, e: Event) {
    var line := c.encode(e);
    && NEWLINE !in line && !IsBlank(line) && codec.kind(line) == Some(e.kind)
    && forall k | 0 < k <= |line| :: codec.kind(line[k..]) == None
  }

  /** The event's line and its newline fit the tail that `last_event` reads. */
  predicate FitsTheTail(c: Contract, e: Event) {
    |c.encode(e)| < TAIL_WINDOW
  }

  lemma {:induction false} WrittenEndsLines(c: Contract, events: seq<Event>)
    ensures OnBoundary(Written(c, events), |Written(c, events)|)
  {
  }

  /** Whatever came before it, the last event is read exactly if its line fits. */
  lemma {:induction false} LastWrittenKind(c: Contract, codec: Codec, events: seq<Event>)
    requires events != [] && Readable(c, codec, events[|events| - 1])
    ensures
      var e := events[|events| - 1];
      LastKind(codec, Written(c, events)) == if FitsTheTail(c, e) then Some(e.kind) else None
  {
    var e := events[|events| - 1];
    var line, before := c.encode(e), Written(c, events[..|events| - 1]);
    WrittenEndsLines(c, events[..|events| - 1]);
    if FitsTheTail(c, e) {
      LastKindReadsTheNewestLine(codec, before, line, []);
      assert before + line + [NEWLINE] + [] == before + line + [NEWLINE];
    } else {
      LastKindReadsACutLine(codec, before, line);
    }
  }

  lemma VerdictIsTerminal(s: Stream, exit: Exit)
    ensures
      var result := VerdictOn(s, exit);
      && result.kind in {CompletedEvent, FailedEvent, CancelledEvent, TimedOutEvent}
      && (TerminalBy(Some(result.kind)) == Succeeded <==> result.status == Success)
      && (TerminalBy(Some(result.kind)) == Cancelled <==> result.status == CancelledRun)
  {
  }

  /** What the ledger makes of a finished run's file: success exactly when the
      verdict was and its line fits the tail, cancellation likewise, failure
      otherwise.  So it reads the verdict it should exactly when the line fits or
      the verdict was neither. */
  lemma {:induction false} LedgerReadsTheVerdictIff(c: Contract, codec: Codec, s: Stream, exit: Exit)
    requires
      var events := Closed(c, s.events, VerdictOn(s, exit));
      Readable(c, codec, events[|events| - 1])
    ensures
      var result := VerdictOn(s, exit);
      var events := Closed(c, s.events, result);
      var fits := FitsTheTail(c, events[|events| - 1]);
      var last := LastKind(codec, Written(c, events));
      var right := && (TerminalBy(last) == Succeeded <==> result.status == Success)
                   && (TerminalBy(last) == Cancelled <==> result.status == CancelledRun);
      && last == (if fits then Some(result.kind) else None)
      && (TerminalBy(last) == Succeeded <==> result.status == Success && fits)
      && (TerminalBy(last) == Cancelled <==> result.status == CancelledRun && fits)
      && (right <==> fits || result.status !in {Success, CancelledRun})
  {
    var result := VerdictOn(s, exit);
    VerdictIsTerminal(s, exit);
    LastWrittenKind(c, codec, Closed(c, s.events, result));
  }

  // ----- The file and its reader -----

  /** The event's line is one line and decodes to the event. */
  predicate Decodable(c: Contract, codec: Codec, e: Event) {
    var line := c.encode(e);
    NEWLINE !in line && !IsBlank(line) && codec.event(line) == Some(e)
  }

  lemma {:induction false} WrittenDecodes(c: Contract, codec: Codec, events: seq<Event>)
    requires forall e | e in events :: Decodable(c, codec, e)
    ensures EventsUpTo(codec, Written(c, events), |Written(c, events)|) == events
  {
    if events != [] {
      var front, e := events[..|events| - 1], events[|events| - 1];
      WrittenDecodes(c, codec, front);
      WrittenEndsLines(c, front);
      assert e in events && front + [e] == events;
      ALineMoreIsAnEventMore(codec, Written(c, front), c.encode(e));
    }
  }

  /** Watching the file of a run returns the run's events, each once and in order,
      and ends at the end of the file. */
  lemma {:induction false} WatchingReturnsTheRun(c: Contract, codec: Codec, events: seq<Event>)
    requires forall e | e in events :: Decodable(c, codec, e)
    ensures WatchSpec(codec, Written(c, events), 0) == Batch(events, |Written(c, events)|)
  {
    WrittenDecodes(c, codec, events);
    WrittenEndsLines(c, events);
  }

  // ----- What noise changes -----

  predicate SameKinds(a: seq<Event>, b: seq<Event>) {
    |a| == |b| && forall k | 0 <= k < |a| :: a[k].kind == b[k].kind
  }

  lemma VerdictsDifferIff(c: Contract, a: Stream, b: Stream, exit: Exit)
    requires SameSignal(a, b) && !b.unrecognizedStdout
    ensures
      var x, y := VerdictOn(a, exit), VerdictOn(b, exit);
      var off := && !a.normalizedAny && a.unrecognizedStdout && EndedWell(exit)
                 && a.observed !in {Some(UsageLimited), Some(Failure)};
      && (x.status != y.status <==> off)
      && (!off ==> x.kind == y.kind && SameKinds(Closed(c, a.events, x), Closed(c, b.events, y)))
  {
  }

  /** Lines the contract does not know change the verdict exactly when it knows no
      line at all, some of them came on standard output, and the process ended
      well: in a stream that speaks the contract, they change neither the status
      nor the kind of any event. */
  lemma {:induction false} NoiseChangesTheVerdictIff(c: Contract, lines: seq<OutputLine>, exit: Exit)
    ensures
      var noisy, clean := ConsumedAll(c, NEW_STREAM, lines), ConsumedAll(c, NEW_STREAM, Clean(c, lines));
      var a, b := VerdictOn(noisy, exit), VerdictOn(clean, exit);
      var only := Clean(c, lines) == [] && Noise(c, lines) && EndedWell(exit);
      && (a.status != b.status <==> only)
      && (!only ==> SameKinds(Closed(c, noisy.events, a), Closed(c, clean.events, b)))
  {
    var clean := Clean(c, lines);
    NoiseKeepsSignal(c, NEW_STREAM, lines);
    FlagsCount(c, NEW_STREAM, lines);
    FlagsCount(c, NEW_STREAM, clean);
    CleanIsClean(c, lines);
    VerdictsDifferIff(c, ConsumedAll(c, NEW_STREAM, lines), ConsumedAll(c, NEW_STREAM, clean), exit);
    assert clean == [] ==> ConsumedAll(c, NEW_STREAM, clean) == NEW_STREAM;
  }

  lemma {:induction false} CleanIsClean(c: Contract, lines: seq<OutputLine>)
    ensures !Noise(c, Clean(c, lines))
    ensures Clean(c, Clean(c, lines)) == Clean(c, lines)
  {
    if lines != [] {
      var front, last := lines[..|lines| - 1], lines[|lines| - 1];
      CleanIsClean(c, front);
      if Recognized(c, last) {
        var clean := Clean(c, front) + [last];
        assert clean[..|clean| - 1] == Clean(c, front);
        forall k | 0 <= k < |clean|
          ensures clean[k].source == Stdout && clean[k].text != "" ==> Recognized(c, clean[k])
        {
          assert k < |clean| - 1 ==> clean[k] == Clean(c, front)[k];
        }
      }
    }
  }
}
