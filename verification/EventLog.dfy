/** The append-only event file of one run, read by byte offset. */
module EventLog {
  import opened Prelude

  newtype byte = b: int | 0 <= b < 256

  const NEWLINE: byte := 10

  datatype Kind =
    | StartedEvent | ProgressEvent | ToolEvent
    | CompletedEvent | FailedEvent | CancelledEvent | TimedOutEvent

  datatype Event = Event(kind: Kind, rawId: Option<string>, detail: Option<string>)

  /** How one line decodes: as a provider event (for `watch`), and as the bare
      kind of a JSON object (for `last_event`).  Both may fail. */
  datatype Codec = Codec(event: seq<byte> -> Option<Event>, kind: seq<byte> -> Option<Kind>)

  datatype Batch = Batch(events: seq<Event>, next: nat)

  predicate IsBlankByte(b: byte) {
    b == 32 || 9 <= b <= 13
  }

  predicate IsBlank(line: seq<byte>) {
    forall i | 0 <= i < |line| :: IsBlankByte(line[i])
  }

  /** Position of the first newline in `log[from..to]`, or `to` when there is none. */
  function FirstNewline(log: seq<byte>, from: nat, to: nat): (k: nat)
    requires from <= to <= |log|
    ensures from <= k <= to
    decreases |log| - from
  {
    if from == to || log[from] == NEWLINE then from else FirstNewline(log, from + 1, to)
  }

  /** End of the last newline within the first `n` bytes, or 0. */
  function LastNewlineEnd(log: seq<byte>, n: nat): (e: nat)
    requires n <= |log|
    ensures e <= n
    ensures OnBoundary(log, e)
  {
    if n == 0 || log[n - 1] == NEWLINE then n else LastNewlineEnd(log, n - 1)
  }

  /** A byte position no line straddles. */
  predicate OnBoundary(log: seq<byte>, n: nat) {
    n <= |log| && (n == 0 || log[n - 1] == NEWLINE)
  }

  /** The newline-terminated lines that lie in `log[from..to]`, in order and
      without their newlines; a trailing partial line is not one of them. */
  function Lines(log: seq<byte>, from: nat, to: nat): seq<seq<byte>>
    requires from <= to <= |log|
    decreases |log| - from
  {
    var k := FirstNewline(log, from, to);
    if k == to then [] else [log[from..k]] + Lines(log, k + 1, to)
  }

  function DecodeLine(codec: Codec, line: seq<byte>): seq<Event> {
    if IsBlank(line) then []
    else
      match codec.event(line)
      case Some(e) => [e]
      case None => []
  }

  function DecodeAll(codec: Codec, lines: seq<seq<byte>>): seq<Event> {
    if lines == [] then [] else DecodeLine(codec, lines[0]) + DecodeAll(codec, lines[1..])
  }

  /** All events recorded by the first `n` bytes of a file. */
  function EventsUpTo(codec: Codec, log: seq<byte>, n: nat): seq<Event>
    requires n <= |log|
  {
    DecodeAll(codec, Lines(log, 0, n))
  }

  /** What `watch` returns: the complete events after the offset, and where the
      next read resumes. */
  function WatchSpec(codec: Codec, log: seq<byte>, offset: nat): Batch {
    var boundary := LastNewlineEnd(log, |log|);
    if boundary <= offset then Batch([], offset)
    else Batch(DecodeAll(codec, Lines(log, offset, boundary)), boundary)
  }

  method Watch(codec: Codec, log: seq<byte>, offset: nat) returns (batch: Batch)
    ensures batch == WatchSpec(codec, log, offset)
  {
    var boundary := LastNewlineEnd(log, |log|);
    if boundary <= offset {
      return Batch([], offset);
    }
    var lines := Lines(log, offset, boundary);
    var events: seq<Event> := [];
    for i := 0 to |lines|
      invariant events == DecodeAll(codec, lines[..i])
    {
      if !IsBlank(lines[i]) {
        match codec.event(lines[i])
        case Some(e) => events := events + [e];
        case None =>
      }
      DecodeOneMore(codec, lines, i);
    }
    assert lines[..|lines|] == lines;
    return Batch(events, boundary);
  }

  // ----- Reading in pieces is reading once -----

  lemma {:induction false} DecodeAllConcat(codec: Codec, a: seq<seq<byte>>, b: seq<seq<byte>>)
    ensures DecodeAll(codec, a + b) == DecodeAll(codec, a) + DecodeAll(codec, b)
  {
    if a == [] {
      assert a + b == b;
    } else {
      assert (a + b)[0] == a[0] && (a + b)[1..] == a[1..] + b;
      DecodeAllConcat(codec, a[1..], b);
      var first, rest, last := DecodeLine(codec, a[0]), DecodeAll(codec, a[1..]), DecodeAll(codec, b);
      assert first + (rest + last) == (first + rest) + last;
    }
  }

  lemma {:induction false} DecodeOneMore(codec: Codec, lines: seq<seq<byte>>, i: nat)
    requires i < |lines|
    ensures DecodeAll(codec, lines[..i + 1]) == DecodeAll(codec, lines[..i]) + DecodeLine(codec, lines[i])
  {
    assert lines[..i + 1] == lines[..i] + [lines[i]];
    DecodeAllConcat(codec, lines[..i], [lines[i]]);
    assert DecodeAll(codec, [lines[i]]) == DecodeLine(codec, lines[i]) + DecodeAll(codec, []);
  }

  lemma {:induction false} FirstNewlineFinds(log: seq<byte>, from: nat, to: nat)
    requires from <= to <= |log|
    ensures
      var k := FirstNewline(log, from, to);
      && (forall i | from <= i < k :: log[i] != NEWLINE)
      && (k < to ==> log[k] == NEWLINE)
    decreases |log| - from
  {
    if from < to && log[from] != NEWLINE {
      FirstNewlineFinds(log, from + 1, to);
    }
  }

  lemma {:induction false} FirstNewlineIs(log: seq<byte>, from: nat, to: nat, k: nat)
    requires from <= k <= to <= |log| && (forall i | from <= i < k :: log[i] != NEWLINE)
    requires k < to ==> log[k] == NEWLINE
    ensures FirstNewline(log, from, to) == k
    decreases |log| - from
  {
    if from < k {
      FirstNewlineIs(log, from + 1, to, k);
    }
  }

  lemma {:induction false} LastNewlineEndFinds(log: seq<byte>, n: nat)
    requires n <= |log|
    ensures forall i | LastNewlineEnd(log, n) <= i < n :: log[i] != NEWLINE
  {
    if n > 0 && log[n - 1] != NEWLINE {
      LastNewlineEndFinds(log, n - 1);
    }
  }

  /** Splitting a stretch of the file at a line boundary splits its lines. */
  lemma {:induction false} LinesSplit(log: seq<byte>, a: nat, b: nat, c: nat)
    requires a <= b <= c <= |log| && (a < b ==> log[b - 1] == NEWLINE)
    ensures Lines(log, a, c) == Lines(log, a, b) + Lines(log, b, c)
    decreases |log| - a
  {
    if a < b {
      var k := FirstNewline(log, a, b);
      FirstNewlineFinds(log, a, b);
      FirstNewlineIs(log, a, c, k);
      LinesSplit(log, k + 1, b, c);
    } else {
      assert Lines(log, a, b) == [];
    }
  }

  lemma {:induction false} LinesOfGrown(log: seq<byte>, more: seq<byte>, a: nat, b: nat)
    requires a <= b <= |log|
    ensures Lines(log + more, a, b) == Lines(log, a, b)
    decreases |log| - a
  {
    var k := FirstNewline(log, a, b);
    FirstNewlineFinds(log, a, b);
    FirstNewlineIs(log + more, a, b, k);
    assert (log + more)[a..k] == log[a..k];
    if k < b {
      LinesOfGrown(log, more, k + 1, b);
    }
  }

  lemma {:induction false} LastNewlineEndGrows(log: seq<byte>, more: seq<byte>)
    ensures
      var before := LastNewlineEnd(log, |log|);
      var after := LastNewlineEnd(log + more, |log + more|);
      before <= after && (before < after ==> |log| < after)
  {
    var after := LastNewlineEnd(log + more, |log + more|);
    LastNewlineEndFinds(log + more, |log + more|);
    LastNewlineEndFinds(log, |log|);
    var before := LastNewlineEnd(log, |log|);
    assert before > 0 ==> (log + more)[before - 1] == log[before - 1];
    assert 0 < after <= |log| ==> (log + more)[after - 1] == log[after - 1];
  }

  /** Reading a file and then, after it has grown, reading on from the returned
      offset delivers exactly what one read of the grown file delivers. */
  lemma WatchComposesOverAppends(codec: Codec, log: seq<byte>, more: seq<byte>, offset: nat)
    ensures
      var first := WatchSpec(codec, log, offset);
      var second := WatchSpec(codec, log + more, first.next);
      WatchSpec(codec, log + more, offset) == Batch(first.events + second.events, second.next)
  {
    var before := LastNewlineEnd(log, |log|);
    var after := LastNewlineEnd(log + more, |log + more|);
    LastNewlineEndGrows(log, more);
    if offset < before {
      LinesOfGrown(log, more, offset, before);
      assert (log + more)[before - 1] == log[before - 1];
      LinesSplit(log + more, offset, before, after);
      DecodeAllConcat(codec, Lines(log + more, offset, before), Lines(log + more, before, after));
      assert Lines(log + more, after, after) == [];
    }
  }

  /** One drain keeps "what is stored is exactly what the file holds up to the
      offset", and never leaves the offset inside a line. */
  lemma DrainExtendsPrefix(codec: Codec, log: seq<byte>, offset: nat)
    requires OnBoundary(log, offset)
    ensures
      var batch := WatchSpec(codec, log, offset);
      && OnBoundary(log, batch.next)
      && offset <= batch.next
      && EventsUpTo(codec, log, batch.next) == EventsUpTo(codec, log, offset) + batch.events
  {
    var boundary := LastNewlineEnd(log, |log|);
    if offset < boundary {
      LinesSplit(log, 0, offset, boundary);
      DecodeAllConcat(codec, Lines(log, 0, offset), Lines(log, offset, boundary));
    }
  }

  /** Appending to the file does not change what an offset already covered. */
  lemma PrefixSurvivesAppend(codec: Codec, log: seq<byte>, more: seq<byte>, n: nat)
    requires OnBoundary(log, n)
    ensures OnBoundary(log + more, n) && n <= |log + more|
    ensures EventsUpTo(codec, log + more, n) == EventsUpTo(codec, log, n)
  {
    LinesOfGrown(log, more, 0, n);
  }

  /** A drain moves the offset exactly when a line was completed since. */
  lemma DrainMovesOnNewline(codec: Codec, log: seq<byte>, offset: nat)
    requires offset <= |log|
    ensures WatchSpec(codec, log, offset).next > offset <==> NEWLINE in log[offset..]
  {
    LastNewlineEndFinds(log, |log|);
    var e := LastNewlineEnd(log, |log|);
    assert offset < e ==> log[offset..][e - 1 - offset] == NEWLINE;
  }

  /** A process that dies between appending a batch and saving its offset makes
      the next drain append that batch again: the table is right afterwards
      exactly when the lost batch was empty. */
  lemma CrashedDrainRepeatsItsBatch(codec: Codec, log: seq<byte>, more: seq<byte>, offset: nat)
    requires OnBoundary(log, offset)
    ensures
      var lost := WatchSpec(codec, log, offset);
      var again := WatchSpec(codec, log + more, offset);
      var stored := EventsUpTo(codec, log, offset) + lost.events + again.events;
      stored == EventsUpTo(codec, log + more, again.next) <==> lost.events == []
  {
    var lost := WatchSpec(codec, log, offset);
    var again := WatchSpec(codec, log + more, offset);
    PrefixSurvivesAppend(codec, log, more, offset);
    DrainExtendsPrefix(codec, log + more, offset);
    var before := EventsUpTo(codec, log, offset);
    if lost.events == [] {
      assert before + [] == before;
    } else {
      assert |before + lost.events + again.events| > |before + again.events|;
    }
  }

  // ----- The last event of a file -----

  const TAIL_WINDOW := 65536

  /** The last line that is not blank. */
  function LastWritten(lines: seq<seq<byte>>): Option<seq<byte>> {
    if lines == [] then None
    else if IsBlank(lines[|lines| - 1]) then LastWritten(lines[..|lines| - 1])
    else Some(lines[|lines| - 1])
  }

  function TailStart(log: seq<byte>): nat {
    if |log| <= TAIL_WINDOW then 0 else |log| - TAIL_WINDOW
  }

  /** The kind of the final complete event, as `last_event` reads it from the
      tail of the file. */
  function LastKind(codec: Codec, log: seq<byte>): Option<Kind> {
    var start := TailStart(log);
    var boundary := LastNewlineEnd(log, |log|);
    if boundary <= start then None
    else
      match LastWritten(Lines(log, start, boundary))
      case None => None
      case Some(line) => codec.kind(line)
  }

  lemma {:induction false} FirstNewlineShifts(a: seq<byte>, log: seq<byte>, from: nat, to: nat)
    requires from <= to <= |log|
    ensures FirstNewline(a + log, |a| + from, |a| + to) == |a| + FirstNewline(log, from, to)
    decreases |log| - from
  {
    if from < to && log[from] != NEWLINE {
      FirstNewlineShifts(a, log, from + 1, to);
    }
  }

  lemma {:induction false} LinesShift(a: seq<byte>, log: seq<byte>, from: nat, to: nat)
    requires from <= to <= |log|
    ensures Lines(a + log, |a| + from, |a| + to) == Lines(log, from, to)
    decreases |log| - from
  {
    var k := FirstNewline(log, from, to);
    FirstNewlineShifts(a, log, from, to);
    if k < to {
      assert (a + log)[|a| + from..|a| + k] == log[from..k];
      LinesShift(a, log, k + 1, to);
    }
  }

  lemma {:induction false} LastWrittenIs(a: seq<seq<byte>>, line: seq<byte>, blanks: seq<seq<byte>>)
    requires !IsBlank(line) && forall l | l in blanks :: IsBlank(l)
    ensures LastWritten(a + [line] + blanks) == Some(line)
    decreases |blanks|
  {
    var lines := a + [line] + blanks;
    if blanks == [] {
      assert lines[|lines| - 1] == line;
    } else {
      var front, last := blanks[..|blanks| - 1], blanks[|blanks| - 1];
      assert last in blanks && lines[|lines| - 1] == last && lines[..|lines| - 1] == a + [line] + front;
      LastWrittenIs(a, line, front);
    }
  }

  /** The lines of a file up to its last newline are all its lines. */
  lemma {:induction false} CompleteLinesAreAll(log: seq<byte>)
    ensures Lines(log, 0, LastNewlineEnd(log, |log|)) == Lines(log, 0, |log|)
  {
    var e := LastNewlineEnd(log, |log|);
    LastNewlineEndFinds(log, |log|);
    LinesSplit(log, 0, e, |log|);
    FirstNewlineIs(log, e, |log|, |log|);
  }

  lemma {:induction false} LastNewlineEndShifts(a: seq<byte>, log: seq<byte>)
    requires OnBoundary(a, |a|)
    ensures LastNewlineEnd(a + log, |a + log|) == |a| + LastNewlineEnd(log, |log|)
  {
    var all := a + log;
    var e, n := LastNewlineEnd(all, |all|), |a| + LastNewlineEnd(log, |log|);
    LastNewlineEndFinds(all, |all|);
    LastNewlineEndFinds(log, |log|);
    assert 0 < n ==> all[n - 1] == NEWLINE by {
      assert n > |a| ==> all[n - 1] == log[n - 1 - |a|];
    }
    assert forall i | |a| <= i < |all| :: all[i] == log[i - |a|];
  }

  lemma {:induction false} OneWholeLine(log: seq<byte>, line: seq<byte>)
    requires OnBoundary(log, |log|) && NEWLINE !in line
    ensures
      var head := log + line + [NEWLINE];
      && Lines(head, |log|, |head|) == [line] && head[|head| - 1] == NEWLINE
      && (|log| > 0 ==> head[|log| - 1] == NEWLINE)
  {
    var head, m := log + line + [NEWLINE], |log| + |line|;
    assert forall i | |log| <= i < m :: head[i] == line[i - |log|];
    FirstNewlineIs(head, |log|, m + 1, m);
    assert head[|log|..m] == line && Lines(head, m + 1, m + 1) == [];
    assert |log| > 0 ==> head[|log| - 1] == log[|log| - 1];
  }

  lemma BoundaryStays(head: seq<byte>, rest: seq<byte>, n: nat)
    requires OnBoundary(head, n)
    ensures OnBoundary(head + rest, n)
  {
    assert n > 0 ==> (head + rest)[n - 1] == head[n - 1];
  }

  /** What follows a whole line does not move it. */
  lemma {:induction false} LinesAround(head: seq<byte>, n: nat, line: seq<byte>, rest: seq<byte>, start: nat)
    requires start <= n < |head| && OnBoundary(head, n) && OnBoundary(head, |head|) && Lines(head, n, |head|) == [line]
    ensures
      var e := LastNewlineEnd(head + rest, |head + rest|);
      e >= |head| && Lines(head + rest, start, e) == Lines(head + rest, start, n) + [line] + Lines(rest, 0, |rest|)
  {
    var all := head + rest;
    var last := LastNewlineEnd(rest, |rest|);
    var e := |head| + last;
    LastNewlineEndShifts(head, rest);
    BoundaryStays(head, rest, n);
    BoundaryStays(head, rest, |head|);
    assert Lines(all, start, e) == Lines(all, start, n) + Lines(all, n, e) by {
      LinesSplit(all, start, n, e);
    }
    assert Lines(all, n, e) == [line] + Lines(rest, 0, |rest|) by {
      LinesSplit(all, n, |head|, e);
      LinesOfGrown(head, rest, n, |head|);
      LinesShift(head, rest, 0, last);
      CompleteLinesAreAll(rest);
    }
    JoinThree(Lines(all, start, e), Lines(all, start, n), Lines(all, n, e), [line], Lines(rest, 0, |rest|));
  }

  lemma JoinThree<T>(all: seq<T>, a: seq<T>, bc: seq<T>, b: seq<T>, c: seq<T>)
    requires all == a + bc && bc == b + c
    ensures all == a + b + c
  {
  }

  /** `last_event` reads the last complete line that is not blank, whatever came before
      and however much of a line after it is incomplete, as long as it begins within the
      tail window. */
  lemma {:induction false} LastKindReadsTheNewestLine(codec: Codec, log: seq<byte>, line: seq<byte>, rest: seq<byte>)
    requires OnBoundary(log, |log|) && NEWLINE !in line && !IsBlank(line)
    requires |line| + 1 + |rest| <= TAIL_WINDOW && forall l | l in Lines(rest, 0, |rest|) :: IsBlank(l)
    ensures LastKind(codec, log + line + [NEWLINE] + rest) == codec.kind(line)
  {
    var head := log + line + [NEWLINE];
    assert |head| == |log| + |line| + 1;
    OneWholeLine(log, line);
    LastKindOf(codec, head, |log|, line, rest);
  }

  lemma {:induction false} LastKindFrom(codec: Codec, log: seq<byte>, lines: seq<seq<byte>>, line: seq<byte>)
    requires LastNewlineEnd(log, |log|) > TailStart(log)
    requires lines == Lines(log, TailStart(log), LastNewlineEnd(log, |log|)) && LastWritten(lines) == Some(line)
    ensures LastKind(codec, log) == codec.kind(line)
  {
  }

  lemma {:induction false} LastKindOf(codec: Codec, head: seq<byte>, n: nat, line: seq<byte>, rest: seq<byte>)
    requires n < |head| && OnBoundary(head, n) && OnBoundary(head, |head|) && Lines(head, n, |head|) == [line]
    requires |head| + |rest| - n <= TAIL_WINDOW
    requires !IsBlank(line) && forall l | l in Lines(rest, 0, |rest|) :: IsBlank(l)
    ensures LastKind(codec, head + rest) == codec.kind(line)
  {
    var all := head + rest;
    var start := TailStart(all);
    LinesAround(head, n, line, rest, start);
    var before, blanks := Lines(all, start, n), Lines(rest, 0, |rest|);
    LastWrittenIs(before, line, blanks);
    LastKindFrom(codec, all, before + [line] + blanks, line);
  }

  /** Of a line that does not fit, `last_event` sees only the end. */
  lemma LastKindReadsACutLine(codec: Codec, log: seq<byte>, line: seq<byte>)
    requires OnBoundary(log, |log|)
    requires NEWLINE !in line && |line| >= TAIL_WINDOW
    ensures
      var cut := line[|line| - (TAIL_WINDOW - 1)..];
      LastKind(codec, log + line + [NEWLINE]) == if IsBlank(cut) then None else codec.kind(cut)
  {
    var grown := log + line + [NEWLINE];
    var start := |grown| - TAIL_WINDOW;
    var cut := line[|line| - (TAIL_WINDOW - 1)..];
    assert grown[|grown| - 1] == NEWLINE;
    FirstNewlineIs(grown, start, |grown|, |grown| - 1) by {
      assert forall i | start <= i < |grown| - 1 :: grown[i] == line[i - |log|];
    }
    assert grown[start..|grown| - 1] == cut;
    assert Lines(grown, |grown|, |grown|) == [];
    assert Lines(grown, start, |grown|) == [cut];
    assert LastWritten([cut]) == if IsBlank(cut) then None else Some(cut) by {
      assert [cut][..0] == [];
    }
  }

  /** One more line that decodes adds its event. */
  lemma ALineMoreIsAnEventMore(codec: Codec, log: seq<byte>, line: seq<byte>)
    requires OnBoundary(log, |log|) && NEWLINE !in line
    ensures
      var grown := log + line + [NEWLINE];
      var event := codec.event(line);
      EventsUpTo(codec, grown, |grown|)
        == EventsUpTo(codec, log, |log|) + (if !IsBlank(line) && event.Some? then [event.value] else [])
  {
    var grown := log + line + [NEWLINE];
    var before := Lines(log, 0, |log|);
    assert grown == log + (line + [NEWLINE]);
    OneWholeLine(log, line);
    BoundaryStays(log, line + [NEWLINE], |log|);
    LinesOfGrown(log, line + [NEWLINE], 0, |log|);
    LinesSplit(grown, 0, |log|, |grown|);
    DecodeAllConcat(codec, before, [line]);
    DecodeOne(codec, line);
  }

  lemma {:induction false} DecodeOne(codec: Codec, line: seq<byte>)
    ensures DecodeAll(codec, [line]) == DecodeLine(codec, line)
  {
    assert [line][1..] == [];
  }
}
