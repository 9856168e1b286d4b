/** Session transcripts: what one line says, the whole conversation, and one
    bounded round of it. */
module Transcript {
  import opened Prelude
  import opened Text

  const COMPACT_BOUNDARY_MARKER := "This session is being continued from a previous conversation"

  datatype Block = TextBlock(text: string) | ToolUse(name: string) | OtherBlock

  datatype Content = Plain(text: string) | Blocks(blocks: seq<Block>) | OtherContent

  datatype MessageType = User | Assistant | OtherType

  /** One line of the file: a decoded object, or nothing to decode.  A missing
      uuid is the empty one. */
  datatype Line = Skipped | Object(msgType: MessageType, uuid: string, content: Content, time: string)

  datatype Speaker = UserTurn | AssistantTurn

  datatype Turn = Turn(speaker: Speaker, text: string, time: string)

  // ----- One line -----

  function Texts(blocks: seq<Block>): seq<string> {
    if blocks == [] then []
    else
      var front, last := Texts(blocks[..|blocks| - 1]), blocks[|blocks| - 1];
      if last.TextBlock? && Strip(last.text) != "" then front + [Strip(last.text)] else front
  }

  function ToolNames(blocks: seq<Block>): seq<string> {
    if blocks == [] then []
    else
      var front, last := ToolNames(blocks[..|blocks| - 1]), blocks[|blocks| - 1];
      if last.ToolUse? then front + [last.name] else front
  }

  /** `_parse_turn`. */
  function ParseTurn(line: Line): Option<Turn> {
    if line.Skipped? then None
    else
      match line.msgType
      case OtherType => None
      case User =>
        if !line.content.Plain? then None
        else
          var text := Strip(line.content.text);
          if text == "" || StartsWith(text, "<") || |text| <= 2 then None
          else Some(Turn(UserTurn, text, line.time))
      case Assistant =>
        if !line.content.Blocks? then None
        else
          var texts, names := Texts(line.content.blocks), ToolNames(line.content.blocks);
          if texts != [] then Some(Turn(AssistantTurn, Join(texts, "\n"), line.time))
          else if names != [] then
            Some(Turn(AssistantTurn, "[도구 호출: " + Join(names, ", ") + "]", line.time))
          else None
  }

  /** The line opens a compacted continuation. */
  predicate OpensContinuation(line: Line) {
    line.Object? && line.msgType == User && line.content.Plain?
    && Contains(Prefix(line.content.text, 200), COMPACT_BOUNDARY_MARKER)
  }

  /** A compact boundary is a turn unless its text opens with an angle bracket. */
  lemma BoundaryIsTurnIff(line: Line)
    requires OpensContinuation(line)
    ensures |Strip(line.content.text)| > 2
    ensures ParseTurn(line).Some? <==> Strip(line.content.text)[0] != '<'
  {
    var head := Prefix(line.content.text, 200);
    var i: nat :| i <= |head| && OccursAt(head, COMPACT_BOUNDARY_MARKER, i);
    var n := |COMPACT_BOUNDARY_MARKER|;
    var found := head[i..i + n];
    assert found[n - 3] == head[i + n - 3] && found[n - 1] == head[i + n - 1];
    assert COMPACT_BOUNDARY_MARKER[n - 1] == 'n' && COMPACT_BOUNDARY_MARKER[n - 3] == 'i';
    StripSpans(line.content.text, i + n - 3, i + n - 1);
  }

  lemma OccursInPrefix(text: string, part: string, n: nat, i: nat)
    ensures OccursAt(Prefix(text, n), part, i) <==> OccursAt(text, part, i) && i + |part| <= n
  {
    if i + |part| <= n && i + |part| <= |text| {
      assert Prefix(text, n)[i..i + |part|] == text[i..i + |part|];
    }
  }

  /** The whole marker stands within the first 200 characters. */
  predicate MarkedAt(text: string, i: nat) {
    OccursAt(text, COMPACT_BOUNDARY_MARKER, i) && i + |COMPACT_BOUNDARY_MARKER| <= 200
  }

  /** A compact boundary is a user's line that is marked early. */
  lemma BoundaryIsMarkedIff(line: Line)
    requires line.Object? && line.content.Plain?
    ensures OpensContinuation(line) <==>
              line.msgType == User && exists i: nat | i <= |line.content.text| :: MarkedAt(line.content.text, i)
  {
    var text, marker := line.content.text, COMPACT_BOUNDARY_MARKER;
    forall i: nat
      ensures OccursAt(Prefix(text, 200), marker, i) <==> MarkedAt(text, i)
    {
      OccursInPrefix(text, marker, 200, i);
    }
  }

  // ----- What a turn says -----

  const TOOLS := "[도구 호출: "

  lemma {:induction false} TextsJoin(a: seq<Block>, b: seq<Block>)
    ensures Texts(a + b) == Texts(a) + Texts(b) && ToolNames(a + b) == ToolNames(a) + ToolNames(b)
  {
    if b == [] {
      Nothing(a);
      Nothing(Texts(a));
      Nothing(ToolNames(a));
    } else {
      var front := b[..|b| - 1];
      TextsJoin(a, front);
      assert (a + b)[..|a + b| - 1] == a + front;
    }
  }

  predicate IsTool(turn: Turn, name: string) {
    turn.text == TOOLS + name + "]"
  }

  /** A turn is its speaker's, at the time of its line, and only an assistant's blocks
      say anything.  What one block says: a text itself, without surrounding space, if
      anything is left; a tool's use its name, in brackets; anything else nothing. */
  lemma OneBlockSays(line: Line, block: Block)
    requires line.Object? && line.content == Blocks([block])
    ensures line.msgType != Assistant ==> ParseTurn(line).None?
    ensures line.msgType == Assistant ==>
      match block
      case TextBlock(text) =>
        ParseTurn(line) == (if Strip(text) == "" then None else Some(Turn(AssistantTurn, Strip(text), line.time)))
      case ToolUse(name) => ParseTurn(line) == Some(Turn(AssistantTurn, TOOLS + name + "]", line.time))
      case OtherBlock => ParseTurn(line).None?
  {
    assert [block][..0] == [] && Texts([]) == [] && ToolNames([]) == [];
    assert Texts([block]) == if block.TextBlock? && Strip(block.text) != "" then [Strip(block.text)] else [];
    assert ToolNames([block]) == if block.ToolUse? then [block.name] else [];
  }

  /** An assistant's line cut in two, where each part says something: two texts are said
      one after the other, a text silences the tools, two uses of tools are one. */
  lemma {:induction false} BlocksSayInOrder(line: Line, a: seq<Block>, b: seq<Block>)
    requires line.Object? && line.msgType == Assistant && line.content == Blocks(a + b)
    ensures
      var first, second := ParseTurn(line.(content := Blocks(a))), ParseTurn(line.(content := Blocks(b)));
      var whole := ParseTurn(line);
      && (first.None? ==> whole == second) && (second.None? ==> whole == first)
      && (first.Some? && second.Some? ==>
            && whole.Some? && whole.value.speaker == AssistantTurn && whole.value.time == line.time
            && (Texts(a) != [] && Texts(b) != [] ==>
                  whole.value.text == first.value.text + "\n" + second.value.text)
            && (Texts(a) != [] && Texts(b) == [] ==> whole == first)
            && (Texts(a) == [] && Texts(b) != [] ==> whole == second)
            && (Texts(a) == [] && Texts(b) == [] ==>
                  var x, y := Join(ToolNames(a), ", "), Join(ToolNames(b), ", ");
                  IsTool(first.value, x) && IsTool(second.value, y) && IsTool(whole.value, x + ", " + y)))
  {
    TextsJoin(a, b);
    if Texts(a) != [] && Texts(b) != [] {
      JoinJoins(Texts(a), Texts(b), "\n");
    }
    if ToolNames(a) != [] && ToolNames(b) != [] {
      JoinJoins(ToolNames(a), ToolNames(b), ", ");
    }
    Nothing(Texts(a));
    Nothing(Texts(b));
    Nothing(ToolNames(a));
    Nothing(ToolNames(b));
  }

  /** Plain text is a turn only of a user's: the text between the surrounding space, from
      `text[i]` on, if that is longer than two characters and does not open with an
      angle bracket. */
  lemma UserSays(line: Line) returns (i: nat, j: nat)
    requires line.Object? && line.content.Plain?
    ensures IsMiddle(line.content.text, i, j)
    ensures
      var text := line.content.text;
      ParseTurn(line) ==
        if line.msgType == User && j - i > 2 && text[i] != '<' then Some(Turn(UserTurn, text[i..j], line.time))
        else None
  {
    i, j := StripCuts(line.content.text);
  }

  /** All that reading in rounds asks of a line: its turn, the uuid a cursor can
      name it by (empty when there is none), and whether it is a boundary. */
  datatype Entry = Entry(turn: Option<Turn>, uuid: string, boundary: bool)

  function EntryOf(line: Line): Entry {
    Entry(ParseTurn(line),
          if line.Object? && line.msgType != OtherType then line.uuid else "",
          OpensContinuation(line))
  }

  function Entries(lines: seq<Line>): (entries: seq<Entry>)
    ensures |entries| == |lines|
    ensures forall i | 0 <= i < |lines| :: entries[i] == EntryOf(lines[i])
  {
    seq(|lines|, i requires 0 <= i < |lines| => EntryOf(lines[i]))
  }

  predicate Names(entry: Entry, uuid: string) {
    entry.uuid == uuid && uuid != ""
  }

  /** The turns of `entries[from..to]`, in order. */
  function Turns(entries: seq<Entry>, from: nat, to: nat): seq<Turn>
    requires from <= to <= |entries|
    decreases |entries| - from
  {
    if from == to then []
    else
      match entries[from].turn
      case None => Turns(entries, from + 1, to)
      case Some(turn) => [turn] + Turns(entries, from + 1, to)
  }

  /** `extract_conversation`. */
  method ExtractConversation(lines: seq<Line>) returns (conversation: seq<Turn>)
    ensures conversation == Turns(Entries(lines), 0, |lines|)
  {
    ghost var entries := Entries(lines);
    conversation := [];
    for i := 0 to |lines|
      invariant conversation + Turns(entries, i, |lines|) == Turns(entries, 0, |lines|)
    {
      var turn := ParseTurn(lines[i]);
      assert entries[i].turn == turn;
      if turn.Some? {
        assert conversation + ([turn.value] + Turns(entries, i + 1, |lines|))
            == (conversation + [turn.value]) + Turns(entries, i + 1, |lines|);
        conversation := conversation + [turn.value];
      }
    }
  }

  /** One line more is its turn more, if it is one. */
  lemma {:induction false} OneLineMore(lines: seq<Line>, line: Line)
    ensures
      var turn := ParseTurn(line);
      Turns(Entries(lines + [line]), 0, |lines| + 1)
        == Turns(Entries(lines), 0, |lines|) + (if turn.Some? then [turn.value] else [])
  {
    TurnsGrow(Entries(lines), EntryOf(line), 0);
    assert Entries(lines + [line]) == Entries(lines) + [EntryOf(line)];
  }

  lemma {:induction false} TurnsGrow(entries: seq<Entry>, entry: Entry, from: nat)
    requires from <= |entries|
    ensures Turns(entries + [entry], from, |entries| + 1)
         == Turns(entries, from, |entries|) + (if entry.turn.Some? then [entry.turn.value] else [])
    decreases |entries| - from
  {
    if from < |entries| {
      TurnsGrow(entries, entry, from + 1);
    }
  }

  // ----- The window of a round -----

  /** Index after the last line before `n` that the cursor names, or 0. */
  function ResumeAfter(entries: seq<Entry>, uuid: string, n: nat): (r: nat)
    requires n <= |entries|
    ensures r <= n
    ensures r > 0 ==> Names(entries[r - 1], uuid)
    ensures forall k | r <= k < n :: !Names(entries[k], uuid)
  {
    if n == 0 then 0 else if Names(entries[n - 1], uuid) then n else ResumeAfter(entries, uuid, n - 1)
  }

  function BoundariesBefore(entries: seq<Entry>, n: nat): (boundaries: set<nat>)
    requires n <= |entries|
  {
    set k | 0 <= k < n && entries[k].boundary
  }

  datatype Window = Window(start: nat, total: nat, boundaries: set<nat>)

  datatype Outcome<T> = Found(value: T) | CursorNotFound

  function WindowOf(entries: seq<Entry>, cursor: Option<string>, allowReset: bool): Outcome<Window> {
    var boundaries := BoundariesBefore(entries, |entries|);
    match cursor
    case None => Found(Window(0, |entries|, boundaries))
    case Some(uuid) =>
      var resume := ResumeAfter(entries, uuid, |entries|);
      if resume == 0 && !allowReset then CursorNotFound else Found(Window(resume, |entries|, boundaries))
  }

  /** `compute_round_window`: one scan over the file as it is now. */
  method ComputeRoundWindow(lines: seq<Line>, cursor: Option<string>, allowReset: bool)
    returns (window: Outcome<Window>)
    ensures window == WindowOf(Entries(lines), cursor, allowReset)
  {
    var boundaries: set<nat> := {};
    var found: Option<nat> := None;
    for i := 0 to |lines|
      invariant boundaries == BoundariesBefore(Entries(lines), i)
      invariant cursor.Some? ==>
        ResumeAfter(Entries(lines), cursor.value, i) == if found.Some? then found.value + 1 else 0
    {
      if OpensContinuation(lines[i]) {
        boundaries := boundaries + {i};
      }
      if cursor.Some? && Names(EntryOf(lines[i]), cursor.value) {
        found := Some(i);
      }
    }
    if cursor.None? {
      return Found(Window(0, |lines|, boundaries));
    }
    if found.None? && !allowReset {
      return CursorNotFound;
    }
    return Found(Window(if found.Some? then found.value + 1 else 0, |lines|, boundaries));
  }

  // ----- One round -----

  datatype Caps = Caps(messages: nat, chars: nat, chunks: Option<nat>)

  datatype Hit = ByChunks | ByMessages | ByChars | EndOfWindow | NothingRead

  datatype Round = Round(turns: seq<Turn>, cursor: Option<string>, chars: nat, chunks: nat, hit: Hit)

  const NO_ROUND := Round([], None, 0, 0, NothingRead)

  function Advanced(entry: Entry, turn: Turn, r: Round): Round
  {
    r.(turns := r.turns + [turn],
       cursor := if entry.uuid != "" then Some(entry.uuid) else r.cursor,
       chars := r.chars + |turn.text|)
  }

  /** Reading one entry: the round so far, and whether it ends here. */
  function ReadEntry(entry: Entry, r: Round, caps: Caps): (Round, bool) {
    var chunks := if entry.boundary then r.chunks + 1 else r.chunks;
    if entry.boundary && caps.chunks.Some? && chunks >= caps.chunks.value then
      (r.(chunks := chunks, hit := ByChunks), true)
    else
      match entry.turn
      case None => (r.(chunks := chunks), false)
      case Some(turn) =>
        var next := Advanced(entry, turn, r.(chunks := chunks));
        if |next.turns| >= caps.messages then (next.(hit := ByMessages), true)
        else if next.chars >= caps.chars then (next.(hit := ByChars), true)
        else (next, false)
  }

  /** Reading on from entry `i`. */
  function Scan(entries: seq<Entry>, i: nat, r: Round, caps: Caps): Round
    requires i <= |entries|
    decreases |entries| - i
  {
    if i == |entries| then r.(hit := if r.turns != [] then EndOfWindow else NothingRead)
    else
      var (next, stop) := ReadEntry(entries[i], r, caps);
      if stop then next else Scan(entries, i + 1, next, caps)
  }

  function RoundOf(entries: seq<Entry>, cursor: Option<string>, caps: Caps, allowReset: bool): Outcome<Round> {
    match WindowOf(entries, cursor, allowReset)
    case CursorNotFound => CursorNotFound
    case Found(window) => Found(Scan(entries, window.start, NO_ROUND, caps))
  }

  /** The body of the reading loop. */
  method ReadLine(line: Line, boundary: bool, given: Round, caps: Caps) returns (r: Round, stop: bool)
    requires boundary == OpensContinuation(line)
    ensures (r, stop) == ReadEntry(EntryOf(line), given, caps)
  {
    r, stop := given, false;
    if boundary {
      r := r.(chunks := r.chunks + 1);
      if caps.chunks.Some? && r.chunks >= caps.chunks.value {
        return r.(hit := ByChunks), true;
      }
    }
    var turn := ParseTurn(line);
    if turn.Some? {
      r := Advanced(EntryOf(line), turn.value, r);
      if |r.turns| >= caps.messages {
        return r.(hit := ByMessages), true;
      }
      if r.chars >= caps.chars {
        return r.(hit := ByChars), true;
      }
    }
  }

  /** The reading loop: what was added after the window was taken is not looked at. */
  method ReadWindow(lines: seq<Line>, added: seq<Line>, window: Window, caps: Caps) returns (r: Round)
    requires window.total == |lines| && window.start <= |lines|
    requires window.boundaries == BoundariesBefore(Entries(lines), |lines|)
    ensures r == Scan(Entries(lines), window.start, NO_ROUND, caps)
  {
    var now := lines + added;
    ghost var entries := Entries(lines);
    r := NO_ROUND;
    var i := 0;
    while i < |now| && i < window.total
      invariant 0 <= i <= window.total
      invariant i <= window.start ==> r == NO_ROUND
      invariant Scan(entries, if i < window.start then window.start else i, r, caps)
                == Scan(entries, window.start, NO_ROUND, caps)
    {
      assert EntryOf(now[i]) == entries[i];
      if i >= window.start {
        var stop;
        r, stop := ReadLine(now[i], i in window.boundaries, r, caps);
        if stop {
          return;
        }
      }
      i := i + 1;
    }
    r := r.(hit := if r.turns != [] then EndOfWindow else NothingRead);
  }

  /** `extract_partial_conversation`.  The window is taken from `lines`; by the time
      the file is read it may have grown. */
  method ExtractPartialConversation(
      lines: seq<Line>, added: seq<Line>, cursor: Option<string>, caps: Caps, allowReset: bool)
    returns (outcome: Outcome<Round>)
    ensures outcome == RoundOf(Entries(lines), cursor, caps, allowReset)
  {
    var window := ComputeRoundWindow(lines, cursor, allowReset);
    if window.CursorNotFound? {
      return CursorNotFound;
    }
    var r := ReadWindow(lines, added, window.value, caps);
    return Found(r);
  }
}
