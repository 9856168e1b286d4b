/** How far one round reads: to the first line at which a cap is reached, and what it
    says of itself. */
module RoundCaps {
  import opened Prelude
  import opened Transcript
  import opened Rounds

  // ----- What lies between two lines -----

  function TotalChars(turns: seq<Turn>): nat {
    if turns == [] then 0 else TotalChars(turns[..|turns| - 1]) + |turns[|turns| - 1].text|
  }

  /** The turns, their characters and the boundaries of `es[from..to]`. */
  function TurnsIn(es: seq<Entry>, from: nat, to: nat): nat
    requires from <= to <= |es|
  {
    |Turns(es, from, to)|
  }

  function CharsIn(es: seq<Entry>, from: nat, to: nat): nat
    requires from <= to <= |es|
  {
    TotalChars(Turns(es, from, to))
  }

  lemma {:induction false} BoundariesOneMore(es: seq<Entry>, from: nat, to: nat)
    requires from <= to < |es|
    ensures Boundaries(es, from, to + 1) == Boundaries(es, from, to) + (if es[to].boundary then 1 else 0)
    decreases |es| - from
  {
    if from < to {
      BoundariesOneMore(es, from + 1, to);
    } else {
      assert Boundaries(es, to + 1, to + 1) == 0;
    }
  }

  lemma TurnsOneMore(es: seq<Entry>, from: nat, to: nat)
    requires from <= to < |es|
    ensures Turns(es, from, to + 1)
         == Turns(es, from, to) + (if es[to].turn.Some? then [es[to].turn.value] else [])
    ensures CharsIn(es, from, to + 1)
         == CharsIn(es, from, to) + (if es[to].turn.Some? then |es[to].turn.value.text| else 0)
  {
    TurnsSplit(es, from, to, to + 1);
    assert Turns(es, to + 1, to + 1) == [];
    var before := Turns(es, from, to);
    if es[to].turn.Some? {
      OneTurn(es, to);
      assert (before + [es[to].turn.value])[..|before|] == before;
    } else {
      Nothing(before);
    }
  }

  // ----- Where a round stops -----

  /** Reading from line `s`, the cap is reached at line `k`. */
  predicate FullOfChunks(es: seq<Entry>, s: nat, k: nat, caps: Caps)
    requires s <= k < |es|
  {
    es[k].boundary && caps.chunks.Some? && Boundaries(es, s, k + 1) >= caps.chunks.value
  }

  predicate FullOfMessages(es: seq<Entry>, s: nat, k: nat, caps: Caps)
    requires s <= k < |es|
  {
    es[k].turn.Some? && TurnsIn(es, s, k + 1) >= caps.messages
  }

  predicate FullOfChars(es: seq<Entry>, s: nat, k: nat, caps: Caps)
    requires s <= k < |es|
  {
    es[k].turn.Some? && CharsIn(es, s, k + 1) >= caps.chars
  }

  predicate Full(es: seq<Entry>, s: nat, k: nat, caps: Caps)
    requires s <= k < |es|
  {
    FullOfChunks(es, s, k, caps) || FullOfMessages(es, s, k, caps) || FullOfChars(es, s, k, caps)
  }

  /** `p` is the first line at which a cap is reached, or the end. */
  predicate StopsAt(es: seq<Entry>, s: nat, p: nat, caps: Caps)
    requires s <= |es|
  {
    s <= p <= |es| && (forall k | s <= k < p :: !Full(es, s, k, caps)) && (p < |es| ==> Full(es, s, p, caps))
  }

  /** Where the lines read end: a boundary that fills the chunks is not read, a turn
      that fills a cap is. */
  function ReadUpTo(es: seq<Entry>, s: nat, p: nat, caps: Caps): (e: nat)
    requires s <= p <= |es|
    ensures e <= |es| && s <= e
  {
    if p < |es| && !FullOfChunks(es, s, p, caps) then p + 1 else p
  }

  /** The uuid of the last turn in `es[s..e]` that has one, or none. */
  predicate LastNamed(es: seq<Entry>, s: nat, e: nat, cursor: Option<string>)
    requires s <= e <= |es|
  {
    if cursor.None? then forall l | s <= l < e && es[l].turn.Some? :: es[l].uuid == ""
    else
      exists l | s <= l < e ::
        && es[l].turn.Some? && es[l].uuid != "" && cursor == Some(es[l].uuid)
        && forall k | l < k < e && es[k].turn.Some? :: es[k].uuid == ""
  }

  /** The cap that a round ran into; a cap of messages is looked at before one of
      characters, and the chunks before both. */
  function HitAt(es: seq<Entry>, s: nat, p: nat, caps: Caps): Hit
    requires s <= p <= |es|
  {
    if p == |es| then if Turns(es, s, p) != [] then EndOfWindow else NothingRead
    else if FullOfChunks(es, s, p, caps) then ByChunks
    else if FullOfMessages(es, s, p, caps) then ByMessages
    else ByChars
  }

  /** What has been read of `es[s..i]`. */
  predicate HasRead(es: seq<Entry>, s: nat, i: nat, r: Round)
    requires s <= i <= |es|
  {
    && r.turns == Turns(es, s, i) && r.chars == CharsIn(es, s, i) && r.chunks == Boundaries(es, s, i)
    && LastNamed(es, s, i, r.cursor)
  }

  /** The round from line `s` that stops at `p`. */
  predicate IsRound(es: seq<Entry>, s: nat, p: nat, caps: Caps, r: Round)
    requires s <= p <= |es|
  {
    var e := ReadUpTo(es, s, p, caps);
    && r.turns == Turns(es, s, e) && r.chars == CharsIn(es, s, e) && LastNamed(es, s, e, r.cursor)
    && r.chunks == Boundaries(es, s, if p < |es| then p + 1 else p) && r.hit == HitAt(es, s, p, caps)
  }

  lemma LastNamedOneMore(es: seq<Entry>, s: nat, i: nat, was: Option<string>, cursor: Option<string>)
    requires s <= i < |es| && LastNamed(es, s, i, was)
    requires cursor == if es[i].turn.Some? && es[i].uuid != "" then Some(es[i].uuid) else was
    ensures LastNamed(es, s, i + 1, cursor)
  {
    if es[i].turn.Some? && es[i].uuid != "" {
      assert cursor == Some(es[i].uuid);
    } else if was.Some? {
      var l :| s <= l < i && es[l].turn.Some? && es[l].uuid != "" && was == Some(es[l].uuid)
                && forall k | l < k < i && es[k].turn.Some? :: es[k].uuid == "";
      assert cursor == Some(es[l].uuid);
    }
  }

  /** The round once line `i` is read. */
  function Past(entry: Entry, r: Round): Round {
    var counted := r.(chunks := if entry.boundary then r.chunks + 1 else r.chunks);
    match entry.turn
    case None => counted
    case Some(turn) => Advanced(entry, turn, counted)
  }

  lemma PastIsRead(es: seq<Entry>, s: nat, i: nat, r: Round)
    requires s <= i < |es| && HasRead(es, s, i, r)
    ensures HasRead(es, s, i + 1, Past(es[i], r))
  {
    BoundariesOneMore(es, s, i);
    TurnsOneMore(es, s, i);
    LastNamedOneMore(es, s, i, r.cursor, Past(es[i], r).cursor);
    Nothing(Turns(es, s, i));
  }

  /** The chunks are full before the line is read, the other caps after. */
  lemma ReadingIs(entry: Entry, r: Round, caps: Caps)
    ensures
      var past := Past(entry, r);
      var chunks := entry.boundary && caps.chunks.Some? && past.chunks >= caps.chunks.value;
      var messages := entry.turn.Some? && |past.turns| >= caps.messages;
      var chars := entry.turn.Some? && past.chars >= caps.chars;
      ReadEntry(entry, r, caps) ==
        if chunks then (r.(chunks := past.chunks, hit := ByChunks), true)
        else if messages then (past.(hit := ByMessages), true)
        else if chars then (past.(hit := ByChars), true)
        else (past, false)
  {
  }

  lemma StoppingIsARound(es: seq<Entry>, s: nat, i: nat, r: Round, past: Round, caps: Caps)
    requires s <= i < |es| && HasRead(es, s, i, r) && HasRead(es, s, i + 1, past) && Full(es, s, i, caps)
    ensures FullOfChunks(es, s, i, caps) ==> IsRound(es, s, i, caps, r.(chunks := past.chunks, hit := ByChunks))
    ensures !FullOfChunks(es, s, i, caps) ==> IsRound(es, s, i, caps, past.(hit := HitAt(es, s, i, caps)))
  {
  }

  lemma EntryIsRead(es: seq<Entry>, s: nat, i: nat, r: Round, caps: Caps)
    requires s <= i < |es| && HasRead(es, s, i, r)
    ensures
      var (next, stop) := ReadEntry(es[i], r, caps);
      && (stop <==> Full(es, s, i, caps))
      && (!stop ==> HasRead(es, s, i + 1, next))
      && (stop ==> IsRound(es, s, i, caps, next))
  {
    PastIsRead(es, s, i, r);
    ReadingIs(es[i], r, caps);
    if Full(es, s, i, caps) {
      StoppingIsARound(es, s, i, r, Past(es[i], r), caps);
    }
  }

  lemma {:induction false} ScanIs(es: seq<Entry>, s: nat, i: nat, r: Round, caps: Caps) returns (p: nat)
    requires s <= i <= |es| && HasRead(es, s, i, r) && forall k | s <= k < i :: !Full(es, s, k, caps)
    ensures StopsAt(es, s, p, caps) && IsRound(es, s, p, caps, Scan(es, i, r, caps))
    decreases |es| - i
  {
    if i == |es| {
      p := i;
    } else {
      EntryIsRead(es, s, i, r, caps);
      var (next, stop) := ReadEntry(es[i], r, caps);
      if stop {
        p := i;
      } else {
        p := ScanIs(es, s, i + 1, next, caps);
      }
    }
  }

  /** A round reads from its first line to the first at which a cap is reached, or to
      the end; it counts what it read, names the cap, and leaves the last uuid. */
  lemma {:induction false} RoundIs(es: seq<Entry>, s: nat, caps: Caps) returns (p: nat)
    requires s <= |es|
    ensures StopsAt(es, s, p, caps) && IsRound(es, s, p, caps, Scan(es, s, NO_ROUND, caps))
  {
    assert Turns(es, s, s) == [] && Boundaries(es, s, s) == 0;
    p := ScanIs(es, s, s, NO_ROUND, caps);
  }

  // ----- So a round is bounded -----

  function AtLeastOne(n: nat): nat {
    if n == 0 then 1 else n
  }

  lemma {:induction false} LastTurnOf(es: seq<Entry>, s: nat, e: nat) returns (l: nat)
    requires s <= e <= |es| && Turns(es, s, e) != []
    ensures s <= l < e && es[l].turn.Some?
    ensures Turns(es, s, l + 1) == Turns(es, s, e) && Turns(es, s, l) == Turns(es, s, e)[..|Turns(es, s, e)| - 1]
    decreases e
  {
    assert s < e;
    l := e - 1;
    TurnsOneMore(es, s, l);
    if es[l].turn.None? {
      l := LastTurnOf(es, s, e - 1);
    }
  }

  /** Whatever the window and the caps: a round has at most `messages` turns, its turns
      but the last have fewer than `chars` characters together, and with neither cap
      nor the chunk cap reached it leaves nothing unread. */
  lemma {:induction false} RoundIsBounded(es: seq<Entry>, s: nat, caps: Caps)
    requires s <= |es|
    ensures
      var r := Scan(es, s, NO_ROUND, caps);
      var n := |r.turns|;
      && n <= AtLeastOne(caps.messages)
      && (n > 0 ==> TotalChars(r.turns[..n - 1]) < AtLeastOne(caps.chars))
      && (r.turns != Turns(es, s, |es|) ==> r.hit in {ByMessages, ByChars, ByChunks})
      && (r.hit == ByMessages ==> n >= caps.messages)
      && (r.hit == ByChars ==> r.chars >= caps.chars && n < caps.messages)
      && (r.hit == ByChunks ==> caps.chunks.Some? && r.chunks >= caps.chunks.value)
      && (r.hit == EndOfWindow ==> r.turns == Turns(es, s, |es|) != [])
      && (r.hit == NothingRead ==> r.turns == Turns(es, s, |es|) == [])
  {
    var p := RoundIs(es, s, caps);
    var e := ReadUpTo(es, s, p, caps);
    if Turns(es, s, e) != [] {
      var l := LastTurnOf(es, s, e);
      if TurnsIn(es, s, l) > 0 {
        var m := LastTurnOf(es, s, l);
        assert !Full(es, s, m, caps);
      }
    }
  }

  // ----- Where a round starts -----

  /** A cursor names the lines of a user's or an assistant's message by their uuid. */
  predicate IsNamed(line: Line, uuid: string) {
    line.Object? && line.msgType in {User, Assistant} && line.uuid == uuid && uuid != ""
  }

  predicate IsNamedIn(lines: seq<Line>, cursor: Option<string>, from: nat) {
    cursor.Some? && exists k | from <= k < |lines| :: IsNamed(lines[k], cursor.value)
  }

  /** Reading starts after the last line the cursor names, or from the beginning. */
  predicate StartsAt(lines: seq<Line>, cursor: Option<string>, s: nat) {
    && s <= |lines| && !IsNamedIn(lines, cursor, s)
    && (s > 0 ==> cursor.Some? && IsNamed(lines[s - 1], cursor.value))
  }

  /** A user's plain text with the whole boundary marker among its first characters. */
  ghost predicate IsBoundary(line: Line) {
    && line.Object? && line.msgType == User && line.content.Plain?
    && exists i: nat | i <= |line.content.text| :: MarkedAt(line.content.text, i)
  }

  /** The entry says of the line what reading in rounds asks of it. */
  ghost predicate StandsFor(entry: Entry, line: Line) {
    && entry.turn == ParseTurn(line) && (entry.boundary <==> IsBoundary(line))
    && forall uuid :: Names(entry, uuid) <==> IsNamed(line, uuid)
  }

  lemma EntryStands(lines: seq<Line>, k: nat)
    requires k < |lines|
    ensures StandsFor(Entries(lines)[k], lines[k])
  {
    if lines[k].Object? && lines[k].content.Plain? {
      BoundaryIsMarkedIff(lines[k]);
    }
  }

  /** A round is refused exactly when its cursor names no line and starting over is not
      allowed; otherwise it is the round read from where the cursor says, line for line. */
  lemma {:induction false} RoundStarts(lines: seq<Line>, cursor: Option<string>, caps: Caps, allowReset: bool)
    returns (s: nat, p: nat)
    ensures
      var round := RoundOf(Entries(lines), cursor, caps, allowReset);
      && (forall k | 0 <= k < |lines| :: StandsFor(Entries(lines)[k], lines[k]))
      && (round.CursorNotFound? <==> cursor.Some? && !allowReset && !IsNamedIn(lines, cursor, 0))
      && (round.Found? ==>
            && StartsAt(lines, cursor, s) && StopsAt(Entries(lines), s, p, caps)
            && IsRound(Entries(lines), s, p, caps, round.value))
  {
    var es := Entries(lines);
    s := if cursor.Some? then ResumeAfter(es, cursor.value, |es|) else 0;
    p := RoundIs(es, s, caps);
    forall k | 0 <= k < |lines| {
      EntryStands(lines, k);
    }
    assert cursor.Some? ==> forall k | 0 <= k < |es| :: Names(es[k], cursor.value) <==> IsNamed(lines[k], cursor.value);
  }
}
