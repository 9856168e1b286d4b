/** Reading a transcript in bounded rounds, each from the cursor the last one left,
    against reading it whole. */
module Rounds {
  import opened Prelude
  import opened Transcript

  // ----- Where turns and boundaries lie -----

  /** Index of the first turn from `i` on, or the number of entries. */
  function NextTurn(es: seq<Entry>, i: nat): (k: nat)
    requires i <= |es|
    ensures i <= k <= |es|
    ensures k < |es| ==> es[k].turn.Some?
    ensures forall j | i <= j < k :: !es[j].turn.Some?
    decreases |es| - i
  {
    if i == |es| || es[i].turn.Some? then i else NextTurn(es, i + 1)
  }

  /** How many compact boundaries lie in `es[from..to]`. */
  function Boundaries(es: seq<Entry>, from: nat, to: nat): nat
    requires from <= to <= |es|
    decreases |es| - from
  {
    if from == to then 0 else (if es[from].boundary then 1 else 0) + Boundaries(es, from + 1, to)
  }

  lemma {:induction false} TurnsSplit(es: seq<Entry>, a: nat, b: nat, c: nat)
    requires a <= b <= c <= |es|
    ensures Turns(es, a, c) == Turns(es, a, b) + Turns(es, b, c)
    decreases |es| - a
  {
    if a < b {
      TurnsSplit(es, a + 1, b, c);
    }
  }

  lemma {:induction false} NoTurnsIff(es: seq<Entry>, a: nat, b: nat)
    requires a <= b <= |es|
    ensures Turns(es, a, b) == [] <==> forall k | a <= k < b :: !es[k].turn.Some?
    decreases |es| - a
  {
    if a < b {
      NoTurnsIff(es, a + 1, b);
      assert es[a].turn.Some? ==> Turns(es, a, b) != [];
    }
  }

  lemma {:induction false} OneTurn(es: seq<Entry>, i: nat)
    requires i < |es| && es[i].turn.Some?
    ensures Turns(es, i, i + 1) == [es[i].turn.value]
  {
    assert Turns(es, i + 1, i + 1) == [];
  }

  // ----- When reading in rounds gets through -----

  /** The chunk cap leaves room to reach the next turn from line `s`. */
  predicate Room(es: seq<Entry>, s: nat, chunks: Option<nat>)
    requires s <= |es|
  {
    var next := NextTurn(es, s);
    next < |es| && chunks.Some? ==>
      var between := Boundaries(es, s, next + 1);
      between == 0 || between < chunks.value
  }

  function Resume(es: seq<Entry>, l: nat): (r: nat)
    requires l < |es|
    ensures r <= |es|
  {
    ResumeAfter(es, es[l].uuid, |es|)
  }

  predicate AllNamed(es: seq<Entry>) {
    forall l | 0 <= l < |es| && es[l].turn.Some? :: es[l].uuid != ""
  }

  /** From the turn on line `l` a next round goes on with the turn after it: no
      turn is skipped because the uuid comes again, and there is room. */
  predicate GoesOn(es: seq<Entry>, l: nat, chunks: Option<nat>)
    requires l < |es|
  {
    var r := Resume(es, l);
    (forall k | l < k < r :: !es[k].turn.Some?) && Room(es, r, chunks)
  }

  predicate ReadsThrough(es: seq<Entry>, chunks: Option<nat>) {
    && Room(es, 0, chunks)
    && forall l {:trigger GoesOn(es, l, chunks)} | 0 <= l < |es| && es[l].turn.Some? :: GoesOn(es, l, chunks)
  }

  /** Where a cursor makes a round start. */
  function StartOf(es: seq<Entry>, cursor: Option<string>): (s: nat)
    ensures s <= |es|
  {
    match cursor
    case None => 0
    case Some(uuid) => ResumeAfter(es, uuid, |es|)
  }

  /** No cursor yet, or one that names some entry. */
  predicate IsCursor(es: seq<Entry>, cursor: Option<string>) {
    cursor.Some? ==> StartOf(es, cursor) > 0
  }

  /** Rounds, each from the cursor the one before left, until one reads nothing: at
      most `n` that read something, or no answer. */
  function RoundsFrom(es: seq<Entry>, cursor: Option<string>, caps: Caps, n: nat): Option<seq<seq<Turn>>>
    decreases n
  {
    if !IsCursor(es, cursor) then None
    else
      var r := Scan(es, StartOf(es, cursor), NO_ROUND, caps);
      if r.turns == [] then Some([])
      else if n == 0 then None
      else
        match RoundsFrom(es, r.cursor, caps, n - 1)
        case None => None
        case Some(rest) => Some([r.turns] + rest)
  }

  function Concat(rounds: seq<seq<Turn>>): seq<Turn> {
    if rounds == [] then [] else rounds[0] + Concat(rounds[1..])
  }

  lemma {:induction false} ConcatOneMore(first: seq<Turn>, rest: seq<seq<Turn>>)
    ensures Concat([first] + rest) == first + Concat(rest)
  {
    assert ([first] + rest)[1..] == rest;
  }

  /** The rounds end, within as many as there are turns, and together they are the
      whole conversation. */
  predicate RoundsAreTheWhole(es: seq<Entry>, caps: Caps) {
    var whole := Turns(es, 0, |es|);
    var rounds := RoundsFrom(es, None, caps, |whole|);
    rounds.Some? && Concat(rounds.value) == whole
  }

  // ----- One round -----

  /** A round reads a stretch of turns and leaves the uuid of the last, if that has
      one; a round of one message that has none leaves no new cursor. */
  lemma ScanReads(es: seq<Entry>, i: nat, r: Round, caps: Caps) returns (e: nat)
    requires i <= |es|
    ensures i <= e <= |es|
    ensures
      var out := Scan(es, i, r, caps);
      && out.turns == r.turns + Turns(es, i, e)
      && (e == i ==> out.cursor == r.cursor)
      && (e > i ==> es[e - 1].turn.Some?)
      && (e > i && es[e - 1].uuid != "" ==> out.cursor == Some(es[e - 1].uuid))
      && (e > i && es[e - 1].uuid == "" && caps.messages <= 1 ==> out.cursor == r.cursor)
    decreases |es| - i
  {
    e := i;
    assert Turns(es, i, i) == [];
    if i < |es| {
      var chunks := if es[i].boundary then r.chunks + 1 else r.chunks;
      var stop := es[i].boundary && caps.chunks.Some? && chunks >= caps.chunks.value;
      if !stop {
        var turn := es[i].turn;
        if turn.None? {
          e := ScanReads(es, i + 1, r.(chunks := chunks), caps);
          e := if e == i + 1 then i else e;
          assert Turns(es, i + 1, i + 1) == [];
        } else {
          var next := Advanced(es[i], turn.value, r.(chunks := chunks));
          OneTurn(es, i);
          e := i + 1;
          if |next.turns| < caps.messages && next.chars < caps.chars {
            e := ScanReads(es, i + 1, next, caps);
            TurnsSplit(es, i, i + 1, e);
            assert r.turns + (Turns(es, i, i + 1) + Turns(es, i + 1, e)) == next.turns + Turns(es, i + 1, e);
          }
        }
      }
    }
  }

  /** It reads anything at all exactly when there is a turn and room to reach it. */
  lemma {:induction false} ScanReadsSomethingIff(es: seq<Entry>, i: nat, r: Round, caps: Caps)
    requires i <= |es|
    ensures
      var next := NextTurn(es, i);
      var out := Scan(es, i, r, caps);
      var reached := next < |es| &&
        (caps.chunks.None? || Boundaries(es, i, next + 1) == 0
         || r.chunks + Boundaries(es, i, next + 1) < caps.chunks.value);
      && |out.turns| >= |r.turns|
      && (|out.turns| > |r.turns| <==> reached)
    decreases |es| - i
  {
    if i < |es| {
      var chunks := if es[i].boundary then r.chunks + 1 else r.chunks;
      var next := NextTurn(es, i);
      assert next < |es| ==>
        Boundaries(es, i, next + 1) == (if es[i].boundary then 1 else 0) + Boundaries(es, i + 1, next + 1);
      var stop := es[i].boundary && caps.chunks.Some? && chunks >= caps.chunks.value;
      if !stop {
        var turn := es[i].turn;
        if turn.None? {
          ScanReadsSomethingIff(es, i + 1, r.(chunks := chunks), caps);
        } else {
          assert Boundaries(es, i + 1, i + 1) == 0;
          var grown := Advanced(es[i], turn.value, r.(chunks := chunks));
          if |grown.turns| < caps.messages && grown.chars < caps.chars {
            ScanReadsSomethingIff(es, i + 1, grown, caps);
          }
        }
      }
    }
  }

  lemma {:induction false} ScanReadsAtMostOne(es: seq<Entry>, i: nat, r: Round, caps: Caps)
    requires i <= |es| && caps.messages <= 1 && r.turns == []
    ensures |Scan(es, i, r, caps).turns| <= 1
    decreases |es| - i
  {
    if i < |es| {
      var chunks := if es[i].boundary then r.chunks + 1 else r.chunks;
      if es[i].turn.None? {
        ScanReadsAtMostOne(es, i + 1, r.(chunks := chunks), caps);
      }
    }
  }

  /** The next round starts after the last turn read. */
  lemma NextRoundStarts(es: seq<Entry>, e: nat)
    requires 0 < e <= |es| && es[e - 1].turn.Some? && es[e - 1].uuid != ""
    ensures Resume(es, e - 1) >= e
    ensures IsCursor(es, Some(es[e - 1].uuid))
  {
    assert Names(es[e - 1], es[e - 1].uuid);
  }

  /** A round is refused exactly when no line has its cursor's uuid; otherwise it
      reads turns in order from the line after the last that has it. */
  lemma {:induction false} RoundReadsPastItsCursor(es: seq<Entry>, uuid: string, caps: Caps)
    ensures
      var round := RoundOf(es, Some(uuid), caps, false);
      && (round.CursorNotFound? <==> forall k | 0 <= k < |es| :: !Names(es[k], uuid))
      && (round.Found? ==>
            exists s, e | 0 < s <= e <= |es| ::
              && Names(es[s - 1], uuid) && (forall k | s <= k < |es| :: !Names(es[k], uuid))
              && round.value.turns == Turns(es, s, e))
  {
    var s := ResumeAfter(es, uuid, |es|);
    if s > 0 {
      var e := ScanReads(es, s, NO_ROUND, caps);
      assert 0 < s <= e <= |es| && RoundOf(es, Some(uuid), caps, false).value.turns == Turns(es, s, e);
    }
  }

  // ----- Rounds that get through -----

  /** With room, a round reads nothing only where nothing is left. */
  lemma OneRound(es: seq<Entry>, s: nat, caps: Caps) returns (e: nat)
    requires s <= |es|
    ensures s <= e <= |es|
    ensures
      var r := Scan(es, s, NO_ROUND, caps);
      && Turns(es, s, |es|) == r.turns + Turns(es, e, |es|)
      && (r.turns != [] ==> e > s && es[e - 1].turn.Some?)
      && (r.turns != [] && es[e - 1].uuid != "" ==> r.cursor == Some(es[e - 1].uuid))
      && (r.turns != [] && caps.messages <= 1 && r.cursor.Some? ==> es[e - 1].uuid != "")
      && (r.turns == [] ==> Turns(es, s, |es|) == [] || !Room(es, s, caps.chunks))
      && (r.turns != [] ==> Room(es, s, caps.chunks))
  {
    e := ScanReads(es, s, NO_ROUND, caps);
    ScanReadsSomethingIff(es, s, NO_ROUND, caps);
    TurnsSplit(es, s, e, |es|);
    NoTurnsIff(es, s, |es|);
  }

  /** From the last turn read, going on leads to the turns that are left. */
  lemma NothingIsSkipped(es: seq<Entry>, e: nat, chunks: Option<nat>)
    requires AllNamed(es) && 0 < e <= |es| && es[e - 1].turn.Some? && GoesOn(es, e - 1, chunks)
    ensures
      var next := Resume(es, e - 1);
      next >= e && Turns(es, next, |es|) == Turns(es, e, |es|) && Room(es, next, chunks)
  {
    NextRoundStarts(es, e);
    var next := Resume(es, e - 1);
    TurnsSplit(es, e, next, |es|);
    NoTurnsIff(es, e, next);
  }

  lemma {:induction false} RoundsReadOn(es: seq<Entry>, cursor: Option<string>, caps: Caps, n: nat)
    requires AllNamed(es) && ReadsThrough(es, caps.chunks) && IsCursor(es, cursor)
    requires Room(es, StartOf(es, cursor), caps.chunks)
    requires n >= |Turns(es, StartOf(es, cursor), |es|)|
    ensures
      var rounds := RoundsFrom(es, cursor, caps, n);
      rounds.Some? && Concat(rounds.value) == Turns(es, StartOf(es, cursor), |es|)
    decreases n
  {
    var s := StartOf(es, cursor);
    var r := Scan(es, s, NO_ROUND, caps);
    var e := OneRound(es, s, caps);
    if r.turns != [] {
      NextRoundStarts(es, e);
      NothingIsSkipped(es, e, caps.chunks);
      RoundsReadOn(es, r.cursor, caps, n - 1);
      ConcatOneMore(r.turns, RoundsFrom(es, r.cursor, caps, n - 1).value);
    }
  }

  // ----- Rounds of one message show every obstacle -----

  /** Within `n` rounds one that reads something leaves no cursor. */
  predicate Loses(es: seq<Entry>, cursor: Option<string>, caps: Caps, n: nat)
    decreases n
  {
    var r := Scan(es, StartOf(es, cursor), NO_ROUND, caps);
    n > 0 && IsCursor(es, cursor) && r.turns != [] && (r.cursor.None? || Loses(es, r.cursor, caps, n - 1))
  }

  /** Rounds that lose the cursor and still end have ended from the start before. */
  lemma {:induction false} EndedBefore(es: seq<Entry>, cursor: Option<string>, caps: Caps, n: nat) returns (m: nat)
    requires Loses(es, cursor, caps, n) && RoundsFrom(es, cursor, caps, n).Some?
    ensures m < n && RoundsFrom(es, None, caps, m).Some?
    decreases n
  {
    var r := Scan(es, StartOf(es, cursor), NO_ROUND, caps);
    if r.cursor.None? {
      m := n - 1;
    } else {
      m := EndedBefore(es, r.cursor, caps, n - 1);
    }
  }

  lemma {:induction false} LosesWithin(es: seq<Entry>, cursor: Option<string>, caps: Caps, n: nat, m: nat)
    requires Loses(es, cursor, caps, n) && RoundsFrom(es, cursor, caps, m).Some?
    ensures Loses(es, cursor, caps, m)
    decreases n
  {
    var r := Scan(es, StartOf(es, cursor), NO_ROUND, caps);
    if r.cursor.Some? {
      LosesWithin(es, r.cursor, caps, n - 1, m - 1);
    }
  }

  /** So rounds that end never lose the cursor. */
  lemma {:induction false} RoundsThatEndKeepACursor(es: seq<Entry>, caps: Caps, n: nat)
    requires RoundsFrom(es, None, caps, n).Some?
    ensures !Loses(es, None, caps, n)
    decreases n
  {
    if Loses(es, None, caps, n) {
      var m := EndedBefore(es, None, caps, n);
      LosesWithin(es, None, caps, n, m);
      RoundsThatEndKeepACursor(es, caps, m);
    }
  }

  lemma {:induction false} RoundsReadNoMore(es: seq<Entry>, cursor: Option<string>, caps: Caps, n: nat)
    requires IsCursor(es, cursor) && RoundsFrom(es, cursor, caps, n).Some?
    requires caps.messages <= 1 && !Loses(es, cursor, caps, n)
    ensures |Concat(RoundsFrom(es, cursor, caps, n).value)| <= |Turns(es, StartOf(es, cursor), |es|)|
    decreases n
  {
    var s := StartOf(es, cursor);
    var r := Scan(es, s, NO_ROUND, caps);
    if r.turns != [] {
      var e := OneRound(es, s, caps);
      NextRoundStarts(es, e);
      TurnsSplit(es, e, Resume(es, e - 1), |es|);
      RoundsReadNoMore(es, r.cursor, caps, n - 1);
      var rest := RoundsFrom(es, r.cursor, caps, n - 1).value;
      ConcatOneMore(r.turns, rest);
    }
  }

  /** If what is read from the cursor that one turn left is all that followed the
      turn, nothing lies in between. */
  lemma NothingWasSkipped(es: seq<Entry>, e: nat, rest: seq<Turn>)
    requires 0 < e <= |es| && es[e - 1].turn.Some? && es[e - 1].uuid != ""
    requires rest == Turns(es, e, |es|) && |rest| <= |Turns(es, Resume(es, e - 1), |es|)|
    ensures
      var next := Resume(es, e - 1);
      next >= e && Turns(es, next, |es|) == rest && forall k | e <= k < next :: es[k].turn.None?
  {
    NextRoundStarts(es, e);
    var next := Resume(es, e - 1);
    TurnsSplit(es, e, next, |es|);
    NoTurnsIff(es, e, next);
  }

  /** A round of one message stops right after the first turn. */
  lemma {:induction false} RoundOfOne(es: seq<Entry>, s: nat, caps: Caps, e: nat)
    requires s < e <= |es| && caps.messages <= 1 && es[e - 1].turn.Some?
    requires Turns(es, s, |es|) == Scan(es, s, NO_ROUND, caps).turns + Turns(es, e, |es|)
    ensures forall k | s <= k < e - 1 :: es[k].turn.None?
  {
    ScanReadsAtMostOne(es, s, NO_ROUND, caps);
    TurnsSplit(es, s, e - 1, |es|);
    TurnsSplit(es, e - 1, e, |es|);
    OneTurn(es, e - 1);
    NoTurnsIff(es, s, e - 1);
  }

  predicate GoesOnFrom(es: seq<Entry>, s: nat, chunks: Option<nat>)
    requires s <= |es|
  {
    && Room(es, s, chunks)
    && (forall l | s <= l < |es| && es[l].turn.Some? :: es[l].uuid != "")
    && forall l {:trigger GoesOn(es, l, chunks)} | s <= l < |es| && es[l].turn.Some? :: GoesOn(es, l, chunks)
  }

  lemma GoesOnBefore(es: seq<Entry>, s: nat, e: nat, chunks: Option<nat>)
    requires s < e <= |es| && Room(es, s, chunks) && es[e - 1].uuid != ""
    requires forall k | s <= k < e - 1 :: es[k].turn.None?
    requires forall k | e <= k < Resume(es, e - 1) :: es[k].turn.None?
    requires Resume(es, e - 1) >= e && GoesOnFrom(es, Resume(es, e - 1), chunks)
    ensures GoesOnFrom(es, s, chunks)
  {
    assert GoesOn(es, e - 1, chunks);
    forall l | s <= l < |es| && es[l].turn.Some?
      ensures GoesOn(es, l, chunks) && es[l].uuid != ""
    {
      assert l == e - 1 || Resume(es, e - 1) <= l;
    }
  }

  /** Of rounds that are all that is left, those after the first are all that is
      left after it. */
  lemma RestOfRounds(es: seq<Entry>, cursor: Option<string>, caps: Caps, n: nat, e: nat)
    requires IsCursor(es, cursor) && RoundsFrom(es, cursor, caps, n).Some? && e <= |es|
    requires Concat(RoundsFrom(es, cursor, caps, n).value) == Turns(es, StartOf(es, cursor), |es|)
    requires
      var r := Scan(es, StartOf(es, cursor), NO_ROUND, caps);
      r.turns != [] && Turns(es, StartOf(es, cursor), |es|) == r.turns + Turns(es, e, |es|)
    ensures
      var r := Scan(es, StartOf(es, cursor), NO_ROUND, caps);
      n > 0 && RoundsFrom(es, r.cursor, caps, n - 1).Some?
      && Concat(RoundsFrom(es, r.cursor, caps, n - 1).value) == Turns(es, e, |es|)
  {
    var r := Scan(es, StartOf(es, cursor), NO_ROUND, caps);
    var rest := RoundsFrom(es, r.cursor, caps, n - 1).value;
    ConcatOneMore(r.turns, rest);
    assert Concat(rest) == (r.turns + Concat(rest))[|r.turns|..];
  }

  /** A first round of one message, of rounds that are all that is left: what it
      read, and that the rounds after it start right behind. */
  lemma FirstOfTheWhole(es: seq<Entry>, cursor: Option<string>, caps: Caps, n: nat) returns (e: nat)
    requires IsCursor(es, cursor) && caps.messages <= 1
    requires RoundsFrom(es, cursor, caps, n).Some? && !Loses(es, cursor, caps, n)
    requires Concat(RoundsFrom(es, cursor, caps, n).value) == Turns(es, StartOf(es, cursor), |es|)
    requires Scan(es, StartOf(es, cursor), NO_ROUND, caps).turns != []
    ensures
      var s, r := StartOf(es, cursor), Scan(es, StartOf(es, cursor), NO_ROUND, caps);
      && s < e <= |es| && es[e - 1].uuid != "" && Room(es, s, caps.chunks)
      && (forall k | s <= k < e - 1 :: es[k].turn.None?)
      && r.cursor == Some(es[e - 1].uuid) && IsCursor(es, r.cursor) && StartOf(es, r.cursor) >= e
      && (forall k | e <= k < StartOf(es, r.cursor) :: es[k].turn.None?)
      && n > 0 && RoundsFrom(es, r.cursor, caps, n - 1).Some? && !Loses(es, r.cursor, caps, n - 1)
      && Concat(RoundsFrom(es, r.cursor, caps, n - 1).value) == Turns(es, StartOf(es, r.cursor), |es|)
  {
    var r := Scan(es, StartOf(es, cursor), NO_ROUND, caps);
    e := OneRound(es, StartOf(es, cursor), caps);
    NextRoundStarts(es, e);
    RestOfRounds(es, cursor, caps, n, e);
    RoundsReadNoMore(es, r.cursor, caps, n - 1);
    NothingWasSkipped(es, e, Turns(es, e, |es|));
    RoundOfOne(es, StartOf(es, cursor), caps, e);
  }

  lemma {:induction false} WholeByOnesGoesOn(es: seq<Entry>, cursor: Option<string>, caps: Caps, n: nat)
    requires IsCursor(es, cursor) && caps.messages <= 1
    requires RoundsFrom(es, cursor, caps, n).Some? && !Loses(es, cursor, caps, n)
    requires Concat(RoundsFrom(es, cursor, caps, n).value) == Turns(es, StartOf(es, cursor), |es|)
    ensures GoesOnFrom(es, StartOf(es, cursor), caps.chunks)
    decreases n
  {
    var s := StartOf(es, cursor);
    var r := Scan(es, s, NO_ROUND, caps);
    if r.turns == [] {
      var e := OneRound(es, s, caps);
      RoundsOfNothing(es, cursor, caps, n);
      NothingLeftGoesOn(es, s, caps);
    } else {
      var e := FirstOfTheWhole(es, cursor, caps, n);
      WholeByOnesGoesOn(es, r.cursor, caps, n - 1);
      GoesOnBefore(es, s, e, caps.chunks);
    }
  }

  lemma {:induction false} RoundsOfNothing(es: seq<Entry>, cursor: Option<string>, caps: Caps, n: nat)
    requires IsCursor(es, cursor) && Scan(es, StartOf(es, cursor), NO_ROUND, caps).turns == []
    ensures RoundsFrom(es, cursor, caps, n) == Some([]) && Concat([]) == []
  {
  }

  lemma {:induction false} NothingLeftGoesOn(es: seq<Entry>, s: nat, caps: Caps)
    requires s <= |es| && Turns(es, s, |es|) == []
    ensures GoesOnFrom(es, s, caps.chunks)
  {
    NoTurnsIff(es, s, |es|);
  }

  /** Whatever the message and character caps: the rounds are the whole
      conversation, in order, in at most as many rounds as turns, exactly when
      every turn has a uuid, none of them comes again past a later turn, and
      between any place a round may start from and the next turn there are fewer
      boundaries than the chunk cap. */
  lemma RoundsAreTheWholeIff(es: seq<Entry>, chunks: Option<nat>)
    ensures
      var always := forall messages: nat, chars: nat :: RoundsAreTheWhole(es, Caps(messages, chars, chunks));
      always <==> AllNamed(es) && ReadsThrough(es, chunks)
  {
    var n := |Turns(es, 0, |es|)|;
    if AllNamed(es) && ReadsThrough(es, chunks) {
      forall messages: nat, chars: nat
        ensures RoundsAreTheWhole(es, Caps(messages, chars, chunks))
      {
        RoundsReadOn(es, None, Caps(messages, chars, chunks), n);
      }
    } else if RoundsAreTheWhole(es, Caps(1, 1, chunks)) {
      RoundsThatEndKeepACursor(es, Caps(1, 1, chunks), n);
      WholeByOnesGoesOn(es, None, Caps(1, 1, chunks), n);
    }
  }

  // ----- Tidy transcripts -----

  /** Every turn has a uuid of its own, and every compact boundary is a turn. */
  predicate Tidy(es: seq<Entry>) {
    && AllNamed(es)
    && (forall l, k | 0 <= l < k < |es| && es[l].turn.Some? :: !Names(es[k], es[l].uuid))
    && (forall k | 0 <= k < |es| && es[k].boundary :: es[k].turn.Some?)
  }

  lemma TidyGap(es: seq<Entry>, from: nat, to: nat)
    requires from <= to < |es| && forall k | from <= k < to :: !es[k].boundary
    ensures Boundaries(es, from, to + 1) <= 1
    decreases |es| - from
  {
    if from < to {
      TidyGap(es, from + 1, to);
    } else {
      assert Boundaries(es, to + 1, to + 1) == 0;
    }
  }

  /** A tidy transcript is read whole by rounds of any size that may hold two
      chunks or more. */
  lemma TidyTranscriptsReadThrough(es: seq<Entry>, caps: Caps)
    requires Tidy(es) && (caps.chunks.Some? ==> caps.chunks.value >= 2)
    ensures RoundsAreTheWhole(es, caps)
  {
    forall s: nat | s <= |es|
      ensures Room(es, s, caps.chunks)
    {
      var next := NextTurn(es, s);
      if next < |es| {
        TidyGap(es, s, next);
      }
    }
    forall l | 0 <= l < |es| && es[l].turn.Some?
      ensures GoesOn(es, l, caps.chunks)
    {
      assert Resume(es, l) <= l + 1;
    }
    RoundsAreTheWholeIff(es, caps.chunks);
    assert caps == Caps(caps.messages, caps.chars, caps.chunks);
  }

  /** With a cap of one chunk a boundary ahead of a turn is never passed. */
  lemma {:induction false} OneChunkStopsAtABoundary(es: seq<Entry>, messages: nat, chars: nat)
    requires |es| > 0 && es[0].boundary && es[0].turn.Some?
    ensures RoundsFrom(es, None, Caps(messages, chars, Some(1)), |Turns(es, 0, |es|)|) == Some([])
    ensures !RoundsAreTheWhole(es, Caps(messages, chars, Some(1)))
  {
  }
}
