/** Compacting a well-formed section: reverse splicing against compacting entry by
    entry, and what any sequence of marks keeps. */
module MetaGc {
  import opened Prelude
  import opened DreamMeta
  import opened MetaSection

  // ----- Entries -----

  predicate SealedItem(item: Item) {
    item.Entry? && StatusOf(item.subs) == "sealed"
  }

  predicate FullSealed(item: Item) {
    SealedItem(item) && item.subs != []
  }

  function SealedItems(items: seq<Item>): seq<Item> {
    if items == [] then []
    else (if SealedItem(items[0]) then [items[0]] else []) + SealedItems(items[1..])
  }

  function FullCount(items: seq<Item>): nat {
    if items == [] then 0 else (if FullSealed(items[0]) then 1 else 0) + FullCount(items[1..])
  }

  /** The first `n` full sealed entries cut down to their file line. */
  function CompactItems(items: seq<Item>, n: nat): seq<Item> {
    if items == [] || n == 0 then items
    else if FullSealed(items[0]) then [Entry(items[0].file, [])] + CompactItems(items[1..], n - 1)
    else [items[0]] + CompactItems(items[1..], n)
  }

  function GcItems(items: seq<Item>, threshold: nat, keep: nat): seq<Item>
    requires keep <= threshold
  {
    var total := |SealedItems(items)|;
    if total <= threshold then items else CompactItems(items, total - keep)
  }

  // ----- The spans of a section -----

  lemma StatusIs(rows: seq<Row>, j: nat, subs: seq<Row>)
    requires j + |subs| <= |rows| && forall k | 0 <= k < |subs| :: rows[j + k] == subs[k]
    ensures SubsStatus(rows, j, j + |subs|) == StatusOf(subs)
    decreases |subs|
  {
    if subs != [] {
      assert rows[j + |subs| - 1] == subs[|subs| - 1];
      StatusIs(rows, j, subs[..|subs| - 1]);
    }
  }

  function SpanOf(item: Item, at: nat): Span
    requires item.Entry?
  {
    Span(at, at + ItemSize(item), item.file, StatusOf(item.subs))
  }

  function OwnSpan(item: Item, at: nat): seq<Span> {
    if item.Entry? then [SpanOf(item, at)] else []
  }

  function Spans(items: seq<Item>, at: nat): seq<Span> {
    if items == [] then []
    else OwnSpan(items[0], at) + Spans(items[1..], at + ItemSize(items[0]))
  }

  /** The entry's rows, from line `at` on. */
  predicate EntryAt(rows: seq<Row>, at: nat, file: string, subs: seq<Row>) {
    && at + |subs| < |rows| && rows[at] == Row(FileLine(file), false)
    && forall k | 0 <= k < |subs| :: rows[at + 1 + k] == subs[k]
  }

  lemma CollectEntry(rows: seq<Row>, at: nat, file: string, subs: seq<Row>)
    requires EntryAt(rows, at, file, subs) && forall k | 0 <= k < |subs| :: IsSub(subs[k])
    requires at + 1 + |subs| < |rows| ==> !IsSub(rows[at + 1 + |subs|])
    ensures
      var end := at + 1 + |subs|;
      Collect(rows, at, true) == [Span(at, end, file, StatusOf(subs))] + Collect(rows, end, true)
  {
    var end := at + 1 + |subs|;
    forall k | at + 1 <= k < end
      ensures IsSub(rows[k])
    {
      assert rows[at + 1 + (k - at - 1)] == subs[k - at - 1];
    }
    SubsEndAtItem(rows, at + 1, end);
    StatusIs(rows, at + 1, subs);
  }

  lemma CollectGap(rows: seq<Row>, at: nat, item: Item)
    requires item.Gap? && ItemOk(item) && at < |rows| && rows[at] == item.row
    ensures Collect(rows, at, true) == OwnSpan(item, at) + Collect(rows, at + ItemSize(item), true)
  {
    Nothing(Collect(rows, at + 1, true));
  }

  /** The item's rows, from line `at` on, and what comes next. */
  predicate ItemAt(rows: seq<Row>, at: nat, item: Item) {
    && at + ItemSize(item) <= |rows|
    && match item
       case Gap(row) => rows[at] == row
       case Entry(file, subs) =>
         EntryAt(rows, at, file, subs) && (at + 1 + |subs| < |rows| ==> !IsSub(rows[at + 1 + |subs|]))
  }

  lemma StandsAt<T>(all: seq<T>, at: nat, first: seq<T>, rest: seq<T>)
    requires at <= |all| && all[at..] == first + rest
    ensures |all| == at + |first| + |rest| && all[at + |first|..] == rest
    ensures forall k | 0 <= k < |first| :: all[at + k] == first[k]
    ensures rest != [] ==> all[at + |first|] == rest[0]
  {
    assert forall k | 0 <= k < |first| :: all[at..][k] == first[k];
    assert rest != [] ==> all[at..][|first|] == rest[0];
    DropTwice(all, at, |first|);
  }

  lemma ItemStandsAt(rows: seq<Row>, at: nat, item: Item, rest: seq<Row>)
    requires StartsNoSub(rest) && at <= |rows| && rows[at..] == ItemRows(item) + rest
    ensures ItemAt(rows, at, item) && rows[at + ItemSize(item)..] == rest
  {
    var own := ItemRows(item);
    StandsAt(rows, at, own, rest);
    match item
    case Gap(row) => assert rows[at + 0] == own[0];
    case Entry(_, subs) =>
      assert rows[at + 0] == own[0];
      forall k | 0 <= k < |subs|
        ensures rows[at + 1 + k] == subs[k]
      {
        assert rows[at + (1 + k)] == own[1 + k];
      }
  }

  lemma CollectItem(rows: seq<Row>, at: nat, item: Item)
    requires ItemOk(item) && ItemAt(rows, at, item)
    ensures Collect(rows, at, true) == OwnSpan(item, at) + Collect(rows, at + ItemSize(item), true)
  {
    match item
    case Gap(_) => CollectGap(rows, at, item);
    case Entry(file, subs) => CollectEntry(rows, at, file, subs);
  }

  /** The items stand one after another from line `at` on, and the section ends after them. */
  predicate Laid(rows: seq<Row>, at: nat, items: seq<Item>)
    decreases |items|
  {
    if items == [] then at <= |rows| && (at < |rows| ==> Leaves(rows[at]) && !rows[at].body.SectionHeader?)
    else ItemAt(rows, at, items[0]) && Laid(rows, at + ItemSize(items[0]), items[1..])
  }

  lemma {:induction false} LaidOut(rows: seq<Row>, at: nat, items: seq<Item>, z: seq<Row>)
    requires ItemsOk(items) && StartsAnother(z) && NoHeader(z)
    requires at <= |rows| && rows[at..] == Render(items) + z
    ensures Laid(rows, at, items)
    decreases |items|
  {
    if items == [] {
      StandsAt(rows, at, [], z);
    } else {
      Regroup(ItemRows(items[0]), Render(items[1..]), z);
      ItemsStartNoSub(items[1..], z);
      ItemStandsAt(rows, at, items[0], Render(items[1..]) + z);
      LaidOut(rows, at + ItemSize(items[0]), items[1..], z);
    }
  }

  lemma {:induction false} CollectLaid(rows: seq<Row>, at: nat, items: seq<Item>)
    requires ItemsOk(items) && Laid(rows, at, items)
    ensures at <= |rows| && Collect(rows, at, true) == Spans(items, at)
    decreases |items|
  {
    if items != [] {
      CollectItem(rows, at, items[0]);
      CollectLaid(rows, at + ItemSize(items[0]), items[1..]);
    }
  }

  lemma {:induction false} CollectIsSpans(a: seq<Row>, items: seq<Item>, z: seq<Row>, rows: seq<Row>)
    requires ItemsOk(items) && StartsAnother(z) && NoHeader(z) && rows == a + Render(items) + z
    ensures Collect(rows, |a|, true) == Spans(items, |a|)
  {
    assert rows[|a|..] == Render(items) + z;
    LaidOut(rows, |a|, items, z);
    CollectLaid(rows, |a|, items);
  }

  lemma {:induction false} CollectStarts(rows: seq<Row>, i: nat, header: nat)
    requires i <= header < |rows| && rows[header].body.SectionHeader?
    requires forall k | i <= k < header :: !rows[k].body.SectionHeader?
    ensures Collect(rows, i, false) == Collect(rows, header + 1, true)
    decreases |rows| - i
  {
    if i < header {
      CollectStarts(rows, i + 1, header);
    }
  }

  lemma {:induction false} SealedSpans(items: seq<Item>, at: nat)
    ensures |Sealed(Spans(items, at))| == |SealedItems(items)|
    decreases |items|
  {
    if items != [] {
      var next := at + ItemSize(items[0]);
      SealedSpans(items[1..], next);
      if items[0].Entry? {
        assert ([SpanOf(items[0], at)] + Spans(items[1..], next))[1..] == Spans(items[1..], next);
      } else {
        assert Spans(items, at) == Spans(items[1..], next);
      }
    }
  }

  // ----- Reverse splicing -----

  /** Splicing from the last to the first: the first one comes at the end. */
  lemma {:induction false} FirstSpanComesLast(rows: seq<Row>, span: Span, spans: seq<Span>)
    requires Apart([span] + spans, |rows|)
    ensures Apart(spans, |rows|)
    ensures
      var later := Compacted(rows, spans);
      && span.start < span.end <= |later|
      && Compacted(rows, [span] + spans) == Splice(later, span.start, span.end, [Row(FileLine(span.file), false)])
    decreases |spans|
  {
    var all := [span] + spans;
    if spans == [] {
      assert all[..0] == [] && all[0] == span;
    } else {
      var last := spans[|spans| - 1];
      var next := Splice(rows, last.start, last.end, [Row(FileLine(last.file), false)]);
      assert all[|all| - 1] == last && all[..|all| - 1] == [span] + spans[..|spans| - 1];
      ApartMore([span] + spans[..|spans| - 1], last.start, |next|);
      FirstSpanComesLast(next, span, spans[..|spans| - 1]);
      assert Compacted(rows, all) == Compacted(next, [span] + spans[..|spans| - 1]);
      ApartShrinks(span, spans[..|spans| - 1], last.start);
    }
  }

  lemma {:induction false} ApartShrinks(span: Span, spans: seq<Span>, n: nat)
    requires Apart([span] + spans, n)
    ensures Apart(spans, n)
    decreases |spans|
  {
    if spans != [] {
      var all := [span] + spans;
      assert all[|all| - 1] == spans[|spans| - 1] && all[..|all| - 1] == [span] + spans[..|spans| - 1];
      ApartShrinks(span, spans[..|spans| - 1], spans[|spans| - 1].start);
    }
  }

  lemma SpliceMiddle(a: seq<Row>, first: seq<Row>, rest: seq<Row>, middle: seq<Row>)
    ensures Splice(a + first + rest, |a|, |a + first|, middle) == a + middle + rest
  {
  }

  /** A stretch of rows that is kept, or cut down to one file line. */
  datatype Piece = Keep(rows: seq<Row>) | Cut(rows: seq<Row>, file: string)

  function Old(pieces: seq<Piece>): seq<Row> {
    if pieces == [] then [] else pieces[0].rows + Old(pieces[1..])
  }

  function Short(piece: Piece): seq<Row> {
    if piece.Keep? then piece.rows else [Row(FileLine(piece.file), false)]
  }

  function New(pieces: seq<Piece>): seq<Row> {
    if pieces == [] then [] else Short(pieces[0]) + New(pieces[1..])
  }

  function Cuts(pieces: seq<Piece>, at: nat): seq<Span> {
    if pieces == [] then []
    else
      var later := Cuts(pieces[1..], at + |pieces[0].rows|);
      if pieces[0].Keep? then later else [Span(at, at + |pieces[0].rows|, pieces[0].file, "sealed")] + later
  }

  lemma {:induction false} CutFirst(
      a: seq<Row>, first: seq<Row>, rest: seq<Row>, rows: seq<Row>, span: Span, later: seq<Span>)
    requires Apart([span] + later, |rows|) && span.start == |a| && span.end == |a + first|
    requires Apart(later, |rows|) && Compacted(rows, later) == a + first + rest
    ensures Compacted(rows, [span] + later) == a + [Row(FileLine(span.file), false)] + rest
  {
    FirstSpanComesLast(rows, span, later);
    SpliceMiddle(a, first, rest, [Row(FileLine(span.file), false)]);
  }

  lemma RegroupPiece(a: seq<Row>, first: seq<Row>, rest: seq<Row>, z: seq<Row>)
    ensures a + (first + rest) + z == (a + first) + rest + z
    ensures a + (first + rest) + z == a + first + (rest + z)
  {
  }

  /** Cutting pieces down from the last to the first, by line numbers taken before
      the first cut, is cutting them down one by one. */
  lemma {:induction false} ReverseSplicing(a: seq<Row>, at: nat, pieces: seq<Piece>, z: seq<Row>, rows: seq<Row>)
    requires at == |a| && rows == a + Old(pieces) + z && Apart(Cuts(pieces, at), |rows|)
    ensures Compacted(rows, Cuts(pieces, at)) == a + New(pieces) + z
    decreases |pieces|
  {
    if pieces != [] {
      var first, rest := pieces[0], pieces[1..];
      var later := Cuts(rest, at + |first.rows|);
      RegroupPiece(a, first.rows, Old(rest), z);
      RegroupPiece(a, Short(first), New(rest), z);
      RegroupPiece(a, first.rows, New(rest), z);
      if first.Keep? {
        ReverseSplicing(a + first.rows, at + |first.rows|, rest, z, rows);
      } else {
        var span := Span(at, at + |first.rows|, first.file, "sealed");
        ApartShrinks(span, later, |rows|);
        ReverseSplicing(a + first.rows, at + |first.rows|, rest, z, rows);
        CutFirst(a, first.rows, New(rest) + z, rows, span, later);
      }
    }
  }

  /** The items, with the first `n` full sealed ones to be cut. */
  function Pieces(items: seq<Item>, n: nat): seq<Piece> {
    if items == [] then []
    else if FullSealed(items[0]) && n > 0 then
      [Cut(ItemRows(items[0]), items[0].file)] + Pieces(items[1..], n - 1)
    else [Keep(ItemRows(items[0]))] + Pieces(items[1..], n)
  }

  lemma {:induction false} PiecesRender(items: seq<Item>, n: nat)
    ensures Old(Pieces(items, n)) == Render(items)
    decreases |items|
  {
    if items != [] {
      PiecesRender(items[1..], if FullSealed(items[0]) && n > 0 then n - 1 else n);
    }
  }

  lemma {:induction false} NoMorePieces(items: seq<Item>)
    ensures New(Pieces(items, 0)) == Render(items)
  {
    if items != [] {
      NoMorePieces(items[1..]);
    }
  }

  lemma {:induction false} PiecesCompact(items: seq<Item>, n: nat)
    ensures New(Pieces(items, n)) == Render(CompactItems(items, n))
    decreases |items|
  {
    if n == 0 {
      NoMorePieces(items);
    } else if items != [] {
      var full := FullSealed(items[0]);
      var head := if full then Entry(items[0].file, []) else items[0];
      var m := if full then n - 1 else n;
      PiecesCompact(items[1..], m);
      RenderOneMore(head, CompactItems(items[1..], m));
    }
  }

  lemma {:induction false} NoMoreCuts(items: seq<Item>, at: nat)
    ensures Cuts(Pieces(items, 0), at) == []
  {
    if items != [] {
      NoMoreCuts(items[1..], at + ItemSize(items[0]));
    }
  }

  lemma FirstFullOnward(item: Item, at: nat, n: nat, later: seq<Span>)
    requires n > 0
    ensures FirstFull(OwnSpan(item, at) + later, n) ==
            if FullSealed(item) then [SpanOf(item, at)] + FirstFull(later, n - 1) else FirstFull(later, n)
  {
    if item.Entry? {
      assert ([SpanOf(item, at)] + later)[1..] == later;
    } else {
      assert OwnSpan(item, at) + later == later;
    }
  }

  lemma {:induction false} CutsOnward(piece: Piece, later: seq<Piece>, at: nat)
    ensures Cuts([piece] + later, at) ==
            (if piece.Keep? then [] else [Span(at, at + |piece.rows|, piece.file, "sealed")])
            + Cuts(later, at + |piece.rows|)
  {
    assert ([piece] + later)[1..] == later;
  }

  /** The piece of one item. */
  function PieceOf(item: Item, cut: bool): Piece
    requires cut ==> item.Entry?
  {
    if cut then Cut(ItemRows(item), item.file) else Keep(ItemRows(item))
  }

  lemma PiecesOnward(items: seq<Item>, n: nat)
    requires items != [] && n > 0
    ensures
      var full := FullSealed(items[0]);
      Pieces(items, n) == [PieceOf(items[0], full)] + Pieces(items[1..], if full then n - 1 else n)
  {
  }

  lemma SealedSpan(item: Item, at: nat)
    requires FullSealed(item)
    ensures SpanOf(item, at) == Span(at, at + |ItemRows(item)|, item.file, "sealed")
  {
  }

  lemma {:induction false} PiecesCut(items: seq<Item>, n: nat, at: nat)
    ensures Cuts(Pieces(items, n), at) == FirstFull(Spans(items, at), n)
    decreases |items|
  {
    if n == 0 {
      NoMoreCuts(items, at);
    } else if items != [] {
      var full, next := FullSealed(items[0]), at + ItemSize(items[0]);
      var m := if full then n - 1 else n;
      PiecesCut(items[1..], m, next);
      PiecesOnward(items, n);
      CutsOnward(PieceOf(items[0], full), Pieces(items[1..], m), at);
      FirstFullOnward(items[0], at, n, Spans(items[1..], next));
      if full {
        SealedSpan(items[0], at);
      }
    }
  }

  lemma {:induction false} CompactedSection(
      a: seq<Row>, items: seq<Item>, z: seq<Row>, rows: seq<Row>, n: nat)
    requires rows == a + Render(items) + z && Apart(FirstFull(Spans(items, |a|), n), |rows|)
    ensures Compacted(rows, FirstFull(Spans(items, |a|), n)) == a + Render(CompactItems(items, n)) + z
  {
    PiecesRender(items, n);
    PiecesCut(items, n, |a|);
    PiecesCompact(items, n);
    ReverseSplicing(a, |a|, Pieces(items, n), z, rows);
  }

  /** Compacting the file changes its items as `GcItems` says, and nothing around them. */
  lemma GcChangesItems(m: Meta, threshold: nat, keep: nat)
    requires MetaOk(m) && keep <= threshold
    ensures GcRows(FileRows(m), threshold, keep) == FileRows(m.(items := GcItems(m.items, threshold, keep)))
  {
    var a, rows := m.before + [m.header], FileRows(m);
    var total := |SealedItems(m.items)|;
    FileSpans(m);
    if total > threshold {
      SpansApart(rows, total - keep);
      CompactedSection(a, m.items, m.after, rows, total - keep);
    }
  }

  lemma FileSpans(m: Meta)
    requires MetaOk(m)
    ensures Collect(FileRows(m), 0, false) == Spans(m.items, |m.before| + 1)
    ensures |Sealed(Collect(FileRows(m), 0, false))| == |SealedItems(m.items)|
  {
    var a := m.before + [m.header];
    SectionIs(m);
    CollectStarts(FileRows(m), 0, |m.before|);
    CollectIsSpans(a, m.items, m.after, FileRows(m));
    SealedSpans(m.items, |a|);
  }

  // ----- What compacting keeps -----

  /** The same files with the same status; at most the uuid of sealed ones is gone. */
  predicate OnlyBlanks(t: map<string, Info>, t': map<string, Info>) {
    && t.Keys == t'.Keys
    && forall f | f in t :: t'[f] == t[f] || (t[f].status == "sealed" && t'[f] == Info("", "sealed"))
  }

  lemma {:induction false} CompactingKeeps(items: seq<Item>, n: nat)
    requires ItemsOk(items)
    ensures
      var after := CompactItems(items, n);
      && ItemsOk(after) && Names(after) == Names(items) && (NamesOnce(items) ==> NamesOnce(after))
      && OnlyBlanks(Table(items), Table(after))
      && |SealedItems(after)| == |SealedItems(items)|
      && FullCount(after) == if FullCount(items) <= n then 0 else FullCount(items) - n
    decreases |items|
  {
    if items != [] && n > 0 {
      var full := FullSealed(items[0]);
      var head := if full then Entry(items[0].file, []) else items[0];
      var rest := CompactItems(items[1..], if full then n - 1 else n);
      CompactingKeeps(items[1..], if full then n - 1 else n);
      assert ([head] + rest)[1..] == rest;
    } else {
      assert forall f | f in Table(items) :: Table(items)[f] == Table(items)[f];
    }
  }

  lemma {:induction false} FullAreSealed(items: seq<Item>)
    ensures FullCount(items) <= |SealedItems(items)|
  {
    if items != [] {
      FullAreSealed(items[1..]);
    }
  }

  /** Compaction leaves at most the threshold of full sealed entries, and at most
      `keep` whenever it fired. */
  lemma {:induction false} GcBoundsFullEntries(items: seq<Item>, threshold: nat, keep: nat)
    requires ItemsOk(items) && keep <= threshold
    ensures
      var total, full, after := |SealedItems(items)|, FullCount(items), GcItems(items, threshold, keep);
      && FullCount(after) <= threshold
      && (total > threshold ==>
            FullCount(after) <= keep && FullCount(after) == if full <= total - keep then 0 else full - (total - keep))
  {
    FullAreSealed(items);
    CompactingKeeps(items, if |SealedItems(items)| > threshold then |SealedItems(items)| - keep else 0);
  }

  // ----- Which entries stay full -----

  function ClearFirst(full: seq<bool>, n: nat): (cleared: seq<bool>)
    ensures |cleared| == |full|
  {
    if full == [] || n == 0 then full
    else if full[0] then [false] + ClearFirst(full[1..], n - 1)
    else [false] + ClearFirst(full[1..], n)
  }

  function CountTrue(full: seq<bool>): (c: nat)
    ensures c <= |full|
  {
    if full == [] then 0 else (if full[0] then 1 else 0) + CountTrue(full[1..])
  }

  /** An entry stays full exactly when it was, with `n` full ones ahead of it. */
  lemma {:induction false} StaysFullIff(full: seq<bool>, n: nat, k: nat)
    requires k < |full|
    ensures ClearFirst(full, n)[k] <==> full[k] && CountTrue(full[..k]) >= n
  {
    if n > 0 && k > 0 {
      StaysFullIff(full[1..], if full[0] then n - 1 else n, k - 1);
      assert full[..k][1..] == full[1..][..k - 1];
    }
  }

  function Fulls(items: seq<Item>): seq<bool> {
    if items == [] then []
    else (if SealedItem(items[0]) then [items[0].subs != []] else []) + Fulls(items[1..])
  }

  lemma {:induction false} FullsOneMore(item: Item, items: seq<Item>)
    ensures Fulls([item] + items) == (if SealedItem(item) then [item.subs != []] else []) + Fulls(items)
  {
    assert ([item] + items)[1..] == items;
  }

  lemma {:induction false} FullsOfCompacted(items: seq<Item>, n: nat)
    ensures Fulls(CompactItems(items, n)) == ClearFirst(Fulls(items), n)
    ensures |Fulls(items)| == |SealedItems(items)|
    decreases |items|
  {
    if items != [] {
      var full := FullSealed(items[0]) && n > 0;
      var m := if full then n - 1 else n;
      var head := if full then Entry(items[0].file, []) else items[0];
      FullsOfCompacted(items[1..], m);
      FullsOneMore(head, CompactItems(items[1..], m));
      if SealedItem(items[0]) {
        assert Fulls(items)[1..] == Fulls(items[1..]);
        assert n > 0 ==> ClearFirst(Fulls(items), n) == [false] + ClearFirst(Fulls(items[1..]), m);
      } else {
        assert Fulls(items) == Fulls(items[1..]);
      }
    }
  }

  lemma {:induction false} AllTrueIff(full: seq<bool>)
    ensures CountTrue(full) == |full| <==> forall k | 0 <= k < |full| :: full[k]
  {
    if full != [] {
      AllTrueIff(full[1..]);
      assert forall k | 0 <= k < |full[1..]| :: full[1..][k] == full[k + 1];
      assert forall k | 1 <= k < |full| :: full[k] == full[1..][k - 1];
    }
  }

  lemma CountGrows(full: seq<bool>, i: nat, k: nat)
    requires i <= k <= |full|
    ensures CountTrue(full[..i]) <= CountTrue(full[..k])
  {
    if i > 0 {
      CountGrows(full[1..], i - 1, k - 1);
      assert full[..i][1..] == full[1..][..i - 1] && full[..k][1..] == full[1..][..k - 1];
    }
  }

  predicate FullFrom(full: seq<bool>, n: nat) {
    forall k | n <= k < |full| :: full[k]
  }

  lemma {:induction false} AllFullKeepsTail(full: seq<bool>, n: nat)
    requires n <= |full| && FullFrom(full, 0)
    ensures FullFrom(ClearFirst(full, n), n)
  {
    AllTrueIff(full[..n]);
    forall k | n <= k < |full|
      ensures ClearFirst(full, n)[k]
    {
      StaysFullIff(full, n, k);
      CountGrows(full, n, k);
    }
  }

  lemma {:induction false} FullTailMeansAllFull(full: seq<bool>, n: nat)
    requires n < |full| && FullFrom(ClearFirst(full, n), n)
    ensures FullFrom(full, 0)
  {
    StaysFullIff(full, n, n);
    AllTrueIff(full[..n]);
    forall k | 0 <= k < |full|
      ensures full[k]
    {
      if k < n {
        assert full[..n][k];
      } else {
        StaysFullIff(full, n, k);
      }
    }
  }

  /** The last `keep` sealed entries are in full after compaction has fired exactly
      when every sealed entry was before: once some are compact, the newest are
      not spared. */
  lemma {:induction false} NewestStayFullIff(items: seq<Item>, threshold: nat, keep: nat)
    requires 0 < keep <= threshold < |SealedItems(items)|
    ensures
      var total, after := |SealedItems(items)|, Fulls(GcItems(items, threshold, keep));
      |after| == total && (FullFrom(after, total - keep) <==> FullFrom(Fulls(items), 0))
  {
    var full, n := Fulls(items), |SealedItems(items)| - keep;
    FullsOfCompacted(items, n);
    if FullFrom(full, 0) {
      AllFullKeepsTail(full, n);
    }
    if FullFrom(ClearFirst(full, n), n) {
      FullTailMeansAllFull(full, n);
    }
  }

  // ----- Any number of marks -----

  datatype Mark = Mark(file: string, uuid: string, status: string)

  function Marked(m: Meta, mark: Mark): Meta {
    m.(items := GcItems(MarkItems(m.items, mark.file, mark.uuid, mark.status),
                        SEALED_GC_THRESHOLD, SEALED_GC_KEEP_FULL))
  }

  function MarkedAll(m: Meta, marks: seq<Mark>): Meta {
    if marks == [] then m else Marked(MarkedAll(m, marks[..|marks| - 1]), marks[|marks| - 1])
  }

  function RowsMarkedAll(rows: seq<Row>, marks: seq<Mark>): seq<Row> {
    if marks == [] then rows
    else
      var last := marks[|marks| - 1];
      MarkAndGc(RowsMarkedAll(rows, marks[..|marks| - 1]), last.file, last.uuid, last.status)
  }

  /** The table a file would have were nothing ever compacted. */
  function Intended(t: map<string, Info>, marks: seq<Mark>): map<string, Info> {
    if marks == [] then t
    else
      var last := marks[|marks| - 1];
      Intended(t, marks[..|marks| - 1])[last.file := Info(last.uuid, last.status)]
  }

  lemma OneMarkOnRows(m: Meta, mark: Mark)
    requires MetaOk(m)
    ensures MarkAndGc(FileRows(m), mark.file, mark.uuid, mark.status) == FileRows(Marked(m, mark))
  {
    var marked := m.(items := MarkItems(m.items, mark.file, mark.uuid, mark.status));
    MarkChangesItems(m, mark.file, mark.uuid, mark.status);
    MarkKeepsItems(m.items, mark.file, mark.uuid, mark.status);
    GcChangesItems(marked, SEALED_GC_THRESHOLD, SEALED_GC_KEEP_FULL);
  }

  lemma {:induction false} GcKeeps(items: seq<Item>, threshold: nat, keep: nat)
    requires ItemsOk(items) && keep <= threshold
    ensures
      var after := GcItems(items, threshold, keep);
      && ItemsOk(after) && Names(after) == Names(items) && (NamesOnce(items) ==> NamesOnce(after))
      && OnlyBlanks(Table(items), Table(after))
  {
    var total := |SealedItems(items)|;
    CompactingKeeps(items, if total > threshold then total - keep else 0);
  }

  lemma OneMark(m: Meta, mark: Mark)
    requires MetaOk(m) && NamesOnce(m.items)
    ensures
      var after := Marked(m, mark);
      && MetaOk(after) && NamesOnce(after.items)
      && OnlyBlanks(Table(m.items)[mark.file := Info(mark.uuid, mark.status)], Table(after.items))
      && FullCount(after.items) <= SEALED_GC_THRESHOLD
      && Names(after.items) == WithName(Names(m.items), mark.file)
  {
    var items := MarkItems(m.items, mark.file, mark.uuid, mark.status);
    MarkKeepsItems(m.items, mark.file, mark.uuid, mark.status);
    MarkUpdatesOne(m.items, mark.file, mark.uuid, mark.status);
    GcKeeps(items, SEALED_GC_THRESHOLD, SEALED_GC_KEEP_FULL);
    GcBoundsFullEntries(items, SEALED_GC_THRESHOLD, SEALED_GC_KEEP_FULL);
  }

  function WithName(names: seq<string>, file: string): seq<string> {
    if file in names then names else names + [file]
  }

  /** The names in the order they came into the section. */
  function NamesAfter(names: seq<string>, marks: seq<Mark>): seq<string> {
    if marks == [] then names
    else WithName(NamesAfter(names, marks[..|marks| - 1]), marks[|marks| - 1].file)
  }

  /** The file whose entry the parser loses: the last to come in, when another section
      follows. */
  function LostName(m: Meta, marks: seq<Mark>): Option<string> {
    var names := NamesAfter(Names(m.items), marks);
    if m.after == [] || names == [] then None else Some(names[|names| - 1])
  }

  /** The same files but the lost one, with the same status; at most the uuid of sealed
      ones is gone. */
  ghost predicate OnlyBlanksBut(lost: Option<string>, t: map<string, Info>, t': map<string, Info>) {
    && (forall f :: f in t' <==> f in t && lost != Some(f))
    && forall f | f in t' :: t'[f] == t[f] || (t[f].status == "sealed" && t'[f] == Info("", "sealed"))
  }

  /** After any sequence of marks on a well-formed file: what is around the section is
      untouched, its entries are those of all the files marked, in the order they came
      in, each with its last mark (a sealed one possibly without its uuid), and the full
      sealed ones stay within the threshold. */
  lemma {:induction false} MarksAreWritten(m: Meta, marks: seq<Mark>)
    requires MetaOk(m) && NamesOnce(m.items)
    ensures
      var after := MarkedAll(m, marks);
      && MetaOk(after) && NamesOnce(after.items)
      && after.before == m.before && after.header == m.header && after.after == m.after
      && RowsMarkedAll(FileRows(m), marks) == FileRows(after)
      && Names(after.items) == NamesAfter(Names(m.items), marks)
      && OnlyBlanks(Intended(Table(m.items), marks), Table(after.items))
      && (marks != [] ==> FullCount(after.items) <= SEALED_GC_THRESHOLD)
    decreases |marks|
  {
    if marks != [] {
      var front, last := marks[..|marks| - 1], marks[|marks| - 1];
      MarksAreWritten(m, front);
      var before := MarkedAll(m, front);
      OneMarkOnRows(before, last);
      OneMark(before, last);
    }
  }

  /** The parsed table by name, for all names at once. */
  lemma AllButLastAreRead(m: Meta)
    requires MetaOk(m) && NamesOnce(m.items)
    ensures forall f :: f in ParsedTable(m) <==> f in Table(m.items) && (m.after == [] || LastName(m.items) != Some(f))
    ensures forall f | f in ParsedTable(m) :: f in Table(m.items) && ParsedTable(m)[f] == Table(m.items)[f]
  {
    forall f
      ensures f in ParsedTable(m) <==> f in Table(m.items) && (m.after == [] || LastName(m.items) != Some(f))
      ensures f in ParsedTable(m) ==> f in Table(m.items) && ParsedTable(m)[f] == Table(m.items)[f]
    {
      EarlyAreAllButLast(m.items, f);
    }
  }

  /** And the parser sees for every file the last mark it got, except for the file that
      came in last when another section follows. */
  lemma {:induction false} AnyMarksAreKept(m: Meta, marks: seq<Mark>)
    requires MetaOk(m) && NamesOnce(m.items)
    ensures
      var parsed := Flushed(ParseRows(NO_PARSE, RowsMarkedAll(FileRows(m), marks)));
      OnlyBlanksBut(LostName(m, marks), Intended(Table(m.items), marks), parsed)
  {
    var after := MarkedAll(m, marks);
    MarksAreWritten(m, marks);
    ParseReadsTheTable(after);
    AllButLastAreRead(after);
    assert LostName(m, marks) == if after.after == [] then None else LastName(after.items);
  }

  /** An active entry keeps its uuid; only the lost one cannot be read. */
  lemma {:induction false} ActiveEntriesKeepTheirCursor(m: Meta, marks: seq<Mark>, file: string)
    requires MetaOk(m) && NamesOnce(m.items)
    requires file in Intended(Table(m.items), marks) && Intended(Table(m.items), marks)[file].status != "sealed"
    ensures
      var parsed := Flushed(ParseRows(NO_PARSE, RowsMarkedAll(FileRows(m), marks)));
      && (file in parsed <==> LostName(m, marks) != Some(file))
      && (file in parsed ==> parsed[file] == Intended(Table(m.items), marks)[file])
  {
    AnyMarksAreKept(m, marks);
  }

  lemma {:induction false} MarkIsIntended(t: map<string, Info>, marks: seq<Mark>, mark: Mark)
    ensures Intended(t, marks + [mark]) == Intended(t, marks)[mark.file := Info(mark.uuid, mark.status)]
    ensures forall names :: NamesAfter(names, marks + [mark]) == WithName(NamesAfter(names, marks), mark.file)
  {
    assert (marks + [mark])[..|marks|] == marks;
  }

  /** The mark of a file that was not in the section yet can be read back exactly when
      no other section follows. */
  lemma {:induction false} NewMarkIsReadIff(m: Meta, marks: seq<Mark>, mark: Mark)
    requires MetaOk(m) && NamesOnce(m.items) && mark.file !in NamesAfter(Names(m.items), marks)
    ensures
      var parsed := Flushed(ParseRows(NO_PARSE, RowsMarkedAll(FileRows(m), marks + [mark])));
      mark.file in parsed <==> m.after == []
  {
    MarkIsIntended(Table(m.items), marks, mark);
    AnyMarksAreKept(m, marks + [mark]);
  }

  lemma OneEntry(file: string, uuid: string, status: string)
    ensures
      var items := [Entry(file, NewSubs(uuid, status))];
      && ItemsOk(items) && NamesOnce(items) && Render(items) == NewRows(file, uuid, status)
      && Table(items) == map[file := Info(uuid, status)] && |SealedItems(items)| <= 1
  {
    var items := [Entry(file, NewSubs(uuid, status))];
    assert items[1..] == [];
    RenderOneMore(items[0], []);
    assert [items[0]] + [] == items && ItemRows(items[0]) == NewRows(file, uuid, status);
    NewSubsSay(uuid, status);
  }

  /** The file that marking makes of a text without the section. */
  function Opened(rows: seq<Row>, mark: Mark): Meta {
    Meta(rows + [Row(BlankLine, false)], Row(SectionHeader, true), [Entry(mark.file, NewSubs(mark.uuid, mark.status))],
         [])
  }

  /** Marking a file in a text without the section opens one at the end, which holds
      that mark alone. */
  lemma FirstMarkOpensTheSection(rows: seq<Row>, mark: Mark)
    requires NoHeader(rows)
    ensures MetaOk(Opened(rows, mark)) && NamesOnce(Opened(rows, mark).items)
    ensures MarkAndGc(rows, mark.file, mark.uuid, mark.status) == FileRows(Opened(rows, mark))
    ensures Flushed(ParseRows(NO_PARSE, FileRows(Opened(rows, mark)))) == map[mark.file := Info(mark.uuid, mark.status)]
  {
    var m := Opened(rows, mark);
    NothingIsFound(rows, 0, mark.file);
    OneEntry(mark.file, mark.uuid, mark.status);
    assert rows + [Row(BlankLine, false), Row(SectionHeader, true)] == m.before + [m.header];
    assert MarkRows(rows, mark.file, mark.uuid, mark.status) == FileRows(m) by {
      Nothing(m.before + [m.header] + Render(m.items));
    }
    assert GcItems(m.items, SEALED_GC_THRESHOLD, SEALED_GC_KEEP_FULL) == m.items;
    GcChangesItems(m, SEALED_GC_THRESHOLD, SEALED_GC_KEEP_FULL);
    ParseReadsTheTable(m);
  }

  lemma {:induction false} NothingIsFound(rows: seq<Row>, i: nat, file: string)
    requires i <= |rows| && NoHeader(rows)
    ensures FindEntry(rows, i, None, file) == Place(None, None)
    decreases |rows| - i
  {
    if i < |rows| {
      NothingIsFound(rows, i + 1, file);
    }
  }
}
