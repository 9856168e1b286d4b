/** Metadata files with a well-formed `processed_v2` section: what parsing, marking and
    compacting mean for its entries, and for what follows it. */
module MetaSection {
  import opened Prelude
  import opened DreamMeta

  /** One stretch of the section: a line that is neither entry nor part of one, or
      an entry with its sub-lines (none, once it is compacted). */
  datatype Item = Gap(row: Row) | Entry(file: string, subs: seq<Row>)

  predicate ItemOk(item: Item) {
    match item
    case Gap(row) => row.body in {BlankLine, OtherLine} && !Leaves(row)
    case Entry(_, subs) => forall k | 0 <= k < |subs| :: IsSub(subs[k]) && !subs[k].flush
  }

  function ItemSize(item: Item): nat {
    match item
    case Gap(_) => 1
    case Entry(_, subs) => 1 + |subs|
  }

  function ItemRows(item: Item): (rows: seq<Row>)
    ensures |rows| == ItemSize(item)
  {
    match item
    case Gap(row) => [row]
    case Entry(file, subs) => [Row(FileLine(file), false)] + subs
  }

  function Render(items: seq<Item>): seq<Row> {
    if items == [] then [] else ItemRows(items[0]) + Render(items[1..])
  }

  predicate ItemsOk(items: seq<Item>) {
    items == [] || (ItemOk(items[0]) && ItemsOk(items[1..]))
  }

  /** A file with the section: what comes before, its header, its items, and what
      follows from the line that starts another section. */
  datatype Meta = Meta(before: seq<Row>, header: Row, items: seq<Item>, after: seq<Row>)

  predicate NoHeader(rows: seq<Row>) {
    forall k | 0 <= k < |rows| :: !rows[k].body.SectionHeader?
  }

  /** What follows the section starts another one. */
  predicate StartsAnother(rows: seq<Row>) {
    rows != [] ==> Leaves(rows[0]) && !IsSub(rows[0])
  }

  predicate MetaOk(m: Meta) {
    && NoHeader(m.before) && m.header.body.SectionHeader? && ItemsOk(m.items)
    && NoHeader(m.after) && StartsAnother(m.after)
  }

  function FileRows(m: Meta): seq<Row> {
    m.before + [m.header] + Render(m.items) + m.after
  }

  // ----- What the section says -----

  function UuidOf(subs: seq<Row>): string {
    if subs == [] then ""
    else if subs[|subs| - 1].body.UuidLine? then subs[|subs| - 1].body.uuid
    else UuidOf(subs[..|subs| - 1])
  }

  function StatusOf(subs: seq<Row>): string {
    if subs == [] then "sealed"
    else if subs[|subs| - 1].body.StatusLine? then subs[|subs| - 1].body.status
    else StatusOf(subs[..|subs| - 1])
  }

  function Table(items: seq<Item>): map<string, Info> {
    if items == [] then map[]
    else
      match items[0]
      case Gap(_) => Table(items[1..])
      case Entry(file, subs) => map[file := Info(UuidOf(subs), StatusOf(subs))] + Table(items[1..])
  }

  function Names(items: seq<Item>): seq<string> {
    if items == [] then []
    else if items[0].Gap? then Names(items[1..])
    else [items[0].file] + Names(items[1..])
  }

  predicate NamesOnce(items: seq<Item>) {
    items == [] || (NamesOnce(items[1..]) && (items[0].Entry? ==> items[0].file !in Names(items[1..])))
  }

  lemma {:induction false} NamesAreKeys(items: seq<Item>)
    ensures forall f :: f in Names(items) <==> f in Table(items)
  {
    if items != [] {
      NamesAreKeys(items[1..]);
    }
  }

  // ----- Parsing -----

  lemma {:induction false} ParseConcat(p: Parse, a: seq<Row>, b: seq<Row>)
    ensures ParseRows(p, a + b) == ParseRows(ParseRows(p, a), b)
    decreases |a|
  {
    if a == [] {
      assert a + b == b;
    } else {
      assert (a + b)[0] == a[0] && (a + b)[1..] == a[1..] + b;
      ParseConcat(ParseRow(p, a[0]), a[1..], b);
    }
  }

  lemma {:induction false} ParseSubs(p: Parse, subs: seq<Row>)
    requires p.inside && p.current.Some? && ItemOk(Entry("", subs))
    requires p.current.value.uuid.None? && p.current.value.status.None?
    ensures
      var q := ParseRows(p, subs);
      && q.inside && q.result == p.result && q.current.Some? && q.current.value.file == p.current.value.file
      && Done(q.current.value) == Info(UuidOf(subs), StatusOf(subs))
    decreases |subs|
  {
    if subs != [] {
      var front, last := subs[..|subs| - 1], subs[|subs| - 1];
      assert subs == front + [last];
      ParseConcat(p, front, [last]);
      ParseSubs(p, front);
      var q := ParseRows(p, front);
      assert ParseRows(q, [last]) == ParseRows(ParseRow(q, last), []);
    }
  }

  /** Parsing an item adds its entry to what is already flushed. */
  lemma {:induction false} ParseItem(p: Parse, item: Item)
    requires p.inside && ItemOk(item)
    ensures ParseRows(p, ItemRows(item)).inside
    ensures
      var q := ParseRows(p, ItemRows(item));
      Flushed(q) ==
        if item.Gap? then Flushed(p) else Flushed(p)[item.file := Info(UuidOf(item.subs), StatusOf(item.subs))]
  {
    match item
    case Gap(row) =>
      assert ParseRows(p, [row]) == ParseRows(ParseRow(p, row), []);
    case Entry(file, subs) =>
      var head := Row(FileLine(file), false);
      assert ([head] + subs)[1..] == subs;
      ParseSubs(ParseRow(p, head), subs);
  }

  lemma {:induction false} ParseItems(p: Parse, items: seq<Item>)
    requires p.inside && ItemsOk(items)
    ensures Flushed(ParseRows(p, Render(items))) == Flushed(p) + Table(items)
    decreases |items|
  {
    if items != [] {
      ParseConcat(p, ItemRows(items[0]), Render(items[1..]));
      ParseItem(p, items[0]);
      ParseItems(ParseRows(p, ItemRows(items[0])), items[1..]);
      if items[0].Entry? {
        var info := Info(UuidOf(items[0].subs), StatusOf(items[0].subs));
        UpdateThenMerge(Flushed(p), items[0].file, info, Table(items[1..]));
      }
    }
  }

  lemma UpdateThenMerge<K, V>(m: map<K, V>, k: K, v: V, more: map<K, V>)
    ensures m[k := v] + more == m + (map[k := v] + more)
  {
  }

  lemma {:induction false} ParseOutside(p: Parse, rows: seq<Row>)
    requires !p.inside && NoHeader(rows)
    ensures ParseRows(p, rows) == p
    decreases |rows|
  {
    if rows != [] {
      ParseOutside(p, rows[1..]);
    }
  }

  /** The entries that have another one after them. */
  function Early(items: seq<Item>): seq<Item> {
    if items == [] then []
    else (if items[0].Entry? && Names(items[1..]) != [] then [items[0]] else []) + Early(items[1..])
  }

  lemma {:induction false} EntryFlushes(p: Parse, file: string, subs: seq<Row>)
    requires p.inside && ItemOk(Entry(file, subs))
    ensures
      var q := ParseRows(p, ItemRows(Entry(file, subs)));
      && q.inside && q.result == Flushed(p) && Flushed(q) == Flushed(p)[file := Info(UuidOf(subs), StatusOf(subs))]
  {
    var head := Row(FileLine(file), false);
    assert ([head] + subs)[1..] == subs;
    ParseSubs(ParseRow(p, head), subs);
  }

  lemma {:induction false} GapIsSkipped(p: Parse, row: Row)
    requires p.inside && ItemOk(Gap(row))
    ensures ParseRows(p, [row]) == p
  {
    assert ParseRows(p, [row]) == ParseRows(ParseRow(p, row), []);
  }

  lemma {:induction false} EarlyOnward(items: seq<Item>)
    requires items != []
    ensures items[0].Gap? ==> Early(items) == Early(items[1..])
    ensures items[0].Entry? && Names(items[1..]) != [] ==>
              var first := map[items[0].file := Info(UuidOf(items[0].subs), StatusOf(items[0].subs))];
              Table(Early(items)) == first + Table(Early(items[1..]))
  {
    Nothing(Early(items[1..]));
    assert ([items[0]] + Early(items[1..]))[1..] == Early(items[1..]);
  }

  /** The parser at the end of these items, begun at `p`: without an entry as it was,
      otherwise with all but the last one in its result. */
  predicate HoldsTheLast(p: Parse, items: seq<Item>, q: Parse) {
    q.inside && if Names(items) == [] then q == p else q.result == Flushed(p) + Table(Early(items))
  }

  lemma {:induction false} HoldsOnward(p: Parse, items: seq<Item>, next: Parse, q: Parse)
    requires p.inside && ItemsOk(items) && items != [] && items[0].Entry? && next == ParseRows(p, ItemRows(items[0]))
    requires HoldsTheLast(next, items[1..], q)
    ensures HoldsTheLast(p, items, q)
  {
    var info := Info(UuidOf(items[0].subs), StatusOf(items[0].subs));
    EntryFlushes(p, items[0].file, items[0].subs);
    EarlyOnward(items);
    if Names(items[1..]) == [] {
      NoEarly(items[1..]);
      assert Early(items) == [];
    } else {
      UpdateThenMerge(Flushed(p), items[0].file, info, Table(Early(items[1..])));
    }
  }

  lemma {:induction false} ParseHoldsTheLast(p: Parse, items: seq<Item>)
    requires p.inside && ItemsOk(items)
    ensures HoldsTheLast(p, items, ParseRows(p, Render(items)))
    decreases |items|
  {
    if items != [] {
      var next := ParseRows(p, ItemRows(items[0]));
      ParseConcat(p, ItemRows(items[0]), Render(items[1..]));
      if items[0].Gap? {
        GapIsSkipped(p, items[0].row);
        EarlyOnward(items);
        ParseHoldsTheLast(p, items[1..]);
      } else {
        EntryFlushes(p, items[0].file, items[0].subs);
        ParseHoldsTheLast(next, items[1..]);
        HoldsOnward(p, items, next, ParseRows(next, Render(items[1..])));
      }
    }
  }

  lemma {:induction false} NoEarly(items: seq<Item>)
    requires Names(items) == []
    ensures Early(items) == []
  {
    if items != [] {
      NoEarly(items[1..]);
    }
  }

  /** The table as the parser reads it. */
  function ParsedTable(m: Meta): map<string, Info> {
    if m.after == [] then Table(m.items) else Table(Early(m.items))
  }

  lemma {:induction false} ParseLeaves(p: Parse, after: seq<Row>)
    requires p.inside && NoHeader(after) && StartsAnother(after) && after != []
    ensures Flushed(ParseRows(p, after)) == p.result
  {
    ParseOutside(ParseRow(p, after[0]), after[1..]);
  }

  /** The parser reads exactly the section's entries, except that the last one gets
      lost when another section follows. */
  lemma ParseReadsTheTable(m: Meta)
    requires MetaOk(m)
    ensures Flushed(ParseRows(NO_PARSE, FileRows(m))) == ParsedTable(m)
  {
    var head := m.before + [m.header];
    ParseConcat(NO_PARSE, head + Render(m.items), m.after);
    ParseConcat(NO_PARSE, head, Render(m.items));
    ParseConcat(NO_PARSE, m.before, [m.header]);
    ParseOutside(NO_PARSE, m.before);
    var p := ParseRow(NO_PARSE, m.header);
    assert ParseRows(NO_PARSE, [m.header]) == ParseRows(p, []);
    ParseItems(p, m.items);
    ParseHoldsTheLast(p, m.items);
    if m.after != [] {
      ParseLeaves(ParseRows(p, Render(m.items)), m.after);
      if Names(m.items) == [] {
        NoEarly(m.items);
      }
    }
  }

  /** The last name, if there is any. */
  function LastName(items: seq<Item>): Option<string> {
    if Names(items) == [] then None else Some(Names(items)[|Names(items)| - 1])
  }

  lemma {:induction false} LastNameOnward(items: seq<Item>)
    requires items != []
    ensures Names(items[1..]) != [] ==> LastName(items) == LastName(items[1..])
    ensures Names(items[1..]) == [] ==> LastName(items) == if items[0].Entry? then Some(items[0].file) else None
  {
  }

  lemma {:induction false} EarlyAreAllButLast(items: seq<Item>, file: string)
    requires NamesOnce(items)
    ensures file in Table(Early(items)) <==> file in Table(items) && LastName(items) != Some(file)
    ensures file in Table(Early(items)) ==> Table(Early(items))[file] == Table(items)[file]
  {
    if items != [] {
      EarlyAreAllButLast(items[1..], file);
      NamesAreKeys(items[1..]);
      LastNameOnward(items);
      EarlyOnward(items);
      if Names(items[1..]) == [] {
        NoEarly(items[1..]);
        assert Early(items) == [];
      } else {
        LastIsAName(items[1..]);
      }
    }
  }

  lemma {:induction false} LastIsAName(items: seq<Item>)
    requires Names(items) != []
    ensures LastName(items).Some? && LastName(items).value in Names(items)
  {
  }

  /** An entry is read exactly when no section follows or another entry does. */
  lemma EntryIsReadIff(m: Meta, file: string)
    requires MetaOk(m) && NamesOnce(m.items) && file in Names(m.items)
    ensures
      var parsed := Flushed(ParseRows(NO_PARSE, FileRows(m)));
      && (file in parsed <==> m.after == [] || LastName(m.items) != Some(file))
      && (file in parsed ==> file in Table(m.items) && parsed[file] == Table(m.items)[file])
  {
    ParseReadsTheTable(m);
    NamesAreKeys(m.items);
    EarlyAreAllButLast(m.items, file);
  }

  // ----- Marking -----

  function NewSubs(uuid: string, status: string): seq<Row> {
    [Row(UuidLine(uuid), false), Row(StatusLine(status), false)]
  }

  function MarkItems(items: seq<Item>, file: string, uuid: string, status: string): seq<Item> {
    if items == [] then [Entry(file, NewSubs(uuid, status))]
    else if items[0].Entry? && items[0].file == file then [Entry(file, NewSubs(uuid, status))] + items[1..]
    else [items[0]] + MarkItems(items[1..], file, uuid, status)
  }

  /** Items that follow do not begin with a sub-line. */
  lemma {:induction false} SubsEndAtItem(rows: seq<Row>, j: nat, end: nat)
    requires j <= end <= |rows|
    requires forall k | j <= k < end :: IsSub(rows[k])
    requires end < |rows| ==> !IsSub(rows[end])
    ensures SubsEnd(rows, j) == end
    decreases |rows| - j
  {
    if j < end {
      SubsEndAtItem(rows, j + 1, end);
    }
  }

  lemma {:induction false} RenderStarts(items: seq<Item>)
    requires ItemsOk(items) && items != []
    ensures Render(items) != [] && Render(items)[0] == ItemRows(items[0])[0]
    ensures !IsSub(Render(items)[0]) && !Leaves(Render(items)[0]) && !Render(items)[0].body.SectionHeader?
  {
  }

  /** An item in place, between what comes before and what follows. */
  lemma {:induction false} ItemInPlace(a: seq<Row>, items: seq<Item>, z: seq<Row>)
    requires items != []
    ensures a + Render(items) + z == a + ItemRows(items[0]) + (Render(items[1..]) + z)
    ensures a + Render(items) + z == (a + ItemRows(items[0])) + Render(items[1..]) + z
    ensures |a + Render(items)| == |a + ItemRows(items[0]) + Render(items[1..])|
  {
    assert Render(items) == ItemRows(items[0]) + Render(items[1..]);
  }

  /** Rows that the search for another file passes over. */
  lemma {:induction false} SearchPasses(rows: seq<Row>, i: nat, end: nat, section: Option<nat>, file: string)
    requires i <= end <= |rows| && section.Some? && section.value < |rows|
    requires forall k | i <= k < end ::
      !rows[k].body.SectionHeader? && !Leaves(rows[k]) && rows[k].body != FileLine(file)
    ensures FindEntry(rows, i, section, file) == FindEntry(rows, end, section, file)
    decreases |rows| - i
  {
    if i < end {
      SearchPasses(rows, i + 1, end, section, file);
    }
  }

  /** What marking makes of a file once the search is at line `i` of the section,
      which ends at line `end`. */
  function MarkFrom(
      rows: seq<Row>, i: nat, section: nat, end: nat, file: string, uuid: string, status: string): seq<Row>
    requires i <= |rows| && end <= |rows| && section < |rows|
  {
    var place := FindEntry(rows, i, Some(section), file);
    if place.entry.Some?
    then Splice(rows, place.entry.value, SubsEnd(rows, place.entry.value + 1), NewRows(file, uuid, status))
    else Splice(rows, end, end, NewRows(file, uuid, status))
  }

  predicate IsEntryOf(rows: seq<Row>, file: string) {
    && rows != [] && rows[0] == Row(FileLine(file), false)
    && forall k | 1 <= k < |rows| :: IsSub(rows[k])
  }

  predicate StartsNoSub(rows: seq<Row>) {
    rows != [] ==> !IsSub(rows[0])
  }

  lemma MarkHere(
      a: seq<Row>, first: seq<Row>, rest: seq<Row>, section: nat, end: nat, file: string, uuid: string, status: string)
    requires section < |a| && end <= |a + first + rest| && IsEntryOf(first, file) && StartsNoSub(rest)
    ensures MarkFrom(a + first + rest, |a|, section, end, file, uuid, status) == a + NewRows(file, uuid, status) + rest
  {
    var rows := a + first + rest;
    assert rows[|a|] == first[0];
    assert forall k | |a| + 1 <= k < |a| + |first| :: rows[k] == first[k - |a|];
    SubsEndAtItem(rows, |a| + 1, |a| + |first|);
    assert FindEntry(rows, |a|, Some(section), file) == Place(Some(section), Some(|a|));
    assert rows[..|a|] == a && rows[|a| + |first|..] == rest;
  }

  predicate Unlike(row: Row, file: string) {
    !row.body.SectionHeader? && !Leaves(row) && row.body != FileLine(file)
  }

  lemma {:induction false} MarkPassesBy(a: seq<Row>, first: seq<Row>, rest: seq<Row>, section: nat, file: string)
    requires section < |a| && forall k | 0 <= k < |first| :: Unlike(first[k], file)
    ensures
      var rows := a + first + rest;
      FindEntry(rows, |a|, Some(section), file) == FindEntry(rows, |a + first|, Some(section), file)
  {
    var rows := a + first + rest;
    assert forall k | |a| <= k < |a| + |first| :: rows[k] == first[k - |a|];
    SearchPasses(rows, |a|, |a| + |first|, Some(section), file);
  }

  lemma ItemRowsAre(item: Item, file: string)
    requires ItemOk(item)
    ensures item.Entry? && item.file == file ==> IsEntryOf(ItemRows(item), file)
    ensures !(item.Entry? && item.file == file) ==>
              forall k | 0 <= k < |ItemRows(item)| :: Unlike(ItemRows(item)[k], file)
  {
  }

  lemma MarkAtEnd(a: seq<Row>, z: seq<Row>, section: nat, file: string, uuid: string, status: string)
    requires section < |a| && StartsAnother(z) && NoHeader(z)
    ensures MarkFrom(a + [] + z, |a|, section, |a|, file, uuid, status) == a + (NewRows(file, uuid, status) + []) + z
  {
    var rows := a + [] + z;
    assert z != [] ==> rows[|a|] == z[0];
    assert rows[..|a|] == a && rows[|a|..] == z;
  }

  lemma {:induction false} ItemsStartNoSub(items: seq<Item>, z: seq<Row>)
    requires ItemsOk(items) && StartsAnother(z)
    ensures StartsNoSub(Render(items) + z)
  {
    if items != [] {
      RenderStarts(items);
    }
  }

  /** Marking within the items: `a` is all that comes before them, `z` what follows. */
  lemma {:induction false} MarkInPlace(
      a: seq<Row>, items: seq<Item>, z: seq<Row>, section: nat, file: string, uuid: string, status: string)
    requires ItemsOk(items) && section < |a| && StartsAnother(z) && NoHeader(z)
    ensures MarkFrom(a + Render(items) + z, |a|, section, |a + Render(items)|, file, uuid, status)
            == a + Render(MarkItems(items, file, uuid, status)) + z
    decreases |items|
  {
    var entry := Entry(file, NewSubs(uuid, status));
    assert ItemRows(entry) == NewRows(file, uuid, status);
    if items == [] {
      MarkAtEnd(a, z, section, file, uuid, status);
      RenderOneMore(entry, []);
      Nothing(a);
    } else {
      var first, rest := ItemRows(items[0]), Render(items[1..]) + z;
      ItemInPlace(a, items, z);
      ItemRowsAre(items[0], file);
      ItemsStartNoSub(items[1..], z);
      if items[0].Entry? && items[0].file == file {
        MarkHere(a, first, rest, section, |a + Render(items)|, file, uuid, status);
        ItemInPlace(a, [entry] + items[1..], z);
      } else {
        var marked := [items[0]] + MarkItems(items[1..], file, uuid, status);
        MarkPassesBy(a, first, rest, section, file);
        MarkInPlace(a + first, items[1..], z, section, file, uuid, status);
        ItemInPlace(a, marked, z);
      }
    }
  }

  lemma {:induction false} RenderOneMore(item: Item, items: seq<Item>)
    ensures Render([item] + items) == ItemRows(item) + Render(items)
  {
    assert ([item] + items)[1..] == items;
  }

  lemma {:induction false} SearchStarts(rows: seq<Row>, i: nat, header: nat, file: string)
    requires i <= header < |rows| && rows[header].body.SectionHeader?
    requires forall k | i <= k < header :: !rows[k].body.SectionHeader?
    ensures FindEntry(rows, i, None, file) == FindEntry(rows, header + 1, Some(header), file)
    decreases |rows| - i
  {
    if i < header {
      SearchStarts(rows, i + 1, header, file);
    }
  }

  lemma {:induction false} SectionEndsAt(rows: seq<Row>, i: nat, end: nat)
    requires i <= end <= |rows| && (forall k | i <= k < end :: !Leaves(rows[k]))
    requires end < |rows| ==> Leaves(rows[end])
    ensures SectionEnd(rows, i) == end
    decreases |rows| - i
  {
    if i < end {
      SectionEndsAt(rows, i + 1, end);
    }
  }

  lemma {:induction false} ItemsNeverLeave(items: seq<Item>)
    requires ItemsOk(items)
    ensures forall k | 0 <= k < |Render(items)| :: !Leaves(Render(items)[k]) && !Render(items)[k].body.SectionHeader?
    decreases |items|
  {
    if items != [] {
      ItemsNeverLeave(items[1..]);
    }
  }

  /** Marking a file changes its items as `MarkItems` says, and nothing around them. */
  lemma {:induction false} MarkChangesItems(m: Meta, file: string, uuid: string, status: string)
    requires MetaOk(m)
    ensures MarkRows(FileRows(m), file, uuid, status) == FileRows(m.(items := MarkItems(m.items, file, uuid, status)))
  {
    var a, rows := m.before + [m.header], FileRows(m);
    SectionIs(m);
    SearchStarts(rows, 0, |m.before|, file);
    MarkInPlace(a, m.items, m.after, |m.before|, file, uuid, status);
    SearchKeepsSection(rows, |a|, |m.before|, file);
  }

  lemma SectionIs(m: Meta)
    requires MetaOk(m)
    ensures
      var rows := FileRows(m);
      && |m.before| < |rows| && rows[|m.before|] == m.header
      && (forall k | 0 <= k < |m.before| :: rows[k] == m.before[k])
      && SectionEnd(rows, |m.before| + 1) == |m.before + [m.header] + Render(m.items)|
      && (forall k | |m.before| < k < |rows| :: !rows[k].body.SectionHeader?)
  {
    var rows, start, end := FileRows(m), |m.before| + 1, |m.before + [m.header] + Render(m.items)|;
    ItemsNeverLeave(m.items);
    assert forall k | start <= k < end :: rows[k] == Render(m.items)[k - start];
    assert forall k | end <= k < |rows| :: rows[k] == m.after[k - end];
    SectionEndsAt(rows, start, end);
  }

  lemma {:induction false} SearchKeepsSection(rows: seq<Row>, i: nat, section: nat, file: string)
    requires i <= |rows| && section < |rows|
    requires forall k | i <= k < |rows| :: !rows[k].body.SectionHeader?
    ensures FindEntry(rows, i, Some(section), file).section == Some(section)
    decreases |rows| - i
  {
    if i < |rows| {
      SearchKeepsSection(rows, i + 1, section, file);
    }
  }

  lemma {:induction false} MarkKeepsItems(items: seq<Item>, file: string, uuid: string, status: string)
    requires ItemsOk(items)
    ensures ItemsOk(MarkItems(items, file, uuid, status))
    ensures NamesOnce(items) ==> NamesOnce(MarkItems(items, file, uuid, status))
    ensures Names(MarkItems(items, file, uuid, status))
         == (if file in Names(items) then Names(items) else Names(items) + [file])
    decreases |items|
  {
    var entry := Entry(file, NewSubs(uuid, status));
    if items == [] {
      assert [entry][1..] == [];
    } else if items[0].Entry? && items[0].file == file {
      assert ([entry] + items[1..])[1..] == items[1..];
    } else {
      MarkKeepsItems(items[1..], file, uuid, status);
      var rest := MarkItems(items[1..], file, uuid, status);
      assert ([items[0]] + rest)[1..] == rest;
    }
  }

  lemma NewSubsSay(uuid: string, status: string)
    ensures UuidOf(NewSubs(uuid, status)) == uuid && StatusOf(NewSubs(uuid, status)) == status
  {
    assert NewSubs(uuid, status)[..1] == [Row(UuidLine(uuid), false)];
  }

  /** Marking updates exactly the marked entry. */
  lemma {:induction false} MarkUpdatesOne(items: seq<Item>, file: string, uuid: string, status: string)
    requires NamesOnce(items)
    ensures Table(MarkItems(items, file, uuid, status)) == Table(items)[file := Info(uuid, status)]
    decreases |items|
  {
    var entry := Entry(file, NewSubs(uuid, status));
    NewSubsSay(uuid, status);
    if items == [] {
      assert [entry][1..] == [];
    } else if items[0].Entry? && items[0].file == file {
      assert ([entry] + items[1..])[1..] == items[1..];
      NamesAreKeys(items[1..]);
    } else {
      MarkUpdatesOne(items[1..], file, uuid, status);
      var rest := MarkItems(items[1..], file, uuid, status);
      assert ([items[0]] + rest)[1..] == rest;
    }
  }
}
