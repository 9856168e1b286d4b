/** The dream metadata file: parsing its `processed_v2` section, marking a
    transcript in it, and compacting its old sealed entries. */
module DreamMeta {
  import opened Prelude
  import opened Text

  const SEALED_GC_THRESHOLD := 200
  const SEALED_GC_KEEP_FULL := 100

  /** What the file's readers tell apart in a line. */
  datatype Body =
    | SectionHeader
    | FileLine(file: string)
    | UuidLine(uuid: string)
    | StatusLine(status: string)
    | BlankLine
    | OtherLine

  /** `flush`: the raw line starts neither with a space, a tab nor a dash. */
  datatype Row = Row(body: Body, flush: bool)

  function BodyOf(stripped: string): Body {
    if stripped == "processed_v2:" then SectionHeader
    else if StartsWith(stripped, "- file:") then FileLine(Strip(stripped[7..]))
    else if StartsWith(stripped, "last_uuid:") then UuidLine(Strip(stripped[10..]))
    else if StartsWith(stripped, "status:") then StatusLine(Strip(stripped[7..]))
    else if stripped == "" then BlankLine
    else OtherLine
  }

  function Read(raw: string): Row {
    Row(BodyOf(Strip(raw)), raw != "" && raw[0] !in {' ', '-', '\t'})
  }

  function Rows(lines: seq<string>): (rows: seq<Row>)
    ensures |rows| == |lines| && forall k | 0 <= k < |lines| :: rows[k] == Read(lines[k])
  {
    seq(|lines|, k requires 0 <= k < |lines| => Read(lines[k]))
  }

  /** The line starts another section. */
  predicate Leaves(row: Row) {
    row.flush && row.body != BlankLine
  }

  predicate IsSub(row: Row) {
    row.body.UuidLine? || row.body.StatusLine?
  }

  // ----- Parsing -----

  datatype Info = Info(uuid: string, status: string)

  datatype Draft = Draft(file: string, uuid: Option<string>, status: Option<string>)

  datatype Parse = Parse(result: map<string, Info>, inside: bool, current: Option<Draft>)

  const NO_PARSE := Parse(map[], false, None)

  function Done(d: Draft): Info {
    Info(if d.uuid.Some? then d.uuid.value else "", if d.status.Some? then d.status.value else "sealed")
  }

  function Flushed(p: Parse): map<string, Info> {
    match p.current
    case None => p.result
    case Some(d) => p.result[d.file := Done(d)]
  }

  function ParseRow(p: Parse, row: Row): Parse {
    if row.body.SectionHeader? then p.(inside := true, current := None)
    else if p.inside && Leaves(row) then p.(inside := false, current := None)
    else if !p.inside then p
    else
      match row.body
      case FileLine(file) => Parse(Flushed(p), true, Some(Draft(file, None, None)))
      case UuidLine(uuid) => if p.current.Some? then p.(current := Some(p.current.value.(uuid := Some(uuid)))) else p
      case StatusLine(status) =>
        if p.current.Some? then p.(current := Some(p.current.value.(status := Some(status)))) else p
      case _ => p
  }

  function ParseRows(p: Parse, rows: seq<Row>): Parse
    decreases |rows|
  {
    if rows == [] then p else ParseRows(ParseRow(p, rows[0]), rows[1..])
  }

  /** `parse_meta_v2`. */
  method ParseMetaV2(lines: seq<string>) returns (result: map<string, Info>)
    ensures result == Flushed(ParseRows(NO_PARSE, Rows(lines)))
  {
    result := map[];
    var inside := false;
    var current: Option<Draft> := None;
    ghost var rows := Rows(lines);
    assert rows[0..] == rows;
    for i := 0 to |lines|
      invariant ParseRows(Parse(result, inside, current), rows[i..]) == ParseRows(NO_PARSE, rows)
    {
      ghost var before := Parse(result, inside, current);
      var row := Read(lines[i]);
      assert row == rows[i] && rows[i..][0] == rows[i] && rows[i..][1..] == rows[i + 1..];
      if row.body.SectionHeader? {
        inside, current := true, None;
      } else if inside && Leaves(row) {
        inside, current := false, None;
      } else if inside {
        match row.body {
          case FileLine(file) =>
            if current.Some? {
              result := result[current.value.file := Done(current.value)];
            }
            current := Some(Draft(file, None, None));
          case UuidLine(uuid) =>
            if current.Some? {
              current := Some(current.value.(uuid := Some(uuid)));
            }
          case StatusLine(status) =>
            if current.Some? {
              current := Some(current.value.(status := Some(status)));
            }
          case _ =>
        }
      }
      assert Parse(result, inside, current) == ParseRow(before, row);
    }
    assert rows[|lines|..] == [];
    if current.Some? {
      result := result[current.value.file := Done(current.value)];
    }
  }

  // ----- Marking -----

  /** End of the entry whose sub-lines may start at `j`. */
  function SubsEnd(rows: seq<Row>, j: nat): (end: nat)
    requires j <= |rows|
    ensures j <= end <= |rows|
    decreases |rows| - j
  {
    if j < |rows| && IsSub(rows[j]) then SubsEnd(rows, j + 1) else j
  }

  datatype Place = Place(section: Option<nat>, entry: Option<nat>)

  /** Where the section begins, and where the entry of a file in it. */
  function FindEntry(rows: seq<Row>, i: nat, section: Option<nat>, file: string): (place: Place)
    requires i <= |rows| && (section.Some? ==> section.value < |rows|)
    ensures place.section.Some? ==> place.section.value < |rows|
    ensures place.entry.Some? ==> place.entry.value < |rows|
    decreases |rows| - i
  {
    if i == |rows| then Place(section, None)
    else if rows[i].body.SectionHeader? then FindEntry(rows, i + 1, Some(i), file)
    else if section.Some? && Leaves(rows[i]) then Place(section, None)
    else if section.Some? && rows[i].body == FileLine(file) then Place(section, Some(i))
    else FindEntry(rows, i + 1, section, file)
  }

  /** First line from `i` on that starts another section, or the end. */
  function SectionEnd(rows: seq<Row>, i: nat): (end: nat)
    requires i <= |rows|
    ensures i <= end <= |rows|
    decreases |rows| - i
  {
    if i < |rows| && !Leaves(rows[i]) then SectionEnd(rows, i + 1) else i
  }

  function NewRows(file: string, uuid: string, status: string): seq<Row> {
    [Row(FileLine(file), false), Row(UuidLine(uuid), false), Row(StatusLine(status), false)]
  }

  function Splice<T>(s: seq<T>, start: nat, end: nat, middle: seq<T>): seq<T>
    requires start <= end <= |s|
  {
    s[..start] + middle + s[end..]
  }

  /** The file after marking, before any compaction. */
  function MarkRows(rows: seq<Row>, file: string, uuid: string, status: string): seq<Row> {
    var place := FindEntry(rows, 0, None, file);
    var added := NewRows(file, uuid, status);
    if place.entry.Some? then
      Splice(rows, place.entry.value, SubsEnd(rows, place.entry.value + 1), added)
    else if place.section.Some? then
      var at := SectionEnd(rows, place.section.value + 1);
      Splice(rows, at, at, added)
    else rows + [Row(BlankLine, false), Row(SectionHeader, true)] + added
  }

  function NewLines(file: string, uuid: string, status: string): seq<string> {
    ["- file: " + file, "  last_uuid: " + uuid, "  status: " + status]
  }

  predicate AllOneLine(lines: seq<string>) {
    forall k | 0 <= k < |lines| :: OneLine(lines[k])
  }

  /** A name or value that comes back as it was written. */
  predicate Plain(s: string) {
    Trim(s) && OneLine(s)
  }

  lemma ReadField(indent: string, field: string, gap: string, value: string)
    requires Trim(value) && Trim(field) && field != "" && AllSpace(indent) && AllSpace(gap)
    ensures
      var text := Strip(indent + field + gap + value);
      StartsWith(text, field) && Strip(text[|field|..]) == value
  {
    if value == "" {
      StripAround(indent, field, gap);
      assert indent + field + gap + value == indent + field + gap;
    } else {
      var text := field + gap + value;
      assert text[|text| - 1] == value[|value| - 1] && text[0] == field[0];
      StripAround(indent, text, "");
      assert indent + field + gap + value == indent + text + "";
      StripAround(gap, value, "");
      assert text[|field|..] == gap + value + "";
    }
  }

  /** The line stays in the section if it opens with a space, a tab or a dash. */
  predicate Inner(raw: string) {
    raw != "" && raw[0] in {' ', '\t', '-'}
  }

  /** An entry's line, however it is indented and spaced. */
  lemma FileLineReads(indent: string, gap: string, file: string)
    requires Trim(file) && AllSpace(indent) && AllSpace(gap)
    ensures
      var raw := indent + "- file:" + gap + file;
      Read(raw) == Row(FileLine(file), !Inner(raw))
  {
    ReadField(indent, "- file:", gap, file);
    assert Strip(indent + "- file:" + gap + file)[0] == '-';
  }

  lemma UuidLineReads(indent: string, gap: string, uuid: string)
    requires Trim(uuid) && AllSpace(indent) && AllSpace(gap)
    ensures
      var raw := indent + "last_uuid:" + gap + uuid;
      Read(raw) == Row(UuidLine(uuid), !Inner(raw))
  {
    ReadField(indent, "last_uuid:", gap, uuid);
    assert Strip(indent + "last_uuid:" + gap + uuid)[0] == 'l';
  }

  lemma StatusLineReads(indent: string, gap: string, status: string)
    requires Trim(status) && AllSpace(indent) && AllSpace(gap)
    ensures
      var raw := indent + "status:" + gap + status;
      Read(raw) == Row(StatusLine(status), !Inner(raw))
  {
    ReadField(indent, "status:", gap, status);
    assert Strip(indent + "status:" + gap + status)[0] == 's';
  }

  lemma HeaderReads(indent: string, gap: string)
    requires AllSpace(indent) && AllSpace(gap)
    ensures Read(indent + "processed_v2:" + gap).body == SectionHeader
  {
    assert Trim("processed_v2:");
    StripAround(indent, "processed_v2:", gap);
  }

  lemma WrittenFileLine(file: string)
    requires Trim(file)
    ensures Read("- file: " + file) == Row(FileLine(file), false)
  {
    FileLineReads("", " ", file);
    assert "" + "- file:" + " " + file == "- file: " + file;
  }

  lemma WrittenUuidLine(uuid: string)
    requires Trim(uuid)
    ensures Read("  last_uuid: " + uuid) == Row(UuidLine(uuid), false)
  {
    UuidLineReads("  ", " ", uuid);
    assert "  " + "last_uuid:" + " " + uuid == "  last_uuid: " + uuid;
  }

  lemma WrittenStatusLine(status: string)
    requires Trim(status)
    ensures Read("  status: " + status) == Row(StatusLine(status), false)
  {
    StatusLineReads("  ", " ", status);
    assert "  " + "status:" + " " + status == "  status: " + status;
  }

  /** The lines written for an entry read back as that entry. */
  lemma NewLinesRead(file: string, uuid: string, status: string)
    requires Plain(file) && Plain(uuid) && Plain(status)
    ensures Rows(NewLines(file, uuid, status)) == NewRows(file, uuid, status)
    ensures AllOneLine(NewLines(file, uuid, status))
  {
    WrittenFileLine(file);
    WrittenUuidLine(uuid);
    WrittenStatusLine(status);
  }

  lemma ShortLineReads(file: string)
    requires Plain(file)
    ensures Rows(["- file: " + file]) == [Row(FileLine(file), false)] && AllOneLine(["- file: " + file])
  {
    WrittenFileLine(file);
  }

  lemma RowsOfSplice(lines: seq<string>, start: nat, end: nat, middle: seq<string>)
    requires start <= end <= |lines| && AllOneLine(lines) && AllOneLine(middle)
    ensures AllOneLine(Splice(lines, start, end, middle))
    ensures Rows(Splice(lines, start, end, middle)) == Splice(Rows(lines), start, end, Rows(middle))
  {
  }

  /** The search for the entry, as `_mark_processed_locked` runs it. */
  method Locate(rows: seq<Row>, file: string) returns (place: Place, end: nat)
    ensures place == FindEntry(rows, 0, None, file)
    ensures place.entry.Some? ==> end == SubsEnd(rows, place.entry.value + 1)
  {
    var section: Option<nat> := None;
    var i := 0;
    end := 0;
    while i < |rows|
      invariant 0 <= i <= |rows| && (section.Some? ==> section.value < |rows|)
      invariant FindEntry(rows, i, section, file) == FindEntry(rows, 0, None, file)
    {
      if rows[i].body.SectionHeader? {
        section := Some(i);
      } else if section.Some? {
        if Leaves(rows[i]) {
          return Place(section, None), end;
        }
        if rows[i].body == FileLine(file) {
          end := i + 1;
          while end < |rows| && IsSub(rows[end])
            invariant i < end <= |rows|
            invariant SubsEnd(rows, end) == SubsEnd(rows, i + 1)
          {
            end := end + 1;
          }
          return Place(section, Some(i)), end;
        }
      }
      i := i + 1;
    }
    place := Place(section, None);
  }

  method FindSectionEnd(rows: seq<Row>, from: nat) returns (at: nat)
    requires from <= |rows|
    ensures at == SectionEnd(rows, from)
  {
    at := from;
    while at < |rows| && !Leaves(rows[at])
      invariant from <= at <= |rows|
      invariant SectionEnd(rows, at) == SectionEnd(rows, from)
    {
      at := at + 1;
    }
  }

  method MarkLines(given: seq<string>, file: string, uuid: string, status: string) returns (lines: seq<string>)
    requires Plain(file) && Plain(uuid) && Plain(status) && AllOneLine(given)
    ensures Rows(lines) == MarkRows(Rows(given), file, uuid, status) && AllOneLine(lines)
  {
    var added := NewLines(file, uuid, status);
    NewLinesRead(file, uuid, status);
    var rows := Rows(given);
    var place, end := Locate(rows, file);
    if place.entry.Some? {
      RowsOfSplice(given, place.entry.value, end, added);
      lines := Splice(given, place.entry.value, end, added);
    } else if place.section.Some? {
      var at := FindSectionEnd(rows, place.section.value + 1);
      RowsOfSplice(given, at, at, added);
      lines := Splice(given, at, at, added);
    } else {
      HeaderIsAdded(given, added);
      lines := given + ["", "processed_v2:"] + added;
    }
  }

  lemma RowsOfConcat(a: seq<string>, b: seq<string>)
    ensures AllOneLine(a) && AllOneLine(b) ==> AllOneLine(a + b)
    ensures Rows(a + b) == Rows(a) + Rows(b)
  {
  }

  lemma HeaderLinesRead()
    ensures Rows(["", "processed_v2:"]) == [Row(BlankLine, false), Row(SectionHeader, true)]
    ensures AllOneLine(["", "processed_v2:"])
  {
    HeaderReads("", "");
    assert "" + "processed_v2:" + "" == "processed_v2:";
  }

  lemma HeaderIsAdded(given: seq<string>, added: seq<string>)
    requires AllOneLine(given) && AllOneLine(added)
    ensures
      var lines := given + ["", "processed_v2:"] + added;
      && AllOneLine(lines)
      && Rows(lines) == Rows(given) + [Row(BlankLine, false), Row(SectionHeader, true)] + Rows(added)
  {
    var header := ["", "processed_v2:"];
    HeaderLinesRead();
    RowsOfConcat(given, header);
    RowsOfConcat(given + header, added);
  }

  // ----- Compacting -----

  datatype Span = Span(start: nat, end: nat, file: string, status: string)

  /** The last status among the sub-lines in `rows[j..end]`; sealed without any. */
  function SubsStatus(rows: seq<Row>, j: nat, end: nat): string
    requires j <= end <= |rows|
  {
    if j == end then "sealed"
    else if rows[end - 1].body.StatusLine? then rows[end - 1].body.status
    else SubsStatus(rows, j, end - 1)
  }

  /** The entries of the section, from line `i` on. */
  function Collect(rows: seq<Row>, i: nat, inside: bool): seq<Span>
    requires i <= |rows|
    decreases |rows| - i
  {
    if i == |rows| then []
    else if rows[i].body.SectionHeader? then Collect(rows, i + 1, true)
    else if inside && Leaves(rows[i]) then []
    else if inside && rows[i].body.FileLine? then
      var end := SubsEnd(rows, i + 1);
      [Span(i, end, rows[i].body.file, SubsStatus(rows, i + 1, end))] + Collect(rows, end, inside)
    else Collect(rows, i + 1, inside)
  }

  predicate IsSealed(span: Span) {
    span.status == "sealed"
  }

  predicate IsFull(span: Span) {
    span.end != span.start + 1
  }

  function Sealed(spans: seq<Span>): seq<Span> {
    if spans == [] then []
    else if IsSealed(spans[0]) then [spans[0]] + Sealed(spans[1..])
    else Sealed(spans[1..])
  }

  /** The first `n` sealed entries that are still in full. */
  function FirstFull(spans: seq<Span>, n: nat): seq<Span> {
    if spans == [] || n == 0 then []
    else if IsSealed(spans[0]) && IsFull(spans[0]) then [spans[0]] + FirstFull(spans[1..], n - 1)
    else FirstFull(spans[1..], n)
  }

  /** Spans one after the other within `rows[..n]`. */
  predicate Apart(spans: seq<Span>, n: nat) {
    spans == [] ||
    var last := spans[|spans| - 1];
    last.start < last.end <= n && Apart(spans[..|spans| - 1], last.start)
  }

  /** Each span cut down to its file line, from the last to the first. */
  function Compacted(rows: seq<Row>, spans: seq<Span>): seq<Row>
    requires Apart(spans, |rows|)
    decreases |spans|
  {
    if spans == [] then rows
    else
      var last := spans[|spans| - 1];
      ApartMore(spans[..|spans| - 1], last.start,
                |Splice(rows, last.start, last.end, [Row(FileLine(last.file), false)])|);
      Compacted(Splice(rows, last.start, last.end, [Row(FileLine(last.file), false)]), spans[..|spans| - 1])
  }

  lemma {:induction false} ApartMore(spans: seq<Span>, n: nat, m: nat)
    requires Apart(spans, n) && n <= m
    ensures Apart(spans, m)
  {
  }

  /** Spans at or after line `i`, in order. */
  predicate Ordered(spans: seq<Span>, i: nat, n: nat) {
    spans == [] || (i <= spans[0].start < spans[0].end <= n && Ordered(spans[1..], spans[0].end, n))
  }

  lemma {:induction false} CollectIsOrdered(rows: seq<Row>, i: nat, inside: bool)
    requires i <= |rows|
    ensures Ordered(Collect(rows, i, inside), i, |rows|)
    decreases |rows| - i
  {
    if i < |rows| {
      if rows[i].body.SectionHeader? {
        CollectIsOrdered(rows, i + 1, true);
        OrderedEarlier(Collect(rows, i + 1, true), i + 1, i, |rows|);
      } else if inside && rows[i].body.FileLine? && !Leaves(rows[i]) {
        var end := SubsEnd(rows, i + 1);
        CollectIsOrdered(rows, end, inside);
        var rest := Collect(rows, end, inside);
        var span := Span(i, end, rows[i].body.file, SubsStatus(rows, i + 1, end));
        assert ([span] + rest)[1..] == rest;
      } else if !(inside && Leaves(rows[i])) {
        CollectIsOrdered(rows, i + 1, inside);
        OrderedEarlier(Collect(rows, i + 1, inside), i + 1, i, |rows|);
      }
    }
  }

  lemma {:induction false} OrderedEarlier(spans: seq<Span>, i: nat, j: nat, n: nat)
    requires Ordered(spans, i, n) && j <= i
    ensures Ordered(spans, j, n)
  {
  }

  lemma {:induction false} FirstFullIsOrdered(spans: seq<Span>, k: nat, i: nat, n: nat)
    requires Ordered(spans, i, n)
    ensures Ordered(FirstFull(spans, k), i, n)
    decreases |spans|
  {
    if spans != [] && k > 0 {
      if IsSealed(spans[0]) && IsFull(spans[0]) {
        FirstFullIsOrdered(spans[1..], k - 1, spans[0].end, n);
        assert ([spans[0]] + FirstFull(spans[1..], k - 1))[1..] == FirstFull(spans[1..], k - 1);
      } else {
        FirstFullIsOrdered(spans[1..], k, spans[0].end, n);
        OrderedEarlier(FirstFull(spans[1..], k), spans[0].end, i, n);
      }
    }
  }

  lemma {:induction false} OrderedIsApart(spans: seq<Span>, i: nat, n: nat)
    requires Ordered(spans, i, n)
    ensures Apart(spans, n)
    ensures spans != [] ==> i <= spans[|spans| - 1].start
    decreases |spans|
  {
    if spans != [] {
      var front, last := spans[..|spans| - 1], spans[|spans| - 1];
      OrderedFront(spans, i, n);
      OrderedIsApart(front, i, last.start);
    }
  }

  lemma OrderedFront(spans: seq<Span>, i: nat, n: nat)
    requires Ordered(spans, i, n) && spans != []
    ensures
      var last := spans[|spans| - 1];
      i <= last.start < last.end <= n && Ordered(spans[..|spans| - 1], i, last.start)
    decreases |spans|
  {
    if |spans| > 1 {
      OrderedFront(spans[1..], spans[0].end, n);
      assert spans[1..][..|spans| - 2] == spans[..|spans| - 1][1..];
    }
  }

  lemma {:induction false} SpansApart(rows: seq<Row>, k: nat)
    ensures Apart(FirstFull(Collect(rows, 0, false), k), |rows|)
  {
    CollectIsOrdered(rows, 0, false);
    FirstFullIsOrdered(Collect(rows, 0, false), k, 0, |rows|);
    OrderedIsApart(FirstFull(Collect(rows, 0, false), k), 0, |rows|);
  }

  /** `_gc_compact_old_sealed`. */
  function GcRows(rows: seq<Row>, threshold: nat, keep: nat): seq<Row>
    requires keep <= threshold
  {
    var spans := Collect(rows, 0, false);
    var total := |Sealed(spans)|;
    if total <= threshold then rows
    else
      SpansApart(rows, total - keep);
      Compacted(rows, FirstFull(spans, total - keep))
  }

  method CompactLines(given: seq<string>, spans: seq<Span>) returns (lines: seq<string>)
    requires AllOneLine(given) && Apart(spans, |given|)
    requires forall k | 0 <= k < |spans| :: Plain(spans[k].file)
    ensures AllOneLine(lines) && Rows(lines) == Compacted(Rows(given), spans)
  {
    lines := given;
    assert spans[..|spans|] == spans;
    for k := |spans| downto 0
      invariant AllOneLine(lines) && Apart(spans[..k], |lines|)
      invariant Compacted(Rows(lines), spans[..k]) == Compacted(Rows(given), spans)
    {
      var span := spans[k];
      assert spans[..k + 1][..k] == spans[..k] && spans[..k + 1][k] == span;
      ShortLineReads(span.file);
      var short := ["- file: " + span.file];
      RowsOfSplice(lines, span.start, span.end, short);
      ApartMore(spans[..k], span.start, |Splice(lines, span.start, span.end, short)|);
      lines := Splice(lines, span.start, span.end, short);
    }
    assert spans[..0] == [];
  }

  /** Names come from stripped lines, so they are written back as they were read. */
  lemma {:induction false} CollectedNamesArePlain(lines: seq<string>, i: nat, inside: bool)
    requires i <= |lines| && AllOneLine(lines)
    ensures forall k | 0 <= k < |Collect(Rows(lines), i, inside)| :: Plain(Collect(Rows(lines), i, inside)[k].file)
    decreases |lines| - i
  {
    var rows := Rows(lines);
    if i < |lines| {
      if rows[i].body.SectionHeader? {
        CollectedNamesArePlain(lines, i + 1, true);
      } else if inside && rows[i].body.FileLine? && !Leaves(rows[i]) {
        ReadNameIsPlain(lines[i]);
        CollectedNamesArePlain(lines, SubsEnd(rows, i + 1), inside);
      } else if !(inside && Leaves(rows[i])) {
        CollectedNamesArePlain(lines, i + 1, inside);
      }
    }
  }

  lemma ReadNameIsPlain(raw: string)
    requires OneLine(raw) && Read(raw).body.FileLine?
    ensures Plain(Read(raw).body.file)
  {
    var text := Strip(raw);
    StripTrims(raw);
    StripTrims(text[7..]);
    assert forall c | c in text[7..] :: c in text;
  }

  lemma {:induction false} FirstFullAreAmong(spans: seq<Span>, n: nat)
    ensures forall k | 0 <= k < |FirstFull(spans, n)| :: FirstFull(spans, n)[k] in spans
    decreases |spans|
  {
    if spans != [] && n > 0 {
      FirstFullAreAmong(spans[1..], if IsSealed(spans[0]) && IsFull(spans[0]) then n - 1 else n);
    }
  }

  /** The scan over the section. */
  method CollectEntries(rows: seq<Row>) returns (spans: seq<Span>)
    ensures spans == Collect(rows, 0, false)
  {
    spans := [];
    var inside := false;
    var i := 0;
    while i < |rows|
      invariant 0 <= i <= |rows|
      invariant spans + Collect(rows, i, inside) == Collect(rows, 0, false)
    {
      if rows[i].body.SectionHeader? {
        inside := true;
      } else if inside {
        if Leaves(rows[i]) {
          return;
        }
        if rows[i].body.FileLine? {
          var end, status := ReadSubs(rows, i + 1);
          var span := Span(i, end, rows[i].body.file, status);
          assert spans + ([span] + Collect(rows, end, inside)) == (spans + [span]) + Collect(rows, end, inside);
          spans := spans + [span];
          i := end;
          continue;
        }
      }
      i := i + 1;
    }
  }

  method ReadSubs(rows: seq<Row>, from: nat) returns (end: nat, status: string)
    requires from <= |rows|
    ensures end == SubsEnd(rows, from) && status == SubsStatus(rows, from, end)
  {
    end, status := from, "sealed";
    while end < |rows| && IsSub(rows[end])
      invariant from <= end <= |rows|
      invariant SubsEnd(rows, end) == SubsEnd(rows, from) && status == SubsStatus(rows, from, end)
    {
      if rows[end].body.StatusLine? {
        status := rows[end].body.status;
      }
      end := end + 1;
    }
  }

  method GcCompactOldSealed(given: seq<string>, threshold: nat, keep: nat) returns (lines: seq<string>)
    requires AllOneLine(given) && keep <= threshold
    ensures AllOneLine(lines) && Rows(lines) == GcRows(Rows(given), threshold, keep)
  {
    var rows := Rows(given);
    var spans := CollectEntries(rows);
    var total := |Sealed(spans)|;
    if total <= threshold {
      return given;
    }
    var compactable := FirstFull(spans, total - keep);
    SpansApart(rows, total - keep);
    CollectedNamesArePlain(given, 0, false);
    FirstFullAreAmong(spans, total - keep);
    lines := CompactLines(given, compactable);
  }

  /** The file after one call of `mark_processed`, as rows. */
  function MarkAndGc(rows: seq<Row>, file: string, uuid: string, status: string): seq<Row> {
    GcRows(MarkRows(rows, file, uuid, status), SEALED_GC_THRESHOLD, SEALED_GC_KEEP_FULL)
  }

  /** `_mark_processed_locked`: the whole read, change and write of the file. */
  method MarkProcessed(content: string, file: string, uuid: string, status: string) returns (written: string)
    requires Plain(file) && Plain(uuid) && Plain(status)
    ensures Rows(SplitLines(written)) == MarkAndGc(Rows(SplitLines(content)), file, uuid, status)
  {
    var lines := SplitLines(content);
    lines := MarkLines(lines, file, uuid, status);
    lines := GcCompactOldSealed(lines, SEALED_GC_THRESHOLD, SEALED_GC_KEEP_FULL);
    MarkAndGcIsNotEmpty(Rows(SplitLines(content)), file, uuid, status);
    SplitOfJoined(lines);
    written := JoinLines(lines);
  }

  lemma {:induction false} CompactedIsNotEmpty(rows: seq<Row>, spans: seq<Span>)
    requires Apart(spans, |rows|) && rows != []
    ensures Compacted(rows, spans) != []
    decreases |spans|
  {
    if spans != [] {
      var last := spans[|spans| - 1];
      var next := Splice(rows, last.start, last.end, [Row(FileLine(last.file), false)]);
      ApartMore(spans[..|spans| - 1], last.start, |next|);
      CompactedIsNotEmpty(next, spans[..|spans| - 1]);
    }
  }

  lemma MarkAndGcIsNotEmpty(rows: seq<Row>, file: string, uuid: string, status: string)
    ensures MarkAndGc(rows, file, uuid, status) != []
  {
    var marked := MarkRows(rows, file, uuid, status);
    var spans := Collect(marked, 0, false);
    var total := |Sealed(spans)|;
    if total > SEALED_GC_THRESHOLD {
      SpansApart(marked, total - SEALED_GC_KEEP_FULL);
      CompactedIsNotEmpty(marked, FirstFull(spans, total - SEALED_GC_KEEP_FULL));
    }
  }
}
