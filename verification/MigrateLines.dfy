/** The lines of the texts that `migrate` writes: every line that is not blank is
    still there, once, and where it belongs. */
module MigrateLines {
  import opened Prelude
  import opened Text
  import opened Migrate

  // ----- Lines of texts -----

  /** What is left of a line: itself without the space around it, unless blank. */
  function Mark(line: string): seq<string> {
    if Strip(line) == "" then [] else [Strip(line)]
  }

  /** The lines that are not blank, without the space around them. */
  function Written(lines: seq<string>): seq<string> {
    if lines == [] then [] else Mark(lines[0]) + Written(lines[1..])
  }

  function TextLines(text: string): seq<string> {
    Written(SplitLines(text))
  }

  lemma {:induction false} WrittenConcat(a: seq<string>, b: seq<string>)
    ensures Written(a + b) == Written(a) + Written(b)
    decreases |a|
  {
    if a == [] {
      assert a + b == b;
    } else {
      assert (a + b)[0] == a[0] && (a + b)[1..] == a[1..] + b;
      WrittenConcat(a[1..], b);
    }
  }

  lemma WrittenOfOne(line: string)
    ensures Written([line]) == Mark(line)
  {
    assert [line][1..] == [];
  }

  lemma EmptyLineIsBlank()
    ensures Written([""]) == [] && TextLines("") == []
  {
    WrittenOfOne("");
  }

  lemma {:induction false} WrittenOfLast(front: seq<string>, line: string)
    ensures Written(front + [line]) == Written(front) + Mark(line)
  {
    WrittenConcat(front, [line]);
    WrittenOfOne(line);
  }

  /** A space or newline at the end of a text adds no line. */
  lemma TrailingSpaceIsBlank(text: string, c: char)
    requires IsSpace(c)
    ensures TextLines(text + [c]) == TextLines(text)
  {
    var lines := SplitLines(text);
    assert (text + [c])[..|text|] == text;
    var front, last := lines[..|lines| - 1], lines[|lines| - 1];
    assert lines == front + [last];
    if c == '\n' {
      EmptyLineIsBlank();
      WrittenOfLast(lines, "");
    } else {
      StripForgetsSpaces(last, c);
      WrittenOfLast(front, last);
      WrittenOfLast(front, last + [c]);
    }
  }

  lemma {:induction false} SplitAfterNewline(text: string)
    ensures SplitLines("\n" + text) == [""] + SplitLines(text)
  {
    SplitOfConcat("", text);
    assert "" + "\n" + text == "\n" + text;
  }

  /** One more character ahead touches only the first line. */
  lemma {:induction false} SplitAhead(c: char, text: string)
    requires c != '\n'
    ensures SplitLines([c] + text) == Ahead(c, SplitLines(text))
    decreases |text|
  {
    if text == "" {
      SplitGrows("", [], [""], c);
      assert [c] + text == "" + [c];
      assert [c] + "" == "" + [c];
    } else {
      var front, last := text[..|text| - 1], text[|text| - 1];
      assert text == front + [last] && [c] + text == ([c] + front) + [last];
      SplitAhead(c, front);
      SplitGrows(front, [], SplitLines(front), last);
      SplitGrows([c] + front, [], Ahead(c, SplitLines(front)), last);
      AheadAndBehind(c, SplitLines(front), last);
    }
  }

  function Ahead(c: char, lines: seq<string>): (ahead: seq<string>)
    requires lines != []
    ensures ahead != []
  {
    [[c] + lines[0]] + lines[1..]
  }

  function Behind(lines: seq<string>, c: char): (behind: seq<string>)
    requires lines != []
    ensures behind != []
  {
    if c == '\n' then lines + [""] else lines[..|lines| - 1] + [lines[|lines| - 1] + [c]]
  }

  lemma AheadAndBehind(c: char, lines: seq<string>, last: char)
    requires lines != []
    ensures Behind(Ahead(c, lines), last) == Ahead(c, Behind(lines, last))
  {
    if |lines| == 1 {
      assert ([c] + lines[0]) + [last] == [c] + (lines[0] + [last]);
    }
  }

  lemma LeadingSpaceIsBlank(text: string, c: char)
    requires IsSpace(c)
    ensures TextLines([c] + text) == TextLines(text)
  {
    var lines := SplitLines(text);
    if c == '\n' {
      SplitAfterNewline(text);
      EmptyLineIsBlank();
      WrittenConcat([""], lines);
      Nothing(Written(lines));
    } else {
      SplitAhead(c, text);
      StripForgetsSpaces(lines[0], c);
      WrittenConcat([[c] + lines[0]], lines[1..]);
      WrittenConcat([lines[0]], lines[1..]);
      WrittenOfOne([c] + lines[0]);
      WrittenOfOne(lines[0]);
      assert [lines[0]] + lines[1..] == lines;
    }
  }

  lemma {:induction false} StripLeftKeepsLines(text: string)
    ensures TextLines(StripLeft(text)) == TextLines(text)
  {
    if text != "" && IsSpace(text[0]) {
      StripLeftKeepsLines(text[1..]);
      LeadingSpaceIsBlank(text[1..], text[0]);
      HeadAndTail(text);
    }
  }

  lemma {:induction false} StripRightKeepsLines(text: string)
    ensures TextLines(StripRight(text)) == TextLines(text)
  {
    if text != "" && IsSpace(text[|text| - 1]) {
      var front := text[..|text| - 1];
      StripRightKeepsLines(front);
      TrailingSpaceIsBlank(front, text[|text| - 1]);
      FrontAndLast(text);
    }
  }

  /** Stripping a text keeps its lines. */
  lemma StripKeepsLines(text: string)
    ensures TextLines(Strip(text)) == TextLines(text)
  {
    StripLeftKeepsLines(text);
    StripRightKeepsLines(StripLeft(text));
  }

  // ----- Blocks and their texts -----

  predicate LinesOk(lines: seq<string>) {
    forall k | 0 <= k < |lines| :: OneLine(lines[k])
  }

  lemma {:induction false} BlockTextIs(block: seq<string>)
    requires LinesOk(block)
    ensures TextLines(BlockText(block)) == Written(block)
  {
    StripKeepsLines(JoinLines(block));
    if block == [] {
      EmptyLineIsBlank();
    } else {
      SplitOfJoined(block);
    }
  }

  /** The lines of a list of blocks. */
  function BlockLines(blocks: seq<seq<string>>): seq<string> {
    if blocks == [] then [] else Written(blocks[0]) + BlockLines(blocks[1..])
  }

  function PartLines(parts: seq<string>): seq<string> {
    if parts == [] then [] else TextLines(parts[0]) + PartLines(parts[1..])
  }

  predicate BlocksLinesOk(blocks: seq<seq<string>>) {
    forall k | 0 <= k < |blocks| :: LinesOk(blocks[k])
  }

  lemma {:induction false} TextsAre(blocks: seq<seq<string>>)
    requires BlocksLinesOk(blocks)
    ensures PartLines(Texts(blocks)) == BlockLines(blocks)
  {
    if blocks != [] {
      BlockTextIs(blocks[0]);
      TextsAre(blocks[1..]);
    }
  }

  lemma {:induction false} JoinIs(parts: seq<string>)
    ensures TextLines(Join(parts, "\n\n")) == PartLines(parts)
    decreases |parts|
  {
    if parts == [] {
      EmptyLineIsBlank();
    } else if |parts| == 1 {
      assert parts[1..] == [];
      assert PartLines(parts) == TextLines(parts[0]) + [];
    } else {
      var rest := Join(parts[1..], "\n\n");
      JoinIs(parts[1..]);
      var head := parts[0] + "\n";
      assert parts[0] + "\n\n" + rest == head + "\n" + rest;
      TrailingSpaceIsBlank(parts[0], '\n');
      SplitOfConcat(head, rest);
      WrittenConcat(SplitLines(head), SplitLines(rest));
    }
  }

  lemma {:induction false} PartLinesConcat(a: seq<string>, b: seq<string>)
    ensures PartLines(a + b) == PartLines(a) + PartLines(b)
    decreases |a|
  {
    if a == [] {
      assert a + b == b;
    } else {
      assert (a + b)[0] == a[0] && (a + b)[1..] == a[1..] + b;
      PartLinesConcat(a[1..], b);
    }
  }

  lemma {:induction false} PartLinesMore(part: string, rest: seq<string>)
    ensures PartLines([part] + rest) == TextLines(part) + PartLines(rest)
  {
    assert ([part] + rest)[1..] == rest;
  }

  lemma {:induction false} EmptyPartLinesNothing(parts: seq<string>)
    ensures PartLines(NonEmpty(parts)) == PartLines(parts)
  {
    if parts != [] {
      EmptyPartLinesNothing(parts[1..]);
      var rest := NonEmpty(parts[1..]);
      if parts[0] == "" {
        EmptyLineIsBlank();
        Nothing(PartLines(parts[1..]));
        Nothing(rest);
      } else {
        PartLinesMore(parts[0], rest);
      }
    }
  }

  /** A moved file holds its blocks' lines, in their order. */
  lemma {:induction false} BodyIs(group: seq<seq<string>>)
    requires BlocksLinesOk(group)
    ensures TextLines(Body(group)) == BlockLines(group)
  {
    TextsAre(group);
    JoinIs(Texts(group));
    TrailingSpaceIsBlank(Join(Texts(group), "\n\n"), '\n');
  }

  lemma {:induction false} TextsJoin(a: seq<seq<string>>, b: seq<seq<string>>)
    ensures Texts(a + b) == Texts(a) + Texts(b)
    decreases |a|
  {
    if a == [] {
      assert a + b == b;
    } else {
      assert (a + b)[0] == a[0] && (a + b)[1..] == a[1..] + b;
      TextsJoin(a[1..], b);
    }
  }

  /** In a moved file one empty line stands between blocks, and none elsewhere but
      within them. */
  lemma {:induction false} BodiesStandApart(a: seq<seq<string>>, b: seq<seq<string>>)
    requires a != [] && b != []
    ensures Body(a + b) == Body(a) + "\n" + Body(b)
    ensures |a| == 1 ==> Body(a) == Strip(JoinLines(a[0])) + "\n"
  {
    TextsJoin(a, b);
    JoinJoins(Texts(a), Texts(b), "\n\n");
    if |a| == 1 {
      assert a[1..] == [];
    }
  }

  // ----- Comments -----

  /** The comments of a block, as they end up in HEARTBEAT.md one by one. */
  lemma {:induction false} CommentsAre(block: seq<string>)
    requires LinesOk(block)
    ensures PartLines(Comments(block)) == Written(Comments(block))
  {
    if block != [] {
      var rest := Comments(block[1..]);
      CommentsAre(block[1..]);
      if IsComment(block[0]) {
        OneLineIs(block[0]);
        PartLinesMore(block[0], rest);
        WrittenMore(block[0], rest);
      } else {
        Nothing(rest);
      }
    }
  }

  lemma {:induction false} WrittenMore(line: string, rest: seq<string>)
    ensures Written([line] + rest) == Mark(line) + Written(rest)
  {
    assert ([line] + rest)[1..] == rest;
  }

  lemma OneLineIs(line: string)
    requires OneLine(line)
    ensures TextLines(line) == Mark(line)
  {
    SplitOfAppended("", line);
    assert "" + line == line;
    assert SplitLines(line) == [line];
    WrittenOfOne(line);
  }

  /** The comment lines of the blocks that name a project, in their order. */
  function CommentLines(blocks: seq<seq<string>>): seq<string> {
    if blocks == [] then []
    else (if BlockSlug(blocks[0]) == "" then [] else Written(Comments(blocks[0]))) + CommentLines(blocks[1..])
  }

  lemma {:induction false} TakenCommentsAre(blocks: seq<seq<string>>)
    requires BlocksLinesOk(blocks)
    ensures PartLines(TakenComments(blocks)) == CommentLines(blocks)
  {
    if blocks != [] {
      CommentsAre(blocks[0]);
      TakenCommentsAre(blocks[1..]);
      PartLinesConcat(if BlockSlug(blocks[0]) == "" then [] else Comments(blocks[0]), TakenComments(blocks[1..]));
    }
  }

  // ----- Texts without lines -----

  /** Only the empty text has no line that is not blank. */
  predicate Fine(text: string) {
    TextLines(text) == [] ==> text == ""
  }

  lemma {:induction false} FirstCharStays(text: string)
    requires text != "" && text[0] != '\n'
    ensures SplitLines(text)[0] != "" && SplitLines(text)[0][0] == text[0]
    decreases |text|
  {
    if |text| > 1 {
      FirstCharStays(text[..|text| - 1]);
    }
  }

  lemma StrippedTextIsFine(text: string)
    ensures Fine(Strip(text))
  {
    var s := Strip(text);
    if s != "" {
      StripTrims(text);
      FirstCharStays(s);
      var lines := SplitLines(s);
      StripSpans(lines[0], 0, 0);
      assert Mark(lines[0]) != [];
    }
  }

  lemma {:induction false} TextsAreFine(blocks: seq<seq<string>>, part: string)
    requires part in Texts(blocks)
    ensures Fine(part)
  {
    if part == BlockText(blocks[0]) {
      StrippedTextIsFine(JoinLines(blocks[0]));
    } else {
      TextsAreFine(blocks[1..], part);
    }
  }

  lemma {:induction false} CommentsAreFine(block: seq<string>, part: string)
    requires LinesOk(block) && part in Comments(block)
    ensures Fine(part)
  {
    if IsComment(block[0]) && part == block[0] {
      OneLineIs(part);
    } else {
      CommentsAreFine(block[1..], part);
    }
  }

  lemma {:induction false} TakenCommentsAreFine(blocks: seq<seq<string>>, part: string)
    requires BlocksLinesOk(blocks) && part in TakenComments(blocks)
    ensures Fine(part)
  {
    if part in TakenComments(blocks[1..]) {
      TakenCommentsAreFine(blocks[1..], part);
    } else {
      CommentsAreFine(blocks[0], part);
    }
  }

  lemma {:induction false} NoPartsNoLines(parts: seq<string>)
    requires forall part | part in parts :: Fine(part)
    ensures NonEmpty(parts) == [] <==> PartLines(parts) == []
  {
    if parts != [] {
      EmptyLineIsBlank();
      assert parts[0] in parts;
      NoPartsNoLines(parts[1..]);
    }
  }

  const DEFAULT_LINE := "# HEARTBEAT"

  lemma DefaultTextIs()
    ensures TextLines("# HEARTBEAT\n") == [DEFAULT_LINE]
  {
    assert DEFAULT_LINE + ['\n'] == "# HEARTBEAT\n";
    TrailingSpaceIsBlank(DEFAULT_LINE, '\n');
    assert Trim(DEFAULT_LINE);
    TrimIsStripped(DEFAULT_LINE);
    OneLineIs(DEFAULT_LINE);
  }

  // ----- The new HEARTBEAT.md -----

  /** The new HEARTBEAT.md holds the lines of its preamble, the comments of the
      blocks taken out and the lines of the kept blocks, in this order; one line if
      there are none. */
  lemma {:induction false} NewMainIs(preamble: seq<string>, blocks: seq<seq<string>>, kept: seq<seq<string>>)
    requires LinesOk(preamble) && BlocksLinesOk(blocks) && BlocksLinesOk(kept)
    ensures
      var lines := Written(preamble) + CommentLines(blocks) + BlockLines(kept);
      TextLines(NewMain(preamble, TakenComments(blocks), kept)) == if lines == [] then [DEFAULT_LINE] else lines
  {
    var comments := TakenComments(blocks);
    var head := [BlockText(preamble)];
    var all := head + comments + Texts(kept);
    var parts := NonEmpty(all);
    EmptyPartLinesNothing(all);
    PartLinesConcat(head + comments, Texts(kept));
    PartLinesConcat(head, comments);
    BlockTextIs(preamble);
    TakenCommentsAre(blocks);
    TextsAre(kept);
    assert PartLines(head) == Written(preamble) by {
      assert head[1..] == [];
    }
    forall part | part in all
      ensures Fine(part)
    {
      if part in comments {
        TakenCommentsAreFine(blocks, part);
      } else if part in Texts(kept) {
        TextsAreFine(kept, part);
      } else {
        StrippedTextIsFine(JoinLines(preamble));
      }
    }
    NoPartsNoLines(all);
    if parts == [] {
      DefaultTextIs();
    } else {
      JoinIs(parts);
      TrailingSpaceIsBlank(Join(parts, "\n\n"), '\n');
    }
  }

  lemma {:induction false} NonEmptyJoin(a: seq<string>, b: seq<string>)
    ensures NonEmpty(a + b) == NonEmpty(a) + NonEmpty(b)
    decreases |a|
  {
    if a == [] {
      assert a + b == b;
    } else {
      assert (a + b)[0] == a[0] && (a + b)[1..] == a[1..] + b;
      NonEmptyJoin(a[1..], b);
    }
  }

  /** In the new HEARTBEAT.md one empty line stands before a kept block, unless nothing
      came before or the block is blank. */
  lemma {:induction false} KeptStandApart(
      preamble: seq<string>, comments: seq<string>, kept: seq<seq<string>>, block: seq<string>)
    requires exists part | part in [BlockText(preamble)] + comments + Texts(kept) :: part != ""
    ensures
      var main, text := NewMain(preamble, comments, kept), Strip(JoinLines(block));
      NewMain(preamble, comments, kept + [block]) == if text == "" then main else main + "\n" + text + "\n"
  {
    var head, last := [BlockText(preamble)] + comments + Texts(kept), BlockText(block);
    OneText(block);
    TextsJoin(kept, [block]);
    Regroup([BlockText(preamble)] + comments, Texts(kept), [last]);
    var part :| part in head && part != "";
    SomePartStays(head, part);
    PartStandsApart(head, last);
  }

  lemma OneText(block: seq<string>)
    ensures Texts([block]) == [BlockText(block)]
  {
    assert [block][1..] == [];
  }

  lemma {:induction false} PartStandsApart(parts: seq<string>, last: string)
    requires NonEmpty(parts) != []
    ensures
      var before, after := NonEmpty(parts), NonEmpty(parts + [last]);
      && after != []
      && Join(after, "\n\n") == if last == "" then Join(before, "\n\n") else Join(before, "\n\n") + "\n\n" + last
  {
    NonEmptyJoin(parts, [last]);
    assert [last][1..] == [];
    Nothing(NonEmpty(parts));
    if last != "" {
      assert NonEmpty([last]) == [last];
      JoinJoins(NonEmpty(parts), [last], "\n\n");
    }
  }

  lemma {:induction false} SomePartStays(parts: seq<string>, part: string)
    requires part in parts && part != ""
    ensures NonEmpty(parts) != []
  {
    if parts[0] != part {
      SomePartStays(parts[1..], part);
    }
  }

  // ----- Cutting -----

  /** A block opens with a heading and holds no other. */
  predicate BlockOk(block: seq<string>) {
    && block != [] && OpensBlock(block[0])
    && (forall k | 1 <= k < |block| :: !OpensBlock(block[k]))
    && LinesOk(block)
  }

  predicate PartsOk(parts: Parts) {
    && LinesOk(parts.preamble)
    && (forall k | 0 <= k < |parts.preamble| :: !OpensBlock(parts.preamble[k]))
    && (forall k | 0 <= k < |parts.blocks| :: BlockOk(parts.blocks[k]))
  }

  lemma {:induction false} BlockLinesConcat(a: seq<seq<string>>, b: seq<seq<string>>)
    ensures BlockLines(a + b) == BlockLines(a) + BlockLines(b)
    decreases |a|
  {
    if a == [] {
      assert a + b == b;
    } else {
      assert (a + b)[0] == a[0] && (a + b)[1..] == a[1..] + b;
      BlockLinesConcat(a[1..], b);
    }
  }

  lemma AddedLineIs(parts: Parts, line: string)
    ensures
      var next := AddLine(parts, line);
      Written(next.preamble) + BlockLines(next.blocks)
        == Written(parts.preamble) + BlockLines(parts.blocks) + Mark(line)
  {
    var n := |parts.blocks|;
    var mark := Mark(line);
    if OpensBlock(line) {
      WrittenOfOne(line);
      BlockLinesMore(parts.blocks, [line]);
      Regroup(Written(parts.preamble), BlockLines(parts.blocks), mark);
    } else if n > 0 {
      var front, last := parts.blocks[..n - 1], parts.blocks[n - 1];
      assert parts.blocks == front + [last];
      BlockLinesMore(front, last);
      BlockLinesMore(front, last + [line]);
      WrittenOfLast(last, line);
      Regroup(BlockLines(front), Written(last), mark);
      Regroup(Written(parts.preamble), BlockLines(parts.blocks), mark);
    } else {
      WrittenOfLast(parts.preamble, line);
      assert BlockLines(parts.blocks) == [];
      Nothing(Written(parts.preamble));
      Nothing(Written(parts.preamble) + mark);
    }
  }

  lemma {:induction false} BlockLinesMore(blocks: seq<seq<string>>, block: seq<string>)
    ensures BlockLines(blocks + [block]) == BlockLines(blocks) + Written(block)
  {
    BlockLinesConcat(blocks, [block]);
    assert [block][1..] == [];
    Nothing(Written(block));
  }

  lemma AddedLineKeepsParts(parts: Parts, line: string)
    requires PartsOk(parts) && OneLine(line)
    ensures PartsOk(AddLine(parts, line))
  {
  }

  /** Cutting a text into preamble and blocks loses no line. */
  lemma {:induction false} CutIs(lines: seq<string>)
    requires LinesOk(lines)
    ensures PartsOk(CutLines(lines))
    ensures Written(lines) == Written(CutLines(lines).preamble) + BlockLines(CutLines(lines).blocks)
    decreases |lines|
  {
    if lines != [] {
      var front, last := lines[..|lines| - 1], lines[|lines| - 1];
      assert lines == front + [last];
      CutIs(front);
      AddedLineKeepsParts(CutLines(front), last);
      AddedLineIs(CutLines(front), last);
      WrittenOfLast(front, last);
    }
  }
}
