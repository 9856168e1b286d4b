/** What the texts that `migrate` writes mean: the same lines mean the same. */
module MigrateMeaning {
  import opened Prelude
  import opened Text
  import opened JobText
  import opened Migrate
  import opened MigrateLines

  // ----- Meanings of lines -----

  /** What lines say that are stripped already. */
  function Said(written: seq<string>): seq<Meaning> {
    if written == [] then [] else Heard(LineSays(written[0])) + Said(written[1..])
  }

  lemma {:induction false} SaidConcat(a: seq<string>, b: seq<string>)
    ensures Said(a + b) == Said(a) + Said(b)
    decreases |a|
  {
    if a == [] {
      assert a + b == b;
    } else {
      assert (a + b)[0] == a[0] && (a + b)[1..] == a[1..] + b;
      SaidConcat(a[1..], b);
    }
  }

  /** A line means what it says without the space around it. */
  lemma {:induction false} WrittenSays(lines: seq<string>)
    ensures Said(Written(lines)) == Meanings(lines)
  {
    if lines != [] {
      SaidConcat(Mark(lines[0]), Written(lines[1..]));
      WrittenSays(lines[1..]);
      SaidOfOne(Strip(lines[0]));
    }
  }

  /** Stripping a text keeps what it says. */
  lemma StripKeepsMeanings(text: string)
    ensures TextMeanings(Strip(text)) == TextMeanings(text)
  {
    StripKeepsLines(text);
    WrittenSays(SplitLines(Strip(text)));
    WrittenSays(SplitLines(text));
  }

  // ----- Blocks -----

  /** All that a list of blocks says. */
  function BlocksSay(blocks: seq<seq<string>>): seq<Meaning> {
    if blocks == [] then [] else Meanings(blocks[0]) + BlocksSay(blocks[1..])
  }

  lemma {:induction false} BlockLinesSay(blocks: seq<seq<string>>)
    ensures Said(BlockLines(blocks)) == BlocksSay(blocks)
  {
    if blocks != [] {
      SaidConcat(Written(blocks[0]), BlockLines(blocks[1..]));
      WrittenSays(blocks[0]);
      BlockLinesSay(blocks[1..]);
    }
  }

  /** A moved file says what its blocks say. */
  lemma {:induction false} BodySays(group: seq<seq<string>>)
    requires BlocksLinesOk(group)
    ensures TextMeanings(Body(group)) == BlocksSay(group)
  {
    BodyIs(group);
    WrittenSays(SplitLines(Body(group)));
    BlockLinesSay(group);
  }

  // ----- Comments -----

  lemma CommentsAreSilent(line: string)
    requires IsComment(line)
    ensures Mean(line) == Silent
  {
    var s := Strip(line);
    assert s[0] == "<!--"[0];
  }

  lemma {:induction false} MeaningsMore(line: string, rest: seq<string>)
    ensures Meanings([line] + rest) == Heard(Mean(line)) + Meanings(rest)
  {
    assert ([line] + rest)[1..] == rest;
  }

  lemma {:induction false} NoCommentsSaysTheSame(block: seq<string>)
    ensures Meanings(NoComments(block)) == Meanings(block)
  {
    if block != [] {
      var rest := NoComments(block[1..]);
      NoCommentsSaysTheSame(block[1..]);
      if IsComment(block[0]) {
        CommentsAreSilent(block[0]);
        Nothing(Meanings(block[1..]));
        Nothing(rest);
      } else {
        MeaningsMore(block[0], rest);
      }
    }
  }

  lemma {:induction false} CommentsSayNothing(block: seq<string>)
    ensures Meanings(Comments(block)) == []
  {
    if block != [] {
      var rest := Comments(block[1..]);
      CommentsSayNothing(block[1..]);
      if IsComment(block[0]) {
        CommentsAreSilent(block[0]);
        MeaningsMore(block[0], rest);
      } else {
        Nothing(rest);
      }
    }
  }

  lemma {:induction false} CommentLinesSayNothing(blocks: seq<seq<string>>)
    ensures Said(CommentLines(blocks)) == []
  {
    if blocks != [] {
      var comments := Written(Comments(blocks[0]));
      CommentsSayNothing(blocks[0]);
      WrittenSays(Comments(blocks[0]));
      CommentLinesSayNothing(blocks[1..]);
      SaidConcat(if BlockSlug(blocks[0]) == "" then [] else comments, CommentLines(blocks[1..]));
    }
  }

  lemma DefaultLineStarts()
    ensures |DEFAULT_LINE| > 1 && DEFAULT_LINE[0] == '#' && DEFAULT_LINE[1] == ' '
  {
  }

  lemma DefaultLineIsSilent(line: string)
    requires line == DEFAULT_LINE
    ensures Said([line]) == []
  {
    DefaultLineStarts();
    NeitherHeadingNorSetting(line);
  }

  lemma NeitherHeadingNorSetting(line: string)
    requires |line| > 1 && line[0] == '#' && line[1] == ' '
    ensures Said([line]) == []
  {
    SaidOfOne(line);
  }

  lemma SaidOfOne(line: string)
    ensures Said([line]) == Heard(LineSays(line))
  {
    assert [line][1..] == [];
  }

  /** The new HEARTBEAT.md says what its preamble and the kept blocks say. */
  lemma {:induction false} NewMainSays(preamble: seq<string>, blocks: seq<seq<string>>, kept: seq<seq<string>>)
    requires LinesOk(preamble) && BlocksLinesOk(blocks) && BlocksLinesOk(kept)
    ensures TextMeanings(NewMain(preamble, TakenComments(blocks), kept)) == Meanings(preamble) + BlocksSay(kept)
  {
    NewMainIs(preamble, blocks, kept);
    WrittenSays(SplitLines(NewMain(preamble, TakenComments(blocks), kept)));
    SaidConcat(Written(preamble) + CommentLines(blocks), BlockLines(kept));
    SaidConcat(Written(preamble), CommentLines(blocks));
    WrittenSays(preamble);
    CommentLinesSayNothing(blocks);
    BlockLinesSay(kept);
    DefaultLineIsSilent(DEFAULT_LINE);
    Nothing(Meanings(preamble));
  }

  /** Cutting a text into preamble and blocks loses nothing it says. */
  lemma {:induction false} CutSays(lines: seq<string>)
    requires LinesOk(lines)
    ensures PartsOk(CutLines(lines))
    ensures Meanings(lines) == Meanings(CutLines(lines).preamble) + BlocksSay(CutLines(lines).blocks)
  {
    var parts := CutLines(lines);
    CutIs(lines);
    WrittenSays(lines);
    WrittenSays(parts.preamble);
    SaidConcat(Written(parts.preamble), BlockLines(parts.blocks));
    BlockLinesSay(parts.blocks);
  }
}
