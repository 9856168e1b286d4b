/** The books of `migrate`: every line that is not blank is in exactly one file
    afterwards, as often as it was before. */
module MigrateTotals {
  import opened Prelude
  import opened Text
  import opened JobText
  import opened Migrate
  import opened MigrateLines
  import opened MigrateJobs
  import opened MigrateKeeps

  // ----- Counting -----

  /** How often the line is there. */
  function Times(line: string, lines: seq<string>): nat {
    if lines == [] then 0 else (if lines[0] == line then 1 else 0) + Times(line, lines[1..])
  }

  lemma {:induction false} TimesAdd(line: string, a: seq<string>, b: seq<string>)
    ensures Times(line, a + b) == Times(line, a) + Times(line, b)
    decreases |a|
  {
    if a == [] {
      assert a + b == b;
    } else {
      assert (a + b)[0] == a[0] && (a + b)[1..] == a[1..] + b;
      TimesAdd(line, a[1..], b);
    }
  }

  /** In all the files of jobs.d. */
  function TimesInFiles(line: string, files: seq<File>): nat {
    if files == [] then 0 else Times(line, TextLines(files[0].text)) + TimesInFiles(line, files[1..])
  }

  /** In the blocks of these projects, outside their comments. */
  function TimesInProjects(line: string, blocks: seq<Block>, slugs: set<string>): nat {
    if blocks == [] then 0
    else
      (if BlockSlug(blocks[0]) in slugs then Times(line, Written(NoComments(blocks[0]))) else 0)
      + TimesInProjects(line, blocks[1..], slugs)
  }

  lemma {:induction false} NoProjects(line: string, blocks: seq<Block>)
    ensures TimesInProjects(line, blocks, {}) == 0
  {
    if blocks != [] {
      NoProjects(line, blocks[1..]);
    }
  }

  /** Different projects have different blocks. */
  lemma {:induction false} ProjectsAdd(line: string, blocks: seq<Block>, a: set<string>, b: set<string>)
    requires a !! b
    ensures TimesInProjects(line, blocks, a + b) == TimesInProjects(line, blocks, a) + TimesInProjects(line, blocks, b)
  {
    if blocks != [] {
      ProjectsAdd(line, blocks[1..], a, b);
    }
  }

  lemma {:induction false} TimesInBlocks(line: string, block: Block, blocks: seq<Block>)
    ensures Times(line, BlockLines([block] + blocks)) == Times(line, Written(block)) + Times(line, BlockLines(blocks))
  {
    assert ([block] + blocks)[1..] == blocks;
    TimesAdd(line, Written(block), BlockLines(blocks));
  }

  lemma {:induction false} TimesInGroup(line: string, blocks: seq<Block>, slug: string)
    ensures Times(line, BlockLines(GroupOf(blocks, slug))) == TimesInProjects(line, blocks, {slug})
  {
    if blocks != [] {
      var rest := GroupOf(blocks[1..], slug);
      TimesInGroup(line, blocks[1..], slug);
      Nothing(rest);
      TimesInBlocks(line, NoComments(blocks[0]), rest);
    }
  }

  // ----- Where the lines of a block go -----

  lemma {:induction false} CommentsAndTheRest(line: string, block: Block)
    ensures Times(line, Written(block))
            == Times(line, Written(NoComments(block))) + Times(line, Written(Comments(block)))
  {
    if block != [] {
      var mark := Mark(block[0]);
      CommentsAndTheRest(line, block[1..]);
      TimesAdd(line, mark, Written(block[1..]));
      WrittenMore(block[0], Comments(block[1..]));
      WrittenMore(block[0], NoComments(block[1..]));
      TimesAdd(line, mark, Written(Comments(block[1..])));
      TimesAdd(line, mark, Written(NoComments(block[1..])));
      Nothing(Comments(block[1..]));
      Nothing(NoComments(block[1..]));
    }
  }

  /** A line of the blocks is in one without a project, or among the comments of
      the others, or it is one of its project's other lines. */
  lemma {:induction false} BlocksSplit(line: string, blocks: seq<Block>, slugs: set<string>)
    requires forall b | b in blocks && BlockSlug(b) != "" :: BlockSlug(b) in slugs
    requires "" !in slugs
    ensures Times(line, BlockLines(blocks))
            == Times(line, BlockLines(NoSlug(blocks))) + Times(line, CommentLines(blocks))
               + TimesInProjects(line, blocks, slugs)
  {
    if blocks != [] {
      var rest := NoSlug(blocks[1..]);
      BlocksSplit(line, blocks[1..], slugs);
      TimesAdd(line, Written(blocks[0]), BlockLines(blocks[1..]));
      if BlockSlug(blocks[0]) == "" {
        TimesInBlocks(line, blocks[0], rest);
        Nothing(CommentLines(blocks[1..]));
      } else {
        assert blocks[0] in blocks;
        Nothing(rest);
        CommentsAndTheRest(line, blocks[0]);
        TimesAdd(line, Written(Comments(blocks[0])), CommentLines(blocks[1..]));
      }
    }
  }

  /** The projects whose file exists. */
  function Existing(disk: Disk, slugs: seq<string>): set<string> {
    set slug | slug in slugs && TargetExists(disk, slug)
  }

  lemma {:induction false} TimesStayed(line: string, disk: Disk, slugs: seq<string>, blocks: seq<Block>)
    requires OnceEach(slugs)
    ensures Times(line, BlockLines(Stayed(disk, slugs, blocks)))
            == TimesInProjects(line, blocks, Existing(disk, slugs))
  {
    if slugs == [] {
      NoProjects(line, blocks);
      assert Existing(disk, slugs) == {};
    } else {
      var group, rest := GroupOf(blocks, slugs[0]), Stayed(disk, slugs[1..], blocks);
      TimesStayed(line, disk, slugs[1..], blocks);
      if TargetExists(disk, slugs[0]) {
        TimesInGroup(line, blocks, slugs[0]);
        BlockLinesConcat(group, rest);
        TimesAdd(line, BlockLines(group), BlockLines(rest));
        ProjectsAdd(line, blocks, {slugs[0]}, Existing(disk, slugs[1..]));
        assert Existing(disk, slugs) == {slugs[0]} + Existing(disk, slugs[1..]);
      } else {
        Nothing(rest);
        assert Existing(disk, slugs) == Existing(disk, slugs[1..]);
      }
    }
  }

  // ----- The files -----

  lemma {:induction false} TimesInserted(line: string, files: seq<File>, file: File)
    ensures TimesInFiles(line, Insert(files, file)) == TimesInFiles(line, files) + Times(line, TextLines(file.text))
    decreases |files|
  {
    InsertCases(files, file);
    if Insert(files, file) == [file] + files {
      assert ([file] + files)[1..] == files;
    } else {
      TimesInserted(line, files[1..], file);
      var rest := Insert(files[1..], file);
      assert ([files[0]] + rest)[1..] == rest;
    }
  }

  /** The projects that get a file in jobs.d. */
  function NewProjects(disk: Disk, slugs: seq<string>): set<string> {
    set slug | slug in Reached(disk, slugs) && Moves(disk, slug)
  }

  lemma {:induction false} FirstIsNew(disk: Disk, slugs: seq<string>)
    requires slugs != [] && OnceEach(slugs) && !Raises(disk, slugs[0])
    ensures slugs[0] !in NewProjects(disk, slugs[1..])
    ensures NewProjects(disk, slugs)
            == (if Moves(disk, slugs[0]) then {slugs[0]} else {}) + NewProjects(disk, slugs[1..])
  {
    ReachedAre(disk, slugs[1..]);
    assert Reached(disk, slugs)[1..] == Reached(disk, slugs[1..]);
  }

  lemma {:induction false} NewAfterWrite(disk: Disk, slugs: seq<string>, text: string)
    requires slugs != [] && OnceEach(slugs)
    ensures NewProjects(Write(disk, slugs[0], text), slugs[1..]) == NewProjects(disk, slugs[1..])
  {
    OthersAfterWrite(disk, slugs, text, []);
    ReachedAre(disk, slugs[1..]);
  }

  lemma {:induction false} TimesWritten(line: string, disk: Disk, slug: string, blocks: seq<Block>)
    requires BlocksLinesOk(GroupOf(blocks, slug)) && !TargetExists(disk, slug)
    ensures
      var next := Write(disk, slug, Body(GroupOf(blocks, slug)));
      TimesInFiles(line, next.files) == TimesInFiles(line, disk.files)
        + TimesInProjects(line, blocks, if Moves(disk, slug) then {slug} else {})
  {
    var group := GroupOf(blocks, slug);
    NoProjects(line, blocks);
    if Safe(slug) {
      BodyIs(group);
      TimesInGroup(line, blocks, slug);
      TimesInserted(line, disk.files, File(slug, Body(group)));
    }
  }

  /** What is added to jobs.d, whether writing ends early or not. */
  lemma {:induction false} FilesGain(
      line: string, disk: Disk, slugs: seq<string>, blocks: seq<Block>, kept: seq<Block>)
    requires OnceEach(slugs) && forall s | s in slugs :: BlocksLinesOk(GroupOf(blocks, s))
    ensures TimesInFiles(line, WriteGroups(disk, slugs, blocks, kept).disk.files)
            == TimesInFiles(line, disk.files) + TimesInProjects(line, blocks, NewProjects(disk, slugs))
    decreases |slugs|
  {
    if slugs == [] || Raises(disk, slugs[0]) {
      NoProjects(line, blocks);
      assert NewProjects(disk, slugs) == {};
    } else {
      var rest, group := slugs[1..], GroupOf(blocks, slugs[0]);
      var first := if Moves(disk, slugs[0]) then {slugs[0]} else {};
      FirstIsNew(disk, slugs);
      ProjectsAdd(line, blocks, first, NewProjects(disk, rest));
      if TargetExists(disk, slugs[0]) {
        NoProjects(line, blocks);
        FilesGain(line, disk, rest, blocks, kept + group);
      } else {
        FilesGain(line, Write(disk, slugs[0], Body(group)), rest, blocks, kept);
        NewAfterWrite(disk, slugs, Body(group));
        TimesWritten(line, disk, slugs[0], blocks);
      }
    }
  }

  lemma {:induction false} InsertedIs(files: seq<File>, file: File, f: File)
    ensures f in Insert(files, file) <==> f in files || f == file
    decreases |files|
  {
    InsertCases(files, file);
    if Insert(files, file) != [file] + files {
      InsertedIs(files[1..], file, f);
      HeadAndTail(files);
    }
  }

  /** The file is one that writing makes: named after a project reached that is a file
      name and had no file, with the text of its blocks. */
  predicate IsMade(disk: Disk, slugs: seq<string>, blocks: seq<Block>, file: File) {
    && file.slug in Reached(disk, slugs) && '/' !in file.slug
    && (forall f | f in disk.files :: f.slug != file.slug)
    && file.text == Body(GroupOf(blocks, file.slug))
  }

  lemma {:induction false} MadeIsMoved(disk: Disk, slugs: seq<string>, blocks: seq<Block>, file: File)
    ensures IsMade(disk, slugs, blocks, file) <==>
              && file.slug in Reached(disk, slugs) && Moves(disk, file.slug)
              && file.text == Body(GroupOf(blocks, file.slug))
  {
    assert forall k | 0 <= k < |disk.files| :: disk.files[k] in disk.files;
  }

  /** Writing adds exactly the files it is to make, as far as it comes, and changes none. */
  lemma {:induction false} FilesWritten(
      disk: Disk, slugs: seq<string>, blocks: seq<Block>, kept: seq<Block>, file: File)
    requires OnceEach(slugs)
    ensures file in WriteGroups(disk, slugs, blocks, kept).disk.files <==>
              file in disk.files || IsMade(disk, slugs, blocks, file)
    decreases |slugs|
  {
    MadeIsMoved(disk, slugs, blocks, file);
    if slugs != [] && !Raises(disk, slugs[0]) {
      var rest, group := slugs[1..], GroupOf(blocks, slugs[0]);
      assert Reached(disk, slugs)[1..] == Reached(disk, rest);
      HeadAndTail(Reached(disk, slugs));
      if TargetExists(disk, slugs[0]) {
        MadeIsMoved(disk, rest, blocks, file);
        FilesWritten(disk, rest, blocks, kept + group, file);
      } else {
        var next := Write(disk, slugs[0], Body(group));
        MadeIsMoved(next, rest, blocks, file);
        OthersAfterWrite(disk, slugs, Body(group), blocks);
        ReachedAre(disk, rest);
        FilesWritten(next, rest, blocks, kept, file);
        InsertedIs(disk.files, File(slugs[0], Body(group)), file);
      }
    }
  }

  // ----- The theorem -----

  /** In all the files the daemon reads. */
  function TimesAtHome(line: string, main: string, files: seq<File>): nat {
    Times(line, TextLines(main)) + TimesInFiles(line, files)
  }

  /** The projects whose file lies outside jobs.d and is written now. */
  function FarProjects(disk: Disk, slugs: seq<string>): set<string> {
    set slug | slug in slugs && !TargetExists(disk, slug) && !Safe(slug)
  }

  /** What is left for HEARTBEAT.md when nothing raises. */
  function LeftLines(main: string, disk: Disk): seq<string> {
    var parts := CutLines(SplitLines(main));
    Written(parts.preamble) + CommentLines(parts.blocks) + BlockLines(KeptBlocks(main, disk))
  }

  lemma {:induction false} BlocksAreLinesOk(blocks: seq<Block>)
    requires BlocksOk(blocks)
    ensures BlocksLinesOk(blocks)
  {
    forall k | 0 <= k < |blocks|
      ensures LinesOk(blocks[k])
    {
      assert BlockOk(blocks[k]);
    }
  }

  lemma {:induction false} MainGains(line: string, main: string, disk: Disk)
    ensures TimesInFiles(line, Migrated(main, disk).disk.files)
            == TimesInFiles(line, disk.files) + TimesInProjects(line, BlocksOf(main), NewProjects(disk, SlugsOf(main)))
  {
    var blocks := BlocksOf(main);
    MainIsCut(main);
    SlugsAre(blocks, []);
    forall s | s in SlugsOf(main)
      ensures BlocksLinesOk(GroupOf(blocks, s))
    {
      GroupIsOk(blocks, s);
      BlocksAreLinesOk(GroupOf(blocks, s));
    }
    FilesGain(line, disk, SlugsOf(main), blocks, NoSlug(blocks));
    if SlugsOf(main) == [] {
      assert NewProjects(disk, []) == {};
      NoProjects(line, blocks);
    }
  }

  lemma ProjectsAreSplit(main: string, disk: Disk)
    requires !Aborts(main, disk)
    ensures
      var slugs := SlugsOf(main);
      var stay, near, far := Existing(disk, slugs), NewProjects(disk, slugs), FarProjects(disk, slugs);
      (set s | s in slugs) == stay + near + far && stay !! near && stay + near !! far
  {
    RaisedIff(main, disk);
  }

  /** The new HEARTBEAT.md and the projects that got files share the old lines. */
  lemma {:induction false} LinesAreShared(line: string, main: string, disk: Disk)
    requires !Aborts(main, disk)
    ensures
      var slugs := SlugsOf(main);
      Times(line, TextLines(main)) == Times(line, LeftLines(main, disk))
        + TimesInProjects(line, BlocksOf(main), NewProjects(disk, slugs))
        + TimesInProjects(line, BlocksOf(main), FarProjects(disk, slugs))
  {
    var parts, slugs := CutLines(SplitLines(main)), SlugsOf(main);
    var blocks := parts.blocks;
    var stay, near, far := Existing(disk, slugs), NewProjects(disk, slugs), FarProjects(disk, slugs);
    var all := set s | s in slugs;
    CutIs(SplitLines(main));
    SlugsAre(blocks, []);
    ProjectsAreSplit(main, disk);
    ProjectsAdd(line, blocks, stay + near, far);
    ProjectsAdd(line, blocks, stay, near);
    BlocksSplit(line, blocks, all);
    TimesStayed(line, disk, slugs, blocks);
    TimesLeft(line, main, disk);
    TimesAdd(line, Written(parts.preamble), BlockLines(blocks));
  }

  lemma {:induction false} TimesLeft(line: string, main: string, disk: Disk)
    ensures
      var parts := CutLines(SplitLines(main));
      Times(line, LeftLines(main, disk))
        == Times(line, Written(parts.preamble)) + Times(line, CommentLines(parts.blocks))
           + Times(line, BlockLines(NoSlug(parts.blocks)))
           + Times(line, BlockLines(Stayed(disk, SlugsOf(main), parts.blocks)))
  {
    var parts := CutLines(SplitLines(main));
    var comments, free := CommentLines(parts.blocks), NoSlug(parts.blocks);
    var stayed := Stayed(disk, SlugsOf(main), parts.blocks);
    BlockLinesConcat(free, stayed);
    TimesAdd(line, BlockLines(free), BlockLines(stayed));
    TimesAdd(line, Written(parts.preamble) + comments, BlockLines(free + stayed));
    TimesAdd(line, Written(parts.preamble), comments);
  }

  lemma NewMainHolds(main: string, disk: Disk)
    requires !Aborts(main, disk) && SlugsOf(main) != []
    ensures
      var left := LeftLines(main, disk);
      TextLines(Migrated(main, disk).main) == if left == [] then [DEFAULT_LINE] else left
  {
    var parts := CutLines(SplitLines(main));
    MainIsCut(main);
    SlugsAre(parts.blocks, []);
    KeptAreOk(main, disk);
    BlocksAreLinesOk(parts.blocks);
    BlocksAreLinesOk(KeptBlocks(main, disk));
    GroupsEnd(disk, SlugsOf(main), parts.blocks, NoSlug(parts.blocks));
    RaisedIff(main, disk);
    NewMainIs(parts.preamble, parts.blocks, KeptBlocks(main, disk));
  }

  /** Every line that is not blank is there as often as before: in HEARTBEAT.md, in
      jobs.d, or in a file written elsewhere. Only an emptied HEARTBEAT.md gains a
      line, and after a write that raised the files already written repeat theirs. */
  lemma {:induction false} MigrateKeepsLines(line: string, main: string, disk: Disk)
    ensures
      var after := Migrated(main, disk);
      var before, now := TimesAtHome(line, main, disk.files), TimesAtHome(line, after.main, after.disk.files);
      var blocks, slugs := BlocksOf(main), SlugsOf(main);
      && (Aborts(main, disk) ==> now == before + TimesInProjects(line, blocks, NewProjects(disk, slugs)))
      && (!Aborts(main, disk) ==>
            now + TimesInProjects(line, blocks, FarProjects(disk, slugs))
              == before + if slugs != [] && LeftLines(main, disk) == [] && line == DEFAULT_LINE then 1 else 0)
  {
    var blocks, slugs := BlocksOf(main), SlugsOf(main);
    MainGains(line, main, disk);
    SlugsAre(blocks, []);
    GroupsEnd(disk, slugs, blocks, NoSlug(blocks));
    RaisedIff(main, disk);
    if slugs == [] {
      assert NewProjects(disk, slugs) == {} && FarProjects(disk, slugs) == {};
      NoProjects(line, blocks);
    } else if !Aborts(main, disk) {
      LinesAreShared(line, main, disk);
      NewMainHolds(main, disk);
      TimesOfOne(line);
    }
  }

  lemma {:induction false} TimesOfOne(line: string)
    ensures Times(line, [DEFAULT_LINE]) == if line == DEFAULT_LINE then 1 else 0
  {
    var lines := [DEFAULT_LINE];
    assert lines[1..] == [];
  }
}
