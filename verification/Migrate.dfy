/** `heartbeat migrate`: moving the jobs of HEARTBEAT.md into one file per project. */
module Migrate {
  import opened Prelude
  import opened Text
  import opened JobText

  // ----- Lines and blocks -----

  predicate OpensBlock(line: string) {
    StartsWith(Strip(line), "## ")
  }

  predicate IsComment(line: string) {
    var s := Strip(line);
    StartsWith(s, "<!--") && |s| >= 3 && s[|s| - 3..] == "-->"
  }

  /** The project a line names, if it is a slug line. */
  function SlugIn(line: string): Option<string> {
    var s := Strip(line);
    if StartsWith(Lower(s), "- slug:") then
      assert Lower(s)[6] == ':';
      Some(Strip(s[FirstColon(s) + 1..]))
    else None
  }

  /** The first slug line counts. */
  function BlockSlug(block: seq<string>): string {
    if block == [] then ""
    else if SlugIn(block[0]).Some? then SlugIn(block[0]).value
    else BlockSlug(block[1..])
  }

  function NoComments(block: seq<string>): seq<string> {
    if block == [] then []
    else (if IsComment(block[0]) then [] else [block[0]]) + NoComments(block[1..])
  }

  function Comments(block: seq<string>): seq<string> {
    if block == [] then []
    else (if IsComment(block[0]) then [block[0]] else []) + Comments(block[1..])
  }

  datatype Parts = Parts(preamble: seq<string>, blocks: seq<seq<string>>)

  function CutLines(lines: seq<string>): Parts {
    if lines == [] then Parts([], [])
    else AddLine(CutLines(lines[..|lines| - 1]), lines[|lines| - 1])
  }

  function AddLine(parts: Parts, line: string): Parts {
    var n := |parts.blocks|;
    if OpensBlock(line) then parts.(blocks := parts.blocks + [[line]])
    else if n > 0 then parts.(blocks := parts.blocks[..n - 1] + [parts.blocks[n - 1] + [line]])
    else parts.(preamble := parts.preamble + [line])
  }

  // ----- Groups -----

  /** The projects named, in the order they come up, after those already known. */
  function Slugs(blocks: seq<seq<string>>, known: seq<string>): seq<string>
    decreases |blocks|
  {
    if blocks == [] then known else Slugs(blocks[1..], WithSlug(known, BlockSlug(blocks[0])))
  }

  function WithSlug(known: seq<string>, slug: string): seq<string> {
    if slug == "" || slug in known then known else known + [slug]
  }

  /** The blocks of one project, without their comment lines. */
  function GroupOf(blocks: seq<seq<string>>, slug: string): seq<seq<string>> {
    if blocks == [] then []
    else (if BlockSlug(blocks[0]) == slug then [NoComments(blocks[0])] else []) + GroupOf(blocks[1..], slug)
  }

  function NoSlug(blocks: seq<seq<string>>): seq<seq<string>> {
    if blocks == [] then []
    else (if BlockSlug(blocks[0]) == "" then [blocks[0]] else []) + NoSlug(blocks[1..])
  }

  function TakenComments(blocks: seq<seq<string>>): seq<string> {
    if blocks == [] then []
    else (if BlockSlug(blocks[0]) == "" then [] else Comments(blocks[0])) + TakenComments(blocks[1..])
  }

  // ----- Texts -----

  function BlockText(block: seq<string>): string {
    Strip(JoinLines(block))
  }

  function Texts(blocks: seq<seq<string>>): seq<string> {
    if blocks == [] then [] else [BlockText(blocks[0])] + Texts(blocks[1..])
  }

  function NonEmpty(parts: seq<string>): seq<string> {
    if parts == [] then [] else (if parts[0] == "" then [] else [parts[0]]) + NonEmpty(parts[1..])
  }

  function Body(group: seq<seq<string>>): string {
    Join(Texts(group), "\n\n") + "\n"
  }

  function NewMain(preamble: seq<string>, comments: seq<string>, kept: seq<seq<string>>): string {
    var parts := NonEmpty([BlockText(preamble)] + comments + Texts(kept));
    if parts == [] then "# HEARTBEAT\n" else Join(parts, "\n\n") + "\n"
  }

  // ----- Files -----

  /** jobs.d in sorted order, the slugs whose target outside it exists, and the
      slugs whose target cannot be written, such as one in a missing directory. */
  datatype Disk = Disk(files: seq<File>, elsewhere: set<string>, refused: set<string>)

  /** Only the file of a path-safe slug lies in jobs.d under that slug. */
  predicate Safe(slug: string) {
    '/' !in slug
  }

  predicate HasFile(files: seq<File>, slug: string) {
    exists k | 0 <= k < |files| :: files[k].slug == slug
  }

  predicate TargetExists(disk: Disk, slug: string) {
    if Safe(slug) then HasFile(disk.files, slug) else slug in disk.elsewhere
  }

  predicate Before(a: string, b: string) {
    b != "" && (a == "" || a[0] < b[0] || (a[0] == b[0] && Before(a[1..], b[1..])))
  }

  function Insert(files: seq<File>, file: File): seq<File> {
    if files == [] || Before(file.slug + ".md", files[0].slug + ".md") then [file] + files
    else [files[0]] + Insert(files[1..], file)
  }

  function Write(disk: Disk, slug: string, text: string): Disk {
    if Safe(slug) then disk.(files := Insert(disk.files, File(slug, text)))
    else disk.(elsewhere := disk.elsewhere + {slug})
  }

  /** How far writing came: what is on disk, the blocks to keep so far, and
      whether a write raised. */
  datatype Writing = Writing(disk: Disk, kept: seq<seq<string>>, raised: bool)

  /** Writing the groups of `slugs`, keeping those whose file exists. */
  function WriteGroups(disk: Disk, slugs: seq<string>, blocks: seq<seq<string>>, kept: seq<seq<string>>): Writing
    decreases |slugs|
  {
    if slugs == [] then Writing(disk, kept, false)
    else
      var group := GroupOf(blocks, slugs[0]);
      if TargetExists(disk, slugs[0]) then WriteGroups(disk, slugs[1..], blocks, kept + group)
      else if slugs[0] in disk.refused then Writing(disk, kept, true)
      else WriteGroups(Write(disk, slugs[0], Body(group)), slugs[1..], blocks, kept)
  }

  datatype Outcome = Outcome(main: string, disk: Disk, raised: bool)

  /** A write that raises leaves HEARTBEAT.md as it was, and the files written
      before it. */
  function Migrated(main: string, disk: Disk): Outcome {
    var parts := CutLines(SplitLines(main));
    var slugs := Slugs(parts.blocks, []);
    if slugs == [] then Outcome(main, disk, false)
    else
      var end := WriteGroups(disk, slugs, parts.blocks, NoSlug(parts.blocks));
      if end.raised then Outcome(main, end.disk, true)
      else Outcome(NewMain(parts.preamble, TakenComments(parts.blocks), end.kept), end.disk, false)
  }

  class HeartbeatHome {
    var main: Option<string>
    var disk: Disk

    /** `cmd_migrate`, without the copy it keeps of the old file. */
    method Migrate() returns (raised: bool)
      modifies this
      ensures old(main).None? ==> main.None? && disk == old(disk) && !raised
      ensures old(main).Some? ==>
        main.Some? && Outcome(main.value, disk, raised) == Migrated(old(main).value, old(disk))
    {
      raised := false;
      if main.None? {
        return;
      }
      var parts := CutBlocks(SplitLines(main.value));
      var slugs, kept, comments := GroupBlocks(parts.blocks);
      if slugs == [] {
        return;
      }
      ghost var end := WriteGroups(disk, slugs, parts.blocks, kept);
      assert slugs[0..] == slugs;
      for i := 0 to |slugs|
        invariant main == old(main)
        invariant WriteGroups(disk, slugs[i..], parts.blocks, kept) == end
      {
        assert slugs[i..][0] == slugs[i] && slugs[i..][1..] == slugs[i + 1..];
        var group := GroupOf(parts.blocks, slugs[i]);
        if TargetExists(disk, slugs[i]) {
          kept := kept + group;
        } else if slugs[i] in disk.refused {
          return true;
        } else {
          disk := Write(disk, slugs[i], Body(group));
        }
      }
      assert slugs[|slugs|..] == [];
      main := Some(NewMain(parts.preamble, comments, kept));
    }
  }

  method CutBlocks(lines: seq<string>) returns (parts: Parts)
    ensures parts == CutLines(lines)
  {
    var preamble: seq<string>, blocks: seq<seq<string>> := [], [];
    for i := 0 to |lines|
      invariant Parts(preamble, blocks) == CutLines(lines[..i])
    {
      assert lines[..i + 1][..i] == lines[..i];
      if OpensBlock(lines[i]) {
        blocks := blocks + [[lines[i]]];
      } else if blocks != [] {
        blocks := blocks[|blocks| - 1 := blocks[|blocks| - 1] + [lines[i]]];
      } else {
        preamble := preamble + [lines[i]];
      }
    }
    assert lines[..|lines|] == lines;
    parts := Parts(preamble, blocks);
  }

  method GroupBlocks(blocks: seq<seq<string>>)
    returns (slugs: seq<string>, kept: seq<seq<string>>, comments: seq<string>)
    ensures slugs == Slugs(blocks, []) && kept == NoSlug(blocks) && comments == TakenComments(blocks)
  {
    slugs, kept, comments := [], [], [];
    assert blocks[0..] == blocks;
    for i := 0 to |blocks|
      invariant Slugs(blocks[i..], slugs) == Slugs(blocks, [])
      invariant kept + NoSlug(blocks[i..]) == NoSlug(blocks)
      invariant comments + TakenComments(blocks[i..]) == TakenComments(blocks)
    {
      FirstKept(blocks[i..], kept);
      FirstComments(blocks[i..], comments);
      assert blocks[i..][1..] == blocks[i + 1..];
      var slug := BlockSlug(blocks[i]);
      if slug == "" {
        kept := kept + [blocks[i]];
      } else {
        comments := comments + Comments(blocks[i]);
        slugs := WithSlug(slugs, slug);
      }
    }
    assert blocks[|blocks|..] == [];
  }

  lemma {:induction false} FirstKept(blocks: seq<seq<string>>, kept: seq<seq<string>>)
    requires blocks != []
    ensures kept + NoSlug(blocks)
            == (if BlockSlug(blocks[0]) == "" then kept + [blocks[0]] else kept) + NoSlug(blocks[1..])
  {
    if BlockSlug(blocks[0]) == "" {
      Regroup(kept, [blocks[0]], NoSlug(blocks[1..]));
    } else {
      assert NoSlug(blocks) == NoSlug(blocks[1..]);
    }
  }

  lemma {:induction false} FirstComments(blocks: seq<seq<string>>, comments: seq<string>)
    requires blocks != []
    ensures comments + TakenComments(blocks)
            == (if BlockSlug(blocks[0]) == "" then comments else comments + Comments(blocks[0]))
               + TakenComments(blocks[1..])
  {
    if BlockSlug(blocks[0]) == "" {
      assert TakenComments(blocks) == TakenComments(blocks[1..]);
    } else {
      Regroup(comments, Comments(blocks[0]), TakenComments(blocks[1..]));
    }
  }
}
