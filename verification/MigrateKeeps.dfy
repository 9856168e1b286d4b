/** The theorem on `migrate`: exactly when the daemon reads the same jobs before
    and after. */
module MigrateKeeps {
  import opened Prelude
  import opened Text
  import opened JobText
  import opened Migrate
  import opened MigrateLines
  import opened MigrateMeaning
  import opened MigrateJobs

  type Block = seq<string>

  function JobSet(jobs: seq<Job>): set<Job> {
    set job | job in jobs
  }

  predicate DistinctNames(jobs: seq<Job>) {
    jobs == [] || (jobs[0].name !in Names(jobs[1..]) && DistinctNames(jobs[1..]))
  }

  // ----- Merging files -----

  lemma {:induction false} NothingSeen(seen: set<string>, jobs: seq<Job>)
    requires DistinctNames(jobs) && Names(jobs) !! seen
    ensures Unseen(seen, jobs) == jobs
    decreases |jobs|
  {
    if jobs != [] {
      assert jobs[0] in jobs && jobs[0].name in Names(jobs);
      assert Names(jobs[1..]) <= Names(jobs);
      NothingSeen(seen + {jobs[0].name}, jobs[1..]);
    }
  }

  lemma {:induction false} SeenElsewhere(seen: set<string>, more: set<string>, jobs: seq<Job>)
    requires Names(jobs) !! more
    ensures Unseen(seen + more, jobs) == Unseen(seen, jobs)
    decreases |jobs|
  {
    if jobs != [] {
      var name := jobs[0].name;
      assert jobs[0] in jobs && name in Names(jobs);
      assert Names(jobs[1..]) <= Names(jobs);
      if name in seen {
        SeenElsewhere(seen, more, jobs[1..]);
      } else {
        SeenElsewhere(seen + {name}, more, jobs[1..]);
        assert seen + more + {name} == seen + {name} + more;
      }
    }
  }

  lemma {:induction false} MergeSeenElsewhere(r: Readers, seen: set<string>, more: set<string>, files: seq<File>)
    requires FileNames(r, files) !! more
    ensures Merge(r, seen + more, files) == Merge(r, seen, files)
    decreases |files|
  {
    if files != [] {
      var names := Names(JobsOfFile(r, files[0]));
      SeenElsewhere(seen, more, JobsOfFile(r, files[0]));
      MergeSeenElsewhere(r, seen + names, more, files[1..]);
      assert seen + more + names == seen + names + more;
    }
  }

  lemma {:induction false} UnseenAreJobs(seen: set<string>, jobs: seq<Job>)
    ensures forall job | job in Unseen(seen, jobs) :: job in jobs
    decreases |jobs|
  {
    if jobs != [] {
      UnseenAreJobs(if jobs[0].name in seen then seen else seen + {jobs[0].name}, jobs[1..]);
    }
  }

  /** Merged jobs come from the files. */
  lemma {:induction false} MergedNames(r: Readers, seen: set<string>, files: seq<File>)
    ensures forall job | job in Merge(r, seen, files) :: job.name in FileNames(r, files)
    decreases |files|
  {
    if files != [] {
      UnseenAreJobs(seen, JobsOfFile(r, files[0]));
      MergedNames(r, seen + Names(JobsOfFile(r, files[0])), files[1..]);
    }
  }

  lemma JobSetConcat(a: seq<Job>, b: seq<Job>)
    ensures JobSet(a + b) == JobSet(a) + JobSet(b)
  {
  }

  lemma {:induction false} MergeMore(r: Readers, seen: set<string>, file: File, files: seq<File>)
    ensures
      var jobs := JobsOfFile(r, file);
      && JobSet(Merge(r, seen, [file] + files))
         == JobSet(Unseen(seen, jobs)) + JobSet(Merge(r, seen + Names(jobs), files))
      && FileNames(r, [file] + files) == Names(jobs) + FileNames(r, files)
  {
    assert ([file] + files)[1..] == files;
    JobSetConcat(Unseen(seen, JobsOfFile(r, file)), Merge(r, seen + Names(JobsOfFile(r, file)), files));
  }

  /** The file goes first, or after the first. */
  lemma {:induction false} InsertCases(files: seq<File>, file: File)
    ensures
      || Insert(files, file) == [file] + files
      || (files != [] && Insert(files, file) == [files[0]] + Insert(files[1..], file))
  {
  }

  predicate NewTo(r: Readers, file: File, seen: set<string>, files: seq<File>) {
    Names(JobsOfFile(r, file)) !! FileNames(r, files) + seen
  }

  lemma {:induction false} NewFirst(r: Readers, seen: set<string>, files: seq<File>, file: File)
    requires DistinctNames(JobsOfFile(r, file)) && NewTo(r, file, seen, files)
    ensures JobSet(Merge(r, seen, [file] + files)) == JobSet(Merge(r, seen, files)) + JobSet(JobsOfFile(r, file))
  {
    var jobs := JobsOfFile(r, file);
    NothingSeen(seen, jobs);
    MergeSeenElsewhere(r, seen, Names(jobs), files);
    MergeMore(r, seen, file, files);
  }

  lemma NewToRest(r: Readers, file: File, seen: set<string>, files: seq<File>)
    requires files != [] && NewTo(r, file, seen, files)
    ensures NewTo(r, file, seen + Names(JobsOfFile(r, files[0])), files[1..])
  {
  }

  lemma SwapSets<T>(a: set<T>, b: set<T>)
    ensures a + b == b + a
  {
  }

  /** A file whose job names are new adds its jobs, wherever it is sorted in. */
  lemma {:induction false} InsertedFileAdds(r: Readers, seen: set<string>, files: seq<File>, file: File)
    requires DistinctNames(JobsOfFile(r, file)) && NewTo(r, file, seen, files)
    ensures JobSet(Merge(r, seen, Insert(files, file))) == JobSet(Merge(r, seen, files)) + JobSet(JobsOfFile(r, file))
    ensures FileNames(r, Insert(files, file)) == FileNames(r, files) + Names(JobsOfFile(r, file))
    decreases |files|
  {
    InsertCases(files, file);
    if Insert(files, file) == [file] + files {
      NewFirst(r, seen, files, file);
      MergeMore(r, seen, file, files);
      SwapSets(Names(JobsOfFile(r, file)), FileNames(r, files));
    } else {
      var rest := Insert(files[1..], file);
      NewToRest(r, file, seen, files);
      InsertedFileAdds(r, seen + Names(JobsOfFile(r, files[0])), files[1..], file);
      MergeMore(r, seen, files[0], files[1..]);
      MergeMore(r, seen, files[0], rest);
      HeadAndTail(files);
      var first := JobsOfFile(r, files[0]);
      RegroupSets(JobSet(Unseen(seen, first)), JobSet(Merge(r, seen + Names(first), files[1..])),
                  JobSet(JobsOfFile(r, file)));
      RegroupSets(Names(first), FileNames(r, files[1..]), Names(JobsOfFile(r, file)));
    }
  }

  lemma {:induction false} InsertedSlugs(files: seq<File>, file: File, slug: string)
    ensures HasFile(Insert(files, file), slug) <==> HasFile(files, slug) || slug == file.slug
    decreases |files|
  {
    var inserted := Insert(files, file);
    if files == [] || Migrate.Before(file.slug + ".md", files[0].slug + ".md") {
      HasFileMore(file, files, slug);
    } else {
      InsertedSlugs(files[1..], file, slug);
      HasFileMore(files[0], Insert(files[1..], file), slug);
      HasFileMore(files[0], files[1..], slug);
      assert [files[0]] + files[1..] == files;
    }
  }

  lemma HasFileMore(file: File, files: seq<File>, slug: string)
    ensures HasFile([file] + files, slug) <==> file.slug == slug || HasFile(files, slug)
  {
    var all := [file] + files;
    assert all[0] == file;
    assert forall k | 0 <= k < |files| :: all[k + 1] == files[k];
    assert forall k | 1 <= k < |all| :: all[k] == files[k - 1];
  }

  // ----- The jobs of one project -----

  lemma {:induction false} JobsOfMore(r: Readers, block: Block, blocks: seq<Block>)
    ensures JobsOf(r, [block] + blocks) == [JobOf(r, block)] + JobsOf(r, blocks)
  {
    assert ([block] + blocks)[1..] == blocks;
  }

  lemma {:induction false} DistinctMore(job: Job, jobs: seq<Job>)
    requires job.name !in Names(jobs) && DistinctNames(jobs)
    ensures DistinctNames([job] + jobs)
  {
    assert ([job] + jobs)[1..] == jobs;
  }

  lemma {:induction false} BlockHasJob(r: Readers, blocks: seq<Block>, b: Block)
    requires b in blocks
    ensures JobOf(r, b) in JobsOf(r, blocks)
  {
    if b != blocks[0] {
      BlockHasJob(r, blocks[1..], b);
    }
  }

  lemma JobHasBlock(r: Readers, blocks: seq<Block>, job: Job) returns (b: Block)
    requires job in JobsOf(r, blocks)
    ensures b in blocks && JobOf(r, b) == job
  {
    b := blocks[0];
    if job != JobOf(r, b) {
      b := JobHasBlock(r, blocks[1..], job);
    }
  }

  /** Within one text no two blocks define jobs of the same name. */
  lemma {:induction false} NamesTellBlocksApart(r: Readers, blocks: seq<Block>, a: Block, b: Block)
    requires DistinctNames(JobsOf(r, blocks)) && a in blocks && b in blocks
    requires JobOf(r, a).name == JobOf(r, b).name
    ensures a == b
    decreases |blocks|
  {
    var rest := JobsOf(r, blocks[1..]);
    assert JobsOf(r, blocks)[1..] == rest;
    if a in blocks[1..] {
      BlockHasJob(r, blocks[1..], a);
    }
    if b in blocks[1..] {
      BlockHasJob(r, blocks[1..], b);
    }
    if a != blocks[0] && b != blocks[0] {
      NamesTellBlocksApart(r, blocks[1..], a, b);
    }
  }

  lemma {:induction false} GroupIsOk(blocks: seq<Block>, slug: string)
    requires BlocksOk(blocks)
    ensures BlocksOk(GroupOf(blocks, slug))
  {
    if blocks != [] {
      NoCommentsIsBlock(blocks[0]);
      GroupIsOk(blocks[1..], slug);
    }
  }

  lemma {:induction false} GroupHasJob(r: Readers, blocks: seq<Block>, slug: string, b: Block)
    requires BlocksOk(blocks) && b in blocks && BlockSlug(b) == slug
    ensures JobOf(r, b) in JobsOf(r, GroupOf(blocks, slug))
  {
    var rest := GroupOf(blocks[1..], slug);
    if BlockSlug(blocks[0]) == slug {
      NoCommentsKeepsBlock(r, blocks[0]);
      JobsOfMore(r, NoComments(blocks[0]), rest);
    } else {
      Nothing(rest);
    }
    if b != blocks[0] {
      GroupHasJob(r, blocks[1..], slug, b);
    }
  }

  lemma GroupJobHasBlock(r: Readers, blocks: seq<Block>, slug: string, job: Job) returns (b: Block)
    requires BlocksOk(blocks) && job in JobsOf(r, GroupOf(blocks, slug))
    ensures b in blocks && BlockSlug(b) == slug && JobOf(r, b) == job
  {
    b := blocks[0];
    var rest := GroupOf(blocks[1..], slug);
    if BlockSlug(b) == slug {
      NoCommentsKeepsBlock(r, b);
      JobsOfMore(r, NoComments(b), rest);
      if job != JobOf(r, b) {
        b := GroupJobHasBlock(r, blocks[1..], slug, job);
      }
    } else {
      Nothing(rest);
      b := GroupJobHasBlock(r, blocks[1..], slug, job);
    }
  }

  lemma {:induction false} GroupNamesAreDistinct(r: Readers, blocks: seq<Block>, slug: string)
    requires BlocksOk(blocks) && DistinctNames(JobsOf(r, blocks))
    ensures DistinctNames(JobsOf(r, GroupOf(blocks, slug)))
  {
    if blocks != [] {
      var rest := GroupOf(blocks[1..], slug);
      assert JobsOf(r, blocks)[1..] == JobsOf(r, blocks[1..]);
      GroupNamesAreDistinct(r, blocks[1..], slug);
      if BlockSlug(blocks[0]) == slug {
        NoCommentsKeepsBlock(r, blocks[0]);
        JobsOfMore(r, NoComments(blocks[0]), rest);
        forall job | job in JobsOf(r, rest)
          ensures job.name != JobOf(r, blocks[0]).name
        {
          var b := GroupJobHasBlock(r, blocks[1..], slug, job);
          BlockHasJob(r, blocks[1..], b);
        }
        DistinctMore(JobOf(r, blocks[0]), JobsOf(r, rest));
      } else {
        Nothing(rest);
      }
    }
  }

  lemma {:induction false} OwnedHas(jobs: seq<Job>, slug: string, job: Job)
    requires job in jobs
    ensures job.(slug := slug) in Owned(jobs, slug)
  {
    if job != jobs[0] {
      OwnedHas(jobs[1..], slug, job);
    }
  }

  lemma OwnedFrom(jobs: seq<Job>, slug: string, owned: Job) returns (job: Job)
    requires owned in Owned(jobs, slug)
    ensures job in jobs && owned == job.(slug := slug)
  {
    job := jobs[0];
    if owned != job.(slug := slug) {
      job := OwnedFrom(jobs[1..], slug, owned);
    }
  }

  lemma {:induction false} OwnedStayDistinct(jobs: seq<Job>, slug: string)
    requires DistinctNames(jobs)
    ensures DistinctNames(Owned(jobs, slug))
  {
    if jobs != [] {
      OwnedStayDistinct(jobs[1..], slug);
      forall owned | owned in Owned(jobs[1..], slug)
        ensures owned.name != jobs[0].name
      {
        var job := OwnedFrom(jobs[1..], slug, owned);
        assert job.name in Names(jobs[1..]);
      }
      DistinctMore(jobs[0].(slug := slug), Owned(jobs[1..], slug));
    }
  }

  function ProjectFile(blocks: seq<Block>, slug: string): File {
    File(slug, Body(GroupOf(blocks, slug)))
  }

  lemma {:induction false} FileJobs(r: Readers, blocks: seq<Block>, slug: string)
    requires BlocksOk(blocks)
    ensures JobsOfFile(r, ProjectFile(blocks, slug)) == Owned(JobsOf(r, GroupOf(blocks, slug)), slug)
  {
    var group := GroupOf(blocks, slug);
    GroupIsOk(blocks, slug);
    BodySays(group);
    Nothing(BlocksSay(group));
    TextDefines(r, Body(group), [], group);
  }

  /** The file written for a project holds its blocks' jobs, under that project. */
  lemma {:induction false} FileHasJob(r: Readers, blocks: seq<Block>, slug: string, b: Block)
    requires BlocksOk(blocks) && b in blocks && BlockSlug(b) == slug
    ensures JobOf(r, b).(slug := slug) in JobsOfFile(r, ProjectFile(blocks, slug))
  {
    FileJobs(r, blocks, slug);
    GroupHasJob(r, blocks, slug, b);
    OwnedHas(JobsOf(r, GroupOf(blocks, slug)), slug, JobOf(r, b));
  }

  lemma FileJobHasBlock(r: Readers, blocks: seq<Block>, slug: string, owned: Job) returns (b: Block)
    requires BlocksOk(blocks) && owned in JobsOfFile(r, ProjectFile(blocks, slug))
    ensures b in blocks && BlockSlug(b) == slug && owned == JobOf(r, b).(slug := slug)
  {
    FileJobs(r, blocks, slug);
    var job := OwnedFrom(JobsOf(r, GroupOf(blocks, slug)), slug, owned);
    b := GroupJobHasBlock(r, blocks, slug, job);
  }

  lemma {:induction false} FileNamesAreDistinct(r: Readers, blocks: seq<Block>, slug: string)
    requires BlocksOk(blocks) && DistinctNames(JobsOf(r, blocks))
    ensures DistinctNames(JobsOfFile(r, ProjectFile(blocks, slug)))
  {
    FileJobs(r, blocks, slug);
    GroupNamesAreDistinct(r, blocks, slug);
    OwnedStayDistinct(JobsOf(r, GroupOf(blocks, slug)), slug);
  }

  // ----- Writing all groups -----

  predicate OnceEach(slugs: seq<string>) {
    slugs == [] || (slugs[0] !in slugs[1..] && OnceEach(slugs[1..]))
  }

  predicate Moves(disk: Disk, slug: string) {
    !TargetExists(disk, slug) && Safe(slug)
  }

  /** The jobs that writing the groups of `slugs` adds to jobs.d. */
  function Added(r: Readers, disk: Disk, slugs: seq<string>, blocks: seq<Block>): set<Job> {
    if slugs == [] then {}
    else
      (if Moves(disk, slugs[0]) then JobSet(JobsOfFile(r, ProjectFile(blocks, slugs[0]))) else {})
      + Added(r, disk, slugs[1..], blocks)
  }

  /** Writing the file of this project raises. */
  predicate Raises(disk: Disk, slug: string) {
    !TargetExists(disk, slug) && slug in disk.refused
  }

  /** The projects that come before the first whose write raises. */
  function Reached(disk: Disk, slugs: seq<string>): seq<string> {
    if slugs == [] || Raises(disk, slugs[0]) then [] else [slugs[0]] + Reached(disk, slugs[1..])
  }

  /** The blocks that stay because their file exists. */
  function Stayed(disk: Disk, slugs: seq<string>, blocks: seq<Block>): seq<Block> {
    if slugs == [] then []
    else (if TargetExists(disk, slugs[0]) then GroupOf(blocks, slugs[0]) else []) + Stayed(disk, slugs[1..], blocks)
  }

  /** The names of `slugs`' projects, all of them new to jobs.d. */
  predicate NewNames(r: Readers, names: set<string>, slugs: seq<string>, blocks: seq<Block>) {
    forall b | b in blocks && BlockSlug(b) in slugs :: JobOf(r, b).name !in names
  }

  lemma WriteTouchesOne(disk: Disk, slug: string, text: string, other: string)
    requires other != slug
    ensures TargetExists(Write(disk, slug, text), other) <==> TargetExists(disk, other)
  {
    InsertedSlugs(disk.files, File(slug, text), other);
  }

  lemma {:induction false} SameTargets(a: Disk, b: Disk, slugs: seq<string>, blocks: seq<Block>)
    requires forall s | s in slugs :: TargetExists(a, s) == TargetExists(b, s)
    ensures Stayed(a, slugs, blocks) == Stayed(b, slugs, blocks)
    ensures a.refused == b.refused ==> Reached(a, slugs) == Reached(b, slugs)
  {
    if slugs != [] {
      assert slugs[0] in slugs;
      SameTargets(a, b, slugs[1..], blocks);
    }
  }

  lemma {:induction false} SameAdded(r: Readers, a: Disk, b: Disk, slugs: seq<string>, blocks: seq<Block>)
    requires forall s | s in slugs :: TargetExists(a, s) == TargetExists(b, s)
    ensures Added(r, a, slugs, blocks) == Added(r, b, slugs, blocks)
  {
    if slugs != [] {
      assert slugs[0] in slugs;
      SameAdded(r, a, b, slugs[1..], blocks);
    }
  }

  lemma {:induction false} ReachedAre(disk: Disk, slugs: seq<string>)
    ensures forall s | s in Reached(disk, slugs) :: s in slugs && !Raises(disk, s)
    ensures Reached(disk, slugs) == slugs <==> forall s | s in slugs :: !Raises(disk, s)
  {
    if slugs != [] {
      ReachedAre(disk, slugs[1..]);
      HeadAndTail(slugs);
      if !Raises(disk, slugs[0]) {
        assert Reached(disk, slugs)[1..] == Reached(disk, slugs[1..]);
      } else {
        assert slugs[0] in slugs;
      }
    }
  }

  lemma FileNamesAreNew(r: Readers, names: set<string>, slugs: seq<string>, blocks: seq<Block>, slug: string)
    requires BlocksOk(blocks) && NewNames(r, names, slugs, blocks) && slug in slugs
    ensures Names(JobsOfFile(r, ProjectFile(blocks, slug))) !! names
  {
    forall job | job in JobsOfFile(r, ProjectFile(blocks, slug))
      ensures job.name !in names
    {
      var b := FileJobHasBlock(r, blocks, slug, job);
    }
  }

  /** Once one project is written, the names of the others are still new. */
  lemma {:induction false} OthersStayNew(r: Readers, names: set<string>, slugs: seq<string>, blocks: seq<Block>)
    requires BlocksOk(blocks) && DistinctNames(JobsOf(r, blocks))
    requires slugs != [] && OnceEach(slugs) && NewNames(r, names, slugs, blocks)
    ensures NewNames(r, names + Names(JobsOfFile(r, ProjectFile(blocks, slugs[0]))), slugs[1..], blocks)
  {
    forall b | b in blocks && BlockSlug(b) in slugs[1..]
      ensures JobOf(r, b).name !in names + Names(JobsOfFile(r, ProjectFile(blocks, slugs[0])))
    {
      forall job | job in JobsOfFile(r, ProjectFile(blocks, slugs[0]))
        ensures job.name != JobOf(r, b).name
      {
        var c := FileJobHasBlock(r, blocks, slugs[0], job);
        if JobOf(r, c).name == JobOf(r, b).name {
          NamesTellBlocksApart(r, blocks, b, c);
        }
      }
    }
  }

  function NamesOf(jobs: set<Job>): set<string> {
    set job | job in jobs :: job.name
  }

  lemma NamesOfBoth(a: set<Job>, b: set<Job>)
    ensures NamesOf(a + b) == NamesOf(a) + NamesOf(b)
  {
  }

  function AddedBy(r: Readers, disk: Disk, slug: string, blocks: seq<Block>): set<Job> {
    if Moves(disk, slug) then JobSet(JobsOfFile(r, ProjectFile(blocks, slug))) else {}
  }

  lemma {:induction false} OneGroupWritten(r: Readers, disk: Disk, slugs: seq<string>, blocks: seq<Block>)
    requires BlocksOk(blocks) && DistinctNames(JobsOf(r, blocks)) && slugs != [] && OnceEach(slugs)
    requires NewNames(r, FileNames(r, disk.files), slugs, blocks) && !TargetExists(disk, slugs[0])
    ensures
      var next := Write(disk, slugs[0], Body(GroupOf(blocks, slugs[0])));
      var more := AddedBy(r, disk, slugs[0], blocks);
      && JobSet(Merge(r, {}, next.files)) == JobSet(Merge(r, {}, disk.files)) + more
      && FileNames(r, next.files) == FileNames(r, disk.files) + NamesOf(more)
      && NewNames(r, FileNames(r, next.files), slugs[1..], blocks)
  {
    if Safe(slugs[0]) {
      var file := ProjectFile(blocks, slugs[0]);
      FileNamesAreDistinct(r, blocks, slugs[0]);
      FileNamesAreNew(r, FileNames(r, disk.files), slugs, blocks, slugs[0]);
      InsertedFileAdds(r, {}, disk.files, file);
      OthersStayNew(r, FileNames(r, disk.files), slugs, blocks);
      assert NamesOf(JobSet(JobsOfFile(r, file))) == Names(JobsOfFile(r, file));
    }
  }

  /** Writing one project's file changes nothing for the others. */
  lemma {:induction false} OthersAfterWrite(disk: Disk, slugs: seq<string>, text: string, blocks: seq<Block>)
    requires slugs != [] && OnceEach(slugs)
    ensures
      var next := Write(disk, slugs[0], text);
      && (forall s | s in slugs[1..] :: TargetExists(next, s) == TargetExists(disk, s))
      && Stayed(next, slugs[1..], blocks) == Stayed(disk, slugs[1..], blocks)
      && Reached(next, slugs[1..]) == Reached(disk, slugs[1..])
  {
    forall s | s in slugs[1..]
      ensures TargetExists(Write(disk, slugs[0], text), s) == TargetExists(disk, s)
    {
      WriteTouchesOne(disk, slugs[0], text, s);
    }
    SameTargets(Write(disk, slugs[0], text), disk, slugs[1..], blocks);
  }

  lemma {:induction false} AddedAfterWrite(r: Readers, disk: Disk, slugs: seq<string>, blocks: seq<Block>)
    requires slugs != [] && OnceEach(slugs)
    ensures
      var next := Write(disk, slugs[0], Body(GroupOf(blocks, slugs[0])));
      && Reached(next, slugs[1..]) == Reached(disk, slugs[1..])
      && Added(r, next, Reached(disk, slugs[1..]), blocks) == Added(r, disk, Reached(disk, slugs[1..]), blocks)
  {
    var text := Body(GroupOf(blocks, slugs[0]));
    OthersAfterWrite(disk, slugs, text, blocks);
    ReachedAre(disk, slugs[1..]);
    SameAdded(r, Write(disk, slugs[0], text), disk, Reached(disk, slugs[1..]), blocks);
  }

  lemma {:induction false} AddedMore(r: Readers, disk: Disk, slugs: seq<string>, blocks: seq<Block>)
    requires slugs != []
    ensures Added(r, disk, slugs, blocks) == AddedBy(r, disk, slugs[0], blocks) + Added(r, disk, slugs[1..], blocks)
    ensures NamesOf(Added(r, disk, slugs, blocks))
            == NamesOf(AddedBy(r, disk, slugs[0], blocks)) + NamesOf(Added(r, disk, slugs[1..], blocks))
  {
    NamesOfBoth(AddedBy(r, disk, slugs[0], blocks), Added(r, disk, slugs[1..], blocks));
  }

  lemma {:induction false} AddedByTheFirst(r: Readers, disk: Disk, slugs: seq<string>, blocks: seq<Block>)
    requires slugs != [] && !Raises(disk, slugs[0])
    ensures
      var first, rest := AddedBy(r, disk, slugs[0], blocks), Added(r, disk, Reached(disk, slugs[1..]), blocks);
      && Added(r, disk, Reached(disk, slugs), blocks) == first + rest
      && NamesOf(Added(r, disk, Reached(disk, slugs), blocks)) == NamesOf(first) + NamesOf(rest)
      && (TargetExists(disk, slugs[0]) ==> first == {})
  {
    assert Reached(disk, slugs)[1..] == Reached(disk, slugs[1..]);
    AddedMore(r, disk, Reached(disk, slugs), blocks);
  }

  /** Writing the groups adds the jobs of the projects without a file, as far as it came. */
  lemma {:induction false} GroupsWritten(
      r: Readers, disk: Disk, slugs: seq<string>, blocks: seq<Block>, kept: seq<Block>)
    requires BlocksOk(blocks) && DistinctNames(JobsOf(r, blocks)) && OnceEach(slugs)
    requires NewNames(r, FileNames(r, disk.files), slugs, blocks)
    ensures
      var files := WriteGroups(disk, slugs, blocks, kept).disk.files;
      var added := Added(r, disk, Reached(disk, slugs), blocks);
      && JobSet(Merge(r, {}, files)) == JobSet(Merge(r, {}, disk.files)) + added
      && FileNames(r, files) == FileNames(r, disk.files) + NamesOf(added)
    decreases |slugs|
  {
    if slugs != [] && !Raises(disk, slugs[0]) {
      var rest, group := slugs[1..], GroupOf(blocks, slugs[0]);
      var first, more := AddedBy(r, disk, slugs[0], blocks), Added(r, disk, Reached(disk, rest), blocks);
      AddedByTheFirst(r, disk, slugs, blocks);
      RegroupSets(JobSet(Merge(r, {}, disk.files)), first, more);
      RegroupSets(FileNames(r, disk.files), NamesOf(first), NamesOf(more));
      if TargetExists(disk, slugs[0]) {
        GroupsWritten(r, disk, rest, blocks, kept + group);
      } else {
        OneGroupWritten(r, disk, slugs, blocks);
        AddedAfterWrite(r, disk, slugs, blocks);
        GroupsWritten(r, Write(disk, slugs[0], Body(group)), rest, blocks, kept);
      }
    }
  }

  /** Writing ends early exactly when a write raises, and otherwise keeps the
      blocks of the projects whose file exists. */
  lemma {:induction false} GroupsEnd(disk: Disk, slugs: seq<string>, blocks: seq<Block>, kept: seq<Block>)
    requires OnceEach(slugs)
    ensures
      var end := WriteGroups(disk, slugs, blocks, kept);
      && (end.raised <==> Reached(disk, slugs) != slugs)
      && (!end.raised ==> end.kept == kept + Stayed(disk, slugs, blocks))
    decreases |slugs|
  {
    if slugs == [] {
      Nothing(kept);
    } else if !Raises(disk, slugs[0]) {
      var rest, group := slugs[1..], GroupOf(blocks, slugs[0]);
      ReachedMore(disk, slugs);
      if TargetExists(disk, slugs[0]) {
        GroupsEnd(disk, rest, blocks, kept + group);
        Regroup(kept, group, Stayed(disk, rest, blocks));
      } else {
        OthersAfterWrite(disk, slugs, Body(group), blocks);
        GroupsEnd(Write(disk, slugs[0], Body(group)), rest, blocks, kept);
        Nothing(Stayed(disk, rest, blocks));
      }
    }
  }

  lemma {:induction false} ReachedMore(disk: Disk, slugs: seq<string>)
    requires slugs != [] && !Raises(disk, slugs[0])
    ensures Reached(disk, slugs) == slugs <==> Reached(disk, slugs[1..]) == slugs[1..]
  {
    HeadAndTail(slugs);
    assert Reached(disk, slugs)[1..] == Reached(disk, slugs[1..]);
  }

  // ----- Which blocks go where -----

  lemma {:induction false} SlugsAre(blocks: seq<Block>, known: seq<string>)
    requires OnceEach(known) && "" !in known
    ensures OnceEach(Slugs(blocks, known)) && "" !in Slugs(blocks, known)
    ensures forall s | s in known :: s in Slugs(blocks, known)
    ensures forall b | b in blocks && BlockSlug(b) != "" :: BlockSlug(b) in Slugs(blocks, known)
    decreases |blocks|
  {
    if blocks != [] {
      var slug := BlockSlug(blocks[0]);
      if slug != "" && slug !in known {
        OnceMore(known, slug);
      }
      SlugsAre(blocks[1..], WithSlug(known, slug));
      assert forall b | b in blocks :: b == blocks[0] || b in blocks[1..];
    }
  }

  lemma {:induction false} OnceMore(slugs: seq<string>, slug: string)
    requires OnceEach(slugs) && slug !in slugs
    ensures OnceEach(slugs + [slug])
  {
    if slugs != [] {
      OnceMore(slugs[1..], slug);
      assert (slugs + [slug])[0] == slugs[0] && (slugs + [slug])[1..] == slugs[1..] + [slug];
    } else {
      assert slugs + [slug] == [slug] && [slug][1..] == [];
    }
  }

  lemma {:induction false} NoSlugAre(blocks: seq<Block>, b: Block)
    ensures b in NoSlug(blocks) <==> b in blocks && BlockSlug(b) == ""
  {
    if blocks != [] {
      NoSlugAre(blocks[1..], b);
    }
  }

  lemma {:induction false} AddedHas(r: Readers, disk: Disk, slugs: seq<string>, blocks: seq<Block>, b: Block)
    requires BlocksOk(blocks) && b in blocks && BlockSlug(b) in slugs && Moves(disk, BlockSlug(b))
    ensures JobOf(r, b).(slug := BlockSlug(b)) in Added(r, disk, slugs, blocks)
  {
    if BlockSlug(b) == slugs[0] {
      FileHasJob(r, blocks, slugs[0], b);
    } else {
      AddedHas(r, disk, slugs[1..], blocks, b);
    }
  }

  lemma AddedFrom(r: Readers, disk: Disk, slugs: seq<string>, blocks: seq<Block>, job: Job)
    returns (b: Block)
    requires BlocksOk(blocks) && job in Added(r, disk, slugs, blocks)
    ensures b in blocks && BlockSlug(b) in slugs && Moves(disk, BlockSlug(b))
    ensures job == JobOf(r, b).(slug := BlockSlug(b))
  {
    if job in AddedBy(r, disk, slugs[0], blocks) {
      b := FileJobHasBlock(r, blocks, slugs[0], job);
    } else {
      b := AddedFrom(r, disk, slugs[1..], blocks, job);
    }
  }

  lemma {:induction false} JobsOfConcat(r: Readers, a: seq<Block>, b: seq<Block>)
    ensures JobsOf(r, a + b) == JobsOf(r, a) + JobsOf(r, b)
    decreases |a|
  {
    if a == [] {
      Nothing(b);
      Nothing(JobsOf(r, b));
    } else {
      assert (a + b)[0] == a[0] && (a + b)[1..] == a[1..] + b;
      JobsOfConcat(r, a[1..], b);
    }
  }

  lemma {:induction false} StayedHas(r: Readers, disk: Disk, slugs: seq<string>, blocks: seq<Block>, b: Block)
    requires BlocksOk(blocks) && b in blocks && BlockSlug(b) in slugs && TargetExists(disk, BlockSlug(b))
    ensures JobOf(r, b) in JobsOf(r, Stayed(disk, slugs, blocks))
  {
    var first := if TargetExists(disk, slugs[0]) then GroupOf(blocks, slugs[0]) else [];
    JobsOfConcat(r, first, Stayed(disk, slugs[1..], blocks));
    if BlockSlug(b) == slugs[0] {
      GroupHasJob(r, blocks, slugs[0], b);
    } else {
      StayedHas(r, disk, slugs[1..], blocks, b);
    }
  }

  lemma StayedFrom(r: Readers, disk: Disk, slugs: seq<string>, blocks: seq<Block>, job: Job)
    returns (b: Block)
    requires BlocksOk(blocks) && job in JobsOf(r, Stayed(disk, slugs, blocks))
    ensures b in blocks && BlockSlug(b) in slugs && TargetExists(disk, BlockSlug(b)) && job == JobOf(r, b)
  {
    var first := if TargetExists(disk, slugs[0]) then GroupOf(blocks, slugs[0]) else [];
    JobsOfConcat(r, first, Stayed(disk, slugs[1..], blocks));
    if job in JobsOf(r, first) {
      b := GroupJobHasBlock(r, blocks, slugs[0], job);
    } else {
      b := StayedFrom(r, disk, slugs[1..], blocks, job);
    }
  }

  // ----- Before and after -----

  function BlocksOf(main: string): seq<Block> {
    CutLines(SplitLines(main)).blocks
  }

  function SlugsOf(main: string): seq<string> {
    Slugs(BlocksOf(main), [])
  }

  /** Some project has no file yet, and its file cannot be written. */
  predicate Aborts(main: string, disk: Disk) {
    exists slug | slug in SlugsOf(main) :: Raises(disk, slug)
  }

  predicate Moved(disk: Disk, b: Block) {
    BlockSlug(b) != "" && !TargetExists(disk, BlockSlug(b))
  }

  /** The block's project gets its file in jobs.d before anything raises. */
  predicate Filed(main: string, disk: Disk, b: Block) {
    BlockSlug(b) in Reached(disk, SlugsOf(main)) && Moves(disk, BlockSlug(b))
  }

  /** The block is not read from HEARTBEAT.md any more: it was taken out, or, when
      migrating raised, its name is found in jobs.d first. */
  predicate Leaves(main: string, disk: Disk, b: Block) {
    if Aborts(main, disk) then Filed(main, disk, b) else Moved(disk, b)
  }

  /** Leaving keeps the block's job: it has no prompt, or the parser agrees on the
      project whose file it is in now, or it was in no project and is lost to sight. */
  predicate Preserved(r: Readers, main: string, disk: Disk, b: Block) {
    Leaves(main, disk, b) && JobOf(r, b).prompt != "" ==>
      JobOf(r, b).slug == if Filed(main, disk, b) then BlockSlug(b) else ""
  }

  /** Every job of HEARTBEAT.md has a name of its own, and jobs.d has none of them. */
  predicate UniqueNames(r: Readers, main: string, files: seq<File>) {
    DistinctNames(JobsOf(r, BlocksOf(main))) && Names(JobsOf(r, BlocksOf(main))) !! FileNames(r, files)
  }

  lemma {:induction false} RaisedIff(main: string, disk: Disk)
    ensures Aborts(main, disk) <==> Reached(disk, SlugsOf(main)) != SlugsOf(main)
  {
    ReachedAre(disk, SlugsOf(main));
  }

  /** Without a failing write, every project in no file yet gets one. */
  lemma {:induction false} FiledIff(main: string, disk: Disk, b: Block)
    requires b in BlocksOf(main) && !Aborts(main, disk)
    ensures Filed(main, disk, b) <==> Moved(disk, b) && Safe(BlockSlug(b))
  {
    RaisedIff(main, disk);
    SlugsAre(BlocksOf(main), []);
  }

  lemma {:induction false} NotInAre(names: set<string>, jobs: seq<Job>, job: Job)
    ensures job in NotIn(names, jobs) <==> job in jobs && job.name !in names
  {
    if jobs != [] {
      NotInAre(names, jobs[1..], job);
    }
  }

  lemma {:induction false} LiveAre(jobs: seq<Job>, job: Job)
    ensures job in Live(jobs) <==> job in jobs && IsLive(job)
  {
    if jobs != [] {
      LiveAre(jobs[1..], job);
    }
  }

  /** What the daemon reads from a HEARTBEAT.md of these blocks. */
  lemma {:induction false} ReadJobs(
      r: Readers, main: string, files: seq<File>, preamble: seq<string>, blocks: seq<Block>, job: Job)
    requires TextMeanings(main) == Meanings(preamble) + BlocksSay(blocks) && BlocksOk(blocks)
    requires forall k | 0 <= k < |preamble| :: !OpensBlock(preamble[k])
    ensures job in AllJobs(r, Heartbeat(Some(main), files)) <==>
              && IsLive(job)
              && (job in Merge(r, {}, files) || (job in JobsOf(r, blocks) && job.name !in FileNames(r, files)))
    ensures Tick(r, Heartbeat(Some(main), files)) == HearAll(r, NEW_PARSING, Meanings(preamble)).tick
  {
    TextDefines(r, main, preamble, blocks);
    NotInAre(FileNames(r, files), JobsOf(r, blocks), job);
    LiveAre(Merge(r, {}, files) + NotIn(FileNames(r, files), JobsOf(r, blocks)), job);
  }

  /** The blocks that migrating leaves in HEARTBEAT.md. */
  function KeptBlocks(main: string, disk: Disk): seq<Block> {
    NoSlug(BlocksOf(main)) + Stayed(disk, Slugs(BlocksOf(main), []), BlocksOf(main))
  }

  lemma {:induction false} MainIsCut(main: string)
    ensures
      var parts := CutLines(SplitLines(main));
      && PartsOk(parts) && BlocksOk(parts.blocks)
      && TextMeanings(main) == Meanings(parts.preamble) + BlocksSay(parts.blocks)
  {
    CutSays(SplitLines(main));
  }

  lemma {:induction false} NoSlugAreOk(blocks: seq<Block>)
    requires BlocksOk(blocks)
    ensures BlocksOk(NoSlug(blocks))
  {
    if blocks != [] {
      NoSlugAreOk(blocks[1..]);
    }
  }

  lemma {:induction false} StayedAreOk(disk: Disk, slugs: seq<string>, blocks: seq<Block>)
    requires BlocksOk(blocks)
    ensures BlocksOk(Stayed(disk, slugs, blocks))
  {
    if slugs != [] {
      GroupIsOk(blocks, slugs[0]);
      StayedAreOk(disk, slugs[1..], blocks);
    }
  }

  lemma KeptAreOk(main: string, disk: Disk)
    ensures BlocksOk(KeptBlocks(main, disk))
  {
    MainIsCut(main);
    NoSlugAreOk(BlocksOf(main));
    StayedAreOk(disk, Slugs(BlocksOf(main), []), BlocksOf(main));
  }

  /** When nothing raises, a job is kept exactly when its block does not move. */
  lemma {:induction false} KeptHas(r: Readers, main: string, disk: Disk, b: Block)
    requires b in BlocksOf(main) && !Moved(disk, b)
    ensures JobOf(r, b) in JobsOf(r, KeptBlocks(main, disk))
  {
    var blocks := BlocksOf(main);
    var slugs := Slugs(blocks, []);
    MainIsCut(main);
    SlugsAre(blocks, []);
    JobsOfConcat(r, NoSlug(blocks), Stayed(disk, slugs, blocks));
    if BlockSlug(b) == "" {
      NoSlugAre(blocks, b);
      BlockHasJob(r, NoSlug(blocks), b);
    } else {
      StayedHas(r, disk, slugs, blocks, b);
    }
  }

  lemma KeptFrom(r: Readers, main: string, disk: Disk, job: Job) returns (b: Block)
    requires job in JobsOf(r, KeptBlocks(main, disk))
    ensures b in BlocksOf(main) && !Moved(disk, b) && job == JobOf(r, b)
  {
    var blocks := BlocksOf(main);
    var slugs := Slugs(blocks, []);
    MainIsCut(main);
    JobsOfConcat(r, NoSlug(blocks), Stayed(disk, slugs, blocks));
    if job in JobsOf(r, NoSlug(blocks)) {
      b := JobHasBlock(r, NoSlug(blocks), job);
      NoSlugAre(blocks, b);
    } else {
      b := StayedFrom(r, disk, slugs, blocks, job);
    }
  }

  function AddedJobs(r: Readers, main: string, disk: Disk): set<Job> {
    Added(r, disk, Reached(disk, SlugsOf(main)), BlocksOf(main))
  }

  lemma {:induction false} FiledHas(r: Readers, main: string, disk: Disk, b: Block)
    requires b in BlocksOf(main) && Filed(main, disk, b)
    ensures JobOf(r, b).(slug := BlockSlug(b)) in AddedJobs(r, main, disk)
  {
    MainIsCut(main);
    AddedHas(r, disk, Reached(disk, SlugsOf(main)), BlocksOf(main), b);
  }

  lemma FiledFrom(r: Readers, main: string, disk: Disk, job: Job) returns (b: Block)
    requires job in AddedJobs(r, main, disk)
    ensures b in BlocksOf(main) && Filed(main, disk, b) && job == JobOf(r, b).(slug := BlockSlug(b))
  {
    MainIsCut(main);
    b := AddedFrom(r, disk, Reached(disk, SlugsOf(main)), BlocksOf(main), job);
  }

  // ----- What is read afterwards -----

  lemma {:induction false} NewToFiles(r: Readers, main: string, disk: Disk, b: Block)
    requires UniqueNames(r, main, disk.files) && b in BlocksOf(main)
    ensures JobOf(r, b).name !in FileNames(r, disk.files)
  {
    BlockHasJob(r, BlocksOf(main), b);
    assert JobOf(r, b).name in Names(JobsOf(r, BlocksOf(main)));
  }

  lemma {:induction false} WrittenFiles(r: Readers, main: string, disk: Disk)
    requires UniqueNames(r, main, disk.files)
    ensures
      var end := WriteGroups(disk, SlugsOf(main), BlocksOf(main), NoSlug(BlocksOf(main)));
      && JobSet(Merge(r, {}, end.disk.files)) == JobSet(Merge(r, {}, disk.files)) + AddedJobs(r, main, disk)
      && FileNames(r, end.disk.files) == FileNames(r, disk.files) + NamesOf(AddedJobs(r, main, disk))
      && (end.raised <==> Aborts(main, disk))
      && (!end.raised ==> end.kept == KeptBlocks(main, disk))
  {
    var blocks := BlocksOf(main);
    MainIsCut(main);
    SlugsAre(blocks, []);
    forall b | b in blocks {
      NewToFiles(r, main, disk, b);
    }
    GroupsWritten(r, disk, SlugsOf(main), blocks, NoSlug(blocks));
    GroupsEnd(disk, SlugsOf(main), blocks, NoSlug(blocks));
    RaisedIff(main, disk);
  }

  /** A job of HEARTBEAT.md has the name of an added one exactly when it is from
      the same block. */
  lemma NameIsAddedIff(r: Readers, main: string, disk: Disk, b: Block)
    requires UniqueNames(r, main, disk.files) && b in BlocksOf(main)
    ensures JobOf(r, b).name in NamesOf(AddedJobs(r, main, disk)) <==> Filed(main, disk, b)
  {
    var name := JobOf(r, b).name;
    if Filed(main, disk, b) {
      FiledHas(r, main, disk, b);
      assert JobOf(r, b).(slug := BlockSlug(b)).name == name;
    }
    if name in NamesOf(AddedJobs(r, main, disk)) {
      var job :| job in AddedJobs(r, main, disk) && job.name == name;
      var c := FiledFrom(r, main, disk, job);
      NamesTellBlocksApart(r, BlocksOf(main), b, c);
    }
  }

  lemma {:induction false} NoSlugsNothingMoves(blocks: seq<Block>)
    requires Slugs(blocks, []) == []
    ensures NoSlug(blocks) == blocks
  {
    SlugsAre(blocks, []);
    AllWithoutSlug(blocks);
  }

  lemma {:induction false} AllWithoutSlug(blocks: seq<Block>)
    requires forall b | b in blocks :: BlockSlug(b) == ""
    ensures NoSlug(blocks) == blocks
  {
    if blocks != [] {
      AllWithoutSlug(blocks[1..]);
    }
  }

  /** The jobs still read from HEARTBEAT.md. */
  function LeftJobs(r: Readers, main: string, disk: Disk): set<Job> {
    set b | b in BlocksOf(main) && !Leaves(main, disk, b) :: JobOf(r, b)
  }

  lemma {:induction false} LeftIfKept(r: Readers, main: string, disk: Disk, job: Job)
    requires UniqueNames(r, main, disk.files) && !Aborts(main, disk)
    ensures
      var names := FileNames(r, disk.files) + NamesOf(AddedJobs(r, main, disk));
      job in JobsOf(r, KeptBlocks(main, disk)) && job.name !in names <==> job in LeftJobs(r, main, disk)
  {
    if job in JobsOf(r, KeptBlocks(main, disk)) {
      var b := KeptFrom(r, main, disk, job);
    }
    if job in LeftJobs(r, main, disk) {
      var b :| b in BlocksOf(main) && !Leaves(main, disk, b) && job == JobOf(r, b);
      KeptHas(r, main, disk, b);
      NewToFiles(r, main, disk, b);
      NameIsAddedIff(r, main, disk, b);
      FiledIff(main, disk, b);
    }
  }

  lemma {:induction false} LeftIfRaised(r: Readers, main: string, disk: Disk, job: Job)
    requires UniqueNames(r, main, disk.files) && Aborts(main, disk)
    ensures
      var names := FileNames(r, disk.files) + NamesOf(AddedJobs(r, main, disk));
      job in JobsOf(r, BlocksOf(main)) && job.name !in names <==> job in LeftJobs(r, main, disk)
  {
    var blocks := BlocksOf(main);
    if job in JobsOf(r, blocks) {
      var b := JobHasBlock(r, blocks, job);
      NameIsAddedIff(r, main, disk, b);
    }
    if job in LeftJobs(r, main, disk) {
      var b :| b in blocks && !Leaves(main, disk, b) && job == JobOf(r, b);
      BlockHasJob(r, blocks, b);
      NewToFiles(r, main, disk, b);
      NameIsAddedIff(r, main, disk, b);
    }
  }

  /** All files after migrating. */
  function After(main: string, disk: Disk): Heartbeat {
    Heartbeat(Some(Migrated(main, disk).main), Migrated(main, disk).disk.files)
  }

  lemma NothingToMigrate(r: Readers, main: string, disk: Disk)
    requires SlugsOf(main) == []
    ensures After(main, disk) == Heartbeat(Some(main), disk.files)
    ensures !Aborts(main, disk) && AddedJobs(r, main, disk) == {} && KeptBlocks(main, disk) == BlocksOf(main)
  {
    NoSlugsNothingMoves(BlocksOf(main));
    Nothing(BlocksOf(main));
  }

  /** The daemon's jobs after migrating, raised or not: those of jobs.d as it was,
      those filed, and those left; and the same tick. */
  lemma {:induction false} ReadAfter(r: Readers, main: string, disk: Disk, job: Job)
    requires UniqueNames(r, main, disk.files)
    ensures
      var after := After(main, disk);
      && Tick(r, after) == Tick(r, Heartbeat(Some(main), disk.files))
      && (job in AllJobs(r, after) <==>
            IsLive(job) && (job in Merge(r, {}, disk.files) || job in AddedJobs(r, main, disk)
                            || job in LeftJobs(r, main, disk)))
  {
    var parts := CutLines(SplitLines(main));
    MainIsCut(main);
    ReadJobs(r, main, disk.files, parts.preamble, parts.blocks, job);
    if SlugsOf(main) == [] {
      NothingToMigrate(r, main, disk);
      LeftIfKept(r, main, disk, job);
    } else {
      var end := Migrated(main, disk);
      WrittenFiles(r, main, disk);
      assert job in Merge(r, {}, end.disk.files) <==> job in JobSet(Merge(r, {}, end.disk.files));
      if end.raised {
        LeftIfRaised(r, main, disk, job);
        ReadJobs(r, main, end.disk.files, parts.preamble, parts.blocks, job);
      } else {
        LeftIfKept(r, main, disk, job);
        KeptAreOk(main, disk);
        NewMainSays(parts.preamble, parts.blocks, KeptBlocks(main, disk));
        ReadJobs(r, end.main, end.disk.files, parts.preamble, KeptBlocks(main, disk), job);
      }
    }
  }

  /** Before migrating. */
  lemma {:induction false} ReadBefore(r: Readers, main: string, files: seq<File>, job: Job)
    requires UniqueNames(r, main, files)
    ensures job in AllJobs(r, Heartbeat(Some(main), files)) <==>
              IsLive(job) && (job in Merge(r, {}, files) || job in JobsOf(r, BlocksOf(main)))
  {
    var parts := CutLines(SplitLines(main));
    MainIsCut(main);
    ReadJobs(r, main, files, parts.preamble, parts.blocks, job);
    assert job in JobsOf(r, BlocksOf(main)) ==> job.name in Names(JobsOf(r, BlocksOf(main)));
  }

  // ----- The theorem -----

  predicate SameJobs(r: Readers, a: Heartbeat, b: Heartbeat) {
    JobSet(AllJobs(r, a)) == JobSet(AllJobs(r, b))
  }

  lemma {:induction false} FiledLeaves(main: string, disk: Disk, b: Block)
    requires b in BlocksOf(main) && Filed(main, disk, b)
    ensures Leaves(main, disk, b) && BlockSlug(b) != ""
  {
    SlugsAre(BlocksOf(main), []);
    ReachedAre(disk, SlugsOf(main));
  }

  lemma {:induction false} JobFromAfter(r: Readers, main: string, disk: Disk, job: Job)
    requires forall b | b in BlocksOf(main) :: Preserved(r, main, disk, b)
    requires IsLive(job) && (job in AddedJobs(r, main, disk) || job in LeftJobs(r, main, disk))
    ensures job in JobsOf(r, BlocksOf(main))
  {
    if job in AddedJobs(r, main, disk) {
      var b := FiledFrom(r, main, disk, job);
      FiledLeaves(main, disk, b);
      BlockHasJob(r, BlocksOf(main), b);
    } else {
      var b :| b in BlocksOf(main) && !Leaves(main, disk, b) && job == JobOf(r, b);
      BlockHasJob(r, BlocksOf(main), b);
    }
  }

  lemma {:induction false} JobFromBefore(r: Readers, main: string, disk: Disk, job: Job)
    requires forall b | b in BlocksOf(main) :: Preserved(r, main, disk, b)
    requires IsLive(job) && job in JobsOf(r, BlocksOf(main))
    ensures job in AddedJobs(r, main, disk) || job in LeftJobs(r, main, disk)
  {
    var b := JobHasBlock(r, BlocksOf(main), job);
    assert Preserved(r, main, disk, b);
    if Leaves(main, disk, b) && Filed(main, disk, b) {
      FiledHas(r, main, disk, b);
    }
  }

  lemma PreservedKeepsJobs(r: Readers, main: string, disk: Disk, job: Job)
    requires UniqueNames(r, main, disk.files)
    requires forall b | b in BlocksOf(main) :: Preserved(r, main, disk, b)
    ensures job in AllJobs(r, After(main, disk)) <==> job in AllJobs(r, Heartbeat(Some(main), disk.files))
  {
    ReadAfter(r, main, disk, job);
    ReadBefore(r, main, disk.files, job);
    if IsLive(job) {
      if job in AddedJobs(r, main, disk) || job in LeftJobs(r, main, disk) {
        JobFromAfter(r, main, disk, job);
      }
      if job in JobsOf(r, BlocksOf(main)) {
        JobFromBefore(r, main, disk, job);
      }
    }
  }

  /** A job under the name of block `b` is that block's job, before. */
  lemma OnlyItsBlockBefore(r: Readers, main: string, files: seq<File>, b: Block, job: Job)
    requires UniqueNames(r, main, files) && b in BlocksOf(main) && job.name == JobOf(r, b).name
    requires job in AllJobs(r, Heartbeat(Some(main), files))
    ensures job == JobOf(r, b)
  {
    var blocks := BlocksOf(main);
    ReadBefore(r, main, files, job);
    BlockHasJob(r, blocks, b);
    assert JobOf(r, b).name in Names(JobsOf(r, blocks));
    MergedNames(r, {}, files);
    var c := JobHasBlock(r, blocks, job);
    NamesTellBlocksApart(r, blocks, b, c);
  }

  /** And after: left as it was, or filed. */
  lemma OnlyItsBlockAfter(r: Readers, main: string, disk: Disk, b: Block, job: Job)
    requires UniqueNames(r, main, disk.files) && b in BlocksOf(main) && job.name == JobOf(r, b).name
    requires job in AllJobs(r, After(main, disk))
    ensures Leaves(main, disk, b) ==> Filed(main, disk, b)
  {
    var blocks := BlocksOf(main);
    ReadAfter(r, main, disk, job);
    NewToFiles(r, main, disk, b);
    MergedNames(r, {}, disk.files);
    if job in AddedJobs(r, main, disk) {
      var c := FiledFrom(r, main, disk, job);
      NamesTellBlocksApart(r, blocks, b, c);
    } else {
      var c :| c in blocks && !Leaves(main, disk, c) && job == JobOf(r, c);
      NamesTellBlocksApart(r, blocks, b, c);
    }
  }

  lemma SameJobsPreserve(r: Readers, main: string, disk: Disk, b: Block)
    requires UniqueNames(r, main, disk.files) && b in BlocksOf(main)
    requires SameJobs(r, Heartbeat(Some(main), disk.files), After(main, disk))
    ensures Preserved(r, main, disk, b)
  {
    var before, after := AllJobs(r, Heartbeat(Some(main), disk.files)), AllJobs(r, After(main, disk));
    assert forall j :: j in before <==> j in JobSet(before);
    assert forall j :: j in after <==> j in JobSet(after);
    if Leaves(main, disk, b) && JobOf(r, b).prompt != "" {
      if Filed(main, disk, b) {
        var job := JobOf(r, b).(slug := BlockSlug(b));
        FiledLeaves(main, disk, b);
        FiledHas(r, main, disk, b);
        ReadAfter(r, main, disk, job);
        assert job in after;
        OnlyItsBlockBefore(r, main, disk.files, b, job);
      } else if JobOf(r, b).slug != "" {
        var job := JobOf(r, b);
        BlockHasJob(r, BlocksOf(main), b);
        ReadBefore(r, main, disk.files, job);
        assert job in before;
        OnlyItsBlockAfter(r, main, disk, b, job);
      }
    }
  }

  /** When every job has a name of its own, the daemon reads the same tick after
      migrating, whether a write raised or not, and the same jobs exactly when
      every block that leaves HEARTBEAT.md is preserved. */
  lemma MigrateKeepsJobsIff(r: Readers, main: string, disk: Disk)
    requires UniqueNames(r, main, disk.files)
    ensures
      var before, after := Heartbeat(Some(main), disk.files), After(main, disk);
      && Tick(r, after) == Tick(r, before)
      && (SameJobs(r, before, after) <==> forall b | b in BlocksOf(main) :: Preserved(r, main, disk, b))
  {
    var before, after := Heartbeat(Some(main), disk.files), After(main, disk);
    ReadAfter(r, main, disk, NewJob(""));
    if forall b | b in BlocksOf(main) :: Preserved(r, main, disk, b) {
      forall job
        ensures job in JobSet(AllJobs(r, after)) <==> job in JobSet(AllJobs(r, before))
      {
        PreservedKeepsJobs(r, main, disk, job);
      }
    }
    if SameJobs(r, before, after) {
      forall b | b in BlocksOf(main)
        ensures Preserved(r, main, disk, b)
      {
        SameJobsPreserve(r, main, disk, b);
      }
    }
  }

  /** In particular when every block has at most one slug line and its slug is a
      file name, whatever files jobs.d already holds and whatever cannot be written. */
  lemma MigrateKeepsJobs(r: Readers, main: string, disk: Disk)
    requires UniqueNames(r, main, disk.files)
    requires forall b | b in BlocksOf(main) :: SlugSettings(Meanings(b)) <= 1 && Safe(BlockSlug(b))
    ensures
      var before, after := Heartbeat(Some(main), disk.files), After(main, disk);
      Tick(r, after) == Tick(r, before) && SameJobs(r, before, after)
  {
    MainIsCut(main);
    forall b | b in BlocksOf(main)
      ensures Preserved(r, main, disk, b)
    {
      if BlockSlug(b) != "" {
        OneSlugLineAgrees(r, b);
      }
      if Leaves(main, disk, b) && !Aborts(main, disk) {
        FiledIff(main, disk, b);
      } else if Filed(main, disk, b) {
        FiledLeaves(main, disk, b);
      }
    }
    MigrateKeepsJobsIff(r, main, disk);
  }

  /** When writing raises with nothing filed yet, everything is read as before. */
  lemma RaisingAtOnceKeepsJobs(r: Readers, main: string, disk: Disk)
    requires UniqueNames(r, main, disk.files) && Aborts(main, disk)
    requires forall b | b in BlocksOf(main) :: !Filed(main, disk, b)
    ensures SameJobs(r, Heartbeat(Some(main), disk.files), After(main, disk))
  {
    MigrateKeepsJobsIff(r, main, disk);
  }
}
