/** What `migrate` takes for a slug line and for a comment, whichever slug line counts,
    and in which order jobs.d stays. */
module MigrateGrammar {
  import opened Prelude
  import opened Text
  import opened JobText
  import opened Migrate
  import opened MigrateJobs

  // ----- Slug lines -----

  /** The stripped line is `- slug:` in any case, and then the slug. */
  predicate NamesProject(line: string, slug: string) {
    StartsWith(Lower(Strip(line)), "- slug:") && slug == Strip(Strip(line)[7..])
  }

  predicate NamesNone(line: string) {
    !StartsWith(Lower(Strip(line)), "- slug:")
  }

  lemma SlugInIs(line: string)
    ensures if SlugIn(line).Some? then NamesProject(line, SlugIn(line).value) else NamesNone(line)
  {
    if SlugIn(line).Some? {
      var s := Strip(line);
      var low := Lower(s);
      assert low[0] == '-' && low[1] == ' ' && low[6] == ':';
      assert low[2] == 's' && low[3] == 'l' && low[4] == 'u' && low[5] == 'g';
      ColonAt(s, 6);
    }
  }

  /** A block belongs to the project that its first slug line names, or to none. */
  lemma {:induction false} FirstSlugCounts(block: seq<string>) returns (k: nat)
    ensures k <= |block| && forall i | 0 <= i < k :: NamesNone(block[i])
    ensures if k < |block| then NamesProject(block[k], BlockSlug(block)) else BlockSlug(block) == ""
  {
    k := 0;
    if block != [] {
      SlugInIs(block[0]);
      if SlugIn(block[0]).None? {
        var n := FirstSlugCounts(block[1..]);
        k := n + 1;
        assert forall i | 1 <= i < k :: block[i] == block[1..][i - 1];
      }
    }
  }

  /** Projects are taken in the order they first come up: a block more adds its own at
      the end, if it has one that has not come up. */
  lemma {:induction false} OneBlockMore(blocks: seq<seq<string>>, block: seq<string>, known: seq<string>)
    ensures
      var slugs, slug := Slugs(blocks, known), BlockSlug(block);
      Slugs(blocks + [block], known) == if slug == "" || slug in slugs then slugs else slugs + [slug]
    decreases |blocks|
  {
    if blocks == [] {
      assert [] + [block] == [block] && [block][1..] == [];
    } else {
      assert (blocks + [block])[0] == blocks[0] && (blocks + [block])[1..] == blocks[1..] + [block];
      OneBlockMore(blocks[1..], block, WithSlug(known, BlockSlug(blocks[0])));
    }
  }

  // ----- Comments -----

  /** A comment opens with `<!--` and ends with `-->`, on one line. */
  lemma CommentIff(line: string)
    ensures IsComment(line) <==>
              (exists rest :: Strip(line) == "<!--" + rest) && (exists head :: Strip(line) == head + "-->")
  {
    var s := Strip(line);
    if IsComment(line) {
      assert s == "<!--" + s[4..] && s == s[..|s| - 3] + "-->";
    }
    if head :| s == head + "-->" {
      assert s[|s| - 3..] == "-->";
    }
  }

  // ----- The order of files -----

  /** Up to a first difference the names are the same, and there `a` is shorter or
      smaller. */
  predicate ComesBefore(a: string, b: string, k: nat) {
    && k <= |a| && k < |b| && a[..k] == b[..k] && (k == |a| || a[k] < b[k])
  }

  lemma {:induction false} BeforeDiffers(a: string, b: string) returns (k: nat)
    ensures Before(a, b) ==> ComesBefore(a, b, k)
    ensures !Before(a, b) ==> a == b || ComesBefore(b, a, k)
    decreases |a|
  {
    k := 0;
    if a != "" && b != "" && a[0] == b[0] {
      var n := BeforeDiffers(a[1..], b[1..]);
      k := n + 1;
      HeadAndTail(a);
      HeadAndTail(b);
      if n <= |a| - 1 && n <= |b| - 1 {
        assert a[..k] == [a[0]] + a[1..][..n] && b[..k] == [b[0]] + b[1..][..n];
      }
    }
  }

  lemma PrefixesAgree(a: string, b: string, k: nat, i: nat)
    requires i < k <= |a| && k <= |b| && a[..k] == b[..k]
    ensures a[i] == b[i]
  {
    assert a[i] == a[..k][i];
  }

  lemma NotBothBefore(a: string, b: string, k: nat, n: nat)
    requires ComesBefore(a, b, k)
    ensures a != b && !ComesBefore(b, a, n)
  {
    if k < n <= |b| && n < |a| && b[..n] == a[..n] {
      PrefixesAgree(a, b, n, k);
    } else if n < k {
      PrefixesAgree(a, b, k, n);
    }
  }

  /** Names are ordered by their first difference. */
  lemma {:induction false} BeforeIff(a: string, b: string)
    ensures Before(a, b) <==> exists k: nat :: ComesBefore(a, b, k)
  {
    var n := BeforeDiffers(a, b);
    if k: nat :| ComesBefore(a, b, k) {
      NotBothBefore(a, b, k, n);
    }
  }

  lemma {:induction false} OneIsBefore(a: string, b: string)
    ensures Before(a, b) || a == b || Before(b, a)
    decreases |a|
  {
    if a != "" && b != "" && a[0] == b[0] {
      OneIsBefore(a[1..], b[1..]);
      HeadAndTail(a);
      HeadAndTail(b);
    }
  }

  function NameOf(file: File): string {
    file.slug + ".md"
  }

  /** Each file is before the next. */
  predicate InOrder(files: seq<File>) {
    forall i | 0 < i < |files| :: Before(NameOf(files[i - 1]), NameOf(files[i]))
  }

  lemma SameNames(a: File, b: File)
    requires NameOf(a) == NameOf(b)
    ensures a.slug == b.slug
  {
    assert NameOf(a)[..|a.slug|] == a.slug && NameOf(b)[..|b.slug|] == b.slug;
  }

  /** A new file is put where it belongs. */
  lemma {:induction false} InsertKeepsOrder(files: seq<File>, file: File)
    requires InOrder(files) && !HasFile(files, file.slug)
    ensures InOrder(Insert(files, file))
    ensures files != [] ==> Insert(files, file)[0] in {file, files[0]}
    ensures Insert(files, file) != []
    decreases |files|
  {
    if files != [] && !Before(NameOf(file), NameOf(files[0])) {
      var rest := Insert(files[1..], file);
      assert forall i | 0 <= i < |files| - 1 :: files[1..][i] == files[i + 1];
      InsertKeepsOrder(files[1..], file);
      OneIsBefore(NameOf(file), NameOf(files[0]));
      if NameOf(file) == NameOf(files[0]) {
        SameNames(file, files[0]);
      }
      var all := [files[0]] + rest;
      forall i | 0 < i < |all|
        ensures Before(NameOf(all[i - 1]), NameOf(all[i]))
      {
        assert all[i] == rest[i - 1] && (i > 1 ==> all[i - 1] == rest[i - 2]);
      }
    }
  }

  /** Migrating keeps jobs.d in the order it is read in. */
  lemma {:induction false} WritingKeepsOrder(
      disk: Disk, slugs: seq<string>, blocks: seq<seq<string>>, kept: seq<seq<string>>)
    requires InOrder(disk.files)
    ensures InOrder(WriteGroups(disk, slugs, blocks, kept).disk.files)
    decreases |slugs|
  {
    if slugs != [] {
      var group := GroupOf(blocks, slugs[0]);
      if TargetExists(disk, slugs[0]) {
        WritingKeepsOrder(disk, slugs[1..], blocks, kept + group);
      } else if slugs[0] !in disk.refused {
        if Safe(slugs[0]) {
          InsertKeepsOrder(disk.files, File(slugs[0], Body(group)));
        }
        WritingKeepsOrder(Write(disk, slugs[0], Body(group)), slugs[1..], blocks, kept);
      }
    }
  }
}
