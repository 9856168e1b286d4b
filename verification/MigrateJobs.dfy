/** `migrate` against the parser: when the daemon reads the same jobs and the same
    tick before and after. */
module MigrateJobs {
  import opened Prelude
  import opened Text
  import opened JobText
  import opened Migrate
  import opened MigrateLines
  import opened MigrateMeaning

  // ----- The job of a block -----

  function SetAll(r: Readers, job: Job, ms: seq<Meaning>): Job
    decreases |ms|
  {
    if ms == [] then job
    else SetAll(r, if ms[0].Setting? then Set(r, job, ms[0].key, ms[0].value) else job, ms[1..])
  }

  function HeadName(line: string): string {
    match Mean(line)
    case Heading(name) => name
    case _ => ""
  }

  function JobOf(r: Readers, block: seq<string>): Job {
    if block == [] then NewJob("") else SetAll(r, NewJob(HeadName(block[0])), Meanings(block[1..]))
  }

  function JobsOf(r: Readers, blocks: seq<seq<string>>): seq<Job> {
    if blocks == [] then [] else [JobOf(r, blocks[0])] + JobsOf(r, blocks[1..])
  }

  lemma {:induction false} HearConcat(r: Readers, p: Parsing, a: seq<Meaning>, b: seq<Meaning>)
    ensures HearAll(r, p, a + b) == HearAll(r, HearAll(r, p, a), b)
    decreases |a|
  {
    if a == [] {
      Nothing(b);
    } else {
      assert (a + b)[0] == a[0] && (a + b)[1..] == a[1..] + b;
      HearConcat(r, Hear(r, p, a[0]), a[1..], b);
    }
  }

  predicate NoHeadings(ms: seq<Meaning>) {
    forall k | 0 <= k < |ms| :: !ms[k].Heading?
  }

  lemma {:induction false} HearSettings(r: Readers, p: Parsing, ms: seq<Meaning>)
    requires p.current.Some? && NoHeadings(ms)
    ensures HearAll(r, p, ms) == p.(current := Some(SetAll(r, p.current.value, ms)))
    decreases |ms|
  {
    if ms != [] {
      HearSettings(r, Hear(r, p, ms[0]), ms[1..]);
    }
  }

  lemma HeadingIff(line: string)
    ensures OpensBlock(line) <==> Mean(line).Heading?
  {
  }

  lemma {:induction false} NoHeadingsIn(lines: seq<string>)
    requires forall k | 0 <= k < |lines| :: !OpensBlock(lines[k])
    ensures NoHeadings(Meanings(lines))
  {
    if lines != [] {
      HeadingIff(lines[0]);
      NoHeadingsIn(lines[1..]);
    }
  }

  lemma {:induction false} HearBlock(r: Readers, p: Parsing, block: seq<string>)
    requires BlockOk(block)
    ensures HearAll(r, p, Meanings(block)) == Parsing(p.tick, Finished(p), Some(JobOf(r, block)))
  {
    var rest := block[1..];
    HeadingIff(block[0]);
    assert [block[0]] + rest == block;
    MeaningsMore(block[0], rest);
    HearNext(r, p, Mean(block[0]), Meanings(rest));
    assert forall k | 0 <= k < |rest| :: rest[k] == block[k + 1];
    NoHeadingsIn(rest);
    HearSettings(r, Hear(r, p, Mean(block[0])), Meanings(rest));
  }

  predicate BlocksOk(blocks: seq<seq<string>>) {
    forall k | 0 <= k < |blocks| :: BlockOk(blocks[k])
  }

  lemma {:induction false} HearBlocks(r: Readers, p: Parsing, blocks: seq<seq<string>>)
    requires BlocksOk(blocks)
    ensures
      var q := HearAll(r, p, BlocksSay(blocks));
      q.tick == p.tick && Finished(q) == Finished(p) + JobsOf(r, blocks)
    decreases |blocks|
  {
    if blocks == [] {
      Nothing(Finished(p));
    } else {
      var next := Parsing(p.tick, Finished(p), Some(JobOf(r, blocks[0])));
      HearConcat(r, p, Meanings(blocks[0]), BlocksSay(blocks[1..]));
      HearBlock(r, p, blocks[0]);
      HearBlocks(r, next, blocks[1..]);
      Regroup(Finished(p), [JobOf(r, blocks[0])], JobsOf(r, blocks[1..]));
    }
  }

  lemma {:induction false} HearGlobals(r: Readers, p: Parsing, ms: seq<Meaning>)
    requires p.current.None? && NoHeadings(ms)
    ensures HearAll(r, p, ms).current.None? && HearAll(r, p, ms).jobs == p.jobs
    decreases |ms|
  {
    if ms != [] {
      HearGlobals(r, Hear(r, p, ms[0]), ms[1..]);
    }
  }

  /** A text that says a preamble and blocks defines those blocks' jobs, and the
      preamble's tick. */
  lemma {:induction false} TextDefines(r: Readers, text: string, preamble: seq<string>, blocks: seq<seq<string>>)
    requires TextMeanings(text) == Meanings(preamble) + BlocksSay(blocks)
    requires BlocksOk(blocks) && forall k | 0 <= k < |preamble| :: !OpensBlock(preamble[k])
    ensures Finished(ParseText(r, text)) == JobsOf(r, blocks)
    ensures ParseText(r, text).tick == HearAll(r, NEW_PARSING, Meanings(preamble)).tick
  {
    NoHeadingsIn(preamble);
    HearConcat(r, NEW_PARSING, Meanings(preamble), BlocksSay(blocks));
    HearGlobals(r, NEW_PARSING, Meanings(preamble));
    HearBlocks(r, HearAll(r, NEW_PARSING, Meanings(preamble)), blocks);
    Nothing(JobsOf(r, blocks));
  }

  // ----- Comments and slugs -----

  lemma HeaderIsNoComment(line: string)
    requires OpensBlock(line)
    ensures !IsComment(line)
  {
    var s := Strip(line);
    assert s[0] == "## "[0];
  }

  lemma {:induction false} NoCommentsAreAmong(block: seq<string>)
    ensures forall k | 0 <= k < |NoComments(block)| :: NoComments(block)[k] in block
  {
    if block != [] {
      NoCommentsAreAmong(block[1..]);
    }
  }

  lemma {:induction false} NoCommentsIsBlock(block: seq<string>)
    requires BlockOk(block)
    ensures BlockOk(NoComments(block)) && NoComments(block) == [block[0]] + NoComments(block[1..])
  {
    HeaderIsNoComment(block[0]);
    var rest := NoComments(block[1..]);
    NoCommentsAreAmong(block[1..]);
    forall k | 0 <= k < |rest|
      ensures !OpensBlock(rest[k]) && OneLine(rest[k])
    {
      assert rest[k] in block[1..];
    }
  }

  lemma {:induction false} NoCommentsKeepsBlock(r: Readers, block: seq<string>)
    requires BlockOk(block)
    ensures BlockOk(NoComments(block)) && JobOf(r, NoComments(block)) == JobOf(r, block)
  {
    var rest := NoComments(block[1..]);
    NoCommentsIsBlock(block);
    assert ([block[0]] + rest)[1..] == rest;
    NoCommentsSaysTheSame(block[1..]);
  }

  /** A slug line is read alike by `migrate` and by the parser. */
  lemma SlugLineIsASetting(line: string)
    requires SlugIn(line).Some?
    ensures Mean(line) == Setting("slug", SlugIn(line).value)
  {
    var s := Strip(line);
    var low := Lower(s);
    assert low[0] == '-' && low[1] == ' ';
    assert low[2] == 's' && low[3] == 'l' && low[4] == 'u' && low[5] == 'g' && low[6] == ':';
    assert s[0] == '-' && s[1] == ' ' && s[6] == ':';
    ColonAt(s, 6);
    var kv := s[2..];
    assert forall i | 0 <= i < |kv| :: kv[i] == s[i + 2];
    ColonAt(kv, 4);
    assert Trim(kv[..4]);
    TrimIsStripped(kv[..4]);
    assert Lower(kv[..4]) == "slug";
    assert kv[5..] == s[7..];
    assert s[..2] == "- ";
  }

  lemma {:induction false} ColonAt(s: string, k: nat)
    requires k < |s| && s[k] == ':' && forall i | 0 <= i < k :: s[i] != ':'
    ensures FirstColon(s) == k
  {
    if k > 0 {
      ColonAt(s[1..], k - 1);
    }
  }

  function SlugSettings(ms: seq<Meaning>): nat {
    if ms == [] then 0 else (if ms[0].Setting? && ms[0].key == "slug" then 1 else 0) + SlugSettings(ms[1..])
  }

  lemma {:induction false} NoSlugSettings(r: Readers, job: Job, ms: seq<Meaning>)
    requires SlugSettings(ms) == 0
    ensures SetAll(r, job, ms).slug == job.slug
    decreases |ms|
  {
    if ms != [] {
      NoSlugSettings(r, if ms[0].Setting? then Set(r, job, ms[0].key, ms[0].value) else job, ms[1..]);
    }
  }

  lemma {:induction false} OneSlugSetting(r: Readers, job: Job, lines: seq<string>)
    requires SlugSettings(Meanings(lines)) <= 1 && BlockSlug(lines) != ""
    ensures SetAll(r, job, Meanings(lines)).slug == BlockSlug(lines)
    decreases |lines|
  {
    var m, rest := Mean(lines[0]), Meanings(lines[1..]);
    assert m != Silent ==> ([m] + rest)[1..] == rest;
    if SlugIn(lines[0]).Some? {
      SlugLineIsASetting(lines[0]);
      NoSlugSettings(r, Set(r, job, "slug", m.value), rest);
    } else {
      Nothing(rest);
      OneSlugSetting(r, if m.Setting? then Set(r, job, m.key, m.value) else job, lines[1..]);
    }
  }

  /** With at most one slug setting in the block, the parser agrees with `migrate`
      on the project. */
  lemma {:induction false} OneSlugLineAgrees(r: Readers, block: seq<string>)
    requires BlockOk(block) && SlugSettings(Meanings(block)) <= 1 && BlockSlug(block) != ""
    ensures JobOf(r, block).slug == BlockSlug(block)
  {
    HeadingIff(block[0]);
    if SlugIn(block[0]).Some? {
      SlugLineIsASetting(block[0]);
      assert false;
    }
    assert [block[0]] + block[1..] == block;
    MeaningsMore(block[0], block[1..]);
    assert ([Mean(block[0])] + Meanings(block[1..]))[1..] == Meanings(block[1..]);
    OneSlugSetting(r, NewJob(HeadName(block[0])), block[1..]);
  }
}
