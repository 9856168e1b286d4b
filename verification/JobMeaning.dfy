/** What a text of jobs comes to: each heading opens a job, each job has the last
    setting of every key that follows its heading, and of several jobs of one name
    the first counts. */
module JobMeaning {
  import opened Prelude
  import opened Text
  import opened JobText
  import opened MigrateJobs

  // ----- Lines -----

  /** The stripped line is a heading of that name. */
  predicate Heads(line: string, name: string) {
    StartsWith(Strip(line), "## ") && name == Strip(Strip(line)[3..])
  }

  /** The stripped line sets a key to a value: the first colon divides them. */
  predicate Sets(line: string, k: nat, key: string, value: string) {
    var said := Strip(line);
    && StartsWith(said, "- ") && 2 <= k < |said| && said[k] == ':' && (forall i | 2 <= i < k :: said[i] != ':')
    && key == Lower(Strip(said[2..k])) && value == Strip(said[k + 1..])
  }

  lemma SettingsMean(line: string, k: nat, key: string, value: string)
    requires Sets(line, k, key, value)
    ensures Mean(line) == Setting(key, value)
  {
    var said := Strip(line);
    var kv := said[2..];
    assert said[0] == '-' && !StartsWith(said, "## ");
    var c := FirstColon(kv);
    assert forall i | 0 <= i < |kv| :: kv[i] == said[i + 2];
    assert c == k - 2;
    assert kv[..k - 2] == said[2..k] && kv[k - 1..] == said[k + 1..];
  }

  /** Neither a heading nor a setting. */
  predicate SaysNothing(line: string) {
    !StartsWith(Strip(line), "## ") && (StartsWith(Strip(line), "- ") ==> ':' !in Strip(line))
  }

  lemma OtherLinesAreSilent(line: string)
    requires SaysNothing(line)
    ensures Mean(line) == Silent
  {
    var said := Strip(line);
    if StartsWith(said, "- ") {
      assert forall i | 0 <= i < |said[2..]| :: said[2..][i] == said[i + 2];
    }
  }

  ghost predicate Says(line: string, m: Meaning) {
    match m
    case Heading(name) => Heads(line, name)
    case Setting(key, value) => exists k :: Sets(line, k, key, value)
    case Silent => SaysNothing(line)
  }

  lemma DividingColon(line: string) returns (k: nat, key: string, value: string)
    requires StartsWith(Strip(line), "- ") && ':' in Strip(line)
    ensures Sets(line, k, key, value)
  {
    var said := Strip(line);
    assert said[0] == '-' && said[1] == ' ';
    var i :| 0 <= i < |said| && said[i] == ':';
    k := 2 + FirstColon(said[2..]);
    assert said[2..][i - 2] == ':';
    assert forall j | 2 <= j < |said| :: said[j] == said[2..][j - 2];
    key, value := Lower(Strip(said[2..k])), Strip(said[k + 1..]);
  }

  /** What a line means is exactly what it says. */
  lemma LineMeansIff(line: string, m: Meaning)
    ensures Mean(line) == m <==> Says(line, m)
  {
    if m.Setting? && Says(line, m) {
      var k :| Sets(line, k, m.key, m.value);
      SettingsMean(line, k, m.key, m.value);
    }
    if SaysNothing(line) {
      OtherLinesAreSilent(line);
    } else if !StartsWith(Strip(line), "## ") {
      var k, key, value := DividingColon(line);
      SettingsMean(line, k, key, value);
    }
  }

  // ----- The jobs of a text -----

  /** A heading, and the settings up to the next. */
  datatype Section = Section(name: string, settings: seq<(string, string)>)

  function WithMeaning(sections: seq<Section>, m: Meaning): seq<Section> {
    match m
    case Silent => sections
    case Heading(name) => sections + [Section(name, [])]
    case Setting(key, value) =>
      if sections == [] then []
      else
        var last := sections[|sections| - 1];
        sections[..|sections| - 1] + [last.(settings := last.settings + [(key, value)])]
  }

  function Sections(ms: seq<Meaning>): seq<Section> {
    if ms == [] then [] else WithMeaning(Sections(ms[..|ms| - 1]), ms[|ms| - 1])
  }

  /** The settings before the first heading. */
  function Globals(ms: seq<Meaning>): seq<(string, string)> {
    if ms == [] then []
    else
      var front, last := ms[..|ms| - 1], ms[|ms| - 1];
      if last.Setting? && Sections(front) == [] then Globals(front) + [(last.key, last.value)] else Globals(front)
  }

  /** The last value that was set for the key. */
  function LastSaid(settings: seq<(string, string)>, key: string): Option<string> {
    if settings == [] then None
    else
      var last := settings[|settings| - 1];
      if last.0 == key then Some(last.1) else LastSaid(settings[..|settings| - 1], key)
  }

  /** The last quota that was set and can be read. */
  function LastQuota(r: Readers, settings: seq<(string, string)>): Option<(nat, nat)> {
    if settings == [] then None
    else
      var last := settings[|settings| - 1];
      if last.0 == "max_per" && r.quota(last.1).Some? then r.quota(last.1)
      else LastQuota(r, settings[..|settings| - 1])
  }

  function LastText(settings: seq<(string, string)>, key: string, default: string): string {
    match LastSaid(settings, key)
    case None => default
    case Some(value) => value
  }

  function Seconds(r: Readers, settings: seq<(string, string)>, key: string, default: nat): nat {
    match LastSaid(settings, key)
    case None => default
    case Some(value) => r.interval(value)
  }

  /** The job a section describes: every key as it was set last, or else its default. */
  function Described(r: Readers, section: Section): Job {
    var s := section.settings;
    Job(name := section.name,
        slug := LastText(s, "slug", ""), prompt := LastText(s, "prompt", ""),
        interval := Seconds(r, s, "interval", 3600), timeout := Seconds(r, s, "timeout", 600),
        condition := LastText(s, "condition", ""), notify := LastText(s, "notify", "all"),
        maxPer := LastQuota(r, s), model := LastText(s, "model", ""), group := LastText(s, "group", ""))
  }

  function AllDescribed(r: Readers, sections: seq<Section>): (jobs: seq<Job>)
    ensures |jobs| == |sections|
    ensures forall k | 0 <= k < |sections| :: jobs[k] == Described(r, sections[k])
  {
    seq(|sections|, k requires 0 <= k < |sections| => Described(r, sections[k]))
  }

  lemma {:induction false} LastSaidOneMore(settings: seq<(string, string)>, key: string, value: string, asked: string)
    ensures LastSaid(settings + [(key, value)], asked)
            == if key == asked then Some(value) else LastSaid(settings, asked)
  {
    assert (settings + [(key, value)])[..|settings|] == settings;
  }

  lemma {:induction false} LastQuotaOneMore(r: Readers, settings: seq<(string, string)>, key: string, value: string)
    ensures LastQuota(r, settings + [(key, value)])
         == if key == "max_per" && r.quota(value).Some? then r.quota(value) else LastQuota(r, settings)
  {
    assert (settings + [(key, value)])[..|settings|] == settings;
  }

  lemma KeysDiffer()
    ensures "prompt" != "notify" && "timeout" != "max_per" && "model" != "group"
  {
    assert "prompt"[0] != "notify"[0] && "timeout"[0] != "max_per"[0] && "model"[0] != "group"[0];
  }

  lemma SettingDescribes(r: Readers, section: Section, key: string, value: string)
    ensures Described(r, section.(settings := section.settings + [(key, value)]))
         == Set(r, Described(r, section), key, value)
  {
    KeysDiffer();
    var s := section.settings;
    LastSaidOneMore(s, key, value, "slug");
    LastSaidOneMore(s, key, value, "prompt");
    LastSaidOneMore(s, key, value, "interval");
    LastSaidOneMore(s, key, value, "timeout");
    LastSaidOneMore(s, key, value, "condition");
    LastSaidOneMore(s, key, value, "notify");
    LastSaidOneMore(s, key, value, "model");
    LastSaidOneMore(s, key, value, "group");
    LastQuotaOneMore(r, s, key, value);
  }

  /** What the parser holds after so many meanings. */
  predicate Holds(r: Readers, ms: seq<Meaning>, p: Parsing) {
    var sections := Sections(ms);
    && Finished(p) == AllDescribed(r, sections)
    && (p.current.Some? <==> sections != [])
    && (p.current.Some? ==> p.current.value == Described(r, sections[|sections| - 1]))
    && p.tick == Seconds(r, Globals(ms), "tick", 60)
  }

  /** What one meaning more does to sections and globals. */
  lemma {:induction false} OneMeaningMore(ms: seq<Meaning>, m: Meaning)
    ensures Sections(ms + [m]) == WithMeaning(Sections(ms), m)
    ensures Globals(ms + [m]) ==
              if m.Setting? && Sections(ms) == [] then Globals(ms) + [(m.key, m.value)] else Globals(ms)
  {
    assert (ms + [m])[..|ms|] == ms;
  }

  lemma HeadingHolds(r: Readers, ms: seq<Meaning>, name: string, p: Parsing)
    requires Holds(r, ms, p)
    ensures Holds(r, ms + [Heading(name)], Hear(r, p, Heading(name)))
  {
    OneMeaningMore(ms, Heading(name));
    var sections, next := Sections(ms), Hear(r, p, Heading(name));
    assert Described(r, Section(name, [])) == NewJob(name);
    assert AllDescribed(r, sections + [Section(name, [])]) == AllDescribed(r, sections) + [NewJob(name)];
  }

  lemma {:induction false} GlobalHolds(r: Readers, ms: seq<Meaning>, key: string, value: string, p: Parsing)
    requires Holds(r, ms, p) && Sections(ms) == []
    ensures Holds(r, ms + [Setting(key, value)], Hear(r, p, Setting(key, value)))
  {
    OneMeaningMore(ms, Setting(key, value));
    LastSaidOneMore(Globals(ms), key, value, "tick");
  }

  lemma {:induction false} SettingHolds(r: Readers, ms: seq<Meaning>, key: string, value: string, p: Parsing)
    requires Holds(r, ms, p) && Sections(ms) != []
    ensures Holds(r, ms + [Setting(key, value)], Hear(r, p, Setting(key, value)))
  {
    OneMeaningMore(ms, Setting(key, value));
    var sections := Sections(ms);
    var front, last := sections[..|sections| - 1], sections[|sections| - 1];
    var longer := last.(settings := last.settings + [(key, value)]);
    SettingDescribes(r, last, key, value);
    FinishedOneSet(r, p, key, value);
    assert AllDescribed(r, sections)[..|sections| - 1] == AllDescribed(r, front);
    assert AllDescribed(r, front + [longer]) == AllDescribed(r, front) + [Described(r, longer)];
  }

  lemma HearingHolds(r: Readers, ms: seq<Meaning>, m: Meaning, p: Parsing)
    requires Holds(r, ms, p)
    ensures Holds(r, ms + [m], Hear(r, p, m))
  {
    match m
    case Silent => OneMeaningMore(ms, m);
    case Heading(name) => HeadingHolds(r, ms, name, p);
    case Setting(key, value) =>
      if Sections(ms) == [] {
        GlobalHolds(r, ms, key, value, p);
      } else {
        SettingHolds(r, ms, key, value, p);
      }
  }

  lemma FinishedOneSet(r: Readers, p: Parsing, key: string, value: string)
    requires p.current.Some?
    ensures Finished(Hear(r, p, Setting(key, value)))
         == Finished(p)[..|Finished(p)| - 1] + [Set(r, p.current.value, key, value)]
  {
  }

  lemma {:induction false} ParsingHolds(r: Readers, ms: seq<Meaning>)
    ensures Holds(r, ms, HearAll(r, NEW_PARSING, ms))
  {
    if ms != [] {
      var front, last := ms[..|ms| - 1], ms[|ms| - 1];
      ParsingHolds(r, front);
      FrontAndLast(ms);
      HearConcat(r, NEW_PARSING, front, [last]);
      assert [last][1..] == [];
      HearingHolds(r, front, last, HearAll(r, NEW_PARSING, front));
    }
  }

  /** A text defines one job for each of its headings, in order, each with the last
      setting of every key under its heading, and its tick is the last one set before
      them all. */
  lemma {:induction false} TextDescribes(r: Readers, text: string)
    ensures Finished(ParseText(r, text)) == AllDescribed(r, Sections(TextMeanings(text)))
    ensures ParseText(r, text).tick == Seconds(r, Globals(TextMeanings(text)), "tick", 60)
  {
    ParsingHolds(r, TextMeanings(text));
  }

  // ----- The jobs of all files -----

  /** The jobs of the files one after the other, each the project's its file is named
      after. */
  function InFiles(r: Readers, files: seq<File>): seq<Job> {
    if files == [] then []
    else
      var file := files[|files| - 1];
      InFiles(r, files[..|files| - 1]) + Belonging(Finished(ParseText(r, file.text)), file.slug)
  }

  function Belonging(jobs: seq<Job>, slug: string): (owned: seq<Job>)
    ensures |owned| == |jobs|
    ensures forall k | 0 <= k < |jobs| :: owned[k] == jobs[k].(slug := slug)
  {
    seq(|jobs|, k requires 0 <= k < |jobs| => jobs[k].(slug := slug))
  }

  predicate Named(jobs: seq<Job>, name: string) {
    exists job | job in jobs :: job.name == name
  }

  /** Of the jobs of one name, the first. */
  function Firsts(jobs: seq<Job>): seq<Job> {
    if jobs == [] then []
    else
      var front, last := jobs[..|jobs| - 1], jobs[|jobs| - 1];
      if Named(front, last.name) then Firsts(front) else Firsts(front) + [last]
  }

  /** Those that pass, in order. */
  function Passing(jobs: seq<Job>, pass: Job -> bool): seq<Job> {
    if jobs == [] then []
    else
      var front, last := Passing(jobs[..|jobs| - 1], pass), jobs[|jobs| - 1];
      if pass(last) then front + [last] else front
  }

  lemma {:induction false} OwnedAreBelonging(jobs: seq<Job>, slug: string)
    ensures Owned(jobs, slug) == Belonging(jobs, slug)
  {
    if jobs != [] {
      OwnedAreBelonging(jobs[1..], slug);
      assert Belonging(jobs, slug) == [jobs[0].(slug := slug)] + Belonging(jobs[1..], slug);
    }
  }

  lemma {:induction false} UnseenOneMore(seen: set<string>, jobs: seq<Job>, job: Job)
    ensures Unseen(seen, jobs + [job])
         == Unseen(seen, jobs) + if job.name in seen || Named(jobs, job.name) then [] else [job]
    decreases |jobs|
  {
    if jobs == [] {
      assert [job][1..] == [] && [] + [job] == [job];
    } else {
      var first, rest := jobs[0], jobs[1..];
      assert (jobs + [job])[1..] == rest + [job];
      assert Named(jobs, job.name) <==> first.name == job.name || Named(rest, job.name) by {
        HeadAndTail(jobs);
        assert forall other :: other in jobs <==> other == first || other in rest;
      }
      UnseenOneMore(if first.name in seen then seen else seen + {first.name}, rest, job);
    }
  }

  lemma {:induction false} UnseenAreFirsts(jobs: seq<Job>)
    ensures Unseen({}, jobs) == Firsts(jobs)
  {
    if jobs != [] {
      var front, last := jobs[..|jobs| - 1], jobs[|jobs| - 1];
      UnseenAreFirsts(front);
      FrontAndLast(jobs);
      UnseenOneMore({}, front, last);
      Nothing(Firsts(front));
    }
  }

  lemma {:induction false} UnseenConcat(seen: set<string>, a: seq<Job>, b: seq<Job>)
    ensures Unseen(seen, a + b) == Unseen(seen, a) + Unseen(seen + Names(a), b)
    decreases |a|
  {
    if a == [] {
      Nothing(b);
      assert seen + Names(a) == seen;
    } else {
      var first, rest := a[0], a[1..];
      var next := if first.name in seen then seen else seen + {first.name};
      assert (a + b)[1..] == rest + b;
      UnseenConcat(next, rest, b);
      HeadAndTail(a);
      assert forall job :: job in a <==> job == first || job in rest;
      assert next + Names(rest) == seen + Names(a);
    }
  }

  lemma {:induction false} InFilesFirst(r: Readers, files: seq<File>)
    requires files != []
    ensures InFiles(r, files) == JobsOfFile(r, files[0]) + InFiles(r, files[1..])
  {
    var front, last := files[..|files| - 1], files[|files| - 1];
    OwnedAreBelonging(Finished(ParseText(r, last.text)), last.slug);
    if |files| == 1 {
      assert front == [] && files[1..] == [];
      Nothing(JobsOfFile(r, last));
    } else {
      InFilesFirst(r, front);
      assert front[1..] == files[1..][..|files| - 2] && files[1..][|files| - 2] == last;
      Regroup(JobsOfFile(r, files[0]), InFiles(r, front[1..]), JobsOfFile(r, last));
    }
  }

  lemma {:induction false} MergedAreUnseen(r: Readers, seen: set<string>, files: seq<File>)
    ensures Merge(r, seen, files) == Unseen(seen, InFiles(r, files))
    ensures FileNames(r, files) == Names(InFiles(r, files))
    decreases |files|
  {
    if files != [] {
      var jobs := JobsOfFile(r, files[0]);
      InFilesFirst(r, files);
      MergedAreUnseen(r, seen + Names(jobs), files[1..]);
      UnseenConcat(seen, jobs, InFiles(r, files[1..]));
      assert forall job :: job in InFiles(r, files) <==> job in jobs || job in InFiles(r, files[1..]);
    }
  }

  lemma {:induction false} PassingFirst(jobs: seq<Job>, pass: Job -> bool)
    requires jobs != []
    ensures Passing(jobs, pass) == (if pass(jobs[0]) then [jobs[0]] else []) + Passing(jobs[1..], pass)
  {
    if |jobs| > 1 {
      var front, last := jobs[..|jobs| - 1], jobs[|jobs| - 1];
      PassingFirst(front, pass);
      assert front[1..] == jobs[1..][..|jobs| - 2];
      if pass(last) {
        Regroup(if pass(jobs[0]) then [jobs[0]] else [], Passing(front[1..], pass), [last]);
      }
    } else {
      assert jobs[..0] == [] && jobs[1..] == [];
    }
  }

  lemma {:induction false} LiveArePassing(jobs: seq<Job>)
    ensures Live(jobs) == Passing(jobs, (job: Job) => job.slug != "" && job.prompt != "")
  {
    if jobs != [] {
      LiveArePassing(jobs[1..]);
      PassingFirst(jobs, (job: Job) => job.slug != "" && job.prompt != "");
    }
  }

  lemma {:induction false} OthersArePassing(names: set<string>, jobs: seq<Job>)
    ensures NotIn(names, jobs) == Passing(jobs, (job: Job) => job.name !in names)
  {
    if jobs != [] {
      OthersArePassing(names, jobs[1..]);
      PassingFirst(jobs, (job: Job) => job.name !in names);
    }
  }

  /** The jobs of the daemon: of those in jobs.d, file after file and each its file's
      project's, the first of every name; then those of HEARTBEAT.md that no file
      names; of all these the ones with a project and a prompt. */
  lemma {:induction false} HeartbeatDescribes(r: Readers, hb: Heartbeat)
    ensures
      var filed := InFiles(r, hb.files);
      var base := if hb.main.Some? then Finished(ParseText(r, hb.main.value)) else [];
      var names := set job | job in filed :: job.name;
      AllJobs(r, hb) == Passing(Firsts(filed) + Passing(base, (job: Job) => job.name !in names),
                                (job: Job) => job.slug != "" && job.prompt != "")
  {
    var filed := InFiles(r, hb.files);
    var base := if hb.main.Some? then Finished(ParseText(r, hb.main.value)) else [];
    MergedAreUnseen(r, {}, hb.files);
    UnseenAreFirsts(filed);
    OthersArePassing(Names(filed), base);
    LiveArePassing(Firsts(filed) + Passing(base, (job: Job) => job.name !in Names(filed)));
  }
}
