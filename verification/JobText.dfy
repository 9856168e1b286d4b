/** The job grammar of HEARTBEAT.md and jobs.d: what a text means, line by line,
    and the jobs a set of files defines. */
module JobText {
  import opened Prelude
  import opened Text

  datatype Job = Job(
    name: string,
    slug: string,
    prompt: string,
    interval: nat,
    timeout: nat,
    condition: string,
    notify: string,
    maxPer: Option<(nat, nat)>,
    model: string,
    group: string)

  /** How the values of interval-like settings and of `max_per` are read. */
  datatype Readers = Readers(interval: string -> nat, quota: string -> Option<(nat, nat)>)

  const DEFAULT_TICK := 60

  function NewJob(name: string): Job {
    Job(name, "", "", 3600, 600, "", "all", None, "", "")
  }

  // ----- One line -----

  datatype Meaning = Heading(name: string) | Setting(key: string, value: string) | Silent

  function LowerChar(c: char): char {
    if 'A' <= c <= 'Z' then c - 'A' + 'a' else c
  }

  function Lower(s: string): (lower: string)
    ensures |lower| == |s|
    ensures forall k | 0 <= k < |s| :: lower[k] == LowerChar(s[k])
  {
    if s == "" then "" else [LowerChar(s[0])] + Lower(s[1..])
  }

  /** Position of the first colon, or the length. */
  function FirstColon(s: string): (k: nat)
    ensures k <= |s|
    ensures k < |s| ==> s[k] == ':'
    ensures forall i | 0 <= i < k :: s[i] != ':'
  {
    if s == "" || s[0] == ':' then 0 else 1 + FirstColon(s[1..])
  }

  /** What a stripped line says. */
  function LineSays(s: string): Meaning {
    if StartsWith(s, "## ") then Heading(Strip(s[3..]))
    else if StartsWith(s, "- ") then
      var kv := s[2..];
      var k := FirstColon(kv);
      if k == |kv| then Silent else Setting(Lower(Strip(kv[..k])), Strip(kv[k + 1..]))
    else Silent
  }

  function Mean(line: string): Meaning {
    LineSays(Strip(line))
  }

  function Heard(m: Meaning): seq<Meaning> {
    if m == Silent then [] else [m]
  }

  /** What a list of lines says, silent lines left out. */
  function Meanings(lines: seq<string>): seq<Meaning> {
    if lines == [] then [] else Heard(Mean(lines[0])) + Meanings(lines[1..])
  }

  function TextMeanings(text: string): seq<Meaning> {
    Meanings(SplitLines(text))
  }

  // ----- Parsing one text -----

  datatype Parsing = Parsing(tick: nat, jobs: seq<Job>, current: Option<Job>)

  const NEW_PARSING := Parsing(DEFAULT_TICK, [], None)

  function Finished(p: Parsing): seq<Job> {
    if p.current.Some? then p.jobs + [p.current.value] else p.jobs
  }

  function Set(r: Readers, job: Job, key: string, value: string): Job {
    if key == "slug" then job.(slug := value)
    else if key == "prompt" then job.(prompt := value)
    else if key == "interval" then job.(interval := r.interval(value))
    else if key == "timeout" then job.(timeout := r.interval(value))
    else if key == "condition" then job.(condition := value)
    else if key == "notify" then job.(notify := value)
    else if key == "model" then job.(model := value)
    else if key == "group" then job.(group := value)
    else if key == "max_per" && r.quota(value).Some? then job.(maxPer := r.quota(value))
    else job
  }

  function Hear(r: Readers, p: Parsing, m: Meaning): Parsing {
    match m
    case Silent => p
    case Heading(name) => Parsing(p.tick, Finished(p), Some(NewJob(name)))
    case Setting(key, value) =>
      if p.current.Some? then p.(current := Some(Set(r, p.current.value, key, value)))
      else if key == "tick" then p.(tick := r.interval(value))
      else p
  }

  function HearAll(r: Readers, p: Parsing, ms: seq<Meaning>): Parsing
    decreases |ms|
  {
    if ms == [] then p else HearAll(r, Hear(r, p, ms[0]), ms[1..])
  }

  function ParseText(r: Readers, text: string): Parsing {
    HearAll(r, NEW_PARSING, TextMeanings(text))
  }

  /** `_parse_jobs_text`. */
  method ParseJobsText(r: Readers, text: string) returns (tick: nat, jobs: seq<Job>)
    ensures tick == ParseText(r, text).tick && jobs == Finished(ParseText(r, text))
  {
    var lines := SplitLines(text);
    tick, jobs := DEFAULT_TICK, [];
    var current: Option<Job> := None;
    assert lines[0..] == lines;
    for i := 0 to |lines|
      invariant HearAll(r, Parsing(tick, jobs, current), Meanings(lines[i..])) == ParseText(r, text)
    {
      ghost var before := Parsing(tick, jobs, current);
      assert lines[i..][0] == lines[i] && lines[i..][1..] == lines[i + 1..];
      var m := Mean(lines[i]);
      HearNext(r, before, m, Meanings(lines[i + 1..]));
      match m {
        case Silent =>
        case Heading(name) =>
          if current.Some? {
            jobs := jobs + [current.value];
          }
          current := Some(NewJob(name));
        case Setting(key, value) =>
          if current.Some? {
            current := Some(Set(r, current.value, key, value));
          } else if key == "tick" {
            tick := r.interval(value);
          }
      }
      assert Parsing(tick, jobs, current) == Hear(r, before, m);
    }
    assert lines[|lines|..] == [];
    if current.Some? {
      jobs := jobs + [current.value];
    }
  }

  lemma {:induction false} HearNext(r: Readers, p: Parsing, m: Meaning, ms: seq<Meaning>)
    ensures HearAll(r, p, Heard(m) + ms) == HearAll(r, Hear(r, p, m), ms)
  {
    if m == Silent {
      assert [] + ms == ms;
    } else {
      assert ([m] + ms)[1..] == ms;
    }
  }

  // ----- All files -----

  /** A file of jobs.d, named after the project it belongs to. */
  datatype File = File(slug: string, text: string)

  function Owned(jobs: seq<Job>, slug: string): seq<Job> {
    if jobs == [] then [] else [jobs[0].(slug := slug)] + Owned(jobs[1..], slug)
  }

  function JobsOfFile(r: Readers, file: File): seq<Job> {
    Owned(Finished(ParseText(r, file.text)), file.slug)
  }

  function Names(jobs: seq<Job>): set<string> {
    set job | job in jobs :: job.name
  }

  /** Jobs whose name was not seen before, the first of each name. */
  function Unseen(seen: set<string>, jobs: seq<Job>): seq<Job>
    decreases |jobs|
  {
    if jobs == [] then []
    else if jobs[0].name in seen then Unseen(seen, jobs[1..])
    else [jobs[0]] + Unseen(seen + {jobs[0].name}, jobs[1..])
  }

  function Merge(r: Readers, seen: set<string>, files: seq<File>): seq<Job>
    decreases |files|
  {
    if files == [] then []
    else
      var jobs := JobsOfFile(r, files[0]);
      Unseen(seen, jobs) + Merge(r, seen + Names(jobs), files[1..])
  }

  function FileNames(r: Readers, files: seq<File>): set<string> {
    if files == [] then {} else Names(JobsOfFile(r, files[0])) + FileNames(r, files[1..])
  }

  /** Jobs of HEARTBEAT.md whose name no file of jobs.d has. */
  function NotIn(names: set<string>, jobs: seq<Job>): seq<Job> {
    if jobs == [] then []
    else (if jobs[0].name in names then [] else [jobs[0]]) + NotIn(names, jobs[1..])
  }

  predicate IsLive(job: Job) {
    job.slug != "" && job.prompt != ""
  }

  function Live(jobs: seq<Job>): seq<Job> {
    if jobs == [] then []
    else (if IsLive(jobs[0]) then [jobs[0]] else []) + Live(jobs[1..])
  }

  /** All files as the daemon reads them: HEARTBEAT.md and jobs.d in sorted order. */
  datatype Heartbeat = Heartbeat(main: Option<string>, files: seq<File>)

  function AllJobs(r: Readers, hb: Heartbeat): seq<Job> {
    var base := if hb.main.Some? then Finished(ParseText(r, hb.main.value)) else [];
    Live(Merge(r, {}, hb.files) + NotIn(FileNames(r, hb.files), base))
  }

  function Tick(r: Readers, hb: Heartbeat): nat {
    if hb.main.Some? then ParseText(r, hb.main.value).tick else DEFAULT_TICK
  }

  /** `parse_heartbeat_md`. */
  method ParseHeartbeat(r: Readers, hb: Heartbeat) returns (tick: nat, jobs: seq<Job>)
    ensures tick == Tick(r, hb) && jobs == AllJobs(r, hb)
  {
    var base: seq<Job> := [];
    tick := DEFAULT_TICK;
    if hb.main.Some? {
      tick, base := ParseJobsText(r, hb.main.value);
    }
    var merged, seen := MergeFiles(r, hb.files);
    var kept := TakeNotIn(seen, base);
    jobs := Live(merged + kept);
  }

  method MergeFiles(r: Readers, files: seq<File>) returns (merged: seq<Job>, seen: set<string>)
    ensures merged == Merge(r, {}, files) && seen == FileNames(r, files)
  {
    merged, seen := [], {};
    assert files[0..] == files;
    for i := 0 to |files|
      invariant merged + Merge(r, seen, files[i..]) == Merge(r, {}, files)
      invariant seen + FileNames(r, files[i..]) == FileNames(r, files)
    {
      assert files[i..][0] == files[i] && files[i..][1..] == files[i + 1..];
      var _, parsed := ParseJobsText(r, files[i].text);
      var jobs := Owned(parsed, files[i].slug);
      var added := TakeUnseen(seen, jobs);
      Regroup(merged, added, Merge(r, seen + Names(jobs), files[i + 1..]));
      merged, seen := merged + added, seen + Names(jobs);
    }
    assert files[|files|..] == [];
  }

  method TakeUnseen(given: set<string>, jobs: seq<Job>) returns (added: seq<Job>)
    ensures added == Unseen(given, jobs)
  {
    var seen := given;
    added := [];
    assert jobs[0..] == jobs;
    for i := 0 to |jobs|
      invariant added + Unseen(seen, jobs[i..]) == Unseen(given, jobs)
    {
      assert jobs[i..][0] == jobs[i] && jobs[i..][1..] == jobs[i + 1..];
      if jobs[i].name !in seen {
        Regroup(added, [jobs[i]], Unseen(seen + {jobs[i].name}, jobs[i + 1..]));
        seen, added := seen + {jobs[i].name}, added + [jobs[i]];
      }
    }
    assert jobs[|jobs|..] == [];
  }

  method TakeNotIn(names: set<string>, jobs: seq<Job>) returns (kept: seq<Job>)
    ensures kept == NotIn(names, jobs)
  {
    kept := [];
    assert jobs[0..] == jobs;
    for i := 0 to |jobs|
      invariant kept + NotIn(names, jobs[i..]) == NotIn(names, jobs)
    {
      assert jobs[i..][0] == jobs[i] && jobs[i..][1..] == jobs[i + 1..];
      if jobs[i].name !in names {
        Regroup(kept, [jobs[i]], NotIn(names, jobs[i + 1..]));
        kept := kept + [jobs[i]];
      }
    }
    assert jobs[|jobs|..] == [];
  }
}
