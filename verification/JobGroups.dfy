/** Groups of heartbeat jobs that run in the background: one group at a time does
    its jobs one after the other, different groups run side by side. */
module JobGroups {
  import opened Prelude
  import opened JobText

  /** A job without a group of its own runs with its whole project. */
  function KeyOf(job: Job): string {
    if job.group == "" then job.slug else job.slug + "/" + job.group
  }

  /** Groups, with the jobs each is given. */
  type Groups = map<string, seq<string>>

  function Grouped(jobs: seq<Job>): Groups {
    if jobs == [] then map[] else WithJob(Grouped(jobs[..|jobs| - 1]), jobs[|jobs| - 1])
  }

  function WithJob(groups: Groups, job: Job): Groups {
    var key := KeyOf(job);
    groups[key := (if key in groups then groups[key] else []) + [job.name]]
  }

  /** A group still at work is passed over. */
  function Dispatched(running: Groups, jobs: seq<Job>): Groups {
    Grouped(jobs) + running
  }

  class GroupRunner {
    var running: Groups

    constructor ()
      ensures running == map[]
    {
      running := map[];
    }

    /** `_dispatch_due_groups`. */
    method DispatchDueGroups(jobs: seq<Job>)
      modifies this
      ensures running == Dispatched(old(running), jobs)
    {
      var groups := GroupJobs(jobs);
      var waiting := groups.Keys;
      while waiting != {}
        invariant waiting <= groups.Keys
        invariant running.Keys == old(running).Keys + (groups.Keys - waiting)
        invariant forall key | key in running ::
          running[key] == if key in old(running) then old(running)[key] else groups[key]
        decreases waiting
      {
        var key :| key in waiting;
        waiting := waiting - {key};
        if key !in running {
          running := running[key := groups[key]];
        }
      }
    }

    method GroupJobs(jobs: seq<Job>) returns (groups: Groups)
      ensures groups == Grouped(jobs)
    {
      groups := map[];
      for i := 0 to |jobs|
        invariant groups == Grouped(jobs[..i])
      {
        assert jobs[..i + 1][..i] == jobs[..i];
        groups := WithJob(groups, jobs[i]);
      }
      assert jobs[..|jobs|] == jobs;
    }

    method Finish(key: string)
      modifies this
      ensures running == old(running) - {key}
    {
      running := running - {key};
    }
  }

  predicate GivenTo(jobs: seq<Job>, key: string, name: string) {
    exists job | job in jobs :: KeyOf(job) == key && job.name == name
  }

  lemma {:induction false} GroupedAre(jobs: seq<Job>, key: string, name: string)
    ensures key in Grouped(jobs) && name in Grouped(jobs)[key] <==> GivenTo(jobs, key, name)
    ensures forall job | job in jobs :: KeyOf(job) in Grouped(jobs)
    decreases |jobs|
  {
    if jobs != [] {
      var front, last := jobs[..|jobs| - 1], jobs[|jobs| - 1];
      GroupedAre(front, key, name);
      assert forall job :: job in jobs <==> job in front || job == last;
    }
  }

  // ----- Which group is which -----

  lemma NoSlashAhead(a: string, b: string, x: string, y: string)
    requires '/' !in a && '/' !in b && a + "/" + x == b + "/" + y
    ensures a == b && x == y
  {
    var s := a + "/" + x;
    assert s[|a|] == '/' && s[|b|] == '/';
    assert s[..|a|] == a && s[..|b|] == b && s[|a| + 1..] == x && s[|b| + 1..] == y;
  }

  lemma GroupsDifferFromNone(a: Job, b: Job)
    requires a.group != "" && b.group == "" && (a.slug == b.slug || '/' !in b.slug)
    ensures KeyOf(a) != KeyOf(b)
  {
    assert KeyOf(a)[|a.slug|] == '/' && |KeyOf(a)| > |a.slug|;
  }

  /** Two jobs share a group exactly when they are of one project and name one group,
      or both none: within a project always, and between projects whose names have
      no slash. */
  lemma SameKeyIff(a: Job, b: Job)
    requires a.slug == b.slug || ('/' !in a.slug && '/' !in b.slug)
    ensures KeyOf(a) == KeyOf(b) <==> a.slug == b.slug && a.group == b.group
  {
    if a.group != "" && b.group == "" {
      GroupsDifferFromNone(a, b);
    } else if a.group == "" && b.group != "" {
      GroupsDifferFromNone(b, a);
    } else if a.group != "" && KeyOf(a) == KeyOf(b) {
      if a.slug == b.slug {
        var n := |a.slug + "/"|;
        assert KeyOf(a)[n..] == a.group && KeyOf(b)[n..] == b.group;
      } else {
        NoSlashAhead(a.slug, b.slug, a.group, b.group);
      }
    }
  }

  /** A slash in a project's name can make its group another's. */
  lemma SlashesMayShareAKey(a: Job, b: Job)
    requires a.slug == "p" && a.group == "g" && b.slug == "p/g" && b.group == ""
    ensures KeyOf(a) == KeyOf(b)
  {
    assert "p" + "/" + "g" == "p/g";
  }

  /** The names of the jobs of one group, in order. */
  function Members(jobs: seq<Job>, key: string): seq<string> {
    if jobs == [] then []
    else (if KeyOf(jobs[0]) == key then [jobs[0].name] else []) + Members(jobs[1..], key)
  }

  lemma {:induction false} MembersOneMore(jobs: seq<Job>, job: Job, key: string)
    ensures Members(jobs + [job], key) == Members(jobs, key) + if KeyOf(job) == key then [job.name] else []
  {
    if jobs == [] {
      assert [] + [job] == [job] && [job][1..] == [];
    } else {
      var first := if KeyOf(jobs[0]) == key then [jobs[0].name] else [];
      var last := if KeyOf(job) == key then [job.name] else [];
      assert (jobs + [job])[1..] == jobs[1..] + [job];
      MembersOneMore(jobs[1..], job, key);
      Regroup(first, Members(jobs[1..], key), last);
    }
  }

  lemma {:induction false} GroupsAreMembers(jobs: seq<Job>, key: string)
    ensures key in Grouped(jobs) <==> Members(jobs, key) != []
    ensures key in Grouped(jobs) ==> Grouped(jobs)[key] == Members(jobs, key)
  {
    if jobs != [] {
      var front, last := jobs[..|jobs| - 1], jobs[|jobs| - 1];
      GroupsAreMembers(front, key);
      FrontAndLast(jobs);
      MembersOneMore(front, last, key);
      Nothing(Members(front, key));
    }
  }

  /** A group at work goes on with what it has; any other group the files name is started
      with its jobs in the order of the files; and no group else is at work. */
  lemma {:induction false} DispatchStartsGroups(running: Groups, jobs: seq<Job>, key: string)
    ensures
      var next := Dispatched(running, jobs);
      && (key in next <==> key in running || Members(jobs, key) != [])
      && (key in next ==> next[key] == if key in running then running[key] else Members(jobs, key))
  {
    GroupsAreMembers(jobs, key);
  }

  // ----- No job runs twice at a time -----

  /** No job is with two groups. */
  predicate Apart(running: Groups) {
    forall a, b, name | a in running && b in running && name in running[a] && name in running[b] :: a == b
  }

  /** A job whose group is idle is still at work in another. */
  predicate Straddles(running: Groups, job: Job) {
    KeyOf(job) !in running && exists key | key in running :: job.name in running[key]
  }

  /** Two jobs of one name belong to different groups, both idle. */
  predicate Splits(running: Groups, a: Job, b: Job) {
    a.name == b.name && KeyOf(a) != KeyOf(b) && KeyOf(a) !in running && KeyOf(b) !in running
  }

  /** What is with an idle group after a dispatch is what the files give it. */
  lemma IdleGroupsAreGiven(running: Groups, jobs: seq<Job>, key: string, name: string)
    requires key !in running
    ensures
      var next := Dispatched(running, jobs);
      key in next && name in next[key] <==> GivenTo(jobs, key, name)
  {
    GroupedAre(jobs, key, name);
  }

  lemma OneGroupEach(running: Groups, jobs: seq<Job>, a: string, b: string, name: string)
    requires Apart(running)
    requires forall job | job in jobs :: !Straddles(running, job)
    requires forall x, y | x in jobs && y in jobs :: !Splits(running, x, y)
    requires
      var next := Dispatched(running, jobs);
      a in next && b in next && name in next[a] && name in next[b]
    ensures a == b
  {
    IdleGroupsAreGivenBoth(running, jobs, a, b, name);
    if a !in running && b !in running {
      var x :| x in jobs && KeyOf(x) == a && x.name == name;
      var y :| y in jobs && KeyOf(y) == b && y.name == name;
      assert !Splits(running, x, y);
    }
  }

  lemma IdleGroupsAreGivenBoth(running: Groups, jobs: seq<Job>, a: string, b: string, name: string)
    ensures
      var next := Dispatched(running, jobs);
      && (a !in running ==> (a in next && name in next[a] <==> GivenTo(jobs, a, name)))
      && (b !in running ==> (b in next && name in next[b] <==> GivenTo(jobs, b, name)))
  {
    if a !in running {
      IdleGroupsAreGiven(running, jobs, a, name);
    }
    if b !in running {
      IdleGroupsAreGiven(running, jobs, b, name);
    }
  }

  /** A dispatch lets no job run twice at a time exactly when no job has changed
      its group while the old one is still at work on it, and no two jobs of one
      name belong to different idle groups. */
  lemma DispatchKeepsJobsApartIff(running: Groups, jobs: seq<Job>)
    requires Apart(running)
    ensures Apart(Dispatched(running, jobs)) <==>
              && (forall job | job in jobs :: !Straddles(running, job))
              && (forall a, b | a in jobs && b in jobs :: !Splits(running, a, b))
  {
    var next := Dispatched(running, jobs);
    if job :| job in jobs && Straddles(running, job) {
      var key :| key in running && job.name in running[key];
      assert GivenTo(jobs, KeyOf(job), job.name);
      IdleGroupsAreGiven(running, jobs, KeyOf(job), job.name);
      assert job.name in next[KeyOf(job)] && job.name in next[key];
    } else if a, b :| a in jobs && b in jobs && Splits(running, a, b) {
      assert GivenTo(jobs, KeyOf(a), a.name) && GivenTo(jobs, KeyOf(b), a.name);
      IdleGroupsAreGivenBoth(running, jobs, KeyOf(a), KeyOf(b), a.name);
      assert a.name in next[KeyOf(a)] && a.name in next[KeyOf(b)];
    } else {
      forall a, b, name | a in next && b in next && name in next[a] && name in next[b]
        ensures a == b
      {
        OneGroupEach(running, jobs, a, b, name);
      }
    }
  }

  function NamedFor(slug: string): Job {
    NewJob("x").(slug := slug, prompt := "p")
  }

  lemma BothAreLive(a: Job, b: Job)
    requires IsLive(a) && IsLive(b)
    ensures Live([a, b]) == [a, b] && NotIn({}, [a, b]) == [a, b]
  {
    assert [a, b][1..] == [b] && [b][1..] == [];
    assert Live([b]) == [b] && NotIn({}, [b]) == [b];
  }

  lemma OneNameSplits(a: Job, b: Job)
    requires a.name == b.name && KeyOf(a) != KeyOf(b)
    ensures !Apart(Dispatched(map[], [a, b]))
  {
    assert [a, b][0] == a && [a, b][1] == b;
    assert Splits(map[], a, b);
    DispatchKeepsJobsApartIff(map[], [a, b]);
  }

  /** Two jobs of one name in HEARTBEAT.md, for different projects, are both read,
      and with nothing at work both start. */
  lemma OneNameInTwoProjectsStartsTwice(r: Readers, main: string)
    requires Finished(ParseText(r, main)) == [NamedFor("a"), NamedFor("b")]
    ensures
      var jobs := AllJobs(r, Heartbeat(Some(main), []));
      jobs == [NamedFor("a"), NamedFor("b")] && !Apart(Dispatched(map[], jobs))
  {
    var a, b := NamedFor("a"), NamedFor("b");
    assert "a"[0] != "b"[0] && |"p"| == 1;
    BothAreLive(a, b);
    Nothing([a, b]);
    OneNameSplits(a, b);
  }

  // ----- Over any run of the daemon -----

  datatype Event = Dispatch(jobs: seq<Job>) | Finish(key: string)

  function Next(running: Groups, event: Event): Groups {
    match event
    case Dispatch(jobs) => Dispatched(running, jobs)
    case Finish(key) => running - {key}
  }

  function AfterAll(running: Groups, events: seq<Event>): Groups
    decreases |events|
  {
    if events == [] then running else AfterAll(Next(running, events[0]), events[1..])
  }

  /** The files never move a job to another group. */
  ghost predicate Settled(group: string -> string, events: seq<Event>) {
    forall k | 0 <= k < |events| && events[k].Dispatch? ::
      forall job | job in events[k].jobs :: KeyOf(job) == group(job.name)
  }

  ghost predicate InTheirGroup(group: string -> string, running: Groups) {
    forall key, name | key in running && name in running[key] :: group(name) == key
  }

  lemma NextKeepsGroups(group: string -> string, running: Groups, event: Event)
    requires InTheirGroup(group, running) && Settled(group, [event])
    ensures InTheirGroup(group, Next(running, event))
  {
    if event.Dispatch? {
      assert [event][0] == event;
      forall key, name | key in Next(running, event) && name in Next(running, event)[key]
        ensures group(name) == key
      {
        GroupedAre(event.jobs, key, name);
      }
    }
  }

  /** While every job stays in its group, no job ever runs twice at a time. */
  lemma {:induction false} JobsRunOneAtATime(group: string -> string, running: Groups, events: seq<Event>)
    requires InTheirGroup(group, running) && Settled(group, events)
    ensures InTheirGroup(group, AfterAll(running, events)) && Apart(AfterAll(running, events))
    decreases |events|
  {
    if events == [] {
      forall a, b, name | a in running && b in running && name in running[a] && name in running[b]
        ensures a == b
      {
        assert group(name) == a;
      }
    } else {
      assert [events[0]][0] == events[0];
      NextKeepsGroups(group, running, events[0]);
      assert forall k | 0 <= k < |events| - 1 :: events[1..][k] == events[k + 1];
      JobsRunOneAtATime(group, Next(running, events[0]), events[1..]);
    }
  }
}
