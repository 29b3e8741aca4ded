/** Serial groups limit how many builds run at once, over every run of the job tables
    (atc/db/job.go, atc/db/team.go, atc/job_config.go). */
module SerialGroups {
  import opened Wrappers
  import opened Steps
  import opened JobTables

  /** The serial groups a job's configuration puts it in. */
  ghost predicate Names(config: JobConfig, group: string) {
    if config.serialGroups != [] then group in config.serialGroups
    else (config.serial || config.rawMaxInFlight > 0) && group == config.name
  }

  ghost predicate Share(a: JobConfig, b: JobConfig) {
    exists g :: Names(a, g) && Names(b, g)
  }

  /** The rows are the groups named: those listed, or else the job's own name if it is
      limited.  Only jobs with a limit have any. */
  lemma RowsMeanLimit(config: JobConfig)
    ensures forall g :: g in GroupRows(config) <==> Names(config, g)
    ensures config.MaxInFlight() == if config.serial || config.serialGroups != [] then 1 else config.rawMaxInFlight
    ensures GroupRows(config) != {} <==> config.MaxInFlight() >= 1
  {
    if |config.serialGroups| != 0 { assert config.serialGroups[0] in GroupRows(config); }
    else if config.serial || config.rawMaxInFlight > 0 { assert config.name in GroupRows(config); }
  }

  lemma SharedRows(a: JobConfig, b: JobConfig)
    ensures GroupRows(a) * GroupRows(b) != {} <==> Share(a, b)
  {
    RowsMeanLimit(a);
    RowsMeanLimit(b);
    if Share(a, b) {
      var g :| Names(a, g) && Names(b, g);
      assert g in GroupRows(a) * GroupRows(b);
    }
    if GroupRows(a) * GroupRows(b) != {} {
      var g :| g in GroupRows(a) * GroupRows(b);
      assert Names(a, g) && Names(b, g);
    }
  }

  /** Every job of the group may have at most `m` builds in flight. */
  ghost predicate LimitedTo(s: State, pipeline: nat, group: string, m: nat) {
    forall j :: InGroups(s.jobs, j, pipeline, {group}) ==> s.jobs[j].config.MaxInFlight() <= m
  }

  lemma RunningOverlap(s: State, j: nat, group: string)
    requires j in s.jobs && group in GroupRows(s.jobs[j].config)
    ensures Running(s, s.jobs[j].pipeline, {group}) <= Running(s, s.jobs[j].pipeline, GroupRows(s.jobs[j].config))
  {
    var p, groups := s.jobs[j].pipeline, GroupRows(s.jobs[j].config);
    forall b | b in Running(s, p, {group}) ensures b in Running(s, p, groups) {
      var rows := GroupRows(s.jobs[s.builds[b].job].config);
      var g :| g in rows * {group};
      assert g in rows * groups;
    }
  }

  /** Only scheduling adds a running build, and at most the one it schedules. */
  lemma OnlySchedulingAdds(s: State, a: Action, pipeline: nat, groups: set<string>)
    requires Sound(s) && Enabled(s, a)
    ensures var t := Apply(s, a);
            Running(t, pipeline, groups) <= Running(s, pipeline, groups)
            || (a.Schedule? && HasRoom(s, a.job, a.build) && InGroups(s.jobs, a.job, pipeline, groups)
                && Running(t, pipeline, groups) <= Running(s, pipeline, groups) + {a.build})
  {
    StepKeepsConfig(s, a);
    if a.Schedule? {
      ScheduleAdds(s, a, pipeline, groups);
    } else {
      OthersScheduleNothing(s, a);
      AddsNothing(s, Apply(s, a), pipeline, groups);
    }
  }

  ghost predicate NoneScheduled(s: State, t: State) {
    forall b :: b in t.builds && t.builds[b].scheduled && !t.builds[b].completed ==>
      b in s.builds && s.builds[b].scheduled && !s.builds[b].completed && s.builds[b].job == t.builds[b].job
  }

  lemma OthersScheduleNothing(s: State, a: Action)
    requires Enabled(s, a) && !a.Schedule?
    ensures NoneScheduled(s, Apply(s, a))
  {
  }

  lemma AddsNothing(s: State, t: State, pipeline: nat, groups: set<string>)
    requires SameConfig(s, t) && NoneScheduled(s, t)
    ensures Running(t, pipeline, groups) <= Running(s, pipeline, groups)
  {
  }

  lemma ScheduleAdds(s: State, a: Action, pipeline: nat, groups: set<string>)
    requires a.Schedule? && Enabled(s, a) && SameConfig(s, Apply(s, a))
    ensures var t := Apply(s, a);
            Running(t, pipeline, groups) <= Running(s, pipeline, groups)
            || (HasRoom(s, a.job, a.build) && InGroups(s.jobs, a.job, pipeline, groups)
                && Running(t, pipeline, groups) <= Running(s, pipeline, groups) + {a.build})
  {
    var t := Apply(s, a);
    if a.seenScheduled || a.seenPaused || !HasRoom(s, a.job, a.build) {
      AddsNothing(s, t, pipeline, groups);
    } else {
      assert forall b :: b in t.builds && b != a.build ==> t.builds[b] == s.builds[b];
      assert t.builds[a.build].job == a.job;
    }
  }

  lemma StepKeepsLimit(s: State, a: Action, pipeline: nat, group: string, m: nat)
    requires Sound(s) && Enabled(s, a) && LimitedTo(s, pipeline, group, m)
    requires |Running(s, pipeline, {group})| <= m
    ensures |Running(Apply(s, a), pipeline, {group})| <= m
  {
    var before, after := Running(s, pipeline, {group}), Running(Apply(s, a), pipeline, {group});
    OnlySchedulingAdds(s, a, pipeline, {group});
    if after <= before {
      SubsetSize(after, before);
    } else {
      var j := a.job;
      var rows := GroupRows(s.jobs[j].config);
      var g :| g in rows * {group};
      RowsMeanLimit(s.jobs[j].config);
      RunningOverlap(s, j, group);
      SubsetSize(before, Running(s, pipeline, rows));
      SubsetSize(after, before + {a.build});
    }
  }

  lemma {:induction false} RowsLimit(r: Run, pipeline: nat, group: string, m: nat)
    requires IsRun(r) && LimitedTo(r.now, pipeline, group, m)
    ensures |Running(r.now, pipeline, {group})| <= m
  {
    if r.Then? {
      StepKeepsConfig(r.before.now, r.a);
      assert LimitedTo(r.before.now, pipeline, group, m);
      RowsLimit(r.before, pipeline, group, m);
      RunKeepsSound(r.before);
      StepKeepsLimit(r.before.now, r.a, pipeline, group, m);
    } else {
      assert Running(r.now, pipeline, {group}) == {};
    }
  }

  predicate InFlight(builds: Builds, b: nat) {
    b in builds && builds[b].scheduled && !builds[b].completed
  }

  /** Job `j` of the pipeline is in the group by its configuration. */
  ghost predicate IsMember(jobs: map<nat, Job>, j: nat, pipeline: nat, group: string) {
    j in jobs && jobs[j].pipeline == pipeline && Names(jobs[j].config, group)
  }

  lemma MembersHaveRows(jobs: map<nat, Job>, j: nat, pipeline: nat, group: string)
    ensures InGroups(jobs, j, pipeline, {group}) <==> IsMember(jobs, j, pipeline, group)
  {
    if j in jobs {
      RowsMeanLimit(jobs[j].config);
      var rows := GroupRows(jobs[j].config);
      if group in rows { assert group in rows * {group}; }
    }
  }

  /** At every moment of every run, a group whose members allow at most `m` builds in flight
      has at most `m` builds that are scheduled and not completed. */
  lemma SerialGroupLimit(r: Run, pipeline: nat, group: string, m: nat)
    requires IsRun(r)
    requires forall j :: IsMember(r.now.jobs, j, pipeline, group) ==> r.now.jobs[j].config.MaxInFlight() <= m
    ensures |set b | b in r.now.builds && InFlight(r.now.builds, b) && IsMember(r.now.jobs, r.now.builds[b].job, pipeline, group)| <= m
  {
    var s := r.now;
    forall j: nat ensures InGroups(s.jobs, j, pipeline, {group}) <==> IsMember(s.jobs, j, pipeline, group) {
      MembersHaveRows(s.jobs, j, pipeline, group);
    }
    RowsLimit(r, pipeline, group, m);
    assert Running(s, pipeline, {group})
           == set b | b in s.builds && InFlight(s.builds, b) && IsMember(s.jobs, s.builds[b].job, pipeline, group);
  }

  // ---- mutual exclusion ----

  /** A build in flight was so before the step, or the step scheduled it with room. */
  lemma InFlightBefore(s: State, a: Action, b: nat)
    requires Sound(s) && Enabled(s, a) && InFlight(Apply(s, a).builds, b)
    ensures b in s.builds && s.builds[b].job == Apply(s, a).builds[b].job
    ensures InFlight(s.builds, b) || (a.Schedule? && a.build == b && a.job == s.builds[b].job && HasRoom(s, a.job, b))
  {
    if !a.Schedule? { OthersScheduleNothing(s, a); }
  }

  ghost predicate Exclude(s: State, a: nat, b: nat) {
    && InFlight(s.builds, a) && InFlight(s.builds, b) && s.builds[a].job in s.jobs && s.builds[b].job in s.jobs
    && var ja, jb := s.jobs[s.builds[a].job], s.jobs[s.builds[b].job];
       ja.pipeline == jb.pipeline && Share(ja.config, jb.config)
       && (ja.config.serial || ja.config.serialGroups != []) && (jb.config.serial || jb.config.serialGroups != [])
  }

  lemma NoRoomBeside(s: State, a: nat, b: nat)
    requires InFlight(s.builds, a) && b in s.builds && s.builds[a].job in s.jobs && s.builds[b].job in s.jobs
    requires var ja, jb := s.jobs[s.builds[a].job], s.jobs[s.builds[b].job];
             ja.pipeline == jb.pipeline && Share(ja.config, jb.config) && (jb.config.serial || jb.config.serialGroups != [])
    ensures !HasRoom(s, s.builds[b].job, b)
  {
    var ja, jb := s.jobs[s.builds[a].job], s.jobs[s.builds[b].job];
    SharedRows(ja.config, jb.config);
    RowsMeanLimit(jb.config);
    assert a in Running(s, jb.pipeline, GroupRows(jb.config));
  }

  /** In every run, two builds that are scheduled and not completed, of jobs of one pipeline
      that share a serial group and are serial or list their groups, are the same build,
      whatever other jobs are in the group. */
  lemma {:induction false} MutualExclusion(r: Run, a: nat, b: nat)
    requires IsRun(r) && Exclude(r.now, a, b)
    ensures a == b
  {
    if r.Then? {
      var s := r.before.now;
      RunKeepsSound(r.before);
      StepKeepsConfig(s, r.a);
      InFlightBefore(s, r.a, a);
      InFlightBefore(s, r.a, b);
      if InFlight(s.builds, a) && InFlight(s.builds, b) {
        MutualExclusion(r.before, a, b);
      } else if a != b {
        var ja, jb := s.jobs[s.builds[a].job], s.jobs[s.builds[b].job];
        assert Share(jb.config, ja.config);
        if InFlight(s.builds, a) { NoRoomBeside(s, a, b); } else { NoRoomBeside(s, b, a); }
      }
    }
  }

  /** As a pipeline's author puts it: jobs that list the same serial group. */
  lemma ListedGroupExcludes(r: Run, group: string, a: nat, b: nat)
    requires IsRun(r) && InFlight(r.now.builds, a) && InFlight(r.now.builds, b)
    requires r.now.builds[a].job in r.now.jobs && r.now.builds[b].job in r.now.jobs
    requires var ja, jb := r.now.jobs[r.now.builds[a].job], r.now.jobs[r.now.builds[b].job];
             ja.pipeline == jb.pipeline && group in ja.config.serialGroups && group in jb.config.serialGroups
    ensures a == b
  {
    var ja, jb := r.now.jobs[r.now.builds[a].job], r.now.jobs[r.now.builds[b].job];
    assert Names(ja.config, group) && Names(jb.config, group);
    MutualExclusion(r, a, b);
  }

  // ---- whose turn it is ----

  /** Build `b` is of a job that shares a serial group with job `j`. */
  ghost predicate Competes(s: State, b: nat, j: nat) {
    && b in s.builds && j in s.jobs && s.builds[b].job in s.jobs
    && s.jobs[s.builds[b].job].pipeline == s.jobs[j].pipeline && Share(s.jobs[s.builds[b].job].config, s.jobs[j].config)
  }

  /** Pending, of a job that is not paused and whose inputs are determined. */
  ghost predicate Waits(s: State, b: nat, j: nat) {
    && Competes(s, b, j) && s.builds[b].status == Pending
    && !s.jobs[s.builds[b].job].paused && s.jobs[s.builds[b].job].inputsDetermined
  }

  /** `a` comes no later than `b`: by the id of the build it reruns or else its own, then by
      its own. */
  ghost predicate NoLater(builds: Builds, a: nat, b: nat)
    requires a in builds && b in builds
  {
    var x := match builds[a].rerunOf case None => a case Some(o) => o;
    var y := match builds[b].rerunOf case None => b case Some(o) => o;
    x < y || (x == y && a <= b)
  }

  /** What the configuration allows: no limit, or fewer competing builds in flight than the
      limit and none waiting ahead. */
  ghost predicate Allowed(s: State, j: nat, b: nat)
    requires j in s.jobs
  {
    var config := s.jobs[j].config;
    var limit := if config.serial || config.serialGroups != [] then 1 else config.rawMaxInFlight;
    limit == 0
    || (|set x | x in s.builds && InFlight(s.builds, x) && Competes(s, x, j)| < limit
        && Waits(s, b, j) && forall e :: Waits(s, e, j) ==> NoLater(s.builds, b, e))
  }

  lemma RowsCompete(s: State, b: nat, j: nat)
    requires b in s.builds && j in s.jobs
    ensures InGroups(s.jobs, s.builds[b].job, s.jobs[j].pipeline, GroupRows(s.jobs[j].config)) <==> Competes(s, b, j)
  {
    if s.builds[b].job in s.jobs { SharedRows(s.jobs[s.builds[b].job].config, s.jobs[j].config); }
  }

  lemma RoomIsAllowed(s: State, j: nat, b: nat)
    requires j in s.jobs
    ensures HasRoom(s, j, b) <==> Allowed(s, j, b)
  {
    var pipeline, groups := s.jobs[j].pipeline, GroupRows(s.jobs[j].config);
    RowsMeanLimit(s.jobs[j].config);
    forall x | x in s.builds
      ensures InGroups(s.jobs, s.builds[x].job, pipeline, groups) <==> Competes(s, x, j)
      ensures IsEligible(s, x, pipeline, groups) <==> Waits(s, x, j)
    {
      RowsCompete(s, x, j);
    }
    assert Running(s, pipeline, groups) == set x | x in s.builds && InFlight(s.builds, x) && Competes(s, x, j);
  }

  /** A scheduling step schedules its build exactly if the configuration allows it, unless
      the caller saw the build scheduled or the job paused, and touches no other build. */
  lemma ScheduledExactly(s: State, a: Action)
    requires Enabled(s, a) && a.Schedule?
    ensures var t := Apply(s, a);
            && t.builds.Keys == s.builds.Keys && (forall x :: x in s.builds && x != a.build ==> t.builds[x] == s.builds[x])
            && t.builds[a.build] == s.builds[a.build].(scheduled :=
                 s.builds[a.build].scheduled || (!a.seenScheduled && !a.seenPaused && Allowed(s, a.job, a.build)))
            && (!a.seenScheduled && !a.seenPaused ==> t.jobs[a.job].maxInFlightReached == !Allowed(s, a.job, a.build))
  {
    RoomIsAllowed(s, a.job, a.build);
  }

  /** No other step schedules a build. */
  lemma ScheduledInTurn(s: State, a: Action, b: nat)
    requires Sound(s) && Enabled(s, a) && b in s.builds && !s.builds[b].scheduled
    requires b in Apply(s, a).builds && Apply(s, a).builds[b].scheduled
    ensures a.Schedule? && a.build == b && a.job == s.builds[b].job && Allowed(s, a.job, b)
  {
    if a.Schedule? { ScheduledExactly(s, a); }
  }
}
