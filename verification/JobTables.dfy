/** The builds and jobs tables, and the transactions that create, schedule, start, abort
    and finish builds (atc/db/job.go, atc/db/build.go).

    Each committed transaction is one atomic step; a run is any sequence of such steps
    under a fixed job configuration.  Ids of new builds are any unused positive numbers. */
module JobTables {
  import opened Wrappers
  import opened Steps

  datatype Status = Pending | Started | Succeeded | Failed | Errored | Aborted

  predicate Active(st: Status) { st.Pending? || st.Started? }

  datatype Build = Build(job: nat, status: Status, scheduled: bool, completed: bool, aborted: bool, rerunOf: Option<nat>)

  datatype Job = Job(config: JobConfig, pipeline: nat, paused: bool, inputsDetermined: bool, maxInFlightReached: bool,
                     next: Option<nat>, latest: Option<nat>, transition: Option<nat>)

  type Builds = map<nat, Build>

  datatype State = State(builds: Builds, jobs: map<nat, Job>)

  datatype Action =
    | Create(job: nat, id: nat)
    | EnsurePending(job: nat, id: nat)
    | Rerun(job: nat, build: nat, id: nat)
    // the caller's copies of the rows may be out of date
    | Schedule(job: nat, build: nat, seenScheduled: bool, seenPaused: bool)
    | StartBuild(build: nat)
    | Abort(build: nat)
    | Finish(build: nat, status: Status)
    // pausing, unpausing and saving an input mapping
    | Configure(job: nat, paused: bool, inputsDetermined: bool)

  // ---- serial groups ----

  /** The rows saved for a job in jobs_serial_groups. */
  function GroupRows(config: JobConfig): set<string> {
    if |config.serialGroups| != 0 then ToSet(config.serialGroups)
    else if config.serial || config.rawMaxInFlight > 0 then {config.name}
    else {}
  }

  predicate InGroups(jobs: map<nat, Job>, j: nat, pipeline: nat, groups: set<string>) {
    j in jobs && jobs[j].pipeline == pipeline && GroupRows(jobs[j].config) * groups != {}
  }

  predicate IsRunning(s: State, b: nat, pipeline: nat, groups: set<string>)
    requires b in s.builds
  {
    s.builds[b].scheduled && !s.builds[b].completed && InGroups(s.jobs, s.builds[b].job, pipeline, groups)
  }

  /** Scheduled builds that have not completed, of jobs in any of the groups. */
  function Running(s: State, pipeline: nat, groups: set<string>): set<nat> {
    set b | b in s.builds && IsRunning(s, b, pipeline, groups)
  }

  predicate IsEligible(s: State, b: nat, pipeline: nat, groups: set<string>)
    requires b in s.builds
  {
    var j := s.builds[b].job;
    s.builds[b].status.Pending? && InGroups(s.jobs, j, pipeline, groups) && !s.jobs[j].paused && s.jobs[j].inputsDetermined
  }

  /** Where a build stands in the queue: by the build it reruns, then by id. */
  function Origin(builds: Builds, b: nat): nat
    requires b in builds
  {
    if builds[b].rerunOf.Some? then builds[b].rerunOf.value else b
  }

  predicate NotAfter(builds: Builds, a: nat, b: nat)
    requires a in builds && b in builds
  {
    Origin(builds, a) < Origin(builds, b) || (Origin(builds, a) == Origin(builds, b) && a <= b)
  }

  /** `b` is the first of the builds waiting in the groups. */
  ghost predicate IsNext(s: State, b: nat, pipeline: nat, groups: set<string>) {
    && b in s.builds && IsEligible(s, b, pipeline, groups)
    && forall e :: e in s.builds && IsEligible(s, e, pipeline, groups) ==> NotAfter(s.builds, b, e)
  }

  /** The job's limit leaves room for build `b` now. */
  ghost predicate HasRoom(s: State, j: nat, b: nat)
    requires j in s.jobs
  {
    var job := s.jobs[j];
    var groups := GroupRows(job.config);
    job.config.MaxInFlight() == 0
    || (|Running(s, job.pipeline, groups)| < job.config.MaxInFlight() && IsNext(s, b, job.pipeline, groups))
  }

  // ---- job pointers ----

  /** Completed builds of the job that are not reruns. */
  function CompletedOriginals(builds: Builds, j: nat): set<nat> {
    set b | b in builds && builds[b].job == j && builds[b].rerunOf.None? && !Active(builds[b].status)
  }

  /** The greatest id of a completed build that is not a rerun, or 0. */
  function LatestOriginal(builds: Builds, j: nat): nat {
    var done := CompletedOriginals(builds, j);
    if done == {} then 0 else Max(done)
  }

  function CompletedReruns(builds: Builds, j: nat, original: nat): set<nat> {
    set b | b in builds && builds[b].job == j && builds[b].rerunOf == Some(original) && !Active(builds[b].status)
  }

  function LatestCompleted(builds: Builds, j: nat): nat {
    var original := LatestOriginal(builds, j);
    var reruns := CompletedReruns(builds, j, original);
    if reruns == {} then original else Max(reruns)
  }

  function Candidates(builds: Builds, j: nat, original: nat): set<nat> {
    set b | b in builds && builds[b].job == j && Active(builds[b].status)
            && (builds[b].rerunOf.None? || builds[b].rerunOf == Some(original))
  }

  /** The least active id among builds that are not reruns and reruns of the latest
      completed one. */
  function NextBuild(builds: Builds, j: nat): Option<nat> {
    var waiting := Candidates(builds, j, LatestOriginal(builds, j));
    if waiting == {} then None else Some(Min(waiting))
  }

  /** Whether finishing build `b` makes it the job's transition build; `latest` is the
      cached pointer before the step, `builds` the table after `b`'s row was updated. */
  predicate Transitions(builds: Builds, latest: Option<nat>, b: nat)
    requires b in builds
  {
    if latest.None? || latest.value !in builds then true
    else
      && b >= latest.value
      && builds[latest.value].status != builds[b].status
      && (builds[b].rerunOf.None? || builds[b].rerunOf == latest)
  }

  // ---- steps ----

  predicate HasPending(builds: Builds, j: nat) {
    exists b :: b in builds && builds[b].job == j && builds[b].status.Pending?
  }

  predicate Fresh(s: State, id: nat) { id > 0 && id !in s.builds }

  ghost predicate Enabled(s: State, a: Action) {
    match a
    case Create(j, id) => j in s.jobs && Fresh(s, id)
    case EnsurePending(j, id) => j in s.jobs && Fresh(s, id)
    case Rerun(j, b, id) => j in s.jobs && Fresh(s, id) && b in s.builds && s.builds[b].job == j
    case Schedule(j, b, seenScheduled, _) =>
      j in s.jobs && b in s.builds && s.builds[b].job == j && (seenScheduled ==> s.builds[b].scheduled)
    case StartBuild(b) => b in s.builds
    case Abort(b) => b in s.builds
    case Finish(b, status) => b in s.builds && s.builds[b].job in s.jobs && !Active(status)
    case Configure(j, _, _) => j in s.jobs
  }

  function NewBuild(j: nat, rerunOf: Option<nat>): Build {
    Build(j, Pending, false, false, false, rerunOf)
  }

  function Finished(builds: Builds, b: nat, status: Status): Builds
    requires b in builds
  {
    builds[b := builds[b].(status := status, completed := true)]
  }

  function Insert(s: State, j: nat, id: nat, rerunOf: Option<nat>): State
    requires j in s.jobs
  {
    var builds := s.builds[id := NewBuild(j, rerunOf)];
    State(builds, s.jobs[j := s.jobs[j].(next := NextBuild(builds, j))])
  }

  /** Finish refers latest_completed_build_id to a row, so it is rolled back when there is
      none to refer to. */
  predicate CanFinish(builds: Builds, b: nat, status: Status)
    requires b in builds
  {
    LatestCompleted(Finished(builds, b, status), builds[b].job) in Finished(builds, b, status)
  }

  function FinishIn(s: State, b: nat, status: Status): State
    requires b in s.builds && s.builds[b].job in s.jobs
  {
    if !CanFinish(s.builds, b, status) then s
    else
      var j := s.builds[b].job;
      var builds := Finished(s.builds, b, status);
      var transition := if Transitions(builds, s.jobs[j].latest, b) then Some(b) else s.jobs[j].transition;
      State(builds, s.jobs[j := s.jobs[j].(transition := transition, latest := Some(LatestCompleted(builds, j)),
                                           next := NextBuild(builds, j))])
  }

  ghost function ScheduleIn(s: State, j: nat, b: nat, seenScheduled: bool, seenPaused: bool): State
    requires j in s.jobs && b in s.builds
  {
    if seenScheduled || seenPaused then s
    else
      var room := HasRoom(s, j, b);
      State(if room then s.builds[b := s.builds[b].(scheduled := true)] else s.builds,
            s.jobs[j := s.jobs[j].(maxInFlightReached := !room)])
  }

  ghost function Apply(s: State, a: Action): State
    requires Enabled(s, a)
  {
    match a
    case Create(j, id) => Insert(s, j, id, None)
    case EnsurePending(j, id) => if HasPending(s.builds, j) then s else Insert(s, j, id, None)
    case Rerun(j, b, id) => Insert(s, j, id, Some(Origin(s.builds, b)))
    case Schedule(j, b, seenScheduled, seenPaused) => ScheduleIn(s, j, b, seenScheduled, seenPaused)
    case StartBuild(b) =>
      if s.builds[b].status.Pending? && !s.builds[b].aborted
      then State(s.builds[b := s.builds[b].(status := Started)], s.jobs)
      else s
    case Abort(b) => State(s.builds[b := s.builds[b].(aborted := true)], s.jobs)
    case Finish(b, status) => FinishIn(s, b, status)
    case Configure(j, paused, determined) =>
      State(s.builds, s.jobs[j := s.jobs[j].(paused := paused, inputsDetermined := determined)])
  }

  // ---- runs ----

  ghost predicate Init(s: State) {
    s.builds == map[]
    && forall j :: j in s.jobs ==> s.jobs[j].next.None? && s.jobs[j].latest.None? && s.jobs[j].transition.None?
  }

  datatype Run = Begin(now: State) | Then(before: Run, a: Action, now: State)

  ghost predicate IsRun(r: Run) {
    match r
    case Begin(now) => Init(now)
    case Then(before, a, now) => IsRun(before) && Enabled(before.now, a) && now == Apply(before.now, a)
  }

  // ---- what every step keeps ----

  ghost predicate SameConfig(s: State, t: State) {
    s.jobs.Keys == t.jobs.Keys
    && forall j :: j in s.jobs ==> s.jobs[j].config == t.jobs[j].config && s.jobs[j].pipeline == t.jobs[j].pipeline
  }

  lemma StepKeepsConfig(s: State, a: Action)
    requires Enabled(s, a)
    ensures SameConfig(s, Apply(s, a))
  {
  }

  /** Rows refer to rows that exist, and reruns to builds that are not reruns. */
  ghost predicate Sound(s: State) {
    forall b :: b in s.builds ==>
      && b > 0 && s.builds[b].job in s.jobs
      && (s.builds[b].completed <==> !Active(s.builds[b].status))
      && (s.builds[b].rerunOf.Some? ==>
            var o := s.builds[b].rerunOf.value;
            o in s.builds && s.builds[o].rerunOf.None? && s.builds[o].job == s.builds[b].job)
  }

  lemma InsertKeepsSound(s: State, j: nat, id: nat, rerunOf: Option<nat>)
    requires Sound(s) && j in s.jobs && Fresh(s, id)
    requires rerunOf.Some? ==> var o := rerunOf.value; o in s.builds && s.builds[o].rerunOf.None? && s.builds[o].job == j
    ensures Sound(Insert(s, j, id, rerunOf))
  {
  }

  lemma StepKeepsSound(s: State, a: Action)
    requires Sound(s) && Enabled(s, a)
    ensures Sound(Apply(s, a))
  {
    match a
    case Create(j, id) => InsertKeepsSound(s, j, id, None);
    case EnsurePending(j, id) => InsertKeepsSound(s, j, id, None);
    case Rerun(j, b, id) => InsertKeepsSound(s, j, id, Some(Origin(s.builds, b)));
    case _ =>
  }

  /** In every reachable state reruns point at builds of the same job that are not reruns
      themselves, and `completed` agrees with the status. */
  lemma {:induction false} RunKeepsSound(r: Run)
    requires IsRun(r)
    ensures Sound(r.now)
  {
    if r.Then? {
      RunKeepsSound(r.before);
      StepKeepsSound(r.before.now, r.a);
    }
  }
}
