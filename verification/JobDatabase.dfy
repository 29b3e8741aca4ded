/** The transactions on builds and jobs as they are carried out (atc/db/job.go,
    atc/db/build.go).  Every sequence of calls is a run of the job tables, so what holds
    of every run holds of the database after every call. */
module JobDatabase {
  import opened Wrappers
  import opened JobTables
  import SerialGroups
  import JobPointers

  lemma QueueOrder(builds: Builds, a: nat, b: nat)
    requires a in builds && b in builds
    ensures NotAfter(builds, a, b) || NotAfter(builds, b, a)
    ensures NotAfter(builds, a, b) && NotAfter(builds, b, a) ==> a == b
  {
  }

  class Database {
    var builds: Builds
    var jobs: map<nat, Job>
    ghost var history: Run

    ghost predicate Valid()
      reads this
    {
      IsRun(history) && history.now == Now()
    }

    function Now(): State
      reads this
    {
      State(builds, jobs)
    }

    constructor (initial: map<nat, Job>)
      requires Init(State(map[], initial))
      ensures Valid() && Now() == State(map[], initial)
    {
      builds, jobs := map[], initial;
      history := Begin(State(map[], initial));
    }

    // ---- scheduling ----

    method GetRunningBuildsBySerialGroup(pipeline: nat, groups: set<string>) returns (found: set<nat>)
      ensures found == Running(Now(), pipeline, groups)
    {
      found := {};
      var rest := builds.Keys;
      while rest != {}
        invariant rest <= builds.Keys
        invariant forall b :: b in found <==> b in builds && b !in rest && IsRunning(Now(), b, pipeline, groups)
        decreases |rest|
      {
        var b :| b in rest;
        if IsRunning(Now(), b, pipeline, groups) { found := found + {b}; }
        rest := rest - {b};
      }
    }

    method GetNextPendingBuildBySerialGroup(pipeline: nat, groups: set<string>) returns (next: Option<nat>)
      ensures next.Some? ==> IsNext(Now(), next.value, pipeline, groups)
      ensures next.None? ==> forall b :: b in builds ==> !IsEligible(Now(), b, pipeline, groups)
    {
      next := None;
      var rest := builds.Keys;
      while rest != {}
        invariant rest <= builds.Keys
        invariant next.Some? ==> next.value in builds && IsEligible(Now(), next.value, pipeline, groups)
        invariant forall b :: b in builds && b !in rest && IsEligible(Now(), b, pipeline, groups) ==>
                    next.Some? && NotAfter(builds, next.value, b)
        decreases |rest|
      {
        var b :| b in rest;
        if IsEligible(Now(), b, pipeline, groups) && (next.None? || NotAfter(builds, b, next.value)) {
          next := Some(b);
        }
        rest := rest - {b};
      }
    }

    method IsMaxInFlightReached(j: nat, b: nat) returns (reached: bool)
      requires j in jobs
      ensures reached == !HasRoom(Now(), j, b)
    {
      var job := jobs[j];
      if job.config.MaxInFlight() == 0 { return false; }
      var groups := GroupRows(job.config);
      var running := GetRunningBuildsBySerialGroup(job.pipeline, groups);
      if |running| >= job.config.MaxInFlight() { return true; }
      var next := GetNextPendingBuildBySerialGroup(job.pipeline, groups);
      if next.None? { return true; }
      if next.value != b {
        if b in builds { QueueOrder(builds, b, next.value); }
        return true;
      }
      return false;
    }

    /** The copies the caller holds of the rows may be out of date; a build once scheduled
        stays so. */
    method ScheduleBuild(j: nat, b: nat, seenScheduled: bool, seenPaused: bool) returns (scheduled: bool)
      requires Valid() && Enabled(Now(), Schedule(j, b, seenScheduled, seenPaused))
      modifies this
      ensures Valid() && history == Then(old(history), Schedule(j, b, seenScheduled, seenPaused), Now())
      ensures scheduled <==> seenScheduled || (!seenPaused && old(HasRoom(Now(), j, b)))
      ensures scheduled <==> seenScheduled || (!seenPaused && old(SerialGroups.Allowed(Now(), j, b)))
      ensures b in builds && (builds[b].scheduled <==> old(builds)[b].scheduled || scheduled)
    {
      SerialGroups.RoomIsAllowed(Now(), j, b);
      ghost var a := Schedule(j, b, seenScheduled, seenPaused);
      if seenScheduled || seenPaused {
        history := Then(history, a, Now());
        return seenScheduled;
      }
      var reached := IsMaxInFlightReached(j, b);
      jobs := jobs[j := jobs[j].(maxInFlightReached := reached)];
      if !reached {
        builds := builds[b := builds[b].(scheduled := true)];
      }
      history := Then(history, a, Now());
      return !reached;
    }

    // ---- pointers ----

    method UpdateNextBuildForJob(j: nat, original: nat)
      requires j in jobs && original == LatestOriginal(builds, j)
      modifies this`jobs
      ensures jobs == old(jobs)[j := old(jobs)[j].(next := NextBuild(builds, j))]
      ensures old(Sound(Now())) ==>
                && (jobs[j].next.None? <==> forall b: nat :: !JobPointers.IsUpcoming(builds, j, b))
                && (jobs[j].next.Some? ==>
                      && JobPointers.IsUpcoming(builds, j, jobs[j].next.value)
                      && forall b: nat :: JobPointers.IsUpcoming(builds, j, b) ==> jobs[j].next.value <= b)
    {
      if Sound(Now()) { JobPointers.RecomputedNext(Now(), j); }
      var waiting := Candidates(builds, j, original);
      var next := if waiting == {} then None else Some(Min(waiting));
      jobs := jobs[j := jobs[j].(next := next)];
    }

    method UpdateLatestCompletedBuildForJob(j: nat, original: nat) returns (ok: bool)
      requires j in jobs && original == LatestOriginal(builds, j)
      modifies this`jobs
      ensures ok == (LatestCompleted(builds, j) in builds)
      ensures jobs == if ok then old(jobs)[j := old(jobs)[j].(latest := Some(LatestCompleted(builds, j)))] else old(jobs)
      ensures old(Sound(Now())) ==>
                && (ok <==> exists b: nat :: JobPointers.IsDone(builds, j, b))
                && (ok ==> jobs[j].latest.Some? && JobPointers.IsLatest(builds, j, jobs[j].latest.value))
    {
      if Sound(Now()) {
        JobPointers.NoOriginal(Now(), j);
        JobPointers.LastOriginalIsLast(Now(), j);
        if original != 0 { JobPointers.RecomputedLatest(Now(), j); }
      }
      var reruns := CompletedReruns(builds, j, original);
      var id := if reruns == {} then original else Max(reruns);
      if id !in builds { return false; }
      jobs := jobs[j := jobs[j].(latest := Some(id))];
      return true;
    }

    method UpdateTransitionBuildForJob(j: nat, b: nat)
      requires j in jobs && b in builds
      modifies this`jobs
      ensures jobs == old(jobs)[j := old(jobs)[j].(transition :=
                        if Transitions(builds, old(jobs)[j].latest, b) then Some(b) else old(jobs)[j].transition)]
    {
      var update := false;
      var latestId: nat, latestStatus := 0, None;
      if jobs[j].latest.None? || jobs[j].latest.value !in builds {
        update := true;
      } else {
        latestId, latestStatus := jobs[j].latest.value, Some(builds[jobs[j].latest.value].status);
      }
      if b < latestId {
        assert jobs == jobs[j := jobs[j].(transition := jobs[j].transition)];
        return;
      }
      if latestStatus != Some(builds[b].status) && (builds[b].rerunOf.None? || builds[b].rerunOf == Some(latestId)) {
        update := true;
      }
      jobs := jobs[j := jobs[j].(transition := if update then Some(b) else jobs[j].transition)];
    }

    // ---- creating builds ----

    method InsertBuild(j: nat, id: nat, rerunOf: Option<nat>)
      requires j in jobs
      modifies this`builds, this`jobs
      ensures Now() == Insert(old(Now()), j, id, rerunOf)
    {
      builds := builds[id := NewBuild(j, rerunOf)];
      UpdateNextBuildForJob(j, LatestOriginal(builds, j));
    }

    method CreateBuild(j: nat, id: nat)
      requires Valid() && Enabled(Now(), Create(j, id))
      modifies this
      ensures Valid() && history == Then(old(history), Create(j, id), Now())
      ensures builds == old(builds)[id := Build(j, Pending, false, false, false, None)]
    {
      InsertBuild(j, id, None);
      history := Then(history, Create(j, id), Now());
    }

    method EnsurePendingBuildExists(j: nat, id: nat)
      requires Valid() && Enabled(Now(), EnsurePending(j, id))
      modifies this
      ensures Valid() && history == Then(old(history), EnsurePending(j, id), Now())
      ensures exists b :: b in builds && builds[b].job == j && builds[b].status == Pending
      ensures builds == if old(exists b :: b in builds && builds[b].job == j && builds[b].status == Pending) then old(builds)
                        else old(builds)[id := Build(j, Pending, false, false, false, None)]
    {
      if !HasPending(builds, j) {
        InsertBuild(j, id, None);
        assert builds[id].status.Pending? && builds[id].job == j;
      }
      history := Then(history, EnsurePending(j, id), Now());
    }

    method TryRerunBuild(j: nat, b: nat, id: nat)
      requires Valid() && Enabled(Now(), Rerun(j, b, id))
      modifies this
      ensures Valid() && history == Then(old(history), Rerun(j, b, id), Now())
      ensures var original := if old(builds)[b].rerunOf.Some? then old(builds)[b].rerunOf.value else b;
              builds == old(builds)[id := Build(j, Pending, false, false, false, Some(original))]
    {
      var buildToRerun := b;
      if builds[b].rerunOf.Some? { buildToRerun := builds[b].rerunOf.value; }
      InsertBuild(j, id, Some(buildToRerun));
      history := Then(history, Rerun(j, b, id), Now());
    }

    // ---- running builds ----

    method Start(b: nat) returns (started: bool)
      requires Valid() && Enabled(Now(), StartBuild(b))
      modifies this
      ensures Valid() && history == Then(old(history), StartBuild(b), Now())
      ensures started <==> old(builds)[b].status.Pending? && !old(builds)[b].aborted
      ensures jobs == old(jobs)
      ensures builds == if started then old(builds)[b := old(builds)[b].(status := Started)] else old(builds)
    {
      started := builds[b].status.Pending? && !builds[b].aborted;
      if started { builds := builds[b := builds[b].(status := Started)]; }
      history := Then(history, StartBuild(b), Now());
    }

    method MarkAsAborted(b: nat)
      requires Valid() && Enabled(Now(), Abort(b))
      modifies this
      ensures Valid() && history == Then(old(history), Abort(b), Now())
      ensures jobs == old(jobs) && builds == old(builds)[b := old(builds)[b].(aborted := true)]
    {
      builds := builds[b := builds[b].(aborted := true)];
      history := Then(history, Abort(b), Now());
    }

    method FinishTransaction(b: nat, status: Status) returns (ok: bool)
      requires b in builds && builds[b].job in jobs
      modifies this`builds, this`jobs
      ensures ok == old(CanFinish(builds, b, status)) && Now() == FinishIn(old(Now()), b, status)
    {
      var builds0, jobs0 := builds, jobs;
      var j := builds[b].job;
      builds := Finished(builds, b, status);
      UpdateTransitionBuildForJob(j, b);
      var original := LatestOriginal(builds, j);
      ok := UpdateLatestCompletedBuildForJob(j, original);
      if ok {
        UpdateNextBuildForJob(j, original);
      } else {
        builds, jobs := builds0, jobs0;
      }
    }

    /** Fails, leaving the tables as they were, exactly for a rerun of a job none of whose
        other builds has completed. */
    method Finish(b: nat, status: Status) returns (ok: bool)
      requires Valid() && Enabled(Now(), JobTables.Finish(b, status))
      modifies this
      ensures Valid() && history == Then(old(history), JobTables.Finish(b, status), Now())
      ensures ok <==> old(builds[b].rerunOf.None? || CompletedOriginals(builds, builds[b].job) != {})
      ensures !ok ==> Now() == old(Now())
      ensures ok ==> builds == old(builds)[b := old(builds)[b].(status := status, completed := true)]
    {
      RunKeepsSound(history);
      JobPointers.FinishRolledBack(Now(), b, status);
      ok := FinishTransaction(b, status);
      history := Then(history, JobTables.Finish(b, status), Now());
    }

    // ---- what holds after every call ----

    lemma KeepsLimit(pipeline: nat, group: string, m: nat)
      requires Valid()
      requires forall j :: SerialGroups.IsMember(jobs, j, pipeline, group) ==> jobs[j].config.MaxInFlight() <= m
      ensures |set b | b in builds && SerialGroups.InFlight(builds, b)
                       && SerialGroups.IsMember(jobs, builds[b].job, pipeline, group)| <= m
    {
      SerialGroups.SerialGroupLimit(history, pipeline, group, m);
    }

    lemma KeepsPointers(j: nat)
      requires Valid() && j in jobs
      ensures Sound(Now()) && JobPointers.Agrees(Now(), j)
    {
      RunKeepsSound(history);
      JobPointers.PointersAlwaysAgree(history);
    }
  }
}
