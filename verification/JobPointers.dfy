/** The build pointers cached in a job's row agree with the builds table over every run
    (atc/db/build.go, atc/db/job.go). */
module JobPointers {
  import opened Wrappers
  import opened JobTables

  // ---- what the pointers are to be ----

  predicate Unfinished(st: Status) { st == Pending || st == Started }

  /** A build of the job that has completed and is no rerun. */
  ghost predicate IsDone(builds: Builds, j: nat, b: nat) {
    b in builds && builds[b].job == j && !Unfinished(builds[b].status) && builds[b].rerunOf.None?
  }

  /** `l` is the greatest such build. */
  ghost predicate IsLastDone(builds: Builds, j: nat, l: nat) {
    IsDone(builds, j, l) && forall b: nat :: IsDone(builds, j, b) ==> b <= l
  }

  ghost predicate IsDoneRerun(builds: Builds, j: nat, l: nat, b: nat) {
    b in builds && builds[b].job == j && !Unfinished(builds[b].status) && builds[b].rerunOf == Some(l)
  }

  /** The latest completed build: the greatest completed rerun of the greatest completed
      build that is no rerun, or else that. */
  ghost predicate IsLatest(builds: Builds, j: nat, x: nat) {
    exists l: nat :: IsLastDone(builds, j, l)
      && (x == l || IsDoneRerun(builds, j, l, x))
      && forall b: nat :: IsDoneRerun(builds, j, l, b) ==> x != l && b <= x
  }

  /** A build that is yet to finish and is no rerun, or a rerun of the greatest completed
      build that is none. */
  ghost predicate IsUpcoming(builds: Builds, j: nat, b: nat) {
    && b in builds && builds[b].job == j && Unfinished(builds[b].status)
    && (builds[b].rerunOf.None? || IsLastDone(builds, j, builds[b].rerunOf.value))
  }

  /** The pointers are right by the builds table. */
  ghost predicate Agrees(s: State, j: nat)
    requires j in s.jobs
  {
    var next, latest := s.jobs[j].next, s.jobs[j].latest;
    && (next.None? <==> forall b: nat :: !IsUpcoming(s.builds, j, b))
    && (next.Some? ==> IsUpcoming(s.builds, j, next.value) && forall b: nat :: IsUpcoming(s.builds, j, b) ==> next.value <= b)
    && (latest.None? <==> forall b: nat :: !IsDone(s.builds, j, b))
    && (latest.Some? ==> IsLatest(s.builds, j, latest.value))
  }

  lemma LastOriginalIsLast(s: State, j: nat)
    requires Sound(s)
    ensures var l := LatestOriginal(s.builds, j);
            if l == 0 then forall b: nat :: !IsDone(s.builds, j, b) else IsLastDone(s.builds, j, l)
  {
    var l, done := LatestOriginal(s.builds, j), CompletedOriginals(s.builds, j);
    assert forall b: nat :: b in done <==> IsDone(s.builds, j, b);
  }

  lemma RecomputedLatest(s: State, j: nat)
    requires Sound(s) && LatestOriginal(s.builds, j) != 0
    ensures IsLatest(s.builds, j, LatestCompleted(s.builds, j))
  {
    LastOriginalIsLast(s, j);
    var l, x := LatestOriginal(s.builds, j), LatestCompleted(s.builds, j);
    assert forall b: nat :: b in CompletedReruns(s.builds, j, l) <==> IsDoneRerun(s.builds, j, l, b);
    assert x == l || IsDoneRerun(s.builds, j, l, x);
    assert forall b: nat :: IsDoneRerun(s.builds, j, l, b) ==> x != l && b <= x;
  }

  lemma RecomputedNext(s: State, j: nat)
    requires Sound(s)
    ensures var next := NextBuild(s.builds, j);
            && (next.None? <==> forall b: nat :: !IsUpcoming(s.builds, j, b))
            && (next.Some? ==> IsUpcoming(s.builds, j, next.value) && forall b: nat :: IsUpcoming(s.builds, j, b) ==> next.value <= b)
  {
    LastOriginalIsLast(s, j);
    var waiting := Candidates(s.builds, j, LatestOriginal(s.builds, j));
    assert forall b: nat :: b in waiting <==> IsUpcoming(s.builds, j, b);
  }

  /** Pointers that are as recomputed are right. */
  lemma RecomputedAgrees(s: State, j: nat)
    requires Sound(s) && j in s.jobs && Recomputed(s, j)
    ensures Agrees(s, j)
  {
    LastOriginalIsLast(s, j);
    RecomputedNext(s, j);
    if LatestOriginal(s.builds, j) != 0 { RecomputedLatest(s, j); }
  }

  // ---- recomputing them ----

  ghost predicate Recomputed(s: State, j: nat)
    requires j in s.jobs
  {
    && s.jobs[j].next == NextBuild(s.builds, j)
    && s.jobs[j].latest == if LatestOriginal(s.builds, j) == 0 then None else Some(LatestCompleted(s.builds, j))
  }

  ghost predicate PointersRecomputed(s: State) {
    forall j :: j in s.jobs ==> Recomputed(s, j)
  }

  // ---- what the pointers depend on ----

  /** The tables hold the same builds of the job, active or not alike. */
  ghost predicate SameView(a: Builds, b: Builds, j: nat) {
    && (forall x :: (x in a && a[x].job == j) <==> (x in b && b[x].job == j))
    && (forall x :: x in a && a[x].job == j ==>
          x in b && Active(a[x].status) == Active(b[x].status) && a[x].rerunOf == b[x].rerunOf)
  }

  lemma SameCompleted(a: Builds, b: Builds, j: nat)
    requires CompletedOriginals(a, j) == CompletedOriginals(b, j)
    requires forall o :: CompletedReruns(a, j, o) == CompletedReruns(b, j, o)
    ensures LatestOriginal(a, j) == LatestOriginal(b, j) && LatestCompleted(a, j) == LatestCompleted(b, j)
  {
    assert CompletedReruns(a, j, LatestOriginal(a, j)) == CompletedReruns(b, j, LatestOriginal(a, j));
  }

  lemma SamePointers(a: Builds, b: Builds, j: nat)
    requires SameView(a, b, j)
    ensures LatestOriginal(a, j) == LatestOriginal(b, j) && LatestCompleted(a, j) == LatestCompleted(b, j)
    ensures NextBuild(a, j) == NextBuild(b, j)
  {
    assert CompletedOriginals(a, j) == CompletedOriginals(b, j);
    forall o ensures CompletedReruns(a, j, o) == CompletedReruns(b, j, o) {}
    SameCompleted(a, b, j);
    assert Candidates(a, j, LatestOriginal(a, j)) == Candidates(b, j, LatestOriginal(a, j));
  }

  /** A step that keeps a job's view of the builds and its pointers keeps them right. */
  lemma ViewKeepsPointers(s: State, t: State, j: nat)
    requires j in s.jobs && j in t.jobs && Recomputed(s, j) && SameView(s.builds, t.builds, j)
    requires s.jobs[j].next == t.jobs[j].next && s.jobs[j].latest == t.jobs[j].latest
    ensures Recomputed(t, j)
  {
    SamePointers(s.builds, t.builds, j);
  }

  lemma InsertKeepsCompleted(builds: Builds, id: nat, j: nat, rerunOf: Option<nat>)
    requires id !in builds
    ensures var after := builds[id := NewBuild(j, rerunOf)];
            LatestOriginal(after, j) == LatestOriginal(builds, j) && LatestCompleted(after, j) == LatestCompleted(builds, j)
  {
    var after := builds[id := NewBuild(j, rerunOf)];
    assert CompletedOriginals(after, j) == CompletedOriginals(builds, j);
    forall o ensures CompletedReruns(after, j, o) == CompletedReruns(builds, j, o) {}
    SameCompleted(after, builds, j);
  }

  lemma InsertKeepsPointers(s: State, j: nat, id: nat, rerunOf: Option<nat>)
    requires PointersRecomputed(s) && j in s.jobs && Fresh(s, id)
    ensures PointersRecomputed(Insert(s, j, id, rerunOf))
  {
    var t := Insert(s, j, id, rerunOf);
    forall i | i in t.jobs ensures Recomputed(t, i) {
      if i == j {
        InsertKeepsCompleted(s.builds, id, j, rerunOf);
      } else {
        ViewKeepsPointers(s, t, i);
      }
    }
  }

  // ---- finishing ----

  lemma NoOriginal(s: State, j: nat)
    requires Sound(s)
    ensures LatestOriginal(s.builds, j) == 0 <==> CompletedOriginals(s.builds, j) == {}
    ensures LatestCompleted(s.builds, j) in s.builds <==> LatestOriginal(s.builds, j) != 0
  {
    assert CompletedReruns(s.builds, j, 0) == {};
  }

  lemma FinishedSound(s: State, b: nat, status: Status)
    requires Sound(s) && b in s.builds && !Active(status)
    ensures Sound(State(Finished(s.builds, b, status), s.jobs))
  {
  }

  /** Finishing a build is rolled back exactly when it is a rerun and no build of the job
      that is not a rerun has completed. */
  lemma FinishRolledBack(s: State, b: nat, status: Status)
    requires Sound(s) && b in s.builds && !Active(status)
    ensures CanFinish(s.builds, b, status)
       <==> s.builds[b].rerunOf.None? || CompletedOriginals(s.builds, s.builds[b].job) != {}
  {
    var j := s.builds[b].job;
    var t := State(Finished(s.builds, b, status), s.jobs);
    FinishedSound(s, b, status);
    NoOriginal(t, j);
    if s.builds[b].rerunOf.None? {
      assert b in CompletedOriginals(t.builds, j);
    } else if CompletedOriginals(s.builds, j) != {} {
      var o :| o in CompletedOriginals(s.builds, j);
      assert o in CompletedOriginals(t.builds, j);
    } else {
      assert CompletedOriginals(t.builds, j) == {};
    }
  }

  /** A run that ends before such a finish: a build is created and rerun at once. */
  lemma RerunFirst(config: Job)
    requires config.next.None? && config.latest.None? && config.transition.None?
    ensures var s0 := State(map[], map[0 := config]);
            var s1 := Insert(s0, 0, 1, None);
            var s2 := Insert(s1, 0, 2, Some(1));
            && IsRun(Then(Then(Begin(s0), Create(0, 1), s1), Rerun(0, 1, 2), s2))
            && forall status :: !Active(status) ==> !CanFinish(s2.builds, 2, status) && FinishIn(s2, 2, status) == s2
  {
    var s0 := State(map[], map[0 := config]);
    var s1 := Insert(s0, 0, 1, None);
    var s2 := Insert(s1, 0, 2, Some(1));
    var r1 := Then(Begin(s0), Create(0, 1), s1);
    var r2 := Then(r1, Rerun(0, 1, 2), s2);
    assert IsRun(Begin(s0)) && Enabled(s0, Create(0, 1));
    assert IsRun(r1);
    assert s1.builds[1] == NewBuild(0, None) && Origin(s1.builds, 1) == 1;
    assert Enabled(s1, Rerun(0, 1, 2));
    assert IsRun(r2);
    RunKeepsSound(r2);
    forall status | !Active(status) ensures !CanFinish(s2.builds, 2, status) {
      FinishRolledBack(s2, 2, status);
    }
  }

  lemma FinishKeepsPointers(s: State, b: nat, status: Status)
    requires Sound(s) && PointersRecomputed(s) && b in s.builds && s.builds[b].job in s.jobs && !Active(status)
    ensures PointersRecomputed(FinishIn(s, b, status))
  {
    var t := FinishIn(s, b, status);
    if CanFinish(s.builds, b, status) {
      forall i | i in t.jobs ensures Recomputed(t, i) {
        if i == s.builds[b].job {
          FinishedSound(s, b, status);
          NoOriginal(State(t.builds, s.jobs), i);
        } else {
          ViewKeepsPointers(s, t, i);
        }
      }
    }
  }

  // ---- every step, every run ----

  /** Nothing the pointers depend on has changed, nor have they. */
  ghost predicate Unrelated(s: State, t: State) {
    && s.builds.Keys == t.builds.Keys && s.jobs.Keys == t.jobs.Keys
    && (forall b :: b in s.builds ==>
          && s.builds[b].job == t.builds[b].job && s.builds[b].rerunOf == t.builds[b].rerunOf
          && Active(s.builds[b].status) == Active(t.builds[b].status))
    && (forall j :: j in s.jobs ==> s.jobs[j].next == t.jobs[j].next && s.jobs[j].latest == t.jobs[j].latest)
  }

  lemma UnrelatedKeepsPointers(s: State, t: State)
    requires PointersRecomputed(s) && Unrelated(s, t)
    ensures PointersRecomputed(t)
  {
    forall j | j in t.jobs ensures Recomputed(t, j) { ViewKeepsPointers(s, t, j); }
  }

  lemma RowStepUnrelated(s: State, a: Action)
    requires Enabled(s, a) && (a.Schedule? || a.StartBuild? || a.Abort? || a.Configure?)
    ensures Unrelated(s, Apply(s, a))
  {
  }

  lemma StepKeepsPointers(s: State, a: Action)
    requires Sound(s) && PointersRecomputed(s) && Enabled(s, a)
    ensures PointersRecomputed(Apply(s, a))
  {
    match a
    case Create(j, id) => InsertKeepsPointers(s, j, id, None);
    case EnsurePending(j, id) => InsertKeepsPointers(s, j, id, None);
    case Rerun(j, b, id) => InsertKeepsPointers(s, j, id, Some(Origin(s.builds, b)));
    case Finish(b, status) => FinishKeepsPointers(s, b, status);
    case _ =>
      RowStepUnrelated(s, a);
      UnrelatedKeepsPointers(s, Apply(s, a));
  }

  lemma {:induction false} AlwaysRecomputed(r: Run)
    requires IsRun(r)
    ensures PointersRecomputed(r.now)
  {
    if r.Then? {
      AlwaysRecomputed(r.before);
      RunKeepsSound(r.before);
      StepKeepsPointers(r.before.now, r.a);
    } else {
      forall j | j in r.now.jobs ensures Recomputed(r.now, j) {
        assert CompletedOriginals(r.now.builds, j) == {};
        assert Candidates(r.now.builds, j, 0) == {};
      }
    }
  }

  /** In every reachable state the cached next and latest-completed pointers are right by the
      builds table. */
  lemma PointersAlwaysAgree(r: Run)
    requires IsRun(r)
    ensures forall j :: j in r.now.jobs ==> Agrees(r.now, j)
  {
    AlwaysRecomputed(r);
    RunKeepsSound(r);
    forall j | j in r.now.jobs ensures Agrees(r.now, j) { RecomputedAgrees(r.now, j); }
  }

  // ---- the transition build ----

  lemma LatestIsOne(builds: Builds, j: nat, x: nat, y: nat)
    requires IsLatest(builds, j, x) && IsLatest(builds, j, y)
    ensures x == y
  {
    var k: nat :| IsLastDone(builds, j, k) && (x == k || IsDoneRerun(builds, j, k, x))
             && forall b: nat :: IsDoneRerun(builds, j, k, b) ==> x != k && b <= x;
    var l: nat :| IsLastDone(builds, j, l) && (y == l || IsDoneRerun(builds, j, l, y))
             && forall b: nat :: IsDoneRerun(builds, j, l, b) ==> y != l && b <= y;
    assert k == l;
  }

  /** A finish that goes through makes the build the transition exactly if none that is no
      rerun had completed, or it is not below the latest completed build, ends otherwise
      than that did, and is no rerun or a rerun of just that build. */
  lemma TransitionExactly(s: State, b: nat, status: Status)
    requires b in s.builds && s.builds[b].job in s.jobs && !Active(status) && CanFinish(s.builds, b, status)
    requires Sound(s) && Agrees(s, s.builds[b].job)
    ensures var j, build := s.builds[b].job, s.builds[b];
            var t := FinishIn(s, b, status);
            var turns := (forall o: nat :: !IsDone(s.builds, j, o))
                         || exists x: nat :: IsLatest(s.builds, j, x) && x < b && s.builds[x].status != status
                                        && (build.rerunOf.None? || build.rerunOf == Some(x));
            t.jobs[j].transition == if turns then Some(b) else s.jobs[j].transition
  {
    var j := s.builds[b].job;
    var latest := s.jobs[j].latest;
    if latest.Some? {
      forall x: nat | IsLatest(s.builds, j, x) ensures x == latest.value { LatestIsOne(s.builds, j, x, latest.value); }
      assert latest.value in s.builds;
    }
  }

  datatype Outcome = Outcome(build: nat, status: Status)

  /** The builds of the job that finished, in the order they did. */
  ghost function Finishes(r: Run, j: nat): seq<Outcome>
    requires IsRun(r)
  {
    if r.Begin? then []
    else
      var s := r.before.now;
      Finishes(r.before, j)
      + (if r.a.Finish? && s.builds[r.a.build].job == j && CanFinish(s.builds, r.a.build, r.a.status)
         then [Outcome(r.a.build, r.a.status)] else [])
  }

  /** Those that finished after no build with a greater id had. */
  function Records(fs: seq<Outcome>): seq<Outcome> {
    if fs == [] then []
    else
      var earlier, last := fs[..|fs| - 1], fs[|fs| - 1];
      Records(earlier) + if forall f :: f in earlier ==> f.build < last.build then [last] else []
  }

  /** From `i` on all have the same status, and the one before `i` has another. */
  predicate StartsLastBlock(rs: seq<Outcome>, i: nat) {
    && i < |rs|
    && (forall k :: i <= k < |rs| ==> rs[k].status == rs[|rs| - 1].status)
    && (i > 0 ==> rs[i - 1].status != rs[|rs| - 1].status)
  }

  ghost predicate IsTransition(transition: Option<nat>, rs: seq<Outcome>) {
    if rs == [] then transition.None?
    else exists i: nat :: StartsLastBlock(rs, i) && transition == Some(rs[i].build)
  }

  /** The job has no reruns and each of its builds finishes at most once. */
  ghost predicate Plain(r: Run, j: nat)
    requires IsRun(r)
  {
    r.Then? ==>
      && Plain(r.before, j)
      && !(r.a.Rerun? && r.a.job == j)
      && (r.a.Finish? && r.before.now.builds[r.a.build].job == j ==> Active(r.before.now.builds[r.a.build].status))
  }

  /** In a plain run, the finishes are the completed builds with their statuses. */
  ghost predicate Tells(builds: Builds, j: nat, fs: seq<Outcome>) {
    && (forall b :: b in builds && builds[b].job == j ==> builds[b].rerunOf.None?)
    && (forall f :: f in fs ==> f.build in builds && builds[f.build].job == j && builds[f.build].status == f.status && !Active(f.status))
    && (forall b :: b in builds && builds[b].job == j && !Active(builds[b].status) ==> Outcome(b, builds[b].status) in fs)
  }

  lemma InsertTells(s: State, j: nat, i: nat, id: nat, fs: seq<Outcome>, rerunOf: Option<nat>)
    requires i in s.jobs && Fresh(s, id) && Tells(s.builds, j, fs) && (i == j ==> rerunOf.None?)
    ensures Tells(Insert(s, i, id, rerunOf).builds, j, fs)
  {
  }

  lemma FinishTells(builds: Builds, j: nat, b: nat, status: Status, fs: seq<Outcome>)
    requires Tells(builds, j, fs) && b in builds && !Active(status)
    requires builds[b].job == j ==> Active(builds[b].status)
    ensures Tells(Finished(builds, b, status), j, if builds[b].job == j then fs + [Outcome(b, status)] else fs)
  {
    var after := Finished(builds, b, status);
    if builds[b].job == j {
      var gs := fs + [Outcome(b, status)];
      assert forall f :: f in gs <==> f in fs || f == Outcome(b, status);
    }
  }

  lemma PlainCanFinish(s: State, j: nat, b: nat, status: Status, fs: seq<Outcome>)
    requires Sound(s) && Tells(s.builds, j, fs) && b in s.builds && s.builds[b].job == j && !Active(status)
    ensures CanFinish(s.builds, b, status)
  {
    FinishRolledBack(s, b, status);
  }

  lemma StepTells(s: State, j: nat, a: Action, fs: seq<Outcome>)
    requires Sound(s) && Enabled(s, a) && Tells(s.builds, j, fs) && !(a.Rerun? && a.job == j)
    requires a.Finish? && s.builds[a.build].job == j ==> Active(s.builds[a.build].status)
    ensures Tells(Apply(s, a).builds, j,
                  if a.Finish? && s.builds[a.build].job == j then fs + [Outcome(a.build, a.status)] else fs)
  {
    match a
    case Create(i, id) => InsertTells(s, j, i, id, fs, None);
    case EnsurePending(i, id) => InsertTells(s, j, i, id, fs, None);
    case Rerun(i, b, id) => InsertTells(s, j, i, id, fs, Some(Origin(s.builds, b)));
    case Finish(b, status) =>
      FinishTells(s.builds, j, b, status, fs);
      if s.builds[b].job == j { PlainCanFinish(s, j, b, status, fs); }
    case _ =>
  }

  lemma {:induction false} RunTells(r: Run, j: nat)
    requires IsRun(r) && Plain(r, j)
    ensures Tells(r.now.builds, j, Finishes(r, j))
  {
    if r.Then? {
      RunTells(r.before, j);
      RunKeepsSound(r.before);
      var s, fs := r.before.now, Finishes(r.before, j);
      StepTells(s, j, r.a, fs);
      if r.a.Finish? && s.builds[r.a.build].job == j { PlainCanFinish(s, j, r.a.build, r.a.status, fs); }
    }
  }

  // ---- the last record is the latest completed build ----

  lemma {:induction false} LastRecord(fs: seq<Outcome>)
    requires fs != []
    ensures var rs := Records(fs);
            rs != [] && rs[|rs| - 1] in fs && forall f :: f in fs ==> f.build <= rs[|rs| - 1].build
  {
    var n := |fs| - 1;
    var earlier, last := fs[..n], fs[n];
    assert fs == earlier + [last];
    if earlier != [] { LastRecord(earlier); }
  }

  lemma LatestIsLastRecord(s: State, j: nat, fs: seq<Outcome>)
    requires Sound(s) && j in s.jobs && Recomputed(s, j) && Tells(s.builds, j, fs)
    ensures fs == [] ==> s.jobs[j].latest.None?
    ensures fs != [] ==> Records(fs) != [] && var last := Records(fs)[|Records(fs)| - 1];
                         s.jobs[j].latest == Some(last.build) && last.build in s.builds && s.builds[last.build].status == last.status
  {
    NoOriginal(s, j);
    assert forall o :: CompletedReruns(s.builds, j, o) == {};
    if fs != [] {
      LastRecord(fs);
      var rs := Records(fs);
      var done := CompletedOriginals(s.builds, j);
      assert rs[|rs| - 1].build in done;
      assert IsGreatest(done, rs[|rs| - 1].build);
    }
  }

  // ---- transitions ----

  lemma FirstRecord(rs: seq<Outcome>, f: Outcome)
    requires rs == []
    ensures IsTransition(Some(f.build), rs + [f])
  {
    assert StartsLastBlock(rs + [f], 0);
  }

  lemma SameBlock(transition: Option<nat>, rs: seq<Outcome>, f: Outcome)
    requires rs != [] && IsTransition(transition, rs) && rs[|rs| - 1].status == f.status
    ensures IsTransition(transition, rs + [f])
  {
    var i: nat :| StartsLastBlock(rs, i) && transition == Some(rs[i].build);
    assert StartsLastBlock(rs + [f], i);
  }

  lemma NewBlock(rs: seq<Outcome>, f: Outcome)
    requires rs != [] && rs[|rs| - 1].status != f.status
    ensures IsTransition(Some(f.build), rs + [f])
  {
    assert StartsLastBlock(rs + [f], |rs|);
  }

  lemma RecordsSnoc(fs: seq<Outcome>, f: Outcome)
    ensures (forall e :: e in fs ==> e.build < f.build) ==> Records(fs + [f]) == Records(fs) + [f]
    ensures (exists e :: e in fs && e.build >= f.build) ==> Records(fs + [f]) == Records(fs)
  {
    assert (fs + [f])[..|fs|] == fs;
  }

  lemma HigherRecord(transition: Option<nat>, rs: seq<Outcome>, f: Outcome)
    requires rs != [] && IsTransition(transition, rs)
    ensures IsTransition(if f.status != rs[|rs| - 1].status then Some(f.build) else transition, rs + [f])
  {
    if f.status == rs[|rs| - 1].status { SameBlock(transition, rs, f); } else { NewBlock(rs, f); }
  }

  /** What updateTransitionBuildForJob does to the pointer, in terms of the records. */
  lemma RecordTransition(transition: Option<nat>, fs: seq<Outcome>, f: Outcome, last: Outcome)
    requires fs != [] && IsTransition(transition, Records(fs))
    requires Records(fs) != [] && last == Records(fs)[|Records(fs)| - 1]
    ensures IsTransition(if f.build > last.build && f.status != last.status then Some(f.build) else transition, Records(fs + [f]))
  {
    RecordsSnoc(fs, f);
    LastRecord(fs);
    if f.build > last.build {
      HigherRecord(transition, Records(fs), f);
    } else {
      assert last in fs && last.build >= f.build;
    }
  }

  lemma FirstWritten(s: State, b: nat, status: Status)
    requires b in s.builds && s.builds[b].job in s.jobs && CanFinish(s.builds, b, status)
    requires s.jobs[s.builds[b].job].latest.None?
    ensures FinishIn(s, b, status).jobs[s.builds[b].job].transition == Some(b)
  {
  }

  lemma LaterWritten(s: State, b: nat, status: Status, last: Outcome)
    requires b in s.builds && s.builds[b].job in s.jobs && CanFinish(s.builds, b, status)
    requires s.jobs[s.builds[b].job].latest == Some(last.build) && s.builds[b].rerunOf.None?
    requires last.build != b && last.build in s.builds && s.builds[last.build].status == last.status
    ensures var j := s.builds[b].job;
            FinishIn(s, b, status).jobs[j].transition
            == if b > last.build && status != last.status then Some(b) else s.jobs[j].transition
  {
  }

  lemma FinishTransition(s: State, j: nat, b: nat, status: Status, fs: seq<Outcome>)
    requires Sound(s) && j in s.jobs && Recomputed(s, j) && Tells(s.builds, j, fs)
    requires b in s.builds && s.builds[b].job == j && Active(s.builds[b].status) && !Active(status)
    requires IsTransition(s.jobs[j].transition, Records(fs))
    ensures IsTransition(FinishIn(s, b, status).jobs[j].transition, Records(fs + [Outcome(b, status)]))
  {
    PlainCanFinish(s, j, b, status, fs);
    LatestIsLastRecord(s, j, fs);
    var f := Outcome(b, status);
    if fs == [] {
      FirstWritten(s, b, status);
      RecordsSnoc(fs, f);
      FirstRecord(Records(fs), f);
    } else {
      LastRecord(fs);
      var last := Records(fs)[|Records(fs)| - 1];
      LaterWritten(s, b, status, last);
      RecordTransition(s.jobs[j].transition, fs, f, last);
    }
  }

  lemma OthersKeepTransition(s: State, j: nat, a: Action)
    requires Enabled(s, a) && j in s.jobs && !(a.Finish? && s.builds[a.build].job == j)
    ensures j in Apply(s, a).jobs && Apply(s, a).jobs[j].transition == s.jobs[j].transition
  {
  }

  /** In a run in which the job has no reruns and each of its builds finishes once, in any
      order, take the finishes with an id above all earlier ones: the transition build is
      the first of the block of equal statuses they end in. */
  lemma {:induction false} TransitionIsBlockStart(r: Run, j: nat)
    requires IsRun(r) && Plain(r, j) && j in r.now.jobs
    ensures IsTransition(r.now.jobs[j].transition, Records(Finishes(r, j)))
  {
    if r.Then? {
      var s, fs := r.before.now, Finishes(r.before, j);
      StepKeepsConfig(s, r.a);
      TransitionIsBlockStart(r.before, j);
      RunKeepsSound(r.before);
      RunTells(r.before, j);
      if r.a.Finish? && s.builds[r.a.build].job == j {
        AlwaysRecomputed(r.before);
        PlainCanFinish(s, j, r.a.build, r.a.status, fs);
        FinishTransition(s, j, r.a.build, r.a.status, fs);
        assert Finishes(r, j) == fs + [Outcome(r.a.build, r.a.status)];
      } else {
        OthersKeepTransition(s, j, r.a);
        assert Finishes(r, j) == fs;
      }
    }
  }
}
