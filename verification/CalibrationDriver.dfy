/** Driving calibration searches one leased step at a time, across replicas and
    crashes, for any decision procedure. */
module CalibrationDriver {
  import opened Common
  import opened Calibration

  /** The lease, in seconds. */
  const LEASE: Duration := LEASE_MINUTES * 60

  /** What a capacity profile is stored under: scenario, engine and pod size. */
  type Key = int

  /** A job as stored: identity, the search's decision state field by field, and the claim. */
  datatype Row = Row(
    key: Key, spec: Spec,
    phase: Phase, stepCount: int, lo: real, loAchieved: real, hi: real, next: real, result: Option<Result>,
    claimedAt: Option<Instant>)

  function Created(key: Key, spec: Spec): Row
  {
    Row(key, spec, Pending, 0, 0.0, 0.0, 0.0, 0.0, None, None)
  }

  /** The search to go on with: begun afresh when never stepped, otherwise read back from the row. */
  function StartOrResume(s: Search, row: Row): (Job, real)
  {
    if row.phase == Pending then (s.start(row.spec).0, s.start(row.spec).1.next)
    else (Job(row.spec, row.phase, row.stepCount, row.lo, row.loAchieved, row.hi, row.result), row.next)
  }

  /** Fold a search's new decision state back into its row. */
  function ApplyDomainJob(row: Row, job: Job, action: Action): Row
  {
    row.(phase := job.phase, stepCount := job.stepCount, lo := job.lo, loAchieved := job.loAchieved, hi := job.hi,
         result := job.result, next := action.next)
  }

  /** Persisting then resuming loses no decision state, exactly when the search
      did not go back to pending, which is the one phase a resume starts over. */
  lemma ResumeUndoesApply(s: Search, row: Row, job: Job, action: Action)
    requires job.spec == row.spec
    ensures StartOrResume(s, ApplyDomainJob(row, job, action)) == (job, action.next)
       <==> job.phase != Pending || s.start(row.spec) == (job, action.(done := s.start(row.spec).1.done))
  {
  }

  datatype Profile = Profile(perPod: real, saturatedBy: SaturatedBy, jobId: int)

  /** A replica at work: running the step it claimed, or finishing a search it saw end. */
  datatype Worker =
    | Running(job: int, claimed: Instant, seen: Row)
    | Finishing(job: int, done: Job)

  datatype World = World(
    now: Instant,
    jobs: map<int, Row>,
    steps: map<int, seq<Step>>,
    profiles: map<Key, Profile>,
    workers: map<nat, Worker>)

  predicate Active(phase: Phase)
  {
    phase == Pending || phase == Bracketing || phase == Bisecting
  }

  predicate Claimable(row: Row, now: Instant)
  {
    Active(row.phase) && (row.claimedAt.None? || row.claimedAt.value < now - LEASE)
  }

  /** A measured outcome: achieved rate and classification. */
  datatype Measured = Measured(achieved: real, reading: Classification)

  /** An engine-short attempt is measured once more at the same rate, and only
      the second measurement counts: no step is recorded engine-short on one
      measurement alone, and no other reading is ever measured again. */
  function Settled(requested: real, first: Measured, retry: Measured): (step: Step)
    ensures step.requested == requested
    ensures step.reading == EngineSaturated <==> first.reading == EngineSaturated && retry.reading == EngineSaturated
    ensures var used := if first.reading == EngineSaturated then retry else first;
            Measured(step.achieved, step.reading) == used
  {
    if first.reading == EngineSaturated then Step(requested, retry.achieved, retry.reading)
    else Step(requested, first.achieved, first.reading)
  }

  datatype Move =
    | Create(id: int, key: Key, spec: Spec)
    | Tick(elapsed: nat)
    | Claim(w: nat, id: int)
    | Record(w: nat, first: Measured, retry: Measured)
    | StepFails(w: nat)
    | Finish(w: nat, stored: bool)
    | Crash(w: nat)

  /** What can happen, whether or not a step has outlived its lease. */
  ghost predicate Possible(x: World, m: Move)
  {
    match m
    case Create(id, key, spec) => id !in x.jobs
    case Tick(elapsed) => true
    case Claim(w, id) =>
      && w !in x.workers && id in x.jobs && Claimable(x.jobs[id], x.now)
      && forall j :: j in x.jobs && j < id ==> !Claimable(x.jobs[j], x.now)
    case Record(w, _, _) => w in x.workers && x.workers[w].Running? && x.workers[w].job in x.jobs
    case StepFails(w) => w in x.workers && x.workers[w].Running? && x.workers[w].job in x.jobs
    case Finish(w, _) => w in x.workers && x.workers[w].Finishing? && x.workers[w].job in x.jobs
    case Crash(w) => w in x.workers
  }

  /** What can happen while no step outlives its lease. */
  ghost predicate Enabled(x: World, m: Move)
  {
    Possible(x, m) && (m.Record? || m.StepFails? ==> HoldsLease(x, m.w))
  }

  /** A running worker whose step has not outlived its lease. */
  ghost predicate HoldsLease(x: World, w: nat)
  {
    && w in x.workers && x.workers[w].Running?
    && x.now <= x.workers[w].claimed + LEASE
    && x.workers[w].job in x.jobs
  }

  function StepsOf(x: World, id: int): seq<Step>
  {
    if id in x.steps then x.steps[id] else []
  }

  /** The step's outcome goes through the search; history and row change together, and the claim is cleared. */
  function Recorded(s: Search, x: World, w: nat, first: Measured, retry: Measured): World
    requires w in x.workers && x.workers[w].Running?
  {
    var k := x.workers[w];
    var resumed := StartOrResume(s, k.seen);
    var step := Settled(resumed.1, first, retry);
    var next := s.next(resumed.0, step);
    x.(steps := x.steps[k.job := StepsOf(x, k.job) + [step]],
       jobs := x.jobs[k.job := ApplyDomainJob(k.seen, next.0, next.1).(claimedAt := None)],
       workers := if next.0.phase == Done then x.workers[w := Finishing(k.job, next.0)] else x.workers - {w})
  }

  predicate HasClean(steps: seq<Step>)
  {
    exists i :: 0 <= i < |steps| && steps[i].reading == Clean
  }

  /** A verdict against the engine with no clean step behind it measured the environment, not the pod. */
  predicate Impaired(done: Job, steps: seq<Step>)
  {
    done.result.Some? && done.result.value.saturatedBy == ByEngine && !HasClean(steps)
  }

  /** The end of a finished search: an impaired verdict fails the job, any other
      becomes the profile. If a call on the way fails, nothing is stored at all. */
  function Finished(x: World, w: nat, stored: bool): World
    requires w in x.workers && x.workers[w].Finishing? && x.workers[w].job in x.jobs
  {
    var k := x.workers[w];
    var left := x.(workers := x.workers - {w});
    if !stored then left
    else if Impaired(k.done, StepsOf(x, k.job)) then left.(jobs := x.jobs[k.job := x.jobs[k.job].(phase := Failed, claimedAt := None)])
    else if k.done.result.None? then left
    else
      var r := k.done.result.value;
      left.(profiles := x.profiles[x.jobs[k.job].key := Profile(r.perPod, r.saturatedBy, k.job)])
  }

  ghost function After(s: Search, x: World, m: Move): World
    requires Possible(x, m)
  {
    match m
    case Create(id, key, spec) => x.(jobs := x.jobs[id := Created(key, spec)], steps := x.steps[id := []])
    case Tick(elapsed) => x.(now := x.now + elapsed)
    case Claim(w, id) =>
      x.(jobs := x.jobs[id := x.jobs[id].(claimedAt := Some(x.now))],
         workers := x.workers[w := Running(id, x.now, x.jobs[id].(claimedAt := Some(x.now)))])
    case Record(w, first, retry) => Recorded(s, x, w, first, retry)
    case StepFails(w) =>
      var id := x.workers[w].job;
      x.(jobs := x.jobs[id := x.jobs[id].(phase := Failed, claimedAt := None)], workers := x.workers - {w})
    case Finish(w, stored) => Finished(x, w, stored)
    case Crash(w) => x.(workers := x.workers - {w})
  }

  // ------------------------------------------------------------------
  // Invariants.

  /** The search state a row holds, its phase apart. */
  function JobOf(row: Row, phase: Phase): Job
  {
    Job(row.spec, phase, row.stepCount, row.lo, row.loAchieved, row.hi, row.result)
  }

  /** The row is what one uninterrupted search over the recorded steps would
      hold; a failed job's phase says so, and the rest of it still is. */
  ghost predicate RowOk(s: Search, row: Row, steps: seq<Step>)
  {
    && Followed(s, row.spec, steps)
    && if steps == [] then
         && row == Created(row.key, row.spec).(phase := row.phase, claimedAt := row.claimedAt)
         && (row.phase == Pending || row.phase == Failed)
       else
         var r := Replay(s, row.spec, steps);
         && r.0 == JobOf(row, r.0.phase) && r.1.next == row.next
         && r.0.phase != Pending && r.0.phase != Failed
         && (row.phase == r.0.phase || row.phase == Failed)
  }

  /** A worker still inside its lease holds the claim and saw the row as it is. */
  ghost predicate WorkerOk(x: World, k: Worker)
  {
    && k.job in x.jobs
    && match k
       case Running(id, claimed, seen) =>
         && claimed <= x.now
         && Active(seen.phase)
         && (x.now <= claimed + LEASE ==> x.jobs[id] == seen && seen.claimedAt == Some(claimed))
       case Finishing(id, done) => true
  }

  ghost predicate LeasesDistinct(x: World)
  {
    forall a, b :: a in x.workers && b in x.workers && a != b && HoldsLease(x, a) && HoldsLease(x, b) ==>
      x.workers[a].job != x.workers[b].job
  }

  /** A profile that blames the engine has a clean step behind it. */
  ghost predicate ProfilesOk(x: World)
  {
    forall key :: key in x.profiles && x.profiles[key].saturatedBy == ByEngine ==>
      x.profiles[key].jobId in x.steps && HasClean(x.steps[x.profiles[key].jobId])
  }

  /** The decision procedure keeps to its own specification and never goes back to pending or to failed. */
  ghost predicate Proper(s: Search)
  {
    && (forall spec: Spec :: Active(s.start(spec).0.phase) && s.start(spec).0.phase != Pending && s.start(spec).0.spec == spec)
    && (forall job: Job, step: Step :: job.phase == Bracketing || job.phase == Bisecting ==>
          && s.next(job, step).0.phase != Pending && s.next(job, step).0.phase != Failed
          && s.next(job, step).0.spec == job.spec)
  }

  ghost predicate Inv(s: Search, x: World)
  {
    && x.steps.Keys == x.jobs.Keys
    && (forall id :: id in x.jobs ==> RowOk(s, x.jobs[id], x.steps[id]))
    && (forall w :: w in x.workers ==> WorkerOk(x, x.workers[w]))
    && LeasesDistinct(x)
    && ProfilesOk(x)
  }

  lemma ClaimIgnored(s: Search, row: Row, steps: seq<Step>, at: Option<Instant>)
    requires RowOk(s, row, steps)
    ensures RowOk(s, row.(claimedAt := at), steps)
  {
  }

  lemma FailIgnored(s: Search, row: Row, steps: seq<Step>)
    requires RowOk(s, row, steps)
    ensures RowOk(s, row.(phase := Failed, claimedAt := None), steps)
  {
  }

  /** What a worker resumes is where the uninterrupted search stands. */
  lemma ResumesReplay(s: Search, row: Row, steps: seq<Step>)
    requires Proper(s) && RowOk(s, row, steps) && Active(row.phase)
    ensures StartOrResume(s, row) == (Replay(s, row.spec, steps).0, Replay(s, row.spec, steps).1.next)
    ensures Replay(s, row.spec, steps).0.phase != Done
  {
  }

  lemma RecordRow(s: Search, row: Row, steps: seq<Step>, first: Measured, retry: Measured)
    requires Proper(s) && RowOk(s, row, steps) && Active(row.phase)
    ensures var resumed := StartOrResume(s, row);
            var step := Settled(resumed.1, first, retry);
            var next := s.next(resumed.0, step);
            RowOk(s, ApplyDomainJob(row, next.0, next.1).(claimedAt := None), steps + [step])
  {
    ResumesReplay(s, row, steps);
    var resumed := StartOrResume(s, row);
    var step := Settled(resumed.1, first, retry);
    ReplaySnoc(s, row.spec, steps, step);
    FollowedSnoc(s, row.spec, steps, step);
  }

  lemma RecordKeeps(s: Search, x: World, w: nat, first: Measured, retry: Measured)
    requires Proper(s) && Inv(s, x) && HoldsLease(x, w)
    ensures Inv(s, Recorded(s, x, w, first, retry))
  {
    var x' := Recorded(s, x, w, first, retry);
    var k := x.workers[w];
    assert WorkerOk(x, k);
    RecordRow(s, x.jobs[k.job], x.steps[k.job], first, retry);
    RecordWorkers(s, x, w, first, retry);
    StepsGrow(x, x');
  }

  lemma RecordWorkers(s: Search, x: World, w: nat, first: Measured, retry: Measured)
    requires LeasesDistinct(x) && (forall v :: v in x.workers ==> WorkerOk(x, x.workers[v])) && HoldsLease(x, w)
    ensures var x' := Recorded(s, x, w, first, retry);
            LeasesDistinct(x') && forall v :: v in x'.workers ==> WorkerOk(x', x'.workers[v])
  {
    var x' := Recorded(s, x, w, first, retry);
    var others := x'.(workers := x'.workers - {w});
    assert forall v :: v in others.workers && HoldsLease(x, v) ==> x.workers[v].job != x.workers[w].job;
    WorkersLeft(x, others);
    forall v | v in x'.workers ensures WorkerOk(x', x'.workers[v]) {
      if v != w {
        assert WorkerOk(others, others.workers[v]);
      }
    }
    forall a, b | a in x'.workers && b in x'.workers && a != b && HoldsLease(x', a) && HoldsLease(x', b)
      ensures x'.workers[a].job != x'.workers[b].job
    {
      assert HoldsLease(others, a) && HoldsLease(others, b);
    }
  }

  lemma StepsGrow(x: World, x': World)
    requires ProfilesOk(x) && x'.profiles == x.profiles
    requires forall id :: id in x.steps ==> id in x'.steps && x.steps[id] <= x'.steps[id]
    ensures ProfilesOk(x')
  {
    forall key | key in x'.profiles && x'.profiles[key].saturatedBy == ByEngine
      ensures x'.profiles[key].jobId in x'.steps && HasClean(x'.steps[x'.profiles[key].jobId])
    {
      var id := x.profiles[key].jobId;
      var i :| 0 <= i < |x.steps[id]| && x.steps[id][i].reading == Clean;
      assert x'.steps[id][i] == x.steps[id][i];
    }
  }

  lemma ClaimKeeps(s: Search, x: World, w: nat, id: int)
    requires Inv(s, x) && Enabled(x, Claim(w, id))
    ensures Inv(s, After(s, x, Claim(w, id)))
  {
    var x' := After(s, x, Claim(w, id));
    ClaimIgnored(s, x.jobs[id], x.steps[id], Some(x.now));
    forall v | v in x'.workers ensures WorkerOk(x', x'.workers[v]) {
      if v != w {
        assert WorkerOk(x, x.workers[v]);
      }
    }
    forall a, b | a in x'.workers && b in x'.workers && a != b && HoldsLease(x', a) && HoldsLease(x', b)
      ensures x'.workers[a].job != x'.workers[b].job
    {
      if a != w && b != w {
        assert HoldsLease(x, a) && HoldsLease(x, b);
      } else {
        var v := if a == w then b else a;
        assert WorkerOk(x, x.workers[v]) && HoldsLease(x, v);
      }
    }
  }

  lemma FailKeeps(s: Search, x: World, w: nat)
    requires Inv(s, x) && HoldsLease(x, w)
    ensures Inv(s, After(s, x, StepFails(w)))
  {
    var x' := After(s, x, StepFails(w));
    var id := x.workers[w].job;
    FailIgnored(s, x.jobs[id], x.steps[id]);
    assert forall v :: v in x'.workers && HoldsLease(x, v) ==> x.workers[v].job != id;
    WorkersLeft(x, x');
  }

  ghost predicate Named(x: World, id: int)
  {
    exists key :: key in x.profiles && x.profiles[key].jobId == id
  }

  ghost predicate IsDone(x: World, id: int)
  {
    id in x.jobs && x.jobs[id].phase == Done
  }

  /** Stored profiles name finished searches; a search still being finished is
      done, has one finisher, and no profile yet. */
  ghost predicate FinishersAlone(x: World)
  {
    && (forall key :: key in x.profiles ==> IsDone(x, x.profiles[key].jobId))
    && (forall w :: w in x.workers && x.workers[w].Finishing? ==> IsDone(x, x.workers[w].job) && !Named(x, x.workers[w].job))
    && (forall a, b :: a in x.workers && b in x.workers && a != b && x.workers[a].Finishing? && x.workers[b].Finishing? ==>
          x.workers[a].job != x.workers[b].job)
  }

  /** The workers of `x'` are some of `x`'s, still sound. */
  lemma WorkersLeft(x: World, x': World)
    requires LeasesDistinct(x) && (forall v :: v in x.workers ==> WorkerOk(x, x.workers[v]))
    requires x'.now == x.now && x'.jobs.Keys == x.jobs.Keys
    requires forall v :: v in x'.workers ==> v in x.workers && x'.workers[v] == x.workers[v]
    requires forall v :: v in x'.workers && HoldsLease(x, v) ==> x'.jobs[x.workers[v].job] == x.jobs[x.workers[v].job]
    ensures LeasesDistinct(x') && forall v :: v in x'.workers ==> WorkerOk(x', x'.workers[v])
  {
    forall v | v in x'.workers ensures WorkerOk(x', x'.workers[v]) {
      assert WorkerOk(x, x.workers[v]);
    }
    forall a, b | a in x'.workers && b in x'.workers && a != b && HoldsLease(x', a) && HoldsLease(x', b)
      ensures x'.workers[a].job != x'.workers[b].job
    {
      assert HoldsLease(x, a) && HoldsLease(x, b);
    }
  }

  lemma FinishKeeps(s: Search, x: World, w: nat, stored: bool)
    requires Inv(s, x) && FinishersAlone(x) && Enabled(x, Finish(w, stored))
    ensures Inv(s, After(s, x, Finish(w, stored)))
  {
    FailIgnored(s, x.jobs[x.workers[w].job], x.steps[x.workers[w].job]);
    FinishWorkers(x, w, stored);
    FinishProfiles(x, w, stored);
    FinishRows(s, x, w, stored);
  }

  lemma FinishRows(s: Search, x: World, w: nat, stored: bool)
    requires x.steps.Keys == x.jobs.Keys && (forall id :: id in x.jobs ==> RowOk(s, x.jobs[id], x.steps[id]))
    requires Possible(x, Finish(w, stored))
    ensures var x' := Finished(x, w, stored);
            x'.steps == x.steps && x'.jobs.Keys == x.jobs.Keys && forall id :: id in x'.jobs ==> RowOk(s, x'.jobs[id], x'.steps[id])
  {
    var x' := Finished(x, w, stored);
    forall id | id in x'.jobs ensures RowOk(s, x'.jobs[id], x'.steps[id]) {
      assert RowOk(s, x.jobs[id], x.steps[id]);
      FailIgnored(s, x.jobs[id], x.steps[id]);
    }
  }

  lemma FinishWorkers(x: World, w: nat, stored: bool)
    requires LeasesDistinct(x) && (forall v :: v in x.workers ==> WorkerOk(x, x.workers[v])) && FinishersAlone(x)
    requires Possible(x, Finish(w, stored))
    ensures var x' := Finished(x, w, stored);
            LeasesDistinct(x') && forall v :: v in x'.workers ==> WorkerOk(x', x'.workers[v])
  {
    var x' := Finished(x, w, stored);
    assert IsDone(x, x.workers[w].job);
    forall v | v in x'.workers && HoldsLease(x, v) ensures x'.jobs[x.workers[v].job] == x.jobs[x.workers[v].job] {
      assert WorkerOk(x, x.workers[v]);
    }
    WorkersLeft(x, x');
  }

  lemma FinishProfiles(x: World, w: nat, stored: bool)
    requires ProfilesOk(x) && x.steps.Keys == x.jobs.Keys && Possible(x, Finish(w, stored))
    ensures ProfilesOk(Finished(x, w, stored))
  {
  }

  lemma FinishersKept(s: Search, x: World, m: Move)
    requires Proper(s) && Inv(s, x) && FinishersAlone(x) && Enabled(x, m)
    ensures FinishersAlone(After(s, x, m))
  {
    match m {
      case Record(w, first, retry) => RecordFinishers(s, x, w, first, retry);
      case StepFails(w) => FailFinishers(s, x, w);
      case Finish(w, stored) => FinishFinishers(x, w, stored);
      case Create(id, key, spec) => FinishersLeft(x, After(s, x, m), id);
      case Claim(w, id) => FinishersLeft(x, After(s, x, m), id);
      case Tick(elapsed) => FinishersSame(x, After(s, x, m));
      case Crash(w) => FinishersSame(x, After(s, x, m));
    }
  }

  lemma FailFinishers(s: Search, x: World, w: nat)
    requires FinishersAlone(x) && HoldsLease(x, w) && WorkerOk(x, x.workers[w])
    ensures FinishersAlone(After(s, x, StepFails(w)))
  {
    FinishersLeft(x, After(s, x, StepFails(w)), x.workers[w].job);
  }

  lemma FinishersSame(x: World, x': World)
    requires FinishersAlone(x) && x'.profiles == x.profiles && x'.jobs == x.jobs
    requires forall v :: v in x'.workers && x'.workers[v].Finishing? ==> v in x.workers && x'.workers[v] == x.workers[v]
    ensures FinishersAlone(x')
  {
    forall w | w in x'.workers && x'.workers[w].Finishing?
      ensures IsDone(x', x'.workers[w].job) && !Named(x', x'.workers[w].job)
    {
      assert IsDone(x, x.workers[w].job) && !Named(x, x.workers[w].job);
    }
    forall key | key in x'.profiles ensures IsDone(x', x'.profiles[key].jobId) {
      assert IsDone(x, x.profiles[key].jobId);
    }
  }

  /** A move that leaves the profiles, makes no finisher, and changes the row of no finished job. */
  lemma FinishersLeft(x: World, x': World, id: int)
    requires FinishersAlone(x) && x'.profiles == x.profiles && !IsDone(x, id)
    requires forall j :: j in x.jobs && j != id ==> j in x'.jobs && x'.jobs[j] == x.jobs[j]
    requires forall v :: v in x'.workers && x'.workers[v].Finishing? ==> v in x.workers && x'.workers[v] == x.workers[v]
    ensures FinishersAlone(x')
  {
    forall w | w in x'.workers && x'.workers[w].Finishing?
      ensures IsDone(x', x'.workers[w].job) && !Named(x', x'.workers[w].job)
    {
      assert IsDone(x, x.workers[w].job) && !Named(x, x.workers[w].job);
    }
    forall key | key in x'.profiles ensures IsDone(x', x'.profiles[key].jobId) {
      assert IsDone(x, x.profiles[key].jobId);
    }
  }

  lemma RecordFinishers(s: Search, x: World, w: nat, first: Measured, retry: Measured)
    requires FinishersAlone(x) && HoldsLease(x, w) && WorkerOk(x, x.workers[w])
    ensures FinishersAlone(Recorded(s, x, w, first, retry))
  {
    var x' := Recorded(s, x, w, first, retry);
    var id := x.workers[w].job;
    var others := x'.(workers := x'.workers - {w});
    FinishersLeft(x, others, id);
    assert !Named(x', id) by {
      forall key | key in x.profiles ensures x.profiles[key].jobId != id {
        assert IsDone(x, x.profiles[key].jobId);
      }
    }
    forall v | v in x'.workers && v != w && x'.workers[v].Finishing?
      ensures IsDone(x', x'.workers[v].job) && !Named(x', x'.workers[v].job) && x'.workers[v].job != id
    {
      assert IsDone(x, x.workers[v].job);
      assert IsDone(others, others.workers[v].job) && !Named(others, others.workers[v].job);
      assert x'.profiles == others.profiles;
    }
  }

  lemma FinishFinishers(x: World, w: nat, stored: bool)
    requires FinishersAlone(x) && Possible(x, Finish(w, stored))
    ensures FinishersAlone(Finished(x, w, stored))
  {
    var x' := Finished(x, w, stored);
    var id := x.workers[w].job;
    forall v | v in x'.workers && x'.workers[v].Finishing?
      ensures IsDone(x', x'.workers[v].job) && !Named(x', x'.workers[v].job)
    {
      assert x.workers[v].job != id;
      assert IsDone(x, x.workers[v].job) && !Named(x, x.workers[v].job);
    }
    forall key | key in x'.profiles ensures IsDone(x', x'.profiles[key].jobId) {
      if key in x.profiles && x'.profiles[key] == x.profiles[key] {
        assert IsDone(x, x.profiles[key].jobId) && !Named(x, id);
      }
    }
  }

  lemma MoveKeeps(s: Search, x: World, m: Move)
    requires Proper(s) && Inv(s, x) && FinishersAlone(x) && Enabled(x, m)
    ensures Inv(s, After(s, x, m)) && FinishersAlone(After(s, x, m))
  {
    FinishersKept(s, x, m);
    match m {
      case Create(id, key, spec) => CreateKeeps(s, x, id, key, spec);
      case Tick(elapsed) => TickKeeps(s, x, elapsed);
      case Claim(w, id) => ClaimKeeps(s, x, w, id);
      case Record(w, first, retry) => RecordKeeps(s, x, w, first, retry);
      case StepFails(w) => FailKeeps(s, x, w);
      case Finish(w, stored) => FinishKeeps(s, x, w, stored);
      case Crash(w) => CrashKeeps(s, x, w);
    }
  }

  lemma CreateKeeps(s: Search, x: World, id: int, key: Key, spec: Spec)
    requires Inv(s, x) && id !in x.jobs
    ensures Inv(s, After(s, x, Create(id, key, spec)))
  {
    var x' := After(s, x, Create(id, key, spec));
    forall v | v in x'.workers ensures WorkerOk(x', x'.workers[v]) {
      assert WorkerOk(x, x.workers[v]);
    }
    forall a, b | a in x'.workers && b in x'.workers && a != b && HoldsLease(x', a) && HoldsLease(x', b)
      ensures x'.workers[a].job != x'.workers[b].job
    {
      assert WorkerOk(x, x.workers[a]) && WorkerOk(x, x.workers[b]);
      assert HoldsLease(x, a) && HoldsLease(x, b);
    }
    StepsGrow(x, x');
  }

  lemma TickKeeps(s: Search, x: World, elapsed: nat)
    requires Inv(s, x)
    ensures Inv(s, After(s, x, Tick(elapsed)))
  {
    var x' := After(s, x, Tick(elapsed));
    forall v | v in x'.workers ensures WorkerOk(x', x'.workers[v]) {
      assert WorkerOk(x, x.workers[v]);
    }
    forall a, b | a in x'.workers && b in x'.workers && a != b && HoldsLease(x', a) && HoldsLease(x', b)
      ensures x'.workers[a].job != x'.workers[b].job
    {
      assert HoldsLease(x, a) && HoldsLease(x, b);
    }
  }

  lemma CrashKeeps(s: Search, x: World, w: nat)
    requires Inv(s, x) && w in x.workers
    ensures Inv(s, After(s, x, Crash(w)))
  {
    WorkersLeft(x, After(s, x, Crash(w)));
  }

  // ------------------------------------------------------------------
  // Over every schedule.

  /** A schedule; with `leases`, one in which no step outlives its lease. */
  ghost predicate Runs(s: Search, leases: bool, x: World, moves: seq<Move>, x': World)
    decreases |moves|
  {
    if moves == [] then x' == x
    else
      && Possible(x, moves[0]) && (leases ==> Enabled(x, moves[0]))
      && Runs(s, leases, After(s, x, moves[0]), moves[1..], x')
  }

  ghost predicate Fresh(x: World)
  {
    x.jobs == map[] && x.steps == map[] && x.profiles == map[] && x.workers == map[]
  }

  lemma {:induction false} RunsKeep(s: Search, x: World, moves: seq<Move>, x': World)
    requires Proper(s) && Inv(s, x) && FinishersAlone(x) && Runs(s, true, x, moves, x')
    ensures Inv(s, x') && FinishersAlone(x')
    decreases |moves|
  {
    if moves != [] {
      MoveKeeps(s, x, moves[0]);
      RunsKeep(s, After(s, x, moves[0]), moves[1..], x');
    }
  }

  /** For every decision procedure and every schedule of ticks, replicas,
      crashes and failures in which no step outlives its lease: what is recorded
      of a job is one uninterrupted search, each step at the rate the search
      asked for; an active job resumes exactly where that search stands, a done
      job holds exactly its state, and a failed one all of it but the phase. */
  lemma AsIfUninterrupted(s: Search, x: World, moves: seq<Move>, x': World, id: int)
    requires Proper(s) && Fresh(x) && Runs(s, true, x, moves, x') && id in x'.jobs
    ensures id in x'.steps && Followed(s, x'.jobs[id].spec, x'.steps[id])
    ensures Active(x'.jobs[id].phase) ==>
              StartOrResume(s, x'.jobs[id])
              == (Replay(s, x'.jobs[id].spec, x'.steps[id]).0, Replay(s, x'.jobs[id].spec, x'.steps[id]).1.next)
    ensures x'.jobs[id].phase == Done ==>
              x'.steps[id] != [] && Replay(s, x'.jobs[id].spec, x'.steps[id]).0 == JobOf(x'.jobs[id], Done)
    ensures x'.jobs[id].phase == Failed && x'.steps[id] != [] ==>
              var r := Replay(s, x'.jobs[id].spec, x'.steps[id]);
              r.0 == JobOf(x'.jobs[id], r.0.phase) && r.1.next == x'.jobs[id].next
  {
    RunsKeep(s, x, moves, x');
    assert RowOk(s, x'.jobs[id], x'.steps[id]);
    if Active(x'.jobs[id].phase) {
      ResumesReplay(s, x'.jobs[id], x'.steps[id]);
    }
  }

  /** The part of the invariant that needs neither leases nor anything of the search. */
  ghost predicate Earned(x: World)
  {
    x.steps.Keys == x.jobs.Keys && ProfilesOk(x)
  }

  lemma MoveEarns(s: Search, x: World, m: Move)
    requires Earned(x) && Possible(x, m)
    ensures Earned(After(s, x, m))
  {
    var x' := After(s, x, m);
    if m.Finish? {
      FinishProfiles(x, m.w, m.stored);
    } else {
      StepsGrow(x, x');
    }
  }

  lemma {:induction false} RunsEarn(s: Search, leases: bool, x: World, moves: seq<Move>, x': World)
    requires Earned(x) && Runs(s, leases, x, moves, x')
    ensures Earned(x')
    decreases |moves|
  {
    if moves != [] {
      MoveEarns(s, x, moves[0]);
      RunsEarn(s, leases, After(s, x, moves[0]), moves[1..], x');
    }
  }

  /** Over every schedule, steps that outlive their lease included, and for any
      search at all: a stored profile that blames the engine belongs to a job
      with a clean step on record. */
  lemma EngineBlameIsEarned(s: Search, leases: bool, x: World, moves: seq<Move>, x': World, key: Key)
    requires Fresh(x) && Runs(s, leases, x, moves, x')
    requires key in x'.profiles && x'.profiles[key].saturatedBy == ByEngine
    ensures x'.profiles[key].jobId in x'.steps && HasClean(x'.steps[x'.profiles[key].jobId])
  {
    RunsEarn(s, leases, x, moves, x');
  }

  /** A job is what it was created as: its key and its search parameters never change. */
  lemma {:induction false} CreatedAs(s: Search, leases: bool, x: World, moves: seq<Move>, x': World, id: int)
    requires Fresh(x) && Runs(s, leases, x, moves, x') && id in x'.jobs
    ensures Create(id, x'.jobs[id].key, x'.jobs[id].spec) in moves
  {
    CreatedIn(s, leases, x, moves, x', id);
  }

  /** Rows that workers act on are the stored ones as far as key and parameters go. */
  ghost predicate SeenSame(x: World)
  {
    forall w :: w in x.workers && x.workers[w].Running? && x.workers[w].job in x.jobs ==>
      var id := x.workers[w].job;
      x.workers[w].seen.key == x.jobs[id].key && x.workers[w].seen.spec == x.jobs[id].spec
  }

  lemma MoveIdentity(s: Search, x: World, m: Move, id: int)
    requires SeenSame(x) && Possible(x, m) && (forall w :: w in x.workers ==> x.workers[w].job in x.jobs)
    ensures SeenSame(After(s, x, m)) && forall w :: w in After(s, x, m).workers ==> After(s, x, m).workers[w].job in After(s, x, m).jobs
    ensures id in x.jobs ==> id in After(s, x, m).jobs && After(s, x, m).jobs[id].key == x.jobs[id].key && After(s, x, m).jobs[id].spec == x.jobs[id].spec
    ensures id !in x.jobs && id in After(s, x, m).jobs ==> m == Create(id, After(s, x, m).jobs[id].key, After(s, x, m).jobs[id].spec)
  {
  }

  lemma {:induction false} CreatedIn(s: Search, leases: bool, x: World, moves: seq<Move>, x': World, id: int)
    requires SeenSame(x) && (forall w :: w in x.workers ==> x.workers[w].job in x.jobs) && Runs(s, leases, x, moves, x') && id in x'.jobs
    ensures id in x.jobs ==> x'.jobs[id].key == x.jobs[id].key && x'.jobs[id].spec == x.jobs[id].spec
    ensures id !in x.jobs ==> Create(id, x'.jobs[id].key, x'.jobs[id].spec) in moves
    decreases |moves|
  {
    if moves != [] {
      MoveIdentity(s, x, moves[0], id);
      CreatedIn(s, leases, After(s, x, moves[0]), moves[1..], x', id);
    }
  }

  // ------------------------------------------------------------------
  // What a stored profile says.

  /** The profile says what the search it names ended with. */
  ghost predicate SaysResult(p: Profile, row: Row)
  {
    row.phase == Done && row.result == Some(Result(p.saturatedBy, p.perPod))
  }

  /** Stored profiles and those about to be stored are the verdicts of their jobs, under their jobs' keys. */
  ghost predicate TrueProfiles(x: World)
  {
    && (forall key :: key in x.profiles ==>
          var j := x.profiles[key].jobId; j in x.jobs && x.jobs[j].key == key && SaysResult(x.profiles[key], x.jobs[j]))
    && (forall w :: w in x.workers && x.workers[w].Finishing? ==>
          x.workers[w].job in x.jobs && x.workers[w].done.result == x.jobs[x.workers[w].job].result)
  }

  /** A move that leaves profiles and finishers, and the row of every finished job. */
  lemma TrueLeft(x: World, x': World, id: int)
    requires TrueProfiles(x) && FinishersAlone(x) && x'.profiles == x.profiles && !IsDone(x, id)
    requires forall j :: j in x.jobs && j != id ==> j in x'.jobs && x'.jobs[j] == x.jobs[j]
    requires forall v :: v in x'.workers && x'.workers[v].Finishing? ==> v in x.workers && x'.workers[v] == x.workers[v]
    ensures TrueProfiles(x')
  {
    forall w | w in x'.workers && x'.workers[w].Finishing?
      ensures x'.workers[w].job in x'.jobs && x'.workers[w].done.result == x'.jobs[x'.workers[w].job].result
    {
      assert IsDone(x, x.workers[w].job);
    }
    forall key | key in x'.profiles ensures x'.profiles[key].jobId in x'.jobs && x'.jobs[x'.profiles[key].jobId] == x.jobs[x.profiles[key].jobId] {
      assert IsDone(x, x.profiles[key].jobId);
    }
  }

  lemma TrueRecord(s: Search, x: World, w: nat, first: Measured, retry: Measured)
    requires TrueProfiles(x) && FinishersAlone(x) && HoldsLease(x, w) && WorkerOk(x, x.workers[w])
    ensures TrueProfiles(Recorded(s, x, w, first, retry))
  {
    var x' := Recorded(s, x, w, first, retry);
    TrueLeft(x, x'.(workers := x'.workers - {w}), x.workers[w].job);
  }

  lemma TrueFinish(x: World, w: nat, stored: bool)
    requires TrueProfiles(x) && FinishersAlone(x) && Possible(x, Finish(w, stored))
    ensures TrueProfiles(Finished(x, w, stored))
  {
    var x' := Finished(x, w, stored);
    var id := x.workers[w].job;
    assert IsDone(x, id) && !Named(x, id);
    forall v | v in x'.workers && x'.workers[v].Finishing?
      ensures x'.workers[v].job in x'.jobs && x'.workers[v].done.result == x'.jobs[x'.workers[v].job].result
    {
      assert x.workers[v].job != id;
    }
    forall key | key in x'.profiles
      ensures var j := x'.profiles[key].jobId; j in x'.jobs && x'.jobs[j].key == key && SaysResult(x'.profiles[key], x'.jobs[j])
    {
      if key in x.profiles && x'.profiles[key] == x.profiles[key] {
        assert x.profiles[key].jobId != id;
      }
    }
  }

  lemma TrueMove(s: Search, x: World, m: Move)
    requires Inv(s, x) && FinishersAlone(x) && TrueProfiles(x) && Enabled(x, m)
    ensures TrueProfiles(After(s, x, m))
  {
    match m {
      case Record(w, first, retry) =>
        assert WorkerOk(x, x.workers[w]);
        TrueRecord(s, x, w, first, retry);
      case StepFails(w) =>
        assert WorkerOk(x, x.workers[w]);
        TrueLeft(x, After(s, x, m), x.workers[w].job);
      case Finish(w, stored) => TrueFinish(x, w, stored);
      case Create(id, key, spec) => TrueLeft(x, After(s, x, m), id);
      case Claim(w, id) => TrueLeft(x, After(s, x, m), id);
      case _ =>
    }
  }

  lemma {:induction false} TrueRuns(s: Search, x: World, moves: seq<Move>, x': World)
    requires Proper(s) && Inv(s, x) && FinishersAlone(x) && TrueProfiles(x) && Runs(s, true, x, moves, x')
    ensures Inv(s, x') && FinishersAlone(x') && TrueProfiles(x')
    decreases |moves|
  {
    if moves != [] {
      TrueMove(s, x, moves[0]);
      MoveKeeps(s, x, moves[0]);
      TrueRuns(s, After(s, x, moves[0]), moves[1..], x');
    }
  }

  /** Over every schedule in which no step outlives its lease: a stored profile is
      under the key its job was created with, and says exactly what one
      uninterrupted search over that job's recorded steps ended with. */
  lemma ProfileIsTheVerdict(s: Search, x: World, moves: seq<Move>, x': World, key: Key)
    requires Proper(s) && Fresh(x) && Runs(s, true, x, moves, x') && key in x'.profiles
    ensures var p := x'.profiles[key];
            && p.jobId in x'.jobs && p.jobId in x'.steps && Followed(s, x'.jobs[p.jobId].spec, x'.steps[p.jobId])
            && Create(p.jobId, key, x'.jobs[p.jobId].spec) in moves
            && Replay(s, x'.jobs[p.jobId].spec, x'.steps[p.jobId]).0.phase == Done
            && Replay(s, x'.jobs[p.jobId].spec, x'.steps[p.jobId]).0.result == Some(Result(p.saturatedBy, p.perPod))
  {
    TrueRuns(s, x, moves, x');
    var id := x'.profiles[key].jobId;
    CreatedAs(s, true, x, moves, x', id);
    assert RowOk(s, x'.jobs[id], x'.steps[id]);
  }

  /** For the shipped search and a pod with a fixed limit: a stored profile that
      blames the engine brackets the limit, reports what the pod achieved at the
      floor, and is within one tolerance of the limit unless the budget ran out. */
  lemma StoredProfileBrackets(x: World, moves: seq<Move>, x': World, key: Key, limit: real)
    requires Fresh(x) && Runs(Bisection, true, x, moves, x') && key in x'.profiles && x'.profiles[key].saturatedBy == ByEngine
    requires forall id, i :: id in x'.steps && 0 <= i < |x'.steps[id]| ==>
               x'.steps[id][i].reading == (if x'.steps[id][i].requested <= limit then Clean else EngineSaturated)
    requires limit >= 0.0 && forall id :: id in x'.jobs ==> ValidSpec(x'.jobs[id].spec)
    ensures var j := x'.profiles[key].jobId;
            && j in x'.jobs && j in x'.steps
            && var job := Replay(Bisection, x'.jobs[j].spec, x'.steps[j]).0;
            && x'.profiles[key].perPod == job.loAchieved && job.lo <= limit < job.hi
            && (|x'.steps[j]| < x'.jobs[j].spec.maxSteps ==> limit < job.lo + 1.0)
  {
    BisectionIsProper();
    ProfileIsTheVerdict(Bisection, x, moves, x', key);
    var j := x'.profiles[key].jobId;
    SearchFindsLimit(x'.jobs[j].spec, x'.steps[j], limit);
    SearchSound(x'.jobs[j].spec, x'.steps[j]);
  }

  /** Over every schedule in which no step outlives its lease, no stored profile
      names a failed job. */
  lemma FailedJobsUnnamed(s: Search, x: World, moves: seq<Move>, x': World, id: int)
    requires Proper(s) && Fresh(x) && Runs(s, true, x, moves, x') && id in x'.jobs && x'.jobs[id].phase == Failed
    ensures !Named(x', id)
  {
    RunsKeep(s, x, moves, x');
    forall key | key in x'.profiles ensures x'.profiles[key].jobId != id {
      assert IsDone(x', x'.profiles[key].jobId);
    }
  }

  /** The shipped search is a proper one. */
  lemma BisectionIsProper()
    ensures Proper(Bisection)
  {
  }

  // ------------------------------------------------------------------
  // When a step does outlive its lease.

  /** The search counts its steps, as the shipped one does. */
  ghost predicate Counting(s: Search)
  {
    && (forall spec: Spec :: s.start(spec).0.stepCount == 0)
    && (forall job: Job, step: Step :: s.next(job, step).0.stepCount == job.stepCount + 1)
  }

  lemma BisectionCounts()
    ensures Counting(Bisection)
  {
  }

  lemma {:induction false} ReplayCounts(s: Search, spec: Spec, steps: seq<Step>)
    requires Counting(s)
    ensures Replay(s, spec, steps).0.stepCount == |steps|
  {
    if steps != [] {
      ReplayCounts(s, spec, steps[..|steps| - 1]);
    }
  }

  /** A worker that claimed when `n` steps were recorded, and records now, leaves
      history and row one search exactly when no step was recorded in between. */
  lemma RecordSoundIff(s: Search, seen: Row, steps: seq<Step>, n: nat, first: Measured, retry: Measured)
    requires Proper(s) && Counting(s)
    requires n <= |steps| && RowOk(s, seen, steps[..n]) && Active(seen.phase)
    ensures var resumed := StartOrResume(s, seen);
            var step := Settled(resumed.1, first, retry);
            var next := s.next(resumed.0, step);
            RowOk(s, ApplyDomainJob(seen, next.0, next.1).(claimedAt := None), steps + [step]) <==> n == |steps|
  {
    var resumed := StartOrResume(s, seen);
    var step := Settled(resumed.1, first, retry);
    ResumesReplay(s, seen, steps[..n]);
    ReplayCounts(s, seen.spec, steps[..n]);
    ReplayCounts(s, seen.spec, steps + [step]);
    if n == |steps| {
      assert steps[..n] == steps;
      RecordRow(s, seen, steps, first, retry);
    }
  }

  lemma RunsCons(s: Search, leases: bool, x: World, m: Move, rest: seq<Move>, x': World)
    requires Possible(x, m) && (leases ==> Enabled(x, m)) && Runs(s, leases, After(s, x, m), rest, x')
    ensures Runs(s, leases, x, [m] + rest, x')
  {
    assert ([m] + rest)[1..] == rest;
  }

  /** A job is claimed, its lease runs out, and another replica claims it: `moves`, then any continuation, is a run. */
  lemma ClaimedTwice(s: Search, x: World, spec: Spec, last: seq<Move>, x': World) returns (moves: seq<Move>)
    requires Fresh(x) && Runs(s, false, TwoAtWork(x, spec), last, x')
    ensures Runs(s, false, x, moves, x') && moves == [Create(1, 0, spec), Claim(0, 1), Tick(LEASE + 1), Claim(1, 1)] + last
  {
    var m3, m4 := Tick(LEASE + 1), Claim(1, 1);
    var x2 := OneAtWork(x, spec);
    var x3 := After(s, x2, m3);
    assert Claimable(x3.jobs[1], x3.now);
    assert After(s, x3, m4) == TwoAtWork(x, spec);
    RunsCons(s, false, x3, m4, last, x');
    RunsCons(s, false, x2, m3, [m4] + last, x');
    moves := ClaimedOnce(s, false, x, spec, [m3] + ([m4] + last), x');
  }

  /** A job is created and claimed; then any continuation is a run. */
  lemma ClaimedOnce(s: Search, leases: bool, x: World, spec: Spec, last: seq<Move>, x': World) returns (moves: seq<Move>)
    requires Fresh(x) && Runs(s, leases, OneAtWork(x, spec), last, x')
    ensures Runs(s, leases, x, moves, x') && moves == [Create(1, 0, spec), Claim(0, 1)] + last
  {
    var m1, m2 := Create(1, 0, spec), Claim(0, 1);
    var x1 := After(s, x, m1);
    assert After(s, x1, m2) == OneAtWork(x, spec);
    RunsCons(s, leases, x1, m2, last, x');
    RunsCons(s, leases, x, m1, [m2] + last, x');
    moves := [m1] + ([m2] + last);
  }

  /** Replica 0 at work on job 1. */
  function OneAtWork(x: World, spec: Spec): World
  {
    var row := Created(0, spec).(claimedAt := Some(x.now));
    World(x.now, map[1 := row], map[1 := []], x.profiles, map[0 := Running(1, x.now, row)])
  }

  /** Replicas 0 and 1 both at work on job 1, the lease of the first expired. */
  function TwoAtWork(x: World, spec: Spec): World
  {
    var row := Created(0, spec);
    var early, late := x.now, x.now + (LEASE + 1);
    World(late, map[1 := row.(claimedAt := Some(late))], map[1 := []], x.profiles,
          map[0 := Running(1, early, row.(claimedAt := Some(early))), 1 := Running(1, late, row.(claimedAt := Some(late)))])
  }

  /** Such a schedule exists: both record. */
  lemma OutlivedLeaseDiverges(x: World, spec: Spec, m: Measured) returns (moves: seq<Move>, x': World)
    requires Fresh(x)
    ensures Runs(Bisection, false, x, moves, x')
    ensures 1 in x'.jobs && 1 in x'.steps && |x'.steps[1]| == 2 && x'.jobs[1].stepCount == 1
    ensures !RowOk(Bisection, x'.jobs[1], x'.steps[1])
  {
    BisectionCounts();
    var last;
    last, x' := TwoRecords(Bisection, TwoAtWork(x, spec), m);
    moves := ClaimedTwice(Bisection, x, spec, last, x');
    ReplayCounts(Bisection, x'.jobs[1].spec, x'.steps[1]);
  }

  /** And one in which the late replica fails a job whose profile the other has stored. */
  lemma OutlivedLeaseMisnames(x: World, spec: Spec, m: Measured) returns (moves: seq<Move>, x': World)
    requires Fresh(x) && m.reading == TargetSaturated
    ensures Runs(Bisection, false, x, moves, x')
    ensures 1 in x'.jobs && x'.jobs[1].phase == Failed && Named(x', 1)
  {
    var s := Bisection;
    var x0 := TwoAtWork(x, spec);
    var x1 := After(s, x0, Record(1, m, m));
    assert x1.workers[0] == x0.workers[0] && x1.workers[1].Finishing?;
    var x2 := After(s, x1, Finish(1, true));
    assert 0 in x2.profiles && x2.profiles[0].jobId == 1 && x2.workers[0] == x0.workers[0];
    x' := After(s, x2, StepFails(0));
    OneMove(s, false, x2, StepFails(0), x');
    RunsCons(s, false, x1, Finish(1, true), [StepFails(0)], x');
    RunsCons(s, false, x0, Record(1, m, m), [Finish(1, true)] + [StepFails(0)], x');
    moves := ClaimedTwice(s, x, spec, [Record(1, m, m)] + ([Finish(1, true)] + [StepFails(0)]), x');
  }

  /** In general: whatever its lease, a replica that fails a job leaves it failed,
      and named by a profile exactly when it was named before. */
  lemma FailsNamedIff(s: Search, x: World, w: nat)
    requires Possible(x, StepFails(w))
    ensures var id := x.workers[w].job; var x' := After(s, x, StepFails(w));
            && id in x'.jobs && x'.jobs[id].phase == Failed
            && (Named(x', id) <==> Named(x, id))
  {
  }

  /** And a late recording can put a failed job back to work. */
  lemma OutlivedLeaseRevives(x: World, spec: Spec, m: Measured) returns (moves: seq<Move>, x': World)
    requires Fresh(x)
    ensures Runs(Bisection, false, x, moves, x')
    ensures StepFails(1) in moves && 1 in x'.jobs && x'.jobs[1].phase != Failed
  {
    var s := Bisection;
    var x0 := TwoAtWork(x, spec);
    var x1 := After(s, x0, StepFails(1));
    assert x1.workers[0] == x0.workers[0];
    x' := After(s, x1, Record(0, m, m));
    OneMove(s, false, x1, Record(0, m, m), x');
    RunsCons(s, false, x0, StepFails(1), [Record(0, m, m)], x');
    moves := ClaimedTwice(s, x, spec, [StepFails(1)] + [Record(0, m, m)], x');
  }

  lemma TwoRecords(s: Search, x: World, m: Measured) returns (moves: seq<Move>, x': World)
    requires Counting(s) && 0 in x.workers && 1 in x.workers && 1 in x.jobs
    requires forall w: nat :: w == 0 || w == 1 ==> x.workers[w].Running? && x.workers[w].job == 1 && x.workers[w].seen.phase == Pending
    requires 1 in x.steps && x.steps[1] == []
    ensures Runs(s, false, x, moves, x')
    ensures 1 in x'.steps && 1 in x'.jobs && |x'.steps[1]| == 2 && x'.jobs[1].stepCount == 1
  {
    var once := After(s, x, Record(0, m, m));
    assert once.workers[1] == x.workers[1];
    x' := After(s, once, Record(1, m, m));
    OneMove(s, false, once, Record(1, m, m), x');
    RunsCons(s, false, x, Record(0, m, m), [Record(1, m, m)], x');
    moves := [Record(0, m, m)] + [Record(1, m, m)];
  }

  // ------------------------------------------------------------------
  // When a search is over and its profile is not stored.

  /** The search is over and no replica is about to store its profile. */
  ghost predicate OverAndAbandoned(x: World, id: int)
  {
    && id in x.jobs && x.jobs[id].phase == Done
    && forall w :: w in x.workers && x.workers[w].job == id ==> x.workers[w].Running?
  }

  lemma AbandonedStays(s: Search, x: World, m: Move, id: int)
    requires Inv(s, x) && Enabled(x, m) && OverAndAbandoned(x, id)
    ensures OverAndAbandoned(After(s, x, m), id)
    ensures After(s, x, m).jobs[id] == x.jobs[id]
    ensures forall key :: key in After(s, x, m).profiles && After(s, x, m).profiles[key].jobId == id ==>
              key in x.profiles && x.profiles[key] == After(s, x, m).profiles[key]
  {
    match m {
      case Record(w, first, retry) =>
        assert WorkerOk(x, x.workers[w]);
        AbandonedRecord(s, x, w, first, retry, id);
      case StepFails(w) => assert WorkerOk(x, x.workers[w]);
      case Finish(w, stored) => AbandonedFinish(x, w, stored, id);
      case _ =>
    }
  }

  lemma AbandonedRecord(s: Search, x: World, w: nat, first: Measured, retry: Measured, id: int)
    requires OverAndAbandoned(x, id) && w in x.workers && x.workers[w].Running? && x.workers[w].job != id
    ensures var x' := Recorded(s, x, w, first, retry);
            OverAndAbandoned(x', id) && x'.jobs[id] == x.jobs[id] && x'.profiles == x.profiles
  {
  }

  lemma AbandonedFinish(x: World, w: nat, stored: bool, id: int)
    requires OverAndAbandoned(x, id) && Possible(x, Finish(w, stored))
    ensures var x' := Finished(x, w, stored);
            && OverAndAbandoned(x', id) && x'.jobs[id] == x.jobs[id]
            && forall key :: key in x'.profiles && x'.profiles[key].jobId == id ==> key in x.profiles && x.profiles[key] == x'.profiles[key]
  {
    assert x.workers[w].job != id;
  }

  /** A finished job is never claimed again, so a profile that was not stored
      then is never stored: whatever the schedule, no later move writes one for it. */
  lemma {:induction false} ProfileLostForGood(s: Search, x: World, moves: seq<Move>, x': World, id: int)
    requires Proper(s) && Inv(s, x) && FinishersAlone(x) && Runs(s, true, x, moves, x') && OverAndAbandoned(x, id)
    ensures id in x'.jobs && x'.jobs[id] == x.jobs[id]
    ensures forall key :: key in x'.profiles && x'.profiles[key].jobId == id ==>
              key in x.profiles && x.profiles[key] == x'.profiles[key]
    decreases |moves|
  {
    if moves != [] {
      AbandonedStays(s, x, moves[0], id);
      MoveKeeps(s, x, moves[0]);
      ProfileLostForGood(s, After(s, x, moves[0]), moves[1..], x', id);
    }
  }

  /** A replica about to store the profile of this search. */
  ghost predicate Storing(x: World, w: nat, id: int)
  {
    && w in x.workers && x.workers[w].Finishing? && x.workers[w].job == id
    && x.workers[w].done.result.Some? && !Impaired(x.workers[w].done, StepsOf(x, id))
  }

  /** The search is over, its profile is not stored, and no replica is about to store it. */
  ghost predicate Lost(x: World, id: int)
  {
    && id in x.jobs && !Active(x.jobs[id].phase) && !Named(x, id)
    && forall w :: w in x.workers ==> !Storing(x, w, id)
  }

  lemma LostRecord(s: Search, x: World, w: nat, first: Measured, retry: Measured, id: int)
    requires Lost(x, id) && w in x.workers && x.workers[w].Running? && x.workers[w].job != id
    ensures Lost(Recorded(s, x, w, first, retry), id)
  {
    var x' := Recorded(s, x, w, first, retry);
    assert StepsOf(x', id) == StepsOf(x, id);
    forall v | v in x'.workers ensures !Storing(x', v, id) {
      assert v in x.workers && !Storing(x, v, id);
    }
  }

  lemma LostFinish(x: World, w: nat, stored: bool, id: int)
    requires Lost(x, id) && Possible(x, Finish(w, stored))
    ensures Lost(Finished(x, w, stored), id)
  {
    var x' := Finished(x, w, stored);
    assert !Storing(x, w, id);
    assert StepsOf(x', id) == StepsOf(x, id);
    forall v | v in x'.workers ensures !Storing(x', v, id) {
      assert !Storing(x, v, id);
    }
  }

  /** A move that keeps the profiles, the steps and this job, and makes no finisher. */
  lemma LostKept(x: World, x': World, id: int)
    requires Lost(x, id) && x'.profiles == x.profiles && StepsOf(x', id) == StepsOf(x, id)
    requires id in x'.jobs && x'.jobs[id].phase == x.jobs[id].phase
    requires forall v :: v in x'.workers && x'.workers[v].Finishing? ==> v in x.workers && x'.workers[v] == x.workers[v]
    ensures Lost(x', id)
  {
    forall v | v in x'.workers ensures !Storing(x', v, id) {
      if x'.workers[v].Finishing? {
        assert !Storing(x, v, id);
      }
    }
  }

  lemma LostStays(s: Search, x: World, m: Move, id: int)
    requires Inv(s, x) && Enabled(x, m) && Lost(x, id)
    ensures Lost(After(s, x, m), id)
  {
    match m {
      case Record(w, first, retry) =>
        assert WorkerOk(x, x.workers[w]);
        LostRecord(s, x, w, first, retry, id);
      case StepFails(w) =>
        assert WorkerOk(x, x.workers[w]);
        LostKept(x, After(s, x, m), id);
      case Finish(w, stored) => LostFinish(x, w, stored, id);
      case _ => LostKept(x, After(s, x, m), id);
    }
  }

  lemma {:induction false} LostForGood(s: Search, x: World, moves: seq<Move>, x': World, id: int)
    requires Proper(s) && Inv(s, x) && FinishersAlone(x) && Runs(s, true, x, moves, x') && Lost(x, id)
    ensures Lost(x', id)
    decreases |moves|
  {
    if moves != [] {
      LostStays(s, x, moves[0], id);
      MoveKeeps(s, x, moves[0]);
      LostForGood(s, After(s, x, moves[0]), moves[1..], x', id);
    }
  }

  /** Some schedule inside the leases ends with the profile stored. */
  ghost predicate CanBeNamed(s: Search, x: World, id: int)
  {
    exists moves, x' :: Runs(s, true, x, moves, x') && Named(x', id)
  }

  ghost predicate SomeoneStoring(x: World, id: int)
  {
    exists w :: Storing(x, w, id)
  }

  /** A finished search whose profile is not stored can still get it exactly while
      a replica is about to store it: one that saw the search end, and whose
      verdict is not impaired. Once that replica dies or one of its calls
      fails, the profile is lost. */
  lemma ProfileStillComesIff(s: Search, x: World, id: int)
    requires Proper(s) && Inv(s, x) && FinishersAlone(x) && IsDone(x, id) && !Named(x, id)
    ensures CanBeNamed(s, x, id) <==> SomeoneStoring(x, id)
  {
    if SomeoneStoring(x, id) {
      var w :| Storing(x, w, id);
      StoresNow(s, x, w, id);
    } else if CanBeNamed(s, x, id) {
      var moves, x' :| Runs(s, true, x, moves, x') && Named(x', id);
      assert Lost(x, id);
      LostForGood(s, x, moves, x', id);
    }
  }

  lemma StoresNow(s: Search, x: World, w: nat, id: int)
    requires Storing(x, w, id) && id in x.jobs
    ensures CanBeNamed(s, x, id)
  {
    var x' := After(s, x, Finish(w, true));
    assert x.jobs[id].key in x'.profiles && x'.profiles[x.jobs[id].key].jobId == id;
    OneMove(s, true, x, Finish(w, true), x');
  }

  /** Both ways to lose it are reached inside the leases: the search ends with a
      verdict, and then the replica dies, or a call of its fails. */
  lemma ProfileCanBeLost(x: World, spec: Spec, m: Measured, dies: bool) returns (moves: seq<Move>, x': World)
    requires Fresh(x) && m.reading == TargetSaturated
    ensures Runs(Bisection, true, x, moves, x')
    ensures IsDone(x', 1) && x'.jobs[1].result.Some? && Lost(x', 1)
  {
    var s := Bisection;
    var x0 := OneAtWork(x, spec);
    var x1 := After(s, x0, Record(0, m, m));
    var last := if dies then Crash(0) else Finish(0, false);
    x' := After(s, x1, last);
    OneMove(s, true, x1, last, x');
    RunsCons(s, true, x0, Record(0, m, m), [last], x');
    moves := ClaimedOnce(s, true, x, spec, [Record(0, m, m)] + [last], x');
  }

  /** A job that ended as failed never wrote the profile stored under its key:
      over every schedule, and at every moment of it, no profile named the job.
      So judging a search impaired leaves the profile as whoever wrote it left it. */
  lemma FailedJobNeverWrote(s: Search, x: World, before: seq<Move>, x1: World, later: seq<Move>, x2: World, id: int)
    requires Proper(s) && Fresh(x) && Runs(s, true, x, before, x1) && Runs(s, true, x1, later, x2)
    requires id in x2.jobs && x2.jobs[id].phase == Failed
    ensures !Named(x1, id)
  {
    RunsKeep(s, x, before, x1);
    if Named(x1, id) {
      assert IsDone(x1, id);
      assert OverAndAbandoned(x1, id);
      ProfileLostForGood(s, x1, later, x2, id);
    }
  }

  // ------------------------------------------------------------------
  // One tick of one replica, start to end.

  /** Does the recorded history excuse the engine? Looks for a clean step only when the engine is blamed. */
  method EnvironmentImpaired(done: Job, steps: seq<Step>) returns (impaired: bool)
    ensures impaired == Impaired(done, steps)
  {
    if done.result.None? || done.result.value.saturatedBy != ByEngine {
      return false;
    }
    for i := 0 to |steps|
      invariant forall k :: 0 <= k < i ==> steps[k].reading != Clean
    {
      if steps[i].reading == Clean {
        return false;
      }
    }
    impaired := true;
  }

  /** Neither done nor failed, and not claimed within the last half hour. */
  ghost predicate Waiting(row: Row, now: Instant)
  {
    row.phase in {Pending, Bracketing, Bisecting} && (row.claimedAt.None? || row.claimedAt.value + 1_800 < now)
  }

  /** The claimable job with the lowest id, if there is one. */
  method NextDue(jobs: map<int, Row>, now: Instant) returns (due: Option<int>)
    ensures due.None? ==> forall id :: id in jobs ==> !Claimable(jobs[id], now)
    ensures due.Some? ==> due.value in jobs && Claimable(jobs[due.value], now)
    ensures due.Some? ==> forall id :: id in jobs && id < due.value ==> !Claimable(jobs[id], now)
    ensures due.None? ==> forall id :: id in jobs ==> !Waiting(jobs[id], now)
    ensures due.Some? ==> Waiting(jobs[due.value], now) && forall id :: id in jobs && id < due.value ==> !Waiting(jobs[id], now)
  {
    due := None;
    var left := jobs.Items;
    while left != {}
      invariant forall row :: row in left ==> row in jobs.Items
      invariant due.Some? ==> due.value in jobs && Claimable(jobs[due.value], now)
      invariant forall row :: row in jobs.Items && row !in left && Claimable(row.1, now) ==> due.Some? && due.value <= row.0
    {
      var row :| row in left;
      left := left - {row};
      if Claimable(row.1, now) && (due.None? || row.0 < due.value) {
        due := Some(row.0);
      }
    }
    forall id | id in jobs && Claimable(jobs[id], now) ensures due.Some? && due.value <= id {
      assert (id, jobs[id]) in jobs.Items;
    }
  }

  /** What one tick comes to after the claim: nothing written, the job failed, a
      step recorded, or a step recorded and the search finished. */
  ghost predicate Outcome(w: nat, measured: bool, first: Measured, retry: Measured, written: bool, stored: bool, moves: seq<Move>)
  {
    if !written then moves == [Crash(w)]
    else if !measured then moves == [StepFails(w)]
    else moves == [Record(w, first, retry)] || moves == [Record(w, first, retry)] + [Finish(w, stored)]
  }

  class Driver {
    var world: World

    constructor (x: World)
      ensures world == x
    {
      world := x;
    }

    method ClaimNextStep(s: Search, w: nat) returns (due: Option<int>)
      requires w !in world.workers
      modifies this
      ensures due.None? ==> world == old(world) && forall j :: j in world.jobs ==> !Claimable(world.jobs[j], world.now)
      ensures due.Some? ==> Enabled(old(world), Claim(w, due.value)) && world == After(s, old(world), Claim(w, due.value))
    {
      due := NextDue(world.jobs, world.now);
      if due.Some? {
        var row := world.jobs[due.value].(claimedAt := Some(world.now));
        world := world.(jobs := world.jobs[due.value := row], workers := world.workers[w := Running(due.value, world.now, row)]);
      }
    }

    /** Resume the search, settle the reading, decide and persist. */
    method RecordStep(s: Search, w: nat, first: Measured, retry: Measured) returns (job: Job)
      requires Possible(world, Record(w, first, retry))
      modifies this
      ensures world == After(s, old(world), Record(w, first, retry))
      ensures job.phase == Done <==> w in world.workers
      ensures job.phase == Done ==> world.workers[w] == Finishing(old(world).workers[w].job, job)
    {
      var k := world.workers[w];
      var resumed := StartOrResume(s, k.seen);
      var step := Settled(resumed.1, first, retry);
      var next := s.next(resumed.0, step);
      job := next.0;
      var row := ApplyDomainJob(k.seen, next.0, next.1).(claimedAt := None);
      var workers := if job.phase == Done then world.workers[w := Finishing(k.job, job)] else world.workers - {w};
      world := world.(steps := world.steps[k.job := StepsOf(world, k.job) + [step]], jobs := world.jobs[k.job := row], workers := workers);
    }

    /** Refuse an impaired verdict, or store the profile. */
    method FinishSearch(w: nat, stored: bool)
      requires w in world.workers && world.workers[w].Finishing? && world.workers[w].job in world.jobs
      modifies this
      ensures world == Finished(old(world), w, stored)
      ensures var k := old(world).workers[w]; var row := old(world).jobs[k.job];
              && (stored && k.done.result.Some? && !Impaired(k.done, StepsOf(old(world), k.job)) ==>
                    world.profiles == old(world).profiles[row.key := Profile(k.done.result.value.perPod, k.done.result.value.saturatedBy, k.job)])
              && (stored && Impaired(k.done, StepsOf(old(world), k.job)) ==>
                    world.jobs == old(world).jobs[k.job := row.(phase := Failed, claimedAt := None)] && world.profiles == old(world).profiles)
              && (!stored ==> world.jobs == old(world).jobs && world.profiles == old(world).profiles)
    {
      var k := world.workers[w];
      var impaired := EnvironmentImpaired(k.done, StepsOf(world, k.job));
      world := world.(workers := world.workers - {w});
      if !stored {
        return;
      }
      if impaired {
        world := world.(jobs := world.jobs[k.job := world.jobs[k.job].(phase := Failed, claimedAt := None)]);
      } else if k.done.result.Some? {
        var r := k.done.result.value;
        world := world.(profiles := world.profiles[world.jobs[k.job].key := Profile(r.perPod, r.saturatedBy, k.job)]);
      }
    }

    /** Claim a due job, measure, retry an engine-short reading once, record, and
        finish the search if that ended it. `ran` and `reran` say whether the
        runs themselves worked; a run that did not fails the job. `written` says
        whether the outcome could be written: if not, the claim is left to
        expire. `elapsed` is how long it all took: the code does not look at the
        clock again. */
    method AdvanceOne(s: Search, w: nat, ran: bool, first: Measured, reran: bool, retry: Measured, elapsed: nat, written: bool, stored: bool)
      returns (due: Option<int>, ghost moves: seq<Move>)
      requires w !in world.workers
      modifies this
      ensures due.None? ==> world == old(world) && forall j :: j in world.jobs ==> !Claimable(world.jobs[j], world.now)
      ensures due.Some? ==> Runs(s, elapsed <= LEASE, old(world), [Claim(w, due.value)] + ([Tick(elapsed)] + moves), world)
      ensures due.Some? ==> Outcome(w, ran && (first.reading == EngineSaturated ==> reran), first, retry, written, stored, moves)
      ensures w !in world.workers
    {
      moves := [];
      due := ClaimNextStep(s, w);
      if due.None? {
        return;
      }
      ghost var x0, x1 := old(world), world;
      world := world.(now := world.now + elapsed);
      assert world == After(s, x1, Tick(elapsed));
      moves := RunAndRecord(s, w, ran && (first.reading == EngineSaturated ==> reran), first, retry, written, stored, elapsed <= LEASE);
      RunsCons(s, elapsed <= LEASE, x1, Tick(elapsed), moves, world);
      RunsCons(s, elapsed <= LEASE, x0, Claim(w, due.value), [Tick(elapsed)] + moves, world);
    }

    /** What follows the claim, once the measurements are in. */
    method RunAndRecord(s: Search, w: nat, measured: bool, first: Measured, retry: Measured, written: bool, stored: bool, ghost leases: bool)
      returns (ghost moves: seq<Move>)
      requires Possible(world, StepFails(w)) && (leases ==> HoldsLease(world, w))
      modifies this
      ensures Runs(s, leases, old(world), moves, world)
      ensures Outcome(w, measured, first, retry, written, stored, moves)
      ensures w !in world.workers
    {
      ghost var x2 := world;
      if !written {
        world := world.(workers := world.workers - {w});
        moves := [Crash(w)];
        OneMove(s, leases, x2, Crash(w), world);
      } else if !measured {
        var job := world.workers[w].job;
        world := world.(jobs := world.jobs[job := world.jobs[job].(phase := Failed, claimedAt := None)], workers := world.workers - {w});
        moves := [StepFails(w)];
        OneMove(s, leases, x2, StepFails(w), world);
      } else {
        var job := RecordStep(s, w, first, retry);
        ghost var x3 := world;
        moves := [Record(w, first, retry)];
        if job.phase == Done {
          FinishSearch(w, stored);
          moves := [Record(w, first, retry)] + [Finish(w, stored)];
          OneMove(s, leases, x3, Finish(w, stored), world);
          RunsCons(s, leases, x2, Record(w, first, retry), [Finish(w, stored)], world);
        } else {
          OneMove(s, leases, x2, Record(w, first, retry), world);
        }
      }
    }
  }

  lemma OneMove(s: Search, leases: bool, x: World, m: Move, x': World)
    requires Possible(x, m) && (leases ==> Enabled(x, m)) && x' == After(s, x, m)
    ensures Runs(s, leases, x, [m], x')
  {
    assert Runs(s, leases, x', [], x');
    RunsCons(s, leases, x, m, [], x');
    assert [m] + [] == [m];
  }
}
