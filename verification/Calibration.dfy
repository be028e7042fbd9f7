/** The calibration search for one pod's capacity: which rate to try next, when
    to stop, and what the verdict means. */
module Calibration {
  import opened Common

  datatype Classification = EngineSaturated | TargetSaturated | Clean
  datatype SaturatedBy = ByEngine | ByTarget | ByNeither
  datatype Phase = Pending | Bracketing | Bisecting | Done | Failed

  datatype Spec = Spec(seed: real, max: real, maxSteps: int)
  datatype Step = Step(requested: real, achieved: real, reading: Classification)
  datatype Result = Result(saturatedBy: SaturatedBy, perPod: real)

  /** A search's decision state. */
  datatype Job = Job(
    spec: Spec, phase: Phase, stepCount: int, lo: real, loAchieved: real, hi: real, result: Option<Result>)

  /** The rate the next step must run at; meaningless once the search is done. */
  datatype Action = Action(done: bool, next: real)

  /** Any decision procedure: how to begin, and how to go on from a step's outcome. */
  datatype Search = Search(start: Spec -> (Job, Action), next: (Job, Step) -> (Job, Action))

  // ------------------------------------------------------------------
  // The search itself: double until something gives, then bisect.

  const TOLERANCE := 1.0

  function Start(spec: Spec): (Job, Action)
  {
    (Job(spec, Bracketing, 0, 0.0, 0.0, 0.0, None), Action(false, spec.seed))
  }

  function DoubleOrFinish(job: Job): (Job, Action)
  {
    var next := job.lo * 2.0;
    if next > job.spec.max || job.stepCount >= job.spec.maxSteps
    then (job.(phase := Done, result := Some(Result(ByNeither, job.loAchieved))), Action(true, 0.0))
    else (job, Action(false, next))
  }

  function BisectOrFinish(job: Job): (Job, Action)
  {
    var width := job.hi - job.lo;
    if width <= TOLERANCE || job.stepCount >= job.spec.maxSteps
    then (job.(phase := Done, result := Some(Result(ByEngine, job.loAchieved))), Action(true, 0.0))
    else (job, Action(false, job.lo + width / 2.0))
  }

  function Next(job0: Job, step: Step): (Job, Action)
  {
    var job := job0.(stepCount := job0.stepCount + 1);
    match step.reading
    case TargetSaturated => (job.(phase := Done, result := Some(Result(ByTarget, step.achieved))), Action(true, 0.0))
    case EngineSaturated =>
      BisectOrFinish(job.(phase := if job.phase == Bracketing then Bisecting else job.phase, hi := step.requested))
    case Clean =>
      var raised := job.(lo := step.requested, loAchieved := step.achieved);
      if job.phase == Bracketing then DoubleOrFinish(raised) else BisectOrFinish(raised)
  }

  const Bisection := Search(Start, Next)

  ghost predicate ValidSpec(spec: Spec)
  {
    0.0 < spec.seed < spec.max && spec.maxSteps > 0
  }

  // ------------------------------------------------------------------
  // One uninterrupted run over the recorded outcomes.

  /** Where a search stands after the given steps. */
  function Replay(s: Search, spec: Spec, steps: seq<Step>): (Job, Action)
  {
    if steps == [] then s.start(spec)
    else s.next(Replay(s, spec, steps[..|steps| - 1]).0, steps[|steps| - 1])
  }

  /** Step `i` ran at the rate the search asked for, and the search was not over before it. */
  ghost predicate FollowedAt(s: Search, spec: Spec, steps: seq<Step>, i: nat)
    requires i < |steps|
  {
    && Replay(s, spec, steps[..i]).0.phase != Done
    && steps[i].requested == Replay(s, spec, steps[..i]).1.next
  }

  ghost predicate Followed(s: Search, spec: Spec, steps: seq<Step>)
  {
    forall i: nat {:trigger FollowedAt(s, spec, steps, i)} :: i < |steps| ==> FollowedAt(s, spec, steps, i)
  }

  lemma ReplaySnoc(s: Search, spec: Spec, steps: seq<Step>, step: Step)
    ensures Replay(s, spec, steps + [step]) == s.next(Replay(s, spec, steps).0, step)
  {
    assert (steps + [step])[..|steps|] == steps;
  }

  lemma FollowedSnoc(s: Search, spec: Spec, steps: seq<Step>, step: Step)
    requires Followed(s, spec, steps) && Replay(s, spec, steps).0.phase != Done
    requires step.requested == Replay(s, spec, steps).1.next
    ensures Followed(s, spec, steps + [step])
  {
    var all := steps + [step];
    forall i: nat | i < |all| ensures FollowedAt(s, spec, all, i) {
      assert all[..i] == steps[..i] && steps[..|steps|] == steps;
      if i < |steps| {
        assert FollowedAt(s, spec, steps, i);
      }
    }
  }

  lemma FollowedPrefix(s: Search, spec: Spec, steps: seq<Step>)
    requires steps != [] && Followed(s, spec, steps)
    ensures Followed(s, spec, steps[..|steps| - 1])
    ensures Replay(s, spec, steps[..|steps| - 1]).0.phase != Done
    ensures steps[|steps| - 1].requested == Replay(s, spec, steps[..|steps| - 1]).1.next
  {
    var n := |steps| - 1;
    var before := steps[..n];
    forall i: nat | i < n ensures FollowedAt(s, spec, before, i) {
      assert before[..i] == steps[..i] && FollowedAt(s, spec, steps, i);
    }
    assert FollowedAt(s, spec, steps, n);
  }

  /** The floor is the last clean rate, or nothing yet. */
  ghost predicate FloorWitnessed(job: Job, steps: seq<Step>)
  {
    || (job.lo == 0.0 && job.loAchieved == 0.0 && forall i :: 0 <= i < |steps| ==> steps[i].reading != Clean)
    || exists i :: 0 <= i < |steps| && steps[i].reading == Clean && steps[i].requested == job.lo && steps[i].achieved == job.loAchieved
  }

  /** The ceiling is a rate the engine failed at. */
  ghost predicate CeilingWitnessed(job: Job, steps: seq<Step>)
  {
    exists i :: 0 <= i < |steps| && steps[i].reading == EngineSaturated && steps[i].requested == job.hi
  }

  ghost predicate Searching(job: Job, action: Action, steps: seq<Step>)
  {
    && job.stepCount == |steps|
    && 0.0 <= job.lo
    && FloorWitnessed(job, steps)
    && (job.phase == Bracketing || job.phase == Bisecting || job.phase == Done)
    && (job.phase == Done <==> job.result.Some?)
    && (job.phase != Done ==> job.lo < action.next <= job.spec.max && !action.done)
    && (job.phase != Done && |steps| > 0 ==> |steps| < job.spec.maxSteps)
    && (job.phase == Bisecting ==> action.next < job.hi <= job.spec.max && CeilingWitnessed(job, steps) && job.hi - job.lo > TOLERANCE)
  }

  ghost predicate Verdict(job: Job, steps: seq<Step>)
  {
    match job.result
    case None => true
    case Some(r) =>
      match r.saturatedBy
      case ByTarget => steps != [] && steps[|steps| - 1].reading == TargetSaturated && r.perPod == steps[|steps| - 1].achieved
      case ByEngine =>
        && r.perPod == job.loAchieved && job.lo < job.hi && CeilingWitnessed(job, steps)
        && (job.hi - job.lo <= TOLERANCE || |steps| >= job.spec.maxSteps)
      case ByNeither =>
        && r.perPod == job.loAchieved && steps != [] && steps[|steps| - 1].reading == Clean
        && (job.lo * 2.0 > job.spec.max || |steps| >= job.spec.maxSteps)
        && forall i :: 0 <= i < |steps| ==> steps[i].reading == Clean
  }

  /** While bracketing, every step so far was clean. */
  ghost predicate AllClean(job: Job, steps: seq<Step>)
  {
    job.phase == Bracketing ==> forall i :: 0 <= i < |steps| ==> steps[i].reading == Clean
  }

  ghost predicate SearchOk(r: (Job, Action), spec: Spec, steps: seq<Step>)
  {
    && r.0.spec == spec
    && Searching(r.0, r.1, steps)
    && Verdict(r.0, steps)
    && AllClean(r.0, steps)
  }

  lemma WitnessGrows(job: Job, steps: seq<Step>, step: Step)
    ensures CeilingWitnessed(job, steps) ==> CeilingWitnessed(job, steps + [step])
    ensures FloorWitnessed(job, steps) && step.reading != Clean ==> FloorWitnessed(job, steps + [step])
  {
    var all := steps + [step];
    assert forall i :: 0 <= i < |steps| ==> all[i] == steps[i];
    if i :| 0 <= i < |steps| && steps[i].reading == EngineSaturated && steps[i].requested == job.hi {
      assert all[i].requested == job.hi;
    }
    if FloorWitnessed(job, steps) && step.reading != Clean {
      if i :| 0 <= i < |steps| && steps[i].reading == Clean && steps[i].requested == job.lo && steps[i].achieved == job.loAchieved {
        assert all[i].requested == job.lo;
      }
    }
  }

  lemma NextOk(job: Job, action: Action, spec: Spec, steps: seq<Step>, step: Step)
    requires ValidSpec(spec) && SearchOk((job, action), spec, steps) && job.phase != Done && step.requested == action.next
    ensures SearchOk(Next(job, step), spec, steps + [step])
  {
    var all := steps + [step];
    assert all[|steps|] == step;
    assert forall i :: 0 <= i < |steps| ==> all[i] == steps[i];
    var r := Next(job, step);
    WitnessGrows(r.0, steps, step);
    match step.reading {
      case TargetSaturated =>
        assert FloorWitnessed(job, steps);
      case EngineSaturated =>
        assert all[|steps|].requested == r.0.hi;
      case Clean =>
        assert all[|steps|].requested == r.0.lo && all[|steps|].achieved == r.0.loAchieved;
        if job.phase == Bisecting {
          CeilingKept(job, r.0, steps);
        }
    }
  }

  lemma CeilingKept(job: Job, job': Job, steps: seq<Step>)
    requires CeilingWitnessed(job, steps) && job'.hi == job.hi
    ensures CeilingWitnessed(job', steps)
  {
  }

  /** Over every sequence of outcomes: rates stay inside the bracket and under
      the maximum, the budget bounds the search, and a verdict is witnessed by
      the recorded steps. */
  lemma {:induction false} SearchSound(spec: Spec, steps: seq<Step>)
    requires ValidSpec(spec) && Followed(Bisection, spec, steps)
    ensures SearchOk(Replay(Bisection, spec, steps), spec, steps)
    ensures |steps| <= spec.maxSteps
    decreases |steps|
  {
    if steps != [] {
      var before := steps[..|steps| - 1];
      FollowedPrefix(Bisection, spec, steps);
      SearchSound(spec, before);
      var r := Replay(Bisection, spec, before);
      NextOk(r.0, r.1, spec, before, steps[|steps| - 1]);
      assert steps == before + [steps[|steps| - 1]];
    }
  }

  /** For a pod with a fixed limit, a finished engine-limited search brackets the
      limit: what it reports was achieved, and unless the budget ran out the
      limit is at most one tolerance above the reported floor. */
  lemma SearchFindsLimit(spec: Spec, steps: seq<Step>, limit: real)
    requires ValidSpec(spec) && Followed(Bisection, spec, steps)
    requires forall i :: 0 <= i < |steps| ==>
      steps[i].reading == (if steps[i].requested <= limit then Clean else EngineSaturated)
    ensures var job := Replay(Bisection, spec, steps).0;
            job.result.Some? && job.result.value.saturatedBy == ByEngine && limit >= 0.0 ==>
              job.lo <= limit < job.hi && (|steps| < spec.maxSteps ==> limit < job.lo + 1.0)
  {
    SearchSound(spec, steps);
    var job := Replay(Bisection, spec, steps).0;
    if job.result.Some? && job.result.value.saturatedBy == ByEngine {
      var k :| 0 <= k < |steps| && steps[k].reading == EngineSaturated && steps[k].requested == job.hi;
    }
  }

  // ------------------------------------------------------------------
  // How many steps it takes.

  function Doubled(rate: real, n: nat): real
  {
    if n == 0 then rate else 2.0 * Doubled(rate, n - 1)
  }

  function Halved(width: real, n: nat): real
  {
    if n == 0 then width else Halved(width, n - 1) / 2.0
  }

  /** The floor after `n` clean steps of bracketing. */
  function FloorAfter(spec: Spec, n: nat): real
  {
    if n == 0 then 0.0 else Doubled(spec.seed, n - 1)
  }

  /** The first bracket, when step `f` is the first the engine fails at. */
  function FirstWidth(spec: Spec, f: nat): real
  {
    Doubled(spec.seed, f) - FloorAfter(spec, f)
  }

  ghost predicate AllRead(steps: seq<Step>, reading: Classification)
  {
    forall i :: 0 <= i < |steps| ==> steps[i].reading == reading
  }

  /** Step `f` is the first the engine fails at, and the target never gives. */
  ghost predicate FirstShort(steps: seq<Step>, f: nat)
  {
    && f < |steps| && steps[f].reading == EngineSaturated && AllRead(steps[..f], Clean)
    && forall i :: 0 <= i < |steps| ==> steps[i].reading != TargetSaturated
  }

  /** Bracketing doubles the seed, clean step by clean step. */
  lemma {:induction false} Doubling(spec: Spec, steps: seq<Step>)
    requires Followed(Bisection, spec, steps) && AllRead(steps, Clean) && Replay(Bisection, spec, steps).0.phase != Done
    ensures var r := Replay(Bisection, spec, steps);
            r.0.phase == Bracketing && r.1.next == Doubled(spec.seed, |steps|) && r.0.lo == FloorAfter(spec, |steps|)
    decreases |steps|
  {
    if steps != [] {
      FollowedPrefix(Bisection, spec, steps);
      Doubling(spec, steps[..|steps| - 1]);
    }
  }

  /** The search is inside its bracket and about to try the middle, or done with the bracket. */
  ghost predicate Narrowed(r: (Job, Action), width: real)
  {
    && r.0.hi - r.0.lo == width
    && ((r.0.phase == Bisecting && r.1.next == r.0.lo + width / 2.0) || r.0.phase == Done)
  }

  lemma BracketFound(job: Job, step: Step)
    requires job.phase == Bracketing && step.reading == EngineSaturated
    ensures Narrowed(Next(job, step), step.requested - job.lo)
  {
  }

  lemma BracketHalves(job: Job, action: Action, step: Step, width: real)
    requires job.phase == Bisecting && Narrowed((job, action), width)
    requires step.requested == action.next && step.reading != TargetSaturated
    ensures Narrowed(Next(job, step), width / 2.0)
  {
  }

  /** What halves at every step is halved that many times. */
  lemma {:induction false} HalvesAll(holds: (nat, real) -> bool, a: nat, b: nat, width: real)
    requires a <= b && holds(a, width)
    requires forall i, v :: a <= i < b && holds(i, v) ==> holds(i + 1, v / 2.0)
    ensures holds(b, Halved(width, b - a))
    decreases b - a
  {
    if a < b {
      HalvesAll(holds, a, b - 1, width);
    }
  }

  /** The bracket of the search after the first `i` steps. */
  ghost predicate Bracketed(spec: Spec, steps: seq<Step>, i: nat, width: real)
  {
    i <= |steps| && Narrowed(Replay(Bisection, spec, steps[..i]), width)
  }

  /** How wide the bracket of the search is. */
  function WidthOf(spec: Spec, steps: seq<Step>): real
  {
    var job := Replay(Bisection, spec, steps).0;
    job.hi - job.lo
  }

  /** From the first failure on, every step halves the bracket. */
  lemma Halving(spec: Spec, steps: seq<Step>, f: nat)
    requires Followed(Bisection, spec, steps) && FirstShort(steps, f)
    ensures WidthOf(spec, steps) == Halved(FirstWidth(spec, f), |steps| - (f + 1))
  {
    WidthAtEnd(spec, steps, f + 1, FirstWidth(spec, f)) by {
      FirstBracket(spec, steps, f);
    }
  }

  lemma HalvingFrom(spec: Spec, steps: seq<Step>, a: nat, b: nat, width: real)
    requires a <= b <= |steps| && Followed(Bisection, spec, steps) && Bracketed(spec, steps, a, width)
    requires forall i :: a <= i < b ==> steps[i].reading != TargetSaturated
    ensures Bracketed(spec, steps, b, Halved(width, b - a))
  {
    forall i: nat, v | a <= i < b && Bracketed(spec, steps, i, v) ensures Bracketed(spec, steps, i + 1, v / 2.0) {
      NextBracket(spec, steps, i, v);
    }
    HalvesAll((i: nat, v: real) => Bracketed(spec, steps, i, v), a, b, width);
  }

  lemma FollowedTake(spec: Spec, steps: seq<Step>, i: nat)
    requires Followed(Bisection, spec, steps) && i < |steps|
    ensures Followed(Bisection, spec, steps[..i]) && Replay(Bisection, spec, steps[..i]).0.phase != Done
    ensures Replay(Bisection, spec, steps[..i + 1]) == Next(Replay(Bisection, spec, steps[..i]).0, steps[i])
    ensures steps[i].requested == Replay(Bisection, spec, steps[..i]).1.next
  {
    var before := steps[..i];
    forall k: nat | k < i ensures FollowedAt(Bisection, spec, before, k) {
      assert before[..k] == steps[..k] && FollowedAt(Bisection, spec, steps, k);
    }
    assert steps[..i + 1][..i] == before && FollowedAt(Bisection, spec, steps, i);
  }

  lemma FirstBracket(spec: Spec, steps: seq<Step>, f: nat)
    requires Followed(Bisection, spec, steps) && FirstShort(steps, f)
    ensures Bracketed(spec, steps, f + 1, FirstWidth(spec, f))
  {
    FollowedTake(spec, steps, f);
    Doubling(spec, steps[..f]);
    BracketFound(Replay(Bisection, spec, steps[..f]).0, steps[f]);
  }

  lemma NextBracket(spec: Spec, steps: seq<Step>, i: nat, width: real)
    requires i < |steps| && Followed(Bisection, spec, steps) && steps[i].reading != TargetSaturated
    requires Bracketed(spec, steps, i, width)
    ensures Bracketed(spec, steps, i + 1, width / 2.0)
  {
    var r := Replay(Bisection, spec, steps[..i]);
    FollowedTake(spec, steps, i);
    BracketHalves(r.0, r.1, steps[i], width);
  }

  /** How long a search takes that the engine limits, to the step: the doublings
      stay under the maximum, no middle is tried once the bracket is within
      tolerance, and a search inside its budget stops only then. */
  lemma SearchLength(spec: Spec, steps: seq<Step>, f: nat)
    requires ValidSpec(spec) && Followed(Bisection, spec, steps) && FirstShort(steps, f)
    ensures Doubled(spec.seed, f) <= spec.max
    ensures f + 1 < |steps| ==> Halved(FirstWidth(spec, f), |steps| - 1 - (f + 1)) > 1.0
    ensures |steps| < spec.maxSteps ==>
              (Replay(Bisection, spec, steps).0.phase == Done <==> Halved(FirstWidth(spec, f), |steps| - (f + 1)) <= 1.0)
  {
    RateTried(spec, steps, f);
    FirstBracket(spec, steps, f);
    NotAllClean(steps, f);
    LengthFrom(spec, steps, f + 1, FirstWidth(spec, f));
  }

  lemma LengthFrom(spec: Spec, steps: seq<Step>, a: nat, width: real)
    requires ValidSpec(spec) && Followed(Bisection, spec, steps) && 0 < a <= |steps| && Bracketed(spec, steps, a, width)
    requires !AllRead(steps, Clean) && forall i :: a - 1 <= i < |steps| ==> steps[i].reading != TargetSaturated
    ensures a < |steps| ==> Halved(width, |steps| - 1 - a) > TOLERANCE
    ensures |steps| < spec.maxSteps ==> (Replay(Bisection, spec, steps).0.phase == Done <==> Halved(width, |steps| - a) <= TOLERANCE)
  {
    HalvingFrom(spec, steps, a, |steps|, width);
    StopsWithin(spec, steps, Halved(width, |steps| - a));
    if a < |steps| {
      HalvingFrom(spec, steps, a, |steps| - 1, width);
      StillWide(spec, steps, Halved(width, |steps| - 1 - a));
    }
  }

  lemma NotAllClean(steps: seq<Step>, f: nat)
    requires FirstShort(steps, f)
    ensures !AllRead(steps, Clean)
  {
  }

  /** Inside the budget, a search that has its bracket is over exactly when the bracket is within tolerance. */
  lemma StopsWithin(spec: Spec, steps: seq<Step>, width: real)
    requires ValidSpec(spec) && Followed(Bisection, spec, steps) && Bracketed(spec, steps, |steps|, width)
    requires steps != [] && steps[|steps| - 1].reading != TargetSaturated && !AllRead(steps, Clean)
    ensures |steps| < spec.maxSteps ==> (Replay(Bisection, spec, steps).0.phase == Done <==> width <= TOLERANCE)
  {
    assert steps[..|steps|] == steps;
    SearchSound(spec, steps);
  }

  /** Before a middle is tried the bracket is wider than the tolerance. */
  lemma StillWide(spec: Spec, steps: seq<Step>, width: real)
    requires ValidSpec(spec) && Followed(Bisection, spec, steps) && steps != [] && Bracketed(spec, steps, |steps| - 1, width)
    ensures width > TOLERANCE
  {
    FollowedTake(spec, steps, |steps| - 1);
    NotDoneWide(spec, steps[..|steps| - 1], width);
  }

  lemma NotDoneWide(spec: Spec, steps: seq<Step>, width: real)
    requires ValidSpec(spec) && Followed(Bisection, spec, steps) && Narrowed(Replay(Bisection, spec, steps), width)
    requires Replay(Bisection, spec, steps).0.phase != Done
    ensures width > TOLERANCE
  {
    SearchSound(spec, steps);
  }

  /** The rate the engine first failed at was the seed doubled `f` times, and under the maximum. */
  lemma RateTried(spec: Spec, steps: seq<Step>, f: nat)
    requires ValidSpec(spec) && Followed(Bisection, spec, steps) && FirstShort(steps, f)
    ensures Doubled(spec.seed, f) <= spec.max
  {
    FollowedTake(spec, steps, f);
    Doubling(spec, steps[..f]);
    SearchSound(spec, steps[..f]);
  }

  lemma {:induction false} DoubledGrows(rate: real, a: nat, b: nat)
    requires rate > 0.0 && a <= b
    ensures 0.0 < Doubled(rate, a) <= Doubled(rate, b)
    decreases b
  {
    if a < b {
      DoubledGrows(rate, a, b - 1);
    } else if a > 0 {
      DoubledGrows(rate, a - 1, b - 1);
    }
  }

  lemma {:induction false} HalvedShrinks(v: real, w: real, a: nat, b: nat)
    requires 0.0 <= v <= w && a <= b
    ensures 0.0 <= Halved(v, b) <= Halved(w, a)
    decreases b
  {
    if a < b {
      HalvedShrinks(v, w, a, b - 1);
    } else if a > 0 {
      HalvedShrinks(v, w, a - 1, b - 1);
    }
  }

  /** When the budget is enough: if the maximum is passed within `d` doublings and
      within tolerance after `h` halvings, `d + h` steps and one more never cut a
      search short. An engine verdict is then always within tolerance, and an
      open one means doubling once more would pass the maximum. */
  lemma BudgetSuffices(spec: Spec, steps: seq<Step>, d: nat, h: nat)
    requires ValidSpec(spec) && Followed(Bisection, spec, steps)
    requires Doubled(spec.seed, d) > spec.max && Halved(spec.max, h) <= 1.0 && spec.maxSteps > d + h
    ensures EngineEnds(Replay(Bisection, spec, steps).0) ==> WidthOf(spec, steps) <= 1.0
    ensures NeitherEnds(Replay(Bisection, spec, steps).0) ==> Replay(Bisection, spec, steps).0.lo * 2.0 > spec.max
  {
    if EngineEnds(Replay(Bisection, spec, steps).0) {
      EngineInBudget(spec, steps, d, h);
    }
    if NeitherEnds(Replay(Bisection, spec, steps).0) {
      NeitherInBudget(spec, steps, d, h);
    }
  }

  ghost predicate EngineEnds(job: Job)
  {
    job.result.Some? && job.result.value.saturatedBy == ByEngine
  }

  ghost predicate NeitherEnds(job: Job)
  {
    job.result.Some? && job.result.value.saturatedBy == ByNeither
  }

  lemma EngineSpent(spec: Spec, steps: seq<Step>)
    requires ValidSpec(spec) && Followed(Bisection, spec, steps) && EngineEnds(Replay(Bisection, spec, steps).0)
    ensures var job := Replay(Bisection, spec, steps).0;
            job.hi - job.lo <= TOLERANCE || |steps| >= spec.maxSteps
  {
    SearchSound(spec, steps);
  }

  lemma EngineInBudget(spec: Spec, steps: seq<Step>, d: nat, h: nat)
    requires ValidSpec(spec) && Followed(Bisection, spec, steps) && EngineEnds(Replay(Bisection, spec, steps).0)
    requires Doubled(spec.seed, d) > spec.max && Halved(spec.max, h) <= TOLERANCE && spec.maxSteps > d + h
    ensures WidthOf(spec, steps) <= TOLERANCE
  {
    EngineSpent(spec, steps);
    if |steps| >= spec.maxSteps {
      var f := SomeFirstShort(spec, steps);
      RateTried(spec, steps, f);
      Halving(spec, steps, f);
      EngineWithin(spec, f, d, h, |steps| - (f + 1));
    }
  }

  lemma WidthAtEnd(spec: Spec, steps: seq<Step>, a: nat, width: real)
    requires Followed(Bisection, spec, steps) && a <= |steps| && Bracketed(spec, steps, a, width)
    requires forall i :: a <= i < |steps| ==> steps[i].reading != TargetSaturated
    ensures WidthOf(spec, steps) == Halved(width, |steps| - a)
  {
    HalvingFrom(spec, steps, a, |steps|, width);
    assert steps[..|steps|] == steps;
  }

  lemma NeitherInBudget(spec: Spec, steps: seq<Step>, d: nat, h: nat)
    requires ValidSpec(spec) && Followed(Bisection, spec, steps) && NeitherEnds(Replay(Bisection, spec, steps).0)
    requires Doubled(spec.seed, d) > spec.max && spec.maxSteps > d + h
    ensures Replay(Bisection, spec, steps).0.lo * 2.0 > spec.max
  {
    SearchSound(spec, steps);
    CleanRun(spec, steps, d);
  }

  lemma EngineWithin(spec: Spec, f: nat, d: nat, h: nat, n: nat)
    requires ValidSpec(spec) && Doubled(spec.seed, f) <= spec.max < Doubled(spec.seed, d)
    requires Halved(spec.max, h) <= TOLERANCE && f + 1 + n > d + h
    ensures Halved(FirstWidth(spec, f), n) <= TOLERANCE
  {
    if f >= d {
      DoubledGrows(spec.seed, d, f);
    }
    DoubledGrows(spec.seed, 0, f);
    if f > 0 {
      DoubledGrows(spec.seed, f - 1, f);
    }
    HalvedShrinks(FirstWidth(spec, f), spec.max, h, n);
  }

  /** A search that only ever read clean ends before the doublings pass the maximum. */
  lemma CleanRun(spec: Spec, steps: seq<Step>, d: nat)
    requires ValidSpec(spec) && Followed(Bisection, spec, steps) && AllRead(steps, Clean)
    requires Doubled(spec.seed, d) > spec.max
    ensures |steps| <= d
  {
    if |steps| > d {
      FollowedPrefix(Bisection, spec, steps);
      var before := steps[..|steps| - 1];
      Doubling(spec, before);
      SearchSound(spec, before);
      DoubledGrows(spec.seed, d, |before|);
    }
  }

  /** The search is bisecting, or ended blaming the engine. */
  ghost predicate EngineGave(job: Job)
  {
    job.phase == Bisecting || EngineEnds(job)
  }

  /** What is known of a search that is not over. */
  lemma StillSearching(spec: Spec, steps: seq<Step>)
    requires ValidSpec(spec) && Followed(Bisection, spec, steps) && Replay(Bisection, spec, steps).0.phase != Done
    ensures var job := Replay(Bisection, spec, steps).0;
            && job.result.None? && (job.phase == Bracketing || job.phase == Bisecting)
            && (job.phase == Bracketing ==> AllRead(steps, Clean))
  {
    SearchSound(spec, steps);
  }

  lemma GaveBecause(job: Job, step: Step)
    requires job.result.None? && (job.phase == Bracketing || job.phase == Bisecting) && EngineGave(Next(job, step).0)
    ensures step.reading != TargetSaturated && (job.phase == Bisecting || step.reading == EngineSaturated)
  {
  }

  lemma FirstShortHere(steps: seq<Step>, step: Step)
    requires AllRead(steps, Clean) && step.reading == EngineSaturated
    ensures FirstShort(steps + [step], |steps|)
  {
    assert (steps + [step])[..|steps|] == steps;
  }

  lemma FirstShortSnoc(steps: seq<Step>, step: Step, f: nat)
    requires FirstShort(steps, f) && step.reading != TargetSaturated
    ensures FirstShort(steps + [step], f)
  {
    assert (steps + [step])[..f] == steps[..f];
  }

  /** An engine verdict has a first failure, with only clean steps before it. */
  lemma {:induction false} SomeFirstShort(spec: Spec, steps: seq<Step>) returns (f: nat)
    requires ValidSpec(spec) && Followed(Bisection, spec, steps)
    requires EngineGave(Replay(Bisection, spec, steps).0)
    ensures FirstShort(steps, f)
    decreases |steps|
  {
    FollowedPrefix(Bisection, spec, steps);
    var n := |steps| - 1;
    var before := steps[..n];
    var job := Replay(Bisection, spec, before).0;
    StillSearching(spec, before);
    GaveBecause(job, steps[n]);
    assert steps == before + [steps[n]];
    if job.phase == Bisecting {
      f := SomeFirstShort(spec, before);
      FirstShortSnoc(before, steps[n], f);
    } else {
      f := n;
      FirstShortHere(before, steps[n]);
    }
  }
}
