/** Periodic digests of one project: what a window counts, and how the windows
    of successive digests tile time. */
module Digest {
  import opened Common
  import opened Outcomes

  datatype Report = Report(runId: int, execution: int, started: Instant, outcome: Outcome)

  datatype Period = Daily | Weekly

  const HOUR: Duration := 3600

  function Length(p: Period): (d: Duration)
    ensures d > 0
  {
    match p
    case Daily => 24 * HOUR
    case Weekly => 7 * 24 * HOUR
  }

  /** Half-open: a run belongs to the window it started in. */
  function Within(start: Instant, end: Instant): Report -> bool
  {
    (r: Report) => start <= r.started < end
  }

  // ------------------------------------------------------------------
  // Building one digest.

  datatype Summary = Summary(execution: int, runs: int, worst: Option<Outcome>)

  datatype Tally = Tally(passed: int, failed: int, aborted: int)

  /** How many reports ended this way. */
  function CountOf(reps: seq<Report>, o: Outcome): int
  {
    if reps == [] then 0 else (if reps[0].outcome == o then 1 else 0) + CountOf(reps[1..], o)
  }

  lemma {:induction false} CountConcat(a: seq<Report>, b: seq<Report>, o: Outcome)
    ensures CountOf(a + b, o) == CountOf(a, o) + CountOf(b, o)
  {
    if a == [] {
      assert a + b == b;
    } else {
      assert (a + b)[1..] == a[1..] + b;
      CountConcat(a[1..], b, o);
    }
  }

  /** The per-outcome columns count these reports. */
  ghost predicate IsTally(t: Tally, reps: seq<Report>)
  {
    forall o :: o != Error ==> Column(t, o) == CountOf(reps, o)
  }

  /** The columns these reports fill. */
  function TallyOf(reps: seq<Report>): Tally
  {
    Tally(CountOf(reps, Passed), CountOf(reps, Failed), CountOf(reps, Aborted))
  }

  lemma TallyUnique(t: Tally, reps: seq<Report>)
    requires IsTally(t, reps)
    ensures t == TallyOf(reps)
  {
    assert Column(t, Passed) == CountOf(reps, Passed);
    assert Column(t, Failed) == CountOf(reps, Failed);
    assert Column(t, Aborted) == CountOf(reps, Aborted);
  }

  /** The column an outcome is counted in. An error has none. */
  function Column(t: Tally, o: Outcome): int
  {
    match o
    case Passed => t.passed
    case Failed => t.failed
    case Aborted => t.aborted
    case Error => 0
  }

  function Plus(a: Tally, b: Tally): Tally
  {
    Tally(a.passed + b.passed, a.failed + b.failed, a.aborted + b.aborted)
  }

  /** One more run that ended this way. An error has no column. */
  function Bump(t: Tally, o: Outcome): Tally
  {
    match o
    case Passed => t.(passed := t.passed + 1)
    case Failed => t.(failed := t.failed + 1)
    case Aborted => t.(aborted := t.aborted + 1)
    case Error => t
  }

  /** `worst` is the most severe outcome among `reps`; none when there are none. */
  ghost predicate WorstOf(worst: Option<Outcome>, reps: seq<Report>)
  {
    && (worst.None? <==> reps == [])
    && (worst.Some? ==> exists i :: 0 <= i < |reps| && reps[i].outcome == worst.value)
    && (worst.Some? ==> forall i :: 0 <= i < |reps| ==> Severity(reps[i].outcome) <= Severity(worst.value))
  }

  function Rank(o: Option<Outcome>): nat
  {
    if o.None? then 0 else Severity(o.value)
  }

  lemma CountSnoc(reps: seq<Report>, r: Report, o: Outcome)
    ensures CountOf(reps + [r], o) == CountOf(reps, o) + if r.outcome == o then 1 else 0
  {
    CountConcat(reps, [r], o);
  }

  lemma TallySnoc(t: Tally, reps: seq<Report>, r: Report)
    requires IsTally(t, reps)
    ensures IsTally(Bump(t, r.outcome), reps + [r])
  {
    forall o | o != Error ensures Column(Bump(t, r.outcome), o) == CountOf(reps + [r], o) {
      CountSnoc(reps, r, o);
    }
  }

  lemma WorstSnoc(worst: Option<Outcome>, reps: seq<Report>, r: Report)
    requires WorstOf(worst, reps)
    ensures WorstOf(if Severity(r.outcome) > Rank(worst) then Some(r.outcome) else worst, reps + [r])
  {
    var all := reps + [r];
    assert all[|reps|] == r;
    assert forall i :: 0 <= i < |reps| ==> all[i] == reps[i];
    if worst.Some? {
      var i :| 0 <= i < |reps| && reps[i].outcome == worst.value;
      assert all[i].outcome == worst.value;
    }
  }

  /** A summary and a tally of exactly these runs. */
  ghost predicate SummedUp(s: Summary, t: Tally, runs: seq<Report>)
  {
    s.runs == |runs| && WorstOf(s.worst, runs) && IsTally(t, runs)
  }

  function AddRun(s: Summary, o: Outcome): Summary
  {
    s.(runs := s.runs + 1, worst := if Severity(o) > Rank(s.worst) then Some(o) else s.worst)
  }

  lemma SummedSnoc(s: Summary, t: Tally, runs: seq<Report>, r: Report)
    requires SummedUp(s, t, runs)
    ensures SummedUp(AddRun(s, r.outcome), Bump(t, r.outcome), runs + [r])
  {
    TallySnoc(t, runs, r);
    WorstSnoc(s.worst, runs, r);
  }

  /** One execution's reports: how many fell in the window, how they ended, and the worst of them. */
  method SummariseExecution(execution: int, reps: seq<Report>, start: Instant, end: Instant)
    returns (s: Summary, t: Tally)
    ensures s.execution == execution
    ensures SummedUp(s, t, Filter(reps, Within(start, end)))
  {
    s, t := Summary(execution, 0, None), Tally(0, 0, 0);
    for i := 0 to |reps|
      invariant s.execution == execution
      invariant SummedUp(s, t, Filter(reps[..i], Within(start, end)))
    {
      ghost var before, after := Filter(reps[..i], Within(start, end)), Filter(reps[..i + 1], Within(start, end));
      FilterSnoc(reps, i, Within(start, end));
      if start <= reps[i].started < end {
        assert after == before + [reps[i]];
        SummedSnoc(s, t, before, reps[i]);
        s, t := AddRun(s, reps[i].outcome), Bump(t, reps[i].outcome);
      } else {
        assert after == before;
      }
    }
    assert reps[..|reps|] == reps;
  }

  /** Every run of the window, over all the project's executions. */
  function AllRuns(lists: seq<(int, seq<Report>)>, start: Instant, end: Instant): seq<Report>
  {
    if lists == [] then []
    else
      var n := |lists| - 1;
      AllRuns(lists[..n], start, end) + Filter(lists[n].1, Within(start, end))
  }

  lemma TallyConcat(t: Tally, a: seq<Report>, u: Tally, b: seq<Report>)
    requires IsTally(t, a) && IsTally(u, b)
    ensures IsTally(Plus(t, u), a + b)
  {
    forall o | o != Error ensures Column(Plus(t, u), o) == CountOf(a + b, o) {
      CountConcat(a, b, o);
    }
  }

  function RunsIn(summaries: seq<Summary>): int
  {
    Sum(summaries, (s: Summary) => s.runs)
  }

  /** A summary is right about its execution's reports, and is listed only if there were any. */
  ghost predicate SummaryOk(s: Summary, lists: seq<(int, seq<Report>)>, start: Instant, end: Instant)
  {
    exists i :: 0 <= i < |lists| && lists[i].0 == s.execution
                && s.runs == |Filter(lists[i].1, Within(start, end))| > 0 && WorstOf(s.worst, Filter(lists[i].1, Within(start, end)))
  }

  /** The counts of a digest over these lists. */
  ghost predicate Built(total: int, byOutcome: Tally, executions: seq<Summary>, runs: seq<Report>)
  {
    total == |runs| && total == RunsIn(executions) && IsTally(byOutcome, runs)
  }

  /** The executions with runs in the window, in order, with their number of runs. */
  function Busy(lists: seq<(int, seq<Report>)>, start: Instant, end: Instant): seq<(int, int)>
  {
    if lists == [] then []
    else
      var n := |lists| - 1;
      var runs := |Filter(lists[n].1, Within(start, end))|;
      Busy(lists[..n], start, end) + if runs > 0 then [(lists[n].0, runs)] else []
  }

  function Named(executions: seq<Summary>): seq<(int, int)>
  {
    seq(|executions|, k requires 0 <= k < |executions| => (executions[k].execution, executions[k].runs))
  }

  lemma BusySnoc(lists: seq<(int, seq<Report>)>, i: nat, start: Instant, end: Instant, executions: seq<Summary>, s: Summary)
    requires i < |lists| && Named(executions) == Busy(lists[..i], start, end)
    requires s.execution == lists[i].0 && s.runs == |Filter(lists[i].1, Within(start, end))|
    ensures Named(if s.runs > 0 then executions + [s] else executions) == Busy(lists[..i + 1], start, end)
  {
    assert lists[..i + 1][..i] == lists[..i];
    if s.runs > 0 {
      assert Named(executions + [s]) == Named(executions) + [(s.execution, s.runs)];
    } else {
      assert Busy(lists[..i], start, end) + [] == Busy(lists[..i], start, end);
    }
  }

  lemma AllRunsSnoc(lists: seq<(int, seq<Report>)>, i: nat, start: Instant, end: Instant)
    requires i < |lists|
    ensures AllRuns(lists[..i + 1], start, end) == AllRuns(lists[..i], start, end) + Filter(lists[i].1, Within(start, end))
  {
    assert lists[..i + 1][..i] == lists[..i];
  }

  lemma BuiltNext(total: int, byOutcome: Tally, executions: seq<Summary>, runs: seq<Report>, s: Summary, t: Tally, more: seq<Report>)
    requires Built(total, byOutcome, executions, runs) && SummedUp(s, t, more)
    ensures Built(total + s.runs, Plus(byOutcome, t), if s.runs > 0 then executions + [s] else executions, runs + more)
  {
    TallyConcat(byOutcome, runs, t, more);
    SumConcat(executions, [s], (x: Summary) => x.runs);
    assert RunsIn([s]) == s.runs;
  }

  ghost predicate AllOk(executions: seq<Summary>, lists: seq<(int, seq<Report>)>, start: Instant, end: Instant)
  {
    forall k :: 0 <= k < |executions| ==> SummaryOk(executions[k], lists, start, end)
  }

  lemma AllOkSnoc(executions: seq<Summary>, lists: seq<(int, seq<Report>)>, i: nat, start: Instant, end: Instant, s: Summary, t: Tally)
    requires i < |lists| && AllOk(executions, lists, start, end)
    requires s.execution == lists[i].0 && SummedUp(s, t, Filter(lists[i].1, Within(start, end)))
    ensures AllOk(if s.runs > 0 then executions + [s] else executions, lists, start, end)
  {
    if s.runs > 0 {
      assert SummaryOk(s, lists, start, end);
    }
  }

  /** The digest's counts: the total is the number of runs in the window and the
      sum over the listed executions, which are exactly those with runs. */
  method BuildDigest(lists: seq<(int, seq<Report>)>, start: Instant, end: Instant)
    returns (total: int, byOutcome: Tally, executions: seq<Summary>)
    ensures total == |AllRuns(lists, start, end)| && total == RunsIn(executions)
    ensures IsTally(byOutcome, AllRuns(lists, start, end))
    ensures byOutcome.passed == CountOf(AllRuns(lists, start, end), Passed) && byOutcome.failed == CountOf(AllRuns(lists, start, end), Failed)
    ensures byOutcome.aborted == CountOf(AllRuns(lists, start, end), Aborted)
    ensures Named(executions) == Busy(lists, start, end)
    ensures AllOk(executions, lists, start, end)
  {
    total, byOutcome, executions := 0, Tally(0, 0, 0), [];
    for i := 0 to |lists|
      invariant Built(total, byOutcome, executions, AllRuns(lists[..i], start, end))
      invariant Named(executions) == Busy(lists[..i], start, end)
      invariant AllOk(executions, lists, start, end)
    {
      var s, t := SummariseExecution(lists[i].0, lists[i].1, start, end);
      AllRunsSnoc(lists, i, start, end);
      BusySnoc(lists, i, start, end, executions, s);
      AllOkSnoc(executions, lists, i, start, end, s, t);
      BuiltNext(total, byOutcome, executions, AllRuns(lists[..i], start, end), s, t, Filter(lists[i].1, Within(start, end)));
      total, byOutcome := total + s.runs, Plus(byOutcome, t);
      executions := if s.runs > 0 then executions + [s] else executions;
    }
    assert lists[..|lists|] == lists;
    TallyUnique(byOutcome, AllRuns(lists, start, end));
  }

  /** The per-outcome counts add up to the total exactly when no run ended in
      error: an error has no column of its own. */
  lemma {:induction false} ColumnsMissErrors(reps: seq<Report>)
    ensures CountOf(reps, Passed) + CountOf(reps, Failed) + CountOf(reps, Aborted) == |reps| - CountOf(reps, Error)
    ensures CountOf(reps, Error) >= 0
    ensures CountOf(reps, Error) == 0 <==> forall i :: 0 <= i < |reps| ==> reps[i].outcome != Error
  {
    if reps != [] {
      var n := |reps| - 1;
      var before := reps[..n];
      assert reps == before + [reps[n]];
      ColumnsMissErrors(before);
      CountSnoc(before, reps[n], Passed);
      CountSnoc(before, reps[n], Failed);
      CountSnoc(before, reps[n], Aborted);
      CountSnoc(before, reps[n], Error);
      match reps[n].outcome case Passed => case Aborted => case Failed => case Error =>
      if reps[n].outcome == Error {
        assert reps[n].outcome == Error;
      }
      assert forall i :: 0 <= i < n ==> reps[i] == before[i];
    }
  }

  // ------------------------------------------------------------------
  // Listing by execution: the digest reads each execution's reports in turn.

  /** All the reports of these lists. */
  function Flat(lists: seq<(int, seq<Report>)>): seq<Report>
  {
    if lists == [] then [] else Flat(lists[..|lists| - 1]) + lists[|lists| - 1].1
  }

  /** The stored reports listed execution by execution, in whatever order. */
  ghost predicate Groups(lists: seq<(int, seq<Report>)>, reports: seq<Report>)
  {
    && (forall i, r :: 0 <= i < |lists| && r in lists[i].1 ==> r.execution == lists[i].0)
    && multiset(Flat(lists)) == multiset(reports)
  }

  lemma {:induction false} AllRunsFlat(lists: seq<(int, seq<Report>)>, start: Instant, end: Instant)
    ensures AllRuns(lists, start, end) == Filter(Flat(lists), Within(start, end))
    decreases |lists|
  {
    if lists != [] {
      var n := |lists| - 1;
      AllRunsFlat(lists[..n], start, end);
      FilterConcat(Flat(lists[..n]), lists[n].1, Within(start, end));
    }
  }

  lemma {:induction false} CountIsSum(reps: seq<Report>, o: Outcome)
    ensures CountOf(reps, o) == Sum(reps, Ended(o))
  {
    if reps != [] {
      CountIsSum(reps[1..], o);
    }
  }

  function Ended(o: Outcome): Report -> int
  {
    (r: Report) => if r.outcome == o then 1 else 0
  }

  lemma CountPermutes(a: seq<Report>, b: seq<Report>, o: Outcome)
    requires multiset(a) == multiset(b)
    ensures CountOf(a, o) == CountOf(b, o)
  {
    CountIsSum(a, o);
    CountIsSum(b, o);
    SumPermutation(a, b, Ended(o));
  }

  /** What a digest counts does not depend on how the reports are listed: its
      total and its columns are those of the stored reports of the window. */
  lemma ListingIrrelevant(lists: seq<(int, seq<Report>)>, reports: seq<Report>, start: Instant, end: Instant)
    requires Groups(lists, reports)
    ensures |AllRuns(lists, start, end)| == |Filter(reports, Within(start, end))|
    ensures TallyOf(AllRuns(lists, start, end)) == TallyOf(Filter(reports, Within(start, end)))
  {
    var listed, stored := AllRuns(lists, start, end), Filter(reports, Within(start, end));
    AllRunsFlat(lists, start, end);
    forall r ensures multiset(listed)[r] == multiset(stored)[r] {
      FilterOccurs(Flat(lists), Within(start, end), r);
      FilterOccurs(reports, Within(start, end), r);
    }
    assert multiset(listed) == multiset(stored);
    assert |multiset(listed)| == |listed| && |multiset(stored)| == |stored|;
    CountPermutes(listed, stored, Passed);
    CountPermutes(listed, stored, Failed);
    CountPermutes(listed, stored, Aborted);
  }

  // ------------------------------------------------------------------
  // Firing: windows over time, for one project and period.

  /** A stored digest: its window, how many reports were stored when it fired, and its counts. */
  datatype Row = Row(start: Instant, end: Instant, known: nat, total: int, byOutcome: Tally)

  datatype World = World(now: Instant, reports: seq<Report>, rows: seq<Row>)

  datatype Step =
    | StoreReport(report: Report)
    | Fire(now: Instant, builds: bool)

  /** Report ids are unique; fire times do not go backwards. */
  ghost predicate Enabled(x: World, s: Step)
  {
    match s
    case StoreReport(r) => forall i :: 0 <= i < |x.reports| ==> x.reports[i].runId != r.runId
    case Fire(now, _) => now >= x.now
  }

  /** The window continues from the last stored digest, or reaches back one period. */
  function WindowStart(x: World, p: Period, now: Instant): Instant
  {
    if x.rows == [] then now - Length(p) else x.rows[|x.rows| - 1].end
  }

  function After(x: World, p: Period, s: Step): World
  {
    match s
    case StoreReport(r) => x.(reports := x.reports + [r])
    case Fire(now, builds) =>
      if !builds then x.(now := now)
      else
        var start := WindowStart(x, p, now);
        var runs := Filter(x.reports, Within(start, now));
        x.(now := now, rows := x.rows + [Row(start, now, |x.reports|, |runs|, TallyOf(runs))])
  }

  /** Stored windows abut, run forward, and end no later than now. */
  ghost predicate Tiled(x: World)
  {
    && (forall i :: 0 <= i < |x.rows| ==> x.rows[i].start <= x.rows[i].end <= x.now)
    && (forall i :: 0 < i < |x.rows| ==> x.rows[i].start == x.rows[i - 1].end)
  }

  /** The reports a stored digest counted: those stored when it fired that started in its window. */
  ghost function Counted(reports: seq<Report>, row: Row): seq<Report>
    requires row.known <= |reports|
  {
    Filter(reports[..row.known], Within(row.start, row.end))
  }

  ghost predicate CountsKnown(x: World)
  {
    forall i :: 0 <= i < |x.rows| ==>
      && x.rows[i].known <= |x.reports|
      && x.rows[i].total == |Counted(x.reports, x.rows[i])|
      && x.rows[i].byOutcome == TallyOf(Counted(x.reports, x.rows[i]))
  }

  ghost predicate UniqueRuns(x: World)
  {
    forall i, j :: 0 <= i < j < |x.reports| ==> x.reports[i].runId != x.reports[j].runId
  }

  ghost predicate Inv(x: World)
  {
    Tiled(x) && CountsKnown(x) && UniqueRuns(x)
  }

  lemma StoreKeepsCounts(x: World, r: Report)
    requires CountsKnown(x)
    ensures CountsKnown(x.(reports := x.reports + [r]))
  {
    var reports := x.reports + [r];
    forall i | 0 <= i < |x.rows| ensures Counted(reports, x.rows[i]) == Counted(x.reports, x.rows[i]) {
      assert reports[..x.rows[i].known] == x.reports[..x.rows[i].known];
    }
  }

  lemma FireKeepsCounts(x: World, p: Period, now: Instant)
    requires CountsKnown(x)
    ensures CountsKnown(After(x, p, Fire(now, true)))
  {
    assert x.reports[..|x.reports|] == x.reports;
  }

  lemma FireKeepsTiled(x: World, p: Period, now: Instant)
    requires Tiled(x) && now >= x.now
    ensures Tiled(After(x, p, Fire(now, true)))
  {
    var n := |x.rows|;
    if n > 0 {
      assert x.rows[n - 1].end <= x.now;
    }
  }

  lemma StepKeeps(x: World, p: Period, s: Step)
    requires Inv(x) && Enabled(x, s)
    ensures Inv(After(x, p, s))
  {
    match s {
      case StoreReport(r) => StoreKeepsCounts(x, r);
      case Fire(now, builds) =>
        if builds {
          FireKeepsTiled(x, p, now);
          FireKeepsCounts(x, p, now);
        }
    }
  }

  function Play(x: World, p: Period, steps: seq<Step>): World
    decreases |steps|
  {
    if steps == [] then x else Play(After(x, p, steps[0]), p, steps[1..])
  }

  ghost predicate Runs(x: World, p: Period, steps: seq<Step>)
    decreases |steps|
  {
    steps != [] ==> Enabled(x, steps[0]) && Runs(After(x, p, steps[0]), p, steps[1..])
  }

  lemma {:induction false} PlayKeeps(x: World, p: Period, steps: seq<Step>)
    requires Inv(x) && Runs(x, p, steps)
    ensures Inv(Play(x, p, steps))
    ensures x.rows <= Play(x, p, steps).rows && x.reports <= Play(x, p, steps).reports
    decreases |steps|
  {
    if steps != [] {
      StepKeeps(x, p, steps[0]);
      PlayKeeps(After(x, p, steps[0]), p, steps[1..]);
    }
  }

  lemma {:induction false} Ordered(x: World, i: nat, j: nat)
    requires Tiled(x) && i < j < |x.rows|
    ensures x.rows[i].end <= x.rows[j].start
    decreases j - i
  {
    if i + 1 < j {
      Ordered(x, i, j - 1);
    }
  }

  /** Over every history of stored reports and fires, some of whose builds
      failed: the stored windows tile time without gap or overlap, and no report
      is counted by two digests. */
  lemma WindowsTile(x: World, p: Period, steps: seq<Step>, i: nat, j: nat, r: Report)
    requires x.rows == [] && x.reports == [] && Runs(x, p, steps)
    requires i < j < |Play(x, p, steps).rows|
    ensures var x' := Play(x, p, steps);
            && x'.rows[i].end <= x'.rows[j].start
            && x'.rows[i + 1].start == x'.rows[i].end
            && x'.rows[i].known <= |x'.reports| && x'.rows[j].known <= |x'.reports|
            && !(r in Counted(x'.reports, x'.rows[i]) && r in Counted(x'.reports, x'.rows[j]))
  {
    PlayKeeps(x, p, steps);
    Ordered(Play(x, p, steps), i, j);
  }

  /** The first digest reaches back one day or one week, to the second. */
  ghost predicate FirstWindowOk(x: World, p: Period)
  {
    x.rows != [] ==> x.rows[0].end - x.rows[0].start == match p case Daily => 86_400 case Weekly => 604_800
  }

  /** Over every history, whatever failed before it: the first stored window is one
      period long, and every later one begins where the one before it ends. */
  lemma {:induction false} FirstWindow(x: World, p: Period, steps: seq<Step>)
    requires FirstWindowOk(x, p)
    ensures FirstWindowOk(Play(x, p, steps), p)
    decreases |steps|
  {
    if steps != [] {
      FirstWindow(After(x, p, steps[0]), p, steps[1..]);
    }
  }

  /** Every instant from the first window to the last falls in just one window. */
  lemma {:induction false} Covered(x: World, t: Instant) returns (i: nat)
    requires Tiled(x) && x.rows != [] && x.rows[0].start <= t < x.rows[|x.rows| - 1].end
    ensures i < |x.rows| && x.rows[i].start <= t < x.rows[i].end
    decreases |x.rows|
  {
    var n := |x.rows| - 1;
    if x.rows[n].start <= t {
      i := n;
    } else {
      var before := x.(rows := x.rows[..n]);
      i := Covered(before, t);
    }
  }

  /** A report of the tiled span is counted exactly once if it was stored when
      the digest covering its start fired, and otherwise never: not by that
      digest, nor by any later one. */
  lemma CountedIffKnownInTime(x: World, p: Period, steps: seq<Step>, k: nat, i: nat)
    requires x.rows == [] && x.reports == [] && Runs(x, p, steps)
    requires k < |Play(x, p, steps).reports| && i < |Play(x, p, steps).rows|
    requires Play(x, p, steps).rows[i].start <= Play(x, p, steps).reports[k].started < Play(x, p, steps).rows[i].end
    ensures CountsKnown(Play(x, p, steps))
    ensures var x' := Play(x, p, steps); x'.reports[k] in Counted(x'.reports, x'.rows[i]) <==> k < x'.rows[i].known
    ensures var x' := Play(x, p, steps);
            forall j :: 0 <= j < |x'.rows| && j != i ==> x'.reports[k] !in Counted(x'.reports, x'.rows[j])
  {
    PlayKeeps(x, p, steps);
    var x' := Play(x, p, steps);
    var r := x'.reports[k];
    var known := x'.reports[..x'.rows[i].known];
    assert k < x'.rows[i].known ==> known[k] == r;
    assert r in known ==> k < x'.rows[i].known by {
      if r in known {
        var m :| 0 <= m < |known| && known[m] == r;
        assert x'.reports[m].runId == x'.reports[k].runId;
      }
    }
    forall j | 0 <= j < |x'.rows| && j != i ensures r !in Counted(x'.reports, x'.rows[j]) {
      Ordered(x', if i < j then i else j, if i < j then j else i);
    }
  }

  // ------------------------------------------------------------------
  // Adding up: the totals of all stored digests.

  /** The reports among the first `m` that satisfy `p`, by position. */
  ghost function Places(reports: seq<Report>, m: nat, p: Report -> bool): set<int>
  {
    set k | 0 <= k < m && k < |reports| && p(reports[k])
  }

  lemma PlacesSnoc(reports: seq<Report>, m: nat, p: Report -> bool)
    requires m < |reports|
    ensures |Places(reports, m + 1, p)| == |Places(reports, m, p)| + if p(reports[m]) then 1 else 0
  {
    var before := Places(reports, m, p);
    if p(reports[m]) {
      assert Places(reports, m + 1, p) == before + {m};
    } else {
      assert Places(reports, m + 1, p) == before;
    }
  }

  lemma FilterLengthSnoc(reports: seq<Report>, m: nat, p: Report -> bool)
    requires m < |reports|
    ensures |Filter(reports[..m + 1], p)| == |Filter(reports[..m], p)| + if p(reports[m]) then 1 else 0
  {
    FilterSnoc(reports, m, p);
  }

  lemma PlacesCount(reports: seq<Report>, m: nat, p: Report -> bool)
    requires m <= |reports|
    ensures |Places(reports, m, p)| == |Filter(reports[..m], p)|
  {
    assert Places(reports, 0, p) == {};
    for i := 0 to m
      invariant |Places(reports, i, p)| == |Filter(reports[..i], p)|
    {
      PlacesSnoc(reports, i, p);
      FilterLengthSnoc(reports, i, p);
    }
  }

  ghost function PlacesOf(x: World, i: nat): set<int>
    requires i < |x.rows|
  {
    Places(x.reports, x.rows[i].known, Within(x.rows[i].start, x.rows[i].end))
  }

  /** The reports, by position, that one of the first `n` digests counted. */
  ghost function Held(x: World, n: nat): set<int>
    requires n <= |x.rows|
  {
    if n == 0 then {} else Held(x, n - 1) + PlacesOf(x, n - 1)
  }

  lemma {:induction false} HeldBy(x: World, n: nat, k: int) returns (i: nat)
    requires n <= |x.rows| && k in Held(x, n)
    ensures i < n && k in PlacesOf(x, i)
  {
    if k in PlacesOf(x, n - 1) {
      i := n - 1;
    } else {
      i := HeldBy(x, n - 1, k);
    }
  }

  lemma {:induction false} HeldHas(x: World, n: nat, i: nat)
    requires i < n <= |x.rows|
    ensures PlacesOf(x, i) <= Held(x, n)
  {
    if i < n - 1 {
      HeldHas(x, n - 1, i);
    }
  }

  function Totals(rows: seq<Row>): int
  {
    Sum(rows, (row: Row) => row.total)
  }

  lemma {:induction false} TotalsHeld(x: World, n: nat)
    requires n <= |x.rows| && Inv(x)
    ensures Totals(x.rows[..n]) == |Held(x, n)|
    decreases n
  {
    if n > 0 {
      TotalsHeld(x, n - 1);
      SumSnoc(x.rows, n - 1, (row: Row) => row.total);
      PlacesCount(x.reports, x.rows[n - 1].known, Within(x.rows[n - 1].start, x.rows[n - 1].end));
      var before, last := Held(x, n - 1), PlacesOf(x, n - 1);
      forall k | k in before ensures k !in last {
        var i := HeldBy(x, n - 1, k);
        Ordered(x, i, n - 1);
      }
    }
  }

  /** The reports, by position, that started in the span of all stored windows. */
  ghost function InSpan(x: World): set<int>
    requires x.rows != []
  {
    set k | 0 <= k < |x.reports| && x.rows[0].start <= x.reports[k].started < x.rows[|x.rows| - 1].end
  }

  /** Every report of a window was stored when its digest fired. */
  ghost predicate AllInTime(x: World)
  {
    forall i, k :: 0 <= i < |x.rows| && 0 <= k < |x.reports| && x.rows[i].start <= x.reports[k].started < x.rows[i].end
      ==> k < x.rows[i].known
  }

  lemma HeldInSpan(x: World)
    requires Inv(x) && x.rows != []
    ensures Held(x, |x.rows|) <= InSpan(x)
  {
    forall k | k in Held(x, |x.rows|) ensures k in InSpan(x) {
      var i := HeldBy(x, |x.rows|, k);
      if i > 0 {
        Ordered(x, 0, i);
      }
      if i < |x.rows| - 1 {
        Ordered(x, i, |x.rows| - 1);
      }
    }
  }

  lemma SpanHeldIff(x: World)
    requires Inv(x) && x.rows != []
    ensures InSpan(x) <= Held(x, |x.rows|) <==> AllInTime(x)
  {
    if AllInTime(x) {
      forall k | k in InSpan(x) ensures k in Held(x, |x.rows|) {
        var i := Covered(x, x.reports[k].started);
        HeldHas(x, |x.rows|, i);
      }
    }
    if InSpan(x) <= Held(x, |x.rows|) {
      forall i, k | 0 <= i < |x.rows| && 0 <= k < |x.reports| && x.rows[i].start <= x.reports[k].started < x.rows[i].end
        ensures k < x.rows[i].known
      {
        InSpanOf(x, i, k);
        var j := HeldBy(x, |x.rows|, k);
        if j != i {
          Ordered(x, if i < j then i else j, if i < j then j else i);
        }
      }
    }
  }

  lemma InSpanOf(x: World, i: nat, k: nat)
    requires Tiled(x) && i < |x.rows| && k < |x.reports| && x.rows[i].start <= x.reports[k].started < x.rows[i].end
    ensures k in InSpan(x)
  {
    if i > 0 {
      Ordered(x, 0, i);
    }
    if i < |x.rows| - 1 {
      Ordered(x, i, |x.rows| - 1);
    }
  }

  lemma SubsetSize(a: set<int>, b: set<int>)
    requires a <= b
    ensures |a| <= |b| && (|a| == |b| <==> b <= a)
  {
    assert b == a + (b - a);
  }

  /** The totals of all stored digests add up to the reports that were counted,
      each once: never more than the reports of the span, and all of them
      exactly when none was stored too late for its window. */
  lemma TotalsAddUp(x: World, p: Period, steps: seq<Step>)
    requires x.rows == [] && x.reports == [] && Runs(x, p, steps)
    requires Play(x, p, steps).rows != []
    ensures var x' := Play(x, p, steps);
            && Totals(x'.rows) == |Held(x', |x'.rows|)| <= |InSpan(x')|
            && (Totals(x'.rows) == |InSpan(x')| <==> AllInTime(x'))
  {
    PlayKeeps(x, p, steps);
    var x' := Play(x, p, steps);
    TotalsHeld(x', |x'.rows|);
    assert x'.rows[..|x'.rows|] == x'.rows;
    HeldInSpan(x');
    SpanHeldIff(x');
    SubsetSize(Held(x', |x'.rows|), InSpan(x'));
  }

  // ------------------------------------------------------------------
  // The service: store first, then try to deliver.

  datatype Delivery = Delivered | Lost | NothingToNotify
  datatype Status = StatusPending | StatusDelivered | StatusFailed

  /** What a delivery is recorded as; nothing to notify is not a failure. */
  function StatusOf(d: Delivery): Status
  {
    match d
    case Delivered => StatusDelivered
    case Lost => StatusFailed
    case NothingToNotify => StatusPending
  }

  class DigestService {
    var world: World
    var status: seq<Status>

    ghost predicate Valid()
      reads this
    {
      |status| == |world.rows|
    }

    constructor ()
      ensures Valid() && world == World(0, [], []) && status == []
    {
      world, status := World(0, [], []), [];
    }

    /** Build a window from the reports as they are listed and store it, then
        deliver what was stored. A build that fails stores nothing; a delivery
        that fails loses nothing, and shows on the row, unless writing that down
        fails too: then the row stays pending, delivered or not. */
    method Fire(p: Period, now: Instant, builds: bool, lists: seq<(int, seq<Report>)>, delivery: Delivery, marks: bool)
      returns (stored: bool)
      requires Valid() && Groups(lists, world.reports)
      modifies this
      ensures Valid() && world == After(old(world), p, Step.Fire(now, builds))
      ensures stored == builds
      ensures !stored ==> status == old(status)
      ensures stored ==> |status| == |old(status)| + 1 && status[..|old(status)|] == old(status)
      ensures stored ==> (status[|old(status)|] == StatusDelivered <==> marks && delivery == Delivered)
      ensures stored ==> (status[|old(status)|] == StatusFailed <==> marks && delivery == Lost)
    {
      var start := WindowStart(world, p, now);
      if !builds {
        world := world.(now := now);
        return false;
      }
      var total, byOutcome, executions := BuildDigest(lists, start, now);
      TallyUnique(byOutcome, AllRuns(lists, start, now));
      ListingIrrelevant(lists, world.reports, start, now);
      world := world.(now := now, rows := world.rows + [Row(start, now, |world.reports|, total, byOutcome)]);
      status := status + [StatusPending];
      if delivery != NothingToNotify && marks {
        status := status[|status| - 1 := StatusOf(delivery)];
      }
      stored := true;
    }
  }
}
