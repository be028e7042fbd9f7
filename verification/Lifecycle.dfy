/** The life of a run: deploy, trigger, ingest, stop, purge, reap and the
    sweeps all touch one run marker per execution, one report slot per run, the
    orphaned completions and the working state. Each use case is one atomic
    step here; `Finalisers` takes finalisation apart. */
module Lifecycle {
  import opened Common
  import opened Outcomes
  import opened Progress
  import opened Completion

  datatype Execution = Execution(profile: Profile, fanOut: seq<string>, cluster: string)

  /** A run's history row. Clearing the marker stamps the end. */
  datatype RunRow = RunRow(execution: int, started: Instant, ended: bool)

  datatype Report = Report(execution: int, outcome: Outcome, log: seq<(ShardKey, Interval)>)

  /** A finished pod whose last push found no open run. The cluster is not part of its identity. */
  datatype Pod = Pod(scenarioId: int, shardIndex: int)

  datatype Store = Store(
    executions: map<int, Execution>,
    marker: map<int, int>,                  // execution -> open run
    history: map<int, RunRow>,
    nextRun: int,
    reports: map<int, Report>,              // run -> the first report saved
    graded: set<int>,                       // runs whose thresholds were evaluated
    orphans: map<int, map<Pod, Option<int>>>,
    progress: map<int, Work>)

  // ------------------------------------------------------------------
  // Store calls.

  function StartRun(s: Store, e: int, now: Instant): (t: Store)
    ensures s.history.Keys <= t.history.Keys && t.executions == s.executions
  {
    if e in s.marker then s
    else s.(marker := s.marker[e := s.nextRun],
            history := s.history[s.nextRun := RunRow(e, now, false)],
            nextRun := s.nextRun + 1)
  }

  function StopRun(s: Store, e: int): (t: Store)
    ensures s.history.Keys <= t.history.Keys && t.executions == s.executions
  {
    if e !in s.marker then s
    else
      var r := s.marker[e];
      s.(marker := s.marker - {e},
         history := if r in s.history then s.history[r := s.history[r].(ended := true)] else s.history)
  }

  function Working(s: Store, r: int): Work
  {
    if r in s.progress then s.progress[r] else Empty
  }

  function RecordOrphan(s: Store, e: int, pod: Pod, exit: Option<int>): Store
  {
    var known := if e in s.orphans then s.orphans[e] else map[];
    s.(orphans := s.orphans[e := known[pod := exit]])
  }

  function ClearOrphans(s: Store, e: int): Store
  {
    s.(orphans := s.orphans - {e})
  }

  // ------------------------------------------------------------------
  // Finalisation, as one step.

  /** Which calls of a finalise succeed: the look for a stored report, whose
      failure only reads as "none"; everything else up to and including the
      save; the grading; the discard; and closing the marker. */
  datatype Luck = Luck(looks: bool, saves: bool, grades: bool, discards: bool, closes: bool)

  /** Which calls of a teardown succeed: those before finalising, whose failure
      returns early; reading the marker, without which nothing is finalised;
      and clearing the marker. */
  datatype Path = Path(prepares: bool, finds: bool, stops: bool)

  /** A finalise gets through when every call does; grading is needed only if no stored report is seen. */
  predicate GetsThrough(luck: Luck, stored: bool)
  {
    luck.saves && ((luck.looks && stored) || luck.grades) && luck.discards && luck.closes
  }

  /** Clear the marker when, and only when, it still names the run being finalised. */
  function CloseRun(s: Store, e: int, r: int): (t: Store)
    ensures s.history.Keys <= t.history.Keys && t.executions == s.executions
  {
    if e in s.marker && s.marker[e] == r then StopRun(s, e) else s
  }

  function SaveReport(s: Store, r: int, rep: Report): (t: Store)
    ensures s.history.Keys <= t.history.Keys && t.executions == s.executions
  {
    if r in s.reports then s else s.(reports := s.reports[r := rep])
  }

  /** The state a finalise leaves, and whether it returned without error. */
  function Finalised(s: Store, e: int, r: int, o: Outcome, luck: Luck): (result: (Store, bool))
    ensures s.history.Keys <= result.0.history.Keys && result.0.executions == s.executions
  {
    if r !in s.history || e !in s.executions || !luck.saves then (s, false)
    else
      var already := luck.looks && r in s.reports;
      var saved := SaveReport(s, r, Report(e, o, Working(s, r).log));
      if !already && !luck.grades then (saved, false)
      else
        Concluded(if already then saved else saved.(graded := saved.graded + {r}), e, r, luck)
  }

  /** The end of a finalise: the working state goes, then the marker. */
  function Concluded(s: Store, e: int, r: int, luck: Luck): (result: (Store, bool))
    ensures s.history.Keys <= result.0.history.Keys && result.0.executions == s.executions
    ensures result.0.orphans == s.orphans && result.0.reports == s.reports && result.0.graded == s.graded
    ensures result.0.nextRun == s.nextRun && result.0.marker.Keys <= s.marker.Keys
  {
    if !luck.discards then (s, false)
    else
      var dropped := s.(progress := s.progress - {r});
      if !luck.closes then (dropped, false) else (CloseRun(dropped, e, r), true)
  }

  /** The run is finalised as best it can, whatever comes of that, and then the marker is cleared. */
  function Teardown(s: Store, e: int, o: Outcome, luck: Luck, path: Path): (t: Store)
    ensures s.history.Keys <= t.history.Keys && t.executions == s.executions
  {
    if !path.prepares then s
    else
      var f := if e in s.marker && path.finds then Finalised(s, e, s.marker[e], o, luck).0 else s;
      if path.stops then StopRun(f, e) else f
  }

  predicate Completes(s: Store, e: int, r: int)
  {
    && e in s.executions
    && var x := s.executions[e];
    && Engines(x.profile) != 0
    && |FinishedKeys(Working(s, r).shards)| >= Engines(x.profile) * |Clusters(x.fanOut, x.cluster)|
  }

  // ------------------------------------------------------------------
  // Use cases.

  datatype Step =
    | Deploy(e: int, clears: bool)
    | Trigger(e: int, now: Instant, admitted: bool, marked: bool)
    | Ingest(e: int, batch: Batch, outcome: Outcome, luck: Luck)
    | Stop(e: int, outcome: Outcome, luck: Luck, path: Path)
    | Purge(e: int, outcome: Outcome, luck: Luck, path: Path)
    | Reap(e: int, idle: bool)
    | Reconcile(e: int, outcome: Outcome, luck: Luck)
    | Sweep(e: int, aged: bool, pods: nat, outcome: Outcome, luck: Luck)
    | Finalise(e: int, r: int, outcome: Outcome, luck: Luck)

  /** `clears`: every call up to and including the clearing of the orphans works. */
  function Deployed(s: Store, e: int, clears: bool): (t: Store)
    ensures s.history.Keys <= t.history.Keys && t.executions == s.executions
  {
    if e !in s.executions || s.executions[e].profile == [] || e in s.marker || !clears then s
    else ClearOrphans(s, e)
  }

  predicate HasOrphans(s: Store, e: int)
  {
    e in s.orphans && s.orphans[e] != map[]
  }

  /** `admitted`: readiness, test files, freeze and quota all agreed. `marked`: some scenario could be marked running. */
  function Triggered(s: Store, e: int, now: Instant, admitted: bool, marked: bool): (t: Store)
    ensures s.history.Keys <= t.history.Keys && t.executions == s.executions
  {
    if e !in s.executions || !admitted || e in s.marker || HasOrphans(s, e) then s
    else
      var begun := StartRun(s, e, now);
      if marked then begun else StopRun(begun, e)
  }

  function Ingested(s: Store, e: int, batch: Batch, o: Outcome, luck: Luck): (t: Store)
    ensures s.history.Keys <= t.history.Keys && t.executions == s.executions
  {
    if e !in s.marker then
      if batch.final then RecordOrphan(s, e, Pod(batch.key.scenarioId, batch.key.shardIndex), batch.exitCode) else s
    else
      var r := s.marker[e];
      var b := batch.(runId := r);
      if batch.runId != 0 && batch.runId != r then s
      else if Validate(b).Some? then s
      else
        var absorbed := s.(progress := s.progress[r := Absorbed(Working(s, r), b)]);
        if batch.final && Completes(absorbed, e, r) then Finalised(absorbed, e, r, o, luck).0 else absorbed
  }

  function Reaped(s: Store, e: int, idle: bool): (t: Store)
    ensures s.history.Keys <= t.history.Keys && t.executions == s.executions
  {
    if !idle || e in s.marker then s else ClearOrphans(s, e)
  }

  /** Do the orphaned completions name every pod the profile planned? */
  predicate Covers(orphans: map<Pod, Option<int>>, profile: Profile)
  {
    && profile != []
    && forall i, k :: 0 <= i < |profile| && 0 <= k < profile[i].engines ==>
         Pod(profile[i].scenarioId, k) in orphans
  }

  /** One open run's turn in a reconcile pass. */
  function Reconciled(s: Store, e: int, o: Outcome, luck: Luck): (t: Store)
    ensures s.history.Keys <= t.history.Keys && t.executions == s.executions
  {
    if e !in s.marker || !HasOrphans(s, e) || e !in s.executions || !Covers(s.orphans[e], s.executions[e].profile) then s
    else
      var f := Finalised(s, e, s.marker[e], o, luck);
      if f.1 then StopRun(f.0, e) else f.0
  }

  /** One open run's turn in a sweep for abandoned runs. */
  function Swept(s: Store, e: int, aged: bool, pods: nat, o: Outcome, luck: Luck): (t: Store)
    ensures s.history.Keys <= t.history.Keys && t.executions == s.executions
  {
    if e !in s.marker || !aged then s
    else if s.marker[e] in s.reports then StopRun(s, e)
    else if e !in s.executions || pods > 0 then s
    else
      var f := Finalised(s, e, s.marker[e], o, luck);
      if f.1 then StopRun(f.0, e) else f.0
  }

  function Next(s: Store, step: Step): (t: Store)
    ensures s.history.Keys <= t.history.Keys && t.executions == s.executions
  {
    match step
    case Deploy(e, clears) => Deployed(s, e, clears)
    case Trigger(e, now, admitted, marked) => Triggered(s, e, now, admitted, marked)
    case Ingest(e, b, o, luck) => Ingested(s, e, b, o, luck)
    case Stop(e, o, luck, path) => if e in s.marker then Teardown(s, e, o, luck, path) else s
    case Purge(e, o, luck, path) => if e in s.executions then Teardown(s, e, o, luck, path) else s
    case Reap(e, idle) => Reaped(s, e, idle)
    case Reconcile(e, o, luck) => Reconciled(s, e, o, luck)
    case Sweep(e, aged, pods, o, luck) => Swept(s, e, aged, pods, o, luck)
    case Finalise(e, r, o, luck) => Finalised(s, e, r, o, luck).0
  }

  function Play(s: Store, steps: seq<Step>): Store
    decreases |steps|
  {
    if steps == [] then s else Play(Next(s, steps[0]), steps[1..])
  }

  // ------------------------------------------------------------------
  // Invariants.

  /** Markers and unfinished history rows name each other. */
  ghost predicate MarkersOk(s: Store)
  {
    && (forall e :: e in s.marker ==> s.marker[e] in s.history && s.history[s.marker[e]] == RunRow(e, s.history[s.marker[e]].started, false))
    && (forall r :: r in s.history && !s.history[r].ended ==> s.history[r].execution in s.marker && s.marker[s.history[r].execution] == r)
    && (forall r :: r in s.history ==> r < s.nextRun)
  }

  /** An execution with an open run has no orphaned completions. */
  ghost predicate OpenHasNoOrphans(s: Store)
  {
    forall e :: e in s.marker ==> !HasOrphans(s, e)
  }

  ghost predicate Inv(s: Store)
  {
    && MarkersOk(s)
    && OpenHasNoOrphans(s)
    && s.reports.Keys <= s.history.Keys
    && s.graded <= s.reports.Keys
  }

  lemma StopRunKeeps(s: Store, e: int)
    requires Inv(s)
    ensures Inv(StopRun(s, e))
  {
  }

  lemma FinalisedKeeps(s: Store, e: int, r: int, o: Outcome, luck: Luck)
    requires Inv(s)
    ensures Inv(Finalised(s, e, r, o, luck).0)
  {
    if r in s.history && e in s.executions && luck.saves {
      var saved := SaveReport(s, r, Report(e, o, Working(s, r).log));
      SavedKeeps(s, r, Report(e, o, Working(s, r).log));
      ConcludedKeeps(saved, e, r, luck);
      ConcludedKeeps(saved.(graded := saved.graded + {r}), e, r, luck);
    }
  }

  lemma SavedKeeps(s: Store, r: int, rep: Report)
    requires Inv(s) && r in s.history
    ensures Inv(SaveReport(s, r, rep))
    ensures var saved := SaveReport(s, r, rep); Inv(saved.(graded := saved.graded + {r}))
  {
  }

  lemma ConcludedKeeps(s: Store, e: int, r: int, luck: Luck)
    requires Inv(s)
    ensures Inv(Concluded(s, e, r, luck).0)
  {
    StopRunKeeps(s.(progress := s.progress - {r}), e);
  }

  lemma TeardownKeeps(s: Store, e: int, o: Outcome, luck: Luck, path: Path)
    requires Inv(s)
    ensures Inv(Teardown(s, e, o, luck, path))
  {
    StopRunKeeps(s, e);
    if e in s.marker {
      FinalisedKeeps(s, e, s.marker[e], o, luck);
      StopRunKeeps(Finalised(s, e, s.marker[e], o, luck).0, e);
    }
  }

  lemma TriggeredKeeps(s: Store, e: int, now: Instant, admitted: bool, marked: bool)
    requires Inv(s)
    ensures Inv(Triggered(s, e, now, admitted, marked))
  {
    if !(e !in s.executions || !admitted || e in s.marker || HasOrphans(s, e)) {
      assert s.nextRun !in s.history;
      assert Inv(StartRun(s, e, now));
      StopRunKeeps(StartRun(s, e, now), e);
    }
  }

  lemma IngestedKeeps(s: Store, e: int, batch: Batch, o: Outcome, luck: Luck)
    requires Inv(s)
    ensures Inv(Ingested(s, e, batch, o, luck))
  {
    if e in s.marker {
      var r := s.marker[e];
      var absorbed := s.(progress := s.progress[r := Absorbed(Working(s, r), batch.(runId := r))]);
      assert Inv(absorbed);
      FinalisedKeeps(absorbed, e, r, o, luck);
    }
  }

  lemma ReconciledKeeps(s: Store, e: int, o: Outcome, luck: Luck)
    requires Inv(s)
    ensures Inv(Reconciled(s, e, o, luck))
    ensures Reconciled(s, e, o, luck) == s
  {
  }

  lemma SweptKeeps(s: Store, e: int, aged: bool, pods: nat, o: Outcome, luck: Luck)
    requires Inv(s)
    ensures Inv(Swept(s, e, aged, pods, o, luck))
  {
    StopRunKeeps(s, e);
    if e in s.marker {
      FinalisedKeeps(s, e, s.marker[e], o, luck);
      StopRunKeeps(Finalised(s, e, s.marker[e], o, luck).0, e);
    }
  }

  lemma NextKeeps(s: Store, step: Step)
    requires Inv(s)
    ensures Inv(Next(s, step))
  {
    match step {
      case Deploy(e, clears) =>
      case Trigger(e, now, admitted, marked) => TriggeredKeeps(s, e, now, admitted, marked);
      case Ingest(e, b, o, luck) => IngestedKeeps(s, e, b, o, luck);
      case Stop(e, o, luck, path) => TeardownKeeps(s, e, o, luck, path);
      case Purge(e, o, luck, path) => TeardownKeeps(s, e, o, luck, path);
      case Reap(e, idle) =>
      case Reconcile(e, o, luck) => ReconciledKeeps(s, e, o, luck);
      case Sweep(e, aged, pods, o, luck) => SweptKeeps(s, e, aged, pods, o, luck);
      case Finalise(e, r, o, luck) => FinalisedKeeps(s, e, r, o, luck);
    }
  }

  ghost predicate Fresh(s: Store)
  {
    s.marker == map[] && s.history == map[] && s.reports == map[] && s.graded == {} && s.orphans == map[] && s.progress == map[]
  }

  lemma {:induction false} PlayKeeps(s: Store, steps: seq<Step>)
    requires Inv(s)
    ensures Inv(Play(s, steps))
    decreases |steps|
  {
    if steps != [] {
      NextKeeps(s, steps[0]);
      PlayKeeps(Next(s, steps[0]), steps[1..]);
    }
  }

  /** No two unfinished runs belong to one execution. */
  ghost predicate AtMostOneOpen(s: Store)
  {
    forall a, b | a in s.history && b in s.history && !s.history[a].ended && !s.history[b].ended ::
      s.history[a].execution == s.history[b].execution ==> a == b
  }

  /** Over every history: an open run has no orphans, at most one run per
      execution is unfinished, and a reconcile pass therefore finds nothing to
      close, because orphans are recorded only while no run is open. */
  lemma OpenRunsStayClean(s0: Store, steps: seq<Step>, e: int, o: Outcome, luck: Luck)
    requires Fresh(s0)
    ensures var s := Play(s0, steps);
            && (e in s.marker ==> !HasOrphans(s, e))
            && AtMostOneOpen(s)
            && Reconciled(s, e, o, luck) == s
  {
    PlayKeeps(s0, steps);
    ReconciledKeeps(Play(s0, steps), e, o, luck);
  }

  // ------------------------------------------------------------------
  // Late and retried finalisation.

  lemma FinalisedFrame(s: Store, e: int, r: int, o: Outcome, luck: Luck)
    ensures var s' := Finalised(s, e, r, o, luck).0;
            && (forall x :: x in s.reports ==> x in s'.reports && s'.reports[x] == s.reports[x])
            && (forall x :: x in s.marker && (x != e || s.marker[x] != r) ==> x in s'.marker && s'.marker[x] == s.marker[x])
  {
  }

  /** Steps that may end execution `e`'s run `r`: its own teardown or sweep, its
      own last push, its own finalise. A push that names another run is not one,
      nor is any turn of a reconcile pass. */
  predicate Touches(step: Step, e: int, r: int)
  {
    match step
    case Stop(x, _, _, _) => x == e
    case Purge(x, _, _, _) => x == e
    case Ingest(x, b, _, _) => x == e && b.final && (b.runId == 0 || b.runId == r)
    case Finalise(x, y, _, _) => x == e && y == r
    case Sweep(x, _, _, _, _) => x == e
    case _ => false
  }

  ghost predicate KeepsMarker(s: Store, s': Store, e: int)
  {
    e in s.marker ==> e in s'.marker && s'.marker[e] == s.marker[e]
  }

  lemma TeardownFrame(s: Store, x: int, o: Outcome, luck: Luck, path: Path, e: int)
    requires x != e
    ensures KeepsMarker(s, Teardown(s, x, o, luck, path), e)
  {
    if x in s.marker {
      FinalisedFrame(s, x, s.marker[x], o, luck);
    }
  }

  lemma SweptFrame(s: Store, x: int, aged: bool, pods: nat, o: Outcome, luck: Luck, e: int)
    requires x != e
    ensures KeepsMarker(s, Swept(s, x, aged, pods, o, luck), e)
  {
    if x in s.marker {
      FinalisedFrame(s, x, s.marker[x], o, luck);
    }
  }

  lemma IngestedFrame(s: Store, x: int, b: Batch, o: Outcome, luck: Luck, e: int)
    requires e in s.marker && (x != e || !b.final || (b.runId != 0 && b.runId != s.marker[e]))
    ensures KeepsMarker(s, Ingested(s, x, b, o, luck), e)
  {
    if x in s.marker {
      var r := s.marker[x];
      FinalisedFrame(s.(progress := s.progress[r := Absorbed(Working(s, r), b.(runId := r))]), x, r, o, luck);
    }
  }

  lemma NextFrame(s: Store, step: Step, e: int)
    requires Inv(s) && e in s.marker && !Touches(step, e, s.marker[e])
    ensures KeepsMarker(s, Next(s, step), e)
  {
    match step {
      case Ingest(x, b, o, luck) => IngestedFrame(s, x, b, o, luck, e);
      case Finalise(x, r, o, luck) => FinalisedFrame(s, x, r, o, luck);
      case Stop(x, o, luck, path) => TeardownFrame(s, x, o, luck, path, e);
      case Purge(x, o, luck, path) => TeardownFrame(s, x, o, luck, path, e);
      case Sweep(x, aged, pods, o, luck) => SweptFrame(s, x, aged, pods, o, luck, e);
      case Reconcile(x, o, luck) => ReconciledKeeps(s, x, o, luck);
      case _ =>
    }
  }

  /** Neither a late finalise nor a late last push of an earlier run clears a
      later run's marker: over any history, the marker survives every step but
      the run's own. */
  lemma {:induction false} LaterRunSurvives(s: Store, steps: seq<Step>, e: int)
    requires Inv(s) && e in s.marker
    requires forall i :: 0 <= i < |steps| ==> !Touches(steps[i], e, s.marker[e])
    ensures e in Play(s, steps).marker && Play(s, steps).marker[e] == s.marker[e]
    decreases |steps|
  {
    if steps != [] {
      NextFrame(s, steps[0], e);
      NextKeeps(s, steps[0]);
      LaterRunSurvives(Next(s, steps[0]), steps[1..], e);
    }
  }

  /** A report stored before is the same report. */
  ghost predicate KeepsReport(s: Store, s': Store, r: int)
  {
    r in s.reports ==> r in s'.reports && s'.reports[r] == s.reports[r]
  }

  lemma TeardownReports(s: Store, e: int, o: Outcome, luck: Luck, path: Path, r: int)
    ensures KeepsReport(s, Teardown(s, e, o, luck, path), r)
  {
    if e in s.marker {
      FinalisedFrame(s, e, s.marker[e], o, luck);
    }
  }

  lemma IngestedReports(s: Store, e: int, b: Batch, o: Outcome, luck: Luck, r: int)
    ensures KeepsReport(s, Ingested(s, e, b, o, luck), r)
  {
    if e in s.marker {
      var y := s.marker[e];
      FinalisedFrame(s.(progress := s.progress[y := Absorbed(Working(s, y), b.(runId := y))]), e, y, o, luck);
    }
  }

  lemma SweptReports(s: Store, e: int, aged: bool, pods: nat, o: Outcome, luck: Luck, r: int)
    ensures KeepsReport(s, Swept(s, e, aged, pods, o, luck), r)
  {
    if e in s.marker {
      FinalisedFrame(s, e, s.marker[e], o, luck);
    }
  }

  lemma NextReports(s: Store, step: Step, r: int)
    requires Inv(s)
    ensures KeepsReport(s, Next(s, step), r)
  {
    match step {
      case Ingest(x, b, o, luck) => IngestedReports(s, x, b, o, luck, r);
      case Finalise(x, y, o, luck) => FinalisedFrame(s, x, y, o, luck);
      case Stop(x, o, luck, path) => TeardownReports(s, x, o, luck, path, r);
      case Purge(x, o, luck, path) => TeardownReports(s, x, o, luck, path, r);
      case Sweep(x, aged, pods, o, luck) => SweptReports(s, x, aged, pods, o, luck, r);
      case Reconcile(x, o, luck) => ReconciledKeeps(s, x, o, luck);
      case _ =>
    }
  }

  /** A stored report never changes, whatever happens next. */
  lemma {:induction false} ReportsKept(s: Store, steps: seq<Step>, r: int)
    requires Inv(s) && r in s.reports
    ensures r in Play(s, steps).reports && Play(s, steps).reports[r] == s.reports[r]
    decreases |steps|
  {
    if steps != [] {
      NextReports(s, steps[0], r);
      NextKeeps(s, steps[0]);
      ReportsKept(Next(s, steps[0]), steps[1..], r);
    }
  }

  lemma {:induction false} HistoryKept(s: Store, steps: seq<Step>, r: int)
    requires Inv(s) && r in s.history
    ensures r in Play(s, steps).history && Play(s, steps).executions == s.executions
    decreases |steps|
  {
    if steps != [] {
      NextKeeps(s, steps[0]);
      HistoryKept(Next(s, steps[0]), steps[1..], r);
    }
  }

  /** The finalise a step makes, if it makes one: of which run, for which execution, and how its calls go. */
  function Finalises(s: Store, step: Step): Option<(int, int, Luck)>
  {
    match step
    case Stop(e, _, luck, path) => if e in s.marker && path.prepares && path.finds then Some((e, s.marker[e], luck)) else None
    case Purge(e, _, luck, path) =>
      if e in s.executions && e in s.marker && path.prepares && path.finds then Some((e, s.marker[e], luck)) else None
    case Ingest(e, batch, _, luck) =>
      if e !in s.marker then None
      else
        var r := s.marker[e];
        var b := batch.(runId := r);
        if (batch.runId != 0 && batch.runId != r) || Validate(b).Some? || !batch.final then None
        else if Completes(s.(progress := s.progress[r := Absorbed(Working(s, r), b)]), e, r) then Some((e, r, luck)) else None
    case Sweep(e, aged, pods, _, luck) =>
      if e in s.marker && aged && s.marker[e] !in s.reports && e in s.executions && pods == 0 then Some((e, s.marker[e], luck)) else None
    case Finalise(e, r, _, luck) => Some((e, r, luck))
    case _ => None
  }

  /** A finalise of a reported run that misses the stored report, saves nothing new, and grades after all. */
  predicate Regrades(s: Store, step: Step, r: int)
  {
    match Finalises(s, step)
    case None => false
    case Some((e, x, luck)) => x == r && e in s.executions && luck.saves && !luck.looks && luck.grades
  }

  lemma FinalisedGrades(s: Store, e: int, x: int, o: Outcome, luck: Luck, r: int)
    requires Inv(s) && r in s.reports
    ensures r in Finalised(s, e, x, o, luck).0.graded <==>
            r in s.graded || (x == r && e in s.executions && luck.saves && !luck.looks && luck.grades)
  {
  }

  lemma IngestedGrades(s: Store, e: int, b: Batch, o: Outcome, luck: Luck, r: int)
    requires Inv(s) && r in s.reports
    ensures r in Ingested(s, e, b, o, luck).graded <==> r in s.graded || Regrades(s, Ingest(e, b, o, luck), r)
  {
    if e in s.marker {
      var y := s.marker[e];
      var absorbed := s.(progress := s.progress[y := Absorbed(Working(s, y), b.(runId := y))]);
      assert Inv(absorbed);
      FinalisedGrades(absorbed, e, y, o, luck, r);
    }
  }

  lemma TeardownGrades(s: Store, e: int, o: Outcome, luck: Luck, path: Path, r: int)
    requires Inv(s) && r in s.reports
    ensures r in Teardown(s, e, o, luck, path).graded <==> r in s.graded || Regrades(s, Stop(e, o, luck, path), r)
  {
    if e in s.marker {
      FinalisedGrades(s, e, s.marker[e], o, luck, r);
    }
  }

  lemma SweptGrades(s: Store, e: int, aged: bool, pods: nat, o: Outcome, luck: Luck, r: int)
    requires Inv(s) && r in s.reports
    ensures r in Swept(s, e, aged, pods, o, luck).graded <==> r in s.graded
  {
    if e in s.marker {
      FinalisedGrades(s, e, s.marker[e], o, luck, r);
    }
  }

  lemma NextGrades(s: Store, step: Step, r: int)
    requires Inv(s) && r in s.reports
    ensures r in Next(s, step).graded <==> r in s.graded || Regrades(s, step, r)
  {
    match step {
      case Ingest(x, b, o, luck) => IngestedGrades(s, x, b, o, luck, r);
      case Finalise(x, y, o, luck) => FinalisedGrades(s, x, y, o, luck, r);
      case Stop(x, o, luck, path) => TeardownGrades(s, x, o, luck, path, r);
      case Purge(x, o, luck, path) => TeardownGrades(s, x, o, luck, path, r);
      case Sweep(x, aged, pods, o, luck) => SweptGrades(s, x, aged, pods, o, luck, r);
      case Reconcile(x, o, luck) => ReconciledKeeps(s, x, o, luck);
      case _ =>
    }
  }

  /** Some step of the history grades `r` after its report was stored. */
  predicate RegradedIn(s: Store, steps: seq<Step>, r: int)
    decreases |steps|
  {
    steps != [] && (Regrades(s, steps[0], r) || RegradedIn(Next(s, steps[0]), steps[1..], r))
  }

  lemma {:induction false} GradedIff(s: Store, steps: seq<Step>, r: int)
    requires Inv(s) && r in s.reports
    ensures r in Play(s, steps).graded <==> r in s.graded || RegradedIn(s, steps, r)
    decreases |steps|
  {
    if steps != [] {
      NextGrades(s, steps[0], r);
      NextReports(s, steps[0], r);
      NextKeeps(s, steps[0]);
      GradedIff(Next(s, steps[0]), steps[1..], r);
    }
  }

  /** A run is graded exactly when grading worked on the finalise that saved its
      report, or on a later one that failed to see the report. A retry that sees
      it skips the grading it came to repeat. */
  lemma GradedAtTheSaveOrUnseen(s: Store, e: int, r: int, o: Outcome, luck: Luck, steps: seq<Step>)
    requires Inv(s) && r in s.history && e in s.executions && r !in s.reports && luck.saves
    ensures var saved := Finalised(s, e, r, o, luck).0;
            r in Play(saved, steps).graded <==> luck.grades || RegradedIn(saved, steps, r)
  {
    FinalisedKeeps(s, e, r, o, luck);
    GradedIff(Finalised(s, e, r, o, luck).0, steps, r);
  }

  /** A finalise that failed after its report was stored, retried after any
      further history, gets through exactly when its own calls do, needing
      grading only if it fails to see the report; and then the run's marker is
      closed with the first report in place. */
  lemma RetriedFinaliseCloses(s: Store, e: int, r: int, o: Outcome, luck: Luck, between: seq<Step>, o': Outcome, luck': Luck)
    requires Inv(s) && r in s.history && e in s.executions && (r in s.reports || luck.saves)
    ensures var first := Finalised(s, e, r, o, luck).0;
            var retried := Finalised(Play(first, between), e, r, o', luck');
            && (retried.1 <==> GetsThrough(luck', true))
            && (retried.1 ==> !(e in retried.0.marker && retried.0.marker[e] == r))
            && r in first.reports && r in retried.0.reports && retried.0.reports[r] == first.reports[r]
  {
    var first := Finalised(s, e, r, o, luck).0;
    FinalisedKeeps(s, e, r, o, luck);
    FinalisedFrame(s, e, r, o, luck);
    ReportsKept(first, between, r);
    HistoryKept(first, between, r);
    FinalisedFrame(Play(first, between), e, r, o', luck');
  }

  // ------------------------------------------------------------------
  // What the use cases achieve.

  ghost predicate Opens(s: Store, step: Step, e: int)
  {
    step.Trigger? && step.e == e && step.admitted && step.marked && e in s.executions && e !in s.marker && !HasOrphans(s, e)
  }

  /** At some moment of the history an admitted trigger found no run and no orphans, and could mark a scenario. */
  ghost predicate OpenedIn(s: Store, steps: seq<Step>, e: int)
    decreases |steps|
  {
    steps != [] && (Opens(s, steps[0], e) || OpenedIn(Next(s, steps[0]), steps[1..], e))
  }

  /** A step leaves a marker alone, clears it, or gives it a run id never used before. */
  ghost predicate MarkerMoves(s: Store, s': Store, e: int)
  {
    && s.nextRun <= s'.nextRun
    && (e in s'.marker ==> (e in s.marker && s'.marker[e] == s.marker[e]) || s'.marker[e] >= s.nextRun)
  }

  lemma FinalisedMoves(s: Store, x: int, r: int, o: Outcome, luck: Luck, e: int)
    ensures MarkerMoves(s, Finalised(s, x, r, o, luck).0, e)
    ensures e in Finalised(s, x, r, o, luck).0.marker ==> e in s.marker
  {
  }

  lemma TeardownMoves(s: Store, x: int, o: Outcome, luck: Luck, path: Path, e: int)
    ensures MarkerMoves(s, Teardown(s, x, o, luck, path), e)
    ensures e in Teardown(s, x, o, luck, path).marker ==> e in s.marker
  {
    if x in s.marker {
      FinalisedMoves(s, x, s.marker[x], o, luck, e);
    }
  }

  lemma SweptMoves(s: Store, x: int, aged: bool, pods: nat, o: Outcome, luck: Luck, e: int)
    ensures MarkerMoves(s, Swept(s, x, aged, pods, o, luck), e)
    ensures e in Swept(s, x, aged, pods, o, luck).marker ==> e in s.marker
  {
    if x in s.marker {
      FinalisedMoves(s, x, s.marker[x], o, luck, e);
    }
  }

  lemma IngestedMoves(s: Store, x: int, b: Batch, o: Outcome, luck: Luck, e: int)
    ensures MarkerMoves(s, Ingested(s, x, b, o, luck), e)
    ensures e in Ingested(s, x, b, o, luck).marker ==> e in s.marker
  {
    if x in s.marker {
      var r := s.marker[x];
      FinalisedMoves(s.(progress := s.progress[r := Absorbed(Working(s, r), b.(runId := r))]), x, r, o, luck, e);
    }
  }

  lemma NextMoves(s: Store, step: Step, e: int)
    requires Inv(s)
    ensures MarkerMoves(s, Next(s, step), e)
    ensures e !in s.marker && e in Next(s, step).marker ==> Opens(s, step, e)
  {
    match step {
      case Ingest(x, b, o, luck) => IngestedMoves(s, x, b, o, luck, e);
      case Finalise(x, r, o, luck) => FinalisedMoves(s, x, r, o, luck, e);
      case Stop(x, o, luck, path) => TeardownMoves(s, x, o, luck, path, e);
      case Purge(x, o, luck, path) => TeardownMoves(s, x, o, luck, path, e);
      case Sweep(x, aged, pods, o, luck) => SweptMoves(s, x, aged, pods, o, luck, e);
      case Reconcile(x, o, luck) => ReconciledKeeps(s, x, o, luck);
      case _ =>
    }
  }

  /** Some trigger of the history opened a run like this one, at the time it is stamped with. */
  ghost predicate StampedIn(steps: seq<Step>, row: RunRow)
  {
    exists i :: 0 <= i < |steps| && steps[i].Trigger? && steps[i].e == row.execution && steps[i].now == row.started
  }

  /** A run's row is there or not as before, with the same execution and start. */
  ghost predicate SameRow(s: Store, t: Store, q: int)
  {
    if q in s.history then
      q in t.history && t.history[q].execution == s.history[q].execution && t.history[q].started == s.history[q].started
    else q !in t.history
  }

  lemma FinalisedRow(s: Store, e: int, r: int, o: Outcome, luck: Luck, q: int)
    requires Inv(s)
    ensures SameRow(s, Finalised(s, e, r, o, luck).0, q)
  {
  }

  lemma StopRunRow(s: Store, e: int, q: int)
    requires Inv(s)
    ensures SameRow(s, StopRun(s, e), q)
  {
  }

  lemma TriggeredRow(s: Store, e: int, now: Instant, admitted: bool, marked: bool, q: int)
    requires Inv(s)
    ensures var t := Triggered(s, e, now, admitted, marked);
            SameRow(s, t, q) || (q !in s.history && q in t.history && t.history[q].execution == e && t.history[q].started == now)
  {
  }

  lemma TeardownRow(s: Store, e: int, o: Outcome, luck: Luck, path: Path, q: int)
    requires Inv(s)
    ensures SameRow(s, Teardown(s, e, o, luck, path), q)
  {
    if path.prepares && e in s.marker && path.finds {
      FinalisedRow(s, e, s.marker[e], o, luck, q);
      FinalisedKeeps(s, e, s.marker[e], o, luck);
      StopRunRow(Finalised(s, e, s.marker[e], o, luck).0, e, q);
    } else {
      StopRunRow(s, e, q);
    }
  }

  lemma IngestedRow(s: Store, e: int, batch: Batch, o: Outcome, luck: Luck, q: int)
    requires Inv(s)
    ensures SameRow(s, Ingested(s, e, batch, o, luck), q)
  {
    if e in s.marker {
      var r := s.marker[e];
      var absorbed := s.(progress := s.progress[r := Absorbed(Working(s, r), batch.(runId := r))]);
      FinalisedRow(absorbed, e, r, o, luck, q);
    }
  }

  lemma ReconciledRow(s: Store, e: int, o: Outcome, luck: Luck, q: int)
    requires Inv(s)
    ensures SameRow(s, Reconciled(s, e, o, luck), q)
  {
    if e in s.marker {
      FinalisedRow(s, e, s.marker[e], o, luck, q);
      FinalisedKeeps(s, e, s.marker[e], o, luck);
      StopRunRow(Finalised(s, e, s.marker[e], o, luck).0, e, q);
    }
  }

  lemma SweptRow(s: Store, e: int, aged: bool, pods: nat, o: Outcome, luck: Luck, q: int)
    requires Inv(s)
    ensures SameRow(s, Swept(s, e, aged, pods, o, luck), q)
  {
    if e in s.marker {
      FinalisedRow(s, e, s.marker[e], o, luck, q);
      FinalisedKeeps(s, e, s.marker[e], o, luck);
      StopRunRow(Finalised(s, e, s.marker[e], o, luck).0, e, q);
      StopRunRow(s, e, q);
    }
  }

  lemma NextStamps(s: Store, step: Step, q: int)
    requires Inv(s)
    ensures SameRow(s, Next(s, step), q) || (q !in s.history && q in Next(s, step).history && StampedIn([step], Next(s, step).history[q]))
  {
    match step {
      case Deploy(e, clears) =>
      case Trigger(e, now, admitted, marked) =>
        TriggeredRow(s, e, now, admitted, marked, q);
        assert [step][0] == step;
      case Ingest(e, b, o, luck) => IngestedRow(s, e, b, o, luck, q);
      case Stop(e, o, luck, path) => TeardownRow(s, e, o, luck, path, q);
      case Purge(e, o, luck, path) => TeardownRow(s, e, o, luck, path, q);
      case Reap(e, idle) =>
      case Reconcile(e, o, luck) => ReconciledRow(s, e, o, luck, q);
      case Sweep(e, aged, pods, o, luck) => SweptRow(s, e, aged, pods, o, luck, q);
      case Finalise(e, r, o, luck) => FinalisedRow(s, e, r, o, luck, q);
    }
  }

  /** A run keeps the execution and the start it was opened with, and both are those of a trigger. */
  lemma {:induction false} StartsStamped(s: Store, steps: seq<Step>, r: int)
    requires Inv(s)
    ensures SameRow(s, Play(s, steps), r) || (r !in s.history && r in Play(s, steps).history && StampedIn(steps, Play(s, steps).history[r]))
    decreases |steps|
  {
    if steps != [] {
      NextStamps(s, steps[0], r);
      NextKeeps(s, steps[0]);
      StartsStamped(Next(s, steps[0]), steps[1..], r);
      if r in Play(s, steps).history && StampedIn(steps[1..], Play(s, steps).history[r]) {
        var row := Play(s, steps).history[r];
        var i :| 0 <= i < |steps[1..]| && steps[1..][i].Trigger? && steps[1..][i].e == row.execution && steps[1..][i].now == row.started;
        assert steps[i + 1] == steps[1..][i];
      }
    }
  }

  /** Only a trigger opens a run: over every history, an execution that has a run
      open where it had none was triggered, admitted, with no orphans recorded
      and no run open; and no run id is ever given out twice. */
  lemma {:induction false} OnlyTriggersOpen(s: Store, steps: seq<Step>, e: int)
    requires Inv(s)
    ensures e !in s.marker && e in Play(s, steps).marker ==> OpenedIn(s, steps, e)
    ensures MarkerMoves(s, Play(s, steps), e)
    decreases |steps|
  {
    if steps != [] {
      NextMoves(s, steps[0], e);
      NextKeeps(s, steps[0]);
      OnlyTriggersOpen(Next(s, steps[0]), steps[1..], e);
    }
  }

  /** What a stop leaves: the marker is gone exactly when teardown gets through
      its first calls and either it or the finalise clears it; the run is
      reported exactly when it was before, or teardown got as far as a save that works. */
  lemma StopEndsIff(s: Store, e: int, o: Outcome, luck: Luck, path: Path)
    requires Inv(s) && e in s.marker && e in s.executions
    ensures var s' := Teardown(s, e, o, luck, path); var r := s.marker[e];
            && (e !in s'.marker <==>
                  path.prepares && (path.stops || (path.finds && GetsThrough(luck, r in s.reports))))
            && (r in s'.reports <==> r in s.reports || (path.prepares && path.finds && luck.saves))
            && (s'.history[r].ended <==> e !in s'.marker)
            && (r !in s.reports && r in s'.reports ==> s'.reports[r] == Report(e, o, Working(s, r).log))
  {
    var r := s.marker[e];
    FinalisedKeeps(s, e, r, o, luck);
    TeardownKeeps(s, e, o, luck, path);
    FinalisedFrame(s, e, r, o, luck);
  }

  /** A run that ended and has no report. */
  ghost predicate EndedUnreported(s: Store, r: int)
  {
    r in s.history && s.history[r].ended && r !in s.reports
  }

  /** A stop whose save fails ends the run all the same, with no report. */
  lemma StopCanLoseReport(s: Store, e: int, o: Outcome, luck: Luck)
    requires Inv(s) && e in s.marker && e in s.executions && s.marker[e] !in s.reports && !luck.saves
    ensures e !in Teardown(s, e, o, luck, Path(true, true, true)).marker
    ensures EndedUnreported(Teardown(s, e, o, luck, Path(true, true, true)), s.marker[e])
  {
    StopEndsIff(s, e, o, luck, Path(true, true, true));
  }

  lemma FinalisedOthers(s: Store, e: int, x: int, o: Outcome, luck: Luck, r: int)
    requires Inv(s) && EndedUnreported(s, r) && x != r
    ensures EndedUnreported(Finalised(s, e, x, o, luck).0, r)
  {
  }

  lemma TeardownUnreported(s: Store, x: int, o: Outcome, luck: Luck, path: Path, r: int)
    requires Inv(s) && EndedUnreported(s, r)
    ensures EndedUnreported(Teardown(s, x, o, luck, path), r)
  {
    if x in s.marker {
      FinalisedOthers(s, x, s.marker[x], o, luck, r);
    }
  }

  lemma SweptUnreported(s: Store, x: int, aged: bool, pods: nat, o: Outcome, luck: Luck, r: int)
    requires Inv(s) && EndedUnreported(s, r)
    ensures EndedUnreported(Swept(s, x, aged, pods, o, luck), r)
  {
    if x in s.marker {
      FinalisedOthers(s, x, s.marker[x], o, luck, r);
    }
  }

  lemma IngestedUnreported(s: Store, x: int, b: Batch, o: Outcome, luck: Luck, r: int)
    requires Inv(s) && EndedUnreported(s, r)
    ensures EndedUnreported(Ingested(s, x, b, o, luck), r)
  {
    if x in s.marker {
      var y := s.marker[x];
      var absorbed := s.(progress := s.progress[y := Absorbed(Working(s, y), b.(runId := y))]);
      assert Inv(absorbed);
      FinalisedOthers(absorbed, x, y, o, luck, r);
    }
  }

  lemma NextUnreported(s: Store, step: Step, r: int)
    requires Inv(s) && EndedUnreported(s, r) && !(step.Finalise? && step.r == r)
    ensures EndedUnreported(Next(s, step), r)
  {
    match step {
      case Ingest(x, b, o, luck) => IngestedUnreported(s, x, b, o, luck, r);
      case Finalise(x, y, o, luck) => FinalisedOthers(s, x, y, o, luck, r);
      case Stop(x, o, luck, path) => TeardownUnreported(s, x, o, luck, path, r);
      case Purge(x, o, luck, path) => TeardownUnreported(s, x, o, luck, path, r);
      case Sweep(x, aged, pods, o, luck) => SweptUnreported(s, x, aged, pods, o, luck, r);
      case Reconcile(x, o, luck) => ReconciledKeeps(s, x, o, luck);
      case _ =>
    }
  }

  /** And it stays unreported: no use case looks at an ended run again, so over
      every history only a finalise of that very run, already under way, could
      still report it. */
  lemma {:induction false} UnreportedForGood(s: Store, steps: seq<Step>, r: int)
    requires Inv(s) && EndedUnreported(s, r)
    requires forall i :: 0 <= i < |steps| ==> !(steps[i].Finalise? && steps[i].r == r)
    ensures EndedUnreported(Play(s, steps), r)
    decreases |steps|
  {
    if steps != [] {
      NextUnreported(s, steps[0], r);
      NextKeeps(s, steps[0]);
      UnreportedForGood(Next(s, steps[0]), steps[1..], r);
    }
  }

  /** What the run holds once a push for it has been absorbed. */
  function WithPush(s: Store, r: int, b: Batch): Work
  {
    Absorbed(Working(s, r), b.(runId := r))
  }

  /** A push closes the run it is for exactly when it is a last one, after it every
      shard of every entry has finished on every fan-out target, or on the
      single cluster when there is no fan-out, and the finalise gets through. */
  lemma PushClosesIff(s: Store, e: int, b: Batch, o: Outcome, luck: Luck)
    requires Inv(s) && e in s.marker && e in s.executions && (b.runId == 0 || b.runId == s.marker[e])
    requires Validate(b.(runId := s.marker[e])).None?
    requires var x := s.executions[e];
             && Stored(x.profile, x.fanOut)
             && OnlyPlanned(WithPush(s, s.marker[e], b).shards, x.profile, if x.fanOut == [] then [x.cluster] else x.fanOut)
    ensures var x := s.executions[e]; var r := s.marker[e];
            e !in Ingested(s, e, b, o, luck).marker <==>
              && b.final && x.profile != []
              && EveryShardFinished(WithPush(s, r, b).shards, x.profile, if x.fanOut == [] then [x.cluster] else x.fanOut)
              && GetsThrough(luck, r in s.reports)
  {
    var x, r := s.executions[e], s.marker[e];
    var absorbed := s.(progress := s.progress[r := WithPush(s, r, b)]);
    CountMetIff(x.profile, x.fanOut, x.cluster, WithPush(s, r, b).shards);
    assert Completes(absorbed, e, r) <==> CountMet(x.profile, x.fanOut, WithPush(s, r, b).shards);
    FinalisedMarker(absorbed, e, r, o, luck);
  }

  lemma FinalisedMarker(s: Store, e: int, r: int, o: Outcome, luck: Luck)
    requires e in s.marker && s.marker[e] == r && r in s.history && e in s.executions
    ensures e !in Finalised(s, e, r, o, luck).0.marker <==> GetsThrough(luck, r in s.reports)
  {
  }

  /** A last push that completes the count, with nothing failing, ends the run on
      its own: reported, working state gone, marker closed. */
  lemma LastPushCompletes(s: Store, e: int, b: Batch, o: Outcome)
    requires Inv(s) && e in s.marker && b.final && (b.runId == 0 || b.runId == s.marker[e])
    requires Validate(b.(runId := s.marker[e])).None?
    requires Completes(s.(progress := s.progress[s.marker[e] := Absorbed(Working(s, s.marker[e]), b.(runId := s.marker[e]))]), e, s.marker[e])
    ensures var s' := Ingested(s, e, b, o, Luck(true, true, true, true, true)); var r := s.marker[e];
            && e !in s'.marker && r !in s'.progress && r in s'.reports
            && (r !in s.reports ==> s'.reports[r] == Report(e, o, Absorbed(Working(s, r), b.(runId := r)).log))
  {
  }

  /** A push from another run, or a malformed one, changes nothing; one that finds
      no open run leaves at most the note that its pod is done. */
  lemma StrayPushesHarmless(s: Store, e: int, b: Batch, o: Outcome, luck: Luck)
    ensures e in s.marker && b.runId != 0 && b.runId != s.marker[e] ==> Ingested(s, e, b, o, luck) == s
    ensures e in s.marker && Validate(b.(runId := s.marker[e])).Some? ==> Ingested(s, e, b, o, luck) == s
    ensures e !in s.marker && !b.final ==> Ingested(s, e, b, o, luck) == s
    ensures e !in s.marker && b.final ==>
              var s' := Ingested(s, e, b, o, luck);
              HasOrphans(s', e) && s' == s.(orphans := s'.orphans)
              && s'.orphans[e][Pod(b.key.scenarioId, b.key.shardIndex)] == b.exitCode
              && forall x :: x != e ==> (HasOrphans(s', x) <==> HasOrphans(s, x))
  {
    if e !in s.marker && b.final {
      var s' := Ingested(s, e, b, o, luck);
      assert Pod(b.key.scenarioId, b.key.shardIndex) in s'.orphans[e];
    }
  }

  /** A step that gives an execution new engines, or takes the old ones away. */
  predicate Renews(step: Step, e: int)
  {
    match step
    case Deploy(x, _) => x == e
    case Reap(x, _) => x == e
    case _ => false
  }

  ghost predicate Spent(s: Store, e: int)
  {
    e !in s.marker && HasOrphans(s, e)
  }

  lemma TeardownOrphans(s: Store, x: int, o: Outcome, luck: Luck, path: Path)
    ensures Teardown(s, x, o, luck, path).orphans == s.orphans && Teardown(s, x, o, luck, path).marker.Keys <= s.marker.Keys
  {
    if x in s.marker {
      FinalisedOrphans(s, x, s.marker[x], o, luck);
    }
  }

  lemma FinalisedOrphans(s: Store, x: int, r: int, o: Outcome, luck: Luck)
    ensures Finalised(s, x, r, o, luck).0.orphans == s.orphans && Finalised(s, x, r, o, luck).0.marker.Keys <= s.marker.Keys
  {
  }

  lemma SweptOrphans(s: Store, x: int, aged: bool, pods: nat, o: Outcome, luck: Luck)
    ensures Swept(s, x, aged, pods, o, luck).orphans == s.orphans && Swept(s, x, aged, pods, o, luck).marker.Keys <= s.marker.Keys
  {
    if x in s.marker {
      FinalisedOrphans(s, x, s.marker[x], o, luck);
    }
  }

  lemma IngestedSpent(s: Store, x: int, b: Batch, o: Outcome, luck: Luck, e: int)
    requires Spent(s, e)
    ensures Spent(Ingested(s, x, b, o, luck), e)
  {
    if x !in s.marker {
      StrayPushesHarmless(s, x, b, o, luck);
    }
  }

  lemma NextSpent(s: Store, step: Step, e: int)
    requires Inv(s) && Spent(s, e) && !Renews(step, e)
    ensures Spent(Next(s, step), e)
  {
    match step {
      case Stop(x, o, luck, path) => TeardownOrphans(s, x, o, luck, path);
      case Purge(x, o, luck, path) => TeardownOrphans(s, x, o, luck, path);
      case Ingest(x, b, o, luck) => IngestedSpent(s, x, b, o, luck, e);
      case Sweep(x, aged, pods, o, luck) => SweptOrphans(s, x, aged, pods, o, luck);
      case Finalise(x, r, o, luck) => FinalisedOrphans(s, x, r, o, luck);
      case Reconcile(x, o, luck) => ReconciledKeeps(s, x, o, luck);
      case _ =>
    }
  }

  /** Engines that finished with no run open cannot be run again: over every
      history without a new deploy or a reap, no trigger opens a run. */
  lemma {:induction false} FinishedEnginesStayRefused(s: Store, steps: seq<Step>, e: int)
    requires Inv(s) && Spent(s, e) && forall i :: 0 <= i < |steps| ==> !Renews(steps[i], e)
    ensures Spent(Play(s, steps), e)
    decreases |steps|
  {
    if steps != [] {
      NextSpent(s, steps[0], e);
      NextKeeps(s, steps[0]);
      FinishedEnginesStayRefused(Next(s, steps[0]), steps[1..], e);
    }
  }

  /** And a deploy is all it takes: an idle execution, deployed and then triggered
      with nothing else refusing, runs exactly when the deploy got as far as
      clearing the orphans or there were none. */
  lemma DeployThenTriggerOpens(s: Store, e: int, now: Instant, clears: bool)
    requires Inv(s) && e in s.executions && e !in s.marker
    ensures e in Triggered(Deployed(s, e, clears), e, now, true, true).marker
       <==> (clears && s.executions[e].profile != []) || !HasOrphans(s, e)
  {
  }

  /** So does a reap of an idle execution: its orphans go with its engines. */
  lemma ReapThenTriggerOpens(s: Store, e: int, now: Instant, idle: bool)
    requires Inv(s) && e in s.executions && e !in s.marker
    ensures e in Triggered(Reaped(s, e, idle), e, now, true, true).marker <==> idle || !HasOrphans(s, e)
  {
  }

  // ------------------------------------------------------------------
  // What is known of orphaned completions, read off the history.

  /** The stores a history passes through. */
  ghost predicate Passes(ss: seq<Store>, steps: seq<Step>)
  {
    |ss| == |steps| + 1 && forall i :: 0 <= i < |steps| ==> ss[i + 1] == Next(ss[i], steps[i])
  }

  /** The last thing heard of the pod's orphaned completion is this exit code. */
  ghost predicate Knows(s: Store, e: int, pod: Pod, exit: Option<int>)
  {
    e in s.orphans && pod in s.orphans[e] && s.orphans[e][pod] == exit
  }

  /** A last push of this pod's that finds no run open. */
  ghost predicate Hears(s: Store, step: Step, e: int, pod: Pod)
  {
    && step.Ingest? && step.e == e && e !in s.marker && step.batch.final
    && pod == Pod(step.batch.key.scenarioId, step.batch.key.shardIndex)
  }

  /** A deploy of a plan that gets as far as clearing, or a reap of an idle execution, with no run open. */
  ghost predicate Forgets(s: Store, step: Step, e: int)
  {
    && e !in s.marker
    && ((step == Deploy(e, true) && e in s.executions && s.executions[e].profile != []) || step == Reap(e, true))
  }

  ghost predicate HearsExit(s: Store, step: Step, e: int, pod: Pod, exit: Option<int>)
  {
    Hears(s, step, e, pod) && step.batch.exitCode == exit
  }

  lemma KnownAfter(s: Store, step: Step, e: int, pod: Pod, exit: Option<int>)
    requires Inv(s)
    ensures Knows(Next(s, step), e, pod, exit) <==>
              HearsExit(s, step, e, pod, exit) || (Knows(s, e, pod, exit) && !Hears(s, step, e, pod) && !Forgets(s, step, e))
  {
    match step {
      case Ingest(x, b, o, luck) => IngestedKnown(s, x, b, o, luck, e, pod, exit);
      case Deploy(x, clears) => ClearedKnown(s, x, e, pod, exit);
      case Reap(x, idle) => ClearedKnown(s, x, e, pod, exit);
      case _ => OrphansLeft(s, step);
    }
  }

  lemma ClearedKnown(s: Store, x: int, e: int, pod: Pod, exit: Option<int>)
    ensures Knows(ClearOrphans(s, x), e, pod, exit) <==> Knows(s, e, pod, exit) && x != e
  {
  }

  lemma OrphansLeft(s: Store, step: Step)
    requires Inv(s) && !step.Ingest? && !step.Deploy? && !step.Reap?
    ensures Next(s, step).orphans == s.orphans
  {
    match step {
      case Stop(x, o, luck, path) => TeardownOrphans(s, x, o, luck, path);
      case Purge(x, o, luck, path) => TeardownOrphans(s, x, o, luck, path);
      case Sweep(x, aged, pods, o, luck) => SweptOrphans(s, x, aged, pods, o, luck);
      case Finalise(x, r, o, luck) => FinalisedOrphans(s, x, r, o, luck);
      case Reconcile(x, o, luck) => ReconciledKeeps(s, x, o, luck);
      case Trigger(_, _, _, _) =>
    }
  }

  lemma IngestedKnown(s: Store, x: int, b: Batch, o: Outcome, luck: Luck, e: int, pod: Pod, exit: Option<int>)
    ensures Knows(Ingested(s, x, b, o, luck), e, pod, exit) <==>
              HearsExit(s, Ingest(x, b, o, luck), e, pod, exit) || (Knows(s, e, pod, exit) && !Hears(s, Ingest(x, b, o, luck), e, pod))
  {
    if x in s.marker {
      var r := s.marker[x];
      var absorbed := s.(progress := s.progress[r := Absorbed(Working(s, r), b.(runId := r))]);
      FinalisedOrphans(absorbed, x, r, o, luck);
    }
  }

  /** Heard at step `i` with this exit code, and neither heard again nor forgotten since. */
  ghost predicate LastHeardAt(ss: seq<Store>, steps: seq<Step>, e: int, pod: Pod, exit: Option<int>, i: nat)
    requires Passes(ss, steps)
  {
    && i < |steps| && HearsExit(ss[i], steps[i], e, pod, exit)
    && forall j :: i < j < |steps| ==> !Hears(ss[j], steps[j], e, pod) && !Forgets(ss[j], steps[j], e)
  }

  lemma {:induction false} PassesKeep(ss: seq<Store>, steps: seq<Step>, n: nat)
    requires Passes(ss, steps) && Inv(ss[0]) && n <= |steps|
    ensures Inv(ss[n])
  {
    if n > 0 {
      PassesKeep(ss, steps, n - 1);
      NextKeeps(ss[n - 1], steps[n - 1]);
    }
  }

  /** Over every history: a pod's orphaned completion is on record with an exit
      code exactly when a last push with that code found no run open, and since
      then no other did and neither deploy nor reap cleared the execution. */
  lemma OrphanKnownIff(ss: seq<Store>, steps: seq<Step>, e: int, pod: Pod, exit: Option<int>)
    requires Passes(ss, steps) && Fresh(ss[0])
    ensures Knows(ss[|steps|], e, pod, exit) <==> exists i: nat :: LastHeardAt(ss, steps, e, pod, exit, i)
  {
    var known := seq(|ss|, i requires 0 <= i < |ss| => Knows(ss[i], e, pod, exit));
    var begins := seq(|steps|, i requires 0 <= i < |steps| => HearsExit(ss[i], steps[i], e, pod, exit));
    var ends := seq(|steps|, i requires 0 <= i < |steps| => Hears(ss[i], steps[i], e, pod) || Forgets(ss[i], steps[i], e));
    forall i | 0 <= i < |steps| ensures known[i + 1] <==> begins[i] || (known[i] && !ends[i]) {
      PassesKeep(ss, steps, i);
      KnownAfter(ss[i], steps[i], e, pod, exit);
    }
    LatchIff(known, begins, ends);
    forall i: nat ensures LastHeardAt(ss, steps, e, pod, exit, i) <==> LatchedAt(begins, ends, i) {
      assert forall j :: 0 <= j < |steps| ==> ends[j] == (Hears(ss[j], steps[j], e, pod) || Forgets(ss[j], steps[j], e));
    }
  }
}
