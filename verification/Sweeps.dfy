/** The passes that heal what ordinary completion missed, written as the loops
    they are over the shared stores. */
module Sweeps {
  import opened Common
  import opened Outcomes
  import opened Progress
  import opened Completion
  import opened Lifecycle
  import Finalisers

  datatype OpenRun = OpenRun(execution: int, run: int, started: Instant)

  /** The open-runs listing: each marker once, with its start time. */
  ghost predicate ListsOpen(open: seq<OpenRun>, s: Store)
  {
    && (forall i :: 0 <= i < |open| ==>
          && open[i].execution in s.marker && s.marker[open[i].execution] == open[i].run
          && open[i].run in s.history && s.history[open[i].run].started == open[i].started)
    && (forall i, j :: 0 <= i < j < |open| ==> open[i].execution != open[j].execution)
    && (forall e :: e in s.marker ==> exists i :: 0 <= i < |open| && open[i].execution == e)
  }

  /** Every marker names a run of the execution's own history. */
  ghost predicate Linked(s: Store)
  {
    forall e :: e in s.marker ==> s.marker[e] in s.history && s.history[s.marker[e]].execution == e
  }

  /** Reports only ever get added, and never a pass. */
  ghost predicate ReportsGrow(s: Store, s': Store)
  {
    && (forall r :: r in s.reports ==> r in s'.reports && s'.reports[r] == s.reports[r])
    && (forall r :: r in s'.reports && r !in s.reports ==> Severity(Aborted) <= Severity(s'.reports[r].outcome))
  }

  /** What one close leaves: that marker gone, that run reported, nothing else moved. */
  ghost predicate Closes(s: Store, s': Store, e: int, r: int)
  {
    && s'.marker == s.marker - {e}
    && s'.executions == s.executions && s'.orphans == s.orphans
    && r in s'.reports
    && s'.reports.Keys <= s.reports.Keys + {r}
    && SameStarts(s, s')
  }

  ghost predicate SameStarts(s: Store, s': Store)
  {
    && s'.history.Keys == s.history.Keys
    && forall x :: x in s.history ==>
         s'.history[x].started == s.history[x].started && s'.history[x].execution == s.history[x].execution
  }

  lemma StopRunCloses(s: Store, e: int)
    requires e in s.marker && s.marker[e] in s.reports
    ensures Closes(s, StopRun(s, e), e, s.marker[e])
    ensures ReportsGrow(s, StopRun(s, e))
  {
  }

  lemma FinalisedCloses(s: Store, e: int, o: Outcome, luck: Luck)
    requires Linked(s) && e in s.marker && e in s.executions && Severity(Aborted) <= Severity(o)
    ensures var f := Finalised(s, e, s.marker[e], o, luck);
            && ReportsGrow(s, f.0) && f.0.orphans == s.orphans && f.0.executions == s.executions
            && (f.1 ==> Closes(s, f.0, e, s.marker[e]))
            && (s.marker[e] !in s.reports && s.marker[e] in f.0.reports ==> f.0.reports[s.marker[e]].outcome == o)
            && (!f.1 ==> f.0.marker == s.marker && SameStarts(s, f.0))
  {
    FinalisedReports(s, e, o, luck);
    FinalisedMarkers(s, e, o, luck);
  }

  lemma FinalisedReports(s: Store, e: int, o: Outcome, luck: Luck)
    requires e in s.marker && Severity(Aborted) <= Severity(o)
    ensures var f := Finalised(s, e, s.marker[e], o, luck);
            && ReportsGrow(s, f.0)
            && (s.marker[e] !in s.reports && s.marker[e] in f.0.reports ==> f.0.reports[s.marker[e]].outcome == o)
  {
  }

  lemma FinalisedMarkers(s: Store, e: int, o: Outcome, luck: Luck)
    requires Linked(s) && e in s.marker && e in s.executions
    ensures var f := Finalised(s, e, s.marker[e], o, luck);
            ClosesOrKeeps(s, f.0, e, f.1)
  {
    var r := s.marker[e];
    if luck.saves {
      var already := luck.looks && r in s.reports;
      var saved := SaveReport(s, r, Report(e, o, Working(s, r).log));
      if already || luck.grades {
        ConcludedCloses(s, if already then saved else saved.(graded := saved.graded + {r}), e, luck);
      }
    }
  }

  /** What a finalise leaves of the markers: it gets through and closes the run, or it leaves them all. */
  ghost predicate ClosesOrKeeps(s: Store, s': Store, e: int, closed: bool)
    requires e in s.marker
  {
    && s'.orphans == s.orphans && s'.executions == s.executions
    && (closed ==> Closes(s, s', e, s.marker[e]))
    && (!closed ==> s'.marker == s.marker && SameStarts(s, s'))
  }

  /** The end of a finalise, once the report is there. */
  lemma ConcludedCloses(s: Store, saved: Store, e: int, luck: Luck)
    requires Linked(s) && e in s.marker && s.marker[e] in saved.reports && saved.reports.Keys <= s.reports.Keys + {s.marker[e]}
    requires saved.marker == s.marker && saved.history == s.history && saved.executions == s.executions && saved.orphans == s.orphans
    ensures var f := Concluded(saved, e, s.marker[e], luck);
            ClosesOrKeeps(s, f.0, e, f.1)
  {
  }

  /** A finished shard listing: each row once. */
  method ShardStates(shards: map<ShardKey, ShardRow>) returns (states: seq<(ShardKey, ShardRow)>)
    ensures Lists(states, shards)
  {
    states := [];
    var left := shards.Keys;
    while left != {}
      invariant left <= shards.Keys
      invariant forall i :: 0 <= i < |states| ==> states[i].0 in shards && states[i].0 !in left && shards[states[i].0] == states[i].1
      invariant forall i, j :: 0 <= i < j < |states| ==> states[i].0 != states[j].0
      invariant forall k :: k in shards && k !in left ==> exists i :: 0 <= i < |states| && states[i].0 == k
    {
      var k :| k in left;
      ghost var before := states;
      states := states + [(k, shards[k])];
      left := left - {k};
      forall x | x in shards && x !in left ensures exists i :: 0 <= i < |states| && states[i].0 == x {
        if x == k {
          assert states[|before|].0 == k;
        } else {
          var i :| 0 <= i < |before| && before[i].0 == x;
          assert states[i].0 == x;
        }
      }
    }
  }

  /** What orphaned completions amount to: an error if one left no code, or one
      that is none of 0, 2 and 3; else a failure if one left 3; else an abort. */
  ghost predicate OrphanVerdict(o: Outcome, orphans: map<Pod, Option<int>>)
  {
    var unclear := exists p :: p in orphans && (orphans[p].None? || orphans[p].value !in {0, 2, 3});
    var failed := exists p :: p in orphans && orphans[p] == Some(3);
    o == if unclear then Error else if failed then Failed else Aborted
  }

  method OrphanOutcome(orphans: map<Pod, Option<int>>) returns (o: Outcome)
    ensures OrphanVerdict(o, orphans)
  {
    var outcomes := [Aborted];
    var left := orphans.Keys;
    while left != {}
      invariant left <= orphans.Keys
      invariant Aborted in outcomes
      invariant forall x :: x in outcomes ==> x == Aborted || exists p :: p in orphans && OfShard(orphans[p]) == x
      invariant forall p :: p in orphans && p !in left ==> OfShard(orphans[p]) in outcomes
    {
      var p :| p in left;
      left := left - {p};
      outcomes := outcomes + [OfShard(orphans[p])];
    }
    o := WorstOutcome(outcomes);
    forall p | p in orphans ensures Means(orphans[p], OfShard(orphans[p])) && OfShard(orphans[p]) in outcomes {
      ShardMeans(orphans[p]);
    }
  }

  /** What a run's shards amount to when it is ended from outside: an error if a
      finished one left a code that is none of 0, 2 and 3; else a failure if one
      left 3; else an abort. */
  ghost predicate ShardsVerdict(o: Outcome, shards: map<ShardKey, ShardRow>)
  {
    var unclear := exists k :: k in shards && shards[k].finished && shards[k].exitCode.Some? && shards[k].exitCode.value !in {0, 2, 3};
    var failed := exists k :: k in shards && shards[k].finished && shards[k].exitCode == Some(3);
    o == if unclear then Error else if failed then Failed else Aborted
  }

  function AbandonedEnd(s: Store, x: OpenRun, o: Outcome, luck: Luck): Store
  {
    var f := Finalised(s, x.execution, x.run, o, luck);
    if f.1 then StopRun(f.0, x.execution) else f.0
  }

  /** What ending an unreported run from outside leaves. */
  ghost predicate EndsAbandoned(s: Store, s': Store, x: OpenRun, done: bool)
  {
    && ReportsGrow(s, s')
    && (done ==> Closes(s, s', x.execution, x.run))
    && (!done ==> s'.marker == s.marker && SameStarts(s, s'))
    && (x.run in s'.reports ==> ShardsVerdict(s'.reports[x.run].outcome, Working(s, x.run).shards))
  }

  lemma AbandonedEnds(s: Store, x: OpenRun, o: Outcome, luck: Luck)
    requires Linked(s) && x.execution in s.marker && s.marker[x.execution] == x.run && x.execution in s.executions && x.run !in s.reports
    requires ShardsVerdict(o, Working(s, x.run).shards)
    ensures EndsAbandoned(s, AbandonedEnd(s, x, o, luck), x, Finalised(s, x.execution, x.run, o, luck).1)
  {
    FinalisedCloses(s, x.execution, o, luck);
  }

  lemma ListedVerdict(o: Outcome, states: seq<(ShardKey, ShardRow)>, shards: map<ShardKey, ShardRow>)
    requires Lists(states, shards) && Finalisers.StopMeans(o, states)
    ensures ShardsVerdict(o, shards)
  {
    ListedLike(states, shards, c => c !in {0, 2, 3});
    ListedLike(states, shards, c => c == 3);
  }

  lemma ListedLike(states: seq<(ShardKey, ShardRow)>, shards: map<ShardKey, ShardRow>, like: int -> bool)
    requires Lists(states, shards)
    ensures Finalisers.SomeFinished(states, like)
       <==> exists k :: k in shards && shards[k].finished && shards[k].exitCode.Some? && like(shards[k].exitCode.value)
  {
    if k :| k in shards && shards[k].finished && shards[k].exitCode.Some? && like(shards[k].exitCode.value) {
      var i :| 0 <= i < |states| && states[i].0 == k;
      assert states[i].1 == shards[k];
    }
    if i :| 0 <= i < |states| && states[i].1.finished && states[i].1.exitCode.Some? && like(states[i].1.exitCode.value) {
      assert shards[states[i].0] == states[i].1;
    }
  }

  /** Collect the orphaned pods, then look every planned pod up. */
  method OrphansCoverProfile(orphans: map<Pod, Option<int>>, profile: Profile) returns (covers: bool)
    ensures covers <==> Covers(orphans, profile)
  {
    for i := 0 to |profile|
      invariant forall j, k :: 0 <= j < i && 0 <= k < profile[j].engines ==> Pod(profile[j].scenarioId, k) in orphans
    {
      for k := 0 to profile[i].engines
        invariant forall m :: 0 <= m < k ==> Pod(profile[i].scenarioId, m) in orphans
      {
        if Pod(profile[i].scenarioId, k) !in orphans {
          return false;
        }
      }
    }
    covers := profile != [];
  }

  /** Why a sweep leaves an open run alone. */
  ghost predicate Spared(s: Store, e: int, now: Instant, after: Duration, pods: map<int, nat>)
    requires e in s.marker && s.marker[e] in s.history
  {
    || now - s.history[s.marker[e]].started < after
    || (s.marker[e] !in s.reports && (e !in s.executions || (e in pods && pods[e] > 0)))
  }

  /** Part way through a pass: markers only go, in listing order. */
  ghost predicate Remaining(s0: Store, s: Store, open: seq<OpenRun>, i: nat)
    requires i <= |open|
  {
    && Linked(s) && SameStarts(s0, s) && s.executions == s0.executions
    && (forall e :: e in s.marker ==> e in s0.marker && s.marker[e] == s0.marker[e])
    && (forall j :: i <= j < |open| ==> open[j].execution in s.marker)
  }

  ghost predicate ClosedSoFar(s: Store, open: seq<OpenRun>, i: nat, closed: seq<OpenRun>)
    requires i <= |open|
  {
    && (forall x :: x in closed ==> x in open[..i] && x.run in s.reports)
    && (forall j :: 0 <= j < i ==> (open[j] in closed <==> open[j].execution !in s.marker))
  }

  lemma RemainingShut(s0: Store, s1: Store, s2: Store, open: seq<OpenRun>, i: nat)
    requires ListsOpen(open, s0) && i < |open| && Remaining(s0, s1, open, i)
    requires Closes(s1, s2, open[i].execution, open[i].run)
    ensures Remaining(s0, s2, open, i + 1)
  {
  }

  lemma ReportsGrowOn(s0: Store, s1: Store, s2: Store)
    requires ReportsGrow(s0, s1) && ReportsGrow(s1, s2)
    ensures ReportsGrow(s0, s2)
  {
  }

  lemma ClosedShut(s1: Store, s2: Store, open: seq<OpenRun>, i: nat, closed: seq<OpenRun>)
    requires i < |open| && ClosedSoFar(s1, open, i, closed) && Closes(s1, s2, open[i].execution, open[i].run)
    requires forall j :: 0 <= j < i ==> open[j].execution != open[i].execution
    requires ReportsGrow(s1, s2)
    ensures ClosedSoFar(s2, open, i + 1, closed + [open[i]])
  {
    assert open[..i + 1] == open[..i] + [open[i]];
    forall j | 0 <= j < i ensures open[j] in closed + [open[i]] <==> open[j] in closed {
      assert open[j] != open[i];
    }
  }

  lemma ClosedSkip(s: Store, open: seq<OpenRun>, i: nat, closed: seq<OpenRun>)
    requires i < |open| && ClosedSoFar(s, open, i, closed) && open[i].execution in s.marker
    requires forall j :: 0 <= j < i ==> open[j].execution != open[i].execution
    ensures ClosedSoFar(s, open, i + 1, closed)
  {
    assert open[..i + 1] == open[..i] + [open[i]];
  }

  /** The listed runs before `i` that are still open were spared for a reason. */
  ghost predicate SparedUpTo(s: Store, open: seq<OpenRun>, i: nat, now: Instant, after: Duration, pods: map<int, nat>)
    requires Linked(s) && i <= |open|
  {
    forall j :: 0 <= j < i && open[j].execution in s.marker ==> Spared(s, open[j].execution, now, after, pods)
  }

  lemma SparedShut(s: Store, s': Store, open: seq<OpenRun>, i: nat, now: Instant, after: Duration, pods: map<int, nat>)
    requires i < |open| && Linked(s) && Linked(s') && open[i].execution in s.marker && s.marker[open[i].execution] == open[i].run
    requires Closes(s, s', open[i].execution, open[i].run) && SparedUpTo(s, open, i, now, after, pods)
    ensures SparedUpTo(s', open, i + 1, now, after, pods)
  {
    forall j | 0 <= j < i && open[j].execution in s'.marker ensures Spared(s', open[j].execution, now, after, pods) {
      assert s.marker[open[j].execution] != open[i].run;
    }
  }

  /** Nothing to sweep: every open run has a reason to be left alone. */
  ghost predicate Calm(s: Store, now: Instant, after: Duration, pods: map<int, nat>)
    requires Linked(s)
  {
    forall e :: e in s.marker ==> Spared(s, e, now, after, pods)
  }

  /** Part way through a sweep. */
  ghost predicate Sweeping(s0: Store, s: Store, open: seq<OpenRun>, i: nat, closed: seq<OpenRun>, now: Instant, after: Duration, pods: map<int, nat>)
    requires Linked(s0) && i <= |open|
  {
    && Remaining(s0, s, open, i) && ReportsGrow(s0, s)
    && SparedUpTo(s, open, i, now, after, pods)
    && ClosedSoFar(s, open, i, closed)
  }

  lemma SweepingShut(s0: Store, s1: Store, s2: Store, open: seq<OpenRun>, i: nat, closed: seq<OpenRun>, now: Instant, after: Duration, pods: map<int, nat>)
    requires Linked(s0) && ListsOpen(open, s0) && i < |open| && Sweeping(s0, s1, open, i, closed, now, after, pods)
    requires Closes(s1, s2, open[i].execution, open[i].run) && ReportsGrow(s1, s2)
    ensures Sweeping(s0, s2, open, i + 1, closed + [open[i]], now, after, pods)
  {
    RemainingShut(s0, s1, s2, open, i);
    ReportsGrowOn(s0, s1, s2);
    ClosedShut(s1, s2, open, i, closed);
    SparedShut(s1, s2, open, i, now, after, pods);
  }

  lemma SweepingSkip(s0: Store, s: Store, open: seq<OpenRun>, i: nat, closed: seq<OpenRun>, now: Instant, after: Duration, pods: map<int, nat>)
    requires Linked(s0) && ListsOpen(open, s0) && i < |open| && Sweeping(s0, s, open, i, closed, now, after, pods)
    requires Spared(s, open[i].execution, now, after, pods)
    ensures Sweeping(s0, s, open, i + 1, closed, now, after, pods)
  {
    ClosedSkip(s, open, i, closed);
  }

  lemma SweptAll(s0: Store, s: Store, open: seq<OpenRun>, closed: seq<OpenRun>, now: Instant, after: Duration, pods: map<int, nat>)
    requires Linked(s0) && ListsOpen(open, s0) && Sweeping(s0, s, open, |open|, closed, now, after, pods)
    ensures Calm(s, now, after, pods)
    ensures forall x :: x in open ==> (x in closed <==> x.execution !in s.marker)
    ensures forall x :: x in closed ==> x in open && x.run in s.reports
  {
    assert open[..|open|] == open;
    forall e | e in s.marker ensures Spared(s, e, now, after, pods) {
      var i :| 0 <= i < |open| && open[i].execution == e;
    }
  }

  /** Does a reconcile pass have evidence that every engine of `e` finished? */
  ghost predicate Stranded(s: Store, e: int)
  {
    HasOrphans(s, e) && e in s.executions && Covers(s.orphans[e], s.executions[e].profile)
  }

  /** Closed by a reconcile pass: the engines had all finished, the run is
      reported, and a report the pass wrote says the worst of what they sent. */
  ghost predicate ClosedOnEvidence(s0: Store, s: Store, e: int)
    requires e in s0.marker
  {
    && Stranded(s0, e)
    && s0.marker[e] in s.reports
    && (s0.marker[e] !in s0.reports ==> OrphanVerdict(s.reports[s0.marker[e]].outcome, s0.orphans[e]))
  }

  /** Part way through a reconcile pass. */
  ghost predicate Reconciling(s0: Store, s: Store, open: seq<OpenRun>, i: nat)
    requires i <= |open|
  {
    && Remaining(s0, s, open, i) && ReportsGrow(s0, s) && s.orphans == s0.orphans
    && (forall j :: 0 <= j < i && open[j].execution in s.marker ==> !Stranded(s0, open[j].execution))
    && (forall e :: e in s0.marker && e !in s.marker ==> ClosedOnEvidence(s0, s, e))
    && OnlyClosedReported(s0, s)
  }

  /** The next listed run is as it was when the pass began. */
  lemma StillOpen(s0: Store, s: Store, open: seq<OpenRun>, i: nat)
    requires Linked(s0) && ListsOpen(open, s0) && i < |open| && Reconciling(s0, s, open, i)
    ensures Linked(s) && open[i].execution in s.marker && s.marker[open[i].execution] == open[i].run
    ensures Stranded(s, open[i].execution) <==> Stranded(s0, open[i].execution)
  {
  }

  lemma ReconcilingSkip(s0: Store, s: Store, open: seq<OpenRun>, i: nat)
    requires Linked(s0) && ListsOpen(open, s0) && i < |open| && Reconciling(s0, s, open, i) && !Stranded(s, open[i].execution)
    ensures Reconciling(s0, s, open, i + 1)
  {
    StillOpen(s0, s, open, i);
  }

  /** A report is new only for a run the pass closed. */
  ghost predicate OnlyClosedReported(s0: Store, s: Store)
  {
    forall e :: e in s0.marker && e in s.marker && s0.marker[e] !in s0.reports ==> s0.marker[e] !in s.reports
  }

  lemma ReconcilingShut(s0: Store, s1: Store, s2: Store, open: seq<OpenRun>, i: nat)
    requires Linked(s0) && ListsOpen(open, s0) && i < |open| && Reconciling(s0, s1, open, i)
    requires Closes(s1, s2, open[i].execution, open[i].run) && ReportsGrow(s1, s2) && Stranded(s0, open[i].execution)
    requires open[i].run !in s1.reports ==> OrphanVerdict(s2.reports[open[i].run].outcome, s0.orphans[open[i].execution])
    ensures Reconciling(s0, s2, open, i + 1)
  {
    RemainingShut(s0, s1, s2, open, i);
    ReportsGrowOn(s0, s1, s2);
    OnlyClosedShut(s0, s1, s2, open[i]);
    forall e | e in s0.marker && e !in s2.marker ensures ClosedOnEvidence(s0, s2, e) {
      if e != open[i].execution {
        EvidenceKept(s0, s1, s2, e);
      }
    }
  }

  lemma EvidenceKept(s0: Store, s1: Store, s2: Store, e: int)
    requires e in s0.marker && ClosedOnEvidence(s0, s1, e) && ReportsGrow(s1, s2)
    ensures ClosedOnEvidence(s0, s2, e)
  {
    var r: int := s0.marker[e];
    ReportKept(s1, s2, r);
  }

  /** A pass that fails on one run has closed only runs it had evidence for. */
  lemma EvidenceStands(s0: Store, s1: Store, s2: Store, open: seq<OpenRun>, i: nat)
    requires i <= |open| && Reconciling(s0, s1, open, i) && s2.marker == s1.marker && ReportsGrow(s1, s2)
    ensures forall e :: e in s0.marker && e !in s2.marker ==> ClosedOnEvidence(s0, s2, e)
    ensures forall e :: e in s2.marker ==> e in s0.marker && s2.marker[e] == s0.marker[e]
    ensures ReportsGrow(s0, s2)
  {
    ReportsGrowOn(s0, s1, s2);
    forall e | e in s0.marker && e !in s2.marker ensures ClosedOnEvidence(s0, s2, e) {
      EvidenceKept(s0, s1, s2, e);
    }
  }

  /** What one open run's turn in a reconcile pass does. */
  ghost predicate Turn(s1: Store, s2: Store, x: OpenRun, readable: bool, profiled: bool, done: bool, shut: bool)
  {
    && ReportsGrow(s1, s2)
    && (shut ==> done && Stranded(s1, x.execution) && Closes(s1, s2, x.execution, x.run)
                 && (x.run !in s1.reports ==> OrphanVerdict(s2.reports[x.run].outcome, s1.orphans[x.execution])))
    && (done && !shut ==> s2 == s1 && !Stranded(s1, x.execution))
    && (done ==> readable && (HasOrphans(s1, x.execution) ==> profiled))
    && (!done ==> s2.marker == s1.marker && (Stranded(s1, x.execution) || (s2 == s1 && !(readable && profiled))))
  }

  /** Part way through a reconcile pass that has met no error. */
  ghost predicate Passing(s0: Store, s: Store, open: seq<OpenRun>, i: nat, unreadable: set<int>)
    requires i <= |open|
  {
    && Reconciling(s0, s, open, i)
    && (NoneStranded(s0) ==> s == s0)
    && forall j :: 0 <= j < i ==> open[j].run !in unreadable
  }

  lemma TurnPasses(s0: Store, s1: Store, s2: Store, open: seq<OpenRun>, i: nat, unreadable: set<int>, profiled: bool, shut: bool)
    requires Linked(s0) && ListsOpen(open, s0) && i < |open| && Passing(s0, s1, open, i, unreadable)
    requires Turn(s1, s2, open[i], open[i].run !in unreadable, profiled, true, shut)
    ensures Passing(s0, s2, open, i + 1, unreadable)
  {
    StillOpen(s0, s1, open, i);
    if shut {
      ReconcilingShut(s0, s1, s2, open, i);
      assert open[i].execution in s0.marker;
    } else {
      ReconcilingSkip(s0, s1, open, i);
    }
  }

  lemma TurnFails(s0: Store, s1: Store, s2: Store, open: seq<OpenRun>, i: nat, unreadable: set<int>, profiled: bool, shut: bool)
    requires Linked(s0) && ListsOpen(open, s0) && i < |open| && Passing(s0, s1, open, i, unreadable)
    requires Turn(s1, s2, open[i], open[i].run !in unreadable, profiled, false, shut)
    ensures forall e :: e in s0.marker && e !in s2.marker ==> ClosedOnEvidence(s0, s2, e)
    ensures forall e :: e in s2.marker ==> e in s0.marker && s2.marker[e] == s0.marker[e]
    ensures ReportsGrow(s0, s2)
    ensures NoneStranded(s0) ==> s2 == s0 && !(open[i].run !in unreadable && profiled)
  {
    StillOpen(s0, s1, open, i);
    EvidenceStands(s0, s1, s2, open, i);
    assert open[i].execution in s0.marker;
  }

  lemma ReportKept(s1: Store, s2: Store, r: int)
    requires ReportsGrow(s1, s2) && r in s1.reports
    ensures r in s2.reports && s2.reports[r] == s1.reports[r]
  {
  }

  lemma OnlyClosedShut(s0: Store, s1: Store, s2: Store, x: OpenRun)
    requires Linked(s0) && OnlyClosedReported(s0, s1) && Closes(s1, s2, x.execution, x.run)
    requires x.execution in s0.marker && s0.marker[x.execution] == x.run
    ensures OnlyClosedReported(s0, s2)
  {
    forall e | e in s0.marker && e in s2.marker && s0.marker[e] !in s0.reports ensures s0.marker[e] !in s2.reports {
      assert s0.marker[e] != x.run;
    }
  }

  ghost predicate NoneStranded(s: Store)
  {
    forall e :: e in s.marker ==> !Stranded(s, e)
  }

  /** No history of the use cases leaves a run stranded, so a reconcile pass finds nothing to close. */
  lemma ReachableNoneStranded(s0: Store, steps: seq<Step>)
    requires Lifecycle.Fresh(s0)
    ensures NoneStranded(Play(s0, steps))
  {
    PlayKeeps(s0, steps);
  }

  lemma ReconciledAll(s0: Store, s: Store, open: seq<OpenRun>)
    requires ListsOpen(open, s0) && Reconciling(s0, s, open, |open|)
    ensures NoneStranded(s)
  {
    forall e | e in s.marker ensures !Stranded(s, e) {
      var i :| 0 <= i < |open| && open[i].execution == e;
    }
  }

  /** The deploy time of an execution's first mention in the clusters' listings. */
  function FirstDeployed(found: seq<(int, Instant)>, e: int): Option<Instant>
  {
    if found == [] then None
    else
      var n := |found| - 1;
      var before := FirstDeployed(found[..n], e);
      if before.Some? then before else if found[n].0 == e then Some(found[n].1) else None
  }

  /** What one cluster answers when asked what is deployed there, and since when. */
  datatype Listing = Listed(found: seq<(int, Instant)>) | Unlisted

  predicate AllListed(clusters: seq<Listing>)
  {
    forall i :: 0 <= i < |clusters| ==> clusters[i].Listed?
  }

  /** Everything found before the first cluster that cannot be listed. */
  function FoundIn(clusters: seq<Listing>): seq<(int, Instant)>
  {
    if clusters == [] || clusters[0].Unlisted? then [] else clusters[0].found + FoundIn(clusters[1..])
  }

  method ListClusters(clusters: seq<Listing>) returns (found: seq<(int, Instant)>, listed: bool)
    ensures found == FoundIn(clusters) && listed == AllListed(clusters)
  {
    found := [];
    for i := 0 to |clusters|
      invariant forall j :: 0 <= j < i ==> clusters[j].Listed?
      invariant found + FoundIn(clusters[i..]) == FoundIn(clusters)
    {
      if clusters[i].Unlisted? {
        assert found + [] == found;
        return found, false;
      }
      assert clusters[i..][1..] == clusters[i + 1..];
      found := found + clusters[i].found;
    }
    assert found + [] == found;
    listed := true;
  }

  /** Idle past the threshold, no open run, no calibration under way. */
  predicate Reapable(s: Store, e: int, deployedAt: Instant, now: Instant, ttl: Duration, activity: map<int, Instant>, calibrating: set<int>)
  {
    && now - (if e in activity then activity[e] else deployedAt) >= ttl
    && e !in s.marker
    && e !in calibrating
  }

  /** An execution the pass will try to reap: judged once, on its first mention. */
  ghost predicate Due(s: Store, found: seq<(int, Instant)>, e: int, now: Instant, ttl: Duration, activity: map<int, Instant>, calibrating: set<int>)
  {
    && FirstDeployed(found, e).Some?
    && now - (if e in activity then activity[e] else FirstDeployed(found, e).value) >= ttl
    && e !in s.marker && e !in calibrating
  }

  class ControlPlane {
    var store: Store

    constructor (s: Store)
      ensures store == s
    {
      store := s;
    }

    /** The finalisation sequence, call by call. */
    method Finalize(e: int, r: int, o: Outcome, luck: Luck) returns (ok: bool)
      modifies this
      ensures (store, ok) == Finalised(old(store), e, r, o, luck)
    {
      var already := luck.looks && r in store.reports;
      var snapshot := Working(store, r);
      if r !in store.history || e !in store.executions || !luck.saves {
        return false;
      }
      store := SaveReport(store, r, Report(e, o, snapshot.log));
      if !already {
        if !luck.grades {
          return false;
        }
        store := store.(graded := store.graded + {r});
      }
      if !luck.discards {
        return false;
      }
      store := store.(progress := store.progress - {r});
      if !luck.closes {
        return false;
      }
      if e in store.marker && store.marker[e] == r {
        store := StopRun(store, e);
      }
      ok := true;
    }

    /** One open run's turn: finalised and closed if its orphans cover the profile.
        Its orphans may be unreadable, and so may its profile, which is read only
        if there are orphans. */
    method ReconcileOne(x: OpenRun, luck: Luck, readable: bool, profiled: bool) returns (done: bool, shut: bool, ghost verdict: Outcome)
      requires Linked(store) && x.execution in store.marker && store.marker[x.execution] == x.run
      modifies this
      ensures Turn(old(store), store, x, readable, profiled, done, shut)
      ensures readable && profiled ==> store == Reconciled(old(store), x.execution, verdict, luck)
    {
      var e := x.execution;
      verdict := Aborted;
      if !readable {
        return false, false, verdict;
      }
      if !HasOrphans(store, e) {
        return true, false, verdict;
      }
      if !profiled {
        return false, false, verdict;
      }
      if e !in store.executions {
        return true, false, verdict;
      }
      var covers := OrphansCoverProfile(store.orphans[e], store.executions[e].profile);
      if !covers {
        return true, false, verdict;
      }
      var o := OrphanOutcome(store.orphans[e]);
      verdict := o;
      FinalisedCloses(store, e, o, luck);
      done := Finalize(e, x.run, o, luck);
      shut := done;
      if done {
        store := StopRun(store, e);
      }
    }

    /** Close the open runs whose engines all finished without it. After an
        error-free pass no open run is stranded; only stranded runs were closed,
        each with a report. With none stranded the pass changes nothing. The
        first run it cannot read, or cannot finalise, ends it. */
    method Reconcile(open: seq<OpenRun>, luck: int -> Luck, unreadable: set<int>, unprofiled: set<int>) returns (ok: bool)
      requires ListsOpen(open, store) && Linked(store)
      modifies this
      ensures ok ==> NoneStranded(store)
      ensures forall e :: e in old(store).marker && e !in store.marker ==> ClosedOnEvidence(old(store), store, e)
      ensures ok ==> forall i :: 0 <= i < |open| ==> open[i].run !in unreadable
      ensures forall e :: e in store.marker ==> e in old(store).marker && store.marker[e] == old(store).marker[e]
      ensures ReportsGrow(old(store), store)
      ensures NoneStranded(old(store)) ==> store == old(store)
      ensures NoneStranded(old(store)) && unreadable == unprofiled == {} ==> ok
    {
      ghost var s0 := store;
      for i := 0 to |open|
        invariant Passing(s0, store, open, i, unreadable)
      {
        ghost var s1 := store;
        StillOpen(s0, s1, open, i);
        var readable, profiled := open[i].run !in unreadable, open[i].run !in unprofiled;
        var done, shut, _ := ReconcileOne(open[i], luck(open[i].run), readable, profiled);
        if !done {
          TurnFails(s0, s1, store, open, i, unreadable, profiled, shut);
          return false;
        }
        TurnPasses(s0, s1, store, open, i, unreadable, profiled, shut);
      }
      ReconciledAll(s0, store, open);
      ok := true;
    }

    /** One open run: young ones are left, reported ones only lose their marker,
        unreported ones with no pods are finalised first. */
    method SweepOne(x: OpenRun, now: Instant, after: Duration, pods: map<int, nat>, luck: Luck, broken: bool)
      returns (done: bool, shut: bool, ghost verdict: Outcome)
      requires Linked(store) && x.execution in store.marker && store.marker[x.execution] == x.run
      requires store.history[x.run].started == x.started
      modifies this
      ensures done && shut ==> Closes(old(store), store, x.execution, x.run)
      ensures done && !shut ==> store == old(store) && Spared(store, x.execution, now, after, pods)
      ensures x.run !in old(store).reports && x.run in store.reports ==>
                ShardsVerdict(store.reports[x.run].outcome, Working(old(store), x.run).shards)
      ensures !done ==> store.marker == old(store).marker && SameStarts(old(store), store)
      ensures ReportsGrow(old(store), store)
      ensures !broken && Spared(old(store), x.execution, now, after, pods) ==> done && !shut
      ensures !broken ==> store == Swept(old(store), x.execution, now - x.started >= after, if x.execution in pods then pods[x.execution] else 0, verdict, luck)
    {
      verdict := Aborted;
      if now - x.started < after {
        return true, false, verdict;
      }
      if broken {
        return false, false, verdict;
      }
      if x.run in store.reports {
        StopRunCloses(store, x.execution);
        store := StopRun(store, x.execution);
        return true, true, verdict;
      }
      if x.execution !in store.executions {
        return true, false, verdict;
      }
      if x.execution in pods && pods[x.execution] > 0 {
        return true, false, verdict;
      }
      done, verdict := EndAbandoned(x, luck);
      shut := done;
    }

    /** Report an unreported run from its shards as they stand, then clear its marker. */
    method EndAbandoned(x: OpenRun, luck: Luck) returns (done: bool, ghost verdict: Outcome)
      requires Linked(store) && x.execution in store.marker && store.marker[x.execution] == x.run
      requires x.execution in store.executions && x.run !in store.reports
      modifies this
      ensures store == AbandonedEnd(old(store), x, verdict, luck) && EndsAbandoned(old(store), store, x, done)
    {
      var states := ShardStates(Working(store, x.run).shards);
      var o := Finalisers.StopOutcome(states);
      verdict := o;
      ListedVerdict(o, states, Working(store, x.run).shards);
      AbandonedEnds(store, x, o, luck);
      done := Finalize(x.execution, x.run, o, luck);
      if done {
        store := StopRun(store, x.execution);
      }
    }

    /** Close runs nothing else can. `pods` holds each execution's live pool;
        `broken` the runs on which some read fails, which ends the pass. */
    method ReconcileAbandoned(open: seq<OpenRun>, now: Instant, after: Duration, pods: map<int, nat>,
                              luck: int -> Luck, broken: set<int>)
      returns (closed: seq<OpenRun>, ok: bool)
      requires ListsOpen(open, store) && Linked(store)
      modifies this
      ensures after <= 0 ==> store == old(store) && closed == [] && ok
      ensures Linked(store) && SameStarts(old(store), store)
      // What is still open is young, or unreported with live pods or no execution.
      ensures ok && after > 0 ==> Calm(store, now, after, pods)
      ensures forall e :: e in store.marker ==> e in old(store).marker && store.marker[e] == old(store).marker[e]
      // What was closed is exactly what is returned, and is reported.
      ensures ok ==> forall x :: x in open ==> (x in closed <==> x.execution !in store.marker)
      ensures forall x :: x in closed ==> x in open && x.run in store.reports
      ensures ReportsGrow(old(store), store)
      // Nothing to close: nothing happens.
      ensures after > 0 && broken == {} && Calm(old(store), now, after, pods) ==> ok && closed == [] && store == old(store)
    {
      closed := [];
      if after <= 0 {
        return [], true;
      }
      ghost var s0 := store;
      for i := 0 to |open|
        invariant Sweeping(s0, store, open, i, closed, now, after, pods)
        invariant broken == {} && Calm(s0, now, after, pods) ==> closed == [] && store == s0
      {
        var x := open[i];
        ghost var s1 := store;
        var done, shut, _ := SweepOne(x, now, after, pods, luck(x.run), x.run in broken);
        if !done {
          ReportsGrowOn(s0, s1, store);
          return [], false;
        }
        if shut {
          SweepingShut(s0, s1, store, open, i, closed, now, after, pods);
          closed := closed + [x];
        } else {
          SweepingSkip(s0, store, open, i, closed, now, after, pods);
        }
      }
      SweptAll(s0, store, open, closed, now, after, pods);
      ok := true;
    }

    /** Tear down the engines of idle executions, cluster by cluster, up to the
        first that cannot be listed; `failing` are the executions whose reap
        fails, which does not stop the others. Only due executions go, each
        once; their orphaned completions go with them, and no marker, report or
        working state is touched. The result is in order if the pass got
        through all clusters. */
    method ReapIdle(ttl: Duration, now: Instant, clusters: seq<Listing>, activity: map<int, Instant>,
                    calibrating: set<int>, failing: set<int>)
      returns (reaped: seq<int>, ok: bool)
      modifies this
      ensures ttl <= 0 ==> reaped == [] && ok
      ensures ttl > 0 ==> forall e :: e in reaped <==> Due(old(store), FoundIn(clusters), e, now, ttl, activity, calibrating) && e !in failing
      ensures ttl > 0 ==> (ok <==> AllListed(clusters) && forall e :: e in failing ==> !Due(old(store), FoundIn(clusters), e, now, ttl, activity, calibrating))
      ensures forall i, j :: 0 <= i < j < |reaped| ==> reaped[i] != reaped[j]
      ensures AllListed(clusters) ==> Ascending(reaped)
      ensures store == old(store).(orphans := old(store).orphans - (set e | e in reaped))
    {
      var found, listed := ListClusters(clusters);
      var some;
      some, ok := ReapFound(ttl, now, found, activity, calibrating, failing, listed);
      if ttl <= 0 || !listed {
        return some, ok;
      }
      reaped := Sort(some);
      assert (set e | e in some) == (set e | e in reaped) by {
        assert forall e :: e in some <==> e in reaped;
      }
    }

    /** The pass over what was found. */
    method ReapFound(ttl: Duration, now: Instant, found: seq<(int, Instant)>, activity: map<int, Instant>,
                     calibrating: set<int>, failing: set<int>, listed: bool)
      returns (reaped: seq<int>, ok: bool)
      modifies this
      ensures ttl <= 0 ==> reaped == [] && ok
      ensures ttl > 0 ==> forall e :: e in reaped <==> Due(old(store), found, e, now, ttl, activity, calibrating) && e !in failing
      ensures ttl > 0 ==> (ok <==> listed && forall e :: e in failing ==> !Due(old(store), found, e, now, ttl, activity, calibrating))
      ensures forall i, j :: 0 <= i < j < |reaped| ==> reaped[i] != reaped[j]
      ensures store == old(store).(orphans := old(store).orphans - (set e | e in reaped))
    {
      reaped, ok := [], true;
      ghost var s0 := store;
      assert s0.orphans - {} == s0.orphans;
      if ttl <= 0 {
        return;
      }
      var seen: set<int> := {};
      for i := 0 to |found|
        invariant forall e :: e in seen <==> FirstDeployed(found[..i], e).Some?
        invariant forall e :: e in reaped <==> Due(s0, found[..i], e, now, ttl, activity, calibrating) && e !in failing
        invariant ok <==> forall e :: e in failing ==> !Due(s0, found[..i], e, now, ttl, activity, calibrating)
        invariant forall a, b :: 0 <= a < b < |reaped| ==> reaped[a] != reaped[b]
        invariant store == s0.(orphans := s0.orphans - (set e | e in reaped))
      {
        var e, deployedAt := found[i].0, found[i].1;
        assert found[..i + 1][..i] == found[..i];
        if e !in seen {
          seen := seen + {e};
          if Reapable(store, e, deployedAt, now, ttl, activity, calibrating) {
            if e in failing {
              ok := false;
              assert Due(s0, found[..i + 1], e, now, ttl, activity, calibrating);
            } else {
              store := ClearOrphans(store, e);
              reaped := reaped + [e];
            }
          }
        }
      }
      assert found[..|found|] == found;
      ok := ok && listed;
    }
  }
}
