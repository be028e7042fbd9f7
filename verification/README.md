# Honryu, modelled and proved in Dafny

Honryu is a load-testing control plane. Engine pods in several clusters run a
load test; a sidecar in each pod pushes its measurements to the control plane;
the control plane decides when a run is over, writes its report, keeps a ledger
of engine capacity, searches for the capacity of one pod, sends digests, and
freezes projects during campaigns. Its difficult part is a handful of small
protocols over shared stores. This project models those protocols and proves
what every history of them keeps.

Values, expressions and translations are datatypes, functions and lemmas. Loops
and stores that the program changes step by step are methods and classes, each
specified by a function of its inputs or of its old state. Protocols are state
machines: a state, the steps that are enabled in it, the state after a step, and
an invariant that every step keeps, so that each main theorem speaks of every
sequence of steps.

| module | what it models |
|---|---|
| `Common`, `Outcomes` | sums and filters; outcomes, their severity, and rolling several into one |
| `Lines`, `Sidecar` | cutting the byte stream into lines; the sidecar that numbers, keeps, pushes and drops intervals |
| `Progress`, `Delivery` | the working state and its sequence watermark; at-least-once pushes from many sidecars |
| `Completion`, `Finalisers` | when a run is complete; finalisers of one run racing each other and the pushes |
| `IntervalKeys`, `LiveView` | the live view's text keys, its deduplication and its per-cluster tally |
| `Lifecycle`, `Sweeps` | deploy, trigger, ingest, stop, purge, reap, reconcile; the sweeping passes as loops |
| `Quota`, `QuotaService` | the reservation ledger: admission, reclaim, release, fan-out |
| `Calibration`, `CalibrationDriver` | the capacity search; driving it under leases, replicas and crashes |
| `Waits` | the bounded wait loops |
| `Digest` | digest windows and their counts |
| `Campaign` | freeze and drain |

Time is an integer (milliseconds in `Waits`, seconds in `Calibration` and
`Digest`, unit-free elsewhere), counts are unbounded integers, and rates of the
capacity search are real numbers.

## What the proofs found

These are places where the code, a comment beside it, or two parts of it
disagree. Each has a lemma with the exact condition.

- Two implementations of `Absorb` exist. They agree on a batch if and only if
  its part beyond the watermark is strictly increasing (`Progress.StoresAgree`,
  `Progress.StoresDisagree`). Sidecars always send such batches.
- Two differently named clusters can share a live-view key if and only if the
  longer name is the shorter one, a bar, and text that reads as the numeric
  fields (`IntervalKeys.CollideIff`); registered names may contain a bar.
- A stop can end a run without a report, for good. Teardown ignores the error of
  its finalise and clears the marker all the same; a reported run comes out of it
  if and only if a report was stored before or teardown got as far as a save that
  worked (`Lifecycle.StopEndsIff`, `Lifecycle.StopCanLoseReport`). No later use
  case looks at an ended run again (`Lifecycle.UnreportedForGood`).
- A run is graded if and only if grading worked on the finalise that saved its
  report, or on a later one that failed to see the report. A grading error is
  returned, but a retry that sees the report stored skips the grading it came to
  repeat (`Lifecycle.GradedAtTheSaveOrUnseen`).
- The live view's deduplication is kept per execution and its tally per run. A
  natural completion forgets both, a stop forgets neither and leaves the pods
  deployed, so the next run's tally falls short of its record by exactly the
  measurements whose keys earlier runs left behind (`LiveView.StopCarriesOver`,
  `LiveView.TallyMatchesRecord`). An interval absorbed just before a stop, its
  answer lost, is sent again and does this (`LiveView.StoppedRunShortens`).
- With the use cases as atomic steps, an open run never has orphaned
  completions, so a reconcile pass has nothing to close
  (`Lifecycle.OpenRunsStayClean`, `Sweeps.ReachableNoneStranded`). The pass only
  matters for interleavings inside a use case.
- Used capacity counts a reservation twice if and only if its execution still
  runs past the reservation's end and its window overlaps the request's all the
  same (`Quota.UsedOvercounts`). The comment calls the two sets disjoint by
  construction, which needs a request that does not start in the past.
- A reclaim fails if and only if the reservations it has to stop name one
  execution twice, or one it cannot stop (`Quota.ReclaimFailsIff`). A run that
  ends on its own keeps its reservation, so an execution that runs again can own
  two overrunning ones (`Quota.TwoOverrunsReached`); a request that needs both
  is then refused with an error although enough was freed
  (`Quota.SecondStopRefuses`).
- A finished search can still get its profile if and only if a replica that saw
  it end is about to store it and the verdict is not impaired
  (`CalibrationDriver.ProfileStillComesIff`). If that replica dies, or one of its
  calls fails, the profile is lost: a finished job is never claimed again, and
  both ways to lose it are reached (`CalibrationDriver.ProfileCanBeLost`).
- A replica that records after its lease ran out leaves history and job state in
  step if and only if no step was recorded since it claimed
  (`CalibrationDriver.RecordSoundIff`); a schedule in which two replicas record
  is reached from an empty store (`CalibrationDriver.OutlivedLeaseDiverges`).
  Inside the leases no profile names a failed job; a late replica can fail a job
  whose profile another one has stored (`CalibrationDriver.FailedJobsUnnamed`,
  `CalibrationDriver.OutlivedLeaseMisnames`), and leaves a failed job named if
  and only if it was named before (`CalibrationDriver.FailsNamedIff`). A late
  recording can also put a failed job back to work
  (`CalibrationDriver.OutlivedLeaseRevives`).
- The HTTP trigger wait keeps one shrinking poll for two deadlines. Once a pass
  finds no pods, no later pass sleeps longer than that pass had left of the short
  deadline, however much of the long one remains (`Waits.PollNeverRecovers`); the
  loop does so on its default settings (`Waits.AbsentThenStarting`).
- Digest columns add up to the total if and only if no run ended in error: an
  error has no column (`Digest.ColumnsMissErrors`). A report stored after the
  digest covering its start fired is counted by no digest
  (`Digest.CountedIffKnownInTime`), so the totals add up to the reports of the
  whole span if and only if none was stored too late (`Digest.TotalsAddUp`).
- The comment on `IsFrozen` disagrees with itself: its first paragraph exempts an
  execution designated by *every* active campaign of its project, its second one
  that *any* of them designates. The code follows the second, drain the first.
  Freeze and drain agree on an execution if and only if no campaign designates it
  while another that includes its project does not
  (`Campaign.AgreeIff`, `Campaign.TwoCampaignsDisagree`).

## Model

| member | source | states |
|---|---|---|
| Outcomes.WorstOutcome | internal/domain/taurus/run.go:93-110 | the loop returns the most severe outcome seen, a pass when there is none |
| Outcomes.WorstIsMaximum | internal/domain/taurus/run.go:93-110 | that outcome is a maximum by severity and the only one |
| Outcomes.ShardMeans | internal/domain/taurus/run.go:54-65 | 0 is a pass, 2 an abort, 3 a failure, any other code or none an error |
| Outcomes.CombineMeans | internal/domain/taurus/run.go:54-91 | over the codes: a pass iff there are some and all are 0, an error iff there are none or one is unclear, a failure iff one is 3 and none unclear, an abort otherwise |
| Outcomes.CombineNoBetter | internal/domain/taurus/run.go:54-91 | the roll-up of exit codes is no better than any shard's, is some shard's own, and is an error when a code is missing |
| Lines.SplitRoundTrip | internal/sidecar/sidecar.go:248-264 | lines and tail spell the stream back |
| Lines.SplitUnique | internal/sidecar/sidecar.go:248-264 | no other newline-free decomposition spells it |
| Lines.SplitContinues | internal/sidecar/sidecar.go:233-264 | carrying the unterminated tail into the next read loses and repeats nothing |
| Lines.ChunkingIrrelevant | internal/sidecar/sidecar.go:233-264 | however the stream is divided into reads, the lines taken out are the terminated lines of the whole, and the carry is its tail |
| Sidecar.TrimExact | internal/sidecar/sidecar.go:266-270 | trimming takes off tabs, line ends and spaces at the two ends, all of them and nothing else, and leaves nothing iff the line is blank |
| Sidecar.Reader.NumberedReports | internal/sidecar/sidecar.go:266-288 | one interval per line that is not blank and decodes, in order, with that line's second, samples and failures, under the mapped label where there is one |
| Sidecar.Reader.NumberedFromOne | internal/sidecar/sidecar.go:266-288 | intervals are numbered 1, 2, 3 without gaps |
| Sidecar.Reader.IntervalsGrow | internal/sidecar/sidecar.go:233-288 | reading more only appends; nothing is renumbered |
| Sidecar.Sidecar.constructor | internal/sidecar/sidecar.go:95-110 | a new sidecar has read, numbered, sent and acknowledged nothing |
| Sidecar.Sidecar.Consume | internal/sidecar/sidecar.go:266-288 | a line that is not blank and decodes is numbered next and queued, saying what the line says; any other changes nothing |
| Sidecar.Sidecar.ConsumeLines | internal/sidecar/sidecar.go:248-264 | every complete line of the carry is consumed in order and the carry becomes its tail |
| Sidecar.Sidecar.Feed | internal/sidecar/sidecar.go:233-245 | after a read, carry and pending are what the whole stream so far means |
| Sidecar.Sidecar.Drain | internal/sidecar/sidecar.go:233-245 | the same for any number of reads |
| Sidecar.Sidecar.CheckExitCode | internal/sidecar/sidecar.go:190-205 | an exit code is learned when its file is there, and otherwise kept |
| Sidecar.Sidecar.Flush | internal/sidecar/sidecar.go:292-353 | a push carries exactly what is pending; only a success drops it, and only what was sent: what is read while the push is under way stays pending |
| Sidecar.Sidecar.Finish | internal/sidecar/sidecar.go:147-179 | shutdown reads the rest, all of it and nothing else, and makes one final push with the exit code and everything not acknowledged |
| Sidecar.Sidecar.PeriodicFlush | internal/sidecar/sidecar.go:160-165 | a failed timer push keeps everything pending |
| Sidecar.WaitForStream | internal/sidecar/sidecar.go:207-224 | waiting ends with the first look that does not miss the stream |
| Sidecar.Sidecar.Run | internal/sidecar/sidecar.go:130-181 | without a stream nothing is read or pushed, and being cancelled or refused it is an error; once it is there, as the loop |
| Sidecar.Sidecar.Loop | internal/sidecar/sidecar.go:144-181 | on every path out of the loop there is exactly one final push and it is the last; it carries the exit code and everything not acknowledged before it, and if it succeeds everything read and parseable is acknowledged; the loop ends on the first cancel, engine exit or exit file, takes the exit code from it, and has read every byte up to there |
| Progress.Validate | internal/ports/reportprogress.go:78-92 | accepts iff the run and the scenario are named and every interval is numbered; which of the three is blamed, the run first |
| Progress.AbsorbedLog | internal/adapters/repo/mysql/report_progress.go:24-78 | absorbing appends to one shard exactly the intervals beyond its watermark |
| Progress.AbsorbedSpelledOut | internal/adapters/repo/mysql/report_progress.go:24-78 | from the stream a shard is known by, the intervals beyond its last number are added; from an unknown shard or a restarted sidecar, all of them; stream, end and exit code of its row, and no other row |
| Progress.AbsorbIdempotent | internal/ports/reportprogress.go:104-118 | absorbing a batch twice is absorbing it once, whatever it carries |
| Progress.BeyondWatermark | internal/adapters/repo/mysql/report_progress.go:38-60 | one pass yields the fresh intervals and the highest sequence |
| Progress.StoresAgree | internal/ports/fake/reportprogress.go:67-112 | the in-memory and the SQL store agree on a batch iff its fresh part is strictly increasing |
| Progress.StoresDisagree | internal/ports/fake/reportprogress.go:67-112 | a batch that goes backwards separates them |
| Progress.ReportProgress.constructor | internal/ports/fake/reportprogress.go:56-58 | a new store holds nothing |
| Progress.ReportProgress.Absorb | internal/adapters/repo/mysql/report_progress.go:24-78 | a refused batch changes nothing; an accepted one changes one run by the watermark rule |
| Progress.ReportProgress.Discard | internal/ports/reportprogress.go:104-118 | one run's working state is dropped and no other |
| Delivery.StepAdvances | internal/sidecar/sidecar.go:292-353 | a client only moves forward, and not at all after its final push |
| Delivery.ClientSideKept | internal/sidecar/sidecar.go:292-353 | every push ever made is a slice of its client's numbering that starts no later than what is acknowledged |
| Delivery.AbsorbPush | internal/app/metricsapp/ingest.go:189-198 | absorbing any push ever made leaves a prefix of the numbering, at least as long as the push reaches |
| Delivery.ServerSideKept | internal/app/metricsapp/ingest.go:141-198 | each step keeps: absorbed is a prefix, covers what is acknowledged, and the watermark is its length |
| Delivery.PushesValidate | internal/ports/reportprogress.go:78-92 | a push of a run and scenario with positive ids is never refused as malformed |
| Delivery.NeverMalformed | internal/ports/reportprogress.go:78-92 | so over every schedule no push is refused as malformed |
| Delivery.ExactlyOnce | internal/ports/reportprogress.go:104-108 | absorbed intervals are the first n, each once and in order; after an accepted final push they are all |
| Delivery.DeliveredExactlyOnce | internal/app/metricsapp/ingest.go:141-198 | over every schedule of sends, losses, delays, repeats and lost answers the run holds of each shard the first n intervals, each once and in order; all of them once a final push was accepted |
| Delivery.FlushOnWire | internal/sidecar/sidecar.go:292-353 | a sidecar that is a client of the protocol stays it over a flush: no step with nothing to push, otherwise a send of the very batch it made, whatever is read meanwhile, and an acknowledgement or a giving up |
| Delivery.More | internal/sidecar/sidecar.go:233-288 | what a read adds to what was read before is more intervals, numbered on |
| Delivery.BytesTracked | internal/sidecar/sidecar.go:233-353 | over every schedule of reads and protocol steps each client holds the parsed lines of its bytes |
| Delivery.EveryLineReported | internal/sidecar/sidecar.go:233-353 | over every schedule of reads, pushes, losses and repeats the run holds of each shard a prefix of what its lines say; once a final push was accepted, one interval per complete line that is not blank and decodes, in order, with that line's fields |
| Completion.Clusters | internal/domain/execution/execution.go:171-186 | the fan-out targets, all of them and no others, or else just the execution's own cluster |
| Completion.PlannedMember | internal/app/metricsapp/ingest.go:234-256 | which (scenario, cluster, shard) triples a profile plans |
| Completion.PlannedCount | internal/app/metricsapp/ingest.go:238-256 | the planned number is at least the planned triples, and equal iff no scenario repeats |
| Completion.CountFinished | internal/app/metricsapp/ingest.go:224-233 | the loop counts the finished shards |
| Completion.AllShardsFinished | internal/app/metricsapp/ingest.go:223-257 | with entries, scenarios and targets as the stores give them and only planned shards pushing: true iff on every fan-out target, or on the single cluster, every shard of every entry has finished; an empty plan never completes |
| Completion.CountingIsCoverage | internal/app/metricsapp/ingest.go:200-257 | if only planned shards push, the count is met iff every planned triple finished on every cluster and no scenario repeats |
| Completion.CountMetIff | internal/app/metricsapp/ingest.go:200-257 | for a stored profile, in which the schema lets no scenario repeat, the count is met iff every shard of every entry finished on every fan-out target, or on the single cluster |
| Finalisers.StopOutcome | internal/app/metricsapp/service.go:203-215 | the loop computes the stop outcome: an error if a finished shard left a code that is none of 0, 2 and 3, else a failure if one left 3, else an abort |
| Finalisers.StopVerdict | internal/app/metricsapp/service.go:192-215 | a stop is never a pass, never better than a shard that had finished with a code, and never worse than the evidence |
| Finalisers.PushKeepsFinished | internal/app/metricsapp/ingest.go:200-257 | once all planned shards finished, no push undoes it |
| Finalisers.NaturalJudgement | internal/app/metricsapp/ingest.go:271-285 | rolling up the listed codes gives the worst of the shards' own endings |
| Finalisers.StepSafe | internal/app/metricsapp/service.go:238-360 | every repository call of every finaliser, and every push between, keeps the invariant: a discarded run already has its report |
| Finalisers.CountingBegins | internal/app/metricsapp/ingest.go:200-217 | a natural completion may begin exactly when the count is met |
| Finalisers.ReportWrittenOnce | internal/ports/reportstore.go:17-28 | over every interleaving the stored report is written once, never changes, was built before any discard, and holds of every shard a prefix |
| Finalisers.FirstSaveWins | internal/app/metricsapp/service.go:154-165 | the stored report is the first saver's, as it judged and read |
| Finalisers.ReportIsTheSnapshot | internal/app/metricsapp/service.go:238-319 | whatever its kind, the report holds exactly the log the run held when its winner took the snapshot, before any discard |
| Finalisers.LookDecidesGrading | internal/app/metricsapp/service.go:249-338 | after its save a finaliser grades unless its look worked and found a report |
| Finalisers.ReportIsTheJudgement | internal/app/metricsapp/service.go:180-215 | and says what its winner judged from the shards listed then, spelled out over their codes for each kind |
| Finalisers.SavedIff | internal/app/metricsapp/service.go:315-319 | a run has a report iff some finaliser got as far as saving |
| Finalisers.NaturalReportComplete | internal/app/metricsapp/ingest.go:259-285 | a natural completion that wins the save holds every interval of every planned shard, and says passed iff every shard exited 0, error iff one left no or an unclear code, failed iff one left 3 and none was unclear; no other winner reports a pass |
| IntervalKeys.DigitsReadBack | internal/app/metricsapp/ingest.go:294-296 | the decimal text of a number reads back as the number and has no leading zero |
| IntervalKeys.InjectiveWithinCluster | internal/app/metricsapp/ingest.go:292-297 | within one cluster the key is injective, whatever the cluster is called |
| IntervalKeys.InjectiveWithoutBars | internal/app/metricsapp/ingest.go:287-297 | the key is injective when cluster names have no bar |
| IntervalKeys.CollideIff | internal/app/metricsapp/ingest.go:292-297 | exactly when two cluster names can share a key |
| IntervalKeys.BarredNamesCollide | internal/app/metricsapp/ingest.go:292-297 | two pods of barred cluster names that do share one |
| LiveView.LiveViews.constructor | internal/app/metricsapp/ingest.go:38-40 | new views have seen and counted nothing |
| LiveView.LiveViews.Take | internal/app/metricsapp/ingest.go:43-100 | a measurement is counted for its run and cluster only if its key is new to the execution; no other execution and no other run changes |
| LiveView.LiveViews.TakeBatch | internal/app/metricsapp/ingest.go:183-191 | the batch loop feeds every interval in order |
| LiveView.LiveViews.Forget | internal/app/metricsapp/ingest.go:58-64 | a natural completion drops an execution's keys and a run's tally and no others, so the next run starts with nothing carried over |
| LiveView.StopCarriesOver | internal/app/metricsapp/ingest.go:43-64 | after a stop the next run starts with every key the stopped one fed carried over |
| LiveView.FirstsCoverKeys | internal/app/metricsapp/ingest.go:43-56 | what is counted is every key that arrived, once each |
| LiveView.TallyIgnoresRetries | internal/app/metricsapp/ingest.go:27-32 | repeats and their order do not change a tally |
| LiveView.WatchedFed | internal/app/metricsapp/ingest.go:183-198 | over every schedule of any run, its sidecars fresh or in mid-stream, record and live view both hold every interval from where each sidecar had got across up to how far it was heard, the record each once |
| LiveView.StopThenNextBegins | internal/app/lifecycleapp/service.go:1347-1384 | however a run is stopped, the next one begins with what its sidecars had got across, and every key fed so far carried over |
| LiveView.TallyMatchesRecord | internal/app/metricsapp/ingest.go:183-198 | over every schedule of any run, without barred names and repeated (second, request) pairs, each tally is that cluster's share of the permanent record less the keys earlier runs left behind, to the sample |
| LiveView.StoppedRunShortens | internal/app/metricsapp/ingest.go:183-217 | a run and its successor in which the second tally is below the second record |
| Lifecycle.OpenRunsStayClean | internal/app/lifecycleapp/service.go:521-571 | over every history an open run has no orphans, at most one run per execution is open, and a reconcile pass closes nothing |
| Lifecycle.NextKeeps | internal/app/lifecycleapp/service.go:303-351 | every use case keeps markers, history, orphans and reports consistent |
| Lifecycle.IngestedKeeps | internal/app/metricsapp/ingest.go:141-218 | so does ingest, which records an orphan only when no run is open |
| Lifecycle.TriggeredKeeps | internal/app/lifecycleapp/service.go:521-600 | so does trigger, which refuses while a run is open or orphans are recorded, and rolls back |
| Lifecycle.TeardownKeeps | internal/app/lifecycleapp/service.go:1347-1384 | so does teardown, wherever it returns early |
| Lifecycle.LaterRunSurvives | internal/app/metricsapp/service.go:362-378 | over every history no step but a run's own clears its marker, late finalises and late final pushes of earlier runs and reconcile turns included |
| Lifecycle.OnlyTriggersOpen | internal/app/lifecycleapp/service.go:521-600 | over every history a run is opened only by an admitted trigger that found no run open and no orphans, and no run id is given out twice |
| Lifecycle.StopEndsIff | internal/app/lifecycleapp/service.go:1347-1384 | exactly when a stop clears the marker, exactly when the run is reported after it, and with what |
| Lifecycle.StopCanLoseReport | internal/app/lifecycleapp/service.go:1376-1384 | a stop whose save fails ends an unreported run |
| Lifecycle.UnreportedForGood | internal/app/lifecycleapp/service.go:1376-1384 | over every history such a run stays unreported, unless a finalise of it was already under way |
| Lifecycle.PushClosesIff | internal/app/metricsapp/ingest.go:196-257 | a push closes its run iff it is a last one, after it every shard of every entry has finished on every fan-out target or on the single cluster, and the finalise gets through |
| Lifecycle.LastPushCompletes | internal/app/metricsapp/ingest.go:196-217 | the push that completes the count reports the run with everything absorbed, drops its working state and closes its marker |
| Lifecycle.StrayPushesHarmless | internal/app/metricsapp/ingest.go:142-182 | stale and malformed pushes change nothing; a final one with no open run leaves only its orphan |
| Lifecycle.FinishedEnginesStayRefused | internal/app/lifecycleapp/service.go:518-529 | over every history without a deploy or a reap, engines that finished with no run open are never run again |
| Lifecycle.OrphanKnownIff | internal/app/metricsapp/ingest.go:142-162 | over every history a pod's orphaned completion is on record with an exit code iff a last push with that code found no run open, and since then no other did and neither deploy nor reap cleared the execution |
| Lifecycle.DeployThenTriggerOpens | internal/app/lifecycleapp/service.go:345-351 | a deployed and then triggered idle execution runs iff the deploy, of a plan that is not empty, got as far as clearing orphans or there were none |
| Lifecycle.StartsStamped | internal/ports/fake/run_repository.go:13-26 | over every history a run keeps the execution and start time it was opened with, and both are those of a trigger in the history |
| Lifecycle.ReapThenTriggerOpens | internal/app/lifecycleapp/service.go:942-958 | a reaped and then triggered idle execution runs iff it was due or had no orphans |
| Lifecycle.ReportsKept | internal/app/metricsapp/service.go:315-341 | over every history a stored report never changes |
| Lifecycle.GradedAtTheSaveOrUnseen | internal/app/metricsapp/service.go:327-341 | a run is graded iff grading worked on the finalise that saved its report or on a later one that did not see it |
| Lifecycle.RetriedFinaliseCloses | internal/app/metricsapp/service.go:327-378 | a finalise that failed after the save, retried after any history, gets through iff its own calls do, grading needed only if it does not see the report; then the marker is closed and the first report stands |
| Sweeps.ShardStates | internal/adapters/repo/mysql/report_progress.go:583-610 | lists each shard row once |
| Sweeps.OrphanOutcome | internal/app/metricsapp/service.go:180-190 | an error if an orphan left no code or one that is none of 0, 2 and 3, else a failure if one left 3, else an abort |
| Sweeps.OrphansCoverProfile | internal/app/lifecycleapp/service.go:734-747 | true iff the profile is not empty and every planned (scenario, shard) left an orphan |
| Sweeps.ControlPlane.Finalize | internal/app/metricsapp/service.go:238-378 | look, snapshot, first-write-wins save, grade, discard, close, in that order, stopping at the first failure, except that a failed look is taken as no report |
| Sweeps.ControlPlane.ReconcileOne | internal/app/lifecycleapp/service.go:703-726 | a run is closed iff its orphans and profile can be read, the orphans cover the profile and finalising works; with both readable it is the lifecycle's reconcile turn |
| Sweeps.ControlPlane.Reconcile | internal/app/lifecycleapp/service.go:698-729 | the first run that cannot be read or finalised ends the pass; after an error-free one none is stranded, and whatever was closed was stranded and is reported with the worst ending |
| Sweeps.ReachableNoneStranded | internal/app/lifecycleapp/service.go:698-729 | no history of the atomic use cases leaves a stranded run |
| Sweeps.ControlPlane.SweepOne | internal/app/lifecycleapp/service.go:787-830 | young runs are left, reported ones lose only their marker, unreported ones without pods are reported by their shards' codes first; without a failing read it is the lifecycle's sweep turn |
| Sweeps.ControlPlane.ReconcileAbandoned | internal/app/lifecycleapp/service.go:777-834 | after an error-free pass every open run is young, or unreported with live pods or no execution; the closed ones are those returned and are reported; no report is altered; a further pass at that instant changes nothing |
| Sweeps.ControlPlane.ReapIdle | internal/app/lifecycleapp/service.go:871-959 | exactly the due executions of the clusters up to the first unlisted one are reaped, each once, failures apart, in order if all could be listed; only their orphans go; no error iff all could be listed and every reap worked |
| Quota.UsedOvercounts | internal/app/quotaapp/service.go:205-230 | used capacity is every occupied reservation once plus the doubly counted ones, and exact iff there are none |
| Quota.Reclaimed | internal/app/quotaapp/service.go:263-282 | what is stopped is a prefix in the given order |
| Quota.ReclaimedStoppable | internal/app/quotaapp/service.go:263-282 | it names running executions, each once |
| Quota.ReclaimedEnough | internal/app/quotaapp/service.go:263-282 | without a failure it frees enough or is everything, and one fewer would not do |
| Quota.ReclaimFailsIff | internal/app/quotaapp/service.go:263-282 | exactly when a reclaim ends in an error |
| Quota.ReclaimTargets | internal/app/quotaapp/service.go:165-171 | only a request that starts now stops anyone, and only overruns of its own tenant and cluster |
| Quota.ReclaimFrees | internal/app/quotaapp/service.go:165-171 | recomputed after the stops, used capacity is at most used minus freed |
| Quota.ReservedKeeps | internal/app/quotaapp/service.go:139-203 | an admission keeps the capacity bound at every instant, whichever releases of the executions it stops fail |
| Quota.NeverOverCommitted | internal/app/quotaapp/service.go:139-203 | over every history with ceilings never lowered, failed releases included, at every instant the engines of the reservations that cover it sum to at most the ceiling stored for tenant and cluster, and to at most 10 where none is stored |
| Quota.FutureAdmittedIff | internal/app/quotaapp/service.go:139-203 | a future booking is admitted iff the occupied reservations leave room under the stored ceiling, or under 10 where none is stored, as exactly the row asked for, and stops nobody |
| Quota.NowAdmittedIff | internal/app/quotaapp/service.go:128-203 | a request that starts now is admitted iff the reservations that meet its window alone leave room under the stored ceiling, or under 10, and the overruns it has to reclaim can each be stopped, none named twice |
| Quota.RefusalsNamed | internal/app/quotaapp/service.go:139-203 | which refusal a request gets, and that over quota names the stored ceiling or 10 |
| Quota.TwoOverrunsReached | internal/app/quotaapp/service.go:139-203 | two reserved runs of one execution, the first ended on its own, leave it with two reservations |
| Quota.SecondStopRefuses | internal/app/quotaapp/service.go:263-282 | for any ceiling and engine counts that need both: two overrunning reservations of one execution refuse a request that then fits |
| QuotaService.SortByEnd | internal/app/quotaapp/service.go:264-266 | a permutation ordered by declared end |
| QuotaService.OverrunReservations | internal/app/quotaapp/service.go:235-255 | the tenant's and cluster's reservations past their end whose execution runs |
| QuotaService.UsedCapacity | internal/app/quotaapp/service.go:213-230 | adds up window-overlapping and overrunning reservations |
| QuotaService.StopInOrder | internal/app/quotaapp/service.go:268-281 | the loop stops just that prefix, and removes exactly those executions' reservations |
| QuotaService.MakeRoom | internal/app/quotaapp/service.go:160-171 | used capacity after a reclaim that is tried only when over and starting now |
| QuotaService.Admit | internal/app/quotaapp/service.go:139-203 | the whole decision, refusals and their numbers included |
| Quota.HeldIff | internal/app/quotaapp/service.go:139-289 | over every history a reservation is held iff some step admitted it and none since released its execution's |
| Quota.RunningIff | internal/app/quotaapp/service.go:232-282 | over every history an execution runs iff it was opened and none since closed or force-stopped it |
| QuotaService.Service.Reserve | internal/app/quotaapp/service.go:139-203 | the ledger becomes what the decision says; an admission fits beside the rows that meet its window under the stored ceiling, or under 10 where none is stored, and for a future window fitting is also enough |
| QuotaService.Service.Release | internal/app/quotaapp/service.go:284-289 | an execution's reservations go, all of them and no others |
| QuotaService.Service.ReserveAcross | internal/app/lifecycleapp/service.go:537-557 | all or nothing: one new reservation per cluster, or none of the execution's left; others lose only what was force-stopped while overrunning |
| Calibration.NextOk | internal/domain/calibration/calibration.go:226-280 | one decision keeps the bracket, the bounds and the witnesses |
| Calibration.SearchSound | internal/domain/calibration/calibration.go:212-280 | over every outcome sequence rates stay in the bracket and under the maximum, the budget bounds the search, and each verdict is witnessed by recorded steps |
| Calibration.SearchFindsLimit | internal/domain/calibration/calibration.go:256-280 | against a fixed limit, an engine verdict brackets it, within one tolerance unless the budget ran out |
| Calibration.Halving | internal/domain/calibration/calibration.go:226-280 | from the first rate the engine fails at, the bracket is the first one halved once per step |
| Calibration.SearchLength | internal/domain/calibration/calibration.go:256-280 | to the step: the doublings stay under the maximum, no middle is tried once the bracket is within tolerance, and inside its budget a search is over iff it is |
| Calibration.BudgetSuffices | internal/domain/calibration/calibration.go:256-280 | with a budget of more than the doublings past the maximum and the halvings to tolerance together, the budget never decides a verdict |
| CalibrationDriver.ResumeUndoesApply | internal/app/calibrationapp/service.go:537-565 | persisting then resuming loses no decision state iff the search did not return to pending |
| CalibrationDriver.Settled | internal/app/calibrationapp/service.go:405-423 | an engine-short reading is replaced by its retry's, whatever it is, at the same rate; no other reading is |
| CalibrationDriver.RecordRow | internal/app/calibrationapp/service.go:424-429 | recording a step advances history and row together |
| CalibrationDriver.ClaimKeeps | internal/adapters/repo/mysql/calibration_repository.go:116-143 | two replicas inside their leases never hold one job |
| CalibrationDriver.MoveKeeps | internal/app/calibrationapp/service.go:390-445 | every claim, record, failure, finish, crash and tick keeps the invariant: one search per job, one holder, and stored profiles that name finished searches only |
| CalibrationDriver.AsIfUninterrupted | internal/app/calibrationapp/service.go:390-445 | for every decision procedure and every schedule inside the leases, history and state are those of one uninterrupted search: where it stands for an active job, the whole state for a done one, all but the phase for a failed one |
| CalibrationDriver.CreatedAs | internal/ports/calibration_repository.go:72-76 | over every schedule a job keeps the key and the parameters it was created with |
| CalibrationDriver.ProfileIsTheVerdict | internal/app/calibrationapp/service.go:567-604 | over every schedule inside the leases a stored profile is under the key its job was created with, and holds exactly the rate and the blame one uninterrupted search over its recorded steps ended with |
| CalibrationDriver.StoredProfileBrackets | internal/app/calibrationapp/service.go:567-604 | for the shipped search and a fixed limit, a stored profile that blames the engine holds what was achieved at a floor that brackets the limit, within one unit unless the budget ran out |
| CalibrationDriver.EngineBlameIsEarned | internal/app/calibrationapp/service.go:447-478 | over every schedule, steps that outlive their lease included, and for any search, a profile that blames the engine has a clean step on record |
| CalibrationDriver.FailedJobsUnnamed | internal/app/calibrationapp/service.go:431-445 | over every schedule inside the leases no stored profile names a failed job |
| CalibrationDriver.FailedJobNeverWrote | internal/app/calibrationapp/service.go:431-445 | nor did any at any earlier moment of it, so a job failed as impaired left every profile as it was |
| CalibrationDriver.BisectionIsProper | internal/domain/calibration/calibration.go:212-280 | the shipped search meets what the driver assumes of a search |
| CalibrationDriver.RecordSoundIff | internal/ports/calibration_repository.go:92-109 | a recording leaves history and row one search iff no step was recorded since its claim |
| CalibrationDriver.OutlivedLeaseDiverges | internal/ports/calibration_repository.go:92-109 | from an empty store: a claim, an expired lease, a second claim and two recordings give two steps and one advance |
| CalibrationDriver.OutlivedLeaseMisnames | internal/ports/calibration_repository.go:92-109 | from an empty store: a late replica fails a job whose profile the other has stored |
| CalibrationDriver.FailsNamedIff | internal/ports/calibration_repository.go:113-118 | whatever its lease, a replica that fails a job leaves it named by a profile iff it was named before |
| CalibrationDriver.OutlivedLeaseRevives | internal/adapters/repo/mysql/calibration_repository.go:145-190 | from an empty store: a late recording puts a failed job back to work |
| CalibrationDriver.ProfileStillComesIff | internal/app/calibrationapp/service.go:427-445 | a finished search without a profile can still get it, by some schedule inside the leases, iff a replica is about to store it |
| CalibrationDriver.ProfileCanBeLost | internal/app/calibrationapp/service.go:427-445 | from an empty store, inside the leases: a verdict whose profile is lost, by a replica that dies or by a call that fails |
| CalibrationDriver.ProfileLostForGood | internal/app/calibrationapp/service.go:427-445 | once no replica is finishing a finished search, neither its row nor its profile is written again |
| CalibrationDriver.EnvironmentImpaired | internal/app/calibrationapp/service.go:464-478 | the loop finds a clean step when the engine is blamed |
| CalibrationDriver.NextDue | internal/adapters/repo/mysql/calibration_repository.go:123-128 | the lowest id among the jobs neither done nor failed and not claimed in the last half hour, or there is none |
| CalibrationDriver.Driver.ClaimNextStep | internal/adapters/repo/mysql/calibration_repository.go:116-143 | a claim is a step of the protocol, and none is made only when none is due |
| CalibrationDriver.Driver.RecordStep | internal/app/calibrationapp/service.go:402-429 | resuming, settling, deciding and persisting is a step of the protocol |
| CalibrationDriver.Driver.FinishSearch | internal/app/calibrationapp/service.go:431-445 | an impaired verdict fails the job and stores nothing; any other becomes the profile under the job's key, figure, blame and job; if a call fails nothing but the worker changes |
| CalibrationDriver.Driver.AdvanceOne | internal/app/calibrationapp/service.go:390-445 | one tick is a claim, the time the measurements take, and then nothing written, a failure, a record, or a record and a finish; inside the lease iff that time is |
| CalibrationDriver.Driver.RunAndRecord | internal/app/calibrationapp/service.go:402-445 | what follows the claim, and which of the four it is |
| Waits.AwaitWithPoll | internal/app/calibrationapp/step.go:222-260 | sleeps at most the timeout plus one poll, and gives up only past the deadline |
| Waits.RunStep | internal/app/calibrationapp/step.go:148-215 | one measurement sleeps at most 7 min 4 s, in whole polls of 2 s; it works iff trigger and report both do, and gives up on them only after 2 and 5 minutes |
| Waits.RunStepTwice | internal/app/calibrationapp/service.go:369-423 | a step and its retry sleep at most 14 min 8 s, inside the 30 min lease |
| Waits.TriggerWhenReady | cmd/scheduler/main.go:247-265 | no sleep ends past the deadline, and a readiness refusal is returned only past it or when cancelled |
| Waits.WindowFor | internal/adapters/httpapi/lifecycle_handlers.go:46-66 | whatever the settings, the poll is positive and the short deadline lies ahead and no later than the long one |
| Waits.WindowSpelledOut | internal/adapters/httpapi/lifecycle_handlers.go:46-66 | positive settings are used as given; otherwise 2 s, 2 min and 30 s, the short wait never longer than the long one |
| Waits.TriggerExecution | internal/adapters/httpapi/lifecycle_handlers.go:46-109 | with defaults for settings that are not positive, each sleep ends by the deadline its answer gets; absent pods are refused by the first attempt to end past the short deadline |
| Waits.WaitBetweenDeadlines | internal/adapters/httpapi/lifecycle_handlers.go:77-109 | the same of the loop itself, for any two deadlines |
| Waits.PollLoop | internal/adapters/httpapi/lifecycle_handlers.go:77-109 | the loop: when each pass happens and how long it sleeps, pass by pass |
| Waits.PollNeverRecovers | internal/adapters/httpapi/lifecycle_handlers.go:93-107 | after a pass that finds no pods, no later pass sleeps longer than that one had left of the short deadline |
| Waits.AbsentThenStarting | internal/adapters/httpapi/lifecycle_handlers.go:46-109 | on default settings the loop itself, after pods absent at 29.5 s, sleeps at most half a second ever after |
| Digest.SummariseExecution | internal/app/digestapp/service.go:318-341 | runs in the window, how they ended, and the worst of them by severity |
| Digest.BuildDigest | internal/app/digestapp/service.go:294-347 | the total is the number of runs in the window and the sum over the listed executions, which are exactly those with runs, in order, each with its worst outcome; the tally counts the passed, the failed and the aborted |
| Digest.ColumnsMissErrors | internal/app/digestapp/service.go:331-338 | the outcome columns add up to the total iff no run ended in error |
| Digest.FirstWindow | internal/app/digestapp/service.go:473-481 | over every history the first stored window is one day or one week long, to the second |
| Digest.WindowsTile | internal/app/digestapp/service.go:462-488 | over every history of fires, failed builds included, stored windows abut and no report is counted twice |
| Digest.Covered | internal/app/digestapp/service.go:462-488 | every instant of the tiled span is in some window |
| Digest.ListingIrrelevant | internal/app/digestapp/service.go:315-347 | total and columns of a digest are those of the stored reports of its window, however they are listed by execution |
| Digest.CountedIffKnownInTime | internal/app/digestapp/service.go:318-347 | a report is counted by the digest covering its start iff it was stored when that digest fired, and by no other |
| Digest.TotalsAddUp | internal/app/digestapp/service.go:462-488 | over every history the totals add up to the reports counted, each once; to all reports of the span iff none was stored too late for its window |
| Digest.DigestService.constructor | internal/app/digestapp/service.go:473-477 | a service that has fired nothing |
| Digest.DigestService.Fire | internal/app/digestapp/service.go:473-518 | a failed build stores nothing; a stored row holds the total and the columns built from the listed reports, which are those of the window's stored reports, and survives a failed delivery, which shows on the row unless writing it there fails |
| Campaign.FirstFor | internal/domain/campaign/campaign.go:103-110 | a project's designated execution is one of its entries, or it has none |
| Campaign.FirstWins | internal/domain/campaign/campaign.go:103-110 | it is that of the project's first entry |
| Campaign.IsFrozen | internal/app/campaignapp/service.go:276-298 | blocked iff some active campaign includes the project and none designates the execution; the name is the first such campaign's |
| Campaign.FrozenIgnoresOrder | internal/app/campaignapp/service.go:276-298 | the verdict does not depend on the order of campaigns |
| Campaign.DocumentedVsCode | internal/app/campaignapp/service.go:264-298 | where the rule first documented and the code part |
| Campaign.InScopeExecutions | internal/app/campaignapp/service.go:232-262 | deployed executions of participating projects other than the campaign's designated ones, each once, lowest id first |
| Campaign.Drain.DrainOnce | cmd/scheduler/main.go:382-411 | stops exactly the running in-scope executions of the active campaigns whose scope can be read, failures apart |
| Campaign.VerifyServices | internal/app/campaignapp/service.go:105-125 | accepts iff every execution belongs to its project and every project to the tenant; otherwise says what is wrong with the first service that fails |
| Campaign.FrozenIsDrained | internal/app/campaignapp/service.go:222-298 | a deployed execution is drained iff the rule first documented freezes it, so whatever the code freezes is drained |
| Campaign.AgreeIff | internal/app/campaignapp/service.go:232-298 | exactly when freeze and drain agree on an execution |
| Campaign.AgreeWhenApart | internal/app/campaignapp/service.go:232-298 | they agree on all when no project is in two active campaigns |
| Campaign.TwoCampaignsDisagree | internal/app/campaignapp/service.go:264-298 | two campaigns of one project drain each other's designated executions, which may be triggered |

## Left out

- Exactly-once delivery across sidecar restarts: a restarted sidecar reopens its file under a new stream id, so `Delivery` and `LiveView` are about one instance of each sidecar. Runs that share sidecars are in `LiveView`.
- Sidecar.TrimExact: ASCII space only; JSON decoding is a parameter of the reader.
- Sidecar.Sidecar.Run: what each look for the stream finds, and which event fires each turn, are inputs.
- Finalisers.StepSafe: a discard and each other store call is one step; the cluster breakdown, notification and engine identity of a report are not part of it.
- LiveView.LiveViews.Forget: purging an execution, which forgets its keys but no tally, is not a method of its own.
- Lifecycle.NextKeeps: each use case is one step with its readiness, freeze, quota and file checks folded into one input; the outcome of a finalise is an input, computed in `Finalisers`.
- Lifecycle.UnreportedForGood: a finalise of the same run already under way in another replica is left to `Finalisers`.
- Lifecycle.LaterRunSurvives: reading the marker and clearing it in `closeRun`, and finalising and stopping in teardown, are each one step.
- Sweeps.ShardStates: the order of the listing, by scenario, cluster and shard, is not stated; nothing that reads it depends on it.
- Sweeps.ControlPlane.ReconcileAbandoned: the clock is read once for the whole pass.
- Sweeps.ControlPlane.ReapIdle: pods, logs and scenario markers are not modelled; each execution is reaped on the cluster that listed it first.
- Sweeps.ControlPlane.Reconcile: clearing the marker again after a finalise that cleared it does not fail.
- QuotaService.Service.Reserve: the tenant lock makes an admission one step; a service without a stopper attached is not modelled.
- QuotaService.StopInOrder: stopping an execution always releases its reservations; what the ledger keeps when a release fails is in `Quota.NeverOverCommitted`.
- QuotaService.Service.ReserveAcross: the release after a refusal succeeds; errors after admission, which release nothing, are not part of it.
- Calibration.SearchSound: rates are real numbers, not floating point; so are the widths of `Calibration.Halving`.
- CalibrationDriver.AsIfUninterrupted: the search parameters do not change during a search, replicas share one clock, and a step's two measurements are inputs.
- Waits.RunStepTwice: bounds the sleeping; the time the attempts themselves take is not bounded by the code.
- Waits.TriggerWhenReady: every attempt takes some time.
- Digest.BuildDigest: service-level budgets, calibrations and threshold lines of the payload are not modelled.
- Digest.WindowsTile: fire times do not go backwards; reports are not deleted; claiming a due schedule is not modelled.
- HTTP routing, parsing, authentication, authorisation, audit, exports and the web client are out of scope: the model is of what happens once a request is accepted.
- Kubernetes and MySQL adapters are taken as stores that keep their contracts; encryption, webhooks and mail are foreign code.
