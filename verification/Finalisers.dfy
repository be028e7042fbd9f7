/** Racing finalisers of one run, interleaved with the pushes that feed it.
    Natural completion, Stop and Purge, and the sweeps all walk the same
    sequence of repository calls; any number of them may be under way at once,
    and any of them may fail between two calls. */
module Finalisers {
  import opened Common
  import opened Outcomes
  import opened Progress
  import opened Completion
  import opened Delivery

  /** Why a finaliser runs, which decides how it judges the outcome. */
  datatype Kind = Natural | Stopped | Orphaned(codes: seq<Option<int>>)

  /** The next repository call a finaliser will make. */
  datatype Pc = AtJudge | AtLook | AtSnapshot | AtSave | AtGrade | AtDiscard | AtClose

  /** `generation` counts the discards that had happened when the snapshot was taken. */
  datatype Fin = Fin(kind: Kind, pc: Pc, outcome: Outcome, already: bool, log: seq<(ShardKey, Interval)>, generation: nat)

  datatype Report = Report(log: seq<(ShardKey, Interval)>, outcome: Outcome, kind: Kind, generation: nat)

  datatype Run = Run(wire: Wire, discards: nat, report: Option<Report>, fins: map<nat, Fin>)

  datatype Act =
    | Push(step: Delivery.Step)
    | Begin(f: nat, kind: Kind)
    | Judge(f: nat, states: seq<(ShardKey, ShardRow)>)
    | Look(f: nat, works: bool)
    | Snapshot(f: nat)
    | Save(f: nat)
    | Grade(f: nat)
    | Discard(f: nat)
    | Close(f: nat)
    | Fail(f: nat)

  /** Shard endings that are real evidence at a stop: finished, with an exit code. */
  function Evidence(states: seq<(ShardKey, ShardRow)>): seq<Outcome>
  {
    if states == [] then []
    else (if states[0].1.finished && states[0].1.exitCode.Some? then [FromExitCode(states[0].1.exitCode.value)] else [])
         + Evidence(states[1..])
  }

  function Codes(states: seq<(ShardKey, ShardRow)>): seq<Option<int>>
  {
    seq(|states|, i requires 0 <= i < |states| => states[i].1.exitCode)
  }

  function Endings(codes: seq<Option<int>>): seq<Outcome>
  {
    seq(|codes|, i requires 0 <= i < |codes| => OfShard(codes[i]))
  }

  /** Natural completion rolls up every shard's code; a stop starts from "aborted" and lets worse evidence win. */
  function Judged(kind: Kind, states: seq<(ShardKey, ShardRow)>): Outcome
  {
    match kind
    case Natural => Combine(Codes(states))
    case Stopped => Worst([Aborted] + Evidence(states))
    case Orphaned(codes) => Worst([Aborted] + Endings(codes))
  }

  /** The outcome of a run that is being stopped, collected over its shard rows. */
  method StopOutcome(states: seq<(ShardKey, ShardRow)>) returns (o: Outcome)
    ensures o == Judged(Stopped, states) && StopMeans(o, states)
  {
    var outcomes := [Aborted];
    for i := 0 to |states|
      invariant outcomes == [Aborted] + Evidence(states[..i])
    {
      EvidenceSnoc(states, i);
      if states[i].1.finished && states[i].1.exitCode.Some? {
        outcomes := outcomes + [FromExitCode(states[i].1.exitCode.value)];
      }
    }
    assert states[..|states|] == states;
    o := WorstOutcome(outcomes);
    StopVerdict(states);
  }

  /** Some shard had finished with a code like this. */
  ghost predicate SomeFinished(states: seq<(ShardKey, ShardRow)>, like: int -> bool)
  {
    exists i :: 0 <= i < |states| && states[i].1.finished && states[i].1.exitCode.Some? && like(states[i].1.exitCode.value)
  }

  /** What a stop is reported as: an error if a finished shard left a code that is
      none of 0, 2 and 3, else a failure if one left 3, else an abort. */
  ghost predicate StopMeans(o: Outcome, states: seq<(ShardKey, ShardRow)>)
  {
    var unclear, failed := SomeFinished(states, c => c !in {0, 2, 3}), SomeFinished(states, c => c == 3);
    o == if unclear then Error else if failed then Failed else Aborted
  }

  lemma {:induction false} EvidenceConcat(a: seq<(ShardKey, ShardRow)>, b: seq<(ShardKey, ShardRow)>)
    ensures Evidence(a + b) == Evidence(a) + Evidence(b)
  {
    if a == [] {
      assert a + b == b;
    } else {
      assert (a + b)[1..] == a[1..] + b;
      EvidenceConcat(a[1..], b);
    }
  }

  lemma EvidenceSnoc(states: seq<(ShardKey, ShardRow)>, i: nat)
    requires i < |states|
    ensures Evidence(states[..i + 1]) == Evidence(states[..i]) + Evidence([states[i]])
  {
    assert states[..i + 1] == states[..i] + [states[i]];
    EvidenceConcat(states[..i], [states[i]]);
  }

  lemma {:induction false} EvidenceMember(states: seq<(ShardKey, ShardRow)>, o: Outcome)
    ensures o in Evidence(states) <==>
            exists i :: 0 <= i < |states| && states[i].1.finished && states[i].1.exitCode.Some?
                        && FromExitCode(states[i].1.exitCode.value) == o
  {
    if states != [] {
      EvidenceMember(states[1..], o);
      forall i | 0 <= i < |states| - 1 ensures states[1..][i] == states[i + 1] {
      }
      if i :| 0 <= i < |states| && states[i].1.finished && states[i].1.exitCode.Some? && FromExitCode(states[i].1.exitCode.value) == o {
        assert i > 0 ==> states[1..][i - 1] == states[i];
      }
    }
  }

  /** A stop is never reported as a pass, never better than a shard that had
      already finished with a code, and never worse than the evidence. */
  lemma StopVerdict(states: seq<(ShardKey, ShardRow)>)
    ensures var o := Judged(Stopped, states);
            && Severity(Aborted) <= Severity(o)
            && (forall i :: 0 <= i < |states| && states[i].1.finished && states[i].1.exitCode.Some? ==>
                  Severity(FromExitCode(states[i].1.exitCode.value)) <= Severity(o))
            && (o == Aborted || exists i :: 0 <= i < |states| && states[i].1.finished && states[i].1.exitCode.Some?
                                            && FromExitCode(states[i].1.exitCode.value) == o)
    ensures StopMeans(Judged(Stopped, states), states)
  {
    var all := [Aborted] + Evidence(states);
    var o := Worst(all);
    WorstIsMaximum(all);
    assert all[0] == Aborted;
    EvidenceMember(states, o);
    forall i | 0 <= i < |states| && states[i].1.finished && states[i].1.exitCode.Some?
      ensures Severity(FromExitCode(states[i].1.exitCode.value)) <= Severity(o)
    {
      var x := FromExitCode(states[i].1.exitCode.value);
      EvidenceMember(states, x);
      assert x in all;
      var j :| 0 <= j < |all| && all[j] == x;
      assert Severity(all[j]) <= Severity(o);
    }
  }

  ghost predicate At(r: Run, f: nat, pc: Pc)
  {
    f in r.fins && r.fins[f].pc == pc
  }

  ghost predicate Can(r: Run, a: Act)
  {
    match a
    case Push(s) => Delivery.Enabled(r.wire, s)
    case Begin(f, kind) =>
      && f !in r.fins
      && (kind.Natural? ==> r.wire.clients.Keys != {} && AllFinished(r.wire.work.shards, r.wire.clients.Keys))
    case Judge(f, states) => At(r, f, AtJudge) && Lists(states, r.wire.work.shards)
    case Look(f, _) => At(r, f, AtLook)
    case Snapshot(f) => At(r, f, AtSnapshot)
    case Save(f) => At(r, f, AtSave)
    case Grade(f) => At(r, f, AtGrade)
    case Discard(f) => At(r, f, AtDiscard)
    case Close(f) => At(r, f, AtClose)
    case Fail(f) => f in r.fins
  }

  ghost function Did(r: Run, a: Act): Run
    requires Can(r, a) && ClientSide(r.wire)
  {
    match a
    case Push(s) => r.(wire := Delivery.After(r.wire, s))
    case Begin(f, kind) => r.(fins := r.fins[f := Fin(kind, AtJudge, Error, false, [], 0)])
    case Judge(f, states) =>
      r.(fins := r.fins[f := r.fins[f].(pc := AtLook, outcome := Judged(r.fins[f].kind, states))])
    case Look(f, works) =>
      r.(fins := r.fins[f := r.fins[f].(pc := AtSnapshot, already := works && r.report.Some?)])
    case Snapshot(f) =>
      r.(fins := r.fins[f := r.fins[f].(pc := AtSave, log := r.wire.work.log, generation := r.discards)])
    case Save(f) =>
      var fin := r.fins[f];
      r.(report := if r.report.Some? then r.report else Some(Report(fin.log, fin.outcome, fin.kind, fin.generation)),
         fins := r.fins[f := fin.(pc := if fin.already then AtDiscard else AtGrade)])
    case Grade(f) => r.(fins := r.fins[f := r.fins[f].(pc := AtDiscard)])
    case Discard(f) =>
      r.(wire := r.wire.(work := Empty), discards := r.discards + 1, fins := r.fins[f := r.fins[f].(pc := AtClose)])
    case Close(f) => r.(fins := r.fins - {f})
    case Fail(f) => r.(fins := r.fins - {f})
  }

  // ------------------------------------------------------------------
  // Invariants.

  /** A snapshot holds, of every shard, a prefix of what it numbered. */
  ghost predicate Prefixes(log: seq<(ShardKey, Interval)>, clients: map<ShardKey, Client>)
  {
    forall k :: k in clients ==> ShardLog(log, k) <= clients[k].log
  }

  /** Every shard has sent its last push, and the snapshot holds all of it. */
  ghost predicate Complete(log: seq<(ShardKey, Interval)>, clients: map<ShardKey, Client>)
  {
    forall k :: k in clients ==> clients[k].finalSent && ShardLog(log, k) == clients[k].log
  }

  /** The worst of the shards' own endings, a missing exit code counting as an error: no better than any, and some shard's own. */
  ghost predicate WorstEnding(o: Outcome, clients: map<ShardKey, Client>)
  {
    && (forall k :: k in clients ==> clients[k].finalSent && Severity(OfShard(clients[k].exit)) <= Severity(o))
    && (exists k :: k in clients && OfShard(clients[k].exit) == o)
  }

  ghost predicate FairOutcome(kind: Kind, o: Outcome, clients: map<ShardKey, Client>)
  {
    if kind.Natural? then WorstEnding(o, clients) else Severity(Aborted) <= Severity(o)
  }

  ghost predicate GoodLog(kind: Kind, log: seq<(ShardKey, Interval)>, clients: map<ShardKey, Client>)
  {
    Prefixes(log, clients) && (kind.Natural? ==> Complete(log, clients))
  }

  ghost predicate Past(pc: Pc, mark: Pc)
  {
    Rank(pc) > Rank(mark)
  }

  ghost function Rank(pc: Pc): nat
  {
    match pc
    case AtJudge => 0 case AtLook => 1 case AtSnapshot => 2 case AtSave => 3
    case AtGrade => 4 case AtDiscard => 5 case AtClose => 6
  }

  /** Until some report is stored, each finaliser's local state is still sound. */
  ghost predicate FinOk(fin: Fin, r: Run)
  {
    && (Past(fin.pc, AtSave) ==> r.report.Some?)
    && (r.report.None? ==>
          && (fin.kind.Natural? ==> r.wire.clients.Keys != {} && AllFinished(r.wire.work.shards, r.wire.clients.Keys))
          && (Past(fin.pc, AtJudge) ==> FairOutcome(fin.kind, fin.outcome, r.wire.clients))
          && (Past(fin.pc, AtSnapshot) ==> fin.generation == 0 && GoodLog(fin.kind, fin.log, r.wire.clients)))
  }

  ghost predicate ReportOk(rep: Report, clients: map<ShardKey, Client>)
  {
    && rep.generation == 0
    && GoodLog(rep.kind, rep.log, clients)
    && FairOutcome(rep.kind, rep.outcome, clients)
  }

  /** The key invariant: a run whose working state has been discarded already has its report. */
  ghost predicate Safe(r: Run)
  {
    && ClientSide(r.wire)
    && (r.discards == 0 ==> ServerSide(r.wire))
    && (r.discards > 0 ==> r.report.Some?)
    && (r.report.Some? ==> ReportOk(r.report.value, r.wire.clients))
    && (forall f :: f in r.fins ==> FinOk(r.fins[f], r))
  }

  ghost predicate Start(r: Run)
  {
    Initial(r.wire) && r.discards == 0 && r.report.None? && r.fins == map[]
  }

  lemma StartSafe(r: Run)
    requires Start(r)
    ensures Safe(r)
  {
    InitialOk(r.wire);
  }

  // Pushes.

  lemma PushKeepsLog(w: Wire, s: Delivery.Step, kind: Kind, log: seq<(ShardKey, Interval)>)
    requires ClientSide(w) && Delivery.Enabled(w, s) && GoodLog(kind, log, w.clients)
    ensures GoodLog(kind, log, Delivery.After(w, s).clients)
  {
    var w' := Delivery.After(w, s);
    ClientSideKept(w, s);
    forall k | k in w'.clients
      ensures ShardLog(log, k) <= w'.clients[k].log
      ensures kind.Natural? ==> w'.clients[k].finalSent && ShardLog(log, k) == w'.clients[k].log
    {
      StepAdvances(w, s, k);
    }
  }

  lemma PushKeepsOutcome(w: Wire, s: Delivery.Step, kind: Kind, o: Outcome)
    requires ClientSide(w) && Delivery.Enabled(w, s) && FairOutcome(kind, o, w.clients)
    ensures FairOutcome(kind, o, Delivery.After(w, s).clients)
  {
    ClientSideKept(w, s);
    if kind.Natural? {
      forall k | k in w.clients
        ensures Delivery.After(w, s).clients[k].finalSent
        ensures Severity(OfShard(Delivery.After(w, s).clients[k].exit)) <= Severity(o)
      {
        StepAdvances(w, s, k);
      }
      var k :| k in w.clients && OfShard(w.clients[k].exit) == o;
      StepAdvances(w, s, k);
    }
  }

  lemma AbsorbKeepsFinished(work: Work, b: Batch, k: ShardKey)
    requires k in work.shards && work.shards[k].finished
    ensures k in Absorbed(work, b).shards && Absorbed(work, b).shards[k].finished
  {
  }

  lemma PushKeepsFinished(w: Wire, s: Delivery.Step)
    requires ClientSide(w) && Delivery.Enabled(w, s) && AllFinished(w.work.shards, w.clients.Keys)
    ensures AllFinished(Delivery.After(w, s).work.shards, Delivery.After(w, s).clients.Keys)
  {
    ClientSideKept(w, s);
    forall k | k in w.clients
      ensures k in Delivery.After(w, s).work.shards && Delivery.After(w, s).work.shards[k].finished
    {
      if s.Deliver? {
        AbsorbKeepsFinished(w.work, w.sent[s.i].batch, k);
      }
    }
  }

  lemma PushSafe(r: Run, s: Delivery.Step)
    requires Safe(r) && Can(r, Act.Push(s))
    ensures Safe(Did(r, Act.Push(s)))
  {
    var r' := Did(r, Act.Push(s));
    ClientSideKept(r.wire, s);
    if r.discards == 0 {
      ServerSideKept(r.wire, s);
    }
    if r.report.Some? {
      PushKeepsLog(r.wire, s, r.report.value.kind, r.report.value.log);
      PushKeepsOutcome(r.wire, s, r.report.value.kind, r.report.value.outcome);
    }
    forall f | f in r'.fins ensures FinOk(r'.fins[f], r') {
      var fin := r.fins[f];
      assert FinOk(fin, r);
      if r.report.None? {
        PushKeepsFin(r, s, fin);
      }
    }
  }

  lemma PushKeepsFin(r: Run, s: Delivery.Step, fin: Fin)
    requires Safe(r) && Can(r, Act.Push(s)) && FinOk(fin, r) && r.report.None?
    ensures FinOk(fin, Did(r, Act.Push(s)))
  {
    if fin.kind.Natural? {
      PushKeepsFinished(r.wire, s);
      ClientSideKept(r.wire, s);
    }
    if Past(fin.pc, AtJudge) {
      PushKeepsOutcome(r.wire, s, fin.kind, fin.outcome);
    }
    if Past(fin.pc, AtSnapshot) {
      PushKeepsLog(r.wire, s, fin.kind, fin.log);
    }
  }

  // Judging.

  lemma WorstAtLeast(outcomes: seq<Outcome>)
    ensures Severity(Aborted) <= Severity(Worst([Aborted] + outcomes))
  {
    WorstIsMaximum([Aborted] + outcomes);
    assert ([Aborted] + outcomes)[0] == Aborted;
  }

  /** With every shard finished, rolling up the listed codes gives the worst of the shards' endings. */
  lemma NaturalJudgement(w: Wire, states: seq<(ShardKey, ShardRow)>)
    requires ClientSide(w) && ServerSide(w) && Lists(states, w.work.shards)
    requires AllFinished(w.work.shards, w.clients.Keys) && w.clients.Keys != {}
    ensures WorstEnding(Combine(Codes(states)), w.clients)
  {
    CodesAreExits(w, states);
    forall k | k in w.clients
      ensures w.clients[k].finalSent
      ensures Severity(OfShard(w.clients[k].exit)) <= Severity(Combine(Codes(states)))
    {
      assert ShardOk(w.work, k, w.clients[k]);
      var i :| 0 <= i < |states| && states[i].0 == k;
      CombineNoBetter(Codes(states), i);
    }
    var k :| k in w.clients;
    var i :| 0 <= i < |states| && states[i].0 == k;
    CombineNoBetter(Codes(states), i);
    var j :| 0 <= j < |Codes(states)| && Combine(Codes(states)) == OfShard(Codes(states)[j]);
    assert states[j].0 in w.clients;
  }

  lemma CodesAreExits(w: Wire, states: seq<(ShardKey, ShardRow)>)
    requires ServerSide(w) && Lists(states, w.work.shards) && AllFinished(w.work.shards, w.clients.Keys)
    ensures forall i :: 0 <= i < |states| ==> states[i].0 in w.clients && Codes(states)[i] == w.clients[states[i].0].exit
  {
    forall i | 0 <= i < |states|
      ensures states[i].0 in w.clients && Codes(states)[i] == w.clients[states[i].0].exit
    {
      assert ShardOk(w.work, states[i].0, w.clients[states[i].0]);
    }
  }

  lemma JudgeSafe(r: Run, f: nat, states: seq<(ShardKey, ShardRow)>)
    requires Safe(r) && Can(r, Judge(f, states))
    ensures Safe(Did(r, Judge(f, states)))
  {
    var r' := Did(r, Judge(f, states));
    var fin := r.fins[f];
    assert FinOk(fin, r);
    if r.report.None? {
      JudgedFair(r.wire, fin.kind, states);
    }
    assert FinOk(r'.fins[f], r');
    OthersUnmoved(r, r', f);
  }

  lemma JudgedFair(w: Wire, kind: Kind, states: seq<(ShardKey, ShardRow)>)
    requires ClientSide(w) && ServerSide(w) && Lists(states, w.work.shards)
    requires kind.Natural? ==> w.clients.Keys != {} && AllFinished(w.work.shards, w.clients.Keys)
    ensures FairOutcome(kind, Judged(kind, states), w.clients)
  {
    match kind {
      case Natural => NaturalJudgement(w, states);
      case Stopped => WorstAtLeast(Evidence(states));
      case Orphaned(codes) => WorstAtLeast(Endings(codes));
    }
  }

  /** A finaliser's own step leaves every other finaliser sound while report, clients and working state stand. */
  lemma OthersUnmoved(r: Run, r': Run, f: nat)
    requires Safe(r) && r'.wire == r.wire && r'.report == r.report
    requires forall g :: g in r'.fins && g != f ==> g in r.fins && r'.fins[g] == r.fins[g]
    ensures forall g :: g in r'.fins && g != f ==> FinOk(r'.fins[g], r')
  {
    forall g | g in r'.fins && g != f ensures FinOk(r'.fins[g], r') {
      assert FinOk(r.fins[g], r);
    }
  }

  // Snapshot.

  lemma SnapshotGood(w: Wire, kind: Kind)
    requires ClientSide(w) && ServerSide(w)
    requires kind.Natural? ==> AllFinished(w.work.shards, w.clients.Keys)
    ensures GoodLog(kind, w.work.log, w.clients)
  {
    forall k | k in w.clients
      ensures ShardLog(w.work.log, k) <= w.clients[k].log
      ensures kind.Natural? ==> w.clients[k].finalSent && ShardLog(w.work.log, k) == w.clients[k].log
    {
      assert ShardOk(w.work, k, w.clients[k]);
    }
  }

  lemma SnapshotSafe(r: Run, f: nat)
    requires Safe(r) && Can(r, Snapshot(f))
    ensures Safe(Did(r, Snapshot(f)))
  {
    var r' := Did(r, Snapshot(f));
    assert FinOk(r.fins[f], r);
    if r.report.None? {
      SnapshotGood(r.wire, r.fins[f].kind);
    }
    assert FinOk(r'.fins[f], r');
    OthersUnmoved(r, r', f);
  }

  // Saving and discarding.

  lemma SaveSafe(r: Run, f: nat)
    requires Safe(r) && Can(r, Save(f))
    ensures Safe(Did(r, Save(f)))
  {
    var r' := Did(r, Save(f));
    assert FinOk(r.fins[f], r);
    forall g | g in r'.fins ensures FinOk(r'.fins[g], r') {
      assert FinOk(r.fins[g], r);
    }
  }

  lemma DiscardSafe(r: Run, f: nat)
    requires Safe(r) && Can(r, Discard(f))
    ensures Safe(Did(r, Discard(f)))
  {
    var r' := Did(r, Discard(f));
    assert FinOk(r.fins[f], r);
    forall g | g in r'.fins ensures FinOk(r'.fins[g], r') {
      assert FinOk(r.fins[g], r);
    }
  }

  lemma BeginSafe(r: Run, f: nat, kind: Kind)
    requires Safe(r) && Can(r, Begin(f, kind))
    ensures Safe(Did(r, Begin(f, kind)))
  {
    var r' := Did(r, Begin(f, kind));
    assert FinOk(r'.fins[f], r');
    OthersUnmoved(r, r', f);
  }

  lemma LookSafe(r: Run, f: nat, works: bool)
    requires Safe(r) && Can(r, Look(f, works))
    ensures Safe(Did(r, Look(f, works)))
  {
    assert FinOk(r.fins[f], r);
    OthersUnmoved(r, Did(r, Look(f, works)), f);
  }

  lemma GradeSafe(r: Run, f: nat)
    requires Safe(r) && Can(r, Grade(f))
    ensures Safe(Did(r, Grade(f)))
  {
    assert FinOk(r.fins[f], r);
    OthersUnmoved(r, Did(r, Grade(f)), f);
  }

  lemma CloseSafe(r: Run, f: nat)
    requires Safe(r) && Can(r, Close(f))
    ensures Safe(Did(r, Close(f)))
  {
    assert FinOk(r.fins[f], r);
    OthersUnmoved(r, Did(r, Close(f)), f);
  }

  lemma FailSafe(r: Run, f: nat)
    requires Safe(r) && Can(r, Fail(f))
    ensures Safe(Did(r, Fail(f)))
  {
    assert FinOk(r.fins[f], r);
    OthersUnmoved(r, Did(r, Fail(f)), f);
  }

  /** Every step of every finaliser and every push keeps the invariant. */
  lemma StepSafe(r: Run, a: Act)
    requires Safe(r) && Can(r, a)
    ensures Safe(Did(r, a))
  {
    match a {
      case Push(s) => PushSafe(r, s);
      case Begin(f, kind) => BeginSafe(r, f, kind);
      case Judge(f, states) => JudgeSafe(r, f, states);
      case Look(f, works) => LookSafe(r, f, works);
      case Snapshot(f) => SnapshotSafe(r, f);
      case Save(f) => SaveSafe(r, f);
      case Grade(f) => GradeSafe(r, f);
      case Discard(f) => DiscardSafe(r, f);
      case Close(f) => CloseSafe(r, f);
      case Fail(f) => FailSafe(r, f);
    }
  }

  /** The counting test is what lets a natural completion begin: with only
      planned shards pushing, it passes exactly when the machine's guard does. */
  lemma CountingBegins(r: Run, f: nat, profile: Profile, fanOut: seq<string>, cluster: string)
    requires Safe(r) && r.discards == 0 && f !in r.fins
    requires Stored(profile, fanOut) && profile != []
    requires r.wire.clients.Keys == Planned(profile, if fanOut == [] then [cluster] else fanOut)
    ensures CountMet(profile, fanOut, r.wire.work.shards) <==> Can(r, Begin(f, Natural))
  {
    var cs := if fanOut == [] then [cluster] else fanOut;
    OnlyPlannedKeys(r.wire.work.shards, profile, cs);
    CountMetIff(profile, fanOut, cluster, r.wire.work.shards);
    EveryShardIff(r.wire.work.shards, profile, cs);
    var k := ShardKey(profile[0].scenarioId, cs[0], 0);
    PlannedMember(profile, cs, k);
    assert Asks(profile[0], k);
  }

  // ------------------------------------------------------------------
  // Over whole histories.

  ghost predicate History(r: Run, acts: seq<Act>, r': Run)
    decreases |acts|
  {
    if acts == [] then r' == r
    else ClientSide(r.wire) && Can(r, acts[0]) && History(Did(r, acts[0]), acts[1..], r')
  }

  lemma {:induction false} HistorySafe(r: Run, acts: seq<Act>, r': Run)
    requires Safe(r) && History(r, acts, r')
    ensures Safe(r')
    ensures r.report.Some? ==> r'.report == r.report
    decreases |acts|
  {
    if acts != [] {
      StepSafe(r, acts[0]);
      HistorySafe(Did(r, acts[0]), acts[1..], r');
    }
  }

  /** Written once, never changed: between any two moments of any history, a
      stored report is the same report; it was built before any discard; and it
      holds of every shard a prefix of what that shard numbered. */
  lemma ReportWrittenOnce(r0: Run, before: seq<Act>, r1: Run, later: seq<Act>, r2: Run)
    requires Start(r0) && History(r0, before, r1) && History(r1, later, r2)
    ensures r1.report.Some? ==> r2.report == r1.report
    ensures r2.report.Some? ==> r2.report.value.generation == 0 && Prefixes(r2.report.value.log, r2.wire.clients)
    ensures r2.discards > 0 ==> r2.report.Some?
  {
    StartSafe(r0);
    HistorySafe(r0, before, r1);
    HistorySafe(r1, later, r2);
  }

  /** A natural completion that wins the save reports every interval every
      planned shard ever numbered, and its outcome is the worst of the shards'
      own; any other winner reports at least "aborted". */
  lemma NaturalReportComplete(r0: Run, acts: seq<Act>, r: Run)
    requires Start(r0) && History(r0, acts, r) && r.report.Some?
    ensures r.report.value.kind.Natural? ==>
              Complete(r.report.value.log, r.wire.clients) && WorstEnding(r.report.value.outcome, r.wire.clients)
    ensures r.report.value.kind.Natural? ==> EndingMeans(r.report.value.outcome, r.wire.clients)
    ensures !r.report.value.kind.Natural? ==> r.report.value.outcome != Passed
  {
    StartSafe(r0);
    HistorySafe(r0, acts, r);
    if r.report.value.kind.Natural? {
      WorstEndingMeans(r.report.value.outcome, r.wire.clients);
    }
  }

  /** What a natural report says, over the shards' exit codes: a pass exactly when
      every planned shard exited 0, an error exactly when one left no code or an
      unclear one, a failure exactly when one left 3 and none was unclear. */
  ghost predicate EndingMeans(o: Outcome, clients: map<ShardKey, Client>)
  {
    && (o == Passed <==> forall k :: k in clients ==> clients[k].exit == Some(0))
    && (o == Error <==> exists k :: k in clients && Unclear(clients[k].exit))
    && (o == Failed <==> (exists k :: k in clients && clients[k].exit == Some(3)) && forall k :: k in clients ==> !Unclear(clients[k].exit))
  }

  lemma WorstEndingMeans(o: Outcome, clients: map<ShardKey, Client>)
    requires WorstEnding(o, clients)
    ensures EndingMeans(o, clients)
  {
    forall k | k in clients ensures Means(clients[k].exit, OfShard(clients[k].exit)) {
      ShardMeans(clients[k].exit);
    }
  }

  ghost predicate Reused(acts: seq<Act>, f: nat)
  {
    exists i :: 0 <= i < |acts| && acts[i].Begin? && acts[i].f == f
  }

  /** A finaliser goes forward: once it has judged, its outcome stays, once it has looked, what it saw, and once it has read, its log. */
  ghost predicate GoesOn(a: Fin, b: Fin)
  {
    && b.kind == a.kind && Rank(a.pc) <= Rank(b.pc)
    && (Past(a.pc, AtJudge) ==> b.outcome == a.outcome)
    && (Past(a.pc, AtLook) ==> b.already == a.already)
    && (Past(a.pc, AtSnapshot) ==> b.log == a.log && b.generation == a.generation)
  }

  lemma StepGoesOn(r: Run, a: Act, f: nat)
    requires ClientSide(r.wire) && Can(r, a) && f in r.fins
    ensures f in Did(r, a).fins ==> GoesOn(r.fins[f], Did(r, a).fins[f])
  {
  }

  lemma {:induction false} GoneStaysGone(r: Run, acts: seq<Act>, r': Run, f: nat)
    requires History(r, acts, r') && !Reused(acts, f) && f !in r.fins
    ensures f !in r'.fins
    decreases |acts|
  {
    if acts != [] {
      assert !(acts[0].Begin? && acts[0].f == f);
      RestUnused(acts, f);
      GoneStaysGone(Did(r, acts[0]), acts[1..], r', f);
    }
  }

  lemma RestUnused(acts: seq<Act>, f: nat)
    requires acts != [] && !Reused(acts, f)
    ensures !Reused(acts[1..], f)
  {
    forall i | 0 <= i < |acts[1..]| ensures !(acts[1..][i].Begin? && acts[1..][i].f == f) {
      assert acts[1..][i] == acts[i + 1];
    }
  }

  lemma {:induction false} HistoryGoesOn(r: Run, acts: seq<Act>, r': Run, f: nat)
    requires History(r, acts, r') && !Reused(acts, f) && f in r.fins && f in r'.fins
    ensures GoesOn(r.fins[f], r'.fins[f])
    decreases |acts|
  {
    if acts != [] {
      var r1 := Did(r, acts[0]);
      StepGoesOn(r, acts[0], f);
      RestUnused(acts, f);
      if f in r1.fins {
        HistoryGoesOn(r1, acts[1..], r', f);
      } else {
        GoneStaysGone(r1, acts[1..], r', f);
      }
    }
  }

  /** Whatever its kind, the report holds exactly the log the run held when its
      winner took the snapshot, before any discard. */
  lemma ReportIsTheSnapshot(r0: Run, before: seq<Act>, r1: Run, f: nat, between: seq<Act>, r2: Run, later: seq<Act>, r3: Run)
    requires Start(r0) && History(r0, before, r1) && ClientSide(r1.wire) && Can(r1, Snapshot(f))
    requires History(Did(r1, Snapshot(f)), between, r2) && !Reused(between, f)
    requires ClientSide(r2.wire) && Can(r2, Save(f)) && r2.report.None? && History(Did(r2, Save(f)), later, r3)
    ensures r3.report.Some? && r3.report.value.log == r1.wire.work.log && r1.discards == 0
  {
    assert Safe(r1) by {
      StartSafe(r0);
      HistorySafe(r0, before, r1);
    }
    SnapshotKept(r1, f, between, r2, later, r3);
  }

  lemma SnapshotKept(r1: Run, f: nat, between: seq<Act>, r2: Run, later: seq<Act>, r3: Run)
    requires Safe(r1) && Can(r1, Snapshot(f)) && History(Did(r1, Snapshot(f)), between, r2) && !Reused(between, f)
    requires ClientSide(r2.wire) && Can(r2, Save(f)) && r2.report.None? && History(Did(r2, Save(f)), later, r3)
    ensures r3.report.Some? && r3.report.value.log == r1.wire.work.log && r1.discards == 0
  {
    var r := TakesSnapshot(r1, f);
    SavedAfter(r, f, between, r2, later, r3);
  }

  lemma TakesSnapshot(r: Run, f: nat) returns (r': Run)
    requires Safe(r) && Can(r, Snapshot(f))
    ensures r' == Did(r, Snapshot(f)) && Safe(r') && f in r'.fins
    ensures r'.fins[f].pc == AtSave && r'.fins[f].log == r.wire.work.log && r'.fins[f].generation == r.discards
  {
    r' := Did(r, Snapshot(f));
    SnapshotSafe(r, f);
  }

  lemma Judges(r: Run, f: nat, states: seq<(ShardKey, ShardRow)>) returns (r': Run)
    requires Safe(r) && Can(r, Judge(f, states))
    ensures r' == Did(r, Judge(f, states)) && Safe(r') && f in r'.fins
    ensures r'.fins[f].pc == AtLook && r'.fins[f].kind == r.fins[f].kind && r'.fins[f].outcome == Judged(r.fins[f].kind, states)
  {
    r' := Did(r, Judge(f, states));
    JudgeSafe(r, f, states);
  }

  /** A finaliser that saves first, some time after it was in this state. */
  lemma SavedAfter(r1: Run, f: nat, between: seq<Act>, r2: Run, later: seq<Act>, r3: Run)
    requires Safe(r1) && f in r1.fins && History(r1, between, r2) && !Reused(between, f)
    requires ClientSide(r2.wire) && Can(r2, Save(f)) && r2.report.None? && History(Did(r2, Save(f)), later, r3)
    ensures r3.report.Some? && r3.report.value.kind == r1.fins[f].kind
    ensures Past(r1.fins[f].pc, AtJudge) ==> r3.report.value.outcome == r1.fins[f].outcome
    ensures Past(r1.fins[f].pc, AtSnapshot) ==> r3.report.value.log == r1.fins[f].log && r1.fins[f].generation == 0
  {
    HistorySafe(r1, between, r2);
    HistoryGoesOn(r1, between, r2, f);
    StepSafe(r2, Save(f));
    HistorySafe(Did(r2, Save(f)), later, r3);
  }

  /** What a sweep that closes on orphaned completions reports, over their codes. */
  ghost predicate OrphansMean(o: Outcome, codes: seq<Option<int>>)
  {
    var unclear := exists i :: 0 <= i < |codes| && Unclear(codes[i]);
    var failed := exists i :: 0 <= i < |codes| && codes[i] == Some(3);
    o == if unclear then Error else if failed then Failed else Aborted
  }

  lemma OrphansJudged(codes: seq<Option<int>>)
    ensures OrphansMean(Worst([Aborted] + Endings(codes)), codes)
  {
    var all := [Aborted] + Endings(codes);
    forall i | 0 <= i < |codes| ensures all[i + 1] == OfShard(codes[i]) && Means(codes[i], all[i + 1]) {
      ShardMeans(codes[i]);
    }
    forall j | 0 <= j < |all| ensures j == 0 || Means(codes[j - 1], all[j]) {
      assert j == 0 || all[j - 1 + 1] == all[j];
    }
  }

  /** And it says what its winner judged from the shards as they were listed then. */
  lemma ReportIsTheJudgement(r0: Run, before: seq<Act>, r1: Run, f: nat, states: seq<(ShardKey, ShardRow)>, between: seq<Act>, r2: Run, later: seq<Act>, r3: Run)
    requires Start(r0) && History(r0, before, r1) && ClientSide(r1.wire) && Can(r1, Judge(f, states))
    requires History(Did(r1, Judge(f, states)), between, r2) && !Reused(between, f)
    requires ClientSide(r2.wire) && Can(r2, Save(f)) && r2.report.None? && History(Did(r2, Save(f)), later, r3)
    ensures r3.report.Some? && r3.report.value.kind == r1.fins[f].kind
    ensures r3.report.value.kind.Natural? ==> r3.report.value.outcome == Combine(Codes(states))
    ensures r3.report.value.kind.Stopped? ==> StopMeans(r3.report.value.outcome, states)
    ensures r3.report.value.kind.Orphaned? ==> OrphansMean(r3.report.value.outcome, r3.report.value.kind.codes)
  {
    StartSafe(r0);
    HistorySafe(r0, before, r1);
    var r := Judges(r1, f, states);
    SavedAfter(r, f, between, r2, later, r3);
    StopVerdict(states);
    if r1.fins[f].kind.Orphaned? {
      OrphansJudged(r1.fins[f].kind.codes);
    }
  }

  lemma Looks(r: Run, f: nat, works: bool) returns (r': Run)
    requires ClientSide(r.wire) && Can(r, Look(f, works))
    ensures r' == Did(r, Look(f, works)) && f in r'.fins
    ensures r'.fins[f].pc == AtSnapshot && (r'.fins[f].already <==> works && r.report.Some?)
  {
    r' := Did(r, Look(f, works));
  }

  /** What a finaliser does once it has saved was settled when it looked: it grades
      unless the look worked and found a report, and in that case it never does. */
  lemma LookDecidesGrading(r1: Run, f: nat, works: bool, between: seq<Act>, r2: Run)
    requires ClientSide(r1.wire) && Can(r1, Look(f, works)) && History(Did(r1, Look(f, works)), between, r2) && !Reused(between, f)
    requires ClientSide(r2.wire) && Can(r2, Save(f))
    ensures Can(Did(r2, Save(f)), Grade(f)) <==> !works || r1.report.None?
    ensures Can(Did(r2, Save(f)), Discard(f)) <==> works && r1.report.Some?
  {
    var r := Looks(r1, f, works);
    HistoryGoesOn(r, between, r2, f);
  }

  ghost predicate HasSave(acts: seq<Act>)
  {
    exists i :: 0 <= i < |acts| && acts[i].Save?
  }

  lemma {:induction false} SavedIff(r: Run, acts: seq<Act>, r': Run)
    requires Safe(r) && History(r, acts, r')
    ensures r'.report.Some? <==> r.report.Some? || HasSave(acts)
    decreases |acts|
  {
    if acts != [] {
      StepSafe(r, acts[0]);
      SavedIff(Did(r, acts[0]), acts[1..], r');
      if acts[0].Save? {
        assert HasSave(acts);
      } else if i :| 0 <= i < |acts[1..]| && acts[1..][i].Save? {
        assert acts[i + 1].Save?;
      } else if i :| 0 <= i < |acts| && acts[i].Save? {
        assert acts[1..][i - 1].Save?;
      }
    }
  }

  /** A run has a report exactly when some finaliser got as far as saving, and it
      is the first such finaliser's: what it judged, and what it had read. */
  lemma FirstSaveWins(r0: Run, before: seq<Act>, r1: Run, f: nat, later: seq<Act>, r2: Run)
    requires Start(r0) && History(r0, before, r1) && !HasSave(before) && Can(r1, Save(f))
    requires ClientSide(r1.wire) && History(Did(r1, Save(f)), later, r2)
    ensures r1.report.None?
    ensures var fin := r1.fins[f]; r2.report == Some(Report(fin.log, fin.outcome, fin.kind, fin.generation))
  {
    StartSafe(r0);
    SavedIff(r0, before, r1);
    HistorySafe(r0, before, r1);
    StepSafe(r1, Save(f));
    HistorySafe(Did(r1, Save(f)), later, r2);
  }
}
